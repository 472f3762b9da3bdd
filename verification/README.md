# Portfolio chat widget — a Dafny model

The portfolio site of boywithdv embeds a chat widget ("Portfolio Assistant") that
forwards a visitor's question to a generative-language service and shows the
answer with optional citation links. This project models the two pieces of the
site that hold logic:

- the **chat session controller** of `components/Chatbot.tsx`: the state
  `{input, messages, isLoading}`, the guarded submit handler, the answer handler,
  the Clear button and the projection of the state onto bubbles, citation chips,
  the typing indicator and the send button;
- the **response normaliser** `queryGeminiAboutUser` of
  `services/geminiService.ts`: prompt prefixing, the text placeholder, the
  defaulting of the citation list and the conversion of any failure inside the
  request block into a fixed error message.

Modules:

| module | file | models |
|---|---|---|
| `Types` | `types.dfy` | `Message` and its citation shape (types.ts) |
| `JsString` | `js_string.dfy` | `String.prototype.trim` (ECMA-262, section 22.1.3.32), used by the guard |
| `GeminiService` | `gemini_service.dfy` | `queryGeminiAboutUser`, with the client library as parameters |
| `Chatbot` | `chatbot.dfy` | the component's state, transitions and render projection |
| `ChatSession` | `chat_session.dfy` | the component over time: traces of typing, pressing, clearing and gateway settlements |

The asynchronous submit handler is split in two: `Chatbot.Submit` is everything
before the `await`, and `Chatbot.Resolve` is everything after it. In
`ChatSession` the outstanding call is explicit (`World.pending` holds the
question whose call has not settled yet). The upstream client is abstract: a
`GatewaySettled` event brings the client's construction result
(`Built | ConstructionFailed`) and the upstream call as a function from prompt to
`Ok(response) | Err`.

Where the code's behaviour is easy to misread, the model follows the code:

- The guard trims the input, but the appended user message and the question sent
  upstream are the **untrimmed** input (components/Chatbot.tsx:22-29).
- A failure to construct the client happens before the `try`
  (services/geminiService.ts:8-10). It is not turned into the error message: the
  promise rejects, the submit handler aborts before `setIsLoading(false)`, and the
  widget stays in the loading state for good (`ChatSession.ConstructionFailureLocksSession`).
  The source assumes the key is pre-configured (services/geminiService.ts:6-7).
- Clear leaves `isLoading` alone, so an answer still pending lands right after the
  cleared-history message (`ChatSession.ClearWhilePending`).
- A successful answer always carries a `sources` field, possibly empty; only the
  error message lacks it (`GeminiService.SourcesAbsentIffError`).
- The "Sources:" heading depends on the length of `sources`, not on how many chips
  render, so a list whose entries all lack `web` shows the heading with no chips
  (`Chatbot.SourcesBlockWithoutChips`).

## Model

| member | source | states |
|---|---|---|
| `JsString.TrimStart` | components/Chatbot.tsx:22 | the leading part of `trim`: a suffix of the input starting at a non-white character, with only white space dropped |
| `JsString.TrimEnd` | components/Chatbot.tsx:22 | the trailing part of `trim`: a prefix of the input ending at a non-white character, with only white space dropped |
| `JsString.Trim` | components/Chatbot.tsx:22 | `input.trim()` is the slice of the input between a leading and a trailing run of white space, and has no white space at either end |
| `JsString.IsBlank` | components/Chatbot.tsx:22 | `!input.trim()` holds exactly when every character of the input is white space |
| `GeminiService.Prompt` | services/geminiService.ts:14 | the prompt sent upstream is the fixed "User Query regarding boywithdv: " followed by the question verbatim |
| `GeminiService.PromptInjective` | services/geminiService.ts:14 | two questions give the same prompt only if they are equal |
| `GeminiService.Normalize` | services/geminiService.ts:31-50 | the message is always an assistant message with non-empty text; on success the text is the upstream text, or the "unable to process" placeholder when that is missing or empty, and the sources are the first candidate's grounding chunks when every optional link is present and empty otherwise; any failure gives the fixed "Communication timeout" text with no sources field |
| `GeminiService.SourcesAbsentIffError` | services/geminiService.ts:38-50 | the message lacks a sources field exactly when the request block failed |
| `GeminiService.Query` | services/geminiService.ts:5-51 | the promise rejects exactly when client construction fails; otherwise it fulfils with the normalised outcome of the upstream call at the prefixed prompt, a non-empty assistant message |
| `GeminiService.QueryReadsOnlyPrompt` | services/geminiService.ts:11-14 | the upstream call is consulted only at the prefixed prompt |
| `Chatbot.Init` | components/Chatbot.tsx:7-11 | the widget mounts with an empty input, not loading, and a transcript of exactly the one assistant greeting |
| `Chatbot.Type` | components/Chatbot.tsx:99-102 | typing replaces the input and changes nothing else |
| `Chatbot.Submit` | components/Chatbot.tsx:20-29 | a blank input or a pending answer leaves the state unchanged and sends nothing; otherwise exactly one user message with the untrimmed input is appended after the unchanged earlier entries, the input is cleared, loading starts, and the question sent is the input as it was before clearing |
| `Chatbot.SubmitAcceptedIff` | components/Chatbot.tsx:22 | a submit goes through exactly when nothing is pending and the input has a non-white character |
| `Chatbot.Resolve` | components/Chatbot.tsx:29-31 | the answer is appended verbatim as the last message, every earlier message is kept, loading stops |
| `Chatbot.Clear` | components/Chatbot.tsx:41-43 | the transcript becomes the single "Chat history cleared" assistant message whatever its length was; input and loading are untouched |
| `Chatbot.ChipFor` | components/Chatbot.tsx:70-77 | a chip links to the citation's uri and is labelled with its title, or "Link" when the title is empty, so its label is never empty |
| `Chatbot.ChipsOf` | components/Chatbot.tsx:68-80 | there are at most as many chips as sources and none is unlabelled |
| `Chatbot.Chips` | components/Chatbot.tsx:64-80 | a message whose sources are missing or empty shows no chips; otherwise its chips are those of its source list |
| `Chatbot.ChipsOfAppend` | components/Chatbot.tsx:68-80 | chips of concatenated source lists are the concatenated chips, so chips keep the order of their sources |
| `Chatbot.ChipsOfAllWeb` | components/Chatbot.tsx:68-80 | when every source has a web field there is one chip per source, chip k built from source k |
| `Chatbot.ChipsOfNoWeb` | components/Chatbot.tsx:69 | sources without a web field render no chip |
| `Chatbot.ChipsOfMembers` | components/Chatbot.tsx:68-80 | every chip comes from a source with a web field, and every such source appears as a chip |
| `Chatbot.Render` | components/Chatbot.tsx:53-108 | one bubble per message in transcript order, right-aligned exactly for user messages, with the message's text and chips, and the "Sources:" heading exactly when the message has a non-empty source list; the typing indicator shows and the send button is disabled exactly while loading |
| `Chatbot.SourcesBlockWithoutChips` | components/Chatbot.tsx:64-69 | a non-empty source list without web fields shows the "Sources:" heading over no chips |
| `ChatSession.Apply` | components/Chatbot.tsx:20-42 | one event on the widget: typing is the onChange update and Clear the button's reset, each keeping the outstanding call; an accepted press makes the pre-clear input the outstanding question and starts loading, a refused one changes nothing; any settlement leaves no call outstanding and one with nothing outstanding changes nothing; a built client's answer stops loading, and a construction failure leaves the component state untouched (so loading stays on). The exact worlds after a press and after a built answer are given by `PressAccepted` and `AnswerArrives` |
| `ChatSession.StartInv` | components/Chatbot.tsx:7-11 | the mounted widget has no outstanding call and a well-formed transcript |
| `ChatSession.ApplyInv` | components/Chatbot.tsx:20-42 | every event keeps the invariant: an outstanding call implies loading, no message is empty, user messages carry no sources |
| `ChatSession.RunInv` | components/Chatbot.tsx:20-42 | the invariant holds after any trace |
| `ChatSession.AcceptedOnlyWhenIdle` | components/Chatbot.tsx:22-29 | a press only gets through when no call is outstanding, and it makes the pre-clear input the outstanding question |
| `ChatSession.InFlightBalance` | components/Chatbot.tsx:20-31 | calls started plus the one outstanding at the start equal calls settled plus the one outstanding at the end |
| `ChatSession.NoDuplicateSends` | components/Chatbot.tsx:22 | from mount, a trace starts at most one more call than it settles, however often the button is pressed |
| `ChatSession.AppendOnly` | components/Chatbot.tsx:25-30 | without Clear the earlier transcript stays a prefix of the later one |
| `ChatSession.PressAccepted` | components/Chatbot.tsx:24-29 | an accepted press appends the user message, clears the field, starts loading and records the question as outstanding |
| `ChatSession.AnswerArrives` | components/Chatbot.tsx:29-31 | a built client's answer to the outstanding question is the normalised upstream outcome for the prefixed question, appended with loading stopped |
| `ChatSession.SubmitThenAnswer` | components/Chatbot.tsx:20-31 | press then answer appends the untrimmed question and the normalised answer to the prefixed question, clears the field and stops loading |
| `ChatSession.ClearWhilePending` | components/Chatbot.tsx:42 | Clear during a pending call keeps loading on, and the answer then lands right after the cleared-history message |
| `ChatSession.LoadingWithoutCallIsStuck` | components/Chatbot.tsx:22 | loading with no outstanding call never ends and sends nothing more |
| `ChatSession.ConstructionFailureLocksSession` | services/geminiService.ts:8-10 | a client construction failure adds no message and leaves the widget loading, sending nothing, for every later trace |
| `ChatSession.FirstConversation` | components/Chatbot.tsx:7-31 | greeting, one typed question and a citation-free answer give the three expected messages with loading off |

## Left out

- JSX markup, CSS classes and animations, and the static components (Hero, Projects, Footer, Navbar): presentational only.
- The auto-scroll effect (components/Chatbot.tsx:14-18) and the navbar scroll threshold (App.tsx:12-18): DOM side effects driven by a floating-point scroll offset.
- The `@google/genai` call itself, the model name, the system instruction, the search tool configuration, `process.env.API_KEY` and `console.error`: a foreign library and I/O, abstracted as the client's construction result and a function from prompt to `Ok(response) | Err`.
- React scheduling: a second press before a re-render (stale closure), `StrictMode` double mounting (index.tsx), and the form's `preventDefault`. The model takes each event on the state as rendered.
- `Project` and `ProfileInfo` in types.ts: they carry no logic.
- Citation titles that are `undefined` are modelled as the empty string; the widget treats both as missing.
- Strings are sequences of Unicode scalar values, while JavaScript strings are UTF-16 code units: lone surrogates cannot be represented and lengths differ outside the Basic Multilingual Plane. The guard is unaffected, since every character `trim` removes lies in that plane.
- `Web.uri` is always a string, while the upstream grounding chunk's uri is optional; a missing uri would render an anchor without a target.
- The upstream `text` getter and grounding chunks are taken as given; a getter that throws is covered by the `Err` outcome.
