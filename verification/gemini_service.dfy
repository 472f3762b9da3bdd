/** `queryGeminiAboutUser` (services/geminiService.ts): builds the prompt, calls the
    generative-language client and normalises whatever comes back into one assistant
    `Message`. The client library itself is abstract: its result is an `Outcome`. */
module GeminiService {
  import opened Types

  /** Prefix put in front of every visitor question. */
  const QueryPrefix := "User Query regarding boywithdv: "
  /** Text used when the upstream answer carries no text. */
  const NoOutputText := "I was unable to process the query. No output generated."
  /** Text of the message that replaces any failure inside the request block. */
  const ErrorText := "ERROR: Communication timeout with neural engine. Please check your network."

  /** The slice of the upstream `GenerateContentResponse` the service reads; every
      link of `candidates?.[0]?.groundingMetadata?.groundingChunks` may be missing. */
  datatype GroundingMetadata = GroundingMetadata(groundingChunks: Option<seq<Source>>)
  datatype Candidate = Candidate(groundingMetadata: Option<GroundingMetadata>)
  datatype Response = Response(text: Option<string>, candidates: Option<seq<Candidate>>)

  /** What the awaited `generateContent` call does inside the `try`: it returns a
      response, or something in the block throws (network, authentication, a
      malformed payload). */
  datatype Outcome = Ok(response: Response) | Err

  /** Constructing the client happens before the `try`, so its failure escapes. */
  datatype Client = Built | ConstructionFailed

  /** How the promise returned by the service settles. */
  datatype Settled = Fulfilled(message: Message) | Rejected

  /** The `contents` sent upstream: the fixed prefix, then the question verbatim. */
  function Prompt(userPrompt: string): (r: string)
    ensures |r| == |QueryPrefix| + |userPrompt|
    ensures r[..|QueryPrefix|] == QueryPrefix
    ensures r[|QueryPrefix|..] == userPrompt
  {
    QueryPrefix + userPrompt
  }

  /** Distinct questions are sent upstream as distinct prompts. */
  lemma PromptInjective(a: string, b: string)
    ensures Prompt(a) == Prompt(b) <==> a == b
  {
  }

  /** Every optional link down to the first candidate's grounding chunks is present. */
  predicate HasGroundingChunks(resp: Response) {
    && resp.candidates.Some?
    && |resp.candidates.value| > 0
    && resp.candidates.value[0].groundingMetadata.Some?
    && resp.candidates.value[0].groundingMetadata.value.groundingChunks.Some?
  }

  /** The first candidate's grounding chunks, when they are all there. */
  function FirstGroundingChunks(resp: Response): seq<Source>
    requires HasGroundingChunks(resp)
  {
    resp.candidates.value[0].groundingMetadata.value.groundingChunks.value
  }

  /** `response.candidates?.[0]?.groundingMetadata?.groundingChunks`, step by step. */
  function GroundingChunks(resp: Response): Option<seq<Source>>
  {
    match resp.candidates
    case None => None
    case Some(cs) =>
      if |cs| == 0 then None
      else
        match cs[0].groundingMetadata
        case None => None
        case Some(gm) => gm.groundingChunks
  }

  /** The body of the `try`/`catch`: turns the upstream outcome into the message the
      widget appends. It is always an assistant message with non-empty text; on
      success it keeps the upstream text (or the placeholder) and carries a source
      list, defaulting to empty; on failure it is the fixed error text without any
      `sources` field. */
  function Normalize(o: Outcome): (m: Message)
    ensures m.role == Assistant
    ensures m.text != ""
    ensures o.Err? ==> m.text == ErrorText && m.sources == None
    ensures o.Ok? ==> m.sources.Some?
    ensures o.Ok? && o.response.text.Some? && o.response.text.value != "" ==>
              m.text == o.response.text.value
    ensures o.Ok? && (o.response.text.None? || o.response.text.value == "") ==>
              m.text == NoOutputText
    ensures o.Ok? && HasGroundingChunks(o.response) ==>
              m.sources.value == FirstGroundingChunks(o.response)
    ensures o.Ok? && !HasGroundingChunks(o.response) ==> m.sources.value == []
  {
    match o
    case Err => Message(Assistant, ErrorText, None)
    case Ok(resp) =>
      var text := if resp.text.Some? && resp.text.value != "" then resp.text.value else NoOutputText;
      var sources := match GroundingChunks(resp) case Some(chunks) => chunks case None => [];
      Message(Assistant, text, Some(sources))
  }

  /** Only the error path produces a message without a `sources` field. */
  lemma SourcesAbsentIffError(o: Outcome)
    ensures Normalize(o).sources.None? <==> o.Err?
  {
  }

  /** `queryGeminiAboutUser(userPrompt)`, with the client's construction result and
      the upstream call as parameters. A construction failure rejects the promise;
      otherwise it fulfils with an assistant message that is never empty, whatever
      the upstream call did. */
  function Query(userPrompt: string, client: Client, generate: string -> Outcome): (r: Settled)
    ensures r.Rejected? <==> client.ConstructionFailed?
    // A corollary of the next clause and `Normalize`'s contract, kept as the
    // summary a caller needs.
    ensures r.Fulfilled? ==> r.message.role == Assistant && r.message.text != ""
    ensures client.Built? ==> r == Fulfilled(Normalize(generate(Prompt(userPrompt))))
  {
    match client
    case ConstructionFailed => Rejected
    case Built => Fulfilled(Normalize(generate(Prompt(userPrompt))))
  }

  /** The upstream call is consulted only at the prefixed prompt: two gateways that
      agree there give the same message. */
  lemma QueryReadsOnlyPrompt(userPrompt: string, g1: string -> Outcome, g2: string -> Outcome)
    requires g1(Prompt(userPrompt)) == g2(Prompt(userPrompt))
    ensures Query(userPrompt, Built, g1) == Query(userPrompt, Built, g2)
  {
  }
}
