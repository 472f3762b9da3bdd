/** The `Chatbot` component (components/Chatbot.tsx): the session state
    `{input, messages, isLoading}`, its transitions, and the projection of the state
    onto what the widget shows. The asynchronous submit handler is split into two
    transitions: `Submit` (everything before the `await`) and `Resolve` (everything
    after it). */
module Chatbot {
  import opened Types
  import JsString

  /** The greeting the transcript starts with. */
  const GreetingText := "Hello! I'm the boywithdv AI assistant. I specialize in Flutter development and cross-platform architecture. How can I help you today?"
  /** The only message left after the Clear button. */
  const ClearedText := "Chat history cleared. I'm ready for more Flutter questions!"
  /** Label of a citation chip whose title is empty. */
  const LinkLabel := "Link"

  datatype State = State(input: string, messages: seq<Message>, isLoading: bool)

  /** The state after the synchronous part of the submit handler, and the question
      handed to the gateway when the handler got past its guard. */
  datatype Step = Step(next: State, query: Option<string>)

  /** The state the component mounts with. */
  function Init(): (s: State)
    ensures s.input == "" && !s.isLoading
    ensures |s.messages| == 1
    ensures s.messages[0].role == Assistant && s.messages[0].text == GreetingText
    ensures s.messages[0].sources.None?
  {
    State("", [Message(Assistant, GreetingText, None)], false)
  }

  /** The text field's `onChange`: the input becomes whatever was typed. */
  function Type(s: State, text: string): (r: State)
    ensures r.input == text
    ensures r.messages == s.messages && r.isLoading == s.isLoading
  {
    s.(input := text)
  }

  /** The part of `handleSubmit` before the `await`. A blank input (after trimming)
      or a pending answer leaves everything as it was and sends nothing. Otherwise
      the untrimmed input is appended as one user message, the field is cleared,
      loading starts, and the untrimmed input is the question sent upstream. */
  function Submit(s: State): (r: Step)
    ensures r.query.None? <==> JsString.IsBlank(s.input) || s.isLoading
    ensures r.query.None? ==> r.next == s
    ensures r.query.Some? ==>
              && r.query.value == s.input
              && r.next.input == ""
              && r.next.isLoading
              && |r.next.messages| == |s.messages| + 1
              && r.next.messages[..|s.messages|] == s.messages
              && r.next.messages[|s.messages|] == Message(User, s.input, None)
  {
    if JsString.IsBlank(s.input) || s.isLoading then Step(s, None)
    else
      var userMessage := Message(User, s.input, None);
      Step(State("", s.messages + [userMessage], true), Some(s.input))
  }

  /** The guard in terms of characters: a submit goes through exactly when nothing is
      pending and the input holds at least one character that is not white space. */
  lemma SubmitAcceptedIff(s: State)
    ensures Submit(s).query.Some? <==>
              !s.isLoading && exists i :: 0 <= i < |s.input| && !JsString.IsWhitespace(s.input[i])
  {
  }

  /** The part of `handleSubmit` after the `await`: the gateway's message is appended
      verbatim to whatever the transcript is by then, and loading stops. */
  function Resolve(s: State, m: Message): (r: State)
    ensures |r.messages| == |s.messages| + 1
    ensures r.messages[..|s.messages|] == s.messages
    ensures r.messages[|s.messages|] == m
    ensures !r.isLoading && r.input == s.input
  {
    State(s.input, s.messages + [m], false)
  }

  /** The Clear button: the transcript becomes the single fixed assistant message
      whatever its length was; the input and the loading flag are not touched. */
  function Clear(s: State): (r: State)
    ensures |r.messages| == 1
    ensures r.messages[0] == Message(Assistant, ClearedText, None)
    ensures r.input == s.input && r.isLoading == s.isLoading
  {
    s.(messages := [Message(Assistant, ClearedText, None)])
  }

  /** A rendered citation: an anchor with its `href` and its visible caption. */
  datatype Chip = Chip(href: string, caption: string)

  /** The anchor for one web citation: it links to the uri and is captioned with the
      title, or with "Link" when the title is empty, so it is never uncaptioned. */
  function ChipFor(w: Web): (c: Chip)
    ensures c.href == w.uri
    ensures c.caption != ""
    ensures w.title != "" ==> c.caption == w.title
    ensures w.title == "" ==> c.caption == LinkLabel
  {
    Chip(w.uri, if w.title != "" then w.title else LinkLabel)
  }

  /** `sources.map(s => s.web && <a …/>)`: one chip per source that has a `web`
      field, in order; a source without one renders nothing. */
  function ChipsOf(sources: seq<Source>): (r: seq<Chip>)
    ensures |r| <= |sources|
    ensures forall k :: 0 <= k < |r| ==> r[k].caption != ""
  {
    if sources == [] then []
    else
      var head := match sources[0].web case Some(w) => [ChipFor(w)] case None => [];
      head + ChipsOf(sources[1..])
  }

  /** The chips shown under a message: none when `sources` is missing or empty. */
  function Chips(m: Message): (r: seq<Chip>)
    ensures m.sources.None? || m.sources.value == [] ==> r == []
    ensures m.sources.Some? ==> r == ChipsOf(m.sources.value)
  {
    if m.sources.Some? && |m.sources.value| > 0 then ChipsOf(m.sources.value) else []
  }

  /** Chip rendering respects concatenation, so chips keep the sources' order. */
  lemma {:induction false} ChipsOfAppend(a: seq<Source>, b: seq<Source>)
    ensures ChipsOf(a + b) == ChipsOf(a) + ChipsOf(b)
  {
    if a == [] {
      assert a + b == b;
    } else {
      assert (a + b)[1..] == a[1..] + b;
      ChipsOfAppend(a[1..], b);
    }
  }

  /** When every source has a `web` field, chip k is exactly the chip of source k. */
  lemma {:induction false} ChipsOfAllWeb(sources: seq<Source>)
    requires forall k :: 0 <= k < |sources| ==> sources[k].web.Some?
    ensures |ChipsOf(sources)| == |sources|
    ensures forall k :: 0 <= k < |sources| ==> ChipsOf(sources)[k] == ChipFor(sources[k].web.value)
  {
    if sources != [] {
      ChipsOfAllWeb(sources[1..]);
    }
  }

  /** Sources without a `web` field contribute no chip at all. */
  lemma {:induction false} ChipsOfNoWeb(sources: seq<Source>)
    requires forall k :: 0 <= k < |sources| ==> sources[k].web.None?
    ensures ChipsOf(sources) == []
  {
    if sources != [] {
      ChipsOfNoWeb(sources[1..]);
    }
  }

  /** Every chip comes from a source with a `web` field, and every such source shows
      up as a chip. */
  lemma {:induction false} ChipsOfMembers(sources: seq<Source>)
    ensures forall k :: 0 <= k < |sources| && sources[k].web.Some? ==>
              ChipFor(sources[k].web.value) in ChipsOf(sources)
    ensures forall c :: c in ChipsOf(sources) ==>
              exists k :: 0 <= k < |sources| && sources[k].web.Some? && c == ChipFor(sources[k].web.value)
  {
    if sources != [] {
      var tail := sources[1..];
      ChipsOfMembers(tail);
      forall k | 0 <= k < |sources| && sources[k].web.Some?
        ensures ChipFor(sources[k].web.value) in ChipsOf(sources)
      {
        if k > 0 {
          assert sources[k] == tail[k - 1];
        }
      }
      forall c | c in ChipsOf(sources)
        ensures exists k :: 0 <= k < |sources| && sources[k].web.Some? && c == ChipFor(sources[k].web.value)
      {
        if c !in ChipsOf(tail) {
          assert sources[0].web.Some? && c == ChipFor(sources[0].web.value);
        } else {
          var j :| 0 <= j < |tail| && tail[j].web.Some? && c == ChipFor(tail[j].web.value);
          assert sources[j + 1] == tail[j];
        }
      }
    }
  }

  /** One rendered message: right-aligned when the user wrote it, its text, whether
      the "Sources:" block is shown, and the chips inside that block. */
  datatype Bubble = Bubble(fromUser: bool, text: string, sourcesBlock: bool, chips: seq<Chip>)

  /** What the widget shows: one bubble per message, the typing indicator, and
      whether the send button is disabled. */
  datatype View = View(bubbles: seq<Bubble>, typingIndicator: bool, sendDisabled: bool)

  function BubbleOf(m: Message): Bubble {
    Bubble(m.role == User, m.text, m.sources.Some? && |m.sources.value| > 0, Chips(m))
  }

  /** The render projection. It is a pure function of the state: bubbles follow the
      transcript one to one and in order; the indicator is shown and the button
      disabled exactly while an answer is pending. */
  function Render(s: State): (v: View)
    ensures |v.bubbles| == |s.messages|
    ensures forall k :: 0 <= k < |s.messages| ==>
              && v.bubbles[k].fromUser == (s.messages[k].role == User)
              && v.bubbles[k].text == s.messages[k].text
              && v.bubbles[k].chips == Chips(s.messages[k])
              && v.bubbles[k].sourcesBlock == (s.messages[k].sources.Some? && |s.messages[k].sources.value| > 0)
    ensures v.typingIndicator <==> s.isLoading
    ensures v.sendDisabled <==> s.isLoading
  {
    View(seq(|s.messages|, k requires 0 <= k < |s.messages| => BubbleOf(s.messages[k])),
         s.isLoading, s.isLoading)
  }

  /** The "Sources:" heading depends on the list's length, not on its chips: a list
      whose sources all lack `web` shows the heading over an empty row of chips. */
  lemma SourcesBlockWithoutChips(m: Message)
    requires m.sources.Some? && |m.sources.value| > 0
    requires forall k :: 0 <= k < |m.sources.value| ==> m.sources.value[k].web.None?
    ensures BubbleOf(m).sourcesBlock && BubbleOf(m).chips == []
  {
    ChipsOfNoWeb(m.sources.value);
  }
}
