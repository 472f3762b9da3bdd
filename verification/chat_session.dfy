/** A chat session over time: the `Chatbot` transitions driven by a trace of events,
    with the one gateway call that may be outstanding made explicit. The gateway is
    abstract: a settling event brings the client's construction result and the
    upstream call, and `queryGeminiAboutUser` turns them into the promise's outcome. */
module ChatSession {
  import opened Types
  import JsString
  import Chatbot
  import GeminiService

  /** The component's state plus the question whose gateway call has not settled. */
  datatype World = World(session: Chatbot.State, pending: Option<string>)

  /** What can happen to a mounted chat widget. */
  datatype Event =
    | Typed(text: string)
    | Pressed
    | Cleared
    | GatewaySettled(client: GeminiService.Client, generate: string -> GeminiService.Outcome)

  /** The world as the widget mounts: the initial state and no call outstanding. */
  function Start(): World {
    World(Chatbot.Init(), None)
  }

  /** A press that gets past the guard of the submit handler. */
  predicate Accepts(w: World, e: Event) {
    e.Pressed? && Chatbot.Submit(w.session).query.Some?
  }

  /** A settling event that meets an outstanding call. */
  predicate Settles(w: World, e: Event) {
    e.GatewaySettled? && w.pending.Some?
  }

  /** One event. A fulfilled call runs the rest of the submit handler; a rejected one
      aborts it, so its `setIsLoading(false)` never runs. A settlement without an
      outstanding call cannot happen and changes nothing. */
  function Apply(w: World, e: Event): (r: World)
    ensures Accepts(w, e) ==> r.pending == Some(w.session.input) && r.session.isLoading
    ensures e.Pressed? && !Accepts(w, e) ==> r == w
    ensures e.Typed? ==> r == World(Chatbot.Type(w.session, e.text), w.pending)
    ensures e.Cleared? ==> r == World(Chatbot.Clear(w.session), w.pending)
    ensures e.GatewaySettled? && w.pending.None? ==> r == w
    ensures e.GatewaySettled? ==> r.pending.None?
    ensures Settles(w, e) && e.client.Built? ==> !r.session.isLoading
    ensures e.GatewaySettled? && e.client.ConstructionFailed? ==> r.session == w.session
  {
    match e
    case Typed(text) => World(Chatbot.Type(w.session, text), w.pending)
    case Pressed =>
      var step := Chatbot.Submit(w.session);
      if step.query.Some? then World(step.next, step.query) else w
    case Cleared => World(Chatbot.Clear(w.session), w.pending)
    case GatewaySettled(client, generate) =>
      match w.pending
      case None => w
      case Some(q) =>
        match GeminiService.Query(q, client, generate)
        case Fulfilled(m) => World(Chatbot.Resolve(w.session, m), None)
        case Rejected => World(w.session, None)
  }

  /** The world after the events of a trace, applied in order. */
  function Run(w: World, evs: seq<Event>): World
    decreases |evs|
  {
    if evs == [] then w else Run(Apply(w, evs[0]), evs[1..])
  }

  /** How many gateway calls a trace starts. */
  function Sent(w: World, evs: seq<Event>): nat
    decreases |evs|
  {
    if evs == [] then 0
    else (if Accepts(w, evs[0]) then 1 else 0) + Sent(Apply(w, evs[0]), evs[1..])
  }

  /** How many gateway calls settle during a trace. */
  function SettledCount(w: World, evs: seq<Event>): nat
    decreases |evs|
  {
    if evs == [] then 0
    else (if Settles(w, evs[0]) then 1 else 0) + SettledCount(Apply(w, evs[0]), evs[1..])
  }

  /** Transcript hygiene: no message is empty and only assistant messages carry
      sources. */
  predicate WellFormed(ms: seq<Message>) {
    forall k :: 0 <= k < |ms| ==> ms[k].text != "" && (ms[k].role == User ==> ms[k].sources.None?)
  }

  /** The session invariant: an outstanding call implies the loading flag, and the
      transcript is well formed. */
  predicate Inv(w: World) {
    && (w.pending.Some? ==> w.session.isLoading)
    && WellFormed(w.session.messages)
  }

  lemma StartInv()
    ensures Inv(Start())
  {
  }

  /** Every event keeps the invariant. */
  lemma ApplyInv(w: World, e: Event)
    requires Inv(w)
    ensures Inv(Apply(w, e))
  {
    match e
    case Pressed => PressedInv(w);
    case Typed(text) => assert Apply(w, e) == World(Chatbot.Type(w.session, text), w.pending);
    case Cleared => ClearedInv(w);
    case GatewaySettled(client, generate) => SettledInv(w, client, generate);
  }

  /** A press keeps the invariant: the appended question is not blank. */
  lemma PressedInv(w: World)
    requires Inv(w)
    ensures Inv(Apply(w, Pressed))
  {
    if Accepts(w, Pressed) {
      PressAccepted(w);
      assert !JsString.IsBlank(w.session.input);
      assert w.session.input != "";
      WellFormedAppend(w.session.messages, Message(User, w.session.input, None));
    } else {
      assert Apply(w, Pressed) == w;
    }
  }

  /** Appending a well-formed message keeps the transcript well formed. */
  lemma WellFormedAppend(ms: seq<Message>, m: Message)
    requires WellFormed(ms)
    requires m.text != "" && (m.role == User ==> m.sources.None?)
    ensures WellFormed(ms + [m])
  {
    assert forall k :: 0 <= k < |ms| ==> (ms + [m])[k] == ms[k];
  }

  /** Clear keeps the invariant: the cleared-history message is well formed. */
  lemma ClearedInv(w: World)
    requires Inv(w)
    ensures Inv(Apply(w, Cleared))
  {
    assert Apply(w, Cleared) == World(Chatbot.Clear(w.session), w.pending);
  }

  /** A settlement keeps the invariant: the answer is a non-empty assistant message. */
  lemma SettledInv(w: World, client: GeminiService.Client, generate: string -> GeminiService.Outcome)
    requires Inv(w)
    ensures Inv(Apply(w, GatewaySettled(client, generate)))
  {
    if w.pending.Some? && client.Built? {
      AnswerArrives(w, generate);
    }
  }

  lemma {:induction false} RunInv(w: World, evs: seq<Event>)
    requires Inv(w)
    ensures Inv(Run(w, evs))
    decreases |evs|
  {
    if evs != [] {
      ApplyInv(w, evs[0]);
      RunInv(Apply(w, evs[0]), evs[1..]);
    }
  }

  /** Single flight: a press only gets through when no call is outstanding. */
  lemma AcceptedOnlyWhenIdle(w: World, e: Event)
    requires Inv(w) && Accepts(w, e)
    ensures w.pending.None?
    ensures Apply(w, e).pending == Some(w.session.input)
  {
  }

  /** Calls started and calls settled balance out, up to the one call that may be
      outstanding at either end of the trace. */
  lemma {:induction false} InFlightBalance(w: World, evs: seq<Event>)
    requires Inv(w)
    ensures Sent(w, evs) + (if w.pending.Some? then 1 else 0)
            == SettledCount(w, evs) + (if Run(w, evs).pending.Some? then 1 else 0)
    decreases |evs|
  {
    if evs != [] {
      ApplyInv(w, evs[0]);
      InFlightBalance(Apply(w, evs[0]), evs[1..]);
    }
  }

  /** No duplicate sends: from the mounted state, a trace starts at most one call more
      than it settles, however often the button is pressed. */
  lemma NoDuplicateSends(evs: seq<Event>)
    ensures Sent(Start(), evs) <= SettledCount(Start(), evs) + 1
  {
    StartInv();
    InFlightBalance(Start(), evs);
  }

  /** Without the Clear button the transcript only grows: what was there stays there,
      in place. */
  lemma {:induction false} AppendOnly(w: World, evs: seq<Event>)
    requires forall k :: 0 <= k < |evs| ==> !evs[k].Cleared?
    ensures w.session.messages <= Run(w, evs).session.messages
    decreases |evs|
  {
    if evs != [] {
      var w' := Apply(w, evs[0]);
      assert w.session.messages <= w'.session.messages;
      AppendOnly(w', evs[1..]);
    }
  }

  /** Unfolds a two-event trace into two single steps. */
  lemma RunTwo(w: World, a: Event, b: Event)
    ensures Run(w, [a, b]) == Apply(Apply(w, a), b)
  {
    assert [a, b][1..] == [b];
    assert [b][1..] == [];
    var w1 := Apply(w, a);
    assert Run(w, [a, b]) == Run(w1, [b]);
    assert Run(w1, [b]) == Run(Apply(w1, b), []);
  }

  /** An accepted press records its question as the outstanding call. */
  lemma PressAccepted(w: World)
    requires Accepts(w, Pressed)
    ensures Apply(w, Pressed) == World(
              Chatbot.State("", w.session.messages + [Message(User, w.session.input, None)], true),
              Some(w.session.input))
  {
  }

  /** A built client answers the outstanding question with its normalised outcome. */
  lemma AnswerArrives(w: World, generate: string -> GeminiService.Outcome)
    requires w.pending.Some?
    ensures Apply(w, GatewaySettled(GeminiService.Built, generate)) == World(
              Chatbot.Resolve(w.session, GeminiService.Normalize(generate(GeminiService.Prompt(w.pending.value)))),
              None)
  {
  }

  /** An accepted press followed by a built client's answer, step by step. */
  lemma PressThenAnswer(w: World, generate: string -> GeminiService.Outcome)
    requires Accepts(w, Pressed)
    ensures Apply(Apply(w, Pressed), GatewaySettled(GeminiService.Built, generate)) == World(
              Chatbot.State("", w.session.messages + [
                Message(User, w.session.input, None),
                GeminiService.Normalize(generate(GeminiService.Prompt(w.session.input)))], false),
              None)
  {
    var ms := w.session.messages;
    var u := Message(User, w.session.input, None);
    var m := GeminiService.Normalize(generate(GeminiService.Prompt(w.session.input)));
    PressAccepted(w);
    var w1 := Apply(w, Pressed);
    AnswerArrives(w1, generate);
    assert ms + [u] + [m] == ms + [u, m];
  }

  /** A full round trip: an accepted press followed by a built client's answer adds
      the untrimmed question and the normalised answer, clears the field and stops
      loading; the upstream call saw the prefixed, untrimmed question. */
  lemma SubmitThenAnswer(w: World, generate: string -> GeminiService.Outcome)
    requires Accepts(w, Pressed)
    ensures var w' := Run(w, [Pressed, GatewaySettled(GeminiService.Built, generate)]);
            && w'.session.messages == w.session.messages + [
                 Message(User, w.session.input, None),
                 GeminiService.Normalize(generate(GeminiService.Prompt(w.session.input)))]
            && w'.session.input == ""
            && !w'.session.isLoading
            && w'.pending.None?
  {
    RunTwo(w, Pressed, GatewaySettled(GeminiService.Built, generate));
    PressThenAnswer(w, generate);
  }

  /** Clearing while an answer is pending does not cancel it: the answer lands right
      after the cleared-history message, and loading stops only then. */
  lemma ClearWhilePending(w: World, generate: string -> GeminiService.Outcome)
    requires Inv(w) && w.pending.Some?
    ensures Apply(w, Cleared).session.isLoading
    ensures var w' := Run(w, [Cleared, GatewaySettled(GeminiService.Built, generate)]);
            && w'.session.messages == [
                 Message(Assistant, Chatbot.ClearedText, None),
                 GeminiService.Normalize(generate(GeminiService.Prompt(w.pending.value)))]
            && !w'.session.isLoading
  {
    var settle := GatewaySettled(GeminiService.Built, generate);
    RunTwo(w, Cleared, settle);
    AnswerArrives(Apply(w, Cleared), generate);
  }

  /** Loading with nothing outstanding is a dead end: no event ever clears the flag,
      and no further question is ever sent. */
  lemma {:induction false} LoadingWithoutCallIsStuck(w: World, evs: seq<Event>)
    requires w.session.isLoading && w.pending.None?
    ensures Run(w, evs).session.isLoading && Run(w, evs).pending.None?
    ensures Sent(w, evs) == 0
    decreases |evs|
  {
    if evs != [] {
      LoadingWithoutCallIsStuck(Apply(w, evs[0]), evs[1..]);
    }
  }

  /** A client that fails to construct escapes the `try`, so the submit handler
      aborts: no message is added and the widget stays loading for good. */
  lemma ConstructionFailureLocksSession(w: World, generate: string -> GeminiService.Outcome, evs: seq<Event>)
    requires Inv(w) && w.pending.Some?
    ensures var w' := Apply(w, GatewaySettled(GeminiService.ConstructionFailed, generate));
            && w'.session.messages == w.session.messages
            && Run(w', evs).session.isLoading
            && Sent(w', evs) == 0
  {
    var w' := Apply(w, GatewaySettled(GeminiService.ConstructionFailed, generate));
    LoadingWithoutCallIsStuck(w', evs);
  }

  /** A first conversation: one question, answered without citations. The answer
      still carries an (empty) source list, since only the error path omits it. */
  lemma FirstConversation()
    ensures var q := "What frameworks do you use?";
            var answer := GeminiService.Ok(GeminiService.Response(Some("I build with Flutter and Dart."), None));
            var w := Run(Start(), [Typed(q), Pressed, GatewaySettled(GeminiService.Built, _ => answer)]);
            && w.session.messages == [
                 Message(Assistant, Chatbot.GreetingText, None),
                 Message(User, q, None),
                 Message(Assistant, "I build with Flutter and Dart.", Some([]))]
            && !w.session.isLoading
            && w.session.input == ""
  {
    var q := "What frameworks do you use?";
    var answer := GeminiService.Ok(GeminiService.Response(Some("I build with Flutter and Dart."), None));
    var settle := GatewaySettled(GeminiService.Built, _ => answer);
    var w1 := Apply(Start(), Typed(q));
    assert !JsString.IsWhitespace(w1.session.input[0]);
    assert [Typed(q), Pressed, settle][1..] == [Pressed, settle];
    assert Run(Start(), [Typed(q), Pressed, settle]) == Run(w1, [Pressed, settle]);
    SubmitThenAnswer(w1, _ => answer);
  }
}
