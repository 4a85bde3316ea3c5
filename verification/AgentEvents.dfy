/** What an agent run emits, and the grammar its events follow: packages/agent/src/types.ts and agent.ts. */
module AgentEvents {
  import opened Common

  datatype ToolCall = ToolCall(id: string, name: string, arguments: string)

  datatype StopReason = Stop | ToolUse | Length | Error | Aborted

  /** What a tool returns to the model; the fixed error texts are named rather than spelled out. */
  datatype Content =
    | Text(text: string)
    | ToolNotFound(name: string)
    | OperationAborted
    | ExecutionBlocked
    | OutputTruncated(name: string)

  datatype Message =
    | User(text: string)
    | Assistant(text: string, calls: seq<ToolCall>, stopReason: StopReason, errorMessage: string)
    | ToolOutput(callId: string, name: string, content: Content, isError: bool)

  datatype Event =
    | AgentStart
    | TurnStart
    | MessageStart(message: Message)
    | MessageUpdate(message: Message)
    | MessageEnd(message: Message)
    | ToolStart(id: string)
    | ToolUpdate(id: string, partial: string)
    | ToolEnd(id: string, content: Content, isError: bool)
    | TurnEnd(message: Message, toolResults: seq<Message>)
    | AgentEnd(messages: seq<Message>)

  // ----- the grammar

  /** Where a run stands: what it said so far, from where on in this turn, and the tool calls that are going on. */
  datatype Phase =
    | Before
    | Starting
    | InTurn(said: seq<Message>, mark: nat, open: set<string>)
    | InMessage(said: seq<Message>, mark: nat)
    | Between(said: seq<Message>)
    | Ended(said: seq<Message>)

  /** A turn ends with its answer and the results of the answer's tool calls, in the order they were said. */
  predicate ClosesTurn(turn: seq<Message>, message: Message, toolResults: seq<Message>) {
    && |toolResults| < |turn| && message.Assistant?
    && turn[|turn| - |toolResults| - 1] == message && turn[|turn| - |toolResults|..] == toolResults
    && forall i | 0 <= i < |toolResults| :: toolResults[i].ToolOutput?
  }

  function Next(p: Phase, e: Event): Option<Phase> {
    match e
    case AgentStart => if p.Before? then Some(Starting) else None
    case TurnStart =>
      if p.Starting? then Some(InTurn([], 0, {}))
      else if p.Between? then Some(InTurn(p.said, |p.said|, {}))
      else None
    case MessageStart(_) => if p.InTurn? && p.open == {} then Some(InMessage(p.said, p.mark)) else None
    case MessageUpdate(_) => if p.InMessage? then Some(p) else None
    case MessageEnd(m) => if p.InMessage? then Some(InTurn(p.said + [m], p.mark, {})) else None
    case ToolStart(id) => if p.InTurn? && id !in p.open then Some(p.(open := p.open + {id})) else None
    case ToolUpdate(id, _) => if p.InTurn? && id in p.open then Some(p) else None
    case ToolEnd(id, _, _) => if p.InTurn? && id in p.open then Some(p.(open := p.open - {id})) else None
    case TurnEnd(m, results) =>
      if p.InTurn? && p.open == {} && p.mark <= |p.said| && ClosesTurn(p.said[p.mark..], m, results) then
        Some(Between(p.said))
      else None
    case AgentEnd(messages) => if p.Between? && messages == p.said then Some(Ended(p.said)) else None
  }

  function Step(p: Option<Phase>, e: Event): Option<Phase> {
    if p.None? then None else Next(p.value, e)
  }

  /** What a listener that folds the events knows. */
  datatype View = View(
    phase: Option<Phase>,         // None once the trace has broken the grammar
    said: seq<Message>,           // the messages ended so far
    open: set<string>,            // the tool calls going on
    streaming: Option<Message>,   // the unfinished message as last seen
    lastError: string)            // the error of the last turn that ended with one

  function Look(v: View, e: Event): View {
    View(
      Step(v.phase, e),
      if e.MessageEnd? then v.said + [e.message] else v.said,
      if e.ToolStart? then v.open + {e.id} else if e.ToolEnd? then v.open - {e.id} else v.open,
      if e.MessageStart? || e.MessageUpdate? then Some(e.message)
      else if e.MessageEnd? || e.AgentEnd? then None else v.streaming,
      if e.TurnEnd? && e.message.Assistant? && e.message.errorMessage != "" then e.message.errorMessage
      else v.lastError)
  }

  /** The view after the first n events. */
  function ViewUpTo(v: View, events: seq<Event>, n: nat): View
    requires n <= |events|
  {
    if n == 0 then v else Look(ViewUpTo(v, events, n - 1), events[n - 1])
  }

  function ViewFrom(v: View, events: seq<Event>): View { ViewUpTo(v, events, |events|) }

  const START: View := View(Some(Before), [], {}, None, "")

  function ViewOf(trace: seq<Event>): View { ViewFrom(START, trace) }

  function PhaseOf(trace: seq<Event>): Option<Phase> { ViewOf(trace).phase }

  function Said(trace: seq<Event>): seq<Message> { ViewOf(trace).said }

  /** The events of one tool call. */
  function OfUpTo(events: seq<Event>, n: nat, id: string): seq<Event>
    requires n <= |events|
  {
    if n == 0 then [] else OfUpTo(events, n - 1, id) + if Concerns(events[n - 1], id) then [events[n - 1]] else []
  }

  function Of(events: seq<Event>, id: string): seq<Event> { OfUpTo(events, |events|, id) }

  predicate Concerns(e: Event, id: string) { (e.ToolStart? || e.ToolUpdate? || e.ToolEnd?) && e.id == id }

  lemma {:induction false} ViewPrefix(v: View, events: seq<Event>, more: seq<Event>, n: nat)
    requires n <= |events|
    ensures ViewUpTo(v, events + more, n) == ViewUpTo(v, events, n)
  {
    if n > 0 { ViewPrefix(v, events, more, n - 1); }
  }

  lemma {:induction false} Emitted(v: View, events: seq<Event>, e: Event)
    ensures ViewFrom(v, events + [e]) == Look(ViewFrom(v, events), e)
  {
    ViewPrefix(v, events, [e], |events|);
  }

  lemma {:induction false} ViewSuffix(v: View, a: seq<Event>, b: seq<Event>, n: nat)
    requires n <= |b|
    ensures ViewUpTo(v, a + b, |a| + n) == ViewUpTo(ViewFrom(v, a), b, n)
  {
    if n == 0 { ViewPrefix(v, a, b, |a|); } else { ViewSuffix(v, a, b, n - 1); }
  }

  lemma {:induction false} ViewConcat(v: View, a: seq<Event>, b: seq<Event>)
    ensures ViewFrom(v, a + b) == ViewFrom(ViewFrom(v, a), b)
  {
    ViewSuffix(v, a, b, |b|);
  }

  lemma {:induction false} OfPrefix(events: seq<Event>, more: seq<Event>, n: nat, id: string)
    requires n <= |events|
    ensures OfUpTo(events + more, n, id) == OfUpTo(events, n, id)
  {
    if n > 0 { OfPrefix(events, more, n - 1, id); }
  }

  lemma {:induction false} OfEmitted(events: seq<Event>, e: Event, id: string)
    ensures Of(events + [e], id) == Of(events, id) + if Concerns(e, id) then [e] else []
  {
    OfPrefix(events, [e], |events|, id);
  }

  lemma {:induction false} OfSuffix(a: seq<Event>, b: seq<Event>, n: nat, id: string)
    requires n <= |b|
    ensures OfUpTo(a + b, |a| + n, id) == Of(a, id) + OfUpTo(b, n, id)
  {
    if n == 0 {
      OfPrefix(a, b, |a|, id);
      assert Of(a, id) + [] == Of(a, id);
    } else {
      OfSuffix(a, b, n - 1, id);
      var last := if Concerns(b[n - 1], id) then [b[n - 1]] else [];
      assert Of(a, id) + OfUpTo(b, n - 1, id) + last == Of(a, id) + (OfUpTo(b, n - 1, id) + last);
    }
  }

  lemma {:induction false} OfConcat(a: seq<Event>, b: seq<Event>, id: string)
    ensures Of(a + b, id) == Of(a, id) + Of(b, id)
  {
    OfSuffix(a, b, |b|, id);
  }

  // ----- what the grammar means

  predicate Agrees(v: View, p: Phase) {
    && (p.InMessage? <==> v.streaming.Some?)
    && v.open == (if p.InTurn? then p.open else {})
    && v.said == (if p.Before? || p.Starting? then [] else p.said)
  }

  lemma {:induction false} AgreesNext(v: View, e: Event, next: View)
    requires v.phase.Some? && Agrees(v, v.phase.value) && next == Look(v, e) && next.phase.Some?
    ensures Agrees(next, next.phase.value)
  {
  }

  lemma {:induction false} GrammarAgreesUpTo(trace: seq<Event>, n: nat)
    requires n <= |trace| && ViewUpTo(START, trace, n).phase.Some?
    ensures Agrees(ViewUpTo(START, trace, n), ViewUpTo(START, trace, n).phase.value)
  {
    if n > 0 {
      GrammarAgreesUpTo(trace, n - 1);
      AgreesNext(ViewUpTo(START, trace, n - 1), trace[n - 1], ViewUpTo(START, trace, n));
    }
  }

  /** In a trace that follows the grammar the listeners' view of open calls and messages is the grammar's. */
  lemma {:induction false} GrammarAgrees(trace: seq<Event>)
    requires PhaseOf(trace).Some?
    ensures Agrees(ViewOf(trace), PhaseOf(trace).value)
  {
    GrammarAgreesUpTo(trace, |trace|);
  }

  /** Per call the events are started once and ended at most once, the updates in between; then it may start anew. */
  ghost predicate Bracketed(events: seq<Event>, open: bool) {
    if events == [] then !open
    else
      var init, e := events[..|events| - 1], events[|events| - 1];
      match e
      case ToolStart(_) => open && Bracketed(init, false)
      case ToolUpdate(_, _) => open && Bracketed(init, true)
      case ToolEnd(_, _, _) => !open && Bracketed(init, true)
      case _ => false
  }

  lemma {:induction false} BracketedEmit(events: seq<Event>, e: Event, open: bool)
    requires Bracketed(events, open) && (e.ToolStart? || e.ToolUpdate? || e.ToolEnd?) && open == !e.ToolStart?
    ensures Bracketed(events + [e], !e.ToolEnd?)
  {
    assert (events + [e])[..|events|] == events;
  }

  lemma {:induction false} BracketsNext(before: seq<Event>, v: View, e: Event, id: string)
    requires v.phase.Some? && Agrees(v, v.phase.value) && Look(v, e).phase.Some? && Bracketed(before, id in v.open)
    ensures Bracketed(before + if Concerns(e, id) then [e] else [], id in Look(v, e).open)
  {
    if Concerns(e, id) {
      BracketedEmit(before, e, id in v.open);
    } else {
      assert before + [] == before;
    }
  }

  lemma {:induction false} GrammarBracketsUpTo(trace: seq<Event>, n: nat, id: string)
    requires n <= |trace| && ViewUpTo(START, trace, n).phase.Some?
    ensures Bracketed(OfUpTo(trace, n, id), id in ViewUpTo(START, trace, n).open)
  {
    if n > 0 {
      GrammarBracketsUpTo(trace, n - 1, id);
      GrammarAgreesUpTo(trace, n - 1);
      BracketsNext(OfUpTo(trace, n - 1, id), ViewUpTo(START, trace, n - 1), trace[n - 1], id);
    }
  }

  /** In a trace that follows the grammar every tool call's events are bracketed. */
  lemma {:induction false} GrammarBrackets(trace: seq<Event>, id: string)
    requires PhaseOf(trace).Some?
    ensures Bracketed(Of(trace, id), id in ViewOf(trace).open)
  {
    GrammarBracketsUpTo(trace, |trace|, id);
  }
}
