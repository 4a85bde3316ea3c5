/** The agent loop: turns, steering and follow-ups, and what they leave behind: packages/agent/src/agent-loop.ts. */
module AgentLoops {
  import opened Common
  import opened AgentEvents
  import opened Agents
  import opened AgentTools

  // ----- streaming one answer

  datatype StreamEvent = Start(partial: Message) | Delta(partial: Message) | Finish

  /** What the provider sends, and the message it finally stands for. */
  datatype Stream = Stream(events: seq<StreamEvent>, result: Message)

  /** What is emitted from event k on; `added` says whether a partial message is in the context. */
  function Streamed(s: Stream, k: nat, added: bool): seq<Event>
    requires k <= |s.events|
    decreases |s.events| - k
  {
    if k == |s.events| || s.events[k].Finish? then
      (if added then [] else [MessageStart(s.result)]) + [MessageEnd(s.result)]
    else if s.events[k].Start? then [MessageStart(s.events[k].partial)] + Streamed(s, k + 1, true)
    else if added then [MessageUpdate(s.events[k].partial)] + Streamed(s, k + 1, true)
    else Streamed(s, k + 1, false)
  }

  function ReplaceLast(context: seq<Message>, m: Message): seq<Message>
    requires context != []
  {
    context[..|context| - 1] + [m]
  }

  /** What becomes of the context from event k on. */
  function InContext(s: Stream, k: nat, context: seq<Message>, added: bool): seq<Message>
    requires k <= |s.events| && (added ==> context != [])
    decreases |s.events| - k
  {
    if k == |s.events| || s.events[k].Finish? then
      if added then ReplaceLast(context, s.result) else context + [s.result]
    else if s.events[k].Start? then InContext(s, k + 1, context + [s.events[k].partial], true)
    else if added then InContext(s, k + 1, ReplaceLast(context, s.events[k].partial), true)
    else InContext(s, k + 1, context, false)
  }

  /** How often the message is started from event k on. */
  function Starts(s: Stream, k: nat): nat
    requires k <= |s.events|
    decreases |s.events| - k
  {
    if k == |s.events| || s.events[k].Finish? then 0
    else (if s.events[k].Start? then 1 else 0) + Starts(s, k + 1)
  }

  /** One event of the stream, before it finishes. */
  method StreamStep(agent: Agent, context: seq<Message>, s: Stream, k: nat, addedPartial: bool)
    returns (context': seq<Message>, added: bool)
    requires agent.Reduced() && k < |s.events| && !s.events[k].Finish? && (addedPartial ==> context != [])
    modifies agent
    ensures agent.Reduced() && Undisturbed(agent) && (added ==> context' != [])
    ensures agent.trace + Streamed(s, k + 1, added) == old(agent.trace) + Streamed(s, k, addedPartial)
    ensures InContext(s, k + 1, context', added) == InContext(s, k, context, addedPartial)
  {
    ghost var before := agent.trace;
    context', added := context, addedPartial;
    match s.events[k] {
      case Start(partial) =>
        agent.ProcessEvents(MessageStart(partial));
        context', added := context + [partial], true;
        Assoc(before, [MessageStart(partial)], Streamed(s, k + 1, true));
      case Delta(partial) =>
        if addedPartial {
          agent.ProcessEvents(MessageUpdate(partial));
          context' := ReplaceLast(context, partial);
          Assoc(before, [MessageUpdate(partial)], Streamed(s, k + 1, true));
        }
    }
  }

  method StreamEnd(agent: Agent, context: seq<Message>, s: Stream, k: nat, addedPartial: bool)
    returns (context': seq<Message>)
    requires agent.Reduced() && k <= |s.events| && (k < |s.events| ==> s.events[k].Finish?)
             && (addedPartial ==> context != [])
    modifies agent
    ensures agent.Reduced() && Undisturbed(agent)
    ensures agent.trace == old(agent.trace) + Streamed(s, k, addedPartial)
            && context' == InContext(s, k, context, addedPartial)
  {
    ghost var before := agent.trace;
    if addedPartial {
      context' := ReplaceLast(context, s.result);
    } else {
      context' := context + [s.result];
      agent.ProcessEvents(MessageStart(s.result));
    }
    agent.ProcessEvents(MessageEnd(s.result));
    Assoc(before, [MessageStart(s.result)], [MessageEnd(s.result)]);
    assert [] + [MessageEnd(s.result)] == [MessageEnd(s.result)];
  }

  method StreamAssistantResponse(agent: Agent, context: seq<Message>, s: Stream)
    returns (context': seq<Message>, final: Message)
    requires agent.Reduced()
    modifies agent
    ensures agent.Emits(Streamed(s, 0, false)) && final == s.result && context' == InContext(s, 0, context, false)
  {
    var k, addedPartial := 0, false;
    context' := context;
    while k < |s.events| && !s.events[k].Finish?
      invariant 0 <= k <= |s.events| && (addedPartial ==> context' != []) && agent.Reduced() && Undisturbed(agent)
      invariant agent.trace + Streamed(s, k, addedPartial) == old(agent.trace) + Streamed(s, 0, false)
      invariant InContext(s, k, context', addedPartial) == InContext(s, 0, context, false)
    {
      context', addedPartial := StreamStep(agent, context', s, k, addedPartial);
      agent.Await();
      k := k + 1;
    }
    context' := StreamEnd(agent, context', s, k, addedPartial);
    final := s.result;
  }

  /** A stream that starts its message at most once is one message to the listeners. */
  lemma {:induction false} StreamView(v: View, s: Stream, k: nat, added: bool, said: seq<Message>, mark: nat)
    requires k <= |s.events| && Starts(s, k) + (if added then 1 else 0) <= 1
    requires v.phase == Some(if added then InMessage(said, mark) else InTurn(said, mark, {}))
    ensures ViewFrom(v, Streamed(s, k, added)).phase == Some(InTurn(said + [s.result], mark, {}))
    decreases |s.events| - k
  {
    var events := Streamed(s, k, added);
    if k == |s.events| || s.events[k].Finish? {
      var start, end := MessageStart(s.result), MessageEnd(s.result);
      assert events == if added then [] + [end] else [] + [start] + [end];
      Emitted(v, [], start);
      Emitted(v, [], end);
      Emitted(v, [] + [start], end);
    } else if s.events[k].Start? || added {
      var e := if s.events[k].Start? then MessageStart(s.events[k].partial) else MessageUpdate(s.events[k].partial);
      var w := Look(v, e);
      StreamView(w, s, k + 1, true, said, mark);
      assert events == ([] + [e]) + Streamed(s, k + 1, true);
      Emitted(v, [], e);
      ViewConcat(v, [] + [e], Streamed(s, k + 1, true));
    } else {
      StreamView(v, s, k + 1, false, said, mark);
    }
  }

  lemma {:induction false} ContextLength(s: Stream, k: nat, context: seq<Message>, added: bool)
    requires k <= |s.events| && (added ==> context != [])
    ensures |InContext(s, k, context, added)|
            == |context| + if added then Starts(s, k) else if Starts(s, k) > 0 then Starts(s, k) else 1
    ensures Starts(s, k) == 0 && added ==> InContext(s, k, context, added) == ReplaceLast(context, s.result)
    ensures Starts(s, k) == 0 && !added ==> InContext(s, k, context, added) == context + [s.result]
    decreases |s.events| - k
  {
    if k < |s.events| && !s.events[k].Finish? {
      if s.events[k].Start? {
        ContextLength(s, k + 1, context + [s.events[k].partial], true);
      } else if added {
        ContextLength(s, k + 1, ReplaceLast(context, s.events[k].partial), true);
        assert ReplaceLast(ReplaceLast(context, s.events[k].partial), s.result) == ReplaceLast(context, s.result);
      } else {
        ContextLength(s, k + 1, context, false);
      }
    }
  }

  /** The context grows by exactly the answer if and only if the stream starts its message at most once. */
  lemma {:induction false} ContextGrowsByAnswer(s: Stream, k: nat, context: seq<Message>)
    requires k <= |s.events|
    ensures InContext(s, k, context, false) == context + [s.result] <==> Starts(s, k) <= 1
    decreases |s.events| - k
  {
    ContextLength(s, k, context, false);
    if k < |s.events| && !s.events[k].Finish? {
      if s.events[k].Start? {
        var more := context + [s.events[k].partial];
        ContextLength(s, k + 1, more, true);
        assert ReplaceLast(more, s.result) == context + [s.result];
      } else {
        ContextGrowsByAnswer(s, k + 1, context);
      }
    }
  }

  /** Seen by listeners, a second start breaks the grammar. */
  lemma {:induction false} SecondStartBreaks(v: View, s: Stream, k: nat, added: bool, said: seq<Message>, mark: nat)
    requires k <= |s.events| && Starts(s, k) + (if added then 1 else 0) > 1
    requires v.phase == Some(if added then InMessage(said, mark) else InTurn(said, mark, {}))
    ensures ViewFrom(v, Streamed(s, k, added)).phase == None
    decreases |s.events| - k
  {
    var e := if s.events[k].Start? then MessageStart(s.events[k].partial) else MessageUpdate(s.events[k].partial);
    if s.events[k].Start? || added {
      var rest := Streamed(s, k + 1, true);
      assert Streamed(s, k, added) == ([] + [e]) + rest;
      Emitted(v, [], e);
      ViewConcat(v, [] + [e], rest);
      if added && s.events[k].Start? {
        StaysBroken(Look(v, e), rest, |rest|);
      } else {
        SecondStartBreaks(Look(v, e), s, k + 1, true, said, mark);
      }
    } else {
      SecondStartBreaks(v, s, k + 1, false, said, mark);
    }
  }

  lemma {:induction false} StaysBroken(v: View, events: seq<Event>, n: nat)
    requires v.phase == None && n <= |events|
    ensures ViewUpTo(v, events, n).phase == None
  {
    if n > 0 { StaysBroken(v, events, n - 1); }
  }

  // ----- one turn

  datatype Source = Steering | FollowUp

  /** What the loop did, in order. */
  datatype LogEntry =
    | Polled(source: Source, messages: seq<Message>)
    | Injected(source: Source, message: Message)
    | Turned(answer: Message, results: seq<Message>, more: bool)

  function Messages(log: seq<LogEntry>): seq<Message> {
    if log == [] then []
    else
      var e := log[|log| - 1];
      Messages(log[..|log| - 1])
        + (match e case Polled(_, _) => [] case Injected(_, m) => [m] case Turned(a, rs, _) => [a] + rs)
  }

  function PolledFrom(log: seq<LogEntry>, source: Source): seq<Message> {
    if log == [] then []
    else
      var e := log[|log| - 1];
      PolledFrom(log[..|log| - 1], source) + if e.Polled? && e.source == source then e.messages else []
  }

  function InjectedFrom(log: seq<LogEntry>, source: Source): seq<Message> {
    if log == [] then []
    else
      var e := log[|log| - 1];
      InjectedFrom(log[..|log| - 1], source) + if e.Injected? && e.source == source then [e.message] else []
  }

  lemma {:induction false} Logged(log: seq<LogEntry>, e: LogEntry, source: Source)
    ensures Messages(log + [e])
            == Messages(log)
               + match e case Polled(_, _) => [] case Injected(_, m) => [m] case Turned(a, rs, _) => [a] + rs
    ensures PolledFrom(log + [e], source)
            == PolledFrom(log, source) + if e.Polled? && e.source == source then e.messages else []
    ensures InjectedFrom(log + [e], source)
            == InjectedFrom(log, source) + if e.Injected? && e.source == source then [e.message] else []
  {
    assert (log + [e])[..|log|] == log;
  }

  /** The loop asks for follow-ups only after a turn that wants no other and a steering poll that gave nothing. */
  ghost predicate FollowUpsLast(log: seq<LogEntry>) {
    forall i | 0 <= i < |log| && log[i].Polled? && log[i].source == FollowUp ::
      i >= 2 && log[i - 1] == Polled(Steering, []) && log[i - 2].Turned? && !log[i - 2].more
  }

  /** What the loop keeps while it runs; `base` is the context before the run. */
  datatype Run = Run(context: seq<Message>, newMessages: seq<Message>, pending: seq<Message>, source: Source)

  ghost predicate Accounted(start: seq<Message>, run: Run, log: seq<LogEntry>) {
    && run.newMessages == start + Messages(log) && FollowUpsLast(log)
    && PolledFrom(log, Steering) == InjectedFrom(log, Steering) + (if run.source == Steering then run.pending else [])
    && PolledFrom(log, FollowUp) == InjectedFrom(log, FollowUp) + (if run.source == FollowUp then run.pending else [])
  }

  predicate SamePolls(log: seq<LogEntry>, log': seq<LogEntry>) {
    PolledFrom(log', Steering) == PolledFrom(log, Steering) && PolledFrom(log', FollowUp) == PolledFrom(log, FollowUp)
  }

  lemma {:induction false} InjectOne(start: seq<Message>, run: Run, log: seq<LogEntry>, after: Run)
    requires Accounted(start, run, log) && run.pending != []
    requires after.newMessages == run.newMessages + [run.pending[0]] && after.pending == run.pending[1..]
             && after.source == run.source
    ensures Accounted(start, after, log + [Injected(run.source, run.pending[0])])
    ensures SamePolls(log, log + [Injected(run.source, run.pending[0])])
  {
    var m := run.pending[0];
    var e := Injected(run.source, m);
    Logged(log, e, Steering);
    Logged(log, e, FollowUp);
    assert run.pending == [m] + run.pending[1..];
    Assoc(InjectedFrom(log, run.source), [m], run.pending[1..]);
    Assoc(start, Messages(log), [m]);
    NoFollowUpPoll(log, e);
  }

  lemma {:induction false} NoFollowUpPoll(log: seq<LogEntry>, e: LogEntry)
    requires FollowUpsLast(log) && !(e.Polled? && e.source == FollowUp)
    ensures FollowUpsLast(log + [e])
  {
    var more := log + [e];
    forall i | 0 <= i < |more| && more[i].Polled? && more[i].source == FollowUp
      ensures i >= 2 && more[i - 1] == Polled(Steering, []) && more[i - 2].Turned? && !more[i - 2].more
    {
      assert more[i] == log[i];
    }
  }

  lemma {:induction false} TurnDone(start: seq<Message>, run: Run, log: seq<LogEntry>, e: LogEntry, after: Run)
    requires Accounted(start, run, log) && run.pending == [] && e.Turned?
    requires after.newMessages == run.newMessages + ([e.answer] + e.results) && after.pending == []
             && after.source == run.source
    ensures Accounted(start, after, log + [e]) && SamePolls(log, log + [e])
  {
    Logged(log, e, Steering);
    Logged(log, e, FollowUp);
    NoFollowUpPoll(log, e);
  }

  lemma {:induction false} PollDone(start: seq<Message>, run: Run, log: seq<LogEntry>, e: LogEntry, after: Run)
    requires Accounted(start, run, log) && run.pending == [] && e.Polled?
    requires after == run.(pending := e.messages, source := e.source)
    requires e.source == FollowUp ==>
               |log| >= 2 && log[|log| - 1] == Polled(Steering, []) && log[|log| - 2].Turned? && !log[|log| - 2].more
    ensures Accounted(start, after, log + [e])
  {
    Logged(log, e, Steering);
    Logged(log, e, FollowUp);
    if e.source == Steering {
      NoFollowUpPoll(log, e);
    } else {
      var more := log + [e];
      forall i | 0 <= i < |more| && more[i].Polled? && more[i].source == FollowUp
        ensures i >= 2 && more[i - 1] == Polled(Steering, []) && more[i - 2].Turned? && !more[i - 2].more
      {
        if i < |log| { assert more[i] == log[i]; }
      }
    }
  }

  /** A message that is there at once. */
  method Say(agent: Agent, m: Message, ghost said: seq<Message>, ghost mark: nat)
    requires Idle(agent, said, mark)
    modifies agent
    ensures Idle(agent, said + [m], mark) && Undisturbed(agent)
  {
    agent.ProcessEvents(MessageStart(m));
    agent.ProcessEvents(MessageEnd(m));
  }

  method InjectNext(agent: Agent, run: Run, ghost start: seq<Message>, ghost log: seq<LogEntry>, ghost mark: nat)
    returns (run': Run, ghost log': seq<LogEntry>)
    requires Idle(agent, run.newMessages, mark) && Accounted(start, run, log) && run.pending != []
    modifies agent
    ensures Idle(agent, run'.newMessages, mark) && Accounted(start, run', log') && Undisturbed(agent)
            && SamePolls(log, log')
    ensures run'
            == Run(run.context + [run.pending[0]], run.newMessages + [run.pending[0]], run.pending[1..], run.source)
  {
    var m := run.pending[0];
    Say(agent, m, run.newMessages, mark);
    run' := Run(run.context + [m], run.newMessages + [m], run.pending[1..], run.source);
    InjectOne(start, run, log, run');
    log' := log + [Injected(run.source, m)];
  }

  /** What is left to inject after k messages. */
  function Injecting(run: Run, k: nat): Run
    requires k <= |run.pending|
  {
    Run(run.context + run.pending[..k], run.newMessages + run.pending[..k], run.pending[k..], run.source)
  }

  lemma {:induction false} InjectingNext(run: Run, k: nat)
    requires k < |run.pending|
    ensures var before, m := Injecting(run, k), run.pending[k];
            && before.pending != [] && before.pending[0] == m
            && Injecting(run, k + 1)
              == Run(before.context + [m], before.newMessages + [m], before.pending[1..], run.source)
  {
    assert run.pending[..k + 1] == run.pending[..k] + [run.pending[k]];
  }

  /** The pending messages go into the transcript. */
  method InjectPending(agent: Agent, run: Run, ghost start: seq<Message>, ghost log: seq<LogEntry>, ghost mark: nat)
    returns (run': Run, ghost log': seq<LogEntry>)
    requires Idle(agent, run.newMessages, mark) && Accounted(start, run, log)
    modifies agent
    ensures Idle(agent, run'.newMessages, mark) && Accounted(start, run', log') && Undisturbed(agent)
            && SamePolls(log, log')
    ensures run' == Run(run.context + run.pending, run.newMessages + run.pending, [], run.source)
  {
    run', log' := run, log;
    assert run == Injecting(run, 0);
    var k := 0;
    while k < |run.pending|
      invariant 0 <= k <= |run.pending| && Undisturbed(agent) && SamePolls(log, log')
      invariant Idle(agent, run'.newMessages, mark) && Accounted(start, run', log') && run' == Injecting(run, k)
    {
      InjectingNext(run, k);
      run', log' := InjectNext(agent, run', start, log', mark);
      k := k + 1;
    }
    assert run.pending[..k] == run.pending;
  }

  /** Everything outside the loop that happens in a turn and after it, up to the next one. */
  datatype Turn = Turn(
    stream: Stream,
    tools: ToolCall -> Behaviour,
    snapshot: Option<seq<Message>>,   // the context that prepareNextTurn puts in place of the loop's
    stop: bool,                       // what shouldStopAfterTurn answers
    steered: seq<Message>,            // queued until the loop polls for steering messages
    steeredLater: seq<Message>,       // queued after that, before the poll for follow-ups
    followedUp: seq<Message>)         // queued as follow-ups until the loop polls for them

  /** The provider starts an answer at most once and gives its calls different ids. */
  predicate WellBehaved(turn: Turn) {
    Starts(turn.stream, 0) <= 1 && turn.stream.result.Assistant? && DistinctIds(turn.stream.result.calls)
  }

  method Answer(agent: Agent, context: seq<Message>, s: Stream, ghost said: seq<Message>, ghost mark: nat)
    returns (context': seq<Message>, final: Message)
    requires Idle(agent, said, mark) && Starts(s, 0) <= 1
    modifies agent
    ensures Idle(agent, said + [final], mark) && Undisturbed(agent)
    ensures final == s.result && context' == context + [final]
  {
    StreamView(ViewOf(agent.trace), s, 0, false, said, mark);
    ViewConcat(START, agent.trace, Streamed(s, 0, false));
    ContextGrowsByAnswer(s, 0, context);
    context', final := StreamAssistantResponse(agent, context, s);
  }

  lemma {:induction false} ResultsAreOutputs(dones: seq<Done>)
    ensures |Results(dones)| == |dones| && forall i | 0 <= i < |dones| :: Results(dones)[i].ToolOutput?
  {
    if dones != [] { ResultsAreOutputs(dones[..|dones| - 1]); }
  }

  lemma {:induction false} TurnCloses(said: seq<Message>, mark: nat, answer: Message, results: seq<Message>)
    requires mark <= |said| && answer.Assistant? && forall i | 0 <= i < |results| :: results[i].ToolOutput?
    ensures mark <= |said + [answer] + results| && ClosesTurn((said + [answer] + results)[mark..], answer, results)
  {
    var turn := (said + [answer] + results)[mark..];
    assert turn[|turn| - |results| - 1] == answer;
    assert turn[|turn| - |results|..] == results;
  }

  method CloseTurn(agent: Agent, answer: Message, results: seq<Message>, ghost said: seq<Message>, ghost mark: nat)
    requires Idle(agent, said + [answer] + results, mark) && mark <= |said| && answer.Assistant?
    requires forall i | 0 <= i < |results| :: results[i].ToolOutput?
    modifies agent
    ensures agent.Reduced() && PhaseOf(agent.trace) == Some(Between(said + [answer] + results)) && Undisturbed(agent)
  {
    TurnCloses(said, mark, answer, results);
    agent.ProcessEvents(TurnEnd(answer, results));
  }

  /** The tool calls of an answer. */
  method RunTools(agent: Agent, answer: Message, tools: ToolCall -> Behaviour, sequential: bool,
                  ghost said: seq<Message>, ghost mark: nat)
    returns (results: seq<Message>, more: bool)
    requires Idle(agent, said, mark) && answer.Assistant? && DistinctIds(answer.calls)
    modifies agent
    ensures Idle(agent, said + results, mark) && Undisturbed(agent)
    ensures forall i | 0 <= i < |results| :: results[i].ToolOutput?
    ensures answer.calls == [] ==> results == [] && !more
    ensures agent.aborted || |results| == |answer.calls|
  {
    results, more := [], false;
    assert said + [] == said;
    if answer.calls != [] {
      var batch;
      ghost var dones, aborts, events;
      if answer.stopReason == Length {
        batch, dones, events := FailToolCallsFromTruncatedMessage(agent, answer.calls, said, mark);
      } else {
        batch, dones, aborts, events := ExecuteToolCalls(agent, answer.calls, tools, sequential, said, mark);
      }
      ResultsAreOutputs(dones);
      results, more := batch.messages, !batch.terminate;
    }
  }

  /** A failed answer ends the turn and the run. */
  method EndFailed(agent: Agent, answer: Message, newMessages: seq<Message>, ghost said: seq<Message>, ghost mark: nat)
    requires Idle(agent, newMessages, mark) && mark <= |said| && answer.Assistant? && newMessages == said + [answer]
    modifies agent
    ensures agent.Reduced() && Undisturbed(agent) && PhaseOf(agent.trace) == Some(Ended(newMessages))
  {
    assert newMessages + [] == newMessages;
    CloseTurn(agent, answer, [], said, mark);
    agent.ProcessEvents(AgentEnd(newMessages));
  }

  predicate IsFailed(answer: Message) {
    answer.Assistant? && (answer.stopReason == Error || answer.stopReason == Aborted)
  }

  /** The answer of a turn, its tool calls, and the end of the turn. */
  method RunAnswer(agent: Agent, run: Run, turn: Turn, sequential: bool, ghost mark: nat)
    returns (run': Run, answer: Message, results: seq<Message>, more: bool, failed: bool)
    requires Idle(agent, run.newMessages, mark) && mark <= |run.newMessages| && run.pending == [] && WellBehaved(turn)
    modifies agent
    ensures agent.Reduced() && Undisturbed(agent)
    ensures PhaseOf(agent.trace) == Some(if failed then Ended(run'.newMessages) else Between(run'.newMessages))
    ensures run' == Run(run.context + ([answer] + results), run.newMessages + ([answer] + results), [], run.source)
    ensures failed ==> !more && results == []
    ensures answer == turn.stream.result && failed == IsFailed(answer)
  {
    var context;
    context, answer := Answer(agent, run.context, turn.stream, run.newMessages, mark);
    var newMessages := run.newMessages + [answer];
    failed, results, more := IsFailed(answer), [], false;
    if failed {
      assert [answer] + [] == [answer];
      EndFailed(agent, answer, newMessages, run.newMessages, mark);
      return Run(context, newMessages, [], run.source), answer, results, more, failed;
    }
    results, more := RunTools(agent, answer, turn.tools, sequential, newMessages, mark);
    CloseTurn(agent, answer, results, run.newMessages, mark);
    Assoc(run.context, [answer], results);
    Assoc(run.newMessages, [answer], results);
    run' := Run(context + results, newMessages + results, [], run.source);
  }

  predicate LastTurn(log: seq<LogEntry>, more: bool) {
    log != [] && log[|log| - 1].Turned? && log[|log| - 1].more == more
  }

  method BeginTurn(agent: Agent, run: Run, firstTurn: bool, ghost start: seq<Message>, ghost log: seq<LogEntry>)
    returns (run': Run, ghost log': seq<LogEntry>, ghost mark: nat)
    requires agent.Reduced() && Accounted(start, run, log)
    requires PhaseOf(agent.trace)
             == Some(if firstTurn then InTurn(run.newMessages, 0, {}) else Between(run.newMessages))
    modifies agent
    ensures Idle(agent, run'.newMessages, mark) && Undisturbed(agent) && Accounted(start, run', log')
            && mark <= |run'.newMessages|
    ensures SamePolls(log, log')
    ensures run' == Run(run.context + run.pending, run.newMessages + run.pending, [], run.source)
  {
    mark := if firstTurn then 0 else |run.newMessages|;
    if !firstTurn {
      agent.ProcessEvents(TurnStart);
    }
    run', log' := InjectPending(agent, run, start, log, mark);
  }

  /** One pass of the inner loop, up to the end of the turn. */
  method RunTurn(agent: Agent, run: Run, turn: Turn, firstTurn: bool, sequential: bool, ghost start: seq<Message>,
                 ghost log: seq<LogEntry>)
    returns (run': Run, more: bool, failed: bool, ghost log': seq<LogEntry>, ghost said: seq<Message>)
    requires agent.Reduced() && Accounted(start, run, log) && WellBehaved(turn)
    requires PhaseOf(agent.trace)
             == Some(if firstTurn then InTurn(run.newMessages, 0, {}) else Between(run.newMessages))
    modifies agent
    ensures agent.Reduced() && Undisturbed(agent) && Accounted(start, run', log') && SamePolls(log, log')
    ensures PhaseOf(agent.trace) == Some(if failed then Ended(run'.newMessages) else Between(run'.newMessages))
    ensures LastTurn(log', more)
    ensures run' == Run(run.context + said, run.newMessages + said, [], run.source)
  {
    ghost var mark, before;
    var answer, results;
    run', log', mark := BeginTurn(agent, run, firstTurn, start, log);
    before := run';
    run', answer, results, more, failed := RunAnswer(agent, run', turn, sequential, mark);
    said := run.pending + ([answer] + results);
    Assoc(run.context, run.pending, [answer] + results);
    Assoc(run.newMessages, run.pending, [answer] + results);
    TurnDone(start, before, log', Turned(answer, results, more), run');
    log' := log' + [Turned(answer, results, more)];
  }

  // ----- the loop

  /** The queues and the log agree on what was drained since the drained messages were these. */
  ghost predicate Balanced(agent: Agent, log: seq<LogEntry>, steered: seq<Message>, followed: seq<Message>)
    reads agent.steeringQueue, agent.followUpQueue
  {
    && agent.steeringQueue != agent.followUpQueue
    && agent.steeringQueue.Conserved() && agent.steeringQueue.drained == steered + PolledFrom(log, Steering)
    && agent.followUpQueue.Conserved() && agent.followUpQueue.drained == followed + PolledFrom(log, FollowUp)
  }

  method EnqueueAll(queue: PendingMessageQueue, messages: seq<Message>)
    requires queue.Conserved()
    modifies queue
    ensures queue.Conserved() && queue.drained == old(queue.drained) && queue.messages == old(queue.messages) + messages
  {
    var k := 0;
    assert queue.messages + [] == queue.messages;
    while k < |messages|
      invariant 0 <= k <= |messages|
      invariant queue.Conserved() && queue.drained == old(queue.drained)
                && queue.messages == old(queue.messages) + messages[..k]
    {
      queue.Enqueue(messages[k]);
      assert messages[..k + 1] == messages[..k] + [messages[k]];
      k := k + 1;
    }
    assert messages[..k] == messages;
  }

  /** getSteeringMessages, after others have queued some; the first poll can be skipped. */
  method PollSteering(agent: Agent, arrivals: seq<Message>, skip: bool, ghost log: seq<LogEntry>,
                      ghost steered: seq<Message>, ghost followed: seq<Message>)
    returns (messages: seq<Message>)
    requires Balanced(agent, log, steered, followed)
    modifies agent.steeringQueue
    ensures Balanced(agent, log + [Polled(Steering, messages)], steered, followed)
  {
    EnqueueAll(agent.steeringQueue, arrivals);
    messages := [];
    if !skip {
      messages := agent.steeringQueue.Drain();
    }
    Logged(log, Polled(Steering, messages), Steering);
    Logged(log, Polled(Steering, messages), FollowUp);
    Assoc(steered, PolledFrom(log, Steering), messages);
    assert PolledFrom(log, Steering) + [] == PolledFrom(log, Steering)
      && PolledFrom(log, FollowUp) + [] == PolledFrom(log, FollowUp);
  }

  method PollFollowUps(agent: Agent, steerings: seq<Message>, arrivals: seq<Message>, ghost log: seq<LogEntry>,
                       ghost steered: seq<Message>, ghost followed: seq<Message>) returns (messages: seq<Message>)
    requires Balanced(agent, log, steered, followed)
    modifies agent.steeringQueue, agent.followUpQueue
    ensures Balanced(agent, log + [Polled(FollowUp, messages)], steered, followed)
  {
    EnqueueAll(agent.steeringQueue, steerings);
    EnqueueAll(agent.followUpQueue, arrivals);
    messages := agent.followUpQueue.Drain();
    Logged(log, Polled(FollowUp, messages), Steering);
    Logged(log, Polled(FollowUp, messages), FollowUp);
    Assoc(followed, PolledFrom(log, FollowUp), messages);
    assert PolledFrom(log, Steering) + [] == PolledFrom(log, Steering);
  }

  predicate Plain(turns: seq<Turn>) { forall i | 0 <= i < |turns| :: turns[i].snapshot.None? }

  /** The last turn wants no other and the steering poll after it gave nothing. */
  predicate Quiet(log: seq<LogEntry>) {
    |log| >= 2 && log[|log| - 1] == Polled(Steering, []) && log[|log| - 2].Turned? && !log[|log| - 2].more
  }

  /** What the loop keeps: the grammar, the transcript, the queues and, unless it was replaced, the context. */
  ghost predicate Sound(agent: Agent, run: Run, log: seq<LogEntry>, l: Ledger, phase: Phase)
    reads agent, agent.steeringQueue, agent.followUpQueue
  {
    && agent.Reduced() && PhaseOf(agent.trace) == Some(phase)
    && Accounted(l.start, run, log) && Balanced(agent, log, l.steered, l.followed)
    && (l.plain ==> run.context == l.base + run.newMessages)
  }

  /** What was there before the loop: its first messages, the context without them, and what was drained already. */
  datatype Ledger =
    | Ledger(start: seq<Message>, base: seq<Message>, steered: seq<Message>, followed: seq<Message>, plain: bool)

  function Position(firstTurn: bool, said: seq<Message>): Phase {
    if firstTurn then InTurn(said, 0, {}) else Between(said)
  }

  method SoundTurn(agent: Agent, run: Run, turn: Turn, firstTurn: bool, sequential: bool, ghost log: seq<LogEntry>,
                   ghost l: Ledger)
    returns (run': Run, more: bool, failed: bool, ghost log': seq<LogEntry>)
    requires Sound(agent, run, log, l, Position(firstTurn, run.newMessages)) && WellBehaved(turn)
    modifies agent
    ensures Sound(agent, run', log', l, if failed then Ended(run'.newMessages) else Between(run'.newMessages))
            && Undisturbed(agent)
    ensures run'.pending == [] && LastTurn(log', more)
  {
    ghost var said;
    run', more, failed, log', said := RunTurn(agent, run, turn, firstTurn, sequential, l.start, log);
    Assoc(l.base, run.newMessages, said);
  }

  /** The steering poll after a turn. */
  method SteerAfterTurn(agent: Agent, run: Run, arrivals: seq<Message>, skip: bool, ghost log: seq<LogEntry>,
                        ghost l: Ledger, ghost phase: Phase)
    returns (run': Run, ghost log': seq<LogEntry>)
    requires Sound(agent, run, log, l, phase) && run.pending == []
    modifies agent.steeringQueue
    ensures Sound(agent, run', log', l, phase) && run' == run.(pending := run'.pending, source := Steering)
    ensures log' == log + [Polled(Steering, run'.pending)]
  {
    var messages := PollSteering(agent, arrivals, skip, log, l.steered, l.followed);
    run', log' := run.(pending := messages, source := Steering), log + [Polled(Steering, messages)];
    PollDone(l.start, run, log, Polled(Steering, messages), run');
  }

  /** prepareNextTurn may replace the context. */
  function Prepared(run: Run, snapshot: Option<seq<Message>>): Run {
    if snapshot.Some? then run.(context := snapshot.value) else run
  }

  /** What follows a turn: a stop, or the next poll for steering messages. */
  method AfterTurn(agent: Agent, run: Run, turn: Turn, ghost more: bool, ghost log: seq<LogEntry>, ghost l: Ledger)
    returns (run': Run, ended: bool, ghost log': seq<LogEntry>)
    requires Sound(agent, run, log, l, Between(run.newMessages)) && run.pending == [] && LastTurn(log, more)
    modifies agent, agent.steeringQueue
    ensures Sound(agent, run', log', l, if ended then Ended(run'.newMessages) else Between(run'.newMessages))
            && Undisturbed(agent)
    ensures ended ==> run'.pending == []
    ensures !ended && !more && run'.pending == [] ==> Quiet(log')
  {
    ended := turn.stop;
    if ended {
      agent.ProcessEvents(AgentEnd(run.newMessages));
      return run, true, log;
    }
    run', log' := SteerAfterTurn(agent, run, turn.steered, false, log, l, Between(run.newMessages));
  }

  /** One pass of the inner loop. */
  method TurnAndPoll(agent: Agent, run: Run, turn: Turn, firstTurn: bool, sequential: bool, ghost log: seq<LogEntry>,
                     ghost l: Ledger)
    returns (run': Run, more: bool, ended: bool, ghost log': seq<LogEntry>)
    requires Sound(agent, run, log, l, Position(firstTurn, run.newMessages)) && WellBehaved(turn)
             && (l.plain ==> turn.snapshot.None?)
    modifies agent, agent.steeringQueue
    ensures Sound(agent, run', log', l, if ended then Ended(run'.newMessages) else Between(run'.newMessages))
            && Undisturbed(agent)
    ensures ended ==> run'.pending == []
    ensures !ended && !more && run'.pending == [] ==> Quiet(log')
  {
    run', more, ended, log' := SoundTurn(agent, run, turn, firstTurn, sequential, log, l);
    if !ended {
      run', ended, log' := AfterTurn(agent, Prepared(run', turn.snapshot), turn, more, log', l);
    }
  }

  /** What the loop does when a turn wants no other: it polls for follow-ups, and ends if there are none. */
  method FollowUpOrEnd(agent: Agent, run: Run, steerings: seq<Message>, arrivals: seq<Message>,
                       ghost log: seq<LogEntry>, ghost l: Ledger)
    returns (run': Run, ended: bool, ghost log': seq<LogEntry>)
    requires Sound(agent, run, log, l, Between(run.newMessages)) && run.pending == [] && Quiet(log)
    modifies agent, agent.steeringQueue, agent.followUpQueue
    ensures Sound(agent, run', log', l, if ended then Ended(run'.newMessages) else Between(run'.newMessages))
            && Undisturbed(agent)
    ensures ended <==> run'.pending == []
  {
    var messages := PollFollowUps(agent, steerings, arrivals, log, l.steered, l.followed);
    run', log' := run.(pending := messages, source := FollowUp), log + [Polled(FollowUp, messages)];
    PollDone(l.start, run, log, Polled(FollowUp, messages), run');
    ended := |messages| == 0;
    if ended {
      agent.ProcessEvents(AgentEnd(run'.newMessages));
    }
  }

  /** runLoop; when these turns are all that has happened so far, where it stands. */
  method RunLoop(agent: Agent, context: seq<Message>, newMessages: seq<Message>, turns: seq<Turn>, sequential: bool,
                 early: seq<Message>, skipInitialSteeringPoll: bool, ghost base: seq<Message>)
    returns (run: Run, ended: bool, ghost log: seq<LogEntry>)
    requires agent.Reduced() && PhaseOf(agent.trace) == Some(InTurn(newMessages, 0, {}))
             && context == base + newMessages
    requires Balanced(agent, [], agent.steeringQueue.drained, agent.followUpQueue.drained)
    requires forall i | 0 <= i < |turns| :: WellBehaved(turns[i])
    modifies agent, agent.steeringQueue, agent.followUpQueue
    ensures PhaseOf(agent.trace).Some?
    ensures Sound(agent, run, log,
                  Ledger(newMessages, base, old(agent.steeringQueue.drained), old(agent.followUpQueue.drained),
                         Plain(turns)),
                  PhaseOf(agent.trace).value)
    ensures ended ==> PhaseOf(agent.trace) == Some(Ended(run.newMessages))
    ensures !ended ==>
              PhaseOf(agent.trace) == Some(Between(run.newMessages))
                || PhaseOf(agent.trace) == Some(InTurn(run.newMessages, 0, {}))
    ensures (ended ==> run.pending == []) && Undisturbed(agent)
  {
    ghost var l := Ledger(newMessages, base, agent.steeringQueue.drained, agent.followUpQueue.drained, Plain(turns));
    run, log := Run(context, newMessages, [], Steering), [];
    assert newMessages + [] == newMessages;
    run, log := SteerAfterTurn(agent, run, early, skipInitialSteeringPoll, log, l, InTurn(newMessages, 0, {}));
    var firstTurn, t := true, 0;
    while true
      invariant 0 <= t <= |turns| && Undisturbed(agent)
      invariant Sound(agent, run, log, l, Position(firstTurn, run.newMessages))
      decreases |turns| - t
    {
      var hasMoreToolCalls, before := true, t;
      while hasMoreToolCalls || |run.pending| > 0
        invariant before <= t <= |turns| && Undisturbed(agent) && (t == before ==> hasMoreToolCalls)
                  && (t > before ==> !firstTurn)
        invariant Sound(agent, run, log, l, Position(firstTurn, run.newMessages))
        invariant !hasMoreToolCalls && run.pending == [] ==> Quiet(log)
        decreases |turns| - t
      {
        if t == |turns| { return run, false, log; }
        run, hasMoreToolCalls, ended, log := TurnAndPoll(agent, run, turns[t], firstTurn, sequential, log, l);
        firstTurn := false;
        t := t + 1;
        if ended { return; }
      }
      run, ended, log := FollowUpOrEnd(agent, run, turns[t - 1].steeredLater, turns[t - 1].followedUp, log, l);
      if ended { return; }
    }
  }

  // ----- runs of an agent

  /** What a finished or unfinished run has brought about since the queues had these drained messages. */
  ghost predicate Accounts(agent: Agent, run: Run, log: seq<LogEntry>, prompts: seq<Message>, plain: bool,
                           steered: seq<Message>, followed: seq<Message>)
    reads agent, agent.steeringQueue, agent.followUpQueue
  {
    // the transcript grew by what the listeners were told, which is what the loop returns ...
    && agent.messages == agent.history + run.newMessages && run.newMessages == Said(agent.trace)
    && run.newMessages == prompts + Messages(log)
    // ... and which its context grew by
    && (plain ==> run.context == agent.messages)
    // queued messages were injected in order, wait in the loop, or are still queued
    && agent.steeringQueue.enqueued
       == steered + InjectedFrom(log, Steering) + (if run.source == Steering then run.pending else [])
         + agent.steeringQueue.messages
    && agent.followUpQueue.enqueued
       == followed + InjectedFrom(log, FollowUp) + (if run.source == FollowUp then run.pending else [])
         + agent.followUpQueue.messages
    && FollowUpsLast(log) && InOrder(agent)
  }

  ghost predicate InOrder(agent: Agent)
    reads agent.steeringQueue, agent.followUpQueue
  {
    agent.steeringQueue != agent.followUpQueue && agent.steeringQueue.Conserved() && agent.followUpQueue.Conserved()
  }

  lemma {:induction false} SoundAccounts(agent: Agent, run: Run, log: seq<LogEntry>, l: Ledger, phase: Phase)
    requires Sound(agent, run, log, l, phase) && l.base == agent.history && !phase.Before? && !phase.Starting?
    requires phase.said == run.newMessages
    ensures Accounts(agent, run, log, l.start, l.plain, l.steered, l.followed)
  {
    GrammarAgrees(agent.trace);
    Assoc(l.steered, InjectedFrom(log, Steering), if run.source == Steering then run.pending else []);
    Assoc(l.followed, InjectedFrom(log, FollowUp), if run.source == FollowUp then run.pending else []);
  }

  /** No run is on and the queues are in order. */
  ghost predicate Resting(agent: Agent)
    reads agent, agent.steeringQueue, agent.followUpQueue
  {
    !agent.active && agent.pendingToolCalls == {} && InOrder(agent)
  }

  /** runWithLifecycle, up to the executor. */
  method BeginRun(agent: Agent)
    requires Resting(agent)
    modifies agent
    ensures agent.Reduced() && agent.trace == [] && agent.history == agent.messages == old(agent.messages)
    ensures agent.active && agent.isStreaming
  {
    agent.active, agent.aborted, agent.isStreaming := true, false, true;
    agent.streamingMessage, agent.errorMessage := None, "";
    agent.trace, agent.history := [], agent.messages;
  }

  method FinishRun(agent: Agent)
    modifies agent
    ensures agent.messages == old(agent.messages) && agent.trace == old(agent.trace)
            && agent.history == old(agent.history)
    ensures agent.errorMessage == old(agent.errorMessage)
    ensures !agent.active && !agent.isStreaming && agent.streamingMessage == None && agent.pendingToolCalls == {}
  {
    agent.isStreaming, agent.streamingMessage, agent.pendingToolCalls := false, None, {};
    agent.active := false;
  }

  /** A run starts, and its first turn opens with the prompts. */
  method SayPrompts(agent: Agent, prompts: seq<Message>)
    requires agent.Reduced() && agent.trace == []
    modifies agent
    ensures Idle(agent, prompts, 0) && Undisturbed(agent)
  {
    agent.ProcessEvents(AgentStart);
    agent.ProcessEvents(TurnStart);
    var k := 0;
    while k < |prompts|
      invariant 0 <= k <= |prompts| && Idle(agent, prompts[..k], 0) && Undisturbed(agent)
    {
      Say(agent, prompts[k], prompts[..k], 0);
      assert prompts[..k + 1] == prompts[..k] + [prompts[k]];
      k := k + 1;
    }
    assert prompts[..k] == prompts;
  }

  /** runAgentLoop: the first turn opens with the prompts. */
  method RunAgentLoop(agent: Agent, prompts: seq<Message>, turns: seq<Turn>, sequential: bool, early: seq<Message>,
                      skipInitialSteeringPoll: bool)
    returns (run: Run, ended: bool, ghost log: seq<LogEntry>)
    requires agent.Reduced() && agent.trace == [] && agent.history == agent.messages
    requires Balanced(agent, [], agent.steeringQueue.drained, agent.followUpQueue.drained)
    requires forall i | 0 <= i < |turns| :: WellBehaved(turns[i])
    modifies agent, agent.steeringQueue, agent.followUpQueue
    ensures Undisturbed(agent) && (ended ==> run.pending == [] && PhaseOf(agent.trace) == Some(Ended(run.newMessages)))
    ensures PhaseOf(agent.trace).Some?
    ensures Accounts(agent, run, log, prompts, Plain(turns), old(agent.steeringQueue.drained),
                     old(agent.followUpQueue.drained))
  {
    ghost var base := agent.messages;
    var context := agent.messages + prompts;
    SayPrompts(agent, prompts);
    run, ended, log := RunLoop(agent, context, prompts, turns, sequential, early, skipInitialSteeringPoll, base);
    SoundAccounts(agent, run, log,
                  Ledger(prompts, base, old(agent.steeringQueue.drained), old(agent.followUpQueue.drained),
                         Plain(turns)),
                  PhaseOf(agent.trace).value);
  }

  /** runAgentLoopContinue, from a transcript that does not end with an answer. */
  method RunAgentLoopContinue(agent: Agent, turns: seq<Turn>, sequential: bool, early: seq<Message>)
    returns (run: Run, ended: bool, ghost log: seq<LogEntry>)
    requires agent.Reduced() && agent.trace == [] && agent.history == agent.messages
    requires Balanced(agent, [], agent.steeringQueue.drained, agent.followUpQueue.drained)
    requires forall i | 0 <= i < |turns| :: WellBehaved(turns[i])
    modifies agent, agent.steeringQueue, agent.followUpQueue
    ensures Undisturbed(agent) && (ended ==> run.pending == [] && PhaseOf(agent.trace) == Some(Ended(run.newMessages)))
    ensures PhaseOf(agent.trace).Some?
    ensures Accounts(agent, run, log, [], Plain(turns), old(agent.steeringQueue.drained),
                     old(agent.followUpQueue.drained))
  {
    ghost var base := agent.messages;
    var context := agent.messages;
    SayPrompts(agent, []);
    assert base + [] == base;
    run, ended, log := RunLoop(agent, context, [], turns, sequential, early, false, base);
    SoundAccounts(agent, run, log,
                  Ledger([], base, old(agent.steeringQueue.drained), old(agent.followUpQueue.drained), Plain(turns)),
                  PhaseOf(agent.trace).value);
  }

  datatype Refusal = AlreadyProcessing | NothingToContinue | CannotContinueFromAssistant

  datatype Started = Started(run: Run, ended: bool) | Refused(why: Refusal)

  /** What holds when a started run has ended or stands still: who asked for it makes no difference. */
  ghost predicate Settled(agent: Agent, started: Started, log: seq<LogEntry>, history: seq<Message>,
                          prompts: seq<Message>, plain: bool, steered: seq<Message>, followed: seq<Message>)
    reads agent, agent.steeringQueue, agent.followUpQueue
  {
    && started.Started? && agent.history == history
    && Accounts(agent, started.run, log, prompts, plain, steered, followed)
    && agent.active == !started.ended
    && (started.ended ==>
        Resting(agent) && started.run.pending == [] && PhaseOf(agent.trace) == Some(Ended(started.run.newMessages)))
  }

  method RunPromptMessages(agent: Agent, prompts: seq<Message>, turns: seq<Turn>, sequential: bool, early: seq<Message>,
                           skipInitialSteeringPoll: bool)
    returns (started: Started, ghost log: seq<LogEntry>)
    requires Resting(agent) && forall i | 0 <= i < |turns| :: WellBehaved(turns[i])
    modifies agent, agent.steeringQueue, agent.followUpQueue
    ensures Settled(agent, started, log, old(agent.messages), prompts, Plain(turns),
                    old(agent.steeringQueue.drained), old(agent.followUpQueue.drained))
  {
    BeginRun(agent);
    var run, ended;
    run, ended, log := RunAgentLoop(agent, prompts, turns, sequential, early, skipInitialSteeringPoll);
    if ended { FinishRun(agent); }
    started := Started(run, ended);
  }

  method Prompt(agent: Agent, messages: seq<Message>, turns: seq<Turn>, sequential: bool, early: seq<Message>)
    returns (started: Started, ghost log: seq<LogEntry>)
    requires (!agent.active ==> Resting(agent)) && forall i | 0 <= i < |turns| :: WellBehaved(turns[i])
    modifies agent, agent.steeringQueue, agent.followUpQueue
    ensures old(agent.active) ==>
              started == Refused(AlreadyProcessing) && unchanged(agent, agent.steeringQueue, agent.followUpQueue)
    ensures !old(agent.active) ==> Settled(agent, started, log, old(agent.messages), messages, Plain(turns),
                                           old(agent.steeringQueue.drained), old(agent.followUpQueue.drained))
  {
    log := [];
    if agent.active { return Refused(AlreadyProcessing), log; }
    started, log := RunPromptMessages(agent, messages, turns, sequential, early, false);
  }

  /** Agent.continue: after an answer only queued messages can go on, steering before follow-ups. */
  method Continue(agent: Agent, turns: seq<Turn>, sequential: bool, early: seq<Message>)
    returns (started: Started, ghost log: seq<LogEntry>, ghost prompts: seq<Message>, ghost steered: seq<Message>,
             ghost followed: seq<Message>)
    requires (!agent.active ==> Resting(agent)) && InOrder(agent)
             && forall i | 0 <= i < |turns| :: WellBehaved(turns[i])
    modifies agent, agent.steeringQueue, agent.followUpQueue
    ensures old(agent.active) ==> started == Refused(AlreadyProcessing)
    ensures !old(agent.active) && old(agent.messages) == [] ==> started == Refused(NothingToContinue)
    ensures started.Refused? ==> unchanged(agent)
    ensures started.Refused? ==> agent.steeringQueue.messages == old(agent.steeringQueue.messages)
    ensures started.Refused? ==> agent.followUpQueue.messages == old(agent.followUpQueue.messages)
    ensures started == Refused(CannotContinueFromAssistant) <==>
            !old(agent.active) && old(AfterAnswer(agent)) && !old(agent.steeringQueue.HasItems())
              && !old(agent.followUpQueue.HasItems())
    ensures started.Started? ==>
              Settled(agent, started, log, old(agent.messages), prompts, Plain(turns), steered, followed)
    // what becomes a prompt is taken from the front of a queue
    ensures started.Started? && old(AfterAnswer(agent)) ==>
              if old(agent.steeringQueue.HasItems())
              then prompts != [] && steered == old(agent.steeringQueue.drained) + prompts
                && followed == old(agent.followUpQueue.drained)
              else
                prompts != [] && steered == old(agent.steeringQueue.drained)
                  && followed == old(agent.followUpQueue.drained) + prompts
    ensures started.Started? && !old(AfterAnswer(agent)) ==>
              prompts == [] && steered == old(agent.steeringQueue.drained)
                && followed == old(agent.followUpQueue.drained)
  {
    log, prompts, steered, followed := [], [], agent.steeringQueue.drained, agent.followUpQueue.drained;
    if agent.active { return Refused(AlreadyProcessing), log, prompts, steered, followed; }
    if agent.messages == [] { return Refused(NothingToContinue), log, prompts, steered, followed; }
    if agent.messages[|agent.messages| - 1].Assistant? {
      var queuedSteering := agent.steeringQueue.Drain();
      steered := agent.steeringQueue.drained;
      if |queuedSteering| > 0 {
        prompts := queuedSteering;
        started, log := RunPromptMessages(agent, queuedSteering, turns, sequential, early, true);
        return;
      }
      var queuedFollowUps := agent.followUpQueue.Drain();
      followed := agent.followUpQueue.drained;
      if |queuedFollowUps| > 0 {
        prompts := queuedFollowUps;
        started, log := RunPromptMessages(agent, queuedFollowUps, turns, sequential, early, false);
        return;
      }
      return Refused(CannotContinueFromAssistant), log, prompts, steered, followed;
    }
    started, log := RunContinuation(agent, turns, sequential, early);
  }

  predicate AfterAnswer(agent: Agent)
    reads agent
  {
    |agent.messages| > 0 && agent.messages[|agent.messages| - 1].Assistant?
  }

  method RunContinuation(agent: Agent, turns: seq<Turn>, sequential: bool, early: seq<Message>)
    returns (started: Started, ghost log: seq<LogEntry>)
    requires Resting(agent) && forall i | 0 <= i < |turns| :: WellBehaved(turns[i])
    modifies agent, agent.steeringQueue, agent.followUpQueue
    ensures Settled(agent, started, log, old(agent.messages), [], Plain(turns),
                    old(agent.steeringQueue.drained), old(agent.followUpQueue.drained))
  {
    BeginRun(agent);
    var run, ended;
    run, ended, log := RunAgentLoopContinue(agent, turns, sequential, early);
    if ended { FinishRun(agent); }
    started := Started(run, ended);
  }
}
