/** Tool batches under every interleaving: packages/agent/src/agent-loop.ts. */
module AgentTools {
  import opened Common
  import opened AgentEvents
  import opened Agents

  datatype ToolResult = ToolResult(content: Content, terminate: bool)

  datatype Finalized = Finalized(call: ToolCall, result: ToolResult, isError: bool)

  /** What the tool of a call and its hooks do when the call comes. */
  datatype Behaviour = Behaviour(
    found: bool, sequential: bool,
    invalid: Option<string>,   // preparing or validating the arguments throws
    before: BeforeHook,
    updates: seq<string>,      // partial results until the tool settles
    late: seq<string>,         // partial results after that
    execution: Execution,
    after: AfterHook)

  datatype BeforeHook = NoHook | Allow | Block(reason: string) | BeforeThrows(message: string)

  datatype Execution = Returns(result: ToolResult) | Throws(message: string)

  datatype AfterHook =
    | Keep
    | Override(content: Option<Content>, isError: Option<bool>, terminate: Option<bool>)
    | AfterThrows(message: string)

  function CreateErrorToolResult(message: Content): ToolResult { ToolResult(message, false) }

  function Failed(call: ToolCall, message: Content): Finalized { Finalized(call, CreateErrorToolResult(message), true) }

  /** prepareToolCall: the outcome of a call that is not executed. */
  function Immediate(call: ToolCall, b: Behaviour, aborted: bool): Option<Finalized> {
    if !b.found then Some(Failed(call, ToolNotFound(call.name)))
    else if b.invalid.Some? then Some(Failed(call, Text(b.invalid.value)))
    else if b.before.BeforeThrows? then Some(Failed(call, Text(b.before.message)))
    else if aborted then Some(Failed(call, OperationAborted))
    else if b.before.Block? then
      Some(Failed(call, if b.before.reason != "" then Text(b.before.reason) else ExecutionBlocked))
    else None
  }

  function Or<T>(value: Option<T>, other: T): T { if value.Some? then value.value else other }

  /** finalizeExecutedToolCall. */
  function FinalizeExecuted(call: ToolCall, b: Behaviour): Finalized {
    var result := if b.execution.Returns? then b.execution.result else CreateErrorToolResult(Text(b.execution.message));
    match b.after
    case Keep => Finalized(call, result, b.execution.Throws?)
    case Override(content, isError, terminate) =>
      Finalized(call, ToolResult(Or(content, result.content), Or(terminate, result.terminate)),
                Or(isError, b.execution.Throws?))
    case AfterThrows(message) => Failed(call, Text(message))
  }

  /** A finished call: its outcome and the updates it announced. */
  datatype Done = Done(final: Finalized, updates: seq<string>)

  function DoneOf(call: ToolCall, b: Behaviour, aborted: bool): Done {
    var immediate := Immediate(call, b, aborted);
    if immediate.Some? then Done(immediate.value, []) else Done(FinalizeExecuted(call, b), b.updates)
  }

  /** All that stands in the way of a call, in the order in which it is looked at. */
  function Obstacles(call: ToolCall, b: Behaviour, aborted: bool): seq<Content> {
    (if !b.found then [ToolNotFound(call.name)] else [])
    + (if b.invalid.Some? then [Text(b.invalid.value)] else [])
    + (if b.before.BeforeThrows? then [Text(b.before.message)] else [])
    + (if aborted then [OperationAborted] else [])
    + (if b.before.Block? then [if b.before.reason != "" then Text(b.before.reason) else ExecutionBlocked] else [])
  }

  /** A call is executed if and only if nothing stands in its way; else the first obstacle is the error it ends with. */
  lemma {:induction false} RefusedByTheFirst(call: ToolCall, b: Behaviour, aborted: bool)
    ensures Immediate(call, b, aborted)
         == if Obstacles(call, b, aborted) == [] then None else Some(Failed(call, Obstacles(call, b, aborted)[0]))
  {
  }

  // ----- what is emitted

  function StartEvent(call: ToolCall): Event { ToolStart(call.id) }

  function EndEvent(f: Finalized): Event { ToolEnd(f.call.id, f.result.content, f.isError) }

  function ResultMessage(f: Finalized): Message { ToolOutput(f.call.id, f.call.name, f.result.content, f.isError) }

  function Updates(id: string, updates: seq<string>): seq<Event> {
    if updates == [] then [] else Updates(id, updates[..|updates| - 1]) + [ToolUpdate(id, updates[|updates| - 1])]
  }

  /** The events of a finished call: one start, its updates, one end. */
  function CallEvents(d: Done): seq<Event> {
    [StartEvent(d.final.call)] + Updates(d.final.call.id, d.updates) + [EndEvent(d.final)]
  }

  function Results(dones: seq<Done>): seq<Message> {
    if dones == [] then [] else Results(dones[..|dones| - 1]) + [ResultMessage(dones[|dones| - 1].final)]
  }

  predicate DistinctIds(calls: seq<ToolCall>) {
    forall i, j | 0 <= i < j < |calls| :: calls[i].id != calls[j].id
  }

  predicate NoneOf(calls: seq<ToolCall>, k: nat, id: string) {
    k <= |calls| && forall i | 0 <= i < k :: calls[i].id != id
  }

  /** Only the first k calls have said anything. */
  ghost predicate Silent(events: seq<Event>, calls: seq<ToolCall>, k: nat) {
    k <= |calls| && forall id | NoneOf(calls, k, id) :: Of(events, id) == []
  }

  /**
   * What a batch says, under any interleaving: each call that was started has its start, its updates and its end
   * in this order, nobody else says anything, and the results come in the order of the calls.
   */
  ghost predicate BatchDone(events: seq<Event>, calls: seq<ToolCall>, dones: seq<Done>) {
    && Silent(events, calls, |dones|)
    && (forall i | 0 <= i < |dones| ::
        dones[i].final.call == calls[i] && Of(events, calls[i].id) == CallEvents(dones[i]))
    && ViewOf(events).said == Results(dones)
  }

  lemma {:induction false} SaidUpTo(v: View, events: seq<Event>, n: nat)
    requires n <= |events|
    ensures ViewUpTo(v, events, n).said == v.said + ViewUpTo(START, events, n).said
  {
    if n > 0 { SaidUpTo(v, events, n - 1); }
  }

  lemma {:induction false} SaidConcat(a: seq<Event>, b: seq<Event>)
    ensures ViewOf(a + b).said == ViewOf(a).said + ViewOf(b).said
  {
    ViewConcat(START, a, b);
    SaidUpTo(ViewOf(a), b, |b|);
  }

  lemma {:induction false} OfUpdates(id: string, updates: seq<string>, other: string)
    ensures Of(Updates(id, updates), other) == if other == id then Updates(id, updates) else []
    ensures ViewOf(Updates(id, updates)).said == []
  {
    if updates != [] {
      var init, last := updates[..|updates| - 1], updates[|updates| - 1];
      OfUpdates(id, init, other);
      OfEmitted(Updates(id, init), ToolUpdate(id, last), other);
      Emitted(START, Updates(id, init), ToolUpdate(id, last));
    }
  }

  lemma {:induction false} OfCall(d: Done, id: string)
    ensures Of(CallEvents(d), id) == if id == d.final.call.id then CallEvents(d) else []
    ensures ViewOf(CallEvents(d)).said == []
  {
    var call := d.final.call;
    var start, updates, end := [StartEvent(call)], Updates(call.id, d.updates), [EndEvent(d.final)];
    OfUpdates(call.id, d.updates, id);
    OfConcat(start + updates, end, id);
    OfConcat(start, updates, id);
    assert [] + start == start && [] + end == end;
    OfEmitted([], start[0], id);
    OfEmitted([], end[0], id);
    Emitted(START, [], start[0]);
    SaidConcat(start, updates);
    Emitted(START, start + updates, end[0]);
  }

  lemma {:induction false} OfResult(m: Message, id: string)
    ensures Of(ResultEvents(m), id) == [] && ViewOf(ResultEvents(m)).said == [m]
  {
    var start, end := MessageStart(m), MessageEnd(m);
    assert [] + [start] == [start] && [start] + [end] == [start, end];
    OfEmitted([], start, id);
    OfEmitted([start], end, id);
    Emitted(START, [], start);
    Emitted(START, [start], end);
  }

  lemma {:induction false} BatchStart(calls: seq<ToolCall>)
    ensures BatchDone([], calls, [])
  {
  }

  function ResultEvents(m: Message): seq<Event> { [MessageStart(m), MessageEnd(m)] }

  lemma {:induction false} OfCallAndResult(events: seq<Event>, d: Done, m: Message, id: string)
    ensures Of(events + CallEvents(d) + ResultEvents(m), id)
            == Of(events, id) + if id == d.final.call.id then CallEvents(d) else []
    ensures ViewOf(events + CallEvents(d) + ResultEvents(m)).said == ViewOf(events).said + [m]
  {
    OfConcat(events + CallEvents(d), ResultEvents(m), id);
    OfConcat(events, CallEvents(d), id);
    OfCall(d, id);
    OfResult(m, id);
    SaidConcat(events + CallEvents(d), ResultEvents(m));
    SaidConcat(events, CallEvents(d));
  }

  /** What was said meanwhile is all about one call. */
  ghost predicate Says(all: seq<Event>, events: seq<Event>, id: string, said: seq<Event>) {
    && Of(all, id) == Of(events, id) + said
    && forall other | other != id :: Of(all, other) == Of(events, other)
  }

  lemma {:induction false} CallSays(events: seq<Event>, d: Done)
    ensures var all := events + CallEvents(d) + ResultEvents(ResultMessage(d.final));
            Says(all, events, d.final.call.id, CallEvents(d))
              && ViewOf(all).said == ViewOf(events).said + [ResultMessage(d.final)]
  {
    var m := ResultMessage(d.final);
    OfCallAndResult(events, d, m, d.final.call.id);
    forall other | other != d.final.call.id
      ensures Of(events + CallEvents(d) + ResultEvents(m), other) == Of(events, other)
    {
      OfCallAndResult(events, d, m, other);
      assert Of(events, other) + [] == Of(events, other);
    }
  }

  lemma {:induction false} SilentNext(events: seq<Event>, calls: seq<ToolCall>, k: nat, said: seq<Event>,
                                      all: seq<Event>)
    requires Silent(events, calls, k) && k < |calls| && Says(all, events, calls[k].id, said) && DistinctIds(calls)
    ensures Silent(all, calls, k + 1) && Of(all, calls[k].id) == said
  {
    assert NoneOf(calls, k, calls[k].id);
    assert Of(events, calls[k].id) == [] && [] + said == said;
    forall id | NoneOf(calls, k + 1, id) ensures Of(all, id) == [] {
      assert calls[k].id != id && NoneOf(calls, k, id);
    }
  }

  /** One more call, carried out from start to result. */
  lemma {:induction false} BatchNext(events: seq<Event>, calls: seq<ToolCall>, dones: seq<Done>, d: Done,
                                     all: seq<Event>, more: seq<Done>)
    requires BatchDone(events, calls, dones) && DistinctIds(calls) && |dones| < |calls|
             && d.final.call == calls[|dones|]
    requires Says(all, events, d.final.call.id, CallEvents(d))
             && ViewOf(all).said == ViewOf(events).said + [ResultMessage(d.final)]
    requires more == dones + [d]
    ensures BatchDone(all, calls, more)
  {
    var n := |dones|;
    SilentNext(events, calls, n, CallEvents(d), all);
    ResultsNext(dones, d, []);
    forall i | 0 <= i < |more| ensures more[i].final.call == calls[i] && Of(all, calls[i].id) == CallEvents(more[i]) {
      if i < n { assert more[i] == dones[i] && calls[i].id != calls[n].id; }
    }
  }

  lemma {:induction false} ResultsNext(dones: seq<Done>, d: Done, said: seq<Message>)
    ensures Results(dones + [d]) == Results(dones) + [ResultMessage(d.final)]
    ensures said + Results(dones) + [ResultMessage(d.final)] == said + Results(dones + [d])
    ensures Finals(dones + [d]) == Finals(dones) + [d.final]
  {
    assert (dones + [d])[..|dones|] == dones;
  }

  // ----- one call after the other

  method OnUpdate(agent: Agent, call: ToolCall, acceptingUpdates: bool, partial: string)
    requires agent.Reduced()
    modifies agent
    ensures agent.Emits(if acceptingUpdates then [ToolUpdate(call.id, partial)] else [])
    ensures acceptingUpdates ==> ViewOf(agent.trace) == Look(old(ViewOf(agent.trace)), ToolUpdate(call.id, partial))
    ensures !acceptingUpdates ==> agent.trace == old(agent.trace)
  {
    if !acceptingUpdates {
      assert agent.trace + [] == agent.trace;
      return;
    }
    agent.ProcessEvents(ToolUpdate(call.id, partial));
  }

  /** executePreparedToolCall: what a tool reports after it has settled is ignored. */
  method ExecutePreparedToolCall(agent: Agent, call: ToolCall, b: Behaviour)
    requires agent.Reduced() && PhaseOf(agent.trace).Some? && PhaseOf(agent.trace).value.InTurn?
             && call.id in PhaseOf(agent.trace).value.open
    modifies agent
    ensures agent.Emits(Updates(call.id, b.updates))
    ensures PhaseOf(agent.trace) == old(PhaseOf(agent.trace))
  {
    var acceptingUpdates, k := true, 0;
    assert agent.trace + [] == agent.trace;
    while k < |b.updates|
      invariant 0 <= k <= |b.updates|
      invariant agent.Emits(Updates(call.id, b.updates[..k])) && PhaseOf(agent.trace) == old(PhaseOf(agent.trace))
    {
      OnUpdate(agent, call, acceptingUpdates, b.updates[k]);
      assert b.updates[..k + 1][..k] == b.updates[..k];
      k := k + 1;
    }
    assert b.updates[..k] == b.updates;
    acceptingUpdates, k := false, 0;
    while k < |b.late|
      invariant 0 <= k <= |b.late|
      invariant agent.Emits(Updates(call.id, b.updates)) && PhaseOf(agent.trace) == old(PhaseOf(agent.trace))
    {
      OnUpdate(agent, call, acceptingUpdates, b.late[k]);
      k := k + 1;
    }
  }

  /** The run is in a turn, no tool call is going on. */
  ghost predicate Idle(agent: Agent, said: seq<Message>, mark: nat)
    reads agent
  {
    agent.Reduced() && PhaseOf(agent.trace) == Some(InTurn(said, mark, {}))
  }

  method EmitToolResultMessage(agent: Agent, m: Message, ghost said: seq<Message>, ghost mark: nat)
    requires Idle(agent, said, mark)
    modifies agent
    ensures agent.Emits(ResultEvents(m)) && Idle(agent, said + [m], mark)
  {
    agent.ProcessEvents(MessageStart(m));
    agent.ProcessEvents(MessageEnd(m));
    agent.Await();
  }

  twostate predicate Undisturbed(agent: Agent)
    reads agent
  {
    agent.history == old(agent.history) && agent.active == old(agent.active)
      && agent.isStreaming == old(agent.isStreaming)
    && (old(agent.aborted) ==> agent.aborted)
  }

  lemma {:induction false} CallTrace(trace: seq<Event>, call: ToolCall, d: Done)
    requires d.final.call == call
    ensures trace + [StartEvent(call)] + Updates(call.id, d.updates) + [EndEvent(d.final)] == trace + CallEvents(d)
    ensures d.updates == [] ==> trace + [StartEvent(call)] + [EndEvent(d.final)] == trace + CallEvents(d)
  {
  }

  /** One call from start to end, for the executors that do not overlap calls. */
  method RunCall(agent: Agent, call: ToolCall, b: Behaviour, ghost said: seq<Message>, ghost mark: nat)
    returns (f: Finalized, ghost aborted: bool)
    requires Idle(agent, said, mark)
    modifies agent
    ensures f == DoneOf(call, b, aborted).final && (aborted ==> agent.aborted)
    ensures agent.trace == old(agent.trace) + CallEvents(DoneOf(call, b, aborted)) && Idle(agent, said, mark)
            && Undisturbed(agent)
  {
    agent.ProcessEvents(StartEvent(call));
    agent.Await();
    aborted := agent.aborted;
    CallTrace(old(agent.trace), call, DoneOf(call, b, aborted));
    var immediate := Immediate(call, b, agent.aborted);
    if immediate.Some? {
      f := immediate.value;
    } else {
      ExecutePreparedToolCall(agent, call, b);
      agent.Await();
      f := FinalizeExecuted(call, b);
    }
    agent.ProcessEvents(EndEvent(f));
  }

  /** shouldTerminateToolBatch. */
  predicate ShouldTerminate(finals: seq<Finalized>) {
    |finals| > 0 && forall i | 0 <= i < |finals| :: finals[i].result.terminate
  }

  function Finals(dones: seq<Done>): seq<Finalized> {
    seq(|dones|, i requires 0 <= i < |dones| => dones[i].final)
  }

  datatype Batch = Batch(messages: seq<Message>, terminate: bool)

  /** The calls that were carried out are the first ones, all of them unless the run was aborted. */
  ghost predicate Carried(calls: seq<ToolCall>, tools: ToolCall -> Behaviour, dones: seq<Done>, aborts: seq<bool>,
                          aborted: bool) {
    FirstCarried(calls, tools, dones, aborts, aborted) && (|dones| == |calls| || aborted)
  }

  ghost predicate FirstCarried(calls: seq<ToolCall>, tools: ToolCall -> Behaviour, dones: seq<Done>, aborts: seq<bool>,
                               aborted: bool) {
    && |dones| == |aborts| <= |calls|
    && forall i | 0 <= i < |dones| ::
        dones[i] == DoneOf(calls[i], tools(calls[i]), aborts[i]) && (aborts[i] ==> aborted)
  }

  lemma {:induction false} CarriedNext(calls: seq<ToolCall>, tools: ToolCall -> Behaviour, dones: seq<Done>,
                                       aborts: seq<bool>, before: bool, d: Done, abort: bool, aborted: bool)
    requires FirstCarried(calls, tools, dones, aborts, before) && |dones| < |calls| && (before || abort ==> aborted)
    requires d == DoneOf(calls[|dones|], tools(calls[|dones|]), abort)
    ensures FirstCarried(calls, tools, dones + [d], aborts + [abort], aborted)
  {
  }

  /** A call that was refused is reported as an error without updates, and its batch does not end the loop. */
  lemma {:induction false} RefusalGoesOn(calls: seq<ToolCall>, tools: ToolCall -> Behaviour, dones: seq<Done>,
                                         aborts: seq<bool>, aborted: bool, i: nat)
    requires Carried(calls, tools, dones, aborts, aborted) && i < |dones|
             && Obstacles(calls[i], tools(calls[i]), aborts[i]) != []
    ensures dones[i] == Done(Failed(calls[i], Obstacles(calls[i], tools(calls[i]), aborts[i])[0]), [])
    ensures !ShouldTerminate(Finals(dones))
  {
    RefusedByTheFirst(calls[i], tools(calls[i]), aborts[i]);
    assert Finals(dones)[i] == dones[i].final;
  }

  /** What every executor of a batch promises. */
  twostate predicate Executed(agent: Agent, calls: seq<ToolCall>, dones: seq<Done>, batch: Batch, said: seq<Message>,
                              mark: nat, events: seq<Event>)
    reads agent
  {
    && agent.Emits(events) && BatchDone(events, calls, dones)
    && batch == Batch(Results(dones), ShouldTerminate(Finals(dones)))
    && Idle(agent, said + batch.messages, mark)
  }

  /** From `start` on the agent has emitted `events`: the first calls of the batch, carried out one after the other. */
  ghost predicate Progress(agent: Agent, start: seq<Event>, events: seq<Event>, calls: seq<ToolCall>, dones: seq<Done>,
                           said: seq<Message>, mark: nat)
    reads agent
  {
    agent.trace == start + events && BatchDone(events, calls, dones) && Idle(agent, said + Results(dones), mark)
  }

  /** The result of a call that has just ended goes into the transcript. */
  method Report(agent: Agent, f: Finalized, ghost d: Done, ghost start: seq<Event>, ghost events: seq<Event>,
                ghost calls: seq<ToolCall>,
                ghost dones: seq<Done>, ghost said: seq<Message>, ghost mark: nat) returns (ghost events': seq<Event>)
    requires DistinctIds(calls) && |dones| < |calls| && d.final == f && f.call == calls[|dones|]
    requires agent.trace == start + events + CallEvents(d) && BatchDone(events, calls, dones)
    requires Idle(agent, said + Results(dones), mark)
    modifies agent
    ensures Progress(agent, start, events', calls, dones + [d], said, mark) && Undisturbed(agent)
  {
    var m := ResultMessage(f);
    EmitToolResultMessage(agent, m, said + Results(dones), mark);
    events' := events + CallEvents(d) + ResultEvents(m);
    CallSays(events, d);
    BatchNext(events, calls, dones, d, events', dones + [d]);
    ResultsNext(dones, d, said);
    Assoc(start, events, CallEvents(d));
    Assoc(start, events + CallEvents(d), ResultEvents(m));
  }

  /** One call and its result. */
  method ExecuteOne(agent: Agent, call: ToolCall, b: Behaviour, ghost start: seq<Event>, ghost events: seq<Event>,
                    ghost calls: seq<ToolCall>, ghost dones: seq<Done>, ghost said: seq<Message>, ghost mark: nat)
    returns (f: Finalized, ghost aborted: bool, ghost events': seq<Event>)
    requires DistinctIds(calls) && |dones| < |calls| && call == calls[|dones|]
             && Progress(agent, start, events, calls, dones, said, mark)
    modifies agent
    ensures Progress(agent, start, events', calls, dones + [DoneOf(call, b, aborted)], said, mark) && Undisturbed(agent)
    ensures f == DoneOf(call, b, aborted).final && (aborted ==> agent.aborted)
  {
    f, aborted := RunCall(agent, call, b, said + Results(dones), mark);
    events' := Report(agent, f, DoneOf(call, b, aborted), start, events, calls, dones, said, mark);
  }

  method ExecuteToolCallsSequential(agent: Agent, calls: seq<ToolCall>, tools: ToolCall -> Behaviour,
                                    ghost said: seq<Message>, ghost mark: nat)
    returns (batch: Batch, ghost dones: seq<Done>, ghost aborts: seq<bool>, ghost events: seq<Event>)
    requires Idle(agent, said, mark) && DistinctIds(calls)
    modifies agent
    ensures Executed(agent, calls, dones, batch, said, mark, events)
    ensures Carried(calls, tools, dones, aborts, agent.aborted)
  {
    var finalizedCalls: seq<Finalized>, messages: seq<Message>, k := [], [], 0;
    ghost var start := agent.trace;
    dones, aborts, events := [], [], [];
    BatchStart(calls);
    assert start + [] == start && said + [] == said;
    while k < |calls|
      invariant 0 <= k <= |calls| && k == |dones| && Undisturbed(agent)
      invariant Progress(agent, start, events, calls, dones, said, mark)
      invariant messages == Results(dones) && finalizedCalls == Finals(dones)
      invariant FirstCarried(calls, tools, dones, aborts, agent.aborted)
    {
      ghost var aborted, before := *, agent.aborted;
      var finalized;
      finalized, aborted, events :=
        ExecuteOne(agent, calls[k], tools(calls[k]), start, events, calls, dones, said, mark);
      ghost var d := DoneOf(calls[k], tools(calls[k]), aborted);
      CarriedNext(calls, tools, dones, aborts, before, d, aborted, agent.aborted);
      ResultsNext(dones, d, said);
      finalizedCalls, messages := finalizedCalls + [finalized], messages + [ResultMessage(finalized)];
      dones, aborts := dones + [d], aborts + [aborted];
      k := k + 1;
      if agent.aborted { break; }
    }
    return Batch(messages, ShouldTerminate(finalizedCalls)), dones, aborts, events;
  }

  // ----- calls of a truncated message

  function NotExecuted(call: ToolCall): Finalized { Failed(call, OutputTruncated(call.name)) }

  lemma {:induction false} NoneTerminates(calls: seq<ToolCall>, dones: seq<Done>)
    requires |dones| == |calls| && forall i | 0 <= i < |calls| :: dones[i] == Done(NotExecuted(calls[i]), [])
    ensures !ShouldTerminate(Finals(dones))
  {
    assert |dones| > 0 ==> Finals(dones)[0] == NotExecuted(calls[0]);
  }

  method FailToolCallsFromTruncatedMessage(agent: Agent, calls: seq<ToolCall>, ghost said: seq<Message>,
                                           ghost mark: nat)
    returns (batch: Batch, ghost dones: seq<Done>, ghost events: seq<Event>)
    requires Idle(agent, said, mark) && DistinctIds(calls)
    modifies agent
    ensures Executed(agent, calls, dones, batch, said, mark, events) && !batch.terminate
    ensures |dones| == |calls| && forall i | 0 <= i < |calls| :: dones[i] == Done(NotExecuted(calls[i]), [])
  {
    var messages: seq<Message>, k := [], 0;
    ghost var start := agent.trace;
    dones, events := [], [];
    BatchStart(calls);
    assert start + [] == start && said + [] == said;
    while k < |calls|
      invariant 0 <= k <= |calls| && k == |dones| && Undisturbed(agent)
      invariant Progress(agent, start, events, calls, dones, said, mark) && messages == Results(dones)
      invariant forall i | 0 <= i < k :: dones[i] == Done(NotExecuted(calls[i]), [])
    {
      var finalized := NotExecuted(calls[k]);
      ghost var d := Done(finalized, []);
      events := FailOne(agent, finalized, d, start, events, calls, dones, said, mark);
      ResultsNext(dones, d, said);
      messages, dones := messages + [ResultMessage(finalized)], dones + [d];
      k := k + 1;
    }
    NoneTerminates(calls, dones);
    return Batch(messages, false), dones, events;
  }

  method FailOne(agent: Agent, f: Finalized, ghost d: Done, ghost start: seq<Event>, ghost events: seq<Event>,
                 ghost calls: seq<ToolCall>,
                 ghost dones: seq<Done>, ghost said: seq<Message>, ghost mark: nat) returns (ghost events': seq<Event>)
    requires DistinctIds(calls) && |dones| < |calls| && d == Done(f, []) && f.call == calls[|dones|]
    requires Progress(agent, start, events, calls, dones, said, mark)
    modifies agent
    ensures Progress(agent, start, events', calls, dones + [d], said, mark) && Undisturbed(agent)
  {
    RunNothing(agent, f, d, said + Results(dones), mark);
    events' := Report(agent, f, d, start, events, calls, dones, said, mark);
  }

  method RunNothing(agent: Agent, f: Finalized, ghost d: Done, ghost said: seq<Message>, ghost mark: nat)
    requires Idle(agent, said, mark) && d == Done(f, [])
    modifies agent
    ensures agent.trace == old(agent.trace) + CallEvents(d) && Idle(agent, said, mark) && Undisturbed(agent)
  {
    CallTrace(agent.trace, f.call, d);
    agent.ProcessEvents(StartEvent(f.call));
    agent.ProcessEvents(EndEvent(f));
  }

  // ----- overlapping calls

  datatype Stage = Executing(sent: nat) | Settled(ignored: nat) | Finished

  /** A call of a parallel batch: how far it is, and whether the run was aborted when it was prepared. */
  datatype Entry = Entry(call: ToolCall, b: Behaviour, aborted: bool, stage: Stage)

  function DoneBy(e: Entry): Done { DoneOf(e.call, e.b, e.aborted) }

  predicate Possible(e: Entry) {
    && (!e.stage.Finished? ==> Immediate(e.call, e.b, e.aborted).None?)
    && (e.stage.Executing? ==> e.stage.sent <= |e.b.updates|)
    && (e.stage.Settled? ==> e.stage.ignored <= |e.b.late|)
  }

  /** What the call has said so far. */
  function EventsOf(e: Entry): seq<Event>
    requires Possible(e)
  {
    match e.stage
    case Executing(sent) => [StartEvent(e.call)] + Updates(e.call.id, e.b.updates[..sent])
    case Settled(_) => [StartEvent(e.call)] + Updates(e.call.id, e.b.updates)
    case Finished => CallEvents(DoneBy(e))
  }

  predicate Running(entries: seq<Entry>, i: int) { 0 <= i < |entries| && !entries[i].stage.Finished? }

  function OpenIds(entries: seq<Entry>): set<string> {
    set i | 0 <= i < |entries| && Running(entries, i) :: entries[i].call.id
  }

  /** The entry is that of the call, and its events are what was said about it. */
  ghost predicate Tracks(events: seq<Event>, call: ToolCall, e: Entry) {
    e.call == call && Possible(e) && Of(events, call.id) == EventsOf(e)
  }

  ghost predicate Overlapping(events: seq<Event>, calls: seq<ToolCall>, entries: seq<Entry>) {
    && Silent(events, calls, |entries|)
    && (forall i | 0 <= i < |entries| :: Tracks(events, calls[i], entries[i]))
    && ViewOf(events).said == []
  }

  lemma {:induction false} OpenNext(entries: seq<Entry>, e: Entry)
    ensures OpenIds(entries + [e]) == OpenIds(entries) + if e.stage.Finished? then {} else {e.call.id}
  {
    var more := entries + [e];
    forall id | id in OpenIds(entries) ensures id in OpenIds(more) {
      var i :| 0 <= i < |entries| && Running(entries, i) && entries[i].call.id == id;
      assert Running(more, i) && more[i] == entries[i];
    }
    if !e.stage.Finished? { assert Running(more, |entries|); }
    forall id | id in OpenIds(more) ensures id in OpenIds(entries) + if e.stage.Finished? then {} else {e.call.id} {
      var i :| 0 <= i < |more| && Running(more, i) && more[i].call.id == id;
      if i < |entries| { assert Running(entries, i); }
    }
  }

  lemma {:induction false} OpenUpdate(entries: seq<Entry>, i: nat, e: Entry)
    requires Running(entries, i) && e.call == entries[i].call
    requires forall j, k | 0 <= j < k < |entries| :: entries[j].call.id != entries[k].call.id
    ensures OpenIds(entries[i := e]) == if e.stage.Finished? then OpenIds(entries) - {e.call.id} else OpenIds(entries)
  {
    var after := entries[i := e];
    forall id | id in OpenIds(after) ensures id in OpenIds(entries) && (e.stage.Finished? ==> id != e.call.id) {
      var j :| 0 <= j < |after| && Running(after, j) && after[j].call.id == id;
      assert Running(entries, j);
    }
    forall id | id in OpenIds(entries) && !(e.stage.Finished? && id == e.call.id) ensures id in OpenIds(after) {
      var j :| 0 <= j < |entries| && Running(entries, j) && entries[j].call.id == id;
      assert Running(after, j);
    }
  }

  lemma {:induction false} OneSays(events: seq<Event>, e: Event, id: string)
    requires Concerns(e, id)
    ensures Says(events + [e], events, id, [e]) && ViewOf(events + [e]).said == ViewOf(events).said
  {
    Emitted(START, events, e);
    OfEmitted(events, e, id);
    forall other | other != id ensures Of(events + [e], other) == Of(events, other) {
      OfEmitted(events, e, other);
      assert Of(events, other) + [] == Of(events, other);
    }
  }

  lemma {:induction false} NothingSays(events: seq<Event>, id: string)
    ensures Says(events, events, id, [])
  {
    assert Of(events, id) + [] == Of(events, id);
  }

  /** What is said about one call leaves the others where they are. */
  lemma {:induction false} StillTracks(events: seq<Event>, all: seq<Event>, id: string, said: seq<Event>,
                                       call: ToolCall, e: Entry)
    requires Says(all, events, id, said) && Tracks(events, call, e) && call.id != id
    ensures Tracks(all, call, e)
  {
  }

  /** A running call gets on by what is said about it. */
  lemma {:induction false} OverlapStep(events: seq<Event>, calls: seq<ToolCall>, entries: seq<Entry>, i: nat, e: Entry,
                                       said: seq<Event>, all: seq<Event>, after: seq<Entry>)
    requires Overlapping(events, calls, entries) && DistinctIds(calls) && i < |entries| && e.call == calls[i]
             && Possible(e)
    requires Says(all, events, calls[i].id, said) && EventsOf(e) == EventsOf(entries[i]) + said
    requires ViewOf(all).said == ViewOf(events).said && after == entries[i := e]
    ensures Overlapping(all, calls, after)
  {
    forall j | 0 <= j < |after| ensures Tracks(all, calls[j], after[j]) {
      assert Tracks(events, calls[j], entries[j]);
      if j != i { StillTracks(events, all, calls[i].id, said, calls[j], entries[j]); }
    }
    forall id | NoneOf(calls, |after|, id) ensures Of(all, id) == [] {
      assert calls[i].id != id;
    }
  }

  lemma {:induction false} AllStillTracked(events: seq<Event>, calls: seq<ToolCall>, entries: seq<Entry>, n: nat,
                                           said: seq<Event>, all: seq<Event>)
    requires n == |entries| < |calls| && (forall j | 0 <= j < n :: Tracks(events, calls[j], entries[j]))
             && DistinctIds(calls)
    requires Says(all, events, calls[n].id, said)
    ensures forall j | 0 <= j < n :: Tracks(all, calls[j], entries[j])
  {
    forall j | 0 <= j < n ensures Tracks(all, calls[j], entries[j]) {
      assert calls[j].id != calls[n].id;
      StillTracks(events, all, calls[n].id, said, calls[j], entries[j]);
    }
  }

  lemma {:induction false} TrackedNext(all: seq<Event>, calls: seq<ToolCall>, entries: seq<Entry>, e: Entry,
                                       after: seq<Entry>)
    requires after == entries + [e] && |entries| < |calls| && Tracks(all, calls[|entries|], e)
    requires forall j | 0 <= j < |entries| :: Tracks(all, calls[j], entries[j])
    ensures forall j | 0 <= j < |after| :: Tracks(all, calls[j], after[j])
  {
  }

  /** One more call comes in. */
  lemma {:induction false} OverlapNext(events: seq<Event>, calls: seq<ToolCall>, entries: seq<Entry>, e: Entry,
                                       all: seq<Event>, after: seq<Entry>)
    requires Overlapping(events, calls, entries) && DistinctIds(calls) && |entries| < |calls|
             && e.call == calls[|entries|] && Possible(e)
    requires Says(all, events, e.call.id, EventsOf(e)) && ViewOf(all).said == ViewOf(events).said
             && after == entries + [e]
    ensures Overlapping(all, calls, after)
  {
    var n, said := |entries|, EventsOf(e);
    SilentNext(events, calls, n, said, all);
    AllStillTracked(events, calls, entries, n, said, all);
    TrackedNext(all, calls, entries, e, after);
  }

  /** How much the running calls may still do. */
  function Work(entries: seq<Entry>): nat {
    if entries == [] then 0
    else
      var e := entries[|entries| - 1];
      Work(entries[..|entries| - 1])
      + match e.stage
        case Executing(sent) => (if sent <= |e.b.updates| then |e.b.updates| - sent else 0) + |e.b.late| + 2
        case Settled(ignored) => (if ignored <= |e.b.late| then |e.b.late| - ignored else 0) + 1
        case Finished => 0
  }

  lemma {:induction false} WorkUpdate(entries: seq<Entry>, i: nat, e: Entry)
    requires i < |entries|
    ensures Work(entries[i := e]) == Work(entries) - Work([entries[i]]) + Work([e])
  {
    var n := |entries| - 1;
    if i == n {
      assert entries[i := e][..n] == entries[..n];
      assert [e][..0] == [] && [entries[i]][..0] == [];
    } else {
      assert entries[i := e][..n] == entries[..n][i := e];
      WorkUpdate(entries[..n], i, e);
    }
  }

  lemma {:induction false} NotYetOpen(calls: seq<ToolCall>, entries: seq<Entry>)
    requires |entries| < |calls| && DistinctIds(calls) && forall i | 0 <= i < |entries| :: entries[i].call == calls[i]
    ensures calls[|entries|].id !in OpenIds(entries)
  {
  }

  ghost predicate Among(agent: Agent, said: seq<Message>, mark: nat, open: set<string>)
    reads agent
  {
    agent.Reduced() && PhaseOf(agent.trace) == Some(InTurn(said, mark, open))
  }

  /** A call that has just been started. */
  function Started(call: ToolCall, b: Behaviour, aborted: bool): Entry {
    Entry(call, b, aborted, if Immediate(call, b, aborted).Some? then Finished else Executing(0))
  }

  lemma {:induction false} StartedSays(call: ToolCall, b: Behaviour, aborted: bool)
    ensures var e, immediate := Started(call, b, aborted), Immediate(call, b, aborted);
            Possible(e)
              && EventsOf(e) == [StartEvent(call)] + if immediate.Some? then [EndEvent(immediate.value)] else []
  {
    var e, immediate := Started(call, b, aborted), Immediate(call, b, aborted);
    if immediate.Some? {
      CallTrace([], call, DoneBy(e));
      assert [] + [StartEvent(call)] == [StartEvent(call)] && [] + CallEvents(DoneBy(e)) == CallEvents(DoneBy(e));
    }
  }

  /** A call is started and prepared; if there is nothing to execute it ends at once. */
  method StartCall(agent: Agent, call: ToolCall, b: Behaviour, ghost said: seq<Message>, ghost mark: nat,
                   ghost open: set<string>)
    returns (entry: Entry, ghost step: seq<Event>)
    requires Among(agent, said, mark, open) && call.id !in open
    modifies agent
    ensures entry.call == call && entry.b == b && (entry.aborted ==> agent.aborted) && Possible(entry)
    ensures agent.trace == old(agent.trace) + step && step == EventsOf(entry) && Undisturbed(agent)
    ensures Among(agent, said, mark, open + if entry.stage.Finished? then {} else {call.id})
    ensures !entry.stage.Finished? ==> entry.stage == Executing(0)
  {
    agent.ProcessEvents(StartEvent(call));
    agent.Await();
    entry := Started(call, b, agent.aborted);
    StartedSays(call, b, agent.aborted);
    var immediate := Immediate(call, b, agent.aborted);
    if immediate.Some? {
      EndAtOnce(agent, immediate.value, said, mark, open);
      assert open == open + {};
    }
    step := EventsOf(entry);
    agent.Await(); // for the listeners of the end, or for the rest of the preparation
  }

  method EndAtOnce(agent: Agent, f: Finalized, ghost said: seq<Message>, ghost mark: nat, ghost open: set<string>)
    requires Among(agent, said, mark, open + {f.call.id}) && f.call.id !in open
    modifies agent
    ensures agent.Emits([EndEvent(f)]) && Among(agent, said, mark, open)
  {
    agent.ProcessEvents(EndEvent(f));
    assert open + {f.call.id} - {f.call.id} == open;
  }

  lemma {:induction false} OfStart(call: ToolCall, id: string)
    ensures Of([StartEvent(call)], id) == (if id == call.id then [StartEvent(call)] else [])
            && ViewOf([StartEvent(call)]).said == []
  {
    assert [] + [StartEvent(call)] == [StartEvent(call)];
    OfEmitted([], StartEvent(call), id);
    Emitted(START, [], StartEvent(call));
  }

  lemma {:induction false} EventsConcern(e: Entry, id: string)
    requires Possible(e) && (e.stage.Finished? || e.stage == Executing(0))
    ensures Of(EventsOf(e), id) == (if id == e.call.id then EventsOf(e) else []) && ViewOf(EventsOf(e)).said == []
  {
    if e.stage.Finished? {
      OfCall(DoneBy(e), id);
    } else {
      OfStart(e.call, id);
      assert EventsOf(e) == [StartEvent(e.call)];
    }
  }

  lemma {:induction false} JoinSays(events: seq<Event>, e: Entry, step: seq<Event>)
    requires Possible(e) && (e.stage.Finished? || e.stage == Executing(0)) && step == EventsOf(e)
    ensures Says(events + step, events, e.call.id, step) && ViewOf(events + step).said == ViewOf(events).said
  {
    OfConcat(events, step, e.call.id);
    EventsConcern(e, e.call.id);
    forall id | id != e.call.id ensures Of(events + step, id) == Of(events, id) {
      OfConcat(events, step, id);
      EventsConcern(e, id);
    }
    SaidConcat(events, step);
  }

  lemma {:induction false} Joins(events: seq<Event>, calls: seq<ToolCall>, entries: seq<Entry>, e: Entry,
                                 step: seq<Event>, all: seq<Event>, after: seq<Entry>)
    requires Overlapping(events, calls, entries) && DistinctIds(calls) && |entries| < |calls|
             && e.call == calls[|entries|] && Possible(e)
    requires (e.stage.Finished? || e.stage == Executing(0)) && step == EventsOf(e) && all == events + step
             && after == entries + [e]
    ensures Overlapping(all, calls, after)
    ensures OpenIds(after) == OpenIds(entries) + if e.stage.Finished? then {} else {e.call.id}
  {
    JoinSays(events, e, step);
    OverlapNext(events, calls, entries, e, all, after);
    OpenNext(entries, e);
  }

  /** What a running call does next: an update, settling, a late update that is ignored, or its end. */
  function Next(e: Entry): Entry {
    match e.stage
    case Executing(sent) => e.(stage := if sent < |e.b.updates| then Executing(sent + 1) else Settled(0))
    case Settled(ignored) => e.(stage := if ignored < |e.b.late| then Settled(ignored + 1) else Finished)
    case Finished => e
  }

  /** What it says with that. */
  function SaidNext(e: Entry): seq<Event> {
    match e.stage
    case Executing(sent) => if sent < |e.b.updates| then [ToolUpdate(e.call.id, e.b.updates[sent])] else []
    case Settled(ignored) => if ignored < |e.b.late| then [] else [EndEvent(FinalizeExecuted(e.call, e.b))]
    case Finished => []
  }

  lemma {:induction false} UpdatesNext(before: seq<Event>, id: string, updates: seq<string>, sent: nat)
    requires sent <= |updates|
    ensures sent < |updates| ==>
              before + Updates(id, updates[..sent + 1])
                == before + Updates(id, updates[..sent]) + [ToolUpdate(id, updates[sent])]
    ensures sent == |updates| ==> updates[..sent] == updates
  {
    if sent < |updates| {
      assert updates[..sent + 1][..sent] == updates[..sent];
      Assoc(before, Updates(id, updates[..sent]), [ToolUpdate(id, updates[sent])]);
    }
  }

  lemma {:induction false} NextSays(e: Entry)
    requires Possible(e) && !e.stage.Finished?
    ensures Possible(Next(e)) && EventsOf(Next(e)) == EventsOf(e) + SaidNext(e)
  {
    assert EventsOf(e) + [] == EventsOf(e);
    if e.stage.Executing? {
      UpdatesNext([StartEvent(e.call)], e.call.id, e.b.updates, e.stage.sent);
    }
  }

  lemma {:induction false} NextConcerns(e: Entry)
    requires Possible(e) && !e.stage.Finished?
    ensures |SaidNext(e)| <= 1 && forall ev | ev in SaidNext(e) :: Concerns(ev, e.call.id)
  {
  }

  lemma {:induction false} NextIsLessWork(e: Entry)
    requires Possible(e) && !e.stage.Finished?
    ensures Work([Next(e)]) < Work([e])
  {
    assert [e][..0] == [] && [Next(e)][..0] == [];
  }

  /** One step of a running call, and what is said with it. */
  method StepCall(agent: Agent, e: Entry, ghost said: seq<Message>, ghost mark: nat, ghost open: set<string>)
    returns (next: Entry)
    requires Among(agent, said, mark, open) && e.call.id in open && Possible(e) && !e.stage.Finished?
    modifies agent
    ensures next == Next(e)
    ensures agent.trace == old(agent.trace) + SaidNext(e) && Undisturbed(agent)
    ensures Among(agent, said, mark, if next.stage.Finished? then open - {e.call.id} else open)
  {
    agent.Await();
    assert agent.trace + [] == agent.trace;
    match e.stage {
      case Executing(sent) =>
        if sent < |e.b.updates| {
          OnUpdate(agent, e.call, true, e.b.updates[sent]);
          next := e.(stage := Executing(sent + 1));
        } else {
          next := e.(stage := Settled(0));
        }
      case Settled(ignored) =>
        if ignored < |e.b.late| {
          OnUpdate(agent, e.call, false, e.b.late[ignored]);
          next := e.(stage := Settled(ignored + 1));
        } else {
          agent.ProcessEvents(EndEvent(FinalizeExecuted(e.call, e.b)));
          next := e.(stage := Finished);
        }
    }
  }

  lemma {:induction false} StepSays(events: seq<Event>, step: seq<Event>, id: string)
    requires |step| <= 1 && forall e | e in step :: Concerns(e, id)
    ensures Says(events + step, events, id, step) && ViewOf(events + step).said == ViewOf(events).said
  {
    if step == [] {
      NothingSays(events, id);
      assert events + step == events;
    } else {
      OneSays(events, step[0], id);
      assert step == [step[0]];
    }
  }

  lemma {:induction false} Advances(events: seq<Event>, calls: seq<ToolCall>, entries: seq<Entry>, i: nat, next: Entry,
                                    step: seq<Event>)
    requires Overlapping(events, calls, entries) && DistinctIds(calls) && Running(entries, i) && next.call == calls[i]
             && Possible(next)
    requires |step| <= 1 && (forall ev | ev in step :: Concerns(ev, calls[i].id))
             && EventsOf(next) == EventsOf(entries[i]) + step
    ensures Overlapping(events + step, calls, entries[i := next])
    ensures OpenIds(entries[i := next])
            == if next.stage.Finished? then OpenIds(entries) - {calls[i].id} else OpenIds(entries)
  {
    StepSays(events, step, calls[i].id);
    OverlapStep(events, calls, entries, i, next, step, events + step, entries[i := next]);
    OpenUpdate(entries, i, next);
  }

  lemma {:induction false} OneAdvances(events: seq<Event>, calls: seq<ToolCall>, entries: seq<Entry>, i: nat,
                                       next: Entry, step: seq<Event>, all: seq<Event>)
    requires Overlapping(events, calls, entries) && DistinctIds(calls) && Running(entries, i)
    requires next == Next(entries[i]) && step == SaidNext(entries[i]) && all == events + step
    ensures Overlapping(all, calls, entries[i := next]) && next.call == entries[i].call
            && Work(entries[i := next]) < Work(entries)
    ensures OpenIds(entries[i := next])
            == if next.stage.Finished? then OpenIds(entries) - {next.call.id} else OpenIds(entries)
  {
    NextSays(entries[i]);
    NextConcerns(entries[i]);
    NextIsLessWork(entries[i]);
    Advances(events, calls, entries, i, next, step);
    WorkUpdate(entries, i, next);
  }

  /** From `start` on the agent has emitted what these entries have said. */
  ghost predicate Overlaps(agent: Agent, start: seq<Event>, events: seq<Event>, calls: seq<ToolCall>,
                           entries: seq<Entry>, said: seq<Message>, mark: nat)
    reads agent
  {
    agent.trace == start + events && Overlapping(events, calls, entries) && Among(agent, said, mark, OpenIds(entries))
  }

  /** Which calls there are, and how they were prepared, is settled once they have started. */
  predicate SameCalls(entries: seq<Entry>, calls: seq<ToolCall>, tools: ToolCall -> Behaviour, aborts: seq<bool>) {
    && |entries| == |aborts| <= |calls|
    && forall i | 0 <= i < |entries| ::
         entries[i].call == calls[i] && entries[i].b == tools(calls[i]) && entries[i].aborted == aborts[i]
  }

  lemma {:induction false} SameCallsNext(entries: seq<Entry>, calls: seq<ToolCall>, tools: ToolCall -> Behaviour,
                                         aborts: seq<bool>, e: Entry)
    requires SameCalls(entries, calls, tools, aborts) && |entries| < |calls|
    requires e.call == calls[|entries|] && e.b == tools(e.call)
    ensures SameCalls(entries + [e], calls, tools, aborts + [e.aborted])
  {
  }

  lemma {:induction false} SameCallsUpdate(entries: seq<Entry>, calls: seq<ToolCall>, tools: ToolCall -> Behaviour,
                                           aborts: seq<bool>, i: nat, e: Entry)
    requires SameCalls(entries, calls, tools, aborts) && i < |entries|
    requires e.call == entries[i].call && e.b == entries[i].b && e.aborted == entries[i].aborted
    ensures SameCalls(entries[i := e], calls, tools, aborts)
  {
  }

  /** The next call joins those that are going on. */
  method StartNext(agent: Agent, call: ToolCall, b: Behaviour, ghost entries: seq<Entry>, ghost start: seq<Event>,
                   ghost events: seq<Event>, ghost calls: seq<ToolCall>, ghost said: seq<Message>, ghost mark: nat)
    returns (entry: Entry, ghost events': seq<Event>)
    requires DistinctIds(calls) && |entries| < |calls| && call == calls[|entries|]
    requires Overlaps(agent, start, events, calls, entries, said, mark)
    modifies agent
    ensures Overlaps(agent, start, events', calls, entries + [entry], said, mark) && Undisturbed(agent)
    ensures entry.call == call && entry.b == b && (entry.aborted ==> agent.aborted)
  {
    NotYetOpen(calls, entries);
    ghost var step;
    entry, step := StartCall(agent, call, b, said, mark, OpenIds(entries));
    events' := events + step;
    Joins(events, calls, entries, entry, step, events', entries + [entry]);
    Assoc(start, events, step);
  }

  method StartCalls(agent: Agent, calls: seq<ToolCall>, tools: ToolCall -> Behaviour, ghost said: seq<Message>,
                    ghost mark: nat)
    returns (entries: seq<Entry>, ghost aborts: seq<bool>, ghost events: seq<Event>)
    requires Idle(agent, said, mark) && DistinctIds(calls)
    modifies agent
    ensures Overlaps(agent, old(agent.trace), events, calls, entries, said, mark) && Undisturbed(agent)
    ensures SameCalls(entries, calls, tools, aborts) && (forall i | 0 <= i < |aborts| && aborts[i] :: agent.aborted)
    ensures |entries| == |calls| || agent.aborted
  {
    var k := 0;
    ghost var start := agent.trace;
    entries, aborts, events := [], [], [];
    assert start + [] == start && OpenIds([]) == {};
    while k < |calls|
      invariant 0 <= k <= |calls| && k == |entries|
      invariant Overlaps(agent, start, events, calls, entries, said, mark) && Undisturbed(agent)
      invariant SameCalls(entries, calls, tools, aborts) && forall i | 0 <= i < |aborts| && aborts[i] :: agent.aborted
    {
      var entry;
      entry, events := StartNext(agent, calls[k], tools(calls[k]), entries, start, events, calls, said, mark);
      SameCallsNext(entries, calls, tools, aborts, entry);
      entries, aborts := entries + [entry], aborts + [entry.aborted];
      k := k + 1;
      if agent.aborted { break; }
    }
  }

  lemma {:induction false} IsOpen(entries: seq<Entry>, i: nat)
    requires Running(entries, i)
    ensures entries[i].call.id in OpenIds(entries)
  {
  }

  lemma {:induction false} NoneOpen(entries: seq<Entry>)
    requires forall i | 0 <= i < |entries| :: entries[i].stage.Finished?
    ensures OpenIds(entries) == {}
  {
  }

  /** One of the running calls gets on. */
  method Advance(agent: Agent, entries: seq<Entry>, i: nat, ghost start: seq<Event>, ghost events: seq<Event>,
                 ghost calls: seq<ToolCall>, ghost said: seq<Message>, ghost mark: nat)
    returns (next: Entry, ghost events': seq<Event>)
    requires DistinctIds(calls) && Running(entries, i) && Overlaps(agent, start, events, calls, entries, said, mark)
    modifies agent
    ensures Overlaps(agent, start, events', calls, entries[i := next], said, mark) && Undisturbed(agent)
    ensures next.call == entries[i].call && next.b == entries[i].b && next.aborted == entries[i].aborted
    ensures Work(entries[i := next]) < Work(entries)
  {
    IsOpen(entries, i);
    ghost var step := SaidNext(entries[i]);
    events' := events + step;
    OneAdvances(events, calls, entries, i, Next(entries[i]), step, events');
    Assoc(start, events, step);
    next := StepCall(agent, entries[i], said, mark, OpenIds(entries));
  }

  /** All started calls run at once: at every step any of them may be the one to get on. */
  method RunCalls(agent: Agent, started: seq<Entry>, ghost calls: seq<ToolCall>, ghost tools: ToolCall -> Behaviour,
                  ghost start: seq<Event>,
                  ghost before: seq<Event>, ghost aborts: seq<bool>, ghost said: seq<Message>, ghost mark: nat)
    returns (entries: seq<Entry>, ghost events: seq<Event>)
    requires DistinctIds(calls) && SameCalls(started, calls, tools, aborts)
    requires Overlaps(agent, start, before, calls, started, said, mark)
    modifies agent
    ensures Overlaps(agent, start, events, calls, entries, said, mark) && Undisturbed(agent)
    ensures SameCalls(entries, calls, tools, aborts) && forall i | 0 <= i < |entries| :: entries[i].stage.Finished?
  {
    entries, events := started, before;
    while exists i | 0 <= i < |entries| :: !entries[i].stage.Finished?
      invariant Overlaps(agent, start, events, calls, entries, said, mark) && Undisturbed(agent)
      invariant SameCalls(entries, calls, tools, aborts)
      decreases Work(entries)
    {
      var i :| 0 <= i < |entries| && !entries[i].stage.Finished?;
      var next;
      next, events := Advance(agent, entries, i, start, events, calls, said, mark);
      SameCallsUpdate(entries, calls, tools, aborts, i, next);
      entries := entries[i := next];
    }
  }

  function Dones(entries: seq<Entry>): seq<Done> {
    seq(|entries|, i requires 0 <= i < |entries| => DoneBy(entries[i]))
  }

  /** All calls have ended; the results of the first k are told. */
  ghost predicate Told(events: seq<Event>, calls: seq<ToolCall>, dones: seq<Done>, k: nat) {
    && k <= |dones| && Silent(events, calls, |dones|)
    && (forall i | 0 <= i < |dones| ::
        dones[i].final.call == calls[i] && Of(events, calls[i].id) == CallEvents(dones[i]))
    && ViewOf(events).said == Results(dones[..k])
  }

  lemma {:induction false} AllEnded(events: seq<Event>, calls: seq<ToolCall>, entries: seq<Entry>)
    requires Overlapping(events, calls, entries) && forall i | 0 <= i < |entries| :: entries[i].stage.Finished?
    ensures Told(events, calls, Dones(entries), 0)
  {
    var dones := Dones(entries);
    assert Results(dones[..0]) == [];
    forall i | 0 <= i < |dones|
      ensures dones[i].final.call == calls[i] && Of(events, calls[i].id) == CallEvents(dones[i])
    {
      assert dones[i] == DoneBy(entries[i]) && Tracks(events, calls[i], entries[i]);
    }
  }

  lemma {:induction false} TellNext(events: seq<Event>, calls: seq<ToolCall>, dones: seq<Done>, k: nat, all: seq<Event>)
    requires Told(events, calls, dones, k) && k < |dones| && all == events + ResultEvents(ResultMessage(dones[k].final))
    ensures Told(all, calls, dones, k + 1)
  {
    var m := ResultMessage(dones[k].final);
    forall id ensures Of(all, id) == Of(events, id) {
      OfConcat(events, ResultEvents(m), id);
      OfResult(m, id);
      assert Of(events, id) + [] == Of(events, id);
    }
    SaidConcat(events, ResultEvents(m));
    OfResult(m, "");
    assert dones[..k + 1] == dones[..k] + [dones[k]];
    ResultsNext(dones[..k], dones[k], []);
  }

  lemma {:induction false} ResultsUpTo(dones: seq<Done>, k: nat)
    requires k < |dones|
    ensures Results(dones[..k + 1]) == Results(dones[..k]) + [ResultMessage(dones[k].final)]
  {
    assert dones[..k + 1][..k] == dones[..k];
  }

  lemma {:induction false} AllTold(events: seq<Event>, calls: seq<ToolCall>, dones: seq<Done>, k: nat)
    requires Told(events, calls, dones, k) && k == |dones|
    ensures BatchDone(events, calls, dones) && dones[..k] == dones
  {
    assert dones[..k] == dones;
  }

  ghost predicate Telling(agent: Agent, start: seq<Event>, events: seq<Event>, calls: seq<ToolCall>, dones: seq<Done>,
                          k: nat, said: seq<Message>, mark: nat)
    reads agent
  {
    agent.trace == start + events && Told(events, calls, dones, k) && Idle(agent, said + Results(dones[..k]), mark)
  }

  method Tell(agent: Agent, f: Finalized, ghost start: seq<Event>, ghost events: seq<Event>, ghost calls: seq<ToolCall>,
              ghost dones: seq<Done>, ghost k: nat, ghost said: seq<Message>,
                  ghost mark: nat) returns (ghost events': seq<Event>)
    requires Telling(agent, start, events, calls, dones, k, said, mark) && k < |dones| && f == dones[k].final
    modifies agent
    ensures Telling(agent, start, events', calls, dones, k + 1, said, mark) && Undisturbed(agent)
  {
    var m := ResultMessage(f);
    EmitToolResultMessage(agent, m, said + Results(dones[..k]), mark);
    events' := events + ResultEvents(m);
    TellNext(events, calls, dones, k, events');
    ResultsUpTo(dones, k);
    Assoc(said, Results(dones[..k]), [m]);
    Assoc(start, events, ResultEvents(m));
  }

  /** The results are told in the order of the calls, whatever order the calls ended in. */
  method TellResults(agent: Agent, finals: seq<Finalized>, ghost start: seq<Event>, ghost before: seq<Event>,
                     ghost calls: seq<ToolCall>, ghost dones: seq<Done>, ghost said: seq<Message>, ghost mark: nat)
    returns (messages: seq<Message>, ghost events: seq<Event>)
    requires Telling(agent, start, before, calls, dones, 0, said, mark) && finals == Finals(dones)
    modifies agent
    ensures agent.trace == start + events && BatchDone(events, calls, dones) && Idle(agent, said + Results(dones), mark)
    ensures messages == Results(dones) && Undisturbed(agent)
  {
    var k := 0;
    messages, events := [], before;
    while k < |finals|
      invariant 0 <= k <= |finals| && Undisturbed(agent)
      invariant Telling(agent, start, events, calls, dones, k, said, mark) && messages == Results(dones[..k])
    {
      events := Tell(agent, finals[k], start, events, calls, dones, k, said, mark);
      ResultsUpTo(dones, k);
      messages := messages + [ResultMessage(finals[k])];
      k := k + 1;
    }
    AllTold(events, calls, dones, k);
  }

  method ExecuteToolCallsParallel(agent: Agent, calls: seq<ToolCall>, tools: ToolCall -> Behaviour,
                                  ghost said: seq<Message>, ghost mark: nat)
    returns (batch: Batch, ghost dones: seq<Done>, ghost aborts: seq<bool>, ghost events: seq<Event>)
    requires Idle(agent, said, mark) && DistinctIds(calls)
    modifies agent
    ensures Executed(agent, calls, dones, batch, said, mark, events)
    ensures Carried(calls, tools, dones, aborts, agent.aborted)
  {
    ghost var start := agent.trace;
    var entries;
    entries, aborts, events := StartCalls(agent, calls, tools, said, mark);
    entries, events := RunCalls(agent, entries, calls, tools, start, events, aborts, said, mark);
    NoneOpen(entries);
    AllEnded(events, calls, entries);
    dones := Dones(entries);
    assert said + Results(dones[..0]) == said;
    var ordered := seq(|entries|, i requires 0 <= i < |entries| => DoneBy(entries[i]).final);
    assert ordered == Finals(dones);
    var messages;
    messages, events := TellResults(agent, ordered, start, events, calls, dones, said, mark);
    return Batch(messages, ShouldTerminate(ordered)), dones, aborts, events;
  }

  /** executeToolCalls. */
  method ExecuteToolCalls(agent: Agent, calls: seq<ToolCall>, tools: ToolCall -> Behaviour, sequential: bool,
                          ghost said: seq<Message>, ghost mark: nat)
    returns (batch: Batch, ghost dones: seq<Done>, ghost aborts: seq<bool>, ghost events: seq<Event>)
    requires Idle(agent, said, mark) && DistinctIds(calls)
    modifies agent
    ensures Executed(agent, calls, dones, batch, said, mark, events)
    ensures Carried(calls, tools, dones, aborts, agent.aborted)
  {
    var hasSequentialToolCall := exists i | 0 <= i < |calls| :: tools(calls[i]).found && tools(calls[i]).sequential;
    if sequential || hasSequentialToolCall {
      batch, dones, aborts, events := ExecuteToolCallsSequential(agent, calls, tools, said, mark);
    } else {
      batch, dones, aborts, events := ExecuteToolCallsParallel(agent, calls, tools, said, mark);
    }
  }
}
