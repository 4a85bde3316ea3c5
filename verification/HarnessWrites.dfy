/** Session writes that are put off while a run is on: packages/agent/src/harness/agent-harness.ts. */
module HarnessWrites {
  import opened Common

  datatype Write =
    | MessageWrite(text: string)
    | ModelChange(provider: string, modelId: string)
    | ThinkingLevelChange(level: string)
    | ActiveToolsChange(names: seq<string>)

  datatype Phase = Idle | Turn | Compaction | BranchSummary

  /** What is in the session, and how it came there: from a turn, through the queue, or directly while idle. */
  datatype Entry =
    | FromTurn(write: Write, turn: Option<nat>)
    | FromQueue(write: Write, during: Option<nat>, ticket: nat)
    | Direct(write: Write, ticket: nat)

  function WrittenUpTo(log: seq<Entry>, n: nat): seq<Write>
    requires n <= |log|
  {
    if n == 0 then [] else WrittenUpTo(log, n - 1) + [log[n - 1].write]
  }

  function Written(log: seq<Entry>): seq<Write> { WrittenUpTo(log, |log|) }

  function QueuedUpTo(log: seq<Entry>, n: nat): seq<Write>
    requires n <= |log|
  {
    if n == 0 then [] else QueuedUpTo(log, n - 1) + if log[n - 1].FromQueue? then [log[n - 1].write] else []
  }

  /** The queued writes that have been persisted. */
  function Queued(log: seq<Entry>): seq<Write> { QueuedUpTo(log, |log|) }

  function SpokenUpTo(log: seq<Entry>, n: nat): seq<Write>
    requires n <= |log|
  {
    if n == 0 then [] else SpokenUpTo(log, n - 1) + if log[n - 1].FromTurn? then [log[n - 1].write] else []
  }

  /** The messages that turns have put into the session. */
  function Spoken(log: seq<Entry>): seq<Write> { SpokenUpTo(log, |log|) }

  lemma {:induction false} LoggedUpTo(log: seq<Entry>, e: Entry, n: nat)
    requires n <= |log|
    ensures WrittenUpTo(log + [e], n) == WrittenUpTo(log, n) && QueuedUpTo(log + [e], n) == QueuedUpTo(log, n)
    ensures SpokenUpTo(log + [e], n) == SpokenUpTo(log, n)
  {
    if n > 0 { LoggedUpTo(log, e, n - 1); }
  }

  lemma {:induction false} Logged(log: seq<Entry>, e: Entry)
    ensures Written(log + [e]) == Written(log) + [e.write]
    ensures Queued(log + [e]) == Queued(log) + if e.FromQueue? then [e.write] else []
    ensures Spoken(log + [e]) == Spoken(log) + if e.FromTurn? then [e.write] else []
  {
    LoggedUpTo(log, e, |log|);
  }

  /** No message of a turn comes after a write that was queued during that turn. */
  ghost predicate WritesFollowTurns(log: seq<Entry>) {
    forall i, j | 0 <= i < j < |log| && log[i].FromQueue? && log[j].FromTurn? ::
        log[i].during == None || log[i].during != log[j].turn
  }

  /** No write that was queued during this turn has been persisted. */
  ghost predicate HeldBack(log: seq<Entry>, turn: nat) {
    forall i | 0 <= i < |log| && log[i].FromQueue? :: log[i].during != Some(turn)
  }

  lemma {:induction false} AppendKeepsOrder(log: seq<Entry>, e: Entry)
    requires WritesFollowTurns(log) && (e.FromTurn? && e.turn.Some? ==> HeldBack(log, e.turn.value))
    ensures WritesFollowTurns(log + [e])
  {
    var more := log + [e];
    forall i, j | 0 <= i < j < |more| && more[i].FromQueue? && more[j].FromTurn?
      ensures more[i].during == None || more[i].during != more[j].turn
    {
      assert more[i] == log[i];
      if j < |log| { assert more[j] == log[j]; }
    }
  }

  // ----- the order of all writes that setters issue, queued or not

  /** A setter's write with the number under which it was issued. */
  datatype Issue = Issue(ticket: nat, write: Write)

  function IssuesUpTo(log: seq<Entry>, n: nat): seq<Issue>
    requires n <= |log|
  {
    if n == 0 then []
    else IssuesUpTo(log, n - 1) + if log[n - 1].FromTurn? then [] else [Issue(log[n - 1].ticket, log[n - 1].write)]
  }

  /** The setters' writes that are in the session. */
  function Issues(log: seq<Entry>): seq<Issue> { IssuesUpTo(log, |log|) }

  lemma {:induction false} IssuesUpToKept(log: seq<Entry>, e: Entry, n: nat)
    requires n <= |log|
    ensures IssuesUpTo(log + [e], n) == IssuesUpTo(log, n)
  {
    if n > 0 { IssuesUpToKept(log, e, n - 1); }
  }

  lemma {:induction false} IssueLogged(log: seq<Entry>, e: Entry)
    ensures Issues(log + [e]) == Issues(log) + if e.FromTurn? then [] else [Issue(e.ticket, e.write)]
  {
    IssuesUpToKept(log, e, |log|);
  }

  ghost predicate InIssueOrder(all: seq<Issue>) {
    forall i, j | 0 <= i < j < |all| :: all[i].ticket < all[j].ticket
  }

  /** Each write that was issued is there under its number, once. */
  ghost predicate Accounted(all: seq<Issue>, setters: seq<Write>) {
    && |all| == |setters|
    && (forall i | 0 <= i < |all| :: all[i].ticket < |setters| && all[i].write == setters[all[i].ticket])
    && (forall i, j | 0 <= i < j < |all| :: all[i].ticket != all[j].ticket)
  }

  /**
   * The writes in the session and behind them those still queued are all that setters ever issued, in the order of
   * issue if and only if none overtook another.
   */
  ghost predicate Ordered(log: seq<Entry>, queue: seq<Issue>, setters: seq<Write>, overtook: bool) {
    && Accounted(Issues(log) + queue, setters)
    && (InIssueOrder(Issues(log) + queue) <==> !overtook)
  }

  /** One more write, wherever it comes to lie, is in order there exactly if it lies last. */
  lemma {:induction false} IssueNext(before: seq<Issue>, after: seq<Issue>, setters: seq<Write>, w: Write,
                                     all: seq<Issue>, more: seq<Issue>)
    requires all == before + after && more == before + [Issue(|setters|, w)] + after && Accounted(all, setters)
    ensures Accounted(more, setters + [w])
    ensures InIssueOrder(more) <==> InIssueOrder(all) && after == []
  {
    var n := |before|;
    forall i | 0 <= i < |more| && i != n
      ensures more[i] == all[if i < n then i else i - 1] && more[i].write == (setters + [w])[more[i].ticket]
    {
    }
    if after != [] {
      assert more[n + 1] == after[0] && more[n].ticket > more[n + 1].ticket;
    } else if InIssueOrder(more) {
      forall i, j | 0 <= i < j < |all| ensures all[i].ticket < all[j].ticket {
        assert all[i] == more[if i < n then i else i + 1] && all[j] == more[if j < n then j else j + 1];
      }
    }
  }

  lemma {:induction false} IssueQueued(log: seq<Entry>, queue: seq<Issue>, setters: seq<Write>, overtook: bool,
                                       w: Write)
    requires Ordered(log, queue, setters, overtook)
    ensures Ordered(log, queue + [Issue(|setters|, w)], setters + [w], overtook)
  {
    var all := Issues(log) + queue;
    assert all + [Issue(|setters|, w)] + [] == Issues(log) + (queue + [Issue(|setters|, w)]) && all + [] == all;
    IssueNext(all, [], setters, w, all, Issues(log) + (queue + [Issue(|setters|, w)]));
  }

  /** A write that goes to the session directly overtakes all that are queued. */
  lemma {:induction false} IssueDirect(log: seq<Entry>, queue: seq<Issue>, setters: seq<Write>, overtook: bool,
                                       w: Write)
    requires Ordered(log, queue, setters, overtook)
    ensures Ordered(log + [Direct(w, |setters|)], queue, setters + [w], overtook || queue != [])
  {
    IssueLogged(log, Direct(w, |setters|));
    IssueNext(Issues(log), queue, setters, w, Issues(log) + queue, Issues(log) + [Issue(|setters|, w)] + queue);
  }

  lemma {:induction false} IssueOfTurn(log: seq<Entry>, queue: seq<Issue>, setters: seq<Write>, overtook: bool,
                                       e: Entry)
    requires Ordered(log, queue, setters, overtook) && e.FromTurn?
    ensures Ordered(log + [e], queue, setters, overtook)
  {
    IssueLogged(log, e);
    assert Issues(log) + [] == Issues(log);
  }

  lemma {:induction false} IssuePersisted(log: seq<Entry>, queue: seq<Issue>, setters: seq<Write>, overtook: bool,
                                          during: Option<nat>)
    requires Ordered(log, queue, setters, overtook) && queue != []
    ensures Ordered(log + [FromQueue(queue[0].write, during, queue[0].ticket)], queue[1..], setters, overtook)
  {
    IssueLogged(log, FromQueue(queue[0].write, during, queue[0].ticket));
    assert queue == [queue[0]] + queue[1..];
    assert Issues(log) + [queue[0]] + queue[1..] == Issues(log) + queue;
  }

  lemma {:induction false} TicketAt(all: seq<Issue>, setters: seq<Write>, k: nat)
    requires Accounted(all, setters) && InIssueOrder(all) && k < |all|
    ensures all[k].ticket >= k
  {
    if k > 0 { TicketAt(all, setters, k - 1); }
  }

  lemma {:induction false} TicketAtMost(all: seq<Issue>, setters: seq<Write>, k: nat)
    requires Accounted(all, setters) && InIssueOrder(all) && k < |all|
    ensures all[k].ticket <= k
    decreases |all| - k
  {
    if k + 1 < |all| { TicketAtMost(all, setters, k + 1); }
  }

  /** In order means that session and queue hold exactly what was issued, one after the other. */
  lemma {:induction false} OrderIsIssueOrder(log: seq<Entry>, queue: seq<Issue>, setters: seq<Write>, overtook: bool)
    requires Ordered(log, queue, setters, overtook) && !overtook
    ensures |Issues(log) + queue| == |setters|
    ensures forall k | 0 <= k < |setters| :: (Issues(log) + queue)[k] == Issue(k, setters[k])
  {
    forall k | 0 <= k < |setters| ensures (Issues(log) + queue)[k] == Issue(k, setters[k]) {
      TicketAt(Issues(log) + queue, setters, k);
      TicketAtMost(Issues(log) + queue, setters, k);
    }
  }

  // ----- the harness

  /** What the loop does to the harness, in order. */
  datatype Step = TurnStart | MessageEnd(text: string) | TurnEnd | PrepareNextTurn | AgentEnd | OtherEvent

  /** Turns are bracketed; the harness is asked to prepare and told of the end only between them. */
  predicate Grammatical(steps: seq<Step>, inTurn: bool) {
    steps == []
    || match steps[0]
       case TurnStart => !inTurn && Grammatical(steps[1..], true)
       case MessageEnd(_) => inTurn && Grammatical(steps[1..], true)
       case TurnEnd => inTurn && Grammatical(steps[1..], false)
       case PrepareNextTurn => !inTurn && Grammatical(steps[1..], false)
       case AgentEnd => !inTurn && Grammatical(steps[1..], false)
       case OtherEvent => Grammatical(steps[1..], inTurn)
  }

  /** How far the turns are: how many have started, and whether one is on. */
  datatype Clock = Clock(turns: nat, inTurn: bool)

  function Now(clock: Clock): Option<nat> { if clock.inTurn then Some(clock.turns) else None }

  predicate Past(during: Option<nat>, clock: Clock) { during.Some? ==> during.value <= clock.turns }

  /**
   * Queued writes are persisted once each, in the order they were issued, and never before a message of their turn:
   * `pending` are the writes still queued, `during` the turns in which they were, `issued` all that ever were.
   */
  ghost predicate Sound(log: seq<Entry>, pending: seq<Write>, during: seq<Option<nat>>, issued: seq<Write>,
                        clock: Clock) {
    && issued == Queued(log) + pending && |during| == |pending|
    && WritesFollowTurns(log)
    && (forall i | 0 <= i < |during| :: Past(during[i], clock))
    && (forall i | 0 <= i < |log| && log[i].FromQueue? :: Past(log[i].during, clock))
    && (clock.inTurn ==> HeldBack(log, clock.turns))
  }

  lemma {:induction false} QueueWrite(log: seq<Entry>, pending: seq<Write>, during: seq<Option<nat>>,
                                      issued: seq<Write>, clock: Clock, w: Write)
    requires Sound(log, pending, during, issued, clock)
    ensures Sound(log, pending + [w], during + [Now(clock)], issued + [w], clock)
  {
    assert Queued(log) + (pending + [w]) == Queued(log) + pending + [w];
  }

  /** A message of the turn that is on, or a direct write. */
  lemma {:induction false} AppendOther(log: seq<Entry>, pending: seq<Write>, during: seq<Option<nat>>,
                                       issued: seq<Write>, clock: Clock, e: Entry)
    requires Sound(log, pending, during, issued, clock) && !e.FromQueue? && (e.FromTurn? ==> e.turn == Now(clock))
    ensures Sound(log + [e], pending, during, issued, clock)
  {
    AppendKeepsOrder(log, e);
    Logged(log, e);
    assert Queued(log) + [] == Queued(log);
    var more := log + [e];
    forall i | 0 <= i < |more| && more[i].FromQueue?
      ensures Past(more[i].during, clock) && (clock.inTurn ==> more[i].during != Some(clock.turns))
    {
      assert more[i] == log[i];
    }
  }

  lemma {:induction false} MoveOver(done: seq<Write>, pending: seq<Write>)
    requires pending != []
    ensures done + [pending[0]] + pending[1..] == done + pending
  {
    assert pending == [pending[0]] + pending[1..];
  }

  /** The first queued write, once it is in the session. */
  lemma {:induction false} AppendFirst(log: seq<Entry>, pending: seq<Write>, during: seq<Option<nat>>,
                                       issued: seq<Write>, clock: Clock, ticket: nat)
    requires Sound(log, pending, during, issued, clock) && pending != [] && !clock.inTurn
    ensures Sound(log + [FromQueue(pending[0], during[0], ticket)], pending[1..], during[1..], issued, clock)
  {
    var e := FromQueue(pending[0], during[0], ticket);
    AppendKeepsOrder(log, e);
    Logged(log, e);
    MoveOver(Queued(log), pending);
    var more := log + [e];
    forall i | 0 <= i < |more| && more[i].FromQueue? ensures Past(more[i].during, clock) {
      if i < |log| { assert more[i] == log[i]; }
    }
  }

  lemma {:induction false} StartTurn(log: seq<Entry>, pending: seq<Write>, during: seq<Option<nat>>, issued: seq<Write>,
                                     clock: Clock)
    requires Sound(log, pending, during, issued, clock)
    ensures Sound(log, pending, during, issued, Clock(clock.turns + 1, true))
    ensures Sound(log, pending, during, issued, Clock(clock.turns, false))
  {
  }

  /** The messages that the steps end. */
  function Texts(steps: seq<Step>): seq<Write> {
    if steps == [] then []
    else
      Texts(steps[..|steps| - 1])
        + if steps[|steps| - 1].MessageEnd? then [MessageWrite(steps[|steps| - 1].text)] else []
  }

  lemma {:induction false} TextsNext(steps: seq<Step>, k: nat)
    requires k < |steps|
    ensures Texts(steps[..k + 1]) == Texts(steps[..k]) + Texts([steps[k]])
  {
    assert steps[..k + 1][..k] == steps[..k] && [steps[k]][..0] == [];
  }

  lemma {:induction false} OneText(step: Step)
    ensures Texts([step]) == if step.MessageEnd? then [MessageWrite(step.text)] else []
  {
    assert [step][..0] == [];
  }

  class AgentHarness {
    var phase: Phase
    var pendingSessionWrites: seq<Write>
    /** The session, to which an append either happens or fails as a whole. */
    var session: seq<Write>
    /** How many appends have been tried, and which of them the storage rejects. */
    var attempts: nat
    const fails: nat -> bool
    ghost var log: seq<Entry>
    ghost var queuedDuring: seq<Option<nat>>
    ghost var issued: seq<Write>
    ghost var clock: Clock
    /** All writes of setters, those among them that are queued, and whether one has overtaken another. */
    ghost var setters: seq<Write>
    ghost var queue: seq<Issue>
    ghost var overtook: bool

    ghost predicate Valid()
      reads this
    {
      && session == Written(log) && Sound(log, pendingSessionWrites, queuedDuring, issued, clock)
      && Ordered(log, queue, setters, overtook)
      && |queue| == |pendingSessionWrites| && (forall i | 0 <= i < |queue| :: queue[i].write == pendingSessionWrites[i])
    }

    /** While this holds no setter can overtake a queued write. */
    ghost predicate Settled()
      reads this
    {
      phase == Idle ==> pendingSessionWrites == []
    }

    ghost predicate NeverFails() { forall n: nat :: !fails(n) }

    constructor (fails: nat -> bool)
      ensures Valid() && phase == Idle && session == [] && pendingSessionWrites == [] && !clock.inTurn
      ensures setters == [] && !overtook && this.fails == fails
    {
      phase, pendingSessionWrites, session, attempts, this.fails := Idle, [], [], 0, fails;
      log, issued, queuedDuring, clock := [], [], [], Clock(0, false);
      setters, queue, overtook := [], [], false;
    }

    /** A session append of something that was not queued; it may throw. */
    method AppendNow(w: Write, ghost e: Entry) returns (ok: bool)
      requires Valid() && e.write == w && !e.FromQueue? && (e.FromTurn? ==> e.turn == Now(clock))
               && (e.Direct? ==> e.ticket == |setters|)
      modifies this`session, this`attempts, this`log, this`setters, this`overtook
      ensures Valid() && ok == !fails(old(attempts)) && (if ok then log == old(log) + [e] else log == old(log))
      ensures session == old(session) + if ok then [w] else []
      ensures Queued(log) == Queued(old(log)) && Spoken(log) == Spoken(old(log)) + if ok && e.FromTurn? then [w] else []
      ensures setters == old(setters) + if ok && e.Direct? then [w] else []
      ensures overtook == (old(overtook) || (ok && e.Direct? && pendingSessionWrites != []))
    {
      ok := !fails(attempts);
      attempts := attempts + 1;
      if ok {
        Logged(log, e);
        AppendOther(log, pendingSessionWrites, queuedDuring, issued, clock, e);
        if e.Direct? {
          IssueDirect(log, queue, setters, overtook, w);
          setters, overtook := setters + [w], overtook || queue != [];
        } else {
          IssueOfTurn(log, queue, setters, overtook, e);
        }
        session, log := session + [w], log + [e];
      }
    }

    /**
     * What every setter does with its write: queue it while the harness is busy, else append it, and then it overtakes
     * whatever was left queued, by a run that failed or by a phase that does not flush.
     */
    method WriteOrQueue(w: Write) returns (ok: bool)
      requires Valid()
      modifies this`pendingSessionWrites, this`session, this`attempts, this`log, this`issued, this`queuedDuring,
          this`setters, this`queue, this`overtook
      ensures Valid()
      ensures phase != Idle ==>
                ok && pendingSessionWrites == old(pendingSessionWrites) + [w] && issued == old(issued) + [w]
                  && log == old(log)
      ensures phase == Idle ==> pendingSessionWrites == old(pendingSessionWrites) && issued == old(issued)
      ensures phase == Idle ==> ok == !fails(old(attempts)) && session == old(session) + if ok then [w] else []
      ensures phase == Idle ==> log == if ok then old(log) + [Direct(w, |old(setters)|)] else old(log)
      ensures Queued(log) == Queued(old(log)) && Spoken(log) == Spoken(old(log))
      ensures setters == old(setters) + if ok then [w] else []
      ensures overtook == (old(overtook) || (ok && phase == Idle && old(pendingSessionWrites) != []))
    {
      Logged(log, Direct(w, |setters|));
      if phase == Idle {
        ok := AppendNow(w, Direct(w, |setters|));
      } else {
        QueueWrite(log, pendingSessionWrites, queuedDuring, issued, clock, w);
        IssueQueued(log, queue, setters, overtook, w);
        queue, setters := queue + [Issue(|setters|, w)], setters + [w];
        queuedDuring := queuedDuring + [Now(clock)];
        pendingSessionWrites, issued := pendingSessionWrites + [w], issued + [w];
        ok := true;
      }
    }

    /** What others do while the harness waits. */
    method Arrive(writes: seq<Write>)
      requires Valid()
      modifies this`pendingSessionWrites, this`session, this`attempts, this`log, this`issued, this`queuedDuring,
          this`setters, this`queue, this`overtook
      ensures Valid() && old(issued) <= issued && old(log) <= log && old(pendingSessionWrites) <= pendingSessionWrites
      ensures Queued(log) == Queued(old(log)) && Spoken(log) == Spoken(old(log))
      ensures old(Settled()) ==> Settled() && overtook == old(overtook)
      ensures phase != Idle ==> pendingSessionWrites == old(pendingSessionWrites) + writes && log == old(log)
      ensures phase != Idle ==> setters == old(setters) + writes
    {
      var k := 0;
      Assoc(pendingSessionWrites, [], []);
      Assoc(setters, [], []);
      while k < |writes|
        invariant Valid() && old(issued) <= issued && old(log) <= log && 0 <= k <= |writes|
        invariant phase != Idle ==> pendingSessionWrites == old(pendingSessionWrites) + writes[..k] && log == old(log)
        invariant phase != Idle ==> setters == old(setters) + writes[..k]
        invariant old(pendingSessionWrites) <= pendingSessionWrites
        invariant Queued(log) == Queued(old(log)) && Spoken(log) == Spoken(old(log))
        invariant old(Settled()) ==> Settled() && overtook == old(overtook)
      {
        var ok := WriteOrQueue(writes[k]);
        TakeNext(writes, k);
        Assoc(old(pendingSessionWrites), writes[..k], [writes[k]]);
        Assoc(old(setters), writes[..k], [writes[k]]);
        k := k + 1;
      }
      assert writes[..k] == writes;
    }

    /** The first queued write goes to the session and out of the queue, unless the append throws. */
    method PersistFirst() returns (ok: bool)
      requires Valid() && pendingSessionWrites != [] && !clock.inTurn
      modifies this`pendingSessionWrites, this`session, this`attempts, this`log, this`queuedDuring, this`queue
      ensures Valid() && old(log) <= log
      ensures pendingSessionWrites == if ok then old(pendingSessionWrites)[1..] else old(pendingSessionWrites)
      ensures Queued(log) == if ok then Queued(old(log)) + [old(pendingSessionWrites)[0]] else Queued(old(log))
      ensures Spoken(log) == Spoken(old(log)) && ok == !fails(old(attempts))
      ensures Written(log) == if ok then Written(old(log)) + [old(pendingSessionWrites)[0]] else Written(old(log))
    {
      ok := !fails(attempts);
      attempts := attempts + 1;
      if ok {
        var write := pendingSessionWrites[0];
        ghost var e := FromQueue(write, queuedDuring[0], queue[0].ticket);
        Logged(log, e);
        AppendFirst(log, pendingSessionWrites, queuedDuring, issued, clock, queue[0].ticket);
        IssuePersisted(log, queue, setters, overtook, queuedDuring[0]);
        queue := queue[1..];
        session, log := session + [write], log + [e];
        pendingSessionWrites, queuedDuring := pendingSessionWrites[1..], queuedDuring[1..];
      }
    }

    /** One turn of the loop: what comes while the first write is appended, and that write. */
    method FlushFirst(arrivals: seq<seq<Write>>) returns (ok: bool, rest: seq<seq<Write>>)
      requires Valid() && pendingSessionWrites != [] && !clock.inTurn
      modifies this`pendingSessionWrites, this`session, this`attempts, this`log, this`issued, this`queuedDuring,
          this`setters, this`queue, this`overtook
      ensures Valid() && old(issued) <= issued && old(log) <= log && Spoken(log) == Spoken(old(log))
      ensures rest == (if arrivals == [] then [] else arrivals[1..]) && (NeverFails() ==> ok)
      ensures arrivals == [] ==> setters == old(setters)
      ensures arrivals == [] && ok ==> pendingSessionWrites == old(pendingSessionWrites)[1..]
      ensures arrivals == [] && ok ==>
                Written(log) + pendingSessionWrites == Written(old(log)) + old(pendingSessionWrites)
      ensures old(Settled()) ==> Settled() && overtook == old(overtook)
    {
      rest := arrivals;
      if rest != [] {
        Arrive(rest[0]);
        rest := rest[1..];
      }
      MoveOver(Written(log), pendingSessionWrites);
      ok := PersistFirst();
    }

    /** flushPendingSessionWrites; `arrivals` are the writes that others issue at each of its waits. */
    method FlushPendingSessionWrites(arrivals: seq<seq<Write>>) returns (ok: bool, rest: seq<seq<Write>>)
      requires Valid() && !clock.inTurn
      modifies this`pendingSessionWrites, this`session, this`attempts, this`log, this`issued, this`queuedDuring,
          this`setters, this`queue, this`overtook
      ensures Valid() && old(issued) <= issued && old(log) <= log
      ensures ok ==> pendingSessionWrites == [] && Queued(log) == issued
      ensures Spoken(log) == Spoken(old(log)) && (NeverFails() ==> ok)
      ensures arrivals == [] ==> setters == old(setters) && (ok ==> session == old(session) + old(pendingSessionWrites))
      ensures old(Settled()) ==> Settled() && overtook == old(overtook)
    {
      rest := arrivals;
      while |pendingSessionWrites| > 0
        invariant Valid() && old(issued) <= issued && old(log) <= log && Spoken(log) == Spoken(old(log))
        invariant arrivals == [] ==> rest == [] && setters == old(setters)
        invariant arrivals == [] ==> Written(log) + pendingSessionWrites == old(session) + old(pendingSessionWrites)
        invariant old(Settled()) ==> Settled() && overtook == old(overtook)
        decreases |rest|, |pendingSessionWrites|
      {
        ok, rest := FlushFirst(rest);
        if !ok { return; }
      }
      ok := true;
    }

    /** Listeners of an event are awaited, and may throw. */
    method EmitAny(arrivals: seq<seq<Write>>) returns (ok: bool, rest: seq<seq<Write>>)
      requires Valid()
      modifies this`pendingSessionWrites, this`session, this`attempts, this`log, this`issued, this`queuedDuring,
          this`setters, this`queue, this`overtook
      ensures Valid() && old(issued) <= issued && old(log) <= log && old(pendingSessionWrites) <= pendingSessionWrites
      ensures Queued(log) == Queued(old(log)) && Spoken(log) == Spoken(old(log))
      ensures old(Settled()) ==> Settled() && overtook == old(overtook)
    {
      rest := arrivals;
      if rest != [] {
        Arrive(rest[0]);
        rest := rest[1..];
      }
      ok := *;
    }

    /** The end of a turn: its listeners, the flush, and the listeners of the save point. */
    method EndTurn(arrivals: seq<seq<Write>>) returns (ok: bool, rest: seq<seq<Write>>)
      requires Valid()
      modifies this
      ensures Valid() && old(issued) <= issued && old(log) <= log && Spoken(log) == Spoken(old(log))
      ensures clock == Clock(old(clock.turns), false) && phase == old(phase)
      ensures ok ==> old(issued) <= Queued(log)
      ensures old(Settled()) ==> Settled() && overtook == old(overtook)
    {
      StartTurn(log, pendingSessionWrites, queuedDuring, issued, clock);
      clock := Clock(clock.turns, false);
      var heard, flushed;
      heard, rest := EmitAny(arrivals);
      flushed, rest := FlushPendingSessionWrites(rest);
      ok := false;
      if flushed && heard {
        ok, rest := EmitAny(rest);
      }
    }

    /** The end of the run: the flush, after which the harness is idle, and its listeners. */
    method EndAgent(arrivals: seq<seq<Write>>) returns (ok: bool, rest: seq<seq<Write>>)
      requires Valid() && !clock.inTurn
      modifies this
      ensures Valid() && old(issued) <= issued && old(log) <= log && Spoken(log) == Spoken(old(log))
      ensures clock == old(clock) && (phase == Idle || phase == old(phase))
      ensures ok ==> old(issued) <= Queued(log) && phase == Idle
      ensures old(Settled()) ==> Settled() && overtook == old(overtook)
    {
      ok, rest := FlushPendingSessionWrites(arrivals);
      if ok {
        phase := Idle;
        ok, rest := EmitAny(rest);
      }
    }

    /** A message of the run goes to the session and then to the listeners. */
    method EndMessage(text: string, arrivals: seq<seq<Write>>) returns (ok: bool, rest: seq<seq<Write>>)
      requires Valid()
      modifies this`pendingSessionWrites, this`session, this`attempts, this`log, this`issued, this`queuedDuring,
          this`setters, this`queue, this`overtook
      ensures Valid() && old(issued) <= issued && old(log) <= log
      ensures ok ==> Spoken(log) == Spoken(old(log)) + [MessageWrite(text)]
      ensures old(Settled()) ==> Settled() && overtook == old(overtook)
    {
      rest := arrivals;
      ok := AppendNow(MessageWrite(text), FromTurn(MessageWrite(text), Now(clock)));
      if ok { ok, rest := EmitAny(rest); }
    }

    /** The start of a turn is only told. */
    method BeginTurn(arrivals: seq<seq<Write>>) returns (ok: bool, rest: seq<seq<Write>>)
      requires Valid()
      modifies this
      ensures Valid() && old(issued) <= issued && old(log) <= log && Spoken(log) == Spoken(old(log))
      ensures clock == Clock(old(clock.turns) + 1, true) && phase == old(phase)
      ensures old(Settled()) ==> Settled() && overtook == old(overtook)
    {
      StartTurn(log, pendingSessionWrites, queuedDuring, issued, clock);
      clock := Clock(clock.turns + 1, true);
      ok, rest := EmitAny(arrivals);
    }

    /** handleAgentEvent, and prepareNextTurn as far as writes go. */
    method Handle(step: Step, arrivals: seq<seq<Write>>) returns (ok: bool, rest: seq<seq<Write>>)
      requires Valid() && (step.PrepareNextTurn? || step.AgentEnd? ==> !clock.inTurn)
      modifies this
      ensures Valid() && old(issued) <= issued && old(log) <= log
      ensures clock == (match step case TurnStart => Clock(old(clock.turns) + 1, true)
                                   case TurnEnd => Clock(old(clock.turns), false)
                                   case _ => old(clock))
      ensures phase == Idle || phase == old(phase)
      ensures ok && (step.TurnEnd? || step.PrepareNextTurn? || step.AgentEnd?) ==> old(issued) <= Queued(log)
      ensures ok ==> Spoken(log) == Spoken(old(log)) + Texts([step])
      ensures ok && step.AgentEnd? ==> phase == Idle
      ensures old(Settled()) ==> Settled() && overtook == old(overtook)
    {
      rest := arrivals;
      OneText(step);
      assert Spoken(log) + [] == Spoken(log);
      match step {
        case MessageEnd(text) =>
          ok, rest := EndMessage(text, rest);
        case TurnEnd =>
          ok, rest := EndTurn(rest);
        case PrepareNextTurn =>
          ok, rest := FlushPendingSessionWrites(rest);
        case AgentEnd =>
          ok, rest := EndAgent(rest);
        case TurnStart =>
          ok, rest := BeginTurn(rest);
        case OtherEvent =>
          ok, rest := EmitAny(rest);
      }
    }

    /** emitRunFailure: a failed run is closed with a message of its own. */
    method EmitRunFailure(text: string, arrivals: seq<seq<Write>>) returns (ok: bool, rest: seq<seq<Write>>)
      requires Valid()
      modifies this
      ensures Valid() && old(issued) <= issued && old(log) <= log
      ensures old(Settled()) ==> Settled() && overtook == old(overtook)
    {
      ok, rest := Handle(OtherEvent, arrivals);
      if ok { ok, rest := Handle(MessageEnd(text), rest); }
      if ok { ok, rest := Handle(TurnEnd, rest); }
      if ok { ok, rest := Handle(AgentEnd, rest); }
    }

    /** The loop's events, up to the first that fails. */
    method HandleAll(steps: seq<Step>, arrivals: seq<seq<Write>>) returns (ok: bool, rest: seq<seq<Write>>)
      requires Valid() && Grammatical(steps, clock.inTurn)
      modifies this
      ensures Valid() && old(issued) <= issued && old(log) <= log
      ensures ok ==> Spoken(log) == Spoken(old(log)) + Texts(steps)
      ensures steps == [] ==> ok && rest == arrivals && unchanged(this)
      ensures old(Settled()) ==> Settled() && overtook == old(overtook)
    {
      var k := 0;
      ok, rest := true, arrivals;
      ghost var before := Spoken(log);
      assert before + [] == before;
      while k < |steps| && ok
        invariant 0 <= k <= |steps| && Valid() && old(issued) <= issued && old(log) <= log
        invariant old(Settled()) ==> Settled() && overtook == old(overtook)
        invariant steps == [] ==> ok && rest == arrivals && unchanged(this)
        invariant ok ==> Spoken(log) == before + Texts(steps[..k]) && Grammatical(steps[k..], clock.inTurn)
      {
        assert steps[k..][0] == steps[k] && steps[k..][1..] == steps[k + 1..];
        ok, rest := Handle(steps[k], rest);
        TextsNext(steps, k);
        assert before + Texts(steps[..k]) + Texts([steps[k]]) == before + (Texts(steps[..k]) + Texts([steps[k]]));
        k := k + 1;
      }
      assert steps[..|steps|] == steps;
    }

    /** executeTurn as far as writes go: the loop's events, a failure message if one fails, and a last flush. */
    method ExecuteTurn(steps: seq<Step>, failure: string, arrivals: seq<seq<Write>>) returns (ok: bool)
      requires Valid() && Grammatical(steps, clock.inTurn)
      modifies this
      ensures Valid() && old(issued) <= issued && old(log) <= log && !clock.inTurn
      ensures ok ==>
                old(issued) <= Queued(log) && pendingSessionWrites == []
                  && Spoken(log) == Spoken(old(log)) + Texts(steps)
      ensures steps == [] && arrivals == [] && NeverFails() ==>
                ok && session == old(session) + old(pendingSessionWrites) && setters == old(setters)
      ensures old(Settled()) ==> Settled() && overtook == old(overtook)
    {
      var rest;
      ok, rest := HandleAll(steps, arrivals);
      if !ok {
        var reported;
        reported, rest := EmitRunFailure(failure, rest);
      }
      StartTurn(log, pendingSessionWrites, queuedDuring, issued, clock);
      clock := Clock(clock.turns, false);
      var flushed;
      flushed, rest := FlushPendingSessionWrites(rest);
      ok := ok && flushed;
    }

    /** prompt: one run at a time. */
    method Prompt(steps: seq<Step>, failure: string, arrivals: seq<seq<Write>>) returns (ok: bool)
      requires Valid() && Grammatical(steps, false) && !clock.inTurn
      modifies this
      ensures Valid() && old(issued) <= issued && old(log) <= log && !clock.inTurn
      ensures old(phase) != Idle ==> !ok && unchanged(this)
      ensures ok ==>
                old(issued) <= Queued(log) && pendingSessionWrites == []
                  && Spoken(log) == Spoken(old(log)) + Texts(steps)
      ensures steps == [] && arrivals == [] && NeverFails() && old(phase) == Idle ==>
                ok && session == old(session) + old(pendingSessionWrites) && setters == old(setters)
      ensures overtook == old(overtook)
    {
      if phase != Idle { return false; }
      phase := Turn;
      ok := ExecuteTurn(steps, failure, arrivals);
      if !ok { phase := Idle; }
    }

    /**
     * compact and navigateTree as far as writes go: what setters write meanwhile is queued, and is still queued when
     * the harness is idle again, since neither flushes.
     */
    method OtherPhase(busy: Phase, writes: seq<Write>) returns (ok: bool)
      requires Valid() && (busy == Compaction || busy == BranchSummary)
      modifies this
      ensures Valid() && ok == (old(phase) == Idle) && (!ok ==> unchanged(this))
      ensures ok ==> phase == Idle && pendingSessionWrites == old(pendingSessionWrites) + writes && log == old(log)
      ensures ok ==>
                session == old(session) && setters == old(setters) + writes && overtook == old(overtook)
                  && clock == old(clock)
    {
      if phase != Idle { return false; }
      phase := busy;
      Arrive(writes);
      phase := Idle;
      ok := true;
    }
  }

  method CompactMeanwhile(a: Write) returns (h: AgentHarness)
    ensures fresh(h) && h.Valid() && h.NeverFails() && h.phase == Idle && !h.clock.inTurn
    ensures h.setters == [a] && h.session == [] && h.pendingSessionWrites == [a] && !h.overtook
  {
    h := new AgentHarness(_ => false);
    assert [] + [a] == [a];
    var compacted := h.OtherPhase(Compaction, [a]);
  }

  /** A write while the harness compacts, then one while it is idle. */
  method WriteAroundCompaction(a: Write, b: Write) returns (h: AgentHarness)
    ensures fresh(h) && h.Valid() && h.NeverFails() && h.phase == Idle && !h.clock.inTurn
    ensures h.setters == [a] + [b] && h.session == [b] && h.pendingSessionWrites == [a] && h.overtook
  {
    h := CompactMeanwhile(a);
    assert [] + [b] == [b];
    var appended := h.WriteOrQueue(b);
  }

  /** No append fails, and still the second write is in the session before the first. */
  method OvertakenWithoutFailure(a: Write, b: Write) returns (h: AgentHarness)
    ensures h.setters == [a, b] && h.session == [b, a] && h.overtook
  {
    h := WriteAroundCompaction(a, b);
    var prompted := h.Prompt([], "", []);
  }

  /** A queue of messages that a run takes from while others add to it. */
  class MessageQueue {
    var messages: seq<string>

    constructor ()
      ensures messages == []
    {
      messages := [];
    }

    /** drainQueuedMessages: if telling the listeners throws, what was taken is put back in front of what came since. */
    method Drain(all: bool, arrivals: seq<string>) returns (taken: seq<string>, ok: bool)
      modifies this
      ensures ok ==> taken + messages == old(messages) + (if taken == [] then [] else arrivals)
      ensures ok ==> |taken| == if all then |old(messages)| else if old(messages) == [] then 0 else 1
      ensures !ok ==> taken == [] && messages == old(messages) + arrivals
    {
      var n := if all then |messages| else if |messages| == 0 then 0 else 1;
      taken, messages := messages[..n], messages[n..];
      ghost var left := messages;
      assert taken + left == old(messages);
      if |taken| == 0 { return taken, true; }
      messages := messages + arrivals;
      assert taken + (left + arrivals) == old(messages) + arrivals;
      ok := *;
      if !ok {
        messages, taken := taken + messages, [];
      }
    }
  }
}
