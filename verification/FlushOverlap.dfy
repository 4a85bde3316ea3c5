/**
 * Flushes that overlap, where a listener of agent_end starts another run: packages/agent/src/harness/agent-harness.ts.
 */
module OverlappingFlushes {
  import opened Common

  /**
   * Where a flush stands: at the head of its loop, waiting for an append that will land or be rejected, or past one
   * that has landed. Writes are known by the number under which they were issued.
   */
  datatype Flush = Head | Appending(write: nat, lands: bool) | Landed(write: nat)

  datatype State = State(issued: nat, pending: seq<nat>, session: seq<nat>, flushes: seq<Flush>)

  datatype Step = Push | Begin(i: nat, lands: bool) | Land(i: nat) | Shift(i: nat) | Reject(i: nat)

  predicate Enabled(st: State, step: Step) {
    match step
    case Push => true
    case Begin(i, _) => i < |st.flushes| && st.flushes[i].Head? && st.pending != []
    case Land(i) => i < |st.flushes| && st.flushes[i].Appending? && st.flushes[i].lands
    case Shift(i) => i < |st.flushes| && st.flushes[i].Landed?
    case Reject(i) => i < |st.flushes| && st.flushes[i].Appending? && !st.flushes[i].lands
  }

  /** Each flush takes the first write to append, but removes what is first once the append has landed. */
  function Next(st: State, step: Step): State
    requires Enabled(st, step)
  {
    match step
    case Push => st.(issued := st.issued + 1, pending := st.pending + [st.issued])
    case Begin(i, lands) => st.(flushes := st.flushes[i := Appending(st.pending[0], lands)])
    case Land(i) =>
      st.(session := st.session + [st.flushes[i].write], flushes := st.flushes[i := Landed(st.flushes[i].write)])
    case Shift(i) =>
      st.(pending := if st.pending == [] then [] else st.pending[1..], flushes := st.flushes[i := Head])
    case Reject(i) => st.(flushes := st.flushes[i := Head])
  }

  /** The steps from the start, with so many flushes that may run, if each is possible when it comes. */
  function Reached(n: nat, steps: seq<Step>): (st: Option<State>) {
    if steps == [] then Some(State(0, [], [], seq(n, _ => Head)))
    else
      var before, step := Reached(n, steps[..|steps| - 1]), steps[|steps| - 1];
      if before.Some? && Enabled(before.value, step) then Some(Next(before.value, step)) else None
  }

  /** The flush is about to persist the write it took. */
  predicate InProgress(f: Flush) { f.Landed? || (f.Appending? && f.lands) }

  predicate SomeInProgress(flushes: seq<Flush>) { exists j | 0 <= j < |flushes| :: InProgress(flushes[j]) }

  /** A flush begins an append that will land, while that of another is under way. */
  predicate Overlaps(st: State, step: Step) { step.Begin? && step.lands && SomeInProgress(st.flushes) }

  predicate NoOverlap(n: nat, steps: seq<Step>) {
    steps == []
    || (NoOverlap(n, steps[..|steps| - 1])
        && var before := Reached(n, steps[..|steps| - 1]); before.Some? && !Overlaps(before.value, steps[|steps| - 1]))
  }

  function Numbers(n: nat): seq<nat> { if n == 0 then [] else Numbers(n - 1) + [n - 1] }

  /** Every write that was issued is in the session or still queued, once, in the order of issue. */
  predicate Conserved(st: State) { st.session + st.pending == Numbers(st.issued) }

  // ----- without overlaps

  /** At most one flush is in progress, with the first write; if that has landed it is still queued too. */
  ghost predicate Alone(st: State) {
    && (forall j, k | 0 <= j < k < |st.flushes| :: !(InProgress(st.flushes[j]) && InProgress(st.flushes[k])))
    && (forall j | 0 <= j < |st.flushes| && InProgress(st.flushes[j]) :: Holds(st, st.flushes[j]))
    && (!SomeInProgress(st.flushes) ==> Conserved(st))
  }

  ghost predicate Holds(st: State, f: Flush) {
    && st.pending != [] && (f.Appending? || f.Landed?) && f.write == st.pending[0]
    && (if f.Landed? then f.write in st.session && st.session + st.pending[1..] == Numbers(st.issued)
      else Conserved(st))
  }

  lemma {:induction false} PushMore(st: State)
    ensures Conserved(st) ==> Conserved(Next(st, Push))
    ensures st.pending != [] && st.session + st.pending[1..] == Numbers(st.issued) ==>
              st.session + (st.pending + [st.issued])[1..] == Numbers(st.issued + 1)
  {
    Assoc(st.session, st.pending, [st.issued]);
    if st.pending != [] {
      assert (st.pending + [st.issued])[1..] == st.pending[1..] + [st.issued];
      Assoc(st.session, st.pending[1..], [st.issued]);
    }
  }

  lemma {:induction false} LandMoves(session: seq<nat>, pending: seq<nat>)
    requires pending != []
    ensures session + [pending[0]] + pending[1..] == session + pending
  {
    assert pending == [pending[0]] + pending[1..];
  }

  lemma {:induction false} StepAlone(st: State, step: Step, st': State)
    requires Alone(st) && Enabled(st, step) && st' == Next(st, step) && !Overlaps(st, step)
    ensures Alone(st')
  {
    match step {
      case Push =>
        PushMore(st);
        assert st'.flushes == st.flushes;
      case Begin(i, lands) =>
        if lands { assert InProgress(st'.flushes[i]); }
        OthersStay(st, i, st');
      case Land(i) =>
        assert InProgress(st.flushes[i]) && InProgress(st'.flushes[i]);
        LandMoves(st.session, st.pending);
        OthersStay(st, i, st');
      case Shift(i) =>
        assert InProgress(st.flushes[i]);
        OthersStay(st, i, st');
      case Reject(i) =>
        OthersStay(st, i, st');
    }
  }

  lemma {:induction false} OthersStay(st: State, i: nat, st': State)
    requires i < |st.flushes| == |st'.flushes| && st'.flushes == st.flushes[i := st'.flushes[i]]
    ensures forall j | 0 <= j < |st.flushes| && j != i :: st'.flushes[j] == st.flushes[j]
    ensures SomeInProgress(st'.flushes) <==>
            InProgress(st'.flushes[i]) || exists j | 0 <= j < |st.flushes| && j != i :: InProgress(st.flushes[j])
  {
    if j :| 0 <= j < |st.flushes| && j != i && InProgress(st.flushes[j]) { assert InProgress(st'.flushes[j]); }
  }

  // ----- after an overlap

  /** How many flushes have taken this write and are going to persist it. */
  function Taken(flushes: seq<Flush>, write: nat): nat {
    if flushes == [] then 0
    else Taken(flushes[..|flushes| - 1], write) + if flushes[|flushes| - 1] == Appending(write, true) then 1 else 0
  }

  lemma {:induction false} TakenUpdate(flushes: seq<Flush>, i: nat, f: Flush, write: nat)
    requires i < |flushes|
    ensures Taken(flushes[i := f], write) + (if flushes[i] == Appending(write, true) then 1 else 0)
         == Taken(flushes, write) + (if f == Appending(write, true) then 1 else 0)
  {
    var n := |flushes| - 1;
    if i < n {
      assert flushes[i := f][..n] == flushes[..n][i := f];
      TakenUpdate(flushes[..n], i, f, write);
    } else {
      assert flushes[i := f][..n] == flushes[..n];
    }
  }

  lemma {:induction false} TakenOne(flushes: seq<Flush>, i: nat, write: nat)
    requires i < |flushes| && flushes[i] == Appending(write, true)
    ensures Taken(flushes, write) >= 1
  {
    TakenUpdate(flushes, i, Head, write);
  }

  lemma {:induction false} NoneTaken(flushes: seq<Flush>, write: nat)
    requires forall j | 0 <= j < |flushes| :: flushes[j].Head?
    ensures Taken(flushes, write) == 0
  {
    if flushes != [] { NoneTaken(flushes[..|flushes| - 1], write); }
  }

  /** The write is, or is going to be, in the session twice. */
  ghost predicate Doubled(st: State, write: nat) { multiset(st.session)[write] + Taken(st.flushes, write) >= 2 }

  lemma {:induction false} StaysDoubled(st: State, step: Step, st': State, write: nat)
    requires Doubled(st, write) && Enabled(st, step) && st' == Next(st, step)
    ensures Doubled(st', write)
  {
    if !step.Push? {
      TakenUpdate(st.flushes, step.i, st'.flushes[step.i], write);
    }
  }

  /** A flush that begins while another is in progress takes the write that one has taken. */
  lemma {:induction false} OverlapDoubles(st: State, step: Step, st': State)
    requires Alone(st) && Enabled(st, step) && st' == Next(st, step) && Overlaps(st, step)
    ensures Doubled(st', st.pending[0])
  {
    var j :| 0 <= j < |st.flushes| && InProgress(st.flushes[j]);
    var write := st.pending[0];
    assert Holds(st, st.flushes[j]);
    TakenUpdate(st.flushes, step.i, st'.flushes[step.i], write);
    if st.flushes[j].Appending? {
      TakenOne(st.flushes, j, write);
    }
  }

  lemma {:induction false} OnceEach(n: nat, write: nat)
    ensures multiset(Numbers(n))[write] == if write < n then 1 else 0
  {
    if n > 0 { OnceEach(n - 1, write); }
  }

  /** Whatever the steps were: one flush at a time, or a write that is persisted twice. */
  lemma {:induction false} AloneOrDoubled(n: nat, steps: seq<Step>) returns (write: nat)
    requires Reached(n, steps).Some?
    ensures NoOverlap(n, steps) ==> Alone(Reached(n, steps).value)
    ensures !NoOverlap(n, steps) ==> Doubled(Reached(n, steps).value, write)
  {
    write := 0;
    if steps != [] {
      var init, step := steps[..|steps| - 1], steps[|steps| - 1];
      var st := Reached(n, init).value;
      write := AloneOrDoubled(n, init);
      if !NoOverlap(n, init) {
        StaysDoubled(st, step, Next(st, step), write);
      } else if Overlaps(st, step) {
        write := st.pending[0];
        OverlapDoubles(st, step, Next(st, step));
      } else {
        StepAlone(st, step, Next(st, step));
      }
    }
  }

  predicate Over(st: State) { forall j | 0 <= j < |st.flushes| :: st.flushes[j].Head? }

  lemma {:induction false} DoubledIsLost(st: State, write: nat)
    requires Over(st) && Doubled(st, write)
    ensures !Conserved(st)
  {
    NoneTaken(st.flushes, write);
    OnceEach(st.issued, write);
    assert multiset(st.session + st.pending)[write] >= 2;
  }

  lemma {:induction false} NoneInProgress(st: State)
    requires Over(st)
    ensures !SomeInProgress(st.flushes)
  {
  }

  /**
   * When all flushes are over, each write that was issued is persisted or queued, once and in order, if and only if no
   * flush began an append that landed while that of another was under way.
   */
  lemma {:induction false} FlushesMustNotOverlap(n: nat, steps: seq<Step>)
    requires Reached(n, steps).Some? && Over(Reached(n, steps).value)
    ensures Conserved(Reached(n, steps).value) <==> NoOverlap(n, steps)
  {
    var write := AloneOrDoubled(n, steps);
    NoneInProgress(Reached(n, steps).value);
    if !NoOverlap(n, steps) { DoubledIsLost(Reached(n, steps).value, write); }
  }

  lemma {:induction false} ReachedNext(n: nat, steps: seq<Step>, step: Step, st: State, st': State)
    requires Reached(n, steps) == Some(st) && Enabled(st, step) && st' == Next(st, step)
    ensures Reached(n, steps + [step]) == Some(st')
  {
    assert (steps + [step])[..|steps|] == steps;
  }

  const BOTH_BEGIN: seq<Step> := [] + [Push] + [Push] + [Begin(0, true)] + [Begin(1, true)]
  const BOTH_END: seq<Step> := BOTH_BEGIN + [Land(0)] + [Land(1)] + [Shift(0)] + [Shift(1)]

  lemma {:induction false} BothBegin()
    ensures Reached(2, BOTH_BEGIN) == Some(State(2, [0, 1], [], [Appending(0, true), Appending(0, true)]))
  {
    var none := seq(2, _ => Head);
    assert none == [Head, Head] && [] + [0] == [0] && [0] + [1] == [0, 1];
    ReachedNext(2, [], Push, State(0, [], [], none), State(1, [0], [], none));
    ReachedNext(2, [] + [Push], Push, State(1, [0], [], none), State(2, [0, 1], [], none));
    var one, two := none[0 := Appending(0, true)], none[0 := Appending(0, true)][1 := Appending(0, true)];
    assert two == [Appending(0, true), Appending(0, true)];
    ReachedNext(2, [] + [Push] + [Push], Begin(0, true), State(2, [0, 1], [], none), State(2, [0, 1], [], one));
    ReachedNext(2, [] + [Push] + [Push] + [Begin(0, true)], Begin(1, true), State(2, [0, 1], [], one),
                State(2, [0, 1], [], two));
  }

  /** Two writes and two flushes at once: the first write is in the session twice, the second is nowhere. */
  lemma {:induction false} WriteIsLost()
    ensures Reached(2, BOTH_END) == Some(State(2, [], [0, 0], [Head, Head]))
  {
    BothBegin();
    var a: seq<Flush> := [Appending(0, true), Appending(0, true)];
    var b, c, d, e := a[0 := Landed(0)], a[0 := Landed(0)][1 := Landed(0)], [Head, Landed(0)], [Head, Head];
    assert c[0 := Head] == d && d[1 := Head] == e && [] + [0] == [0] && [0] + [0] == [0, 0];
    assert [0, 1][1..] == [1] && [1][1..] == [];
    ReachedNext(2, BOTH_BEGIN, Land(0), State(2, [0, 1], [], a), State(2, [0, 1], [0], b));
    ReachedNext(2, BOTH_BEGIN + [Land(0)], Land(1), State(2, [0, 1], [0], b), State(2, [0, 1], [0, 0], c));
    ReachedNext(2, BOTH_BEGIN + [Land(0)] + [Land(1)], Shift(0), State(2, [0, 1], [0, 0], c), State(2, [1], [0, 0], d));
    ReachedNext(2, BOTH_BEGIN + [Land(0)] + [Land(1)] + [Shift(0)], Shift(1), State(2, [1], [0, 0], d),
                State(2, [], [0, 0], e));
  }
}
