/** Splitting terminal input into sequences, whatever chunks it comes in: packages/tui/src/stdin-buffer.ts. */
module InputSplitting {
  import opened Common
  import opened Utf16

  const ESC: Unit := 0x1b
  const BEL: Unit := 0x07
  const BACKSLASH: Unit := '\\' as int

  predicate EndsWith(s: Text, suffix: Text) { |suffix| <= |s| && s[|s| - |suffix|..] == suffix }

  predicate IsDigit(u: Unit) { '0' as int <= u <= '9' as int }

  // ----- when a sequence is complete

  function DigitsEnd(s: Text, i: nat): (end: nat)
    requires i <= |s|
    ensures i <= end <= |s|
    decreases |s| - i
  {
    if i < |s| && IsDigit(s[i]) then DigitsEnd(s, i + 1) else i
  }

  /** One or more digits from i on, then a unit among `stops`; -1 if not, else the index after it. */
  function Field(s: Text, i: int, stops: set<Unit>): (end: int)
    ensures end <= |s|
  {
    if i < 0 || i > |s| then -1
    else
      var end := DigitsEnd(s, i);
      if i < end < |s| && s[end] in stops then end + 1 else -1
  }

  /** `<digits;digits;digits` and a final M or m. */
  predicate IsMouseReport(payload: Text) {
    payload != [] && payload[0] == '<' as int
    && Field(payload, Field(payload, Field(payload, 1, {';' as int}), {';' as int}), {'M' as int, 'm' as int})
      == |payload|
  }

  /** isCompleteCsiSequence: a final byte ends a sequence, except that SGR mouse reports must have their form. */
  predicate IsCompleteCsi(data: Text)
    requires 2 <= |data|
  {
    && |data| >= 3
    && 0x40 <= data[|data| - 1] <= 0x7e
    && (data[2] == '<' as int ==> IsMouseReport(data[2..]))
  }

  /** isCompleteSequence, for data that starts with ESC. */
  predicate IsComplete(data: Text)
    requires data != [] && data[0] == ESC
  {
    if |data| == 1 then false
    else if data[1] == '[' as int then
      if |data| >= 3 && data[2] == 'M' as int then |data| >= 6 else IsCompleteCsi(data)
    else if data[1] == ']' as int then EndsWith(data, [ESC, BACKSLASH]) || EndsWith(data, [BEL])
    else if data[1] == 'P' as int || data[1] == '_' as int then EndsWith(data, [ESC, BACKSLASH])
    else if data[1] == 'O' as int then |data| >= 3
    else true
  }

  // ----- extractCompleteSequences

  datatype Extracted = Extracted(sequences: seq<Text>, remainder: Text)

  /** What would begin an escape sequence after an ESC. */
  predicate IsIntroducer(u: Unit) {
    u == '[' as int || u == ']' as int || u == 'O' as int || u == 'P' as int || u == '_' as int
  }

  /** The length, n or more, of the shortest complete sequence at the start of s; |s| + 1 if there is none. */
  function SequenceEnd(s: Text, n: nat): (end: nat)
    requires s != [] && s[0] == ESC && 1 <= n <= |s| + 1
    ensures n <= end <= |s| + 1
    ensures end <= |s| ==> IsComplete(s[..end])
    ensures forall k | n <= k < end :: !IsComplete(s[..k])
    decreases |s| - n
  {
    if n > |s| || IsComplete(s[..n]) then n else SequenceEnd(s, n + 1)
  }

  /** The length of the first sequence to emit; None if the rest has to wait for more input. */
  function FirstSequence(s: Text): (n: Option<nat>)
    requires s != []
    ensures n.Some? ==> 1 <= n.value <= |s|
  {
    if s[0] != ESC then Some(1)
    else
      var end := SequenceEnd(s, 1);
      if end > |s| then None
      else if s[..end] == [ESC, ESC] && end < |s| && IsIntroducer(s[end]) then Some(1)
      else Some(end)
  }

  function Extract(s: Text): Extracted
    decreases |s|
  {
    if s == [] then Extracted([], [])
    else
      var n := FirstSequence(s);
      if n.None? then Extracted([], s)
      else
        var rest := Extract(s[n.value..]);
        Extracted([s[..n.value]] + rest.sequences, rest.remainder)
  }

  lemma {:induction false} ExtractStep(s: Text)
    requires s != [] && FirstSequence(s).Some?
    ensures var n, rest := FirstSequence(s).value, Extract(s[FirstSequence(s).value..]);
            Extract(s) == Extracted([s[..n]] + rest.sequences, rest.remainder)
  {
  }

  lemma {:induction false} StepConserves(s: Text, n: nat, rest: Extracted)
    requires n <= |s| && Flatten(rest.sequences) + rest.remainder == s[n..]
    ensures Flatten([s[..n]] + rest.sequences) + rest.remainder == s
  {
    FlattenFirst(s[..n], rest.sequences);
    Assoc(s[..n], Flatten(rest.sequences), rest.remainder);
    assert s[..n] + s[n..] == s;
  }

  /** Nothing is lost: sequences and remainder are the input again. */
  lemma {:induction false} ExtractConserves(s: Text)
    ensures Flatten(Extract(s).sequences) + Extract(s).remainder == s
    decreases |s|
  {
    if s != [] && FirstSequence(s).Some? {
      var n := FirstSequence(s).value;
      ExtractConserves(s[n..]);
      ExtractStep(s);
      StepConserves(s, n, Extract(s[n..]));
    }
  }

  /** An emitted sequence is one unit or the shortest complete escape sequence; what waits has no complete prefix. */
  lemma {:induction false} ExtractIsShortest(s: Text)
    ensures forall q | q in Extract(s).sequences ::
              |q| == 1 || (|q| >= 2 && q[0] == ESC && IsComplete(q) && forall k | 1 <= k < |q| :: !IsComplete(q[..k]))
    ensures var r := Extract(s).remainder;
            r != [] ==> r[0] == ESC && forall k | 1 <= k <= |r| :: !IsComplete(r[..k])
    decreases |s|
  {
    if s != [] && FirstSequence(s).Some? {
      var n := FirstSequence(s).value;
      ExtractIsShortest(s[n..]);
      if n > 1 {
        forall k | 1 <= k < n ensures !IsComplete(s[..n][..k]) { assert s[..n][..k] == s[..k]; }
      }
    }
  }

  // ----- chunks

  /** A second ESC that has been emitted with the first must not be followed by an introducer. */
  predicate SplitsEscape(done: Extracted, next: Text) {
    && done.remainder == [] && done.sequences != [] && done.sequences[|done.sequences| - 1] == [ESC, ESC]
    && next != [] && IsIntroducer(next[0])
  }

  lemma {:induction false} SequenceEndGrows(a: Text, b: Text, n: nat)
    requires a != [] && a[0] == ESC && 1 <= n <= |a| + 1
    ensures if SequenceEnd(a, n) <= |a| then SequenceEnd(a + b, n) == SequenceEnd(a, n) else SequenceEnd(a + b, n) > |a|
    decreases |a| - n
  {
    if n <= |a| {
      assert (a + b)[..n] == a[..n];
      if !IsComplete(a[..n]) { SequenceEndGrows(a, b, n + 1); }
    }
  }

  /** More input changes the first sequence only if it is a whole ESC ESC and an introducer follows. */
  lemma {:induction false} FirstSequenceGrows(a: Text, b: Text)
    requires a != [] && b != [] && FirstSequence(a).Some?
    ensures FirstSequence(a + b) == if a == [ESC, ESC] && IsIntroducer(b[0]) then Some(1) else FirstSequence(a)
  {
    var s := a + b;
    if a[0] == ESC {
      SequenceEndGrows(a, b, 1);
      var end := SequenceEnd(a, 1);
      assert s[..end] == a[..end];
      if end == |a| { assert a[..end] == a && s[end] == b[0]; } else { assert s[end] == a[end]; }
      if a[..end] == [ESC, ESC] { assert end == 2; }
      if a == [ESC, ESC] {
        assert a[..1] == [ESC] && !IsComplete(a[..1]);
        assert IsComplete(a[..2]);
      }
    }
  }

  function After(done: Extracted, chunk: Text): Extracted {
    var e := Extract(done.remainder + chunk);
    Extracted(done.sequences + e.sequences, e.remainder)
  }

  /** What has been emitted and what waits after some chunks. */
  function Fed(chunks: seq<Text>): Extracted {
    if chunks == [] then Extracted([], []) else After(Fed(chunks[..|chunks| - 1]), chunks[|chunks| - 1])
  }

  /** Apart from the one exception, more input leaves the first sequence as it is. */
  lemma {:induction false} GrowStep(a: Text, b: Text)
    requires a != [] && b != [] && FirstSequence(a).Some? && !(a == [ESC, ESC] && IsIntroducer(b[0]))
    ensures var n, rest := FirstSequence(a).value, Extract(a[FirstSequence(a).value..] + b);
            Extract(a + b) == Extracted([a[..n]] + rest.sequences, rest.remainder)
  {
    var n := FirstSequence(a).value;
    FirstSequenceGrows(a, b);
    ExtractStep(a + b);
    assert (a + b)[..n] == a[..n] && (a + b)[n..] == a[n..] + b;
  }

  lemma {:induction false} DoubleEscape(b: Text)
    requires b != [] && IsIntroducer(b[0])
    ensures Extract([ESC, ESC]) == Extracted([[ESC, ESC]], [])
    ensures Extract([ESC, ESC] + b).sequences != [] && Extract([ESC, ESC] + b).sequences[0] == [ESC]
  {
    var s := [ESC, ESC];
    assert s[..1] == [ESC] && s[..2] == s;
    assert !IsComplete(s[..1]) && IsComplete(s[..2]);
    assert SequenceEnd(s, 2) == 2;
    assert SequenceEnd(s, 1) == 2;
    assert FirstSequence(s) == Some(2);
    assert s[2..] == [];
    ExtractStep(s);
    FirstSequenceGrows(s, b);
    ExtractStep(s + b);
    assert (s + b)[..1] == [ESC];
  }

  /** Splitting in two goes wrong exactly if an introducer follows an emitted ESC ESC. */
  lemma {:induction false} TwoChunks(a: Text, b: Text)
    requires b != []
    ensures Extract(a + b) == After(Extract(a), b) <==> !SplitsEscape(Extract(a), b)
    decreases |a|
  {
    if a == [] {
      assert a + b == b && [] + Extract(b).sequences == Extract(b).sequences;
    } else if FirstSequence(a).None? {
      assert [] + Extract(a + b).sequences == Extract(a + b).sequences;
    } else if a == [ESC, ESC] && IsIntroducer(b[0]) {
      DoubleEscape(b);
      assert After(Extract(a), b).sequences[0] == [ESC, ESC];
    } else {
      var n := FirstSequence(a).value;
      TwoChunks(a[n..], b);
      GrowStep(a, b);
      ExtractStep(a);
      LastOfStep(a);
      Prepended(a[..n], Extract(a[n..] + b), Extract(a[n..]), After(Extract(a[n..]), b), b);
    }
  }

  /** The last emitted sequence of a is that of the rest, unless a is one sequence. */
  lemma {:induction false} LastOfStep(a: Text)
    requires a != [] && FirstSequence(a).Some?
    ensures var n := FirstSequence(a).value;
            var done, rest := Extract(a), Extract(a[n..]);
            if n == |a| then done == Extracted([a], [])
            else done.remainder == rest.remainder
                 && (rest.remainder == [] ==>
                     rest.sequences != []
                       && done.sequences[|done.sequences| - 1] == rest.sequences[|rest.sequences| - 1])
  {
    var n := FirstSequence(a).value;
    ExtractConserves(a[n..]);
    if n == |a| { assert a[..n] == a; }
  }

  lemma {:induction false} Prepended(q: Text, whole: Extracted, done: Extracted, after: Extracted, b: Text)
    requires after == After(done, b)
    ensures whole == after
            <==> Extracted([q] + whole.sequences, whole.remainder)
                 == After(Extracted([q] + done.sequences, done.remainder), b)
  {
    var e := Extract(done.remainder + b);
    assert [q] + done.sequences + e.sequences == [q] + (done.sequences + e.sequences);
    if [q] + whole.sequences == [q] + after.sequences {
      assert ([q] + whole.sequences)[1..] == whole.sequences && ([q] + after.sequences)[1..] == after.sequences;
    }
  }

  // ----- any number of chunks

  predicate NonEmpty(chunks: seq<Text>) { forall i | 0 <= i < |chunks| :: chunks[i] != [] }

  /** No chunk begins with an introducer right after an emitted ESC ESC. */
  ghost predicate Clean(chunks: seq<Text>) {
    chunks != [] ==>
      var init := chunks[..|chunks| - 1];
      Clean(init) && !SplitsEscape(Fed(init), chunks[|chunks| - 1])
  }

  /** An emitted sequence other than ESC ESC stays emitted, whatever follows. */
  lemma {:induction false} ExtractKeeps(a: Text, b: Text, m: nat)
    requires b != [] && m < |Extract(a).sequences| && Extract(a).sequences[m] != [ESC, ESC]
    ensures m < |Extract(a + b).sequences|
    ensures forall k | 0 <= k <= m :: Extract(a + b).sequences[k] == Extract(a).sequences[k]
    decreases |a|
  {
    if a == [ESC, ESC] && IsIntroducer(b[0]) { DoubleEscape(b); }
    ExtractStep(a);
    GrowStep(a, b);
    if m > 0 { ExtractKeeps(a[FirstSequence(a).value..], b, m - 1); }
  }

  /** Where an introducer follows an emitted ESC ESC, the whole text has a lone ESC instead. */
  lemma {:induction false} LoneEscape(a: Text, b: Text)
    requires SplitsEscape(Extract(a), b)
    ensures var m := |Extract(a).sequences| - 1;
            && m < |Extract(a + b).sequences| && Extract(a + b).sequences[m] == [ESC]
            && forall k | 0 <= k < m :: Extract(a + b).sequences[k] == Extract(a).sequences[k]
    decreases |a|
  {
    if a == [ESC, ESC] {
      DoubleEscape(b);
    } else {
      ExtractStep(a);
      LastOfStep(a);
      GrowStep(a, b);
      LoneEscape(a[FirstSequence(a).value..], b);
    }
  }

  /** Once the chunks have split an escape, they have an ESC ESC where the whole text has a lone ESC. */
  lemma {:induction false} StaysSplit(chunks: seq<Text>) returns (m: nat)
    requires !Clean(chunks) && NonEmpty(chunks)
    ensures m < |Fed(chunks).sequences| && Fed(chunks).sequences[m] == [ESC, ESC]
    ensures m < |Extract(Flatten(chunks)).sequences| && Extract(Flatten(chunks)).sequences[m] == [ESC]
    ensures forall k | 0 <= k < m :: Fed(chunks).sequences[k] == Extract(Flatten(chunks)).sequences[k]
    decreases |chunks|, 0
  {
    var init, last := chunks[..|chunks| - 1], chunks[|chunks| - 1];
    if !Clean(init) {
      m := StaysSplit(init);
      ExtractKeeps(Flatten(init), last, m);
    } else {
      ChunksDoNotMatter(init);
      m := |Fed(init).sequences| - 1;
      LoneEscape(Flatten(init), last);
    }
  }

  /**
   * What is emitted depends on the text alone, if and only if no chunk begins with an introducer after an emitted ESC
   * ESC.
   */
  lemma {:induction false} ChunksDoNotMatter(chunks: seq<Text>)
    requires NonEmpty(chunks)
    ensures Fed(chunks) == Extract(Flatten(chunks)) <==> Clean(chunks)
    decreases |chunks|, 1
  {
    if !Clean(chunks) {
      var m := StaysSplit(chunks);
    } else if chunks != [] {
      ChunksDoNotMatter(chunks[..|chunks| - 1]);
      TwoChunks(Flatten(chunks[..|chunks| - 1]), chunks[|chunks| - 1]);
    }
  }

  // ----- what listeners get

  datatype Event = Data(sequence: Text) | Paste(content: Text)

  function Value(digits: Text): nat
    requires forall i | 0 <= i < |digits| :: IsDigit(digits[i])
  {
    if digits == [] then 0
    else
      assert IsDigit(digits[|digits| - 1]);
      Value(digits[..|digits| - 1]) * 10 + (digits[|digits| - 1] - '0' as int)
  }

  lemma {:induction false} DigitsEndAll(s: Text, i: nat)
    requires i <= |s|
    ensures forall k | i <= k < DigitsEnd(s, i) :: IsDigit(s[k])
    decreases |s| - i
  {
    if i < |s| && IsDigit(s[i]) { DigitsEndAll(s, i + 1); }
  }

  /** `digits`, perhaps `:digits` with or without digits, perhaps `:digits`, and a final u. */
  predicate IsKittyReport(s: Text) {
    && |s| >= 4 && s[0] == ESC && s[1] == '[' as int && s[|s| - 1] == 'u' as int
    && var last, end := |s| - 1, DigitsEnd(s, 2);
       && end > 2
       && (end == last
           || (end < last && s[end] == ':' as int
               && var second := DigitsEnd(s, end + 1);
                  second == last
                    || (second < last && s[second] == ':' as int && DigitsEnd(s, second + 1) == last
                      && second + 1 < last)))
  }

  /** parseUnmodifiedKittyPrintableCodepoint. */
  function KittyPrintable(s: Text): (codepoint: Option<nat>)
    ensures |s| < 4 ==> codepoint == None
    ensures codepoint.Some? ==> codepoint.value >= 32
  {
    if !IsKittyReport(s) then None
    else
      DigitsEndAll(s, 2);
      var codepoint := Value(s[2..DigitsEnd(s, 2)]);
      if codepoint >= 32 then Some(codepoint) else None
  }

  datatype Delivered = Delivered(pending: Option<nat>, events: seq<Event>)

  /** emitDataSequence: a character that a Kitty report has just announced is not emitted again. */
  function Deliver(d: Delivered, sequence: Text): Delivered {
    if |sequence| == 1 && d.pending == Some(sequence[0]) then Delivered(None, d.events)
    else Delivered(KittyPrintable(sequence), d.events + [Data(sequence)])
  }

  function DeliverAll(d: Delivered, sequences: seq<Text>): Delivered {
    if sequences == [] then d else Deliver(DeliverAll(d, sequences[..|sequences| - 1]), sequences[|sequences| - 1])
  }

  lemma {:induction false} DeliverMore(d: Delivered, a: seq<Text>, b: seq<Text>)
    ensures DeliverAll(d, a + b) == DeliverAll(DeliverAll(d, a), b)
  {
    if b == [] {
      assert a + b == a;
    } else {
      var n := |b| - 1;
      DeliverMore(d, a, b[..n]);
      assert (a + b)[..|a + b| - 1] == a + b[..n];
    }
  }

  /** The sequence at i is the character that the report before it stands for. */
  predicate IsEcho(sequences: seq<Text>, i: nat)
    requires i < |sequences|
  {
    i > 0 && |sequences[i]| == 1 && KittyPrintable(sequences[i - 1]) == Some(sequences[i][0])
  }

  function WithoutEchoes(sequences: seq<Text>, n: nat): seq<Event>
    requires n <= |sequences|
  {
    if n == 0 then []
    else WithoutEchoes(sequences, n - 1) + if IsEcho(sequences, n - 1) then [] else [Data(sequences[n - 1])]
  }

  lemma {:induction false} DeliverNext(d: Delivered, sequences: seq<Text>, n: nat)
    requires n < |sequences|
    ensures DeliverAll(d, sequences[..n + 1]) == Deliver(DeliverAll(d, sequences[..n]), sequences[n])
  {
    assert sequences[..n + 1][..n] == sequences[..n];
  }

  lemma {:induction false} EchoOrNot(sequences: seq<Text>, n: nat, d: Delivered)
    requires n < |sequences| && d.pending == if n == 0 then None else KittyPrintable(sequences[n - 1])
    ensures Deliver(d, sequences[n])
         == Delivered(KittyPrintable(sequences[n]), d.events
           + if IsEcho(sequences, n) then [] else [Data(sequences[n])])
  {
    assert d.events + [] == d.events;
  }

  /** What the first n sequences lead to. */
  ghost predicate DeliveredUpTo(sequences: seq<Text>, n: nat)
    requires n <= |sequences|
  {
    DeliverAll(Delivered(None, []), sequences[..n])
    == Delivered(if n == 0 then None else KittyPrintable(sequences[n - 1]), WithoutEchoes(sequences, n))
  }

  lemma {:induction false} DeliveredNext(sequences: seq<Text>, n: nat)
    requires n < |sequences| && DeliveredUpTo(sequences, n)
    ensures DeliveredUpTo(sequences, n + 1)
  {
    DeliverNext(Delivered(None, []), sequences, n);
    EchoOrNot(sequences, n, DeliverAll(Delivered(None, []), sequences[..n]));
  }

  /** The listeners get every sequence but the echoes. */
  lemma {:induction false} DeliversAllButEchoes(sequences: seq<Text>, n: nat)
    requires n <= |sequences|
    ensures DeliveredUpTo(sequences, n)
  {
    if n == 0 {
      assert sequences[..0] == [];
    } else {
      DeliversAllButEchoes(sequences, n - 1);
      DeliveredNext(sequences, n - 1);
    }
  }

  // ----- process

  const PASTE_START: Text := [ESC, '[' as int, '2' as int, '0' as int, '0' as int, '~' as int]
  const PASTE_END: Text := [ESC, '[' as int, '2' as int, '0' as int, '1' as int, '~' as int]

  predicate OccursAt(s: Text, mark: Text, i: int) {
    0 <= i && i + |mark| <= |s| && s[i..i + |mark|] == mark
  }

  function IndexOfMarkFrom(s: Text, mark: Text, i: nat): (index: int)
    requires i <= |s|
    ensures index == -1 || (i <= index && OccursAt(s, mark, index))
    ensures forall k | i <= k < (if index == -1 then |s| + 1 else index) :: !OccursAt(s, mark, k)
    decreases |s| - i
  {
    if OccursAt(s, mark, i) then i
    else if i == |s| then -1
    else IndexOfMarkFrom(s, mark, i + 1)
  }

  function IndexOfMark(s: Text, mark: Text): (index: int)
    ensures index == -1 || OccursAt(s, mark, index)
    ensures forall k | 0 <= k < (if index == -1 then |s| + 1 else index) :: !OccursAt(s, mark, k)
  {
    IndexOfMarkFrom(s, mark, 0)
  }

  datatype State = State(buffer: Text, pasteMode: bool, pasteBuffer: Text, pending: Option<nat>)

  datatype Outcome = Outcome(state: State, events: seq<Event>)

  /** What one chunk leads to. */
  function Processed(st: State, str: Text): Outcome
    decreases |st.buffer| + |st.pasteBuffer| + |str|, 2
  {
    var buffer := st.buffer + str;
    if buffer == [] then
      var d := Deliver(Delivered(st.pending, []), []);
      Outcome(st.(pending := d.pending), d.events)
    else if st.pasteMode then
      Pasting(st.pasteBuffer + buffer, st.pending)
    else if IndexOfMark(buffer, PASTE_START) == -1 then
      Plain(buffer, st.pasteBuffer, st.pending)
    else
      Opening(buffer, IndexOfMark(buffer, PASTE_START), st.pending)
  }

  /** Input in which no paste starts. */
  function Plain(buffer: Text, pasteBuffer: Text, pending: Option<nat>): Outcome {
    var e := Extract(buffer);
    var d := DeliverAll(Delivered(pending, []), e.sequences);
    Outcome(State(e.remainder, false, pasteBuffer, d.pending), d.events)
  }

  /** Input in which a paste starts. */
  function Opening(buffer: Text, start: int, pending: Option<nat>): Outcome
    requires 0 <= start && start + |PASTE_START| <= |buffer|
    decreases |buffer|, 1
  {
    var before := DeliverAll(Delivered(pending, []), Extract(buffer[..start]).sequences);
    var pasting := Pasting(buffer[start + |PASTE_START|..], None);
    Outcome(pasting.state, before.events + pasting.events)
  }

  /** What happens when this much of a paste has come. */
  function Pasting(pasteBuffer: Text, pending: Option<nat>): Outcome
    decreases |pasteBuffer|, 0
  {
    var end := IndexOfMark(pasteBuffer, PASTE_END);
    if end == -1 then Outcome(State([], true, pasteBuffer, pending), [])
    else
      var remaining := pasteBuffer[end + |PASTE_END|..];
      var idle := State([], false, [], None);
      if remaining == [] then Outcome(idle, [Paste(pasteBuffer[..end])])
      else
        var rest := Processed(idle, remaining);
        Outcome(rest.state, [Paste(pasteBuffer[..end])] + rest.events)
  }

  function ProcessedAll(st: State, chunks: seq<Text>): Outcome {
    if chunks == [] then Outcome(st, [])
    else
      var before := ProcessedAll(st, chunks[..|chunks| - 1]);
      var last := Processed(before.state, chunks[|chunks| - 1]);
      Outcome(last.state, before.events + last.events)
  }

  // ----- text without pastes

  lemma {:induction false} FedConserves(chunks: seq<Text>)
    ensures Flatten(Fed(chunks).sequences) + Fed(chunks).remainder == Flatten(chunks)
  {
    if chunks != [] {
      var done, last := Fed(chunks[..|chunks| - 1]), chunks[|chunks| - 1];
      var e := Extract(done.remainder + last);
      FedConserves(chunks[..|chunks| - 1]);
      ExtractConserves(done.remainder + last);
      FlattenConcat(done.sequences, e.sequences);
      Assoc(Flatten(done.sequences), Flatten(e.sequences), e.remainder);
      Assoc(Flatten(done.sequences), done.remainder, last);
    }
  }

  lemma {:induction false} OccursInPart(a: Text, b: Text, mark: Text, k: int)
    ensures OccursAt(b, mark, k) ==> OccursAt(a + b, mark, |a| + k)
    ensures OccursAt(a, mark, k) ==> OccursAt(a + b, mark, k)
  {
    if OccursAt(b, mark, k) {
      var x := (a + b)[|a| + k..|a| + k + |mark|];
      forall i | 0 <= i < |mark| ensures x[i] == mark[i] { assert x[i] == (a + b)[|a| + k + i] == b[k + i]; }
    }
    if OccursAt(a, mark, k) {
      assert (a + b)[k..k + |mark|] == a[k..k + |mark|];
    }
  }

  lemma {:induction false} NoMarkInPart(a: Text, b: Text, mark: Text)
    requires IndexOfMark(a + b, mark) == -1
    ensures IndexOfMark(b, mark) == -1 && IndexOfMark(a, mark) == -1
  {
    OccursInPart(a, b, mark, IndexOfMark(b, mark));
    OccursInPart(a, b, mark, IndexOfMark(a, mark));
  }

  const START: State := State([], false, [], None)

  /** Without pastes the chunks are split and the sequences delivered. */
  lemma {:induction false} ProcessesPlain(chunks: seq<Text>)
    requires NonEmpty(chunks) && IndexOfMark(Flatten(chunks), PASTE_START) == -1
    ensures var d := DeliverAll(Delivered(None, []), Fed(chunks).sequences);
            ProcessedAll(START, chunks) == Outcome(State(Fed(chunks).remainder, false, [], d.pending), d.events)
  {
    if chunks != [] {
      var init, last := chunks[..|chunks| - 1], chunks[|chunks| - 1];
      NoMarkInPart(Flatten(init), last, PASTE_START);
      ProcessesPlain(init);
      FedConserves(init);
      var done := Fed(init);
      Assoc(Flatten(done.sequences), done.remainder, last);
      NoMarkInPart(Flatten(done.sequences), done.remainder + last, PASTE_START);
      PlainChunk(done, last, DeliverAll(Delivered(None, []), done.sequences), Extract(done.remainder + last));
    }
  }

  /** One more chunk without a paste. */
  lemma {:induction false} PlainChunk(done: Extracted, last: Text, d: Delivered, e: Extracted)
    requires last != [] && IndexOfMark(done.remainder + last, PASTE_START) == -1
    requires d == DeliverAll(Delivered(None, []), done.sequences) && e == Extract(done.remainder + last)
    ensures var all, next := DeliverAll(Delivered(None, []), done.sequences + e.sequences),
        Processed(State(done.remainder, false, [], d.pending), last);
            next.state == State(e.remainder, false, [], all.pending) && d.events + next.events == all.events
  {
    DeliverMore(Delivered(None, []), done.sequences, e.sequences);
    DeliverAppends(d.pending, d.events, e.sequences);
  }

  lemma {:induction false} DeliverAppends(pending: Option<nat>, events: seq<Event>, sequences: seq<Text>)
    ensures var d := DeliverAll(Delivered(pending, []), sequences);
            DeliverAll(Delivered(pending, events), sequences) == Delivered(d.pending, events + d.events)
  {
    if sequences == [] {
      assert events + [] == events;
    } else {
      DeliverAppends(pending, events, sequences[..|sequences| - 1]);
    }
  }

  lemma {:induction false} CleanInput(chunks: seq<Text>)
    requires NonEmpty(chunks) && IndexOfMark(Flatten(chunks), PASTE_START) == -1 && Clean(chunks)
    ensures var whole, all := Extract(Flatten(chunks)), ProcessedAll(START, chunks);
            all.events == WithoutEchoes(whole.sequences, |whole.sequences|) && all.state.buffer == whole.remainder
  {
    ChunksDoNotMatter(chunks);
    ProcessesPlain(chunks);
    var sequences := Fed(chunks).sequences;
    assert sequences[..|sequences|] == sequences;
    DeliversAllButEchoes(sequences, |sequences|);
  }

  /** Otherwise they get something else: an ESC ESC in place of a lone ESC. */
  lemma {:induction false} SplitEscapeIsSeen(chunks: seq<Text>)
    requires NonEmpty(chunks) && IndexOfMark(Flatten(chunks), PASTE_START) == -1 && !Clean(chunks)
    ensures var whole := Extract(Flatten(chunks)).sequences;
            ProcessedAll(START, chunks).events != WithoutEchoes(whole, |whole|)
  {
    ProcessesPlain(chunks);
    var m := FirstSplit(chunks);
    var fed, whole := Fed(chunks).sequences, Extract(Flatten(chunks)).sequences;
    assert fed[..|fed|] == fed;
    DeliversAllButEchoes(fed, |fed|);
    SamePrefix(fed, whole, m);
    EscapeAt(fed, m, [ESC, ESC]);
    EscapeAt(whole, m, [ESC]);
    assert WithoutEchoes(fed, |fed|)[|WithoutEchoes(fed, m)|] != WithoutEchoes(whole,
                                                                               |whole|)[|WithoutEchoes(whole, m)|];
  }

  /** An escape is no echo, so it is among the events, behind those of the sequences before it. */
  lemma {:induction false} EscapeAt(sequences: seq<Text>, m: nat, escape: Text)
    requires m < |sequences| && sequences[m] == escape && (escape == [ESC] || escape == [ESC, ESC])
    ensures |WithoutEchoes(sequences, m)| < |WithoutEchoes(sequences, |sequences|)|
    ensures WithoutEchoes(sequences, |sequences|)[|WithoutEchoes(sequences, m)|] == Data(escape)
  {
    assert WithoutEchoes(sequences, m + 1) == WithoutEchoes(sequences, m) + [Data(escape)];
    EventsKeep(sequences, m + 1, |sequences|);
  }

  /**
   * For input without pastes the listeners get what the whole text says, its sequences but the echoes, if and only
   * if no chunk begins with an introducer after an emitted ESC ESC.
   */
  lemma {:induction false} InputDependsOnTextAlone(chunks: seq<Text>)
    requires NonEmpty(chunks) && IndexOfMark(Flatten(chunks), PASTE_START) == -1
    ensures var whole := Extract(Flatten(chunks)).sequences;
            ProcessedAll(START, chunks).events == WithoutEchoes(whole, |whole|) <==> Clean(chunks)
  {
    if Clean(chunks) { CleanInput(chunks); } else { SplitEscapeIsSeen(chunks); }
  }

  /** The first place where the chunks have an ESC ESC and the whole text a lone ESC. */
  lemma {:induction false} FirstSplit(chunks: seq<Text>) returns (m: nat)
    requires !Clean(chunks) && NonEmpty(chunks)
    ensures m < |Fed(chunks).sequences| && Fed(chunks).sequences[m] == [ESC, ESC]
    ensures m < |Extract(Flatten(chunks)).sequences| && Extract(Flatten(chunks)).sequences[m] == [ESC]
    ensures Fed(chunks).sequences[..m] == Extract(Flatten(chunks)).sequences[..m]
  {
    m := StaysSplit(chunks);
    var a, b := Fed(chunks).sequences, Extract(Flatten(chunks)).sequences;
    assert a[..m] == b[..m];
  }

  lemma {:induction false} SamePrefix(a: seq<Text>, b: seq<Text>, n: nat)
    requires n <= |a| && n <= |b| && a[..n] == b[..n]
    ensures WithoutEchoes(a, n) == WithoutEchoes(b, n)
  {
    if n > 0 {
      assert a[..n][n - 1] == b[..n][n - 1] && (n > 1 ==> a[..n][n - 2] == b[..n][n - 2]);
      assert a[..n - 1] == a[..n][..n - 1] && b[..n - 1] == b[..n][..n - 1];
      SamePrefix(a, b, n - 1);
    }
  }

  lemma {:induction false} EventsKeep(sequences: seq<Text>, k: nat, n: nat)
    requires k <= n <= |sequences|
    ensures WithoutEchoes(sequences, k) <= WithoutEchoes(sequences, n)
    decreases n
  {
    if k < n { EventsKeep(sequences, k, n - 1); }
  }

  // ----- pastes

  /** While a paste is open chunks only add up. */
  lemma {:induction false} PasteMerges(st: State, a: Text, b: Text)
    requires st.pasteMode && st.buffer == [] && a != [] && b != [] && IndexOfMark(st.pasteBuffer + a, PASTE_END) == -1
    ensures Processed(st, a) == Outcome(st.(pasteBuffer := st.pasteBuffer + a), [])
    ensures Processed(Processed(st, a).state, b) == Processed(st, a + b)
  {
    assert [] + a == a && [] + b == b && [] + (a + b) == a + b;
    assert st.pasteBuffer + a + b == st.pasteBuffer + (a + b);
  }

  lemma {:induction false} FlattenNonEmpty(chunks: seq<Text>)
    requires NonEmpty(chunks) && chunks != []
    ensures Flatten(chunks) != []
  {
  }

  /** However an open paste is cut into chunks, up to the one that brings its end they act as one chunk. */
  lemma {:induction false} PasteIsOneChunk(st: State, chunks: seq<Text>)
    requires st.pasteMode && st.buffer == [] && NonEmpty(chunks) && chunks != []
    requires IndexOfMark(st.pasteBuffer + Flatten(chunks[..|chunks| - 1]), PASTE_END) == -1
    ensures ProcessedAll(st, chunks) == Processed(st, Flatten(chunks))
    decreases |chunks|
  {
    var init, last := chunks[..|chunks| - 1], chunks[|chunks| - 1];
    if init == [] {
      assert [] + last == last && chunks[..0] == [];
      assert [] + Processed(st, last).events == Processed(st, last).events;
    } else {
      var before := Flatten(init[..|init| - 1]);
      Assoc(st.pasteBuffer, before, init[|init| - 1]);
      NoMarkInPart(st.pasteBuffer + before, init[|init| - 1], PASTE_END);
      PasteIsOneChunk(st, init);
      FlattenNonEmpty(init);
      PasteMerges(st, Flatten(init), last);
      assert [] + Processed(ProcessedAll(st, init).state, last).events
        == Processed(ProcessedAll(st, init).state, last).events;
    }
  }

  /**
   * Once a paste is open, everything up to the first end mark is delivered verbatim in one event, for any chunks;
   * until that mark has come there is no event, and what follows it is processed as if it had come alone.
   */
  lemma {:induction false} PasteIsVerbatim(st: State, chunks: seq<Text>)
    requires st.pasteMode && st.buffer == [] && NonEmpty(chunks) && chunks != []
    requires IndexOfMark(st.pasteBuffer + Flatten(chunks[..|chunks| - 1]), PASTE_END) == -1
    ensures var all, outcome := st.pasteBuffer + Flatten(chunks), ProcessedAll(st, chunks);
            var end := IndexOfMark(all, PASTE_END);
            if end == -1 then outcome == Outcome(st.(pasteBuffer := all), [])
            else
              var rest := all[end + |PASTE_END|..];
              if rest == [] then outcome == Outcome(START, [Paste(all[..end])])
              else outcome == Outcome(Processed(START, rest).state, [Paste(all[..end])] + Processed(START, rest).events)
  {
    PasteIsOneChunk(st, chunks);
    FlattenNonEmpty(chunks);
    assert [] + Flatten(chunks) == Flatten(chunks);
  }

  /** When a paste starts, what came before it is emitted, except a sequence that is not complete: that is lost. */
  lemma {:induction false} PasteOpens(st: State, str: Text)
    requires !st.pasteMode && IndexOfMark(st.buffer + str, PASTE_START) != -1
    ensures var all := st.buffer + str;
            var start := IndexOfMark(all, PASTE_START);
            var before, pasting := Extract(all[..start]), Pasting(all[start + |PASTE_START|..], None);
            && Flatten(before.sequences) + before.remainder == all[..start]
            && Processed(st, str)
              == Outcome(pasting.state, DeliverAll(Delivered(st.pending, []), before.sequences).events + pasting.events)
  {
    var all := st.buffer + str;
    ExtractConserves(all[..IndexOfMark(all, PASTE_START)]);
  }

  // ----- the buffer

  /** The inner loop: the shortest complete sequence, or past the end. */
  method FindSequenceEnd(remaining: Text) returns (seqEnd: nat)
    requires remaining != [] && remaining[0] == ESC
    ensures seqEnd == SequenceEnd(remaining, 1)
  {
    seqEnd := 1;
    while seqEnd <= |remaining| && !IsComplete(remaining[..seqEnd])
      invariant 1 <= seqEnd <= |remaining| + 1 && SequenceEnd(remaining, seqEnd) == SequenceEnd(remaining, 1)
    {
      seqEnd := seqEnd + 1;
    }
  }

  ghost predicate Extracting(buffer: Text, sequences: seq<Text>, pos: nat) {
    pos <= |buffer|
    && var rest := Extract(buffer[pos..]);
       Extract(buffer) == Extracted(sequences + rest.sequences, rest.remainder)
  }

  /** What comes first where an escape begins; past the end if it is not complete. */
  method NextSequence(remaining: Text) returns (seqEnd: nat, candidate: Text)
    requires remaining != [] && remaining[0] == ESC
    ensures FirstSequence(remaining) == if seqEnd > |remaining| then None else Some(seqEnd)
    ensures seqEnd <= |remaining| ==> candidate == remaining[..seqEnd]
  {
    seqEnd := FindSequenceEnd(remaining);
    candidate := [];
    if seqEnd <= |remaining| {
      candidate := remaining[..seqEnd];
      if candidate == [ESC, ESC] && seqEnd < |remaining| && IsIntroducer(remaining[seqEnd]) {
        seqEnd, candidate := 1, [ESC];
      }
    }
  }

  /** One turn of the outer loop. */
  method TakeFirst(remaining: Text) returns (n: nat, sequence: Text)
    requires remaining != []
    ensures FirstSequence(remaining) == if n > |remaining| then None else Some(n)
    ensures n <= |remaining| ==> sequence == remaining[..n]
  {
    if remaining[0] == ESC {
      n, sequence := NextSequence(remaining);
    } else {
      n, sequence := 1, [remaining[0]];
    }
  }

  method ExtractCompleteSequences(buffer: Text) returns (e: Extracted)
    ensures e == Extract(buffer)
  {
    var sequences: seq<Text>, pos := [], 0;
    NothingTaken(buffer);
    while pos < |buffer|
      invariant 0 <= pos && Extracting(buffer, sequences, pos)
      decreases |buffer| - pos
    {
      var remaining := buffer[pos..];
      var n, sequence := TakeFirst(remaining);
      if n > |remaining| {
        Waiting(buffer, sequences, pos);
        return Extracted(sequences, remaining);
      }
      TakeSequence(buffer, sequences, pos, n, sequence);
      sequences, pos := sequences + [sequence], pos + n;
    }
    AllTaken(buffer, sequences);
    return Extracted(sequences, []);
  }

  lemma {:induction false} NothingTaken(buffer: Text)
    ensures Extracting(buffer, [], 0)
  {
    assert buffer[0..] == buffer && [] + Extract(buffer).sequences == Extract(buffer).sequences;
  }

  lemma {:induction false} Waiting(buffer: Text, sequences: seq<Text>, pos: nat)
    requires Extracting(buffer, sequences, pos) && pos < |buffer| && FirstSequence(buffer[pos..]).None?
    ensures Extract(buffer) == Extracted(sequences, buffer[pos..])
  {
    assert sequences + [] == sequences;
  }

  lemma {:induction false} AllTaken(buffer: Text, sequences: seq<Text>)
    requires Extracting(buffer, sequences, |buffer|)
    ensures Extract(buffer) == Extracted(sequences, [])
  {
    assert sequences + [] == sequences && buffer[|buffer|..] == [];
  }

  lemma {:induction false} TakeSequence(buffer: Text, sequences: seq<Text>, pos: nat, n: nat, q: Text)
    requires pos < |buffer| && Extracting(buffer, sequences, pos)
    requires FirstSequence(buffer[pos..]) == Some(n) && q == buffer[pos..][..n]
    ensures Extracting(buffer, sequences + [q], pos + n)
  {
    var remaining := buffer[pos..];
    ExtractStep(remaining);
    assert remaining[n..] == buffer[pos + n..];
    var rest := Extract(remaining[n..]);
    assert sequences + ([q] + rest.sequences) == sequences + [q] + rest.sequences;
  }

  class StdinBuffer {
    var buffer: Text
    var pasteMode: bool
    var pasteBuffer: Text
    var pendingKittyPrintableCodepoint: Option<nat>
    /** What listeners of `data` and `paste` have received. */
    var emitted: seq<Event>

    function Current(): State
      reads this
    {
      State(buffer, pasteMode, pasteBuffer, pendingKittyPrintableCodepoint)
    }

    constructor ()
      ensures Current() == START && emitted == []
    {
      buffer, pasteMode, pasteBuffer, pendingKittyPrintableCodepoint := [], false, [], None;
      emitted := [];
    }

    method EmitDataSequence(sequence: Text)
      modifies this`pendingKittyPrintableCodepoint, this`emitted
      ensures Delivered(pendingKittyPrintableCodepoint, emitted)
           == Deliver(Delivered(old(pendingKittyPrintableCodepoint), old(emitted)), sequence)
    {
      if |sequence| == 1 && pendingKittyPrintableCodepoint == Some(sequence[0]) {
        pendingKittyPrintableCodepoint := None;
        return;
      }
      pendingKittyPrintableCodepoint := KittyPrintable(sequence);
      emitted := emitted + [Data(sequence)];
    }

    method EmitAll(sequences: seq<Text>)
      modifies this`pendingKittyPrintableCodepoint, this`emitted
      ensures var d := DeliverAll(Delivered(old(pendingKittyPrintableCodepoint), []), sequences);
              pendingKittyPrintableCodepoint == d.pending && emitted == old(emitted) + d.events
    {
      DeliverAppends(pendingKittyPrintableCodepoint, emitted, sequences);
      var k := 0;
      while k < |sequences|
        invariant 0 <= k <= |sequences|
        invariant Delivered(pendingKittyPrintableCodepoint, emitted)
               == DeliverAll(Delivered(old(pendingKittyPrintableCodepoint), old(emitted)), sequences[..k])
      {
        EmitDataSequence(sequences[k]);
        assert sequences[..k + 1][..k] == sequences[..k];
        k := k + 1;
      }
      assert sequences[..k] == sequences;
    }

    /** process, without the timeout and for decoded text. */
    method Process(str: Text)
      modifies this
      ensures var o := Processed(old(Current()), str);
              Current() == o.state && emitted == old(emitted) + o.events
      decreases |buffer| + |pasteBuffer| + |str|, 2
    {
      if |str| == 0 && |buffer| == 0 {
        EmitDataSequence([]);
        return;
      }
      buffer := buffer + str;
      if pasteMode {
        pasteBuffer, buffer := pasteBuffer + buffer, [];
        ReadPaste();
        return;
      }
      var startIndex := IndexOfMark(buffer, PASTE_START);
      if startIndex != -1 {
        OpenPaste(startIndex);
        return;
      }
      var result := ExtractCompleteSequences(buffer);
      buffer := result.remainder;
      EmitAll(result.sequences);
    }

    method OpenPaste(startIndex: int)
      requires !pasteMode && 0 <= startIndex && startIndex + |PASTE_START| <= |buffer|
      modifies this
      ensures var o := Opening(old(buffer), startIndex, old(pendingKittyPrintableCodepoint));
              Current() == o.state && emitted == old(emitted) + o.events
      decreases |buffer|, 1
    {
      ghost var sent, pending, all := emitted, pendingKittyPrintableCodepoint, buffer;
      var before := ExtractCompleteSequences(buffer[..startIndex]);
      EmitAll(before.sequences);
      pendingKittyPrintableCodepoint := None;
      pasteMode, pasteBuffer, buffer := true, buffer[startIndex + |PASTE_START|..], [];
      ReadPaste();
      Assoc(sent, DeliverAll(Delivered(pending, []), before.sequences).events,
            Pasting(all[startIndex + |PASTE_START|..], None).events);
    }

    /** The part of process that both paste branches share: deliver the paste once its end has come. */
    method ReadPaste()
      requires pasteMode && buffer == []
      modifies this
      ensures var o := Pasting(old(pasteBuffer), old(pendingKittyPrintableCodepoint));
              Current() == o.state && emitted == old(emitted) + o.events
      decreases |pasteBuffer|, 0
    {
      var endIndex := IndexOfMark(pasteBuffer, PASTE_END);
      if endIndex != -1 {
        var pastedContent, remaining := pasteBuffer[..endIndex], pasteBuffer[endIndex + |PASTE_END|..];
        pasteMode, pasteBuffer := false, [];
        pendingKittyPrintableCodepoint := None;
        ghost var before := emitted;
        emitted := emitted + [Paste(pastedContent)];
        if |remaining| > 0 {
          Process(remaining);
          assert before + [Paste(pastedContent)] + Processed(START, remaining).events
              == before + ([Paste(pastedContent)] + Processed(START, remaining).events);
        }
      }
    }

    /** flush: what the timeout hands out, complete or not. */
    method Flush() returns (sequences: seq<Text>)
      modifies this
      ensures Flatten(sequences) == old(buffer) && buffer == [] && emitted == old(emitted)
      ensures pasteMode == old(pasteMode) && pasteBuffer == old(pasteBuffer)
      ensures pendingKittyPrintableCodepoint == if old(buffer) == [] then old(pendingKittyPrintableCodepoint) else None
    {
      if |buffer| == 0 { return []; }
      sequences := [buffer];
      FlattenOne(buffer);
      buffer, pendingKittyPrintableCodepoint := [], None;
    }
  }
}
