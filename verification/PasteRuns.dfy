/** Whole runs of input with pastes in them, however they are cut: packages/tui/src/stdin-buffer.ts. */
module PasteRuns {
  import opened Common
  import opened Utf16
  import opened InputSplitting

  // ----- chunks, by places in their text

  /** The n-th unit of the text is in this chunk. */
  ghost predicate Holds(chunks: seq<Text>, k: nat, n: nat) {
    k < |chunks| && |Flatten(chunks[..k])| < n <= |Flatten(chunks[..k + 1])|
  }

  /** The chunk that holds the n-th unit of the text. */
  function ChunkOf(chunks: seq<Text>, n: nat): (k: nat)
    requires 0 < n <= |Flatten(chunks)|
    ensures Holds(chunks, k, n)
  {
    var last := |chunks| - 1;
    if n > |Flatten(chunks[..last])| then
      assert chunks[..last + 1] == chunks;
      last
    else
      var k := ChunkOf(chunks[..last], n);
      assert chunks[..last][..k] == chunks[..k] && chunks[..last][..k + 1] == chunks[..k + 1];
      k
  }

  function Single(text: Text): seq<Text> { if text == [] then [] else [text] }

  /** The chunks without the first n units of their text. */
  function Drop(chunks: seq<Text>, n: nat): seq<Text>
    requires n <= |Flatten(chunks)|
  {
    if n == 0 then chunks
    else
      var k := ChunkOf(chunks, n);
      Single(TailOf(chunks, k, n)) + chunks[k + 1..]
  }

  function TailOf(chunks: seq<Text>, k: nat, n: nat): Text
    requires k < |chunks| && |Flatten(chunks[..k])| <= n <= |Flatten(chunks[..k + 1])|
  {
    FlattenTake(chunks, k);
    chunks[k][n - |Flatten(chunks[..k])|..]
  }

  lemma {:induction false} LongerPrefix(chunks: seq<Text>, i: nat, j: nat)
    requires i <= j <= |chunks|
    ensures |Flatten(chunks[..i])| <= |Flatten(chunks[..j])|
    decreases j
  {
    if i < j {
      LongerPrefix(chunks, i, j - 1);
      FlattenTake(chunks, j - 1);
    }
  }

  /** No other chunk holds it. */
  lemma {:induction false} OneHolds(chunks: seq<Text>, i: nat, j: nat, n: nat)
    requires Holds(chunks, i, n) && Holds(chunks, j, n)
    ensures i == j
  {
    if i < j { LongerPrefix(chunks, i + 1, j); }
    if j < i { LongerPrefix(chunks, j + 1, i); }
  }

  lemma {:induction false} FlattenSplit(chunks: seq<Text>, k: nat)
    requires k <= |chunks|
    ensures Flatten(chunks) == Flatten(chunks[..k]) + Flatten(chunks[k..])
  {
    assert chunks == chunks[..k] + chunks[k..];
    FlattenConcat(chunks[..k], chunks[k..]);
  }

  lemma {:induction false} SingleShows(text: Text)
    ensures Flatten(Single(text)) == text && NonEmpty(Single(text))
  {
    if text != [] { FlattenOne(text); }
  }

  lemma {:induction false} TailIs(before: Text, chunk: Text, rest: Text, whole: Text, n: nat)
    requires |before| <= n <= |before| + |chunk| && whole == before + chunk + rest
    ensures whole[n..] == chunk[n - |before|..] + rest
  {
  }

  lemma {:induction false} WholeIs(chunks: seq<Text>, k: nat)
    requires k < |chunks|
    ensures Flatten(chunks) == Flatten(chunks[..k]) + chunks[k] + Flatten(chunks[k + 1..])
  {
    FlattenSplit(chunks, k + 1);
    FlattenTake(chunks, k);
  }

  lemma {:induction false} SingleAnd(tail: Text, rest: seq<Text>)
    ensures Flatten(Single(tail) + rest) == tail + Flatten(rest)
    ensures NonEmpty(rest) ==> NonEmpty(Single(tail) + rest)
  {
    SingleShows(tail);
    FlattenConcat(Single(tail), rest);
  }

  lemma {:induction false} DropIs(chunks: seq<Text>, n: nat, k: nat, tail: Text)
    requires 0 < n <= |Flatten(chunks)| && Holds(chunks, k, n) && tail == TailOf(chunks, k, n) && NonEmpty(chunks)
    ensures Flatten(Single(tail) + chunks[k + 1..]) == Flatten(chunks)[n..] && NonEmpty(Single(tail) + chunks[k + 1..])
  {
    SingleAnd(tail, chunks[k + 1..]);
    WholeIs(chunks, k);
    FlattenTake(chunks, k);
    TailIs(Flatten(chunks[..k]), chunks[k], Flatten(chunks[k + 1..]), Flatten(chunks), n);
  }

  lemma {:induction false} DropShows(chunks: seq<Text>, n: nat)
    requires n <= |Flatten(chunks)| && NonEmpty(chunks)
    ensures Flatten(Drop(chunks, n)) == Flatten(chunks)[n..] && NonEmpty(Drop(chunks, n))
  {
    if n > 0 {
      var k := ChunkOf(chunks, n);
      var tail := TailOf(chunks, k, n);
      assert Drop(chunks, n) == Single(tail) + chunks[k + 1..];
      DropIs(chunks, n, k, tail);
    }
  }

  lemma {:induction false} RunNext(st: State, chunks: seq<Text>, chunk: Text)
    ensures var before := ProcessedAll(st, chunks);
            var last := Processed(before.state, chunk);
            ProcessedAll(st, chunks + [chunk]) == Outcome(last.state, before.events + last.events)
  {
    assert (chunks + [chunk])[..|chunks|] == chunks;
  }

  /** Processing some chunks and then others is processing all of them. */
  ghost predicate RunsOn(st: State, a: seq<Text>, b: seq<Text>) {
    var x := ProcessedAll(st, a);
    var y := ProcessedAll(x.state, b);
    ProcessedAll(st, a + b) == Outcome(y.state, x.events + y.events)
  }

  lemma {:induction false} RunsOnNext(st: State, a: seq<Text>, b: seq<Text>, chunk: Text, more: seq<Text>)
    requires RunsOn(st, a, b) && more == b + [chunk]
    ensures RunsOn(st, a, more)
  {
    var x := ProcessedAll(st, a);
    var y := ProcessedAll(x.state, b);
    RunNext(st, a + b, chunk);
    RunNext(x.state, b, chunk);
    Assoc(a, b, [chunk]);
    Assoc(x.events, y.events, Processed(y.state, chunk).events);
  }

  lemma {:induction false} RunConcat(st: State, a: seq<Text>, b: seq<Text>)
    ensures RunsOn(st, a, b)
  {
    if b == [] {
      assert a + b == a && ProcessedAll(st, a).events + [] == ProcessedAll(st, a).events;
    } else {
      var n := |b| - 1;
      RunConcat(st, a, b[..n]);
      RunsOnNext(st, a, b[..n], b[n], b);
    }
  }

  lemma {:induction false} RunOne(st: State, text: Text)
    ensures ProcessedAll(st, [text]) == Processed(st, text)
  {
    var o := Processed(st, text);
    assert [text][..0] == [] && [] + o.events == o.events;
  }

  // ----- where a mark is found

  lemma {:induction false} OccursInPrefix(whole: Text, n: nat, mark: Text, i: int)
    requires n <= |whole| && i + |mark| <= n
    ensures OccursAt(whole[..n], mark, i) <==> OccursAt(whole, mark, i)
  {
    if 0 <= i { assert whole[..n][i..i + |mark|] == whole[i..i + |mark|]; }
  }

  lemma {:induction false} OccursInSuffix(whole: Text, n: nat, mark: Text, i: nat)
    requires n <= |whole|
    ensures OccursAt(whole[n..], mark, i) <==> OccursAt(whole, mark, n + i)
  {
    if n + i + |mark| <= |whole| { assert whole[n..][i..i + |mark|] == whole[n + i..n + i + |mark|]; }
  }

  /** The first mark of a text is not yet in what comes before its last unit, and in all that includes it. */
  lemma {:induction false} MarkInPrefix(whole: Text, n: nat, mark: Text)
    requires n <= |whole| && mark != []
    ensures IndexOfMark(whole[..n], mark)
         == if IndexOfMark(whole, mark) != -1 && IndexOfMark(whole, mark) + |mark| <= n then IndexOfMark(whole, mark)
           else -1
  {
    var i, j := IndexOfMark(whole, mark), IndexOfMark(whole[..n], mark);
    if i != -1 && i + |mark| <= n { OccursInPrefix(whole, n, mark, i); }
    if j != -1 { OccursInPrefix(whole, n, mark, j); }
    if j != -1 && i != -1 && i + |mark| <= n && i < j { OccursInPrefix(whole, n, mark, i); }
  }

  /** It is found behind any prefix that does not reach into it. */
  lemma {:induction false} MarkInSuffix(whole: Text, n: nat, mark: Text)
    requires mark != [] && 0 <= n <= IndexOfMark(whole, mark)
    ensures IndexOfMark(whole[n..], mark) == IndexOfMark(whole, mark) - n
  {
    var i, j := IndexOfMark(whole, mark), IndexOfMark(whole[n..], mark);
    OccursInSuffix(whole, n, mark, i - n);
    if j != -1 { OccursInSuffix(whole, n, mark, j); }
  }

  // ----- from the start of a paste on

  const PASTING: State := State([], true, [], None)

  /** A paste that opens with this much of it in the same chunk goes on as if that had come alone. */
  lemma {:induction false} PastingAlone(text: Text)
    ensures Pasting(text, None) == ProcessedAll(PASTING, Single(text))
  {
    if text == [] {
      assert IndexOfMark([], PASTE_END) == -1;
    } else {
      assert [] + text == text;
      RunOne(PASTING, text);
    }
  }

  /** What a text in one chunk leads to; no chunk if it is empty. */
  function AsOne(text: Text): Outcome { ProcessedAll(START, Single(text)) }

  /** The paste, and what comes behind it in the same text. */
  function Pasted(content: Text, rest: Outcome): Outcome { Outcome(rest.state, [Paste(content)] + rest.events) }

  lemma {:induction false} PastingIs(text: Text)
    ensures var e := IndexOfMark(text, PASTE_END);
            Pasting(text, None) == if e == -1 then Outcome(State([], true, text, None), [])
                                   else Pasted(text[..e], AsOne(text[e + |PASTE_END|..]))
  {
    var e := IndexOfMark(text, PASTE_END);
    if e != -1 {
      var remaining := text[e + |PASTE_END|..];
      if remaining == [] {
        assert [Paste(text[..e])] + [] == [Paste(text[..e])];
      } else {
        RunOne(START, remaining);
      }
    }
  }

  lemma {:induction false} PrefixNonEmpty(chunks: seq<Text>, k: nat)
    requires NonEmpty(chunks) && k <= |chunks|
    ensures NonEmpty(chunks[..k]) && NonEmpty(chunks[k..])
  {
  }

  /** An open paste in any chunks: it ends where its first end mark is, and the rest is processed from the start. */
  lemma {:induction false} PasteRun(chunks: seq<Text>)
    requires NonEmpty(chunks)
    ensures var text := Flatten(chunks);
            var e := IndexOfMark(text, PASTE_END);
            ProcessedAll(PASTING, chunks) == if e == -1 then Outcome(State([], true, text, None), [])
                                             else Pasted(text[..e], ProcessedAll(START, Drop(chunks, e + |PASTE_END|)))
  {
    var e := IndexOfMark(Flatten(chunks), PASTE_END);
    if e != -1 {
      PasteCloses(chunks, e, ChunkOf(chunks, e + |PASTE_END|));
    } else if chunks != [] {
      PasteStaysOpen(chunks);
    } else {
      NothingPasted();
    }
  }

  lemma {:induction false} NothingPasted()
    ensures ProcessedAll(PASTING, []) == Outcome(State([], true, Flatten<Unit>([]), None), [])
  {
  }

  lemma {:induction false} PasteStaysOpen(chunks: seq<Text>)
    requires NonEmpty(chunks) && chunks != [] && IndexOfMark(Flatten(chunks), PASTE_END) == -1
    ensures ProcessedAll(PASTING, chunks) == Outcome(State([], true, Flatten(chunks), None), [])
  {
    var init := Flatten(chunks[..|chunks| - 1]);
    FlattenTake(chunks, |chunks| - 1);
    assert chunks[..|chunks|] == chunks && Flatten(chunks)[..|init|] == init && [] + init == init;
    MarkInPrefix(Flatten(chunks), |init|, PASTE_END);
    PasteIsVerbatim(PASTING, chunks);
    assert [] + Flatten(chunks) == Flatten(chunks);
  }

  lemma {:induction false} PasteCloses(chunks: seq<Text>, e: nat, k: nat)
    requires NonEmpty(chunks) && e == IndexOfMark(Flatten(chunks), PASTE_END) && Holds(chunks, k, e + |PASTE_END|)
    ensures ProcessedAll(PASTING, chunks)
            == Pasted(Flatten(chunks)[..e], ProcessedAll(START, Drop(chunks, e + |PASTE_END|)))
  {
    var n, content := e + |PASTE_END|, Flatten(chunks)[..e];
    var head, tail, rest := chunks[..k + 1], TailOf(chunks, k, n), chunks[k + 1..];
    PasteClosesIn(chunks, e, k, head, tail);
    DropAt(chunks, n, k, tail);
    assert chunks == head + rest;
    PastedMore(PASTING, head, rest, chunks, content, tail, Drop(chunks, n));
  }

  /** Chunks that a paste ends in, and those that follow. */
  lemma {:induction false} PastedMore(st: State, head: seq<Text>, rest: seq<Text>, all: seq<Text>, content: Text,
                                      tail: Text, dropped: seq<Text>)
    requires all == head + rest && dropped == Single(tail) + rest
    requires ProcessedAll(st, head) == Pasted(content, AsOne(tail))
    ensures ProcessedAll(st, all) == Pasted(content, ProcessedAll(START, dropped))
  {
    var x := AsOne(tail);
    RunConcat(st, head, rest);
    RunConcat(START, Single(tail), rest);
    Assoc([Paste(content)], x.events, ProcessedAll(x.state, rest).events);
  }

  lemma {:induction false} OneChunkCloses(head: seq<Text>, upTo: Text, e: nat)
    requires NonEmpty(head) && head != [] && upTo == Flatten(head)
    requires IndexOfMark(Flatten(head[..|head| - 1]), PASTE_END) == -1 && IndexOfMark(upTo, PASTE_END) == e
    ensures ProcessedAll(PASTING, head) == Pasted(upTo[..e], AsOne(upTo[e + |PASTE_END|..]))
  {
    var before := Flatten(head[..|head| - 1]);
    assert [] + before == before && [] + upTo == upTo;
    FlattenNonEmpty(head);
    PasteIsOneChunk(PASTING, head);
    PastingIs(upTo);
  }

  /** The text up to a chunk and the text up to the one before are prefixes of the whole. */
  lemma {:induction false} UpToChunk(chunks: seq<Text>, n: nat, k: nat)
    requires 0 < n <= |Flatten(chunks)| && Holds(chunks, k, n)
    ensures Flatten(chunks[..k]) <= Flatten(chunks) && Flatten(chunks[..k + 1]) <= Flatten(chunks)
    ensures Flatten(chunks[..k + 1]) == Flatten(chunks[..k]) + chunks[k]
    ensures TailOf(chunks, k, n) == Flatten(chunks[..k + 1])[n..]
  {
    FlattenSplit(chunks, k);
    FlattenSplit(chunks, k + 1);
    FlattenTake(chunks, k);
  }

  /** A mark is found as soon as the chunk has come that holds its end, and not before. */
  lemma {:induction false} MarkUpTo(chunks: seq<Text>, mark: Text, k: nat)
    requires mark != [] && IndexOfMark(Flatten(chunks), mark) != -1
    requires Holds(chunks, k, IndexOfMark(Flatten(chunks), mark) + |mark|)
    ensures IndexOfMark(Flatten(chunks[..k]), mark) == -1
    ensures IndexOfMark(Flatten(chunks[..k + 1]), mark) == IndexOfMark(Flatten(chunks), mark)
  {
    var text, upTo, before := Flatten(chunks), Flatten(chunks[..k + 1]), Flatten(chunks[..k]);
    UpToChunk(chunks, IndexOfMark(text, mark) + |mark|, k);
    MarkInPrefix(text, |upTo|, mark);
    MarkInPrefix(text, |before|, mark);
    assert text[..|upTo|] == upTo && text[..|before|] == before;
  }

  /** The text up to that chunk, around the mark. */
  lemma {:induction false} MarkChunk(chunks: seq<Text>, mark: Text, k: nat, at: nat, upTo: Text)
    requires mark != [] && at == IndexOfMark(Flatten(chunks), mark) && Holds(chunks, k, at + |mark|)
    requires upTo == Flatten(chunks[..k + 1])
    ensures IndexOfMark(upTo, mark) == at && at + |mark| <= |upTo|
    ensures TailOf(chunks, k, at + |mark|) == upTo[at + |mark|..] && upTo[..at] == Flatten(chunks)[..at]
  {
    UpToChunk(chunks, at + |mark|, k);
    MarkUpTo(chunks, mark, k);
  }

  lemma {:induction false} DropAt(chunks: seq<Text>, n: nat, k: nat, tail: Text)
    requires 0 < n <= |Flatten(chunks)| && Holds(chunks, k, n) && tail == TailOf(chunks, k, n)
    ensures Drop(chunks, n) == Single(tail) + chunks[k + 1..]
  {
    OneHolds(chunks, k, ChunkOf(chunks, n), n);
  }

  /** The chunk that brings the end mark. */
  lemma {:induction false} PasteClosesIn(chunks: seq<Text>, e: nat, k: nat, head: seq<Text>, tail: Text)
    requires NonEmpty(chunks) && e == IndexOfMark(Flatten(chunks), PASTE_END) && Holds(chunks, k, e + |PASTE_END|)
    requires head == chunks[..k + 1] && tail == TailOf(chunks, k, e + |PASTE_END|)
    ensures ProcessedAll(PASTING, head) == Pasted(Flatten(chunks)[..e], AsOne(tail))
  {
    var upTo := Flatten(head);
    MarkChunk(chunks, PASTE_END, k, e, upTo);
    MarkUpTo(chunks, PASTE_END, k);
    assert head[..k] == chunks[..k];
    OneChunkCloses(head, upTo, e);
  }

  // ----- up to the start of a paste

  /** Where the first paste starts, and the chunk that brings its start mark. */
  ghost predicate StartsIn(chunks: seq<Text>, s: int, k: nat) {
    && NonEmpty(chunks) && s == IndexOfMark(Flatten(chunks), PASTE_START) && s != -1
    && Holds(chunks, k, s + |PASTE_START|)
  }

  /** What the buffer holds when that chunk has come, and what of the text was emitted before. */
  lemma {:induction false} StartInBuffer(chunks: seq<Text>, s: int, k: nat, done: Extracted, buffer: Text)
    requires StartsIn(chunks, s, k) && done == Fed(chunks[..k]) && buffer == done.remainder + chunks[k]
    ensures Flatten(done.sequences) + done.remainder == Flatten(chunks[..k])
    ensures Flatten(done.sequences) + buffer == Flatten(chunks[..k + 1]) <= Flatten(chunks)
  {
    FedConserves(chunks[..k]);
    UpToChunk(chunks, s + |PASTE_START|, k);
    Assoc(Flatten(done.sequences), done.remainder, chunks[k]);
  }

  lemma {:induction false} BehindEmitted(emitted: Text, buffer: Text, upTo: Text, p: nat)
    requires upTo == emitted + buffer && IndexOfMark(upTo, PASTE_START) == |emitted| + p
    ensures IndexOfMark(buffer, PASTE_START) == p && p + |PASTE_START| <= |buffer|
    ensures buffer[p + |PASTE_START|..] == upTo[|emitted| + p + |PASTE_START|..]
    ensures emitted + buffer[..p] == upTo[..|emitted| + p]
  {
    MarkInSuffix(upTo, |emitted|, PASTE_START);
    assert upTo[|emitted|..] == buffer;
  }

  /** The mark is found where it is if no emitted sequence has taken its first unit. */
  lemma {:induction false} StartIsFound(chunks: seq<Text>, s: int, k: nat, done: Extracted, buffer: Text, p: nat)
    requires StartsIn(chunks, s, k) && done == Fed(chunks[..k]) && buffer == done.remainder + chunks[k]
    requires s == |Flatten(done.sequences)| + p
    ensures IndexOfMark(buffer, PASTE_START) == p && p + |PASTE_START| <= |buffer|
    ensures buffer[p + |PASTE_START|..] == TailOf(chunks, k, s + |PASTE_START|)
    ensures Flatten(done.sequences) + buffer[..p] == Flatten(chunks)[..s]
  {
    var upTo := Flatten(chunks[..k + 1]);
    StartInBuffer(chunks, s, k, done, buffer);
    MarkChunk(chunks, PASTE_START, k, s, upTo);
    BehindEmitted(Flatten(done.sequences), buffer, upTo, p);
  }

  function DeliveredFrom(sequences: seq<Text>): Delivered { DeliverAll(Delivered(None, []), sequences) }

  lemma {:induction false} DeliverTwice(a: seq<Text>, b: seq<Text>)
    ensures DeliveredFrom(a + b).events
            == DeliveredFrom(a).events + DeliverAll(Delivered(DeliveredFrom(a).pending, []), b).events
  {
    DeliverMore(Delivered(None, []), a, b);
    DeliverAppends(DeliveredFrom(a).pending, DeliveredFrom(a).events, b);
  }

  /** What is emitted before a paste, and the paste from its start on. */
  function Opened(before: seq<Text>, paste: Outcome): Outcome {
    Outcome(paste.state, DeliveredFrom(before).events + paste.events)
  }

  lemma {:induction false} OpeningIs(pending: Option<nat>, remainder: Text, next: Text, buffer: Text, p: nat,
                                     tail: Text)
    requires buffer == remainder + next && IndexOfMark(buffer, PASTE_START) == p && tail == buffer[p + |PASTE_START|..]
    ensures var paste, o := ProcessedAll(PASTING, Single(tail)), Processed(State(remainder, false, [], pending), next);
            && o.state == paste.state
            && o.events == DeliverAll(Delivered(pending, []), Extract(buffer[..p]).sequences).events + paste.events
  {
    PastingAlone(tail);
  }

  /** The chunk that brings the start mark, in a run in which it is found. */
  lemma {:induction false} OpeningChunk(chunks: seq<Text>, s: int, k: nat, done: Extracted, buffer: Text, p: nat,
                                        tail: Text)
    returns (before: seq<Text>)
    requires StartsIn(chunks, s, k) && done == Fed(chunks[..k]) && buffer == done.remainder + chunks[k]
    requires s == |Flatten(done.sequences)| + p && tail == TailOf(chunks, k, s + |PASTE_START|)
    ensures p <= |buffer|
    ensures before == done.sequences + Extract(buffer[..p]).sequences
    ensures ProcessedAll(START, chunks[..k + 1]) == Opened(before, ProcessedAll(PASTING, Single(tail)))
  {
    StartIsFound(chunks, s, k, done, buffer, p);
    MarkUpTo(chunks, PASTE_START, k);
    PrefixNonEmpty(chunks, k);
    ProcessesPlain(chunks[..k]);
    var d := DeliveredFrom(done.sequences);
    OpeningIs(d.pending, done.remainder, chunks[k], buffer, p, tail);
    var more := Extract(buffer[..p]).sequences;
    DeliverTwice(done.sequences, more);
    LastChunk(chunks, k);
    Assoc(d.events, DeliverAll(Delivered(d.pending, []), more).events, ProcessedAll(PASTING, Single(tail)).events);
    before := done.sequences + more;
  }

  lemma {:induction false} LastChunk(chunks: seq<Text>, k: nat)
    requires k < |chunks|
    ensures var before := ProcessedAll(START, chunks[..k]);
            var last := Processed(before.state, chunks[k]);
            ProcessedAll(START, chunks[..k + 1]) == Outcome(last.state, before.events + last.events)
  {
    assert chunks[..k + 1][..k] == chunks[..k];
  }

  lemma {:induction false} StartFits(chunks: seq<Text>, s: int, k: nat, n: int)
    requires StartsIn(chunks, s, k) && n == s + |PASTE_START|
    ensures 0 < n <= |Flatten(chunks)| && Holds(chunks, k, n) && k < |chunks|
    ensures |Flatten(chunks[..k])| <= n <= |Flatten(chunks[..k + 1])|
  {
  }

  lemma {:induction false} OpenedRun(chunks: seq<Text>, k: nat, before: seq<Text>, tail: Text, dropped: seq<Text>)
    requires k < |chunks| && dropped == Single(tail) + chunks[k + 1..]
    requires ProcessedAll(START, chunks[..k + 1]) == Opened(before, ProcessedAll(PASTING, Single(tail)))
    ensures ProcessedAll(START, chunks) == Opened(before, ProcessedAll(PASTING, dropped))
  {
    var head, rest := chunks[..k + 1], chunks[k + 1..];
    assert chunks == head + rest;
    OpenedMore(head, rest, chunks, before, tail, dropped);
  }

  /** A run in which the start mark is found: what was emitted before it, and a paste in the chunks from there on. */
  lemma {:induction false} OpensRun(chunks: seq<Text>, s: int, k: nat, done: Extracted, buffer: Text, p: nat)
    returns (before: seq<Text>)
    requires StartsIn(chunks, s, k) && done == Fed(chunks[..k]) && buffer == done.remainder + chunks[k]
    requires s == |Flatten(done.sequences)| + p
    ensures p <= |buffer|
    ensures before == done.sequences + Extract(buffer[..p]).sequences
    ensures ProcessedAll(START, chunks) == Opened(before, ProcessedAll(PASTING, Drop(chunks, s + |PASTE_START|)))
  {
    var n := s + |PASTE_START|;
    StartFits(chunks, s, k, n);
    var tail := TailOf(chunks, k, n);
    before := OpeningChunk(chunks, s, k, done, buffer, p, tail);
    DropAt(chunks, n, k, tail);
    OpenedRun(chunks, k, before, tail, Drop(chunks, n));
  }

  /** Chunks in which a paste starts, and those that follow. */
  lemma {:induction false} OpenedMore(head: seq<Text>, rest: seq<Text>, all: seq<Text>, before: seq<Text>, tail: Text,
                                      dropped: seq<Text>)
    requires all == head + rest && dropped == Single(tail) + rest
    requires ProcessedAll(START, head) == Opened(before, ProcessedAll(PASTING, Single(tail)))
    ensures ProcessedAll(START, all) == Opened(before, ProcessedAll(PASTING, dropped))
  {
    var paste := ProcessedAll(PASTING, Single(tail));
    RunConcat(START, head, rest);
    RunConcat(PASTING, Single(tail), rest);
    Assoc(DeliveredFrom(before).events, paste.events, ProcessedAll(paste.state, rest).events);
  }

  /** The same for a text in one chunk. */
  lemma {:induction false} OpensAsOne(text: Text, s: int)
    requires s == IndexOfMark(text, PASTE_START) && s != -1
    ensures AsOne(text) == Opened(Extract(text[..s]).sequences, Pasting(text[s + |PASTE_START|..], None))
  {
    RunOne(START, text);
    assert [] + text == text;
  }

  // ----- cutting a text where an escape begins

  /** A lone ESC is emitted only before an escape sequence, which is then still waiting if nothing else was emitted. */
  lemma {:induction false} LoneIsFollowed(a: Text)
    ensures var e := Extract(a); e.sequences != [] && e.sequences[|e.sequences| - 1] == [ESC] ==> |e.remainder| >= 2
    decreases |a|
  {
    if a != [] && FirstSequence(a).Some? {
      var n := FirstSequence(a).value;
      LoneIsFollowed(a[n..]);
      ExtractStep(a);
      if a[..n] == [ESC] { LoneHasMore(a); }
    }
  }

  lemma {:induction false} LoneHasMore(a: Text)
    requires a != [] && FirstSequence(a) == Some(1) && a[0] == ESC
    ensures |a| >= 3 && a[1] == ESC && IsIntroducer(a[2])
    ensures Extract(a[1..]).sequences == [] ==> |Extract(a[1..]).remainder| >= 2
  {
    assert a[..1] == [ESC] && !IsComplete(a[..1]);
    var end := SequenceEnd(a, 1);
    assert end > 1;
    assert a[..end] == [ESC, ESC];
    assert a[..end][1] == ESC;
  }

  /** Cut short, what waits still waits, and so does the first sequence. */
  lemma {:induction false} CutWaits(a: Text, s: nat)
    requires a != [] && s <= |a| && (FirstSequence(a).None? || s < FirstSequence(a).value)
    ensures Extract(a[..s]).sequences == []
  {
    if s > 0 {
      assert a[..s] + a[s..] == a;
      SequenceEndGrows(a[..s], a[s..], 1);
    }
  }

  lemma {:induction false} LoneWaits(a: Text)
    requires a != [] && a[0] == ESC
    ensures Extract(a[..1]).sequences == []
  {
    assert a[..1] == [ESC] && !IsComplete(a[..1]);
    assert SequenceEnd(a[..1], 2) == 2;
    assert SequenceEnd(a[..1], 1) == 2;
  }

  /** Cut behind it where an escape begins, the text has the same first sequence. */
  lemma {:induction false} CutKeepsFirst(a: Text, s: nat, n: nat)
    requires a != [] && FirstSequence(a) == Some(n) && n <= s <= |a| && (s < |a| ==> a[s] == ESC)
    requires !(s == 1 && a[0] == ESC)
    ensures FirstSequence(a[..s]) == Some(n)
  {
    var x := a[..s];
    assert x + a[s..] == a;
    if a[0] == ESC {
      SequenceEndGrows(x, a[s..], 1);
      if n == 1 {
        LoneHasMore(a);
        assert SequenceEnd(a, 1) == 2 by { assert a[..2] == [ESC, ESC] && IsComplete(a[..2]) && !IsComplete(a[..1]); }
        assert x[..2] == a[..2] && x[2] == a[2];
      } else {
        assert x[..n] == a[..n] && (n < |x| ==> x[n] == a[n]);
      }
    }
  }

  /** The sequences of a text that is cut where an escape begins are the first ones of the text. */
  lemma {:induction false} CutBefore(a: Text, s: nat) returns (m: nat)
    requires s <= |a| && (s < |a| ==> a[s] == ESC)
    ensures m <= |Extract(a).sequences| && Extract(a[..s]).sequences == Extract(a).sequences[..m]
    ensures |Flatten(Extract(a).sequences[..m])| <= s
    ensures m < |Extract(a).sequences| ==> CutWithin(Extract(a).sequences, m, s)
    decreases |a|
  {
    m := 0;
    if a != [] && FirstSequence(a).Some? {
      var n := FirstSequence(a).value;
      ExtractStep(a);
      var all := Extract(a).sequences;
      assert all[..1] == [a[..n]];
      FlattenOne(a[..n]);
      if s < n {
        CutWaits(a, s);
      } else if s == 1 && a[0] == ESC {
        assert n == 1 && a[..n] == [ESC];
        LoneWaits(a);
      } else {
        m := CutBehind(a, s, n);
      }
    } else if a != [] {
      CutWaits(a, s);
    }
  }

  /** The cut lies inside this sequence, or right behind it if it is a lone ESC. */
  ghost predicate CutWithin(sequences: seq<Text>, m: nat, s: nat)
    requires m < |sequences|
  {
    s < |Flatten(sequences[..m + 1])| || (s == |Flatten(sequences[..m + 1])| && sequences[m] == [ESC])
  }

  lemma {:induction false} CutBehind(a: Text, s: nat, n: nat) returns (m: nat)
    requires s <= |a| && (s < |a| ==> a[s] == ESC) && a != [] && FirstSequence(a) == Some(n) && n <= s
    requires !(s == 1 && a[0] == ESC)
    ensures m <= |Extract(a).sequences| && Extract(a[..s]).sequences == Extract(a).sequences[..m]
    ensures |Flatten(Extract(a).sequences[..m])| <= s
    ensures m < |Extract(a).sequences| ==> CutWithin(Extract(a).sequences, m, s)
    decreases |a|, 0
  {
    CutKeepsFirst(a, s, n);
    var k := CutBefore(a[n..], s - n);
    CutSteps(a, s, n, k);
    m := k + 1;
  }

  lemma {:induction false} CutSteps(a: Text, s: nat, n: nat, k: nat)
    requires 0 < n <= s <= |a| && FirstSequence(a) == Some(n) && FirstSequence(a[..s]) == Some(n)
    requires var rest := Extract(a[n..]).sequences;
             && k <= |rest| && Extract(a[n..][..s - n]).sequences == rest[..k]
             && |Flatten(rest[..k])| <= s - n && (k < |rest| ==> CutWithin(rest, k, s - n))
    ensures var all := Extract(a).sequences;
            && k + 1 <= |all| && Extract(a[..s]).sequences == all[..k + 1]
            && |Flatten(all[..k + 1])| <= s && (k + 1 < |all| ==> CutWithin(all, k + 1, s))
  {
    var q, rest := a[..n], Extract(a[n..]).sequences;
    SliceTwice(a, n, s);
    FirstAndRest(a, n);
    FirstAndRest(a[..s], n);
    CutCount(q, rest, k, s - n);
  }

  lemma {:induction false} SliceTwice(a: Text, n: nat, s: nat)
    requires n <= s <= |a|
    ensures a[..s][..n] == a[..n] && a[..s][n..] == a[n..][..s - n]
  {
  }

  lemma {:induction false} FirstAndRest(a: Text, n: nat)
    requires a != [] && FirstSequence(a) == Some(n)
    ensures Extract(a).sequences == [a[..n]] + Extract(a[n..]).sequences
  {
    ExtractStep(a);
  }

  lemma {:induction false} CutCount(q: Text, rest: seq<Text>, k: nat, s: nat)
    requires k <= |rest| && |Flatten(rest[..k])| <= s && (k < |rest| ==> CutWithin(rest, k, s))
    ensures ([q] + rest)[..k + 1] == [q] + rest[..k] && |Flatten(([q] + rest)[..k + 1])| <= |q| + s
    ensures k < |rest| ==> CutWithin([q] + rest, k + 1, |q| + s)
  {
    FirstsOf(q, rest, k);
    if k < |rest| { FirstsOf(q, rest, k + 1); }
  }

  lemma {:induction false} FirstsOf(q: Text, rest: seq<Text>, k: nat)
    requires k <= |rest|
    ensures ([q] + rest)[..k + 1] == [q] + rest[..k] && |Flatten(([q] + rest)[..k + 1])| == |q| + |Flatten(rest[..k])|
  {
    FlattenFirst(q, rest[..k]);
    assert ([q] + rest)[..k + 1] == [q] + rest[..k];
  }

  // ----- when cutting into chunks makes no difference

  /**
   * The start mark at s is found, and before it is emitted what the whole text says: no emitted sequence has taken the
   * mark's first unit, nor is it a lone ESC right before the mark that was emitted because more of it had come.
   */
  predicate Opens(done: Extracted, next: Text, s: int) {
    && |Flatten(done.sequences)| <= s && !SplitsEscape(done, next)
    && !(|Flatten(done.sequences)| == s && done.sequences != [] && done.sequences[|done.sequences| - 1] == [ESC])
  }

  function Behind(chunks: seq<Text>, n: nat): (rest: seq<Text>)
    requires n <= |Flatten(chunks)| && NonEmpty(chunks)
    ensures Flatten(rest) == Flatten(chunks)[n..] && NonEmpty(rest)
  {
    DropShows(chunks, n);
    Drop(chunks, n)
  }


  /** No boundary up to the first paste divides an escape sequence or its start mark. */
  ghost predicate FirstWhole(chunks: seq<Text>)
    requires NonEmpty(chunks)
  {
    var s := IndexOfMark(Flatten(chunks), PASTE_START);
    if s == -1 then Clean(chunks)
    else forall k: nat | StartsIn(chunks, s, k) :: Clean(chunks[..k]) && Opens(Fed(chunks[..k]), chunks[k], s)
  }

  /** The chunks of an open paste behind its end, if it has one. */
  function BehindEnd(paste: seq<Text>): (rest: Option<seq<Text>>)
    requires NonEmpty(paste)
    ensures rest.Some? ==> NonEmpty(rest.value) && |Flatten(rest.value)| < |Flatten(paste)|
  {
    var e := IndexOfMark(Flatten(paste), PASTE_END);
    if e == -1 then None else Some(Behind(paste, e + |PASTE_END|))
  }

  /** The chunks behind the first paste, if there is one and it ends. */
  function BehindPaste(chunks: seq<Text>): (rest: Option<seq<Text>>)
    requires NonEmpty(chunks)
    ensures rest.Some? ==> NonEmpty(rest.value) && |Flatten(rest.value)| < |Flatten(chunks)|
  {
    var s := IndexOfMark(Flatten(chunks), PASTE_START);
    if s == -1 then None else BehindEnd(Behind(chunks, s + |PASTE_START|))
  }

  /** No chunk boundary divides an escape sequence or a start mark, from paste to paste. */
  ghost predicate Undivided(chunks: seq<Text>)
    requires NonEmpty(chunks)
    decreases |Flatten(chunks)|
  {
    FirstWhole(chunks) && (BehindPaste(chunks).Some? ==> Undivided(BehindPaste(chunks).value))
  }

  lemma {:induction false} SequencesNonEmpty(a: Text)
    ensures NonEmpty(Extract(a).sequences)
    decreases |a|
  {
    if a != [] && FirstSequence(a).Some? {
      SequencesNonEmpty(a[FirstSequence(a).value..]);
    }
  }

  lemma {:induction false} FlattenLonger(parts: seq<Text>, i: nat)
    requires NonEmpty(parts) && i < |parts|
    ensures |Flatten(parts[..i])| < |Flatten(parts)|
  {
    FlattenSplit(parts, i);
    PrefixNonEmpty(parts, i);
    FlattenNonEmpty(parts[i..]);
  }

  lemma {:induction false} RemainderWaits(a: Text)
    ensures Extract(a).remainder != [] ==> FirstSequence(Extract(a).remainder).None?
    decreases |a|
  {
    if a != [] && FirstSequence(a).Some? { RemainderWaits(a[FirstSequence(a).value..]); }
  }

  // ----- where the mark starts behind the boundary

  /** The chunks up to the mark. */
  function UpToMark(chunks: seq<Text>, s: nat, k: nat): seq<Text>
    requires k < |chunks| && |Flatten(chunks[..k])| < s <= |Flatten(chunks[..k])| + |chunks[k]|
  {
    chunks[..k] + [chunks[k][..s - |Flatten(chunks[..k])|]]
  }

  lemma {:induction false} CutIsText(chunks: seq<Text>, s: int, k: nat, next: Text, cut: seq<Text>)
    requires StartsIn(chunks, s, k) && |Flatten(chunks[..k])| < s <= |Flatten(chunks[..k])| + |chunks[k]|
    requires next == chunks[k][..s - |Flatten(chunks[..k])|] && cut == chunks[..k] + [next]
    ensures NonEmpty(cut) && Flatten(cut) == Flatten(chunks)[..s]
  {
    FlattenSnoc(chunks[..k], next);
    UpToChunk(chunks, s + |PASTE_START|, k);
    assert Flatten(chunks)[..s] == Flatten(chunks[..k + 1])[..s] == Flatten(chunks[..k]) + next;
  }

  lemma {:induction false} CutIsFed(chunks: seq<Text>, k: nat, next: Text, done: Extracted, cut: seq<Text>)
    requires k < |chunks| && done == Fed(chunks[..k]) && cut == chunks[..k] + [next]
    requires next != [] && next <= chunks[k]
    ensures Fed(cut).sequences == done.sequences + Extract(done.remainder + next).sequences
    ensures Clean(cut) <==> Clean(chunks[..k]) && !SplitsEscape(done, chunks[k])
  {
    assert cut[..|cut| - 1] == chunks[..k] && cut[|cut| - 1] == next && next[0] == chunks[k][0];
  }

  lemma {:induction false} MarkBehind(chunks: seq<Text>, s: int, k: nat, done: Extracted, buffer: Text, p: nat,
                                      cut: seq<Text>)
    requires StartsIn(chunks, s, k) && done == Fed(chunks[..k]) && buffer == done.remainder + chunks[k]
    requires s == |Flatten(done.sequences)| + p && |Flatten(chunks[..k])| < s <= |Flatten(chunks[..k])| + |chunks[k]|
    requires cut == UpToMark(chunks, s, k)
    ensures p <= |buffer| && NonEmpty(cut) && Flatten(cut) == Flatten(chunks)[..s]
    ensures Fed(cut).sequences == done.sequences + Extract(buffer[..p]).sequences
    ensures Clean(cut) <==> Clean(chunks[..k]) && Opens(done, chunks[k], s)
  {
    var next := chunks[k][..s - |Flatten(chunks[..k])|];
    CutIsText(chunks, s, k, next, cut);
    CutIsFed(chunks, k, next, done, cut);
    EmittedBefore(chunks, k, done);
    assert buffer[..p] == done.remainder + next;
  }

  lemma {:induction false} EmittedBefore(chunks: seq<Text>, k: nat, done: Extracted)
    requires k <= |chunks| && done == Fed(chunks[..k])
    ensures |Flatten(done.sequences)| + |done.remainder| == |Flatten(chunks[..k])|
  {
    FedConserves(chunks[..k]);
  }

  // ----- where it starts before

  lemma {:induction false} UnitAt(a: Text, sequences: seq<Text>, m: nat)
    requires sequences == Extract(a).sequences && m < |sequences| && |sequences[m]| == 1
    ensures var at := |Flatten(sequences[..m])|; at < |a| && a[at] == sequences[m][0]
  {
    ExtractConserves(a);
    WholeIs(sequences, m);
    UnitIn(a, Flatten(sequences[..m]), sequences[m], Flatten(sequences[m + 1..]), Extract(a).remainder);
  }

  lemma {:induction false} UnitIn(a: Text, upTo: Text, q: Text, more: Text, rest: Text)
    requires a == upTo + q + more + rest && |q| == 1
    ensures |upTo| < |a| && a[|upTo|] == q[0]
  {
  }

  /** Behind a cut where an escape begins, the next sequence is no echo. */
  lemma {:induction false} NextIsNoEcho(a: Text, sequences: seq<Text>, m: nat, s: nat)
    requires sequences == Extract(a).sequences && s <= |a| && (s < |a| ==> a[s] == ESC) && m < |sequences|
    requires |Flatten(sequences[..m])| <= s && CutWithin(sequences, m, s)
    ensures !IsEcho(sequences, m)
  {
    FlattenTake(sequences, m);
    if |sequences[m]| == 1 { UnitAt(a, sequences, m); }
  }

  /** All that was emitted ends before the mark, exactly if cutting the text at the mark leaves all of it. */
  lemma {:induction false} AllBefore(a: Text, s: nat, m: nat)
    requires s <= |a| && (s < |a| ==> a[s] == ESC) && m <= |Extract(a).sequences|
    requires Extract(a[..s]).sequences == Extract(a).sequences[..m] && |Flatten(Extract(a).sequences[..m])| <= s
    requires m < |Extract(a).sequences| ==> CutWithin(Extract(a).sequences, m, s)
    ensures var all := Extract(a).sequences;
            m == |all| <==> |Flatten(all)| <= s && !(|Flatten(all)| == s && all != [] && all[|all| - 1] == [ESC])
  {
    var all := Extract(a).sequences;
    if m == |all| {
      assert all[..m] == all;
      LoneIsFollowed(a[..s]);
      ExtractConserves(a[..s]);
    } else {
      SequencesNonEmpty(a);
      if m + 1 < |all| { FlattenLonger(all, m + 1); } else { assert all[..m + 1] == all; }
    }
  }

  /** Where the mark starts before the boundary and is found, nothing more is emitted before it. */
  lemma {:induction false} NothingMore(chunks: seq<Text>, s: int, k: nat, done: Extracted, buffer: Text, p: nat)
    requires StartsIn(chunks, s, k) && done == Fed(chunks[..k]) && buffer == done.remainder + chunks[k]
    requires s == |Flatten(done.sequences)| + p && s <= |Flatten(chunks[..k])| && done == Extract(Flatten(chunks[..k]))
    requires p <= |buffer|
    ensures Extract(buffer[..p]).sequences == []
  {
    StartInBuffer(chunks, s, k, done, buffer);
    RemainderWaits(Flatten(chunks[..k]));
    assert buffer[..p] == done.remainder[..p];
    if done.remainder != [] { CutWaits(done.remainder, p); }
  }

  lemma {:induction false} MarkBegins(chunks: seq<Text>, s: int, k: nat)
    requires StartsIn(chunks, s, k) && s <= |Flatten(chunks[..k])|
    ensures Flatten(chunks)[s] == ESC && Flatten(chunks)[..s] == Flatten(chunks[..k])[..s]
    ensures s < |Flatten(chunks[..k])| ==> Flatten(chunks[..k])[s] == ESC
  {
    UpToChunk(chunks, s + |PASTE_START|, k);
    assert Flatten(chunks)[s..s + |PASTE_START|][0] == PASTE_START[0];
  }

  lemma {:induction false} SameBehind(chunks: seq<Text>, s: int, k: nat, done: Extracted, buffer: Text, p: nat)
    requires StartsIn(chunks, s, k) && done == Fed(chunks[..k]) && buffer == done.remainder + chunks[k]
    requires s == |Flatten(done.sequences)| + p && Clean(chunks[..k]) && Opens(done, chunks[k], s)
    requires |Flatten(chunks[..k])| < s
    ensures p <= |buffer| && done.sequences + Extract(buffer[..p]).sequences == Extract(Flatten(chunks)[..s]).sequences
  {
    UpToChunk(chunks, s + |PASTE_START|, k);
    MarkEnds(chunks, s, k);
    var cut := UpToMark(chunks, s, k);
    MarkBehind(chunks, s, k, done, buffer, p, cut);
    ChunksDoNotMatter(cut);
  }

  lemma {:induction false} MarkEnds(chunks: seq<Text>, s: int, k: nat)
    requires StartsIn(chunks, s, k)
    ensures s <= |Flatten(chunks[..k])| + |chunks[k]|
  {
    UpToChunk(chunks, s + |PASTE_START|, k);
  }

  lemma {:induction false} SameWithin(chunks: seq<Text>, s: int, k: nat, done: Extracted, buffer: Text, p: nat)
    requires StartsIn(chunks, s, k) && done == Fed(chunks[..k]) && buffer == done.remainder + chunks[k]
    requires s == |Flatten(done.sequences)| + p && Clean(chunks[..k]) && Opens(done, chunks[k], s)
    requires s <= |Flatten(chunks[..k])| && p <= |buffer|
    ensures done.sequences + Extract(buffer[..p]).sequences == Extract(Flatten(chunks)[..s]).sequences
  {
    var before := Flatten(chunks[..k]);
    PrefixNonEmpty(chunks, k);
    ChunksDoNotMatter(chunks[..k]);
    MarkBegins(chunks, s, k);
    NothingMore(chunks, s, k, done, buffer, p);
    SameIfAllBefore(before, s, done);
  }

  lemma {:induction false} SameIfAllBefore(before: Text, s: nat, done: Extracted)
    requires s <= |before| && (s < |before| ==> before[s] == ESC) && done == Extract(before)
             && |Flatten(done.sequences)| <= s
    requires !(|Flatten(done.sequences)| == s && done.sequences != [] && done.sequences[|done.sequences| - 1] == [ESC])
    ensures done.sequences + [] == Extract(before[..s]).sequences
  {
    var m := CutBefore(before, s);
    AllBefore(before, s, m);
    assert done.sequences[..|done.sequences|] == done.sequences && done.sequences + [] == done.sequences;
  }

  /** Under the condition, what is emitted before the paste is what the whole text says. */
  lemma {:induction false} SameBefore(chunks: seq<Text>, s: int, k: nat, done: Extracted, buffer: Text, p: nat)
    requires StartsIn(chunks, s, k) && done == Fed(chunks[..k]) && buffer == done.remainder + chunks[k]
    requires s == |Flatten(done.sequences)| + p && Clean(chunks[..k]) && Opens(done, chunks[k], s)
    ensures p <= |buffer| && done.sequences + Extract(buffer[..p]).sequences == Extract(Flatten(chunks)[..s]).sequences
  {
    StartIsFound(chunks, s, k, done, buffer, p);
    if |Flatten(chunks[..k])| < s {
      SameBehind(chunks, s, k, done, buffer, p);
    } else {
      SameWithin(chunks, s, k, done, buffer, p);
    }
  }

  // ----- if the condition fails

  lemma {:induction false} EventsGrow(chunks: seq<Text>, k: nat)
    requires k <= |chunks|
    ensures ProcessedAll(START, chunks[..k]).events <= ProcessedAll(START, chunks).events
  {
    RunConcat(START, chunks[..k], chunks[k..]);
    assert chunks[..k] + chunks[k..] == chunks;
  }

  lemma {:induction false} DeliveredIs(sequences: seq<Text>)
    ensures DeliveredFrom(sequences).events == WithoutEchoes(sequences, |sequences|)
  {
    DeliversAllButEchoes(sequences, |sequences|);
    assert sequences[..|sequences|] == sequences;
  }

  /** Nothing of a paste is a sequence. */
  predicate NoDataFirst(events: seq<Event>) { events == [] || events[0].Paste? }

  lemma {:induction false} EventAt(sequences: seq<Text>, m: nat)
    requires m < |sequences| && !IsEcho(sequences, m)
    ensures var events, at := WithoutEchoes(sequences, |sequences|), |WithoutEchoes(sequences, m)|;
            at < |events| && events[at] == Data(sequences[m])
  {
    assert WithoutEchoes(sequences, m + 1) == WithoutEchoes(sequences, m) + [Data(sequences[m])];
    EventsKeep(sequences, m + 1, |sequences|);
  }

  /** Where one run emits a sequence that another does not, or another one, the events differ for good. */
  lemma {:induction false} EventsDiffer(sent: seq<Text>, said: seq<Text>, m: nat, events: seq<Event>, paste: seq<Event>)
    requires m < |sent| && m <= |said| && sent[..m] == said[..m] && !IsEcho(sent, m)
    requires m < |said| ==> said[m] != sent[m] && !IsEcho(said, m)
    requires WithoutEchoes(sent, |sent|) <= events && NoDataFirst(paste)
    ensures events != WithoutEchoes(said, |said|) + paste
  {
    SamePrefix(sent, said, m);
    EventAt(sent, m);
    var at := |WithoutEchoes(sent, m)|;
    assert events[at] == Data(sent[m]);
    if m < |said| { EventAt(said, m); }
  }

  lemma {:induction false} EscapeIsNoEcho(sequences: seq<Text>, m: nat)
    requires m < |sequences| && (sequences[m] == [ESC] || sequences[m] == [ESC, ESC])
    ensures !IsEcho(sequences, m)
  {
  }

  lemma {:induction false} PasteComesFirst(text: Text)
    ensures NoDataFirst(Pasting(text, None).events)
  {
    PastingIs(text);
  }

  /** The boundary divides an escape before the mark. */
  lemma {:induction false} SplitBehind(chunks: seq<Text>, s: int, k: nat, done: Extracted)
    requires StartsIn(chunks, s, k) && done == Fed(chunks[..k]) && |Flatten(chunks[..k])| < s
    requires !(Clean(chunks[..k]) && Opens(done, chunks[k], s))
    ensures ProcessedAll(START, chunks).events != AsOne(Flatten(chunks)).events
  {
    var buffer, text := done.remainder + chunks[k], Flatten(chunks);
    EmittedBefore(chunks, k, done);
    MarkEnds(chunks, s, k);
    var p, cut := s - |Flatten(done.sequences)|, UpToMark(chunks, s, k);
    MarkBehind(chunks, s, k, done, buffer, p, cut);
    var sent := OpensRun(chunks, s, k, done, buffer, p);
    OpensAsOne(text, s);
    SplitCut(cut, text, s, ProcessedAll(PASTING, Drop(chunks, s + |PASTE_START|)), ProcessedAll(START, chunks).events);
  }

  /** The chunks up to the mark have emitted something else than the text up to the mark. */
  lemma {:induction false} SplitCut(cut: seq<Text>, text: Text, s: nat, more: Outcome, events: seq<Event>)
    requires NonEmpty(cut) && !Clean(cut) && s + |PASTE_START| <= |text| && Flatten(cut) == text[..s]
    requires events == Opened(Fed(cut).sequences, more).events
    ensures events != Opened(Extract(text[..s]).sequences, Pasting(text[s + |PASTE_START|..], None)).events
  {
    var m := FirstSplit(cut);
    var sent, said := Fed(cut).sequences, Extract(text[..s]).sequences;
    DeliveredIs(sent);
    DeliveredIs(said);
    EscapeIsNoEcho(sent, m);
    EscapeIsNoEcho(said, m);
    PasteComesFirst(text[s + |PASTE_START|..]);
    EventsDiffer(sent, said, m, events, Pasting(text[s + |PASTE_START|..], None).events);
  }

  /** An emitted sequence has taken the mark, or is a lone ESC before it, or an escape was divided before. */
  lemma {:induction false} SplitBefore(chunks: seq<Text>, s: int, k: nat, done: Extracted)
    requires StartsIn(chunks, s, k) && done == Fed(chunks[..k]) && s <= |Flatten(chunks[..k])|
    requires !(Clean(chunks[..k]) && Opens(done, chunks[k], s))
    ensures ProcessedAll(START, chunks).events != AsOne(Flatten(chunks)).events
  {
    var text, before := Flatten(chunks), Flatten(chunks[..k]);
    MarkBegins(chunks, s, k);
    OpensAsOne(text, s);
    var sent, said := done.sequences, Extract(before[..s]).sequences;
    var m := FirstDifference(chunks, s, k, done);
    SentBefore(chunks, s, k);
    DeliveredIs(said);
    PasteComesFirst(text[s + |PASTE_START|..]);
    EventsDiffer(sent, said, m, ProcessedAll(START, chunks).events, Pasting(text[s + |PASTE_START|..], None).events);
  }

  lemma {:induction false} SentBefore(chunks: seq<Text>, s: int, k: nat)
    requires StartsIn(chunks, s, k)
    ensures var sent := Fed(chunks[..k]).sequences; WithoutEchoes(sent, |sent|) <= ProcessedAll(START, chunks).events
  {
    MarkUpTo(chunks, PASTE_START, k);
    PrefixNonEmpty(chunks, k);
    ProcessesPlain(chunks[..k]);
    DeliveredIs(Fed(chunks[..k]).sequences);
    EventsGrow(chunks, k);
  }

  /** The first sequence that the chunks have emitted and the whole text does not have there, or has differently. */
  lemma {:induction false} FirstDifference(chunks: seq<Text>, s: int, k: nat, done: Extracted) returns (m: nat)
    requires StartsIn(chunks, s, k) && done == Fed(chunks[..k]) && s <= |Flatten(chunks[..k])|
    requires !(Clean(chunks[..k]) && Opens(done, chunks[k], s))
    ensures var sent, said := done.sequences, Extract(Flatten(chunks[..k])[..s]).sequences;
            && m < |sent| && m <= |said| && sent[..m] == said[..m] && !IsEcho(sent, m)
            && (m < |said| ==> said[m] != sent[m] && !IsEcho(said, m))
  {
    var before := Flatten(chunks[..k]);
    var all := Extract(before).sequences;
    PrefixNonEmpty(chunks, k);
    MarkBegins(chunks, s, k);
    ChunksDoNotMatter(chunks[..k]);
    m := CutBefore(before, s);
    if Clean(chunks[..k]) {
      if |Flatten(done.sequences)| <= s { NoIntroducer(chunks, s, k, done); }
      NotAllBefore(before, s, done, chunks[k], m);
      NextIsNoEcho(before, all, m, s);
    } else {
      var first := FirstSplit(chunks[..k]);
      EscapeIsNoEcho(done.sequences, first);
      if m < first {
        NextIsNoEcho(before, all, m, s);
        SameEcho(done.sequences, all, m, first);
      } else {
        SplitFirst(done.sequences, all, m, first);
        m := first;
      }
    }
  }

  lemma {:induction false} NotAllBefore(before: Text, s: nat, done: Extracted, next: Text, m: nat)
    requires done == Extract(before) && s <= |before| && (s < |before| ==> before[s] == ESC)
    requires !Opens(done, next, s) && (|Flatten(done.sequences)| <= s ==> !SplitsEscape(done, next))
    requires m <= |done.sequences| && Extract(before[..s]).sequences == done.sequences[..m]
    requires |Flatten(done.sequences[..m])| <= s && (m < |done.sequences| ==> CutWithin(done.sequences, m, s))
    ensures m < |done.sequences|
  {
    NotOpens(done, next, s);
    AllBefore(before, s, m);
  }

  lemma {:induction false} NotOpens(done: Extracted, next: Text, s: nat)
    requires !Opens(done, next, s) && (|Flatten(done.sequences)| <= s ==> !SplitsEscape(done, next))
    ensures !(|Flatten(done.sequences)| <= s)
         || (|Flatten(done.sequences)| == s && done.sequences != [] && done.sequences[|done.sequences| - 1] == [ESC])
  {
  }

  /** Where the mark starts right behind what was emitted, no introducer follows. */
  lemma {:induction false} NoIntroducer(chunks: seq<Text>, s: int, k: nat, done: Extracted)
    requires StartsIn(chunks, s, k) && done == Fed(chunks[..k])
             && |Flatten(done.sequences)| <= s <= |Flatten(chunks[..k])|
    ensures !SplitsEscape(done, chunks[k])
  {
    EmittedBefore(chunks, k, done);
    MarkBegins(chunks, s, k);
    UpToChunk(chunks, s + |PASTE_START|, k);
    if done.remainder == [] { FirstOf(Flatten(chunks[..k]), chunks[k], Flatten(chunks)); }
  }

  lemma {:induction false} FirstOf(before: Text, chunk: Text, whole: Text)
    requires before + chunk <= whole && chunk != []
    ensures whole[|before|] == chunk[0]
  {
    assert (before + chunk)[|before|] == chunk[0];
  }

  lemma {:induction false} SameEcho(a: seq<Text>, b: seq<Text>, m: nat, n: nat)
    requires m < n <= |a| && n <= |b| && a[..n] == b[..n]
    ensures IsEcho(a, m) <==> IsEcho(b, m)
    ensures a[..m] == b[..m]
  {
    assert a[m] == a[..n][m] == b[..n][m] && (m > 0 ==> a[m - 1] == a[..n][m - 1] == b[..n][m - 1]);
    assert a[..m] == a[..n][..m] && b[..m] == b[..n][..m];
  }

  lemma {:induction false} SplitFirst(sent: seq<Text>, all: seq<Text>, m: nat, first: nat)
    requires first < |sent| && sent[first] == [ESC, ESC] && first < |all| && all[first] == [ESC]
             && sent[..first] == all[..first]
    requires first <= m <= |all|
    ensures sent[..first] == all[..m][..first]
    ensures first < m ==> all[..m][first] != sent[first] && !IsEcho(all[..m], first)
  {
    assert all[..m][..first] == all[..first];
    if first < m { EscapeIsNoEcho(all[..m], first); }
  }

  lemma {:induction false} SplitDiffers(chunks: seq<Text>, s: int, k: nat, done: Extracted)
    requires StartsIn(chunks, s, k) && done == Fed(chunks[..k]) && !(Clean(chunks[..k]) && Opens(done, chunks[k], s))
    ensures ProcessedAll(START, chunks).events != AsOne(Flatten(chunks)).events
  {
    if |Flatten(chunks[..k])| < s { SplitBehind(chunks, s, k, done); } else { SplitBefore(chunks, s, k, done); }
  }

  // ----- whole runs

  lemma {:induction false} WithoutPastes(chunks: seq<Text>)
    requires NonEmpty(chunks) && IndexOfMark(Flatten(chunks), PASTE_START) == -1
    ensures Clean(chunks) ==> ProcessedAll(START, chunks) == AsOne(Flatten(chunks))
    ensures !Clean(chunks) ==> ProcessedAll(START, chunks).events != AsOne(Flatten(chunks)).events
  {
    var text := Flatten(chunks);
    ProcessesPlain(chunks);
    SingleShows(text);
    ProcessesPlain(Single(text));
    ChunksDoNotMatter(chunks);
    AsOneIsExtracted(text);
    if !Clean(chunks) {
      SplitEscapeIsSeen(chunks);
      DeliveredIs(Extract(text).sequences);
    }
  }

  lemma {:induction false} AsOneIsExtracted(text: Text)
    ensures Fed(Single(text)) == Extract(text)
  {
    if text != [] {
      assert Single(text)[..0] == [] && [] + text == text && [] + Extract(text).sequences == Extract(text).sequences;
    }
  }

  /** From where both agree on a paste, they agree exactly if they do so behind it. */
  lemma {:induction false} SameUpToPaste(before: seq<Text>, content: Text, c: Outcome, d: Outcome, a: Outcome,
                                         b: Outcome)
    requires a == Opened(before, Pasted(content, c)) && b == Opened(before, Pasted(content, d))
    ensures c == d ==> a == b
    ensures c.events != d.events ==> a.events != b.events
  {
    var common := DeliveredFrom(before).events + [Paste(content)];
    Assoc(DeliveredFrom(before).events, [Paste(content)], c.events);
    Assoc(DeliveredFrom(before).events, [Paste(content)], d.events);
    SameTail(common, c.events, d.events);
  }

  lemma {:induction false} SameTail(common: seq<Event>, c: seq<Event>, d: seq<Event>)
    ensures common + c == common + d <==> c == d
  {
    assert c == (common + c)[|common|..] && d == (common + d)[|common|..];
  }

  /** A run in which the first start mark is found. */
  lemma {:induction false} UpToPaste(chunks: seq<Text>, s: int, k: nat) returns (before: seq<Text>, paste: seq<Text>)
    requires StartsIn(chunks, s, k) && Clean(chunks[..k]) && Opens(Fed(chunks[..k]), chunks[k], s)
    ensures NonEmpty(paste) && paste == Behind(chunks, s + |PASTE_START|)
    ensures ProcessedAll(START, chunks) == Opened(before, ProcessedAll(PASTING, paste))
    ensures AsOne(Flatten(chunks)) == Opened(before, Pasting(Flatten(paste), None))
  {
    var done := Fed(chunks[..k]);
    var buffer, p := done.remainder + chunks[k], s - |Flatten(done.sequences)|;
    SameBefore(chunks, s, k, done, buffer, p);
    before := OpensRun(chunks, s, k, done, buffer, p);
    OpensAsOne(Flatten(chunks), s);
    paste := Behind(chunks, s + |PASTE_START|);
  }

  /** The chunks lead to what their text in one chunk leads to. */
  ghost predicate Agree(chunks: seq<Text>) { ProcessedAll(START, chunks) == AsOne(Flatten(chunks)) }

  /** Listeners get something else. */
  ghost predicate Differ(chunks: seq<Text>) { ProcessedAll(START, chunks).events != AsOne(Flatten(chunks)).events }

  lemma {:induction false} NoPasteDecided(chunks: seq<Text>)
    requires NonEmpty(chunks) && IndexOfMark(Flatten(chunks), PASTE_START) == -1
    ensures if FirstWhole(chunks) then Agree(chunks) else Differ(chunks)
  {
    WithoutPastes(chunks);
  }

  lemma {:induction false} NotOpenedDecided(chunks: seq<Text>, s: int, k: nat)
    requires StartsIn(chunks, s, k) && !(Clean(chunks[..k]) && Opens(Fed(chunks[..k]), chunks[k], s))
    ensures !FirstWhole(chunks) && Differ(chunks)
  {
    SplitDiffers(chunks, s, k, Fed(chunks[..k]));
  }

  /** The paste does not end. */
  lemma {:induction false} OpenPasteAgrees(paste: seq<Text>)
    requires NonEmpty(paste) && IndexOfMark(Flatten(paste), PASTE_END) == -1
    ensures ProcessedAll(PASTING, paste) == Pasting(Flatten(paste), None)
  {
    PasteRun(paste);
    PastingIs(Flatten(paste));
  }

  lemma {:induction false} BothPaste(paste: seq<Text>, e: nat, content: Text, rest: seq<Text>)
    requires NonEmpty(paste) && e == IndexOfMark(Flatten(paste), PASTE_END) && rest == Behind(paste, e + |PASTE_END|)
    requires content == Flatten(paste)[..e]
    ensures ProcessedAll(PASTING, paste) == Pasted(content, ProcessedAll(START, rest))
    ensures Pasting(Flatten(paste), None) == Pasted(content, AsOne(Flatten(rest)))
  {
    PasteRun(paste);
    PastingIs(Flatten(paste));
  }

  /** The paste ends: from there on the two agree exactly if they do so behind it. */
  lemma {:induction false} RestDecides(before: seq<Text>, paste: seq<Text>, e: nat, rest: seq<Text>, a: Outcome,
                                       b: Outcome)
    requires NonEmpty(paste) && e == IndexOfMark(Flatten(paste), PASTE_END) && rest == Behind(paste, e + |PASTE_END|)
    requires a == Opened(before, ProcessedAll(PASTING, paste)) && b == Opened(before, Pasting(Flatten(paste), None))
    ensures Agree(rest) ==> a == b
    ensures Differ(rest) ==> a.events != b.events
  {
    var content, c, d := Flatten(paste)[..e], ProcessedAll(START, rest), AsOne(Flatten(rest));
    BothPaste(paste, e, content, rest);
    SameUpToPaste(before, content, c, d, a, b);
  }

  lemma {:induction false} FirstIsWhole(chunks: seq<Text>, s: int, k: nat)
    requires StartsIn(chunks, s, k) && Clean(chunks[..k]) && Opens(Fed(chunks[..k]), chunks[k], s)
    ensures FirstWhole(chunks)
  {
    forall j: nat | StartsIn(chunks, s, j) ensures Clean(chunks[..j]) && Opens(Fed(chunks[..j]), chunks[j], s) {
      OneHolds(chunks, j, k, s + |PASTE_START|);
    }
  }

  lemma {:induction false} BehindPasteIs(chunks: seq<Text>, s: int, paste: seq<Text>)
    requires NonEmpty(chunks) && s == IndexOfMark(Flatten(chunks), PASTE_START) && s != -1
    requires paste == Behind(chunks, s + |PASTE_START|)
    ensures BehindPaste(chunks) == BehindEnd(paste)
  {
  }

  lemma {:induction false} OpenedDecided(chunks: seq<Text>, s: int, k: nat)
    requires StartsIn(chunks, s, k) && Clean(chunks[..k]) && Opens(Fed(chunks[..k]), chunks[k], s)
    ensures BehindPaste(chunks).None? ==> Agree(chunks)
    ensures BehindPaste(chunks).Some? && Agree(BehindPaste(chunks).value) ==> Agree(chunks)
    ensures BehindPaste(chunks).Some? && Differ(BehindPaste(chunks).value) ==> Differ(chunks)
  {
    var before, paste := UpToPaste(chunks, s, k);
    BehindPasteIs(chunks, s, paste);
    EndDecides(before, paste, ProcessedAll(START, chunks), AsOne(Flatten(chunks)));
  }

  lemma {:induction false} EndDecides(before: seq<Text>, paste: seq<Text>, a: Outcome, b: Outcome)
    requires NonEmpty(paste)
    requires a == Opened(before, ProcessedAll(PASTING, paste)) && b == Opened(before, Pasting(Flatten(paste), None))
    ensures BehindEnd(paste).None? ==> a == b
    ensures BehindEnd(paste).Some? && Agree(BehindEnd(paste).value) ==> a == b
    ensures BehindEnd(paste).Some? && Differ(BehindEnd(paste).value) ==> a.events != b.events
  {
    if BehindEnd(paste).None? {
      OpenPasteAgrees(paste);
    } else {
      RestDecides(before, paste, IndexOfMark(Flatten(paste), PASTE_END), BehindEnd(paste).value, a, b);
    }
  }

  /** The first paste decides, or else what is behind it does. */
  lemma {:induction false} FirstDecides(chunks: seq<Text>)
    requires NonEmpty(chunks)
    ensures !FirstWhole(chunks) ==> Differ(chunks)
    ensures FirstWhole(chunks) && BehindPaste(chunks).None? ==> Agree(chunks)
    ensures FirstWhole(chunks) && BehindPaste(chunks).Some? && Agree(BehindPaste(chunks).value) ==> Agree(chunks)
    ensures FirstWhole(chunks) && BehindPaste(chunks).Some? && Differ(BehindPaste(chunks).value) ==> Differ(chunks)
  {
    var s := IndexOfMark(Flatten(chunks), PASTE_START);
    if s == -1 {
      NoPasteDecided(chunks);
    } else {
      var k := ChunkOf(chunks, s + |PASTE_START|);
      if Clean(chunks[..k]) && Opens(Fed(chunks[..k]), chunks[k], s) {
        FirstIsWhole(chunks, s, k);
        OpenedDecided(chunks, s, k);
      } else {
        NotOpenedDecided(chunks, s, k);
      }
    }
  }

  /**
   * Input with any number of pastes, in any chunks, leads to what its text in one chunk leads to, the same events and
   * the same state, if and only if no boundary divides an escape sequence or the start mark of a paste; else listeners
   * get something else.
   */
  lemma {:induction false} PastesInChunks(chunks: seq<Text>)
    requires NonEmpty(chunks)
    ensures if Undivided(chunks) then Agree(chunks) else Differ(chunks)
    decreases |Flatten(chunks)|
  {
    FirstDecides(chunks);
    var rest := BehindPaste(chunks);
    if rest.Some? { PastesInChunks(rest.value); }
  }
}
