/** Splicing an overlay into a rendered line, cell by cell: packages/tui/src/tui.ts and its slicing helpers. */
module Overlays {
  import opened Common
  import opened AnsiCodes
  import opened StyleRoundTrip
  import opened Tracker
  import opened StyledText

  /** Columns a run of cells takes. */
  function Span(cells: seq<Styled>): nat {
    if cells == [] then 0
    else Span(cells[..|cells| - 1]) + (if cells[|cells| - 1].cell.Cell? then cells[|cells| - 1].cell.width else 0)
  }

  /** A cell that starts at column c lies in columns lo..hi; unless `strict` it may stick out on the right. */
  predicate InRange(c: int, width: int, lo: int, hi: int, strict: bool) {
    lo <= c < hi && (!strict || c + width <= hi)
  }

  /** The cells of a line that lie in columns lo..hi. */
  function Within(cells: seq<Styled>, lo: int, hi: int, strict: bool): seq<Styled> {
    if cells == [] then []
    else
      var init, last := cells[..|cells| - 1], cells[|cells| - 1];
      Within(init, lo, hi, strict)
      + if last.cell.Cell? && InRange(Span(init), last.cell.width, lo, hi, strict) then [last] else []
  }

  lemma {:induction false} CellStep(s: Style, text: Text, item: Item, lo: int, hi: int, strict: bool)
    ensures var cells, more := Cells(s, text), Cells(s, text + [item]);
            if item.Cell? then
              && more == cells + [Styled(item, After(s, text))]
              && Span(more) == Span(cells) + item.width
              && Within(more, lo, hi, strict)
                 == Within(cells, lo, hi, strict)
                    + if InRange(Span(cells), item.width, lo, hi, strict) then [Styled(item, After(s, text))] else []
            else more == cells
    ensures After(s, text + [item]) == if item.Code? then Processed(After(s, text), item.text) else After(s, text)
  {
    assert (text + [item])[..|text|] == text;
    var cells, more := Cells(s, text), Cells(s, text + [item]);
    if item.Cell? {
      assert more == cells + [Styled(item, After(s, text))];
      assert more[..|cells|] == cells;
    } else {
      assert more == cells + [];
    }
  }

  lemma {:induction false} SpanIsWidth(s: Style, text: Text)
    ensures Span(Cells(s, text)) == Width(text)
  {
    if text != [] {
      var init, last := text[..|text| - 1], text[|text| - 1];
      SpanIsWidth(s, init);
      assert init + [last] == text;
      SpanNext(s, init, last);
      AppendItem(s, init, last);
    }
  }

  lemma {:induction false} SpanNext(s: Style, text: Text, item: Item)
    ensures Span(Cells(s, text + [item])) == Span(Cells(s, text)) + if item.Cell? then item.width else 0
  {
    CellStep(s, text, item, 0, 0, true);
  }

  /** Cells from column hi on are outside every range that ends at hi. */
  lemma {:induction false} BeyondRange(s: Style, text: Text, k: nat, lo: int, hi: int, strict: bool)
    requires k <= |text| && hi <= Span(Cells(s, text[..k]))
    ensures Within(Cells(s, text), lo, hi, strict) == Within(Cells(s, text[..k]), lo, hi, strict)
    ensures hi <= Span(Cells(s, text))
    decreases |text|
  {
    if k == |text| {
      assert text[..k] == text;
    } else {
      var init, last := text[..|text| - 1], text[|text| - 1];
      assert init[..k] == text[..k];
      BeyondRange(s, init, k, lo, hi, strict);
      BeyondNext(s, init, last, lo, hi, strict, text);
    }
  }

  lemma {:induction false} BeyondNext(s: Style, init: Text, last: Item, lo: int, hi: int, strict: bool, text: Text)
    requires hi <= Span(Cells(s, init)) && text == init + [last]
    ensures Within(Cells(s, text), lo, hi, strict) == Within(Cells(s, init), lo, hi, strict)
            && hi <= Span(Cells(s, text))
  {
    CellStep(s, init, last, lo, hi, strict);
    assert Within(Cells(s, init), lo, hi, strict) + [] == Within(Cells(s, init), lo, hi, strict);
  }

  lemma {:induction false} EmptyRange(cells: seq<Styled>, lo: int, hi: int, strict: bool)
    requires hi <= lo
    ensures Within(cells, lo, hi, strict) == []
  {
    if cells != [] { EmptyRange(cells[..|cells| - 1], lo, hi, strict); }
  }

  lemma {:induction false} AppendCodes(s: Style, text: Text, codes: Text)
    requires forall i | 0 <= i < |codes| :: codes[i].Code?
    ensures Cells(s, text + codes) == Cells(s, text) && Width(text + codes) == Width(text)
    decreases |codes|
  {
    if codes == [] {
      assert text + codes == text;
    } else {
      var n := |codes| - 1;
      AppendCodes(s, text, codes[..n]);
      AppendItem(s, text + codes[..n], codes[n]);
      assert text + codes == text + codes[..n] + [codes[n]];
    }
  }

  // ----- sliceWithWidth

  /** What the scan has cut out, the sequences it still holds back, and where it stands. */
  datatype Slice = Slice(text: Text, pending: Text, col: nat, width: nat)

  function SliceStep(st: Slice, item: Item, lo: int, hi: int, strict: bool): Slice {
    if item.Code? then
      if lo <= st.col < hi then st.(text := st.text + [item])
      else if st.col < lo then st.(pending := st.pending + [item])
      else st
    else if InRange(st.col, item.width, lo, hi, strict) then
      Slice(st.text + st.pending + [item], [], st.col + item.width, st.width + item.width)
    else st.(col := st.col + item.width)
  }

  function SliceOf(line: Text, lo: int, hi: int, strict: bool): Slice {
    if line == [] then Slice([], [], 0, 0)
    else SliceStep(SliceOf(line[..|line| - 1], lo, hi, strict), line[|line| - 1], lo, hi, strict)
  }

  lemma {:induction false} SliceNext(line: Text, k: nat, lo: int, hi: int, strict: bool)
    requires k < |line|
    ensures SliceOf(line[..k + 1], lo, hi, strict)
            == SliceStep(SliceOf(line[..k], lo, hi, strict), line[k], lo, hi, strict)
  {
    assert line[..k + 1][..k] == line[..k];
  }

  /** Nothing is cut out any more once the scan has reached column hi. */
  lemma {:induction false} SliceStops(line: Text, k: nat, lo: int, hi: int, strict: bool)
    requires k <= |line| && lo <= hi && hi <= SliceOf(line[..k], lo, hi, strict).col
    ensures var st, done := SliceOf(line, lo, hi, strict), SliceOf(line[..k], lo, hi, strict);
            hi <= st.col && st.text == done.text && st.width == done.width
    decreases |line|
  {
    var n := |line| - 1;
    if k == |line| {
      assert line[..k] == line;
    } else {
      assert line[..n][..k] == line[..k];
      SliceStops(line[..n], k, lo, hi, strict);
    }
  }

  /** sliceWithWidth: the cells in `length` columns from startCol on. */
  method SliceWithWidth(line: Text, startCol: nat, length: int, strict: bool) returns (text: Text, width: int)
    ensures length <= 0 ==> text == [] && width == 0
    ensures length > 0 ==>
              var st := SliceOf(line, startCol, startCol + length, strict); text == st.text && width == st.width
  {
    if length <= 0 { return [], 0; }
    var endCol := startCol + length;
    var result: Text, resultWidth, currentCol, i, pendingAnsi: Text := [], 0, 0, 0, [];
    while i < |line|
      invariant 0 <= i <= |line| && 0 <= currentCol && 0 <= resultWidth
      invariant SliceOf(line[..i], startCol, endCol, strict) == Slice(result, pendingAnsi, currentCol, resultWidth)
    {
      var item := line[i];
      SliceNext(line, i, startCol, endCol, strict);
      if item.Code? {
        if startCol <= currentCol < endCol {
          result := result + [item];
        } else if currentCol < startCol {
          pendingAnsi := pendingAnsi + [item];
        }
      } else {
        if startCol <= currentCol < endCol && (!strict || currentCol + item.width <= endCol) {
          result, pendingAnsi := result + pendingAnsi + [item], [];
          resultWidth := resultWidth + item.width;
        }
        currentCol := currentCol + item.width;
        if currentCol >= endCol {
          SliceStops(line, i + 1, startCol, endCol, strict);
          return result, resultWidth;
        }
      }
      i := i + 1;
    }
    assert line[..|line|] == line;
    return result, resultWidth;
  }

  function Glyphs(cells: seq<Styled>): seq<Item> {
    if cells == [] then [] else Glyphs(cells[..|cells| - 1]) + [cells[|cells| - 1].cell]
  }

  lemma {:induction false} GlyphsSnoc(cells: seq<Styled>, cell: Styled)
    ensures Glyphs(cells + [cell]) == Glyphs(cells) + [cell.cell]
  {
    assert (cells + [cell])[..|cells|] == cells;
  }

  predicate OnlyCodes(text: Text) { forall i | 0 <= i < |text| :: text[i].Code? }

  ghost predicate Shows(read: Text, st: Slice, lo: int, hi: int, strict: bool) {
    && st.col == Span(Cells(PLAIN, read)) && st.width == Width(st.text) && OnlyCodes(st.pending)
    && Glyphs(Cells(PLAIN, st.text)) == Glyphs(Within(Cells(PLAIN, read), lo, hi, strict))
  }

  lemma {:induction false} KeptGlyphs(read: Text, st: Slice, item: Item, lo: int, hi: int, strict: bool, next: Text,
                                      text: Text)
    requires Shows(read, st, lo, hi, strict) && item.Cell? && InRange(st.col, item.width, lo, hi, strict)
    requires next == read + [item] && text == st.text + st.pending + [item]
    ensures Glyphs(Cells(PLAIN, text)) == Glyphs(Within(Cells(PLAIN, next), lo, hi, strict))
    ensures Width(text) == st.width + item.width && Span(Cells(PLAIN, next)) == st.col + item.width
  {
    var kept := Within(Cells(PLAIN, read), lo, hi, strict);
    CellStep(PLAIN, read, item, lo, hi, strict);
    AppendCodes(PLAIN, st.text, st.pending);
    AppendItem(PLAIN, st.text + st.pending, item);
    GlyphsSnoc(kept, Styled(item, After(PLAIN, read)));
    GlyphsSnoc(Cells(PLAIN, st.text), Styled(item, After(PLAIN, st.text + st.pending)));
  }

  lemma {:induction false} KeptShows(read: Text, st: Slice, item: Item, lo: int, hi: int, strict: bool, next: Text,
                                     kept: Slice)
    requires Shows(read, st, lo, hi, strict) && item.Cell? && InRange(st.col, item.width, lo, hi, strict)
    requires next == read + [item]
    requires kept == Slice(st.text + st.pending + [item], [], st.col + item.width, st.width + item.width)
    ensures Shows(next, kept, lo, hi, strict)
  {
    KeptGlyphs(read, st, item, lo, hi, strict, next, kept.text);
  }

  lemma {:induction false} CodeShows(read: Text, text: Text, item: Item, lo: int, hi: int, strict: bool, next: Text)
    requires item.Code? && next == read + [item]
    ensures Cells(PLAIN, text + [item]) == Cells(PLAIN, text) && Width(text + [item]) == Width(text)
    ensures Cells(PLAIN, next) == Cells(PLAIN, read)
  {
    CellStep(PLAIN, read, item, lo, hi, strict);
    AppendItem(PLAIN, text, item);
  }

  lemma {:induction false} CodeStepShows(read: Text, st: Slice, item: Item, lo: int, hi: int, strict: bool, next: Text)
    requires Shows(read, st, lo, hi, strict) && next == read + [item] && item.Code?
    ensures Shows(next, SliceStep(st, item, lo, hi, strict), lo, hi, strict)
  {
    CodeShows(read, st.text, item, lo, hi, strict, next);
  }

  lemma {:induction false} SkippedStepShows(read: Text, st: Slice, item: Item, lo: int, hi: int, strict: bool,
                                            next: Text)
    requires Shows(read, st, lo, hi, strict) && next == read + [item]
    requires item.Cell? && !InRange(st.col, item.width, lo, hi, strict)
    ensures Shows(next, SliceStep(st, item, lo, hi, strict), lo, hi, strict)
  {
    SkippedShows(read, item, lo, hi, strict, next);
  }

  lemma {:induction false} StepShows(read: Text, st: Slice, item: Item, lo: int, hi: int, strict: bool, next: Text)
    requires Shows(read, st, lo, hi, strict) && next == read + [item]
    ensures Shows(next, SliceStep(st, item, lo, hi, strict), lo, hi, strict)
  {
    if item.Code? {
      CodeStepShows(read, st, item, lo, hi, strict, next);
    } else if InRange(st.col, item.width, lo, hi, strict) {
      KeptShows(read, st, item, lo, hi, strict, next, SliceStep(st, item, lo, hi, strict));
    } else {
      SkippedStepShows(read, st, item, lo, hi, strict, next);
    }
  }

  lemma {:induction false} SkippedShows(read: Text, item: Item, lo: int, hi: int, strict: bool, next: Text)
    requires item.Cell? && !InRange(Span(Cells(PLAIN, read)), item.width, lo, hi, strict) && next == read + [item]
    ensures Within(Cells(PLAIN, next), lo, hi, strict) == Within(Cells(PLAIN, read), lo, hi, strict)
    ensures Span(Cells(PLAIN, next)) == Span(Cells(PLAIN, read)) + item.width
  {
    CellStep(PLAIN, read, item, lo, hi, strict);
    assert Within(Cells(PLAIN, read), lo, hi, strict) + [] == Within(Cells(PLAIN, read), lo, hi, strict);
  }

  /** A slice has the cells of its columns, whatever their styles. */
  lemma {:induction false} SliceShows(line: Text, lo: int, hi: int, strict: bool)
    ensures Shows(line, SliceOf(line, lo, hi, strict), lo, hi, strict)
  {
    if line != [] {
      var init, item := line[..|line| - 1], line[|line| - 1];
      SliceShows(init, lo, hi, strict);
      StepShows(init, SliceOf(init, lo, hi, strict), item, lo, hi, strict, line);
    }
  }

  /** Nothing is held back and the slice has the line's cells in the line's styles. */
  ghost predicate Faithful(read: Text, st: Slice, lo: int, hi: int, strict: bool) {
    && st.pending == [] && lo <= st.col == Span(Cells(PLAIN, read))
    && (st.col < hi ==> After(PLAIN, st.text) == After(PLAIN, read))
    && Cells(PLAIN, st.text) == Within(Cells(PLAIN, read), lo, hi, strict)
  }

  lemma {:induction false} CodeStaysFaithful(read: Text, st: Slice, item: Item, lo: int, hi: int, strict: bool,
                                             next: Slice)
    requires Faithful(read, st, lo, hi, strict) && item.Code? && next == SliceStep(st, item, lo, hi, strict)
    ensures Faithful(read + [item], next, lo, hi, strict)
  {
    CellStep(PLAIN, read, item, lo, hi, strict);
    AppendItem(PLAIN, st.text, item);
    assert Cells(PLAIN, st.text) + [] == Cells(PLAIN, st.text);
  }

  lemma {:induction false} KeptStaysFaithful(read: Text, st: Slice, item: Item, lo: int, hi: int, strict: bool,
                                             next: Slice)
    requires Faithful(read, st, lo, hi, strict) && item.Cell? && InRange(st.col, item.width, lo, hi, strict)
    requires next == SliceStep(st, item, lo, hi, strict)
    ensures Faithful(read + [item], next, lo, hi, strict)
  {
    CellStep(PLAIN, read, item, lo, hi, strict);
    assert st.text + [] == st.text;
    AppendItem(PLAIN, st.text, item);
  }

  lemma {:induction false} SkippedStaysFaithful(read: Text, st: Slice, item: Item, lo: int, hi: int, strict: bool,
                                                next: Slice)
    requires Faithful(read, st, lo, hi, strict) && item.Cell? && !InRange(st.col, item.width, lo, hi, strict)
    requires next == SliceStep(st, item, lo, hi, strict)
    ensures Faithful(read + [item], next, lo, hi, strict)
  {
    CellStep(PLAIN, read, item, lo, hi, strict);
    assert Within(Cells(PLAIN, read), lo, hi, strict) + [] == Within(Cells(PLAIN, read), lo, hi, strict);
  }

  lemma {:induction false} StepFaithful(read: Text, st: Slice, item: Item, lo: int, hi: int, strict: bool)
    requires Faithful(read, st, lo, hi, strict)
    ensures Faithful(read + [item], SliceStep(st, item, lo, hi, strict), lo, hi, strict)
  {
    var next := SliceStep(st, item, lo, hi, strict);
    if item.Code? {
      CodeStaysFaithful(read, st, item, lo, hi, strict, next);
    } else if InRange(st.col, item.width, lo, hi, strict) {
      KeptStaysFaithful(read, st, item, lo, hi, strict, next);
    } else {
      SkippedStaysFaithful(read, st, item, lo, hi, strict, next);
    }
  }

  lemma {:induction false} FaithfulFrom(line: Text, k: nat, lo: int, hi: int, strict: bool)
    requires k <= |line| && Faithful(line[..k], SliceOf(line[..k], lo, hi, strict), lo, hi, strict)
    ensures Faithful(line, SliceOf(line, lo, hi, strict), lo, hi, strict)
    decreases |line|
  {
    if k == |line| {
      assert line[..k] == line;
    } else {
      var init, item := line[..|line| - 1], line[|line| - 1];
      assert init[..k] == line[..k] && init + [item] == line;
      FaithfulFrom(init, k, lo, hi, strict);
      StepFaithful(init, SliceOf(init, lo, hi, strict), item, lo, hi, strict);
    }
  }

  /** From column 0 on a slice is exact: the cells of those columns in the styles they have in the line. */
  lemma {:induction false} SliceFromStart(line: Text, hi: int, strict: bool)
    ensures Cells(PLAIN, SliceOf(line, 0, hi, strict).text) == Within(Cells(PLAIN, line), 0, hi, strict)
  {
    assert line[..0] == [];
    FaithfulFrom(line, 0, 0, hi, strict);
  }

  /** The cell at k is the first one that lies in the columns. */
  ghost predicate FirstKept(line: Text, k: nat, lo: int, hi: int, strict: bool) {
    && k < |line| && line[k].Cell?
    && InRange(Width(line[..k]), line[k].width, lo, hi, strict)
    && Within(Cells(PLAIN, line[..k]), lo, hi, strict) == []
  }

  /** The escape sequences of a text that stand at columns lo..hi. */
  function CodesAt(text: Text, lo: int, hi: int): Text {
    if text == [] then []
    else
      var init, last := text[..|text| - 1], text[|text| - 1];
      CodesAt(init, lo, hi) + if last.Code? && lo <= Width(init) < hi then [last] else []
  }

  lemma {:induction false} NotKept(init: Text, item: Item, lo: int, hi: int, strict: bool, read: Text)
    requires read == init + [item] && Within(Cells(PLAIN, read), lo, hi, strict) == []
    ensures Within(Cells(PLAIN, init), lo, hi, strict) == []
    ensures item.Cell? ==> !InRange(Width(init), item.width, lo, hi, strict)
  {
    CellStep(PLAIN, init, item, lo, hi, strict);
    SpanIsWidth(PLAIN, init);
  }

  /** As long as no cell is kept, sequences before column lo are held back and those from there on are put out. */
  ghost predicate Holding(read: Text, lo: nat, hi: int, strict: bool) {
    SliceOf(read, lo, hi, strict) == Slice(CodesAt(read, lo, hi), CodesAt(read, 0, lo), Width(read), 0)
  }

  lemma {:induction false} HoldsNext(init: Text, item: Item, lo: nat, hi: int, strict: bool, read: Text)
    requires Holding(init, lo, hi, strict) && (item.Cell? ==> !InRange(Width(init), item.width, lo, hi, strict))
    requires read == init + [item]
    ensures Holding(read, lo, hi, strict)
  {
    assert read[..|init|] == init;
    assert CodesAt(init, lo, hi) + [] == CodesAt(init, lo, hi) && CodesAt(init, 0, lo) + [] == CodesAt(init, 0, lo);
  }

  lemma {:induction false} HoldsBack(read: Text, lo: nat, hi: int, strict: bool)
    requires Within(Cells(PLAIN, read), lo, hi, strict) == []
    ensures Holding(read, lo, hi, strict)
  {
    if read != [] {
      var init, item := read[..|read| - 1], read[|read| - 1];
      NotKept(init, item, lo, hi, strict, read);
      HoldsBack(init, lo, hi, strict);
      HoldsNext(init, item, lo, hi, strict, read);
    }
  }

  lemma {:induction false} NoCodesYet(text: Text, lo: int, hi: int)
    requires Width(text) < lo
    ensures CodesAt(text, lo, hi) == []
  {
    if text != [] { NoCodesYet(text[..|text| - 1], lo, hi); }
  }

  lemma {:induction false} OneMoreCode(s: Style, held: Text, edge: Text, item: Item, before: bool)
    requires item.Code? && (before ==> edge == [])
    ensures After(s, (if before then held + [item] else held) + (if before then edge else edge + [item]))
         == Processed(After(s, held + edge), item.text)
  {
    AppendItem(s, held + edge, item);
    Assoc(held, edge, [item]);
    if before {
      assert held + edge == held && held + [item] + edge == held + [item];
    }
  }

  /** Columns only grow along a line, so it reads the sequences before a column before those from there on. */
  lemma {:induction false} CodesInOrder(s: Style, text: Text, lo: nat, hi: int)
    requires Width(text) < hi
    ensures After(s, text) == After(s, CodesAt(text, 0, lo) + CodesAt(text, lo, hi))
  {
    if text != [] {
      var init, item := text[..|text| - 1], text[|text| - 1];
      CodesInOrder(s, init, lo, hi);
      var held, edge := CodesAt(init, 0, lo), CodesAt(init, lo, hi);
      assert held + [] == held && edge + [] == edge;
      if item.Code? {
        if Width(init) < lo { NoCodesYet(init, lo, hi); }
        OneMoreCode(s, held, edge, item, Width(init) < lo);
      }
    }
  }

  /**
   * Further right, sequences held back from before startCol are put after those found at startCol itself. The slice
   * has the line's styles if and only if it makes no difference which of the two are read first.
   */
  lemma {:induction false} SliceStyles(line: Text, k: nat, lo: nat, hi: int, strict: bool)
    requires FirstKept(line, k, lo, hi, strict)
    ensures var held, edge := CodesAt(line[..k], 0, lo), CodesAt(line[..k], lo, hi);
            Cells(PLAIN, SliceOf(line, lo, hi, strict).text) == Within(Cells(PLAIN, line), lo, hi, strict)
            <==> After(PLAIN, edge + held) == After(PLAIN, held + edge)
  {
    HoldsBack(line[..k], lo, hi, strict);
    CodesInOrder(PLAIN, line[..k], lo, hi);
    SliceStylesAt(line, k, lo, hi, strict);
  }

  /** There is such a cell unless no cell lies in the columns. */
  lemma {:induction false} FirstIsKept(line: Text, lo: nat, hi: int, strict: bool) returns (k: nat)
    requires Within(Cells(PLAIN, line), lo, hi, strict) != []
    ensures FirstKept(line, k, lo, hi, strict)
  {
    var init, item := line[..|line| - 1], line[|line| - 1];
    assert init + [item] == line;
    CellStep(PLAIN, init, item, lo, hi, strict);
    SpanIsWidth(PLAIN, init);
    if Within(Cells(PLAIN, init), lo, hi, strict) == [] {
      k := |line| - 1;
    } else {
      k := FirstIsKept(init, lo, hi, strict);
      assert init[..k] == line[..k];
    }
  }

  /** The first cell of the slice, and the same cell in its columns. */
  lemma {:induction false} FirstInSlice(line: Text, k: nat, lo: int, hi: int, strict: bool)
    requires FirstKept(line, k, lo, hi, strict)
    ensures var st, more := SliceOf(line[..k], lo, hi, strict), SliceOf(line[..k + 1], lo, hi, strict);
            && Cells(PLAIN, more.text) == [Styled(line[k], After(PLAIN, st.text + st.pending))]
            && Within(Cells(PLAIN, line[..k + 1]), lo, hi, strict) == [Styled(line[k], After(PLAIN, line[..k]))]
            && (After(PLAIN, st.text + st.pending) == After(PLAIN, line[..k]) ==>
                Faithful(line[..k + 1], more, lo, hi, strict))
  {
    var read := line[..k];
    TakeNext(line, k);
    SliceShows(read, lo, hi, strict);
    SpanIsWidth(PLAIN, read);
    SliceNext(line, k, lo, hi, strict);
    FirstCell(read, SliceOf(read, lo, hi, strict), line[k], lo, hi, strict, line[..k + 1]);
  }

  lemma {:induction false} FirstsDiffer(a: seq<Styled>, b: seq<Styled>, cell: Item, s: Style, t: Style)
    requires [Styled(cell, s)] <= a && [Styled(cell, t)] <= b && s != t
    ensures a != b
  {
    assert a[0] == Styled(cell, s) && b[0] == Styled(cell, t);
  }

  lemma {:induction false} SliceStylesAt(line: Text, k: nat, lo: int, hi: int, strict: bool)
    requires FirstKept(line, k, lo, hi, strict)
    ensures var st := SliceOf(line[..k], lo, hi, strict);
            Cells(PLAIN, SliceOf(line, lo, hi, strict).text) == Within(Cells(PLAIN, line), lo, hi, strict)
            <==> After(PLAIN, st.text + st.pending) == After(PLAIN, line[..k])
  {
    var st := SliceOf(line[..k], lo, hi, strict);
    var s, t := After(PLAIN, st.text + st.pending), After(PLAIN, line[..k]);
    FirstInSlice(line, k, lo, hi, strict);
    if s == t {
      FaithfulFrom(line, k + 1, lo, hi, strict);
    } else {
      KeepsFirst(line, k + 1, lo, hi, strict);
      FirstsDiffer(Cells(PLAIN, SliceOf(line, lo, hi, strict).text), Within(Cells(PLAIN, line), lo, hi, strict),
                   line[k], s, t);
    }
  }

  lemma {:induction false} FirstCell(read: Text, st: Slice, cell: Item, lo: int, hi: int, strict: bool, next: Text)
    requires Shows(read, st, lo, hi, strict) && cell.Cell? && InRange(st.col, cell.width, lo, hi, strict)
    requires Within(Cells(PLAIN, read), lo, hi, strict) == [] && next == read + [cell]
    ensures var more := SliceStep(st, cell, lo, hi, strict);
            && Cells(PLAIN, more.text) == [Styled(cell, After(PLAIN, st.text + st.pending))]
            && Within(Cells(PLAIN, next), lo, hi, strict) == [Styled(cell, After(PLAIN, read))]
            && (After(PLAIN, st.text + st.pending) == After(PLAIN, read) ==> Faithful(next, more, lo, hi, strict))
  {
    CellStep(PLAIN, read, cell, lo, hi, strict);
    AppendCodes(PLAIN, st.text, st.pending);
    AppendItem(PLAIN, st.text + st.pending, cell);
    assert Glyphs(Cells(PLAIN, st.text)) == [];
  }

  /** Scanning on only adds cells, to the slice and to the columns it covers. */
  lemma {:induction false} KeepsFirst(line: Text, k: nat, lo: int, hi: int, strict: bool)
    requires k <= |line|
    ensures Cells(PLAIN, SliceOf(line[..k], lo, hi, strict).text) <= Cells(PLAIN, SliceOf(line, lo, hi, strict).text)
    ensures Within(Cells(PLAIN, line[..k]), lo, hi, strict) <= Within(Cells(PLAIN, line), lo, hi, strict)
    decreases |line|
  {
    if k == |line| {
      assert line[..k] == line;
    } else {
      var init, item := line[..|line| - 1], line[|line| - 1];
      assert init[..k] == line[..k] && init + [item] == line;
      KeepsFirst(init, k, lo, hi, strict);
      StepKeeps(init, SliceOf(init, lo, hi, strict), item, lo, hi, strict);
    }
  }

  lemma {:induction false} StepKeeps(read: Text, st: Slice, item: Item, lo: int, hi: int, strict: bool)
    ensures Cells(PLAIN, st.text) <= Cells(PLAIN, SliceStep(st, item, lo, hi, strict).text)
    ensures Within(Cells(PLAIN, read), lo, hi, strict) <= Within(Cells(PLAIN, read + [item]), lo, hi, strict)
  {
    CellStep(PLAIN, read, item, lo, hi, strict);
    AppendItem(PLAIN, st.text, item);
    Concat(PLAIN, st.text, st.pending);
    AppendItem(PLAIN, st.text + st.pending, item);
  }

  lemma {:induction false} SliceAppend(line: Text, item: Item, lo: int, hi: int, strict: bool)
    ensures SliceOf(line + [item], lo, hi, strict) == SliceStep(SliceOf(line, lo, hi, strict), item, lo, hi, strict)
  {
    assert (line + [item])[..|line|] == line;
  }

  lemma {:induction false} HeldBack(on: Item, cell: Item, reset: Item, read: Text)
    requires on.Code? && reset.Code? && cell.Cell? && cell.width == 1 && read == [on, cell, reset]
    ensures SliceOf(read, 1, 2, true) == Slice([reset], [on], 1, 0)
  {
    assert [] + [on] == [on] && [on] + [cell] == [on, cell] && [on, cell] + [reset] == read;
    SliceAppend([], on, 1, 2, true);
    SliceAppend([on], cell, 1, 2, true);
    SliceAppend([on, cell], reset, 1, 2, true);
  }

  lemma {:induction false} ResetInLine(on: Item, cell: Item, reset: Item, read: Text)
    requires on.Code? && reset.Code? && cell.Cell? && cell.width == 1 && read == [on, cell, reset]
    ensures Within(Cells(PLAIN, read), 1, 2, true) == []
    ensures After(PLAIN, read) == Processed(Processed(PLAIN, on.text), reset.text)
  {
    assert [] + [on] == [on] && [on] + [cell] == [on, cell] && [on, cell] + [reset] == read;
    CellStep(PLAIN, [], on, 1, 2, true);
    CellStep(PLAIN, [on], cell, 1, 2, true);
    CellStep(PLAIN, [on, cell], reset, 1, 2, true);
  }

  lemma {:induction false} AfterCodes(s: Style, a: Item, b: Item)
    requires a.Code? && b.Code?
    ensures After(s, [a] + [b]) == Processed(Processed(s, a.text), b.text)
  {
    assert [] + [a] == [a];
    AppendItem(s, [], a);
    AppendItem(s, [a], b);
  }

  /** A styled word, a reset, a plain word: cut from the reset on, the plain word comes out styled. */
  lemma {:induction false} SliceLosesStyle(style: Style, cell: Item)
    requires Trackable(style) && style.link.None? && SgrCodes(style) != [] && cell.Cell? && cell.width == 1
    ensures var line := [Code(SgrCode(style)), cell, Code(RESET), cell];
            && Within(Cells(PLAIN, line), 1, 2, true) == [Styled(cell, PLAIN)]
            && Cells(PLAIN, SliceOf(line, 1, 2, true).text) == [Styled(cell, style)]
  {
    SgrCodeReads(style);
    ResetReads(style);
    ResetReads(PLAIN);
    var on, reset := Code(SgrCode(style)), Code(RESET);
    var read, line := [on, cell, reset], [on, cell, reset, cell];
    assert read + [cell] == line;
    HeldBack(on, cell, reset, read);
    ResetInLine(on, cell, reset, read);
    AfterCodes(PLAIN, reset, on);
    SliceShows(read, 1, 2, true);
    FirstCell(read, Slice([reset], [on], 1, 0), cell, 1, 2, true, line);
    SliceAppend(read, cell, 1, 2, true);
  }

  // ----- extractSegments

  /** The line up to column beforeEnd: its cells, and sequences waiting for the next one. */
  ghost predicate BeforeCut(read: Text, before: Text, pending: Text, col: int, beforeWidth: int, beforeEnd: int) {
    && OnlyCodes(pending) && beforeWidth == Width(before)
    && (col < beforeEnd ==> After(PLAIN, before + pending) == After(PLAIN, read))
    && Cells(PLAIN, before) == Within(Cells(PLAIN, read), 0, beforeEnd, true)
  }

  /** The line from column lo on, its first cell led in by the style that it had. */
  ghost predicate AfterCut(read: Text, after: Text, started: bool, col: int, afterWidth: int, lo: int, hi: int,
                           strict: bool) {
    && afterWidth == Width(after) && (if started then lo <= col else after == [])
    && (started && col < hi ==> After(PLAIN, after) == After(PLAIN, read))
    && Cells(PLAIN, after) == Within(Cells(PLAIN, read), lo, hi, strict)
  }

  lemma {:induction false} BeforeCode(read: Text, before: Text, pending: Text, col: int, beforeWidth: int,
                                      beforeEnd: int, code: Item, next: Text)
    requires BeforeCut(read, before, pending, col, beforeWidth, beforeEnd) && code.Code? && next == read + [code]
    ensures BeforeCut(next, before, if col < beforeEnd then pending + [code] else pending, col, beforeWidth, beforeEnd)
  {
    CellStep(PLAIN, read, code, 0, beforeEnd, true);
    AppendItem(PLAIN, before + pending, code);
    assert before + (pending + [code]) == before + pending + [code];
  }

  lemma {:induction false} BeforeCell(read: Text, before: Text, pending: Text, col: int, beforeWidth: int,
                                      beforeEnd: int, cell: Item, next: Text)
    requires BeforeCut(read, before, pending, col, beforeWidth, beforeEnd) && cell.Cell? && next == read + [cell]
    requires col == Span(Cells(PLAIN, read))
    ensures if InRange(col, cell.width, 0, beforeEnd, true)
            then BeforeCut(next, before + pending + [cell], [], col + cell.width, beforeWidth + cell.width, beforeEnd)
            else BeforeCut(next, before, pending, col + cell.width, beforeWidth, beforeEnd)
  {
    CellStep(PLAIN, read, cell, 0, beforeEnd, true);
    if InRange(col, cell.width, 0, beforeEnd, true) {
      AppendCodes(PLAIN, before, pending);
      AppendItem(PLAIN, before + pending, cell);
      assert before + pending + [cell] + [] == before + pending + [cell];
    } else {
      assert Cells(PLAIN, before) + [] == Cells(PLAIN, before);
    }
  }

  lemma {:induction false} AfterCode(read: Text, after: Text, started: bool, col: int, afterWidth: int, lo: int,
                                     hi: int, strict: bool, code: Item, next: Text)
    requires AfterCut(read, after, started, col, afterWidth, lo, hi, strict) && code.Code? && next == read + [code]
    ensures AfterCut(next,
                     if lo <= col < hi && started then after + [code]
                     else after, started, col, afterWidth, lo, hi, strict)
  {
    CellStep(PLAIN, read, code, lo, hi, strict);
    AppendItem(PLAIN, after, code);
    assert Cells(PLAIN, after) + [] == Cells(PLAIN, after);
  }

  lemma {:induction false} AfterCell(read: Text, after: Text, started: bool, col: int, afterWidth: int, lo: int,
                                     hi: int, strict: bool, cell: Item, next: Text)
    requires AfterCut(read, after, started, col, afterWidth, lo, hi, strict) && cell.Cell? && next == read + [cell]
    requires col == Span(Cells(PLAIN, read)) && WellFormed(read)
    ensures var lead := if started then after else after + ActiveItems(After(PLAIN, read));
            if InRange(col, cell.width, lo, hi, strict)
            then AfterCut(next, lead + [cell], true, col + cell.width, afterWidth + cell.width, lo, hi, strict)
            else AfterCut(next, after, started, col + cell.width, afterWidth, lo, hi, strict)
  {
    CellStep(PLAIN, read, cell, lo, hi, strict);
    var s := After(PLAIN, read);
    if InRange(col, cell.width, lo, hi, strict) {
      AfterTrackable(PLAIN, read);
      ActiveItemsRestore(s);
      CodesShowNothing(PLAIN, ActiveItems(s));
      var lead := if started then after else after + ActiveItems(s);
      assert !started ==> lead == ActiveItems(s);
      AppendItem(PLAIN, lead, cell);
    } else {
      assert Cells(PLAIN, after) + [] == Cells(PLAIN, after);
    }
  }

  lemma {:induction false} SpanStep(read: Text, item: Item, next: Text)
    requires next == read + [item]
    ensures Span(Cells(PLAIN, next)) == Span(Cells(PLAIN, read)) + if item.Cell? then item.width else 0
    ensures After(PLAIN, next) == if item.Code? then Processed(After(PLAIN, read), item.text) else After(PLAIN, read)
  {
    CellStep(PLAIN, read, item, 0, 0, true);
  }

  /** The two segments of a line, and what the scan knows besides. */
  datatype Cut = Cut(before: Text, beforeWidth: int, pending: Text, after: Text, afterWidth: int, started: bool)

  datatype Bounds = Bounds(beforeEnd: int, afterStart: int, afterEnd: int, strict: bool)

  ghost predicate Cutting(read: Text, cut: Cut, col: int, b: Bounds) {
    && BeforeCut(read, cut.before, cut.pending, col, cut.beforeWidth, b.beforeEnd)
    && AfterCut(read, cut.after, cut.started, col, cut.afterWidth, b.afterStart, b.afterEnd, b.strict)
  }

  method CutCode(cut: Cut, col: int, b: Bounds, code: Item, ghost read: Text, ghost next: Text) returns (cut': Cut)
    requires Cutting(read, cut, col, b) && code.Code? && next == read + [code] && b.beforeEnd <= b.afterStart
    ensures Cutting(next, cut', col, b)
  {
    BeforeCode(read, cut.before, cut.pending, col, cut.beforeWidth, b.beforeEnd, code, next);
    AfterCode(read, cut.after, cut.started, col, cut.afterWidth, b.afterStart, b.afterEnd, b.strict, code, next);
    if col < b.beforeEnd {
      cut' := cut.(pending := cut.pending + [code]);
    } else if b.afterStart <= col < b.afterEnd && cut.started {
      cut' := cut.(after := cut.after + [code]);
    } else {
      cut' := cut;
    }
  }

  method CutCell(cut: Cut, col: int, b: Bounds, cell: Item, active: Text, ghost read: Text, ghost next: Text)
    returns (cut': Cut)
    requires Cutting(read, cut, col, b) && cell.Cell? && next == read + [cell] && b.beforeEnd <= b.afterStart
    requires col == Span(Cells(PLAIN, read)) && WellFormed(read) && active == ActiveItems(After(PLAIN, read))
    ensures Cutting(next, cut', col + cell.width, b)
  {
    BeforeCell(read, cut.before, cut.pending, col, cut.beforeWidth, b.beforeEnd, cell, next);
    AfterCell(read, cut.after, cut.started, col, cut.afterWidth, b.afterStart, b.afterEnd, b.strict, cell, next);
    cut' := cut;
    if col < b.beforeEnd && col + cell.width <= b.beforeEnd {
      cut' :=
        cut.(before := cut.before + cut.pending + [cell], beforeWidth := cut.beforeWidth + cell.width, pending := []);
    } else if b.afterStart <= col < b.afterEnd {
      if !b.strict || col + cell.width <= b.afterEnd {
        var lead := if cut.started then cut.after else cut.after + active;
        cut' := cut.(after := lead + [cell], afterWidth := cut.afterWidth + cell.width, started := true);
      }
    }
  }

  predicate Finished(col: int, beforeEnd: int, afterLen: int, afterEnd: int) {
    if afterLen <= 0 then beforeEnd <= col else afterEnd <= col
  }

  /** The scan has read i items, the tracker is in style s. */
  ghost predicate Scanned(line: Text, i: nat, cut: Cut, col: int, s: Style, b: Bounds) {
    && i <= |line| && col == Span(Cells(PLAIN, line[..i])) && s == After(PLAIN, line[..i])
    && Cutting(line[..i], cut, col, b)
  }

  /** What extractSegments is to return. */
  ghost predicate Extracted(line: Text, cut: Cut, b: Bounds) {
    && cut.beforeWidth == Width(cut.before) && cut.afterWidth == Width(cut.after)
    && Cells(PLAIN, cut.before) == Within(Cells(PLAIN, line), 0, b.beforeEnd, true)
    && Cells(PLAIN, cut.after) == Within(Cells(PLAIN, line), b.afterStart, b.afterEnd, b.strict)
  }

  /** Once the scan may stop, the rest of the line is outside both segments. */
  lemma {:induction false} NothingLeft(line: Text, k: nat, cut: Cut, col: int, s: Style, b: Bounds)
    requires Scanned(line, k, cut, col, s, b) && b.beforeEnd <= b.afterStart
    requires Finished(col, b.beforeEnd, b.afterEnd - b.afterStart, b.afterEnd)
    ensures Extracted(line, cut, b)
  {
    BeyondRange(PLAIN, line, k, 0, b.beforeEnd, true);
    if b.afterEnd <= b.afterStart {
      EmptyRange(Cells(PLAIN, line), b.afterStart, b.afterEnd, b.strict);
      EmptyRange(Cells(PLAIN, line[..k]), b.afterStart, b.afterEnd, b.strict);
    } else {
      BeyondRange(PLAIN, line, k, b.afterStart, b.afterEnd, b.strict);
    }
  }

  lemma {:induction false} AllScanned(line: Text, cut: Cut, col: int, s: Style, b: Bounds)
    requires Scanned(line, |line|, cut, col, s, b)
    ensures Extracted(line, cut, b)
  {
    assert line[..|line|] == line;
  }

  method CutItem(line: Text, i: nat, cut: Cut, col: int, b: Bounds, tracker: AnsiCodeTracker)
    returns (cut': Cut, col': int)
    requires i < |line| && WellFormed(line) && b.beforeEnd <= b.afterStart
    requires Scanned(line, i, cut, col, tracker.Current(), b)
    modifies tracker
    ensures Scanned(line, i + 1, cut', col', tracker.Current(), b)
  {
    var item := line[i];
    ghost var read, next := line[..i], line[..i + 1];
    assert next == read + [item];
    SpanStep(read, item, next);
    if item.Code? {
      tracker.Process(item.text);
      col' := col;
      cut' := CutCode(cut, col, b, item, read, next);
    } else {
      cut' := CutCell(cut, col, b, item, ActiveItems(tracker.Current()), read, next);
      col' := col + item.width;
    }
  }

  /** extractSegments: the cells left of column beforeEnd and those in afterLen columns from afterStart on. */
  method ExtractSegments(line: Text, beforeEnd: int, afterStart: int, afterLen: int, strictAfter: bool,
                         tracker: AnsiCodeTracker)
    returns (cut: Cut)
    requires WellFormed(line) && beforeEnd <= afterStart
    modifies tracker
    ensures Extracted(line, cut, Bounds(beforeEnd, afterStart, afterStart + afterLen, strictAfter))
  {
    var b := Bounds(beforeEnd, afterStart, afterStart + afterLen, strictAfter);
    var currentCol, i := 0, 0;
    cut := Cut([], 0, [], [], 0, false);
    tracker.Clear();
    while i < |line|
      invariant 0 <= i && Scanned(line, i, cut, currentCol, tracker.Current(), b)
    {
      cut, currentCol := CutItem(line, i, cut, currentCol, b, tracker);
      if line[i].Cell? && Finished(currentCol, beforeEnd, afterLen, b.afterEnd) {
        NothingLeft(line, i + 1, cut, currentCol, tracker.Current(), b);
        return;
      }
      i := i + 1;
    }
    AllScanned(line, cut, currentCol, tracker.Current(), b);
  }

  // ----- compositeLineAt

  lemma {:induction false} BlanksSpan(n: nat, s: Style)
    ensures Span(Blanks(n, s)) == n
  {
    if n > 0 { BlanksSpan(n - 1, s); }
  }

  const SEGMENT_RESET: Text := [Code(RESET), Code(LINK_OFF)]

  lemma {:induction false} SegmentReset(s: Style)
    ensures Cells(s, SEGMENT_RESET) == [] && After(s, SEGMENT_RESET) == PLAIN
  {
    ResetReads(s);
    LinkOffReads(ResetSgr(s));
    CodesShowNothing(s, SEGMENT_RESET);
    AfterCodes(s, Code(RESET), Code(LINK_OFF));
    assert SEGMENT_RESET == [Code(RESET)] + [Code(LINK_OFF)];
  }

  /** A segment, padded and closed: it shows its cells and blanks, and leaves nothing behind. */
  lemma {:induction false} PaddedShows(segment: Text, pad: nat)
    ensures Cells(PLAIN, segment + Spaces(pad)) == Cells(PLAIN, segment) + Blanks(pad, After(PLAIN, segment))
    ensures Cells(PLAIN, segment + Spaces(pad) + SEGMENT_RESET) == Cells(PLAIN, segment + Spaces(pad))
    ensures After(PLAIN, segment + Spaces(pad) + SEGMENT_RESET) == PLAIN
  {
    Concat(PLAIN, segment, Spaces(pad));
    SpacesShow(pad, After(PLAIN, segment));
    SegmentReset(After(PLAIN, segment));
    Concat(PLAIN, segment + Spaces(pad), SEGMENT_RESET);
  }

  /** What is spliced: three segments, each filled up with blanks to its width. */
  function Filled(cells: seq<Styled>, width: int, s: Style): seq<Styled> {
    cells + Blanks(if Span(cells) <= width then width - Span(cells) else 0, s)
  }

  lemma {:induction false} SpanConcat(a: seq<Styled>, b: seq<Styled>)
    ensures Span(a + b) == Span(a) + Span(b)
  {
    if b == [] {
      assert a + b == a;
    } else {
      var init := b[..|b| - 1];
      assert (a + b)[..|a + b| - 1] == a + init;
      SpanConcat(a, init);
    }
  }

  lemma {:induction false} FilledSpan(cells: seq<Styled>, width: int, s: Style)
    requires Span(cells) <= width
    ensures Span(Filled(cells, width, s)) == width
  {
    var n := width - Span(cells);
    var blanks := Blanks(n, s);
    BlanksSpan(n, s);
    SpanConcat(cells, blanks);
    assert Filled(cells, width, s) == cells + blanks;
  }

  /** Cells cut out of a range take at most its columns. */
  lemma {:induction false} WithinSpan(cells: seq<Styled>, lo: int, hi: int)
    ensures Within(cells, lo, hi, true) == [] || lo + Span(Within(cells, lo, hi, true)) <= Span(cells)
    ensures Within(cells, lo, hi, true) == [] || lo + Span(Within(cells, lo, hi, true)) <= hi
  {
    if cells != [] {
      var init, last := cells[..|cells| - 1], cells[|cells| - 1];
      WithinSpan(init, lo, hi);
      if last.cell.Cell? && InRange(Span(init), last.cell.width, lo, hi, true) {
        var kept := Within(init, lo, hi, true);
        assert (kept + [last])[..|kept|] == kept;
      } else {
        assert Within(init, lo, hi, true) + [] == Within(init, lo, hi, true);
      }
    }
  }

  function NonNegative(n: int): nat { if n < 0 then 0 else n }

  /** The line that splicing is to produce. */
  function Spliced(base: seq<Styled>, overlay: seq<Styled>, startCol: nat, overlayWidth: nat, totalWidth: nat,
                   pads: Pads): seq<Styled> {
    Part(base, 0, startCol, pads.left)
    + Part(overlay, 0, overlayWidth, pads.middle)
    + Part(base, startCol + overlayWidth, totalWidth, pads.right)
  }

  /** The cells in columns lo..hi, filled up with blanks. */
  function Part(cells: seq<Styled>, lo: nat, hi: nat, s: Style): seq<Styled> {
    Filled(Within(cells, lo, hi, true), NonNegative(hi - lo), s)
  }

  /** The styles that the padding of the three segments happens to have. */
  datatype Pads = Pads(left: Style, middle: Style, right: Style)

  lemma {:induction false} Regrouped(a: Text, b: Text, c: Text, d: Text, e: Text, f: Text, g: Text, h: Text)
    ensures a + b + c + d + e + f + g + h == (a + b + c) + ((d + e + f) + (g + h))
  {
  }

  lemma {:induction false} ThreeShow(a: Text, b: Text, c: Text, left: seq<Styled>, middle: seq<Styled>,
                                     right: seq<Styled>)
    requires Cells(PLAIN, a) == left && After(PLAIN, a) == PLAIN && Cells(PLAIN, b) == middle
             && After(PLAIN, b) == PLAIN
    requires Cells(PLAIN, c) == right
    ensures Cells(PLAIN, a + (b + c)) == left + middle + right
  {
    Concat(PLAIN, b, c);
    Concat(PLAIN, a, b + c);
    Assoc(left, middle, right);
  }

  lemma {:induction false} SpliceShows(before: Text, beforePad: nat, overlay: Text, overlayPad: nat, after: Text,
                                       afterPad: nat, left: seq<Styled>, middle: seq<Styled>, right: seq<Styled>)
    requires left == Cells(PLAIN, before) + Blanks(beforePad, After(PLAIN, before))
    requires middle == Cells(PLAIN, overlay) + Blanks(overlayPad, After(PLAIN, overlay))
    requires right == Cells(PLAIN, after) + Blanks(afterPad, After(PLAIN, after))
    ensures Cells(PLAIN, before + Spaces(beforePad) + SEGMENT_RESET + overlay + Spaces(overlayPad) + SEGMENT_RESET
            + after + Spaces(afterPad))
         == left + middle + right
  {
    Regrouped(before, Spaces(beforePad), SEGMENT_RESET, overlay, Spaces(overlayPad), SEGMENT_RESET, after,
              Spaces(afterPad));
    PaddedShows(before, beforePad);
    PaddedShows(overlay, overlayPad);
    PaddedShows(after, afterPad);
    var a, b, c := before + Spaces(beforePad) + SEGMENT_RESET, overlay + Spaces(overlayPad) + SEGMENT_RESET, after
      + Spaces(afterPad);
    ThreeShow(a, b, c, left, middle, right);
  }

  lemma {:induction false} PartShows(segment: Text, cells: seq<Styled>, lo: nat, hi: nat)
    requires Cells(PLAIN, segment) == Within(cells, lo, hi, true)
    ensures var room := NonNegative(hi - lo);
            0 <= Width(segment) <= room
            && Cells(PLAIN, segment) + Blanks(room - Width(segment), After(PLAIN, segment))
              == Part(cells, lo, hi, After(PLAIN, segment))
  {
    SpanIsWidth(PLAIN, segment);
    if lo <= hi { WithinSpan(cells, lo, hi); } else { EmptyRange(cells, lo, hi, true); }
  }

  /** A strict slice from column 0 on, by what it shows. */
  method SliceStart(line: Text, length: nat) returns (text: Text, width: int)
    ensures Cells(PLAIN, text) == Within(Cells(PLAIN, line), 0, length, true) && width == Width(text)
  {
    text, width := SliceWithWidth(line, 0, length, true);
    if length == 0 {
      EmptyRange(Cells(PLAIN, line), 0, 0, true);
    } else {
      SliceFromStart(line, length, true);
      SliceShows(line, 0, length, true);
    }
  }

  /** The final safeguard: a line that is too wide is cut. */
  method CutToWidth(line: Text, totalWidth: nat) returns (result: Text)
    ensures var full := Cells(PLAIN, line);
            Cells(PLAIN, result) == if Span(full) <= totalWidth then full else Within(full, 0, totalWidth, true)
  {
    SpanIsWidth(PLAIN, line);
    result := line;
    if Width(line) > totalWidth {
      var width;
      result, width := SliceStart(line, totalWidth);
    }
  }

  lemma {:induction false} PartIs(segment: Text, pad: nat, cells: seq<Styled>, lo: nat, hi: nat)
    returns (part: seq<Styled>)
    requires Cells(PLAIN, segment) == Within(cells, lo, hi, true) && pad == NonNegative(hi - lo) - Width(segment)
    ensures part == Part(cells, lo, hi, After(PLAIN, segment))
            && part == Cells(PLAIN, segment) + Blanks(pad, After(PLAIN, segment))
  {
    PartShows(segment, cells, lo, hi);
    part := Part(cells, lo, hi, After(PLAIN, segment));
  }

  /** The three segments one after the other, each padded to its width and closed by a reset. */
  method JoinSegments(before: Text, beforePad: nat, overlay: Text, overlayPad: nat, after: Text, afterPad: nat,
                      ghost base: seq<Styled>, ghost over: seq<Styled>, startCol: nat, overlayWidth: nat,
                          totalWidth: nat)
    returns (line: Text, ghost pads: Pads)
    requires Cells(PLAIN, before) == Within(base, 0, startCol, true)
    requires Cells(PLAIN, overlay) == Within(over, 0, overlayWidth, true)
    requires Cells(PLAIN, after) == Within(base, startCol + overlayWidth, totalWidth, true)
    requires beforePad == startCol - Width(before) && overlayPad == overlayWidth - Width(overlay)
    requires afterPad == NonNegative(totalWidth - startCol - overlayWidth) - Width(after)
    ensures Cells(PLAIN, line) == Spliced(base, over, startCol, overlayWidth, totalWidth, pads)
  {
    line := before + Spaces(beforePad) + SEGMENT_RESET + overlay + Spaces(overlayPad) + SEGMENT_RESET + after
      + Spaces(afterPad);
    pads := Pads(After(PLAIN, before), After(PLAIN, overlay), After(PLAIN, after));
    ghost var left := PartIs(before, beforePad, base, 0, startCol);
    ghost var middle := PartIs(overlay, overlayPad, over, 0, overlayWidth);
    ghost var right := PartIs(after, afterPad, base, startCol + overlayWidth, totalWidth);
    SpliceShows(before, beforePad, overlay, overlayPad, after, afterPad, left, middle, right);
    assert Spliced(base, over, startCol, overlayWidth, totalWidth, pads) == left + middle + right;
  }

  /** compositeLineAt: the overlay over columns startCol to startCol + overlayWidth of the base line. */
  method CompositeLineAt(baseLine: Text, overlayLine: Text, startCol: nat, overlayWidth: nat, totalWidth: nat,
                         tracker: AnsiCodeTracker)
    returns (result: Text, ghost pads: Pads)
    requires WellFormed(baseLine) && WellFormed(overlayLine)
    modifies tracker
    ensures var full :=
      Spliced(Cells(PLAIN, baseLine), Cells(PLAIN, overlayLine), startCol, overlayWidth, totalWidth, pads);
            Cells(PLAIN, result) == if Span(full) <= totalWidth then full else Within(full, 0, totalWidth, true)
  {
    ghost var baseCells, overCells := Cells(PLAIN, baseLine), Cells(PLAIN, overlayLine);
    var afterStart := startCol + overlayWidth;
    var base := ExtractSegments(baseLine, startCol, afterStart, totalWidth - afterStart, true, tracker);
    var overlay, width := SliceStart(overlayLine, overlayWidth);
    PartShows(base.before, baseCells, 0, startCol);
    PartShows(overlay, overCells, 0, overlayWidth);
    PartShows(base.after, baseCells, afterStart, totalWidth);
    var beforePad := NonNegative(startCol - base.beforeWidth);
    var overlayPad := NonNegative(overlayWidth - width);
    var actualBeforeWidth := Max(startCol, base.beforeWidth);
    var actualOverlayWidth := Max(overlayWidth, width);
    var afterTarget := NonNegative(totalWidth - actualBeforeWidth - actualOverlayWidth);
    var afterPad := NonNegative(afterTarget - base.afterWidth);
    var line;
    line, pads := JoinSegments(base.before, beforePad, overlay, overlayPad, base.after, afterPad,
                               baseCells, overCells, startCol, overlayWidth, totalWidth);
    result := CutToWidth(line, totalWidth);
  }

  // ----- which cell is where

  ghost predicate AllCells(cells: seq<Styled>) {
    forall i | 0 <= i < |cells| :: cells[i].cell.Cell? && 1 <= cells[i].cell.width
  }

  /** The cell that starts at column c. */
  function CellAt(cells: seq<Styled>, c: int): Option<Styled> {
    if cells == [] then None
    else
      var init, last := cells[..|cells| - 1], cells[|cells| - 1];
      if Span(init) == c then Some(last) else CellAt(init, c)
  }

  lemma {:induction false} CellAtConcat(a: seq<Styled>, b: seq<Styled>, c: int)
    requires AllCells(a) && AllCells(b)
    ensures CellAt(a + b, c) == if c < Span(a) then CellAt(a, c) else CellAt(b, c - Span(a))
  {
    if b == [] {
      assert a + b == a;
      if Span(a) <= c { BeyondEnd(a, c); }
    } else {
      var init := b[..|b| - 1];
      assert (a + b)[..|a + b| - 1] == a + init && AllCells(init);
      SpanConcat(a, init);
      CellAtConcat(a, init, c);
    }
  }

  lemma {:induction false} BeyondEnd(cells: seq<Styled>, c: int)
    requires AllCells(cells) && Span(cells) <= c
    ensures CellAt(cells, c) == None
  {
    if cells != [] {
      assert AllCells(cells[..|cells| - 1]);
      BeyondEnd(cells[..|cells| - 1], c);
    }
  }

  predicate Fits(cell: Option<Styled>, c: int, hi: int) {
    cell.Some? && cell.value.cell.Cell? && c + cell.value.cell.width <= hi
  }

  /** The first column from lo on at which a cell starts, or the line ends. */
  function Edge(cells: seq<Styled>, lo: nat): nat {
    if cells == [] then 0
    else if lo <= Span(cells[..|cells| - 1]) then Edge(cells[..|cells| - 1], lo)
    else Span(cells)
  }

  lemma {:induction false} WithinCells(cells: seq<Styled>, lo: int, hi: int)
    requires AllCells(cells)
    ensures AllCells(Within(cells, lo, hi, true))
    ensures Span(cells) < lo ==> Within(cells, lo, hi, true) == []
  {
    if cells != [] {
      assert AllCells(cells[..|cells| - 1]);
      WithinCells(cells[..|cells| - 1], lo, hi);
    }
  }

  lemma {:induction false} EdgeBounds(cells: seq<Styled>, lo: nat)
    requires lo <= Span(cells)
    ensures lo <= Edge(cells, lo) <= Span(cells)
  {
    if cells != [] && lo <= Span(cells[..|cells| - 1]) { EdgeBounds(cells[..|cells| - 1], lo); }
  }

  /** Cutting columns lo..hi moves every cell that fits left by the column at which the first of them starts. */
  lemma {:induction false} WithinAt(cells: seq<Styled>, lo: nat, hi: int, c: int)
    requires AllCells(cells) && lo <= Span(cells) && Edge(cells, lo) <= c
    ensures var kept, edge := Within(cells, lo, hi, true), Edge(cells, lo);
            && (Span(cells) <= hi ==> edge + Span(kept) == Span(cells))
            && CellAt(kept, c - edge) == if Fits(CellAt(cells, c), c, hi) then CellAt(cells, c) else None
  {
    if cells != [] {
      var init, last := cells[..|cells| - 1], cells[|cells| - 1];
      assert AllCells(init);
      if lo <= Span(init) {
        WithinAt(init, lo, hi, c);
        WithinLast(init, last, lo, hi);
        if Span(init) <= c { BeyondEnd(init, c); }
      } else {
        WithinCells(init, lo, hi);
        BeyondEnd(cells, c);
      }
    }
  }

  lemma {:induction false} WithinLast(init: seq<Styled>, last: Styled, lo: int, hi: int)
    ensures var cells, kept := init + [last], Within(init, lo, hi, true);
            if last.cell.Cell? && InRange(Span(init), last.cell.width, lo, hi, true)
            then Within(cells, lo, hi, true) == kept + [last] && Span(kept + [last]) == Span(kept) + last.cell.width
                 && forall c :: CellAt(kept + [last], c) == if Span(kept) == c then Some(last) else CellAt(kept, c)
            else Within(cells, lo, hi, true) == kept
  {
    var cells, kept := init + [last], Within(init, lo, hi, true);
    assert cells[..|init|] == init && (kept + [last])[..|kept|] == kept;
    assert kept + [] == kept;
  }

  lemma {:induction false} BlanksAt(n: nat, s: Style, c: int)
    ensures AllCells(Blanks(n, s))
    ensures CellAt(Blanks(n, s), c).Some? ==> CellAt(Blanks(n, s), c).value.cell == SPACE
  {
    if n > 0 { BlanksAt(n - 1, s, c); }
  }

  lemma {:induction false} FilledAt(cells: seq<Styled>, width: int, s: Style, c: int)
    requires AllCells(cells) && Span(cells) <= width
    ensures AllCells(Filled(cells, width, s))
    ensures CellAt(cells, c).Some? ==> CellAt(Filled(cells, width, s), c) == CellAt(cells, c)
    ensures var cell := CellAt(Filled(cells, width, s), c); cell.Some? && CellAt(cells, c).None? ==>
              cell.value.cell == SPACE
  {
    var n := width - Span(cells);
    BlanksAt(n, s, c - Span(cells));
    CellAtConcat(cells, Blanks(n, s), c);
    if Span(cells) <= c { BeyondEnd(cells, c); }
  }

  /** What is at column c of a spliced line, segment by segment. */
  lemma {:induction false} SplicedAt(a: seq<Styled>, b: seq<Styled>, d: seq<Styled>, m: nat, n: nat, c: int)
    requires AllCells(a) && AllCells(b) && AllCells(d) && Span(a) == m && Span(b) == n
    ensures CellAt(a + b + d, c) == InSegments(a, b, d, m, n, c)
    ensures Span(a + b + d) == m + n + Span(d)
  {
    SpanConcat(a, b);
    SpanConcat(a + b, d);
    assert AllCells(a + b);
    CellAtConcat(a + b, d, c);
    CellAtConcat(a, b, c);
  }

  lemma {:induction false} PartSpan(cells: seq<Styled>, lo: nat, hi: nat, s: Style)
    requires AllCells(cells) && lo <= hi
    ensures AllCells(Within(cells, lo, hi, true)) && Span(Within(cells, lo, hi, true)) <= hi - lo
    ensures AllCells(Part(cells, lo, hi, s)) && Span(Part(cells, lo, hi, s)) == hi - lo
  {
    WithinCells(cells, lo, hi);
    WithinSpan(cells, lo, hi);
    FilledAt(Within(cells, lo, hi, true), hi - lo, s, 0);
    FilledSpan(Within(cells, lo, hi, true), hi - lo, s);
  }

  /** A cell that fits into the columns lo..hi is shown, moved by as much as the cell before it sticks into them. */
  lemma {:induction false} PartAt(cells: seq<Styled>, lo: nat, hi: nat, s: Style, c: int)
    requires AllCells(cells) && lo <= hi && Edge(cells, lo) <= c && Fits(CellAt(cells, c), c, hi)
    ensures CellAt(Part(cells, lo, hi, s), c - Edge(cells, lo)) == CellAt(cells, c)
    ensures lo <= Edge(cells, lo) && c - Edge(cells, lo) < hi - lo
  {
    if Span(cells) < lo {
      EdgeIsEnd(cells, lo);
      BeyondEnd(cells, c);
      assert false;
    }
    PartSpan(cells, lo, hi, s);
    WithinAt(cells, lo, hi, c);
    EdgeBounds(cells, lo);
    FilledAt(Within(cells, lo, hi, true), hi - lo, s, c - Edge(cells, lo));
    CellIsReal(cells, c);
  }

  lemma {:induction false} CellIsReal(cells: seq<Styled>, c: int)
    requires AllCells(cells) && CellAt(cells, c).Some?
    ensures CellAt(cells, c).value.cell.Cell? && 1 <= CellAt(cells, c).value.cell.width && 0 <= c
  {
    if Span(cells[..|cells| - 1]) != c {
      assert AllCells(cells[..|cells| - 1]);
      CellIsReal(cells[..|cells| - 1], c);
    }
  }

  lemma {:induction false} EdgeIsEnd(cells: seq<Styled>, lo: nat)
    requires Span(cells) < lo
    ensures Edge(cells, lo) == Span(cells)
  {
  }

  lemma {:induction false} EdgeZero(cells: seq<Styled>)
    ensures Edge(cells, 0) == 0
  {
    if cells != [] { EdgeZero(cells[..|cells| - 1]); }
  }

  /** What is at column c of three segments of which the first two have these widths. */
  function InSegments(a: seq<Styled>, b: seq<Styled>, d: seq<Styled>, m: nat, n: nat, c: int): Option<Styled> {
    if c < m then CellAt(a, c) else if c < m + n then CellAt(b, c - m) else CellAt(d, c - m - n)
  }

  lemma {:induction false} PartOf(cells: seq<Styled>, lo: nat, hi: nat, s: Style) returns (part: seq<Styled>)
    requires AllCells(cells) && lo <= hi
    ensures part == Part(cells, lo, hi, s) && AllCells(part) && Span(part) == hi - lo
  {
    PartSpan(cells, lo, hi, s);
    part := Part(cells, lo, hi, s);
  }

  lemma {:induction false} SplicedSpan(full: seq<Styled>, a: seq<Styled>, b: seq<Styled>, d: seq<Styled>, m: nat,
                                       n: nat)
    requires AllCells(a) && AllCells(b) && AllCells(d) && Span(a) == m && Span(b) == n && full == a + b + d
    ensures Span(full) == m + n + Span(d)
  {
    SplicedAt(a, b, d, m, n, 0);
  }

  lemma {:induction false} SplicedCell(full: seq<Styled>, a: seq<Styled>, b: seq<Styled>, d: seq<Styled>, m: nat,
                                       n: nat, c: int)
    requires AllCells(a) && AllCells(b) && AllCells(d) && Span(a) == m && Span(b) == n && full == a + b + d
    ensures CellAt(full, c) == InSegments(a, b, d, m, n, c)
  {
    SplicedAt(a, b, d, m, n, c);
  }

  lemma {:induction false} SplicedTail(full: seq<Styled>, a: seq<Styled>, b: seq<Styled>, d: seq<Styled>, m: nat,
                                       n: nat, at: nat, c: nat)
    requires at == m + n && AllCells(a) && AllCells(b) && AllCells(d) && Span(a) == m && Span(b) == n
             && full == a + b + d
    ensures CellAt(full, at + c) == CellAt(d, c)
  {
    SplicedAt(a, b, d, m, n, at + c);
  }

  /** The three segments of a spliced line. */
  lemma {:induction false} ThreeParts(base: seq<Styled>, overlay: seq<Styled>, startCol: nat, overlayWidth: nat,
                                      at: nat, totalWidth: nat, pads: Pads)
    returns (a: seq<Styled>, b: seq<Styled>, d: seq<Styled>)
    requires AllCells(base) && AllCells(overlay) && at == startCol + overlayWidth <= totalWidth
    ensures a == Part(base, 0, startCol, pads.left) && AllCells(a) && Span(a) == startCol
    ensures b == Part(overlay, 0, overlayWidth, pads.middle) && AllCells(b) && Span(b) == overlayWidth
    ensures d == Part(base, at, totalWidth, pads.right) && AllCells(d) && Span(d) == totalWidth - at
    ensures Spliced(base, overlay, startCol, overlayWidth, totalWidth, pads) == a + b + d
  {
    a := PartOf(base, 0, startCol, pads.left);
    b := PartOf(overlay, 0, overlayWidth, pads.middle);
    d := PartOf(base, at, totalWidth, pads.right);
  }

  lemma {:induction false} SplicedParts(base: seq<Styled>, overlay: seq<Styled>, startCol: nat, overlayWidth: nat,
                                        totalWidth: nat, pads: Pads, c: int)
    requires AllCells(base) && AllCells(overlay) && startCol + overlayWidth <= totalWidth
    ensures CellAt(Spliced(base, overlay, startCol, overlayWidth, totalWidth, pads), c)
         == InSegments(Part(base, 0, startCol, pads.left), Part(overlay, 0, overlayWidth, pads.middle),
                       Part(base, startCol + overlayWidth, totalWidth, pads.right), startCol, overlayWidth, c)
  {
    var at := startCol + overlayWidth;
    var a, b, d := ThreeParts(base, overlay, startCol, overlayWidth, at, totalWidth, pads);
    SplicedCell(a + b + d, a, b, d, startCol, overlayWidth, c);
  }

  /** The spliced line has exactly totalWidth columns. */
  lemma {:induction false} OverlayFillsLine(base: seq<Styled>, overlay: seq<Styled>, startCol: nat, overlayWidth: nat,
                                            totalWidth: nat, pads: Pads)
    requires AllCells(base) && AllCells(overlay) && startCol + overlayWidth <= totalWidth
    ensures Span(Spliced(base, overlay, startCol, overlayWidth, totalWidth, pads)) == totalWidth
  {
    var a, b, d := ThreeParts(base, overlay, startCol, overlayWidth, startCol + overlayWidth, totalWidth, pads);
    SplicedSpan(a + b + d, a, b, d, startCol, overlayWidth);
  }

  /** Every base cell that ends left of the overlay stays as it is. */
  lemma {:induction false} OverlayKeepsLeft(base: seq<Styled>, overlay: seq<Styled>, startCol: nat, overlayWidth: nat,
                                            totalWidth: nat, pads: Pads, c: int)
    requires AllCells(base) && AllCells(overlay) && startCol + overlayWidth <= totalWidth
    requires Fits(CellAt(base, c), c, startCol)
    ensures CellAt(Spliced(base, overlay, startCol, overlayWidth, totalWidth, pads), c) == CellAt(base, c)
  {
    SplicedParts(base, overlay, startCol, overlayWidth, totalWidth, pads, c);
    EdgeZero(base);
    CellIsReal(base, c);
    PartAt(base, 0, startCol, pads.left, c);
  }

  lemma {:induction false} SplicedRight(base: seq<Styled>, overlay: seq<Styled>, startCol: nat, overlayWidth: nat,
                                        totalWidth: nat, pads: Pads, at: nat, c: nat)
    requires AllCells(base) && AllCells(overlay) && at == startCol + overlayWidth <= totalWidth
    ensures CellAt(Spliced(base, overlay, startCol, overlayWidth, totalWidth, pads), at + c)
            == CellAt(Part(base, at, totalWidth, pads.right), c)
  {
    var a, b, d := ThreeParts(base, overlay, startCol, overlayWidth, at, totalWidth, pads);
    SplicedTail(Spliced(base, overlay, startCol, overlayWidth, totalWidth, pads), a, b, d, startCol, overlayWidth, at,
                c);
  }

  /**
   * Base cells right of the overlay keep column and style, unless a wide cell sticks out of the overlay's right
   * edge: then they move left by the columns it takes there.
   */
  lemma {:induction false} OverlayKeepsRight(base: seq<Styled>, overlay: seq<Styled>, startCol: nat, overlayWidth: nat,
                                             totalWidth: nat, pads: Pads, c: int)
    requires AllCells(base) && AllCells(overlay) && startCol + overlayWidth <= totalWidth
    requires Edge(base, startCol + overlayWidth) <= c && Fits(CellAt(base, c), c, totalWidth)
    ensures var sticksOut := Edge(base, startCol + overlayWidth) - (startCol + overlayWidth);
            CellAt(Spliced(base, overlay, startCol, overlayWidth, totalWidth, pads), c - sticksOut) == CellAt(base, c)
  {
    var at := startCol + overlayWidth;
    PartAt(base, at, totalWidth, pads.right, c);
    SplicedRight(base, overlay, startCol, overlayWidth, totalWidth, pads, at, c - Edge(base, at));
  }

  /** Under the overlay nothing of the base line shows: its columns hold the overlay's cells, in place, and padding. */
  lemma {:induction false} OverlayCovers(base: seq<Styled>, overlay: seq<Styled>, startCol: nat, overlayWidth: nat,
                                         totalWidth: nat, pads: Pads, c: int)
    requires AllCells(base) && AllCells(overlay) && startCol + overlayWidth <= totalWidth && 0 <= c < overlayWidth
    ensures var cell := CellAt(Spliced(base, overlay, startCol, overlayWidth, totalWidth, pads), startCol + c);
            && (cell.Some? ==> cell.value.cell == SPACE || cell == CellAt(overlay, c))
            && (Fits(CellAt(overlay, c), c, overlayWidth) ==> cell == CellAt(overlay, c))
  {
    SplicedParts(base, overlay, startCol, overlayWidth, totalWidth, pads, startCol + c);
    PartSpan(overlay, 0, overlayWidth, pads.middle);
    FilledAt(Within(overlay, 0, overlayWidth, true), overlayWidth, pads.middle, c);
    EdgeZero(overlay);
    WithinAt(overlay, 0, overlayWidth, c);
    if Fits(CellAt(overlay, c), c, overlayWidth) {
      PartAt(overlay, 0, overlayWidth, pads.middle, c);
    }
  }
}
