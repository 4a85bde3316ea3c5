/** The renderer of packages/tui/src/tui.ts: it edits the terminal in place instead of repainting it. */
module DiffRendering {
  import opened Common
  import opened Terminals

  datatype Position = Position(row: nat, col: nat)

  datatype Options = Options(clearOnShrink: bool, preserveScrollback: bool, hasOverlays: bool)

  /** The renderer's tracked fields together with the terminal they describe. */
  datatype State = State(
    screen: Screen, lines: seq<Line>, top: int, cursor: int, workingLines: int, width: int, height: int)
  {
    /** Index on the tape of the row that shows line 0. */
    function Origin(): int { |screen.tape| - screen.height - top }

    predicate Resized() {
      || (width != 0 && width != screen.columns)
      || (height != 0 && height != screen.height)
    }

    ghost predicate Sized() { width == screen.columns && height == screen.height }

    ghost predicate CursorTracked() { screen.cursor == Origin() + cursor }

    /** Every row from the top of the screen down shows the line with its index, or nothing. */
    ghost predicate Painted() {
      forall j {:trigger screen.tape[j]} :: 0 <= Origin() + top <= j < |screen.tape| ==>
        screen.tape[j] == RowAt(lines, j - Origin())
    }

    ghost predicate Laid() {
      && screen.Valid()
      && 0 <= top <= Max(0, |lines| - 1)
      && 0 <= Origin()
      && |lines| <= top + screen.height
      && |lines| <= workingLines
      && (forall i | 0 <= i < |lines| :: lines[i] != [])
      && Painted()
      && (lines == [] ==> screen.cursor == Origin() && screen.col == 0)
    }

    /** What every render needs and keeps. A pending resize wipes the terminal, so then nothing is needed. */
    ghost predicate InSync() {
      && screen.Valid()
      && (Resized() || (Laid() && CursorTracked() && (lines != [] ==> Sized())))
    }
  }

  function RowAt(lines: seq<Line>, i: int): Row {
    if 0 <= i < |lines| then Shows(lines[i]) else Blank
  }

  function LineAt(lines: seq<Line>, i: int): Line {
    if 0 <= i < |lines| then lines[i] else []
  }

  predicate Differs(a: seq<Line>, b: seq<Line>, i: int) {
    LineAt(a, i) != LineAt(b, i)
  }

  ghost predicate Printable(lines: seq<Line>, columns: nat) {
    forall i | 0 <= i < |lines| :: lines[i] != [] && Width(lines[i]) <= columns
  }

  /** When a render wipes screen and scrollback, said without the scan that finds out. */
  ghost predicate Repaints(st: State, lines: seq<Line>, o: Options) {
    || st.Resized()
    || (st.lines != [] &&
        (|| (o.clearOnShrink && |lines| < st.workingLines && !o.hasOverlays)
         || (|lines| < |st.lines| && lines == st.lines[..|lines|] && |lines| <= st.top && 0 < st.top)
         || ((!o.preserveScrollback || |lines| < |st.lines|) &&
             exists i :: 0 <= i < st.top && Differs(st.lines, lines, i))))
  }

  function NextTop(st: State, lines: seq<Line>): int {
    Max(st.top, |lines| - st.screen.height)
  }

  /** The terminal after a full repaint: all lines from a cleared tape, and nothing else. */
  ghost predicate Repainted(st: State, lines: seq<Line>, st': State) {
    && st'.top == Max(0, |lines| - st.screen.height)
    && st'.Origin() == 0
    && (forall j | 0 <= j < |st'.screen.tape| :: st'.screen.tape[j] == RowAt(lines, j))
  }

  /** The terminal after an edit: scrollback kept, and lines `top..NextTop` scrolled onto it. */
  ghost predicate Edited(st: State, lines: seq<Line>, st': State) {
    && st'.top == NextTop(st, lines)
    && st'.Origin() == st.Origin()
    && 0 <= st.Origin() + st.top <= |st.screen.tape|
    && st.screen.tape[..st.Origin() + st.top] <= st'.screen.tape
    && (forall j {:trigger st'.screen.tape[j]} | st.Origin() + st.top <= j < |st'.screen.tape| ::
          st'.screen.tape[j] == RowAt(lines, j - st.Origin()))
  }

  /** What a render leaves behind, given whether it wiped the terminal. */
  ghost predicate Leaves(st: State, lines: seq<Line>, marker: Option<Position>, repaint: bool, st': State) {
    && st'.Laid() && st'.Sized()
    && st'.lines == lines
    && st'.screen.height == st.screen.height
    && st'.screen.columns == st.screen.columns
    && (if repaint then Repainted(st, lines, st') else Edited(st, lines, st'))
    && (lines != [] && marker.Some? ==> st'.cursor == marker.value.row)
    && (st'.CursorTracked() <==> (lines == [] || marker.None? || st'.top <= marker.value.row))
  }

  /** What one render does to the tracked fields and to the terminal. */
  ghost predicate Renders(st: State, lines: seq<Line>, marker: Option<Position>, o: Options, st': State) {
    Leaves(st, lines, marker, Repaints(st, lines, o), st')
  }

  /** Lines `first..k` have been printed on `was`, one row each, line 0 belonging on row `origin`. */
  ghost predicate Printed(was: Screen, origin: int, lines: seq<Line>, first: int, k: int, now: Screen) {
    && was.Valid() && now.Valid()
    && 0 <= first < k <= |lines| && 0 <= origin
    && origin + first < |was.tape|
    && now.height == was.height && now.columns == was.columns
    && now.cursor == origin + k - 1
    && |now.tape| == Max(|was.tape|, origin + k)
    && (forall j {:trigger now.tape[j]} | 0 <= j < |now.tape| && !(origin + first <= j < origin + k) ::
          j < |was.tape| && now.tape[j] == was.tape[j])
    && (forall j {:trigger now.tape[j]} | origin + first <= j < origin + k :: now.tape[j] == Shows(lines[j - origin]))
  }

  /** A repaint prints on rows that are blank already; an edit wipes each row first. */
  function PrintOn(s: Screen, line: Line, wipe: bool): (r: Screen)
    requires s.Valid()
    ensures r.Valid() && r.height == s.height && r.columns == s.columns
  {
    Step(if wipe then Step(s, ClearLine) else s, Print(line))
  }

  ghost predicate BlankFrom(s: Screen, row: int) {
    forall j | 0 <= row <= j < |s.tape| :: s.tape[j] == Blank
  }

  lemma {:induction false} PrintFirst(was: Screen, origin: int, lines: seq<Line>, first: int, wipe: bool)
    requires was.Valid() && 0 <= first < |lines| && 0 <= origin && was.cursor == origin + first && was.col == 0
    requires Width(lines[first]) <= was.columns
    requires wipe || was.tape[was.cursor] == Blank
    ensures Printed(was, origin, lines, first, first + 1, PrintOn(was, lines[first], wipe))
  {
  }

  lemma {:induction false} PrintNext(was: Screen, origin: int, lines: seq<Line>, first: int, k: int, now: Screen,
                                     wipe: bool)
    requires Printed(was, origin, lines, first, k, now) && k < |lines|
    requires Width(lines[k]) <= was.columns
    requires wipe || BlankFrom(was, origin + k)
    ensures Printed(was, origin, lines, first, k + 1, PrintOn(Step(now, CrLf), lines[k], wipe))
  {
  }

  /** The terminal after all lines were printed, on a wiped tape or on a blank screen. */
  ghost predicate AllPrinted(was: Screen, lines: seq<Line>, clear: bool, now: Screen) {
    && was.Valid()
    && var start := if clear then Step(was, ClearAll) else was;
      if lines == [] then now == start else Printed(start, start.cursor, lines, 0, |lines|, now)
  }

  lemma {:induction false} AllPrintedRows(was: Screen, lines: seq<Line>, clear: bool, now: Screen)
    requires AllPrinted(was, lines, clear, now)
    requires clear || (was.cursor == |was.tape| - was.height && BlankFrom(was, was.cursor))
    ensures var base := if clear then 0 else was.cursor;
            && now.Valid() && now.height == was.height && now.columns == was.columns
            && |now.tape| == base + Max(|lines|, was.height)
            && now.cursor == base + Max(0, |lines| - 1)
            && (lines == [] ==> now.col == if clear then 0 else was.col)
            && (!clear ==> was.tape[..base] == now.tape[..base])
            && forall j {:trigger now.tape[j]} | base <= j < |now.tape| :: now.tape[j] == RowAt(lines, j - base)
  {
    var start := if clear then Step(was, ClearAll) else was;
    assert BlankFrom(start, start.cursor);
  }

  lemma {:induction false} AllPrintedLays(st: State, lines: seq<Line>, clear: bool, now: Screen, st': State)
    requires AllPrinted(st.screen, lines, clear, now)
    requires clear || (st.Laid() && st.lines == [])
    requires forall i | 0 <= i < |lines| :: lines[i] != []
    requires st'.screen.Valid() && st'.screen.tape == now.tape && st'.screen.height == now.height
    requires lines == [] ==> st'.screen == now
    requires st'.lines == lines && st'.top == Max(0, |lines| - now.height) && |lines| <= st'.workingLines
    ensures st'.Laid()
    ensures if clear then Repainted(st, lines, st') else Edited(st, lines, st')
    ensures now.cursor == st'.Origin() + Max(0, |lines| - 1)
  {
    if !clear {
      assert BlankFrom(st.screen, st.screen.cursor);
    }
    AllPrintedRows(st.screen, lines, clear, now);
    assert st'.Origin() == if clear then 0 else st.screen.cursor;
  }

  /** The only lines that differ are `first..last`; with no difference both are -1. */
  ghost predicate ChangeRange(a: seq<Line>, b: seq<Line>, first: int, last: int) {
    if first == -1 then a == b
    else
      && 0 <= first <= last < Max(|a|, |b|)
      && Differs(a, b, first)
      && (forall i :: i < first ==> !Differs(a, b, i))
      && (forall i :: last < i ==> !Differs(a, b, i))
      && (|a| < |b| ==> last == |b| - 1 && first <= |a|)
      && (|b| < |a| ==> last == |a| - 1)
  }

  /** Rows `from..from+k` were wiped and nothing else changed. */
  ghost predicate Wiped(was: Screen, from: int, k: int, now: Screen) {
    && was.Valid() && now.Valid()
    && now.height == was.height && now.columns == was.columns
    && |now.tape| == |was.tape|
    && 0 <= from && from + k <= |was.tape|
    && (forall j {:trigger now.tape[j]} | 0 <= j < |was.tape| ::
          now.tape[j] == if from <= j < from + k then Blank else was.tape[j])
  }

  lemma {:induction false} DeletedLays(st: State, lines: seq<Line>, now: Screen, st': State)
    requires st.Laid() && |lines| < |st.lines| && lines == st.lines[..|lines|]
    requires st.top <= Max(0, |lines| - 1)
    requires Wiped(st.screen, st.Origin() + |lines|, |st.lines| - |lines|, now)
    requires lines == [] ==> now.cursor == st.Origin() && now.col == 0 && st'.screen == now
    requires st'.screen.Valid() && st'.screen.tape == now.tape && st'.screen.height == now.height
    requires st'.lines == lines && st'.top == st.top && st'.workingLines == st.workingLines
    ensures st'.Laid() && Edited(st, lines, st')
  {
  }

  /** The cursor `rows` further down (up when negative), stopping at the edges of the screen. */
  function MovedBy(s: Screen, rows: int): (r: Screen)
    requires s.Valid()
    ensures r.Valid()
  {
    s.(cursor := Max(|s.tape| - s.height, Min(|s.tape| - 1, s.cursor + rows)))
  }

  /** Appends the relative move that every branch of the renderer writes out in the same way. */
  method MoveBy(ghost terminal: Screen, buffer: seq<Command>, rows: int) returns (moved: seq<Command>)
    requires terminal.Valid()
    ensures Exec(terminal, moved) == MovedBy(Exec(terminal, buffer), rows)
  {
    ExecSnoc(terminal);
    moved := buffer;
    if rows > 0 {
      moved := moved + [Down(rows)];
    } else if rows < 0 {
      moved := moved + [Up(-rows)];
    }
  }

  lemma {:induction false} WipeNext(was: Screen, from: int, k: int, now: Screen)
    requires Wiped(was, from, k, now) && now.cursor == from + k && from + k < |was.tape| && 0 <= k
    ensures Wiped(was, from, k + 1, Step(now, ClearLine))
  {
  }

  /** Wipes `count` rows from the cursor's row down, leaving the cursor on the last of them. */
  method WipeRows(ghost terminal: Screen, buffer: seq<Command>, count: nat) returns (wiped: seq<Command>)
    requires terminal.Valid() && 0 < count && Exec(terminal, buffer).cursor + count <= |Exec(terminal, buffer).tape|
    requires Exec(terminal, buffer).col == 0
    ensures var was := Exec(terminal, buffer);
            && Wiped(was, was.cursor, count, Exec(terminal, wiped))
            && Exec(terminal, wiped).cursor == was.cursor + count - 1
            && Exec(terminal, wiped).col == 0
  {
    ExecSnoc(terminal);
    wiped := buffer;
    ghost var was := Exec(terminal, buffer);
    for i := 0 to count
      invariant Wiped(was, was.cursor, i, Exec(terminal, wiped))
      invariant Exec(terminal, wiped).cursor == was.cursor + Min(i, count - 1)
      invariant Exec(terminal, wiped).col == 0
    {
      ghost var now := Step(Exec(terminal, wiped), CarriageReturn);
      WipeNext(was, was.cursor, i, now);
      wiped := wiped + [CarriageReturn];
      wiped := wiped + [ClearLine];
      assert Exec(terminal, wiped) == Step(now, ClearLine);
      if i < count - 1 {
        wiped := wiped + [Down(1)];
      }
    }
  }

  /** Moves to the last remaining line, wipes the deleted lines' rows below it and moves back. */
  method DeletionBuffer(ghost terminal: Screen, ghost origin: int, cursorRow: int, targetRow: int, oldCount: nat,
                        newCount: nat)
      returns (buffer: seq<Command>)
    requires terminal.Valid() && terminal.cursor == origin + cursorRow
    requires newCount < oldCount && targetRow == Max(0, newCount - 1)
    requires |terminal.tape| - terminal.height <= origin + targetRow && origin + oldCount <= |terminal.tape|
    ensures var now := Exec(terminal, buffer);
            Wiped(terminal, origin + newCount, oldCount - newCount, now) && now.cursor == origin + targetRow
              && now.col == 0
  {
    ExecSnoc(terminal);
    var lineDiff := targetRow - cursorRow;
    buffer := MoveBy(terminal, [], lineDiff);
    buffer := buffer + [CarriageReturn];
    var extraLines := oldCount - newCount;
    var clearStartOffset := if newCount == 0 then 0 else 1;
    if extraLines > 0 && clearStartOffset > 0 {
      buffer := buffer + [Down(clearStartOffset)];
    }
    ghost var start := Exec(terminal, buffer);
    assert start.tape == terminal.tape && start.cursor == origin + newCount && start.col == 0;
    buffer := WipeRows(terminal, buffer, extraLines);
    var moveBack := Max(0, extraLines - 1 + clearStartOffset);
    if moveBack > 0 {
      buffer := buffer + [Up(moveBack)];
    }
  }

  /** Puts the cursor on row `first`, scrolling one row in when appending below the last screen row. */
  method MoveToFirst(ghost terminal: Screen, ghost origin: int, cursorRow: int, first: nat, appendStart: bool)
      returns (buffer: seq<Command>)
    requires terminal.Valid() && terminal.cursor == origin + cursorRow
    requires var target := if appendStart then first - 1 else first;
             |terminal.tape| - terminal.height <= origin + target < |terminal.tape|
    ensures Ready(terminal, origin + first, Exec(terminal, buffer))
  {
    ExecSnoc(terminal);
    var moveTargetRow := if appendStart then first - 1 else first;
    var lineDiff := moveTargetRow - cursorRow;
    buffer := MoveBy(terminal, [], lineDiff);
    buffer := buffer + [if appendStart then CrLf else CarriageReturn];
  }

  /** The cursor is at the start of `row`, which is a fresh blank row if it did not exist before. */
  ghost predicate Ready(was: Screen, row: int, now: Screen) {
    && was.Valid() && now.Valid()
    && now.height == was.height && now.columns == was.columns
    && now.cursor == row && now.col == 0
    && (now.tape == was.tape || (now.tape == was.tape + [Blank] && row == |was.tape|))
  }

  /** Wipes and prints lines `first..last`, one row each. */
  method PrintRange(ghost terminal: Screen, ghost origin: int, moves: seq<Command>, lines: seq<Line>, first: nat,
                    last: int)
      returns (buffer: seq<Command>)
    requires terminal.Valid() && Printable(lines, terminal.columns)
    requires first <= last < |lines| && 0 <= origin
    requires Exec(terminal, moves).cursor == origin + first && Exec(terminal, moves).col == 0
    ensures Printed(Exec(terminal, moves), origin, lines, first, last + 1, Exec(terminal, buffer))
  {
    ExecSnoc(terminal);
    buffer := moves;
    ghost var was := Exec(terminal, moves);
    for i := first to last + 1
      invariant if i == first then Exec(terminal, buffer) == was
                else Printed(was, origin, lines, first, i, Exec(terminal, buffer))
    {
      if i == first {
        PrintFirst(was, origin, lines, first, true);
      } else {
        PrintNext(was, origin, lines, first, i, Exec(terminal, buffer), true);
        buffer := buffer + [CrLf];
      }
      buffer := buffer + [ClearLine];
      buffer := buffer + [Print(lines[i])];
    }
  }

  /** Prints all lines on rows that are blank. */
  method PrintLines(ghost terminal: Screen, start: seq<Command>, lines: seq<Line>) returns (buffer: seq<Command>)
    requires terminal.Valid() && Printable(lines, terminal.columns)
    requires var was := Exec(terminal, start); BlankFrom(was, was.cursor) && was.col == 0
    ensures var was := Exec(terminal, start);
            if lines == [] then Exec(terminal, buffer) == was
            else Printed(was, was.cursor, lines, 0, |lines|, Exec(terminal, buffer))
  {
    ExecSnoc(terminal);
    buffer := start;
    ghost var was := Exec(terminal, start);
    for i := 0 to |lines|
      invariant if i == 0 then Exec(terminal, buffer) == was
                else Printed(was, was.cursor, lines, 0, i, Exec(terminal, buffer))
    {
      if i == 0 {
        PrintFirst(was, was.cursor, lines, 0, false);
      } else {
        PrintNext(was, was.cursor, lines, 0, i, Exec(terminal, buffer), false);
        buffer := buffer + [CrLf];
      }
      buffer := buffer + [Print(lines[i])];
    }
  }

  /** The buffer of a full repaint: all lines, after wiping screen and scrollback when `clear` is set. */
  method PrintAll(clear: bool, terminal: Screen, newLines: seq<Line>) returns (buffer: seq<Command>)
    requires terminal.Valid() && Printable(newLines, terminal.columns)
    requires clear || (terminal.cursor == |terminal.tape| - terminal.height && terminal.col == 0
                       && BlankFrom(terminal, terminal.cursor))
    ensures AllPrinted(terminal, newLines, clear, Exec(terminal, buffer))
  {
    buffer := if clear then [ClearAll] else [];
    assert Exec(terminal, buffer) == if clear then Step(terminal, ClearAll) else terminal by {
      assert [] + [ClearAll] == [ClearAll];
      ExecSnoc(terminal);
    }
    buffer := PrintLines(terminal, buffer, newLines);
  }

  /** Wipes the rows below the new last line and comes back to it. */
  method WipeBelow(ghost terminal: Screen, printed: seq<Command>, extraLines: nat) returns (buffer: seq<Command>)
    requires terminal.Valid() && 0 < extraLines
    requires Exec(terminal, printed).cursor + extraLines < |Exec(terminal, printed).tape|
    ensures var was := Exec(terminal, printed);
            Wiped(was, was.cursor + 1, extraLines, Exec(terminal, buffer))
              && Exec(terminal, buffer).cursor == was.cursor
  {
    ExecSnoc(terminal);
    buffer := printed;
    ghost var was := Exec(terminal, printed);
    for i := 0 to extraLines
      invariant Wiped(was, was.cursor + 1, i, Exec(terminal, buffer))
      invariant Exec(terminal, buffer).cursor == was.cursor + i
    {
      ghost var now := Step(Exec(terminal, buffer), CrLf);
      WipeNext(was, was.cursor + 1, i, now);
      buffer := buffer + [CrLf];
      buffer := buffer + [ClearLine];
      assert Exec(terminal, buffer) == Step(now, ClearLine);
    }
    buffer := buffer + [Up(extraLines)];
  }

  /** The range that was repainted, seen from the clamped change range. */
  ghost predicate Covers(st: State, lines: seq<Line>, first: int, last: int) {
    && st.top <= first <= last
    && first < |lines| && first <= |st.lines|
    && (forall i | st.top <= i < first || last < i :: !Differs(st.lines, lines, i))
    && (|st.lines| < |lines| ==> last == |lines| - 1)
    && (|lines| < |st.lines| ==> last == |st.lines| - 1)
  }

  /** The tape after the changed range was repainted on `st`. */
  ghost predicate Ranged(st: State, lines: seq<Line>, first: int, last: int, now: Screen) {
    var end := Min(last, |lines| - 1) + 1;
    && now.Valid() && now.height == st.screen.height && now.columns == st.screen.columns
    && |now.tape| == Max(|st.screen.tape|, st.Origin() + end)
    && now.cursor == st.Origin() + end - 1
    && forall j {:trigger now.tape[j]} | 0 <= j < |now.tape| ::
        var i := j - st.Origin();
        now.tape[j] ==
        if first <= i < end then RowAt(lines, i)
        else if |lines| <= i < |st.lines| then Blank
        else if j < |st.screen.tape| then st.screen.tape[j]
        else Blank
  }

  /** The range was printed and no line was deleted. */
  lemma {:induction false} PrintedIsRanged(st: State, lines: seq<Line>, first: nat, last: int, start: Screen,
                                           now: Screen)
    requires st.Laid() && st.CursorTracked() && Covers(st, lines, first, last) && |st.lines| <= |lines|
    requires Ready(st.screen, st.Origin() + first, start)
    requires Printed(start, st.Origin(), lines, first, Min(last, |lines| - 1) + 1, now)
    ensures Ranged(st, lines, first, last, now)
  {
  }

  /** The range was printed and the rows of the deleted lines below were wiped. */
  lemma {:induction false} WipedIsRanged(st: State, lines: seq<Line>, first: nat, last: int, start: Screen,
                                         printed: Screen, now: Screen)
    requires st.Laid() && st.CursorTracked() && Covers(st, lines, first, last) && |lines| < |st.lines|
    requires Ready(st.screen, st.Origin() + first, start)
    requires Printed(start, st.Origin(), lines, first, |lines|, printed)
    requires Wiped(printed, printed.cursor + 1, |st.lines| - |lines|, now) && now.cursor == printed.cursor
    ensures Ranged(st, lines, first, last, now)
  {
  }

  /** The changed range starts on screen or right below it. */
  lemma {:induction false} FirstOnScreen(st: State, lines: seq<Line>, first: nat, last: int, target: int)
    requires st.Laid() && st.lines != [] && Covers(st, lines, first, last)
    requires target == if |st.lines| == first then first - 1 else first
    ensures |st.screen.tape| - st.screen.height <= st.Origin() + target < |st.screen.tape|
    ensures target <= st.top + st.screen.height - 1 && 0 <= st.Origin()
  {
  }

  lemma {:induction false} RoomBelow(st: State, lines: seq<Line>, first: nat, last: int, start: Screen, printed: Screen)
    requires st.Laid() && st.CursorTracked() && Covers(st, lines, first, last) && |lines| < |st.lines|
    requires Ready(st.screen, st.Origin() + first, start) && Printed(start, st.Origin(), lines, first, |lines|, printed)
    ensures printed.cursor + (|st.lines| - |lines|) < |printed.tape|
  {
  }

  method RangeBuffer(st: State, lines: seq<Line>, first: nat, last: int, appendStart: bool)
      returns (buffer: seq<Command>, finalCursorRow: int)
    requires st.Laid() && st.CursorTracked() && st.lines != [] && Covers(st, lines, first, last)
    requires Printable(lines, st.screen.columns)
    requires appendStart == (first == |st.lines|)
    ensures Ranged(st, lines, first, last, Exec(st.screen, buffer))
    ensures finalCursorRow == Min(last, |lines| - 1)
  {
    ghost var terminal, origin := st.screen, st.Origin();
    var prevViewportBottom := st.top + st.screen.height - 1;
    var moveTargetRow := if appendStart then first - 1 else first;
    FirstOnScreen(st, lines, first, last, moveTargetRow);
    if moveTargetRow > prevViewportBottom {
      assert false;  // the change range never starts below the screen, so the pre-scroll never runs
    }
    var moves := MoveToFirst(terminal, origin, st.cursor, first, appendStart);
    var renderEnd := Min(last, |lines| - 1);
    buffer := PrintRange(terminal, origin, moves, lines, first, renderEnd);
    finalCursorRow := renderEnd;
    ghost var start, printed := Exec(terminal, moves), Exec(terminal, buffer);
    if |st.lines| > |lines| {
      if renderEnd < |lines| - 1 {
        assert false;  // a shrinking render repaints to the last new line, so there is nothing to skip
      }
      RoomBelow(st, lines, first, last, start, printed);
      buffer := WipeBelow(terminal, buffer, |st.lines| - |lines|);
      WipedIsRanged(st, lines, first, last, start, printed, Exec(terminal, buffer));
    } else {
      PrintedIsRanged(st, lines, first, last, start, printed);
    }
  }

  lemma {:induction false} RangeRows(st: State, lines: seq<Line>, first: int, last: int, now: Screen)
    requires st.Laid() && st.lines != [] && Covers(st, lines, first, last)
    requires forall i | 0 <= i < |lines| :: lines[i] != []
    requires Ranged(st, lines, first, last, now)
    ensures forall j {:trigger now.tape[j]} | st.Origin() + st.top <= j < |now.tape| ::
              now.tape[j] == RowAt(lines, j - st.Origin())
    ensures st.screen.tape[..st.Origin() + st.top] <= now.tape
  {
    forall j | st.Origin() + st.top <= j < |now.tape|
      ensures now.tape[j] == RowAt(lines, j - st.Origin())
    {
      var i := j - st.Origin();
      if !(first <= i <= last) {
        assert !Differs(st.lines, lines, i);
        assert RowAt(st.lines, i) == RowAt(lines, i);
      }
    }
  }

  lemma {:induction false} RangeLays(st: State, lines: seq<Line>, first: int, last: int, now: Screen, st': State)
    requires st.Laid() && st.lines != [] && Covers(st, lines, first, last)
    requires forall i | 0 <= i < |lines| :: lines[i] != []
    requires Ranged(st, lines, first, last, now)
    requires st'.screen.Valid() && st'.screen.tape == now.tape && st'.screen.height == now.height
    requires st'.lines == lines && |lines| <= st'.workingLines
    requires st'.top == Max(st.top, Min(last, |lines| - 1) - st.screen.height + 1)
    ensures st'.Laid() && Edited(st, lines, st')
  {
    RangeRows(st, lines, first, last, now);
    assert st'.top == NextTop(st, lines);
    assert st'.Origin() == st.Origin();
  }

  /** The guards of the source, on the first changed line. */
  predicate ScanRepaints(st: State, lines: seq<Line>, first: int, preserveScrollback: bool) {
    && first != -1
    && if first >= |lines| then Max(0, |lines| - 1) < st.top
       else first < st.top && (!preserveScrollback || |lines| < |st.lines|)
  }

  /** The guards the scan leads to are exactly `Repaints`, once nothing was resized or shrunk away. */
  lemma {:induction false} ScanDecides(st: State, lines: seq<Line>, o: Options, first: int, last: int)
    requires st.Laid() && !st.Resized() && st.lines != []
    requires forall i | 0 <= i < |lines| :: lines[i] != []
    requires !(o.clearOnShrink && |lines| < st.workingLines && !o.hasOverlays)
    requires ChangeRange(st.lines, lines, first, last)
    ensures Repaints(st, lines, o) <==> ScanRepaints(st, lines, first, o.preserveScrollback)
    ensures first >= |lines| ==> |lines| < |st.lines| && lines == st.lines[..|lines|]
    ensures 0 <= first < |lines| ==> first <= |st.lines| && (first == |st.lines| ==> |lines| > |st.lines|)
  {
    if first >= |lines| {
      forall i | 0 <= i < |lines| && i < |st.lines|
        ensures lines[i] == st.lines[i]
      {
        assert !Differs(st.lines, lines, i);
      }
    } else if first >= 0 && |lines| < |st.lines| && lines == st.lines[..|lines|] {
      assert false;
    }
  }

  /** Changes above the screen leave every visible row as it is. */
  lemma {:induction false} SameBelow(st: State, lines: seq<Line>, last: int)
    requires st.Laid() && |lines| == |st.lines| && last < st.top
    requires forall i | 0 <= i < |lines| :: lines[i] != []
    requires forall i | last < i :: !Differs(st.lines, lines, i)
    ensures st.(lines := lines).Laid() && Edited(st, lines, st.(lines := lines))
  {
    forall j | st.Origin() + st.top <= j < |st.screen.tape|
      ensures st.screen.tape[j] == RowAt(lines, j - st.Origin())
    {
      assert !Differs(st.lines, lines, j - st.Origin());
    }
  }

  /** Index of the first cursor marker in a line, or -1. */
  function MarkerIndex(line: Line): (i: int)
    ensures -1 <= i < |line|
    ensures i == -1 <==> CursorMarker !in line
    ensures i >= 0 ==> line[i] == CursorMarker && CursorMarker !in line[..i]
  {
    if line == [] then -1
    else if line[0] == CursorMarker then 0
    else
      var i := MarkerIndex(line[1..]);
      assert i >= 0 ==> line[..i + 1] == [line[0]] + line[1..][..i];
      if i == -1 then -1 else i + 1
  }

  /** Row of the last marker among the bottom `height` lines. */
  function MarkerRow(lines: seq<Line>, height: nat): (row: int)
    ensures row == -1 || Max(0, |lines| - height) <= row < |lines|
    ensures row >= 0 ==> CursorMarker in lines[row]
    ensures forall i | Max(row + 1, |lines| - height) <= i < |lines| :: CursorMarker !in lines[i]
  {
    if lines == [] || height == 0 then -1
    else if CursorMarker in lines[|lines| - 1] then |lines| - 1
    else MarkerRow(lines[..|lines| - 1], height - 1)
  }

  function CursorOf(lines: seq<Line>, height: nat): (p: Option<Position>)
    ensures p.Some? ==> Max(0, |lines| - height) <= p.value.row < |lines|
  {
    var row := MarkerRow(lines, height);
    if row == -1 then None else Some(Position(row, Width(lines[row][..MarkerIndex(lines[row])])))
  }

  function Unmarked(line: Line): (r: Line)
    requires CursorMarker in line
  {
    line[..MarkerIndex(line)] + line[MarkerIndex(line) + 1..]
  }

  /** Thai and Lao AM vowels decomposed; the two characters take the columns of the one. */
  function DecomposeAm(text: string): string {
    if text == "" then ""
    else (match text[0]
          case '\U{0e33}' => ['\U{0e4d}', '\U{0e32}']
          case '\U{0eb3}' => ['\U{0ecd}', '\U{0eb2}']
          case c => [c]) + DecomposeAm(text[1..])
  }

  const BLANK: Item := Glyph(" ", 1)

  /** normalizeTerminalOutput: a line that every terminal shows in the columns that were counted for it. */
  function Normalized(line: Line): Line {
    if line == [] then []
    else (match line[0]
          case Tab => [BLANK, BLANK, BLANK]
          case Glyph(text, width) => [Glyph(DecomposeAm(text), width)]
          case item => [item]) + Normalized(line[1..])
  }

  lemma {:induction false} NormalizedKeepsWidth(line: Line)
    ensures Width(Normalized(line)) == Width(line) && Tab !in Normalized(line)
  {
    if line != [] {
      var first := Normalized(line)[..|Normalized(line)| - |Normalized(line[1..])|];
      NormalizedKeepsWidth(line[1..]);
      assert Normalized(line) == first + Normalized(line[1..]);
      WidthConcat(first, Normalized(line[1..]));
      if line[0].Tab? {
        assert first == [BLANK] + [BLANK] + [BLANK];
        WidthConcat([BLANK] + [BLANK], [BLANK]);
        WidthConcat([BLANK], [BLANK]);
      }
    }
  }

  /**
   * The lines a render puts on screen: the cursor marker taken out, tabs and AM vowels replaced, and a style reset
   * after every line.
   */
  function FrameLines(lines: seq<Line>, height: nat): (r: seq<Line>)
    ensures |r| == |lines|
    ensures forall i | 0 <= i < |r| :: r[i] != []
  {
    var row := MarkerRow(lines, height);
    seq(|lines|, i requires 0 <= i < |lines| => Normalized(if i == row then Unmarked(lines[i]) else lines[i]) + [Reset])
  }

  lemma {:induction false} WidthConcat(a: Line, b: Line)
    ensures Width(a + b) == Width(a) + Width(b)
  {
    if a == [] {
      assert a + b == b;
    } else {
      assert (a + b)[1..] == a[1..] + b;
      WidthConcat(a[1..], b);
    }
  }

  /** Taking out the marker, replacing tabs and appending the reset adds no column. */
  lemma {:induction false} FrameLinesPrintable(lines: seq<Line>, height: nat, columns: nat)
    requires forall i | 0 <= i < |lines| :: Width(lines[i]) <= columns
    ensures Printable(FrameLines(lines, height), columns)
    ensures forall i | 0 <= i < |lines| :: Tab !in FrameLines(lines, height)[i]
  {
    forall i | 0 <= i < |lines|
      ensures Width(FrameLines(lines, height)[i]) <= columns && Tab !in FrameLines(lines, height)[i]
    {
      var line := if i == MarkerRow(lines, height) then Unmarked(lines[i]) else lines[i];
      if i == MarkerRow(lines, height) { UnmarkedWidth(lines[i]); }
      NormalizedKeepsWidth(line);
      WidthConcat(Normalized(line), [Reset]);
    }
  }

  lemma {:induction false} UnmarkedWidth(line: Line)
    requires CursorMarker in line
    ensures Width(Unmarked(line)) == Width(line)
  {
    var m := MarkerIndex(line);
    assert line == line[..m] + ([CursorMarker] + line[m + 1..]);
    WidthConcat(line[..m], [CursorMarker] + line[m + 1..]);
    WidthConcat([CursorMarker], line[m + 1..]);
    WidthConcat(line[..m], line[m + 1..]);
  }

  /** Scans the bottom `height` lines from below and strips the marker it finds. */
  method ExtractCursorPosition(lines: seq<Line>, height: nat) returns (stripped: seq<Line>, position: Option<Position>)
    ensures position == CursorOf(lines, height)
    ensures |stripped| == |lines|
    ensures forall i | 0 <= i < |lines| ::
              stripped[i] == if i == MarkerRow(lines, height) then Unmarked(lines[i]) else lines[i]
  {
    stripped := lines;
    var viewportTop := Max(0, |lines| - height);
    var row := |lines| - 1;
    while row >= viewportTop
      invariant viewportTop - 1 <= row < |lines|
      invariant forall i | row < i < |lines| :: CursorMarker !in lines[i]
    {
      var line := lines[row];
      var markerIndex := MarkerIndex(line);
      if markerIndex != -1 {
        stripped := lines[row := line[..markerIndex] + line[markerIndex + 1..]];
        return stripped, Some(Position(row, Width(line[..markerIndex])));
      }
      row := row - 1;
    }
    position := None;
  }

  method ApplyLineResets(lines: seq<Line>) returns (r: seq<Line>)
    ensures r == seq(|lines|, i requires 0 <= i < |lines| => Normalized(lines[i]) + [Reset])
  {
    r := lines;
    for i := 0 to |lines|
      invariant |r| == |lines|
      invariant forall k | 0 <= k < |lines| :: r[k] == if k < i then Normalized(lines[k]) + [Reset] else lines[k]
    {
      r := r[i := Normalized(lines[i]) + [Reset]];
    }
  }

  class Tui {
    var screen: Screen
    var previousLines: seq<Line>
    var previousWidth: int
    var previousHeight: int
    var previousViewportTop: int
    var cursorRow: int
    var hardwareCursorRow: int
    var maxLinesRendered: int
    var fullRedrawCount: nat
    var clearOnShrink: bool
    var preserveScrollback: bool

    function Snapshot(): State
      reads this
    {
      State(screen, previousLines, previousViewportTop, hardwareCursorRow, maxLinesRendered, previousWidth,
            previousHeight)
    }

    /** A renderer attached to a cleared terminal whose cursor is at the top left. */
    constructor (terminal: Screen, clearOnShrink: bool, preserveScrollback: bool)
      requires terminal.Valid() && terminal.cursor == |terminal.tape| - terminal.height && terminal.col == 0
      requires forall j | terminal.cursor <= j < |terminal.tape| :: terminal.tape[j] == Blank
      ensures Snapshot().Laid() && Snapshot().InSync()
      ensures screen == terminal && previousLines == [] && previousWidth == 0 == previousHeight
      ensures this.clearOnShrink == clearOnShrink && this.preserveScrollback == preserveScrollback
    {
      screen := terminal;
      previousLines, previousWidth, previousHeight, previousViewportTop := [], 0, 0, 0;
      cursorRow, hardwareCursorRow, maxLinesRendered, fullRedrawCount := 0, 0, 0, 0;
      this.clearOnShrink, this.preserveScrollback := clearOnShrink, preserveScrollback;
    }

    /** A forced render forgets what was on screen; the size -1 makes the next render wipe the terminal. */
    method ForceRender()
      modifies `previousLines, `previousWidth, `previousHeight, `previousViewportTop
      modifies `cursorRow, `hardwareCursorRow, `maxLinesRendered
      ensures Snapshot() == State(screen, [], 0, 0, 0, -1, -1)
    {
      previousLines := [];
      previousWidth, previousHeight := -1, -1;
      cursorRow, hardwareCursorRow := 0, 0;
      maxLinesRendered, previousViewportTop := 0, 0;
    }

    /** Moves the terminal cursor to the marker. A marker above the screen leaves the two out of step. */
    method PositionHardwareCursor(marker: Option<Position>, totalLines: nat)
      requires screen.Valid()
      modifies `screen, `hardwareCursorRow
      ensures screen.Valid() && screen.tape == old(screen.tape)
      ensures screen.height == old(screen.height) && screen.columns == old(screen.columns)
      ensures marker.None? || totalLines == 0 ==>
                screen == old(screen) && hardwareCursorRow == old(hardwareCursorRow)
      ensures marker.Some? && 0 < totalLines ==>
                && hardwareCursorRow == Min(marker.value.row, totalLines - 1)
                && screen.cursor == Max(|screen.tape| - screen.height,
                                        Min(|screen.tape| - 1, old(screen.cursor - hardwareCursorRow)
                                          + hardwareCursorRow))
    {
      if marker.None? || totalLines == 0 { return; }
      var targetRow := Max(0, Min(marker.value.row, totalLines - 1));
      var targetCol := Max(0, marker.value.col);
      var rowDelta := targetRow - hardwareCursorRow;
      var buffer := MoveBy(screen, [], rowDelta);
      ExecSnoc(screen);
      buffer := buffer + [Column(targetCol + 1)];
      screen := Exec(screen, buffer);
      hardwareCursorRow := targetRow;
    }

    /** Prints all lines, after wiping screen and scrollback when `clear` is set. */
    method FullRender(clear: bool, newLines: seq<Line>, marker: Option<Position>)
      requires screen.Valid() && Printable(newLines, screen.columns)
      requires marker.Some? ==> |newLines| - screen.height <= marker.value.row < |newLines|
      requires clear || (Snapshot().Laid() && previousLines == [])
      modifies `screen, `previousLines, `previousWidth, `previousHeight, `previousViewportTop
      modifies `cursorRow, `hardwareCursorRow, `maxLinesRendered, `fullRedrawCount
      ensures Snapshot().Laid() && Snapshot().CursorTracked() && !Snapshot().Resized()
      ensures previousLines == newLines && previousWidth == screen.columns && previousHeight == screen.height
      ensures screen.columns == old(screen.columns) && screen.height == old(screen.height)
      ensures if clear then Repainted(old(Snapshot()), newLines, Snapshot())
              else Edited(old(Snapshot()), newLines, Snapshot())
      ensures newLines != [] && marker.Some? ==> hardwareCursorRow == marker.value.row
      ensures maxLinesRendered == if clear then |newLines| else Max(old(maxLinesRendered), |newLines|)
    {
      fullRedrawCount := fullRedrawCount + 1;
      var height, width := screen.height, screen.columns;
      var buffer := PrintAll(clear, screen, newLines);
      screen := Exec(screen, buffer);
      ghost var printed := screen;
      cursorRow := Max(0, |newLines| - 1);
      hardwareCursorRow := cursorRow;
      maxLinesRendered := if clear then |newLines| else Max(maxLinesRendered, |newLines|);
      var bufferLength := Max(height, |newLines|);
      previousViewportTop := Max(0, bufferLength - height);
      PositionHardwareCursor(marker, |newLines|);
      previousLines := newLines;
      previousWidth := width;
      previousHeight := height;
      AllPrintedLays(old(Snapshot()), newLines, clear, printed, Snapshot());
    }

    /** The scan for changed lines; a missing line counts as the empty string, which no real line is. */
    method FindChanges(newLines: seq<Line>) returns (firstChanged: int, lastChanged: int, appendedLines: bool)
      requires forall i | 0 <= i < |previousLines| :: previousLines[i] != []
      requires forall i | 0 <= i < |newLines| :: newLines[i] != []
      ensures ChangeRange(previousLines, newLines, firstChanged, lastChanged)
      ensures appendedLines == (|newLines| > |previousLines|)
    {
      firstChanged, lastChanged := -1, -1;
      var maxLines := Max(|newLines|, |previousLines|);
      for i := 0 to maxLines
        invariant firstChanged == -1 ==> lastChanged == -1 && forall k :: k < i ==> !Differs(previousLines, newLines, k)
        invariant firstChanged != -1 ==>
                    && 0 <= firstChanged <= lastChanged < i
                    && Differs(previousLines, newLines, firstChanged)
                    && Differs(previousLines, newLines, lastChanged)
                    && (forall k :: k < firstChanged ==> !Differs(previousLines, newLines, k))
                    && (forall k :: lastChanged < k < i ==> !Differs(previousLines, newLines, k))
      {
        var oldLine := if i < |previousLines| then previousLines[i] else [];
        var newLine := if i < |newLines| then newLines[i] else [];
        assert Differs(previousLines, newLines, i) == (oldLine != newLine);
        if oldLine != newLine {
          if firstChanged == -1 {
            firstChanged := i;
          }
          lastChanged := i;
        }
      }
      appendedLines := |newLines| > |previousLines|;
      assert appendedLines ==> Differs(previousLines, newLines, |previousLines|);
      SameLines(previousLines, newLines, firstChanged, lastChanged);
      if appendedLines {
        if firstChanged == -1 {
          assert false;
        }
        lastChanged := |newLines| - 1;
      }
    }

    /** Wipes the rows of deleted lines when the new lines are a proper prefix of the old ones. */
    method WipeDeleted(newLines: seq<Line>, targetRow: int)
      requires Snapshot().Laid() && Snapshot().CursorTracked()
      requires |newLines| < |previousLines| && newLines == previousLines[..|newLines|]
      requires targetRow == Max(0, |newLines| - 1) && previousViewportTop <= targetRow
      modifies `screen, `cursorRow, `hardwareCursorRow
      ensures var st := old(Snapshot());
              && Wiped(st.screen, st.Origin() + |newLines|, |st.lines| - |newLines|, screen)
              && screen.cursor == st.Origin() + targetRow
              && (newLines == [] ==> screen.col == 0)
      ensures hardwareCursorRow == targetRow
    {
      var buffer :=
        DeletionBuffer(screen, Snapshot().Origin(), hardwareCursorRow, targetRow, |previousLines|, |newLines|);
      screen := Exec(screen, buffer);
      cursorRow := targetRow;
      hardwareCursorRow := targetRow;
    }

    /** Repaints the changed lines and wipes the rows of deleted ones. */
    method RepaintRange(newLines: seq<Line>, marker: Option<Position>, firstChanged: nat, lastChanged: int,
                        appendStart: bool)
      requires Snapshot().Laid() && Snapshot().CursorTracked() && previousLines != []
      requires Printable(newLines, screen.columns)
      requires Covers(Snapshot(), newLines, firstChanged, lastChanged)
      requires appendStart == (firstChanged == |previousLines|)
      requires marker.Some? ==> marker.value.row < |newLines|
      modifies `screen, `previousLines, `previousWidth, `previousHeight, `previousViewportTop
      modifies `cursorRow, `hardwareCursorRow, `maxLinesRendered
      ensures Snapshot().Laid() && Edited(old(Snapshot()), newLines, Snapshot())
      ensures previousLines == newLines && previousWidth == screen.columns && previousHeight == screen.height
      ensures screen.columns == old(screen.columns) && screen.height == old(screen.height)
      ensures marker.Some? ==> hardwareCursorRow == marker.value.row
      ensures Snapshot().CursorTracked() <==> (marker.None? || previousViewportTop <= marker.value.row)
      ensures maxLinesRendered == Max(old(maxLinesRendered), |newLines|)
    {
      ghost var was := Snapshot();
      var height, width := screen.height, screen.columns;
      var buffer, finalCursorRow := RangeBuffer(Snapshot(), newLines, firstChanged, lastChanged, appendStart);
      screen := Exec(screen, buffer);
      ghost var now := screen;
      cursorRow := Max(0, |newLines| - 1);
      hardwareCursorRow := finalCursorRow;
      maxLinesRendered := Max(maxLinesRendered, |newLines|);
      previousViewportTop := Max(previousViewportTop, finalCursorRow - height + 1);
      PositionHardwareCursor(marker, |newLines|);
      previousLines := newLines;
      previousWidth := width;
      previousHeight := height;
      RangeLays(was, newLines, firstChanged, lastChanged, now, Snapshot());
    }

    /** Ends a render that leaves the rows as they are: only the cursor moves and the fields are brought up to date. */
    method Settle(newLines: seq<Line>, cursorPos: Option<Position>, viewportTop: int)
      requires Snapshot().(lines := newLines, top := viewportTop).Laid()
      requires Snapshot().(lines := newLines, top := viewportTop).CursorTracked()
      requires cursorPos.Some? ==> cursorPos.value.row < |newLines|
      modifies `screen, `previousLines, `previousWidth, `previousHeight, `previousViewportTop, `hardwareCursorRow
      ensures Snapshot().Laid() && Snapshot().Sized()
      ensures previousLines == newLines && previousViewportTop == viewportTop
      ensures screen.tape == old(screen.tape) && screen.height == old(screen.height)
              && screen.columns == old(screen.columns)
      ensures cursorPos.Some? ==> hardwareCursorRow == cursorPos.value.row
      ensures Snapshot().CursorTracked() <==> (newLines == [] || cursorPos.None? || viewportTop <= cursorPos.value.row)
    {
      PositionHardwareCursor(cursorPos, |newLines|);
      previousLines := newLines;
      previousWidth, previousHeight := screen.columns, screen.height;
      previousViewportTop := viewportTop;
    }

    /** The differential part of a render: nothing was resized and the old lines are on screen. */
    method RenderChanges(newLines: seq<Line>, cursorPos: Option<Position>, ghost hasOverlays: bool)
      requires Snapshot().Laid() && Snapshot().CursorTracked() && Snapshot().Sized() && previousLines != []
      requires Printable(newLines, screen.columns)
      requires cursorPos.Some? ==> Max(0, |newLines| - screen.height) <= cursorPos.value.row < |newLines|
      requires !(clearOnShrink && |newLines| < maxLinesRendered && !hasOverlays)
      modifies `screen, `previousLines, `previousWidth, `previousHeight, `previousViewportTop
      modifies `cursorRow, `hardwareCursorRow, `maxLinesRendered, `fullRedrawCount
      ensures Renders(old(Snapshot()), newLines, cursorPos,
                      Options(clearOnShrink, preserveScrollback, hasOverlays), Snapshot())
    {
      ghost var was := Snapshot();
      var firstChanged, lastChanged, appendedLines := FindChanges(newLines);
      var appendStart := appendedLines && firstChanged == |previousLines| && firstChanged > 0;

      ScanDecides(was, newLines, Options(clearOnShrink, preserveScrollback, hasOverlays), firstChanged, lastChanged);
      RenderScanned(newLines, cursorPos, firstChanged, lastChanged, appendStart);
    }

    method RenderScanned(newLines: seq<Line>, cursorPos: Option<Position>, firstChanged: int, lastChanged: int,
                         appendStart: bool)
      requires Snapshot().Laid() && Snapshot().CursorTracked() && Snapshot().Sized() && previousLines != []
      requires Printable(newLines, screen.columns)
      requires cursorPos.Some? ==> Max(0, |newLines| - screen.height) <= cursorPos.value.row < |newLines|
      requires ChangeRange(previousLines, newLines, firstChanged, lastChanged)
      requires firstChanged >= |newLines| ==> |newLines| < |previousLines| && newLines == previousLines[..|newLines|]
      requires 0 <= firstChanged < |newLines| ==>
                 firstChanged <= |previousLines| && appendStart == (firstChanged == |previousLines|)
      modifies `screen, `previousLines, `previousWidth, `previousHeight, `previousViewportTop
      modifies `cursorRow, `hardwareCursorRow, `maxLinesRendered, `fullRedrawCount
      ensures Leaves(old(Snapshot()), newLines, cursorPos,
                     ScanRepaints(old(Snapshot()), newLines, firstChanged, preserveScrollback), Snapshot())
    {
      if firstChanged == -1 {
        Settle(newLines, cursorPos, previousViewportTop);
      } else if firstChanged >= |newLines| {
        RenderDeletion(newLines, cursorPos);
      } else {
        RenderRange(newLines, cursorPos, firstChanged, lastChanged, appendStart);
      }
    }

    /** All changes are in deleted lines. */
    method RenderDeletion(newLines: seq<Line>, cursorPos: Option<Position>)
      requires Snapshot().Laid() && Snapshot().CursorTracked()
      requires Printable(newLines, screen.columns)
      requires cursorPos.Some? ==> Max(0, |newLines| - screen.height) <= cursorPos.value.row < |newLines|
      requires |newLines| < |previousLines| && newLines == previousLines[..|newLines|]
      modifies `screen, `previousLines, `previousWidth, `previousHeight, `previousViewportTop
      modifies `cursorRow, `hardwareCursorRow, `maxLinesRendered, `fullRedrawCount
      ensures Leaves(old(Snapshot()), newLines, cursorPos, Max(0, |newLines| - 1) < old(previousViewportTop),
                     Snapshot())
    {
      ghost var was := Snapshot();
      var height, prevViewportTop := screen.height, previousViewportTop;
      var targetRow := Max(0, |newLines| - 1);
      if targetRow < prevViewportTop {
        FullRender(true, newLines, cursorPos);
        return;
      }
      if |previousLines| - |newLines| > height {
        assert false;  // the deleted lines were on screen, so there are never more of them than rows
      }
      WipeDeleted(newLines, targetRow);
      DeletedLays(was, newLines, screen, Snapshot().(lines := newLines));
      Settle(newLines, cursorPos, prevViewportTop);
    }

    /** Some change is in a line that still exists; changes above the screen are clamped away or repainted. */
    method RenderRange(newLines: seq<Line>, cursorPos: Option<Position>, first: nat, last: int, appendStart: bool)
      requires Snapshot().Laid() && Snapshot().CursorTracked() && previousLines != []
      requires Printable(newLines, screen.columns)
      requires cursorPos.Some? ==> Max(0, |newLines| - screen.height) <= cursorPos.value.row < |newLines|
      requires ChangeRange(previousLines, newLines, first, last) && first < |newLines| && first <= |previousLines|
      requires appendStart == (first == |previousLines|)
      modifies `screen, `previousLines, `previousWidth, `previousHeight, `previousViewportTop
      modifies `cursorRow, `hardwareCursorRow, `maxLinesRendered, `fullRedrawCount
      ensures Leaves(old(Snapshot()), newLines, cursorPos,
                     first < old(previousViewportTop)
                       && (!preserveScrollback || |newLines| < |old(previousLines)|), Snapshot())
    {
      ghost var was := Snapshot();
      var prevViewportTop := previousViewportTop;
      var firstChanged, lastChanged := first, last;
      if firstChanged < prevViewportTop {
        if !preserveScrollback || |newLines| < |previousLines| {
          FullRender(true, newLines, cursorPos);
          return;
        }
        firstChanged := prevViewportTop;
        if lastChanged < firstChanged && |newLines| == |previousLines| {
          SameBelow(was, newLines, lastChanged);
          Settle(newLines, cursorPos, prevViewportTop);
          return;
        }
        lastChanged := Max(lastChanged, firstChanged);
      }
      RepaintRange(newLines, cursorPos, firstChanged, lastChanged, appendStart);
    }

    /** One render. The lines must fit the terminal's width; over-wide lines make the original throw. */
    method DoRender(rendered: seq<Line>, hasOverlays: bool)
      requires Snapshot().InSync()
      requires forall i | 0 <= i < |rendered| :: Width(rendered[i]) <= screen.columns
      modifies `screen, `previousLines, `previousWidth, `previousHeight, `previousViewportTop
      modifies `cursorRow, `hardwareCursorRow, `maxLinesRendered, `fullRedrawCount
      ensures Renders(old(Snapshot()), FrameLines(rendered, old(screen.height)), CursorOf(rendered, old(screen.height)),
                      Options(clearOnShrink, preserveScrollback, hasOverlays), Snapshot())
    {
      ghost var was := Snapshot();
      var width, height := screen.columns, screen.height;
      var widthChanged := previousWidth != 0 && previousWidth != width;
      var heightChanged := previousHeight != 0 && previousHeight != height;
      var newLines, cursorPos := ExtractCursorPosition(rendered, height);
      newLines := ApplyLineResets(newLines);
      assert newLines == FrameLines(rendered, height);
      FrameLinesPrintable(rendered, height, width);

      if |previousLines| == 0 && !widthChanged && !heightChanged {
        FullRender(false, newLines, cursorPos);
        return;
      }
      if widthChanged || heightChanged {
        FullRender(true, newLines, cursorPos);
        return;
      }
      if clearOnShrink && |newLines| < maxLinesRendered && !hasOverlays {
        FullRender(true, newLines, cursorPos);
        return;
      }
      RenderChanges(newLines, cursorPos, hasOverlays);
    }
  }

  lemma {:induction false} SameLines(a: seq<Line>, b: seq<Line>, first: int, last: int)
    requires forall i | 0 <= i < |a| :: a[i] != []
    requires forall i | 0 <= i < |b| :: b[i] != []
    requires first == -1 ==> forall k :: k < Max(|a|, |b|) ==> !Differs(a, b, k)
    requires forall k :: Max(0, last + 1) <= k < Max(|a|, |b|) ==> !Differs(a, b, k)
    ensures first == -1 ==> a == b
    ensures |a| != |b| ==> last >= Max(|a|, |b|) - 1
    ensures forall i | Min(|a|, |b|) <= i < Max(|a|, |b|) :: Differs(a, b, i)
  {
    forall i | Min(|a|, |b|) <= i < Max(|a|, |b|)
      ensures Differs(a, b, i)
    {
    }
    if |a| != |b| {
      assert Differs(a, b, Max(|a|, |b|) - 1);
    }
    if first == -1 {
      forall i | 0 <= i < |a|
        ensures a[i] == b[i]
      {
        assert !Differs(a, b, i);
      }
    }
  }
}
