/** What the differential renderer keeps over whole runs: frames, resizes and forced renders in any order. */
module RenderRuns {
  import opened Common
  import opened Terminals
  import opened DiffRendering

  datatype Event =
    | Frame(rendered: seq<Line>, hasOverlays: bool)
    | Resize(screen: Screen)
    | Force

  ghost predicate Fits(e: Event, columns: nat) {
    e.Frame? ==> forall i | 0 <= i < |e.rendered| :: Width(e.rendered[i]) <= columns
  }

  function LinesOf(st: State, e: Event): seq<Line>
    requires e.Frame?
  {
    FrameLines(e.rendered, st.screen.height)
  }

  function MarkerOf(st: State, e: Event): Option<Position>
    requires e.Frame?
  {
    CursorOf(e.rendered, st.screen.height)
  }

  /** A resize leaves any terminal contents at all; a forced render forgets everything that was tracked. */
  ghost predicate Steps(st: State, e: Event, o: Options, st': State) {
    match e
    case Frame(_, overlays) =>
      Fits(e, st.screen.columns) && Renders(st, LinesOf(st, e), MarkerOf(st, e), o.(hasOverlays := overlays), st')
    case Resize(screen) => screen.Valid() && st' == st.(screen := screen) && st'.Resized()
    case Force => st' == State(st.screen, [], 0, 0, 0, -1, -1)
  }

  ghost predicate Run(states: seq<State>, events: seq<Event>, o: Options) {
    && |states| == |events| + 1
    && forall i | 0 <= i < |events| :: Steps(states[i], events[i], o, states[i + 1])
  }

  /** The cursor marker is not on a line that an earlier, longer frame left above the screen. */
  ghost predicate MarkerOnScreen(st: State, e: Event, o: Options) {
    e.Frame? ==>
      || LinesOf(st, e) == [] || MarkerOf(st, e).None?
      || Repaints(st, LinesOf(st, e), o.(hasOverlays := e.hasOverlays))
      || st.top <= MarkerOf(st, e).value.row
  }

  /** One step loses track of the terminal exactly when the marker is above the screen. */
  lemma {:induction false} StepKeepsSync(st: State, e: Event, o: Options, st': State)
    requires st.InSync() && Steps(st, e, o, st')
    ensures st'.InSync() <==> MarkerOnScreen(st, e, o)
    ensures e.Frame? ==> st'.Laid() && st'.Sized() && st'.lines == LinesOf(st, e)
  {
  }

  /** The frame's lines are on screen row by row and the terminal cursor is where the renderer thinks it is. */
  ghost predicate FrameShown(st: State, e: Event, st': State) {
    e.Frame? ==>
      && st'.lines == LinesOf(st, e)
      && st'.CursorTracked()
      && (st'.lines != [] && MarkerOf(st, e).Some? ==> st'.cursor == MarkerOf(st, e).value.row)
      && ShowsFrom(st'.screen, st'.lines, st'.top)
  }

  lemma {:induction false} StepShowsFrame(st: State, e: Event, o: Options, st': State)
    requires st.InSync() && Steps(st, e, o, st') && MarkerOnScreen(st, e, o)
    ensures st'.InSync() && FrameShown(st, e, st')
  {
    StepKeepsSync(st, e, o, st');
    if e.Frame? {
      LaidShows(st');
    }
  }

  /** Over any run of frames, resizes and forced renders every frame is shown. */
  lemma {:induction false} RunShowsEveryFrame(states: seq<State>, events: seq<Event>, o: Options, i: nat)
    requires Run(states, events, o) && states[0].InSync() && i < |states|
    requires forall k | 0 <= k < |events| :: MarkerOnScreen(states[k], events[k], o)
    ensures states[i].InSync()
    ensures 0 < i ==> FrameShown(states[i - 1], events[i - 1], states[i])
  {
    if i > 0 {
      RunShowsEveryFrame(states, events, o, i - 1);
      StepShowsFrame(states[i - 1], events[i - 1], o, states[i]);
    }
  }

  /** Screen row r shows line top + r, or nothing past the last line. */
  ghost predicate ShowsFrom(s: Screen, lines: seq<Line>, top: int) {
    && s.height <= |s.tape|
    && forall r | 0 <= r < s.height :: s.Visible()[r] == RowAt(lines, top + r)
  }

  lemma {:induction false} LaidShows(st: State)
    requires st.Laid()
    ensures ShowsFrom(st.screen, st.lines, st.top)
  {
    forall r | 0 <= r < st.screen.height
      ensures st.screen.Visible()[r] == RowAt(st.lines, st.top + r)
    {
      assert st.screen.tape[st.Origin() + st.top + r] == RowAt(st.lines, st.top + r);
    }
  }

  /** Two screens that show the same lines differ only by where they start. */
  lemma {:induction false} ShowsSame(a: Screen, b: Screen, lines: seq<Line>, top: int, lower: int)
    requires ShowsFrom(a, lines, lower) && ShowsFrom(b, lines, top) && a.height == b.height && top <= lower
    ensures forall r | 0 <= r < a.height - (lower - top) :: a.Visible()[r] == b.Visible()[r + (lower - top)]
    ensures top == lower ==> a.Visible() == b.Visible()
  {
    forall r | 0 <= r < a.height - (lower - top) ensures a.Visible()[r] == b.Visible()[r + (lower - top)] {
      assert a.Visible()[r] == RowAt(lines, lower + r)
        && b.Visible()[r + (lower - top)] == RowAt(lines, top + (r + (lower - top)));
    }
    if top == lower {
      assert forall r | 0 <= r < a.height :: a.Visible()[r] == b.Visible()[r];
    }
  }

  lemma {:induction false} Tops(st: State, lines: seq<Line>, marker: Option<Position>, o: Options, st': State)
    requires st.InSync() && Renders(st, lines, marker, o, st')
    ensures st'.Laid() && st'.lines == lines && st'.screen.height == st.screen.height
    ensures Max(0, |lines| - st.screen.height) <= st'.top
    ensures |st.lines| <= |lines| && st.top == Max(0, |st.lines| - st.screen.height) && !st.Resized()
            ==> st'.top == Max(0, |lines| - st.screen.height)
  {
  }

  /** The edit shows what a full repaint would, row for row, unless a retained screen sits lower than the repaint's. */
  lemma {:induction false} RefinesFullRepaint(st: State, lines: seq<Line>, marker: Option<Position>, o: Options,
                                              st': State, full: State)
    requires st.InSync() && Renders(st, lines, marker, o, st')
    requires full.Laid() && full.lines == lines && full.screen.height == st.screen.height && Repainted(st, lines, full)
    ensures full.top <= st'.top
    ensures forall r | 0 <= r < st.screen.height - (st'.top - full.top) ::
              st'.screen.Visible()[r] == full.screen.Visible()[r + (st'.top - full.top)]
    ensures |st.lines| <= |lines| && st.top == Max(0, |st.lines| - st.screen.height) && !st.Resized() ==>
              st'.screen.Visible() == full.screen.Visible()
  {
    Tops(st, lines, marker, o, st');
    LaidShows(st');
    LaidShows(full);
    ShowsSame(st'.screen, full.screen, lines, full.top, st'.top);
  }

  /** The whole tape, scrollback included, is what was last rendered. */
  ghost predicate Faithful(st: State) {
    && st.Laid()
    && forall j {:trigger st.screen.tape[j]} | st.Origin() <= j < |st.screen.tape| ::
        st.screen.tape[j] == RowAt(st.lines, j - st.Origin())
  }

  lemma {:induction false} EditIsFaithful(st: State, lines: seq<Line>, st': State)
    requires Faithful(st) && Edited(st, lines, st') && st'.Laid() && st'.lines == lines
    requires forall i | 0 <= i < st.top :: !Differs(st.lines, lines, i)
    ensures Faithful(st')
  {
    var was, now := st.screen.tape, st'.screen.tape;
    forall j | st.Origin() <= j < st.Origin() + st.top
      ensures now[j] == RowAt(lines, j - st.Origin())
    {
      assert was[..st.Origin() + st.top][j] == was[j] == RowAt(st.lines, j - st.Origin());
      assert !Differs(st.lines, lines, j - st.Origin());
    }
  }

  lemma {:induction false} FrameIsFaithful(st: State, e: Event, o: Options, st': State)
    requires e.Frame? && Steps(st, e, o, st') && !o.preserveScrollback
    requires st.InSync() && (st.Resized() || Faithful(st))
    ensures Faithful(st') && st'.lines == LinesOf(st, e)
  {
    var lines := LinesOf(st, e);
    if !Repaints(st, lines, o.(hasOverlays := e.hasOverlays)) {
      if st.lines == [] {
        assert st.top == 0;
      }
      EditIsFaithful(st, lines, st');
    }
  }

  /** With scrollback preservation off, even the scrollback stays equal to a full repaint's. */
  lemma {:induction false} RepaintModeStaysFaithful(st: State, e: Event, o: Options, st': State)
    requires e.Frame? && Steps(st, e, o, st') && !o.preserveScrollback
    requires st.InSync() && (st.Resized() || Faithful(st))
    ensures Faithful(st')
    ensures st'.screen.tape[st'.Origin()..] == seq(st'.top + st'.screen.height, j => RowAt(LinesOf(st, e), j))
  {
    FrameIsFaithful(st, e, o, st');
  }

  /** A frame of a streaming session: no shrinking, nothing forced, nothing resized. */
  ghost predicate Grows(st: State, e: Event) {
    e.Frame? && |st.lines| <= |e.rendered|
  }

  lemma {:induction false} GrowingEdits(st: State, e: Event, o: Options, st': State)
    requires st.InSync() && !st.Resized() && Steps(st, e, o, st') && Grows(st, e)
    requires o.preserveScrollback && !o.clearOnShrink
    ensures !Repaints(st, LinesOf(st, e), o.(hasOverlays := e.hasOverlays))
    ensures st.Laid() && Edited(st, LinesOf(st, e), st') && st'.Laid() && !st'.Resized()
    ensures st'.screen.height == st.screen.height
  {
  }

  lemma {:induction false} EditKeepsScrollback(st: State, lines: seq<Line>, st': State)
    requires st.Laid() && Edited(st, lines, st') && st'.Laid() && st'.screen.height == st.screen.height
    ensures st.top <= st'.top
    ensures st'.screen.Scrollback() == st.screen.Scrollback() + seq(st'.top - st.top, i => RowAt(lines, st.top + i))
  {
    var was, now := st.screen.Scrollback(), st'.screen.Scrollback();
    var n := |st.screen.tape| - st.screen.height;
    assert |was| == n && |now| == n + st'.top - st.top && n == st.Origin() + st.top;
    assert now[..n] == was by {
      assert st.screen.tape[..n] == st'.screen.tape[..n];
    }
    forall j | n <= j < |now|
      ensures now[j] == RowAt(lines, j - st.Origin())
    {
      assert now[j] == st'.screen.tape[j];
    }
  }

  /** Preserved scrollback is never wiped or rewritten: it only gains the lines that scrolled off, one row each. */
  lemma {:induction false} GrowingKeepsScrollback(st: State, e: Event, o: Options, st': State)
    requires st.InSync() && !st.Resized() && Steps(st, e, o, st') && Grows(st, e)
    requires o.preserveScrollback && !o.clearOnShrink
    ensures !Repaints(st, LinesOf(st, e), o.(hasOverlays := e.hasOverlays))
    ensures st.top <= st'.top && !st'.Resized()
    ensures st'.screen.Scrollback()
            == st.screen.Scrollback() + seq(st'.top - st.top, i => RowAt(LinesOf(st, e), st.top + i))
  {
    GrowingEdits(st, e, o, st');
    EditKeepsScrollback(st, LinesOf(st, e), st');
  }

  lemma {:induction false} RunKeepsScrollback(states: seq<State>, events: seq<Event>, o: Options)
    requires Run(states, events, o) && states[0].InSync() && !states[0].Resized()
    requires o.preserveScrollback && !o.clearOnShrink
    requires forall i | 0 <= i < |events| :: Grows(states[i], events[i]) && MarkerOnScreen(states[i], events[i], o)
    ensures states[|events|].InSync() && !states[|events|].Resized()
    ensures states[0].screen.height <= |states[0].screen.tape|
    ensures states[0].screen.Scrollback() <= states[|events|].screen.Scrollback()
    ensures |states[|events|].screen.Scrollback()| - |states[0].screen.Scrollback()|
            == states[|events|].top - states[0].top
  {
    if events != [] {
      var n := |events| - 1;
      RunKeepsScrollback(states[..n + 1], events[..n], o);
      StepKeepsSync(states[n], events[n], o, states[n + 1]);
      GrowingKeepsScrollback(states[n], events[n], o, states[n + 1]);
    }
  }

  // ----- a run that loses the cursor

  const GLYPH: Line := [Glyph("a", 1)]
  const SHOWN: Line := GLYPH + [Reset]
  const MARKED: Line := GLYPH + [CursorMarker]
  const LONG: seq<Line> := [GLYPH, GLYPH, GLYPH, GLYPH]
  const SHORT: seq<Line> := [GLYPH, MARKED, GLYPH]

  lemma {:induction false} GlyphShows()
    ensures Normalized(GLYPH) == GLYPH && Width(GLYPH) == 1 && Width(MARKED) == 1 && CursorMarker !in GLYPH
  {
    assert DecomposeAm("a") == "a";
    assert MARKED[1..] == [CursorMarker] && [CursorMarker][1..] == [] && GLYPH[1..] == [];
  }

  lemma {:induction false} LongFrame()
    ensures FrameLines(LONG, 2) == [SHOWN, SHOWN, SHOWN, SHOWN] && CursorOf(LONG, 2) == None
  {
    GlyphShows();
    assert LONG[..3][..2] == LONG[..2];
    assert MarkerRow(LONG[..2], 0) == -1;
    assert MarkerRow(LONG[..3], 1) == -1;
    assert MarkerRow(LONG, 2) == -1;
  }

  lemma {:induction false} ShortFrame()
    ensures FrameLines(SHORT, 2) == [SHOWN, SHOWN, SHOWN]
    ensures CursorOf(SHORT, 2).Some? && CursorOf(SHORT, 2).value.row == 1
  {
    GlyphShows();
    assert MARKED[1] == CursorMarker && MARKED[0] == GLYPH[0];
    assert SHORT[..2][1] == SHORT[1];
    assert MarkerRow(SHORT, 2) == MarkerRow(SHORT[..2], 1) == 1;
    assert MarkerIndex(MARKED) == 1 && Unmarked(MARKED) == GLYPH;
  }

  lemma {:induction false} NoRepaint(st: State, lines: seq<Line>)
    requires !st.Resized() && st.lines == [SHOWN, SHOWN, SHOWN, SHOWN] && st.top == 2 && lines == [SHOWN, SHOWN, SHOWN]
    ensures !Repaints(st, lines, Options(false, true, false))
  {
    assert !Differs(st.lines, lines, 0) && !Differs(st.lines, lines, 1);
  }

  /**
   * Four lines on a terminal of two rows, then three with the cursor on the second: it lies above the screen, and the
   * terminal's cursor is not where the renderer now believes it to be.
   */
  method MarkerAboveScreenIsLost() returns (tui: Tui)
    ensures !tui.Snapshot().InSync() && tui.hardwareCursorRow == 1 && tui.screen.cursor != tui.Snapshot().Origin() + 1
  {
    LongFrame();
    ShortFrame();
    GlyphShows();
    tui := new Tui(Screen([Blank, Blank], 2, 10, 0, 0), false, true);
    tui.DoRender(LONG, false);
    ghost var st := tui.Snapshot();
    NoRepaint(st, [SHOWN, SHOWN, SHOWN]);
    tui.DoRender(SHORT, false);
  }
}
