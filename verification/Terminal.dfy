/** A character terminal as the renderer sees it: rows of text, a cursor, and the commands it understands. */
module Terminals {
  import opened Common

  /** What a rendered line is made of. `CursorMarker` is the zero-width APC marker, `Reset` the SGR/OSC 8 reset. */
  datatype Item = Glyph(text: string, width: nat) | Tab | CursorMarker | Reset

  type Line = seq<Item>

  /** visibleWidth: a tab counts as three columns. */
  function Width(line: Line): nat {
    if line == [] then 0
    else (match line[0] case Glyph(_, width) => width case Tab => 3 case _ => 0) + Width(line[1..])
  }

  /** One row. Text that lands on a dirty row, off column 0 or past the right edge leaves a `Mixed` row. */
  datatype Row = Blank | Shows(line: Line) | Mixed(under: Row, over: Line, col: nat)

  datatype Command =
    | Up(n: nat)
    | Down(n: nat)
    | Column(c: nat)
    | CarriageReturn
    | CrLf
    | ClearLine
    | ClearAll
    | Print(line: Line)

  /** The last `height` rows of `tape` are on screen; the rows above them are scrollback. `cursor` indexes `tape`. */
  datatype Screen = Screen(tape: seq<Row>, height: nat, columns: nat, cursor: nat, col: nat) {

    ghost predicate Valid() {
      && 0 < height <= |tape|
      && 0 < columns
      && |tape| - height <= cursor < |tape|
    }

    function Scrollback(): seq<Row>
      requires height <= |tape|
    {
      tape[..|tape| - height]
    }

    function Visible(): seq<Row>
      requires height <= |tape|
    {
      tape[|tape| - height..]
    }
  }

  /** Cursor motion is clamped to the screen, a zero count means one, and only CRLF on the last row scrolls. */
  function Step(s: Screen, c: Command): (r: Screen)
    requires s.Valid()
    ensures r.Valid() && r.height == s.height && r.columns == s.columns
  {
    match c
    case Up(n) => s.(cursor := Max(|s.tape| - s.height, s.cursor - Max(1, n)))
    case Down(n) => s.(cursor := Min(|s.tape| - 1, s.cursor + Max(1, n)))
    case Column(c) => s.(col := Min(Max(1, c), s.columns) - 1)
    case CarriageReturn => s.(col := 0)
    case CrLf =>
      if s.cursor == |s.tape| - 1
      then s.(tape := s.tape + [Blank], cursor := s.cursor + 1, col := 0)
      else s.(cursor := s.cursor + 1, col := 0)
    case ClearLine => s.(tape := s.tape[s.cursor := Blank])
    case ClearAll => s.(tape := seq(s.height, _ => Blank), cursor := 0, col := 0)
    case Print(line) =>
      var under := s.tape[s.cursor];
      var row :=
        if under == Blank && s.col == 0 && Width(line) <= s.columns then Shows(line)
        else Mixed(under, line, s.col);
      s.(tape := s.tape[s.cursor := row], col := s.col + Width(line))
  }

  function Exec(s: Screen, commands: seq<Command>): (r: Screen)
    requires s.Valid()
    ensures r.Valid() && r.height == s.height && r.columns == s.columns
  {
    if commands == [] then s
    else Step(Exec(s, commands[..|commands| - 1]), commands[|commands| - 1])
  }

  lemma {:induction false} ExecSnoc(s: Screen)
    requires s.Valid()
    ensures forall b: seq<Command>, c: Command {:trigger Exec(s, b + [c])} :: Exec(s, b + [c]) == Step(Exec(s, b), c)
  {
    forall b: seq<Command>, c: Command
      ensures Exec(s, b + [c]) == Step(Exec(s, b), c)
    {
      assert (b + [c])[..|b|] == b;
    }
  }

  lemma {:induction false} StepKeepsScrollback(s: Screen, c: Command)
    requires s.Valid() && c != ClearAll
    ensures s.Scrollback() <= Step(s, c).Scrollback()
    ensures forall i | 0 <= i < |s.tape| && i != s.cursor :: Step(s, c).tape[i] == s.tape[i]
  {
  }

  /** Whatever is written, short of clearing everything, what has scrolled off the screen stays. */
  lemma {:induction false} ScrollbackStays(s: Screen, commands: seq<Command>)
    requires s.Valid() && ClearAll !in commands
    ensures s.Scrollback() <= Exec(s, commands).Scrollback()
  {
    if commands != [] {
      var n := |commands| - 1;
      ScrollbackStays(s, commands[..n]);
      StepKeepsScrollback(Exec(s, commands[..n]), commands[n]);
    }
  }
}
