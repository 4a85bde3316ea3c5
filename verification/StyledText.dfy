/** Text as escape sequences and grapheme cells, and what it means on screen: styled cells. */
module StyledText {
  import opened Common
  import opened AnsiCodes
  import opened StyleRoundTrip
  import opened Tracker

  /** Segmentation into graphemes and their widths come from Unicode tables outside this model. */
  datatype Item = Code(text: string) | Cell(glyph: string, width: nat, cjk: bool)

  type Text = seq<Item>

  datatype Styled = Styled(cell: Item, style: Style)

  predicate IsSpace(item: Item) { item.Cell? && item.glyph == " " }

  ghost predicate WellFormed(text: Text) {
    forall i | 0 <= i < |text| :: if text[i].Code? then IsCode(text[i].text) else text[i].glyph != ""
  }

  /** visibleWidth: escape sequences take no columns. */
  function Width(text: Text): (w: nat) {
    if text == [] then 0
    else Width(text[..|text| - 1]) + (if text[|text| - 1].Cell? then text[|text| - 1].width else 0)
  }

  /** The tracker's style after a text. */
  function After(s: Style, text: Text): Style {
    if text == [] then s
    else
      var before, last := After(s, text[..|text| - 1]), text[|text| - 1];
      if last.Code? then Processed(before, last.text) else before
  }

  /** The cells a text shows, each in the style it is drawn with. */
  function Cells(s: Style, text: Text): seq<Styled> {
    if text == [] then []
    else
      var before, last := text[..|text| - 1], text[|text| - 1];
      Cells(s, before) + if last.Cell? then [Styled(last, After(s, before))] else []
  }

  lemma {:induction false} Concat(s: Style, a: Text, b: Text)
    ensures Width(a + b) == Width(a) + Width(b)
    ensures After(s, a + b) == After(After(s, a), b)
    ensures Cells(s, a + b) == Cells(s, a) + Cells(After(s, a), b)
  {
    if b == [] {
      assert a + b == a;
    } else {
      var init := b[..|b| - 1];
      assert (a + b)[..|a + b| - 1] == a + init;
      Concat(s, a, init);
      assert Cells(s, a)
        + (Cells(After(s, a), init) + (if b[|b| - 1].Cell? then [Styled(b[|b| - 1], After(After(s, a), init))] else []))
          == Cells(s, a + b);
    }
  }

  ghost predicate AllCodes(text: Text) { forall i | 0 <= i < |text| :: text[i].Code? && IsCode(text[i].text) }

  lemma {:induction false} CodesShowNothing(s: Style, text: Text)
    requires AllCodes(text)
    ensures Cells(s, text) == [] && Width(text) == 0
  {
    if text != [] {
      CodesShowNothing(s, text[..|text| - 1]);
    }
  }

  lemma {:induction false} AfterTrackable(s: Style, text: Text)
    requires Trackable(s) && WellFormed(text)
    ensures Trackable(After(s, text))
  {
    if text != [] {
      AfterTrackable(s, text[..|text| - 1]);
      if text[|text| - 1].Code? {
        ProcessedTrackable(After(s, text[..|text| - 1]), text[|text| - 1].text);
      }
    }
  }

  lemma {:induction false} AppendItem(s: Style, text: Text, item: Item)
    ensures Cells(s, text + [item]) == Cells(s, text) + if item.Cell? then [Styled(item, After(s, text))] else []
    ensures After(s, text + [item]) == if item.Code? then Processed(After(s, text), item.text) else After(s, text)
    ensures Width(text + [item]) == Width(text) + if item.Cell? then item.width else 0
  {
    assert (text + [item])[..|text|] == text;
  }

  // ----- blanks and resets

  const SPACE: Item := Cell(" ", 1, false)

  function Spaces(n: nat): Text {
    if n == 0 then [] else Spaces(n - 1) + [SPACE]
  }

  function Blanks(n: nat, s: Style): seq<Styled> {
    if n == 0 then [] else Blanks(n - 1, s) + [Styled(SPACE, s)]
  }

  lemma {:induction false} SpacesShow(n: nat, s: Style)
    ensures Cells(s, Spaces(n)) == Blanks(n, s) && After(s, Spaces(n)) == s
  {
    if n > 0 {
      SpacesShow(n - 1, s);
      AppendItem(s, Spaces(n - 1), SPACE);
    }
  }

  const RESET: string := [ESC, '['] + "0" + "m"
  const LINK_OFF: string := FormatOsc8Close([BEL])

  lemma {:induction false} ResetReads(s: Style)
    ensures IsCode(RESET) && Processed(s, RESET) == ResetSgr(s)
  {
    SgrCodeIsWhole("0");
  }

  lemma {:induction false} LinkOffReads(s: Style)
    ensures IsCode(LINK_OFF) && Processed(s, LINK_OFF) == s.(link := None)
  {
    LinkCloseReads(s, [BEL]);
  }

  // ----- what the tracker prints at line starts and ends

  /** getActiveCodes, as the escape sequences it consists of. */
  function ActiveItems(s: Style): Text {
    SgrItems(s) + LinkItems(s)
  }

  function SgrItems(s: Style): Text { if SgrCodes(s) != [] then [Code(SgrCode(s))] else [] }

  function LinkItems(s: Style): Text { if s.link.Some? then [Code(LinkCode(s))] else [] }

  lemma {:induction false} OneCode(s: Style, code: string, text: Text)
    requires IsCode(code) && text == [Code(code)]
    ensures AllCodes(text) && After(s, text) == Processed(s, code)
  {
    AppendItem(s, [], Code(code));
    assert [] + text == text;
  }

  lemma {:induction false} SgrItemsRestore(s: Style)
    requires Trackable(s)
    ensures AllCodes(SgrItems(s)) && After(PLAIN, SgrItems(s)) == s.(link := None)
  {
    if SgrCodes(s) != [] {
      SgrCodeReads(s);
      OneCode(PLAIN, SgrCode(s), SgrItems(s));
    } else {
      NoCodes(s);
    }
  }

  lemma {:induction false} LinkItemsRestore(s: Style)
    requires Trackable(s)
    ensures AllCodes(LinkItems(s)) && After(s.(link := None), LinkItems(s)) == s
  {
    if s.link.Some? {
      LinkCodeReads(s);
      OneCode(s.(link := None), LinkCode(s), LinkItems(s));
    }
  }

  /** A line that starts with the active codes starts in the tracked style, on a terminal in its reset style. */
  lemma {:induction false} ActiveItemsRestore(s: Style)
    requires Trackable(s)
    ensures AllCodes(ActiveItems(s)) && After(PLAIN, ActiveItems(s)) == s
  {
    SgrItemsRestore(s);
    LinkItemsRestore(s);
    Concat(PLAIN, SgrItems(s), LinkItems(s));
  }

  function LineEndItems(s: Style): Text {
    (if UNDERLINE in s.on then [Code(UNDERLINE_OFF)] else [])
    + (if s.link.Some? then [Code(FormatOsc8Close(s.link.value.terminator))] else [])
  }

  lemma {:induction false} UnderlineItemsClose(s: Style, text: Text)
    requires text == if UNDERLINE in s.on then [Code(UNDERLINE_OFF)] else []
    ensures AllCodes(text) && After(s, text) == s.(on := s.on - {UNDERLINE})
  {
    if UNDERLINE in s.on {
      UnderlineOffReads(s);
      OneCode(s, UNDERLINE_OFF, text);
    }
  }

  lemma {:induction false} LinkItemsClose(s: Style, t: Style, text: Text)
    requires Trackable(s) && text == if s.link.Some? then [Code(FormatOsc8Close(s.link.value.terminator))] else []
    requires t.link == s.link
    ensures AllCodes(text) && After(t, text) == t.(link := None)
  {
    if s.link.Some? {
      LinkEndsWell(s);
      LinkCloseReads(t, s.link.value.terminator);
      OneCode(t, FormatOsc8Close(s.link.value.terminator), text);
    }
  }

  /** A line that ends with the line end reset is left without underline and hyperlink, and otherwise as it was. */
  lemma {:induction false} LineEndItemsClose(s: Style)
    requires Trackable(s)
    ensures AllCodes(LineEndItems(s)) && After(s, LineEndItems(s)) == Closed(s)
  {
    var underline: Text := if UNDERLINE in s.on then [Code(UNDERLINE_OFF)] else [];
    var link: Text := if s.link.Some? then [Code(FormatOsc8Close(s.link.value.terminator))] else [];
    var t := s.(on := s.on - {UNDERLINE});
    UnderlineItemsClose(s, underline);
    LinkItemsClose(s, t, link);
    assert LineEndItems(s) == underline + link;
    BothClose(s, t, underline, link);
  }

  lemma {:induction false} BothClose(s: Style, t: Style, a: Text, b: Text)
    requires AllCodes(a) && After(s, a) == t && AllCodes(b)
    ensures AllCodes(a + b) && After(s, a + b) == After(t, b)
  {
    Concat(s, a, b);
  }

  /** The text of items, as it is written. */
  function Print(text: Text): string {
    if text == [] then ""
    else Print(text[..|text| - 1]) + (match text[|text| - 1] case Code(code) => code case Cell(glyph, _, _) => glyph)
  }

  /** The items say in items what the tracker prints as text. */
  lemma {:induction false} ItemsPrint(s: Style)
    ensures Print(ActiveItems(s)) == ActiveCodes(s) && Print(LineEndItems(s)) == LineEndReset(s)
  {
    PrintTwo(SgrItems(s), SgrCode(s), LinkItems(s), LinkCode(s));
    PrintTwo(if UNDERLINE in s.on then [Code(UNDERLINE_OFF)] else [], if UNDERLINE in s.on then UNDERLINE_OFF else "",
             if s.link.Some? then [Code(FormatOsc8Close(s.link.value.terminator))] else [],
             if s.link.Some? then FormatOsc8Close(s.link.value.terminator) else "");
  }

  lemma {:induction false} PrintTwo(a: Text, first: string, b: Text, second: string)
    requires a == if first != "" then [Code(first)] else []
    requires b == if second != "" then [Code(second)] else []
    ensures Print(a + b) == first + second
  {
    if a != [] { assert a[..0] == [] && "" + first == first && Print(a) == first; }
    if b != [] {
      assert (a + b)[..|a|] == a;
      assert Print(a + b) == Print(a) + second;
    } else {
      assert a + b == a && first + second == first;
    }
  }

  // ----- trimming

  predicate AllSpaces(text: Text) { forall i | 0 <= i < |text| :: IsSpace(text[i]) }

  predicate Blank(cells: seq<Styled>) { forall i | 0 <= i < |cells| :: IsSpace(cells[i].cell) }

  /** trimEnd: only spaces at the very end go, so an escape sequence after them keeps them. */
  function TrimEnd(text: Text): (r: Text)
    ensures r <= text && AllSpaces(text[|r|..])
    ensures r != [] ==> !IsSpace(r[|r| - 1])
  {
    if text != [] && IsSpace(text[|text| - 1]) then TrimEnd(text[..|text| - 1]) else text
  }

  lemma {:induction false} SpacesAreBlank(s: Style, text: Text)
    requires AllSpaces(text)
    ensures Blank(Cells(s, text)) && After(s, text) == s
  {
    if text != [] {
      SpacesAreBlank(s, text[..|text| - 1]);
    }
  }

  lemma {:induction false} TrimShows(s: Style, text: Text)
    ensures Cells(s, TrimEnd(text)) <= Cells(s, text)
    ensures Blank(Cells(s, text)[|Cells(s, TrimEnd(text))|..])
    ensures Width(TrimEnd(text)) <= Width(text)
  {
    var r := TrimEnd(text);
    assert text == r + text[|r|..];
    Concat(s, r, text[|r|..]);
    SpacesAreBlank(After(s, r), text[|r|..]);
  }
}
