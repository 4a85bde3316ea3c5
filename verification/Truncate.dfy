/** Truncating text to a width: packages/tui/src/utils.ts. */
module Truncation {
  import opened Common
  import opened AnsiCodes
  import opened StyleRoundTrip
  import opened StyledText

  /** A tab is one cell, three columns wide. */
  predicate IsTab(item: Item) { item.Cell? && item.glyph == "\t" }

  predicate TabsMeasured(text: Text) { forall i | 0 <= i < |text| && IsTab(text[i]) :: text[i].width == 3 }

  /** isPrintableAscii, on text whose ASCII characters are one grapheme and one column each. */
  predicate IsPrintableAscii(text: Text) {
    forall i | 0 <= i < |text| ::
      text[i].Cell? && text[i].width == 1 && |text[i].glyph| == 1 && ' ' <= text[i].glyph[0] <= '~'
  }

  predicate HasEscapes(text: Text) { exists i | 0 <= i < |text| :: text[i].Code? || ESC in text[i].glyph }

  predicate HasTabs(text: Text) { exists i | 0 <= i < |text| :: IsTab(text[i]) }

  /** How much of a text is kept: up to the last cell with which it still fits. */
  function PrefixLength(text: Text, budget: int): (n: nat)
    ensures n <= |text|
  {
    if text == [] then 0
    else if text[|text| - 1].Cell? && Width(text) <= budget then |text|
    else PrefixLength(text[..|text| - 1], budget)
  }

  function Prefix(text: Text, budget: int): Text {
    text[..PrefixLength(text, budget)]
  }

  lemma {:induction false} LongerIsTooWide(text: Text, budget: nat, m: nat)
    requires m < |text| && text[m].Cell? && PrefixLength(text, budget) < |text|
    requires m + 1 < |text| ==> budget < Width(text[..|text| - 1][..m + 1])
    ensures budget < Width(text[..m + 1])
  {
    if m + 1 == |text| { assert text[..m + 1] == text; } else { assert text[..m + 1] == text[..|text| - 1][..m + 1]; }
  }

  /** The kept prefix fits and no longer one does. */
  lemma {:induction false} PrefixIsLongest(text: Text, budget: nat)
    ensures Width(Prefix(text, budget)) <= budget
    ensures forall m | PrefixLength(text, budget) <= m < |text| && text[m].Cell? :: budget < Width(text[..m + 1])
    ensures PrefixLength(text, budget) == 0 || text[PrefixLength(text, budget) - 1].Cell?
  {
    if text != [] {
      var init := text[..|text| - 1];
      PrefixIsLongest(init, budget);
      var n := PrefixLength(text, budget);
      if n == |text| {
        assert text[..n] == text;
      } else {
        assert text[..n] == init[..n];
        forall m | n <= m < |text| && text[m].Cell? ensures budget < Width(text[..m + 1]) {
          LongerIsTooWide(text, budget, m);
        }
      }
    }
  }

  function Padding(pad: bool, n: int): Text {
    if pad && n > 0 then Spaces(n) else []
  }

  function Finalized(prefix: Text, ellipsis: Text, maxWidth: int, pad: bool): Text {
    prefix + [Code(RESET)] + Closing(ellipsis)
    + Padding(pad, maxWidth - Width(prefix) - Width(ellipsis))
  }

  /** What truncation is to give: the text if it fits, else what fits of it beside the ellipsis. */
  function Truncated(text: Text, maxWidth: int, ellipsis: Text, pad: bool): Text {
    if maxWidth <= 0 then []
    else if Width(text) <= maxWidth then text + Padding(pad, maxWidth - Width(text))
    else if Width(ellipsis) < maxWidth then Finalized(Prefix(text, maxWidth - Width(ellipsis)), ellipsis, maxWidth, pad)
    else if Width(Prefix(ellipsis, maxWidth)) == 0 then Padding(pad, maxWidth)
    else Finalized([], Prefix(ellipsis, maxWidth), maxWidth, pad)
  }

  // ----- widths

  lemma {:induction false} SpacesWidth(n: nat)
    ensures Width(Spaces(n)) == n
  {
    if n > 0 { SpacesWidth(n - 1); }
  }

  lemma {:induction false} PaddingWidth(pad: bool, n: int)
    ensures Width(Padding(pad, n)) == if pad && n > 0 then n else 0
  {
    if pad && n > 0 { SpacesWidth(n); }
  }

  lemma {:induction false} WidthOf(a: Text, b: Text)
    ensures Width(a + b) == Width(a) + Width(b)
  {
    Concat(PLAIN, a, b);
  }

  function Closing(ellipsis: Text): Text { if ellipsis != [] then ellipsis + [Code(RESET)] else [] }

  lemma {:induction false} ResetWidth(text: Text)
    ensures Width(text + [Code(RESET)]) == Width(text)
  {
    AppendItem(PLAIN, text, Code(RESET));
  }

  lemma {:induction false} ClosingWidth(ellipsis: Text)
    ensures Width(Closing(ellipsis)) == Width(ellipsis)
  {
    ResetWidth(ellipsis);
  }

  lemma {:induction false} FinalizedWidth(prefix: Text, ellipsis: Text, maxWidth: int, pad: bool)
    requires Width(prefix) + Width(ellipsis) <= maxWidth
    ensures Width(Finalized(prefix, ellipsis, maxWidth, pad))
            == if pad then maxWidth else Width(prefix) + Width(ellipsis)
  {
    var room := maxWidth - Width(prefix) - Width(ellipsis);
    ResetWidth(prefix);
    ClosingWidth(ellipsis);
    WidthOf(prefix + [Code(RESET)], Closing(ellipsis));
    WidthOf(prefix + [Code(RESET)] + Closing(ellipsis), Padding(pad, room));
    PaddingWidth(pad, room);
  }

  /** The result never exceeds the width, fills it when padded, and is the text itself exactly when that fits. */
  lemma {:induction false} TruncatedWidth(text: Text, maxWidth: int, ellipsis: Text, pad: bool)
    requires 0 < maxWidth
    ensures var r := Truncated(text, maxWidth, ellipsis, pad);
            && Width(r) <= maxWidth && (pad ==> Width(r) == maxWidth)
            && (!pad ==> (r == text <==> Width(text) <= maxWidth))
  {
    var r := Truncated(text, maxWidth, ellipsis, pad);
    if Width(text) <= maxWidth {
      PaddingWidth(pad, maxWidth - Width(text));
      WidthOf(text, Padding(pad, maxWidth - Width(text)));
      if !pad { assert text + [] == text; }
    } else if Width(ellipsis) < maxWidth {
      PrefixIsLongest(text, maxWidth - Width(ellipsis));
      FinalizedWidth(Prefix(text, maxWidth - Width(ellipsis)), ellipsis, maxWidth, pad);
    } else {
      PrefixIsLongest(ellipsis, maxWidth);
      PaddingWidth(pad, maxWidth);
      FinalizedWidth([], Prefix(ellipsis, maxWidth), maxWidth, pad);
    }
  }

  // ----- the loops

  lemma {:induction false} PrefixNext(text: Text, k: nat, budget: int)
    requires k < |text|
    ensures PrefixLength(text[..k + 1], budget)
         == if text[k].Cell? && Width(text[..k + 1]) <= budget then k + 1 else PrefixLength(text[..k], budget)
    ensures Width(text[..k + 1]) == Width(text[..k]) + if text[k].Cell? then text[k].width else 0
    ensures text[..k + 1] == text[..k] + [text[k]]
  {
    assert text[..k + 1][..k] == text[..k];
  }

  /** Once a prefix is too wide nothing after it is kept. */
  lemma {:induction false} PrefixStops(text: Text, k: nat, budget: int)
    requires k <= |text| && budget < Width(text[..k])
    ensures PrefixLength(text, budget) == PrefixLength(text[..k], budget) <= k && budget < Width(text)
    decreases |text|
  {
    if k == |text| {
      assert text[..k] == text;
    } else {
      var init := text[..|text| - 1];
      assert init[..k] == text[..k];
      PrefixStops(init, k, budget);
    }
  }

  /** The kept prefix, the sequences after it, and whether everything so far was kept. */
  ghost predicate Keeping(text: Text, i: nat, result: Text, pending: Text, keptWidth: int, keep: bool, budget: int) {
    && i <= |text| && result == text[..PrefixLength(text[..i], budget)] && keptWidth == Width(result)
    && (keep ==> result + pending == text[..i] && Width(text[..i]) == keptWidth)
    && (!keep ==> budget < Width(text[..i]))
  }

  lemma {:induction false} KeepCode(text: Text, i: nat, result: Text, pending: Text, keptWidth: int, keep: bool,
                                    budget: int)
    requires Keeping(text, i, result, pending, keptWidth, keep, budget) && i < |text| && text[i].Code?
    ensures Keeping(text, i + 1, result, pending + [text[i]], keptWidth, keep, budget)
  {
    PrefixNext(text, i, budget);
    assert result + (pending + [text[i]]) == result + pending + [text[i]];
  }

  lemma {:induction false} KeepCell(text: Text, i: nat, result: Text, pending: Text, keptWidth: int, keep: bool,
                                    budget: int)
    requires Keeping(text, i, result, pending, keptWidth, keep, budget) && i < |text| && text[i].Cell?
    ensures if keep && keptWidth + text[i].width <= budget
            then Keeping(text, i + 1, result + pending + [text[i]], [], keptWidth + text[i].width, true, budget)
            else Keeping(text, i + 1, result, [], keptWidth, false, budget)
  {
    PrefixNext(text, i, budget);
    if keep && keptWidth + text[i].width <= budget {
      assert result + pending + [text[i]] == text[..i + 1];
      assert text[..i + 1] + [] == text[..i + 1];
    }
  }

  /** Where the loop stands: what is kept, what is held back, and the columns seen. */
  datatype Keep = Keep(result: Text, pending: Text, keptWidth: int, contiguous: bool, visible: int)

  ghost predicate Kept(text: Text, i: nat, k: Keep, budget: int) {
    Keeping(text, i, k.result, k.pending, k.keptWidth, k.contiguous, budget) && k.visible == Width(text[..i])
  }

  method KeepItem(text: Text, i: nat, k: Keep, targetWidth: int) returns (k': Keep)
    requires i < |text| && TabsMeasured(text) && Kept(text, i, k, targetWidth)
    ensures Kept(text, i + 1, k', targetWidth)
    ensures text[i].Code? ==> k'.visible == k.visible
  {
    var item := text[i];
    PrefixNext(text, i, targetWidth);
    if item.Code? {
      KeepCode(text, i, k.result, k.pending, k.keptWidth, k.contiguous, targetWidth);
      k' := k.(pending := k.pending + [item]);
    } else {
      KeepCell(text, i, k.result, k.pending, k.keptWidth, k.contiguous, targetWidth);
      var width := if IsTab(item) then 3 else item.width;
      if k.contiguous && k.keptWidth + width <= targetWidth {
        k' := Keep(k.result + k.pending + [item], [], k.keptWidth + width, true, k.visible + width);
      } else {
        k' := k.(contiguous := false, pending := [], visible := k.visible + width);
      }
    }
  }

  lemma {:induction false} Overflow(text: Text, i: nat, k: Keep, targetWidth: int, maxWidth: int)
    requires Kept(text, i, k, targetWidth) && targetWidth <= maxWidth < k.visible
    ensures k.result == Prefix(text, targetWidth) && maxWidth < Width(text)
  {
    PrefixStops(text, i, maxWidth);
    PrefixStops(text, i, targetWidth);
  }

  /** The loop over text with escape sequences or tabs. */
  method KeepStyled(text: Text, targetWidth: int, maxWidth: int) returns (k: Keep, overflowed: bool)
    requires TabsMeasured(text) && targetWidth <= maxWidth && 0 <= maxWidth
    ensures overflowed <==> maxWidth < Width(text)
    ensures overflowed ==> k.result == Prefix(text, targetWidth) && k.keptWidth == Width(k.result)
    ensures !overflowed ==> k.visible == Width(text)
  {
    var i := 0;
    k := Keep([], [], 0, true, 0);
    while i < |text|
      invariant 0 <= i <= |text| && Kept(text, i, k, targetWidth) && k.visible <= maxWidth
    {
      k := KeepItem(text, i, k, targetWidth);
      i := i + 1;
      if k.visible > maxWidth {
        Overflow(text, i, k, targetWidth, maxWidth);
        return k, true;
      }
    }
    assert text[..|text|] == text;
    return k, false;
  }

  predicate NoCodes(text: Text) { forall i | 0 <= i < |text| :: text[i].Cell? }

  /** One turn of the loop over text without any escape sequence. */
  method KeepPlainCell(text: Text, i: nat, k: Keep, targetWidth: int) returns (k': Keep)
    requires i < |text| && text[i].Cell? && Kept(text, i, k, targetWidth) && k.pending == []
    ensures Kept(text, i + 1, k', targetWidth) && k'.pending == []
  {
    var width := text[i].width;
    PrefixNext(text, i, targetWidth);
    KeepCell(text, i, k.result, [], k.keptWidth, k.contiguous, targetWidth);
    assert k.result + [] == k.result;
    if k.contiguous && k.keptWidth + width <= targetWidth {
      k' := Keep(k.result + [text[i]], [], k.keptWidth + width, true, k.visible + width);
    } else {
      k' := k.(contiguous := false, visible := k.visible + width);
    }
  }

  /** The loop over text without any: nothing is ever held back. */
  method KeepPlain(text: Text, targetWidth: int, maxWidth: int) returns (k: Keep, overflowed: bool)
    requires NoCodes(text) && targetWidth <= maxWidth && 0 <= maxWidth
    ensures overflowed <==> maxWidth < Width(text)
    ensures overflowed ==> k.result == Prefix(text, targetWidth) && k.keptWidth == Width(k.result)
    ensures !overflowed ==> k.visible == Width(text)
  {
    var i := 0;
    k := Keep([], [], 0, true, 0);
    while i < |text|
      invariant 0 <= i <= |text| && Kept(text, i, k, targetWidth) && k.visible <= maxWidth && k.pending == []
    {
      k := KeepPlainCell(text, i, k, targetWidth);
      i := i + 1;
      if k.visible > maxWidth {
        Overflow(text, i, k, targetWidth, maxWidth);
        return k, true;
      }
    }
    assert text[..|text|] == text;
    return k, false;
  }

  lemma {:induction false} AsciiWidth(text: Text)
    requires IsPrintableAscii(text)
    ensures Width(text) == |text|
  {
    if text != [] { AsciiWidth(text[..|text| - 1]); }
  }

  /** The shortcut for printable ASCII keeps what the loop would. */
  lemma {:induction false} AsciiPrefix(text: Text, budget: nat)
    requires IsPrintableAscii(text)
    ensures PrefixLength(text, budget) == if |text| <= budget then |text| else budget
  {
    AsciiWidth(text);
    if text != [] { AsciiPrefix(text[..|text| - 1], budget); }
  }

  /** One turn of the loop over an ellipsis: the first cell that does not fit ends it. */
  method FragmentItem(text: Text, i: nat, prefix: Text, pendingAnsi: Text, width: nat, maxWidth: int)
    returns (prefix': Text, pendingAnsi': Text, width': nat, full: bool)
    requires i < |text| && TabsMeasured(text) && Keeping(text, i, prefix, pendingAnsi, width, true, maxWidth)
    ensures !full ==> Keeping(text, i + 1, prefix', pendingAnsi', width', true, maxWidth)
    ensures full ==> prefix' == Prefix(text, maxWidth) && width' == Width(prefix')
  {
    PrefixNext(text, i, maxWidth);
    if text[i].Code? {
      KeepCode(text, i, prefix, pendingAnsi, width, true, maxWidth);
      return prefix, pendingAnsi + [text[i]], width, false;
    }
    KeepCell(text, i, prefix, pendingAnsi, width, true, maxWidth);
    var w := if IsTab(text[i]) then 3 else text[i].width;
    if width + w > maxWidth {
      PrefixStops(text, i + 1, maxWidth);
      return prefix, pendingAnsi, width, true;
    }
    return prefix + pendingAnsi + [text[i]], [], width + w, false;
  }

  /** The shortcut of truncateFragmentToWidth. */
  method AsciiFragment(text: Text, maxWidth: int) returns (prefix: Text, width: int)
    requires IsPrintableAscii(text) && 0 < maxWidth
    ensures prefix == Prefix(text, maxWidth) && width == Width(prefix)
  {
    AsciiPrefix(text, maxWidth);
    prefix := text[..if |text| <= maxWidth then |text| else maxWidth];
    AsciiWidth(prefix);
    width := |prefix|;
  }

  /** truncateFragmentToWidth. */
  method TruncateFragment(text: Text, maxWidth: int) returns (prefix: Text, width: int)
    requires TabsMeasured(text)
    ensures maxWidth > 0 ==> prefix == Prefix(text, maxWidth) && width == Width(prefix)
    ensures maxWidth <= 0 ==> prefix == [] && width == 0
  {
    if maxWidth <= 0 || text == [] { return [], 0; }
    if IsPrintableAscii(text) {
      prefix, width := AsciiFragment(text, maxWidth);
      return;
    }
    var i, pendingAnsi: Text := 0, [];
    prefix, width := [], 0;
    while i < |text|
      invariant 0 <= i <= |text| && 0 <= width && Keeping(text, i, prefix, pendingAnsi, width, true, maxWidth)
    {
      var full;
      prefix, pendingAnsi, width, full := FragmentItem(text, i, prefix, pendingAnsi, width, maxWidth);
      if full { return; }
      i := i + 1;
    }
    assert text[..|text|] == text;
  }

  /** finalizeTruncatedResult. */
  method FinalizeTruncatedResult(prefix: Text, prefixWidth: int, ellipsis: Text, ellipsisWidth: int, maxWidth: int,
                                 pad: bool)
    returns (result: Text)
    requires prefixWidth == Width(prefix) && ellipsisWidth == Width(ellipsis)
    ensures result == Finalized(prefix, ellipsis, maxWidth, pad)
  {
    var visibleWidth := prefixWidth + ellipsisWidth;
    if ellipsis != [] {
      result := prefix + [Code(RESET)] + ellipsis + [Code(RESET)];
      assert result == prefix + [Code(RESET)] + (ellipsis + [Code(RESET)]);
    } else {
      result := prefix + [Code(RESET)];
      assert result + [] == result;
    }
    if pad {
      result := result + Spaces(if maxWidth > visibleWidth then maxWidth - visibleWidth else 0);
    } else {
      assert result + [] == result;
    }
  }

  /** A text that fits stays, filled up if that is asked for. */
  method KeepWhole(text: Text, width: int, maxWidth: int, ghost ellipsis: Text, pad: bool) returns (result: Text)
    requires 0 < maxWidth && width == Width(text) <= maxWidth
    ensures result == Truncated(text, maxWidth, ellipsis, pad)
  {
    assert text + [] == text;
    result := if pad then text + Spaces(maxWidth - width) else text;
  }

  /** Where the ellipsis leaves no room for text it is what is cut. */
  method TruncateToEllipsis(text: Text, maxWidth: int, ellipsis: Text, pad: bool) returns (result: Text)
    requires 0 < maxWidth <= Width(ellipsis) && TabsMeasured(ellipsis)
    ensures result == Truncated(text, maxWidth, ellipsis, pad)
  {
    var textWidth := Width(text);
    if textWidth <= maxWidth {
      result := KeepWhole(text, textWidth, maxWidth, ellipsis, pad);
      return;
    }
    var clipped, clippedWidth := TruncateFragment(ellipsis, maxWidth);
    if clippedWidth == 0 {
      return if pad then Spaces(maxWidth) else [];
    }
    result := FinalizeTruncatedResult([], 0, clipped, clippedWidth, maxWidth, pad);
  }

  /** What is kept of the text if it is too wide, by a shortcut or one of the two loops. */
  method KeepText(text: Text, targetWidth: nat, maxWidth: nat)
    returns (kept: Text, keptWidth: int, visible: int, overflowed: bool)
    requires TabsMeasured(text) && targetWidth <= maxWidth
    ensures overflowed <==> maxWidth < Width(text)
    ensures overflowed ==> kept == Prefix(text, targetWidth) && keptWidth == Width(kept)
    ensures !overflowed ==> visible == Width(text)
  {
    if IsPrintableAscii(text) {
      AsciiWidth(text);
      if |text| <= maxWidth { return [], 0, |text|, false; }
      AsciiPrefix(text, targetWidth);
      AsciiWidth(text[..targetWidth]);
      return text[..targetWidth], targetWidth, |text|, true;
    }
    var k;
    if !HasEscapes(text) && !HasTabs(text) {
      k, overflowed := KeepPlain(text, targetWidth, maxWidth);
    } else {
      k, overflowed := KeepStyled(text, targetWidth, maxWidth);
    }
    kept, keptWidth, visible := k.result, k.keptWidth, k.visible;
  }

  lemma {:induction false} TruncatedIsCut(text: Text, maxWidth: int, ellipsis: Text, pad: bool, kept: Text,
                                          targetWidth: int)
    requires 0 <= Width(ellipsis) < maxWidth < Width(text) && targetWidth == maxWidth - Width(ellipsis)
             && kept == Prefix(text, targetWidth)
    ensures Truncated(text, maxWidth, ellipsis, pad) == Finalized(kept, ellipsis, maxWidth, pad)
  {
  }

  /** truncateToWidth, with its shortcuts. */
  method TruncateToWidth(text: Text, maxWidth: int, ellipsis: Text, pad: bool) returns (result: Text)
    requires TabsMeasured(text) && TabsMeasured(ellipsis)
    ensures result == Truncated(text, maxWidth, ellipsis, pad)
  {
    if maxWidth <= 0 { return []; }
    if text == [] {
      result := KeepWhole([], 0, maxWidth, ellipsis, pad);
      return;
    }
    var ellipsisWidth := Width(ellipsis);
    if ellipsisWidth >= maxWidth {
      result := TruncateToEllipsis(text, maxWidth, ellipsis, pad);
      return;
    }
    var targetWidth := maxWidth - ellipsisWidth;
    var kept, keptWidth, visible, overflowed := KeepText(text, targetWidth, maxWidth);
    if !overflowed {
      result := KeepWhole(text, visible, maxWidth, ellipsis, pad);
      return;
    }
    TruncatedIsCut(text, maxWidth, ellipsis, pad, kept, targetWidth);
    result := FinalizeTruncatedResult(kept, keptWidth, ellipsis, ellipsisWidth, maxWidth, pad);
  }

  // ----- what the reader sees

  lemma {:induction false} SpacesAreSpaces(n: nat)
    ensures AllSpaces(Spaces(n))
  {
    if n > 0 { SpacesAreSpaces(n - 1); }
  }

  lemma {:induction false} ClosingShows(s: Style, ellipsis: Text, padding: Text)
    requires AllSpaces(padding)
    ensures var shown := Cells(s, Closing(ellipsis) + padding);
            Cells(s, ellipsis) <= shown && Blank(shown[|Cells(s, ellipsis)|..])
  {
    AppendItem(s, ellipsis, Code(RESET));
    assert Cells(s, ellipsis) + [] == Cells(s, ellipsis);
    Concat(s, Closing(ellipsis), padding);
    SpacesAreBlank(After(s, Closing(ellipsis)), padding);
  }

  /** The kept cells keep their styles; after them the reset ends every attribute and colour, but no hyperlink. */
  lemma {:induction false} FinalizedShows(prefix: Text, closing: Text)
    ensures Cells(PLAIN, prefix + [Code(RESET)] + closing)
            == Cells(PLAIN, prefix) + Cells(ResetSgr(After(PLAIN, prefix)), closing)
  {
    AppendItem(PLAIN, prefix, Code(RESET));
    ResetReads(After(PLAIN, prefix));
    assert Cells(PLAIN, prefix) + [] == Cells(PLAIN, prefix);
    Concat(PLAIN, prefix + [Code(RESET)], closing);
  }

  lemma {:induction false} PrefixShows(text: Text, n: nat)
    requires n <= |text|
    ensures Cells(PLAIN, text[..n]) <= Cells(PLAIN, text)
  {
    assert text == text[..n] + text[n..];
    Concat(PLAIN, text[..n], text[n..]);
  }

  lemma {:induction false} PaddingBlank(pad: bool, n: int)
    ensures AllSpaces(Padding(pad, n))
  {
    if pad && n > 0 { SpacesAreSpaces(n); }
  }

  lemma {:induction false} ClosedShows(prefix: Text, ellipsis: Text, padding: Text) returns (rest: seq<Styled>)
    requires AllSpaces(padding)
    ensures var shown := Cells(ResetSgr(After(PLAIN, prefix)), ellipsis);
            && Cells(PLAIN, prefix + [Code(RESET)] + Closing(ellipsis) + padding) == Cells(PLAIN, prefix) + rest
            && shown <= rest && Blank(rest[|shown|..])
  {
    var style := ResetSgr(After(PLAIN, prefix));
    Assoc(prefix + [Code(RESET)], Closing(ellipsis), padding);
    FinalizedShows(prefix, Closing(ellipsis) + padding);
    ClosingShows(style, ellipsis, padding);
    rest := Cells(style, Closing(ellipsis) + padding);
  }

  lemma {:induction false} FinalizedTextShows(prefix: Text, ellipsis: Text, maxWidth: int, pad: bool, full: Text)
    returns (rest: seq<Styled>)
    requires full == Finalized(prefix, ellipsis, maxWidth, pad)
    ensures var shown := Cells(ResetSgr(After(PLAIN, prefix)), ellipsis);
            && Cells(PLAIN, full) == Cells(PLAIN, prefix) + rest
            && shown <= rest && Blank(rest[|shown|..])
  {
    var room := maxWidth - Width(prefix) - Width(ellipsis);
    PaddingBlank(pad, room);
    rest := ClosedShows(prefix, ellipsis, Padding(pad, room));
  }

  /** A text that does not fit shows its first cells as they are, then the ellipsis, then blanks only. */
  lemma {:induction false} TruncatedShows(text: Text, maxWidth: int, ellipsis: Text, pad: bool)
    returns (rest: seq<Styled>)
    requires Width(ellipsis) < maxWidth < Width(text)
    ensures var prefix := Prefix(text, maxWidth - Width(ellipsis));
            var shown := Cells(ResetSgr(After(PLAIN, prefix)), ellipsis);
            && Cells(PLAIN, prefix) <= Cells(PLAIN, text)
            && Cells(PLAIN, Truncated(text, maxWidth, ellipsis, pad)) == Cells(PLAIN, prefix) + rest
            && shown <= rest && Blank(rest[|shown|..])
  {
    var budget := maxWidth - Width(ellipsis);
    var prefix := Prefix(text, budget);
    TruncatedIsCut(text, maxWidth, ellipsis, pad, prefix, budget);
    PrefixShows(text, PrefixLength(text, budget));
    rest := FinalizedTextShows(prefix, ellipsis, maxWidth, pad, Truncated(text, maxWidth, ellipsis, pad));
  }
}
