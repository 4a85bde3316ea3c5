/** Word wrapping of packages/tui/src/utils.ts: every line is read from a reset style and still looks the same. */
module Wrapping {
  import opened Common
  import opened AnsiCodes
  import opened StyleRoundTrip
  import opened Tracker
  import opened StyledText

  // ----- tokens

  predicate EndsInCell(text: Text) { text != [] && text[|text| - 1].Cell? }

  predicate EndsInSpace(text: Text) { text != [] && IsSpace(text[|text| - 1]) }

  datatype Kind = NoKind | Space | Word | Cjk

  function KindOf(item: Item): Kind {
    if item.Code? then NoKind else if IsSpace(item) then Space else if item.cjk then Cjk else Word
  }

  ghost predicate AllOf(token: Text, kind: Kind) {
    forall i | 0 <= i < |token| && token[i].Cell? :: KindOf(token[i]) == kind
  }

  ghost predicate OnlyCell(token: Text, k: int) { forall i | 0 <= i < |token| && token[i].Cell? :: i == k }

  /**
   * The cells of a token are spaces, or they are parts of a word, or there is but one and it is a wide CJK character.
   */
  ghost predicate OneKind(token: Text) {
    || AllOf(token, Space) || AllOf(token, Word)
    || exists k | 0 <= k < |token| :: KindOf(token[k]) == Cjk && OnlyCell(token, k)
  }

  lemma {:induction false} OneKindMoreCodes(token: Text, codes: Text)
    requires OneKind(token) && forall k | 0 <= k < |codes| :: codes[k].Code?
    ensures OneKind(token + codes)
  {
    var all := token + codes;
    if k :| 0 <= k < |token| && KindOf(token[k]) == Cjk && OnlyCell(token, k) {
      assert KindOf(all[k]) == Cjk && OnlyCell(all, k);
    } else if AllOf(token, Space) {
      assert AllOf(all, Space);
    } else {
      assert AllOf(all, Word);
    }
  }

  lemma {:induction false} CjkAlone(codes: Text, cell: Item, token: Text)
    requires token == codes + [cell] && KindOf(cell) == Cjk && forall k | 0 <= k < |codes| :: codes[k].Code?
    ensures OneKind(token)
  {
    assert KindOf(token[|codes|]) == Cjk && OnlyCell(token, |codes|);
  }

  /**
   * Each token is of one kind; only the last may end in codes, and no token that ends in a space follows another one.
   */
  ghost predicate Tokenized(tokens: seq<Text>) {
    && (forall i | 0 <= i < |tokens| :: tokens[i] != [] && OneKind(tokens[i]))
    && (forall i | 0 <= i < |tokens| - 1 :: EndsInCell(tokens[i]))
    && (forall i, j | 0 <= i < j < |tokens| && j == i + 1 :: !(EndsInSpace(tokens[i]) && EndsInSpace(tokens[j])))
  }

  /** The scanner's state: whole tokens, and a current token that can follow them. */
  ghost predicate Scanned(tokens: seq<Text>, current: Text, kind: Kind) {
    && Tokenized(tokens)
    && (tokens != [] ==> EndsInCell(tokens[|tokens| - 1]))
    && (current == [] <==> kind == NoKind)
    && (current != [] ==> EndsInCell(current) && (kind == Space <==> EndsInSpace(current)))
    && (kind == NoKind || kind == Space || kind == Word) && AllOf(current, kind)
    && (kind != Word && tokens != [] ==> !EndsInSpace(tokens[|tokens| - 1]))
  }

  /** A token that may follow the last one. */
  ghost predicate Follows(tokens: seq<Text>, token: Text) {
    && token != [] && OneKind(token)
    && (tokens != [] ==> EndsInCell(tokens[|tokens| - 1]) && !(EndsInSpace(tokens[|tokens| - 1]) && EndsInSpace(token)))
  }

  lemma {:induction false} PushToken(tokens: seq<Text>, token: Text)
    requires Tokenized(tokens) && Follows(tokens, token)
    ensures Tokenized(tokens + [token]) && Flatten(tokens + [token]) == Flatten(tokens) + token
  {
    FlattenSnoc(tokens, token);
    TokenizedNext(tokens, token, tokens + [token]);
  }

  lemma {:induction false} TokenizedNext(tokens: seq<Text>, token: Text, more: seq<Text>)
    requires Tokenized(tokens) && Follows(tokens, token) && more == tokens + [token]
    ensures Tokenized(more)
  {
    forall i | 0 <= i < |more| ensures more[i] != [] && OneKind(more[i]) {
      if i < |tokens| { assert more[i] == tokens[i]; }
    }
    forall i | 0 <= i < |more| - 1 ensures EndsInCell(more[i]) {
      assert more[i] == tokens[i];
    }
    forall i, j | 0 <= i < j < |more| && j == i + 1 ensures !(EndsInSpace(more[i]) && EndsInSpace(more[j])) {
      assert more[i] == tokens[i] && (j < |tokens| ==> more[j] == tokens[j]);
    }
  }

  lemma {:induction false} AllOfAdded(current: Text, kind: Kind, codes: Text, item: Item, added: Text)
    requires (AllOf(current, kind) || current == []) && KindOf(item) == kind
             && (forall k | 0 <= k < |codes| :: codes[k].Code?)
    requires added == codes + [item]
    ensures AllOf(current + added, kind) && AllOf(added, kind)
  {
  }

  lemma {:induction false} ScannedToken(tokens: seq<Text>, current: Text, kind: Kind)
    requires Scanned(tokens, current, kind) && current != []
    ensures Tokenized(tokens + [current]) && Flatten(tokens + [current]) == Flatten(tokens) + current
  {
    LastIsOneKind(current, kind);
    PushToken(tokens, current);
  }

  /** A cell that is no CJK break goes on the current token, or starts a new one when the kind changes. */
  method PushCell(tokens: seq<Text>, current: Text, currentKind: Kind, pendingAnsi: Text, item: Item)
      returns (tokens': seq<Text>, current': Text, kind: Kind)
    requires Scanned(tokens, current, currentKind) && item.Cell? && KindOf(item) != Cjk
    requires forall k | 0 <= k < |pendingAnsi| :: pendingAnsi[k].Code?
    ensures Scanned(tokens', current', kind)
    ensures Flatten(tokens') + current' == Flatten(tokens) + current + pendingAnsi + [item]
  {
    kind := if IsSpace(item) then Space else Word;
    var added := pendingAnsi + [item];
    Regroup(Flatten(tokens), current, pendingAnsi, [item]);
    AllOfAdded(if currentKind == kind then current else [], kind, pendingAnsi, item, added);
    if current != [] && currentKind != kind {
      ScannedToken(tokens, current, currentKind);
      tokens', current' := tokens + [current], added;
      OtherKindScanned(tokens, current, currentKind, kind, added, tokens');
    } else {
      tokens', current' := tokens, current + added;
      Assoc(Flatten(tokens), current, added);
      SameKindScanned(tokens, current, currentKind, kind, added, current');
    }
  }

  lemma {:induction false} OtherKindScanned(tokens: seq<Text>, current: Text, currentKind: Kind, kind: Kind,
                                            added: Text, more: seq<Text>)
    requires Scanned(tokens, current, currentKind) && current != [] && currentKind != kind
             && (kind == Space || kind == Word)
    requires AllOf(added, kind) && EndsInCell(added) && more == tokens + [current] && Tokenized(more)
    ensures Scanned(more, added, kind)
  {
    assert more[|more| - 1] == current && KindOf(added[|added| - 1]) == kind
      && KindOf(current[|current| - 1]) == currentKind;
  }

  lemma {:induction false} SameKindScanned(tokens: seq<Text>, current: Text, currentKind: Kind, kind: Kind, added: Text,
                                           more: Text)
    requires Scanned(tokens, current, currentKind) && (current == [] || currentKind == kind)
             && (kind == Space || kind == Word)
    requires AllOf(more, kind) && EndsInCell(added) && more == current + added
    requires current == [] && kind == Space && tokens != [] ==> !EndsInSpace(tokens[|tokens| - 1])
    ensures Scanned(tokens, more, kind)
  {
    assert more[|more| - 1] == added[|added| - 1] && KindOf(more[|more| - 1]) == kind;
  }

  method PushCjk(tokens: seq<Text>, current: Text, currentKind: Kind, pendingAnsi: Text, item: Item)
      returns (tokens': seq<Text>)
    requires Scanned(tokens, current, currentKind) && KindOf(item) == Cjk
    requires forall k | 0 <= k < |pendingAnsi| :: pendingAnsi[k].Code?
    ensures Scanned(tokens', [], NoKind)
    ensures Flatten(tokens') == Flatten(tokens) + current + pendingAnsi + [item]
  {
    var token := pendingAnsi + [item];
    Regroup(Flatten(tokens), current, pendingAnsi, [item]);
    tokens' := tokens;
    if current != [] {
      ScannedToken(tokens, current, currentKind);
      tokens' := tokens + [current];
    } else {
      Assoc(Flatten(tokens), [], []);
    }
    CjkAlone(pendingAnsi, item, token);
    PushToken(tokens', token);
    tokens' := tokens' + [token];
  }

  /** One turn of the scan: sequences are held back for the next cell. */
  method ScanItem(tokens: seq<Text>, current: Text, currentKind: Kind, pendingAnsi: Text, item: Item)
    returns (tokens': seq<Text>, current': Text, kind: Kind, pendingAnsi': Text)
    requires Scanned(tokens, current, currentKind) && forall k | 0 <= k < |pendingAnsi| :: pendingAnsi[k].Code?
    ensures Scanned(tokens', current', kind) && forall k | 0 <= k < |pendingAnsi'| :: pendingAnsi'[k].Code?
    ensures Flatten(tokens') + current' + pendingAnsi' == Flatten(tokens) + current + pendingAnsi + [item]
  {
    if item.Code? {
      Assoc(Flatten(tokens) + current, pendingAnsi, [item]);
      return tokens, current, currentKind, pendingAnsi + [item];
    }
    pendingAnsi' := [];
    if !IsSpace(item) && item.cjk {
      tokens' := PushCjk(tokens, current, currentKind, pendingAnsi, item);
      current', kind := [], NoKind;
      Assoc(Flatten(tokens'), [], []);
    } else {
      tokens', current', kind := PushCell(tokens, current, currentKind, pendingAnsi, item);
      Assoc(Flatten(tokens') + current', [], []);
    }
  }

  method SplitIntoTokens(text: Text) returns (tokens: seq<Text>)
    ensures Flatten(tokens) == text && Tokenized(tokens)
  {
    tokens := [];
    var current: Text, pendingAnsi: Text, currentKind := [], [], NoKind;
    for i := 0 to |text|
      invariant Flatten(tokens) + current + pendingAnsi == text[..i]
      invariant Scanned(tokens, current, currentKind)
      invariant forall k | 0 <= k < |pendingAnsi| :: pendingAnsi[k].Code?
    {
      TakeNext(text, i);
      tokens, current, currentKind, pendingAnsi := ScanItem(tokens, current, currentKind, pendingAnsi, text[i]);
    }
    assert text[..|text|] == text;
    tokens := FinishTokens(tokens, current, currentKind, pendingAnsi);
  }

  lemma {:induction false} CodesBehind(tokens: seq<Text>, codes: Text)
    requires Tokenized(tokens) && tokens != [] && codes != [] && forall k | 0 <= k < |codes| :: codes[k].Code?
    ensures var n := |tokens| - 1;
            Tokenized(tokens[n := tokens[n] + codes])
              && Flatten(tokens[n := tokens[n] + codes]) == Flatten(tokens) + [] + codes
  {
    var n := |tokens| - 1;
    var more := tokens[n := tokens[n] + codes];
    OneKindMoreCodes(tokens[n], codes);
    assert more[..n] == tokens[..n];
    assert Flatten(tokens) + [] == Flatten(tokens);
    Assoc(Flatten(tokens[..n]), tokens[n], codes);
  }

  /** Codes after the last cell stay with the last token. */
  method FinishTokens(scanned: seq<Text>, last: Text, ghost kind: Kind, pendingAnsi: Text) returns (tokens: seq<Text>)
    requires Scanned(scanned, last, kind)
    requires forall k | 0 <= k < |pendingAnsi| :: pendingAnsi[k].Code?
    ensures Flatten(tokens) == Flatten(scanned) + last + pendingAnsi && Tokenized(tokens)
  {
    tokens := scanned;
    if last == [] && pendingAnsi != [] && |scanned| > 0 {
      var n := |tokens| - 1;
      CodesBehind(tokens, pendingAnsi);
      tokens := tokens[n := tokens[n] + pendingAnsi];
      return;
    }
    var current := last + pendingAnsi;
    Assoc(Flatten(scanned), last, pendingAnsi);
    if current != [] {
      LastFollows(scanned, last, kind, pendingAnsi, current);
      PushToken(tokens, current);
      tokens := tokens + [current];
    }
  }

  /** The last token with the codes behind it, or the codes alone. */
  lemma {:induction false} LastFollows(scanned: seq<Text>, last: Text, kind: Kind, codes: Text, current: Text)
    requires Scanned(scanned, last, kind) && (forall k | 0 <= k < |codes| :: codes[k].Code?)
    requires current == last + codes && current != [] && !(last == [] && codes != [] && |scanned| > 0)
    ensures Follows(scanned, current)
  {
    LastIsOneKind(last, kind);
    OneKindMoreCodes(last, codes);
    if codes == [] { assert current == last; } else { assert current[|current| - 1] == codes[|codes| - 1]; }
  }

  lemma {:induction false} LastIsOneKind(last: Text, kind: Kind)
    requires AllOf(last, kind) && (kind == NoKind || kind == Space || kind == Word) && (last == [] <==> kind == NoKind)
    ensures OneKind(last)
  {
    if last == [] { assert AllOf(last, Word); }
  }

  // ----- what the output has to say

  /** Every cell fits a line on its own. */
  ghost predicate FitsAlone(text: Text, width: int) {
    && 1 <= width
    && forall i | 0 <= i < |text| && text[i].Cell? :: 1 <= text[i].width <= width
  }

  function LineCells(lines: seq<Text>): (r: seq<seq<Styled>>)
    ensures |r| == |lines|
    ensures forall i | 0 <= i < |lines| :: r[i] == Cells(PLAIN, lines[i])
  {
    if lines == [] then [] else LineCells(lines[..|lines| - 1]) + [Cells(PLAIN, lines[|lines| - 1])]
  }

  lemma {:induction false} LineCellsSnoc(lines: seq<Text>, line: Text)
    ensures LineCells(lines + [line]) == LineCells(lines) + [Cells(PLAIN, line)]
  {
  }

  predicate Placed(cells: seq<Styled>, front: seq<Styled>, piece: seq<Styled>, gap: seq<Styled>) {
    cells == front + piece + gap && Blank(gap)
  }

  /** The pieces are contiguous stretches of `cells`, in order, and nothing but spaces lies between them. */
  ghost predicate Pieces(cells: seq<Styled>, pieces: seq<seq<Styled>>)
    decreases |pieces|
  {
    if pieces == [] then Blank(cells)
    else exists front, gap {:trigger Placed(cells, front, pieces[|pieces| - 1], gap)} ::
        Placed(cells, front, pieces[|pieces| - 1], gap) && Pieces(front, pieces[..|pieces| - 1])
  }

  lemma {:induction false} Regroup<T>(a: seq<T>, b: seq<T>, c: seq<T>, d: seq<T>)
    ensures a + b + c + d == a + b + (c + d)
    ensures a + (b + c + d) == a + b + c + d
    ensures a + (b + c) + d == a + b + (c + d)
  {
  }

  lemma {:induction false} PlacedGap(cells: seq<Styled>, front: seq<Styled>, piece: seq<Styled>, g: seq<Styled>,
                                     gap: seq<Styled>)
    requires Placed(cells, front, piece, g) && Blank(gap)
    ensures Placed(cells + gap, front, piece, g + gap)
  {
    Regroup(front, piece, g, gap);
  }

  lemma {:induction false} PlacedAfter(a: seq<Styled>, b: seq<Styled>, front: seq<Styled>, piece: seq<Styled>,
                                       gap: seq<Styled>)
    requires Placed(b, front, piece, gap)
    ensures Placed(a + b, a + front, piece, gap)
  {
    Regroup(a, front, piece, gap);
  }

  lemma {:induction false} PlacedTrim(cells: seq<Styled>, front: seq<Styled>, piece: seq<Styled>, gap: seq<Styled>,
                                      cut: seq<Styled>)
    requires Placed(cells, front, piece, gap) && cut <= piece && Blank(piece[|cut|..])
    ensures Placed(cells, front, cut, piece[|cut|..] + gap)
  {
    assert piece == cut + piece[|cut|..];
    Regroup(front, cut, piece[|cut|..], gap);
  }

  lemma {:induction false} PiecesSnoc(cells: seq<Styled>, front: seq<Styled>, gap: seq<Styled>,
                                      pieces: seq<seq<Styled>>, last: seq<Styled>, more: seq<seq<Styled>>)
    requires Pieces(front, pieces) && Placed(cells, front, last, gap) && more == pieces + [last]
    ensures Pieces(cells, more)
  {
    assert more[..|more| - 1] == pieces && more[|more| - 1] == last;
  }

  lemma {:induction false} PiecesGap(cells: seq<Styled>, pieces: seq<seq<Styled>>, gap: seq<Styled>)
    requires Pieces(cells, pieces) && Blank(gap)
    ensures Pieces(cells + gap, pieces)
  {
    if pieces != [] {
      var last := pieces[|pieces| - 1];
      var front, g :| Placed(cells, front, last, g) && Pieces(front, pieces[..|pieces| - 1]);
      PlacedGap(cells, front, last, g, gap);
    }
  }

  lemma {:induction false} PiecesPush(cells: seq<Styled>, pieces: seq<seq<Styled>>, piece: seq<Styled>)
    requires Pieces(cells, pieces)
    ensures Pieces(cells + piece, pieces + [piece])
  {
    assert cells + piece + [] == cells + piece;
    PiecesSnoc(cells + piece, cells, [], pieces, piece, pieces + [piece]);
  }

  /** Shortening pieces by trailing spaces only widens the gaps. */
  lemma {:induction false} PiecesTrim(cells: seq<Styled>, pieces: seq<seq<Styled>>, trimmed: seq<seq<Styled>>)
    requires Pieces(cells, pieces) && |trimmed| == |pieces|
    requires forall i | 0 <= i < |pieces| :: trimmed[i] <= pieces[i] && Blank(pieces[i][|trimmed[i]|..])
    ensures Pieces(cells, trimmed)
    decreases |pieces|
  {
    if pieces != [] {
      var n := |pieces| - 1;
      var last, cut := pieces[n], trimmed[n];
      var front, gap :| Placed(cells, front, last, gap) && Pieces(front, pieces[..n]);
      PiecesTrim(front, pieces[..n], trimmed[..n]);
      PlacedTrim(cells, front, last, gap, cut);
    }
  }

  lemma {:induction false} PiecesConcat(a: seq<Styled>, pa: seq<seq<Styled>>, b: seq<Styled>, pb: seq<seq<Styled>>)
    requires Pieces(a, pa) && Pieces(b, pb)
    ensures Pieces(a + b, pa + pb)
    decreases |pb|
  {
    if pb == [] {
      PiecesGap(a, pa, b);
      assert pa + pb == pa;
    } else {
      var n := |pb| - 1;
      var last := pb[n];
      var front, gap :| Placed(b, front, last, gap) && Pieces(front, pb[..n]);
      PiecesConcat(a, pa, front, pb[..n]);
      PlacedAfter(a, b, front, last, gap);
      assert pb == pb[..n] + [last];
      assert pa + (pb[..n] + [last]) == pa + pb[..n] + [last];
      PiecesSnoc(a + b, a + front, gap, pa + pb[..n], last, pa + pb);
    }
  }

  /** No visible cell is lost, repeated, moved or restyled: the pieces' non-space cells are the text's. */
  lemma {:induction false} PiecesKeepInk(cells: seq<Styled>, pieces: seq<seq<Styled>>)
    requires Pieces(cells, pieces)
    ensures Ink(cells) == InkOf(pieces)
    decreases |pieces|
  {
    if pieces == [] {
      BlankHasNoInk(cells);
    } else {
      var n := |pieces| - 1;
      var last := pieces[n];
      var front, gap :| Placed(cells, front, last, gap) && Pieces(front, pieces[..n]);
      PiecesKeepInk(front, pieces[..n]);
      InkConcat(front + last, gap);
      InkConcat(front, last);
      BlankHasNoInk(gap);
    }
  }

  function Ink(cells: seq<Styled>): seq<Styled> {
    if cells == [] then []
    else Ink(cells[..|cells| - 1]) + if IsSpace(cells[|cells| - 1].cell) then [] else [cells[|cells| - 1]]
  }

  function InkOf(pieces: seq<seq<Styled>>): seq<Styled> {
    if pieces == [] then [] else InkOf(pieces[..|pieces| - 1]) + Ink(pieces[|pieces| - 1])
  }

  lemma {:induction false} InkConcat(a: seq<Styled>, b: seq<Styled>)
    ensures Ink(a + b) == Ink(a) + Ink(b)
  {
    if b == [] {
      assert a + b == a;
    } else {
      assert (a + b)[..|a + b| - 1] == a + b[..|b| - 1];
      InkConcat(a, b[..|b| - 1]);
    }
  }

  lemma {:induction false} BlankHasNoInk(cells: seq<Styled>)
    requires Blank(cells)
    ensures Ink(cells) == []
  {
    if cells != [] { BlankHasNoInk(cells[..|cells| - 1]); }
  }

  // ----- closed lines

  /** Nothing that would show on the rest of the row is left on at the end of the line. */
  ghost predicate EndsClosed(line: Text) {
    After(PLAIN, line) == Closed(After(PLAIN, line))
  }

  ghost predicate AllClosed(lines: seq<Text>) {
    forall i {:trigger EndsClosed(lines[i])} | 0 <= i < |lines| :: EndsClosed(lines[i])
  }

  /** Every line but the last ends closed. */
  ghost predicate ClosedButLast(lines: seq<Text>) {
    forall i {:trigger EndsClosed(lines[i])} | 0 <= i < |lines| - 1 :: EndsClosed(lines[i])
  }

  lemma {:induction false} ClosedSnoc(lines: seq<Text>, line: Text)
    requires AllClosed(lines) && EndsClosed(line)
    ensures AllClosed(lines + [line])
  {
    forall i | 0 <= i < |lines + [line]| ensures EndsClosed((lines + [line])[i]) {
      if i < |lines| { assert EndsClosed(lines[i]); }
    }
  }

  lemma {:induction false} ClosedBefore(lines: seq<Text>, line: Text)
    requires AllClosed(lines)
    ensures ClosedButLast(lines) && ClosedButLast(lines + [line])
  {
    forall i | 0 <= i < |lines + [line]| - 1 ensures EndsClosed((lines + [line])[i]) {
      assert EndsClosed(lines[i]);
    }
  }

  lemma {:induction false} EndClosed(s: Style, line: Text)
    requires Trackable(s) && After(PLAIN, line) == s
    ensures EndsClosed(line + LineEndItems(s))
  {
    LineEndItemsClose(s);
    Concat(PLAIN, line, LineEndItems(s));
    assert Closed(Closed(s)) == Closed(s);
  }

  lemma {:induction false} TrimKeepsStyle(s: Style, text: Text)
    ensures After(s, TrimEnd(text)) == After(s, text)
  {
    var r := TrimEnd(text);
    assert text == r + text[|r|..];
    Concat(s, r, text[|r|..]);
    SpacesAreBlank(After(s, r), text[|r|..]);
  }

  lemma {:induction false} TrimKeepsClosed(lines: seq<Text>)
    requires ClosedButLast(lines)
    ensures ClosedButLast(TrimLines(lines))
  {
    forall i | 0 <= i < |lines| - 1 ensures EndsClosed(TrimLines(lines)[i]) {
      assert EndsClosed(lines[i]);
      TrimKeepsStyle(PLAIN, lines[i]);
    }
  }

  // ----- breaking an overlong word

  function Joined(lines: seq<Text>): seq<Styled> {
    if lines == [] then [] else Joined(lines[..|lines| - 1]) + Cells(PLAIN, lines[|lines| - 1])
  }

  /** Lines pushed so far and the line under construction show exactly the part of the word read so far. */
  ghost predicate Breaking(s0: Style, read: Text, lines: seq<Text>, current: Text, s: Style) {
    && Trackable(s) && s == After(s0, read)
    && After(PLAIN, current) == s
    && Joined(lines) + Cells(PLAIN, current) == Cells(s0, read)
  }

  lemma {:induction false} BreakCode(s0: Style, read: Text, lines: seq<Text>, current: Text, s: Style, code: Item,
                                     next: Text)
    requires Breaking(s0, read, lines, current, s) && code.Code? && IsCode(code.text) && next == read + [code]
    ensures Breaking(s0, next, lines, current + [code], Processed(s, code.text))
    ensures Width(current + [code]) == Width(current) && Width(next) == Width(read)
  {
    ProcessedTrackable(s, code.text);
    assert next[..|read|] == read && (current + [code])[..|current|] == current;
    assert Cells(s0, read) + [] == Cells(s0, read) && Cells(PLAIN, current) + [] == Cells(PLAIN, current);
  }

  lemma {:induction false} BreakCell(s0: Style, read: Text, lines: seq<Text>, current: Text, s: Style, cell: Item)
    requires Breaking(s0, read, lines, current, s) && cell.Cell?
    ensures Breaking(s0, read + [cell], lines, current + [cell], s)
    ensures Width(current + [cell]) == Width(current) + cell.width && Width(read + [cell]) == Width(read) + cell.width
  {
    assert (read + [cell])[..|read|] == read && (current + [cell])[..|current|] == current;
    assert Joined(lines) + (Cells(PLAIN, current) + [Styled(cell, s)])
      == Joined(lines) + Cells(PLAIN, current) + [Styled(cell, s)];
  }

  /** Ending a line with the reset and starting the next with the active codes shows nothing more. */
  lemma {:induction false} LineEnd(s: Style, line: Text)
    requires Trackable(s)
    ensures Cells(PLAIN, line + LineEndItems(s)) == Cells(PLAIN, line) && Width(line + LineEndItems(s)) == Width(line)
    ensures Cells(PLAIN, ActiveItems(s)) == [] && Width(ActiveItems(s)) == 0 && After(PLAIN, ActiveItems(s)) == s
  {
    ActiveItemsRestore(s);
    CodesShowNothing(PLAIN, ActiveItems(s));
    LineEndItemsClose(s);
    CodesBehindLine(line, LineEndItems(s));
  }

  lemma {:induction false} CodesBehindLine(line: Text, codes: Text)
    requires AllCodes(codes)
    ensures Cells(PLAIN, line + codes) == Cells(PLAIN, line) && Width(line + codes) == Width(line)
  {
    Concat(PLAIN, line, codes);
    CodesShowNothing(After(PLAIN, line), codes);
    assert Cells(PLAIN, line) + [] == Cells(PLAIN, line);
  }

  lemma {:induction false} ResetsShowNothing(s: Style, text: Text)
    requires forall i | 0 <= i < |text| :: text[i].Code?
    ensures Cells(s, text) == [] && Width(text) == 0
  {
    if text != [] {
      ResetsShowNothing(s, text[..|text| - 1]);
    }
  }

  lemma {:induction false} BreakLine(s0: Style, read: Text, lines: seq<Text>, current: Text, s: Style, line: Text)
    requires Breaking(s0, read, lines, current, s) && AllClosed(lines) && line == current + LineEndItems(s)
    ensures Breaking(s0, read, lines + [line], ActiveItems(s), s) && AllClosed(lines + [line])
    ensures Width(line) == Width(current) && Width(ActiveItems(s)) == 0
  {
    LineEnd(s, current);
    EndClosed(s, current);
    ClosedSnoc(lines, line);
    var more := lines + [line];
    assert more[..|lines|] == lines;
    assert Joined(more) + [] == Joined(more);
  }

  /** With cells that fit a line each, every line fits and the current line has a cell once the word has. */
  ghost predicate BreakWidths(fits: bool, width: int, read: Text, lines: seq<Text>, current: Text, currentWidth: int) {
    && currentWidth == Width(current)
    && (lines != [] ==> current != [])
    && (fits ==>
          && currentWidth <= width
          && (forall k | 0 <= k < |lines| :: Width(lines[k]) <= width)
          && (0 < Width(read) ==> 0 < currentWidth))
  }

  lemma {:induction false} WidthsCode(fits: bool, width: int, read: Text, lines: seq<Text>, current: Text,
                                      currentWidth: int, code: Item, next: Text)
    requires BreakWidths(fits, width, read, lines, current, currentWidth)
    requires Width(current + [code]) == Width(current) && Width(next) == Width(read)
    ensures BreakWidths(fits, width, next, lines, current + [code], currentWidth)
  {
  }

  lemma {:induction false} WidthsCell(fits: bool, width: int, read: Text, lines: seq<Text>, current: Text,
                                      currentWidth: int, cell: Item)
    requires BreakWidths(fits, width, read, lines, current, currentWidth)
    requires cell.Cell? && (fits ==> 1 <= cell.width && currentWidth + cell.width <= width)
    requires Width(current + [cell]) == Width(current) + cell.width && Width(read + [cell]) == Width(read) + cell.width
    ensures BreakWidths(fits, width, read + [cell], lines, current + [cell], currentWidth + cell.width)
  {
  }

  lemma {:induction false} WidthsBreak(fits: bool, width: int, read: Text, lines: seq<Text>, current: Text,
                                       currentWidth: int, line: Text, opening: Text, cell: Item)
    requires BreakWidths(fits, width, read, lines, current, currentWidth)
    requires cell.Cell? && (fits ==> 1 <= cell.width <= width)
    requires Width(line) == Width(current) && Width(opening + [cell]) == cell.width
    ensures BreakWidths(fits, width, read + [cell], lines + [line], opening + [cell], cell.width)
  {
    if fits {
      forall k | 0 <= k < |lines + [line]|
        ensures Width((lines + [line])[k]) <= width
      {
        if k < |lines| { assert (lines + [line])[k] == lines[k]; }
      }
    }
  }

  lemma {:induction false} BreakToNext(s0: Style, read: Text, lines: seq<Text>, current: Text, currentWidth: int,
                                       seg: Item, width: int,
                                       s: Style, fits: bool, next: Text, line: Text, lines': seq<Text>, current': Text)
    requires Breaking(s0, read, lines, current, s) && BreakWidths(fits, width, read, lines, current, currentWidth)
    requires seg.Cell? && (fits ==> 1 <= seg.width <= width) && next == read + [seg] && AllClosed(lines)
    requires line == current + LineEndItems(s) && lines' == lines + [line] && current' == ActiveItems(s) + [seg]
    ensures Breaking(s0, next, lines', current', s) && AllClosed(lines')
    ensures BreakWidths(fits, width, next, lines', current', seg.width)
  {
    BreakLine(s0, read, lines, current, s, line);
    BreakCell(s0, read, lines', ActiveItems(s), s, seg);
    WidthsBreak(fits, width, read, lines, current, currentWidth, line, ActiveItems(s), seg);
  }

  method BreakBefore(ghost s0: Style, ghost read: Text, lines: seq<Text>, current: Text, currentWidth: int,
                     seg: Item, width: int, s: Style, ghost fits: bool, ghost next: Text)
      returns (lines': seq<Text>, current': Text, currentWidth': int)
    requires Breaking(s0, read, lines, current, s) && BreakWidths(fits, width, read, lines, current, currentWidth)
    requires seg.Cell? && (fits ==> 1 <= seg.width <= width) && next == read + [seg] && AllClosed(lines)
    ensures Breaking(s0, next, lines', current', s) && BreakWidths(fits, width, next, lines', current', currentWidth')
    ensures AllClosed(lines')
  {
    if currentWidth + seg.width > width {
      var line := current + LineEndItems(s);
      lines', current', currentWidth' := lines + [line], ActiveItems(s) + [seg], seg.width;
      BreakToNext(s0, read, lines, current, currentWidth, seg, width, s, fits, next, line, lines', current');
    } else {
      lines', current', currentWidth' := lines, current + [seg], currentWidth + seg.width;
      BreakCell(s0, read, lines, current, s, seg);
      WidthsCell(fits, width, read, lines, current, currentWidth, seg);
    }
  }

  /** breakLongWord: cuts a word into lines cell by cell; the last line is left for the caller to go on with. */
  method BreakLongWord(word: Text, width: int, tracker: AnsiCodeTracker) returns (lines: seq<Text>)
    requires WellFormed(word) && Trackable(tracker.Current())
    modifies tracker
    ensures lines != []
    ensures Breaking(old(tracker.Current()), word, lines[..|lines| - 1], lines[|lines| - 1], tracker.Current())
    ensures AllClosed(lines[..|lines| - 1])
    ensures FitsAlone(word, width) ==> forall i | 0 <= i < |lines| :: Width(lines[i]) <= width
    ensures FitsAlone(word, width) && 0 < Width(word) ==> 0 < Width(lines[|lines| - 1])
  {
    var broken, currentLine, currentWidth := BreakSegments(word, width, tracker);
    lines := CloseBreak(broken, currentLine);
  }

  lemma {:induction false} SegmentFits(word: Text, i: nat, width: int)
    requires WellFormed(word) && i < |word|
    ensures if word[i].Code? then IsCode(word[i].text) else FitsAlone(word, width) ==> 1 <= word[i].width <= width
  {
  }

  method BreakSegments(word: Text, width: int, tracker: AnsiCodeTracker)
      returns (lines: seq<Text>, currentLine: Text, currentWidth: int)
    requires WellFormed(word) && Trackable(tracker.Current())
    modifies tracker
    ensures Breaking(old(tracker.Current()), word, lines, currentLine, tracker.Current()) && AllClosed(lines)
    ensures BreakWidths(FitsAlone(word, width), width, word, lines, currentLine, currentWidth)
  {
    ghost var s0, fits := tracker.Current(), FitsAlone(word, width);
    lines, currentLine, currentWidth := [], ActiveItems(tracker.Current()), 0;
    LineEnd(s0, []);
    ghost var read: Text := [];
    for i := 0 to |word|
      invariant read == word[..i]
      invariant Breaking(s0, read, lines, currentLine, tracker.Current()) && AllClosed(lines)
      invariant BreakWidths(fits, width, read, lines, currentLine, currentWidth)
    {
      var seg := word[i];
      ghost var next := word[..i + 1];
      TakeNext(word, i);
      SegmentFits(word, i, width);
      lines, currentLine, currentWidth :=
        BreakSegment(s0, read, lines, currentLine, currentWidth, seg, width, tracker, fits, next);
      read := next;
    }
    assert word[..|word|] == word;
  }

  method BreakSegment(ghost s0: Style, ghost read: Text, lines: seq<Text>, current: Text, currentWidth: int,
                      seg: Item, width: int, tracker: AnsiCodeTracker, ghost fits: bool, ghost next: Text)
      returns (lines': seq<Text>, current': Text, currentWidth': int)
    requires Breaking(s0, read, lines, current, tracker.Current()) && next == read + [seg] && AllClosed(lines)
    requires BreakWidths(fits, width, read, lines, current, currentWidth)
    requires if seg.Code? then IsCode(seg.text) else fits ==> 1 <= seg.width <= width
    modifies tracker
    ensures Breaking(s0, next, lines', current', tracker.Current()) && AllClosed(lines')
    ensures BreakWidths(fits, width, next, lines', current', currentWidth')
  {
    if seg.Code? {
      BreakCode(s0, read, lines, current, tracker.Current(), seg, next);
      WidthsCode(fits, width, read, lines, current, currentWidth, seg, next);
      lines', current', currentWidth' := lines, current + [seg], currentWidth;
      tracker.Process(seg.text);
    } else {
      lines', current', currentWidth' :=
        BreakBefore(s0, read, lines, current, currentWidth, seg, width, tracker.Current(), fits, next);
    }
  }

  method CloseBreak(lines: seq<Text>, currentLine: Text) returns (closed: seq<Text>)
    requires lines != [] ==> currentLine != []
    ensures closed == lines + [currentLine]
    ensures closed[..|closed| - 1] == lines
  {
    closed := lines;
    if currentLine != [] {
      closed := closed + [currentLine];
    }
    closed := if |closed| > 0 then closed else [[]];
  }

  // ----- wrapping one line

  /** The wrapped lines and the line under construction show what was read, up to spaces at the line ends. */
  ghost predicate Progress(read: Text, wrapped: seq<Text>, current: Text, s: Style, done: seq<Styled>) {
    && Trackable(s) && s == After(PLAIN, read)
    && After(PLAIN, current) == s
    && done + Cells(PLAIN, current) == Cells(PLAIN, read)
    && Pieces(done, LineCells(wrapped))
  }

  lemma {:induction false} AddToken(read: Text, wrapped: seq<Text>, current: Text, s: Style, done: seq<Styled>,
                                    token: Text)
    requires Progress(read, wrapped, current, s, done) && WellFormed(token)
    ensures Progress(read + token, wrapped, current + token, After(s, token), done)
    ensures Width(current + token) == Width(current) + Width(token)
  {
    Concat(PLAIN, read, token);
    Concat(PLAIN, current, token);
    AfterTrackable(s, token);
    Assoc(done, Cells(PLAIN, current), Cells(s, token));
  }

  /** Pushing a line that shows the current one, spaces at its end aside, and starting afresh in the tracked style. */
  lemma {:induction false} PushLine(read: Text, wrapped: seq<Text>, current: Text, s: Style, done: seq<Styled>,
                                    line: Text)
    requires Progress(read, wrapped, current, s, done)
    requires Cells(PLAIN, line) <= Cells(PLAIN, current) && Blank(Cells(PLAIN, current)[|Cells(PLAIN, line)|..])
    ensures Progress(read, wrapped + [line], ActiveItems(s), s, done + Cells(PLAIN, current))
  {
    var shown, all := Cells(PLAIN, line), Cells(PLAIN, current);
    LineEnd(s, []);
    LineCellsSnoc(wrapped, line);
    PiecesPush(done, LineCells(wrapped), shown);
    PiecesGap(done + shown, LineCells(wrapped) + [shown], all[|shown|..]);
    assert all == shown + all[|shown|..];
    Assoc(done, shown, all[|shown|..]);
    Assoc(done + all, [], []);
  }

  lemma {:induction false} DropSpaces(read: Text, wrapped: seq<Text>, current: Text, s: Style, done: seq<Styled>,
                                      token: Text)
    requires Progress(read, wrapped, current, s, done) && Cells(PLAIN, current) == [] && AllSpaces(token)
    ensures Progress(read + token, wrapped, current, s, done + Cells(s, token))
    ensures After(s, token) == s
  {
    Concat(PLAIN, read, token);
    SpacesAreBlank(s, token);
    PiecesGap(done, LineCells(wrapped), Cells(s, token));
    assert done + [] == done;
    assert done + Cells(s, token) + [] == done + Cells(s, token);
  }

  lemma {:induction false} JoinedTake(lines: seq<Text>, i: nat)
    requires i < |lines|
    ensures Joined(lines[..i + 1]) == Joined(lines[..i]) + Cells(PLAIN, lines[i])
  {
    assert lines[..i + 1][..i] == lines[..i];
  }

  /** Pushing one line of a broken word. */
  lemma {:induction false} PushBroken(done: seq<Styled>, wrapped: seq<Text>, lines: seq<Text>, i: nat)
    requires i < |lines| && Pieces(done + Joined(lines[..i]), LineCells(wrapped))
    ensures Pieces(done + Joined(lines[..i + 1]), LineCells(wrapped + [lines[i]]))
  {
    JoinedTake(lines, i);
    PushPiece(done, Joined(lines[..i]), wrapped, lines[i], Cells(PLAIN, lines[i]));
  }

  lemma {:induction false} PushPiece(done: seq<Styled>, before: seq<Styled>, wrapped: seq<Text>, line: Text,
                                     shown: seq<Styled>)
    requires Pieces(done + before, LineCells(wrapped)) && shown == Cells(PLAIN, line)
    ensures Pieces(done + (before + shown), LineCells(wrapped + [line]))
  {
    PiecesPush(done + before, LineCells(wrapped), shown);
    LineCellsSnoc(wrapped, line);
    Assoc(done, before, shown);
  }

  /** Once trimmed every pushed line fits; a current line that is too wide is spaces only and will be trimmed away. */
  ghost predicate WrapWidths(fits: bool, width: int, wrapped: seq<Text>, current: Text, currentWidth: int, s: Style) {
    && currentWidth == Width(current)
    && (fits ==>
          && 1 <= width
          && (forall k | 0 <= k < |wrapped| :: Width(TrimEnd(wrapped[k])) <= width)
          && (currentWidth <= width || (AllSpaces(current) && LineEndItems(s) == [])))
  }

  /** Between tokens the line is empty of cells only at the very start or after dropped spaces. */
  ghost predicate FreshLine(fits: bool, tokens: seq<Text>, k: nat, current: Text, currentWidth: int, s: Style) {
    fits && currentWidth == 0 && k < |tokens| ==>
      (k == 0 && current == [] && s == PLAIN) || (0 < k <= |tokens| && EndsInSpace(tokens[k - 1]))
  }

  lemma {:induction false} TrimAll(text: Text)
    requires AllSpaces(text)
    ensures TrimEnd(text) == [] && Width(TrimEnd(text)) == 0
  {
  }

  /** The line a break pushes: trailing spaces trimmed, underline and hyperlink closed. */
  lemma {:induction false} BrokenLineShows(s: Style, current: Text)
    requires Trackable(s) && After(PLAIN, current) == s
    ensures var line := TrimEnd(current) + LineEndItems(s);
            && Cells(PLAIN, line) <= Cells(PLAIN, current)
            && Blank(Cells(PLAIN, current)[|Cells(PLAIN, line)|..])
            && Width(line) == Width(TrimEnd(current))
  {
    TrimShows(PLAIN, current);
    LineEnd(s, TrimEnd(current));
  }

  lemma {:induction false} TrimNarrows(text: Text)
    ensures Width(TrimEnd(text)) <= Width(text)
  {
    TrimShows(PLAIN, text);
  }

  lemma {:induction false} WidthsPush(fits: bool, width: int, wrapped: seq<Text>, current: Text, currentWidth: int,
                                      s: Style, line: Text)
    requires WrapWidths(fits, width, wrapped, current, currentWidth, s)
    requires fits ==> Width(TrimEnd(line)) <= width
    ensures fits ==> forall k | 0 <= k <= |wrapped| :: Width(TrimEnd((wrapped + [line])[k])) <= width
  {
    if fits {
      forall k | 0 <= k <= |wrapped|
        ensures Width(TrimEnd((wrapped + [line])[k])) <= width
      {
        if k < |wrapped| { assert (wrapped + [line])[k] == wrapped[k]; }
      }
    }
  }

  ghost predicate TrimmedFit(fits: bool, width: int, wrapped: seq<Text>) {
    fits ==> forall k | 0 <= k < |wrapped| :: Width(TrimEnd(wrapped[k])) <= width
  }

  /** Before an overlong token the current line is pushed as it is, untrimmed, unless nothing is on it. */
  method FlushLine(ghost read: Text, wrapped: seq<Text>, current: Text, ghost currentWidth: int, ghost width: int,
                   s: Style, ghost done: seq<Styled>, ghost fits: bool)
      returns (wrapped': seq<Text>, ghost base: Text, ghost done': seq<Styled>)
    requires Progress(read, wrapped, current, s, done)
    requires WrapWidths(fits, width, wrapped, current, currentWidth, s) && AllClosed(wrapped)
    ensures Progress(read, wrapped', base, s, done') && Cells(PLAIN, base) == []
    ensures TrimmedFit(fits, width, wrapped') && AllClosed(wrapped')
  {
    wrapped', base, done' := wrapped, current, done;
    if current != [] {
      var line := current + LineEndItems(s);
      EndClosed(s, current);
      ClosedSnoc(wrapped, line);
      LineEnd(s, current);
      PushLine(read, wrapped, current, s, done, line);
      if fits { LongLineFits(width, current, currentWidth, s, wrapped); }
      WidthsPush(fits, width, wrapped, current, currentWidth, s, line);
      wrapped', base, done' := wrapped + [line], ActiveItems(s), done + Cells(PLAIN, current);
    }
  }

  lemma {:induction false} PushedFits(fits: bool, width: int, wrapped: seq<Text>, line: Text)
    requires TrimmedFit(fits, width, wrapped) && (fits ==> Width(line) <= width) && AllClosed(wrapped)
             && EndsClosed(line)
    ensures TrimmedFit(fits, width, wrapped + [line]) && AllClosed(wrapped + [line])
  {
    TrimNarrows(line);
    ClosedSnoc(wrapped, line);
  }

  method PushBrokenLines(wrapped: seq<Text>, lines: seq<Text>, n: nat, ghost width: int, ghost done: seq<Styled>,
                         ghost fits: bool)
      returns (wrapped': seq<Text>)
    requires n <= |lines| && Pieces(done, LineCells(wrapped)) && TrimmedFit(fits, width, wrapped)
    requires fits ==> forall i | 0 <= i < |lines| :: Width(lines[i]) <= width
    requires AllClosed(wrapped) && AllClosed(lines[..n])
    ensures Pieces(done + Joined(lines[..n]), LineCells(wrapped')) && TrimmedFit(fits, width, wrapped')
    ensures AllClosed(wrapped')
  {
    wrapped' := wrapped;
    Assoc(done, [], []);
    for i := 0 to n
      invariant Pieces(done + Joined(lines[..i]), LineCells(wrapped')) && TrimmedFit(fits, width, wrapped')
      invariant AllClosed(wrapped')
    {
      PushBroken(done, wrapped', lines, i);
      assert EndsClosed(lines[..n][i]);
      PushedFits(fits, width, wrapped', lines[i]);
      wrapped' := wrapped' + [lines[i]];
    }
  }

  /** A token too wide for a line: the current line is pushed as it is and the token broken. */
  method WrapLongToken(ghost read: Text, wrapped: seq<Text>, current: Text, ghost currentWidth: int, token: Text,
                       width: int, tracker: AnsiCodeTracker, ghost done: seq<Styled>, ghost fits: bool)
      returns (wrapped': seq<Text>, current': Text, ghost done': seq<Styled>)
    requires Progress(read, wrapped, current, tracker.Current(), done) && WellFormed(token)
    requires WrapWidths(fits, width, wrapped, current, currentWidth, tracker.Current()) && AllClosed(wrapped)
    requires fits ==> FitsAlone(token, width)
    modifies tracker
    ensures Progress(read + token, wrapped', current', tracker.Current(), done')
    ensures TrimmedFit(fits, width, wrapped') && AllClosed(wrapped') && (fits ==> Width(current') <= width)
    ensures fits && 0 < Width(token) ==> 0 < Width(current')
  {
    ghost var s := tracker.Current();
    ghost var base;
    wrapped', base, done' := FlushLine(read, wrapped, current, currentWidth, width, tracker.Current(), done, fits);
    ghost var before, doneBefore := wrapped', done';
    var broken := BreakLongWord(token, width, tracker);
    var n := |broken| - 1;
    wrapped' := PushBrokenLines(wrapped', broken, n, width, done', fits);
    current' := broken[n];
    done' := doneBefore + Joined(broken[..n]);
    AddBroken(read, before, base, s, doneBefore, token, broken[..n], current', tracker.Current(), wrapped', done');
  }

  lemma {:induction false} LongLineFits(width: int, current: Text, currentWidth: int, s: Style, wrapped: seq<Text>)
    requires WrapWidths(true, width, wrapped, current, currentWidth, s)
    ensures Width(TrimEnd(current + LineEndItems(s))) <= width
  {
    var items := LineEndItems(s);
    if currentWidth <= width {
      TrimNarrows(current + items);
      LineEndIsNarrow(s, current, items);
    } else {
      assert current + items == current;
      TrimAll(current);
    }
  }

  lemma {:induction false} LineEndIsNarrow(s: Style, current: Text, items: Text)
    requires items == LineEndItems(s)
    ensures Width(current + items) == Width(current)
  {
    Concat(PLAIN, current, items);
    ResetsShowNothing(PLAIN, items);
  }

  lemma {:induction false} AddBroken(read: Text, wrapped: seq<Text>, current: Text, s: Style, done: seq<Styled>,
                                     token: Text, lines: seq<Text>, last: Text, s': Style, wrapped': seq<Text>,
                                         done': seq<Styled>)
    requires Progress(read, wrapped, current, s, done) && Cells(PLAIN, current) == []
    requires Breaking(s, token, lines, last, s')
    requires Pieces(done', LineCells(wrapped')) && done' == done + Joined(lines)
    ensures Progress(read + token, wrapped', last, s', done')
  {
    Concat(PLAIN, read, token);
    Assoc(done, Joined(lines), Cells(PLAIN, last));
    Assoc(done, [], []);
  }

  /**
   * A token that does not fit behind what is on the line: the line is pushed and, unless it is spaces, the token starts
   * a new one.
   */
  method StartNewLine(ghost read: Text, wrapped: seq<Text>, current: Text, ghost currentWidth: int, token: Text,
                      isWhitespace: bool, ghost width: int, s: Style, ghost done: seq<Styled>, ghost fits: bool)
      returns (wrapped': seq<Text>, current': Text, ghost done': seq<Styled>)
    requires Progress(read, wrapped, current, s, done) && WellFormed(token)
    requires WrapWidths(fits, width, wrapped, current, currentWidth, s) && AllClosed(wrapped)
    requires isWhitespace == AllSpaces(token)
    ensures Progress(read + token, wrapped', current', After(s, token), done')
    ensures TrimmedFit(fits, width, wrapped') && AllClosed(wrapped')
    ensures Width(current') == if isWhitespace then 0 else Width(token)
  {
    var lineToWrap := TrimEnd(current) + LineEndItems(s);
    TrimKeepsStyle(PLAIN, current);
    EndClosed(s, TrimEnd(current));
    ClosedSnoc(wrapped, lineToWrap);
    BrokenLineShows(s, current);
    PushLine(read, wrapped, current, s, done, lineToWrap);
    if fits { TrimmedLineFits(width, current, currentWidth, s, wrapped); }
    WidthsPush(fits, width, wrapped, current, currentWidth, s, lineToWrap);
    wrapped' := wrapped + [lineToWrap];
    ghost var pushed := done + Cells(PLAIN, current);
    LineEnd(s, []);
    if isWhitespace {
      current' := ActiveItems(s);
      DropSpaces(read, wrapped', current', s, pushed, token);
      done' := pushed + Cells(s, token);
    } else {
      current' := ActiveItems(s) + token;
      AddToken(read, wrapped', ActiveItems(s), s, pushed, token);
      done' := pushed;
    }
  }

  lemma {:induction false} TrimmedLineFits(width: int, current: Text, currentWidth: int, s: Style, wrapped: seq<Text>)
    requires WrapWidths(true, width, wrapped, current, currentWidth, s)
    requires Width(TrimEnd(current) + LineEndItems(s)) == Width(TrimEnd(current))
    ensures Width(TrimEnd(TrimEnd(current) + LineEndItems(s))) <= width
  {
    TrimNarrows(TrimEnd(current) + LineEndItems(s));
    LastLineFits(width, current, currentWidth, s, wrapped);
  }

  /** A token that fits, or overlong spaces at the start of a line, which the final trim removes. */
  lemma {:induction false} AddFits(fits: bool, width: int, wrapped: seq<Text>, current: Text, currentWidth: int,
                                   s: Style, token: Text)
    requires WrapWidths(fits, width, wrapped, current, currentWidth, s)
    requires Width(current + token) == Width(current) + Width(token)
    requires fits && currentWidth + Width(token) > width ==>
               current == [] && s == PLAIN && AllSpaces(token)
    ensures WrapWidths(fits, width, wrapped, current + token, currentWidth + Width(token), After(s, token))
  {
    if fits && currentWidth + Width(token) > width {
      SpacesAreBlank(s, token);
      assert current + token == token;
    }
  }

  /** One turn of the loop over the tokens. */
  method PlaceToken(ghost tokens: seq<Text>, ghost k: nat, ghost read: Text, wrapped: seq<Text>, current: Text,
                    currentWidth: int,
                    token: Text, width: int, tracker: AnsiCodeTracker, ghost done: seq<Styled>, ghost fits: bool)
      returns (wrapped': seq<Text>, current': Text, currentWidth': int, ghost done': seq<Styled>)
    requires Progress(read, wrapped, current, tracker.Current(), done) && WellFormed(token)
    requires WrapWidths(fits, width, wrapped, current, currentWidth, tracker.Current())
    requires Tokenized(tokens) && k < |tokens| && token == tokens[k]
    requires FreshLine(fits, tokens, k, current, currentWidth, tracker.Current()) && AllClosed(wrapped)
    requires fits ==> FitsAlone(token, width)
    modifies tracker
    ensures Progress(read + token, wrapped', current', tracker.Current(), done')
    ensures WrapWidths(fits, width, wrapped', current', currentWidth', tracker.Current())
    ensures FreshLine(fits, tokens, k + 1, current', currentWidth', tracker.Current()) && AllClosed(wrapped')
  {
    ghost var s := tracker.Current();
    var tokenWidth := Width(token);
    var isWhitespace := AllSpaces(token);
    TokenHasWidth(tokens, k, width);
    if tokenWidth > width && !isWhitespace {
      wrapped', current', done' :=
        WrapLongToken(read, wrapped, current, currentWidth, token, width, tracker, done, fits);
      currentWidth' := Width(current');
      return;
    }
    if currentWidth + tokenWidth > width && currentWidth > 0 {
      wrapped', current', done' :=
        StartNewLine(read, wrapped, current, currentWidth, token, isWhitespace, width, tracker.Current(), done, fits);
      currentWidth' := if isWhitespace then 0 else tokenWidth;
    } else {
      AddToken(read, wrapped, current, s, done, token);
      AddFits(fits, width, wrapped, current, currentWidth, s, token);
      wrapped', current', currentWidth', done' := wrapped, current + token, currentWidth + tokenWidth, done;
    }
    UpdateTracker(token, tracker);
  }

  lemma {:induction false} TokenHasWidth(tokens: seq<Text>, k: nat, width: int)
    requires Tokenized(tokens) && k < |tokens|
    ensures k + 1 < |tokens| && FitsAlone(tokens[k], width) ==> 0 < Width(tokens[k])
    ensures AllSpaces(tokens[k]) ==> EndsInSpace(tokens[k])
    ensures 0 < k && AllSpaces(tokens[k]) ==> !EndsInSpace(tokens[k - 1])
  {
  }

  /** updateTrackerFromText on segmented text. */
  method UpdateTracker(text: Text, tracker: AnsiCodeTracker)
    modifies tracker
    ensures tracker.Current() == After(old(tracker.Current()), text)
  {
    for i := 0 to |text|
      invariant tracker.Current() == After(old(tracker.Current()), text[..i])
    {
      assert text[..i + 1][..i] == text[..i];
      if text[i].Code? {
        tracker.Process(text[i].text);
      }
    }
    assert text[..|text|] == text;
  }

  lemma {:induction false} TokensAreParts(tokens: seq<Text>, text: Text, width: int)
    requires Flatten(tokens) == text && WellFormed(text)
    ensures forall k | 0 <= k < |tokens| ::
              WellFormed(tokens[k]) && (FitsAlone(text, width) ==> FitsAlone(tokens[k], width))
    decreases |tokens|
  {
    if tokens != [] {
      var n := |tokens| - 1;
      var front, last := Flatten(tokens[..n]), tokens[n];
      assert text == front + last;
      assert forall i | 0 <= i < |front| :: text[i] == front[i];
      assert forall i | 0 <= i < |last| :: last[i] == text[|front| + i];
      TokensAreParts(tokens[..n], front, width);
      forall k | 0 <= k < |tokens|
        ensures WellFormed(tokens[k]) && (FitsAlone(text, width) ==> FitsAlone(tokens[k], width))
      {
        if k < n { assert tokens[k] == tokens[..n][k]; }
      }
    }
  }

  function TrimLines(lines: seq<Text>): (r: seq<Text>)
    ensures |r| == |lines|
    ensures forall i | 0 <= i < |lines| :: r[i] == TrimEnd(lines[i])
  {
    seq(|lines|, i requires 0 <= i < |lines| => TrimEnd(lines[i]))
  }

  lemma {:induction false} TrimKeepsPieces(cells: seq<Styled>, lines: seq<Text>)
    requires Pieces(cells, LineCells(lines))
    ensures Pieces(cells, LineCells(TrimLines(lines)))
  {
    forall i | 0 <= i < |lines|
      ensures Cells(PLAIN, TrimEnd(lines[i])) <= Cells(PLAIN, lines[i])
      ensures Blank(Cells(PLAIN, lines[i])[|Cells(PLAIN, TrimEnd(lines[i]))|..])
    {
      TrimShows(PLAIN, lines[i]);
    }
    PiecesTrim(cells, LineCells(lines), LineCells(TrimLines(lines)));
  }

  lemma {:induction false} OneLine(line: Text)
    ensures Pieces(Cells(PLAIN, line), LineCells([line]))
  {
    PiecesPush([], [], Cells(PLAIN, line));
    LineCellsSnoc([], line);
    assert [] + Cells(PLAIN, line) == Cells(PLAIN, line);
  }

  lemma {:induction false} NothingRead(tokens: seq<Text>, fits: bool, width: int)
    requires fits ==> 1 <= width
    ensures Progress(Flatten(tokens[..0]), [], [], PLAIN, []) && WrapWidths(fits, width, [], [], 0, PLAIN)
    ensures FreshLine(fits, tokens, 0, [], 0, PLAIN) && AllClosed([])
  {
    assert tokens[..0] == [];
  }

  /** wrapSingleLine: greedy wrapping of one input line that starts in the reset style. */
  method WrapSingleLine(line: Text, width: int) returns (lines: seq<Text>)
    requires WellFormed(line)
    ensures lines != []
    ensures Pieces(Cells(PLAIN, line), LineCells(lines))
    ensures FitsAlone(line, width) ==> forall i | 0 <= i < |lines| :: Width(lines[i]) <= width
    ensures line == [] || Width(line) <= width ==> lines == [line]
    ensures ClosedButLast(lines)
  {
    OneLine(line);
    if line == [] || Width(line) <= width { return [line]; }
    var tracker := new AnsiCodeTracker();
    var tokens := SplitIntoTokens(line);
    TokensAreParts(tokens, line, width);
    ghost var fits, done: seq<Styled> := FitsAlone(line, width), [];
    var wrapped: seq<Text>, currentLine: Text, currentWidth := [], [], 0;
    NothingRead(tokens, fits, width);
    for k := 0 to |tokens|
      invariant Progress(Flatten(tokens[..k]), wrapped, currentLine, tracker.Current(), done)
      invariant WrapWidths(fits, width, wrapped, currentLine, currentWidth, tracker.Current())
      invariant FreshLine(fits, tokens, k, currentLine, currentWidth, tracker.Current()) && AllClosed(wrapped)
    {
      FlattenTake(tokens, k);
      wrapped, currentLine, currentWidth, done :=
        PlaceToken(tokens, k, Flatten(tokens[..k]), wrapped, currentLine, currentWidth, tokens[k], width, tracker, done,
                   fits);
    }
    assert tokens[..|tokens|] == tokens;
    lines := FinishLine(line, wrapped, currentLine, currentWidth, width, tracker.Current(), done, fits);
  }

  lemma {:induction false} LastLine(line: Text, wrapped: seq<Text>, current: Text, s: Style, done: seq<Styled>,
                                    lines: seq<Text>)
    requires Progress(line, wrapped, current, s, done) && AllClosed(wrapped)
    requires lines == if current != [] then wrapped + [current] else wrapped
    ensures Pieces(Cells(PLAIN, line), LineCells(lines)) && ClosedButLast(lines)
  {
    ClosedBefore(wrapped, current);
    if current != [] {
      PiecesPush(done, LineCells(wrapped), Cells(PLAIN, current));
      LineCellsSnoc(wrapped, current);
    } else {
      Assoc(done, [], []);
    }
  }

  /** The final trim; where no line was pushed there is one empty line. */
  lemma {:induction false} TrimmedShows(cells: seq<Styled>, lines: seq<Text>, trimmed: seq<Text>)
    requires Pieces(cells, LineCells(lines)) && ClosedButLast(lines)
    requires trimmed == if lines == [] then [[]] else TrimLines(lines)
    ensures Pieces(cells, LineCells(trimmed)) && ClosedButLast(trimmed)
  {
    if lines == [] {
      BlankIsOneEmptyLine(cells);
    } else {
      TrimKeepsPieces(cells, lines);
      TrimKeepsClosed(lines);
    }
  }

  lemma {:induction false} TrimmedFits(width: int, wrapped: seq<Text>, current: Text, currentWidth: int, s: Style,
                                       lines: seq<Text>)
    requires WrapWidths(true, width, wrapped, current, currentWidth, s)
    requires lines == if current != [] then wrapped + [current] else wrapped
    ensures forall i | 0 <= i < |lines| :: Width(TrimEnd(lines[i])) <= width
  {
    LastLineFits(width, current, currentWidth, s, wrapped);
    WidthsPush(true, width, wrapped, current, currentWidth, s, current);
  }

  lemma {:induction false} LastLineFits(width: int, current: Text, currentWidth: int, s: Style, wrapped: seq<Text>)
    requires WrapWidths(true, width, wrapped, current, currentWidth, s)
    ensures Width(TrimEnd(current)) <= width
  {
    TrimNarrows(current);
    if currentWidth > width { TrimAll(current); }
  }

  method FinishLine(ghost line: Text, wrapped: seq<Text>, current: Text, ghost currentWidth: int, ghost width: int,
                    ghost s: Style, ghost done: seq<Styled>, ghost fits: bool)
      returns (lines: seq<Text>)
    requires Progress(line, wrapped, current, s, done)
    requires WrapWidths(fits, width, wrapped, current, currentWidth, s) && AllClosed(wrapped)
    ensures lines != [] && ClosedButLast(lines)
    ensures Pieces(Cells(PLAIN, line), LineCells(lines))
    ensures fits ==> forall i | 0 <= i < |lines| :: Width(lines[i]) <= width
  {
    lines := wrapped;
    if current != [] {
      lines := lines + [current];
    }
    LastLine(line, wrapped, current, s, done, lines);
    if fits { TrimmedFits(width, wrapped, current, currentWidth, s, lines); }
    ghost var untrimmed := lines;
    lines := if |lines| > 0 then TrimLines(lines) else [[]];
    TrimmedShows(Cells(PLAIN, line), untrimmed, lines);
  }

  lemma {:induction false} BlankIsOneEmptyLine(cells: seq<Styled>)
    requires Blank(cells)
    ensures Pieces(cells, LineCells([[]]))
  {
    OneLine([]);
    PiecesGap([], LineCells([[]]), cells);
    assert [] + cells == cells;
  }

  // ----- wrapping a text

  /** What `inputs` show when each is drawn in the style the ones before it left behind. */
  function TextCells(inputs: seq<Text>): seq<Styled> {
    if inputs == [] then []
    else TextCells(inputs[..|inputs| - 1]) + Cells(After(PLAIN, Flatten(inputs[..|inputs| - 1])), inputs[|inputs| - 1])
  }

  /** These lines show that input line, in the style in which the ones before it leave it. */
  ghost predicate ShowsLine(inputs: seq<Text>, input: Text, group: seq<Text>) {
    Pieces(Cells(After(PLAIN, Flatten(inputs)), input), LineCells(group)) && ClosedButLast(group)
  }

  ghost predicate GroupAt(inputs: seq<Text>, groups: seq<seq<Text>>, i: nat)
    requires i < |inputs| && i < |groups|
  {
    groups[i] != [] && ShowsLine(inputs[..i], inputs[i], groups[i])
  }

  /**
   * There is one non-empty group of lines per input line, showing that input line, in which every line but the last
   * ends without underline and hyperlink.
   */
  ghost predicate Wraps(inputs: seq<Text>, groups: seq<seq<Text>>) {
    |groups| == |inputs|
      && forall i {:trigger GroupAt(inputs, groups, i)} | 0 <= i < |inputs| :: GroupAt(inputs, groups, i)
  }

  lemma {:induction false} WrapsSnoc(inputs: seq<Text>, groups: seq<seq<Text>>, input: Text, group: seq<Text>)
    requires Wraps(inputs, groups) && group != [] && ShowsLine(inputs, input, group)
    ensures Wraps(inputs + [input], groups + [group]) && Flatten(groups + [group]) == Flatten(groups) + group
  {
    var inputs', groups' := inputs + [input], groups + [group];
    assert groups'[..|groups|] == groups;
    forall i | 0 <= i < |inputs'| ensures GroupAt(inputs', groups', i) {
      if i < |inputs| {
        assert GroupAt(inputs, groups, i) && inputs'[..i] == inputs[..i];
      } else {
        assert inputs'[..i] == inputs;
      }
    }
  }

  lemma {:induction false} WrapsFront(inputs: seq<Text>, groups: seq<seq<Text>>, n: nat)
    requires Wraps(inputs, groups) && n == |inputs| - 1
    ensures Wraps(inputs[..n], groups[..n]) && ShowsLine(inputs[..n], inputs[n], groups[n])
  {
    assert GroupAt(inputs, groups, n);
    forall i | 0 <= i < n ensures GroupAt(inputs[..n], groups[..n], i) {
      assert GroupAt(inputs, groups, i) && inputs[..n][..i] == inputs[..i];
    }
  }

  lemma {:induction false} LineCellsConcat(a: seq<Text>, b: seq<Text>)
    ensures LineCells(a + b) == LineCells(a) + LineCells(b)
  {
  }

  lemma {:induction false} TextCellsSnoc(inputs: seq<Text>, input: Text)
    ensures TextCells(inputs + [input]) == TextCells(inputs) + Cells(After(PLAIN, Flatten(inputs)), input)
  {
    assert (inputs + [input])[..|inputs|] == inputs;
  }

  lemma {:induction false} MorePieces(front: seq<Text>, last: Text, before: seq<Text>, group: seq<Text>,
                                      inputs: seq<Text>, lines: seq<Text>)
    requires Pieces(TextCells(front), LineCells(before))
    requires Pieces(Cells(After(PLAIN, Flatten(front)), last), LineCells(group))
    requires inputs == front + [last] && lines == before + group
    ensures Pieces(TextCells(inputs), LineCells(lines))
  {
    TextCellsSnoc(front, last);
    LineCellsConcat(before, group);
    PiecesConcat(TextCells(front), LineCells(before), Cells(After(PLAIN, Flatten(front)), last), LineCells(group));
  }

  /** The output as a whole shows the whole text in order, spaces at the breaks aside, in the same styles. */
  lemma {:induction false} WrapsInPieces(inputs: seq<Text>, groups: seq<seq<Text>>)
    requires Wraps(inputs, groups)
    ensures Pieces(TextCells(inputs), LineCells(Flatten(groups)))
    decreases |inputs|
  {
    if inputs != [] {
      var n := |inputs| - 1;
      WrapsFront(inputs, groups, n);
      WrapsInPieces(inputs[..n], groups[..n]);
      assert inputs == inputs[..n] + [inputs[n]];
      MorePieces(inputs[..n], inputs[n], Flatten(groups[..n]), groups[n], inputs, Flatten(groups));
    }
  }

  /** No non-space cell is lost, repeated, moved or restyled by wrapping. */
  lemma {:induction false} WrapsKeepsMeaning(inputs: seq<Text>, groups: seq<seq<Text>>)
    requires Wraps(inputs, groups)
    ensures Ink(TextCells(inputs)) == InkOf(LineCells(Flatten(groups)))
  {
    WrapsInPieces(inputs, groups);
    PiecesKeepInk(TextCells(inputs), LineCells(Flatten(groups)));
  }

  ghost predicate AllFitAlone(inputs: seq<Text>, width: int) {
    forall i | 0 <= i < |inputs| :: FitsAlone(inputs[i], width)
  }

  ghost predicate NoneTooWide(lines: seq<Text>, width: int) {
    forall i | 0 <= i < |lines| :: Width(lines[i]) <= width
  }

  /** wrapTextWithAnsi on a text already split at its newlines. */
  method WrapTextWithAnsi(inputLines: seq<Text>, width: int) returns (lines: seq<Text>, ghost groups: seq<seq<Text>>)
    requires inputLines != []
    requires forall i | 0 <= i < |inputLines| :: WellFormed(inputLines[i])
    ensures Wraps(inputLines, groups) && lines == Flatten(groups)
    ensures AllFitAlone(inputLines, width) ==> NoneTooWide(lines, width)
  {
    lines, groups := [], [];
    var tracker := new AnsiCodeTracker();
    ghost var read: seq<Text> := [];
    for i := 0 to |inputLines|
      invariant read == inputLines[..i]
      invariant tracker.Current() == After(PLAIN, Flatten(read)) && Trackable(tracker.Current())
      invariant Wraps(read, groups) && lines == Flatten(groups)
      invariant AllFitAlone(inputLines, width) ==> NoneTooWide(lines, width)
    {
      var inputLine := inputLines[i];
      ghost var next := inputLines[..i + 1];
      TakeNext(inputLines, i);
      lines, groups := WrapNextLine(read, groups, lines, inputLine, width, tracker, next);
      read := next;
    }
    assert inputLines[..|inputLines|] == inputLines;
  }

  method WrapNextLine(ghost inputs: seq<Text>, ghost groups: seq<seq<Text>>, lines: seq<Text>, inputLine: Text,
                      width: int, tracker: AnsiCodeTracker, ghost next: seq<Text>)
      returns (more: seq<Text>, ghost groups': seq<seq<Text>>)
    requires WellFormed(inputLine) && Wraps(inputs, groups) && lines == Flatten(groups) && next == inputs + [inputLine]
    requires tracker.Current() == After(PLAIN, Flatten(inputs)) && Trackable(tracker.Current())
    modifies tracker
    ensures tracker.Current() == After(PLAIN, Flatten(next)) && Trackable(tracker.Current())
    ensures Wraps(next, groups') && more == Flatten(groups')
    ensures FitsAlone(inputLine, width) && NoneTooWide(lines, width) ==> NoneTooWide(more, width)
  {
    ghost var s := tracker.Current();
    var prefix := if |lines| > 0 then ActiveItems(tracker.Current()) else [];
    InputHasLines(inputs, groups);
    PrefixedLine(s, prefix, inputLine, width);
    var wrappedLines := WrapSingleLine(prefix + inputLine, width);
    WrapsSnoc(inputs, groups, inputLine, wrappedLines);
    groups' := groups + [wrappedLines];
    FlattenSnoc(inputs, inputLine);
    Concat(PLAIN, Flatten(inputs), inputLine);
    AfterTrackable(s, inputLine);
    more := lines + wrappedLines;
    UpdateTracker(inputLine, tracker);
  }

  /** Where there is a line there was input, so the style before the first input line is the reset style. */
  lemma {:induction false} InputHasLines(inputs: seq<Text>, groups: seq<seq<Text>>)
    requires Wraps(inputs, groups)
    ensures inputs == [] <==> Flatten(groups) == []
    ensures inputs == [] ==> After(PLAIN, Flatten(inputs)) == PLAIN
  {
    if inputs != [] { assert GroupAt(inputs, groups, |inputs| - 1); }
  }

  /** The active codes in front of a line give it the style it has in the text. */
  lemma {:induction false} PrefixedLine(s: Style, prefix: Text, line: Text, width: int)
    requires Trackable(s) && WellFormed(line) && (prefix == ActiveItems(s) || (prefix == [] && s == PLAIN))
    ensures WellFormed(prefix + line) && Cells(PLAIN, prefix + line) == Cells(s, line)
    ensures FitsAlone(line, width) ==> FitsAlone(prefix + line, width)
  {
    LineEnd(s, []);
    ActiveItemsRestore(s);
    Concat(PLAIN, prefix, line);
    assert [] + Cells(s, line) == Cells(s, line);
  }
}
