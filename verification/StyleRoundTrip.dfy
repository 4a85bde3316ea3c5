/** The style tracker prints its state and reads it back: getActiveCodes and process are inverse. */
module StyleRoundTrip {
  import opened Common
  import opened AnsiCodes

  // ----- splitting what was joined

  function SplitAll(codes: seq<string>): seq<string> {
    if codes == [] then [] else Split(codes[0], ';') + SplitAll(codes[1..])
  }

  lemma {:induction false} SplitAllConcat(a: seq<string>, b: seq<string>)
    ensures SplitAll(a + b) == SplitAll(a) + SplitAll(b)
  {
    if a == [] {
      assert a + b == b;
    } else {
      assert (a + b)[1..] == a[1..] + b;
      SplitAllConcat(a[1..], b);
    }
  }

  lemma {:induction false} SplitOfJoin(codes: seq<string>)
    requires codes != []
    ensures Split(Join(codes, ';'), ';') == SplitAll(codes)
  {
    if |codes| == 1 {
      assert codes[1..] == [];
    } else {
      SplitOfJoin(codes[1..]);
      SplitAtSeparator(codes[0], Join(codes[1..], ';'), ';');
    }
  }

  lemma {:induction false} SplitAllDigits(parts: seq<string>)
    requires Params(parts)
    ensures SplitAll(parts) == parts
  {
    if parts != [] {
      SplitNone(parts[0], ';');
      SplitAllDigits(parts[1..]);
    }
  }

  lemma {:induction false} JoinedAreParams(parts: seq<string>)
    requires forall i, k | 0 <= i < |parts| && 0 <= k < |parts[i]| :: IsParam(parts[i][k])
    ensures forall i | 0 <= i < |Join(parts, ';')| :: IsParam(Join(parts, ';')[i])
  {
    if |parts| > 1 {
      JoinedAreParams(parts[1..]);
    }
  }

  // ----- every state a tracker reaches is trackable

  lemma {:induction false} StandardColor(code: nat, extended: int)
    requires StandardColorOf(extended, code)
    ensures ColorSets(Decimal(code), extended)
  {
    assert ColorParts([Decimal(code)], extended);
    assert Decimal(code) == Join([Decimal(code)], ';');
  }

  lemma {:induction false} ExtendedColor(parts: seq<string>)
    requires Params(parts) && parts != [] && Arity(parts) != 1
    ensures ColorSets(Join(parts[..Arity(parts)], ';'), ParseInt(parts[0]))
  {
    assert ColorParts(parts[..Arity(parts)], ParseInt(parts[0]));
  }

  lemma {:induction false} SimpleTrackable(s: Style, code: int)
    requires Trackable(s)
    ensures Trackable(Simple(s, code))
  {
    var r := Simple(s, code);
    if StandardFg(code) {
      StandardColor(code, 38);
      assert r == s.(fg := Some(Decimal(code)));
    } else if StandardBg(code) {
      StandardColor(code, 48);
      assert r == s.(bg := Some(Decimal(code)));
    } else {
      assert (r.fg == s.fg || r.fg == None) && (r.bg == s.bg || r.bg == None) && r.link == s.link;
    }
  }

  lemma {:induction false} ColoredTrackable(s: Style, parts: seq<string>)
    requires Trackable(s) && Params(parts) && parts != [] && Arity(parts) != 1
    ensures Trackable(Colored(s, ParseInt(parts[0]), Join(parts[..Arity(parts)], ';')))
  {
    ExtendedColor(parts);
    assert TrackableColor(Some(Join(parts[..Arity(parts)], ';')), ParseInt(parts[0]));
  }

  lemma {:induction false} SgrTrackable(s: Style, parts: seq<string>)
    requires Params(parts) && Trackable(s)
    ensures Trackable(Sgr(s, parts))
    decreases |parts|
  {
    if parts != [] {
      var code, n := ParseInt(parts[0]), Arity(parts);
      if n == 1 {
        SimpleTrackable(s, code);
        SgrTrackable(Simple(s, code), parts[n..]);
      } else {
        ColoredTrackable(s, parts);
        SgrTrackable(Colored(s, code, Join(parts[..n], ';')), parts[n..]);
      }
    }
  }

  lemma {:induction false} ProcessedTrackable(s: Style, code: string)
    requires Trackable(s) && IsCode(code)
    ensures Trackable(Processed(s, code))
  {
    if ParseOsc8(code).Open? {
      OpenPrintsBack(code);
      assert TrackableLink(Some(ParseOsc8(code).link));
    } else if ParseOsc8(code).NotALink? && SgrParams(code).Some? {
      SplitParams(SgrParams(code).value);
      SgrTrackable(s, Split(SgrParams(code).value, ';'));
    }
  }

  lemma {:induction false} ReachableIsTrackable(s: Style, text: string)
    requires Trackable(s)
    ensures Trackable(StyleAfter(s, text))
    decreases |text|
  {
    if text != "" {
      var n := CodeLength(text);
      if n > 0 {
        CodePrefix(text);
        ProcessedTrackable(s, text[..n]);
        ReachableIsTrackable(Processed(s, text[..n]), text[n..]);
      } else {
        ReachableIsTrackable(s, text[1..]);
      }
    }
  }

  lemma {:induction false} CsiEndCut(s: string, j: nat, n: nat)
    requires CsiEnd(s, j) == n && n <= |s|
    ensures CsiEnd(s[..n], j) == n
    decreases |s| - j
  {
    if !EndsCsi(s[j]) { CsiEndCut(s, j + 1, n); }
  }

  lemma {:induction false} StringEndCut(s: string, j: nat, n: nat)
    requires StringEnd(s, j) == n && n <= |s|
    ensures StringEnd(s[..n], j) == n
    decreases |s| - j
  {
    if s[j] != BEL && !(s[j] == ESC && j + 1 < |s| && s[j + 1] == '\\') { StringEndCut(s, j + 1, n); }
  }

  lemma {:induction false} CodePrefix(text: string)
    requires CodeLength(text) > 0
    ensures IsCode(text[..CodeLength(text)])
  {
    if text[1] == '[' {
      CsiEndCut(text, 2, CodeLength(text));
    } else {
      StringEndCut(text, 2, CodeLength(text));
    }
  }

  // ----- reading the printed codes back

  lemma {:induction false} ArityStable(parts: seq<string>, rest: seq<string>)
    requires Params(parts) && Params(rest) && parts != [] && Arity(parts) == |parts|
    requires |parts| == 1 ==> ParseInt(parts[0]) != 38 && ParseInt(parts[0]) != 48
    ensures Params(parts + rest) && Arity(parts + rest) == |parts|
  {
    var all := parts + rest;
    assert all[0] == parts[0] && (|parts| > 1 ==> all[1] == parts[1]);
  }

  lemma {:induction false} ColorPieces(color: string, extended: int) returns (parts: seq<string>)
    requires ColorSets(color, extended)
    ensures ColorParts(parts, extended) && color == Join(parts, ';') && Split(color, ';') == parts
  {
    parts :| ColorParts(parts, extended) && color == Join(parts, ';');
    SplitAllDigits(parts);
    SplitOfJoin(parts);
  }

  lemma {:induction false} ColorHead(s: Style, parts: seq<string>, extended: int, rest: seq<string>)
    requires ColorParts(parts, extended) && Params(rest) && (extended == 38 || extended == 48)
    ensures Params(parts + rest) && Sgr(s, parts + rest) == Sgr(Colored(s, extended, Join(parts, ';')), rest)
  {
    ArityStable(parts, rest);
    var all := parts + rest;
    assert all[0] == parts[0] && all[..|parts|] == parts && all[|parts|..] == rest;
  }

  /** A colour at the front of a parameter list takes effect alone, whatever follows. */
  lemma {:induction false} ColorTakesEffect(s: Style, color: string, extended: int, rest: seq<string>)
    requires ColorSets(color, extended) && Params(rest) && (extended == 38 || extended == 48)
    ensures Params(Split(color, ';')) && Params(Split(color, ';') + rest)
    ensures Sgr(s, Split(color, ';') + rest) == Sgr(Colored(s, extended, color), rest)
  {
    var parts := ColorPieces(color, extended);
    ColorHead(s, parts, extended, rest);
  }

  /** What a list of printed parameters does to a style. */
  function Reads(s: Style, codes: seq<string>): Style
    requires Params(SplitAll(codes))
  {
    Sgr(s, SplitAll(codes))
  }

  lemma {:induction false} SplitDigits(code: string)
    requires AllDigits(code)
    ensures Split(code, ';') == [code]
  {
    SplitNone(code, ';');
  }

  lemma {:induction false} SgrHead(s: Style, code: string, rest: seq<string>)
    requires |code| == 1 && AllDigits(code) && Params(rest)
    ensures Params([code] + rest) && Sgr(s, [code] + rest) == Sgr(Simple(s, Value(code)), rest)
  {
    var all := [code] + rest;
    assert code[..0] == "" && Value(code) < 10;
    assert all[1..] == rest;
  }

  /** An attribute that is off contributes no code; one that is on contributes its own. */
  lemma {:induction false} FlagStep(s: Style, on: bool, n: nat, rest: seq<string>)
    requires IsAttribute(n) && Params(SplitAll(rest))
    ensures var codes := WithFlag(on, Digit(n), rest);
            && Params(SplitAll(codes))
            && Reads(s, codes) == Reads(s.(on := s.on + if on then {n} else {}), rest)
  {
    if on {
      var code := Digit(n);
      assert ([code] + rest)[1..] == rest;
      SplitDigits(code);
      SgrHead(s, code, SplitAll(rest));
      assert code[..0] == "" && Value(code) == n;
    } else {
      assert s.on + {} == s.on;
    }
  }

  function OnAmong(on: set<nat>, attributes: seq<nat>): set<nat> {
    set n | n in attributes && n in on
  }

  lemma {:induction false} OnAmongCons(on: set<nat>, attributes: seq<nat>)
    requires attributes != []
    ensures OnAmong(on, attributes)
            == (if attributes[0] in on then {attributes[0]} else {}) + OnAmong(on, attributes[1..])
  {
    assert attributes == [attributes[0]] + attributes[1..];
  }

  lemma {:induction false} AttributesRead(s: Style, on: set<nat>, attributes: seq<nat>, rest: seq<string>)
    requires forall i | 0 <= i < |attributes| :: IsAttribute(attributes[i])
    requires Params(SplitAll(rest))
    ensures Params(SplitAll(AttributeCodes(on, attributes, rest)))
    ensures Reads(s, AttributeCodes(on, attributes, rest)) == Reads(s.(on := s.on + OnAmong(on, attributes)), rest)
    decreases |attributes|
  {
    if attributes == [] {
      assert s.on + OnAmong(on, []) == s.on;
    } else {
      var n := attributes[0];
      var first := if n in on then {n} else {};
      AttributesRead(s.(on := s.on + first), on, attributes[1..], rest);
      FlagStep(s, n in on, n, AttributeCodes(on, attributes[1..], rest));
      OnAmongCons(on, attributes);
      assert s.on + first + OnAmong(on, attributes[1..]) == s.on + OnAmong(on, attributes);
    }
  }

  lemma {:induction false} ColorStep(s: Style, color: Option<string>, extended: int, rest: seq<string>)
    requires color.Some? ==> ColorSets(color.value, extended)
    requires Params(SplitAll(rest)) && (extended == 38 || extended == 48)
    ensures Params(SplitAll(WithColor(color, rest)))
    ensures Reads(s, WithColor(color, rest))
            == Reads(if color.Some? then Colored(s, extended, color.value) else s, rest)
  {
    if color.Some? {
      assert ([color.value] + rest)[1..] == rest;
      ColorTakesEffect(s, color.value, extended, SplitAll(rest));
    }
  }

  lemma {:induction false} ColorsRead(t: Style, s: Style)
    requires Trackable(s)
    ensures Params(SplitAll(ColorCodes(s)))
    ensures Reads(t, ColorCodes(s)) ==
            t.(fg := if s.fg.Some? then s.fg else t.fg, bg := if s.bg.Some? then s.bg else t.bg)
  {
    var t1 := if s.fg.Some? then Colored(t, 38, s.fg.value) else t;
    ColorStep(t1, s.bg, 48, []);
    ColorStep(t, s.fg, 38, WithColor(s.bg, []));
  }

  lemma {:induction false} SgrCodesRead(s: Style)
    requires Trackable(s)
    ensures Params(SplitAll(SgrCodes(s)))
    ensures Reads(PLAIN, SgrCodes(s)) == s.(link := None)
  {
    var t := PLAIN.(on := s.on);
    ColorsRead(t, s);
    AttributesRead(PLAIN, s.on, ATTRIBUTES, ColorCodes(s));
    assert forall n :: IsAttribute(n) <==> n in ATTRIBUTES;
    assert {} + OnAmong(s.on, ATTRIBUTES) == s.on;
  }

  predicate ParamCodes(codes: seq<string>) {
    && (forall i | 0 <= i < |codes| :: codes[i] != "")
    && (forall i, k | 0 <= i < |codes| && 0 <= k < |codes[i]| :: IsParam(codes[i][k]))
  }

  lemma {:induction false} AttributeParams(on: set<nat>, attributes: seq<nat>, rest: seq<string>)
    requires ParamCodes(rest) && forall i | 0 <= i < |attributes| :: IsAttribute(attributes[i])
    ensures ParamCodes(AttributeCodes(on, attributes, rest))
  {
    if attributes != [] {
      AttributeParams(on, attributes[1..], rest);
    }
  }

  lemma {:induction false} ColorIsParams(color: string, extended: int)
    requires ColorSets(color, extended)
    ensures color != "" && forall k | 0 <= k < |color| :: IsParam(color[k])
  {
    var parts := ColorPieces(color, extended);
    JoinedAreParams(parts);
  }

  lemma {:induction false} ColorCodesAreParams(s: Style)
    requires Trackable(s)
    ensures ParamCodes(ColorCodes(s))
  {
    if s.fg.Some? { ColorIsParams(s.fg.value, 38); }
    if s.bg.Some? { ColorIsParams(s.bg.value, 48); }
  }

  lemma {:induction false} SgrCodesAreParams(s: Style)
    requires Trackable(s)
    ensures ParamCodes(SgrCodes(s))
  {
    ColorCodesAreParams(s);
    AttributeParams(s.on, ATTRIBUTES, ColorCodes(s));
  }

  lemma {:induction false} CsiEndAt(s: string, j: nat)
    requires 2 <= j < |s| && s[|s| - 1] == 'm'
    requires forall k | j <= k < |s| - 1 :: IsParam(s[k])
    ensures CsiEnd(s, j) == |s|
    decreases |s| - j
  {
    if j < |s| - 1 { CsiEndAt(s, j + 1); }
  }

  lemma {:induction false} ParamsEndAt(s: string, j: nat)
    requires 2 <= j < |s| && s[|s| - 1] == 'm'
    requires forall k | j <= k < |s| - 1 :: IsParam(s[k])
    ensures ParamsEnd(s, j) == |s| - 1
    decreases |s| - j
  {
    if j < |s| - 1 { ParamsEndAt(s, j + 1); }
  }

  lemma {:induction false} SgrCodeIsWhole(params: string)
    requires forall i | 0 <= i < |params| :: IsParam(params[i])
    ensures var code := [ESC, '['] + params + "m";
            IsCode(code) && ParseOsc8(code).NotALink? && SgrParams(code) == Some(params)
  {
    var code := [ESC, '['] + params + "m";
    CsiEndAt(code, 2);
    ParamsEndAt(code, 2);
    assert code[2..|code| - 1] == params;
    assert code[1] == '[' && OSC8[1] == ']';
  }

  lemma {:induction false} ReadsParams(s: Style, params: string)
    requires params != "" && forall i | 0 <= i < |params| :: IsParam(params[i])
    ensures var code := [ESC, '['] + params + "m";
            Params(Split(params, ';')) && IsCode(code) && Processed(s, code) == Sgr(s, Split(params, ';'))
  {
    SgrCodeIsWhole(params);
    SplitParams(params);
    if params == "0" {
      SplitDigits(params);
      SgrHead(s, params, []);
      assert [params] + [] == [params];
    }
  }

  lemma {:induction false} JoinNotEmpty(codes: seq<string>)
    requires codes != [] && codes[0] != ""
    ensures Join(codes, ';') != ""
  {
  }

  /** The printed SGR code is one whole escape sequence that restores every attribute and colour. */
  lemma {:induction false} SgrCodeReads(s: Style)
    requires Trackable(s) && SgrCodes(s) != []
    ensures IsCode(SgrCode(s))
    ensures Processed(PLAIN, SgrCode(s)) == s.(link := None)
  {
    var codes := SgrCodes(s);
    SgrCodesAreParams(s);
    JoinedAreParams(codes);
    JoinNotEmpty(codes);
    ReadsParams(PLAIN, Join(codes, ';'));
    SplitOfJoin(codes);
    SgrCodesRead(s);
  }

  lemma {:induction false} NoCodes(s: Style)
    requires Trackable(s) && SgrCodes(s) == []
    ensures s.(link := None) == PLAIN
  {
    SgrCodesRead(s);
  }

  lemma {:induction false} ReadsCode(s: Style, code: string, rest: string)
    requires IsCode(code)
    ensures StyleAfter(s, code + rest) == StyleAfter(Processed(s, code), rest)
  {
    CodeStandsAlone(code, rest);
    assert (code + rest)[..|code|] == code && (code + rest)[|code|..] == rest;
  }

  lemma {:induction false} LinkCodeReads(s: Style)
    requires Trackable(s) && s.link.Some?
    ensures IsCode(LinkCode(s)) && Processed(s.(link := None), LinkCode(s)) == s
  {
    assert TrackableLink(s.link);
  }

  /** From a cleared tracker the printed codes restore the printed state. */
  lemma {:induction false} ActiveCodesRestore(s: Style)
    requires Trackable(s)
    ensures StyleAfter(PLAIN, ActiveCodes(s)) == s
  {
    var mid := s.(link := None);
    if SgrCodes(s) != [] {
      SgrCodeReads(s);
      ReadsCode(PLAIN, SgrCode(s), LinkCode(s));
    } else {
      NoCodes(s);
      assert ActiveCodes(s) == LinkCode(s);
    }
    if s.link.Some? {
      LinkCodeReads(s);
      ReadsCode(mid, LinkCode(s), "");
      assert LinkCode(s) + "" == LinkCode(s);
    }
  }

  /** Whatever a text did to a tracker, printing the state and reading it back gives the same state. */
  lemma {:induction false} RoundTrip(text: string)
    ensures var s := StyleAfter(PLAIN, text);
            StyleAfter(PLAIN, ActiveCodes(s)) == s
  {
    ReachableIsTrackable(PLAIN, text);
    ActiveCodesRestore(StyleAfter(PLAIN, text));
  }

  // ----- getLineEndReset

  lemma {:induction false} UnderlineOffReads(s: Style)
    ensures IsCode(UNDERLINE_OFF) && Processed(s, UNDERLINE_OFF) == s.(on := s.on - {UNDERLINE})
  {
    var code := "24";
    ReadsParams(s, code);
    SplitDigits(code);
    assert code[..1] == "2" && "2"[..0] == "" && Value("2") == 2 && ParseInt(code) == 24;
    var parts: seq<string> := [code];
    assert parts[1..] == [];
  }

  lemma {:induction false} LinkCloseEnds(code: string, terminator: string)
    requires code == OSC8 + ";" + terminator && (terminator == [BEL] || terminator == ST)
    ensures IsCode(code) && Terminator(code) == terminator && LinkBody(code) == ";" && StartsWith(code, OSC8)
  {
    assert code[..4] == OSC8 && code[4] == ';' && code[5..] == terminator && code[4..5] == ";";
    assert code[0] == OSC8[0] && code[1] == OSC8[1] && code[2] == OSC8[2] && code[3] == OSC8[3];
    assert code[5] == terminator[0] && (|terminator| == 2 ==> code[6] == terminator[1]);
    assert StringEnd(code, 5) == |code|;
    assert StringEnd(code, 4) == |code|;
    assert StringEnd(code, 3) == |code|;
    assert StringEnd(code, 2) == |code|;
  }

  lemma {:induction false} LinkCloseReads(s: Style, terminator: string)
    requires terminator == [BEL] || terminator == ST
    ensures IsCode(FormatOsc8Close(terminator)) && Processed(s, FormatOsc8Close(terminator)) == s.(link := None)
  {
    LinkCloseEnds(FormatOsc8Close(terminator), terminator);
  }

  lemma {:induction false} LinkEndsWell(s: Style)
    requires Trackable(s) && s.link.Some?
    ensures s.link.value.terminator == [BEL] || s.link.value.terminator == ST
  {
    LinkParts(FormatOsc8(s.link.value));
  }

  lemma {:induction false} ReadsLast(s: Style, code: string)
    requires IsCode(code)
    ensures StyleAfter(s, code) == Processed(s, code)
  {
    ReadsCode(s, code, "");
    assert code + "" == code;
  }

  lemma {:induction false} LinkResetReads(s: Style, t: Style)
    requires Trackable(s) && t.link == s.link
    ensures StyleAfter(t, LinkReset(s)) == t.(link := None)
  {
    if s.link.Some? {
      LinkEndsWell(s);
      LinkCloseReads(t, s.link.value.terminator);
      ReadsLast(t, LinkReset(s));
    }
  }

  /** What is printed at the end of a line ends underline and hyperlink, and nothing else. */
  lemma {:induction false} LineEndResetReads(s: Style, reset: string)
    requires Trackable(s) && reset == LineEndReset(s)
    ensures StyleAfter(s, reset) == Closed(s)
  {
    var t := s.(on := s.on - {UNDERLINE});
    LinkResetReads(s, t);
    if UNDERLINE in s.on {
      UnderlineOffReads(s);
      ReadsCode(s, UNDERLINE_OFF, LinkReset(s));
    } else {
      assert t == s && reset == LinkReset(s);
    }
  }
}
