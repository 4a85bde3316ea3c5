/** Escape sequences and the style state they drive: packages/tui/src/utils.ts, on strings. */
module AnsiCodes {
  import opened Common

  const ESC: char := '\U{1b}'
  const BEL: char := '\U{7}'
  const ST: string := [ESC, '\\']

  /** An OSC 8 hyperlink, with the terminator it was written with. */
  datatype Hyperlink = Hyperlink(params: string, url: string, terminator: string)

  /** The attributes that are on, each named by the SGR code that switches it on, the colours and the hyperlink. */
  datatype Style = Style(on: set<nat>, fg: Option<string>, bg: Option<string>, link: Option<Hyperlink>)

  const BOLD := 1
  const DIM := 2
  const ITALIC := 3
  const UNDERLINE := 4
  const BLINK := 5
  const INVERSE := 7
  const HIDDEN := 8
  const STRIKE := 9

  const ATTRIBUTES: seq<nat> := [BOLD, DIM, ITALIC, UNDERLINE, BLINK, INVERSE, HIDDEN, STRIKE]

  predicate IsAttribute(code: int) { 1 <= code <= 9 && code != 6 }

  const PLAIN := Style({}, None, None, None)

  // ----- strings

  function IndexOf(s: string, c: char): (i: int)
    ensures -1 <= i < |s|
    ensures i == -1 <==> c !in s
    ensures i >= 0 ==> s[i] == c && c !in s[..i]
  {
    if s == "" then -1
    else if s[0] == c then 0
    else
      var i := IndexOf(s[1..], c);
      assert i >= 0 ==> s[..i + 1] == [s[0]] + s[1..][..i];
      if i == -1 then -1 else i + 1
  }

  function Split(s: string, c: char): (parts: seq<string>)
    ensures parts != []
  {
    if s == "" then [""]
    else
      var parts := Split(s[1..], c);
      if s[0] == c then [""] + parts else [[s[0]] + parts[0]] + parts[1..]
  }

  function Join(parts: seq<string>, c: char): string {
    if parts == [] then ""
    else if |parts| == 1 then parts[0]
    else parts[0] + [c] + Join(parts[1..], c)
  }

  lemma {:induction false} SplitNone(s: string, c: char)
    requires c !in s
    ensures Split(s, c) == [s]
  {
    if s != "" {
      SplitNone(s[1..], c);
      assert s == [s[0]] + s[1..];
    }
  }

  lemma {:induction false} SplitAtSeparator(a: string, b: string, c: char)
    ensures Split(a + [c] + b, c) == Split(a, c) + Split(b, c)
  {
    var whole := a + [c] + b;
    if a == "" {
      assert whole[1..] == b;
    } else {
      assert whole[1..] == a[1..] + [c] + b;
      SplitAtSeparator(a[1..], b, c);
    }
  }

  predicate IsDigit(c: char) { '0' <= c <= '9' }

  predicate AllDigits(s: string) { forall i | 0 <= i < |s| :: IsDigit(s[i]) }

  /** parseInt on a run of digits; -1 stands for NaN. */
  function ParseInt(s: string): int
    requires AllDigits(s)
  {
    if s == "" then -1 else Value(s)
  }

  function Value(s: string): nat
    requires AllDigits(s)
  {
    if s == "" then 0 else 10 * Value(s[..|s| - 1]) + (s[|s| - 1] - '0') as int
  }

  function Decimal(n: nat): (s: string)
    ensures s != "" && AllDigits(s)
    ensures Value(s) == n
  {
    if n < 10 then ['0' + n as char]
    else
      var s := Decimal(n / 10) + ['0' + (n % 10) as char];
      assert s[..|s| - 1] == Decimal(n / 10);
      s
  }

  // ----- extractAnsiCode

  predicate EndsCsi(c: char) { c in "mGKHJ" }

  /** Index just past the final byte of a CSI sequence whose parameters start at j, or -1. */
  function CsiEnd(s: string, j: nat): (end: int)
    ensures end == -1 || j < end <= |s|
    decreases |s| - j
  {
    if j >= |s| then -1 else if EndsCsi(s[j]) then j + 1 else CsiEnd(s, j + 1)
  }

  /** Index just past the BEL or ST that ends an OSC or APC sequence, or -1. */
  function StringEnd(s: string, j: nat): (end: int)
    ensures end == -1 || j < end <= |s|
    decreases |s| - j
  {
    if j >= |s| then -1
    else if s[j] == BEL then j + 1
    else if s[j] == ESC && j + 1 < |s| && s[j + 1] == '\\' then j + 2
    else StringEnd(s, j + 1)
  }

  /** Length of the escape sequence at the start of s; 0 when there is none. */
  function CodeLength(s: string): (n: nat)
    ensures n <= |s|
  {
    if |s| < 2 || s[0] != ESC then 0
    else
      var end := if s[1] == '[' then CsiEnd(s, 2) else if s[1] == ']' || s[1] == '_' then StringEnd(s, 2) else -1;
      if end == -1 then 0 else end
  }

  /** A whole escape sequence, as extractAnsiCode cuts them out. */
  predicate IsCode(s: string) { 0 < |s| == CodeLength(s) }

  method ExtractAnsiCode(str: string, pos: nat) returns (length: nat)
    ensures length == if pos < |str| then CodeLength(str[pos..]) else 0
    ensures pos + length <= Max(pos, |str|)
  {
    if pos >= |str| || str[pos] != ESC || pos + 1 >= |str| { return 0; }
    var next := str[pos + 1];
    var s := str[pos..];
    if next == '[' {
      var j := 2;
      while j < |s| && !EndsCsi(s[j])
        invariant 2 <= j <= |s| && CsiEnd(s, 2) == CsiEnd(s, j)
      {
        j := j + 1;
      }
      return if j < |s| then j + 1 else 0;
    }
    if next == ']' || next == '_' {
      var j := 2;
      while j < |s|
        invariant 2 <= j <= |s| && StringEnd(s, 2) == StringEnd(s, j)
      {
        if s[j] == BEL { return j + 1; }
        if s[j] == ESC && j + 1 < |s| && s[j + 1] == '\\' { return j + 2; }
        j := j + 1;
      }
      return 0;
    }
    length := 0;
  }

  lemma {:induction false} CsiEndPrefix(a: string, b: string, j: nat)
    ensures CsiEnd(a, j) != -1 ==> CsiEnd(a + b, j) == CsiEnd(a, j)
    decreases |a| - j
  {
    if j < |a| && !EndsCsi(a[j]) { CsiEndPrefix(a, b, j + 1); }
  }

  lemma {:induction false} StringEndPrefix(a: string, b: string, j: nat)
    ensures StringEnd(a, j) == |a| ==> StringEnd(a + b, j) == |a|
    decreases |a| - j
  {
    if j < |a| {
      if a[j] != BEL && !(a[j] == ESC && j + 1 < |a| && a[j + 1] == '\\') {
        StringEndPrefix(a, b, j + 1);
        if j + 1 == |a| { assert StringEnd(a, j + 1) == -1; }
      }
    }
  }

  /** A sequence is found whole whatever text follows it. */
  lemma {:induction false} CodeStandsAlone(code: string, rest: string)
    requires IsCode(code)
    ensures CodeLength(code + rest) == |code|
  {
    CsiEndPrefix(code, rest, 2);
    StringEndPrefix(code, rest, 2);
  }

  // ----- hyperlinks

  datatype LinkParse = NotALink | Close | Open(link: Hyperlink)

  const OSC8: string := [ESC] + "]8;"

  predicate StartsWith(s: string, prefix: string) { |prefix| <= |s| && s[..|prefix|] == prefix }

  function ParseOsc8(code: string): LinkParse {
    if !StartsWith(code, OSC8) then NotALink
    else
      var body := LinkBody(code);
      var sep := IndexOf(body, ';');
      if sep == -1 then NotALink
      else if body[sep + 1..] == "" then Close
      else Open(Hyperlink(body[..sep], body[sep + 1..], Terminator(code)))
  }

  function FormatOsc8(link: Hyperlink): string {
    OSC8 + link.params + ";" + link.url + link.terminator
  }

  function FormatOsc8Close(terminator: string): string {
    OSC8 + ";" + terminator
  }

  lemma {:induction false} StringEndsIn(s: string, j: nat)
    requires StringEnd(s, j) == |s| && j <= |s|
    ensures s[|s| - 1] == BEL || (j + 2 <= |s| && s[|s| - 2] == ESC && s[|s| - 1] == '\\')
    decreases |s| - j
  {
    if j < |s| && s[j] != BEL && !(s[j] == ESC && j + 1 < |s| && s[j + 1] == '\\') {
      StringEndsIn(s, j + 1);
    }
  }

  lemma {:induction false} LinkParts(code: string)
    requires ParseOsc8(code).Open?
    ensures var link := ParseOsc8(code).link;
            link.params + ";" + link.url == LinkBody(code) && link.terminator == Terminator(code)
  {
    var body := LinkBody(code);
    var sep := IndexOf(body, ';');
    assert body == body[..sep] + ";" + body[sep + 1..];
  }

  /** Printing an opened hyperlink gives back the very code it was parsed from. */
  lemma {:induction false} OpenPrintsBack(code: string)
    requires IsCode(code) && ParseOsc8(code).Open?
    ensures FormatOsc8(ParseOsc8(code).link) == code
  {
    LinkParts(code);
    LinkPieces(code);
    var link := ParseOsc8(code).link;
    Regroup(OSC8, link.params, ";", link.url, link.terminator);
  }

  lemma {:induction false} Regroup(a: string, b: string, c: string, d: string, e: string)
    ensures a + b + c + d + e == a + (b + c + d) + e
  {
  }

  function Terminator(code: string): string
    requires code != ""
  {
    if code[|code| - 1] == BEL then [BEL] else ST
  }

  function LinkBody(code: string): string
    requires StartsWith(code, OSC8)
  {
    code[4..Max(4, |code| - |Terminator(code)|)]
  }

  lemma {:induction false} LinkPieces(code: string)
    requires IsCode(code) && StartsWith(code, OSC8)
    ensures code == OSC8 + LinkBody(code) + Terminator(code)
  {
    assert code[..4] == OSC8;
    assert code[0] == OSC8[0] && code[1] == OSC8[1] && code[3] == OSC8[3];
    StringEndsIn(code, 2);
    var end := |code| - |Terminator(code)|;
    assert code[end..] == Terminator(code);
    assert code == code[..4] + code[4..end] + code[end..];
  }

  // ----- SGR codes

  predicate IsParam(c: char) { IsDigit(c) || c == ';' }

  /** End of the run of parameter characters that starts at j. */
  function ParamsEnd(s: string, j: nat): (end: nat)
    requires j <= |s|
    ensures j <= end <= |s|
    ensures forall k | j <= k < end :: IsParam(s[k])
    ensures end < |s| ==> !IsParam(s[end])
    decreases |s| - j
  {
    if j < |s| && IsParam(s[j]) then ParamsEnd(s, j + 1) else j
  }

  /** The parameters of the first `ESC [ params m` in a code. */
  function SgrParams(code: string): (params: Option<string>)
    ensures params.Some? ==> forall i | 0 <= i < |params.value| :: IsParam(params.value[i])
  {
    if code == "" then None
    else if |code| >= 2 && code[0] == ESC && code[1] == '[' && ParamsEnd(code, 2) < |code|
      && code[ParamsEnd(code, 2)] == 'm'
    then Some(code[2..ParamsEnd(code, 2)])
    else SgrParams(code[1..])
  }

  lemma {:induction false} SplitParams(params: string)
    requires forall i | 0 <= i < |params| :: IsParam(params[i])
    ensures forall i | 0 <= i < |Split(params, ';')| :: AllDigits(Split(params, ';')[i])
  {
    if params != "" {
      SplitParams(params[1..]);
    }
  }

  function ResetSgr(s: Style): Style {
    PLAIN.(link := s.link)
  }

  predicate StandardFg(code: int) { 30 <= code <= 37 || 90 <= code <= 97 }

  predicate StandardBg(code: int) { 40 <= code <= 47 || 100 <= code <= 107 }

  /** The attributes that codes 21 to 29 switch off; 22 ends bold and dim, 21 only bold. */
  function SwitchedOff(code: int): set<nat> {
    match code
    case 21 => {BOLD}
    case 22 => {BOLD, DIM}
    case 23 => {ITALIC}
    case 24 => {UNDERLINE}
    case 25 => {BLINK}
    case 27 => {INVERSE}
    case 28 => {HIDDEN}
    case 29 => {STRIKE}
    case _ => {}
  }

  /** One parameter that stands for itself; NaN and unknown codes change nothing. */
  function Simple(s: Style, code: int): Style {
    if code == 0 then ResetSgr(s)
    else if IsAttribute(code) then s.(on := s.on + {code})
    else if code < 30 then s.(on := s.on - SwitchedOff(code))
    else if code == 39 then s.(fg := None)
    else if code == 49 then s.(bg := None)
    else if StandardFg(code) then s.(fg := Some(Decimal(code)))
    else if StandardBg(code) then s.(bg := Some(Decimal(code)))
    else s
  }

  function Colored(s: Style, code: int, color: string): Style {
    if code == 38 then s.(fg := Some(color)) else s.(bg := Some(color))
  }

  predicate Params(parts: seq<string>) { forall i | 0 <= i < |parts| :: AllDigits(parts[i]) }

  /** How many parameters the one at the front consumes: 5 for RGB, 3 for 256 colours, else 1. */
  function Arity(parts: seq<string>): (n: nat)
    requires Params(parts) && parts != []
    ensures n <= |parts|
  {
    var code := ParseInt(parts[0]);
    if (code == 38 || code == 48) && |parts| >= 3 && parts[1] == "5" then 3
    else if (code == 38 || code == 48) && |parts| >= 5 && parts[1] == "2" then 5
    else 1
  }

  function Sgr(s: Style, parts: seq<string>): Style
    requires Params(parts)
    decreases |parts|
  {
    if parts == [] then s
    else
      var code, n := ParseInt(parts[0]), Arity(parts);
      Sgr(if n == 1 then Simple(s, code) else Colored(s, code, Join(parts[..n], ';')), parts[n..])
  }

  /** The style after one escape sequence. */
  function Processed(s: Style, code: string): Style {
    match ParseOsc8(code)
    case Open(link) => s.(link := Some(link))
    case Close => s.(link := None)
    case NotALink =>
      if code == "" || code[|code| - 1] != 'm' then s
      else
        match SgrParams(code)
        case None => s
        case Some(params) =>
          if params == "" || params == "0" then ResetSgr(s)
          else SplitParams(params); Sgr(s, Split(params, ';'))
  }

  /** The style after a text: its escape sequences in order, everything else skipped. */
  function StyleAfter(s: Style, text: string): Style
    decreases |text|
  {
    if text == "" then s
    else if CodeLength(text) > 0 then StyleAfter(Processed(s, text[..CodeLength(text)]), text[CodeLength(text)..])
    else StyleAfter(s, text[1..])
  }

  // ----- getActiveCodes

  function WithFlag(on: bool, code: string, rest: seq<string>): seq<string> {
    if on then [code] + rest else rest
  }

  function WithColor(c: Option<string>, rest: seq<string>): seq<string> {
    if c.Some? then [c.value] + rest else rest
  }

  function ColorCodes(s: Style): seq<string> {
    WithColor(s.fg, WithColor(s.bg, []))
  }

  function Digit(n: nat): string {
    if n < 10 then ['0' + n as char] else ""
  }

  /** The codes of the attributes that are on, in order, before `rest`. */
  function AttributeCodes(on: set<nat>, attributes: seq<nat>, rest: seq<string>): seq<string> {
    if attributes == [] then rest
    else WithFlag(attributes[0] in on, Digit(attributes[0]), AttributeCodes(on, attributes[1..], rest))
  }

  /** The parameters of the code that switches on everything that is on. */
  function SgrCodes(s: Style): seq<string> {
    AttributeCodes(s.on, ATTRIBUTES, ColorCodes(s))
  }

  function SgrCode(s: Style): string {
    if SgrCodes(s) == [] then "" else [ESC, '['] + Join(SgrCodes(s), ';') + "m"
  }

  function LinkCode(s: Style): string {
    if s.link.Some? then FormatOsc8(s.link.value) else ""
  }

  function ActiveCodes(s: Style): string {
    SgrCode(s) + LinkCode(s)
  }

  // ----- getLineEndReset

  const UNDERLINE_OFF: string := [ESC, '['] + "24" + "m"

  function LineEndReset(s: Style): string { UnderlineReset(s) + LinkReset(s) }

  function UnderlineReset(s: Style): string { if UNDERLINE in s.on then UNDERLINE_OFF else "" }

  function LinkReset(s: Style): string { if s.link.Some? then FormatOsc8Close(s.link.value.terminator) else "" }

  /** The style without what would show on the rest of a row. */
  function Closed(s: Style): Style {
    s.(on := s.on - {UNDERLINE}, link := None)
  }

  // ----- which styles a tracker can hold

  predicate StandardColorOf(extended: int, code: int) {
    if extended == 38 then StandardFg(code) else StandardBg(code)
  }

  /** The parameters of a colour: one standard code, `38;5;n` or `38;2;r;g;b` (48 for a background). */
  ghost predicate ColorParts(parts: seq<string>, extended: int) {
    && Params(parts) && parts != [] && Arity(parts) == |parts|
    && if |parts| == 1 then exists code: nat :: StandardColorOf(extended, code) && parts[0] == Decimal(code)
       else ParseInt(parts[0]) == extended
  }

  ghost predicate ColorSets(color: string, extended: int) {
    exists parts :: ColorParts(parts, extended) && color == Join(parts, ';')
  }

  ghost predicate TrackableColor(c: Option<string>, extended: int) {
    c.Some? ==> ColorSets(c.value, extended)
  }

  ghost predicate TrackableLink(link: Option<Hyperlink>) {
    link.Some? ==> IsCode(FormatOsc8(link.value)) && ParseOsc8(FormatOsc8(link.value)) == Open(link.value)
  }

  ghost predicate Trackable(s: Style) {
    (forall n :: n in s.on ==> IsAttribute(n)) && TrackableColor(s.fg, 38) && TrackableColor(s.bg, 48)
      && TrackableLink(s.link)
  }
}
