/** Two decoders of Kitty key reports, one that names a key and one that recognises a name: packages/tui/src/keys.ts. */
module KeyDecoding {
  import opened Common

  /** What parseKittySequence returns for a report. */
  datatype Report = Report(codepoint: int, baseLayoutKey: Option<int>, modifier: int)

  const ESCAPE := 27
  const TAB := 9
  const ENTER := 13
  const SPACE := 32
  const BACKSPACE := 127
  const KP_ENTER := 57414

  const UP := -1
  const DOWN := -2
  const RIGHT := -3
  const LEFT := -4
  const DELETE := -10
  const INSERT := -11
  const PAGE_UP := -12
  const PAGE_DOWN := -13
  const HOME := -14
  const END := -15

  /** The printable keys that are neither letters nor digits, by code. */
  predicate IsSymbolCode(code: int) {
    (33 <= code <= 47 && code != 34) || 58 <= code <= 64 || 91 <= code <= 96 || 123 <= code <= 126
  }

  /** String.fromCharCode keeps 16 bits. */
  function FromCharCode(codepoint: int): int { codepoint % 65536 }

  // ----- modifiers, as JavaScript's 32-bit operators see them

  function ToInt32(n: int): nat { n % 0x1_0000_0000 }

  /** n & ~LOCK_MASK: without the bits for caps lock and num lock. */
  function WithoutLocks(n: int): nat {
    ToInt32(n) - ToInt32(n) / 64 % 4 * 64
  }

  predicate HasBit(n: nat, bit: nat)
    requires bit > 0
  {
    n / bit % 2 == 1
  }

  const SHIFT := 1
  const ALT := 2
  const CTRL := 4
  const SUPER := 8

  // ----- codepoints

  /** normalizeKittyFunctionalCodepoint: keypad keys stand for the keys they double. */
  function NormalizeFunctional(codepoint: int): int {
    if 57399 <= codepoint <= 57408 then codepoint - 57399 + 48
    else match codepoint
      case 57409 => 46
      case 57410 => 47
      case 57411 => 42
      case 57412 => 45
      case 57413 => 43
      case 57415 => 61
      case 57416 => 44
      case 57417 => LEFT
      case 57418 => RIGHT
      case 57419 => UP
      case 57420 => DOWN
      case 57421 => PAGE_UP
      case 57422 => PAGE_DOWN
      case 57423 => HOME
      case 57424 => END
      case 57425 => INSERT
      case 57426 => DELETE
      case _ => codepoint
  }

  /** normalizeShiftedLetterIdentityCodepoint. */
  function NormalizeShifted(codepoint: int, modifier: int): int {
    if HasBit(WithoutLocks(modifier), SHIFT) && 65 <= codepoint <= 90 then codepoint + 32 else codepoint
  }

  predicate IsLetterCode(code: int) { 97 <= code <= 122 }

  predicate IsDigitCode(code: int) { 48 <= code <= 57 }

  // ----- naming a key

  function Single(code: int): string
    requires 0 <= code < 128
  {
    [code as char]
  }

  /** The name of a key by its codepoint. */
  function KeyName(codepoint: int): Option<string> {
    if codepoint == ESCAPE then Some("escape")
    else if codepoint == TAB then Some("tab")
    else if codepoint == ENTER || codepoint == KP_ENTER then Some("enter")
    else if codepoint == SPACE then Some("space")
    else if codepoint == BACKSPACE then Some("backspace")
    else if codepoint == DELETE then Some("delete")
    else if codepoint == INSERT then Some("insert")
    else if codepoint == HOME then Some("home")
    else if codepoint == END then Some("end")
    else if codepoint == PAGE_UP then Some("pageUp")
    else if codepoint == PAGE_DOWN then Some("pageDown")
    else if codepoint == UP then Some("up")
    else if codepoint == DOWN then Some("down")
    else if codepoint == LEFT then Some("left")
    else if codepoint == RIGHT then Some("right")
    else if IsDigitCode(codepoint) || IsLetterCode(codepoint) then Some(Single(codepoint))
    else if IsSymbolCode(FromCharCode(codepoint)) then Some(Single(FromCharCode(codepoint)))
    else None
  }

  /** The names of the modifiers, in the order in which they are written. */
  function ModifierNames(e: nat): seq<string> {
    (if HasBit(e, SHIFT) then ["shift"] else []) + (if HasBit(e, CTRL) then ["ctrl"] else [])
    + (if HasBit(e, ALT) then ["alt"] else []) + (if HasBit(e, SUPER) then ["super"] else [])
  }

  function JoinPlus(parts: seq<string>): string
    requires parts != []
  {
    if |parts| == 1 then parts[0] else parts[0] + "+" + JoinPlus(parts[1..])
  }

  /** formatKeyNameWithModifiers; other modifiers than these four have no name. */
  function FormatKeyName(name: string, modifier: int): Option<string> {
    var e := WithoutLocks(modifier);
    if e / 16 != 0 then None else Some(JoinPlus(ModifierNames(e) + [name]))
  }

  /** The same, as the source builds it up in a list. */
  method FormatKeyNameWithModifiers(name: string, modifier: int) returns (id: Option<string>)
    ensures id == FormatKeyName(name, modifier)
  {
    var mods: seq<string> := [];
    var effectiveMod := WithoutLocks(modifier);
    if effectiveMod / 16 != 0 { return None; }
    if HasBit(effectiveMod, SHIFT) { mods := mods + ["shift"]; }
    if HasBit(effectiveMod, CTRL) { mods := mods + ["ctrl"]; }
    if HasBit(effectiveMod, ALT) { mods := mods + ["alt"]; }
    if HasBit(effectiveMod, SUPER) { mods := mods + ["super"]; }
    assert mods == ModifierNames(effectiveMod);
    if |mods| > 0 {
      JoinLast(mods, name);
      return Some(JoinPlus(mods) + "+" + name);
    }
    assert mods + [name] == [name];
    return Some(name);
  }

  lemma {:induction false} JoinLast(parts: seq<string>, name: string)
    requires parts != []
    ensures JoinPlus(parts + [name]) == JoinPlus(parts) + "+" + name
  {
    assert (parts + [name])[1..] == parts[1..] + [name];
    if |parts| > 1 {
      JoinLast(parts[1..], name);
    }
  }

  /** The codepoint a report is named after: that of its layout only if it is no letter, digit or symbol itself. */
  function NamedCodepoint(r: Report): int {
    var identity := NormalizeShifted(NormalizeFunctional(r.codepoint), r.modifier);
    if IsLetterCode(identity) || IsDigitCode(identity) || IsSymbolCode(FromCharCode(identity)) || r.baseLayoutKey.None?
    then identity else r.baseLayoutKey.value
  }

  /** formatParsedKey, which is what parseKey returns for a report. */
  function ParseKey(r: Report): Option<string> {
    var name := KeyName(NamedCodepoint(r));
    if name.None? then None else FormatKeyName(name.value, r.modifier)
  }

  // ----- recognising a name

  function Lower(c: char): char { if 'A' <= c <= 'Z' then (c as int + 32) as char else c }

  function ToLower(s: string): string { seq(|s|, i requires 0 <= i < |s| => Lower(s[i])) }

  function SplitPlus(s: string): (parts: seq<string>)
    ensures parts != []
  {
    if s == "" then [""]
    else
      var rest := SplitPlus(s[1..]);
      if s[0] == '+' then [""] + rest else [[s[0]] + rest[0]] + rest[1..]
  }

  datatype KeyId = KeyId(key: string, modifier: nat)

  /** What parseKeyId makes of the parts of an identifier. */
  function KeyOf(parts: seq<string>): Option<KeyId>
    requires parts != []
  {
    var key := parts[|parts| - 1];
    if key == "" then None
    else Some(KeyId(key, (if "shift" in parts then SHIFT else 0) + (if "alt" in parts then ALT else 0)
                         + (if "ctrl" in parts then CTRL else 0) + (if "super" in parts then SUPER else 0)))
  }

  /** parseKeyId, with the modifier that matchesKey makes of it. */
  function ParseKeyId(id: string): Option<KeyId> {
    KeyOf(SplitPlus(ToLower(id)))
  }

  /** matchesKittySequence for the report. */
  predicate MatchesKitty(r: Report, expected: int, modifier: int) {
    var actual := NormalizeShifted(NormalizeFunctional(r.codepoint), r.modifier);
    && WithoutLocks(r.modifier) == WithoutLocks(modifier)
    && (actual == NormalizeShifted(NormalizeFunctional(expected), modifier)
        || (r.baseLayoutKey == Some(expected) && !IsLetterCode(actual) && !IsSymbolCode(FromCharCode(actual))))
  }

  /** Keys with a name of their own, and the codepoint they are expected to have. */
  function NamedKey(key: string): Option<int> {
    if key == "space" then Some(SPACE)
    else if key == "tab" then Some(TAB)
    else if key == "backspace" then Some(BACKSPACE)
    else if key == "insert" then Some(INSERT)
    else if key == "delete" then Some(DELETE)
    else if key == "home" then Some(HOME)
    else if key == "end" then Some(END)
    else if key == "pageup" then Some(PAGE_UP)
    else if key == "pagedown" then Some(PAGE_DOWN)
    else if key == "up" then Some(UP)
    else if key == "down" then Some(DOWN)
    else if key == "left" then Some(LEFT)
    else if key == "right" then Some(RIGHT)
    else None
  }

  predicate IsPrintableKey(key: string) {
    |key| == 1 && (IsLetterCode(key[0] as int) || IsDigitCode(key[0] as int) || IsSymbolCode(key[0] as int))
  }

  /**
   * matchesKey on data that is a Kitty report; `legacy` says whether the data is also one of the other forms that
   * are accepted for the key.
   */
  predicate MatchesKey(r: Report, id: string, legacy: bool) {
    var parsed := ParseKeyId(id);
    parsed.Some?
    && var KeyId(key, modifier) := parsed.value;
       if key == "escape" || key == "esc" then modifier == 0 && (legacy || MatchesKitty(r, ESCAPE, 0))
       else if key == "enter" || key == "return" then
         legacy || MatchesKitty(r, ENTER, modifier) || MatchesKitty(r, KP_ENTER, modifier)
       else if NamedKey(key).Some? then legacy || MatchesKitty(r, NamedKey(key).value, modifier)
       else if IsPrintableKey(key) then legacy || MatchesKitty(r, key[0] as int, modifier)
       else legacy
  }

  // ----- the two agree

  lemma {:induction false} SplitFirst(a: string, s: string)
    requires '+' !in a
    ensures SplitPlus(a + "+" + s) == [a] + SplitPlus(s)
  {
    if a == "" {
      assert (a + "+" + s)[1..] == s;
    } else {
      SplitFirst(a[1..], s);
      assert (a + "+" + s)[1..] == a[1..] + "+" + s;
      assert [a[0]] + a[1..] == a;
    }
  }

  lemma {:induction false} SplitOne(a: string)
    requires '+' !in a
    ensures SplitPlus(a) == [a]
  {
    if a != "" {
      SplitOne(a[1..]);
      assert [a[0]] + a[1..] == a;
    }
  }

  predicate PlusFree(parts: seq<string>) { forall i | 0 <= i < |parts| :: '+' !in parts[i] }

  lemma {:induction false} SplitJoin(parts: seq<string>, last: string)
    requires PlusFree(parts)
    ensures SplitPlus(JoinPlus(parts + [last])) == parts + SplitPlus(last)
  {
    if parts == [] {
      assert parts + [last] == [last] && [] + SplitPlus(last) == SplitPlus(last);
    } else {
      assert (parts + [last])[1..] == parts[1..] + [last];
      SplitJoin(parts[1..], last);
      SplitFirst(parts[0], JoinPlus(parts[1..] + [last]));
      assert [parts[0]] + (parts[1..] + SplitPlus(last)) == parts + SplitPlus(last);
    }
  }

  predicate IsLower(s: string) { ToLower(s) == s }

  predicate AllLower(parts: seq<string>) { forall i | 0 <= i < |parts| :: IsLower(parts[i]) }

  lemma {:induction false} LowerConcat(a: string, b: string)
    ensures ToLower(a + b) == ToLower(a) + ToLower(b)
  {
  }

  lemma {:induction false} LowerJoin(parts: seq<string>, last: string)
    requires AllLower(parts)
    ensures ToLower(JoinPlus(parts + [last])) == JoinPlus(parts + [ToLower(last)])
  {
    if parts == [] {
      assert parts + [last] == [last] && parts + [ToLower(last)] == [ToLower(last)];
    } else {
      assert (parts + [last])[1..] == parts[1..] + [last]
        && (parts + [ToLower(last)])[1..] == parts[1..] + [ToLower(last)];
      LowerJoin(parts[1..], last);
      LowerConcat(parts[0] + "+", JoinPlus(parts[1..] + [last]));
      LowerConcat(parts[0], "+");
      assert IsLower(parts[0]) && ToLower("+") == "+";
    }
  }

  lemma {:induction false} NamesAreLower()
    ensures IsLower("shift") && IsLower("ctrl") && IsLower("alt") && IsLower("super")
    ensures '+' !in "shift" && '+' !in "ctrl" && '+' !in "alt" && '+' !in "super"
  {
  }

  predicate IsModifierName(s: string) { s == "shift" || s == "ctrl" || s == "alt" || s == "super" }

  lemma {:induction false} OnlyModifierNames(e: nat)
    ensures forall i | 0 <= i < |ModifierNames(e)| :: IsModifierName(ModifierNames(e)[i])
  {
  }

  lemma {:induction false} NamesAreSimple(e: nat)
    ensures PlusFree(ModifierNames(e)) && AllLower(ModifierNames(e))
  {
    NamesAreLower();
    OnlyModifierNames(e);
  }

  lemma {:induction false} NamesAreBits(e: nat)
    ensures "shift" in ModifierNames(e) <==> HasBit(e, SHIFT)
    ensures "ctrl" in ModifierNames(e) <==> HasBit(e, CTRL)
    ensures "alt" in ModifierNames(e) <==> HasBit(e, ALT)
    ensures "super" in ModifierNames(e) <==> HasBit(e, SUPER)
  {
  }

  lemma {:induction false} FourBits(e: nat)
    requires e < 16
    ensures e == (if HasBit(e, SHIFT) then SHIFT else 0) + (if HasBit(e, ALT) then ALT else 0)
                 + (if HasBit(e, CTRL) then CTRL else 0) + (if HasBit(e, SUPER) then SUPER else 0)
  {
  }

  lemma {:induction false} PartsOfId(name: string, e: nat, id: string)
    requires id == JoinPlus(ModifierNames(e) + [name])
    ensures SplitPlus(ToLower(id)) == ModifierNames(e) + SplitPlus(ToLower(name))
  {
    NamesAreSimple(e);
    LowerJoin(ModifierNames(e), name);
    SplitJoin(ModifierNames(e), ToLower(name));
  }

  lemma {:induction false} KeyOfNames(e: nat, key: string)
    requires e < 16 && key != "" && !IsModifierName(key)
    ensures KeyOf(ModifierNames(e) + [key]) == Some(KeyId(key, e))
  {
    NamesAreBits(e);
    FourBits(e);
  }

  lemma {:induction false} PlusSplits()
    ensures SplitPlus(ToLower("+")) == ["", ""]
  {
    assert ToLower("+") == "+";
  }

  /** Writing a name with its modifiers and reading it back gives the key and the modifiers, unless the key is plus. */
  lemma {:induction false} IdIsRead(name: string, modifier: int)
    requires FormatKeyName(name, modifier).Some? && name != "" && !IsModifierName(ToLower(name))
    requires name == "+" || '+' !in ToLower(name)
    ensures ParseKeyId(FormatKeyName(name, modifier).value)
         == if name == "+" then None else Some(KeyId(ToLower(name), WithoutLocks(modifier)))
  {
    var e, id := WithoutLocks(modifier), FormatKeyName(name, modifier).value;
    PartsOfId(name, e, id);
    if name == "+" {
      PlusSplits();
    } else {
      SplitOne(ToLower(name));
      KeyOfNames(e, ToLower(name));
    }
  }

  /** A key that is named by its one character. */
  lemma {:induction false} SingleIsKnown(code: int)
    requires IsLetterCode(code) || IsDigitCode(code) || IsSymbolCode(code)
    ensures ToLower(Single(code)) == Single(code) && |Single(code)| == 1 && Single(code)[0] as int == code
    ensures '+' in Single(code) ==> Single(code) == "+"
  {
  }

  predicate IsWord(name: string) {
    name in ["escape", "tab", "enter", "space", "backspace", "delete", "insert", "home", "end", "up", "down", "left",
             "right"]
  }

  lemma {:induction false} WordIsLower(name: string)
    requires IsWord(name)
    ensures ToLower(name) == name && '+' !in name && |name| > 1
  {
  }

  lemma {:induction false} PageKeys()
    ensures ToLower("pageUp") == "pageup" && ToLower("pageDown") == "pagedown"
  {
  }

  /** What the name of a codepoint becomes in an identifier, and that it stands for that codepoint there. */
  predicate Stands(codepoint: int, name: string, key: string) {
    && name != "" && !IsModifierName(key)
    && (name == "+" || '+' !in key) && (key == "escape" ==> name == "escape") && key != "esc" && key != "return"
    && (if key == "escape" then codepoint == ESCAPE
        else if key == "enter" then codepoint == ENTER || codepoint == KP_ENTER
        else if NamedKey(key).Some? then codepoint == NamedKey(key).value
        else IsPrintableKey(key) && codepoint == key[0] as int)
  }

  /** Codepoints that String.fromCharCode does not cut, and the numbers below zero that keys without one have. */
  predicate In16Bits(codepoint: int) { -16 < codepoint < 65536 }

  predicate IsSingle(codepoint: int) { IsLetterCode(codepoint) || IsDigitCode(codepoint) || IsSymbolCode(codepoint) }

  lemma {:induction false} SingleIsNamed(codepoint: int)
    requires IsSingle(codepoint)
    ensures KeyName(codepoint) == Some(Single(codepoint))
            && Stands(codepoint, Single(codepoint), ToLower(Single(codepoint)))
  {
    SingleIsKnown(codepoint);
  }

  lemma {:induction false} PageIsNamed(codepoint: int)
    requires codepoint == PAGE_UP || codepoint == PAGE_DOWN
    ensures KeyName(codepoint).Some? && Stands(codepoint, KeyName(codepoint).value, ToLower(KeyName(codepoint).value))
  {
    PageKeys();
  }

  predicate IsOther(codepoint: int) {
    In16Bits(codepoint) && !IsSingle(codepoint) && codepoint != PAGE_UP && codepoint != PAGE_DOWN
  }

  lemma {:induction false} OtherIsWord(codepoint: int, name: string)
    requires KeyName(codepoint) == Some(name) && IsOther(codepoint)
    ensures IsWord(name)
  {
  }

  lemma {:induction false} OtherStands(codepoint: int, name: string)
    requires KeyName(codepoint) == Some(name) && IsOther(codepoint)
    ensures if name == "escape" then codepoint == ESCAPE
            else if name == "enter" then codepoint == ENTER || codepoint == KP_ENTER
            else NamedKey(name) == Some(codepoint)
  {
  }

  lemma {:induction false} WordIsNamed(codepoint: int, name: string)
    requires KeyName(codepoint) == Some(name) && IsOther(codepoint)
    ensures IsWord(name) && Stands(codepoint, name, name)
  {
    OtherIsWord(codepoint, name);
    OtherStands(codepoint, name);
    WordIsLower(name);
    WordIsNoModifier(name);
  }

  lemma {:induction false} WordIsNoModifier(name: string)
    requires IsWord(name)
    ensures !IsModifierName(name) && name != "esc" && name != "return" && name != ""
  {
  }

  lemma {:induction false} NameIsKnown(codepoint: int)
    requires KeyName(codepoint).Some? && In16Bits(codepoint)
    ensures Stands(codepoint, KeyName(codepoint).value, ToLower(KeyName(codepoint).value))
  {
    if IsSingle(codepoint) {
      SingleIsNamed(codepoint);
    } else if codepoint == PAGE_UP || codepoint == PAGE_DOWN {
      PageIsNamed(codepoint);
    } else {
      var name := KeyName(codepoint).value;
      WordIsNamed(codepoint, name);
      WordIsLower(name);
    }
  }

  lemma {:induction false} SmallHasNoLocks(e: nat)
    requires e < 16
    ensures WithoutLocks(e) == e
  {
  }

  lemma {:induction false} NormalizeTwice(codepoint: int, modifier: int, e: nat)
    requires e == WithoutLocks(modifier) && e < 16
    ensures var identity := NormalizeShifted(NormalizeFunctional(codepoint), modifier);
            NormalizeShifted(NormalizeFunctional(identity), e) == identity
  {
    SmallHasNoLocks(e);
  }

  /** The codepoint that a report is named after is one that it matches. */
  lemma {:induction false} MatchesNamed(r: Report)
    requires WithoutLocks(r.modifier) < 16
    ensures MatchesKitty(r, NamedCodepoint(r), WithoutLocks(r.modifier))
  {
    SmallHasNoLocks(WithoutLocks(r.modifier));
    NormalizeTwice(r.codepoint, r.modifier, WithoutLocks(r.modifier));
  }

  lemma {:induction false} MatchesId(r: Report, codepoint: int, name: string, key: string, e: nat, id: string,
                                     legacy: bool)
    requires Stands(codepoint, name, key) && ParseKeyId(id) == Some(KeyId(key, e)) && MatchesKitty(r, codepoint, e)
    ensures MatchesKey(r, id, legacy) <==> !(key == "escape" && e != 0)
  {
  }

  lemma {:induction false} OnlySinglesAreShort(codepoint: int, name: string)
    requires KeyName(codepoint) == Some(name) && In16Bits(codepoint) && !IsSingle(codepoint)
    ensures |name| > 1
  {
    if IsOther(codepoint) {
      OtherIsWord(codepoint, name);
      WordIsLower(name);
    }
  }

  lemma {:induction false} PlusIsNamed(codepoint: int, name: string)
    requires KeyName(codepoint) == Some(name) && In16Bits(codepoint)
    ensures name == "+" <==> FromCharCode(codepoint) == '+' as int
  {
    if IsSingle(codepoint) {
      SingleIsNamed(codepoint);
      SingleIsKnown(codepoint);
    } else {
      OnlySinglesAreShort(codepoint, name);
    }
  }

  lemma {:induction false} EscapeIsNamed(codepoint: int)
    requires KeyName(codepoint).Some? && In16Bits(codepoint)
    ensures ToLower(KeyName(codepoint).value) == "escape" <==> codepoint == ESCAPE
  {
    NameIsKnown(codepoint);
    WordIsLower("escape");
  }

  lemma {:induction false} NarrowDecodersAgree(r: Report, id: string, legacy: bool)
    requires In16Bits(NamedCodepoint(r)) && ParseKey(r) == Some(id)
    ensures MatchesKey(r, id, legacy)
            <==> && FromCharCode(NamedCodepoint(r)) != '+' as int
                 && !(NamedCodepoint(r) == ESCAPE && WithoutLocks(r.modifier) != 0)
  {
    var codepoint := NamedCodepoint(r);
    var name := KeyName(codepoint).value;
    NameIsKnown(codepoint);
    PlusIsNamed(codepoint, name);
    EscapeIsNamed(codepoint);
    IdIsRead(name, r.modifier);
    if name != "+" {
      MatchesNamed(r);
      MatchesId(r, codepoint, name, ToLower(name), WithoutLocks(r.modifier), id, legacy);
    }
  }

  /** Beyond 16 bits only a symbol that is left after cutting gives a name. */
  lemma {:induction false} WideName(codepoint: int)
    requires !In16Bits(codepoint) && KeyName(codepoint).Some?
    ensures var code := FromCharCode(codepoint); IsSymbolCode(code) && KeyName(codepoint) == Some(Single(code))
  {
  }

  /** The report then has that symbol neither as its key nor as the one of its layout. */
  lemma {:induction false} WideIsNoSymbol(r: Report, code: int, e: nat)
    requires !In16Bits(NamedCodepoint(r)) && code == FromCharCode(NamedCodepoint(r)) && IsSymbolCode(code)
    ensures !MatchesKitty(r, code, e)
  {
    assert NormalizeFunctional(code) == code && NormalizeShifted(code, e) == code;
  }

  lemma {:induction false} SymbolIsPrintable(code: int, key: string)
    requires IsSymbolCode(code) && key == Single(code)
    ensures IsPrintableKey(key) && key[0] as int == code && ToLower(key) == key && (key == "+" <==> code == '+' as int)
  {
    SingleIsKnown(code);
  }

  /** A key of one character is recognised by the Kitty report or by another form. */
  lemma {:induction false} PrintableMatches(r: Report, id: string, key: string, e: nat, legacy: bool)
    requires IsPrintableKey(key) && ParseKeyId(id) == Some(KeyId(key, e)) && !MatchesKitty(r, key[0] as int, e)
    ensures MatchesKey(r, id, legacy) <==> legacy
  {
  }

  lemma {:induction false} WideDecodersDiffer(r: Report, id: string, legacy: bool)
    requires !In16Bits(NamedCodepoint(r)) && ParseKey(r) == Some(id)
    ensures MatchesKey(r, id, legacy) <==> FromCharCode(NamedCodepoint(r)) != '+' as int && legacy
  {
    var code := FromCharCode(NamedCodepoint(r));
    WideName(NamedCodepoint(r));
    var key := Single(code);
    SymbolIsPrintable(code, key);
    SingleIsKnown(code);
    IdIsRead(key, r.modifier);
    if code != '+' as int {
      WideIsNoSymbol(r, code, WithoutLocks(r.modifier));
      PrintableMatches(r, id, key, WithoutLocks(r.modifier), legacy);
    }
  }

  /**
   * A report that parseKey names is recognised by that name, through keypad keys, shifted letters, lock bits and
   * layouts, if and only if the key is not plus, not escape with modifiers, and its codepoint was not cut to 16 bits,
   * unless the data happens to be another form of the key that the cut named.
   */
  lemma {:induction false} DecodersAgree(r: Report, id: string, legacy: bool)
    requires ParseKey(r) == Some(id)
    ensures MatchesKey(r, id, legacy)
            <==> && FromCharCode(NamedCodepoint(r)) != '+' as int
                 && !(NamedCodepoint(r) == ESCAPE && WithoutLocks(r.modifier) != 0)
                 && (In16Bits(NamedCodepoint(r)) || legacy)
  {
    if In16Bits(NamedCodepoint(r)) {
      NarrowDecodersAgree(r, id, legacy);
    } else {
      WideDecodersDiffer(r, id, legacy);
    }
  }

  /**
   * A symbol's codepoint with further bits above the 16th is named after the symbol, but not recognised by that name.
   */
  lemma {:induction false} WideCodepointsDiffer(r: Report)
    requires 65536 <= r.codepoint && IsSymbolCode(FromCharCode(r.codepoint)) && WithoutLocks(r.modifier) < 16
    ensures ParseKey(r).Some? && !MatchesKey(r, ParseKey(r).value, false)
  {
    assert NamedCodepoint(r) == r.codepoint;
    DecodersAgree(r, ParseKey(r).value, false);
  }
}
