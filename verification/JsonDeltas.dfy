/**
 * Printing a JSON object while its one string property is still growing: packages/ai/src/api/constrained-sampling.ts.
 */
module JsonDeltas {
  import opened Common
  import opened Utf16

  const QUOTE: Unit := '"' as int
  const BACKSLASH: Unit := '\\' as int

  predicate IsHigh(u: Unit) { 0xd800 <= u <= 0xdbff }

  predicate IsLow(u: Unit) { 0xdc00 <= u <= 0xdfff }

  // ----- JSON.stringify, without the quotes

  function HexDigit(n: int): Unit
    requires 0 <= n < 16
  {
    if n < 10 then '0' as int + n else 'a' as int + (n - 10)
  }

  function UnicodeEscape(u: Unit): Text {
    [BACKSLASH, 'u' as int, HexDigit(u / 4096), HexDigit(u / 256 % 16), HexDigit(u / 16 % 16), HexDigit(u % 16)]
  }

  /** The letter of a two-character escape. */
  function ShortEscape(u: Unit): Option<Unit> {
    if u == QUOTE then Some(QUOTE)
    else if u == BACKSLASH then Some(BACKSLASH)
    else if u == 0x08 then Some('b' as int)
    else if u == 0x0c then Some('f' as int)
    else if u == 0x0a then Some('n' as int)
    else if u == 0x0d then Some('r' as int)
    else if u == 0x09 then Some('t' as int)
    else None
  }

  /** A unit that is not half of a surrogate pair. */
  function EncodeUnit(u: Unit): Text {
    if ShortEscape(u).Some? then [BACKSLASH, ShortEscape(u).value]
    else if u < 0x20 || IsHigh(u) || IsLow(u) then UnicodeEscape(u)
    else [u]
  }

  predicate StartsWithPair(s: Text) { |s| >= 2 && IsHigh(s[0]) && IsLow(s[1]) }

  /** Surrogate pairs stay as they are, lone surrogates are escaped. */
  function Encode(s: Text): Text {
    if s == [] then []
    else if StartsWithPair(s) then s[..2] + Encode(s[2..])
    else EncodeUnit(s[0]) + Encode(s[1..])
  }

  // ----- reading strings: RFC 8259, section 7

  function HexValue(u: Unit): Option<int>
    ensures HexValue(u).Some? ==> 0 <= HexValue(u).value < 16
  {
    if '0' as int <= u <= '9' as int then Some(u - '0' as int)
    else if 'a' as int <= u <= 'f' as int then Some(u - 'a' as int + 10)
    else if 'A' as int <= u <= 'F' as int then Some(u - 'A' as int + 10)
    else None
  }

  function Unescape(letter: Unit): Option<Unit> {
    if letter == QUOTE || letter == BACKSLASH || letter == '/' as int then Some(letter)
    else if letter == 'b' as int then Some(0x08)
    else if letter == 'f' as int then Some(0x0c)
    else if letter == 'n' as int then Some(0x0a)
    else if letter == 'r' as int then Some(0x0d)
    else if letter == 't' as int then Some(0x09)
    else None
  }

  function HexUnit(text: Text): Option<Unit>
    requires |text| >= 4
  {
    var a, b, c, d := HexValue(text[0]), HexValue(text[1]), HexValue(text[2]), HexValue(text[3]);
    if a.Some? && b.Some? && c.Some? && d.Some? then Some(a.value * 4096 + b.value * 256 + c.value * 16 + d.value)
    else None
  }

  /** A string that was read, and the text after its closing quote. */
  datatype Read = Read(value: Text, rest: Text)

  function Prepend(s: Text, read: Option<Read>): Option<Read> {
    if read.Some? then Some(Read(s + read.value.value, read.value.rest)) else None
  }

  /** Reads what follows an opening quote. */
  function ReadString(text: Text): Option<Read>
    decreases |text|
  {
    if text == [] then None
    else if text[0] == QUOTE then Some(Read([], text[1..]))
    else if text[0] == BACKSLASH then
      if |text| >= 6 && text[1] == 'u' as int then
        if HexUnit(text[2..6]).Some? then Prepend([HexUnit(text[2..6]).value], ReadString(text[6..])) else None
      else if |text| >= 2 && Unescape(text[1]).Some? then Prepend([Unescape(text[1]).value], ReadString(text[2..]))
      else None
    else if text[0] < 0x20 then None
    else Prepend([text[0]], ReadString(text[1..]))
  }

  datatype Property = Property(name: Text, value: Text)

  /** Reads an object with one property, a string. */
  function ReadObject(text: Text): Option<Property> {
    if !StartsWith(text, ['{' as int, QUOTE]) then None
    else
      var name := ReadString(text[2..]);
      if name.None? || !StartsWith(name.value.rest, [':' as int, QUOTE]) then None
      else
        var value := ReadString(name.value.rest[2..]);
        if value.Some? && value.value.rest == ['}' as int] then Some(Property(name.value.value, value.value.value))
        else None
  }

  // ----- what is printed is read back

  lemma {:induction false} HexDigitValue(n: int)
    requires 0 <= n < 16
    ensures HexValue(HexDigit(n)) == Some(n)
  {
  }

  lemma {:induction false} FourDigits(u: Unit)
    ensures u / 4096 * 4096 + u / 256 % 16 * 256 + u / 16 % 16 * 16 + u % 16 == u && 0 <= u / 4096 < 16
  {
    var a, b := u / 16, u / 256;
    assert u == a * 16 + u % 16;
    assert a / 16 == b && a == b * 16 + a % 16;
    assert b / 16 == u / 4096 && b == u / 4096 * 16 + b % 16;
  }

  lemma {:induction false} HexRoundTrip(u: Unit)
    ensures HexUnit(UnicodeEscape(u)[2..6]) == Some(u)
  {
    var a, b, c, d := u / 4096, u / 256 % 16, u / 16 % 16, u % 16;
    FourDigits(u);
    assert UnicodeEscape(u)[2..6] == [HexDigit(a), HexDigit(b), HexDigit(c), HexDigit(d)];
    HexOfDigits(a, b, c, d);
  }

  lemma {:induction false} HexOfDigits(a: nat, b: nat, c: nat, d: nat)
    requires a < 16 && b < 16 && c < 16 && d < 16
    ensures HexUnit([HexDigit(a), HexDigit(b), HexDigit(c), HexDigit(d)]) == Some(a * 4096 + b * 256 + c * 16 + d)
  {
    HexDigitValue(a);
    HexDigitValue(b);
    HexDigitValue(c);
    HexDigitValue(d);
  }

  lemma {:induction false} RawIsRead(u: Unit, tail: Text)
    requires u >= 0x20 && u != QUOTE && u != BACKSLASH
    ensures ReadString([u] + tail) == Prepend([u], ReadString(tail))
  {
    assert ([u] + tail)[1..] == tail;
  }

  lemma {:induction false} UnitIsRead(u: Unit, tail: Text)
    ensures ReadString(EncodeUnit(u) + tail) == Prepend([u], ReadString(tail))
  {
    var text := EncodeUnit(u) + tail;
    if ShortEscape(u).Some? {
      assert text[2..] == tail;
    } else if u < 0x20 || IsHigh(u) || IsLow(u) {
      HexRoundTrip(u);
      assert text[2..6] == UnicodeEscape(u)[2..6] && text[6..] == tail;
    } else {
      assert text[1..] == tail;
    }
  }

  lemma {:induction false} PrependTwice(a: Text, b: Text, read: Option<Read>)
    ensures Prepend(a, Prepend(b, read)) == Prepend(a + b, read)
  {
    if read.Some? {
      assert a + (b + read.value.value) == a + b + read.value.value;
    }
  }

  lemma {:induction false} PairGoesOn(s: Text, more: Text, tail: Text)
    requires StartsWithPair(s) && ReadString(more + tail) == Prepend(s[2..], ReadString(tail))
    ensures ReadString(s[..2] + more + tail) == Prepend(s, ReadString(tail))
  {
    assert s[..2] + more + tail == [s[0]] + ([s[1]] + (more + tail));
    RawIsRead(s[0], [s[1]] + (more + tail));
    RawIsRead(s[1], more + tail);
    PrependTwice([s[1]], s[2..], ReadString(tail));
    PrependTwice([s[0]], [s[1]] + s[2..], ReadString(tail));
    assert [s[0]] + ([s[1]] + s[2..]) == s;
  }

  lemma {:induction false} UnitGoesOn(s: Text, more: Text, tail: Text)
    requires s != [] && ReadString(more + tail) == Prepend(s[1..], ReadString(tail))
    ensures ReadString(EncodeUnit(s[0]) + more + tail) == Prepend(s, ReadString(tail))
  {
    assert EncodeUnit(s[0]) + more + tail == EncodeUnit(s[0]) + (more + tail);
    UnitIsRead(s[0], more + tail);
    PrependTwice([s[0]], s[1..], ReadString(tail));
    assert [s[0]] + s[1..] == s;
  }

  /** Whatever follows, an encoded text is read back first: no escape reaches over its end. */
  lemma {:induction false} EncodedIsRead(s: Text, tail: Text)
    ensures ReadString(Encode(s) + tail) == Prepend(s, ReadString(tail))
    decreases |s|
  {
    if s == [] {
      assert Encode(s) + tail == tail;
      if ReadString(tail).Some? { assert [] + ReadString(tail).value.value == ReadString(tail).value.value; }
    } else if StartsWithPair(s) {
      EncodedIsRead(s[2..], tail);
      PairGoesOn(s, Encode(s[2..]), tail);
    } else {
      EncodedIsRead(s[1..], tail);
      UnitGoesOn(s, Encode(s[1..]), tail);
    }
  }

  function EncodeAll(parts: seq<Text>): Text {
    if parts == [] then [] else EncodeAll(parts[..|parts| - 1]) + Encode(parts[|parts| - 1])
  }

  /** Parts that were encoded one by one are read as one text, also where a surrogate pair was cut in two. */
  lemma {:induction false} PartsAreRead(parts: seq<Text>, tail: Text)
    ensures ReadString(EncodeAll(parts) + tail) == Prepend(Flatten(parts), ReadString(tail))
  {
    if parts == [] {
      assert [] + tail == tail;
      if ReadString(tail).Some? { assert [] + ReadString(tail).value.value == ReadString(tail).value.value; }
    } else {
      var init, last := parts[..|parts| - 1], parts[|parts| - 1];
      assert EncodeAll(parts) + tail == EncodeAll(init) + (Encode(last) + tail);
      PartsAreRead(init, Encode(last) + tail);
      EncodedIsRead(last, tail);
      PrependTwice(Flatten(init), last, ReadString(tail));
    }
  }

  function Opening(property: Text): Text {
    ['{' as int, QUOTE] + Encode(property) + [QUOTE, ':' as int, QUOTE]
  }

  const CLOSING: Text := [QUOTE, '}' as int]

  lemma {:induction false} PropertyIsRead(property: Text, body: Text)
    ensures StartsWith(Opening(property) + body, ['{' as int, QUOTE])
    ensures ReadString((Opening(property) + body)[2..]) == Some(Read(property, [':' as int, QUOTE] + body))
  {
    var rest := [':' as int, QUOTE] + body;
    assert (Opening(property) + body)[2..] == Encode(property) + ([QUOTE] + rest);
    EncodedIsRead(property, [QUOTE] + rest);
    assert ([QUOTE] + rest)[1..] == rest && property + [] == property;
  }

  /** The printed parts, opened and closed, are the object with the whole text as its one property. */
  lemma {:induction false} ObjectIsRead(property: Text, parts: seq<Text>)
    ensures ReadObject(Opening(property) + EncodeAll(parts) + CLOSING) == Some(Property(property, Flatten(parts)))
  {
    var body := EncodeAll(parts) + CLOSING;
    assert Opening(property) + EncodeAll(parts) + CLOSING == Opening(property) + body;
    PropertyIsRead(property, body);
    assert ([':' as int, QUOTE] + body)[2..] == body;
    PartsAreRead(parts, CLOSING);
    assert CLOSING[1..] == ['}' as int] && Flatten(parts) + [] == Flatten(parts);
  }

  /** A delta is whole: it can be read on its own, so none ends within an escape. */
  lemma {:induction false} PartIsWhole(part: Text)
    ensures ReadString(Encode(part) + [QUOTE]) == Some(Read(part, []))
  {
    EncodedIsRead(part, [QUOTE]);
    assert part + [] == part && [QUOTE][1..] == [];
  }

  /** Cut in two between the halves of a surrogate pair, the text is printed differently but read the same. */
  lemma {:induction false} CutPair(high: Unit, low: Unit, tail: Text)
    requires IsHigh(high) && IsLow(low)
    ensures EncodeAll([[high], [low]]) != Encode([high, low])
    ensures ReadString(EncodeAll([[high], [low]]) + tail) == ReadString(Encode([high, low]) + tail)
  {
    var parts := [[high], [low]];
    assert parts[..1] == [[high]] && [[high]][..0] == [] && [high] + [low] == [high, low];
    assert Flatten([[high]]) == [] + [high] == [high] && Flatten(parts) == [high] + [low];
    PartsAreRead(parts, tail);
    EncodedIsRead([high, low], tail);
    assert Encode([high])[0] == BACKSLASH && Encode([high, low])[0] == high;
    assert [] + Encode([high]) == Encode([high]);
  }

  // ----- the buffer

  datatype Appended = Nothing | Delta(text: Text) | ChangedAfterClose | ChangedNonMonotonically

  class GrammarToolInputJsonBuffer {
    var input: Text
    var started: bool
    var closed: bool
    /** All deltas so far, what each of them added, and the property the first of them was printed for. */
    ghost var printed: Text
    ghost var parts: seq<Text>
    ghost var property: Text

    ghost predicate Valid()
      reads this
    {
      && Flatten(parts) == input
      && printed == (if started then Printed(property, parts, closed) else [])
      && (!started ==> parts == [] && !closed)
    }

    constructor ()
      ensures Valid() && input == [] && !started && !closed
    {
      input, started, closed := [], false, false;
      printed, parts, property := [], [], [];
    }

    /** Once closed, all that was printed is the object with the whole input. */
    lemma {:induction false} ClosedIsRead()
      requires Valid()
      ensures closed ==> ReadObject(printed) == Some(Property(property, input))
    {
      if closed { ObjectIsRead(property, parts); }
    }

    /** What is printed for more input. */
    method PrintDelta(inputProperty: Text, inputDelta: Text, close: bool) returns (delta: Text)
      ensures delta == DeltaText(started, inputProperty, inputDelta, close)
    {
      delta := [];
      if !started {
        delta := delta + Opening(inputProperty);
      }
      delta := delta + Encode(inputDelta);
      if close {
        delta := delta + CLOSING;
      }
      DeltaIs(started, inputProperty, inputDelta, close, delta);
    }

    /** More input, or the end of it: the only outcome that changes anything. */
    method AppendMore(inputProperty: Text, nextInput: Text, close: bool) returns (delta: Text)
      requires Valid() && !closed && input <= nextInput
      modifies this
      ensures Valid() && property == (if old(started) then old(property) else inputProperty)
      ensures delta == DeltaText(old(started), inputProperty, nextInput[|old(input)|..], close)
      ensures printed == old(printed) + delta && input == nextInput && started && closed == close
    {
      var inputDelta := nextInput[|input|..];
      delta := PrintDelta(inputProperty, inputDelta, close);
      if !started { property := inputProperty; }
      MorePrinted(property, parts, started, input, nextInput, close, delta, printed);
      printed, parts := printed + delta, parts + [inputDelta];
      started, input, closed := true, nextInput, close;
    }

    /** appendGrammarToolInputJsonDelta. */
    method Append(inputProperty: Text, nextInput: Text, close: bool) returns (r: Appended)
      requires Valid()
      modifies this
      ensures Valid() && property == (if r.Delta? && !old(started) then inputProperty else old(property))
      ensures r == ChangedAfterClose <==> old(closed) && !(close && nextInput == old(input))
      ensures r == ChangedNonMonotonically <==> !old(closed) && !(old(input) <= nextInput)
      ensures r == Nothing <==> nextInput == old(input) && close == old(closed)
      ensures !r.Delta? ==> unchanged(this)
      ensures r.Delta? ==> old(input) <= nextInput
      ensures r.Delta? ==> r.text == DeltaText(old(started), inputProperty, nextInput[|old(input)|..], close)
      ensures r.Delta? ==> printed == old(printed) + r.text && input == nextInput && started && closed == close
      ensures closed ==> ReadObject(printed) == Some(Property(property, input))
    {
      ClosedIsRead();
      if closed {
        if close && nextInput == input { return Nothing; }
        return ChangedAfterClose;
      }
      if !(input <= nextInput) { return ChangedNonMonotonically; }
      NothingNew(input, nextInput);
      if !close && |nextInput[|input|..]| == 0 { return Nothing; }
      var delta := AppendMore(inputProperty, nextInput, close);
      ClosedIsRead();
      return Delta(delta);
    }
  }

  lemma {:induction false} MorePrinted(property: Text, parts: seq<Text>, started: bool, input: Text, nextInput: Text,
                                       close: bool, delta: Text, printed: Text)
    requires Flatten(parts) == input && input <= nextInput && (!started ==> parts == [])
    requires printed == (if started then Printed(property, parts, false) else [])
    requires delta == DeltaText(started, property, nextInput[|input|..], close)
    ensures Flatten(parts + [nextInput[|input|..]]) == nextInput
    ensures printed + delta == Printed(property, parts + [nextInput[|input|..]], close)
  {
    var inputDelta := nextInput[|input|..];
    PrintNext(property, parts, started, inputDelta, close, delta);
    FlattenSnoc(parts, inputDelta);
    assert input + inputDelta == nextInput;
  }

  lemma {:induction false} NothingNew(input: Text, nextInput: Text)
    requires input <= nextInput
    ensures |nextInput[|input|..]| == 0 <==> nextInput == input
  {
  }

  function DeltaText(started: bool, property: Text, inputDelta: Text, close: bool): Text {
    (if started then [] else Opening(property)) + Encode(inputDelta) + (if close then CLOSING else [])
  }

  function Printed(property: Text, parts: seq<Text>, closed: bool): Text {
    Opening(property) + EncodeAll(parts) + (if closed then CLOSING else [])
  }

  lemma {:induction false} DeltaIs(started: bool, property: Text, inputDelta: Text, close: bool, delta: Text)
    requires delta
             == (if started then [] else [] + Opening(property)) + Encode(inputDelta) + (if close then CLOSING else [])
          || (!close && delta == (if started then [] else [] + Opening(property)) + Encode(inputDelta))
    ensures delta == DeltaText(started, property, inputDelta, close)
  {
    assert [] + Opening(property) == Opening(property);
  }

  lemma {:induction false} PrintFirst(opening: Text, encoded: Text, tail: Text)
    ensures [] + (opening + encoded + tail) == opening + ([] + encoded) + tail
  {
  }

  lemma {:induction false} PrintMore(opening: Text, before: Text, encoded: Text, tail: Text)
    ensures opening + before + [] + ([] + encoded + tail) == opening + (before + encoded) + tail
  {
    Assoc(opening, before, encoded);
    Assoc(opening + before, encoded, tail);
    assert [] + encoded == encoded && opening + before + [] == opening + before;
  }

  lemma {:induction false} PrintNext(property: Text, parts: seq<Text>, started: bool, inputDelta: Text, close: bool,
                                     delta: Text)
    requires (!started ==> parts == []) && delta == DeltaText(started, property, inputDelta, close)
    ensures (if started then Printed(property, parts, false) else []) + delta
            == Printed(property, parts + [inputDelta], close)
  {
    var opening, encoded, tail: Text := Opening(property), Encode(inputDelta), if close then CLOSING else [];
    assert (parts + [inputDelta])[..|parts|] == parts;
    assert EncodeAll(parts + [inputDelta]) == EncodeAll(parts) + encoded;
    if started {
      PrintMore(opening, EncodeAll(parts), encoded, tail);
    } else {
      PrintFirst(opening, encoded, tail);
    }
  }
}
