/** The tracker of packages/tui/src/utils.ts: the style state as fields that escape sequences update in place. */
module Tracker {
  import opened Common
  import opened AnsiCodes
  import opened StyleRoundTrip

  class AnsiCodeTracker {
    var bold: bool
    var dim: bool
    var italic: bool
    var underline: bool
    var blink: bool
    var inverse: bool
    var hidden: bool
    var strikethrough: bool
    var fgColor: Option<string>
    var bgColor: Option<string>
    var activeHyperlink: Option<Hyperlink>

    predicate IsOn(n: nat)
      reads this
    {
      match n
      case 1 => bold
      case 2 => dim
      case 3 => italic
      case 4 => underline
      case 5 => blink
      case 7 => inverse
      case 8 => hidden
      case 9 => strikethrough
      case _ => false
    }

    function Current(): Style
      reads this
    {
      Style((set n: nat | n < 10 && IsOn(n)), fgColor, bgColor, activeHyperlink)
    }

    constructor ()
      ensures Current() == PLAIN
    {
      bold, dim, italic, underline := false, false, false, false;
      blink, inverse, hidden, strikethrough := false, false, false, false;
      fgColor, bgColor, activeHyperlink := None, None, None;
    }

    /** An SGR reset leaves the hyperlink open. */
    method Reset()
      modifies this
      ensures Current() == ResetSgr(old(Current()))
    {
      bold, dim, italic, underline := false, false, false, false;
      blink, inverse, hidden, strikethrough := false, false, false, false;
      fgColor, bgColor := None, None;
    }

    method Clear()
      modifies this
      ensures Current() == PLAIN
    {
      Reset();
      activeHyperlink := None;
    }

    method SwitchOn(code: nat)
      requires IsAttribute(code)
      modifies this
      ensures Current() == Simple(old(Current()), code)
    {
      match code
      case 1 => bold := true;
      case 2 => dim := true;
      case 3 => italic := true;
      case 4 => underline := true;
      case 5 => blink := true;
      case 7 => inverse := true;
      case 8 => hidden := true;
      case _ => strikethrough := true;
    }

    method SwitchOff(code: nat)
      requires 10 <= code < 30
      modifies this
      ensures Current() == Simple(old(Current()), code)
    {
      match code
      case 21 => bold := false;
      case 22 => bold := false; dim := false;
      case 23 => italic := false;
      case 24 => underline := false;
      case 25 => blink := false;
      case 27 => inverse := false;
      case 28 => hidden := false;
      case 29 => strikethrough := false;
      case _ =>
    }

    method SetColor(code: int, colorCode: string)
      modifies `fgColor, `bgColor
      ensures Current() == Colored(old(Current()), code, colorCode)
    {
      if code == 38 { fgColor := Some(colorCode); } else { bgColor := Some(colorCode); }
      assert forall n :: IsOn(n) == old(IsOn(n));
    }

    method ApplyStandard(code: int)
      modifies this
      ensures Current() == Simple(old(Current()), code)
    {
      if code == 0 {
        Reset();
      } else if IsAttribute(code) {
        SwitchOn(code);
      } else if 10 <= code < 30 {
        SwitchOff(code);
      } else if code == 39 {
        fgColor := None;
      } else if code == 49 {
        bgColor := None;
      } else if StandardFg(code) {
        fgColor := Some(Decimal(code));
      } else if StandardBg(code) {
        bgColor := Some(Decimal(code));
      }
    }

    /** Feeds one escape sequence to the tracker. */
    method Process(ansiCode: string)
      modifies this
      ensures Current() == Processed(old(Current()), ansiCode)
    {
      var hyperlink := ParseOsc8(ansiCode);
      if hyperlink != NotALink {
        activeHyperlink := if hyperlink.Open? then Some(hyperlink.link) else None;
        return;
      }
      if ansiCode == "" || ansiCode[|ansiCode| - 1] != 'm' { return; }
      var match_ := SgrParams(ansiCode);
      if match_.None? { return; }
      var params := match_.value;
      if params == "" || params == "0" {
        Reset();
        return;
      }
      SplitParams(params);
      var parts := Split(params, ';');
      var i := 0;
      while i < |parts|
        invariant 0 <= i <= |parts|
        invariant Sgr(Current(), parts[i..]) == Sgr(old(Current()), parts)
      {
        var code := ParseInt(parts[i]);
        SgrAt(Current(), parts, i);
        if code == 38 || code == 48 {
          if i + 2 < |parts| && parts[i + 1] == "5" {
            SetColor(code, Join(parts[i..i + 3], ';'));
            i := i + 3;
            continue;
          } else if i + 4 < |parts| && parts[i + 1] == "2" {
            SetColor(code, Join(parts[i..i + 5], ';'));
            i := i + 5;
            continue;
          }
        }
        ApplyStandard(code);
        i := i + 1;
      }
    }

    method PushWeights(start: seq<string>) returns (codes: seq<string>)
      ensures start + AttributeCodes(Current().on, ATTRIBUTES[0..], ColorCodes(Current()))
           == codes + AttributeCodes(Current().on, ATTRIBUTES[3..], ColorCodes(Current()))
    {
      ghost var s := Current();
      codes := start;
      Pushed(s, codes, 0, bold, "1");
      if bold { codes := codes + ["1"]; }
      Pushed(s, codes, 1, dim, "2");
      if dim { codes := codes + ["2"]; }
      Pushed(s, codes, 2, italic, "3");
      if italic { codes := codes + ["3"]; }
    }

    method PushMiddle(start: seq<string>) returns (codes: seq<string>)
      ensures start + AttributeCodes(Current().on, ATTRIBUTES[3..], ColorCodes(Current()))
           == codes + AttributeCodes(Current().on, ATTRIBUTES[6..], ColorCodes(Current()))
    {
      ghost var s := Current();
      codes := start;
      Pushed(s, codes, 3, underline, "4");
      if underline { codes := codes + ["4"]; }
      Pushed(s, codes, 4, blink, "5");
      if blink { codes := codes + ["5"]; }
      Pushed(s, codes, 5, inverse, "7");
      if inverse { codes := codes + ["7"]; }
    }

    method PushLate(start: seq<string>) returns (codes: seq<string>)
      ensures start + AttributeCodes(Current().on, ATTRIBUTES[6..], ColorCodes(Current()))
           == codes + AttributeCodes(Current().on, ATTRIBUTES[8..], ColorCodes(Current()))
    {
      ghost var s := Current();
      codes := start;
      Pushed(s, codes, 6, hidden, "8");
      if hidden { codes := codes + ["8"]; }
      Pushed(s, codes, 7, strikethrough, "9");
      if strikethrough { codes := codes + ["9"]; }
    }

    method CollectCodes() returns (codes: seq<string>)
      ensures codes == SgrCodes(Current())
    {
      assert ATTRIBUTES[0..] == ATTRIBUTES && ATTRIBUTES[8..] == [];
      codes := PushWeights([]);
      codes := PushMiddle(codes);
      codes := PushLate(codes);
      assert [] + SgrCodes(Current()) == SgrCodes(Current()) == codes + ColorCodes(Current());
      if fgColor.Some? { codes := codes + [fgColor.value]; }
      if bgColor.Some? { codes := codes + [bgColor.value]; }
    }

    /** A cleared tracker that reads this has the same state again. */
    method GetActiveCodes() returns (result: string)
      ensures result == ActiveCodes(Current())
      ensures Trackable(Current()) ==> StyleAfter(PLAIN, result) == Current()
    {
      if Trackable(Current()) { ActiveCodesRestore(Current()); }
      var codes := CollectCodes();
      result := if |codes| > 0 then [ESC, '['] + Join(codes, ';') + "m" else "";
      if activeHyperlink.Some? {
        result := result + FormatOsc8(activeHyperlink.value);
      }
    }

    /** Whoever reads this has neither underline nor hyperlink on, and everything else as before. */
    method GetLineEndReset() returns (result: string)
      ensures result == LineEndReset(Current())
      ensures Trackable(Current()) ==> StyleAfter(Current(), result) == Closed(Current())
    {
      result := "";
      if underline {
        result := result + UNDERLINE_OFF;
      }
      assert result == UnderlineReset(Current());
      if activeHyperlink.Some? {
        result := result + FormatOsc8Close(activeHyperlink.value.terminator);
      }
      assert result == LineEndReset(Current());
      if Trackable(Current()) { LineEndResetReads(Current(), result); }
    }
  }

  /** One turn of the loop over the parameters, by index instead of by remaining list. */
  lemma {:induction false} SgrAt(s: Style, parts: seq<string>, i: nat)
    requires Params(parts) && i < |parts|
    ensures var code := ParseInt(parts[i]);
            var n := if (code == 38 || code == 48) && i + 2 < |parts| && parts[i + 1] == "5" then 3
                     else if (code == 38 || code == 48) && i + 4 < |parts| && parts[i + 1] == "2" then 5
                     else 1;
            Sgr(s, parts[i..]) ==
            Sgr(if n == 1 then Simple(s, code) else Colored(s, code, Join(parts[i..i + n], ';')), parts[i + n..])
  {
    var rest := parts[i..];
    var n := Arity(rest);
    assert rest[..n] == parts[i..i + n] && rest[n..] == parts[i + n..];
  }

  /** One step of getActiveCodes: what is collected and what is still to come make up the whole list. */
  lemma {:induction false} Pushed(s: Style, codes: seq<string>, k: nat, on: bool, code: string)
    requires k < |ATTRIBUTES| && on == (ATTRIBUTES[k] in s.on) && code == Digit(ATTRIBUTES[k])
    ensures codes + AttributeCodes(s.on, ATTRIBUTES[k..], ColorCodes(s))
         == (if on then codes + [code] else codes) + AttributeCodes(s.on, ATTRIBUTES[k + 1..], ColorCodes(s))
  {
    assert ATTRIBUTES[k..][1..] == ATTRIBUTES[k + 1..];
  }

  /** A sequence of the text is fed to the tracker. */
  method FeedCode(text: string, tracker: AnsiCodeTracker, i: nat, n: nat)
    requires i < |text| && 0 < n == CodeLength(text[i..])
    modifies tracker
    ensures i + n <= |text|
    ensures StyleFrom(tracker.Current(), text, i + n) == StyleFrom(old(tracker.Current()), text, i)
  {
    ghost var before := tracker.Current();
    CodeAt(before, text, i, n);
    tracker.Process(text[i..i + n]);
  }

  /** One turn of the scan: a sequence is fed to the tracker, anything else skipped. */
  method UpdateAt(text: string, tracker: AnsiCodeTracker, i: nat) returns (next: nat)
    requires i < |text|
    modifies tracker
    ensures i < next <= |text|
    ensures StyleFrom(tracker.Current(), text, next) == StyleFrom(old(tracker.Current()), text, i)
  {
    var n := ExtractAnsiCode(text, i);
    if n == 0 {
      NoCodeAt(tracker.Current(), text, i);
      return i + 1;
    }
    FeedCode(text, tracker, i, n);
    return i + n;
  }

  /** updateTrackerFromText: feeds every escape sequence of a text to the tracker. */
  method UpdateTrackerFromText(text: string, tracker: AnsiCodeTracker)
    modifies tracker
    ensures tracker.Current() == StyleAfter(old(tracker.Current()), text)
  {
    var i := 0;
    assert text[0..] == text;
    while i < |text|
      invariant 0 <= i <= |text|
      invariant StyleFrom(tracker.Current(), text, i) == StyleAfter(old(tracker.Current()), text)
    {
      i := UpdateAt(text, tracker, i);
    }
    NothingFrom(tracker.Current(), text);
  }

  lemma {:induction false} NothingFrom(s: Style, text: string)
    ensures StyleFrom(s, text, |text|) == s
  {
  }

  /** The style after the rest of a text. */
  function StyleFrom(s: Style, text: string, i: nat): Style
    requires i <= |text|
  {
    StyleAfter(s, text[i..])
  }

  /** One turn of the scan, by index instead of by remaining text. */
  lemma {:induction false} CodeAt(s: Style, text: string, i: nat, n: nat)
    requires i < |text| && 0 < n == CodeLength(text[i..])
    ensures i + n <= |text| && StyleFrom(s, text, i) == StyleFrom(Processed(s, text[i..i + n]), text, i + n)
  {
    var rest := text[i..];
    assert rest[..n] == text[i..i + n] && rest[n..] == text[i + n..];
  }

  lemma {:induction false} NoCodeAt(s: Style, text: string, i: nat)
    requires i < |text| && CodeLength(text[i..]) == 0
    ensures StyleFrom(s, text, i) == StyleFrom(s, text, i + 1)
  {
    assert text[i..][1..] == text[i + 1..];
  }
}
