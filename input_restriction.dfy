/**
 * The keyboard, paste and input handlers that keep a page-number field
 * numeric. Each keypress or paste handler is a predicate on the event's
 * data that answers "does the handler call `preventDefault()`?";
 * `validateMaxPage` rewrites the field's value in place.
 */
module InputRestriction {
  import opened Wrappers
  import opened JsNumbers

  /** `event.charCode || event.keyCode`: a zero `charCode` falls back to `keyCode`. */
  function KeyCode(charCode: int, keyCode: int): int {
    if charCode != 0 then charCode else keyCode
  }

  /** `String.fromCharCode(code)` for a code the handlers have already checked to be 48..57. */
  function CodeChar(code: int): (c: char)
    requires 48 <= code <= 57
    ensures IsDigit(c) && DigitValue(c) == code - 48
  {
    code as char
  }

  /** `/^[0-9]+$/.test(s)`. */
  predicate IsNumeral(s: string) {
    s != [] && IsDigits(s)
  }

  /** `event.clipboardData?.getData("text") ?? ""`: a missing clipboard reads as the empty string. */
  function PastedText(clipboard: Option<string>): string {
    clipboard.GetOr("")
  }

  /** `allowOnlyNumbers`: is the keypress prevented? */
  function AllowOnlyNumbers(charCode: int, keyCode: int): (prevented: bool) {
    var code := KeyCode(charCode, keyCode);
    code < 48 || code > 57
  }

  /** `numbersOnlyOnPaste`: is the paste prevented? */
  function NumbersOnlyOnPaste(clipboard: Option<string>): (prevented: bool) {
    !IsNumeral(PastedText(clipboard))
  }

  /** `allowOnlyNumbersWithMax(maxPage)` on a keypress in a field holding `current`: is it prevented? */
  function AllowOnlyNumbersWithMax(maxPage: int, charCode: int, keyCode: int, current: string): (prevented: bool) {
    var code := KeyCode(charCode, keyCode);
    if code < 48 || code > 57 then true
    else Above(ParseInt(current + [CodeChar(code)]), maxPage)
  }

  /** `numbersOnlyOnPasteWithMax(maxPage)`: is the paste prevented? */
  function NumbersOnlyOnPasteWithMax(maxPage: int, clipboard: Option<string>): (prevented: bool) {
    var pasted := PastedText(clipboard);
    if !IsNumeral(pasted) then true
    else Above(ParseInt(pasted), maxPage)
  }

  /** The text `validateMaxPage(maxPage)` leaves in a field that held `v`. */
  function Clamped(maxPage: int, v: string): string {
    var value := ParseInt(v);
    if Above(value, maxPage) then ToDecimalString(maxPage)
    else if Below(value, 1) && v != "" then "1"
    else v
  }

  /** The `<input>` element an input event targets; only its text is modelled. */
  class InputElement {
    var value: string

    constructor (value: string)
      ensures this.value == value
    {
      this.value := value;
    }
  }

  /** `validateMaxPage(maxPage)` run on an input event whose target is `target`. */
  method ValidateMaxPage(maxPage: int, target: InputElement)
    modifies target
    ensures target.value == Clamped(maxPage, old(target.value))
  {
    var value := ParseInt(target.value);
    if Above(value, maxPage) {
      target.value := ToDecimalString(maxPage);
    } else if Below(value, 1) && target.value != "" {
      target.value := "1";
    }
  }

  /** A keypress gets through exactly when its effective code is that of an ASCII digit. */
  lemma AllowOnlyNumbersAdmitsDigits(charCode: int, keyCode: int)
    ensures !AllowOnlyNumbers(charCode, keyCode)
        <==> exists d :: IsDigit(d) && d as int == (if charCode != 0 then charCode else keyCode)
  {
    var code := KeyCode(charCode, keyCode);
    if !AllowOnlyNumbers(charCode, keyCode) {
      assert IsDigit(CodeChar(code));
    }
  }

  /** A key that gets through keeps a field of digits a field of digits. */
  lemma AllowedKeyKeepsDigits(charCode: int, keyCode: int, current: string)
    requires IsDigits(current) && !AllowOnlyNumbers(charCode, keyCode)
    ensures IsDigits(current + [CodeChar(KeyCode(charCode, keyCode))])
  {
  }

  /**
   * A paste gets through exactly when the clipboard holds a non-empty run of
   * digits, and then `parseInt` reads its full decimal value.
   */
  lemma NumbersOnlyOnPasteAdmitsNumerals(clipboard: Option<string>)
    ensures !NumbersOnlyOnPaste(clipboard) <==> clipboard.Some? && IsNumeral(clipboard.value)
    ensures !NumbersOnlyOnPaste(clipboard) ==> ParseInt(clipboard.value) == Some(DecimalValue(clipboard.value))
  {
    if !NumbersOnlyOnPaste(clipboard) {
      ParseIntOfDigits(clipboard.value);
    }
  }

  /**
   * With a maximum, every non-digit key is still prevented, and a digit key
   * typed at the end of a field of digits is prevented exactly when the
   * resulting number exceeds `maxPage`.
   */
  lemma AllowOnlyNumbersWithMaxBound(maxPage: int, charCode: int, keyCode: int, current: string)
    ensures AllowOnlyNumbers(charCode, keyCode) ==> AllowOnlyNumbersWithMax(maxPage, charCode, keyCode, current)
    ensures IsDigits(current) && !AllowOnlyNumbers(charCode, keyCode) ==>
      var next := current + [CodeChar(KeyCode(charCode, keyCode))];
      IsDigits(next) && (AllowOnlyNumbersWithMax(maxPage, charCode, keyCode, current) <==> DecimalValue(next) > maxPage)
  {
    if IsDigits(current) && !AllowOnlyNumbers(charCode, keyCode) {
      ParseIntOfDigits(current + [CodeChar(KeyCode(charCode, keyCode))]);
    }
  }

  /** A paste gets through exactly when it is a numeral whose value is at most `maxPage`. */
  lemma NumbersOnlyOnPasteWithMaxAdmits(maxPage: int, clipboard: Option<string>)
    ensures !NumbersOnlyOnPasteWithMax(maxPage, clipboard)
        <==> clipboard.Some? && IsNumeral(clipboard.value) && DecimalValue(clipboard.value) <= maxPage
  {
    if clipboard.Some? && IsNumeral(clipboard.value) {
      ParseIntOfDigits(clipboard.value);
    }
  }

  /** Text reading as a number in 1..maxPage, or not readable at all, is left alone. */
  lemma ClampedFixes(maxPage: int, v: string)
    requires ParseInt(v).None? || 1 <= ParseInt(v).value <= maxPage
    ensures Clamped(maxPage, v) == v
  {
  }

  /**
   * For `maxPage >= 1`: text `parseInt` cannot read (the empty string
   * included) is left alone, and any readable text ends up reading as a
   * number between 1 and `maxPage`; text already in that range is left alone.
   */
  lemma ClampedInRange(maxPage: int, v: string)
    requires maxPage >= 1
    ensures ParseInt(v).None? ==> Clamped(maxPage, v) == v
    ensures ParseInt(v).Some? ==>
      var r := ParseInt(Clamped(maxPage, v));
      r.Some? && 1 <= r.value <= maxPage
    ensures ParseInt(v).Some? && 1 <= ParseInt(v).value <= maxPage ==> Clamped(maxPage, v) == v
  {
    var n := ParseInt(v);
    if Above(n, maxPage) {
      assert Clamped(maxPage, v) == ToDecimalString(maxPage);
      ParseIntOfDecimal(maxPage);
    } else if Below(n, 1) && v != "" {
      assert Clamped(maxPage, v) == "1";
      ParseIntOfOne();
    } else {
      ClampedFixes(maxPage, v);
    }
  }

  /** For `maxPage >= 1`, running `validateMaxPage` a second time changes nothing. */
  lemma ClampedIdempotent(maxPage: int, v: string)
    requires maxPage >= 1
    ensures Clamped(maxPage, Clamped(maxPage, v)) == Clamped(maxPage, v)
  {
    var r := Clamped(maxPage, v);
    if ParseInt(v).Some? {
      ClampedInRange(maxPage, v);
    } else {
      assert r == v;
    }
    ClampedFixes(maxPage, r);
  }

  lemma ParseIntOfSingleDigit(c: char)
    requires IsDigit(c)
    ensures ParseInt([c]) == Some(DigitValue(c))
  {
    ParseIntOfDigits([c]);
    DecimalValueOfDigit(c);
  }

  lemma DecimalValueOfDigit(c: char)
    requires IsDigit(c)
    ensures DecimalValue([c]) == DigitValue(c)
  {
    assert [c][..0] == [];
  }

  lemma ParseIntOfOne()
    ensures ParseInt("1") == Some(1)
  {
    ParseIntOfSingleDigit('1');
  }

  /**
   * Without a page (`maxPage == 0`) the rewrite is not idempotent: "5" is
   * rewritten to "0", "0" to "1", and "1" back to "0".
   */
  lemma ClampedCyclesWithoutPages()
    ensures Clamped(0, "5") == "0"
    ensures Clamped(0, "0") == "1"
    ensures Clamped(0, "1") == "0"
  {
    assert ToDecimalString(0) == "0";
    ParseIntOfSingleDigit('5');
    ClampedAbove(0, "5");
    ParseIntOfSingleDigit('0');
    ClampedBelowOne(0, "0");
    ParseIntOfOne();
    ClampedAbove(0, "1");
  }

  lemma ClampedAbove(maxPage: int, v: string)
    requires Above(ParseInt(v), maxPage)
    ensures Clamped(maxPage, v) == ToDecimalString(maxPage)
  {
  }

  lemma ClampedBelowOne(maxPage: int, v: string)
    requires ParseInt(v).Some? && ParseInt(v).value < 1 && ParseInt(v).value <= maxPage && v != ""
    ensures Clamped(maxPage, v) == "1"
  {
  }
}
