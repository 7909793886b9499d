/**
 * The two number conversions the input filters rely on: the global
 * `parseInt(string)` (radix omitted) and `Number.prototype.toString()` on an
 * integer. Numbers are unbounded integers here; NaN is `None`.
 */
module JsNumbers {
  import opened Wrappers

  predicate IsDigit(c: char) {
    '0' <= c <= '9'
  }

  predicate IsDigits(s: string) {
    forall i :: 0 <= i < |s| ==> IsDigit(s[i])
  }

  function DigitValue(c: char): (d: nat)
    requires IsDigit(c)
    ensures d < 10
  {
    c as int - '0' as int
  }

  function DigitChar(d: nat): (c: char)
    requires d < 10
    ensures IsDigit(c) && DigitValue(c) == d
  {
    ('0' as int + d) as char
  }

  /** The value of a run of decimal digits, most significant digit first. */
  function DecimalValue(s: string): nat
    requires IsDigits(s)
    decreases |s|
  {
    if s == [] then 0 else 10 * DecimalValue(s[..|s| - 1]) + DigitValue(s[|s| - 1])
  }

  /** The shortest decimal numeral of `n`. */
  function NatToDecimal(n: nat): (s: string)
    ensures |s| > 0 && IsDigits(s)
  {
    if n < 10 then [DigitChar(n)] else NatToDecimal(n / 10) + [DigitChar(n % 10)]
  }

  /** `n.toString()` for an integral number `n`. */
  function ToDecimalString(n: int): string {
    if n < 0 then "-" + NatToDecimal(-n) else NatToDecimal(n)
  }

  /**
   * The characters `parseInt` strips from the front of its argument:
   * ECMAScript's WhiteSpace (TAB, VT, FF, ZWNBSP and every space separator)
   * and LineTerminator (LF, CR, LS, PS).
   */
  predicate IsJsSpace(c: char) {
    c == '\t' || c == '\U{B}' || c == '\U{C}' || c == '\U{FEFF}'
    || c == '\n' || c == '\r' || c == '\U{2028}' || c == '\U{2029}'
    || c == ' ' || c == '\U{A0}' || c == '\U{1680}' || ('\U{2000}' <= c <= '\U{200A}')
    || c == '\U{202F}' || c == '\U{205F}' || c == '\U{3000}'
  }

  /** `s` without its leading white space. */
  function TrimStart(s: string): (r: string)
    ensures |r| <= |s| && r == s[|s| - |r|..]
    ensures forall i :: 0 <= i < |s| - |r| ==> IsJsSpace(s[i])
    ensures r == [] || !IsJsSpace(r[0])
    decreases |s|
  {
    if s != [] && IsJsSpace(s[0]) then TrimStart(s[1..]) else s
  }

  /** The longest prefix of `s` made of decimal digits. */
  function DigitPrefix(s: string): (r: string)
    ensures r <= s && IsDigits(r)
    ensures |r| < |s| ==> !IsDigit(s[|r|])
    decreases |s|
  {
    if s != [] && IsDigit(s[0]) then [s[0]] + DigitPrefix(s[1..]) else []
  }

  /** `t` without a leading `+` or `-`. */
  function Unsigned(t: string): (u: string)
    ensures |u| <= |t|
  {
    if t != [] && (t[0] == '+' || t[0] == '-') then t[1..] else t
  }

  /**
   * `parseInt(s)`: skip leading white space, take an optional sign, then the
   * longest run of decimal digits; NaN (`None`) when that run is empty.
   */
  function ParseInt(s: string): Option<int> {
    var t := TrimStart(s);
    var digits := DigitPrefix(Unsigned(t));
    if digits == [] then None
    else if t[0] == '-' then Some(0 - DecimalValue(digits))
    else Some(DecimalValue(digits))
  }

  /** JavaScript `x > bound` where `x` may be NaN: any comparison with NaN is false. */
  predicate Above(x: Option<int>, bound: int) {
    x.Some? && x.value > bound
  }

  /** JavaScript `x < bound` where `x` may be NaN. */
  predicate Below(x: Option<int>, bound: int) {
    x.Some? && x.value < bound
  }

  lemma DecimalValueAppend(s: string, c: char)
    requires IsDigits(s) && IsDigit(c)
    ensures IsDigits(s + [c])
    ensures DecimalValue(s + [c]) == 10 * DecimalValue(s) + DigitValue(c)
  {
    assert (s + [c])[..|s|] == s;
  }

  /** Reading back the numeral of `n` gives `n`. */
  lemma {:induction false} DecimalRoundTrip(n: nat)
    ensures DecimalValue(NatToDecimal(n)) == n
  {
    if n < 10 {
      assert [DigitChar(n)][..0] == [];
    } else {
      DecimalRoundTrip(n / 10);
      DecimalValueAppend(NatToDecimal(n / 10), DigitChar(n % 10));
    }
  }

  lemma DigitPrefixOfDigits(s: string, rest: string)
    requires IsDigits(s)
    requires rest == [] || !IsDigit(rest[0])
    ensures DigitPrefix(s + rest) == s
  {
    var u := s + rest;
    assert forall i :: 0 <= i < |s| ==> u[i] == s[i];
    assert |s| < |u| ==> u[|s|] == rest[0];
  }

  lemma TrimStartOfDigit(u: string)
    requires u != [] && IsDigit(u[0])
    ensures TrimStart(u) == u
  {
    assert !IsJsSpace(u[0]);
  }

  /** Leading digits followed by anything else parse to the digits' value. */
  lemma ParseIntStopsAtNonDigit(s: string, rest: string)
    requires s != [] && IsDigits(s)
    requires rest == [] || !IsDigit(rest[0])
    ensures ParseInt(s + rest) == Some(DecimalValue(s))
  {
    var u := s + rest;
    assert u[0] == s[0];
    TrimStartOfDigit(u);
    assert Unsigned(u) == u;
    DigitPrefixOfDigits(s, rest);
  }

  /** A non-empty run of digits parses to its decimal value. */
  lemma ParseIntOfDigits(s: string)
    requires s != [] && IsDigits(s)
    ensures ParseInt(s) == Some(DecimalValue(s))
  {
    ParseIntStopsAtNonDigit(s, []);
    assert s + [] == s;
  }

  /** A minus sign followed by digits parses to the negated value. */
  lemma ParseIntOfNegative(digits: string)
    requires digits != [] && IsDigits(digits)
    ensures ParseInt("-" + digits) == Some(0 - DecimalValue(digits))
  {
    var s := "-" + digits;
    assert s[0] == '-' && !IsJsSpace(s[0]);
    assert TrimStart(s) == s;
    assert Unsigned(s) == digits;
    DigitPrefixOfDigits(digits, []);
    assert digits + [] == digits;
  }

  /** `parseInt` inverts `toString` on every integer. */
  lemma ParseIntOfDecimal(n: int)
    ensures ParseInt(ToDecimalString(n)) == Some(n)
  {
    if n < 0 {
      ParseIntOfNegativeDecimal(n);
    } else {
      ParseIntOfNatDecimal(n);
    }
  }

  lemma ParseIntOfNatDecimal(n: nat)
    ensures ParseInt(NatToDecimal(n)) == Some(n)
  {
    ParseIntOfDigits(NatToDecimal(n));
    DecimalRoundTrip(n);
  }

  lemma ParseIntOfNegativeDecimal(n: int)
    requires n < 0
    ensures ParseInt("-" + NatToDecimal(-n)) == Some(n)
  {
    ParseIntOfNegative(NatToDecimal(-n));
    DecimalRoundTrip(-n);
  }
}
