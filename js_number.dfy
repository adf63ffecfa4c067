/** The integer-valued JavaScript numbers the pages store, their decimal text in plain digits (what
    `Number.prototype.toString` prints for integers below 1e21), and the global `parseInt` with no
    radix argument (section 19.2.5 of ECMA-262). Integers are unbounded: the rounding of doubles
    beyond 2^53 is not modelled. */
module JsNumber {
  import opened Wrappers
  import Text

  /** A number that is an integer or `NaN` (what `parseInt` can return). */
  datatype IntOrNaN = Int(value: int) | NaN

  function DigitChar(d: nat): (c: char)
    requires d < 10
    ensures '0' <= c <= '9'
  {
    ('0' as int + d) as char
  }

  /** The value of `c` as a digit in base `radix` (10 or 16, either case for hexadecimal letters). */
  function DigitValue(c: char, radix: nat): (r: Option<nat>)
    requires radix == 10 || radix == 16
    ensures r.Some? ==> r.value < radix
  {
    if '0' <= c <= '9' then Some(c as int - '0' as int)
    else if radix == 16 && 'a' <= c <= 'f' then Some(c as int - 'a' as int + 10)
    else if radix == 16 && 'A' <= c <= 'F' then Some(c as int - 'A' as int + 10)
    else None
  }

  /** Decimal numeral of a non-negative integer, without leading zeros. */
  function NatToString(n: nat): (s: string)
    ensures |s| >= 1
    ensures forall i :: 0 <= i < |s| ==> '0' <= s[i] <= '9'
    ensures s[0] == '0' ==> n == 0 && s == "0"
    decreases n
  {
    if n < 10 then [DigitChar(n)] else NatToString(n / 10) + [DigitChar(n % 10)]
  }

  /** `toString` of an integer: a minus sign before the numeral of a negative value. */
  function IntToString(n: int): string
  {
    if n < 0 then "-" + NatToString(-n) else NatToString(n)
  }

  /** `toString` of a number that is an integer or `NaN`. */
  function ToString(x: IntOrNaN): string
  {
    match x
    case NaN => "NaN"
    case Int(n) => IntToString(n)
  }

  /** The longest prefix of `s` made of digits of base `radix`. */
  function LeadingDigits(s: string, radix: nat): (r: string)
    requires radix == 10 || radix == 16
    ensures |r| <= |s| && r == s[..|r|]
    ensures forall i :: 0 <= i < |r| ==> DigitValue(r[i], radix).Some?
    ensures |r| < |s| ==> DigitValue(s[|r|], radix).None?
  {
    if s != [] && DigitValue(s[0], radix).Some? then [s[0]] + LeadingDigits(s[1..], radix) else ""
  }

  /** The value of a numeral made of base-`radix` digits. */
  function NumeralValue(ds: string, radix: nat): nat
    requires radix == 10 || radix == 16
    requires forall i :: 0 <= i < |ds| ==> DigitValue(ds[i], radix).Some?
  {
    if ds == [] then 0
    else NumeralValue(ds[..|ds| - 1], radix) * radix + DigitValue(ds[|ds| - 1], radix).value
  }

  /** `0x` or `0X` at the start: `parseInt` then reads base 16. */
  predicate HasHexPrefix(u: string)
  {
    |u| >= 2 && u[0] == '0' && (u[1] == 'x' || u[1] == 'X')
  }

  /** The unsigned part of `parseInt`: the value of the longest digit run, in base 16 after a
      hexadecimal prefix and base 10 otherwise; nothing when the run is empty. */
  function ParseMagnitude(u: string): Option<nat>
  {
    var radix := if HasHexPrefix(u) then 16 else 10;
    var digits := LeadingDigits(if HasHexPrefix(u) then u[2..] else u, radix);
    if digits == [] then None else Some(NumeralValue(digits, radix))
  }

  /** `parseInt(s)`: skip leading whitespace, take an optional sign, read the magnitude;
      `NaN` unless the text holds a decimal digit (a hexadecimal numeral starts with `0`). */
  function ParseInt(s: string): (r: IntOrNaN)
    ensures r.Int? ==> exists i :: 0 <= i < |s| && '0' <= s[i] <= '9'
  {
    var t := Text.TrimStart(s);
    var signed := |t| > 0 && (t[0] == '-' || t[0] == '+');
    var u := if signed then t[1..] else t;
    match ParseMagnitude(u)
    case None => NaN
    case Some(m) =>
      var k := |s| - |u|;
      assert u == s[k..];
      assert '0' <= s[k] <= '9';
      var v: int := m;
      Int(if signed && t[0] == '-' then -v else v)
  }

  /** A decimal numeral reads back as the number it was written from. */
  lemma {:induction false} NumeralRoundTrip(n: nat)
    ensures NumeralValue(NatToString(n), 10) == n
    decreases n
  {
    var s := NatToString(n);
    if n >= 10 {
      NumeralRoundTrip(n / 10);
      assert s == NatToString(n / 10) + [DigitChar(n % 10)];
      assert s[..|s| - 1] == NatToString(n / 10);
      assert DigitValue(s[|s| - 1], 10) == Some(n % 10);
    } else {
      assert s[..0] == [];
    }
  }

  /** A string of decimal digits is its own longest digit run. */
  lemma {:induction false} LeadingDigitsOfNumeral(s: string)
    requires forall i :: 0 <= i < |s| ==> '0' <= s[i] <= '9'
    ensures LeadingDigits(s, 10) == s
  {
    if s != [] {
      LeadingDigitsOfNumeral(s[1..]);
    }
  }

  /** `parseInt` of a bare decimal numeral is its value. */
  lemma ParseNumeral(n: nat)
    ensures ParseInt(NatToString(n)) == Int(n)
  {
    MagnitudeOfNumeral(n);
    ParseUnsigned(NatToString(n), n);
  }

  /** Text that starts with a digit is read without a sign. */
  lemma ParseUnsigned(t: string, m: nat)
    requires |t| > 0 && '0' <= t[0] <= '9'
    requires ParseMagnitude(t) == Some(m)
    ensures ParseInt(t) == Int(m)
  {
    assert !Text.IsSpace(t[0]);
    assert Text.TrimStart(t) == t;
  }

  lemma MagnitudeOfNumeral(n: nat)
    ensures ParseMagnitude(NatToString(n)) == Some(n)
  {
    var s := NatToString(n);
    assert !HasHexPrefix(s);
    LeadingDigitsOfNumeral(s);
    NumeralRoundTrip(n);
  }

  /** A minus sign followed by a magnitude reads as the negated magnitude. */
  lemma ParseSigned(t: string, m: nat)
    requires ParseMagnitude(t) == Some(m)
    ensures ParseInt("-" + t) == Int(-(m as int))
  {
    var s := "-" + t;
    assert s[0] == '-' && !Text.IsSpace(s[0]);
    assert Text.TrimStart(s) == s;
    assert s[1..] == t;
  }

  /** The text of a negative integer is a minus sign before the numeral of its magnitude. */
  lemma NegativeText(n: int)
    requires n < 0
    ensures IntToString(n) == "-" + NatToString(-n)
  {
  }

  /** `parseInt` of a negative integer's text, a minus sign and a decimal numeral, is the
      integer. */
  lemma ParseNegativeToString(n: int)
    requires n < 0
    ensures ParseInt(IntToString(n)) == Int(n)
  {
    NegativeText(n);
    MagnitudeOfNumeral(-n);
    ParseSigned(NatToString(-n), -n);
  }

  /** The text of a non-negative integer reads back as that integer. */
  lemma ParseNonNegativeToString(n: int)
    requires n >= 0
    ensures ParseInt(IntToString(n)) == Int(n)
  {
    ParseNumeral(n);
  }

  /** The text `NaN` has no digits, so it parses as `NaN`. */
  lemma ParseNaNText()
    ensures ParseInt("NaN") == NaN
  {
    var s := "NaN";
    assert s[0] == 'N' && !Text.IsSpace('N');
    assert Text.TrimStart(s) == s;
    assert !HasHexPrefix(s);
    assert DigitValue(s[0], 10).None?;
    assert LeadingDigits(s, 10) == "";
  }

  /** `parseInt(n.toString())` gives every integer back. */
  lemma ParseIntToStringInt(n: int)
    ensures ParseInt(IntToString(n)) == Int(n)
  {
    if n < 0 {
      ParseNegativeToString(n);
    } else {
      ParseNonNegativeToString(n);
    }
  }

  /** `parseInt(x.toString())` gives `x` back, for every integer and for `NaN`; in particular it
      gives back a doctor's experience when the edit form is saved unchanged. */
  lemma ParseIntToString(x: IntOrNaN)
    ensures ParseInt(ToString(x)) == x
  {
    match x
    case NaN =>
      ParseNaNText();
    case Int(n) =>
      ParseIntToStringInt(n);
  }
}
