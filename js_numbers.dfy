/** The part of JavaScript's number handling that the session routes rely on:
    the global `parseInt` applied to a path parameter, with no radix argument,
    and the decimal rendering of `Date.now()` used inside session ids. */
module JsNumbers {

  /** A JavaScript number as `parseInt` can produce it: NaN or an integer.
      `-0` is represented by `Int(0)`; as an array index both select element 0. */
  datatype JsNumber = NaN | Int(value: int)

  /** The white space that `parseInt` skips (WhiteSpace and LineTerminator). */
  predicate IsJsWhitespace(c: char)
  {
    var n := c as int;
    n == 0x09 || n == 0x0A || n == 0x0B || n == 0x0C || n == 0x0D || n == 0x20 ||
    n == 0xA0 || n == 0x1680 || (0x2000 <= n <= 0x200A) || n == 0x2028 || n == 0x2029 ||
    n == 0x202F || n == 0x205F || n == 0x3000 || n == 0xFEFF
  }

  /** Value of a digit character in radix 36; 36 for anything that is no digit. */
  function DigitValue(c: char): (d: nat)
    ensures d <= 36
  {
    if '0' <= c <= '9' then c as int - '0' as int
    else if 'a' <= c <= 'z' then c as int - 'a' as int + 10
    else if 'A' <= c <= 'Z' then c as int - 'A' as int + 10
    else 36
  }

  function TrimStart(s: string): (t: string)
    ensures |t| <= |s| && t == s[|s| - |t|..]
    ensures t == [] || !IsJsWhitespace(t[0])
    ensures forall i :: 0 <= i < |s| - |t| ==> IsJsWhitespace(s[i])
  {
    if s != [] && IsJsWhitespace(s[0]) then TrimStart(s[1..]) else s
  }

  /** The longest prefix of `s` made of digits of the given radix. */
  function DigitPrefix(s: string, radix: nat): (d: string)
    ensures |d| <= |s| && d == s[..|d|]
    ensures forall i :: 0 <= i < |d| ==> DigitValue(d[i]) < radix
    ensures |d| < |s| ==> DigitValue(s[|d|]) >= radix
  {
    if s != [] && DigitValue(s[0]) < radix then [s[0]] + DigitPrefix(s[1..], radix) else []
  }

  /** The value of a digit string, most significant digit first. */
  function DigitsValue(d: string, radix: nat): nat
  {
    if d == [] then 0 else DigitsValue(d[..|d| - 1], radix) * radix + DigitValue(d[|d| - 1])
  }

  /** `parseInt(s)` with the radix left undefined: skip leading white space,
      take one optional sign, then read the magnitude. */
  function ParseInt(s: string): JsNumber
  {
    var t := TrimStart(s);
    if t != [] && t[0] == '-' then Negate(ParseMagnitude(t[1..]))
    else if t != [] && t[0] == '+' then ParseMagnitude(t[1..])
    else ParseMagnitude(t)
  }

  function Negate(n: JsNumber): JsNumber
  {
    match n
    case NaN => NaN
    case Int(v) => Int(-v)
  }

  /** The unsigned part of `parseInt`: hexadecimal after a `0x`/`0X` prefix,
      decimal otherwise, up to the first non-digit; NaN if no digit was read. */
  function ParseMagnitude(u: string): JsNumber
  {
    var hex := |u| >= 2 && u[0] == '0' && (u[1] == 'x' || u[1] == 'X');
    var radix := if hex then 16 else 10;
    var digits := DigitPrefix(if hex then u[2..] else u, radix);
    if digits == [] then NaN else Int(DigitsValue(digits, radix))
  }

  function DigitChar(d: nat): (c: char)
    requires d < 10
    ensures '0' <= c <= '9' && DigitValue(c) == d
  {
    ('0' as int + d) as char
  }

  /** `String(n)` for a non-negative integer: its decimal digits, no leading zero. */
  function DecimalDigits(n: nat): (s: string)
    ensures |s| > 0
    ensures forall i :: 0 <= i < |s| ==> '0' <= s[i] <= '9'
    ensures s[0] == '0' ==> s == "0"
  {
    if n < 10 then [DigitChar(n)] else DecimalDigits(n / 10) + [DigitChar(n % 10)]
  }

  /** Reading back the decimal rendering gives the number. */
  lemma {:induction false} DecimalDigitsValue(n: nat)
    ensures DigitsValue(DecimalDigits(n), 10) == n
  {
    if n >= 10 {
      var s := DecimalDigits(n);
      assert s[..|s| - 1] == DecimalDigits(n / 10);
      DecimalDigitsValue(n / 10);
    }
  }

  /** The digit prefix of digits followed by a non-digit is exactly those digits. */
  lemma {:induction false} DigitPrefixStops(d: string, rest: string, radix: nat)
    requires forall i :: 0 <= i < |d| ==> DigitValue(d[i]) < radix
    requires rest == [] || DigitValue(rest[0]) >= radix
    ensures DigitPrefix(d + rest, radix) == d
  {
    if d != [] {
      assert (d + rest)[1..] == d[1..] + rest;
      DigitPrefixStops(d[1..], rest, radix);
    }
  }

  /** `parseInt(String(n) + rest) == n` whenever `rest` does not continue the
      number: it must not start with a decimal digit, and after a lone `0` it
      must not start with `x` or `X` (that would be read as a hexadecimal prefix). */
  lemma ParseIntDecimal(n: nat, rest: string)
    requires rest == [] || DigitValue(rest[0]) >= 10
    requires n == 0 && rest != [] ==> rest[0] != 'x' && rest[0] != 'X'
    ensures ParseInt(DecimalDigits(n) + rest) == Int(n)
  {
    var s := DecimalDigits(n) + rest;
    DecimalHasNoPadding(n, rest);
    MagnitudeOfDecimal(n, rest);
    assert s[0] != '-' && s[0] != '+';
  }

  lemma DecimalHasNoPadding(n: nat, rest: string)
    ensures TrimStart(DecimalDigits(n) + rest) == DecimalDigits(n) + rest
    ensures '0' <= (DecimalDigits(n) + rest)[0] <= '9'
  {
    var d := DecimalDigits(n);
    var s := d + rest;
    assert s[0] == d[0] && '0' <= s[0] <= '9';
    assert !IsJsWhitespace(s[0]);
  }

  lemma MagnitudeOfDecimal(n: nat, rest: string)
    requires rest == [] || DigitValue(rest[0]) >= 10
    requires n == 0 && rest != [] ==> rest[0] != 'x' && rest[0] != 'X'
    ensures ParseMagnitude(DecimalDigits(n) + rest) == Int(n)
  {
    var d := DecimalDigits(n);
    var s := d + rest;
    assert !(|s| >= 2 && s[0] == '0' && (s[1] == 'x' || s[1] == 'X')) by {
      if |s| >= 2 && s[0] == '0' {
        assert d == "0" && s[1] == rest[0];
      }
    }
    DigitPrefixStops(d, rest, 10);
    DecimalDigitsValue(n);
  }

  /** A parameter that starts with neither white space, a sign nor a decimal
      digit parses to NaN. */
  lemma ParseIntNonNumeric(s: string)
    requires s == [] || (!IsJsWhitespace(s[0]) && s[0] != '-' && s[0] != '+' && DigitValue(s[0]) >= 10)
    ensures ParseInt(s) == NaN
  {
    assert TrimStart(s) == s;
  }
}
