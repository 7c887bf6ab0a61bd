/** The ECMAScript built-ins the registration bot relies on, on strings of
    Unicode code points: the `\s` character class, `parseInt` with no radix,
    and the case mappings `toUpperCase`/`toLowerCase` (restricted to ASCII
    and Latin-1 letters). `Decimal` renders a number the way a user types it. */
module JsText {
  import opened Wrappers

  /** `\s` in a regular expression: the WhiteSpace and LineTerminator code
      points. `parseInt` skips the same set (StrWhiteSpaceChar). */
  predicate IsWhiteSpace(c: char) {
    var n := c as int;
    || n == 0x09 || n == 0x0A || n == 0x0B || n == 0x0C || n == 0x0D || n == 0x20
    || n == 0xA0 || n == 0x1680 || 0x2000 <= n <= 0x200A
    || n == 0x2028 || n == 0x2029 || n == 0x202F || n == 0x205F
    || n == 0x3000 || n == 0xFEFF
  }

  /** `\d`: an ASCII decimal digit. */
  predicate IsDecimalDigit(c: char) {
    '0' <= c <= '9'
  }

  /** The value of `c` as a digit of radix up to 36 (what `parseInt` uses),
      36 when `c` is no digit at all. */
  function DigitValue(c: char): (v: nat)
    ensures v <= 36
    ensures v < 10 <==> IsDecimalDigit(c)
  {
    if '0' <= c <= '9' then c as int - '0' as int
    else if 'a' <= c <= 'z' then c as int - 'a' as int + 10
    else if 'A' <= c <= 'Z' then c as int - 'A' as int + 10
    else 36
  }

  /** The input with its leading white space removed. */
  function TrimStart(s: string): string {
    if s != [] && IsWhiteSpace(s[0]) then TrimStart(s[1..]) else s
  }

  /** TrimStart drops exactly the leading white space: what it removes is
      white space, and what is left does not start with any. */
  lemma {:induction false} TrimStartSpec(s: string)
    ensures var r := TrimStart(s);
            && |r| <= |s| && r == s[|s| - |r|..]
            && (forall k | 0 <= k < |s| - |r| :: IsWhiteSpace(s[k]))
            && (r == [] || !IsWhiteSpace(r[0]))
  {
    if s != [] && IsWhiteSpace(s[0]) {
      TrimStartSpec(s[1..]);
      var r := TrimStart(s[1..]);
      assert TrimStart(s) == r;
      forall k | 0 <= k < |s| - |r|
        ensures IsWhiteSpace(s[k])
      {
        if k > 0 {
          assert s[k] == s[1..][k - 1];
        }
      }
    }
  }

  /** The longest prefix of `s` made of digits of the given radix. */
  function DigitRun(s: string, radix: nat): string {
    if s == [] || DigitValue(s[0]) >= radix then [] else [s[0]] + DigitRun(s[1..], radix)
  }

  /** DigitRun is the longest prefix of digits below the radix. */
  lemma {:induction false} DigitRunSpec(s: string, radix: nat)
    ensures var r := DigitRun(s, radix);
            && |r| <= |s| && r == s[..|r|]
            && (forall k | 0 <= k < |r| :: DigitValue(r[k]) < radix)
            && (|r| < |s| ==> DigitValue(s[|r|]) >= radix)
  {
    if s != [] && DigitValue(s[0]) < radix {
      DigitRunSpec(s[1..], radix);
    }
  }

  /** The number that the digits `z` denote in the given radix, most
      significant digit first. */
  function Value(z: string, radix: nat): nat {
    if z == [] then 0 else Value(z[..|z| - 1], radix) * radix + DigitValue(z[|z| - 1])
  }

  /** `parseInt(s)` with no radix argument: skip leading white space, take an
      optional sign, read hexadecimal after a `0x`/`0X` prefix and decimal
      otherwise, and stop at the first character that is not a digit. None
      stands for NaN (no digit at all). A value is exact: rounding to a
      double is monotone, so it never makes a number of 7 or more digits
      equal to a 6-digit one. */
  function ParseInt(s: string): Option<int> {
    var t := TrimStart(s);
    var negative := |t| > 0 && t[0] == '-';
    var u := if |t| > 0 && (t[0] == '-' || t[0] == '+') then t[1..] else t;
    var hex := |u| >= 2 && u[0] == '0' && (u[1] == 'x' || u[1] == 'X');
    var radix := if hex then 16 else 10;
    var z := DigitRun(if hex then u[2..] else u, radix);
    var v: int := Value(z, radix);
    if z == [] then None else if negative then Some(-v) else Some(v)
  }

  /** The decimal digit character for 0 <= d <= 9. */
  function DigitChar(d: nat): (c: char)
    requires d < 10
    ensures IsDecimalDigit(c) && DigitValue(c) == d
  {
    (d + '0' as int) as char
  }

  /** The decimal rendering of `n`, without leading zeros. */
  function Decimal(n: nat): string {
    if n < 10 then [DigitChar(n)] else Decimal(n / 10) + [DigitChar(n % 10)]
  }

  lemma {:induction false} DecimalDigits(n: nat)
    ensures |Decimal(n)| > 0
    ensures forall k | 0 <= k < |Decimal(n)| :: IsDecimalDigit(Decimal(n)[k])
    ensures n > 0 ==> Decimal(n)[0] != '0'
  {
    if n >= 10 {
      DecimalDigits(n / 10);
      assert Decimal(n)[0] == Decimal(n / 10)[0];
    }
  }

  lemma {:induction false} DecimalValue(n: nat)
    ensures Value(Decimal(n), 10) == n
  {
    if n >= 10 {
      DecimalValue(n / 10);
      var z := Decimal(n);
      assert z[..|z| - 1] == Decimal(n / 10);
    }
  }

  /** A run of decimal digits is read whole. */
  lemma {:induction false} DigitRunOfDigits(s: string)
    requires forall k | 0 <= k < |s| :: IsDecimalDigit(s[k])
    ensures DigitRun(s, 10) == s
  {
    if s != [] {
      DigitRunOfDigits(s[1..]);
    }
  }

  /** parseInt reads back what a user types for a natural number. */
  lemma ParseIntDecimal(n: nat)
    ensures ParseInt(Decimal(n)) == Some(n)
  {
    var s := Decimal(n);
    DecimalDigits(n);
    DecimalValue(n);
    DigitRunOfDigits(s);
    assert TrimStart(s) == s;
  }

  /** Upper case of one character: a-z and the Latin-1 small letters
      U+00E0..U+00FE except the division sign; anything else is kept. */
  function UpperChar(c: char): char {
    if 'a' <= c <= 'z' || (0xE0 <= c as int <= 0xFE && c as int != 0xF7)
    then (c as int - 0x20) as char
    else c
  }

  /** Lower case of one character: A-Z and the Latin-1 capital letters
      U+00C0..U+00DE except the multiplication sign; anything else is kept. */
  function LowerChar(c: char): char {
    if 'A' <= c <= 'Z' || (0xC0 <= c as int <= 0xDE && c as int != 0xD7)
    then (c as int + 0x20) as char
    else c
  }

  function ToUpper(s: string): string {
    seq(|s|, k requires 0 <= k < |s| => UpperChar(s[k]))
  }

  function ToLower(s: string): string {
    seq(|s|, k requires 0 <= k < |s| => LowerChar(s[k]))
  }

  lemma {:induction false} ValueOfZeros(z: string, radix: nat)
    requires forall k | 0 <= k < |z| :: z[k] == '0'
    ensures Value(z, radix) == 0
  {
    if z != [] {
      ValueOfZeros(z[..|z| - 1], radix);
    }
  }

  /** A reply of decimal digits reads as its decimal value. */
  lemma ParseIntDigits(s: string)
    requires s != [] && forall k | 0 <= k < |s| :: IsDecimalDigit(s[k])
    ensures ParseInt(s) == Some(Value(s, 10))
  {
    assert IsDecimalDigit(s[0]);
    var t := TrimStart(s);
    assert t == s;
    assert !(|t| > 0 && (t[0] == '-' || t[0] == '+'));
    assert !(|t| >= 2 && t[0] == '0' && (t[1] == 'x' || t[1] == 'X'));
    DigitRunOfDigits(s);
  }

  /** A reply of six zeros reads as 0. */
  lemma ParseIntZeros()
    ensures ParseInt("000000") == Some(0)
  {
    var s := "000000";
    ParseIntDigits(s);
    ValueOfZeros(s, 10);
  }
}
