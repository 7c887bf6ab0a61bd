/** The three input checks of bot.ts: `isValidEmail` (a regular expression),
    `isValidCPF` (the check digits of an individual taxpayer number) and
    `isValidCNPJ` (the check digits of a business taxpayer number, with the
    weights the code actually produces). */
module Validators {
  import opened JsText

  // ---------------------------------------------------------------------
  // isValidEmail: /^[^\s@]+@[^\s@]+\.[^\s@]+$/
  // ---------------------------------------------------------------------

  /** Every character is in the class `[^\s@]`. */
  predicate Plain(t: string) {
    forall k | 0 <= k < |t| :: !IsWhiteSpace(t[k]) && t[k] != '@'
  }

  /** The regular expression as a match: the input splits as
      A "@" B "." C with A, B, C non-empty and plain. */
  predicate IsValidEmail(email: string) {
    exists i, j | 0 < i && i + 1 < j < |email| - 1 ::
      && email[i] == '@' && email[j] == '.'
      && Plain(email[..i]) && Plain(email[i + 1..j]) && Plain(email[j + 1..])
  }

  predicate NoWhiteSpace(s: string) {
    forall k | 0 <= k < |s| :: !IsWhiteSpace(s[k])
  }

  /** A dot that is neither the first nor the last character. */
  predicate InnerDot(t: string) {
    exists j | 0 < j < |t| - 1 :: t[j] == '.'
  }

  /** The shape the regular expression accepts, stated without a match:
      no white space, exactly one "@", a non-empty local part, and a domain
      with an inner dot. */
  predicate EmailShape(s: string) {
    && NoWhiteSpace(s)
    && multiset(s)['@'] == 1
    && exists i | 0 < i < |s| :: s[i] == '@' && InnerDot(s[i + 1..])
  }

  /** With `s[i] == c`, `c` occurs once in `s` exactly when no other
      position holds it. */
  lemma SoleOccurrence(s: string, i: int, c: char)
    requires 0 <= i < |s| && s[i] == c
    ensures multiset(s)[c] == 1 <==> forall k | 0 <= k < |s| && k != i :: s[k] != c
  {
    assert s == s[..i] + [c] + s[i + 1..];
    assert multiset(s) == multiset(s[..i]) + multiset{c} + multiset(s[i + 1..]);
    if exists k | 0 <= k < |s| && k != i :: s[k] == c {
      var k :| 0 <= k < |s| && k != i && s[k] == c;
      if k < i {
        assert s[..i][k] == c;
        assert c in multiset(s[..i]);
      } else {
        assert s[i + 1..][k - i - 1] == c;
        assert c in multiset(s[i + 1..]);
      }
    } else {
      assert c !in s[..i];
      assert c !in s[i + 1..];
    }
  }

  lemma EmailMatchHasShape(s: string)
    requires IsValidEmail(s)
    ensures EmailShape(s)
  {
    var i, j :| 0 < i && i + 1 < j < |s| - 1 && s[i] == '@' && s[j] == '.'
      && Plain(s[..i]) && Plain(s[i + 1..j]) && Plain(s[j + 1..]);
    forall k | 0 <= k < |s|
      ensures !IsWhiteSpace(s[k]) && (k != i ==> s[k] != '@')
    {
      if k < i {
        assert s[..i][k] == s[k];
      } else if i < k < j {
        assert s[i + 1..j][k - i - 1] == s[k];
      } else if j < k {
        assert s[j + 1..][k - j - 1] == s[k];
      }
    }
    SoleOccurrence(s, i, '@');
    assert s[i + 1..][j - i - 1] == '.';
  }

  lemma EmailShapeMatches(s: string)
    requires EmailShape(s)
    ensures IsValidEmail(s)
  {
    var i :| 0 < i < |s| && s[i] == '@' && InnerDot(s[i + 1..]);
    var j' :| 0 < j' < |s| - i - 2 && s[i + 1..][j'] == '.';
    var j := i + 1 + j';
    assert s[j] == '.';
    SoleOccurrence(s, i, '@');
    assert forall k | 0 <= k < |s| && k != i :: !IsWhiteSpace(s[k]) && s[k] != '@';
    assert Plain(s[..i]);
    assert Plain(s[i + 1..j]);
    assert Plain(s[j + 1..]);
  }

  /** isValidEmail accepts exactly the strings of the shape above. */
  lemma EmailCharacterization(s: string)
    ensures IsValidEmail(s) <==> EmailShape(s)
  {
    if IsValidEmail(s) {
      EmailMatchHasShape(s);
    }
    if EmailShape(s) {
      EmailShapeMatches(s);
    }
  }

  lemma EmailAccepted()
    ensures IsValidEmail("a@b.co")
  {
    var s := "a@b.co";
    assert s[1] == '@' && s[3] == '.';
    assert Plain(s[..1]) && Plain(s[2..3]) && Plain(s[4..]);
  }

  lemma EmailWithoutDotRejected()
    ensures !IsValidEmail("a@b")
  {
  }

  lemma EmailWithSpaceRejected()
    ensures !IsValidEmail("a b@c.com")
  {
    assert !NoWhiteSpace("a b@c.com") by {
      assert IsWhiteSpace("a b@c.com"[1]);
    }
    EmailCharacterization("a b@c.com");
  }

  // ---------------------------------------------------------------------
  // Shared by isValidCPF and isValidCNPJ
  // ---------------------------------------------------------------------

  /** `s.replace(/[^\d]+/g, '')`: the decimal digits of `s`, in order. */
  function DigitsOnly(s: string): string {
    if s == [] then []
    else (if IsDecimalDigit(s[0]) then [s[0]] else []) + DigitsOnly(s[1..])
  }

  /** Stripping keeps only digits and never lengthens the input. */
  lemma {:induction false} DigitsOnlySpec(s: string)
    ensures |DigitsOnly(s)| <= |s|
    ensures forall k | 0 <= k < |DigitsOnly(s)| :: IsDecimalDigit(DigitsOnly(s)[k])
  {
    if s != [] {
      DigitsOnlySpec(s[1..]);
    }
  }

  /** Stripping a string of digits leaves it as it is. */
  lemma {:induction false} DigitsOnlyOfDigits(s: string)
    requires forall k | 0 <= k < |s| :: IsDecimalDigit(s[k])
    ensures DigitsOnly(s) == s
  {
    if s != [] {
      DigitsOnlyOfDigits(s[1..]);
      assert s == [s[0]] + s[1..];
    }
  }

  /** Stripping distributes over concatenation. */
  lemma {:induction false} DigitsOnlyConcat(a: string, b: string)
    ensures DigitsOnly(a + b) == DigitsOnly(a) + DigitsOnly(b)
  {
    if a != [] {
      assert (a + b)[0] == a[0];
      assert (a + b)[1..] == a[1..] + b;
      DigitsOnlyConcat(a[1..], b);
      var h := if IsDecimalDigit(a[0]) then [a[0]] else [];
      calc {
        DigitsOnly(a + b);
        h + DigitsOnly(a[1..] + b);
        h + (DigitsOnly(a[1..]) + DigitsOnly(b));
        (h + DigitsOnly(a[1..])) + DigitsOnly(b);
      }
    } else {
      assert a + b == b;
    }
  }

  /** Sum of `parseInt(d.charAt(k)) * w[k]` over the first n characters. */
  function WeightedSum(d: string, w: seq<int>, n: nat): int
    requires n <= |w| && n <= |d|
  {
    if n == 0 then 0 else WeightedSum(d, w, n - 1) + DigitValue(d[n - 1]) * w[n - 1]
  }

  /** A weighted sum over n characters reads only those n characters. */
  lemma {:induction false} WeightedSumPrefix(d: string, e: string, w: seq<int>, n: nat)
    requires n <= |w| && n <= |d| && n <= |e|
    requires forall k | 0 <= k < n :: d[k] == e[k]
    ensures WeightedSum(d, w, n) == WeightedSum(e, w, n)
  {
    if n > 0 {
      WeightedSumPrefix(d, e, w, n - 1);
    }
  }

  /** All characters equal: what `/(\d)\1{10}/` finds in an 11-digit string. */
  predicate AllSame(d: string) {
    forall k | 0 <= k < |d| :: d[k] == d[0]
  }

  // ---------------------------------------------------------------------
  // isValidCPF
  // ---------------------------------------------------------------------

  /** The weights 10..2 of the first CPF check digit. */
  const CpfFirstWeights: seq<int> := [10, 9, 8, 7, 6, 5, 4, 3, 2]

  /** The weights 11..2 of the second CPF check digit. */
  const CpfSecondWeights: seq<int> := [11, 10, 9, 8, 7, 6, 5, 4, 3, 2]

  /** `11 - (sum % 11)`, and 0 when that is 10 or more. */
  function CpfCheckDigit(sum: int): (digit: int)
    ensures 0 <= digit <= 9
    ensures sum % 11 >= 2 ==> digit + sum % 11 == 11
    ensures sum % 11 < 2 ==> digit == 0
  {
    var resto := 11 - sum % 11;
    if resto >= 10 then 0 else resto
  }

  /** What isValidCPF accepts: 11 digits after stripping, not all equal,
      and digits 10 and 11 equal to the check digits over the first 9 and
      the first 10 digits. */
  predicate CpfValid(cpf: string) {
    CpfDigitsValid(DigitsOnly(cpf))
  }

  /** The check isValidCPF makes on the stripped digits. */
  predicate CpfDigitsValid(d: string) {
    && |d| == 11
    && !AllSame(d)
    && DigitValue(d[9]) == CpfCheckDigit(WeightedSum(d, CpfFirstWeights, 9))
    && DigitValue(d[10]) == CpfCheckDigit(WeightedSum(d, CpfSecondWeights, 10))
  }

  /** isValidCPF, with its two accumulating loops. */
  method IsValidCpf(cpf: string) returns (ok: bool)
    ensures ok == CpfValid(cpf)
  {
    var d := DigitsOnly(cpf);
    if |d| != 11 || AllSame(d) {
      return false;
    }
    var soma := 0;
    for i := 0 to 9
      invariant soma == WeightedSum(d, CpfFirstWeights, i)
    {
      soma := soma + DigitValue(d[i]) * (10 - i);
    }
    var resto := 11 - soma % 11;
    var digito1 := if resto >= 10 then 0 else resto;
    soma := 0;
    for i := 0 to 10
      invariant soma == WeightedSum(d, CpfSecondWeights, i)
    {
      soma := soma + DigitValue(d[i]) * (11 - i);
    }
    resto := 11 - soma % 11;
    var digito2 := if resto >= 10 then 0 else resto;
    ok := digito1 == DigitValue(d[9]) && digito2 == DigitValue(d[10]);
  }

  /** Changing the last digit of an accepted CPF makes it rejected. */
  lemma CpfLastDigitMatters(cpf: string, c: char)
    requires CpfValid(cpf)
    requires IsDecimalDigit(c) && c != DigitsOnly(cpf)[10]
    ensures !CpfValid(DigitsOnly(cpf)[..10] + [c])
  {
    var d := DigitsOnly(cpf);
    DigitsOnlySpec(cpf);
    var t := d[..10] + [c];
    assert forall k | 0 <= k < |t| :: IsDecimalDigit(t[k]);
    DigitsOnlyOfDigits(t);
    WeightedSumPrefix(t, d, CpfSecondWeights, 10);
  }

  /** Punctuation between the digits ("529.982.247-25") changes neither
      verdict: both validators strip non-digits first. */
  lemma FormattingIgnored(a: string, sep: string, b: string)
    requires DigitsOnly(sep) == []
    ensures CpfValid(a + sep + b) == CpfValid(a + b)
    ensures CnpjValid(a + sep + b) == CnpjValid(a + b)
  {
    DigitsOnlyConcat(a + sep, b);
    DigitsOnlyConcat(a, sep);
    DigitsOnlyConcat(a, b);
    assert DigitsOnly(a) + DigitsOnly(sep) == DigitsOnly(a);
    assert DigitsOnly(a + sep + b) == DigitsOnly(a + b);
  }

  /** A string of digits is checked as it is: the examples below are
      stated on the stripped digits. */
  lemma DigitStringChecked(s: string)
    requires forall k | 0 <= k < |s| :: IsDecimalDigit(s[k])
    ensures CpfValid(s) == CpfDigitsValid(s)
    ensures CnpjValid(s) == CnpjDigitsValid(s)
  {
    DigitsOnlyOfDigits(s);
  }

  lemma CpfReferenceSums()
    ensures WeightedSum("52998224725", CpfFirstWeights, 9) == 295
    ensures WeightedSum("52998224725", CpfSecondWeights, 10) == 347
  {
  }

  /** 529.982.247-25 is a valid CPF. */
  lemma CpfReference()
    ensures CpfDigitsValid("52998224725")
  {
    CpfReferenceSums();
    assert "52998224725"[1] != "52998224725"[0];
  }

  /** 529.982.247-26 is not: its last digit is not the second check digit. */
  lemma CpfFlippedRejected()
    ensures !CpfDigitsValid("52998224726")
  {
    assert WeightedSum("52998224726", CpfSecondWeights, 10) == 347;
  }

  /** Eleven equal digits are rejected, though their check digits match. */
  lemma CpfAllSameRejected()
    ensures !CpfDigitsValid("11111111111")
  {
    assert AllSame("11111111111");
  }

  /** Ten digits are rejected. */
  lemma CpfShortRejected()
    ensures !CpfDigitsValid("5299822472")
  {
  }

  // ---------------------------------------------------------------------
  // isValidCNPJ
  // ---------------------------------------------------------------------

  /** The weights of the first check digit as the code produces them:
      `pos` starts at 14 - 7 and wraps from below 2 to 9. */
  const CnpjFirstWeights: seq<int> := [7, 6, 5, 4, 3, 2, 9, 8, 7, 6, 5, 4]

  /** The weights of the second check digit: `pos` starts at 14 - 8. */
  const CnpjSecondWeights: seq<int> := [6, 5, 4, 3, 2, 9, 8, 7, 6, 5, 4, 3, 2]

  /** `sum % 11 < 2 ? 0 : 11 - sum % 11`. */
  function CnpjCheckDigit(sum: int): (digit: int)
    ensures 0 <= digit <= 9
    ensures sum % 11 >= 2 ==> digit + sum % 11 == 11
    ensures sum % 11 < 2 ==> digit == 0
  {
    var resto := sum % 11;
    if resto < 2 then 0 else 11 - resto
  }

  /** What isValidCNPJ accepts: 14 digits after stripping, and digits 13
      and 14 equal to the check digits over the first 12 and the first 13
      digits. No check for all digits being equal. */
  predicate CnpjValid(cnpj: string) {
    CnpjDigitsValid(DigitsOnly(cnpj))
  }

  /** The check isValidCNPJ makes on the stripped digits. */
  predicate CnpjDigitsValid(d: string) {
    && |d| == 14
    && DigitValue(d[12]) == CnpjCheckDigit(WeightedSum(d, CnpjFirstWeights, 12))
    && DigitValue(d[13]) == CnpjCheckDigit(WeightedSum(d, CnpjSecondWeights, 13))
  }

  /** isValidCNPJ, with its two loops over a post-decremented, wrapping `pos`. */
  method IsValidCnpj(cnpj: string) returns (ok: bool)
    ensures ok == CnpjValid(cnpj)
  {
    var d := DigitsOnly(cnpj);
    if |d| != 14 {
      return false;
    }
    var soma := 0;
    var pos := |d| - 7;
    for i := 0 to 12
      invariant soma == WeightedSum(d, CnpjFirstWeights, i)
      invariant i < 12 ==> pos == CnpjFirstWeights[i]
    {
      soma := soma + DigitValue(d[i]) * pos;
      pos := pos - 1;
      if pos < 2 {
        pos := 9;
      }
    }
    var resto := soma % 11;
    var digito1 := if resto < 2 then 0 else 11 - resto;
    soma := 0;
    pos := |d| - 8;
    for i := 0 to 13
      invariant soma == WeightedSum(d, CnpjSecondWeights, i)
      invariant i < 13 ==> pos == CnpjSecondWeights[i]
    {
      soma := soma + DigitValue(d[i]) * pos;
      pos := pos - 1;
      if pos < 2 {
        pos := 9;
      }
    }
    resto := soma % 11;
    var digito2 := if resto < 2 then 0 else 11 - resto;
    ok := digito1 == DigitValue(d[12]) && digito2 == DigitValue(d[13]);
  }

  /** Changing the last digit of an accepted CNPJ makes it rejected. */
  lemma CnpjLastDigitMatters(cnpj: string, c: char)
    requires CnpjValid(cnpj)
    requires IsDecimalDigit(c) && c != DigitsOnly(cnpj)[13]
    ensures !CnpjValid(DigitsOnly(cnpj)[..13] + [c])
  {
    var d := DigitsOnly(cnpj);
    DigitsOnlySpec(cnpj);
    var t := d[..13] + [c];
    assert forall k | 0 <= k < |t| :: IsDecimalDigit(t[k]);
    DigitsOnlyOfDigits(t);
    WeightedSumPrefix(t, d, CnpjSecondWeights, 13);
  }

  lemma CnpjStandardFirstSum()
    ensures WeightedSum("11222333000181", CnpjFirstWeights, 12) == 98
  {
    assert WeightedSum("11222333000181", CnpjFirstWeights, 6) == 43;
  }

  lemma CnpjReferenceSums()
    ensures WeightedSum("11222333000114", CnpjFirstWeights, 12) == 98
    ensures WeightedSum("11222333000114", CnpjSecondWeights, 13) == 106
  {
    assert WeightedSum("11222333000114", CnpjFirstWeights, 6) == 43;
    assert WeightedSum("11222333000114", CnpjSecondWeights, 6) == 56;
  }

  /** The usual weights of the first check digit, 5..2 then 9..2, which
      `pos` would produce starting from 12 - 7. */
  const CnpjUsualFirstWeights: seq<int> := [5, 4, 3, 2, 9, 8, 7, 6, 5, 4, 3, 2]

  /** The usual CNPJ check: the code's rule with the usual first weights. */
  predicate CnpjUsualDigitsValid(d: string) {
    && |d| == 14
    && DigitValue(d[12]) == CnpjCheckDigit(WeightedSum(d, CnpjUsualFirstWeights, 12))
    && DigitValue(d[13]) == CnpjCheckDigit(WeightedSum(d, CnpjSecondWeights, 13))
  }

  /** 11.222.333/0001-81 carries correct check digits under the usual
      weights: the sums are 102 and 120, giving 8 and 1. */
  lemma CnpjStandardReference()
    ensures CnpjUsualDigitsValid("11222333000181")
  {
    assert WeightedSum("11222333000181", CnpjUsualFirstWeights, 6) == 61;
    assert WeightedSum("11222333000181", CnpjUsualFirstWeights, 12) == 102;
    assert WeightedSum("11222333000181", CnpjSecondWeights, 6) == 56;
    assert WeightedSum("11222333000181", CnpjSecondWeights, 13) == 120;
  }

  /** The weights the code produces start at 7 instead, so the same
      number is rejected (CnpjStandardReference shows it is correct under
      the usual weights). */
  lemma CnpjStandardReferenceRejected()
    ensures !CnpjDigitsValid("11222333000181")
  {
    CnpjStandardFirstSum();
  }

  /** Under the code's weights 11.222.333/0001-14 is accepted. */
  lemma CnpjReference()
    ensures CnpjDigitsValid("11222333000114")
  {
    CnpjReferenceSums();
  }

  /** 11.222.333/0001-15 is not: its last digit is not the second check
      digit. */
  lemma CnpjFlippedRejected()
    ensures !CnpjDigitsValid("11222333000115")
  {
    assert WeightedSum("11222333000115", CnpjSecondWeights, 6) == 56;
    assert WeightedSum("11222333000115", CnpjSecondWeights, 13) == 106;
  }

  /** Thirteen and fifteen digits are rejected. */
  lemma CnpjWrongLength()
    ensures !CnpjDigitsValid("1122233300011")
    ensures !CnpjDigitsValid("112223330001140")
  {
  }
}
