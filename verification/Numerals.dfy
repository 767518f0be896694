/** Characters and decimal numbers, as they are written and read back. */
module Numerals {
  import opened Packing

  /** Char.IsWhiteSpace on single-byte text. */
  predicate IsWhiteSpace(c: char) {
    9 <= c as int <= 13 || c as int == 32 || c as int == 0x85 || c as int == 0xA0
  }

  predicate IsDigit(c: char) { '0' <= c <= '9' }

  predicate AllDigits(s: string) {
    forall i :: 0 <= i < |s| ==> IsDigit(s[i])
  }

  function DigitChar(d: nat): (c: char)
    requires d < 10
    ensures IsDigit(c) && c as int - '0' as int == d
  {
    ('0' as int + d) as char
  }

  /** Decimal digits, most significant first. */
  function Digits(n: nat): (s: string)
    ensures s != "" && AllDigits(s)
  {
    if n < 10 then [DigitChar(n)] else Digits(n / 10) + [DigitChar(n % 10)]
  }

  function DigitsValue(s: string): nat
    requires AllDigits(s)
  {
    if s == "" then 0 else DigitsValue(s[..|s| - 1]) * 10 + (s[|s| - 1] as int - '0' as int)
  }

  lemma {:induction false} DigitsReadBack(n: nat)
    ensures DigitsValue(Digits(n)) == n
  {
    if n >= 10 {
      DigitsReadBack(n / 10);
      var s := Digits(n);
      assert s[..|s| - 1] == Digits(n / 10);
    } else {
      assert Digits(n)[..0] == "";
    }
  }

  /** What an output stream writes for an integer. */
  function NumberText(n: int): (s: string)
    ensures s != ""
  {
    if n < 0 then "-" + Digits(-n) else Digits(n)
  }

  const TEN_DIGITS := "0123456789"

  lemma DigitsAre(c: char)
    ensures IsDigit(c) <==> c in TEN_DIGITS
    ensures IsWhiteSpace(c) <==> c in "\t\n\r " || c as int in {11, 12, 133, 160}
  {
    if IsDigit(c) {
      assert TEN_DIGITS[c as int - '0' as int] == c;
    }
  }

  /** A digit by itself, a further digit at the end, a minus in front: with these three rules every text is decimal. */
  lemma NumberTextIs(n: int, d: nat)
    requires d < 10
    ensures NumberText(d) == [TEN_DIGITS[d]]
    ensures n > 0 ==> NumberText(10 * n + d) == NumberText(n) + [TEN_DIGITS[d]]
    ensures n > 0 ==> NumberText(-n) == "-" + NumberText(n)
  {
    assert TEN_DIGITS[d] == DigitChar(d);
    if n > 0 {
      assert (10 * n + d) / 10 == n && (10 * n + d) % 10 == d;
    }
  }

  predicate InInt32(n: int) { -0x8000_0000 <= n < 0x8000_0000 }

  /** Convert.ToInt32 on an optional minus and digits; None is an exception. */
  function ToInt32(s: string): Option<int> {
    var negative := s != "" && s[0] == '-';
    var digits := if negative then s[1..] else s;
    if digits == "" || !AllDigits(digits) then None
    else
      var n: int := if negative then -(DigitsValue(digits) as int) else DigitsValue(digits);
      if InInt32(n) then Some(n) else None
  }

  /** Reading goes the same way: a further digit at the end is worth one, those before it ten times as much. */
  lemma ReadMoreDigits(s: string, d: nat)
    requires s != "" && AllDigits(s) && d < 10
    ensures ToInt32([TEN_DIGITS[d]]) == Some(d)
    ensures AllDigits(s + [TEN_DIGITS[d]]) && DigitsValue(s + [TEN_DIGITS[d]]) == 10 * DigitsValue(s) + d
    ensures ToInt32(s) == if DigitsValue(s) <= 2147483647 then Some(DigitsValue(s)) else None
    ensures ToInt32("-" + s) == if DigitsValue(s) <= 2147483648 then Some(0 - DigitsValue(s)) else None
  {
    assert TEN_DIGITS[d] == DigitChar(d);
    var one, more := [TEN_DIGITS[d]], s + [TEN_DIGITS[d]];
    assert more[..|more| - 1] == s && one[..|one| - 1] == "";
    assert DigitsValue(one) == d;
    assert IsDigit(s[0]);
    assert ("-" + s)[1..] == s;
  }

  lemma NumberReadBack(n: int)
    requires InInt32(n)
    ensures ToInt32(NumberText(n)) == Some(n)
  {
    if n < 0 {
      DigitsReadBack(-n);
      assert NumberText(n)[1..] == Digits(-n);
    } else {
      DigitsReadBack(n);
      assert IsDigit(Digits(n)[0]);
    }
  }

  lemma NumberShape(n: int)
    ensures IsDigit(NumberText(n)[0]) || NumberText(n)[0] == '-'
    ensures AllDigits(NumberText(n)[1..])
  {
    if n < 0 {
      assert NumberText(n)[1..] == Digits(-n);
    } else {
      assert IsDigit(Digits(n)[0]);
    }
  }

  /** A number outside the 32-bit integers is not read. */
  lemma NumberTooLarge(n: int)
    requires n < -2147483648 || 2147483647 < n
    ensures ToInt32(NumberText(n)) == None
  {
    hide Digits, DigitsValue;
    var digits := Digits(if n < 0 then -n else n);
    DigitsReadBack(if n < 0 then -n else n);
    assert IsDigit(digits[0]);
    assert ("-" + digits)[1..] == digits;
  }
}
