/** Decimal texts of integers: what Rust's `to_string` writes and `parse` reads. */
module Decimal {
  const U64_MAX: nat := 0xffff_ffff_ffff_ffff

  predicate IsDigit(c: char) {
    '0' <= c <= '9'
  }

  predicate AllDigits(s: string) {
    forall i :: 0 <= i < |s| ==> IsDigit(s[i])
  }

  function DigitOf(n: nat): char
    requires n < 10
  {
    (n + '0' as nat) as char
  }

  function Digits(n: nat): (s: string)
    ensures |s| > 0
  {
    if n < 10 then [DigitOf(n)] else Digits(n / 10) + [DigitOf(n % 10)]
  }

  /** `i64::to_string`. */
  function Print(n: int): string {
    if n < 0 then "-" + Digits(-n) else Digits(n)
  }

  function DigitValue(c: char): (d: nat)
    requires IsDigit(c)
    ensures d < 10 && DigitOf(d) == c
  {
    c as nat - '0' as nat
  }

  function NumberOf(s: string): nat
    requires AllDigits(s)
  {
    if s == "" then 0 else 10 * NumberOf(s[..|s| - 1]) + DigitValue(s[|s| - 1])
  }

  /** No needless leading zero. */
  predicate Canonical(s: string) {
    s != "" && AllDigits(s) && (s == "0" || s[0] != '0')
  }

  lemma NumberAppend(s: string, d: nat)
    requires AllDigits(s) && d < 10
    ensures AllDigits(s + [DigitOf(d)]) && NumberOf(s + [DigitOf(d)]) == 10 * NumberOf(s) + d
  {
    var t := s + [DigitOf(d)];
    assert t[..|t| - 1] == s && t[|t| - 1] == DigitOf(d);
  }

  lemma {:induction false} DigitsCanonical(n: nat)
    ensures Canonical(Digits(n)) && NumberOf(Digits(n)) == n
    ensures Digits(n)[0] == '0' <==> n == 0
  {
    if n < 10 {
      assert Digits(n)[..0] == "";
    } else {
      DigitsCanonical(n / 10);
      NumberAppend(Digits(n / 10), n % 10);
    }
  }

  lemma {:induction false} NumberPositive(s: string)
    requires Canonical(s) && s != "0"
    ensures NumberOf(s) > 0
  {
    var init := s[..|s| - 1];
    if init != "" {
      assert init[0] == s[0];
      NumberPositive(init);
    }
  }

  /** Printing the value of a canonical text gives the text back. */
  lemma {:induction false} DigitsOfNumber(s: string)
    requires Canonical(s)
    ensures Digits(NumberOf(s)) == s
  {
    var init, d := s[..|s| - 1], DigitValue(s[|s| - 1]);
    assert s == init + [DigitOf(d)];
    if init == "" {
      assert NumberOf(s) == d;
    } else {
      assert init[0] == s[0];
      NumberPositive(init);
      DigitsOfNumber(init);
      assert NumberOf(s) / 10 == NumberOf(init) && NumberOf(s) % 10 == d;
    }
  }

  // ----- needless leading zeros -----

  function Zeros(n: nat): (s: string)
    ensures |s| == n
  {
    if n == 0 then "" else "0" + Zeros(n - 1)
  }

  lemma {:induction false} LeadingZero(s: string)
    requires AllDigits(s)
    ensures AllDigits("0" + s) && NumberOf("0" + s) == NumberOf(s)
  {
    var t := "0" + s;
    if s == "" {
      assert t[..0] == "" && NumberOf("0") == 10 * NumberOf("") + DigitValue('0');
    } else {
      var init := s[..|s| - 1];
      LeadingZero(init);
      assert t[..|t| - 1] == "0" + init;
    }
  }

  /** Every digit text is the decimal text of its value behind some zeros. */
  lemma {:induction false} ZerosThenDigits(s: string) returns (zeros: nat)
    requires s != "" && AllDigits(s)
    ensures s == Zeros(zeros) + Digits(NumberOf(s))
  {
    if Canonical(s) {
      DigitsOfNumber(s);
      return 0;
    }
    assert s == "0" + s[1..];
    LeadingZero(s[1..]);
    var z := ZerosThenDigits(s[1..]);
    return z + 1;
  }

  lemma {:induction false} ZerosKeepNumber(zeros: nat, s: string)
    requires AllDigits(s)
    ensures AllDigits(Zeros(zeros) + s) && NumberOf(Zeros(zeros) + s) == NumberOf(s)
  {
    if zeros == 0 {
      assert Zeros(0) + s == s;
    } else {
      ZerosKeepNumber(zeros - 1, s);
      var fewer := Zeros(zeros - 1);
      LeadingZero(fewer + s);
      assert Zeros(zeros) == "0" + fewer;
      hide NumberOf, Zeros, AllDigits;
      assert ("0" + fewer) + s == "0" + (fewer + s);
    }
  }
}
