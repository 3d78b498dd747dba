/** Decimal numerals: printing, zero padding, and reading back. */
module Decimal {
  predicate IsDigit(c: char) { '0' <= c <= '9' }

  predicate AllDigits(s: string) { forall i :: 0 <= i < |s| ==> IsDigit(s[i]) }

  function Value(s: string): nat
    requires AllDigits(s)
  {
    if s == "" then 0 else 10 * Value(s[..|s| - 1]) + (s[|s| - 1] - '0') as nat
  }

  function Digit(n: nat): (c: char)
    requires n < 10
    ensures IsDigit(c) && (c - '0') as nat == n
  {
    '0' + n as char
  }

  function Text(n: nat): (s: string)
    ensures AllDigits(s) && s != ""
  {
    if n < 10 then [Digit(n)] else Text(n / 10) + [Digit(n % 10)]
  }

  /** At least `width` digits, filled up with zeros on the left. */
  function ZeroFilled(t: string, width: nat): (s: string)
    requires AllDigits(t)
    ensures AllDigits(s) && |s| >= width && |s| >= |t|
    decreases width - |t|
  {
    if |t| >= width then t else ZeroFilled("0" + t, width)
  }

  function Padded(n: nat, width: nat): (s: string)
    ensures AllDigits(s) && |s| >= width && s != ""
  {
    ZeroFilled(Text(n), width)
  }

  /** A numeral without a superfluous leading zero. */
  predicate Canonical(s: string) { s != "" && AllDigits(s) && (s[0] == '0' ==> |s| == 1) }

  lemma {:induction false} TextReadsBack(n: nat)
    ensures Value(Text(n)) == n
  {
    if n >= 10 {
      TextReadsBack(n / 10);
      assert Text(n)[..|Text(n)| - 1] == Text(n / 10);
    } else {
      assert Value([]) == 0;
    }
  }

  lemma {:induction false} TextIsCanonical(n: nat)
    ensures Canonical(Text(n))
    ensures n > 0 ==> Text(n)[0] != '0'
  {
    if n >= 10 { TextIsCanonical(n / 10); }
  }

  lemma {:induction false} LeadingZero(s: string)
    requires AllDigits(s)
    ensures Value("0" + s) == Value(s)
  {
    if s == "" {
      assert ("0" + s)[..0] == "";
    } else {
      LeadingZero(s[..|s| - 1]);
      assert ("0" + s)[..|s|] == "0" + s[..|s| - 1];
    }
  }

  lemma {:induction false} FillingKeepsValue(t: string, width: nat)
    requires AllDigits(t)
    ensures Value(ZeroFilled(t, width)) == Value(t)
    decreases width - |t|
  {
    if |t| < width {
      LeadingZero(t);
      FillingKeepsValue("0" + t, width);
    }
  }

  /** A padded number reads back as the same number. */
  lemma PaddedReadsBack(n: nat, width: nat)
    ensures Value(Padded(n, width)) == n
  {
    TextReadsBack(n);
    FillingKeepsValue(Text(n), width);
  }

  /** A canonical numeral is the text of its value. */
  lemma {:induction false} CanonicalIsText(s: string)
    requires Canonical(s)
    ensures Text(Value(s)) == s
  {
    var n := |s| - 1;
    if n == 0 {
      assert s == [s[0]] && Value(s[..0]) == 0;
    } else {
      CanonicalIsText(s[..n]);
      PositiveValue(s[..n]);
      assert s == s[..n] + [s[n]];
      assert Value(s) / 10 == Value(s[..n]) && Value(s) % 10 == (s[n] - '0') as nat;
    }
  }

  lemma {:induction false} PositiveValue(s: string)
    requires AllDigits(s) && s != "" && s[0] != '0'
    ensures Value(s) > 0
  {
    if |s| == 1 {
    } else {
      PositiveValue(s[..|s| - 1]);
    }
  }
}
