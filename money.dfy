/** Money text as JavaScript's `Number.prototype.toFixed(2)` renders it: a
    minus sign for negative amounts, then the magnitude rounded half up to
    whole cents, written with exactly two decimals. Amounts are exact reals;
    the rendering works on whole cents. */
module Money {
  import opened SeqUtil

  predicate IsDigit(c: char) { '0' <= c <= '9' }

  predicate AllDigits(s: string) { forall i :: 0 <= i < |s| ==> IsDigit(s[i]) }

  function DigitChar(d: nat): (c: char)
    requires d < 10
    ensures IsDigit(c) && (c == '0' <==> d == 0)
  {
    ('0' as int + d) as char
  }

  function DigitValue(c: char): (d: nat)
    requires IsDigit(c)
    ensures d < 10 && DigitChar(d) == c
  {
    c as int - '0' as int
  }

  /** The number a string of decimal digits denotes. */
  function DigitsValue(s: string): nat
    requires AllDigits(s)
  {
    if s == [] then 0 else DigitsValue(s[..|s| - 1]) * 10 + DigitValue(s[|s| - 1])
  }

  lemma DigitsValueSnoc(s: string, c: char)
    requires AllDigits(s) && IsDigit(c)
    ensures AllDigits(s + [c])
    ensures DigitsValue(s + [c]) == DigitsValue(s) * 10 + DigitValue(c)
  {
    assert (s + [c])[..|s|] == s;
  }

  /** Decimal text of `n`, as JavaScript writes a non-negative integer. */
  function NatText(n: nat): string
  {
    if n < 10 then [DigitChar(n)] else NatText(n / 10) + [DigitChar(n % 10)]
  }

  /** The text is digits only, and starts with `0` only for zero itself. */
  lemma {:induction false} NatTextDigits(n: nat)
    ensures var r := NatText(n);
      |r| > 0 && AllDigits(r) && (r[0] == '0' ==> n == 0)
  {
    if n >= 10 {
      NatTextDigits(n / 10);
      assert NatText(n)[0] == NatText(n / 10)[0];
    }
  }

  /** Reading the decimal text of `n` gives back `n`. */
  lemma {:induction false} NatTextValue(n: nat)
    ensures AllDigits(NatText(n)) && DigitsValue(NatText(n)) == n
  {
    NatTextDigits(n);
    if n < 10 {
      DigitsValueSnoc([], DigitChar(n));
      assert [] + [DigitChar(n)] == NatText(n);
    } else {
      NatTextValue(n / 10);
      DigitsValueSnoc(NatText(n / 10), DigitChar(n % 10));
    }
  }

  /** A whole number of cents written as units, a point and two decimals. */
  function CentsText(c: nat): string
  {
    NatText(c / 100) + "." + [DigitChar(c % 100 / 10), DigitChar(c % 10)]
  }

  /** The units, a point, then two digits. */
  lemma CentsTextShape(c: nat)
    ensures var r := CentsText(c);
      && |r| >= 4 && r[|r| - 3] == '.'
      && AllDigits(r[..|r| - 3]) && AllDigits(r[|r| - 2..])
      && r[..|r| - 3] == NatText(c / 100)
  {
    var r := CentsText(c);
    NatTextDigits(c / 100);
    assert r[..|r| - 3] == NatText(c / 100);
  }

  /** Reads text of the shape `<digits>.<digit><digit>` as cents. */
  function ParseCents(s: string): Option<nat>
  {
    if |s| >= 4 && s[|s| - 3] == '.' && AllDigits(s[..|s| - 3]) && AllDigits(s[|s| - 2..])
    then Some(DigitsValue(s[..|s| - 3]) * 100 + DigitsValue(s[|s| - 2..]))
    else None
  }

  /** Reads the text toFixed(2) produces, sign included, as signed cents. */
  function ParseMoney(s: string): Option<int>
  {
    if |s| > 0 && s[0] == '-' then
      match ParseCents(s[1..])
      case None => None
      case Some(c) => Some(0 - c as int)
    else
      match ParseCents(s)
      case None => None
      case Some(c) => Some(c)
  }

  lemma {:induction false} CentsTextRoundTrip(c: nat)
    ensures ParseCents(CentsText(c)) == Some(c)
  {
    var r := CentsText(c);
    var d1, d0 := DigitChar(c % 100 / 10), DigitChar(c % 10);
    CentsTextShape(c);
    assert r[|r| - 2..] == [d1, d0];
    NatTextValue(c / 100);
    DigitsValueSnoc([], d1);
    assert [] + [d1] == [d1];
    DigitsValueSnoc([d1], d0);
    assert [d1] + [d0] == [d1, d0];
  }

  /** Rounds a non-negative amount to the nearest whole number, halves up. */
  function RoundHalfUp(m: real): nat
    requires m >= 0.0
  {
    (m + 0.5).Floor
  }

  /** The rounded value is within half a unit of the amount, and an amount
      exactly halfway rounds up. */
  lemma RoundHalfUpNearest(m: real)
    requires m >= 0.0
    ensures var n := RoundHalfUp(m);
      n as real - 0.5 <= m < n as real + 0.5
  {
  }

  function Abs(x: real): real { if x < 0.0 then -x else x }

  /** `x.toFixed(2)` for an exact amount `x`. */
  function Fixed2(x: real): string
  {
    (if x < 0.0 then "-" else "") + CentsText(RoundHalfUp(Abs(x) * 100.0))
  }

  /** Every figure has exactly two decimals after a single point, and at
      least one digit before it, with only digits (after an optional leading
      minus sign) there. */
  lemma Fixed2TwoDecimals(x: real)
    ensures var r := Fixed2(x);
      && |r| >= 4 && r[|r| - 3] == '.' && IsDigit(r[|r| - 2]) && IsDigit(r[|r| - 1])
      && IsDigit(r[|r| - 4])
      && (forall i :: 0 <= i < |r| - 3 ==> IsDigit(r[i]) || (i == 0 && r[i] == '-'))
      && (r[0] == '-' <==> x < 0.0)
  {
    var t := CentsText(RoundHalfUp(Abs(x) * 100.0));
    CentsTextShape(RoundHalfUp(Abs(x) * 100.0));
    var r := Fixed2(x);
    if x < 0.0 {
      assert r == "-" + t;
      forall i | 1 <= i < |r| - 3 ensures IsDigit(r[i]) {
        assert r[i] == t[..|t| - 3][i - 1];
      }
      assert r[|r| - 2] == t[|t| - 2..][0];
      assert r[|r| - 1] == t[|t| - 2..][1];
      assert r[|r| - 4] == t[..|t| - 3][|t| - 4];
    } else {
      assert r == t;
      assert r[|r| - 2] == t[|t| - 2..][0];
      assert r[|r| - 1] == t[|t| - 2..][1];
      assert r[0] == t[..|t| - 3][0];
    }
  }

  /** Reading a rendered figure back gives whole cents within half a cent of
      the amount: the text is the amount rounded to cents, sign included. */
  lemma Fixed2Accurate(x: real)
    ensures ParseMoney(Fixed2(x)).Some?
    ensures -0.5 <= ParseMoney(Fixed2(x)).value as real - x * 100.0 <= 0.5
  {
    var n := RoundHalfUp(Abs(x) * 100.0);
    RoundHalfUpNearest(Abs(x) * 100.0);
    var t := CentsText(n);
    CentsTextShape(n);
    CentsTextRoundTrip(n);
    if x < 0.0 {
      assert Fixed2(x) == "-" + t;
      assert Fixed2(x)[1..] == t;
    } else {
      assert Fixed2(x) == t;
      assert t[0] == t[..|t| - 3][0];
    }
  }
}
