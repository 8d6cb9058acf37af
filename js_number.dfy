/** JavaScript's `parseFloat` on decimal text, as the number inputs of the split
    form use it (`parseFloat(e.target.value) || 0`). The value is exact: the
    result is the real number the longest decimal prefix denotes. */
module JsNumber {

  import opened Wrappers
  import opened JsText

  predicate IsDigit(c: char) {
    '0' <= c <= '9'
  }

  predicate AllDigits(s: string) {
    forall i :: 0 <= i < |s| ==> IsDigit(s[i])
  }

  function DigitValue(c: char): nat
    requires IsDigit(c)
  {
    c as int - '0' as int
  }

  function DigitChar(d: nat): (c: char)
    requires d < 10
    ensures IsDigit(c) && DigitValue(c) == d
  {
    ('0' as int + d) as char
  }

  /** The length of the run of digits that starts `s`. */
  function DigitRun(s: string): (n: nat)
    ensures n <= |s| && AllDigits(s[..n])
    ensures n < |s| ==> !IsDigit(s[n])
    decreases |s|
  {
    if |s| > 0 && IsDigit(s[0]) then
      var k := DigitRun(s[1..]);
      assert s[..k + 1] == [s[0]] + s[1..][..k];
      k + 1
    else 0
  }

  /** The number a string of decimal digits denotes. */
  function DigitsValue(ds: string): nat
    requires AllDigits(ds)
    decreases |ds|
  {
    if |ds| == 0 then 0 else DigitsValue(ds[..|ds| - 1]) * 10 + DigitValue(ds[|ds| - 1])
  }

  function Pow10(k: nat): (r: real)
    ensures r >= 1.0
  {
    if k == 0 then 1.0 else 10.0 * Pow10(k - 1)
  }

  /** `x * 10^e`. */
  function Scale(x: real, e: int): real {
    if e >= 0 then x * Pow10(e) else x / Pow10(-e)
  }

  /** The value of an exponent part `e[+|-]digits` at the start of `s`; 0 when
      there is none, an `e` without digits not being part of the number. */
  function ExponentOf(s: string): int {
    if |s| > 0 && (s[0] == 'e' || s[0] == 'E') then
      var u := s[1..];
      var negative := |u| > 0 && u[0] == '-';
      var w := if |u| > 0 && (u[0] == '-' || u[0] == '+') then u[1..] else u;
      var k := DigitRun(w);
      if negative then -(DigitsValue(w[..k]) as int) else DigitsValue(w[..k])
    else 0
  }

  /** `parseFloat(s)`: leading whitespace is skipped, then an optional sign, the
      integer digits, an optional `.` with fraction digits and an optional
      exponent are read as far as they go; `None` (NaN) when there is neither an
      integer nor a fraction digit. */
  function ParseFloat(s: string): Option<real> {
    ParseDecimalPrefix(TrimStart(s))
  }

  /** The longest decimal prefix of `t`, read as a number. */
  function ParseDecimalPrefix(t: string): Option<real> {
    var negative := |t| > 0 && t[0] == '-';
    var u := if |t| > 0 && (t[0] == '-' || t[0] == '+') then t[1..] else t;
    var k := DigitRun(u);
    var rest := u[k..];
    var point := |rest| > 0 && rest[0] == '.';
    var f := if point then DigitRun(rest[1..]) else 0;
    var fraction := if point then rest[1..][..f] else "";
    var after := if point then rest[1 + f..] else rest;
    if k == 0 && f == 0 then None
    else
      var mantissa := DigitsValue(u[..k]) as real + DigitsValue(fraction) as real / Pow10(|fraction|);
      var v := Scale(mantissa, ExponentOf(after));
      Some(if negative then -v else v)
  }

  /** `parseFloat(v) || 0`: what a number field stores. */
  function StoredInput(v: string): real {
    OrZero(ParseFloat(v))
  }

  /** The decimal text of a natural number, without leading zeros. */
  function NatText(n: nat): (s: string)
    ensures |s| >= 1 && AllDigits(s)
  {
    if n < 10 then [DigitChar(n)] else NatText(n / 10) + [DigitChar(n % 10)]
  }

  // ---------------------------------------------------------------------

  lemma {:induction false} DigitsValueOfNatText(n: nat)
    ensures DigitsValue(NatText(n)) == n
  {
    if n >= 10 {
      DigitsValueOfNatText(n / 10);
      var s := NatText(n / 10) + [DigitChar(n % 10)];
      assert s[..|s| - 1] == NatText(n / 10);
    }
  }

  lemma {:induction false} DigitRunOfDigits(ds: string, q: string)
    requires AllDigits(ds)
    requires |q| == 0 || !IsDigit(q[0])
    ensures DigitRun(ds + q) == |ds|
    decreases |ds|
  {
    if |ds| == 0 {
      assert ds + q == q;
    } else {
      assert (ds + q)[1..] == ds[1..] + q;
      DigitRunOfDigits(ds[1..], q);
    }
  }

  /** An input with no digit at all, such as the empty field, is stored as 0. */
  lemma {:induction false} NoDigitsStoresZero(s: string)
    requires forall i :: 0 <= i < |s| ==> !IsDigit(s[i])
    ensures ParseFloat(s) == None
    ensures StoredInput(s) == 0.0
  {
    var t := TrimStart(s);
    assert forall i :: 0 <= i < |t| ==> t[i] == s[|s| - |t| + i];
    var u := if |t| > 0 && (t[0] == '-' || t[0] == '+') then t[1..] else t;
    assert forall i :: 0 <= i < |u| ==> !IsDigit(u[i]);
    assert DigitRun(u) == 0;
    // With no integer digits the rest is all of `u`, and a '.' there is not
    // followed by a digit either.
    if |u| > 0 && u[0] == '.' {
      assert |u[1..]| > 0 ==> !IsDigit(u[1..][0]);
    }
  }

  /** The digits of a number, followed by anything that cannot continue it. */
  lemma {:induction false} ParseDecimalPrefixNat(n: nat, q: string)
    requires |q| == 0 || (!IsDigit(q[0]) && q[0] != '.' && q[0] != 'e' && q[0] != 'E')
    ensures ParseDecimalPrefix(NatText(n) + q) == Some(n as real)
  {
    var ds := NatText(n);
    var t := ds + q;
    assert t[0] == ds[0] && IsDigit(t[0]);
    DigitRunOfDigits(ds, q);
    assert t[..|ds|] == ds;
    assert t[|ds|..] == q;
    assert ExponentOf(q) == 0;
    DigitsValueOfNatText(n);
    assert DigitsValue("") as real / Pow10(0) == 0.0;
    assert Scale(n as real, 0) == n as real;
  }

  /** Decimal text of a number, with whitespace before it and anything after it
      that cannot continue a number, reads back as that number. */
  lemma {:induction false} ParseNatText(p: string, n: nat, q: string)
    requires AllWhitespace(p)
    requires |q| == 0 || (!IsDigit(q[0]) && q[0] != '.' && q[0] != 'e' && q[0] != 'E')
    ensures ParseFloat(p + NatText(n) + q) == Some(n as real)
    ensures StoredInput(p + NatText(n) + q) == n as real
  {
    var ds := NatText(n);
    assert p + ds + q == p + (ds + q);
    assert !IsWhitespace((ds + q)[0]);
    TrimStartPadded(p, ds + q);
    ParseDecimalPrefixNat(n, q);
  }
}
