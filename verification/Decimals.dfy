/** Numbers of the rule language as exact decimals. */
module Decimals {
  // How ":g" prints them and how the tokenizer reads them.

  import opened Text

  /** (-1)^neg * mag * 10^exp. */
  datatype Num = Num(neg: bool, mag: nat, exp: int)

  /** One representation for each value. */
  predicate Normal(n: Num) {
    if n.mag == 0 then !n.neg && n.exp == 0 else n.mag % 10 != 0
  }

  function Normalize(mag: nat, exp: int): (r: (nat, int))
    ensures mag != 0 ==> 0 < r.0 <= mag && r.0 % 10 != 0
    ensures mag == 0 ==> r == (0, 0)
    decreases mag
  {
    if mag == 0 then (0, 0)
    else if mag % 10 == 0 then Normalize(mag / 10, exp + 1)
    else (mag, exp)
  }

  function MakeNum(neg: bool, mag: nat, exp: int): (n: Num)
    ensures Normal(n)
  {
    var (m, e) := Normalize(mag, exp);
    Num(neg && m != 0, m, e)
  }

  function Pow10(k: nat): (p: nat)
    ensures p > 0
  {
    if k == 0 then 1 else 10 * Pow10(k - 1)
  }

  /** The real number denoted. */
  function Value(n: Num): real {
    var m := if n.exp >= 0 then (n.mag * Pow10(n.exp)) as real else n.mag as real / Pow10(-n.exp) as real;
    if n.neg then -m else m
  }

  // ---------------------------------------------------------------- digit strings

  function DigitChar(d: nat): char
    requires d < 10
  {
    ('0' as int + d) as char
  }

  function DigitValue(c: char): nat {
    if IsDigit(c) then c as int - '0' as int else 0
  }

  predicate AllDigits(s: string) {
    forall i :: 0 <= i < |s| ==> IsDigit(s[i])
  }

  function Digits(n: nat): (s: string)
    ensures |s| > 0 && AllDigits(s)
  {
    if n < 10 then [DigitChar(n)] else Digits(n / 10) + [DigitChar(n % 10)]
  }

  function NatOf(s: string): nat {
    if s == [] then 0 else 10 * NatOf(s[..|s| - 1]) + DigitValue(s[|s| - 1])
  }

  function Zeros(k: nat): (s: string)
    ensures |s| == k && AllDigits(s)
  {
    seq(k, _ => '0')
  }

  lemma {:induction false} NatOfDigits(n: nat)
    ensures NatOf(Digits(n)) == n
  {
    if n >= 10 {
      NatOfDigits(n / 10);
      assert Digits(n)[..|Digits(n)| - 1] == Digits(n / 10);
    }
  }

  lemma {:induction false} NatOfZerosBefore(k: nat, s: string)
    ensures NatOf(Zeros(k) + s) == NatOf(s)
  {
    if s != [] {
      NatOfZerosBefore(k, s[..|s| - 1]);
      assert (Zeros(k) + s)[..k + |s| - 1] == Zeros(k) + s[..|s| - 1];
    } else if k > 0 {
      NatOfZerosBefore(k - 1, []);
      assert Zeros(k) + [] == Zeros(k);
      assert Zeros(k)[..k - 1] == Zeros(k - 1) + [];
    }
  }

  lemma {:induction false} NatOfZerosAfter(k: nat, s: string)
    ensures NatOf(s + Zeros(k)) == NatOf(s) * Pow10(k)
  {
    if k == 0 {
      assert s + Zeros(0) == s;
    } else {
      hide NatOf, Pow10;
      var t := s + Zeros(k);
      NatOfZerosAfter(k - 1, s);
      assert t[..|t| - 1] == s + Zeros(k - 1) && t[|t| - 1] == '0';
      assert NatOf(t) == 10 * NatOf(t[..|t| - 1]) by { NatOfZeroLast(t); }
      TenTimes(NatOf(s), k);
    }
  }

  lemma NatOfZeroLast(t: string)
    requires t != [] && t[|t| - 1] == '0'
    ensures NatOf(t) == 10 * NatOf(t[..|t| - 1])
  {
  }

  lemma TenTimes(m: nat, k: nat)
    requires k > 0
    ensures 10 * (m * Pow10(k - 1)) == m * Pow10(k)
  {
  }

  lemma {:induction false} NormalizeShift(mag: nat, k: nat, exp: int)
    requires mag % 10 != 0
    ensures Normalize(mag * Pow10(k), exp) == (mag, exp + k)
  {
    hide Normalize;
    if k == 0 {
      NormalizeKeeps(mag, exp);
    } else {
      var p := Pow10(k - 1);
      NormalizeShift(mag, k - 1, exp + 1);
      TimesTen(mag, p);
      NormalizeTen(mag * p, exp);
    }
  }

  lemma TimesTen(m: nat, p: nat)
    requires m > 0 && p > 0
    ensures m * (10 * p) == 10 * (m * p) && m * p > 0
  {
  }

  lemma NormalizeKeeps(m: nat, exp: int)
    requires m % 10 != 0
    ensures Normalize(m, exp) == (m, exp)
  {
  }

  lemma NormalizeTen(m: nat, exp: int)
    requires m > 0
    ensures Normalize(10 * m, exp) == Normalize(m, exp + 1)
  {
    assert 10 * m % 10 == 0 && 10 * m / 10 == m;
  }

  lemma {:induction false} DigitsBound(n: nat)
    ensures n < Pow10(|Digits(n)|)
  {
    if n >= 10 {
      DigitsBound(n / 10);
    }
  }

  lemma {:induction false} FewDigits(n: nat, k: nat)
    requires k > 0 && n < Pow10(k)
    ensures |Digits(n)| <= k
  {
    if n >= 10 {
      FewDigits(n / 10, k - 1);
    }
  }

  // ---------------------------------------------------------------- printing

  const PRECISION := 6

  function Quotient(m: nat, p: nat): (q: nat)
    requires p > 0
    ensures q * p <= m < q * p + p
  {
    m / p
  }

  /** Integer quotient by 10^k, ties to even. */
  function RoundHalfEven(mag: nat, k: nat): nat {
    var q := Quotient(mag, Pow10(k));
    var r := mag - q * Pow10(k);
    if 2 * r > Pow10(k) || (2 * r == Pow10(k) && q % 2 == 1) then q + 1 else q
  }

  /** At most six significant digits, trailing zeros gone. */
  function Significant(mag: nat, exp: int): (r: (nat, int))
    requires mag % 10 != 0
    ensures r.0 % 10 != 0
  {
    var n := |Digits(mag)|;
    if n <= PRECISION then (mag, exp)
    else
      DigitsPositive(mag, n - PRECISION);
      Normalize(RoundHalfEven(mag, n - PRECISION), exp + n - PRECISION)
  }

  lemma {:induction false} DigitsAtLeast(n: nat)
    requires n > 0
    ensures n >= Pow10(|Digits(n)| - 1)
  {
    if n >= 10 {
      DigitsAtLeast(n / 10);
    }
  }

  lemma {:induction false} Pow10Adds(a: nat, b: nat)
    ensures Pow10(a + b) == Pow10(a) * Pow10(b)
  {
    if a > 0 {
      Pow10Adds(a - 1, b);
      assert Pow10(a + b) == 10 * Pow10(a - 1 + b);
    }
  }

  lemma TimesMonotone(a: nat, b: nat, p: nat)
    requires a <= b
    ensures a * p <= b * p
  {
  }

  lemma QuotientAtLeast(m: nat, p: nat, q: nat)
    requires p > 0 && m >= p * q
    ensures Quotient(m, p) >= q
  {
    if Quotient(m, p) < q {
      TimesMonotone(Quotient(m, p) + 1, q, p);
    }
  }

  lemma QuotientBelow(m: nat, p: nat, q: nat)
    requires p > 0 && m < p * q
    ensures Quotient(m, p) < q
  {
    if Quotient(m, p) >= q {
      TimesMonotone(q, Quotient(m, p), p);
    }
  }

  lemma DigitsPositive(mag: nat, k: nat)
    requires mag > 0 && k < |Digits(mag)|
    ensures RoundHalfEven(mag, k) > 0
  {
    var n := |Digits(mag)|;
    DigitsAtLeast(mag);
    Pow10Adds(k, n - 1 - k);
    QuotientAtLeast(mag, Pow10(k), Pow10(n - 1 - k));
  }

  /** Power of ten of the leading digit. */
  function Leading(mag: nat, exp: int): int {
    |Digits(mag)| - 1 + exp
  }

  function Fixed(mag: nat, exp: int): string {
    var ds := Digits(mag);
    if exp >= 0 then ds + Zeros(exp)
    else if |ds| + exp > 0 then ds[..|ds| + exp] + "." + ds[|ds| + exp..]
    else "0." + Zeros(-exp - |ds|) + ds
  }

  function Scientific(mag: nat, exp: int): string {
    var ds := Digits(mag);
    var x := Leading(mag, exp);
    var m := if |ds| == 1 then ds else ds[..1] + "." + ds[1..];
    var a := Digits(if x < 0 then -x else x);
    m + "e" + (if x < 0 then "-" else "+") + (if |a| < 2 then "0" + a else a)
  }

  function FormatMag(mag: nat, exp: int): string
    requires mag % 10 != 0
  {
    var (m, e) := Significant(mag, exp);
    if -4 <= Leading(m, e) < PRECISION then Fixed(m, e) else Scientific(m, e)
  }

  /** f"{value:g}". */
  function FormatG(n: Num): string
    requires Normal(n)
  {
    if n.mag == 0 then "0" else Sign(n.neg) + FormatMag(n.mag, n.exp)
  }

  // ---------------------------------------------------------------- reading

  function DigitRun(s: string): (k: nat)
    ensures k <= |s|
  {
    if s != [] && IsDigit(s[0]) then DigitRun(s[1..]) + 1 else 0
  }

  function ScanUnsigned(s: string): (n: Option<nat>)
    ensures n.Some? ==> 0 < n.value <= |s|
  {
    var d := DigitRun(s);
    if d == 0 then None
    else if d < |s| && s[d] == '.' && DigitRun(s[d + 1..]) > 0 then Some(d + 1 + DigitRun(s[d + 1..]))
    else Some(d)
  }

  /** Length of the match of -?\d+(\.\d+)? at the head of s. */
  function ScanNumber(s: string): (n: Option<nat>)
    ensures n.Some? ==> 0 < n.value <= |s|
  {
    if s != [] && s[0] == '-' then
      var n := ScanUnsigned(s[1..]);
      if n.Some? then Some(n.value + 1) else None
    else ScanUnsigned(s)
  }

  function ReadUnsigned(neg: bool, s: string): (n: Num)
    ensures Normal(n)
  {
    var d := DigitRun(s);
    if d < |s| && s[d] == '.' then
      var frac := s[d + 1..];
      var f := DigitRun(frac);
      MakeNum(neg, NatOf(s[..d] + frac[..f]), 0 - f)
    else MakeNum(neg, NatOf(s[..d]), 0)
  }

  /** float(raw) for a raw text the pattern matched. */
  function ReadNumber(raw: string): (n: Num)
    ensures Normal(n)
  {
    if raw != [] && raw[0] == '-' then ReadUnsigned(true, raw[1..]) else ReadUnsigned(false, raw)
  }

  /** Printed with no loss and no exponent: at most six digits, between 0.0001 and 999999. */
  predicate Exact(n: Num) {
    n.mag == 0 || (|Digits(n.mag)| <= PRECISION && -4 <= Leading(n.mag, n.exp) < PRECISION)
  }

  // ---------------------------------------------------------------- printing against reading

  lemma {:induction false} DigitRunAll(s: string, rest: string)
    requires AllDigits(s) && (rest == [] || !IsDigit(rest[0]))
    ensures DigitRun(s + rest) == |s|
  {
    if s == [] {
      assert s + rest == rest;
    } else {
      assert (s + rest)[1..] == s[1..] + rest;
      DigitRunAll(s[1..], rest);
    }
  }

  /** A text that a printed number may be followed by without being read as part of it. */
  predicate EndsNumber(rest: string) {
    rest == [] || (!IsDigit(rest[0]) && rest[0] != '.')
  }

  /** raw is scanned whole in front of rest, and denotes n. */
  predicate ReadsAs(raw: string, rest: string, n: Num) {
    ScanNumber(raw + rest) == Some(|raw|) && ReadNumber(raw) == n
  }

  function Sign(neg: bool): string {
    if neg then "-" else ""
  }

  lemma ScanSigned(neg: bool, s: string)
    requires s != [] && IsDigit(s[0])
    ensures var n := ScanUnsigned(s);
            ScanNumber(Sign(neg) + s) == if n.None? then None else Some(n.value + |Sign(neg)|)
  {
    assert (Sign(neg) + s)[|Sign(neg)|..] == s;
    assert !neg ==> Sign(neg) + s == s;
  }

  lemma ReadSigned(neg: bool, s: string)
    requires s != [] && IsDigit(s[0])
    ensures ReadNumber(Sign(neg) + s) == ReadUnsigned(neg, s)
  {
    assert (Sign(neg) + s)[|Sign(neg)|..] == s;
    assert !neg ==> Sign(neg) + s == s;
  }

  lemma Signed(neg: bool, s: string, rest: string)
    requires s != [] && IsDigit(s[0]) && ScanUnsigned(s + rest) == Some(|s|)
    ensures ReadsAs(Sign(neg) + s, rest, ReadUnsigned(neg, s))
  {
    hide ScanUnsigned, ReadUnsigned;
    ScanSigned(neg, s + rest);
    ReadSigned(neg, s);
    assert Sign(neg) + s + rest == Sign(neg) + (s + rest);
  }

  lemma ScanWhole(whole: string, rest: string)
    requires AllDigits(whole) && whole != [] && EndsNumber(rest)
    ensures ScanUnsigned(whole + rest) == Some(|whole|)
  {
    DigitRunAll(whole, rest);
  }

  lemma ReadWhole(neg: bool, whole: string)
    requires AllDigits(whole)
    ensures ReadUnsigned(neg, whole) == MakeNum(neg, NatOf(whole), 0)
  {
    DigitRunAll(whole, []);
    assert whole + [] == whole;
    assert whole[..|whole|] == whole;
  }

  lemma ScanFraction(whole: string, frac: string, rest: string)
    requires AllDigits(whole) && AllDigits(frac) && whole != [] && frac != [] && EndsNumber(rest)
    ensures ScanUnsigned(whole + "." + frac + rest) == Some(|whole| + 1 + |frac|)
  {
    var t := whole + "." + frac + rest;
    assert t == whole + ("." + frac + rest);
    DigitRunAll(whole, "." + frac + rest);
    assert t[|whole| + 1..] == frac + rest;
    DigitRunAll(frac, rest);
  }

  lemma ReadFraction(neg: bool, whole: string, frac: string)
    requires AllDigits(whole) && AllDigits(frac)
    ensures ReadUnsigned(neg, whole + "." + frac) == MakeNum(neg, NatOf(whole + frac), 0 - |frac|)
  {
    hide MakeNum, NatOf, DigitRun, AllDigits;
    var t := whole + "." + frac;
    assert t == whole + ("." + frac);
    DigitRunAll(whole, "." + frac);
    assert t[|whole| + 1..] == frac;
    assert frac + [] == frac;
    DigitRunAll(frac, []);
    assert t[..|whole|] == whole && frac[..|frac|] == frac;
  }

  lemma FirstDigit(s: string, rest: string)
    requires AllDigits(s) && s != []
    ensures IsDigit((s + rest)[0])
  {
    assert (s + rest)[0] == s[0];
  }

  lemma MakeNormal(neg: bool, mag: nat, exp: int)
    requires mag % 10 != 0
    ensures MakeNum(neg, mag, exp) == Num(neg, mag, exp)
  {
  }

  lemma FractionReadsAs(neg: bool, whole: string, frac: string, mag: nat, rest: string)
    requires AllDigits(whole) && AllDigits(frac) && whole != [] && frac != [] && EndsNumber(rest)
    requires mag % 10 != 0 && NatOf(whole + frac) == mag
    ensures ReadsAs(Sign(neg) + (whole + "." + frac), rest, Num(neg, mag, 0 - |frac|))
  {
    hide *;
    var t := whole + "." + frac;
    ScanFraction(whole, frac, rest);
    ReadFraction(neg, whole, frac);
    MakeNormal(neg, mag, 0 - |frac|);
    FirstDigit(whole, "." + frac);
    assert t == whole + ("." + frac);
    Signed(neg, t, rest);
  }

  lemma WholeReadsAs(neg: bool, mag: nat, exp: nat, rest: string)
    requires mag % 10 != 0 && EndsNumber(rest)
    ensures ReadsAs(Sign(neg) + (Digits(mag) + Zeros(exp)), rest, Num(neg, mag, exp))
  {
    var w := Digits(mag) + Zeros(exp);
    NatOfDigits(mag);
    NatOfZerosAfter(exp, Digits(mag));
    NormalizeShift(mag, exp, 0);
    ScanWhole(w, rest);
    ReadWhole(neg, w);
    Signed(neg, w, rest);
  }

  lemma PointInside(neg: bool, mag: nat, k: nat, rest: string)
    requires mag % 10 != 0 && EndsNumber(rest) && 0 < k < |Digits(mag)|
    ensures var ds := Digits(mag);
            ReadsAs(Sign(neg) + (ds[..k] + "." + ds[k..]), rest, Num(neg, mag, k - |ds|))
  {
    var ds := Digits(mag);
    NatOfDigits(mag);
    assert ds[..k] + ds[k..] == ds;
    FractionReadsAs(neg, ds[..k], ds[k..], mag, rest);
  }

  lemma PointBefore(neg: bool, mag: nat, k: nat, rest: string)
    requires mag % 10 != 0 && EndsNumber(rest)
    ensures var ds := Digits(mag);
            ReadsAs(Sign(neg) + ("0." + Zeros(k) + ds), rest, Num(neg, mag, 0 - k - |ds|))
  {
    hide ReadsAs;
    var ds := Digits(mag);
    NatOfDigits(mag);
    NatOfZerosBefore(k + 1, ds);
    assert "0" + (Zeros(k) + ds) == Zeros(k + 1) + ds;
    FractionReadsAs(neg, "0", Zeros(k) + ds, mag, rest);
    assert "0." + Zeros(k) + ds == "0" + "." + (Zeros(k) + ds);
  }

  lemma FixedReadsBack(neg: bool, mag: nat, exp: int, rest: string)
    requires mag % 10 != 0 && EndsNumber(rest)
    ensures ReadsAs(Sign(neg) + Fixed(mag, exp), rest, Num(neg, mag, exp))
  {
    hide ReadsAs;
    var ds := Digits(mag);
    NatOfDigits(mag);
    if exp >= 0 {
      WholeReadsAs(neg, mag, exp, rest);
    } else if |ds| + exp > 0 {
      PointInside(neg, mag, |ds| + exp, rest);
    } else {
      PointBefore(neg, mag, -exp - |ds|, rest);
    }
  }

  lemma ExactReadsBack(n: Num, rest: string)
    requires Normal(n) && Exact(n) && EndsNumber(rest)
    ensures ReadsAs(FormatG(n), rest, n)
  {
    if n.mag == 0 {
      ScanWhole("0", rest);
      ReadWhole(false, "0");
      Signed(false, "0", rest);
      assert [] + "0" == "0";
    } else {
      FixedReadsBack(n.neg, n.mag, n.exp, rest);
    }
  }

  lemma SignificantIsShort(mag: nat, exp: int)
    requires mag % 10 != 0
    ensures |Digits(Significant(mag, exp).0)| <= PRECISION
  {
    var n := |Digits(mag)|;
    if n > PRECISION {
      var k := n - PRECISION;
      DigitsBound(mag);
      Pow10Adds(k, PRECISION);
      QuotientBelow(mag, Pow10(k), Pow10(PRECISION));
      var q := RoundHalfEven(mag, k);
      if q == Pow10(PRECISION) {
        NormalizeShift(1, PRECISION, exp + k);
      } else {
        DigitsPositive(mag, k);
        FewDigits(Significant(mag, exp).0, PRECISION);
      }
    }
  }

  lemma {:induction false} RunStopsAt(s: string, k: nat)
    requires k < |s| && !IsDigit(s[k])
    ensures DigitRun(s) <= k
  {
    if k > 0 && IsDigit(s[0]) {
      RunStopsAt(s[1..], k - 1);
    }
  }

  lemma ScanStopsAt(s: string, k: nat)
    requires k < |s| && !IsDigit(s[k]) && s[k] != '.'
    ensures ScanUnsigned(s).Some? ==> ScanUnsigned(s).value <= k
  {
    var d := DigitRun(s);
    RunStopsAt(s, k);
    if d < k && s[d] == '.' {
      assert s[d + 1..][k - d - 1] == s[k];
      RunStopsAt(s[d + 1..], k - d - 1);
    }
  }

  /** A text with an exponent mark is never one number. */
  lemma ScientificIsNotRead(neg: bool, mag: nat, exp: int)
    ensures var raw := Sign(neg) + Scientific(mag, exp); ScanNumber(raw) != Some(|raw|)
  {
    var t := Scientific(mag, exp);
    var ds := Digits(mag);
    var k := if |ds| == 1 then 1 else |ds| + 1;
    assert t[k] == 'e';
    assert t[0] == ds[0];
    ScanStopsAt(t, k);
    var raw := Sign(neg) + t;
    assert raw[if neg then 1 else 0..] == t;
  }

  /** A printed number is one number token with the value printed exactly when the value has at
      most six significant digits and needs no exponent. */
  lemma NumberRoundTripIff(n: Num)
    requires Normal(n)
    ensures ReadsAs(FormatG(n), "", n) <==> Exact(n)
  {
    if Exact(n) {
      ExactReadsBack(n, []);
    } else {
      var (m, e) := Significant(n.mag, n.exp);
      SignificantIsShort(n.mag, n.exp);
      if -4 <= Leading(m, e) < PRECISION {
        FixedReadsBack(n.neg, m, e, []);
      } else {
        ScientificIsNotRead(n.neg, m, e);
        assert FormatG(n) + "" == FormatG(n);
      }
    }
  }
}
