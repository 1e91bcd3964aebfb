/** The printer of the fixed-point types, proved to be the inverse of the scanner and to choose
    the one canonical numeral of its value. */
module PriceFormat {
  import opened Decimal
  import opened Price
  import opened Wrappers

  function Magnitude(v: int): nat {
    if v < 0 then -v else v
  }

  function TrimZeros(s: string): (t: string)
    ensures AllDigits(s) ==> AllDigits(t)
    ensures t <= s && AllZeros(s[|t|..])
    ensures t != "" ==> t[|t| - 1] != '0'
  {
    if s != "" && s[|s| - 1] == '0' then
      var t := TrimZeros(s[..|s| - 1]);
      assert s[|t|..] == s[..|s| - 1][|t|..] + "0";
      t
    else s
  }

  /** The digits of v, padded so that one stands before the point. */
  function Padded(v: int, scale: nat): (d: string)
    ensures AllDigits(d) && |d| > scale && NatOf(d) == Magnitude(v)
    ensures |d| > scale + 1 ==> d[0] != '0'
  {
    var d := DigitsOf(Magnitude(v));
    if |d| <= scale then
      NatOfConcat(Zeros(scale - |d| + 1), d);
      NatOfZero(Zeros(scale - |d| + 1));
      Zeros(scale - |d| + 1) + d
    else d
  }

  /** Renders v at 10**scaleExp: no trailing fractional zeros, no exponent. */
  function Format(v: int, scaleExp: int): string
    requires scaleExp <= 0
  {
    var d, scale := Padded(v, -scaleExp), -scaleExp;
    var intPart, fracPart := d[..|d| - scale], TrimZeros(d[|d| - scale..]);
    (if v < 0 then "-" else "") + intPart + (if fracPart != "" then "." + fracPart else "")
  }

  /** The numeral Format writes out. */
  function Printed(v: int, scaleExp: int): (n: Numeral)
    requires scaleExp <= 0
    ensures n.WellFormed()
  {
    var d, scale := Padded(v, -scaleExp), -scaleExp;
    var fracPart := TrimZeros(d[|d| - scale..]);
    assert AllDigits(d[..|d| - scale]) && AllDigits(d[|d| - scale..]);
    Numeral(if v < 0 then Minus else Unsigned, d[..|d| - scale], fracPart != "", fracPart, NoExponent)
  }

  lemma FormatPrints(v: int, scaleExp: int)
    requires scaleExp <= 0
    ensures Format(v, scaleExp) == Printed(v, scaleExp).Text()
  {
    var n := Printed(v, scaleExp);
    WithoutExponent(SignText(n.sign) + n.whole, n.fraction);
  }

  lemma WithoutExponent(p: string, f: string)
    ensures p + "." + f + "" == p + ("." + f) && p + "" + "" + "" == p + ""
  {
  }

  /** What is printed is exactly v units of the scale. */
  lemma PrintedUnits(v: int, scaleExp: int)
    requires scaleExp <= 0
    ensures Units(Printed(v, scaleExp), scaleExp, v)
  {
    PrintedCut(v, scaleExp);
    PrintedSign(v, scaleExp);
    CutUnits(Printed(v, scaleExp), Padded(v, -scaleExp), scaleExp, v);
  }

  lemma PrintedSign(v: int, scaleExp: int)
    requires scaleExp <= 0
    ensures Signed(Printed(v, scaleExp).sign, NatOf(Padded(v, -scaleExp))) == v
  {
  }

  /** The numeral without an exponent whose parts are some digits cut at the point, trimmed. */
  predicate CutFrom(n: Numeral, d: string, scale: nat) {
    && AllDigits(d) && scale <= |d| && n.WellFormed() && n.exponent == NoExponent
    && n.whole == d[..|d| - scale] && n.fraction == TrimZeros(d[|d| - scale..])
  }

  lemma PrintedCut(v: int, scaleExp: int)
    requires scaleExp <= 0
    ensures CutFrom(Printed(v, scaleExp), Padded(v, -scaleExp), -scaleExp)
  {
  }

  function Signed(sign: Sign, units: nat): int {
    if sign == Minus then -(units as int) else units
  }

  lemma CutUnits(n: Numeral, d: string, scaleExp: int, v: int)
    requires scaleExp <= 0 && CutFrom(n, d, -scaleExp) && Signed(n.sign, NatOf(d)) == v
    ensures Units(n, scaleExp, v)
  {
    CutDigits(n, d, -scaleExp);
    WholeUnits(n, -scaleExp, NatOf(d));
  }

  /** A numeral with no more places than the scale denotes its digits, padded to the scale. */
  lemma WholeUnits(n: Numeral, scale: nat, units: nat)
    requires n.WellFormed() && n.exponent == NoExponent && |n.fraction| <= scale
    requires units == n.Significand() * Pow10(scale - |n.fraction|)
    ensures Units(n, 0 - scale, Signed(n.sign, units))
  {
    ShiftNat(n.Significand(), scale - |n.fraction|);
    ScaledValue(n, 0 - scale);
  }

  lemma CutDigits(n: Numeral, d: string, scale: nat)
    requires CutFrom(n, d, scale)
    ensures |n.fraction| <= scale && NatOf(d) == n.Significand() * Pow10(scale - |n.fraction|)
  {
    PaddedParts(d, scale);
  }

  /** Cutting digits at the point and trimming the places keeps their value, up to the places trimmed. */
  lemma PaddedParts(d: string, scale: nat)
    requires AllDigits(d) && scale <= |d|
    ensures AllDigits(d[..|d| - scale]) && AllDigits(d[|d| - scale..])
    ensures
      var whole, kept := d[..|d| - scale], TrimZeros(d[|d| - scale..]);
      && AllDigits(whole + kept) && |kept| <= scale
      && NatOf(d) == NatOf(whole + kept) * Pow10(scale - |kept|)
  {
    var whole, tail := d[..|d| - scale], d[|d| - scale..];
    assert d == whole + tail;
    TrimmedDigits(whole, tail);
  }

  lemma TrimmedDigits(whole: string, tail: string)
    requires AllDigits(whole) && AllDigits(tail)
    ensures AllDigits(whole + TrimZeros(tail))
    ensures NatOf(whole + tail) == NatOf(whole + TrimZeros(tail)) * Pow10(|tail| - |TrimZeros(tail)|)
  {
    var kept := TrimZeros(tail);
    var cut := tail[|kept|..];
    assert whole + tail == (whole + kept) + cut;
    NatOfConcat(whole + kept, cut);
    NatOfZero(cut);
  }

  lemma FormatLength(v: int, scaleExp: int)
    requires -64 <= scaleExp <= 0 && MIN_INT64 <= v <= MAX_INT64
    ensures |Format(v, scaleExp)| <= 96
  {
    PowerOfTenNineteen();
    DigitsOfLength(Magnitude(v), 19);
  }

  /** Printing then parsing gives the value back: always, except that unsigned types refuse the
      negative values they never hold and that the smallest int64 has no positive counterpart. */
  lemma RoundTrip(v: int, scaleExp: int, signed: bool)
    requires -64 <= scaleExp <= 0 && MIN_INT64 <= v <= MAX_INT64
    ensures Scanned(Format(v, scaleExp), scaleExp, signed) ==
      if v < 0 && !signed then Failure(Negative)
      else if v == MIN_INT64 then Failure(OutOfRange)
      else Success(v)
  {
    FormatLength(v, scaleExp);
    SaturationHarmless(Format(v, scaleExp), scaleExp, signed);
    FormatMeaning(v, scaleExp, signed);
    JudgeUnits(Printed(v, scaleExp), scaleExp, signed, v);
  }

  /** What is printed means what its numeral is worth. */
  lemma FormatMeaning(v: int, scaleExp: int, signed: bool)
    requires scaleExp <= 0
    ensures Meaning(Format(v, scaleExp), scaleExp, signed) == Judge(Printed(v, scaleExp), scaleExp, signed)
    ensures Units(Printed(v, scaleExp), scaleExp, v)
  {
    var s := Format(v, scaleExp);
    FormatPrints(v, scaleExp);
    ScanComplete(Printed(v, scaleExp));
    if s == "" || SpellsNotFinite(s) {
      NoNumber(s);
    }
    PrintedUnits(v, scaleExp);
  }

  lemma JudgeUnits(n: Numeral, scaleExp: int, signed: bool, v: int)
    requires n.WellFormed() && Units(n, scaleExp, v)
    ensures Judge(n, scaleExp, signed) ==
      if v < 0 && !signed then Failure(Negative)
      else if !InRange(v) then Failure(OutOfRange)
      else Success(v)
  {
    assert (v as real).Floor == v;
  }

  // ---------- canonical numerals ----------

  /** No plus sign, no exponent, no redundant zero at either end, no point without a fraction. */
  predicate Canonical(n: Numeral) {
    && n.WellFormed()
    && n.sign != Plus && n.exponent == NoExponent
    && n.whole != "" && (|n.whole| > 1 ==> n.whole[0] != '0')
    && (n.point <==> n.fraction != "")
    && (n.fraction != "" ==> n.fraction[|n.fraction| - 1] != '0')
    && (n.sign == Minus ==> n.Significand() > 0)
  }

  lemma PrintedCanonical(v: int, scaleExp: int)
    requires scaleExp <= 0
    ensures Canonical(Printed(v, scaleExp))
  {
    PrintedCut(v, scaleExp);
    CutPositive(Printed(v, scaleExp), Padded(v, -scaleExp), -scaleExp);
    PrintedWhole(v, scaleExp);
  }

  lemma PrintedWhole(v: int, scaleExp: int)
    requires scaleExp <= 0
    ensures var n := Printed(v, scaleExp); n.whole != "" && (|n.whole| > 1 ==> n.whole[0] != '0')
  {
  }

  lemma CutPositive(n: Numeral, d: string, scale: nat)
    requires CutFrom(n, d, scale)
    ensures NatOf(d) > 0 ==> n.Significand() > 0
  {
    CutDigits(n, d, scale);
  }

  lemma {:induction false} SameDigits(a: string, b: string)
    requires AllDigits(a) && AllDigits(b) && |a| == |b| && NatOf(a) == NatOf(b)
    ensures a == b
  {
    if a != "" {
      var p, q := a[|a| - 1], b[|b| - 1];
      LastDigit(NatOf(a[..|a| - 1]), DigitValue(p), NatOf(b[..|b| - 1]), DigitValue(q));
      SameDigits(a[..|a| - 1], b[..|b| - 1]);
      assert p == q;
      assert a == a[..|a| - 1] + [p] && b == b[..|b| - 1] + [q];
    }
  }

  lemma LastDigit(x: nat, p: nat, y: nat, q: nat)
    requires p < 10 && q < 10 && 10 * x + p == 10 * y + q
    ensures x == y && p == q
  {
  }

  lemma ShorterIsSmaller(a: string, b: string)
    requires AllDigits(a) && AllDigits(b) && a != "" && |a| < |b| && b[0] != '0'
    ensures NatOf(a) < NatOf(b)
  {
    NatOfUpper(a);
    NatOfLower(b);
    Pow10Monotone(|a|, |b| - 1);
  }

  /** Digit strings of the same value with the same number of fractional places are the same. */
  lemma SameWhole(n: Numeral, m: Numeral)
    requires Canonical(n) && Canonical(m) && |n.fraction| == |m.fraction| && n.Significand() == m.Significand()
    ensures n.whole == m.whole && n.fraction == m.fraction
  {
    var a, b := n.whole + n.fraction, m.whole + m.fraction;
    if |a| < |b| { ShorterIsSmaller(a, b); } else if |b| < |a| { ShorterIsSmaller(b, a); }
    SameDigits(a, b);
    assert n.whole == a[..|n.whole|] && m.whole == b[..|m.whole|];
    assert n.fraction == a[|n.whole|..] && m.fraction == b[|m.whole|..];
  }

  /** More fractional places than another numeral of the same size means a trailing zero. */
  lemma SamePlaces(n: Numeral, m: Numeral)
    requires Canonical(n) && Canonical(m)
    requires Shift(n.Significand() as real, -|n.fraction|) == Shift(m.Significand() as real, -|m.fraction|)
    ensures |n.fraction| >= |m.fraction|
  {
    var extra := |m.fraction| - |n.fraction|;
    var b := m.whole + m.fraction;
    assert m.fraction != "" ==> b[|b| - 1] == m.fraction[|m.fraction| - 1];
    if extra > 0 {
      ShiftAdd(n.Significand() as real, -|n.fraction|, |m.fraction|);
      ShiftAdd(m.Significand() as real, -|m.fraction|, |m.fraction|);
      ShiftNat(n.Significand(), extra);
      TrailingZero(b, n.Significand(), extra);
    }
  }

  lemma TrailingZero(b: string, k: nat, extra: nat)
    requires AllDigits(b) && b != "" && extra > 0 && NatOf(b) == k * Pow10(extra)
    ensures b[|b| - 1] == '0'
  {
    assert NatOf(b) == 10 * (k * Pow10(extra - 1));
    assert NatOf(b) == 10 * NatOf(b[..|b| - 1]) + DigitValue(b[|b| - 1]);
    assert DigitValue(b[|b| - 1]) == 0;
  }

  /** A number has one canonical numeral. */
  lemma CanonicalUnique(n: Numeral, m: Numeral)
    requires Canonical(n) && Canonical(m) && n.Value() == m.Value()
    ensures n == m
  {
    ShiftPositive(n.Significand(), -|n.fraction|);
    ShiftPositive(m.Significand(), -|m.fraction|);
    SamePlaces(n, m);
    SamePlaces(m, n);
    ShiftMonotone(n.Significand() as real, m.Significand() as real, -|n.fraction|);
    ShiftMonotone(m.Significand() as real, n.Significand() as real, -|n.fraction|);
    SameWhole(n, m);
  }

  /** Different values never print alike. */
  lemma FormatInjective(v: int, w: int, scaleExp: int)
    requires scaleExp <= 0
    ensures Format(v, scaleExp) == Format(w, scaleExp) ==> v == w
  {
    FormatPrints(v, scaleExp);
    FormatPrints(w, scaleExp);
    PrintedUnits(v, scaleExp);
    PrintedUnits(w, scaleExp);
    ScanComplete(Printed(v, scaleExp));
    ScanComplete(Printed(w, scaleExp));
  }

  /** Printing an accepted string normalises it: the answer is the canonical numeral of its number. */
  lemma FormatCanonical(s: string, scaleExp: int, signed: bool, n: Numeral)
    requires scaleExp <= 0 && Meaning(s, scaleExp, signed).Success?
    requires Canonical(n) && Scan(s).Some?
    ensures n.Text() == Format(Meaning(s, scaleExp, signed).value, scaleExp)
       <==> (ScanSound(s); n.Value() == Scan(s).value.Value())
  {
    var v := Meaning(s, scaleExp, signed).value;
    var p := Printed(v, scaleExp);
    ScanSound(s);
    var read := Scan(s).value;
    JudgeExact(read, scaleExp, signed);
    PrintedUnits(v, scaleExp);
    PrintedCanonical(v, scaleExp);
    FormatPrints(v, scaleExp);
    SameUnits(p, read, scaleExp, v);
    if n.Text() == p.Text() {
      ScanComplete(n);
      ScanComplete(p);
    }
    if n.Value() == read.Value() {
      CanonicalUnique(n, p);
    }
  }

  lemma SameUnits(n: Numeral, m: Numeral, scaleExp: int, v: int)
    requires Units(n, scaleExp, v) && Units(m, scaleExp, v)
    ensures n.Value() == m.Value()
  {
    ShiftMonotone(n.Value(), m.Value(), -scaleExp);
    ShiftMonotone(m.Value(), n.Value(), -scaleExp);
  }

  // ---------- order ----------

  function Compare(first: int, second: int): int {
    if first < second then -1 else if first > second then 1 else 0
  }

  lemma SuccessUnits(s: string, scaleExp: int, signed: bool, n: Numeral)
    requires Reads(s, n) && Meaning(s, scaleExp, signed).Success?
    ensures Units(n, scaleExp, Meaning(s, scaleExp, signed).value)
  {
    ReadsScan(s, n);
    JudgeExact(n, scaleExp, signed);
  }

  lemma UnitsOrder(n: Numeral, m: Numeral, scaleExp: int, v: int, w: int)
    requires Units(n, scaleExp, v) && Units(m, scaleExp, w)
    ensures v < w <==> n.Value() < m.Value()
  {
    ShiftMonotone(n.Value(), m.Value(), -scaleExp);
  }

  /** Comparing parsed values compares the numbers the strings denote. */
  lemma CompareOrders(s: string, t: string, scaleExp: int, signed: bool, n: Numeral, m: Numeral)
    requires Meaning(s, scaleExp, signed).Success? && Meaning(t, scaleExp, signed).Success?
    ensures Reads(s, n) && Reads(t, m) ==>
      Compare(Meaning(s, scaleExp, signed).value, Meaning(t, scaleExp, signed).value)
        == if n.Value() < m.Value() then -1 else if n.Value() > m.Value() then 1 else 0
  {
    if Reads(s, n) && Reads(t, m) {
      var v, w := Meaning(s, scaleExp, signed).value, Meaning(t, scaleExp, signed).value;
      SuccessUnits(s, scaleExp, signed, n);
      SuccessUnits(t, scaleExp, signed, m);
      UnitsOrder(n, m, scaleExp, v, w);
      UnitsOrder(m, n, scaleExp, w, v);
    }
  }
}
