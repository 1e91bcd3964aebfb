/** When freezing the exponent changes the answer: for every string, whatever its length. */
module PriceSaturation {
  import opened Decimal
  import opened Wrappers
  import opened Price

  // ---------- what moving digits comes to ----------

  function TrailingZeros(digits: string): (z: nat)
    ensures z <= |digits|
  {
    if digits != "" && digits[|digits| - 1] == '0' then 1 + TrailingZeros(digits[..|digits| - 1]) else 0
  }

  lemma {:induction false} TailZeros(digits: string, d: nat)
    requires d <= |digits|
    ensures AllZeros(digits[|digits| - d..]) <==> d <= TrailingZeros(digits)
  {
    if d > 0 {
      var init := digits[..|digits| - 1];
      TailZeros(init, d - 1);
      assert digits[|digits| - d..] == init[|init| - (d - 1)..] + [digits[|digits| - 1]];
    }
  }

  /** The shift drops a digit that counts. */
  predicate Lost(digits: string, shift: int) {
    -shift > TrailingZeros(digits)
  }

  /** What is left once the shift has dropped or appended zeros. */
  function Leading(digits: string, shift: int): nat
    requires AllDigits(digits) && |digits| + shift >= 0
  {
    if shift >= 0 then NatOf(digits) * Pow10(shift) else NatOf(digits[..|digits| + shift])
  }

  /** The shift loses nothing and leaves more digits than an int64 has, or as many and too large. */
  predicate TooBig(digits: string, shift: int)
    requires AllDigits(digits)
  {
    !Lost(digits, shift) && (|digits| + shift > MAX_INT64_DIGITS
      || (|digits| + shift == MAX_INT64_DIGITS && Leading(digits, shift) > MAX_INT64))
  }

  lemma FewDigits(digits: string)
    requires AllDigits(digits) && |digits| < MAX_INT64_DIGITS
    ensures NatOf(digits) <= MAX_INT64
  {
    NatOfUpper(digits);
    Pow10Monotone(|digits|, MAX_INT64_DIGITS - 1);
    PowerOfTenNineteen();
  }

  lemma RangedExact(digits: string, negative: bool)
    requires AllDigits(digits)
    ensures Ranged(digits, negative) == Failure(OutOfRange) <==>
      |digits| > MAX_INT64_DIGITS || (|digits| == MAX_INT64_DIGITS && NatOf(digits) > MAX_INT64)
    ensures Ranged(digits, negative).Failure? ==> Ranged(digits, negative) == Failure(OutOfRange)
  {
    if |digits| < MAX_INT64_DIGITS {
      FewDigits(digits);
    }
  }

  lemma PaddedValue(digits: string, k: nat)
    requires AllDigits(digits)
    ensures AllDigits(digits + Zeros(k)) && NatOf(digits + Zeros(k)) == NatOf(digits) * Pow10(k)
  {
    NatOfConcat(digits, Zeros(k));
    NatOfZero(Zeros(k));
  }

  /** A shift is refused for what it loses, then for what it leaves, and for nothing else. */
  lemma MovedRefusals(digits: string, negative: bool, shift: int)
    requires AllDigits(digits) && digits != "" && digits[0] != '0'
    ensures
      var r := Moved(digits, negative, true, shift);
      && (r == Failure(PrecisionLoss) <==> Lost(digits, shift))
      && (r == Failure(OutOfRange) <==> TooBig(digits, shift))
      && (r.Failure? ==> r.error in {PrecisionLoss, OutOfRange})
  {
    if shift < 0 {
      var drop := -shift;
      if drop < |digits| {
        TailZeros(digits, drop);
        RangedExact(digits[..|digits| - drop], negative);
      } else {
        TailZeros(digits, |digits|);
        assert digits[|digits| - |digits|..] == digits;
      }
    } else {
      RangedExact(digits + Zeros(shift), negative);
      PaddedValue(digits, shift);
    }
  }

  // ---------- different shifts, different numbers ----------

  lemma {:induction false} ShiftGrows(x: real, k: nat)
    requires x > 0.0
    ensures Shift(x, k) >= x && (k > 0 ==> Shift(x, k) > x)
  {
    if k > 0 {
      ShiftGrows(x, k - 1);
    }
  }

  lemma ShiftInjective(x: real, j: int, k: int)
    requires x > 0.0 && j < k
    ensures Shift(x, j) < Shift(x, k)
  {
    ShiftMonotone(0.0, x, j);
    ShiftZero(j);
    ShiftGrows(Shift(x, j), k - j);
    ShiftAdd(x, j, k - j);
  }

  /** Two shifts of the same digits never both succeed with the same answer. */
  lemma MovedApart(digits: string, negative: bool, j: int, k: int)
    requires AllDigits(digits) && digits != "" && digits[0] != '0' && j < k
    ensures Moved(digits, negative, true, j).Success? ==>
      Moved(digits, negative, true, j) != Moved(digits, negative, true, k)
  {
    NatOfLower(digits);
    MovedIsExactly(digits, negative, j);
    MovedIsExactly(digits, negative, k);
    ShiftInjective(NatOf(digits) as real, j, k);
  }

  /** Two different shifts come to the same exactly when both are refused, and alike. */
  lemma MovedAlike(digits: string, negative: bool, j: int, k: int)
    requires AllDigits(digits) && digits != "" && digits[0] != '0' && j != k
    ensures Moved(digits, negative, true, j) == Moved(digits, negative, true, k) <==>
      (Lost(digits, j) && Lost(digits, k)) || (TooBig(digits, j) && TooBig(digits, k))
  {
    MovedRefusals(digits, negative, j);
    MovedRefusals(digits, negative, k);
    if j < k {
      MovedApart(digits, negative, j, k);
    } else {
      MovedApart(digits, negative, k, j);
    }
  }

  // ---------- the frozen exponent ----------

  function Digits(n: Numeral): string {
    StripZeros(n.whole + n.fraction)
  }

  /** The shift a numeral calls for, and the one the scanner makes of it. */
  function TrueShift(n: Numeral, scaleExp: int): int
    requires n.WellFormed()
  {
    n.exponent.Power() - |n.fraction| - scaleExp
  }

  function FrozenShift(n: Numeral, scaleExp: int): int
    requires n.WellFormed()
  {
    SaturatedPower(n.exponent) - |n.fraction| - scaleExp
  }

  /** Freezing makes no difference to a numeral: the exponent was not frozen, or the digits are zero or
      their sign is refused whatever the exponent, or both shifts meet the same refusal. */
  predicate Unharmed(n: Numeral, scaleExp: int, signed: bool)
    requires n.WellFormed()
  {
    var d, j, k := Digits(n), TrueShift(n, scaleExp), FrozenShift(n, scaleExp);
    || SaturatedPower(n.exponent) == n.exponent.Power() || d == "" || (n.sign == Minus && !signed)
    || (Lost(d, j) && Lost(d, k)) || (TooBig(d, j) && TooBig(d, k))
  }

  lemma MovedUnharmed(d: string, negative: bool, signed: bool, j: int, k: int)
    requires AllDigits(d) && (d != "" ==> d[0] != '0')
    ensures Moved(d, negative, signed, j) == Moved(d, negative, signed, k) <==>
      j == k || d == "" || (negative && !signed) || (Lost(d, j) && Lost(d, k)) || (TooBig(d, j) && TooBig(d, k))
  {
    if j != k && d != "" && (signed || !negative) {
      MovedAlike(d, negative, j, k);
      MovedSign(d, negative, signed, j);
      MovedSign(d, negative, signed, k);
    }
  }

  lemma MovedSign(digits: string, negative: bool, signed: bool, k: int)
    requires AllDigits(digits) && (signed || !negative)
    ensures Moved(digits, negative, signed, k) == Moved(digits, negative, true, k)
  {
  }

  lemma NumeralMoved(n: Numeral, scaleExp: int, signed: bool)
    requires n.WellFormed()
    ensures Judge(n, scaleExp, signed) == Moved(Digits(n), n.sign == Minus, signed, TrueShift(n, scaleExp))
    ensures ScannedNumeral(n, scaleExp, signed) == Moved(Digits(n), n.sign == Minus, signed, FrozenShift(n, scaleExp))
  {
    MovedIsJudge(n, scaleExp, signed);
  }

  lemma NumeralUnharmed(n: Numeral, scaleExp: int, signed: bool)
    requires n.WellFormed()
    ensures Judge(n, scaleExp, signed) == ScannedNumeral(n, scaleExp, signed) <==> Unharmed(n, scaleExp, signed)
  {
    NumeralMoved(n, scaleExp, signed);
    MovedUnharmed(Digits(n), n.sign == Minus, signed, TrueShift(n, scaleExp), FrozenShift(n, scaleExp));
  }

  /** For every string and every scale: the scanner's answer is what the string means exactly when it
      spells no number or freezing makes no difference to the number it spells. */
  lemma SaturationExact(s: string, scaleExp: int, signed: bool)
    ensures Scan(s).Some? ==> Scan(s).value.WellFormed()
    ensures Scanned(s, scaleExp, signed) == Meaning(s, scaleExp, signed)
       <==> Scan(s) == None || Unharmed(Scan(s).value, scaleExp, signed)
  {
    ScannedByNumeral(s, scaleExp, signed);
    if s == "" || SpellsNotFinite(s) {
      NoNumber(s);
    } else if Scan(s).Some? {
      NumeralUnharmed(Scan(s).value, scaleExp, signed);
    }
  }
}
