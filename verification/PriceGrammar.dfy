/** The decimal strings that are accepted, character by character, the numbers they denote, written
    without shifting points, and the units of the three scales. */
module PriceGrammar {
  import opened Decimal
  import opened Price
  import opened Wrappers

  const SIGNS := {"", "+", "-"}

  predicate Figures(s: string) {
    forall c <- s :: '0' <= c <= '9'
  }

  /** Nothing, or e in either case, a sign if any, and figures. */
  predicate Powered(tail: string) {
    tail == "" || ((tail[0] == 'e' || tail[0] == 'E') && SignedFigures(tail[1..]))
  }

  predicate SignedFigures(s: string) {
    s != "" && if s[0] == '+' || s[0] == '-' then |s| > 1 && Figures(s[1..]) else Figures(s)
  }

  /** A sign if any, figures, a point with figures if any, and an exponent if any: "1.", ".5" and "+1e-3"
      but not ".", "e1" or "1e". */
  ghost predicate Spelled(s: string, sign: string, whole: string, places: string, tail: string) {
    && s == sign + whole + places + tail && sign in SIGNS
    && Figures(whole) && (places == "" || (places[0] == '.' && Figures(places[1..])))
    && (whole != "" || |places| > 1) && Powered(tail)
  }

  lemma FiguresDigits(s: string)
    ensures Figures(s) <==> AllDigits(s)
  {
    if Figures(s) {
      assert forall i :: 0 <= i < |s| ==> s[i] in s;
    }
  }

  function Tail(s: string): (e: Exponent)
    requires Powered(s)
    ensures e.WellFormed() && e.Text() == s
  {
    if s == "" then NoExponent
    else
      FiguresDigits(s[1..]);
      if s[1] == '+' || s[1] == '-' then
        FiguresDigits(s[2..]);
        assert s == [s[0]] + [s[1]] + s[2..] && s[1..][1..] == s[2..];
        Exponent(s[0], if s[1] == '+' then Plus else Minus, s[2..])
      else
        assert s == [s[0]] + s[1..];
        Exponent(s[0], Unsigned, s[1..])
  }

  function SignOf(sign: string): (n: Sign)
    requires sign in SIGNS
    ensures SignText(n) == sign
  {
    if sign == "" then Unsigned else if sign == "+" then Plus else Minus
  }

  lemma SpelledReads(s: string, sign: string, whole: string, places: string, tail: string)
    requires Spelled(s, sign, whole, places, tail)
    ensures exists n :: Reads(s, n)
  {
    FiguresDigits(whole);
    var fraction := if places == "" then "" else places[1..];
    FiguresDigits(fraction);
    var n := Numeral(SignOf(sign), whole, places != "", fraction, Tail(tail));
    assert n.WellFormed();
    Regroup(sign + whole, if n.point then "." else "", fraction, tail);
    PlacesText(places);
    assert Reads(s, n);
  }

  lemma ExponentPowered(e: Exponent)
    requires e.WellFormed()
    ensures Powered(e.Text())
  {
    if e.Exponent? {
      FiguresDigits(e.digits);
      assert e.Text()[1..] == SignText(e.sign) + e.digits;
      assert e.sign != Unsigned ==> e.Text()[1..][1..] == e.digits;
    }
  }

  lemma ReadsSpelled(s: string, n: Numeral)
    requires Reads(s, n)
    ensures
      var places := if n.point then "." + n.fraction else "";
      Spelled(s, SignText(n.sign), n.whole, places, n.exponent.Text())
  {
    var places := if n.point then "." + n.fraction else "";
    FiguresDigits(n.whole);
    FiguresDigits(n.fraction);
    ExponentPowered(n.exponent);
    Regroup(SignText(n.sign) + n.whole, if n.point then "." else "", n.fraction, n.exponent.Text());
    assert n.point ==> places[1..] == n.fraction;
  }

  lemma PlacesText(places: string)
    requires places == "" || places[0] == '.'
    ensures places == if places == "" then "" + "" else "." + places[1..]
  {
  }

  lemma Regroup(a: string, b: string, c: string, d: string)
    ensures a + b + c + d == a + (b + c) + d && "" + "" == ""
  {
  }

  /** A string has a reading exactly when it is so spelled. */
  lemma GrammarExact(s: string)
    ensures (exists n :: Reads(s, n)) <==>
      exists sign, whole, places, tail :: Spelled(s, sign, whole, places, tail)
  {
    if n :| Reads(s, n) {
      ReadsSpelled(s, n);
    }
    if sign, whole, places, tail :| Spelled(s, sign, whole, places, tail) {
      SpelledReads(s, sign, whole, places, tail);
    }
  }

  // ---------- what a numeral denotes ----------

  /** x times ten, k times. */
  function Tens(x: real, k: nat): real {
    if k == 0 then x else 10.0 * Tens(x, k - 1)
  }

  /** x, times ten for each of its places and e times more, is y. */
  predicate Smaller(x: real, places: nat, y: real, e: nat) {
    Tens(Tens(x, places), e) == y
  }

  /** x, times ten for each of its places, is y times ten e times. */
  predicate Larger(x: real, places: nat, y: real, e: nat) {
    Tens(x, places) == Tens(y, e)
  }

  function Figure(n: Numeral): real
    requires n.WellFormed()
  {
    if n.sign == Minus then -(NatOf(n.whole + n.fraction) as real) else NatOf(n.whole + n.fraction) as real
  }

  /** A numeral denotes x exactly when x times ten for each of its places is its figures read as one number,
      with the sign they have, times or divided by ten as often as the exponent says. */
  lemma DenotesExact(n: Numeral, x: real)
    requires n.WellFormed()
    ensures n.exponent == NoExponent ==> (n.Value() == x <==> Larger(x, |n.fraction|, Figure(n), 0))
    ensures n.exponent.Exponent? && n.exponent.sign != Minus ==>
      (n.Value() == x <==> Larger(x, |n.fraction|, Figure(n), NatOf(n.exponent.digits)))
    ensures n.exponent.Exponent? && n.exponent.sign == Minus ==>
      (n.Value() == x <==> Smaller(x, |n.fraction|, Figure(n), NatOf(n.exponent.digits)))
  {
    ShiftNegate(NatOf(n.whole + n.fraction) as real, n.exponent.Power() - |n.fraction|);
    assert n.Value() == Shift(Figure(n), n.exponent.Power() - |n.fraction|);
    var e := if n.exponent.Exponent? then NatOf(n.exponent.digits) else 0;
    DownExact(Figure(n), |n.fraction|, e, x);
    UpExact(Figure(n), |n.fraction|, e, x);
  }

  lemma DownExact(y: real, places: nat, e: nat, x: real)
    ensures Shift(y, 0 - e - places) == x <==> Smaller(x, places, y, e)
  {
    Unshift(y, 0, places + e, x);
    ShiftAdd(x, places, e);
    ShiftTens(x, places);
    ShiftTens(Tens(x, places), e);
    assert Shift(y, 0) == y;
  }

  lemma UpExact(y: real, places: nat, e: nat, x: real)
    ensures Shift(y, e - places) == x <==> Larger(x, places, y, e)
  {
    Unshift(y, e, places, x);
    ShiftTens(x, places);
    ShiftTens(y, e);
  }

  /** Moving the point of y to get x is moving that of x back, in part. */
  lemma Unshift(y: real, up: nat, down: nat, x: real)
    ensures Shift(y, up - down) == x <==> Shift(x, down) == Shift(y, up)
  {
    ShiftAdd(y, up - down, down);
    ShiftMonotone(x, Shift(y, up - down), down);
    ShiftMonotone(Shift(y, up - down), x, down);
  }

  lemma {:induction false} ShiftTens(x: real, k: nat)
    ensures Shift(x, k) == Tens(x, k)
  {
    if k > 0 {
      ShiftTens(x, k - 1);
    }
  }

  // ---------- the three scales ----------

  lemma Powers()
    ensures Pow10(8) == 100_000_000 && Pow10(11) == 100_000_000_000 && Pow10(12) == 1_000_000_000_000
  {
    assert Pow10(4) == 10_000;
    Pow10Add(4, 4);
    assert Pow10(3) == 1_000;
    Pow10Add(8, 3);
    Pow10Add(8, 4);
  }

  lemma WholeMeans(digits: string, scaleExp: int, signed: bool)
    requires digits != "" && AllDigits(digits) && scaleExp <= 0
    ensures Meaning(digits, scaleExp, signed) ==
      var v := NatOf(digits) * Pow10(0 - scaleExp);
      if v <= MAX_INT64 then Success(v) else Failure(OutOfRange)
  {
    var n := Numeral(Unsigned, digits, false, "", NoExponent);
    assert digits + "" == digits && n.Text() == digits;
    ShiftNat(NatOf(digits), 0 - scaleExp);
    var v := NatOf(digits) * Pow10(0 - scaleExp);
    ShiftPositiveNat(NatOf(digits), 0 - scaleExp);
    assert Reads(digits, n) && Units(n, scaleExp, v);
    if v <= MAX_INT64 {
      SuccessExact(digits, scaleExp, signed, v);
    } else {
      assert TooLarge(n, scaleExp);
      RefusalExact(digits, scaleExp, signed);
    }
  }

  lemma ShiftPositiveNat(n: nat, k: nat)
    ensures n * Pow10(k) >= 0
  {
  }

  /** A whole number is so many hundred billions of units as a price, hundred millions as a size, and
      million millions as a rate, unless that is more than an int64 holds. */
  lemma WholeNumbers(digits: string)
    requires digits != "" && AllDigits(digits)
    ensures
      var n := NatOf(digits);
      && Meaning(digits, PRICE_EXP, false) == Held(n * 100_000_000_000)
      && Meaning(digits, SIZE_EXP, false) == Held(n * 100_000_000)
      && Meaning(digits, RATE_EXP, true) == Held(n * 1_000_000_000_000)
  {
    Powers();
    WholeMeans(digits, PRICE_EXP, false);
    WholeMeans(digits, SIZE_EXP, false);
    WholeMeans(digits, RATE_EXP, true);
  }

  function Held(v: nat): Result {
    if v < 0x8000_0000_0000_0000 then Success(v) else Failure(OutOfRange)
  }
}
