/** Fixed-point decimals: the grammar of a decimal string, the rational number it denotes,
    and the scanner and printer proved against that meaning. */
module Price {
  import opened Decimal
  import Text
  import opened Wrappers

  // Decimal exponents of the three scales.
  const PRICE_EXP := -11
  const SIZE_EXP := -8
  const RATE_EXP := -12

  const MAX_INT64 := 0x7FFF_FFFF_FFFF_FFFF
  const MIN_INT64 := -0x8000_0000_0000_0000
  const MAX_INT64_DIGITS := 19
  const EXP_LIMIT := 0x4000_0000

  datatype ParseError = Empty | Syntax | NotFinite | Negative | OutOfRange | PrecisionLoss
  datatype Result = Success(value: int) | Failure(error: ParseError)

  // ---------- grammar ----------

  datatype Sign = Unsigned | Plus | Minus
  datatype Exponent = NoExponent | Exponent(marker: char, sign: Sign, digits: string) {

    predicate WellFormed() {
      Exponent? ==> IsMarker(marker) && digits != "" && AllDigits(digits)
    }

    function Text(): string {
      match this
      case NoExponent => ""
      case Exponent(_, _, _) => [marker] + SignText(sign) + digits
    }

    function Power(): int
      requires WellFormed()
    {
      match this
      case NoExponent => 0
      case Exponent(_, _, _) => if sign == Minus then 0 - NatOf(digits) else NatOf(digits)
    }
  }

  /** One reading of a decimal string: [sign] whole [. fraction] [e [sign] digits]. */
  datatype Numeral = Numeral(sign: Sign, whole: string, point: bool, fraction: string, exponent: Exponent) {

    predicate WellFormed() {
      && AllDigits(whole) && AllDigits(fraction)
      && (!point ==> fraction == "")
      && |whole| + |fraction| > 0
      && exponent.WellFormed()
    }

    function Text(): string {
      SignText(sign) + whole + (if point then "." else "") + fraction + exponent.Text()
    }

    function Significand(): (n: nat)
      requires WellFormed()
    {
      NatOf(whole + fraction)
    }

    /** The rational number the numeral denotes. */
    function Value(): real
      requires WellFormed()
    {
      var magnitude := Shift(Significand() as real, exponent.Power() - |fraction|);
      if sign == Minus then -magnitude else magnitude
    }
  }

  predicate IsMarker(c: char) {
    c == 'e' || c == 'E'
  }

  function SignText(sign: Sign): string {
    match sign case Unsigned => "" case Plus => "+" case Minus => "-"
  }

  // ---------- scanning ----------

  function SignAt(s: string, i: nat): (sign: Sign)
    requires i <= |s|
    ensures i + |SignText(sign)| <= |s| && s[i..i + |SignText(sign)|] == SignText(sign)
  {
    if i < |s| && s[i] == '+' then Plus else if i < |s| && s[i] == '-' then Minus else Unsigned
  }

  /** The end of the run of digits that starts at i. */
  function DigitsEnd(s: string, i: nat): (j: nat)
    requires i <= |s|
    ensures i <= j <= |s| && AllDigits(s[i..j])
    ensures j < |s| ==> !IsDigit(s[j])
    decreases |s| - i
  {
    if i < |s| && IsDigit(s[i]) then
      var j := DigitsEnd(s, i + 1);
      assert s[i..j] == [s[i]] + s[i + 1..j];
      j
    else i
  }

  lemma {:induction false} DigitsEndUnique(s: string, i: nat, j: nat)
    requires i <= j <= |s| && AllDigits(s[i..j])
    requires j < |s| ==> !IsDigit(s[j])
    ensures DigitsEnd(s, i) == j
    decreases j - i
  {
    if i < j {
      assert s[i..j][0] == s[i];
      assert s[i + 1..j] == s[i..j][1..];
      DigitsEndUnique(s, i + 1, j);
    }
  }

  /** Where the digits before and after the decimal point lie: s[a..b] and s[c..d]. */
  datatype Cuts = Cuts(a: nat, b: nat, c: nat, d: nat)

  function CutsAt(s: string, a: nat): (m: Cuts)
    requires a <= |s|
    ensures m.a == a && a <= m.b <= m.c <= m.d <= |s| && m.c <= m.b + 1
    ensures AllDigits(s[a..m.b]) && AllDigits(s[m.c..m.d])
    ensures m.c > m.b <==> m.b < |s| && s[m.b] == '.'
    ensures m.c == m.b ==> m.d == m.c
    ensures m.d < |s| ==> !IsDigit(s[m.d])
  {
    var b := DigitsEnd(s, a);
    if b < |s| && s[b] == '.' then Cuts(a, b, b + 1, DigitsEnd(s, b + 1)) else Cuts(a, b, b, b)
  }

  /** The reading of s as a numeral, if it has one. */
  function Scan(s: string): Option<Numeral> {
    var sign := SignAt(s, 0);
    var m := CutsAt(s, |SignText(sign)|);
    if m.b == m.a && m.d == m.c then None
    else
      match ScanExponent(s, m.d)
      case None => None
      case Some(exponent) => Some(Numeral(sign, s[m.a..m.b], m.c > m.b, s[m.c..m.d], exponent))
  }

  function ScanExponent(s: string, d: nat): (e: Option<Exponent>)
    requires d <= |s|
    ensures e.Some? ==> e.value.WellFormed()
  {
    if d == |s| then Some(NoExponent)
    else if !IsMarker(s[d]) then None
    else
      var sign := SignAt(s, d + 1);
      var f := d + 1 + |SignText(sign)|;
      if f < |s| && AllDigits(s[f..]) then Some(Exponent(s[d], sign, s[f..])) else None
  }

  lemma ScanExponentSound(s: string, d: nat)
    requires d <= |s| && ScanExponent(s, d).Some?
    ensures ScanExponent(s, d).value.Text() == s[d..]
  {
    if d < |s| {
      var f := d + 1 + |SignText(SignAt(s, d + 1))|;
      assert s[d..] == [s[d]] + s[d + 1..f] + s[f..];
    }
  }

  lemma Cut(s: string, a: nat, b: nat, c: nat, d: nat)
    requires a <= b <= c <= d <= |s|
    ensures s == s[..a] + s[a..b] + s[b..c] + s[c..d] + s[d..]
  {
  }

  lemma Join(p: string, q: string, r: string, t: string, u: string, s: string)
    requires s == p + q + r + t + u
    ensures
      var a, b, c, d := |p|, |p| + |q|, |p| + |q| + |r|, |p| + |q| + |r| + |t|;
      && d + |u| == |s|
      && s[..a] == p && s[a..b] == q && s[b..c] == r && s[c..d] == t && s[d..] == u
  {
  }

  /** What scanning reads is well formed and spells the string it was read from. */
  lemma ScanSound(s: string)
    requires Scan(s).Some?
    ensures Scan(s).value.WellFormed() && Scan(s).value.Text() == s
  {
    var n := Scan(s).value;
    var m := CutsAt(s, |SignText(n.sign)|);
    ScanExponentSound(s, m.d);
    assert s[..m.a] == s[0..m.a] == SignText(n.sign);
    assert s[m.b..m.c] == if n.point then "." else "";
    Cut(s, m.a, m.b, m.c, m.d);
  }

  lemma ScanExponentComplete(s: string, d: nat, e: Exponent)
    requires e.WellFormed()
    requires d <= |s| && s[d..] == e.Text()
    ensures ScanExponent(s, d) == Some(e)
  {
    if e.Exponent? {
      var sign := SignText(e.sign);
      var f := d + 1 + |sign|;
      assert s[d..] == [e.marker] + sign + e.digits;
      assert s[d] == s[d..][0] == e.marker;
      assert s[f..] == s[d..][1 + |sign|..] == e.digits;
      assert s[d + 1] == s[d..][1];
    }
  }

  lemma SignAtStart(n: Numeral)
    requires n.WellFormed()
    ensures SignAt(n.Text(), 0) == n.sign
  {
    var s := n.Text();
    if n.sign == Unsigned {
      var first := if n.whole != "" then n.whole[0] else '.';
      assert s[0] == first;
    }
  }

  lemma CutsComplete(s: string, m: Cuts)
    requires m.a <= m.b <= m.c <= m.d <= |s| && AllDigits(s[m.a..m.b]) && AllDigits(s[m.c..m.d])
    requires m.d < |s| ==> !IsDigit(s[m.d]) && s[m.d] != '.'
    requires if m.c == m.b then m.d == m.c else m.c == m.b + 1 && s[m.b] == '.'
    ensures CutsAt(s, m.a) == m
  {
    DigitsEndUnique(s, m.a, m.b);
    DigitsEndUnique(s, m.c, m.d);
  }

  /** Scanning finds every numeral, so the grammar is unambiguous. */
  lemma ScanComplete(n: Numeral)
    requires n.WellFormed()
    ensures Scan(n.Text()) == Some(n)
  {
    var s := n.Text();
    var sign, point, tail := SignText(n.sign), if n.point then "." else "", n.exponent.Text();
    var a, b := |sign|, |sign| + |n.whole|;
    var c := b + |point|;
    var d := c + |n.fraction|;
    Join(sign, n.whole, point, n.fraction, tail, s);
    SignAtStart(n);
    assert CutsAt(s, a) == Cuts(a, b, c, d) by {
      assert d < |s| ==> s[d] == s[d..][0];
      assert n.point ==> s[b] == s[b..c][0];
      CutsComplete(s, Cuts(a, b, c, d));
    }
    ScanExponentComplete(s, d, n.exponent);
  }

  // ---------- meaning ----------

  /** The spellings strconv would read as an infinity or as not a number. */
  predicate SpellsNotFinite(s: string) {
    NotFiniteWord(Text.Lower(s[|SignText(SignAt(s, 0))|..]))
  }

  predicate NotFiniteWord(w: string) {
    w == "nan" || w == "inf" || w == "infinity"
  }

  /** The integer x is, if it is one of magnitude at most MAX_INT64. */
  function Exactly(x: real): Result {
    if x.Floor as real != x then Failure(PrecisionLoss)
    else if !InRange(x.Floor) then Failure(OutOfRange)
    else Success(x.Floor)
  }

  function JudgeReal(x: real, signed: bool): Result {
    if x == 0.0 then Success(0)
    else if x < 0.0 && !signed then Failure(Negative)
    else Exactly(x)
  }

  /** What a numeral is worth at a scale: the exact integer, or the reason there is none. */
  function Judge(n: Numeral, scaleExp: int, signed: bool): Result
    requires n.WellFormed()
  {
    JudgeReal(Shift(n.Value(), -scaleExp), signed)
  }

  /** The meaning of a decimal string at a scale, through the rational number it denotes. */
  function Meaning(s: string, scaleExp: int, signed: bool): Result {
    if s == "" then Failure(Empty)
    else if SpellsNotFinite(s) then Failure(NotFinite)
    else
      match Scan(s)
      case None => Failure(Syntax)
      case Some(n) => ScanSound(s); Judge(n, scaleExp, signed)
  }

  /** n is a reading of s. */
  ghost predicate Reads(s: string, n: Numeral) {
    n.WellFormed() && n.Text() == s
  }

  lemma ReadsScan(s: string, n: Numeral)
    ensures Reads(s, n) <==> Scan(s) == Some(n)
  {
    if Reads(s, n) {
      ScanComplete(n);
    }
    if Scan(s) == Some(n) {
      ScanSound(s);
    }
  }

  lemma NoNumber(s: string)
    requires s == "" || SpellsNotFinite(s)
    ensures Scan(s) == None
  {
    var a := |SignText(SignAt(s, 0))|;
    if s != "" {
      assert Text.Lower(s[a..])[0] == Text.LowerChar(s[a]);
    }
  }

  /** n is a reading of s that a type with that signedness accepts. */
  ghost predicate Accepted(s: string, n: Numeral, signed: bool) {
    Reads(s, n) && (signed || n.Value() >= 0.0)
  }

  /** n denotes exactly v units of the scale. */
  ghost predicate Units(n: Numeral, scaleExp: int, v: int) {
    n.WellFormed() && Shift(n.Value(), -scaleExp) == v as real
  }

  predicate InRange(v: int) {
    -MAX_INT64 <= v <= MAX_INT64
  }

  /** n is finer than the scale. */
  ghost predicate Fractional(n: Numeral, scaleExp: int) {
    forall v :: !Units(n, scaleExp, v)
  }

  /** n is a whole number of units, too many of them. */
  ghost predicate TooLarge(n: Numeral, scaleExp: int) {
    exists v :: Units(n, scaleExp, v) && !InRange(v)
  }

  lemma JudgeExact(n: Numeral, scaleExp: int, signed: bool)
    requires n.WellFormed()
    ensures var r, fit := Judge(n, scaleExp, signed), signed || n.Value() >= 0.0;
      && (forall v :: r == Success(v) <==> fit && Units(n, scaleExp, v) && InRange(v))
      && (r == Failure(PrecisionLoss) <==> fit && Fractional(n, scaleExp))
      && (r == Failure(OutOfRange) <==> fit && TooLarge(n, scaleExp))
      && (r == Failure(Negative) <==> !fit)
      && (r.Failure? ==> r.error in {PrecisionLoss, OutOfRange, Negative})
  {
    var x := Shift(n.Value(), -scaleExp);
    ShiftMonotone(n.Value(), 0.0, -scaleExp);
    ShiftZero(-scaleExp);
    assert x.Floor as real == x ==> Units(n, scaleExp, x.Floor);
    assert forall v :: Units(n, scaleExp, v) ==> v == x.Floor;
  }

  /** Parsing is exact: it answers v just when s denotes v units of the scale. */
  lemma SuccessExact(s: string, scaleExp: int, signed: bool, v: int)
    ensures Meaning(s, scaleExp, signed) == Success(v) <==>
      exists n :: Accepted(s, n, signed) && Units(n, scaleExp, v) && InRange(v)
  {
    forall n ensures Reads(s, n) <==> Scan(s) == Some(n) {
      ReadsScan(s, n);
    }
    if s == "" || SpellsNotFinite(s) {
      NoNumber(s);
    } else if Scan(s).Some? {
      JudgeExact(Scan(s).value, scaleExp, signed);
    }
  }

  /** s is a sign, if any, and a word for a value that is no finite number, in any case of letters. */
  ghost predicate Names(s: string, sign: Sign, w: string) {
    s == SignText(sign) + w && Text.Lower(w) in {"nan", "inf", "infinity"}
  }

  lemma NamesExact(s: string)
    ensures SpellsNotFinite(s) <==> exists sign, w :: Names(s, sign, w)
    ensures (exists sign, w :: Names(s, sign, w)) ==> s != ""
  {
    var first := SignAt(s, 0);
    if SpellsNotFinite(s) {
      assert Names(s, first, s[|SignText(first)|..]);
    }
    forall sign, w | Names(s, sign, w) ensures SpellsNotFinite(s) && s != "" {
      NamedOnce(s, sign, w);
    }
  }

  lemma NamedOnce(s: string, sign: Sign, w: string)
    requires s == SignText(sign) + w && NotFiniteWord(Text.Lower(w))
    ensures SignAt(s, 0) == sign && s[|SignText(sign)|..] == w
  {
    assert Text.Lower(w)[0] == Text.LowerChar(w[0]);
    assert sign == Unsigned ==> s[0] == w[0];
  }

  /** Each refusal names the one thing that is wrong with the number, and nothing else. */
  lemma RefusalExact(s: string, scaleExp: int, signed: bool)
    ensures var r := Meaning(s, scaleExp, signed);
      && (r == Failure(PrecisionLoss) <==> exists n :: Accepted(s, n, signed) && Fractional(n, scaleExp))
      && (r == Failure(OutOfRange) <==> exists n :: Accepted(s, n, signed) && TooLarge(n, scaleExp))
      && (r == Failure(Negative) <==> exists n :: Reads(s, n) && !Accepted(s, n, signed))
      && (r == Failure(Empty) <==> s == "")
      && (r == Failure(NotFinite) <==> exists sign, w :: Names(s, sign, w))
      && (r == Failure(Syntax) <==>
            s != "" && (!exists sign, w :: Names(s, sign, w)) && !exists n :: Reads(s, n))
  {
    NamesExact(s);
    forall n ensures Reads(s, n) <==> Scan(s) == Some(n) {
      ReadsScan(s, n);
    }
    if s == "" || SpellsNotFinite(s) {
      NoNumber(s);
    } else if Scan(s).Some? {
      JudgeExact(Scan(s).value, scaleExp, signed);
      assert Reads(s, Scan(s).value);
    }
  }

  // ---------- digit arithmetic ----------

  function Ranged(digits: string, negative: bool): Result
    requires AllDigits(digits)
  {
    if |digits| > MAX_INT64_DIGITS || NatOf(digits) > MAX_INT64 then Failure(OutOfRange)
    else Success(if negative then -(NatOf(digits) as int) else NatOf(digits))
  }

  function Zeros(k: nat): (z: string)
    ensures |z| == k && AllZeros(z) && AllDigits(z)
  {
    seq(k, _ => '0')
  }

  /** Significant digits moved by shift places without leaving the digit string. */
  function Moved(digits: string, negative: bool, signed: bool, shift: int): Result
    requires AllDigits(digits)
  {
    if digits == "" then Success(0)
    else if negative && !signed then Failure(Negative)
    else if shift < 0 then
      var drop := -shift;
      if drop >= |digits| || !AllZeros(digits[|digits| - drop..]) then Failure(PrecisionLoss)
      else Ranged(digits[..|digits| - drop], negative)
    else if |digits| + shift > MAX_INT64_DIGITS then Failure(OutOfRange)
    else Ranged(digits + Zeros(shift), negative)
  }

  /** The exponent digits as the scanner folds them: frozen once they pass the limit. */
  function Saturated(digits: string): nat
    requires AllDigits(digits)
  {
    if digits == "" then 0
    else
      var e := Saturated(digits[..|digits| - 1]);
      if e < EXP_LIMIT then e * 10 + DigitValue(digits[|digits| - 1]) else e
  }

  lemma {:induction false} SaturatedBounds(digits: string)
    requires AllDigits(digits)
    ensures Saturated(digits) == NatOf(digits)
         || EXP_LIMIT <= Saturated(digits) <= NatOf(digits)
    ensures Saturated(digits) < 10 * EXP_LIMIT
  {
    if digits != "" {
      SaturatedBounds(digits[..|digits| - 1]);
    }
  }

  function SaturatedPower(e: Exponent): int
    requires e.WellFormed()
  {
    match e
    case NoExponent => 0
    case Exponent(_, sg, digits) => if sg == Minus then 0 - Saturated(digits) else Saturated(digits)
  }

  /** What the digit arithmetic answers for any string at all. */
  function Scanned(s: string, scaleExp: int, signed: bool): Result {
    if s == "" then Failure(Empty)
    else if SpellsNotFinite(s) then Failure(NotFinite)
    else ScannedFrom(s, |SignText(SignAt(s, 0))|, SignAt(s, 0) == Minus, scaleExp, signed)
  }

  /** The answer for the parts of a numeral, its sign aside. */
  function ScannedParts(whole: string, fraction: string, e: Exponent, negative: bool,
                        scaleExp: int, signed: bool): Result
    requires AllDigits(whole) && AllDigits(fraction) && e.WellFormed()
  {
    Moved(StripZeros(whole + fraction), negative, signed, SaturatedPower(e) - |fraction| - scaleExp)
  }

  function ScannedFrom(s: string, a: nat, negative: bool, scaleExp: int, signed: bool): Result
    requires a <= |s|
  {
    var m := CutsAt(s, a);
    if (m.b == m.a && m.d == m.c) || ScanExponent(s, m.d).None? then Failure(Syntax)
    else ScannedParts(s[m.a..m.b], s[m.c..m.d], ScanExponent(s, m.d).value, negative, scaleExp, signed)
  }

  function ScannedNumeral(n: Numeral, scaleExp: int, signed: bool): Result
    requires n.WellFormed()
  {
    ScannedParts(n.whole, n.fraction, n.exponent, n.sign == Minus, scaleExp, signed)
  }

  lemma ScaledValue(n: Numeral, scaleExp: int)
    requires n.WellFormed()
    ensures
      var y := Shift(n.Significand() as real, n.exponent.Power() - |n.fraction| - scaleExp);
      Shift(n.Value(), -scaleExp) == Negated(y, n.sign == Minus)
  {
    var m := n.Significand() as real;
    ShiftAdd(m, n.exponent.Power() - |n.fraction|, -scaleExp);
    ShiftNegate(Shift(m, n.exponent.Power() - |n.fraction|), -scaleExp);
  }

  lemma ShiftPositive(m: nat, k: int)
    ensures m == 0 ==> Shift(m as real, k) == 0.0
    ensures m > 0 ==> Shift(m as real, k) > 0.0
  {
    ShiftZero(k);
    ShiftMonotone(0.0, m as real, k);
  }

  lemma RangedDigits(digits: string, negative: bool)
    requires AllDigits(digits) && digits != "" && digits[0] != '0'
    ensures Ranged(digits, negative).Success? <==> NatOf(digits) <= MAX_INT64
  {
    if |digits| > MAX_INT64_DIGITS {
      NatOfLower(digits);
      Pow10Monotone(MAX_INT64_DIGITS, |digits| - 1);
      PowerOfTenNineteen();
    }
  }

  /** Padding on the right multiplies exactly. */
  lemma MovedRight(digits: string, negative: bool, shift: nat)
    requires AllDigits(digits) && digits != "" && digits[0] != '0'
    ensures
      Moved(digits, negative, true, shift) == Fits(NatOf(digits) * Pow10(shift), negative)
  {
    var padded := digits + Zeros(shift);
    NatOfConcat(digits, Zeros(shift));
    NatOfZero(Zeros(shift));
    RangedDigits(padded, negative);
  }

  lemma ProductStep(a: int, b: int, p: nat)
    requires a < b
    ensures a * p + p <= b * p
  {
    assert b * p == (a + 1) * p + (b - a - 1) * p;
  }

  lemma QuotientUnique(p: int, q: int, r: int, q': int, r': int)
    requires q * p + r == q' * p + r' && 0 <= r < p && 0 <= r' < p
    ensures q == q' && r == r'
  {
    if q > q' { ProductStep(q', q, p); } else if q < q' { ProductStep(q, q', p); }
  }

  lemma DivMod(m: int, p: int, q: int, r: int)
    requires p > 0 && m == q * p + r && 0 <= r < p
    ensures m / p == q && m % p == r
  {
    QuotientUnique(p, q, r, m / p, m % p);
  }

  /** Dropping on the right divides exactly, or is refused. */
  lemma MovedLeft(digits: string, negative: bool, drop: nat)
    requires AllDigits(digits) && digits != "" && digits[0] != '0' && drop > 0
    ensures
      var v, rest := NatOf(digits) / Pow10(drop), NatOf(digits) % Pow10(drop);
      Moved(digits, negative, true, 0 - drop)
        == if rest != 0 then Failure(PrecisionLoss) else Fits(v, negative)
  {
    var p := Pow10(drop);
    if drop >= |digits| {
      NatOfUpper(digits);
      NatOfLower(digits);
      Pow10Monotone(|digits|, drop);
      DivMod(NatOf(digits), p, 0, NatOf(digits));
    } else {
      var head, tail := digits[..|digits| - drop], digits[|digits| - drop..];
      assert digits == head + tail;
      NatOfConcat(head, tail);
      NatOfUpper(tail);
      NatOfZero(tail);
      DivMod(NatOf(digits), p, NatOf(head), NatOf(tail));
      RangedDigits(head, negative);
    }
  }

  /** The number |v| with its sign, when it fits. */
  function Fits(v: nat, negative: bool): Result {
    if v > MAX_INT64 then Failure(OutOfRange) else Success(if negative then -(v as int) else v)
  }

  function Negated(y: real, negative: bool): real {
    if negative then -y else y
  }

  lemma ExactlyWhole(y: real, v: nat, negative: bool)
    requires y == v as real
    ensures Exactly(Negated(y, negative)) == Fits(v, negative)
  {
    assert (-y).Floor == -(v as int);
  }

  lemma ExactlyRight(m: nat, k: nat, negative: bool)
    ensures Exactly(Negated(Shift(m as real, k), negative)) == Fits(m * Pow10(k), negative)
  {
    ShiftNat(m, k);
    ExactlyWhole(Shift(m as real, k), m * Pow10(k), negative);
  }

  lemma ExactlyLeft(m: nat, drop: nat, negative: bool)
    ensures Exactly(Negated(Shift(m as real, 0 - drop), negative))
         == if m % Pow10(drop) != 0 then Failure(PrecisionLoss) else Fits(m / Pow10(drop), negative)
  {
    var y, p := Shift(m as real, 0 - drop), Pow10(drop);
    if m % p == 0 {
      ShiftLeft(m, drop, m / p);
      ExactlyWhole(y, m / p, negative);
    } else if Negated(y, negative).Floor as real == Negated(y, negative) {
      var v := if negative then -(-y).Floor else y.Floor;
      ShiftLeft(m, drop, v);
      DivMod(m, p, v, 0);
      assert false;
    }
  }

  lemma MovedIsExactly(digits: string, negative: bool, k: int)
    requires AllDigits(digits) && digits != "" && digits[0] != '0'
    ensures Moved(digits, negative, true, k) == Exactly(Negated(Shift(NatOf(digits) as real, k), negative))
  {
    if k >= 0 {
      MovedRight(digits, negative, k);
      ExactlyRight(NatOf(digits), k, negative);
    } else {
      MovedLeft(digits, negative, -k);
      ExactlyLeft(NatOf(digits), -k, negative);
    }
  }

  lemma MovedIsJudgeReal(digits: string, negative: bool, signed: bool, k: int)
    requires AllDigits(digits) && (digits != "" ==> digits[0] != '0')
    ensures JudgeReal(Negated(Shift(NatOf(digits) as real, k), negative), signed)
         == Moved(digits, negative, signed, k)
  {
    ShiftPositive(NatOf(digits), k);
    if digits != "" {
      NatOfLower(digits);
      MovedIsExactly(digits, negative, k);
    }
  }

  /** Moving digits agrees with judging the rational number they denote. */
  lemma MovedIsJudge(n: Numeral, scaleExp: int, signed: bool)
    requires n.WellFormed()
    ensures Judge(n, scaleExp, signed)
         == Moved(StripZeros(n.whole + n.fraction), n.sign == Minus, signed,
                  n.exponent.Power() - |n.fraction| - scaleExp)
  {
    StripZerosValue(n.whole + n.fraction);
    ScaledValue(n, scaleExp);
    MovedIsJudgeReal(StripZeros(n.whole + n.fraction), n.sign == Minus, signed,
                     n.exponent.Power() - |n.fraction| - scaleExp);
  }

  lemma MovedFar(digits: string, negative: bool, signed: bool, k: int, k': int)
    requires AllDigits(digits)
    requires digits != "" ==>
               (k > MAX_INT64_DIGITS && k' > MAX_INT64_DIGITS) || (k <= -|digits| && k' <= -|digits|)
    ensures Moved(digits, negative, signed, k) == Moved(digits, negative, signed, k')
  {
  }

  lemma NumeralSaturation(n: Numeral, scaleExp: int, signed: bool)
    requires n.WellFormed()
    requires -64 <= scaleExp <= 0 && |n.whole| + |n.fraction| < EXP_LIMIT - 64
    ensures Judge(n, scaleExp, signed) == ScannedNumeral(n, scaleExp, signed)
  {
    MovedIsJudge(n, scaleExp, signed);
    FrozenFar(n.exponent);
    var digits := StripZeros(n.whole + n.fraction);
    assert |digits| <= |n.whole| + |n.fraction|;
    if SaturatedPower(n.exponent) != n.exponent.Power() {
      MovedFar(digits, n.sign == Minus, signed, n.exponent.Power() - |n.fraction| - scaleExp,
               SaturatedPower(n.exponent) - |n.fraction| - scaleExp);
    }
  }

  /** A frozen exponent is past the limit, as the true one is, on the same side of zero. */
  lemma FrozenFar(e: Exponent)
    requires e.WellFormed()
    ensures
      var j, k := e.Power(), SaturatedPower(e);
      j == k || (j >= EXP_LIMIT && k >= EXP_LIMIT) || (j <= -EXP_LIMIT && k <= -EXP_LIMIT)
  {
    if e.Exponent? {
      SaturatedBounds(e.digits);
    }
  }

  lemma ScanCuts(s: string)
    ensures
      var m := CutsAt(s, |SignText(SignAt(s, 0))|);
      var e := ScanExponent(s, m.d);
      Scan(s) == if (m.b == m.a && m.d == m.c) || e.None? then None
                 else Some(Numeral(SignAt(s, 0), s[m.a..m.b], m.c > m.b, s[m.c..m.d], e.value))
  {
  }

  lemma ScanWellFormed(s: string)
    requires Scan(s).Some?
    ensures Scan(s).value.WellFormed()
  {
    ScanSound(s);
  }

  lemma ScannedFromCuts(s: string, a: nat, n: Numeral, scaleExp: int, signed: bool)
    requires a <= |s| && n.WellFormed()
    requires
      var m := CutsAt(s, a);
      && !(m.b == m.a && m.d == m.c)
      && n.whole == s[m.a..m.b] && n.fraction == s[m.c..m.d] && ScanExponent(s, m.d) == Some(n.exponent)
    ensures ScannedFrom(s, a, n.sign == Minus, scaleExp, signed) == ScannedNumeral(n, scaleExp, signed)
  {
  }

  lemma ScannedByNumeral(s: string, scaleExp: int, signed: bool)
    ensures
      var a := |SignText(SignAt(s, 0))|;
      var r := ScannedFrom(s, a, SignAt(s, 0) == Minus, scaleExp, signed);
      match Scan(s)
      case None => r == Failure(Syntax)
      case Some(n) => n.WellFormed() && r == ScannedNumeral(n, scaleExp, signed)
  {
    ScanCuts(s);
    if Scan(s).Some? {
      ScanWellFormed(s);
      ScannedFromCuts(s, |SignText(SignAt(s, 0))|, Scan(s).value, scaleExp, signed);
    }
  }

  lemma TextLength(n: Numeral)
    ensures |n.whole| + |n.fraction| <= |n.Text()|
  {
  }

  /** Freezing the exponent never changes the answer for a string shorter than the limit. */
  lemma SaturationHarmless(s: string, scaleExp: int, signed: bool)
    requires -64 <= scaleExp <= 0 && |s| < EXP_LIMIT - 64
    ensures Scanned(s, scaleExp, signed) == Meaning(s, scaleExp, signed)
  {
    ScannedByNumeral(s, scaleExp, signed);
    if Scan(s).Some? {
      var n := Scan(s).value;
      ScanSound(s);
      TextLength(n);
      NumeralSaturation(n, scaleExp, signed);
    }
  }

  /** A decimal point, EXP_LIMIT zeros, a one, and the exponent ten times EXP_LIMIT. */
  function Overlong(): (n: Numeral)
    ensures n.WellFormed()
  {
    Numeral(Unsigned, "", true, Zeros(EXP_LIMIT) + "1", Exponent('e', Unsigned, DigitsOf(EXP_LIMIT) + "0"))
  }

  lemma OverlongFrozen()
    ensures Overlong().exponent.Power() == 10 * EXP_LIMIT
    ensures SaturatedPower(Overlong().exponent) == EXP_LIMIT
    ensures |Overlong().exponent.digits| <= 11
  {
    FrozenAtLimit(DigitsOf(EXP_LIMIT));
    PowerOfTenTen();
    DigitsOfLength(EXP_LIMIT, 10);
  }

  lemma FrozenAtLimit(t: string)
    requires AllDigits(t) && NatOf(t) == EXP_LIMIT
    ensures AllDigits(t + "0") && NatOf(t + "0") == 10 * EXP_LIMIT && Saturated(t + "0") == EXP_LIMIT
  {
    assert (t + "0")[..|t|] == t;
    SaturatedBounds(t);
  }

  lemma DigitsOfLength(v: nat, k: nat)
    requires v < Pow10(k) && k > 0
    ensures |DigitsOf(v)| <= k
  {
    if |DigitsOf(v)| > k {
      NatOfLower(DigitsOf(v));
      Pow10Monotone(k, |DigitsOf(v)| - 1);
    }
  }

  lemma OverlongDigits()
    ensures StripZeros(Overlong().whole + Overlong().fraction) == "1"
  {
    assert "" + Overlong().fraction == Overlong().fraction;
    LeadingZeros(EXP_LIMIT, "1");
  }

  /** The bound is nearly tight: past it a frozen exponent reads a number beyond every scale as a small one. */
  lemma SaturationMisreads() returns (s: string)
    ensures |s| < EXP_LIMIT + 64
    ensures Meaning(s, PRICE_EXP, false) == Failure(OutOfRange)
    ensures Scanned(s, PRICE_EXP, false) == Success(10_000_000_000)
  {
    var n := Overlong();
    s := n.Text();
    OverlongFrozen();
    OverlongDigits();
    ScanComplete(n);
    if s == "" || SpellsNotFinite(s) {
      NoNumber(s);
    }
    SignAtStart(n);
    ScannedByNumeral(s, PRICE_EXP, false);
    MovedIsJudge(n, PRICE_EXP, false);
    PowerOfTenTen();
    MovedRight("1", false, 10);
    assert NatOf("1") == 1;
  }

  lemma {:induction false} LeadingZeros(k: nat, t: string)
    ensures StripZeros(Zeros(k) + t) == StripZeros(t)
  {
    if k == 0 {
      assert Zeros(0) + t == t;
    } else {
      assert (Zeros(k) + t)[1..] == Zeros(k - 1) + t;
      LeadingZeros(k - 1, t);
    }
  }

  lemma PowerOfTenTen()
    ensures Pow10(10) == 10_000_000_000
  {
    assert Pow10(5) == 100_000;
    Pow10Add(5, 5);
  }

  lemma PowerOfTenNineteen()
    ensures Pow10(19) == 10_000_000_000_000_000_000
  {
    assert Pow10(5) == 100_000;
    Pow10Add(5, 5);
    Pow10Add(10, 5);
    assert Pow10(4) == 10_000;
    Pow10Add(15, 4);
  }

  // ---------- the scanner ----------

  lemma SignIs(s: string)
    requires s != ""
    ensures |SignText(SignAt(s, 0))| == if s[0] == '+' || s[0] == '-' then 1 else 0
    ensures SignAt(s, 0) == Minus <==> s[0] == '-'
    ensures |SignText(SignAt(s, 0))| == |s| ==> ScannedFromNothing(s)
  {
  }

  /** After a sign alone there is no number to scan. */
  ghost predicate ScannedFromNothing(s: string) {
    forall negative, scaleExp, signed :: ScannedFrom(s, |s|, negative, scaleExp, signed) == Failure(Syntax)
  }

  /** Parses a decimal string to an integer at 10**scaleExp: exact, or refused. */
  method Parse(s: string, scaleExp: int, signed: bool) returns (r: Result)
    ensures r == Scanned(s, scaleExp, signed)
  {
    if s == "" {
      return Failure(Empty);
    }
    SignIs(s);
    var i, negative := 0, false;
    if s[0] == '+' {
      i := 1;
    } else if s[0] == '-' {
      negative := true;
      i := 1;
    }
    if i == |s| {
      return Failure(Syntax);
    }
    if NotFiniteWord(Text.Lower(s[i..])) {
      return Failure(NotFinite);
    }

    r := ParseFrom(s, i, negative, scaleExp, signed);
  }

  lemma NoMarker(s: string, d: nat)
    requires d <= |s|
    ensures ScanExponent(s, d).Some? ==> d == |s| || IsMarker(s[d])
    ensures d == |s| ==> ScanExponent(s, d).Some? && SaturatedPower(ScanExponent(s, d).value) == 0
  {
  }

  lemma PartsMoved(s: string, m: Cuts, e: Exponent, negative: bool, scaleExp: int, signed: bool)
    requires m.a <= m.b <= m.c <= m.d <= |s| && e.WellFormed()
    requires AllDigits(s[m.a..m.b]) && AllDigits(s[m.c..m.d])
    ensures ScannedParts(s[m.a..m.b], s[m.c..m.d], e, negative, scaleExp, signed)
         == Moved(StripZeros(s[m.a..m.b] + s[m.c..m.d]), negative, signed, SaturatedPower(e) - (m.d - m.c) - scaleExp)
  {
    assert |s[m.c..m.d]| == m.d - m.c;
  }

  /** Past the sign: a significand, then an exponent, and the digits moved as they say. */
  lemma ScannedSteps(s: string, a: nat, negative: bool, scaleExp: int, signed: bool)
    requires a <= |s|
    ensures
      var m := CutsAt(s, a);
      var e := ScanExponent(s, m.d);
      ScannedFrom(s, a, negative, scaleExp, signed) ==
        if !Significand(s, a) || e.None? then Failure(Syntax)
        else Moved(StripZeros(s[m.a..m.b] + s[m.c..m.d]), negative, signed,
                   SaturatedPower(e.value) - (m.d - m.c) - scaleExp)
  {
    var m := CutsAt(s, a);
    NoMarker(s, m.d);
    if ScanExponent(s, m.d).Some? {
      PartsMoved(s, m, ScanExponent(s, m.d).value, negative, scaleExp, signed);
    }
  }

  /** The scanner past the sign. */
  method ParseFrom(s: string, a: nat, negative: bool, scaleExp: int, signed: bool) returns (r: Result)
    requires a <= |s|
    ensures r == ScannedFrom(s, a, negative, scaleExp, signed)
  {
    ScannedSteps(s, a, negative, scaleExp, signed);
    var ok, i, digits, frac := ScanSignificand(s, a);
    if !ok {
      return Failure(Syntax);
    }
    NoMarker(s, i);
    var exp := 0;
    if i < |s| {
      ok, exp := FoldExponent(s, i);
      if !ok {
        return Failure(Syntax);
      }
    }
    r := MoveDigits(digits, negative, signed, exp - frac - scaleExp);
  }

  /** The digits read so far, with b the end of the first run. */
  ghost function Seen(s: string, a: nat, b: nat, i: nat, sawDot: bool): string
    requires a <= i <= |s| && (sawDot ==> a <= b < i)
  {
    if sawDot then s[a..b] + s[b + 1..i] else s[a..i]
  }

  lemma SeenDigit(s: string, a: nat, b: nat, i: nat, sawDot: bool)
    requires a <= i < |s| && (sawDot ==> a <= b < i)
    ensures Seen(s, a, b, i + 1, sawDot) == Seen(s, a, b, i, sawDot) + [s[i]]
  {
  }

  lemma SeenPoint(s: string, a: nat, i: nat)
    requires a <= i < |s|
    ensures Seen(s, a, i, i + 1, true) == Seen(s, a, i, i, false)
  {
  }

  lemma SeenAll(s: string, a: nat, i: nat, sawDot: bool)
    requires a <= i <= |s| && (i < |s| ==> !IsDigit(s[i]) && s[i] != '.')
    requires var b := DigitsEnd(s, a);
             if sawDot then b < i && s[b] == '.' && DigitsEnd(s, b + 1) == DigitsEnd(s, i)
             else b == DigitsEnd(s, i)
    ensures var m := CutsAt(s, a);
            m.d == i && Seen(s, a, m.b, i, sawDot) == s[a..m.b] + s[m.c..m.d] && (sawDot <==> m.c > m.b)
  {
  }

  /** How far the loop below has come: what lies between a and i has been seen, and nothing else. */
  datatype Progress = Progress(i: nat, digits: string, frac: nat, sawDot: bool, sawDigit: bool, nonzero: bool)

  /** The position is among the digits, before or past their point as it says. */
  predicate Reached(s: string, a: nat, p: Progress)
    requires a <= |s|
  {
    var b := DigitsEnd(s, a);
    && a <= p.i <= |s|
    && (if p.sawDot then b < p.i && s[b] == '.' && DigitsEnd(s, p.i) == DigitsEnd(s, b + 1) && p.frac == p.i - b - 1
        else p.i <= b && DigitsEnd(s, p.i) == b && p.frac == 0)
  }

  /** What is kept of the digits seen: zeros in front are not. */
  predicate Kept(seen: string, p: Progress) {
    p.digits == StripZeros(seen) && (p.sawDigit <==> seen != "") && (p.nonzero <==> p.digits != "")
  }

  ghost function SeenAt(s: string, a: nat, p: Progress): string
    requires a <= |s| && Reached(s, a, p)
  {
    Seen(s, a, DigitsEnd(s, a), p.i, p.sawDot)
  }

  ghost predicate Collected(s: string, a: nat, p: Progress)
    requires a <= |s|
  {
    Reached(s, a, p) && Kept(SeenAt(s, a, p), p)
  }

  /** One more digit. */
  function AddDigit(p: Progress, c: char): Progress {
    var nonzero := p.nonzero || c != '0';
    Progress(p.i + 1, if nonzero then p.digits + [c] else p.digits,
             if p.sawDot then p.frac + 1 else p.frac, p.sawDot, true, nonzero)
  }

  lemma ReachDigit(s: string, a: nat, p: Progress)
    requires a <= |s| && Reached(s, a, p) && p.i < |s| && IsDigit(s[p.i])
    ensures Reached(s, a, AddDigit(p, s[p.i]))
  {
  }

  lemma SeenNext(s: string, a: nat, p: Progress, next: Progress)
    requires a <= |s| && Reached(s, a, p) && Reached(s, a, next)
    requires next.i == p.i + 1 && next.sawDot == p.sawDot
    ensures SeenAt(s, a, next) == SeenAt(s, a, p) + [s[p.i]]
  {
    SeenDigit(s, a, DigitsEnd(s, a), p.i, p.sawDot);
  }

  lemma KeepDigit(seen: string, p: Progress, c: char)
    requires Kept(seen, p)
    ensures Kept(seen + [c], AddDigit(p, c))
  {
    StripZerosAppend(seen, c);
  }

  lemma CollectNone(s: string, a: nat)
    requires a <= |s|
    ensures Collected(s, a, Progress(a, "", 0, false, false, false))
  {
  }

  lemma CollectPoint(s: string, a: nat, p: Progress)
    requires a <= |s| && Collected(s, a, p) && p.i < |s| && s[p.i] == '.' && !p.sawDot
    ensures Collected(s, a, p.(i := p.i + 1, sawDot := true))
  {
    SeenPoint(s, a, p.i);
  }

  lemma CollectDigit(s: string, a: nat, p: Progress)
    requires a <= |s| && Collected(s, a, p) && p.i < |s| && IsDigit(s[p.i])
    ensures Collected(s, a, AddDigit(p, s[p.i]))
  {
    ReachDigit(s, a, p);
    SeenNext(s, a, p, AddDigit(p, s[p.i]));
    KeepDigit(SeenAt(s, a, p), p, s[p.i]);
  }

  /** Whether what starts at a is a significand that an exponent or the end follows. */
  predicate Significand(s: string, a: nat)
    requires a <= |s|
  {
    var m := CutsAt(s, a);
    (m.b > m.a || m.d > m.c) && (m.d < |s| ==> IsMarker(s[m.d]))
  }

  lemma CollectStuck(s: string, a: nat, p: Progress)
    requires a <= |s| && Collected(s, a, p) && p.i < |s| && !IsMarker(s[p.i])
    requires if s[p.i] == '.' then p.sawDot else !IsDigit(s[p.i])
    ensures !Significand(s, a)
  {
  }

  lemma CollectAll(s: string, a: nat, p: Progress)
    requires a <= |s| && Collected(s, a, p) && (p.i < |s| ==> IsMarker(s[p.i]))
    ensures Significand(s, a) <==> p.sawDigit
    ensures var m := CutsAt(s, a);
            p.i == m.d && p.digits == StripZeros(s[a..m.b] + s[m.c..m.d]) && p.frac == m.d - m.c
  {
    SeenAll(s, a, p.i, p.sawDot);
  }

  /** Takes in one character that is not an exponent marker, or reports that it has no place here. */
  method CollectOne(s: string, a: nat, p: Progress) returns (ok: bool, next: Progress)
    requires a <= |s| && Collected(s, a, p) && p.i < |s| && !IsMarker(s[p.i])
    ensures ok ==> Collected(s, a, next) && next.i == p.i + 1
    ensures !ok ==> !Significand(s, a)
  {
    var c := s[p.i];
    if c == '.' {
      if p.sawDot {
        CollectStuck(s, a, p);
        return false, p;
      }
      CollectPoint(s, a, p);
      return true, p.(i := p.i + 1, sawDot := true);
    }
    if !IsDigit(c) {
      CollectStuck(s, a, p);
      return false, p;
    }
    CollectDigit(s, a, p);
    next := TakeDigit(p, c);
    ok := true;
  }

  /** Leading zeros are counted where they stand after the point, and are not kept. */
  method TakeDigit(p: Progress, c: char) returns (next: Progress)
    ensures next == AddDigit(p, c)
  {
    next := p.(i := p.i + 1, sawDigit := true);
    if p.sawDot {
      next := next.(frac := p.frac + 1);
    }
    if c != '0' {
      next := next.(nonzero := true);
    }
    if next.nonzero {
      next := next.(digits := p.digits + [c]);
    }
  }

  /** Collects significant digits from a up to the exponent marker, counting those after the point.
      Leading zeros are never appended, so an empty answer means the value is zero. */
  method ScanSignificand(s: string, a: nat) returns (ok: bool, i: nat, digits: string, frac: nat)
    requires a <= |s|
    ensures ok <==> Significand(s, a)
    ensures ok ==>
      var m := CutsAt(s, a);
      i == m.d && digits == StripZeros(s[a..m.b] + s[m.c..m.d]) && frac == m.d - m.c
  {
    var p := Progress(a, "", 0, false, false, false);
    CollectNone(s, a);
    while p.i < |s| && !IsMarker(s[p.i])
      invariant Collected(s, a, p)
      decreases |s| - p.i
    {
      var collected, next := CollectOne(s, a, p);
      if !collected {
        return false, p.i, p.digits, p.frac;
      }
      p := next;
    }
    CollectAll(s, a, p);
    ok, i, digits, frac := p.sawDigit, p.i, p.digits, p.frac;
  }

  /** Folds the exponent that starts at its marker, freezing it once it passes the limit. */
  method FoldExponent(s: string, d: nat) returns (ok: bool, exp: int)
    requires d < |s| && IsMarker(s[d])
    ensures ok <==> ScanExponent(s, d).Some?
    ensures ok ==> ScanExponent(s, d).value.WellFormed()
    ensures ok ==> exp == SaturatedPower(ScanExponent(s, d).value)
  {
    ok, exp := true, 0;
    var i, esign := d + 1, 1;
    if i < |s| && (s[i] == '+' || s[i] == '-') {
      if s[i] == '-' {
        esign := -1;
      }
      i := i + 1;
    }
    if i == |s| {
      return false, 0;
    }
    ok, exp := FoldDigits(s, i);
    exp := exp * esign;
  }

  method FoldDigits(s: string, f: nat) returns (ok: bool, exp: nat)
    requires f < |s|
    ensures ok <==> AllDigits(s[f..])
    ensures ok ==> exp == Saturated(s[f..])
  {
    ok, exp := true, 0;
    var i := f;
    while i < |s|
      invariant f <= i <= |s| && AllDigits(s[f..i])
      invariant exp == Saturated(s[f..i])
    {
      var c := s[i];
      if !IsDigit(c) {
        assert s[f..][i - f] == c;
        return false, 0;
      }
      assert s[f..i + 1][..i - f] == s[f..i];
      if exp < EXP_LIMIT {
        exp := exp * 10 + DigitValue(c);
      }
      i := i + 1;
    }
    assert s[f..i] == s[f..];
  }

  /** The tail of the scanner: drop or append zeros in place, then range-check. */
  method MoveDigits(digits: string, negative: bool, signed: bool, shift: int) returns (r: Result)
    requires AllDigits(digits)
    ensures r == Moved(digits, negative, signed, shift)
  {
    if |digits| == 0 {
      return Success(0);
    }
    if negative && !signed {
      return Failure(Negative);
    }
    var kept := digits;
    if shift < 0 {
      var drop := -shift;
      if drop >= |digits| {
        return Failure(PrecisionLoss);
      }
      for j := |digits| - drop to |digits|
        invariant forall k :: |digits| - drop <= k < j ==> digits[k] == '0'
      {
        if digits[j] != '0' {
          assert digits[|digits| - drop..][j - (|digits| - drop)] == digits[j];
          return Failure(PrecisionLoss);
        }
      }
      kept := digits[..|digits| - drop];
    } else if shift > 0 {
      if |digits| + shift > MAX_INT64_DIGITS {
        return Failure(OutOfRange);
      }
      for k := 0 to shift
        invariant kept == digits + Zeros(k)
      {
        kept := kept + ['0'];
      }
    } else {
      assert digits + Zeros(0) == digits;
    }
    if |kept| > MAX_INT64_DIGITS {
      return Failure(OutOfRange);
    }
    var v := NatOf(kept);
    if v > MAX_INT64 {
      return Failure(OutOfRange);
    }
    r := Success(if negative then -v else v);
  }

  method ParsePrice(s: string) returns (r: Result)
    ensures |s| < EXP_LIMIT - 64 ==> r == Meaning(s, PRICE_EXP, false)
  {
    r := ParseAt(s, PRICE_EXP, false);
  }

  method ParseSize(s: string) returns (r: Result)
    ensures |s| < EXP_LIMIT - 64 ==> r == Meaning(s, SIZE_EXP, false)
  {
    r := ParseAt(s, SIZE_EXP, false);
  }

  method ParseRate(s: string) returns (r: Result)
    ensures |s| < EXP_LIMIT - 64 ==> r == Meaning(s, RATE_EXP, true)
  {
    r := ParseAt(s, RATE_EXP, true);
  }

  method ParseAt(s: string, scaleExp: int, signed: bool) returns (r: Result)
    requires -64 <= scaleExp <= 0
    ensures |s| < EXP_LIMIT - 64 ==> r == Meaning(s, scaleExp, signed)
  {
    r := Parse(s, scaleExp, signed);
    if |s| < EXP_LIMIT - 64 {
      SaturationHarmless(s, scaleExp, signed);
    }
  }
}
