/** Digit strings, the natural numbers they spell, and powers of ten.
    Shared by the fixed-point types and by every status reason that prints a number. */
module Decimal {

  function Pow10(n: nat): (p: nat)
    ensures p >= 1
  {
    if n == 0 then 1 else 10 * Pow10(n - 1)
  }

  lemma {:induction false} Pow10Add(m: nat, n: nat)
    ensures Pow10(m + n) == Pow10(m) * Pow10(n)
  {
    if m == 0 {
    } else {
      Pow10Add(m - 1, n);
      assert Pow10(m + n) == 10 * Pow10(m - 1 + n);
      TenTimes(Pow10(n), Pow10(m - 1));
    }
  }

  lemma {:induction false} Pow10Monotone(m: nat, n: nat)
    requires m <= n
    ensures Pow10(m) <= Pow10(n)
  {
    if m < n {
      Pow10Monotone(m, n - 1);
    }
  }

  predicate IsDigit(c: char) {
    '0' <= c <= '9'
  }

  predicate AllDigits(s: string) {
    forall i :: 0 <= i < |s| ==> IsDigit(s[i])
  }

  function DigitValue(c: char): (d: nat)
    requires IsDigit(c)
    ensures d <= 9
  {
    c as int - '0' as int
  }

  function DigitChar(d: nat): (c: char)
    requires d <= 9
    ensures IsDigit(c) && DigitValue(c) == d
  {
    ('0' as int + d) as char
  }

  /** The number a digit string spells; the empty string spells zero. */
  function NatOf(s: string): nat
    requires AllDigits(s)
  {
    if s == "" then 0 else 10 * NatOf(s[..|s| - 1]) + DigitValue(s[|s| - 1])
  }

  lemma {:induction false} NatOfConcat(a: string, b: string)
    requires AllDigits(a) && AllDigits(b)
    ensures AllDigits(a + b)
    ensures NatOf(a + b) == NatOf(a) * Pow10(|b|) + NatOf(b)
  {
    if b == "" {
      assert a + b == a;
    } else {
      var init, last := b[..|b| - 1], b[|b| - 1];
      NatOfConcat(a, init);
      assert (a + b)[..|a + b| - 1] == a + init;
      TenTimes(NatOf(a), Pow10(|init|));
    }
  }

  lemma TenTimes(x: int, y: int)
    ensures 10 * (x * y) == x * (10 * y)
  {
  }

  lemma {:induction false} NatOfUpper(s: string)
    requires AllDigits(s)
    ensures NatOf(s) < Pow10(|s|)
  {
    if s != "" {
      NatOfUpper(s[..|s| - 1]);
    }
  }

  lemma {:induction false} NatOfLower(s: string)
    requires AllDigits(s) && s != "" && s[0] != '0'
    ensures NatOf(s) >= Pow10(|s| - 1)
  {
    if |s| > 1 {
      NatOfLower(s[..|s| - 1]);
    } else {
      assert s[..0] == "";
    }
  }

  predicate AllZeros(s: string) {
    forall i :: 0 <= i < |s| ==> s[i] == '0'
  }

  lemma {:induction false} NatOfZero(s: string)
    requires AllDigits(s)
    ensures NatOf(s) == 0 <==> AllZeros(s)
  {
    if s != "" {
      NatOfZero(s[..|s| - 1]);
      assert s == s[..|s| - 1] + [s[|s| - 1]];
    }
  }

  /** The digit string without its leading zeros: empty exactly when it spells zero. */
  function StripZeros(s: string): (t: string)
    ensures AllDigits(s) ==> AllDigits(t)
    ensures |t| <= |s|
    ensures t != "" ==> t[0] != '0'
  {
    if s == "" then ""
    else if s[0] == '0' then StripZeros(s[1..])
    else s
  }

  lemma {:induction false} StripZerosAppend(s: string, c: char)
    ensures StripZeros(s + [c]) == if StripZeros(s) == "" && c == '0' then "" else StripZeros(s) + [c]
  {
    if s == "" {
      assert s + [c] == [c];
    } else if s[0] == '0' {
      StripZerosAppend(s[1..], c);
      assert (s + [c])[1..] == s[1..] + [c];
    }
  }

  lemma {:induction false} StripZerosValue(s: string)
    requires AllDigits(s)
    ensures NatOf(StripZeros(s)) == NatOf(s)
    ensures StripZeros(s) == "" <==> NatOf(s) == 0
  {
    if s == "" {
    } else if s[0] == '0' {
      StripZerosValue(s[1..]);
      NatOfConcat([s[0]], s[1..]);
      assert s == [s[0]] + s[1..];
      assert NatOf([s[0]]) == 0;
    } else {
      NatOfLower(s);
    }
  }

  /** The digits of n with no leading zero: strconv.FormatUint in base ten. */
  function DigitsOf(n: nat): (s: string)
    ensures s != "" && AllDigits(s) && NatOf(s) == n
    ensures s[0] == '0' <==> n == 0
    ensures n == 0 ==> s == "0"
  {
    if n < 10 then
      [DigitChar(n)]
    else
      var init := DigitsOf(n / 10);
      var s := init + [DigitChar(n % 10)];
      assert s[..|s| - 1] == init;
      s
  }

  /** A signed decimal integer, as %d prints it. */
  function FormatInt(n: int): (s: string)
    ensures s != "" && AllDigits(if n < 0 then s[1..] else s)
    ensures if n < 0 then s[0] == '-' && NatOf(s[1..]) == -n else NatOf(s) == n
  {
    if n < 0 then "-" + DigitsOf(-n) else DigitsOf(n)
  }

  /** The real x with its decimal point moved k places to the right (left when k is negative). */
  function Shift(x: real, k: int): real
    decreases if k >= 0 then k else -k
  {
    if k == 0 then x
    else if k > 0 then 10.0 * Shift(x, k - 1)
    else Shift(x, k + 1) / 10.0
  }

  lemma {:induction false} ShiftAdd(x: real, a: int, b: int)
    ensures Shift(Shift(x, a), b) == Shift(x, a + b)
    decreases if b >= 0 then b else -b
  {
    if b > 0 {
      ShiftAdd(x, a, b - 1);
    } else if b < 0 {
      ShiftAdd(x, a, b + 1);
    }
  }

  lemma {:induction false} ShiftNegate(x: real, k: int)
    ensures Shift(-x, k) == -Shift(x, k)
    decreases if k >= 0 then k else -k
  {
    if k > 0 {
      ShiftNegate(x, k - 1);
    } else if k < 0 {
      ShiftNegate(x, k + 1);
    }
  }

  lemma {:induction false} ShiftMonotone(x: real, y: real, k: int)
    ensures x < y <==> Shift(x, k) < Shift(y, k)
    decreases if k >= 0 then k else -k
  {
    if k > 0 {
      ShiftMonotone(x, y, k - 1);
    } else if k < 0 {
      ShiftMonotone(x, y, k + 1);
    }
  }

  lemma {:induction false} ShiftZero(k: int)
    ensures Shift(0.0, k) == 0.0
    decreases if k >= 0 then k else -k
  {
    if k > 0 {
      ShiftZero(k - 1);
    } else if k < 0 {
      ShiftZero(k + 1);
    }
  }

  lemma {:induction false} ShiftNat(n: int, k: nat)
    ensures Shift(n as real, k) == (n * Pow10(k)) as real
  {
    if k > 0 {
      ShiftNat(n, k - 1);
      assert n * Pow10(k) == 10 * (n * Pow10(k - 1));
    }
  }

  /** Moving the point left of a natural number lands on an integer exactly at its multiples. */
  lemma ShiftLeft(n: int, k: nat, v: int)
    ensures Shift(n as real, 0 - k) == v as real <==> n == v * Pow10(k)
  {
    ShiftAdd(n as real, 0 - k, k);
    ShiftAdd(v as real, k, 0 - k);
    ShiftNat(v, k);
  }
}
