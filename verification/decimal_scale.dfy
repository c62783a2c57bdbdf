/**
  The decimal scale of a quantum such as "0.00100".

  Source: src/g4/spot_protocol.cpp, lines 185-232. The scales the Projection
  library can represent are a parameter.
 */
module DecimalScale {
  import opened Prelude
  import opened Digits

  const MODULUS_UINT32: nat := 0x1_0000_0000

  datatype Error = Empty | Signed | TwoPoints | NotPlain | NotPositive | ScaleTooLarge
  datatype Result = Scale(scale: nat) | Invalid(error: Error)

  /** The first position of `c` from `from` on, or None. */
  function FindFrom(s: string, c: char, from: nat): (r: Option<nat>)
    ensures r.Some? ==> from <= r.value < |s| && s[r.value] == c && forall k | from <= k < r.value :: s[k] != c
    ensures r.None? ==> forall k | from <= k < |s| :: s[k] != c
    decreases |s| - from
  {
    if from >= |s| then None
    else if s[from] == c then Some(from)
    else FindFrom(s, c, from + 1)
  }

  /** One past the last character that is not '0'; 0 when all are. */
  function SignificantEnd(s: string): (n: nat)
    ensures n <= |s|
    ensures 0 < n ==> s[n - 1] != '0'
    ensures forall k | n <= k < |s| :: s[k] == '0'
  {
    if s == "" then 0 else if s[|s| - 1] != '0' then |s| else SignificantEnd(s[..|s| - 1])
  }

  function Whole(q: string): string {
    var decimal := FindFrom(q, '.', 0);
    if decimal.None? then q else q[..decimal.value]
  }

  function Fraction(q: string): string {
    var decimal := FindFrom(q, '.', 0);
    if decimal.None? then "" else q[decimal.value + 1..]
  }

  function DecimalScaleFromQuantum(q: string, representable: nat -> bool): Result {
    if q == "" then Invalid(Empty)
    else if q[0] == '+' || q[0] == '-' then Invalid(Signed)
    else
      var decimal := FindFrom(q, '.', 0);
      if decimal.Some? && FindFrom(q, '.', decimal.value + 1).Some? then Invalid(TwoPoints)
      else
        var whole, fraction := Whole(q), Fraction(q);
        if whole == "" || !AllDigits(whole) || (decimal.Some? && fraction == "") || !AllDigits(fraction) then
          Invalid(NotPlain)
        else
          var nonzeroWhole := exists i :: 0 <= i < |whole| && whole[i] != '0';
          var scale := SignificantEnd(fraction);
          if !nonzeroWhole && scale == 0 then Invalid(NotPositive)
          else if !representable(scale % MODULUS_UINT32) then Invalid(ScaleTooLarge)
          else Scale(scale % MODULUS_UINT32)
  }

  // ---------------------------------------------------------------- what it means

  /** Plain decimal syntax: digits, or digits, a point and digits. */
  ghost predicate Plain(q: string, whole: string, fraction: string) {
    && AllDigits(whole) && AllDigits(fraction) && whole != ""
    && ((q == whole + "." + fraction && fraction != "") || (q == whole && fraction == ""))
  }

  /** The value of a plain decimal is NumberOf(whole + fraction) / 10^|fraction|. */
  function Units(whole: string, fraction: string): nat
    requires AllDigits(whole) && AllDigits(fraction)
  {
    NumberOf(whole + fraction)
  }

  predicate IsTimes(product: nat, k: nat, factor: nat) {
    product == k * factor
  }

  /** The value times 10^s is an integer. */
  ghost predicate IntegralAt(units: nat, places: nat, s: nat) {
    exists k: nat :: IsTimes(units * Pow10(s), k, Pow10(places))
  }

  ghost predicate IsLeastScale(units: nat, places: nat, s: nat) {
    IntegralAt(units, places, s) && forall t: nat | t < s :: !IntegralAt(units, places, t)
  }

  lemma {:induction false} Pow10Sum(a: nat, b: nat)
    ensures Pow10(a + b) == Pow10(a) * Pow10(b)
    decreases b
  {
    if b == 0 {
    } else {
      Pow10Sum(a, b - 1);
      assert Pow10(a + b) == 10 * (Pow10(a) * Pow10(b - 1)) == Pow10(a) * (10 * Pow10(b - 1));
    }
  }

  /** The parts of a plain decimal are found again. */
  lemma PlainParts(q: string, whole: string, fraction: string)
    requires Plain(q, whole, fraction)
    ensures Whole(q) == whole && Fraction(q) == fraction
    ensures FindFrom(q, '.', 0).Some? <==> fraction != ""
    ensures fraction != "" ==> FindFrom(q, '.', 0) == Some(|whole|) && FindFrom(q, '.', |whole| + 1).None?
    ensures q[0] != '+' && q[0] != '-'
  {
    var d := FindFrom(q, '.', 0);
    assert forall i | 0 <= i < |whole| :: q[i] == whole[i];
    if fraction != "" {
      assert q[|whole|] == '.';
      assert d == Some(|whole|);
      assert q[|whole| + 1..] == fraction;
      assert q[..|whole|] == whole;
      forall k | |whole| + 1 <= k < |q| ensures q[k] != '.' {
        assert q[k] == fraction[k - |whole| - 1];
      }
    }
  }

  lemma ProductGrows(a: nat, b: nat, c: nat)
    requires a < b && 0 < c
    ensures a * c < b * c
  {
  }

  /** Cancelling a positive factor. */
  lemma Cancel(a: nat, b: nat, c: nat)
    requires 0 < c
    ensures a * c == b * c ==> a == b
  {
    if a < b {
      ProductGrows(a, b, c);
    } else if b < a {
      ProductGrows(b, a, c);
    }
  }

  lemma Associate(a: nat, b: nat, c: nat)
    ensures a * b * c == a * (b * c)
  {
  }

  lemma Exchange(a: nat, b: nat, c: nat)
    ensures a * (b * c) == a * c * b
  {
  }

  /** Dropping trailing zeros divides by a power of ten. */
  lemma TrailingZeros(digits: string, n: nat)
    requires AllDigits(digits) && n <= |digits| && forall k | n <= k < |digits| :: digits[k] == '0'
    ensures NumberOf(digits) == NumberOf(digits[..n]) * Pow10(|digits| - n)
  {
    assert digits == digits[..n] + digits[n..];
    NumberOfConcat(digits[..n], digits[n..]);
    ZeroExactly(digits[n..]);
  }

  /** The digits up to the significant end, as a number, and the power of ten that was cut off. */
  lemma SignificantDigits(whole: string, fraction: string) returns (m: nat)
    requires AllDigits(whole) && AllDigits(fraction)
    ensures var s := SignificantEnd(fraction);
            Units(whole, fraction) == m * Pow10(|fraction| - s) && (s == 0 || m % 10 != 0)
  {
    var s := SignificantEnd(fraction);
    var digits := whole + fraction;
    var kept := digits[..|whole| + s];
    forall k | |whole| + s <= k < |digits| ensures digits[k] == '0' {
      assert digits[k] == fraction[k - |whole|];
    }
    TrailingZeros(digits, |whole| + s);
    m := NumberOf(kept);
    if 0 < s {
      assert kept[|kept| - 1] == fraction[s - 1];
      LastDigit(kept);
    }
  }

  lemma LeastScale(units: nat, m: nat, n: nat, s: nat)
    requires s <= n && units == m * Pow10(n - s) && (s == 0 || m % 10 != 0)
    ensures IsLeastScale(units, n, s)
  {
    IntegralAtSignificant(m, n, s);
    forall t: nat | t < s ensures !IntegralAt(units, n, t) {
      NotIntegralBelow(m, n, s, t);
    }
  }

  /** The significant end of the fraction is the least scale at which the value is an integer. */
  lemma SignificantEndIsLeast(whole: string, fraction: string)
    requires AllDigits(whole) && AllDigits(fraction)
    ensures IsLeastScale(Units(whole, fraction), |fraction|, SignificantEnd(fraction))
  {
    var m := SignificantDigits(whole, fraction);
    var units, n, s := Units(whole, fraction), |fraction|, SignificantEnd(fraction);
    assert units == m * Pow10(n - s) && (s == 0 || m % 10 != 0);
    LeastScale(units, m, n, s);
  }

  lemma IntegralAtSignificant(m: nat, n: nat, s: nat)
    requires s <= n
    ensures IntegralAt(m * Pow10(n - s), n, s)
  {
    Pow10Sum(n - s, s);
    Associate(m, Pow10(n - s), Pow10(s));
    assert IsTimes(m * Pow10(n - s) * Pow10(s), m, Pow10(n));
  }

  lemma LastDigit(digits: string)
    requires AllDigits(digits) && digits != "" && digits[|digits| - 1] != '0'
    ensures NumberOf(digits) % 10 != 0
  {
  }

  lemma NotIntegralBelow(m: nat, n: nat, s: nat, t: nat)
    requires t < s <= n && m % 10 != 0
    ensures !IntegralAt(m * Pow10(n - s), n, t)
  {
    if IntegralAt(m * Pow10(n - s), n, t) {
      var k: nat :| IsTimes(m * Pow10(n - s) * Pow10(t), k, Pow10(n));
      TooFewPlaces(m, n, s, t, k);
    }
  }

  lemma TooFewPlaces(m: nat, n: nat, s: nat, t: nat, k: nat)
    requires t < s <= n && m * Pow10(n - s) * Pow10(t) == k * Pow10(n)
    ensures m % 10 == 0
  {
    var p := Pow10(n - s + t);
    Pow10Sum(n - s, t);
    Associate(m, Pow10(n - s), Pow10(t));
    assert m * p == k * Pow10(n);
    Pow10Sum(n - s + t, s - t);
    Exchange(k, p, Pow10(s - t));
    assert m * p == k * Pow10(s - t) * p;
    Cancel(m, k * Pow10(s - t), p);
    Pow10Sum(1, s - t - 1);
    Exchange(k, 10, Pow10(s - t - 1));
    assert Pow10(s - t) == 10 * Pow10(s - t - 1);
    MultipleOfTen(k * Pow10(s - t - 1));
  }

  lemma MultipleOfTen(k: nat)
    ensures (k * 10) % 10 == 0
  {
  }

  /**
    For every input: the function accepts exactly the plain decimals of positive
    value whose truncated scale is representable, and returns the least scale
    exactly when that scale fits 32 bits.
   */
  lemma ScaleExactly(q: string, representable: nat -> bool)
    ensures var r := DecimalScaleFromQuantum(q, representable);
            r.Scale? <==> exists whole, fraction ::
              Plain(q, whole, fraction) && 0 < Units(whole, fraction)
              && representable(SignificantEnd(fraction) % MODULUS_UINT32)
    ensures forall whole, fraction | Plain(q, whole, fraction) ::
              var r := DecimalScaleFromQuantum(q, representable);
              r.Scale? ==> (IsLeastScale(Units(whole, fraction), |fraction|, r.scale) <==>
                            SignificantEnd(fraction) < MODULUS_UINT32)
  {
    forall whole, fraction | Plain(q, whole, fraction)
      ensures var r := DecimalScaleFromQuantum(q, representable);
              && (r.Scale? <==> 0 < Units(whole, fraction) && representable(SignificantEnd(fraction) % MODULUS_UINT32))
              && (r.Scale? ==> (IsLeastScale(Units(whole, fraction), |fraction|, r.scale) <==>
                                SignificantEnd(fraction) < MODULUS_UINT32))
    {
      ScaleOfPlain(q, whole, fraction, representable);
    }
    if DecimalScaleFromQuantum(q, representable).Scale? {
      AcceptedIsPlain(q, representable);
    }
  }

  lemma AcceptedIsPlain(q: string, representable: nat -> bool)
    requires DecimalScaleFromQuantum(q, representable).Scale?
    ensures Plain(q, Whole(q), Fraction(q))
  {
    var decimal := FindFrom(q, '.', 0);
    if decimal.Some? {
      assert q == q[..decimal.value] + "." + q[decimal.value + 1..];
    }
  }

  lemma ScaleOfPlain(q: string, whole: string, fraction: string, representable: nat -> bool)
    requires Plain(q, whole, fraction)
    ensures var r := DecimalScaleFromQuantum(q, representable);
            && (r.Scale? <==> 0 < Units(whole, fraction) && representable(SignificantEnd(fraction) % MODULUS_UINT32))
            && (r.Scale? ==> (IsLeastScale(Units(whole, fraction), |fraction|, r.scale) <==>
                              SignificantEnd(fraction) < MODULUS_UINT32))
  {
    ResultOfPlain(q, whole, fraction, representable);
    OnlySignificantEnd(whole, fraction, SignificantEnd(fraction) % MODULUS_UINT32);
    TruncationVisible(SignificantEnd(fraction));
  }

  lemma TruncationVisible(s: nat)
    ensures s % MODULUS_UINT32 == s <==> s < MODULUS_UINT32
  {
  }

  lemma OnlySignificantEnd(whole: string, fraction: string, t: nat)
    requires AllDigits(whole) && AllDigits(fraction)
    ensures IsLeastScale(Units(whole, fraction), |fraction|, t) <==> t == SignificantEnd(fraction)
  {
    SignificantEndIsLeast(whole, fraction);
    LeastIsUnique(Units(whole, fraction), |fraction|, SignificantEnd(fraction), t);
  }

  lemma ResultOfPlain(q: string, whole: string, fraction: string, representable: nat -> bool)
    requires Plain(q, whole, fraction)
    ensures var r := DecimalScaleFromQuantum(q, representable);
            && (r.Scale? <==> 0 < Units(whole, fraction) && representable(SignificantEnd(fraction) % MODULUS_UINT32))
            && (r.Scale? ==> r.scale == SignificantEnd(fraction) % MODULUS_UINT32)
  {
    PlainParts(q, whole, fraction);
    PositiveExactly(whole, fraction);
  }

  lemma PositiveExactly(whole: string, fraction: string)
    requires AllDigits(whole) && AllDigits(fraction)
    ensures 0 < Units(whole, fraction) <==>
            (exists i :: 0 <= i < |whole| && whole[i] != '0') || SignificantEnd(fraction) != 0
  {
    ZeroExactly(whole + fraction);
    var s := SignificantEnd(fraction);
    if s != 0 {
      assert (whole + fraction)[|whole| + s - 1] == fraction[s - 1];
    }
    if i :| 0 <= i < |whole| && whole[i] != '0' {
      assert (whole + fraction)[i] == whole[i];
    }
  }

  lemma LeastIsUnique(units: nat, places: nat, s: nat, t: nat)
    requires IsLeastScale(units, places, s)
    ensures IsLeastScale(units, places, t) <==> s == t
  {
  }

  /** Below 2^32 characters the truncation is invisible: the result is always the least scale. */
  lemma ShortInputsAreExact(q: string, whole: string, fraction: string, representable: nat -> bool)
    requires |q| < MODULUS_UINT32 && Plain(q, whole, fraction)
    ensures var r := DecimalScaleFromQuantum(q, representable);
            && (r.Scale? <==> 0 < Units(whole, fraction) && representable(SignificantEnd(fraction)))
            && (r.Scale? ==> IsLeastScale(Units(whole, fraction), |fraction|, r.scale))
  {
    assert SignificantEnd(fraction) <= |fraction| <= |q|;
    TruncationVisible(SignificantEnd(fraction));
    ScaleOfPlain(q, whole, fraction, representable);
  }
}
