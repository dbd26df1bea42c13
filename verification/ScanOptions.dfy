/**
 * The option table a scanner's descriptors are turned into, and the arithmetic between the range
 * published for an option (divided by its quantum) and the value set for it (multiplied again).
 */
module ScanOptions {
  import opened PrintConstants

  // ---------------------------------------------------------------------------------------
  // Division on publish, multiplication on set
  // ---------------------------------------------------------------------------------------

  function Abs(x: int): nat {
    if x < 0 then -x else x
  }

  /** How often a divisor fits. */
  function NatQuotient(n: nat, d: nat): (k: nat)
    requires d > 0
    ensures k * d <= n < k * d + d
  {
    if n < d then 0
    else
      var k := NatQuotient(n - d, d);
      assert (k + 1) * d == k * d + d;
      k + 1
  }

  /** C++ division: the quotient is truncated towards zero. */
  function TruncatedQuotient(a: int, b: int): int
    requires b != 0
  {
    var n := NatQuotient(Abs(a), Abs(b));
    if (a < 0) == (b < 0) then n else 0 - n
  }

  predicate IsMultiple(x: int, k: int, q: int) {
    x == k * q
  }

  ghost predicate Divides(q: int, x: int) {
    exists k :: IsMultiple(x, k, q)
  }

  /** Between two bounds, whichever is the larger. */
  predicate Between(x: int, a: int, b: int) {
    a <= x <= b || b <= x <= a
  }

  /** Within the smallest interval holding 0, a and b. */
  predicate InHull(x: int, a: int, b: int) {
    (a <= x || b <= x || 0 <= x) && (x <= a || x <= b || x <= 0)
  }

  /** t is the truncated quotient of a by q, with magnitude n and remainder r; no division involved. */
  predicate IsQuotient(a: int, q: int, t: int, n: nat, r: nat) {
    && q != 0
    && Abs(a) == n * Abs(q) + r && r < Abs(q)
    && t == if (a < 0) == (q < 0) then n else 0 - n
  }

  lemma QuotientExists(a: int, q: int) returns (n: nat, r: nat)
    requires q != 0
    ensures IsQuotient(a, q, TruncatedQuotient(a, q), n, r)
  {
    n := NatQuotient(Abs(a), Abs(q));
    r := Abs(a) - n * Abs(q);
  }

  /** The multiple has the sign of the dividend. */
  lemma SignedMultiple(a: int, q: int, t: int, n: nat, r: nat)
    requires IsQuotient(a, q, t, n, r)
    ensures t * q == if a < 0 then -(n * Abs(q)) else n * Abs(q)
  {
  }

  lemma MultipleBounds(a: int, q: int, t: int, n: nat, r: nat)
    requires IsQuotient(a, q, t, n, r)
    ensures Between(t * q, 0, a) && (t * q == a <==> r == 0)
  {
  }

  /** A remainder is zero exactly when some multiple is hit. */
  lemma RemainderIffDivides(a: int, q: int, t: int, n: nat, r: nat)
    requires IsQuotient(a, q, t, n, r)
    ensures r == 0 <==> Divides(q, a)
  {
    MultipleBounds(a, q, t, n, r);
    if r == 0 {
      assert IsMultiple(a, t, q);
    }
    if Divides(q, a) {
      var k :| IsMultiple(a, k, q);
      var d, m := Abs(q), Abs(k);
      MagnitudeOfProduct(k, q);
      assert m * d == n * d + r;
      if m > n {
        MulMonotone(n + 1, m, d);
        assert (n + 1) * d == n * d + d;
      } else {
        MulMonotone(m, n, d);
      }
    }
  }

  lemma MagnitudeOfProduct(k: int, q: int)
    ensures Abs(k * q) == Abs(k) * Abs(q)
  {
  }

  /** Multiplying a truncated quotient back lands between zero and the dividend, and on it exactly if it divides. */
  lemma {:induction false} QuotientTimes(a: int, q: int)
    requires q != 0
    ensures Between(TruncatedQuotient(a, q) * q, 0, a)
    ensures TruncatedQuotient(a, q) * q == a <==> Divides(q, a)
  {
    var n, r := QuotientExists(a, q);
    MultipleBounds(a, q, TruncatedQuotient(a, q), n, r);
    RemainderIffDivides(a, q, TruncatedQuotient(a, q), n, r);
  }

  lemma MulMonotone(x: int, y: int, q: int)
    requires x <= y
    ensures q >= 0 ==> x * q <= y * q
    ensures q <= 0 ==> y * q <= x * q
  {
  }

  lemma BetweenTimes(v: int, lo: int, hi: int, q: int)
    requires Between(v, lo, hi)
    ensures Between(v * q, lo * q, hi * q)
  {
  }

  /** The bounds SetRangeStrInParaTable publishes for a quantum other than zero. */
  function PublishedMin(min: int, q: int): int {
    if q == 0 then min else TruncatedQuotient(min, q)
  }

  function PublishedMax(max: int, q: int): int {
    if q == 0 then max else TruncatedQuotient(max, q)
  }

  /** Every value of the published range multiplies back into the hull of zero and the two bounds. */
  lemma {:induction false} PublishedValuesStayInHull(min: int, max: int, q: int, v: int)
    requires q != 0 && Between(v, PublishedMin(min, q), PublishedMax(max, q))
    ensures InHull(v * q, min, max)
  {
    QuotientTimes(min, q);
    QuotientTimes(max, q);
    BetweenTimes(v, PublishedMin(min, q), PublishedMax(max, q), q);
  }

  /** So on int32_t bounds the multiplication never overflows. */
  lemma {:induction false} PublishedValuesFit(min: Int32, max: Int32, q: Int32, v: int)
    requires q != 0 && Between(v, PublishedMin(min, q), PublishedMax(max, q))
    ensures INT32_MIN <= v * q <= INT32_MAX
  {
    PublishedValuesStayInHull(min, max, q, v);
  }

  /** The bounds themselves fit, except for the one quotient the code rejects. */
  lemma {:induction false} QuotientFitsIff(a: Int32, q: Int32)
    requires q != 0
    ensures INT32_MIN <= TruncatedQuotient(a, q) <= INT32_MAX <==> !(a == INT32_MIN && q == -1)
  {
    var n, r := QuotientExists(a, q);
    MagnitudeFits(Abs(a), Abs(q), n, r);
  }

  lemma MagnitudeFits(x: nat, d: nat, n: nat, r: nat)
    requires x == n * d + r && r < d && x <= -INT32_MIN
    ensures n <= x && (d >= 2 && x > 0 ==> n < x) && (d == 1 ==> n == x)
  {
  }

  /** Does the whole published range multiply back into [min, max]? */
  ghost predicate StaysInRange(min: int, max: int, q: int)
    requires q != 0
  {
    forall v | Between(v, PublishedMin(min, q), PublishedMax(max, q)) :: min <= v * q <= max
  }

  /** Exactly when the range contains zero, or the quantum divides the bound nearer to zero. */
  lemma {:induction false} StaysInRangeIff(min: int, max: int, q: int)
    requires q != 0 && min <= max
    ensures StaysInRange(min, max, q) <==>
            (min <= 0 <= max) || (0 < min && Divides(q, min)) || (max < 0 && Divides(q, max))
  {
    QuotientTimes(min, q);
    QuotientTimes(max, q);
    var lo, hi := PublishedMin(min, q), PublishedMax(max, q);
    if (min <= 0 <= max) || (0 < min && Divides(q, min)) || (max < 0 && Divides(q, max)) {
      forall v | Between(v, lo, hi)
        ensures min <= v * q <= max
      {
        BetweenTimes(v, lo, hi, q);
        QuotientsOrdered(min, max, q);
      }
    } else {
      assert Between(lo, lo, hi) && Between(hi, lo, hi);
    }
  }

  lemma MagnitudesOrdered(n: nat, r: nat, n': nat, r': nat, d: nat)
    requires r < d && r' < d && n * d + r <= n' * d + r'
    ensures n * d <= n' * d
  {
    assert (n' + 1) * d == n' * d + d;
    if n > n' {
      MulMonotone(n' + 1, n, d);
    } else {
      MulMonotone(n, n', d);
    }
  }

  lemma MultiplesOrdered(a: int, b: int, q: int, t: int, n: nat, r: nat, t': int, n': nat, r': nat)
    requires a <= b && IsQuotient(a, q, t, n, r) && IsQuotient(b, q, t', n', r')
    ensures t * q <= t' * q
  {
    SignedMultiple(a, q, t, n, r);
    SignedMultiple(b, q, t', n', r');
    if 0 <= a {
      MagnitudesOrdered(n, r, n', r', Abs(q));
    } else if b < 0 {
      MagnitudesOrdered(n', r', n, r, Abs(q));
    } else {
      assert n * Abs(q) >= 0 && n' * Abs(q) >= 0;
    }
  }

  /** Truncated multiples keep the order of what they were truncated from. */
  lemma {:induction false} QuotientsOrdered(a: int, b: int, q: int)
    requires q != 0 && a <= b
    ensures TruncatedQuotient(a, q) * q <= TruncatedQuotient(b, q) * q
  {
    var n, r := QuotientExists(a, q);
    var n', r' := QuotientExists(b, q);
    MultiplesOrdered(a, b, q, TruncatedQuotient(a, q), n, r, TruncatedQuotient(b, q), n', r');
  }

  /** A range away from zero whose near bound is no multiple: its published minimum sets a value below it. */
  lemma OutOfRangeExample()
    ensures PublishedMin(5, 2) == 2 && 2 * 2 < 5 && !StaysInRange(5, 9, 2)
  {
    assert Between(2, PublishedMin(5, 2), PublishedMax(9, 2));
  }
}
