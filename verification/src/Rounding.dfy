/** Decimal rounding on scaled integers: nearest, ties to even, as Python's round. */
module Rounding {

  /** The integer nearest to n / d. */
  function RoundDiv(n: int, d: int): (r: int)
    requires d > 0
    ensures r == n / d || r == n / d + 1
  {
    var q, rem := n / d, n % d;
    if 2 * rem < d then q
    else if 2 * rem > d then q + 1
    else if q % 2 == 0 then q
    else q + 1
  }

  lemma Parts(n: int, d: int)
    requires d > 0
    ensures n == n / d * d + n % d && 0 <= n % d < d
  {
  }

  lemma MultipleBounds(k: int, d: int)
    requires d > 0
    ensures (k >= 1 ==> k * d >= d) && (k <= -1 ==> k * d <= -d)
  {
  }

  /** The quotient is the unique one with a remainder in range. */
  lemma QuotientIs(n: int, d: int, q: int, rem: int)
    requires d > 0 && 0 <= rem < d && n == q * d + rem
    ensures n / d == q && n % d == rem
  {
    Parts(n, d);
    var k := n / d - q;
    assert k * d == rem - n % d;
    MultipleBounds(k, d);
  }

  /** At most half a unit away. */
  lemma RoundsNear(n: int, d: int)
    requires d > 0
    ensures -d <= 2 * (RoundDiv(n, d) * d - n) <= d
  {
  }

  lemma FarMultiples(k: int, d: int, rem: int)
    requires d > 0 && 0 <= rem < d
    ensures k >= 1 ==> k * d + rem >= d
    ensures k <= -2 ==> k * d + rem < -d
  {
    MultipleBounds(k, d);
    MultipleBounds(k + 1, d);
    assert (k + 1) * d == k * d + d;
  }

  /** Exactly the numbers within half a unit of k round to it, the two halves only if k is even. */
  lemma RoundsToExactly(n: int, d: int, k: int)
    requires d > 0
    ensures var e := n - k * d;
      RoundDiv(n, d) == k <==> -d < 2 * e < d || ((2 * e == d || 2 * e == -d) && k % 2 == 0)
  {
    Parts(n, d);
    var j, rem := n / d - k, n % d;
    assert n - k * d == j * d + rem;
    FarMultiples(j, d, rem);
    if j == -1 {
      assert j * d == -d;
    }
  }

  lemma RoundsExactly(k: int, d: int)
    requires d > 0
    ensures RoundDiv(k * d, d) == k
  {
  }

  lemma RoundsMonotonically(n: int, m: int, d: int)
    requires d > 0 && n <= m
    ensures RoundDiv(n, d) <= RoundDiv(m, d)
  {
    Parts(n, d);
    Parts(m, d);
    var k := m / d - n / d;
    assert k * d == m - m % d - (n - n % d);
    MultipleBounds(k, d);
  }

  /** A share of an amount, rounded, lies between nothing and the whole. */
  lemma ShareInRange(amount: int, part: int, whole: int)
    requires amount >= 0 && 0 <= part <= whole && whole > 0
    ensures 0 <= RoundDiv(amount * part, whole) <= amount
  {
    assert amount * part <= amount * whole;
    RoundsMonotonically(0, amount * part, whole);
    RoundsMonotonically(amount * part, amount * whole, whole);
    RoundsExactly(0, whole);
    RoundsExactly(amount, whole);
  }
}
