/**
 * Decimal rounding on integer cents. Python's `round(Decimal, n)` and
 * `round(Decimal)` both round half to even (the default Decimal context).
 */
module Money {
  import opened Base

  function Pow10(n: nat): (r: nat)
    ensures r >= 1
  {
    if n == 0 then 1 else 10 * Pow10(n - 1)
  }

  /** q is n / d rounded to the nearest integer, a tie going to the even neighbour. */
  ghost predicate HalfEvenQuotient(n: int, d: int, q: int)
    requires d > 0
  {
    var e := n - q * d;
    && -d <= 2 * e <= d
    && (2 * e == d || 2 * e == -d ==> q % 2 == 0)
  }

  /** n / d under ROUND_HALF_EVEN. */
  function DivHalfEven(n: int, d: int): (q: int)
    requires d > 0
    ensures HalfEvenQuotient(n, d, q)
  {
    var f := n / d;
    var m := n % d;
    assert n - f * d == m;
    assert n - (f + 1) * d == m - d;
    if 2 * m < d then f
    else if 2 * m > d then f + 1
    else if f % 2 == 0 then f
    else f + 1
  }

  lemma MulAtLeast(k: int, d: int)
    requires k >= 1 && d > 0
    ensures k * d >= d
  {
    assert k * d == (k - 1) * d + d;
    assert (k - 1) * d >= 0;
  }

  /** Two different integers cannot both be the half-even rounding of n / d. */
  lemma HalfEvenBelow(n: int, d: int, lo: int, hi: int)
    requires d > 0 && lo < hi
    requires HalfEvenQuotient(n, d, lo)
    ensures !HalfEvenQuotient(n, d, hi)
  {
    var k := hi - lo;
    assert (n - lo * d) - (n - hi * d) == k * d;
    MulAtLeast(k, d);
    if k >= 2 {
      MulAtLeast(k - 1, d);
      assert k * d == (k - 1) * d + d;
    } else {
      assert hi == lo + 1;
    }
  }

  /** Half-even rounding has exactly one answer, so HalfEvenQuotient pins DivHalfEven down. */
  lemma HalfEvenQuotientUnique(n: int, d: int, q1: int, q2: int)
    requires d > 0
    requires HalfEvenQuotient(n, d, q1) && HalfEvenQuotient(n, d, q2)
    ensures q1 == q2
  {
    if q1 < q2 {
      HalfEvenBelow(n, d, q1, q2);
      assert false;
    } else if q2 < q1 {
      HalfEvenBelow(n, d, q2, q1);
      assert false;
    }
  }

  /** Rounding n / d stays within any integer bounds lo * d <= n <= hi * d. */
  lemma HalfEvenWithin(n: int, d: int, q: int, lo: int, hi: int)
    requires d > 0 && HalfEvenQuotient(n, d, q)
    requires lo * d <= n <= hi * d
    ensures lo <= q <= hi
  {
    if q < lo {
      assert (lo - q) * d == lo * d - q * d;
      MulAtLeast(lo - q, d);
      assert false;
    }
    if q > hi {
      assert (q - hi) * d == q * d - hi * d;
      MulAtLeast(q - hi, d);
      assert false;
    }
  }

  /** A Decimal rate written as units * 10^-scale; the default 0.05 is Rate(5, 2). */
  datatype Rate = Rate(units: int, scale: nat)

  const DefaultRate := Rate(5, 2)

  /** `round(amount * rate, 2)` on an amount in cents, giving cents. */
  function ApplyRate(amount: Cents, rate: Rate): (r: Cents)
    ensures HalfEvenQuotient(amount * rate.units, Pow10(rate.scale), r)
  {
    DivHalfEven(amount * rate.units, Pow10(rate.scale))
  }

  /** At the default 5% a non-negative amount earns between nothing and the amount itself. */
  lemma DefaultRateBounds(amount: Cents)
    requires amount >= 0
    ensures 0 <= ApplyRate(amount, DefaultRate) <= amount
  {
    assert Pow10(2) == 100 by {
      assert Pow10(1) == 10;
    }
    var r := ApplyRate(amount, DefaultRate);
    assert -100 <= 2 * (amount * 5 - r * 100) <= 100;
  }

  /** 50.00 earns 2.50; 0.50 earns 0.02 and 0.70 earns 0.04 (0.025 and 0.035 both go to the even cent). */
  lemma DefaultRateExamples()
    ensures ApplyRate(5000, DefaultRate) == 250
    ensures ApplyRate(50, DefaultRate) == 2
    ensures ApplyRate(70, DefaultRate) == 4
    ensures ApplyRate(2000, DefaultRate) == 100
  {
    assert Pow10(2) == 100 by {
      assert Pow10(1) == 10;
    }
    HalfEvenQuotientUnique(5000 * 5, 100, ApplyRate(5000, DefaultRate), 250);
    HalfEvenQuotientUnique(50 * 5, 100, ApplyRate(50, DefaultRate), 2);
    HalfEvenQuotientUnique(70 * 5, 100, ApplyRate(70, DefaultRate), 4);
    HalfEvenQuotientUnique(2000 * 5, 100, ApplyRate(2000, DefaultRate), 100);
  }
}
