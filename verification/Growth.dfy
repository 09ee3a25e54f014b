/** The transfer count of one direction: its default, its bounds and the multiplier applied on a restart. */
module Growth {
  const COUNT_DEFAULT: nat := 100
  const COUNT_MAX: nat := 1000000000
  const MULTIPLIER_MAX: nat := 10000000

  // The restart tolerance as an exact rational: 1.35 in asynchronous mode, 1.20 otherwise.
  function ToleranceNum(asynchronous: bool): nat { if asynchronous then 27 else 6 }
  function ToleranceDen(asynchronous: bool): (d: nat) ensures d > 0 { if asynchronous then 20 else 5 }

  /** The new count after one restart: the configured multiplier when there is one, otherwise the
      ratio of the minimum stream time to the weak time, with the tolerance as a lower bound. */
  function Multiplied(count: nat, multiplier: nat, minimumUs: nat, weakTime: nat, asynchronous: bool): nat {
    if multiplier != 0 then count * multiplier
    else
      var t := if weakTime == 0 then 1 else weakTime;
      var num, den := ToleranceNum(asynchronous), ToleranceDen(asynchronous);
      if minimumUs < t then count * num / den else (count * minimumUs * num) / (den * t)
  }

  lemma ProductMonotone(x: nat, y: nat, z: nat)
    requires x <= y
    ensures x * z <= y * z
  {}

  lemma ProductSwap(x: nat, y: nat, z: nat)
    ensures (x * y) * z == (x * z) * y
  {}

  lemma QuotientBound(q: nat, b: nat, d: nat)
    requires d > 0 && q * d <= b
    ensures q <= b / d
  {
    if b / d < q {
      ProductMonotone(b / d + 1, q, d);
    }
  }

  lemma QuotientTimes(a: nat, c: nat)
    requires c > 0
    ensures (a / c) * c <= a
  {}

  lemma DivisionMonotone(a: nat, b: nat, c: nat, d: nat)
    requires c > 0 && d > 0 && a * d <= b * c
    ensures a / c <= b / d
  {
    var q := a / c;
    QuotientTimes(a, c);
    ProductMonotone(q * c, a, d);
    ProductSwap(q, c, d);
    if b < q * d {
      ProductMonotone(b + 1, q * d, c);
    }
    QuotientBound(q, b, d);
  }

  /** The ratio of minimum time to weak time, when it is at least one, never lowers the count below the bare tolerance. */
  lemma RatioKeepsTolerance(count: nat, minimumUs: nat, t: nat, num: nat, den: nat)
    requires t > 0 && den > 0 && t <= minimumUs
    ensures den * t > 0 && count * num / den <= (count * minimumUs * num) / (den * t)
  {
    var base := count * num;
    ProductSwap(count, minimumUs, num);
    ProductMonotone(t, minimumUs, base);
    assert t * base <= minimumUs * base;
    ProductMonotone(base * t, base * minimumUs, den);
    ProductSwap(base, t, den);
    assert base * (den * t) == (base * den) * t;
    assert den * t > 0;
    DivisionMonotone(base, base * minimumUs, den, den * t);
  }

  /** Whatever the weak time was, one restart multiplies the count by at least 6/5, up to truncation. */
  lemma GrowsBySixFifths(count: nat, multiplier: nat, minimumUs: nat, weakTime: nat, asynchronous: bool)
    requires multiplier != 1
    ensures 5 * Multiplied(count, multiplier, minimumUs, weakTime, asynchronous) >= 6 * count - 4
  {
    if multiplier != 0 {
      ProductMonotone(2, multiplier, count);
    } else {
      var t := if weakTime == 0 then 1 else weakTime;
      var num, den := ToleranceNum(asynchronous), ToleranceDen(asynchronous);
      if asynchronous {
        assert 5 * (count * 27 / 20) >= 6 * count - 4;
      }
      if minimumUs >= t {
        RatioKeepsTolerance(count, minimumUs, t, num, den);
      }
    }
  }

  /** The count strictly grows on every restart, whatever stream time was measured. */
  lemma StrictlyGrows(count: nat, multiplier: nat, minimumUs: nat, weakTime: nat, asynchronous: bool)
    requires multiplier != 1 && count >= COUNT_DEFAULT
    ensures Multiplied(count, multiplier, minimumUs, weakTime, asynchronous) > count
  {
    GrowsBySixFifths(count, multiplier, minimumUs, weakTime, asynchronous);
  }

  // --- how large the new count is

  /** What the new count n must be. With a configured multiplier, the product. Without one, n is the number of messages
      that last the minimum time, with the tolerance, at the rate at which `count` messages took the weak time (at
      least one microsecond): n of them do not last longer, n + 1 would. When the weak time is not below the minimum, the
      tolerance alone. The tolerance is 6/5, in asynchronous mode 27/20. */
  predicate IsGrown(count: nat, multiplier: nat, minimumUs: nat, weakTime: nat, asynchronous: bool, n: nat) {
    var t := if weakTime > 1 then weakTime else 1;
    if multiplier > 0 then n == count * multiplier
    else if asynchronous then
      if t <= minimumUs then 20 * (t * n) <= 27 * (count * minimumUs) < 20 * (t * (n + 1)) else 20 * n <= 27 * count < 20 * (n + 1)
    else
      if t <= minimumUs then 5 * (t * n) <= 6 * (count * minimumUs) < 5 * (t * (n + 1)) else 5 * n <= 6 * count < 5 * (n + 1)
  }

  lemma QuotientIs(a: nat, d: nat, n: nat)
    requires d > 0
    ensures a / d == n <==> d * n <= a < d * (n + 1)
  {
    var q := a / d;
    assert d * q <= a < d * (q + 1);
    if d * n <= a < d * (n + 1) {
      if n < q { ProductMonotone(n + 1, q, d); }
      if q < n { ProductMonotone(q + 1, n, d); }
    }
  }

  lemma ScaledQuotientIs(count: nat, minimumUs: nat, num: nat, den: nat, t: nat, n: nat)
    requires den > 0 && t > 0
    ensures den * t > 0
    ensures (count * minimumUs * num) / (den * t) == n <==> den * (t * n) <= num * (count * minimumUs) < den * (t * (n + 1))
  {
    var d, base := den * t, count * minimumUs;
    ProductMonotone(1, den, t);
    Associates(den, t, n);
    Associates(den, t, n + 1);
    QuotientIs(base * num, d, n);
  }

  lemma Associates(x: nat, y: nat, z: nat)
    ensures (x * y) * z == x * (y * z)
  {}

  /** One restart computes exactly that count. */
  lemma GrownExactly(count: nat, multiplier: nat, minimumUs: nat, weakTime: nat, asynchronous: bool, n: nat)
    ensures Multiplied(count, multiplier, minimumUs, weakTime, asynchronous) == n
            <==> IsGrown(count, multiplier, minimumUs, weakTime, asynchronous, n)
  {
    if multiplier == 0 {
      var t := if weakTime == 0 then 1 else weakTime;
      var num, den := ToleranceNum(asynchronous), ToleranceDen(asynchronous);
      if minimumUs < t {
        QuotientIs(count * num, den, n);
      } else {
        ScaledQuotientIs(count, minimumUs, num, den, t, n);
      }
    }
  }
}
