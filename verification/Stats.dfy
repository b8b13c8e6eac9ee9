/** The percentages of the utilization report. */
module Stats {
  import opened Framing

  /** C division and remainder. */
  function CDiv(a: int, b: int): int
    requires b != 0
  {
    if a < 0 then -(-a / b) else a / b
  }

  function CMod(a: int, b: int): int
    requires b != 0
  {
    a - b * CDiv(a, b)
  }

  /** The numerator times 1000 must not overflow a long long. */
  predicate NoOverflow(n: nat) {
    n * 1000 < TWO_63
  }

  /** round_percentage. */
  method Round(n: nat, d: nat) returns (p: int)
    requires NoOverflow(n)
    ensures p == RoundPercentage(n, d)
  {
    if d == 0 {
      return 0;
    }
    p := ToInt32(CDiv(n * 1000, d));
    var r := CMod(p, 10);
    p := CDiv(p, 10);
    if r > 5 || (r == 5 && CMod(p, 2) != 0) {
      p := p + 1;
    }
  }

  /** Tenths of a percent rounded to percent, halves to even. */
  function HalfEven(tenths: int): int {
    var p, r := CDiv(tenths, 10), CMod(tenths, 10);
    if r > 5 || (r == 5 && CMod(p, 2) != 0) then p + 1 else p
  }

  function RoundPercentage(n: nat, d: nat): int {
    if d == 0 then 0 else HalfEven(ToInt32(n * 1000 / d))
  }

  /** Within -0.6 and +0.5 percent of 100 * n / d. */
  predicate Close(p: int, n: nat, d: nat) {
    500 * n - 3 * d < 5 * (p * d) && 2 * (p * d) <= 200 * n + d
  }

  /** The quotient fits the int it is stored in. */
  predicate Fits(n: nat, d: nat)
    requires d > 0
  {
    n * 1000 / d <= INT_MAX
  }

  lemma HalfEvenClose(tenths: nat)
    ensures tenths - 5 <= 10 * HalfEven(tenths) <= tenths + 5
  {
  }

  /** The nearest percentage, and of two that are equally near the even one. */
  lemma HalvesGoToEven(tenths: nat, p: int)
    ensures p == HalfEven(tenths) <==>
              -5 < 10 * p - tenths < 5 || ((10 * p - tenths == 5 || 10 * p - tenths == -5) && p % 2 == 0)
  {
    var q, r := tenths / 10, tenths % 10;
    assert tenths == 10 * q + r;
  }

  lemma HalfEvenMonotone(a: nat, b: nat)
    requires a <= b
    ensures HalfEven(a) <= HalfEven(b)
  {
    HalfEvenClose(a);
    HalfEvenClose(b);
  }

  /** What storing a quotient in an int does to it. */
  lemma Narrowed(q: nat)
    ensures if q <= INT_MAX then ToInt32(q) == q else 10 * HalfEven(ToInt32(q)) <= q - 6
  {
    if q > INT_MAX {
      assert ToInt32(q) <= q - 0x1_0000_0000;
    }
  }

  lemma Quotient(n: nat, d: nat) returns (q: nat)
    requires d > 0
    ensures q == n * 1000 / d && q * d <= n * 1000 < q * d + d
  {
    q := n * 1000 / d;
  }

  lemma Scaled(a: int, b: int, d: nat)
    requires a <= b
    ensures a * d <= b * d
  {
  }

  lemma ScaledTenths(a: int, p: int, d: nat)
    ensures a <= 10 * p ==> a * d <= 10 * (p * d)
    ensures 10 * p <= a ==> 10 * (p * d) <= a * d
  {
    assert (10 * p) * d == 10 * (p * d);
    if a <= 10 * p {
      Scaled(a, 10 * p, d);
    }
    if 10 * p <= a {
      Scaled(10 * p, a, d);
    }
  }

  /** A result this close to the quotient is this close to the percentage. */
  lemma CloseToQuotient(p: int, q: nat, n: nat, d: nat)
    requires q * d <= n * 1000 < q * d + d
    ensures q - 5 <= 10 * p <= q + 5 ==> Close(p, n, d)
    ensures 10 * p <= q - 6 ==> !Close(p, n, d)
  {
    ScaledTenths(q as int - 5, p, d);
    ScaledTenths(q as int + 5, p, d);
    ScaledTenths(q as int - 6, p, d);
    Shifted(q, -5, d);
    Shifted(q, 5, d);
    Shifted(q, -6, d);
  }

  lemma Shifted(q: int, c: int, d: int)
    ensures (q + c) * d == q * d + c * d
  {
  }

  /** The result is that close to the exact percentage exactly if the quotient fits its int. */
  lemma RoundIsClose(n: nat, d: nat)
    requires NoOverflow(n) && d > 0
    ensures Close(RoundPercentage(n, d), n, d) <==> Fits(n, d)
  {
    hide ToInt32, HalfEven, Close;
    var q := Quotient(n, d);
    Narrowed(q);
    HalfEvenClose(q);
    CloseToQuotient(RoundPercentage(n, d), q, n, d);
  }

  /** As long as the quotient fits an `int`, that is the percentage nearest to its whole tenths. */
  lemma RoundIsNearest(n: nat, d: nat, p: int)
    requires NoOverflow(n) && d > 0 && Fits(n, d)
    ensures var tenths := n * 1000 / d;
            p == RoundPercentage(n, d) <==>
              -5 < 10 * p - tenths < 5 || ((10 * p - tenths == 5 || 10 * p - tenths == -5) && p % 2 == 0)
  {
    hide HalfEven, ToInt32;
    var q := Quotient(n, d);
    Narrowed(q);
    HalvesGoToEven(q, p);
  }

  lemma FitsIsMonotone(m: nat, n: nat, d: nat)
    requires NoOverflow(n) && d > 0 && m <= n && Fits(n, d)
    ensures RoundPercentage(m, d) <= RoundPercentage(n, d)
  {
    hide ToInt32, HalfEven;
    QuotientMonotone(m, n, d);
    Narrowed(m * 1000 / d);
    Narrowed(n * 1000 / d);
    HalfEvenMonotone(m * 1000 / d, n * 1000 / d);
  }

  /** The last numerator whose quotient fits. */
  lemma {:induction false} LastFit(n: nat, d: nat) returns (k: nat)
    requires d > 0 && !Fits(n, d)
    ensures k < n && Fits(k, d) && !Fits(k + 1, d)
  {
    if n == 0 || Fits(n - 1, d) {
      k := n - 1;
    } else {
      k := LastFit(n - 1, d);
    }
  }

  /** The next quotient is so little larger that it wraps to a negative number. */
  lemma Drops(k: nat, d: nat)
    requires d > 0 && Fits(k, d) && !Fits(k + 1, d)
    ensures RoundPercentage(k + 1, d) < 0 <= RoundPercentage(k, d)
  {
    hide ToInt32, HalfEven;
    var p: int := Quotient(k, d);
    var q: int := Quotient(k + 1, d);
    assert (p + 1001) * d == p * d + d + 1000 * d;
    if q > p + 1000 {
      Scaled(p + 1001, q, d);
    }
    Narrowed(p);
    HalfEvenClose(p);
    Wraps(q);
  }

  lemma Wraps(q: int)
    requires INT_MAX < q <= INT_MAX + 1000
    ensures HalfEven(ToInt32(q)) < 0
  {
    assert ToInt32(q) == q - 0x1_0000_0000;
  }

  predicate MonotoneUpTo(n: nat, d: nat) {
    forall k, l :: 0 <= k <= l <= n ==> RoundPercentage(k, d) <= RoundPercentage(l, d)
  }

  /** Among the numerators up to n a larger one never gives a smaller percentage, exactly if the quotient of n
      fits its int; the first quotient that does not makes the percentage negative. */
  lemma RoundIsMonotone(n: nat, d: nat)
    requires NoOverflow(n) && d > 0
    ensures MonotoneUpTo(n, d) <==> Fits(n, d)
  {
    hide RoundPercentage, Fits;
    if Fits(n, d) {
      forall k, l | 0 <= k <= l <= n
        ensures RoundPercentage(k, d) <= RoundPercentage(l, d)
      {
        FewerFit(l, n, d);
        FitsIsMonotone(k, l, d);
      }
    } else {
      var k := LastFit(n, d);
      Drops(k, d);
    }
  }

  lemma FewerFit(m: nat, n: nat, d: nat)
    requires d > 0 && m <= n && Fits(n, d)
    ensures Fits(m, d)
  {
    QuotientMonotone(m, n, d);
  }

  lemma QuotientMonotone(m: nat, n: nat, d: nat)
    requires d > 0 && m <= n
    ensures 0 <= m * 1000 / d <= n * 1000 / d
  {
    var p := Quotient(m, d);
    var q := Quotient(n, d);
    if p > q {
      Scaled(q + 1, p, d);
    }
  }

  /** A part of a total is a percentage. */
  lemma RoundIsPercentage(n: nat, d: nat)
    requires NoOverflow(n) && n <= d
    ensures d > 0 ==> Fits(n, d)
    ensures 0 <= RoundPercentage(n, d) <= 100
    ensures d == 0 ==> RoundPercentage(n, d) == 0
  {
    hide ToInt32, HalfEven;
    if d > 0 {
      var q := Quotient(n, d);
      if q > 1000 {
        Scaled(1001, q, d);
      }
      Narrowed(q);
      HalfEvenClose(q);
    }
  }

  /** The matcher, process and timer shares of a nonzero total add up to 99, 100 or 101. */
  lemma SharesAddUp(a: nat, b: nat, c: nat)
    requires NoOverflow(a + b + c) && a + b + c > 0
    ensures var t := a + b + c;
            99 <= RoundPercentage(a, t) + RoundPercentage(b, t) + RoundPercentage(c, t) <= 101
  {
    hide RoundPercentage, Fits;
    var t := a + b + c;
    RoundIsPercentage(a, t);
    RoundIsPercentage(b, t);
    RoundIsPercentage(c, t);
    RoundIsClose(a, t);
    RoundIsClose(b, t);
    RoundIsClose(c, t);
    SumClose(RoundPercentage(a, t), RoundPercentage(b, t), RoundPercentage(c, t), a, b, c);
  }

  lemma SumClose(x: int, y: int, z: int, a: nat, b: nat, c: nat)
    requires a + b + c > 0
    requires Close(x, a, a + b + c) && Close(y, b, a + b + c) && Close(z, c, a + b + c)
    ensures 99 <= x + y + z <= 101
  {
    var t, s := a + b + c, x + y + z;
    assert s * t == x * t + y * t + z * t;
    if s <= 98 {
      Scaled(s, 98, t);
    }
    if s >= 102 {
      Scaled(102, s, t);
    }
  }
}
