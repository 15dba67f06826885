/** Integer rounding: bigint division, the two rounding rules of the tax engine and the cash rounding rule. */
module Rounding {

  /** bigint division, which truncates toward zero. */
  function TruncDiv(a: int, b: int): int
    requires b > 0
  {
    if a < 0 then -((-a) / b) else a / b
  }

  /** round(n/d), halves away from zero. */
  function RoundHalfUp(n: int, d: int): int
    requires d > 0
    decreases n < 0
  {
    if n < 0 then -RoundHalfUp(-n, d) else TruncDiv(2 * n + d, 2 * d)
  }

  /** round(n/d), halves to the even neighbour. */
  function RoundHalfEven(n: int, d: int): int
    requires d > 0
    decreases n < 0
  {
    if n < 0 then -RoundHalfEven(-n, d) else
      var quotient := TruncDiv(n, d);
      var twiceRemainder := 2 * (n % d);
      if twiceRemainder > d || (twiceRemainder == d && quotient % 2 == 1) then quotient + 1 else quotient
  }

  /** r is a nearest integer to n/d. */
  ghost predicate Nearest(n: int, d: int, r: int) {
    -d <= 2 * (n - d * r) <= d
  }

  /** n/d lies exactly halfway and r is the neighbour away from zero (both signs). */
  ghost predicate TieAway(n: int, d: int, r: int) {
    && (2 * (n - d * r) == d ==> n < 0)
    && (2 * (n - d * r) == -d ==> n >= 0)
  }

  /** On a tie, r is even. */
  ghost predicate TieEven(n: int, d: int, r: int) {
    2 * (n - d * r) == d || 2 * (n - d * r) == -d ==> r % 2 == 0
  }

  lemma {:induction false} DivBounds(x: int, y: int)
    requires y > 0
    ensures y * (x / y) <= x < y * (x / y) + y
  {
  }

  lemma {:induction false} TimesNegate(d: int, q: int)
    ensures d * (-q) == -(d * q)
  {
  }

  lemma {:induction false} Distribute(a: int, b: int, c: int)
    ensures a * (b + c) == a * b + a * c
  {
  }

  /** Multiples of d are at least d apart per step between the factors. */
  lemma {:induction false} MultipleGap(d: int, q: int, r: int, k: nat)
    requires d > 0
    requires q >= r + k
    ensures d * q >= d * r + d * k
  {
    var e := q - r - k;
    assert d * e >= 0;
    assert d * (r + k + e) == d * r + d * k + d * e;
  }

  /** Two multiples of d closer than d are the same multiple. */
  lemma {:induction false} SameMultiple(d: int, q: int, r: int)
    requires d > 0
    requires -d < d * q - d * r < d
    ensures q == r
  {
    if q > r {
      MultipleGap(d, q, r, 1);
    } else if q < r {
      MultipleGap(d, r, q, 1);
    }
  }

  lemma {:induction false} RoundHalfUpNearest(n: int, d: int)
    requires d > 0
    ensures Nearest(n, d, RoundHalfUp(n, d)) && TieAway(n, d, RoundHalfUp(n, d))
  {
    var m := if n < 0 then -n else n;
    var q := RoundHalfUp(m, d);
    DivBounds(2 * m + d, 2 * d);
    assert (2 * d) * q == 2 * (d * q);
    TimesNegate(d, q);
  }

  /** Half-up rounding is the only nearest integer whose ties go away from zero. */
  lemma {:induction false} RoundHalfUpUnique(n: int, d: int, r: int)
    requires d > 0
    requires Nearest(n, d, r) && TieAway(n, d, r)
    ensures r == RoundHalfUp(n, d)
  {
    RoundHalfUpNearest(n, d);
    SameMultiple(d, RoundHalfUp(n, d), r);
  }

  /** The choice between a quotient and the next one, for n = d * q + rest. */
  lemma {:induction false} EvenChoice(n: int, d: int, q: int, rest: int, r: int)
    requires 0 <= rest < d && n == d * q + rest
    requires r == if 2 * rest > d || (2 * rest == d && q % 2 == 1) then q + 1 else q
    ensures Nearest(n, d, r) && TieEven(n, d, r)
  {
    Distribute(d, q, 1);
    assert n - d * r == if r == q then rest else rest - d;
  }

  lemma {:induction false} RoundHalfEvenNatural(m: nat, d: int)
    requires d > 0
    ensures Nearest(m, d, RoundHalfEven(m, d)) && TieEven(m, d, RoundHalfEven(m, d))
  {
    EvenChoice(m, d, m / d, m % d, RoundHalfEven(m, d));
  }

  lemma {:induction false} RoundHalfEvenNearest(n: int, d: int)
    requires d > 0
    ensures Nearest(n, d, RoundHalfEven(n, d)) && TieEven(n, d, RoundHalfEven(n, d))
  {
    if n >= 0 {
      RoundHalfEvenNatural(n, d);
    } else {
      RoundHalfEvenNatural(-n, d);
      TimesNegate(d, RoundHalfEven(-n, d));
    }
  }

  /** Half-even rounding is the only nearest integer that is even on ties. */
  lemma {:induction false} RoundHalfEvenUnique(n: int, d: int, r: int)
    requires d > 0
    requires Nearest(n, d, r) && TieEven(n, d, r)
    ensures r == RoundHalfEven(n, d)
  {
    RoundHalfEvenNearest(n, d);
    var q := RoundHalfEven(n, d);
    if q > r {
      EvenNeighbour(n, d, r, q);
    } else if r > q {
      EvenNeighbour(n, d, q, r);
    }
  }

  lemma {:induction false} EvenNeighbour(n: int, d: int, low: int, high: int)
    requires d > 0 && low < high
    requires Nearest(n, d, low) && Nearest(n, d, high)
    ensures !(TieEven(n, d, low) && TieEven(n, d, high))
  {
    MultipleGap(d, high, low, 1);
    if high >= low + 2 {
      MultipleGap(d, high, low, 2);
    } else {
      assert high == low + 1;
    }
  }

  /** A larger numerator never rounds lower, for any rule that returns a nearest integer. */
  lemma {:induction false} NearestMonotone(n: int, m: int, d: int, r: int, s: int)
    requires d > 0 && n < m
    requires Nearest(n, d, r) && Nearest(m, d, s)
    ensures r <= s
  {
    if r > s {
      MultipleGap(d, r, s, 1);
    }
  }
}
