/** Helpers shared by every part of the model: optional values, JavaScript's
    `Math.round` applied to an exact quotient, left-to-right sums, and the
    shapes of id sequences (consecutive runs, strictly increasing runs). */
module Common {

  datatype Option<+T> = None | Some(value: T)

  /** `Math.round(num / den)` on exact values: JavaScript rounds to the nearest
      integer and sends halves towards +infinity, i.e. floor(num / den + 1/2). */
  function RoundQuotient(num: int, den: int): (r: int)
    requires den != 0
  {
    if den > 0 then FloorDiv(2 * num + den, 2 * den) else FloorDiv(-2 * num - den, -2 * den)
  }

  /** Floor division by a positive divisor (Dafny's `/` is Euclidean, which
      for a positive divisor is the floor). */
  function FloorDiv(n: int, d: int): int
    requires d > 0
  {
    n / d
  }

  /** The bracketing that defines floor division. */
  lemma FloorDivBounds(n: int, d: int)
    requires d > 0
    ensures d * FloorDiv(n, d) <= n < d * FloorDiv(n, d) + d
  {
  }

  /** The rounded quotient is the integer nearest to `num / den`, halves
      going up: twice the distance to it is below 1, and exactly 1 only
      below it. */
  lemma RoundQuotientBounds(num: int, den: int)
    requires den != 0
    ensures den > 0 ==> 2 * den * RoundQuotient(num, den) <= 2 * num + den < 2 * den * RoundQuotient(num, den) + 2 * den
    ensures den < 0 ==> -2 * den * RoundQuotient(num, den) <= -2 * num - den < -2 * den * RoundQuotient(num, den) - 2 * den
  {
    if den > 0 {
      FloorDivBounds(2 * num + den, 2 * den);
    } else {
      FloorDivBounds(-2 * num - den, -2 * den);
    }
  }

  /** Dividing a multiple of `t` by `t` needs no rounding. */
  lemma RoundQuotientExact(h: int, t: int)
    requires t != 0
    ensures RoundQuotient(h * t, t) == h
  {
    var r := RoundQuotient(h * t, t);
    var u := if t > 0 then t else -t;
    RoundQuotientBounds(h * t, t);
    assert (if t > 0 then 2 * (h * t) + t else -2 * (h * t) - t) == 2 * u * h + u;
    assert 2 * u * r <= 2 * u * h + u < 2 * u * r + 2 * u;
    assert 2 * u * (r - h) == 2 * u * r - 2 * u * h;
    MultipleInOpenRange(2 * u, r - h);
  }

  /** The only multiple of `d` strictly between `-d` and `d` is 0. */
  lemma MultipleInOpenRange(d: int, k: int)
    requires d > 0 && -d < d * k < d
    ensures k == 0
  {
    if k > 0 {
      MultipleAtLeast(d, k);
    } else if k < 0 {
      MultipleAtLeast(d, -k);
    }
  }

  lemma {:induction false} MultipleAtLeast(d: int, k: int)
    requires d > 0 && k >= 1
    ensures d * k >= d
    decreases k
  {
    if k > 1 {
      MultipleAtLeast(d, k - 1);
      assert d * k == d * (k - 1) + d;
    }
  }

  /** A quotient of at least 1 does not round below 1. */
  lemma RoundQuotientAtLeastOne(num: int, den: int)
    requires 0 < den <= num
    ensures RoundQuotient(num, den) >= 1
  {
    var r := RoundQuotient(num, den);
    RoundQuotientBounds(num, den);
    if r < 0 {
      MultipleAtLeast(2 * den, -r);
    }
  }

  /** `Math.round(h * p / 100)` for an integer percentage `p`. */
  function RoundPercent(h: int, p: int): int
  {
    RoundQuotient(h * p, 100)
  }

  /** A share of a non-negative budget is itself within the budget. */
  lemma RoundPercentBounds(h: int, p: int)
    requires 0 <= h && 0 <= p <= 100
    ensures 0 <= RoundPercent(h, p) <= h
  {
    var hp := h * p;
    assert 0 <= hp <= h * 100 by {
      assert h * (100 - p) >= 0;
    }
    RoundQuotientBounds(hp, 100);
    HundredthsBetween(hp, RoundQuotient(hp, 100), h);
  }

  lemma HundredthsBetween(x: int, r: int, h: int)
    requires 0 <= x <= h * 100 && 200 * r <= 2 * x + 100 < 200 * r + 200
    ensures 0 <= r <= h
  {
  }

  /** Rounding is exact when the percentage divides evenly. */
  lemma RoundPercentExact(h: int, p: int, q: int)
    requires h * p == 100 * q
    ensures RoundPercent(h, p) == q
  {
    var r := RoundPercent(h, p);
    RoundQuotientBounds(h * p, 100);
    assert 200 * r <= 200 * q + 100 < 200 * r + 200;
  }

  /** `x || d` for a number: 0 counts as missing. */
  function OrDefault(x: int, d: int): int
  {
    if x != 0 then x else d
  }

  /** Sum of a sequence, accumulated left to right as `reduce` does. */
  function Sum(s: seq<int>): int
  {
    if s == [] then 0 else Sum(s[..|s| - 1]) + s[|s| - 1]
  }

  lemma {:induction false} SumAppend(a: seq<int>, b: seq<int>)
    ensures Sum(a + b) == Sum(a) + Sum(b)
    decreases |b|
  {
    if b == [] {
      assert a + b == a;
    } else {
      assert (a + b)[..|a + b| - 1] == a + b[..|b| - 1];
      SumAppend(a, b[..|b| - 1]);
    }
  }

  /** The numbers `lo, lo + 1, …` in order: the ids a counter hands out. */
  ghost predicate Consecutive(s: seq<int>, lo: int)
  {
    forall i | 0 <= i < |s| :: s[i] == lo + i
  }

  /** Strictly increasing, every element in `[lo, hi)`: the last element
      lies in `[lo, hi)` and the others are below it. */
  ghost predicate IncreasingWithin(s: seq<int>, lo: int, hi: int)
    decreases |s|
  {
    s == [] || (lo <= s[|s| - 1] < hi && IncreasingWithin(s[..|s| - 1], lo, s[|s| - 1]))
  }

  lemma {:induction false} IncreasingBounds(s: seq<int>, lo: int, hi: int, i: nat)
    requires IncreasingWithin(s, lo, hi) && i < |s|
    ensures lo <= s[i] < hi
    decreases |s|
  {
    if i < |s| - 1 {
      IncreasingBounds(s[..|s| - 1], lo, s[|s| - 1], i);
    }
  }

  /** The two readings of `IncreasingWithin` agree. */
  lemma {:induction false} IncreasingAt(s: seq<int>, lo: int, hi: int, i: nat, j: nat)
    requires IncreasingWithin(s, lo, hi) && i < j < |s|
    ensures lo <= s[i] < s[j] < hi
    decreases |s|
  {
    IncreasingBounds(s, lo, hi, j);
    if j < |s| - 1 {
      IncreasingAt(s[..|s| - 1], lo, s[|s| - 1], i, j);
    } else {
      IncreasingBounds(s[..|s| - 1], lo, s[|s| - 1], i);
    }
  }

  lemma {:induction false} ConsecutiveIsIncreasing(s: seq<int>, lo: int)
    requires Consecutive(s, lo)
    ensures IncreasingWithin(s, lo, lo + |s|)
    decreases |s|
  {
    if s != [] {
      ConsecutiveIsIncreasing(s[..|s| - 1], lo);
    }
  }

  lemma ConsecutiveAppend(a: seq<int>, b: seq<int>, lo: int)
    requires Consecutive(a, lo) && Consecutive(b, lo + |a|)
    ensures Consecutive(a + b, lo)
  {
    forall i | 0 <= i < |a + b| ensures (a + b)[i] == lo + i {
      if i >= |a| { assert (a + b)[i] == b[i - |a|]; }
    }
  }

  /** Two runs handed out by a counter, the second starting where the first may end. */
  lemma {:induction false} IncreasingAppend(a: seq<int>, b: seq<int>, lo: int, mid: int, hi: int)
    requires lo <= mid <= hi
    requires IncreasingWithin(a, lo, mid) && IncreasingWithin(b, mid, hi)
    ensures IncreasingWithin(a + b, lo, hi)
    decreases |b|
  {
    if b == [] {
      assert a + b == a;
      IncreasingWiden(a, lo, mid, lo, hi);
    } else {
      var last := b[|b| - 1];
      assert (a + b)[..|a + b| - 1] == a + b[..|b| - 1];
      IncreasingAppend(a, b[..|b| - 1], lo, mid, last);
    }
  }

  lemma {:induction false} IncreasingWiden(s: seq<int>, lo: int, hi: int, lo': int, hi': int)
    requires IncreasingWithin(s, lo, hi) && lo' <= lo && hi <= hi'
    ensures IncreasingWithin(s, lo', hi')
    decreases |s|
  {
    if s != [] {
      IncreasingWiden(s[..|s| - 1], lo, s[|s| - 1], lo', s[|s| - 1]);
    }
  }
}
