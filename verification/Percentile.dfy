/** The summary functions of SortedDurations in faststats/rolling_percentile.go. Floating point is modelled by reals. */
module Percentiles {
  import opened Sums

  const MAX_INT64 := 0x7FFF_FFFF_FFFF_FFFF

  const TWO_64 := 0x1_0000_0000_0000_0000

  /** Two's-complement wrap-around to 64 bits. */
  function Wrap(x: int): int { (x + MAX_INT64 + 1) % TWO_64 - MAX_INT64 - 1 }

  lemma WrapAbsorbs(x: int, y: int)
    ensures Wrap(Wrap(x) + y) == Wrap(x + y)
  {
    var q := (x + MAX_INT64 + 1) / TWO_64;
    assert Wrap(x) + y == x + y - q * TWO_64;
    WrapIsPeriodic(x + y, q);
  }

  lemma WrapIsPeriodic(x: int, q: int)
    ensures Wrap(x - q * TWO_64) == Wrap(x)
  {}

  /** Go's integer division and float-to-integer conversion: towards zero. */
  function TruncDiv(x: int, n: nat): int
    requires n > 0
  {
    if x >= 0 then x / n else -((-x) / n)
  }

  function Trunc(x: real): int {
    if x >= 0.0 then x.Floor else -((-x).Floor)
  }

  function Ceil(x: real): int { -((-x).Floor) }

  predicate Ascending(s: seq<int>) {
    forall i, j :: 0 <= i < j < |s| ==> s[i] <= s[j]
  }

  function Least(s: seq<int>): int { if s == [] then -1 else s[0] }

  function Greatest(s: seq<int>): int { if s == [] then -1 else s[|s| - 1] }

  // ---- Percentile ----

  /** The weighted part of a distance. */
  function Part(d: int, w: real): int { Trunc(d as real * w) }

  /** Between two entries, in 64-bit arithmetic. */
  function Blend(first: int, second: int, w: real): int { Wrap(first + Part(Wrap(second - first), w)) }

  /** Interpolation at a fractional index. */
  function At(s: seq<int>, x: real): int
    requires |s| > 0 && 0.0 <= x <= (|s| - 1) as real
  {
    Blend(s[x.Floor], s[Ceil(x)], x - x.Floor as real)
  }

  /** The fractional index that p percent stand for in a list of n + 1 entries. */
  function Position(p: real, n: nat): real { p / 100.0 * n as real }

  function Percentile(s: seq<int>, p: real): int {
    if s == [] then -1
    else if |s| == 1 then s[0]
    else if p <= 0.0 then s[0]
    else if p >= 100.0 then s[|s| - 1]
    else
      IndexInRange(p, |s| - 1);
      At(s, Position(p, |s| - 1))
  }

  lemma IndexInRange(p: real, n: nat)
    requires 0.0 <= p <= 100.0
    ensures 0.0 <= Position(p, n) <= n as real
  {
    var f := p / 100.0;
    assert 0.0 <= f <= 1.0;
    MulIsMonotone(f, 1.0, n as real);
    MulIsMonotone(0.0, f, n as real);
  }

  lemma MulIsMonotone(x: real, y: real, z: real)
    requires x <= y && 0.0 <= z
    ensures x * z <= y * z && z * x <= z * y
  {}

  lemma TruncIsMonotone(x: real, y: real)
    requires 0.0 <= x <= y
    ensures Trunc(x) <= Trunc(y)
  {
    assert x.Floor as real <= y < (y.Floor + 1) as real;
  }

  predicate IsInt64(x: int) { -MAX_INT64 - 1 <= x <= MAX_INT64 }

  predicate AllInt64(s: seq<int>) { forall i :: 0 <= i < |s| ==> IsInt64(s[i]) }

  /** The distance between two entries fits into 64 bits, or it is that of the two extremes. */
  predicate Close(first: int, second: int) { second - first <= MAX_INT64 || second - first == TWO_64 - 1 }

  predicate Fits(s: seq<int>) { AllInt64(s) && forall i :: 0 <= i < |s| - 1 ==> Close(s[i], s[i + 1]) }

  lemma PartOfMinusOne(w: real)
    requires 0.0 <= w < 1.0
    ensures Part(-1, w) == 0
  {
    assert -1 as real * w == -w;
  }

  lemma BlendOfNear(first: int, second: int, w: real)
    requires IsInt64(first) && IsInt64(second) && 0 <= second - first <= MAX_INT64 && 0.0 <= w < 1.0
    ensures first <= Blend(first, second, w) == first + Part(second - first, w) <= second
  {
    var d := second - first;
    PartIsMonotone(d, 0.0, w);
    PartIsMonotone(d, w, 1.0);
    WholeParts(d);
    assert Wrap(d) == d;
  }

  lemma BlendOfExtremes(first: int, second: int, w: real)
    requires IsInt64(first) && second - first == TWO_64 - 1 && 0.0 <= w < 1.0
    ensures Blend(first, second, w) == first
  {
    PartOfMinusOne(w);
    assert Wrap(second - first) == -1;
  }

  lemma BlendOfClose(first: int, second: int, w: real)
    requires IsInt64(first) && IsInt64(second) && first <= second && 0.0 <= w < 1.0 && Close(first, second)
    ensures first <= Blend(first, second, w) <= second
  {
    if second - first <= MAX_INT64 { BlendOfNear(first, second, w); } else { BlendOfExtremes(first, second, w); }
  }

  /** Truncation takes off less than one unit of the exact interpolation. */
  lemma BlendIsLinear(first: int, second: int, w: real)
    requires IsInt64(first) && IsInt64(second) && 0 <= second - first <= MAX_INT64 && 0.0 <= w < 1.0
    ensures
      var exact := first as real + (second - first) as real * w;
      Blend(first, second, w) as real <= exact < Blend(first, second, w) as real + 1.0
  {
    BlendOfNear(first, second, w);
    MulIsMonotone(0.0, w, (second - first) as real);
  }

  /** Halfway between two entries that are too far apart the value is out of their range. */
  lemma HalfwayLeaves(first: int, second: int)
    requires IsInt64(first) && IsInt64(second) && first <= second && !Close(first, second)
    ensures !(first <= Blend(first, second, 0.5) <= second)
  {
    var gap := TWO_64 - (second - first);
    assert Wrap(second - first) == -gap;
    var half := (gap as real * 0.5).Floor;
    assert 1 <= half <= gap - 1 && Part(-gap, 0.5) == -half;
    assert Wrap(first - half) == first - half || Wrap(first - half) == first - half + TWO_64;
  }

  /** Interpolation stays between two entries, for every weight, exactly if they are close. */
  lemma BlendStaysExactly(first: int, second: int)
    requires IsInt64(first) && IsInt64(second) && first <= second
    ensures Close(first, second) <==> forall w :: 0.0 <= w < 1.0 ==> first <= Blend(first, second, w) <= second
  {
    if Close(first, second) {
      forall w | 0.0 <= w < 1.0
        ensures first <= Blend(first, second, w) <= second
      {
        BlendOfClose(first, second, w);
      }
    } else {
      HalfwayLeaves(first, second);
    }
  }

  /** Durations, which are not negative, are close. */
  lemma DurationsFit(s: seq<int>)
    requires forall i :: 0 <= i < |s| ==> 0 <= s[i] <= MAX_INT64
    ensures Fits(s)
  {}

  /** Two entries that are not: the median of -2^63 and 0 comes out positive. */
  lemma MedianOverflows()
    ensures Percentile([-MAX_INT64 - 1, 0], 50.0) == 0x4000_0000_0000_0000 > Greatest([-MAX_INT64 - 1, 0])
  {
    assert Position(50.0, 1) == 0.5;
    assert (0x8000_0000_0000_0000 as real * 0.5).Floor == 0x4000_0000_0000_0000;
    assert Part(-MAX_INT64 - 1, 0.5) == -0x4000_0000_0000_0000;
  }

  /** The interpolated value lies between the neighbours. */
  lemma AtIsBetween(s: seq<int>, x: real)
    requires |s| > 0 && 0.0 <= x <= (|s| - 1) as real && Ascending(s) && Fits(s)
    ensures s[x.Floor] <= At(s, x) <= s[Ceil(x)]
  {
    BlendOfClose(s[x.Floor], s[Ceil(x)], x - x.Floor as real);
  }

  /** At a whole index it is the entry itself. */
  lemma AtMeets(s: seq<int>, i: nat)
    requires i < |s| && AllInt64(s)
    ensures At(s, i as real) == s[i]
  {
    WholeParts(0);
  }

  lemma WholeParts(d: int)
    requires 0 <= d
    ensures Part(d, 0.0) == 0 && Part(d, 1.0) == d
  {}

  /** Within one segment the value grows with the weight. */
  lemma PartIsMonotone(d: int, w: real, v: real)
    requires 0 <= d && 0.0 <= w <= v
    ensures Part(d, w) <= Part(d, v)
  {
    MulIsMonotone(0.0, w, d as real);
    MulIsMonotone(w, v, d as real);
    TruncIsMonotone(d as real * w, d as real * v);
  }

  lemma AtIsMonotone(s: seq<int>, x: real, y: real)
    requires |s| > 0 && 0.0 <= x <= y <= (|s| - 1) as real && Ascending(s) && Fits(s)
    ensures At(s, x) <= At(s, y)
  {
    AtIsBetween(s, x);
    AtIsBetween(s, y);
    if x.Floor < y.Floor {
      assert Ceil(x) <= y.Floor;
    } else if x != x.Floor as real {
      assert Ceil(x) == Ceil(y) == x.Floor + 1;
      BlendIsMonotone(s[x.Floor], s[Ceil(x)], x - x.Floor as real, y - y.Floor as real);
    } else {
      AtMeets(s, x.Floor);
    }
  }

  lemma BlendIsMonotone(first: int, second: int, w: real, v: real)
    requires IsInt64(first) && IsInt64(second) && first <= second && 0.0 <= w <= v < 1.0 && Close(first, second)
    ensures Blend(first, second, w) <= Blend(first, second, v)
  {
    if second - first <= MAX_INT64 {
      BlendOfNear(first, second, w);
      BlendOfNear(first, second, v);
      PartIsMonotone(second - first, w, v);
    } else {
      BlendOfExtremes(first, second, w);
      BlendOfExtremes(first, second, v);
    }
  }

  /** A percentile never leaves the range of the list ... */
  lemma PercentileInRange(s: seq<int>, p: real)
    requires Ascending(s) && Fits(s)
    ensures Least(s) <= Percentile(s, p) <= Greatest(s)
  {
    if |s| > 1 && 0.0 < p < 100.0 {
      IndexInRange(p, |s| - 1);
      AtIsBetween(s, Position(p, |s| - 1));
    }
  }

  /** ... grows with p, also from one segment to the next ... */
  lemma PercentileIsMonotone(s: seq<int>, p: real, q: real)
    requires Ascending(s) && Fits(s) && p <= q
    ensures Percentile(s, p) <= Percentile(s, q)
  {
    if |s| > 1 && 0.0 < p && q < 100.0 {
      IndexInRange(p, |s| - 1);
      IndexInRange(q, |s| - 1);
      MulIsMonotone(p / 100.0, q / 100.0, (|s| - 1) as real);
      AtIsMonotone(s, Position(p, |s| - 1), Position(q, |s| - 1));
    } else {
      PercentileInRange(s, p);
      PercentileInRange(s, q);
    }
  }

  /** Halfway between entries i and i + 1. */
  lemma PercentileHalfway(s: seq<int>, i: nat) returns (p: real)
    requires i + 1 < |s|
    ensures 100.0 * i as real / (|s| - 1) as real <= p <= 100.0 * (i + 1) as real / (|s| - 1) as real
    ensures Percentile(s, p) == Blend(s[i], s[i + 1], 0.5)
  {
    var n := (|s| - 1) as real;
    var x := i as real + 0.5;
    p := 100.0 * x / n;
    KnotIsInRange(x, n);
    QuotientIsMonotone(100.0 * i as real, 100.0 * x, n);
    QuotientIsMonotone(100.0 * x, 100.0 * (i + 1) as real, n);
    PercentileAtPosition(s, p, x);
    assert x.Floor == i && Ceil(x) == i + 1;
  }

  lemma QuotientIsMonotone(x: real, y: real, n: real)
    requires n > 0.0 && x <= y
    ensures x / n <= y / n
  {}

  lemma TooFarIsNotMonotone(s: seq<int>, i: nat)
    requires Ascending(s) && AllInt64(s) && i + 1 < |s| && !Close(s[i], s[i + 1])
    ensures exists p, q :: p <= q && Percentile(s, p) > Percentile(s, q)
  {
    var n := (|s| - 1) as real;
    var p := PercentileHalfway(s, i);
    PercentileMeetsEntries(s, i);
    PercentileMeetsEntries(s, i + 1);
    HalfwayLeaves(s[i], s[i + 1]);
    assert Percentile(s, 100.0 * i as real / n) > Percentile(s, p)
        || Percentile(s, p) > Percentile(s, 100.0 * (i + 1) as real / n);
  }

  /** ... grows with p, exactly if every two neighbours are close ... */
  lemma PercentileIsMonotoneExactly(s: seq<int>)
    requires Ascending(s) && AllInt64(s)
    ensures (forall p, q :: p <= q ==> Percentile(s, p) <= Percentile(s, q)) <==> Fits(s)
  {
    if Fits(s) {
      forall p, q | p <= q
        ensures Percentile(s, p) <= Percentile(s, q)
      {
        PercentileIsMonotone(s, p, q);
      }
    } else {
      var i :| 0 <= i < |s| - 1 && !Close(s[i], s[i + 1]);
      TooFarIsNotMonotone(s, i);
    }
  }

  /** The point between two entries on the straight line from the first to the second. */
  function Line(first: int, second: int, w: real): real { first as real + (second - first) as real * w }

  lemma LineBounds(first: int, second: int, w: real, v: int)
    requires IsInt64(first) && IsInt64(second) && 0 <= second - first <= MAX_INT64 && 0.0 <= w < 1.0
    requires v == if w == 0.0 then first else Blend(first, second, w)
    ensures v as real <= Line(first, second, w) < v as real + 1.0
  {
    if w == 0.0 { TimesZero((second - first) as real, w); } else { BlendIsLinear(first, second, w); }
  }

  lemma TimesZero(d: real, w: real)
    requires w == 0.0
    ensures d * w == 0.0
  {}

  lemma AtIsLinear(s: seq<int>, x: real, i: nat)
    requires Ascending(s) && AllInt64(s) && i + 1 < |s| && s[i + 1] - s[i] <= MAX_INT64
    requires i as real <= x < (i + 1) as real
    ensures x <= (|s| - 1) as real
    ensures At(s, x) as real <= Line(s[i], s[i + 1], x - i as real) < At(s, x) as real + 1.0
  {
    var w := x - i as real;
    if w == 0.0 { AtMeets(s, i); } else { AtBlends(s, x, i); }
    LineBounds(s[i], s[i + 1], w, At(s, x));
  }

  lemma AtBlends(s: seq<int>, x: real, i: nat)
    requires i + 1 < |s| && i as real < x < (i + 1) as real
    ensures x <= (|s| - 1) as real && At(s, x) == Blend(s[i], s[i + 1], x - i as real)
  {
    CeilIsNext(x, i);
  }

  lemma CeilIsNext(x: real, i: int)
    requires i as real < x < (i + 1) as real
    ensures x.Floor == i && Ceil(x) == i + 1
  {}

  /** ... is within one unit of the line between the entries around the fractional index p / 100 * (len - 1) ... */
  lemma PercentileIsLinear(s: seq<int>, p: real, i: nat)
    requires Ascending(s) && AllInt64(s) && 0.0 < p < 100.0 && i + 1 < |s| && s[i + 1] - s[i] <= MAX_INT64
    requires i as real <= p / 100.0 * (|s| - 1) as real < (i + 1) as real
    ensures
      var exact := Line(s[i], s[i + 1], p / 100.0 * (|s| - 1) as real - i as real);
      Percentile(s, p) as real <= exact < Percentile(s, p) as real + 1.0
  {
    var x := p / 100.0 * (|s| - 1) as real;
    IndexInRange(p, |s| - 1);
    PercentileAtPosition(s, p, x);
    AtIsLinear(s, x, i);
  }

  /** ... and meets every entry exactly: 0 gives the first, 100 the last, and 100 * i / (len - 1) the i-th. */
  lemma PercentileMeetsEntries(s: seq<int>, i: nat)
    requires AllInt64(s) && i < |s| && |s| > 1
    ensures Percentile(s, 100.0 * i as real / (|s| - 1) as real) == s[i]
  {
    var n := (|s| - 1) as real;
    var p := 100.0 * i as real / n;
    KnotIsInRange(i as real, n);
    if 0 < i < |s| - 1 {
      PercentileAtPosition(s, p, i as real);
      AtMeets(s, i);
    }
  }

  lemma PercentileAtPosition(s: seq<int>, p: real, x: real)
    requires |s| > 1 && 0.0 < p < 100.0 && Position(p, |s| - 1) == x && 0.0 <= x <= (|s| - 1) as real
    ensures Percentile(s, p) == At(s, x)
  {}

  lemma KnotIsInRange(i: real, n: real)
    requires 0.0 <= i <= n && 0.0 < n
    ensures 100.0 * i / n / 100.0 * n == i
    ensures (100.0 * i / n <= 0.0 <==> i == 0.0) && (100.0 * i / n >= 100.0 <==> i == n)
  {
    var p := 100.0 * i / n;
    assert p * n == 100.0 * i;
    ScaledBack(p, n, i);
    if 0.0 < i < n { QuotientBelow(100.0 * i, 100.0, n); }
  }

  lemma QuotientBelow(x: real, y: real, n: real)
    requires n > 0.0 && 0.0 < x < y * n
    ensures 0.0 < x / n < y
  {}

  lemma ScaledBack(p: real, n: real, i: real)
    requires p * n == 100.0 * i
    ensures p / 100.0 * n == i
  {}

  // ---- Mean ----

  function MeanOf(s: seq<int>): int {
    if s == [] then -1 else TruncDiv(Wrap(Sum(s)), |s|)
  }

  method Mean(s: seq<int>) returns (mean: int)
    ensures mean == MeanOf(s)
  {
    if |s| == 0 { return -1; }
    var sum := 0;
    for i := 0 to |s|
      invariant sum == Wrap(Sum(s[..i]))
    {
      WrapAbsorbs(Sum(s[..i]), s[i]);
      assert s[..i + 1][..i] == s[..i];
      sum := Wrap(sum + s[i]);
    }
    assert s[..|s|] == s;
    mean := TruncDiv(sum, |s|);
  }

  lemma {:induction false} SumInRange(s: seq<int>, lo: int, hi: int)
    requires forall i :: 0 <= i < |s| ==> lo <= s[i] <= hi
    ensures |s| * lo <= Sum(s) <= |s| * hi
  {
    if s != [] {
      SumInRange(s[..|s| - 1], lo, hi);
      assert |s| * lo == (|s| - 1) * lo + lo && |s| * hi == (|s| - 1) * hi + hi;
    }
  }

  lemma TruncDivInRange(x: int, n: nat, lo: int, hi: int)
    requires n > 0 && n * lo <= x <= n * hi
    ensures lo <= TruncDiv(x, n) <= hi
  {
    if x >= 0 {
      DivInRange(x, n, lo, hi);
    } else {
      assert n * -hi <= -x <= n * -lo;
      DivInRange(-x, n, -hi, -lo);
    }
  }

  lemma DivInRange(x: int, n: nat, lo: int, hi: int)
    requires n > 0 && x >= 0 && n * lo <= x <= n * hi
    ensures lo <= x / n <= hi
  {
    assert x == n * (x / n) + x % n;
    CancelFactor(n, lo, x / n + 1);
    CancelFactor(n, x / n, hi + 1);
  }

  lemma CancelFactor(n: nat, x: int, y: int)
    requires n > 0 && n * x < n * y
    ensures x < y
  {}

  /** Unless the sum overflows, the mean lies between the least and the greatest entry. */
  lemma MeanInRange(s: seq<int>)
    requires Ascending(s) && -MAX_INT64 - 1 <= Sum(s) <= MAX_INT64
    ensures Least(s) <= MeanOf(s) <= Greatest(s)
  {
    if s != [] {
      SumInRange(s, Least(s), Greatest(s));
      TruncDivInRange(Sum(s), |s|, Least(s), Greatest(s));
    }
  }

  /** Then it is the sum divided by the length, towards zero. */
  lemma MeanTruncates(s: seq<int>)
    requires s != [] && -MAX_INT64 - 1 <= Sum(s) <= MAX_INT64
    ensures var mean := MeanOf(s);
      if Sum(s) >= 0 then 0 <= mean && mean * |s| <= Sum(s) < (mean + 1) * |s|
      else mean <= 0 && (mean - 1) * |s| < Sum(s) <= mean * |s|
  {
    assert Wrap(Sum(s)) == Sum(s);
    DivBounds(if Sum(s) >= 0 then Sum(s) else -Sum(s), |s|);
  }

  lemma DivBounds(x: nat, n: nat)
    requires n > 0
    ensures 0 <= x / n && (x / n) * n <= x < (x / n + 1) * n
    ensures -(x / n) * n == -((x / n) * n) && (-(x / n) - 1) * n == -((x / n + 1) * n)
  {
    assert x == n * (x / n) + x % n;
  }

  /** When the sum does overflow, it need not: two entries of MaxInt64 have mean -1. */
  lemma MeanOverflows()
    ensures MeanOf([MAX_INT64, MAX_INT64]) == -1 < Least([MAX_INT64, MAX_INT64])
  {
    var s := [MAX_INT64, MAX_INT64];
    assert s[..1] == [MAX_INT64] && [MAX_INT64][..0] == [];
    assert Sum([MAX_INT64]) == MAX_INT64;
    assert Sum(s) == 2 * MAX_INT64;
    assert Wrap(Sum(s)) == -2;
  }

  /** For durations, which are not negative, the computed mean is the true one exactly if the sum does not overflow. */
  lemma MeanIsTrueIffNoOverflow(s: seq<int>)
    requires 0 < |s| <= MAX_INT64 && forall i :: 0 <= i < |s| ==> 0 <= s[i] <= MAX_INT64
    ensures MeanOf(s) == Sum(s) / |s| <==> Sum(s) <= MAX_INT64
  {
    SumInRange(s, 0, MAX_INT64);
    if Sum(s) > MAX_INT64 { OverflowIsFarOff(Sum(s), |s|); } else { NoOverflowIsExact(Sum(s), |s|); }
  }

  lemma NoOverflowIsExact(sum: int, n: nat)
    requires 0 <= sum <= MAX_INT64 && 0 < n <= MAX_INT64
    ensures TruncDiv(Wrap(sum), n) == sum / n
  {
    assert Wrap(sum) == sum;
  }

  lemma OverflowIsFarOff(sum: int, n: nat)
    requires sum > MAX_INT64 && 0 < n <= MAX_INT64
    ensures TruncDiv(Wrap(sum), n) != sum / n
  {
    assert Wrap(sum) <= sum - TWO_64;
    var q := sum / n;
    assert sum == n * q + sum % n;
    TruncDivBelow(Wrap(sum), n);
  }

  lemma TruncDivBelow(x: int, n: nat)
    requires n > 0
    ensures n * TruncDiv(x, n) - n <= x
  {
    if x >= 0 { assert x == n * (x / n) + x % n; } else { assert -x == n * (-x / n) + (-x) % n; }
  }
}
