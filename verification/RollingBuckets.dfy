/** faststats/rolling_bucket.go, one call at a time. The interleavings are the subject of RollingRace. */
module RollingWindows {
  import opened Base

  /** StartTime, BucketWidth and NumBuckets. */
  datatype Grid = Grid(start: int, width: int, n: int) {
    /** The settings describe a usable window. */
    predicate Live() { n > 0 && width > 0 }

    /** `t` falls into some bucket. */
    predicate Covers(t: int) { Live() && t >= start }

    /** The absolute index of t's bucket. */
    function Index(t: int): (i: nat)
      requires Covers(t)
      ensures i * width <= t - start < (i + 1) * width
    {
      IndexBounds(t - start, width);
      (t - start) / width
    }

    /** The slot that absolute index k lives in. */
    function Slot(k: int): (s: nat)
      requires n > 0
      ensures s < n
    {
      k % n
    }
  }

  lemma IndexBounds(d: int, w: int)
    requires d >= 0 && w > 0
    ensures d / w >= 0 && (d / w) * w <= d < (d / w + 1) * w
  {
    assert d == (d / w) * w + d % w;
  }

  /** Two indices less than n apart share no slot. */
  lemma SlotsDiffer(i: int, j: int, n: int)
    requires i < j < i + n
    ensures i % n != j % n
  {
    if i % n == j % n {
      assert i == n * (i / n) + i % n && j == n * (j / n) + j % n;
      assert j - i == n * (j / n - i / n);
      MultipleIsNotBetween(n, j / n - i / n);
      assert false;
    }
  }

  lemma MultipleIsNotBetween(n: int, q: int)
    requires n > 0
    ensures !(0 < n * q < n)
  {
    if q >= 1 { assert n * q >= n; } else { assert n * q <= 0; }
  }

  lemma SlotOfShift(k: int, n: int)
    requires n > 0
    ensures (k + n) % n == k % n && (k - n) % n == k % n
  {
    assert k == n * (k / n) + k % n;
    SameRemainder(k + n, n, k / n + 1, k % n);
    SameRemainder(k - n, n, k / n - 1, k % n);
  }

  lemma SameRemainder(k: int, n: int, q: int, r: int)
    requires n > 0 && 0 <= r < n && k == n * q + r
    ensures k % n == r
  {
    assert k == n * (k / n) + k % n;
    assert n * (q - k / n) == k % n - r;
    MultipleIsNotBetween(n, q - k / n);
    MultipleIsNotBetween(n, k / n - q);
    assert n * (k / n - q) == r - k % n;
  }

  /** Every index has a representative in the n indices after `last` that shares its slot. */
  lemma Representative(k: int, last: int, n: int) returns (i: int)
    requires n > 0 && k > last
    ensures last < i <= last + n && i <= k && i % n == k % n
    decreases k - last
  {
    if k <= last + n {
      i := k;
    } else {
      i := Representative(k - n, last, n);
      SlotOfShift(k, n);
    }
  }

  class RollingBuckets {
    const grid: Grid
    var lastAbsIndex: int

    constructor (grid: Grid)
      ensures this.grid == grid && lastAbsIndex == 0
    {
      this.grid, lastAbsIndex := grid, 0;
    }

    /** Clears what expires between the last index and absIndex, then publishes absIndex. */
    method RollForward<T>(absIndex: int, slots: array<T>, clear: T -> T) returns (left: int)
      requires grid.Live() && slots.Length == grid.n
      modifies this, slots
      ensures left == lastAbsIndex == Max(old(lastAbsIndex), absIndex)
      ensures forall j :: 0 <= j < slots.Length ==> slots[j] == old(slots[j]) || slots[j] == clear(old(slots[j]))
      ensures forall k :: old(lastAbsIndex) < k <= old(lastAbsIndex) + grid.n ==>
        slots[grid.Slot(k)] == if k <= absIndex then clear(old(slots[grid.Slot(k)])) else old(slots[grid.Slot(k)])
    {
      var last := lastAbsIndex;
      if absIndex <= last { return last; }
      var i := last + 1;
      while i <= absIndex && i <= last + grid.n
        invariant last < i <= Min(absIndex, last + grid.n) + 1
        invariant forall j :: 0 <= j < slots.Length ==> slots[j] == old(slots[j]) || slots[j] == clear(old(slots[j]))
        invariant forall k :: last < k <= last + grid.n ==>
          slots[grid.Slot(k)] == if k < i then clear(old(slots[grid.Slot(k)])) else old(slots[grid.Slot(k)])
      {
        forall k | last < k <= last + grid.n && k != i
          ensures grid.Slot(k) != grid.Slot(i)
        {
          SlotsDiffer(Min(k, i), Max(k, i), grid.n);
        }
        slots[grid.Slot(i)] := clear(slots[grid.Slot(i)]);
        i := i + 1;
      }
      lastAbsIndex := absIndex;
      left := absIndex;
    }

    /** Moves the window so that it includes `now`: afterwards each index in the window holds what it held before, or,
        if the window had not reached it yet, a cleared slot. Returns now's slot unless the window is past it. */
    method Advance<T>(now: int, slots: array<T>, clear: T -> T) returns (bucket: int)
      requires grid.n > 0 ==> slots.Length == grid.n
      modifies this, slots
      ensures !grid.Covers(now) ==> bucket == -1 && lastAbsIndex == old(lastAbsIndex) && slots[..] == old(slots[..])
      ensures forall j :: 0 <= j < slots.Length ==> slots[j] == old(slots[j]) || slots[j] == clear(old(slots[j]))
      ensures grid.Covers(now) ==>
        && lastAbsIndex == Max(old(lastAbsIndex), grid.Index(now))
        && bucket == (if lastAbsIndex - grid.Index(now) < grid.n then grid.Slot(grid.Index(now)) else -1)
        && (forall k :: lastAbsIndex - grid.n < k <= lastAbsIndex ==>
              slots[grid.Slot(k)] ==
                if k > old(lastAbsIndex) then clear(old(slots[grid.Slot(k)])) else old(slots[grid.Slot(k)]))
    {
      if grid.n <= 0 || grid.width <= 0 { return -1; }
      var diff := now - grid.start;
      if diff < 0 { return -1; }
      var absIndex := grid.Index(now);
      bucket := grid.Slot(absIndex);
      var behind := lastAbsIndex - absIndex;
      if behind >= 0 {
        if behind >= grid.n { return -1; }
        return;
      }
      ghost var last := lastAbsIndex;
      var left := RollForward(absIndex, slots, clear);
      forall k | lastAbsIndex - grid.n < k <= lastAbsIndex
        ensures slots[grid.Slot(k)] ==
          if k > last then clear(old(slots[grid.Slot(k)])) else old(slots[grid.Slot(k)])
      {
        if k > last {
          var i := Representative(k, last, grid.n);
          assert grid.Slot(i) == grid.Slot(k);
        } else {
          SlotOfShift(k, grid.n);
          assert grid.Slot(k + grid.n) == grid.Slot(k);
        }
      }
      if left - absIndex >= grid.n { return -1; }
    }
  }
}
