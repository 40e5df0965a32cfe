/** Sums of sequences, and what happens to them when the elements move. */
module Sums {
  function Sum(s: seq<int>): int {
    if s == [] then 0 else Sum(s[..|s| - 1]) + s[|s| - 1]
  }

  lemma {:induction false} SumOfConcat(s: seq<int>, t: seq<int>)
    ensures Sum(s + t) == Sum(s) + Sum(t)
    decreases |t|
  {
    if t == [] {
      assert s + t == s;
    } else {
      assert (s + t)[..|s + t| - 1] == s + t[..|t| - 1];
      SumOfConcat(s, t[..|t| - 1]);
    }
  }

  lemma {:induction false} SumOfUpdate(s: seq<int>, i: nat, x: int)
    requires i < |s|
    ensures Sum(s[i := x]) == Sum(s) - s[i] + x
  {
    var n := |s| - 1;
    if i == n {
      assert s[i := x][..n] == s[..n];
    } else {
      assert s[i := x][..n] == s[..n][i := x];
      SumOfUpdate(s[..n], i, x);
    }
  }

  lemma {:induction false} SumOfZeros(s: seq<int>)
    requires forall i :: 0 <= i < |s| ==> s[i] == 0
    ensures Sum(s) == 0
  {
    if s != [] { SumOfZeros(s[..|s| - 1]); }
  }

  lemma {:induction false} SumOfReverse(s: seq<int>, r: seq<int>)
    requires |s| == |r| && forall i :: 0 <= i < |s| ==> r[i] == s[|s| - 1 - i]
    ensures Sum(s) == Sum(r)
  {
    if s != [] {
      assert r == [s[|s| - 1]] + r[1..];
      SumOfConcat([s[|s| - 1]], r[1..]);
      assert Sum([s[|s| - 1]]) == s[|s| - 1];
      SumOfReverse(s[..|s| - 1], r[1..]);
    }
  }

  lemma SumOfRotation(s: seq<int>, k: nat)
    requires k <= |s|
    ensures Sum(s[k..] + s[..k]) == Sum(s)
  {
    SumOfConcat(s[k..], s[..k]);
    SumOfConcat(s[..k], s[k..]);
    assert s[..k] + s[k..] == s;
  }
}

/** faststats/rolling_counter.go against a plain log of its events. */
module RollingCounters {
  import opened Base
  import opened RollingWindows
  import opened Sums

  // ---- The specification ----

  /** How many of the logged events fall on absolute index k. */
  function CountAt(g: Grid, log: seq<int>, k: int): nat {
    if log == [] then 0
    else
      var t := log[|log| - 1];
      CountAt(g, log[..|log| - 1], k) + if g.Covers(t) && g.Index(t) == k then 1 else 0
  }

  /** How many fall on an index in (lo, hi]. */
  function CountIn(g: Grid, log: seq<int>, lo: int, hi: int): nat {
    if log == [] then 0
    else
      var t := log[|log| - 1];
      CountIn(g, log[..|log| - 1], lo, hi) + if g.Covers(t) && lo < g.Index(t) <= hi then 1 else 0
  }

  /** The largest bucket index among the timestamps that any call was given. */
  function Latest(g: Grid, asked: seq<int>): nat {
    if asked == [] then 0
    else
      var before := Latest(g, asked[..|asked| - 1]);
      var t := asked[|asked| - 1];
      if g.Covers(t) && g.Index(t) > before then g.Index(t) else before
  }

  /** The counts of the window that ends at `latest`, oldest first. */
  function Counts(g: Grid, log: seq<int>, latest: int): (r: seq<int>)
    requires g.n >= 0
    ensures |r| == g.n && forall i :: 0 <= i < g.n ==> r[i] == CountAt(g, log, latest - g.n + 1 + i)
  {
    seq(g.n, i => CountAt(g, log, latest - g.n + 1 + i))
  }

  lemma {:induction false} CountsAddUp(g: Grid, log: seq<int>, latest: int)
    requires g.n >= 0
    ensures Sum(Counts(g, log, latest)) == CountIn(g, log, latest - g.n, latest)
    decreases |log|
  {
    if log == [] {
      SumOfZeros(Counts(g, log, latest));
    } else {
      var front, t := log[..|log| - 1], log[|log| - 1];
      CountsAddUp(g, front, latest);
      if g.Covers(t) && latest - g.n < g.Index(t) <= latest {
        var i := g.Index(t) - (latest - g.n + 1);
        assert Counts(g, log, latest) == Counts(g, front, latest)[i := Counts(g, front, latest)[i] + 1];
        SumOfUpdate(Counts(g, front, latest), i, Counts(g, front, latest)[i] + 1);
      } else {
        assert Counts(g, log, latest) == Counts(g, front, latest);
      }
    }
  }

  /** What the counter shows of the window that ends at `latest`, newest first. */
  function Shown(g: Grid, log: seq<int>, latest: int): (r: seq<int>)
    requires g.n >= 0
    ensures |r| == g.n && forall i :: 0 <= i < g.n ==> r[i] == if g.Live() then CountAt(g, log, latest - i) else 0
  {
    seq(g.n, i => if g.Live() then CountAt(g, log, latest - i) else 0)
  }

  function ShownTotal(g: Grid, log: seq<int>, latest: int): nat {
    if g.Live() then CountIn(g, log, latest - g.n, latest) else 0
  }

  lemma ShownAddsUp(g: Grid, log: seq<int>, latest: int)
    requires g.n >= 0
    ensures Sum(Shown(g, log, latest)) == ShownTotal(g, log, latest)
  {
    if g.Live() {
      SumOfReverse(Counts(g, log, latest), Shown(g, log, latest));
      CountsAddUp(g, log, latest);
    } else {
      SumOfZeros(Shown(g, log, latest));
    }
  }

  lemma {:induction false} NothingAfterLatest(g: Grid, log: seq<int>, k: int)
    requires forall i :: 0 <= i < |log| && g.Covers(log[i]) ==> g.Index(log[i]) < k
    ensures CountAt(g, log, k) == 0
  {
    if log != [] { NothingAfterLatest(g, log[..|log| - 1], k); }
  }

  lemma CountAtOfAppend(g: Grid, log: seq<int>, t: int, k: int)
    ensures CountAt(g, log + [t], k) == CountAt(g, log, k) + if g.Covers(t) && g.Index(t) == k then 1 else 0
  {
    assert (log + [t])[..|log|] == log;
  }

  lemma LatestOfAppend(g: Grid, asked: seq<int>, t: int)
    ensures Latest(g, asked + [t]) == if g.Covers(t) then Max(Latest(g, asked), g.Index(t)) else Latest(g, asked)
  {
    assert (asked + [t])[..|asked|] == asked;
  }

  /** One more event adds one to its own index and nothing to the others of the window, which live in other slots. */
  lemma IncMeansOneMore(g: Grid, log: seq<int>, t: int, last: int)
    ensures forall k :: CountAt(g, log + [t], k) == CountAt(g, log, k) + if g.Covers(t) && g.Index(t) == k then 1 else 0
    ensures g.Covers(t) && g.Index(t) <= last && last - g.Index(t) < g.n ==>
      forall k :: last - g.n < k <= last && k != g.Index(t) ==> g.Slot(k) != g.Slot(g.Index(t))
  {
    forall k
      ensures CountAt(g, log + [t], k) == CountAt(g, log, k) + if g.Covers(t) && g.Index(t) == k then 1 else 0
    {
      CountAtOfAppend(g, log, t, k);
    }
    if g.Covers(t) && g.Index(t) <= last && last - g.Index(t) < g.n {
      forall k | last - g.n < k <= last && k != g.Index(t)
        ensures g.Slot(k) != g.Slot(g.Index(t))
      {
        SlotsDiffer(Min(k, g.Index(t)), Max(k, g.Index(t)), g.n);
      }
    }
  }

  /** Each index of the window that ends at `last` has its count in its slot. */
  ghost predicate Holds(g: Grid, log: seq<int>, last: int, slots: seq<int>) {
    && g.n > 0 && |slots| == g.n
    && forall k :: last - g.n < k <= last ==> slots[g.Slot(k)] == CountAt(g, log, k)
  }

  /** Taking the window from `last` to `latest`. */
  lemma AdvancedSlots(g: Grid, log: seq<int>, last: int, latest: int, was: seq<int>, slots: seq<int>)
    requires Holds(g, log, last, was) && |slots| == g.n && last <= latest
    requires forall i :: 0 <= i < |log| && g.Covers(log[i]) ==> g.Index(log[i]) <= last
    requires forall k :: latest - g.n < k <= latest ==> slots[g.Slot(k)] == if k > last then 0 else was[g.Slot(k)]
    ensures Holds(g, log, latest, slots)
  {
    forall k | latest - g.n < k <= latest
      ensures slots[g.Slot(k)] == CountAt(g, log, k)
    {
      if k > last { NothingAfterLatest(g, log, k); }
    }
  }

  /** One more event in its slot, unless the window is past it or it is before the start. */
  lemma IncrementedSlots(g: Grid, log: seq<int>, t: int, last: int, slots: seq<int>)
    requires Holds(g, log, last, slots) && (g.Covers(t) ==> g.Index(t) <= last)
    ensures
      var j := if g.Covers(t) then g.Slot(g.Index(t)) else 0;
      Holds(g, log + [t], last, if g.Covers(t) && last - g.Index(t) < g.n then slots[j := slots[j] + 1] else slots)
  {
    IncMeansOneMore(g, log, t, last);
  }

  // ---- The counter ----

  class RollingCounter {
    const buckets: array<int>
    var totalSum: int
    const rollingBucket: RollingBuckets
    ghost var log: seq<int>     // the timestamps of the Incs since the last Reset
    ghost var asked: seq<int>   // the timestamps of all calls

    ghost const Repr: set<object> := {this, buckets, rollingBucket}

    ghost predicate Valid()
      reads this, buckets, rollingBucket
    {
      var g := rollingBucket.grid;
      var last := rollingBucket.lastAbsIndex;
      && buckets.Length == Max(0, g.n)
      && last == Latest(g, asked)
      && (forall i :: 0 <= i < |log| && g.Covers(log[i]) ==> g.Index(log[i]) <= last)
      && (if g.Live() then Holds(g, log, last, buckets[..])
          else forall j :: 0 <= j < buckets.Length ==> buckets[j] == 0)
    }

    constructor (width: int, n: nat, now: int)
      ensures Valid() && rollingBucket.grid == Grid(now, width, n) && log == [] && asked == [] && totalSum == 0
      ensures fresh(Repr)
    {
      buckets := new int[n](_ => 0);
      rollingBucket := new RollingBuckets(Grid(now, width, n));
      totalSum, log, asked := 0, [], [];
    }

    /** Advance with clearBucket, and what that means for the window. */
    method Advance(now: int) returns (bucket: int)
      requires Valid()
      modifies this`asked, buckets, rollingBucket
      ensures Valid() && asked == old(asked) + [now]
      ensures rollingBucket.lastAbsIndex >= old(rollingBucket.lastAbsIndex)
      ensures var g := rollingBucket.grid;
        && (g.Covers(now) ==> rollingBucket.lastAbsIndex >= g.Index(now))
        && bucket == (if g.Covers(now) && rollingBucket.lastAbsIndex - g.Index(now) < g.n then g.Slot(g.Index(now))
                      else -1)
    {
      var g := rollingBucket.grid;
      ghost var last := rollingBucket.lastAbsIndex;
      ghost var was := buckets[..];
      bucket := rollingBucket.Advance(now, buckets, (_: int) => 0);
      asked := asked + [now];
      LatestOfAppend(g, old(asked), now);
      if g.Covers(now) {
        AdvancedSlots(g, log, last, rollingBucket.lastAbsIndex, was, buckets[..]);
      } else {
        assert forall j :: 0 <= j < buckets.Length ==> buckets[j] == was[j];
      }
    }

    method Inc(now: int)
      requires Valid()
      modifies this, buckets, rollingBucket
      ensures Valid() && log == old(log) + [now] && asked == old(asked) + [now] && totalSum == old(totalSum) + 1
    {
      totalSum := totalSum + 1;
      if buckets.Length == 0 {
        LatestOfAppend(rollingBucket.grid, asked, now);
        asked, log := asked + [now], log + [now];
        return;
      }
      var idx := Advance(now);
      ghost var was := buckets[..];
      if rollingBucket.grid.Live() { IncrementedSlots(rollingBucket.grid, log, now, rollingBucket.lastAbsIndex, was); }
      log := log + [now];
      if idx >= 0 {
        buckets[idx] := buckets[idx] + 1;
        assert buckets[..] == was[idx := was[idx] + 1];
      }
    }

    method SumBuckets() returns (ret: int)
      ensures ret == Sum(buckets[..])
    {
      ret := 0;
      for i := 0 to buckets.Length
        invariant ret == Sum(buckets[..i])
      {
        assert buckets[..i + 1][..i] == buckets[..i];
        ret := ret + buckets[i];
      }
      assert buckets[..] == buckets[..buckets.Length];
    }

    /** The slots, read from the oldest index of the window to the newest, are its counts. */
    lemma SlotsAreCounts()
      requires Valid() && rollingBucket.grid.Live()
      ensures var g := rollingBucket.grid; var r := g.Slot(rollingBucket.lastAbsIndex + 1);
        buckets[r..] + buckets[..r] == Counts(g, log, rollingBucket.lastAbsIndex)
    {
      var g := rollingBucket.grid;
      var last := rollingBucket.lastAbsIndex;
      var r := g.Slot(last + 1);
      var window := buckets[r..] + buckets[..r];
      forall i | 0 <= i < g.n
        ensures window[i] == CountAt(g, log, last - g.n + 1 + i)
      {
        SlotOfShift(last + 1, g.n);
        SlotOfStep(last - g.n + 1, i, g.n);
        assert window[i] == buckets[g.Slot(last - g.n + 1 + i)];
      }
    }

    method RollingSumAt(now: int) returns (ret: int)
      requires Valid()
      modifies this`asked, buckets, rollingBucket
      ensures Valid() && log == old(log) && asked == old(asked) + [now] && totalSum == old(totalSum)
      ensures ret == ShownTotal(rollingBucket.grid, log, Latest(rollingBucket.grid, asked))
    {
      var _ := Advance(now);
      ret := SumBuckets();
      if rollingBucket.grid.Live() {
        SlotsAreCounts();
        SumOfRotation(buckets[..], rollingBucket.grid.Slot(rollingBucket.lastAbsIndex + 1));
        CountsAddUp(rollingBucket.grid, log, rollingBucket.lastAbsIndex);
      } else {
        SumOfZeros(buckets[..]);
      }
    }

    method GetBuckets(now: int) returns (ret: seq<int>)
      requires Valid()
      modifies this`asked, buckets, rollingBucket
      ensures Valid() && log == old(log) && totalSum == old(totalSum)
      ensures var g := rollingBucket.grid;
        && asked == (if g.n <= 0 then old(asked) else old(asked) + [now])
        && ret == (if g.n <= 0 then [] else Shown(g, log, Latest(g, asked)))
        && Sum(ret) == ShownTotal(g, log, Latest(g, asked))
    {
      var g := rollingBucket.grid;
      if g.n <= 0 || buckets.Length == 0 { return []; }
      var _ := Advance(now);
      ret := CopyBackwards();
      ShownAddsUp(g, log, Latest(g, asked));
    }

    /** The loop of GetBuckets, from the newest index backwards. */
    method CopyBackwards() returns (ret: seq<int>)
      requires Valid() && rollingBucket.grid.n > 0
      ensures ret == Shown(rollingBucket.grid, log, rollingBucket.lastAbsIndex)
    {
      var g := rollingBucket.grid;
      var last := rollingBucket.lastAbsIndex;
      var startIdx := last % g.n;
      ret := [];
      for i := 0 to g.n
        invariant |ret| == i && forall j :: 0 <= j < i ==> ret[j] == buckets[g.Slot(last - j)]
      {
        var idx := startIdx - i;
        if idx < 0 { idx := idx + g.n; }
        SlotBefore(last, i, g.n);
        ret := ret + [buckets[idx]];
      }
    }

    method Reset(now: int)
      requires Valid()
      modifies this, buckets, rollingBucket
      ensures Valid() && log == [] && asked == old(asked) + [now] && totalSum == old(totalSum)
    {
      var _ := Advance(now);
      for i := 0 to buckets.Length
        modifies buckets
        invariant forall j :: 0 <= j < i ==> buckets[j] == 0
      {
        buckets[i] := 0;
      }
      log := [];
    }
  }

  lemma SlotOfStep(k: int, i: nat, n: int)
    requires n > 0 && i < n
    ensures (k + i) % n == if k % n + i < n then k % n + i else k % n + i - n
  {
    assert k == n * (k / n) + k % n;
    if k % n + i < n {
      SameRemainder(k + i, n, k / n, k % n + i);
    } else {
      SameRemainder(k + i, n, k / n + 1, k % n + i - n);
    }
  }

  lemma SlotBefore(k: int, i: nat, n: int)
    requires n > 0 && i < n
    ensures (k - i) % n == if k % n - i < 0 then k % n - i + n else k % n - i
  {
    SlotOfStep(k - i, i, n);
  }
}
