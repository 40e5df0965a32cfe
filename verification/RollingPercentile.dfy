/** durationsBucket of faststats/rolling_percentile.go: a ring of encoded durations. */
module DurationsBuckets {
  import opened Base
  import opened RollingWindows
  import Percentiles

  const UNSET := 0

  function Clamp(d: int): int { Max(d, 0) }

  function Encode(d: int): int { Percentiles.Wrap(Clamp(d) + 1) }

  function Decode(v: int): int { Percentiles.Wrap(v - 1) }

  /** A time.Duration. */
  predicate IsDuration(d: int) { -Percentiles.MAX_INT64 - 1 <= d <= Percentiles.MAX_INT64 }

  /** Encoding never yields the unset mark, and decoding gives back the clamped duration, also at MaxInt64. */
  lemma EncodingIsLossless(d: int)
    requires IsDuration(d)
    ensures Encode(d) != UNSET && Decode(Encode(d)) == Clamp(d)
  {}

  /** The encoding is a bijection: every set slot value that decodes to a non-negative duration encodes it. */
  lemma DecodingIsLossless(v: int)
    requires IsDuration(v) && v != UNSET && Decode(v) >= 0
    ensures Encode(Decode(v)) == v
  {}

  /** The struct: its slots, and currentIndex. */
  datatype Bucket = Bucket(slots: seq<int>, used: nat)

  function Fresh(size: nat): Bucket { Bucket(seq(size, _ => UNSET), 0) }

  /** The slots that hold something. */
  function Size(b: Bucket): nat { Min(b.used, |b.slots|) }

  function Add(b: Bucket, d: int): Bucket {
    if b.slots == [] then b else Bucket(b.slots[b.used % |b.slots| := Encode(d)], b.used + 1)
  }

  /** clear: unset the used prefix, then reset the index. */
  function Cleared(b: Bucket): Bucket {
    Bucket(seq(|b.slots|, i requires 0 <= i < |b.slots| => if i < Size(b) then UNSET else b.slots[i]), 0)
  }

  /** What appendDurations appends. */
  function Durations(slots: seq<int>): seq<int> {
    if slots == [] then []
    else Durations(slots[..|slots| - 1]) + if slots[|slots| - 1] == UNSET then [] else [Decode(slots[|slots| - 1])]
  }

  function Contents(b: Bucket): seq<int> { Durations(b.slots[..Size(b)]) }

  // ---- What a bucket stands for ----

  function Last(ds: seq<int>, size: nat): seq<int> { ds[|ds| - Min(size, |ds|)..] }

  function ClampAll(ds: seq<int>): (r: seq<int>)
    ensures |r| == |ds| && forall i :: 0 <= i < |ds| ==> r[i] == Clamp(ds[i])
  {
    seq(|ds|, i requires 0 <= i < |ds| => Clamp(ds[i]))
  }

  /** Slots at or beyond currentIndex are unset. */
  ghost predicate WellFormed(b: Bucket, size: nat) {
    |b.slots| == size && forall i :: b.used <= i < size ==> b.slots[i] == UNSET
  }

  /** The bucket has been given the durations `ds`, in this order, since it was last cleared. */
  ghost predicate Holds(b: Bucket, size: nat, ds: seq<int>) {
    && WellFormed(b, size)
    && (size > 0 ==> b.used == |ds|) && (size == 0 ==> b.used == 0)
    && (forall d :: d in ds ==> IsDuration(d))
    && (size > 0 ==> forall k :: |ds| - Min(size, |ds|) <= k < |ds| ==> b.slots[k % size] == Encode(ds[k]))
  }

  lemma AddKeepsWellFormed(b: Bucket, size: nat, d: int)
    requires WellFormed(b, size)
    ensures WellFormed(Add(b, d), size)
  {
    if 0 < size && b.used < size { assert b.used % size == b.used; }
  }

  /** The k-th duration is still in its slot when the next one is stored. */
  lemma AddKeepsSlot(b: Bucket, size: nat, k: nat, d: int)
    requires |b.slots| == size && k < b.used < k + size
    ensures Add(b, d).slots[k % size] == b.slots[k % size]
  {
    SlotsDiffer(k, b.used, size);
  }

  lemma AddHolds(b: Bucket, size: nat, ds: seq<int>, d: int)
    requires Holds(b, size, ds) && IsDuration(d)
    ensures Holds(Add(b, d), size, ds + [d])
  {
    AddKeepsWellFormed(b, size, d);
    if size > 0 {
      var all := ds + [d];
      forall k | |all| - Min(size, |all|) <= k < |all|
        ensures Add(b, d).slots[k % size] == Encode(all[k])
      {
        if k < |ds| { AddKeepsSlot(b, size, k, d); }
      }
    }
  }

  /** Clearing the used prefix empties the whole bucket. */
  lemma ClearedIsFresh(b: Bucket, size: nat)
    requires WellFormed(b, size)
    ensures Cleared(b) == Fresh(size) && Holds(Cleared(b), size, [])
  {
    forall i | 0 <= i < size
      ensures Cleared(b).slots[i] == Fresh(size).slots[i]
    {
      assert i < Size(b) || b.slots[i] == UNSET;
    }
  }

  lemma {:induction false} DurationsOfSet(slots: seq<int>, ds: seq<int>)
    requires |slots| == |ds| && forall i :: 0 <= i < |ds| ==> IsDuration(ds[i]) && slots[i] == Encode(ds[i])
    ensures Durations(slots) == ClampAll(ds)
  {
    if slots != [] {
      var n := |slots| - 1;
      EncodingIsLossless(ds[n]);
      DurationsOfSet(slots[..n], ds[..n]);
      assert ClampAll(ds) == ClampAll(ds[..n]) + [Clamp(ds[n])];
    }
  }

  lemma RingPosition(n: nat, size: nat, i: nat)
    requires size > 0 && i < size <= n
    ensures var r := n % size; var k := if i < r then n - r + i else n - r - size + i; k % size == i
  {
    var q := n / size;
    assert n == size * q + n % size;
    assert q >= 1;
    var r := n % size;
    if i < r {
      SameRemainder(n - r + i, size, q, i);
    } else {
      SameRemainder(n - r - size + i, size, q - 1, i);
    }
  }

  lemma RotationKeepsElements(s: seq<int>, k: nat)
    requires k <= |s|
    ensures multiset(ClampAll(s[k..] + s[..k])) == multiset(ClampAll(s))
  {
    assert ClampAll(s[k..] + s[..k]) == ClampAll(s[k..]) + ClampAll(s[..k]);
    assert ClampAll(s) == ClampAll(s[..k]) + ClampAll(s[k..]);
  }

  /** A bucket that has not gone round yet holds its durations from the first slot on. */
  lemma SlotsInOrder(b: Bucket, size: nat, ds: seq<int>, k: nat)
    requires Holds(b, size, ds) && k < |ds| <= size
    ensures b.slots[k] == Encode(ds[k]) && IsDuration(ds[k])
  {
    assert k % size == k;
  }

  lemma PartlyFilled(b: Bucket, size: nat, ds: seq<int>)
    requires Holds(b, size, ds) && 0 < size && |ds| <= size
    ensures Contents(b) == ClampAll(Last(ds, size))
  {
    var used := b.slots[..Size(b)];
    forall k | 0 <= k < |ds|
      ensures used[k] == Encode(ds[k]) && IsDuration(ds[k])
    {
      SlotsInOrder(b, size, ds, k);
    }
    DurationsOfSet(used, ds);
    assert Last(ds, size) == ds;
  }

  /** The last durations in the order of their slots, for a bucket that has gone round and stopped before slot r. */
  function Ring(ds: seq<int>, size: nat, r: nat): (s: seq<int>)
    requires r <= size <= |ds|
    ensures |s| == size && forall i :: 0 <= i < size ==> s[i] == ds[if i < r then |ds| - r + i else |ds| - r - size + i]
  {
    var last := Last(ds, size);
    last[size - r..] + last[..size - r]
  }

  lemma GoneRound(b: Bucket, size: nat, ds: seq<int>)
    requires Holds(b, size, ds) && 0 < size < |ds|
    ensures Contents(b) == ClampAll(Ring(ds, size, |ds| % size))
  {
    var ring := Ring(ds, size, |ds| % size);
    forall i | 0 <= i < size
      ensures b.slots[i] == Encode(ring[i]) && IsDuration(ring[i])
    {
      RingPosition(|ds|, size, i);
      var k := if i < |ds| % size then |ds| - |ds| % size + i else |ds| - |ds| % size - size + i;
      assert ring[i] == ds[k] && k % size == i;
    }
    assert b.slots[..Size(b)] == b.slots;
    DurationsOfSet(b.slots, ring);
  }

  lemma EmptyContents(b: Bucket, ds: seq<int>)
    requires Holds(b, 0, ds)
    ensures Contents(b) == ClampAll(Last(ds, 0))
  {
    assert b.slots[..Size(b)] == [];
  }

  lemma RingIsTheLast(ds: seq<int>, size: nat, r: nat)
    requires r <= size <= |ds|
    ensures multiset(ClampAll(Ring(ds, size, r))) == multiset(ClampAll(Last(ds, size)))
  {
    RotationKeepsElements(Last(ds, size), size - r);
  }

  /** The stored durations are, in some order, the last `size` that were added, clamped. */
  lemma ContentsAreTheLast(b: Bucket, size: nat, ds: seq<int>)
    requires Holds(b, size, ds)
    ensures multiset(Contents(b)) == multiset(ClampAll(Last(ds, size)))
  {
    if size == 0 {
      EmptyContents(b, ds);
    } else if |ds| <= size {
      PartlyFilled(b, size, ds);
    } else {
      GoneRound(b, size, ds);
      RingIsTheLast(ds, size, |ds| % size);
    }
  }

  /** The struct in place. */
  class DurationsBucket {
    const durationsSomeInvalid: array<int>
    var currentIndex: nat
    ghost var added: seq<int>   // since the last clear

    function Value(): Bucket
      reads this, durationsSomeInvalid
    {
      Bucket(durationsSomeInvalid[..], currentIndex)
    }

    ghost predicate Valid()
      reads this, durationsSomeInvalid
    {
      Holds(Value(), durationsSomeInvalid.Length, added)
    }

    constructor (size: nat)
      ensures Valid() && added == [] && durationsSomeInvalid.Length == size && fresh(durationsSomeInvalid)
    {
      durationsSomeInvalid := new int[size](_ => UNSET);
      currentIndex, added := 0, [];
    }

    method AppendDurations(ret: seq<int>) returns (all: seq<int>)
      requires Valid()
      ensures all == ret + Contents(Value())
    {
      var maxIndex := Min(currentIndex, durationsSomeInvalid.Length);
      all := ret;
      for i := 0 to maxIndex
        invariant all == ret + Durations(durationsSomeInvalid[..i])
      {
        assert durationsSomeInvalid[..i + 1][..i] == durationsSomeInvalid[..i];
        if durationsSomeInvalid[i] != UNSET {
          all := all + [Decode(durationsSomeInvalid[i])];
        }
      }
      assert Value().slots[..maxIndex] == durationsSomeInvalid[..maxIndex];
    }

    method Clear()
      requires Valid()
      modifies this, durationsSomeInvalid
      ensures Valid() && added == [] && Value() == Cleared(old(Value())) == Fresh(durationsSomeInvalid.Length)
    {
      var used := Min(currentIndex, durationsSomeInvalid.Length);
      ClearedIsFresh(Value(), durationsSomeInvalid.Length);
      for i := 0 to used
        modifies durationsSomeInvalid
        invariant forall j :: 0 <= j < durationsSomeInvalid.Length ==>
          durationsSomeInvalid[j] == if j < i then UNSET else old(durationsSomeInvalid[j])
      {
        durationsSomeInvalid[i] := UNSET;
      }
      currentIndex, added := 0, [];
    }

    method AddDuration(d: int)
      requires Valid() && IsDuration(d)
      modifies this, durationsSomeInvalid
      ensures Valid() && added == old(added) + [d] && Value() == Add(old(Value()), d)
    {
      AddHolds(Value(), durationsSomeInvalid.Length, added, d);
      added := added + [d];
      if durationsSomeInvalid.Length == 0 { return; }
      currentIndex := currentIndex + 1;
      var nextIndex := currentIndex - 1;
      durationsSomeInvalid[nextIndex % durationsSomeInvalid.Length] := Encode(d);
      assert durationsSomeInvalid[..] ==
        old(durationsSomeInvalid[..])[nextIndex % durationsSomeInvalid.Length := Encode(d)];
    }
  }
}

/** Unions of bags, and what happens to them when the bags move. */
module Bags {
  function Union(bags: seq<multiset<int>>): multiset<int> {
    if bags == [] then multiset{} else Union(bags[..|bags| - 1]) + bags[|bags| - 1]
  }

  lemma {:induction false} UnionOfConcat(s: seq<multiset<int>>, t: seq<multiset<int>>)
    ensures Union(s + t) == Union(s) + Union(t)
    decreases |t|
  {
    if t == [] {
      assert s + t == s;
    } else {
      assert (s + t)[..|s + t| - 1] == s + t[..|t| - 1];
      UnionOfConcat(s, t[..|t| - 1]);
    }
  }

  lemma UnionOfRotation(s: seq<multiset<int>>, k: nat)
    requires k <= |s|
    ensures Union(s[k..] + s[..k]) == Union(s)
  {
    UnionOfConcat(s[k..], s[..k]);
    UnionOfConcat(s[..k], s[k..]);
    assert s[..k] + s[k..] == s;
  }

  lemma {:induction false} UnionOfNothing(s: seq<multiset<int>>)
    requires forall i :: 0 <= i < |s| ==> s[i] == multiset{}
    ensures Union(s) == multiset{}
  {
    if s != [] { UnionOfNothing(s[..|s| - 1]); }
  }
}

/** RollingPercentile itself against a plain log of what it was given. */
module RollingPercentiles {
  import opened Base
  import opened RollingWindows
  import opened DurationsBuckets
  import opened Bags
  import RollingCounters
  import Percentiles

  /** A duration and when it was added. */
  datatype Sample = Sample(d: int, at: int)

  /** The logged durations whose timestamp falls on absolute index k, in order. */
  function SamplesAt(g: Grid, log: seq<Sample>, k: int): seq<int> {
    if log == [] then []
    else
      var last := log[|log| - 1];
      SamplesAt(g, log[..|log| - 1], k) + if g.Covers(last.at) && g.Index(last.at) == k then [last.d] else []
  }

  /** What a snapshot shows of index k: the last `size` of its durations, negative ones as 0. */
  function ShownAt(g: Grid, log: seq<Sample>, size: nat, k: int): seq<int> {
    ClampAll(Last(SamplesAt(g, log, k), size))
  }

  /** The values of f at the indices of the window that ends at `last`, oldest first. */
  function Window<T>(g: Grid, last: int, f: int -> T): seq<T>
    requires g.n >= 0
  {
    seq(g.n, i => f(last - g.n + 1 + i))
  }

  function Shown(g: Grid, log: seq<Sample>, size: nat): int -> multiset<int> {
    k => multiset(ShownAt(g, log, size, k))
  }

  /** What a snapshot shows of each index in the window that ends at `last`. */
  function ShownWindow(g: Grid, log: seq<Sample>, size: nat, last: int): seq<multiset<int>>
    requires g.n >= 0
  {
    Window(g, last, Shown(g, log, size))
  }

  lemma SamplesAtOfAppend(g: Grid, log: seq<Sample>, s: Sample, k: int)
    ensures SamplesAt(g, log + [s], k) ==
      SamplesAt(g, log, k) + if g.Covers(s.at) && g.Index(s.at) == k then [s.d] else []
  {
    assert (log + [s])[..|log|] == log;
  }

  lemma {:induction false} NoSamplesAfter(g: Grid, log: seq<Sample>, k: int)
    requires forall i :: 0 <= i < |log| && g.Covers(log[i].at) ==> g.Index(log[i].at) < k
    ensures SamplesAt(g, log, k) == []
  {
    if log != [] { NoSamplesAfter(g, log[..|log| - 1], k); }
  }

  /** The stored durations of each bucket, without their order. */
  function Stored(buckets: seq<Bucket>): (r: seq<multiset<int>>)
    ensures |r| == |buckets| && forall j :: 0 <= j < |r| ==> r[j] == multiset(Contents(buckets[j]))
  {
    seq(|buckets|, j requires 0 <= j < |buckets| => multiset(Contents(buckets[j])))
  }

  /** The stored durations of a run of buckets. */
  function AllContents(buckets: seq<Bucket>): seq<int> {
    if buckets == [] then [] else AllContents(buckets[..|buckets| - 1]) + Contents(buckets[|buckets| - 1])
  }

  lemma {:induction false} AllContentsAreStored(buckets: seq<Bucket>)
    ensures multiset(AllContents(buckets)) == Union(Stored(buckets))
  {
    if buckets != [] {
      var n := |buckets| - 1;
      AllContentsAreStored(buckets[..n]);
      assert Stored(buckets)[..n] == Stored(buckets[..n]);
    }
  }

  /** The i-th index of the window lives in the i-th slot, counted from the slot after the newest one. */
  lemma SlotInRotation<T>(g: Grid, last: int, slots: seq<T>, i: nat)
    requires g.n > 0 && |slots| == g.n && i < g.n
    ensures var r := g.Slot(last + 1); (slots[r..] + slots[..r])[i] == slots[g.Slot(last - g.n + 1 + i)]
  {
    SlotOfShift(last + 1, g.n);
    RollingCounters.SlotOfStep(last - g.n + 1, i, g.n);
  }

  /** Slots that follow an index function, read from the oldest index of the window to the newest. */
  lemma RotatedSlots<T>(g: Grid, last: int, slots: seq<T>, f: int -> T)
    requires g.n > 0 && |slots| == g.n
    requires forall k {:trigger f(k)} :: last - g.n < k <= last ==> slots[g.Slot(k)] == f(k)
    ensures var r := g.Slot(last + 1); slots[r..] + slots[..r] == Window(g, last, f)
  {
    var r := g.Slot(last + 1);
    var window := slots[r..] + slots[..r];
    forall i | 0 <= i < g.n
      ensures window[i] == Window(g, last, f)[i]
    {
      SlotInRotation(g, last, slots, i);
    }
  }

  lemma WindowAddsUp(g: Grid, last: int, bags: seq<multiset<int>>, f: int -> multiset<int>)
    requires g.n > 0 && |bags| == g.n
    requires forall k {:trigger f(k)} :: last - g.n < k <= last ==> bags[g.Slot(k)] == f(k)
    ensures Union(bags) == Union(Window(g, last, f))
  {
    RotatedSlots(g, last, bags, f);
    UnionOfRotation(bags, g.Slot(last + 1));
  }

  /** Inserts into an ascending list. */
  function Insert(s: seq<int>, x: int): (r: seq<int>)
    requires Percentiles.Ascending(s)
    ensures Percentiles.Ascending(r) && multiset(r) == multiset(s) + multiset{x}
  {
    if s == [] || s[|s| - 1] <= x then s + [x]
    else
      var front, top := s[..|s| - 1], s[|s| - 1];
      assert s == front + [top];
      var r := Insert(front, x);
      SameElementsSameBound(r, front + [x], top);
      r + [top]
  }

  lemma SameElementsSameBound(r: seq<int>, s: seq<int>, top: int)
    requires multiset(r) == multiset(s) && forall i :: 0 <= i < |s| ==> s[i] <= top
    ensures forall i :: 0 <= i < |r| ==> r[i] <= top
  {
    forall i | 0 <= i < |r|
      ensures r[i] <= top
    {
      assert r[i] in multiset(r);
      assert r[i] in s;
    }
  }

  /** slices.Sort. */
  function Sorted(s: seq<int>): (r: seq<int>)
    ensures Percentiles.Ascending(r) && multiset(r) == multiset(s)
  {
    if s == [] then []
    else
      assert s == s[..|s| - 1] + [s[|s| - 1]];
      Insert(Sorted(s[..|s| - 1]), s[|s| - 1])
  }

  lemma AddMeansOneMore(g: Grid, log: seq<Sample>, s: Sample, last: int)
    ensures forall k ::
      SamplesAt(g, log + [s], k) == SamplesAt(g, log, k) + (if g.Covers(s.at) && g.Index(s.at) == k then [s.d] else [])
    ensures g.Covers(s.at) && g.Index(s.at) <= last && last - g.Index(s.at) < g.n ==>
      forall k :: last - g.n < k <= last && k != g.Index(s.at) ==> g.Slot(k) != g.Slot(g.Index(s.at))
  {
    forall k
      ensures SamplesAt(g, log + [s], k) ==
        SamplesAt(g, log, k) + if g.Covers(s.at) && g.Index(s.at) == k then [s.d] else []
    {
      SamplesAtOfAppend(g, log, s, k);
    }
    RollingCounters.IncMeansOneMore(g, [], s.at, last);
  }

  /** Each index of the window that ends at `last` has its durations in its slot, and no bucket is malformed. */
  ghost predicate Bucketed(g: Grid, log: seq<Sample>, size: nat, last: int, buckets: seq<Bucket>) {
    && g.n > 0 && |buckets| == g.n
    && (forall j :: 0 <= j < |buckets| ==> WellFormed(buckets[j], size))
    && (forall k :: last - g.n < k <= last ==> Holds(buckets[g.Slot(k)], size, SamplesAt(g, log, k)))
  }

  /** Taking the window from `last` to `latest`. */
  lemma AdvancedBuckets(g: Grid, log: seq<Sample>, size: nat, last: int, latest: int,
                        was: seq<Bucket>, buckets: seq<Bucket>)
    requires Bucketed(g, log, size, last, was) && |buckets| == g.n && last <= latest
    requires forall i :: 0 <= i < |log| && g.Covers(log[i].at) ==> g.Index(log[i].at) <= last
    requires forall j :: 0 <= j < g.n ==> buckets[j] == was[j] || buckets[j] == Cleared(was[j])
    requires forall k :: latest - g.n < k <= latest ==>
      buckets[g.Slot(k)] == if k > last then Cleared(was[g.Slot(k)]) else was[g.Slot(k)]
    ensures Bucketed(g, log, size, latest, buckets)
  {
    forall k | latest - g.n < k <= latest
      ensures Holds(buckets[g.Slot(k)], size, SamplesAt(g, log, k))
    {
      if k > last {
        NoSamplesAfter(g, log, k);
        ClearedIsFresh(was[g.Slot(k)], size);
      }
    }
    forall j | 0 <= j < g.n
      ensures WellFormed(buckets[j], size)
    {
      ClearedIsFresh(was[j], size);
    }
  }

  /** One more duration in its bucket, unless the window is past it or it is before the start. */
  lemma AddedBucket(g: Grid, log: seq<Sample>, s: Sample, size: nat, last: int, buckets: seq<Bucket>)
    requires Bucketed(g, log, size, last, buckets) && IsDuration(s.d) && (g.Covers(s.at) ==> g.Index(s.at) <= last)
    ensures
      var j := if g.Covers(s.at) then g.Slot(g.Index(s.at)) else 0;
      Bucketed(g, log + [s], size, last,
               if g.Covers(s.at) && last - g.Index(s.at) < g.n then buckets[j := Add(buckets[j], s.d)] else buckets)
  {
    AddMeansOneMore(g, log, s, last);
    if g.Covers(s.at) && last - g.Index(s.at) < g.n {
      var k := g.Index(s.at);
      assert Holds(buckets[g.Slot(k)], size, SamplesAt(g, log, k));
      AddHolds(buckets[g.Slot(k)], size, SamplesAt(g, log, k), s.d);
    }
  }

  class RollingPercentile {
    const buckets: array<Bucket>
    const bucketSize: nat
    const rollingBucket: RollingBuckets
    ghost var log: seq<Sample>  // what was added since the last Reset
    ghost var asked: seq<int>   // the timestamps of all calls

    ghost predicate Valid()
      reads this, buckets, rollingBucket
    {
      var g := rollingBucket.grid;
      var last := rollingBucket.lastAbsIndex;
      && buckets.Length == Max(0, g.n)
      && last == RollingCounters.Latest(g, asked)
      && (forall i :: 0 <= i < |log| && g.Covers(log[i].at) ==> g.Index(log[i].at) <= last)
      && (if g.Live() then Bucketed(g, log, bucketSize, last, buckets[..])
          else forall j :: 0 <= j < buckets.Length ==> WellFormed(buckets[j], bucketSize) && buckets[j].used == 0)
    }

    constructor (width: int, n: nat, size: nat, now: int)
      ensures Valid() && rollingBucket.grid == Grid(now, width, n) && bucketSize == size && log == [] && asked == []
      ensures fresh(buckets) && fresh(rollingBucket)
    {
      buckets := new Bucket[n](_ => DurationsBuckets.Fresh(size));
      bucketSize := size;
      rollingBucket := new RollingBuckets(Grid(now, width, n));
      log, asked := [], [];
    }

    method Advance(now: int) returns (bucket: int)
      requires Valid()
      modifies this`asked, buckets, rollingBucket
      ensures Valid() && asked == old(asked) + [now]
      ensures var g := rollingBucket.grid;
        && (g.Covers(now) ==> rollingBucket.lastAbsIndex >= g.Index(now))
        && bucket == (if g.Covers(now) && rollingBucket.lastAbsIndex - g.Index(now) < g.n then g.Slot(g.Index(now))
                      else -1)
    {
      var g := rollingBucket.grid;
      ghost var last := rollingBucket.lastAbsIndex;
      ghost var was := buckets[..];
      bucket := rollingBucket.Advance(now, buckets, Cleared);
      asked := asked + [now];
      RollingCounters.LatestOfAppend(g, old(asked), now);
      if g.Covers(now) {
        AdvancedBuckets(g, log, bucketSize, last, rollingBucket.lastAbsIndex, was, buckets[..]);
      } else {
        assert forall j :: 0 <= j < buckets.Length ==> buckets[j] == was[j];
      }
    }

    /** What the slots store is what a snapshot shows of the window. */
    lemma WindowIsShown()
      requires Valid() && rollingBucket.grid.Live()
      ensures Union(Stored(buckets[..])) ==
        Union(ShownWindow(rollingBucket.grid, log, bucketSize, rollingBucket.lastAbsIndex))
    {
      var g := rollingBucket.grid;
      var bags := Stored(buckets[..]);
      forall k | rollingBucket.lastAbsIndex - g.n < k <= rollingBucket.lastAbsIndex
        ensures bags[g.Slot(k)] == Shown(g, log, bucketSize)(k)
      {
        ContentsAreTheLast(buckets[g.Slot(k)], bucketSize, SamplesAt(g, log, k));
      }
      WindowAddsUp(g, rollingBucket.lastAbsIndex, bags, Shown(g, log, bucketSize));
    }

    lemma NothingIsShown()
      requires Valid() && !rollingBucket.grid.Live()
      ensures Union(Stored(buckets[..])) == multiset{}
    {
      forall j | 0 <= j < buckets.Length
        ensures Contents(buckets[j]) == []
      {
        assert buckets[j].slots[..0] == [];
      }
      UnionOfNothing(Stored(buckets[..]));
    }

    /** All stored durations. */
    method AllDurations() returns (ret: seq<int>)
      requires Valid()
      ensures multiset(ret) == Union(Stored(buckets[..]))
    {
      ret := [];
      for i := 0 to buckets.Length
        invariant ret == AllContents(buckets[..i])
      {
        assert buckets[..i + 1][..i] == buckets[..i];
        ret := ret + Contents(buckets[i]);
      }
      assert buckets[..buckets.Length] == buckets[..];
      AllContentsAreStored(buckets[..]);
    }

    method SortedDurations(now: int) returns (ret: seq<int>)
      requires Valid()
      modifies this`asked, buckets, rollingBucket
      ensures Valid() && asked == (if buckets.Length == 0 then old(asked) else old(asked) + [now])
      ensures Percentiles.Ascending(ret)
      ensures var g := rollingBucket.grid;
        multiset(ret) ==
          if g.Live() then Union(ShownWindow(g, log, bucketSize, RollingCounters.Latest(g, asked))) else multiset{}
    {
      if buckets.Length == 0 { return []; }
      var _ := Advance(now);
      ret := AllDurations();
      if rollingBucket.grid.Live() { WindowIsShown(); } else { NothingIsShown(); }
      ret := Sorted(ret);
    }

    method AddDuration(d: int, now: int)
      requires Valid() && IsDuration(d)
      modifies this, buckets, rollingBucket
      ensures Valid() && log == old(log) + [Sample(d, now)]
      ensures asked == if buckets.Length == 0 then old(asked) else old(asked) + [now]
    {
      var g := rollingBucket.grid;
      if buckets.Length == 0 {
        log := log + [Sample(d, now)];
        return;
      }
      var idx := Advance(now);
      ghost var was := buckets[..];
      if g.Live() { AddedBucket(g, log, Sample(d, now), bucketSize, rollingBucket.lastAbsIndex, was); }
      if idx >= 0 {
        buckets[idx] := Add(buckets[idx], d);
        assert buckets[..] == was[idx := Add(was[idx], d)];
      }
      log := log + [Sample(d, now)];
    }

    method Reset(now: int)
      requires Valid()
      modifies this, buckets, rollingBucket
      ensures Valid() && log == [] && asked == old(asked) + [now]
    {
      var _ := Advance(now);
      for i := 0 to buckets.Length
        modifies buckets
        invariant forall j :: 0 <= j < buckets.Length ==>
          WellFormed(buckets[j], bucketSize) && (j < i ==> Holds(buckets[j], bucketSize, []))
      {
        ClearedIsFresh(buckets[i], bucketSize);
        buckets[i] := Cleared(buckets[i]);
      }
      log := [];
    }
  }
}
