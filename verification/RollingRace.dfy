/** faststats/rolling_bucket.go and rolling_counter.go between any number of goroutines: calls of Inc, and of readers
    that scan the buckets and then load totalSum, with every atomic access a step of its own. No Reset. */
module RollingRace {
  import opened Base
  import opened Counting
  import opened Sums
  import opened RollingWindows

  /** `slots` and below are bookkeeping that no step reads. */
  datatype Shared = Shared(
    last: int,                      // LastAbsIndex
    lock: Option<nat>,              // who holds advanceMu
    buckets: seq<int>,
    total: int,
    slots: seq<multiset<int>>,      // per slot, the indices of the Incs written since it was last cleared
    written: multiset<int>,         // the indices of all Incs written
    cleared: seq<int>,              // the indices whose slots the rolls cleared, in order
    frontier: int,                  // the largest index that is cleared or published
    late: seq<bool>)                // per slot: was an Inc written, since it was last cleared, a full window too late?

  /** A call looks up absolute index `a` (negative: before StartTime), to write there if `inc`, else to read. */
  datatype Pc =
    | RaiseTotal(a: int)
    | FastPath(a: int, inc: bool)
    | WantLock(a: int, inc: bool)
    | Locked(a: int, inc: bool)
    | Clearing(a: int, inc: bool, base: int, i: int)
    | Unlocking(a: int, inc: bool, left: int)
    | Write(a: int)
    | Scan(sum: int, seen: seq<bool>)
    | Done
    | Read(sum: int, total: int)

  datatype World = World(shared: Shared, calls: seq<Pc>)

  /** Step's `slot`: the bucket that a reader loads next. */
  datatype Action = Begin(pc: Pc) | Step(call: nat, slot: nat)

  predicate HoldsLock(pc: Pc) { pc.Locked? || pc.Clearing? || pc.Unlocking? }

  function Unseen(n: nat): seq<bool> { seq(n, _ => false) }

  /** Advance returned a bucket. */
  function Found(n: nat, a: int, inc: bool): Pc { if inc then Write(a) else Scan(0, Unseen(n)) }

  /** Advance returned -1. */
  function Ignored(n: nat, inc: bool): Pc { if inc then Done else Scan(0, Unseen(n)) }

  function ClearSlot(n: nat, s: Shared, i: int): Shared
    requires n > 0 && |s.buckets| == |s.slots| == |s.late| == n
  {
    var j := i % n;
    s.(buckets := s.buckets[j := 0], slots := s.slots[j := multiset{}], late := s.late[j := false],
       cleared := s.cleared + [i], frontier := i)
  }

  function WriteSlot(n: nat, s: Shared, a: int): Shared
    requires n > 0 && |s.buckets| == |s.slots| == |s.late| == n
  {
    var j := a % n;
    s.(buckets := s.buckets[j := s.buckets[j] + 1], slots := s.slots[j := s.slots[j] + multiset{a}],
       written := s.written + multiset{a}, late := s.late[j := s.late[j] || s.frontier >= a + n])
  }

  function StepCall(n: nat, s: Shared, t: nat, pc: Pc, slot: nat): (Shared, Pc)
    requires n > 0 && |s.buckets| == |s.slots| == |s.late| == n
  {
    match pc
    case RaiseTotal(a) => (s.(total := s.total + 1), FastPath(a, true))
    case FastPath(a, inc) =>
      (s, if a < 0 then Ignored(n, inc)
          else if s.last - a < 0 then WantLock(a, inc)
          else if s.last - a >= n then Ignored(n, inc)
          else Found(n, a, inc))
    case WantLock(a, inc) => (s.(lock := Some(t)), Locked(a, inc))
    case Locked(a, inc) =>
      (s, if a <= s.last then Unlocking(a, inc, s.last) else Clearing(a, inc, s.last, s.last + 1))
    case Clearing(a, inc, base, i) =>
      if i <= a && i <= base + n then (ClearSlot(n, s, i), Clearing(a, inc, base, i + 1))
      else (s.(last := a, frontier := a), Unlocking(a, inc, a))
    case Unlocking(a, inc, left) =>
      (s.(lock := None), if left - a >= n then Ignored(n, inc) else Found(n, a, inc))
    case Write(a) => (WriteSlot(n, s, a), Done)
    case Scan(sum, seen) =>
      if slot < n && slot < |seen| && !seen[slot] then (s, Scan(sum + s.buckets[slot], seen[slot := true]))
      else if forall j :: 0 <= j < |seen| ==> seen[j] then (s, Read(sum, s.total))
      else (s, pc)
    case Done => (s, pc)
    case Read(_, _) => (s, pc)
  }

  predicate Sized(n: nat, s: Shared) { n > 0 && |s.buckets| == |s.slots| == |s.late| == n }

  predicate Possible(n: nat, w: World, a: Action) {
    Sized(n, w.shared) &&
    match a
    case Begin(pc) => pc.RaiseTotal? || (pc.FastPath? && !pc.inc) || pc == Scan(0, Unseen(n))
    case Step(t, _) => t < |w.calls| && (w.calls[t].WantLock? ==> w.shared.lock.None?)
  }

  function Apply(n: nat, w: World, a: Action): World
    requires Possible(n, w, a)
  {
    match a
    case Begin(pc) => w.(calls := w.calls + [pc])
    case Step(t, slot) =>
      var (s', pc') := StepCall(n, w.shared, t, w.calls[t], slot);
      World(s', w.calls[t := pc'])
  }

  function Init(n: nat): World {
    World(Shared(0, None, seq(n, _ => 0), 0, seq(n, _ => multiset{}), multiset{}, [], 0, Unseen(n)), [])
  }

  function After(n: nat, run: seq<Action>): Option<World>
    decreases |run|
  {
    if run == [] then Some(Init(n))
    else
      var before := After(n, run[..|run| - 1]);
      if before.Some? && Possible(n, before.value, run[|run| - 1])
      then Some(Apply(n, before.value, run[|run| - 1]))
      else None
  }

  // ---- The window ----

  ghost predicate SlotsInv(n: nat, s: Shared) {
    && Sized(n, s)
    && (forall j :: 0 <= j < n ==> s.buckets[j] == |s.slots[j]|)
    && (forall j, a :: 0 <= j < n && a in s.slots[j] ==> 0 <= a <= s.last && a % n == j)
    && (forall a :: a in s.written ==> 0 <= a <= s.last)
    && (forall a :: a >= 0 && s.frontier < a + n ==> s.slots[a % n][a] == s.written[a])
    && Marked(n, s)
  }

  /** The mark of a slot says whether it holds an Inc whose index the rolls have left behind. */
  ghost predicate LateMeans(n: nat, slot: multiset<int>, late: bool, frontier: int) {
    if late then exists a :: a in slot && a + n <= frontier else forall a :: a in slot ==> frontier < a + n
  }

  ghost predicate Marked(n: nat, s: Shared)
    requires Sized(n, s)
  {
    forall j :: 0 <= j < n ==> LateMeans(n, s.slots[j], s.late[j], s.frontier)
  }

  ghost predicate RollInv(s: Shared) {
    && 0 <= s.last <= s.frontier && (s.lock.None? ==> s.frontier == s.last)
    && (forall i :: 0 <= i < |s.cleared| ==> s.cleared[i] <= s.frontier)
    && (forall i, j :: 0 <= i < j < |s.cleared| ==> s.cleared[i] < s.cleared[j])
    && (forall i :: s.last < i <= s.frontier ==> i in s.cleared)
  }

  predicate PcInv(n: nat, s: Shared, pc: Pc) {
    match pc
    case Locked(_, _) => s.frontier == s.last
    case Clearing(a, _, base, i) =>
      base == s.last && s.frontier == i - 1 && s.last < i <= Min(a, base + n) + 1 && s.last < a
    case Unlocking(a, _, left) => s.frontier == s.last && 0 <= a <= left == s.last
    case WantLock(a, _) => a >= 0
    case Write(a) => 0 <= a <= s.last
    case _ => true
  }

  ghost predicate CallInv(n: nat, s: Shared, t: nat, pc: Pc) {
    (HoldsLock(pc) <==> s.lock == Some(t)) && PcInv(n, s, pc) && (pc.Locked? ==> pc.a >= 0)
  }

  ghost predicate WindowInv(n: nat, w: World) {
    && SlotsInv(n, w.shared) && RollInv(w.shared)
    && (forall t :: 0 <= t < |w.calls| ==> CallInv(n, w.shared, t, w.calls[t]))
    && (w.shared.lock.Some? ==> w.shared.lock.value < |w.calls|)
  }

  /** What a step of any other call leaves alone for call u. */
  predicate Rely(s: Shared, s': Shared, u: nat) {
    && s.last <= s'.last
    && (s.lock == Some(u) <==> s'.lock == Some(u))
    && (s.lock == Some(u) ==> s.last == s'.last && s.frontier == s'.frontier)
  }

  /** What lives in the slot of the next index to clear is a full window older than that index. */
  lemma NextIsAWindowLater(n: nat, a: int, last: int, i: int)
    requires n > 0 && a <= last < i && a % n == i % n
    ensures a + n <= i
  {
    if i < a + n { SlotsDiffer(a, i, n); }
  }

  lemma ClearKeepsCounts(n: nat, s: Shared, i: int)
    requires SlotsInv(n, s) && s.frontier == i - 1 && i > s.last
    ensures var s' := ClearSlot(n, s, i);
      forall a :: a >= 0 && s'.frontier < a + n ==> s'.slots[a % n][a] == s'.written[a]
  {
    var s' := ClearSlot(n, s, i);
    forall a | a >= 0 && s'.frontier < a + n
      ensures s'.slots[a % n][a] == s'.written[a]
    {
      if a % n == i % n && a <= s.last { NextIsAWindowLater(n, a, s.last, i); }
    }
  }

  lemma ClearKeepsMarks(n: nat, s: Shared, i: int)
    requires SlotsInv(n, s) && s.frontier == i - 1 && i > s.last
    ensures var s' := ClearSlot(n, s, i);
      Marked(n, s')
  {
    var s' := ClearSlot(n, s, i);
    forall j | 0 <= j < n
      ensures LateMeans(n, s'.slots[j], s'.late[j], s'.frontier)
    {
      assert LateMeans(n, s.slots[j], s.late[j], s.frontier);
      if j != i % n && !s.late[j] {
        forall a | a in s'.slots[j]
          ensures s'.frontier < a + n
        {
          if i == a + n { SlotOfShift(a, n); }
        }
      }
    }
  }

  /** Clearing index i wipes nothing but what is a full window older. */
  lemma ClearKeeps(n: nat, s: Shared, i: int)
    requires SlotsInv(n, s) && RollInv(s) && s.frontier == i - 1 && s.lock.Some? && i > s.last
    ensures SlotsInv(n, ClearSlot(n, s, i)) && RollInv(ClearSlot(n, s, i))
  {
    ClearKeepsCounts(n, s, i);
    ClearKeepsMarks(n, s, i);
  }

  lemma PublishKeepsMarks(n: nat, s: Shared, a: int, base: int, i: int)
    requires SlotsInv(n, s) && PcInv(n, s, Clearing(a, true, base, i)) && !(i <= a && i <= base + n)
    ensures Sized(n, s) && Marked(n, s.(last := a, frontier := a))
  {
    forall j | 0 <= j < n
      ensures LateMeans(n, s.slots[j], s.late[j], a)
    {
      assert LateMeans(n, s.slots[j], s.late[j], s.frontier);
    }
  }

  lemma PublishKeeps(n: nat, s: Shared, a: int, base: int, i: int)
    requires SlotsInv(n, s) && RollInv(s) && s.lock.Some? && PcInv(n, s, Clearing(a, true, base, i))
    requires !(i <= a && i <= base + n)
    ensures var s' := s.(last := a, frontier := a); SlotsInv(n, s') && RollInv(s')
  {
    PublishKeepsMarks(n, s, a, base, i);
  }

  lemma WriteKeepsMarks(n: nat, s: Shared, a: int)
    requires SlotsInv(n, s) && 0 <= a <= s.last
    ensures Marked(n, WriteSlot(n, s, a))
  {
    var s' := WriteSlot(n, s, a);
    forall j | 0 <= j < n
      ensures LateMeans(n, s'.slots[j], s'.late[j], s'.frontier)
    {
      assert LateMeans(n, s.slots[j], s.late[j], s.frontier);
      if j == a % n {
        assert a in s'.slots[j];
        if s.late[j] {
          var b :| b in s.slots[j] && b + n <= s.frontier;
          assert b in s'.slots[j];
        }
      }
    }
  }

  lemma WriteKeepsCounts(n: nat, s: Shared, a: int)
    requires SlotsInv(n, s) && 0 <= a <= s.last
    ensures var s' := WriteSlot(n, s, a);
      && (forall j :: 0 <= j < n ==> s'.buckets[j] == |s'.slots[j]|)
      && (forall b :: b >= 0 && s'.frontier < b + n ==> s'.slots[b % n][b] == s'.written[b])
  {}

  lemma WriteKeeps(n: nat, s: Shared, a: int)
    requires SlotsInv(n, s) && RollInv(s) && 0 <= a <= s.last
    ensures SlotsInv(n, WriteSlot(n, s, a)) && RollInv(WriteSlot(n, s, a))
  {
    WriteKeepsCounts(n, s, a);
    WriteKeepsMarks(n, s, a);
  }

  /** The step changes at most the lock and the total, and takes the lock from nobody else. */
  predicate Elsewhere(s: Shared, s': Shared, t: nat) {
    && s'.(lock := s.lock, total := s.total) == s
    && (s'.lock != s.lock ==> s.lock in {None, Some(t)} && s'.lock in {None, Some(t)})
    && (s'.lock.None? ==> s.frontier == s.last)
  }

  lemma StepElsewhere(n: nat, s: Shared, t: nat, pc: Pc, slot: nat)
    requires Sized(n, s) && CallInv(n, s, t, pc) && (pc.WantLock? ==> s.lock.None?) && !pc.Clearing? && !pc.Write?
    requires RollInv(s)
    ensures var (s', pc') := StepCall(n, s, t, pc, slot); Elsewhere(s, s', t) && CallInv(n, s', t, pc')
  {}

  ghost predicate Kept(n: nat, s: Shared, s': Shared, t: nat, pc': Pc) {
    SlotsInv(n, s') && RollInv(s') && CallInv(n, s', t, pc') && forall u :: u != t ==> Rely(s, s', u)
  }

  lemma ClearKept(n: nat, s: Shared, t: nat, a: int, inc: bool, base: int, i: int)
    requires SlotsInv(n, s) && RollInv(s) && CallInv(n, s, t, Clearing(a, inc, base, i)) && i <= a && i <= base + n
    ensures Kept(n, s, ClearSlot(n, s, i), t, Clearing(a, inc, base, i + 1))
  {
    ClearKeeps(n, s, i);
  }

  lemma PublishKept(n: nat, s: Shared, t: nat, a: int, inc: bool, base: int, i: int)
    requires SlotsInv(n, s) && RollInv(s) && CallInv(n, s, t, Clearing(a, inc, base, i)) && !(i <= a && i <= base + n)
    ensures Kept(n, s, s.(last := a, frontier := a), t, Unlocking(a, inc, a))
  {
    PublishKeeps(n, s, a, base, i);
  }

  lemma RollKept(n: nat, s: Shared, t: nat, a: int, inc: bool, base: int, i: int)
    requires SlotsInv(n, s) && RollInv(s) && CallInv(n, s, t, Clearing(a, inc, base, i))
    ensures var (s', pc') := StepCall(n, s, t, Clearing(a, inc, base, i), 0); Kept(n, s, s', t, pc')
  {
    if i <= a && i <= base + n { ClearKept(n, s, t, a, inc, base, i); } else { PublishKept(n, s, t, a, inc, base, i); }
  }

  lemma ElsewhereKept(n: nat, s: Shared, s': Shared, t: nat, pc': Pc)
    requires SlotsInv(n, s) && RollInv(s) && Elsewhere(s, s', t) && CallInv(n, s', t, pc')
    ensures Kept(n, s, s', t, pc')
  {}

  lemma WriteKept(n: nat, s: Shared, t: nat, a: int)
    requires SlotsInv(n, s) && RollInv(s) && CallInv(n, s, t, Write(a))
    ensures Kept(n, s, WriteSlot(n, s, a), t, Done)
  {
    WriteKeeps(n, s, a);
  }

  lemma OtherStepKept(n: nat, s: Shared, t: nat, pc: Pc, slot: nat)
    requires SlotsInv(n, s) && RollInv(s) && CallInv(n, s, t, pc) && (pc.WantLock? ==> s.lock.None?)
    requires !pc.Clearing? && !pc.Write?
    ensures var (s', pc') := StepCall(n, s, t, pc, slot); Kept(n, s, s', t, pc')
  {
    var (s', pc') := StepCall(n, s, t, pc, slot);
    StepElsewhere(n, s, t, pc, slot);
    ElsewhereKept(n, s, s', t, pc');
  }

  lemma StepKept(n: nat, s: Shared, t: nat, pc: Pc, slot: nat)
    requires SlotsInv(n, s) && RollInv(s) && CallInv(n, s, t, pc) && (pc.WantLock? ==> s.lock.None?)
    ensures var (s', pc') := StepCall(n, s, t, pc, slot); Kept(n, s, s', t, pc')
  {
    if pc.Clearing? {
      RollKept(n, s, t, pc.a, pc.inc, pc.base, pc.i);
      assert StepCall(n, s, t, pc, 0) == StepCall(n, s, t, pc, slot);
    } else if pc.Write? {
      WriteKept(n, s, t, pc.a);
    } else {
      OtherStepKept(n, s, t, pc, slot);
    }
  }

  lemma ActionKeepsWindow(n: nat, w: World, a: Action)
    requires WindowInv(n, w) && Possible(n, w, a)
    ensures WindowInv(n, Apply(n, w, a))
  {
    if a.Step? {
      var (s', pc') := StepCall(n, w.shared, a.call, w.calls[a.call], a.slot);
      StepKept(n, w.shared, a.call, w.calls[a.call], a.slot);
      if s'.lock.Some? { assert s'.lock.value == a.call || Rely(w.shared, s', s'.lock.value); }
      forall u | 0 <= u < |w.calls| && u != a.call
        ensures CallInv(n, s', u, w.calls[u])
      {
        assert Rely(w.shared, s', u);
      }
    }
  }

  lemma {:induction false} EveryRunKeepsWindow(n: nat, run: seq<Action>)
    requires n > 0
    ensures After(n, run).Some? ==> WindowInv(n, After(n, run).value)
    decreases |run|
  {
    if run != [] {
      EveryRunKeepsWindow(n, run[..|run| - 1]);
      var before := After(n, run[..|run| - 1]);
      if before.Some? && Possible(n, before.value, run[|run| - 1]) {
        ActionKeepsWindow(n, before.value, run[|run| - 1]);
      }
    }
  }

  /** The call is about to clear the slot of index i on its way to a. */
  predicate AboutToClear(n: nat, pc: Pc) { pc.Clearing? && pc.i <= pc.a && pc.i <= pc.base + n }

  /** Advance never wipes a live slot: whoever was handed out a slot for index a, or has written to it, a roll clears
      that slot only on its way to an index at least a + NumBuckets. */
  lemma {:induction false} LiveSlotsAreNotCleared(n: nat, run: seq<Action>, t: nat, a: int)
    requires n > 0 && After(n, run).Some? && t < |After(n, run).value.calls|
    requires var w := After(n, run).value;
      && AboutToClear(n, w.calls[t]) && a % n == w.calls[t].i % n
      && (a in w.shared.slots[a % n] || exists u :: 0 <= u < |w.calls| && w.calls[u] == Write(a))
    ensures var pc := After(n, run).value.calls[t]; a + n <= pc.i <= pc.a
  {
    EveryRunKeepsWindow(n, run);
    var w := After(n, run).value;
    assert CallInv(n, w.shared, t, w.calls[t]);
    if a !in w.shared.slots[a % n] {
      var u :| 0 <= u < |w.calls| && w.calls[u] == Write(a);
      assert CallInv(n, w.shared, u, w.calls[u]);
    }
    NextIsAWindowLater(n, a, w.shared.last, w.calls[t].i);
  }

  /** LastAbsIndex never decreases, and the rolls clear ascending indices: no two rolls clear the same one. */
  lemma {:induction false} RollsAscend(n: nat, run: seq<Action>, a: Action)
    requires n > 0 && After(n, run).Some? && Possible(n, After(n, run).value, a)
    ensures var w := After(n, run).value; var w' := Apply(n, w, a);
      && w.shared.last <= w'.shared.last
      && w.shared.cleared <= w'.shared.cleared
      && forall i, j :: 0 <= i < j < |w'.shared.cleared| ==> w'.shared.cleared[i] < w'.shared.cleared[j]
  {
    EveryRunKeepsWindow(n, run);
    var w := After(n, run).value;
    ActionKeepsWindow(n, w, a);
    if a.Step? {
      assert CallInv(n, w.shared, a.call, w.calls[a.call]);
      if w.calls[a.call].Clearing? {} else if w.calls[a.call].Write? {} else {
        StepElsewhere(n, w.shared, a.call, w.calls[a.call], a.slot);
      }
    }
  }

  /** What a slot holds that the roll has cleared on the way to an index. */
  lemma ClearedSlotHoldsLate(n: nat, s: Shared, j: nat, i: int)
    requires SlotsInv(n, s) && j < n && i % n == j && s.last < i <= s.frontier
    ensures s.buckets[j] == |s.slots[j]| && (forall b :: b in s.slots[j] ==> b + n <= s.frontier)
    ensures s.buckets[j] == 0 <==> !s.late[j]
  {
    forall b | b in s.slots[j]
      ensures b + n <= i
    {
      NextIsAWindowLater(n, b, s.last, i);
    }
    assert LateMeans(n, s.slots[j], s.late[j], s.frontier);
    if !s.late[j] { assert s.slots[j] == multiset{}; }
  }

  /** One index that the roll has cleared lives in the slot of k. */
  lemma SlotWasCleared(n: nat, s: Shared, t: nat, pc: Pc, k: int) returns (i: int)
    requires n > 0 && RollInv(s) && CallInv(n, s, t, pc)
    requires pc.Clearing? && !AboutToClear(n, pc) && Max(s.last, pc.a - n) < k <= pc.a
    ensures i in s.cleared && s.last < i <= s.frontier && i % n == k % n
  {
    i := Representative(k, s.last, n);
  }

  /** When an index is about to be published, this roll has cleared each slot that comes into the window with it, and
      the slot holds nothing but what was written a full window late since then: it is empty exactly if nothing was. */
  lemma {:induction false} PublishedSlotsAreEmpty(n: nat, run: seq<Action>, t: nat, k: int)
    requires n > 0 && After(n, run).Some? && t < |After(n, run).value.calls|
    requires var w := After(n, run).value; var pc := w.calls[t];
      pc.Clearing? && !AboutToClear(n, pc) && Max(w.shared.last, pc.a - n) < k <= pc.a
    ensures var s := After(n, run).value.shared;
      && (exists i :: i in s.cleared && s.last < i && i % n == k % n)
      && s.buckets[k % n] == |s.slots[k % n]|
      && (forall b :: b in s.slots[k % n] ==> b + n <= s.frontier)
      && (s.buckets[k % n] == 0 <==> !s.late[k % n])
  {
    EveryRunKeepsWindow(n, run);
    var w := After(n, run).value;
    var s := w.shared;
    assert CallInv(n, s, t, w.calls[t]);
    var i := SlotWasCleared(n, s, t, w.calls[t], k);
    ClearedSlotHoldsLate(n, s, k % n, i);
  }

  // A late write does land in such a slot: with one bucket, an Inc for index 0 is handed the slot, a second call rolls
  // to index 1 and clears it, and then the first one writes.

  /** The state of one bucket: nothing written, `total` Incs begun. */
  function Idle(total: int, lock: Option<nat>): Shared {
    Shared(0, lock, [0], total, [multiset{}], multiset{}, [], 0, [false])
  }

  /** The run leads to this world. */
  predicate Reaches(run: seq<Action>, s: Shared, calls: seq<Pc>) { After(1, run) == Some(World(s, calls)) }

  lemma {:induction false} Goes(run: seq<Action>, s: Shared, calls: seq<Pc>, a: Action, s': Shared, calls': seq<Pc>)
    returns (next: seq<Action>)
    requires Reaches(run, s, calls) && Possible(1, World(s, calls), a)
    requires Apply(1, World(s, calls), a) == World(s', calls')
    ensures Reaches(next, s', calls')
  {
    next := run + [a];
    assert next[..|run|] == run;
  }

  lemma Steps(run: seq<Action>, s: Shared, calls: seq<Pc>, t: nat, s': Shared, pc: Pc, calls': seq<Pc>)
    returns (next: seq<Action>)
    requires Reaches(run, s, calls) && Sized(1, s) && t < |calls| && (calls[t].WantLock? ==> s.lock.None?)
    requires StepCall(1, s, t, calls[t], 0) == (s', pc) && calls' == calls[t := pc]
    ensures Reaches(next, s', calls')
  {
    next := Goes(run, s, calls, Step(t, 0), s', calls');
  }

  /** The first Inc is handed the only slot. */
  lemma HandedOut() returns (run: seq<Action>)
    ensures Reaches(run, Idle(1, None), [Write(0)])
  {
    assert Init(1).shared.buckets == [0] && Init(1).shared.slots == [multiset{}] && Init(1).shared.late == [false];
    run := Goes([], Idle(0, None), [], Begin(RaiseTotal(0)), Idle(0, None), [RaiseTotal(0)]);
    run := Steps(run, Idle(0, None), [RaiseTotal(0)], 0, Idle(1, None), FastPath(0, true), [FastPath(0, true)]);
    run := Steps(run, Idle(1, None), [FastPath(0, true)], 0, Idle(1, None), Write(0), [Write(0)]);
  }

  /** The second one waits for the lock, and gets it. */
  lemma RollBegins() returns (run: seq<Action>)
    ensures Reaches(run, Idle(2, Some(1)), [Write(0), Locked(1, true)])
  {
    run := HandedOut();
    var s1, s2, s3 := Idle(1, None), Idle(2, None), Idle(2, Some(1));
    var raise, fast, want, locked := RaiseTotal(1), FastPath(1, true), WantLock(1, true), Locked(1, true);
    run := Goes(run, s1, [Write(0)], Begin(raise), s1, [Write(0), raise]);
    run := Steps(run, s1, [Write(0), raise], 1, s2, fast, [Write(0), fast]);
    run := Steps(run, s2, [Write(0), fast], 1, s2, want, [Write(0), want]);
    run := Steps(run, s2, [Write(0), want], 1, s3, locked, [Write(0), locked]);
  }

  lemma LateWriteIsPublished() returns (run: seq<Action>)
    ensures After(1, run).Some?
    ensures var w := After(1, run).value;
      && w.calls == [Done, Clearing(1, true, 0, 2)] && !AboutToClear(1, w.calls[1])
      && w.shared.last == 0 && w.shared.buckets == [1] && w.shared.late == [true]
  {
    run := RollBegins();
    var s := Idle(2, Some(1));
    var first, second := Clearing(1, true, 0, 1), Clearing(1, true, 0, 2);
    run := Steps(run, s, [Write(0), Locked(1, true)], 1, s, first, [Write(0), first]);
    var cleared := ClearSlot(1, s, 1);
    run := Steps(run, s, [Write(0), first], 1, cleared, second, [Write(0), second]);
    run := Steps(run, cleared, [Write(0), second], 0, WriteSlot(1, cleared, 0), Done, [Done, second]);
  }

  /** The Inc calls for index a that a run has begun. */
  function Begun(run: seq<Action>, a: int): nat { Count(run, (x: Action) => x == Begin(RaiseTotal(a))) }

  /** An Inc for index a that has not written yet. */
  predicate UnderWay(pc: Pc, a: int) {
    match pc
    case RaiseTotal(b) => b == a
    case Write(b) => b == a
    case FastPath(b, inc) => inc && b == a
    case WantLock(b, inc) => inc && b == a
    case Locked(b, inc) => inc && b == a
    case Clearing(b, inc, _, _) => inc && b == a
    case Unlocking(b, inc, _) => inc && b == a
    case _ => false
  }

  function Pending(w: World, a: int): nat { Count(w.calls, (pc: Pc) => UnderWay(pc, a)) }

  /** Every Inc that was begun for index a has been written, or is still under way. */
  ghost predicate Accounted(n: nat, w: World, a: int, begun: nat) {
    w.shared.frontier < a + n ==> begun == w.shared.written[a] + Pending(w, a)
  }

  lemma LookupGoesOn(n: nat, s: Shared, t: nat, pc: Pc, slot: nat, a: int)
    requires Sized(n, s) && RollInv(s) && CallInv(n, s, t, pc) && 0 <= a && s.frontier < a + n
    requires !pc.Clearing? && !pc.Write?
    ensures UnderWay(StepCall(n, s, t, pc, slot).1, a) == UnderWay(pc, a)
  {}

  lemma RollGoesOn(n: nat, s: Shared, t: nat, pc: Pc, slot: nat, a: int)
    requires Sized(n, s) && CallInv(n, s, t, pc) && pc.Clearing?
    ensures var (s', pc') := StepCall(n, s, t, pc, slot);
      s.frontier <= s'.frontier && s'.written == s.written && UnderWay(pc', a) == UnderWay(pc, a)
  {}

  /** An Inc for an index that no roll has left behind goes on, or it writes: it is never dropped. */
  lemma IncGoesOn(n: nat, s: Shared, t: nat, pc: Pc, slot: nat, a: int)
    requires SlotsInv(n, s) && RollInv(s) && CallInv(n, s, t, pc) && a >= 0
    requires pc.WantLock? ==> s.lock.None?
    requires StepCall(n, s, t, pc, slot).0.frontier < a + n
    ensures var (s', pc') := StepCall(n, s, t, pc, slot);
      && s.frontier <= s'.frontier
      && s'.written[a] + (if UnderWay(pc', a) then 1 else 0) == s.written[a] + (if UnderWay(pc, a) then 1 else 0)
  {
    if pc.Clearing? {
      RollGoesOn(n, s, t, pc, slot, a);
    } else if !pc.Write? {
      StepElsewhere(n, s, t, pc, slot);
      LookupGoesOn(n, s, t, pc, slot, a);
    }
  }

  lemma ActionKeepsAccount(n: nat, w: World, x: Action, a: int, begun: nat)
    requires WindowInv(n, w) && Possible(n, w, x) && a >= 0 && Accounted(n, w, a, begun)
    ensures Accounted(n, Apply(n, w, x), a, begun + if x == Begin(RaiseTotal(a)) then 1 else 0)
  {
    var p := (pc: Pc) => UnderWay(pc, a);
    match x
    case Begin(pc) => CountOfAppend(w.calls, p, pc);
    case Step(t, slot) =>
      assert CallInv(n, w.shared, t, w.calls[t]);
      var (s', pc') := StepCall(n, w.shared, t, w.calls[t], slot);
      if s'.frontier < a + n { IncGoesOn(n, w.shared, t, w.calls[t], slot, a); }
      CountOfUpdate(w.calls, p, t, pc');
  }

  /** No Inc is dropped: as long as no roll leaves index a behind, every Inc that was begun for it has been written or
      is still under way, also if it has to roll the window or to wait for another call that does. */
  lemma {:induction false} NoIncIsDropped(n: nat, run: seq<Action>, a: int)
    requires n > 0 && After(n, run).Some? && a >= 0
    ensures Accounted(n, After(n, run).value, a, Begun(run, a))
    decreases |run|
  {
    if run != [] {
      var front, x := run[..|run| - 1], run[|run| - 1];
      NoIncIsDropped(n, front, a);
      EveryRunKeepsWindow(n, front);
      ActionKeepsAccount(n, After(n, front).value, x, a, Begun(front, a));
    }
  }

  /** And an Inc is given a slot only for an index that was not before the start, nor a full window behind, when it
      looked. */
  lemma {:induction false} OnlyLiveIncsAreWritten(n: nat, run: seq<Action>, t: nat, slot: nat)
    requires n > 0 && After(n, run).Some? && Possible(n, After(n, run).value, Step(t, slot))
    ensures
      var w := After(n, run).value; var w' := Apply(n, w, Step(t, slot));
      !w.calls[t].Write? && w'.calls[t].Write? ==>
        UnderWay(w.calls[t], w'.calls[t].a) && 0 <= w'.calls[t].a <= w'.shared.last < w'.calls[t].a + n
  {
    EveryRunKeepsWindow(n, run);
    assert CallInv(n, After(n, run).value.shared, t, After(n, run).value.calls[t]);
  }

  /** No live event is lost: as long as no roll leaves index a behind, all Incs that were begun for it, but for those
      still under way, are in its slot. And if none is under way, then the bucket holds exactly the Incs begun for a,
      exactly if no late Inc was written there since its clearing. */
  lemma {:induction false} NoEventIsLost(n: nat, run: seq<Action>, a: int)
    requires n > 0 && After(n, run).Some? && a >= 0 && After(n, run).value.shared.frontier < a + n
    ensures var w := After(n, run).value; var s := w.shared;
      && Begun(run, a) == s.written[a] + Pending(w, a)
      && s.slots[a % n][a] == s.written[a] <= s.buckets[a % n]
      && (a <= s.last ==> (s.buckets[a % n] == s.written[a] <==> !s.late[a % n]))
      && (a <= s.last && Pending(w, a) == 0 ==> (s.buckets[a % n] == Begun(run, a) <==> !s.late[a % n]))
  {
    EveryRunKeepsWindow(n, run);
    NoIncIsDropped(n, run, a);
    var s := After(n, run).value.shared;
    CardinalityBounds(s.slots[a % n], a);
    if a <= s.last { MarksAreExact(n, s, a); }
  }

  lemma MarksAreExact(n: nat, s: Shared, a: int)
    requires SlotsInv(n, s) && RollInv(s) && 0 <= a <= s.last && s.frontier < a + n
    ensures |s.slots[a % n]| == s.slots[a % n][a] <==> !s.late[a % n]
  {
    var slot := s.slots[a % n];
    assert LateMeans(n, slot, s.late[a % n], s.frontier);
    CardinalityBounds(slot, a);
    if !s.late[a % n] {
      forall b | b in slot
        ensures b == a
      {
        if b != a { SlotsDiffer(Min(a, b), Max(a, b), n); }
      }
    }
  }

  /** The copies of a are all there is exactly if there is nothing else. */
  lemma CardinalityBounds(m: multiset<int>, a: int)
    ensures m[a] <= |m|
    ensures |m| == m[a] <==> forall b :: b in m ==> b == a
  {
    var rest := m[a := 0];
    assert m == rest + multiset{}[a := m[a]];
    assert |multiset{}[a := m[a]]| == m[a];
    if forall b :: b in m ==> b == a {
      assert rest == multiset{};
    } else {
      var b :| b in m && b != a;
      assert b in rest;
    }
  }

  // ---- A reader that scans the buckets and then loads totalSum ----

  /** What a scan can still add: the buckets it has not seen. */
  function Left(buckets: seq<int>, seen: seq<bool>): int
    requires |buckets| == |seen|
  {
    if buckets == [] then 0
    else
      var n := |buckets| - 1;
      Left(buckets[..n], seen[..n]) + if seen[n] then 0 else buckets[n]
  }

  lemma {:induction false} LeftOfUpdate(buckets: seq<int>, seen: seq<bool>, j: nat, x: int)
    requires j < |buckets| == |seen|
    ensures Left(buckets[j := x], seen) == Left(buckets, seen) + if seen[j] then 0 else x - buckets[j]
  {
    var n := |buckets| - 1;
    if j == n {
      assert buckets[j := x][..n] == buckets[..n];
    } else {
      assert buckets[j := x][..n] == buckets[..n][j := x];
      LeftOfUpdate(buckets[..n], seen[..n], j, x);
    }
  }

  lemma {:induction false} LeftOfSee(buckets: seq<int>, seen: seq<bool>, j: nat)
    requires j < |buckets| == |seen| && !seen[j]
    ensures Left(buckets, seen[j := true]) == Left(buckets, seen) - buckets[j]
  {
    var n := |buckets| - 1;
    if j == n {
      assert seen[j := true][..n] == seen[..n];
    } else {
      assert seen[j := true][..n] == seen[..n][j := true];
      LeftOfSee(buckets[..n], seen[..n], j);
    }
  }

  lemma {:induction false} LeftIsNatural(buckets: seq<int>, seen: seq<bool>)
    requires |buckets| == |seen| && forall j :: 0 <= j < |buckets| ==> buckets[j] >= 0
    ensures Left(buckets, seen) >= 0
  {
    if buckets != [] { LeftIsNatural(buckets[..|buckets| - 1], seen[..|buckets| - 1]); }
  }

  lemma {:induction false} LeftOfZeros(buckets: seq<int>, seen: seq<bool>)
    requires |buckets| == |seen| && forall j :: 0 <= j < |buckets| ==> buckets[j] == 0
    ensures Left(buckets, seen) == 0
  {
    if buckets != [] { LeftOfZeros(buckets[..|buckets| - 1], seen[..|buckets| - 1]); }
  }

  /** An Inc that has raised totalSum and not yet its bucket. */
  predicate Raised(pc: Pc) {
    pc.Write? || ((pc.FastPath? || pc.WantLock? || pc.Locked? || pc.Clearing? || pc.Unlocking?) && pc.inc)
  }

  /** The scan cannot come to more than totalSum is now, not even with all Incs that are under way. */
  predicate Bounded(w: World, sum: int, seen: seq<bool>) {
    |seen| == |w.shared.buckets| && sum + Left(w.shared.buckets, seen) + Count(w.calls, Raised) <= w.shared.total
  }

  ghost predicate TotalsInv(n: nat, w: World) {
    && Bounded(w, 0, Unseen(n))
    && (forall t :: 0 <= t < |w.calls| && w.calls[t].Scan? ==> Bounded(w, w.calls[t].sum, w.calls[t].seen))
    && (forall t :: 0 <= t < |w.calls| && w.calls[t].Read? ==> w.calls[t].sum <= w.calls[t].total)
  }

  /** Only bucket j changes, and it gains at most `credit`. */
  predicate OnlyBucket(before: seq<int>, after: seq<int>, j: nat, credit: int) {
    && j < |before| == |after| && after == before[j := after[j]] && after[j] - before[j] <= credit
  }

  /** The step raises at most one bucket, by one, and pays for it with the total or with an Inc under way. */
  ghost predicate Paid(s: Shared, pc: Pc, s': Shared, pc': Pc) {
    var credit := s'.total - s.total + (if Raised(pc) then 1 else 0) - (if Raised(pc') then 1 else 0);
    credit >= 0 && (s'.buckets == s.buckets || exists j: nat :: OnlyBucket(s.buckets, s'.buckets, j, credit))
  }

  lemma StepIsPaid(n: nat, s: Shared, t: nat, pc: Pc, slot: nat)
    requires Sized(n, s) && forall j :: 0 <= j < n ==> s.buckets[j] >= 0
    ensures var (s', pc') := StepCall(n, s, t, pc, slot); Paid(s, pc, s', pc')
  {
    var (s', pc') := StepCall(n, s, t, pc, slot);
    match pc
    case Clearing(a, inc, base, i) =>
      if i <= a && i <= base + n { assert OnlyBucket(s.buckets, s'.buckets, i % n, 0); }
    case Write(a) => assert OnlyBucket(s.buckets, s'.buckets, a % n, 1);
    case _ =>
  }

  lemma PaidKeepsBound(w: World, t: nat, s': Shared, pc': Pc, sum: int, seen: seq<bool>)
    requires t < |w.calls| && Bounded(w, sum, seen) && Paid(w.shared, w.calls[t], s', pc')
    ensures Bounded(World(s', w.calls[t := pc']), sum, seen)
  {
    CountOfUpdate(w.calls, Raised, t, pc');
    if s'.buckets != w.shared.buckets {
      var credit := s'.total - w.shared.total + (if Raised(w.calls[t]) then 1 else 0) - (if Raised(pc') then 1 else 0);
      var j: nat :| OnlyBucket(w.shared.buckets, s'.buckets, j, credit);
      assert OnlyBucket(w.shared.buckets, s'.buckets, j, credit);
      LeftOfUpdate(w.shared.buckets, seen, j, s'.buckets[j]);
    }
  }

  /** A scanning step of a reader. */
  lemma ScanKeepsBound(n: nat, w: World, t: nat, slot: nat)
    requires SlotsInv(n, w.shared) && TotalsInv(n, w) && t < |w.calls| && w.calls[t].Scan?
    ensures var (s', pc') := StepCall(n, w.shared, t, w.calls[t], slot);
      && s' == w.shared
      && (pc'.Scan? ==> Bounded(w, pc'.sum, pc'.seen))
      && (pc'.Read? ==> pc'.sum <= pc'.total)
  {
    var sum, seen := w.calls[t].sum, w.calls[t].seen;
    if slot < n && !seen[slot] {
      LeftOfSee(w.shared.buckets, seen, slot);
    } else {
      LeftIsNatural(w.shared.buckets, seen);
    }
  }

  lemma StepKeepsTotals(n: nat, w: World, t: nat, slot: nat)
    requires WindowInv(n, w) && TotalsInv(n, w) && Possible(n, w, Step(t, slot))
    ensures TotalsInv(n, Apply(n, w, Step(t, slot)))
  {
    var pc := w.calls[t];
    var (s', pc') := StepCall(n, w.shared, t, pc, slot);
    var w' := Apply(n, w, Step(t, slot));
    StepIsPaid(n, w.shared, t, pc, slot);
    PaidKeepsBound(w, t, s', pc', 0, Unseen(n));
    if pc.Scan? { ScanKeepsBound(n, w, t, slot); }
    forall u | 0 <= u < |w'.calls| && w'.calls[u].Scan?
      ensures Bounded(w', w'.calls[u].sum, w'.calls[u].seen)
    {
      if u != t {
        PaidKeepsBound(w, t, s', pc', w.calls[u].sum, w.calls[u].seen);
      } else if pc.Scan? {
        CountOfUpdate(w.calls, Raised, t, pc');
      }
    }
  }

  lemma {:induction false} EveryRunKeepsTotals(n: nat, run: seq<Action>)
    requires n > 0
    ensures After(n, run).Some? ==> TotalsInv(n, After(n, run).value)
    decreases |run|
  {
    if run == [] {
      LeftOfZeros(Init(n).shared.buckets, Unseen(n));
    } else {
      EveryRunKeepsTotals(n, run[..|run| - 1]);
      EveryRunKeepsWindow(n, run[..|run| - 1]);
      var before := After(n, run[..|run| - 1]);
      var a := run[|run| - 1];
      if before.Some? && Possible(n, before.value, a) {
        match a
        case Step(t, slot) => StepKeepsTotals(n, before.value, t, slot);
        case Begin(pc) => BeginKeepsTotals(n, before.value, pc);
      }
    }
  }

  lemma BeginKeepsTotals(n: nat, w: World, pc: Pc)
    requires TotalsInv(n, w) && Possible(n, w, Begin(pc))
    ensures TotalsInv(n, Apply(n, w, Begin(pc)))
  {
    var w' := Apply(n, w, Begin(pc));
    CountOfAppend(w.calls, Raised, pc);
    forall u | 0 <= u < |w'.calls| && w'.calls[u].Scan?
      ensures Bounded(w', w'.calls[u].sum, w'.calls[u].seen)
    {
      if u < |w.calls| { assert Bounded(w, w.calls[u].sum, w.calls[u].seen); }
    }
  }

  /** A reader that loads the buckets one by one, in any order, and totalSum last never sees a rolling sum above the
      total sum, whatever Incs and rolls happen in between. */
  lemma {:induction false} RollingSumIsAtMostTotal(n: nat, run: seq<Action>, t: nat)
    requires n > 0 && After(n, run).Some? && t < |After(n, run).value.calls| && After(n, run).value.calls[t].Read?
    ensures var reader := After(n, run).value.calls[t]; reader.sum <= reader.total
  {
    EveryRunKeepsTotals(n, run);
  }

  // ---- A reader that no roll overlaps ----

  lemma {:induction false} LeftOfUnseen(buckets: seq<int>, n: nat)
    requires |buckets| == n
    ensures Left(buckets, Unseen(n)) == Sum(buckets)
  {
    if n > 0 {
      assert Unseen(n)[..n - 1] == Unseen(n - 1);
      LeftOfUnseen(buckets[..n - 1], n - 1);
    }
  }

  lemma {:induction false} LeftOfSeen(buckets: seq<int>, seen: seq<bool>)
    requires |buckets| == |seen| && forall j :: 0 <= j < |seen| ==> seen[j]
    ensures Left(buckets, seen) == 0
  {
    if buckets != [] { LeftOfSeen(buckets[..|buckets| - 1], seen[..|buckets| - 1]); }
  }

  /** What a scan has come to, and may come to yet, lies between the sum at its start and the sum now. */
  predicate Between(w: World, t: nat, low: int) {
    && t < |w.calls| && low <= Sum(w.shared.buckets)
    && match w.calls[t]
       case Scan(sum, seen) =>
         && |seen| == |w.shared.buckets|
         && low <= sum + Left(w.shared.buckets, seen) <= Sum(w.shared.buckets)
       case Read(sum, _) => low <= sum <= Sum(w.shared.buckets)
       case _ => false
  }

  lemma ScanStaysBetween(n: nat, w: World, t: nat, slot: nat, low: int)
    requires Between(w, t, low) && Possible(n, w, Step(t, slot))
    ensures Between(Apply(n, w, Step(t, slot)), t, low)
  {
    if w.calls[t].Scan? {
      var seen := w.calls[t].seen;
      if slot < n && !seen[slot] {
        LeftOfSee(w.shared.buckets, seen, slot);
      } else if forall j :: 0 <= j < |seen| ==> seen[j] {
        LeftOfSeen(w.shared.buckets, seen);
      }
    }
  }

  lemma OthersStayBetween(n: nat, w: World, t: nat, u: nat, slot: nat, low: int)
    requires Between(w, t, low) && Possible(n, w, Step(u, slot)) && u != t
    requires Apply(n, w, Step(u, slot)).shared.cleared == w.shared.cleared
    ensures Between(Apply(n, w, Step(u, slot)), t, low)
  {
    var s := w.shared;
    if w.calls[u].Write? {
      var j := w.calls[u].a % n;
      SumOfUpdate(s.buckets, j, s.buckets[j] + 1);
      if w.calls[t].Scan? { LeftOfUpdate(s.buckets, w.calls[t].seen, j, s.buckets[j] + 1); }
    }
  }

  lemma ClearedGrows(n: nat, w: World, x: Action)
    requires Possible(n, w, x)
    ensures |w.shared.cleared| <= |Apply(n, w, x).shared.cleared|
    ensures |w.shared.cleared| == |Apply(n, w, x).shared.cleared| ==>
      w.shared.cleared == Apply(n, w, x).shared.cleared
  {}

  lemma {:induction false} ScanIsBetween(n: nat, run: seq<Action>, start: nat, t: nat)
    requires n > 0 && start <= |run| && After(n, run).Some? && After(n, run[..start]).Some?
    requires var w := After(n, run[..start]).value;
      t < |w.calls| && w.calls[t] == Scan(0, Unseen(n)) && |w.shared.buckets| == n
    requires |After(n, run).value.shared.cleared| <= |After(n, run[..start]).value.shared.cleared|
    ensures Between(After(n, run).value, t, Sum(After(n, run[..start]).value.shared.buckets))
    ensures After(n, run).value.shared.cleared == After(n, run[..start]).value.shared.cleared
    decreases |run|
  {
    var first := After(n, run[..start]).value;
    if start == |run| {
      assert run[..start] == run;
      LeftOfUnseen(first.shared.buckets, n);
    } else {
      var front, x := run[..|run| - 1], run[|run| - 1];
      assert front[..start] == run[..start];
      var w := After(n, front).value;
      ClearedGrows(n, w, x);
      ScanIsBetween(n, front, start, t);
      match x
      case Begin(_) =>
      case Step(u, slot) =>
        var low := Sum(first.shared.buckets);
        if u == t { ScanStaysBetween(n, w, t, slot, low); } else { OthersStayBetween(n, w, t, u, slot, low); }
    }
  }

  /** A rolling sum that is read while no roll clears anything, whatever Incs come meanwhile, lies between the sum of
      the buckets when the reader began to scan and the sum afterwards; if nothing overlaps, it is that sum. */
  lemma {:induction false} RollingSumIsBetween(n: nat, run: seq<Action>, start: nat, t: nat)
    requires n > 0 && start <= |run| && After(n, run).Some? && After(n, run[..start]).Some?
    ensures var w, w' := After(n, run[..start]).value, After(n, run).value;
      t < |w.calls| && w.calls[t] == Scan(0, Unseen(n)) && w'.shared.cleared == w.shared.cleared ==>
        && t < |w'.calls|
        && (w'.calls[t].Read? ==> Sum(w.shared.buckets) <= w'.calls[t].sum <= Sum(w'.shared.buckets))
  {
    var w, w' := After(n, run[..start]).value, After(n, run).value;
    EveryRunKeepsWindow(n, run[..start]);
    if t < |w.calls| && w.calls[t] == Scan(0, Unseen(n)) && w'.shared.cleared == w.shared.cleared {
      ScanIsBetween(n, run, start, t);
    }
  }
}
