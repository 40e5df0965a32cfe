/** RollingPercentile of faststats/rolling_percentile.go between any number of goroutines: AddDuration, and the reads of
    SnapshotAt, with the window protocol of RollingRace and the duration rings of DurationsRace running together. A roll
    clears a bucket in as many steps as that takes, while writers and readers go on. */
module PercentileRace {
  import opened Base
  import opened Counting
  import W = RollingRace
  import D = DurationsRace
  import RollingWindows

  /** `win.buckets` is bookkeeping here: how many slots each ring has handed out since it was last cleared. */
  datatype Shared = Shared(win: W.Shared, rings: seq<D.Shared>)

  /** A call is inside Advance, inside the clear of the bucket that a roll has come to, inside addDuration, or reads
      one bucket after the other; `parts` is what it has collected from those before, and with all of them that is its
      snapshot. */
  datatype Pc =
    | Finding(p: W.Pc)
    | Emptying(p: W.Pc, d: D.Pc)
    | Adding(a: int, d: D.Pc)
    | Reading(d: D.Pc, parts: seq<D.Pc>)

  datatype World = World(shared: Shared, calls: seq<Pc>)

  datatype Action = Begin(a: int, add: bool) | Step(call: nat)

  predicate Sized(n: nat, m: nat, s: Shared) {
    && W.Sized(n, s.win) && |s.rings| == n
    && forall j :: 0 <= j < n ==> D.Sized(m, s.rings[j])
  }

  /** The roll has one more bucket to clear. */
  predicate ToClear(n: nat, p: W.Pc) { p.Clearing? && p.i <= p.a && p.i <= p.base + n }

  /** The ring of absolute index a. */
  function Ring(n: nat, s: Shared, a: int): D.Shared
    requires n > 0 && |s.rings| == n
  {
    s.rings[a % n]
  }

  function WithRing(n: nat, s: Shared, a: int, r: D.Shared): Shared
    requires n > 0 && |s.rings| == n
  {
    s.(rings := s.rings[a % n := r])
  }

  function StepFinding(n: nat, m: nat, s: Shared, t: nat, p: W.Pc): (Shared, Pc)
    requires Sized(n, m, s)
  {
    if ToClear(n, p) then
      var (r, d) := D.StepCall(m, Ring(n, s, p.i), t, D.Begin);
      (WithRing(n, s, p.i, r), Emptying(p, d))
    else if p.Write? then
      var (r, d) := D.StepCall(m, Ring(n, s, p.a), t, D.Reserve);
      (WithRing(n, s, p.a, r).(win := W.WriteSlot(n, s.win, p.a)), Adding(p.a, d))
    else if p.Scan? then (s, Reading(D.ReadSize, []))
    else
      var (win, p') := W.StepCall(n, s.win, t, p, 0);
      (s.(win := win), Finding(p'))
  }

  function StepEmptying(n: nat, m: nat, s: Shared, t: nat, p: W.Pc, d: D.Pc): (Shared, Pc)
    requires Sized(n, m, s)
  {
    if !p.Clearing? then (s, Emptying(p, d))
    else
      var (r, d') := D.StepCall(m, Ring(n, s, p.i), t, d);
      if d'.Cleared? then (WithRing(n, s, p.i, r).(win := W.ClearSlot(n, s.win, p.i)), Finding(p.(i := p.i + 1)))
      else (WithRing(n, s, p.i, r), Emptying(p, d'))
  }

  function StepReading(n: nat, m: nat, s: Shared, t: nat, d: D.Pc, parts: seq<D.Pc>): Pc
    requires Sized(n, m, s)
  {
    if |parts| >= n then Reading(d, parts)
    else
      var d' := D.StepCall(m, s.rings[|parts|], t, d).1;
      if d'.Seen? then Reading(D.ReadSize, parts + [d']) else Reading(d', parts)
  }

  function StepCall(n: nat, m: nat, s: Shared, t: nat, pc: Pc): (Shared, Pc)
    requires Sized(n, m, s)
  {
    match pc
    case Finding(p) => StepFinding(n, m, s, t, p)
    case Emptying(p, d) => StepEmptying(n, m, s, t, p, d)
    case Adding(a, d) =>
      var (r, d') := D.StepCall(m, Ring(n, s, a), t, d);
      (WithRing(n, s, a, r), Adding(a, d'))
    case Reading(d, parts) => (s, StepReading(n, m, s, t, d, parts))
  }

  predicate Possible(n: nat, m: nat, w: World, x: Action) {
    && Sized(n, m, w.shared)
    && (x.Step? ==>
          && x.call < |w.calls|
          && (w.calls[x.call].Finding? && w.calls[x.call].p.WantLock? ==> w.shared.win.lock.None?))
  }

  function Apply(n: nat, m: nat, w: World, x: Action): World
    requires Possible(n, m, w, x)
  {
    match x
    case Begin(a, add) => w.(calls := w.calls + [Finding(W.FastPath(a, add))])
    case Step(t) =>
      var (s', pc') := StepCall(n, m, w.shared, t, w.calls[t]);
      World(s', w.calls[t := pc'])
  }

  function Init(n: nat, m: nat): World { World(Shared(W.Init(n).shared, seq(n, _ => D.Init(m).shared)), []) }

  function After(n: nat, m: nat, run: seq<Action>): Option<World>
    decreases |run|
  {
    if run == [] then Some(Init(n, m))
    else
      var before := After(n, m, run[..|run| - 1]);
      if before.Some? && Possible(n, m, before.value, run[|run| - 1])
      then Some(Apply(n, m, before.value, run[|run| - 1]))
      else None
  }

  // ---- The window and the rings, each with its own invariant ----

  /** Where the call is in the window protocol. */
  function WindowPc(pc: Pc): W.Pc {
    match pc
    case Finding(p) => p
    case Emptying(p, _) => p
    case _ => W.Done
  }

  /** Where it is in the ring of bucket j. */
  function RingPc(n: nat, j: nat, pc: Pc): D.Pc
    requires n > 0
  {
    match pc
    case Emptying(p, d) => if p.Clearing? && p.i % n == j then d else D.Cleared
    case Adding(a, d) => if a % n == j then d else D.Cleared
    case Reading(d, parts) => if j < |parts| then parts[j] else if j == |parts| then d else D.Cleared
    case _ => D.Cleared
  }

  ghost predicate WindowInv(n: nat, w: World) {
    && W.SlotsInv(n, w.shared.win) && W.RollInv(w.shared.win)
    && (forall t :: 0 <= t < |w.calls| ==> W.CallInv(n, w.shared.win, t, WindowPc(w.calls[t])))
    && (w.shared.win.lock.Some? ==> w.shared.win.lock.value < |w.calls|)
  }

  ghost predicate RingInv(n: nat, m: nat, s: Shared, j: nat, calls: seq<Pc>)
    requires n > 0 && j < |s.rings|
  {
    && D.SharedInv(m, s.rings[j])
    && (forall t :: 0 <= t < |calls| ==> D.PcInv(m, s.rings[j], t, RingPc(n, j, calls[t])))
    && (s.rings[j].clearing.Some? ==> s.rings[j].clearing.value < |calls|)
  }

  ghost predicate RingsInv(n: nat, m: nat, w: World) {
    && Sized(n, m, w.shared)
    && (forall j :: 0 <= j < n ==> RingInv(n, m, w.shared, j, w.calls))
    && (forall j :: 0 <= j < n ==> w.shared.rings[j].index == w.shared.win.buckets[j])
  }

  // ---- What ties a duration to its index ----

  /** How many clears had reset the index of the ring when the slot was reserved. */
  function Born(d: D.Pc): nat { if d.Store? then d.born else if d.Stored? then d.sample.born else 0 }

  /** A slot that was reserved since the last clear is counted for its index; one for an index that no roll has left
      behind was reserved since then. */
  predicate Tied(n: nat, s: Shared, a: int, born: nat)
    requires n > 0 && |s.rings| == n && |s.win.slots| == n
  {
    var resets := Ring(n, s, a).resets;
    && 0 <= a <= s.win.last && born <= resets
    && (born == resets ==> a in s.win.slots[a % n])
    && (s.win.frontier < a + n ==> born == resets)
  }

  predicate PcTied(n: nat, s: Shared, pc: Pc)
    requires n > 0 && |s.rings| == n && |s.win.slots| == n
  {
    match pc
    case Emptying(p, d) => ToClear(n, p) && d.Unset?
    case Adding(a, d) => (d.Store? || d.Stored?) && Tied(n, s, a, Born(d))
    case Reading(d, parts) =>
      |parts| <= n && (d.ReadSize? || d.Load?) && forall j :: 0 <= j < |parts| ==> parts[j].Seen?
    case _ => true
  }

  ghost predicate TiedInv(n: nat, w: World) {
    && n > 0 && |w.shared.rings| == n && |w.shared.win.slots| == n
    && forall t :: 0 <= t < |w.calls| ==> PcTied(n, w.shared, w.calls[t])
  }

  /** What any step does to the facts that tie durations to indices: bucket x is left alone but for more reservations,
      or it has been cleared, and the roll has left all its indices behind. */
  ghost predicate TiesKept(n: nat, s: Shared, s': Shared) {
    && n > 0 && |s.rings| == |s'.rings| == n && |s.win.slots| == |s'.win.slots| == n
    && s.win.last <= s'.win.last && s.win.frontier <= s'.win.frontier
    && forall x :: 0 <= x < n ==>
         if s'.rings[x].resets == s.rings[x].resets then s.win.slots[x] <= s'.win.slots[x]
         else s'.rings[x].resets > s.rings[x].resets
              && forall b :: b <= s.win.last && b % n == x ==> b + n <= s'.win.frontier
  }

  lemma TieIsKept(n: nat, s: Shared, s': Shared, pc: Pc)
    requires TiesKept(n, s, s') && PcTied(n, s, pc)
    ensures PcTied(n, s', pc)
  {
    if pc.Adding? { assert 0 <= pc.a % n < n; }
  }

  ghost predicate Inv(n: nat, m: nat, w: World) { WindowInv(n, w) && RingsInv(n, m, w) && TiedInv(n, w) }

  // ---- One step ----

  /** Everything that a step of call t has to keep, its own facts and those of the others. */
  ghost predicate Kept(n: nat, m: nat, s: Shared, s': Shared, t: nat, pc': Pc) {
    && W.Kept(n, s.win, s'.win, t, WindowPc(pc'))
    && Sized(n, m, s) && Sized(n, m, s')
    && (forall j :: 0 <= j < n ==> D.Kept(m, s.rings[j], s'.rings[j], t, RingPc(n, j, pc')))
    && (forall j :: 0 <= j < n && s'.rings[j].clearing.Some? ==>
          s'.rings[j].clearing == Some(t) || s'.rings[j].clearing == s.rings[j].clearing)
    && (forall j :: 0 <= j < n ==> s'.rings[j].index == s'.win.buckets[j])
    && TiesKept(n, s, s') && PcTied(n, s', pc')
  }

  lemma Install(n: nat, m: nat, w: World, t: nat, s': Shared, pc': Pc, w': World)
    requires Inv(n, m, w) && t < |w.calls| && Kept(n, m, w.shared, s', t, pc') && w' == World(s', w.calls[t := pc'])
    ensures Inv(n, m, w')
  {
    InstallWindow(n, w, t, s', pc', w');
    InstallRings(n, m, w, t, s', pc', w');
    forall u | 0 <= u < |w'.calls|
      ensures PcTied(n, s', w'.calls[u])
    {
      if u != t { TieIsKept(n, w.shared, s', w.calls[u]); }
    }
  }

  lemma InstallWindow(n: nat, w: World, t: nat, s': Shared, pc': Pc, w': World)
    requires WindowInv(n, w) && t < |w.calls| && W.Kept(n, w.shared.win, s'.win, t, WindowPc(pc'))
    requires w' == World(s', w.calls[t := pc'])
    ensures WindowInv(n, w')
  {
    if s'.win.lock.Some? { assert s'.win.lock.value == t || W.Rely(w.shared.win, s'.win, s'.win.lock.value); }
    forall u | 0 <= u < |w.calls| && u != t
      ensures W.CallInv(n, s'.win, u, WindowPc(w.calls[u]))
    {
      assert W.Rely(w.shared.win, s'.win, u);
      assert W.CallInv(n, w.shared.win, u, WindowPc(w.calls[u]));
    }
  }

  lemma InstallRings(n: nat, m: nat, w: World, t: nat, s': Shared, pc': Pc, w': World)
    requires RingsInv(n, m, w) && t < |w.calls| && Kept(n, m, w.shared, s', t, pc')
    requires w' == World(s', w.calls[t := pc'])
    ensures RingsInv(n, m, w')
  {
    forall j | 0 <= j < n
      ensures RingInv(n, m, s', j, w'.calls)
    {
      assert RingInv(n, m, w.shared, j, w.calls);
      assert D.Kept(m, w.shared.rings[j], s'.rings[j], t, RingPc(n, j, pc'));
      forall u | 0 <= u < |w'.calls|
        ensures D.PcInv(m, s'.rings[j], u, RingPc(n, j, w'.calls[u]))
      {
        if u != t { assert D.PcInv(m, w.shared.rings[j], u, RingPc(n, j, w.calls[u])); }
      }
    }
  }

  /** The facts that a step starts from. */
  ghost predicate Ready(n: nat, m: nat, s: Shared, t: nat, pc: Pc) {
    && Sized(n, m, s)
    && W.SlotsInv(n, s.win) && W.RollInv(s.win) && W.CallInv(n, s.win, t, WindowPc(pc))
    && (forall j :: 0 <= j < n ==> D.SharedInv(m, s.rings[j]) && D.PcInv(m, s.rings[j], t, RingPc(n, j, pc)))
    && (forall j :: 0 <= j < n ==> s.rings[j].index == s.win.buckets[j])
    && PcTied(n, s, pc)
  }

  lemma InvIsReady(n: nat, m: nat, w: World, t: nat)
    requires Inv(n, m, w) && t < |w.calls|
    ensures Ready(n, m, w.shared, t, w.calls[t])
  {
    forall j | 0 <= j < n
      ensures D.SharedInv(m, w.shared.rings[j]) && D.PcInv(m, w.shared.rings[j], t, RingPc(n, j, w.calls[t]))
    {
      assert RingInv(n, m, w.shared, j, w.calls);
    }
  }

  /** A ring that the step leaves alone. */
  lemma RingAlone(m: nat, r: D.Shared, t: nat, d: D.Pc)
    requires D.SharedInv(m, r) && D.PcInv(m, r, t, d)
    ensures D.Kept(m, r, r, t, d)
  {}

  /** Only the ring of index a changes, in a step of the ring. */
  lemma OneRing(n: nat, m: nat, s: Shared, t: nat, a: int, r: D.Shared, pc: Pc, pc': Pc)
    requires Sized(n, m, s) && D.Kept(m, Ring(n, s, a), r, t, RingPc(n, a % n, pc'))
    requires forall j :: 0 <= j < n ==> D.SharedInv(m, s.rings[j]) && D.PcInv(m, s.rings[j], t, RingPc(n, j, pc))
    requires forall j :: 0 <= j < n && j != a % n ==> RingPc(n, j, pc) == RingPc(n, j, pc') == D.Cleared
    ensures var s' := WithRing(n, s, a, r);
      forall j :: 0 <= j < n ==> D.Kept(m, s.rings[j], s'.rings[j], t, RingPc(n, j, pc'))
  {
    forall j | 0 <= j < n && j != a % n
      ensures D.Kept(m, s.rings[j], s.rings[j], t, D.Cleared)
    {
      assert D.PcInv(m, s.rings[j], t, RingPc(n, j, pc));
      RingAlone(m, s.rings[j], t, D.Cleared);
    }
  }

  /** Looking for the bucket, but not clearing one. */
  lemma FindingKept(n: nat, m: nat, s: Shared, t: nat, p: W.Pc)
    requires Ready(n, m, s, t, Finding(p)) && (p.WantLock? ==> s.win.lock.None?)
    requires !ToClear(n, p) && !p.Write? && !p.Scan?
    ensures var (s', pc') := StepFinding(n, m, s, t, p); Kept(n, m, s, s', t, pc')
  {
    W.StepKept(n, s.win, t, p, 0);
    var (s', pc') := StepFinding(n, m, s, t, p);
    forall j | 0 <= j < n
      ensures D.Kept(m, s.rings[j], s'.rings[j], t, RingPc(n, j, pc'))
    {
      assert D.PcInv(m, s.rings[j], t, RingPc(n, j, Finding(p)));
      RingAlone(m, s.rings[j], t, D.Cleared);
    }
  }

  lemma ClearBegins(n: nat, m: nat, s: Shared, t: nat, p: W.Pc)
    requires Ready(n, m, s, t, Finding(p)) && ToClear(n, p) && Ring(n, s, p.i).clearing.None?
    ensures var (s', pc') := StepFinding(n, m, s, t, p); Kept(n, m, s, s', t, pc')
  {
    var (r, d) := D.StepCall(m, Ring(n, s, p.i), t, D.Begin);
    assert D.PcInv(m, Ring(n, s, p.i), t, RingPc(n, p.i % n, Finding(p)));
    D.StepKept(m, Ring(n, s, p.i), t, D.Begin);
    OneRing(n, m, s, t, p.i, r, Finding(p), Emptying(p, d));
  }

  lemma ClearGoesOn(n: nat, m: nat, s: Shared, t: nat, p: W.Pc, d: D.Pc)
    requires Ready(n, m, s, t, Emptying(p, d)) && D.StepCall(m, Ring(n, s, p.i), t, d).1.Unset?
    ensures var (s', pc') := StepEmptying(n, m, s, t, p, d); Kept(n, m, s, s', t, pc')
  {
    var (r, d') := D.StepCall(m, Ring(n, s, p.i), t, d);
    assert D.PcInv(m, Ring(n, s, p.i), t, RingPc(n, p.i % n, Emptying(p, d)));
    D.StepKept(m, Ring(n, s, p.i), t, d);
    OneRing(n, m, s, t, p.i, r, Emptying(p, d), Emptying(p, d'));
  }

  /** The last step of a clear is where the window protocol sees the bucket cleared. */
  lemma ClearEnds(n: nat, m: nat, s: Shared, t: nat, p: W.Pc, d: D.Pc)
    requires Ready(n, m, s, t, Emptying(p, d)) && D.StepCall(m, Ring(n, s, p.i), t, d).1.Cleared?
    ensures var (s', pc') := StepEmptying(n, m, s, t, p, d); Kept(n, m, s, s', t, pc')
  {
    var (r, d') := D.StepCall(m, Ring(n, s, p.i), t, d);
    var (s', pc') := StepEmptying(n, m, s, t, p, d);
    assert D.PcInv(m, Ring(n, s, p.i), t, RingPc(n, p.i % n, Emptying(p, d)));
    D.StepKept(m, Ring(n, s, p.i), t, d);
    W.ClearKept(n, s.win, t, p.a, p.inc, p.base, p.i);
    OneRing(n, m, s, t, p.i, r, Emptying(p, d), pc');
    forall b | b <= s.win.last && b % n == p.i % n
      ensures b + n <= s'.win.frontier
    {
      W.NextIsAWindowLater(n, b, s.win.last, p.i);
    }
  }

  lemma ReserveKept(n: nat, m: nat, s: Shared, t: nat, a: int)
    requires Ready(n, m, s, t, Finding(W.Write(a)))
    ensures var (s', pc') := StepFinding(n, m, s, t, W.Write(a)); Kept(n, m, s, s', t, pc')
  {
    var (r, d) := D.StepCall(m, Ring(n, s, a), t, D.Reserve);
    assert D.PcInv(m, Ring(n, s, a), t, RingPc(n, a % n, Finding(W.Write(a))));
    D.StepKept(m, Ring(n, s, a), t, D.Reserve);
    W.WriteKept(n, s.win, t, a);
    OneRing(n, m, s, t, a, r, Finding(W.Write(a)), Adding(a, d));
  }

  lemma StoreKept(n: nat, m: nat, s: Shared, t: nat, a: int, d: D.Pc)
    requires Ready(n, m, s, t, Adding(a, d))
    ensures var (s', pc') := StepCall(n, m, s, t, Adding(a, d)); Kept(n, m, s, s', t, pc')
  {
    var (r, d') := D.StepCall(m, Ring(n, s, a), t, d);
    assert D.PcInv(m, Ring(n, s, a), t, RingPc(n, a % n, Adding(a, d)));
    D.StepKept(m, Ring(n, s, a), t, d);
    OneRing(n, m, s, t, a, r, Adding(a, d), Adding(a, d'));
  }

  lemma ReadingBegins(n: nat, m: nat, s: Shared, t: nat, p: W.Pc)
    requires Ready(n, m, s, t, Finding(p)) && p.Scan?
    ensures var (s', pc') := StepFinding(n, m, s, t, p); Kept(n, m, s, s', t, pc')
  {
    forall j | 0 <= j < n
      ensures D.Kept(m, s.rings[j], s.rings[j], t, RingPc(n, j, Reading(D.ReadSize, [])))
    {
      assert D.PcInv(m, s.rings[j], t, RingPc(n, j, Finding(p)));
      RingAlone(m, s.rings[j], t, RingPc(n, j, Reading(D.ReadSize, [])));
    }
  }

  lemma ReadingKept(n: nat, m: nat, s: Shared, t: nat, d: D.Pc, parts: seq<D.Pc>)
    requires Ready(n, m, s, t, Reading(d, parts))
    ensures Kept(n, m, s, s, t, StepReading(n, m, s, t, d, parts))
  {
    var pc' := StepReading(n, m, s, t, d, parts);
    if |parts| < n {
      assert D.PcInv(m, s.rings[|parts|], t, RingPc(n, |parts|, Reading(d, parts)));
      D.StepKept(m, s.rings[|parts|], t, d);
    }
    forall j | 0 <= j < n
      ensures D.Kept(m, s.rings[j], s.rings[j], t, RingPc(n, j, pc'))
    {
      assert D.PcInv(m, s.rings[j], t, RingPc(n, j, Reading(d, parts)));
      if j != |parts| { RingAlone(m, s.rings[j], t, RingPc(n, j, pc')); }
    }
  }

  lemma ClearerHoldsLock(n: nat, m: nat, w: World, j: nat)
    requires Inv(n, m, w) && j < n && w.shared.rings[j].clearing.Some?
    ensures var u := w.shared.rings[j].clearing.value;
      u < |w.calls| && w.calls[u].Emptying? && w.shared.win.lock == Some(u)
  {
    assert RingInv(n, m, w.shared, j, w.calls);
    var u := w.shared.rings[j].clearing.value;
    assert D.PcInv(m, w.shared.rings[j], u, RingPc(n, j, w.calls[u]));
    assert W.CallInv(n, w.shared.win, u, WindowPc(w.calls[u])) && PcTied(n, w.shared, w.calls[u]);
  }

  /** Clears of one ring exclude each other: only the roll that holds the lock clears. */
  lemma ClearsExclude(n: nat, m: nat, w: World, t: nat)
    requires Inv(n, m, w) && t < |w.calls| && w.calls[t].Finding? && ToClear(n, w.calls[t].p)
    ensures Ring(n, w.shared, w.calls[t].p.i).clearing.None?
  {
    var j := w.calls[t].p.i % n;
    assert W.CallInv(n, w.shared.win, t, WindowPc(w.calls[t]));
    if w.shared.rings[j].clearing.Some? { ClearerHoldsLock(n, m, w, j); }
  }

  lemma StepKept(n: nat, m: nat, w: World, t: nat)
    requires Inv(n, m, w) && Possible(n, m, w, Step(t))
    ensures var (s', pc') := StepCall(n, m, w.shared, t, w.calls[t]); Kept(n, m, w.shared, s', t, pc')
  {
    var s := w.shared;
    InvIsReady(n, m, w, t);
    match w.calls[t]
    case Finding(p) =>
      if ToClear(n, p) {
        ClearsExclude(n, m, w, t);
        ClearBegins(n, m, s, t, p);
      } else if p.Write? {
        ReserveKept(n, m, s, t, p.a);
      } else if p.Scan? {
        ReadingBegins(n, m, s, t, p);
      } else {
        FindingKept(n, m, s, t, p);
      }
    case Emptying(p, d) =>
      if D.StepCall(m, Ring(n, s, p.i), t, d).1.Unset? {
        ClearGoesOn(n, m, s, t, p, d);
      } else {
        ClearEnds(n, m, s, t, p, d);
      }
    case Adding(a, d) => StoreKept(n, m, s, t, a, d);
    case Reading(d, parts) => ReadingKept(n, m, s, t, d, parts);
  }

  lemma BeginKeepsInv(n: nat, m: nat, w: World, a: int, add: bool)
    requires Inv(n, m, w)
    ensures Inv(n, m, w.(calls := w.calls + [Finding(W.FastPath(a, add))]))
  {
    var calls := w.calls + [Finding(W.FastPath(a, add))];
    forall j | 0 <= j < n
      ensures RingInv(n, m, w.shared, j, calls)
    {
      assert RingInv(n, m, w.shared, j, w.calls);
    }
  }

  lemma ActionKeepsInv(n: nat, m: nat, w: World, x: Action)
    requires Inv(n, m, w) && Possible(n, m, w, x)
    ensures Inv(n, m, Apply(n, m, w, x))
  {
    match x
    case Begin(a, add) => BeginKeepsInv(n, m, w, a, add);
    case Step(t) =>
      StepKept(n, m, w, t);
      var (s', pc') := StepCall(n, m, w.shared, t, w.calls[t]);
      Install(n, m, w, t, s', pc', Apply(n, m, w, x));
  }

  lemma {:induction false} EveryRunKeepsInv(n: nat, m: nat, run: seq<Action>)
    requires n > 0 && m > 0 && After(n, m, run).Some?
    ensures Inv(n, m, After(n, m, run).value)
    decreases |run|
  {
    if run != [] {
      EveryRunKeepsInv(n, m, run[..|run| - 1]);
      ActionKeepsInv(n, m, After(n, m, run[..|run| - 1]).value, run[|run| - 1]);
    }
  }

  // ---- Every duration is added ----

  function Begun(run: seq<Action>, a: int): nat { Count(run, (x: Action) => x == Begin(a, true)) }

  /** An AddDuration for index a that has no slot yet. */
  predicate UnderWay(pc: Pc, a: int) { W.UnderWay(WindowPc(pc), a) }

  function Pending(w: World, a: int): nat { Count(w.calls, (pc: Pc) => UnderWay(pc, a)) }

  ghost predicate Accounted(n: nat, w: World, a: int, begun: nat) {
    w.shared.win.frontier < a + n ==> begun == w.shared.win.written[a] + Pending(w, a)
  }

  lemma AddGoesOn(n: nat, m: nat, w: World, t: nat, a: int)
    requires Inv(n, m, w) && Possible(n, m, w, Step(t)) && a >= 0
    requires StepCall(n, m, w.shared, t, w.calls[t]).0.win.frontier < a + n
    ensures var (s', pc') := StepCall(n, m, w.shared, t, w.calls[t]);
      && w.shared.win.frontier <= s'.win.frontier
      && s'.win.written[a] + (if UnderWay(pc', a) then 1 else 0) ==
           w.shared.win.written[a] + (if UnderWay(w.calls[t], a) then 1 else 0)
  {
    InvIsReady(n, m, w, t);
    var s, pc := w.shared, w.calls[t];
    if pc.Finding? && !ToClear(n, pc.p) { W.IncGoesOn(n, s.win, t, pc.p, 0, a); }
  }

  lemma ActionKeepsAccount(n: nat, m: nat, w: World, x: Action, a: int, begun: nat)
    requires Inv(n, m, w) && Possible(n, m, w, x) && a >= 0 && Accounted(n, w, a, begun)
    ensures Accounted(n, Apply(n, m, w, x), a, begun + if x == Begin(a, true) then 1 else 0)
  {
    var p := (pc: Pc) => UnderWay(pc, a);
    match x
    case Begin(b, add) => CountOfAppend(w.calls, p, Finding(W.FastPath(b, add)));
    case Step(t) =>
      var (s', pc') := StepCall(n, m, w.shared, t, w.calls[t]);
      if s'.win.frontier < a + n { AddGoesOn(n, m, w, t, a); }
      CountOfUpdate(w.calls, p, t, pc');
  }

  /** As long as no roll leaves index a behind, every AddDuration that was begun for it has been given a slot in the
      ring of a, or is still on its way there. */
  lemma {:induction false} NoAddIsDropped(n: nat, m: nat, run: seq<Action>, a: int)
    requires n > 0 && m > 0 && After(n, m, run).Some? && a >= 0
    ensures Accounted(n, After(n, m, run).value, a, Begun(run, a))
    decreases |run|
  {
    if run != [] {
      var front, x := run[..|run| - 1], run[|run| - 1];
      NoAddIsDropped(n, m, front, a);
      EveryRunKeepsInv(n, m, front);
      ActionKeepsAccount(n, m, After(n, m, front).value, x, a, Begun(front, a));
    }
  }

  /** As long as no roll leaves its index behind, or is about to, a stored duration is in its slot, or one that was
      reserved for that slot too and stored after it; the slot is one that readers look at; and no clear overtook its
      writer. */
  lemma {:induction false} LiveDurationsAreKept(n: nat, m: nat, run: seq<Action>, t: nat)
    requires n > 0 && m > 0 && After(n, m, run).Some? && t < |After(n, m, run).value.calls|
    requires var w := After(n, m, run).value; w.calls[t].Adding? && w.calls[t].d.Stored?
    ensures var w := After(n, m, run).value; var pc := w.calls[t];
      && Sized(n, m, w.shared)
      && (w.shared.win.frontier < pc.a + n && Ring(n, w.shared, pc.a).clearing.None? ==>
            && D.Holds(Ring(n, w.shared, pc.a), D.Slot(m, pc.d.k), pc.d.sample)
            && D.Slot(m, Ring(n, w.shared, pc.a).slots[D.Slot(m, pc.d.k)].value.k) == D.Slot(m, pc.d.k)
            && D.Slot(m, pc.d.k) < Min(Ring(n, w.shared, pc.a).index, m)
            && !D.Overtaken(pc.d.sample))
  {
    EveryRunKeepsInv(n, m, run);
    var w := After(n, m, run).value;
    var pc := w.calls[t];
    InvIsReady(n, m, w, t);
    var r := Ring(n, w.shared, pc.a);
    assert D.PcInv(m, r, t, RingPc(n, pc.a % n, pc));
    if w.shared.win.frontier < pc.a + n && r.clearing.None? { D.SlotIsUsed(m, pc.d.k, r.index); }
  }

  // ---- What a bucket holds, and for which index ----

  /** The duration was stored by the call that it names, in bucket j. */
  predicate StoredIn(n: nat, calls: seq<Pc>, j: nat, v: D.Sample)
    requires n > 0
  {
    && v.call < |calls| && calls[v.call].Adding? && calls[v.call].a % n == j
    && calls[v.call].d.Stored? && calls[v.call].d.sample == v
  }

  ghost predicate RingGenuine(n: nat, m: nat, r: D.Shared, j: nat, calls: seq<Pc>)
    requires n > 0 && D.Sized(m, r)
  {
    forall i :: 0 <= i < m && r.slots[i].Some? ==> StoredIn(n, calls, j, r.slots[i].value)
  }

  /** What a reader has collected from bucket j. */
  ghost predicate PartGenuine(n: nat, calls: seq<Pc>, j: nat, d: D.Pc)
    requires n > 0
  {
    d.Load? || d.Seen? ==> forall v :: v in d.got ==> StoredIn(n, calls, j, v)
  }

  ghost predicate ReaderGenuine(n: nat, calls: seq<Pc>, pc: Pc)
    requires n > 0
  {
    pc.Reading? ==> forall j :: 0 <= j < n ==> PartGenuine(n, calls, j, RingPc(n, j, pc))
  }

  ghost predicate Genuine(n: nat, m: nat, w: World) {
    && Sized(n, m, w.shared)
    && (forall j :: 0 <= j < n ==> RingGenuine(n, m, w.shared.rings[j], j, w.calls))
    && (forall t :: 0 <= t < |w.calls| ==> ReaderGenuine(n, w.calls, w.calls[t]))
  }

  /** Calls that have stored stay where they are. */
  ghost predicate StoredStay(n: nat, calls: seq<Pc>, calls': seq<Pc>) {
    n > 0 && forall j, v :: StoredIn(n, calls, j, v) ==> StoredIn(n, calls', j, v)
  }

  lemma ReaderStaysGenuine(n: nat, calls: seq<Pc>, calls': seq<Pc>, pc: Pc)
    requires StoredStay(n, calls, calls') && ReaderGenuine(n, calls, pc)
    ensures ReaderGenuine(n, calls', pc)
  {
    if pc.Reading? {
      forall j | 0 <= j < n
        ensures PartGenuine(n, calls', j, RingPc(n, j, pc))
      {
        assert PartGenuine(n, calls, j, RingPc(n, j, pc));
      }
    }
  }

  lemma RingsStayGenuine(n: nat, m: nat, w: World, calls': seq<Pc>)
    requires Genuine(n, m, w) && StoredStay(n, w.calls, calls')
    ensures forall j :: 0 <= j < n ==> RingGenuine(n, m, w.shared.rings[j], j, calls')
  {
    forall j | 0 <= j < n
      ensures RingGenuine(n, m, w.shared.rings[j], j, calls')
    {
      assert RingGenuine(n, m, w.shared.rings[j], j, w.calls);
    }
  }

  lemma ReadingKeepsGenuine(n: nat, m: nat, w: World, t: nat, calls': seq<Pc>)
    requires Genuine(n, m, w) && t < |w.calls| && w.calls[t].Reading? && StoredStay(n, w.calls, calls')
    ensures ReaderGenuine(n, calls', StepReading(n, m, w.shared, t, w.calls[t].d, w.calls[t].parts))
  {
    var pc := w.calls[t];
    var pc' := StepReading(n, m, w.shared, t, pc.d, pc.parts);
    ReaderStaysGenuine(n, w.calls, calls', pc);
    RingsStayGenuine(n, m, w, calls');
    forall j | 0 <= j < n
      ensures PartGenuine(n, calls', j, RingPc(n, j, pc'))
    {
      assert PartGenuine(n, calls', j, RingPc(n, j, pc)) && RingGenuine(n, m, w.shared.rings[j], j, calls');
    }
  }

  /** The call's own step in a ring: it empties a slot, or it stores what it then names. */
  lemma RingStepKeepsGenuine(n: nat, m: nat, r: D.Shared, j: nat, t: nat, d: D.Pc, calls': seq<Pc>)
    requires n > 0 && D.Sized(m, r) && RingGenuine(n, m, r, j, calls') && t < |calls'|
    requires d.Store? ==> var (_, d') := D.StepCall(m, r, t, d); StoredIn(n, calls', j, d'.sample)
    ensures D.Sized(m, D.StepCall(m, r, t, d).0) && RingGenuine(n, m, D.StepCall(m, r, t, d).0, j, calls')
  {}

  lemma StepKeepsRingsGenuine(n: nat, m: nat, w: World, t: nat, w': World)
    requires Genuine(n, m, w) && TiedInv(n, w) && Possible(n, m, w, Step(t)) && w' == Apply(n, m, w, Step(t))
    requires StoredStay(n, w.calls, w'.calls)
    ensures Sized(n, m, w'.shared)
    ensures forall j :: 0 <= j < n ==> RingGenuine(n, m, w'.shared.rings[j], j, w'.calls)
  {
    RingsStayGenuine(n, m, w, w'.calls);
    assert PcTied(n, w.shared, w.calls[t]);
    match w.calls[t]
    case Finding(p) =>
      if ToClear(n, p) {
        RingStepKeepsGenuine(n, m, Ring(n, w.shared, p.i), p.i % n, t, D.Begin, w'.calls);
      } else if p.Write? {
        RingStepKeepsGenuine(n, m, Ring(n, w.shared, p.a), p.a % n, t, D.Reserve, w'.calls);
      }
    case Emptying(p, d) => RingStepKeepsGenuine(n, m, Ring(n, w.shared, p.i), p.i % n, t, d, w'.calls);
    case Adding(a, d) => RingStepKeepsGenuine(n, m, Ring(n, w.shared, a), a % n, t, d, w'.calls);
    case Reading(_, _) =>
  }

  lemma StepLetsStoredStay(n: nat, m: nat, w: World, t: nat)
    requires Possible(n, m, w, Step(t))
    ensures StoredStay(n, w.calls, Apply(n, m, w, Step(t)).calls)
  {}

  lemma StepKeepsGenuine(n: nat, m: nat, w: World, t: nat, w': World)
    requires Genuine(n, m, w) && TiedInv(n, w) && Possible(n, m, w, Step(t)) && w' == Apply(n, m, w, Step(t))
    ensures Genuine(n, m, w')
  {
    StepLetsStoredStay(n, m, w, t);
    StepKeepsRingsGenuine(n, m, w, t, w');
    forall u | 0 <= u < |w'.calls|
      ensures ReaderGenuine(n, w'.calls, w'.calls[u])
    {
      if u != t {
        ReaderStaysGenuine(n, w.calls, w'.calls, w.calls[u]);
      } else if w.calls[t].Reading? {
        ReadingKeepsGenuine(n, m, w, t, w'.calls);
      }
    }
  }

  lemma BeginKeepsGenuine(n: nat, m: nat, w: World, pc: Pc)
    requires Genuine(n, m, w) && n > 0 && !pc.Reading?
    ensures Genuine(n, m, w.(calls := w.calls + [pc]))
  {
    var calls' := w.calls + [pc];
    assert StoredStay(n, w.calls, calls');
    RingsStayGenuine(n, m, w, calls');
    forall u | 0 <= u < |w.calls|
      ensures ReaderGenuine(n, calls', calls'[u])
    {
      ReaderStaysGenuine(n, w.calls, calls', w.calls[u]);
    }
  }

  /** Each bucket holds, and readers collect, nothing but durations that some call has stored: a bucket only those for
      an index of its own. */
  lemma {:induction false} SnapshotsAreGenuine(n: nat, m: nat, run: seq<Action>)
    requires n > 0 && m > 0 && After(n, m, run).Some?
    ensures Genuine(n, m, After(n, m, run).value)
    decreases |run|
  {
    if run != [] {
      var front, x := run[..|run| - 1], run[|run| - 1];
      SnapshotsAreGenuine(n, m, front);
      EveryRunKeepsInv(n, m, front);
      var w := After(n, m, front).value;
      match x
      case Begin(a, add) => BeginKeepsGenuine(n, m, w, Finding(W.FastPath(a, add)));
      case Step(t) => StepKeepsGenuine(n, m, w, t, Apply(n, m, w, x));
    }
  }

  /** The index that a stored duration was added for. */
  function IndexOf(calls: seq<Pc>, v: D.Sample): int
    requires v.call < |calls| && calls[v.call].Adding?
  {
    calls[v.call].a
  }

  lemma SampleIsTied(n: nat, m: nat, w: World, a: int, v: D.Sample)
    requires Inv(n, m, w) && StoredIn(n, w.calls, a % n, v) && v.born == Ring(n, w.shared, a).resets
    requires 0 <= a <= w.shared.win.last && w.shared.win.frontier < a + n && !w.shared.win.late[a % n]
    ensures IndexOf(w.calls, v) == a
  {
    var win := w.shared.win;
    var b := IndexOf(w.calls, v);
    assert PcTied(n, w.shared, w.calls[v.call]);
    assert W.LateMeans(n, win.slots[a % n], win.late[a % n], win.frontier);
    if b != a { RollingWindows.SlotsDiffer(Min(a, b), Max(a, b), n); }
  }

  /** The bucket of an index of the window has handed out exactly the slots for that index, exactly if no AddDuration
      came a window late since it was cleared. Then all that it holds is for that index, but for durations whose writer
      a clear overtook between the reservation and the store. */
  lemma {:induction false} BucketsAreOfTheirIndex(n: nat, m: nat, run: seq<Action>, a: int)
    requires n > 0 && m > 0 && After(n, m, run).Some?
    requires var win := After(n, m, run).value.shared.win; 0 <= a <= win.last && win.frontier < a + n
    ensures var w := After(n, m, run).value;
      && Sized(n, m, w.shared)
      && (Ring(n, w.shared, a).index == w.shared.win.written[a] <==> !w.shared.win.late[a % n])
      && (!w.shared.win.late[a % n] ==> forall v :: Some(v) in Ring(n, w.shared, a).slots ==>
            StoredIn(n, w.calls, a % n, v) && (IndexOf(w.calls, v) == a || D.Overtaken(v)))
  {
    EveryRunKeepsInv(n, m, run);
    SnapshotsAreGenuine(n, m, run);
    var w := After(n, m, run).value;
    var r := Ring(n, w.shared, a);
    W.MarksAreExact(n, w.shared.win, a);
    if !w.shared.win.late[a % n] {
      forall v | Some(v) in r.slots
        ensures StoredIn(n, w.calls, a % n, v) && (IndexOf(w.calls, v) == a || D.Overtaken(v))
      {
        assert RingInv(n, m, w.shared, a % n, w.calls) && RingGenuine(n, m, r, a % n, w.calls);
        var i :| 0 <= i < m && r.slots[i] == Some(v);
        assert D.SampleInv(m, r, i, v);
        if !D.Overtaken(v) { SampleIsTied(n, m, w, a, v); }
      }
    }
  }

  // ---- At rest ----

  /** The call was handed slot number k of bucket j since that was last cleared. */
  predicate Reserved(n: nat, s: Shared, pc: Pc, j: nat, k: nat)
    requires n > 0 && j < |s.rings|
  {
    && pc.Adding? && pc.a % n == j && (pc.d.Store? || pc.d.Stored?)
    && pc.d.k == k && Born(pc.d) == s.rings[j].resets
  }

  ghost predicate HasOwner(n: nat, s: Shared, calls: seq<Pc>, j: nat, k: nat)
    requires n > 0 && j < |s.rings|
  {
    exists t :: 0 <= t < |calls| && Reserved(n, s, calls[t], j, k)
  }

  ghost predicate Covered(n: nat, s: Shared, calls: seq<Pc>, j: nat)
    requires n > 0 && j < |s.rings|
  {
    forall k: nat :: k < s.rings[j].index ==> HasOwner(n, s, calls, j, k)
  }

  /** What a step of call t does to bucket j: it stays as it is, or it is cleared, or t is handed the next slot. */
  ghost predicate HandsOut(n: nat, s: Shared, s': Shared, j: nat, pc: Pc, pc': Pc)
    requires n > 0 && j < |s.rings| == |s'.rings|
  {
    || s'.rings[j].index == 0
    || (&& s'.rings[j].resets == s.rings[j].resets
        && (s'.rings[j].index == s.rings[j].index
            || (s'.rings[j].index == s.rings[j].index + 1 && Reserved(n, s', pc', j, s.rings[j].index)))
        && (forall k: nat :: Reserved(n, s, pc, j, k) ==> Reserved(n, s', pc', j, k))
        && (forall k: nat :: Reserved(n, s', pc', j, k) ==>
              Reserved(n, s, pc, j, k) || (k == s.rings[j].index && s'.rings[j].index == k + 1)))
  }

  lemma FindingHandsOut(n: nat, m: nat, s: Shared, t: nat, p: W.Pc, j: nat)
    requires Sized(n, m, s) && j < n
    ensures var (s', pc') := StepFinding(n, m, s, t, p); HandsOut(n, s, s', j, Finding(p), pc')
  {}

  lemma EmptyingHandsOut(n: nat, m: nat, s: Shared, t: nat, p: W.Pc, d: D.Pc, j: nat)
    requires Sized(n, m, s) && j < n && d.Unset?
    ensures var (s', pc') := StepEmptying(n, m, s, t, p, d); HandsOut(n, s, s', j, Emptying(p, d), pc')
  {}

  lemma AddingHandsOut(n: nat, m: nat, s: Shared, t: nat, a: int, d: D.Pc, j: nat)
    requires Sized(n, m, s) && j < n && (d.Store? || d.Stored?)
    ensures var (s', pc') := StepCall(n, m, s, t, Adding(a, d)); HandsOut(n, s, s', j, Adding(a, d), pc')
  {}

  lemma StepHandsOut(n: nat, m: nat, w: World, t: nat, j: nat)
    requires Inv(n, m, w) && Possible(n, m, w, Step(t)) && j < n
    ensures var (s', pc') := StepCall(n, m, w.shared, t, w.calls[t]); HandsOut(n, w.shared, s', j, w.calls[t], pc')
  {
    assert PcTied(n, w.shared, w.calls[t]);
    match w.calls[t]
    case Finding(p) => FindingHandsOut(n, m, w.shared, t, p, j);
    case Emptying(p, d) => EmptyingHandsOut(n, m, w.shared, t, p, d, j);
    case Adding(a, d) => AddingHandsOut(n, m, w.shared, t, a, d, j);
    case Reading(_, _) =>
  }

  lemma StepKeepsCovered(n: nat, w: World, s': Shared, t: nat, pc': Pc, j: nat)
    requires n > 0 && j < |w.shared.rings| == |s'.rings| && t < |w.calls|
    requires Covered(n, w.shared, w.calls, j) && HandsOut(n, w.shared, s', j, w.calls[t], pc')
    ensures Covered(n, s', w.calls[t := pc'], j)
  {
    var calls' := w.calls[t := pc'];
    forall k: nat | k < s'.rings[j].index
      ensures HasOwner(n, s', calls', j, k)
    {
      if k < w.shared.rings[j].index {
        assert HasOwner(n, w.shared, w.calls, j, k);
        var u :| 0 <= u < |w.calls| && Reserved(n, w.shared, w.calls[u], j, k);
        assert Reserved(n, s', calls'[u], j, k);
      } else {
        assert Reserved(n, s', calls'[t], j, k);
      }
    }
  }

  lemma BeginKeepsCovered(n: nat, w: World, pc: Pc, j: nat)
    requires n > 0 && j < |w.shared.rings| && Covered(n, w.shared, w.calls, j)
    ensures Covered(n, w.shared, w.calls + [pc], j)
  {
    var calls' := w.calls + [pc];
    forall k: nat | k < w.shared.rings[j].index
      ensures HasOwner(n, w.shared, calls', j, k)
    {
      assert HasOwner(n, w.shared, w.calls, j, k);
      var u :| 0 <= u < |w.calls| && Reserved(n, w.shared, w.calls[u], j, k);
      assert Reserved(n, w.shared, calls'[u], j, k);
    }
  }

  /** Every slot that a ring has handed out since it was last cleared belongs to a call. */
  lemma {:induction false} EverySlotIsCovered(n: nat, m: nat, run: seq<Action>, j: nat)
    requires n > 0 && m > 0 && After(n, m, run).Some? && j < n
    ensures |After(n, m, run).value.shared.rings| == n
    ensures Covered(n, After(n, m, run).value.shared, After(n, m, run).value.calls, j)
    decreases |run|
  {
    EveryRunKeepsInv(n, m, run);
    if run != [] {
      var front, x := run[..|run| - 1], run[|run| - 1];
      EverySlotIsCovered(n, m, front, j);
      EveryRunKeepsInv(n, m, front);
      var w, w' := After(n, m, front).value, After(n, m, run).value;
      match x
      case Begin(b, add) => BeginKeepsCovered(n, w, Finding(W.FastPath(b, add)), j);
      case Step(t) =>
        StepHandsOut(n, m, w, t, j);
        StepKeepsCovered(n, w, w'.shared, t, w'.calls[t], j);
    }
  }

  /** No number is handed to two calls. */
  ghost predicate Single(n: nat, s: Shared, calls: seq<Pc>, j: nat)
    requires n > 0 && j < |s.rings|
  {
    forall t, u, k: nat ::
      0 <= t < |calls| && 0 <= u < |calls| && Reserved(n, s, calls[t], j, k) && Reserved(n, s, calls[u], j, k) ==>
        t == u
  }

  lemma NumbersAreInRange(n: nat, m: nat, w: World, t: nat, j: nat, k: nat)
    requires Inv(n, m, w) && t < |w.calls| && j < n && Reserved(n, w.shared, w.calls[t], j, k)
    ensures k < w.shared.rings[j].index
  {
    assert RingInv(n, m, w.shared, j, w.calls);
    assert D.PcInv(m, w.shared.rings[j], t, RingPc(n, j, w.calls[t]));
  }

  /** A number that another call has before the step of call t. */
  lemma OthersNumber(n: nat, m: nat, w: World, w': World, t: nat, u: nat, j: nat, k: nat)
    requires Inv(n, m, w) && Inv(n, m, w') && j < n && t < |w.calls| == |w'.calls| && u < |w.calls| && u != t
    requires w'.calls[u] == w.calls[u] && HandsOut(n, w.shared, w'.shared, j, w.calls[t], w'.calls[t])
    requires Reserved(n, w'.shared, w'.calls[u], j, k)
    ensures Reserved(n, w.shared, w.calls[u], j, k) && k < w.shared.rings[j].index
    ensures Reserved(n, w'.shared, w'.calls[t], j, k) ==> Reserved(n, w.shared, w.calls[t], j, k)
  {
    NumbersAreInRange(n, m, w', u, j, k);
    NumbersAreInRange(n, m, w, u, j, k);
  }

  lemma StepKeepsSingle(n: nat, m: nat, w: World, w': World, t: nat, pc': Pc, j: nat)
    requires Inv(n, m, w) && Inv(n, m, w') && j < n && t < |w.calls| && w'.calls == w.calls[t := pc']
    requires Single(n, w.shared, w.calls, j) && HandsOut(n, w.shared, w'.shared, j, w.calls[t], pc')
    ensures Single(n, w'.shared, w'.calls, j)
  {
    forall u, v, k: nat | 0 <= u < |w'.calls| && 0 <= v < |w'.calls|
                          && Reserved(n, w'.shared, w'.calls[u], j, k) && Reserved(n, w'.shared, w'.calls[v], j, k)
      ensures u == v
    {
      if u != t { OthersNumber(n, m, w, w', t, u, j, k); }
      if v != t { OthersNumber(n, m, w, w', t, v, j, k); }
    }
  }

  lemma {:induction false} EveryNumberIsHandedOutOnce(n: nat, m: nat, run: seq<Action>, j: nat)
    requires n > 0 && m > 0 && After(n, m, run).Some? && j < n
    ensures |After(n, m, run).value.shared.rings| == n
    ensures Single(n, After(n, m, run).value.shared, After(n, m, run).value.calls, j)
    decreases |run|
  {
    EveryRunKeepsInv(n, m, run);
    if run != [] {
      var front, x := run[..|run| - 1], run[|run| - 1];
      EveryNumberIsHandedOutOnce(n, m, front, j);
      EveryRunKeepsInv(n, m, front);
      var w, w' := After(n, m, front).value, After(n, m, run).value;
      if x.Step? {
        StepHandsOut(n, m, w, x.call, j);
        StepKeepsSingle(n, m, w, w', x.call, w'.calls[x.call], j);
      }
    }
  }

  /** No AddDuration has a slot of bucket j and is still to store. */
  ghost predicate AllStored(n: nat, calls: seq<Pc>, j: nat)
    requires n > 0
  {
    forall t :: 0 <= t < |calls| && calls[t].Adding? && calls[t].a % n == j ==> calls[t].d.Stored?
  }

  lemma Small(k: nat, m: nat)
    requires k < m
    ensures k % m == k
  {}

  /** A call that was handed its slot since the last clear has set it. */
  lemma StoredIsSet(m: nat, r: D.Shared, t: nat, k: nat, v: D.Sample)
    requires D.SharedInv(m, r) && D.PcInv(m, r, t, D.Stored(k, v)) && r.clearing.None? && v.born == r.resets && k < m
    ensures r.slots[k].Some?
  {
    Small(k, m);
  }

  lemma SlotIsFull(n: nat, m: nat, w: World, j: nat, i: nat)
    requires Inv(n, m, w) && j < n && Covered(n, w.shared, w.calls, j) && AllStored(n, w.calls, j)
    requires w.shared.rings[j].clearing.None? && i < Min(w.shared.rings[j].index, m)
    ensures w.shared.rings[j].slots[i].Some?
  {
    var r := w.shared.rings[j];
    assert HasOwner(n, w.shared, w.calls, j, i);
    var t :| 0 <= t < |w.calls| && Reserved(n, w.shared, w.calls[t], j, i);
    assert PcTied(n, w.shared, w.calls[t]);
    var pc := w.calls[t];
    assert pc.d == D.Stored(i, pc.d.sample) && RingPc(n, j, pc) == pc.d;
    assert RingInv(n, m, w.shared, j, w.calls);
    StoredIsSet(m, r, t, i, pc.d.sample);
  }

  /** Index a is in the window, no AddDuration for it is under way, and no clear or store in its bucket; and none came a
      window late since that was last cleared. */
  ghost predicate Quiet(n: nat, m: nat, w: World, a: int) {
    && Sized(n, m, w.shared)
    && 0 <= a <= w.shared.win.last && w.shared.win.frontier < a + n && !w.shared.win.late[a % n]
    && Pending(w, a) == 0 && AllStored(n, w.calls, a % n) && Ring(n, w.shared, a).clearing.None?
  }

  /** Readers find the first `count` slots of the bucket set, up to its size. Each of them holds a duration that was
      reserved for it, and but for durations that a clear overtook these are of index a and since the last clear. */
  ghost predicate Shows(n: nat, m: nat, w: World, a: int, count: nat)
    requires Sized(n, m, w.shared)
  {
    var r := Ring(n, w.shared, a);
    && r.index == count
    && forall i :: 0 <= i < Min(count, m) ==>
         && r.slots[i].Some? && StoredIn(n, w.calls, a % n, r.slots[i].value) && r.slots[i].value.k % m == i
         && (D.Overtaken(r.slots[i].value) || (IndexOf(w.calls, r.slots[i].value) == a && r.slots[i].value.k < count))
  }

  /** A quiet bucket has handed out as many slots as AddDurations were begun for its index, and shows them all. */
  lemma {:induction false} QuietBucketsAreExact(n: nat, m: nat, run: seq<Action>, a: int)
    requires n > 0 && m > 0 && After(n, m, run).Some?
    ensures var w := After(n, m, run).value; Quiet(n, m, w, a) ==> Shows(n, m, w, a, Begun(run, a))
  {
    var w := After(n, m, run).value;
    if Quiet(n, m, w, a) {
      var r := Ring(n, w.shared, a);
      EveryRunKeepsInv(n, m, run);
      EverySlotIsCovered(n, m, run, a % n);
      BucketsAreOfTheirIndex(n, m, run, a);
      NoAddIsDropped(n, m, run, a);
      forall i | 0 <= i < Min(r.index, m)
        ensures r.slots[i].Some? && Some(r.slots[i].value) in r.slots
      {
        SlotIsFull(n, m, w, a % n, i);
      }
      SlotsHoldTheirOwn(n, m, w, a % n);
    }
  }

  lemma SlotsHoldTheirOwn(n: nat, m: nat, w: World, j: nat)
    requires Inv(n, m, w) && j < n
    ensures |w.shared.rings| == n && |w.shared.rings[j].slots| == m
    ensures forall i :: 0 <= i < m && w.shared.rings[j].slots[i].Some? ==>
      var v := w.shared.rings[j].slots[i].value; v.k % m == i && (D.Overtaken(v) || v.k < w.shared.rings[j].index)
  {
    var r := w.shared.rings[j];
    assert RingInv(n, m, w.shared, j, w.calls);
    forall i | 0 <= i < m && r.slots[i].Some?
      ensures r.slots[i].value.k % m == i && (D.Overtaken(r.slots[i].value) || r.slots[i].value.k < r.index)
    {
      assert D.SampleInv(m, r, i, r.slots[i].value);
    }
  }

  /** Slot number k of the ring of a is that of call t, an AddDuration for a, and holds what that call has stored, or a
      duration that a clear overtook. */
  predicate KeepsOwn(n: nat, m: nat, w: World, a: int, t: nat, k: nat)
    requires Sized(n, m, w.shared) && t < |w.calls|
  {
    var slots := Ring(n, w.shared, a).slots;
    && w.calls[t].Adding? && w.calls[t].a == a && w.calls[t].d.Stored? && w.calls[t].d.k == k
    && k < m && slots[k].Some? && (slots[k].value == w.calls[t].d.sample || D.Overtaken(slots[k].value))
  }

  lemma OwnIsKept(n: nat, m: nat, w: World, a: int, t: nat)
    requires Inv(n, m, w) && Genuine(n, m, w) && Single(n, w.shared, w.calls, a % n) && Quiet(n, m, w, a)
    requires t < |w.calls| && w.calls[t].Adding? && w.calls[t].a == a && Ring(n, w.shared, a).index <= m
    ensures KeepsOwn(n, m, w, a, t, w.calls[t].d.k) && w.calls[t].d.k < Ring(n, w.shared, a).index
  {
    var j, r, pc := a % n, Ring(n, w.shared, a), w.calls[t];
    assert PcTied(n, w.shared, pc);
    assert Reserved(n, w.shared, pc, j, pc.d.k);
    NumbersAreInRange(n, m, w, t, j, pc.d.k);
    assert RingInv(n, m, w.shared, j, w.calls) && RingGenuine(n, m, r, j, w.calls);
    assert RingPc(n, j, pc) == D.Stored(pc.d.k, pc.d.sample);
    StoredIsSet(m, r, t, pc.d.k, pc.d.sample);
    var v := r.slots[pc.d.k].value;
    if !D.Overtaken(v) { SoleOwner(n, m, w, j, pc.d.k, t); }
  }

  /** What the slot holds is of the only call that has its number. */
  lemma SoleOwner(n: nat, m: nat, w: World, j: nat, k: nat, t: nat)
    requires Inv(n, m, w) && Genuine(n, m, w) && j < n && Single(n, w.shared, w.calls, j)
    requires var r := w.shared.rings[j];
      r.index <= m && k < m && r.slots[k].Some? && !D.Overtaken(r.slots[k].value) && k < r.index
    requires t < |w.calls| && w.calls[t].Adding? && w.calls[t].d.Stored? && Reserved(n, w.shared, w.calls[t], j, k)
    ensures w.shared.rings[j].slots[k].value == w.calls[t].d.sample
  {
    var v := w.shared.rings[j].slots[k].value;
    assert RingInv(n, m, w.shared, j, w.calls) && RingGenuine(n, m, w.shared.rings[j], j, w.calls);
    assert D.SampleInv(m, w.shared.rings[j], k, v);
    SlotsHoldTheirOwn(n, m, w, j);
    Small(v.k, m);
    assert D.PcInv(m, w.shared.rings[j], v.call, RingPc(n, j, w.calls[v.call]));
    assert Reserved(n, w.shared, w.calls[v.call], j, k);
  }

  ghost predicate IsKept(n: nat, m: nat, w: World, a: int, k: nat)
    requires Sized(n, m, w.shared)
  {
    exists t :: 0 <= t < |w.calls| && KeepsOwn(n, m, w, a, t, k)
  }

  lemma OwnerIsOfIndex(n: nat, m: nat, w: World, a: int, k: nat)
    requires Inv(n, m, w) && Genuine(n, m, w) && Single(n, w.shared, w.calls, a % n) && Quiet(n, m, w, a)
    requires Covered(n, w.shared, w.calls, a % n) && k < Ring(n, w.shared, a).index <= m
    ensures IsKept(n, m, w, a, k)
  {
    assert HasOwner(n, w.shared, w.calls, a % n, k);
    var t :| 0 <= t < |w.calls| && Reserved(n, w.shared, w.calls[t], a % n, k);
    var win := w.shared.win;
    assert PcTied(n, w.shared, w.calls[t]);
    assert W.LateMeans(n, win.slots[a % n], win.late[a % n], win.frontier);
    var b := w.calls[t].a;
    if b != a { RollingWindows.SlotsDiffer(Min(a, b), Max(a, b), n); }
    OwnIsKept(n, m, w, a, t);
    assert KeepsOwn(n, m, w, a, t, k);
  }

  /** Then nothing is lost: unless there were more than fit, each of these AddDurations has its duration in a slot of
      its own, but where a writer that a clear overtook has stored over it; and each slot that readers look at is one of
      these. */
  lemma {:induction false} QuietBucketsKeepEach(n: nat, m: nat, run: seq<Action>, a: int)
    requires n > 0 && m > 0 && After(n, m, run).Some?
    ensures var w := After(n, m, run).value; Quiet(n, m, w, a) && Begun(run, a) <= m ==>
      && (forall t :: 0 <= t < |w.calls| && w.calls[t].Adding? && w.calls[t].a == a ==>
            KeepsOwn(n, m, w, a, t, w.calls[t].d.k) && w.calls[t].d.k < Begun(run, a))
      && (forall k: nat :: k < Begun(run, a) ==> IsKept(n, m, w, a, k))
  {
    var w := After(n, m, run).value;
    if Quiet(n, m, w, a) && Begun(run, a) <= m {
      EveryRunKeepsInv(n, m, run);
      SnapshotsAreGenuine(n, m, run);
      EveryNumberIsHandedOutOnce(n, m, run, a % n);
      QuietBucketsAreExact(n, m, run, a);
      forall t | 0 <= t < |w.calls| && w.calls[t].Adding? && w.calls[t].a == a
        ensures KeepsOwn(n, m, w, a, t, w.calls[t].d.k) && w.calls[t].d.k < Begun(run, a)
      {
        OwnIsKept(n, m, w, a, t);
      }
      EverySlotIsCovered(n, m, run, a % n);
      forall k: nat | k < Begun(run, a)
        ensures IsKept(n, m, w, a, k)
      {
        OwnerIsOfIndex(n, m, w, a, k);
      }
    }
  }

  // ---- What readers see ----

  /** No reader owes anything to a duration of bucket j. */
  ghost predicate NothingMissed(n: nat, m: nat, s: Shared, j: nat, calls: seq<Pc>)
    requires n > 0 && m > 0 && j < |s.rings|
  {
    forall u, t :: 0 <= u < |calls| && 0 <= t < |calls| ==>
      D.Pair(m, s.rings[j], RingPc(n, j, calls[u]), RingPc(n, j, calls[t]))
  }

  /** Where a step leaves the call, and the clears that have begun, in ring j. */
  ghost predicate StepsInRing(n: nat, m: nat, s: Shared, s': Shared, j: nat, t: nat, pc: Pc, pc': Pc)
    requires Sized(n, m, s) && Sized(n, m, s') && j < n
  {
    var d, d' := RingPc(n, j, pc), RingPc(n, j, pc');
    && s.rings[j].begun <= s'.rings[j].begun
    && (d' == d || !(d'.Load? || d'.Seen? || d'.Stored?) || (s'.rings[j], d') == D.StepCall(m, s.rings[j], t, d))
  }

  lemma FindingIsInRing(n: nat, m: nat, s: Shared, j: nat, t: nat, p: W.Pc)
    requires Sized(n, m, s) && j < n
    ensures var (s', pc') := StepFinding(n, m, s, t, p);
      Sized(n, m, s') && StepsInRing(n, m, s, s', j, t, Finding(p), pc')
  {}

  lemma EmptyingIsInRing(n: nat, m: nat, s: Shared, j: nat, t: nat, p: W.Pc, d: D.Pc)
    requires Sized(n, m, s) && j < n && d.Unset?
    ensures var (s', pc') := StepEmptying(n, m, s, t, p, d);
      Sized(n, m, s') && StepsInRing(n, m, s, s', j, t, Emptying(p, d), pc')
  {}

  lemma AddingIsInRing(n: nat, m: nat, s: Shared, j: nat, t: nat, a: int, d: D.Pc)
    requires Sized(n, m, s) && j < n && (d.Store? || d.Stored?)
    ensures var (s', pc') := StepCall(n, m, s, t, Adding(a, d));
      Sized(n, m, s') && StepsInRing(n, m, s, s', j, t, Adding(a, d), pc')
  {}

  lemma ReadingIsInRing(n: nat, m: nat, s: Shared, j: nat, t: nat, d: D.Pc, parts: seq<D.Pc>)
    requires Sized(n, m, s) && j < n && (d.ReadSize? || d.Load?)
    ensures StepsInRing(n, m, s, s, j, t, Reading(d, parts), StepReading(n, m, s, t, d, parts))
  {}

  lemma StepIsInRing(n: nat, m: nat, w: World, t: nat, j: nat)
    requires Inv(n, m, w) && Possible(n, m, w, Step(t)) && j < n
    ensures var (s', pc') := StepCall(n, m, w.shared, t, w.calls[t]);
      Sized(n, m, s') && StepsInRing(n, m, w.shared, s', j, t, w.calls[t], pc')
  {
    assert PcTied(n, w.shared, w.calls[t]);
    match w.calls[t]
    case Finding(p) => FindingIsInRing(n, m, w.shared, j, t, p);
    case Emptying(p, d) => EmptyingIsInRing(n, m, w.shared, j, t, p, d);
    case Adding(a, d) => AddingIsInRing(n, m, w.shared, j, t, a, d);
    case Reading(d, parts) => ReadingIsInRing(n, m, w.shared, j, t, d, parts);
  }

  lemma StepKeepsPair(n: nat, m: nat, w: World, w': World, x: nat, j: nat, u: nat, t: nat)
    requires Inv(n, m, w) && Inv(n, m, w') && j < n && x < |w.calls| && u < |w.calls| && t < |w.calls|
    requires |w'.calls| == |w.calls| && forall v :: 0 <= v < |w.calls| && v != x ==> w'.calls[v] == w.calls[v]
    requires StepsInRing(n, m, w.shared, w'.shared, j, x, w.calls[x], w'.calls[x])
    requires D.Pair(m, w.shared.rings[j], RingPc(n, j, w.calls[u]), RingPc(n, j, w.calls[t]))
    ensures D.Pair(m, w'.shared.rings[j], RingPc(n, j, w'.calls[u]), RingPc(n, j, w'.calls[t]))
  {
    var r, r' := w.shared.rings[j], w'.shared.rings[j];
    var reader, writer := RingPc(n, j, w.calls[u]), RingPc(n, j, w.calls[t]);
    var reader', writer' := RingPc(n, j, w'.calls[u]), RingPc(n, j, w'.calls[t]);
    assert RingInv(n, m, w.shared, j, w.calls);
    assert D.PcInv(m, r, u, reader) && D.PcInv(m, r, t, writer);
    if x == t && u != t && writer' != writer {
      if writer'.Stored? { D.WriterStepKeepsPair(m, r, t, u, reader, writer); }
    } else if x == u && u != t && reader' != reader {
      if reader'.Load? || reader'.Seen? { D.ReaderStepKeepsPair(m, r, t, u, reader, writer); }
    } else if reader' == reader && writer' == writer {
      D.OtherStepKeepsPair(m, r, r', t, reader, writer);
    }
  }

  lemma {:induction false} ReadersMissNothing(n: nat, m: nat, run: seq<Action>, j: nat)
    requires n > 0 && m > 0 && After(n, m, run).Some? && j < n
    ensures |After(n, m, run).value.shared.rings| == n
    ensures NothingMissed(n, m, After(n, m, run).value.shared, j, After(n, m, run).value.calls)
    decreases |run|
  {
    EveryRunKeepsInv(n, m, run);
    if run != [] {
      var front, x := run[..|run| - 1], run[|run| - 1];
      ReadersMissNothing(n, m, front, j);
      EveryRunKeepsInv(n, m, front);
      var w, w' := After(n, m, front).value, After(n, m, run).value;
      if x.Step? {
        StepIsInRing(n, m, w, x.call, j);
        forall u, t | 0 <= u < |w.calls| && 0 <= t < |w.calls|
          ensures D.Pair(m, w'.shared.rings[j], RingPc(n, j, w'.calls[u]), RingPc(n, j, w'.calls[t]))
        {
          StepKeepsPair(n, m, w, w', x.call, j, u, t);
        }
      }
    }
  }

  /** The call is no reader yet, or it comes to bucket j after v was stored there. */
  predicate ComesAfter(n: nat, j: nat, pc: Pc, v: D.Sample)
    requires n > 0
  {
    pc.Reading? && |pc.parts| >= j ==> D.Follows(RingPc(n, j, pc), v)
  }

  lemma StepComesAfter(n: nat, m: nat, s: Shared, u: nat, t: nat, pc: Pc, j: nat, k: nat, v: D.Sample)
    requires Ready(n, m, s, u, pc) && j < n && ComesAfter(n, j, pc, v)
    requires D.PcInv(m, s.rings[j], t, D.Stored(k, v))
    ensures ComesAfter(n, j, StepCall(n, m, s, u, pc).1, v)
  {}

  lemma {:induction false} StillComesAfter(n: nat, m: nat, run: seq<Action>, start: nat, u: nat, t: nat)
    requires n > 0 && m > 0 && start <= |run| && After(n, m, run).Some? && After(n, m, run[..start]).Some?
    requires var w := After(n, m, run[..start]).value;
      && t < |w.calls| && w.calls[t].Adding? && w.calls[t].d.Stored?
      && (u < |w.calls| ==> w.calls[u].Finding?)
    ensures var w, w' := After(n, m, run[..start]).value, After(n, m, run).value; var pc := w.calls[t];
      && |w.calls| <= |w'.calls| && w'.calls[t] == pc
      && (u < |w'.calls| ==> ComesAfter(n, pc.a % n, w'.calls[u], pc.d.sample))
    decreases |run|
  {
    if start == |run| {
      assert run[..start] == run;
    } else {
      var front, x := run[..|run| - 1], run[|run| - 1];
      assert front[..start] == run[..start];
      StillComesAfter(n, m, front, start, u, t);
      EveryRunKeepsInv(n, m, front);
      var w := After(n, m, front).value;
      var pc := w.calls[t];
      if x == Step(u) {
        InvIsReady(n, m, w, t);
        InvIsReady(n, m, w, u);
        assert D.PcInv(m, Ring(n, w.shared, pc.a), t, RingPc(n, pc.a % n, pc));
        StepComesAfter(n, m, w.shared, u, t, w.calls[u], pc.a % n, pc.d.k, pc.d.sample);
      }
    }
  }

  /** A snapshot that begins after a duration was stored, and has come past its bucket, has that duration or a later one
      of its slot, as long as no roll has left its index behind, or is about to. */
  lemma {:induction false} LiveDurationsAreSeen(n: nat, m: nat, run: seq<Action>, start: nat, u: nat, t: nat)
    requires n > 0 && m > 0 && start <= |run| && After(n, m, run).Some? && After(n, m, run[..start]).Some?
    requires var w := After(n, m, run[..start]).value;
      && t < |w.calls| && w.calls[t].Adding? && w.calls[t].d.Stored?
      && (u < |w.calls| ==> w.calls[u].Finding?)
    ensures var w := After(n, m, run).value;
      && t < |w.calls| && w.calls[t].Adding? && w.calls[t].d.Stored? && Sized(n, m, w.shared)
      && var a := w.calls[t].a;
         (&& w.shared.win.frontier < a + n && Ring(n, w.shared, a).clearing.None?
          && u < |w.calls| && w.calls[u].Reading? && a % n < |w.calls[u].parts| ==>
            var part := w.calls[u].parts[a % n];
            part.Seen? && D.Covers(m, part.got, w.calls[t].d.sample))
  {
    StillComesAfter(n, m, run, start, u, t);
    EveryRunKeepsInv(n, m, run);
    LiveDurationsAreKept(n, m, run, t);
    var w := After(n, m, run).value;
    var a := w.calls[t].a;
    if w.shared.win.frontier < a + n && Ring(n, w.shared, a).clearing.None?
       && u < |w.calls| && w.calls[u].Reading? && a % n < |w.calls[u].parts| {
      ReadersMissNothing(n, m, run, a % n);
      PastReadersHaveIt(n, m, w, u, t);
    }
  }

  lemma PastReadersHaveIt(n: nat, m: nat, w: World, u: nat, t: nat)
    requires Inv(n, m, w) && u < |w.calls| && t < |w.calls| && w.calls[t].Adding? && w.calls[t].d.Stored?
    requires w.shared.win.frontier < w.calls[t].a + n && Ring(n, w.shared, w.calls[t].a).clearing.None?
    requires w.calls[u].Reading? && w.calls[t].a % n < |w.calls[u].parts|
    requires ComesAfter(n, w.calls[t].a % n, w.calls[u], w.calls[t].d.sample)
    requires NothingMissed(n, m, w.shared, w.calls[t].a % n, w.calls)
    ensures var part := w.calls[u].parts[w.calls[t].a % n];
      part.Seen? && D.Covers(m, part.got, w.calls[t].d.sample)
  {
    var j, r := w.calls[t].a % n, Ring(n, w.shared, w.calls[t].a);
    var part, writer := RingPc(n, j, w.calls[u]), RingPc(n, j, w.calls[t]);
    assert RingInv(n, m, w.shared, j, w.calls) && PcTied(n, w.shared, w.calls[t]) && PcTied(n, w.shared, w.calls[u]);
    assert D.PcInv(m, r, u, part) && D.PcInv(m, r, t, writer) && D.Pair(m, r, part, writer);
  }
}
