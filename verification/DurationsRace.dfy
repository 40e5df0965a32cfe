/** durationsBucket of faststats/rolling_percentile.go between any number of goroutines: addDuration, clear and
    appendDurations, with every atomic access a step of its own. Clears exclude each other, as those of Advance do. */
module DurationsRace {
  import opened Base

  /** A stored duration, by the call that stored it. The rest is bookkeeping that no step reads: the number that was
      reserved for it, how many clears had reset the index then, how many had begun when it was stored, and how many
      stores came before it. */
  datatype Sample = Sample(call: nat, k: nat, born: nat, stored: nat, stamp: nat)

  /** `begun` and `resets` count the clears that have begun and those that have reset the index. */
  datatype Shared = Shared(slots: seq<Option<Sample>>, index: nat, clearing: Option<nat>, begun: nat, resets: nat,
                           stores: nat)

  /** Bookkeeping of a reader: how many stores came before it read the size, and how many clears had begun when it was
      through. */
  datatype Pc =
    | Reserve
    | Store(k: nat, born: nat)
    | Stored(k: nat, sample: Sample)
    | Begin
    | Unset(i: nat, used: nat)
    | Cleared
    | ReadSize
    | Load(i: nat, size: nat, got: seq<Sample>, since: nat)
    | Seen(got: seq<Sample>, since: nat, begun: nat)

  datatype World = World(shared: Shared, calls: seq<Pc>)

  datatype Action = Arrive(pc: Pc) | Step(call: nat)

  function Slot(n: nat, k: nat): (j: nat)
    requires n > 0
    ensures j < n
  {
    k % n
  }

  predicate Sized(n: nat, s: Shared) { n > 0 && |s.slots| == n }

  function StepCall(n: nat, s: Shared, t: nat, pc: Pc): (Shared, Pc)
    requires Sized(n, s)
  {
    match pc
    case Reserve => (s.(index := s.index + 1), Store(s.index, s.resets))
    case Store(k, born) =>
      var sample := Sample(t, k, born, s.begun, s.stores);
      (s.(slots := s.slots[Slot(n, k) := Some(sample)], stores := s.stores + 1), Stored(k, sample))
    case Begin => (s.(clearing := Some(t), begun := s.begun + 1), Unset(0, Min(s.index, n)))
    case Unset(i, used) =>
      if i < used && i < n then (s.(slots := s.slots[i := None]), Unset(i + 1, used))
      else (s.(index := 0, clearing := None, resets := s.resets + 1), Cleared)
    case ReadSize => (s, Load(0, Min(s.index, n), [], s.stores))
    case Load(i, size, got, since) =>
      if i < size && i < n then
        (s, Load(i + 1, size, if s.slots[i].Some? then got + [s.slots[i].value] else got, since))
      else (s, Seen(got, since, s.begun))
    case _ => (s, pc)
  }

  predicate Possible(n: nat, w: World, a: Action) {
    Sized(n, w.shared) &&
    match a
    case Arrive(pc) => pc.Reserve? || pc.Begin? || pc.ReadSize?
    case Step(t) => t < |w.calls| && (w.calls[t].Begin? ==> w.shared.clearing.None?)
  }

  function Apply(n: nat, w: World, a: Action): World
    requires Possible(n, w, a)
  {
    match a
    case Arrive(pc) => w.(calls := w.calls + [pc])
    case Step(t) =>
      var (s', pc') := StepCall(n, w.shared, t, w.calls[t]);
      World(s', w.calls[t := pc'])
  }

  function Init(n: nat): World { World(Shared(seq(n, _ => None), 0, None, 0, 0, 0), []) }

  function After(n: nat, run: seq<Action>): Option<World>
    decreases |run|
  {
    if run == [] then Some(Init(n))
    else
      var before := After(n, run[..|run| - 1]);
      if before.Some? && Possible(n, before.value, run[|run| - 1])
      then Some(Apply(n, before.value, run[|run| - 1]))
      else None
  }

  // ---- The invariant ----

  /** A clear has begun, or was under way, between the reservation and the store. */
  predicate Overtaken(v: Sample) { v.stored > v.born }

  /** A sample is in the slot that was reserved for it. It is no older than the last index reset, and in the used
      prefix, unless a clear overtook its writer. */
  predicate SampleInv(n: nat, s: Shared, j: nat, v: Sample) {
    && v.born <= s.resets && v.born <= v.stored <= s.begun && v.stamp < s.stores && n > 0 && Slot(n, v.k) == j
    && (!Overtaken(v) ==> v.born == s.resets && v.k < s.index && j < Min(s.index, n))
  }

  ghost predicate SharedInv(n: nat, s: Shared) {
    && Sized(n, s)
    && s.begun == s.resets + (if s.clearing.Some? then 1 else 0)
    && forall j :: 0 <= j < n && s.slots[j].Some? ==> SampleInv(n, s, j, s.slots[j].value)
  }

  /** A clear has emptied the first i slots of what was not overtaken, and none of that lies beyond the used prefix. */
  ghost predicate Unsetting(n: nat, s: Shared, i: nat, used: nat)
    requires Sized(n, s)
  {
    used <= n && forall j :: 0 <= j < n && s.slots[j].Some? && !Overtaken(s.slots[j].value) ==> i <= j < used
  }

  /** The slot holds this duration, or one that was stored there after it. */
  predicate Holds(s: Shared, j: nat, v: Sample)
    requires j < |s.slots|
  {
    s.slots[j].Some? && (s.slots[j].value == v || s.slots[j].value.stamp > v.stamp)
  }

  ghost predicate PcInv(n: nat, s: Shared, t: nat, pc: Pc)
    requires Sized(n, s)
  {
    && (pc.Unset? <==> s.clearing == Some(t))
    && match pc
       case Store(k, born) => born <= s.resets && (born == s.resets ==> k < s.index)
       case Stored(k, v) =>
         && v.call == t && v.k == k && v.born <= s.resets && v.born <= v.stored <= s.begun && v.stamp < s.stores
         && (v.born == s.resets ==> k < s.index)
         && (!Overtaken(v) && v.stored == s.begun ==>
               Holds(s, Slot(n, k), v) && v.born == s.resets)
       case Unset(i, used) => Unsetting(n, s, i, used)
       case Load(_, _, _, since) => since <= s.stores
       case Seen(_, since, begun) => since <= s.stores && begun <= s.begun
       case _ => true
  }

  ghost predicate Inv(n: nat, w: World) {
    && SharedInv(n, w.shared)
    && (w.shared.clearing.Some? ==> w.shared.clearing.value < |w.calls|)
    && forall t :: 0 <= t < |w.calls| ==> PcInv(n, w.shared, t, w.calls[t])
  }

  lemma SlotIsUsed(n: nat, k: nat, index: nat)
    requires n > 0 && k < index
    ensures Slot(n, k) < Min(index, n)
  {
    if index < n { assert k % n == k; }
  }

  /** What call t does keeps its own facts and those of any other call u. */
  ghost predicate Kept(n: nat, s: Shared, s': Shared, t: nat, pc': Pc) {
    && SharedInv(n, s') && PcInv(n, s', t, pc')
    && forall u, pc :: u != t && Sized(n, s) && PcInv(n, s, u, pc) ==> PcInv(n, s', u, pc)
  }

  lemma StoreKept(n: nat, s: Shared, t: nat, k: nat, born: nat)
    requires SharedInv(n, s) && PcInv(n, s, t, Store(k, born))
    ensures var (s', pc') := StepCall(n, s, t, Store(k, born)); Kept(n, s, s', t, pc')
  {
    if born == s.resets { SlotIsUsed(n, k, s.index); }
  }

  lemma UnsetKept(n: nat, s: Shared, t: nat, i: nat, used: nat)
    requires SharedInv(n, s) && PcInv(n, s, t, Unset(i, used))
    ensures var (s', pc') := StepCall(n, s, t, Unset(i, used)); Kept(n, s, s', t, pc')
  {}

  lemma StepKept(n: nat, s: Shared, t: nat, pc: Pc)
    requires SharedInv(n, s) && PcInv(n, s, t, pc) && (pc.Begin? ==> s.clearing.None?)
    ensures var (s', pc') := StepCall(n, s, t, pc); Kept(n, s, s', t, pc')
  {
    match pc
    case Store(k, born) => StoreKept(n, s, t, k, born);
    case Unset(i, used) => UnsetKept(n, s, t, i, used);
    case _ =>
  }

  lemma ActionKeepsInv(n: nat, w: World, a: Action)
    requires Inv(n, w) && Possible(n, w, a)
    ensures Inv(n, Apply(n, w, a))
  {
    if a.Step? { StepKept(n, w.shared, a.call, w.calls[a.call]); }
  }

  lemma {:induction false} EveryRunKeepsInv(n: nat, run: seq<Action>)
    requires n > 0 && After(n, run).Some?
    ensures Inv(n, After(n, run).value)
    decreases |run|
  {
    if run != [] {
      EveryRunKeepsInv(n, run[..|run| - 1]);
      ActionKeepsInv(n, After(n, run[..|run| - 1]).value, run[|run| - 1]);
    }
  }

  // ---- What the comments promise ----

  /** No stale value survives a clear: whatever is in a slot was reserved after the last index reset, or a clear
      overtook its writer between the reservation and the store. */
  lemma {:induction false} NothingStaleSurvives(n: nat, run: seq<Action>, j: nat)
    requires n > 0 && After(n, run).Some? && j < n
    ensures var s := After(n, run).value.shared;
      |s.slots| == n && (s.slots[j].Some? ==> s.slots[j].value.born == s.resets || Overtaken(s.slots[j].value))
  {
    EveryRunKeepsInv(n, run);
  }

  /** What the next store of a clear wipes was reserved before that clear resets the index. */
  lemma {:induction false} NothingNewIsWiped(n: nat, run: seq<Action>, t: nat)
    requires n > 0 && After(n, run).Some? && t < |After(n, run).value.calls| && After(n, run).value.calls[t].Unset?
    ensures var w := After(n, run).value; var i := w.calls[t].i;
      && w.shared.clearing == Some(t) && w.shared.begun == w.shared.resets + 1
      && (i < |w.shared.slots| && w.shared.slots[i].Some? ==> w.shared.slots[i].value.born < w.shared.begun)
  {
    EveryRunKeepsInv(n, run);
    assert PcInv(n, After(n, run).value.shared, t, After(n, run).value.calls[t]);
  }

  /** A duration that was stored with no clear since its slot was reserved stays visible until a clear begins: its slot
      is in the used prefix, and holds it or one that was reserved for that slot too and stored after it. */
  lemma {:induction false} NoDurationIsLost(n: nat, run: seq<Action>, t: nat)
    requires n > 0 && After(n, run).Some? && t < |After(n, run).value.calls| && After(n, run).value.calls[t].Stored?
    ensures var s := After(n, run).value.shared; var pc := After(n, run).value.calls[t];
      !Overtaken(pc.sample) && pc.sample.stored == s.begun ==>
        && |s.slots| == n && Holds(s, Slot(n, pc.k), pc.sample) && Slot(n, pc.k) < Min(s.index, n)
        && Slot(n, s.slots[Slot(n, pc.k)].value.k) == Slot(n, pc.k)
  {
    EveryRunKeepsInv(n, run);
    var s := After(n, run).value.shared;
    var pc := After(n, run).value.calls[t];
    assert PcInv(n, s, t, pc);
    if !Overtaken(pc.sample) && pc.sample.stored == s.begun { SlotIsUsed(n, pc.k, s.index); }
  }

  // ---- What readers see ----

  /** The sample was stored by the call that it names. */
  predicate IsStored(calls: seq<Pc>, v: Sample) {
    v.call < |calls| && calls[v.call].Stored? && calls[v.call].sample == v
  }

  ghost predicate Genuine(w: World) {
    && (forall j :: 0 <= j < |w.shared.slots| && w.shared.slots[j].Some? ==> IsStored(w.calls, w.shared.slots[j].value))
    && (forall t :: 0 <= t < |w.calls| ==> GenuineReader(w.calls, w.calls[t]))
  }

  /** All that the reader has collected so far. */
  ghost predicate GenuineReader(calls: seq<Pc>, pc: Pc) {
    (pc.Load? || pc.Seen?) ==> forall i :: 0 <= i < |pc.got| ==> IsStored(calls, pc.got[i])
  }

  lemma ActionKeepsGenuine(n: nat, w: World, a: Action)
    requires Genuine(w) && Possible(n, w, a)
    ensures Genuine(Apply(n, w, a))
  {
    var w' := Apply(n, w, a);
    assert forall v :: IsStored(w.calls, v) ==> IsStored(w'.calls, v);
    forall t | 0 <= t < |w'.calls|
      ensures GenuineReader(w'.calls, w'.calls[t])
    {
      if t < |w.calls| { assert GenuineReader(w.calls, w.calls[t]); }
    }
  }

  /** Readers collect nothing but durations that some call has stored, and never an unset slot. */
  lemma {:induction false} ReadersSeeStoredDurations(n: nat, run: seq<Action>)
    requires n > 0 && After(n, run).Some?
    ensures Genuine(After(n, run).value)
    decreases |run|
  {
    if run != [] {
      ReadersSeeStoredDurations(n, run[..|run| - 1]);
      ActionKeepsGenuine(n, After(n, run[..|run| - 1]).value, run[|run| - 1]);
    }
  }

  /** The reader has collected this duration, or one that was reserved for the same slot and stored after it. */
  ghost predicate Covers(n: nat, got: seq<Sample>, v: Sample)
    requires n > 0
  {
    exists x :: x in got && (x == v || (Slot(n, x.k) == Slot(n, v.k) && x.stamp > v.stamp))
  }

  /** What a reader owes to a duration that no clear overtook, and that was stored before it read the size, as long as
      no clear has begun since. */
  ghost predicate Owes(n: nat, s: Shared, reader: Pc, v: Sample)
    requires n > 0
  {
    match reader
    case Load(i, size, got, since) =>
      !Overtaken(v) && v.stored == s.begun && v.stamp < since ==>
        Slot(n, v.k) < size <= n && (Slot(n, v.k) < i ==> Covers(n, got, v))
    case Seen(got, since, begun) =>
      v.stamp < since ==> v.stored <= begun && (!Overtaken(v) && v.stored == begun ==> Covers(n, got, v))
    case _ => true
  }

  /** A reader and a writer that has stored. */
  ghost predicate Pair(n: nat, s: Shared, reader: Pc, writer: Pc)
    requires n > 0
  {
    writer.Stored? ==> Owes(n, s, reader, writer.sample)
  }

  lemma LoadCovers(n: nat, s: Shared, t: nat, u: nat, reader: Pc, writer: Pc)
    requires SharedInv(n, s) && PcInv(n, s, t, writer) && Pair(n, s, reader, writer) && writer.Stored? && reader.Load?
    ensures Pair(n, s, StepCall(n, s, u, reader).1, writer)
  {
    var v := writer.sample;
    var (_, reader') := StepCall(n, s, u, reader);
    if !Overtaken(v) && v.stored == s.begun && v.stamp < reader.since && reader'.Load? {
      if Slot(n, v.k) < reader.i {
        var x :| x in reader.got && (x == v || (Slot(n, x.k) == Slot(n, v.k) && x.stamp > v.stamp));
        assert x in reader'.got;
      } else if Slot(n, v.k) == reader.i {
        assert SampleInv(n, s, reader.i, s.slots[reader.i].value);
        assert s.slots[reader.i].value in reader'.got;
      }
    }
  }

  /** The reader's own step. */
  lemma ReaderStepKeepsPair(n: nat, s: Shared, t: nat, u: nat, reader: Pc, writer: Pc)
    requires SharedInv(n, s) && PcInv(n, s, t, writer) && Pair(n, s, reader, writer)
    requires reader.ReadSize? || reader.Load? || reader.Seen?
    ensures Pair(n, s, StepCall(n, s, u, reader).1, writer)
  {
    if writer.Stored? {
      if reader.Load? {
        LoadCovers(n, s, t, u, reader, writer);
      } else if reader.ReadSize? && writer.sample.born == s.resets {
        SlotIsUsed(n, writer.k, s.index);
      }
    }
  }

  /** Any other step: a store that comes after the size was read is not owed, and a clear that begins settles all. */
  lemma OtherStepKeepsPair(n: nat, s: Shared, s': Shared, t: nat, reader: Pc, writer: Pc)
    requires Sized(n, s) && PcInv(n, s, t, writer) && Pair(n, s, reader, writer) && s.begun <= s'.begun
    ensures Pair(n, s', reader, writer)
  {}

  lemma WriterStepKeepsPair(n: nat, s: Shared, t: nat, u: nat, reader: Pc, writer: Pc)
    requires SharedInv(n, s) && PcInv(n, s, u, reader) && PcInv(n, s, t, writer) && Pair(n, s, reader, writer)
    ensures var (s', writer') := StepCall(n, s, t, writer); Pair(n, s', reader, writer')
  {}

  ghost predicate NothingMissed(n: nat, w: World)
    requires n > 0
  {
    forall u, t :: 0 <= u < |w.calls| && 0 <= t < |w.calls| ==> Pair(n, w.shared, w.calls[u], w.calls[t])
  }

  lemma StepKeepsPair(n: nat, w: World, x: nat, u: nat, t: nat)
    requires Inv(n, w) && Possible(n, w, Step(x)) && u < |w.calls| && t < |w.calls|
    requires Pair(n, w.shared, w.calls[u], w.calls[t])
    ensures var w' := Apply(n, w, Step(x)); Pair(n, w'.shared, w'.calls[u], w'.calls[t])
  {
    var s, s' := w.shared, Apply(n, w, Step(x)).shared;
    assert PcInv(n, s, t, w.calls[t]) && PcInv(n, s, u, w.calls[u]);
    if x == t {
      if u != t { WriterStepKeepsPair(n, s, t, u, w.calls[u], w.calls[t]); }
    } else if x == u && (w.calls[u].ReadSize? || w.calls[u].Load? || w.calls[u].Seen?) {
      ReaderStepKeepsPair(n, s, t, u, w.calls[u], w.calls[t]);
    } else {
      OtherStepKeepsPair(n, s, s', t, w.calls[u], w.calls[t]);
    }
  }

  /** Readers miss nothing: a reader that is through has collected every duration that was stored before it read the
      size and that no clear overtook, or a later one of that slot, unless a clear began before it was through. */
  lemma {:induction false} ReadersMissNothing(n: nat, run: seq<Action>)
    requires n > 0 && After(n, run).Some?
    ensures NothingMissed(n, After(n, run).value)
    ensures var w := After(n, run).value;
      forall u, t :: 0 <= u < |w.calls| && 0 <= t < |w.calls| && w.calls[u].Seen? && w.calls[t].Stored? ==>
        var v := w.calls[t].sample;
        !Overtaken(v) && v.stored == w.calls[u].begun && v.stamp < w.calls[u].since ==> Covers(n, w.calls[u].got, v)
    decreases |run|
  {
    if run != [] {
      var front, x := run[..|run| - 1], run[|run| - 1];
      ReadersMissNothing(n, front);
      EveryRunKeepsInv(n, front);
      var w, w' := After(n, front).value, After(n, run).value;
      forall u, t | 0 <= u < |w'.calls| && 0 <= t < |w'.calls|
        ensures Pair(n, w'.shared, w'.calls[u], w'.calls[t])
      {
        if x.Step? { StepKeepsPair(n, w, x.call, u, t); }
      }
    }
    var w := After(n, run).value;
    assert forall u, t :: 0 <= u < |w.calls| && 0 <= t < |w.calls| && w.calls[u].Seen? && w.calls[t].Stored? ==>
             Pair(n, w.shared, w.calls[u], w.calls[t]);
  }

  /** The reader has not read the size yet, or it did so after v was stored. */
  predicate Follows(reader: Pc, v: Sample) {
    match reader
    case ReadSize => true
    case Load(_, _, _, since) => since > v.stamp
    case Seen(_, since, begun) => since > v.stamp && begun >= v.stored
    case _ => false
  }

  lemma {:induction false} StillFollows(n: nat, run: seq<Action>, start: nat, u: nat, t: nat)
    requires n > 0 && start <= |run| && After(n, run).Some? && After(n, run[..start]).Some?
    requires var w := After(n, run[..start]).value;
      u < |w.calls| && t < |w.calls| && w.calls[u].ReadSize? && w.calls[t].Stored?
    ensures var w, w' := After(n, run[..start]).value, After(n, run).value;
      && u < |w'.calls| && t < |w'.calls|
      && w'.calls[t] == w.calls[t] && Follows(w'.calls[u], w.calls[t].sample)
    decreases |run|
  {
    if start == |run| {
      assert run[..start] == run;
    } else {
      var front := run[..|run| - 1];
      assert front[..start] == run[..start];
      StillFollows(n, front, start, u, t);
      EveryRunKeepsInv(n, front);
      assert PcInv(n, After(n, front).value.shared, t, After(n, front).value.calls[t]);
    }
  }

  /** What is stored when a reader arrives, by a writer that no clear overtook, that reader collects, or a later one
      of its slot, unless a clear begins before it is through. */
  lemma {:induction false} ReadersSeeWhatIsThere(n: nat, run: seq<Action>, start: nat, u: nat, t: nat)
    requires n > 0 && start <= |run| && After(n, run).Some? && After(n, run[..start]).Some?
    requires var w := After(n, run[..start]).value;
      u < |w.calls| && t < |w.calls| && w.calls[u].ReadSize? && w.calls[t].Stored?
    ensures var v := After(n, run[..start]).value.calls[t].sample; var w := After(n, run).value;
      u < |w.calls| && (w.calls[u].Seen? && !Overtaken(v) && v.stored == w.shared.begun ==>
                          Covers(n, w.calls[u].got, v))
  {
    StillFollows(n, run, start, u, t);
    ReadersMissNothing(n, run);
    EveryRunKeepsInv(n, run);
    var w := After(n, run).value;
    assert PcInv(n, w.shared, u, w.calls[u]) && Pair(n, w.shared, w.calls[u], w.calls[t]);
  }

  // A reader does see the duration of a writer that a clear overtook, once its slot is reserved again and not yet
  // stored to: one slot, a writer that stores after the clear, a second one that has only reserved, and the reader.

  predicate Reaches(run: seq<Action>, s: Shared, calls: seq<Pc>) { After(1, run) == Some(World(s, calls)) }

  lemma {:induction false} Goes(run: seq<Action>, s: Shared, calls: seq<Pc>, a: Action, s': Shared, calls': seq<Pc>)
    returns (next: seq<Action>)
    requires Reaches(run, s, calls) && Possible(1, World(s, calls), a)
    requires Apply(1, World(s, calls), a) == World(s', calls')
    ensures Reaches(next, s', calls')
  {
    next := run + [a];
    assert next[..|run|] == run;
  }

  /** The state of one bucket with one slot and no clear under way. */
  function Quiet(slot: Option<Sample>, index: nat, clears: nat): Shared {
    Shared([slot], index, None, clears, clears, if slot.Some? then 1 else 0)
  }

  const LATE := Sample(0, 0, 0, 1, 0)

  /** A writer has reserved the slot, and a clear has come and gone. */
  lemma OvertakenWriter() returns (run: seq<Action>)
    ensures Reaches(run, Quiet(None, 0, 1), [Store(0, 0), Cleared])
  {
    var w := Store(0, 0);
    var c1, c2 := Shared([None], 1, Some(1), 1, 0, 0), Quiet(None, 0, 1);
    assert Init(1).shared.slots == [None];
    run := Goes([], Quiet(None, 0, 0), [], Arrive(Reserve), Quiet(None, 0, 0), [Reserve]);
    run := Goes(run, Quiet(None, 0, 0), [Reserve], Step(0), Quiet(None, 1, 0), [w]);
    run := Goes(run, Quiet(None, 1, 0), [w], Arrive(Begin), Quiet(None, 1, 0), [w, Begin]);
    run := Goes(run, Quiet(None, 1, 0), [w, Begin], Step(1), c1, [w, Unset(0, 1)]);
    run := Goes(run, c1, [w, Unset(0, 1)], Step(1), c1, [w, Unset(1, 1)]);
    run := Goes(run, c1, [w, Unset(1, 1)], Step(1), c2, [w, Cleared]);
  }

  /** It stores after all, and the slot is reserved again. */
  lemma LateStore() returns (run: seq<Action>)
    ensures Reaches(run, Quiet(Some(LATE), 1, 1), [Stored(0, LATE), Cleared, Store(0, 1)])
  {
    run := OvertakenWriter();
    var w := Stored(0, LATE);
    var s1 := Quiet(Some(LATE), 0, 1);
    run := Goes(run, Quiet(None, 0, 1), [Store(0, 0), Cleared], Step(0), s1, [w, Cleared]);
    run := Goes(run, s1, [w, Cleared], Arrive(Reserve), s1, [w, Cleared, Reserve]);
    run := Goes(run, s1, [w, Cleared, Reserve], Step(2), Quiet(Some(LATE), 1, 1), [w, Cleared, Store(0, 1)]);
  }

  lemma LateDurationIsSeen() returns (run: seq<Action>)
    ensures Reaches(run, Quiet(Some(LATE), 1, 1), [Stored(0, LATE), Cleared, Store(0, 1), Seen([LATE], 1, 1)])
    ensures Overtaken(LATE)
  {
    run := LateStore();
    var s := Quiet(Some(LATE), 1, 1);
    var w, x := Stored(0, LATE), Store(0, 1);
    var none: seq<Sample> := [];
    assert none + [LATE] == [LATE];
    run := Goes(run, s, [w, Cleared, x], Arrive(ReadSize), s, [w, Cleared, x, ReadSize]);
    run := Goes(run, s, [w, Cleared, x, ReadSize], Step(3), s, [w, Cleared, x, Load(0, 1, none, 1)]);
    run := Goes(run, s, [w, Cleared, x, Load(0, 1, none, 1)], Step(3), s, [w, Cleared, x, Load(1, 1, [LATE], 1)]);
    run := Goes(run, s, [w, Cleared, x, Load(1, 1, [LATE], 1)], Step(3), s, [w, Cleared, x, Seen([LATE], 1, 1)]);
  }
}
