/** What every run of CircuitProtocol keeps about transitions and their delivery to the listeners. */
module CircuitDelivery {
  import opened Base
  import opened CircuitProtocol

  /** The call is the one that drains the queue. */
  predicate DrainRole(pc: Pc) {
    pc.Draining? && !pc.d.WantDrain? && !pc.d.Entered?
  }

  /** The call has queued a transition, or gives up the role, and is about to try for the role. */
  predicate OnTheWay(pc: Pc) {
    pc == Committing(Queued) || pc == Draining(WantDrain) || pc == Draining(Entered)
  }

  ghost predicate Ascending(ts: seq<int>) {
    forall i, j :: 0 <= i < j < |ts| ==> ts[i] <= ts[j]
  }

  /** Opened and Closed strictly alternate, starting with Opened. */
  ghost predicate Alternating(ts: seq<Transition>) {
    forall i :: 0 <= i < |ts| ==> ts[i].open == (i % 2 == 0)
  }

  ghost predicate InTimeOrder(ts: seq<Transition>) {
    forall i, j :: 0 <= i < j < |ts| ==> ts[i].now <= ts[j].now
  }

  /** Each transition is stamped at or after the flip it reports. */
  ghost predicate StampedAfterFlip(ts: seq<Transition>, flips: seq<int>) {
    |ts| <= |flips| && forall i :: 0 <= i < |ts| ==> flips[i] <= ts[i].now
  }

  /** Nobody is between a flip and the queueing of its notification. */
  predicate Quiet(h: History) {
    |h.flips| == |h.told| && h.told == h.committed
  }

  ghost predicate SharedInv(s: Shared) {
    var h := s.hist;
    && s.isOpen == (|h.flips| % 2 == 1)
    && |h.told| <= |h.flips| && h.committed <= h.told
    && (s.lock.None? ==> Quiet(h))
    && Ascending(h.flips) && (forall i :: 0 <= i < |h.flips| ==> h.flips[i] <= s.clock)
    && Alternating(h.told) && InTimeOrder(h.told) && StampedAfterFlip(h.told, h.flips)
    && (forall i :: 0 <= i < |h.told| ==> h.told[i].now <= s.clock)
    && h.committed == h.delivered + s.pending
    && h.started <= h.delivered
    && s.delivering == h.deliverer.Some?
    && (h.deliverer.None? ==> h.started == h.delivered)
  }

  /** The clock reading that a call carries towards a transition lies in the past. */
  predicate InThePast(s: Shared, pc: Pc) {
    match pc
    case Moving(m) => m.ReadClock? || m.move.now <= s.clock
    case Running(r) => r.Report? ==> r.done <= s.clock
    case Judging(v) => v.done <= s.clock
    case _ => true
  }

  ghost predicate CommitInv(s: Shared, k: CommitPc) {
    var h := s.hist;
    && (!k.Queued? ==> k.move.now <= s.clock)
    && match k
       case Locked(move) => Quiet(h)
       case ReAsk(move) => Quiet(h) && s.isOpen != move.open
       case Flip(move, _) => Quiet(h) && s.isOpen != move.open
       case Stamp(move) => Flipped(s, move)
       case TellCloser(move) => Flipped(s, move) && h.flips[|h.told|] <= move.now
                                && forall i :: 0 <= i < |h.told| ==> h.told[i].now <= move.now
       case TellOpener(move) => Told(s, move)
       case Enqueue(move) => Told(s, move)
       case Queued => Quiet(h)
  }

  ghost predicate DrainInv(s: Shared, d: DrainPc) {
    && (HoldsLock(Draining(d)) ==> Quiet(s.hist))
    && (DrainRole(Draining(d)) ==> s.hist.delivered == s.hist.started + if d.Notify? then [d.next] else [])
  }

  /** The facts a call relies on at its own program point. */
  ghost predicate PcInv(s: Shared, pc: Pc) {
    && InThePast(s, pc)
    && (pc.Committing? ==> CommitInv(s, pc.k))
    && (pc.Draining? ==> DrainInv(s, pc.d))
  }

  ghost predicate Flipped(s: Shared, move: Move) {
    s.isOpen == move.open && s.hist.told == s.hist.committed && |s.hist.flips| == |s.hist.told| + 1
  }

  ghost predicate Told(s: Shared, move: Move) {
    s.hist.told == s.hist.committed + [Transition(move.open, move.now)] && |s.hist.flips| == |s.hist.told|
  }

  ghost predicate CallInv(s: Shared, t: nat, c: Call) {
    && (HoldsLock(c.pc) <==> s.lock == Some(t))
    && (DrainRole(c.pc) <==> s.hist.deliverer == Some(t))
    && PcInv(s, c.pc)
  }

  /** A non-empty queue is somebody's job. */
  ghost predicate NotStranded(w: World) {
    w.shared.pending != [] ==>
      w.shared.delivering || exists t :: 0 <= t < |w.calls| && OnTheWay(w.calls[t].pc)
  }

  ghost predicate Inv(w: World) {
    && SharedInv(w.shared)
    && (forall t :: 0 <= t < |w.calls| ==> CallInv(w.shared, t, w.calls[t]))
    && (w.shared.lock.Some? ==> w.shared.lock.value < |w.calls|)
    && (w.shared.hist.deliverer.Some? ==> w.shared.hist.deliverer.value < |w.calls|)
    && NotStranded(w)
  }

  /** What a step of any other call, or of the environment, leaves alone for call `u`. */
  ghost predicate Rely(s: Shared, s': Shared, u: nat) {
    && s.clock <= s'.clock
    && (s.lock == Some(u) <==> s'.lock == Some(u))
    && (s.hist.deliverer == Some(u) <==> s'.hist.deliverer == Some(u))
    && (s.lock == Some(u) ==>
          && s.isOpen == s'.isOpen && s.hist.flips == s'.hist.flips && s.hist.told == s'.hist.told
          && s.hist.committed == s'.hist.committed)
    && (s.hist.deliverer == Some(u) ==> s.hist.started == s'.hist.started && s.hist.delivered == s'.hist.delivered)
  }

  lemma RelyKeepsCall(s: Shared, s': Shared, u: nat, c: Call)
    requires CallInv(s, u, c) && Rely(s, s', u)
    ensures CallInv(s', u, c)
  {}

  /** s' differs from s in nothing that SharedInv, Rely or PcInv look at. */
  predicate SameLog(s: Shared, s': Shared) {
    && s.clock == s'.clock && s.isOpen == s'.isOpen && s.lock == s'.lock
    && s.pending == s'.pending && s.delivering == s'.delivering
    && s'.hist.(results := s.hist.results, autoCloses := s.hist.autoCloses) == s.hist
  }

  lemma SameLogKeeps(s: Shared, s': Shared)
    requires SharedInv(s) && SameLog(s, s')
    ensures SharedInv(s') && forall u :: Rely(s, s', u)
  {}

  /** A step of Execute outside transitionTo touches none of this. */
  predicate Harmless(s: Shared, s': Shared, c': Call) {
    SameLog(s, s') && !HoldsLock(c'.pc) && !DrainRole(c'.pc) && InThePast(s', c'.pc)
  }

  lemma GateIsHarmless(cfg: Settings, s: Shared, c: Call, g: GatePc, x: Choice)
    ensures var (s', c') := StepGate(cfg, s, c, g, x); Harmless(s, s', c')
  {}

  lemma RunIsHarmless(s: Shared, t: nat, c: Call, r: RunPc, x: Choice)
    requires InThePast(s, Running(r))
    ensures var (s', c') := StepRun(s, t, c, r, x); Harmless(s, s', c')
  {}

  lemma VerdictIsHarmless(cfg: Settings, s: Shared, c: Call, v: VerdictPc, x: Choice)
    requires InThePast(s, Judging(v))
    ensures var (s', c') := StepVerdict(cfg, s, c, v, x); Harmless(s, s', c')
  {}

  lemma TailIsHarmless(cfg: Settings, s: Shared, c: Call, e: TailPc, x: Choice)
    ensures var (s', c') := StepTail(cfg, s, c, e, x); Harmless(s, s', c')
  {}

  /** At most the lock and the deliverer role change hands, between call t and nobody, while Quiet. */
  predicate Handover(s: Shared, s': Shared, t: nat) {
    && Quiet(s.hist) && s'.delivering == s'.hist.deliverer.Some?
    && s'.hist.(deliverer := s.hist.deliverer) == s.hist
    && s'.(lock := s.lock, delivering := s.delivering, hist := s.hist) == s
    && s.lock in {None, Some(t)} && s'.lock in {None, Some(t)}
    && (s.hist.deliverer == s'.hist.deliverer
        || (&& s.hist.deliverer in {None, Some(t)} && s'.hist.deliverer in {None, Some(t)}
            && s.hist.started == s.hist.delivered))
  }

  lemma HandoverKeeps(s: Shared, s': Shared, t: nat)
    requires SharedInv(s) && Handover(s, s', t)
    ensures SharedInv(s') && forall u :: u != t ==> Rely(s, s', u)
  {}

  lemma FlipKeeps(s: Shared, t: nat, c: Call, move: Move, asked: nat)
    requires SharedInv(s) && CallInv(s, t, c) && c.pc == Committing(Flip(move, asked))
    ensures var s' := Flipping(s, move, asked);
      SharedInv(s') && CommitInv(s', Stamp(move)) && forall u :: u != t ==> Rely(s, s', u)
  {}

  lemma TellKeeps(cfg: Settings, s: Shared, t: nat, c: Call, move: Move)
    requires SharedInv(s) && CallInv(s, t, c) && c.pc == Committing(TellCloser(move))
    ensures var s' := Telling(cfg, s, move);
      SharedInv(s') && CommitInv(s', TellOpener(move)) && forall u :: u != t ==> Rely(s, s', u)
  {}

  lemma EnqueueKeeps(s: Shared, t: nat, c: Call, move: Move)
    requires SharedInv(s) && CallInv(s, t, c) && c.pc == Committing(Enqueue(move))
    ensures var s' := Queueing(s, move);
      SharedInv(s') && CommitInv(s', Queued) && forall u :: u != t ==> Rely(s, s', u)
  {}

  lemma MoveIsHandover(s: Shared, t: nat, c: Call, m: MovePc)
    requires SharedInv(s) && CallInv(s, t, c) && c.pc == Moving(m) && Enabled(s, c)
    ensures var (s', c') := StepMove(s, t, c, m);
      (SameLog(s, s') || Handover(s, s', t)) && CallInv(s', t, c')
  {}

  lemma StampIsLate(cfg: Settings, s: Shared, t: nat, c: Call, move: Move, x: Choice)
    requires SharedInv(s) && CallInv(s, t, c) && c.pc == Committing(Stamp(move))
    ensures var (s', c') := StepCommit(cfg, s, c, Stamp(move), x); SameLog(s, s') && CallInv(s', t, c')
  {}

  lemma CommitIsHandover(cfg: Settings, s: Shared, t: nat, c: Call, k: CommitPc, x: Choice)
    requires SharedInv(s) && CallInv(s, t, c) && c.pc == Committing(k)
    requires !k.Flip? && !k.Stamp? && !k.TellCloser? && !k.Enqueue?
    ensures var (s', c') := StepCommit(cfg, s, c, k, x);
      (SameLog(s, s') || Handover(s, s', t)) && CallInv(s', t, c')
  {}

  lemma PopKeeps(s: Shared, t: nat, c: Call)
    requires SharedInv(s) && CallInv(s, t, c) && c.pc == Draining(Loop) && s.pending != []
    ensures var s' := Popping(s);
      SharedInv(s') && DrainInv(s', Notify(s.pending[0])) && forall u :: u != t ==> Rely(s, s', u)
  {
    assert s.pending == [s.pending[0]] + s.pending[1..];
  }

  lemma NotifyKeeps(s: Shared, t: nat, c: Call, next: Transition, x: Choice)
    requires SharedInv(s) && CallInv(s, t, c) && c.pc == Draining(Notify(next))
    ensures var (s', c') := StepDrain(s, t, c, c.pc.d, x);
      SharedInv(s') && CallInv(s', t, c') && forall u :: u != t ==> Rely(s, s', u)
  {}

  lemma DrainIsHandover(s: Shared, t: nat, c: Call, d: DrainPc, x: Choice)
    requires SharedInv(s) && CallInv(s, t, c) && c.pc == Draining(d) && Enabled(s, c)
    requires !d.Notify? && (d.Loop? ==> s.pending == [])
    ensures var (s', c') := StepDrain(s, t, c, d, x);
      (SameLog(s, s') || Handover(s, s', t)) && CallInv(s', t, c')
  {}

  /** A step of call t turned s into s' and the call into c'. */
  ghost predicate Kept(s: Shared, s': Shared, t: nat, c': Call) {
    SharedInv(s') && CallInv(s', t, c') && forall u :: u != t ==> Rely(s, s', u)
  }

  lemma SimpleStepKept(s: Shared, s': Shared, t: nat, c': Call)
    requires SharedInv(s) && (SameLog(s, s') || Handover(s, s', t)) && CallInv(s', t, c')
    ensures Kept(s, s', t, c')
  {
    if SameLog(s, s') { SameLogKeeps(s, s'); } else { HandoverKeeps(s, s', t); }
  }

  lemma OtherCommitKept(cfg: Settings, s: Shared, t: nat, c: Call, k: CommitPc, x: Choice)
    requires SharedInv(s) && CallInv(s, t, c) && c.pc == Committing(k) && !k.Flip? && !k.TellCloser? && !k.Enqueue?
    ensures var (s', c') := StepCommit(cfg, s, c, k, x); Kept(s, s', t, c')
  {
    if k.Stamp? { StampIsLate(cfg, s, t, c, k.move, x); } else { CommitIsHandover(cfg, s, t, c, k, x); }
    var (s', c') := StepCommit(cfg, s, c, k, x);
    SimpleStepKept(s, s', t, c');
  }

  lemma CommitKept(cfg: Settings, s: Shared, t: nat, c: Call, k: CommitPc, x: Choice)
    requires SharedInv(s) && CallInv(s, t, c) && c.pc == Committing(k)
    ensures var (s', c') := StepCommit(cfg, s, c, k, x); Kept(s, s', t, c')
  {
    match k
    case Flip(move, asked) => FlipKeeps(s, t, c, move, asked);
    case TellCloser(move) => TellKeeps(cfg, s, t, c, move);
    case Enqueue(move) => EnqueueKeeps(s, t, c, move);
    case _ => OtherCommitKept(cfg, s, t, c, k, x);
  }

  lemma DrainKept(s: Shared, t: nat, c: Call, d: DrainPc, x: Choice)
    requires SharedInv(s) && CallInv(s, t, c) && c.pc == Draining(d) && Enabled(s, c)
    ensures var (s', c') := StepDrain(s, t, c, d, x); Kept(s, s', t, c')
  {
    var (s', c') := StepDrain(s, t, c, d, x);
    if d.Notify? {
      NotifyKeeps(s, t, c, d.next, x);
    } else if d.Loop? && s.pending != [] {
      PopKeeps(s, t, c);
    } else {
      DrainIsHandover(s, t, c, d, x); SimpleStepKept(s, s', t, c');
    }
  }

  lemma StepKept(cfg: Settings, s: Shared, t: nat, c: Call, x: Choice)
    requires SharedInv(s) && CallInv(s, t, c) && Enabled(s, c)
    ensures var (s', c') := StepCall(cfg, s, t, c, x); Kept(s, s', t, c')
  {
    var (s', c') := StepCall(cfg, s, t, c, x);
    match c.pc
    case Moving(m) => MoveIsHandover(s, t, c, m); SimpleStepKept(s, s', t, c');
    case Committing(k) => CommitKept(cfg, s, t, c, k, x);
    case Draining(d) => DrainKept(s, t, c, d, x);
    case Gating(g) => GateIsHarmless(cfg, s, c, g, x); SimpleStepKept(s, s', t, c');
    case Running(r) => RunIsHarmless(s, t, c, r, x); SimpleStepKept(s, s', t, c');
    case Judging(v) => VerdictIsHarmless(cfg, s, c, v, x); SimpleStepKept(s, s', t, c');
    case Ending(e) => TailIsHarmless(cfg, s, c, e, x); SimpleStepKept(s, s', t, c');
    case Done =>
  }

  /** Nobody drains a non-empty queue in s', although in s it was empty or somebody did or call t was about to. */
  predicate Abandoned(s: Shared, s': Shared, pc: Pc) {
    s'.pending != [] && !s'.delivering && (s.pending == [] || s.delivering || OnTheWay(pc))
  }

  lemma CommitAbandonsNothing(cfg: Settings, s: Shared, c: Call, k: CommitPc, x: Choice)
    requires c.pc == Committing(k)
    ensures var (s', c') := StepCommit(cfg, s, c, k, x); Abandoned(s, s', c.pc) ==> OnTheWay(c'.pc)
  {}

  lemma DrainAbandonsNothing(s: Shared, t: nat, c: Call, d: DrainPc, x: Choice)
    requires c.pc == Draining(d) && (DrainRole(c.pc) ==> s.delivering)
    ensures var (s', c') := StepDrain(s, t, c, d, x); Abandoned(s, s', c.pc) ==> OnTheWay(c'.pc)
  {}

  lemma StepAbandonsNothing(cfg: Settings, s: Shared, t: nat, c: Call, x: Choice)
    requires SharedInv(s) && CallInv(s, t, c) && Enabled(s, c)
    ensures var (s', c') := StepCall(cfg, s, t, c, x); Abandoned(s, s', c.pc) ==> OnTheWay(c'.pc)
  {
    match c.pc
    case Committing(k) => CommitAbandonsNothing(cfg, s, c, k, x);
    case Draining(d) => DrainAbandonsNothing(s, t, c, d, x);
    case Moving(m) => MoveIsHandover(s, t, c, m);
    case Gating(g) => GateIsHarmless(cfg, s, c, g, x);
    case Running(r) => RunIsHarmless(s, t, c, r, x);
    case Judging(v) => VerdictIsHarmless(cfg, s, c, v, x);
    case Ending(e) => TailIsHarmless(cfg, s, c, e, x);
    case Done =>
  }

  lemma StepKeepsNotStranded(cfg: Settings, w: World, t: nat, x: Choice)
    requires Inv(w) && Possible(cfg, w, Step(t, x))
    ensures NotStranded(Apply(cfg, w, Step(t, x)))
  {
    var w' := Apply(cfg, w, Step(t, x));
    StepAbandonsNothing(cfg, w.shared, t, w.calls[t], x);
    if w'.shared.pending != [] && !w'.shared.delivering && !OnTheWay(w'.calls[t].pc) {
      assert !Abandoned(w.shared, w'.shared, w.calls[t].pc);
      var u :| 0 <= u < |w.calls| && OnTheWay(w.calls[u].pc);
      assert w'.calls[u] == w.calls[u];
    }
  }

  lemma Install(w: World, t: nat, s': Shared, c': Call, w': World)
    requires Inv(w) && t < |w.calls| && Kept(w.shared, s', t, c')
    requires w' == World(s', w.calls[t := c']) && NotStranded(w')
    ensures Inv(w')
  {
    forall u | 0 <= u < |w'.calls|
      ensures CallInv(s', u, w'.calls[u])
    {
      if u != t { RelyKeepsCall(w.shared, s', u, w.calls[u]); }
    }
    if s'.lock.Some? { assert s'.lock.value == t || Rely(w.shared, s', s'.lock.value); }
    if s'.hist.deliverer.Some? { assert s'.hist.deliverer.value == t || Rely(w.shared, s', s'.hist.deliverer.value); }
  }

  lemma StepKeepsInv(cfg: Settings, w: World, t: nat, x: Choice)
    requires Inv(w) && Possible(cfg, w, Step(t, x))
    ensures Inv(Apply(cfg, w, Step(t, x)))
  {
    var (s', c') := StepCall(cfg, w.shared, t, w.calls[t], x);
    StepKept(cfg, w.shared, t, w.calls[t], x);
    StepKeepsNotStranded(cfg, w, t, x);
    Install(w, t, s', c', Apply(cfg, w, Step(t, x)));
  }

  /** The invariant holds after every run of a new circuit. */
  lemma {:induction false} EveryRunKeepsInv(cfg: Settings, clock: int, run: seq<Action>)
    ensures var w := After(cfg, Init(clock), run); w.Some? ==> Inv(w.value)
    decreases |run|
  {
    if run != [] {
      EveryRunKeepsInv(cfg, clock, run[..|run| - 1]);
      var before := After(cfg, Init(clock), run[..|run| - 1]);
      var a := run[|run| - 1];
      if before.Some? && Possible(cfg, before.value, a) {
        ActionKeepsInv(cfg, before.value, a);
      }
    }
  }

  lemma BeginKeepsInv(w: World, c: Call, w': World)
    requires Inv(w) && w' == World(w.shared, w.calls + [c]) && PcInv(w.shared, c.pc)
    requires !HoldsLock(c.pc) && !DrainRole(c.pc)
    ensures Inv(w')
  {
    assert forall u :: 0 <= u < |w.calls| ==> w'.calls[u] == w.calls[u];
    if w.shared.pending != [] && !w.shared.delivering {
      var u :| 0 <= u < |w.calls| && OnTheWay(w.calls[u].pc);
      assert OnTheWay(w'.calls[u].pc);
    }
  }

  lemma TimeKeeps(s: Shared, s': Shared)
    requires SharedInv(s) && s.clock <= s'.clock && SameLog(s.(clock := s'.clock), s')
    ensures SharedInv(s') && forall u :: Rely(s, s', u)
  {}

  /** The clock, the overrides and the timers touch nothing of this, but for the time. */
  lemma EnvironmentKeepsInv(w: World, s': Shared)
    requires Inv(w) && w.shared.clock <= s'.clock && SameLog(w.shared.(clock := s'.clock), s')
    ensures Inv(World(s', w.calls))
  {
    TimeKeeps(w.shared, s');
    forall u | 0 <= u < |w.calls|
      ensures CallInv(s', u, w.calls[u])
    {
      RelyKeepsCall(w.shared, s', u, w.calls[u]);
    }
  }

  lemma ActionKeepsInv(cfg: Settings, w: World, a: Action)
    requires Inv(w) && Possible(cfg, w, a)
    ensures Inv(Apply(cfg, w, a))
  {
    match a
    case Step(t, x) => StepKeepsInv(cfg, w, t, x);
    case Begin(pc) => BeginKeepsInv(w, Call(pc, false), Apply(cfg, w, a));
    case _ => EnvironmentKeepsInv(w, Apply(cfg, w, a).shared);
  }

  // ---- What follows for the listeners ----

  predicate InListener(pc: Pc) {
    pc.Draining? && (pc.d.Notify? || pc.d.Listening?)
  }

  predicate Idle(w: World) {
    forall t :: 0 <= t < |w.calls| ==> w.calls[t].pc.Done?
  }

  /** At rest nobody holds the lock or the deliverer role, and the queue is empty. */
  lemma IdleIsQuiet(w: World)
    requires Inv(w) && Idle(w)
    ensures w.shared.lock.None? && !w.shared.delivering && w.shared.pending == []
  {
    forall t | 0 <= t < |w.calls|
      ensures w.shared.lock != Some(t) && w.shared.hist.deliverer != Some(t) && !OnTheWay(w.calls[t].pc)
    {
      assert CallInv(w.shared, t, w.calls[t]);
    }
  }

  ghost predicate Ordered(s: Shared) {
    && Alternating(s.hist.committed) && InTimeOrder(s.hist.committed)
    && StampedAfterFlip(s.hist.committed, s.hist.flips)
    && (s.lock.None? ==>
          && |s.hist.flips| == |s.hist.committed|
          && s.isOpen == (s.hist.committed != [] && s.hist.committed[|s.hist.committed| - 1].open))
  }

  lemma PrefixInOrder(ts: seq<Transition>, us: seq<Transition>, flips: seq<int>)
    requires ts <= us && Alternating(us) && InTimeOrder(us) && StampedAfterFlip(us, flips)
    ensures Alternating(ts) && InTimeOrder(ts) && StampedAfterFlip(ts, flips)
  {
    assert forall i :: 0 <= i < |ts| ==> ts[i] == us[i];
  }

  lemma InvGivesOrder(s: Shared)
    requires SharedInv(s)
    ensures Ordered(s)
  {
    PrefixInOrder(s.hist.committed, s.hist.told, s.hist.flips);
  }

  /** The record that OpenCircuit, CloseCircuit and the automatic transitions leave, whatever the interleaving. */
  lemma {:induction false} TransitionsAreOrdered(cfg: Settings, clock: int, run: seq<Action>)
    requires After(cfg, Init(clock), run).Some?
    ensures Ordered(After(cfg, Init(clock), run).value.shared)
  {
    EveryRunKeepsInv(cfg, clock, run);
    InvGivesOrder(After(cfg, Init(clock), run).value.shared);
  }

  /** Listeners hear every committed transition in commit order, one at a time: what was popped and what is queued make
      up what was committed, calls start in the order of popping, and no two calls are inside listeners. */
  lemma {:induction false} ListenersHearInOrder(cfg: Settings, clock: int, run: seq<Action>)
    requires After(cfg, Init(clock), run).Some?
    ensures
      var w := After(cfg, Init(clock), run).value;
      var h := w.shared.hist;
      && h.delivered + w.shared.pending == h.committed
      && h.started <= h.delivered
      && (h.started != h.delivered ==>
            exists t :: && 0 <= t < |w.calls| && w.calls[t].pc.Draining? && w.calls[t].pc.d.Notify?
                        && h.delivered == h.started + [w.calls[t].pc.d.next])
      && forall t, u ::
           0 <= t < |w.calls| && 0 <= u < |w.calls| && InListener(w.calls[t].pc) && InListener(w.calls[u].pc) ==>
             t == u
  {
    EveryRunKeepsInv(cfg, clock, run);
    var w := After(cfg, Init(clock), run).value;
    var h := w.shared.hist;
    if h.started != h.delivered {
      var t := h.deliverer.value;
      assert CallInv(w.shared, t, w.calls[t]);
    }
    forall t, u | 0 <= t < |w.calls| && 0 <= u < |w.calls| && InListener(w.calls[t].pc) && InListener(w.calls[u].pc)
      ensures t == u
    {
      assert CallInv(w.shared, t, w.calls[t]) && CallInv(w.shared, u, w.calls[u]);
    }
  }

  /** A queued notification always has a call that will see to it, even after a listener panicked; the deliverer is
      unique; and once no call is under way, all of them were delivered. */
  lemma {:induction false} NoNotificationIsStranded(cfg: Settings, clock: int, run: seq<Action>)
    requires After(cfg, Init(clock), run).Some?
    ensures
      var w := After(cfg, Init(clock), run).value;
      && (w.shared.pending != [] ==>
            exists t :: 0 <= t < |w.calls| && (DrainRole(w.calls[t].pc) || OnTheWay(w.calls[t].pc)))
      && (forall t, u ::
            0 <= t < |w.calls| && 0 <= u < |w.calls| && DrainRole(w.calls[t].pc) && DrainRole(w.calls[u].pc) ==>
              t == u)
      && (Idle(w) ==> w.shared.hist.started == w.shared.hist.committed)
  {
    EveryRunKeepsInv(cfg, clock, run);
    var w := After(cfg, Init(clock), run).value;
    if w.shared.hist.deliverer.Some? {
      var t := w.shared.hist.deliverer.value;
      assert CallInv(w.shared, t, w.calls[t]);
    }
    forall t, u | 0 <= t < |w.calls| && 0 <= u < |w.calls| && DrainRole(w.calls[t].pc) && DrainRole(w.calls[u].pc)
      ensures t == u
    {
      assert CallInv(w.shared, t, w.calls[t]) && CallInv(w.shared, u, w.calls[u]);
    }
  }

  /** The call is in code of the user, which may itself be waiting: a runFunc, a fallbackFunc, a listener, or the
      RunMetrics. */
  predicate InUserCode(pc: Pc) {
    || (pc.Running? && (pc.r.InFunc? || pc.r.Report?))
    || (pc.Ending? && pc.e.InFallback?)
    || (pc.Draining? && pc.d.Listening?)
  }

  /** The protocol never deadlocks on transitionMu: while some call is under way outside of user code, some call outside
      of user code can take its next step, whatever that step's choices. */
  lemma {:induction false} SomeCallCanStep(cfg: Settings, clock: int, run: seq<Action>)
    requires After(cfg, Init(clock), run).Some? && !Idle(After(cfg, Init(clock), run).value)
    ensures var w := After(cfg, Init(clock), run).value;
      && (exists t :: 0 <= t < |w.calls| && Enabled(w.shared, w.calls[t]))
      && ((exists t :: 0 <= t < |w.calls| && !w.calls[t].pc.Done? && !InUserCode(w.calls[t].pc)) ==>
            exists t :: 0 <= t < |w.calls| && Enabled(w.shared, w.calls[t]) && !InUserCode(w.calls[t].pc))
  {
    EveryRunKeepsInv(cfg, clock, run);
    var w := After(cfg, Init(clock), run).value;
    var t :| 0 <= t < |w.calls| && !w.calls[t].pc.Done?;
    if w.shared.lock.Some? {
      assert CallInv(w.shared, w.shared.lock.value, w.calls[w.shared.lock.value]);
      assert Enabled(w.shared, w.calls[w.shared.lock.value]) && !InUserCode(w.calls[w.shared.lock.value].pc);
    } else {
      assert Enabled(w.shared, w.calls[t]);
      if u :| 0 <= u < |w.calls| && !w.calls[u].pc.Done? && !InUserCode(w.calls[u].pc) {
        assert Enabled(w.shared, w.calls[u]);
      }
    }
  }

  // ---- Termination ----

  function Rank(pc: Pc): nat {
    match pc
    case Done => 0
    case Ending(e) =>
      (match e case FallbackRelease => 1 case InFallback => 2 case FallbackAcquired(_) => 3 case FallbackGate => 4
               case Release => 5)
    case Draining(d) =>
      (match d case Loop => 6 case Relock => 7 case Entered => 7 case WantDrain => 8 case Cleanup => 9 case Unwind => 10
               case Listening(_) => 11 case Notify(_) => 12)
    case Committing(k) =>
      (match k case Queued => 9 case Enqueue(_) => 17 case TellOpener(_) => 18 case TellCloser(_) => 19
               case Stamp(_) => 20
               case Flip(_, _) => 21 case ReAsk(_) => 22 case Locked(_) => 23)
    case Moving(m) => (match m case WantLock(_) => 24 case PreCheck(_) => 25 case ReadClock(_) => 26)
    case Judging(v) =>
      (match v case PreShouldClose(_) => 26 case PreShouldOpen(_) => 26 case SuccessForceOpen(_) => 27
               case AttemptIsOpen(_) => 27
               case SuccessIsOpen(_) => 28 case AttemptForced(_) => 28 case FailureIsOpen(_) => 29)
    case Running(r) => (match r case Report(_, _, _, _) => 30 case Returned(_, _, _) => 31 case InFunc(_, _) => 32)
    case Gating(g) =>
      (match g case Acquired(_, _, _) => 33 case Acquire(_, _) => 34 case AskOpener(_, _) => 35
               case AskCloser(_, _) => 36 case AskLimit(_, _) => 37 case AskIsOpen(_) => 38
               case AskForcedClosed(_) => 39 case AskForceOpen(_) => 40
               case Arrive => 41)
  }

  function TotalRank(calls: seq<Call>): nat {
    if calls == [] then 0 else TotalRank(calls[..|calls| - 1]) + Rank(calls[|calls| - 1].pc)
  }

  /** An upper bound on the steps that the calls under way can still take. */
  function Work(w: World): nat { 7 * |w.shared.pending| + TotalRank(w.calls) }

  lemma {:induction false} TotalRankOfUpdate(calls: seq<Call>, t: nat, c: Call)
    requires t < |calls|
    ensures TotalRank(calls[t := c]) == TotalRank(calls) - Rank(calls[t].pc) + Rank(c.pc)
  {
    var n := |calls| - 1;
    if t == n {
      assert calls[t := c][..n] == calls[..n];
    } else {
      assert calls[t := c][..n] == calls[..n][t := c];
      TotalRankOfUpdate(calls[..n], t, c);
    }
  }

  /** The step leaves less to do. */
  predicate Worked(s: Shared, c: Call, s': Shared, c': Call) {
    7 * |s'.pending| + Rank(c'.pc) < 7 * |s.pending| + Rank(c.pc)
  }

  lemma DrainDoesWork(s: Shared, t: nat, c: Call, d: DrainPc, x: Choice)
    requires c.pc == Draining(d)
    ensures var (s', c') := StepDrain(s, t, c, d, x); Worked(s, c, s', c')
  {}

  lemma CommitDoesWork(cfg: Settings, s: Shared, c: Call, k: CommitPc, x: Choice)
    requires c.pc == Committing(k)
    ensures var (s', c') := StepCommit(cfg, s, c, k, x); Worked(s, c, s', c')
  {}

  lemma GateDoesWork(cfg: Settings, s: Shared, c: Call, g: GatePc, x: Choice)
    requires c.pc == Gating(g)
    ensures var (s', c') := StepGate(cfg, s, c, g, x); Worked(s, c, s', c')
  {}

  lemma VerdictDoesWork(cfg: Settings, s: Shared, c: Call, v: VerdictPc, x: Choice)
    requires c.pc == Judging(v)
    ensures var (s', c') := StepVerdict(cfg, s, c, v, x); Worked(s, c, s', c')
  {}

  lemma StepDoesWork(cfg: Settings, s: Shared, t: nat, c: Call, x: Choice)
    requires Enabled(s, c)
    ensures var (s', c') := StepCall(cfg, s, t, c, x); Worked(s, c, s', c')
  {
    match c.pc
    case Draining(d) => DrainDoesWork(s, t, c, d, x);
    case Committing(k) => CommitDoesWork(cfg, s, c, k, x);
    case Gating(g) => GateDoesWork(cfg, s, c, g, x);
    case Judging(v) => VerdictDoesWork(cfg, s, c, v, x);
    case _ =>
  }

  predicate NoBegin(run: seq<Action>) {
    forall i :: 0 <= i < |run| ==> !run[i].Begin?
  }

  function StepsIn(run: seq<Action>): nat {
    if run == [] then 0 else StepsIn(run[..|run| - 1]) + if run[|run| - 1].Step? then 1 else 0
  }

  /** Without new calls everything comes to rest: a run can take no more steps than the work at its start, however the
      calls interleave and however often listeners panic. With SomeCallCanStep and NoNotificationIsStranded: every
      maximal run ends idle, with every notification delivered. */
  lemma {:induction false} StepsRunOut(cfg: Settings, w: World, run: seq<Action>)
    requires After(cfg, w, run).Some? && NoBegin(run)
    ensures StepsIn(run) + Work(After(cfg, w, run).value) <= Work(w)
    decreases |run|
  {
    if run != [] {
      var before := run[..|run| - 1];
      StepsRunOut(cfg, w, before);
      var v := After(cfg, w, before).value;
      var a := run[|run| - 1];
      if a.Step? {
        StepDoesWork(cfg, v.shared, a.call, v.calls[a.call], a.choice);
        var (s', c') := StepCall(cfg, v.shared, a.call, v.calls[a.call], a.choice);
        TotalRankOfUpdate(v.calls, a.call, c');
      }
    }
  }
}
