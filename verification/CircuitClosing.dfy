/** The other half of CircuitHalfOpen: a close that is due is not missed, and no sleep window is too long. */
module CircuitClosing {
  import opened Base
  import opened CircuitProtocol
  import Delivery = CircuitDelivery
  import HalfOpen = CircuitHalfOpen

  // ---- No close is missed ----

  /** Enough successes are counted, and there is at least one. */
  predicate Enough(cfg: Settings, s: Shared) { s.closer.successes >= Max(1, cfg.closer.required) }

  /** The call is between the counting of its success and the flip to closed. */
  predicate OnTheWay(pc: Pc) {
    match pc
    case Judging(v) => v.SuccessIsOpen? || v.SuccessForceOpen? || v.PreShouldClose?
    case Moving(m) => !m.ReadClock? && m.move.auto && !m.move.open
    case Committing(k) => (k.Locked? || k.ReAsk? || k.Flip?) && k.move.auto && !k.move.open
    case _ => false
  }

  /** No RunMetrics listener panics on a success, and no success finds ForceOpen set when it tests that. */
  predicate Unhindered(w: World, a: Action) {
    a.Step? && a.call < |w.calls| ==>
      match w.calls[a.call].pc
      case Running(r) => r.Report? && r.outcome.Succeeded? ==> a.choice.yes
      case Judging(v) => v.SuccessForceOpen? ==> !w.shared.forceOpen
      case _ => true
  }

  predicate UnhinderedRun(cfg: Settings, clock: int, run: seq<Action>)
    decreases |run|
  {
    run != [] ==>
      var front := run[..|run| - 1];
      && UnhinderedRun(cfg, clock, front)
      && (After(cfg, Init(clock), front).Some? ==>
            Unhindered(After(cfg, Init(clock), front).value, run[|run| - 1]))
  }

  /** A closer that is not armed has counted nothing. */
  predicate CountsWhenArmed(s: Shared) { s.closer.openedAt.None? ==> s.closer.successes == 0 }

  ghost predicate Inv(cfg: Settings, w: World) {
    && CountsWhenArmed(w.shared)
    && (w.shared.isOpen && Enough(cfg, w.shared) ==> exists t :: 0 <= t < |w.calls| && OnTheWay(w.calls[t].pc))
  }

  /** If a close is due after the step, then the call is on its way, or one was due before it and the call was not. */
  predicate Heeds(cfg: Settings, s: Shared, c: Call, s': Shared, c': Call) {
    && CountsWhenArmed(s')
    && (s'.isOpen && Enough(cfg, s') ==>
          OnTheWay(c'.pc) || (!OnTheWay(c.pc) && s.isOpen && Enough(cfg, s)))
  }

  lemma CommitHeeds(cfg: Settings, s: Shared, t: nat, c: Call, k: CommitPc, x: Choice)
    requires Delivery.SharedInv(s) && Delivery.CallInv(s, t, c) && HalfOpen.SharedInv(cfg, s)
    requires c.pc == Committing(k) && CountsWhenArmed(s)
    ensures var (s', c') := StepCommit(cfg, s, c, k, x); Heeds(cfg, s, c, s', c')
  {}

  lemma GateHeeds(cfg: Settings, s: Shared, c: Call, g: GatePc, x: Choice)
    requires c.pc == Gating(g) && CountsWhenArmed(s)
    ensures var (s', c') := StepGate(cfg, s, c, g, x); Heeds(cfg, s, c, s', c')
  {}

  lemma RunHeeds(cfg: Settings, s: Shared, t: nat, c: Call, r: RunPc, x: Choice)
    requires c.pc == Running(r) && CountsWhenArmed(s) && (r.Report? && r.outcome.Succeeded? ==> x.yes)
    ensures var (s', c') := StepRun(s, t, c, r, x); Heeds(cfg, s, c, s', c')
  {}

  lemma DrainHeeds(cfg: Settings, s: Shared, t: nat, c: Call, d: DrainPc, x: Choice)
    requires c.pc == Draining(d) && CountsWhenArmed(s)
    ensures var (s', c') := StepDrain(s, t, c, d, x); Heeds(cfg, s, c, s', c')
  {}

  lemma OtherHeeds(cfg: Settings, s: Shared, t: nat, c: Call, x: Choice)
    requires CountsWhenArmed(s) && !c.pc.Committing? && !c.pc.Gating? && !c.pc.Running? && !c.pc.Draining?
    requires c.pc.Judging? && c.pc.v.SuccessForceOpen? ==> !s.forceOpen
    ensures var (s', c') := StepCall(cfg, s, t, c, x); Heeds(cfg, s, c, s', c')
  {}

  lemma StepHeeds(cfg: Settings, w: World, t: nat, x: Choice)
    requires HalfOpen.Inv(cfg, w) && CountsWhenArmed(w.shared)
    requires Possible(cfg, w, Step(t, x)) && Unhindered(w, Step(t, x))
    ensures var (s', c') := StepCall(cfg, w.shared, t, w.calls[t], x); Heeds(cfg, w.shared, w.calls[t], s', c')
  {
    var s, c := w.shared, w.calls[t];
    assert Delivery.CallInv(s, t, c);
    match c.pc
    case Committing(k) => CommitHeeds(cfg, s, t, c, k, x);
    case Gating(g) => GateHeeds(cfg, s, c, g, x);
    case Running(r) => RunHeeds(cfg, s, t, c, r, x);
    case Draining(d) => DrainHeeds(cfg, s, t, c, d, x);
    case _ => OtherHeeds(cfg, s, t, c, x);
  }

  lemma Install(cfg: Settings, w: World, t: nat, s': Shared, c': Call, w': World)
    requires Inv(cfg, w) && t < |w.calls| && Heeds(cfg, w.shared, w.calls[t], s', c')
    requires w' == World(s', w.calls[t := c'])
    ensures Inv(cfg, w')
  {
    if s'.isOpen && Enough(cfg, s') {
      if OnTheWay(c'.pc) {
        assert OnTheWay(w'.calls[t].pc);
      } else {
        var u :| 0 <= u < |w.calls| && OnTheWay(w.calls[u].pc);
        assert OnTheWay(w'.calls[u].pc);
      }
    }
  }

  lemma ActionKeepsInv(cfg: Settings, w: World, a: Action)
    requires HalfOpen.Inv(cfg, w) && Inv(cfg, w) && Possible(cfg, w, a) && Unhindered(w, a)
    ensures Inv(cfg, Apply(cfg, w, a))
  {
    var w' := Apply(cfg, w, a);
    if a.Step? {
      var (s', c') := StepCall(cfg, w.shared, a.call, w.calls[a.call], a.choice);
      StepHeeds(cfg, w, a.call, a.choice);
      Install(cfg, w, a.call, s', c', w');
    } else if w.shared.isOpen && Enough(cfg, w.shared) {
      var u :| 0 <= u < |w.calls| && OnTheWay(w.calls[u].pc);
      assert OnTheWay(w'.calls[u].pc);
    }
  }

  lemma {:induction false} EveryRunKeepsInv(cfg: Settings, clock: int, run: seq<Action>)
    requires cfg.closer.sleepWindow > 0 && UnhinderedRun(cfg, clock, run)
    ensures var w := After(cfg, Init(clock), run); w.Some? ==> Inv(cfg, w.value)
    decreases |run|
  {
    if run != [] {
      var front := run[..|run| - 1];
      EveryRunKeepsInv(cfg, clock, front);
      HalfOpen.EveryRunKeepsInv(cfg, clock, front);
      var before := After(cfg, Init(clock), front);
      if before.Some? && Possible(cfg, before.value, run[|run| - 1]) {
        ActionKeepsInv(cfg, before.value, run[|run| - 1]);
      }
    }
  }

  /** No close is missed, under any schedule: whatever requests, failures, manual transitions and panics of transition
      listeners come, an open circuit that has counted enough successes in a row since it opened has a call that is
      about to close it. At rest there is none, so that fewer are counted. */
  lemma {:induction false} NoCloseIsMissed(cfg: Settings, clock: int, run: seq<Action>)
    requires cfg.closer.sleepWindow > 0 && UnhinderedRun(cfg, clock, run) && After(cfg, Init(clock), run).Some?
    ensures
      var w := After(cfg, Init(clock), run).value;
      && w.shared.closer.successes == HalfOpen.Streak(w.shared.hist.results)
      && (w.shared.isOpen && HalfOpen.Streak(w.shared.hist.results) >= Max(1, cfg.closer.required) ==>
            exists t :: 0 <= t < |w.calls| && OnTheWay(w.calls[t].pc))
      && (w.shared.isOpen && Delivery.Idle(w) ==>
            HalfOpen.Streak(w.shared.hist.results) < Max(1, cfg.closer.required))
  {
    EveryRunKeepsInv(cfg, clock, run);
    HalfOpen.EveryRunKeepsInv(cfg, clock, run);
  }

  // ---- No sleep window is too long ----

  /** The armed window ends at most one SleepWindow from now, and so does the timer of the current window. */
  predicate Near(cfg: Settings, s: Shared) {
    && s.armedAt <= s.clock
    && (s.closer.openedAt.Some? ==>
          s.closer.openedAt.value <= s.clock && s.closer.window.nextOpen <= s.clock + cfg.closer.sleepWindow)
  }

  lemma AllowStaysNear(cfg: Settings, s: Shared, c: Call, start: int)
    requires Near(cfg, s) && start <= s.clock && cfg.closer.sleepWindow > 0
    ensures Near(cfg, StepAskCloser(cfg, s, c, start).0)
  {}

  lemma TellStaysNear(cfg: Settings, s: Shared, move: Move)
    requires Near(cfg, s) && move.now <= s.clock && cfg.closer.sleepWindow > 0
    ensures Near(cfg, Telling(cfg, s, move))
  {}

  lemma CommitStaysNear(cfg: Settings, s: Shared, t: nat, c: Call, k: CommitPc, x: Choice)
    requires Delivery.CallInv(s, t, c) && c.pc == Committing(k) && Near(cfg, s) && cfg.closer.sleepWindow > 0
    ensures Near(cfg, StepCommit(cfg, s, c, k, x).0)
  {
    if k.TellCloser? { TellStaysNear(cfg, s, k.move); }
  }

  lemma GateStaysNear(cfg: Settings, s: Shared, c: Call, g: GatePc, x: Choice)
    requires HalfOpen.PcInv(cfg, s, c.pc) && c.pc == Gating(g) && Near(cfg, s) && cfg.closer.sleepWindow > 0
    ensures Near(cfg, StepGate(cfg, s, c, g, x).0)
  {
    if g.AskCloser? { AllowStaysNear(cfg, s, c, g.start); }
  }

  lemma RunStaysNear(cfg: Settings, s: Shared, t: nat, c: Call, r: RunPc, x: Choice)
    requires Near(cfg, s)
    ensures Near(cfg, StepRun(s, t, c, r, x).0)
  {}

  lemma OtherStepStaysNear(cfg: Settings, s: Shared, t: nat, c: Call, x: Choice)
    requires Near(cfg, s) && !c.pc.Committing? && !c.pc.Gating? && !c.pc.Running?
    ensures Near(cfg, StepCall(cfg, s, t, c, x).0)
  {
    match c.pc
    case Moving(m) => HalfOpen.MoveElsewhere(s, t, c, m);
    case Draining(d) => HalfOpen.DrainElsewhere(s, t, c, d, x);
    case Judging(v) => HalfOpen.VerdictElsewhere(cfg, s, c, v, x);
    case Ending(e) => HalfOpen.TailElsewhere(cfg, s, c, e, x);
    case Done =>
  }

  lemma StepStaysNear(cfg: Settings, w: World, t: nat, x: Choice)
    requires HalfOpen.Inv(cfg, w) && Near(cfg, w.shared) && Possible(cfg, w, Step(t, x)) && cfg.closer.sleepWindow > 0
    ensures Near(cfg, StepCall(cfg, w.shared, t, w.calls[t], x).0)
  {
    var c := w.calls[t];
    assert Delivery.CallInv(w.shared, t, c);
    match c.pc
    case Committing(k) => CommitStaysNear(cfg, w.shared, t, c, k, x);
    case Gating(g) => GateStaysNear(cfg, w.shared, c, g, x);
    case Running(r) => RunStaysNear(cfg, w.shared, t, c, r, x);
    case _ => OtherStepStaysNear(cfg, w.shared, t, c, x);
  }

  /** In every run, an armed closer grants again after at most one SleepWindow. */
  lemma {:induction false} NoWindowIsTooLong(cfg: Settings, clock: int, run: seq<Action>)
    requires cfg.closer.sleepWindow > 0 && After(cfg, Init(clock), run).Some?
    ensures Near(cfg, After(cfg, Init(clock), run).value.shared)
    decreases |run|
  {
    if run != [] {
      var front := run[..|run| - 1];
      NoWindowIsTooLong(cfg, clock, front);
      HalfOpen.EveryRunKeepsInv(cfg, clock, front);
      var a := run[|run| - 1];
      if a.Step? { StepStaysNear(cfg, After(cfg, Init(clock), front).value, a.call, a.choice); }
    }
  }
}
