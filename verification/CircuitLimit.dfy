/** The concurrency limits of circuit.go, over every run of CircuitProtocol. */
module CircuitLimit {
  import opened Counting
  import opened CircuitProtocol

  /** Between concurrentCommands.Add(1) and the deferred Add(-1). */
  predicate InRun(c: Call) { c.inRun }

  /** Inside runFunc. */
  predicate InFunc(c: Call) { c.pc.Running? && c.pc.r.InFunc? }

  /** Counted within the limit and not past runFunc yet: the calls that may still be or come inside it. */
  function WithinLimit(cfg: Settings): Call -> bool {
    (c: Call) => InFunc(c) || (c.pc.Gating? && c.pc.g.Acquired? && c.pc.g.n <= cfg.maxCommands)
  }

  /** The same three for concurrentFallbacks and fallbackFunc. */
  predicate InFallbackCount(c: Call) { c.pc.Ending? && !c.pc.e.Release? && !c.pc.e.FallbackGate? }

  predicate InFallbackFunc(c: Call) { c.pc == Ending(InFallback) }

  function WithinFallbackLimit(cfg: Settings): Call -> bool {
    (c: Call) => InFallbackFunc(c) || (c.pc.Ending? && c.pc.e.FallbackAcquired? && c.pc.e.n <= cfg.maxFallbacks)
  }

  /** Where a call can be, by whether it has counted itself. */
  predicate WellPlaced(c: Call) {
    && (c.pc.Gating? ==> (c.inRun <==> c.pc.g.Acquired?))
    && (c.pc.Running? || c.pc.Judging? || c.pc == Ending(Release) ==> c.inRun)
    && (c.pc.Done? || (c.pc.Ending? && !c.pc.e.Release?) ==> !c.inRun)
    && (c.pc.Moving? && c.pc.m.ReadClock? ==> !c.inRun)
  }

  ghost predicate Inv(cfg: Settings, w: World) {
    && w.shared.commands == Count(w.calls, InRun)
    && w.shared.fallbacks == Count(w.calls, InFallbackCount)
    && (cfg.maxCommands >= 0 ==> Count(w.calls, WithinLimit(cfg)) <= cfg.maxCommands)
    && (cfg.maxFallbacks >= 0 ==> Count(w.calls, WithinFallbackLimit(cfg)) <= cfg.maxFallbacks)
    && (forall t :: 0 <= t < |w.calls| ==> WellPlaced(w.calls[t]))
  }

  function Bit(b: bool): int { if b then 1 else 0 }

  /** The counters move with the calls, and nobody enters the limit but with a fresh number below it. */
  predicate Counted(cfg: Settings, s: Shared, c: Call, s': Shared, c': Call) {
    && s'.commands - s.commands == Bit(InRun(c')) - Bit(InRun(c))
    && s'.fallbacks - s.fallbacks == Bit(InFallbackCount(c')) - Bit(InFallbackCount(c))
    && (WithinLimit(cfg)(c') && !WithinLimit(cfg)(c) ==> s'.commands <= cfg.maxCommands || cfg.maxCommands < 0)
    && (WithinFallbackLimit(cfg)(c') && !WithinFallbackLimit(cfg)(c) ==>
          s'.fallbacks <= cfg.maxFallbacks || cfg.maxFallbacks < 0)
    && WellPlaced(c')
  }

  lemma GateIsCounted(cfg: Settings, s: Shared, c: Call, g: GatePc, x: Choice)
    requires WellPlaced(c) && c.pc == Gating(g)
    ensures var (s', c') := StepGate(cfg, s, c, g, x); Counted(cfg, s, c, s', c')
  {}

  lemma TailIsCounted(cfg: Settings, s: Shared, c: Call, e: TailPc, x: Choice)
    requires WellPlaced(c) && c.pc == Ending(e)
    ensures var (s', c') := StepTail(cfg, s, c, e, x); Counted(cfg, s, c, s', c')
  {}

  lemma CommitIsCounted(cfg: Settings, s: Shared, c: Call, k: CommitPc, x: Choice)
    requires WellPlaced(c) && c.pc == Committing(k)
    ensures var (s', c') := StepCommit(cfg, s, c, k, x); Counted(cfg, s, c, s', c')
  {}

  lemma DrainIsCounted(cfg: Settings, s: Shared, t: nat, c: Call, d: DrainPc, x: Choice)
    requires WellPlaced(c) && c.pc == Draining(d)
    ensures var (s', c') := StepDrain(s, t, c, d, x); Counted(cfg, s, c, s', c')
  {}

  lemma RunIsCounted(cfg: Settings, s: Shared, t: nat, c: Call, r: RunPc, x: Choice)
    requires WellPlaced(c) && c.pc == Running(r)
    ensures var (s', c') := StepRun(s, t, c, r, x); Counted(cfg, s, c, s', c')
  {}

  lemma VerdictIsCounted(cfg: Settings, s: Shared, c: Call, v: VerdictPc, x: Choice)
    requires WellPlaced(c) && c.pc == Judging(v)
    ensures var (s', c') := StepVerdict(cfg, s, c, v, x); Counted(cfg, s, c, s', c')
  {}

  lemma MoveIsCounted(cfg: Settings, s: Shared, t: nat, c: Call, m: MovePc)
    requires WellPlaced(c) && c.pc == Moving(m)
    ensures var (s', c') := StepMove(s, t, c, m); Counted(cfg, s, c, s', c')
  {}

  lemma StepIsCounted(cfg: Settings, s: Shared, t: nat, c: Call, x: Choice)
    requires WellPlaced(c)
    ensures var (s', c') := StepCall(cfg, s, t, c, x); Counted(cfg, s, c, s', c')
  {
    match c.pc
    case Gating(g) => GateIsCounted(cfg, s, c, g, x);
    case Ending(e) => TailIsCounted(cfg, s, c, e, x);
    case Committing(k) => CommitIsCounted(cfg, s, c, k, x);
    case Draining(d) => DrainIsCounted(cfg, s, t, c, d, x);
    case Running(r) => RunIsCounted(cfg, s, t, c, r, x);
    case Judging(v) => VerdictIsCounted(cfg, s, c, v, x);
    case Moving(m) => MoveIsCounted(cfg, s, t, c, m);
    case Done =>
  }

  lemma CountsAfter(cfg: Settings, w: World, t: nat, s': Shared, c': Call)
    requires Inv(cfg, w) && t < |w.calls| && Counted(cfg, w.shared, w.calls[t], s', c')
    ensures var calls := w.calls[t := c'];
      && s'.commands == Count(calls, InRun) && s'.fallbacks == Count(calls, InFallbackCount)
      && Count(calls, WithinLimit(cfg)) <= Count(calls, InRun)
      && Count(calls, WithinFallbackLimit(cfg)) <= Count(calls, InFallbackCount)
  {
    var calls := w.calls[t := c'];
    CountOfUpdate(w.calls, InRun, t, c');
    CountOfUpdate(w.calls, InFallbackCount, t, c');
    assert forall i :: 0 <= i < |calls| ==> WellPlaced(calls[i]);
    CountIsMonotone(calls, WithinLimit(cfg), InRun);
    CountIsMonotone(calls, WithinFallbackLimit(cfg), InFallbackCount);
  }

  /** Nobody gets within a limit but with a number below it. */
  lemma LimitAfter(cfg: Settings, w: World, t: nat, s': Shared, c': Call)
    requires Inv(cfg, w) && t < |w.calls| && Counted(cfg, w.shared, w.calls[t], s', c')
    ensures cfg.maxCommands >= 0 ==> Count(w.calls[t := c'], WithinLimit(cfg)) <= cfg.maxCommands
  {
    CountsAfter(cfg, w, t, s', c');
    CountOfUpdate(w.calls, WithinLimit(cfg), t, c');
  }

  lemma FallbackLimitAfter(cfg: Settings, w: World, t: nat, s': Shared, c': Call)
    requires Inv(cfg, w) && t < |w.calls| && Counted(cfg, w.shared, w.calls[t], s', c')
    ensures cfg.maxFallbacks >= 0 ==> Count(w.calls[t := c'], WithinFallbackLimit(cfg)) <= cfg.maxFallbacks
  {
    CountsAfter(cfg, w, t, s', c');
    CountOfUpdate(w.calls, WithinFallbackLimit(cfg), t, c');
  }

  lemma Install(cfg: Settings, w: World, t: nat, s': Shared, c': Call, w': World)
    requires Inv(cfg, w) && t < |w.calls| && Counted(cfg, w.shared, w.calls[t], s', c')
    requires w' == World(s', w.calls[t := c'])
    ensures Inv(cfg, w')
  {
    CountsAfter(cfg, w, t, s', c');
    LimitAfter(cfg, w, t, s', c');
    FallbackLimitAfter(cfg, w, t, s', c');
    assert forall i :: 0 <= i < |w'.calls| ==> WellPlaced(w'.calls[i]);
  }

  lemma StepKeepsInv(cfg: Settings, w: World, t: nat, x: Choice)
    requires Inv(cfg, w) && Possible(cfg, w, Step(t, x))
    ensures Inv(cfg, Apply(cfg, w, Step(t, x)))
  {
    StepIsCounted(cfg, w.shared, t, w.calls[t], x);
    var (s', c') := StepCall(cfg, w.shared, t, w.calls[t], x);
    Install(cfg, w, t, s', c', Apply(cfg, w, Step(t, x)));
  }

  lemma BeginKeepsInv(cfg: Settings, w: World, c: Call, w': World)
    requires Inv(cfg, w) && w' == World(w.shared, w.calls + [c]) && WellPlaced(c)
    requires !InRun(c) && !InFallbackCount(c) && !WithinLimit(cfg)(c) && !WithinFallbackLimit(cfg)(c)
    ensures Inv(cfg, w')
  {
    CountOfAppend(w.calls, InRun, c);
    CountOfAppend(w.calls, InFallbackCount, c);
    CountOfAppend(w.calls, WithinLimit(cfg), c);
    CountOfAppend(w.calls, WithinFallbackLimit(cfg), c);
  }

  lemma EnvironmentKeepsInv(cfg: Settings, w: World, w': World)
    requires Inv(cfg, w) && w'.calls == w.calls
    requires w'.shared.commands == w.shared.commands && w'.shared.fallbacks == w.shared.fallbacks
    ensures Inv(cfg, w')
  {}

  lemma ActionKeepsInv(cfg: Settings, w: World, a: Action)
    requires Inv(cfg, w) && Possible(cfg, w, a)
    ensures Inv(cfg, Apply(cfg, w, a))
  {
    var w' := Apply(cfg, w, a);
    match a
    case Step(t, x) => StepKeepsInv(cfg, w, t, x);
    case Begin(pc) => BeginKeepsInv(cfg, w, Call(pc, false), w');
    case _ => EnvironmentKeepsInv(cfg, w, w');
  }

  lemma {:induction false} EveryRunKeepsInv(cfg: Settings, clock: int, run: seq<Action>)
    ensures var w := After(cfg, Init(clock), run); w.Some? ==> Inv(cfg, w.value)
    decreases |run|
  {
    if run != [] {
      EveryRunKeepsInv(cfg, clock, run[..|run| - 1]);
      var before := After(cfg, Init(clock), run[..|run| - 1]);
      if before.Some? && Possible(cfg, before.value, run[|run| - 1]) {
        ActionKeepsInv(cfg, before.value, run[|run| - 1]);
      }
    }
  }

  /** In every interleaving the counters count exactly the calls between Add(1) and Add(-1), throttled ones included,
      while at most `maxCommands` runFuncs and `maxFallbacks` fallbackFuncs run at once; at rest both are 0. */
  lemma {:induction false} LimitsAreKept(cfg: Settings, clock: int, run: seq<Action>)
    requires After(cfg, Init(clock), run).Some?
    ensures
      var w := After(cfg, Init(clock), run).value;
      && w.shared.commands == Count(w.calls, InRun)
      && w.shared.fallbacks == Count(w.calls, InFallbackCount)
      && (cfg.maxCommands >= 0 ==> Count(w.calls, InFunc) <= cfg.maxCommands)
      && (cfg.maxFallbacks >= 0 ==> Count(w.calls, InFallbackFunc) <= cfg.maxFallbacks)
      && ((forall t :: 0 <= t < |w.calls| ==> w.calls[t].pc.Done?) ==>
            w.shared.commands == 0 && w.shared.fallbacks == 0)
  {
    EveryRunKeepsInv(cfg, clock, run);
    var w := After(cfg, Init(clock), run).value;
    CountIsMonotone(w.calls, InFunc, WithinLimit(cfg));
    CountIsMonotone(w.calls, InFallbackFunc, WithinFallbackLimit(cfg));
    if forall t :: 0 <= t < |w.calls| ==> w.calls[t].pc.Done? {
      CountOfNone(w.calls, InRun);
      CountOfNone(w.calls, InFallbackCount);
    }
  }
}
