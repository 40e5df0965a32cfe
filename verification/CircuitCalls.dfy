/** What one call finds on its way through CircuitProtocol, and that this alone decides what comes of it, in every
    interleaving: whether its runFunc and its fallbackFunc run, and whether it moves the circuit. */
module CircuitCalls {
  import opened Base
  import opened CircuitProtocol
  import Closer = HystrixCloser
  import HalfOpen = CircuitHalfOpen

  // ---- What a call finds. None: it has not looked there ----

  /** On arrival: the overrides and the state, whether the limit was exhausted already, the answers of Allow and
      Prevent, and whether the call itself went over the limit. */
  datatype Gate = Gate(forceOpen: Option<bool>, forcedClosed: Option<bool>, open: Option<bool>, full: Option<bool>,
                       granted: Option<bool>, prevented: Option<bool>, over: Option<bool>)

  /** What was reported, and whether no RunMetrics listener panicked at that; then the state, ForceOpen after a success
      or ForcedClosed after a failure, the state again, and the first answer of ShouldClose or ShouldOpen. */
  datatype Verdict = Verdict(outcome: Option<Outcome>, heard: Option<bool>, open: Option<bool>, override: Option<bool>,
                             openAgain: Option<bool>, asked: Option<bool>)

  /** In transitionTo: the state that it was called for, the state before and after taking the lock, the second answer,
      and whether the circuit flipped, to what. */
  datatype Shift = Shift(target: Option<bool>, before: Option<bool>, locked: Option<bool>, confirmed: Option<bool>,
                         flip: Option<bool>)

  /** Whether a fallbackFunc was given, whether the call went over the limit of fallbacks, and whether it was called. */
  datatype Rescue = Rescue(given: Option<bool>, crowded: Option<bool>, ran: bool)

  /** `ran`: its runFunc was called. */
  datatype Found = Found(gate: Gate, ran: bool, verdict: Verdict, shift: Shift, rescue: Rescue)

  const NO_GATE := Gate(None, None, None, None, None, None, None)
  const NO_VERDICT := Verdict(None, None, None, None, None, None)
  const NO_SHIFT := Shift(None, None, None, None, None)
  const NO_RESCUE := Rescue(None, None, false)
  const NOTHING := Found(NO_GATE, false, NO_VERDICT, NO_SHIFT, NO_RESCUE)

  predicate Over(count: int, limit: int) { 0 <= limit < count }

  function AtGate(cfg: Settings, s: Shared, pc: Pc, x: Choice, g: Gate): Gate {
    match pc
    case Gating(AskForceOpen(_)) => g.(forceOpen := Some(s.forceOpen))
    case Gating(AskForcedClosed(_)) => g.(forcedClosed := Some(s.forcedClosed))
    case Gating(AskIsOpen(_)) => g.(open := Some(s.isOpen))
    case Gating(AskLimit(_, _)) => g.(full := Some(Over(s.commands + 1, cfg.maxCommands)))
    case Gating(AskCloser(start, _)) => g.(granted := Some(Closer.Allow(s.closer, cfg.closer, start).1))
    case Gating(AskOpener(_, _)) => g.(prevented := Some(x.yes))
    case Gating(Acquire(_, _)) => g.(over := Some(Over(s.commands + 1, cfg.maxCommands)))
    case _ => g
  }

  function AtVerdict(cfg: Settings, s: Shared, pc: Pc, x: Choice, v: Verdict): Verdict {
    match pc
    case Running(Report(_, _, _, outcome)) => v.(outcome := Some(outcome), heard := Some(x.yes))
    case Judging(SuccessIsOpen(_)) => v.(open := Some(s.isOpen))
    case Judging(SuccessForceOpen(_)) => v.(override := Some(s.forceOpen))
    case Judging(PreShouldClose(_)) => v.(asked := Some(s.closer.successes >= cfg.closer.required))
    case Judging(FailureIsOpen(_)) => v.(open := Some(s.isOpen))
    case Judging(AttemptForced(_)) => v.(override := Some(s.forcedClosed))
    case Judging(AttemptIsOpen(_)) => v.(openAgain := Some(s.isOpen))
    case Judging(PreShouldOpen(_)) => v.(asked := Some(x.yes))
    case _ => v
  }

  function InShift(cfg: Settings, s: Shared, pc: Pc, x: Choice, s': Shared, m: Shift): Shift {
    match pc
    case Moving(ReadClock(open)) => m.(target := Some(open))
    case Moving(PreCheck(move)) => m.(target := Some(move.open), before := Some(s.isOpen))
    case Committing(Locked(_)) => m.(locked := Some(s.isOpen))
    case Committing(ReAsk(move)) =>
      m.(confirmed := Some(if move.open then x.yes else s.closer.successes >= cfg.closer.required))
    case _ => if |s'.hist.flips| > |s.hist.flips| then m.(flip := Some(s'.isOpen)) else m
  }

  function AtTail(cfg: Settings, s: Shared, pc: Pc, x: Choice, r: Rescue): Rescue {
    match pc
    case Ending(FallbackGate) =>
      if x.yes then r.(given := Some(true), crowded := Some(Over(s.fallbacks + 1, cfg.maxFallbacks)))
      else r.(given := Some(false))
    case Ending(InFallback) => r.(ran := true)
    case _ => r
  }

  /** What a step from s to s' shows to the call that takes it. */
  function Look(cfg: Settings, s: Shared, c: Call, x: Choice, s': Shared, f: Found): Found {
    Found(AtGate(cfg, s, c.pc, x, f.gate), f.ran || (c.pc.Running? && c.pc.r.InFunc?),
          AtVerdict(cfg, s, c.pc, x, f.verdict), InShift(cfg, s, c.pc, x, s', f.shift),
          AtTail(cfg, s, c.pc, x, f.rescue))
  }

  /** What call t has found in a run. */
  function Finds(cfg: Settings, clock: int, run: seq<Action>, t: nat): Found
    requires After(cfg, Init(clock), run).Some?
    decreases |run|
  {
    if run == [] then NOTHING
    else
      var front, a := run[..|run| - 1], run[|run| - 1];
      var w, w' := After(cfg, Init(clock), front).value, After(cfg, Init(clock), run).value;
      var f := Finds(cfg, clock, front, t);
      if a.Step? && a.call == t then Look(cfg, w.shared, w.calls[t], a.choice, w'.shared, f) else f
  }

  // ---- What the findings decide ----

  /** allowNewRun lets the call in. */
  predicate Allowed(g: Gate) {
    && g.forceOpen == Some(false)
    && (g.forcedClosed == Some(true) || g.open == Some(false) || (g.full == Some(false) && g.granted == Some(true)))
  }

  /** ... and so do Prevent and the limit. */
  predicate LetIn(g: Gate) { Allowed(g) && g.prevented == Some(false) && g.over == Some(false) }

  /** Something turned the call away. */
  predicate TurnedAway(g: Gate) {
    || g.forceOpen == Some(true)
    || (g.forcedClosed == Some(false) && g.open == Some(true) && (g.full == Some(true) || g.granted == Some(false)))
    || g.prevented == Some(true) || g.over == Some(true)
  }

  predicate HasFailed(v: Verdict) { v.outcome in {Some(Failed), Some(TimedOut)} }

  /** checkSuccess calls transitionTo. */
  predicate CallsToClose(v: Verdict) {
    && v.outcome == Some(Succeeded) && v.heard == Some(true)
    && v.open == Some(true) && v.override == Some(false) && v.asked == Some(true)
  }

  /** attemptToOpen does. */
  predicate CallsToOpen(v: Verdict) {
    && HasFailed(v) && v.heard == Some(true)
    && v.open == Some(false) && v.override == Some(false) && v.openAgain == Some(false) && v.asked == Some(true)
  }

  /** What can stop a request from calling it. */
  predicate CallsNot(v: Verdict) {
    || v.outcome.None? || v.outcome == Some(Ignored) || v.heard == Some(false)
    || v.open == Some(HasFailed(v)) || v.override == Some(true) || (HasFailed(v) && v.openAgain == Some(true))
    || v.asked == Some(false)
  }

  /** transitionTo has moved the circuit; or it has found it there already, or the second answer was no. */
  predicate IsSettled(m: Shift, auto: bool) {
    && m.target.Some?
    && if m.flip.Some? then
         && m.flip == m.target && m.before == m.locked == Some(!m.target.value)
         && (auto ==> m.confirmed == Some(true))
       else m.before == m.target || m.locked == m.target || (auto && m.confirmed == Some(false))
  }

  /** What a request was to do with the state of the circuit has been done, or something stopped it. */
  predicate Judged(v: Verdict, m: Shift) {
    if CallsToOpen(v) || CallsToClose(v) then m.target == Some(HasFailed(v)) && IsSettled(m, true)
    else m == NO_SHIFT && CallsNot(v)
  }

  /** The fallbackFunc ran exactly if one was given and there was room for it. */
  predicate IsRescued(r: Rescue) {
    (r.ran <==> r.given == Some(true) && r.crowded == Some(false)) &&
    (!r.ran <==> r.given == Some(false) || r.crowded == Some(true))
  }

  // ---- Where a call is, and what it has found until then ----

  predicate GateFound(cfg: Settings, g: GatePc, f: Gate) {
    match g
    case Arrive => f == NO_GATE
    case AskForceOpen(_) => f == NO_GATE
    case AskForcedClosed(_) => f == NO_GATE.(forceOpen := Some(false))
    case AskIsOpen(_) => f == NO_GATE.(forceOpen := Some(false), forcedClosed := Some(false))
    case AskLimit(_, _) => f == NO_GATE.(forceOpen := Some(false), forcedClosed := Some(false), open := Some(true))
    case AskCloser(_, _) =>
      f == NO_GATE.(forceOpen := Some(false), forcedClosed := Some(false), open := Some(true), full := Some(false))
    case AskOpener(_, _) => Allowed(f) && !TurnedAway(f) && f.prevented.None? && f.over.None?
    case Acquire(_, _) => Allowed(f) && !TurnedAway(f) && f.prevented == Some(false) && f.over.None?
    case Acquired(_, _, n) =>
      && Allowed(f) && !TurnedAway(f.(over := None)) && f.prevented == Some(false)
      && f.over == Some(Over(n, cfg.maxCommands))
  }

  predicate VerdictFound(pc: VerdictPc, v: Verdict) {
    v.heard == Some(true) &&
    match pc
    case SuccessIsOpen(_) => v == Verdict(Some(Succeeded), Some(true), None, None, None, None)
    case SuccessForceOpen(_) => v == Verdict(Some(Succeeded), Some(true), Some(true), None, None, None)
    case PreShouldClose(_) => v == Verdict(Some(Succeeded), Some(true), Some(true), Some(false), None, None)
    case FailureIsOpen(_) => HasFailed(v) && v == Verdict(v.outcome, Some(true), None, None, None, None)
    case AttemptForced(_) => HasFailed(v) && v == Verdict(v.outcome, Some(true), Some(false), None, None, None)
    case AttemptIsOpen(_) => HasFailed(v) && v == Verdict(v.outcome, Some(true), Some(false), Some(false), None, None)
    case PreShouldOpen(_) =>
      HasFailed(v) && v == Verdict(v.outcome, Some(true), Some(false), Some(false), Some(false), None)
  }

  predicate ShiftFound(pc: Pc, inRun: bool, m: Shift) {
    match pc
    case Moving(ReadClock(_)) => m == NO_SHIFT
    case Moving(PreCheck(move)) => m == NO_SHIFT || (!inRun && m == NO_SHIFT.(target := Some(move.open)))
    case Moving(WantLock(move)) => m == Shift(Some(move.open), Some(!move.open), None, None, None)
    case Committing(Locked(move)) => m == Shift(Some(move.open), Some(!move.open), None, None, None)
    case Committing(ReAsk(move)) => inRun && m == Shift(Some(move.open), Some(!move.open), Some(!move.open), None, None)
    case Committing(Flip(move, _)) =>
      m == Shift(Some(move.open), Some(!move.open), Some(!move.open), if inRun then Some(true) else None, None)
    case _ => m.flip.Some? && IsSettled(m, inRun)
  }

  /** The transition that the call is about, if it has not happened yet. */
  function MoveOf(pc: Pc): Option<Move> {
    match pc
    case Moving(PreCheck(move)) => Some(move)
    case Moving(WantLock(move)) => Some(move)
    case Committing(Locked(move)) => Some(move)
    case Committing(ReAsk(move)) => Some(move)
    case Committing(Flip(move, _)) => Some(move)
    case _ => None
  }

  predicate RescueFound(cfg: Settings, e: TailPc, r: Rescue) {
    match e
    case Release => r == NO_RESCUE
    case FallbackGate => r == NO_RESCUE
    case FallbackAcquired(n) => r == Rescue(Some(true), Some(Over(n, cfg.maxFallbacks)), false)
    case InFallback => r == Rescue(Some(true), Some(false), false)
    case FallbackRelease => r.given == Some(true) && r.crowded == Some(!r.ran)
  }

  /** The request was let in and has called runFunc; or, past all that, it was turned away. */
  predicate RanOrNot(f: Found) {
    f.gate.forceOpen.Some? && (f.ran <==> LetIn(f.gate)) && (f.ran <==> !TurnedAway(f.gate))
  }

  /** A request in transitionTo, or a manual transition. */
  predicate Shifts(c: Call, f: Found) {
    && f.rescue == NO_RESCUE && ShiftFound(c.pc, c.inRun, f.shift)
    && (MoveOf(c.pc).Some? ==> MoveOf(c.pc).value.auto == c.inRun)
    && if c.inRun then
         && f.ran && RanOrNot(f)
         && (MoveOf(c.pc).Some? ==> if MoveOf(c.pc).value.open then CallsToOpen(f.verdict) else CallsToClose(f.verdict))
         && (MoveOf(c.pc).None? ==> Judged(f.verdict, f.shift))
       else IsManual(f)
  }

  /** OpenCircuit and CloseCircuit pass no gates. */
  predicate IsManual(f: Found) { f.gate == NO_GATE && f.verdict == NO_VERDICT && !f.ran && f.rescue == NO_RESCUE }

  predicate Placed(cfg: Settings, c: Call, f: Found) {
    match c.pc
    case Gating(g) =>
      && (c.inRun <==> g.Acquired?) && GateFound(cfg, g, f.gate)
      && !f.ran && f.verdict == NO_VERDICT && f.shift == NO_SHIFT && f.rescue == NO_RESCUE
    case Running(r) =>
      && c.inRun && f.gate.forceOpen.Some? && LetIn(f.gate) && !TurnedAway(f.gate) && (f.ran <==> !r.InFunc?)
      && f.verdict == NO_VERDICT && f.shift == NO_SHIFT && f.rescue == NO_RESCUE
      && (!r.InFunc? ==> !r.outcome.Panicked?)
    case Judging(v) =>
      && c.inRun && f.ran && RanOrNot(f) && VerdictFound(v, f.verdict) && f.shift == NO_SHIFT && f.rescue == NO_RESCUE
    case Moving(m) => Shifts(c, f) && (m.ReadClock? ==> !c.inRun)
    case Committing(_) => Shifts(c, f)
    case Draining(_) => Shifts(c, f)
    case Ending(e) =>
      (c.inRun <==> e.Release?) && RanOrNot(f) && Judged(f.verdict, f.shift) && RescueFound(cfg, e, f.rescue)
    case Done =>
      && !c.inRun
      && if f.gate.forceOpen.Some? then RanOrNot(f) && Judged(f.verdict, f.shift) && IsRescued(f.rescue)
         else IsManual(f) && IsSettled(f.shift, false)
  }

  lemma GateStepPlaces(cfg: Settings, s: Shared, c: Call, g: GatePc, x: Choice, f: Found)
    requires c.pc == Gating(g) && Placed(cfg, c, f)
    ensures var (s', c') := StepGate(cfg, s, c, g, x); Placed(cfg, c', Look(cfg, s, c, x, s', f))
  {}

  lemma RunStepPlaces(cfg: Settings, s: Shared, t: nat, c: Call, r: RunPc, x: Choice, f: Found)
    requires c.pc == Running(r) && Placed(cfg, c, f)
    ensures var (s', c') := StepRun(s, t, c, r, x); Placed(cfg, c', Look(cfg, s, c, x, s', f))
  {}

  lemma VerdictStepPlaces(cfg: Settings, s: Shared, c: Call, v: VerdictPc, x: Choice, f: Found)
    requires c.pc == Judging(v) && Placed(cfg, c, f)
    ensures var (s', c') := StepVerdict(cfg, s, c, v, x); Placed(cfg, c', Look(cfg, s, c, x, s', f))
  {}

  lemma MoveStepPlaces(cfg: Settings, s: Shared, t: nat, c: Call, m: MovePc, x: Choice, f: Found)
    requires c.pc == Moving(m) && Placed(cfg, c, f)
    ensures var (s', c') := StepMove(s, t, c, m); Placed(cfg, c', Look(cfg, s, c, x, s', f))
  {}

  lemma EarlyCommitPlaces(cfg: Settings, s: Shared, c: Call, k: CommitPc, x: Choice, f: Found)
    requires c.pc == Committing(k) && Placed(cfg, c, f) && (k.Locked? || k.ReAsk? || k.Flip?)
    ensures var (s', c') := StepCommit(cfg, s, c, k, x); Placed(cfg, c', Look(cfg, s, c, x, s', f))
  {}

  lemma LateCommitPlaces(cfg: Settings, s: Shared, c: Call, k: CommitPc, x: Choice, f: Found)
    requires c.pc == Committing(k) && Placed(cfg, c, f) && !k.Locked? && !k.ReAsk? && !k.Flip?
    ensures var (s', c') := StepCommit(cfg, s, c, k, x); Placed(cfg, c', Look(cfg, s, c, x, s', f))
  {
    assert StepCommit(cfg, s, c, k, x).0.hist.flips == s.hist.flips;
  }

  lemma CommitStepPlaces(cfg: Settings, s: Shared, c: Call, k: CommitPc, x: Choice, f: Found)
    requires c.pc == Committing(k) && Placed(cfg, c, f)
    ensures var (s', c') := StepCommit(cfg, s, c, k, x); Placed(cfg, c', Look(cfg, s, c, x, s', f))
  {
    if k.Locked? || k.ReAsk? || k.Flip? {
      EarlyCommitPlaces(cfg, s, c, k, x, f);
    } else {
      LateCommitPlaces(cfg, s, c, k, x, f);
    }
  }

  lemma DrainStepPlaces(cfg: Settings, s: Shared, t: nat, c: Call, d: DrainPc, x: Choice, f: Found)
    requires c.pc == Draining(d) && Placed(cfg, c, f)
    ensures var (s', c') := StepDrain(s, t, c, d, x); Placed(cfg, c', Look(cfg, s, c, x, s', f))
  {
    HalfOpen.DrainElsewhere(s, t, c, d, x);
    assert Look(cfg, s, c, x, StepDrain(s, t, c, d, x).0, f) == f;
  }

  lemma TailStepPlaces(cfg: Settings, s: Shared, c: Call, e: TailPc, x: Choice, f: Found)
    requires c.pc == Ending(e) && Placed(cfg, c, f)
    ensures var (s', c') := StepTail(cfg, s, c, e, x); Placed(cfg, c', Look(cfg, s, c, x, s', f))
  {}

  lemma RequestStepPlaces(cfg: Settings, s: Shared, t: nat, c: Call, x: Choice, f: Found)
    requires Placed(cfg, c, f) && (c.pc.Gating? || c.pc.Running? || c.pc.Judging? || c.pc.Ending?)
    ensures var (s', c') := StepCall(cfg, s, t, c, x); Placed(cfg, c', Look(cfg, s, c, x, s', f))
  {
    match c.pc
    case Gating(g) => GateStepPlaces(cfg, s, c, g, x, f);
    case Running(r) => RunStepPlaces(cfg, s, t, c, r, x, f);
    case Judging(v) => VerdictStepPlaces(cfg, s, c, v, x, f);
    case Ending(e) => TailStepPlaces(cfg, s, c, e, x, f);
  }

  lemma TransitionStepPlaces(cfg: Settings, s: Shared, t: nat, c: Call, x: Choice, f: Found)
    requires Placed(cfg, c, f) && (c.pc.Moving? || c.pc.Committing? || c.pc.Draining?)
    ensures var (s', c') := StepCall(cfg, s, t, c, x); Placed(cfg, c', Look(cfg, s, c, x, s', f))
  {
    match c.pc
    case Moving(m) => MoveStepPlaces(cfg, s, t, c, m, x, f);
    case Committing(k) => CommitStepPlaces(cfg, s, c, k, x, f);
    case Draining(d) => DrainStepPlaces(cfg, s, t, c, d, x, f);
  }

  lemma StepPlaces(cfg: Settings, s: Shared, t: nat, c: Call, x: Choice, f: Found)
    requires Placed(cfg, c, f) && Enabled(s, c)
    ensures var (s', c') := StepCall(cfg, s, t, c, x); Placed(cfg, c', Look(cfg, s, c, x, s', f))
  {
    if c.pc.Moving? || c.pc.Committing? || c.pc.Draining? {
      TransitionStepPlaces(cfg, s, t, c, x, f);
    } else {
      RequestStepPlaces(cfg, s, t, c, x, f);
    }
  }

  /** What an action does to the call t. */
  lemma OneAction(cfg: Settings, w: World, a: Action, t: nat)
    requires Possible(cfg, w, a)
    ensures var w' := Apply(cfg, w, a);
      && |w.calls| <= |w'.calls| <= |w.calls| + 1
      && (t < |w.calls| ==>
            if a.Step? && a.call == t then
              (w'.shared, w'.calls[t]) == StepCall(cfg, w.shared, t, w.calls[t], a.choice)
            else w'.calls[t] == w.calls[t])
      && (t == |w.calls| < |w'.calls| ==> a.Begin? && w'.calls[t] == Call(a.pc, false))
  {}

  lemma LastFinds(cfg: Settings, clock: int, run: seq<Action>, t: nat)
    requires run != [] && After(cfg, Init(clock), run).Some?
    ensures var front, a := run[..|run| - 1], run[|run| - 1];
      && After(cfg, Init(clock), front).Some? && Possible(cfg, After(cfg, Init(clock), front).value, a)
      && var w := After(cfg, Init(clock), front).value;
         After(cfg, Init(clock), run).value == Apply(cfg, w, a)
         && Finds(cfg, clock, run, t) ==
              if a.Step? && a.call == t then
                Look(cfg, w.shared, w.calls[t], a.choice, Apply(cfg, w, a).shared, Finds(cfg, clock, front, t))
              else Finds(cfg, clock, front, t)
  {}

  lemma {:induction false} NothingFoundYet(cfg: Settings, clock: int, run: seq<Action>, t: nat)
    requires After(cfg, Init(clock), run).Some? && t >= |After(cfg, Init(clock), run).value.calls|
    ensures Finds(cfg, clock, run, t) == NOTHING
    decreases |run|
  {
    if run != [] {
      var front, a := run[..|run| - 1], run[|run| - 1];
      LastFinds(cfg, clock, run, t);
      OneAction(cfg, After(cfg, Init(clock), front).value, a, t);
      NothingFoundYet(cfg, clock, front, t);
    }
  }

  lemma BeginPlaces(cfg: Settings, w: World, a: Action)
    requires a.Begin? && Possible(cfg, w, a)
    ensures Placed(cfg, Call(a.pc, false), NOTHING)
  {}

  /** In every interleaving, each call has found what its place says. */
  lemma {:induction false} EveryCallIsPlaced(cfg: Settings, clock: int, run: seq<Action>, t: nat)
    requires After(cfg, Init(clock), run).Some? && t < |After(cfg, Init(clock), run).value.calls|
    ensures Placed(cfg, After(cfg, Init(clock), run).value.calls[t], Finds(cfg, clock, run, t))
    decreases |run|
  {
    if run != [] {
      var front, a := run[..|run| - 1], run[|run| - 1];
      LastFinds(cfg, clock, run, t);
      var w := After(cfg, Init(clock), front).value;
      OneAction(cfg, w, a, t);
      if t < |w.calls| {
        EveryCallIsPlaced(cfg, clock, front, t);
        if a.Step? && a.call == t {
          StepPlaces(cfg, w.shared, t, w.calls[t], a.choice, Finds(cfg, clock, front, t));
        }
      } else {
        NothingFoundYet(cfg, clock, front, t);
        BeginPlaces(cfg, w, a);
      }
    }
  }

  /** What a call finds decides what comes of it, under every schedule. An Execute that is through has run its runFunc
      exactly if everything let it in, which is exactly if nothing turned it away. It has opened the circuit exactly
      if it failed or timed out, no listener panicked at that, and it found the circuit closed each time, ForcedClosed
      off, and two yes. It has closed it exactly if it succeeded and found, in the same way, open, ForceOpen off, and
      enough successes. Its fallbackFunc ran exactly if one was given and there was room. A manual transition that is
      through has moved the circuit exactly if it found it in the other state, before and after taking the lock. */
  lemma {:induction false} EveryCallIsDecided(cfg: Settings, clock: int, run: seq<Action>, t: nat)
    requires After(cfg, Init(clock), run).Some? && t < |After(cfg, Init(clock), run).value.calls|
    ensures After(cfg, Init(clock), run).value.calls[t].pc.Done? ==>
      var f := Finds(cfg, clock, run, t); var m := f.shift;
      if f.gate.forceOpen.Some? then
        && (f.ran <==> LetIn(f.gate)) && (f.ran <==> !TurnedAway(f.gate))
        && (m.flip == Some(true) <==>
              CallsToOpen(f.verdict) && m.before == m.locked == Some(false) && m.confirmed == Some(true))
        && (m.flip == Some(false) <==>
              CallsToClose(f.verdict) && m.before == m.locked == Some(true) && m.confirmed == Some(true))
        && (f.rescue.ran <==> f.rescue.given == Some(true) && f.rescue.crowded == Some(false))
      else
        && m.target.Some? && !f.ran && !f.rescue.ran
        && (m.flip.Some? <==> m.before == m.locked == Some(!m.target.value)) && (m.flip.Some? ==> m.flip == m.target)
  {
    EveryCallIsPlaced(cfg, clock, run, t);
  }

  /** The call is between the report of a failure or timeout and the flip to open, or between that of a success, or the
      call of OpenCircuit or CloseCircuit, and the flip. */
  predicate OnTheWay(pc: Pc, open: bool) {
    match pc
    case Judging(v) => open == (v.FailureIsOpen? || v.AttemptForced? || v.AttemptIsOpen? || v.PreShouldOpen?)
    case Moving(ReadClock(o)) => open == o
    case _ => MoveOf(pc).Some? && MoveOf(pc).value.open == open
  }

  /** No failure and no success is dropped, whatever the schedule: once it is reported, and no listener panicked at
      that, the call is on its way to move the circuit, or it has, or it found a reason not to. */
  lemma {:induction false} NoOutcomeIsDropped(cfg: Settings, clock: int, run: seq<Action>, t: nat)
    requires After(cfg, Init(clock), run).Some? && t < |After(cfg, Init(clock), run).value.calls|
    ensures
      var f := Finds(cfg, clock, run, t); var v, m := f.verdict, f.shift;
      var pc := After(cfg, Init(clock), run).value.calls[t].pc;
      && (HasFailed(v) && v.heard == Some(true) ==>
            || OnTheWay(pc, true) || m.flip == Some(true)
            || v.open == Some(true) || v.override == Some(true) || v.openAgain == Some(true)
            || m.before == Some(true) || m.locked == Some(true) || v.asked == Some(false) || m.confirmed == Some(false))
      && (v.outcome == Some(Succeeded) && v.heard == Some(true) ==>
            || OnTheWay(pc, false) || m.flip == Some(false)
            || v.open == Some(false) || v.override == Some(true)
            || m.before == Some(false) || m.locked == Some(false)
            || v.asked == Some(false) || m.confirmed == Some(false))
  {
    EveryCallIsPlaced(cfg, clock, run, t);
    var f := Finds(cfg, clock, run, t);
    if f.verdict.heard == Some(true) { PlacedIsNotDropped(cfg, After(cfg, Init(clock), run).value.calls[t], f); }
  }

  lemma PlacedIsNotDropped(cfg: Settings, c: Call, f: Found)
    requires Placed(cfg, c, f) && f.verdict.heard == Some(true)
    ensures HasFailed(f.verdict) && !OnTheWay(c.pc, true) && f.shift.flip != Some(true) ==>
      || Some(true) in {f.verdict.open, f.verdict.override, f.verdict.openAgain, f.shift.before, f.shift.locked}
      || Some(false) in {f.verdict.asked, f.shift.confirmed}
    ensures f.verdict.outcome == Some(Succeeded) && !OnTheWay(c.pc, false) && f.shift.flip != Some(false) ==>
      || Some(false) in {f.verdict.open, f.shift.before, f.shift.locked, f.verdict.asked, f.shift.confirmed}
      || f.verdict.override == Some(true)
  {}

  /** The closer's count follows the reports: one more for a success, none for a failure or timeout, of a request that
      started after the closer was armed; nothing else that a request does touches it but the Allow that arms. */
  lemma ReportsReachTheCloser(cfg: Settings, s: Shared, t: nat, c: Call, x: Choice)
    requires c.pc.Running?
    ensures
      var s' := StepCall(cfg, s, t, c, x).0;
      s'.closer == s.closer.(successes :=
        if c.pc.r.Report? && s.closer.openedAt.Some? && c.pc.r.start > s.closer.openedAt.value then
          match c.pc.r.outcome
          case Succeeded => s.closer.successes + 1
          case Ignored => s.closer.successes
          case _ => 0
        else s.closer.successes)
  {}
}
