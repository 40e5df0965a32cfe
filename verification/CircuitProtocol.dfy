/** circuit.go as a state machine over any number of concurrent calls.

    A call is one run of OpenCircuit, CloseCircuit or Execute. Every read or write of a shared field is a step of its
    own, so the calls interleave between any two of them; code between Lock and Unlock of transitionMu is no exception
    for the fields that other calls touch without the lock. A call that a listener or a runFunc makes on the same
    circuit is one more call: the machine has all of its interleavings, and more. */
module CircuitProtocol {
  import opened Base
  import Closer = HystrixCloser
  import TimedChecks

  /** The configuration, fixed during a run. `mayForce` says whether ForcedClosed is ever switched on. */
  datatype Settings = Settings(closer: Closer.Config, maxCommands: int, maxFallbacks: int, mayForce: bool)

  /** A queued Opened (open) or Closed notification. */
  datatype Transition = Transition(open: bool, now: int)

  /** The arguments of transitionTo; `auto` says that a recheck was given. */
  datatype Move = Move(open: bool, now: int, auto: bool)

  /** Why allowNewRun let a request run. */
  datatype Via = ByClosed | ByForced | ByGrant(armedAt: int)

  /** ... and how many times isOpen had flipped when the decisive read or Allow was made. */
  datatype Admission = Admission(via: Via, episode: nat)

  /** How runFunc ended. Ignored stands for bad requests and interrupts, which the closer does not count. */
  datatype Outcome = Succeeded | Failed | TimedOut | Ignored | Panicked

  /** What the closer's success count was told: a counted success of a call, a counted failure or timeout, or a reset
      by Opened, Closed or a self-arming Allow. */
  datatype Result = Good(call: nat, start: int, adm: Admission) | Bad | Wiped

  /** An automatic close: how many results were in when ShouldClose was re-asked, and the flips before this one. */
  datatype AutoClose = AutoClose(asked: nat, episode: nat)

  /** Bookkeeping that no step reads. */
  datatype History = History(
    flips: seq<int>,               // the clock at each flip of isOpen
    told: seq<Transition>,         // what the closer was told
    committed: seq<Transition>,    // everything ever queued
    delivered: seq<Transition>,    // everything ever popped
    started: seq<Transition>,      // the notifyListeners calls
    deliverer: Option<nat>,        // the call that set deliveringTransitions
    results: seq<Result>,
    autoCloses: seq<AutoClose>)

  datatype Shared = Shared(
    clock: int,
    isOpen: bool,
    lock: Option<nat>,             // who holds transitionMu
    pending: seq<Transition>,
    delivering: bool,
    forceOpen: bool,
    forcedClosed: bool,
    commands: int,
    fallbacks: int,
    closer: Closer.State,
    armedAt: int,                  // when the timer of the closer's current window was armed
    hist: History)

  /** Inside OpenCircuit, CloseCircuit and transitionTo. */
  datatype MovePc =
    | ReadClock(open: bool)
    | PreCheck(move: Move)
    | WantLock(move: Move)

  /** Inside commitTransition, with the lock held. */
  datatype CommitPc =
    | Locked(move: Move)
    | ReAsk(move: Move)
    | Flip(move: Move, asked: nat)
    | Stamp(move: Move)
    | TellCloser(move: Move)
    | TellOpener(move: Move)
    | Enqueue(move: Move)
    | Queued

  /** Inside deliverPendingTransitions. Unwind and Cleanup are its deferred function after a panic. */
  datatype DrainPc =
    | WantDrain
    | Entered
    | Loop
    | Notify(next: Transition)
    | Listening(next: Transition)
    | Relock
    | Unwind
    | Cleanup

  /** Inside run, up to the decision to call runFunc. */
  datatype GatePc =
    | Arrive
    | AskForceOpen(start: int)
    | AskForcedClosed(start: int)
    | AskIsOpen(start: int)
    | AskLimit(start: int, seen: nat)
    | AskCloser(start: int, seen: nat)
    | AskOpener(start: int, adm: Admission)
    | Acquire(start: int, adm: Admission)
    | Acquired(start: int, adm: Admission, n: int)

  /** Inside run, from the call of runFunc to the closer's RunMetrics callback. */
  datatype RunPc =
    | InFunc(start: int, adm: Admission)
    | Returned(start: int, adm: Admission, outcome: Outcome)
    | Report(start: int, done: int, adm: Admission, outcome: Outcome)

  /** Inside checkSuccess, checkErrTimeout, checkErrFailure and attemptToOpen, after that callback. */
  datatype VerdictPc =
    | SuccessIsOpen(done: int)
    | SuccessForceOpen(done: int)
    | PreShouldClose(done: int)
    | FailureIsOpen(done: int)
    | AttemptForced(done: int)
    | AttemptIsOpen(done: int)
    | PreShouldOpen(done: int)

  /** The deferred end of run, and fallback. */
  datatype TailPc =
    | Release
    | FallbackGate
    | FallbackAcquired(n: int)
    | InFallback
    | FallbackRelease

  datatype Pc =
    | Moving(m: MovePc)
    | Committing(k: CommitPc)
    | Draining(d: DrainPc)
    | Gating(g: GatePc)
    | Running(r: RunPc)
    | Judging(v: VerdictPc)
    | Ending(e: TailPc)
    | Done

  /** `inRun`: this call has counted itself in concurrentCommands and has not yet run its deferred Add(-1). */
  datatype Call = Call(pc: Pc, inRun: bool)

  /** What the environment decides in one step: an answer of the opener, whether a listener returns normally, whether
      a fallback was given, or how runFunc ended. */
  datatype Choice = Choice(yes: bool, outcome: Outcome)

  datatype World = World(shared: Shared, calls: seq<Call>)

  datatype Action =
    | Tick(elapsed: nat)
    | SetFlags(forceOpen: bool, forcedClosed: bool)
    | TimerFires(version: nat)
    | Begin(pc: Pc)
    | Step(call: nat, choice: Choice)

  predicate HoldsLock(pc: Pc) {
    pc.Committing? || (pc.Draining? && (pc.d.Entered? || pc.d.Loop? || pc.d.Cleanup?))
  }

  predicate NeedsLock(pc: Pc) {
    (pc.Moving? && pc.m.WantLock?) || (pc.Draining? && (pc.d.WantDrain? || pc.d.Relock? || pc.d.Unwind?))
  }

  predicate Enabled(s: Shared, c: Call) {
    !c.pc.Done? && (NeedsLock(c.pc) ==> s.lock.None?)
  }

  function GoTo(c: Call, pc: Pc): Call { c.(pc := pc) }

  /** transitionTo returned: run its caller's deferred function, or return to the user. */
  function Leave(c: Call): Call {
    GoTo(c, if c.inRun then Ending(Release) else Done)
  }

  function StepMove(s: Shared, t: nat, c: Call, m: MovePc): (Shared, Call) {
    match m
    case ReadClock(open) => (s, GoTo(c, Moving(PreCheck(Move(open, s.clock, false)))))
    case PreCheck(move) => (s, if s.isOpen == move.open then Leave(c) else GoTo(c, Moving(WantLock(move))))
    case WantLock(move) => (s.(lock := Some(t)), GoTo(c, Committing(Locked(move))))
  }

  /** Is a move whose caller gave a recheck confirmed by it? */
  predicate Confirmed(cfg: Settings, s: Shared, move: Move, x: Choice) {
    if move.open then x.yes else Closer.ShouldClose(s.closer, cfg.closer)
  }

  function Flipping(s: Shared, move: Move, asked: nat): Shared {
    var h := s.hist;
    var closes := if move.auto && !move.open then [AutoClose(asked, |h.flips|)] else [];
    s.(isOpen := move.open, hist := h.(flips := h.flips + [s.clock], autoCloses := h.autoCloses + closes))
  }

  /** The clock at which the timer was armed that will clear the closer's fast-fail flag. */
  function ArmedAt(s: Shared, closer: Closer.State): int {
    if closer.window.version == s.closer.window.version then s.armedAt else s.clock
  }

  function Telling(cfg: Settings, s: Shared, move: Move): Shared {
    var h := s.hist;
    var closer :=
      if move.open then Closer.Opened(s.closer, cfg.closer, move.now) else Closer.Closed(s.closer, move.now);
    s.(closer := closer, armedAt := ArmedAt(s, closer),
       hist := h.(told := h.told + [Transition(move.open, move.now)], results := h.results + [Wiped]))
  }

  function Queueing(s: Shared, move: Move): Shared {
    var next := [Transition(move.open, move.now)];
    s.(pending := s.pending + next, hist := s.hist.(committed := s.hist.committed + next))
  }

  function StepCommit(cfg: Settings, s: Shared, c: Call, k: CommitPc, x: Choice): (Shared, Call) {
    match k
    case Locked(move) =>
      if s.isOpen == move.open then (s.(lock := None), Leave(c))
      else (s, GoTo(c, Committing(if move.auto then ReAsk(move) else Flip(move, 0))))
    case ReAsk(move) =>
      if Confirmed(cfg, s, move, x) then (s, GoTo(c, Committing(Flip(move, |s.hist.results|))))
      else (s.(lock := None), Leave(c))
    case Flip(move, asked) => (Flipping(s, move, asked), GoTo(c, Committing(Stamp(move))))
    case Stamp(move) =>
      (s, GoTo(c, Committing(TellCloser(move.(now := if s.clock > move.now then s.clock else move.now)))))
    case TellCloser(move) => (Telling(cfg, s, move), GoTo(c, Committing(TellOpener(move))))
    case TellOpener(move) => (s, GoTo(c, Committing(Enqueue(move))))
    case Enqueue(move) => (Queueing(s, move), GoTo(c, Committing(Queued)))
    case Queued => (s.(lock := None), GoTo(c, Draining(WantDrain)))
  }

  function Popping(s: Shared): Shared
    requires s.pending != []
  {
    s.(pending := s.pending[1..], lock := None, hist := s.hist.(delivered := s.hist.delivered + [s.pending[0]]))
  }

  /** Give up the deliverer role and the lock. */
  function Resigning(s: Shared): Shared {
    s.(delivering := false, lock := None, hist := s.hist.(deliverer := None))
  }

  function StepDrain(s: Shared, t: nat, c: Call, d: DrainPc, x: Choice): (Shared, Call) {
    match d
    case WantDrain => (s.(lock := Some(t)), GoTo(c, Draining(Entered)))
    case Entered =>
      if s.delivering then (s.(lock := None), Leave(c))
      else (s.(delivering := true, hist := s.hist.(deliverer := Some(t))), GoTo(c, Draining(Loop)))
    case Loop =>
      if s.pending != [] then (Popping(s), GoTo(c, Draining(Notify(s.pending[0])))) else (Resigning(s), Leave(c))
    case Notify(next) =>
      (s.(hist := s.hist.(started := s.hist.started + [next])), GoTo(c, Draining(Listening(next))))
    case Listening(next) => (s, GoTo(c, Draining(if x.yes then Relock else Unwind)))
    case Relock => (s.(lock := Some(t)), GoTo(c, Draining(Loop)))
    case Unwind => (s.(lock := Some(t)), GoTo(c, Draining(Cleanup)))
    case Cleanup => (Resigning(s), GoTo(c, Draining(WantDrain)))
  }

  /** allowNewRun, for an open circuit whose limit is not exhausted. */
  function StepAskCloser(cfg: Settings, s: Shared, c: Call, start: int): (Shared, Call) {
    var (closer, ok) := Closer.Allow(s.closer, cfg.closer, start);
    var wiped := if Closer.SelfArms(s.closer, cfg.closer, start) then [Wiped] else [];
    (s.(closer := closer, armedAt := ArmedAt(s, closer), hist := s.hist.(results := s.hist.results + wiped)),
     GoTo(c, if ok && s.closer.openedAt.Some?
             then Gating(AskOpener(start, Admission(ByGrant(s.closer.openedAt.value), |s.hist.flips|)))
             else Ending(FallbackGate)))
  }

  function StepGate(cfg: Settings, s: Shared, c: Call, g: GatePc, x: Choice): (Shared, Call) {
    match g
    case Arrive => (s, GoTo(c, Gating(AskForceOpen(s.clock))))
    case AskForceOpen(start) =>
      (s, GoTo(c, if s.forceOpen then Ending(FallbackGate) else Gating(AskForcedClosed(start))))
    case AskForcedClosed(start) =>
      (s, GoTo(c, Gating(if s.forcedClosed then AskOpener(start, Admission(ByForced, |s.hist.flips|))
                         else AskIsOpen(start))))
    case AskIsOpen(start) =>
      (s, GoTo(c, Gating(if s.isOpen then AskLimit(start, |s.hist.flips|)
                         else AskOpener(start, Admission(ByClosed, |s.hist.flips|)))))
    case AskLimit(start, seen) =>
      (s, GoTo(c, if cfg.maxCommands >= 0 && s.commands >= cfg.maxCommands then Ending(FallbackGate)
                  else Gating(AskCloser(start, seen))))
    case AskCloser(start, seen) => StepAskCloser(cfg, s, c, start)
    case AskOpener(start, adm) => (s, GoTo(c, if x.yes then Ending(FallbackGate) else Gating(Acquire(start, adm))))
    case Acquire(start, adm) =>
      (s.(commands := s.commands + 1), Call(Gating(Acquired(start, adm, s.commands + 1)), true))
    case Acquired(start, adm, n) =>
      (s, GoTo(c, if cfg.maxCommands >= 0 && n > cfg.maxCommands then Ending(Release) else Running(InFunc(start, adm))))
  }

  /** The RunMetrics callbacks for a finished runFunc: the closer's, and what it counts, then the opener's and those of
      the user, who may panic (`heard` is false) and so skip all checks. */
  function StepReport(s: Shared, t: nat, c: Call, start: int, done: int, adm: Admission, outcome: Outcome,
                      heard: bool): (Shared, Call)
  {
    var counted := Closer.StartedWhileOpen(s.closer, done, done - start);
    match outcome
    case Succeeded =>
      (s.(closer := Closer.Success(s.closer, done, done - start),
          hist := s.hist.(results := s.hist.results + if counted then [Good(t, start, adm)] else [])),
       GoTo(c, if heard then Judging(SuccessIsOpen(done)) else Ending(Release)))
    case Ignored => (s, GoTo(c, Ending(Release)))
    case _ =>
      (s.(closer := Closer.Failure(s.closer, done, done - start),
          hist := s.hist.(results := s.hist.results + if counted then [Bad] else [])),
       GoTo(c, if heard then Judging(FailureIsOpen(done)) else Ending(Release)))
  }

  function StepRun(s: Shared, t: nat, c: Call, r: RunPc, x: Choice): (Shared, Call) {
    match r
    case InFunc(start, adm) =>
      (s, GoTo(c, if x.outcome.Panicked? then Ending(Release) else Running(Returned(start, adm, x.outcome))))
    case Returned(start, adm, outcome) => (s, GoTo(c, Running(Report(start, s.clock, adm, outcome))))
    case Report(start, done, adm, outcome) => StepReport(s, t, c, start, done, adm, outcome, x.yes)
  }

  function StepVerdict(cfg: Settings, s: Shared, c: Call, v: VerdictPc, x: Choice): (Shared, Call) {
    (s, GoTo(c,
      match v
      case SuccessIsOpen(done) => if s.isOpen then Judging(SuccessForceOpen(done)) else Ending(Release)
      case SuccessForceOpen(done) => if s.forceOpen then Ending(Release) else Judging(PreShouldClose(done))
      case PreShouldClose(done) =>
        if Closer.ShouldClose(s.closer, cfg.closer) then Moving(PreCheck(Move(false, done, true))) else Ending(Release)
      case FailureIsOpen(done) => if s.isOpen then Ending(Release) else Judging(AttemptForced(done))
      case AttemptForced(done) => if s.forcedClosed then Ending(Release) else Judging(AttemptIsOpen(done))
      case AttemptIsOpen(done) => if s.isOpen then Ending(Release) else Judging(PreShouldOpen(done))
      case PreShouldOpen(done) => if x.yes then Moving(PreCheck(Move(true, done, true))) else Ending(Release)))
  }

  function StepTail(cfg: Settings, s: Shared, c: Call, e: TailPc, x: Choice): (Shared, Call) {
    match e
    case Release => (s.(commands := s.commands - 1), Call(Ending(FallbackGate), false))
    case FallbackGate =>
      if x.yes then (s.(fallbacks := s.fallbacks + 1), GoTo(c, Ending(FallbackAcquired(s.fallbacks + 1))))
      else (s, GoTo(c, Done))
    case FallbackAcquired(n) =>
      (s, GoTo(c, Ending(if cfg.maxFallbacks >= 0 && n > cfg.maxFallbacks then FallbackRelease else InFallback)))
    case InFallback => (s, GoTo(c, Ending(FallbackRelease)))
    case FallbackRelease => (s.(fallbacks := s.fallbacks - 1), GoTo(c, Done))
  }

  function StepCall(cfg: Settings, s: Shared, t: nat, c: Call, x: Choice): (Shared, Call) {
    match c.pc
    case Moving(m) => StepMove(s, t, c, m)
    case Committing(k) => StepCommit(cfg, s, c, k, x)
    case Draining(d) => StepDrain(s, t, c, d, x)
    case Gating(g) => StepGate(cfg, s, c, g, x)
    case Running(r) => StepRun(s, t, c, r, x)
    case Judging(v) => StepVerdict(cfg, s, c, v, x)
    case Ending(e) => StepTail(cfg, s, c, e, x)
    case Done => (s, c)
  }

  predicate Possible(cfg: Settings, w: World, a: Action) {
    match a
    case Tick(_) => true
    case SetFlags(_, forcedClosed) => forcedClosed ==> cfg.mayForce
    case TimerFires(v) =>
      v == w.shared.closer.window.version ==> w.shared.clock >= w.shared.armedAt + cfg.closer.sleepWindow
    case Begin(pc) => pc == Gating(Arrive) || pc == Moving(ReadClock(true)) || pc == Moving(ReadClock(false))
    case Step(t, _) => t < |w.calls| && Enabled(w.shared, w.calls[t])
  }

  function Apply(cfg: Settings, w: World, a: Action): World
    requires Possible(cfg, w, a)
  {
    var s := w.shared;
    match a
    case Tick(elapsed) => w.(shared := s.(clock := s.clock + elapsed))
    case SetFlags(forceOpen, forcedClosed) => w.(shared := s.(forceOpen := forceOpen, forcedClosed := forcedClosed))
    case TimerFires(v) => w.(shared := s.(closer := s.closer.(window := TimedChecks.Callback(s.closer.window, v))))
    case Begin(pc) => w.(calls := w.calls + [Call(pc, false)])
    case Step(t, x) =>
      var (s', c') := StepCall(cfg, s, t, w.calls[t], x);
      World(s', w.calls[t := c'])
  }

  const NoHistory := History([], [], [], [], [], None, [], [])

  /** A new circuit at clock reading `clock`. */
  function Init(clock: int): World {
    World(Shared(clock, false, None, [], false, false, false, 0, 0, Closer.Fresh, clock, NoHistory), [])
  }

  /** The world after a run from `w`, if every action of the run was possible when it was taken. */
  function After(cfg: Settings, w: World, run: seq<Action>): Option<World>
    decreases |run|
  {
    if run == [] then Some(w)
    else
      var before := After(cfg, w, run[..|run| - 1]);
      if before.Some? && Possible(cfg, before.value, run[|run| - 1])
      then Some(Apply(cfg, before.value, run[|run| - 1]))
      else None
  }
}
