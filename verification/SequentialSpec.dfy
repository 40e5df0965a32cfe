/** circuit.go on one goroutine: what one operation does, for any opener, closer, settings and user functions. The user
    functions may call back into the circuit, take time and panic. */
module SequentialSpec {
  import opened Base

  datatype Error = UserError(id: nat, badRequest: bool) | CircuitOpen | ThrottledCommands | ThrottledFallbacks

  predicate IsBadRequest(err: Error) { err.UserError? && err.badRequest }

  /** What a finished parent context reports. */
  datatype ContextError = Canceled | DeadlineExceeded

  /** atomicCircuitConfig; isErrInterrupt is the set of context errors that the configured function accepts. */
  datatype Settings = Settings(disabled: bool, forceOpen: bool, forcedClosed: bool, maxConcurrent: int, timeout: int,
                               ignoreInterrupts: bool, isErrInterrupt: Option<set<ContextError>>,
                               fallbackDisabled: bool, maxFallbacks: int)

  /** The callbacks of RunMetrics. */
  datatype Kind = Success | Failure | Timeout | BadRequest | Interrupt | ConcurrencyLimitReject | ShortCircuit

  datatype RunEvent = RunEvent(kind: Kind, at: int, took: int)

  datatype FallbackEvent =
    FallbackSuccess(at: int, took: int) | FallbackFailure(at: int, took: int) | FallbackReject(at: int)

  datatype Transition = Transition(open: bool, at: int)

  /** Any ClosedToOpen with states O and any OpenToClosed with states C. */
  datatype Logic<!O, !C> = Logic(
    prevent: (O, int) -> (bool, O),
    shouldOpen: (O, int) -> (bool, O),
    openerHears: (O, RunEvent) -> O,
    openerMoves: (O, Transition) -> O,
    allow: (C, int) -> (bool, C),
    shouldClose: (C, int) -> (bool, C),
    closerHears: (C, RunEvent) -> C,
    closerMoves: (C, Transition) -> C)

  /** A user function: what it does with the circuit, and how it ends. */
  datatype Script<O, C> = Return(err: Option<Error>) | Panic | Do(op: Op<O, C>, rest: Script<O, C>)

  /** One Execute. `ended` is the error of the parent context when the command has returned, and `lag` is the time the
      run metrics take. */
  datatype Call<O, C> = Call(run: Option<Script<O, C>>, fallback: Option<Script<O, C>>,
                             ended: Option<ContextError>, lag: nat)

  /** `Retune` reaches the opener and the closer from outside of the circuit. */
  datatype Op<O, C> =
    | Execute(call: Call<O, C>)
    | OpenCircuit
    | CloseCircuit
    | Configure(settings: Settings)
    | Retune(opener: O, closer: C)
    | Tick(d: nat)

  /** One run event or transition. */
  datatype Note = Ran(event: RunEvent) | Moved(move: Transition)

  /** What the listeners have heard; `log` has runs and moves in one order. */
  datatype Heard =
    Heard(runs: seq<RunEvent>, fallbacks: seq<FallbackEvent>, moves: seq<Transition>, log: seq<Note>)

  /** The Executes that got past the nil and Disabled checks: how many have ended, and how many of these Prevent
      rejected and how many panicked. */
  datatype Tally = Tally(executed: nat, prevented: nat, panicked: nat)

  datatype State<O, C> = State(
    settings: Settings, clock: int, isOpen: bool, commands: int, fallbacks: int, opener: O, closer: C,
    heard: Heard, tally: Tally)

  datatype Ending = Returned(err: Option<Error>) | Panicked

  // ---- The parts of an Execute ----

  function Tell<O, C>(m: Logic<O, C>, s: State<O, C>, e: RunEvent, lag: nat): State<O, C> {
    s.(closer := m.closerHears(s.closer, e), opener := m.openerHears(s.opener, e),
       heard := s.heard.(runs := s.heard.runs + [e], log := s.heard.log + [Ran(e)]), clock := s.clock + lag)
  }

  function TellFallback<O, C>(s: State<O, C>, e: FallbackEvent): State<O, C> {
    s.(heard := s.heard.(fallbacks := s.heard.fallbacks + [e]))
  }

  function Stamp<O, C>(s: State<O, C>, open: bool, now: int): Transition { Transition(open, Max(now, s.clock)) }

  function Move<O, C>(m: Logic<O, C>, s: State<O, C>, t: Transition): State<O, C> {
    s.(isOpen := t.open, closer := m.closerMoves(s.closer, t), opener := m.openerMoves(s.opener, t),
       heard := s.heard.(moves := s.heard.moves + [t], log := s.heard.log + [Moved(t)]))
  }

  function AskToMove<O, C>(m: Logic<O, C>, s: State<O, C>, open: bool, now: int): (bool, State<O, C>) {
    if open then var (yes, o) := m.shouldOpen(s.opener, now); (yes, s.(opener := o))
    else var (yes, c) := m.shouldClose(s.closer, now); (yes, s.(closer := c))
  }

  /** Moves if the opener or the closer agrees twice, before and under the lock. */
  function TryToMove<O, C>(m: Logic<O, C>, s: State<O, C>, open: bool, now: int): State<O, C> {
    var (first, s1) := AskToMove(m, s, open, now);
    if !first then s1
    else
      var (second, s2) := AskToMove(m, s1, open, now);
      if second then Move(m, s2, Stamp(s2, open, now)) else s2
  }

  predicate Interrupted(settings: Settings, ended: Option<ContextError>) {
    && ended.Some?
    && !settings.ignoreInterrupts
    && (settings.isErrInterrupt.None? || ended.value in settings.isErrInterrupt.value)
  }

  /** How a command counts: the first of these that applies. */
  function Verdict(ret: Option<Error>, late: bool, interrupted: bool): Kind {
    if ret.Some? && IsBadRequest(ret.value) then BadRequest
    else if late then Timeout
    else if ret.Some? && interrupted then Interrupt
    else if ret.Some? then Failure
    else Success
  }

  /** An automatic transition, if the verdict and the settings call for one. */
  function Settle<O, C>(m: Logic<O, C>, s: State<O, C>, verdict: Kind, now: int): State<O, C> {
    if verdict == Success && s.isOpen && !s.settings.forceOpen then TryToMove(m, s, false, now)
    else if (verdict == Failure || verdict == Timeout) && !s.isOpen && !s.settings.forcedClosed then
      TryToMove(m, s, true, now)
    else s
  }

  function VerdictAt<O, C>(s: State<O, C>, start: int, timeout: int, ret: Option<Error>,
                           ended: Option<ContextError>): Kind
  {
    Verdict(ret, timeout > 0 && start + timeout < s.clock, Interrupted(s.settings, ended))
  }

  /** A command that started at `start` has just returned `ret`. */
  function Judge<O, C>(m: Logic<O, C>, s: State<O, C>, start: int, timeout: int, ret: Option<Error>,
                       call: Call<O, C>): State<O, C>
  {
    var verdict := VerdictAt(s, start, timeout, ret, call.ended);
    Settle(m, Tell(m, s, RunEvent(verdict, s.clock, s.clock - start), call.lag), verdict, s.clock)
  }

  /** The end of a command that started at `start`. A panic skips everything but the deferred decrement. */
  function AfterCommand<O, C>(m: Logic<O, C>, s: State<O, C>, start: int, timeout: int, ending: Ending,
                              call: Call<O, C>): State<O, C>
  {
    var t :=
      if ending.Panicked? then s.(tally := s.tally.(panicked := s.tally.panicked + 1))
      else Judge(m, s, start, timeout, ending.err, call);
    t.(commands := t.commands - 1)
  }

  function Allowed<O, C>(m: Logic<O, C>, s: State<O, C>, now: int, maxConcurrent: int): (bool, State<O, C>) {
    if s.settings.forceOpen then (false, s)
    else if s.settings.forcedClosed || !s.isOpen then (true, s)
    else if maxConcurrent >= 0 && s.commands >= maxConcurrent then (false, s)
    else var (yes, c) := m.allow(s.closer, now); (yes, s.(closer := c))
  }

  datatype Admission = Admitted | Denied(event: Option<RunEvent>, err: Error)

  /** Whether a command may run now, and what asking did to the opener and the closer. */
  function Admit<O, C>(m: Logic<O, C>, s: State<O, C>): (Admission, State<O, C>) {
    var (allowed, s1) := Allowed(m, s, s.clock, s.settings.maxConcurrent);
    if !allowed then (Denied(Some(RunEvent(ShortCircuit, s.clock, 0)), CircuitOpen), s1)
    else
      var (no, o) := m.prevent(s1.opener, s.clock);
      var s2 := s1.(opener := o);
      if no then (Denied(None, CircuitOpen), s2.(tally := s2.tally.(prevented := s2.tally.prevented + 1)))
      else if 0 <= s.settings.maxConcurrent < s2.commands + 1 then
        (Denied(Some(RunEvent(ConcurrencyLimitReject, s.clock, 0)), ThrottledCommands), s2)
      else (Admitted, s2)
  }

  /** The end of a fallback that started at `start`. */
  function FallbackEnded<O, C>(s: State<O, C>, start: int, ending: Ending): State<O, C> {
    var t := s.(fallbacks := s.fallbacks - 1);
    if ending.Panicked? then t
    else
      var took := s.clock - start;
      TellFallback(t, if ending.err.Some? then FallbackFailure(start, took) else FallbackSuccess(start, took))
  }

  /** One more Execute has ended. */
  function Counted<O, C>(s: State<O, C>): State<O, C> { s.(tally := s.tally.(executed := s.tally.executed + 1)) }

  // ---- Operations ----

  function AfterScript<O, C>(m: Logic<O, C>, s: State<O, C>, script: Script<O, C>): (State<O, C>, Ending)
    decreases script, 0
  {
    match script
    case Return(err) => (s, Returned(err))
    case Panic => (s, Panicked)
    case Do(op, rest) => AfterScript(m, After(m, s, op), rest)
  }

  /** Where a command that may run leaves the circuit when it ends, before it is judged. */
  function Ended<O, C>(m: Logic<O, C>, s: State<O, C>, script: Script<O, C>): (State<O, C>, Ending)
    decreases script, 1
  {
    var s1 := Admit(m, s).1;
    AfterScript(m, s1.(commands := s1.commands + 1), script)
  }

  function AfterRun<O, C>(m: Logic<O, C>, s: State<O, C>, script: Script<O, C>, call: Call<O, C>): (State<O, C>, Ending)
    decreases script, 2
  {
    var (admission, s1) := Admit(m, s);
    match admission
    case Denied(None, err) => (s1, Returned(Some(err)))
    case Denied(Some(event), err) => (Tell(m, s1, event, call.lag), Returned(Some(err)))
    case Admitted =>
      var (mid, ending) := Ended(m, s, script);
      (AfterCommand(m, mid, s.clock, s.settings.timeout, ending, call), ending)
  }

  function AfterFallback<O, C>(m: Logic<O, C>, s: State<O, C>, err: Error,
                               fallback: Option<Script<O, C>>): (State<O, C>, Ending)
    decreases fallback, 0
  {
    if fallback.None? || s.settings.fallbackDisabled then (s, Returned(Some(err)))
    else if 0 <= s.settings.maxFallbacks < s.fallbacks + 1 then
      (TellFallback(s, FallbackReject(s.clock)), Returned(Some(ThrottledFallbacks)))
    else
      var (s1, ending) := AfterScript(m, s.(fallbacks := s.fallbacks + 1), fallback.value);
      (FallbackEnded(s1, s.clock, ending), ending)
  }

  /** Bad requests, like successes and panics, go straight to the caller. */
  function Reply<O, C>(m: Logic<O, C>, s: State<O, C>, ending: Ending,
                       fallback: Option<Script<O, C>>): (State<O, C>, Ending)
    decreases fallback, 1
  {
    if ending == Panicked || ending.err.None? || IsBadRequest(ending.err.value) then (s, ending)
    else AfterFallback(m, s, ending.err.value, fallback)
  }

  function AfterExecute<O, C>(m: Logic<O, C>, s: State<O, C>, call: Call<O, C>): (State<O, C>, Ending)
    decreases call
  {
    if call.run.None? then (s, Returned(None))
    else if s.settings.disabled then AfterScript(m, s, call.run.value)
    else
      var (s1, ending) := AfterRun(m, s, call.run.value, call);
      Reply(m, Counted(s1), ending, call.fallback)
  }

  function After<O, C>(m: Logic<O, C>, s: State<O, C>, op: Op<O, C>): State<O, C>
    decreases op
  {
    match op
    case Execute(call) => AfterExecute(m, s, call).0
    case OpenCircuit => if s.isOpen then s else Move(m, s, Transition(true, s.clock))
    case CloseCircuit => if s.isOpen then Move(m, s, Transition(false, s.clock)) else s
    case Configure(settings) => s.(settings := settings)
    case Retune(opener, closer) => s.(opener := opener, closer := closer)
    case Tick(d) => s.(clock := s.clock + d)
  }

  function AfterAll<O, C>(m: Logic<O, C>, s: State<O, C>, ops: seq<Op<O, C>>): State<O, C> {
    if ops == [] then s else After(m, AfterAll(m, s, ops[..|ops| - 1]), ops[|ops| - 1])
  }

  function Init<O, C>(settings: Settings, clock: int, opener: O, closer: C): State<O, C> {
    State(settings, clock, false, 0, 0, opener, closer, Heard([], [], [], []), Tally(0, 0, 0))
  }
}
