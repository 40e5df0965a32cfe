/** The Circuit struct of circuit.go in place: each method does what SequentialSpec says. */
module SequentialCircuit {
  import opened Base
  import opened SequentialSpec

  function Notes(ts: seq<Transition>): seq<Note> { if ts == [] then [] else [Moved(ts[0])] + Notes(ts[1..]) }

  class Circuit<O, C> {
    const logic: Logic<O, C>
    var closedToOpen: O
    var openToClose: C
    var threadSafeConfig: Settings
    var isOpen: bool
    var concurrentCommands: int
    var concurrentFallbacks: int
    var pendingTransitions: seq<Transition>
    var deliveringTransitions: bool
    var clock: int                               // what timeNow reads
    var cmdMetrics: seq<RunEvent>                // what the listeners have heard
    var fallbackMetrics: seq<FallbackEvent>
    var circuitMetrics: seq<Transition>
    ghost var heardLog: seq<Note>
    ghost var tally: Tally

    /** The state, without what is waiting to be delivered. */
    ghost function Value(): State<O, C>
      reads this
    {
      State(threadSafeConfig, clock, isOpen, concurrentCommands, concurrentFallbacks, closedToOpen, openToClose,
            Heard(cmdMetrics, fallbackMetrics, circuitMetrics, heardLog), tally)
    }

    /** Between operations nothing is waiting, and nobody delivers. */
    ghost predicate Valid()
      reads this
    {
      pendingTransitions == [] && !deliveringTransitions
    }

    constructor (logic: Logic<O, C>, config: Settings, now: int, opener: O, closer: C)
      ensures Valid() && this.logic == logic && Value() == Init(config, now, opener, closer)
    {
      this.logic := logic;
      threadSafeConfig, clock, closedToOpen, openToClose := config, now, opener, closer;
      isOpen, concurrentCommands, concurrentFallbacks := false, 0, 0;
      pendingTransitions, deliveringTransitions := [], false;
      cmdMetrics, fallbackMetrics, circuitMetrics := [], [], [];
      tally, heardLog := Tally(0, 0, 0), [];
    }

    // ---- Transitions ----

    method NotifyStateMachines(t: Transition)
      modifies `closedToOpen, `openToClose
      ensures openToClose == logic.closerMoves(old(openToClose), t)
      ensures closedToOpen == logic.openerMoves(old(closedToOpen), t)
    {
      openToClose := logic.closerMoves(openToClose, t);
      closedToOpen := logic.openerMoves(closedToOpen, t);
    }

    method Ask(open: bool, now: int) returns (yes: bool)
      modifies `closedToOpen, `openToClose
      ensures (yes, Value()) == AskToMove(logic, old(Value()), open, now)
    {
      if open {
        var r := logic.shouldOpen(closedToOpen, now);
        yes, closedToOpen := r.0, r.1;
      } else {
        var r := logic.shouldClose(openToClose, now);
        yes, openToClose := r.0, r.1;
      }
    }

    /** Flips the state and queues the notification; with `recheck`, only if the opener or closer still agrees. */
    method CommitTransition(now: int, open: bool, recheck: bool) returns (moved: bool)
      modifies `isOpen, `closedToOpen, `openToClose, `pendingTransitions
      ensures old(isOpen) == open ==> !moved && Value() == old(Value())
      ensures old(isOpen) != open ==>
        var (yes, s) := if recheck then AskToMove(logic, old(Value()), open, now) else (true, old(Value()));
        && moved == yes
        && Value() == if yes then Move(logic, s, Stamp(s, open, now)).(heard := s.heard) else s
      ensures pendingTransitions == old(pendingTransitions) + if moved then [Transition(open, Max(now, clock))] else []
    {
      if isOpen == open { return false; }
      if recheck {
        var yes := Ask(open, now);
        if !yes { return false; }
      }
      isOpen := open;
      var at := now;
      if clock > now { at := clock; }
      NotifyStateMachines(Transition(open, at));
      pendingTransitions := pendingTransitions + [Transition(open, at)];
      moved := true;
    }

    method NotifyListeners(t: Transition)
      modifies `circuitMetrics, `heardLog
      ensures circuitMetrics == old(circuitMetrics) + [t] && heardLog == old(heardLog) + [Moved(t)]
    {
      circuitMetrics := circuitMetrics + [t];
      heardLog := heardLog + [Moved(t)];
    }

    /** Hands the queue to the listeners, oldest first, unless a delivery is in progress: that one will. */
    method DeliverPendingTransitions()
      modifies `pendingTransitions, `deliveringTransitions, `circuitMetrics, `heardLog
      ensures deliveringTransitions == old(deliveringTransitions)
      ensures old(deliveringTransitions) ==>
        && pendingTransitions == old(pendingTransitions) && circuitMetrics == old(circuitMetrics)
        && heardLog == old(heardLog)
      ensures !old(deliveringTransitions) ==>
        && pendingTransitions == [] && circuitMetrics == old(circuitMetrics) + old(pendingTransitions)
        && heardLog == old(heardLog) + Notes(old(pendingTransitions))
    {
      if deliveringTransitions { return; }
      deliveringTransitions := true;
      while |pendingTransitions| > 0
        invariant circuitMetrics + pendingTransitions == old(circuitMetrics) + old(pendingTransitions)
        invariant heardLog + Notes(pendingTransitions) == old(heardLog) + Notes(old(pendingTransitions))
        decreases |pendingTransitions|
      {
        var next := pendingTransitions[0];
        pendingTransitions := pendingTransitions[1..];
        NotifyListeners(next);
      }
      deliveringTransitions := false;
    }

    method TransitionTo(now: int, open: bool, recheck: bool)
      requires Valid()
      modifies `isOpen, `closedToOpen, `openToClose, `pendingTransitions, `deliveringTransitions, `circuitMetrics,
        `heardLog
      ensures Valid()
      ensures old(isOpen) == open ==> Value() == old(Value())
      ensures old(isOpen) != open ==>
        var (yes, s) := if recheck then AskToMove(logic, old(Value()), open, now) else (true, old(Value()));
        Value() == if yes then Move(logic, s, Stamp(s, open, now)) else s
    {
      if isOpen == open { return; }
      var moved := CommitTransition(now, open, recheck);
      if moved { DeliverPendingTransitions(); }
    }

    method CloseCircuit()
      requires Valid()
      modifies this
      ensures Valid() && Value() == After(logic, old(Value()), Op.CloseCircuit)
    {
      TransitionTo(clock, false, false);
    }

    method OpenCircuit()
      requires Valid()
      modifies this
      ensures Valid() && Value() == After(logic, old(Value()), Op.OpenCircuit)
    {
      TransitionTo(clock, true, false);
    }

    method AttemptToOpen(now: int)
      requires Valid()
      modifies this
      ensures Valid()
      ensures Value() ==
        if threadSafeConfig.forcedClosed || old(isOpen) then old(Value()) else TryToMove(logic, old(Value()), true, now)
      ensures threadSafeConfig == old(threadSafeConfig)
    {
      if threadSafeConfig.forcedClosed { return; }
      if isOpen { return; }
      var yes := Ask(true, now);
      if yes { TransitionTo(now, true, true); }
    }

    // ---- Outcomes ----

    /** CmdMetricCollector: the closer, the opener, then the user's listeners, which take `lag`. */
    method Emit(e: RunEvent, lag: nat)
      modifies `openToClose, `closedToOpen, `cmdMetrics, `heardLog, `clock
      ensures Value() == Tell(logic, old(Value()), e, lag)
    {
      openToClose := logic.closerHears(openToClose, e);
      closedToOpen := logic.openerHears(closedToOpen, e);
      cmdMetrics, heardLog := cmdMetrics + [e], heardLog + [Ran(e)];
      clock := clock + lag;
    }

    method CheckSuccess(doneTime: int, took: int, lag: nat)
      requires Valid()
      modifies this
      ensures Valid()
      ensures Value() ==
        Settle(logic, Tell(logic, old(Value()), RunEvent(Success, doneTime, took), lag), Success, doneTime)
    {
      Emit(RunEvent(Success, doneTime, took), lag);
      if !isOpen || threadSafeConfig.forceOpen { return; }
      var yes := Ask(false, doneTime);
      if yes { TransitionTo(doneTime, false, true); }
    }

    method CheckErrBadRequest(ret: Option<Error>, doneTime: int, took: int, lag: nat) returns (counted: bool)
      modifies `openToClose, `closedToOpen, `cmdMetrics, `heardLog, `clock
      ensures counted == (ret.Some? && IsBadRequest(ret.value))
      ensures Value() ==
        if counted then Tell(logic, old(Value()), RunEvent(BadRequest, doneTime, took), lag) else old(Value())
    {
      counted := ret.Some? && IsBadRequest(ret.value);
      if counted { Emit(RunEvent(BadRequest, doneTime, took), lag); }
    }

    method CheckErrTimeout(expectedDoneBy: Option<int>, doneTime: int, took: int, lag: nat) returns (counted: bool)
      requires Valid()
      modifies this
      ensures Valid() && counted == (expectedDoneBy.Some? && expectedDoneBy.value < doneTime)
      ensures Value() ==
        if counted then
          Settle(logic, Tell(logic, old(Value()), RunEvent(Timeout, doneTime, took), lag), Timeout, doneTime)
        else old(Value())
    {
      counted := expectedDoneBy.Some? && expectedDoneBy.value < doneTime;
      if counted {
        Emit(RunEvent(Timeout, doneTime, took), lag);
        if !isOpen { AttemptToOpen(doneTime); }
      }
    }

    method CheckErrInterrupt(ended: Option<ContextError>, ret: Option<Error>, doneTime: int, took: int, lag: nat)
      returns (counted: bool)
      modifies `openToClose, `closedToOpen, `cmdMetrics, `heardLog, `clock
      ensures counted == (ret.Some? && Interrupted(threadSafeConfig, ended))
      ensures Value() ==
        if counted then Tell(logic, old(Value()), RunEvent(Interrupt, doneTime, took), lag) else old(Value())
    {
      if ret.None? || ended.None? { return false; }
      var accepts := threadSafeConfig.isErrInterrupt;
      counted := !threadSafeConfig.ignoreInterrupts && (accepts.None? || ended.value in accepts.value);
      if counted { Emit(RunEvent(Interrupt, doneTime, took), lag); }
    }

    method CheckErrFailure(ret: Option<Error>, doneTime: int, took: int, lag: nat) returns (counted: bool)
      requires Valid()
      modifies this
      ensures Valid() && counted == ret.Some?
      ensures Value() ==
        if counted then
          Settle(logic, Tell(logic, old(Value()), RunEvent(Failure, doneTime, took), lag), Failure, doneTime)
        else old(Value())
    {
      counted := ret.Some?;
      if counted {
        Emit(RunEvent(Failure, doneTime, took), lag);
        if !isOpen { AttemptToOpen(doneTime); }
      }
    }

    // ---- Operations ----

    method AllowNewRun(now: int, maxConcurrent: int) returns (allowed: bool)
      modifies `openToClose
      ensures (allowed, Value()) == Allowed(logic, old(Value()), now, maxConcurrent)
    {
      if threadSafeConfig.forceOpen { return false; }
      if threadSafeConfig.forcedClosed || !isOpen { return true; }
      if maxConcurrent >= 0 && concurrentCommands >= maxConcurrent { return false; }
      var r := logic.allow(openToClose, now);
      allowed, openToClose := r.0, r.1;
    }

    /** The checks that turn what a command returned into one event and, perhaps, a transition. */
    method Classify(ret: Option<Error>, startTime: int, expectedDoneBy: Option<int>, ghost timeout: int,
                    call: Call<O, C>)
      requires Valid() && expectedDoneBy == if timeout > 0 then Some(startTime + timeout) else None
      modifies this
      ensures Valid() && Value() == Judge(logic, old(Value()), startTime, timeout, ret, call)
    {
      var doneTime := clock;
      var took := doneTime - startTime;
      var counted := CheckErrBadRequest(ret, doneTime, took, call.lag);
      if counted { return; }
      counted := CheckErrTimeout(expectedDoneBy, doneTime, took, call.lag);
      if counted { return; }
      counted := CheckErrInterrupt(call.ended, ret, doneTime, took, call.lag);
      if counted { return; }
      counted := CheckErrFailure(ret, doneTime, took, call.lag);
      if counted { return; }
      CheckSuccess(doneTime, took, call.lag);
    }

    method RunScript(script: Script<O, C>) returns (ending: Ending)
      requires Valid()
      modifies this
      ensures Valid() && (Value(), ending) == AfterScript(logic, old(Value()), script)
      decreases script, 0
    {
      match script
      case Return(err) => ending := Returned(err);
      case Panic => ending := Panicked;
      case Do(op, rest) =>
        Perform(op);
        ending := RunScript(rest);
    }

    /** The part of run before the command: an error if the command may not run. */
    method Begin(startTime: int, maxConcurrent: int, lag: nat) returns (denied: Option<Error>)
      requires startTime == clock && maxConcurrent == threadSafeConfig.maxConcurrent
      modifies this
      ensures pendingTransitions == old(pendingTransitions) && deliveringTransitions == old(deliveringTransitions)
      ensures var (admission, s) := Admit(logic, old(Value()));
        match admission
        case Admitted => denied == None && Value() == s.(commands := s.commands + 1)
        case Denied(event, err) =>
          denied == Some(err) && Value() == if event.Some? then Tell(logic, s, event.value, lag) else s
    {
      var allowed := AllowNewRun(startTime, maxConcurrent);
      if !allowed {
        Emit(RunEvent(ShortCircuit, startTime, 0), lag);
        return Some(CircuitOpen);
      }
      var r := logic.prevent(closedToOpen, startTime);
      closedToOpen := r.1;
      if r.0 {
        tally := tally.(prevented := tally.prevented + 1);
        return Some(CircuitOpen);
      }
      concurrentCommands := concurrentCommands + 1;
      if maxConcurrent >= 0 && concurrentCommands > maxConcurrent {
        Emit(RunEvent(ConcurrencyLimitReject, startTime, 0), lag);
        concurrentCommands := concurrentCommands - 1;
        return Some(ThrottledCommands);
      }
      denied := None;
    }

    /** The part of run after the command. */
    method End(ending: Ending, startTime: int, expectedDoneBy: Option<int>, ghost timeout: int, call: Call<O, C>)
      requires Valid() && expectedDoneBy == if timeout > 0 then Some(startTime + timeout) else None
      modifies this
      ensures Valid() && Value() == AfterCommand(logic, old(Value()), startTime, timeout, ending, call)
    {
      if ending.Panicked? {
        tally := tally.(panicked := tally.panicked + 1);
      } else {
        Classify(ending.err, startTime, expectedDoneBy, timeout, call);
      }
      concurrentCommands := concurrentCommands - 1;
    }

    method Run(script: Script<O, C>, call: Call<O, C>) returns (ending: Ending)
      requires Valid()
      modifies this
      ensures Valid() && (Value(), ending) == AfterRun(logic, old(Value()), script, call)
      decreases script, 1
    {
      var startTime := clock;
      var denied := Begin(startTime, threadSafeConfig.maxConcurrent, call.lag);
      if denied.Some? { return Returned(denied); }
      var expectedDoneBy := None;
      var timeout := threadSafeConfig.timeout;
      if timeout > 0 { expectedDoneBy := Some(startTime + timeout); }
      ending := RunScript(script);
      End(ending, startTime, expectedDoneBy, timeout, call);
    }

    /** FallbackMetricCollector. */
    method EmitFallback(e: FallbackEvent)
      modifies `fallbackMetrics
      ensures Value() == TellFallback(old(Value()), e)
    {
      fallbackMetrics := fallbackMetrics + [e];
    }

    method EndFallback(ending: Ending, startTime: int)
      modifies `fallbackMetrics, `concurrentFallbacks
      ensures Value() == FallbackEnded(old(Value()), startTime, ending)
    {
      if ending.Returned? {
        var took := clock - startTime;
        EmitFallback(if ending.err.Some? then FallbackFailure(startTime, took) else FallbackSuccess(startTime, took));
      }
      concurrentFallbacks := concurrentFallbacks - 1;
    }

    method Fallback(err: Error, fallback: Option<Script<O, C>>) returns (ending: Ending)
      requires Valid()
      modifies this
      ensures Valid() && (Value(), ending) == AfterFallback(logic, old(Value()), err, fallback)
      decreases fallback
    {
      if fallback.None? || threadSafeConfig.fallbackDisabled { return Returned(Some(err)); }
      concurrentFallbacks := concurrentFallbacks + 1;
      var maxFallback := threadSafeConfig.maxFallbacks;
      var startTime := clock;
      if maxFallback >= 0 && concurrentFallbacks > maxFallback {
        EmitFallback(FallbackReject(startTime));
        concurrentFallbacks := concurrentFallbacks - 1;
        return Returned(Some(ThrottledFallbacks));
      }
      ending := RunScript(fallback.value);
      EndFallback(ending, startTime);
    }

    method Execute(call: Call<O, C>) returns (ending: Ending)
      requires Valid()
      modifies this
      ensures Valid() && (Value(), ending) == AfterExecute(logic, old(Value()), call)
      decreases call
    {
      if call.run.None? { return Returned(None); }
      if threadSafeConfig.disabled {
        ending := RunScript(call.run.value);
        return;
      }
      ending := Run(call.run.value, call);
      tally := tally.(executed := tally.executed + 1);
      if ending.Panicked? || ending.err.None? { return; }
      if IsBadRequest(ending.err.value) { return; }
      ending := Fallback(ending.err.value, call.fallback);
    }

    method Perform(op: Op<O, C>)
      requires Valid()
      modifies this
      ensures Valid() && Value() == After(logic, old(Value()), op)
      decreases op
    {
      match op
      case Execute(call) => var _ := Execute(call);
      case OpenCircuit => OpenCircuit();
      case CloseCircuit => CloseCircuit();
      case Configure(settings) => threadSafeConfig := settings;
      case Retune(opener, closer) => closedToOpen, openToClose := opener, closer;
      case Tick(d) => clock := clock + d;
    }

    method PerformAll(ops: seq<Op<O, C>>)
      requires Valid()
      modifies this
      ensures Valid() && Value() == AfterAll(logic, old(Value()), ops)
    {
      for i := 0 to |ops|
        invariant Valid() && Value() == AfterAll(logic, old(Value()), ops[..i])
      {
        assert ops[..i + 1][..i] == ops[..i];
        Perform(ops[i]);
      }
      assert ops[..|ops|] == ops;
    }
  }
}
