/** What RunMetrics promises about one Execute, and exactly when the circuit of SequentialSpec keeps it. */
module RunMetricsPromises {
  import opened Base
  import opened SequentialSpec
  import Runs = SequentialRuns
  import Machine = ReferenceMachine

  /** Where the command of an Execute leaves the circuit before it is reported, nested operations included; or where a
      refused one finds it. */
  function Before<O, C>(m: Logic<O, C>, s: State<O, C>, script: Script<O, C>): State<O, C> {
    if Admit(m, s).0.Admitted? then Ended(m, s, script).0 else Admit(m, s).1
  }

  /** The run events that an Execute itself emits, without those of nested ones. */
  function OwnEvents<O, C>(m: Logic<O, C>, s: State<O, C>, call: Call<O, C>): seq<RunEvent> {
    if call.run.None? || s.settings.disabled then []
    else
      var before := Before(m, s, call.run.value).heard.runs;
      var after := AfterRun(m, s, call.run.value, call).0.heard.runs;
      if |before| <= |after| then after[|before|..] else []
  }

  /** allowNewRun lets the command through, and the opener prevents it. */
  predicate Prevented<O, C>(m: Logic<O, C>, s: State<O, C>) {
    var (allowed, s1) := Allowed(m, s, s.clock, s.settings.maxConcurrent);
    allowed && m.prevent(s1.opener, s.clock).0
  }

  predicate Panics<O, C>(m: Logic<O, C>, s: State<O, C>, script: Script<O, C>) {
    Admit(m, s).0.Admitted? && Ended(m, s, script).1.Panicked?
  }

  // ---- One event for each attempt ----

  lemma RefusalEvents<O, C>(m: Logic<O, C>, s: State<O, C>, script: Script<O, C>, call: Call<O, C>)
    requires Admit(m, s).0.Denied?
    ensures
      var before, after := Before(m, s, script).heard.runs, AfterRun(m, s, script, call).0.heard.runs;
      && before == s.heard.runs
      && if Prevented(m, s) then after == before else |after| == |before| + 1 && after[..|before|] == before
    ensures Admit(m, s).0.event.Some? ==> Admit(m, s).0.event.value.kind in {ShortCircuit, ConcurrencyLimitReject}
  {}

  lemma AdmittedIsNotPrevented<O, C>(m: Logic<O, C>, s: State<O, C>)
    requires Admit(m, s).0.Admitted?
    ensures !Prevented(m, s)
  {}

  lemma CommandEvents<O, C>(m: Logic<O, C>, s: State<O, C>, script: Script<O, C>, call: Call<O, C>)
    requires Admit(m, s).0.Admitted?
    ensures
      var before, after := Before(m, s, script).heard.runs, AfterRun(m, s, script, call).0.heard.runs;
      if Panics(m, s, script) then after == before else |after| == |before| + 1 && after[..|before|] == before
  {
    if !Panics(m, s, script) { var kind := Runs.OneEventAtTheEnd(m, s, script, call); }
  }

  /** An Execute with a command emits exactly one event of its own if and only if the circuit is not disabled, the
      opener does not prevent it, and the command does not panic; otherwise it emits none. */
  lemma OneEventExactly<O, C>(m: Logic<O, C>, s: State<O, C>, call: Call<O, C>)
    requires call.run.Some?
    ensures |OwnEvents(m, s, call)| ==
      if !s.settings.disabled && !Prevented(m, s) && !Panics(m, s, call.run.value) then 1 else 0
    ensures !s.settings.disabled ==>
      AfterRun(m, s, call.run.value, call).0.heard.runs ==
        Before(m, s, call.run.value).heard.runs + OwnEvents(m, s, call)
  {
    if !s.settings.disabled {
      if Admit(m, s).0.Admitted? {
        AdmittedIsNotPrevented(m, s);
        CommandEvents(m, s, call.run.value, call);
      } else {
        RefusalEvents(m, s, call.run.value, call);
      }
    }
  }

  // ---- Success each time Execute does not return an error ----

  predicate ReportsSuccess<O, C>(m: Logic<O, C>, s: State<O, C>, call: Call<O, C>) {
    OwnEvents(m, s, call) != [] && OwnEvents(m, s, call)[0].kind == Success
  }

  /** A command that may run and returns nil itself. */
  predicate RunsToNil<O, C>(m: Logic<O, C>, s: State<O, C>, call: Call<O, C>) {
    && call.run.Some? && !s.settings.disabled
    && Admit(m, s).0.Admitted? && Ended(m, s, call.run.value).1 == Returned(None)
  }

  /** ... takes no longer than its timeout, if there is one. */
  predicate InTime<O, C>(m: Logic<O, C>, s: State<O, C>, script: Script<O, C>) {
    s.settings.timeout > 0 ==> Ended(m, s, script).0.clock - s.clock <= s.settings.timeout
  }

  lemma CommandReportsSuccess<O, C>(m: Logic<O, C>, s: State<O, C>, call: Call<O, C>)
    requires call.run.Some? && !s.settings.disabled && Admit(m, s).0.Admitted? && !Panics(m, s, call.run.value)
    ensures ReportsSuccess(m, s, call) <==> RunsToNil(m, s, call) && InTime(m, s, call.run.value)
  {
    var kind := Runs.OneEventAtTheEnd(m, s, call.run.value, call);
    var mid := Ended(m, s, call.run.value).0;
    assert OwnEvents(m, s, call) == [RunEvent(kind, mid.clock, mid.clock - s.clock)];
  }

  lemma RefusalReportsNoSuccess<O, C>(m: Logic<O, C>, s: State<O, C>, call: Call<O, C>)
    requires call.run.Some? && !s.settings.disabled && Admit(m, s).0.Denied?
    ensures !ReportsSuccess(m, s, call)
  {
    RefusalEvents(m, s, call.run.value, call);
  }

  /** Success is reported if and only if the circuit is not disabled and the command may run and returns nil in time. */
  lemma SuccessExactly<O, C>(m: Logic<O, C>, s: State<O, C>, call: Call<O, C>)
    ensures ReportsSuccess(m, s, call) <==> RunsToNil(m, s, call) && InTime(m, s, call.run.value)
  {
    if call.run.Some? && !s.settings.disabled {
      if Admit(m, s).0.Denied? {
        RefusalReportsNoSuccess(m, s, call);
      } else if Panics(m, s, call.run.value) {
        CommandEvents(m, s, call.run.value, call);
      } else {
        CommandReportsSuccess(m, s, call);
      }
    }
  }

  /** A command that was refused or returned an error that is no bad request, and a fallback that returned nil. */
  predicate Rescued<O, C>(m: Logic<O, C>, s: State<O, C>, call: Call<O, C>) {
    && call.run.Some? && !s.settings.disabled
    && var (t, ending) := AfterRun(m, s, call.run.value, call);
    && ending.Returned? && ending.err.Some? && !IsBadRequest(ending.err.value)
    && AfterFallback(m, Counted(t), ending.err.value, call.fallback).1 == Returned(None)
  }

  /** How an Execute can return nil. */
  lemma NilExactly<O, C>(m: Logic<O, C>, s: State<O, C>, call: Call<O, C>)
    ensures AfterExecute(m, s, call).1 == Returned(None) <==>
      || call.run.None?
      || (s.settings.disabled && AfterScript(m, s, call.run.value).1 == Returned(None))
      || RunsToNil(m, s, call)
      || Rescued(m, s, call)
  {}

  lemma NilIsNotRescued<O, C>(m: Logic<O, C>, s: State<O, C>, call: Call<O, C>)
    requires RunsToNil(m, s, call)
    ensures !Rescued(m, s, call)
  {}

  /** Each success is an Execute that returns nil; and one that returns nil reports no success if and only if it has no
      command, the circuit is disabled, the command came late, or the fallback rescued it. */
  lemma NilWithoutSuccessExactly<O, C>(m: Logic<O, C>, s: State<O, C>, call: Call<O, C>)
    ensures ReportsSuccess(m, s, call) ==> AfterExecute(m, s, call).1 == Returned(None)
    ensures AfterExecute(m, s, call).1 == Returned(None) ==>
      (!ReportsSuccess(m, s, call) <==>
       || call.run.None?
       || s.settings.disabled
       || (RunsToNil(m, s, call) && !InTime(m, s, call.run.value))
       || Rescued(m, s, call))
  {
    SuccessExactly(m, s, call);
    NilExactly(m, s, call);
    if RunsToNil(m, s, call) { NilIsNotRescued(m, s, call); }
  }

  // ---- One input for each failing case ----

  type Sample = State<Machine.Opener, Machine.Closer>

  type Func = Script<Machine.Opener, Machine.Closer>

  const LIMITED := Settings(false, false, false, 0, 1, false, None, false, -1)

  const UNLIMITED := LIMITED.(maxConcurrent := -1)

  /** A new circuit at time 0, whose opener and closer do as they are told. */
  function Fresh(settings: Settings, prevent: bool): Sample {
    Init(settings, 0, Machine.Opener(false, prevent), Machine.Closer(false, false))
  }

  /** What an Execute on it returns, and the run events that are heard. */
  function Outcome(s: Sample, run: Option<Func>, fallback: Option<Func>, ended: Option<ContextError>):
    (Ending, seq<RunEvent>)
  {
    var (t, ending) := AfterExecute(Machine.Commandable(), s, Call(run, fallback, ended, 0));
    (ending, t.heard.runs)
  }

  const NIL: Option<Func> := Some(Return(None))

  const FAILS: Option<Func> := Some(Return(Some(UserError(0, false))))

  /** Two units of time, where the timeout is one. */
  function Slow(ret: Option<Error>): Option<Func> { Some(Do(Tick(2), Return(ret))) }

  /** A fallback that returns nil rescues whatever the command came to. */
  lemma FallbackRescues(s: Sample, run: Func, ended: Option<ContextError>, err: Error, events: seq<RunEvent>)
    requires !s.settings.disabled && !IsBadRequest(err)
    requires
      var t := AfterRun(Machine.Commandable(), s, run, Call(Some(run), NIL, ended, 0));
      && t.1 == Returned(Some(err)) && t.0.heard.runs == events
      && !t.0.settings.fallbackDisabled && t.0.settings.maxFallbacks < 0
    ensures Outcome(s, Some(run), NIL, ended) == (Returned(None), events)
  {
    var m := Machine.Commandable();
    var t := AfterRun(m, s, run, Call(Some(run), NIL, ended, 0)).0;
    var begun := Counted(t).(fallbacks := t.fallbacks + 1);
    assert AfterScript(m, begun, NIL.value) == (begun, Returned(None));
    assert AfterFallback(m, Counted(t), err, NIL) == (FallbackEnded(begun, t.clock, Returned(None)), Returned(None));
    assert Reply(m, Counted(t), Returned(Some(err)), NIL) == AfterFallback(m, Counted(t), err, NIL);
    assert AfterExecute(m, s, Call(Some(run), NIL, ended, 0)) == AfterFallback(m, Counted(t), err, NIL);
  }

  lemma PreventedIsSilent()
    ensures Outcome(Fresh(UNLIMITED, true), NIL, None, None) == (Returned(Some(CircuitOpen)), [])
  {}

  lemma PanicIsSilent()
    ensures Outcome(Fresh(UNLIMITED, false), Some(Panic), None, None) == (Panicked, [])
  {}

  lemma NoCommandReturnsNil()
    ensures Outcome(Fresh(UNLIMITED, false), None, None, None) == (Returned(None), [])
  {}

  lemma DisabledReturnsNil()
    ensures Outcome(Fresh(UNLIMITED.(disabled := true), false), NIL, None, None) == (Returned(None), [])
  {}

  lemma LateReturnsNil()
    ensures Outcome(Fresh(UNLIMITED, false), Slow(None), None, None) == (Returned(None), [RunEvent(Timeout, 2, 2)])
  {
    var s, script := Fresh(UNLIMITED, false), Slow(None).value;
    assert AfterRun(Machine.Commandable(), s, script, Call(Some(script), None, None, 0)).0.heard.runs ==
      [RunEvent(Timeout, 2, 2)];
  }

  lemma FailureIsRescued()
    ensures Outcome(Fresh(UNLIMITED, false), FAILS, NIL, None) == (Returned(None), [RunEvent(Failure, 0, 0)])
  {
    var s := Fresh(UNLIMITED, false);
    FallbackRescues(s, FAILS.value, None, UserError(0, false), [RunEvent(Failure, 0, 0)]);
  }

  lemma TimeoutIsRescued()
    ensures Outcome(Fresh(UNLIMITED, false), Slow(Some(UserError(0, false))), NIL, None) ==
      (Returned(None), [RunEvent(Timeout, 2, 2)])
  {
    var s := Fresh(UNLIMITED, false);
    FallbackRescues(s, Slow(FAILS.value.err).value, None, UserError(0, false), [RunEvent(Timeout, 2, 2)]);
  }

  lemma InterruptIsRescued()
    ensures Outcome(Fresh(UNLIMITED, false), FAILS, NIL, Some(Canceled)) ==
      (Returned(None), [RunEvent(Interrupt, 0, 0)])
  {
    var s := Fresh(UNLIMITED, false);
    FallbackRescues(s, FAILS.value, Some(Canceled), UserError(0, false), [RunEvent(Interrupt, 0, 0)]);
  }

  lemma ShortCircuitIsRescued()
    ensures
      var open := After(Machine.Commandable(), Fresh(UNLIMITED, false), OpenCircuit);
      Outcome(open, NIL, NIL, None) == (Returned(None), [RunEvent(ShortCircuit, 0, 0)])
  {
    var s := After(Machine.Commandable(), Fresh(UNLIMITED, false), OpenCircuit);
    FallbackRescues(s, NIL.value, None, CircuitOpen, [RunEvent(ShortCircuit, 0, 0)]);
  }

  lemma ThrottleIsRescued()
    ensures Outcome(Fresh(LIMITED, false), NIL, NIL, None) == (Returned(None), [RunEvent(ConcurrencyLimitReject, 0, 0)])
  {
    var s := Fresh(LIMITED, false);
    FallbackRescues(s, NIL.value, None, ThrottledCommands, [RunEvent(ConcurrencyLimitReject, 0, 0)]);
  }

  lemma PreventionIsRescued()
    ensures Outcome(Fresh(UNLIMITED, true), NIL, NIL, None) == (Returned(None), [])
  {}
}
