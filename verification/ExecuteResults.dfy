/** What Execute returns, in the terms of its caller: the result of the command, that of the fallback, or an error of
    the library, each exactly when. And how many commands the limits let through. */
module ExecuteResults {
  import opened Base
  import opened Counting
  import opened SequentialSpec
  import Machine = ReferenceMachine

  // ---- What lets a command run ----

  /** As many commands as MaxConcurrentRequests allows are running. */
  predicate IsFull(limit: int, running: int) { limit >= 0 && running >= limit }

  /** The circuit refuses to try, before it asks Prevent. */
  predicate IsShort<O, C>(m: Logic<O, C>, s: State<O, C>) {
    || s.settings.forceOpen
    || (&& !s.settings.forcedClosed && s.isOpen
        && (IsFull(s.settings.maxConcurrent, s.commands) || !m.allow(s.closer, s.clock).0))
  }

  /** A command may run exactly if the circuit tries, the opener does not prevent it, and there is room. Otherwise its
      caller gets CircuitOpen for the first two reasons, with an event only for the first, and ThrottledCommands for the
      third. */
  lemma AdmittedExactly<O, C>(m: Logic<O, C>, s: State<O, C>)
    ensures
      var (admission, s1) := Admit(m, s);
      if IsShort(m, s) then admission == Denied(Some(RunEvent(ShortCircuit, s.clock, 0)), CircuitOpen)
      else if m.prevent(s.opener, s.clock).0 then admission == Denied(None, CircuitOpen)
      else if IsFull(s.settings.maxConcurrent, s.commands) then
        admission == Denied(Some(RunEvent(ConcurrencyLimitReject, s.clock, 0)), ThrottledCommands)
      else admission == Admitted
  {}

  // ---- What Execute returns ----

  /** The command of an Execute, and what it returned itself; or the library's error if it was not called. */
  function CommandEnding<O, C>(m: Logic<O, C>, s: State<O, C>, script: Script<O, C>): Ending {
    if IsShort(m, s) || m.prevent(s.opener, s.clock).0 then Returned(Some(CircuitOpen))
    else if IsFull(s.settings.maxConcurrent, s.commands) then Returned(Some(ThrottledCommands))
    else
      var started := Admit(m, s).1;
      AfterScript(m, started.(commands := s.commands + 1), script).1
  }

  lemma RunReturns<O, C>(m: Logic<O, C>, s: State<O, C>, script: Script<O, C>, call: Call<O, C>)
    ensures AfterRun(m, s, script, call).1 == CommandEnding(m, s, script)
  {
    AdmittedExactly(m, s);
  }

  /** An error that is no bad request, and a fallback that may handle it. */
  predicate FallsBack<O, C>(settings: Settings, ending: Ending, fallback: Option<Script<O, C>>) {
    && ending.Returned? && ending.err.Some? && !(ending.err.value.UserError? && ending.err.value.badRequest)
    && fallback.Some? && !settings.fallbackDisabled
  }

  /** The state in which the fallback starts. */
  function FallbackStart<O, C>(m: Logic<O, C>, s: State<O, C>, script: Script<O, C>, call: Call<O, C>): State<O, C> {
    var t := AfterRun(m, s, script, call).0;
    t.(tally := t.tally.(executed := t.tally.executed + 1), fallbacks := t.fallbacks + 1)
  }

  /** An error that goes nowhere: the command's ending is that of Execute. */
  lemma WithoutFallback<O, C>(m: Logic<O, C>, s: State<O, C>, call: Call<O, C>)
    requires call.run.Some? && !s.settings.disabled
    requires var (t, own) := AfterRun(m, s, call.run.value, call); !FallsBack(t.settings, own, call.fallback)
    ensures var (t, own) := AfterRun(m, s, call.run.value, call); AfterExecute(m, s, call) == (Counted(t), own)
  {
    var (t, own) := AfterRun(m, s, call.run.value, call);
    assert AfterExecute(m, s, call) == Reply(m, Counted(t), own, call.fallback);
    assert Reply(m, Counted(t), own, call.fallback) == (Counted(t), own);
  }

  lemma WithFallback<O, C>(m: Logic<O, C>, s: State<O, C>, call: Call<O, C>)
    requires call.run.Some? && !s.settings.disabled
    requires var (t, own) := AfterRun(m, s, call.run.value, call); FallsBack(t.settings, own, call.fallback)
    ensures
      var t := AfterRun(m, s, call.run.value, call).0;
      if IsFull(t.settings.maxFallbacks, t.fallbacks) then
        AfterExecute(m, s, call) ==
          (TellFallback(Counted(t), FallbackReject(t.clock)), Returned(Some(ThrottledFallbacks)))
      else
        var (end, ending) := AfterScript(m, FallbackStart(m, s, call.run.value, call), call.fallback.value);
        AfterExecute(m, s, call) == (FallbackEnded(end, t.clock, ending), ending)
  {
    var (t, own) := AfterRun(m, s, call.run.value, call);
    assert AfterExecute(m, s, call) == Reply(m, Counted(t), own, call.fallback);
    assert Reply(m, Counted(t), own, call.fallback) == AfterFallback(m, Counted(t), own.err.value, call.fallback);
    assert FallbackStart(m, s, call.run.value, call) == Counted(t).(fallbacks := t.fallbacks + 1);
  }

  /** The result of Execute is nil without a command, and the command's own if the circuit is disabled; nothing else
      happens then. Otherwise it is the command's own result, or the library's error for a command that was not called;
      unless that is an error that goes to a fallback: then it is the fallback's own result, or ThrottledFallbacks if
      there is no room for it. */
  lemma ExecuteReturnsExactly<O, C>(m: Logic<O, C>, s: State<O, C>, call: Call<O, C>)
    ensures
      var (u, result) := AfterExecute(m, s, call);
      if call.run.None? then u == s && result == Returned(None)
      else if s.settings.disabled then (u, result) == AfterScript(m, s, call.run.value)
      else
        var own := CommandEnding(m, s, call.run.value);
        var t := AfterRun(m, s, call.run.value, call).0;
        if !FallsBack(t.settings, own, call.fallback) then result == own
        else if IsFull(t.settings.maxFallbacks, t.fallbacks) then result == Returned(Some(ThrottledFallbacks))
        else result == AfterScript(m, FallbackStart(m, s, call.run.value, call), call.fallback.value).1
  {
    if call.run.Some? && !s.settings.disabled {
      RunReturns(m, s, call.run.value, call);
      var (t, own) := AfterRun(m, s, call.run.value, call);
      if FallsBack(t.settings, own, call.fallback) { WithFallback(m, s, call); } else { WithoutFallback(m, s, call); }
    }
  }

  /** An Execute whose command is over adds exactly one fallback event of its own, after those of nested ones, if a
      fallback was to handle its error and did not panic: a reject if there was no room, else a failure or a success by
      what the fallback returned, with the time at which it started and how long it took. Otherwise it adds none. And
      the count of running fallbacks goes back. */
  lemma FallbackEventExactly<O, C>(m: Logic<O, C>, s: State<O, C>, call: Call<O, C>)
    requires call.run.Some? && !s.settings.disabled
    ensures
      var own := CommandEnding(m, s, call.run.value);
      var t, u := AfterRun(m, s, call.run.value, call).0, AfterExecute(m, s, call).0;
      if !FallsBack(t.settings, own, call.fallback) then u.heard == t.heard && u.fallbacks == t.fallbacks
      else if IsFull(t.settings.maxFallbacks, t.fallbacks) then
        && u.heard.fallbacks == t.heard.fallbacks + [FallbackReject(t.clock)] && u.heard.runs == t.heard.runs
        && u.fallbacks == t.fallbacks
      else
        var (end, ending) := AfterScript(m, FallbackStart(m, s, call.run.value, call), call.fallback.value);
        && u.fallbacks == end.fallbacks - 1 && u.heard.runs == end.heard.runs && u.clock == end.clock
        && u.heard.fallbacks == end.heard.fallbacks +
             (match ending
              case Panicked => []
              case Returned(None) => [FallbackSuccess(t.clock, end.clock - t.clock)]
              case Returned(Some(_)) => [FallbackFailure(t.clock, end.clock - t.clock)])
  {
    RunReturns(m, s, call.run.value, call);
    var (t, own) := AfterRun(m, s, call.run.value, call);
    if FallsBack(t.settings, own, call.fallback) { WithFallback(m, s, call); } else { WithoutFallback(m, s, call); }
  }

  // ---- The transitions that are heard ----

  /** At the end of a command the circuit moves at most once, by itself; exactly then the listeners hear of it, with the
      state that it has moved to and the clock after the run metrics. */
  lemma AutomaticMoveIsHeard<O, C>(m: Logic<O, C>, s: State<O, C>, script: Script<O, C>, call: Call<O, C>)
    requires Admit(m, s).0.Admitted? && Ended(m, s, script).1.Returned?
    ensures
      var mid, t := Ended(m, s, script).0, AfterRun(m, s, script, call).0;
      && t.clock == mid.clock + call.lag
      && t.heard.moves == mid.heard.moves + if t.isOpen == mid.isOpen then [] else [Transition(t.isOpen, t.clock)]
  {
    var (mid, ending) := Ended(m, s, script);
    var verdict := VerdictAt(mid, s.clock, s.settings.timeout, ending.err, call.ended);
    var told := Tell(m, mid, RunEvent(verdict, mid.clock, mid.clock - s.clock), call.lag);
    SettledMoveIsHeard(m, told, verdict, mid.clock);
  }

  lemma SettledMoveIsHeard<O, C>(m: Logic<O, C>, s: State<O, C>, verdict: Kind, now: int)
    requires now <= s.clock
    ensures
      var t := Settle(m, s, verdict, now);
      && t.clock == s.clock
      && t.heard.moves == s.heard.moves + if t.isOpen == s.isOpen then [] else [Transition(t.isOpen, s.clock)]
  {}

  /** OpenCircuit and CloseCircuit leave the circuit as they say, and are heard of if they had to move it. */
  lemma ManualMoveIsHeard<O, C>(m: Logic<O, C>, s: State<O, C>, open: bool)
    ensures
      var t := After(m, s, if open then OpenCircuit else CloseCircuit);
      && t.isOpen == open && t.clock == s.clock
      && t.heard.moves == s.heard.moves + if s.isOpen == open then [] else [Transition(open, s.clock)]
  {}

  // ---- How many the limits let through ----

  type Sample = State<Machine.Opener, Machine.Closer>

  type Func = Script<Machine.Opener, Machine.Closer>

  /** `depth` commands inside one another, each the last thing that the one around it does, and each succeeding. */
  function Nest(depth: nat): Func {
    if depth == 0 then Return(None) else Do(Execute(Call(Some(Nest(depth - 1)), None, None, 0)), Return(None))
  }

  /** A closed circuit that only a limit can deny anything. */
  predicate IsFree(s: Sample, limit: nat) {
    && !s.isOpen && !s.opener.prevent && !s.opener.wantOpen
    && s.settings == Settings(false, false, false, limit, 0, false, None, false, -1)
  }

  predicate IsSuccess(e: RunEvent) { e.kind == Success }

  predicate IsReject(e: RunEvent) { e.kind == ConcurrencyLimitReject }

  lemma {:induction false} NestReturnsNil(s: Sample, depth: nat)
    ensures AfterScript(Machine.Commandable(), s, Nest(depth)).1 == Returned(None)
  {
    if depth > 0 {
      var call: Call<Machine.Opener, Machine.Closer> := Call(Some(Nest(depth - 1)), None, None, 0);
      var t := AfterExecute(Machine.Commandable(), s, call).0;
      assert AfterScript(Machine.Commandable(), t, Return(None)).1 == Returned(None);
    }
  }

  /** A command that runs adds its own success to what it did itself. */
  lemma CommandEnds(s: Sample, begun: Sample, call: Call<Machine.Opener, Machine.Closer>, depth: nat)
    requires s.settings.maxConcurrent >= 0 && IsFree(s, s.settings.maxConcurrent)
    requires s.commands < s.settings.maxConcurrent && begun == s.(commands := s.commands + 1)
    requires call == Call(Some(Nest(depth)), None, None, 0)
    requires IsFree(AfterScript(Machine.Commandable(), begun, Nest(depth)).0, s.settings.maxConcurrent)
    ensures
      var mid := AfterScript(Machine.Commandable(), begun, Nest(depth)).0;
      var t := AfterExecute(Machine.Commandable(), s, call).0;
      && IsFree(t, s.settings.maxConcurrent) && t.commands == mid.commands - 1
      && Count(t.heard.runs, IsSuccess) == Count(mid.heard.runs, IsSuccess) + 1
      && Count(t.heard.runs, IsReject) == Count(mid.heard.runs, IsReject)
  {
    var m := Machine.Commandable();
    var mid := AfterScript(m, begun, Nest(depth)).0;
    NestReturnsNil(begun, depth);
    AdmittedExactly(m, s);
    assert Ended(m, s, Nest(depth)) == (mid, Returned(None));
    var e := RunEvent(Success, mid.clock, mid.clock - s.clock);
    assert AfterRun(m, s, Nest(depth), call).0.heard.runs == mid.heard.runs + [e];
    CountOfAppend(mid.heard.runs, IsSuccess, e);
    CountOfAppend(mid.heard.runs, IsReject, e);
  }

  /** Of `depth` nested commands exactly as many run as there is room for; the next one is rejected, and those inside
      of it are never reached. */
  lemma {:induction false} ExactlyTheLimitRuns(s: Sample, limit: nat, depth: nat)
    requires IsFree(s, limit) && 0 <= s.commands <= limit
    ensures
      var t := AfterScript(Machine.Commandable(), s, Nest(depth)).0;
      var room := limit - s.commands;
      && IsFree(t, limit) && t.commands == s.commands
      && Count(t.heard.runs, IsSuccess) == Count(s.heard.runs, IsSuccess) + Min(depth, room)
      && Count(t.heard.runs, IsReject) == Count(s.heard.runs, IsReject) + if depth > room then 1 else 0
    decreases depth
  {
    if depth > 0 {
      var m := Machine.Commandable();
      var call: Call<Machine.Opener, Machine.Closer> := Call(Some(Nest(depth - 1)), None, None, 0);
      assert AfterScript(m, s, Nest(depth)).0 == AfterExecute(m, s, call).0;
      if s.commands < limit {
        var begun := s.(commands := s.commands + 1);
        ExactlyTheLimitRuns(begun, limit, depth - 1);
        CommandEnds(s, begun, call, depth - 1);
      } else {
        CountOfAppend(s.heard.runs, IsSuccess, RunEvent(ConcurrencyLimitReject, s.clock, 0));
        CountOfAppend(s.heard.runs, IsReject, RunEvent(ConcurrencyLimitReject, s.clock, 0));
      }
    }
  }
}
