/** What holds after every sequence of operations. */
module SequentialRuns {
  import opened Base
  import opened SequentialSpec

  /** Opened and Closed take turns, beginning with Opened; the timestamps never decrease and never exceed the clock. */
  predicate Orderly(moves: seq<Transition>, clock: int) {
    moves == [] ||
    var last := moves[|moves| - 1];
    last.open == (|moves| % 2 == 1) && last.at <= clock && Orderly(moves[..|moves| - 1], last.at)
  }

  lemma {:induction false} OrderlyMeans(moves: seq<Transition>, clock: int, i: nat)
    requires Orderly(moves, clock) && i < |moves|
    ensures moves[i].open == (i % 2 == 0) && moves[i].at <= clock
    ensures i + 1 < |moves| ==> moves[i].at <= moves[i + 1].at
  {
    if i + 1 < |moves| {
      OrderlyMeans(moves[..|moves| - 1], moves[|moves| - 1].at, i);
    }
  }

  /** Every Execute that got past the nil and Disabled checks accounts for exactly one run event, unless Prevent
      rejected it or it panicked. What the listeners heard last is the state. */
  ghost predicate Sound<O, C>(s: State<O, C>) {
    && s.tally.executed == |s.heard.runs| + s.tally.prevented + s.tally.panicked
    && Orderly(s.heard.moves, s.clock)
    && s.isOpen == (|s.heard.moves| % 2 == 1)
  }

  /** From s to t, no request in progress is forgotten or invented, and no listener is told twice or untold. */
  ghost predicate Kept<O, C>(s: State<O, C>, t: State<O, C>) {
    && t.commands == s.commands && t.fallbacks == s.fallbacks
    && s.clock <= t.clock
    && s.heard.runs <= t.heard.runs && s.heard.moves <= t.heard.moves
  }

  lemma MoveIsSound<O, C>(m: Logic<O, C>, s: State<O, C>, t: Transition)
    requires Sound(s) && s.isOpen != t.open && t.at == s.clock
    ensures Sound(Move(m, s, t))
  {
    assert (s.heard.moves + [t])[..|s.heard.moves|] == s.heard.moves;
  }

  lemma TellIsSound<O, C>(m: Logic<O, C>, s: State<O, C>, e: RunEvent, lag: nat)
    requires Sound(s)
    ensures var t := Tell(m, s, e, lag); Sound(Counted(t)) && Kept(s, t) && t.clock >= s.clock
  {}

  lemma SettleIsSound<O, C>(m: Logic<O, C>, s: State<O, C>, verdict: Kind, now: int)
    requires Sound(Counted(s)) && now <= s.clock
    ensures var t := Settle(m, s, verdict, now); Sound(Counted(t)) && Kept(s, t)
  {
    var (first, s1) := AskToMove(m, s, !s.isOpen, now);
    var (second, s2) := AskToMove(m, s1, !s.isOpen, now);
    MoveIsSound(m, Counted(s2), Stamp(s2, !s.isOpen, now));
  }

  /** The verdict's event makes up for the Execute that is about to be counted. */
  lemma JudgeIsSound<O, C>(m: Logic<O, C>, s: State<O, C>, start: int, timeout: int, ret: Option<Error>,
                           call: Call<O, C>)
    requires Sound(s)
    ensures var t := Judge(m, s, start, timeout, ret, call);
      Sound(Counted(t)) && Kept(s, t)
  {
    var verdict := VerdictAt(s, start, timeout, ret, call.ended);
    var e := RunEvent(verdict, s.clock, s.clock - start);
    TellIsSound(m, s, e, call.lag);
    var told := Tell(m, s, e, call.lag);
    assert Judge(m, s, start, timeout, ret, call) == Settle(m, told, verdict, s.clock);
    SettleIsSound(m, told, verdict, s.clock);
  }

  /** A panic emits nothing. */
  lemma CommandIsSound<O, C>(m: Logic<O, C>, s: State<O, C>, start: int, timeout: int, ending: Ending, call: Call<O, C>)
    requires Sound(s)
    ensures var t := AfterCommand(m, s, start, timeout, ending, call);
      Sound(Counted(t)) && Kept(s, t.(commands := s.commands)) && t.commands == s.commands - 1
  {
    if ending.Returned? { JudgeIsSound(m, s, start, timeout, ending.err, call); }
  }

  /** A denied command emits its event, if any, and asking changes nothing else. */
  lemma DenialIsSound<O, C>(m: Logic<O, C>, s: State<O, C>, lag: nat)
    requires Sound(s)
    ensures var (admission, s1) := Admit(m, s);
      && Kept(s, s1) && s1.clock == s.clock && s1.heard == s.heard
      && (admission.Admitted? ==> Sound(s1))
      && (admission.Denied? ==>
            var t := if admission.event.None? then s1 else Tell(m, s1, admission.event.value, lag);
            Sound(Counted(t)) && Kept(s, t))
  {}

  lemma {:induction false} ScriptIsSound<O, C>(m: Logic<O, C>, s: State<O, C>, script: Script<O, C>)
    requires Sound(s)
    ensures var t := AfterScript(m, s, script).0; Sound(t) && Kept(s, t)
    decreases script, 0
  {
    match script
    case Do(op, rest) =>
      OperationIsSound(m, s, op);
      ScriptIsSound(m, After(m, s, op), rest);
    case _ =>
  }

  lemma {:induction false} EndedIsSound<O, C>(m: Logic<O, C>, s: State<O, C>, script: Script<O, C>)
    requires Sound(s) && Admit(m, s).0.Admitted?
    ensures var mid := Ended(m, s, script).0; Sound(mid) && Kept(s.(commands := s.commands + 1), mid)
    decreases script, 1
  {
    DenialIsSound(m, s, 0);
    var s1 := Admit(m, s).1;
    ScriptIsSound(m, s1.(commands := s1.commands + 1), script);
  }

  lemma {:induction false} RunIsSound<O, C>(m: Logic<O, C>, s: State<O, C>, script: Script<O, C>, call: Call<O, C>)
    requires Sound(s)
    ensures var t := AfterRun(m, s, script, call).0; Sound(Counted(t)) && Kept(s, t)
    decreases script, 2
  {
    DenialIsSound(m, s, call.lag);
    if Admit(m, s).0.Admitted? {
      EndedIsSound(m, s, script);
      var (mid, ending) := Ended(m, s, script);
      CommandIsSound(m, mid, s.clock, s.settings.timeout, ending, call);
    }
  }

  lemma {:induction false} FallbackIsSound<O, C>(m: Logic<O, C>, s: State<O, C>, err: Error,
                                                 fallback: Option<Script<O, C>>)
    requires Sound(s)
    ensures var t := AfterFallback(m, s, err, fallback).0; Sound(t) && Kept(s, t)
    decreases fallback
  {
    if fallback.Some? { ScriptIsSound(m, s.(fallbacks := s.fallbacks + 1), fallback.value); }
  }

  lemma {:induction false} CallIsSound<O, C>(m: Logic<O, C>, s: State<O, C>, call: Call<O, C>)
    requires Sound(s)
    ensures var t := AfterExecute(m, s, call).0; Sound(t) && Kept(s, t)
    decreases call
  {
    if call.run.Some? {
      if s.settings.disabled {
        ScriptIsSound(m, s, call.run.value);
      } else {
        RunIsSound(m, s, call.run.value, call);
        var (s1, ending) := AfterRun(m, s, call.run.value, call);
        if ending.Returned? && ending.err.Some? {
          FallbackIsSound(m, Counted(s1), ending.err.value, call.fallback);
        }
      }
    }
  }

  lemma {:induction false} OperationIsSound<O, C>(m: Logic<O, C>, s: State<O, C>, op: Op<O, C>)
    requires Sound(s)
    ensures var t := After(m, s, op); Sound(t) && Kept(s, t)
    decreases op
  {
    match op
    case Execute(call) => CallIsSound(m, s, call);
    case _ =>
  }

  lemma {:induction false} EveryRunIsSound<O, C>(m: Logic<O, C>, settings: Settings, clock: int, opener: O, closer: C,
                                                 ops: seq<Op<O, C>>)
    ensures var s := AfterAll(m, Init(settings, clock, opener, closer), ops);
      Sound(s) && s.commands == s.fallbacks == 0
  {
    if ops != [] {
      EveryRunIsSound(m, settings, clock, opener, closer, ops[..|ops| - 1]);
      OperationIsSound(m, AfterAll(m, Init(settings, clock, opener, closer), ops[..|ops| - 1]), ops[|ops| - 1]);
    }
  }

  // ---- The one event of a command ----

  lemma SettleEmitsNothing<O, C>(m: Logic<O, C>, s: State<O, C>, verdict: Kind, now: int)
    ensures Settle(m, s, verdict, now).heard.runs == s.heard.runs
  {}

  /** A command that runs and returns is reported once, after all that it did itself, and its caller gets what it
      returned. It is a success exactly if it returned nil in time; a late nil is a timeout although the caller gets
      nil. */
  lemma OneEventAtTheEnd<O, C>(m: Logic<O, C>, s: State<O, C>, script: Script<O, C>, call: Call<O, C>)
    returns (kind: Kind)
    requires Admit(m, s).0.Admitted? && Ended(m, s, script).1.Returned?
    ensures
      var (mid, ending) := Ended(m, s, script);
      var (t, returned) := AfterRun(m, s, script, call);
      t.heard.runs == mid.heard.runs + [RunEvent(kind, mid.clock, mid.clock - s.clock)] && returned == ending
    ensures
      var (mid, ending) := Ended(m, s, script);
      var late := s.settings.timeout > 0 && mid.clock - s.clock > s.settings.timeout;
      var bad := ending.err.Some? && IsBadRequest(ending.err.value);
      var excused :=
        && call.ended.Some? && !mid.settings.ignoreInterrupts
        && (mid.settings.isErrInterrupt.None? || call.ended.value in mid.settings.isErrInterrupt.value);
      && (kind == Success <==> ending.err.None? && !late)
      && (kind == BadRequest <==> bad)
      && (kind == Timeout <==> late && !bad)
      && (kind == Interrupt <==> ending.err.Some? && !bad && !late && excused)
      && (kind == Failure <==> ending.err.Some? && !bad && !late && !excused)
  {
    var (mid, ending) := Ended(m, s, script);
    kind := VerdictAt(mid, s.clock, s.settings.timeout, ending.err, call.ended);
    var told := Tell(m, mid, RunEvent(kind, mid.clock, mid.clock - s.clock), call.lag);
    SettleEmitsNothing(m, told, kind, mid.clock);
  }

  // ---- The overrides ----

  /** Without manual transitions and changes of the settings, however deep in the user functions. */
  predicate AutomaticScript<O, C>(script: Script<O, C>) {
    match script
    case Do(op, rest) => Automatic(op) && AutomaticScript(rest)
    case _ => true
  }

  predicate AutomaticUse<O, C>(f: Option<Script<O, C>>) { f.Some? ==> AutomaticScript(f.value) }

  predicate Automatic<O, C>(op: Op<O, C>) {
    match op
    case Execute(call) => AutomaticUse(call.run) && AutomaticUse(call.fallback)
    case Retune(_, _) => true
    case Tick(_) => true
    case _ => false
  }

  /** ForceOpen freezes the underlying state, and ForcedClosed never lets it open. */
  ghost predicate Overridden<O, C>(s: State<O, C>, t: State<O, C>) {
    && t.settings == s.settings
    && (s.settings.forceOpen ==> t.isOpen == s.isOpen)
    && (s.settings.forcedClosed && t.isOpen ==> s.isOpen)
  }

  lemma SettleIsOverridden<O, C>(m: Logic<O, C>, s: State<O, C>, verdict: Kind, now: int)
    ensures var t := Settle(m, s, verdict, now);
      && t.settings == s.settings
      && (s.settings.forceOpen && s.isOpen ==> t.isOpen)
      && (s.settings.forcedClosed && !s.isOpen ==> !t.isOpen)
  {}

  lemma {:induction false} ScriptIsOverridden<O, C>(m: Logic<O, C>, s: State<O, C>, script: Script<O, C>)
    requires AutomaticScript(script)
    ensures Overridden(s, AfterScript(m, s, script).0)
    decreases script, 0
  {
    match script
    case Do(op, rest) =>
      OverridesHold(m, s, op);
      ScriptIsOverridden(m, After(m, s, op), rest);
    case _ =>
  }

  lemma {:induction false} RunIsOverridden<O, C>(m: Logic<O, C>, s: State<O, C>, script: Script<O, C>, call: Call<O, C>)
    requires AutomaticScript(script)
    ensures Overridden(s, AfterRun(m, s, script, call).0)
    decreases script, 1
  {
    if Admit(m, s).0.Admitted? {
      var s1 := Admit(m, s).1;
      ScriptIsOverridden(m, s1.(commands := s1.commands + 1), script);
      var (mid, ending) := Ended(m, s, script);
      if ending.Returned? {
        var verdict := VerdictAt(mid, s.clock, s.settings.timeout, ending.err, call.ended);
        var told := Tell(m, mid, RunEvent(verdict, mid.clock, mid.clock - s.clock), call.lag);
        SettleIsOverridden(m, told, verdict, mid.clock);
      }
    }
  }

  lemma {:induction false} FallbackIsOverridden<O, C>(m: Logic<O, C>, s: State<O, C>, err: Error,
                                                      fallback: Option<Script<O, C>>)
    requires AutomaticUse(fallback)
    ensures Overridden(s, AfterFallback(m, s, err, fallback).0)
    decreases fallback
  {
    if fallback.Some? { ScriptIsOverridden(m, s.(fallbacks := s.fallbacks + 1), fallback.value); }
  }

  lemma {:induction false} CallIsOverridden<O, C>(m: Logic<O, C>, s: State<O, C>, call: Call<O, C>)
    requires AutomaticUse(call.run) && AutomaticUse(call.fallback)
    ensures Overridden(s, AfterExecute(m, s, call).0)
    decreases call
  {
    if call.run.Some? {
      if s.settings.disabled {
        ScriptIsOverridden(m, s, call.run.value);
      } else {
        RunIsOverridden(m, s, call.run.value, call);
        var (s1, ending) := AfterRun(m, s, call.run.value, call);
        if ending.Returned? && ending.err.Some? {
          FallbackIsOverridden(m, Counted(s1), ending.err.value, call.fallback);
        }
      }
    }
  }

  /** While ForceOpen is set only CloseCircuit and OpenCircuit move the underlying state, and while ForcedClosed is set
      only OpenCircuit opens it. */
  lemma {:induction false} OverridesHold<O, C>(m: Logic<O, C>, s: State<O, C>, op: Op<O, C>)
    requires Automatic(op)
    ensures Overridden(s, After(m, s, op))
    decreases op
  {
    match op
    case Execute(call) => CallIsOverridden(m, s, call);
    case _ =>
  }

  /** While ForceOpen is set no command starts: what it would have done makes no difference. */
  lemma ForceOpenStartsNothing<O, C>(m: Logic<O, C>, s: State<O, C>, call: Call<O, C>, other: Script<O, C>)
    requires s.settings.forceOpen && !s.settings.disabled && call.run.Some?
    ensures AfterExecute(m, s, call) == AfterExecute(m, s, call.(run := Some(other)))
    ensures AfterRun(m, s, other, call) ==
      (Tell(m, s, RunEvent(ShortCircuit, s.clock, 0), call.lag), Returned(Some(CircuitOpen)))
  {
    assert AfterRun(m, s, call.run.value, call) == AfterRun(m, s, other, call.(run := Some(other)));
  }
}
