/** faststats/timedcheck.go between any number of goroutines: SleepStart and Check calls and timer callbacks, with every
    access of a field a step of its own. */
module TimedCheckRace {
  import opened Base
  import opened Counting
  import opened TimedChecks

  /** What took effect under the lock. */
  datatype Entry = Started(now: int) | Granted(now: int)

  datatype Shared = Shared(
    win: Window,
    lock: Option<nat>,        // who holds mu for writing
    lastSetTimer: Option<nat>,
    timers: set<nat>,         // armed timers, by the version their callback carries
    log: seq<Entry>)

  /** `grant` says whether the reset was reached from Check. */
  datatype Pc =
    | WantStart(now: int)
    | AskFlag(now: int)
    | AskTime(now: int)
    | WantCheck(now: int)
    | Recheck(now: int)
    | Counted(now: int)
    | StopTimer(now: int, grant: bool)
    | SetNextOpen(now: int, grant: bool)
    | SetCount(now: int, grant: bool)
    | SetFlag(now: int, grant: bool)
    | BumpVersion(now: int, grant: bool)
    | ArmTimer(now: int, version: nat, grant: bool)
    | Finish(now: int, grant: bool)
    | TestVersion(version: nat)
    | ClearFlag(version: nat)
    | Returned(now: int, ok: bool)

  datatype World = World(shared: Shared, calls: seq<Pc>)

  /** Step's `stopped`: does Stop reach the timer before it fires? */
  datatype Action = Begin(pc: Pc) | Fire(version: nat) | Step(call: nat, stopped: bool)

  predicate HoldsLock(pc: Pc) {
    pc.Recheck? || pc.Counted? || pc.StopTimer? || InReset(pc) || pc.Finish?
  }

  /** Past StopTimer and before the new timer is armed. */
  predicate InReset(pc: Pc) {
    pc.SetNextOpen? || pc.SetCount? || pc.SetFlag? || pc.BumpVersion? || pc.ArmTimer?
  }

  predicate NeedsLock(pc: Pc) { pc.WantStart? || pc.WantCheck? || pc.AskTime? }

  function StepCall(cfg: Config, s: Shared, t: nat, pc: Pc, stopped: bool): (Shared, Pc) {
    match pc
    case WantStart(now) => (s.(lock := Some(t)), StopTimer(now, false))
    case AskFlag(now) => (s, if s.win.fastFail then Returned(now, false) else AskTime(now))
    case AskTime(now) => (s, if s.win.nextOpen > now then Returned(now, false) else WantCheck(now))
    case WantCheck(now) => (s.(lock := Some(t)), Recheck(now))
    case Recheck(now) =>
      if s.win.nextOpen > now then (s.(lock := None), Returned(now, false))
      else (s.(win := s.win.(allowed := s.win.allowed + 1)), Counted(now))
    case Counted(now) => (s, if s.win.allowed >= cfg.allow then StopTimer(now, true) else Finish(now, true))
    case StopTimer(now, grant) =>
      (s.(timers := if stopped && s.lastSetTimer.Some? then s.timers - {s.lastSetTimer.value} else s.timers,
          lastSetTimer := None),
       SetNextOpen(now, grant))
    case SetNextOpen(now, grant) => (s.(win := s.win.(nextOpen := now + cfg.sleep)), SetCount(now, grant))
    case SetCount(now, grant) => (s.(win := s.win.(allowed := 0)), SetFlag(now, grant))
    case SetFlag(now, grant) => (s.(win := s.win.(fastFail := true)), BumpVersion(now, grant))
    case BumpVersion(now, grant) =>
      (s.(win := s.win.(version := s.win.version + 1)), ArmTimer(now, s.win.version + 1, grant))
    case ArmTimer(now, version, grant) =>
      (s.(timers := s.timers + {version}, lastSetTimer := Some(version)), Finish(now, grant))
    case Finish(now, grant) =>
      (s.(lock := None, log := s.log + [if grant then Granted(now) else Started(now)]), Returned(now, grant))
    case TestVersion(version) => (s, if version == s.win.version then ClearFlag(version) else Returned(0, false))
    case ClearFlag(version) => (s.(win := s.win.(fastFail := false)), Returned(0, false))
    case Returned(_, _) => (s, pc)
  }

  predicate Possible(w: World, a: Action) {
    match a
    case Begin(pc) => pc.WantStart? || pc.AskFlag?
    case Fire(v) => v in w.shared.timers
    case Step(t, _) =>
      t < |w.calls| && !w.calls[t].Returned? && (NeedsLock(w.calls[t]) ==> w.shared.lock.None?)
  }

  function Apply(cfg: Config, w: World, a: Action): World
    requires Possible(w, a)
  {
    match a
    case Begin(pc) => w.(calls := w.calls + [pc])
    case Fire(v) => World(w.shared.(timers := w.shared.timers - {v}), w.calls + [TestVersion(v)])
    case Step(t, stopped) =>
      var (s', pc') := StepCall(cfg, w.shared, t, w.calls[t], stopped);
      World(s', w.calls[t := pc'])
  }

  const Init := World(Shared(Fresh, None, None, {}, []), [])

  function After(cfg: Config, run: seq<Action>): Option<World>
    decreases |run|
  {
    if run == [] then Some(Init)
    else
      var before := After(cfg, run[..|run| - 1]);
      if before.Some? && Possible(before.value, run[|run| - 1])
      then Some(Apply(cfg, before.value, run[|run| - 1]))
      else None
  }

  // ---- The specification: a window without the flag and without timers ----

  /** The window after the logged calls, had each been one atomic call of a TimedCheck whose flag is never up. */
  function Replay(cfg: Config, log: seq<Entry>): Window {
    if log == [] then Fresh
    else
      var w := Replay(cfg, log[..|log| - 1]).(fastFail := false);
      match log[|log| - 1]
      case Started(now) => SleepStart(w, cfg.sleep, now)
      case Granted(now) => Check(w, cfg, now).0
  }

  /** Every logged grant is one that the specification gives. */
  predicate Lawful(cfg: Config, log: seq<Entry>) {
    log == [] ||
    (&& Lawful(cfg, log[..|log| - 1])
     && (log[|log| - 1].Granted? ==>
           Check(Replay(cfg, log[..|log| - 1]).(fastFail := false), cfg, log[|log| - 1].now).1))
  }

  predicate SameTimes(w: Window, v: Window) { w.nextOpen == v.nextOpen && w.allowed == v.allowed }

  /** The holder of the lock has come so far with the call that it will log. */
  predicate HolderInv(cfg: Config, s: Shared, pc: Pc) {
    var spec := Replay(cfg, s.log);
    match pc
    case Recheck(_) => SameTimes(s.win, spec)
    case Counted(now) => spec.nextOpen <= now && SameTimes(s.win, spec.(allowed := spec.allowed + 1))
    case StopTimer(now, grant) => InTime(cfg, spec, now, grant)
    case SetNextOpen(now, grant) => InTime(cfg, spec, now, grant)
    case SetCount(now, grant) => InTime(cfg, spec, now, grant) && s.win.nextOpen == now + cfg.sleep
    case SetFlag(now, grant) => InTime(cfg, spec, now, grant) && s.win.nextOpen == now + cfg.sleep && s.win.allowed == 0
    case BumpVersion(now, grant) =>
      InTime(cfg, spec, now, grant) && s.win.nextOpen == now + cfg.sleep && s.win.allowed == 0
    case ArmTimer(now, v, grant) =>
      InTime(cfg, spec, now, grant) && s.win.nextOpen == now + cfg.sleep && s.win.allowed == 0 && v == s.win.version
    case Finish(now, grant) =>
      if grant then
        var (w, ok) := Check(spec.(fastFail := false), cfg, now); ok && SameTimes(s.win, w)
      else s.win.nextOpen == now + cfg.sleep && s.win.allowed == 0
    case _ => true
  }

  predicate InTime(cfg: Config, spec: Window, now: int, grant: bool) {
    grant ==> spec.nextOpen <= now && spec.allowed + 1 >= cfg.allow
  }

  /** A callback of the current version is still to come. */
  ghost predicate Rescued(w: World) {
    || w.shared.win.version in w.shared.timers
    || exists t :: 0 <= t < |w.calls| && Rescuer(w.calls[t], w.shared.win.version)
  }

  predicate Rescuer(pc: Pc, version: nat) { pc == TestVersion(version) || pc == ClearFlag(version) }

  ghost predicate Inv(cfg: Config, w: World) {
    var s := w.shared;
    && (forall t :: 0 <= t < |w.calls| ==>
          (HoldsLock(w.calls[t]) <==> s.lock == Some(t)) && HolderInv(cfg, s, w.calls[t]))
    && (s.lock.Some? ==> s.lock.value < |w.calls|)
    && Lawful(cfg, s.log)
    && (s.lock.None? ==> SameTimes(s.win, Replay(cfg, s.log)))
    && (s.win.fastFail && !(s.lock.Some? && InReset(w.calls[s.lock.value])) ==> Rescued(w))
  }

  /** Steps of other calls leave the holder alone. */
  predicate Rely(s: Shared, s': Shared, u: nat) {
    && (s.lock == Some(u) <==> s'.lock == Some(u))
    && (s.lock == Some(u) ==> SameTimes(s.win, s'.win) && s.win.version == s'.win.version && s.log == s'.log)
  }

  lemma ReplayOfAppend(cfg: Config, log: seq<Entry>, e: Entry)
    ensures Replay(cfg, log + [e]) ==
      var w := Replay(cfg, log).(fastFail := false);
      if e.Started? then SleepStart(w, cfg.sleep, e.now) else Check(w, cfg, e.now).0
    ensures Lawful(cfg, log + [e]) <==>
      Lawful(cfg, log) && (e.Granted? ==> Check(Replay(cfg, log).(fastFail := false), cfg, e.now).1)
  {
    assert (log + [e])[..|log|] == log;
  }

  /** The log is lawful, and call t and the window are in line with it. */
  predicate InSpec(cfg: Config, s: Shared, t: nat, pc: Pc) {
    && (HoldsLock(pc) <==> s.lock == Some(t)) && HolderInv(cfg, s, pc)
    && Lawful(cfg, s.log) && (s.lock.None? ==> SameTimes(s.win, Replay(cfg, s.log)))
  }

  lemma StepKeepsRely(cfg: Config, s: Shared, t: nat, pc: Pc, stopped: bool, u: nat)
    requires (HoldsLock(pc) <==> s.lock == Some(t)) && (NeedsLock(pc) ==> s.lock.None?) && u != t
    ensures Rely(s, StepCall(cfg, s, t, pc, stopped).0, u)
  {}

  lemma FinishKeepsSpec(cfg: Config, s: Shared, t: nat, now: int, grant: bool)
    requires InSpec(cfg, s, t, Finish(now, grant))
    ensures var (s', pc') := StepCall(cfg, s, t, Finish(now, grant), false); InSpec(cfg, s', t, pc')
  {
    ReplayOfAppend(cfg, s.log, if grant then Granted(now) else Started(now));
  }

  lemma ResetKeepsSpec(cfg: Config, s: Shared, t: nat, pc: Pc, stopped: bool)
    requires InSpec(cfg, s, t, pc) && (pc.StopTimer? || InReset(pc))
    ensures var (s', pc') := StepCall(cfg, s, t, pc, stopped); InSpec(cfg, s', t, pc')
  {}

  lemma StepKeepsSpec(cfg: Config, s: Shared, t: nat, pc: Pc, stopped: bool)
    requires InSpec(cfg, s, t, pc) && !pc.Returned? && (NeedsLock(pc) ==> s.lock.None?)
    ensures var (s', pc') := StepCall(cfg, s, t, pc, stopped); InSpec(cfg, s', t, pc')
  {
    if pc.Finish? {
      FinishKeepsSpec(cfg, s, t, pc.now, pc.grant);
    } else if pc.StopTimer? || InReset(pc) {
      ResetKeepsSpec(cfg, s, t, pc, stopped);
    }
  }

  predicate Resetting(w: World) {
    w.shared.lock.Some? && w.shared.lock.value < |w.calls| && InReset(w.calls[w.shared.lock.value])
  }

  /** A raised flag is only touched by resets and by callbacks of the current version. */
  lemma StepKeepsRescue(cfg: Config, w: World, t: nat, stopped: bool)
    requires Inv(cfg, w) && Possible(w, Step(t, stopped))
    ensures var w' := Apply(cfg, w, Step(t, stopped));
      w'.shared.win.fastFail && !Resetting(w') ==> Rescued(w')
  {
    var pc := w.calls[t];
    var w' := Apply(cfg, w, Step(t, stopped));
    if w'.shared.win.fastFail && !Resetting(w') {
      if pc.ArmTimer? {
        assert w'.shared.win.version in w'.shared.timers;
      } else {
        assert !InReset(pc) && !pc.StopTimer? by { assert w'.calls[t] == StepCall(cfg, w.shared, t, pc, stopped).1; }
        assert forall u :: 0 <= u < |w.calls| && u != t ==> w'.calls[u] == w.calls[u];
        if w.shared.win.version !in w.shared.timers {
          var u :| 0 <= u < |w.calls| && Rescuer(w.calls[u], w.shared.win.version);
          assert Rescuer(w'.calls[u], w'.shared.win.version);
        }
      }
    }
  }

  lemma StepKeepsInv(cfg: Config, w: World, t: nat, stopped: bool)
    requires Inv(cfg, w) && Possible(w, Step(t, stopped))
    ensures Inv(cfg, Apply(cfg, w, Step(t, stopped)))
  {
    var w' := Apply(cfg, w, Step(t, stopped));
    StepKeepsSpec(cfg, w.shared, t, w.calls[t], stopped);
    StepKeepsRescue(cfg, w, t, stopped);
    forall u | 0 <= u < |w'.calls|
      ensures (HoldsLock(w'.calls[u]) <==> w'.shared.lock == Some(u)) && HolderInv(cfg, w'.shared, w'.calls[u])
    {
      if u != t { StepKeepsRely(cfg, w.shared, t, w.calls[t], stopped, u); }
    }
    if w'.shared.lock.Some? && w'.shared.lock.value != t {
      StepKeepsRely(cfg, w.shared, t, w.calls[t], stopped, w'.shared.lock.value);
    }
  }

  /** A new call or callback is one more that may rescue the flag. */
  lemma ArrivalKeepsInv(cfg: Config, w: World, a: Action)
    requires Inv(cfg, w) && Possible(w, a) && !a.Step?
    ensures Inv(cfg, Apply(cfg, w, a))
  {
    var w' := Apply(cfg, w, a);
    assert forall u :: 0 <= u < |w.calls| ==> w'.calls[u] == w.calls[u];
    if w.shared.win.fastFail && !Resetting(w) && w.shared.win.version !in w'.shared.timers {
      if w.shared.win.version in w.shared.timers {
        assert Rescuer(w'.calls[|w.calls|], w.shared.win.version);
      } else {
        var u :| 0 <= u < |w.calls| && Rescuer(w.calls[u], w.shared.win.version);
        assert Rescuer(w'.calls[u], w.shared.win.version);
      }
    }
  }

  lemma ActionKeepsInv(cfg: Config, w: World, a: Action)
    requires Inv(cfg, w) && Possible(w, a)
    ensures Inv(cfg, Apply(cfg, w, a))
  {
    if a.Step? { StepKeepsInv(cfg, w, a.call, a.stopped); } else { ArrivalKeepsInv(cfg, w, a); }
  }

  lemma {:induction false} EveryRunKeepsInv(cfg: Config, run: seq<Action>)
    ensures After(cfg, run).Some? ==> Inv(cfg, After(cfg, run).value)
    decreases |run|
  {
    if run != [] {
      EveryRunKeepsInv(cfg, run[..|run| - 1]);
      var before := After(cfg, run[..|run| - 1]);
      if before.Some? && Possible(before.value, run[|run| - 1]) {
        ActionKeepsInv(cfg, before.value, run[|run| - 1]);
      }
    }
  }

  // ---- Who was told yes ----

  /** A check with this timestamp has returned true. */
  function Took(now: int): Pc -> bool { (pc: Pc) => pc == Returned(now, true) }

  function Logs(now: int): Entry -> bool { (e: Entry) => e == Granted(now) }

  lemma StepLogsGrant(cfg: Config, w: World, t: nat, stopped: bool, now: int)
    requires Possible(w, Step(t, stopped))
    ensures var (s', pc') := StepCall(cfg, w.shared, t, w.calls[t], stopped);
      Count(s'.log, Logs(now)) - Count(w.shared.log, Logs(now)) == if Took(now)(pc') then 1 else 0
  {
    var pc := w.calls[t];
    if pc.Finish? {
      CountOfAppend(w.shared.log, Logs(now), if pc.grant then Granted(pc.now) else Started(pc.now));
    }
  }

  lemma ActionLogsGrants(cfg: Config, w: World, a: Action, now: int)
    requires Possible(w, a) && Count(w.calls, Took(now)) == Count(w.shared.log, Logs(now))
    ensures var w' := Apply(cfg, w, a); Count(w'.calls, Took(now)) == Count(w'.shared.log, Logs(now))
  {
    match a
    case Step(t, stopped) =>
      StepLogsGrant(cfg, w, t, stopped, now);
      CountOfUpdate(w.calls, Took(now), t, StepCall(cfg, w.shared, t, w.calls[t], stopped).1);
    case Begin(pc) => CountOfAppend(w.calls, Took(now), pc);
    case Fire(v) => CountOfAppend(w.calls, Took(now), TestVersion(v));
  }

  /** As many checks of each timestamp have returned true as are logged. */
  lemma {:induction false} EveryGrantIsLogged(cfg: Config, run: seq<Action>, now: int)
    requires After(cfg, run).Some?
    ensures var w := After(cfg, run).value; Count(w.calls, Took(now)) == Count(w.shared.log, Logs(now))
    decreases |run|
  {
    if run != [] {
      EveryGrantIsLogged(cfg, run[..|run| - 1], now);
      ActionLogsGrants(cfg, After(cfg, run[..|run| - 1]).value, run[|run| - 1], now);
    }
  }

  /** The fast-fail flag is a sound optimisation: in every interleaving the checks that return true are those of the
      log, each of these is one that the window without flag and timers grants, in the order of the log, and with the
      lock free the window is where that order leaves it. */
  lemma {:induction false} FlagOnlyDenies(cfg: Config, run: seq<Action>)
    requires After(cfg, run).Some?
    ensures var w := After(cfg, run).value;
      && (forall now :: Count(w.calls, Took(now)) == Count(w.shared.log, Logs(now)))
      && Lawful(cfg, w.shared.log)
      && (w.shared.lock.None? ==> SameTimes(w.shared.win, Replay(cfg, w.shared.log)))
  {
    EveryRunKeepsInv(cfg, run);
    forall now
      ensures var w := After(cfg, run).value; Count(w.calls, Took(now)) == Count(w.shared.log, Logs(now))
    {
      EveryGrantIsLogged(cfg, run, now);
    }
  }

  /** And nothing else denies: a check is denied, at once, if it finds the flag up, and later exactly if the window
      without flag and timers, as the log leaves it, denies it. */
  lemma {:induction false} DenialsAreJustified(cfg: Config, run: seq<Action>, t: nat, stopped: bool)
    requires After(cfg, run).Some? && Possible(After(cfg, run).value, Step(t, stopped))
    ensures var w := After(cfg, run).value; var pc := w.calls[t];
      var (s', pc') := StepCall(cfg, w.shared, t, pc, stopped);
      && (pc.AskFlag? ==> (pc' == Returned(pc.now, false) <==> w.shared.win.fastFail))
      && (pc.AskTime? || pc.Recheck? ==>
            (pc' == Returned(pc.now, false) <==>
             !Check(Replay(cfg, w.shared.log).(fastFail := false), cfg, pc.now).1))
      && (pc.Recheck? && pc' != Returned(pc.now, false) ==> ToGrant(pc'))
      && (ToGrant(pc) ==> ToGrant(pc') || pc' == Returned(pc.now, true))
  {
    EveryRunKeepsInv(cfg, run);
    var w := After(cfg, run).value;
    assert HoldsLock(w.calls[t]) <==> w.shared.lock == Some(t);
  }

  /** The check holds the lock and will return true. */
  predicate ToGrant(pc: Pc) { pc.Counted? || ((pc.StopTimer? || InReset(pc) || pc.Finish?) && pc.grant) }

  /** The flag never wedges: unless a reset is half done, a raised flag has a callback of the current version armed or
      already running, also when a stale callback passed its version test before the newest reset. */
  lemma {:induction false} FlagIsAlwaysRescued(cfg: Config, run: seq<Action>)
    requires After(cfg, run).Some?
    ensures var w := After(cfg, run).value;
      w.shared.win.fastFail && w.shared.lock.None? ==> Rescued(w)
  {
    EveryRunKeepsInv(cfg, run);
  }

  /** Some callback lowers the flag in this step. */
  predicate Lowers(w: World, a: Action) { a.Step? && a.call < |w.calls| && w.calls[a.call].ClearFlag? }

  /** None does from position `start` on. */
  predicate StaysUp(cfg: Config, run: seq<Action>, start: nat)
    requires start <= |run| && After(cfg, run).Some?
    decreases |run|
  {
    |run| > start ==>
      var front := run[..|run| - 1];
      StaysUp(cfg, front, start) && !Lowers(After(cfg, front).value, run[|run| - 1])
  }

  /** Once a reset has raised the flag it stays up, and with it every check that comes is denied, until a callback
      lowers it. */
  lemma {:induction false} FlagStaysUp(cfg: Config, run: seq<Action>, start: nat)
    requires start < |run| && After(cfg, run).Some? && After(cfg, run[..start]).Some?
    requires var w := After(cfg, run[..start]).value;
      run[start].Step? && run[start].call < |w.calls| && w.calls[run[start].call].SetFlag?
    requires StaysUp(cfg, run, start + 1)
    ensures After(cfg, run).value.shared.win.fastFail
    decreases |run|
  {
    var front := run[..|run| - 1];
    if |run| == start + 1 {
      assert front == run[..start];
    } else {
      assert front[..start] == run[..start];
      FlagStaysUp(cfg, front, start);
    }
  }

  // ---- The probe rate, for checks that race ----

  /** The timestamps of the grants after the first n log entries. */
  function GrantedAfter(log: seq<Entry>, n: nat): seq<int>
    requires n <= |log|
    decreases |log|
  {
    if |log| == n then []
    else GrantedAfter(log[..|log| - 1], n) + match log[|log| - 1] case Granted(now) => [now] case Started(_) => []
  }

  predicate NoStartAfter(log: seq<Entry>, n: nat) { forall i :: n <= i < |log| ==> log[i].Granted? }

  lemma FiredCheck(w: Window, cfg: Config, now: int)
    ensures var (w', ok) := Check(w.(fastFail := false), cfg, now);
      && WindowAfter(w, cfg, [Fires(w.version), CheckAt(now)]) == w'
      && Grants(w, cfg, [Fires(w.version), CheckAt(now)]) == if ok then [now] else []
  {
    var more := [Fires(w.version), CheckAt(now)];
    assert more[1..] == [CheckAt(now)] && more[1..][1..] == [];
    assert WindowAfter(w, cfg, more) == WindowAfter(w.(fastFail := false), cfg, [CheckAt(now)]);
    var (w', ok) := Check(w.(fastFail := false), cfg, now);
    assert Grants(w, cfg, more) == Grants(w.(fastFail := false), cfg, [CheckAt(now)])
        == (if ok then [now] else []) + Grants(w', cfg, []);
  }

  /** The logged grants are those of a sequential run in which every timer has fired before the next check. */
  lemma {:induction false} LogIsARun(cfg: Config, log: seq<Entry>, n: nat) returns (run: seq<Event>)
    requires Lawful(cfg, log) && n <= |log| && NoStartAfter(log, n)
    ensures var w := Replay(cfg, log[..n]);
      SameTimes(WindowAfter(w, cfg, run), Replay(cfg, log)) && Grants(w, cfg, run) == GrantedAfter(log, n)
    decreases |log|
  {
    run := [];
    if |log| == n {
      assert log[..n] == log;
    } else {
      var front := log[..|log| - 1];
      assert front[..n] == log[..n];
      var before := LogIsARun(cfg, front, n);
      var w := WindowAfter(Replay(cfg, log[..n]), cfg, before);
      var more := [Fires(w.version), CheckAt(log[|log| - 1].now)];
      FiredCheck(w, cfg, log[|log| - 1].now);
      RunsJoin(Replay(cfg, log[..n]), cfg, before, more);
      run := before + more;
    }
  }

  /** Every window that Replay computes has a count of at least 0. */
  lemma {:induction false} ReplayCountsUp(cfg: Config, log: seq<Entry>)
    ensures Replay(cfg, log).allowed >= 0
    decreases |log|
  {
    if log != [] { ReplayCountsUp(cfg, log[..|log| - 1]); }
  }

  /** In every interleaving, as long as nobody calls SleepStart after the first n entries: of the later grants at most
      m * max(1, eventCountToAllow) carry a timestamp before the m-th window after the opening time of that moment. */
  lemma {:induction false} RacingProbeRateIsBounded(cfg: Config, run: seq<Action>, n: nat, m: nat)
    requires After(cfg, run).Some? && cfg.sleep >= 0
    requires n <= |After(cfg, run).value.shared.log| && NoStartAfter(After(cfg, run).value.shared.log, n)
    ensures var log := After(cfg, run).value.shared.log;
      CountBefore(GrantedAfter(log, n), Replay(cfg, log[..n]).nextOpen + m * cfg.sleep) <= m * PerWindow(cfg)
  {
    FlagOnlyDenies(cfg, run);
    var log := After(cfg, run).value.shared.log;
    var events := LogIsARun(cfg, log, n);
    ReplayCountsUp(cfg, log[..n]);
    ProbeRateIsBounded(Replay(cfg, log[..n]), cfg, events, m);
  }
}
