/** closers/hystrix/closer.go with each method taken as one atomic step. */
module HystrixCloser {
  import opened Base
  import TimedChecks

  /** SleepWindow, HalfOpenAttempts and RequiredConcurrentSuccessful. */
  datatype Config = Config(sleepWindow: int, halfOpenAttempts: int, required: int) {
    function Checks(): TimedChecks.Config { TimedChecks.Config(sleepWindow, halfOpenAttempts) }
  }

  datatype State = State(window: TimedChecks.Window, openedAt: Option<int>, closedAt: Option<int>, successes: int)

  /** A Closer that has not been told anything yet. */
  const Fresh := State(TimedChecks.Fresh, None, None, 0)

  function Opened(s: State, cfg: Config, now: int): State {
    State(TimedChecks.SleepStart(s.window, cfg.sleepWindow, now), Some(now), s.closedAt, 0)
  }

  function Closed(s: State, now: int): State {
    State(s.window, None, Some(now), 0)
  }

  /** Allow is about to arm the sleep window itself: nobody told it about an open circuit or a recent close. */
  predicate SelfArms(s: State, cfg: Config, now: int) {
    s.openedAt.None? && !(s.closedAt.Some? && now - s.closedAt.value < cfg.sleepWindow)
  }

  function Allow(s: State, cfg: Config, now: int): (State, bool) {
    if SelfArms(s, cfg, now) then
      (State(TimedChecks.SleepStart(s.window, cfg.sleepWindow, now), Some(now), s.closedAt, 0), false)
    else if s.openedAt.None? then
      (s, false)
    else
      var (window, ok) := TimedChecks.Check(s.window, cfg.Checks(), now);
      (s.(window := window), ok)
  }

  predicate StartedWhileOpen(s: State, now: int, duration: int) {
    s.openedAt.Some? && now - duration > s.openedAt.value
  }

  function Success(s: State, now: int, duration: int): State {
    if StartedWhileOpen(s, now, duration) then s.(successes := s.successes + 1) else s
  }

  /** ErrFailure and ErrTimeout. */
  function Failure(s: State, now: int, duration: int): State {
    if StartedWhileOpen(s, now, duration) then s.(successes := 0) else s
  }

  predicate ShouldClose(s: State, cfg: Config) {
    s.successes >= cfg.required
  }

  /** The class itself. Times are clock readings; a nil pointer is None. */
  class HalfOpenCloser {
    const reopenCircuitCheck: TimedChecks.TimedCheck
    var concurrentSuccessfulAttempts: int
    var closeOnCurrentCount: int
    var openedAt: Option<int>
    var closedAt: Option<int>
    var sleepWindow: int

    function Value(): State
      reads this, reopenCircuitCheck
    {
      State(reopenCircuitCheck.State(), openedAt, closedAt, concurrentSuccessfulAttempts)
    }

    function Cfg(): Config
      reads this, reopenCircuitCheck
    {
      Config(sleepWindow, reopenCircuitCheck.eventCountToAllow, closeOnCurrentCount)
    }

    ghost predicate Valid()
      reads this, reopenCircuitCheck
    {
      reopenCircuitCheck.Valid() && reopenCircuitCheck.sleepDuration == sleepWindow
    }

    constructor (cfg: Config)
      ensures Valid() && Value() == Fresh && Cfg() == cfg && fresh(reopenCircuitCheck)
    {
      reopenCircuitCheck := new TimedChecks.TimedCheck(cfg.Checks());
      concurrentSuccessfulAttempts, openedAt, closedAt := 0, None, None;
      sleepWindow, closeOnCurrentCount := cfg.sleepWindow, cfg.required;
    }

    /** SetConfigThreadSafe. */
    method Configure(cfg: Config)
      requires Valid()
      modifies this, reopenCircuitCheck
      ensures Valid() && Value() == old(Value()) && Cfg() == cfg
    {
      reopenCircuitCheck.sleepDuration := cfg.sleepWindow;
      sleepWindow := cfg.sleepWindow;
      reopenCircuitCheck.eventCountToAllow := cfg.halfOpenAttempts;
      closeOnCurrentCount := cfg.required;
    }

    method Arm(now: int, force: bool)
      requires Valid()
      modifies this, reopenCircuitCheck
      ensures Valid() && Cfg() == old(Cfg())
      ensures Value() == if force then Opened(old(Value()), Cfg(), now)
                         else var was := old(openedAt);
                              Opened(old(Value()), Cfg(), now).(openedAt := if was.None? then Some(now) else was)
    {
      reopenCircuitCheck.SleepFrom(now);
      if force || openedAt.None? {
        openedAt := Some(now);
      }
      concurrentSuccessfulAttempts := 0;
    }

    method OnOpened(now: int)
      requires Valid()
      modifies this, reopenCircuitCheck
      ensures Valid() && Cfg() == old(Cfg()) && Value() == Opened(old(Value()), Cfg(), now)
    {
      Arm(now, true);
    }

    method OnClosed(now: int)
      requires Valid()
      modifies this
      ensures Valid() && Cfg() == old(Cfg()) && Value() == Closed(old(Value()), now)
    {
      closedAt := Some(now);
      openedAt := None;
      concurrentSuccessfulAttempts := 0;
    }

    method Ask(now: int) returns (ok: bool)
      requires Valid()
      modifies this, reopenCircuitCheck
      ensures Valid() && Cfg() == old(Cfg()) && (Value(), ok) == Allow(old(Value()), Cfg(), now)
    {
      if openedAt.None? {
        if closedAt.Some? && now - closedAt.value < sleepWindow { return false; }
        Arm(now, false);
        return false;
      }
      ok := reopenCircuitCheck.Ask(now);
    }

    method OnSuccess(now: int, duration: int)
      requires Valid()
      modifies this
      ensures Valid() && Cfg() == old(Cfg()) && Value() == Success(old(Value()), now, duration)
    {
      if openedAt.Some? && now - duration > openedAt.value {
        concurrentSuccessfulAttempts := concurrentSuccessfulAttempts + 1;
      }
    }

    /** ErrFailure and ErrTimeout. */
    method OnError(now: int, duration: int)
      requires Valid()
      modifies this
      ensures Valid() && Cfg() == old(Cfg()) && Value() == Failure(old(Value()), now, duration)
    {
      if openedAt.Some? && now - duration > openedAt.value {
        concurrentSuccessfulAttempts := 0;
      }
    }

    method AskClose() returns (close: bool)
      requires Valid()
      ensures close == ShouldClose(Value(), Cfg())
    {
      close := concurrentSuccessfulAttempts >= closeOnCurrentCount;
    }
  }

  // ---- The probes of one open episode ----

  /** What can reach an armed closer before it is told Closed. */
  datatype Event =
    AskAt(now: int) | GoodAt(now: int, duration: int) | BadAt(now: int, duration: int) | Fires(version: nat)

  function Next(s: State, cfg: Config, e: Event): State {
    match e
    case AskAt(now) => Allow(s, cfg, now).0
    case GoodAt(now, duration) => Success(s, now, duration)
    case BadAt(now, duration) => Failure(s, now, duration)
    case Fires(v) => s.(window := TimedChecks.Callback(s.window, v))
  }

  /** The start times of the requests that Allow grants. */
  function Grants(s: State, cfg: Config, run: seq<Event>): seq<int>
    decreases |run|
  {
    if run == [] then []
    else
      (if run[0].AskAt? && Allow(s, cfg, run[0].now).1 then [run[0].now] else []) +
      Grants(Next(s, cfg, run[0]), cfg, run[1..])
  }

  /** An armed closer grants exactly what its sleep window grants. */
  lemma {:induction false} ArmedGrants(s: State, cfg: Config, run: seq<Event>) returns (checks: seq<TimedChecks.Event>)
    requires s.openedAt.Some?
    ensures Grants(s, cfg, run) == TimedChecks.Grants(s.window, cfg.Checks(), checks)
    decreases |run|
  {
    if run == [] {
      checks := [];
    } else {
      var rest := ArmedGrants(Next(s, cfg, run[0]), cfg, run[1..]);
      match run[0]
      case AskAt(now) => checks := [TimedChecks.CheckAt(now)] + rest; assert checks[1..] == rest;
      case Fires(v) => checks := [TimedChecks.Fires(v)] + rest; assert checks[1..] == rest;
      case _ => checks := rest;
    }
  }

  /** After Opened(now), until Closed: no request that started before now + SleepWindow is granted, and before the m-th
      sleep window after that at most m * max(1, HalfOpenAttempts) are, whatever else the closer is told and however
      old the requests are that ask. */
  lemma {:induction false} EpisodeProbeRate(s: State, cfg: Config, now: int, run: seq<Event>, m: nat)
    requires cfg.sleepWindow >= 0
    ensures var grants := Grants(Opened(s, cfg, now), cfg, run);
      && (forall i :: 0 <= i < |grants| ==> grants[i] >= now + cfg.sleepWindow)
      && TimedChecks.CountBefore(grants, now + cfg.sleepWindow + m * cfg.sleepWindow)
           <= m * Max(1, cfg.halfOpenAttempts)
  {
    var armed := Opened(s, cfg, now);
    var checks := ArmedGrants(armed, cfg, run);
    TimedChecks.ProbeRateIsBounded(armed.window, cfg.Checks(), checks, m);
    forall i | 0 <= i < |Grants(armed, cfg, run)|
      ensures Grants(armed, cfg, run)[i] >= now + cfg.sleepWindow
    {
      TimedChecks.NothingBeforeTheWindow(armed.window, cfg.Checks(), checks, i);
    }
  }

  // ---- The probes that are granted ----

  function StateAfter(s: State, cfg: Config, run: seq<Event>): State
    decreases |run|
  {
    if run == [] then s else StateAfter(Next(s, cfg, run[0]), cfg, run[1..])
  }

  function Asks(times: seq<int>): seq<Event> { if times == [] then [] else [AskAt(times[0])] + Asks(times[1..]) }

  /** An armed closer that is asked shows its window, and nothing else of it changes. */
  lemma {:induction false} AskedWindow(s: State, cfg: Config, times: seq<int>)
    requires s.openedAt.Some?
    ensures Grants(s, cfg, Asks(times)) == TimedChecks.Grants(s.window, cfg.Checks(), TimedChecks.Checks(times))
    ensures StateAfter(s, cfg, Asks(times)) ==
      s.(window := TimedChecks.WindowAfter(s.window, cfg.Checks(), TimedChecks.Checks(times)))
    decreases |times|
  {
    if times != [] {
      assert Asks(times)[1..] == Asks(times[1..]);
      assert TimedChecks.Checks(times)[1..] == TimedChecks.Checks(times[1..]);
      AskedWindow(Allow(s, cfg, times[0]).0, cfg, times[1..]);
    }
  }

  /** Once its timer has fired, an armed closer grants max(1, HalfOpenAttempts) requests that start at or after the end
      of its sleep window, and the last of them starts the next one: a SleepWindow after itself. */
  lemma {:induction false} EachWindowGrantsItsProbes(s: State, cfg: Config, times: seq<int>)
    requires s.openedAt.Some? && s.window.allowed == 0 && |times| == Max(1, cfg.halfOpenAttempts)
    requires TimedChecks.NotBefore(times, s.window.nextOpen)
    ensures
      var fired := Next(s, cfg, Fires(s.window.version));
      var s' := StateAfter(fired, cfg, Asks(times));
      && Grants(fired, cfg, Asks(times)) == times
      && s' == s.(window := s'.window) && s'.window.allowed == 0 && s'.window.fastFail
      && s'.window.nextOpen == times[|times| - 1] + cfg.sleepWindow && s'.window.version == s.window.version + 1
  {
    var fired := Next(s, cfg, Fires(s.window.version));
    AskedWindow(fired, cfg, times);
    TimedChecks.AllPermitsAreHandedOut(fired.window, cfg.Checks(), times);
  }

  /** Opened starts such a window. */
  lemma {:induction false} EpisodeGrantsItsProbes(s: State, cfg: Config, now: int, times: seq<int>)
    requires TimedChecks.NotBefore(times, now + cfg.sleepWindow) && |times| == Max(1, cfg.halfOpenAttempts)
    ensures
      var armed := Opened(s, cfg, now);
      && armed.openedAt == Some(now) && armed.successes == 0
      && Grants(Next(armed, cfg, Fires(armed.window.version)), cfg, Asks(times)) == times
  {
    EachWindowGrantsItsProbes(Opened(s, cfg, now), cfg, times);
  }

  /** A closer that nobody tells anything heals itself: asked a sleep window after the last close, or any time if there
      was none, it denies and arms itself; and once that timer has fired it grants a request that starts a sleep window
      later. Before that it denies and leaves itself alone. */
  lemma UntoldCloserHeals(s: State, cfg: Config, now: int, later: int)
    requires s.openedAt.None? && later >= now + cfg.sleepWindow
    ensures
      var (armed, ok) := Allow(s, cfg, now);
      && !ok
      && if s.closedAt.Some? && now < s.closedAt.value + cfg.sleepWindow then armed == s
         else
           && armed.openedAt == Some(now) && armed.successes == 0 && armed.window.nextOpen == now + cfg.sleepWindow
           && Allow(Next(armed, cfg, Fires(armed.window.version)), cfg, later).1
  {}
}
