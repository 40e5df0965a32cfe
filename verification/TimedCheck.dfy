/** faststats/timedcheck.go with each method taken as one atomic step: the permit window, and how many permits it
    can hand out. The interleavings inside a method are the subject of TimedCheckRace. */
module TimedChecks {
  import opened Base

  /** sleepDuration and eventCountToAllow. */
  datatype Config = Config(sleep: int, allow: int)

  /** The fields of a TimedCheck, all but the timer handle. */
  datatype Window = Window(nextOpen: int, allowed: int, fastFail: bool, version: nat)

  /** The zero TimedCheck. */
  const Fresh := Window(0, 0, false, 0)

  function SleepStart(w: Window, sleep: int, now: int): Window {
    Window(now + sleep, 0, true, w.version + 1)
  }

  /** The timer callback that was armed for `version`. */
  function Callback(w: Window, version: nat): Window {
    if version == w.version then w.(fastFail := false) else w
  }

  function Check(w: Window, cfg: Config, now: int): (Window, bool) {
    if w.fastFail || now < w.nextOpen then
      (w, false)
    else if w.allowed + 1 >= cfg.allow then
      (SleepStart(w, cfg.sleep, now), true)
    else
      (w.(allowed := w.allowed + 1), true)
  }

  /** The class itself. `lastSetTimer` is the version that the armed timer's callback carries. */
  class TimedCheck {
    var sleepDuration: int
    var eventCountToAllow: int
    var isFastFail: bool
    var isFailFastVersion: nat
    var nextOpenTime: int
    var currentlyAllowedEventCount: int
    var lastSetTimer: Option<nat>

    function State(): Window
      reads this
    {
      Window(nextOpenTime, currentlyAllowedEventCount, isFastFail, isFailFastVersion)
    }

    function Cfg(): Config
      reads this
    {
      Config(sleepDuration, eventCountToAllow)
    }

    /** A true flag is never without a timer that will clear it. */
    predicate Valid()
      reads this
    {
      isFastFail ==> lastSetTimer == Some(isFailFastVersion)
    }

    constructor (cfg: Config)
      ensures State() == Fresh && Cfg() == cfg && Valid()
    {
      sleepDuration, eventCountToAllow := cfg.sleep, cfg.allow;
      isFastFail, isFailFastVersion, nextOpenTime, currentlyAllowedEventCount, lastSetTimer := false, 0, 0, 0, None;
    }

    method ResetOpenTimeWithLock(now: int)
      modifies this
      ensures State() == SleepStart(old(State()), sleepDuration, now) && Cfg() == old(Cfg())
      ensures lastSetTimer == Some(isFailFastVersion)
    {
      lastSetTimer := None;
      nextOpenTime := now + sleepDuration;
      currentlyAllowedEventCount := 0;
      isFastFail := true;
      isFailFastVersion := isFailFastVersion + 1;
      lastSetTimer := Some(isFailFastVersion);
    }

    method SleepFrom(now: int)
      modifies this
      ensures State() == SleepStart(old(State()), sleepDuration, now) && Cfg() == old(Cfg()) && Valid()
    {
      ResetOpenTimeWithLock(now);
    }

    method TimerFires(version: nat)
      requires Valid()
      modifies this
      ensures State() == Callback(old(State()), version) && Cfg() == old(Cfg()) && Valid()
    {
      if version == isFailFastVersion { isFastFail := false; }
    }

    method Ask(now: int) returns (ok: bool)
      requires Valid()
      modifies this
      ensures (State(), ok) == Check(old(State()), Cfg(), now) && Cfg() == old(Cfg()) && Valid()
    {
      if isFastFail { return false; }
      if nextOpenTime > now { return false; }
      currentlyAllowedEventCount := currentlyAllowedEventCount + 1;
      if currentlyAllowedEventCount >= eventCountToAllow {
        ResetOpenTimeWithLock(now);
      }
      return true;
    }
  }

  // ---- How many permits a window can hand out ----

  /** A call of Check, or a timer callback, stale or not. */
  datatype Event = CheckAt(now: int) | Fires(version: nat)

  /** The timestamps of the granted checks of a run, in order. */
  function Grants(w: Window, cfg: Config, run: seq<Event>): seq<int>
    decreases |run|
  {
    if run == [] then []
    else match run[0]
      case Fires(v) => Grants(Callback(w, v), cfg, run[1..])
      case CheckAt(now) =>
        var (w', ok) := Check(w, cfg, now);
        (if ok then [now] else []) + Grants(w', cfg, run[1..])
  }

  function CountBefore(times: seq<int>, bound: int): nat {
    if times == [] then 0 else (if times[0] < bound then 1 else 0) + CountBefore(times[1..], bound)
  }

  lemma CountBeforeOfCons(time: int, times: seq<int>, bound: int)
    ensures CountBefore([time] + times, bound) == (if time < bound then 1 else 0) + CountBefore(times, bound)
  {
    assert ([time] + times)[1..] == times;
  }

  /** Permits that one window hands out. */
  function PerWindow(cfg: Config): nat { Max(1, cfg.allow) }

  lemma {:induction false} GrantsLeft(w: Window, cfg: Config, run: seq<Event>, m: nat, bound: int)
    requires cfg.sleep >= 0 && w.allowed >= 0 && bound <= w.nextOpen + m * cfg.sleep
    ensures CountBefore(Grants(w, cfg, run), bound) <=
      if m == 0 then 0 else m * PerWindow(cfg) - Min(w.allowed, PerWindow(cfg) - 1)
    decreases |run|
  {
    if run == [] {
      if m > 0 { assert m * PerWindow(cfg) >= PerWindow(cfg) by { MulAtLeast(m, PerWindow(cfg)); } }
    } else {
      match run[0]
      case Fires(v) => GrantsLeft(Callback(w, v), cfg, run[1..], m, bound);
      case CheckAt(now) =>
        var (w', ok) := Check(w, cfg, now);
        if !ok {
          assert Grants(w, cfg, run) == Grants(w', cfg, run[1..]);
          GrantsLeft(w', cfg, run[1..], m, bound);
        } else {
          CountBeforeOfCons(now, Grants(w', cfg, run[1..]), bound);
          if w.allowed + 1 < cfg.allow || m == 0 {
            if m == 0 { assert bound <= w'.nextOpen + 0 * cfg.sleep; }
            GrantsLeft(w', cfg, run[1..], m, bound);
          } else {
            assert m * cfg.sleep == (m - 1) * cfg.sleep + cfg.sleep;
            assert m * PerWindow(cfg) == (m - 1) * PerWindow(cfg) + PerWindow(cfg);
            GrantsLeft(w', cfg, run[1..], m - 1, bound);
          }
        }
    }
  }

  lemma MulAtLeast(m: int, k: nat)
    requires m >= 1
    ensures m * k >= k
  {}

  /** The probe rate. Over any run of checks with timestamps in any order, and timer callbacks of any version, at most
      m * max(1, eventCountToAllow) grants carry a timestamp before the m-th window after nextOpenTime. */
  lemma {:induction false} ProbeRateIsBounded(w: Window, cfg: Config, run: seq<Event>, m: nat)
    requires cfg.sleep >= 0 && w.allowed >= 0
    ensures CountBefore(Grants(w, cfg, run), w.nextOpen + m * cfg.sleep) <= m * PerWindow(cfg)
  {
    GrantsLeft(w, cfg, run, m, w.nextOpen + m * cfg.sleep);
  }

  /** No grant carries a timestamp before nextOpenTime. */
  lemma {:induction false} NothingBeforeTheWindow(w: Window, cfg: Config, run: seq<Event>, i: nat)
    requires cfg.sleep >= 0 && w.allowed >= 0 && i < |Grants(w, cfg, run)|
    ensures Grants(w, cfg, run)[i] >= w.nextOpen
    decreases |run|
  {
    match run[0]
    case Fires(v) => NothingBeforeTheWindow(Callback(w, v), cfg, run[1..], i);
    case CheckAt(now) =>
      var (w', ok) := Check(w, cfg, now);
      if !ok { NothingBeforeTheWindow(w', cfg, run[1..], i); }
      else if i > 0 { NothingBeforeTheWindow(w', cfg, run[1..], i - 1); }
  }

  // ---- How many permits a window does hand out ----

  function WindowAfter(w: Window, cfg: Config, run: seq<Event>): Window
    decreases |run|
  {
    if run == [] then w
    else match run[0]
      case Fires(v) => WindowAfter(Callback(w, v), cfg, run[1..])
      case CheckAt(now) => WindowAfter(Check(w, cfg, now).0, cfg, run[1..])
  }

  function Checks(times: seq<int>): seq<Event> {
    if times == [] then [] else [CheckAt(times[0])] + Checks(times[1..])
  }

  predicate NotBefore(times: seq<int>, bound: int) { forall i :: 0 <= i < |times| ==> times[i] >= bound }

  /** A window that is open and whose flag is down grants every check with a timestamp at or after nextOpenTime, as long
      as permits are left (and at least one), and stays where it is. */
  lemma {:induction false} PermitsAreHandedOut(w: Window, cfg: Config, times: seq<int>)
    requires !w.fastFail && NotBefore(times, w.nextOpen) && (w.allowed + |times| < cfg.allow || times == [])
    ensures Grants(w, cfg, Checks(times)) == times
    ensures WindowAfter(w, cfg, Checks(times)) == w.(allowed := w.allowed + |times|)
    decreases |times|
  {
    if times != [] {
      var w' := w.(allowed := w.allowed + 1);
      assert Checks(times)[1..] == Checks(times[1..]);
      PermitsAreHandedOut(w', cfg, times[1..]);
    }
  }

  lemma {:induction false} RunsJoin(w: Window, cfg: Config, run: seq<Event>, more: seq<Event>)
    ensures WindowAfter(w, cfg, run + more) == WindowAfter(WindowAfter(w, cfg, run), cfg, more)
    ensures Grants(w, cfg, run + more) == Grants(w, cfg, run) + Grants(WindowAfter(w, cfg, run), cfg, more)
    decreases |run|
  {
    if run == [] {
      assert run + more == more;
    } else {
      assert (run + more)[1..] == run[1..] + more;
      match run[0]
      case Fires(v) => RunsJoin(Callback(w, v), cfg, run[1..], more);
      case CheckAt(now) => RunsJoin(Check(w, cfg, now).0, cfg, run[1..], more);
    }
  }

  lemma {:induction false} ChecksOfAppend(times: seq<int>, time: int)
    ensures Checks(times + [time]) == Checks(times) + [CheckAt(time)]
  {
    if times != [] {
      assert (times + [time])[1..] == times[1..] + [time];
      ChecksOfAppend(times[1..], time);
    }
  }

  /** All permits of a window: what is left of max(1, eventCountToAllow), and at least one, is granted, whatever the
      order of the timestamps at or after nextOpenTime. The last of these checks, and none before, starts the next
      window, at its own timestamp, with the flag up and a new version. */
  lemma {:induction false} AllPermitsAreHandedOut(w: Window, cfg: Config, times: seq<int>)
    requires !w.fastFail && NotBefore(times, w.nextOpen) && |times| == Max(1, cfg.allow - w.allowed)
    ensures Grants(w, cfg, Checks(times)) == times
    ensures forall k :: 0 <= k < |times| ==> WindowAfter(w, cfg, Checks(times[..k])).nextOpen == w.nextOpen
    ensures WindowAfter(w, cfg, Checks(times)) == Window(times[|times| - 1] + cfg.sleep, 0, true, w.version + 1)
  {
    var n := |times| - 1;
    forall k | 0 <= k < |times|
      ensures Grants(w, cfg, Checks(times[..k])) == times[..k]
      ensures WindowAfter(w, cfg, Checks(times[..k])) == w.(allowed := w.allowed + k)
    {
      PermitsAreHandedOut(w, cfg, times[..k]);
    }
    assert times == times[..n] + [times[n]];
    ChecksOfAppend(times[..n], times[n]);
    RunsJoin(w, cfg, Checks(times[..n]), [CheckAt(times[n])]);
    var last := w.(allowed := w.allowed + n);
    LastPermit(last, cfg, times[n]);
  }

  lemma LastPermit(w: Window, cfg: Config, now: int)
    requires !w.fastFail && now >= w.nextOpen && w.allowed + 1 >= cfg.allow
    ensures Grants(w, cfg, [CheckAt(now)]) == [now]
    ensures WindowAfter(w, cfg, [CheckAt(now)]) == Window(now + cfg.sleep, 0, true, w.version + 1)
  {
    var w' := Window(now + cfg.sleep, 0, true, w.version + 1);
    var none: seq<Event> := [];
    assert [CheckAt(now)][1..] == none;
    assert Grants(w', cfg, none) == [] && WindowAfter(w', cfg, none) == w';
  }

  /** A raised flag denies everything, whatever the timestamps, until the timer of its version fires. */
  lemma {:induction false} NothingBeforeTheTimer(w: Window, cfg: Config, run: seq<Event>)
    requires w.fastFail && Fires(w.version) !in run
    ensures Grants(w, cfg, run) == [] && WindowAfter(w, cfg, run) == w
    decreases |run|
  {
    if run != [] {
      assert run[0] in run && forall e :: e in run[1..] ==> e in run;
      NothingBeforeTheTimer(w, cfg, run[1..]);
    }
  }

  /** So the window that SleepStart begins grants nothing until its timer fires, and max(1, eventCountToAllow) checks at
      or after its end once it has. */
  lemma {:induction false} EachWindowGrantsItsPermits(w: Window, cfg: Config, now: int, run: seq<Event>,
                                                      times: seq<int>)
    requires cfg.sleep >= 0 && Fires(w.version + 1) !in run
    requires NotBefore(times, now + cfg.sleep) && |times| == PerWindow(cfg)
    ensures
      var v := SleepStart(w, cfg.sleep, now);
      var fired := WindowAfter(v, cfg, run + [Fires(v.version)]);
      && Grants(v, cfg, run + [Fires(v.version)]) == []
      && Grants(fired, cfg, Checks(times)) == times
      && WindowAfter(fired, cfg, Checks(times)).nextOpen == times[|times| - 1] + cfg.sleep
  {
    var v := SleepStart(w, cfg.sleep, now);
    NothingBeforeTheTimer(v, cfg, run);
    FiredAfter(v, cfg, run, v.version);
    AllPermitsAreHandedOut(v.(fastFail := false), cfg, times);
  }

  lemma FiredAfter(w: Window, cfg: Config, run: seq<Event>, version: nat)
    ensures WindowAfter(w, cfg, run + [Fires(version)]) == Callback(WindowAfter(w, cfg, run), version)
    ensures Grants(w, cfg, run + [Fires(version)]) == Grants(w, cfg, run)
  {
    var v := WindowAfter(w, cfg, run);
    var none: seq<Event> := [];
    RunsJoin(w, cfg, run, [Fires(version)]);
    assert [Fires(version)][1..] == none;
    assert WindowAfter(Callback(v, version), cfg, none) == Callback(v, version);
    assert Grants(Callback(v, version), cfg, none) == [];
  }
}
