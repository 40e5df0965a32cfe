/** Recovery of an open circuit in CircuitProtocol: successful probes, run one after another, close it. */
module Recovery {
  import opened Base
  import opened CircuitProtocol
  import Closer = HystrixCloser
  import Delivery = CircuitDelivery
  import HalfOpen = CircuitHalfOpen
  import Closing = CircuitClosing
  import Limit = CircuitLimit

  /** No manual transition and no change of the overrides: time passes, timers fire, and requests arrive and proceed. */
  predicate Calm(a: Action) { a.Tick? || a.TimerFires? || a.Step? || a == Begin(Gating(Arrive)) }

  predicate Undisturbed(run: seq<Action>) { forall i :: 0 <= i < |run| ==> Calm(run[i]) }

  predicate LeadsBy(cfg: Settings, w: World, run: seq<Action>, w': World) {
    Undisturbed(run) && After(cfg, w, run) == Some(w')
  }

  /** Some undisturbed run leads from w to w'. */
  ghost predicate Leads(cfg: Settings, w: World, w': World) { exists run :: LeadsBy(cfg, w, run, w') }

  lemma LeadsNowhere(cfg: Settings, w: World)
    ensures Leads(cfg, w, w)
  {
    assert LeadsBy(cfg, w, [], w);
  }

  lemma LeadsOn(cfg: Settings, w: World, v: World, a: Action)
    requires Leads(cfg, w, v) && Possible(cfg, v, a) && Calm(a)
    ensures Leads(cfg, w, Apply(cfg, v, a))
  {
    var run :| LeadsBy(cfg, w, run, v);
    assert (run + [a])[..|run|] == run;
    assert LeadsBy(cfg, w, run + [a], Apply(cfg, v, a));
  }

  lemma {:induction false} AfterJoins(cfg: Settings, w: World, v: World, run: seq<Action>, more: seq<Action>)
    requires After(cfg, w, run) == Some(v)
    ensures After(cfg, w, run + more) == After(cfg, v, more)
    decreases |more|
  {
    if more == [] {
      assert run + more == run;
    } else {
      AfterJoins(cfg, w, v, run, more[..|more| - 1]);
      assert (run + more)[..|run + more| - 1] == run + more[..|more| - 1];
    }
  }

  lemma LeadsJoins(cfg: Settings, w: World, v: World, u: World)
    requires Leads(cfg, w, v) && Leads(cfg, v, u)
    ensures Leads(cfg, w, u)
  {
    var run :| LeadsBy(cfg, w, run, v);
    var more :| LeadsBy(cfg, v, more, u);
    AfterJoins(cfg, w, v, run, more);
    assert LeadsBy(cfg, w, run + more, u);
  }

  /** The opener does not prevent, no fallback is given, and runFunc succeeds. */
  const Well := Choice(false, Succeeded)

  /** Listeners return normally. */
  const Heard := Choice(true, Succeeded)

  /** Call `t` of w has come to (s, c). */
  ghost predicate Comes(cfg: Settings, w: World, t: nat, s: Shared, c: Call) {
    t < |w.calls| && Leads(cfg, w, World(s, w.calls[t := c]))
  }

  lemma Hop(cfg: Settings, w: World, t: nat, s: Shared, c: Call, x: Choice, s': Shared, c': Call)
    requires Comes(cfg, w, t, s, c) && Enabled(s, c) && StepCall(cfg, s, t, c, x) == (s', c')
    ensures Comes(cfg, w, t, s', c')
  {
    var v := World(s, w.calls[t := c]);
    LeadsOn(cfg, w, v, Step(t, x));
    assert w.calls[t := c][t := c'] == w.calls[t := c'];
  }

  /** A circuit at rest and not overridden. */
  predicate AtRest(w: World) {
    && Delivery.Idle(w) && w.shared.lock.None? && !w.shared.delivering && w.shared.pending == []
    && w.shared.commands == 0 && !w.shared.forceOpen && !w.shared.forcedClosed
  }

  /** It is open, and its closer was armed for a sleep window. */
  predicate Waiting(cfg: Settings, w: World) {
    && AtRest(w) && w.shared.isOpen && w.shared.closer.openedAt.Some?
    && w.shared.closer.window.nextOpen >= w.shared.closer.openedAt.value + cfg.closer.sleepWindow
  }

  /** The wait reaches the end of the sleep window, the timer is due, and the clock has moved since it opened. */
  predicate LongEnough(cfg: Settings, s: Shared, wait: nat)
    requires s.closer.openedAt.Some?
  {
    var start := s.clock + wait;
    && start >= s.closer.window.nextOpen && start > s.closer.openedAt.value
    && start >= s.armedAt + cfg.closer.sleepWindow
  }

  /** What Allow does with a probe that starts now. */
  function Granted(cfg: Settings, s: Shared): Shared {
    var closer := Closer.Allow(s.closer, cfg.closer, s.clock).0;
    s.(closer := closer, armedAt := ArmedAt(s, closer))
  }

  /** The timer that is due lowers the flag. */
  lemma TimerLowersFlag(cfg: Settings, w: World, v: World)
    requires Leads(cfg, w, v) && v.shared.clock >= v.shared.armedAt + cfg.closer.sleepWindow
    ensures Leads(cfg, w, World(v.shared.(closer := Fired(v.shared.closer)), v.calls))
  {
    var fire := TimerFires(v.shared.closer.window.version);
    LeadsOn(cfg, w, v, fire);
    assert Apply(cfg, v, fire) == World(v.shared.(closer := Fired(v.shared.closer)), v.calls);
  }

  lemma ClockMoves(cfg: Settings, w: World, v: World, elapsed: nat)
    requires Leads(cfg, w, v)
    ensures Leads(cfg, w, World(v.shared.(clock := v.shared.clock + elapsed), v.calls))
  {
    LeadsOn(cfg, w, v, Tick(elapsed));
  }

  lemma RequestArrives(cfg: Settings, w: World, v: World)
    requires Leads(cfg, w, v)
    ensures Leads(cfg, w, World(v.shared, v.calls + [Call(Gating(Arrive), false)]))
  {
    LeadsOn(cfg, w, v, Begin(Gating(Arrive)));
  }

  lemma TimerFiresInTime(cfg: Settings, w: World, s: Shared, wait: nat)
    requires w.shared.closer.openedAt.Some? && LongEnough(cfg, w.shared, wait)
    requires s == w.shared.(clock := w.shared.clock + wait)
    ensures Leads(cfg, w, World(s.(closer := Fired(s.closer)), w.calls))
  {
    LeadsNowhere(cfg, w);
    ClockMoves(cfg, w, w, wait);
    TimerLowersFlag(cfg, w, World(s, w.calls));
  }

  lemma WaitedIsFired(s: Shared, s': Shared, wait: nat)
    requires s' == s.(clock := s.clock + wait)
    ensures Waited(s, wait) == s'.(closer := Fired(s'.closer))
  {}

  /** After the wait the timer fires and a request arrives. */
  lemma ProbeArrives(cfg: Settings, w: World, wait: nat)
    requires w.shared.closer.openedAt.Some? && LongEnough(cfg, w.shared, wait)
    ensures Leads(cfg, w, Arrived(w, wait))
  {
    var s := w.shared.(clock := w.shared.clock + wait);
    TimerFiresInTime(cfg, w, s, wait);
    WaitedIsFired(w.shared, s, wait);
    RequestArrives(cfg, w, World(Waited(w.shared, wait), w.calls));
  }

  /** The gates let the probe through and its runFunc succeeds. */
  lemma ProbeRuns(cfg: Settings, w: World, t: nat)
    requires t < |w.calls| && w.calls[t] == Call(Gating(Arrive), false) && cfg.maxCommands != 0
    requires var s := w.shared;
      && s.isOpen && !s.forceOpen && !s.forcedClosed && s.commands == 0 && s.closer.openedAt.Some?
      && !s.closer.window.fastFail && s.clock >= s.closer.window.nextOpen
    ensures
      var s := w.shared;
      var adm := Admission(ByGrant(s.closer.openedAt.value), |s.hist.flips|);
      Comes(cfg, w, t, Granted(cfg, s).(commands := 1),
            Call(Running(Returned(s.clock, adm, Succeeded)), true))
  {
    var s := w.shared;
    var start := s.clock;
    var c := w.calls[t];
    var adm := Admission(ByGrant(s.closer.openedAt.value), |s.hist.flips|);
    LeadsNowhere(cfg, w);
    assert w == World(s, w.calls[t := c]);
    Hop(cfg, w, t, s, c, Well, s, GoTo(c, Gating(AskForceOpen(start))));
    Hop(cfg, w, t, s, GoTo(c, Gating(AskForceOpen(start))), Well, s, GoTo(c, Gating(AskForcedClosed(start))));
    Hop(cfg, w, t, s, GoTo(c, Gating(AskForcedClosed(start))), Well, s, GoTo(c, Gating(AskIsOpen(start))));
    Hop(cfg, w, t, s, GoTo(c, Gating(AskIsOpen(start))), Well, s, GoTo(c, Gating(AskLimit(start, |s.hist.flips|))));
    Hop(cfg, w, t, s, GoTo(c, Gating(AskLimit(start, |s.hist.flips|))), Well,
        s, GoTo(c, Gating(AskCloser(start, |s.hist.flips|))));
    var s1 := Granted(cfg, s);
    assert s.hist.results + [] == s.hist.results;
    Hop(cfg, w, t, s, GoTo(c, Gating(AskCloser(start, |s.hist.flips|))), Well,
        s1, GoTo(c, Gating(AskOpener(start, adm))));
    Hop(cfg, w, t, s1, GoTo(c, Gating(AskOpener(start, adm))), Well, s1, GoTo(c, Gating(Acquire(start, adm))));
    ProbeIsCalled(cfg, w, t, s1, start, adm);
  }

  lemma ProbeIsCalled(cfg: Settings, w: World, t: nat, s: Shared, start: int, adm: Admission)
    requires Comes(cfg, w, t, s, Call(Gating(Acquire(start, adm)), false)) && s.commands == 0 && cfg.maxCommands != 0
    ensures Comes(cfg, w, t, s.(commands := 1), Call(Running(Returned(start, adm, Succeeded)), true))
  {
    var s1 := s.(commands := 1);
    Hop(cfg, w, t, s, Call(Gating(Acquire(start, adm)), false), Well, s1, Call(Gating(Acquired(start, adm, 1)), true));
    Hop(cfg, w, t, s1, Call(Gating(Acquired(start, adm, 1)), true), Well, s1, Call(Running(InFunc(start, adm)), true));
    Hop(cfg, w, t, s1, Call(Running(InFunc(start, adm)), true), Well,
        s1, Call(Running(Returned(start, adm, Succeeded)), true));
  }

  /** Time passes while runFunc runs. */
  lemma TimePasses(cfg: Settings, w: World, t: nat, s: Shared, c: Call, elapsed: nat)
    requires Comes(cfg, w, t, s, c)
    ensures Comes(cfg, w, t, s.(clock := s.clock + elapsed), c)
  {
    LeadsOn(cfg, w, World(s, w.calls[t := c]), Tick(elapsed));
  }

  /** The closer has counted the probe of call t that started at `start`. */
  function Tallied(s: Shared, t: nat, start: int, adm: Admission): Shared {
    s.(closer := s.closer.(successes := s.closer.successes + 1),
       hist := s.hist.(results := s.hist.results + [Good(t, start, adm)]))
  }

  lemma ProbeReports(cfg: Settings, w: World, t: nat, s: Shared, start: int, adm: Admission)
    requires Comes(cfg, w, t, s, Call(Running(Returned(start, adm, Succeeded)), true))
    requires s.isOpen && !s.forceOpen && s.closer.openedAt.Some? && start > s.closer.openedAt.value
    ensures Comes(cfg, w, t, Tallied(s, t, start, adm), Call(Judging(PreShouldClose(s.clock)), true))
  {
    var done := s.clock;
    var s1 := Tallied(s, t, start, adm);
    Hop(cfg, w, t, s, Call(Running(Returned(start, adm, Succeeded)), true), Well,
        s, Call(Running(Report(start, done, adm, Succeeded)), true));
    Hop(cfg, w, t, s, Call(Running(Report(start, done, adm, Succeeded)), true), Heard,
        s1, Call(Judging(SuccessIsOpen(done)), true));
    Hop(cfg, w, t, s1, Call(Judging(SuccessIsOpen(done)), true), Well, s1, Call(Judging(SuccessForceOpen(done)), true));
    Hop(cfg, w, t, s1, Call(Judging(SuccessForceOpen(done)), true), Well,
        s1, Call(Judging(PreShouldClose(done)), true));
  }

  /** run returns nil to a caller without a fallback. */
  lemma CallEnds(cfg: Settings, w: World, t: nat, s: Shared)
    requires Comes(cfg, w, t, s, Call(Ending(Release), true))
    ensures Comes(cfg, w, t, s.(commands := s.commands - 1), Call(Done, false))
  {
    Hop(cfg, w, t, s, Call(Ending(Release), true), Well,
        s.(commands := s.commands - 1), Call(Ending(FallbackGate), false));
    Hop(cfg, w, t, s.(commands := s.commands - 1), Call(Ending(FallbackGate), false), Well,
        s.(commands := s.commands - 1), Call(Done, false));
  }

  /** Before and after taking the lock, ShouldClose agrees to close. */
  lemma ProbeMayClose(cfg: Settings, w: World, t: nat, s: Shared, done: int)
    requires Comes(cfg, w, t, s, Call(Judging(PreShouldClose(done)), true))
    requires s.isOpen && s.lock.None? && Closer.ShouldClose(s.closer, cfg.closer)
    ensures Comes(cfg, w, t, s.(lock := Some(t)),
                  Call(Committing(Flip(Move(false, done, true), |s.hist.results|)), true))
  {
    var m := Move(false, done, true);
    Hop(cfg, w, t, s, Call(Judging(PreShouldClose(done)), true), Well, s, Call(Moving(PreCheck(m)), true));
    Hop(cfg, w, t, s, Call(Moving(PreCheck(m)), true), Well, s, Call(Moving(WantLock(m)), true));
    var s1 := s.(lock := Some(t));
    Hop(cfg, w, t, s, Call(Moving(WantLock(m)), true), Well, s1, Call(Committing(Locked(m)), true));
    Hop(cfg, w, t, s1, Call(Committing(Locked(m)), true), Well, s1, Call(Committing(ReAsk(m)), true));
    Hop(cfg, w, t, s1, Call(Committing(ReAsk(m)), true), Well, s1, Call(Committing(Flip(m, |s.hist.results|)), true));
  }

  /** The state after commitTransition. */
  function Committed(cfg: Settings, s: Shared, m: Move, asked: nat): Shared {
    var stamped := m.(now := if s.clock > m.now then s.clock else m.now);
    Queueing(Telling(cfg, Flipping(s, m, asked), stamped), stamped)
  }

  lemma MoveIsCommitted(cfg: Settings, w: World, t: nat, s: Shared, m: Move, asked: nat)
    requires Comes(cfg, w, t, s, Call(Committing(Flip(m, asked)), true))
    ensures Comes(cfg, w, t, Committed(cfg, s, m, asked), Call(Committing(Queued), true))
  {
    var s2 := Flipping(s, m, asked);
    Hop(cfg, w, t, s, Call(Committing(Flip(m, asked)), true), Well, s2, Call(Committing(Stamp(m)), true));
    var m' := m.(now := if s2.clock > m.now then s2.clock else m.now);
    Hop(cfg, w, t, s2, Call(Committing(Stamp(m)), true), Well, s2, Call(Committing(TellCloser(m')), true));
    var s3 := Telling(cfg, s2, m');
    Hop(cfg, w, t, s2, Call(Committing(TellCloser(m')), true), Well, s3, Call(Committing(TellOpener(m')), true));
    Hop(cfg, w, t, s3, Call(Committing(TellOpener(m')), true), Well, s3, Call(Committing(Enqueue(m')), true));
    var s4 := Queueing(s3, m');
    Hop(cfg, w, t, s3, Call(Committing(Enqueue(m')), true), Well, s4, Call(Committing(Queued), true));
  }

  /** The one queued transition has been delivered, and lock and role are free again. */
  function Heeded(s: Shared, next: Transition): Shared {
    s.(lock := None, pending := [], delivering := false,
       hist := s.hist.(delivered := s.hist.delivered + [next], started := s.hist.started + [next], deliverer := None))
  }

  lemma MoveIsDelivered(cfg: Settings, w: World, t: nat, s: Shared, next: Transition)
    requires Comes(cfg, w, t, s, Call(Committing(Queued), true)) && s.pending == [next] && !s.delivering
    ensures Comes(cfg, w, t, Heeded(s, next), Call(Ending(Release), true))
  {
    var s1 := s.(lock := None);
    var s2 := s1.(lock := Some(t));
    Hop(cfg, w, t, s, Call(Committing(Queued), true), Well, s1, Call(Draining(WantDrain), true));
    Hop(cfg, w, t, s1, Call(Draining(WantDrain), true), Well, s2, Call(Draining(Entered), true));
    var s3 := s2.(delivering := true, hist := s2.hist.(deliverer := Some(t)));
    Hop(cfg, w, t, s2, Call(Draining(Entered), true), Well, s3, Call(Draining(Loop), true));
    var s4 := Popping(s3);
    Hop(cfg, w, t, s3, Call(Draining(Loop), true), Well, s4, Call(Draining(Notify(next)), true));
    var s5 := s4.(hist := s4.hist.(started := s4.hist.started + [next]));
    Hop(cfg, w, t, s4, Call(Draining(Notify(next)), true), Well, s5, Call(Draining(Listening(next)), true));
    Hop(cfg, w, t, s5, Call(Draining(Listening(next)), true), Heard, s5, Call(Draining(Relock), true));
    var s6 := s5.(lock := Some(t));
    Hop(cfg, w, t, s5, Call(Draining(Relock), true), Well, s6, Call(Draining(Loop), true));
    Hop(cfg, w, t, s6, Call(Draining(Loop), true), Well, Resigning(s6), Call(Ending(Release), true));
    assert Resigning(s6) == Heeded(s, next);
  }

  /** The circuit has closed by itself, and the listeners know: ShouldClose was re-asked after `asked` results. */
  predicate ClosedItself(s: Shared, s': Shared) {
    && !s'.isOpen && s'.closer.openedAt.None? && s'.clock == s.clock
    && s'.hist.results == s.hist.results + [Wiped]
    && s'.hist.autoCloses == s.hist.autoCloses + [AutoClose(|s.hist.results|, |s.hist.flips|)]
    && s'.hist.started == s.hist.started + [Transition(false, s.clock)]
    && s'.hist.flips == s.hist.flips + [s.clock]
  }

  /** The probe of call t has been counted: it closes the circuit, or returns and leaves it waiting. */
  lemma ProbeEnds(cfg: Settings, w: World, t: nat, s: Shared, done: int) returns (s': Shared)
    requires Comes(cfg, w, t, s, Call(Judging(PreShouldClose(done)), true)) && done <= s.clock
    requires s.isOpen && s.lock.None? && s.pending == [] && !s.delivering && s.commands == 1
    ensures Comes(cfg, w, t, s', Call(Done, false))
    ensures if Closer.ShouldClose(s.closer, cfg.closer) then ClosedItself(s, s') else s' == s.(commands := 0)
  {
    if Closer.ShouldClose(s.closer, cfg.closer) {
      var m := Move(false, done, true);
      ProbeMayClose(cfg, w, t, s, done);
      MoveIsCommitted(cfg, w, t, s.(lock := Some(t)), m, |s.hist.results|);
      var s1 := Committed(cfg, s.(lock := Some(t)), m, |s.hist.results|);
      var next := Transition(false, s.clock);
      assert s1.pending == [next];
      MoveIsDelivered(cfg, w, t, s1, next);
      CallEnds(cfg, w, t, Heeded(s1, next));
      s' := Heeded(s1, next).(commands := s1.commands - 1);
    } else {
      Hop(cfg, w, t, s, Call(Judging(PreShouldClose(done)), true), Well, s, Call(Ending(Release), true));
      CallEnds(cfg, w, t, s);
      s' := s.(commands := 0);
    }
  }

  // ---- One probe ----

  /** The closer once its timer has fired. */
  function Fired(closer: Closer.State): Closer.State { closer.(window := closer.window.(fastFail := false)) }

  /** After the wait, and once the timer has fired. */
  function Waited(s: Shared, wait: nat): Shared { s.(clock := s.clock + wait, closer := Fired(s.closer)) }

  /** The success of request t, which arrives after the wait and which Allow grants in the current open episode. */
  function ProbeOf(s: Shared, t: nat, wait: nat): Result
    requires s.closer.openedAt.Some?
  {
    Good(t, s.clock + wait, Admission(ByGrant(s.closer.openedAt.value), |s.hist.flips|))
  }

  /** The state just before ShouldClose is asked about that probe. */
  function Probed(cfg: Settings, s: Shared, t: nat, wait: nat, elapsed: nat): Shared
    requires s.closer.openedAt.Some?
  {
    var start := s.clock + wait;
    var s1 := Granted(cfg, Waited(s, wait)).(commands := 1);
    Tallied(s1.(clock := start + elapsed), t, start, ProbeOf(s, t, wait).adm)
  }

  /** One probe, and nothing else: it waits, is granted, and takes `elapsed`. Then the circuit closes by itself, on this
      probe, or it waits again with one more success counted. */
  ghost predicate ProbeOutcome(cfg: Settings, w: World, wait: nat, elapsed: nat, w': World)
    requires w.shared.closer.openedAt.Some?
  {
    var probed := Probed(cfg, w.shared, |w.calls|, wait, elapsed);
    && Leads(cfg, w, w') && Delivery.Idle(w') && |w'.calls| == |w.calls| + 1
    && w'.shared.clock == w.shared.clock + wait + elapsed
    && Closer.Allow(Fired(w.shared.closer), cfg.closer, w.shared.clock + wait).1
    && if w.shared.closer.successes + 1 >= cfg.closer.required then ClosedItself(probed, w'.shared)
       else Waiting(cfg, w') && w'.shared == probed.(commands := 0)
  }

  /** The world in which the request has just arrived. */
  function Arrived(w: World, wait: nat): World {
    World(Waited(w.shared, wait),
          w.calls + [Call(Gating(Arrive), false)])
  }

  /** A granted command returns successfully after `elapsed`, at `done`, and is counted. */
  lemma CommandSucceeds(cfg: Settings, v: World, t: nat, s: Shared, adm: Admission, elapsed: nat, done: int)
    requires Comes(cfg, v, t, s, Call(Running(Returned(s.clock, adm, Succeeded)), true)) && done == s.clock + elapsed
    requires s.isOpen && !s.forceOpen && s.closer.openedAt.Some? && s.clock > s.closer.openedAt.value
    ensures
      Comes(cfg, v, t, Tallied(s.(clock := done), t, s.clock, adm), Call(Judging(PreShouldClose(done)), true))
  {
    TimePasses(cfg, v, t, s, Call(Running(Returned(s.clock, adm, Succeeded)), true), elapsed);
    ProbeReports(cfg, v, t, s.(clock := done), s.clock, adm);
  }

  /** The state in which the granted command runs. */
  function Admitted(cfg: Settings, w: World, wait: nat): Shared {
    var s := Arrived(w, wait).shared;
    Granted(cfg, s).(commands := 1)
  }

  lemma ProbeIsAdmitted(cfg: Settings, w: World, wait: nat)
    requires Waiting(cfg, w) && LongEnough(cfg, w.shared, wait) && cfg.maxCommands != 0
    ensures
      var start := w.shared.clock + wait;
      var c := Call(Running(Returned(start, ProbeOf(w.shared, |w.calls|, wait).adm, Succeeded)), true);
      Comes(cfg, Arrived(w, wait), |w.calls|, Admitted(cfg, w, wait), c)
  {
    ProbeRuns(cfg, Arrived(w, wait), |w.calls|);
  }

  lemma AdmittedRuns(cfg: Settings, w: World, wait: nat)
    requires Waiting(cfg, w) && LongEnough(cfg, w.shared, wait)
    ensures
      var s := Admitted(cfg, w, wait);
      && s.isOpen && !s.forceOpen && s.clock == w.shared.clock + wait
      && s.closer.openedAt.Some? && s.clock > s.closer.openedAt.value
  {}

  lemma AdmittedThenTallied(cfg: Settings, w: World, wait: nat, elapsed: nat, done: int)
    requires w.shared.closer.openedAt.Some? && done == w.shared.clock + wait + elapsed
    ensures
      var s := Admitted(cfg, w, wait);
      var adm := ProbeOf(w.shared, |w.calls|, wait).adm;
      Tallied(s.(clock := done), |w.calls|, s.clock, adm) == Probed(cfg, w.shared, |w.calls|, wait, elapsed)
  {}

  /** After a wait that is long enough, the request is granted and its command runs and succeeds. */
  lemma ProbeSucceeds(cfg: Settings, w: World, wait: nat, elapsed: nat, done: int)
    requires Waiting(cfg, w) && LongEnough(cfg, w.shared, wait) && cfg.maxCommands != 0
    requires done == w.shared.clock + wait + elapsed
    ensures
      var probed := Probed(cfg, w.shared, |w.calls|, wait, elapsed);
      Comes(cfg, Arrived(w, wait), |w.calls|, probed, Call(Judging(PreShouldClose(done)), true))
  {
    var adm := ProbeOf(w.shared, |w.calls|, wait).adm;
    ProbeIsAdmitted(cfg, w, wait);
    AdmittedRuns(cfg, w, wait);
    AdmittedThenTallied(cfg, w, wait, elapsed, done);
    CommandSucceeds(cfg, Arrived(w, wait), |w.calls|, Admitted(cfg, w, wait), adm, elapsed, done);
  }

  /** A wait that is long enough, and a command that succeeds, however long it takes. */
  lemma SuccessfulProbeMakesProgress(cfg: Settings, w: World, wait: nat, elapsed: nat) returns (w': World)
    requires Waiting(cfg, w) && LongEnough(cfg, w.shared, wait) && cfg.maxCommands != 0 && cfg.closer.sleepWindow > 0
    ensures ProbeOutcome(cfg, w, wait, elapsed, w')
  {
    var t := |w.calls|;
    var v := Arrived(w, wait);
    ProbeArrives(cfg, w, wait);
    ProbeSucceeds(cfg, w, wait, elapsed, w.shared.clock + wait + elapsed);
    var s := ProbeEnds(cfg, v, t, Probed(cfg, w.shared, t, wait, elapsed), w.shared.clock + wait + elapsed);
    w' := World(s, v.calls[t := Call(Done, false)]);
    LeadsJoins(cfg, w, v, w');
    assert forall u :: 0 <= u < |w.calls| ==> w'.calls[u] == w.calls[u];
  }

  // ---- As many probes as it takes ----

  /** How long one probe waits before it starts, and how long its command takes. */
  datatype Probe = Probe(wait: nat, elapsed: nat)

  function Duration(probes: seq<Probe>): nat {
    if probes == [] then 0 else probes[0].wait + probes[0].elapsed + Duration(probes[1..])
  }

  /** Each probe comes when the sleep window of its time is over. */
  predicate Paced(cfg: Settings, s: Shared, t: nat, probes: seq<Probe>)
    decreases |probes|
  {
    && probes != [] && s.closer.openedAt.Some? && LongEnough(cfg, s, probes[0].wait)
    && (|probes| > 1 ==>
          Paced(cfg, Probed(cfg, s, t, probes[0].wait, probes[0].elapsed).(commands := 0), t + 1, probes[1..]))
  }

  /** The successes of requests from number `first` on, granted one after the other in this episode. */
  ghost predicate ProbesFrom(cfg: Settings, results: seq<Result>, first: nat, episode: nat) {
    forall i :: 0 <= i < |results| ==>
      HalfOpen.GenuineProbe(cfg, results[i], episode) && results[i].call == first + i
  }

  /** From w, `k` requests and nothing else lead to w': each was granted as a probe of the open episode of w and
      succeeded, the last one made the circuit close by itself, and it is at rest and closed. */
  ghost predicate RecoversBy(cfg: Settings, w: World, k: nat, w': World) {
    && Leads(cfg, w, w') && Delivery.Idle(w') && !w'.shared.isOpen && |w'.calls| == |w.calls| + k
    && w'.shared.hist.autoCloses ==
         w.shared.hist.autoCloses + [AutoClose(|w.shared.hist.results| + k, |w.shared.hist.flips|)]
    && |w'.shared.hist.flips| == |w.shared.hist.flips| + 1
    && |w'.shared.hist.results| == |w.shared.hist.results| + k + 1
    && w.shared.hist.results <= w'.shared.hist.results
    && ProbesFrom(cfg, w'.shared.hist.results[|w.shared.hist.results|..|w.shared.hist.results| + k], |w.calls|,
                  |w.shared.hist.flips|)
  }

  function Missing(cfg: Settings, w: World): nat { Max(1, cfg.closer.required - w.shared.closer.successes) }

  lemma ProbeIsGenuine(cfg: Settings, w: World, wait: nat)
    requires Waiting(cfg, w) && LongEnough(cfg, w.shared, wait)
    ensures HalfOpen.GenuineProbe(cfg, ProbeOf(w.shared, |w.calls|, wait), |w.shared.hist.flips|)
  {}

  /** The last missing probe. */
  lemma LastMoveIsCommitted(cfg: Settings, w: World, probe: Probe, w': World)
    requires Waiting(cfg, w) && LongEnough(cfg, w.shared, probe.wait)
    requires w.shared.closer.successes + 1 >= cfg.closer.required
    requires ProbeOutcome(cfg, w, probe.wait, probe.elapsed, w')
    ensures RecoversBy(cfg, w, 1, w')
  {
    ProbeIsGenuine(cfg, w, probe.wait);
    var n := |w.shared.hist.results|;
    assert w'.shared.hist.results[n..n + 1] == [ProbeOf(w.shared, |w.calls|, probe.wait)];
  }

  /** The results of one probe before those of the others. */
  lemma ResultsJoin(cfg: Settings, w: World, probe: Result, k: nat, rs: seq<Result>)
    requires HalfOpen.GenuineProbe(cfg, probe, |w.shared.hist.flips|) && probe.call == |w.calls|
    requires var n := |w.shared.hist.results|;
      && |rs| == n + k + 2 && w.shared.hist.results + [probe] <= rs
      && ProbesFrom(cfg, rs[n + 1..n + 1 + k], |w.calls| + 1, |w.shared.hist.flips|)
    ensures var n := |w.shared.hist.results|;
      w.shared.hist.results <= rs && ProbesFrom(cfg, rs[n..n + k + 1], |w.calls|, |w.shared.hist.flips|)
  {
    var n := |w.shared.hist.results|;
    var all, later := rs[n..n + k + 1], rs[n + 1..n + 1 + k];
    forall i | 0 <= i < |all|
      ensures HalfOpen.GenuineProbe(cfg, all[i], |w.shared.hist.flips|) && all[i].call == |w.calls| + i
    {
      if i > 0 { assert all[i] == later[i - 1]; } else { assert all[0] == (w.shared.hist.results + [probe])[n]; }
    }
  }

  /** One probe before the others. */
  lemma OneMoreProbe(cfg: Settings, w: World, probe: Probe, v: World, k: nat, w': World)
    requires Waiting(cfg, w) && LongEnough(cfg, w.shared, probe.wait)
    requires w.shared.closer.successes + 1 < cfg.closer.required
    requires ProbeOutcome(cfg, w, probe.wait, probe.elapsed, v) && RecoversBy(cfg, v, k, w')
    ensures RecoversBy(cfg, w, k + 1, w')
  {
    LeadsJoins(cfg, w, v, w');
    ProbeIsGenuine(cfg, w, probe.wait);
    ResultsJoin(cfg, w, ProbeOf(w.shared, |w.calls|, probe.wait), k, w'.shared.hist.results);
  }

  /** A waiting circuit is closed by exactly as many probes as successes are missing (and at least one), at whatever
      pace the sleep windows allow, and however long their commands take. */
  lemma {:induction false} ProbesClose(cfg: Settings, w: World, probes: seq<Probe>) returns (w': World)
    requires Waiting(cfg, w) && cfg.maxCommands != 0 && cfg.closer.sleepWindow > 0
    requires |probes| == Missing(cfg, w) && Paced(cfg, w.shared, |w.calls|, probes)
    ensures RecoversBy(cfg, w, |probes|, w') && w'.shared.clock == w.shared.clock + Duration(probes)
    decreases |probes|
  {
    var probe := probes[0];
    var v := SuccessfulProbeMakesProgress(cfg, w, probe.wait, probe.elapsed);
    if w.shared.closer.successes + 1 >= cfg.closer.required {
      LastMoveIsCommitted(cfg, w, probe, v);
      w' := v;
    } else {
      w' := ProbesClose(cfg, v, probes[1..]);
      OneMoreProbe(cfg, w, probe, v, |probes| - 1, w');
    }
  }

  /** Some pace is slow enough: a wait for the sleep window and for the clock to move, before each probe. */
  lemma {:induction false} SomePaceWorks(cfg: Settings, s: Shared, t: nat, k: nat) returns (probes: seq<Probe>)
    requires s.closer.openedAt.Some? && k > 0
    ensures |probes| == k && Paced(cfg, s, t, probes)
    decreases k
  {
    var late := Max(Max(s.closer.window.nextOpen, s.closer.openedAt.value + 1), s.armedAt + cfg.closer.sleepWindow);
    var probe := Probe(Max(0, late - s.clock), 0);
    if k == 1 {
      probes := [probe];
    } else {
      var rest := SomePaceWorks(cfg, Probed(cfg, s, t, probe.wait, probe.elapsed).(commands := 0), t + 1, k - 1);
      probes := [probe] + rest;
      assert probes[1..] == rest;
    }
  }

  /** Every probe waits for at least a SleepWindow. */
  predicate Patient(cfg: Settings, probes: seq<Probe>) {
    forall i :: 0 <= i < |probes| ==> probes[i].wait >= cfg.closer.sleepWindow
  }

  /** Patient probes are paced, whatever their commands take. */
  lemma {:induction false} OneSleepWindowIsEnough(cfg: Settings, s: Shared, t: nat, probes: seq<Probe>)
    requires s.closer.openedAt.Some? && Closing.Near(cfg, s) && cfg.closer.sleepWindow > 0 && probes != []
    requires Patient(cfg, probes)
    ensures Paced(cfg, s, t, probes)
    decreases |probes|
  {
    if |probes| > 1 {
      var s1 := Probed(cfg, s, t, probes[0].wait, probes[0].elapsed).(commands := 0);
      OneSleepWindowIsEnough(cfg, s1, t + 1, probes[1..]);
    }
  }

  /** `k` probes that wait exactly a SleepWindow, with commands that take `elapsed`. */
  function Steady(cfg: Settings, k: nat, elapsed: nat): (probes: seq<Probe>)
    ensures |probes| == k && forall i :: 0 <= i < k ==> probes[i] == Probe(Max(0, cfg.closer.sleepWindow), elapsed)
  {
    if k == 0 then [] else [Probe(Max(0, cfg.closer.sleepWindow), elapsed)] + Steady(cfg, k - 1, elapsed)
  }

  lemma {:induction false} SteadyDuration(cfg: Settings, k: nat, elapsed: nat)
    requires cfg.closer.sleepWindow > 0
    ensures Duration(Steady(cfg, k, elapsed)) == k * (cfg.closer.sleepWindow + elapsed)
  {
    if k > 0 {
      SteadyDuration(cfg, k - 1, elapsed);
      assert Steady(cfg, k, elapsed)[1..] == Steady(cfg, k - 1, elapsed);
    }
  }

  /** An open circuit at rest that nothing forces waits for a probe, for at most one SleepWindow from now. */
  lemma {:induction false} OpenAtRestIsWaiting(cfg: Settings, clock: int, run: seq<Action>)
    requires cfg.closer.sleepWindow > 0 && After(cfg, Init(clock), run).Some?
    requires var w := After(cfg, Init(clock), run).value;
      Delivery.Idle(w) && w.shared.isOpen && !w.shared.forceOpen && !w.shared.forcedClosed
    ensures Waiting(cfg, After(cfg, Init(clock), run).value)
    ensures Closing.Near(cfg, After(cfg, Init(clock), run).value.shared)
  {
    Closing.NoWindowIsTooLong(cfg, clock, run);
    Delivery.EveryRunKeepsInv(cfg, clock, run);
    HalfOpen.EveryRunKeepsInv(cfg, clock, run);
    HalfOpen.CloserAgreesWithCircuit(cfg, clock, run);
    Limit.LimitsAreKept(cfg, clock, run);
    Delivery.IdleIsQuiet(After(cfg, Init(clock), run).value);
  }

  /** Recovery is always reachable: whatever happened before, an open circuit at rest that is neither forced nor limited
      to no requests closes by itself after exactly as many granted and successful probes as are missing, which are at
      most RequiredConcurrentSuccessful (and at least one), at every pace that the sleep windows allow; and a wait of
      one SleepWindow before each probe is always such a pace. */
  lemma {:induction false} RecoveryIsAlwaysReachable(cfg: Settings, clock: int, run: seq<Action>)
    requires cfg.closer.sleepWindow > 0 && cfg.maxCommands != 0 && After(cfg, Init(clock), run).Some?
    requires var w := After(cfg, Init(clock), run).value;
      Delivery.Idle(w) && w.shared.isOpen && !w.shared.forceOpen && !w.shared.forcedClosed
    ensures var w := After(cfg, Init(clock), run).value;
      && Missing(cfg, w) <= Max(1, cfg.closer.required)
      && (exists probes :: |probes| == Missing(cfg, w) && Paced(cfg, w.shared, |w.calls|, probes))
      && (forall probes :: |probes| == Missing(cfg, w) && Patient(cfg, probes) ==>
            Paced(cfg, w.shared, |w.calls|, probes))
      && forall probes :: |probes| == Missing(cfg, w) && Paced(cfg, w.shared, |w.calls|, probes) ==>
           exists w' :: RecoversBy(cfg, w, |probes|, w') && w'.shared.clock == w.shared.clock + Duration(probes)
  {
    var w := After(cfg, Init(clock), run).value;
    OpenAtRestIsWaiting(cfg, clock, run);
    HalfOpen.OnlyCountsUp(cfg, clock, run);
    var slow := SomePaceWorks(cfg, w.shared, |w.calls|, Missing(cfg, w));
    forall probes | |probes| == Missing(cfg, w) && Patient(cfg, probes)
      ensures Paced(cfg, w.shared, |w.calls|, probes)
    {
      OneSleepWindowIsEnough(cfg, w.shared, |w.calls|, probes);
    }
    forall probes | |probes| == Missing(cfg, w) && Paced(cfg, w.shared, |w.calls|, probes)
      ensures exists w' :: RecoversBy(cfg, w, |probes|, w') && w'.shared.clock == w.shared.clock + Duration(probes)
    {
      var w' := ProbesClose(cfg, w, probes);
    }
  }

  /** So it takes no longer than a SleepWindow and a command for each required success. */
  lemma {:induction false} RecoveryIsInTime(cfg: Settings, clock: int, run: seq<Action>, elapsed: nat)
    returns (k: nat, w': World)
    requires cfg.closer.sleepWindow > 0 && cfg.maxCommands != 0 && After(cfg, Init(clock), run).Some?
    requires var w := After(cfg, Init(clock), run).value;
      Delivery.Idle(w) && w.shared.isOpen && !w.shared.forceOpen && !w.shared.forcedClosed
    ensures var w := After(cfg, Init(clock), run).value;
      && RecoversBy(cfg, w, k, w') && 1 <= k <= Max(1, cfg.closer.required)
      && w'.shared.clock == w.shared.clock + k * (cfg.closer.sleepWindow + elapsed)
  {
    var w := After(cfg, Init(clock), run).value;
    OpenAtRestIsWaiting(cfg, clock, run);
    HalfOpen.OnlyCountsUp(cfg, clock, run);
    k := Missing(cfg, w);
    OneSleepWindowIsEnough(cfg, w.shared, |w.calls|, Steady(cfg, k, elapsed));
    SteadyDuration(cfg, k, elapsed);
    w' := ProbesClose(cfg, w, Steady(cfg, k, elapsed));
  }

  /** A RunMetrics listener that panics on a success takes the close with it: the circuit stays open, at rest, with
      enough successes counted. */
  lemma PanickingListenerMissesTheClose(cfg: Settings, w: World, wait: nat) returns (w': World)
    requires Waiting(cfg, w) && LongEnough(cfg, w.shared, wait) && cfg.maxCommands != 0
    requires w.shared.closer.successes + 1 >= Max(1, cfg.closer.required)
    ensures Leads(cfg, w, w') && Delivery.Idle(w') && w'.shared.isOpen && Closing.Enough(cfg, w'.shared)
  {
    var t := |w.calls|;
    var v := Arrived(w, wait);
    ProbeArrives(cfg, w, wait);
    var s := PanickedProbe(cfg, w, wait);
    w' := World(s, v.calls[t := Call(Done, false)]);
    LeadsJoins(cfg, w, v, w');
    assert forall u :: 0 <= u < |w.calls| ==> w'.calls[u] == w.calls[u];
  }

  lemma PanickedProbe(cfg: Settings, w: World, wait: nat) returns (s: Shared)
    requires Waiting(cfg, w) && LongEnough(cfg, w.shared, wait) && cfg.maxCommands != 0
    ensures Comes(cfg, Arrived(w, wait), |w.calls|, s, Call(Done, false))
    ensures s.isOpen && s.closer.successes == w.shared.closer.successes + 1
  {
    var t, s1 := |w.calls|, Admitted(cfg, w, wait);
    var v, start, adm := Arrived(w, wait), s1.clock, ProbeOf(w.shared, t, wait).adm;
    ProbeIsAdmitted(cfg, w, wait);
    AdmittedRuns(cfg, w, wait);
    var s2 := Tallied(s1, t, start, adm);
    Hop(cfg, v, t, s1, Call(Running(Returned(start, adm, Succeeded)), true), Well,
        s1, Call(Running(Report(start, start, adm, Succeeded)), true));
    Hop(cfg, v, t, s1, Call(Running(Report(start, start, adm, Succeeded)), true), Well,
        s2, Call(Ending(Release), true));
    CallEnds(cfg, v, t, s2);
    s := s2.(commands := s2.commands - 1);
  }

  /** The same probe, up to where it tests ForceOpen. */
  lemma ProbeBeforeForceOpen(cfg: Settings, w: World, wait: nat) returns (s: Shared, done: int)
    requires Waiting(cfg, w) && LongEnough(cfg, w.shared, wait) && cfg.maxCommands != 0
    ensures Comes(cfg, Arrived(w, wait), |w.calls|, s, Call(Judging(SuccessForceOpen(done)), true))
    ensures s.isOpen && !s.forceOpen && !s.forcedClosed && s.closer.successes == w.shared.closer.successes + 1
  {
    var t, s1 := |w.calls|, Admitted(cfg, w, wait);
    var v, start, adm := Arrived(w, wait), s1.clock, ProbeOf(w.shared, t, wait).adm;
    ProbeIsAdmitted(cfg, w, wait);
    AdmittedRuns(cfg, w, wait);
    s, done := Tallied(s1, t, start, adm), start;
    Hop(cfg, v, t, s1, Call(Running(Returned(start, adm, Succeeded)), true), Well,
        s1, Call(Running(Report(start, done, adm, Succeeded)), true));
    Hop(cfg, v, t, s1, Call(Running(Report(start, done, adm, Succeeded)), true), Heard,
        s, Call(Judging(SuccessIsOpen(done)), true));
    Hop(cfg, v, t, s, Call(Judging(SuccessIsOpen(done)), true), Well, s, Call(Judging(SuccessForceOpen(done)), true));
  }

  lemma Extend(cfg: Settings, w: World, run: seq<Action>, v: World, a: Action, v': World) returns (more: seq<Action>)
    requires After(cfg, w, run) == Some(v) && Possible(cfg, v, a) && Apply(cfg, v, a) == v'
    ensures After(cfg, w, more) == Some(v')
  {
    more := run + [a];
    assert more[..|run|] == run;
  }

  /** While the success of call t tests it, ForceOpen is set, for this step only. */
  lemma ForcedForAMoment(cfg: Settings, w: World, run: seq<Action>, s: Shared, calls: seq<Call>, t: nat, done: int)
    returns (more: seq<Action>)
    requires After(cfg, w, run) == Some(World(s, calls)) && !s.forceOpen && !s.forcedClosed
    requires t < |calls| && calls[t] == Call(Judging(SuccessForceOpen(done)), true)
    ensures After(cfg, w, more) == Some(World(s, calls[t := Call(Ending(Release), true)]))
  {
    var forced, calls' := s.(forceOpen := true), calls[t := Call(Ending(Release), true)];
    more := Extend(cfg, w, run, World(s, calls), SetFlags(true, false), World(forced, calls));
    more := Extend(cfg, w, more, World(forced, calls), Step(t, Well), World(forced, calls'));
    more := Extend(cfg, w, more, World(forced, calls'), SetFlags(false, false), World(s, calls'));
  }

  /** So does a ForceOpen that is set while the deciding success tests it, however briefly. */
  lemma ForceOpenMissesTheClose(cfg: Settings, w: World, wait: nat) returns (run: seq<Action>, w': World)
    requires Waiting(cfg, w) && LongEnough(cfg, w.shared, wait) && cfg.maxCommands != 0
    requires w.shared.closer.successes + 1 >= Max(1, cfg.closer.required)
    ensures After(cfg, w, run) == Some(w') && Delivery.Idle(w')
    ensures w'.shared.isOpen && !w'.shared.forceOpen && Closing.Enough(cfg, w'.shared)
  {
    var t, v := |w.calls|, Arrived(w, wait);
    ProbeArrives(cfg, w, wait);
    var s, done := ProbeBeforeForceOpen(cfg, w, wait);
    var calls := v.calls[t := Call(Judging(SuccessForceOpen(done)), true)];
    LeadsJoins(cfg, w, v, World(s, calls));
    var first :| LeadsBy(cfg, w, first, World(s, calls));
    run := ForcedForAMoment(cfg, w, first, s, calls, t, done);
    var u := World(s, calls[t := Call(Ending(Release), true)]);
    w' := TailEnds(cfg, u, t);
    var rest :| LeadsBy(cfg, u, rest, w');
    AfterJoins(cfg, w, u, run, rest);
    run := run + rest;
    assert forall x :: 0 <= x < |w.calls| ==> w'.calls[x] == w.calls[x];
  }

  lemma TailEnds(cfg: Settings, u: World, t: nat) returns (w': World)
    requires t < |u.calls| && u.calls[t] == Call(Ending(Release), true)
    ensures Leads(cfg, u, w')
    ensures w' == World(u.shared.(commands := u.shared.commands - 1), u.calls[t := Call(Done, false)])
  {
    LeadsNowhere(cfg, u);
    assert u == World(u.shared, u.calls[t := u.calls[t]]);
    CallEnds(cfg, u, t, u.shared);
    w' := World(u.shared.(commands := u.shared.commands - 1), u.calls[t := Call(Done, false)]);
  }
}
