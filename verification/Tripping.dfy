/** Opening in CircuitProtocol: one failure opens a closed circuit, if the opener wants it to. */
module Tripping {
  import opened Base
  import opened CircuitProtocol
  import opened Recovery
  import Delivery = CircuitDelivery
  import HalfOpen = CircuitHalfOpen
  import Limit = CircuitLimit

  /** The opener says yes. */
  const YES := Choice(true, Succeeded)

  /** The opener does not prevent, and runFunc ends like this. */
  function Ends(outcome: Outcome): Choice { Choice(false, outcome) }

  /** A closed circuit at rest, whose closer is not armed. */
  predicate Resting(w: World) { AtRest(w) && !w.shared.isOpen && w.shared.closer.openedAt.None? }

  /** A new request comes to runFunc, which fails or times out. */
  lemma CommandFails(cfg: Settings, w: World, outcome: Outcome) returns (v: World)
    requires Resting(w) && cfg.maxCommands != 0 && outcome in {Failed, TimedOut}
    ensures v == World(w.shared, w.calls + [Call(Gating(Arrive), false)]) && Leads(cfg, w, v)
    ensures
      var s := w.shared;
      Comes(cfg, v, |w.calls|, s.(commands := 1),
            Call(Running(Returned(s.clock, Admission(ByClosed, |s.hist.flips|), outcome)), true))
  {
    var s, t := w.shared, |w.calls|;
    var start := s.clock;
    var adm := Admission(ByClosed, |s.hist.flips|);
    LeadsNowhere(cfg, w);
    RequestArrives(cfg, w, w);
    v := World(s, w.calls + [Call(Gating(Arrive), false)]);
    var c := v.calls[t];
    LeadsNowhere(cfg, v);
    assert v == World(s, v.calls[t := c]);
    Hop(cfg, v, t, s, c, Well, s, GoTo(c, Gating(AskForceOpen(start))));
    Hop(cfg, v, t, s, GoTo(c, Gating(AskForceOpen(start))), Well, s, GoTo(c, Gating(AskForcedClosed(start))));
    Hop(cfg, v, t, s, GoTo(c, Gating(AskForcedClosed(start))), Well, s, GoTo(c, Gating(AskIsOpen(start))));
    Hop(cfg, v, t, s, GoTo(c, Gating(AskIsOpen(start))), Well, s, GoTo(c, Gating(AskOpener(start, adm))));
    Hop(cfg, v, t, s, GoTo(c, Gating(AskOpener(start, adm))), Well, s, GoTo(c, Gating(Acquire(start, adm))));
    FailingCommandRuns(cfg, v, t, s, start, adm, outcome);
  }

  lemma FailingCommandRuns(cfg: Settings, v: World, t: nat, s: Shared, start: int, adm: Admission, outcome: Outcome)
    requires Comes(cfg, v, t, s, Call(Gating(Acquire(start, adm)), false)) && s.commands == 0 && cfg.maxCommands != 0
    requires outcome in {Failed, TimedOut}
    ensures Comes(cfg, v, t, s.(commands := 1), Call(Running(Returned(start, adm, outcome)), true))
  {
    var s1 := s.(commands := 1);
    Hop(cfg, v, t, s, Call(Gating(Acquire(start, adm)), false), Well, s1, Call(Gating(Acquired(start, adm, 1)), true));
    Hop(cfg, v, t, s1, Call(Gating(Acquired(start, adm, 1)), true), Well, s1, Call(Running(InFunc(start, adm)), true));
    Hop(cfg, v, t, s1, Call(Running(InFunc(start, adm)), true), Ends(outcome),
        s1, Call(Running(Returned(start, adm, outcome)), true));
  }

  /** The failure is reported, and the opener asked. */
  lemma FailureIsReported(cfg: Settings, v: World, t: nat, s: Shared, start: int, adm: Admission, outcome: Outcome)
    requires Comes(cfg, v, t, s, Call(Running(Returned(start, adm, outcome)), true)) && outcome in {Failed, TimedOut}
    requires !s.isOpen && !s.forcedClosed && s.closer.openedAt.None?
    ensures Comes(cfg, v, t, s, Call(Judging(PreShouldOpen(s.clock)), true))
  {
    var done := s.clock;
    Hop(cfg, v, t, s, Call(Running(Returned(start, adm, outcome)), true), Well,
        s, Call(Running(Report(start, done, adm, outcome)), true));
    assert s.hist.results + [] == s.hist.results;
    Hop(cfg, v, t, s, Call(Running(Report(start, done, adm, outcome)), true), Heard,
        s, Call(Judging(FailureIsOpen(done)), true));
    Hop(cfg, v, t, s, Call(Judging(FailureIsOpen(done)), true), Well, s, Call(Judging(AttemptForced(done)), true));
    Hop(cfg, v, t, s, Call(Judging(AttemptForced(done)), true), Well, s, Call(Judging(AttemptIsOpen(done)), true));
    Hop(cfg, v, t, s, Call(Judging(AttemptIsOpen(done)), true), Well, s, Call(Judging(PreShouldOpen(done)), true));
  }

  /** It says yes, and yes again under the lock. */
  lemma OpenerAgrees(cfg: Settings, v: World, t: nat, s: Shared)
    requires Comes(cfg, v, t, s, Call(Judging(PreShouldOpen(s.clock)), true)) && !s.isOpen && s.lock.None?
    ensures Comes(cfg, v, t, s.(lock := Some(t)),
                  Call(Committing(Flip(Move(true, s.clock, true), |s.hist.results|)), true))
  {
    var m := Move(true, s.clock, true);
    Hop(cfg, v, t, s, Call(Judging(PreShouldOpen(s.clock)), true), YES, s, Call(Moving(PreCheck(m)), true));
    Hop(cfg, v, t, s, Call(Moving(PreCheck(m)), true), Well, s, Call(Moving(WantLock(m)), true));
    var s1 := s.(lock := Some(t));
    Hop(cfg, v, t, s, Call(Moving(WantLock(m)), true), Well, s1, Call(Committing(Locked(m)), true));
    Hop(cfg, v, t, s1, Call(Committing(Locked(m)), true), Well, s1, Call(Committing(ReAsk(m)), true));
    Hop(cfg, v, t, s1, Call(Committing(ReAsk(m)), true), YES, s1, Call(Committing(Flip(m, |s.hist.results|)), true));
  }

  /** One request and nothing else has opened the circuit, it is at rest, and the listeners know. */
  ghost predicate Trips(cfg: Settings, w: World, elapsed: nat, w': World) {
    var h, h' := w.shared.hist, w'.shared.hist;
    var done := w.shared.clock + elapsed;
    && Leads(cfg, w, w') && Delivery.Idle(w') && |w'.calls| == |w.calls| + 1
    && w'.shared.isOpen && w'.shared.clock == done
    && h'.flips == h.flips + [done]
    && h'.committed == h.committed + [Transition(true, done)]
    && h'.told == h.told + [Transition(true, done)]
    && h'.started == h.started + [Transition(true, done)]
    && w'.shared.closer.openedAt == Some(done)
  }

  lemma FailureCommits(cfg: Settings, v: World, t: nat, s: Shared) returns (s': Shared)
    requires Comes(cfg, v, t, s, Call(Judging(PreShouldOpen(s.clock)), true))
    requires !s.isOpen && s.lock.None? && s.pending == [] && !s.delivering && s.commands == 1
    ensures Comes(cfg, v, t, s', Call(Done, false))
    ensures
      var next := Transition(true, s.clock);
      && s'.isOpen && s'.clock == s.clock && s'.hist.flips == s.hist.flips + [s.clock]
      && s'.hist.committed == s.hist.committed + [next] && s'.hist.told == s.hist.told + [next]
      && s'.hist.started == s.hist.started + [next] && s'.closer.openedAt == Some(s.clock)
  {
    var m, next := Move(true, s.clock, true), Transition(true, s.clock);
    OpenerAgrees(cfg, v, t, s);
    MoveIsCommitted(cfg, v, t, s.(lock := Some(t)), m, |s.hist.results|);
    var s1 := Committed(cfg, s.(lock := Some(t)), m, |s.hist.results|);
    assert s1.pending == [next];
    MoveIsDelivered(cfg, v, t, s1, next);
    CallEnds(cfg, v, t, Heeded(s1, next));
    s' := Heeded(s1, next).(commands := s1.commands - 1);
  }

  lemma OneFailureTrips(cfg: Settings, w: World, outcome: Outcome, elapsed: nat) returns (w': World)
    requires Resting(w) && cfg.maxCommands != 0 && outcome in {Failed, TimedOut}
    ensures Trips(cfg, w, elapsed, w')
  {
    var t, s := |w.calls|, w.shared.(clock := w.shared.clock + elapsed, commands := 1);
    var start, adm := w.shared.clock, Admission(ByClosed, |w.shared.hist.flips|);
    var v := CommandFails(cfg, w, outcome);
    TimePasses(cfg, v, t, w.shared.(commands := 1), Call(Running(Returned(start, adm, outcome)), true), elapsed);
    assert w.shared.(commands := 1).(clock := w.shared.clock + elapsed) == s;
    FailureIsReported(cfg, v, t, s, start, adm, outcome);
    var s' := FailureCommits(cfg, v, t, s);
    w' := World(s', v.calls[t := Call(Done, false)]);
    LeadsJoins(cfg, w, v, w');
    assert forall u :: 0 <= u < |w.calls| ==> w'.calls[u] == w.calls[u];
  }

  /** A reachable closed circuit at rest that nothing forces. */
  lemma {:induction false} ClosedAtRestIsResting(cfg: Settings, clock: int, run: seq<Action>)
    requires cfg.closer.sleepWindow > 0 && After(cfg, Init(clock), run).Some?
    requires var w := After(cfg, Init(clock), run).value;
      Delivery.Idle(w) && !w.shared.isOpen && !w.shared.forceOpen && !w.shared.forcedClosed
    ensures Resting(After(cfg, Init(clock), run).value)
  {
    Delivery.EveryRunKeepsInv(cfg, clock, run);
    HalfOpen.CloserAgreesWithCircuit(cfg, clock, run);
    Limit.LimitsAreKept(cfg, clock, run);
    Delivery.IdleIsQuiet(After(cfg, Init(clock), run).value);
  }

  /** Whatever happened before, from a closed circuit at rest that is neither forced nor limited to no requests, one
      request whose command fails or times out, and for which the opener says yes twice, opens the circuit by itself:
      one flip, one transition, and closer and listeners are told of it. */
  lemma {:induction false} TrippingIsAlwaysReachable(cfg: Settings, clock: int, run: seq<Action>, outcome: Outcome,
                                                   elapsed: nat)
    requires outcome in {Failed, TimedOut}
    requires cfg.closer.sleepWindow > 0 && cfg.maxCommands != 0 && After(cfg, Init(clock), run).Some?
    requires var w := After(cfg, Init(clock), run).value;
      Delivery.Idle(w) && !w.shared.isOpen && !w.shared.forceOpen && !w.shared.forcedClosed
    ensures exists w' :: Trips(cfg, After(cfg, Init(clock), run).value, elapsed, w')
  {
    ClosedAtRestIsResting(cfg, clock, run);
    var w' := OneFailureTrips(cfg, After(cfg, Init(clock), run).value, outcome, elapsed);
  }
}
