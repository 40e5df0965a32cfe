/** One induction for all: what the parts of an operation keep, every sequence of operations keeps, nested ones and
    panics included. */
module SequentialInvariants {
  import opened Base
  import opened SequentialSpec

  /** Nobody replaces the opener or the closer, however deep in the user functions. */
  predicate UntouchedScript<O, C>(script: Script<O, C>) {
    match script
    case Do(op, rest) => Untouched(op) && UntouchedScript(rest)
    case _ => true
  }

  predicate UntouchedUse<O, C>(f: Option<Script<O, C>>) { f.Some? ==> UntouchedScript(f.value) }

  predicate Untouched<O, C>(op: Op<O, C>) {
    match op
    case Execute(call) => UntouchedUse(call.run) && UntouchedUse(call.fallback)
    case Retune(_, _) => false
    case _ => true
  }

  /** Nothing has happened that opener and closer could know of but that time has passed. */
  ghost predicate SameKnowledge<O, C>(s: State<O, C>, t: State<O, C>) {
    && t.isOpen == s.isOpen && t.opener == s.opener && t.closer == s.closer && s.clock <= t.clock
    && t.heard == s.heard.(fallbacks := t.heard.fallbacks)
  }

  /** Telling of a run event of now. */
  ghost predicate KeptByTell<O(!new), C(!new)>(m: Logic<O, C>, inv: State<O, C> -> bool) {
    forall s: State<O, C>, e: RunEvent, lag: nat {:trigger Tell(m, s, e, lag)} ::
      inv(s) && e.at == s.clock ==> inv(Tell(m, s, e, lag))
  }

  /** A transition, stamped with the clock. */
  ghost predicate KeptByMove<O(!new), C(!new)>(m: Logic<O, C>, inv: State<O, C> -> bool) {
    forall s: State<O, C>, t: Transition {:trigger Move(m, s, t)} ::
      inv(s) && t.open != s.isOpen && t.at == s.clock ==> inv(Move(m, s, t))
  }

  /** The opener of a closed circuit is asked, or the closer of an open one, for a command that has ended by now. */
  ghost predicate KeptByAsk<O(!new), C(!new)>(m: Logic<O, C>, inv: State<O, C> -> bool) {
    && (forall s: State<O, C>, open: bool, now: int {:trigger AskToMove(m, s, open, now)} ::
          inv(s) && open != s.isOpen && now <= s.clock ==> inv(AskToMove(m, s, open, now).1))
    && (forall s: State<O, C> {:trigger PreventAsked(m, s)} :: inv(s) ==> inv(PreventAsked(m, s)))
    && (forall s: State<O, C> {:trigger AllowAsked(m, s)} :: inv(s) && s.isOpen ==> inv(AllowAsked(m, s)))
  }

  function PreventAsked<O, C>(m: Logic<O, C>, s: State<O, C>): State<O, C> {
    s.(opener := m.prevent(s.opener, s.clock).1)
  }

  function AllowAsked<O, C>(m: Logic<O, C>, s: State<O, C>): State<O, C> { s.(closer := m.allow(s.closer, s.clock).1) }

  ghost predicate KeptByRest<O(!new), C(!new)>(inv: State<O, C> -> bool) {
    forall s: State<O, C>, t: State<O, C> {:trigger SameKnowledge(s, t)} :: inv(s) && SameKnowledge(s, t) ==> inv(t)
  }

  ghost predicate Stable<O(!new), C(!new)>(m: Logic<O, C>, inv: State<O, C> -> bool) {
    KeptByTell(m, inv) && KeptByMove(m, inv) && KeptByAsk(m, inv) && KeptByRest(inv)
  }

  lemma AdmitKeeps<O(!new), C(!new)>(m: Logic<O, C>, inv: State<O, C> -> bool, s: State<O, C>)
    requires Stable(m, inv) && inv(s)
    ensures var (admission, s1) := Admit(m, s);
      && inv(s1) && s1.clock == s.clock
      && (admission.Denied? && admission.event.Some? ==> admission.event.value.at == s.clock)
  {
    var (allowed, s1) := Allowed(m, s, s.clock, s.settings.maxConcurrent);
    assert s1 == s || s1 == AllowAsked(m, s);
    if allowed { assert SameKnowledge(PreventAsked(m, s1), Admit(m, s).1); }
  }

  lemma SettleKeeps<O(!new), C(!new)>(m: Logic<O, C>, inv: State<O, C> -> bool, s: State<O, C>, verdict: Kind, now: int)
    requires Stable(m, inv) && inv(s) && now <= s.clock
    ensures inv(Settle(m, s, verdict, now))
  {
    var s1 := AskToMove(m, s, !s.isOpen, now).1;
    assert inv(s1) && s1.isOpen == s.isOpen && s1.clock == s.clock;
    var s2 := AskToMove(m, s1, !s.isOpen, now).1;
    assert inv(s2) && s2.isOpen == s.isOpen && s2.clock == s.clock;
    assert inv(Move(m, s2, Stamp(s2, !s.isOpen, now)));
  }

  lemma CommandKeeps<O(!new), C(!new)>(m: Logic<O, C>, inv: State<O, C> -> bool, s: State<O, C>,
                                       start: int, timeout: int, ending: Ending, call: Call<O, C>)
    requires Stable(m, inv) && inv(s)
    ensures inv(AfterCommand(m, s, start, timeout, ending, call))
  {
    if ending.Returned? {
      var verdict := VerdictAt(s, start, timeout, ending.err, call.ended);
      var told := Tell(m, s, RunEvent(verdict, s.clock, s.clock - start), call.lag);
      assert inv(told);
      SettleKeeps(m, inv, told, verdict, s.clock);
      var t := Judge(m, s, start, timeout, ending.err, call);
      assert inv(t) && SameKnowledge(t, t.(commands := t.commands - 1));
    } else {
      assert SameKnowledge(s, AfterCommand(m, s, start, timeout, ending, call));
    }
  }

  lemma {:induction false} ScriptKeeps<O(!new), C(!new)>(m: Logic<O, C>, inv: State<O, C> -> bool, s: State<O, C>,
                                                         script: Script<O, C>)
    requires Stable(m, inv) && inv(s) && UntouchedScript(script)
    ensures inv(AfterScript(m, s, script).0)
    decreases script, 0
  {
    match script
    case Do(op, rest) =>
      OperationKeeps(m, inv, s, op);
      ScriptKeeps(m, inv, After(m, s, op), rest);
    case _ =>
  }

  lemma {:induction false} EndedKeeps<O(!new), C(!new)>(m: Logic<O, C>, inv: State<O, C> -> bool, s: State<O, C>,
                                                        script: Script<O, C>)
    requires Stable(m, inv) && inv(s) && UntouchedScript(script)
    ensures inv(Ended(m, s, script).0)
    decreases script, 1
  {
    AdmitKeeps(m, inv, s);
    var s1 := Admit(m, s).1;
    assert SameKnowledge(s1, s1.(commands := s1.commands + 1));
    ScriptKeeps(m, inv, s1.(commands := s1.commands + 1), script);
  }

  lemma {:induction false} RunKeeps<O(!new), C(!new)>(m: Logic<O, C>, inv: State<O, C> -> bool, s: State<O, C>,
                                                      script: Script<O, C>, call: Call<O, C>)
    requires Stable(m, inv) && inv(s) && UntouchedScript(script)
    ensures inv(AfterRun(m, s, script, call).0)
    decreases script, 2
  {
    AdmitKeeps(m, inv, s);
    if Admit(m, s).0.Admitted? {
      EndedKeeps(m, inv, s, script);
      var (mid, ending) := Ended(m, s, script);
      CommandKeeps(m, inv, mid, s.clock, s.settings.timeout, ending, call);
    }
  }

  lemma {:induction false} FallbackKeeps<O(!new), C(!new)>(m: Logic<O, C>, inv: State<O, C> -> bool, s: State<O, C>,
                                                           err: Error, fallback: Option<Script<O, C>>)
    requires Stable(m, inv) && inv(s) && UntouchedUse(fallback)
    ensures inv(AfterFallback(m, s, err, fallback).0)
    decreases fallback
  {
    var t := AfterFallback(m, s, err, fallback).0;
    if fallback.None? || s.settings.fallbackDisabled {
    } else if 0 <= s.settings.maxFallbacks < s.fallbacks + 1 {
      assert SameKnowledge(s, t);
    } else {
      var begun := s.(fallbacks := s.fallbacks + 1);
      assert SameKnowledge(s, begun);
      ScriptKeeps(m, inv, begun, fallback.value);
      assert SameKnowledge(AfterScript(m, begun, fallback.value).0, t);
    }
  }

  lemma {:induction false} CallKeeps<O(!new), C(!new)>(m: Logic<O, C>, inv: State<O, C> -> bool, s: State<O, C>,
                                                       call: Call<O, C>)
    requires Stable(m, inv) && inv(s) && UntouchedUse(call.run) && UntouchedUse(call.fallback)
    ensures inv(AfterExecute(m, s, call).0)
    decreases call
  {
    if call.run.Some? {
      if s.settings.disabled {
        ScriptKeeps(m, inv, s, call.run.value);
      } else {
        RunKeeps(m, inv, s, call.run.value, call);
        var (s1, ending) := AfterRun(m, s, call.run.value, call);
        assert SameKnowledge(s1, Counted(s1));
        if ending.Returned? && ending.err.Some? {
          FallbackKeeps(m, inv, Counted(s1), ending.err.value, call.fallback);
        }
      }
    }
  }

  lemma {:induction false} OperationKeeps<O(!new), C(!new)>(m: Logic<O, C>, inv: State<O, C> -> bool, s: State<O, C>,
                                                            op: Op<O, C>)
    requires Stable(m, inv) && inv(s) && Untouched(op)
    ensures inv(After(m, s, op))
    decreases op
  {
    match op
    case Execute(call) => CallKeeps(m, inv, s, call);
    case OpenCircuit => if !s.isOpen { assert inv(Move(m, s, Transition(true, s.clock))); }
    case CloseCircuit => if s.isOpen { assert inv(Move(m, s, Transition(false, s.clock))); }
    case Configure(settings) => assert SameKnowledge(s, s.(settings := settings));
    case Tick(d) => assert SameKnowledge(s, s.(clock := s.clock + d));
    case Retune(_, _) =>
  }

  /** What is stable holds after every sequence of operations, if it holds before. */
  lemma {:induction false} EveryRunKeeps<O(!new), C(!new)>(m: Logic<O, C>, inv: State<O, C> -> bool, s: State<O, C>,
                                                           ops: seq<Op<O, C>>)
    requires Stable(m, inv) && inv(s) && forall i :: 0 <= i < |ops| ==> Untouched(ops[i])
    ensures inv(AfterAll(m, s, ops))
  {
    if ops != [] {
      EveryRunKeeps(m, inv, s, ops[..|ops| - 1]);
      OperationKeeps(m, inv, AfterAll(m, s, ops[..|ops| - 1]), ops[|ops| - 1]);
    }
  }

  // ---- What is heard ----

  function RunsIn(log: seq<Note>): seq<RunEvent> {
    if log == [] then []
    else RunsIn(log[..|log| - 1]) + if log[|log| - 1].Ran? then [log[|log| - 1].event] else []
  }

  function MovesIn(log: seq<Note>): seq<Transition> {
    if log == [] then []
    else MovesIn(log[..|log| - 1]) + if log[|log| - 1].Moved? then [log[|log| - 1].move] else []
  }

  lemma OneMore(log: seq<Note>, n: Note)
    ensures RunsIn(log + [n]) == RunsIn(log) + if n.Ran? then [n.event] else []
    ensures MovesIn(log + [n]) == MovesIn(log) + if n.Moved? then [n.move] else []
  {
    assert (log + [n])[..|log|] == log;
  }

  /** An opener and a closer that write down what they hear, and answer by that. */
  type Scribe = seq<Note>

  function Scribes(prevent: (Scribe, int) -> bool, shouldOpen: (Scribe, int) -> bool,
                   allow: (Scribe, int) -> bool, shouldClose: (Scribe, int) -> bool): Logic<Scribe, Scribe>
  {
    Logic(
      (o: Scribe, now: int) => (prevent(o, now), o), (o: Scribe, now: int) => (shouldOpen(o, now), o),
      (o: Scribe, e: RunEvent) => o + [Ran(e)], (o: Scribe, t: Transition) => o + [Moved(t)],
      (c: Scribe, now: int) => (allow(c, now), c), (c: Scribe, now: int) => (shouldClose(c, now), c),
      (c: Scribe, e: RunEvent) => c + [Ran(e)], (c: Scribe, t: Transition) => c + [Moved(t)])
  }

  /** Opener and closer hear every run event and every transition that the listeners hear, all in one order, each with
      the clock at its time; what the state is, is what was heard last. */
  ghost predicate HeardAll(s: State<Scribe, Scribe>) {
    && s.opener == s.closer == s.heard.log
    && RunsIn(s.heard.log) == s.heard.runs && MovesIn(s.heard.log) == s.heard.moves
  }

  ghost function HearingAll(): State<Scribe, Scribe> -> bool { (s: State<Scribe, Scribe>) => HeardAll(s) }

  lemma TellIsHeard(m: Logic<Scribe, Scribe>, s: State<Scribe, Scribe>, e: RunEvent, lag: nat)
    requires HeardAll(s) && m.openerHears(s.opener, e) == m.closerHears(s.closer, e) == s.opener + [Ran(e)]
    ensures HeardAll(Tell(m, s, e, lag))
  {
    OneMore(s.heard.log, Ran(e));
  }

  lemma MoveIsHeard(m: Logic<Scribe, Scribe>, s: State<Scribe, Scribe>, t: Transition)
    requires HeardAll(s) && m.openerMoves(s.opener, t) == m.closerMoves(s.closer, t) == s.opener + [Moved(t)]
    ensures HeardAll(Move(m, s, t))
  {
    OneMore(s.heard.log, Moved(t));
  }

  lemma ScribesHearAll(prevent: (Scribe, int) -> bool, shouldOpen: (Scribe, int) -> bool,
                       allow: (Scribe, int) -> bool, shouldClose: (Scribe, int) -> bool)
    ensures Stable(Scribes(prevent, shouldOpen, allow, shouldClose), HearingAll())
  {
    var m := Scribes(prevent, shouldOpen, allow, shouldClose);
    forall s: State<Scribe, Scribe>, e: RunEvent, lag: nat | HearingAll()(s) && e.at == s.clock
      ensures HearingAll()(Tell(m, s, e, lag))
    {
      TellIsHeard(m, s, e, lag);
    }
    forall s: State<Scribe, Scribe>, t: Transition | HearingAll()(s) && t.open != s.isOpen && t.at == s.clock
      ensures HearingAll()(Move(m, s, t))
    {
      MoveIsHeard(m, s, t);
    }
  }

  lemma {:induction false} EverybodyHearsEverything(
    prevent: (Scribe, int) -> bool, shouldOpen: (Scribe, int) -> bool,
    allow: (Scribe, int) -> bool, shouldClose: (Scribe, int) -> bool,
    settings: Settings, clock: int, ops: seq<Op<Scribe, Scribe>>)
    requires forall i :: 0 <= i < |ops| ==> Untouched(ops[i])
    ensures HeardAll(AfterAll(Scribes(prevent, shouldOpen, allow, shouldClose), Init(settings, clock, [], []), ops))
  {
    ScribesHearAll(prevent, shouldOpen, allow, shouldClose);
    var init: State<Scribe, Scribe> := Init(settings, clock, [], []);
    EveryRunKeeps(Scribes(prevent, shouldOpen, allow, shouldClose), HearingAll(), init, ops);
  }
}
