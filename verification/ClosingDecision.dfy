/** The circuit of SequentialSpec with the hystrix closer in it and any opener: when does it close? */
module ClosingDecision {
  import opened Base
  import opened SequentialSpec
  import opened SequentialInvariants
  import Closer = HystrixCloser
  import TimedChecks
  import Opening = OpeningDecision

  /** Any opener with states O. */
  datatype OpenerLogic<!O> = OpenerLogic(
    prevent: (O, int) -> (bool, O),
    shouldOpen: (O, int) -> (bool, O),
    hears: (O, RunEvent) -> O,
    moves: (O, Transition) -> O)

  function Hear(c: Closer.State, e: RunEvent): Closer.State {
    match e.kind
    case Success => Closer.Success(c, e.at, e.took)
    case Failure => Closer.Failure(c, e.at, e.took)
    case Timeout => Closer.Failure(c, e.at, e.took)
    case _ => c
  }

  /** A circuit's logic with the hystrix closer in it. `fired` says whether the timer of the closer's window has fired
      before it is asked at a time. */
  datatype Breaker<!O> = Breaker(cfg: Closer.Config, fired: (Closer.State, int) -> bool, opener: OpenerLogic<O>) {
    function Allow(c: Closer.State, now: int): (bool, Closer.State) {
      var c1 := if fired(c, now) then c.(window := TimedChecks.Callback(c.window, c.window.version)) else c;
      var (c2, ok) := Closer.Allow(c1, cfg, now);
      (ok, c2)
    }

    function Logic(): Logic<O, Closer.State> {
      SequentialSpec.Logic(
        opener.prevent, opener.shouldOpen, opener.hears, opener.moves,
        (c: Closer.State, now: int) => Allow(c, now),
        (c: Closer.State, _: int) => (Closer.ShouldClose(c, cfg), c),
        (c: Closer.State, e: RunEvent) => Hear(c, e),
        (c: Closer.State, t: Transition) =>
          if t.open then Closer.Opened(c, cfg, t.at) else Closer.Closed(c, t.at))
    }
  }

  // ---- What the closer counts ----

  /** When the circuit has opened, if it is open: the timestamp of the last transition that was heard. */
  function OpenedAt(log: seq<Note>): Option<int> {
    if log == [] then None
    else if log[|log| - 1].Ran? then OpenedAt(log[..|log| - 1])
    else if log[|log| - 1].move.open then Some(log[|log| - 1].move.at) else None
  }

  /** The command of this event started strictly after the circuit opened. */
  predicate StartedSince(openedAt: Option<int>, e: RunEvent) { openedAt.Some? && e.at - e.took > openedAt.value }

  /** How many of these successes in a row there were since the last such failure or timeout, or transition. */
  function InARow(log: seq<Note>): nat {
    if log == [] || log[|log| - 1].Moved? then 0
    else
      var front, e := log[..|log| - 1], log[|log| - 1].event;
      if !StartedSince(OpenedAt(front), e) then InARow(front)
      else if e.kind == Success then InARow(front) + 1
      else if e.kind == Failure || e.kind == Timeout then 0
      else InARow(front)
  }

  lemma OneMoreNote(log: seq<Note>, n: Note)
    ensures OpenedAt(log + [n]) == if n.Ran? then OpenedAt(log) else if n.move.open then Some(n.move.at) else None
    ensures InARow(log + [n]) ==
      if n.Moved? then 0
      else if !StartedSince(OpenedAt(log), n.event) then InARow(log)
      else if n.event.kind == Success then InARow(log) + 1
      else if n.event.kind == Failure || n.event.kind == Timeout then 0
      else InARow(log)
  {
    assert (log + [n])[..|log|] == log;
  }

  /** The closer knows when the circuit opened, and counts these successes. */
  ghost predicate Knows<O>(s: State<O, Closer.State>) {
    && s.isOpen == s.closer.openedAt.Some?
    && s.closer.openedAt == OpenedAt(s.heard.log) && s.closer.successes == InARow(s.heard.log)
  }

  ghost function Knowing<O(!new)>(): State<O, Closer.State> -> bool { (s: State<O, Closer.State>) => Knows(s) }

  lemma TellIsKnown<O>(b: Breaker<O>, s: State<O, Closer.State>, e: RunEvent, lag: nat)
    requires Knows(s)
    ensures Knows(Tell(b.Logic(), s, e, lag))
  {
    OneMoreNote(s.heard.log, Ran(e));
  }

  lemma MoveIsKnown<O>(b: Breaker<O>, s: State<O, Closer.State>, t: Transition)
    requires Knows(s)
    ensures Knows(Move(b.Logic(), s, t))
  {
    OneMoreNote(s.heard.log, Moved(t));
  }

  lemma TellsAreKnown<O(!new)>(b: Breaker<O>)
    ensures KeptByTell(b.Logic(), Knowing<O>())
  {
    forall s: State<O, Closer.State>, e: RunEvent, lag: nat | Knowing()(s) && e.at == s.clock
      ensures Knowing()(Tell(b.Logic(), s, e, lag))
    {
      TellIsKnown(b, s, e, lag);
    }
  }

  lemma MovesAreKnown<O(!new)>(b: Breaker<O>)
    ensures KeptByMove(b.Logic(), Knowing<O>())
  {
    forall s: State<O, Closer.State>, t: Transition | Knowing()(s) && t.open != s.isOpen && t.at == s.clock
      ensures Knowing()(Move(b.Logic(), s, t))
    {
      MoveIsKnown(b, s, t);
    }
  }

  /** An armed closer that is asked changes its window at most. */
  lemma AskingCountsNothing<O(!new)>(b: Breaker<O>)
    ensures KeptByAsk(b.Logic(), Knowing<O>())
  {}

  lemma KnowledgeIsStable<O(!new)>(b: Breaker<O>)
    ensures Stable(b.Logic(), Knowing<O>())
  {
    TellsAreKnown(b);
    MovesAreKnown(b);
    AskingCountsNothing(b);
  }

  /** The circuit before anything has happened, with a new closer. */
  function New<O>(settings: Settings, now: int, opener: O): State<O, Closer.State> {
    Init(settings, now, opener, Closer.Fresh)
  }

  /** After every sequence of operations the closer is armed exactly if the circuit is open, with the timestamp that the
      listeners heard, and counts exactly the successes in a row of commands that started after that. */
  lemma {:induction false} TheCloserCountsTheSuccesses<O(!new)>(b: Breaker<O>, settings: Settings, clock: int,
                                                                opener: O, ops: seq<Op<O, Closer.State>>)
    requires forall i :: 0 <= i < |ops| ==> Untouched(ops[i])
    ensures Knows(AfterAll(b.Logic(), New(settings, clock, opener), ops))
  {
    KnowledgeIsStable(b);
    EveryRunKeeps(b.Logic(), Knowing<O>(), New(settings, clock, opener), ops);
  }

  // ---- The decision ----

  /** The command that started at `start` has just returned nil, in time. */
  predicate HasSucceeded(clock: int, start: int, timeout: int, ret: Option<Error>) {
    ret.None? && !Opening.IsLate(clock, start, timeout)
  }

  lemma SuccessCloses<O>(b: Breaker<O>, told: State<O, Closer.State>, now: int)
    requires told.isOpen
    ensures !Settle(b.Logic(), told, Success, now).isOpen <==>
      !told.settings.forceOpen && told.closer.successes >= b.cfg.required
  {}

  lemma OtherwiseStaysOpen<O>(b: Breaker<O>, told: State<O, Closer.State>, verdict: Kind, now: int)
    requires told.isOpen && verdict != Success
    ensures Settle(b.Logic(), told, verdict, now).isOpen
  {}

  /** An open circuit closes at the end of a command exactly if that command succeeded, ForceOpen is off, and the
      successes in a row, this one included, are enough. */
  lemma JudgeClosesExactlyWhenDue<O>(b: Breaker<O>, s: State<O, Closer.State>, start: int, timeout: int,
                                     ret: Option<Error>, call: Call<O, Closer.State>)
    requires Knows(s) && s.isOpen
    ensures
      !Judge(b.Logic(), s, start, timeout, ret, call).isOpen <==>
        && HasSucceeded(s.clock, start, timeout, ret) && !s.settings.forceOpen
        && InARow(s.heard.log + [Ran(RunEvent(Success, s.clock, s.clock - start))]) >= b.cfg.required
  {
    var verdict := VerdictAt(s, start, timeout, ret, call.ended);
    var e := RunEvent(verdict, s.clock, s.clock - start);
    var told := Tell(b.Logic(), s, e, call.lag);
    TellIsKnown(b, s, e, call.lag);
    assert verdict == Success <==> HasSucceeded(s.clock, start, timeout, ret);
    if verdict == Success { SuccessCloses(b, told, s.clock); } else { OtherwiseStaysOpen(b, told, verdict, s.clock); }
  }

  lemma RunClosesExactlyWhenDue<O(!new)>(b: Breaker<O>, s: State<O, Closer.State>, script: Script<O, Closer.State>,
                                         call: Call<O, Closer.State>)
    requires Knows(s) && UntouchedScript(script) && Admit(b.Logic(), s).0.Admitted?
    requires Ended(b.Logic(), s, script).1.Returned? && Ended(b.Logic(), s, script).0.isOpen
    ensures
      var (mid, ending) := Ended(b.Logic(), s, script);
      !AfterRun(b.Logic(), s, script, call).0.isOpen <==>
        && HasSucceeded(mid.clock, s.clock, s.settings.timeout, ending.err) && !mid.settings.forceOpen
        && InARow(mid.heard.log + [Ran(RunEvent(Success, mid.clock, mid.clock - s.clock))]) >= b.cfg.required
  {
    KnowledgeIsStable(b);
    EndedKeeps(b.Logic(), Knowing<O>(), s, script);
    var (mid, ending) := Ended(b.Logic(), s, script);
    JudgeClosesExactlyWhenDue(b, mid, s.clock, s.settings.timeout, ending.err, call);
  }

  /** The decision over whole runs: after any operations, an Execute whose command may run, whatever it does, and which
      finds the circuit open when it returns, leaves it closed exactly if it returned nil in time, ForceOpen is off, and
      with it the successes in a row of commands that started after the circuit opened have reached what is required.
      (So does the whole Execute, by OpeningDecision.NothingMovesAfterRun, unless its fallback makes calls.) */
  lemma ClosesExactlyWhenDue<O(!new)>(b: Breaker<O>, settings: Settings, clock: int, opener: O,
                                      ops: seq<Op<O, Closer.State>>, script: Script<O, Closer.State>,
                                      call: Call<O, Closer.State>)
    requires UntouchedScript(script) && forall i :: 0 <= i < |ops| ==> Untouched(ops[i])
    requires
      var s := AfterAll(b.Logic(), New(settings, clock, opener), ops);
      && Admit(b.Logic(), s).0.Admitted?
      && Ended(b.Logic(), s, script).1.Returned? && Ended(b.Logic(), s, script).0.isOpen
    ensures
      var s := AfterAll(b.Logic(), New(settings, clock, opener), ops);
      var (mid, ending) := Ended(b.Logic(), s, script);
      !AfterRun(b.Logic(), s, script, call).0.isOpen <==>
        && HasSucceeded(mid.clock, s.clock, s.settings.timeout, ending.err) && !mid.settings.forceOpen
        && InARow(mid.heard.log + [Ran(RunEvent(Success, mid.clock, mid.clock - s.clock))]) >= b.cfg.required
  {
    TheCloserCountsTheSuccesses(b, settings, clock, opener, ops);
    var s := AfterAll(b.Logic(), New(settings, clock, opener), ops);
    RunClosesExactlyWhenDue(b, s, script, call);
  }
}
