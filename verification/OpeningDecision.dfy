/** The circuit of SequentialSpec with the hystrix opener in it and any closer: when does it open? */
module OpeningDecision {
  import opened Base
  import opened Counting
  import opened RollingWindows
  import opened RollingCounters
  import opened SequentialSpec
  import opened SequentialInvariants
  import opened HystrixOpener

  /** Any closer with states C. */
  datatype CloserLogic<!C> = CloserLogic(
    allow: (C, int) -> (bool, C),
    shouldClose: (C, int) -> (bool, C),
    hears: (C, RunEvent) -> C,
    moves: (C, Transition) -> C)

  function Hear(v: Knowledge, e: RunEvent): Knowledge {
    if e.kind == Success then Record(v, Result(e.at, false))
    else if e.kind == Failure || e.kind == Timeout then Record(v, Result(e.at, true))
    else v
  }

  /** A circuit's logic with the hystrix opener in it. */
  datatype Breaker<!C> = Breaker(percentage: int, threshold: int, closer: CloserLogic<C>) {
    /** The opener never prevents, and ignores bad requests, interrupts and rejections. */
    function Logic(): Logic<Knowledge, C> {
      SequentialSpec.Logic(
        (v: Knowledge, _: int) => (false, v),
        (v: Knowledge, now: int) => (Answer(v, percentage, threshold, now), Asked(v, threshold, now)),
        (v: Knowledge, e: RunEvent) => Hear(v, e),
        (v: Knowledge, t: Transition) => Reset(v, t.at),
        closer.allow, closer.shouldClose, closer.hears, closer.moves)
    }
  }

  // ---- What the opener knows ----

  /** The run events that were heard since the last transition. */
  function SinceMove(log: seq<Note>): seq<RunEvent> {
    if log == [] || log[|log| - 1].Moved? then []
    else SinceMove(log[..|log| - 1]) + [log[|log| - 1].event]
  }

  lemma SinceMoveOfAppend(log: seq<Note>, n: Note)
    ensures SinceMove(log + [n]) == if n.Ran? then SinceMove(log) + [n.event] else []
  {
    assert (log + [n])[..|log|] == log;
  }

  predicate IsAttempt(e: RunEvent) { e.kind == Success || e.kind == Failure || e.kind == Timeout }

  predicate IsError(e: RunEvent) { e.kind == Failure || e.kind == Timeout }

  /** What such events are to the opener: one result for each attempt, at its own time. */
  function Results(events: seq<RunEvent>): seq<Result> {
    if events == [] then []
    else
      var e := events[|events| - 1];
      Results(events[..|events| - 1]) + if IsAttempt(e) then [Result(e.at, IsError(e))] else []
  }

  lemma ResultsOfAppend(events: seq<RunEvent>, e: RunEvent)
    ensures Results(events + [e]) == Results(events) + if IsAttempt(e) then [Result(e.at, IsError(e))] else []
  {
    assert (events + [e])[..|events|] == events;
  }

  /** The opener has heard of nothing that is still to come. */
  ghost predicate OneClock<C>(s: State<Knowledge, C>) { InOrder(s.opener, s.clock) }

  /** It knows the results since the last transition, and nothing else. */
  ghost predicate Knows<C>(g: Grid, s: State<Knowledge, C>) {
    && OneClock(s) && s.opener.grid == g
    && s.opener.results == Results(SinceMove(s.heard.log))
    && forall e :: e in SinceMove(s.heard.log) ==> e.at <= s.clock
  }

  ghost function Knowing<C(!new)>(g: Grid): State<Knowledge, C> -> bool { (s: State<Knowledge, C>) => Knows(g, s) }

  lemma HearIsInOrder(v: Knowledge, e: RunEvent, clock: int)
    requires InOrder(v, clock) && e.at <= clock
    ensures InOrder(Hear(v, e), clock) && Hear(v, e).grid == v.grid
    ensures Hear(v, e).results == v.results + if IsAttempt(e) then [Result(e.at, IsError(e))] else []
  {}

  lemma TellIsKnown<C>(b: Breaker<C>, g: Grid, s: State<Knowledge, C>, e: RunEvent, lag: nat)
    requires Knows(g, s) && e.at == s.clock
    ensures Knows(g, Tell(b.Logic(), s, e, lag))
  {
    var t := Tell(b.Logic(), s, e, lag);
    HearIsInOrder(s.opener, e, s.clock);
    SinceMoveOfAppend(s.heard.log, Ran(e));
    ResultsOfAppend(SinceMove(s.heard.log), e);
    assert t.opener == Hear(s.opener, e) && t.heard.log == s.heard.log + [Ran(e)];
    assert InOrder(t.opener, t.clock);
  }

  lemma MoveIsKnown<C>(b: Breaker<C>, g: Grid, s: State<Knowledge, C>, t: Transition)
    requires Knows(g, s) && t.at == s.clock
    ensures Knows(g, Move(b.Logic(), s, t))
  {
    SinceMoveOfAppend(s.heard.log, Moved(t));
  }

  lemma TellsAreKnown<C(!new)>(b: Breaker<C>, g: Grid)
    ensures KeptByTell(b.Logic(), Knowing<C>(g))
  {
    forall s: State<Knowledge, C>, e: RunEvent, lag: nat | Knowing(g)(s) && e.at == s.clock
      ensures Knowing(g)(Tell(b.Logic(), s, e, lag))
    {
      TellIsKnown(b, g, s, e, lag);
    }
  }

  lemma MovesAreKnown<C(!new)>(b: Breaker<C>, g: Grid)
    ensures KeptByMove(b.Logic(), Knowing<C>(g))
  {
    forall s: State<Knowledge, C>, t: Transition | Knowing(g)(s) && t.open != s.isOpen && t.at == s.clock
      ensures Knowing(g)(Move(b.Logic(), s, t))
    {
      MoveIsKnown(b, g, s, t);
    }
  }

  lemma AskingTeachesNothing<C(!new)>(b: Breaker<C>, g: Grid)
    ensures KeptByAsk(b.Logic(), Knowing<C>(g))
  {
    forall s: State<Knowledge, C>, open: bool, now: int | Knowing(g)(s) && open != s.isOpen && now <= s.clock
      ensures Knowing(g)(AskToMove(b.Logic(), s, open, now).1)
    {
      AskedIsInOrder(s.opener, b.threshold, now, s.clock);
    }
  }

  lemma AskedIsInOrder(v: Knowledge, threshold: int, now: int, clock: int)
    requires InOrder(v, clock) && now <= clock
    ensures var w := Asked(v, threshold, now); InOrder(w, clock) && w.grid == v.grid && w.results == v.results
  {}

  lemma KnowledgeIsStable<C(!new)>(b: Breaker<C>, g: Grid)
    ensures Stable(b.Logic(), Knowing<C>(g))
  {
    TellsAreKnown(b, g);
    MovesAreKnown(b, g);
    AskingTeachesNothing(b, g);
  }

  /** The circuit before anything has happened, with a new opener. */
  function New<C>(settings: Settings, now: int, grid: Grid, closer: C): State<Knowledge, C> {
    Init(settings, now, Knowledge(grid, [], [], []), closer)
  }

  /** After every sequence of operations the opener knows exactly the results that were heard since the last transition,
      and nothing of the future. */
  lemma {:induction false} TheOpenerKnowsTheResults<C(!new)>(b: Breaker<C>, settings: Settings, clock: int, grid: Grid,
                                                             closer: C, ops: seq<Op<Knowledge, C>>)
    requires forall i :: 0 <= i < |ops| ==> Untouched(ops[i])
    ensures Knows(grid, AfterAll(b.Logic(), New(settings, clock, grid, closer), ops))
  {
    KnowledgeIsStable(b, grid);
    EveryRunKeeps(b.Logic(), Knowing<C>(grid), New(settings, clock, grid, closer), ops);
  }

  // ---- The decision ----

  /** t falls into one of the n buckets that end with that of `now`. */
  predicate InWindow(g: Grid, t: int, now: int) {
    && g.n > 0 && g.width > 0 && g.start <= t <= now
    && (now - g.start) / g.width - g.n < (t - g.start) / g.width
  }

  /** How many attempts, and how many errors, are in the window that ends at `now`. */
  function AttemptsUntil(g: Grid, events: seq<RunEvent>, now: int): nat {
    Count(events, (e: RunEvent) => IsAttempt(e) && InWindow(g, e.at, now))
  }

  function ErrorsUntil(g: Grid, events: seq<RunEvent>, now: int): nat {
    Count(events, (e: RunEvent) => IsError(e) && InWindow(g, e.at, now))
  }

  lemma OneMoreResult(g: Grid, results: seq<Result>, r: Result, now: int)
    requires g.Covers(now) && r.at <= now
    ensures var last := g.Index(now);
      && AttemptsIn(g, results + [r], last) == AttemptsIn(g, results, last) + (if InWindow(g, r.at, now) then 1 else 0)
      && ErrorsIn(g, results + [r], last) ==
           ErrorsIn(g, results, last) + (if r.error && InWindow(g, r.at, now) then 1 else 0)
  {
    var last := g.Index(now);
    if g.Covers(r.at) { IndexIsMonotone(g, r.at, now); }
    AppendedResult(results, r);
    CountInOfAppend(g, Attempts(results), r.at, last - g.n, last);
    CountInOfAppend(g, Errors(results), r.at, last - g.n, last);
    assert Errors(results) + [] == Errors(results);
  }

  lemma {:induction false} ResultsAreCounted(g: Grid, events: seq<RunEvent>, now: int)
    requires g.Covers(now) && forall e :: e in events ==> e.at <= now
    ensures AttemptsIn(g, Results(events), g.Index(now)) == AttemptsUntil(g, events, now)
    ensures ErrorsIn(g, Results(events), g.Index(now)) == ErrorsUntil(g, events, now)
  {
    if events != [] {
      var front, e := events[..|events| - 1], events[|events| - 1];
      assert e in events && forall x :: x in front ==> x in events;
      ResultsAreCounted(g, front, now);
      if IsAttempt(e) {
        OneMoreResult(g, Results(front), Result(e.at, IsError(e)), now);
      } else {
        assert Results(events) == Results(front);
      }
    }
  }

  /** Nothing is in a window that does not exist. */
  lemma NothingIsCounted(g: Grid, events: seq<RunEvent>, now: int)
    requires !g.Covers(now)
    ensures AttemptsUntil(g, events, now) == 0
  {
    CountOfNone(events, (e: RunEvent) => IsAttempt(e) && InWindow(g, e.at, now));
  }

  /** Enough of the events in the window that ends at `now` are attempts, and enough of these have failed. */
  predicate AreDue(percentage: int, threshold: int, g: Grid, events: seq<RunEvent>, now: int) {
    var attempts, errors := AttemptsUntil(g, events, now), ErrorsUntil(g, events, now);
    attempts >= 1 && attempts >= threshold && 100 * errors >= percentage * attempts
  }

  lemma DueMeans(percentage: int, threshold: int, g: Grid, events: seq<RunEvent>, now: int)
    requires forall e :: e in events ==> e.at <= now
    ensures (g.Covers(now) && Due(percentage, threshold, g, Results(events), g.Index(now))) <==>
      AreDue(percentage, threshold, g, events, now)
  {
    if g.Covers(now) {
      ResultsAreCounted(g, events, now);
    } else {
      NothingIsCounted(g, events, now);
    }
  }

  /** The locked second question decides nothing: a transition happens exactly if the first answer was yes. */
  lemma OneQuestionDecides<C>(b: Breaker<C>, s: State<Knowledge, C>, now: int)
    requires !s.isOpen
    ensures TryToMove(b.Logic(), s, true, now).isOpen == Answer(s.opener, b.percentage, b.threshold, now)
  {
    AskingTwiceChangesNothing(s.opener, b.percentage, b.threshold, now);
  }

  /** What the command's own report makes the opener answer. */
  lemma ReportedAnswers<C>(b: Breaker<C>, g: Grid, s: State<Knowledge, C>, e: RunEvent, lag: nat)
    requires Knows(g, s) && e.at == s.clock
    ensures Answer(Tell(b.Logic(), s, e, lag).opener, b.percentage, b.threshold, s.clock) <==>
      AreDue(b.percentage, b.threshold, g, SinceMove(s.heard.log) + [e], s.clock)
  {
    var told := Tell(b.Logic(), s, e, 0);
    TellIsKnown(b, g, s, e, 0);
    SinceMoveOfAppend(s.heard.log, Ran(e));
    AnswersOnOneClock(told.opener, b.percentage, b.threshold, s.clock);
    DueMeans(b.percentage, b.threshold, g, SinceMove(told.heard.log), s.clock);
  }

  /** How a command counts that started at `start` and has just returned `ret`: it came late, or with an error; but not
      a bad request, nor, in time, an error that the end of the parent context excuses. */
  predicate IsLate(clock: int, start: int, timeout: int) { timeout > 0 && clock - start > timeout }

  predicate Excused(settings: Settings, ended: Option<ContextError>) {
    && ended.Some? && !settings.ignoreInterrupts
    && (settings.isErrInterrupt.Some? ==> ended.value in settings.isErrInterrupt.value)
  }

  predicate HasFailed<O, C>(s: State<O, C>, start: int, timeout: int, ret: Option<Error>, ended: Option<ContextError>) {
    && !(ret.Some? && IsBadRequest(ret.value))
    && (IsLate(s.clock, start, timeout) || (ret.Some? && !Excused(s.settings, ended)))
  }

  /** The run event of such a command. */
  function FailureEvent(clock: int, start: int, timeout: int): RunEvent {
    RunEvent(if IsLate(clock, start, timeout) then Timeout else Failure, clock, clock - start)
  }

  /** A closed circuit opens at the end of a command exactly if that command failed or timed out, nothing forces the
      circuit closed, and the events since the last transition, this one included, are due. */
  lemma JudgeOpensExactlyWhenDue<C>(b: Breaker<C>, g: Grid, s: State<Knowledge, C>,
                                    start: int, timeout: int, ret: Option<Error>, call: Call<Knowledge, C>)
    requires Knows(g, s) && !s.isOpen
    ensures
      Judge(b.Logic(), s, start, timeout, ret, call).isOpen <==>
        && HasFailed(s, start, timeout, ret, call.ended) && !s.settings.forcedClosed
        && AreDue(b.percentage, b.threshold, g, SinceMove(s.heard.log) + [FailureEvent(s.clock, start, timeout)],
                  s.clock)
  {
    var verdict := VerdictAt(s, start, timeout, ret, call.ended);
    var e := RunEvent(verdict, s.clock, s.clock - start);
    FailuresAreVerdicts(s, start, timeout, ret, call.ended);
    if HasFailed(s, start, timeout, ret, call.ended) {
      ReportedAnswers(b, g, s, e, call.lag);
      FailureOpens(b, Tell(b.Logic(), s, e, call.lag), verdict, s.clock);
    }
  }

  lemma FailuresAreVerdicts<O, C>(s: State<O, C>, start: int, timeout: int, ret: Option<Error>,
                                  ended: Option<ContextError>)
    ensures var verdict := VerdictAt(s, start, timeout, ret, ended);
      && (HasFailed(s, start, timeout, ret, ended) <==> verdict == Failure || verdict == Timeout)
      && (HasFailed(s, start, timeout, ret, ended) ==>
            RunEvent(verdict, s.clock, s.clock - start) == FailureEvent(s.clock, start, timeout))
  {}

  lemma FailureOpens<C>(b: Breaker<C>, told: State<Knowledge, C>, verdict: Kind, now: int)
    requires !told.isOpen && (verdict == Failure || verdict == Timeout)
    ensures Settle(b.Logic(), told, verdict, now).isOpen <==>
      !told.settings.forcedClosed && Answer(told.opener, b.percentage, b.threshold, now)
  {
    if !told.settings.forcedClosed { OneQuestionDecides(b, told, now); }
  }

  /** A user function that neither calls the circuit nor opens or closes it. */
  predicate MakesNoCall<O, C>(script: Script<O, C>) {
    match script
    case Do(op, rest) => !op.Execute? && !op.OpenCircuit? && !op.CloseCircuit? && MakesNoCall(rest)
    case _ => true
  }

  lemma {:induction false} NoCallMovesNothing<O, C>(m: Logic<O, C>, s: State<O, C>, script: Script<O, C>)
    requires MakesNoCall(script)
    ensures AfterScript(m, s, script).0.isOpen == s.isOpen
    decreases script
  {
    if script.Do? { NoCallMovesNothing(m, After(m, s, script.op), script.rest); }
  }

  lemma FallbackMovesNothing<O, C>(m: Logic<O, C>, s: State<O, C>, err: Error, fallback: Option<Script<O, C>>)
    requires fallback.Some? ==> MakesNoCall(fallback.value)
    ensures AfterFallback(m, s, err, fallback).0.isOpen == s.isOpen
  {
    if fallback.Some? { NoCallMovesNothing(m, s.(fallbacks := s.fallbacks + 1), fallback.value); }
  }

  /** Without a fallback, and with one that makes no call, nothing moves the circuit after the command. */
  lemma NothingMovesAfterRun<O, C>(m: Logic<O, C>, s: State<O, C>, call: Call<O, C>)
    requires call.run.Some? && !s.settings.disabled
    requires call.fallback.Some? ==> MakesNoCall(call.fallback.value)
    ensures AfterExecute(m, s, call).0.isOpen == AfterRun(m, s, call.run.value, call).0.isOpen
  {
    var (t, ending) := AfterRun(m, s, call.run.value, call);
    if ending.Returned? && ending.err.Some? { FallbackMovesNothing(m, Counted(t), ending.err.value, call.fallback); }
  }

  /** The decision over whole runs: after any operations, an Execute whose command may run, whatever it does, and which
      finds the circuit closed when it returns, leaves it open exactly if it failed or timed out, nothing forces the
      circuit closed, and the run events since the last transition, in the window that ends now, are due; and so does
      the whole Execute, unless its fallback makes calls. */
  lemma OpensExactlyWhenDue<C(!new)>(b: Breaker<C>, settings: Settings, clock: int, grid: Grid, closer: C,
                                     ops: seq<Op<Knowledge, C>>, script: Script<Knowledge, C>, call: Call<Knowledge, C>)
    requires UntouchedScript(script) && forall i :: 0 <= i < |ops| ==> Untouched(ops[i])
    requires
      var s := AfterAll(b.Logic(), New(settings, clock, grid, closer), ops);
      && Admit(b.Logic(), s).0.Admitted?
      && Ended(b.Logic(), s, script).1.Returned? && !Ended(b.Logic(), s, script).0.isOpen
    ensures
      var s := AfterAll(b.Logic(), New(settings, clock, grid, closer), ops);
      var (mid, ending) := Ended(b.Logic(), s, script);
      AfterRun(b.Logic(), s, script, call).0.isOpen <==>
        && HasFailed(mid, s.clock, s.settings.timeout, ending.err, call.ended) && !mid.settings.forcedClosed
        && AreDue(b.percentage, b.threshold, grid,
                  SinceMove(mid.heard.log) + [FailureEvent(mid.clock, s.clock, s.settings.timeout)], mid.clock)
    ensures
      var s := AfterAll(b.Logic(), New(settings, clock, grid, closer), ops);
      call.run == Some(script) && !s.settings.disabled && (call.fallback.Some? ==> MakesNoCall(call.fallback.value)) ==>
        AfterExecute(b.Logic(), s, call).0.isOpen == AfterRun(b.Logic(), s, script, call).0.isOpen
  {
    TheOpenerKnowsTheResults(b, settings, clock, grid, closer, ops);
    KnowledgeIsStable(b, grid);
    var s := AfterAll(b.Logic(), New(settings, clock, grid, closer), ops);
    EndedKeeps(b.Logic(), Knowing<C>(grid), s, script);
    var (mid, ending) := Ended(b.Logic(), s, script);
    JudgeOpensExactlyWhenDue(b, grid, mid, s.clock, s.settings.timeout, ending.err, call);
    if call.run == Some(script) && !s.settings.disabled && (call.fallback.Some? ==> MakesNoCall(call.fallback.value)) {
      NothingMovesAfterRun(b.Logic(), s, call);
    }
  }
}
