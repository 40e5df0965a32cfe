/** gowrapper.go: one wrapped call, between its caller, the goroutine of its function (the worker) and the goroutine
    that waits for lost errors (the waiter), in every interleaving with the end of the context. */
module GoWrapper {
  import opened Base

  /** How the function ends; Exit is runtime.Goexit. */
  datatype Outcome = Error(id: nat) | Panic(value: nat) | Exit

  /** A channel with room for one. */
  datatype Channel = Channel(items: seq<nat>, closed: bool)

  datatype Setup = Setup(skipCatchPanics: bool, lostErrors: bool)

  /** `Deferred` runs the deferred function, with what it recovers. */
  datatype Worker = Running | Sending(err: nat) | Deferred(recovered: Option<nat>) | Gone

  datatype Caller = Waiting | Cancelled | Returned

  datatype Waiter = Absent | Listening | Reporting(outcome: Outcome) | ClosingErrors | ClosingPanics | Finished

  datatype User = ReturnedToCaller | RepanickedInCaller | PassedToLostErrors

  /** `produced` and `uses` are bookkeeping that no step reads: how the function ended, and what became of that. */
  datatype State = State(
    worker: Worker, caller: Caller, waiter: Waiter,
    errors: Channel,            // runFuncErr
    panics: Option<Channel>,    // panicResult, or nil
    ended: bool,                // the context has ended
    crashed: bool,              // a panic that nobody recovers has ended the process
    produced: Option<Outcome>, uses: seq<(User, Outcome)>)

  datatype Step =
    | ContextEnds
    | FunctionEnds(outcome: Outcome)
    | WorkerSends
    | WorkerDefers
    | CallerSeesEnd
    | CallerGetsError
    | CallerGetsPanic
    | WaiterGetsError
    | WaiterGetsPanic
    | WaiterReports(panics: bool)   // lostErrors itself may panic
    | WaiterCloses

  const ZERO := 0

  /** What a panic about a closed channel carries. */
  const CLOSED := 0

  /** A receive goes through: there is something to receive, or the channel is closed. */
  predicate CanReceive(c: Channel) { c.items != [] || c.closed }

  function Head(c: Channel): nat { if c.items == [] then ZERO else c.items[0] }

  function Rest(c: Channel): Channel { if c.items == [] then c else c.(items := c.items[1..]) }

  predicate CanSend(c: Channel) { c.closed || c.items == [] }

  predicate Possible(s: State, step: Step) {
    match step
    case ContextEnds => !s.ended && !s.crashed
    case FunctionEnds(_) => s.worker.Running? && !s.crashed
    case WorkerSends => s.worker.Sending? && CanSend(s.errors) && !s.crashed
    case WorkerDefers =>
      s.worker.Deferred? && !s.crashed && (s.worker.recovered.Some? && s.panics.Some? ==> CanSend(s.panics.value))
    case CallerSeesEnd => s.caller.Waiting? && s.ended && !s.crashed
    case CallerGetsError => s.caller.Waiting? && CanReceive(s.errors) && !s.crashed
    case CallerGetsPanic => s.caller.Waiting? && s.panics.Some? && CanReceive(s.panics.value) && !s.crashed
    case WaiterGetsError => s.waiter.Listening? && CanReceive(s.errors) && !s.crashed
    case WaiterGetsPanic => s.waiter.Listening? && s.panics.Some? && CanReceive(s.panics.value) && !s.crashed
    case WaiterReports(_) => s.waiter.Reporting? && !s.crashed
    case WaiterCloses => (s.waiter.ClosingErrors? || s.waiter.ClosingPanics?) && !s.crashed
  }

  /** A panic in the worker: the deferred function, if there is one, recovers it. */
  function Panics(s: State, value: nat): State {
    if s.panics.Some? then s.(worker := Deferred(Some(value))) else s.(crashed := true)
  }

  function Leave(s: State): Worker { if s.panics.Some? then Deferred(None) else Gone }

  function Push(c: Channel, v: nat): Channel { c.(items := c.items + [v]) }

  function Close(s: State): State {
    if s.waiter.ClosingErrors? then
      if s.errors.closed then s.(crashed := true)
      else s.(errors := s.errors.(closed := true), waiter := if s.panics.Some? then ClosingPanics else Finished)
    else if s.panics.None? || s.panics.value.closed then s.(crashed := true)
    else s.(panics := Some(s.panics.value.(closed := true)), waiter := Finished)
  }

  function Apply(setup: Setup, s: State, step: Step): State
    requires Possible(s, step)
  {
    match step
    case ContextEnds => s.(ended := true)
    case FunctionEnds(outcome) =>
      var t := s.(produced := Some(outcome));
      (match outcome
       case Error(id) => t.(worker := Sending(id))
       case Panic(value) => Panics(t, value)
       case Exit => t.(worker := Leave(s)))
    case WorkerSends =>
      if s.errors.closed then Panics(s, CLOSED)
      else s.(errors := Push(s.errors, s.worker.err), worker := Leave(s))
    case WorkerDefers =>
      if s.worker.recovered.None? || s.panics.None? then s.(worker := Gone)
      else if s.panics.value.closed then s.(crashed := true)
      else s.(panics := Some(Push(s.panics.value, s.worker.recovered.value)), worker := Gone)
    case CallerSeesEnd => s.(caller := Cancelled, waiter := if setup.lostErrors then Listening else s.waiter)
    case CallerGetsError =>
      s.(errors := Rest(s.errors), caller := Returned, uses := s.uses + [(ReturnedToCaller, Error(Head(s.errors)))])
    case CallerGetsPanic =>
      s.(panics := Some(Rest(s.panics.value)), caller := Returned,
         uses := s.uses + [(RepanickedInCaller, Panic(Head(s.panics.value)))])
    case WaiterGetsError => s.(errors := Rest(s.errors), waiter := Reporting(Error(Head(s.errors))))
    case WaiterGetsPanic => s.(panics := Some(Rest(s.panics.value)), waiter := Reporting(Panic(Head(s.panics.value))))
    case WaiterReports(panics) =>
      s.(uses := s.uses + [(PassedToLostErrors, s.waiter.outcome)], waiter := ClosingErrors, crashed := panics)
    case WaiterCloses => Close(s)
  }

  function Init(setup: Setup): State {
    State(Running, Waiting, Absent, Channel([], false),
          if setup.skipCatchPanics then None else Some(Channel([], false)), false, false, None, [])
  }

  function After(setup: Setup, run: seq<Step>): Option<State>
    decreases |run|
  {
    if run == [] then Some(Init(setup))
    else
      var before := After(setup, run[..|run| - 1]);
      if before.Some? && Possible(before.value, run[|run| - 1])
      then Some(Apply(setup, before.value, run[|run| - 1]))
      else None
  }

  // ---- Where the outcome is ----

  predicate Empty(c: Channel) { c.items == [] && !c.closed }

  predicate NoPanics(s: State) { s.panics.Some? ==> s.panics.value.items == [] }

  /** The outcome has not left the worker. */
  predicate Held(s: State) {
    && Empty(s.errors) && (s.panics.Some? ==> Empty(s.panics.value))
    && s.uses == []
    && (s.waiter.Absent? || s.waiter.Listening?)
  }

  /** It is in the channel that it belongs in. */
  predicate Sent(s: State, outcome: Outcome) {
    && s.uses == [] && !s.errors.closed && (s.panics.Some? ==> !s.panics.value.closed)
    && (s.waiter.Absent? || s.waiter.Listening?)
    && match outcome
       case Error(id) => s.errors.items == [id] && NoPanics(s)
       case Panic(value) => s.errors.items == [] && s.panics.Some? && s.panics.value.items == [value]
       case Exit => false
  }

  /** The caller has it, or the waiter, who closes what nobody uses any more. */
  predicate Received(s: State, outcome: Outcome) {
    && s.errors.items == [] && NoPanics(s) && !outcome.Exit?
    && match s.waiter
       case Absent =>
         && s.caller.Returned? && !s.errors.closed && (s.panics.Some? ==> !s.panics.value.closed)
         && s.uses == [(if outcome.Error? then ReturnedToCaller else RepanickedInCaller, outcome)]
       case Listening => false
       case Reporting(o) =>
         o == outcome && s.uses == [] && !s.errors.closed && (s.panics.Some? ==> !s.panics.value.closed)
       case ClosingErrors =>
         s.uses == [(PassedToLostErrors, outcome)] && !s.errors.closed && (s.panics.Some? ==> !s.panics.value.closed)
       case ClosingPanics =>
         s.uses == [(PassedToLostErrors, outcome)] && s.errors.closed && s.panics.Some? && !s.panics.value.closed
       case Finished => s.uses == [(PassedToLostErrors, outcome)]
  }

  predicate CallerInv(setup: Setup, s: State) {
    && (s.panics.Some? <==> !setup.skipCatchPanics)
    && (s.caller.Waiting? ==> s.waiter.Absent? && s.uses == [])
    && (s.caller.Cancelled? ==> s.ended && (s.waiter.Absent? <==> !setup.lostErrors))
    && (s.caller.Returned? ==> s.waiter.Absent? && s.uses != [])
  }

  predicate OutcomeInv(s: State) {
    match s.worker
    case Running => s.produced.None? && Held(s)
    case Sending(err) => s.produced == Some(Error(err)) && Held(s)
    case Deferred(Some(value)) => s.produced == Some(Panic(value)) && s.panics.Some? && Held(s)
    case _ =>
      s.produced.Some? &&
      if s.produced.value.Exit? then Held(s) else Sent(s, s.produced.value) || Received(s, s.produced.value)
  }

  /** What ends the process: a panic of the function that the wrapper was told not to catch, or one of lostErrors. */
  predicate Excused(setup: Setup, s: State) {
    || (setup.skipCatchPanics && s.produced.Some? && s.produced.value.Panic? && s.uses == [])
    || (s.uses != [] && s.uses[0].0 == PassedToLostErrors)
  }

  ghost predicate Inv(setup: Setup, s: State) {
    && CallerInv(setup, s)
    && |s.uses| <= 1 && (s.uses != [] ==> s.produced == Some(s.uses[0].1) && !s.uses[0].1.Exit?)
    && if s.crashed then Excused(setup, s) else OutcomeInv(s)
  }

  lemma WorkerKeepsInv(setup: Setup, s: State, step: Step)
    requires Inv(setup, s) && Possible(s, step) && (step.FunctionEnds? || step.WorkerSends? || step.WorkerDefers?)
    ensures Inv(setup, Apply(setup, s, step))
  {}

  lemma CallerKeepsInv(setup: Setup, s: State, step: Step)
    requires Inv(setup, s) && Possible(s, step)
    requires step.CallerSeesEnd? || step.CallerGetsError? || step.CallerGetsPanic? || step.ContextEnds?
    ensures Inv(setup, Apply(setup, s, step))
  {}

  lemma WaiterKeepsInv(setup: Setup, s: State, step: Step)
    requires Inv(setup, s) && Possible(s, step)
    requires step.WaiterGetsError? || step.WaiterGetsPanic? || step.WaiterReports? || step.WaiterCloses?
    ensures Inv(setup, Apply(setup, s, step))
  {}

  lemma StepKeepsInv(setup: Setup, s: State, step: Step)
    requires Inv(setup, s) && Possible(s, step)
    ensures Inv(setup, Apply(setup, s, step))
  {
    if step.FunctionEnds? || step.WorkerSends? || step.WorkerDefers? {
      WorkerKeepsInv(setup, s, step);
    } else if step.CallerSeesEnd? || step.CallerGetsError? || step.CallerGetsPanic? || step.ContextEnds? {
      CallerKeepsInv(setup, s, step);
    } else {
      WaiterKeepsInv(setup, s, step);
    }
  }

  lemma {:induction false} EveryRunKeepsInv(setup: Setup, run: seq<Step>)
    requires After(setup, run).Some?
    ensures Inv(setup, After(setup, run).value)
  {
    if run != [] {
      var before := run[..|run| - 1];
      EveryRunKeepsInv(setup, before);
      StepKeepsInv(setup, After(setup, before).value, run[|run| - 1]);
    }
  }

  // ---- What the wrapper promises ----

  /** The outcome of the function is used at most once, by one party, and it is the outcome that is used. */
  lemma {:induction false} UsedAtMostOnce(setup: Setup, run: seq<Step>)
    requires After(setup, run).Some?
    ensures var s := After(setup, run).value;
      |s.uses| <= 1 && (s.uses != [] ==> s.produced == Some(s.uses[0].1) && !s.uses[0].1.Exit?)
  {
    EveryRunKeepsInv(setup, run);
  }

  /** When the worker has something to send, its channel is open and has room: the send neither blocks nor panics. */
  lemma {:induction false} SendsGoThrough(setup: Setup, run: seq<Step>)
    requires After(setup, run).Some? && !After(setup, run).value.crashed
    ensures var s := After(setup, run).value;
      && (s.worker.Sending? ==> Empty(s.errors))
      && (s.worker.Deferred? && s.worker.recovered.Some? ==> s.panics.Some? && Empty(s.panics.value))
  {
    EveryRunKeepsInv(setup, run);
  }

  /** Whoever receives gets the outcome, never the zero value of a closed channel. */
  lemma {:induction false} ReceivesAreGenuine(setup: Setup, run: seq<Step>)
    requires After(setup, run).Some? && !After(setup, run).value.crashed
    ensures var s := After(setup, run).value;
      s.caller.Waiting? || s.waiter.Listening? ==>
        && (CanReceive(s.errors) ==> s.errors.items != [] && s.produced == Some(Error(Head(s.errors))))
        && (s.panics.Some? && CanReceive(s.panics.value) ==>
              s.panics.value.items != [] && s.produced == Some(Panic(Head(s.panics.value))))
  {
    EveryRunKeepsInv(setup, run);
  }

  /** Whatever ended the process came from the function or from lostErrors. */
  lemma {:induction false} CrashesAreExcused(setup: Setup, run: seq<Step>)
    requires After(setup, run).Some? && After(setup, run).value.crashed
    ensures Excused(setup, After(setup, run).value)
  {
    EveryRunKeepsInv(setup, run);
  }

  /** More exactly, over every run: the one step that can end the process is the end of a function that panics and was
      not to be caught, or a report to a lostErrors that panics; no send and no close ever does. */
  lemma {:induction false} CrashesExactly(setup: Setup, run: seq<Step>, step: Step)
    requires After(setup, run).Some? && Possible(After(setup, run).value, step)
    ensures Apply(setup, After(setup, run).value, step).crashed <==>
      || (setup.skipCatchPanics && step.FunctionEnds? && step.outcome.Panic?)
      || step == WaiterReports(true)
  {
    EveryRunKeepsInv(setup, run);
  }

  /** Nothing is left to do but, perhaps, for the context to end. */
  ghost predicate Quiet(s: State) { !s.crashed && forall step :: Possible(s, step) ==> step.ContextEnds? }

  /** When all is quiet the function has ended, and its outcome was used, exactly once, unless there was none or it got
      lost: the caller had left and nobody listens for lost errors. */
  lemma {:induction false} QuietMeansUsed(setup: Setup, run: seq<Step>)
    requires After(setup, run).Some? && Quiet(After(setup, run).value)
    ensures var s := After(setup, run).value;
      && s.worker.Gone? && s.produced.Some?
      && (|s.uses| == 1 <==> !s.produced.value.Exit? && (s.caller.Returned? || setup.lostErrors))
      && (s.uses == [] && !s.produced.value.Exit? ==>
            s.caller.Cancelled? && !setup.lostErrors && Sent(s, s.produced.value))
  {
    EveryRunKeepsInv(setup, run);
    var s := After(setup, run).value;
    assert !Possible(s, FunctionEnds(Exit)) && !Possible(s, WorkerSends) && !Possible(s, WorkerDefers);
    assert !Possible(s, CallerSeesEnd) && !Possible(s, CallerGetsError) && !Possible(s, CallerGetsPanic);
    assert !Possible(s, WaiterGetsError) && !Possible(s, WaiterGetsPanic) && !Possible(s, WaiterReports(false));
  }

  function Work(s: State): nat {
    (if s.ended then 0 else 1) + (if s.crashed then 0 else 1) +
    (match s.worker case Running => 3 case Sending(_) => 2 case Deferred(_) => 1 case Gone => 0) +
    (if s.caller.Waiting? then 5 else 0) +
    (match s.waiter
     case Listening => 4
     case Reporting(_) => 3
     case ClosingErrors => 2
     case ClosingPanics => 1
     case _ => 0)
  }

  lemma StepDoesWork(setup: Setup, s: State, step: Step)
    requires Possible(s, step)
    ensures Work(Apply(setup, s, step)) < Work(s)
  {}

  /** Every run ends, after at most ten steps. */
  lemma {:induction false} RunsEnd(setup: Setup, run: seq<Step>)
    requires After(setup, run).Some?
    ensures |run| + Work(After(setup, run).value) <= 10
  {
    if run != [] {
      var before := run[..|run| - 1];
      RunsEnd(setup, before);
      StepDoesWork(setup, After(setup, before).value, run[|run| - 1]);
    }
  }
}
