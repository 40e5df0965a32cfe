/** The machine that circuit_property_test.go runs beside the circuit, with the overrides and Prevent added. */
module ReferenceMachine {
  import opened Base
  import opened Counting
  import Spec = SequentialSpec

  // ---- The machine ----

  datatype Machine = Machine(
    isOpen: bool, allow: bool, wantOpen: bool, wantClose: bool, prevent: bool, forceOpen: bool, forcedClosed: bool,
    executeN: nat, fallbackN: nat, openedN: nat, closedN: nat)

  datatype Outcome = Succeeds | Fails | IsBad

  datatype Fallback = NoFallback | FallbackSucceeds | FallbackFails

  datatype Op =
    | Exec(outcome: Outcome, fallback: Fallback)
    | Open
    | Close
    | SetWantOpen(b: bool)
    | SetAllow(b: bool)
    | SetWantClose(b: bool)
    | SetPrevent(b: bool)
    | SetForceOpen(b: bool)
    | SetForcedClosed(b: bool)
    | AdvanceClock(d: nat)

  function MoveTo(m: Machine, open: bool): Machine {
    if m.isOpen == open then m
    else if open then m.(isOpen := true, openedN := m.openedN + 1)
    else m.(isOpen := false, closedN := m.closedN + 1)
  }

  /** The circuit refuses to try. */
  predicate ShortCircuits(m: Machine) { m.forceOpen || (!m.forcedClosed && m.isOpen && !m.allow) }

  function Apply(m: Machine, op: Op): Machine {
    match op
    case Exec(outcome, fallback) =>
      var rejected := ShortCircuits(m) || m.prevent;
      var m1 := if ShortCircuits(m) || !m.prevent then m.(executeN := m.executeN + 1) else m;
      var m2 :=
        if rejected then m1
        else if outcome.Succeeds? && m1.wantClose then MoveTo(m1, false)
        else if outcome.Fails? && m1.wantOpen && !m1.forcedClosed then MoveTo(m1, true)
        else m1;
      if (rejected || outcome.Fails?) && !fallback.NoFallback? then m2.(fallbackN := m2.fallbackN + 1) else m2
    case Open => MoveTo(m, true)
    case Close => MoveTo(m, false)
    case SetWantOpen(b) => m.(wantOpen := b)
    case SetAllow(b) => m.(allow := b)
    case SetWantClose(b) => m.(wantClose := b)
    case SetPrevent(b) => m.(prevent := b)
    case SetForceOpen(b) => m.(forceOpen := b)
    case SetForcedClosed(b) => m.(forcedClosed := b)
    case AdvanceClock(_) => m
  }

  function ApplyAll(m: Machine, ops: seq<Op>): Machine {
    if ops == [] then m else Apply(ApplyAll(m, ops[..|ops| - 1]), ops[|ops| - 1])
  }

  function Start(): Machine { Machine(false, false, false, false, false, false, false, 0, 0, 0, 0) }

  // ---- The circuit, with the opener and the closer that do as they are told ----

  datatype Opener = Opener(wantOpen: bool, prevent: bool)

  datatype Closer = Closer(allow: bool, wantClose: bool)

  function Commandable(): Spec.Logic<Opener, Closer> {
    Spec.Logic(
      (o: Opener, _: int) => (o.prevent, o),
      (o: Opener, _: int) => (o.wantOpen, o),
      (o: Opener, _: Spec.RunEvent) => o,
      (o: Opener, _: Spec.Transition) => o,
      (c: Closer, _: int) => (c.allow, c),
      (c: Closer, _: int) => (c.wantClose, c),
      (c: Closer, _: Spec.RunEvent) => c,
      (c: Closer, _: Spec.Transition) => c)
  }

  type State = Spec.State<Opener, Closer>

  function Command(outcome: Outcome): Spec.Script<Opener, Closer> {
    match outcome
    case Succeeds => Spec.Return(None)
    case Fails => Spec.Return(Some(Spec.UserError(0, false)))
    case IsBad => Spec.Return(Some(Spec.UserError(0, true)))
  }

  function FallbackFunc(fallback: Fallback): Option<Spec.Script<Opener, Closer>> {
    match fallback
    case NoFallback => None
    case FallbackSucceeds => Some(Spec.Return(None))
    case FallbackFails => Some(Spec.Return(Some(Spec.UserError(0, false))))
  }

  /** The operation on the circuit that a test operation stands for. */
  function Real(s: State, op: Op): Spec.Op<Opener, Closer> {
    match op
    case Exec(outcome, fallback) => Spec.Execute(Spec.Call(Some(Command(outcome)), FallbackFunc(fallback), None, 0))
    case Open => Spec.OpenCircuit
    case Close => Spec.CloseCircuit
    case SetWantOpen(b) => Spec.Retune(s.opener.(wantOpen := b), s.closer)
    case SetAllow(b) => Spec.Retune(s.opener, s.closer.(allow := b))
    case SetWantClose(b) => Spec.Retune(s.opener, s.closer.(wantClose := b))
    case SetPrevent(b) => Spec.Retune(s.opener.(prevent := b), s.closer)
    case SetForceOpen(b) => Spec.Configure(s.settings.(forceOpen := b))
    case SetForcedClosed(b) => Spec.Configure(s.settings.(forcedClosed := b))
    case AdvanceClock(d) => Spec.Tick(d)
  }

  function RunAll(s: State, ops: seq<Op>): State {
    if ops == [] then s
    else
      var before := RunAll(s, ops[..|ops| - 1]);
      Spec.After(Commandable(), before, Real(before, ops[|ops| - 1]))
  }

  /** The settings of the test: no limits that a sequential caller could reach, and commands that take no time. */
  predicate TestSettings(settings: Spec.Settings) {
    && !settings.disabled && settings.maxConcurrent < 0
    && !settings.fallbackDisabled && settings.maxFallbacks < 0
  }

  function IsOpening(): Spec.Transition -> bool { (t: Spec.Transition) => t.open }

  function IsClosing(): Spec.Transition -> bool { (t: Spec.Transition) => !t.open }

  /** The circuit and the machine agree on all that the test compares. */
  ghost predicate Agrees(s: State, m: Machine) {
    && TestSettings(s.settings)
    && s.settings.forceOpen == m.forceOpen && s.settings.forcedClosed == m.forcedClosed
    && s.isOpen == m.isOpen
    && s.opener == Opener(m.wantOpen, m.prevent)
    && s.closer == Closer(m.allow, m.wantClose)
    && |s.heard.runs| == m.executeN
    && |s.heard.fallbacks| == m.fallbackN
    && Count(s.heard.moves, IsOpening()) == m.openedN
    && Count(s.heard.moves, IsClosing()) == m.closedN
    && s.commands == s.fallbacks == 0
  }

  lemma MoveAgrees(s: State, m: Machine, t: Spec.Transition)
    requires Agrees(s, m) && s.isOpen != t.open
    ensures Agrees(Spec.Move(Commandable(), s, t), MoveTo(m, t.open))
  {
    CountOfAppend(s.heard.moves, IsOpening(), t);
    CountOfAppend(s.heard.moves, IsClosing(), t);
  }

  function Judged(outcome: Outcome): Spec.Kind {
    match outcome
    case Succeeds => Spec.Success
    case Fails => Spec.Failure
    case IsBad => Spec.BadRequest
  }

  function Returned(outcome: Outcome): Option<Spec.Error> { Command(outcome).err }

  function Moved(m: Machine, outcome: Outcome): Machine {
    if outcome.Succeeds? && m.wantClose then MoveTo(m, false)
    else if outcome.Fails? && m.wantOpen && !m.forcedClosed then MoveTo(m, true)
    else m
  }

  /** The machine after a command that was allowed to run. */
  function Ran(m: Machine, outcome: Outcome): Machine { Moved(m.(executeN := m.executeN + 1), outcome) }

  lemma SettleAgrees(s: State, m: Machine, outcome: Outcome)
    requires Agrees(s, m) && !m.forceOpen
    ensures Agrees(Spec.Settle(Commandable(), s, Judged(outcome), s.clock), Moved(m, outcome))
  {
    MoveAgrees(s, m, Spec.Stamp(s, !s.isOpen, s.clock));
  }

  lemma TellAgrees(s: State, m: Machine, e: Spec.RunEvent)
    requires Agrees(s, m)
    ensures Agrees(Spec.Tell(Commandable(), s, e, 0), m.(executeN := m.executeN + 1))
  {}

  lemma JudgeAgrees(s: State, m: Machine, outcome: Outcome, timeout: int, call: Spec.Call<Opener, Closer>)
    requires Agrees(s, m) && !m.forceOpen && call.ended.None? && call.lag == 0
    ensures Agrees(Spec.Judge(Commandable(), s, s.clock, timeout, Returned(outcome), call), Ran(m, outcome))
  {
    var e := Spec.RunEvent(Judged(outcome), s.clock, 0);
    TellAgrees(s, m, e);
    var told := Spec.Tell(Commandable(), s, e, 0);
    assert Spec.Judge(Commandable(), s, s.clock, timeout, Returned(outcome), call) ==
      Spec.Settle(Commandable(), told, Judged(outcome), told.clock);
    SettleAgrees(told, m.(executeN := m.executeN + 1), outcome);
  }

  /** The machine when it is time for the fallback. */
  function Tried(m: Machine, outcome: Outcome): Machine {
    if ShortCircuits(m) then m.(executeN := m.executeN + 1) else if m.prevent then m else Ran(m, outcome)
  }

  /** What the command returns, or the refusal. */
  function Reported(m: Machine, outcome: Outcome): Option<Spec.Error> {
    if ShortCircuits(m) || m.prevent then Some(Spec.CircuitOpen) else Returned(outcome)
  }

  /** The command's own count plays no part in the verdict. */
  lemma RanIgnoresCommands(s: State, outcome: Outcome, timeout: int, call: Spec.Call<Opener, Closer>)
    ensures var t := Spec.Judge(Commandable(), s, s.clock, timeout, Returned(outcome), call);
      Spec.Judge(Commandable(), s.(commands := s.commands + 1), s.clock, timeout, Returned(outcome), call) ==
        t.(commands := s.commands + 1)
  {}

  lemma CommandAgrees(s: State, m: Machine, outcome: Outcome, timeout: int, call: Spec.Call<Opener, Closer>)
    requires Agrees(s, m) && !m.forceOpen && call.ended.None? && call.lag == 0
    ensures
      var ending := Spec.Returned(Returned(outcome));
      Agrees(Spec.AfterCommand(Commandable(), s.(commands := s.commands + 1), s.clock, timeout, ending, call),
             Ran(m, outcome))
  {
    JudgeAgrees(s, m, outcome, timeout, call);
    RanIgnoresCommands(s, outcome, timeout, call);
  }

  lemma AdmitAgrees(s: State, m: Machine)
    requires Agrees(s, m)
    ensures var (admission, s1) := Spec.Admit(Commandable(), s);
      && Agrees(s1, m) && s1.clock == s.clock && s1.settings == s.settings
      && admission ==
           if ShortCircuits(m) then Spec.Denied(Some(Spec.RunEvent(Spec.ShortCircuit, s.clock, 0)), Spec.CircuitOpen)
           else if m.prevent then Spec.Denied(None, Spec.CircuitOpen)
           else Spec.Admitted
  {}

  lemma RefusalAgrees(s: State, m: Machine, outcome: Outcome, call: Spec.Call<Opener, Closer>)
    requires Agrees(s, m) && call.lag == 0 && (ShortCircuits(m) || m.prevent)
    ensures var (t, ending) := Spec.AfterRun(Commandable(), s, Command(outcome), call);
      Agrees(t, Tried(m, outcome)) && ending == Spec.Returned(Some(Spec.CircuitOpen))
  {
    AdmitAgrees(s, m);
    var (admission, s1) := Spec.Admit(Commandable(), s);
    if ShortCircuits(m) { TellAgrees(s1, m, admission.event.value); }
  }

  lemma CommandEnds(s: State, s1: State, outcome: Outcome)
    requires Spec.Admit(Commandable(), s) == (Spec.Admitted, s1)
    ensures Spec.Ended(Commandable(), s, Command(outcome)) ==
      (s1.(commands := s1.commands + 1), Spec.Returned(Returned(outcome)))
  {}

  lemma RunAgrees(s: State, m: Machine, outcome: Outcome, call: Spec.Call<Opener, Closer>)
    requires Agrees(s, m) && call.ended.None? && call.lag == 0
    ensures var (t, ending) := Spec.AfterRun(Commandable(), s, Command(outcome), call);
      Agrees(t, Tried(m, outcome)) && ending == Spec.Returned(Reported(m, outcome))
  {
    if ShortCircuits(m) || m.prevent {
      RefusalAgrees(s, m, outcome, call);
    } else {
      AdmitAgrees(s, m);
      var (admission, s1) := Spec.Admit(Commandable(), s);
      CommandEnds(s, s1, outcome);
      CommandAgrees(s1, m, outcome, s1.settings.timeout, call);
    }
  }

  lemma FallbackAgrees(s: State, m: Machine, err: Spec.Error, fallback: Fallback)
    requires Agrees(s, m)
    ensures Agrees(Spec.AfterFallback(Commandable(), s, err, FallbackFunc(fallback)).0,
                   if fallback.NoFallback? then m else m.(fallbackN := m.fallbackN + 1))
  {}

  /** The machine, after the command, takes note of the fallback. */
  function Replied(m: Machine, err: Option<Spec.Error>, fallback: Fallback): Machine {
    if err.Some? && !Spec.IsBadRequest(err.value) && !fallback.NoFallback? then m.(fallbackN := m.fallbackN + 1) else m
  }

  lemma ApplyInTwoSteps(m: Machine, outcome: Outcome, fallback: Fallback)
    ensures Apply(m, Exec(outcome, fallback)) == Replied(Tried(m, outcome), Reported(m, outcome), fallback)
  {}

  lemma ReplyAgrees(s: State, m: Machine, ending: Spec.Ending, fallback: Fallback)
    requires Agrees(s, m) && ending.Returned?
    ensures Agrees(Spec.Reply(Commandable(), s, ending, FallbackFunc(fallback)).0,
                   Replied(m, ending.err, fallback))
  {
    if ending.err.Some? { FallbackAgrees(s, m, ending.err.value, fallback); }
  }

  lemma ExecAgrees(s: State, m: Machine, outcome: Outcome, fallback: Fallback)
    requires Agrees(s, m)
    ensures Agrees(Spec.After(Commandable(), s, Real(s, Exec(outcome, fallback))), Apply(m, Exec(outcome, fallback)))
  {
    var call := Real(s, Exec(outcome, fallback)).call;
    RunAgrees(s, m, outcome, call);
    var (t, ending) := Spec.AfterRun(Commandable(), s, Command(outcome), call);
    ReplyAgrees(Spec.Counted(t), Tried(m, outcome), ending, fallback);
    ApplyInTwoSteps(m, outcome, fallback);
  }

  lemma TransitionAgrees(s: State, m: Machine, open: bool)
    requires Agrees(s, m)
    ensures
      var op := if open then Open else Close;
      Agrees(Spec.After(Commandable(), s, Real(s, op)), Apply(m, op))
  {
    if s.isOpen != open { MoveAgrees(s, m, Spec.Transition(open, s.clock)); }
  }

  lemma TuningAgrees(s: State, m: Machine, op: Op)
    requires Agrees(s, m) && (op.SetWantOpen? || op.SetAllow? || op.SetWantClose? || op.SetPrevent?)
    ensures Agrees(Spec.After(Commandable(), s, Real(s, op)), Apply(m, op))
  {}

  lemma SettingAgrees(s: State, m: Machine, op: Op)
    requires Agrees(s, m) && (op.SetForceOpen? || op.SetForcedClosed? || op.AdvanceClock?)
    ensures Agrees(Spec.After(Commandable(), s, Real(s, op)), Apply(m, op))
  {}

  lemma StepAgrees(s: State, m: Machine, op: Op)
    requires Agrees(s, m)
    ensures Agrees(Spec.After(Commandable(), s, Real(s, op)), Apply(m, op))
  {
    match op
    case Exec(outcome, fallback) => ExecAgrees(s, m, outcome, fallback);
    case Open => TransitionAgrees(s, m, true);
    case Close => TransitionAgrees(s, m, false);
    case SetWantOpen(_) => TuningAgrees(s, m, op);
    case SetAllow(_) => TuningAgrees(s, m, op);
    case SetWantClose(_) => TuningAgrees(s, m, op);
    case SetPrevent(_) => TuningAgrees(s, m, op);
    case _ => SettingAgrees(s, m, op);
  }

  /** The circuit and the machine never come apart, whatever the operations. */
  lemma {:induction false} CircuitAgreesWithMachine(settings: Spec.Settings, clock: int, ops: seq<Op>)
    requires TestSettings(settings) && !settings.forceOpen && !settings.forcedClosed
    ensures Agrees(RunAll(Spec.Init(settings, clock, Opener(false, false), Closer(false, false)), ops),
                   ApplyAll(Start(), ops))
  {
    var init := Spec.Init(settings, clock, Opener(false, false), Closer(false, false));
    if ops == [] {
      assert Agrees(init, Start());
    } else {
      CircuitAgreesWithMachine(settings, clock, ops[..|ops| - 1]);
      StepAgrees(RunAll(init, ops[..|ops| - 1]), ApplyAll(Start(), ops[..|ops| - 1]), ops[|ops| - 1]);
    }
  }
}
