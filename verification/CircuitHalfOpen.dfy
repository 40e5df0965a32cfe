/** The hystrix Closer inside CircuitProtocol: who may close the circuit, and that closer and circuit agree. */
module CircuitHalfOpen {
  import opened Base
  import opened CircuitProtocol
  import Closer = HystrixCloser
  import Delivery = CircuitDelivery

  /** The closer has been told about every flip. Holds whenever transitionMu is free. */
  predicate Settled(h: History) { |h.told| == |h.flips| }

  /** How many successes were counted since the last counted failure or reset. */
  function Streak(results: seq<Result>): (n: nat)
    ensures n <= |results|
  {
    if results == [] || !results[|results| - 1].Good? then 0 else 1 + Streak(results[..|results| - 1])
  }

  /** Allow granted the request in this open episode, or ForcedClosed waved it through. */
  predicate Probe(adm: Admission, episode: nat) {
    adm.via.ByForced? || (adm.via.ByGrant? && adm.episode == episode)
  }

  ghost predicate StreakOfProbes(results: seq<Result>, episode: nat) {
    forall i :: |results| - Streak(results) <= i < |results| ==> results[i].Good? && Probe(results[i].adm, episode)
  }

  /** An admission that its history allows: no ForcedClosed unless it is ever used, and a granted request started at
      least a sleep window after the closer was armed. */
  predicate Lawful(cfg: Settings, start: int, adm: Admission) {
    && (adm.via.ByForced? ==> cfg.mayForce)
    && (adm.via.ByGrant? ==> start >= adm.via.armedAt + cfg.closer.sleepWindow)
  }

  ghost predicate Backed(cfg: Settings, h: History, asked: nat, episode: nat) {
    && asked <= |h.results|
    && Streak(h.results[..asked]) >= cfg.closer.required
    && StreakOfProbes(h.results[..asked], episode)
  }

  ghost predicate Agreement(cfg: Settings, s: Shared) {
    var told := s.hist.told;
    && (Settled(s.hist) ==>
          && (s.isOpen ==> told != [] && s.closer.openedAt == Some(told[|told| - 1].now))
          && (!s.isOpen ==> s.closer.openedAt.None?)
          && (!s.isOpen && told != [] ==> s.closer.closedAt == Some(told[|told| - 1].now)))
    && (s.closer.openedAt.Some? ==> s.closer.window.nextOpen >= s.closer.openedAt.value + cfg.closer.sleepWindow)
  }

  ghost predicate LawfulResults(cfg: Settings, rs: seq<Result>) {
    forall i :: 0 <= i < |rs| && rs[i].Good? ==> Lawful(cfg, rs[i].start, rs[i].adm)
  }

  ghost predicate DistinctCalls(rs: seq<Result>) {
    forall i, j :: 0 <= i < j < |rs| && rs[i].Good? && rs[j].Good? ==> rs[i].call != rs[j].call
  }

  ghost predicate Tally(cfg: Settings, s: Shared) {
    && s.closer.successes == Streak(s.hist.results)
    && (Settled(s.hist) ==> StreakOfProbes(s.hist.results, |s.hist.flips|))
    && LawfulResults(cfg, s.hist.results)
    && (s.forcedClosed ==> cfg.mayForce)
  }

  ghost predicate ClosesBacked(cfg: Settings, h: History) {
    forall i :: 0 <= i < |h.autoCloses| ==>
      && Backed(cfg, h, h.autoCloses[i].asked, h.autoCloses[i].episode)
      && h.autoCloses[i].episode < |h.flips| && h.autoCloses[i].episode % 2 == 1
  }

  ghost predicate SharedInv(cfg: Settings, s: Shared) {
    Agreement(cfg, s) && Tally(cfg, s) && ClosesBacked(cfg, s.hist)
  }

  /** The request started before the last flip if that came after it was seen to have flipped `episode` times. */
  predicate SeenAt(s: Shared, start: int, episode: nat) {
    && start <= s.clock
    && episode <= |s.hist.flips|
    && (episode < |s.hist.flips| ==> start <= s.hist.flips[|s.hist.flips| - 1])
  }

  predicate AdmittedAt(cfg: Settings, s: Shared, start: int, adm: Admission) {
    && SeenAt(s, start, adm.episode)
    && (adm.via.ByClosed? && adm.episode == |s.hist.flips| ==> !s.isOpen)
    && Lawful(cfg, start, adm)
  }

  ghost predicate PcInv(cfg: Settings, s: Shared, pc: Pc) {
    match pc
    case Gating(g) =>
      (match g
       case Arrive => true
       case AskForceOpen(start) => start <= s.clock
       case AskForcedClosed(start) => start <= s.clock
       case AskIsOpen(start) => start <= s.clock
       case AskLimit(start, seen) => SeenAt(s, start, seen) && seen % 2 == 1
       case AskCloser(start, seen) => SeenAt(s, start, seen) && seen % 2 == 1
       case AskOpener(start, adm) => AdmittedAt(cfg, s, start, adm)
       case Acquire(start, adm) => AdmittedAt(cfg, s, start, adm)
       case Acquired(start, adm, _) => AdmittedAt(cfg, s, start, adm))
    case Running(r) => AdmittedAt(cfg, s, r.start, r.adm)
    case Committing(k) => k.Flip? && k.move.auto && !k.move.open ==> Backed(cfg, s.hist, k.asked, |s.hist.flips|)
    case _ => true
  }

  predicate BeforeReport(pc: Pc) { pc.Gating? || pc.Running? }

  /** No request is counted twice. */
  ghost predicate CountedOnce(w: World) {
    var rs := w.shared.hist.results;
    && (forall i :: 0 <= i < |rs| && rs[i].Good? ==> rs[i].call < |w.calls| && !BeforeReport(w.calls[rs[i].call].pc))
    && DistinctCalls(rs)
  }

  ghost predicate Inv(cfg: Settings, w: World) {
    && Delivery.Inv(w)
    && SharedInv(cfg, w.shared)
    && (forall t :: 0 <= t < |w.calls| ==> PcInv(cfg, w.shared, w.calls[t].pc))
    && CountedOnce(w)
  }

  /** What a step of any other call leaves alone for call u. */
  ghost predicate Rely(s: Shared, s': Shared, u: nat) {
    && s.clock <= s'.clock
    && s.hist.flips <= s'.hist.flips && s.hist.results <= s'.hist.results
    && (forall i :: |s.hist.flips| <= i < |s'.hist.flips| ==> s.clock <= s'.hist.flips[i])
    && (|s.hist.flips| == |s'.hist.flips| ==> s.isOpen == s'.isOpen)
    && (s.lock == Some(u) ==> s.hist.flips == s'.hist.flips)
  }

  lemma PrefixOfPrefix<T>(a: seq<T>, b: seq<T>, n: nat)
    requires a <= b && n <= |a|
    ensures a[..n] == b[..n]
  {}

  lemma RelyKeepsPc(cfg: Settings, s: Shared, s': Shared, u: nat, pc: Pc)
    requires PcInv(cfg, s, pc) && Rely(s, s', u) && (HoldsLock(pc) ==> s.lock == Some(u))
    ensures PcInv(cfg, s', pc)
  {
    if pc.Committing? && pc.k.Flip? && pc.k.move.auto && !pc.k.move.open {
      PrefixOfPrefix(s.hist.results, s'.hist.results, pc.k.asked);
    }
  }

  lemma AppendedResults(results: seq<Result>, more: Result)
    ensures Streak(results + [more]) == if more.Good? then Streak(results) + 1 else 0
  {
    assert (results + [more])[..|results|] == results;
  }

  lemma ClosesStayBacked(cfg: Settings, h: History, h': History)
    requires ClosesBacked(cfg, h) && h.results <= h'.results && h.flips <= h'.flips && h.autoCloses == h'.autoCloses
    ensures ClosesBacked(cfg, h')
  {
    forall i | 0 <= i < |h.autoCloses|
      ensures Backed(cfg, h', h.autoCloses[i].asked, h.autoCloses[i].episode)
    {
      assert Backed(cfg, h, h.autoCloses[i].asked, h.autoCloses[i].episode);
      PrefixOfPrefix(h.results, h'.results, h.autoCloses[i].asked);
    }
  }

  /** A step of call t turned s into s' and its program counter into pc'. */
  ghost predicate Kept(cfg: Settings, s: Shared, s': Shared, t: nat, pc': Pc) {
    SharedInv(cfg, s') && PcInv(cfg, s', pc') && forall u :: u != t ==> Rely(s, s', u)
  }

  predicate SameCloser(s: Shared, s': Shared) {
    && s.closer == s'.closer && s.isOpen == s'.isOpen && s.clock == s'.clock && s.forcedClosed == s'.forcedClosed
    && s.hist.told == s'.hist.told && s.hist.flips == s'.hist.flips
    && s.hist.results == s'.hist.results && s.hist.autoCloses == s'.hist.autoCloses
  }

  lemma SameCloserKept(cfg: Settings, s: Shared, s': Shared, t: nat, pc': Pc)
    requires SharedInv(cfg, s) && SameCloser(s, s') && PcInv(cfg, s', pc')
    ensures Kept(cfg, s, s', t, pc')
  {
    ClosesStayBacked(cfg, s.hist, s'.hist);
  }

  lemma FlipKept(cfg: Settings, s: Shared, t: nat, c: Call, move: Move, asked: nat)
    requires Delivery.SharedInv(s) && Delivery.CallInv(s, t, c) && c.pc == Committing(Flip(move, asked))
    requires SharedInv(cfg, s) && PcInv(cfg, s, c.pc)
    ensures Kept(cfg, s, Flipping(s, move, asked), t, Committing(Stamp(move)))
  {
    var s' := Flipping(s, move, asked);
    forall i | 0 <= i < |s'.hist.autoCloses|
      ensures Backed(cfg, s'.hist, s'.hist.autoCloses[i].asked, s'.hist.autoCloses[i].episode)
      ensures s'.hist.autoCloses[i].episode < |s'.hist.flips| && s'.hist.autoCloses[i].episode % 2 == 1
    {
      if i < |s.hist.autoCloses| {
        assert Backed(cfg, s.hist, s.hist.autoCloses[i].asked, s.hist.autoCloses[i].episode);
      }
    }
  }

  lemma TellKept(cfg: Settings, s: Shared, t: nat, c: Call, move: Move)
    requires Delivery.SharedInv(s) && Delivery.CallInv(s, t, c) && c.pc == Committing(TellCloser(move))
    requires SharedInv(cfg, s)
    ensures Kept(cfg, s, Telling(cfg, s, move), t, Committing(TellOpener(move)))
  {
    var s' := Telling(cfg, s, move);
    AppendedResults(s.hist.results, Wiped);
    ClosesStayBacked(cfg, s.hist, s'.hist);
  }

  /** An Allow that arrives after a close, however late, finds that close too recent to arm anything. */
  lemma LateAllowDoesNotArm(cfg: Settings, s: Shared, start: int, seen: nat)
    requires Delivery.SharedInv(s) && Agreement(cfg, s) && cfg.closer.sleepWindow > 0
    requires SeenAt(s, start, seen) && seen % 2 == 1 && Settled(s.hist)
    ensures !Closer.SelfArms(s.closer, cfg.closer, start)
  {}

  lemma SelfArmKept(cfg: Settings, s: Shared, t: nat, c: Call, start: int, seen: nat)
    requires Delivery.SharedInv(s) && cfg.closer.sleepWindow > 0 && Closer.SelfArms(s.closer, cfg.closer, start)
    requires SharedInv(cfg, s) && c.pc == Gating(AskCloser(start, seen)) && PcInv(cfg, s, c.pc)
    ensures var (s', c') := StepAskCloser(cfg, s, c, start); Kept(cfg, s, s', t, c'.pc)
  {
    var (s', c') := StepAskCloser(cfg, s, c, start);
    if Settled(s.hist) { LateAllowDoesNotArm(cfg, s, start, seen); }
    AppendedResults(s.hist.results, Wiped);
    ClosesStayBacked(cfg, s.hist, s'.hist);
  }

  lemma AskCloserKept(cfg: Settings, s: Shared, t: nat, c: Call, start: int, seen: nat)
    requires Delivery.SharedInv(s) && cfg.closer.sleepWindow > 0
    requires SharedInv(cfg, s) && c.pc == Gating(AskCloser(start, seen)) && PcInv(cfg, s, c.pc)
    ensures var (s', c') := StepAskCloser(cfg, s, c, start); Kept(cfg, s, s', t, c'.pc)
  {
    if Closer.SelfArms(s.closer, cfg.closer, start) {
      SelfArmKept(cfg, s, t, c, start, seen);
    } else {
      var (s', c') := StepAskCloser(cfg, s, c, start);
      assert s'.hist.results == s.hist.results;
      ClosesStayBacked(cfg, s.hist, s'.hist);
    }
  }

  /** While closer and circuit agree, only a probe of this episode is counted. */
  lemma OnlyProbesCount(cfg: Settings, s: Shared, start: int, done: int, adm: Admission)
    requires Delivery.SharedInv(s) && Agreement(cfg, s) && AdmittedAt(cfg, s, start, adm) && Settled(s.hist)
    requires Closer.StartedWhileOpen(s.closer, done, done - start)
    ensures Probe(adm, |s.hist.flips|)
  {}

  lemma CountedReportKept(cfg: Settings, s: Shared, s': Shared, more: Result)
    requires Delivery.SharedInv(s) && SharedInv(cfg, s) && !more.Wiped?
    requires more.Good? ==> Lawful(cfg, more.start, more.adm) && (Settled(s.hist) ==> Probe(more.adm, |s.hist.flips|))
    requires s' == s.(closer := s'.closer, hist := s.hist.(results := s.hist.results + [more]))
    requires s'.closer == s.closer.(successes := if more.Good? then s.closer.successes + 1 else 0)
    ensures SharedInv(cfg, s') && forall u :: Rely(s, s', u)
  {
    AppendedResults(s.hist.results, more);
    ClosesStayBacked(cfg, s.hist, s'.hist);
  }

  lemma ReportKept(cfg: Settings, s: Shared, t: nat, c: Call, start: int, done: int, adm: Admission, outcome: Outcome,
                   heard: bool)
    requires Delivery.SharedInv(s) && SharedInv(cfg, s) && AdmittedAt(cfg, s, start, adm)
    ensures var (s', c') := StepReport(s, t, c, start, done, adm, outcome, heard); Kept(cfg, s, s', t, c'.pc)
  {
    var (s', c') := StepReport(s, t, c, start, done, adm, outcome, heard);
    if Closer.StartedWhileOpen(s.closer, done, done - start) && !outcome.Ignored? {
      if Settled(s.hist) { OnlyProbesCount(cfg, s, start, done, adm); }
      CountedReportKept(cfg, s, s', if outcome.Succeeded? then Good(t, start, adm) else Bad);
    } else {
      assert s.hist.results + [] == s.hist.results;
      SameCloserKept(cfg, s, s', t, c'.pc);
    }
  }

  /** The steps that leave the closer and its record alone, and what they do to the caller's place. */
  predicate Elsewhere(s: Shared, c: Call, s': Shared, c': Call) {
    SameCloser(s, s') && (!BeforeReport(c.pc) ==> !BeforeReport(c'.pc))
  }

  lemma MoveElsewhere(s: Shared, t: nat, c: Call, m: MovePc)
    ensures var (s', c') := StepMove(s, t, c, m); Elsewhere(s, c, s', c') && !BeforeReport(c'.pc)
  {}

  lemma CommitElsewhere(cfg: Settings, s: Shared, c: Call, k: CommitPc, x: Choice)
    requires !k.Flip? && !k.TellCloser?
    ensures var (s', c') := StepCommit(cfg, s, c, k, x); Elsewhere(s, c, s', c')
  {}

  lemma DrainElsewhere(s: Shared, t: nat, c: Call, d: DrainPc, x: Choice)
    ensures var (s', c') := StepDrain(s, t, c, d, x);
      Elsewhere(s, c, s', c') && !BeforeReport(c'.pc) && !c'.pc.Committing?
  {}

  lemma VerdictElsewhere(cfg: Settings, s: Shared, c: Call, v: VerdictPc, x: Choice)
    ensures var (s', c') := StepVerdict(cfg, s, c, v, x);
      Elsewhere(s, c, s', c') && !BeforeReport(c'.pc) && !c'.pc.Committing?
  {}

  lemma TailElsewhere(cfg: Settings, s: Shared, c: Call, e: TailPc, x: Choice)
    ensures var (s', c') := StepTail(cfg, s, c, e, x);
      Elsewhere(s, c, s', c') && !BeforeReport(c'.pc) && !c'.pc.Committing?
  {}

  lemma OtherCommitKept(cfg: Settings, s: Shared, t: nat, c: Call, k: CommitPc, x: Choice)
    requires Delivery.SharedInv(s) && Delivery.CallInv(s, t, c) && c.pc == Committing(k)
    requires SharedInv(cfg, s) && PcInv(cfg, s, c.pc) && !k.Flip? && !k.TellCloser?
    ensures var (s', c') := StepCommit(cfg, s, c, k, x); Kept(cfg, s, s', t, c'.pc)
  {
    var (s', c') := StepCommit(cfg, s, c, k, x);
    CommitElsewhere(cfg, s, c, k, x);
    assert s.hist.results[..|s.hist.results|] == s.hist.results;
    SameCloserKept(cfg, s, s', t, c'.pc);
  }

  lemma CommitKept(cfg: Settings, s: Shared, t: nat, c: Call, k: CommitPc, x: Choice)
    requires Delivery.SharedInv(s) && Delivery.CallInv(s, t, c) && c.pc == Committing(k)
    requires SharedInv(cfg, s) && PcInv(cfg, s, c.pc)
    ensures var (s', c') := StepCommit(cfg, s, c, k, x); Kept(cfg, s, s', t, c'.pc)
  {
    match k
    case Flip(move, asked) => FlipKept(cfg, s, t, c, move, asked);
    case TellCloser(move) => TellKept(cfg, s, t, c, move);
    case _ => OtherCommitKept(cfg, s, t, c, k, x);
  }

  lemma GateKept(cfg: Settings, s: Shared, t: nat, c: Call, g: GatePc, x: Choice)
    requires Delivery.SharedInv(s) && SharedInv(cfg, s) && PcInv(cfg, s, c.pc) && c.pc == Gating(g)
    requires cfg.closer.sleepWindow > 0
    ensures var (s', c') := StepGate(cfg, s, c, g, x); Kept(cfg, s, s', t, c'.pc)
  {
    var (s', c') := StepGate(cfg, s, c, g, x);
    if g.AskCloser? { AskCloserKept(cfg, s, t, c, g.start, g.seen); } else { SameCloserKept(cfg, s, s', t, c'.pc); }
  }

  lemma RunKept(cfg: Settings, s: Shared, t: nat, c: Call, r: RunPc, x: Choice)
    requires Delivery.SharedInv(s) && SharedInv(cfg, s) && PcInv(cfg, s, c.pc) && c.pc == Running(r)
    ensures var (s', c') := StepRun(s, t, c, r, x); Kept(cfg, s, s', t, c'.pc)
  {
    var (s', c') := StepRun(s, t, c, r, x);
    if r.Report? {
      ReportKept(cfg, s, t, c, r.start, r.done, r.adm, r.outcome, x.yes);
    } else {
      SameCloserKept(cfg, s, s', t, c'.pc);
    }
  }

  lemma StepKept(cfg: Settings, s: Shared, t: nat, c: Call, x: Choice)
    requires Delivery.SharedInv(s) && Delivery.CallInv(s, t, c) && Enabled(s, c)
    requires SharedInv(cfg, s) && PcInv(cfg, s, c.pc) && cfg.closer.sleepWindow > 0
    ensures var (s', c') := StepCall(cfg, s, t, c, x); Kept(cfg, s, s', t, c'.pc)
  {
    var (s', c') := StepCall(cfg, s, t, c, x);
    match c.pc
    case Committing(k) => CommitKept(cfg, s, t, c, k, x);
    case Gating(g) => GateKept(cfg, s, t, c, g, x);
    case Running(r) => RunKept(cfg, s, t, c, r, x);
    case Moving(m) => MoveElsewhere(s, t, c, m); SameCloserKept(cfg, s, s', t, c'.pc);
    case Draining(d) => DrainElsewhere(s, t, c, d, x); SameCloserKept(cfg, s, s', t, c'.pc);
    case Judging(v) => VerdictElsewhere(cfg, s, c, v, x); SameCloserKept(cfg, s, s', t, c'.pc);
    case Ending(e) => TailElsewhere(cfg, s, c, e, x); SameCloserKept(cfg, s, s', t, c'.pc);
    case Done => SameCloserKept(cfg, s, s', t, c'.pc);
  }

  /** A call reports at most once, and afterwards never again. */
  ghost predicate ReportsOnce(s: Shared, t: nat, c: Call, s': Shared, c': Call) {
    && (!BeforeReport(c.pc) ==> !BeforeReport(c'.pc))
    && (s'.hist.results == s.hist.results
        || exists more ::
             && s'.hist.results == s.hist.results + [more]
             && (more.Good? ==> more.call == t && BeforeReport(c.pc) && !BeforeReport(c'.pc)))
  }

  lemma AskCloserReportsOnce(cfg: Settings, s: Shared, t: nat, c: Call, start: int)
    requires BeforeReport(c.pc)
    ensures var (s', c') := StepAskCloser(cfg, s, c, start); ReportsOnce(s, t, c, s', c')
  {
    var (s', c') := StepAskCloser(cfg, s, c, start);
    assert Closer.SelfArms(s.closer, cfg.closer, start) ==> s'.hist.results == s.hist.results + [Wiped];
  }

  lemma ReportReportsOnce(s: Shared, t: nat, c: Call, start: int, done: int, adm: Admission, outcome: Outcome,
                          heard: bool)
    requires BeforeReport(c.pc)
    ensures var (s', c') := StepReport(s, t, c, start, done, adm, outcome, heard); ReportsOnce(s, t, c, s', c')
  {
    var (s', c') := StepReport(s, t, c, start, done, adm, outcome, heard);
    assert s'.hist.results == s.hist.results || s'.hist.results == s.hist.results + [Bad]
        || s'.hist.results == s.hist.results + [Good(t, start, adm)];
  }

  lemma StepReportsOnce(cfg: Settings, s: Shared, t: nat, c: Call, x: Choice)
    ensures var (s', c') := StepCall(cfg, s, t, c, x); ReportsOnce(s, t, c, s', c')
  {
    var (s', c') := StepCall(cfg, s, t, c, x);
    match c.pc
    case Committing(k) =>
      if k.TellCloser? {
        assert s'.hist.results == s.hist.results + [Wiped];
      } else if !k.Flip? {
        CommitElsewhere(cfg, s, c, k, x);
      }
    case Gating(g) => if g.AskCloser? { AskCloserReportsOnce(cfg, s, t, c, g.start); }
    case Running(r) => if r.Report? { ReportReportsOnce(s, t, c, r.start, r.done, r.adm, r.outcome, x.yes); }
    case Moving(m) => MoveElsewhere(s, t, c, m);
    case Draining(d) => DrainElsewhere(s, t, c, d, x);
    case Judging(v) => VerdictElsewhere(cfg, s, c, v, x);
    case Ending(e) => TailElsewhere(cfg, s, c, e, x);
    case Done =>
  }

  lemma InstallKeepsCount(w: World, t: nat, s': Shared, c': Call, w': World)
    requires CountedOnce(w) && t < |w.calls| && ReportsOnce(w.shared, t, w.calls[t], s', c')
    requires w' == World(s', w.calls[t := c'])
    ensures CountedOnce(w')
  {}

  lemma InstallKeepsPcs(cfg: Settings, w: World, t: nat, s': Shared, c': Call, w': World)
    requires forall u :: 0 <= u < |w.calls| ==>
      PcInv(cfg, w.shared, w.calls[u].pc) && Delivery.CallInv(w.shared, u, w.calls[u])
    requires t < |w.calls| && PcInv(cfg, s', c'.pc) && forall u :: u != t ==> Rely(w.shared, s', u)
    requires w' == World(s', w.calls[t := c'])
    ensures forall u :: 0 <= u < |w'.calls| ==> PcInv(cfg, s', w'.calls[u].pc)
  {
    forall u | 0 <= u < |w'.calls|
      ensures PcInv(cfg, s', w'.calls[u].pc)
    {
      if u != t { RelyKeepsPc(cfg, w.shared, s', u, w.calls[u].pc); }
    }
  }

  lemma Install(cfg: Settings, w: World, t: nat, s': Shared, c': Call, w': World)
    requires Inv(cfg, w) && t < |w.calls|
    requires Kept(cfg, w.shared, s', t, c'.pc) && ReportsOnce(w.shared, t, w.calls[t], s', c')
    requires w' == World(s', w.calls[t := c']) && Delivery.Inv(w')
    ensures Inv(cfg, w')
  {
    InstallKeepsPcs(cfg, w, t, s', c', w');
    InstallKeepsCount(w, t, s', c', w');
  }

  lemma ActionKeepsInv(cfg: Settings, w: World, a: Action)
    requires Inv(cfg, w) && Possible(cfg, w, a) && cfg.closer.sleepWindow > 0
    ensures Inv(cfg, Apply(cfg, w, a))
  {
    Delivery.ActionKeepsInv(cfg, w, a);
    var w' := Apply(cfg, w, a);
    match a
    case Step(t, x) =>
      var c := w.calls[t];
      var (s', c') := StepCall(cfg, w.shared, t, c, x);
      assert Delivery.CallInv(w.shared, t, c);
      StepKept(cfg, w.shared, t, c, x);
      StepReportsOnce(cfg, w.shared, t, c, x);
      Install(cfg, w, t, s', c', w');
    case Begin(pc) => BeginKeepsInv(cfg, w, Call(pc, false), w');
    case _ => EnvironmentKeepsInv(cfg, w, a, w');
  }

  lemma BeginKeepsInv(cfg: Settings, w: World, c: Call, w': World)
    requires Inv(cfg, w) && w' == World(w.shared, w.calls + [c]) && Delivery.Inv(w') && PcInv(cfg, w.shared, c.pc)
    ensures Inv(cfg, w')
  {
    assert forall u :: 0 <= u < |w.calls| ==> w'.calls[u] == w.calls[u];
  }

  /** The clock, the overrides and the timers. */
  lemma EnvironmentKept(cfg: Settings, w: World, a: Action)
    requires SharedInv(cfg, w.shared) && Delivery.SharedInv(w.shared) && Possible(cfg, w, a) && !a.Step? && !a.Begin?
    ensures var s' := Apply(cfg, w, a).shared;
      SharedInv(cfg, s') && (forall u :: Rely(w.shared, s', u)) && s'.hist == w.shared.hist
  {
    ClosesStayBacked(cfg, w.shared.hist, w.shared.hist);
  }

  lemma EnvironmentKeepsInv(cfg: Settings, w: World, a: Action, w': World)
    requires Inv(cfg, w) && Possible(cfg, w, a) && !a.Step? && !a.Begin? && w' == Apply(cfg, w, a) && Delivery.Inv(w')
    ensures Inv(cfg, w')
  {
    EnvironmentKept(cfg, w, a);
    assert w'.calls == w.calls;
    forall u | 0 <= u < |w.calls|
      ensures PcInv(cfg, w'.shared, w.calls[u].pc)
    {
      assert Delivery.CallInv(w.shared, u, w.calls[u]);
      RelyKeepsPc(cfg, w.shared, w'.shared, u, w.calls[u].pc);
    }
  }

  lemma {:induction false} EveryRunKeepsInv(cfg: Settings, clock: int, run: seq<Action>)
    requires cfg.closer.sleepWindow > 0
    ensures var w := After(cfg, Init(clock), run); w.Some? ==> Inv(cfg, w.value)
    decreases |run|
  {
    if run != [] {
      EveryRunKeepsInv(cfg, clock, run[..|run| - 1]);
      var before := After(cfg, Init(clock), run[..|run| - 1]);
      if before.Some? && Possible(cfg, before.value, run[|run| - 1]) {
        ActionKeepsInv(cfg, before.value, run[|run| - 1]);
      }
    }
  }

  /** Closer and circuit agree whenever transitionMu is free: the closer is armed if and only if the circuit is open,
      and then with the timestamp that the listeners are told for this open. */
  lemma {:induction false} CloserAgreesWithCircuit(cfg: Settings, clock: int, run: seq<Action>)
    requires cfg.closer.sleepWindow > 0 && After(cfg, Init(clock), run).Some?
    ensures
      var s := After(cfg, Init(clock), run).value.shared;
      s.lock.None? ==>
        && (s.closer.openedAt.Some? <==> s.isOpen)
        && (s.isOpen ==> s.hist.committed != []
                         && s.closer.openedAt == Some(s.hist.committed[|s.hist.committed| - 1].now))
  {
    EveryRunKeepsInv(cfg, clock, run);
  }

  lemma {:induction false} OnlyCountsUp(cfg: Settings, clock: int, run: seq<Action>)
    requires cfg.closer.sleepWindow > 0 && After(cfg, Init(clock), run).Some?
    ensures After(cfg, Init(clock), run).value.shared.closer.successes >= 0
  {
    EveryRunKeepsInv(cfg, clock, run);
  }

  /** A success that Allow granted in open episode number `episode`, at least a sleep window after the arming. */
  predicate GenuineProbe(cfg: Settings, r: Result, episode: nat) {
    && r.Good? && r.adm.via.ByGrant? && r.adm.episode == episode
    && r.start >= r.adm.via.armedAt + cfg.closer.sleepWindow
  }

  /** The last `n` results are genuine probes of the episode, each of another request. */
  ghost predicate EndsInProbes(cfg: Settings, rs: seq<Result>, n: nat, episode: nat) {
    && n <= |rs|
    && (forall i :: |rs| - n <= i < |rs| ==> GenuineProbe(cfg, rs[i], episode))
    && DistinctCalls(rs[|rs| - n..])
  }

  lemma StreakEndsInProbes(cfg: Settings, rs: seq<Result>, n: nat, episode: nat)
    requires n <= |rs| && StreakOfProbes(rs[..n], episode)
    requires LawfulResults(cfg, rs) && DistinctCalls(rs) && !cfg.mayForce
    ensures EndsInProbes(cfg, rs[..n], Streak(rs[..n]), episode)
  {}

  /** An automatic close that was decided on at least RequiredConcurrentSuccessful genuine probes in a row. */
  ghost predicate BackedByProbes(cfg: Settings, h: History, close: AutoClose) {
    && close.asked <= |h.results| && close.episode < |h.flips| && close.episode % 2 == 1
    && exists n: nat :: n >= cfg.closer.required && EndsInProbes(cfg, h.results[..close.asked], n, close.episode)
  }

  lemma AutoCloseIsBacked(cfg: Settings, w: World, i: nat)
    requires Inv(cfg, w) && !cfg.mayForce && i < |w.shared.hist.autoCloses|
    ensures BackedByProbes(cfg, w.shared.hist, w.shared.hist.autoCloses[i])
  {
    var h := w.shared.hist;
    var close := h.autoCloses[i];
    assert Backed(cfg, h, close.asked, close.episode);
    StreakEndsInProbes(cfg, h.results, close.asked, close.episode);
  }

  lemma CountIsOfProbes(cfg: Settings, w: World)
    requires Inv(cfg, w) && !cfg.mayForce && w.shared.lock.None?
    ensures var s := w.shared;
      0 <= s.closer.successes && EndsInProbes(cfg, s.hist.results, s.closer.successes, |s.hist.flips|)
  {
    var h := w.shared.hist;
    assert h.results[..|h.results|] == h.results;
    StreakEndsInProbes(cfg, h.results, |h.results|, |h.flips|);
  }

  /** Without ForcedClosed only genuine probes count and only they close: whenever transitionMu is free the closer's
      count is the number of probes of this episode since the last counted failure or reset, and every automatic
      close was decided on at least RequiredConcurrentSuccessful of them in a row. */
  lemma {:induction false} OnlyGenuineProbesClose(cfg: Settings, clock: int, run: seq<Action>)
    requires cfg.closer.sleepWindow > 0 && !cfg.mayForce && After(cfg, Init(clock), run).Some?
    ensures
      var s := After(cfg, Init(clock), run).value.shared;
      var h := s.hist;
      && (s.lock.None? ==> 0 <= s.closer.successes && EndsInProbes(cfg, h.results, s.closer.successes, |h.flips|))
      && forall i :: 0 <= i < |h.autoCloses| ==> BackedByProbes(cfg, h, h.autoCloses[i])
  {
    EveryRunKeepsInv(cfg, clock, run);
    var w := After(cfg, Init(clock), run).value;
    if w.shared.lock.None? { CountIsOfProbes(cfg, w); }
    forall i | 0 <= i < |w.shared.hist.autoCloses|
      ensures BackedByProbes(cfg, w.shared.hist, w.shared.hist.autoCloses[i])
    {
      AutoCloseIsBacked(cfg, w, i);
    }
  }
}
