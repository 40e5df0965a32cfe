/** closers/hystrix/opener.go against a plain log of results. */
module HystrixOpener {
  import opened Base
  import opened RollingWindows
  import opened RollingCounters

  const DEFAULT_NUM_BUCKETS := 10
  const DEFAULT_ROLLING_DURATION := 10_000_000_000

  /** ConfigureOpener, without its clock. */
  datatype Config = Config(errorThresholdPercentage: int, requestVolumeThreshold: int,
                           rollingDuration: int, numBuckets: int)

  /** A legitimate attempt: when it ended, and whether it failed or timed out. */
  datatype Result = Result(at: int, error: bool)

  /** What the opener knows: the results since the last transition, and the timestamps that each counter was given. */
  datatype Knowledge = Knowledge(grid: Grid, results: seq<Result>, attemptsAsked: seq<int>, errorsAsked: seq<int>)

  /** SetConfigNotThreadSafe puts defaults in place of unusable bucket settings. */
  function GridOf(config: Config, now: int): (g: Grid)
    ensures g.start == now && g.n == if config.numBuckets > 0 then config.numBuckets else 10
    ensures
      var duration := if config.rollingDuration > 0 then config.rollingDuration else 10_000_000_000;
      0 <= g.width && g.width * g.n <= duration < (g.width + 1) * g.n
  {
    var n := if config.numBuckets <= 0 then DEFAULT_NUM_BUCKETS else config.numBuckets;
    var duration := if config.rollingDuration <= 0 then DEFAULT_ROLLING_DURATION else config.rollingDuration;
    IndexBounds(duration, n);
    Grid(now, duration / n, n)
  }

  // ---- The specification ----

  function Attempts(results: seq<Result>): seq<int> {
    if results == [] then [] else Attempts(results[..|results| - 1]) + [results[|results| - 1].at]
  }

  function Errors(results: seq<Result>): seq<int> {
    if results == [] then []
    else Errors(results[..|results| - 1]) + if results[|results| - 1].error then [results[|results| - 1].at] else []
  }

  function AttemptsIn(g: Grid, results: seq<Result>, last: int): nat { CountIn(g, Attempts(results), last - g.n, last) }

  function ErrorsIn(g: Grid, results: seq<Result>, last: int): nat { CountIn(g, Errors(results), last - g.n, last) }

  /** Enough attempts, and enough of them failed, over the results in the window that ends at index `last`. */
  predicate Due(percentage: int, threshold: int, g: Grid, results: seq<Result>, last: int) {
    && AttemptsIn(g, results, last) >= Max(1, threshold)
    && 100 * ErrorsIn(g, results, last) >= percentage * AttemptsIn(g, results, last)
  }

  function Record(v: Knowledge, r: Result): Knowledge {
    v.(results := v.results + [r], attemptsAsked := v.attemptsAsked + [r.at],
       errorsAsked := if r.error then v.errorsAsked + [r.at] else v.errorsAsked)
  }

  function Reset(v: Knowledge, now: int): Knowledge {
    v.(results := [], attemptsAsked := v.attemptsAsked + [now], errorsAsked := v.errorsAsked + [now])
  }

  /** The attempts that ShouldOpen sees at `now`: those in the window of the latest call so far. */
  function AttemptsSeen(v: Knowledge, now: int): nat {
    ShownTotal(v.grid, Attempts(v.results), Latest(v.grid, v.attemptsAsked + [now]))
  }

  function ErrorsSeen(v: Knowledge, now: int): nat {
    ShownTotal(v.grid, Errors(v.results), Latest(v.grid, v.errorsAsked + [now]))
  }

  /** Asking moves the windows; the errors are only asked for when there are enough attempts. */
  function Asked(v: Knowledge, threshold: int, now: int): Knowledge {
    v.(attemptsAsked := v.attemptsAsked + [now],
       errorsAsked := if AttemptsSeen(v, now) >= Max(1, threshold) then v.errorsAsked + [now] else v.errorsAsked)
  }

  predicate Answer(v: Knowledge, percentage: int, threshold: int, now: int) {
    AttemptsSeen(v, now) >= Max(1, threshold) && 100 * ErrorsSeen(v, now) >= percentage * AttemptsSeen(v, now)
  }

  // ---- What the source promises ----

  lemma AppendedResult(results: seq<Result>, r: Result)
    ensures Attempts(results + [r]) == Attempts(results) + [r.at]
    ensures Errors(results + [r]) == Errors(results) + if r.error then [r.at] else []
  {
    assert (results + [r])[..|results|] == results;
  }

  lemma CountInOfAppend(g: Grid, log: seq<int>, t: int, lo: int, hi: int)
    ensures CountIn(g, log + [t], lo, hi) ==
      CountIn(g, log, lo, hi) + if g.Covers(t) && lo < g.Index(t) <= hi then 1 else 0
  {
    assert (log + [t])[..|log|] == log;
  }

  /** At no bucket index, and in no window, are there more errors than attempts. */
  lemma {:induction false} ErrorsNeverExceedAttempts(g: Grid, results: seq<Result>, k: int, lo: int, hi: int)
    ensures CountAt(g, Errors(results), k) <= CountAt(g, Attempts(results), k)
    ensures CountIn(g, Errors(results), lo, hi) <= CountIn(g, Attempts(results), lo, hi)
  {
    if results != [] {
      var front, r := results[..|results| - 1], results[|results| - 1];
      ErrorsNeverExceedAttempts(g, front, k, lo, hi);
      CountAtOfAppend(g, Attempts(front), r.at, k);
      CountAtOfAppend(g, Errors(front), r.at, k);
      CountInOfAppend(g, Attempts(front), r.at, lo, hi);
      CountInOfAppend(g, Errors(front), r.at, lo, hi);
      assert Errors(front) + [] == Errors(front);
    }
  }

  /** Asking again with the same timestamp gives the same answer, in whatever order the timestamps came before. */
  lemma AskingTwiceChangesNothing(v: Knowledge, percentage: int, threshold: int, now: int)
    ensures Answer(Asked(v, threshold, now), percentage, threshold, now) == Answer(v, percentage, threshold, now)
  {
    LatestTwice(v.grid, v.attemptsAsked, now);
    LatestTwice(v.grid, v.errorsAsked, now);
  }

  lemma LatestTwice(g: Grid, asked: seq<int>, now: int)
    ensures Latest(g, asked + [now] + [now]) == Latest(g, asked + [now])
  {
    LatestOfAppend(g, asked + [now], now);
    LatestOfAppend(g, asked, now);
  }

  /** Nothing was recorded or asked later than `clock`. */
  ghost predicate InOrder(v: Knowledge, clock: int) {
    && (forall i :: 0 <= i < |v.results| ==> v.results[i].at <= clock)
    && (forall i :: 0 <= i < |v.attemptsAsked| ==> v.attemptsAsked[i] <= clock)
    && (forall i :: 0 <= i < |v.errorsAsked| ==> v.errorsAsked[i] <= clock)
  }

  lemma IndexIsMonotone(g: Grid, s: int, t: int)
    requires g.Covers(s) && s <= t
    ensures g.Index(s) <= g.Index(t)
  {}

  lemma {:induction false} LatestInOrder(g: Grid, asked: seq<int>, now: int)
    requires forall i :: 0 <= i < |asked| ==> asked[i] <= now
    ensures Latest(g, asked + [now]) == if g.Covers(now) then g.Index(now) else 0
  {
    LatestOfAppend(g, asked, now);
    if asked != [] {
      var t := asked[|asked| - 1];
      LatestInOrder(g, asked[..|asked| - 1], now);
      LatestOfAppend(g, asked[..|asked| - 1], now);
      if g.Covers(t) { IndexIsMonotone(g, t, now); }
    }
  }

  lemma {:induction false} NothingCovered(g: Grid, results: seq<Result>, now: int, lo: int, hi: int)
    requires !g.Covers(now) && forall i :: 0 <= i < |results| ==> results[i].at <= now
    ensures CountIn(g, Attempts(results), lo, hi) == 0
  {
    if results != [] {
      var n := |results| - 1;
      NothingCovered(g, results[..n], now, lo, hi);
      CountInOfAppend(g, Attempts(results[..n]), results[n].at, lo, hi);
    }
  }

  /** On one clock both counters see the window that ends at `now`, so that the answer is about those results. */
  lemma AnswersOnOneClock(v: Knowledge, percentage: int, threshold: int, now: int)
    requires InOrder(v, now)
    ensures Answer(v, percentage, threshold, now) ==
      (v.grid.Covers(now) && Due(percentage, threshold, v.grid, v.results, v.grid.Index(now)))
  {
    LatestInOrder(v.grid, v.attemptsAsked, now);
    LatestInOrder(v.grid, v.errorsAsked, now);
    if !v.grid.Covers(now) { NothingCovered(v.grid, v.results, now, -v.grid.n, 0); }
  }

  // ---- Timestamps in any order ----

  /** What an opener can go through: a result, a transition, or a question with the threshold of that time. */
  datatype Use = Counts(r: Result) | Moves(now: int) | Asks(threshold: int, now: int)

  function Used(v: Knowledge, u: Use): Knowledge {
    match u
    case Counts(r) => Record(v, r)
    case Moves(now) => Reset(v, now)
    case Asks(threshold, now) => Asked(v, threshold, now)
  }

  /** A new opener after these uses. */
  function UsedAll(g: Grid, uses: seq<Use>): Knowledge {
    if uses == [] then Knowledge(g, [], [], []) else Used(UsedAll(g, uses[..|uses| - 1]), uses[|uses| - 1])
  }

  /** No attempt, transition or question has taken the attempts beyond the bucket of `now` and beyond where the last
      error, transition or answered question took the errors. */
  predicate InStep(v: Knowledge, now: int) {
    var errors := Latest(v.grid, v.errorsAsked);
    Latest(v.grid, v.attemptsAsked) <= if v.grid.Covers(now) then Max(errors, v.grid.Index(now)) else errors
  }

  lemma AskingKeepsLag(g: Grid, attempts: seq<int>, errors: seq<int>, now: int)
    requires Latest(g, errors) <= Latest(g, attempts)
    ensures Latest(g, errors) <= Latest(g, attempts + [now]) && Latest(g, errors + [now]) <= Latest(g, attempts + [now])
  {
    LatestOfAppend(g, attempts, now);
    LatestOfAppend(g, errors, now);
  }

  lemma UseKeepsLag(v: Knowledge, u: Use)
    requires Latest(v.grid, v.errorsAsked) <= Latest(v.grid, v.attemptsAsked)
    ensures var w := Used(v, u); w.grid == v.grid && Latest(w.grid, w.errorsAsked) <= Latest(w.grid, w.attemptsAsked)
  {
    match u
    case Counts(r) => AskingKeepsLag(v.grid, v.attemptsAsked, v.errorsAsked, r.at);
    case Moves(now) => AskingKeepsLag(v.grid, v.attemptsAsked, v.errorsAsked, now);
    case Asks(threshold, now) => AskingKeepsLag(v.grid, v.attemptsAsked, v.errorsAsked, now);
  }

  /** The errors' window is never ahead of the attempts'. */
  lemma {:induction false} ErrorsLagBehind(g: Grid, uses: seq<Use>)
    ensures var v := UsedAll(g, uses); v.grid == g && Latest(g, v.errorsAsked) <= Latest(g, v.attemptsAsked)
  {
    if uses != [] {
      ErrorsLagBehind(g, uses[..|uses| - 1]);
      UseKeepsLag(UsedAll(g, uses[..|uses| - 1]), uses[|uses| - 1]);
    }
  }

  /** After any uses, with timestamps in any order, ShouldOpen compares errors and attempts of the same window exactly
      if the counters are in step with the question. */
  lemma SameWindowExactlyInStep(g: Grid, uses: seq<Use>, now: int)
    ensures var v := UsedAll(g, uses);
      Latest(g, v.attemptsAsked + [now]) == Latest(g, v.errorsAsked + [now]) <==> InStep(v, now)
  {
    var v := UsedAll(g, uses);
    ErrorsLagBehind(g, uses);
    LatestOfAppend(g, v.attemptsAsked, now);
    LatestOfAppend(g, v.errorsAsked, now);
  }

  /** What ShouldOpen answers when both counters show the window that ends at `last`. */
  lemma OneWindowAnswers(v: Knowledge, percentage: int, threshold: int, now: int, last: int)
    requires Latest(v.grid, v.attemptsAsked + [now]) == last && Latest(v.grid, v.errorsAsked + [now]) == last
    ensures ErrorsSeen(v, now) <= AttemptsSeen(v, now)
    ensures Answer(v, percentage, threshold, now) ==
      (v.grid.Live() && Due(percentage, threshold, v.grid, v.results, last))
  {
    ErrorsNeverExceedAttempts(v.grid, v.results, 0, last - v.grid.n, last);
  }

  /** Then there are never more errors than attempts, and the answer is about the results in that window. */
  lemma InStepAnswers(g: Grid, uses: seq<Use>, percentage: int, threshold: int, now: int)
    requires InStep(UsedAll(g, uses), now)
    ensures
      var v := UsedAll(g, uses);
      && ErrorsSeen(v, now) <= AttemptsSeen(v, now)
      && Answer(v, percentage, threshold, now) ==
           (g.Live() && Due(percentage, threshold, g, v.results, Latest(g, v.attemptsAsked + [now])))
  {
    var v := UsedAll(g, uses);
    ErrorsLagBehind(g, uses);
    SameWindowExactlyInStep(g, uses, now);
    OneWindowAnswers(v, percentage, threshold, now, Latest(g, v.attemptsAsked + [now]));
  }

  // Out of step: two errors at time 0 and a success at time 5, one bucket of width 1, and the question at time 0.

  const SKEWED: Knowledge :=
    Knowledge(Grid(0, 1, 1), [Result(0, true), Result(0, true), Result(5, false)], [0, 0, 5], [0, 0])

  const SKEWING: seq<Use> := [Counts(Result(0, true)), Counts(Result(0, true)), Counts(Result(5, false))]

  lemma SkewedIsReached()
    ensures UsedAll(SKEWED.grid, SKEWING) == SKEWED
  {
    var g := Grid(0, 1, 1);
    var r := Result(0, true);
    assert SKEWING[..2] == [Counts(r), Counts(r)] && SKEWING[..2][..1] == [Counts(r)] && SKEWING[..2][..1][..0] == [];
    assert UsedAll(g, [Counts(r)]) == Knowledge(g, [r], [0], [0]);
    assert UsedAll(g, SKEWING[..2]) == Knowledge(g, [r, r], [0, 0], [0, 0]);
  }

  lemma SkewedLogs()
    ensures Attempts(SKEWED.results) == [0, 0, 5] && Errors(SKEWED.results) == [0, 0]
  {
    var r, q := Result(0, true), Result(5, false);
    AppendedResult([], r);
    AppendedResult([r], r);
    AppendedResult([r, r], q);
    assert [] + [r] == [r] && [r] + [r] == [r, r] && [r, r] + [q] == [r, r, q];
  }

  lemma SkewedWindows()
    ensures Latest(SKEWED.grid, [0, 0, 5, 0]) == Latest(SKEWED.grid, [0, 0, 5]) == 5
    ensures Latest(SKEWED.grid, [0, 0, 0]) == Latest(SKEWED.grid, [0, 0]) == 0
  {
    var g := SKEWED.grid;
    assert g.Index(0) == 0 && g.Index(5) == 5;
    LatestOfAppend(g, [0, 0, 5], 0);
    LatestOfAppend(g, [0, 0], 5);
    LatestOfAppend(g, [0, 0], 0);
    LatestOfAppend(g, [0], 0);
    LatestOfAppend(g, [], 0);
    assert [] + [0] == [0] && [0] + [0] == [0, 0] && [0, 0] + [5] == [0, 0, 5];
    assert [0, 0, 5] + [0] == [0, 0, 5, 0] && [0, 0] + [0] == [0, 0, 0];
  }

  lemma SkewedCounts()
    ensures CountIn(SKEWED.grid, [0, 0, 5], 4, 5) == 1 && CountIn(SKEWED.grid, [0, 0], -1, 0) == 2
  {
    var g := SKEWED.grid;
    assert g.Index(0) == 0 && g.Index(5) == 5;
    CountInOfAppend(g, [0, 0], 5, 4, 5);
    CountInOfAppend(g, [0], 0, 4, 5);
    CountInOfAppend(g, [], 0, 4, 5);
    CountInOfAppend(g, [0], 0, -1, 0);
    CountInOfAppend(g, [], 0, -1, 0);
    assert [] + [0] == [0] && [0] + [0] == [0, 0] && [0, 0] + [5] == [0, 0, 5];
  }

  lemma SkewedIsOutOfStep()
    ensures !InStep(SKEWED, 0) && AttemptsSeen(SKEWED, 0) == 1 && ErrorsSeen(SKEWED, 0) == 2
  {
    SkewedLogs();
    SkewedWindows();
    SkewedCounts();
    assert SKEWED.attemptsAsked + [0] == [0, 0, 5, 0] && SKEWED.errorsAsked + [0] == [0, 0, 0];
  }

  lemma OutOfStepTheWindowsDiffer()
    ensures var v := UsedAll(SKEWED.grid, SKEWING); !InStep(v, 0) && AttemptsSeen(v, 0) == 1 && ErrorsSeen(v, 0) == 2
  {
    SkewedIsReached();
    SkewedIsOutOfStep();
  }

  // ---- The opener ----

  class Opener {
    var errorsCount: RollingCounter
    var legitimateAttemptsCount: RollingCounter
    var errorPercentage: int
    var requestVolumeThreshold: int
    ghost var results: seq<Result>   // since the last transition

    ghost predicate Valid()
      reads this, errorsCount, errorsCount.Repr, legitimateAttemptsCount, legitimateAttemptsCount.Repr
    {
      && errorsCount.Valid() && legitimateAttemptsCount.Valid()
      && errorsCount.Repr !! legitimateAttemptsCount.Repr && this !in errorsCount.Repr + legitimateAttemptsCount.Repr
      && errorsCount.rollingBucket.grid == legitimateAttemptsCount.rollingBucket.grid
      && legitimateAttemptsCount.log == Attempts(results)
      && errorsCount.log == Errors(results)
    }

    ghost function Footprint(): set<object>
      reads this
    {
      {this} + errorsCount.Repr + legitimateAttemptsCount.Repr
    }

    ghost function Value(): Knowledge
      reads this, errorsCount, errorsCount.Repr, legitimateAttemptsCount, legitimateAttemptsCount.Repr
    {
      Knowledge(legitimateAttemptsCount.rollingBucket.grid, results, legitimateAttemptsCount.asked, errorsCount.asked)
    }

    /** A new opener, configured by SetConfigNotThreadSafe. */
    constructor (config: Config, now: int)
      ensures Valid() && fresh(Footprint())
      ensures Value() == Knowledge(GridOf(config, now), [], [], [])
      ensures errorPercentage == config.errorThresholdPercentage
      ensures requestVolumeThreshold == config.requestVolumeThreshold
    {
      var g := GridOf(config, now);
      errorsCount := new RollingCounter(g.width, g.n, now);
      legitimateAttemptsCount := new RollingCounter(g.width, g.n, now);
      errorPercentage, requestVolumeThreshold := config.errorThresholdPercentage, config.requestVolumeThreshold;
      results := [];
    }

    method Success(now: int)
      requires Valid()
      modifies Footprint()
      ensures Valid() && Footprint() == old(Footprint())
      ensures Value() == Record(old(Value()), Result(now, false))
      ensures errorPercentage == old(errorPercentage) && requestVolumeThreshold == old(requestVolumeThreshold)
    {
      AppendedResult(results, Result(now, false));
      legitimateAttemptsCount.Inc(now);
      results := results + [Result(now, false)];
    }

    /** ErrFailure and ErrTimeout. */
    method Error(now: int)
      requires Valid()
      modifies Footprint()
      ensures Valid() && Footprint() == old(Footprint())
      ensures Value() == Record(old(Value()), Result(now, true))
      ensures errorPercentage == old(errorPercentage) && requestVolumeThreshold == old(requestVolumeThreshold)
    {
      AppendedResult(results, Result(now, true));
      legitimateAttemptsCount.Inc(now);
      errorsCount.Inc(now);
      results := results + [Result(now, true)];
    }

    /** Opened and Closed. */
    method Transitioned(now: int)
      requires Valid()
      modifies Footprint()
      ensures Valid() && Footprint() == old(Footprint())
      ensures Value() == Reset(old(Value()), now)
      ensures errorPercentage == old(errorPercentage) && requestVolumeThreshold == old(requestVolumeThreshold)
    {
      errorsCount.Reset(now);
      assert legitimateAttemptsCount.Valid() && legitimateAttemptsCount.asked == old(legitimateAttemptsCount.asked);
      legitimateAttemptsCount.Reset(now);
      assert errorsCount.Valid() && errorsCount.log == [];
      results := [];
    }

    method ShouldOpen(now: int) returns (yes: bool)
      requires Valid()
      modifies Footprint()
      ensures Valid() && Footprint() == old(Footprint())
      ensures yes == Answer(old(Value()), errorPercentage, requestVolumeThreshold, now)
      ensures Value() == Asked(old(Value()), requestVolumeThreshold, now)
      ensures errorPercentage == old(errorPercentage) && requestVolumeThreshold == old(requestVolumeThreshold)
    {
      var attemptCount := legitimateAttemptsCount.RollingSumAt(now);
      if attemptCount == 0 || attemptCount < requestVolumeThreshold { return false; }
      var errorCount := errorsCount.RollingSumAt(now);
      yes := errorCount * 100 >= errorPercentage * attemptCount;
    }

    method SetConfigThreadSafe(config: Config)
      requires Valid()
      modifies this`errorPercentage, this`requestVolumeThreshold
      ensures Valid() && Value() == old(Value())
      ensures errorPercentage == config.errorThresholdPercentage
      ensures requestVolumeThreshold == config.requestVolumeThreshold
    {
      errorPercentage, requestVolumeThreshold := config.errorThresholdPercentage, config.requestVolumeThreshold;
    }
  }
}
