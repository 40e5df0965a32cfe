# A verified model of the circuit breaker

This project models `cep21/circuit`, a circuit breaker for Go, in Dafny, and proves what its design promises: that
listeners hear every transition once and in order, that only genuine half-open probes close a circuit, that the rolling
windows agree with a plain log of events, that a circuit always can recover by probes alone, and more.
`dafny verify dfyconfig.toml` checks everything.

## How it is laid out

| file | what it models |
|---|---|
| `CircuitProtocol.dfy` | `circuit.go` as a state machine over any number of concurrent calls, every access of a shared field a step of its own, with the hystrix Closer inside |
| `CircuitDelivery.dfy` | transitions and the notification queue of that machine: order, hand-over of the deliverer role, panicking listeners, termination |
| `CircuitHalfOpen.dfy` | agreement of closer and circuit, and what is behind an automatic close |
| `CircuitCalls.dfy` | what each call finds on its way, and that this decides what comes of it |
| `CircuitLimit.dfy` | the concurrency limits |
| `CircuitClosing.dfy` | that no close is missed and no sleep window is too long |
| `Recovery.dfy`, `Tripping.dfy` | successful probes, and nothing else, lead from every open circuit to a closed one, and one failure leads back |
| `SequentialSpec.dfy`, `SequentialRuns.dfy` | `circuit.go` on one goroutine, for any opener, closer and settings and for user functions that call back, take time and panic; what every sequence of operations keeps |
| `SequentialInvariants.dfy` | one induction for all that such sequences keep; what opener and closer hear |
| `ExecuteResults.dfy` | what Execute returns and reports, exactly |
| `RunMetrics.dfy` | what RunMetrics promises about one Execute, and exactly when that holds |
| `SequentialCircuit.dfy` | the `Circuit` struct as a class that does exactly that, in place |
| `ReferenceMachine.dfy` | the reference machine of the property test, with the overrides and Prevent added, and its agreement with the circuit |
| `Closer.dfy` | `closers/hystrix/closer.go` |
| `Opener.dfy`, `OpeningDecision.dfy` | `closers/hystrix/opener.go`, and when the circuit that contains it opens |
| `ClosingDecision.dfy` | when the circuit that contains the hystrix Closer closes |
| `TimedCheck.dfy`, `TimedCheckRace.dfy` | `faststats/timedcheck.go`, method by method, and between any number of goroutines and timer callbacks |
| `RollingBuckets.dfy`, `RollingCounter.dfy` | the ring window and the counter, in place, against a log of events |
| `RollingRace.dfy` | both of them between any number of goroutines |
| `DurationsRace.dfy` | one duration ring between any number of goroutines |
| `PercentileRace.dfy` | the window and all its duration rings racing together, as `RollingPercentile` has them |
| `RollingPercentile.dfy`, `Percentile.dfy` | the duration rings, their snapshots, and the arithmetic on snapshots |
| `GoWrapper.dfy` | the channel protocol of `Circuit.Go` |
| `Base.dfy` | Option, minimum, maximum, counting |

Code that changes state in place is a class here, and each of its methods is proved against a function of the old state;
what the design promises is then proved about these functions, over all runs. The concurrent parts are state machines: a
world, an action, and a partial function `After` that says which runs are possible. Every claim about a machine is about
`After(run)` for an arbitrary run.

## Assumptions

- The clock is monotone: time passes by `Tick` steps with a length of at least 0. The claims about `TimedCheck`, the
  rolling windows and `AskingTwiceChangesNothing` do not need this.
- Each circuit has a Closer of its own, and `SleepWindow` is positive. `RequiredConcurrentSuccessful` may be anything.
- Openers and closers do not panic. A panic at circuit.go:278 would leave `isOpen` flipped and nothing queued.
- The circuit is not reconfigured during a run of `CircuitProtocol`, apart from ForceOpen and ForcedClosed, which may
  change at any time. `SetConfigNotThreadSafe` never overlaps with anything.
- In `CircuitProtocol` the timer of the closer's current window does not fire before it is due; it may fire late, or
  not at all. In `TimedCheckRace` timers fire at any time.
- In `CircuitProtocol` each Closer method is one atomic step. A RunMetrics listener may panic at any call, and so may the
  listeners of transitions.
- A call that a listener or a user function makes on the same circuit is one more concurrent call in `CircuitProtocol`,
  so that the machine has all real interleavings and more. In `SequentialSpec` such calls are really nested.
- Counters, bucket indices and clock readings do not overflow, except in `Mean`, `Percentile` and the duration encoding,
  where 64-bit wrap-around is modelled.

## Where the code and its documentation differ

- metrics.go:167-168 promises exactly one RunMetrics callback for each attempt. An Execute with a command gets one exactly
  if the circuit is not disabled, Prevent does not reject the call (circuit.go:418-420) and the function does not panic,
  and else none (`RunMetricsPromises.OneEventExactly`; `PreventedIsSilent` and `PanicIsSilent` are two inputs).
- metrics.go:171 promises Success each time Execute does not return an error. Success is reported exactly if the command
  may run and returns nil in time (`RunMetricsPromises.SuccessExactly`). An Execute that returns nil reports no Success
  exactly if there is no command, the circuit is disabled, the nil came late, or a fallback turned the error of a failed,
  late, interrupted, short-circuited, throttled or prevented call into nil (`NilWithoutSuccessExactly`); there is a lemma
  for one input of each.
- `Mean` of a list whose sum overflows can lie outside of the list (`Percentiles.MeanOverflows`); for durations it is the
  true mean exactly if the sum does not overflow (`Percentiles.MeanIsTrueIffNoOverflow`).
- The interpolation of `Percentile` wraps around when two entries are too far apart: the median of -2^63 and 0 is 2^62
  (`Percentiles.MedianOverflows`). It stays between its two entries, for every weight, exactly if their difference fits
  into an int64 or is that of the two extremes (`Percentiles.BlendStaysExactly`), and percentiles grow with p exactly if
  that is so for all neighbours (`Percentiles.PercentileIsMonotoneExactly`). Durations always fit.
- With timestamps out of order `ShouldOpen` can compare the errors of one window with the attempts of another
  (`HystrixOpener.OutOfStepTheWindowsDiffer`). It compares those of one window exactly if no attempt, transition or
  question has come later than the bucket of `now` and later than what last moved the errors
  (`HystrixOpener.SameWindowExactlyInStep`); on one clock that is so, and the answer is about the window that ends now.

## Model

| member | source | states |
|---|---|---|
| CircuitDelivery.EveryRunKeepsInv | circuit.go:240-352 | every interleaving of any number of calls, with panicking listeners, keeps the invariant that all results below rest on |
| CircuitDelivery.TransitionsAreOrdered | circuit.go:256-281 | committed transitions strictly alternate, Opened first, with non-decreasing timestamps, each at or after its flip; with the lock free `isOpen` is what was committed last |
| CircuitDelivery.ListenersHearInOrder | circuit.go:279-352 | delivered ++ pending is what was committed, listener calls start in the order of popping, and no two calls are inside listeners |
| CircuitDelivery.IdleIsQuiet | circuit.go:305-342 | at rest the lock and the deliverer role are free and the queue is empty |
| CircuitDelivery.NoNotificationIsStranded | circuit.go:295-342 | a non-empty queue always has exactly one deliverer or a call on its way to become one, also after panics; at rest everything committed has been delivered |
| CircuitDelivery.SomeCallCanStep | circuit.go:257-342 | no deadlock: unless all calls have returned, one of them can take a step; and unless all that have not are in code of the user, one that is not can |
| CircuitDelivery.StepsRunOut | circuit.go:305-342 | no livelock: without new calls the remaining steps, draining and panic cleanup included, are bounded by the work left |
| CircuitHalfOpen.LateAllowDoesNotArm | closers/hystrix/closer.go:154-168 | an Allow that comes after the circuit has closed, from a request that started before that, leaves the closer alone |
| CircuitHalfOpen.OnlyProbesCount | closers/hystrix/closer.go:176-186 | a request whose success counts against the current arming was admitted in this episode |
| CircuitHalfOpen.EveryRunKeepsInv | circuit.go:256-281 | every interleaving keeps the invariant that the next two results rest on |
| CircuitHalfOpen.CloserAgreesWithCircuit | closers/hystrix/closer.go:107-171 | with the lock free the closer is armed iff the circuit is open, and then with the timestamp of the last committed open |
| CircuitHalfOpen.OnlyCountsUp | closers/hystrix/closer.go:182-216 | the success count is never negative |
| CircuitHalfOpen.OnlyGenuineProbesClose | circuit.go:476-488 | without ForcedClosed, whenever the lock is free all counted successes are of distinct requests that Allow granted in this episode, and each automatic close was decided on at least RequiredConcurrentSuccessful of these in a row with no counted failure between them |
| CircuitClosing.EveryRunKeepsInv | circuit.go:476-488 | every interleaving, in which no success finds ForceOpen set when it tests it and no RunMetrics listener panics on a success, keeps the invariant that the next result rests on |
| CircuitClosing.NoCloseIsMissed | circuit.go:476-488 | under every such schedule, with failures, manual transitions, overrides and panicking transition listeners, an open circuit that has counted enough successes in a row has a call on its way to close it; so an open circuit at rest has counted fewer |
| CircuitClosing.NoWindowIsTooLong | closers/hystrix/closer.go:107-134 | in every interleaving an armed closer's window ends at most one SleepWindow from now, and it and its timer were armed in the past |
| CircuitCalls.EveryCallIsPlaced | circuit.go:374-617 | in every interleaving, what a call has found until now is what its place in the code says |
| CircuitCalls.EveryCallIsDecided | circuit.go:374-617 | under every schedule an Execute has run its function iff ForceOpen was off, it found ForcedClosed on or closed or room and a yes of Allow, Prevent said no, and it was within the limit, which is iff nothing of this turned it away; it has opened the circuit iff it failed or timed out, no listener panicked at that, and it found the circuit closed each time, ForcedClosed off and two yes; it has closed it iff likewise it succeeded and found open, ForceOpen off and enough successes, twice; its fallback ran iff one was given and there was room; a manual transition has moved the circuit iff it found it in the other state, twice |
| CircuitCalls.NoOutcomeIsDropped | circuit.go:476-549 | at any time each reported failure, timeout or success, at which no listener panicked, is on its way to move the circuit, or has, or its call found one of these reasons not to |
| CircuitCalls.ReportsReachTheCloser | closers/hystrix/closer.go:176-216 | a report of a request that started after the closer was armed adds one to the count, or clears it for a failure or timeout, and touches nothing else of the closer |
| CircuitLimit.LimitsAreKept | circuit.go:422-427 | the counters equal the calls between Add(1) and Add(-1), at most the limit of runFuncs and fallbackFuncs run at once, and at rest both counters are 0 |
| Recovery.SuccessfulProbeMakesProgress | circuit.go:406-488 | a wait for the sleep window and one request, and nothing else: Allow grants it at that time, its success is counted as that of a probe of this episode when the command ends, and then ShouldClose closes the circuit, or it waits again with one more success counted; the clock has moved by the wait and the command |
| Recovery.ProbesClose | closers/hystrix/closer.go:182-221 | exactly as many requests as successes are missing (at least one), at any pace that the sleep windows allow and however long each takes, lead from a waiting circuit to a closed one at rest: each was granted as a probe of that episode and counted in order, there is one new automatic close, decided on the last of them, and no manual transition or override takes part |
| Recovery.SomePaceWorks | closers/hystrix/closer.go:120-134 | for any number of probes there is such a pace |
| Recovery.OpenAtRestIsWaiting | closers/hystrix/closer.go:107-134 | every reachable open circuit at rest that nothing forces is armed; its next probe is a sleep window or more after it opened, and at most one sleep window from now |
| Recovery.OneSleepWindowIsEnough | faststats/timedcheck.go:102-143 | probes that each wait for a SleepWindow are all granted, however long their commands take |
| Recovery.RecoveryIsAlwaysReachable | closers/hystrix/closer.go:154-221 | from every reachable open circuit at rest, not forced and not limited to 0, every paced sequence of as many probes as are missing, which the opener does not prevent and which succeed, recovers it in the sense of ProbesClose; at most max(1, RequiredConcurrentSuccessful) are missing, and a wait of a SleepWindow before each is always such a pace |
| Recovery.RecoveryIsInTime | closers/hystrix/closer.go:154-221 | so it recovers within max(1, RequiredConcurrentSuccessful) times the SleepWindow and the time of a command |
| Recovery.PanickingListenerMissesTheClose | circuit.go:476-488 | a RunMetrics listener that panics on the deciding success leaves the circuit at rest, open, with enough successes counted |
| Recovery.ForceOpenMissesTheClose | circuit.go:478-482 | so does a ForceOpen that is set while the deciding success tests it, and reset at once |
| Tripping.TrippingIsAlwaysReachable | circuit.go:528-617 | from every reachable closed circuit at rest, not forced and not limited to 0, one request that fails or times out, and for which the opener says yes twice, leads to an open one at rest, with exactly one flip and one Opened, which was committed, told to the closer, and started for the listeners, all with the clock at that time |
| SequentialRuns.OrderlyMeans | metrics.go:148-155 | the i-th transition that listeners hear is Opened iff i is even; timestamps never decrease |
| SequentialRuns.JudgeIsSound | circuit.go:438-473 | the verdict on a command emits one event, makes at most one transition, and keeps the invariant |
| SequentialRuns.DenialIsSound | circuit.go:412-427 | a denied command emits one event, or none if Prevent denied it, in which case nobody hears anything, and its counter goes back |
| SequentialRuns.OperationIsSound | circuit.go:374-394 | every operation, however nested, keeps the invariant and returns both counters to where they were |
| SequentialRuns.EveryRunIsSound | circuit.go:374-394 | after every sequence of operations: Executes = run events + prevented + panicked, listeners heard alternating transitions whose last is the state, and both counters are 0 |
| RunMetricsPromises.RefusalEvents | circuit.go:407-427 | a refused command emits one event, of a short circuit or of the concurrency limit, and none if Prevent rejected it |
| RunMetricsPromises.CommandEvents | circuit.go:438-473 | a command that ran adds one event to what it found when it ended, and none if it panicked |
| RunMetricsPromises.OneEventExactly | metrics.go:167-195 | an Execute with a command emits exactly one run event of its own iff the circuit is not disabled, Prevent does not reject it and the function does not panic; otherwise none |
| RunMetricsPromises.SuccessExactly | metrics.go:171-172 | that event is Success iff the command may run and returns nil within its timeout |
| RunMetricsPromises.NilExactly | circuit.go:374-394 | the four ways in which Execute returns nil: no command, disabled, the command itself, the fallback |
| RunMetricsPromises.NilWithoutSuccessExactly | metrics.go:171-172 | a Success implies a nil result; a nil result comes without Success iff there is no command, the circuit is disabled, the command came late, or the fallback returned it |
| RunMetricsPromises.PreventedIsSilent | circuit.go:418-420 | a preventing opener: an error and no event |
| RunMetricsPromises.PanicIsSilent | circuit.go:422-436 | a panicking function: no event |
| RunMetricsPromises.LateReturnsNil | circuit.go:539-549 | a late nil: nil and a Timeout |
| RunMetricsPromises.FailureIsRescued | circuit.go:388-394 | a failure whose fallback returns nil: nil and a Failure |
| RunMetricsPromises.NoCommandReturnsNil | circuit.go:375-377 | no command: nil and no event |
| RunMetricsPromises.DisabledReturnsNil | circuit.go:378-380 | a disabled circuit: nil and no event |
| RunMetricsPromises.TimeoutIsRescued | circuit.go:539-549 | a late error whose fallback returns nil: nil and a Timeout |
| RunMetricsPromises.InterruptIsRescued | circuit.go:495-518 | an interrupt whose fallback returns nil: nil and an Interrupt |
| RunMetricsPromises.PreventionIsRescued | circuit.go:418-420 | a prevented command whose fallback returns nil: nil and no event |
| RunMetricsPromises.ShortCircuitIsRescued | circuit.go:412-416 | an open circuit whose fallback returns nil: nil and a ShortCircuit |
| RunMetricsPromises.ThrottleIsRescued | circuit.go:424-427 | a throttled command whose fallback returns nil: nil and a ConcurrencyLimitReject |
| SequentialRuns.OneEventAtTheEnd | circuit.go:438-473 | a command that returns is reported exactly once, after its own nested effects, with exactly these conditions for bad request, timeout, interrupt, failure and success; its caller gets what it returned |
| SequentialRuns.OverridesHold | circuit.go:476-482 | while ForceOpen is set nothing automatic moves the underlying state, and while ForcedClosed is set nothing automatic opens it |
| SequentialRuns.ForceOpenStartsNothing | circuit.go:581-585 | while ForceOpen is set what a command would have done makes no difference: it is short-circuited |
| SequentialInvariants.EveryRunKeeps | circuit.go:374-617 | what every report, transition and question keeps, every sequence of operations keeps, nested ones and panics included |
| SequentialInvariants.EverybodyHearsEverything | circuit.go:138-151 | after every sequence of operations opener and closer have heard exactly the run events and transitions that the listeners heard, in one order |
| ExecuteResults.AdmittedExactly | circuit.go:406-427 | a command may run iff the circuit does not refuse to try, Prevent says no and there is room; each refusal has its own error and event |
| ExecuteResults.ExecuteReturnsExactly | circuit.go:374-394 | Execute returns nil without a command, and does no more than the command if disabled; else it returns what the command returned, or CircuitOpen or ThrottledCommands exactly when it was refused; unless that is an error that is no bad request and a fallback is enabled: then what that returned, or ThrottledFallbacks exactly when there is no room |
| ExecuteResults.FallbackEventExactly | circuit.go:553-577 | exactly one fallback event iff such a fallback was reached and did not panic: reject, failure or success by what it returned, with its start and duration; the count of fallbacks goes back |
| ExecuteResults.AutomaticMoveIsHeard | circuit.go:256-281 | at the end of a command the listeners hear one transition iff the state has changed, with that state and the clock after the run metrics |
| ExecuteResults.ManualMoveIsHeard | circuit.go:219-228 | a manual transition leaves the circuit as it says, and is heard of iff it had to move it |
| ExecuteResults.ExactlyTheLimitRuns | circuit.go:422-427 | of nested commands exactly as many run as MaxConcurrentRequests leaves room for, and the next one is rejected |
| SequentialCircuit.Circuit.constructor | circuit.go:77-85 | a new circuit is closed, with nothing running and nothing queued |
| SequentialCircuit.Circuit.NotifyStateMachines | circuit.go:285-293 | closer and opener are told of the transition |
| SequentialCircuit.Circuit.Ask | circuit.go:263-267 | asks the opener's ShouldOpen or the closer's ShouldClose |
| SequentialCircuit.Circuit.CommitTransition | circuit.go:256-281 | flips, tells and queues iff the state differs and the recheck agrees; the timestamp is the later of the caller's and the clock |
| SequentialCircuit.Circuit.NotifyListeners | circuit.go:346-352 | the listeners hear one transition |
| SequentialCircuit.Circuit.DeliverPendingTransitions | circuit.go:305-342 | the listeners hear the whole queue, oldest first, and the role is given back; a delivery in progress is left to go on |
| SequentialCircuit.Circuit.TransitionTo | circuit.go:240-248 | the transition is committed and delivered, or nothing changes |
| SequentialCircuit.Circuit.CloseCircuit | circuit.go:219-221 | an open circuit closes, whatever the overrides |
| SequentialCircuit.Circuit.OpenCircuit | circuit.go:226-228 | a closed circuit opens, whatever the overrides |
| SequentialCircuit.Circuit.AttemptToOpen | circuit.go:602-617 | opens iff not forced closed and ShouldOpen says yes twice |
| SequentialCircuit.Circuit.Emit | metrics.go:37-41 | the closer, the opener and the listeners hear the event |
| SequentialCircuit.Circuit.CheckSuccess | circuit.go:476-488 | reports, then closes iff open, not forced open, and ShouldClose says yes twice |
| SequentialCircuit.Circuit.CheckErrBadRequest | circuit.go:520-526 | reports iff the error is a bad request |
| SequentialCircuit.Circuit.CheckErrTimeout | circuit.go:539-549 | reports and attempts to open iff the command ended after its deadline |
| SequentialCircuit.Circuit.CheckErrInterrupt | circuit.go:495-518 | reports iff there is an error, the parent context has ended, and the settings count that as an interrupt |
| SequentialCircuit.Circuit.CheckErrFailure | circuit.go:528-537 | reports and attempts to open iff there is an error |
| SequentialCircuit.Circuit.AllowNewRun | circuit.go:581-595 | no under ForceOpen, yes if forced closed or closed, no at the limit without asking the closer, else the closer's answer |
| SequentialCircuit.Circuit.Begin | circuit.go:407-427 | admits and counts the command, or denies it with its event and its error |
| SequentialCircuit.Circuit.Classify | circuit.go:438-472 | the five checks in order come to the one verdict |
| SequentialCircuit.Circuit.End | circuit.go:423-473 | verdict unless panicking, then the deferred decrement in both cases |
| SequentialCircuit.Circuit.Run | circuit.go:406-473 | a whole command, with its nested operations |
| SequentialCircuit.Circuit.Fallback | circuit.go:553-577 | skipped without a fallback or when disabled, throttled at its own limit, else run and reported; the counter goes back also on a panic |
| SequentialCircuit.Circuit.Execute | circuit.go:374-394 | nil commands do nothing, a disabled circuit runs the command bare, bad requests skip the fallback |
| SequentialCircuit.Circuit.PerformAll | circuit_property_test.go:523-606 | a sequence of operations has the effects of the specification one after the other |
| ReferenceMachine.StepAgrees | circuit_property_test.go:376-441 | each operation takes circuit and machine from agreement to agreement |
| ReferenceMachine.CircuitAgreesWithMachine | circuit_property_test.go:523-606 | for every operation sequence, with overrides and Prevent, circuit and machine agree on the state and on the numbers of run events, fallback events, Opened and Closed |
| HystrixCloser.HalfOpenCloser.constructor | closers/hystrix/closer.go:22-57 | a new closer is not armed |
| HystrixCloser.HalfOpenCloser.Configure | closers/hystrix/closer.go:233-241 | new settings, same episode |
| HystrixCloser.HalfOpenCloser.Arm | closers/hystrix/closer.go:120-134 | starts the sleep window, sets openedAt if forced or missing, clears the count |
| HystrixCloser.HalfOpenCloser.OnOpened | closers/hystrix/closer.go:107-109 | arms, always |
| HystrixCloser.HalfOpenCloser.OnClosed | closers/hystrix/closer.go:137-142 | disarms and clears the count, the sleep window stays |
| HystrixCloser.HalfOpenCloser.Ask | closers/hystrix/closer.go:154-171 | denies while not armed, arming itself unless it was told Closed within a sleep window; else the permit window decides |
| HystrixCloser.HalfOpenCloser.OnSuccess | closers/hystrix/closer.go:182-186 | counts only requests that started strictly after openedAt |
| HystrixCloser.HalfOpenCloser.OnError | closers/hystrix/closer.go:205-216 | resets the count only for such requests |
| HystrixCloser.HalfOpenCloser.AskClose | closers/hystrix/closer.go:219-221 | true iff the count has reached what is required |
| HystrixCloser.ArmedGrants | closers/hystrix/closer.go:154-171 | an armed closer grants exactly what its permit window grants |
| HystrixCloser.EpisodeProbeRate | closers/hystrix/closer.go:120-171 | after Opened(T) no request that started before T + SleepWindow is granted, and before the m-th window after that at most m * max(1, HalfOpenAttempts) are, for every m |
| HystrixCloser.EachWindowGrantsItsProbes | closers/hystrix/closer.go:154-171 | once the timer has fired, max(1, HalfOpenAttempts) requests at or after the end of the window are all granted, and the last of them starts the next window, a SleepWindow after itself |
| HystrixCloser.EpisodeGrantsItsProbes | closers/hystrix/closer.go:107-134 | after Opened(T) these are requests at or after T + SleepWindow |
| HystrixCloser.UntoldCloserHeals | closers/hystrix/closer.go:154-168 | a closer that nobody tells anything denies and arms itself unless it was told Closed within a SleepWindow, and grants a request a SleepWindow later |
| TimedChecks.TimedCheck.ResetOpenTimeWithLock | faststats/timedcheck.go:102-118 | a new window and version, the flag up, a timer of that version armed |
| TimedChecks.TimedCheck.SleepFrom | faststats/timedcheck.go:96-100 | the same, under the lock |
| TimedChecks.TimedCheck.TimerFires | faststats/timedcheck.go:112-117 | only the callback of the current version lowers the flag |
| TimedChecks.TimedCheck.Ask | faststats/timedcheck.go:121-143 | grants iff the flag is down and the window open; the last permit starts the next window |
| TimedChecks.GrantsLeft | faststats/timedcheck.go:121-143 | permits already used in this window count against the bound |
| TimedChecks.ProbeRateIsBounded | faststats/timedcheck.go:102-143 | for checks with timestamps in any order and timer callbacks of any version, at most m * max(1, allowed) grants before the m-th window, for every m |
| TimedChecks.NothingBeforeTheWindow | faststats/timedcheck.go:121-137 | no grant carries a timestamp before nextOpenTime |
| TimedChecks.AllPermitsAreHandedOut | faststats/timedcheck.go:121-143 | from a window with its flag down, what is left of max(1, eventCountToAllow) checks, and at least one, at or after nextOpenTime and in any order, are all granted; the last of them, and none before, moves the window to its timestamp plus sleepDuration |
| TimedChecks.NothingBeforeTheTimer | faststats/timedcheck.go:102-127 | a raised flag denies all checks until the timer of its version fires |
| TimedChecks.EachWindowGrantsItsPermits | faststats/timedcheck.go:96-143 | so a window that SleepStart begins grants nothing before its timer, and max(1, eventCountToAllow) checks after it |
| TimedCheckRace.EveryGrantIsLogged | faststats/timedcheck.go:121-143 | for every timestamp, as many checks have returned true as grants are in the log |
| TimedCheckRace.FlagOnlyDenies | faststats/timedcheck.go:102-143 | in every interleaving the checks that returned true are the logged ones, and these are what the window without flag and timers grants, in the order in which they took the lock |
| TimedCheckRace.DenialsAreJustified | faststats/timedcheck.go:121-143 | in every interleaving a check is denied, at once, if the flag is up, and later iff the window without flag and timers, as the log leaves it, denies it; a check that passes under the lock returns true |
| TimedCheckRace.FlagStaysUp | faststats/timedcheck.go:102-118 | in every interleaving the flag that a reset has raised stays up until a callback lowers it |
| TimedCheckRace.FlagIsAlwaysRescued | faststats/timedcheck.go:110-118 | whenever no reset holds the lock, a raised flag has a callback of the current version pending or running |
| TimedCheckRace.LogIsARun | faststats/timedcheck.go:121-143 | racing grants are those of a sequential run |
| TimedCheckRace.RacingProbeRateIsBounded | faststats/timedcheck.go:102-143 | hence the bound on the probe rate holds in every interleaving |
| RollingWindows.RollingBuckets.RollForward | faststats/rolling_bucket.go:71-83 | clears exactly the slots of the expired indices, once each, and publishes the later index |
| RollingWindows.RollingBuckets.Advance | faststats/rolling_bucket.go:37-65 | each index of the new window keeps what it held or starts cleared; -1 iff the timestamp is before the start or a window behind |
| RollingCounters.CountsAddUp | faststats/rolling_counter.go:116-128 | the counts of the window's indices add up to the number of logged events in it |
| RollingCounters.ShownAddsUp | faststats/rolling_counter.go:141-156 | the buckets that are shown add up to the rolling sum |
| RollingCounters.IncMeansOneMore | faststats/rolling_counter.go:104-114 | one more event changes the count of its own index only, and no other index of the window lives in that slot |
| RollingCounters.AdvancedSlots | faststats/rolling_bucket.go:67-83 | rolling forward keeps slots and event counts in step |
| RollingCounters.IncrementedSlots | faststats/rolling_counter.go:104-114 | so does counting an event, in or out of the window |
| RollingCounters.RollingCounter.constructor | faststats/rolling_counter.go:27-36 | an empty log |
| RollingCounters.RollingCounter.Advance | faststats/rolling_bucket.go:37-65 | the window moves, the log stays |
| RollingCounters.RollingCounter.Inc | faststats/rolling_counter.go:104-114 | the log gains one event, the total one |
| RollingCounters.RollingCounter.SumBuckets | faststats/rolling_counter.go:116-122 | the sum of the slots |
| RollingCounters.RollingCounter.RollingSumAt | faststats/rolling_counter.go:125-128 | exactly the events since the last Reset, not before the start, whose index is in (L - n, L], L being the latest index that any call was given |
| RollingCounters.RollingCounter.GetBuckets | faststats/rolling_counter.go:141-156 | bucket i is the count at index L - i, and all add up to the rolling sum |
| RollingCounters.RollingCounter.Reset | faststats/rolling_counter.go:163-168 | an empty log, the total untouched |
| RollingRace.LiveSlotsAreNotCleared | faststats/rolling_bucket.go:67-83 | in every interleaving a slot that was handed out for index a is cleared only on the way to an index of at least a + n |
| RollingRace.RollsAscend | faststats/rolling_bucket.go:71-83 | LastAbsIndex never decreases and successive rolls clear disjoint ascending indices |
| RollingRace.PublishedSlotsAreEmpty | faststats/rolling_bucket.go:78-82 | before an index is published this roll has cleared every slot that it brings into the window, all such a slot can hold is what was written a full window late since then, and it is empty iff nothing was |
| RollingRace.LateWriteIsPublished | faststats/rolling_bucket.go:16-19 | a run in which such a late write does land in a slot that is about to be published |
| RollingRace.NoIncIsDropped | faststats/rolling_bucket.go:37-83 | as long as no roll leaves index a behind, the Incs begun for a are those written and those still under way, also for a burst that has to roll the window or to wait for the roll |
| RollingRace.OnlyLiveIncsAreWritten | faststats/rolling_bucket.go:37-65 | an Inc is given a slot only for an index that was not before the start and less than a window behind when it looked |
| RollingRace.NoEventIsLost | faststats/rolling_bucket.go:37-83 | hence all of them but those under way are in the slot of a; with none under way the bucket of an index in the window holds exactly the Incs begun for it iff nothing was written a window late into that slot since its last clearing |
| RollingRace.RollingSumIsAtMostTotal | faststats/rolling_counter.go:104-138 | a reader that loads the buckets in any order and totalSum last never sees more than the total |
| RollingRace.RollingSumIsBetween | faststats/rolling_counter.go:116-128 | a rolling sum that no roll overlaps lies between the sum of the buckets when the scan began and the sum afterwards, whatever Incs come meanwhile |
| DurationsBuckets.EncodingIsLossless | faststats/rolling_percentile.go:219-229 | encoding never yields the unset mark and decodes to the clamped duration, also at MaxInt64 |
| DurationsBuckets.DecodingIsLossless | faststats/rolling_percentile.go:219-229 | every set value that decodes to a duration of at least 0 is the encoding of that duration |
| DurationsBuckets.AddHolds | faststats/rolling_percentile.go:271-278 | a full ring overwrites its oldest duration and keeps all others |
| DurationsBuckets.ClearedIsFresh | faststats/rolling_percentile.go:263-269 | clearing the used prefix is a full clear |
| DurationsBuckets.ContentsAreTheLast | faststats/rolling_percentile.go:237-247 | what is stored is, as a multiset, the last bucketSize durations, negative ones as 0 |
| DurationsBuckets.DurationsBucket.constructor | faststats/rolling_percentile.go:204-208 | an empty ring |
| DurationsBuckets.DurationsBucket.AppendDurations | faststats/rolling_percentile.go:237-247 | appends the stored durations |
| DurationsBuckets.DurationsBucket.Clear | faststats/rolling_percentile.go:263-269 | equals a new ring of the same size |
| DurationsBuckets.DurationsBucket.AddDuration | faststats/rolling_percentile.go:271-278 | the ring has been given one more duration; a ring of size 0 stays empty |
| DurationsRace.EveryRunKeepsInv | faststats/rolling_percentile.go:233-278 | every interleaving of addDuration, clear and readers keeps the invariant that the next three results rest on |
| DurationsRace.NothingStaleSurvives | faststats/rolling_percentile.go:253-256 | whatever a slot holds was reserved after the last index reset, or a clear overtook its writer between reservation and store |
| DurationsRace.NothingNewIsWiped | faststats/rolling_percentile.go:258-259 | what a clear is about to unset was reserved before it resets the index |
| DurationsRace.NoDurationIsLost | faststats/rolling_percentile.go:258-262 | until the next clear begins, the slot of a duration that no clear overtook is in the used prefix, and holds that duration or one that was reserved for the same slot and stored later |
| DurationsRace.ReadersSeeStoredDurations | faststats/rolling_percentile.go:237-247 | readers collect only durations that some call stored |
| DurationsRace.ReadersMissNothing | faststats/rolling_percentile.go:237-247 | a reader that is through has collected every duration that was stored before it read the size and that no clear overtook, or a later one of its slot, unless a clear began meanwhile |
| DurationsRace.ReadersSeeWhatIsThere | faststats/rolling_percentile.go:237-247 | hence whatever is stored when a reader arrives |
| DurationsRace.LateDurationIsSeen | faststats/rolling_percentile.go:260-262 | a run in which a reader sees a duration whose writer was overtaken, in a slot that is reserved and not yet written |
| RollingPercentiles.AdvancedBuckets | faststats/rolling_bucket.go:67-83 | rolling forward keeps rings and log in step |
| RollingPercentiles.AddedBucket | faststats/rolling_percentile.go:170-179 | so does adding a duration, in or out of the window |
| RollingPercentiles.WindowAddsUp | faststats/rolling_percentile.go:144-150 | all slots together hold what the window's indices hold together |
| RollingPercentiles.Sorted | faststats/rolling_percentile.go:151-151 | an ascending permutation |
| RollingPercentiles.RollingPercentile.constructor | faststats/rolling_percentile.go:109-127 | an empty log |
| RollingPercentiles.RollingPercentile.Advance | faststats/rolling_bucket.go:37-65 | the window moves, the log stays |
| RollingPercentiles.RollingPercentile.WindowIsShown | faststats/rolling_percentile.go:138-153 | the rings hold, per index of the window, the last bucketSize durations of the log |
| RollingPercentiles.RollingPercentile.AllDurations | faststats/rolling_percentile.go:147-150 | everything that the rings hold |
| RollingPercentiles.RollingPercentile.SortedDurations | faststats/rolling_percentile.go:138-153 | ascending, and as a multiset the union, over the indices of the window, of the last bucketSize durations accepted for each, clamped at 0 |
| RollingPercentiles.RollingPercentile.AddDuration | faststats/rolling_percentile.go:170-179 | the log gains one sample |
| RollingPercentiles.RollingPercentile.Reset | faststats/rolling_percentile.go:182-187 | an empty log |
| PercentileRace.EveryRunKeepsInv | faststats/rolling_percentile.go:138-179 | every interleaving of AddDuration and SortedDurations, with clears of many steps inside rolls, keeps the invariants of the window and of all rings, and what ties durations to their indices |
| PercentileRace.ClearsExclude | faststats/rolling_bucket.go:67-83 | two rolls never clear the same ring at once |
| PercentileRace.NoAddIsDropped | faststats/rolling_percentile.go:170-179 | as long as no roll leaves index a behind, every AddDuration begun for a has been given a slot of its ring or is on its way there |
| PercentileRace.LiveDurationsAreKept | faststats/rolling_percentile.go:249-278 | and as long as none is about to, what it stored, or a later duration that was reserved for the same slot, is in its slot, where readers look, and no clear overtook it |
| PercentileRace.SnapshotsAreGenuine | faststats/rolling_percentile.go:138-153 | rings hold, and snapshots collect from them, only durations that some call stored for an index of that ring |
| PercentileRace.BucketsAreOfTheirIndex | faststats/rolling_percentile.go:249-262 | the ring of an index of the window has handed out exactly the slots for that index iff nothing came a window late since its clearing; then all that it holds is of that index, but for durations that a clear overtook |
| PercentileRace.EverySlotIsCovered | faststats/rolling_percentile.go:271-278 | each slot handed out since the last clear belongs to a call |
| PercentileRace.EveryNumberIsHandedOutOnce | faststats/rolling_percentile.go:271-278 | and to no other call |
| PercentileRace.QuietBucketsAreExact | faststats/rolling_percentile.go:138-179 | with nothing under way for that ring and nothing late, it has handed out as many slots as AddDurations were begun for the index, and readers find them set, without holes, up to its size, each with a duration that was reserved for it |
| PercentileRace.QuietBucketsKeepEach | faststats/rolling_percentile.go:138-179 | if these AddDurations fit into the ring, each of them has its own duration in a slot of its own, and each slot that readers look at is one of these, but where a writer that a clear overtook has stored over it |
| PercentileRace.ReadersMissNothing | faststats/rolling_percentile.go:138-153 | in every bucket, readers miss nothing as in DurationsRace |
| PercentileRace.LiveDurationsAreSeen | faststats/rolling_percentile.go:138-153 | a snapshot that begins after a duration was stored, and has come past its bucket, has that duration or a later one of its slot, as long as no roll has left its index behind or is about to |
| Percentiles.Mean | faststats/rolling_percentile.go:34-44 | the sum in 64-bit arithmetic divided towards 0, or -1 for an empty list |
| Percentiles.BlendStaysExactly | faststats/rolling_percentile.go:102-105 | in 64-bit arithmetic, interpolation between two entries stays between them for every weight iff their difference fits into an int64 or is that of the two extremes |
| Percentiles.DurationsFit | faststats/rolling_percentile.go:219-229 | lists of entries of at least 0 meet that |
| Percentiles.MedianOverflows | faststats/rolling_percentile.go:102-105 | the median of -2^63 and 0 is 2^62 |
| Percentiles.PercentileInRange | faststats/rolling_percentile.go:79-106 | between Min and Max, for every p, if neighbouring entries meet that |
| Percentiles.PercentileIsMonotone | faststats/rolling_percentile.go:79-106 | then it grows with p, also across segment boundaries and despite truncation |
| Percentiles.PercentileIsMonotoneExactly | faststats/rolling_percentile.go:79-106 | an ascending int64 list has growing percentiles iff every two neighbours meet that |
| Percentiles.PercentileIsLinear | faststats/rolling_percentile.go:93-105 | less than one below the straight line between the entries around p / 100 * (len - 1) |
| Percentiles.PercentileMeetsEntries | faststats/rolling_percentile.go:93-105 | equals s[i] at p = 100 * i / (len - 1), for all int64 entries |
| Percentiles.MeanInRange | faststats/rolling_percentile.go:34-44 | between Min and Max unless the sum overflows |
| Percentiles.MeanTruncates | faststats/rolling_percentile.go:34-44 | then it is the quotient towards zero |
| Percentiles.MeanOverflows | faststats/rolling_percentile.go:39-43 | two entries of MaxInt64 have mean -1 |
| Percentiles.MeanIsTrueIffNoOverflow | faststats/rolling_percentile.go:34-44 | for durations of at least 0, the true mean iff the sum does not overflow |
| HystrixOpener.GridOf | closers/hystrix/opener.go:184-195 | unusable bucket settings fall back to the defaults, usable ones are kept, and the buckets are as wide as the rolling duration allows |
| HystrixOpener.ErrorsNeverExceedAttempts | closers/hystrix/opener.go:114-139 | at every bucket index, and in every range of indices, there are at most as many errors as attempts |
| HystrixOpener.AskingTwiceChangesNothing | closers/hystrix/opener.go:149-158 | asking again with the same timestamp gives the same answer, whatever the order of timestamps before |
| HystrixOpener.AnswersOnOneClock | closers/hystrix/opener.go:149-158 | on one clock the answer is yes iff, over the results since the last transition in the window that ends now, attempts >= max(1, threshold) and 100 * errors >= percentage * attempts |
| HystrixOpener.ErrorsLagBehind | closers/hystrix/opener.go:102-158 | after any results, transitions and questions, in any order of timestamps, the window of the errors is never ahead of that of the attempts |
| HystrixOpener.SameWindowExactlyInStep | closers/hystrix/opener.go:149-158 | after any of these ShouldOpen compares errors and attempts of the same window iff nothing took the attempts beyond the bucket of now and beyond what the errors were last moved to |
| HystrixOpener.InStepAnswers | closers/hystrix/opener.go:149-158 | and then errors do not exceed attempts, and the answer is the threshold test on the results in that window |
| HystrixOpener.OutOfStepTheWindowsDiffer | closers/hystrix/opener.go:149-158 | two errors and a later success leave an opener out of step, so that ShouldOpen, asked at the time of the errors, sees two errors and one attempt |
| HystrixOpener.Opener.constructor | closers/hystrix/opener.go:184-196 | no results |
| HystrixOpener.Opener.Success | closers/hystrix/opener.go:114-116 | one more result |
| HystrixOpener.Opener.Error | closers/hystrix/opener.go:130-139 | one more failed result, in both counters |
| HystrixOpener.Opener.Transitioned | closers/hystrix/opener.go:102-111 | no results any more |
| HystrixOpener.Opener.ShouldOpen | closers/hystrix/opener.go:149-158 | the threshold decision, and which windows it moves |
| HystrixOpener.Opener.SetConfigThreadSafe | closers/hystrix/opener.go:172-178 | new thresholds, same results |
| OpeningDecision.TheOpenerKnowsTheResults | closers/hystrix/opener.go:101-139 | after every sequence of operations the opener knows exactly the successes, failures and timeouts that were heard since the last transition, each at its own time, and nothing later than the clock |
| OpeningDecision.OneQuestionDecides | circuit.go:613-616 | the locked second question gives the answer of the first |
| OpeningDecision.JudgeOpensExactlyWhenDue | circuit.go:528-549 | a closed circuit opens at the end of a command iff it failed or timed out, is not forced closed, and over the events heard since the last transition, this one included, in the window that ends now: attempts >= max(1, threshold) and 100 * errors >= percentage * attempts |
| OpeningDecision.NothingMovesAfterRun | circuit.go:374-394 | without a fallback, or with one that makes no call on the circuit, Execute leaves the circuit as its command did |
| OpeningDecision.OpensExactlyWhenDue | circuit.go:602-617 | the same for a new circuit after every sequence of operations and for every command, nested operations included; this is how the whole Execute leaves the circuit, unless a fallback calls back |
| ClosingDecision.TheCloserCountsTheSuccesses | closers/hystrix/closer.go:107-216 | after every sequence of operations the closer is armed iff the circuit is open, with the timestamp that was heard, and has counted exactly the successes in a row of commands that started after that |
| ClosingDecision.JudgeClosesExactlyWhenDue | circuit.go:476-488 | an open circuit closes at the end of a command iff it returned nil in time, ForceOpen is off, and these successes, this one included, are enough |
| ClosingDecision.ClosesExactlyWhenDue | circuit.go:476-488 | the same after every sequence of operations and for every command, nested operations included |
| GoWrapper.EveryRunKeepsInv | gowrapper.go:16-73 | every interleaving of caller, worker, waiter and context keeps the invariant that the next results rest on |
| GoWrapper.UsedAtMostOnce | gowrapper.go:36-47 | the outcome of the function is used at most once: returned, re-panicked, or passed to lostErrors |
| GoWrapper.SendsGoThrough | gowrapper.go:26-35 | the worker's send always finds its channel open and with room |
| GoWrapper.ReceivesAreGenuine | gowrapper.go:62-68 | nobody ever receives the zero value of a closed channel |
| GoWrapper.CrashesAreExcused | gowrapper.go:62-73 | if the process has ended, the function panicked uncaught or lostErrors was called |
| GoWrapper.CrashesExactly | gowrapper.go:16-73 | over every run, the step that ends the process is exactly an uncaught panic of the function or a panic of lostErrors: no send and no close panics |
| GoWrapper.QuietMeansUsed | gowrapper.go:16-73 | when all is quiet the outcome was used exactly once iff there is one and the caller waited or lostErrors is set; otherwise it rests in its channel |
| GoWrapper.RunsEnd | gowrapper.go:16-73 | every run ends within ten steps |

## Left out

- Event streams, expvar, JSON, `String()`, the examples, `Manager`, factories and `Config.Merge`: formatting, I/O and field copying.
- `simplelogic`, `neverOpens`, `neverCloses`, `metrics/rolling`, `metrics/responsetimeslo`: thin instances and users of what is modelled.
- `errors.go`: an error is a bad request or not, as a field; reflection and wrapping are not modelled.
- Contexts: only whether the parent has ended, with which error, and the deadline that `run` computes.
- SequentialCircuit.Circuit.Execute: there are no nil and empty circuits; Execute treats these like Disabled, which is modelled.
- SequentialCircuit.Circuit.NotifyListeners: here the listeners take time, and neither panic nor call back; both are part of `CircuitProtocol`.
- SequentialCircuit.Circuit.DeliverPendingTransitions: so nothing panics here; the hand-over of the role after a panic is part of `CircuitProtocol`.
- Per-listener delivery inside one notifyListeners call: a panicking listener can keep later listeners from that one event.
- The opener inside `CircuitProtocol`: its answers are arbitrary there; the hystrix opener is part of `OpeningDecision` and of `Opener`.
- The outcome of a command inside `CircuitProtocol` is chosen by the environment; its classification is part of `SequentialSpec`.
- Several goroutines inside one hystrix Closer method: these methods are atomic.
- UnmarshalJSON of windows, counters and timed checks.
- CircuitLimit.LimitsAreKept: the limits do not change during a run.
- Recovery.RecoveryIsAlwaysReachable: is about probes one at a time; what holds under every schedule is `CircuitClosing.NoCloseIsMissed`.
- SequentialCircuit.Circuit.Emit: the user's listeners take time, and neither panic nor call back; both are part of `CircuitProtocol`.
- RollingRace.NoEventIsLost: no Reset, and a positive number of buckets (with none, every call ignores the window).
- RollingPercentiles.RollingPercentile.AddDuration: the rings inside the array of buckets are values that are replaced whole; the class `DurationsBucket`, which it does not use, shows the same ring in place.
- DurationsRace.NothingStaleSurvives: clears of one ring exclude each other, as those of Advance do under its lock; an explicit Reset during one is left out.
- PercentileRace.EveryRunKeepsInv: no Reset, a positive number of buckets and a positive bucket size (a ring of size 0 stays empty).
- Percentiles.PercentileInRange: real numbers stand for float64, so that rounding and NaN are not modelled.
- Percentiles.PercentileIsMonotone: real numbers stand for float64.
- Percentiles.PercentileMeetsEntries: real numbers stand for float64, where p / 100 may be rounded.
- HystrixOpener.Opener.ShouldOpen: the products with 100 and with the percentage are unbounded.
- HystrixOpener.Opener.constructor: reconfiguring a used opener with SetConfigNotThreadSafe is creating a new one.
- OpeningDecision.OpensExactlyWhenDue: a fallback that calls back on the circuit may move it again after the command has been judged.
- ClosingDecision.ClosesExactlyWhenDue: whether the timer has fired when the closer is asked is arbitrary, and a fallback that calls back on the circuit may move it again.
- Percentiles.PercentileIsLinear: real numbers stand for float64.
- SetConfigNotThreadSafe on a circuit that is open, which tells the new opener and closer that it is.
