# Proofs about the shared-memory rings and the consumers behind them

A Dafny 4.11 model of the concurrency and numeric core of this repository, with proofs. `dafny verify dfyconfig.toml`
checks all of it.

## What is modelled

**The three wait-free rings**, each as a state machine (`FanInRing`, `BroadcastRing`, `WorkQueue`) and as code
(`FanInCode`, `BroadcastCode`, `WorkQueueCode`).

- Every `Atomics` call is one step, and so is every payload word written or read. A thread may be parked for any time
  between two of its steps, holding whatever it has loaded. The check for room and the fetch-add that follows it are
  separate steps, for producers and for consumers. `Run(c, actions)` is the state after any number of steps of any
  threads in any order; a theorem over `Run` is a theorem over every reachable state. Thread count, capacity, frame
  length and run length are unbounded.
- Interleaving is sequentially consistent: the guarantee that clause 29 of ECMA-262 (2022 edition) gives programs whose
  accesses are all `Atomics`, extended here to the payload words.
- The steps are written once, over an `arith` that is either `Unbounded` (tickets never wrap) or `Wrapped` (Int32 lanes
  with `x | 0` and `x >>> 0`, sections 7.1.6 and 7.1.7 of ECMA-262). Safety is proved for unbounded tickets, and a
  refinement theorem carries it to the lanes as long as no thread lags too far; where the lanes do misread, an
  if-and-only-if says when and a run shows it. The fan-in ring's lanes keep safety whatever the lag (`FanInLanes`).
- What a single call comes to when no other thread moves meanwhile is stated separately, from any state of any run
  (`FanInSolo`, `BroadcastSolo`, `WorkQueueSolo`): the answer, and every lane it leaves.
- The classes hold the lanes as fields and arrays and execute the methods statement by statement. Between two
  statements `Others` lets any other thread take any number of steps, and `Valid()` says that the lanes are those of a
  run of the machine; so the machine's theorems hold of the code's lanes.

**Numeric state machines over exact reals**: the Kalman predictor (`Vectors`, `Kalman`, `KalmanUpdate`, `KalmanJoint`,
`KalmanFrames`, `KalmanHistory`, `KalmanMotion`, and the flat-array class in `StatePredictor`), the clock-recovery loop
(`ClockRecovery`, `ClockGate`, `ClockRecoveryTheorems`, `ClockDrift`), the circular unwrapper (`Circular`) and the flow
controller (`FlowController`).

**Stream and slot bookkeeping**: the re-blocking consumer (`Reblocking`, `BlockConsumer`) and the readback slots of the
GPU source (`ReadbackSlots`, `ReadbackTheorems`, `ReadbackBridge`, `GpuSource`).

Helpers: `Int32` (coercions, masking), `Tickets` (ticket arithmetic), `Pigeonhole`, `WaitFreedom` (counting arguments),
`Folds` (inputs in any order), `Polling` (calls that nothing disturbs).

## Findings

Where the code does not do what its comments promise, the code was followed. The first seven are proved.

- **Work queue, tickets from 2^31 on.** `pull` takes a negative claim for "empty", so a claim is kept if and only if its
  ticket is below 2^31 modulo 2^32 (`WorkQueueOrphan.ClaimHonoured`). `WorkQueueOrphan.Ticket2To31IsOrphaned` is a run
  that loses frame 2^31.
- **Broadcast ring, a reader overtaken by 2^31 tickets inside one call.** Stamps count two per ticket, so they repeat
  every 2^31 tickets. `BroadcastLapped` has a run that delivers a torn frame and a run that delivers a frame 2^31
  tickets newer with nothing counted as lost; `BroadcastWrap.RereadExact`, `GateReads` and `NetExact` say for exactly
  which lags each comparison misreads.
- **Fan-in ring, a push parked for more than 2^31 tickets** between its two loads can find an empty ring full
  (`FanInWrap.StaleCheckExact`; the run is `FanInStale.StalePushIsDropped`). The frame is dropped and counted, and that
  is all: a full ring is never taken for one with room (`FanInLanes.FullIsRefused`), so what is delivered is in order
  and whole however long any push was parked (`FanInLanes.Int32DeliversInOrder`).
- **Clock recovery, step escape.** In either mode it works if and only if `outlierConsecutiveLimit` is finite and below
  2^31 - 1, because the streak counter is kept as an Int32 (`ClockRecoveryTheorems.EscapeExact`).
- **Clock recovery, drift gain.** The constructor accepts every positive `driftGain`
  (src/ConsumerClockRecovery.ts:334); the drift branch locks onto a clock of constant rate if and only if the gain is
  below 3.6 (`ClockDrift.GainExact`).
- **Circular unwrapper.** The comment on the default slip threshold says both that it counts any crossing of the branch
  cut and that it counts exactly the antipodal step (src/circular.ts:157-163). The code compares the raw span: it counts
  every crossing of the cut except the upward half turn (`Circular.SlipExact`).
- **Frontier lane.** The test and the store of `advanceFrontier` are separate steps, so the lane may move backwards
  (`WorkQueueRegress.FrontierCanRegress` is a run); "never past the first undelivered ticket" is what holds
  (`WorkQueueTheorems.ReuseEnvelope`).
- **Bounded push.** A comment bounds the work queue's push by producerCount checks (src/MpmcWorkQueue.ts:588-589); its
  scan may pass `capacity` slots, and `WorkQueueWaitFree.WaitFree` uses that bound.
- **Drift branch, comments.** Two comments give 0.005 as the default of `driftGain` (src/ConsumerClockRecovery.ts:69 and
  220); the code uses 0.05 (line 187), and the model takes the gain as a parameter. The header adds the integral term to
  the offset in drift mode too (line 66); the code leaves it out there (lines 452-462), and so does the model.
- **Retained GPU image.** Partial readbacks are merged in the order in which slots are drained, which after a late
  resolution is not the order in which they were scheduled (`ReadbackTheorems.ImageIsMergedRanges`).

## Model

| member | source | states |
|---|---|---|
| FanInTheorems.DeliversInTicketOrder | src/MpmcRing.ts:446-551 | in every run, in flight is between 0 and capacity; what `pull` returned is exactly the first frames pushed, in ticket order, whole; the overload and torn counters stay 0 |
| FanInTheorems.GateExact | src/MpmcRing.ts:516-551 | the generation test opens if and only if the head is published, and the third outcome never occurs |
| FanInTheorems.AttemptsConserved | src/MpmcRing.ts:446-467 | attempted pushes = claimed + dropped + undecided |
| FanInTheorems.WaitFree | src/MpmcRing.ts:446-551 | words + 6 own steps of any thread include a return, in any interleaving |
| FanInSolo.PushAlone | src/MpmcRing.ts:446-467 | an undisturbed `push`, of either arithmetic, is admitted if and only if fewer than capacity - (producerCount - 1) tickets are in flight; then exactly its frame is under the next ticket, whole and stamped, else one drop is counted and nothing else changes |
| FanInSolo.PullAlone | src/MpmcRing.ts:499-551 | an undisturbed `pull` hands out the head if and only if its ticket is claimed and its producer is not writing any more, and changes nothing otherwise |
| FanInSlack.ProducerCountExact | src/MpmcRing.ts:96-100 | the envelope holds in every run if and only if no more threads push than were declared |
| FanInWrap.Int32Refines | src/MpmcRing.ts:189-191 | for every accepted capacity, lanes, slots, branches and history of the Int32 protocol are those of the unbounded one while no parked push lags 2^31 deliveries |
| FanInLanes.LanesAreLossy | src/MpmcRing.ts:446-551 | in every run whatever, lanes and history are those of the unbounded protocol in which some checks refuse although there is room |
| FanInLanes.FullIsRefused | src/MpmcRing.ts:450-455 | a check against a full ring is never misread, whatever the lag |
| FanInLanes.Int32DeliversInOrder | src/MpmcRing.ts:446-551 | so in every run the lanes deliver in order, whole and once, across any number of wraps and however long any thread was parked |
| FanInLanes.Int32AttemptsConserved | src/MpmcRing.ts:446-467 | and the drop lane counts, modulo 2^32, every attempt that neither claimed a ticket nor is undecided |
| FanInWrap.StaleCheckExact | src/MpmcRing.ts:450-455 | the lags for which the wrapped envelope check admits a push to an empty ring, as an if-and-only-if |
| FanInStale.StalePushIsDropped | src/MpmcRing.ts:450-455 | a run in which a push parked across 2^31 + 1 frames is dropped although the ring is empty |
| FanInCode.MpmcRing.constructor | src/MpmcRing.ts:423-435 | a fresh buffer is the initial state of the machine |
| FanInCode.MpmcRing.Push | src/MpmcRing.ts:446-467 | under any interference the lanes stay those of a run; true only after its frame was claimed and published, false only after a drop was counted |
| FanInCode.MpmcRing.Pull | src/MpmcRing.ts:499-551 | under any interference the lanes stay those of a run; true exactly when the frame returned is the one delivered |
| FanInCode.LanesKeepOrder | src/MpmcRing.ts:446-551 | the fields of any ring in use satisfy the delivery theorem |
| FanInCode.Int32LanesKeepOrder | src/MpmcRing.ts:446-551 | and so do its Int32 fields, with no bound on wraps or on lag |
| BroadcastTheorems.SeqlockNeverTears | src/SpmcRing.ts:545-671 | with tickets that do not wrap, a frame handed out is the one pushed under its ticket, however often the producer lapped; readers that deliver one ticket deliver the same words |
| BroadcastTheorems.BroadcastAccounting | src/SpmcRing.ts:615-670 | with tickets that do not wrap, the tickets below a cursor split exactly into delivered once, increasing, and counted lost once; cursor at most one past `writeTicket`; torn among dropped; nothing lost that was not lapped |
| BroadcastTheorems.GateExact | src/SpmcRing.ts:628-657 | the gate opens if and only if the head is complete and not lapped |
| BroadcastTheorems.WaitFree | src/SpmcRing.ts:545-671 | words + 7 own steps of the producer or a reader include a return |
| BroadcastSolo.PullAlone | src/SpmcRing.ts:601-671 | an undisturbed `pull`, wherever the producer is parked: it looks at max(cursor, writeTicket - capacity), counts what lies before as lost, and delivers that frame, counts it as lost, or rides, according to which state its slot is in |
| BroadcastSolo.PullWhenIdle | src/SpmcRing.ts:601-671 | so with the producer between calls a reader is served if and only if it is behind, from its cursor or from the oldest of the last `capacity` frames |
| BroadcastSolo.TornDiscard | src/SpmcRing.ts:638-650 | a re-read that finds another stamp adds one to both counters and moves the cursor past the ticket, under any interference |
| BroadcastWrap.Int32Refines | src/SpmcRing.ts:545-671 | for every accepted capacity, lanes, slots, branches and delivered frames of the Int32 protocol are those of the unbounded one while no reader, inside a call, is 2^31 tickets behind at the cursor load or the re-read, or 2^30 at the gate |
| BroadcastWrap.Int32DeliversWhole | src/SpmcRing.ts:615-670 | so on the lanes frames are whole and under increasing tickets, and delivered plus dropped make the cursor modulo 2^32 |
| BroadcastWrap.NetExact | src/SpmcRing.ts:621-626 | the lags at which the wrapped overload net fires, as an if-and-only-if |
| BroadcastWrap.GateReads | src/SpmcRing.ts:628-634 | which tickets' stamps the gate takes for its head's, and which for a newer lap's |
| BroadcastWrap.RereadExact | src/SpmcRing.ts:638-657 | the re-read accepts exactly stamps a multiple of 2^31 tickets after its own, and never a busy one |
| BroadcastLapped.TornFrameIsDelivered | src/SpmcRing.ts:545-657 | a run in which the Int32 re-read accepts a torn frame |
| BroadcastLapped.LappedReaderLosesCount | src/SpmcRing.ts:615-657 | a run in which 2^31 lapped tickets go uncounted |
| BroadcastCode.SpmcRing.PushFrame | src/SpmcRing.ts:545-560 | under any interference the lanes stay those of a run, and exactly its frame is pushed |
| BroadcastCode.SpmcRing.PullFrame | src/SpmcRing.ts:601-671 | under any interference the lanes stay those of a run; true exactly when the frame returned was delivered; throws exactly for a bad index; undisturbed and with the producer between calls, true exactly when the reader is behind, with the frame, the cursor and the loss count of `PullWhenIdle` |
| BroadcastCode.LanesKeepAccounts | src/SpmcRing.ts:545-671 | the fields of any ring in use satisfy the seqlock and accounting theorems |
| BroadcastCode.Int32LanesKeepAccounts | src/SpmcRing.ts:545-671 | and its Int32 fields do under the lag bound |
| BroadcastCode.FlowScaleHint | src/SpmcRing.ts:579-587 | the hint is the least of the scales that the readers' lanes stand for |
| WorkQueueTheorems.ReuseEnvelope | src/MpmcWorkQueue.ts:591-641 | in every run enqueueTicket is at most first undelivered ticket + capacity; neither the frontier lane nor a value about to be stored there is past that ticket |
| WorkQueueSafety.ScanExact | src/MpmcWorkQueue.ts:632-637 | the scan passes a ticket if and only if it has been delivered |
| WorkQueueRegress.FrontierCanRegress | src/MpmcWorkQueue.ts:638-640 | a run in which a parked producer's store lowers the frontier lane |
| WorkQueueTheorems.ExactlyOnce | src/MpmcWorkQueue.ts:678-751 | no two consumers hold or got one ticket; each one's tickets increase; each frame is word for word the one pushed; the torn guard never fires |
| WorkQueueTheorems.ClaimOvershoot | src/MpmcWorkQueue.ts:744-751 | dequeueTicket is at most enqueueTicket + consumers - 1, strands are at most consumers - 1, and no claim below the final enqueueTicket is released |
| WorkQueueTheorems.AttemptsConserved | src/MpmcWorkQueue.ts:591-618 | attempted pushes = claimed + dropped + undecided |
| WorkQueueTheorems.EndOfStream | src/MpmcWorkQueue.ts:798-837 | when every consumer has reported drained, the delivered tickets are exactly [0, enqueueTicket), each with a consumer, and attempts = delivered + dropped |
| WorkQueueDrain.PullMakesProgress | src/MpmcWorkQueue.ts:678-738 | after `close`, a whole pull by a consumer that is not drained delivers one frame or releases one strand and brings the end nearer by exactly one |
| WorkQueueDrain.DrainTerminates | src/MpmcWorkQueue.ts:813-824 | consumers that pull while not drained make at most (unclaimed + held) pulls, in any order, and all are drained exactly when they have made that many |
| WorkQueueDrain.DrainedExact | src/MpmcWorkQueue.ts:820-824 | nothing is left exactly when every `isDrained` is true |
| WorkQueueWaitFree.WaitFree | src/MpmcWorkQueue.ts:591-751 | words + 7 own steps, and `capacity` more for a push into an open stream, include a return in any interleaving |
| WorkQueueSolo.PushAlone | src/MpmcWorkQueue.ts:591-641 | an undisturbed `push` moves the frontier lane to the first undelivered ticket, as far as its scan gets, and is admitted if and only if fewer than capacity - (producerCount - 1) tickets lie between that and the next one |
| WorkQueueSolo.PullAlone | src/MpmcWorkQueue.ts:678-738 | an undisturbed `pull` takes up its held claim or claims the next ticket; it delivers a frame that is there, gives up a claim past the end of a closed stream, and keeps any other |
| WorkQueueSlack.ProducerCountExact | src/MpmcWorkQueue.ts:148-154 | the envelope holds in every run if and only if no more threads push than were declared |
| WorkQueueWrap.Int32Refines | src/MpmcWorkQueue.ts:591-751 | for every accepted capacity, lanes, slots, branches and history of the Int32 protocol are those of the unbounded one below 2^31 tickets |
| WorkQueueLanes.FewPushesStaySmall | src/MpmcWorkQueue.ts:678-687 | a schedule with at most 2^31 - consumers pushes stays below that limit throughout |
| WorkQueueLanes.Int32ExactlyOnce | src/MpmcWorkQueue.ts:678-751 | exactly-once delivery on the lanes for such schedules |
| WorkQueueLanes.Int32EndOfStream | src/MpmcWorkQueue.ts:798-837 | end of stream on the lanes for such schedules |
| WorkQueueOrphan.ClaimHonoured | src/MpmcWorkQueue.ts:681-687 | a claim is kept if and only if its ticket is below 2^31 modulo 2^32 |
| WorkQueueOrphan.Ticket2To31IsOrphaned | src/MpmcWorkQueue.ts:681-687 | a run that spends the claim of ticket 2^31 without holding or delivering it |
| WorkQueueCode.MpmcWorkQueue.AdvanceFrontier | src/MpmcWorkQueue.ts:625-641 | the scanning loop and the guarded store are steps of a run under any interference |
| WorkQueueCode.MpmcWorkQueue.PushFrame | src/MpmcWorkQueue.ts:591-618 | under any interference the lanes stay those of a run; true only after its frame was claimed and published, false only after a drop was counted |
| WorkQueueCode.MpmcWorkQueue.PullFrame | src/MpmcWorkQueue.ts:678-738 | under any interference the lanes stay those of a run; true exactly when the frame returned was delivered |
| WorkQueueCode.MpmcWorkQueue.IsDrained | src/MpmcWorkQueue.ts:820-824 | under any interference: true if the stream was closed with nothing left to claim and no claim held, and only if it is so; the machine then records the consumer as drained |
| WorkQueueCode.LanesKeepExactlyOnce | src/MpmcWorkQueue.ts:591-751 | the fields of any queue in use satisfy exactly-once delivery, Int32 fields below 2^31 tickets |
| Kalman.ShearedIsSandwich | src/StatePredictor.ts:485-562 | the closed-form entries of the code are the product F P F^T |
| Kalman.PropagationComposes | src/StatePredictor.ts:485-562 | propagating by s then t equals propagating by s + t in mean and covariance, process noise included, for both models |
| Kalman.PropagatedSound | src/StatePredictor.ts:485-562 | a forward propagation keeps the covariance symmetric positive semidefinite |
| Kalman.JerkSquares | src/StatePredictor.ts:513-562 | the jerk noise is a sum of three squares |
| KalmanUpdate.LeastVariance | src/StatePredictor.ts:568-588 | the update leaves no more variance in any direction than a linear update with any other gain, and attains its own gain's error covariance |
| KalmanUpdate.UpdatedSound | src/StatePredictor.ts:568-588 | the update divides by a positive number and leaves a symmetric positive semidefinite covariance |
| KalmanJoint.SequentialIsJoint | src/StatePredictor.ts:326-330 | two scalar updates in turn are the closed-form joint update of both readings |
| KalmanFrames.NoneBetter | src/StatePredictor.ts:326-330 | in no direction does a linear estimate from any number of readings have less error variance than fusing them in turn |
| KalmanFrames.JointEstimate | src/StatePredictor.ts:326-330 | fusing any number of readings in turn yields, in every direction, the linear estimate from all of them with the least error variance, in mean and variance |
| KalmanFrames.FrameIsJoint | src/StatePredictor.ts:322-330 | so does what `ingest` fuses, whichever components the frame has |
| KalmanFrames.ReadingsInAnyOrder | src/StatePredictor.ts:326-330 | any number of readings can be fused in any order |
| KalmanHistory.EveryHistory | src/StatePredictor.ts:273-332 | every history of ingests and resets keeps the covariance symmetric positive semidefinite, every divisor positive and every forward predicted variance non-negative |
| KalmanHistory.PredictionComposes | src/StatePredictor.ts:344-414 | predicting over two horizons in turn is predicting over their sum |
| KalmanHistory.BelowMeasurementNoise | src/StatePredictor.ts:273-332 | after any frame but the seeding one the position variance is below the position noise |
| KalmanHistory.AlwaysAligned | src/StatePredictor.ts:485-509 | P01 is never negative in a constant-velocity lane |
| KalmanHistory.LaterIsLessCertain | src/StatePredictor.ts:396-414 | so its predicted variance never falls as the horizon lengthens |
| KalmanMotion.PredictionIs | src/StatePredictor.ts:344-414 | the value predicted is x + v dt + a dt^2 / 2 with dt = (ns - last) / 1e9, and the variance is the position variance of that horizon, written out for both models |
| KalmanMotion.PredictionNow | src/StatePredictor.ts:344-414 | at the time of the last frame it is the filter's own position mean and variance |
| KalmanMotion.SeedIs | src/StatePredictor.ts:300-316 | the first frame is taken as it is, with variance p0 in every direction of the model |
| KalmanMotion.SeedPredicts | src/StatePredictor.ts:344-414 | at the seeding time the prediction is the seeded position with variance p0 |
| KalmanMotion.PositionFrame | src/StatePredictor.ts:318-330 | a position-only frame leaves (v rp + z s) / (s + rp) with variance s rp / (s + rp), (v, s) being the prediction for its time, or for the last time if it is not newer |
| KalmanMotion.IngestIsJoint | src/StatePredictor.ts:318-330 | in every direction a frame leaves the best linear estimate from the propagated lane and all its components |
| KalmanMotion.TracksMotion | src/StatePredictor.ts:273-332 | a filter that starts on a motion of constant velocity or acceleration stays on it at every later frame and predicts it for any time |
| StatePredictor.StatePredictor.Ingest | src/StatePredictor.ts:273-332 | the in-place arrays hold, lane by lane, the specified new belief, and a refused frame changes nothing |
| StatePredictor.StatePredictor.PredictInto | src/StatePredictor.ts:344-414 | writes exactly the mean and variance that propagation would leave, without touching the filter; given one array for both, the variances remain |
| StatePredictor.StatePredictor.Look | src/StatePredictor.ts:422-450 | the one-row computation yields that mean and variance, and 0 with variance p0 before the first frame |
| StatePredictor.StatePredictor.UpdateScalar | src/StatePredictor.ts:568-588 | the in-place loops over x and P perform the update on one lane only |
| StatePredictor.StatePredictor.PropagateCV | src/StatePredictor.ts:485-509 | in place, one lane only, the specified propagation |
| StatePredictor.StatePredictor.PropagateCA | src/StatePredictor.ts:513-562 | in place, one lane only, the specified propagation |
| StatePredictor.StatePredictor.Reset | src/StatePredictor.ts:255-260 | every lane is cold again |
| ClockRecovery.ConsumerClockRecovery.Observe | src/ConsumerClockRecovery.ts:358-494 | one observation performs the specified gate, step escape, PI update and drift branch |
| ClockRecovery.ConsumerClockRecovery.PhaseLockedTime | src/ConsumerClockRecovery.ts:502-514 | the mapped time of the specified state |
| ClockRecovery.ConsumerClockRecovery.Reset | src/ConsumerClockRecovery.ts:522-534 | what a reset clears and what it keeps |
| ClockGate.GateExact | src/ConsumerClockRecovery.ts:391-428 | a locked loop rejects a reading if and only if it is past warm-up, has a noise scale, the reading is more than k scales away from the expected offset and the streak may still grow; it then changes two counters only, and otherwise the reading is admitted |
| ClockGate.ScaleExact | src/ConsumerClockRecovery.ts:479-486 | an admitted reading moves the noise scale a share alpha of the way to its distance |
| ClockGate.StepScale | src/ConsumerClockRecovery.ts:400-405 | a step that is let through starts the scale at its distance over k |
| ClockGate.StreakExact | src/ConsumerClockRecovery.ts:397-428 | when the streak ends and when a recovery is counted |
| ClockGate.OffsetExact | src/ConsumerClockRecovery.ts:463-469 | where an admitted reading leaves offset and integral without drift |
| ClockGate.DriftExact | src/ConsumerClockRecovery.ts:452-462 | where it leaves offset and rate with drift |
| ClockGate.FirstReading | src/ConsumerClockRecovery.ts:364-374 | the first reading is taken as it is, and its time maps to the producer's |
| ClockGate.SpikeIsHarmless | src/ConsumerClockRecovery.ts:391-412 | a lone spike moves no mapped time |
| ClockRecoveryTheorems.AdmittedContracts | src/ConsumerClockRecovery.ts:430-468 | in offset-only mode an admitted observation shrinks e^2 - 0.4eJ + J^2 by 0.98 or better, whatever its size and whether or not the integral is clamped |
| ClockRecoveryTheorems.ClampIdle | src/ConsumerClockRecovery.ts:463-468 | near enough the clamp does not fire |
| ClockRecoveryTheorems.AdmissionsLag | src/ConsumerClockRecovery.ts:391-428 | in either mode and for any observations, every `limit` + 1 of them in a row hold one that is admitted |
| ClockRecoveryTheorems.Converges | src/ConsumerClockRecovery.ts:358-494 | in offset-only mode, from any reachable state, n observations of a clock with a constant offset shrink the distance by 0.98^floor(n / (limit + 1)), despite gate and clamp |
| ClockRecoveryTheorems.PhaseError | src/ConsumerClockRecovery.ts:502-514 | in offset-only mode the distance bounds the squared error of `phaseLockedTime` |
| ClockRecoveryTheorems.EscapeExact | src/ConsumerClockRecovery.ts:391-428 | in either mode a stepped clock is admitted again if and only if the limit is finite and below 2^31 - 1 |
| ClockDrift.DriftLocks | src/ConsumerClockRecovery.ts:380-494 | in drift mode, from any state, the squared error of `phaseLockedTime` decays by rho with each admitted observation of a clock of constant rate at even spacing, for every rho that the gain allows |
| ClockDrift.NeverLocks | src/ConsumerClockRecovery.ts:452-462 | at a gain of 3.6 or more, a loop freshly locked onto such a clock is never nearer to it than the clock moves between two observations |
| ClockDrift.GainExact | src/ConsumerClockRecovery.ts:333-339 | the drift branch locks onto every such clock if the gain is below 3.6 and, with the gate off, only if |
| Reblocking.ServeLossless | src/BridgeBlockConsumer.ts:499-545 | what a request hands out and leaves is what was there and what it pulled, in order |
| Reblocking.ShortOnlyWhenStarved | src/BridgeBlockConsumer.ts:499-545 | a request comes up short exactly when its last pull found nothing |
| Reblocking.CutsDoNotMatter | src/BridgeBlockConsumer.ts:499-545 | cutting a request in two changes nothing if the first part is met |
| Reblocking.SessionLossless | src/BridgeBlockConsumer.ts:499-545 | over any series of requests and empty pulls the output is a prefix of all pulled samples and the counters agree |
| Reblocking.LastPullExact | src/BridgeBlockConsumer.ts:499-545 | when in the request the last pull that found a frame happened |
| BlockConsumer.ConsumerLossless | src/BridgeBlockConsumer.ts:499-545 | the same of the fields of any consumer in use: framesConsumed x blockSize = delivered + remaining, and emitted = delivered + underflow |
| BlockConsumer.BridgeBlockConsumer.Process | src/BridgeBlockConsumer.ts:499-545 | the buffer gets the served samples, then the policy's fill; counters, marks and stream position are the specified ones |
| BlockConsumer.BridgeBlockConsumer.MixWindow | src/BridgeBlockConsumer.ts:755-802 | all outputs add their channel of one window, the cursor moves once, an unfilled tail is left alone |
| BlockConsumer.BridgeBlockConsumer.ProcessAddChannel | src/BridgeBlockConsumer.ts:661-688 | one channel is mixed in; refused requests change nothing |
| BlockConsumer.BridgeBlockConsumer.ProcessAddStereo | src/BridgeBlockConsumer.ts:712-741 | channels 0 and 1 of the same window are mixed in |
| BlockConsumer.BridgeBlockConsumer.NoteEmitted | src/BridgeBlockConsumer.ts:933-945 | a mark is stamped exactly when a stride has gone by since the last, into the circular history |
| BlockConsumer.NewestKept | src/BridgeBlockConsumer.ts:933-945 | of any number of marks the newest 256 are what is kept |
| BlockConsumer.BridgeBlockConsumer.UnderflowRate | src/BridgeBlockConsumer.ts:859-897 | the rate is the share of underflow since the mark chosen for a window in milliseconds, which is cut to the history kept, and a fraction without clamping |
| BlockConsumer.BridgeBlockConsumer.Reset | src/BridgeBlockConsumer.ts:808-820 | counters, marks and the current block are gone, the bridge is untouched |
| ReadbackTheorems.Conservation | src/BridgeGPUSource.ts:1065-1428 | accepted = pushed + dropped + replaced + non-idle slots over every sequence of events, and the counters are those numbers modulo 2^32 |
| ReadbackTheorems.DrainedAtMostOnce | src/BridgeGPUSource.ts:1274-1428 | a readback is drained at most once, exactly if it was pushed or dropped |
| ReadbackTheorems.ImageIsMergedRanges | src/BridgeGPUSource.ts:1434-1453 | the retained image is the initial one painted with the merged ranges, each merged at most once |
| ReadbackTheorems.LastMergeWins | src/BridgeGPUSource.ts:1434-1453 | a byte comes from the last merge that covers it |
| ReadbackBridge.PushedExactly | src/BridgeGPUSource.ts:1301-1388 | in every run the readbacks counted as pushed are exactly those that the bridge took by its own answers, each once |
| ReadbackBridge.FrameIsImage | src/BridgeGPUSource.ts:1434-1453 | the frame that it takes is the retained image as the drain leaves it, or the mapped bytes if none is retained |
| ReadbackBridge.DrainExact | src/BridgeGPUSource.ts:1274-1428 | counters, slots and image after one drain, byte by byte: a range that could be read is merged whatever becomes of the frame |
| ReadbackBridge.FullFrameMerged | src/BridgeGPUSource.ts:1366-1388 | a whole frame replaces the retained image, if there is one, even when the bridge is full |
| ReadbackBridge.SlotChoice | src/BridgeGPUSource.ts:1073-1083 | which slot a readback gets, and exactly when it gets none |
| ReadbackBridge.OneReadback | src/BridgeGPUSource.ts:1065-1428 | one readback from its schedule to its drain, with its promise resolved or rejected |
| GpuSource.BridgeGPUSource.ScheduleReadback | src/BridgeGPUSource.ts:1065-1091 | takes the specified slot, or declines, or throws exactly for a bad range or source offset |
| GpuSource.BridgeGPUSource.FlushPending | src/BridgeGPUSource.ts:1179-1232 | every scheduled slot and no other goes in flight |
| GpuSource.BridgeGPUSource.DrainSlot | src/BridgeGPUSource.ts:1274-1428 | one drain is the specified transition on every path, and the slot is recycled |
| GpuSource.BridgeGPUSource.PollCompleted | src/BridgeGPUSource.ts:1252-1258 | drains every ready slot in slot order |
| GpuSource.PolledEach | src/BridgeGPUSource.ts:1252-1258 | a poll drains every slot that was ready and no other |
| GpuSource.PolledCounts | src/BridgeGPUSource.ts:1252-1258 | each counts as pushed or as dropped, and the answer is the number pushed |
| GpuSource.BridgeGPUSource.Settle | src/BridgeGPUSource.ts:1190-1230 | a settled promise marks its slot and in microtask mode drains it unless destroyed |
| GpuSource.BridgeGPUSource.ReadMappedFrameBytes | src/BridgeGPUSource.ts:1434-1453 | returns the mapped range or the retained image after the merge |
| GpuSource.LatencyWindow.Record | src/BridgeGPUSource.ts:1687-1702 | the circular buffer is the sliding window of the newest latencies and its running sum is their sum |
| GpuSource.NewestSlid | src/BridgeGPUSource.ts:1687-1702 | of any number of latencies the window holds the last ones |
| Circular.WrapUnique | src/circular.ts:90-92 | `wrapSymmetric` is the one representative in [-P/2, P/2) |
| Circular.ShortestArc | src/circular.ts:101-103 | the delta leads from a to b and no other displacement that does is shorter |
| Circular.LerpEnds | src/circular.ts:117-124 | the blend starts at a and ends at b |
| Circular.LerpAlong | src/circular.ts:117-124 | for every alpha, inside and outside [0, 1], it is alpha of the way along the one displacement in [-P/2, P/2) that leads from a to b |
| Circular.CircularUnwrapper.Push | src/circular.ts:187-220 | one push performs the specified lift, winding and slip count |
| Circular.UnwrappedOverSample | src/circular.ts:187-220 | for any input the unwrapped value is congruent to the sample modulo P |
| Circular.AlwaysLifted | src/circular.ts:187-220 | it stays within half a period of seed + windings P |
| Circular.TracksExactly | src/circular.ts:187-220 | a push follows the true motion if and only if the true step lies in [-P/2, P/2) |
| Circular.UnwrapsWrapping | src/circular.ts:187-220 | samples of a motion with such steps come back as that motion up to one multiple of P |
| Circular.SlipExact | src/circular.ts:198-212 | which steps the default slip threshold counts, as an if-and-only-if |
| Circular.PushCounts | src/circular.ts:187-220 | which pushes are counted as slips, for any threshold, and that the seed stays |
| FlowController.AdaptiveFlowController.Tick | src/AdaptiveFlowController.ts:154-171 | the encoded scale is the floor of 65536 times 1 - 0.5 e - 0.05 I between the clamps, I being the clamped sum of errors |
| FlowController.Recovers | src/AdaptiveFlowController.ts:154-171 | from any state, at occupancy 1/2 - e or less, the scale exceeds 1 from tick 20/e - 10 on |
| FlowController.RecoveryIsSharp | src/AdaptiveFlowController.ts:154-171 | and from a saturated integral not before |
| Int32.SlotExact | src/MpmcRing.ts:458-458 | `(ticket >>> 0) & mask` on a wrapped ticket is the true ticket modulo any power of two up to 2^32 |
| Int32.PowerOfTwoTest | src/MpmcRing.ts:335-345 | the constructors' bit test accepts exactly the powers of two |

## Left out

- Memory order weaker than sequential consistency, `Atomics.wait` and `notify`, and parking.
- The flow-scale lanes inside the ring machines: a side channel that no protocol step reads. The controller behind them
  is in `FlowController`.
- The schema compiler and typed-array views: a frame is a fixed number of words, interleaved samples are columns.
- IEEE-754 rounding, NaN and finiteness checks: the numeric modules compute over exact reals.
- The GPU device, promises and clocks: their results are outcomes carried by events.
- Throws of `beginPush` and of `abortPush`, and of `beginMap` before it returns a promise: no event stands for them.
- `onError` callbacks, latency quantiles and readback advice other than declining work.
- BlockConsumer.BridgeBlockConsumer.Process: finite fractional counts, which the code accepts and which make the cursor
  fractional, are not modelled; the same holds of the mixing methods.
- BlockConsumer.BridgeBlockConsumer.ProcessAddStereo: the two outputs are different arrays.
- BlockConsumer.BridgeBlockConsumer.ProcessAddChannel: also stands for `processAdd`, whose loop is the one-channel case.
- BroadcastSolo.PullAlone: for tickets that do not wrap, as are `FanInSolo.PullAlone`, `WorkQueueSolo.PushAlone` and
  `WorkQueueSolo.PullAlone`; the lanes follow within the lag bounds of the refinement theorems.
- StatePredictor.StatePredictor.PredictInto: neither output is one of the filter's own arrays.
- GpuSource.BridgeGPUSource.ScheduleReadback: the copy command that it encodes is not modelled.
- ClockDrift.DriftLocks: uneven spacing, and observations that the gate turns away, which widen the spacing. One step at
  any spacing is `ClockDrift.SpinStep`.
- WorkQueueWrap.Int32Refines: stops at 2^31 tickets because the code does; see the findings.
- Monotone predicted variance in the constant-acceleration model: the sign argument does not carry over.
- Facades, telemetry snapshots, option messages, `HotSwapConsumer`, `TelemetryRing`, `ResidualQualityController`,
  `MessageChannelBridge`, `FrameSmoother` and `WasmMpmcWorkQueue`: delegation, or easy members.
- `SpscRing` is not part of this model.
