# Formal model of the agent_ros control plane

A Dafny model of the repository's safety-critical protocols, with proofs about all their runs: the emergency-stop
path, the audit log and its validator, the launch lifecycle, the hospital start/stop race, the velocity transport, the
mission controller, and the arithmetic of the acceptance verifier. `dafny verify dfyconfig.toml` checks all of it.

## How it is built

A protocol usually comes in three files.

- `*Spec.dfy` holds the state as a value, one function for every region the program executes under a lock (or for one
  uninterruptible action outside it), the steps, the runs, and the inductive invariant. Every interleaving of threads
  is a sequence of steps. Deadlines are steps that may or may not happen; callbacks, writes, spawns and terminations
  have outcomes chosen from outside.
- `*Proofs.dfy` holds the invariant's proof and the theorems about every run (for the mission controller also
  `MissionSteering.dfy`, on its commands, and `MissionOutcomes.dfy`, on how missions end).
- The third file holds the class that updates its fields in place, as the program does. Its methods are tied to the
  specification functions by equations between the old and the new abstract state. `Valid()` is the invariant of that
  state (for the transport, the part of it that its own fields can state; the audit writer needs none): the constructor
  establishes it, and every method a caller of the object uses keeps it and says, besides, what the caller may rely on.
  Methods named `...Locked`, and other parts of a region that run while a lock is already held, have the equation alone.

Where the state is small, or nothing runs concurrently, fewer files do: `CommandWorker.dfy`, `AuditFile.dfy`,
`AuditHistory.dfy`, `AuditText.dfy`, `HospitalBudget.dfy` and `LookaheadCarrot.dfy` each hold all of their component, and
`StopSystem*.dfy` and `LogAgreement.dfy` compose components that have their own objects.

| component | files | program |
|---|---|---|
| activation sequencer | `Sequencer*.dfy` | agent_ros/safety/sequencer.py |
| bounded command worker, stop channel | `CommandWorker.dfy`, `StopSystem*.dfy` | agent_ros/adapters/_safety.py |
| gateway | `Gateway*.dfy` | agent_ros/safety/gateway.py |
| audit writer, worker, validator | `AuditFile.dfy`, `AuditWorker*.dfy`, `AuditRecords.dfy`, `AuditHistory.dfy`, `AuditText.dfy` | agent_ros/runtime/audit.py |
| ordered drain, restarts | `AuditDrain*.dfy`, `LogAgreement.dfy` | agent_ros/runtime/controller.py |
| launch lifecycle | `Launch*.dfy` | examples/hospital_delivery/scripts/codex_project.py |
| hospital start/stop race | `HospitalRace*.dfy` | agent_ros/adapters/hospital.py |
| velocity transport | `Twist*.dfy` | agent_ros/adapters/twist.py |
| mission controller | `Mission*.dfy`, `LookaheadCarrot.dfy` | smartcar_bringup/controller_core.py |
| acceptance metrics, mission budget | `Acceptance*.dfy`, `HospitalBudget.dfy` | scripts/verify_acceptance.py, agent_ros/runtime/controller.py |

`hypot`, `cos`, `sin`, `atan2` and pi are a parameter of type `MissionGeometry.Trig`, constrained by laws that hold of the
real functions (`Lawful`): pi is positive, a length squared is the sum of the squares, the Pythagorean identity, the range
of `atan2`, that `atan2` gives the polar angle with its side and its quarter turn (`IsPolar`), and the sine and the cosine
of a difference (`Subtracts`). Real numbers stand for floating-point ones.

## What the code does not do

Where a promise fails, the model keeps the code as it is; the lemmas named give the condition under which it does.

- The activation worker calls a command after releasing the condition under which it took it. So an activation can start
  after a latch: exactly when the living worker holds a command it has taken and not yet called (`LateStartIff`,
  `StartMayFollowLatch`). It is the only one, and none starts after a stop that sampled quiescence
  (`LatchAndQuiescenceAreFinal`).
- A stop whose zero command cannot be called answers "latched, quiesced" without latching anything
  (`ClaimedLatchIsRealIffCallable`).
- A command worker can lose an accepted command exactly when it was closed before it was started, or still can be, and
  it accepts yet or is leaving with a command in its queue (`CommandIsLostIff`).
- An append leaves part of a record behind, in a writer that goes on, exactly when an exception of an unhandled kind
  escapes after some but not all of its bytes (`AtomicUnlessEscapedMidRecord`).
- A log can end in part of a record, and the validator then refuses it: exactly when an append was torn
  (`FileIsAcceptedIffUntorn`, `TornFileIsRefused`), that is, cut short and not taken back (`TearsIff`). Nothing is
  written behind it (`NothingFollowsATear`).
- An audit worker that was told to stop before it was started accepts records it never writes; their submitters wait
  until they time out (`ReceiptIsStrandedIff`, `StrandedUntilTimeOut`).
- A launch is forgotten exactly when an exception that is not an `Exception` unwinds the start between the spawn and
  the publication of the state file (`AuthorityIsLostIffInterrupted`).
- The start trigger of the transport path is not under the client's lock. It can follow the stop latch exactly when the
  start is past its last look at the latch and has not triggered yet, and then once (`TriggerFollowsLatchIff`,
  `TriggerMayFollowLatch`); the start then never answers "running" (`LateTriggerNeverRuns`).
- A plain velocity stop does not exclude one motion command after its zeros (`StopAloneIsNotLast`): exactly when the
  worker was past the check of one when the stop began (`MotionAfterStopIff`), and never more than one before the next
  start (`DisabledStageOwesAtMostOne`). A stop that sampled quiescence excludes it (`OnlyZerosAfterQuiescence`).
- A mission controller that turns on the spot turns towards its carrot exactly when its gain and its turning limit are
  positive (`SteerTurns`); nothing in the program checks that they are, though its defaults are.
- The last clamp of the mission controller never changes anything exactly when `maxLinear * 1e-12 <= maxAngular`
  (`LastClampIsIdleIff`).
- Greedy stage matching is optimal on every prefix of the route and not beyond (`GreedyIsNotMaximal`). It takes the
  earliest hits, so a report can be over budget where later hits would not be (`AnotherChoiceMayMeetTheBudget`).
- The watchdog looks for an improvement before it looks at the clock, so it ends a mission exactly at an update that is
  late and shows none (`WatchdogEndsIff`); one that is late and shows one feeds it. The number of feeds is bounded for
  any clock (`WatchdogRunsDry`); the bound on the time spent on a waypoint has the gap between updates in it
  (`StuckMissionEndsInTime`).

## Model

| member | source | states |
|---|---|---|
| SequencerProofs.LatchAndQuiescenceAreFinal | agent_ros/safety/sequencer.py:126-301 | in every interleaving, an activation after a latch is the start of the one command that was taken and not yet called at that latch, and the last activation there is; a stop that sampled quiescence found no command open or in hand, and nothing is activated after it |
| SequencerProofs.LateStartIff | agent_ros/safety/sequencer.py:255-272 | in every reachable latched state something can still be activated iff the living worker holds a command it has taken and not yet called |
| SequencerProofs.StartMayFollowLatch | agent_ros/safety/sequencer.py:255-272 | a run in which a command starts after the latch and after the zero tried under it |
| SequencerProofs.InvokedIsFifoPrefix | agent_ros/safety/sequencer.py:255-289 | commands run in submission order, each at most once; the invoked ones are a prefix of the accepted ones and the queue is exactly the rest until a latch empties it |
| SequencerProofs.ReceiptsAreAccountedFor | agent_ros/safety/sequencer.py:126-158 | a receipt without an outcome is queued or in flight; the unfinished count is exact; latched iff the generation has moved, and then the queue is empty |
| SequencerProofs.OutcomeIsWrittenOnce | agent_ros/safety/sequencer.py:304-315 | a receipt's outcome never changes: a late return does not overwrite the timeout |
| SequencerProofs.WorkerNeverRefuses | agent_ros/safety/sequencer.py:264-269 | whatever the worker dequeues it calls; its refusal branch is unreachable |
| SequencerProofs.ClaimedLatchIsRealIffCallable | agent_ros/safety/sequencer.py:172-205 | every stop claims a latch; the claim is true iff the zero command is callable or something latched before; a run where it is false with a command open |
| SequencerProofs.SubmitIff | agent_ros/safety/sequencer.py:126-143 | a submission is accepted iff command and wait are well-formed, the permit is current, the worker works and the queue has room, however many commands wait already; then it is queued and nothing else changes; a refusal changes nothing, except that a current permit meeting a full queue and any permit meeting a dead worker latch |
| SequencerProofs.StopsSettle | agent_ros/safety/sequencer.py:172-215 | a stop, a wait that runs out and a close each latch, empty the queue and refuse with their own code exactly the queued receipts without an outcome |
| SequencerProofs.QueueIsServed | agent_ros/safety/sequencer.py:255-289 | from every state of a living worker that nothing stopped, some run calls all that is queued, in order, and each receipt comes back with its outcome |
| SequencerProofs.RaisingFailsClosed | agent_ros/safety/sequencer.py:271-289 | a command that raises says so in its receipt unless an outcome was there, and fails, latches and empties the sequencer |
| Sequencing.SafetySequencer.SubmitEnqueue | agent_ros/safety/sequencer.py:126-143 | keeps the invariant; accepted iff command and wait are well-formed, the permit is current, the worker works and there is room; an accepted receipt is fresh, last in the queue of an unlatched sequencer with a living worker; a refusal that latches settles every queued receipt |
| Sequencing.SafetySequencer.RejectQueuedLocked | agent_ros/safety/sequencer.py:297-302 | the loop empties the queue, refuses exactly the receipts without an outcome and keeps the unfinished count |
| Sequencing.SafetySequencer.WorkerTake | agent_ros/safety/sequencer.py:255-269 | keeps the invariant; with work in the queue the head is taken, in order, and no receipt is settled: the refusal branch is never reached |
| Sequencing.SafetySequencer.WorkerCall | agent_ros/safety/sequencer.py:271-272 | keeps the invariant; if a latch came since the take, this is the activation that spends the sequencer: none can follow |
| Sequencing.SafetySequencer.WorkerCommandEnded | agent_ros/safety/sequencer.py:271-289 | keeps the invariant; the receipt has an outcome, an earlier one (a timeout) prevails, no command is open; a raising command latches, fails the sequencer and settles everything queued |
| Sequencing.SafetySequencer.SampleQuiescence | agent_ros/safety/sequencer.py:172-205 | the answer is successful iff nothing is in flight and the zero was accepted; "quiesced" means no command open or in hand, and no activation possible ever after |
| CommandWorkerProofs.AcceptedRunInOrder | agent_ros/adapters/_safety.py:76-115 | run, held and queued commands are, in that order, all the accepted ones |
| CommandWorkerProofs.EndedWorkerRanEverything | agent_ros/adapters/_safety.py:91-115 | an ended worker has run everything it accepted iff its queue is empty, and it is empty unless the close came before the start |
| CommandWorkerProofs.CommandIsLostIff | agent_ros/adapters/_safety.py:59-107 | in every reachable state: some continuation loses an accepted command iff the worker was not started and can be; or lives, was closed before its start, and still accepts or is leaving with a non-empty queue; or has died with one; and a lost command is never run |
| CommandWorkerProofs.CloseTellsTheTruth | agent_ros/adapters/_safety.py:86-93 | a close that found the worker started and answers true means every accepted command has run and none raised; once a worker that was started before it was closed has ended, the answer is false only after a failure |
| CommandWorker.BoundedCommandWorker.DrainAndLeave | agent_ros/adapters/_safety.py:100-115 | told to stop, the loop still runs exactly the queued commands in order; a raising one fails the worker without ending the loop |
| GatewayProofs.EveryRunIsLegal | agent_ros/safety/gateway.py:127-240 | history contiguous and chained; STOPPED and FAULTED lead only to ESTOPPED, ESTOPPED only to NEW in simulation; entries to these three, and only they, carry an auditable burst result |
| GatewayProofs.BurstResult | agent_ros/safety/gateway.py:272-305 | a burst has a flag iff every shot has it, where raised or foreign answers count as unquiesced and rejected; it succeeds iff every shot returned a successful result; its code is determined by the flags and always auditable |
| GatewayProofs.HeartbeatRenewsIff | agent_ros/safety/gateway.py:180-196 | a heartbeat succeeds iff a task is running, a timeout is configured and the deadline has not passed, and then the deadline is now plus the timeout; each failure has its own error and changes nothing |
| GatewayProofs.OverdueIff | agent_ros/safety/gateway.py:180-196 | in every run a running task is overdue iff more than the timeout has gone by since its start or its last heartbeat that succeeded |
| GatewayProofs.PunctualIsNeverOverdue | agent_ros/safety/gateway.py:180-196 | while heartbeats come at most the timeout apart the task is never overdue and none of them fails |
| GatewayProofs.OverdueStep | agent_ros/safety/gateway.py:180-196 | the first thing to happen to a gateway past its deadline is a stop |
| GatewayProofs.PassedDeadlineIsNeverRenewed | agent_ros/safety/gateway.py:180-196 | with a nondecreasing clock no later heartbeat renews a passed deadline: the next transition leaves RUNNING with a stop result |
| Gateways.SafetyGateway.StopRepeatedly | agent_ros/safety/gateway.py:272-305 | the loop over the shots computes the combined result |
| Gateways.SafetyGateway.Transition | agent_ros/safety/gateway.py:350-366 | the log grows by one transition from the old state to the new; a legal one keeps the record legal, numbered by its place, and the history the newest part of the log |
| Gateways.SafetyGateway.CommitEstop | agent_ros/safety/gateway.py:337-348 | keeps the invariant and ends ESTOPPED, whatever moved during the burst; a transition with the burst result is recorded iff the gateway was not there already, and otherwise nothing changes |
| StopSystemProofs.SuccessfulStopIsFinal | agent_ros/runtime/controller.py:452-466 | end to end: once an emergency stop has returned normally, no activation is open or starts, no non-zero velocity appears, at least two zeros were enqueued, and they are on the wire once the emergency worker has caught up, after any further steps of anybody |
| StopSystemProofs.StopAnswersIff | agent_ros/runtime/controller.py:452-466 | a stop with its three shots done answers success iff each returned latched, quiesced and accepted, and the transition it makes, if it makes one, is on record; an estop ends ESTOPPED either way |
| StopSystemProofs.ShotSaysWhatItSaw | agent_ros/safety/sequencer.py:191-205 | a shot that returns says quiesced iff nothing was in flight and accepted iff its zero was taken and confirmed |
| StopSystemProofs.QuietStopSucceeds | agent_ros/runtime/controller.py:452-466 | from every state with nothing in flight and room for three zeros, an undisturbed stop answers success, unless it is a cancellation with nothing to cancel |
| StopSystemProofs.FirstStopSucceeds | agent_ros/runtime/controller.py:452-466 | so a run from the initial state ends in success |
| StopSystemProofs.QuiescedRecordsAreTrue | agent_ros/safety/gateway.py:337-348 | a stop the gateway recorded as quiesced tells the truth for ever |
| StopSystemProofs.QuiescenceIsMonotone | agent_ros/safety/gateway.py:272-305 | within a burst every shot after a quiesced one is quiesced |
| AuditRecords.TransitionsAreAuditable | agent_ros/runtime/audit.py:99-114 | every transition the gateway can make passes the tables and the data schema, and an inferred fault is the very record its registration would make |
| AuditRecords.TablesAreTheMoves | agent_ros/runtime/audit.py:99-114 | and conversely a success or fault passes the tables only if some gateway can make that move at that call site; a rejection only if nothing moved |
| AuditHistory.AcceptsIffAcceptable | agent_ros/runtime/audit.py:432-465 | the one-pass validator accepts exactly the concatenations of distinct-id sessions of valid records that start at NEW, chain, and all but the last end terminal |
| AuditHistory.ReadExtends | agent_ros/runtime/audit.py:440-463 | one more record is read iff it is valid and extends the history to a history |
| AuditHistory.ValidateHistory | agent_ros/runtime/audit.py:432-465 | the validator's loop decides that |
| AuditText.ValidateText | agent_ros/runtime/audit.py:432-465 | the validator on the bytes of the file: the newline at the end, the split into lines, the length and the decoding of each, and then the history |
| AuditText.WholeTextIsItsRecords | agent_ros/runtime/audit.py:432-441 | records each on a line of its own are accepted as text exactly when they are accepted as records |
| AuditText.PartIsRefused | agent_ros/runtime/audit.py:434-435 | text that ends in a proper part of a record is refused, whatever comes before |
| AuditFile.AppendIsAtomic | agent_ros/runtime/audit.py:139-167 | for every script of short writes, bogus counts, errors and sync results: whole record, or nothing, or a writer compromised for good with the old file still a prefix |
| AuditFile.AtomicUnlessEscapedMidRecord | agent_ros/runtime/audit.py:249-273 | the exact condition under which an append is atomic |
| AuditFile.SucceedsIff | agent_ros/runtime/audit.py:139-167 | an append succeeds iff the record can be encoded, the file opens, some calls from the first on write it to its last byte with nothing worse than short counts and interruptions, and the sync and the close work |
| AuditFile.TearsIff | agent_ros/runtime/audit.py:139-167 | an append leaves a proper part of its record iff the loop stopped after some but not all bytes and they were not taken back: the process died in the loop, the exception was of an unhandled kind, or the truncation failed |
| AuditFile.ShortWritesTear | agent_ros/runtime/audit.py:249-273 | a short write, an error and a failing truncation do that, and so does a short write and a kill |
| AuditFile.EachLeavesAllOrNothing | agent_ros/runtime/audit.py:139-167 | over many appends each leaves all of its record or none, and all if it was reported done |
| AuditFile.FileHoldsWholeRecords | agent_ros/runtime/audit.py:139-167 | an uncompromised file is the old file followed by what each append left, in order |
| AuditFile.AuditWriter.WriteAll | agent_ros/runtime/audit.py:249-265 | the write loop over short writes and retries |
| AuditFile.AuditWriter.AppendRecord | agent_ros/runtime/audit.py:139-167 | whole record, or nothing, or a compromised writer, unless an exception escapes; the old file stays a prefix; reported done, which it is exactly when `SucceedsIff` says, means all of it is there; a compromised writer writes nothing |
| AuditWorkerProofs.StopMarkerIsNeverLost | agent_ros/runtime/audit.py:331-430 | once a stop is requested the sentinel is queued or held until the worker takes it, even after a failure drains the queue; never two; its slot is always free |
| AuditWorkerProofs.ReceiptsAreNeverLost | agent_ros/runtime/audit.py:331-403 | a receipt without outcome is queued, held or being written; records are handed to the writer in order, each at most once |
| AuditWorkerProofs.ReceiptIsStrandedIff | agent_ros/runtime/audit.py:306-403 | in every reachable state: some continuation leaves a receipt without outcome in the queue of an ended worker iff the worker is not started and can be; or lives, was told to stop before its start and accepts, or has a receipt behind the stop marker; or has ended with one |
| AuditWorkerProofs.StrandedUntilTimeOut | agent_ros/runtime/audit.py:331-366 | a stranded receipt gets no outcome until the wait of some submitter runs out, and then all get one |
| AuditWorkerProofs.OutcomeIsWrittenOnce | agent_ros/runtime/audit.py:331-403 | each receipt gets at most one outcome: once set it stays, in every continuation |
| AuditWorkerProofs.FailureIsFinal | agent_ros/runtime/audit.py:409-423 | a failed worker takes no further receipt |
| AuditWorkerProofs.QueueIsWritten | agent_ros/runtime/audit.py:379-403 | a worker whose writer works writes all that is queued, in order, and each receipt says so |
| AuditWorkerProofs.ServedWorkerCloses | agent_ros/runtime/audit.py:357-385 | once served and then closed, it takes its stop marker, ends, and the close answers true |
| AuditWorkerProofs.CloseLeavesNobodyWaiting | agent_ros/runtime/audit.py:357-373 | a close that found the worker started and answers true leaves no receipt without its outcome |
| AuditWorkers.AuditAppendWorker.DrainLocked | agent_ros/runtime/audit.py:409-423 | the drain loop refuses every queued receipt without an outcome and forgets a queued sentinel |
| AuditWorkers.AuditAppendWorker.WorkerWriteEnded | agent_ros/runtime/audit.py:379-403 | keeps the invariant; the receipt has its outcome and an earlier one prevails; a failed write refuses everything queued and leaves exactly the sentinel for the loop |
| AuditDrainProofs.LogIsOrderedAndDurable | agent_ros/runtime/controller.py:862-955 | whatever the order of registration, the whole records in the file are those of transitions 0..k-1 in order; k is the next audit sequence, or one more during an append or after a failure; the writer worked on the same transitions and was done with all but possibly the last |
| AuditDrainProofs.NormalReturnMeansWritten | agent_ros/runtime/controller.py:846-955 | an append that returns normally returns after its transition and all earlier ones are written |
| AuditDrainProofs.StartIsOnRecordFirst | agent_ros/runtime/controller.py:337-347 | in every run each start of the adapter comes after the write of the START_TASK record of its transition |
| AuditDrainProofs.FailureFreezesTheLog | agent_ros/runtime/controller.py:939-955 | after an audit failure at most the record in doubt can still appear |
| AuditDrainProofs.DecisionIff | agent_ros/runtime/controller.py:891-930 | what a drain does when it has the condition, exactly: it fails after an audit failure; it returns once its transition is behind the drain, but as the owner only with nothing ready, and without a transition to wait for only with nothing pending and nothing to infer; else it appends what is ready if it may own the drain; else it waits, or gives up at the deadline |
| AuditDrainProofs.IdleDrainLeavesNothing | agent_ros/runtime/controller.py:920-921 | in every run a drain that waits for nothing and returns leaves every registered transition in the file, and no inferable fault behind |
| AuditDrainProofs.RegisteredIsWritten | agent_ros/runtime/controller.py:891-955 | with n transitions registered from the next one on and a writer that is done with each, a drain that may own the drain writes exactly their records in order, gives up the drain and returns |
| AuditDrains.RuntimeAudit.DrainReady | agent_ros/runtime/controller.py:891-955 | whatever other threads register meanwhile, and whatever it infers, the owner of the drain writes the records of consecutive transitions from where the last drain stopped, and ends with nothing ready or at a failed append |
| AuditDrains.RuntimeAudit.RegisterTransition | agent_ros/runtime/controller.py:862-889 | an accepted item is pending under its number or its number is behind the drain; refused only after a failure or on a conflict; nothing else pending changes; the record of a logged transition keeps the queue right and is refused only after a failure |
| LogAgreement.EraIsSession | agent_ros/runtime/audit.py:220-247 | what one controller writes is one valid session |
| LogAgreement.FileIsAcceptedIffUntorn | agent_ros/runtime/controller.py:1048-1056 | over restarts, whatever the interleavings and the system calls: the bytes of the file are whole records on their lines and then nothing, or part of one if some append was torn; the validator accepts it iff none was; accepts it as finished iff, besides, it holds no record or ends in STOPPED or ESTOPPED |
| LogAgreement.NothingFollowsATear | agent_ros/runtime/controller.py:127-132 | after a torn append no later controller gets to its writer, and the file stays as it is |
| LogAgreement.TornFileIsRefused | agent_ros/runtime/audit.py:434-435 | a controller whose first append is torn leaves such a file, and it is refused |
| LaunchProofs.AuthorityIsNeverLost | examples/hospital_delivery/scripts/codex_project.py:606-846 | over all interleavings of starts and stops, with any operation failing and any process dying anywhere, a live authorized launch is named by the state file, the marker or its reservation, and there is at most one |
| LaunchProofs.OkStopLeavesNothing | examples/hospital_delivery/scripts/codex_project.py:741-846 | a stop that reports ok leaves no live authorized launch and no trace of one |
| LaunchProofs.RevokedStartNeverSpawns | examples/hospital_delivery/scripts/codex_project.py:642-663 | a start whose reservation was cancelled or replaced never spawns |
| LaunchProofs.OldCleanupSparesNewer | examples/hospital_delivery/scripts/codex_project.py:694-739 | whatever a newer start has reached, the failure handling of an old one leaves its reservation, its marker and its launch alone, and drops no live authorized launch |
| LaunchProofs.AuthorityIsLostIffInterrupted | examples/hospital_delivery/scripts/codex_project.py:655-739 | the exact condition under which a start loses authority over its launch |
| LaunchProofs.ReserveIff | examples/hospital_delivery/scripts/codex_project.py:606-641 | a start gets its reservation iff nothing is reserved, marked, running or unresolved, and otherwise changes nothing |
| LaunchProofs.StartLaunches | examples/hospital_delivery/scripts/codex_project.py:642-693 | a reserved start that meets no failure ends with its launch running, named by the state file under its token, and the reservation gone |
| LaunchProofs.FailedHandOffRecovers | examples/hospital_delivery/scripts/codex_project.py:655-693 | a launch that cannot be recorded or published is terminated, or else marked and its reservation kept as unresolved |
| LaunchProofs.CleanWritesExactly | examples/hospital_delivery/scripts/codex_project.py:700-718 | the failure handling writes back what the loader keeps and its own launch unless that was terminated, and nothing else |
| LaunchProofs.StopWritesExactly | examples/hospital_delivery/scripts/codex_project.py:811-838 | a stop that goes to its end leaves in the state file exactly the records it found running and could not terminate and the authorized leftovers that still have processes; the launches still alive are those alive before and not terminated |
| LaunchProofs.StopReportsOkIff | examples/hospital_delivery/scripts/codex_project.py:741-846 | a stop that meets no failure reports ok iff it stopped everything and left no hand-off unresolved |
| LaunchProofs.StopCanBeRetried | examples/hospital_delivery/scripts/codex_project.py:775-846 | while the state file names the launch of a hand-off, a stop that could not terminate everything leaves it so, and a later stop reports ok iff it stops the rest |
| LaunchProofs.StopRevokes | examples/hospital_delivery/scripts/codex_project.py:741-770 | a stop that gets as far as writing its cancellation revokes a start that has only reserved, however the stop ends |
| LaunchProofs.StartAndStop | examples/hospital_delivery/scripts/codex_project.py:606-846 | from empty files an undisturbed start runs its launch, and a stop that terminates it reports ok and leaves the files empty |
| Launches.ProjectLifecycle.LoadState | examples/hospital_delivery/scripts/codex_project.py:181-222 | the loop separates led records from authorized leftovers |
| Launches.ProjectLifecycle.HandOff | examples/hospital_delivery/scripts/codex_project.py:642-693 | unless interrupted before the publication, every live authorized launch stays covered and alone whatever fails; a revoked start launches nothing; one that goes on to wait has its launch and no other in the state file |
| Launches.ProjectLifecycle.CleanUp | examples/hospital_delivery/scripts/codex_project.py:700-718 | keeps the invariant; no live authorized launch drops out of the state file |
| Launches.ProjectLifecycle.Stop | examples/hospital_delivery/scripts/codex_project.py:741-838 | however it ends every live authorized launch stays covered; an ok answer leaves none alive and no file naming one; meeting no failure it is ok exactly when `StopReportsOkIff` says |
| HospitalRaceProofs.StopWinsTheRace | agent_ros/adapters/hospital.py:459-535 | no start or mission-start process is spawned after the stop latch; "cancelled" only with stop as the start's last command; "running" only after a check that came before any latch |
| HospitalRaceProofs.LateTriggerNeverRuns | agent_ros/adapters/hospital.py:468-486 | a start that triggered after the latch never answers "running" |
| HospitalRaceProofs.TriggerFollowsLatchIff | agent_ros/adapters/hospital.py:468-486 | in every reachable latched state a further trigger can be issued iff the start is past its last look at the latch and has not triggered; at most one, and only with a transport |
| HospitalRaceProofs.TriggerMayFollowLatch | agent_ros/adapters/hospital.py:475-482 | a run in which the trigger follows the latch |
| HospitalRaceProofs.StartProcessIsVisible | agent_ros/adapters/hospital.py:633-645 | a running start process is registered from the region that spawns it, and none comes into being after the latch |
| HospitalRaceProofs.AnswersAreEarned | agent_ros/adapters/hospital.py:459-535 | in every run a start answers "running" only after exactly the two commands that start the mission, in order and both before its last look at the latch, and that look before any latch; "cancelled" only after a latch |
| HospitalRaceProofs.FineStartRuns | agent_ros/adapters/hospital.py:459-535 | an undisturbed start issues those two commands, looks at the latch and answers "running" |
| HospitalRaceProofs.LatchedStartIsCancelled | agent_ros/adapters/hospital.py:459-535 | a start latched before its last look ends with a stop and the answer "cancelled" if that stop works, and starts no process in between |
| HospitalRaceProofs.LateStartGivesUp | agent_ros/adapters/hospital.py:459-535 | a start process that is not done in time is answered by a latch, a stop and an error |
| HospitalRaceProofs.FailedStartRaises | agent_ros/adapters/hospital.py:459-535 | any other command or wait that goes wrong before a latch ends the start with an error and without a stop |
| HospitalRaces.HospitalLifecycleClient.StartNowait | agent_ros/adapters/hospital.py:404-417 | a start is admitted iff nothing was stopped, none is under way and the worker takes it; a refusal changes nothing |
| HospitalRaces.HospitalLifecycleClient.SpawnUnlessCancelled | agent_ros/adapters/hospital.py:637-645 | spawns iff not stopped and of the current generation, and registers a start process in the same region; keeps the order of spawns before the latch in the trace |
| HospitalRaces.HospitalLifecycleClient.Work | agent_ros/adapters/hospital.py:468-535 | the worker's steps through a start keep both invariants, of the order against the latch and of what the answers rest on; whoever is about to answer "running" has issued exactly the commands that start the mission |
| TwistProofs.MotionIsLimited | agent_ros/adapters/twist.py:288-345 | in every run of transport, sequencer, workers and stops, each motion command on the wire is within the velocity limits and one period of acceleration from the last motion command before it, or from standstill |
| TwistProofs.DisabledStageOwesAtMostOne | agent_ros/adapters/twist.py:269-345 | after a stop and until the next start at most one more motion command appears, the one past its check |
| TwistProofs.StopAloneIsNotLast | agent_ros/adapters/twist.py:277-337 | a run from the initial state, through start, proposal, check and stop, whose wire is three zeros and then a motion command |
| TwistProofs.MotionAfterStopIff | agent_ros/adapters/twist.py:277-337 | in every reachable state: after a stop and without another start a motion command can follow iff the worker was past the check of a velocity command when the stop began |
| TwistProofs.MotionAfterDisableIff | agent_ros/adapters/twist.py:269-345 | the same for any reachable state with the stage disabled, whatever has interleaved since |
| TwistProofs.OnlyZerosAfterQuiescence | agent_ros/adapters/twist.py:269-345 | from a reachable latched state in which a stop samples quiescence, every continuation puts only zeros on the wire |
| TwistProofs.RunProjects | agent_ros/adapters/twist.py:269-345 | every run of the transport is a run of the stop system, whose theorems therefore hold of it |
| TwistProofs.ZeroIsLastOnTheWire | agent_ros/adapters/twist.py:269-345 | once an emergency stop has returned normally, only zeros follow its first shot on the wire, at least two once the emergency worker has caught up without a failure |
| TwistProofs.ReachableIsSound | agent_ros/adapters/twist.py:315-327 | the acceleration-limited command stays within the limits |
| TwistProofs.HeadingErrorIsBearing | agent_ros/adapters/twist.py:309-310 | for a robot not at its goal the heading error is a bearing of the goal in the frame of the robot, on the side the goal is on, and within a quarter turn iff the goal is not behind |
| TwistProofs.DesiredAims | agent_ros/adapters/twist.py:304-316 | for a robot not at its goal the desired velocity turns to the side of the goal, by the bearing up to the limit, and drives, by the distance up to the limit, iff the goal is not behind |
| TwistProofs.ReachableProposes | agent_ros/adapters/twist.py:317-328 | the command gets from the last one as far towards the desired velocity as one period of acceleration allows, in each component |
| TwistProofs.MotionIsAimed | agent_ros/adapters/twist.py:288-345 | in every run each motion command on the wire was so computed, for a robot short of its goal |
| TwistProofs.UndisturbedStageDrives | agent_ros/adapters/twist.py:288-345 | while nothing disturbs a stage, every period short of the goal puts its motion command on the wire, each computed from the one before, and the stage stays |
| TwistProofs.StopOutdatesProposals | agent_ros/adapters/twist.py:277-337 | in every reachable state: unless the worker is past the check of a velocity command when a stop begins, no command computed up to then is ever sent, not even after another start |
| Twists.RclpyTwistTransport.ZeroAndDisable | agent_ros/adapters/twist.py:277-286 | disable, exactly three zeros, forget the last command; what is on the wire stays within limits |
| Twists.RclpyTwistTransport.Propose | agent_ros/adapters/twist.py:288-327 | a proposal is made iff the pose is fresh, the goal out of reach and limits are given; it is within the limits, one period of acceleration from the last command towards the goal, and for the generation that was read |
| Twists.RclpyTwistTransport.ControlStep | agent_ros/adapters/twist.py:288-331 | the timer callback up to its submission: no stage, nothing; a proposal within limits, towards the goal; or a full stop |
| MissionGeometry.NormalizeAngleIsCongruent | examples/hospital_delivery/src/smartcar_bringup/smartcar_bringup/controller_core.py:85-90 | the result lies in [-pi, pi] and names the same direction to within the closeness tolerance |
| MissionGeometry.NormalizeAngleFixesTheRange | examples/hospital_delivery/src/smartcar_bringup/smartcar_bringup/controller_core.py:85-90 | angles in the range, both ends included, are kept |
| MissionGeometry.FrameKeepsDistances | examples/hospital_delivery/src/smartcar_bringup/smartcar_bringup/controller_core.py:93-103 | the change to the odometry frame keeps distances and sends the start to the origin |
| MissionGeometry.FrameReadsAheadAndLeft | examples/hospital_delivery/src/smartcar_bringup/smartcar_bringup/controller_core.py:93-103 | the coordinates of a point in a frame are how far ahead and how far to the left of the origin it is, and no others are |
| MissionGeometry.HeadingIsBearing | examples/hospital_delivery/src/smartcar_bringup/smartcar_bringup/controller_core.py:370-370 | the direction to a point less the heading is a bearing of the point in the frame of the pose |
| LookaheadCarrot.CarrotIsAtLookahead | examples/hospital_delivery/src/smartcar_bringup/smartcar_bringup/controller_core.py:106-132 | the carrot lies on the polyline at arc length min(lookahead, total), zero-length segments included |
| LookaheadCarrot.ArcLengthIsACoordinate | examples/hospital_delivery/src/smartcar_bringup/smartcar_bringup/controller_core.py:106-132 | arc length determines the point, so that description leaves no choice |
| LookaheadCarrot.Interpolate | examples/hospital_delivery/src/smartcar_bringup/smartcar_bringup/controller_core.py:106-132 | the loop finds that point, and refuses exactly an empty path or a non-positive lookahead |
| MissionProofs.RunKeepsInv | examples/hospital_delivery/src/smartcar_bringup/smartcar_bringup/controller_core.py:207-424 | the invariant behind the rows below holds after any sequence of operations |
| MissionProofs.StageResultsAreHonest | examples/hospital_delivery/src/smartcar_bringup/smartcar_bringup/controller_core.py:230-424 | over every run the results are exactly the first stage_index stages in order, each within tolerance of its endpoint and in time; success means all; indices in range; a failure names its stage |
| MissionProofs.AdvancePassesExactlyTheNear | examples/hospital_delivery/src/smartcar_bringup/smartcar_bringup/controller_core.py:338-363 | the advance loop passes every waypoint in reach from where it stood, none out of reach, across stages |
| MissionProofs.MotionIsJustified | examples/hospital_delivery/src/smartcar_bringup/smartcar_bringup/controller_core.py:301-424 | every command is within limits; a non-zero one means running, in time, fresh odometry, no obstacle, target out of reach, recent progress |
| MissionProofs.LastClampIsIdleIff | examples/hospital_delivery/src/smartcar_bringup/smartcar_bringup/controller_core.py:414-424 | the last clamp never changes the value iff full speed on the flattest arc treated as straight respects the turning limit |
| MissionProofs.PursuitArcMeetsCarrot | examples/hospital_delivery/src/smartcar_bringup/smartcar_bringup/controller_core.py:135-140 | the arc of the computed curvature, tangent to the heading, passes through the carrot |
| MissionProofs.WatchdogRunsDry | examples/hospital_delivery/src/smartcar_bringup/smartcar_bringup/controller_core.py:365-389 | for a fixed target the watchdog is refreshed fewer than (floor(d/eps)+1)*(floor(pi/eps_h)+1) times |
| MissionProofs.StuckMissionEndsInTime | examples/hospital_delivery/src/smartcar_bringup/smartcar_bringup/controller_core.py:365-389 | with bounded gaps between updates the time on one waypoint is bounded |
| MissionProofs.WatchdogEndsIff | examples/hospital_delivery/src/smartcar_bringup/smartcar_bringup/controller_core.py:301-389 | an update ends a running mission for lack of progress iff it passes the checks on time, odometry and obstacles, its target is out of reach, and it is overdue with no improvement in distance or heading |
| MissionProofs.EmergencyStopLatches | examples/hospital_delivery/src/smartcar_bringup/smartcar_bringup/controller_core.py:230-278 | ESTOPPED is left only by a reset, and every command until then is zero |
| MissionSteering.SteerTurns | examples/hospital_delivery/src/smartcar_bringup/smartcar_bringup/controller_core.py:404-410 | a carrot bearing more than the threshold is turned to on the spot: no forward speed, and a rate of gain times bearing up to the limit; it turns towards the carrot iff gain and limit are positive (or the bearing is zero) |
| MissionSteering.SteerDrives | examples/hospital_delivery/src/smartcar_bringup/smartcar_bringup/controller_core.py:411-424 | any other carrot is driven to: the two speeds drive the circle through it, at the highest speed that the limits allow on that arc, eased in proportion to the distance on the last stretch; the speed is positive iff limits and distance are; the carrot is not behind if the threshold is at most a quarter turn |
| MissionSteering.UpdateSteers | examples/hospital_delivery/src/smartcar_bringup/smartcar_bringup/controller_core.py:301-424 | an update that passes its checks, has waypoints left and is not ended by the watchdog commands exactly that, for the point at lookahead distance along the rest of the stage as seen from the robot; every other update commands a halt |
| MissionSteering.HeadingErrorIsBearing | examples/hospital_delivery/src/smartcar_bringup/smartcar_bringup/controller_core.py:366-371 | the heading error the watchdog looks at is the size of a bearing of the target in the frame of the robot, to within the closeness tolerance |
| MissionOutcomes.LateUpdateEndsIff | examples/hospital_delivery/src/smartcar_bringup/smartcar_bringup/controller_core.py:314-315 | an update ends a running mission for its time iff it comes more than the mission timeout after the start |
| MissionOutcomes.ObstructionEndsIff | examples/hospital_delivery/src/smartcar_bringup/smartcar_bringup/controller_core.py:329-336 | a mission that stays blocked stands still, and ends for its obstacle iff some update comes more than the limit after it was first seen |
| MissionOutcomes.ClockOfObstacle | examples/hospital_delivery/src/smartcar_bringup/smartcar_bringup/controller_core.py:329-336 | the first update that sees an obstacle starts that clock, and one that sees none stops it |
| MissionOutcomes.SilenceEndsIff | examples/hospital_delivery/src/smartcar_bringup/smartcar_bringup/controller_core.py:317-327 | a mission that gets no pose stands still, and ends for stale odometry iff some update comes more than the limit after odometry was last heard of, or after the start |
| MissionOutcomes.PoseIsAsOldAsItsStamp | examples/hospital_delivery/src/smartcar_bringup/smartcar_bringup/controller_core.py:317-320 | an update with a pose ends for stale odometry iff its stamp is older than the limit, and the stamp is when odometry was last heard of |
| MissionOutcomes.AdvanceRecordsWhatItSees | examples/hospital_delivery/src/smartcar_bringup/smartcar_bringup/controller_core.py:344-360 | the stages completed by one update are recorded in order with the distance to their endpoint and the time that this update saw |
| MissionOutcomes.ArrivingSucceeds | examples/hospital_delivery/src/smartcar_bringup/smartcar_bringup/controller_core.py:338-363 | a robot that each update finds at the waypoint then due completes the mission, with at most one update for each waypoint left |
| MissionOutcomes.ApproachKeepsGoing | examples/hospital_delivery/src/smartcar_bringup/smartcar_bringup/controller_core.py:372-389 | a robot that each update finds nearer by at least the asked progress is never given up on, however far apart the updates are |
| Missions.MissionControllerCore.Advance | examples/hospital_delivery/src/smartcar_bringup/smartcar_bringup/controller_core.py:338-363 | the loop terminates and moves the state as specified |
| Missions.MissionControllerCore.Screen | examples/hospital_delivery/src/smartcar_bringup/smartcar_bringup/controller_core.py:309-336 | keeps the invariant; clear iff running, in time, posed, fresh and unobstructed; a failure is a timeout iff in fact out of time, and for an obstacle only after it stood there long enough; route, results and watchdog stay |
| Missions.MissionControllerCore.Watch | examples/hospital_delivery/src/smartcar_bringup/smartcar_bringup/controller_core.py:372-389 | keeps the invariant; ends the mission iff the same target was watched, is overdue, and neither distance nor heading improved; otherwise the last improvement is recent and the best distance has not grown |
| Missions.MissionControllerCore.Steer | examples/hospital_delivery/src/smartcar_bringup/smartcar_bringup/controller_core.py:404-424 | the command turns to or drives to the carrot as `SteerTurns` and `SteerDrives` say |
| Missions.MissionControllerCore.Update | examples/hospital_delivery/src/smartcar_bringup/smartcar_bringup/controller_core.py:301-424 | one update keeps the invariant and answers a bounded command; it steers along the rest of the stage as `UpdateSteers` says, or halts |
| AcceptanceProofs.UntilIsPrefix | examples/hospital_delivery/scripts/verify_acceptance.py:229-237 | the terminal-bounded samples are a prefix of the ordered ones |
| Acceptance.IndexIsPosition | examples/hospital_delivery/scripts/verify_acceptance.py:235-252 | hence a recorded index is a position and serves as a cursor |
| AcceptanceProofs.GreedyFindsAllIffVisited | examples/hospital_delivery/scripts/verify_acceptance.py:235-264 | all stages are reported reached iff some strictly increasing choice of samples hits the endpoints in order |
| AcceptanceProofs.GreedyIsEarliest | examples/hospital_delivery/scripts/verify_acceptance.py:235-264 | and no such choice hits any endpoint earlier |
| AcceptanceProofs.EveryPrefixIsOptimal | examples/hospital_delivery/scripts/verify_acceptance.py:235-264 | the same for the first n stages |
| AcceptanceProofs.GreedyIsNotMaximal | examples/hospital_delivery/scripts/verify_acceptance.py:235-264 | samples on which skipping a stage would have reached two more |
| AcceptanceProofs.ReportedTimesAreOrdered | examples/hospital_delivery/scripts/verify_acceptance.py:238-264 | reported times of reached stages increase strictly and lie within the mission |
| AcceptanceProofs.ReachedIffWithinTolerance | examples/hospital_delivery/scripts/verify_acceptance.py:238-264 | a stage is reported reached iff its reported error is within tolerance |
| AcceptanceProofs.DerivedReportIsOrdered | examples/hospital_delivery/scripts/verify_acceptance.py:346-352 | a derived report is never faulted for the order of its stages |
| AcceptanceProofs.DerivedReportIsCleanIff | examples/hospital_delivery/scripts/verify_acceptance.py:324-360 | it passes the stage checks iff the earliest hits of the endpoints in order all exist, the first after the start, each within the stage budget of the one before |
| AcceptanceProofs.AnotherChoiceMayMeetTheBudget | examples/hospital_delivery/scripts/verify_acceptance.py:235-264 | samples on which later hits of the same endpoints meet the budget, while every report derived from them is faulted |
| AcceptanceProofs.ReportIsCleanIff | examples/hospital_delivery/scripts/verify_acceptance.py:324-360 | what the stage checks come to for any three-stage report |
| Acceptance.DeriveMetrics | examples/hospital_delivery/scripts/verify_acceptance.py:166-264 | the loops and the cursor compute the greedy match and its metrics; each malformed input is refused with its own error |
| HospitalBudget.Check | agent_ros/runtime/controller.py:802-844 | accepts exactly the statuses within budget; "unsafe" exactly when times are unusable or the first bad completion is out of order rather than late |
| HospitalBudget.TotalMattersOnlyWhenDone | agent_ros/runtime/controller.py:839-843 | the test of the total is implied while a stage is unfinished, and only then |

## Left out

- Threads, locks and conditions are interleavings of atomic regions; timeouts are steps that may happen at any time. Fairness, and so that anything happens eventually, is not modelled.
- Receipts are numbers in order of acceptance, so an object passed to the wrong worker is not modelled.
- SafetySequencer.SubmitOwned: the inline command runs as one step under the condition; an owned command that itself calls back into the sequencer is not modelled.
- Exceptions that are not `Exception` are modelled only where they matter to the launch hand-off and to the audit writer.
- JSON and the single-field checks of audit records (clocks, endpoint ids, error codes, session format): reading a line back is a parameter, a line is any unbroken text that reads back as its record, and the field checks are one flag of a record. Clocks in records, the lock file and what a power failure does to unsynced bytes are left out.
- Heartbeat times are reals; the supervisor thread only chooses when a heartbeat is tried.
- Launch: process ids are never reused, and what a region sees of the process table is a view that contains every live group; colcon, ROS graph probes and the estop service call are outcomes. Two records of one process group are not distinguished.
- HospitalRace: `mission-cancel`, status polling and the interruption of an in-flight start process are left out; stops from elsewhere are the latch alone.
- Twist: `_generation += 1` is one action; the three assignments of a start, the check, the publication and the bookkeeping of a velocity command are separate ones. The stops' own writes may happen at any time and in any order, which allows more than the program does; status texts and permit objects are left out. A proposal reads `_last_command` once and `_stage` with `_stage_generation` in one step, where the program reads the former several times and the latter two while a start may be setting them.
- MissionControllerCore: the four optional watchdog fields, always set and cleared together, are one option; floating-point rounding, NaN and infinite poses are left out; the configuration is required to have non-negative limits and positive lookahead, slow-down distance and epsilons, as the only configuration the program constructs has. Loading a route is the predicate `ValidStage`.
- DeriveMetrics: numbers are already parsed; drift, wall-clock factor, terminal pose and evidence counts are left out. The report checks other than those of the stages are left out.
- Nav2 and factory adapters, profiles, evidence store, graph probing, MCP server, command line, camera and release scripts: input and output, or field-by-field checks that would add only easy members.
