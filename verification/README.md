# Agent Shutdown Verification: a model in Dafny

Agent Shutdown Verification is a control plane that stops an agent run and says, from five
boundary probes, whether it really stopped. Its state is a handful of SQLite tables; every
`with store.connection()` block is one atomic commit, and the process may die between any two
commits. The claims it makes (VERIFIED is earned, UNKNOWN is never promoted, recovery changes
nothing, every event is delivered from a mirror of the evidence) are claims about all
interleavings and all crash points, and not all of them hold without a condition. This project
models the protocols as machines whose steps are single commits, clock reads and external calls,
proves for every run of the machines what holds, and shows by schedules and exact conditions where
it ends. The operations of `asv/service.py`, `asv/siem.py` and `asv/evidence.py` are objects that
update their rows in place and are proved to be paths of the machines.

`dafny verify dfyconfig.toml` checks everything.

## Modules

- `Domain`: states, probe results, kinds, and the aggregation of results.
- `Integrations`: the probe classifiers over an arbitrary transport, and what a PASS means.
- `Orchestrator`: the machine of one shutdown. `OrchestratorInvariant` keeps its invariant,
  `OrchestratorTheorems` has lease exclusion, phases and progress, `OrchestratorSources` which
  adapter a durable result comes from, `OrchestratorOutcomes` crash transparency, fail-closed
  verdicts and idempotent requests, `OrchestratorRecovery` what recovery can and cannot finish.
  `OrchestratorSchedules` drives one worker, or two in turn, to any place, and
  `OrchestratorLimits` has the schedules that break a promise and the exact conditions.
- `FailClosed`, `LongLeases`: what a verdict says about the world when the run belongs to a
  simulated drill, exactly.
- `RunEvidence`: the orchestrator and the ledger together.
- `Service`: `ControlPlane` as an object whose methods follow that machine.
- `Timestamps`: the ISO text that SQL compares.
- `Ledger`, `Outbox`, `OutboxMirror`, `Publisher`, `Starvation`: the hash chain, the transactional
  outbox, its publisher and its progress.
- `Drills`, `DrillService`, `DrillRuns`: the two-person approval protocol, its recovery, and a drill
  together with the orchestrator of its run.
- `Reports`, `Metrics`: the derived views.

## Reading the theorems

- **Timing hypothesis.** `_transition` does not check the lease (asv/service.py:484-489), so the
  theorems about whole orchestrator runs speak of timely runs: no worker that holds the lease lets
  it lapse (`Orchestrator.InTime`). Nothing else is assumed about schedules, crashes or clocks.
  `LapsedLeaseUndoesVerdict` and `LateWorkerPromotesUnknown` show that the hypothesis is needed, and
  `PhaseCommitIsLegalExactly`, `VerdictCommitIsLegalExactly` and `ProbeSaveIsLegalExactly` say in
  which states a commit is harmless. The theorems about requests and lost leases need no hypothesis.
- **Schedules.** A schedule "for every lease and deadline" is built for every positive one; with a
  deadline that is over at once every run ends UNKNOWN before anything is probed. The directions of
  the exact conditions that promise something need no such restriction.
- **What raises.** Inside `_orchestrate` an adapter call may raise, and so may the saving of
  discovered children, when a status is not an object (asv/service.py:517-518). Any other store
  operation succeeds or the process crashes.
- **Abstract functions.** Canonical JSON, SHA-256 and HMAC are arbitrary functions; where a theorem
  needs more (canonical text is stable under parsing, no collisions) it says so.
- **Interleaving.** The outbox machine interleaves at commit granularity, so a requeue or an append
  may fall between a batch's snapshot and its updates. The report machine has steps between the
  reads of a report and its insert.

## What the code does not do

- A crash between the two commits of the exception handler (asv/service.py:281-289) leaves a run
  without a verdict that no recovery selects for work: `CrashInHandlerStrands`. `RecoverableExactly`
  shows that this is the only such state.
- A shutdown request for a drill's run that arrives before the dispatcher's is served by the
  configured adapter instead of the simulated one: `CompetingRequestBreaksTransparency`. If it uses
  the drill's own key, the drill still ends STARTED: `SameKeyHidesCompetitor`. Crash transparency
  holds if and only if the dispatcher stops the run, or the configured adapter cannot be told from
  the simulated one: `TransparentExactly`, `DrillsAreTransparentExactly`.
- After a crash, recovery rebuilds the simulated adapter for every run with a drill's reserved id,
  whoever stopped it (asv/service.py:317-333, 397-410). A run that a public caller stopped under a
  real adapter can then end VERIFIED, or FAILED, with nothing observed: `HeirFollowsOutcomes`,
  `LeakShows`. So verdicts are fail-closed if and only if the run belongs to no simulated drill or
  the outcomes cannot do it: `SafeUnknownExactly`, `VerifiedIsClosedExactly`,
  `FailedIsExplainedExactly`.
- A competing request between the creation of a drill's run and the dispatcher's request abandons
  the whole recovery pass: `CompetingRequestAbandonsPass`. Only that and a crash do:
  `AbandonedExactly`. It happens at most once per drill: `OutrunAtMostOncePerDrill`.
- A child that the cluster lists with a status that is not an object ends the run FAILED:
  `IllegibleChildFailsRun`, `SaveRaisesExactly`.
- `payload_hash` covers the payload alone, so the head hash binds the history of a chain only if it
  has at most one record: `HeadHashDoesNotBindHistory`, `HeadHashBindsExactly`.
- The process probe keeps one item per pod name, so a pod that one selector lists as running and
  the other as finished counts as finished: `StaleListingHidesRunningPod`. `NoRelatedPodActive`
  says exactly when a PASS can be trusted.
- docs/report-siem-restart.md:37 says that requeue resets the attempt count. The code keeps the
  count and moves the baseline (asv/service.py:607-612), and so does the model.

## Model

| member | source | states |
|---|---|---|
| `Domain.VerifiedIsEarned` | asv/domain.py:53-63 | a verdict is VERIFIED if and only if something was observed and every observation passed; every verdict is terminal |
| `Domain.AggregateIsWorst` | asv/domain.py:53-63 | the verdict of two batches of results is the worse of their verdicts: order is irrelevant and more evidence never improves a verdict |
| `OrchestratorInvariant.StepKeepsInv` | asv/service.py:216-291 | in a state whose lease holders are in time, every step (request, recovery, worker step, restart probe, clock tick, crash) keeps the joint invariant of run row, work row, probe rows, call history and all workers |
| `OrchestratorInvariant.ClaimFindsRunFree` | asv/service.py:412-428 | when a claim succeeds in a timely run, no other worker is past its own claim |
| `OrchestratorInvariant.OneActor` | asv/service.py:412-437 | two workers that are both past their claim are the same worker |
| `OrchestratorTheorems.LeaseExclusion` | asv/service.py:412-492 | in every timely run each write of run state or probes is made by the owner of an unexpired lease, or by the worker that released the work as COMPLETE in its exception handler, and nobody else is past its claim |
| `OrchestratorTheorems.LostLeasesStayLost` | asv/service.py:412-455 | over any schedule, timely or not, a token that has lost the lease never owns it again |
| `OrchestratorTheorems.NoPhaseIsSkipped` | asv/service.py:234-289 | every step is a legal move: a phase is skipped only by UNKNOWN after the deadline or FAILED after an adapter call or the saving of children raised, and a verdict never changes |
| `OrchestratorTheorems.PhasesOnlyMoveForward` | asv/service.py:462-492 | between any two moments of a timely run, over all crashes and recoveries, the phase never goes back and a verdict is final |
| `OrchestratorTheorems.CallsFollowPhases` | asv/service.py:234-279 | in the trace of adapter calls every stop follows a returned fence, every discovery a returned stop, every probe a returned stop and discovery |
| `OrchestratorTheorems.VerifiedNeedsFivePasses` | asv/service.py:261-280 | in every reachable state a VERIFIED run has exactly one durable row of each of the five kinds, and it is PASS |
| `OrchestratorTheorems.VerdictHasCause` | asv/service.py:247-289 | every verdict in every reachable state is the aggregate of five durable results, or UNKNOWN with a deadline passed when the run stopped, or FAILED after a raised call, or FAILED after discovered children could not be saved |
| `OrchestratorTheorems.CommitsLowerLeft` | asv/service.py:261-280 | every phase, probe or verdict commit lowers the number of commits left |
| `OrchestratorTheorems.AtMostTenCommits` | asv/service.py:216-291 | after the request a run makes at most ten phase, probe and verdict commits, summed over all crashes and recoveries |
| `OrchestratorRecovery.RecoverableExactly` | asv/service.py:293-335 | an unfinished run can still reach a verdict if and only if it is not stranded (work COMPLETE, no verdict, handler gone) |
| `OrchestratorRecovery.CanReachVerdict` | asv/service.py:293-335 | constructs the timely schedule that finishes a run that is not stranded: crash, wait for lease and deadline, recover |
| `OrchestratorRecovery.StrandedForever` | asv/service.py:281-289 | no timely continuation changes the run state or probes of a stranded run |
| `OrchestratorRecovery.CompleteMeansVerdict` | asv/service.py:439-455 | a COMPLETE work row means a verdict, or a worker between the two commits of the exception handler, or a stranded run |
| `OrchestratorLimits.CrashInHandlerStrands` | asv/service.py:281-289 | for every lease, deadline and adapter whose fence call can raise: a timely schedule in which a crash between the two commits of the handler strands the run |
| `OrchestratorLimits.LapsedLeaseUndoesVerdict` | asv/service.py:484-489 | for every lease and deadline: a schedule outside the timing hypothesis in which a late worker commits FENCING over the verdict UNKNOWN |
| `OrchestratorLimits.LateWorkerPromotesUnknown` | asv/service.py:273-280 | for every lease, deadline and adapter that can answer PASS to all five probes: a schedule outside the timing hypothesis in which a worker that stalls before its last commit records VERIFIED over the UNKNOWN that recovery wrote |
| `OrchestratorLimits.ClusterCanPass` | asv/integrations.py:551-570 | a fully configured Kubernetes adapter is such an adapter: in a world where everything is closed it answers PASS to all five |
| `OrchestratorLimits.VerdictCommitIsLegalExactly` | asv/service.py:474-492 | in any state, reachable or not, a verdict commit is a legal move if and only if the row already holds that verdict or the rows justify it now |
| `OrchestratorLimits.ProbeSaveIsLegalExactly` | asv/service.py:494-512 | in any state a probe row is saved legally if and only if the run is probing a kind without a row, or has a verdict and the row is a restart probe |
| `OrchestratorLimits.VerdictChangesExactly` | asv/service.py:484-489 | with a verdict in the row, a worker step changes it if and only if it is a phase commit or the commit of another verdict |
| `OrchestratorLimits.IllegibleChildFailsRun` | asv/service.py:514-518 | for every lease and deadline and every cluster that lists a child with a status that is not an object: a timely schedule that ends FAILED before the deadline although no adapter call raised and nothing was probed |
| `OrchestratorLimits.PhaseCommitIsLegalExactly` | asv/service.py:484-489 | in any state, reachable or not, a phase commit is a legal move if and only if the run row is where the worker left it or already one phase on |
| `OrchestratorLimits.CompetingRequestBreaksTransparency` | asv/service.py:200-214 | for every lease, deadline, outcomes and configured adapter that does not mimic the outcomes: if a public request is the one accepted, a timely schedule without crashes breaks the promise of the drill before the deadline |
| `OrchestratorLimits.TransparentExactly` | asv/service.py:397-410 | all timely schedules of a simulated drill's run are transparent if and only if the accepted request is the dispatcher's, or the configured adapter mimics the outcomes: it is the default or a simulated adapter that answers exactly as they say, or a Kubernetes adapter with the namespace not allowed, so that every run fails, and the outcomes aggregate to FAILED |
| `OrchestratorLimits.MimicIsTransparent` | asv/service.py:397-410 | under an adapter that mimics the outcomes every state of every timely schedule is transparent, whoever stopped the run and whichever worker saved which row |
| `OrchestratorOutcomes.DispatchedIsTransparent` | asv/service.py:216-335 | every timely schedule in which only the dispatcher's request is accepted is transparent in all its states |
| `DrillRuns.DrillsAreTransparent` | asv/service.py:354-410 | for every drill, over every schedule of approvals, recoveries, crashes and public requests in which the dispatcher stops the run: durable results are the requested ones and so is the verdict, unless a check saw the deadline pass |
| `DrillRuns.DrillsAreTransparentExactly` | asv/service.py:354-410 | every approved simulated drill keeps its promise under every schedule if and only if its run is stopped by the dispatcher, or the configured adapter mimics the outcomes |
| `DrillRuns.SameKeyHidesCompetitor` | asv/service.py:711-717 | under any configured adapter that does not mimic the outcomes, a public caller that uses the drill's own key goes unnoticed: the drill ends STARTED under that key although the configured adapter acted and the promise is broken |
| `DrillRuns.AgreementHolds` | asv/service.py:675-718 | in every joint state the key in the run row is the one the approval protocol knows |
| `OrchestratorOutcomes.CrashTransparency` | asv/service.py:216-291 | for a simulated drill's run that the dispatcher stopped, under every timely schedule: durable probe rows carry the requested outcomes, and the verdict is their aggregate, or UNKNOWN with a stop time at or past the deadline |
| `OrchestratorSources.SourceHolds` | asv/service.py:200-214 | in every state of every timely run: the boundary rows are in the order of the probe loop, those up to some point come from the adapter of the first worker (the configured one, or the simulated one if the dispatcher stopped the run) and the later ones from the adapter that recovery rebuilds; the same two adapters account for every worker and every failed call |
| `LongLeases.RowsArePure` | asv/service.py:412-428 | with a lease at least as long as the deadline the rows of a timely run never come from both adapters |
| `OrchestratorOutcomes.SafeUnknownNeverVerifies` | asv/adapters.py:16-37 | under the default adapter every finished run that belongs to no simulated drill is UNKNOWN |
| `FailClosed.SafeUnknownExactly` | asv/service.py:397-410 | under the default adapter all finished timely runs are UNKNOWN if and only if the run belongs to no simulated drill, or to one whose outcomes aggregate to UNKNOWN |
| `OrchestratorOutcomes.VerifiedMeansClosed` | asv/integrations.py:551-570 | a run VERIFIED under the Kubernetes adapter that belongs to no simulated drill has, for each boundary, one row taken from a world in which that boundary was configured, observed and closed, whatever the transports did |
| `FailClosed.HeirFollowsOutcomes` | asv/service.py:317-333 | for every lease, deadline and configured adapter: a timely schedule in which a public caller stops a simulated drill's run, the process dies before the claim, and recovery ends the run with the verdict of the outcomes, although nothing was observed |
| `FailClosed.LeakShows` | asv/service.py:317-333 | for every point at which a takeover can leak: a timely schedule under the Kubernetes adapter, with a public request accepted, that ends VERIFIED although nothing was observed at that boundary |
| `FailClosed.VerifiedIsClosedExactly` | asv/service.py:397-410 | under the Kubernetes adapter with a public request accepted, VERIFIED means every boundary seen closed if and only if the run belongs to no simulated drill or no takeover can leak: there is no boundary such that the outcomes pass from it on, everything before it is configured, and it is the first or the lease is shorter than the deadline |
| `OrchestratorOutcomes.FailedMeansBreached` | asv/integrations.py:551-570 | a run FAILED under the Kubernetes adapter that belongs to no simulated drill saw a call raise, or listed a child whose status is not an object, or has a durable row taken from a world in which that boundary was open |
| `FailClosed.FailedIsExplainedExactly` | asv/service.py:397-410 | under the Kubernetes adapter with a public request accepted, every FAILED has such a cause if and only if the run belongs to no simulated drill, or to one none of whose outcomes is FAIL |
| `OrchestratorOutcomes.RequestIsWrittenOnce` | asv/service.py:179-199 | over any schedule, timely or not, request time, deadline and key are written together and never again |
| `OrchestratorOutcomes.OneRequestIsAccepted` | asv/service.py:162-199 | of all requests in a schedule exactly one is accepted, once the run is requested at all |
| `OrchestratorOutcomes.LaterRequestsReplay` | asv/service.py:184-187 | after acceptance the same key gets the same times back, any other key conflicts, and neither changes the state |
| `OrchestratorOutcomes.RequestIsAnnouncedOnce` | asv/service.py:205 | over any schedule the orchestrator emits at most one shutdown.requested event, and a requested run has its work row |
| `OrchestratorOutcomes.EvidenceAgreesWithRun` | asv/service.py:474-512 | every emitted phase event was reached and an emitted completion or expiry names the verdict of the run |
| `RunEvidence.OneRequestRecord` | asv/service.py:205 | over any schedule, and whatever else is appended, the ledger holds at most one shutdown.requested record of a run |
| `RunEvidence.VerdictRecordsAreTrue` | asv/service.py:474-492 | in a timely run every completion or expiry record in the ledger carries, in its payload, the verdict that the run has |
| `RunEvidence.RecordHolds` | asv/service.py:534-539 | the ledger holds as many records of each orchestrator type as events were emitted, each describing one of them |
| `Service.ControlPlane.Orchestrate` | asv/service.py:216-291 | `_orchestrate` either leaves the run untouched or, uninterrupted, ends with a verdict; each of its commits, clock reads and calls is a step of the machine |
| `Service.ControlPlane.RunClaimed` | asv/service.py:223-280 | once the work is claimed, whatever phase the run was left in, the body ends with a verdict and releases its worker |
| `Service.ControlPlane.RunPhases` | asv/service.py:234-260 | the chain of phases, with the saving of discovered children, entered at any state ends at PROBING, at an unchanged verdict, or in the handler |
| `Service.ControlPlane.SaveDelegatedJobs` | asv/service.py:514-532 | one transaction: the table gains the last report of every child, or nothing at all if a status is not an object |
| `Service.ControlPlane.RunProbes` | asv/service.py:261-272 | the probe loop skips durable kinds, checks the deadline before each other one, and ends at the verdict, the expiry or the handler |
| `Service.ControlPlane.ProbeBoundary` | asv/service.py:265-272 | one probe: deadline check on the run as read, renewal, call, row, event, in the machine's order |
| `Service.ControlPlane.RecordVerdict` | asv/service.py:273-280 | the committed verdict is the aggregate of the collected results |
| `Service.ControlPlane.ExpireShutdown` | asv/service.py:462-467 | an expired run ends UNKNOWN and its worker is released |
| `Service.ControlPlane.Fail` | asv/service.py:281-289 | the exception handler ends FAILED, after it has released the work |
| `Service.ControlPlane.ClaimShutdownWork` | asv/service.py:412-428 | compare and set of the lease as one machine step; a refused claim changes neither run nor probes |
| `Service.ControlPlane.RenewShutdownLease` | asv/service.py:430-437 | the renewal writes only if the token is still in the row, and the worker goes on either way |
| `Service.ControlPlane.CompleteShutdownWork` | asv/service.py:439-455 | the owner's work row becomes COMPLETE, a stale token changes nothing |
| `Service.ControlPlane.RequestShutdown` | asv/service.py:162-214 | missing actor or key is invalid, a foreign tenant is not found, otherwise the answer is that of the machine; an accepted request writes run, work and event with two clock readings, any other changes nothing |
| `Service.ControlPlane.RecoverIncompleteShutdown` | asv/service.py:299-335 | one selected row: expired, resumed to a verdict, or busy and untouched, and nothing for a run that is not selected |
| `Timestamps.TextOrderIsTimeOrder` | asv/store.py:12-13 | for all pairs of UTC date-times, comparing the ISO texts (fraction dropped at zero microseconds) is comparing the instants, in all three relations |
| `Timestamps.IsoFormatOrder` | asv/store.py:12-13 | the text order is the lexicographic order of the calendar fields |
| `Timestamps.InstantOrder` | asv/store.py:12-13 | the lexicographic order of the calendar fields, over all month lengths and leap years, is the order of the instants |
| `Ledger.EvidenceLedger.Append` | asv/evidence.py:26-93 | one transaction inserts record and envelope or, without the run row, nothing, and keeps every chain |
| `Ledger.AppendKeepsLedger` | asv/evidence.py:39-67 | appends of any runs in any order keep every run's chain gapless, linked and canonical |
| `Ledger.VerifyChain` | asv/evidence.py:145-157 | accepts exactly the valid chains and otherwise names the first bad record and what is wrong with it |
| `Ledger.OneFirstError` | asv/evidence.py:145-157 | a list of records has one first error, so the answer is determined |
| `Ledger.RecordsVerify` | asv/evidence.py:95-101 | whatever the interleaving, the records of every run verify |
| `Ledger.VerifiesExactlyPrefixes` | asv/evidence.py:145-157 | a list made only of genuine records of one run verifies if and only if it is a prefix |
| `Ledger.TamperedPayloadIsRejected` | asv/evidence.py:145-157 | with a collision-free hash, changing a payload while keeping its stored hash is rejected |
| `Ledger.HeadHashDoesNotBindHistory` | asv/evidence.py:38 | at every length from two on, for any codec, two valid chains with equal head hash and different payload texts |
| `Ledger.HeadHashBindsExactly` | asv/evidence.py:145-157 | with a collision-free hash the head hash determines all payload texts of valid chains of length n if and only if n is at most one |
| `Ledger.SequenceCounts` | asv/evidence.py:40-46 | the next sequence number is one more than the number of records of the run |
| `Ledger.KeyIsInjective` | asv/evidence.py:69-85 | the key text determines run and sequence number, whatever characters run ids contain |
| `Outbox.RetryArithmetic` | asv/siem.py:63-139 | over every interleaving of batches, appends, requeues and crashes: the baseline is that of the cycle, PENDING is within its budget with the right next attempt, DEAD_LETTER has spent exactly its budget, DELIVERED has no side rows, and the snapshot stays true of what is unsent |
| `Outbox.CycleStartIsProduct` | asv/service.py:607-612 | the baseline of a cycle is the budget times the number of requeues |
| `Outbox.EventsAreStable` | asv/siem.py:82-133 | through retries, dead letters and requeues an event keeps its envelope, attempts never decrease and delivery is final |
| `Outbox.SettleTouchesOne` | asv/siem.py:87-133 | one send changes no other event, no evidence and no run |
| `Outbox.FailuresAreSpaced` | asv/siem.py:74-78 | two consecutive failures of one cycle are at least the delay of the first apart on the batch clock |
| `Outbox.DelayGrows` | asv/siem.py:103-106 | delays within a cycle are nondecreasing and at most the cap |
| `Outbox.ForcedWaitIsBounded` | asv/siem.py:103-107 | the forced waiting of a cycle of n attempts is at most (n-1) times the cap and at most base times (2^(n-1) - 1) |
| `Outbox.CycleTakesForcedWait` | asv/siem.py:74-118 | the first n failures of a cycle, wherever they happen in a run, spread over at least the forced waiting of n attempts on the batch clock |
| `OutboxMirror.OutboxMirrorsEvidence` | asv/evidence.py:60-92 | in every reachable state outbox and evidence are in bijection by id, every chain verifies, and every stored envelope is the one export rebuilds |
| `OutboxMirror.KeysAreUnique` | asv/evidence.py:69-85 | no two events share an idempotency key, across all runs and tenants |
| `OutboxMirror.SequenceIsPosition` | asv/evidence.py:40-46 | the sequence number of a record is its position among the records of its run |
| `OutboxMirror.ExportEvents` | asv/service.py:548-568 | the exported list is the list of stored envelopes of the run in sequence order; an unknown run or foreign tenant is an error |
| `Publisher.CheckPolicy` | asv/siem.py:52-55 | the constructor accepts a configuration if and only if it has at least one attempt and 0 <= base <= cap |
| `Publisher.SelectDue` | asv/siem.py:65-80 | the snapshot is exactly the first `limit` due events by creation time and id |
| `Publisher.OutboxPublisher.PublishBatch` | asv/siem.py:63-139 | every selected envelope is sent once, the tables end as the commits of the batch leave them, and the counters add up |
| `Publisher.OutboxPublisher.SendAll` | asv/siem.py:81-133 | the loop sends every row of the snapshot in order, commits what came of each, and counts deliveries, failures and dead letters |
| `Publisher.BatchRefinesMachine` | asv/siem.py:84-133 | after each send of the loop the tables are a state of the machine, one step after another, so the retry arithmetic holds in mid-batch |
| `Publisher.DeadLetterOffice.RequeueDeadLetter` | asv/service.py:586-620 | only a dead letter of this tenant goes back to PENDING, attempts kept as the new baseline, with one new event that keeps the mirror; not found and conflict change nothing |
| `Starvation.NoStarvation` | asv/siem.py:63-118 | limit times the number of snapshots that pass over a due event is at most the retry budget of the events before it |
| `Integrations.CollectRelated` | asv/integrations.py:535-540 | the loop collects the last item of every name over both selectors, or fails on the first unreadable name |
| `Integrations.KeyedHoldsLast` | asv/integrations.py:535-540 | the collected map holds the last item of every name |
| `Integrations.KeyedIsLast` | asv/integrations.py:535-540 | every collected item is the last one of its name |
| `Integrations.PassMeansClosed` | asv/integrations.py:551-570 | for every transport behaviour a probe passes if and only if its boundary was configured, observed and closed |
| `Integrations.DelegationPassExactly` | asv/integrations.py:542-549 | the delegation probe passes if and only if both listings were read and no child is active, counts being read as `int` reads numbers, fractions, truth values and texts |
| `Integrations.SaveChildren` | asv/service.py:514-532 | the loop fails if and only if some status is not an object, and otherwise leaves the last report of every child |
| `Integrations.SaveRaisesExactly` | asv/service.py:514-518 | saving what the cluster listed raises if and only if some listed child has a status that is present and not an object |
| `Ledger.ReadIntOfDecimal` | asv/integrations.py:581-585 | reading a printed count back gives the count |
| `Integrations.FailMeansBreached` | asv/integrations.py:551-570 | for every transport behaviour a probe fails if and only if its boundary was seen open; with the lemma about PASS, everything else is UNKNOWN |
| `Integrations.ProcessFailExactly` | asv/integrations.py:553-556 | the process probe fails if and only if every pod is named, the last item of every name is legible and one of them is running |
| `Integrations.NoRelatedPodActive` | asv/integrations.py:553-556 | a PASS of the process probe means that no listed pod is running if and only if the selectors agree about the pods they both list |
| `Integrations.StaleListingHidesRunningPod` | asv/integrations.py:535-540 | a concrete answer of the cluster that passes although one selector listed the pod as running |
| `Drills.DrillProtocol` | asv/service.py:743-840 | at every crash point: a run with the reserved id exists only under APPROVED, STARTED or FAILED with an approver other than the author, and a STARTED drill's run exists with shutdown requested |
| `Drills.ReservationsAreKept` | asv/service.py:743-840 | between any two moments the reserved run id, author and tenant never change, STARTED, FAILED and REJECTED are final, and an accepted shutdown key is never replaced |
| `Drills.PassStartsAll` | asv/service.py:354-395 | whatever else is requested, created or stopped meanwhile: when a pass with no competing request is over, every drill that was APPROVED at its start is STARTED with its shutdown requested |
| `Drills.AbandonedExactly` | asv/service.py:354-395 | a step ends a pass before its end if and only if it is a crash or the dispatcher's request meets another key |
| `Drills.CompetingRequestAbandonsPass` | asv/service.py:375-388 | a schedule in which a public request between the creation of the run and the dispatcher's abandons the pass and leaves the drill APPROVED |
| `Drills.OutrunAtMostOncePerDrill` | asv/service.py:354-395 | over any schedule, however many public requests compete, at most one recovery pass is lost to another key for each drill there is |
| `Drills.SettledStays` | asv/service.py:362-394 | once the run of a drill is stopped and no pass is on its way to stop it again, no step brings one back |
| `DrillService.EveryDrillCanStart` | asv/service.py:354-395 | from every state of the protocol, whoever holds the lock at whatever commit, a restart and one undisturbed pass take every approved drill to STARTED with its shutdown requested |
| `DrillService.DispatchRecovers` | asv/service.py:362-394 | what the pass makes of one drill is a path of the protocol machine, whichever commit the crash followed |
| `DrillService.PassCanComplete` | asv/service.py:354-395 | from every state in which nobody holds the drill lock a path of the machine completes a pass |
| `DrillService.SelectApproved` | asv/service.py:358-361 | exactly the approved drills, each once, by approval time |
| `DrillService.DrillDesk.RequestDrill` | asv/service.py:743-770 | a new drill waits for approval and has reserved a run id that nothing else uses |
| `DrillService.DrillDesk.ApproveDrill` | asv/service.py:785-823 | refused to the author and outside PENDING_APPROVAL, replayed for the same approver, otherwise dispatched whatever other threads do between its commits; FAILED exactly when another key got in first |
| `DrillService.DrillDesk.RejectDrill` | asv/service.py:825-840 | refused without a reason, to the author and outside PENDING_APPROVAL; a rejected drill gets no run |
| `DrillService.DrillDesk.RecoverDrill` | asv/service.py:362-394 | reconciles one approved drill with its run at any crash point and whatever other threads do; fails exactly when another key stopped the run first |
| `DrillService.DrillDesk.RecoverApprovedDrills` | asv/service.py:354-395 | whatever other threads do meanwhile: the drills it counts are STARTED, all others are as before, and it counts every approved drill unless another key got in first for one of them |
| `Reports.ReportsAreStable` | asv/service.py:633-673 | once stored, a report never changes, its signature and its manifest's verify, its agent, correlation id, policy version, start time, verdict, stop time, probe results and delegated jobs are the run's forever, and its manifest describes a true prefix of the ledger however many events follow |
| `Reports.InvHolds` | asv/service.py:633-673 | at every interleaving of report commits with appends, orchestrator steps and crashes, also between the reads and the insert, the draft and every report are true |
| `Reports.ManifestDescribes` | asv/evidence.py:103-127 | a manifest describes the whole chain at the time it is read and its signature verifies |
| `Reports.AppendKeepsPrefixes` | asv/evidence.py:103-119 | what a manifest describes stays a prefix of the chain under any append |
| `Reports.FindingIsFinal` | asv/service.py:484-512 | every orchestrator step after a verdict leaves verdict, stop time, boundary results and delegated jobs as they are |
| `Reports.ReportDesk.MakeManifest` | asv/evidence.py:103-119 | the manifest summarises all records of the run, names the first error of their chain if there is one, and is signed |
| `Reports.ReportDesk.MakeReport` | asv/service.py:633-673 | not found, conflict or a report; a stored report is returned unchanged, a new one is written by the four commits of the machine; the signature verifies |
| `Reports.ReportDesk.WriteReport` | asv/service.py:643-673 | verify, sign, insert and announce as a path of the machine |
| `Metrics.LabelsLoseNoRow` | asv/metrics.py:121-128 | a family over a label set adds up to the number of rows if and only if every row's label is in the set |
| `Metrics.FleetLabelsLoseNoRow` | asv/metrics.py:17-58 | the label sets of runs, work items, delegated jobs and (kind, result) pairs of probes lose no row |
| `Metrics.PairsCover` | asv/metrics.py:35-40 | the nested loop over kinds and results lists every pair exactly once |
| `Metrics.OutboxGaugesSumToEvidence` | asv/metrics.py:104-112 | in every reachable state the outbox status gauges of a tenant add up to its evidence count |
| `Metrics.DeliveryCountersOnlyGrow` | asv/metrics.py:143-158 | the event counters and the delivery-attempt counter of every tenant never decrease |
| `Metrics.FleetCountersOnlyGrow` | asv/metrics.py:130-149 | the probe counters and the orchestration-attempt counter of every tenant never decrease |
| `Metrics.RunOnlyGrows` | asv/service.py:412-512 | no step of the orchestrator removes a probe row, an event or an attempt |
| `Metrics.TenantsAreIsolated` | asv/metrics.py:121-158 | an outbox or ledger step made for one tenant changes no row that another tenant's metrics read |
| `Metrics.FleetTenantsAreIsolated` | asv/metrics.py:121-149 | a step of the orchestrator for a run of one tenant leaves the runs, probes and work items of every other tenant as they were |
| `Metrics.EvidenceChainFailures` | asv/metrics.py:160-174 | the number of runs whose rows, in query order, do not verify |
| `Metrics.GroupByRun` | asv/metrics.py:166-170 | the loop groups the rows by run and keeps their order |
| `Metrics.NoChainFails` | asv/metrics.py:160-174 | in every reachable state no chain fails |

## Left out

- HTTP routing, authentication, environment configuration and status codes (asv/server.py, asv/auth.py).
- Network clients: transports and senders are arbitrary functions that answer or fail.
- `RestartGatewayProbe` and `request_restart`: the machine lets restart probes be added to a finished run at any time, so the theorems hold beside them, but their classifier and their sequential idempotence are not modelled.
- Registering agents, validating requests and listing dead letters: easy checks and queries.
- Foreign keys: not assumed; what they would say is proved where it is needed.
- Multi-process deployments: one process, in-process locks.
- `int` of a text with digits or spaces outside ASCII. Finite JSON fractions are exact numbers, not rounded to floats.
- An adapter that answers a probe with another kind than it was asked for, or with something that is not a JSON object.
- Fractional seconds of backoff: delays are whole units of an arbitrary length, without rounding. The budget of attempts is fixed during a run.
- Overflow of the backoff: with a budget of more than 1025 attempts, from attempt 1025 of a cycle on the factor `2 ** (cycle_attempts - 1)` is too large for a float, and the OverflowError inside the except block (asv/siem.py:103-106) aborts the batch; here the delay is the cap.
- Event ids are numbers; ties in creation time are broken by number instead of by UUID text.
- The texts of chain errors: a manifest holds the kind of the error and the number of the record.
- Exact Prometheus text: only numbers and label sets.
- Service.ControlPlane.Orchestrate: runs without interruption by other threads; interleavings and crashes are those of the machine, whose steps its commits are.
- Publisher.OutboxPublisher.PublishBatch: likewise without interruption; `BatchRefinesMachine` connects it to the machine that interleaves.
- Metrics.FleetCountersOnlyGrow: the runs of the fleet have clocks and crashes of their own, which allows more schedules than one process has.
