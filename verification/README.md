# ProbeHive's monitoring pipeline, verified

ProbeHive runs checks on a schedule, turns their evidence into the health of each Monitor, opens and
resolves Incidents, announces them as Alerts, and delivers Alerts to webhooks. Many workers do this
at once over shared tables: they claim rows under leases, crash, come back late, and receive the
same event more than once and in any order. This project models those protocols and proves what
they keep.

Every transaction of the program is one atomic step. Which worker acts, when leases run out, what
gets lost, repeated or reordered, and how long anything takes is arbitrary: a theorem about "every
run" quantifies over all sequences of steps from empty tables. Identifiers and lease holders are
fresh, and clocks are inputs; where a result needs a clock that does not run backwards, its
statement says so.

Where the program changes tables in place, so does the model: the transactions are methods of store
classes, statement by statement, and each is proved to end exactly in the state that a function on
the tables' values describes. The theorems about runs are proved of those functions.

| files | what they model |
|---|---|
| `Common`, `Events`, `Selection` | shared vocabulary; what the outbox carries; how claims select rows |
| `Health`, `HealthRuns`, `HealthTables` | the confirmation state machine, what any history of evidence and sweeps yields, and what one Run does by its outcome alone |
| `Staleness` | when evidence has gone stale, and when the sweep finds it |
| `Retry`, `Outbox` | back-off arithmetic; the durable queue with leases, retries, gap deadlines and dead letters |
| `Pipeline`, `PipelineInv`, `PipelineSteps`, `PipelineProjection` | health, Incident and Alert transactions, the invariant over all tables, and each step's proof |
| `EpisodeMeaning`, `PipelineRuns`, `PipelineRequests`, `PipelineEffects`, `PipelineStore` | the meaning of the in-order fold; theorems over runs; what each transaction comes to; the transactions in place |
| `Slots`, `SlotRuns`, `SlotEffects`, `SlotTiming`, `SlotStore` | Run slots, exactly-once recording and fencing, overlap in time, the store and the workers |
| `Schedule`, `Coverage`, `Scheduler` | slot series, what ticks cover, the scheduler |
| `Maintenance`, `MaintenanceRuns`, `MaintenanceService` | maintenance windows and the routing query, concurrent operators, the service |
| `Webhook`, `WebhookInv`, `WebhookDelivery`, `WebhookRuns`, `WebhookEffects`, `WebhookStore`, `WebhookService` | secret rotation, routing and delivery over shared rows |
| `AlertRouting` | the transaction in which the pipeline, the webhook tables and the windows meet |
| `Retention`, `Partitions`, `PartitionRuns` | months, cutoffs and suffixes; creating and dropping partitions; maintenance beside operators |

## Main results

- **Incidents refine an in-order fold.** In every run, a Monitor's openings and resolutions are the
  fold of the first `cursor` transitions of its log, in order, however events are delivered
  (`PipelineRuns.IncidentsRefineTheFold`). The fold has a meaning of its own
  (`EpisodeMeaning.FoldInOrder`, `EpisodeMeaning.FoldCovers`), and a drained queue without dead
  letters means that everything was projected and announced (`PipelineRuns.DrainedMeansConverged`).
- **Every Incident is a confirmed failure.** Behind each one stand two different recorded Runs of
  one revision, a scheduled one and a confirmation that names its candidate, with nothing healthy or
  unknown in between (`PipelineRuns.IncidentIsConfirmed`). Every candidate has asked for its
  confirmation (`PipelineRequests.CandidatesAreRequested`).
- **Nothing stops by itself.** Exactly what waits is claimed, crashed work included, and what fails
  for a passing reason is tried again (`Outbox.ClaimTakesExactly`, `Outbox.SettlingMeans`,
  `WebhookEffects.ClaimTakesExactly`, `WebhookEffects.ReportMeans`, `SlotEffects.ClaimMeans`).
- **Rotation never strands a delivery.** No unfinished delivery needs an erased secret
  (`WebhookRuns.UnfinishedDeliveriesCanBeSigned`), and the versions of an Integration have one shape
  in every reachable state (`WebhookRuns.RotationHasOneShape`).
- **Slots are recorded once.** `SlotRuns.SlotIsUnique`, `ExactlyOnce`, `OutcomeIsFinal` and
  `LostWorkerChangesNothing`; overlap in time is excluded exactly within a bound on delays
  (`SlotTiming.NoOverlap`, `SlotTiming.OverlapIsPossible`).
- **Alerts are routed with their facts.** A processed incident event has its Alert and exactly one
  delivery for each Integration that was enabled (`AlertRouting.MarkedMeansRouted`), and what
  suppressed a delivery does not depend on how late it was routed
  (`AlertRouting.SuppressionIgnoresDelay`), because what windows say about a settled instant is final
  (`MaintenanceRuns.SettledIsFinal`, `MaintenanceRuns.MatchIsFinal`).
- **Ticks cover a series** exactly when every gap fits the backfill bound
  (`Coverage.CoverageIsComplete`).

## Where the code is subtler than its promises

The model follows the code; the lemmas named say exactly when a promise holds.

- A Monitor can also move to down without a fresh confirmation: scheduled failing evidence that ends
  a pending recovery returns it there (`internal/health/health.go:202-239`). The exact condition is
  `HealthRuns.EntersDownExactlyWhen`, and `HealthRuns.RelapseEntersDown` is a history that does it; the
  earlier confirmation still stands behind it (`HealthRuns.DownIsConfirmed`).
- A confirmation worker may report success although nothing confirmed its candidate. The slot index
  ignores kinds, so its claim can take over an abandoned Run of something else in the same slot
  (`internal/postgres/run.go:73-98`), which it then executes and records. It happens exactly if such a
  Run occupies the slot (`SlotStore.Execute`, `SlotStore.TakeoverLeavesCandidate`).
- "A lease outlives the run" (`internal/run/scheduler.go:99-103`) is conditional. The lease is capped
  and its clock starts with the tick, so it holds exactly if the start delay and the ceiling fit in
  the lease together (`SlotTiming.NoOverlap`, `SlotTiming.OverlapIsPossible`,
  `SlotRuns.LeaseCoversCeiling`). Recorded results are unaffected.
- "Everything older than a slot that exists also exists" (`internal/run/scheduler.go:336-337`) is not
  an invariant: a gap longer than the backfill bound leaves older slots out for good
  (`Coverage.OversizedGapsMiss`). The first slot a scheduler attempts may also lie before the
  instant the Monitor last changed, because the bound applies to missed slots only.
- At most one maintenance window applies at an instant if operations on a Monitor do not race, or if
  no cancelled window still applies inside the new one (`MaintenanceRuns.AtMostOneApplies`,
  `MaintenanceRuns.CreateKeepsExclusive`). A creation that read the clock before a cancellation and
  committed after it breaks this (`MaintenanceRuns.RacingWindowsOverlap`).
- "Maintenance drops only what it created" (`internal/postgres/partitions.go:87-89`) holds for a
  clean-up exactly if no partition that operators attached has a name read as an expired month
  (`PartitionRuns.CleanupSparesForeign`), and for a partition over all time exactly if its name is not
  read as a month at all (`PartitionRuns.AttachedIsSafe`). Names are all that maintenance looks at:
  `runs_0123_01` is at risk, and so is `runs_+123_01`, because a plus sign is accepted
  (`PartitionRuns.AttachedPartitionIsDropped`, `Retention.ParsedFormatsBack`).
- The staleness sweep uses the configured interval, not the operator's floor
  (`internal/postgres/health.go:460`). Under a floor, punctual Monitors are safe exactly if two ceilings
  and three effective intervals fit in twice the time that evidence stays current, and evidence
  applied at once stays current until the next slot exactly if the effective interval is no longer
  than that time (`Staleness.FloorKeepsPunctualSafe`, `Staleness.FloorKeepsPromptSafe`). With one
  minute configured, a floor of two and a ceiling of ten seconds the first fails and the second
  holds (`Staleness.FlooredMonitorIsSwept`). The listing query and the locked check differ in one case at the
  database's precision (`Staleness.QueryAgrees`).

## Model

| member | source | states |
|---|---|---|
| `PipelineRuns.IncidentsRefineTheFold` | internal/postgres/incident.go:72-135 | For every run of the pipeline, whatever the order, duplication, retrying or loss of deliveries: a Monitor's openings and resolutions are the in-order fold of the first `cursor` transitions of its log, with the archived flag each projection read |
| `EpisodeMeaning.FoldInOrder` | internal/postgres/incident.go:93-121 | The fold means what it should: outages are opened by an unarchived transition to down, resolved by a later one to healthy, and never overlap |
| `EpisodeMeaning.FoldCovers` | internal/postgres/incident.go:93-121 | Every unarchived transition to down lies inside an outage of the fold, and no transition to healthy does |
| `PipelineRuns.IncidentsCoverOutages` | internal/postgres/incident.go:93-121 | In every run the Incidents themselves cover each projected unarchived transition to down and none to healthy |
| `PipelineRuns.OnlyLastIsUnresolved` | internal/postgres/incident.go:163-173 | At most one Incident of a Monitor is not resolved, and it is the latest |
| `PipelineRuns.TimelineMatchesState` | internal/postgres/incident.go:175-251 | An Incident's version is its timeline's length, its kinds are opened, perhaps acknowledged, perhaps resolved as its state says, and its rows copy the transitions behind them |
| `PipelineRuns.DrainedMeansConverged` | internal/postgres/incident.go:72-135 | The cursor never passes the health version; with the outbox drained and no dead letters it equals it, and every opening and resolution has its Alert |
| `PipelineRuns.NextVersionAdvances` | internal/postgres/incident.go:77-91 | While the projection lags, the next version's event is live or dead-lettered and handling it moves the cursor by exactly one; every later one is answered with a version gap and changes nothing |
| `PipelineRuns.NothingIsRefused` | internal/postgres/incident.go:56-65 | No worker is ever told that an issued run, health or incident event has an invalid payload |
| `PipelineRuns.HandledMeansCommitted` | internal/postgres/incident.go:127-134 | A worker told that its event was handled can rely on the event's effect being committed |
| `PipelineRuns.AlertsAnnounceFacts` | internal/postgres/alert.go:42-98 | Every Alert copies an opening or resolution that exists and was made by the one event that row names |
| `PipelineRuns.HistoryIsAppendOnly` | internal/postgres/incident.go:175-251 | Whatever happens next, logs, timelines and Alerts keep what they have and cursors only advance |
| `PipelineRuns.IncidentIsConfirmed` | internal/postgres/incident.go:93-108 | Every opened Incident is backed by two different recorded Runs of one revision, a scheduled one that raised a failure candidate and a confirmation that named it, with nothing healthy or unknown since |
| `PipelineRequests.CandidatesAreRequested` | internal/postgres/health.go:104-140 | In every run each candidate has exactly one confirmation request, which names its id, Monitor, revision, triggering Run, the instant it was raised and the evidence it expects, and which is live, processed or dead-lettered |
| `PipelineRequests.RequestsNameCandidates` | internal/postgres/health.go:280-300 | In every run a confirmation request names a candidate that is there and copies it |
| `PipelineEffects.EvidenceIsApplied` | internal/postgres/health.go:34-140 | In every run, handling a new Run event applies exactly what the Run and the latest revision say to its Monitor's health and log if the Monitor is active, nothing otherwise, and marks the event |
| `PipelineEffects.SweepIsApplied` | internal/postgres/health.go:431-518 | Exactly when a sweep changes anything: known health of an active Monitor at the version read, with evidence at least three configured intervals and two ceilings old; then it becomes unknown and nothing else changes |
| `PipelineEffects.TransitionIsProjected` | internal/postgres/incident.go:72-135 | In every run, exactly what handling the next transition does: down opens an Incident unless the Monitor is archived or one is unresolved, healthy resolves the unresolved one, and each change issues its one event |
| `PipelineEffects.AcknowledgementMeans` | internal/postgres/incident.go:360-402 | In every run an open Incident becomes acknowledged with a timeline row of its own, an acknowledged one stays, and a resolved one is refused |
| `PipelineEffects.UnknownIncident` | internal/postgres/incident.go:360-402 | What is not an Incident of the Monitor is not found, and nothing changes |
| `PipelineProjection.NextKeepsInv` | internal/postgres/incident.go:22-135 | Every transaction and every worker step keeps the invariant that ties health, log, cursor, Incidents, events, markers, answers, Alerts and candidates together |
| `PipelineProjection.ProjectTransitionServes` | internal/postgres/incident.go:22-135 | Handling a health transition keeps the invariant and answers only "handled", with its marker, or "version gap" |
| `PipelineProjection.NotifyServes` | internal/postgres/alert.go:21-119 | Handling an incident event keeps the pipeline's invariant and always succeeds: its fact is there and has no Alert yet (its deliveries: `AlertRouting.NextKeepsInv`) |
| `PipelineProjection.AcknowledgeKeepsInv` | internal/postgres/incident.go:360-402 | Acknowledging keeps the invariant, the fold and the events included |
| `PipelineSteps.EvaluateRunServes` | internal/postgres/health.go:22-152 | Handling a recorded Run keeps the invariant and always succeeds, whatever its evidence |
| `PipelineSteps.CandidateIsNew` | internal/postgres/health.go:104-127 | The insert that ignores a conflicting candidate never meets one, so health never names a candidate without a row |
| `PipelineSteps.SweepKeepsInv` | internal/postgres/health.go:431-518 | Marking a Monitor stale keeps the invariant |
| `PipelineStore.Store.ProcessRunRecorded` | internal/postgres/health.go:22-152 | The evidence transaction, statement by statement, ends exactly in the tables and answer that the proved specification gives |
| `PipelineStore.Store.MarkHealthStale` | internal/postgres/health.go:431-518 | The staleness transaction, statement by statement, ends exactly in the specified tables |
| `PipelineStore.Store.ProcessHealthTransition` | internal/postgres/incident.go:22-135 | The projection of a transition, statement by statement, ends exactly in the specified tables and answer |
| `PipelineStore.Store.AcknowledgeIncident` | internal/postgres/incident.go:360-402 | An acknowledgement ends exactly in the specified tables and answer, with its not-found, conflict and repeated cases |
| `AlertRouting.ProjectIncidentTransition` | internal/postgres/alert.go:21-119 | The whole transaction, the fact's query, routing with its two queries and inserts, the Alert and the marker, ends exactly in the specified tables of both stores, or refuses and changes nothing |
| `AlertRouting.NextKeepsInv` | internal/postgres/alert.go:21-119 | Every action of workers, dispatchers and operators keeps the pipeline, the webhook tables and the windows consistent together: Alerts and routings are paired, and deliveries are exactly those that routing decided on |
| `AlertRouting.MarkedMeansRouted` | internal/postgres/alert.go:98-118 | In every run a processed incident event has its Alert, with exactly one delivery for each Integration enabled when it was projected, under the window that applied, and none for any other |
| `AlertRouting.DrainedMeansDelivered` | internal/postgres/alert.go:21-119 | With the outbox drained and no dead letters, every opening and resolution has its Alert, and deliveries to all who were enabled |
| `AlertRouting.SuppressionIgnoresDelay` | internal/postgres/webhook_routing.go:20-99 | If the instant of a fact was settled when its Alert was routed, its deliveries are at any later time suppressed by exactly the window that the tables then say applied, so delay and later operators make no difference |
| `PipelineStore.FindActiveIncident` | internal/postgres/incident.go:163-173 | The search returns the first Incident that is not resolved, or none |
| `Health.Evaluate` | internal/health/health.go:146-200 | Assigning one field after another builds exactly the decision of the table: late, superseded, ignored, indeterminate, settling, raising, confirming and contradicting cases, and its errors |
| `Health.EvaluateScheduled` | internal/health/health.go:202-239 | Scheduled evidence settles a state it agrees with and otherwise raises a candidate, superseding one that is pending |
| `Health.BeginCandidate` | internal/health/health.go:241-264 | A new pending candidate names the Run and event that raised it and makes the Monitor degraded |
| `Health.EvaluateConfirmation` | internal/health/health.go:266-296 | Determinate evidence confirms or contradicts the named candidate and concludes the stable state |
| `Health.SetState` | internal/health/health.go:298-306 | The version and the transition instant move exactly when the state differs |
| `Health.MarkStale` | internal/health/health.go:353-374 | A sweep makes a known Monitor unknown and its candidate stale, and leaves an unknown one alone |
| `HealthRuns.FactKeepsInv` | internal/health/health.go:146-306 | One fact keeps the inductive invariant (degraded exactly with a pending candidate whose direction the stable state decides), moves along an allowed edge or nowhere, and logs exactly the moves |
| `HealthRuns.HistoryInv` | internal/postgres/health.go:302-337 | Over every history the log is a gap-free chain from unknown to the current state, and the version counts it |
| `HealthRuns.HighWaterNeverDecreases` | internal/health/health.go:146-200 | The scheduled high-water mark never decreases |
| `HealthRuns.CountsPartition` | internal/health/health.go:58-71 | Evidence counts partition the responding ones, and those the eligible ones |
| `HealthRuns.EnteringDownIsConfirmed` | internal/health/health.go:266-296 | A stable state becomes down only when a confirmation of a pending failure candidate agrees |
| `HealthRuns.EntersDownExactlyWhen` | internal/health/health.go:202-296 | The exact condition under which a Monitor moves to down, which includes scheduled failing evidence that ends a pending recovery |
| `HealthRuns.RelapseEntersDown` | internal/health/health.go:202-239 | From no health at all: a scheduled failure, its confirmation, a scheduled pass and a scheduled failure lead through degraded, down and degraded to down again, by the scheduled Run |
| `HealthRuns.DownIsConfirmed` | internal/health/health.go:146-296 | A Monitor whose stable state is down was confirmed to be by a scheduled and a confirmation fact, the candidate pending in between and nothing healthy or unknown since |
| `HealthRuns.DownRowIsConfirmed` | internal/health/health.go:146-296 | Every log row that enters down is backed by such a confirmation |
| `HealthRuns.CandidateFlow` | internal/health/health.go:202-296 | A decision ends the pending candidate, replaces it or leaves it, and only a scheduled Run adds one |
| `HealthRuns.JudgeNeverFails` | internal/health/health.go:146-200 | A recorded Run that was skipped or has finished is always judged |
| `Health.ClassifiedEvidence` | internal/health/health.go:308-339 | Exactly which outcomes and codes blame the target, clear it, or blame the place a Run ran from |
| `HealthTables.ScheduledRunTable` | internal/health/health.go:146-239 | What a scheduled Run does, by outcome and code alone: blame keeps a Monitor down or raises a failure candidate, a clean pass raises a recovery or keeps it healthy, anything else changes neither state nor freshness; and which count is one |
| `HealthTables.ConfirmationRunTable` | internal/health/health.go:266-296 | What a confirmation of the pending candidate does, by outcome and code alone |
| `HealthTables.IgnoredRunTable` | internal/health/health.go:146-184 | A manual, superseded, late or misdirected Run changes nothing but when it was looked at |
| `HealthTables.EndedCandidateTable` | internal/health/health.go:202-296 | A pending candidate is superseded by any scheduled Run that blames or clears, and confirmed or contradicted by its confirmation |
| `HealthTables.StaleTable` | internal/health/health.go:353-374 | Going stale makes a known Monitor unknown with nothing responding and nothing suspected |
| `HealthTables.LoggedRowTable` | internal/postgres/health.go:302-337 | A log row is written exactly when the state moves, and says which version, from where to where, by which policy, revision and Run, on what counts, and when |
| `Staleness.StaleAfterBound` | internal/health/health.go:341-351 | Evidence stays current for at least the ceiling and one and a half intervals, with equality exactly when three intervals are two ceilings |
| `Staleness.PunctualIsNeverSwept` | internal/postgres/health.go:457-470 | A Monitor whose slots have determinate evidence applied within the ceiling and half an interval of being due is never swept |
| `Staleness.FloorKeepsPunctualSafe` | internal/postgres/health.go:457-467 | Exactly when no punctual Monitor is swept under an operator's floor: two ceilings and three effective intervals fit in twice the time evidence stays current, which is computed from the configured interval |
| `Staleness.FloorKeepsPromptSafe` | internal/postgres/health.go:457-467 | Evidence applied the instant its slot is due stays current until the next slot exactly if the effective interval is no longer than evidence stays current |
| `Staleness.FlooredMonitorIsSwept` | internal/postgres/health.go:431-518 | A run of the pipeline, with a configured minute, a floor of two minutes and a ceiling of ten seconds, in which a punctual and healthy Monitor is swept and becomes unknown |
| `Staleness.QueryNeverMisses` | internal/postgres/health.go:397-429 | The listing query never misses a Monitor that the locked check would find stale |
| `Staleness.QueryAgrees` | internal/postgres/health.go:403-412 | At the precision the database stores, query and check agree exactly, but for an age equal to the doubled ceiling cut to whole microseconds |
| `Outbox.NothingIsLost` | internal/postgres/outbox.go:71-173 | In every run an issued event is live, has a processed marker, or is a dead letter |
| `Outbox.RetryIsBounded` | internal/outbox/outbox.go:255-287 | An entry records at most 11 failures other than version gaps and 10811 in all, however they alternate, and never waits past 15 minutes after a gap was first seen |
| `Outbox.RecordingSpends` | internal/outbox/outbox.go:255-287 | Each recorded failure that does not dead-letter an entry spends some of a bounded budget |
| `Outbox.ExpiredGapIsDeadLettered` | internal/outbox/outbox.go:255-263 | A version gap reported at or after its deadline ends the entry as a dead letter |
| `Outbox.ReclaimFences` | internal/postgres/outbox.go:21-173 | After a reclaim, whatever happens next, nothing the old holder does to settle the entry changes anything |
| `Outbox.ClaimTakesExactly` | internal/postgres/outbox.go:28-55 | Exactly which entries a claim takes, an expired lease included: the available and unleased ones with fewer than the limit of such ahead; each gets the lease and one more attempt, and no other entry changes |
| `Outbox.IssuedIsTaken` | internal/postgres/outbox.go:28-55 | An issued event can be taken by the first claim at or after that instant that lists it first |
| `Outbox.SettlingMeans` | internal/outbox/outbox.go:219-293 | From the held row and the answer alone: a failure that is not permanent is retried in one second to five minutes before the twelfth attempt, a permanent or twelfth one ends as a dead letter, a version gap is retried until fifteen minutes after it was first seen, and a handled event is gone and marked |
| `Outbox.SettlingSpreads` | internal/outbox/outbox.go:219-293 | Every delay between the backoff and a fifth more is the one that some hash leads to |
| `Outbox.RunKeepsInv` | internal/postgres/outbox.go:21-173 | Every run keeps conservation, the match between leases and claims, and the bounds on failures |
| `Outbox.OutboxStore.ClaimEntries` | internal/postgres/outbox.go:21-69 | Claims exactly the first eligible visible entries, with one more attempt each, or refuses and changes nothing |
| `Outbox.OutboxStore.Succeed` | internal/postgres/outbox.go:71-115 | Under the lease the marker is kept and the entry removed; without it nothing changes |
| `Outbox.OutboxStore.Fail` | internal/postgres/outbox.go:116-136 | Under the lease the failure is recorded or the entry dead-lettered; without it nothing changes |
| `Outbox.OutboxStore.DeadLetter` | internal/postgres/outbox.go:138-173 | An entry becomes a dead letter exactly if it is held and is not one yet |
| `Outbox.OutboxStore.Handle` | internal/outbox/outbox.go:219-293 | A worker settles an entry exactly as its copy and its answer demand, retrying or dead-lettering it, and reports what it did |
| `Outbox.OutboxStore.Tick` | internal/outbox/outbox.go:169-210 | Every claimed entry ends exactly as its own answer demands, retried failures included, and no other entry is touched; the counters are the numbers of entries with each end and add up to the claimed ones |
| `Selection.Choose` | internal/postgres/outbox.go:28-35 | The loop selects the first eligible rows of the visible list, up to the limit; both claims use it |
| `Selection.ChosenAreFirst` | internal/postgres/outbox.go:28-35 | No eligible row is passed over: one that is not chosen comes after as many chosen ones as the limit allows |
| `Selection.ChosenExactly` | internal/postgres/outbox.go:28-35 | Exactly the eligible rows with fewer than the limit of eligible ones ahead are chosen |
| `Retry.RetryDelay` | internal/outbox/outbox.go:312-339 | The loop with its early exit computes the capped exponential plus the bounded jitter |
| `Retry.DelayBounds` | internal/outbox/outbox.go:312-339 | Every delay lies between one second doubled for each earlier attempt, at most five minutes, and a fifth more, capped again |
| `Retry.JitterCovers` | internal/outbox/outbox.go:326-339 | Every delay in that range is some hash's delay |
| `Retry.DelayMonotone` | internal/outbox/outbox.go:312-339 | A later attempt never waits less, whatever the hashes are |
| `SlotRuns.SlotIsUnique` | internal/postgres/run.go:73-98 | Whoever races for it, a slot that is not manual has at most one row |
| `SlotRuns.ExactlyOnce` | internal/postgres/run.go:167-301 | An executed Run has one Observation and one event, a skipped one only the event, one in flight neither, and the event says what the row says |
| `SlotRuns.OutcomeIsFinal` | internal/postgres/run.go:208-218 | A recorded outcome is never changed by anything that follows |
| `SlotRuns.LostWorkerChangesNothing` | internal/postgres/run.go:120-161 | A worker that lost its row changes nothing by renewing, releasing or completing, whatever happened in between |
| `SlotRuns.ReclaimMovesTheLease` | internal/postgres/run.go:73-98 | A claim that meets an expired lease takes it from its holder and keeps the identity of the row |
| `SlotRuns.EveryRowRestores` | internal/run/run.go:275-344 | Every stored Run is read back, and the error for a completed Run without an Observation is unreachable |
| `SlotRuns.LinkedMeansConfirmed` | internal/postgres/run.go:229-249 | A candidate is linked to a Run exactly when that Run was executed to confirm it |
| `SlotRuns.FinishKeepsInv` | internal/postgres/run.go:167-249 | Completing keeps the invariant and never finds the candidate linked to another Run |
| `SlotRuns.LeaseCoversCeiling` | internal/run/run.go:367-376 | The lease is as long as the ceiling exactly up to 15 minutes, and has its whole margin exactly up to 14 and a half |
| `SlotEffects.ClaimMeans` | internal/postgres/run.go:53-118 | Exactly which claims succeed: on a free slot with a new row, on one whose lease ran out without an outcome by taking its row over, and any other changes nothing |
| `SlotEffects.FinishMeans` | internal/postgres/run.go:167-249 | Exactly which results count, those of the row's holder, and the outcome, instants, Observation, event and link they write together |
| `SlotEffects.RenewMeans` | internal/postgres/run.go:120-136 | Exactly the holder's extensions renew a lease |
| `SlotEffects.ReleaseMeans` | internal/postgres/run.go:142-158 | Exactly the holder's release removes the row and frees the slot |
| `SlotEffects.SkipMeans` | internal/postgres/run.go:254-301 | Exactly the well-formed scheduled slots without a row are recorded as skipped |
| `SlotEffects.ReadBackMeans` | internal/run/run.go:275-344 | Exactly which rows are read back: leased and not begun, skipped, or executed in order, each with its identity and a cause exactly to confirm |
| `SlotTiming.NoOverlap` | internal/run/scheduler.go:349-388 | No two workers execute one slot at overlapping times if the start delay and the ceiling fit in the lease |
| `SlotTiming.MarginIsEnough` | internal/run/scheduler.go:427-453 | Starting within the margin is enough for every ceiling up to the cap less the margin |
| `SlotTiming.OverlapIsPossible` | internal/run/scheduler.go:349-388 | Outside that bound, for every ceiling and delay, there is a run in which two executions overlap |
| `SlotStore.RunStore.ClaimSlot` | internal/postgres/run.go:53-98 | The statement inserts, reclaims or refuses exactly as specified, manual Runs included |
| `SlotStore.RunStore.RenewLease` | internal/postgres/run.go:120-136 | Renews exactly under the lease |
| `SlotStore.RunStore.ReleaseSlot` | internal/postgres/run.go:142-158 | Deletes the row and frees the slot exactly under the lease |
| `SlotStore.RunStore.Complete` | internal/postgres/run.go:167-249 | Records outcome, Observation, event and link together, or refuses and changes nothing |
| `SlotStore.RunStore.RecordSkipped` | internal/postgres/run.go:254-301 | Records a skipped slot with its event unless the slot has a row |
| `SlotStore.RunSlot` | internal/run/scheduler.go:349-425 | Whatever others do while it executes, the worker records its own outcome, Observation and event, or nothing at all, and keeps the invariant |
| `SlotStore.Execute` | internal/run/confirmation.go:85-181 | The worker leaves behind its own recorded result or nothing, and gives back every execution slot it takes. Success means that the target is no longer eligible or the slot's Run has recorded an outcome; the candidate is confirmed by it exactly if no unfinished Run of something else occupied that slot |
| `SlotStore.ClaimAndExecute` | internal/run/confirmation.go:97-181 | A worker whose claim is refused changes nothing; one that claimed ends its claim with its own result or nothing recorded. On success the candidate is confirmed exactly if the claim did not take over a Run of something else |
| `SlotStore.TakeoverLeavesCandidate` | internal/run/confirmation.go:97-181 | A reachable state in which the confirmation worker takes over an abandoned scheduled Run in the slot it asks for, records it and succeeds, and the candidate stays without a confirmation |
| `SlotRuns.NextKeepsInv` | internal/postgres/run.go:53-301 | Every transaction on Runs keeps the invariant that ties rows, slots, claims, Observations, events and candidate links together |
| `Schedule.FloorDiv` | internal/run/schedule.go:128-134 | Truncated division with one correction is the floor, and no other number is, for every sign of the operands |
| `Schedule.SlotIsCurrent` | internal/run/schedule.go:92-100 | The slot is the one point of the series with slot <= now < slot + interval, also before the epoch |
| `Schedule.SlotIsMonotone` | internal/run/schedule.go:92-100 | Later instants never have earlier slots, and a point of the series is its own slot |
| `Schedule.SlotFor` | internal/run/schedule.go:92-100 | The computation on whole seconds returns that slot, exactly for intervals of whole seconds |
| `Schedule.MissedAreNewest` | internal/run/schedule.go:108-124 | The missed slots are exactly the newest points strictly between the bounds, up to the limit |
| `Schedule.MissedAreSpaced` | internal/run/schedule.go:108-124 | Missed slots descend by one interval each |
| `Schedule.MissedSlots` | internal/run/schedule.go:108-124 | The loop returns exactly the specified missed slots, and fails exactly on an unusable interval |
| `Coverage.CoverageIsSound` | internal/run/scheduler.go:268-304 | Over any ticks no slot is attempted or handed over twice, attempts move forward, and only owed points are covered |
| `Coverage.CoverageIsComplete` | internal/run/scheduler.go:268-346 | Every owed point is attempted or handed over exactly when every gap fits the backfill bound |
| `Coverage.OversizedGapsMiss` | internal/run/scheduler.go:334-338 | If some gap exceeds the backfill bound, an owed point is left out for good, so an existing slot does not imply the older ones |
| `Scheduler.PlanIsTick` | internal/run/scheduler.go:268-285 | Planning one Monitor is one tick of the coverage theory: it attempts the planned slot and hands over exactly the slots that the backfill walks |
| `Scheduler.TickReachesAll` | internal/run/scheduler.go:206-256 | A tick that is not stopped takes every schedulable Monitor to its current slot |
| `Scheduler.Scheduler.MakePlan` | internal/run/scheduler.go:268-285 | The plan is the current slot unless it was attempted |
| `Scheduler.Scheduler.Tick` | internal/run/scheduler.go:206-256 | Attempts are marked as specified, and the counters are the numbers of Monitors claimed, held and failed, which with the quiet ones make up all of them unless a shutdown ends the tick |
| `Scheduler.Scheduler.RecordMissed` | internal/run/scheduler.go:291-346 | The recorded slots are the newest missed ones, up to the first that already existed or at which a shutdown or a failing store ends the walk; each gets a skipped Run and its event, and nothing else changes |
| `Schedule.SlotOffset` | internal/run/schedule.go:75-86 | Whatever the digest, the offset lies within the interval and on a whole second |
| `Schedule.OffsetsSpread` | internal/run/schedule.go:75-86 | Every whole second within the interval is the offset of some digest |
| `Schedule.EffectiveInterval` | internal/run/schedule.go:62-67 | The configured interval, unless the operator's floor is higher |
| `MaintenanceRuns.SettledIsFinal` | internal/maintenance/maintenance.go:130-154 | Once no operation in flight read the clock at or before an instant, nothing that follows changes which windows apply at it |
| `MaintenanceRuns.MatchIsFinal` | internal/postgres/webhook_routing.go:28-50 | Once an instant is settled, the window that the routing query finds for it never changes |
| `MaintenanceRuns.ExclusiveMeansOne` | internal/postgres/maintenance.go:52-69 | At most one window applies at any instant exactly if no two windows, cut at their cancellations, meet |
| `MaintenanceRuns.AtMostOneApplies` | internal/postgres/maintenance.go:52-69 | If operations on a Monitor happen one at a time, at most one window, cancelled or not, applies at any instant |
| `MaintenanceRuns.CreateKeepsExclusive` | internal/postgres/maintenance.go:52-69 | Exactly when creating keeps at most one window applying at any instant: no cancelled window of the Monitor, cut at its cancellation, meets the new one |
| `MaintenanceRuns.RacingWindowsOverlap` | internal/maintenance/service.go:80-124 | From the empty tables: a creation that read the clock before a cancellation and committed after it leaves two windows that apply at once |
| `MaintenanceRuns.EveryRowRestores` | internal/maintenance/maintenance.go:75-107 | Every stored window is read back |
| `Maintenance.RoutingAgrees` | internal/postgres/webhook_routing.go:28-50 | On every valid row the routing condition agrees with the domain |
| `Maintenance.CreationMeans` | internal/postgres/maintenance.go:52-69 | Exactly when a window is refused: its Monitor is unknown, or an uncancelled window of the Monitor and the new one both apply at some instant |
| `Maintenance.CancellationMeans` | internal/postgres/maintenance.go:150-175 | Exactly when a cancellation is written, and that it changes only the cancellation of that row |
| `Maintenance.FindMatch` | internal/postgres/webhook_routing.go:28-50 | The routing query finds a window that matches exactly if there is one, and of those the first by start and then by identifier |
| `Maintenance.CancelKeepsThePast` | internal/maintenance/maintenance.go:141-154 | Cancelling keeps a window valid, leaves earlier instants alone and ends it at that instant |
| `Maintenance.ActiveMeansApplies` | internal/maintenance/maintenance.go:116-128 | A window is active exactly at the instants it applies at, unless cancelled |
| `MaintenanceService.Create` | internal/maintenance/service.go:80-124 | Lists exactly the rules a command breaks, stores the window, or refuses it exactly for an unknown Monitor or an instant that an uncancelled window already applies at |
| `MaintenanceService.CancelById` | internal/maintenance/service.go:142-177 | Whatever others commit in between, it cancels at the clock it read unless they did, succeeds only on a cancelled window, refuses exactly what is unknown or over, fails exactly if its clock is behind the window's creation, and never reports a concurrent update |
| `MaintenanceService.WindowStore.CreateWindow` | internal/postgres/maintenance.go:29-83 | Inserts unless the Monitor is missing or an uncancelled window overlaps |
| `MaintenanceService.WindowStore.CancelWindow` | internal/postgres/maintenance.go:150-175 | Updates exactly the row version that was read |
| `WebhookRuns.UnfinishedDeliveriesCanBeSigned` | internal/postgres/webhook_rotation.go:170-246 | In every reachable state no unfinished delivery needs a secret whose material was erased |
| `WebhookRuns.RotationHasOneShape` | internal/webhook/integration.go:260-294 | The exact shape of every rotation: one active secret, the Integration's; pending is the next and retiring the previous version, never both; all else is retired; so every stored Integration is read back |
| `WebhookRuns.VersionPinsState` | internal/postgres/webhook_rotation.go:28-246 | While its version is unchanged an Integration and its secrets are exactly what was read |
| `WebhookRuns.AttemptsAreNumbered` | internal/postgres/webhook_delivery.go:141-184 | Attempts are numbered 1 to the count, at most five; only the last may run, and only under a lease; only the last may succeed, and then the delivery is complete; a suppressed delivery has none |
| `WebhookRuns.ExhaustedDeliveriesEnd` | internal/postgres/webhook_delivery.go:46-61 | An unfinished delivery with five attempts is leased, and a claim after that lease completes it |
| `WebhookRuns.CompletionIsFinal` | internal/postgres/webhook_delivery.go:191-267 | A completed delivery never changes, and the record of a finished attempt is never rewritten |
| `WebhookRuns.LateReportsAreDiscarded` | internal/postgres/webhook_delivery.go:211-241 | Once an attempt was written off or recorded, whatever its worker reports later changes nothing |
| `WebhookRuns.TakeoverWritesOff` | internal/postgres/webhook_delivery.go:31-45 | A claim writes off the attempt of every expired lease |
| `WebhookEffects.ClaimTakesExactly` | internal/postgres/webhook_delivery.go:31-141 | Exactly which deliveries a claim takes, those of crashed workers included: each gets the lease and its next attempt in progress; no other gains an attempt, and those with five used up end |
| `WebhookEffects.AbandonedMeans` | internal/postgres/webhook_delivery.go:31-45 | The running attempt of an expired lease fails with an unknown outcome |
| `WebhookEffects.ReportMeans` | internal/postgres/webhook_delivery.go:191-267 | Exactly which reports count, and what they come to: acceptance, a failure that will not pass and the fifth attempt finish the delivery, any other failure releases it to be tried again |
| `WebhookEffects.EnableMeans` | internal/postgres/webhook_state.go:14-88 | Exactly when enabling or disabling changes an Integration, and what: at most five are enabled |
| `WebhookEffects.PrepareMeans` | internal/postgres/webhook_rotation.go:28-93 | Exactly when preparing adds the next secret as pending: none is pending and none retiring |
| `WebhookEffects.ActivateMeans` | internal/postgres/webhook_rotation.go:95-168 | Exactly when activating promotes the pending secret and demotes the active one |
| `WebhookEffects.RetireMeans` | internal/postgres/webhook_rotation.go:170-246 | Exactly when retiring erases the previous secret: it is retiring, and every delivery pinned to it is complete |
| `WebhookEffects.ReadBackMeans` | internal/webhook/integration.go:260-294 | Exactly which Integrations are read back |
| `WebhookEffects.CreateMeans` | internal/webhook/integration.go:183-234 | A new Integration is disabled and has one active secret |
| `WebhookRuns.RoutingCoversEnabled` | internal/postgres/webhook_routing.go:58-99 | Routing gives every enabled Integration exactly one delivery and no other Integration any, pinned to its version and active secret, complete at once exactly if a window of the tables applies to the Monitor when the fact occurred |
| `WebhookRuns.OneDeliveryEach` | internal/postgres/webhook_routing.go:82-97 | In every run an Alert has at most one delivery for each Integration |
| `WebhookRuns.EnabledStaysLimited` | internal/postgres/webhook_routing.go:58-80 | At most five Integrations are enabled, so routing never finds the limit violated |
| `WebhookDelivery.NextKeepsInv` | internal/postgres/webhook_delivery.go:14-267 | Every step of rotation, routing and delivery keeps the invariant of all three |
| `WebhookInv.PrepareKeepsInv` | internal/postgres/webhook_rotation.go:28-93 | Adding a pending secret keeps the invariant |
| `WebhookInv.ActivateKeepsInv` | internal/postgres/webhook_rotation.go:95-168 | Promoting the pending secret and demoting the active one keeps the invariant |
| `WebhookInv.RetireKeepsInv` | internal/postgres/webhook_rotation.go:170-246 | Erasing a secret keeps the invariant, because nothing unfinished needs that version |
| `WebhookStore.Store.PrepareSecret` | internal/postgres/webhook_rotation.go:28-93 | Preparing a rotation ends exactly in the specified tables, or refuses and changes nothing |
| `WebhookStore.Store.ActivateSecret` | internal/postgres/webhook_rotation.go:95-168 | Activating a secret ends exactly in the specified tables, or refuses and changes nothing |
| `WebhookStore.Store.RetireSecret` | internal/postgres/webhook_rotation.go:170-246 | Retiring a secret ends exactly in the specified tables, or refuses and changes nothing |
| `WebhookStore.Store.SetEnabled` | internal/postgres/webhook_state.go:14-88 | Enabling or disabling ends exactly in the specified table, and refuses beyond the limit |
| `WebhookStore.Store.Route` | internal/postgres/webhook_routing.go:58-99 | The window's query and the loop of inserts end exactly in the specified deliveries, or refuse beyond the limit |
| `WebhookStore.Store.ClaimDeliveries` | internal/postgres/webhook_delivery.go:14-189 | Two updates and a loop over candidates write off, complete and lease exactly as specified |
| `WebhookStore.Store.Complete` | internal/postgres/webhook_delivery.go:191-267 | Records the attempt and releases the delivery exactly under the lease |
| `WebhookDelivery.ClassifiedOutcome` | internal/webhook/delivery.go:156-231 | A success is never retried, a cancellation always may be, and exactly a success carries no failure code |
| `WebhookService.Handle` | internal/webhook/delivery_dispatcher.go:164-210 | What the worker reports is what the delivery and its attempt show afterwards; a lost lease changes nothing |
| `WebhookService.Tick` | internal/webhook/delivery_dispatcher.go:116-162 | Every claimed delivery ends as its own response decides, or is lost if its worker was too late, and no other one is touched; the counters are the numbers with each end and add up to the claimed ones |
| `WebhookService.PrepareRotation` | internal/webhook/rotation.go:40-92 | Whatever others do between reading and storing, it prepares exactly when the version still matches and no rotation is in progress, and never finds its own snapshot inconsistent |
| `WebhookService.ActivateRotation` | internal/webhook/rotation.go:94-117 | It activates exactly when a secret is pending at that version; the active secret is always found |
| `WebhookService.RetireRotation` | internal/webhook/rotation.go:119-144 | It erases exactly when a secret is retiring at that version and every delivery pinned to it is complete |
| `Retention.MonthOfIsUnique` | internal/run/retention.go:20-34 | An instant belongs to exactly one month: ranges neither overlap nor leave gaps |
| `Retention.MonthsAreGregorian` | internal/run/retention.go:20-34 | Every month starts where the Gregorian calendar, with its leap years, has it start |
| `Retention.PartitionPlan` | internal/run/retention.go:111-125 | The plan is the current month and the following ones, contiguous, up to the lookahead |
| `Retention.PlanCovers` | internal/run/retention.go:111-125 | The planned months cover every instant from now to the end of the lookahead |
| `Retention.ExpiredMeansAllBefore` | internal/run/retention.go:96-107 | A month has expired exactly when every instant in it is more than the window's whole days ago |
| `Retention.PlannedNeverExpires` | internal/run/retention.go:105-125 | No month planned at the same or a later instant has expired |
| `Retention.SuffixReadsBack` | internal/run/retention.go:37-57 | A month is read back from its suffix exactly in the years 1 to 9999 |
| `Retention.ParsedFormatsBack` | internal/run/retention.go:43-57 | A suffix is written back as it was read exactly if neither part carries a plus sign |
| `Partitions.PlannedPartitionIsKept` | internal/postgres/partitions.go:90-136 | Expiry keeps the partition of every month planned now or later |
| `Partitions.DroppedMonthIsPast` | internal/postgres/partitions.go:90-136 | Expiry drops a partition only if every instant in its month is more than the window's whole days ago |
| `PartitionRuns.CleanupDropsExactly` | internal/postgres/partitions.go:90-136 | In every run a clean-up drops a recognised partition exactly if every instant in its month is more than the window's whole days ago |
| `PartitionRuns.CleanupSparesForeign` | internal/postgres/partitions.go:85-136 | In every run, exactly when a clean-up drops only what maintenance created: no partition that operators attached has a name read as a month of its table that has expired |
| `PartitionRuns.AttachedIsSafe` | internal/postgres/partitions.go:187-200 | Exactly when a partition survives all maintenance to come: its name is not read as a month of its table at all |
| `PartitionRuns.AttachedPartitionIsDropped` | internal/postgres/partitions.go:85-136 | Operators' partitions named runs_+123_01, which maintenance never writes, and runs_0123_01, which it would write for that month, are dropped although maintenance created neither |
| `Partitions.PartitionStore.EnsurePartitions` | internal/postgres/partitions.go:31-83 | The loops end exactly in the specified catalogue: every planned partition of both tables is present, a table's list only grows by planned partitions that were missing, and exactly those are reported |
| `Partitions.PartitionStore.DropExpiredPartitions` | internal/postgres/partitions.go:90-136 | The loops end exactly in the specified catalogue: the recognised and expired partitions of either table go, and exactly they are reported |

## Left out

- Organizations: every table is that of one tenant, so scope columns, tenant checks and the error for
  a mismatched organization of an event are not modelled.
- SQL, isolation levels and deadlocks: a transaction is one atomic step. The processed marker that the
  health transaction reads before it locks the row is read in the same step, so nothing is claimed about
  finer interleavings of one duplicated event.
- Row order and `SKIP LOCKED`: a claim sees an arbitrary list of unlocked rows, in an arbitrary order.
- Goroutines inside one tick of a dispatcher run one after the other, in arbitrary order.
- Scheduler.Scheduler.Tick: is given what each execution and each backfill came to; those are
  `SlotStore.RunSlot` and `Scheduler.Scheduler.RecordMissed`, proved separately.
- Coverage.CoverageIsComplete: assumes one scheduler with a fixed interval and no store errors.
- Integer widths: durations, versions and month numbers are unbounded, so 64-bit overflow is not modelled.
- Database rounding to microseconds appears in `Staleness` only; elsewhere instants are stored as given.
- Zone and zero-value checks of instants: every instant is a UTC instant, and an absent one is `None`.
- Outbox.NothingIsLost: leaves out the clean-up that deletes processed markers after 30 days.
- Confirmation events in the pipeline: their handler's answer is arbitrary; the worker behind it is
  `SlotStore.Execute`.
- WebhookStore.Store.Complete: writes the one audit event that its callers pass as part of the attempt,
  and takes no list of further ones.
- Joins in the delivery claim: foreign keys make them match, so a claimed delivery always has its rows.
- PipelineProjection.NotifyServes: is about the pipeline's own tables; the deliveries of the same
  transaction are `AlertRouting.NextKeepsInv` and `AlertRouting.ProjectIncidentTransition`.
- Collation: identifiers are ordered character by character, as the routing query orders them in the
  canonical text form.
- Dropping or renaming relations by hand: operators attach and detach partitions only.
- Partitions.PlannedPartitionIsKept: covers the years that a four-digit suffix can name; retention starts
  at the epoch, so earlier instants are outside `EnsurePartitions`.
- Runs that retention drops stay in the model's Run table; exactly-once results hold until then.
- Cryptography, random identifiers, the digest behind slot offsets and jitter: fresh, uninterpreted or
  arbitrary values.
- The code of an unreachable webhook is one code; which of the outbound codes it is, is not modelled.
- Probing, name resolution, TLS and webhook calls: arbitrary results.
- Integration names, destination addresses and the keyring's start-up re-wrapping: no bearing on rotation.
- Waiting for a free execution slot: whether the wait ends or is stopped is an input.
- Manual Runs: their insertion is a branch of `SlotStore.RunStore.ClaimSlot`; the runner behind it would
  add an easier copy of the confirmation worker.
- The staleness worker's loop over listed Monitors: each Monitor's own transaction is modelled.
- HTTP API, sessions, rate limits, user interface, translations, environment, migrations, status pages,
  inventory and overview queries, cursor encoding, JSON and check configuration: easy or library-bound.
