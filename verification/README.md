# CedeGrid: a Dafny model of its durable protocols

CedeGrid schedules batch work onto spare node capacity. Its safety rests on state kept in SQLite tables and
plain files, changed in short transactions by a coordinator and by node agents that can die at any moment.
This project models those state machines and proves what every run of them keeps. Tables are maps, a
transaction is one function or one method, and crashes, lost replies, arbitrary node reports and restores are
ordinary steps. Identifiers are natural numbers; digests, UUIDs, clocks and file-system outcomes are parameters.

## Layout

| file | models |
|---|---|
| `Foundations.dfy` | optional values, sums over tables, ordered listings, resource vectors |
| `CoordinatorCore.dfy` | tasks, attempts, reservations and fences, and every write to them |
| `CoordinatorTables.dfy`, `CoordinatorRules.dfy` | the other coordinator tables; each handler as a transaction |
| `CoordinatorSchedule.dfy` | placement and preemption |
| `CoordinatorSafety.dfy`, `CoordinatorRuns.dfy`, `CoordinatorHistory.dfy`, `CoordinatorCatalogue.dfy` | what handlers, calls and whole histories keep |
| `CoordinatorExpiry.dfy`, `CoordinatorReports.dfy`, `CoordinatorOrder.dfy`, `CoordinatorGuards.dfy`, `CoordinatorRetries.dfy`, `CoordinatorEffects.dfy` | what expiry, a report, a scheduling pass, each guard, a failure and each operation mean, in terms of the rows they meet |
| `CoordinatorRevival.dfy` | one unreleased reservation per task: exactly when it holds |
| `CoordinatorWitness.dfy`, `CoordinatorOverfull.dfy` | short histories from the empty database that show what is not promised |
| `Coordinator.dfy` | the coordinator object and its loops, proved equal to the handlers |
| `LeaseChannel.dfy` | the agent's prepare/renew loop against the coordinator |
| `Publications.dfy`, `SpoolLedger.dfy` | the local publication store, the spool ledger and garbage collection |
| `Namespaces.dfy` | the three-lock namespace protocol |
| `Policy.dfy`, `PolicyEngine.dfy`, `Kernel.dfy` | the yielding policy and the CPU estimator that feeds it |
| `PolicyBudgets.dfy`, `PolicyProtection.dfy` | what a decision's budgets, caps, clocks, permissions and headroom mean |
| `Journal.dfy`, `ExecutionJournal.dfy`, `JournalEvidence.dfy` | the node-local journal and its mediated children, and what stands behind every phase |
| `Artifacts.dfy` | resumable immutable uploads |
| `Pagination.dfy` | bounded pages over live data |
| `GpuCounter.dfy` | the jump-ahead reference arithmetic of the GPU worker |

## Main results

* **Leases.** In every history of calls, crashes between any two commits, restarts, backups and restores, each
  task has at most one live (unreleased, unfenced) reservation, it is the current attempt, and every lease went to
  such a reservation. An attempt that stops being live never becomes live again, even across a restore, and leases
  of two attempts of one task never interleave. Between restores a second attempt is opened only once the node's row
  for the first reads released: no timeout, fence or crash alone hands a task over. No task exceeds its attempt budget.
* **Fences are not permanent across a restore.** `RestoreCanDropFence` is a history from the empty database in which a
  leased attempt is fenced and a restore loses the fence; `FencesOutliveRestore` says exactly when it does not. What
  does survive every restore is `GoneForever`. Between restores fences are permanent (`ForwardBetweenRestores`).
* **One unreleased reservation per task is not an invariant**: a heartbeat can bring a released row back beside a new
  one (`TwoHeld` is such a history). `HeldOnceThroughout` says exactly when it does hold: over any history, restores
  included, every state has at most one unreleased reservation per task if and only if no committed report revives a
  row whose task has another row that stays held, which can be read off the report and the tables it meets. No request
  but a node's own report ever releases a row or brings one back. A revived row is uncertain and fenced
  (`RevivedIsFenced`), so the lease results are stated on live reservations.
* **Preemption can free too few workers of an over-full pool.** Lowering a pool's maximum below its running count is
  allowed, and the selection loop then stops at the first victim of the pool; `OverfullAsksTooFew` is such a history.
  `SlotExactly` says when the answer leaves the blocked task a slot: exactly if the pool is not over its maximum, or
  the request does not fit yet after the last victim that leaves the pool at its maximum.
* **Accepted work.** Results and checkpoints come from leased, current attempts with artifacts of that very attempt.
  Between restores completed tasks and their payloads are frozen and checkpoints never go back. A restore returns to
  its snapshot: `RestoreCanLoseResult` is a history that loses a completion, `WorkOutlivesRestore` says that accepted
  work survives exactly when the snapshot already holds it, and `RestoreReturnsToBackup` that after a backup the
  completions that survive restoring it are exactly those made before it was taken.
* **Crash consistency.** The publication store, the spool ledger and the artifact store keep their promises with a
  crash between any two file or database steps.
* **Time.** Every lease is good exactly until its row's deadline or one lease period, whichever is earlier, so its holder
  stops before the coordinator may give the row up (`HolderStopsFirst`); moving the clock gives up exactly the
  opportunistic attempts that ran out (`ClockExact`).
* **Order.** A pass goes through the queue by priority and submission (`RunQueueOrder`), serves equal requests in that
  order (`EarlierFirst`: only a task that still holds an unreleased reservation is overtaken), and leaves no task
  behind that would still fit (`NothingLeftUndone`); preemption takes the least urgent and latest first.
* **Reports.** After a committed report every row, fence, drain mark and unrecognized allocation is exactly what the report
  said or left out, and the node is charged for exactly that (`ReportExact`, `ReportCharge`).
* **Guards.** Leases, completions, checkpoints and local reservations are granted exactly under conditions on the rows
  (`GrantExact`, `CompletionExact`, `CheckpointExact`, `ReserveExact`).
* **Yielding.** Each budget is the largest amount that fits beside the reserve and what other users hold (`BudgetExact`);
  caps, clocks, permissions and headroom follow from what each device and the host showed (`ProtectionExact`), and
  expansion waits for a whole cooldown of safe evaluations (`ExpandedAfterCooldown`).
* **Accounting.** Scheduling passes, preemption, local reservations, victim selection and protection caps are exact in
  every resource dimension.

Two refusals in the code can never be taken: the stale-head refusals of `commit` and `reconcile` (`NeverStale`), and
the final check of `activate` (`ActivationNeverFails`). `mark_uncertain` cannot fail inside expiry (`DueIsCurrent`).

## Model

| member | source | states |
|---|---|---|
| CoordinatorCore.OneLivePerTask | src/coordinator.rs:1279-1300 | two live reservations of one task are the same one, the task's current attempt at its current generation |
| CoordinatorCore.MergeRowRoutine | src/coordinator.rs:951-1038 | whatever phase a node reports, the merged row keeps authority: nothing becomes live again, completed or leased (what the row then says is `CoordinatorReports.ReportExact`) |
| CoordinatorCore.RevivedIsFenced | src/coordinator.rs:986-1037 | after one reported phase a released row is unreleased again exactly when the report is newer, uncertain, or running without a lease; it is then uncertain, fenced and not live |
| CoordinatorCore.FenceMissingRoutine | src/coordinator.rs:1039-1050 | fencing the allocations a report left out keeps authority |
| CoordinatorCore.MarkUncertainRoutine | src/state.rs:989-1011 | losing certainty requeues or parks an assigned task at its own generation and changes nothing else |
| CoordinatorCore.ReplaceSessionRoutine | src/coordinator.rs:704-717 | replacing a replay session fences the node's whole retained inventory and keeps authority |
| CoordinatorCore.RestartRoutine | src/coordinator.rs:115-126 | reopening makes unreleased rows uncertain without fencing them, and keeps authority |
| CoordinatorCore.RestoreRoutine | src/backup.rs:413-431 | after a restore no reservation of the snapshot is live |
| CoordinatorCore.OfferKeeps | src/coordinator.rs:1280-1300 | opening an attempt for a task that holds nothing keeps authority and moves only forward |
| CoordinatorCore.CompleteKeeps | src/coordinator.rs:1779-1797 | accepting a result keeps authority and freezes the task |
| CoordinatorSchedule.PreemptAllOrNothing | src/coordinator.rs:1307-1388 | a nonempty preemption is a list of strictly lower-priority, replay-safe, opportunistic victims whose removal makes the request fit, no shorter start of which would stop the loop, leaving every victim pool its minimum, and leaving a slot in a pool that is not over its maximum |
| CoordinatorSchedule.SlotExactly | src/coordinator.rs:1345-1375 | the answer leaves the blocked task's pool a slot if and only if the pool is not over its maximum or the request does not fit yet once everything up to that slot is taken |
| CoordinatorSchedule.PreemptGivesUp | src/coordinator.rs:1316-1388 | nobody is asked only if the empty node could not run the request, or taking everybody the loop may take would not help |
| CoordinatorSchedule.AskedVictims | src/coordinator.rs:1284-1292 | both, for the preemptions a scheduling pass actually issues, against the charge of that moment |
| CoordinatorSchedule.NodeChargeExact | src/coordinator.rs:1184-1204 | the node charge is the sum of max(reservation, observation) over unreleased rows, in every dimension |
| CoordinatorSchedule.ConsiderKeeps | src/coordinator.rs:1235-1303 | one iteration of the scheduling loop keeps the charge exact, the slots paid for and the pools within bounds |
| CoordinatorSchedule.ScheduleFits | src/coordinator.rs:1205-1306 | after a pass, the whole node charge fits the reported budget in every scope an offer names, offers fit the free slots, and pools that received one are within their maximum (who is offered is `CoordinatorOrder.EarlierFirst` and `NothingLeftUndone`) |
| CoordinatorOrder.QueueOrder | src/coordinator.rs:1223 | of two waiting tasks one stands before the other if and only if its priority is higher, or equal with an earlier submission |
| CoordinatorOrder.RunQueueOrder | src/coordinator.rs:1223 | the same in every reachable state, where submission numbers are distinct |
| CoordinatorOrder.VictimOrder | src/coordinator.rs:1330 | candidates for preemption stand the other way round: lowest priority first, latest submission first |
| CoordinatorOrder.RunVictimOrder | src/coordinator.rs:1330 | the same in every reachable state |
| CoordinatorOrder.JudgedFairly | src/coordinator.rs:1235-1303 | at its turn a task is placed if and only if it is placeable and neither slots, pool nor budget block it |
| CoordinatorOrder.EarlierFirst | src/coordinator.rs:1223-1303 | in a whole pass, of two waiting tasks with the same request and pool, whenever the later one is offered the earlier eligible, unexhausted one is offered if and only if it holds no unreleased reservation |
| CoordinatorOrder.NothingLeftUndone | src/coordinator.rs:1205-1306 | a waiting task that only capacity could stop is offered, or does not fit beside what the pass leaves behind |
| CoordinatorGuards.QueueExact | src/coordinator.rs:1223 | a task is in the queue if and only if it is queued, its job is not cancelled and it is not held |
| CoordinatorGuards.PlaceableExact | src/coordinator.rs:1236-1283 | what placing takes besides capacity, on the task's, pool's and node's own rows |
| CoordinatorGuards.OfferedSuits | src/coordinator.rs:1205-1306 | whoever is offered met all of it, on a node neither drained nor settling |
| CoordinatorGuards.CandidatesExact | src/coordinator.rs:1330 | the candidates are exactly the node's certain unreleased rows of lower priority, replay-safe and opportunistic |
| CoordinatorGuards.DrainExact | src/coordinator.rs:1549-1572 | a worker is told to stop exactly for a cancelled job, a drained node, a request, its own drain, a pool that left its node, or enough earlier workers in its pool |
| CoordinatorGuards.OldestKept | src/coordinator.rs:1570-1571 | the rank rule keeps exactly as many workers of a pool as its maximum allows, the earliest submissions |
| CoordinatorGuards.GrantExact | src/coordinator.rs:1573-1636 | a lease is granted if and only if the attempt is current and certain, its node settled, its first lease backed by evidence, and its number in step and in time |
| CoordinatorGuards.OnlyOwner | src/coordinator.rs:1521-1531 | a node is answered only for its own attempts at their own generation and for its own report |
| CoordinatorGuards.HeardThroughSession | src/coordinator.rs:604-678 | a node under a session is heard only through it, and before recovery only to report |
| CoordinatorGuards.SessionReplaced | src/coordinator.rs:679-785 | a new session retires the old one, starts untrusted and leaves nothing live on the node |
| CoordinatorGuards.ReportAdmitted | src/coordinator.rs:898-944 | a report is taken only if it is not from the future, not older than the last and complete on recovery |
| CoordinatorGuards.StartedOnEvidence | src/coordinator.rs:1081-1083 | an attempt is opened only on a recent report that allows it, observes everything live and explains everything |
| CoordinatorGuards.PreparedMeans | src/coordinator.rs:435-500 | a preparation names the process the node's boot vouches for and the request as made, and is stored once |
| CoordinatorGuards.CompletionExact | src/coordinator.rs:1682-1809 | a result is accepted if and only if its owner submits it with intact artifacts from the leased current attempt while there is none, or repeats it |
| CoordinatorGuards.CheckpointExact | src/coordinator.rs:1682-1809 | a checkpoint is accepted if and only if it comes from the leased running attempt and does not go back, or repeats the stored one |
| CoordinatorRetries.BackoffDoubles | src/coordinator.rs:1455-1466 | the first wait is the base, each further one twice the last, none above the maximum, whatever saturates |
| CoordinatorRetries.FailureExact | src/coordinator.rs:1389-1507 | who can fail, what is counted, when the task may run again and whether it may |
| CoordinatorRetries.FailsOnce | src/coordinator.rs:1389-1507 | a repeated report of a failure changes nothing |
| CoordinatorEffects.SubmitExact | src/coordinator.rs:786-883 | a new job is taken if and only if it is well formed, and its tasks are then queued, unattempted and under their own numbers |
| CoordinatorEffects.ResubmitExact | src/coordinator.rs:786-883 | submitting the same job again changes nothing, another one under its name is refused |
| CoordinatorEffects.RetryExact | src/coordinator.rs:361-412 | which tasks an operator may retry, exactly, and that holds and waits are cleared |
| CoordinatorEffects.UploadExact | src/coordinator.rs:557-583 | which uploads are recorded, exactly, once per attempt and digest |
| CoordinatorEffects.ReportNode | src/coordinator.rs:946-1060 | a report replaces the node's row, keeps its drain mark, readies its session and leaves every other table alone |
| CoordinatorEffects.LateRecorded | src/coordinator.rs:1064-1080 | every late release a report brings is recorded as a failure record before anything is scheduled |
| CoordinatorEffects.StepExact | src/coordinator.rs:1259-1303 | a placed task gets a fresh offer with its deadline and next generation, an exhausted one is parked, victims are asked to drain, and nothing else changes |
| CoordinatorEffects.ExhaustedExact | src/coordinator.rs:1259-1268 | a task is exhausted exactly when it is eligible and has used its attempts |
| CoordinatorReports.ReportExact | src/coordinator.rs:946-1063 | after a committed report listed rows carry the reported observation and phase, missing ones are uncertain, fenced and unobserved, all others are unchanged, marks have their reasons, and the report counts as clean exactly if it explained everything |
| CoordinatorReports.ReportCharge | src/coordinator.rs:1184-1204 | the node charge after a report is the sum of max(reservation, reported observation) over listed unreleased rows, the reservations of missing ones and the unchanged charge of the rest |
| CoordinatorReports.PhaseExact | src/coordinator.rs:994-1023 | the phase after a report: nothing that goes forward goes back, and doubt wins over progress |
| CoordinatorExpiry.ClockExact | src/coordinator.rs:1659-1681 | moving the clock makes exactly the opportunistic rows in flight whose deadline has come uncertain and fenced and their tasks unassigned, and changes nothing else |
| CoordinatorExpiry.HolderStopsFirst | src/coordinator.rs:1654-1681 | an attempt is given up by the clock only when the time its lease was good for is over |
| CoordinatorSafety.GrantToLive | src/coordinator.rs:1573-1658 | a lease goes only to a live, current reservation at its own generation, leaves it so, and is good for exactly as long as its deadline and one lease period allow |
| CoordinatorSafety.GrantTimed | src/coordinator.rs:1612-1657 | every lease, new or repeated, ends neither after the row's deadline nor after one lease period and is the longest such; no opportunistic lease is renewed after its deadline |
| CoordinatorSafety.FirstLeaseFits | src/coordinator.rs:1597-1622 | a first lease needs fresh evidence, and the node's whole charge fits the reported budget in every scope the request names |
| CoordinatorSafety.DueIsCurrent | src/coordinator.rs:1674-1679 | expiry never meets a stale generation, so its `mark_uncertain` cannot fail |
| CoordinatorSafety.ExpireRowRoutine | src/coordinator.rs:1673-1679 | a crash between any two of the three expiry writes of a row leaves a state that keeps authority |
| CoordinatorSafety.AdvanceCutRoutine | src/coordinator.rs:1659-1681 | the same for a crash anywhere in an expiry pass over many rows |
| CoordinatorSafety.MergeReportRoutine | src/coordinator.rs:946-1063 | an arbitrary heartbeat opens, completes and leases nothing and makes nothing live again |
| CoordinatorSafety.RecordFailureRoutine | src/coordinator.rs:1389-1507 | recording a failure never touches a completed task, an attempt or a lease number |
| CoordinatorSafety.SessionRoutine | src/coordinator.rs:679-785 | opening or reopening a replay session keeps authority |
| CoordinatorSafety.RetryTaskRoutine | src/coordinator.rs:361-412 | an operator retry only requeues a task that holds nothing |
| CoordinatorSafety.SubmitProgress | src/coordinator.rs:786-883 | submission adds fresh queued tasks and disturbs no accepted work |
| CoordinatorSafety.UploadProgress | src/coordinator.rs:557-583 | committing an upload only adds a publication row of the current attempt |
| CoordinatorSafety.AcceptCases | src/coordinator.rs:1682-1809 | a receipt is the digest of the submission; anything stored comes from the leased current attempt with its own artifacts; checkpoints do not rewind |
| CoordinatorSafety.AcceptProgress | src/coordinator.rs:1682-1809 | accepting keeps every stored result and checkpoint sound and moves nothing back |
| CoordinatorSafety.ScheduleOpens | src/coordinator.rs:1205-1306 | a pass opens attempts only under drawn identifiers and only for tasks that hold nothing; it completes and leases nothing and makes nothing live again |
| CoordinatorSafety.ScheduleAlone | src/coordinator.rs:1279-1283 | a pass opens an attempt only when every other attempt of the task is released |
| CoordinatorRuns.ExecuteLeases | src/coordinator.rs:435-518 | a lease in a reply names a live, current reservation at the reply's own sequence and epoch, for exactly the time that reservation's deadline allows |
| CoordinatorRuns.HandleAdvances | src/coordinator.rs:283-603 | every call keeps soundness, moves nothing durable back, and opens attempts only under freshly drawn identifiers |
| CoordinatorRuns.CutAdvances | src/coordinator.rs:269-282 | the same for a call that dies between any two of its commits |
| CoordinatorHistory.EventHealthy | src/backup.rs:413-431 | every event, restores included, keeps the invariant for the live database and all backups |
| CoordinatorHistory.RunHealthy | src/coordinator.rs:283-603 | the invariant holds in every reachable state |
| CoordinatorHistory.OneLiveReservation | src/coordinator.rs:1279-1300 | in every reachable state a task has at most one live reservation, its current attempt |
| CoordinatorHistory.LeaseToLive | src/coordinator.rs:1573-1658 | every lease ever granted in a run went to a live, current reservation, for exactly the time its deadline allowed |
| CoordinatorHistory.GoneForever | src/coordinator.rs:951-1050 | an issued attempt that is not live never becomes live again, whatever happens, restores included |
| CoordinatorHistory.NoLeaseAfterGone | src/coordinator.rs:1573-1584 | such an attempt never receives another lease |
| CoordinatorHistory.LeasesNeverInterleave | src/coordinator.rs:1573-1658 | once another attempt of the task has been leased, the earlier attempt is never leased again |
| CoordinatorHistory.HandoverAfterRelease | src/coordinator.rs:1279-1300 | between two leases to different attempts of one task, with no restore between, the later attempt was opened when the earlier one's row read released |
| CoordinatorHistory.ForwardBetweenRestores | src/coordinator.rs:1682-1809 | between restores fences, generations, lease numbers, results, receipts, publications and checkpoints only move forward |
| CoordinatorHistory.FencesOutliveRestore | src/backup.rs:417-418 | all fences survive a restore if and only if the snapshot already fences each attempt or holds it unreleased |
| CoordinatorHistory.WorkOutlivesRestore | src/backup.rs:413-431 | completions, results, publications and checkpoints survive a restore if and only if the snapshot already holds them, checkpoints at no earlier generation and sequence |
| CoordinatorHistory.RestoreReturnsToBackup | src/backup.rs:413-431 | in any history, a task completed before a restore is still completed after it, with the same row and result, if and only if it was completed when that backup was taken |
| CoordinatorWitness.RestoreCanDropFence | src/backup.rs:417-418 | a history from the empty database in which a leased attempt is fenced and a restore loses the fence; the attempt is nevertheless gone |
| CoordinatorWitness.RestoreCanLoseResult | src/backup.rs:413-431 | a history from the empty database in which a restore loses a completed task's result and receipt |
| CoordinatorWitness.TwoHeld | src/coordinator.rs:986-1037 | a history from the empty database that ends with two unreleased reservations of one task |
| CoordinatorOverfull.OverfullAsksTooFew | src/coordinator.rs:1345-1375 | a history from the empty database in which a pool with two workers and a maximum of one is asked for one victim, which leaves no slot |
| CoordinatorRevival.ReportHeld | src/coordinator.rs:946-1063 | after a committed report each row is unreleased exactly as the row's own phase, its lease number and the reported phase decide |
| CoordinatorRevival.ReportKeepsHeldOnce | src/coordinator.rs:946-1063 | from at most one unreleased row per task, a report keeps it so if and only if it revives no row whose task has another row that stays held |
| CoordinatorRevival.ExecuteHeld | src/coordinator.rs:296-603 | no request but a heartbeat releases a row or brings a released one back |
| CoordinatorRevival.CallHeldOnce | src/coordinator.rs:283-603 | a whole call keeps one unreleased row per task if and only if it commits no such report, judged on the tables it finds |
| CoordinatorRevival.CutHeldOnce | src/coordinator.rs:269-282 | the same for a call that dies between any two of its commits |
| CoordinatorRevival.HeldOnceThroughout | src/coordinator.rs:283-603 | over any history every state has at most one unreleased row per task if and only if no committed report revives one beside another |
| CoordinatorCatalogue.ConsiderCatalogue | src/coordinator.rs:1259-1268 | an iteration never opens an attempt beyond the task's immutable attempt budget |
| CoordinatorCatalogue.RunCatalogued | src/coordinator.rs:70-86 | in every reachable state, restores included, every foreign key resolves, no task has exceeded its attempt budget and no two share a submission number |
| CoordinatorService.ChargeNode | src/coordinator.rs:1184-1204 | the accounting loop returns the exact node charge, or reports overflow |
| CoordinatorService.SelectVictims | src/coordinator.rs:1307-1388 | the greedy loop selects exactly the victims of the specification |
| CoordinatorService.ConsiderTask | src/coordinator.rs:1235-1303 | one loop iteration skips, exhausts, preempts or offers as specified |
| CoordinatorService.ConsiderQueue | src/coordinator.rs:1235-1303 | the scheduling loop over the queue |
| CoordinatorService.Expire | src/coordinator.rs:1659-1681 | the expiry loop gives up exactly the attempts that ran out |
| CoordinatorService.MergeReports | src/coordinator.rs:949-1038 | the heartbeat merge loop, rolled back at the first inconsistency |
| CoordinatorService.FenceAbsent | src/coordinator.rs:1039-1050 | the loop over allocations missing from a report |
| CoordinatorService.Coordinator.constructor | src/coordinator.rs:110-132 | opening starts a new epoch in which every unreleased row is uncertain, fences, tasks and accepted work are unchanged, begun drains are remembered, no lease is granted to anyone, and soundness is kept |
| CoordinatorService.Coordinator.AdvanceTo | src/coordinator.rs:269-282 | a clock behind the watermark is refused; otherwise each opportunistic row in flight whose deadline has come becomes uncertain and fenced, its task is no longer assigned, and nothing else changes |
| CoordinatorService.Coordinator.RunPass | src/coordinator.rs:1205-1306 | scheduling is one transaction, all of it or none; rivals are served in turn, and offers fit slots, budget and pools |
| CoordinatorService.Coordinator.Reconcile | src/coordinator.rs:894-1063 | the heartbeat transaction leaves exactly what the report said, observations included, and answers whether it explained everything |
| CoordinatorService.Coordinator.ReceiveHeartbeat | src/coordinator.rs:894-1083 | merge, late releases, then scheduling only on fresh and clean evidence |
| CoordinatorService.Coordinator.HandleAt | src/coordinator.rs:283-603 | session first, then clock, then request; a call on sound tables keeps them sound and moves nothing durable back, and a lease in its reply names a live, current reservation for the time its deadline allows |
| LeaseChannel.ReplayChangesNothing | src/coordinator.rs:1626-1657 | a grant moves sequence and deadline exactly when the request names the current number outside a drain; any replay changes neither |
| LeaseChannel.HandleMoves | src/coordinator.rs:283-603 | no call but a lease request for the attempt moves its number, and that moves it by at most one |
| LeaseChannel.CutKeepsNumber | src/coordinator.rs:269-282 | a call that dies half way moves no lease number |
| LeaseChannel.LeaseNumbersInStep | src/agent.rs:2019-2132 | under lost, duplicated and delayed requests and lost replies, the coordinator's number is the agent's or exactly one more |
| LeaseChannel.RetryCatchesUp | src/agent.rs:2088-2123 | after a lost reply, the next answered retry closes the gap without a new lease |
| Publications.PublishedMeans | src/publication.rs:366-483 | a finished commit is refused exactly while something is unresolved, the identifier is taken or a result is selected; otherwise the new record is the newest, and the head if durable |
| Publications.NeverStale | src/publication.rs:466-478 | the stale-head refusals of commit and reconcile are never taken |
| Publications.StepKeeps | src/publication.rs:484-555 | every step, and a crash between any two, keeps at most one unresolved publication, the newest; heads name committed durable records; at most one result |
| Publications.StepForward | src/publication.rs:484-555 | records keep their content, verdicts are final, only the operation standing on a record resolves it, heads move strictly forward |
| Publications.RunSound | src/publication.rs:366-555 | the invariant in every reachable state |
| Publications.OneResultEver | src/publication.rs:407-429 | at most one result is committed in the whole history of an attempt |
| Publications.CommittedForever | src/publication.rs:484-488 | a resolved record never changes again |
| Publications.HeadsAdvance | src/publication.rs:466-478 | head sequences grow strictly whenever they change |
| Publications.HeadReadable | src/publication.rs:655-682 | the selected descriptor is always present, durable and of the recorded digest |
| Publications.NativePublisher.Commit | src/publication.rs:366-483 | commit computes exactly the specified tables and files |
| Publications.NativePublisher.Reconcile | src/publication.rs:484-555 | reconciliation commits on the exact descriptor, rejects on absence, and otherwise changes nothing |
| SpoolLedger.StepSound | src/publication.rs:200-365 | every step of begin, chunk, finish, commit, reconcile, capture and collection, and every crash, keeps each stored object covered |
| SpoolLedger.LedgerCovers | src/publication.rs:200-365 | at every point of every run the charge of an object is at least its bytes on disk |
| SpoolLedger.StepTotal | src/publication.rs:611-639 | an admitted reservation ends within its quota; no other step raises the total except `account_existing`, which only moves rows upward |
| SpoolLedger.FinishTotal | src/publication.rs:352-363 | sealing moves a charge to the new name and never raises the total |
| SpoolLedger.Reserve | src/publication.rs:611-639 | a reservation is admitted if and only if the path is new and the total stays within the quota |
| SpoolLedger.ReclaimReleased | src/publication_gc.rs:170-252 | collection of uploads and of workspace input and resume files unlinks and syncs before it drops exactly those charges; the rest stays covered and the total only falls |
| Namespaces.StepKeeps | src/namespace.rs:165-340 | every lock, read and rename step of any process keeps locks compatible, guards truthful and sealed positions alone |
| Namespaces.GuardsAreConsistent | src/namespace.rs:251-296 | an exclusive guard never coexists with another guard, and every live guard names the persisted identity |
| Namespaces.AcquireOnlyWhenReady | src/namespace.rs:165-196 | an ordinary guard is returned only in phase `ready` and with the expected identity, still true when it is returned |
| Namespaces.NobodyEntersTheGap | src/namespace.rs:307-340 | while `activate` is between its two lifecycle locks nobody is inside and nobody can enter or rewrite the state |
| Namespaces.ActivationNeverFails | src/namespace.rs:323-328 | the check after the gap always succeeds |
| Namespaces.IdentityOutlivesOthers | src/namespace.rs:271-296 | no other process can change the identity behind a live guard |
| Policy.CapNeverRises | src/policy.rs:468-529 | one evaluation tightens a cap or lifts it after the cooldown, and the reported budget respects whatever cap remains |
| Policy.CapThroughout | src/policy.rs:468-529 | over any stretch of evaluations in which a cap is not lifted it never rises, and every budget reported meanwhile stays at or below it |
| Policy.UnbrokenCalm | src/policy.rs:516-527 | a running device clock is witnessed by an unbroken run of evaluations that found the device present and unblocked on a safe host |
| Policy.CapLiftedAfterCooldown | src/policy.rs:553-582 | a cap is lifted only after such a run spanning the cooldown |
| Policy.CalmHostIsSafe | src/policy.rs:371-386 | an unblocked, known and fitting host always has capacity, so it is safe |
| Policy.ExpansionImpliesCpuRam | src/policy.rs:623-668 | permission to expand implies permission to expand CPU and RAM, and the clocks stay ordered |
| Policy.ExpansionNeverOutrunsCpuRam | src/policy.rs:543-552 | the same in every reachable engine state |
| Policy.ChargedExact | src/policy.rs:223-239 | the charged total is the sum of the allocation charges, in every dimension |
| Policy.VictimsExact | src/policy.rs:587-616 | what remains is the sum over allocations neither draining nor chosen; a dimension still over budget has had every eligible allocation charging it chosen; guaranteed work is chosen only on explicit drain |
| Policy.ContributesToExcess | src/policy.rs:892-900 | true exactly when some dimension is over budget and the allocation charges it |
| Policy.ScheduledOnlyWhenCooled | src/policy.rs:157-169 | device memory is offered for scheduling only while the device is calm and past its cooldown |
| Policy.ReserveCoversAnyChoice | src/policy.rs:722-744 | the scoped physical reserve is the largest sum any choice of at most that many physical cores reaches |
| PolicyBudgets.BudgetExact | src/policy.rs:243-380 | CPU, RAM and device budgets are each the largest amount that fits beside the reserve and foreign use (within the ceiling or cap), and zero when unknown, absent or on an explicit drain |
| PolicyBudgets.HostReserveExact | src/policy.rs:306-328 | the host reserve is the share of the machine its reserved physical cores are, rounded up, at most all of it |
| PolicyBudgets.RamReserveExact | src/policy.rs:352-356 | the RAM reserve is the larger of the fixed amount and a share rounded up |
| PolicyBudgets.AccountsExact | src/policy.rs:218-239 | observed and unobserved usage are the sums over started allocations with and without an observation |
| PolicyProtection.ReadExact | src/policy.rs:425-466 | what a device is judged by: new processes, foreign growth, activity, unclear telemetry, forbidden sharing, overrun |
| PolicyProtection.NewCapExact | src/policy.rs:467-506 | a cap is set or tightened exactly on fresh evidence or first doubt, to the most left after giving up the configured share |
| PolicyProtection.ProtectionExact | src/policy.rs:381-660 | device clocks and caps, node clocks, expansion permissions and headroom of a decision, from what it was shown |
| PolicyProtection.SafeSpan | src/policy.rs:627-633 | a running CPU/RAM clock is witnessed by an unbroken run of safe evaluations |
| PolicyProtection.ExpandedAfterCooldown | src/policy.rs:627-635 | CPU and RAM expansion is permitted only after a whole cooldown of safe evaluations |
| PolicyService.TallyLoop | src/policy.rs:218-239 | the accounting loop |
| PolicyService.InspectLoop | src/policy.rs:387-530 | the first device loop |
| PolicyService.RelaxLoop | src/policy.rs:553-582 | the second device loop |
| PolicyService.ChooseLoop | src/policy.rs:610-616 | the victim loop |
| PolicyService.PolicyEngine.Evaluate | src/policy.rs:198-680 | an evaluation replaces the engine's fields and answers as specified, with the budgets, permissions and headroom the snapshot implies; a refused one changes nothing |
| KernelUsage.ReadCpu | src/kernel.rs:270-312 | the estimate of one CPU is at most 1000 |
| KernelUsage.EstimateCovers | src/kernel.rs:289-311 | with a tick rate, the estimate of one CPU is at least the busy share of any execution whose idle time is at most one tick below the counters |
| KernelUsage.EstimateLeast | src/kernel.rs:270-312 | there is an estimate exactly when no counter went back and the CPU ticked, and it is the least number of thousandths that accounts for the counters |
| KernelUsage.UsageWithinHardware | src/kernel.rs:213-336 | available usage is at most 1000 per selected CPU over a positive, fresh interval |
| KernelUsage.UsageNeverLow | src/kernel.rs:213-336 | with a tick rate, available usage is never below the true busy time of such an execution |
| KernelUsage.UsagePassesPolicy | src/policy.rs:683-717 | a snapshot carrying available usage passes every usage check of the policy |
| KernelUsage.CpuUsageTracker.Observe | src/kernel.rs:213-336 | the tracker's fields and answer are as specified |
| Journal.ChargedExact | src/execution_state.rs:309-323 | the admission sum is the request plus every unreleased reservation |
| Journal.ReserveFits | src/execution_state.rs:309-327 | an admitted reservation keeps the total within capacity in CPU, RAM and every GPU |
| Journal.ReserveKeeps | src/execution_state.rs:265-393 | reserving keeps capacity, one reservation per task and the family bounds |
| Journal.TransitionKeeps | src/execution_state.rs:483-611 | transitions keep one reservation per task and the family bounds and make no charge heavier, and a parent is released only without unreleased children |
| Journal.ReserveChildKeeps | src/managed_children.rs:50-153 | a family never exceeds its limit |
| Journal.PrepareChildKeeps | src/managed_children.rs:176-232 | preparing a child keeps every bound |
| Journal.TransitionChildKeeps | src/managed_children.rs:233-292 | a child's transition only shrinks its family |
| Journal.JournalSound | src/execution_state.rs:265-611 | all of it after any sequence of operations at a fixed capacity |
| Journal.ApplyForward | src/execution_state.rs:496-601 | reservations are never forgotten or resized, release is final, identities and recovery markers are permanent |
| Journal.MissingPreparedNeverReleased | src/execution_state.rs:555-572 | an attempt marked as recovered without preparation can never be recorded as released |
| JournalEvidence.PhasesAdvance | src/execution_state.rs:614-630 | phases only go forward, and nothing runs unauthorized or is authorized unprepared |
| JournalEvidence.JournalCertified | src/execution_state.rs:483-611 | in every reachable journal prepared and running work is a known process, authorized work has every control, attempts are within budget, and children are within their parent |
| JournalEvidence.ReserveExact | src/execution_state.rs:265-393 | a reservation is admitted if and only if its task is free, its limits allow it and everything fits with it |
| JournalService.ExecutionJournal.Reserve | src/execution_state.rs:265-393 | all or nothing; the journal stays valid, a new row is reserved, and a journal within capacity stays within it |
| JournalService.ExecutionJournal.Transition | src/execution_state.rs:483-611 | all or nothing; the journal stays valid and grows no heavier, release is final and leaves an empty family, requests are never rewritten |
| JournalService.ExecutionJournal.ReserveChild | src/managed_children.rs:50-153 | all or nothing; success means the request identifier names such a child and its family is within its limit, and no earlier child changes |
| JournalService.ExecutionJournal.PrepareChild | src/managed_children.rs:176-232 | all or nothing; success means the child carries exactly this identity and these controls, and no other child changes |
| JournalService.ExecutionJournal.TransitionChild | src/managed_children.rs:233-292 | all or nothing; families only shrink, released children and other children are left alone |
| Artifacts.AppendKeeps | src/artifacts.rs:216-248 | an accepted chunk extends the prefix or repeats it, and touches no blob |
| Artifacts.TornKeeps | src/artifacts.rs:244-247 | so does an append torn by a crash |
| Artifacts.PublishKeeps | src/artifacts.rs:250-283 | a new blob is the sender's whole byte string, of the declared size and digest |
| Artifacts.ApplyKeeps | src/artifacts.rs:145-300 | every operation and crash keeps partials prefixes and blobs unchanged |
| Artifacts.RunSound | src/artifacts.rs:145-300 | after any run every partial file is a prefix of its source |
| Artifacts.BlobsForever | src/artifacts.rs:250-300 | a published blob never changes or disappears |
| Artifacts.PublishedIsWhole | src/artifacts.rs:250-283 | once a publication succeeds the blob is the whole byte string for ever |
| Artifacts.ArtifactStore.BeginUpload | src/artifacts.rs:145-209 | the answer is the length held, within the declared size; bytes and blobs already there are unchanged |
| Artifacts.ArtifactStore.AppendChunk | src/artifacts.rs:216-248 | an acknowledged chunk lies at its offset behind the bytes held before, within the declared size, can be sent again with the same answer, and no blob and no other upload changes; a refused one changes nothing |
| Artifacts.ArtifactStore.PublishUpload | src/artifacts.rs:250-283 | success means a blob of the declared size and digest, the uploaded bytes if it is new, and every older blob keeps its bytes |
| Artifacts.SendFile | src/agent.rs:1449-1495 | the sender's loop ends with the whole file published and no older blob changed |
| Pagination.Read | src/pagination.rs:142-306 | each refusal exactly when its cause holds; otherwise the longest initial part of the matching rows that the limit and the byte budget allow, with a cursor behind its last item exactly if rows are left |
| Pagination.TriggersEvolve | src/pagination.rs:56-91 | the insert and delete triggers keep numbers unique and never reused |
| Pagination.StrictProgress | src/pagination.rs:283-303 | each page with a cursor advances strictly and stays below the high-water mark |
| Pagination.Terminates | src/pagination.rs:194-235 | a traversal is one page, or at most as many pages as its high-water mark |
| Pagination.PagesInOrder | src/pagination.rs:259-306 | pages come in sequence order |
| Pagination.NoLateRows | src/pagination.rs:220-235 | no row added after the first page is emitted |
| Pagination.NoKeyTwice | src/pagination.rs:259-306 | no key is emitted twice, even if deleted and inserted again |
| Pagination.Complete | src/pagination.rs:259-306 | a finished traversal emitted every row that stayed visible throughout |
| GpuCounter.IterateIsPower | examples/gpu_counter.c:328-330 | iterating the generator is one affine map modulo 2^32 |
| GpuCounter.Coefficients | examples/gpu_counter.c:257-261 | square-and-compose gives that map for every 32-bit round count |
| GpuCounter.ExpectedBatch | examples/gpu_counter.c:262-266 | the batch loop sums iterated values without leaving 64 bits |
| GpuCounter.ExpectedPrefix | examples/gpu_counter.c:267-269 | the prefix loop sums batches without leaving 64 bits |
| GpuCounter.ChecksumSplit | examples/gpu_counter.c:369-381 | checksums add across any checkpoint |
| GpuCounter.Resume | examples/gpu_counter.c:369-381 | resuming anywhere ends with the checksum of an uninterrupted run |

## Left out

- Transport (TLS, HTTP, retries, pacing, async plumbing): requests are steps that may be lost, delayed or repeated.
- Process supervision, signals, cgroups, NVML and libproc: absence of a process and release of a device are inputs.
- SQL text, JSON encoding, identifier syntax, file permissions, symlink and inode checks, and the final size check of a serialized page.
- SQLite's 64-bit integer range: a sequence, generation or deadline that would leave it is an error in the original and does not occur here.
- `NodeReport::validate_bounds`, the reply of a heartbeat, reads and the status endpoints: they change no table.
- CoordinatorOrder.EarlierFirst: submission numbers come from AUTOINCREMENT, so numbers SQLite would not assign are no submission.
- The input-artifact checks of `submit` and the artifact verification lane: which stored artifacts verify is an input.
- Upgrades: task holds are read and cleared as in the code, but nothing creates them.
- `import_replay_reservation`: recovery imports can exceed a fixed capacity, so the journal results exclude them.
- `parse_cpu_stat` and `parse_cpu_list`: the estimator starts from parsed counters.
- The agent's `allocation_charge`, `remaining_capacity` and wake-up arithmetic: the model starts from the report and the budget an agent sends.
- CoordinatorService.Coordinator.HandleAt: handlers without loops are applied as the transaction functions of `CoordinatorRules.dfy`; only the clock, the heartbeat and scheduling are written as loops over fields.
- The quota of the artifact store: whether a new upload has room is an input.
- Configuration validation: every configuration value is a parameter of the results.
- LeaseChannel.LeaseNumbersInStep: covers one agent slot from a fresh offer, with the agent the only sender of lease requests for its attempt, and no restore; a restore can move the coordinator's number back, and `GoneForever` then excludes any further lease.
- CoordinatorHistory.LeasesNeverInterleave: assumes, as the original does, that a drawn UUID is new.
- Publications.RunSound: one publisher per attempt at a time, as its worker thread and pin ensure; the tables, files and steps are values because a crash may fall between any two of them.
- SpoolLedger.LedgerCovers: a released attempt has no publisher any more, which is what collection verifies through release, receipt and pins; tables, names and lengths are values because a crash may fall between any two steps.
- Namespaces.StepKeeps: positions and the persisted state are values; each action is one lock, read or rename of one process, so waiting, time-outs and the history files of `record_intent` are not visible.
- Artifacts.PublishedIsWhole: assumes that uploads declared under one digest have one source, since nothing is assumed about the digest.
