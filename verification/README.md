# Verified model of Atlas's durable protocols

Atlas coordinates paid audits, chat-driven audit slices and concurrent dispatches through documents
that several processes read and write. This project models the parts of it whose correctness
depends on interleavings, crashes and bindings between documents, and proves what they keep.

Each protocol is a step system: shared documents, any number of callers whose program counter names
the next store access (or external call), and a run that is any sequence of starts, steps, crashes
and environment actions. `Exec` gives the state after a sequence of events, so a theorem over all
event sequences covers every interleaving, every crash point and every clock reading. Beside the step
systems stand the classes and methods in the form the program has (stores, controllers, ports, data
roots). Their methods do the real work on real fields and are tied, access by access, to a run of the
step system (`Valid()` says that the fields are those of a run); other callers may act between any
two accesses. What is proved of all runs therefore holds of the objects.
The main operations of each object also say what one call does and answers, refusals included, when
nobody else uses its stores (`shared` is false), in terms that do not name the functions the step
system branches on.

Where a promise depends on its surroundings, the surroundings are switches of the step system and the
theorem is an if-and-only-if: a run that breaks the promise is constructed whenever a switch is off.

| files | part of Atlas |
|---|---|
| `Common` | options, compare-and-set by content |
| `AuditLedger`, `AuditClaim`, `AuditSafety`, `AuditRuns`, `AuditExact`, `AuditMonths`, `AuditRecovery`, `AuditVerdicts`, `AuditStore` | the exact-HEAD paid audit: claim ledger, monthly budget, `run_exact_head_audit` |
| `AuditDisposition`, `DispositionRuns`, `LedgerOrder`, `DispositionLost`, `DispositionGates`, `PacketStore` | what follows a completed audit: work-packet mutation and recorded disposition |
| `ChatPacket`, `ChatGate`, `ChatRuns`, `ChatSafety`, `ChatTheorems`, `ChatReconcile`, `ChatLeases`, `ChatProgress`, `ChatReset`, `ChatFirst`, `ChatSecond`, `ChatController` | the chat-audit supervisor: packet, save gate, leased slices, reconciliation |
| `Contents`, `ContentsStore` | the canonical checkpoint behind the Contents API, with lost and malformed replies |
| `FindingIssue`, `FindingHandoff` | one issue per audit finding |
| `Admission`, `AdmissionExact` | concurrency admission and the authorizer's checks |
| `Pipeline`, `PipelineBuild`, `PipelineStable`, `PipelineRuns`, `PipelineInvariant`, `PipelineSteps`, `PipelineTheorems`, `PipelineOwn`, `PipelineRefusals`, `PipelineDashboard`, `PipelineForgotten`, `PipelineRoot` | authorization, effect, handoff, claim, join, claim-bound join, execution ledger and dashboard |
| `HandoffPort` | the work-packet handoff port's WIP limit |
| `UsageBurst` | the burst window of the usage summary |

Conventions: money is an integer number of micro-dollars and time an integer; a content digest or
blob SHA is represented by the content itself (digests are injective); heads compare as full SHAs; a
repository and branch are fixed where every document carries the same one.

## What the proofs found

These are facts about the code; each is proved by the lemmas named.

* `_packet_marker` looks for `HEAD=<sha>` anywhere in the body, and `LAST_VERIFIED_HEAD=<sha>`
  contains that text. Since the metadata check has just required this line, the test reduces to the
  marker alone: a REWORK for a new head is reported as a duplicate while the body still shows the
  handoff of an earlier head (`ReworkDropped`, `NextHeadsReworkIsLost`).
* Once the body was changed for a key, its disposition can still be recorded exactly while some pass
  stands before its ledger write with an attempt number in 1..100 and a base ledger that is still the
  stored one (`RecordedIffStanding`): a ledger once left never comes back (`LedgersNeverReturn`). A
  crash between the two writes, an attempt number outside 1..100, or another head's audit that saves
  between them loses it for ever (`LostByCrash`, `LostByAttempt`, `LostByAudit`, `StrandedForEver`).
* Two passes over the adopting store that read the same clock value both pay (`PaidAtMostOnce`).
* A result that arrives after its lease can record a cost other than the one accounted for
  (`AccountsAgree`).
* An interrupted claim found only after the month has changed is completed at no cost although it was
  paid for, and the old month keeps accounting for its ceiling (`RolloverForgetsCost`). Over all
  months accounts agree exactly when no two passes for one key overlap and none reads a month other
  than the one of its key's reservation (`AccountsAgreeInEveryMonth`).
* A HEAD that returns to the last audited commit is refused by the save gate (`DeltaAccepted`), and
  the checkpoint stays at the commit the worktree has left (`HeadReturns`).
* A committed result whose save raised is reconciled twice, under the unit it named and under the
  claimed one. A timeout or missing evidence always comes back; a rejection does not if its evidence
  is passable, or if it named another unit that is unfinished and does not end in the claimed one's
  name (`CommittedComesBack`).
* A result that did not commit and named a finished unit is reported as that unit's replay, and the
  claim is left to its lease (`UncommittedFailsClosed`).
* An operator's session command can time out a live claim, so that the next call executes within the
  lease (`ExecutingClaimsKeepTheirLease`); between a save and its reconciliation it turns a committed
  result into a failed claim (`ResultsNeverFail`).
* A reported conflict stands for a committed write exactly when the reply failed and another write
  followed before the re-read (`ConflictTellsCommit`); so conflicts mean that nothing was written
  exactly when failed replies do (`ConflictMeansNothing`).
* The dashboards pass on only the last fifty joins, so an execution shown COMPLETE goes back to
  awaiting its join once fifty joins sort after it (`JoinIsForgotten`), as it does in a run of
  fifty-one executions (`CompleteIsForgotten`).

## Model

| member | source | states |
|---|---|---|
| `AuditSafety.StepGood` | atlas/audit_claim.py:982-1330 | no step of any pass drops a claim or reservation, changes a completed claim or settled reservation, a ceiling, or a disposition |
| `AuditSafety.ClaimSaveCalls` | atlas/audit_claim.py:1218-1257 | the call becomes reachable only for the pass whose ledger write created the key's claim, which nobody has paid for |
| `AuditRuns.MoneyIsConserved` | atlas/audit_claim.py:873-960 | in every reachable budget the month's spend is the sum over reservations, an unsettled one accounts for its ceiling, and spend exceeds the limit at most by the overruns |
| `AuditRuns.NothingFinalChanges` | atlas/audit_claim.py:1041-1056 | over whole runs: no key dropped, completed verdicts and settled amounts write-once |
| `AuditRuns.ReservationsAreAllowed` | atlas/audit_claim.py:885-916 | every reservation in every run is made for the pass's own key and month, at its ceiling, when run, month and soft limits allow it |
| `AuditRuns.ReserveConserves` | atlas/audit_claim.py:873-921 | reserving a new key keeps conservation and the limit |
| `AuditRuns.SettleConserves` | atlas/audit_claim.py:924-960 | settling once keeps conservation and the limit up to overruns |
| `AuditExact.PaidAtMostOnce` | atlas/audit_claim.py:1041-1257 | no key is paid for twice in any run, if and only if the store is strict, or claim times are distinct, or no two passes for one key overlap |
| `AuditExact.AccountsAgree` | atlas/audit_claim.py:1076-1163 | every completed claim's cost is its settled reservation's amount, whatever crashed and on every recovery path, if and only if no two passes for one key overlap, whatever passes for other keys and issues do |
| `AuditExact.RolloverForgetsCost` | atlas/audit_claim.py:1165-1203 | the run in which a paid, interrupted claim is completed at no cost after a month rollover, its reservation left unsettled |
| `AuditRecovery.CompletionKeepsResult` | atlas/audit_claim.py:1076-1163 | over every run with one pass per key and month: a key completed after a result was written keeps its verdict and cost, and its slot accounts for that cost; without a result the verdict is HUMAN_REQUIRED and claim and slot stand at the reserved ceiling |
| `AuditMonths.AccountsAgreeInEveryMonth` | atlas/audit_claim.py:1076-1203 | in every run each completed key's reservation, in whatever month it was made, is settled at the recorded cost, if and only if no two passes for one key overlap and none reads a month other than the one that holds its key's reservation |
| `AuditExact.ExclusiveRuns` | atlas/audit_claim.py:1076-1330 | what a pass with no other for its key beside it knows of its claim and reservation at every access, under the writes of all other keys, and that accounts agree |
| `AuditExact.AdoptedClaimPaysTwice` | atlas/chat_audit_github.py:175-178 | the run in which two passes adopt each other's bytes and both pay |
| `AuditExact.LateResultDisagrees` | atlas/audit_claim.py:1280-1325 | the run in which a late result records a cost that was not accounted for |
| `AuditVerdicts.VerdictsArePaidFor` | atlas/audit_claim.py:1111-1203 | on every recovery path a PASS or REWORK stands only where the auditor was paid, exactly once where payment is at most once |
| `AuditStore.MemoryClaimStore.Save` | atlas/audit_claim.py:344-355 | strict compare-and-set of the issue ledger and its write count |
| `AuditStore.MemoryClaimStore.SaveMonthBudget` | atlas/audit_claim.py:390-415 | strict compare-and-set of the month's budget |
| `AuditStore.ReserveCeiling` | atlas/audit_claim.py:873-921 | the retry loop: reserved exactly when the pass may go on to its claim write, under interference; alone, exactly when expected amount and ceiling are within every limit |
| `AuditStore.SettleReservation` | atlas/audit_claim.py:924-960 | the retry loop: settled exactly when the pass may go on to its final write |
| `AuditStore.FinishWithoutCall` | atlas/audit_claim.py:1076-1130 | settles, then completes with the given claim or says which of the source's errors stopped it; alone, exactly the settled budget and the completed ledger |
| `AuditStore.CompleteHeld` | atlas/audit_claim.py:1132-1163 | a held reservation is completed at what is settled, at the recorded cost with the recorded verdict, or at the reserved amount for a human |
| `AuditStore.AuditFresh` | atlas/audit_claim.py:1205-1330 | a fresh key within the limits ends audited, its budget and ledger exactly stated; otherwise nothing changes |
| `AuditStore.ClaimAndCall` | atlas/audit_claim.py:1218-1330 | after an audited outcome the ledger holds the completed claim with the auditor's verdict and cost |
| `AuditStore.RunExactHeadAudit` | atlas/audit_claim.py:982-1330 | one pass is a run of the protocol; alone, its outcome, ledger and budget in every case: duplicate, live, blocked, recovered, reconciled, not ready, over the limits, audited |
| `DispositionRuns.AuditStepsAreAuditWrites` | atlas/audit_claim.py:1226-1330 | the audit protocol's ledger writes are among those the disposition protocol tolerates: a claim is unchanged, given its result, or completed, and the month changes only with a new claim |
| `LedgerOrder.AuditsNeverReturn` | atlas/audit_claim.py:1187-1330 | in every run of audits an issue's ledger, once left, never comes back |
| `LedgerOrder.LedgersNeverReturn` | atlas/audit_disposition.py:318-404 | in every run of dispositions with audits between, a ledger, once left, never comes back, so a pass whose base is not stored any more has lost its write |
| `DispositionRuns.RunsKeepInvariant` | atlas/audit_disposition.py:307-411 | in every run a recorded action fits its completed verdict, handoffs and checkpoints are recorded only after the body shows them, and the body changes only for such a claim |
| `DispositionRuns.DispositionsAreWriteOnce` | atlas/audit_disposition.py:238-251 | completed verdicts and terminal dispositions are write-once over whole runs |
| `DispositionRuns.MutatedAtMostOnce` | atlas/audit_disposition.py:328-411 | the body is mutated at most once per key in every run, if and only if editors keep standing evidence and no head comes back |
| `DispositionRuns.MutatedTwice` | atlas/audit_disposition.py:365-411 | the run that mutates twice when either is violated |
| `DispositionRuns.NextHeadsReworkIsLost` | atlas/audit_disposition.py:367-377 | a run in which a new head's rework is reported duplicate although nothing was done for it |
| `DispositionGates.CheckpointsNeedGates` | atlas/audit_disposition.py:331-363 | every body mutation in every run is made by one pass, at its own head, for the verdict of its completed claim; a checkpoint only with tests passing, CI OK at that head, review OK and governance current at that head |
| `DispositionGates.RecordedCheckpointsNeedGates` | atlas/audit_disposition.py:87-97 | every recorded disposition is for the pass's own key and attempt, and a checkpoint only with all its gates |
| `DispositionGates.NoAdvancementExactly` | atlas/audit_disposition.py:328-332 | a pass that finds a completed PASS, its head, nothing refused and no marker ends without advancement exactly if a gate fails |
| `DispositionLost.RecordedIffStanding` | atlas/audit_disposition.py:347-411 | a mutated body's unrecorded disposition is recorded in some continuation if and only if a pass for its key stands before its ledger write with an attempt in 1..100 and a base ledger that is still the stored one |
| `DispositionLost.StrandedForEver` | atlas/audit_disposition.py:347-411 | once no such pass stands, passes with an outdated base among them, no continuation whatever records it |
| `DispositionLost.LostByCrash` | atlas/audit_disposition.py:397-411 | the run in which a crash between body and ledger write loses the disposition |
| `DispositionLost.LostByAttempt` | atlas/audit_disposition.py:144-167 | the run in which an attempt number outside 1..100 loses it after the body was changed |
| `DispositionLost.LostByAudit` | atlas/audit_disposition.py:397-411 | the run in which a live pass can record its disposition until another head's audit saves its usage, by which it is lost |
| `PacketStore.MemoryStores.CasSave` | atlas/audit_disposition.py:79-84 | body and token compare-and-set, mutation count |
| `PacketStore.MutateAndRemember` | atlas/audit_disposition.py:378-411 | reload, body write and ledger write are steps of the protocol; a recorded result leaves the mutation's disposition; alone, the exact body and ledger |
| `PacketStore.ApplyExactHeadDisposition` | atlas/audit_disposition.py:170-411 | one call is a pass of the protocol; alone, its result, body and ledger in every case, with no advancement exactly if one of the six gate fields fails |
| `ChatGate.FailDraftAccepted` | atlas/chat_audit.py:2327-2345 | the gate refuses a failed claim exactly when the reported unit is not the claimed one |
| `ChatGate.ApplySound` | atlas/chat_audit.py:2644-2866 | whatever an executor returns, the packet made of it passes the gate |
| `ChatGate.FinalizeSound` | atlas/chat_audit.py:2576-2615 | a finished queue passes the gate; PASSED exactly when every unit passed, and exactly then the head is promoted |
| `ChatGate.MarkSound` | atlas/chat_audit.py:2134-2168 | a session command passes the gate |
| `ChatGate.SelectNextFinds` | atlas/chat_audit.py:2459-2472 | the selected unit is not done; none is selected exactly when all are |
| `ChatFirst.RefusedExactly` | atlas/chat_audit.py:2005-2045 | a call is refused exactly for an executing claim: at its head while the clock is before the end of the lease, at another head while the claim is neither that old nor from the future |
| `ChatFirst.RefusalsStoreNothing` | atlas/chat_audit.py:1979-2089 | over every run: a refused call stores nothing and ends; one that is not refused saves, unless HEAD came back to the audited commit |
| `ChatFirst.ExpiredClaimIsReclaimed` | atlas/chat_audit.py:2030-2089 | from every run that left an executing claim, a new call at that head after the lease claims the same unit anew |
| `ChatFirst.SelectsExactly` | atlas/chat_audit.py:2459-2472 | the selected unit is the first of the rotation that is not done |
| `ChatFirst.CommandsDo` | atlas/chat_audit.py:2134-2168 | what a session command stores, field by field, over every run |
| `ChatSecond.ApplyYields` | atlas/chat_audit.py:2644-2866 | what each result does to the own claim: which complete the unit and with which entry, which are rejected and why, which fail the claim closed |
| `ChatSafety.PlanSound` | atlas/chat_audit.py:1979-2089 | every save a call plans before its executor is safe for claims and completed units, and the gate refuses it only for an audited head |
| `ChatSafety.FailSafe` | atlas/chat_audit.py:2319-2356 | an accepted failure names the claimed unit and changes neither completed units nor whose claim it is |
| `ChatTheorems.RunsKeepInvariant` | atlas/chat_audit.py:578-648 | every stored packet in every run is sound, and what each call may rely on |
| `ChatTheorems.EverySaveIsSafe` | atlas/chat_audit.py:2014-2168 | over every save in every run: a call stores results only under its own claim and gives up an executing claim only if it is its own, its lease ended, or HEAD moved while it lies in the future; it never puts another executing claim in its place; an operator's save changes at most the claim's state |
| `ChatTheorems.PromotionWasEarned` | atlas/chat_audit.py:2589-2611 | a last audited head was at some moment the target with a COMPLETE PASS entry for every queued unit |
| `ChatTheorems.CompletedIsKept` | atlas/chat_audit.py:2474-2485 | while the target stays, no completed entry is removed or overwritten |
| `ChatReconcile.CommittedComesBack` | atlas/chat_audit.py:2101-2132 | through both reconciliations, a committed result comes back as a replay if and only if the unit it named is finished, or it is a timeout or missing evidence, or it named the claimed unit, or a text ending in `:` and that unit, and is no rejection with passable evidence |
| `ChatReconcile.StepsReconcileTwice` | atlas/chat_audit.py:2114-2132 | a call's own steps after a save that raised do what the two reconciliations say, and store the failed claim or nothing |
| `ChatReconcile.CommittedIsNotFailed` | atlas/chat_audit.py:2279-2366 | neither reconciliation of a committed result stores a failure |
| `ChatReconcile.UncommittedFailsClosed` | atlas/chat_audit.py:2101-2132 | a result that did not commit, whatever unit it named, leaves the own claim, which fails closed under the claimed unit, if and only if the named unit is not finished; else the finished unit's replay is returned |
| `ChatReconcile.ResultsNeverFail` | atlas/chat_audit.py:2101-2425 | in every run, with both reconciliations, no committed result becomes a failed claim, if and only if operators issue no session command meanwhile |
| `ChatReconcile.OperatorHidesResult` | atlas/chat_audit.py:2152-2163 | the run in which an operator's command hides a committed timeout |
| `ChatLeases.ExecutingClaimsKeepTheirLease` | atlas/chat_audit.py:2014-2089 | of two executing claims of different calls stored within one lease, the first was given up by its own call, or by a moved HEAD while it lay in the future; in every run, if and only if operators issue no session command |
| `ChatLeases.OperatorBreaksLease` | atlas/chat_audit.py:2134-2168 | the run in which an operator times out a live claim and the next call executes the same unit within the lease |
| `ChatProgress.StartCountsMoves` | atlas/chat_audit.py:2439-2445 | in every run the rotation counts exactly the HEAD advances |
| `ChatProgress.HeadBeginsAt` | atlas/chat_audit.py:2459-2472 | a run on a fresh head begins with the unit the number of advances points to |
| `ChatProgress.EveryUnitLeadsOnce` | atlas/chat_audit.py:2439-2445 | among any queue-length of consecutive advances every unit leads exactly once |
| `ChatProgress.RetryResumesUnit` | atlas/chat_audit.py:2675-2747 | after timeout, missing evidence or rejection the same unit is selected again |
| `ChatProgress.CompletionLowers` | atlas/chat_audit.py:2841-2866 | a completing slice lowers the number of unfinished units by exactly one |
| `ChatProgress.QueueReachesVerdict` | atlas/chat_audit.py:2576-2615 | as many completing slices as unfinished units reach the verdict: PASSED and promoted exactly when all passed |
| `ChatReset.HeadReturns` | atlas/chat_audit.py:2427-2457 | the run in which HEAD moves on and returns to the last audited commit: the delta run is refused, whatever the clock, and the checkpoint stays at the other commit |
| `ChatController.CheckpointStore.Save` | atlas/chat_audit.py:1352-1354 | gate, then strict compare-and-set, either of which can be cut short (the adopting store is a switch of the step system) |
| `ChatController.ClaimNextUnit` | atlas/chat_audit.py:1979-2089 | the first section is a run of the protocol that ends holding a claim, or with a verdict or nothing stored; alone, exactly what it stores and answers in every case, from an empty checkpoint to an expired claim |
| `ChatController.StoreResult` | atlas/chat_audit.py:2101-2132 | the second section: a stored result is the call's own; what raises is reconciled under the named and then the claimed unit; a lost handoff is not; alone, exactly the packet and answer for every result |
| `ChatController.SaveApplied` | atlas/chat_audit.py:2617-2642 | the save of an applied result and the reconciliation of a save that raised |
| `ChatController.ReconcileFrom` | atlas/chat_audit.py:2114-2132 | two reconciliations at most: a replay, the stored failed claim, or nothing stored |
| `ChatController.ReconcileException` | atlas/chat_audit.py:2279-2366 | reloads, then replays, fails the own claim closed, or raises, having stored nothing |
| `ChatController.RunSlice` | atlas/chat_audit.py:1968-2132 | one call is a run of the protocol; alone, exactly what both sections do |
| `Contents.ReturnedWasCanonical` | atlas/chat_audit_github.py:153-199 | a returned SHA is that of the intended bytes, and those were canonical, whatever replies were lost or malformed |
| `Contents.HistoryIsOneChain` | atlas/chat_audit_github.py:493-531 | the committed history has revisions 1, 2, 3, ... in every run, if and only if packets are saved with the revision they were loaded with |
| `Contents.UndisturbedPutIsResolved` | atlas/chat_audit_github.py:175-199 | in every run, if the canonical bytes have not moved between a PUT and its re-read, a SHA is returned if and only if the PUT was committed, whatever other clients tried meanwhile |
| `Contents.ConflictTellsCommit` | atlas/chat_audit_github.py:175-182 | for every conflict reported in every run: the PUT was committed if and only if its reply failed and, in the history at the re-read, the client's own write stands where the PUT met it with another write after it |
| `Contents.ConflictMeansNothing` | atlas/chat_audit_github.py:175-182 | in every run a reported conflict means that nothing was committed, if and only if a failed reply does |
| `Contents.ConflictAfterCommit` | atlas/chat_audit_github.py:175-182 | the run in which a conflict is reported for a committed write |
| `ContentsStore.GitHubContentsCheckpointStore.LoadPacket` | atlas/chat_audit_github.py:467-491 | a load binds the token to the canonical bytes |
| `ContentsStore.GitHubContentsCheckpointStore.SavePacket` | atlas/chat_audit_github.py:493-531 | a success moves the token to the intended, canonical bytes, one revision on; else it stays; a committed write directly follows its token; the answer in every case of reply and re-read |
| `FindingIssue.NumberIsFinal` | atlas/chat_audit_github.py:719-897 | once the claim holds an issue number no step of any worker changes it |
| `FindingIssue.ReportedIsTheIssue` | atlas/chat_audit_github.py:719-1015 | every number any worker reports in any run is an existing issue of the finding, and the one its claim holds |
| `FindingIssue.OneIssuePerFinding` | atlas/chat_audit_github.py:719-897 | at most one issue per finding in every run, if and only if owners create within their leases and the search is exact |
| `FindingIssue.TwoIssues` | atlas/chat_audit_github.py:770-805 | the runs that create two issues otherwise |
| `FindingHandoff.ClaimFile.PutClaim` | atlas/chat_audit_github.py:626-671 | compare-and-set that adopts equal bytes |
| `FindingHandoff.UpdateExistingClaim` | atlas/chat_audit_github.py:899-1015 | refreshes the claim under its own number or lets another refresh stand |
| `FindingHandoff.PollForNumber` | atlas/chat_audit_github.py:777-805 | polling is a run of the protocol that writes nothing until a number is seen, and reports what it ended with |
| `FindingHandoff.FinalizeClaim` | atlas/chat_audit_github.py:861-885 | reports the created number only if the claim holds it |
| `FindingHandoff.UpsertImplementationPacket` | atlas/chat_audit_github.py:673-897 | one call is a run of the protocol, and a number it returns is an existing issue of the finding and the one its claim holds; alone, exactly the claim, the issues and the number |
| `Admission.EligibleSlot` | atlas/concurrency_admission.py:264-282 | when a slot is eligible |
| `AdmissionExact.EligibleExactly` | atlas/concurrency_admission.py:285-311 | the eligible slots are exactly the usable ones and the ineligible exactly the others, in the snapshot's order |
| `AdmissionExact.DecidedInTurn` | atlas/concurrency_admission.py:312-362 | each node is blocked in its turn with exactly the limits tight then, or admitted on the next eligible slot |
| `AdmissionExact.LimitsInThePlan` | atlas/concurrency_admission.py:319-347 | the final plan by counts of nodes: within parallelism and every repository's WIP, and each named limit still tight |
| `Admission.PlanAdmission` | atlas/concurrency_admission.py:285-383 | the loops compute the greedy plan |
| `Admission.AdmitSelected` | atlas/concurrency_admission.py:312-362 | the admission loop pops slots and counts admissions as the greedy specification does |
| `Admission.PlanPartitions` | atlas/concurrency_admission.py:312-362 | admitted and blocked partition the selected nodes, slots in order |
| `Admission.PlanRespectsLimits` | atlas/concurrency_admission.py:319-347 | within every limit, and each limit that blocked a node is still tight in the final plan |
| `Admission.PlanIsFeasible` | atlas/concurrency_admission.py:312-362 | the admitted nodes are a feasible selection |
| `Admission.GreedyIsOptimal` | atlas/concurrency_admission.py:312-362 | no feasible selection admits more nodes |
| `Admission.AuthorizerAccepts` | atlas/concurrency_authorization.py:142-239 | a plan with nothing blocked meets the authorizer's node, slot, worker and parallel checks, and its evidence check at the time of evaluation if and only if that is no earlier than the snapshot and no later than the oldest assigned slot's expiry |
| `Admission.ProjectWipRefusal` | atlas/concurrency_authorization.py:159-233 | the project-WIP check refuses exactly when a repository was already over its limit |
| `PipelineBuild.CountsAddUp` | atlas/concurrency_effect.py:478-481 | the four result counts add up to the items |
| `PipelineBuild.ReceiptSays` | atlas/concurrency_effect.py:269-291 | HUMAN_REQUIRED exactly if some item is, DISPATCHED exactly if all are, FAILED exactly if none is either, PARTIAL otherwise; counts are the numbers of such items |
| `PipelineBuild.JoinSaysRight` | atlas/concurrency_join.py:352-470 | a valid join's result and counts say exactly what its outcomes are |
| `PipelineBuild.BuiltExactly` | atlas/concurrency_join.py:352-412 | a join is built exactly for the effect's own terminal receipt with something dispatched, nobody asked for, and one attributed outcome per dispatched item |
| `PipelineBuild.BuiltJoinIsValid` | atlas/concurrency_join.py:352-470 | a built join passes validator and binding check, outcomes in node order |
| `PipelineBuild.AnswersCover` | atlas/concurrency_join.py:396-412 | equally many distinct attributed outcomes leave no dispatched node out |
| `PipelineStable.JoinStaysBound` | atlas/concurrency_join.py:297-349 | a bound join stays bound under any growth of the effect ledger |
| `PipelineStable.ClaimJoinStaysBound` | atlas/concurrency_claim_join.py:372-429 | a bound claim-join stays bound under growth of all four source ledgers |
| `PipelineStable.SourceStays` | atlas/concurrency_claim.py:372-415 | a claim's source effect stays as it was |
| `PipelineSteps.ReserveEffectKeeps` | atlas/concurrency_effect.py:340-370 | reserving an effect keeps every ledger valid; nothing has been called for it |
| `PipelineSteps.FinishEffectKeeps` | atlas/concurrency_effect.py:373-412 | finalizing keeps every ledger valid; the receipt stands for one call per assignment |
| `PipelineSteps.CallKeeps` | atlas/concurrency_handoff.py:419-585 | a port call is the first for its assignment and its handoff repeats no replay key and no (effect, node) |
| `PipelineSteps.RecordJoinKeeps` | atlas/concurrency_join.py:473-501 | append and sort keep the join ledger valid and sorted |
| `PipelineSteps.FinishClaimKeeps` | atlas/concurrency_claim.py:520-554 | a finalized claim is bound to its handoff and receipt |
| `PipelineSteps.RecordClaimJoinKeeps` | atlas/concurrency_claim_join.py:650-691 | the claim-bound ledger stays bound and reuses no claim |
| `PipelineTheorems.BuiltClaimJoinIsBound` | atlas/concurrency_claim_join.py:545-647 | a built claim-join passes its binding check |
| `PipelineTheorems.BuiltClaimJoinIsValid` | atlas/concurrency_claim_join.py:140-337 | and its validator |
| `PipelineTheorems.LoadersNeverReject` | atlas/concurrency_join.py:132-163 | in every run every ledger passes its validator and every binding its check, so no loader rejects what was written |
| `PipelineTheorems.LedgersGrow` | atlas/concurrency_effect.py:373-412 | over whole runs source ledgers are append-only apart from one change per entry |
| `PipelineTheorems.ValidationIsStable` | atlas/concurrency_claim_join.py:432-479 | any join, claim receipt, claim-join or record that passes re-validation at some point passes it at every later one |
| `PipelineTheorems.OneCallPerAssignment` | atlas/concurrency_effect.py:415-477 | each authorization causes at most one port call per assignment |
| `PipelineTheorems.ReceiptsFollowAssignments` | atlas/concurrency_effect.py:469-519 | terminal receipts list all assignments in order, validly, stand for exactly one call each, and their result and counts say what the items are |
| `PipelineRefusals.RecordReservedExactly` | atlas/concurrency_execution.py:274-307 | over every run a record is reserved exactly if there is room and none has its cycle, plan, authorization or effect |
| `PipelineRefusals.EffectReservedExactly` | atlas/concurrency_effect.py:340-370 | over every run an effect is reserved exactly if its authorization is current, there is room, and neither effect nor authorization was used |
| `PipelineRefusals.EffectFinishedAlways` | atlas/concurrency_effect.py:373-412 | over every run, once all assignments are answered, the effect's own entry, and only that, gets its receipt |
| `PipelineRefusals.RecordFinishedAlways` | atlas/concurrency_execution.py:310-351 | over every run the execution record of a finished effect is still there and gets receipt and result |
| `PipelineRefusals.JoinRecordedExactly` | atlas/concurrency_join.py:473-501 | over every run a built join is recorded exactly if there is room and none has its id or receipt |
| `PipelineRefusals.ClaimReservedExactly` | atlas/concurrency_claim.py:490-517 | over every run a claim is reserved exactly for a dispatched handoff whose facts hold, if there is room and neither claim nor handoff was used |
| `PipelineRefusals.ClaimFinishedExactly` | atlas/concurrency_claim.py:520-554 | over every run a reserved claim is finished exactly if its facts still hold |
| `PipelineRefusals.ClaimJoinBuiltExactly` | atlas/concurrency_claim_join.py:545-647 | a claim-join is built exactly from a recorded join and one loadable claim per outcome |
| `PipelineRefusals.ClaimJoinRecordedExactly` | atlas/concurrency_claim_join.py:650-691 | over every run a built claim-join is recorded exactly if there is room and no entry has its id, join or a claim of it |
| `PipelineTheorems.HandoffLedgerIsValid` | atlas/concurrency_handoff.py:235-262 | the handoff ledger always satisfies its uniqueness validator |
| `PipelineDashboard.PlanDispatchedOnce` | atlas/concurrency_execution.py:354-412 | each plan is dispatched under one authorization only, if and only if dispatch goes through the execution ledger |
| `PipelineDashboard.CompleteMeansDone` | atlas/concurrency_execution.py:449-510 | COMPLETE on the dashboard: every assignment of the plan dispatched by exactly one call, exactly one COMPLETE outcome with the same attribution, nothing omitted |
| `PipelineDashboard.StagesSay` | atlas/concurrency_execution.py:449-510 | in every run each record's stage says exactly how its receipt's items and the outcomes of its shown join stand |
| `PipelineDashboard.CompleteExactly` | atlas/concurrency_execution.py:471-489 | COMPLETE exactly when everything was dispatched and a shown join has only COMPLETE outcomes |
| `PipelineDashboard.JoinIsForgotten` | atlas/concurrency_join.py:520-534 | an execution falls back to awaiting its join exactly when fifty joins sort after it |
| `PipelineForgotten.CompleteIsForgotten` | atlas/concurrency_join.py:520-534 | the run of fifty-one executions in which the first is COMPLETE and later awaits its join again |
| `PipelineDashboard.ExecutionDashboard` | atlas/concurrency_execution.py:449-510 | the loop's stages, its counts per stage, and that the counts add up to the records |
| `PipelineRoot.ReserveRecord` | atlas/concurrency_execution.py:274-307 | the replay search and the reservation; alone, reserved exactly if there is room and no replay |
| `PipelineRoot.CommitDispatchEffect` | atlas/concurrency_effect.py:415-522 | reserves, calls once per assignment in an arbitrary order, finalizes a valid receipt whose items tell what the port answered and whose result says what they are; alone, exactly when it dispatches and what every ledger holds then |
| `PipelineRoot.Rewritten` | atlas/concurrency_effect.py:391-407 | the rewriting loop replaces exactly the finalized entry |
| `PipelineRoot.RecordDispatchJoin` | atlas/concurrency_join.py:473-501 | builds and records a join of the observed receipt; alone, exactly when, and which join |
| `PipelineRoot.StartConcurrencyExecution` | atlas/concurrency_execution.py:354-412 | one execution is a run of the pipeline; alone, exactly when it dispatches and what records, effects and publication are then |
| `HandoffPort.RecordedExactly` | atlas/concurrency_handoff.py:466-502 | over any sequence of requests an issue is recorded as activated exactly if the adapter activated it at some request that met a total below the limit, confirmed or not |
| `HandoffPort.DispatchedIsRecorded` | atlas/concurrency_handoff.py:472-582 | an issue answered DISPATCHED is recorded from then on |
| `HandoffPort.WipHolds` | atlas/concurrency_handoff.py:472-502 | however threads interleave, preexisting issues and all that the adapter activated stay within the limit, if and only if they did before; over the limit nothing is activated |
| `HandoffPort.ConcurrencyWorkPacketHandoffPort.Dispatch` | atlas/concurrency_handoff.py:333-585 | the context is fixed by the first dispatch; DISPATCHED exactly for an admitted, activated and confirmed request below the limit; the recorded issues are those the adapter activated |
| `UsageBurst.ScanBursts` | atlas/cursor_usage.py:465-487 | the two-pointer scan finds the earliest largest window opened by an event, and the exact number of heavy windows |
| `UsageBurst.BurstBoundsEveryWindow` | atlas/cursor_usage.py:465-487 | no 600-second window, wherever it starts, holds more tokens |
| `UsageBurst.BurstIsUnique` | atlas/cursor_usage.py:465-487 | the specification determines the burst |

## Left out

- `gh`, git, subprocess, files, base64 and JSON text: only the stored state and the replies they produce are modelled.
- Regular expressions, secret scanning, text sanitizing, finding text and finding-id rules: they never change the state modelled here.
- Byte limits of ledgers and checkpoints: loaders enforce them and writers do not; entry-count limits are modelled.
- File locking and atomic file replacement: a ledger update under the data root's lock is one step.
- Floating-point rounding of costs, ratios and timestamps.
- `save_month_spend`: sets a spend without touching reservations; the audit protocol does not call it.
- Rollover and browser providers and evidence collectors: a rollover is its effect on the session; the packet's mode, last slice, coordination snapshot and run counters are not modelled.
- `plan_readiness` and the snapshot's global and resource checks: admission starts from distinct selected nodes; at effect time they are one yes-or-no input.
- Packet and worktree facts in handoffs and claims, packet metadata and worktree identity in dispositions: one yes-or-no input each.
- Thread pools: the port calls of one effect are made in an arbitrary order with other callers between, each call one step; that two calls of one effect overlap in time is not modelled.
- `FindingIssue.OneIssuePerFinding`: all workers read one monotone clock; leases under skewed clocks are not modelled.
- `concurrency_claim.py` and `concurrency_claim_join.py` as objects: they are modelled on values in the step system, so update in place of their ledger lists is not shown.
- Issues closed or edited by people while a finding is handed off: an issue that carries the marker keeps it and stays open.
- Observers that read the execution dashboard while ledgers change: the dashboard is computed from one state.
- `_percentile`, `_descendant_pids`, worker classification and the admission run ledger: easier than what is here.
- `AuditStore.RunExactHeadAudit`: clock, evidence check, key check and auditor's answer (its verdict as it stands after the budget's own reconciliation) are its inputs, and the checks before the ledger is loaded (packet, profile, worktree) are not modelled.
- `PipelineRoot.RecordDispatchJoin`: does not return the dashboard, which `PipelineDashboard.ExecutionDashboard` computes.
