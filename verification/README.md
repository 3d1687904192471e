# Verified model of the governed runtime

A Dafny model of the runtime's stateful and evidence-bearing cores, with machine-checked
theorems about all of their inputs, runs and interleavings.

| component | modules |
|---|---|
| crash-recoverable process execution | `ProcessWorld`, `ProcessProtocol`, `ProcessInvariant`, `ProcessRuns`, `ProcessRecovery`, `ProcessCancellation`, `ProcessSessions`, `ProcessScenarios`, `ProcessController` |
| one-winner governed provider dispatch | `GovernedDispatch`, `GovernedRuns`, `GovernedReports`, `GovernedClosing`, `GovernedSessions`, `GovernedLeaf` |
| money bounds | `Pricing`, `Settlement`, `EconomicAccount` |
| verified progress and churn | `FactTransitions`, `ProgressWindows`, `ProgressStreak`, `ProgressSignals`, `ProgressDecision` |
| plans and path ownership | `CanonicalOrder`, `WorkspacePaths`, `PlanPaths`, `AllocationPlan`, `PlanMeaning`, `PlanReadBack`, `PlanScenarios`, `PlanStorage` |
| evidence integrity | `EventChain`, `CompletionDecision`, `CompletionMeaning` |
| small machines | `FrameCodec`, `MutationAdmission` |

The two protocols are transition systems. A run is a list of events; `Exec` gives the state it
leads to, or nothing when an event was not enabled. Every await of the source is one step, so a
crash, a cancellation, another caller or a lease change may fall between any two effects. The
classes `ProcessExecutionController` and `LeafRequest` keep the source's own imperative form and
are proved, await by await, to follow those systems whatever everyone else does in between. What a
caller reads at an await (a capability, a credential, a reply, the instant) comes from a schedule; every
await is proved to use exactly the input it was offered.

## Results a reader would not expect

These properties are false of the code as written. Each has a concrete run and the exact
condition under which it does hold.

- "The launcher is asked at most once" is false: a request whose sender died before reading the
  answer is asked again, unrefused (`ProcessScenarios.AskedTwice`). In every run each ask was refused,
  lost or the one that was answered, so the launcher was asked at most once without refusing if and
  only if no request was lost, or one was and none was answered (`ProcessRuns.StartedAtMostOnce`).
- A process can start after its operation was durably recorded as cancelled before launch: the
  launch request was sent, its sender died, and the launcher read it later
  (`ProcessScenarios.OrphanStartsAfterCancellation`). Nothing starts if and only if no launch request
  is still unread (`ProcessRuns.UnlaunchedStaysUnlaunched`).
- A reconciliation can fail without a crash although the outcome is fixed, in two ways. The
  operation's single unlocked cancellation request bumps the row revision while it runs
  (`ProcessScenarios.ReconciliationLosesToCancellation`), or it was told that the process still runs and
  gives up observing (`ProcessScenarios.ReconciliationGivesUp`). It is sure to deliver if and only if the
  row already has its cancellation request or is terminal, and it is not told that a process not yet
  finalized still runs (`ProcessCancellation.SureToDeliverIff`). The request can arrive once per operation,
  so no later session loses to it (`ProcessRecovery.Recovery`).
- A caller that loses the start transition to a *release* is told that a request is in flight,
  possibly dispatched, although nothing was ever started
  (`GovernedReports.LoserOfAReleaseIsMisled`). The report is wrong if and only if the row it
  re-read says `released` (`GovernedReports.LoserCanTell`).
- The winner's answer is not always charged as the provider reported it. A duplicate that finds the
  durable answer first charges the authorized maximum and discards the metered usage
  (`GovernedReports.ObserverDiscardsMeteredUsage`). A report above the transmitted cap or the window is
  refused by the store: nothing is charged, the winner throws with the books open, and a later duplicate
  charges the maximum (`GovernedClosing.OverrunIsNotCharged`). The charge equals the report if and only
  if the row still says `response_persisted` and the report is within what the request was sent with, or
  the report was unusable (`GovernedReports.ChargedAsReported`).
- A fact that was credited to a batch does not reset the no-progress counter when the batch's last
  receipt was refused, failed or an inspection, because the credit is anchored on that receipt
  (`ProgressDecision.RefusedAnchorHidesCredit`, exact condition in `ProgressDecision.CreditCountsIff`).
- A stored output path can change when it is read back, although it has no white space at either
  end: `./ ./ a` is stored as `./ a`, which reads back as `a` (`PlanPaths.SpacedOutputChanges`). A
  stored output reads back as itself if and only if it does not start with a slash and no segment
  starts with a dot (`PlanPaths.OutputReadsBackIff`).
- An owned path can be accepted in a form that the same rule refuses
  (`PlanPaths.ClimbingOwnedPathIsAccepted`). An accepted owned path reads back as itself if and only
  if it is not empty, is trimmed, and no segment starts with a dot (`PlanPaths.OwnedReadsBackIff`).
- So a plan can be built that its own contract cannot read (`PlanScenarios.ClimbingPlanIsUnreadable`).
  A built plan is a fixed point of building if and only if all its stored paths meet those two
  conditions (`PlanReadBack.PlanReadsBackIff`).
- `lastVerifiedSeq` and `lastVerifiedHash` can name an event after a broken one
  (`EventChain.LastVerifiedOutlivesABreak`). The chain up to the named event is valid if and only if
  every reported error is about a later event (`EventChain.Verify`, `EventChain.VerifiedPrefixIff`).

## Modelling decisions

- SHA-256 (section 6.2 of FIPS 180-4) and canonical JSON identities are opaque injective images.
- Clocks, transport replies, launcher outcomes, credentials, capability resolution and lease
  changes are inputs of a step; a caller that throws and a process that dies are the same event.
- Store calls are atomic, as their transactions are: `transitionProcessOperation` compares lifecycle
  state and revision, evidence and receipts are keyed and append-once, `start` and `release` commit
  only from `reserved`. The launcher registry keeps a tombstone after compaction.
- Integers are unbounded; the safe-integer limits of the source are written out where they decide.
- Values have the shapes their validators accept, so field-by-field shape checks are not repeated.

## Model

| member | source | states |
|---|---|---|
| `ProcessInvariant.NextKeepsInv` | runtime/process-execution-controller.js:272-627 | every event of the protocol (any await, cancellation, launcher progress, crash, lost launch, closure, compaction) keeps the invariant tying row, launcher entry, evidence, receipt, artifacts and the lock holder's stale copy |
| `ProcessInvariant.StepKeepsInv` | runtime/process-execution-controller.js:491-847 | every await of a lock holder keeps that invariant |
| `ProcessRuns.AcknowledgedMeansDurable` | runtime/process-execution-controller.js:781-847 | in every reachable state, launcher-acknowledged implies a terminal row with the launcher's own result, and a terminal row implies terminal evidence, receipt and, when output is complete, both artifacts and their evidence, all saying exactly the committed result |
| `ProcessRuns.NothingIsUndone` | runtime/process-execution-controller.js:731-779 | along every run lifecycle never moves backwards, and a committed outcome, artifact, evidence record, receipt, acknowledgement or launcher entry never changes or disappears |
| `ProcessRuns.NeverAskedAfterCommit` | runtime/process-execution-controller.js:520-566 | once anything past the intent is committed (acceptance, unlaunched cancellation or failure) no later run asks the launcher again, compaction or not |
| `ProcessRuns.StartedAtMostOnce` | runtime/process-execution-controller.js:533-566 | in every run the launcher registers an identity at most once, and every ask was refused, lost with its sender or the one that was answered; asked at most once without refusing if and only if none was lost, or one was and none was answered |
| `ProcessRuns.UnlaunchedStaysUnlaunched` | runtime/process-execution-controller.js:1030-1129 | an unlaunched outcome stays processless in every future if and only if no launch request is still unread at the launcher |
| `ProcessRuns.CompactionGateOpens` | runtime/process-launcher-retention.js:15-58 | in every reachable state the retention gate opens exactly for a closed Run with a terminal acknowledged operation, and compaction then succeeds |
| `ProcessScenarios.OrphanStartsAfterCancellation` | runtime/process-execution-controller.js:418-437 | a concrete run in which a process starts although the operation is recorded as cancelled before launch |
| `ProcessScenarios.AskedTwice` | runtime/process-execution-controller.js:533-566 | a concrete run in which the launcher is asked twice without ever refusing |
| `ProcessScenarios.ReconciliationLosesToCancellation` | runtime/process-execution-controller.js:731-746 | a concrete uncrashed session that throws because a cancellation request changed the row, although the outcome was fixed |
| `ProcessScenarios.ReconciliationGivesUp` | runtime/process-execution-controller.js:629-702 | a concrete uncrashed, uncancelled session that throws because it gives up observing a process that has already ended |
| `ProcessScenarios.CrashLeavesWorkToRecover` | runtime/process-execution-controller.js:560-566 | a concrete crash between launcher acceptance and its commit, leaving exactly the state recovery starts from |
| `ProcessRecovery.StepAdvances` | runtime/process-execution-controller.js:491-627 | with the outcome fixed, every await moves the session strictly forward with a copy as fresh as before, or throws because its copy was stale |
| `ProcessRecovery.Recovery` | runtime/process-execution-controller.js:471-627 | after any history of sessions, cancellations and crashes, one uncrashed session ends within 24 awaits, having returned the action an uncrashed run returns with the operation finished, or having lost to the one cancellation request that arrived meanwhile |
| `ProcessCancellation.SureToDeliverIff` | runtime/process-execution-controller.js:418-627 | after any history with the outcome fixed, an uncrashed session is sure to return the expected action if and only if the row has its cancellation request or is terminal, and it is not told that a process not yet finalized still runs |
| `ProcessCancellation.CanLose` | runtime/process-execution-controller.js:731-779 | from any point of a session, while the cancellation can still be requested, some calm continuation makes it throw |
| `ProcessRecovery.SameAnswer` | runtime/process-execution-controller.js:497-512 | two histories whose process ended alike return the same action, whatever crashed on the way |
| `ProcessRecovery.ReturnedMeansFinished` | runtime/process-execution-controller.js:836-847 | every returned action belongs to a terminal, fully recorded operation, acknowledged on both sides unless nothing was launched |
| `ProcessSessions.NewSession` | runtime/process-execution-controller.js:272-353 | a session on a new operation: no capability, no row and no launch; with it a row and, unless cancelled meanwhile, exactly one ask with the matching end |
| `ProcessSessions.IntentSession` | runtime/process-execution-controller.js:491-566 | a session on an intent the launcher never heard of: a requested cancellation or a missing capability is recorded with nothing launched, otherwise exactly one ask with the matching end |
| `ProcessSessions.CancelSession` | runtime/process-execution-controller.js:355-470 | a cancelling session on an intent the launcher never heard of ends as cancelled, with nothing launched and everything about it recorded |
| `ProcessSessions.CancelLeavesAlone` | runtime/process-execution-controller.js:355-470 | on any other row a cancelling session changes nothing: it unlocks, or fails exactly when an unfinished row carries no request |
| `ProcessController.ProcessExecutionController.Execute` | runtime/process-execution-controller.js:272-353 | adds exactly one locked session, without crash, to the history it found, reading the schedule in order; a new operation without the capability gets no row and no launch, with it a row and, unless cancelled meanwhile, exactly one ask: refused, it says so, accepted, it returns the action of the process's outcome or gives up once the schedule is spent |
| `ProcessController.ProcessExecutionController.Reconcile` | runtime/process-execution-controller.js:471-489 | adds exactly one locked session, without crash, to the history it found; with the outcome fixed it returns the expected action of a finished operation, gives up observing, or loses to the one cancellation that arrived meanwhile, and when assured beforehand it always returns; an intent the launcher never heard of is declined or asked about exactly once, as the inputs say |
| `ProcessController.ProcessExecutionController.ReconcileLocked` | runtime/process-execution-controller.js:491-627 | every branch extends the session by protocol steps to its verdict; an action is returned only for a finished operation |
| `ProcessController.ProcessExecutionController.MarkActive` | runtime/process-execution-controller.js:731-746 | one await after any unlocked events: a row already active is left alone; otherwise the compare-and-set of acceptance is the only change, or it throws and the world is as it found it |
| `ProcessController.ProcessExecutionController.MarkFinalizing` | runtime/process-execution-controller.js:748-779 | one await after any unlocked events: the compare-and-set of the terminal facts is the only change, or it throws and the world is as it found it |
| `ProcessController.ProcessExecutionController.ObserveTerminal` | runtime/process-execution-controller.js:629-702 | extends the session by polls until the launcher reports a finished status; it fails only when the schedule is spent or the entry is missing |
| `ProcessController.ProcessExecutionController.FinishFinalization` | runtime/process-execution-controller.js:781-847 | extends the session by protocol steps; an action is returned only with both artifacts, evidence, receipt, terminal row and acknowledgements durable |
| `ProcessController.ProcessExecutionController.PublishTerminalEvidence` | runtime/process-execution-controller.js:863-925 | extends the session by protocol steps; success means terminal evidence, receipt and, for complete output, both artifacts with their evidence are durable |
| `ProcessController.ProcessExecutionController.Acknowledge` | runtime/process-execution-controller.js:977-1002 | extends the session by protocol steps (launcher first, row second); success means both sides are acknowledged |
| `ProcessController.ProcessExecutionController.FinalizeUnlaunched` | runtime/process-execution-controller.js:1030-1129 | extends the session by protocol steps from the intent row; an action is returned only for a finished operation |
| `GovernedRuns.NextKeepsInv` | runtime/governed-leaf-orchestration.js:187-467 | any number of callers, crashes, claims and lapses keep the invariant of the reservation and of every caller |
| `GovernedRuns.TransportAtMostOnce` | runtime/governed-provider-transport.js:86-137 | in every run the transport is used at most once, by the start winner, with exactly the reservation's persisted bytes |
| `GovernedRuns.UnansweredSettlement` | runtime/governed-leaf-orchestration.js:482-610 | a request closed without a response was closed by its start winner, or by a caller that found it started and saw no live executor; never by a start loser |
| `GovernedRuns.ReceivedIsDurable` | runtime/governed-leaf-orchestration.js:426-467 | `received` means the caller won the start, the transport's answer is durable as it was returned, and the reservation is settled |
| `GovernedRuns.ReleasedNeverTransported` | runtime/governed-leaf-orchestration.js:313-333 | a released reservation was never transported and never will be |
| `GovernedRuns.NothingIsUndone` | persistence/postgres/store.js:4216-4625 | persisted bytes, winner, settlement and response never change, and settled and released are final |
| `GovernedRuns.SettleEvolves` | runtime/governed-leaf-orchestration.js:614-637 | settling from any started copy closes the books exactly once, with metered usage only for the winner and only with a response; refused, changing nothing, exactly when the books are open and the bill is above what the request was sent with |
| `GovernedRuns.StartsUnderItsClaim` | persistence/postgres/store.js:4216-4298 | a started row carries exactly the claim in force when its winner started, a planner's none, and no start commits under a claim superseded since its caller entered |
| `GovernedSessions.OutcomesFollowInputs` | runtime/governed-leaf-orchestration.js:187-467 | in every run every outcome is the one its caller's inputs justify: the transport's own answer and report, a real failure, a really missing credential |
| `GovernedSessions.UndisturbedReceives` | runtime/governed-leaf-orchestration.js:187-467 | one undisturbed caller, under any claim and lease, sends the bytes it brought, receives the transport's answer and is charged what was reported; a leaf's row carries the claim in force |
| `GovernedSessions.UndisturbedReleases` | runtime/governed-leaf-orchestration.js:313-333 | without a credential the undisturbed caller gives its reservation back and sends nothing |
| `GovernedSessions.SupersededNeverStarts` | persistence/postgres/store.js:4216-4298 | a leaf whose claim is superseded before its start is refused and nothing is sent |
| `GovernedReports.ObserverVerdict` | runtime/governed-leaf-orchestration.js:482-594 | for a caller that found the request started: in flight if and only if the lease is live, a leaf started it and no claim was made since; uncertain if and only if the lease is live otherwise; closed if and only if the lease is dead |
| `GovernedReports.RecoveryClassified` | runtime/governed-leaf-orchestration.js:153-185 | the recovery classifier, each verdict if and only if: durable response, unbound or superseded start, incomparable claims, same claim and live |
| `GovernedReports.UsageDerived` | runtime/structured-planner-governance.js:231-245 | usage is the provider's two counts if and only if both are present and safe |
| `GovernedReports.PlannerRecoveryIsTrue` | runtime/governed-planner-orchestration.js:323-365 | in every reachable state the recovery classifier permits a dispatch exactly when the reservation is open and nothing was ever started, demands settlement exactly when a start is still unsettled, and calls the attempt terminal exactly when nothing was started and nothing may be |
| `GovernedReports.PossiblyDispatchedIsTrue` | runtime/governed-leaf-orchestration.js:364-387 | a possibly-dispatched outcome is wrong exactly when the reservation was released, and then only for a start loser |
| `GovernedReports.LoserCanTell` | runtime/governed-leaf-orchestration.js:364-387 | the re-read row is `released` exactly when nothing was ever started, and the caller then still reports a request in flight or uncertain |
| `GovernedReports.LoserOfAReleaseIsMisled` | runtime/governed-leaf-orchestration.js:364-387 | a concrete run of that wrong report |
| `GovernedReports.ChargedAsReported` | runtime/structured-planner-governance.js:231-245 | at the winner's settlement the charge is the provider's report if and only if the row still says `response_persisted` and the report is within the transmitted cap and window, or the report was unusable; nothing is charged exactly when that row meets a report above them |
| `GovernedReports.ReceivedCharge` | runtime/governed-leaf-orchestration.js:426-467 | a received answer was charged as reported if and only if the winner was the settler or the report was unusable |
| `GovernedReports.ObserverDiscardsMeteredUsage` | runtime/governed-leaf-orchestration.js:278-289 | a concrete run in which a duplicate settles first at the maximum |
| `GovernedReports.AnswerKeptIff` | persistence/postgres/store.js:4348-4400 | the winner's answer becomes durable if and only if nobody settled while it was on the wire |
| `GovernedClosing.OneMoreCallerCloses` | runtime/governed-leaf-orchestration.js:482-637 | after any history that left a started request unsettled, one uncrashed leaf caller settles it within four awaits whatever interleaves: at once with a durable answer, otherwise while the lease stays lapsed |
| `GovernedClosing.AccountAgrees` | persistence/postgres/store.js:4408-4560 | in every reachable state the protocol settles a usage if and only if the account can build a receipt for it from the same row |
| `GovernedClosing.OverrunIsNotCharged` | runtime/economic-settlement-receipt-contract.js:280-284 | a concrete run whose usable report is one token above the cap: nothing is charged until a duplicate charges the maximum |
| `GovernedLeaf.LeafRequest.RunGovernedLeafRequest` | runtime/governed-leaf-orchestration.js:187-467 | extends the trace it found, for any interleaving, so the reservation only moves forward; at most one transport; `received` is this caller's own durable settled answer; every outcome is the one its offered inputs justify |
| `GovernedLeaf.LeafRequest.ResolveStartedRequest` | runtime/governed-leaf-orchestration.js:482-594 | extends the trace and always returns; a reused or unresolved outcome leaves the reservation settled with a recorded charge |
| `GovernedLeaf.LeafRequest.SettleFromDurableFacts` | runtime/governed-leaf-orchestration.js:614-637 | extends the trace; either the reservation is settled with a recorded charge, or the answer stays durable, the books stay open and the bill is above what the request was sent with; a bill within it always settles |
| `Pricing.ChargeForUnits` | runtime/model-pricing-catalog.js:152-168 | the least whole micro-USD amount covering the tokens; refused exactly for unsafe counts and products that do not fit |
| `Pricing.ChargeMonotone` | runtime/model-pricing-catalog.js:152-168 | fewer tokens never cost more and never overflow where more did not |
| `Pricing.CostMonotone` | runtime/model-pricing-catalog.js:449-468 | actual cost grows with both token counts |
| `Pricing.CostMeans` | runtime/model-pricing-catalog.js:449-468 | the cost is computed if and only if every amount on the way fits, and is then the input count at the input rate plus the output count at the output rate, each rounded up, plus the fixed charge per request |
| `Pricing.MultiplyMicroUsd` | runtime/economic-authority-contract.js:222-230 | the guard refuses exactly the products that do not fit |
| `Settlement.AuthorityBounds` | runtime/economic-authority-contract.js:370-395 | truncating the total to one request loses nothing: per-request maximum times all chargeable requests is the total, within the authorized amount, and is the price of the whole window |
| `Settlement.AuthorityIff` | runtime/economic-authority-contract.js:308-395 | an authority is captured if and only if the policy is well-formed, its requests can be counted, and the route is free or the worst case of all requests together is within the authorized amount |
| `Settlement.PreparedIff` | runtime/governed-provider-request-contract.js:225-253 | a request is prepared if and only if its ordinal, output cap and liability are within the captured maxima |
| `Settlement.BuiltReceiptBalances` | runtime/economic-settlement-receipt-contract.js:294-394 | settled plus unused is reserved, within the per-request maximum, and settled is the full reserve or the sum of each count at its own rate, rounded up, and the fixed charge |
| `Settlement.AcceptedIffIssued` | runtime/economic-settlement-receipt-contract.js:438-546 | a receipt within its per-request maximum is accepted on reading, hash included, if and only if building it again from its own bindings gives the same receipt |
| `Settlement.SettlesIffWithinBounds` | runtime/economic-settlement-receipt-contract.js:327-352 | against a full per-request reserve, settlement succeeds if and only if the usage is within the transmitted bounds |
| `Settlement.TotalNeverExceedsPolicy` | runtime/governed-provider-request-contract.js:225-253 | any set of receipts with distinct ordinals under one authority settles at most the policy's authorized amount |
| `EconomicAccount.SettleReconciles` | persistence/postgres/store.js:4510-4560 | after a settlement everything the journal drew is still held, charged or given back if and only if the receipt splits the row's whole reserve |
| `EconomicAccount.ReleaseReconciles` | persistence/postgres/store.js:4568-4625 | a release gives back exactly what the row held |
| `EconomicAccount.ReserveReconciles` | persistence/postgres/store.js:4075-4210 | a reservation draws exactly what its row holds |
| `EconomicAccount.StartedCanAlwaysSettle` | persistence/postgres/store.js:4408-4450 | no reserve is stranded: a started reservation of a prepared request can always be settled at its maximum |
| `EconomicAccount.ReplaceRow` | persistence/postgres/store.js:4510-4545 | changing one row moves the balances by exactly that row's difference |
| `EconomicAccount.Account.Reserve` | persistence/postgres/store.js:4075-4210 | accepted if and only if the balance stays within the authorized amount and neither the ordinal nor the logical request is spent; the request's whole liability is held and journalled |
| `EconomicAccount.Account.Settle` | persistence/postgres/store.js:4408-4560 | succeeds if and only if the row is started, metered usage has a persisted response, and the row's own captured basis yields a receipt; releases the whole reserve, charges only the receipt, and keeps balance, rows and journal reconciled |
| `EconomicAccount.Account.Release` | persistence/postgres/store.js:4568-4625 | only a row that never started gives its reserve back |
| `FactTransitions.Build` | runtime/governed-fact-transitions.js:55-240 | refuses for the first applicable reason, and otherwise every batch with a recorded reading has its window, whose credited, repeated, unsatisfied and supporting facts and anchor receipt are those the evidence rows determine |
| `FactTransitions.CreditedSomewhere` | runtime/governed-fact-transitions.js:159-190 | an unsatisfied baseline and any satisfied reading earn credit, no later than that reading |
| `FactTransitions.CreditIsPartitioned` | runtime/governed-fact-transitions.js:192-223 | windows share no credited fact and together hold all of them |
| `FactTransitions.LaterEvidenceChangesNothing` | runtime/governed-fact-transitions.js:159-190 | evidence of later batches changes no field of an earlier batch's window |
| `FactTransitions.EarlierWindowsStand` | runtime/governed-fact-transitions.js:159-223 | the windows up to any batch are a common prefix, equal in every field, of the derivations over a history and over any longer one |
| `FactTransitions.Walk` | runtime/governed-fact-transitions.js:159-209 | the window loop credits every fact once, in its first satisfied batch |
| `ProgressWindows.Partition` | runtime/governed-progress-evaluation.js:44-85 | the windows are those of the started reservations in order, and each receipt goes to the first window covering it or to the leftovers, in order, none lost or doubled |
| `ProgressWindows.NothingLost` | runtime/governed-progress-evaluation.js:71-83 | windows and leftovers together hold exactly the given receipts |
| `ProgressWindows.UnassignedIff` | runtime/governed-progress-evaluation.js:71-83 | a receipt belongs to no window if and only if it has no instant or precedes every start, whatever order the starts are in |
| `ProgressWindows.AssignedIsLastStarted` | runtime/governed-progress-evaluation.js:44-85 | with nondecreasing starts a receipt lands in the last window started by its instant |
| `ProgressStreak.Project` | runtime/verified-progress-contract.js:378-399 | the projection loop verifies exactly the declared, not yet satisfied facts some usable receipt claims |
| `ProgressStreak.StreakCounts` | runtime/governed-progress-evaluation.js:191-252 | the counter is the number of windows answered to the Run that no window showing a declared fact for the first time followed |
| `ProgressStreak.Replay` | runtime/governed-progress-evaluation.js:191-252 | the replay loop computes that counter and the latest window's facts |
| `ProgressStreak.UnansweredNeverCounts` | runtime/governed-progress-evaluation.js:126-134 | removing an unanswered or undelivered window without progress, wherever it stands, leaves the counter the same |
| `ProgressSignals.DetectSignals` | runtime/verified-progress-contract.js:271-345 | the pass counts the writes that repeat an earlier write of the same path, those whose path held something else in between, and the longest run of failures or refusals at the end |
| `ProgressDecision.DecideReports` | runtime/churn-decision-contract.js:467-505 | each of the six reasons is reported exactly when it applies and none ranked before it does, said on receipts, windows, clock and policy alone |
| `ProgressDecision.ReportsOnce` | runtime/churn-decision-contract.js:467-505 | no two reports fit the same facts |
| `ProgressDecision.FreshRunContinues` | runtime/churn-decision-contract.js:467-505 | no policy stops a Run that has done nothing yet |
| `ProgressDecision.DurationAbsorbs` | runtime/churn-decision-contract.js:204-221 | for any two evaluations of a Run there is one instant, fixed by epoch and policy, before which neither stops for duration and from which each is blocked |
| `ProgressDecision.Evaluate` | runtime/governed-progress-evaluation.js:142-275 | reports the first reason that applies to the windows the reservations open, continues when none does, and refuses only an unusable policy or a clock that ran backwards |
| `ProgressDecision.CreditCountsIff` | runtime/verified-progress-contract.js:213-251 | a fact the evidence rows credit to a batch counts in a window if and only if that batch's anchor receipt is in the window and usable |
| `ProgressDecision.RefusedAnchorHidesCredit` | runtime/verified-progress-contract.js:224-231 | a concrete batch whose credit is hidden by its refused last receipt |
| `WorkspacePaths.OverlapIff` | runtime/authority-paths.js:65-91 | two owned paths overlap if and only if some path lies inside both, for all raw strings |
| `WorkspacePaths.FormIsLocated` | runtime/authority-paths.js:65-85 | every non-empty ownership form is itself a place that normalization keeps |
| `PlanPaths.AcceptedIsProper` | runtime/allocation-plan-contract.js:163-192 | every accepted path is a normal form of visible, non-climbing segments |
| `PlanPaths.OutputReadsBackIff` | runtime/allocation-plan-contract.js:330-372 | a stored output reads back as itself if and only if it does not start with a slash and no segment starts with a dot |
| `PlanPaths.OwnedReadsBackIff` | runtime/allocation-plan-contract.js:163-196 | an accepted owned path reads back as itself if and only if it is not empty, is trimmed, and no segment starts with a dot |
| `PlanPaths.TrimmedSegmentsReadBack` | runtime/allocation-plan-contract.js:163-200 | paths whose segments carry no edge white space read back unchanged, both kinds |
| `PlanPaths.SpacedOutputChanges` | runtime/allocation-plan-contract.js:330-372 | a concrete output stored without edge white space that still changes when read back |
| `PlanPaths.ClimbingOwnedPathIsAccepted` | runtime/allocation-plan-contract.js:163-196 | a concrete owned path accepted in a form the same rule refuses |
| `PlanScenarios.ClimbingPlanIsUnreadable` | runtime/allocation-plan-contract.js:432-527 | a concrete built plan that the same rules refuse to read |
| `PlanScenarios.PlainPlanIsStable` | runtime/allocation-plan-contract.js:432-527 | a concrete accepted plan with an artifact output that reads back as itself |
| `CanonicalOrder.NoTradingPlaces` | runtime/declared-work-contract.js:103-106 | a step that fixes an element or makes it lighter gives the same list back, up to order, only by fixing every element |
| `CanonicalOrder.SortCanonical` | runtime/declared-work-contract.js:103-106 | sorting by an order without ties forgets the order it was given |
| `AllocationPlan.PlanOrderIndependent` | runtime/allocation-plan-contract.js:432-503 | building a plan is independent of the order of items, owned paths and declarations |
| `PlanReadBack.TrimmedPlanReadsBack` | runtime/allocation-plan-contract.js:505-527 | building is idempotent for every source whose path segments carry no edge white space |
| `PlanReadBack.PlanReadsBackIff` | runtime/allocation-plan-contract.js:330-527 | a built plan is a fixed point of building if and only if every stored path meets the condition of its kind |
| `AllocationPlan.ListOrderIndependent` | runtime/declared-work-contract.js:294-309 | a normalized declaration list does not depend on the order given |
| `AllocationPlan.CheckSiblingOverlap` | runtime/allocation-plan-contract.js:411-430 | the pairwise loop accepts exactly the item lists without an overlap |
| `AllocationPlan.OwnersAreDisjoint` | runtime/allocation-plan-contract.js:411-430 | in every accepted plan no path lies inside the owned paths of two items |
| `AllocationPlan.OutputsBelongToOneItem` | runtime/allocation-plan-contract.js:374-382 | every artifact output lies inside its own item's paths and no other item's |
| `PlanMeaning.PlanAcceptedIff` | runtime/allocation-plan-contract.js:432-503 | a source is accepted if and only if its identities, bounded lists and constraints are in order, every item asks for nothing broader than the parent, and no two items share an id, an agent or a path |
| `PlanMeaning.PlanHolds` | runtime/allocation-plan-contract.js:432-503 | what is built holds every constraint and item of the source once, trimmed and placed, the items by increasing id, none broader than the parent |
| `PlanMeaning.ItemMeans` | runtime/allocation-plan-contract.js:330-409 | an item is accepted if and only if it fits and what would be stored for it is allowed |
| `PlanStorage.WritesPreserve` | runtime/allocation-plan-contract.js:574-673 | any sequence of status writes that succeeds keeps authority, plan hash and provenance |
| `PlanStorage.AcceptedIffEveryItemOnce` | runtime/allocation-plan-contract.js:550-572 | a status list is accepted if and only if it names every item exactly once, in any order |
| `PlanStorage.BuiltStoredWritten` | runtime/allocation-plan-contract.js:505-673 | a built plan can be stored if and only if its stored paths are stable; then any sequence of status writes succeeds if and only if each names every item once, and authority, hash and provenance are still those that were built |
| `PlanStorage.WriteKeepsAuthority` | runtime/allocation-plan-contract.js:611-631 | on a sound row a write succeeds if and only if its statuses name every item exactly once, and then changes nothing but the statuses |
| `PlanStorage.WritesStaySound` | runtime/allocation-plan-contract.js:550-572 | on a sound row a sequence of status writes succeeds if and only if each names every item exactly once, and the row stays sound |
| `EventChain.Verify` | runtime/event-integrity.js:60-122 | `chainValid` if and only if every event has a valid envelope, its own id, its index as seq, the previous stored hash and its own hash; the report holds exactly the faults there are, kind by kind and event by event; the chain up to `lastVerifiedSeq` is valid if and only if every reported error is about a later event |
| `EventChain.VerifiedPrefixIff` | runtime/event-integrity.js:60-122 | the chain up to the last clean event is valid if and only if every error is about a later event |
| `EventChain.LastVerifiedOutlivesABreak` | runtime/event-integrity.js:60-122 | a concrete broken chain whose later event is still named as verified |
| `EventChain.LastHashDeterminesChain` | runtime/event-integrity.js:39-58 | two valid chains with the same last hash have equal length and equal events |
| `EventChain.ValidSubsequenceIsPrefix` | runtime/event-integrity.js:60-122 | a valid subsequence of a valid chain is a prefix |
| `CompletionMeaning.ExecutionIff` | runtime/completion-decision-contract.js:656-717 | every execution disposition if and only if its durable cause, among failure codes, event kinds and status, exists and no stronger one does |
| `CompletionMeaning.CompletedIff` | runtime/completion-decision-contract.js:892-994 | `completed` if and only if the Run ran to its end, every receipt has exactly its evidence, no violation or contradiction exists, every postcondition holds by the evidence, and there was one or the objective has its own evidence |
| `CompletionMeaning.ReasonIff` | runtime/completion-decision-contract.js:892-994 | every other reason if and only if its own condition on Run, events and receipts holds |
| `CompletionMeaning.RelevantEvidenceIs` | runtime/completion-decision-contract.js:404-430 | what is hashed is every relevant event once, without its timestamp, in canonical order |
| `CompletionDecision.ReorderingChangesNothing` | runtime/completion-decision-contract.js:892-994 | reordering the events changes no disposition, reason or hashed evidence |
| `CompletionDecision.EvidenceOrderIndependent` | runtime/completion-decision-contract.js:404-430 | the evidence that is hashed does not depend on the order of the events |
| `CompletionDecision.ExecutionOrderIndependent` | runtime/completion-decision-contract.js:656-717 | the execution disposition does not depend on the order of the events |
| `CompletionDecision.ProcessIssues` | runtime/completion-decision-contract.js:807-867 | the integrity loop is silent exactly when each receipt has exactly the evidence it claims, and reports something missing exactly when it is |
| `FrameCodec.AnySplitDecodes` | runtime/process-launcher-foundation-client.js:202-281 | every payload within the ceiling, however its frame is split into chunks, is decoded exactly |
| `FrameCodec.PartialFrameWaits` | runtime/process-launcher-foundation-client.js:234-267 | every proper prefix, in any chunks, leaves the decoder unsettled |
| `FrameCodec.TrailingRefused` | runtime/process-launcher-foundation-client.js:251-258 | extra bytes in the completing chunk are refused; in a later chunk they are not seen |
| `FrameCodec.BadSizeRefused` | runtime/process-launcher-foundation-client.js:234-250 | a header announcing nothing or more than the ceiling is refused, however it arrives and whatever follows |
| `FrameCodec.DecodedWasSent` | runtime/process-launcher-foundation-client.js:234-267 | a decoded payload's own frame is exactly what the chunks up to some point add up to |
| `FrameCodec.WriteLength` | runtime/process-launcher-foundation-client.js:46-58 | the length prefix reads back as the length |
| `FrameCodec.FrameReader.OnData` | runtime/process-launcher-foundation-client.js:234-267 | the in-place handler does exactly what the specification does with each chunk |
| `MutationAdmission.Controller.TryAcquire` | runtime/mutation-admission.js:41-57 | granted exactly when open, in size and within both limits; with the derived byte limit an in-size request is refused if and only if all slots are taken; a fresh token never equals an earlier one |
| `MutationAdmission.Controller.Release` | runtime/mutation-admission.js:59-66 | gives back exactly a live token and clears every waiter; a second release changes nothing |
| `MutationAdmission.Controller.WaitForChange` | runtime/mutation-admission.js:68-71 | waits only for a change that has not happened yet |
| `MutationAdmission.FreeSlotHasRoom` | runtime/mutation-admission.js:10-19 | with a derived byte limit a free slot always has room for one more in-size request |
| `MutationAdmission.BytesRemove` | runtime/mutation-admission.js:59-66 | the byte sum of the live tokens drops by exactly the released token |
| `MutationAdmission.ResolvedOptions` | runtime/mutation-admission.js:3-19 | every limit is the configured positive integer or its default, and the byte limit defaults to every slot at its largest |

## Left out

- The planner orchestration has no class of its own: its callers are steps of the same dispatch protocol (`GovernedDispatch`), with the planner's start, persistence and settlement rules.
- `cancelRunOperations` has no method in the controller class: its locked part is the `CancelBegin` and `CancelQuery` points of the protocol, its unlocked part the `Cancel` event.
- Polling intervals, observation deadlines and lease heartbeats: observation ends when the launcher reports a terminal status or the controller gives up.
- `compactEligibleLauncherOperations` as a loop over candidates: each candidate is one `CompactEntry` event.
- ProcessRuns.CompactionGateOpens: does not model the launcher refusing a compaction because its tombstone registry is full; that capacity is kept by the native launcher, outside the durable facts modelled here.
- Several operations of one Run: the lock, the row and the launcher entry are per operation, so one operation is modelled.
- A mismatch between the bytes, target or hashes captured at preparation and at dispatch (`dispatchGovernedRequest` drift refusals): the caller throws, which is a crash of that caller.
- Pricing catalogs, route capture and adapter capabilities: an authority is built from one pricing entry and one model snapshot.
- Hash fields of policies, authorities and prepared requests (a receipt's own hash is modelled): equality of the captured values stands for equality of their hashes.
- The sorted presentation of fact lists inside a window: they are sets.
- `inspection_only_streak` and `resource_growth_without_progress`: signals that never decide.
- Draft plans (`materializeAllocationPlanV2Draft`): the same rules with provisional item ids.
- Canonical JSON of typed criteria and the snapshot normaliser of the parent's declared work: the parent is taken as already canonical.
- FactTransitions.Build: batch step ids are numbers rather than their decimal strings.
- Direct file criteria (`postcondition-criterion-evaluator.js`) and objective path extraction: their verdicts are inputs of the completion decision.
- Socket errors, timeouts and response parsing in the launcher client: the decoder covers the `data` handler only.
- The metrics snapshot of the admission controller: a projection of the modelled counters.
