# Verification of the unattended-action protocol and its neighbours

These Dafny modules model five parts of the system and prove what they are for:

* **the unattended-action protocol** — scheduled and reply tasks that act on a user's account
  without the user present.  A task is queued, leased to a worker, generated, dispatched under
  a rotating permit, and ended; an audit row records the external action; a daily ledger limits
  how much happens; a policy row can be changed or halted at any time; a recovery sweep closes
  what dead workers left behind;
* **the style sampler**, which picks messages for a writing profile without letting one contact
  dominate;
* **the two in-process coordinators**, one serialising presence callbacks per account, one
  bounding profile lookups;
* **the cutover readiness report**, one loop with many counters;
* **the budgeted redactor** of raw payloads, with what it hides and what it keeps.

Run `dafny verify dfyconfig.toml` in this directory.

## How the protocol is modelled

`Transitions` holds the row values (task, audit row, ledger row; the policy row is in
`Policies`) and the effect of every repository transaction on the rows it locks.
`Repositories` performs the same transactions on mutable row objects, statement by statement,
and each method is proved to leave exactly the values the transition functions describe.
`Protocol` is the transition system: 25 events, each one committed transaction, one local
decision of a worker, a crash, or an action of another party (user, administrator, scheduler,
recovery sweep).  Every event carries its own clock reading, so clocks need not agree or move
forward.  `lock_dispatch_permit` keeps its row locks through the side effect, so the final gate,
the external action and its record are one event, with one variant in which the action happened
and the transaction was rolled back, and one in which it committed although the worker was told
otherwise.  A history that no transaction reads keeps the log of external actions, the policy
content each task was created under, the permits, the reservations, the refunds and the actions
whose record was lost.

`Invariant` states what every reachable state satisfies; `Frames`, `Endings`, `EndSteps`,
`DispatchSteps`, `ActionSteps` and `Runs` prove that every event keeps it; `Progress` says what
one event may do to a row that already exists.  The theorems over whole runs are in `Safety`,
`Budgets`, `Fencing`, `Streaks`, `Recovery`, `Charges`, `Authorization`, `Leases` and
`Dispatching`; `Witnesses` holds concrete runs that reach what they speak about.  `EndRules`,
`Configuration` and those modules also say of every decision exactly when it is taken, by
column, task type and literal limit.  A run is any finite sequence of events from an empty store.

Rows are named by their unique constraints (owner and idempotency key for tasks; owner, action
and key for audit rows), hashes are taken to be injective, times are integers in seconds, a time
zone is a fixed offset, and the provider, the model and all rows that the protocol only reads
are nondeterministic.

Three findings about the code:

* The comment at `bbw_agent/autonomous.py:1350` says reservations are never released.  The code
  releases them for retryable known failures; the model follows the code.
* "At most four claims unless a worker crashes" does not hold: a holder that is merely slower
  than its lease is enough (`Witnesses.FiveClaimsWithoutCrash`).  `Fencing.FourClaims` gives the
  exact condition: a fifth claim happens exactly when a lease expires under the fourth holder and
  is taken over.
* The redactor does not always hide secrets in JSON embedded in a text: text longer than 256,000
  characters, or nested at depth 19, is not looked into and shows them, up to the 200,000
  characters that are kept (`Redaction.LongEmbeddedSecretShows`).
  `Redaction.EmbeddedSecretsAreHiddenExactlyWhen` gives the exact condition.

## Model

| member | source | states |
|---|---|---|
| `Safety.AtMostOneAction` | bbw_agent/runtime.py:1699-1850 | over every run, no task's external action is performed twice |
| `Safety.ActionsAreAuthorized` | bbw_agent/repositories.py:3457-3615 | every external action was performed by one step of the run, on the tables that step found: task dispatching under its permit, own audit row bound and running, owner granted access, unhalted, below the failure limit, policy version current and content equal to the one the task was created under, active hours, and every version, connection, target and source check passed |
| `Authorization.EveryActionWasGranted` | bbw_agent/repositories.py:3238-3369 | every action of every run found, column by column: the three system switches on, the user active, not disabled and with three grants, agent, execution row and policy enabled, the connection enabled, keyed and tested, nothing drifted, no halt, the action allowed in both rows, its feature on, its own audit row running, the local minute inside the hours |
| `Authorization.AccessIsRevokedExactlyWhen` | bbw_agent/repositories.py:3250-3281 | the gate answers that access is revoked if and only if one of these rows is missing, one of these columns is off, or a private message lacks auto-send |
| `Authorization.GateDecides` | bbw_agent/repositories.py:3282-3369 | each other answer of the gate, exactly when its own reason holds and no earlier one does |
| `Authorization.ActionOfEachType` | bbw_agent/autonomous.py:1072-1084 | which action a task of each type performs |
| `Authorization.FinalGateExactlyWhen` | bbw_agent/repositories.py:3457-3615 | the final gate passes if and only if the reservation's gate would, the permit and the running audit row of this snapshot are the task's, the post repeats nothing, the conversation is unchanged, and it is inside the hours |
| `Authorization.ActiveIsWithinHours` | bbw_agent/repositories.py:3588-3598 | the active check is the clock distance from the first active minute |
| `Authorization.PreflightAgreesWithGate` | bbw_agent/autonomous.py:1920-2035 | the worker's own checks let through exactly what the gate lets through, except for the four things their snapshot does not show |
| `Authorization.PreflightDecides` | bbw_agent/autonomous.py:1920-2035 | each reason to stop before generating, in order, with its code; a post waits for its time and is too late after an hour |
| `Authorization.SnapshotExistsExactlyWhen` | bbw_agent/runtime.py:450-639 | a stored row gives a policy snapshot if and only if the rows it also needs are there with positive versions |
| `Authorization.SnapshotIsBounded` | bbw_agent/runtime.py:450-639 | every accepted snapshot is within its limits, and every feature it enables has its action |
| `Authorization.InspectionProceedsExactly` | bbw_agent/autonomous.py:1595-1675 | a worker goes on if and only if it is at most the third attempt, its checks pass, it is inside the hours and the conversation has not moved on; a fourth attempt ends the task |
| `Safety.DispatchedIsNeverClaimable` | bbw_agent/repositories.py:2699-2745 | a task that reached dispatching is never claimable again at any later point, by any clock |
| `Safety.NothingIsUndone` | bbw_agent/repositories.py:3686-3741 | over any stretch of a run an ended row is frozen; a dispatched task stays dispatched under its permit until it ends, never cancelled; attempts never fall; reservation and link stay |
| `Safety.EndsAgree` | bbw_agent/repositories.py:3742-3988 | an ended task's audit row is neither queued, running nor cancelled and agrees with the task's status, code and result; manual review holds exactly when the outcome is unknown; an ended dispatch without an audit row reads failed |
| `Safety.PerformedIsNeverCancelled` | bbw_agent/repositories.py:3742-3988 | a task whose action was performed never ends cancelled, and reads succeeded only if its audit row does |
| `Safety.LostRecordEndsInReview` | bbw_agent/runtime.py:1823-1850 | if the action was performed and its record was lost, the task is still dispatching or in manual review with an unknown outcome |
| `Safety.UnknownOutcomeStopsTheOwner` | bbw_agent/repositories.py:3998-4055 | the step that ends a dispatched task in manual review counts a failure, halts the owner, clears the next run and tallies the day; afterwards nothing is performed for that owner until they configure again |
| `Safety.HaltedOwnerStaysSilent` | bbw_agent/repositories.py:3302-3305 | while an owner is halted, no run without a configuration performs anything for them |
| `Safety.VersionsDenoteContent` | bbw_agent/repositories.py:1938-1953 | over any stretch of a run a policy version never goes back, and equal versions carry equal content |
| `Safety.EveryStateIsSound` | bbw_agent/repositories.py:2647-4338 | every reachable state satisfies the whole invariant |
| `Safety.QueuedRowsAreUserOwned` | bbw_agent/repositories.py:3783-3819 | in every reachable state a queued audit row never belongs to an unattended task, so the queued branch of ending a task is dead |
| `Safety.PreparingNeverReuses` | bbw_agent/repositories.py:3371-3455 | in every reachable state preparing creates, links and starts a new audit row: the reuse, re-entry and conflict branches are dead |
| `Safety.OneWorkerPerPermit` | bbw_agent/repositories.py:3457-3505 | in every reachable state no two workers are past the reservation of the same task |
| `Endings.SweepIsFinish` | bbw_agent/repositories.py:4136-4338 | for every dispatched task and every state of its audit row, the sweep writes exactly the rows that `finish_task` writes for the matching non-retryable completion, and raises in the same cases |
| `Endings.EndAgreesWithAudit` | bbw_agent/repositories.py:3773-3988 | whatever a worker asks for, the end of a bound and started dispatch agrees with its audit row or goes to manual review |
| `Endings.SucceedsExactlyWhen` | bbw_agent/repositories.py:3742-3988 | a dispatched task ends succeeded if and only if success was asked for and the bound audit row is running or succeeded |
| `Endings.UnknownEndHalts` | bbw_agent/repositories.py:3998-4055 | every unknown end halts the owner, adds one failure to the streak and one to each day counter, and refunds nothing |
| `Endings.RefundOnlyForKnownFailure` | bbw_agent/repositories.py:3989-4055 | the ledger falls only for a retryable completion that stayed a known failure under its own code, by one in total and in its category, and the streak then does not grow |
| `EndRules.UnlinkedDispatchFails` | bbw_agent/repositories.py:3757-3771 | a dispatch without an audit row fails, under the requested code or its own |
| `EndRules.ForeignAuditIsReviewed` | bbw_agent/repositories.py:3742-3782 | a missing audit row, or one with any foreign column, goes to review |
| `EndRules.RunningAuditIsClosed` | bbw_agent/repositories.py:3820-3905 | a running audit row is closed with what was asked for, and the task reads the same |
| `EndRules.EndedAuditDecides` | bbw_agent/repositories.py:3906-3988 | an ended audit row is never written again; the task reads what it says or goes to review |
| `EndRules.QueuedAuditIsCancelled` | bbw_agent/repositories.py:3783-3819 | a queued audit row is cancelled, and what the task then reads |
| `EndRules.EndMovesStreak` | bbw_agent/repositories.py:3998-4023 | the failure streak is cleared by a success, one more after a failure or review that may not be retried, otherwise unchanged; and this end halts the owner if and only if it is unknown, or not retried with the streak at the limit |
| `EndRules.EndMovesSchedule` | bbw_agent/repositories.py:3660-3685 | the last run, the one success stamp of the type, and the next run of a retry; content and version stay |
| `EndRules.EndMovesTask` | bbw_agent/repositories.py:3989-3997 | the verdict is stored, the lease given up, everything earlier kept |
| `Streaks.EveryEndMovesTheStreak` | bbw_agent/repositories.py:3998-4023 | over every run, each end of a dispatched task, by completion or sweep, moves its owner's streak and halt by what the task reads |
| `Streaks.EarlyEndMovesTheStreak` | bbw_agent/repositories.py:3998-4023 | over every run, an end before dispatch reads as asked; only a failure counts, and it halts at the limit |
| `Streaks.StreakAtLimitIsHalted` | bbw_agent/repositories.py:4012-4023 | in every reachable state an owner whose streak has reached the limit is halted |
| `Safety.SweepAgreesWithCompletion` | bbw_agent/repositories.py:4136-4338 | in every reachable state the sweep of a task is the end that the matching valid, non-retryable completion writes, in review when the record was lost |
| `Recovery.SweepEndsExactly` | bbw_agent/repositories.py:4136-4338 | over every run the sweep touches a task if and only if it was dispatched strictly before the cutoff and has not ended; the task then ends and reads what its audit row says; every other task stays |
| `Recovery.LiveDispatchIsLeftAlone` | bbw_agent/repositories.py:4143-4175 | a dispatch at or after the cutoff is never swept |
| `Dispatching.ActRecordsTheAnswer` | bbw_agent/runtime.py:1757-1822 | acting is logged exactly when the final gate holds, and recorded as the provider answered |
| `Dispatching.RefusedActFails` | bbw_agent/runtime.py:1747-1756 | when the gate refuses nothing is performed and the audit row fails under its own code |
| `Dispatching.GateFailureIsKept` | bbw_agent/runtime.py:1823-1850 | a failure before the action is left to the recording step |
| `Dispatching.RecordingCloses` | bbw_agent/runtime.py:1852-1880 | the recording step closes exactly an audit row that is still running |
| `Dispatching.EscapeIsUnknown` | bbw_agent/autonomous.py:1842-1858 | an exception that escapes the dispatcher is an unknown outcome |
| `Dispatching.PreparingStartsTheAudit` | bbw_agent/repositories.py:3371-3455 | in every reachable state preparing creates the running audit row and links it, or stores nothing when lost |
| `Dispatching.StalePermitPreparesNothing` | bbw_agent/repositories.py:3371-3395 | without the permit nothing is stored |
| `Dispatching.ConflictStoresNothing` | bbw_agent/repositories.py:3405-3440 | an audit row for another account, version or snapshot is refused |
| `Dispatching.ReuseNeverRestarts` | bbw_agent/repositories.py:3425-3455 | an audit row that has run is never started again |
| `Dispatching.ReuseDecides` | bbw_agent/runtime.py:1709-1739 | a worker acts exactly on a row it started itself |
| `Dispatching.CompletionsByOutcome` | bbw_agent/autonomous.py:1859-1915 | what is asked for after each outcome; a retry after five minutes for one code only |
| `Dispatching.CompletionEnds` | bbw_agent/repositories.py:3686-3997 | the holder of the permit ends its task as completion and audit row resolve |
| `Dispatching.AnswerDecidesTheEnd` | bbw_agent/runtime.py:1740-1822 | over every run: once the gate has passed and the answer is recorded, the task ends as the provider answered, refunded exactly when discovery was unavailable |
| `Dispatching.LostReportEndsInReview` | bbw_agent/runtime.py:1823-1850 | over every run: when the worker is told that the record was lost, the task ends in review, whether it was lost or not |
| `Dispatching.ExpiryReviewsRunningAudit` | bbw_agent/repositories.py:880-935 | expiring takes exactly running audit rows to review |
| `Dispatching.CancellingTakesQueuedAudit` | bbw_agent/repositories.py:1039-1060 | cancelling takes exactly queued audit rows |
| `Dispatching.UsersLeaveTasksAlone` | bbw_agent/repositories.py:807-955 | the user-driven path never writes a task's audit row |
| `EndSteps.ReservationIsHeld` | bbw_agent/repositories.py:191-220 | the ledger holds the reservation of every dispatching task, in total and in its category |
| `Progress.StepOnward` | bbw_agent/repositories.py:2647-4338 | one event changes a stored task only onward: only a claim is counted, ends are final, tokens are kept, cleared or new |
| `Progress.StepPolicies` | bbw_agent/repositories.py:1780-2043 | one event moves a policy version only forward with its content, and lifts a halt only by configuring |
| `Progress.StepLog` | bbw_agent/runtime.py:1740-1822 | one event adds at most one external action, with the tables it saw, for an owner who is not halted |
| `Budgets.LedgerIsConserved` | bbw_agent/repositories.py:3194-3231 | per owner and day the total is the sum of the six categories and the number of tasks reserved and not refunded; every category, the failures and the unknown outcomes count exactly their tasks |
| `Budgets.OnlyKnownFailuresAreRefunded` | bbw_agent/autonomous.py:1892-1906 | a refunded task is a known failure with the retryable code |
| `Budgets.TotalFallsOnlyByOneRefund` | bbw_agent/repositories.py:202-220 | a day's total falls only when one task never refunded before is refunded, by exactly one |
| `Budgets.ReservationsRespectLimits` | bbw_agent/repositories.py:3191-3236 | a reservation was below both limits of the policy content in force and far enough from the previous one, and moves total and category by exactly one |
| `Budgets.CompletionNeverRaises` | bbw_agent/repositories.py:4029-4055 | the errors for a disagreeing budget day, a missing ledger row and an unreserved refund are unreachable when a worker ends a task |
| `Budgets.SweepNeverRaises` | bbw_agent/repositories.py:4316-4335 | the same for the recovery sweep |
| `Budgets.EndFindsStartedAudit` | bbw_agent/repositories.py:3742-3813 | ending a linked dispatch always finds its own started audit row: the mismatch and still-queued branches are dead |
| `Budgets.ActionsAreSpaced` | bbw_agent/repositories.py:3207-3223 | successive reservations of one owner are at least the later one's interval apart, whatever the clocks say |
| `Budgets.SlotsAreDispatches` | bbw_agent/repositories.py:3218-3230 | every dispatched task is one of its owner's recorded reservations, at its own time |
| `Budgets.WindowIsBounded` | bbw_agent/repositories.py:3207-3223 | with interval I at most (b - a) / I + 1 reservations fall in any window from a to b |
| `Charges.ReservationDecides` | bbw_agent/repositories.py:3191-3223 | a reservation that passes the gate is refused for budget if and only if the total or the one ledger column of its task type is at its limit, for spacing if and only if it is not and the interval is not over, and is allowed otherwise |
| `Charges.ReservationRefuses` | bbw_agent/repositories.py:3144-3190 | before that: lease, gate and source, in this order |
| `Charges.AllowedReservationCharges` | bbw_agent/repositories.py:3224-3236 | an allowed reservation raises the total and the one column of its type by one and leaves the other five, for each of the nine types |
| `Charges.RefusalMovesWorker` | bbw_agent/autonomous.py:2043-2087 | what a refused worker does next, with its code; and the ledger row is created exactly when the budget was looked at |
| `Charges.EndMovesLedger` | bbw_agent/repositories.py:4029-4055 | an end gives back exactly what was charged, only to a retry, and counts failures and reviews |
| `Charges.ReadyWorkersUseTheLimits` | bbw_agent/autonomous.py:1802-1836 | in every reachable state a ready worker asks under the limits of its task's own policy content, on the owner's local day |
| `Charges.ColumnsAreConserved` | bbw_agent/repositories.py:163-189 | in every reachable state each of the six columns is the number of charged tasks of its own types |
| `Charges.DaysAreCapped` | bbw_agent/repositories.py:3191-3216 | whatever is configured and however often, no day of any run has more than 200 charged tasks, 8 browses or 6 match requests |
| `Fencing.StaleTokenStaysStale` | bbw_agent/repositories.py:2686-2697 | a token replaced by a claim, a permit or an end never becomes current again |
| `Fencing.FencedWorkerIsPowerless` | bbw_agent/repositories.py:2840-2913 | a worker whose token was replaced changes no row and performs no action: it cannot generate, renew, defer, dispatch, prepare, act, record or finish |
| `Fencing.GenerationIsBounded` | bbw_agent/autonomous.py:1613-1622 | generation and dispatch happen only on attempts one to three |
| `Fencing.FourClaims` | bbw_agent/repositories.py:2699-2745 | no task is claimed more than four times if and only if no lease expired under a fourth holder and was taken over |
| `Fencing.ClaimsBeyondFourAreTakeOvers` | bbw_agent/repositories.py:2699-2745 | a task is claimed at most four times plus once for every expired lease that was taken over, however often it is deferred |
| `Leases.ClaimTakesExactly` | bbw_agent/repositories.py:2699-2745 | a claim takes effect exactly on due work or an expired lease, and what it writes |
| `Leases.HeldIsNeverTaken` | bbw_agent/repositories.py:2699-2745 | no claim takes a live lease, work that is not due, a dispatch or an ended task |
| `Leases.GenerationBeginsExactly` | bbw_agent/repositories.py:2840-2862 | generation begins exactly for the holder of a live, not yet used lease on one of the four text types |
| `Leases.RenewalHoldsExactly` | bbw_agent/repositories.py:2864-2882 | a renewal moves the end of the lease exactly for its live holder |
| `Leases.DraftIsFresh` | bbw_agent/autonomous.py:1735-1800 | after generation a worker waits for quiet hours, drops a message whose conversation moved on or a post that is late, each with its code, and goes on otherwise |
| `Leases.FailedDraftEnds` | bbw_agent/autonomous.py:2089-2113 | a failed draft ends as stale for the three reasons not to send, and as failed for any other |
| `Leases.CrashForgets` | bbw_agent/autonomous.py:1595-1612 | a crash changes nothing that is stored |
| `Leases.DeferralReleasesExactly` | bbw_agent/repositories.py:2884-2913 | deferring needs the token and an undispatched status, not a live lease, and gives the lease up |
| `Leases.CancellationWithdrawsExactly` | bbw_agent/repositories.py:4105-4134 | cancelling withdraws exactly undispatched work |
| `Leases.EnqueueStoresExactly` | bbw_agent/repositories.py:2324-2400 | a task is stored exactly when it is well formed, new and made under the current policy version |
| `Leases.StoredTasksAreChecked` | bbw_agent/autonomous.py:1040-1112 | in every reachable state every task has a key of 8 to 160 characters, a contact, a source and a time exactly where its type needs them |
| `Leases.CreationIsOff` | bbw_agent/repositories.py:1740-1778 | an owner's row is created once, with everything off |
| `Leases.ConfiguringTouchesOneRow` | bbw_agent/repositories.py:1780-1953 | configuring stores that owner's row if the request is accepted and nothing otherwise |
| `Leases.DisablingTouchesOneRow` | bbw_agent/repositories.py:1955-1998 | disabling touches that owner's row only |
| `Leases.SchedulingTouchesOneRow` | bbw_web/jobs.py:3430-3490 | the scheduler's halts and ticks touch that owner's schedule only |
| `Witnesses.FiveClaimsWithoutCrash` | bbw_agent/repositories.py:2699-2838 | a concrete run without a crash in which a task is claimed five times, each time when the scheduler's prefilter offers it |
| `Witnesses.SomeRunSucceeds` | bbw_agent/runtime.py:1699-1850 | a concrete run from the empty store that performs an action, records it and ends succeeded |
| `Witnesses.SomeRecordIsLost` | bbw_agent/runtime.py:1823-1850 | a concrete run whose one action is performed while its record is lost: the task ends in manual review and the owner is halted |
| `Policies.ConfigureKeepsRowSound` | bbw_agent/repositories.py:1839-1902 | what `configure` accepts keeps the row within its limits |
| `Policies.ConfigureVersions` | bbw_agent/repositories.py:1903-1953 | configuring moves the version exactly when content changes, lifts any halt and clears the streak |
| `Policies.ConfiguredPolicyIsAccepted` | bbw_agent/runtime.py:450-639 | every row that `configure` stores translates into a policy that passes validation, given the other rows with positive versions |
| `Policies.LimitsAgree` | bbw_agent/repositories.py:223-238 | the policy's limit for each task type is the repository's category limit, and total, interval, zone and version are the row's |
| `Policies.QuietIsInactive` | bbw_agent/repositories.py:3588-3598 | quiet hours are exactly the complement of the dispatch-time active check |
| `Policies.QuietEndIsLeast` | bbw_agent/autonomous.py:1498-1524 | `quiet_window_end` is the least later instant outside quiet hours |
| `Configuration.AcceptedExactlyWhen` | bbw_agent/repositories.py:1804-1902 | a submitted policy is accepted if and only if it is within its limits and, when enabled, some capability is on and each one that is has its action and its budget |
| `Configuration.StoredAsSubmitted` | bbw_agent/repositories.py:1903-1941 | what is stored: nothing on for a disabled owner, the reply watermark kept while replies stay on, lists without repeats, the rest as submitted |
| `Configuration.RepeatsKeepOrder` | bbw_agent/repositories.py:122-135 | lists keep the order of first appearance |
| `Configuration.MinutesColumn` | bbw_agent/repositories.py:1844-1848 | the minutes column rounds up within its bounds |
| `Configuration.ConfigureStores` | bbw_agent/repositories.py:1937-1953 | the version, streak, halt and next run after configuring; nothing else moves |
| `Configuration.DisableSwitchesOff` | bbw_agent/repositories.py:1955-1998 | disabling acts exactly on an owner for whom anything is on, and leaves nothing on |
| `Repositories.ExecutionRow.Start` | bbw_agent/repositories.py:956-970 | only a queued audit row starts, with the stated new row |
| `Repositories.ExecutionRow.Succeed` | bbw_agent/repositories.py:972-991 | only a running audit row succeeds |
| `Repositories.ExecutionRow.Fail` | bbw_agent/repositories.py:993-1014 | only a running audit row fails |
| `Repositories.ExecutionRow.MarkOutcomeUnknown` | bbw_agent/repositories.py:1016-1037 | only a running audit row becomes unknown |
| `Repositories.ExecutionRow.CancelQueued` | bbw_agent/repositories.py:1039-1060 | only a queued audit row is cancelled |
| `Repositories.UsageRow.Refund` | bbw_agent/repositories.py:202-220 | gives one reservation back, or refuses when there is none |
| `Repositories.SettingRow.Configure` | bbw_agent/repositories.py:1780-1953 | leaves the row that the configuration function describes, or reports the first broken rule and changes nothing |
| `Repositories.SettingRow.DisableForOwner` | bbw_agent/repositories.py:1955-1998 | switches everything off and halts exactly when something was on |
| `Repositories.TaskRow.Claim` | bbw_agent/repositories.py:2699-2745 | takes exactly the claimable rows and leaves the claimed row |
| `Repositories.TaskRow.BeginGeneration` | bbw_agent/repositories.py:2840-2862 | succeeds exactly for the holder of a live lease that has not begun |
| `Repositories.TaskRow.RenewLease` | bbw_agent/repositories.py:2864-2882 | succeeds exactly for the holder of a live lease |
| `Repositories.TaskRow.Defer` | bbw_agent/repositories.py:2884-2913 | succeeds exactly for the token on undispatched work, and gives the lease up |
| `Repositories.TaskRow.CancelNotStarted` | bbw_agent/repositories.py:4105-4134 | withdraws exactly work that was not dispatched |
| `Repositories.BeginDispatch` | bbw_agent/repositories.py:3144-3236 | on mutable rows: task, policy and ledger rows end as the reservation decides, or stay as they were with its reason |
| `Repositories.PrepareActionExecution` | bbw_agent/repositories.py:3371-3455 | on mutable rows: the audit row is created or reused, linked and started once, or the permit or snapshot refuses |
| `Repositories.FinishTask` | bbw_agent/repositories.py:3686-4057 | on mutable rows and with every branch of the code: task, audit, policy and ledger rows end as the ending function says, and it raises exactly when that does |
| `Repositories.MarkExpiredDispatch` | bbw_agent/repositories.py:4170-4336 | on mutable rows: one task of the sweep ends as the sweep function says |
| `Scheduling.DueTaskIds` | bbw_agent/repositories.py:2747-2838 | selects exactly the first eligible task of every owner, cut at the limit clamped to 1..50 |
| `Scheduling.FirstPerOwnerIsFair` | bbw_agent/repositories.py:2812-2838 | at most one task per owner, only eligible ones, and no owner with an eligible task is passed over |
| `Scheduling.EligibleIsNotRefused` | bbw_agent/repositories.py:3194-3216 | a task the prefilter finds eligible is not refused for budget or spacing by a reservation in the same state and instant |
| `Scheduling.EligibleIsAllowed` | bbw_agent/repositories.py:2812-2838 | a reservation in the same state and instant that passes the gate is allowed if and only if the prefilter finds the task eligible |
| `Scheduling.EligibleExactlyWhen` | bbw_agent/repositories.py:2812-2838 | the prefilter's conditions by ledger column |
| `Scheduling.QueriedExactlyWhen` | bbw_agent/repositories.py:2753-2790 | the query returns exactly due work of enabled owners who are not halted |
| `RoundRobin.RoundRobinTake` | bbw_agent/style_sampling.py:100-126 | every contact contributes the next stretch of its own bucket, turn by turn in contact order; no contact passes its cap; the pass stops only at its target or when every contact is spent; a contact two or more behind another, or one behind a later one, is spent |
| `RoundRobin.OnlyOneOutcome` | bbw_agent/style_sampling.py:100-126 | these guarantees leave nothing open: from given buckets, offsets and samples exactly one list can be added, with exactly one offset per contact |
| `StyleSampling.GroupCandidates` | bbw_agent/style_sampling.py:142-167 | the buckets hold for every contact the first kept messages of each class, repeats dropped, in order |
| `StyleSampling.DrawSamples` | bbw_agent/style_sampling.py:169-213 | the samples are those of the three passes with their targets, each with every guarantee of a pass; so at most the maximum, at most the cap per contact, each contact's long and short items are prefixes of what was kept, none taken twice, short ones at most a fifth, and short of the maximum only when no contact has a long message left to give |
| `StyleSampling.SamplesAreBalanced` | bbw_agent/style_sampling.py:169-213 | any way of carrying out the three passes gives a sample with those bounds |
| `StyleSampling.SamplesAreDetermined` | bbw_agent/style_sampling.py:129-213 | the same candidates and limits always give the same samples in the same order |
| `StyleSampling.StratifiedStyleSamples` | bbw_agent/style_sampling.py:129-242 | for any candidates and limits: what is judged are the samples of the three passes over the grouped candidates; the quota error is dead, each refusal happens exactly for its reason, and a returned selection is those samples with the counted contacts, the latest time, no dominating contact, and a profile that is current |
| `StyleSampling.NeverTwice` | bbw_agent/style_sampling.py:142-167 | no text is sampled twice |
| `StyleSampling.SelectionInNumbers` | bbw_agent/style_sampling.py:129-242 | 8 to 100 samples of at least 8 contacts, no contact above ten or 15 in 100, at most one in five short, whatever was asked for |
| `StyleSampling.PassesInNumbers` | bbw_agent/style_sampling.py:176-213 | the targets of the three passes, and that a pass falls short only when every contact is spent |
| `StyleSampling.RefusalInNumbers` | bbw_agent/style_sampling.py:214-232 | each refusal exactly for its numbers |
| `StyleSampling.CurrentExactlyWhen` | bbw_agent/style_sampling.py:243-262 | when a stored profile counts as current |
| `StyleSampling.KeptIsFirst` | bbw_agent/style_sampling.py:145-155 | every usable candidate is kept unless an earlier one has its key |
| `StyleSampling.KeptGrows` | bbw_agent/style_sampling.py:145-155 | the kept ones are in order |
| `StyleSampling.OrderGrows` | bbw_agent/style_sampling.py:156-160 | contacts are in the order of first appearance |
| `StyleSampling.ClassIsComplete` | bbw_agent/style_sampling.py:161-167 | a contact's messages of a class are all of them |
| `Presence.PresenceCoordinator.Submit` | bbw_web/interactive.py:154-182 | on mutable fields: the submission function, including the executor's refusal |
| `Presence.PresenceCoordinator.TakeNext` | bbw_web/interactive.py:184-198 | on mutable fields: the locked part of the drain |
| `Presence.PresenceCoordinator.Close` | bbw_web/interactive.py:208-215 | on mutable fields: closing clears every backlog |
| `Presence.OneDrainPerAccount` | bbw_web/interactive.py:154-206 | in every open reachable state an account has a state exactly while one drain, and only one, is scheduled or running for it |
| `Presence.CallbacksNeverOverlap` | bbw_web/interactive.py:184-206 | two callbacks of one account never run at the same time, closed or not |
| `Presence.NoWakeUpIsLost` | bbw_web/interactive.py:154-215 | every accepted submission is done, running, replaced by a later one of the same operation, discarded by close, or waiting with exactly one drain on its way |
| `Presence.RefusedSubmissionLeavesNoTrace` | bbw_web/interactive.py:160-182 | a refused submission changes nothing in any reachable state |
| `Presence.BacklogIsRun` | bbw_web/interactive.py:184-206 | left alone, a drain runs the whole backlog of its account, and every waiting ticket is done |
| `Presence.SubmissionDecides` | bbw_web/interactive.py:154-182 | over every run, when a submission is refused, joins a drain or schedules one |
| `Presence.BacklogIsAQueue` | bbw_web/interactive.py:154-215 | over every run the backlog of an account is a queue in which a repeated operation keeps its place |
| `ProfileLookups.ProfileLookupCoordinator.Future` | bbw_web/interactive.py:51-73 | on mutable fields: join the flight, refuse, give the permit back when the executor raises, or register |
| `ProfileLookups.PermitsAreConserved` | bbw_web/interactive.py:41-73 | free permits plus unreleased futures always equal the capacity |
| `ProfileLookups.SingleFlight` | bbw_web/interactive.py:51-73 | at most one unfinished lookup exists per account and uid |
| `ProfileLookups.ReleaseAlwaysSucceeds` | bbw_web/interactive.py:41-49 | the identity test of a release always finds its own future, and the permit always fits |
| `ProfileLookups.FetchMany` | bbw_web/interactive.py:75-123 | completed, pending and saturated are exactly the values of the futures that were done when read, the deferred targets, those unfinished or failed, and those without room, in order; the request ends without a batch exactly when the executor raised |
| `ProfileLookups.BatchFollowsLookups` | bbw_web/interactive.py:51-123 | in any run, and whatever happens between the questions of a batch and before each answer is read, the batch tells of every admitted uid what became of that account's and uid's own lookup, started or joined |
| `ProfileLookups.SaturatedExactlyWhen` | bbw_web/interactive.py:51-62 | in any run, asking finds no room exactly when no lookup of that account and uid is registered and the coordinator is closed or all permits are held |
| `ProfileLookups.SplitIsExact` | bbw_web/interactive.py:75-123 | every deduplicated target is either completed or pending, never both, nothing is pending twice, and saturated lies inside pending |
| `ProfileLookups.ReleaseRemovesOwnOnly` | bbw_web/interactive.py:41-49 | a release never removes another future's registration |
| `ProfileLookups.TargetsKeepOrder` | bbw_web/interactive.py:84-91 | targets keep the order in which uids were given |
| `Readiness.EvaluateReadiness` | bbw_prod/migration_readiness.py:923-1166 | every counter is its tally, and the cutover is ready exactly when some account is active, all active ones are ready in every respect, no user or uid is shared by two rows, the queues have nothing unfinished and the object store is ready |
| `Readiness.EvaluateRow` | bbw_prod/migration_readiness.py:1004-1134 | one turn of the loop moves exactly the counters the row counts for |
| `Readiness.RepeatedValues` | bbw_prod/migration_readiness.py:940-953 | the duplicates are exactly the non-empty values that two rows share |
| `Readiness.UnfinishedSummary` | bbw_prod/migration_readiness.py:879-920 | unfinished is the sum over every status that is not terminal, known or not, and the oldest time is the least waiting one |
| `Readiness.DomainsPartition` | bbw_prod/migration_readiness.py:1037-1075 | for every domain the counters partition the active accounts |
| `Readiness.OthersPartition` | bbw_prod/migration_readiness.py:1008-1134 | credentials partition the active accounts, and each kind of snapshot the identified ones |
| `Readiness.MediaReadyIsRarest` | bbw_prod/migration_readiness.py:790-848 | media-ready accounts never outnumber social-ready or moments-ready ones |
| `Readiness.AccountReadyExactlyWhen` | bbw_prod/migration_readiness.py:1004-1134 | what one account needs for its core, its domains and the cutover, column by column |
| `Readiness.DomainReadyExactlyWhen` | bbw_prod/migration_readiness.py:585-640 | social, moments and discovery are ready exactly with the account's own sound marker |
| `Readiness.MediaReadyExactlyWhen` | bbw_prod/migration_readiness.py:725-848 | media are ready exactly when the three prerequisites are, under their own digests, and the history covers every peer in both directions |
| `Readiness.PeersValidExactlyWhen` | bbw_prod/migration_readiness.py:1106-1120 | when the message peer marker is valid |
| `Readiness.BlocksSoundExactlyWhen` | bbw_prod/migration_readiness.py:1076-1101 | when the block snapshots are sound |
| `Readiness.RowCountsExactly` | bbw_prod/migration_readiness.py:1004-1036 | what a row counts for up to its identity, in terms of the rows alone |
| `Readiness.NothingUnfinishedExactlyWhen` | bbw_prod/migration_readiness.py:879-920 | a queue has nothing unfinished if and only if every row with items is terminal |
| `Readiness.TerminalStatuses` | bbw_prod/migration_readiness.py:849-876 | the terminal statuses of the three queues |
| `Redaction.RedactRawPayload` | bbw_prod/crypto.py:325-398 | the recursive redactor with one shared mutable budget computes the redaction function and leaves its budget |
| `Redaction.SecretsDoNotShow` | bbw_prod/crypto.py:338-398 | payloads that differ only in values under sensitive keys, also inside JSON embedded in two texts that are both looked into, give the same output and leave the same budget |
| `Redaction.EmbeddedSecretsAreHiddenExactlyWhen` | bbw_prod/crypto.py:375-397 | two texts that encode objects alike but for secrets, and would be shown differently, give the same output if and only if they are looked into: not nested too deep, not longer than 256,000 characters, and opening like a container |
| `Redaction.LongEmbeddedSecretShows` | bbw_prod/crypto.py:375-397 | two concrete texts of more than 256,000 characters whose objects differ only in a secret give different outputs |
| `Redaction.TopLevelSecretDoesNotShow` | bbw_prod/crypto.py:339-356 | whatever is stored under a sensitive key, the diagnostic copy is the same |
| `Redaction.LastEntryIsWritten` | bbw_prod/crypto.py:339-356 | under every key text the last entry with it is what is written: redacted when sensitive, else redacted with the budget left before it |
| `Redaction.BudgetsNeverGoNegative` | bbw_prod/crypto.py:334-398 | neither budget ever goes below zero or is given back |
| `Retention.PlainIsKept` | bbw_prod/crypto.py:325-398 | a payload within the limits that has nothing to hide comes back unchanged, at a cost of exactly its values and its characters |
| `Retention.PlainPayloadIsKept` | bbw_prod/crypto.py:325-398 | with the default budgets, up to 20,000 values and below 2,000,000 characters |
| `Retention.OutputKeepsShape` | bbw_prod/crypto.py:325-398 | whatever the payload and budget, scalars, lengths, order and keys are kept, and the output differs only where something is sensitive, masked or cut |
| `Retention.CutExactlyWhen` | bbw_prod/crypto.py:334-338 | a value is cut as a whole exactly at depth twenty or without budget, and every other costs at least one |
| `Retention.TextCosts` | bbw_prod/crypto.py:394-397 | a text costs what is shown of it |
| `Retention.FirstPartsAreKept` | bbw_prod/crypto.py:341-366 | a thousand members and 160 characters of a key |
| `Retention.LookedIntoExactlyWhen` | bbw_prod/crypto.py:375-382 | when an embedded container is looked into |
| `Retention.MaskingCovers` | bbw_prod/crypto.py:369-374 | what is masked in a text |

## Left out

Of the protocol:

- Bookkeeping columns (`updated_at`, model run ids, contact policy versions, relationship stages, candidate interaction times) and the truncation of codes to 64 characters.
- The running timeout of audit rows: a running row may be expired at any time.
- Order and `skip_locked` of `claim_next`; the model lets any claimable task be claimed.
- The query limit of at most 1000 candidate rows in `due_task_ids`: its rows are whatever the query returned.
- The set-based updates (cancel all, disable all, expire running audit rows, the sweep's batch of 100) are one event per row.
- The content of the final gate that reads other tables (contact policy, discovery candidate, conversation head, repeated post) is nondeterministic; its order and its outcomes are kept.
- A second attempt to close a refused audit row waits for the worker's own row lock and is swallowed; it is modelled as having no effect.
- A completion whose code is not a stable code cannot be built; codes are taken to be well formed.
- The dispatcher's older path for gates that cannot prepare an audit row.
- Rows deleted by the database when an owner or account is removed.
- The user-driven action path is any write to audit rows with its own kind of key, which the unattended path never uses.
- Repositories.FinishTask: what it leaves in memory when it raises is not described, because the transaction is rolled back.

Of the others:

- Text normalisation, filler words and system markers of the sampler: a candidate carries its contact, repeat key, class and usability.
- Re-normalising a selected text when the short ones are counted: a candidate's class does not change.
- Threads, locks and semaphores themselves: each locked section is one step of the coordinators' transition systems.
- An executor that raises after it queued the item (a worker thread that cannot be started) is not modelled: in `Presence` and `ProfileLookups` raising means that nothing was queued.
- The clock of a profile request: the deadline is the moment at which each future is read.
- Field checks of readiness markers and relationship rows that concern one marker or row alone: they are one flag per marker, and sets of pairs for the rows; account binding, digests, prerequisites and history sizes are kept.
- Regular expressions, key normalisation and the JSON codec of the redactor: they are parameters, and the results hold for all of them.
- Ciphers, key derivation and phone lookup.
- Web routes, provider and model calls, prompts, media, migration importers and configuration.
