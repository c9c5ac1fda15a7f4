/** How every end is decided and what it writes, spelled out row by row: the status for
    each state of the audit row, the owner's failure streak and halts, the schedule and the
    day's ledger. */
module EndRules {
  import opened Vocabulary
  import opened Policies
  import opened Transitions

  // --------------------------------------------------------- which end it is

  /** A dispatch that was never linked to an audit row fails, under the code that was asked
      for unless that was a success or a review. */
  lemma UnlinkedDispatchFails(t: Task, c: Completion, now: int)
    requires t.status == Dispatching && t.execution.None? && ValidCompletion(c)
    ensures var v := Resolve(t, None, c, now);
            && v.status == Failed && !v.unknown && v.resultId == "" && v.execution.None?
            && v.code == if c.status in {Failed, Cancelled, Stale} then c.code else ActionExecutionNotPrepared
  {
  }

  /** The linked audit row is missing, or some column of it is not the task's. */
  lemma ForeignAuditIsReviewed(t: Task, x: Option<Execution>, c: Completion, now: int)
    requires t.execution.Some?
    requires x.None? || x.value.account != t.spec.account || x.value.id.action != t.spec.Action()
          || Some(x.value.id.key) != t.actionKey || x.value.settingVersion != t.spec.executionVersion
    ensures var v := Resolve(t, x, c, now);
            && v.status == ManualReview && v.unknown && v.code == ExecutionAuditMismatch && v.resultId == ""
            && v.execution == x
  {
  }

  /** The first 256 characters of a result are kept. */
  ghost predicate Keeps(stored: string, result: string) {
    stored <= result && |stored| == Min(256, |result|)
  }

  /** A running audit row is closed with the end that was asked for, and the task reads the
      same; anything else that was asked for goes to review. */
  lemma RunningAuditIsClosed(t: Task, x: Execution, c: Completion, now: int)
    requires t.execution.Some? && Bound(t, x) && x.status == ExecRunning && ValidCompletion(c)
    ensures var v := Resolve(t, Some(x), c, now);
            && v.execution.Some?
            && var y := v.execution.value;
            && y.completedAt == Some(now) && y.id == x.id && y.startedAt == x.startedAt && y.snapshot == x.snapshot
            && y.account == x.account && y.settingVersion == x.settingVersion && y.cancelledAt.None?
            && y.code == v.code && y.resultId == v.resultId
            && match c.status
               case Succeeded =>
                 v.status == Succeeded && y.status == ExecSucceeded && v.code == NoCode && Keeps(v.resultId, c.resultId)
               case Failed =>
                 && y.status == ExecFailed && v.code == c.code && v.resultId == ""
                 && v.status == if c.code == LocalMessageSourceStale then Stale else Failed
               case ManualReview =>
                 v.status == ManualReview && y.status == ExecManualReview && v.code == c.code && v.resultId == ""
               case Stale =>
                 && v.resultId == ""
                 && if c.code == LocalMessageSourceStale
                    then v.status == Stale && y.status == ExecFailed && v.code == c.code
                    else v.status == ManualReview && y.status == ExecManualReview
                         && v.code == ExecutionAuditStateMismatch
               case _ =>
                 && v.status == ManualReview && y.status == ExecManualReview && v.resultId == ""
                 && v.code == ExecutionAuditStateMismatch
  {
  }

  /** An audit row that had already ended is never written again.  The task reads what it
      says when that is what was asked for, and goes to review otherwise. */
  lemma EndedAuditDecides(t: Task, x: Execution, c: Completion, now: int)
    requires t.execution.Some? && Bound(t, x) && x.status !in {ExecQueued, ExecRunning} && ValidCompletion(c)
    requires x.code == NoCode <==> x.status == ExecSucceeded
    ensures var v := Resolve(t, Some(x), c, now);
            && v.execution == Some(x)
            && if c.status == Succeeded && x.status == ExecSucceeded
               then v.status == Succeeded && v.code == NoCode && Keeps(v.resultId, x.resultId)
               else if x.status == ExecFailed && x.code == LocalMessageSourceStale && c.status in {Failed, Stale}
               then v.status == Stale && v.code == x.code && v.resultId == ""
               else if x.status == ExecFailed && c.status == Failed
               then v.status == Failed && v.code == x.code && v.resultId == ""
               else if x.status == ExecCancelled && c.status == Cancelled
               then v.status == Cancelled && v.code == x.code && v.resultId == ""
               else if x.status == ExecManualReview && c.status == ManualReview
               then v.status == ManualReview && v.code == x.code && v.resultId == ""
               else v.status == ManualReview && v.code == ExecutionAuditStateMismatch && v.resultId == ""
  {
  }

  /** An audit row that never started is cancelled; the task with it, unless a success or a
      review was asked for. */
  lemma QueuedAuditIsCancelled(t: Task, x: Execution, c: Completion, now: int)
    requires t.execution.Some? && Bound(t, x) && x.status == ExecQueued && ValidCompletion(c)
    ensures var v := Resolve(t, Some(x), c, now);
            && v.execution.Some? && v.execution.value.status == ExecCancelled
            && v.execution.value.cancelledAt == Some(now) && v.resultId == ""
            && if c.status in {Succeeded, ManualReview}
               then v.status == ManualReview && v.code == ExecutionAuditStateMismatch
                    && v.execution.value.code == ActionExecutionNotStarted
               else v.status == Cancelled && v.code == c.code && v.execution.value.code == c.code
  {
  }

  // --------------------------------------------------------- the policy row

  /** The worker may retry: it asked to, and the task failed under the very code it gave. */
  ghost predicate Retried(c: Completion, ended: Task) {
    c.retryable && ended.status == Failed && ended.code == c.code
  }

  /** Whether an end counts as a failure.  A dispatched task's end is counted by its status;
      before dispatch the completion says. */
  ghost predicate CountsAsFailure(t: Task, c: Completion, ended: Task) {
    if t.status == Dispatching then ended.status in {Failed, ManualReview} else c.counts || c.unknown
  }

  lemma VerdictTells(t: Task, x: Option<Execution>, c: Completion, now: int)
    requires ValidCompletion(c) && (t.status != Dispatching ==> t.execution.None? && !c.halts)
    requires t.status != Dispatching ==> (c.resets <==> c.status == Succeeded)
    ensures var v := Resolve(t, x, c, now);
            && (v.status == ManualReview <==> v.unknown) && (v.resets <==> v.status == Succeeded)
            && (v.halts <==> v.unknown) && !(v.resets && v.counts)
            && (v.counts <==>
                  if t.status == Dispatching then v.status in {Failed, ManualReview} else c.counts || c.unknown)
  {
  }

  lemma RetryTells(c: Completion, v: Verdict)
    requires ValidCompletion(c) && (v.status == ManualReview <==> v.unknown)
    ensures GrantsRetry(c, v) <==> c.retryable && v.status == Failed && v.code == c.code
  {
  }

  lemma FinishWrites(r: Rows, c: Completion, now: int)
    requires Finish(r, c, now).Success? && r.setting.Some?
    ensures var after := Finish(r, c, now).value;
            var v := Resolve(r.task, r.execution, c, now);
            var retried := GrantsRetry(c, v);
            && after.task == Ended(r.task, v, now) && after.execution == v.execution
            && after.setting == Some(SettingAfter(r.setting.value, r.task.spec, v, retried,
                                                  if retried then c.retryAt else None, now))
  {
    hide Resolve, GrantsRetry, SettingAfter, Ended;
  }

  /** The streak of consecutive failures: cleared by a success, one more after a failure or
      a review that may not be retried, and otherwise as it was.  And the owner is halted by
      this end exactly when its outcome is unknown, or it may not be retried and the streak
      has reached the limit. */
  lemma EndMovesStreak(r: Rows, c: Completion, now: int)
    requires Finish(r, c, now).Success? && r.setting.Some? && ValidCompletion(c)
    requires r.task.status == Dispatching || (!c.halts && (c.resets <==> c.status == Succeeded))
    requires r.task.status != Dispatching ==> r.task.execution.None?
    ensures var after := Finish(r, c, now).value;
            && after.setting.Some?
            && var s, s' := r.setting.value, after.setting.value;
            && var retried := Retried(c, after.task);
            && s'.failures == (if after.task.status == Succeeded then 0
                               else if CountsAsFailure(r.task, c, after.task) && !retried then s.failures + 1
                               else s.failures)
            && (if after.task.unknown || (!retried && s'.failures >= s.content.failureLimit)
                then s'.haltedAt == Some(now) && s'.nextRunAt.None?
                else s'.haltedAt == s.haltedAt && s'.haltedReason == s.haltedReason)
  {
    hide Finish, Resolve, GrantsRetry, ValidCompletion;
    VerdictTells(r.task, r.execution, c, now);
    RetryTells(c, Resolve(r.task, r.execution, c, now));
    FinishWrites(r, c, now);
  }

  /** The rest of the policy row: an end is recorded as the last run, a success on its own
      stamp, a retry pushes the next run back but never forward, and nothing else moves. */
  lemma EndMovesSchedule(r: Rows, c: Completion, now: int)
    requires Finish(r, c, now).Success? && r.setting.Some? && ValidCompletion(c)
    requires r.task.status == Dispatching || (!c.halts && (c.resets <==> c.status == Succeeded))
    requires r.task.status != Dispatching ==> r.task.execution.None?
    ensures var after := Finish(r, c, now).value;
            && after.setting.Some?
            && var s, s' := r.setting.value, after.setting.value;
            && var spec := r.task.spec;
            && var done := after.task.status == Succeeded;
            && s'.lastRunAt == Some(now)
            && s'.content == s.content && s'.version == s.version && s'.lastActionAt == s.lastActionAt
            && s'.lastPostAt == (if done && spec.taskType == ScheduledPost then Some(now) else s.lastPostAt)
            && s'.lastDiscoveryAt == (if done && spec.taskType == BrowseOnline then Some(now) else s.lastDiscoveryAt)
            && s'.lastMatchAt == (if done && spec.taskType == RequestMatch then Some(now) else s.lastMatchAt)
            && s'.lastOutreachAt == (if done && spec.taskType == ProactiveMessage then Some(now) else s.lastOutreachAt)
            && (s'.haltedAt == s.haltedAt && s.haltedAt != Some(now) ==>
                  s'.nextRunAt == if Retried(c, after.task)
                                     && (s.nextRunAt.None? || s.nextRunAt.value < c.retryAt.value)
                                  then c.retryAt else s.nextRunAt)
  {
    hide Finish, Resolve, GrantsRetry, ValidCompletion, SettingAfter;
    VerdictTells(r.task, r.execution, c, now);
    RetryTells(c, Resolve(r.task, r.execution, c, now));
    FinishWrites(r, c, now);
    RetryHasTime(c);
    var v := Resolve(r.task, r.execution, c, now);
    var retried := GrantsRetry(c, v);
    ScheduleMoves(r.setting.value, r.task.spec, v, retried, if retried then c.retryAt else None, now);
  }

  lemma ScheduleMoves(s: Setting, spec: TaskSpec, v: Verdict, retried: bool, retryAt: Option<int>, now: int)
    requires retryAt.Some? <==> retried
    ensures var s' := SettingAfter(s, spec, v, retried, retryAt, now);
            var done := v.status == Succeeded;
            && s'.lastRunAt == Some(now)
            && s'.content == s.content && s'.version == s.version && s'.lastActionAt == s.lastActionAt
            && s'.lastPostAt == (if done && spec.taskType == ScheduledPost then Some(now) else s.lastPostAt)
            && s'.lastDiscoveryAt == (if done && spec.taskType == BrowseOnline then Some(now) else s.lastDiscoveryAt)
            && s'.lastMatchAt == (if done && spec.taskType == RequestMatch then Some(now) else s.lastMatchAt)
            && s'.lastOutreachAt == (if done && spec.taskType == ProactiveMessage then Some(now) else s.lastOutreachAt)
            && (s'.haltedAt == s.haltedAt && s.haltedAt != Some(now) ==>
                  s'.nextRunAt == if retried && (s.nextRunAt.None? || s.nextRunAt.value < retryAt.value) then retryAt
                                  else s.nextRunAt)
  {
  }

  lemma RetryHasTime(c: Completion)
    requires ValidCompletion(c)
    ensures c.retryable ==> c.retryAt.Some? && c.refunds
  {
  }

  /** The task row: its end is stored with the verdict, the lease is given up, and what
      happened before is kept. */
  lemma EndMovesTask(r: Rows, c: Completion, now: int)
    requires Finish(r, c, now).Success?
    ensures var t, t' := r.task, Finish(r, c, now).value.task;
            var v := Resolve(t, r.execution, c, now);
            && t'.status == v.status && t'.code == v.code && t'.resultId == v.resultId && t'.unknown == v.unknown
            && t'.completedAt == Some(now)
            && t'.token.None? && t'.leaseOwner.None? && t'.leaseUntil.None?
            && t'.spec == t.spec && t'.attempts == t.attempts && t'.notBefore == t.notBefore
            && t'.startedAt == t.startedAt && t'.actionKey == t.actionKey && t'.budgetDay == t.budgetDay
            && t'.dispatchStartedAt == t.dispatchStartedAt && t'.execution == t.execution
  {
    hide Resolve, SettingAfter;
  }
}
