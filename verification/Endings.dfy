/** How a task ends.  The audit row decides: whatever a worker asks for, the stored end
    agrees with it or goes to manual review; and the recovery sweep reaches the end that a
    surviving worker would have reached. */
module Endings {
  import opened Vocabulary
  import opened Policies
  import opened Transitions

  // ------------------------------------------------ recovery equals completion

  /** The completion a surviving worker would ask for, given the same audit row. */
  function RecoveryCompletion(t: Task, x: Option<Execution>, code: Code): Completion {
    if t.execution.None? then FailedWith(WorkerLostBeforeActionPrepare)
    else if x.None? || !Bound(t, x.value) then UnknownWith(ExecutionAuditMismatch)
    else
      match x.value.status
      case ExecQueued => CancelledWith(WorkerLostBeforeActionStart)
      case ExecRunning => UnknownWith(code)
      case ExecSucceeded => SucceededWith(x.value.resultId)
      case ExecFailed =>
        if x.value.code == LocalMessageSourceStale then StaleWith(x.value.code)
        else FailedWith(OrElse(x.value.code, AccountActionFailed))
      case ExecCancelled => CancelledWith(OrElse(x.value.code, AccountActionCancelled))
      case ExecManualReview => UnknownWith(OrElse(x.value.code, AccountActionOutcomeUnknown))
  }

  lemma ConstructorsAreConsistent(code: Code, resultId: string)
    requires code != NoCode
    ensures ValidCompletion(SucceededWith(resultId)) && ValidCompletion(FailedWith(code))
    ensures ValidCompletion(CancelledWith(code))
    ensures ValidCompletion(StaleWith(code)) && ValidCompletion(UnknownWith(code))
  {
  }

  lemma RecoveryCompletionIsValid(t: Task, x: Option<Execution>, code: Code)
    requires code != NoCode
    ensures ValidCompletion(RecoveryCompletion(t, x, code)) && !RecoveryCompletion(t, x, code).retryable
  {
    hide Bound, ValidCompletion;
    var c := RecoveryCompletion(t, x, code);
    ConstructorsAreConsistent(if c.code == NoCode then code else c.code, c.resultId);
  }

  lemma AutopsyIsResolve(t: Task, x: Option<Execution>, code: Code, now: int)
    requires t.status == Dispatching && (t.execution.None? ==> x.None?) && code != NoCode
    ensures Autopsy(t, x, code, now) == Resolve(t, x, RecoveryCompletion(t, x, code), now)
  {
  }

  lemma AutopsyShape(t: Task, x: Option<Execution>, code: Code, now: int)
    requires code != NoCode
    ensures var v := Autopsy(t, x, code, now);
            v.unknown == v.halts && (v.code == NoCode ==> v.resets && !v.counts && !v.unknown)
  {
  }

  lemma SettingsAgree(s: Setting, spec: TaskSpec, v: Verdict, code: Code, now: int)
    requires SoundSetting(s)
    requires v.unknown == v.halts && (v.code == NoCode ==> v.resets && !v.counts && !v.unknown)
    ensures SettingSwept(s, spec, v, code, now) == SettingAfter(s, spec, v, false, None, now)
  {
  }

  /** For every dispatched task and every state of its audit row, the sweep writes exactly
      the rows that `finish_task` writes for the matching non-retryable completion: task,
      audit row, failure streak, halt, schedule and usage counters, and it raises in
      exactly the same cases. */
  lemma SweepIsFinish(r: Rows, code: Code, now: int)
    requires r.task.status == Dispatching && r.task.dispatchStartedAt.Some?
    requires r.task.execution.None? ==> r.execution.None?
    requires r.setting.Some? ==> SoundSetting(r.setting.value)
    requires code != NoCode
    ensures Sweep(r, code, now) == Finish(r, RecoveryCompletion(r.task, r.execution, code), now)
  {
    AutopsyIsResolve(r.task, r.execution, code, now);
    AutopsyShape(r.task, r.execution, code, now);
    RecoveryCompletionIsValid(r.task, r.execution, code);
    var v := Autopsy(r.task, r.execution, code, now);
    if r.setting.Some? { SettingsAgree(r.setting.value, r.task.spec, v, code, now); }
  }

  // ------------------------------------------------------------ what ends agree

  /** A dispatched task whose audit row is bound and started always ends with an audit row
      that has ended too, and the two agree. */
  lemma EndAgreesWithAudit(t: Task, x: Execution, c: Completion, now: int)
    requires t.status == Dispatching && t.execution.Some? && Bound(t, x) && ValidCompletion(c)
    requires x.status != ExecQueued
    requires x.status == ExecFailed ==> x.code != NoCode
    ensures var v := Resolve(t, Some(x), c, now);
            && v.execution.Some? && v.execution.value.status !in {ExecQueued, ExecRunning}
            && (x.status != ExecRunning ==> v.execution.value == x)
            && (v.status == Succeeded ==> v.execution.value.status == ExecSucceeded)
            && (v.status == Failed ==> v.execution.value.status == ExecFailed && v.code == v.execution.value.code
                                       && v.code != LocalMessageSourceStale)
            && (v.status == Stale ==> v.execution.value.status == ExecFailed && v.code == v.execution.value.code
                                      && v.code == LocalMessageSourceStale)
            && (v.status == Cancelled <==> v.execution.value.status == ExecCancelled && c.status == Cancelled)
            && (v.execution.value.status == ExecManualReview ==> v.status == ManualReview)
            && (v.unknown <==> v.status == ManualReview)
  {
  }

  /** Exactly when a dispatched task may read succeeded. */
  lemma SucceedsExactlyWhen(t: Task, x: Option<Execution>, c: Completion, now: int)
    requires t.status == Dispatching && (t.execution.None? ==> x.None?)
    ensures Resolve(t, x, c, now).status == Succeeded <==>
              && c.status == Succeeded && t.execution.Some? && x.Some? && Bound(t, x.value)
              && x.value.status in {ExecRunning, ExecSucceeded}
  {
  }

  /** Every unknown end counts a failure, halts the owner and is tallied for the day. */
  lemma UnknownEndHalts(r: Rows, c: Completion, now: int)
    requires r.task.status == Dispatching && r.task.budgetDay.Some? && Finish(r, c, now).Success?
    requires r.setting.Some?
    ensures var after := Finish(r, c, now).value;
            after.task.unknown ==>
              && after.task.status == ManualReview
              && after.setting.value.haltedAt == Some(now)
              && after.setting.value.nextRunAt.None?
              && after.setting.value.failures == r.setting.value.failures + 1
              && after.usage.value.failed == r.usage.value.failed + 1
              && after.usage.value.unknown == r.usage.value.unknown + 1
              && after.usage.value.total == r.usage.value.total
  {
    var v := Resolve(r.task, r.execution, c, now);
    if v.unknown {
      assert v == NeedsReview(v.code, v.execution);
      HaltFacts(r.setting.value, r.task.spec, v, false, None, now);
    }
  }

  lemma HaltFacts(s: Setting, spec: TaskSpec, v: Verdict, retryable: bool, retryAt: Option<int>, now: int)
    requires v.halts && v.counts && !v.resets && !retryable && v.status == ManualReview
    ensures var s' := SettingAfter(s, spec, v, retryable, retryAt, now);
            s'.haltedAt == Some(now) && s'.nextRunAt.None? && s'.failures == s.failures + 1
  {
  }

  /** Budget comes back only for a retryable failure that stayed a known failure under its
      own code; the owner's failure streak then does not grow. */
  lemma RefundOnlyForKnownFailure(r: Rows, c: Completion, now: int)
    requires Finish(r, c, now).Success? && r.task.status == Dispatching && r.task.budgetDay.Some?
    ensures var after := Finish(r, c, now).value;
            && after.usage.value.total <= r.usage.value.total
            && (after.usage.value.total < r.usage.value.total ==>
                  && c.retryable && c.refunds
                  && after.task.status == Failed && !after.task.unknown && after.task.code == RequestedCode(c)
                  && after.usage.value.total == r.usage.value.total - 1
                  && after.usage.value.Count(r.task.spec.Category()) == r.usage.value.Count(r.task.spec.Category()) - 1
                  && (r.setting.Some? && ValidCompletion(c) ==>
                        after.setting.value.failures == r.setting.value.failures))
  {
  }

  // --------------------------------------------------- the verdict, for the store

  ghost predicate VerdictFits(t: Task, x: Option<Execution>, v: Verdict) {
    && v.status in {Succeeded, Failed, Stale, ManualReview}
    && (v.unknown <==> v.status == ManualReview)
    && (v.counts <==> v.status in {Failed, ManualReview})
    && (t.execution.None? ==> v.execution.None? && v.status == Failed)
    && (t.execution.Some? ==>
          && v.execution.Some?
          && x.Some?
          && v.execution.value.id == x.value.id
          && v.execution.value.account == x.value.account
          && v.execution.value.settingVersion == x.value.settingVersion
          && v.execution.value.status in {ExecSucceeded, ExecFailed, ExecManualReview}
          && (v.execution.value.status == ExecFailed ==> v.execution.value.code != NoCode)
          && |v.execution.value.resultId| <= 256
          && (v.status == Succeeded ==>
                v.execution.value.status == ExecSucceeded && v.resultId == v.execution.value.resultId)
          && (v.status == Failed ==> v.execution.value.status == ExecFailed && v.code == v.execution.value.code
                                     && v.code != LocalMessageSourceStale)
          && (v.status == Stale ==> v.execution.value.status == ExecFailed && v.code == v.execution.value.code
                                    && v.code == LocalMessageSourceStale))
  }

  lemma VerdictFitsDispatch(t: Task, x: Option<Execution>, c: Completion, now: int)
    requires t.status == Dispatching && ValidCompletion(c)
    requires t.execution.None? ==> x.None?
    requires t.execution.Some? ==>
               && x.Some? && Bound(t, x.value)
               && x.value.status in {ExecRunning, ExecSucceeded, ExecFailed, ExecManualReview}
               && (x.value.status == ExecFailed ==> x.value.code != NoCode)
               && |x.value.resultId| <= 256
    ensures VerdictFits(t, x, Resolve(t, x, c, now))
    ensures (t.execution.Some? && x.value.status != ExecRunning) ==> Resolve(t, x, c, now).execution == x
    ensures (c.status == ManualReview && t.execution.Some? && x.value.status in {ExecRunning, ExecManualReview})
              ==> && Resolve(t, x, c, now).status == ManualReview
                  && Resolve(t, x, c, now).execution.value.status == ExecManualReview
  {
  }
}
