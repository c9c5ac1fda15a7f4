/** The owner's failure streak over every run: what each end does to it, and that an owner
    whose streak has reached the limit is always halted. */
module Streaks {
  import opened Vocabulary
  import opened Policies
  import opened Transitions
  import opened Protocol
  import opened Invariant
  import opened Frames
  import opened Endings
  import opened EndRules
  import opened EndSteps
  import opened DispatchSteps
  import opened Runs
  import opened Progress
  import opened Safety

  // ------------------------------------------------------ one end of a dispatch

  /** How the end of a dispatched task moves its owner's row, by what the task reads
      afterwards and whether it may be retried. */
  ghost predicate RowMoved(row: Setting, row': Setting, status: TaskStatus, retried: bool) {
    && (match status
        case Succeeded => row'.failures == 0
        case Failed => row'.failures == if retried then row.failures else row.failures + 1
        case ManualReview => row'.failures == row.failures + 1
        case Stale => row'.failures == row.failures
        case _ => false)
    && (if status == ManualReview || (!retried && row'.failures >= row.content.failureLimit)
        then row'.haltedAt.Some? && row'.nextRunAt.None?
        else row'.haltedAt == row.haltedAt)
    && row'.content == row.content && row'.version == row.version
  }

  /** The same for a step of the store; a refunded task is one that may be retried. */
  ghost predicate StreakMoved(s: World, s': World, id: TaskId) {
    && id in s.db.tasks && id in s'.db.tasks
    && id.owner in s.db.settings && id.owner in s'.db.settings
    && RowMoved(s.db.settings[id.owner], s'.db.settings[id.owner], s'.db.tasks[id].status, id in s'.past.refunded)
  }

  lemma EndMovesRow(r: Rows, c: Completion, now: int)
    requires Finish(r, c, now).Success? && r.setting.Some? && ValidCompletion(c) && r.task.status == Dispatching
    requires Resolve(r.task, r.execution, c, now).status in {Succeeded, Failed, Stale, ManualReview}
    ensures var after := Finish(r, c, now).value;
            && after.setting.Some?
            && RowMoved(r.setting.value, after.setting.value, after.task.status,
                        c.retryable && after.task.status == Failed && after.task.code == c.code)
  {
    hide Finish, Resolve, ValidCompletion;
    EndMovesStreak(r, c, now);
    EndMovesSchedule(r, c, now);
    EndMovesTask(r, c, now);
    VerdictTells(r.task, r.execution, c, now);
    RetryHasTime(c);
  }

  lemma EndStores(s: World, id: TaskId, c: Completion, now: int)
    requires id in s.db.tasks && s.db.tasks[id].spec.owner in s.db.settings
    requires Finish(RowsFor(s.db, s.db.tasks[id]), c, now).Success?
    ensures var t := s.db.tasks[id];
            var r := Finish(RowsFor(s.db, t), c, now).value;
            var s' := EndedBy(s, id, c, now);
            && r.setting.Some? && id in s'.db.tasks && s'.db.tasks[id] == r.task
            && t.spec.owner in s'.db.settings && s'.db.settings[t.spec.owner] == r.setting.value
            && (id in s'.past.refunded <==>
                  id in s.past.refunded
                  || (c.refunds && t.budgetDay.Some?
                      && GrantsRetry(c, Resolve(t, RowsFor(s.db, t).execution, c, now))))
  {
    hide Resolve, GrantsRetry, SettingAfter, Outcomes, Ended;
  }

  lemma DispatchEndMovesStreak(s: World, id: TaskId, c: Completion, now: int)
    requires Inv(s) && id in s.db.tasks && s.db.tasks[id].status == Dispatching && ValidCompletion(c)
    requires id in s.past.escaped ==> c.status == ManualReview
    ensures StreakMoved(s, EndedBy(s, id, c, now), id)
  {
    hide Inv, Finish, Resolve, EndedBy, GrantsRetry, ValidCompletion, RowsFor, RowMoved;
    var t := s.db.tasks[id];
    var rows := RowsFor(s.db, t);
    TaskFacts(s, id);
    DispatchedRows(s, id, c, now);
    DispatchedEndHasNoFault(s, id, c, now);
    EndStores(s, id, c, now);
    NotRefundedYet(s, id);
    RowsOf(s.db, t);
    EndMovesRow(rows, c, now);
    EndMovesTask(rows, c, now);
    VerdictTells(t, rows.execution, c, now);
    RetryTells(c, Resolve(t, rows.execution, c, now));
    RetryHasTime(c);
  }

  lemma RowsOf(db: Tables, t: Task)
    requires t.spec.owner in db.settings
    ensures RowsFor(db, t).task == t && RowsFor(db, t).setting == Some(db.settings[t.spec.owner])
  {
  }

  lemma NotRefundedYet(s: World, id: TaskId)
    requires Inv(s) && id in s.db.tasks && s.db.tasks[id].status == Dispatching
    ensures id !in s.past.refunded
  {
  }

  lemma StreakMovedFrom(s: World, idle: World, s': World, id: TaskId)
    requires idle.db == s.db && StreakMoved(idle, s', id)
    ensures StreakMoved(s, s', id)
  {
  }

  /** Every end of a dispatched task, by completion or by the sweep: the streak is cleared by
      a success, one more after a known failure that was not refunded and after a review,
      and otherwise as it was; the owner is halted by a review, and by any end that leaves
      the streak at the limit unless it was refunded. */
  lemma EveryEndMovesTheStreak(events: seq<Event>, e: Event, id: TaskId)
    requires id in After(events).db.tasks && After(events).db.tasks[id].status == Dispatching
    requires id in After(events + [e]).db.tasks && After(events + [e]).db.tasks[id].status != Dispatching
    ensures StreakMoved(After(events), After(events + [e]), id)
  {
    hide Inv, Step, StreakMoved;
    EveryStateIsSound(events);
    AfterOne(events, e);
    EndingStep(After(events), e, id);
  }

  lemma EndingStep(s: World, e: Event, id: TaskId)
    requires Inv(s) && id in s.db.tasks && s.db.tasks[id].status == Dispatching
    requires id in Step(s, e).db.tasks && Step(s, e).db.tasks[id].status != Dispatching
    ensures StreakMoved(s, Step(s, e), id)
  {
    hide Inv, StreakMoved, OnComplete, OnSweep;
    match e
    case Complete(w, now) => EndingCompletion(s, w, now, id);
    case SweepExpired(swept, before, code, now) => EndingSweep(s, swept, before, code, now, id);
    case _ => DispatchSurvives(s, e, id);
  }

  lemma EndingCompletion(s: World, w: WorkerId, now: int, id: TaskId)
    requires Inv(s) && id in s.db.tasks && s.db.tasks[id].status == Dispatching
    requires id in OnComplete(s, w, now).db.tasks && OnComplete(s, w, now).db.tasks[id].status != Dispatching
    ensures StreakMoved(s, OnComplete(s, w, now), id)
  {
    hide Inv, EndedBy, ValidCompletion, StreakMoved;
    var me := WorkerAt(s, w);
    if me.Closing? && me.id in s.db.tasks && MayFinish(s.db.tasks[me.id], me.token) {
      var idle := Moved(s, w, Idle);
      ClosingFacts(s, w);
      MoveWorker(s, w, Idle);
      EndedShape(idle, me.id, me.completion, now);
      DispatchEndMovesStreak(idle, me.id, me.completion, now);
      StreakMovedFrom(s, idle, OnComplete(s, w, now), id);
    }
  }

  lemma EndingSweep(s: World, swept: TaskId, before: int, code: Code, now: int, id: TaskId)
    requires Inv(s) && id in s.db.tasks && s.db.tasks[id].status == Dispatching
    requires id in OnSweep(s, swept, before, code, now).db.tasks
    requires OnSweep(s, swept, before, code, now).db.tasks[id].status != Dispatching
    ensures StreakMoved(s, OnSweep(s, swept, before, code, now), id)
  {
    hide Inv, EndedBy, ValidCompletion, RecoveryCompletion, StreakMoved;
    if swept in s.db.tasks && Expired(s.db.tasks[swept], before) && code != NoCode {
      var c := RecoveryCompletion(s.db.tasks[swept], RowsFor(s.db, s.db.tasks[swept]).execution, code);
      SweepIsEnd(s, swept, before, code, now);
      EndedShape(s, swept, c, now);
      DispatchEndMovesStreak(s, swept, c, now);
    }
  }

  // ----------------------------------------------------- ends before dispatch

  lemma EarlyFacts(s: World, w: WorkerId)
    requires Inv(s) && WorkerAt(s, w).Closing? && WorkerAt(s, w).id in s.db.tasks
    requires var t := s.db.tasks[WorkerAt(s, w).id];
             t.status.NotStarted() && t.token == Some(WorkerAt(s, w).token)
    ensures ValidCompletion(WorkerAt(s, w).completion) && EndsEarly(WorkerAt(s, w).completion)
  {
    hide Inv;
    WorkerFacts(s, w);
    TaskFacts(s, WorkerAt(s, w).id);
  }

  /** An end before dispatch reads as it was asked for; only a failure counts, and it halts the
      owner when the streak then reaches the limit; the ledger is not touched. */
  ghost predicate EarlyEnd(s: World, s': World, id: TaskId, c: Completion, now: int) {
    && id in s.db.tasks && id in s'.db.tasks
    && var o := s.db.tasks[id].spec.owner;
    && o in s.db.settings && o in s'.db.settings
    && var row, row', t' := s.db.settings[o], s'.db.settings[o], s'.db.tasks[id];
    && t'.status == c.status && t'.status in {Failed, Cancelled, Stale} && t'.code == c.code
    && t'.token.None? && t'.completedAt == Some(now)
    && row'.failures == (if t'.status == Failed then row.failures + 1 else row.failures)
    && (if row'.failures >= row.content.failureLimit then row'.haltedAt == Some(now)
        else row'.haltedAt == row.haltedAt)
    && s'.db.usages == s.db.usages && s'.past.refunded == s.past.refunded
  }

  lemma EarlyEndMovesTheStreak(events: seq<Event>, w: WorkerId, now: int)
    requires var s := After(events);
             && WorkerAt(s, w).Closing? && WorkerAt(s, w).id in s.db.tasks
             && s.db.tasks[WorkerAt(s, w).id].status in {Queued, Deferred, Leased, Generating}
             && s.db.tasks[WorkerAt(s, w).id].token == Some(WorkerAt(s, w).token)
    ensures var me := WorkerAt(After(events), w);
            EarlyEnd(After(events), After(events + [Complete(w, now)]), me.id, me.completion, now)
  {
    hide Inv, Step, EarlyEnd;
    EveryStateIsSound(events);
    AfterOne(events, Complete(w, now));
    EarlyStep(After(events), w, now);
  }

  lemma EarlyStep(s: World, w: WorkerId, now: int)
    requires Inv(s) && WorkerAt(s, w).Closing? && WorkerAt(s, w).id in s.db.tasks
    requires s.db.tasks[WorkerAt(s, w).id].status in {Queued, Deferred, Leased, Generating}
    requires s.db.tasks[WorkerAt(s, w).id].token == Some(WorkerAt(s, w).token)
    ensures EarlyEnd(s, Step(s, Complete(w, now)), WorkerAt(s, w).id, WorkerAt(s, w).completion, now)
  {
    hide Inv, EndedBy, EarlyEnd, ValidCompletion, EndsEarly;
    var me := WorkerAt(s, w);
    var idle := Moved(s, w, Idle);
    EarlyFacts(s, w);
    MoveWorker(s, w, Idle);
    EarlyRows(idle, me.id, me.completion, now);
    EarlyFrom(s, idle, EndedBy(idle, me.id, me.completion, now), me.id, me.completion, now);
  }

  lemma EarlyFrom(s: World, idle: World, s': World, id: TaskId, c: Completion, now: int)
    requires idle.db == s.db && idle.past == s.past && EarlyEnd(idle, s', id, c, now)
    ensures EarlyEnd(s, s', id, c, now)
  {
  }

  lemma EarlyRows(s: World, id: TaskId, c: Completion, now: int)
    requires Inv(s) && id in s.db.tasks && s.db.tasks[id].status.NotStarted()
    requires ValidCompletion(c) && EndsEarly(c)
    ensures EarlyEnd(s, EndedBy(s, id, c, now), id, c, now)
  {
    hide Inv, Finish, Resolve, EndedBy, GrantsRetry, RowsFor, ValidCompletion;
    var t := s.db.tasks[id];
    TaskFacts(s, id);
    PreDispatchEnd(s, id, c, now);
    EndStores(s, id, c, now);
    RowsOf(s.db, t);
    EndMovesStreak(RowsFor(s.db, t), c, now);
    EndMovesTask(RowsFor(s.db, t), c, now);
    AskedIsRead(t, RowsFor(s.db, t).execution, c, now);
    SucceedsOnlyReset(c);
    LedgerIsLeft(s, id, c, now);
  }

  lemma SucceedsOnlyReset(c: Completion)
    requires ValidCompletion(c) && EndsEarly(c)
    ensures !c.unknown && !c.retryable
  {
  }

  lemma AskedIsRead(t: Task, x: Option<Execution>, c: Completion, now: int)
    requires t.status.NotStarted() && t.execution.None? && ValidCompletion(c) && EndsEarly(c)
    ensures var v := Resolve(t, x, c, now);
            v.status == c.status && v.code == c.code && !v.unknown && !GrantsRetry(c, v)
  {
  }

  lemma LedgerIsLeft(s: World, id: TaskId, c: Completion, now: int)
    requires id in s.db.tasks && s.db.tasks[id].budgetDay.None?
    ensures EndedBy(s, id, c, now).db.usages == s.db.usages
    ensures EndedBy(s, id, c, now).past.refunded == s.past.refunded
  {
    hide Resolve, GrantsRetry, SettingAfter, Ended;
  }

  // --------------------------------------------------------------- every state

  /** An owner whose streak has reached the limit is halted. */
  ghost predicate Stopped(row: Setting) {
    row.failures >= row.content.failureLimit ==> row.haltedAt.Some?
  }

  ghost predicate AllStopped(s: World) {
    forall o :: o in s.db.settings ==> Stopped(s.db.settings[o])
  }

  lemma EndKeepsStopped(s: Setting, spec: TaskSpec, v: Verdict, retry: bool, retryAt: Option<int>, now: int)
    requires Stopped(s) && s.content.failureLimit >= 1
    ensures Stopped(SettingAfter(s, spec, v, retry, retryAt, now))
  {
  }

  lemma ConfigureKeepsStopped(row: Setting, request: PolicyContent, now: int)
    requires Stopped(row) && SoundSetting(row)
    ensures Configure(row, request, now).Success? ==> Stopped(Configure(row, request, now).value)
  {
    ConfigureKeepsRowSound(row, request, now);
    hide Problem, StoredContent;
  }

  lemma OneRowStopped(s: World, o: OwnerId, row: Setting)
    requires AllStopped(s) && Stopped(row)
    ensures AllStopped(WithSetting(s, o, row))
  {
  }

  lemma OwnerKeepsStopped(s: World, e: Event)
    requires Inv(s) && AllStopped(s)
    requires e.CreateSetting? || e.ConfigurePolicy? || e.DisablePolicy? || e.SchedulerHalt? || e.SchedulerTick?
    ensures AllStopped(Step(s, e))
  {
    hide Inv, AllStopped, OnConfigure, OnSetting, Disable;
    match e
    case CreateSetting(o) => if o !in s.db.settings { OneRowStopped(s, o, NEW_SETTING); }
    case ConfigurePolicy(o, request, now) =>
      if o in s.db.settings { SettingFacts(s, o); }
      ConfigurationStopped(s, o, request, now);
    case DisablePolicy(o, reason, now) => DisableStopped(s, o, reason, now);
    case SchedulerHalt(o, reason, now) => HaltStopped(s, o, reason, now);
    case SchedulerTick(o, nextRunAt, now) => TickStopped(s, o, nextRunAt, now);
  }

  lemma RowStopped(s: World, o: OwnerId)
    requires AllStopped(s) && o in s.db.settings
    ensures Stopped(s.db.settings[o])
  {
  }

  lemma DisableRowStopped(row: Setting, reason: Code, now: int)
    requires Stopped(row)
    ensures Stopped(Disable(row, reason, now))
  {
  }

  lemma DisableStopped(s: World, o: OwnerId, reason: Code, now: int)
    requires AllStopped(s)
    ensures AllStopped(Step(s, DisablePolicy(o, reason, now)))
  {
    hide AllStopped, Disable, Stopped;
    if o in s.db.settings {
      RowStopped(s, o);
      DisableRowStopped(s.db.settings[o], reason, now);
      OneRowStopped(s, o, Disable(s.db.settings[o], reason, now));
    }
  }

  lemma HaltStopped(s: World, o: OwnerId, reason: Code, now: int)
    requires AllStopped(s)
    ensures AllStopped(Step(s, SchedulerHalt(o, reason, now)))
  {
    hide AllStopped;
    if o in s.db.settings {
      OneRowStopped(s, o, s.db.settings[o].(haltedAt := Some(now), haltedReason := reason, nextRunAt := None,
                                            lastRunAt := Some(now)));
    }
  }

  lemma TickStopped(s: World, o: OwnerId, nextRunAt: Option<int>, now: int)
    requires AllStopped(s)
    ensures AllStopped(Step(s, SchedulerTick(o, nextRunAt, now)))
  {
    hide AllStopped;
    if o in s.db.settings {
      RowStopped(s, o);
      OneRowStopped(s, o, s.db.settings[o].(nextRunAt := nextRunAt, lastRunAt := Some(now)));
    }
  }

  lemma ConfigurationStopped(s: World, o: OwnerId, request: PolicyContent, now: int)
    requires AllStopped(s) && (o in s.db.settings ==> SoundSetting(s.db.settings[o]))
    ensures AllStopped(OnConfigure(s, o, request, now))
  {
    hide Configure, SoundSetting;
    if o in s.db.settings {
      ConfigureKeepsStopped(s.db.settings[o], request, now);
      var configured := Configure(s.db.settings[o], request, now);
      if configured.Success? { OneRowStopped(s, o, configured.value); }
    }
  }

  lemma EndedKeepsStopped(s: World, id: TaskId, c: Completion, now: int)
    requires Inv(s) && AllStopped(s) && id in s.db.tasks
    ensures AllStopped(EndedBy(s, id, c, now))
  {
    hide Inv, EndedBy, SettingAfter, Resolve, GrantsRetry;
    EndedShape(s, id, c, now);
    TaskFacts(s, id);
    var t := s.db.tasks[id];
    var v := Resolve(t, RowsFor(s.db, t).execution, c, now);
    var retry := GrantsRetry(c, v);
    EndKeepsStopped(s.db.settings[t.spec.owner], t.spec, v, retry, if retry then c.retryAt else None, now);
  }

  lemma ReserveKeepsStopped(s: World, w: WorkerId, env: Environment, permit: Token, now: int)
    requires AllStopped(s)
    ensures AllStopped(OnReserve(s, w, env, permit, now))
  {
    hide Reserve, ReachesUsage, GateCode;
    if ReadyToDispatch(s, w) && permit !in s.issued {
      var me := WorkerAt(s, w);
      var t := s.db.tasks[me.id];
      var r := ReservationFor(t.spec, me.token, me.policy, now);
      var k := UsageId(t.spec.owner, r.budgetDay);
      var u := if k in s.db.usages then s.db.usages[k] else EMPTY_USAGE;
      if Reserve(t, Lookup(s.db.settings, t.spec.owner), u, r, env, permit).Allowed? {
        AllowedShape(t, Lookup(s.db.settings, t.spec.owner), u, r, env, permit);
      }
    }
  }

  lemma StepKeepsStopped(s: World, e: Event)
    requires Inv(s) && AllStopped(s)
    ensures AllStopped(Step(s, e))
  {
    hide Inv, AllStopped, OnReserve, OnComplete, OnSweep;
    if LeavesPolicies(e) {
      PoliciesLeft(s, e);
      SameSettingsStopped(s, Step(s, e));
    } else {
      match e {
        case ReserveDispatch(w, env, permit, now) => ReserveKeepsStopped(s, w, env, permit, now);
        case Complete(w, now) => CompleteKeepsStopped(s, w, now);
        case SweepExpired(id, before, code, now) => SweepKeepsStopped(s, id, before, code, now);
        case _ => OwnerKeepsStopped(s, e);
      }
    }
  }

  lemma SameSettingsStopped(s: World, s': World)
    requires AllStopped(s) && s'.db.settings == s.db.settings
    ensures AllStopped(s')
  {
  }

  lemma CompleteKeepsStopped(s: World, w: WorkerId, now: int)
    requires Inv(s) && AllStopped(s)
    ensures AllStopped(OnComplete(s, w, now))
  {
    hide Inv, AllStopped, EndedBy, MayFinish;
    var idle := Moved(s, w, Idle);
    SameSettingsStopped(s, idle);
    MoveWorker(s, w, Idle);
    var me := WorkerAt(s, w);
    if me.Closing? && me.id in s.db.tasks { EndedKeepsStopped(idle, me.id, me.completion, now); }
  }

  lemma SweepKeepsStopped(s: World, id: TaskId, before: int, code: Code, now: int)
    requires Inv(s) && AllStopped(s)
    ensures AllStopped(OnSweep(s, id, before, code, now))
  {
    hide Inv, AllStopped, EndedBy, RecoveryCompletion;
    if id in s.db.tasks && Expired(s.db.tasks[id], before) && code != NoCode {
      SweepIsEnd(s, id, before, code, now);
      EndedKeepsStopped(s, id, RecoveryCompletion(s.db.tasks[id], RowsFor(s.db, s.db.tasks[id]).execution, code), now);
    }
  }

  lemma {:induction false} RunKeepsStopped(s: World, events: seq<Event>)
    requires Inv(s) && AllStopped(s)
    ensures AllStopped(Run(s, events))
    decreases |events|
  {
    hide Inv, AllStopped, Step;
    if events != [] {
      StepKeeps(s, events[0]);
      StepKeepsStopped(s, events[0]);
      RunKeepsStopped(Step(s, events[0]), events[1..]);
    }
  }

  /** In every reachable state an owner whose failure streak has reached the limit is halted,
      so known failures always stop an owner in the end. */
  lemma StreakAtLimitIsHalted(events: seq<Event>, o: OwnerId)
    requires o in After(events).db.settings
    requires After(events).db.settings[o].failures >= After(events).db.settings[o].content.failureLimit
    ensures After(events).db.settings[o].haltedAt.Some?
  {
    hide Inv;
    StartIsSound();
    RunKeepsStopped(START, events);
  }
}
