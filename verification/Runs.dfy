/** Every event keeps the invariant, so every reachable state satisfies it. */
module Runs {
  import opened Vocabulary
  import opened Policies
  import opened Transitions
  import opened Protocol
  import opened Invariant
  import opened Frames
  import opened EndSteps
  import opened DispatchSteps
  import opened ActionSteps

  // ------------------------------------------------------------------- new tasks

  function Created(s: World, spec: TaskSpec, notBefore: Option<int>): World
    requires spec.owner in s.db.settings
  {
    WithTask(s, spec.Id(), NewTask(spec, notBefore)).(
      past := s.past.(pinned := s.past.pinned[spec.Id() := s.db.settings[spec.owner].content]))
  }

  ghost predicate MayCreate(s: World, spec: TaskSpec) {
    && spec.Id() !in s.db.tasks && spec.owner in s.db.settings
    && spec.policyVersion == s.db.settings[spec.owner].version
  }

  lemma CreateRows(s: World, spec: TaskSpec, notBefore: Option<int>)
    requires TasksInv(s.db) && ExecutionsInv(s.db) && MayCreate(s, spec)
    ensures var s' := Created(s, spec, notBefore);
            TasksInv(s'.db) && ExecutionsInv(s'.db)
  {
    var db' := Created(s, spec, notBefore).db;
    forall j | j in db'.tasks
      ensures TaskOk(j, db'.tasks[j]) && LinkOk(db', db'.tasks[j]) && db'.tasks[j].spec.owner in db'.settings
    {
      if j != spec.Id() { assert TaskOk(j, s.db.tasks[j]) && LinkOk(s.db, s.db.tasks[j]); }
    }
  }

  lemma CreatePins(s: World, spec: TaskSpec, notBefore: Option<int>)
    requires SettingsInv(s) && MayCreate(s, spec)
    ensures SettingsInv(Created(s, spec, notBefore))
  {
    var s' := Created(s, spec, notBefore);
    forall j | j in s'.db.tasks ensures j in s'.past.pinned && PinOk(s', j) {
      if j != spec.Id() { assert PinOk(s, j); }
    }
  }

  lemma CreatePermits(s: World, spec: TaskSpec, notBefore: Option<int>)
    requires PermitsInv(s) && MayCreate(s, spec)
    ensures PermitsInv(Created(s, spec, notBefore))
  {
  }

  lemma CreatePast(s: World, spec: TaskSpec, notBefore: Option<int>)
    requires LogInv(s) && EscapedInv(s) && MayCreate(s, spec)
    ensures LogInv(Created(s, spec, notBefore)) && EscapedInv(Created(s, spec, notBefore))
  {
  }

  lemma CreateBudget(s: World, s': World, spec: TaskSpec, notBefore: Option<int>)
    requires BudgetInv(s) && MayCreate(s, spec) && s' == Created(s, spec, notBefore)
    ensures BudgetInv(s')
  {
    BudgetFrame(s, s');
  }

  lemma CreateSpacing(s: World, s': World, spec: TaskSpec, notBefore: Option<int>)
    requires SpacingInv(s) && MayCreate(s, spec) && s' == Created(s, spec, notBefore)
    ensures SpacingInv(s')
  {
    SpacingFrame(s, s');
  }

  lemma CreateWorkers(s: World, spec: TaskSpec, notBefore: Option<int>)
    requires WorkersInv(s) && MayCreate(s, spec)
    ensures WorkersInv(Created(s, spec, notBefore))
  {
    var s' := Created(s, spec, notBefore);
    forall w | w in s'.workers ensures WorkerOk(s', w, s'.workers[w]) {
      assert WorkerOk(s, w, s.workers[w]);
    }
  }

  lemma CreateTask(s: World, spec: TaskSpec, notBefore: Option<int>)
    requires Inv(s) && MayCreate(s, spec)
    ensures Inv(Created(s, spec, notBefore))
  {
    CreateRows(s, spec, notBefore);
    CreatePins(s, spec, notBefore);
    CreatePermits(s, spec, notBefore);
    CreatePast(s, spec, notBefore);
    CreateBudget(s, Created(s, spec, notBefore), spec, notBefore);
    CreateSpacing(s, Created(s, spec, notBefore), spec, notBefore);
    CreateWorkers(s, spec, notBefore);
  }

  lemma EnqueueKeeps(s: World, spec: TaskSpec, notBefore: Option<int>)
    requires Inv(s)
    ensures Inv(OnEnqueue(s, spec, notBefore))
  {
    hide Inv;
    if MayCreate(s, spec) { CreateTask(s, spec, notBefore); }
  }

  // ---------------------------------------------------------------- leased work

  lemma WithdrawnMoves(id: TaskId, t: Task, status: TaskStatus, code: Code, now: int)
    requires TaskOk(id, t) && t.status.NotStarted() && status in {Stale, Cancelled}
    ensures PreDispatchMove(t, Withdrawn(t, status, code, now)) && Withdrawn(t, status, code, now).token.None?
  {
  }

  lemma CancelTaskKeeps(s: World, id: TaskId, stale: bool, code: Code, now: int)
    requires Inv(s)
    ensures Inv(OnCancelTask(s, id, stale, code, now))
  {
    hide Inv;
    if id in s.db.tasks && s.db.tasks[id].status.NotStarted() {
      TaskFacts(s, id);
      WithdrawnMoves(id, s.db.tasks[id], if stale then Stale else Cancelled, code, now);
      MoveTask(s, id, Withdrawn(s.db.tasks[id], if stale then Stale else Cancelled, code, now));
    }
  }

  lemma ClaimByParts(s: World, w: WorkerId, id: TaskId, token: Token, now: int, leaseUntil: int)
    requires WorkerAt(s, w).Idle? && id in s.db.tasks && Claimable(s.db.tasks[id], now) && token !in s.issued
    ensures var t' := Claimed(s.db.tasks[id], w, token, now, leaseUntil);
            var s1 := s.(issued := s.issued + {token});
            OnClaim(s, w, id, token, now, leaseUntil) == Moved(WithTask(s1, id, t'), w, Holding(id, token, t'.attempts))
  {
  }

  lemma ClaimKeeps(s: World, w: WorkerId, id: TaskId, token: Token, now: int, leaseUntil: int)
    requires Inv(s)
    ensures Inv(OnClaim(s, w, id, token, now, leaseUntil))
  {
    hide Inv;
    if WorkerAt(s, w).Idle? && id in s.db.tasks && Claimable(s.db.tasks[id], now) && token !in s.issued {
      TaskFacts(s, id);
      FreshToken(s, token);
      IssueToken(s, token);
      var s1 := s.(issued := s.issued + {token});
      var t' := Claimed(s.db.tasks[id], w, token, now, leaseUntil);
      MoveTask(s1, id, t');
      var s2 := WithTask(s1, id, t');
      MoveWorker(s2, w, Holding(id, token, t'.attempts));
      ClaimByParts(s, w, id, token, now, leaseUntil);
    }
  }

  lemma PreflightStops(spec: TaskSpec, policy: Option<Policy>, now: int)
    ensures var check := Preflight(spec, policy, now);
            && (check.Stop? ==> ValidCompletion(check.completion) && EndsEarly(check.completion))
            && (check.Proceed? ==> policy.Some? && policy.value.version == spec.policyVersion)
  {
    hide ValidCompletion, EndsEarly, CancelledWith, StaleWith, TooLate, Policy.Enables;
    EarlyCompletions();
  }

  lemma EarlyCompletions()
    ensures forall code: Code :: code != NoCode ==>
              ValidCompletion(CancelledWith(code)) && EndsEarly(CancelledWith(code))
    ensures forall code: Code :: code != NoCode ==> ValidCompletion(StaleWith(code)) && EndsEarly(StaleWith(code))
  {
  }

  /** A policy that passed preflight was translated from the content the task is pinned to. */
  lemma PolicyIsPinned(s: World, id: TaskId, env: Environment, now: int)
    requires Inv(s) && id in s.db.tasks
    requires var spec := s.db.tasks[id].spec;
             && spec.owner in s.db.settings
             && Preflight(spec, PolicyFromRows(s.db.settings[spec.owner], env), now).Proceed?
    ensures var spec := s.db.tasks[id].spec;
            && id in s.past.pinned && PolicyFromRows(s.db.settings[spec.owner], env).Some?
            && Faithful(PolicyFromRows(s.db.settings[spec.owner], env).value, spec, s.past.pinned[id])
  {
    var spec := s.db.tasks[id].spec;
    TaskFacts(s, id);
    PreflightStops(spec, PolicyFromRows(s.db.settings[spec.owner], env), now);
    LimitsAgree(s.db.settings[spec.owner], env, spec.taskType);
  }

  lemma InspectStops()
    ensures ValidCompletion(FailedWith(TaskAttemptsExhausted))
    ensures forall taskType: TaskType, head: Head, drafted: bool ::
              ValidCompletion(StaleWith(HeadCode(taskType, head, drafted)))
    ensures EndsEarly(FailedWith(TaskAttemptsExhausted))
    ensures forall taskType: TaskType, head: Head, drafted: bool ::
              EndsEarly(StaleWith(HeadCode(taskType, head, drafted)))
  {
  }

  lemma InspectOutcome(s: World, w: WorkerId, env: Environment, head: Head, now: int)
    requires WorkerAt(s, w).Holding? && WorkerAt(s, w).id in s.db.tasks
    ensures var me := WorkerAt(s, w);
            var spec := s.db.tasks[me.id].spec;
            var row := Lookup(s.db.settings, spec.owner);
            var policy := if row.None? then None else PolicyFromRows(row.value, env);
            var s' := OnInspect(s, w, env, head, now);
            exists me' :: s' == Moved(s, w, me') && !me'.Idle? && me'.id == me.id && me'.token == me.token
              && (|| (&& me'.Closing? && !me'.dispatched && ValidCompletion(me'.completion)
                      && EndsEarly(me'.completion))
                  || (me'.Deferring? && me'.attempt == me.attempt && me.attempt <= MAX_ATTEMPTS)
                  || (&& policy.Some? && me' == Ready(me.id, me.token, me.attempt, policy.value)
                      && me.attempt <= MAX_ATTEMPTS
                      && Preflight(spec, policy, now).Proceed?))
  {
    hide PolicyFromRows, QuietWindowEnd, Preflight, ValidCompletion, EndsEarly;
    var me := WorkerAt(s, w);
    var spec := s.db.tasks[me.id].spec;
    var row := Lookup(s.db.settings, spec.owner);
    var policy := if row.None? then None else PolicyFromRows(row.value, env);
    PreflightStops(spec, policy, now);
    InspectStops();
    var me' := OnInspect(s, w, env, head, now).workers[w];
    assert OnInspect(s, w, env, head, now) == Moved(s, w, me');
  }

  lemma NothingInspected(s: World, w: WorkerId, env: Environment, head: Head, now: int)
    requires !WorkerAt(s, w).Holding? || WorkerAt(s, w).id !in s.db.tasks
    ensures OnInspect(s, w, env, head, now) == s
  {
  }

  lemma InspectKeeps(s: World, w: WorkerId, env: Environment, head: Head, now: int)
    requires Inv(s)
    ensures Inv(OnInspect(s, w, env, head, now))
  {
    hide Inv, OnInspect, Preflight, PolicyFromRows, Faithful, ValidCompletion, EndsEarly;
    var me := WorkerAt(s, w);
    if !(me.Holding? && me.id in s.db.tasks) {
      NothingInspected(s, w, env, head, now);
    } else {
      WorkerFacts(s, w);
      InspectOutcome(s, w, env, head, now);
      var me' := OnInspect(s, w, env, head, now).workers[w];
      var spec := s.db.tasks[me.id].spec;
      TaskFacts(s, me.id);
      if me'.Ready? { PolicyIsPinned(s, me.id, env, now); }
      MoveWorker(s, w, me');
    }
  }

  lemma BeginGenerationKeeps(s: World, w: WorkerId, now: int, leaseUntil: int)
    requires Inv(s)
    ensures Inv(OnBeginGeneration(s, w, now, leaseUntil))
  {
    hide Inv;
    var me := WorkerAt(s, w);
    if me.Ready? && me.id in s.db.tasks && NeedsGeneratedText(s.db.tasks[me.id].spec.taskType) {
      WorkerFacts(s, w);
      TaskFacts(s, me.id);
      if MayBeginGeneration(s.db.tasks[me.id], me.token, now) {
        var s1 := WithTask(s, me.id, GenerationBegun(s.db.tasks[me.id], leaseUntil));
        MoveTask(s, me.id, GenerationBegun(s.db.tasks[me.id], leaseUntil));
        WorkerFacts(s1, w);
        MoveWorker(s1, w, Drafting(me.id, me.token, me.attempt, me.policy));
      } else {
        MoveWorker(s, w, Idle);
      }
    }
  }

  lemma GenerationFailsKeeps(s: World, w: WorkerId, code: Code)
    requires Inv(s)
    ensures Inv(OnGenerationFails(s, w, code))
  {
    hide Inv;
    var me := WorkerAt(s, w);
    if me.Drafting? {
      WorkerFacts(s, w);
      var failure := OrElse(code, AutonomyTaskFailed);
      MoveWorker(s, w, Closing(me.id, me.token, if SafeToSkip(failure) then StaleWith(failure) else FailedWith(failure),
                               false));
    }
  }

  lemma RenewLeaseKeeps(s: World, w: WorkerId, head: Head, now: int, leaseUntil: int)
    requires Inv(s)
    ensures Inv(OnRenewLease(s, w, head, now, leaseUntil))
  {
    hide Inv, OnRenewLease, RenewOutcome, HoldsLiveLease;
    var me := WorkerAt(s, w);
    if me.Drafting? && me.id in s.db.tasks {
      RenewByParts(s, w, head, now, leaseUntil);
      if HoldsLiveLease(s.db.tasks[me.id], me.token, now) {
        LiveRenewalKeeps(s, w, head, now, leaseUntil);
      } else {
        MoveWorker(s, w, Idle);
      }
    } else {
      NothingRenewed(s, w, head, now, leaseUntil);
    }
  }

  lemma NothingRenewed(s: World, w: WorkerId, head: Head, now: int, leaseUntil: int)
    requires !WorkerAt(s, w).Drafting? || WorkerAt(s, w).id !in s.db.tasks
    ensures OnRenewLease(s, w, head, now, leaseUntil) == s
  {
  }

  lemma LiveRenewalKeeps(s: World, w: WorkerId, head: Head, now: int, leaseUntil: int)
    requires Inv(s) && WorkerAt(s, w).Drafting? && WorkerAt(s, w).id in s.db.tasks
    requires HoldsLiveLease(s.db.tasks[WorkerAt(s, w).id], WorkerAt(s, w).token, now)
    ensures var me := WorkerAt(s, w);
            var t := s.db.tasks[me.id];
            Inv(Moved(WithTask(s, me.id, t.(leaseUntil := Some(leaseUntil))), w,
                      RenewOutcome(t.spec, me, head, now)))
  {
    hide Inv, RenewOutcome, ValidCompletion, EndsEarly;
    RenewalLeadsOn(s.db.tasks[WorkerAt(s, w).id].spec, WorkerAt(s, w), head, now);
    var me := WorkerAt(s, w);
    var t := s.db.tasks[me.id];
    WorkerFacts(s, w);
    TaskFacts(s, me.id);
    MoveTask(s, me.id, t.(leaseUntil := Some(leaseUntil)));
    var s1 := WithTask(s, me.id, t.(leaseUntil := Some(leaseUntil)));
    WorkerFacts(s1, w);
    MoveWorker(s1, w, RenewOutcome(t.spec, me, head, now));
  }

  function RenewOutcome(spec: TaskSpec, me: Worker, head: Head, now: int): Worker
    requires me.Drafting?
  {
    var quiet := QuietWindowEnd(me.policy, now);
    if quiet.Some? then Deferring(me.id, me.token, me.attempt, quiet.value, QuietHours)
    else if NeedsCurrentHead(spec.taskType) && head != Unmoved
    then Closing(me.id, me.token, StaleWith(HeadCode(spec.taskType, head, true)), false)
    else if TooLate(spec, me.policy, now) then Closing(me.id, me.token, StaleWith(ScheduledPostExpired), false)
    else Drafted(me.id, me.token, me.attempt, me.policy)
  }

  /** After a renewal a worker ends early, waits or goes on with its draft. */
  lemma RenewalLeadsOn(spec: TaskSpec, me: Worker, head: Head, now: int)
    requires me.Drafting?
    ensures var me' := RenewOutcome(spec, me, head, now);
            && !me'.Idle? && me'.id == me.id && me'.token == me.token
            && (|| (me'.Closing? && !me'.dispatched && ValidCompletion(me'.completion) && EndsEarly(me'.completion))
                || (me'.Deferring? && me'.attempt == me.attempt)
                || me' == Drafted(me.id, me.token, me.attempt, me.policy))
  {
    hide QuietWindowEnd, TooLate, NeedsCurrentHead;
  }

  lemma RenewByParts(s: World, w: WorkerId, head: Head, now: int, leaseUntil: int)
    requires WorkerAt(s, w).Drafting? && WorkerAt(s, w).id in s.db.tasks
    ensures var me := WorkerAt(s, w);
            var t := s.db.tasks[me.id];
            OnRenewLease(s, w, head, now, leaseUntil) ==
              if HoldsLiveLease(t, me.token, now)
              then Moved(WithTask(s, me.id, t.(leaseUntil := Some(leaseUntil))), w,
                         RenewOutcome(t.spec, me, head, now))
              else Moved(s, w, Idle)
  {
  }

  lemma DeferKeeps(s: World, w: WorkerId)
    requires Inv(s)
    ensures Inv(OnDefer(s, w))
  {
    hide Inv;
    var me := WorkerAt(s, w);
    if me.Deferring? {
      WorkerFacts(s, w);
      MoveWorker(s, w, Idle);
      if me.id in s.db.tasks && MayDefer(s.db.tasks[me.id], me.token) {
        TaskFacts(s, me.id);
        MoveTask(Moved(s, w, Idle), me.id, DeferredTask(s.db.tasks[me.id], me.notBefore, me.code));
      }
    }
  }

  // ------------------------------------------------------------------ completion

  lemma CompleteKeeps(s: World, w: WorkerId, now: int)
    requires Inv(s)
    ensures Inv(OnComplete(s, w, now))
  {
    hide Inv;
    var me := WorkerAt(s, w);
    if me.Closing? {
      WorkerFacts(s, w);
      MoveWorker(s, w, Idle);
      var idle := Moved(s, w, Idle);
      if me.id in s.db.tasks && MayFinish(s.db.tasks[me.id], me.token) {
        TaskFacts(s, me.id);
        if s.db.tasks[me.id].status == Dispatching {
          DispatchedEnd(idle, me.id, me.completion, now);
        } else {
          PreDispatchEnd(idle, me.id, me.completion, now);
        }
      }
    }
  }

  // ---------------------------------------------------------------- other actors

  lemma ExpireExecutionKeeps(s: World, key: ExecutionId, now: int)
    requires Inv(s)
    ensures Inv(OnExpireExecution(s, key, now))
  {
    hide Inv;
    if key in s.db.executions && s.db.executions[key].status == ExecRunning {
      ExecutionFacts(s, key);
      CloseExecution(s, key, UnknownExecution(s.db.executions[key], ExecutionTimeoutUnknown, now));
    }
  }

  /** An audit row that is still queued never belongs to an unattended task. */
  lemma QueuedIsUserOwned(s: World, key: ExecutionId)
    requires Inv(s) && key in s.db.executions && s.db.executions[key].status == ExecQueued
    ensures key.key.UserScoped? && s.db.executions[key].id == key
  {
    if key.key.Autonomous? {
      TaskFacts(s, TaskId(key.owner, key.key.taskKey));
    }
  }

  lemma CancelExecutionKeeps(s: World, key: ExecutionId, code: Code, now: int)
    requires Inv(s)
    ensures Inv(OnCancelExecution(s, key, code, now))
  {
    hide Inv;
    if key in s.db.executions && s.db.executions[key].status == ExecQueued {
      QueuedIsUserOwned(s, key);
      WriteUserExecution(s, CancelledExecution(s.db.executions[key], code, now));
    }
  }

  lemma ConfigureKeeps(s: World, o: OwnerId, request: PolicyContent, now: int)
    requires Inv(s)
    ensures Inv(OnConfigure(s, o, request, now))
  {
    hide Inv;
    if o in s.db.settings && Configure(s.db.settings[o], request, now).Success? {
      SettingFacts(s, o);
      ConfigureKeepsRowSound(s.db.settings[o], request, now);
      ConfigureVersions(s.db.settings[o], request, now);
      MoveSetting(s, o, Configure(s.db.settings[o], request, now).value);
    }
  }

  lemma DisableMoves(row: Setting, reason: Code, now: int)
    requires SoundSetting(row)
    ensures PolicyMove(row, Disable(row, reason, now))
  {
  }

  lemma DisableKeeps(s: World, o: OwnerId, reason: Code, now: int)
    requires Inv(s)
    ensures Inv(Step(s, DisablePolicy(o, reason, now)))
  {
    hide Inv;
    if o in s.db.settings {
      SettingFacts(s, o);
      DisableMoves(s.db.settings[o], reason, now);
      MoveSetting(s, o, Disable(s.db.settings[o], reason, now));
    }
  }

  lemma HaltKeeps(s: World, o: OwnerId, reason: Code, now: int)
    requires Inv(s)
    ensures Inv(Step(s, SchedulerHalt(o, reason, now)))
  {
    hide Inv;
    if o in s.db.settings {
      SettingFacts(s, o);
      MoveSetting(s, o,
                  s.db.settings[o].(haltedAt := Some(now), haltedReason := reason, nextRunAt := None,
                                    lastRunAt := Some(now)));
    }
  }

  lemma TickKeeps(s: World, o: OwnerId, nextRunAt: Option<int>, now: int)
    requires Inv(s)
    ensures Inv(Step(s, SchedulerTick(o, nextRunAt, now)))
  {
    hide Inv;
    if o in s.db.settings {
      SettingFacts(s, o);
      MoveSetting(s, o, s.db.settings[o].(nextRunAt := nextRunAt, lastRunAt := Some(now)));
    }
  }

  // ------------------------------------------------------------------- every event

  lemma WorkerStepKeeps(s: World, e: Event)
    requires Inv(s)
    requires e.Claim? || e.Inspect? || e.BeginGeneration? || e.GenerationFails? || e.RenewLease? || e.Defer?
             || e.ReserveDispatch? || e.PrepareExecution? || e.Act? || e.GateRaises? || e.Finalize?
             || e.DispatcherRaises? || e.Complete? || e.Crash?
    ensures Inv(Step(s, e))
  {
    hide Inv, OnClaim, OnInspect, OnBeginGeneration, OnGenerationFails, OnRenewLease, OnReserve, OnDefer;
    hide OnPrepare, OnAct, OnGateRaises, OnFinalize, OnDispatcherRaises, OnComplete;
    match e
    case Claim(w, id, token, now, leaseUntil) => ClaimKeeps(s, w, id, token, now, leaseUntil);
    case Inspect(w, env, head, now) => InspectKeeps(s, w, env, head, now);
    case BeginGeneration(w, now, leaseUntil) => BeginGenerationKeeps(s, w, now, leaseUntil);
    case GenerationFails(w, code) => GenerationFailsKeeps(s, w, code);
    case RenewLease(w, head, now, leaseUntil) => RenewLeaseKeeps(s, w, head, now, leaseUntil);
    case ReserveDispatch(w, env, permit, now) => ReserveKeeps(s, w, env, permit, now);
    case Defer(w) => DeferKeeps(s, w);
    case PrepareExecution(w, snapshot, fate, code, now) => PrepareKeeps(s, w, snapshot, fate, code, now);
    case Act(w, env, reply, fate, code, now) => ActKeeps(s, w, env, reply, fate, code, now);
    case GateRaises(w, code) => GateRaisesKeeps(s, w, code);
    case Finalize(w, swallowed, now) => FinalizeKeeps(s, w, swallowed, now);
    case DispatcherRaises(w) => DispatcherRaisesKeeps(s, w);
    case Complete(w, now) => CompleteKeeps(s, w, now);
    case Crash(w) => MoveWorker(s, w, Idle);
  }

  lemma OwnerStepKeeps(s: World, e: Event)
    requires Inv(s)
    requires e.CreateSetting? || e.ConfigurePolicy? || e.DisablePolicy? || e.SchedulerHalt? || e.SchedulerTick?
    ensures Inv(Step(s, e))
  {
    hide Inv;
    match e
    case CreateSetting(owner) => if owner !in s.db.settings { AddSetting(s, owner); }
    case ConfigurePolicy(owner, request, now) => ConfigureKeeps(s, owner, request, now);
    case DisablePolicy(owner, reason, now) => DisableKeeps(s, owner, reason, now);
    case SchedulerHalt(owner, reason, now) => HaltKeeps(s, owner, reason, now);
    case SchedulerTick(owner, nextRunAt, now) => TickKeeps(s, owner, nextRunAt, now);
  }

  lemma RecordStepKeeps(s: World, e: Event)
    requires Inv(s)
    requires e.Enqueue? || e.SweepExpired? || e.CancelTask? || e.ExpireExecution? || e.CancelExecution?
             || e.UserExecution?
    ensures Inv(Step(s, e))
  {
    hide Inv, OnEnqueue, OnSweep, OnCancelTask, OnExpireExecution, OnCancelExecution;
    match e
    case Enqueue(spec, notBefore) => EnqueueKeeps(s, spec, notBefore);
    case SweepExpired(id, before, code, now) => SweepKeeps(s, id, before, code, now);
    case CancelTask(id, stale, code, now) => CancelTaskKeeps(s, id, stale, code, now);
    case ExpireExecution(key, now) => ExpireExecutionKeeps(s, key, now);
    case CancelExecution(key, code, now) => CancelExecutionKeeps(s, key, code, now);
    case UserExecution(row) => if row.id.key.UserScoped? { WriteUserExecution(s, row); }
  }

  lemma StepKeeps(s: World, e: Event)
    requires Inv(s)
    ensures Inv(Step(s, e))
  {
    hide Inv;
    if e.Claim? || e.Inspect? || e.BeginGeneration? || e.GenerationFails? || e.RenewLease? || e.Defer?
       || e.ReserveDispatch? || e.PrepareExecution? || e.Act? || e.GateRaises? || e.Finalize?
       || e.DispatcherRaises? || e.Complete? || e.Crash? {
      WorkerStepKeeps(s, e);
    } else if e.CreateSetting? || e.ConfigurePolicy? || e.DisablePolicy? || e.SchedulerHalt? || e.SchedulerTick? {
      OwnerStepKeeps(s, e);
    } else {
      RecordStepKeeps(s, e);
    }
  }

  /** Every state that any run reaches from a sound state is sound. */
  lemma {:induction false} RunKeeps(s: World, events: seq<Event>)
    requires Inv(s)
    ensures Inv(Run(s, events))
    decreases |events|
  {
    hide Inv;
    if events != [] {
      StepKeeps(s, events[0]);
      RunKeeps(Step(s, events[0]), events[1..]);
    }
  }
}
