/** What one event may do to rows that already exist, and so what no run ever undoes. */
module Progress {
  import opened Vocabulary
  import opened Policies
  import opened Transitions
  import opened Protocol
  import opened Invariant
  import opened Frames
  import opened Endings
  import opened EndSteps
  import opened DispatchSteps

  // ---------------------------------------------------------------- task rows

  /** How a stored task may change: only a claim is counted, an end is final, a dispatch never goes back to
      claimable work, and what was reserved and linked stays reserved and linked. */
  ghost predicate Onward(t: Task, t': Task, claimed: bool) {
    && t'.spec == t.spec
    && t'.attempts == (if claimed then t.attempts + 1 else t.attempts)
    && (t.status.Terminal() ==> t' == t)
    && (t.status == Dispatching ==>
          || (t'.status == Dispatching && t'.token == t.token)
          || t'.status in {Succeeded, Failed, Stale, ManualReview})
    && (t.budgetDay.Some? ==>
          t'.budgetDay == t.budgetDay && t'.dispatchStartedAt == t.dispatchStartedAt && t'.actionKey == t.actionKey)
    && (t.execution.Some? ==> t'.execution == t.execution)
  }

  /** A token on a row is the one that was there, none, or one never issued before. */
  ghost predicate FreshOrKept(issued: set<Token>, t: Task, t': Task) {
    t'.token == t.token || t'.token.None? || t'.token.value !in issued
  }

  ghost predicate TasksOnward(s: World, s': World, claimed: set<TaskId>) {
    && s.issued <= s'.issued
    && (forall id :: id in s'.db.tasks && id !in s.db.tasks ==> s'.db.tasks[id].attempts == 0)
    && forall id :: id in s.db.tasks ==>
         && id in s'.db.tasks
         && Onward(s.db.tasks[id], s'.db.tasks[id], id in claimed)
         && FreshOrKept(s.issued, s.db.tasks[id], s'.db.tasks[id])
  }

  /** The task that an event claims, if its claim succeeds. */
  function Taken(s: World, e: Event): set<TaskId> {
    if e.Claim? && WorkerAt(s, e.worker).Idle? && e.id in s.db.tasks && Claimable(s.db.tasks[e.id], e.now)
       && e.token !in s.issued
    then {e.id} else {}
  }

  lemma EnqueueOnward(s: World, spec: TaskSpec, notBefore: Option<int>)
    ensures TasksOnward(s, OnEnqueue(s, spec, notBefore), {})
  {
    hide WellFormedSpec;
  }

  lemma CancelOnward(s: World, id: TaskId, stale: bool, code: Code, now: int)
    ensures TasksOnward(s, OnCancelTask(s, id, stale, code, now), {})
  {
    hide Withdrawn;
    if id in s.db.tasks && s.db.tasks[id].status.NotStarted() {
      WithdrawnOnward(s.issued, s.db.tasks[id], if stale then Stale else Cancelled, code, now);
    }
  }

  lemma WithdrawnOnward(issued: set<Token>, t: Task, status: TaskStatus, code: Code, now: int)
    requires t.status.NotStarted()
    ensures Onward(t, Withdrawn(t, status, code, now), false) && FreshOrKept(issued, t, Withdrawn(t, status, code, now))
  {
  }

  lemma ClaimOnward(s: World, w: WorkerId, id: TaskId, token: Token, now: int, leaseUntil: int)
    ensures TasksOnward(s, OnClaim(s, w, id, token, now, leaseUntil), Taken(s, Claim(w, id, token, now, leaseUntil)))
  {
    hide Claimed, Claimable;
    if Taken(s, Claim(w, id, token, now, leaseUntil)) != {} {
      ClaimedOnward(s.issued, s.db.tasks[id], w, token, now, leaseUntil);
    }
  }

  lemma ClaimedOnward(issued: set<Token>, t: Task, w: WorkerId, token: Token, now: int, leaseUntil: int)
    requires Claimable(t, now) && token !in issued
    ensures var t' := Claimed(t, w, token, now, leaseUntil);
            Onward(t, t', true) && FreshOrKept(issued, t, t')
  {
  }

  lemma BeginGenerationOnward(s: World, w: WorkerId, now: int, leaseUntil: int)
    ensures TasksOnward(s, OnBeginGeneration(s, w, now, leaseUntil), {})
  {
  }

  lemma RenewOnward(s: World, w: WorkerId, head: Head, now: int, leaseUntil: int)
    ensures TasksOnward(s, OnRenewLease(s, w, head, now, leaseUntil), {})
  {
    hide QuietWindowEnd, TooLate;
  }

  lemma DeferOnward(s: World, w: WorkerId)
    ensures TasksOnward(s, OnDefer(s, w), {})
  {
  }

  /** Events that leave every task row alone. */
  ghost predicate LeavesTasks(e: Event) {
    || e.Inspect? || e.GenerationFails? || e.Act? || e.GateRaises? || e.Finalize? || e.DispatcherRaises? || e.Crash?
    || e.ExpireExecution? || e.CancelExecution? || e.UserExecution? || e.CreateSetting? || e.ConfigurePolicy?
    || e.DisablePolicy? || e.SchedulerHalt? || e.SchedulerTick?
  }

  lemma TasksLeft(s: World, e: Event)
    requires LeavesTasks(e)
    ensures Step(s, e).db.tasks == s.db.tasks && Step(s, e).issued == s.issued
  {
    hide Step;
    if e.CreateSetting? || e.ConfigurePolicy? || e.DisablePolicy? || e.SchedulerHalt? || e.SchedulerTick? {
      OwnerLeavesTasks(s, e);
    } else if e.ExpireExecution? || e.CancelExecution? || e.UserExecution? {
      AuditLeavesTasks(s, e);
    } else {
      WorkerLeavesTasks(s, e);
    }
  }

  lemma OwnerLeavesTasks(s: World, e: Event)
    requires e.CreateSetting? || e.ConfigurePolicy? || e.DisablePolicy? || e.SchedulerHalt? || e.SchedulerTick?
    ensures Step(s, e).db.tasks == s.db.tasks && Step(s, e).issued == s.issued
  {
    hide Configure, Disable;
  }

  lemma AuditLeavesTasks(s: World, e: Event)
    requires e.ExpireExecution? || e.CancelExecution? || e.UserExecution?
    ensures Step(s, e).db.tasks == s.db.tasks && Step(s, e).issued == s.issued
  {
    hide UnknownExecution, CancelledExecution;
  }

  lemma WorkerLeavesTasks(s: World, e: Event)
    requires e.Inspect? || e.GenerationFails? || e.Act? || e.GateRaises? || e.Finalize? || e.DispatcherRaises?
             || e.Crash?
    ensures Step(s, e).db.tasks == s.db.tasks && Step(s, e).issued == s.issued
  {
    hide OnInspect, OnAct, OnFinalize, CompletionFor;
    match e
    case Inspect(w, env, head, now) => InspectLeavesTasks(s, w, env, head, now);
    case Act(w, env, reply, fate, code, now) => ActLeavesTasks(s, w, env, reply, fate, code, now);
    case Finalize(w, swallowed, now) => FinalizeLeavesTasks(s, w, swallowed, now);
    case _ =>
  }

  lemma InspectLeavesTasks(s: World, w: WorkerId, env: Environment, head: Head, now: int)
    ensures var s' := OnInspect(s, w, env, head, now);
            s'.db == s.db && s'.issued == s.issued
  {
    hide QuietWindowEnd, Preflight, PolicyFromRows;
  }

  lemma ActLeavesTasks(s: World, w: WorkerId, env: Environment, reply: ProviderReply, fate: CommitFate, code: Code,
                       now: int)
    ensures var s' := OnAct(s, w, env, reply, fate, code, now);
            s'.db.tasks == s.db.tasks && s'.db.settings == s.db.settings && s'.issued == s.issued
  {
    hide PermitHolds, CompletionFor, Recorded;
  }

  lemma FinalizeLeavesTasks(s: World, w: WorkerId, swallowed: bool, now: int)
    ensures var s' := OnFinalize(s, w, swallowed, now);
            s'.db.tasks == s.db.tasks && s'.db.settings == s.db.settings && s'.issued == s.issued
  {
    hide CompletionFor, Recorded;
  }

  lemma NothingMoved(s: World, s': World)
    requires s'.db.tasks == s.db.tasks && s.issued <= s'.issued
    ensures TasksOnward(s, s', {})
  {
  }

  lemma PrepareOnward(s: World, w: WorkerId, snapshot: nat, fate: CommitFate, code: Code, now: int)
    ensures TasksOnward(s, OnPrepare(s, w, snapshot, fate, code, now), {})
  {
    hide PreparedRow, CompletionFor;
  }

  /** A reservation writes at most the one task it is for. */
  lemma ReserveShape(s: World, w: WorkerId, env: Environment, permit: Token, now: int)
    requires ReadyToDispatch(s, w) && permit !in s.issued
    ensures var me := WorkerAt(s, w);
            var t := s.db.tasks[me.id];
            var r := ReservationFor(t.spec, me.token, me.policy, now);
            var k := UsageId(t.spec.owner, r.budgetDay);
            var u := if k in s.db.usages then s.db.usages[k] else EMPTY_USAGE;
            var d := Reserve(t, Lookup(s.db.settings, t.spec.owner), u, r, env, permit);
            var s' := OnReserve(s, w, env, permit, now);
            && s.issued <= s'.issued
            && s'.db.tasks == if d.Allowed? then s.db.tasks[me.id := d.task] else s.db.tasks
  {
    hide Reserve, ReachesUsage, GateCode, ReservationFor;
  }

  lemma AllowedOnward(issued: set<Token>, t: Task, row: Option<Setting>, u: Usage, r: Reservation, env: Environment,
                      permit: Token)
    requires Reserve(t, row, u, r, env, permit).Allowed? && permit !in issued
    requires t.budgetDay.None? && t.execution.None?
    ensures var t' := Reserve(t, row, u, r, env, permit).task;
            Onward(t, t', false) && FreshOrKept(issued, t, t')
  {
    hide Reserve, GateCode;
    AllowedShape(t, row, u, r, env, permit);
  }

  lemma OneTaskOnward(s: World, s': World, id: TaskId, t': Task)
    requires id in s.db.tasks && s'.db.tasks == s.db.tasks[id := t'] && s.issued <= s'.issued
    requires Onward(s.db.tasks[id], t', false) && FreshOrKept(s.issued, s.db.tasks[id], t')
    ensures TasksOnward(s, s', {})
  {
  }

  lemma ReserveOnward(s: World, w: WorkerId, env: Environment, permit: Token, now: int)
    requires Inv(s)
    ensures TasksOnward(s, OnReserve(s, w, env, permit, now), {})
  {
    if ReadyToDispatch(s, w) && permit !in s.issued {
      ReadyOnward(s, OnReserve(s, w, env, permit, now), w, env, permit, now);
    } else {
      hide Inv;
      NothingMoved(s, OnReserve(s, w, env, permit, now));
    }
  }

  lemma ReadyOnward(s: World, s': World, w: WorkerId, env: Environment, permit: Token, now: int)
    requires Inv(s) && ReadyToDispatch(s, w) && permit !in s.issued && s' == OnReserve(s, w, env, permit, now)
    ensures TasksOnward(s, s', {})
  {
    hide Inv, Reserve, OnReserve, ReservationFor, EarliestNext, TasksOnward, Onward, FreshOrKept;
    ReserveShape(s, w, env, permit, now);
    var me := WorkerAt(s, w);
    var t := s.db.tasks[me.id];
    var r := ReservationFor(t.spec, me.token, me.policy, now);
    var k := UsageId(t.spec.owner, r.budgetDay);
    var u := if k in s.db.usages then s.db.usages[k] else EMPTY_USAGE;
    var row := Lookup(s.db.settings, t.spec.owner);
    if Reserve(t, row, u, r, env, permit).Allowed? {
      AllowedIsLeased(s, me.id, row, u, r, env, permit);
      AllowedOnward(s.issued, t, row, u, r, env, permit);
      OneTaskOnward(s, s', me.id, Reserve(t, row, u, r, env, permit).task);
    } else {
      NothingMoved(s, s');
    }
  }

  lemma AllowedIsLeased(s: World, id: TaskId, row: Option<Setting>, u: Usage, r: Reservation, env: Environment,
                        permit: Token)
    requires Inv(s) && id in s.db.tasks && Reserve(s.db.tasks[id], row, u, r, env, permit).Allowed?
    ensures s.db.tasks[id].budgetDay.None? && s.db.tasks[id].execution.None?
  {
    hide Inv, Reserve, GateCode;
    AllowedShape(s.db.tasks[id], row, u, r, env, permit);
    TaskFacts(s, id);
  }

  /** Ending a task writes its own row, its owner's policy row and nothing else here. */
  lemma EndedShape(s: World, id: TaskId, c: Completion, now: int)
    requires id in s.db.tasks
    ensures var s' := EndedBy(s, id, c, now);
            var t := s.db.tasks[id];
            var v := Resolve(t, RowsFor(s.db, t).execution, c, now);
            var retry := GrantsRetry(c, v);
            && s'.past.log == s.past.log && s'.issued == s.issued && s'.workers == s.workers
            && s'.past.pinned == s.past.pinned
            && (s'.db.tasks == s.db.tasks || s'.db.tasks == s.db.tasks[id := Ended(t, v, now)])
            && (s'.db.settings == s.db.settings
                || (&& t.spec.owner in s.db.settings
                    && s'.db.settings == s.db.settings[t.spec.owner :=
                         SettingAfter(s.db.settings[t.spec.owner], t.spec, v, retry,
                                      if retry then c.retryAt else None, now)]))
  {
    hide Resolve, Ended, SettingAfter;
  }

  lemma EndOnward(s: World, id: TaskId, c: Completion, now: int)
    requires Inv(s) && id in s.db.tasks && !s.db.tasks[id].status.Terminal() && ValidCompletion(c)
    requires id in s.past.escaped ==> c.status == ManualReview
    ensures TasksOnward(s, EndedBy(s, id, c, now), {})
  {
    hide Inv, EndedBy, Resolve;
    EndedShape(s, id, c, now);
    if s.db.tasks[id].status == Dispatching { DispatchedRows(s, id, c, now); }
  }

  /** A worker about to end a task asks for something consistent, and for review when the
      action's record was lost. */
  lemma ClosingFacts(s: World, w: WorkerId)
    requires Inv(s) && WorkerAt(s, w).Closing?
    requires WorkerAt(s, w).id in s.db.tasks && MayFinish(s.db.tasks[WorkerAt(s, w).id], WorkerAt(s, w).token)
    ensures var me := WorkerAt(s, w);
            && ValidCompletion(me.completion)
            && (me.id in s.past.escaped ==> me.completion.status == ManualReview)
            && (me.completion.retryable ==> RetryableCode(me.completion.code))
            && (s.db.tasks[me.id].status == Dispatching <==> me.dispatched)
  {
    WorkerFacts(s, w);
    TaskFacts(s, WorkerAt(s, w).id);
  }

  lemma CompleteOnward(s: World, w: WorkerId, now: int)
    requires Inv(s)
    ensures TasksOnward(s, OnComplete(s, w, now), {})
  {
    hide Inv, EndedBy;
    var me := WorkerAt(s, w);
    if me.Closing? && me.id in s.db.tasks && MayFinish(s.db.tasks[me.id], me.token) {
      ClosingFacts(s, w);
      MoveWorker(s, w, Idle);
      EndOnward(Moved(s, w, Idle), me.id, me.completion, now);
    }
  }

  lemma SweepOnward(s: World, id: TaskId, before: int, code: Code, now: int)
    requires Inv(s)
    ensures TasksOnward(s, OnSweep(s, id, before, code, now), {})
  {
    hide Inv, EndedBy;
    if id in s.db.tasks && Expired(s.db.tasks[id], before) && code != NoCode {
      SweepIsEnd(s, id, before, code, now);
      EndOnward(s, id, RecoveryCompletion(s.db.tasks[id], RowsFor(s.db, s.db.tasks[id]).execution, code), now);
    }
  }

  lemma StepOnward(s: World, e: Event)
    requires Inv(s)
    ensures TasksOnward(s, Step(s, e), Taken(s, e))
  {
    hide Inv, OnEnqueue, OnCancelTask, OnClaim, OnBeginGeneration, OnRenewLease, OnDefer, OnReserve, OnPrepare;
    hide OnComplete, OnSweep, TasksOnward;
    if LeavesTasks(e) { TasksLeft(s, e); NothingMoved(s, Step(s, e)); }
    else {
      match e {
        case Enqueue(spec, notBefore) => EnqueueOnward(s, spec, notBefore);
        case CancelTask(id, stale, code, now) => CancelOnward(s, id, stale, code, now);
        case Claim(w, id, token, now, leaseUntil) => ClaimOnward(s, w, id, token, now, leaseUntil);
        case BeginGeneration(w, now, leaseUntil) => BeginGenerationOnward(s, w, now, leaseUntil);
        case RenewLease(w, head, now, leaseUntil) => RenewOnward(s, w, head, now, leaseUntil);
        case Defer(w) => DeferOnward(s, w);
        case ReserveDispatch(w, env, permit, now) => ReserveOnward(s, w, env, permit, now);
        case PrepareExecution(w, snapshot, fate, code, now) => PrepareOnward(s, w, snapshot, fate, code, now);
        case Complete(w, now) => CompleteOnward(s, w, now);
        case SweepExpired(id, before, code, now) => SweepOnward(s, id, before, code, now);
      }
    }
  }

  // --------------------------------------------------------------- policy rows

  /** A policy row's version only grows, with every change of content; a halt is lifted
      only by configuring. */
  ghost predicate PolicyOnward(row: Setting, row': Setting, reconfigured: bool) {
    Forward(row, row') && (row.haltedAt.Some? && !reconfigured ==> row'.haltedAt.Some?)
  }

  ghost predicate Configures(e: Event, o: OwnerId) {
    e.ConfigurePolicy? && e.owner == o
  }

  ghost predicate PoliciesOnward(s: World, s': World, e: Event) {
    forall o :: o in s.db.settings ==>
      o in s'.db.settings && PolicyOnward(s.db.settings[o], s'.db.settings[o], Configures(e, o))
  }

  ghost predicate LeavesPolicies(e: Event) {
    || e.Enqueue? || e.Claim? || e.Inspect? || e.BeginGeneration? || e.GenerationFails? || e.RenewLease? || e.Defer?
    || e.PrepareExecution? || e.Act? || e.GateRaises? || e.Finalize? || e.DispatcherRaises? || e.Crash?
    || e.CancelTask? || e.ExpireExecution? || e.CancelExecution? || e.UserExecution?
  }

  lemma PoliciesLeft(s: World, e: Event)
    requires LeavesPolicies(e)
    ensures Step(s, e).db.settings == s.db.settings
  {
    hide OnEnqueue, OnCancelTask, OnClaim, OnInspect, OnBeginGeneration, OnRenewLease, OnDefer, OnPrepare, OnAct;
    hide OnFinalize;
    match e
    case Inspect(w, env, head, now) => InspectLeavesTasks(s, w, env, head, now);
    case RenewLease(w, head, now, leaseUntil) => RenewLeavesPolicies(s, w, head, now, leaseUntil);
    case PrepareExecution(w, snapshot, fate, code, now) => PrepareLeavesPolicies(s, w, snapshot, fate, code, now);
    case Act(w, env, reply, fate, code, now) => ActLeavesTasks(s, w, env, reply, fate, code, now);
    case _ => if e.Enqueue? || e.Claim? || e.BeginGeneration? || e.GenerationFails? || e.Defer? || e.CancelTask? {
      QueueLeavesPolicies(s, e);
    } else {
      RestLeavesPolicies(s, e);
    }
  }

  lemma QueueLeavesPolicies(s: World, e: Event)
    requires e.Enqueue? || e.Claim? || e.BeginGeneration? || e.GenerationFails? || e.Defer? || e.CancelTask?
    ensures Step(s, e).db.settings == s.db.settings
  {
    hide WellFormedSpec, GenerationBegun, Claimed, Claimable, DeferredTask, Withdrawn, NewTask, HoldsLiveLease;
  }

  lemma RestLeavesPolicies(s: World, e: Event)
    requires e.GateRaises? || e.Finalize? || e.DispatcherRaises? || e.Crash?
          || e.ExpireExecution? || e.CancelExecution? || e.UserExecution?
    ensures Step(s, e).db.settings == s.db.settings
  {
    hide WellFormedSpec, GenerationBegun, Claimed, Claimable, DeferredTask, Withdrawn, CancelledExecution;
    hide UnknownExecution;
    hide CompletionFor, Recorded, NewTask, HoldsLiveLease;
  }

  lemma RenewLeavesPolicies(s: World, w: WorkerId, head: Head, now: int, leaseUntil: int)
    ensures OnRenewLease(s, w, head, now, leaseUntil).db.settings == s.db.settings
  {
    hide QuietWindowEnd, TooLate, HoldsLiveLease;
  }

  lemma PrepareLeavesPolicies(s: World, w: WorkerId, snapshot: nat, fate: CommitFate, code: Code, now: int)
    ensures OnPrepare(s, w, snapshot, fate, code, now).db.settings == s.db.settings
  {
    hide CompletionFor, PreparedRow, SameAction;
  }

  lemma ConfigureOnward(s: World, o: OwnerId, request: PolicyContent, now: int)
    requires Inv(s)
    ensures PoliciesOnward(s, OnConfigure(s, o, request, now), ConfigurePolicy(o, request, now))
  {
    hide Inv, Configure;
    if o in s.db.settings && Configure(s.db.settings[o], request, now).Success? {
      SettingFacts(s, o);
      ConfigureVersions(s.db.settings[o], request, now);
    }
  }

  lemma DisableRowOnward(row: Setting, reason: Code, now: int)
    requires SoundSetting(row)
    ensures PolicyOnward(row, Disable(row, reason, now), false)
  {
  }

  lemma AdministerOnward(s: World, e: Event)
    requires Inv(s) && (e.CreateSetting? || e.DisablePolicy? || e.SchedulerHalt? || e.SchedulerTick?)
    ensures PoliciesOnward(s, Step(s, e), e)
  {
    hide Inv, Disable;
    match e
    case CreateSetting(owner) => CreateOnward(s, owner);
    case DisablePolicy(owner, reason, now) => DisableOnward(s, owner, reason, now);
    case _ =>
  }

  lemma CreateOnward(s: World, owner: OwnerId)
    ensures PoliciesOnward(s, Step(s, CreateSetting(owner)), CreateSetting(owner))
  {
  }

  lemma DisableOnward(s: World, owner: OwnerId, reason: Code, now: int)
    requires Inv(s)
    ensures PoliciesOnward(s, Step(s, DisablePolicy(owner, reason, now)), DisablePolicy(owner, reason, now))
  {
    hide Inv, Disable;
    if owner in s.db.settings {
      SettingFacts(s, owner);
      DisableRowOnward(s.db.settings[owner], reason, now);
    }
  }

  lemma ReservePolicyOnward(s: World, w: WorkerId, env: Environment, permit: Token, now: int)
    ensures PoliciesOnward(s, OnReserve(s, w, env, permit, now), ReserveDispatch(w, env, permit, now))
  {
    hide Reserve, ReachesUsage, GateCode;
    if ReadyToDispatch(s, w) && permit !in s.issued {
      var me := WorkerAt(s, w);
      var t := s.db.tasks[me.id];
      var r := ReservationFor(t.spec, me.token, me.policy, now);
      var k := UsageId(t.spec.owner, r.budgetDay);
      var u := if k in s.db.usages then s.db.usages[k] else EMPTY_USAGE;
      if Reserve(t, Lookup(s.db.settings, t.spec.owner), u, r, env, permit).Allowed? {
        AllowedShape(t, Lookup(s.db.settings, t.spec.owner), u, r, env, permit);
      }
    }
  }

  lemma EndPolicyOnward(row: Setting, spec: TaskSpec, v: Verdict, retry: bool, retryAt: Option<int>, now: int,
                        reconfigured: bool)
    ensures PolicyOnward(row, SettingAfter(row, spec, v, retry, retryAt, now), reconfigured)
  {
  }

  lemma SamePolicy(row: Setting, reconfigured: bool)
    ensures PolicyOnward(row, row, reconfigured)
  {
  }

  lemma EndPoliciesOnward(s: World, id: TaskId, c: Completion, now: int, e: Event)
    requires id in s.db.tasks
    ensures PoliciesOnward(s, EndedBy(s, id, c, now), e)
  {
    hide EndedBy, Resolve, SettingAfter, GrantsRetry, PolicyOnward, RowsFor;
    EndedShape(s, id, c, now);
    var t := s.db.tasks[id];
    var v := Resolve(t, RowsFor(s.db, t).execution, c, now);
    var retry := GrantsRetry(c, v);
    forall o | o in s.db.settings ensures PolicyOnward(s.db.settings[o], s.db.settings[o], Configures(e, o)) {
      SamePolicy(s.db.settings[o], Configures(e, o));
    }
    if t.spec.owner in s.db.settings {
      EndPolicyOnward(s.db.settings[t.spec.owner], t.spec, v, retry, if retry then c.retryAt else None, now,
                      Configures(e, t.spec.owner));
    }
  }

  lemma SamePolicies(s: World, s': World, e: Event)
    requires s'.db.settings == s.db.settings
    ensures PoliciesOnward(s, s', e)
  {
  }

  lemma StepPolicies(s: World, e: Event)
    requires Inv(s)
    ensures PoliciesOnward(s, Step(s, e), e)
  {
    hide Inv, EndedBy, PoliciesOnward, OnReserve, OnConfigure;
    if LeavesPolicies(e) { PoliciesLeft(s, e); SamePolicies(s, Step(s, e), e); }
    else {
      match e {
        case ReserveDispatch(w, env, permit, now) => ReservePolicyOnward(s, w, env, permit, now);
        case ConfigurePolicy(o, request, now) => ConfigureOnward(s, o, request, now);
        case Complete(w, now) =>
          var me := WorkerAt(s, w);
          SamePolicies(s, Moved(s, w, Idle), e);
          if me.Closing? && me.id in s.db.tasks {
            EndPoliciesOnward(Moved(s, w, Idle), me.id, me.completion, now, e);
            PoliciesOf(s, Moved(s, w, Idle), EndedBy(Moved(s, w, Idle), me.id, me.completion, now), e);
          }
          SamePolicies(s, s, e);
        case SweepExpired(id, before, code, now) =>
          if id in s.db.tasks && Expired(s.db.tasks[id], before) && code != NoCode {
            SweepIsEnd(s, id, before, code, now);
            EndPoliciesOnward(s, id, RecoveryCompletion(s.db.tasks[id], RowsFor(s.db, s.db.tasks[id]).execution, code),
                              now, e);
          }
          SamePolicies(s, s, e);
        case _ => AdministerOnward(s, e);
      }
    }
  }

  lemma PoliciesOf(s: World, idle: World, s': World, e: Event)
    requires idle.db == s.db && PoliciesOnward(idle, s', e)
    ensures PoliciesOnward(s, s', e)
  {
  }

  // ------------------------------------------------------------------- the log

  /** The log only grows, with what the gate saw, for an owner who is not halted then. */
  ghost predicate LogOnward(s: World, s': World) {
    && s.past.log <= s'.past.log && |s'.past.log| <= |s.past.log| + 1
    && forall i :: |s.past.log| <= i < |s'.past.log| ==>
         && s'.past.log[i].at == s.db
         && s'.past.log[i].id.owner in s.db.settings
         && s.db.settings[s'.past.log[i].id.owner].haltedAt.None?
  }

  lemma ActAppends(s: World, w: WorkerId, env: Environment, reply: ProviderReply, fate: CommitFate, code: Code,
                   now: int)
    ensures var s' := OnAct(s, w, env, reply, fate, code, now);
            || s'.past.log == s.past.log
            || (&& WorkerAt(s, w).Prepared? && WorkerAt(s, w).id in s.db.tasks
                && var me := WorkerAt(s, w);
                && var t := s.db.tasks[me.id];
                && PermitHolds(t, me.token, Lookup(s.db.executions, t.spec.Execution()), t.spec.Execution(),
                               me.snapshot, Lookup(s.db.settings, t.spec.owner), env, now)
                && s'.past.log == s.past.log + [Invocation(me.id, me.token, env, s.db, now)])
  {
    hide PermitHolds, Recorded, CompletionFor, OutcomeOf, CodeOf, ResultOf, FailedExecution;
  }

  lemma ActLog(s: World, w: WorkerId, env: Environment, reply: ProviderReply, fate: CommitFate, code: Code, now: int)
    requires Inv(s)
    ensures LogOnward(s, OnAct(s, w, env, reply, fate, code, now))
  {
    hide Inv, PermitHolds, OnAct;
    ActAppends(s, w, env, reply, fate, code, now);
    if OnAct(s, w, env, reply, fate, code, now).past.log != s.past.log {
      TaskFacts(s, WorkerAt(s, w).id);
      HaltedIsRefused(s, w, env, now);
    }
  }

  lemma HaltedIsRefused(s: World, w: WorkerId, env: Environment, now: int)
    requires WorkerAt(s, w).Prepared? && WorkerAt(s, w).id in s.db.tasks
    requires var me := WorkerAt(s, w);
             var t := s.db.tasks[me.id];
             && t.spec.owner in s.db.settings
             && PermitHolds(t, me.token, Lookup(s.db.executions, t.spec.Execution()), t.spec.Execution(), me.snapshot,
                            Lookup(s.db.settings, t.spec.owner), env, now)
    ensures s.db.settings[s.db.tasks[WorkerAt(s, w).id].spec.owner].haltedAt.None?
  {
    hide ActiveAt;
  }

  lemma LogLeft(s: World, e: Event)
    requires !e.Act?
    ensures Step(s, e).past.log == s.past.log
  {
    hide QuietWindowEnd, Preflight, PolicyFromRows, CompletionFor, Recorded, PreparedRow, SameAction, Configure;
    hide Disable;
    hide WellFormedSpec, GenerationBegun, Claimed, Claimable, DeferredTask, Withdrawn, CancelledExecution;
    hide UnknownExecution;
    hide Reserve, ReachesUsage, Finish, Sweep, GrantsRetry, Resolve, Store;
  }

  lemma StepLog(s: World, e: Event)
    requires Inv(s)
    ensures LogOnward(s, Step(s, e))
  {
    hide Inv, OnAct;
    match e
    case Act(w, env, reply, fate, code, now) => ActLog(s, w, env, reply, fate, code, now);
    case _ => LogLeft(s, e);
  }
}
