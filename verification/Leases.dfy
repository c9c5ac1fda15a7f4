/** Who may take, keep and give up a task, and how an owner's tasks enter and leave the queue:
    every event exactly when it takes effect, and what it writes. */
module Leases {
  import opened Vocabulary
  import opened Policies
  import opened Transitions
  import opened Protocol
  import opened Invariant
  import opened Runs
  import opened Progress
  import opened Safety

  // ------------------------------------------------------------------- taking

  /** Queued and due, deferred and due, or held under a lease that has run out. */
  ghost predicate MayBeTaken(t: Task, now: int) {
    || (t.status == Queued && (t.notBefore == None || (t.notBefore.Some? && t.notBefore.value <= now)))
    || (t.status == Deferred && t.notBefore.Some? && t.notBefore.value <= now)
    || (t.status in {Leased, Generating} && t.leaseUntil.Some? && t.leaseUntil.value <= now)
  }

  /** A claim takes effect exactly for an idle worker with a new token and a task that may be
      taken; it then holds the lease, and nothing else about the task changes but its
      attempts, its first start and its last code. */
  lemma ClaimTakesExactly(s: World, w: WorkerId, id: TaskId, token: Token, now: int, leaseUntil: int)
    ensures var s' := Step(s, Claim(w, id, token, now, leaseUntil));
            if WorkerAt(s, w) == Idle && id in s.db.tasks && token !in s.issued && MayBeTaken(s.db.tasks[id], now) then
              var t := s.db.tasks[id];
              && s'.db == s.db.(tasks := s.db.tasks[id := t.(
                   status := Leased, leaseOwner := Some(w), token := Some(token), leaseUntil := Some(leaseUntil),
                   attempts := t.attempts + 1, startedAt := if t.startedAt.None? then Some(now) else t.startedAt,
                   code := NoCode)])
              && WorkerAt(s', w) == Holding(id, token, t.attempts + 1) && token in s'.issued
            else s' == s
  {
  }

  /** A task under a live lease, one that is not yet due, one that was dispatched and one that
      ended cannot be taken by anyone. */
  lemma HeldIsNeverTaken(events: seq<Event>, id: TaskId, e: Event)
    requires id in After(events).db.tasks && e.Claim? && e.id == id
    requires var t := After(events).db.tasks[id];
             || (t.status in {Leased, Generating} && t.leaseUntil.Some? && t.leaseUntil.value > e.now)
             || (t.status in {Queued, Deferred} && t.notBefore.Some? && t.notBefore.value > e.now)
             || t.status in {Dispatching, Succeeded, Failed, Cancelled, Stale, ManualReview}
    ensures After(events + [e]) == After(events)
  {
    hide Step, Run;
    AfterOne(events, e);
    ClaimTakesExactly(After(events), e.worker, e.id, e.token, e.now, e.leaseUntil);
  }

  // ------------------------------------------------------------------ keeping

  /** The worker's token is on the task and its lease has not run out. */
  ghost predicate Holds(s: World, w: WorkerId, now: int) {
    && !WorkerAt(s, w).Idle? && WorkerAt(s, w).id in s.db.tasks
    && var t := s.db.tasks[WorkerAt(s, w).id];
    && t.status in {Leased, Generating} && t.token == Some(WorkerAt(s, w).token)
    && t.leaseUntil.Some? && now <= t.leaseUntil.value
  }

  /** Generating begins exactly for a ready worker whose task needs a text, is leased to it
      and still held; it moves the status and the lease only. */
  lemma GenerationBeginsExactly(s: World, w: WorkerId, now: int, leaseUntil: int)
    ensures var s' := Step(s, BeginGeneration(w, now, leaseUntil));
            var me := WorkerAt(s, w);
            if me.Ready? && Holds(s, w, now) && s.db.tasks[me.id].status == Leased
               && s.db.tasks[me.id].spec.taskType in {ReplyToMessage, ScheduledPost, ProactiveMessage,
                                                      BefriendDiscovered}
            then
              && s'.db == s.db.(tasks := s.db.tasks[me.id := s.db.tasks[me.id].(
                                          status := Generating, leaseUntil := Some(leaseUntil))])
              && WorkerAt(s', w) == Drafting(me.id, me.token, me.attempt, me.policy)
            else s'.db == s.db && (WorkerAt(s', w) == me || WorkerAt(s', w) == Idle)
  {
  }

  /** Renewing takes effect exactly for a worker that drafts and still holds its task, and
      moves the end of the lease only. */
  lemma RenewalHoldsExactly(s: World, w: WorkerId, head: Head, now: int, leaseUntil: int)
    ensures var s' := Step(s, RenewLease(w, head, now, leaseUntil));
            var me := WorkerAt(s, w);
            if me.Drafting? && Holds(s, w, now)
            then s'.db == s.db.(tasks := s.db.tasks[me.id := s.db.tasks[me.id].(leaseUntil := Some(leaseUntil))])
            else s'.db == s.db && (WorkerAt(s', w) == me || WorkerAt(s', w) == Idle)
  {
    hide QuietWindowEnd, TooLate;
  }

  /** A worker goes on to dispatch from its draft only when, at the renewal, the owner's
      quiet hours had not begun, the conversation had not moved on and the post was not late. */
  lemma DraftIsFresh(s: World, w: WorkerId, head: Head, now: int, leaseUntil: int)
    requires WorkerAt(s, w).Drafting? && Holds(s, w, now)
    ensures var me := WorkerAt(s, w);
            var spec := s.db.tasks[me.id].spec;
            var quiet := QuietWindowEnd(me.policy, now);
            var moved := spec.taskType in {ReplyToMessage, ProactiveMessage} && head != Unmoved;
            var late := spec.taskType == ScheduledPost && spec.scheduledFor.Some?
                        && now > spec.scheduledFor.value + me.policy.postLateness;
            WorkerAt(Step(s, RenewLease(w, head, now, leaseUntil)), w) ==
              if quiet.Some? then Deferring(me.id, me.token, me.attempt, quiet.value, QuietHours)
              else if moved
              then Closing(me.id, me.token, StaleWith(
                             if spec.taskType == ReplyToMessage then InboundChangedDuringGeneration
                             else if head == Incoming then InboundRequiresReply
                             else ProactiveChangedDuringGeneration), false)
              else if late then Closing(me.id, me.token, StaleWith(ScheduledPostExpired), false)
              else Drafted(me.id, me.token, me.attempt, me.policy)
  {
    hide QuietWindowEnd;
  }

  /** A draft that fails ends the task: as stale when there is nothing to send,
      as failed otherwise. */
  lemma FailedDraftEnds(s: World, w: WorkerId, code: Code)
    ensures var s' := Step(s, GenerationFails(w, code));
            var me := WorkerAt(s, w);
            var reason := if code == NoCode then AutonomyTaskFailed else code;
            && s'.db == s.db && s'.past == s.past
            && WorkerAt(s', w) ==
                 if me.Drafting?
                 then Closing(me.id, me.token,
                              if reason in {InboundMessageStale, ReplyHasUnapprovedAddress, ReplyNotNeeded}
                              then StaleWith(reason) else FailedWith(reason), false)
                 else me
  {
  }

  /** A crash forgets everything the worker knew and changes nothing that is stored. */
  lemma CrashForgets(s: World, w: WorkerId)
    ensures var s' := Step(s, Crash(w));
            s'.db == s.db && s'.past == s.past && s'.issued == s.issued && WorkerAt(s', w) == Idle
  {
  }

  // ---------------------------------------------------------------- giving up

  /** Deferring gives the lease up and sets when the task is due again.  It needs the token
      and an undispatched status, but not a live lease. */
  lemma DeferralReleasesExactly(s: World, w: WorkerId)
    ensures var s' := Step(s, Defer(w));
            var me := WorkerAt(s, w);
            if me.Deferring? then
              && WorkerAt(s', w) == Idle
              && if me.id in s.db.tasks && s.db.tasks[me.id].status in {Leased, Generating}
                    && s.db.tasks[me.id].token == Some(me.token)
                 then s'.db == s.db.(tasks := s.db.tasks[me.id := s.db.tasks[me.id].(
                                              status := Deferred, notBefore := Some(me.notBefore), code := me.code,
                                              leaseOwner := None, token := None, leaseUntil := None)])
                 else s'.db == s.db
            else s' == s
  {
  }

  /** Cancelling withdraws exactly work that has not been dispatched or ended. */
  lemma CancellationWithdrawsExactly(s: World, id: TaskId, stale: bool, code: Code, now: int)
    ensures var s' := Step(s, CancelTask(id, stale, code, now));
            if id in s.db.tasks && s.db.tasks[id].status in {Queued, Deferred, Leased, Generating} then
              var t := s.db.tasks[id];
              s' == s.(db := s.db.(tasks := s.db.tasks[id := t.(
                         status := if stale then Stale else Cancelled, code := code, unknown := false,
                         completedAt := Some(now), leaseOwner := None, token := None, leaseUntil := None)]))
            else s' == s
  {
  }

  // -------------------------------------------------------------------- owners

  /** The row that an owner's event leaves, if the owner has one. */
  ghost predicate RowBecomes(s: World, s': World, o: OwnerId, row: Option<Setting>) {
    s' == if row.None? then s else s.(db := s.db.(settings := s.db.settings[o := row.value]))
  }

  /** An owner's row is created once, with everything off. */
  lemma CreationIsOff(s: World, o: OwnerId)
    ensures RowBecomes(s, Step(s, CreateSetting(o)), o, if o in s.db.settings then None else Some(NEW_SETTING))
    ensures !NEW_SETTING.content.AnyCapability() && NEW_SETTING.version == 1 && NEW_SETTING.haltedAt.None?
  {
  }

  /** Configuring stores the configured row of that owner if the request is accepted, and
      changes nothing otherwise. */
  lemma ConfiguringTouchesOneRow(s: World, o: OwnerId, request: PolicyContent, now: int)
    ensures RowBecomes(s, Step(s, ConfigurePolicy(o, request, now)), o,
                       if o in s.db.settings && Configure(s.db.settings[o], request, now).Success?
                       then Some(Configure(s.db.settings[o], request, now).value) else None)
  {
    hide Configure;
  }

  lemma DisablingTouchesOneRow(s: World, o: OwnerId, reason: Code, now: int)
    ensures RowBecomes(s, Step(s, DisablePolicy(o, reason, now)), o,
                       if o in s.db.settings then Some(Disable(s.db.settings[o], reason, now)) else None)
  {
    hide Disable;
  }

  /** The scheduler halts an owner or sets the next run, and touches nothing else. */
  lemma SchedulingTouchesOneRow(s: World, o: OwnerId, reason: Code, at: Option<int>, now: int)
    ensures RowBecomes(s, Step(s, SchedulerHalt(o, reason, now)), o,
                       if o in s.db.settings
                       then Some(s.db.settings[o].(haltedAt := Some(now), haltedReason := reason, nextRunAt := None,
                                                   lastRunAt := Some(now)))
                       else None)
    ensures RowBecomes(s, Step(s, SchedulerTick(o, at, now)), o,
                       if o in s.db.settings then Some(s.db.settings[o].(nextRunAt := at, lastRunAt := Some(now)))
                       else None)
  {
  }

  // ----------------------------------------------------------------- entering

  /** Visible characters only, none of the wildcard characters, 128 at most. */
  ghost predicate NamesOneContact(target: string) {
    && 1 <= |target| <= 128
    && forall i :: 0 <= i < |target| ==>
         target[i] > ' ' && target[i] != '*' && target[i] != '?' && target[i] != '[' && target[i] != ']'
  }

  /** What every stored task was checked for: a key of 8 to 160 characters, positive versions,
      a contact exactly where its type acts on one, a source exactly for a reply, and a
      time for every post. */
  ghost predicate Checked(spec: TaskSpec) {
    var named := spec.taskType !in {ScheduledPost, BrowseOnline, RequestMatch};
    && 8 <= |spec.key| <= 160 && |spec.source| <= 256
    && spec.policyVersion >= 1 && spec.executionVersion >= 1 && spec.runnerVersion >= 1
    && (if named then NamesOneContact(spec.target) else spec.target == "")
    && (spec.source != "" <==> spec.taskType == ReplyToMessage)
    && (spec.taskType == ScheduledPost ==> spec.scheduledFor.Some?)
    && (spec.taskType in {BrowseOnline, RequestMatch, ProactiveMessage, BefriendDiscovered} ==>
          spec.scheduledFor.None?)
  }

  lemma PlainIsVisible(c: char)
    ensures Plain(c) <==> c > ' ' && c != '*' && c != '?' && c != '[' && c != ']'
  {
    var wild := "*?[]";
    assert wild[0] == '*' && wild[1] == '?' && wild[2] == '[' && wild[3] == ']';
  }

  lemma ValidIsPlain(target: string)
    ensures ValidTarget(target) <==> 1 <= |target| <= 128 && forall i :: 0 <= i < |target| ==> Plain(target[i])
  {
    if forall i :: 0 <= i < |target| ==> Plain(target[i]) {
      forall c | c in target ensures Plain(c) {
        var i :| 0 <= i < |target| && target[i] == c;
      }
    }
  }

  lemma ValidIsNamed(target: string)
    ensures ValidTarget(target) <==> NamesOneContact(target)
  {
    hide ValidTarget, Plain;
    ValidIsPlain(target);
    forall i | 0 <= i < |target|
      ensures Plain(target[i]) <==>
                target[i] > ' ' && target[i] != '*' && target[i] != '?' && target[i] != '[' && target[i] != ']'
    {
      PlainIsVisible(target[i]);
    }
  }

  lemma WellFormedIsChecked(spec: TaskSpec)
    ensures WellFormedSpec(spec) <==> Checked(spec)
  {
    hide ValidTarget, NamesOneContact;
    ValidIsNamed(spec.target);
  }

  /** A task is stored exactly when it is checked, new, and made under its owner's current
      policy version; and it enters the queue untouched. */
  lemma EnqueueStoresExactly(s: World, spec: TaskSpec, notBefore: Option<int>)
    ensures var s' := Step(s, Enqueue(spec, notBefore));
            var id := TaskId(spec.owner, spec.key);
            if Checked(spec) && id !in s.db.tasks && spec.owner in s.db.settings
               && spec.policyVersion == s.db.settings[spec.owner].version
            then
              && id in s'.db.tasks && s'.db == s.db.(tasks := s.db.tasks[id := s'.db.tasks[id]])
              && var t := s'.db.tasks[id];
              && t.spec == spec && t.status == Queued && t.notBefore == notBefore && t.attempts == 0
              && t.token.None? && t.leaseUntil.None? && t.execution.None? && t.budgetDay.None? && !t.unknown
            else s' == s
  {
    hide WellFormedSpec, Checked;
    WellFormedIsChecked(spec);
  }

  lemma StepKeepsChecked(s: World, e: Event)
    requires Inv(s) && forall id :: id in s.db.tasks ==> Checked(s.db.tasks[id].spec)
    ensures forall id :: id in Step(s, e).db.tasks ==> Checked(Step(s, e).db.tasks[id].spec)
  {
    hide Inv, Checked, Step;
    StepOnward(s, e);
    forall id | id in Step(s, e).db.tasks && id !in s.db.tasks ensures Checked(Step(s, e).db.tasks[id].spec) {
      NewcomersAreEnqueued(s, e, id);
    }
  }

  lemma NewcomersAreEnqueued(s: World, e: Event, id: TaskId)
    requires Inv(s) && id in Step(s, e).db.tasks && id !in s.db.tasks
    ensures Checked(Step(s, e).db.tasks[id].spec)
  {
    hide Inv, Checked, OnEnqueue, OnCancelTask, OnClaim, OnBeginGeneration, OnRenewLease, OnDefer, OnReserve, OnPrepare;
    hide OnComplete, OnSweep;
    if LeavesTasks(e) { TasksLeft(s, e); }
    else if e.Enqueue? { EnqueueStoresExactly(s, e.spec, e.notBefore); }
    else { OnlyEnqueueAdds(s, e, id); }
  }

  lemma OnlyEnqueueAdds(s: World, e: Event, id: TaskId)
    requires !e.Enqueue? && !LeavesTasks(e)
    ensures id in Step(s, e).db.tasks ==> id in s.db.tasks
  {
    hide QuietWindowEnd, TooLate, Reserve, ReachesUsage, Finish, Sweep, PreparedRow, SameAction, CompletionFor;
    hide GrantsRetry, Resolve, Claimable, Claimed;
  }

  lemma {:induction false} RunKeepsChecked(s: World, events: seq<Event>)
    requires Inv(s) && forall id :: id in s.db.tasks ==> Checked(s.db.tasks[id].spec)
    ensures forall id :: id in Run(s, events).db.tasks ==> Checked(Run(s, events).db.tasks[id].spec)
    decreases |events|
  {
    hide Inv, Checked, Step;
    if events != [] {
      StepKeeps(s, events[0]);
      StepKeepsChecked(s, events[0]);
      RunKeepsChecked(Step(s, events[0]), events[1..]);
    }
  }

  /** In every reachable state every task is one that passed these checks. */
  lemma StoredTasksAreChecked(events: seq<Event>, id: TaskId)
    requires id in After(events).db.tasks
    ensures Checked(After(events).db.tasks[id].spec)
  {
    hide Inv, Checked;
    StartIsSound();
    RunKeepsChecked(START, events);
  }
}
