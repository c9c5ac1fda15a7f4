/** What the authorization gate lets through, column by column, for every action of every
    run; and how the worker's own checks before generating relate to it. */
module Authorization {
  import opened Vocabulary
  import opened Policies
  import opened Transitions
  import opened Protocol
  import opened Invariant
  import opened Frames
  import opened Safety

  // ------------------------------------------------------- the gate's decision

  /** Which feature switch a task of each type needs. */
  function Feature(c: PolicyContent, taskType: TaskType): bool {
    match taskType
    case ReplyToMessage => c.autoReply
    case ScheduledPost => c.scheduledPosts
    case FollowTarget | UnfollowTarget => c.managedRelationships
    case BrowseOnline => c.discovery
    case RequestMatch => c.textMatch
    case ProactiveMessage => c.proactiveMessages
    case FollowDiscovered => c.followDiscovered
    case BefriendDiscovered => c.friendRequests
  }

  /** Which action a task of each type performs. */
  lemma ActionOfEachType(spec: TaskSpec)
    ensures spec.Action() == SendPrivateMessage <==> spec.taskType in {ReplyToMessage, ProactiveMessage}
    ensures spec.Action() == PublishTextPost <==> spec.taskType == ScheduledPost
    ensures spec.Action() == FollowUser <==> spec.taskType in {FollowTarget, FollowDiscovered}
    ensures spec.Action() == UnfollowUser <==> spec.taskType == UnfollowTarget
    ensures spec.Action() == BrowseOnlineUsers <==> spec.taskType == BrowseOnline
    ensures spec.Action() == RequestTextMatch <==> spec.taskType == RequestMatch
    ensures spec.Action() == RequestFriend <==> spec.taskType == BefriendDiscovered
  {
  }

  /** A row is missing, a switch is off, a grant is withdrawn or the connection is unusable;
      or a private message lacks the permission to send by itself. */
  ghost predicate Revoked(action: ActionType, s: Option<Setting>, env: Environment) {
    || s.None? || env.system.None? || env.user.None? || env.account.None? || env.agent.None?
    || env.execution.None? || env.connection.None?
    || !env.system.value.enabled || !env.system.value.accountActionsEnabled || !env.system.value.autonomyEnabled
    || !env.user.value.active || env.user.value.disabled
    || !env.user.value.runnerGranted || !env.user.value.actionsGranted || !env.user.value.autonomyGranted
    || !env.agent.value.userEnabled || !env.execution.value.userEnabled || !s.value.content.userEnabled
    || !env.connection.value.enabled || !env.connection.value.hasKey || !env.connection.value.lastTestOk
    || (action == SendPrivateMessage && !env.execution.value.autoSend)
  }

  /** The gate answers that access is revoked exactly in these cases. */
  lemma AccessIsRevokedExactlyWhen(t: Task, r: GateRequest, s: Option<Setting>, env: Environment)
    ensures GateCode(t, r, s, env) == Some(AccessRevoked) <==> Revoked(r.action, s, env)
  {
  }

  /** Some version, account, connection or fingerprint is no longer the one the task was
      created under. */
  ghost predicate Drifted(t: Task, s: Setting, env: Environment)
    requires env.account.Some? && env.agent.Some? && env.execution.Some? && env.connection.Some?
  {
    || env.account.value != t.spec.account
    || s.version != t.spec.policyVersion
    || env.execution.value.version != t.spec.executionVersion
    || env.agent.value.version != t.spec.runnerVersion
    || env.agent.value.activeConnection != Some(t.spec.connection)
    || env.connection.value.id != t.spec.connection
    || env.fingerprint != t.spec.fingerprint
  }

  /** What the gate answers to a task's own request once access is granted, each answer
      exactly when its own reason holds and no earlier one does. */
  lemma GateDecides(t: Task, s: Setting, env: Environment)
    requires !Revoked(t.spec.Action(), Some(s), env)
    ensures var code := GateCode(t, GateRequestFor(t.spec), Some(s), env);
            var c := s.content;
            var halted := s.haltedAt.Some? || s.failures >= c.failureLimit;
            var barred := t.spec.Action() !in c.allowedActions || t.spec.Action() !in env.execution.value.allowedActions
                          || !Feature(c, t.spec.taskType);
            var reply := t.spec.taskType == ReplyToMessage;
            var unlisted :=
              || (t.spec.taskType in {FollowTarget, UnfollowTarget} && t.spec.target !in c.targets)
              || (t.spec.taskType in {ProactiveMessage, FollowDiscovered, BefriendDiscovered} && !env.candidateAllowed)
              || (t.spec.taskType !in {ScheduledPost, BrowseOnline, RequestMatch} && t.spec.target == "");
            && (code == Some(PolicyChanged) <==>
                  Drifted(t, s, env) || (!halted && !barred && reply && env.contactChanged))
            && (code == Some(Halted) <==> !Drifted(t, s, env) && halted)
            && (code == Some(ActionNotAllowed) <==>
                  && !Drifted(t, s, env) && !halted
                  && (barred || (!(reply && env.contactChanged) && ((reply && env.contactForbidden) || unlisted))))
            && (code == None <==>
                  && !Drifted(t, s, env) && !halted && !barred && !unlisted
                  && !(reply && (env.contactChanged || env.contactForbidden)))
  {
  }

  // -------------------------------------------------------------- every action

  /** The local minute of the day, counted from the first active minute round the clock, is
      before the first minute that is not active. */
  ghost predicate WithinHours(c: PolicyContent, now: int) {
    var minute := (now + c.zoneOffset) / 60;
    c.activeStart == c.activeEnd || (minute - c.activeStart) % 1440 < (c.activeEnd - c.activeStart) % 1440
  }

  lemma MinuteOfDay(x: int)
    ensures (x % DAY) / 60 == (x / 60) % 1440
  {
    var q, r := x / DAY, x % DAY;
    assert x == 60 * (1440 * q) + r;
    assert x / 60 == 1440 * q + r / 60;
  }

  lemma FromStart(minute: int, m: int, start: int)
    requires m == minute % 1440 && 0 <= start < 1440
    ensures (minute - start) % 1440 == if m >= start then m - start else m - start + 1440
  {
    var q := minute / 1440;
    assert minute - start == 1440 * q + (m - start);
  }

  lemma ActiveIsWithinHours(c: PolicyContent, now: int)
    requires SoundContent(c)
    ensures ActiveAt(c, now) <==> WithinHours(c, now)
  {
    var minute := (now + c.zoneOffset) / 60;
    MinuteOfDay(now + c.zoneOffset);
    FromStart(minute, LocalMinute(c.zoneOffset, now), c.activeStart);
    FromStart(c.activeEnd, c.activeEnd, c.activeStart);
  }

  /** The audit row carries the task's account, execution version, action and key. */
  ghost predicate IsAuditRowOf(x: Execution, t: Task) {
    && x.account == t.spec.account && x.settingVersion == t.spec.executionVersion
    && x.id == ExecutionId(t.spec.owner, t.spec.Action(), Autonomous(t.spec.owner, t.spec.Action(), t.spec.key))
  }

  lemma AuditIsOwn(s: World, id: TaskId)
    requires Inv(s) && id in s.db.tasks && s.db.tasks[id].execution.Some?
    ensures var t := s.db.tasks[id];
            t.execution.value in s.db.executions && IsAuditRowOf(s.db.executions[t.execution.value], t)
  {
    hide LogInv, EscapedInv, BudgetInv, SpacingInv, WorkersInv, PermitsInv, SettingsInv;
    assert TaskOk(id, s.db.tasks[id]) && LinkOk(s.db, s.db.tasks[id]);
  }

  lemma LoggedInState(s: World, entry: Invocation, pinned: PolicyContent)
    requires Inv(s) && entry.at == s.db && SoundInvocation(entry, pinned)
    ensures WasGranted(entry)
  {
    hide Inv;
    var t := s.db.tasks[entry.id];
    AuditIsOwn(s, entry.id);
    TaskFacts(s, entry.id);
    ActiveIsWithinHours(s.db.settings[t.spec.owner].content, entry.clock);
  }

  ghost predicate WasGranted(entry: Invocation) {
    && entry.id in entry.at.tasks && entry.at.tasks[entry.id].spec.owner in entry.at.settings
    && var t := entry.at.tasks[entry.id];
    && var s := entry.at.settings[t.spec.owner];
    && !Revoked(t.spec.Action(), Some(s), entry.env) && !Drifted(t, s, entry.env)
    && s.haltedAt.None? && s.failures < s.content.failureLimit
    && t.spec.Action() in s.content.allowedActions
    && t.spec.Action() in entry.env.execution.value.allowedActions
    && Feature(s.content, t.spec.taskType)
    && (t.spec.taskType == ReplyToMessage ==>
          entry.env.headDispatchable && !entry.env.contactChanged && !entry.env.contactForbidden)
    && (t.spec.taskType == ProactiveMessage ==> !entry.env.hasConversation)
    && (t.spec.taskType in {FollowTarget, UnfollowTarget} ==> t.spec.target in s.content.targets)
    && (t.spec.taskType in {ProactiveMessage, FollowDiscovered, BefriendDiscovered} ==>
          entry.env.candidateAllowed)
    && (t.spec.taskType == ScheduledPost ==> entry.env.contentDigestPresent && !entry.env.duplicatePost)
    && WithinHours(s.content, entry.clock)
    && t.status == Dispatching && t.token == Some(entry.permit)
    && t.execution.Some? && t.execution.value in entry.at.executions
    && IsAuditRowOf(entry.at.executions[t.execution.value], t)
    && entry.at.executions[t.execution.value].status == ExecRunning
  }

  /** Every action of every run found all of this true in the tables and rows that its own
      step locked: the system's three switches on, the user active, not disabled and with
      three grants, the agent, the execution row and the policy enabled, the connection
      enabled, keyed and tested; nothing drifted since the task was created; the owner not
      halted and below the failure limit; the action allowed in both rows and its feature on;
      the audit row running and the task's own; and the local minute inside the hours. */
  lemma EveryActionWasGranted(events: seq<Event>, i: nat)
    requires i < |After(events).past.log|
    ensures WasGranted(After(events).past.log[i])
  {
    hide Inv, SoundInvocation, WasGranted;
    ActionsAreAuthorized(events, i);
    var n :| 0 <= n < |events| && events[n].Act? && |After(events[..n]).past.log| == i
             && After(events[..n]).db == After(events).past.log[i].at;
    EveryStateIsSound(events[..n]);
    var entry := After(events).past.log[i];
    LoggedInState(After(events[..n]), entry, After(events).past.pinned[entry.id]);
  }

  /** The final gate, exactly: the task dispatching under this permit, its own audit row
      running for this snapshot, everything the reservation's gate asks for, and what only
      this gate asks: a post with a digest that repeats nothing, an unchanged conversation
      for a reply, none for a first message, and the active hours. */
  lemma FinalGateExactlyWhen(s: World, id: TaskId, permit: Token, snapshot: nat, env: Environment, now: int)
    requires Inv(s) && id in s.db.tasks
    ensures var t := s.db.tasks[id];
            var key := t.spec.Execution();
            PermitHolds(t, permit, Lookup(s.db.executions, key), key, snapshot, Lookup(s.db.settings, t.spec.owner),
                        env, now)
            <==>
            && t.status == Dispatching && t.token == Some(permit) && t.execution == Some(key)
            && key in s.db.executions && s.db.executions[key].status == ExecRunning
            && s.db.executions[key].snapshot == snapshot
            && t.spec.owner in s.db.settings
            && GateCode(t, GateRequestFor(t.spec), Some(s.db.settings[t.spec.owner]), env) == None
            && (t.spec.taskType == ScheduledPost ==> env.contentDigestPresent && !env.duplicatePost)
            && (t.spec.taskType == ReplyToMessage ==> env.headDispatchable)
            && (t.spec.taskType == ProactiveMessage ==> !env.hasConversation)
            && WithinHours(s.db.settings[t.spec.owner].content, now)
  {
    hide Inv, GateCode, ActiveAt, WithinHours;
    TaskFacts(s, id);
    ActiveIsWithinHours(s.db.settings[s.db.tasks[id].spec.owner].content, now);
    ActionOfEachType(s.db.tasks[id].spec);
  }

  // ------------------------------------------------- the worker's own checks

  /** What the snapshot shows of the rows it was read from. */
  lemma SnapshotShows(s: Setting, env: Environment)
    requires SoundSetting(s) && PolicyFromRows(s, env).Some?
    ensures var p := PolicyFromRows(s, env).value;
            && env.account.Some? && env.execution.Some? && env.agent.Some? && env.connection.Some?
            && p.account == env.account.value && p.version == s.version
            && p.executionVersion == env.execution.value.version && p.runnerVersion == env.agent.value.version
            && p.connection == env.connection.value.id && p.fingerprint == env.fingerprint
            && p.autoSend == env.execution.value.autoSend && p.postLateness == 3600
            && p.halted == s.haltedAt.Some? && p.failures == s.failures && p.failureLimit == s.content.failureLimit
            && (forall a: ActionType :: a in p.selectedActions <==>
                  a in s.content.allowedActions && a in env.execution.value.allowedActions)
            && (forall u: string :: u in p.targets <==> u in s.content.targets)
  {
  }

  /** The snapshot is available to an enabled owner exactly when no switch, grant or
      connection column is off. */
  lemma SnapshotIsAvailableExactlyWhen(s: Setting, env: Environment, action: ActionType)
    requires SoundSetting(s) && PolicyFromRows(s, env).Some?
    ensures var p := PolicyFromRows(s, env).value;
            Revoked(action, Some(s), env) <==>
              !p.available || !p.userEnabled || (action == SendPrivateMessage && !p.autoSend)
  {
  }

  lemma SnapshotFeatures(s: Setting, env: Environment)
    requires SoundSetting(s) && PolicyFromRows(s, env).Some?
    ensures var p := PolicyFromRows(s, env).value;
            var a := p.selectedActions;
            && p.autoReply == (s.content.autoReply && SendPrivateMessage in a)
            && p.scheduledPosts == (s.content.scheduledPosts && PublishTextPost in a)
            && p.managedRelationships ==
                 (s.content.managedRelationships && (FollowUser in a || UnfollowUser in a) && p.targets != {})
            && p.discovery == (s.content.discovery && BrowseOnlineUsers in a)
            && p.textMatch == (s.content.textMatch && RequestTextMatch in a)
            && p.proactiveMessages == (s.content.proactiveMessages && SendPrivateMessage in a)
            && p.followDiscovered == (s.content.followDiscovered && FollowUser in a)
            && p.friendRequests == (s.content.friendRequests && RequestFriend in a)
  {
  }

  /** The snapshot enables a task type exactly when the feature is on and, for managed
      contacts, some contact is listed; given that both rows allow the action. */
  lemma SnapshotEnablesExactlyWhen(s: Setting, env: Environment, spec: TaskSpec)
    requires SoundSetting(s) && PolicyFromRows(s, env).Some?
    requires spec.Action() in PolicyFromRows(s, env).value.selectedActions
    ensures PolicyFromRows(s, env).value.Enables(spec.taskType) <==>
              && Feature(s.content, spec.taskType)
              && (spec.taskType in {FollowTarget, UnfollowTarget} ==> s.content.targets != [])
  {
    hide PolicyFromRows, SoundSetting;
    SnapshotFeatures(s, env);
    SnapshotShows(s, env);
    var p := PolicyFromRows(s, env).value;
    if s.content.targets != [] { assert s.content.targets[0] in p.targets; }
  }

  /** The worker's checks before it generates anything, made on the same rows, let through
      exactly what the gate lets through, except for what their snapshot does not show: the
      active connection, the contact, the candidate and an empty target. */
  lemma PreflightAgreesWithGate(t: Task, s: Setting, env: Environment, now: int)
    requires SoundSetting(s) && PolicyFromRows(s, env).Some?
    ensures var gate := GateCode(t, GateRequestFor(t.spec), Some(s), env);
            var check := Preflight(t.spec, PolicyFromRows(s, env), now);
            var waits := check.Wait? || check == Stop(StaleWith(ScheduledPostTooLate));
            var spec := t.spec;
            gate == None <==>
              && (check == Proceed || waits)
              && env.agent.Some? && env.agent.value.activeConnection == Some(spec.connection)
              && (spec.taskType == ReplyToMessage ==> !env.contactChanged && !env.contactForbidden)
              && (spec.taskType in {ProactiveMessage, FollowDiscovered, BefriendDiscovered} ==> env.candidateAllowed)
              && (spec.taskType !in {ScheduledPost, BrowseOnline, RequestMatch} ==> spec.target != "")
  {
    hide GateCode, PolicyFromRows;
    SnapshotShows(s, env);
    SnapshotIsAvailableExactlyWhen(s, env, t.spec.Action());
    var p := PolicyFromRows(s, env).value;
    if t.spec.Action() in p.selectedActions { SnapshotEnablesExactlyWhen(s, env, t.spec); }
    AccessIsRevokedExactlyWhen(t, GateRequestFor(t.spec), Some(s), env);
    ActionOfEachType(t.spec);
    if !Revoked(t.spec.Action(), Some(s), env) { GateDecides(t, s, env); }
  }

  /** Every reason the worker has to stop before generating, each with its own code and in
      this order; and when a scheduled post waits, or is more than an hour late. */
  lemma PreflightDecides(spec: TaskSpec, p: Policy, now: int)
    requires p.available && p.userEnabled && p.postLateness == 3600
    ensures var check := Preflight(spec, Some(p), now);
            var changed := !(&& spec.account == p.account && spec.policyVersion == p.version
                             && spec.executionVersion == p.executionVersion && spec.runnerVersion == p.runnerVersion
                             && spec.connection == p.connection && spec.fingerprint == p.fingerprint);
            var halted := p.halted || p.failures >= p.failureLimit;
            var message := spec.taskType in {ReplyToMessage, ProactiveMessage};
            var managed := spec.taskType in {FollowTarget, UnfollowTarget};
            if changed then check == Stop(CancelledWith(AutonomyPolicyChanged))
            else if halted then check == Stop(CancelledWith(AutonomyHalted))
            else if spec.Action() !in p.selectedActions then check == Stop(CancelledWith(AutonomyActionNotAllowed))
            else if !p.Enables(spec.taskType) then check == Stop(CancelledWith(AutonomyTaskTypeDisabled))
            else if message && !p.autoSend then check == Stop(CancelledWith(AutonomyAutoSendDisabled))
            else if managed && spec.target !in p.targets then check == Stop(CancelledWith(AutonomyTargetNotAllowlisted))
            else if spec.taskType != ScheduledPost || spec.scheduledFor.None? then check == Proceed
            else
              && (now < spec.scheduledFor.value ==> check == Wait(spec.scheduledFor.value, ScheduledTimeNotReached))
              && (spec.scheduledFor.value <= now <= spec.scheduledFor.value + 3600 ==> check == Proceed)
              && (now > spec.scheduledFor.value + 3600 ==> check == Stop(StaleWith(ScheduledPostTooLate)))
  {
  }

  /** A stored row gives a snapshot exactly when the rows it also needs are there and carry
      positive versions. */
  lemma SnapshotExistsExactlyWhen(s: Setting, env: Environment)
    requires SoundSetting(s)
    ensures PolicyFromRows(s, env).Some? <==>
              && env.account.Some? && env.connection.Some?
              && env.execution.Some? && env.execution.value.version >= 1
              && env.agent.Some? && env.agent.value.version >= 1
  {
    if env.account.Some? && env.execution.Some? && env.agent.Some? && env.connection.Some?
       && env.execution.value.version >= 1 && env.agent.value.version >= 1
    {
      SoundRowIsAccepted(s, env);
    }
  }

  /** Whatever rows it was read from, a snapshot has limits: no column above the total, an
      interval, a streak limit, and for every feature its action. */
  lemma SnapshotIsBounded(s: Setting, env: Environment)
    requires PolicyFromRows(s, env).Some?
    ensures var p := PolicyFromRows(s, env).value;
            && 1 <= p.dailyTotal <= 1000 && 1 <= p.minimumInterval <= 86_400 && 1 <= p.failureLimit <= 100
            && p.version >= 1 && p.executionVersion >= 1 && p.runnerVersion >= 1 && p.failures >= 0
            && (forall taskType: TaskType :: 0 <= p.ActionLimit(ActionOf(taskType)) <= p.dailyTotal)
            && (forall taskType: TaskType :: p.Enables(taskType) ==>
                  if taskType in {FollowTarget, UnfollowTarget}
                  then (FollowUser in p.selectedActions || UnfollowUser in p.selectedActions) && p.targets != {}
                  else ActionOf(taskType) in p.selectedActions)
            && (forall target :: target in p.targets ==> ValidTarget(target))
            && (p.quietStart.Some? <==> p.quietEnd.Some?)
            && (p.quietStart.Some? ==> p.quietStart != p.quietEnd)
  {
    var p := PolicyFromRows(s, env).value;
    forall taskType: TaskType
      ensures 0 <= p.ActionLimit(ActionOf(taskType)) <= p.dailyTotal
      ensures p.Enables(taskType) ==>
                if taskType in {FollowTarget, UnfollowTarget}
                then (FollowUser in p.selectedActions || UnfollowUser in p.selectedActions) && p.targets != {}
                else ActionOf(taskType) in p.selectedActions
    {
    }
  }

  /** A worker that inspects the task it holds goes on exactly when this is at most its third
      attempt, the checks on the snapshot pass, the owner is inside the active hours, and
      for a message the conversation has not moved on. */
  lemma InspectionProceedsExactly(events: seq<Event>, w: WorkerId, env: Environment, head: Head, now: int)
    requires WorkerAt(After(events), w).Holding? && WorkerAt(After(events), w).id in After(events).db.tasks
    ensures var s := After(events);
            var s' := After(events + [Inspect(w, env, head, now)]);
            var me := WorkerAt(s, w);
            var spec := s.db.tasks[me.id].spec;
            && s'.db == s.db && spec.owner in s.db.settings
            && var row := s.db.settings[spec.owner];
            && (WorkerAt(s', w).Ready? <==>
                  && me.attempt <= 3
                  && Preflight(spec, PolicyFromRows(row, env), now) == Proceed
                  && WithinHours(row.content, now)
                  && (spec.taskType in {ReplyToMessage, ProactiveMessage} ==> head == Unmoved))
            && (me.attempt > 3 ==>
                  WorkerAt(s', w) == Closing(me.id, me.token, FailedWith(TaskAttemptsExhausted), false))
            && (me.attempt <= 3 && Preflight(spec, PolicyFromRows(row, env), now) == Proceed
                && WithinHours(row.content, now) && spec.taskType in {ReplyToMessage, ProactiveMessage}
                && head != Unmoved ==>
                  WorkerAt(s', w) == Closing(me.id, me.token, StaleWith(
                                               if spec.taskType == ReplyToMessage then InboundAlreadyHandled
                                               else if head == Incoming then InboundRequiresReply
                                               else ProactiveAlreadySent), false))
  {
    hide Inv, Preflight, PolicyFromRows, QuietWindowEnd;
    EveryStateIsSound(events);
    AfterOne(events, Inspect(w, env, head, now));
    var s := After(events);
    var me := WorkerAt(s, w);
    TaskFacts(s, me.id);
    var row := s.db.settings[s.db.tasks[me.id].spec.owner];
    ProceedNeedsPolicy(s.db.tasks[me.id].spec, PolicyFromRows(row, env), now);
    ActiveIsWithinHours(row.content, now);
    if PolicyFromRows(row, env).Some? { QuietOutsideHours(row, env, now); }
  }

  lemma ProceedNeedsPolicy(spec: TaskSpec, policy: Option<Policy>, now: int)
    ensures Preflight(spec, policy, now) == Proceed ==> policy.Some?
  {
  }

  lemma QuietOutsideHours(row: Setting, env: Environment, now: int)
    requires SoundSetting(row) && PolicyFromRows(row, env).Some?
    ensures QuietWindowEnd(PolicyFromRows(row, env).value, now).Some? <==> !ActiveAt(row.content, now)
  {
    hide QuietWindowEnd, PolicyFromRows;
    QuietIsInactive(row, env, now);
  }
}
