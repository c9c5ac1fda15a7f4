/** Row values of the task, execution and usage tables, and the effect of each
    repository transaction on the rows it locks. */
module Transitions {
  import opened Vocabulary
  import opened Policies

  type OwnerId = nat
  type Token = nat
  type WorkerId = nat

  /** Tasks are unique per owner and idempotency key, so that pair names the row. */
  datatype TaskId = TaskId(owner: OwnerId, key: string)

  /** Keys of execution rows.  Autonomous keys hash owner, action and task key (the
      hash is taken to be injective); keys made for user requests carry their own scope. */
  datatype ActionKey =
    | Autonomous(owner: OwnerId, action: ActionType, taskKey: string)
    | UserScoped(scope: string, digest: string)

  /** Executions are unique per owner, action and key, so that triple names the row. */
  datatype ExecutionId = ExecutionId(owner: OwnerId, action: ActionType, key: ActionKey)

  datatype UsageId = UsageId(owner: OwnerId, day: int)

  /** Columns fixed when the task is enqueued. */
  datatype TaskSpec = TaskSpec(
    owner: OwnerId,
    key: string,
    account: nat,
    taskType: TaskType,
    policyVersion: int,
    executionVersion: int,
    runnerVersion: int,
    connection: nat,
    fingerprint: nat,
    source: string,
    target: string,
    scheduledFor: Option<int>)
  {
    function Id(): TaskId { TaskId(owner, key) }
    function Action(): ActionType { ActionOf(taskType) }
    function Key(): ActionKey { Autonomous(owner, Action(), key) }
    function Execution(): ExecutionId { ExecutionId(owner, Action(), Key()) }
    function Category(): Category { CategoryOf(taskType, Action()) }
  }

  datatype Task = Task(
    spec: TaskSpec,
    status: TaskStatus,
    notBefore: Option<int>,
    attempts: nat,
    leaseOwner: Option<WorkerId>,
    token: Option<Token>,
    leaseUntil: Option<int>,
    startedAt: Option<int>,
    code: Code,
    resultId: string,
    unknown: bool,
    completedAt: Option<int>,
    actionKey: Option<ActionKey>,
    budgetDay: Option<int>,
    dispatchStartedAt: Option<int>,
    execution: Option<ExecutionId>)
  {
    function Unleased(): Task {
      this.(leaseOwner := None, token := None, leaseUntil := None)
    }
  }

  function NewTask(spec: TaskSpec, notBefore: Option<int>): Task {
    Task(spec, Queued, notBefore, 0, None, None, None, None, NoCode, "", false, None, None, None, None, None)
  }

  datatype Execution = Execution(
    id: ExecutionId,
    account: nat,
    settingVersion: int,
    snapshot: nat,
    status: ExecutionStatus,
    code: Code,
    resultId: string,
    startedAt: Option<int>,
    completedAt: Option<int>,
    cancelledAt: Option<int>)

  datatype Usage = Usage(
    total: int, reply: int, outreach: int, post: int, relationship: int, browse: int, matching: int,
    failed: int, unknown: int, lastActionAt: Option<int>)
  {
    function Count(category: Category): int {
      match category
      case Reply => reply
      case Outreach => outreach
      case Post => post
      case Relationship => relationship
      case Browse => browse
      case Match => matching
    }

    function Sum(): int {
      reply + outreach + post + relationship + browse + matching
    }

    function Add(category: Category, n: int): Usage {
      match category
      case Reply => this.(reply := reply + n)
      case Outreach => this.(outreach := outreach + n)
      case Post => this.(post := post + n)
      case Relationship => this.(relationship := relationship + n)
      case Browse => this.(browse := browse + n)
      case Match => this.(matching := matching + n)
    }
  }

  const EMPTY_USAGE := Usage(0, 0, 0, 0, 0, 0, 0, 0, 0, None)

  /** The checks of a task snapshot that `enqueue` relies on its callers for. */
  predicate WellFormedSpec(s: TaskSpec) {
    && s.policyVersion >= 1 && s.executionVersion >= 1 && s.runnerVersion >= 1
    && 8 <= |s.key| <= 160
    && |s.source| <= 256
    && match s.taskType
       case ReplyToMessage => ValidTarget(s.target) && s.source != ""
       case ScheduledPost => s.target == "" && s.source == "" && s.scheduledFor.Some?
       case FollowTarget => ValidTarget(s.target) && s.source == ""
       case UnfollowTarget => ValidTarget(s.target) && s.source == ""
       case FollowDiscovered => ValidTarget(s.target) && s.source == ""
       case ProactiveMessage => ValidTarget(s.target) && s.source == "" && s.scheduledFor.None?
       case BefriendDiscovered => ValidTarget(s.target) && s.source == "" && s.scheduledFor.None?
       case _ => s.target == "" && s.source == "" && s.scheduledFor.None?
  }

  // ------------------------------------------------------------------- leases

  /** Work that a worker may take: due queued or deferred work, or an expired lease
      on work that has not been dispatched. */
  predicate Claimable(t: Task, now: int) {
    match t.status
    case Queued => t.notBefore.None? || t.notBefore.value <= now
    case Deferred => t.notBefore.Some? && t.notBefore.value <= now
    case Leased => t.leaseUntil.Some? && t.leaseUntil.value <= now
    case Generating => t.leaseUntil.Some? && t.leaseUntil.value <= now
    case _ => false
  }

  function Claimed(t: Task, worker: WorkerId, token: Token, now: int, leaseUntil: int): Task {
    t.(status := Leased, leaseOwner := Some(worker), token := Some(token), leaseUntil := Some(leaseUntil),
       attempts := t.attempts + 1, startedAt := if t.startedAt.Some? then t.startedAt else Some(now),
       code := NoCode)
  }

  predicate HoldsLiveLease(t: Task, token: Token, now: int) {
    && t.status in {Leased, Generating} && t.token == Some(token)
    && t.leaseUntil.Some? && t.leaseUntil.value >= now
  }

  predicate MayBeginGeneration(t: Task, token: Token, now: int) {
    t.status == Leased && HoldsLiveLease(t, token, now)
  }

  function GenerationBegun(t: Task, leaseUntil: int): Task {
    t.(status := Generating, leaseUntil := Some(leaseUntil))
  }

  /** Deferring checks the token but not whether the lease has expired. */
  predicate MayDefer(t: Task, token: Token) {
    t.status in {Leased, Generating} && t.token == Some(token)
  }

  function DeferredTask(t: Task, notBefore: int, code: Code): Task {
    t.Unleased().(status := Deferred, notBefore := Some(notBefore), code := code)
  }

  /** Administrative and scheduler cancellation of work that has not been dispatched. */
  function Withdrawn(t: Task, status: TaskStatus, code: Code, now: int): Task {
    t.Unleased().(status := status, code := code, unknown := false, completedAt := Some(now))
  }

  // -------------------------------------------------------- execution audit row

  function NewExecution(t: Task, snapshot: nat): Execution {
    Execution(t.spec.Execution(), t.spec.account, t.spec.executionVersion, snapshot,
              ExecQueued, NoCode, "", None, None, None)
  }

  function Started(x: Execution, now: int): Execution {
    x.(status := ExecRunning, startedAt := Some(now), completedAt := None, cancelledAt := None, code := NoCode)
  }

  function SucceededExecution(x: Execution, resultId: string, now: int): Execution {
    x.(status := ExecSucceeded, resultId := Clip(resultId), code := NoCode, completedAt := Some(now),
       cancelledAt := None)
  }

  function FailedExecution(x: Execution, code: Code, now: int): Execution {
    x.(status := ExecFailed, code := OrElse(code, AccountActionFailed), resultId := "",
       completedAt := Some(now), cancelledAt := None)
  }

  function UnknownExecution(x: Execution, code: Code, now: int): Execution {
    x.(status := ExecManualReview, code := OrElse(code, AccountActionOutcomeUnknown), resultId := "",
       completedAt := Some(now), cancelledAt := None)
  }

  function CancelledExecution(x: Execution, code: Code, now: int): Execution {
    x.(status := ExecCancelled, code := OrElse(code, UserCancelled), resultId := "",
       completedAt := Some(now), cancelledAt := Some(now))
  }

  /** The audit row really belongs to this task's dispatch. */
  predicate Bound(t: Task, x: Execution) {
    && x.account == t.spec.account
    && x.id.action == t.spec.Action()
    && t.actionKey == Some(x.id.key)
    && x.settingVersion == t.spec.executionVersion
  }

  // ------------------------------------------------------------- authorization

  datatype GateRequest = GateRequest(
    account: nat, policyVersion: int, executionVersion: int, runnerVersion: int,
    connection: nat, fingerprint: nat, action: ActionType, target: string)

  function GateRequestFor(s: TaskSpec): GateRequest {
    GateRequest(s.account, s.policyVersion, s.executionVersion, s.runnerVersion,
                s.connection, s.fingerprint, s.Action(), s.target)
  }

  predicate AccessGranted(env: Environment, setting: Setting) {
    && env.system.Some? && env.user.Some? && env.account.Some? && env.agent.Some?
    && env.execution.Some? && env.connection.Some?
    && env.system.value.enabled && env.system.value.accountActionsEnabled && env.system.value.autonomyEnabled
    && env.user.value.active && !env.user.value.disabled
    && env.user.value.runnerGranted && env.user.value.actionsGranted && env.user.value.autonomyGranted
    && env.agent.value.userEnabled && env.execution.value.userEnabled && setting.content.userEnabled
    && env.connection.value.enabled && env.connection.value.hasKey && env.connection.value.lastTestOk
  }

  predicate FeatureEnabled(c: PolicyContent, taskType: TaskType) {
    match taskType
    case ReplyToMessage => c.autoReply
    case ScheduledPost => c.scheduledPosts
    case FollowTarget => c.managedRelationships
    case UnfollowTarget => c.managedRelationships
    case BrowseOnline => c.discovery
    case RequestMatch => c.textMatch
    case ProactiveMessage => c.proactiveMessages
    case FollowDiscovered => c.followDiscovered
    case BefriendDiscovered => c.friendRequests
  }

  /** The authorization gate, checked when a dispatch is reserved and again, under
      row locks, around the side effect itself. */
  function GateCode(t: Task, r: GateRequest, s: Option<Setting>, env: Environment): Option<DispatchCode> {
    if s.None? || !AccessGranted(env, s.value) then Some(AccessRevoked)
    else if r.action == SendPrivateMessage && !env.execution.value.autoSend then Some(AccessRevoked)
    else if !(&& t.spec.account == r.account
              && env.account.value == r.account
              && s.value.version == r.policyVersion
              && env.execution.value.version == r.executionVersion
              && env.agent.value.version == r.runnerVersion
              && env.agent.value.activeConnection == Some(r.connection)
              && env.connection.value.id == r.connection
              && env.fingerprint == r.fingerprint
              && t.spec.policyVersion == r.policyVersion
              && t.spec.executionVersion == r.executionVersion
              && t.spec.runnerVersion == r.runnerVersion
              && t.spec.connection == r.connection
              && t.spec.fingerprint == r.fingerprint) then Some(PolicyChanged)
    else if s.value.haltedAt.Some? || s.value.failures >= s.value.content.failureLimit then Some(Halted)
    else if r.action !in s.value.content.allowedActions
            || r.action !in env.execution.value.allowedActions then Some(ActionNotAllowed)
    else if !FeatureEnabled(s.value.content, t.spec.taskType) then Some(ActionNotAllowed)
    else if t.spec.taskType == ReplyToMessage && env.contactChanged then Some(PolicyChanged)
    else if t.spec.taskType == ReplyToMessage && env.contactForbidden then Some(ActionNotAllowed)
    else if t.spec.taskType in {FollowTarget, UnfollowTarget}
            && r.target !in s.value.content.targets then Some(ActionNotAllowed)
    else if UsesDiscoveredCandidate(t.spec.taskType)
            && (r.target == "" || !env.candidateAllowed || r.target != t.spec.target) then Some(ActionNotAllowed)
    else if t.spec.Action() in {SendPrivateMessage, FollowUser, UnfollowUser, RequestFriend}
            && r.target == "" then Some(ActionNotAllowed)
    else None
  }

  // ------------------------------------------------------------------ dispatch

  datatype Reservation = Reservation(
    gate: GateRequest,
    token: Token,
    actionKey: ActionKey,
    expectedSource: string,
    budgetDay: int,
    dailyTotal: int,
    dailyAction: int,
    minimumInterval: int,
    now: int)

  datatype Decision =
    | Denied(code: DispatchCode, retryAt: Option<int>)
    | Allowed(task: Task, setting: Setting, usage: Usage)

  /** The earliest time the owner's next action may be reserved. */
  function EarliestNext(s: Setting, u: Usage, interval: int): Option<int> {
    var previous := if s.lastActionAt.Some? then s.lastActionAt else u.lastActionAt;
    if previous.None? then None else Some(previous.value + interval)
  }

  /** Reserving a dispatch: authorization, source freshness, both daily budgets and
      the minimum interval, then the counters, the clock and the permit move together. */
  function Reserve(t: Task, s: Option<Setting>, u: Usage, r: Reservation, env: Environment, permit: Token): Decision {
    var gate := GateCode(t, r.gate, s, env);
    if !HoldsLiveLease(t, r.token, r.now) then Denied(LeaseLost, None)
    else if gate.Some? then Denied(gate.value, None)
    else if r.expectedSource != "" && !env.headDispatchable then Denied(SourceStale, None)
    else if u.total >= r.dailyTotal || u.Count(t.spec.Category()) >= r.dailyAction
    then Denied(DailyBudgetExhausted, None)
    else
      var earliest := EarliestNext(s.value, u, r.minimumInterval);
      if earliest.Some? && earliest.value > r.now then Denied(MinimumInterval, earliest)
      else
        Allowed(
          t.(status := Dispatching, actionKey := Some(r.actionKey), budgetDay := Some(r.budgetDay),
             dispatchStartedAt := Some(r.now), token := Some(permit), leaseUntil := None),
          s.value.(lastActionAt := Some(r.now), lastRunAt := Some(r.now)),
          u.Add(t.spec.Category(), 1).(total := u.total + 1, lastActionAt := Some(r.now)))
  }

  /** A reservation reaches the usage row, creating it when absent, before it can be
      refused for budget or spacing. */
  predicate ReachesUsage(t: Task, s: Option<Setting>, r: Reservation, env: Environment) {
    && HoldsLiveLease(t, r.token, r.now)
    && GateCode(t, r.gate, s, env).None?
    && (r.expectedSource == "" || env.headDispatchable)
  }

  /** The last check before the side effect, made while every row stays locked. */
  predicate PermitHolds(t: Task, permit: Token, x: Option<Execution>, id: ExecutionId, snapshot: nat,
                        s: Option<Setting>, env: Environment, now: int)
  {
    && t.status == Dispatching && t.token == Some(permit)
    && t.actionKey == Some(id.key) && t.spec.Action() == id.action
    && x.Some? && t.execution == Some(id) && Bound(t, x.value)
    && x.value.status == ExecRunning && x.value.snapshot == snapshot
    && (t.spec.Action() == PublishTextPost ==> env.contentDigestPresent && !env.duplicatePost)
    && GateCode(t, GateRequestFor(t.spec), s, env).None?
    && (t.spec.taskType == ReplyToMessage ==> env.headDispatchable)
    && (t.spec.taskType == ProactiveMessage ==> !env.hasConversation)
    && ActiveAt(s.value.content, now)
  }

  // ---------------------------------------------------------------- completion

  datatype Completion = Completion(
    status: TaskStatus, code: Code, resultId: string, unknown: bool, counts: bool, resets: bool,
    halts: bool, retryable: bool, refunds: bool, retryAt: Option<int>)

  /** The consistency rules of a completion. */
  predicate ValidCompletion(c: Completion) {
    && c.status.Terminal()
    && (c.status == Succeeded ==>
          && c.code == NoCode && !c.unknown && !c.counts && !c.halts && !c.retryable && !c.refunds
          && c.retryAt.None?)
    && (c.status != Succeeded ==> c.code != NoCode)
    && (c.unknown <==> c.status == ManualReview)
    && (c.unknown ==> c.counts && c.halts)
    && (c.retryable ==> c.status == Failed && c.counts && !c.halts && c.refunds && c.retryAt.Some?)
    && (c.refunds ==> c.retryable)
    && (c.retryAt.Some? ==> c.retryable)
  }

  function SucceededWith(resultId: string): Completion {
    Completion(Succeeded, NoCode, resultId, false, false, true, false, false, false, None)
  }

  function FailedWith(code: Code): Completion {
    Completion(Failed, code, "", false, true, false, false, false, false, None)
  }

  function RetryableFailure(code: Code, retryAt: int): Completion {
    Completion(Failed, code, "", false, true, false, false, true, true, Some(retryAt))
  }

  function CancelledWith(code: Code): Completion {
    Completion(Cancelled, code, "", false, false, false, false, false, false, None)
  }

  function StaleWith(code: Code): Completion {
    Completion(Stale, code, "", false, false, false, false, false, false, None)
  }

  function UnknownWith(code: Code): Completion {
    Completion(ManualReview, code, "", true, true, false, true, false, false, None)
  }

  /** What a task's end is decided to be, and the audit row it leaves. */
  datatype Verdict = Verdict(
    status: TaskStatus, code: Code, resultId: string, unknown: bool, counts: bool, resets: bool,
    halts: bool, execution: Option<Execution>)

  function NeedsReview(code: Code, x: Option<Execution>): Verdict {
    Verdict(ManualReview, code, "", true, true, false, true, x)
  }

  /** The end of a task whose audit row has already ended. */
  function Mirror(x: Execution): Verdict {
    match x.status
    case ExecSucceeded => Verdict(Succeeded, NoCode, Clip(x.resultId), false, false, true, false, Some(x))
    case ExecFailed =>
      var code := OrElse(x.code, AccountActionFailed);
      if code == LocalMessageSourceStale then Verdict(Stale, code, "", false, false, false, false, Some(x))
      else Verdict(Failed, code, "", false, true, false, false, Some(x))
    case ExecCancelled =>
      Verdict(Cancelled, OrElse(x.code, AccountActionCancelled), "", false, false, false, false, Some(x))
    case ExecManualReview => NeedsReview(OrElse(x.code, AccountActionOutcomeUnknown), Some(x))
    case _ => NeedsReview(ExecutionAuditStateMismatch, Some(x))
  }

  function RequestedCode(c: Completion): Code {
    if c.status == Succeeded then NoCode else OrElse(c.code, AutonomyTaskFailed)
  }

  /** The audit status that a requested task status is compatible with. */
  predicate Compatible(status: TaskStatus, code: Code, x: Execution) {
    match status
    case Succeeded => x.status == ExecSucceeded
    case Failed => x.status == ExecFailed
    case Stale => x.status == ExecFailed && OrElse(x.code, AccountActionFailed) == LocalMessageSourceStale
    case Cancelled => x.status == ExecCancelled
    case ManualReview => x.status == ExecManualReview
    case _ => false
  }

  /** How a completion closes an audit row that is still running. */
  function CloseRunning(x: Execution, c: Completion, now: int): Execution {
    var code := RequestedCode(c);
    if c.status == Succeeded then SucceededExecution(x, Clip(c.resultId), now)
    else if c.status == ManualReview && c.unknown then UnknownExecution(x, code, now)
    else if c.status == Failed && !c.unknown then FailedExecution(x, code, now)
    else if c.status == Stale && !c.unknown && code == LocalMessageSourceStale then FailedExecution(x, code, now)
    else UnknownExecution(x, ExecutionAuditStateMismatch, now)
  }

  /** Reconciles the end a worker asks for with what the audit row says happened. */
  function Resolve(t: Task, x: Option<Execution>, c: Completion, now: int): Verdict {
    var code := RequestedCode(c);
    if t.execution.None? then
      if t.status == Dispatching then
        Verdict(Failed,
                if c.status in {Failed, Cancelled, Stale} && !c.unknown then code else ActionExecutionNotPrepared,
                "", false, true, false, false, x)
      else Verdict(c.status, code, Clip(c.resultId), c.unknown, c.counts || c.unknown, c.resets, c.halts, x)
    else if x.None? || !Bound(t, x.value) then NeedsReview(ExecutionAuditMismatch, x)
    else if x.value.status == ExecQueued then
      var closed :=
        CancelledExecution(x.value, if !c.unknown && code != NoCode then code else ActionExecutionNotStarted, now);
      if c.status == Succeeded || c.unknown then NeedsReview(ExecutionAuditStateMismatch, Some(closed))
      else Mirror(closed)
    else if x.value.status == ExecRunning then Mirror(CloseRunning(x.value, c, now))
    else if Compatible(c.status, code, x.value) then Mirror(x.value)
    else NeedsReview(ExecutionAuditStateMismatch, x)
  }

  datatype Rows = Rows(task: Task, execution: Option<Execution>, setting: Option<Setting>, usage: Option<Usage>)

  /** Conditions under which the code raises instead of committing. */
  datatype Fault = BudgetDayDisagrees | UsageRowMissing | RefundNotReserved

  function Ended(t: Task, v: Verdict, now: int): Task {
    t.Unleased().(status := v.status, code := v.code, resultId := v.resultId, unknown := v.unknown,
                  completedAt := Some(now))
  }

  /** Timestamps that a success leaves on the policy row. */
  function SuccessRecorded(s: Setting, spec: TaskSpec, now: int): Setting {
    var posted := if spec.Action() == PublishTextPost then s.(lastPostAt := Some(now)) else s;
    match spec.taskType
    case BrowseOnline => posted.(lastDiscoveryAt := Some(now))
    case RequestMatch => posted.(lastMatchAt := Some(now))
    case ProactiveMessage => posted.(lastOutreachAt := Some(now))
    case _ => posted
  }

  /** The policy row once an end has been recorded and its failure counted. */
  function Counted(s: Setting, spec: TaskSpec, v: Verdict, counts: bool, now: int): Setting {
    var s0 := s.(lastRunAt := Some(now), failures := if v.resets then 0 else s.failures);
    var s1 := if v.status == Succeeded then SuccessRecorded(s0, spec, now) else s0;
    if counts then s1.(failures := s1.failures + 1) else s1
  }

  function SettingAfter(s: Setting, spec: TaskSpec, v: Verdict, retryable: bool, retryAt: Option<int>,
                        now: int): Setting {
    var s2 := Counted(s, spec, v, v.counts && !retryable, now);
    if v.halts || (!retryable && s2.failures >= s2.content.failureLimit) then
      s2.(haltedAt := Some(now), haltedReason := OrElse(v.code, AutonomyHalted), nextRunAt := None)
    else if retryAt.Some? && (s2.nextRunAt.None? || s2.nextRunAt.value < retryAt.value) then
      s2.(nextRunAt := retryAt)
    else s2
  }

  function Outcomes(u: Usage, v: Verdict): Usage {
    u.(failed := u.failed + (if v.counts then 1 else 0), unknown := u.unknown + (if v.unknown then 1 else 0))
  }

  /** Only a retryable known failure that kept its own code gives its budget back. */
  predicate GrantsRetry(c: Completion, v: Verdict) {
    c.retryable && v.status == Failed && !v.unknown && v.code == RequestedCode(c)
  }

  /** Ending a task for the worker that holds its token. */
  function Finish(r: Rows, c: Completion, now: int): Result<Rows, Fault> {
    var v := Resolve(r.task, r.execution, c, now);
    var retryable := GrantsRetry(c, v);
    var refund := c.refunds && retryable;
    var category := r.task.spec.Category();
    if r.task.dispatchStartedAt.None? != r.task.budgetDay.None? then Failure(BudgetDayDisagrees)
    else if r.task.budgetDay.Some? && r.usage.None? then Failure(UsageRowMissing)
    else if r.task.budgetDay.Some? && refund && (r.usage.value.total <= 0 || r.usage.value.Count(category) <= 0)
    then Failure(RefundNotReserved)
    else
      Success(Rows(
        Ended(r.task, v, now),
        v.execution,
        if r.setting.None? then None
        else Some(SettingAfter(r.setting.value, r.task.spec, v, retryable,
                               if retryable then c.retryAt else None, now)),
        if r.task.budgetDay.None? then r.usage
        else
          var kept := if refund then r.usage.value.Add(category, -1).(total := r.usage.value.total - 1)
                      else r.usage.value;
          Some(Outcomes(kept, v))))
  }

  predicate MayFinish(t: Task, token: Token) {
    t.token == Some(token) && !t.status.Terminal()
  }

  // ------------------------------------------------------------------ recovery

  /** What the sweep concludes about a dispatched task whose worker is gone. */
  function Autopsy(t: Task, x: Option<Execution>, code: Code, now: int): Verdict {
    if t.execution.None? then
      Verdict(Failed, WorkerLostBeforeActionPrepare, "", false, true, false, false, x)
    else if x.None? || !Bound(t, x.value) then NeedsReview(ExecutionAuditMismatch, x)
    else
      match x.value.status
      case ExecQueued => Mirror(CancelledExecution(x.value, WorkerLostBeforeActionStart, now))
      case ExecRunning => Mirror(UnknownExecution(x.value, code, now))
      case _ => Mirror(x.value)
  }

  function SettingSwept(s: Setting, spec: TaskSpec, v: Verdict, code: Code, now: int): Setting {
    var s2 := Counted(s, spec, v, v.counts, now);
    if v.unknown || s2.failures >= s2.content.failureLimit then
      s2.(haltedAt := Some(now), haltedReason := OrElse(v.code, code), nextRunAt := None)
    else s2
  }

  /** The recovery sweep's treatment of one expired dispatch. */
  function Sweep(r: Rows, code: Code, now: int): Result<Rows, Fault> {
    var v := Autopsy(r.task, r.execution, code, now);
    if r.task.budgetDay.None? then Failure(BudgetDayDisagrees)
    else if r.usage.None? then Failure(UsageRowMissing)
    else
      Success(Rows(
        Ended(r.task, v, now),
        v.execution,
        if r.setting.None? then None else Some(SettingSwept(r.setting.value, r.task.spec, v, code, now)),
        Some(Outcomes(r.usage.value, v))))
  }

  predicate Expired(t: Task, before: int) {
    t.status == Dispatching && t.dispatchStartedAt.Some? && t.dispatchStartedAt.value < before
  }
}
