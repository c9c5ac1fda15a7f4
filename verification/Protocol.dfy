/** The unattended-action protocol as a transition system.  One event is one committed
    transaction, one local decision of a worker, or a crash.  Every event carries its own
    clock reading, so clocks of different workers need not agree or move forward. */
module Protocol {
  import opened Vocabulary
  import opened Policies
  import opened Transitions

  const MAX_ATTEMPTS := 3
  const RETRY_DELAY := 300

  datatype Tables = Tables(
    tasks: map<TaskId, Task>,
    executions: map<ExecutionId, Execution>,
    settings: map<OwnerId, Setting>,
    usages: map<UsageId, Usage>)

  datatype FixedOutcome = OutcomeSucceeded | OutcomeFailed | OutcomeUnknown

  /** Where a worker stands in one run of the orchestrator, with what it remembers. */
  datatype Worker =
    | Idle
    | Holding(id: TaskId, token: Token, attempt: nat)
    | Ready(id: TaskId, token: Token, attempt: nat, policy: Policy)
    | Drafting(id: TaskId, token: Token, attempt: nat, policy: Policy)
    | Drafted(id: TaskId, token: Token, attempt: nat, policy: Policy)
    | Deferring(id: TaskId, token: Token, attempt: nat, notBefore: int, code: Code)
    | Permitted(id: TaskId, token: Token)
    | Prepared(id: TaskId, token: Token, snapshot: nat)
    | Finalizing(id: TaskId, token: Token, outcome: FixedOutcome, code: Code, invoked: bool)
    | Closing(id: TaskId, token: Token, completion: Completion, dispatched: bool)

  /** One external action, with the tables, the other rows and the clock as the gate saw them. */
  datatype Invocation = Invocation(id: TaskId, permit: Token, env: Environment, at: Tables, clock: int)

  /** One reserved dispatch of an owner and the spacing that was in force. */
  datatype Slot = Slot(id: TaskId, at: int, interval: int)

  /** What happened, kept only to state properties; no transaction reads it. */
  datatype History = History(
    pinned: map<TaskId, PolicyContent>,
    permits: map<TaskId, Token>,
    log: seq<Invocation>,
    escaped: set<TaskId>,
    refunded: set<TaskId>,
    slots: map<OwnerId, seq<Slot>>)

  datatype World = World(db: Tables, workers: map<WorkerId, Worker>, issued: set<Token>, past: History)

  const START := World(Tables(map[], map[], map[], map[]), map[], {}, History(map[], map[], [], {}, {}, map[]))

  datatype ProviderReply = Returned(resultId: string) | Threw(code: Code, outcomeUnknown: bool)

  /** How a transaction ends: committed, rolled back, or committed although the
      worker is told that it failed. */
  datatype CommitFate = Durable | Lost | DurableButReportedLost

  /** How the conversation of a message stands: as its task expects, or moved on by the
      contact or by the account's own side. */
  datatype Head = Unmoved | Incoming | Outgoing

  datatype Event =
    | Enqueue(spec: TaskSpec, notBefore: Option<int>)
    | Claim(worker: WorkerId, id: TaskId, token: Token, now: int, leaseUntil: int)
    | Inspect(worker: WorkerId, env: Environment, head: Head, now: int)
    | BeginGeneration(worker: WorkerId, now: int, leaseUntil: int)
    | GenerationFails(worker: WorkerId, code: Code)
    | RenewLease(worker: WorkerId, head: Head, now: int, leaseUntil: int)
    | ReserveDispatch(worker: WorkerId, env: Environment, permit: Token, now: int)
    | Defer(worker: WorkerId)
    | PrepareExecution(worker: WorkerId, snapshot: nat, fate: CommitFate, code: Code, now: int)
    | Act(worker: WorkerId, env: Environment, reply: ProviderReply, fate: CommitFate, code: Code, now: int)
    | GateRaises(worker: WorkerId, code: Code)
    | Finalize(worker: WorkerId, swallowed: bool, now: int)
    | DispatcherRaises(worker: WorkerId)
    | Complete(worker: WorkerId, now: int)
    | Crash(worker: WorkerId)
    | SweepExpired(id: TaskId, before: int, code: Code, now: int)
    | CancelTask(id: TaskId, stale: bool, code: Code, now: int)
    | ExpireExecution(execution: ExecutionId, now: int)
    | CancelExecution(execution: ExecutionId, code: Code, now: int)
    | UserExecution(row: Execution)
    | CreateSetting(owner: OwnerId)
    | ConfigurePolicy(owner: OwnerId, request: PolicyContent, now: int)
    | DisablePolicy(owner: OwnerId, reason: Code, now: int)
    | SchedulerHalt(owner: OwnerId, reason: Code, now: int)
    | SchedulerTick(owner: OwnerId, nextRunAt: Option<int>, now: int)

  function WorkerAt(s: World, w: WorkerId): Worker {
    if w in s.workers then s.workers[w] else Idle
  }

  function Lookup<K, V>(m: map<K, V>, k: K): Option<V> {
    if k in m then Some(m[k]) else None
  }

  function Moved(s: World, w: WorkerId, to: Worker): World {
    s.(workers := s.workers[w := to])
  }

  function WithTask(s: World, id: TaskId, t: Task): World {
    s.(db := s.db.(tasks := s.db.tasks[id := t]))
  }

  function WithExecution(s: World, id: ExecutionId, x: Execution): World {
    s.(db := s.db.(executions := s.db.executions[id := x]))
  }

  function WithSetting(s: World, o: OwnerId, row: Setting): World {
    s.(db := s.db.(settings := s.db.settings[o := row]))
  }

  // -------------------------------------------------------------- the scheduler

  /** The scheduler creates tasks under the owner's current policy version. */
  function OnEnqueue(s: World, spec: TaskSpec, notBefore: Option<int>): World {
    if WellFormedSpec(spec) && spec.Id() !in s.db.tasks && spec.owner in s.db.settings
       && spec.policyVersion == s.db.settings[spec.owner].version
    then
      WithTask(s, spec.Id(), NewTask(spec, notBefore)).(
        past := s.past.(pinned := s.past.pinned[spec.Id() := s.db.settings[spec.owner].content]))
    else s
  }

  function OnCancelTask(s: World, id: TaskId, stale: bool, code: Code, now: int): World {
    if id in s.db.tasks && s.db.tasks[id].status.NotStarted()
    then WithTask(s, id, Withdrawn(s.db.tasks[id], if stale then Stale else Cancelled, code, now))
    else s
  }

  // ---------------------------------------------------------------- the worker

  function OnClaim(s: World, w: WorkerId, id: TaskId, token: Token, now: int, leaseUntil: int): World {
    if WorkerAt(s, w).Idle? && id in s.db.tasks && Claimable(s.db.tasks[id], now) && token !in s.issued
    then
      var t := Claimed(s.db.tasks[id], w, token, now, leaseUntil);
      Moved(WithTask(s, id, t), w, Holding(id, token, t.attempts)).(issued := s.issued + {token})
    else s
  }

  datatype Check = Proceed | Stop(completion: Completion) | Wait(until: int, code: Code)

  /** The orchestrator's checks before any generation or dispatch. */
  function Preflight(spec: TaskSpec, policy: Option<Policy>, now: int): Check {
    if policy.None? || !policy.value.available || !policy.value.userEnabled
    then Stop(CancelledWith(AutonomyAccessRevoked))
    else
      var p := policy.value;
      if spec.account != p.account || spec.policyVersion != p.version
         || spec.executionVersion != p.executionVersion || spec.runnerVersion != p.runnerVersion
         || spec.connection != p.connection || spec.fingerprint != p.fingerprint
      then Stop(CancelledWith(AutonomyPolicyChanged))
      else if p.halted || p.failures >= p.failureLimit then Stop(CancelledWith(AutonomyHalted))
      else if spec.Action() !in p.selectedActions then Stop(CancelledWith(AutonomyActionNotAllowed))
      else if !p.Enables(spec.taskType) then Stop(CancelledWith(AutonomyTaskTypeDisabled))
      else if spec.taskType in {ReplyToMessage, ProactiveMessage} && !p.autoSend
      then Stop(CancelledWith(AutonomyAutoSendDisabled))
      else if spec.taskType in {FollowTarget, UnfollowTarget} && spec.target !in p.targets
      then Stop(CancelledWith(AutonomyTargetNotAllowlisted))
      else if spec.taskType == ScheduledPost && spec.scheduledFor.Some? && spec.scheduledFor.value > now
      then Wait(spec.scheduledFor.value, ScheduledTimeNotReached)
      else if TooLate(spec, p, now) then Stop(StaleWith(ScheduledPostTooLate))
      else Proceed
  }

  predicate TooLate(spec: TaskSpec, p: Policy, now: int) {
    spec.taskType == ScheduledPost && spec.scheduledFor.Some? && now - spec.scheduledFor.value > p.postLateness
  }

  predicate NeedsCurrentHead(taskType: TaskType) {
    taskType in {ReplyToMessage, ProactiveMessage}
  }

  /** Why a message is no longer wanted, before and after its text was generated. */
  function HeadCode(taskType: TaskType, head: Head, drafted: bool): Code {
    if taskType == ReplyToMessage then (if drafted then InboundChangedDuringGeneration else InboundAlreadyHandled)
    else if head == Incoming then InboundRequiresReply
    else if drafted then ProactiveChangedDuringGeneration
    else ProactiveAlreadySent
  }

  /** Failures of a draft after which there is simply nothing to send. */
  predicate SafeToSkip(code: Code) {
    code in {InboundMessageStale, ReplyHasUnapprovedAddress, ReplyNotNeeded}
  }

  function OnInspect(s: World, w: WorkerId, env: Environment, head: Head, now: int): World {
    match WorkerAt(s, w)
    case Holding(id, token, attempt) =>
      if id !in s.db.tasks then s
      else
        var spec := s.db.tasks[id].spec;
        var row := Lookup(s.db.settings, spec.owner);
        var policy := if row.None? then None else PolicyFromRows(row.value, env);
        Moved(s, w,
          if attempt > MAX_ATTEMPTS then Closing(id, token, FailedWith(TaskAttemptsExhausted), false)
          else
            match Preflight(spec, policy, now)
            case Stop(c) => Closing(id, token, c, false)
            case Wait(until, code) => Deferring(id, token, attempt, until, code)
            case Proceed =>
              var quiet := QuietWindowEnd(policy.value, now);
              if quiet.Some? then Deferring(id, token, attempt, quiet.value, QuietHours)
              else if NeedsCurrentHead(spec.taskType) && head != Unmoved
              then Closing(id, token, StaleWith(HeadCode(spec.taskType, head, false)), false)
              else Ready(id, token, attempt, policy.value))
    case _ => s
  }

  function OnBeginGeneration(s: World, w: WorkerId, now: int, leaseUntil: int): World {
    match WorkerAt(s, w)
    case Ready(id, token, attempt, policy) =>
      if id !in s.db.tasks || !NeedsGeneratedText(s.db.tasks[id].spec.taskType) then s
      else if MayBeginGeneration(s.db.tasks[id], token, now)
      then Moved(WithTask(s, id, GenerationBegun(s.db.tasks[id], leaseUntil)), w, Drafting(id, token, attempt, policy))
      else Moved(s, w, Idle)
    case _ => s
  }

  function OnGenerationFails(s: World, w: WorkerId, code: Code): World {
    match WorkerAt(s, w)
    case Drafting(id, token, attempt, policy) =>
      var failure := OrElse(code, AutonomyTaskFailed);
      Moved(s, w, Closing(id, token, if SafeToSkip(failure) then StaleWith(failure) else FailedWith(failure), false))
    case _ => s
  }

  function OnRenewLease(s: World, w: WorkerId, head: Head, now: int, leaseUntil: int): World {
    match WorkerAt(s, w)
    case Drafting(id, token, attempt, policy) =>
      if id !in s.db.tasks then s
      else if !HoldsLiveLease(s.db.tasks[id], token, now) then Moved(s, w, Idle)
      else
        var spec := s.db.tasks[id].spec;
        var quiet := QuietWindowEnd(policy, now);
        Moved(WithTask(s, id, s.db.tasks[id].(leaseUntil := Some(leaseUntil))), w,
          if quiet.Some? then Deferring(id, token, attempt, quiet.value, QuietHours)
          else if NeedsCurrentHead(spec.taskType) && head != Unmoved
          then Closing(id, token, StaleWith(HeadCode(spec.taskType, head, true)), false)
          else if TooLate(spec, policy, now) then Closing(id, token, StaleWith(ScheduledPostExpired), false)
          else Drafted(id, token, attempt, policy))
    case _ => s
  }

  function OnDefer(s: World, w: WorkerId): World {
    match WorkerAt(s, w)
    case Deferring(id, token, attempt, notBefore, code) =>
      var idle := Moved(s, w, Idle);
      if id in s.db.tasks && MayDefer(s.db.tasks[id], token)
      then WithTask(idle, id, DeferredTask(s.db.tasks[id], notBefore, code))
      else idle
    case _ => s
  }

  /** The request a worker builds from its task and the policy it loaded. */
  function ReservationFor(spec: TaskSpec, token: Token, p: Policy, now: int): Reservation {
    Reservation(GateRequestFor(spec), token, spec.Key(), spec.source, LocalDay(p.zoneOffset, now),
                p.dailyTotal, p.ActionLimit(spec.Action()), p.minimumInterval, now)
  }

  predicate ReadyToDispatch(s: World, w: WorkerId) {
    match WorkerAt(s, w)
    case Drafted(id, _, _, _) => id in s.db.tasks
    case Ready(id, _, _, _) => id in s.db.tasks && !NeedsGeneratedText(s.db.tasks[id].spec.taskType)
    case _ => false
  }

  function OnReserve(s: World, w: WorkerId, env: Environment, permit: Token, now: int): World {
    if !ReadyToDispatch(s, w) || permit in s.issued then s
    else
      var me := WorkerAt(s, w);
      var t := s.db.tasks[me.id];
      var owner := t.spec.owner;
      var r := ReservationFor(t.spec, me.token, me.policy, now);
      var key := UsageId(owner, r.budgetDay);
      var row := Lookup(s.db.settings, owner);
      var usage := if key in s.db.usages then s.db.usages[key] else EMPTY_USAGE;
      match Reserve(t, row, usage, r, env, permit)
      case Denied(code, retryAt) =>
        var touched :=
          if ReachesUsage(t, row, r, env) then s.(db := s.db.(usages := s.db.usages[key := usage])) else s;
        Moved(touched, w,
          if code == LeaseLost then Idle
          else if code == MinimumInterval && retryAt.Some?
          then Deferring(me.id, me.token, me.attempt, retryAt.value, MinimumIntervalPending)
          else if code == MinimumInterval then Closing(me.id, me.token, FailedWith(InvalidIntervalDecision), false)
          else if code == SourceStale then Closing(me.id, me.token, StaleWith(DispatchDenied(code)), false)
          else Closing(me.id, me.token, CancelledWith(DispatchDenied(code)), false))
      case Allowed(t', s', u') =>
        var slots := if owner in s.past.slots then s.past.slots[owner] else [];
        World(
          s.db.(tasks := s.db.tasks[me.id := t'], settings := s.db.settings[owner := s'],
                usages := s.db.usages[key := u']),
          s.workers[w := Permitted(me.id, permit)],
          s.issued + {permit},
          s.past.(permits := s.past.permits[me.id := permit],
                  slots := s.past.slots[owner := slots + [Slot(me.id, now, r.minimumInterval)]]))
  }

  /** The completion a worker asks for after a fixed action ended this way. */
  function CompletionFor(outcome: FixedOutcome, code: Code, resultId: string, now: int): Completion {
    match outcome
    case OutcomeSucceeded => SucceededWith(resultId)
    case OutcomeUnknown => UnknownWith(OrElse(code, DispatchOutcomeUnknown))
    case OutcomeFailed =>
      var failure := OrElse(code, DispatchGateUnavailable);
      if failure == LocalMessageSourceStale then StaleWith(failure)
      else if RetryableCode(failure) then RetryableFailure(failure, now + RETRY_DELAY)
      else FailedWith(failure)
  }

  function Closed(id: TaskId, token: Token, outcome: FixedOutcome, code: Code, resultId: string, now: int): Worker {
    Closing(id, token, CompletionFor(outcome, code, resultId, now), true)
  }

  /** The audit row after `enqueue` and `start` inside one transaction, and whether this
      caller started it.  A row that already exists is reused, never started twice. */
  function PreparedRow(t: Task, existing: Option<Execution>, snapshot: nat, now: int): (Execution, bool) {
    var x := if existing.Some? then existing.value else NewExecution(t, snapshot);
    if x.status == ExecQueued then (Started(x, now), true) else (x, false)
  }

  predicate SameAction(t: Task, x: Execution, snapshot: nat) {
    x.account == t.spec.account && x.settingVersion == t.spec.executionVersion && x.snapshot == snapshot
  }

  function AfterPreparing(id: TaskId, token: Token, x: Execution, started: bool, now: int): Worker {
    match x.status
    case ExecSucceeded => Closed(id, token, OutcomeSucceeded, NoCode, x.resultId, now)
    case ExecManualReview => Closed(id, token, OutcomeUnknown, x.code, "", now)
    case ExecFailed => Closed(id, token, OutcomeFailed, OrElse(x.code, ActionIdempotencyConflict), "", now)
    case ExecCancelled => Closed(id, token, OutcomeFailed, OrElse(x.code, ActionIdempotencyConflict), "", now)
    case _ =>
      if x.status == ExecRunning && started then Prepared(id, token, x.snapshot)
      else Finalizing(id, token, OutcomeUnknown, DispatchReentryUnknown, false)
  }

  predicate HoldsPermit(t: Task, permit: Token) {
    t.status == Dispatching && t.token == Some(permit) && t.actionKey == Some(t.spec.Key())
  }

  /** Creating, linking and starting the audit row commit together. */
  function OnPrepare(s: World, w: WorkerId, snapshot: nat, fate: CommitFate, code: Code, now: int): World {
    match WorkerAt(s, w)
    case Permitted(id, token) =>
      if id !in s.db.tasks then s
      else
        var t := s.db.tasks[id];
        var key := t.spec.Execution();
        if !HoldsPermit(t, token) then Moved(s, w, Closed(id, token, OutcomeFailed, DispatchPermitInvalid, "", now))
        else
          var existing := Lookup(s.db.executions, key);
          var (x, started) := PreparedRow(t, existing, snapshot, now);
          var conflict := !SameAction(t, x, snapshot) || (t.execution.Some? && t.execution != Some(key));
          var gaveUp := Moved(s, w, Closed(id, token, OutcomeFailed, code, "", now));
          var stored := WithExecution(WithTask(s, id, t.(execution := Some(key))), key, x);
          if conflict || fate == Lost then gaveUp
          else if fate == Durable then Moved(stored, w, AfterPreparing(id, token, x, started, now))
          else Moved(stored, w, Closed(id, token, OutcomeFailed, code, "", now))
    case _ => s
  }

  /** How the worker classifies what the provider call did. */
  function OutcomeOf(reply: ProviderReply): FixedOutcome {
    match reply
    case Returned(_) => OutcomeSucceeded
    case Threw(code, outcomeUnknown) =>
      if outcomeUnknown || code == NoCode then OutcomeUnknown else OutcomeFailed
  }

  function CodeOf(reply: ProviderReply): Code {
    match reply
    case Returned(_) => NoCode
    case Threw(code, _) => OrElse(code, DispatchOutcomeUnknown)
  }

  function ResultOf(reply: ProviderReply): string {
    match reply
    case Returned(resultId) => resultId
    case Threw(_, _) => ""
  }

  function Recorded(x: Execution, outcome: FixedOutcome, code: Code, resultId: string, now: int): Execution {
    match outcome
    case OutcomeSucceeded => SucceededExecution(x, resultId, now)
    case OutcomeUnknown => UnknownExecution(x, OrElse(code, DispatchOutcomeUnknown), now)
    case OutcomeFailed => FailedExecution(x, OrElse(code, DispatchPermitInvalid), now)
  }

  /** The final gate, the side effect and its record: one transaction whose row locks are
      held throughout.  When it is lost after the gate passed, the action has happened but
      nothing is stored. */
  function OnAct(s: World, w: WorkerId, env: Environment, reply: ProviderReply, fate: CommitFate, code: Code,
                 now: int): World {
    match WorkerAt(s, w)
    case Prepared(id, token, snapshot) =>
      if id !in s.db.tasks then s
      else
        var t := s.db.tasks[id];
        var key := t.spec.Execution();
        var x := Lookup(s.db.executions, key);
        if PermitHolds(t, token, x, key, snapshot, Lookup(s.db.settings, t.spec.owner), env, now) then
          var acted := s.(past := s.past.(
            log := s.past.log + [Invocation(id, token, env, s.db, now)],
            escaped := if fate == Lost then s.past.escaped + {id} else s.past.escaped));
          var row := Recorded(x.value, OutcomeOf(reply), CodeOf(reply), ResultOf(reply), now);
          if fate == Lost
          then Moved(acted, w, Finalizing(id, token, OutcomeUnknown, OrElse(code, DispatchOutcomeUnknown), true))
          else if fate == Durable
          then Moved(WithExecution(acted, key, row), w,
                     Closed(id, token, OutcomeOf(reply), CodeOf(reply), ResultOf(reply), now))
          else Moved(WithExecution(acted, key, row), w,
                     Finalizing(id, token, OutcomeUnknown, OrElse(code, DispatchOutcomeUnknown), true))
        else
          var refused :=
            if x.Some? && x.value.status == ExecRunning
            then WithExecution(s, key, FailedExecution(x.value, DispatchPermitInvalid, now)) else s;
          if fate == Lost
          then Moved(s, w, Finalizing(id, token, OutcomeFailed, OrElse(code, DispatchGateUnavailable), false))
          else if fate == Durable
               then Moved(refused, w, Closed(id, token, OutcomeFailed, DispatchPermitInvalid, "", now))
          else Moved(refused, w, Finalizing(id, token, OutcomeFailed, OrElse(code, DispatchGateUnavailable), false))
    case _ => s
  }

  /** The gate's transaction fails before the action is invoked. */
  function OnGateRaises(s: World, w: WorkerId, code: Code): World {
    match WorkerAt(s, w)
    case Prepared(id, token, _) =>
      Moved(s, w, Finalizing(id, token, OutcomeFailed, OrElse(code, DispatchGateUnavailable), false))
    case _ => s
  }

  /** A second, best-effort transaction closes the audit row; its failure is swallowed. */
  function OnFinalize(s: World, w: WorkerId, swallowed: bool, now: int): World {
    match WorkerAt(s, w)
    case Finalizing(id, token, outcome, code, invoked) =>
      if id !in s.db.tasks then s
      else
        var key := s.db.tasks[id].spec.Execution();
        var x := Lookup(s.db.executions, key);
        var closed := Moved(s, w, Closed(id, token, outcome, code, "", now));
        if swallowed || x.None? || x.value.status != ExecRunning then closed
        else WithExecution(closed, key, Recorded(x.value, outcome, code, "", now))
    case _ => s
  }

  /** An exception escapes the dispatcher: the orchestrator assumes the worst. */
  function OnDispatcherRaises(s: World, w: WorkerId): World {
    match WorkerAt(s, w)
    case Permitted(id, token) => Moved(s, w, Closing(id, token, UnknownWith(DispatchOutcomeUnknown), true))
    case Finalizing(id, token, _, _, _) => Moved(s, w, Closing(id, token, UnknownWith(DispatchOutcomeUnknown), true))
    case _ => s
  }

  /** The rows a task's end locks. */
  function RowsFor(db: Tables, t: Task): Rows {
    Rows(
      t,
      if t.execution.None? then None else Lookup(db.executions, t.execution.value),
      Lookup(db.settings, t.spec.owner),
      if t.budgetDay.None? then None else Lookup(db.usages, UsageId(t.spec.owner, t.budgetDay.value)))
  }

  /** Writes back the rows of one task's end. */
  function Store(db: Tables, id: TaskId, t: Task, r: Rows): Tables {
    Tables(
      db.tasks[id := r.task],
      if t.execution.Some? && r.execution.Some? then db.executions[t.execution.value := r.execution.value]
      else db.executions,
      if r.setting.Some? then db.settings[t.spec.owner := r.setting.value] else db.settings,
      if t.budgetDay.Some? && r.usage.Some? then db.usages[UsageId(t.spec.owner, t.budgetDay.value) := r.usage.value]
      else db.usages)
  }

  /** `finish_task` on the rows that a live token selects. */
  function EndedBy(s: World, id: TaskId, c: Completion, now: int): World
    requires id in s.db.tasks
  {
    var t := s.db.tasks[id];
    var rows := RowsFor(s.db, t);
    match Finish(rows, c, now)
    case Failure(_) => s
    case Success(r) =>
      var refund := c.refunds && t.budgetDay.Some? && GrantsRetry(c, Resolve(t, rows.execution, c, now));
      s.(db := Store(s.db, id, t, r),
         past := if refund then s.past.(refunded := s.past.refunded + {id}) else s.past)
  }

  function OnComplete(s: World, w: WorkerId, now: int): World {
    match WorkerAt(s, w)
    case Closing(id, token, c, _) =>
      var idle := Moved(s, w, Idle);
      if id in s.db.tasks && MayFinish(s.db.tasks[id], token) then EndedBy(idle, id, c, now) else idle
    case _ => s
  }

  // -------------------------------------------------- recovery and other actors

  function OnSweep(s: World, id: TaskId, before: int, code: Code, now: int): World {
    if id in s.db.tasks && Expired(s.db.tasks[id], before) && code != NoCode then
      var t := s.db.tasks[id];
      match Sweep(RowsFor(s.db, t), code, now)
      case Failure(_) => s
      case Success(r) => s.(db := Store(s.db, id, t, r))
    else s
  }

  function OnExpireExecution(s: World, key: ExecutionId, now: int): World {
    if key in s.db.executions && s.db.executions[key].status == ExecRunning
    then WithExecution(s, key, UnknownExecution(s.db.executions[key], ExecutionTimeoutUnknown, now))
    else s
  }

  function OnCancelExecution(s: World, key: ExecutionId, code: Code, now: int): World {
    if key in s.db.executions && s.db.executions[key].status == ExecQueued
    then WithExecution(s, key, CancelledExecution(s.db.executions[key], code, now))
    else s
  }

  /** Any write the user-driven action path makes: it only owns rows with its own keys. */
  function OnUserExecution(s: World, row: Execution): World {
    if row.id.key.UserScoped? then WithExecution(s, row.id, row) else s
  }

  function OnConfigure(s: World, owner: OwnerId, request: PolicyContent, now: int): World {
    if owner !in s.db.settings then s
    else
      match Configure(s.db.settings[owner], request, now)
      case Failure(_) => s
      case Success(row) => WithSetting(s, owner, row)
  }

  function OnSetting(s: World, owner: OwnerId, change: Setting -> Setting): World {
    if owner in s.db.settings then WithSetting(s, owner, change(s.db.settings[owner])) else s
  }

  function Step(s: World, e: Event): World {
    match e
    case Enqueue(spec, notBefore) => OnEnqueue(s, spec, notBefore)
    case Claim(w, id, token, now, leaseUntil) => OnClaim(s, w, id, token, now, leaseUntil)
    case Inspect(w, env, head, now) => OnInspect(s, w, env, head, now)
    case BeginGeneration(w, now, leaseUntil) => OnBeginGeneration(s, w, now, leaseUntil)
    case GenerationFails(w, code) => OnGenerationFails(s, w, code)
    case RenewLease(w, head, now, leaseUntil) => OnRenewLease(s, w, head, now, leaseUntil)
    case ReserveDispatch(w, env, permit, now) => OnReserve(s, w, env, permit, now)
    case Defer(w) => OnDefer(s, w)
    case PrepareExecution(w, snapshot, fate, code, now) => OnPrepare(s, w, snapshot, fate, code, now)
    case Act(w, env, reply, fate, code, now) => OnAct(s, w, env, reply, fate, code, now)
    case GateRaises(w, code) => OnGateRaises(s, w, code)
    case Finalize(w, swallowed, now) => OnFinalize(s, w, swallowed, now)
    case DispatcherRaises(w) => OnDispatcherRaises(s, w)
    case Complete(w, now) => OnComplete(s, w, now)
    case Crash(w) => Moved(s, w, Idle)
    case SweepExpired(id, before, code, now) => OnSweep(s, id, before, code, now)
    case CancelTask(id, stale, code, now) => OnCancelTask(s, id, stale, code, now)
    case ExpireExecution(key, now) => OnExpireExecution(s, key, now)
    case CancelExecution(key, code, now) => OnCancelExecution(s, key, code, now)
    case UserExecution(row) => OnUserExecution(s, row)
    case CreateSetting(owner) => if owner in s.db.settings then s else WithSetting(s, owner, NEW_SETTING)
    case ConfigurePolicy(owner, request, now) => OnConfigure(s, owner, request, now)
    case DisablePolicy(owner, reason, now) => OnSetting(s, owner, row => Disable(row, reason, now))
    case SchedulerHalt(owner, reason, now) =>
      OnSetting(s, owner,
                (row: Setting) => row.(haltedAt := Some(now), haltedReason := reason, nextRunAt := None,
                                       lastRunAt := Some(now)))
    case SchedulerTick(owner, nextRunAt, now) =>
      OnSetting(s, owner, (row: Setting) => row.(nextRunAt := nextRunAt, lastRunAt := Some(now)))
  }

  /** Any run: a finite sequence of events, in order. */
  function Run(s: World, events: seq<Event>): World
    decreases |events|
  {
    if events == [] then s else Run(Step(s, events[0]), events[1..])
  }

  lemma {:induction false} RunSplits(s: World, first: seq<Event>, rest: seq<Event>)
    ensures Run(s, first + rest) == Run(Run(s, first), rest)
    decreases |first|
  {
    if first == [] {
      assert first + rest == rest;
    } else {
      assert (first + rest)[1..] == first[1..] + rest;
      RunSplits(Step(s, first[0]), first[1..], rest);
    }
  }
}
