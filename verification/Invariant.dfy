/** What every reachable state of the protocol satisfies. */
module Invariant {
  import opened Vocabulary
  import opened Policies
  import opened Transitions
  import opened Protocol

  // ---------------------------------------------------------------- task rows

  ghost predicate TaskOk(id: TaskId, t: Task) {
    && t.spec.Id() == id
    && (t.status in {Queued, Deferred} ==> t.token.None? && t.attempts <= MAX_ATTEMPTS)
    && (t.status in {Leased, Generating, Dispatching} ==> t.token.Some? && t.attempts >= 1)
    && (t.status == Generating ==> t.attempts <= MAX_ATTEMPTS)
    && (t.status == Dispatching ==> t.budgetDay.Some? && t.attempts <= MAX_ATTEMPTS)
    && (t.status.NotStarted() ==> t.budgetDay.None? && t.execution.None? && !t.unknown)
    && (t.status.Terminal() ==> t.token.None?)
    && (t.budgetDay.None? <==> t.dispatchStartedAt.None?)
    && (t.budgetDay.Some? ==> t.actionKey == Some(t.spec.Key()))
    && (t.execution.Some? ==> t.budgetDay.Some? && t.execution == Some(t.spec.Execution()))
    && (t.unknown <==> t.status == ManualReview)
    && (t.status in {Succeeded, ManualReview} ==> t.execution.Some?)
    && (t.status == Cancelled ==> t.budgetDay.None?)
    && (t.status == Stale && t.budgetDay.Some? ==> t.execution.Some?)
  }

  /** How an ended task and its audit row fit together. */
  ghost predicate Agreed(t: Task, x: Execution) {
    match t.status
    case Succeeded => x.status == ExecSucceeded && t.resultId == x.resultId
    case Failed => x.status == ExecFailed && t.code == x.code && x.code != LocalMessageSourceStale
    case Stale => x.status == ExecFailed && t.code == x.code && x.code == LocalMessageSourceStale
    case ManualReview => x.status in {ExecSucceeded, ExecFailed, ExecManualReview}
    case _ => false
  }

  ghost predicate LinkOk(db: Tables, t: Task) {
    match t.execution
    case None => t.spec.Execution() !in db.executions
    case Some(key) =>
      && key in db.executions && Bound(t, db.executions[key])
      && db.executions[key].status !in {ExecQueued, ExecCancelled}
      && (db.executions[key].status == ExecFailed ==> db.executions[key].code != NoCode)
      && |db.executions[key].resultId| <= 256
      && (t.status.Terminal() ==> Agreed(t, db.executions[key]))
  }

  ghost predicate TasksInv(db: Tables) {
    forall id :: id in db.tasks ==>
      && TaskOk(id, db.tasks[id]) && LinkOk(db, db.tasks[id])
      && db.tasks[id].spec.owner in db.settings
  }

  /** Autonomous audit rows are only ever created by their own task. */
  ghost predicate ExecutionsInv(db: Tables) {
    forall key :: key in db.executions ==>
      && db.executions[key].id == key
      && (key.key.Autonomous? ==>
            && TaskId(key.owner, key.key.taskKey) in db.tasks
            && db.tasks[TaskId(key.owner, key.key.taskKey)].spec.Execution() == key)
  }

  // ------------------------------------------------------------ policy versions

  ghost predicate SettingsInv(s: World) {
    && (forall o :: o in s.db.settings ==> SoundSetting(s.db.settings[o]))
    && (forall id :: id in s.db.tasks ==> id in s.past.pinned && PinOk(s, id))
  }

  /** A task's version denotes one content for ever: while the row still carries that
      version it carries the content the task was created under. */
  ghost predicate PinOk(s: World, id: TaskId)
    requires id in s.db.tasks && id in s.past.pinned
  {
    var spec := s.db.tasks[id].spec;
    && SoundContent(s.past.pinned[id])
    && spec.owner in s.db.settings
    && spec.policyVersion <= s.db.settings[spec.owner].version
    && (spec.policyVersion == s.db.settings[spec.owner].version ==>
          s.db.settings[spec.owner].content == s.past.pinned[id])
  }

  // ------------------------------------------------------------ permits, tokens

  ghost predicate PermitsInv(s: World) {
    && (forall id :: id in s.past.permits <==> id in s.db.tasks && s.db.tasks[id].budgetDay.Some?)
    && (forall id :: id in s.past.permits ==>
          && s.past.permits[id] in s.issued
          && (s.db.tasks[id].status == Dispatching ==> s.db.tasks[id].token == Some(s.past.permits[id])))
    && (forall id :: id in s.db.tasks && s.db.tasks[id].token.Some? ==> s.db.tasks[id].token.value in s.issued)
  }

  ghost function Invoked(log: seq<Invocation>): set<TaskId> {
    set i | 0 <= i < |log| :: log[i].id
  }

  /** The policy a worker carries was read while the task's version was current. */
  ghost predicate Faithful(p: Policy, spec: TaskSpec, pinned: PolicyContent) {
    && p.version == spec.policyVersion
    && p.dailyTotal == pinned.dailyTotal
    && p.ActionLimit(spec.Action()) == CategoryLimit(pinned, spec.Category())
    && p.minimumInterval == pinned.minimumInterval
    && p.zoneOffset == pinned.zoneOffset
  }

  ghost predicate OwnsLease(s: World, id: TaskId, token: Token, attempt: nat, w: WorkerId) {
    && id in s.db.tasks
    && (id in s.past.permits ==> s.past.permits[id] != token)
    && (s.db.tasks[id].token == Some(token) ==> s.db.tasks[id].attempts == attempt)
  }

  ghost predicate Carries(s: World, id: TaskId, attempt: nat, p: Policy) {
    && attempt <= MAX_ATTEMPTS && id in s.db.tasks && id in s.past.pinned
    && Faithful(p, s.db.tasks[id].spec, s.past.pinned[id])
  }

  ghost predicate OwnsPermit(s: World, id: TaskId, token: Token) {
    id in s.past.permits && s.past.permits[id] == token && id in s.db.tasks
  }

  /** What a worker may ask for before it has dispatched anything; only a failure counts. */
  ghost predicate EndsEarly(c: Completion) {
    && c.status in {Failed, Cancelled, Stale} && !c.retryable
    && (c.counts <==> c.status == Failed) && !c.resets && !c.halts
  }

  ghost predicate WorkerOk(s: World, w: WorkerId, me: Worker) {
    match me
    case Idle => true
    case Holding(id, token, attempt) => OwnsLease(s, id, token, attempt, w)
    case Ready(id, token, attempt, policy) =>
      OwnsLease(s, id, token, attempt, w) && Carries(s, id, attempt, policy)
    case Drafting(id, token, attempt, policy) =>
      OwnsLease(s, id, token, attempt, w) && Carries(s, id, attempt, policy)
    case Drafted(id, token, attempt, policy) =>
      OwnsLease(s, id, token, attempt, w) && Carries(s, id, attempt, policy)
    case Deferring(id, token, attempt, _, _) =>
      OwnsLease(s, id, token, attempt, w) && attempt <= MAX_ATTEMPTS
    case Permitted(id, token) =>
      && OwnsPermit(s, id, token) && id !in Invoked(s.past.log)
      && (s.db.tasks[id].status == Dispatching ==> s.db.tasks[id].execution.None?)
    case Prepared(id, token, _) =>
      OwnsPermit(s, id, token) && id !in Invoked(s.past.log) && s.db.tasks[id].execution.Some?
    case Finalizing(id, token, outcome, code, invoked) =>
      && OwnsPermit(s, id, token) && s.db.tasks[id].execution.Some?
      && outcome != OutcomeSucceeded && code != NoCode
      && (if invoked then outcome == OutcomeUnknown else id !in Invoked(s.past.log))
    case Closing(id, token, c, dispatched) =>
      && ValidCompletion(c)
      && (if dispatched then
            OwnsPermit(s, id, token) && (id in s.past.escaped ==> c.status == ManualReview)
            && (c.retryable ==> RetryableCode(c.code))
          else
            && id in s.db.tasks && (id in s.past.permits ==> s.past.permits[id] != token)
            && EndsEarly(c))
  }

  ghost predicate WorkersInv(s: World) {
    && (forall w :: w in s.workers ==> WorkerOk(s, w, s.workers[w]))
    && (forall w :: w in s.workers && !s.workers[w].Idle? ==> s.workers[w].token in s.issued)
    && (forall v, w :: v in s.workers && w in s.workers && v != w && !s.workers[v].Idle? && !s.workers[w].Idle?
          ==> s.workers[v].token != s.workers[w].token)
  }

  // ----------------------------------------------------------------- the log

  /** What an external action needs of the rows and readings that the protocol does not write. */
  ghost predicate Authorized(i: Invocation, spec: TaskSpec, c: PolicyContent) {
    && i.env.account == Some(spec.account)
    && i.env.execution.Some? && i.env.execution.value.version == spec.executionVersion
    && spec.Action() in i.env.execution.value.allowedActions
    && i.env.agent.Some? && i.env.agent.value.version == spec.runnerVersion
    && i.env.agent.value.activeConnection == Some(spec.connection)
    && i.env.connection.Some? && i.env.connection.value.id == spec.connection
    && i.env.fingerprint == spec.fingerprint
    && (spec.Action() == SendPrivateMessage ==> i.env.execution.value.autoSend)
    && (spec.taskType == ReplyToMessage ==> i.env.headDispatchable && !i.env.contactChanged && !i.env.contactForbidden)
    && (spec.taskType == ProactiveMessage ==> !i.env.hasConversation)
    && (spec.taskType in {FollowTarget, UnfollowTarget} ==> spec.target in c.targets)
    && (UsesDiscoveredCandidate(spec.taskType) ==> i.env.candidateAllowed)
    && (spec.Action() == PublishTextPost ==> i.env.contentDigestPresent && !i.env.duplicatePost)
    && ActiveAt(c, i.clock)
  }

  /** Everything that must be true at the moment of an external action. */
  ghost predicate SoundInvocation(i: Invocation, pinned: PolicyContent) {
    && i.id in i.at.tasks
    && var t := i.at.tasks[i.id];
    && t.status == Dispatching && t.token == Some(i.permit)
    && t.execution == Some(t.spec.Execution()) && t.spec.Execution() in i.at.executions
    && Bound(t, i.at.executions[t.spec.Execution()])
    && i.at.executions[t.spec.Execution()].status == ExecRunning
    && t.spec.owner in i.at.settings
    && var row := i.at.settings[t.spec.owner];
    && row.haltedAt.None? && row.failures < row.content.failureLimit
    && row.version == t.spec.policyVersion && row.content == pinned
    && AccessGranted(i.env, row) && Authorized(i, t.spec, row.content)
    && FeatureEnabled(row.content, t.spec.taskType) && t.spec.Action() in row.content.allowedActions
  }

  ghost predicate LogInv(s: World) {
    && (forall i :: 0 <= i < |s.past.log| ==>
          && s.past.log[i].id in s.past.permits
          && s.past.log[i].permit == s.past.permits[s.past.log[i].id]
          && s.past.log[i].id in s.past.pinned
          && SoundInvocation(s.past.log[i], s.past.pinned[s.past.log[i].id])
          && s.past.log[i].id in s.db.tasks && s.db.tasks[s.past.log[i].id].execution.Some?)
    && (forall i, j :: 0 <= i < j < |s.past.log| ==> s.past.log[i].id != s.past.log[j].id)
  }

  /** An action whose record was lost can only end in manual review. */
  ghost predicate EscapedInv(s: World) {
    forall id :: id in s.past.escaped ==>
      && id in Invoked(s.past.log) && id in s.db.tasks && s.db.tasks[id].execution.Some?
      && (s.db.tasks[id].status == ManualReview
          || (&& s.db.tasks[id].status == Dispatching
              && s.db.tasks[id].execution.value in s.db.executions
              && s.db.executions[s.db.tasks[id].execution.value].status in {ExecRunning, ExecManualReview}))
  }

  // ----------------------------------------------------------------- budgets

  ghost function Reserved(s: World, k: UsageId): set<TaskId> {
    set id | id in s.db.tasks && s.db.tasks[id].spec.owner == k.owner && s.db.tasks[id].budgetDay == Some(k.day)
  }

  ghost function Charged(s: World, k: UsageId): set<TaskId> {
    set id | id in Reserved(s, k) && id !in s.past.refunded
  }

  ghost function ChargedTo(s: World, k: UsageId, c: Category): set<TaskId> {
    set id | id in Charged(s, k) && s.db.tasks[id].spec.Category() == c
  }

  ghost function EndedBadly(s: World, k: UsageId): set<TaskId> {
    set id | id in Reserved(s, k) && s.db.tasks[id].status in {Failed, ManualReview}
  }

  ghost function EndedUnknown(s: World, k: UsageId): set<TaskId> {
    set id | id in Reserved(s, k) && s.db.tasks[id].status == ManualReview
  }

  ghost predicate UsageOk(s: World, k: UsageId, u: Usage) {
    && u.total == u.Sum() && u.total == |Charged(s, k)|
    && (forall c: Category :: u.Count(c) == |ChargedTo(s, k, c)|)
    && u.failed == |EndedBadly(s, k)|
    && u.unknown == |EndedUnknown(s, k)|
    && (u.lastActionAt.Some? ==> k.owner in s.db.settings && s.db.settings[k.owner].lastActionAt.Some?)
  }

  ghost predicate BudgetInv(s: World) {
    && (forall k :: k in s.db.usages ==> UsageOk(s, k, s.db.usages[k]))
    && (forall id :: id in s.db.tasks && s.db.tasks[id].budgetDay.Some? ==>
          UsageId(s.db.tasks[id].spec.owner, s.db.tasks[id].budgetDay.value) in s.db.usages)
    && (forall id :: id in s.past.refunded ==>
          && id in s.db.tasks && s.db.tasks[id].budgetDay.Some?
          && s.db.tasks[id].status == Failed && RetryableCode(s.db.tasks[id].code))
  }

  // ----------------------------------------------------------------- spacing

  ghost predicate Spaced(slots: seq<Slot>) {
    && (forall i :: 0 <= i < |slots| ==> slots[i].interval >= 10)
    && (forall i, j :: 0 <= i < j < |slots| ==> slots[j].at >= slots[i].at + slots[j].interval)
  }

  ghost predicate SlotsOk(s: World, o: OwnerId, slots: seq<Slot>) {
    && Spaced(slots)
    && (forall i :: 0 <= i < |slots| ==>
          && slots[i].id in s.db.tasks && s.db.tasks[slots[i].id].spec.owner == o
          && s.db.tasks[slots[i].id].dispatchStartedAt == Some(slots[i].at))
    && (forall id :: id in s.db.tasks && s.db.tasks[id].spec.owner == o && s.db.tasks[id].dispatchStartedAt.Some?
          ==> id in SlotIds(slots))
  }

  ghost function SlotIds(slots: seq<Slot>): set<TaskId> {
    set i | 0 <= i < |slots| :: slots[i].id
  }

  ghost function SlotsOf(s: World, o: OwnerId): seq<Slot> {
    if o in s.past.slots then s.past.slots[o] else []
  }

  ghost function LastAt(slots: seq<Slot>): Option<int> {
    if slots == [] then None else Some(slots[|slots| - 1].at)
  }

  ghost predicate SpacingInv(s: World) {
    && s.past.slots.Keys <= s.db.settings.Keys
    && forall o :: o in s.db.settings ==>
      && SlotsOk(s, o, SlotsOf(s, o))
      && s.db.settings[o].lastActionAt == LastAt(SlotsOf(s, o))
  }

  // ---------------------------------------------------------------- together

  /** The stored rows and the history, without the workers' memories. */
  ghost predicate StoreInv(s: World) {
    && TasksInv(s.db)
    && ExecutionsInv(s.db)
    && SettingsInv(s)
    && PermitsInv(s)
    && LogInv(s)
    && EscapedInv(s)
    && BudgetInv(s)
    && SpacingInv(s)
  }

  ghost predicate Inv(s: World) {
    StoreInv(s) && WorkersInv(s)
  }

  lemma StartIsSound()
    ensures Inv(START)
  {
  }
}
