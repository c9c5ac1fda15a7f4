/** The repository transactions as the code performs them: statement by statement on the
    stored rows they lock.  Each is proved to leave exactly the row values that the
    transition functions describe, so every property of those functions holds of it. */
module Repositories {
  import opened Vocabulary
  import opened Policies
  import opened Transitions
  import P = Protocol

  // ---------------------------------------------------------------- audit rows

  class ExecutionRow {
    const id: ExecutionId
    const account: nat
    const settingVersion: int
    const snapshot: nat
    var status: ExecutionStatus
    var code: Code
    var resultId: string
    var startedAt: Option<int>
    var completedAt: Option<int>
    var cancelledAt: Option<int>

    constructor (task: Task, snapshot: nat)
      ensures Value() == NewExecution(task, snapshot)
    {
      this.id := task.spec.Execution();
      this.account := task.spec.account;
      this.settingVersion := task.spec.executionVersion;
      this.snapshot := snapshot;
      status, code, resultId := ExecQueued, NoCode, "";
      startedAt, completedAt, cancelledAt := None, None, None;
    }

    function Value(): Execution
      reads this
    {
      Execution(id, account, settingVersion, snapshot, status, code, resultId, startedAt, completedAt, cancelledAt)
    }

    /** Only a queued row starts. */
    method Start(now: int) returns (done: bool)
      modifies this
      ensures done == (old(status) == ExecQueued)
      ensures Value() == if done then Started(old(Value()), now) else old(Value())
    {
      if status != ExecQueued { return false; }
      status := ExecRunning;
      startedAt := Some(now);
      completedAt, cancelledAt := None, None;
      code := NoCode;
      return true;
    }

    /** Only a running row succeeds. */
    method Succeed(result: string, now: int) returns (done: bool)
      modifies this
      ensures done == (old(status) == ExecRunning)
      ensures Value() == if done then SucceededExecution(old(Value()), result, now) else old(Value())
    {
      if status != ExecRunning { return false; }
      status := ExecSucceeded;
      resultId := Clip(result);
      code := NoCode;
      completedAt, cancelledAt := Some(now), None;
      return true;
    }

    /** Only a running row fails. */
    method Fail(reason: Code, now: int) returns (done: bool)
      modifies this
      ensures done == (old(status) == ExecRunning)
      ensures Value() == if done then FailedExecution(old(Value()), reason, now) else old(Value())
    {
      if status != ExecRunning { return false; }
      status := ExecFailed;
      code := OrElse(reason, AccountActionFailed);
      resultId := "";
      completedAt, cancelledAt := Some(now), None;
      return true;
    }

    /** Only a running row becomes unknown. */
    method MarkOutcomeUnknown(reason: Code, now: int) returns (done: bool)
      modifies this
      ensures done == (old(status) == ExecRunning)
      ensures Value() == if done then UnknownExecution(old(Value()), reason, now) else old(Value())
    {
      if status != ExecRunning { return false; }
      status := ExecManualReview;
      code := OrElse(reason, AccountActionOutcomeUnknown);
      resultId := "";
      completedAt, cancelledAt := Some(now), None;
      return true;
    }

    /** Only a queued row is cancelled: a running side effect is a fact. */
    method CancelQueued(reason: Code, now: int) returns (done: bool)
      modifies this
      ensures done == (old(status) == ExecQueued)
      ensures Value() == if done then CancelledExecution(old(Value()), reason, now) else old(Value())
    {
      if status != ExecQueued { return false; }
      status := ExecCancelled;
      code := OrElse(reason, UserCancelled);
      resultId := "";
      completedAt, cancelledAt := Some(now), Some(now);
      return true;
    }
  }

  // -------------------------------------------------------------- ledger rows

  class UsageRow {
    var total: int
    var reply: int
    var outreach: int
    var post: int
    var relationship: int
    var browse: int
    var matching: int
    var failed: int
    var unknown: int
    var lastActionAt: Option<int>

    constructor ()
      ensures Value() == EMPTY_USAGE
    {
      total, reply, outreach, post, relationship, browse, matching := 0, 0, 0, 0, 0, 0, 0;
      failed, unknown, lastActionAt := 0, 0, None;
    }

    function Value(): Usage
      reads this
    {
      Usage(total, reply, outreach, post, relationship, browse, matching, failed, unknown, lastActionAt)
    }

    method Shift(category: Category, n: int)
      modifies this
      ensures Value() == old(Value()).Add(category, n)
    {
      match category
      case Reply => reply := reply + n;
      case Outreach => outreach := outreach + n;
      case Post => post := post + n;
      case Relationship => relationship := relationship + n;
      case Browse => browse := browse + n;
      case Match => matching := matching + n;
    }

    /** Takes one reservation of this category. */
    method Book(category: Category, at: int)
      modifies this
      ensures Value() == old(Value()).Add(category, 1).(total := old(total) + 1, lastActionAt := Some(at))
    {
      total := total + 1;
      Shift(category, 1);
      lastActionAt := Some(at);
    }

    /** Gives one reservation back, or refuses when there is none to give back. */
    method Refund(category: Category) returns (done: bool)
      modifies this
      ensures done == (old(total) > 0 && old(Value()).Count(category) > 0)
      ensures Value() == if done then old(Value()).Add(category, -1).(total := old(total) - 1) else old(Value())
    {
      if total <= 0 || Value().Count(category) <= 0 { return false; }
      total := total - 1;
      Shift(category, -1);
      return true;
    }
  }

  // -------------------------------------------------------------- policy rows

  class SettingRow {
    var content: PolicyContent
    var version: int
    var failures: int
    var haltedAt: Option<int>
    var haltedReason: Code
    var nextRunAt: Option<int>
    var lastRunAt: Option<int>
    var lastActionAt: Option<int>
    var lastPostAt: Option<int>
    var lastDiscoveryAt: Option<int>
    var lastMatchAt: Option<int>
    var lastOutreachAt: Option<int>

    constructor ()
      ensures Value() == NEW_SETTING
    {
      content, version, failures := DEFAULT_CONTENT, 1, 0;
      haltedAt, haltedReason, nextRunAt, lastRunAt, lastActionAt := None, NoCode, None, None, None;
      lastPostAt, lastDiscoveryAt, lastMatchAt, lastOutreachAt := None, None, None, None;
    }

    function Value(): Setting
      reads this
    {
      Setting(content, version, failures, haltedAt, haltedReason, nextRunAt, lastRunAt, lastActionAt, lastPostAt,
              lastDiscoveryAt, lastMatchAt, lastOutreachAt)
    }

    /** Accepts a submitted policy or reports the first rule it breaks. */
    method Configure(request: PolicyContent, now: int) returns (problem: Option<string>)
      modifies this
      ensures match Policies.Configure(old(Value()), request, now)
              case Success(row) => problem == None && Value() == row
              case Failure(p) => problem == Some(p) && Value() == old(Value())
    {
      problem := Problem(request);
      if problem.Some? { return; }
      var values := StoredContent(content, request, now);
      var changed := content != values;
      var halted := haltedAt.Some?;
      if changed {
        content := values;
        version := Max(1, version) + 1;
      }
      if changed || halted {
        failures := 0;
        haltedAt, haltedReason := None, NoCode;
        nextRunAt := if values.userEnabled then Some(now) else None;
      }
    }

    /** Switches everything off and halts, if anything was on. */
    method DisableForOwner(reason: Code, now: int) returns (changed: bool)
      modifies this
      ensures changed == old(content).AnyCapability()
      ensures Value() == Disable(old(Value()), reason, now)
    {
      changed := content.AnyCapability();
      if !changed { return; }
      content := content.SwitchedOff();
      nextRunAt := None;
      haltedAt, haltedReason := Some(now), reason;
      version := Max(1, version) + 1;
    }

    method RecordSuccess(spec: TaskSpec, now: int)
      modifies this
      ensures Value() == SuccessRecorded(old(Value()), spec, now)
    {
      if spec.Action() == PublishTextPost { lastPostAt := Some(now); }
      if spec.taskType == BrowseOnline { lastDiscoveryAt := Some(now); }
      else if spec.taskType == RequestMatch { lastMatchAt := Some(now); }
      else if spec.taskType == ProactiveMessage { lastOutreachAt := Some(now); }
    }
  }

  // ---------------------------------------------------------------- task rows

  class TaskRow {
    const spec: TaskSpec
    var status: TaskStatus
    var notBefore: Option<int>
    var attempts: nat
    var leaseOwner: Option<WorkerId>
    var token: Option<Token>
    var leaseUntil: Option<int>
    var startedAt: Option<int>
    var code: Code
    var resultId: string
    var unknown: bool
    var completedAt: Option<int>
    var actionKey: Option<ActionKey>
    var budgetDay: Option<int>
    var dispatchStartedAt: Option<int>
    var execution: Option<ExecutionId>

    constructor (spec: TaskSpec, notBefore: Option<int>)
      ensures Value() == NewTask(spec, notBefore)
    {
      this.spec, status, this.notBefore, attempts := spec, Queued, notBefore, 0;
      leaseOwner, token, leaseUntil, startedAt := None, None, None, None;
      code, resultId, unknown, completedAt := NoCode, "", false, None;
      actionKey, budgetDay, dispatchStartedAt, execution := None, None, None, None;
    }

    function Value(): Task
      reads this
    {
      Task(spec, status, notBefore, attempts, leaseOwner, token, leaseUntil, startedAt, code, resultId, unknown,
           completedAt, actionKey, budgetDay, dispatchStartedAt, execution)
    }

    method Claim(worker: WorkerId, issued: Token, now: int, until: int) returns (claimed: bool)
      modifies this
      ensures claimed == Claimable(old(Value()), now)
      ensures Value() == if claimed then Claimed(old(Value()), worker, issued, now, until) else old(Value())
    {
      if !Claimable(Value(), now) { return false; }
      status := Leased;
      leaseOwner, token, leaseUntil := Some(worker), Some(issued), Some(until);
      attempts := attempts + 1;
      if startedAt.None? { startedAt := Some(now); }
      code := NoCode;
      return true;
    }

    method BeginGeneration(lease: Token, now: int, until: int) returns (done: bool)
      modifies this
      ensures done == MayBeginGeneration(old(Value()), lease, now)
      ensures Value() == if done then GenerationBegun(old(Value()), until) else old(Value())
    {
      if !(status == Leased && token == Some(lease) && leaseUntil.Some? && leaseUntil.value >= now) { return false; }
      status := Generating;
      leaseUntil := Some(until);
      return true;
    }

    method RenewLease(lease: Token, now: int, until: int) returns (done: bool)
      modifies this
      ensures done == HoldsLiveLease(old(Value()), lease, now)
      ensures Value() == if done then old(Value()).(leaseUntil := Some(until)) else old(Value())
    {
      if !(status in {Leased, Generating} && token == Some(lease) && leaseUntil.Some? && leaseUntil.value >= now) {
        return false;
      }
      leaseUntil := Some(until);
      return true;
    }

    method Defer(lease: Token, until: int, reason: Code) returns (done: bool)
      modifies this
      ensures done == MayDefer(old(Value()), lease)
      ensures Value() == if done then DeferredTask(old(Value()), until, reason) else old(Value())
    {
      if !(status in {Leased, Generating} && token == Some(lease)) { return false; }
      status := Deferred;
      notBefore := Some(until);
      code := reason;
      leaseOwner, token, leaseUntil := None, None, None;
      return true;
    }

    /** Withdraws work that has not been dispatched. */
    method CancelNotStarted(stale: bool, reason: Code, now: int) returns (done: bool)
      modifies this
      ensures done == old(status).NotStarted()
      ensures Value() ==
                if done then Withdrawn(old(Value()), if stale then Stale else Cancelled, reason, now) else old(Value())
    {
      if !status.NotStarted() { return false; }
      status, code, unknown := if stale then Stale else Cancelled, reason, false;
      Close(now);
      return true;
    }

    /** The assignments of an allowed reservation. */
    method Dispatch(r: Reservation, permit: Token)
      modifies this
      ensures Value()
              == old(Value()).(status := Dispatching, actionKey := Some(r.actionKey), budgetDay := Some(r.budgetDay),
                                       dispatchStartedAt := Some(r.now), token := Some(permit), leaseUntil := None)
    {
      status := Dispatching;
      actionKey, budgetDay, dispatchStartedAt := Some(r.actionKey), Some(r.budgetDay), Some(r.now);
      token, leaseUntil := Some(permit), None;
    }

    /** The last assignments of every end. */
    method Close(now: int)
      modifies this
      ensures Value() == old(Value()).Unleased().(completedAt := Some(now))
    {
      completedAt := Some(now);
      leaseOwner, token, leaseUntil := None, None, None;
    }
  }

  // ------------------------------------------------------- the rows of one end

  function ExecutionValue(row: ExecutionRow?): Option<Execution>
    reads row
  {
    if row == null then None else Some(row.Value())
  }

  function SettingValue(row: SettingRow?): Option<Setting>
    reads row
  {
    if row == null then None else Some(row.Value())
  }

  function UsageValue(row: UsageRow?): Option<Usage>
    reads row
  {
    if row == null then None else Some(row.Value())
  }

  function RowValues(task: TaskRow, execution: ExecutionRow?, setting: SettingRow?, usage: UsageRow?): Rows
    reads task, execution, setting, usage
  {
    Rows(task.Value(), ExecutionValue(execution), SettingValue(setting), UsageValue(usage))
  }

  /** The audit row is the one the task is linked to, if it is linked. */
  ghost predicate Loaded(task: TaskRow, execution: ExecutionRow?)
    reads task
  {
    task.execution.None? ==> execution == null
  }

  // ------------------------------------------------------------------ dispatch

  lemma GateNeedsSetting(task: Task, gate: GateRequest, setting: Option<Setting>, env: Environment)
    requires GateCode(task, gate, setting, env).None?
    ensures setting.Some?
  {
  }

  /** The lease, authorization and source checks, on the locked rows. */
  method Authorize(task: TaskRow, setting: SettingRow?, r: Reservation,
                   env: Environment) returns (refused: Option<DispatchCode>)
    ensures refused ==
              if !HoldsLiveLease(task.Value(), r.token, r.now) then Some(LeaseLost)
              else if GateCode(task.Value(), r.gate, SettingValue(setting), env).Some?
              then GateCode(task.Value(), r.gate, SettingValue(setting), env)
              else if r.expectedSource != "" && !env.headDispatchable then Some(SourceStale)
              else None
    ensures refused.None? ==> setting != null
  {
    hide GateCode;
    if !(task.status in {Leased, Generating} && task.token == Some(r.token)
         && task.leaseUntil.Some? && task.leaseUntil.value >= r.now)
    {
      return Some(LeaseLost);
    }
    var gate := GateCode(task.Value(), r.gate, SettingValue(setting), env);
    if gate.Some? { return gate; }
    GateNeedsSetting(task.Value(), r.gate, SettingValue(setting), env);
    if r.expectedSource != "" && !env.headDispatchable { return Some(SourceStale); }
    return None;
  }

  /** The budget and spacing checks, on the locked rows. */
  method CheckBudget(task: TaskRow, setting: SettingRow, used: UsageRow, r: Reservation)
    returns (refused: Option<DispatchCode>, retryAt: Option<int>)
    ensures var u, s := used.Value(), setting.Value();
            var earliest := EarliestNext(s, u, r.minimumInterval);
            (refused, retryAt) ==
              if u.total >= r.dailyTotal || u.Count(task.spec.Category()) >= r.dailyAction
              then (Some(DailyBudgetExhausted), None)
              else if earliest.Some? && earliest.value > r.now then (Some(MinimumInterval), earliest)
              else (None, None)
  {
    if used.total >= r.dailyTotal { return Some(DailyBudgetExhausted), None; }
    var category := CategoryOf(task.spec.taskType, task.spec.Action());
    if used.Value().Count(category) >= r.dailyAction { return Some(DailyBudgetExhausted), None; }
    var previous := if setting.lastActionAt.Some? then setting.lastActionAt else used.lastActionAt;
    if previous.Some? {
      var at := previous.value + r.minimumInterval;
      if at > r.now { return Some(MinimumInterval), Some(at); }
    }
    return None, None;
  }

  /** Reserves a dispatch.  The ledger row is created on first use, even when the
      reservation is then refused for budget or spacing. */
  method BeginDispatch(task: TaskRow, setting: SettingRow?, usage: UsageRow?, r: Reservation, env: Environment,
                       permit: Token)
    returns (refused: Option<DispatchCode>, retryAt: Option<int>, used: UsageRow?)
    modifies task, setting, usage
    ensures usage != null ==> used == usage
    ensures usage == null ==> used == null || fresh(used)
    ensures var before := if usage == null then EMPTY_USAGE else old(usage.Value());
            match Reserve(old(task.Value()), old(SettingValue(setting)), before, r, env, permit)
            case Allowed(t, s, u) =>
              && refused == None && task.Value() == t && SettingValue(setting) == Some(s) && UsageValue(used) == Some(u)
            case Denied(code, at) =>
              && refused == Some(code) && retryAt == at
              && task.Value() == old(task.Value()) && SettingValue(setting) == old(SettingValue(setting))
              && UsageValue(used) ==
                   if usage != null || ReachesUsage(old(task.Value()), old(SettingValue(setting)), r, env)
                   then Some(before) else None
  {
    hide GateCode, EarliestNext, HoldsLiveLease;
    used, retryAt := usage, None;
    refused := Authorize(task, setting, r, env);
    if refused.Some? { return; }
    if used == null { used := new UsageRow(); }
    refused, retryAt := CheckBudget(task, setting, used, r);
    if refused.Some? { return; }
    used.Book(CategoryOf(task.spec.taskType, task.spec.Action()), r.now);
    setting.lastActionAt, setting.lastRunAt := Some(r.now), Some(r.now);
    task.Dispatch(r, permit);
  }

  /** What preparing tells the dispatcher. */
  datatype Preparation =
    | PermitGone
    | SnapshotConflict
    | PreparedFor(status: ExecutionStatus, code: Code, resultId: string, shouldExecute: bool)

  /** Creates or reuses the audit row, links it and starts it.  A conflict raises, and the
      transaction is rolled back. */
  method PrepareActionExecution(task: TaskRow, existing: ExecutionRow?, permit: Token, snapshot: nat, now: int)
    returns (p: Preparation, row: ExecutionRow?)
    requires existing != null ==> existing.id == task.spec.Execution()
    modifies task, existing
    ensures !P.HoldsPermit(old(task.Value()), permit) ==>
              p == PermitGone && task.Value() == old(task.Value())
              && ExecutionValue(existing) == old(ExecutionValue(existing))
    ensures P.HoldsPermit(old(task.Value()), permit) ==>
              var t := old(task.Value());
              var (x, started) := P.PreparedRow(t, old(ExecutionValue(existing)), snapshot, now);
              if !P.SameAction(t, x, snapshot) || (t.execution.Some? && t.execution != Some(x.id))
              then p == SnapshotConflict
              else p == PreparedFor(x.status, x.code, x.resultId, started)
                   && ExecutionValue(row) == Some(x) && task.Value() == t.(execution := Some(x.id))
  {
    row := existing;
    if !(task.status == Dispatching && task.token == Some(permit) && task.actionKey == Some(task.spec.Key())) {
      return PermitGone, row;
    }
    if row == null { row := new ExecutionRow(task.Value(), snapshot); }
    if row.account != task.spec.account || row.settingVersion != task.spec.executionVersion
       || row.snapshot != snapshot {
      return SnapshotConflict, row;
    }
    if task.execution.Some? && task.execution != Some(row.id) { return SnapshotConflict, row; }
    if task.execution.None? { task.execution := Some(row.id); }
    var shouldExecute := row.Start(now);
    p := PreparedFor(row.status, row.code, row.resultId, shouldExecute);
  }

  // -------------------------------------------------------------- ending a task

  /** The locals of `finish_task`: the end as it is being decided. */
  datatype Outcome = Outcome(status: TaskStatus, code: Code, resultId: string, unknown: bool, counts: bool,
                             resets: bool, halts: bool)

  function OutcomeOf(v: Verdict): Outcome {
    Outcome(v.status, v.code, v.resultId, v.unknown, v.counts, v.resets, v.halts)
  }

  function Review(code: Code): Outcome {
    Outcome(ManualReview, code, "", true, true, false, true)
  }

  function Mirrored(status: TaskStatus, code: Code): Outcome {
    Outcome(status, code, "", false, status == Failed, false, false)
  }

  /** Reads the end off an audit row that has just been synchronised. */
  method FromSynchronized(execution: ExecutionRow) returns (o: Outcome)
    requires execution.status in {ExecSucceeded, ExecFailed, ExecManualReview}
    ensures o == OutcomeOf(Mirror(execution.Value()))
  {
    if execution.status == ExecSucceeded {
      o := Outcome(Succeeded, NoCode, Clip(execution.resultId), false, false, true, false);
    } else if execution.status == ExecFailed {
      var error := OrElse(execution.code, AccountActionFailed);
      o := Mirrored(if error == LocalMessageSourceStale then Stale else Failed, error);
    } else {
      o := Review(OrElse(execution.code, AccountActionOutcomeUnknown));
    }
  }

  /** Cancels an audit row that never started. */
  method EndQueued(execution: ExecutionRow, c: Completion, code: Code, now: int) returns (o: Outcome)
    requires execution.status == ExecQueued && code == RequestedCode(c)
    modifies execution
    ensures var reason := if !c.unknown && code != NoCode then code else ActionExecutionNotStarted;
            && execution.Value() == CancelledExecution(old(execution.Value()), reason, now)
            && o == if c.status == Succeeded || c.unknown then Review(ExecutionAuditStateMismatch)
                    else OutcomeOf(Mirror(execution.Value()))
  {
    var reason := if !c.unknown && code != NoCode then code else ActionExecutionNotStarted;
    var cancelled := execution.CancelQueued(reason, now);
    assert cancelled;
    if c.status == Succeeded || c.unknown {
      o := Review(ExecutionAuditStateMismatch);
    } else {
      o := Mirrored(Cancelled, OrElse(execution.code, ActionExecutionNotStarted));
    }
  }

  /** Synchronises a running audit row with the end that was asked for. */
  method EndRunning(execution: ExecutionRow, c: Completion, code: Code, now: int) returns (o: Outcome)
    requires execution.status == ExecRunning && code == RequestedCode(c)
    modifies execution
    ensures var v := Mirror(CloseRunning(old(execution.Value()), c, now));
            o == OutcomeOf(v) && v.execution == Some(execution.Value())
  {
    var synchronized;
    if c.status == Succeeded {
      synchronized := execution.Succeed(Clip(c.resultId), now);
    } else if c.status == ManualReview && c.unknown {
      synchronized := execution.MarkOutcomeUnknown(code, now);
    } else if c.status == Failed && !c.unknown {
      synchronized := execution.Fail(code, now);
    } else if c.status == Stale && !c.unknown && code == LocalMessageSourceStale {
      synchronized := execution.Fail(code, now);
    } else {
      synchronized := execution.MarkOutcomeUnknown(ExecutionAuditStateMismatch, now);
    }
    assert synchronized;
    o := FromSynchronized(execution);
  }

  /** What an audit row that has ended says about its task. */
  method ReadEnded(execution: ExecutionRow) returns (o: Outcome)
    requires execution.status !in {ExecQueued, ExecRunning}
    ensures o == OutcomeOf(Mirror(execution.Value()))
  {
    if execution.status == ExecSucceeded {
      o := Outcome(Succeeded, NoCode, Clip(execution.resultId), false, false, true, false);
    } else if execution.status == ExecFailed {
      var error := OrElse(execution.code, AccountActionFailed);
      o := Mirrored(if error == LocalMessageSourceStale then Stale else Failed, error);
    } else if execution.status == ExecCancelled {
      o := Mirrored(Cancelled, OrElse(execution.code, AccountActionCancelled));
    } else {
      o := Review(OrElse(execution.code, AccountActionOutcomeUnknown));
    }
  }

  /** Compares an audit row that had already ended with the end that was asked for. */
  method EndRecorded(execution: ExecutionRow, status: TaskStatus, code: Code) returns (o: Outcome)
    requires execution.status !in {ExecQueued, ExecRunning} && status.Terminal()
    ensures o == if Compatible(status, code, execution.Value()) then OutcomeOf(Mirror(execution.Value()))
                 else Review(ExecutionAuditStateMismatch)
  {
    hide Mirror, OrElse;
    var expected := match status
      case Succeeded => ExecSucceeded
      case Failed => ExecFailed
      case Stale => ExecFailed
      case Cancelled => ExecCancelled
      case _ => ExecManualReview;
    if execution.status != expected {
      o := Review(ExecutionAuditStateMismatch);
    } else if status == Stale && OrElse(execution.code, AccountActionFailed) != LocalMessageSourceStale {
      o := Review(ExecutionAuditStateMismatch);
    } else {
      o := ReadEnded(execution);
    }
  }

  lemma MirrorKeepsAudit(x: Execution)
    ensures Mirror(x).execution == Some(x)
  {
  }

  /** Reconciles the end that was asked for with the bound audit row. */
  method Reconcile(execution: ExecutionRow, c: Completion, code: Code, now: int) returns (o: Outcome)
    requires c.status.Terminal() && code == RequestedCode(c)
    modifies execution
    ensures var x := old(execution.Value());
            var closed :=
              CancelledExecution(x, if !c.unknown && code != NoCode then code else ActionExecutionNotStarted, now);
            var v := if x.status == ExecQueued then
                       if c.status == Succeeded || c.unknown then NeedsReview(ExecutionAuditStateMismatch, Some(closed))
                       else Mirror(closed)
                     else if x.status == ExecRunning then Mirror(CloseRunning(x, c, now))
                     else if Compatible(c.status, code, x) then Mirror(x)
                     else NeedsReview(ExecutionAuditStateMismatch, Some(x));
            o == OutcomeOf(v) && v.execution == Some(execution.Value())
  {
    hide Mirror, CloseRunning, CancelledExecution, Compatible, RequestedCode;
    if execution.status == ExecQueued {
      o := EndQueued(execution, c, code, now);
      MirrorKeepsAudit(execution.Value());
    } else if execution.status == ExecRunning {
      o := EndRunning(execution, c, code, now);
    } else {
      o := EndRecorded(execution, c.status, code);
      MirrorKeepsAudit(execution.Value());
    }
  }

  /** The end of a task that has no audit row. */
  method DecideUnlinked(task: TaskRow, c: Completion) returns (o: Outcome)
    requires task.execution.None?
    ensures o == OutcomeOf(Resolve(task.Value(), None, c, 0))
  {
    hide Clip;
    var code := if c.status != Succeeded then OrElse(c.code, AutonomyTaskFailed) else NoCode;
    if task.status == Dispatching {
      var kept := if c.status in {Failed, Cancelled, Stale} && !c.unknown && code != NoCode then code
                  else ActionExecutionNotPrepared;
      o := Outcome(Failed, kept, "", false, true, false, false);
    } else {
      o := Outcome(c.status, code, Clip(c.resultId), c.unknown, c.counts || c.unknown, c.resets, c.halts);
    }
  }

  /** Decides the end of a task and closes its audit row. */
  method Decide(task: TaskRow, execution: ExecutionRow?, c: Completion, now: int) returns (o: Outcome)
    requires c.status.Terminal() && Loaded(task, execution)
    modifies execution
    ensures var v := Resolve(old(task.Value()), old(ExecutionValue(execution)), c, now);
            o == OutcomeOf(v) && v.execution == ExecutionValue(execution)
  {
    hide Mirror, CloseRunning, Bound, CancelledExecution, Compatible, Clip, RequestedCode;
    if task.execution.None? {
      o := DecideUnlinked(task, c);
    } else if execution == null || !Bound(task.Value(), execution.Value()) {
      o := Review(ExecutionAuditMismatch);
    } else {
      o := Reconcile(execution, c, RequestedCode(c), now);
    }
  }

  method CloseTask(task: TaskRow, o: Outcome, now: int, ghost v: Verdict)
    requires o == OutcomeOf(v)
    modifies task
    ensures task.Value() == Ended(old(task.Value()), v, now)
    ensures task.budgetDay == old(task.budgetDay) && task.dispatchStartedAt == old(task.dispatchStartedAt)
  {
    task.status, task.code, task.resultId, task.unknown := o.status, o.code, o.resultId, o.unknown;
    task.Close(now);
  }

  /** The ledger row after an end; it refuses to give back what was never reserved. */
  method SettleUsage(usage: UsageRow, category: Category, o: Outcome, refund: bool,
                     ghost v: Verdict) returns (done: bool)
    requires o == OutcomeOf(v)
    modifies usage
    ensures done == !(refund && (old(usage.total) <= 0 || old(usage.Value()).Count(category) <= 0))
    ensures var u := old(usage.Value());
            done ==> usage.Value() == Outcomes(if refund then u.Add(category, -1).(total := u.total - 1) else u, v)
  {
    if refund {
      done := usage.Refund(category);
      if !done { return; }
    }
    if o.counts { usage.failed := usage.failed + 1; }
    if o.unknown { usage.unknown := usage.unknown + 1; }
    done := true;
  }

  /** What any end writes on the policy row, with its failure counted. */
  method RecordEnd(setting: SettingRow, spec: TaskSpec, o: Outcome, counts: bool, now: int, ghost v: Verdict)
    requires o == OutcomeOf(v)
    modifies setting
    ensures setting.Value() == Counted(old(setting.Value()), spec, v, counts, now)
  {
    hide SuccessRecorded;
    setting.lastRunAt := Some(now);
    if o.resets { setting.failures := 0; }
    if o.status == Succeeded { setting.RecordSuccess(spec, now); }
    if counts { setting.failures := setting.failures + 1; }
  }

  method Halt(setting: SettingRow, reason: Code, now: int)
    modifies setting
    ensures setting.Value() == old(setting.Value()).(haltedAt := Some(now), haltedReason := reason, nextRunAt := None)
  {
    setting.haltedAt, setting.haltedReason, setting.nextRunAt := Some(now), reason, None;
  }

  /** The policy row after an end. */
  method SettleSetting(setting: SettingRow, spec: TaskSpec, o: Outcome, retryable: bool, retryAt: Option<int>, now: int,
                       ghost v: Verdict)
    requires o == OutcomeOf(v)
    modifies setting
    ensures setting.Value() == SettingAfter(old(setting.Value()), spec, v, retryable, retryAt, now)
  {
    hide Counted;
    RecordEnd(setting, spec, o, o.counts && !retryable, now, v);
    if o.halts || (!retryable && setting.failures >= setting.content.failureLimit) {
      Halt(setting, OrElse(o.code, AutonomyHalted), now);
    } else if retryAt.Some? && (setting.nextRunAt.None? || setting.nextRunAt.value < retryAt.value) {
      setting.nextRunAt := retryAt;
    }
  }

  lemma RetryAgrees(c: Completion, o: Outcome, v: Verdict)
    requires o == OutcomeOf(v)
    ensures GrantsRetry(c, v) == (c.retryable && o.status == Failed && !o.unknown && o.code == RequestedCode(c))
  {
  }

  method FinishHeld(task: TaskRow, execution: ExecutionRow?, setting: SettingRow?, usage: UsageRow?, c: Completion,
                    now: int)
    returns (result: Result<bool, Fault>)
    requires c.status.Terminal() && Loaded(task, execution)
    requires task.budgetDay.None? ==> usage == null
    modifies task, execution, setting, usage
    ensures match Finish(old(RowValues(task, execution, setting, usage)), c, now)
            case Success(rows) => result == Success(true) && RowValues(task, execution, setting, usage) == rows
            case Failure(fault) => result == Failure(fault)
  {
    hide Resolve, SettingAfter, Ended, Outcomes, GrantsRetry, RequestedCode, CategoryOf;
    ghost var before := RowValues(task, execution, setting, usage);
    ghost var v := Resolve(before.task, before.execution, c, now);
    var o := Decide(task, execution, c, now);
    var retryable := c.retryable && o.status == Failed && !o.unknown && o.code == RequestedCode(c);
    RetryAgrees(c, o, v);
    var refund := c.refunds && retryable;
    var retryAt := if retryable then c.retryAt else None;
    CloseTask(task, o, now, v);
    if setting != null { SettleSetting(setting, task.spec, o, retryable, retryAt, now, v); }
    if task.dispatchStartedAt.None? != task.budgetDay.None? { return Failure(BudgetDayDisagrees); }
    if task.budgetDay.Some? {
      if usage == null { return Failure(UsageRowMissing); }
      var settled := SettleUsage(usage, CategoryOf(task.spec.taskType, task.spec.Action()), o, refund, v);
      if !settled { return Failure(RefundNotReserved); }
    }
    return Success(true);
  }

  /** Ends the task for the holder of its token.  When it raises, the transaction is
      rolled back and nothing it assigned survives. */
  method FinishTask(task: TaskRow, execution: ExecutionRow?, setting: SettingRow?, usage: UsageRow?, lease: Token,
                    c: Completion, now: int)
    returns (result: Result<bool, Fault>)
    requires c.status.Terminal() && Loaded(task, execution)
    requires task.budgetDay.None? ==> usage == null
    modifies task, execution, setting, usage
    ensures !MayFinish(old(task.Value()), lease) ==>
              && result == Success(false)
              && RowValues(task, execution, setting, usage) == old(RowValues(task, execution, setting, usage))
    ensures MayFinish(old(task.Value()), lease) ==>
              match Finish(old(RowValues(task, execution, setting, usage)), c, now)
              case Success(rows) => result == Success(true) && RowValues(task, execution, setting, usage) == rows
              case Failure(fault) => result == Failure(fault)
  {
    if task.token != Some(lease) || task.status.Terminal() { return Success(false); }
    hide Finish;
    result := FinishHeld(task, execution, setting, usage, c, now);
  }

  // ------------------------------------------------------------------ the sweep

  lemma UnknownIsReviewed(x: Execution, code: Code, now: int)
    ensures OutcomeOf(Mirror(UnknownExecution(x, code, now))) == Review(OrElse(code, AccountActionOutcomeUnknown))
    ensures Mirror(UnknownExecution(x, code, now)).execution == Some(UnknownExecution(x, code, now))
  {
  }

  /** Reads the fate of an expired dispatch off its audit row, closing it if need be. */
  method Examine(task: TaskRow, execution: ExecutionRow?, code: Code, now: int) returns (o: Outcome)
    requires Loaded(task, execution)
    modifies execution
    ensures var v := Autopsy(old(task.Value()), old(ExecutionValue(execution)), code, now);
            o == OutcomeOf(v) && v.execution == ExecutionValue(execution)
  {
    hide Mirror, Bound, UnknownExecution, OrElse;
    var bound := execution != null && Bound(task.Value(), execution.Value());
    ghost var was := if execution == null then NewExecution(task.Value(), 0) else execution.Value();
    if bound && execution.status == ExecQueued {
      var cancelled := execution.CancelQueued(WorkerLostBeforeActionStart, now);
      if !cancelled { assert false; }
    }
    if task.execution.None? {
      o := Mirrored(Failed, WorkerLostBeforeActionPrepare);
    } else if !bound {
      o := Review(ExecutionAuditMismatch);
    } else if execution.status != ExecRunning {
      o := ReadEnded(execution);
      MirrorKeepsAudit(execution.Value());
    } else {
      var marked := execution.MarkOutcomeUnknown(code, now);
      if !marked { assert false; }
      UnknownIsReviewed(was, code, now);
      o := Review(OrElse(code, AccountActionOutcomeUnknown));
    }
  }

  method SweepSetting(setting: SettingRow, spec: TaskSpec, o: Outcome, code: Code, now: int, ghost v: Verdict)
    requires o == OutcomeOf(v)
    modifies setting
    ensures setting.Value() == SettingSwept(old(setting.Value()), spec, v, code, now)
  {
    hide Counted;
    RecordEnd(setting, spec, o, o.counts, now, v);
    if o.unknown || setting.failures >= setting.content.failureLimit {
      Halt(setting, OrElse(o.code, code), now);
    }
  }

  /** One task of the recovery sweep. */
  method MarkExpiredDispatch(task: TaskRow, execution: ExecutionRow?, setting: SettingRow?, usage: UsageRow?,
                             before: int, code: Code, now: int)
    returns (result: Result<bool, Fault>)
    requires Loaded(task, execution) && code != NoCode
    requires task.budgetDay.None? ==> usage == null
    modifies task, execution, setting, usage
    ensures !Expired(old(task.Value()), before) ==>
              && result == Success(false)
              && RowValues(task, execution, setting, usage) == old(RowValues(task, execution, setting, usage))
    ensures Expired(old(task.Value()), before) ==>
              match Sweep(old(RowValues(task, execution, setting, usage)), code, now)
              case Success(rows) => result == Success(true) && RowValues(task, execution, setting, usage) == rows
              case Failure(fault) => result == Failure(fault)
  {
    if !(task.status == Dispatching && task.dispatchStartedAt.Some? && task.dispatchStartedAt.value < before) {
      return Success(false);
    }
    hide Autopsy, SettingSwept, Ended, Outcomes;
    ghost var was := RowValues(task, execution, setting, usage);
    ghost var v := Autopsy(was.task, was.execution, code, now);
    var o := Examine(task, execution, code, now);
    CloseTask(task, o, now, v);
    if setting != null { SweepSetting(setting, task.spec, o, code, now, v); }
    if task.budgetDay.None? { return Failure(BudgetDayDisagrees); }
    if usage == null { return Failure(UsageRowMissing); }
    var settled := SettleUsage(usage, CategoryOf(task.spec.taskType, task.spec.Action()), o, false, v);
    return Success(settled);
  }
}
