/** Small moves that keep the invariant: one row, one worker or one token at a time.
    The events of the protocol are compositions of these. */
module Frames {
  import opened Vocabulary
  import opened Policies
  import opened Transitions
  import opened Protocol
  import opened Invariant

  // ------------------------------------------------- budgets and spacing, framed

  ghost predicate SameCharge(t: Task, t': Task) {
    && t'.spec == t.spec && t'.budgetDay == t.budgetDay
    && (t.budgetDay.Some? ==> t'.status == t.status && t'.code == t.code)
  }

  ghost predicate SameDispatch(t: Task, t': Task) {
    t'.spec == t.spec && t'.dispatchStartedAt == t.dispatchStartedAt
  }

  lemma LedgerFrame(s: World, s': World, k: UsageId, u: Usage)
    requires UsageOk(s, k, u) && s'.past.refunded == s.past.refunded
    requires forall o :: o in s.db.settings ==>
               o in s'.db.settings && s'.db.settings[o].lastActionAt == s.db.settings[o].lastActionAt
    requires forall id :: id in s.db.tasks ==> id in s'.db.tasks && SameCharge(s.db.tasks[id], s'.db.tasks[id])
    requires forall id :: id in s'.db.tasks && id !in s.db.tasks ==> s'.db.tasks[id].budgetDay.None?
    ensures UsageOk(s', k, u)
  {
    assert Reserved(s', k) == Reserved(s, k);
    assert Charged(s', k) == Charged(s, k);
    assert EndedBadly(s', k) == EndedBadly(s, k);
    assert EndedUnknown(s', k) == EndedUnknown(s, k);
    forall c: Category ensures ChargedTo(s', k, c) == ChargedTo(s, k, c) {}
  }

  lemma BudgetFrame(s: World, s': World)
    requires BudgetInv(s)
    requires s'.db.usages == s.db.usages && s'.past.refunded == s.past.refunded
    requires forall o :: o in s.db.settings ==>
               o in s'.db.settings && s'.db.settings[o].lastActionAt == s.db.settings[o].lastActionAt
    requires forall id :: id in s.db.tasks ==> id in s'.db.tasks && SameCharge(s.db.tasks[id], s'.db.tasks[id])
    requires forall id :: id in s'.db.tasks && id !in s.db.tasks ==> s'.db.tasks[id].budgetDay.None?
    ensures BudgetInv(s')
  {
    hide UsageOk;
    forall k | k in s'.db.usages ensures UsageOk(s', k, s'.db.usages[k]) {
      LedgerFrame(s, s', k, s.db.usages[k]);
    }
  }

  lemma SlotsFrame(s: World, s': World, o: OwnerId, slots: seq<Slot>)
    requires SlotsOk(s, o, slots)
    requires forall id :: id in s.db.tasks ==> id in s'.db.tasks && SameDispatch(s.db.tasks[id], s'.db.tasks[id])
    requires forall id :: id in s'.db.tasks && id !in s.db.tasks ==> s'.db.tasks[id].dispatchStartedAt.None?
    ensures SlotsOk(s', o, slots)
  {
    hide Spaced;
  }

  lemma SpacingFrame(s: World, s': World)
    requires SpacingInv(s)
    requires s'.past.slots == s.past.slots
    requires s'.db.settings.Keys == s.db.settings.Keys
    requires forall o :: o in s.db.settings ==> s'.db.settings[o].lastActionAt == s.db.settings[o].lastActionAt
    requires forall id :: id in s.db.tasks ==> id in s'.db.tasks && SameDispatch(s.db.tasks[id], s'.db.tasks[id])
    requires forall id :: id in s'.db.tasks && id !in s.db.tasks ==> s'.db.tasks[id].dispatchStartedAt.None?
    ensures SpacingInv(s')
  {
    hide SlotsOk;
    forall o | o in s'.db.settings ensures SlotsOk(s', o, SlotsOf(s', o)) {
      SlotsFrame(s, s', o, SlotsOf(s, o));
    }
  }

  // ------------------------------------------------------- the other parts, framed

  lemma TasksFrame(db: Tables, db': Tables)
    requires TasksInv(db)
    requires db'.tasks == db.tasks && db'.executions == db.executions
    requires db.settings.Keys <= db'.settings.Keys
    ensures TasksInv(db')
  {
    forall id | id in db'.tasks
      ensures TaskOk(id, db'.tasks[id]) && LinkOk(db', db'.tasks[id]) && db'.tasks[id].spec.owner in db'.settings
    {
      assert TaskOk(id, db.tasks[id]) && LinkOk(db, db.tasks[id]);
    }
  }

  lemma ExecutionsFrame(db: Tables, db': Tables)
    requires ExecutionsInv(db) && db'.executions == db.executions
    requires forall id :: id in db.tasks ==> id in db'.tasks && db'.tasks[id].spec == db.tasks[id].spec
    ensures ExecutionsInv(db')
  {
  }

  /** The policy row may only move forward. */
  ghost predicate Forward(row: Setting, row': Setting) {
    row'.version >= row.version && (row'.version == row.version ==> row'.content == row.content)
  }

  lemma SettingsFrame(s: World, s': World)
    requires SettingsInv(s)
    requires s'.past.pinned == s.past.pinned && s'.db.tasks.Keys == s.db.tasks.Keys
    requires forall id :: id in s.db.tasks ==> s'.db.tasks[id].spec == s.db.tasks[id].spec
    requires forall o :: o in s'.db.settings ==> SoundSetting(s'.db.settings[o])
    requires forall o :: o in s.db.settings ==> o in s'.db.settings && Forward(s.db.settings[o], s'.db.settings[o])
    ensures SettingsInv(s')
  {
    forall id | id in s'.db.tasks ensures id in s'.past.pinned && PinOk(s', id) {
      assert PinOk(s, id);
    }
  }

  /** What a worker relies on about a task that others may change. */
  ghost predicate SteadyTask(t: Task, t': Task) {
    && t'.spec == t.spec
    && (t'.token.Some? ==> t'.token == t.token && t'.attempts == t.attempts)
    && (t'.status == Dispatching ==> t.status == Dispatching && t'.execution == t.execution)
    && (t.execution.Some? ==> t'.execution.Some?)
  }

  ghost predicate SteadyPast(s: World, s': World) {
    && s'.past.permits == s.past.permits && s'.past.log == s.past.log
    && s'.past.escaped == s.past.escaped && s'.past.pinned == s.past.pinned
  }

  lemma WorkerFrame(s: World, s': World, w: WorkerId, me: Worker)
    requires WorkerOk(s, w, me) && SteadyPast(s, s')
    requires !me.Idle? && me.id in s.db.tasks ==>
               me.id in s'.db.tasks && SteadyTask(s.db.tasks[me.id], s'.db.tasks[me.id])
    ensures WorkerOk(s', w, me)
  {
  }

  lemma WorkersFrame(s: World, s': World)
    requires WorkersInv(s) && SteadyPast(s, s') && s'.workers == s.workers && s.issued <= s'.issued
    requires forall id :: id in s.db.tasks ==> id in s'.db.tasks && SteadyTask(s.db.tasks[id], s'.db.tasks[id])
    ensures WorkersInv(s')
  {
    forall w | w in s'.workers ensures WorkerOk(s', w, s'.workers[w]) {
      WorkerFrame(s, s', w, s.workers[w]);
    }
  }

  lemma PermitsFrame(s: World, s': World)
    requires PermitsInv(s) && s'.past.permits == s.past.permits && s.issued <= s'.issued
    requires s'.db.tasks.Keys == s.db.tasks.Keys
    requires forall id :: id in s.db.tasks ==>
               && s'.db.tasks[id].budgetDay == s.db.tasks[id].budgetDay
               && (s'.db.tasks[id].status == Dispatching ==>
                     s.db.tasks[id].status == Dispatching && s'.db.tasks[id].token == s.db.tasks[id].token)
               && (s'.db.tasks[id].token.Some? ==> s'.db.tasks[id].token.value in s'.issued)
    ensures PermitsInv(s')
  {
  }

  lemma LogFrame(s: World, s': World)
    requires LogInv(s) && SteadyPast(s, s')
    requires forall id :: id in s.db.tasks && s.db.tasks[id].execution.Some? ==>
               id in s'.db.tasks && s'.db.tasks[id].execution.Some?
    ensures LogInv(s')
  {
  }

  lemma EscapedFrame(s: World, s': World)
    requires EscapedInv(s) && SteadyPast(s, s')
    requires forall id :: id in s.past.escaped && id in s.db.tasks ==>
               id in s'.db.tasks && s'.db.tasks[id] == s.db.tasks[id]
    requires forall key :: key in s.db.executions && s.db.executions[key].status in {ExecRunning, ExecManualReview} ==>
               key in s'.db.executions && s'.db.executions[key].status in {ExecRunning, ExecManualReview}
    ensures EscapedInv(s')
  {
  }

  // ------------------------------------------------------------------ one worker

  /** A token that no worker but `w` carries. */
  ghost predicate Exclusive(s: World, w: WorkerId, token: Token) {
    && token in s.issued
    && forall v :: v in s.workers && v != w && !s.workers[v].Idle? ==> s.workers[v].token != token
  }

  lemma MoveWorkerOnly(s: World, w: WorkerId, me: Worker)
    requires WorkersInv(s)
    requires WorkerOk(s, w, me) && (!me.Idle? ==> Exclusive(s, w, me.token))
    ensures WorkersInv(Moved(s, w, me))
  {
    var s' := Moved(s, w, me);
    forall v | v in s'.workers ensures WorkerOk(s', v, s'.workers[v]) {
      if v == w { WorkerFrame(s, s', v, me); } else { WorkerFrame(s, s', v, s.workers[v]); }
    }
  }

  lemma WorkersApartRows(s: World, s': World)
    requires SettingsInv(s) && PermitsInv(s)
    requires s'.db == s.db && s'.past == s.past && s.issued <= s'.issued
    ensures SettingsInv(s') && PermitsInv(s')
  {
    SettingsFrame(s, s');
    PermitsFrame(s, s');
  }

  lemma WorkersApart(s: World, workers: map<WorkerId, Worker>, issued: set<Token>)
    requires StoreInv(s) && s.issued <= issued
    ensures StoreInv(s.(workers := workers, issued := issued))
  {
    hide TasksInv, ExecutionsInv, SettingsInv, PermitsInv, LogInv, EscapedInv, BudgetInv, SpacingInv, WorkersInv;
    var s' := s.(workers := workers, issued := issued);
    WorkersApartRows(s, s');
    LogFrame(s, s');
    EscapedFrame(s, s');
    BudgetFrame(s, s');
    SpacingFrame(s, s');
  }

  lemma MoveWorker(s: World, w: WorkerId, me: Worker)
    requires Inv(s)
    requires WorkerOk(s, w, me) && (!me.Idle? ==> Exclusive(s, w, me.token))
    ensures Inv(Moved(s, w, me))
  {
    MoveWorkerOnly(s, w, me);
    WorkersApart(s, s.workers[w := me], s.issued);
  }

  lemma IssueToken(s: World, token: Token)
    requires Inv(s)
    ensures Inv(s.(issued := s.issued + {token}))
  {
    WorkersFrame(s, s.(issued := s.issued + {token}));
    WorkersApart(s, s.workers, s.issued + {token});
  }


  // ------------------------------------------------------------------- one task

  /** A change to a task that has not been dispatched: its lease, its due time, or its
      end by cancellation.  A token that appears must be one no worker carries yet. */
  ghost predicate PreDispatchMove(t: Task, t': Task) {
    && t.status.NotStarted() && t'.spec == t.spec && TaskOk(t.spec.Id(), t')
    && t'.budgetDay.None? && t'.execution.None?
  }

  lemma MoveTaskRows(db: Tables, id: TaskId, t': Task)
    requires TasksInv(db) && id in db.tasks && PreDispatchMove(db.tasks[id], t')
    ensures TasksInv(db.(tasks := db.tasks[id := t']))
  {
    var db' := db.(tasks := db.tasks[id := t']);
    assert TaskOk(id, db.tasks[id]) && LinkOk(db, db.tasks[id]);
    forall j | j in db'.tasks
      ensures TaskOk(j, db'.tasks[j]) && LinkOk(db', db'.tasks[j]) && db'.tasks[j].spec.owner in db'.settings
    {
      if j != id { assert TaskOk(j, db.tasks[j]) && LinkOk(db, db.tasks[j]); }
    }
  }

  lemma MoveTaskBudget(s: World, id: TaskId, t': Task)
    requires BudgetInv(s) && id in s.db.tasks && t'.spec == s.db.tasks[id].spec
    requires t'.budgetDay.None? && s.db.tasks[id].budgetDay.None?
    ensures BudgetInv(WithTask(s, id, t'))
  {
    BudgetFrame(s, WithTask(s, id, t'));
  }

  lemma MoveTaskPins(s: World, id: TaskId, t': Task)
    requires SettingsInv(s) && id in s.db.tasks && t'.spec == s.db.tasks[id].spec
    ensures SettingsInv(WithTask(s, id, t'))
  {
    SettingsFrame(s, WithTask(s, id, t'));
  }

  lemma MoveTaskPermits(s: World, id: TaskId, t': Task)
    requires PermitsInv(s) && id in s.db.tasks
    requires t'.budgetDay == s.db.tasks[id].budgetDay && t'.status != Dispatching
    requires t'.token.Some? ==> t'.token.value in s.issued
    ensures PermitsInv(WithTask(s, id, t'))
  {
  }

  lemma MoveTaskSpacing(s: World, id: TaskId, t': Task)
    requires SpacingInv(s) && id in s.db.tasks && SameDispatch(s.db.tasks[id], t')
    ensures SpacingInv(WithTask(s, id, t'))
  {
    hide SpacingInv;
    SpacingFrame(s, WithTask(s, id, t'));
  }

  lemma MoveTaskPast(s: World, id: TaskId, t': Task)
    requires LogInv(s) && EscapedInv(s) && id in s.db.tasks && s.db.tasks[id].execution.None?
    ensures LogInv(WithTask(s, id, t')) && EscapedInv(WithTask(s, id, t'))
  {
    LogFrame(s, WithTask(s, id, t'));
    EscapedFrame(s, WithTask(s, id, t'));
  }

  lemma MoveTaskExecutions(db: Tables, id: TaskId, t': Task)
    requires ExecutionsInv(db) && id in db.tasks && t'.spec == db.tasks[id].spec
    ensures ExecutionsInv(db.(tasks := db.tasks[id := t']))
  {
    ExecutionsFrame(db, db.(tasks := db.tasks[id := t']));
  }

  /** Before dispatch there is nothing to charge, link or recover. */
  lemma PreDispatchFacts(id: TaskId, t: Task, t': Task)
    requires TaskOk(id, t) && PreDispatchMove(t, t')
    ensures SameDispatch(t, t') && SameCharge(t, t') && t.execution.None? && t.budgetDay.None?
    ensures t'.status != Dispatching
  {
  }

  lemma MoveTaskStore(s: World, id: TaskId, t': Task)
    requires StoreInv(s) && id in s.db.tasks && PreDispatchMove(s.db.tasks[id], t')
    requires t'.token.Some? ==> t'.token.value in s.issued
    ensures StoreInv(WithTask(s, id, t'))
  {
    hide ExecutionsInv, SettingsInv, PermitsInv, LogInv, EscapedInv, BudgetInv, SpacingInv, WorkersInv;
    assert TaskOk(id, s.db.tasks[id]);
    PreDispatchFacts(id, s.db.tasks[id], t');
    MoveTaskRows(s.db, id, t');
    MoveTaskExecutions(s.db, id, t');
    MoveTaskPins(s, id, t');
    MoveTaskPermits(s, id, t');
    MoveTaskPast(s, id, t');
    MoveTaskBudget(s, id, t');
    MoveTaskSpacing(s, id, t');
  }

  lemma MoveTaskWorkers(s: World, id: TaskId, t': Task)
    requires WorkersInv(s) && id in s.db.tasks && s.db.tasks[id].status.NotStarted()
    requires t'.spec == s.db.tasks[id].spec && t'.status != Dispatching && s.db.tasks[id].execution.None?
    requires t'.token.Some? ==>
               || (t'.token == s.db.tasks[id].token && t'.attempts == s.db.tasks[id].attempts)
               || (forall w :: w in s.workers && !s.workers[w].Idle? ==> s.workers[w].token != t'.token.value)
    ensures WorkersInv(WithTask(s, id, t'))
  {
    var s' := WithTask(s, id, t');
    forall w | w in s'.workers ensures WorkerOk(s', w, s'.workers[w]) {
      assert WorkerOk(s, w, s.workers[w]);
    }
  }

  lemma MoveTask(s: World, id: TaskId, t': Task)
    requires Inv(s) && id in s.db.tasks && PreDispatchMove(s.db.tasks[id], t')
    requires t'.token.Some? ==>
               && t'.token.value in s.issued
               && (|| (t'.token == s.db.tasks[id].token && t'.attempts == s.db.tasks[id].attempts)
                   || (forall w :: w in s.workers && !s.workers[w].Idle? ==> s.workers[w].token != t'.token.value))
    ensures Inv(WithTask(s, id, t'))
  {
    assert TaskOk(id, s.db.tasks[id]);
    MoveTaskStore(s, id, t');
    MoveTaskWorkers(s, id, t');
  }

  /** Nothing about a stored task is out of step with its id. */
  lemma TaskFacts(s: World, id: TaskId)
    requires Inv(s) && id in s.db.tasks
    ensures TaskOk(id, s.db.tasks[id]) && LinkOk(s.db, s.db.tasks[id])
    ensures id in s.past.pinned && PinOk(s, id)
    ensures s.db.tasks[id].spec.owner in s.db.settings && SoundSetting(s.db.settings[s.db.tasks[id].spec.owner])
    ensures id in s.past.permits <==> s.db.tasks[id].budgetDay.Some?
    ensures s.db.tasks[id].status == Dispatching ==> s.db.tasks[id].token == Some(s.past.permits[id])
    ensures s.db.tasks[id].token.Some? ==> s.db.tasks[id].token.value in s.issued
  {
  }

  /** Nothing a worker remembers is out of step with the store. */
  lemma WorkerFacts(s: World, w: WorkerId)
    requires Inv(s)
    ensures WorkerOk(s, w, WorkerAt(s, w))
    ensures !WorkerAt(s, w).Idle? ==> Exclusive(s, w, WorkerAt(s, w).token)
  {
  }

  lemma SettingFacts(s: World, o: OwnerId)
    requires Inv(s) && o in s.db.settings
    ensures SoundSetting(s.db.settings[o])
  {
  }

  lemma ExecutionFacts(s: World, key: ExecutionId)
    requires Inv(s) && key in s.db.executions
    ensures s.db.executions[key].id == key
    ensures key.key.Autonomous? ==>
              && TaskId(key.owner, key.key.taskKey) in s.db.tasks
              && s.db.tasks[TaskId(key.owner, key.key.taskKey)].spec.Execution() == key
  {
  }

  /** A token that was never issued is carried by nobody. */
  lemma FreshToken(s: World, token: Token)
    requires Inv(s) && token !in s.issued
    ensures forall w :: w in s.workers && !s.workers[w].Idle? ==> s.workers[w].token != token
  {
  }

  // ------------------------------------------------------------ one audit record

  /** Closing a running audit row.  The row of an action whose record was lost may only
      be closed as unknown. */
  ghost predicate ClosesRunning(x: Execution, x': Execution) {
    && x.status == ExecRunning
    && x'.id == x.id && x'.account == x.account && x'.settingVersion == x.settingVersion
    && x'.status in {ExecSucceeded, ExecFailed, ExecManualReview}
    && (x'.status == ExecFailed ==> x'.code != NoCode)
    && |x'.resultId| <= 256
  }

  lemma CloseExecutionLink(db: Tables, id: TaskId, key: ExecutionId, x': Execution)
    requires id in db.tasks && TaskOk(id, db.tasks[id]) && LinkOk(db, db.tasks[id])
    requires key in db.executions && ClosesRunning(db.executions[key], x')
    ensures LinkOk(db.(executions := db.executions[key := x']), db.tasks[id])
  {
  }

  lemma CloseExecutionRows(db: Tables, key: ExecutionId, x': Execution)
    requires TasksInv(db) && key in db.executions && ClosesRunning(db.executions[key], x')
    ensures TasksInv(db.(executions := db.executions[key := x']))
  {
    var db' := db.(executions := db.executions[key := x']);
    forall id | id in db'.tasks
      ensures TaskOk(id, db'.tasks[id]) && LinkOk(db', db'.tasks[id]) && db'.tasks[id].spec.owner in db'.settings
    {
      assert TaskOk(id, db.tasks[id]) && LinkOk(db, db.tasks[id]);
      CloseExecutionLink(db, id, key, x');
    }
  }

  lemma WriteExecutionBudget(s: World, key: ExecutionId, x': Execution)
    requires BudgetInv(s)
    ensures BudgetInv(WithExecution(s, key, x'))
  {
    BudgetFrame(s, WithExecution(s, key, x'));
  }

  lemma WriteExecutionRows(s: World, s': World)
    requires SettingsInv(s) && PermitsInv(s) && LogInv(s)
    requires s'.db.tasks == s.db.tasks && s'.db.settings == s.db.settings && s'.past == s.past && s'.issued == s.issued
    ensures SettingsInv(s') && PermitsInv(s') && LogInv(s')
  {
    SettingsFrame(s, s');
    PermitsFrame(s, s');
    LogFrame(s, s');
  }

  lemma WriteExecutionFrames(s: World, key: ExecutionId, x': Execution)
    requires Inv(s)
    ensures var s' := WithExecution(s, key, x');
            SettingsInv(s') && PermitsInv(s') && LogInv(s') && BudgetInv(s') && SpacingInv(s') && WorkersInv(s')
  {
    hide TasksInv, ExecutionsInv, SettingsInv, PermitsInv, LogInv, EscapedInv, BudgetInv, SpacingInv, WorkersInv;
    var s' := WithExecution(s, key, x');
    WriteExecutionRows(s, s');
    WriteExecutionBudget(s, key, x');
    SpacingFrame(s, s');
    WorkersFrame(s, s');
  }

  lemma CloseExecutionEscaped(s: World, key: ExecutionId, x': Execution)
    requires EscapedInv(s)
    requires forall id :: id in s.past.escaped && id in s.db.tasks && s.db.tasks[id].execution == Some(key)
               ==> x'.status == ExecManualReview
    ensures EscapedInv(WithExecution(s, key, x'))
  {
  }

  lemma CloseExecution(s: World, key: ExecutionId, x': Execution)
    requires Inv(s) && key in s.db.executions && ClosesRunning(s.db.executions[key], x')
    requires forall id :: id in s.past.escaped && id in s.db.tasks && s.db.tasks[id].execution == Some(key)
               ==> x'.status == ExecManualReview
    ensures Inv(WithExecution(s, key, x'))
  {
    hide TasksInv, SettingsInv, PermitsInv, LogInv, EscapedInv, BudgetInv, SpacingInv, WorkersInv;
    CloseExecutionRows(s.db, key, x');
    CloseExecutionEscaped(s, key, x');
    WriteExecutionFrames(s, key, x');
  }

  lemma UserRows(db: Tables, x: Execution)
    requires TasksInv(db) && x.id.key.UserScoped?
    ensures TasksInv(db.(executions := db.executions[x.id := x]))
  {
    var db' := db.(executions := db.executions[x.id := x]);
    forall id | id in db'.tasks
      ensures TaskOk(id, db'.tasks[id]) && LinkOk(db', db'.tasks[id]) && db'.tasks[id].spec.owner in db'.settings
    {
      assert TaskOk(id, db.tasks[id]) && LinkOk(db, db.tasks[id]);
    }
  }

  lemma UserEscaped(s: World, x: Execution)
    requires EscapedInv(s) && TasksInv(s.db) && x.id.key.UserScoped?
    ensures EscapedInv(WithExecution(s, x.id, x))
  {
    forall id | id in s.past.escaped && id in s.db.tasks ensures s.db.tasks[id].execution != Some(x.id) {
      assert TaskOk(id, s.db.tasks[id]);
    }
  }

  lemma WriteUserExecution(s: World, x: Execution)
    requires Inv(s) && x.id.key.UserScoped?
    ensures Inv(WithExecution(s, x.id, x))
  {
    UserRows(s.db, x);
    UserEscaped(s, x);
    WriteExecutionFrames(s, x.id, x);
  }

  // --------------------------------------------------------------- one policy row

  ghost predicate PolicyMove(row: Setting, row': Setting) {
    SoundSetting(row') && row'.lastActionAt == row.lastActionAt && Forward(row, row')
  }

  lemma MoveSettingBudget(s: World, o: OwnerId, row': Setting)
    requires BudgetInv(s)
    requires o in s.db.settings ==> row'.lastActionAt == s.db.settings[o].lastActionAt
    ensures BudgetInv(WithSetting(s, o, row'))
  {
    BudgetFrame(s, WithSetting(s, o, row'));
  }

  lemma MoveSettingPins(s: World, o: OwnerId, row': Setting)
    requires SettingsInv(s) && o in s.db.settings && SoundSetting(row') && Forward(s.db.settings[o], row')
    ensures SettingsInv(WithSetting(s, o, row'))
  {
    SettingsFrame(s, WithSetting(s, o, row'));
  }

  lemma MoveSettingSpacing(s: World, o: OwnerId, row': Setting)
    requires SpacingInv(s) && o in s.db.settings && row'.lastActionAt == s.db.settings[o].lastActionAt
    ensures SpacingInv(WithSetting(s, o, row'))
  {
    hide SpacingInv;
    SpacingFrame(s, WithSetting(s, o, row'));
  }

  /** No other part of the invariant looks at the policy rows. */
  lemma SettingsApart(s: World, settings: map<OwnerId, Setting>)
    requires TasksInv(s.db) && ExecutionsInv(s.db) && PermitsInv(s) && LogInv(s) && EscapedInv(s) && WorkersInv(s)
    requires s.db.settings.Keys <= settings.Keys
    ensures var s' := s.(db := s.db.(settings := settings));
            TasksInv(s'.db) && ExecutionsInv(s'.db) && PermitsInv(s') && LogInv(s') && EscapedInv(s') && WorkersInv(s')
  {
    hide TasksInv, SettingsInv, LogInv, EscapedInv, BudgetInv, SpacingInv, WorkersInv;
    var s' := s.(db := s.db.(settings := settings));
    TasksFrame(s.db, s'.db);
    PermitsFrame(s, s');
    LogFrame(s, s');
    EscapedFrame(s, s');
    WorkersFrame(s, s');
  }

  lemma MoveSetting(s: World, o: OwnerId, row': Setting)
    requires Inv(s) && o in s.db.settings && PolicyMove(s.db.settings[o], row')
    ensures Inv(WithSetting(s, o, row'))
  {
    hide TasksInv, ExecutionsInv, SettingsInv, PermitsInv, LogInv, EscapedInv, BudgetInv, SpacingInv, WorkersInv;
    SettingsApart(s, s.db.settings[o := row']);
    MoveSettingPins(s, o, row');
    MoveSettingBudget(s, o, row');
    MoveSettingSpacing(s, o, row');
  }

  lemma AddSettingSpacing(s: World, o: OwnerId)
    requires SpacingInv(s) && TasksInv(s.db) && o !in s.db.settings
    ensures SpacingInv(WithSetting(s, o, NEW_SETTING))
  {
    var s' := WithSetting(s, o, NEW_SETTING);
    forall p | p in s'.db.settings
      ensures SlotsOk(s', p, SlotsOf(s', p)) && s'.db.settings[p].lastActionAt == LastAt(SlotsOf(s', p))
    {
      if p != o { assert SlotsOk(s, p, SlotsOf(s, p)); }
    }
  }

  lemma AddSetting(s: World, o: OwnerId)
    requires Inv(s) && o !in s.db.settings
    ensures Inv(WithSetting(s, o, NEW_SETTING))
  {
    hide ExecutionsInv, PermitsInv, LogInv, EscapedInv, BudgetInv, SpacingInv, WorkersInv, SlotsOk;
    SettingsApart(s, s.db.settings[o := NEW_SETTING]);
    SettingsFrame(s, WithSetting(s, o, NEW_SETTING));
    MoveSettingBudget(s, o, NEW_SETTING);
    AddSettingSpacing(s, o);
  }
}
