/** Ending a task keeps the invariant: no fault is reachable, the audit row, the policy
    row and the day's ledger move together. */
module EndSteps {
  import opened Vocabulary
  import opened Policies
  import opened Transitions
  import opened Protocol
  import opened Invariant
  import opened Endings
  import opened Frames

  // ------------------------------------------------------------- the day's ledger

  function UsageKey(t: Task): UsageId
    requires t.budgetDay.Some?
  {
    UsageId(t.spec.owner, t.budgetDay.value)
  }

  /** The ledger holds the reservation of every dispatched task that was not refunded. */
  lemma ReservationIsHeld(s: World, id: TaskId)
    requires BudgetInv(s) && id in s.db.tasks && s.db.tasks[id].status == Dispatching
    requires s.db.tasks[id].budgetDay.Some?
    ensures var k := UsageKey(s.db.tasks[id]);
            && id !in s.past.refunded && k in s.db.usages
            && s.db.usages[k].total >= 1
            && s.db.usages[k].Count(s.db.tasks[id].spec.Category()) >= 1
  {
    var t := s.db.tasks[id];
    var k := UsageKey(t);
    assert UsageOk(s, k, s.db.usages[k]);
    assert id in Charged(s, k);
    assert id in ChargedTo(s, k, t.spec.Category());
  }

  /** Writing the task's end and the ledger row it was charged to. */
  function WithEnd(s: World, id: TaskId, t': Task, k: UsageId, u': Usage, refund: bool): World {
    s.(db := s.db.(tasks := s.db.tasks[id := t'], usages := s.db.usages[k := u']),
       past := if refund then s.past.(refunded := s.past.refunded + {id}) else s.past)
  }

  function Settled(u: Usage, category: Category, v: Verdict, refund: bool): Usage {
    Outcomes(if refund then u.Add(category, -1).(total := u.total - 1) else u, v)
  }

  lemma LedgerOfOtherDays(s: World, id: TaskId, t': Task, k: UsageId, u': Usage, refund: bool, other: UsageId)
    requires id in s.db.tasks && s.db.tasks[id].budgetDay.Some? && k == UsageKey(s.db.tasks[id])
    requires t'.spec == s.db.tasks[id].spec && t'.budgetDay == s.db.tasks[id].budgetDay
    requires other != k && other in s.db.usages && UsageOk(s, other, s.db.usages[other])
    ensures UsageOk(WithEnd(s, id, t', k, u', refund), other, s.db.usages[other])
  {
    var s' := WithEnd(s, id, t', k, u', refund);
    assert Reserved(s', other) == Reserved(s, other);
    assert Charged(s', other) == Charged(s, other);
    assert EndedBadly(s', other) == EndedBadly(s, other);
    assert EndedUnknown(s', other) == EndedUnknown(s, other);
    forall c: Category ensures ChargedTo(s', other, c) == ChargedTo(s, other, c) {}
  }

  /** How one end moves the sets of tasks that a day's ledger counts. */
  lemma LedgerSets(s: World, id: TaskId, t': Task, k: UsageId, u': Usage, refund: bool)
    requires id in s.db.tasks && s.db.tasks[id].status == Dispatching
    requires s.db.tasks[id].budgetDay.Some? && k == UsageKey(s.db.tasks[id]) && id !in s.past.refunded
    requires t'.spec == s.db.tasks[id].spec && t'.budgetDay == s.db.tasks[id].budgetDay
    ensures var s' := WithEnd(s, id, t', k, u', refund);
            && id in Charged(s, k) && id !in EndedBadly(s, k) && id !in EndedUnknown(s, k)
            && Charged(s', k) == (if refund then Charged(s, k) - {id} else Charged(s, k))
            && EndedBadly(s', k)
              == (if t'.status in {Failed, ManualReview} then EndedBadly(s, k) + {id} else EndedBadly(s, k))
            && EndedUnknown(s', k)
              == (if t'.status == ManualReview then EndedUnknown(s, k) + {id} else EndedUnknown(s, k))
  {
    var s' := WithEnd(s, id, t', k, u', refund);
    assert Reserved(s', k) == Reserved(s, k);
  }

  lemma CategorySets(s: World, id: TaskId, t': Task, k: UsageId, u': Usage, refund: bool, c: Category)
    requires id in s.db.tasks && s.db.tasks[id].status == Dispatching
    requires s.db.tasks[id].budgetDay.Some? && k == UsageKey(s.db.tasks[id]) && id !in s.past.refunded
    requires t'.spec == s.db.tasks[id].spec && t'.budgetDay == s.db.tasks[id].budgetDay
    ensures var s' := WithEnd(s, id, t', k, u', refund);
            && (c == t'.spec.Category() ==> id in ChargedTo(s, k, c))
            && ChargedTo(s', k, c) ==
                 (if refund && c == t'.spec.Category() then ChargedTo(s, k, c) - {id} else ChargedTo(s, k, c))
  {
    var s' := WithEnd(s, id, t', k, u', refund);
    LedgerSets(s, id, t', k, u', refund);
  }

  lemma SettledCounts(u: Usage, category: Category, v: Verdict, refund: bool)
    ensures var u' := Settled(u, category, v, refund);
            && u'.total == (if refund then u.total - 1 else u.total)
            && u'.Sum() == (if refund then u.Sum() - 1 else u.Sum())
            && (forall c: Category :: u'.Count(c) == if refund && c == category then u.Count(c) - 1 else u.Count(c))
            && u'.failed == u.failed + (if v.counts then 1 else 0)
            && u'.unknown == u.unknown + (if v.unknown then 1 else 0)
            && u'.lastActionAt == u.lastActionAt
  {
  }

  lemma LedgerOfThatDay(s: World, id: TaskId, t': Task, k: UsageId, v: Verdict, refund: bool)
    requires id in s.db.tasks && s.db.tasks[id].status == Dispatching
    requires s.db.tasks[id].budgetDay.Some? && k == UsageKey(s.db.tasks[id])
    requires t'.spec == s.db.tasks[id].spec && t'.budgetDay == s.db.tasks[id].budgetDay && t'.status == v.status
    requires v.counts <==> v.status in {Failed, ManualReview}
    requires v.unknown <==> v.status == ManualReview
    requires k in s.db.usages && UsageOk(s, k, s.db.usages[k]) && id !in s.past.refunded
    ensures var u' := Settled(s.db.usages[k], t'.spec.Category(), v, refund);
            UsageOk(WithEnd(s, id, t', k, u', refund), k, u')
  {
    var u := s.db.usages[k];
    var u' := Settled(u, t'.spec.Category(), v, refund);
    var s' := WithEnd(s, id, t', k, u', refund);
    SettledCounts(u, t'.spec.Category(), v, refund);
    forall c: Category ensures u'.Count(c) == |ChargedTo(s', k, c)| {
      CategorySets(s, id, t', k, u', refund, c);
      assert u.Count(c) == |ChargedTo(s, k, c)|;
    }
    LedgerSets(s, id, t', k, u', refund);
  }

  lemma ChargesStayTracked(s: World, id: TaskId, t': Task, u': Usage, refund: bool)
    requires BudgetInv(s) && id in s.db.tasks && s.db.tasks[id].status == Dispatching
    requires s.db.tasks[id].budgetDay.Some?
    requires t'.spec == s.db.tasks[id].spec && t'.budgetDay == s.db.tasks[id].budgetDay
    requires refund ==> t'.status == Failed && RetryableCode(t'.code)
    ensures var s' := WithEnd(s, id, t', UsageKey(s.db.tasks[id]), u', refund);
            && (forall j :: j in s'.db.tasks && s'.db.tasks[j].budgetDay.Some? ==>
                  UsageId(s'.db.tasks[j].spec.owner, s'.db.tasks[j].budgetDay.value) in s'.db.usages)
            && (forall j :: j in s'.past.refunded ==>
                  && j in s'.db.tasks && s'.db.tasks[j].budgetDay.Some?
                  && s'.db.tasks[j].status == Failed && RetryableCode(s'.db.tasks[j].code))
  {
    hide UsageOk;
  }

  lemma EndBudget(s: World, id: TaskId, t': Task, v: Verdict, refund: bool)
    requires BudgetInv(s) && id in s.db.tasks && s.db.tasks[id].status == Dispatching
    requires s.db.tasks[id].budgetDay.Some?
    requires t'.spec == s.db.tasks[id].spec && t'.budgetDay == s.db.tasks[id].budgetDay
    requires t'.status == v.status && t'.code == v.code
    requires v.counts <==> v.status in {Failed, ManualReview}
    requires v.unknown <==> v.status == ManualReview
    requires refund ==> v.status == Failed && RetryableCode(v.code)
    ensures var k := UsageKey(s.db.tasks[id]);
            && k in s.db.usages
            && BudgetInv(WithEnd(s, id, t', k, Settled(s.db.usages[k], t'.spec.Category(), v, refund), refund))
  {
    ReservationIsHeld(s, id);
    var k := UsageKey(s.db.tasks[id]);
    var u' := Settled(s.db.usages[k], t'.spec.Category(), v, refund);
    var s' := WithEnd(s, id, t', k, u', refund);
    ChargesStayTracked(s, id, t', u', refund);
    forall j | j in s'.db.usages ensures UsageOk(s', j, s'.db.usages[j]) {
      if j == k { LedgerOfThatDay(s, id, t', k, v, refund); }
      else { LedgerOfOtherDays(s, id, t', k, u', refund, j); }
    }
  }

  // ---------------------------------------------------------- the task's own row

  lemma EndTaskRow(db: Tables, id: TaskId, x: Option<Execution>, v: Verdict, now: int)
    requires id in db.tasks && TaskOk(id, db.tasks[id]) && LinkOk(db, db.tasks[id])
    requires db.tasks[id].status == Dispatching
    requires VerdictFits(db.tasks[id], x, v)
    requires db.tasks[id].execution.Some? ==>
               v.execution.Some? && db.executions[db.tasks[id].execution.value] == v.execution.value
    ensures TaskOk(id, Ended(db.tasks[id], v, now)) && LinkOk(db, Ended(db.tasks[id], v, now))
  {
  }

  /** A link looks at the audit rows only. */
  lemma LinkFrame(db: Tables, db': Tables, t: Task)
    requires LinkOk(db, t) && db'.executions == db.executions
    ensures LinkOk(db', t)
  {
  }

  lemma EndTaskRows(db: Tables, id: TaskId, x: Option<Execution>, v: Verdict, now: int)
    requires TasksInv(db) && id in db.tasks && db.tasks[id].status == Dispatching
    requires VerdictFits(db.tasks[id], x, v)
    requires db.tasks[id].execution.Some? ==>
               && v.execution.Some? && db.tasks[id].execution.value in db.executions
               && db.executions[db.tasks[id].execution.value] == v.execution.value
    ensures TasksInv(db.(tasks := db.tasks[id := Ended(db.tasks[id], v, now)]))
  {
    hide TaskOk, LinkOk, VerdictFits;
    var db' := db.(tasks := db.tasks[id := Ended(db.tasks[id], v, now)]);
    EndTaskRow(db, id, x, v, now);
    forall j | j in db'.tasks
      ensures TaskOk(j, db'.tasks[j]) && LinkOk(db', db'.tasks[j]) && db'.tasks[j].spec.owner in db'.settings
    {
      LinkFrame(db, db', db'.tasks[j]);
    }
  }

  lemma EndTaskPermits(s: World, id: TaskId, t': Task)
    requires PermitsInv(s) && id in s.db.tasks
    requires t'.budgetDay == s.db.tasks[id].budgetDay && t'.status != Dispatching && t'.token.None?
    ensures PermitsInv(WithTask(s, id, t'))
  {
  }

  lemma EndTaskWorkers(s: World, id: TaskId, t': Task)
    requires WorkersInv(s) && id in s.db.tasks
    requires t'.spec == s.db.tasks[id].spec && t'.status != Dispatching && t'.token.None?
    requires t'.execution == s.db.tasks[id].execution
    ensures WorkersInv(WithTask(s, id, t'))
  {
    WorkersFrame(s, WithTask(s, id, t'));
  }

  lemma EndTaskPast(s: World, id: TaskId, t': Task)
    requires LogInv(s) && EscapedInv(s) && id in s.db.tasks
    requires t'.execution == s.db.tasks[id].execution
    requires id in s.past.escaped ==> t'.status == ManualReview
    ensures LogInv(WithTask(s, id, t')) && EscapedInv(WithTask(s, id, t'))
  {
    LogFrame(s, WithTask(s, id, t'));
  }

  /** Ledger fields matter to the ledger only. */
  lemma LedgerApartRows(s: World, usages: map<UsageId, Usage>, refunded: set<TaskId>)
    requires TasksInv(s.db) && ExecutionsInv(s.db) && SettingsInv(s) && SpacingInv(s)
    ensures var s' := s.(db := s.db.(usages := usages), past := s.past.(refunded := refunded));
            TasksInv(s'.db) && ExecutionsInv(s'.db) && SettingsInv(s') && SpacingInv(s')
  {
    var s' := s.(db := s.db.(usages := usages), past := s.past.(refunded := refunded));
    TasksFrame(s.db, s'.db);
    SettingsFrame(s, s');
    SpacingFrame(s, s');
  }

  lemma LedgerApartPast(s: World, usages: map<UsageId, Usage>, refunded: set<TaskId>)
    requires PermitsInv(s) && LogInv(s) && EscapedInv(s) && WorkersInv(s)
    ensures var s' := s.(db := s.db.(usages := usages), past := s.past.(refunded := refunded));
            PermitsInv(s') && LogInv(s') && EscapedInv(s') && WorkersInv(s')
  {
    var s' := s.(db := s.db.(usages := usages), past := s.past.(refunded := refunded));
    PermitsFrame(s, s');
    LogFrame(s, s');
    EscapedFrame(s, s');
    WorkersFrame(s, s');
  }

  lemma EndTask(s: World, id: TaskId, x: Option<Execution>, v: Verdict, refund: bool, now: int)
    requires Inv(s) && id in s.db.tasks && s.db.tasks[id].status == Dispatching
    requires VerdictFits(s.db.tasks[id], x, v)
    requires s.db.tasks[id].execution.Some? ==>
               v.execution.Some? && s.db.executions[s.db.tasks[id].execution.value] == v.execution.value
    requires refund ==> v.status == Failed && RetryableCode(v.code)
    requires id in s.past.escaped ==> v.status == ManualReview
    ensures var t := s.db.tasks[id];
            && t.budgetDay.Some? && UsageKey(t) in s.db.usages
            && Inv(WithEnd(s, id, Ended(t, v, now), UsageKey(t),
                           Settled(s.db.usages[UsageKey(t)], t.spec.Category(), v, refund), refund))
  {
    hide TasksInv, ExecutionsInv, SettingsInv, PermitsInv, LogInv, EscapedInv, BudgetInv, SpacingInv, WorkersInv;
    TaskFacts(s, id);
    var t := s.db.tasks[id];
    var t' := Ended(t, v, now);
    EndBudget(s, id, t', v, refund);
    EndTaskRows(s.db, id, x, v, now);
    MoveTaskExecutions(s.db, id, t');
    MoveTaskPins(s, id, t');
    EndTaskPermits(s, id, t');
    EndTaskPast(s, id, t');
    MoveTaskSpacing(s, id, t');
    EndTaskWorkers(s, id, t');
    var u' := Settled(s.db.usages[UsageKey(t)], t.spec.Category(), v, refund);
    var refunded := if refund then s.past.refunded + {id} else s.past.refunded;
    LedgerApartRows(WithTask(s, id, t'), s.db.usages[UsageKey(t) := u'], refunded);
    LedgerApartPast(WithTask(s, id, t'), s.db.usages[UsageKey(t) := u'], refunded);
  }

  // ------------------------------------------------------------- the whole end

  lemma SameExecutionSameTask(s: World, i: TaskId, j: TaskId, key: ExecutionId)
    requires Inv(s) && i in s.db.tasks && j in s.db.tasks
    requires s.db.tasks[i].execution == Some(key) && s.db.tasks[j].execution == Some(key)
    ensures i == j
  {
    TaskFacts(s, i);
    TaskFacts(s, j);
  }

  lemma EndedPolicyRow(row: Setting, spec: TaskSpec, v: Verdict, retryable: bool, retryAt: Option<int>, now: int)
    requires SoundSetting(row)
    ensures PolicyMove(row, SettingAfter(row, spec, v, retryable, retryAt, now))
  {
  }

  lemma RewriteIsNothing(s: World, key: ExecutionId)
    requires key in s.db.executions
    ensures WithExecution(s, key, s.db.executions[key]) == s
  {
    assert s.db.executions[key := s.db.executions[key]] == s.db.executions;
  }

  /** The audit row is closed first; that alone keeps the invariant. */
  lemma EndAudit(s: World, id: TaskId, key: ExecutionId, x': Execution)
    requires Inv(s) && id in s.db.tasks && s.db.tasks[id].execution == Some(key) && key in s.db.executions
    requires s.db.executions[key].status == ExecRunning ==> ClosesRunning(s.db.executions[key], x')
    requires s.db.executions[key].status != ExecRunning ==> x' == s.db.executions[key]
    requires id in s.past.escaped && s.db.executions[key].status == ExecRunning ==> x'.status == ExecManualReview
    ensures Inv(WithExecution(s, key, x'))
  {
    if s.db.executions[key].status == ExecRunning {
      forall j | j in s.past.escaped && j in s.db.tasks && s.db.tasks[j].execution == Some(key)
        ensures x'.status == ExecManualReview
      {
        SameExecutionSameTask(s, id, j, key);
      }
      CloseExecution(s, key, x');
    } else {
      RewriteIsNothing(s, key);
    }
  }

  /** What the store tells a completion about a dispatched task. */
  lemma DispatchedRows(s: World, id: TaskId, c: Completion, now: int)
    requires Inv(s) && id in s.db.tasks && s.db.tasks[id].status == Dispatching && ValidCompletion(c)
    requires id in s.past.escaped ==> c.status == ManualReview
    ensures var t := s.db.tasks[id];
            var rows := RowsFor(s.db, t);
            var v := Resolve(t, rows.execution, c, now);
            && t.budgetDay.Some? && t.dispatchStartedAt.Some? && UsageKey(t) in s.db.usages
            && rows.setting == Some(s.db.settings[t.spec.owner]) && SoundSetting(rows.setting.value)
            && rows.usage == Some(s.db.usages[UsageKey(t)])
            && VerdictFits(t, rows.execution, v)
            && (t.execution.Some? ==>
                  && t.execution == Some(t.spec.Execution()) && t.spec.Execution() in s.db.executions
                  && rows.execution == Some(s.db.executions[t.spec.Execution()])
                  && (rows.execution.value.status != ExecRunning ==> v.execution == rows.execution)
                  && (id in s.past.escaped ==> v.execution.value.status == ExecManualReview))
            && (id in s.past.escaped ==> v.status == ManualReview)
  {
    hide Inv;
    TaskFacts(s, id);
    HeldReservation(s, id);
    var t := s.db.tasks[id];
    VerdictFitsDispatch(t, RowsFor(s.db, t).execution, c, now);
    if id in s.past.escaped { EscapedFacts(s, id); }
  }

  lemma HeldReservation(s: World, id: TaskId)
    requires Inv(s) && id in s.db.tasks && s.db.tasks[id].status == Dispatching
    ensures s.db.tasks[id].budgetDay.Some?
    ensures var k := UsageKey(s.db.tasks[id]);
            && k in s.db.usages && s.db.usages[k].total >= 1
            && s.db.usages[k].Count(s.db.tasks[id].spec.Category()) >= 1
  {
    TaskFacts(s, id);
    ReservationIsHeld(s, id);
  }

  lemma EscapedFacts(s: World, id: TaskId)
    requires Inv(s) && id in s.past.escaped && id in s.db.tasks && s.db.tasks[id].status == Dispatching
    ensures s.db.tasks[id].execution.Some? && s.db.tasks[id].execution.value in s.db.executions
    ensures s.db.executions[s.db.tasks[id].execution.value].status in {ExecRunning, ExecManualReview}
  {
  }

  /** No fault is reachable when a dispatched task ends. */
  lemma DispatchedEndHasNoFault(s: World, id: TaskId, c: Completion, now: int)
    requires Inv(s) && id in s.db.tasks && s.db.tasks[id].status == Dispatching && ValidCompletion(c)
    requires id in s.past.escaped ==> c.status == ManualReview
    ensures Finish(RowsFor(s.db, s.db.tasks[id]), c, now).Success?
  {
    hide Inv;
    DispatchedRows(s, id, c, now);
    HeldReservation(s, id);
    ReservedRowsHaveNoFault(RowsFor(s.db, s.db.tasks[id]), c, now);
  }

  lemma ReservedRowsHaveNoFault(r: Rows, c: Completion, now: int)
    requires r.task.dispatchStartedAt.Some? && r.task.budgetDay.Some? && r.usage.Some?
    requires r.usage.value.total >= 1 && r.usage.value.Count(r.task.spec.Category()) >= 1
    ensures Finish(r, c, now).Success?
  {
  }

  /** Ending a dispatched task, as one write per row. */
  lemma EndedByParts(s: World, id: TaskId, c: Completion, now: int)
    requires id in s.db.tasks && s.db.tasks[id].budgetDay.Some?
    requires var t := s.db.tasks[id];
             var rows := RowsFor(s.db, t);
             && t.spec.owner in s.db.settings && UsageKey(t) in s.db.usages
             && Finish(rows, c, now).Success?
             && (t.execution.Some? <==> Resolve(t, rows.execution, c, now).execution.Some?)
             && (t.execution.Some? ==> t.execution == Some(t.spec.Execution()))
    ensures var t := s.db.tasks[id];
            var v := Resolve(t, RowsFor(s.db, t).execution, c, now);
            var retry := GrantsRetry(c, v);
            var s1 := if t.execution.Some? then WithExecution(s, t.spec.Execution(), v.execution.value) else s;
            var row :=
              SettingAfter(s.db.settings[t.spec.owner], t.spec, v, retry, if retry then c.retryAt else None, now);
            EndedBy(s, id, c, now) ==
              WithEnd(WithSetting(s1, t.spec.owner, row), id, Ended(t, v, now), UsageKey(t),
                      Settled(s.db.usages[UsageKey(t)], t.spec.Category(), v, c.refunds && retry), c.refunds && retry)
  {
    hide Resolve, SettingAfter, Ended, Outcomes, GrantsRetry;
  }

  lemma DispatchedEnd(s: World, id: TaskId, c: Completion, now: int)
    requires Inv(s) && id in s.db.tasks && s.db.tasks[id].status == Dispatching && ValidCompletion(c)
    requires id in s.past.escaped ==> c.status == ManualReview
    requires c.retryable ==> RetryableCode(c.code)
    ensures Inv(EndedBy(s, id, c, now))
  {
    hide Inv;
    var t := s.db.tasks[id];
    DispatchedRows(s, id, c, now);
    DispatchedEndHasNoFault(s, id, c, now);
    var rows := RowsFor(s.db, t);
    var v := Resolve(t, rows.execution, c, now);
    var retry := GrantsRetry(c, v);
    var s1 := s;
    if t.execution.Some? {
      EndAudit(s, id, t.spec.Execution(), v.execution.value);
      s1 := WithExecution(s, t.spec.Execution(), v.execution.value);
    }
    var row := SettingAfter(s.db.settings[t.spec.owner], t.spec, v, retry, if retry then c.retryAt else None, now);
    EndedPolicyRow(s.db.settings[t.spec.owner], t.spec, v, retry, if retry then c.retryAt else None, now);
    MoveSetting(s1, t.spec.owner, row);
    var s2 := WithSetting(s1, t.spec.owner, row);
    EndTask(s2, id, rows.execution, v, c.refunds && retry, now);
    EndedByParts(s, id, c, now);
  }

  lemma PreDispatchParts(s: World, id: TaskId, c: Completion, now: int)
    requires id in s.db.tasks && TaskOk(id, s.db.tasks[id]) && s.db.tasks[id].status.NotStarted()
    requires s.db.tasks[id].spec.owner in s.db.settings
    requires ValidCompletion(c) && c.status in {Failed, Cancelled, Stale} && !c.retryable
    ensures var t := s.db.tasks[id];
            var v := Resolve(t, None, c, now);
            var row := SettingAfter(s.db.settings[t.spec.owner], t.spec, v, false, None, now);
            && PreDispatchMove(t, Ended(t, v, now)) && Ended(t, v, now).token.None?
            && Finish(RowsFor(s.db, t), c, now).Success?
            && EndedBy(s, id, c, now) == WithSetting(WithTask(s, id, Ended(t, v, now)), t.spec.owner, row)
  {
  }

  /** Ending a task that was never dispatched touches its own row and the policy row. */
  lemma PreDispatchEnd(s: World, id: TaskId, c: Completion, now: int)
    requires Inv(s) && id in s.db.tasks && s.db.tasks[id].status.NotStarted()
    requires ValidCompletion(c) && c.status in {Failed, Cancelled, Stale} && !c.retryable
    ensures Finish(RowsFor(s.db, s.db.tasks[id]), c, now).Success?
    ensures Inv(EndedBy(s, id, c, now))
  {
    hide Inv;
    TaskFacts(s, id);
    PreDispatchParts(s, id, c, now);
    var t := s.db.tasks[id];
    var v := Resolve(t, None, c, now);
    var row := SettingAfter(s.db.settings[t.spec.owner], t.spec, v, false, None, now);
    MoveTask(s, id, Ended(t, v, now));
    EndedPolicyRow(s.db.settings[t.spec.owner], t.spec, v, false, None, now);
    MoveSetting(WithTask(s, id, Ended(t, v, now)), t.spec.owner, row);
  }

  /** The sweep is the end that a worker with the matching completion would write. */
  lemma SweepIsEnd(s: World, id: TaskId, before: int, code: Code, now: int)
    requires Inv(s) && id in s.db.tasks && Expired(s.db.tasks[id], before) && code != NoCode
    ensures var t := s.db.tasks[id];
            var c := RecoveryCompletion(t, RowsFor(s.db, t).execution, code);
            && OnSweep(s, id, before, code, now) == EndedBy(s, id, c, now)
            && ValidCompletion(c) && !c.retryable
            && (id in s.past.escaped ==> c.status == ManualReview)
  {
    hide Inv, Finish, Sweep, Autopsy, Resolve, RecoveryCompletion, ValidCompletion, Bound;
    TaskFacts(s, id);
    var t := s.db.tasks[id];
    var rows := RowsFor(s.db, t);
    SweepIsFinish(rows, code, now);
    RecoveryCompletionIsValid(t, rows.execution, code);
    RecoveryNeverRefunds(t, rows.execution, code);
    if id in s.past.escaped {
      EscapedFacts(s, id);
      LostRecordIsRecovered(t, rows.execution.value, code);
    }
  }

  lemma RecoveryNeverRefunds(t: Task, x: Option<Execution>, code: Code)
    ensures !RecoveryCompletion(t, x, code).refunds
  {
    hide Bound;
  }

  lemma LostRecordIsRecovered(t: Task, x: Execution, code: Code)
    requires t.execution.Some? && x.status in {ExecRunning, ExecManualReview}
    ensures RecoveryCompletion(t, Some(x), code).status == ManualReview
  {
    hide Bound;
  }

  lemma SweepKeeps(s: World, id: TaskId, before: int, code: Code, now: int)
    requires Inv(s)
    ensures Inv(OnSweep(s, id, before, code, now))
  {
    hide Inv;
    if id in s.db.tasks && Expired(s.db.tasks[id], before) && code != NoCode {
      SweepIsEnd(s, id, before, code, now);
      var t := s.db.tasks[id];
      DispatchedEnd(s, id, RecoveryCompletion(t, RowsFor(s.db, t).execution, code), now);
    }
  }
}
