/** Preparing the audit row and performing the external action keep the invariant. */
module ActionSteps {
  import opened Vocabulary
  import opened Policies
  import opened Transitions
  import opened Protocol
  import opened Invariant
  import opened Frames
  import opened EndSteps

  // ------------------------------------------------------------------- prepare

  function Linked(s: World, id: TaskId, x: Execution): World
    requires id in s.db.tasks
  {
    WithExecution(WithTask(s, id, s.db.tasks[id].(execution := Some(x.id))), x.id, x)
  }

  /** A started audit row that fits its dispatched, still unlinked task. */
  ghost predicate LinkFits(s: World, id: TaskId, x: Execution) {
    && id in s.db.tasks
    && var t := s.db.tasks[id];
    && t.status == Dispatching && t.execution.None? && t.budgetDay.Some?
    && t.actionKey == Some(t.spec.Key()) && t.spec.Id() == id
    && x.id == t.spec.Execution() && x.account == t.spec.account && x.settingVersion == t.spec.executionVersion
    && x.status == ExecRunning && x.resultId == ""
  }

  lemma LinkRows(s: World, id: TaskId, x: Execution)
    requires TasksInv(s.db) && ExecutionsInv(s.db) && LinkFits(s, id, x)
    ensures TasksInv(Linked(s, id, x).db) && ExecutionsInv(Linked(s, id, x).db)
  {
    LinkedTasks(s, id, x);
    LinkedAudits(s, id, x);
  }

  lemma LinkedAudits(s: World, id: TaskId, x: Execution)
    requires TasksInv(s.db) && ExecutionsInv(s.db) && LinkFits(s, id, x)
    ensures ExecutionsInv(Linked(s, id, x).db)
  {
    hide LinkOk, TaskOk, Bound;
  }

  lemma LinkedTasks(s: World, id: TaskId, x: Execution)
    requires TasksInv(s.db) && LinkFits(s, id, x)
    ensures TasksInv(Linked(s, id, x).db)
  {
    var db' := Linked(s, id, x).db;
    forall j | j in db'.tasks
      ensures TaskOk(j, db'.tasks[j]) && LinkOk(db', db'.tasks[j]) && db'.tasks[j].spec.owner in db'.settings
    {
      assert TaskOk(j, s.db.tasks[j]) && LinkOk(s.db, s.db.tasks[j]);
      assert j != id ==> s.db.tasks[j].spec.Execution() != x.id;
    }
  }

  lemma LinkPins(s: World, s': World, id: TaskId, x: Execution)
    requires SettingsInv(s) && LinkFits(s, id, x) && s' == Linked(s, id, x)
    ensures SettingsInv(s')
  {
    SettingsFrame(s, s');
  }

  lemma LinkPermits(s: World, s': World, id: TaskId, x: Execution)
    requires PermitsInv(s) && LinkFits(s, id, x) && s' == Linked(s, id, x)
    ensures PermitsInv(s')
  {
    PermitsFrame(s, s');
  }

  lemma LinkSpacing(s: World, s': World, id: TaskId, x: Execution)
    requires SpacingInv(s) && LinkFits(s, id, x) && s' == Linked(s, id, x)
    ensures SpacingInv(s')
  {
    SpacingFrame(s, s');
  }

  lemma LinkLog(s: World, s': World, id: TaskId, x: Execution)
    requires LogInv(s) && LinkFits(s, id, x) && s' == Linked(s, id, x)
    ensures LogInv(s')
  {
    LogFrame(s, s');
  }

  lemma LinkBudget(s: World, s': World, id: TaskId, x: Execution)
    requires BudgetInv(s) && LinkFits(s, id, x) && s' == Linked(s, id, x)
    ensures BudgetInv(s')
  {
    BudgetFrame(s, s');
  }

  lemma LinkEscaped(s: World, s': World, id: TaskId, x: Execution)
    requires EscapedInv(s) && TasksInv(s.db) && LinkFits(s, id, x) && s' == Linked(s, id, x)
    ensures EscapedInv(s')
  {
    assert LinkOk(s.db, s.db.tasks[id]);
  }

  lemma LinkWorkers(s: World, s': World, id: TaskId, x: Execution)
    requires WorkersInv(s) && LinkFits(s, id, x) && s' == Linked(s, id, x)
    requires forall w :: w in s.workers && s.workers[w].Permitted? ==> s.workers[w].id != id
    ensures WorkersInv(s')
  {
    forall w | w in s'.workers ensures WorkerOk(s', w, s'.workers[w]) {
      assert WorkerOk(s, w, s.workers[w]);
    }
  }

  lemma LinkExecution(s: World, id: TaskId, x: Execution)
    requires Inv(s) && LinkFits(s, id, x)
    requires forall w :: w in s.workers && s.workers[w].Permitted? ==> s.workers[w].id != id
    ensures Inv(Linked(s, id, x))
  {
    var s' := Linked(s, id, x);
    LinkRows(s, id, x);
    LinkPins(s, s', id, x);
    LinkPermits(s, s', id, x);
    LinkSpacing(s, s', id, x);
    LinkLog(s, s', id, x);
    LinkBudget(s, s', id, x);
    LinkEscaped(s, s', id, x);
    LinkWorkers(s, s', id, x);
  }

  /** Whoever holds a task's permit is alone: no other worker is past its reservation. */
  lemma PermitHolderIsAlone(s: World, w: WorkerId, v: WorkerId)
    requires WorkersInv(s) && w in s.workers && v in s.workers && v != w
    requires s.workers[w].Permitted? || s.workers[w].Prepared? || s.workers[w].Finalizing?
    ensures s.workers[v].Permitted? || s.workers[v].Prepared? || s.workers[v].Finalizing?
              || (s.workers[v].Closing? && s.workers[v].dispatched)
            ==> s.workers[v].id != s.workers[w].id
  {
    assert WorkerOk(s, w, s.workers[w]) && WorkerOk(s, v, s.workers[v]);
  }

  lemma NotYetEscaped(s: World, id: TaskId)
    requires Inv(s) && id !in Invoked(s.past.log)
    ensures id !in s.past.escaped
  {
  }

  /** The completion a dispatcher result turns into is always consistent. */
  lemma ClosedIsConsistent(outcome: FixedOutcome, code: Code, resultId: string, now: int)
    ensures var c := CompletionFor(outcome, code, resultId, now);
            && ValidCompletion(c) && (c.retryable ==> RetryableCode(c.code))
            && (c.status == ManualReview <==> outcome == OutcomeUnknown)
  {
  }

  lemma ClosePermitted(s: World, w: WorkerId, id: TaskId, token: Token, outcome: FixedOutcome, code: Code,
                       resultId: string, now: int)
    requires Inv(s) && !WorkerAt(s, w).Idle? && WorkerAt(s, w).token == token
    requires OwnsPermit(s, id, token)
    requires outcome == OutcomeUnknown || id !in s.past.escaped
    ensures Inv(Moved(s, w, Closed(id, token, outcome, code, resultId, now)))
  {
    hide Inv;
    WorkerFacts(s, w);
    ClosedIsConsistent(outcome, code, resultId, now);
    MoveWorker(s, w, Closed(id, token, outcome, code, resultId, now));
  }

  /** The reuse and conflict branches of preparing are never taken: the audit row of an
      unlinked dispatched task does not exist yet, so this worker creates and starts it. */
  lemma PreparingIsFresh(s: World, w: WorkerId, snapshot: nat, now: int)
    requires Inv(s) && WorkerAt(s, w).Permitted? && WorkerAt(s, w).id in s.db.tasks
    requires HoldsPermit(s.db.tasks[WorkerAt(s, w).id], WorkerAt(s, w).token)
    ensures var t := s.db.tasks[WorkerAt(s, w).id];
            && t.execution.None? && t.spec.Execution() !in s.db.executions
            && PreparedRow(t, Lookup(s.db.executions, t.spec.Execution()), snapshot, now)
                 == (Started(NewExecution(t, snapshot), now), true)
            && SameAction(t, Started(NewExecution(t, snapshot), now), snapshot)
            && LinkFits(s, WorkerAt(s, w).id, Started(NewExecution(t, snapshot), now))
  {
    assert WorkerOk(s, w, WorkerAt(s, w));
    TaskFacts(s, WorkerAt(s, w).id);
  }

  lemma PermittedIsAlone(s: World, w: WorkerId, v: WorkerId)
    requires Inv(s) && WorkerAt(s, w).Permitted? && v in s.workers && v != w && s.workers[v].Permitted?
    ensures s.workers[v].id != s.workers[w].id
  {
    PermitHolderIsAlone(s, w, v);
  }

  lemma PreparedKeeps(s: World, s1: World, w: WorkerId, id: TaskId, token: Token, x: Execution, me': Worker, code: Code,
                      now: int)
    requires Inv(s) && WorkerAt(s, w) == Permitted(id, token) && LinkFits(s, id, x)
    requires OwnsPermit(s, id, token) && id !in Invoked(s.past.log) && id !in s.past.escaped
    requires s1 == Moved(s, w, Closed(id, token, OutcomeFailed, code, "", now)) && Inv(s1)
    requires me' == Prepared(id, token, x.snapshot) || me' == Closed(id, token, OutcomeFailed, code, "", now)
    ensures Inv(Moved(Linked(s1, id, x), w, me'))
  {
    hide Inv;
    forall v | v in s1.workers && s1.workers[v].Permitted? ensures s1.workers[v].id != id {
      PermittedIsAlone(s, w, v);
    }
    LinkExecution(s1, id, x);
    var s2 := Linked(s1, id, x);
    WorkerFacts(s2, w);
    if me'.Prepared? {
      MoveWorker(s2, w, me');
    } else {
      ClosePermitted(s2, w, id, token, OutcomeFailed, code, "", now);
    }
  }

  /** The four ways out of preparing, once the reuse branches are known to be dead. */
  lemma PrepareByParts(s: World, w: WorkerId, id: TaskId, token: Token, x: Execution, snapshot: nat, fate: CommitFate,
                       code: Code, now: int)
    requires WorkerAt(s, w) == Permitted(id, token) && id in s.db.tasks
    requires var t := s.db.tasks[id];
             HoldsPermit(t, token) ==>
               && t.execution.None? && x == Started(NewExecution(t, snapshot), now)
               && PreparedRow(t, Lookup(s.db.executions, t.spec.Execution()), snapshot, now) == (x, true)
               && SameAction(t, x, snapshot)
    ensures var gaveUp := Closed(id, token, OutcomeFailed, code, "", now);
            OnPrepare(s, w, snapshot, fate, code, now) ==
              if !HoldsPermit(s.db.tasks[id], token)
              then Moved(s, w, Closed(id, token, OutcomeFailed, DispatchPermitInvalid, "", now))
              else if fate == Lost then Moved(s, w, gaveUp)
              else Moved(Linked(Moved(s, w, gaveUp), id, x), w,
                         if fate == Durable then Prepared(id, token, snapshot) else gaveUp)
  {
    var gaveUp := Closed(id, token, OutcomeFailed, code, "", now);
    assert s.workers[w := gaveUp][w := Prepared(id, token, snapshot)] == s.workers[w := Prepared(id, token, snapshot)];
    assert s.workers[w := gaveUp][w := gaveUp] == s.workers[w := gaveUp];
  }

  lemma PrepareKeeps(s: World, w: WorkerId, snapshot: nat, fate: CommitFate, code: Code, now: int)
    requires Inv(s)
    ensures Inv(OnPrepare(s, w, snapshot, fate, code, now))
  {
    hide Inv;
    if WorkerAt(s, w).Permitted? && WorkerAt(s, w).id in s.db.tasks {
      var id, token := WorkerAt(s, w).id, WorkerAt(s, w).token;
      var t := s.db.tasks[id];
      var x := Started(NewExecution(t, snapshot), now);
      WorkerFacts(s, w);
      NotYetEscaped(s, id);
      ClosePermitted(s, w, id, token, OutcomeFailed, DispatchPermitInvalid, "", now);
      ClosePermitted(s, w, id, token, OutcomeFailed, code, "", now);
      if HoldsPermit(t, token) {
        PreparingIsFresh(s, w, snapshot, now);
        var gaveUp := Closed(id, token, OutcomeFailed, code, "", now);
        PreparedKeeps(s, Moved(s, w, gaveUp), w, id, token, x,
                      if fate == Durable then Prepared(id, token, snapshot) else gaveUp, code, now);
      }
      PrepareByParts(s, w, id, token, x, snapshot, fate, code, now);
    }
  }

  // ------------------------------------------------------------------- the action

  lemma AppendInvoked(log: seq<Invocation>, i: Invocation)
    ensures Invoked(log + [i]) == Invoked(log) + {i.id}
  {
    var more := log + [i];
    forall x | x in Invoked(log) + {i.id} ensures x in Invoked(more) {
      if x == i.id { assert more[|log|].id == x; }
      else {
        var j :| 0 <= j < |log| && log[j].id == x;
        assert more[j].id == x;
      }
    }
  }

  function Logged(s: World, i: Invocation): World {
    s.(past := s.past.(log := s.past.log + [i]))
  }

  lemma LogWorkers(s: World, s': World, w: WorkerId, i: Invocation)
    requires WorkersInv(s) && s' == Logged(s, i)
    requires w in s.workers && s.workers[w].Finalizing? && s.workers[w].invoked && s.workers[w].id == i.id
    ensures WorkersInv(s')
  {
    AppendInvoked(s.past.log, i);
    forall v | v in s'.workers ensures WorkerOk(s', v, s'.workers[v]) {
      assert WorkerOk(s, v, s.workers[v]);
      if v != w { PermitHolderIsAlone(s, w, v); }
    }
  }

  /** The log and the set of lost records matter to their own parts only. */
  lemma NarrativeApart(s: World, s': World)
    requires TasksInv(s.db) && ExecutionsInv(s.db) && PermitsInv(s) && SettingsInv(s) && SpacingInv(s)
    requires s'.db == s.db && s'.issued == s.issued && s'.past.pinned == s.past.pinned
    requires s'.past.permits == s.past.permits && s'.past.slots == s.past.slots
    ensures TasksInv(s'.db) && ExecutionsInv(s'.db) && PermitsInv(s') && SettingsInv(s') && SpacingInv(s')
  {
    PermitsFrame(s, s');
    SettingsFrame(s, s');
    SpacingFrame(s, s');
  }

  lemma NarrativeBudget(s: World, s': World)
    requires BudgetInv(s) && s'.db == s.db && s'.past.refunded == s.past.refunded
    ensures BudgetInv(s')
  {
    BudgetFrame(s, s');
  }

  lemma LogGrows(s: World, s': World, i: Invocation)
    requires LogInv(s) && s' == Logged(s, i)
    requires i.id !in Invoked(s.past.log) && i.id in s.past.permits && i.permit == s.past.permits[i.id]
    requires i.id in s.past.pinned && SoundInvocation(i, s.past.pinned[i.id])
    requires i.id in s.db.tasks && s.db.tasks[i.id].execution.Some?
    ensures LogInv(s')
  {
    hide SoundInvocation;
    forall j | 0 <= j < |s.past.log| ensures s.past.log[j].id != i.id {}
  }

  lemma EscapedAfterLog(s: World, s': World, i: Invocation)
    requires EscapedInv(s) && s' == Logged(s, i)
    ensures EscapedInv(s')
  {
    AppendInvoked(s.past.log, i);
  }

  lemma LogStore(s: World, s': World, i: Invocation)
    requires StoreInv(s) && s' == Logged(s, i)
    requires i.id !in Invoked(s.past.log) && i.id in s.past.permits && i.permit == s.past.permits[i.id]
    requires i.id in s.past.pinned && SoundInvocation(i, s.past.pinned[i.id])
    requires i.id in s.db.tasks && s.db.tasks[i.id].execution.Some?
    ensures StoreInv(s')
  {
    NarrativeApart(s, s');
    NarrativeBudget(s, s');
    LogGrows(s, s', i);
    EscapedAfterLog(s, s', i);
  }

  lemma LogAction(s: World, w: WorkerId, i: Invocation)
    requires Inv(s)
    requires w in s.workers && s.workers[w].Finalizing? && s.workers[w].invoked && s.workers[w].id == i.id
    requires i.id !in Invoked(s.past.log) && i.id in s.past.permits && i.permit == s.past.permits[i.id]
    requires i.id in s.past.pinned && SoundInvocation(i, s.past.pinned[i.id])
    requires i.id in s.db.tasks && s.db.tasks[i.id].execution.Some?
    ensures Inv(Logged(s, i))
  {
    LogWorkers(s, Logged(s, i), w, i);
    LogStore(s, Logged(s, i), i);
  }

  /** The gate that passed vouches for everything the log promises. */
  lemma GateVouches(s: World, w: WorkerId, env: Environment, now: int)
    requires Inv(s) && WorkerAt(s, w).Prepared? && WorkerAt(s, w).id in s.db.tasks
    requires var me := WorkerAt(s, w);
             var t := s.db.tasks[me.id];
             PermitHolds(t, me.token, Lookup(s.db.executions, t.spec.Execution()), t.spec.Execution(), me.snapshot,
                         Lookup(s.db.settings, t.spec.owner), env, now)
    ensures var me := WorkerAt(s, w);
            && me.id in s.past.permits && s.past.permits[me.id] == me.token && me.id !in Invoked(s.past.log)
            && me.id in s.past.pinned
            && SoundInvocation(Invocation(me.id, me.token, env, s.db, now), s.past.pinned[me.id])
            && s.db.tasks[me.id].execution == Some(s.db.tasks[me.id].spec.Execution())
            && s.db.tasks[me.id].spec.Execution() in s.db.executions
            && s.db.executions[s.db.tasks[me.id].spec.Execution()].status == ExecRunning
            && s.db.executions[s.db.tasks[me.id].spec.Execution()].id == s.db.tasks[me.id].spec.Execution()
  {
    hide Inv, Authorized, GateCode;
    var me := WorkerAt(s, w);
    WorkerFacts(s, w);
    TaskFacts(s, me.id);
    var t := s.db.tasks[me.id];
    ExecutionFacts(s, t.spec.Execution());
    GateGrants(t, Lookup(s.db.settings, t.spec.owner), env);
    PermitGrants(Invocation(me.id, me.token, env, s.db, now), t, Lookup(s.db.executions, t.spec.Execution()),
                 t.spec.Execution(), me.snapshot, Lookup(s.db.settings, t.spec.owner));
  }

  lemma GateGrants(t: Task, row: Option<Setting>, env: Environment)
    requires GateCode(t, GateRequestFor(t.spec), row, env).None?
    ensures row.Some? && row.value.haltedAt.None? && row.value.failures < row.value.content.failureLimit
    ensures row.value.version == t.spec.policyVersion && AccessGranted(env, row.value)
    ensures FeatureEnabled(row.value.content, t.spec.taskType) && t.spec.Action() in row.value.content.allowedActions
  {
  }

  /** The final checks establish everything the log says about the other rows. */
  lemma PermitGrants(i: Invocation, t: Task, x: Option<Execution>, id: ExecutionId, snapshot: nat, row: Option<Setting>)
    requires PermitHolds(t, i.permit, x, id, snapshot, row, i.env, i.clock)
    ensures row.Some? && Authorized(i, t.spec, row.value.content)
  {
  }

  function Escaping(s: World, id: TaskId): World {
    s.(past := s.past.(escaped := s.past.escaped + {id}))
  }

  lemma EscapeWorkers(s: World, s': World, w: WorkerId, id: TaskId)
    requires WorkersInv(s) && s' == Escaping(s, id)
    requires w in s.workers && s.workers[w].Finalizing? && s.workers[w].id == id
    ensures WorkersInv(s')
  {
    forall v | v in s'.workers ensures WorkerOk(s', v, s'.workers[v]) {
      assert WorkerOk(s, v, s.workers[v]);
      if v != w { PermitHolderIsAlone(s, w, v); }
    }
  }

  lemma EscapedGrows(s: World, s': World, id: TaskId)
    requires EscapedInv(s) && s' == Escaping(s, id)
    requires id in Invoked(s.past.log) && id in s.db.tasks && s.db.tasks[id].status == Dispatching
    requires s.db.tasks[id].execution.Some? && s.db.tasks[id].execution.value in s.db.executions
    requires s.db.executions[s.db.tasks[id].execution.value].status == ExecRunning
    ensures EscapedInv(s')
  {
  }

  lemma EscapeStore(s: World, s': World, id: TaskId)
    requires StoreInv(s) && s' == Escaping(s, id)
    requires id in Invoked(s.past.log) && id in s.db.tasks && s.db.tasks[id].status == Dispatching
    requires s.db.tasks[id].execution.Some? && s.db.tasks[id].execution.value in s.db.executions
    requires s.db.executions[s.db.tasks[id].execution.value].status == ExecRunning
    ensures StoreInv(s')
  {
    NarrativeApart(s, s');
    NarrativeBudget(s, s');
    EscapedGrows(s, s', id);
    EscapeLog(s, s', id);
  }

  lemma EscapeLog(s: World, s': World, id: TaskId)
    requires LogInv(s) && s' == Escaping(s, id)
    ensures LogInv(s')
  {
  }

  lemma EscapeAction(s: World, w: WorkerId, id: TaskId)
    requires Inv(s) && w in s.workers && s.workers[w].Finalizing? && s.workers[w].id == id
    requires id in Invoked(s.past.log) && id in s.db.tasks && s.db.tasks[id].status == Dispatching
    requires s.db.tasks[id].execution.Some? && s.db.tasks[id].execution.value in s.db.executions
    requires s.db.executions[s.db.tasks[id].execution.value].status == ExecRunning
    ensures Inv(Escaping(s, id))
  {
    EscapeWorkers(s, Escaping(s, id), w, id);
    EscapeStore(s, Escaping(s, id), id);
  }

  lemma RecordedCloses(x: Execution, outcome: FixedOutcome, code: Code, resultId: string, now: int)
    requires x.status == ExecRunning
    ensures ClosesRunning(x, Recorded(x, outcome, code, resultId, now))
    ensures outcome == OutcomeUnknown ==> Recorded(x, outcome, code, resultId, now).status == ExecManualReview
  {
  }

  /** Recording an outcome for a task whose action did not escape. */
  lemma RecordOutcome(s: World, id: TaskId, key: ExecutionId, outcome: FixedOutcome, code: Code, resultId: string,
                      now: int)
    requires Inv(s) && id in s.db.tasks && s.db.tasks[id].execution == Some(key)
    requires key in s.db.executions && s.db.executions[key].status == ExecRunning
    requires outcome == OutcomeUnknown || id !in s.past.escaped
    ensures Inv(WithExecution(s, key, Recorded(s.db.executions[key], outcome, code, resultId, now)))
  {
    RecordedCloses(s.db.executions[key], outcome, code, resultId, now);
    EndAudit(s, id, key, Recorded(s.db.executions[key], outcome, code, resultId, now));
  }

  /** The action with its record: worker, log and audit row, one after the other. */
  lemma ActedKeeps(s: World, w: WorkerId, id: TaskId, token: Token, key: ExecutionId, env: Environment,
                   reply: ProviderReply, code: Code, now: int)
    requires Inv(s) && WorkerAt(s, w).Prepared? && WorkerAt(s, w).id == id && WorkerAt(s, w).token == token
    requires id in s.past.permits && s.past.permits[id] == token && id !in Invoked(s.past.log)
    requires id in s.past.pinned && SoundInvocation(Invocation(id, token, env, s.db, now), s.past.pinned[id])
    requires id in s.db.tasks && s.db.tasks[id].execution == Some(key) && s.db.tasks[id].status == Dispatching
    requires key in s.db.executions && s.db.executions[key].status == ExecRunning && code != NoCode
    ensures var me := Finalizing(id, token, OutcomeUnknown, code, true);
            var s2 := Moved(Logged(s, Invocation(id, token, env, s.db, now)), w, me);
            var s3 :=
              WithExecution(s2, key,
                            Recorded(s.db.executions[key], OutcomeOf(reply), CodeOf(reply), ResultOf(reply), now));
            && Inv(Escaping(s2, id))
            && Inv(s3)
            && Inv(Moved(s3, w, Closed(id, token, OutcomeOf(reply), CodeOf(reply), ResultOf(reply), now)))
  {
    hide Inv;
    var me := Finalizing(id, token, OutcomeUnknown, code, true);
    var i := Invocation(id, token, env, s.db, now);
    WorkerFacts(s, w);
    MoveWorker(s, w, me);
    var s1 := Moved(s, w, me);
    LogAction(s1, w, i);
    var s2 := Logged(s1, i);
    assert s2 == Moved(Logged(s, i), w, me);
    AppendInvoked(s.past.log, i);
    EscapeAction(s2, w, id);
    NotYetEscaped(s, id);
    RecordOutcome(s2, id, key, OutcomeOf(reply), CodeOf(reply), ResultOf(reply), now);
    var s3 :=
      WithExecution(s2, key, Recorded(s.db.executions[key], OutcomeOf(reply), CodeOf(reply), ResultOf(reply), now));
    ClosePermitted(s3, w, id, token, OutcomeOf(reply), CodeOf(reply), ResultOf(reply), now);
  }

  lemma ActByParts(s: World, w: WorkerId, id: TaskId, token: Token, snapshot: nat, key: ExecutionId, env: Environment,
                   reply: ProviderReply, fate: CommitFate, code: Code, now: int)
    requires WorkerAt(s, w) == Prepared(id, token, snapshot) && id in s.db.tasks
    requires key == s.db.tasks[id].spec.Execution()
    requires key in s.db.executions
    requires PermitHolds(s.db.tasks[id], token, Some(s.db.executions[key]), key, snapshot,
                         Lookup(s.db.settings, s.db.tasks[id].spec.owner), env, now)
    ensures var held := Finalizing(id, token, OutcomeUnknown, OrElse(code, DispatchOutcomeUnknown), true);
            var s2 := Moved(Logged(s, Invocation(id, token, env, s.db, now)), w, held);
            var s3 :=
              WithExecution(s2, key,
                            Recorded(s.db.executions[key], OutcomeOf(reply), CodeOf(reply), ResultOf(reply), now));
            OnAct(s, w, env, reply, fate, code, now) ==
              match fate
              case Lost => Escaping(s2, id)
              case Durable => Moved(s3, w, Closed(id, token, OutcomeOf(reply), CodeOf(reply), ResultOf(reply), now))
              case DurableButReportedLost => s3
  {
    var held := Finalizing(id, token, OutcomeUnknown, OrElse(code, DispatchOutcomeUnknown), true);
    var closed := Closed(id, token, OutcomeOf(reply), CodeOf(reply), ResultOf(reply), now);
    assert s.workers[w := held][w := closed] == s.workers[w := closed];
  }

  lemma ActKeepsWhenAllowed(s: World, w: WorkerId, env: Environment, reply: ProviderReply, fate: CommitFate, code: Code,
                            now: int)
    requires Inv(s) && WorkerAt(s, w).Prepared? && WorkerAt(s, w).id in s.db.tasks
    requires var me := WorkerAt(s, w);
             var t := s.db.tasks[me.id];
             PermitHolds(t, me.token, Lookup(s.db.executions, t.spec.Execution()), t.spec.Execution(), me.snapshot,
                         Lookup(s.db.settings, t.spec.owner), env, now)
    ensures Inv(OnAct(s, w, env, reply, fate, code, now))
  {
    hide Inv;
    var me := WorkerAt(s, w);
    var key := s.db.tasks[me.id].spec.Execution();
    GateVouches(s, w, env, now);
    ActedKeeps(s, w, me.id, me.token, key, env, reply, OrElse(code, DispatchOutcomeUnknown), now);
    ActByParts(s, w, me.id, me.token, me.snapshot, key, env, reply, fate, code, now);
  }

  lemma RefusedKeeps(s: World, w: WorkerId, code: Code, now: int)
    requires Inv(s) && WorkerAt(s, w).Prepared? && WorkerAt(s, w).id in s.db.tasks && code != NoCode
    ensures var me := WorkerAt(s, w);
            var key := s.db.tasks[me.id].spec.Execution();
            var refused := if key in s.db.executions && s.db.executions[key].status == ExecRunning
                           then WithExecution(s, key, FailedExecution(s.db.executions[key], DispatchPermitInvalid, now))
                           else s;
            && Inv(Moved(s, w, Finalizing(me.id, me.token, OutcomeFailed, code, false)))
            && Inv(Moved(refused, w, Finalizing(me.id, me.token, OutcomeFailed, code, false)))
            && Inv(Moved(refused, w, Closed(me.id, me.token, OutcomeFailed, DispatchPermitInvalid, "", now)))
  {
    hide Inv;
    var me := WorkerAt(s, w);
    var key := s.db.tasks[me.id].spec.Execution();
    WorkerFacts(s, w);
    TaskFacts(s, me.id);
    NotYetEscaped(s, me.id);
    MoveWorker(s, w, Finalizing(me.id, me.token, OutcomeFailed, code, false));
    var refused := s;
    if s.db.executions[key].status == ExecRunning {
      RecordOutcome(s, me.id, key, OutcomeFailed, DispatchPermitInvalid, "", now);
      refused := WithExecution(s, key, FailedExecution(s.db.executions[key], DispatchPermitInvalid, now));
    }
    WorkerFacts(refused, w);
    MoveWorker(refused, w, Finalizing(me.id, me.token, OutcomeFailed, code, false));
    ClosePermitted(refused, w, me.id, me.token, OutcomeFailed, DispatchPermitInvalid, "", now);
  }

  lemma RefusedByParts(s: World, w: WorkerId, id: TaskId, token: Token, snapshot: nat, key: ExecutionId,
                       env: Environment, reply: ProviderReply, fate: CommitFate, code: Code, now: int)
    requires WorkerAt(s, w) == Prepared(id, token, snapshot) && id in s.db.tasks
    requires key == s.db.tasks[id].spec.Execution()
    requires !PermitHolds(s.db.tasks[id], token, Lookup(s.db.executions, key), key, snapshot,
                          Lookup(s.db.settings, s.db.tasks[id].spec.owner), env, now)
    ensures var refused := if key in s.db.executions && s.db.executions[key].status == ExecRunning
                           then WithExecution(s, key, FailedExecution(s.db.executions[key], DispatchPermitInvalid, now))
                           else s;
            var pending := Finalizing(id, token, OutcomeFailed, OrElse(code, DispatchGateUnavailable), false);
            OnAct(s, w, env, reply, fate, code, now) ==
              match fate
              case Lost => Moved(s, w, pending)
              case Durable => Moved(refused, w, Closed(id, token, OutcomeFailed, DispatchPermitInvalid, "", now))
              case DurableButReportedLost => Moved(refused, w, pending)
  {
  }

  lemma ActKeeps(s: World, w: WorkerId, env: Environment, reply: ProviderReply, fate: CommitFate, code: Code, now: int)
    requires Inv(s)
    ensures Inv(OnAct(s, w, env, reply, fate, code, now))
  {
    hide Inv;
    if WorkerAt(s, w).Prepared? && WorkerAt(s, w).id in s.db.tasks {
      var me := WorkerAt(s, w);
      var t := s.db.tasks[me.id];
      if PermitHolds(t, me.token, Lookup(s.db.executions, t.spec.Execution()), t.spec.Execution(), me.snapshot,
                     Lookup(s.db.settings, t.spec.owner), env, now) {
        ActKeepsWhenAllowed(s, w, env, reply, fate, code, now);
      } else {
        RefusedKeeps(s, w, OrElse(code, DispatchGateUnavailable), now);
        RefusedByParts(s, w, me.id, me.token, me.snapshot, t.spec.Execution(), env, reply, fate, code, now);
      }
    }
  }

  lemma GateRaisesKeeps(s: World, w: WorkerId, code: Code)
    requires Inv(s)
    ensures Inv(OnGateRaises(s, w, code))
  {
    hide Inv;
    var me := WorkerAt(s, w);
    if me.Prepared? {
      WorkerFacts(s, w);
      var pending := Finalizing(me.id, me.token, OutcomeFailed, OrElse(code, DispatchGateUnavailable), false);
      MoveWorker(s, w, pending);
      assert OnGateRaises(s, w, code) == Moved(s, w, pending);
    }
  }

  lemma FinalizeByParts(s: World, w: WorkerId, me: Worker, key: ExecutionId, swallowed: bool, now: int)
    requires WorkerAt(s, w) == me && me.Finalizing? && me.id in s.db.tasks && key == s.db.tasks[me.id].spec.Execution()
    requires key in s.db.executions
    ensures var closed := Moved(s, w, Closed(me.id, me.token, me.outcome, me.code, "", now));
            OnFinalize(s, w, swallowed, now) ==
              if swallowed || s.db.executions[key].status != ExecRunning then closed
              else WithExecution(closed, key, Recorded(s.db.executions[key], me.outcome, me.code, "", now))
  {
  }

  lemma FinalizeKeeps(s: World, w: WorkerId, swallowed: bool, now: int)
    requires Inv(s)
    ensures Inv(OnFinalize(s, w, swallowed, now))
  {
    hide Inv;
    var me := WorkerAt(s, w);
    if me.Finalizing? && me.id in s.db.tasks {
      var key := s.db.tasks[me.id].spec.Execution();
      WorkerFacts(s, w);
      TaskFacts(s, me.id);
      if !me.invoked { NotYetEscaped(s, me.id); }
      ClosePermitted(s, w, me.id, me.token, me.outcome, me.code, "", now);
      var closed := Moved(s, w, Closed(me.id, me.token, me.outcome, me.code, "", now));
      if s.db.executions[key].status == ExecRunning {
        RecordOutcome(closed, me.id, key, me.outcome, me.code, "", now);
      }
      FinalizeByParts(s, w, me, key, swallowed, now);
    }
  }

  lemma DispatcherRaisesKeeps(s: World, w: WorkerId)
    requires Inv(s)
    ensures Inv(OnDispatcherRaises(s, w))
  {
    hide Inv;
    var me := WorkerAt(s, w);
    if me.Permitted? || me.Finalizing? {
      WorkerFacts(s, w);
      ClosePermitted(s, w, me.id, me.token, OutcomeUnknown, DispatchOutcomeUnknown, "", 0);
      assert OnDispatcherRaises(s, w)
             == Moved(s, w, Closed(me.id, me.token, OutcomeUnknown, DispatchOutcomeUnknown, "", 0));
    }
  }
}
