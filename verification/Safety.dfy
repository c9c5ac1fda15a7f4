/** What holds over every run of the protocol from an empty store: whatever the
    interleaving of workers, crashes, lost transactions, recovery sweeps, user
    cancellations and reconfigurations. */
module Safety {
  import opened Vocabulary
  import opened Policies
  import opened Transitions
  import opened Protocol
  import opened Invariant
  import opened Frames
  import opened Endings
  import opened EndSteps
  import opened ActionSteps
  import opened Runs
  import opened Progress

  function After(events: seq<Event>): World {
    Run(START, events)
  }

  lemma EveryStateIsSound(events: seq<Event>)
    ensures Inv(After(events))
  {
    hide Inv;
    StartIsSound();
    RunKeeps(START, events);
  }

  lemma AfterMore(first: seq<Event>, rest: seq<Event>)
    ensures After(first + rest) == Run(After(first), rest)
  {
    RunSplits(START, first, rest);
  }

  lemma AfterOne(first: seq<Event>, e: Event)
    ensures After(first + [e]) == Step(After(first), e)
  {
    AfterMore(first, [e]);
    assert Run(After(first), [e]) == Run(Step(After(first), e), []);
  }

  // ------------------------------------------------------- at most one action

  /** No task's external action is ever performed twice. */
  lemma AtMostOneAction(events: seq<Event>, i: nat, j: nat)
    requires i < j < |After(events).past.log|
    ensures After(events).past.log[i].id != After(events).past.log[j].id
  {
    EveryStateIsSound(events);
    OncePerTask(After(events), i, j);
  }

  lemma OncePerTask(s: World, i: nat, j: nat)
    requires LogInv(s) && i < j < |s.past.log|
    ensures s.past.log[i].id != s.past.log[j].id
  {
  }

  /** Every action was performed by one step of the run, with the tables as that step
      found them: the task dispatching under the permit it holds, its own audit row
      running, the owner granted access, not halted and below the failure limit, the policy
      row still carrying the content that the task was created under, inside its active
      hours, and every version, connection, target and source check of the gate passed. */
  lemma {:induction false} ActionsAreAuthorized(events: seq<Event>, i: nat)
    requires i < |After(events).past.log|
    ensures var entry := After(events).past.log[i];
            && entry.id in After(events).past.pinned
            && SoundInvocation(entry, After(events).past.pinned[entry.id])
    ensures exists n :: 0 <= n < |events| && events[n].Act? && |After(events[..n]).past.log| == i
              && After(events[..n]).db == After(events).past.log[i].at
  {
    EveryStateIsSound(events);
    LoggedIsSound(After(events), i);
    ActionHappened(events, i);
  }

  lemma LoggedIsSound(s: World, i: nat)
    requires LogInv(s) && i < |s.past.log|
    ensures s.past.log[i].id in s.past.pinned && SoundInvocation(s.past.log[i], s.past.pinned[s.past.log[i].id])
  {
  }

  lemma {:induction false} ActionHappened(events: seq<Event>, i: nat)
    requires i < |After(events).past.log|
    ensures exists n :: 0 <= n < |events| && events[n].Act? && |After(events[..n]).past.log| == i
              && After(events[..n]).db == After(events).past.log[i].at
    decreases |events|
  {
    hide Inv, Step;
    if events != [] {
      var n := |events| - 1;
      var before, e := events[..n], events[n];
      assert events == before + [e];
      AfterOne(before, e);
      EveryStateIsSound(before);
      StepLog(After(before), e);
      if i < |After(before).past.log| {
        ActionHappened(before, i);
        var m :| 0 <= m < |before| && before[m].Act? && |After(before[..m]).past.log| == i
                 && After(before[..m]).db == After(before).past.log[i].at;
        assert events[..m] == before[..m];
      } else {
        if !e.Act? { LogLeft(After(before), e); }
      }
    }
  }

  // ------------------------------------------------------------ nothing undone

  /** Over any stretch of a run an ended row is frozen, a dispatched task stays dispatched
      until it ends, and reservations and links stay. */
  ghost predicate EverOnward(t: Task, t': Task) {
    && t'.spec == t.spec && t'.attempts >= t.attempts
    && (t.status.Terminal() ==> t' == t)
    && (t.status == Dispatching ==>
          || (t'.status == Dispatching && t'.token == t.token)
          || t'.status in {Succeeded, Failed, Stale, ManualReview})
    && (t.budgetDay.Some? ==> t'.budgetDay == t.budgetDay && t'.dispatchStartedAt == t.dispatchStartedAt)
    && (t.execution.Some? ==> t'.execution == t.execution)
  }

  lemma EverOnwardChains(t: Task, t1: Task, t2: Task, claimed: bool)
    requires Onward(t, t1, claimed) && EverOnward(t1, t2)
    ensures EverOnward(t, t2)
  {
  }

  lemma {:induction false} RunOnward(s: World, events: seq<Event>, id: TaskId)
    requires Inv(s) && id in s.db.tasks
    ensures id in Run(s, events).db.tasks && EverOnward(s.db.tasks[id], Run(s, events).db.tasks[id])
    decreases |events|
  {
    hide Inv, Step;
    if events != [] {
      var s1 := Step(s, events[0]);
      StepOnward(s, events[0]);
      StepKeeps(s, events[0]);
      RunOnward(s1, events[1..], id);
      EverOnwardChains(s.db.tasks[id], s1.db.tasks[id], Run(s, events).db.tasks[id], id in Taken(s, events[0]));
    }
  }

  /** Ends are final, and dispatching is a one-way door. */
  lemma NothingIsUndone(first: seq<Event>, rest: seq<Event>, id: TaskId)
    requires id in After(first).db.tasks
    ensures id in After(first + rest).db.tasks
    ensures EverOnward(After(first).db.tasks[id], After(first + rest).db.tasks[id])
  {
    hide Inv;
    EveryStateIsSound(first);
    AfterMore(first, rest);
    RunOnward(After(first), rest, id);
  }

  /** A task that reached dispatching is never claimable again, by any clock. */
  lemma DispatchedIsNeverClaimable(first: seq<Event>, rest: seq<Event>, id: TaskId, now: int)
    requires id in After(first).db.tasks && After(first).db.tasks[id].status == Dispatching
    ensures id in After(first + rest).db.tasks && !Claimable(After(first + rest).db.tasks[id], now)
  {
    NothingIsUndone(first, rest, id);
  }

  // --------------------------------------------------------------- how tasks end

  lemma TaskIsSound(s: World, id: TaskId)
    requires Inv(s) && id in s.db.tasks
    ensures TaskOk(id, s.db.tasks[id]) && LinkOk(s.db, s.db.tasks[id])
  {
  }

  /** Every ended task agrees with its audit row: nothing is left queued or running, the
      statuses match, and only the unknown ends are in manual review. */
  lemma EndsAgree(events: seq<Event>, id: TaskId)
    requires id in After(events).db.tasks && After(events).db.tasks[id].status.Terminal()
    ensures var s := After(events);
            var t := s.db.tasks[id];
            && (t.unknown <==> t.status == ManualReview)
            && (t.budgetDay.Some? && t.execution.None? ==> t.status == Failed && t.spec.Execution() !in s.db.executions)
            && (t.execution.Some? ==>
                  && t.execution.value in s.db.executions
                  && var x := s.db.executions[t.execution.value];
                  && Bound(t, x) && x.status !in {ExecQueued, ExecRunning, ExecCancelled}
                  && (t.status == Succeeded ==> x.status == ExecSucceeded && t.resultId == x.resultId)
                  && (t.status == Failed ==> x.status == ExecFailed && t.code == x.code)
                  && (t.status == Stale ==>
                        x.status == ExecFailed && t.code == x.code && x.code == LocalMessageSourceStale)
                  && (x.status == ExecManualReview ==> t.status == ManualReview)
                  && t.status != Cancelled)
            && (t.status == Succeeded ==> t.execution.Some?)
  {
    hide Inv;
    EveryStateIsSound(events);
    TaskIsSound(After(events), id);
  }

  /** A task whose action was performed never ends cancelled, and it reads succeeded only
      when its audit row does. */
  lemma PerformedIsNeverCancelled(events: seq<Event>, i: nat)
    requires i < |After(events).past.log|
    ensures var s := After(events);
            var id := s.past.log[i].id;
            && id in s.db.tasks && s.db.tasks[id].execution.Some?
            && s.db.tasks[id].execution.value in s.db.executions
            && s.db.tasks[id].status in {Dispatching, Succeeded, Failed, Stale, ManualReview}
            && (s.db.tasks[id].status == Succeeded ==>
                  s.db.executions[s.db.tasks[id].execution.value].status == ExecSucceeded)
  {
    hide Inv;
    EveryStateIsSound(events);
    LoggedIsLinked(After(events), i);
    TaskIsSound(After(events), After(events).past.log[i].id);
  }

  lemma LoggedIsLinked(s: World, i: nat)
    requires Inv(s) && i < |s.past.log|
    ensures s.past.log[i].id in s.db.tasks && s.db.tasks[s.past.log[i].id].execution.Some?
  {
  }

  /** When the action was performed but its record was lost, the task has either not ended
      or ended in manual review. */
  lemma LostRecordEndsInReview(events: seq<Event>, id: TaskId)
    requires id in After(events).past.escaped
    ensures var s := After(events);
            && id in Invoked(s.past.log) && id in s.db.tasks
            && s.db.tasks[id].status in {Dispatching, ManualReview}
            && (s.db.tasks[id].status == ManualReview ==> s.db.tasks[id].unknown)
  {
    hide Inv;
    EveryStateIsSound(events);
    EscapedIsHeld(After(events), id);
    TaskIsSound(After(events), id);
  }

  lemma EscapedIsHeld(s: World, id: TaskId)
    requires Inv(s) && id in s.past.escaped
    ensures id in Invoked(s.past.log) && id in s.db.tasks && s.db.tasks[id].status in {Dispatching, ManualReview}
  {
  }

  // ------------------------------------------------ unknown outcomes stop the owner

  /** The row and ledger changes of an end in manual review. */
  ghost predicate ReviewRecorded(s: World, s': World, id: TaskId)
    requires id in s.db.tasks
  {
    var t := s.db.tasks[id];
    && id in s'.db.tasks && s'.db.tasks[id].unknown && t.budgetDay.Some?
    && t.spec.owner in s.db.settings && t.spec.owner in s'.db.settings
    && UsageKey(t) in s.db.usages && UsageKey(t) in s'.db.usages
    && var row, row' := s.db.settings[t.spec.owner], s'.db.settings[t.spec.owner];
    && var u, u' := s.db.usages[UsageKey(t)], s'.db.usages[UsageKey(t)];
    && row'.haltedAt.Some? && row'.nextRunAt.None? && row'.failures == row.failures + 1
    && u'.failed == u.failed + 1 && u'.unknown == u.unknown + 1 && u'.total == u.total
  }

  lemma EndInReview(s: World, s': World, id: TaskId, c: Completion, now: int)
    requires Inv(s) && id in s.db.tasks && s.db.tasks[id].status == Dispatching && ValidCompletion(c)
    requires id in s.past.escaped ==> c.status == ManualReview
    requires s' == EndedBy(s, id, c, now) && id in s'.db.tasks && s'.db.tasks[id].status == ManualReview
    ensures ReviewRecorded(s, s', id)
  {
    hide Inv, Finish, Resolve, GrantsRetry;
    DispatchedRows(s, id, c, now);
    DispatchedEndHasNoFault(s, id, c, now);
    TaskFacts(s, id);
    FinishWritesUnknown(RowsFor(s.db, s.db.tasks[id]), c, now);
    UnknownEndHalts(RowsFor(s.db, s.db.tasks[id]), c, now);
  }

  lemma ReviewIsUnknown(t: Task, x: Option<Execution>, c: Completion, now: int)
    requires t.status == Dispatching && ValidCompletion(c)
    ensures Resolve(t, x, c, now).status == ManualReview ==> Resolve(t, x, c, now).unknown
  {
    hide Bound, OrElse, Clip;
  }

  lemma FinishWritesUnknown(r: Rows, c: Completion, now: int)
    requires Finish(r, c, now).Success?
    requires r.task.status == Dispatching && r.setting.Some? && r.usage.Some? && ValidCompletion(c)
    ensures var after := Finish(r, c, now).value;
            after.setting.Some? && after.usage.Some? && (after.task.status == ManualReview ==> after.task.unknown)
  {
    hide Resolve, SettingAfter, Outcomes, GrantsRetry, ValidCompletion;
    ReviewIsUnknown(r.task, r.execution, c, now);
  }

  /** Only a completion or the sweep ends a dispatched task. */
  lemma DispatchSurvives(s: World, e: Event, id: TaskId)
    requires Inv(s) && id in s.db.tasks && s.db.tasks[id].status == Dispatching
    requires !e.Complete? && !e.SweepExpired?
    ensures id in Step(s, e).db.tasks && Step(s, e).db.tasks[id].status == Dispatching
  {
    hide Inv, OnReserve, OnClaim, OnBeginGeneration, OnRenewLease, OnDefer, OnPrepare, OnEnqueue, OnCancelTask;
    if LeavesTasks(e) {
      TasksLeft(s, e);
    } else {
      match e {
        case ReserveDispatch(w, env, permit, now) => ReserveLeavesDispatched(s, w, env, permit, now, id);
        case BeginGeneration(w, now, leaseUntil) => LeaseLeavesDispatched(s, w, Unmoved, now, leaseUntil, id);
        case RenewLease(w, head, now, leaseUntil) =>
          LeaseLeavesDispatched(s, w, head, now, leaseUntil, id);
        case Defer(w) => LeaseLeavesDispatched(s, w, Unmoved, 0, 0, id);
        case PrepareExecution(w, snapshot, fate, code, now) =>
          PrepareLeavesDispatched(s, w, snapshot, fate, code, now, id);
        case _ => QueueLeavesDispatched(s, e, id);
      }
    }
  }

  lemma QueueLeavesDispatched(s: World, e: Event, id: TaskId)
    requires id in s.db.tasks && s.db.tasks[id].status == Dispatching
    requires e.Enqueue? || e.CancelTask? || e.Claim?
    ensures id in Step(s, e).db.tasks && Step(s, e).db.tasks[id].status == Dispatching
  {
    hide WellFormedSpec;
  }

  lemma LeaseLeavesDispatched(s: World, w: WorkerId, head: Head, now: int, leaseUntil: int, id: TaskId)
    requires id in s.db.tasks && s.db.tasks[id].status == Dispatching
    ensures OnBeginGeneration(s, w, now, leaseUntil).db.tasks.Keys == s.db.tasks.Keys
    ensures OnBeginGeneration(s, w, now, leaseUntil).db.tasks[id].status == Dispatching
    ensures OnRenewLease(s, w, head, now, leaseUntil).db.tasks.Keys == s.db.tasks.Keys
    ensures OnRenewLease(s, w, head, now, leaseUntil).db.tasks[id].status == Dispatching
    ensures OnDefer(s, w).db.tasks.Keys == s.db.tasks.Keys
    ensures OnDefer(s, w).db.tasks[id].status == Dispatching
  {
    hide QuietWindowEnd, TooLate;
  }

  lemma PrepareLeavesDispatched(s: World, w: WorkerId, snapshot: nat, fate: CommitFate, code: Code, now: int,
                                id: TaskId)
    requires id in s.db.tasks && s.db.tasks[id].status == Dispatching
    ensures id in OnPrepare(s, w, snapshot, fate, code, now).db.tasks
    ensures OnPrepare(s, w, snapshot, fate, code, now).db.tasks[id].status == Dispatching
  {
    hide CompletionFor, PreparedRow, SameAction;
  }

  lemma ReserveLeavesDispatched(s: World, w: WorkerId, env: Environment, permit: Token, now: int, id: TaskId)
    requires id in s.db.tasks && s.db.tasks[id].status == Dispatching
    ensures id in OnReserve(s, w, env, permit, now).db.tasks
    ensures OnReserve(s, w, env, permit, now).db.tasks[id].status == Dispatching
  {
    hide GateCode, EarliestNext;
  }

  lemma ReviewAfterCompletion(s: World, s': World, w: WorkerId, now: int, id: TaskId)
    requires Inv(s) && id in s.db.tasks && s.db.tasks[id].status == Dispatching
    requires s' == OnComplete(s, w, now) && id in s'.db.tasks && s'.db.tasks[id].status == ManualReview
    ensures ReviewRecorded(s, s', id)
  {
    hide Inv, EndedBy, ValidCompletion, ReviewRecorded;
    var me := WorkerAt(s, w);
    if me.Closing? && me.id in s.db.tasks && MayFinish(s.db.tasks[me.id], me.token) {
      var idle := Moved(s, w, Idle);
      ClosingFacts(s, w);
      MoveWorker(s, w, Idle);
      EndedShape(idle, me.id, me.completion, now);
      EndInReview(idle, s', me.id, me.completion, now);
      ReviewOf(s, idle, s', id);
    }
  }

  lemma ReviewOf(s: World, idle: World, s': World, id: TaskId)
    requires idle.db == s.db && id in s.db.tasks && ReviewRecorded(idle, s', id)
    ensures ReviewRecorded(s, s', id)
  {
  }

  lemma ReviewAfterSweep(s: World, s': World, swept: TaskId, before: int, code: Code, now: int, id: TaskId)
    requires Inv(s) && id in s.db.tasks && s.db.tasks[id].status == Dispatching
    requires s' == OnSweep(s, swept, before, code, now) && id in s'.db.tasks && s'.db.tasks[id].status == ManualReview
    ensures ReviewRecorded(s, s', id)
  {
    hide Inv, EndedBy, ValidCompletion, RecoveryCompletion, ReviewRecorded;
    if swept in s.db.tasks && Expired(s.db.tasks[swept], before) && code != NoCode {
      var c := RecoveryCompletion(s.db.tasks[swept], RowsFor(s.db, s.db.tasks[swept]).execution, code);
      SweepIsEnd(s, swept, before, code, now);
      EndedShape(s, swept, c, now);
      EndInReview(s, s', swept, c, now);
    }
  }

  lemma ReviewAfterStep(s: World, s': World, e: Event, id: TaskId)
    requires Inv(s) && id in s.db.tasks && s.db.tasks[id].status == Dispatching
    requires s' == Step(s, e) && id in s'.db.tasks && s'.db.tasks[id].status == ManualReview
    ensures ReviewRecorded(s, s', id)
  {
    hide Inv, ReviewRecorded, OnComplete, OnSweep;
    match e
    case Complete(w, now) => ReviewAfterCompletion(s, s', w, now, id);
    case SweepExpired(swept, before, code, now) => ReviewAfterSweep(s, s', swept, before, code, now, id);
    case _ => DispatchSurvives(s, e, id);
  }

  lemma {:induction false} HaltedIsSilent(s: World, events: seq<Event>, o: OwnerId)
    requires Inv(s) && o in s.db.settings && s.db.settings[o].haltedAt.Some?
    requires forall i :: 0 <= i < |events| ==> !Configures(events[i], o)
    ensures var s' := Run(s, events);
            && s.past.log <= s'.past.log
            && forall i :: |s.past.log| <= i < |s'.past.log| ==> s'.past.log[i].id.owner != o
    decreases |events|
  {
    hide Inv, Step;
    if events != [] {
      var s1 := Step(s, events[0]);
      StepKeeps(s, events[0]);
      StepPolicies(s, events[0]);
      StepLog(s, events[0]);
      HaltedIsSilent(s1, events[1..], o);
    }
  }

  /** While an owner is halted, nothing is performed for them until they configure again. */
  lemma HaltedOwnerStaysSilent(first: seq<Event>, rest: seq<Event>, o: OwnerId)
    requires o in After(first).db.settings && After(first).db.settings[o].haltedAt.Some?
    requires forall i :: 0 <= i < |rest| ==> !Configures(rest[i], o)
    ensures var s, s' := After(first), After(first + rest);
            && s.past.log <= s'.past.log
            && forall i :: |s.past.log| <= i < |s'.past.log| ==> s'.past.log[i].id.owner != o
  {
    hide Inv;
    EveryStateIsSound(first);
    AfterMore(first, rest);
    HaltedIsSilent(After(first), rest, o);
  }

  /** The step that ends a dispatched task in manual review counts a failure, halts the
      owner and tallies the day; after it nothing is performed for that owner until they
      configure again.  A task whose record was lost ends only this way. */
  lemma UnknownOutcomeStopsTheOwner(first: seq<Event>, e: Event, rest: seq<Event>, id: TaskId)
    requires id in After(first).db.tasks && After(first).db.tasks[id].status == Dispatching
    requires id in After(first + [e]).db.tasks && After(first + [e]).db.tasks[id].status == ManualReview
    requires forall i :: 0 <= i < |rest| ==> !Configures(rest[i], id.owner)
    ensures ReviewRecorded(After(first), After(first + [e]), id)
    ensures var s, s' := After(first + [e]), After(first + [e] + rest);
            && s.past.log <= s'.past.log
            && forall i :: |s.past.log| <= i < |s'.past.log| ==> s'.past.log[i].id.owner != id.owner
  {
    hide Inv, Step;
    EveryStateIsSound(first);
    AfterOne(first, e);
    ReviewAfterStep(After(first), After(first + [e]), e, id);
    TaskFacts(After(first), id);
    HaltedOwnerStaysSilent(first + [e], rest, id.owner);
  }

  // ------------------------------------------------------------ policy versions

  lemma {:induction false} RunForward(s: World, events: seq<Event>, o: OwnerId)
    requires Inv(s) && o in s.db.settings
    ensures o in Run(s, events).db.settings && Forward(s.db.settings[o], Run(s, events).db.settings[o])
    decreases |events|
  {
    hide Inv, Step;
    if events != [] {
      StepKeeps(s, events[0]);
      StepPolicies(s, events[0]);
      RunForward(Step(s, events[0]), events[1..], o);
    }
  }

  /** A version denotes one content: over any stretch of a run the version never goes back,
      and where it is the same, so is the content. */
  lemma VersionsDenoteContent(first: seq<Event>, rest: seq<Event>, o: OwnerId)
    requires o in After(first).db.settings
    ensures var s, s' := After(first), After(first + rest);
            && o in s'.db.settings
            && s'.db.settings[o].version >= s.db.settings[o].version
            && (s'.db.settings[o].version == s.db.settings[o].version ==>
                  s'.db.settings[o].content == s.db.settings[o].content)
  {
    hide Inv;
    EveryStateIsSound(first);
    AfterMore(first, rest);
    RunForward(After(first), rest, o);
  }

  // ------------------------------------------------------------- dead branches

  /** No two workers are past the reservation of the same task. */
  lemma OneWorkerPerPermit(events: seq<Event>, v: WorkerId, w: WorkerId)
    requires v != w && PastReservation(WorkerAt(After(events), v)) && PastReservation(WorkerAt(After(events), w))
    ensures WorkerAt(After(events), v).id != WorkerAt(After(events), w).id
  {
    hide Inv;
    EveryStateIsSound(events);
    WorkerFacts(After(events), v);
    WorkerFacts(After(events), w);
  }

  ghost predicate PastReservation(me: Worker) {
    me.Permitted? || me.Prepared? || me.Finalizing? || (me.Closing? && me.dispatched)
  }

  /** An audit row that is still queued never belongs to an unattended task. */
  lemma QueuedRowsAreUserOwned(events: seq<Event>, key: ExecutionId)
    requires key in After(events).db.executions && After(events).db.executions[key].status == ExecQueued
    ensures key.key.UserScoped?
  {
    hide Inv;
    EveryStateIsSound(events);
    QueuedIsUserOwned(After(events), key);
  }

  /** Preparing never meets an existing audit row: it always creates, links and starts a new
      one, so the reuse, re-entry and conflict branches are dead. */
  lemma PreparingNeverReuses(events: seq<Event>, w: WorkerId, snapshot: nat, now: int)
    requires var s := After(events);
             && WorkerAt(s, w).Permitted? && WorkerAt(s, w).id in s.db.tasks
             && HoldsPermit(s.db.tasks[WorkerAt(s, w).id], WorkerAt(s, w).token)
    ensures var s := After(events);
            var t := s.db.tasks[WorkerAt(s, w).id];
            && t.spec.Execution() !in s.db.executions && t.execution.None?
            && PreparedRow(t, Lookup(s.db.executions, t.spec.Execution()), snapshot, now)
                 == (Started(NewExecution(t, snapshot), now), true)
            && SameAction(t, Started(NewExecution(t, snapshot), now), snapshot)
  {
    hide Inv;
    EveryStateIsSound(events);
    PreparingIsFresh(After(events), w, snapshot, now);
  }

  /** In every reachable state the recovery sweep of a task is the end that a surviving
      worker's matching completion would write, and that completion asks for review when
      the action's record was lost. */
  lemma SweepAgreesWithCompletion(events: seq<Event>, id: TaskId, before: int, code: Code, now: int)
    requires id in After(events).db.tasks && Expired(After(events).db.tasks[id], before) && code != NoCode
    ensures var s := After(events);
            var c := RecoveryCompletion(s.db.tasks[id], RowsFor(s.db, s.db.tasks[id]).execution, code);
            && OnSweep(s, id, before, code, now) == EndedBy(s, id, c, now)
            && ValidCompletion(c) && !c.retryable
            && (id in s.past.escaped ==> c.status == ManualReview)
  {
    hide Inv, EndedBy, OnSweep, RecoveryCompletion, ValidCompletion;
    EveryStateIsSound(events);
    SweepIsEnd(After(events), id, before, code, now);
  }
}
