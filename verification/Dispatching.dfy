/** The last part of a worker's way, event by event and as a whole: what preparing, acting,
    recording and completing do, and how a task reads after each answer of the provider. */
module Dispatching {
  import opened Vocabulary
  import opened Policies
  import opened Transitions
  import opened Protocol
  import opened Invariant
  import opened Frames
  import opened EndRules
  import opened EndSteps
  import opened Progress
  import opened Safety
  import opened Streaks

  // ------------------------------------------------------------- completions

  /** What a worker asks for after each outcome: a success with its result, a review, or a
      failure, which is stale when the source was, and may be retried five minutes later
      when discovery was unavailable and for no other reason. */
  lemma CompletionsByOutcome(outcome: FixedOutcome, code: Code, result: string, now: int)
    ensures var c := CompletionFor(outcome, code, result, now);
            && ValidCompletion(c)
            && match outcome
               case OutcomeSucceeded => c.status == Succeeded && c.resultId == result
               case OutcomeUnknown =>
                 c.status == ManualReview && c.code == (if code == NoCode then DispatchOutcomeUnknown else code)
               case OutcomeFailed =>
                 && c.code == (if code == NoCode then DispatchGateUnavailable else code)
                 && c.status == (if code == LocalMessageSourceStale then Stale else Failed)
                 && (c.retryable <==> code == ExternalDiscoveryUnavailable)
                 && (c.retryable ==> c.retryAt == Some(now + 300))
  {
  }

  // ------------------------------------------------------------------- acting

  /** The tables, the worker and the log as the final gate finds them. */
  ghost predicate GateHolds(s: World, w: WorkerId, env: Environment, now: int) {
    && WorkerAt(s, w).Prepared? && WorkerAt(s, w).id in s.db.tasks
    && var me := WorkerAt(s, w);
    && var t := s.db.tasks[me.id];
    PermitHolds(t, me.token, Lookup(s.db.executions, t.spec.Execution()), t.spec.Execution(), me.snapshot,
                Lookup(s.db.settings, t.spec.owner), env, now)
  }

  /** Acting is logged exactly when the final gate holds, whatever then becomes of the
      transaction; and it is recorded as the provider answered: as a success with its result,
      as unknown when it threw without a code or said so, and otherwise as failed. */
  lemma ActRecordsTheAnswer(s: World, w: WorkerId, env: Environment, reply: ProviderReply, fate: CommitFate, code: Code,
                            now: int)
    requires GateHolds(s, w, env, now)
    ensures var s' := Step(s, Act(w, env, reply, fate, code, now));
            var me := WorkerAt(s, w);
            var key := s.db.tasks[me.id].spec.Execution();
            && s'.past.log == s.past.log + [Invocation(me.id, me.token, env, s.db, now)]
            && s'.past.escaped == (if fate == Lost then s.past.escaped + {me.id} else s.past.escaped)
            && s'.db.tasks == s.db.tasks && s'.db.settings == s.db.settings && s'.db.usages == s.db.usages
            && (fate == Lost ==> s'.db.executions == s.db.executions)
            && (fate != Lost ==>
                  && key in s'.db.executions && s'.db.executions == s.db.executions[key := s'.db.executions[key]]
                  && Answered(s'.db.executions[key], reply, now)
                  && SameRow(s.db.executions[key], s'.db.executions[key]))
            && (fate == Durable ==>
                  WorkerAt(s', w) == Closing(me.id, me.token, Asked(reply, now), true))
            && (fate != Durable ==>
                  WorkerAt(s', w) == Finalizing(me.id, me.token, OutcomeUnknown,
                                                if code == NoCode then DispatchOutcomeUnknown else code, true))
  {
    hide PermitHolds, Recorded, OutcomeOf, CodeOf, ResultOf, CompletionFor, Asked, Answered, SameRow;
    GateFindsDispatch(s, w, env, now);
    var t := s.db.tasks[WorkerAt(s, w).id];
    AnswerIsRecorded(reply, s.db.executions[t.spec.Execution()], now);
    AnswerIsAsked(reply, now);
  }

  lemma AnswerIsRecorded(reply: ProviderReply, x: Execution, now: int)
    ensures var y := Recorded(x, OutcomeOf(reply), CodeOf(reply), ResultOf(reply), now);
            Answered(y, reply, now) && SameRow(x, y)
  {
  }

  lemma AnswerIsAsked(reply: ProviderReply, now: int)
    ensures CompletionFor(OutcomeOf(reply), CodeOf(reply), ResultOf(reply), now) == Asked(reply, now)
  {
  }

  /** The columns that say whose audit row it is and what it was started for. */
  ghost predicate SameRow(x: Execution, y: Execution) {
    && y.id == x.id && y.account == x.account && y.settingVersion == x.settingVersion && y.snapshot == x.snapshot
    && y.startedAt == x.startedAt
  }

  /** The audit row after a provider's answer. */
  ghost predicate Answered(x: Execution, reply: ProviderReply, now: int) {
    && x.completedAt == Some(now)
    && match reply
       case Returned(result) => x.status == ExecSucceeded && x.code == NoCode && Keeps(x.resultId, result)
       case Threw(code, unknown) =>
         && x.resultId == ""
         && (if unknown || code == NoCode
             then x.status == ExecManualReview && x.code == (if code == NoCode then DispatchOutcomeUnknown else code)
             else x.status == ExecFailed && x.code == code)
  }

  /** The completion a worker asks for after a provider's answer. */
  function Asked(reply: ProviderReply, now: int): Completion {
    match reply
    case Returned(result) => SucceededWith(result)
    case Threw(code, unknown) =>
      if unknown || code == NoCode then UnknownWith(if code == NoCode then DispatchOutcomeUnknown else code)
      else if code == LocalMessageSourceStale then StaleWith(code)
      else if code == ExternalDiscoveryUnavailable then RetryableFailure(code, now + 300)
      else FailedWith(code)
  }

  /** When the final gate does not hold nothing is performed: a running audit row is failed
      under its own code and the worker asks for that failure, unless the transaction is
      lost or reported lost. */
  ghost predicate Refused(s: World, s': World, w: WorkerId, fate: CommitFate, code: Code, now: int)
    requires WorkerAt(s, w).Prepared? && WorkerAt(s, w).id in s.db.tasks
  {
    var me := WorkerAt(s, w);
    var key := s.db.tasks[me.id].spec.Execution();
    var running := key in s.db.executions && s.db.executions[key].status == ExecRunning;
    && s'.past == s.past && s'.db == s.db.(executions := s'.db.executions)
    && (fate == Lost || !running ==> s'.db == s.db)
    && (fate != Lost && running ==>
          s'.db.executions == s.db.executions[key := s.db.executions[key].(
            status := ExecFailed, code := DispatchPermitInvalid, resultId := "", completedAt := Some(now),
            cancelledAt := None)])
    && WorkerAt(s', w) ==
         if fate == Durable then Closing(me.id, me.token, FailedWith(DispatchPermitInvalid), true)
         else Finalizing(me.id, me.token, OutcomeFailed, OrElse(code, DispatchGateUnavailable), false)
  }

  lemma RefusedActFails(s: World, w: WorkerId, env: Environment, reply: ProviderReply, fate: CommitFate, code: Code,
                        now: int)
    requires WorkerAt(s, w).Prepared? && WorkerAt(s, w).id in s.db.tasks && !GateHolds(s, w, env, now)
    ensures Refused(s, Step(s, Act(w, env, reply, fate, code, now)), w, fate, code, now)
  {
    hide OnAct, PermitHolds, Refused;
    RefusedTransaction(s, w, env, reply, fate, code, now);
  }

  lemma RefusedTransaction(s: World, w: WorkerId, env: Environment, reply: ProviderReply, fate: CommitFate, code: Code,
                           now: int)
    requires WorkerAt(s, w).Prepared? && WorkerAt(s, w).id in s.db.tasks && !GateHolds(s, w, env, now)
    ensures Refused(s, OnAct(s, w, env, reply, fate, code, now), w, fate, code, now)
  {
    hide PermitHolds, Recorded, OutcomeOf, CodeOf, ResultOf;
  }

  /** A transaction that fails before the action leaves everything to the recording step. */
  lemma GateFailureIsKept(s: World, w: WorkerId, code: Code)
    ensures var s' := Step(s, GateRaises(w, code));
            var me := WorkerAt(s, w);
            && s'.db == s.db && s'.past == s.past
            && WorkerAt(s', w) == if me.Prepared?
                                  then Finalizing(me.id, me.token, OutcomeFailed,
                                                  if code == NoCode then DispatchGateUnavailable else code, false)
                                  else me
  {
  }

  // ---------------------------------------------------------------- recording

  /** The recording step closes an audit row that is still running with the outcome it was
      given, and nothing else; the worker then asks for the same outcome. */
  lemma RecordingCloses(s: World, w: WorkerId, swallowed: bool, now: int)
    requires WorkerAt(s, w).Finalizing? && WorkerAt(s, w).id in s.db.tasks
    requires WorkerAt(s, w).outcome != OutcomeSucceeded && WorkerAt(s, w).code != NoCode
    ensures var s' := Step(s, Finalize(w, swallowed, now));
            var me := WorkerAt(s, w);
            var key := s.db.tasks[me.id].spec.Execution();
            && s'.past == s.past
            && WorkerAt(s', w) == Closing(me.id, me.token, CompletionFor(me.outcome, me.code, "", now), true)
            && if !swallowed && key in s.db.executions && s.db.executions[key].status == ExecRunning
               then s'.db == s.db.(executions := s.db.executions[key := s.db.executions[key].(
                      status := if me.outcome == OutcomeUnknown then ExecManualReview else ExecFailed, code := me.code,
                      resultId := "", completedAt := Some(now), cancelledAt := None)])
               else s'.db == s.db
  {
    hide CompletionFor;
  }

  /** An exception that escapes is taken for an unknown outcome. */
  lemma EscapeIsUnknown(s: World, w: WorkerId)
    ensures var s' := Step(s, DispatcherRaises(w));
            var me := WorkerAt(s, w);
            && s'.db == s.db && s'.past == s.past
            && WorkerAt(s', w) == if me.Permitted? || me.Finalizing?
                                  then Closing(me.id, me.token, UnknownWith(DispatchOutcomeUnknown), true)
                                  else me
  {
  }

  // ---------------------------------------------------------------- preparing

  /** In every reachable state, preparing under the permit that the task carries creates the
      task's audit row, running, and links it; when the transaction is lost nothing is
      stored, and in either unreported case the worker asks for a failure. */
  lemma PreparingStartsTheAudit(events: seq<Event>, w: WorkerId, snapshot: nat, fate: CommitFate, code: Code, now: int)
    requires var s := After(events);
             && WorkerAt(s, w).Permitted? && WorkerAt(s, w).id in s.db.tasks
             && HoldsPermit(s.db.tasks[WorkerAt(s, w).id], WorkerAt(s, w).token)
    ensures var s := After(events);
            var s' := After(events + [PrepareExecution(w, snapshot, fate, code, now)]);
            var me := WorkerAt(s, w);
            var t := s.db.tasks[me.id];
            var key := t.spec.Execution();
            && s'.past == s.past
            && (fate == Lost ==> s'.db == s.db)
            && (fate != Lost ==>
                  s'.db == s.db.(
                    tasks := s.db.tasks[me.id := t.(execution := Some(key))],
                    executions := s.db.executions[key := Execution(
                      key, t.spec.account, t.spec.executionVersion, snapshot, ExecRunning, NoCode, "", Some(now), None,
                      None)]))
            && WorkerAt(s', w) ==
                 if fate == Durable then Prepared(me.id, me.token, snapshot)
                 else Closing(me.id, me.token, CompletionFor(OutcomeFailed, code, "", now), true)
  {
    hide Inv, CompletionFor, HoldsPermit;
    PreparingNeverReuses(events, w, snapshot, now);
    AfterOne(events, PrepareExecution(w, snapshot, fate, code, now));
  }

  /** Without that permit nothing is stored and the worker asks for a failure. */
  lemma StalePermitPreparesNothing(s: World, w: WorkerId, snapshot: nat, fate: CommitFate, code: Code, now: int)
    requires WorkerAt(s, w).Permitted? && WorkerAt(s, w).id in s.db.tasks
    requires var t := s.db.tasks[WorkerAt(s, w).id];
             t.status != Dispatching || t.token != Some(WorkerAt(s, w).token) || t.actionKey != Some(t.spec.Key())
    ensures var s' := Step(s, PrepareExecution(w, snapshot, fate, code, now));
            var me := WorkerAt(s, w);
            && s'.db == s.db && s'.past == s.past
            && WorkerAt(s', w) == Closing(me.id, me.token, FailedWith(DispatchPermitInvalid), true)
  {
    hide PreparedRow, SameAction;
  }

  /** If there were an audit row already, preparing would start it only if it was queued, and
      would act only after starting it; a row that has run is never run again. */
  lemma ReuseNeverRestarts(t: Task, x: Execution, snapshot: nat, now: int)
    ensures var (y, started) := PreparedRow(t, Some(x), snapshot, now);
            && (started <==> x.status == ExecQueued)
            && (!started ==> y == x)
            && (started ==> y == x.(status := ExecRunning, startedAt := Some(now), completedAt := None,
                                    cancelledAt := None, code := NoCode))
  {
  }

  /** And what the worker would make of it: it goes on to act exactly when it started the row,
      asks for what an ended row says, and treats a row that someone else is running as an
      unknown outcome. */
  lemma ReuseDecides(id: TaskId, token: Token, x: Execution, started: bool, now: int)
    requires started ==> x.status == ExecRunning
    ensures var me := AfterPreparing(id, token, x, started, now);
            && (me.Prepared? <==> started)
            && match x.status
               case ExecSucceeded => me == Closing(id, token, SucceededWith(x.resultId), true)
               case ExecManualReview =>
                 me == Closing(id, token, UnknownWith(OrElse(x.code, DispatchOutcomeUnknown)), true)
               case ExecFailed | ExecCancelled =>
                 && me.Closing? && me.dispatched
                 && me.completion.code == (if x.code == NoCode then ActionIdempotencyConflict else x.code)
                 && me.completion.status in {Failed, Stale}
               case _ =>
                 me == if started then Prepared(id, token, x.snapshot)
                       else Finalizing(id, token, OutcomeUnknown, DispatchReentryUnknown, false)
  {
  }

  /** An audit row made for another account, settings version or snapshot is refused, and
      nothing is stored. */
  lemma ConflictStoresNothing(s: World, w: WorkerId, snapshot: nat, fate: CommitFate, code: Code, now: int)
    requires WorkerAt(s, w).Permitted? && WorkerAt(s, w).id in s.db.tasks
    requires var t := s.db.tasks[WorkerAt(s, w).id];
             && t.status == Dispatching && t.token == Some(WorkerAt(s, w).token) && t.actionKey == Some(t.spec.Key())
             && t.spec.Execution() in s.db.executions
             && var x := s.db.executions[t.spec.Execution()];
             (x.account != t.spec.account || x.settingVersion != t.spec.executionVersion || x.snapshot != snapshot)
    ensures var s' := Step(s, PrepareExecution(w, snapshot, fate, code, now));
            var me := WorkerAt(s, w);
            && s'.db == s.db && s'.past == s.past
            && WorkerAt(s', w) == Closing(me.id, me.token, CompletionFor(OutcomeFailed, code, "", now), true)
  {
    hide CompletionFor;
  }

  // --------------------------------------------------------------- completing

  /** The holder of the permit ends its task: the task reads what the completion and the
      audit row resolve to. */
  lemma CompletionEnds(s: World, w: WorkerId, now: int)
    requires Inv(s) && WorkerAt(s, w).Closing? && WorkerAt(s, w).id in s.db.tasks
    requires var t := s.db.tasks[WorkerAt(s, w).id];
             t.status == Dispatching && t.token == Some(WorkerAt(s, w).token)
    ensures var s' := OnComplete(s, w, now);
            var me := WorkerAt(s, w);
            var t := s.db.tasks[me.id];
            var v := Resolve(t, RowsFor(s.db, t).execution, me.completion, now);
            && ValidCompletion(me.completion)
            && me.id in s'.db.tasks && s'.db.tasks[me.id].status == v.status && s'.db.tasks[me.id].code == v.code
            && s'.db.tasks[me.id].resultId == v.resultId && s'.db.tasks[me.id].completedAt == Some(now)
            && (me.id in s'.past.refunded <==>
                  me.completion.retryable && v.status == Failed && v.code == me.completion.code)
            && StreakMoved(s, s', me.id)
  {
    hide Inv, EndedBy, ValidCompletion, StreakMoved, Finish, Resolve, GrantsRetry, RowsFor;
    var me := WorkerAt(s, w);
    var t := s.db.tasks[me.id];
    var idle := Moved(s, w, Idle);
    TaskFacts(s, me.id);
    ClosingFacts(s, w);
    MoveWorker(s, w, Idle);
    DispatchEndMovesStreak(idle, me.id, me.completion, now);
    StreakMovedFrom(s, idle, EndedBy(idle, me.id, me.completion, now), me.id);
    DispatchedEndHasNoFault(idle, me.id, me.completion, now);
    SameRows(s, w, t);
    EndStores(idle, me.id, me.completion, now);
    EndMovesTask(RowsFor(s.db, t), me.completion, now);
    NotRefundedYet(s, me.id);
    VerdictTells(t, RowsFor(s.db, t).execution, me.completion, now);
    RetryTells(me.completion, Resolve(t, RowsFor(s.db, t).execution, me.completion, now));
    RetryHasTime(me.completion);
    ReservedDay(s, me.id);
  }

  lemma SameRows(s: World, w: WorkerId, t: Task)
    ensures RowsFor(Moved(s, w, Idle).db, t) == RowsFor(s.db, t) && RowsFor(s.db, t).task == t
  {
  }

  lemma ReservedDay(s: World, id: TaskId)
    requires Inv(s) && id in s.db.tasks && s.db.tasks[id].status == Dispatching
    ensures s.db.tasks[id].budgetDay.Some?
  {
    hide Inv;
    TaskFacts(s, id);
  }

  // -------------------------------------------------- other hands on audit rows

  /** Expiring takes a running audit row to review and does nothing to any other. */
  lemma ExpiryReviewsRunningAudit(s: World, key: ExecutionId, now: int)
    ensures Step(s, ExpireExecution(key, now)) ==
              if key in s.db.executions && s.db.executions[key].status == ExecRunning
              then s.(db := s.db.(executions := s.db.executions[key := s.db.executions[key].(
                     status := ExecManualReview, code := ExecutionTimeoutUnknown, resultId := "",
                     completedAt := Some(now), cancelledAt := None)]))
              else s
  {
  }

  /** Cancelling takes a queued audit row and does nothing to any other. */
  lemma CancellingTakesQueuedAudit(s: World, key: ExecutionId, code: Code, now: int)
    ensures Step(s, CancelExecution(key, code, now)) ==
              if key in s.db.executions && s.db.executions[key].status == ExecQueued
              then s.(db := s.db.(executions := s.db.executions[key := s.db.executions[key].(
                     status := ExecCancelled, code := if code == NoCode then UserCancelled else code, resultId := "",
                     completedAt := Some(now), cancelledAt := Some(now))]))
              else s
  {
  }

  /** The user-driven path never writes an audit row that belongs to a task. */
  lemma UsersLeaveTasksAlone(s: World, row: Execution, spec: TaskSpec)
    ensures var s' := Step(s, UserExecution(row));
            && Lookup(s'.db.executions, spec.Execution()) == Lookup(s.db.executions, spec.Execution())
            && s'.db == s.db.(executions := s'.db.executions) && s'.past == s.past
  {
  }

  // ------------------------------------------------------------- the whole way

  /** How a task reads after the provider's answer was recorded and completed: succeeded with
      the result, in review when the outcome is unknown, stale when the source was, and
      otherwise failed under the provider's code. */
  ghost predicate ReadsAs(t: Task, reply: ProviderReply) {
    match reply
    case Returned(result) => t.status == Succeeded && t.code == NoCode && Keeps(t.resultId, result)
    case Threw(code, unknown) =>
      && t.resultId == ""
      && (if unknown || code == NoCode
          then t.status == ManualReview && t.code == (if code == NoCode then DispatchOutcomeUnknown else code)
          else t.status == (if code == LocalMessageSourceStale then Stale else Failed) && t.code == code)
  }

  lemma GateFindsDispatch(s: World, w: WorkerId, env: Environment, now: int)
    requires GateHolds(s, w, env, now)
    ensures var me := WorkerAt(s, w);
            var t := s.db.tasks[me.id];
            && t.status == Dispatching && t.token == Some(me.token) && t.execution == Some(t.spec.Execution())
            && t.spec.Execution() in s.db.executions && Bound(t, s.db.executions[t.spec.Execution()])
            && s.db.executions[t.spec.Execution()].status == ExecRunning
  {
    hide GateCode, ActiveAt;
  }

  lemma AnswerResolves(t: Task, x: Execution, reply: ProviderReply, now: int, later: int)
    requires t.status == Dispatching && t.execution.Some? && Bound(t, x) && Answered(x, reply, now)
    ensures var c := Asked(reply, now);
            var v := Resolve(t, Some(x), c, later);
            && (match reply
                case Returned(result) => v.status == Succeeded && v.code == NoCode && Keeps(v.resultId, result)
                case Threw(code, unknown) =>
                  && v.resultId == ""
                  && (if unknown || code == NoCode
                      then v.status == ManualReview
                           && v.code == (if code == NoCode then DispatchOutcomeUnknown else code)
                      else v.status == (if code == LocalMessageSourceStale then Stale else Failed) && v.code == code))
            && (c.retryable && v.status == Failed && v.code == c.code <==>
                  reply.Threw? && !reply.outcomeUnknown && reply.code == ExternalDiscoveryUnavailable)
  {
    hide Resolve;
    AskedIsValid(reply, now);
    EndedAuditDecides(t, x, Asked(reply, now), later);
  }

  lemma AskedIsValid(reply: ProviderReply, now: int)
    ensures ValidCompletion(Asked(reply, now))
  {
  }

  lemma RecordedStaysBound(s: World, w: WorkerId, env: Environment, reply: ProviderReply, fate: CommitFate, code: Code,
                           now: int)
    requires GateHolds(s, w, env, now) && fate != Lost
    ensures var t := s.db.tasks[WorkerAt(s, w).id];
            var key := t.spec.Execution();
            var s' := Step(s, Act(w, env, reply, fate, code, now));
            key in s'.db.executions && Bound(t, s'.db.executions[key])
  {
    hide Step, PermitHolds, Answered, Asked;
    GateFindsDispatch(s, w, env, now);
    ActRecordsTheAnswer(s, w, env, reply, fate, code, now);
  }

  /** Once the final gate has passed and the answer was recorded, completing ends the task as
      the provider answered; it is refunded exactly when discovery was unavailable; and its
      owner's streak and halt move accordingly. */
  lemma AnswerDecidesTheEnd(events: seq<Event>, w: WorkerId, env: Environment, reply: ProviderReply, code: Code,
                            now: int, later: int)
    requires GateHolds(After(events), w, env, now)
    ensures var s := After(events);
            var acted := After(events + [Act(w, env, reply, Durable, code, now)]);
            var ended := After(events + [Act(w, env, reply, Durable, code, now)] + [Complete(w, later)]);
            var id := WorkerAt(s, w).id;
            && |acted.past.log| == |s.past.log| + 1
            && id in ended.db.tasks && ReadsAs(ended.db.tasks[id], reply)
            && (id in ended.past.refunded <==>
                  reply.Threw? && !reply.outcomeUnknown && reply.code == ExternalDiscoveryUnavailable)
            && StreakMoved(acted, ended, id)
  {
    hide Inv, Step, StreakMoved, PermitHolds, Resolve, Answered;
    var act, done := Act(w, env, reply, Durable, code, now), Complete(w, later);
    AfterOne(events, act);
    AfterOne(events + [act], done);
    EveryStateIsSound(events + [act]);
    var s, s1 := After(events), After(events + [act]);
    GateFindsDispatch(s, w, env, now);
    ActRecordsTheAnswer(s, w, env, reply, Durable, code, now);
    RecordedStaysBound(s, w, env, reply, Durable, code, now);
    var id := WorkerAt(s, w).id;
    var t := s.db.tasks[id];
    CompletionEnds(s1, w, later);
    CompleteIs(s1, w, later);
    AnswerResolves(t, s1.db.executions[t.spec.Execution()], reply, now, later);
  }

  lemma CompleteIs(s: World, w: WorkerId, now: int)
    ensures Step(s, Complete(w, now)) == OnComplete(s, w, now)
  {
    hide OnComplete;
  }

  lemma ReviewResolves(t: Task, x: Execution, code: Code, now: int)
    requires t.status == Dispatching && t.execution.Some? && Bound(t, x) && code != NoCode
    requires x.status in {ExecRunning, ExecSucceeded, ExecFailed, ExecManualReview}
    ensures Resolve(t, Some(x), UnknownWith(code), now).status == ManualReview
  {
  }

  lemma RowsOfLinked(db: Tables, t: Task)
    requires t.execution.Some? && t.execution.value in db.executions
    ensures RowsFor(db, t).execution == Some(db.executions[t.execution.value])
  {
  }

  /** Whenever the worker is told that the record of a performed action was lost, whether it
      was or not, its recording step and its completion end the task in review. */
  lemma LostReportEndsInReview(events: seq<Event>, w: WorkerId, env: Environment, reply: ProviderReply,
                               fate: CommitFate, code: Code, now: int, swallowed: bool, then1: int, then2: int)
    requires GateHolds(After(events), w, env, now) && fate != Durable
    ensures var act := Act(w, env, reply, fate, code, now);
            var ended := After(events + [act] + [Finalize(w, swallowed, then1)] + [Complete(w, then2)]);
            var id := WorkerAt(After(events), w).id;
            id in ended.db.tasks && ended.db.tasks[id].status == ManualReview
  {
    hide Inv, Step, PermitHolds, Resolve, Answered, OnComplete;
    var act, record, done := Act(w, env, reply, fate, code, now), Finalize(w, swallowed, then1), Complete(w, then2);
    AfterOne(events, act);
    AfterOne(events + [act], record);
    AfterOne(events + [act] + [record], done);
    EveryStateIsSound(events + [act] + [record]);
    var s, s1, s2 := After(events), After(events + [act]), After(events + [act] + [record]);
    GateFindsDispatch(s, w, env, now);
    ActRecordsTheAnswer(s, w, env, reply, fate, code, now);
    RecordingCloses(s1, w, swallowed, then1);
    CompletionEnds(s2, w, then2);
    CompleteIs(s2, w, then2);
    var t := s.db.tasks[WorkerAt(s, w).id];
    ReportedStaysLinked(s2, WorkerAt(s, w).id);
    var lost := if code == NoCode then DispatchOutcomeUnknown else code;
    CompletionsByOutcome(OutcomeUnknown, lost, "", then1);
    ReviewResolves(t, s2.db.executions[t.execution.value], lost, then2);
    RowsOfLinked(s2.db, t);
  }

  lemma ReportedStaysLinked(s: World, id: TaskId)
    requires Inv(s) && id in s.db.tasks && s.db.tasks[id].status == Dispatching && s.db.tasks[id].execution.Some?
    ensures var t := s.db.tasks[id];
            && t.execution.value in s.db.executions && Bound(t, s.db.executions[t.execution.value])
            && s.db.executions[t.execution.value].status in {ExecRunning, ExecSucceeded, ExecFailed, ExecManualReview}
  {
    hide Inv;
    TaskFacts(s, id);
  }
}
