/** The recovery sweep over every run: which dispatches it ends and how each of them reads
    afterwards, by what its audit row says. */
module Recovery {
  import opened Vocabulary
  import opened Transitions
  import opened Protocol
  import opened Invariant
  import opened Frames
  import opened Endings
  import opened EndSteps
  import opened Safety
  import opened Streaks

  /** Dispatched strictly before the cutoff and not ended since. */
  predicate Overdue(s: World, id: TaskId, before: int) {
    && id in s.db.tasks && s.db.tasks[id].status == Dispatching
    && s.db.tasks[id].dispatchStartedAt.Some? && s.db.tasks[id].dispatchStartedAt.value < before
  }

  /** How a swept task reads, given its audit row before and after: failed if nothing was
      ever prepared; in review under the sweep's code if its action was running; and
      otherwise what its audit row, which then stays as it was, says. */
  ghost predicate Tells(x: Option<Execution>, x': Option<Execution>, t: Task, code: Code, now: int) {
    if x.None? then t.status == Failed && t.code == WorkerLostBeforeActionPrepare
    else
      && x'.Some? && (x.value.status != ExecRunning ==> x' == x)
      && match x.value.status
         case ExecRunning =>
           && t.status == ManualReview && t.code == code
           && x'.value.status == ExecManualReview && x'.value.code == code && x'.value.completedAt == Some(now)
         case ExecSucceeded => t.status == Succeeded && t.code == NoCode && t.resultId == x.value.resultId
         case ExecFailed =>
           t.code == x.value.code && t.status == if x.value.code == LocalMessageSourceStale then Stale else Failed
         case ExecManualReview =>
           t.status == ManualReview && t.code == OrElse(x.value.code, AccountActionOutcomeUnknown)
         case _ => false
  }

  ghost predicate Swept(s: World, s': World, id: TaskId, code: Code, now: int)
    requires id in s.db.tasks
  {
    var t := s.db.tasks[id];
    && id in s'.db.tasks
    && var t' := s'.db.tasks[id];
    && t'.completedAt == Some(now) && t'.token.None? && t'.execution == t.execution
    && (t.execution.Some? ==> t.execution.value in s.db.executions && t.execution.value in s'.db.executions)
    && Tells(if t.execution.None? then None else Some(s.db.executions[t.execution.value]),
             if t.execution.None? then None else Some(s'.db.executions[t.execution.value]), t', code, now)
  }

  lemma OthersStay(s: World, id: TaskId, c: Completion, now: int)
    requires id in s.db.tasks
    ensures var s' := EndedBy(s, id, c, now);
            forall j :: j in s.db.tasks && j != id ==> j in s'.db.tasks && s'.db.tasks[j] == s.db.tasks[j]
  {
    hide Finish, Resolve, GrantsRetry;
  }

  lemma SweepReads(t: Task, x: Option<Execution>, code: Code, now: int)
    requires code != NoCode && (t.execution.None? ==> x.None?)
    requires t.execution.Some? ==>
               && x.Some? && Bound(t, x.value) && |x.value.resultId| <= 256
               && x.value.status in {ExecRunning, ExecSucceeded, ExecFailed, ExecManualReview}
               && (x.value.status == ExecFailed ==> x.value.code != NoCode)
    ensures var v := Autopsy(t, x, code, now);
            Tells(x, v.execution, Ended(t, v, now), code, now) && (v.execution.Some? <==> t.execution.Some?)
  {
  }

  lemma SweepStores(s: World, id: TaskId, before: int, code: Code, now: int)
    requires Overdue(s, id, before) && code != NoCode && Sweep(RowsFor(s.db, s.db.tasks[id]), code, now).Success?
    ensures var t := s.db.tasks[id];
            var s' := OnSweep(s, id, before, code, now);
            var v := Autopsy(t, RowsFor(s.db, t).execution, code, now);
            && id in s'.db.tasks && s'.db.tasks[id] == Ended(t, v, now)
            && (t.execution.Some? && v.execution.Some? ==>
                  t.execution.value in s'.db.executions && s'.db.executions[t.execution.value] == v.execution.value)
  {
    hide Autopsy, SettingSwept, Outcomes, Ended;
  }

  lemma AuditIsStarted(s: World, id: TaskId)
    requires Inv(s) && id in s.db.tasks && s.db.tasks[id].status == Dispatching
    ensures var t := s.db.tasks[id];
            t.execution.Some? ==>
              && t.execution.value in s.db.executions
              && RowsFor(s.db, t).execution == Some(s.db.executions[t.execution.value])
              && var x := s.db.executions[t.execution.value];
              && Bound(t, x) && |x.resultId| <= 256 && (x.status == ExecFailed ==> x.code != NoCode)
              && x.status in {ExecRunning, ExecSucceeded, ExecFailed, ExecManualReview}
  {
    hide Inv, Bound, TaskOk;
    TaskFacts(s, id);
  }

  lemma OverdueIsSwept(s: World, id: TaskId, before: int, code: Code, now: int)
    requires Inv(s) && Overdue(s, id, before) && code != NoCode
    requires Sweep(RowsFor(s.db, s.db.tasks[id]), code, now).Success?
    ensures Swept(s, OnSweep(s, id, before, code, now), id, code, now)
  {
    hide Inv, Autopsy, OnSweep, Sweep, Bound, RowsFor, Tells;
    var t := s.db.tasks[id];
    AuditIsStarted(s, id);
    UnlinkedHasNoAudit(s.db, t);
    SweepReads(t, RowsFor(s.db, t).execution, code, now);
    SweepStores(s, id, before, code, now);
  }

  lemma UnlinkedHasNoAudit(db: Tables, t: Task)
    ensures t.execution.None? ==> RowsFor(db, t).execution.None?
  {
  }

  /** The sweep touches a task exactly when it was dispatched strictly before the cutoff and
      has not ended: a dispatch at or after the cutoff, whose worker may be alive, is left
      alone, and so is every other task.  What it touches ends, and reads what its audit row
      says. */
  lemma SweepEndsExactly(events: seq<Event>, id: TaskId, before: int, code: Code, now: int)
    requires code != NoCode
    ensures var s := After(events);
            var s' := OnSweep(s, id, before, code, now);
            && (Overdue(s, id, before) ==>
                  && id in s'.db.tasks && s'.db.tasks[id].status in {Succeeded, Failed, Stale, ManualReview}
                  && Swept(s, s', id, code, now) && StreakMoved(s, s', id))
            && (!Overdue(s, id, before) ==> s' == s)
            && (forall j :: j in s.db.tasks && j != id ==> j in s'.db.tasks && s'.db.tasks[j] == s.db.tasks[j])
  {
    hide Inv, Swept, StreakMoved, EndedBy, RecoveryCompletion, ValidCompletion;
    EveryStateIsSound(events);
    var s := After(events);
    if Overdue(s, id, before) {
      SweepNeverFails(s, id, before, code, now);
      OverdueIsSwept(s, id, before, code, now);
      var c := RecoveryCompletion(s.db.tasks[id], RowsFor(s.db, s.db.tasks[id]).execution, code);
      SweepIsEnd(s, id, before, code, now);
      OthersStay(s, id, c, now);
      DispatchEndMovesStreak(s, id, c, now);
      SweptHasEnded(s, OnSweep(s, id, before, code, now), id, code, now);
    } else {
      NotOverdue(s, id, before, code, now);
    }
  }

  lemma SweptHasEnded(s: World, s': World, id: TaskId, code: Code, now: int)
    requires id in s.db.tasks && Swept(s, s', id, code, now)
    ensures id in s'.db.tasks && s'.db.tasks[id].status in {Succeeded, Failed, Stale, ManualReview}
  {
  }

  lemma NotOverdue(s: World, id: TaskId, before: int, code: Code, now: int)
    requires !Overdue(s, id, before)
    ensures OnSweep(s, id, before, code, now) == s
  {
  }

  lemma SweepNeverFails(s: World, id: TaskId, before: int, code: Code, now: int)
    requires Inv(s) && Overdue(s, id, before) && code != NoCode
    ensures Sweep(RowsFor(s.db, s.db.tasks[id]), code, now).Success?
  {
    hide Inv, Autopsy, SettingSwept;
    TaskFacts(s, id);
    HeldReservation(s, id);
  }

  /** A dispatch that began at or after the cutoff is never swept, whatever its worker does. */
  lemma LiveDispatchIsLeftAlone(events: seq<Event>, id: TaskId, before: int, code: Code, now: int)
    requires id in After(events).db.tasks && After(events).db.tasks[id].dispatchStartedAt.Some?
    requires After(events).db.tasks[id].dispatchStartedAt.value >= before
    ensures After(events + [SweepExpired(id, before, code, now)]) == After(events)
  {
    AfterOne(events, SweepExpired(id, before, code, now));
    NotOverdue(After(events), id, before, code, now);
  }
}
