/** Tokens fence workers out, and attempts are bounded, over every run. */
module Fencing {
  import opened Vocabulary
  import opened Policies
  import opened Transitions
  import opened Protocol
  import opened Invariant
  import opened Frames
  import opened Runs
  import opened Progress
  import opened Safety

  // ------------------------------------------------------------------- tokens

  lemma {:induction false} StaleForever(s: World, events: seq<Event>, id: TaskId, token: Token)
    requires Inv(s) && id in s.db.tasks && token in s.issued && s.db.tasks[id].token != Some(token)
    ensures id in Run(s, events).db.tasks && Run(s, events).db.tasks[id].token != Some(token)
    decreases |events|
  {
    hide Inv, Step;
    if events != [] {
      StepOnward(s, events[0]);
      StepKeeps(s, events[0]);
      StaleForever(Step(s, events[0]), events[1..], id, token);
    }
  }

  /** A token that a later claim, permit or end has replaced never becomes current again. */
  lemma StaleTokenStaysStale(first: seq<Event>, rest: seq<Event>, id: TaskId, token: Token)
    requires id in After(first).db.tasks && token in After(first).issued
    requires After(first).db.tasks[id].token != Some(token)
    ensures id in After(first + rest).db.tasks && After(first + rest).db.tasks[id].token != Some(token)
  {
    hide Inv;
    EveryStateIsSound(first);
    AfterMore(first, rest);
    StaleForever(After(first), rest, id, token);
  }

  ghost predicate FencedOut(s: World, w: WorkerId) {
    && !WorkerAt(s, w).Idle? && WorkerAt(s, w).id in s.db.tasks
    && s.db.tasks[WorkerAt(s, w).id].token != Some(WorkerAt(s, w).token)
  }

  ghost predicate WorksFor(e: Event, w: WorkerId) {
    || (e.BeginGeneration? && e.worker == w) || (e.GenerationFails? && e.worker == w)
    || (e.RenewLease? && e.worker == w) || (e.Defer? && e.worker == w)
    || (e.ReserveDispatch? && e.worker == w) || (e.PrepareExecution? && e.worker == w)
    || (e.Act? && e.worker == w) || (e.GateRaises? && e.worker == w) || (e.Finalize? && e.worker == w)
    || (e.DispatcherRaises? && e.worker == w) || (e.Complete? && e.worker == w)
  }

  lemma FencedReserve(s: World, w: WorkerId, env: Environment, permit: Token, now: int)
    requires FencedOut(s, w)
    ensures OnReserve(s, w, env, permit, now).db == s.db && OnReserve(s, w, env, permit, now).past.log == s.past.log
  {
    hide GateCode;
  }

  /** Once fenced out of a dispatched task, a worker finds its audit row already ended. */
  lemma FencedAudit(s: World, w: WorkerId)
    requires Inv(s) && FencedOut(s, w) && (WorkerAt(s, w).Prepared? || WorkerAt(s, w).Finalizing?)
    ensures var t := s.db.tasks[WorkerAt(s, w).id];
            && t.spec.Execution() in s.db.executions && s.db.executions[t.spec.Execution()].status != ExecRunning
  {
    hide Inv;
    WorkerFacts(s, w);
    TaskFacts(s, WorkerAt(s, w).id);
  }

  lemma FencedDispatch(s: World, w: WorkerId, e: Event)
    requires Inv(s) && FencedOut(s, w) && WorksFor(e, w) && (e.PrepareExecution? || e.Act? || e.Finalize?)
    ensures Step(s, e).db == s.db && Step(s, e).past.log == s.past.log
  {
    hide Inv, GateCode, CompletionFor, PreparedRow, SameAction, ActiveAt;
    if WorkerAt(s, w).Prepared? || WorkerAt(s, w).Finalizing? { FencedAudit(s, w); }
  }

  lemma FencedLease(s: World, w: WorkerId, e: Event)
    requires FencedOut(s, w) && WorksFor(e, w) && !e.PrepareExecution? && !e.Act? && !e.Finalize? && !e.ReserveDispatch?
    ensures Step(s, e).db == s.db && Step(s, e).past.log == s.past.log
  {
    hide QuietWindowEnd, TooLate, CompletionFor, EndedBy;
  }

  /** A worker whose token was replaced changes no row and performs no action: it cannot
      generate, renew, defer, dispatch, prepare, act, record or finish. */
  lemma FencedWorkerIsPowerless(events: seq<Event>, w: WorkerId, e: Event)
    requires FencedOut(After(events), w) && WorksFor(e, w)
    ensures After(events + [e]).db == After(events).db && After(events + [e]).past.log == After(events).past.log
  {
    hide Inv, Step;
    EveryStateIsSound(events);
    AfterOne(events, e);
    if e.PrepareExecution? || e.Act? || e.Finalize? {
      FencedDispatch(After(events), w, e);
    } else if e.ReserveDispatch? {
      FencedReserveStep(After(events), w, e);
    } else {
      FencedLease(After(events), w, e);
    }
  }

  lemma FencedReserveStep(s: World, w: WorkerId, e: Event)
    requires FencedOut(s, w) && WorksFor(e, w) && e.ReserveDispatch?
    ensures Step(s, e).db == s.db && Step(s, e).past.log == s.past.log
  {
    hide OnReserve;
    FencedReserve(s, w, e.env, e.permit, e.now);
  }

  // ----------------------------------------------------------------- attempts

  /** Text is generated, and actions dispatched, only on attempts one to three. */
  lemma GenerationIsBounded(events: seq<Event>, id: TaskId)
    requires id in After(events).db.tasks && After(events).db.tasks[id].status in {Generating, Dispatching}
    ensures 1 <= After(events).db.tasks[id].attempts <= 3
  {
    hide Inv;
    EveryStateIsSound(events);
    TaskIsSound(After(events), id);
  }

  ghost predicate AtMostFour(s: World) {
    forall id :: id in s.db.tasks ==> s.db.tasks[id].attempts <= 4
  }

  /** A claim that takes over a lease which expired in the hands of the fourth holder. */
  predicate Reclaims(s: World, e: Event) {
    && e.Claim? && WorkerAt(s, e.worker).Idle? && e.token !in s.issued
    && e.id in s.db.tasks && s.db.tasks[e.id].attempts == 4
    && s.db.tasks[e.id].status == Leased
    && s.db.tasks[e.id].leaseUntil.Some? && s.db.tasks[e.id].leaseUntil.value <= e.now
  }

  lemma StepAttempts(s: World, e: Event)
    requires Inv(s)
    ensures AtMostFour(Step(s, e)) <==> AtMostFour(s) && !Reclaims(s, e)
  {
    hide Inv, Step;
    StepOnward(s, e);
    var s' := Step(s, e);
    if Taken(s, e) != {} {
      TaskFacts(s, e.id);
      assert e.id in s'.db.tasks && s'.db.tasks[e.id].attempts == s.db.tasks[e.id].attempts + 1;
    }
    if !AtMostFour(s) {
      var id :| id in s.db.tasks && s.db.tasks[id].attempts > 4;
      assert s'.db.tasks[id].attempts > 4;
    }
  }

  /** Deferrals included, no task is claimed more than four times exactly when no lease
      ever expired under the fourth holder and was taken over.  A crash of that holder is
      one way for the lease to expire; a slow holder is another. */
  lemma {:induction false} FourClaims(events: seq<Event>)
    ensures AtMostFour(After(events)) <==>
              forall n :: 0 <= n < |events| ==> !Reclaims(After(events[..n]), events[n])
    decreases |events|
  {
    hide Inv, Step, Reclaims;
    if events == [] {
      NoTasksYet();
    } else {
      var k := |events| - 1;
      var before, e := events[..k], events[k];
      assert events == before + [e];
      AfterOne(before, e);
      EveryStateIsSound(before);
      StepAttempts(After(before), e);
      FourClaims(before);
      forall n | 0 <= n < k ensures events[..n] == before[..n] {}
      if forall n :: 0 <= n < k ==> !Reclaims(After(before[..n]), before[n]) {
        if !Reclaims(After(before), e) {
          forall n | 0 <= n < |events| ensures !Reclaims(After(events[..n]), events[n]) {
            if n < k { assert events[..n] == before[..n]; }
          }
        }
      } else {
        var n :| 0 <= n < k && Reclaims(After(before[..n]), before[n]);
        assert Reclaims(After(events[..n]), events[n]);
      }
    }
  }

  lemma NoTasksYet()
    ensures AtMostFour(After([]))
  {
  }

  // ------------------------------------------------- claims against take-overs

  /** A claim of this task that takes over an expired lease instead of due work. */
  predicate TakesOver(s: World, e: Event, id: TaskId) {
    id in Taken(s, e) && s.db.tasks[id].status in {Leased, Generating}
  }

  function TakeOvers(events: seq<Event>, id: TaskId): nat {
    if events == [] then 0
    else
      var before, e := events[..|events| - 1], events[|events| - 1];
      TakeOvers(before, id) + if TakesOver(After(before), e, id) then 1 else 0
  }

  lemma OneMoreClaim(s: World, e: Event, id: TaskId)
    requires Inv(s) && id in Step(s, e).db.tasks
    ensures var before := if id in s.db.tasks then s.db.tasks[id].attempts else 0;
            var after := Step(s, e).db.tasks[id].attempts;
            after <= before || (after == before + 1 && (TakesOver(s, e, id) || after <= 4))
  {
    hide Inv, Step;
    StepOnward(s, e);
    if id in s.db.tasks { TaskFacts(s, id); }
  }

  /** Every claim beyond the fourth takes over an expired lease, so without a take-over a
      task is claimed four times at most, however often it is deferred. */
  lemma {:induction false} ClaimsBeyondFourAreTakeOvers(events: seq<Event>, id: TaskId)
    requires id in After(events).db.tasks
    ensures After(events).db.tasks[id].attempts <= 4 + TakeOvers(events, id)
    decreases |events|
  {
    hide Inv, Step, TakesOver;
    if events != [] {
      var k := |events| - 1;
      var before, e := events[..k], events[k];
      assert events == before + [e];
      AfterOne(before, e);
      EveryStateIsSound(before);
      OneMoreClaim(After(before), e, id);
      if id in After(before).db.tasks { ClaimsBeyondFourAreTakeOvers(before, id); }
    }
  }
}
