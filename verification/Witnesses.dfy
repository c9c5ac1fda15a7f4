/** Concrete runs: the theorems over the log of actions, over lost records and over repeated
    claims speak about runs that exist. */
module Witnesses {
  import opened Vocabulary
  import opened Policies
  import opened Transitions
  import opened Protocol
  import opened Scheduling
  import opened Safety
  import opened Fencing

  /** An owner who lets the agent look for people who are online. */
  const REQUEST := DEFAULT_CONTENT.(userEnabled := true, discovery := true, allowedActions := [BrowseOnlineUsers])

  const OWNER := NEW_SETTING.(content := REQUEST, version := 2, nextRunAt := Some(0))

  const BROWSING := TaskSpec(0, "browse-today", 0, BrowseOnline, 2, 1, 1, 0, 0, "", "", None)

  const ID := BROWSING.Id()

  const OPENING := [CreateSetting(0), ConfigurePolicy(0, REQUEST, 0), Enqueue(BROWSING, None)]

  const CREATED := WithSetting(START, 0, NEW_SETTING)

  const CONFIGURED := WithSetting(CREATED, 0, OWNER)

  const OPENED := World(
    Tables(map[ID := NewTask(BROWSING, None)], map[], map[0 := OWNER], map[]),
    map[], {}, START.past.(pinned := map[ID := REQUEST]))

  lemma OwnerIsConfigured()
    ensures Configure(NEW_SETTING, REQUEST, 0) == Success(OWNER)
  {
    assert REQUEST.targets == [];
    var kept := WithoutRepeats(REQUEST.allowedActions);
    assert WithoutRepeats(REQUEST.allowedActions[..0]) == [];
    assert kept == [BrowseOnlineUsers];
    assert WithoutRepeats(REQUEST.targets) == [];
    assert StoredContent(DEFAULT_CONTENT, REQUEST, 0) == REQUEST;
  }

  lemma FirstSteps()
    ensures Step(START, OPENING[0]) == CREATED && Step(CREATED, OPENING[1]) == CONFIGURED
  {
    hide Configure;
    OwnerIsConfigured();
  }

  lemma TaskIsQueued()
    ensures Step(CONFIGURED, OPENING[2]) == OPENED
  {
    assert WellFormedSpec(BROWSING);
  }

  lemma AfterOpening()
    ensures After(OPENING) == OPENED
  {
    hide Step;
    FirstSteps();
    TaskIsQueued();
    assert OPENING[1..] == [OPENING[1], OPENING[2]];
    assert Run(CREATED, OPENING[1..]) == Run(CONFIGURED, OPENING[2..]) == Run(OPENED, []);
  }

  // ------------------------------------------------------- five claims, no crash

  /** Takes the task over from a holder whose lease has run out. */
  function TakeOver(n: nat): Event {
    Claim(n, ID, n, 300 * n, 300 * (n + 1))
  }

  function SlowRun(n: nat): seq<Event> {
    if n == 0 then OPENING else SlowRun(n - 1) + [TakeOver(n - 1)]
  }

  /** The task is one that a scheduling pass at this moment may hand out. */
  ghost predicate Offered(s: World, now: int) {
    var db := Snapshot(s.db.settings, s.db.usages, {});
    && ID in s.db.tasks && Queried(db, s.db.tasks[ID], now) && Eligible(db, s.db.tasks[ID], now)
  }

  /** After n slow holders. */
  ghost predicate Slow(s: World, n: nat) {
    && s.db.settings == map[0 := OWNER] && s.db.usages == map[]
    && (forall k :: k in s.issued ==> k < n)
    && (forall w :: w in s.workers ==> w < n)
    && ID in s.db.tasks && s.db.tasks[ID].spec == BROWSING && s.db.tasks[ID].attempts == n
    && (if n == 0 then s.db.tasks[ID].status == Queued && s.db.tasks[ID].notBefore.None?
        else s.db.tasks[ID].status == Leased && s.db.tasks[ID].leaseUntil == Some(300 * n))
  }

  lemma OneMoreSlowHolder(s: World, n: nat)
    requires Slow(s, n)
    ensures Slow(Step(s, TakeOver(n)), n + 1)
  {
  }

  lemma {:induction false} SlowHolders(n: nat)
    ensures Slow(After(SlowRun(n)), n)
  {
    hide Step, Slow;
    if n == 0 {
      SlowStart();
    } else {
      SlowHolders(n - 1);
      OneMoreSlowHolder(After(SlowRun(n - 1)), n - 1);
      AfterOne(SlowRun(n - 1), TakeOver(n - 1));
    }
  }

  lemma SlowStart()
    ensures Slow(After(SlowRun(0)), 0)
  {
    AfterOpening();
  }

  lemma SlowIsOffered(s: World, n: nat)
    requires Slow(s, n)
    ensures Offered(s, TakeOver(n).now)
  {
  }

  lemma SlowTaskIsOffered(n: nat)
    ensures Offered(After(SlowRun(n)), TakeOver(n).now)
  {
    hide Slow, Offered;
    SlowHolders(n);
    SlowIsOffered(After(SlowRun(n)), n);
  }

  lemma {:induction false} NoCrashes(n: nat)
    ensures forall i :: 0 <= i < |SlowRun(n)| ==> !SlowRun(n)[i].Crash?
  {
    if n > 0 { NoCrashes(n - 1); }
  }

  /** Five claims without any crash: each holder is merely slower than its lease, and the
      scheduler offers the task every time. */
  lemma FiveClaimsWithoutCrash()
    ensures forall i :: 0 <= i < |SlowRun(5)| ==> !SlowRun(5)[i].Crash?
    ensures forall n :: 0 <= n < 5 ==> Offered(After(SlowRun(n)), TakeOver(n).now)
    ensures !AtMostFour(After(SlowRun(5)))
  {
    SlowHolders(5);
    NoCrashes(5);
    forall n | 0 <= n < 5 ensures Offered(After(SlowRun(n)), TakeOver(n).now) { SlowTaskIsOffered(n); }
  }

  // ---------------------------------------------------------- a performed action

  /** Every row exists, every switch is on and every grant is given. */
  const ALLOWING := Environment(
    Some(SystemRow(true, true, true)),
    Some(UserRow(true, false, true, true, true)),
    Some(0),
    Some(AgentRow(true, 1, Some(0))),
    Some(ExecutionSettingRow(true, false, 1, {BrowseOnlineUsers})),
    Some(ConnectionRow(0, true, true, true)),
    0, false, false, false, false, false, false, false)

  const POLICY := Translate(OWNER, ALLOWING).value

  const LEASED := Claimed(NewTask(BROWSING, None), 1, 1, 0, 300)

  const DISPATCHED := LEASED.(status := Dispatching, actionKey := Some(BROWSING.Key()), budgetDay := Some(0),
                              dispatchStartedAt := Some(10), token := Some(2), leaseUntil := None)

  const LINKED := DISPATCHED.(execution := Some(BROWSING.Execution()))

  const RUNNING := Started(NewExecution(DISPATCHED, 0), 20)

  const ACTED_OWNER := OWNER.(lastActionAt := Some(10), lastRunAt := Some(10))

  const SPENT := EMPTY_USAGE.(total := 1, browse := 1, lastActionAt := Some(10))

  /** Claimed, inspected, reserved and prepared. */
  const APPROACH := OPENING + [
    Claim(1, ID, 1, 0, 300),
    Inspect(1, ALLOWING, Unmoved, 5),
    ReserveDispatch(1, ALLOWING, 2, 10),
    PrepareExecution(1, 0, Durable, NoCode, 20)]

  const PREPARED := World(
    Tables(map[ID := LINKED], map[BROWSING.Execution() := RUNNING], map[0 := ACTED_OWNER], map[UsageId(0, 0) := SPENT]),
    map[1 := Prepared(ID, 2, 0)], {1, 2},
    History(map[ID := REQUEST], map[ID := 2], [], {}, {}, map[0 := [Slot(ID, 10, 30)]]))

  lemma PolicyIsAccepted()
    ensures PolicyFromRows(OWNER, ALLOWING) == Some(POLICY)
  {
    SoundRowIsAccepted(OWNER, ALLOWING);
  }

  const CLAIMED :=
    OPENED.(db := OPENED.db.(tasks := map[ID := LEASED]), workers := map[1 := Holding(ID, 1, 1)], issued := {1})

  lemma ClaimIsTaken()
    ensures Step(OPENED, Claim(1, ID, 1, 0, 300)) == CLAIMED
  {
  }

  lemma NothingHoldsItBack()
    ensures Preflight(BROWSING, Some(POLICY), 5) == Proceed
    ensures QuietWindowEnd(POLICY, 5).None?
    ensures ReservationFor(BROWSING, 1, POLICY, 10)
         == Reservation(GateRequestFor(BROWSING), 1, BROWSING.Key(), "", 0, 20, 8, 30, 10)
  {
  }

  const INSPECTED := CLAIMED.(workers := map[1 := Ready(ID, 1, 1, POLICY)])

  lemma InspectionProceeds()
    ensures Step(CLAIMED, Inspect(1, ALLOWING, Unmoved, 5)) == INSPECTED
  {
    hide Preflight, QuietWindowEnd, Translate, PolicyFromRows;
    PolicyIsAccepted();
    NothingHoldsItBack();
  }

  lemma GateOpens(t: Task, row: Setting)
    requires t.spec == BROWSING && row in {OWNER, ACTED_OWNER}
    ensures GateCode(t, GateRequestFor(BROWSING), Some(row), ALLOWING).None?
    ensures ActiveAt(row.content, 30)
  {
  }

  lemma ReservationIsAllowed()
    ensures Reserve(LEASED, Some(OWNER), EMPTY_USAGE, ReservationFor(BROWSING, 1, POLICY, 10), ALLOWING, 2)
         == Allowed(DISPATCHED, ACTED_OWNER, SPENT)
  {
    hide GateCode, ReservationFor;
    NothingHoldsItBack();
    GateOpens(LEASED, OWNER);
  }

  const RESERVED := PREPARED.(
    db := Tables(map[ID := DISPATCHED], map[], map[0 := ACTED_OWNER], map[UsageId(0, 0) := SPENT]),
    workers := map[1 := Permitted(ID, 2)])

  /** The first reservation of this owner is allowed. */
  lemma FirstReservation(s: World)
    requires WorkerAt(s, 1) == Ready(ID, 1, 1, POLICY) && 2 !in s.issued
    requires ID in s.db.tasks && s.db.tasks[ID] == LEASED && s.db.settings == map[0 := OWNER]
    requires s.db.usages == map[] && s.past.slots == map[]
    ensures var s' := OnReserve(s, 1, ALLOWING, 2, 10);
            && s'.db.tasks == s.db.tasks[ID := DISPATCHED] && s'.db.executions == s.db.executions
            && s'.db.settings == s.db.settings[0 := ACTED_OWNER]
            && s'.db.usages == s.db.usages[UsageId(0, 0) := SPENT]
            && s'.workers == s.workers[1 := Permitted(ID, 2)] && s'.issued == s.issued + {2}
            && s'.past == s.past.(permits := s.past.permits[ID := 2],
                                  slots := s.past.slots[0 := [Slot(ID, 10, 30)]])
  {
    hide Reserve, ReservationFor, Translate, ReachesUsage;
    NothingHoldsItBack();
    ReservationIsAllowed();
    assert LEASED.spec == BROWSING && ReadyToDispatch(s, 1);
    assert [] + [Slot(ID, 10, 30)] == [Slot(ID, 10, 30)];
  }

  lemma DispatchIsReserved()
    ensures Step(INSPECTED, ReserveDispatch(1, ALLOWING, 2, 10)) == RESERVED
  {
    hide OnReserve, Claimed, Translate, NewTask;
    FirstReservation(INSPECTED);
    assert INSPECTED.db.tasks[ID := DISPATCHED] == map[ID := DISPATCHED];
  }

  /** A first preparation creates, links and starts the audit row. */
  lemma FirstPreparation(s: World)
    requires WorkerAt(s, 1) == Permitted(ID, 2) && BROWSING.Execution() !in s.db.executions
    requires ID in s.db.tasks && s.db.tasks[ID] == DISPATCHED
    ensures OnPrepare(s, 1, 0, Durable, NoCode, 20)
         == Moved(WithExecution(WithTask(s, ID, LINKED), BROWSING.Execution(), RUNNING), 1, Prepared(ID, 2, 0))
  {
  }

  lemma ExecutionIsPrepared()
    ensures Step(RESERVED, PrepareExecution(1, 0, Durable, NoCode, 20)) == PREPARED
  {
    hide OnPrepare, Started, NewExecution;
    FirstPreparation(RESERVED);
  }

  lemma AfterApproach()
    ensures After(APPROACH) == PREPARED
  {
    hide Step;
    AfterOpening();
    ClaimIsTaken();
    InspectionProceeds();
    DispatchIsReserved();
    ExecutionIsPrepared();
    AfterOne(OPENING, APPROACH[3]);
    assert OPENING + [APPROACH[3]] == APPROACH[..4];
    AfterOne(APPROACH[..4], APPROACH[4]);
    assert APPROACH[..4] + [APPROACH[4]] == APPROACH[..5];
    AfterOne(APPROACH[..5], APPROACH[5]);
    assert APPROACH[..5] + [APPROACH[5]] == APPROACH[..6];
    AfterOne(APPROACH[..6], APPROACH[6]);
    assert APPROACH[..6] + [APPROACH[6]] == APPROACH;
  }

  const PERFORMED := [Invocation(ID, 2, ALLOWING, PREPARED.db, 30)]

  function Acting(fate: CommitFate): Event {
    Act(1, ALLOWING, Returned("seen"), fate, NoCode, 30)
  }

  lemma FinalGatePasses()
    ensures PermitHolds(LINKED, 2, Some(RUNNING), BROWSING.Execution(), 0, Some(ACTED_OWNER), ALLOWING, 30)
  {
    hide GateCode;
    GateOpens(LINKED, ACTED_OWNER);
  }

  const RECORDED := PREPARED.(
    db := PREPARED.db.(executions := map[BROWSING.Execution() := SucceededExecution(RUNNING, "seen", 30)]),
    workers := map[1 := Closing(ID, 2, SucceededWith("seen"), true)],
    past := PREPARED.past.(log := PERFORMED))

  const UNRECORDED := PREPARED.(
    workers := map[1 := Finalizing(ID, 2, OutcomeUnknown, DispatchOutcomeUnknown, true)],
    past := PREPARED.past.(log := PERFORMED, escaped := {ID}))

  lemma ActionIsRecorded()
    ensures OnAct(PREPARED, 1, ALLOWING, Returned("seen"), Durable, NoCode, 30) == RECORDED
  {
    hide PermitHolds, Started, NewExecution, SucceededExecution;
    FinalGatePasses();
  }

  lemma LostAct(s: World)
    requires WorkerAt(s, 1) == Prepared(ID, 2, 0) && ID in s.db.tasks && s.db.tasks[ID] == LINKED
    requires Lookup(s.db.executions, BROWSING.Execution()) == Some(RUNNING)
    requires Lookup(s.db.settings, 0) == Some(ACTED_OWNER)
    ensures OnAct(s, 1, ALLOWING, Returned("seen"), Lost, NoCode, 30) == s.(
              workers := s.workers[1 := Finalizing(ID, 2, OutcomeUnknown, DispatchOutcomeUnknown, true)],
              past := s.past.(log := s.past.log + [Invocation(ID, 2, ALLOWING, s.db, 30)],
                              escaped := s.past.escaped + {ID}))
  {
    hide PermitHolds, Started, NewExecution, SucceededExecution, Lookup;
    FinalGatePasses();
    assert LINKED.spec == BROWSING;
  }

  lemma ActionIsLost()
    ensures OnAct(PREPARED, 1, ALLOWING, Returned("seen"), Lost, NoCode, 30) == UNRECORDED
  {
    hide OnAct, Started, NewExecution;
    LostAct(PREPARED);
    assert [] + PERFORMED == PERFORMED && {} + {ID} == {ID};
  }

  lemma ActionIsPerformed()
    ensures Step(PREPARED, Acting(Durable)) == RECORDED
    ensures Step(PREPARED, Acting(Lost)) == UNRECORDED
  {
    hide OnAct;
    ActionIsRecorded();
    ActionIsLost();
  }

  /** The holder of the permit ends the task: what is stored is what ending its rows gives. */
  lemma EndIsStored(s: World, c: Completion, now: int, rows: Rows)
    requires WorkerAt(s, 1) == Closing(ID, 2, c, true)
    requires ID in s.db.tasks && s.db.tasks[ID] == LINKED
    requires Finish(RowsFor(s.db, LINKED), c, now) == Success(rows)
    ensures var s' := Step(s, Complete(1, now));
            s'.db == Store(s.db, ID, LINKED, rows) && s'.past.log == s.past.log && s'.past.escaped == s.past.escaped
  {
    hide Finish, RowsFor, Store, Resolve, GrantsRetry;
    assert MayFinish(LINKED, 2);
  }

  const RECORDED_ROWS := Rows(LINKED, Some(SucceededExecution(RUNNING, "seen", 30)), Some(ACTED_OWNER), Some(SPENT))

  lemma RecordedEnd()
    ensures var end := Finish(RECORDED_ROWS, SucceededWith("seen"), 40);
            end.Success? && end.value.task.status == Succeeded && end.value.task.resultId == "seen"
  {
    hide SettingAfter, Outcomes;
  }

  lemma RecordedSucceeds()
    ensures var s := Step(RECORDED, Complete(1, 40));
            && s.past.log == PERFORMED && s.past.escaped == {}
            && ID in s.db.tasks && s.db.tasks[ID].status == Succeeded
            && s.db.tasks[ID].resultId == "seen"
  {
    hide Step, Finish, SucceededExecution;
    RecordedEnd();
    assert RowsFor(RECORDED.db, LINKED) == RECORDED_ROWS;
    EndIsStored(RECORDED, SucceededWith("seen"), 40, Finish(RECORDED_ROWS, SucceededWith("seen"), 40).value);
  }

  /** A whole run from the empty store that acts once and records it. */
  lemma SomeRunSucceeds()
    ensures var s := After(APPROACH + [Acting(Durable), Complete(1, 40)]);
            && |s.past.log| == 1 && s.past.log[0].id == ID && s.past.escaped == {}
            && ID in s.db.tasks && s.db.tasks[ID].status == Succeeded
            && s.db.tasks[ID].resultId == "seen"
  {
    hide Step;
    AfterApproach();
    ActionIsPerformed();
    RecordedSucceeds();
    AfterOne(APPROACH, Acting(Durable));
    AfterOne(APPROACH + [Acting(Durable)], Complete(1, 40));
    assert APPROACH + [Acting(Durable)] + [Complete(1, 40)] == APPROACH + [Acting(Durable), Complete(1, 40)];
  }

  const LOST := UnknownWith(DispatchOutcomeUnknown)

  const ABANDONED := UNRECORDED.(workers := map[1 := Closing(ID, 2, LOST, true)])

  lemma GivesUpRecording(s: World)
    requires WorkerAt(s, 1) == Finalizing(ID, 2, OutcomeUnknown, DispatchOutcomeUnknown, true) && ID in s.db.tasks
    ensures OnFinalize(s, 1, true, 40) == Moved(s, 1, Closing(ID, 2, LOST, true))
  {
  }

  lemma UnrecordedIsAbandoned()
    ensures Step(UNRECORDED, Finalize(1, true, 40)) == ABANDONED
  {
    hide OnFinalize, Started, NewExecution;
    GivesUpRecording(UNRECORDED);
  }

  const LOST_ROWS := Rows(LINKED, Some(RUNNING), Some(ACTED_OWNER), Some(SPENT))

  lemma LostEnd()
    ensures var end := Finish(LOST_ROWS, LOST, 50);
            && end.Success? && end.value.task.status == ManualReview && end.value.task.unknown
            && end.value.setting.Some?
            && end.value.setting.value.haltedAt == Some(50) && end.value.setting.value.failures == 1
  {
    hide Outcomes;
    assert Resolve(LINKED, Some(RUNNING), LOST, 50)
        == NeedsReview(DispatchOutcomeUnknown, Some(UnknownExecution(RUNNING, DispatchOutcomeUnknown, 50)));
  }

  lemma AbandonedIsReviewed()
    ensures var s := Step(ABANDONED, Complete(1, 50));
            && s.past.log == PERFORMED && s.past.escaped == {ID}
            && ID in s.db.tasks && s.db.tasks[ID].status == ManualReview && s.db.tasks[ID].unknown
            && 0 in s.db.settings && s.db.settings[0].haltedAt == Some(50) && s.db.settings[0].failures == 1
  {
    hide Step, Finish, Started, NewExecution, UnknownWith;
    LostEnd();
    assert RowsFor(ABANDONED.db, LINKED) == LOST_ROWS;
    EndIsStored(ABANDONED, LOST, 50, Finish(LOST_ROWS, LOST, 50).value);
  }

  /** A whole run that acts once and loses the record: the task ends in review and its owner
      is halted. */
  lemma SomeRecordIsLost()
    ensures After(APPROACH + [Acting(Lost)]).past.log == PERFORMED
    ensures var s := After(APPROACH + [Acting(Lost), Finalize(1, true, 40), Complete(1, 50)]);
            && |s.past.log| == 1 && s.past.log[0].id == ID && s.past.escaped == {ID}
            && ID in s.db.tasks && s.db.tasks[ID].status == ManualReview && s.db.tasks[ID].unknown
            && 0 in s.db.settings && s.db.settings[0].haltedAt == Some(50) && s.db.settings[0].failures == 1
  {
    hide Step;
    AfterApproach();
    ActionIsPerformed();
    UnrecordedIsAbandoned();
    AbandonedIsReviewed();
    var acted := APPROACH + [Acting(Lost)];
    AfterOne(APPROACH, Acting(Lost));
    AfterOne(acted, Finalize(1, true, 40));
    AfterOne(acted + [Finalize(1, true, 40)], Complete(1, 50));
    assert acted + [Finalize(1, true, 40)] + [Complete(1, 50)]
        == APPROACH + [Acting(Lost), Finalize(1, true, 40), Complete(1, 50)];
  }
}
