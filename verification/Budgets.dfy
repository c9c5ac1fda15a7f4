/** The daily ledger and the spacing of actions, over every run. */
module Budgets {
  import opened Vocabulary
  import opened Policies
  import opened Transitions
  import opened Protocol
  import opened Invariant
  import opened Frames
  import opened Endings
  import opened EndSteps
  import opened DispatchSteps
  import opened Progress
  import opened Safety

  // ------------------------------------------------------------- conservation

  lemma LedgerIsSound(s: World, k: UsageId)
    requires Inv(s)
    ensures k in s.db.usages ==> UsageOk(s, k, s.db.usages[k])
    ensures k !in s.db.usages ==> Reserved(s, k) == {}
  {
    if k !in s.db.usages { EmptyDay(s, k); }
  }

  /** For every owner and day: the total is the sum of the six categories and the number
      of tasks reserved for that day and not refunded; each category, the failures and the
      unknown outcomes count exactly their tasks. */
  lemma LedgerIsConserved(events: seq<Event>, k: UsageId)
    ensures var s := After(events);
            if k in s.db.usages then
              var u := s.db.usages[k];
              && u.total == u.reply + u.outreach + u.post + u.relationship + u.browse + u.matching
              && u.total == |Reserved(s, k) - s.past.refunded|
              && (forall c: Category :: u.Count(c) == |ChargedTo(s, k, c)|)
              && u.failed == |EndedBadly(s, k)| && u.unknown == |EndedUnknown(s, k)|
            else Reserved(s, k) == {}
  {
    hide Inv;
    EveryStateIsSound(events);
    LedgerIsSound(After(events), k);
    assert Charged(After(events), k) == Reserved(After(events), k) - After(events).past.refunded;
  }

  lemma RefundIsSound(s: World, id: TaskId)
    requires Inv(s) && id in s.past.refunded
    ensures id in s.db.tasks && s.db.tasks[id].budgetDay.Some? && s.db.tasks[id].status == Failed
    ensures RetryableCode(s.db.tasks[id].code)
  {
  }

  /** Only a retryable known failure is ever refunded. */
  lemma OnlyKnownFailuresAreRefunded(events: seq<Event>, id: TaskId)
    requires id in After(events).past.refunded
    ensures id in After(events).db.tasks
    ensures var t := After(events).db.tasks[id];
            && t.status == Failed && !t.unknown && t.code == ExternalDiscoveryUnavailable
            && t.budgetDay.Some?
  {
    hide Inv;
    EveryStateIsSound(events);
    RefundIsSound(After(events), id);
    TaskIsSound(After(events), id);
  }

  lemma RefundsLeft(s: World, e: Event)
    requires !e.Complete?
    ensures Step(s, e).past.refunded == s.past.refunded
  {
    hide QuietWindowEnd, Preflight, PolicyFromRows, CompletionFor, Recorded, PreparedRow, SameAction, Configure;
    hide Disable;
    hide WellFormedSpec, GenerationBegun, Claimed, Claimable, DeferredTask, Withdrawn, CancelledExecution;
    hide UnknownExecution;
    hide Reserve, ReachesUsage, Finish, Sweep, GrantsRetry, Resolve, Store, PermitHolds, HoldsLiveLease;
  }

  lemma CompletionRefunds(s: World, w: WorkerId, now: int)
    ensures var s' := OnComplete(s, w, now);
            || s'.past.refunded == s.past.refunded
            || (WorkerAt(s, w).Closing? && s'.past.refunded == s.past.refunded + {WorkerAt(s, w).id})
  {
    hide Finish, GrantsRetry, Resolve, Store, MayFinish;
  }

  lemma UsagesStay(s: World, s': World, k: UsageId, claimed: set<TaskId>)
    requires TasksOnward(s, s', claimed)
    ensures Reserved(s, k) <= Reserved(s', k)
  {
  }

  lemma LosesOne<T>(before: set<T>, after: set<T>, x: T)
    requires before - {x} <= after && |after| < |before|
    ensures x in before && |after| == |before| - 1
  {
    if x !in before { assert before - {x} == before; }
    SubsetSize(before - {x}, after);
    if x !in before { SubsetSize(before, after); }
  }

  /** A day's total falls only when one task, never refunded before, is refunded, and
      then by exactly one. */
  lemma TotalFallsOnlyByOneRefund(events: seq<Event>, e: Event, k: UsageId)
    requires k in After(events).db.usages && k in After(events + [e]).db.usages
    requires After(events + [e]).db.usages[k].total < After(events).db.usages[k].total
    ensures var s, s' := After(events), After(events + [e]);
            && s'.db.usages[k].total == s.db.usages[k].total - 1
            && exists id :: id in Reserved(s, k) && id !in s.past.refunded && s'.past.refunded == s.past.refunded + {id}
  {
    hide Inv, Step, TasksOnward;
    var s, s' := After(events), After(events + [e]);
    EveryStateIsSound(events);
    EveryStateIsSound(events + [e]);
    AfterOne(events, e);
    StepOnward(s, e);
    UsagesStay(s, s', k, Taken(s, e));
    LedgerIsSound(s, k);
    LedgerIsSound(s', k);
    RefundsOfStep(s, s', e, k);
  }

  lemma RefundsOfStep(s: World, s': World, e: Event, k: UsageId)
    requires s' == Step(s, e) && Reserved(s, k) <= Reserved(s', k) && |Charged(s', k)| < |Charged(s, k)|
    ensures exists id :: id in Reserved(s, k) && id !in s.past.refunded && s'.past.refunded == s.past.refunded + {id}
    ensures |Charged(s', k)| == |Charged(s, k)| - 1
  {
    hide Step, Reserved;
    if s'.past.refunded == s.past.refunded {
      SubsetSize(Charged(s, k), Charged(s', k));
    } else {
      if e.Complete? { CompletedStep(s, e); } else { RefundsLeft(s, e); }
      var id := WorkerAt(s, e.worker).id;
      LosesOne(Charged(s, k), Charged(s', k), id);
    }
  }

  lemma CompletedStep(s: World, e: Event)
    requires e.Complete?
    ensures var s' := Step(s, e);
            || s'.past.refunded == s.past.refunded
            || (WorkerAt(s, e.worker).Closing? && s'.past.refunded == s.past.refunded + {WorkerAt(s, e.worker).id})
  {
    hide OnComplete;
    CompletionRefunds(s, e.worker, e.now);
  }

  // ------------------------------------------------------------------- limits

  ghost predicate WithinLimits(s: World, s': World, id: TaskId, now: int)
    requires id in s.db.tasks && id in s.past.pinned && id.owner in s.db.settings
  {
    var c := s.past.pinned[id];
    var k := UsageId(id.owner, LocalDay(c.zoneOffset, now));
    var u := if k in s.db.usages then s.db.usages[k] else EMPTY_USAGE;
    var category := s.db.tasks[id].spec.Category();
    && c == s.db.settings[id.owner].content
    && u.total < c.dailyTotal && u.Count(category) < CategoryLimit(c, category)
    && (s.db.settings[id.owner].lastActionAt.Some? ==>
          now >= s.db.settings[id.owner].lastActionAt.value + c.minimumInterval)
    && k in s'.db.usages && s'.db.usages[k] == Booked(u, category, now)
    && id in s'.db.tasks && s'.db.tasks[id].status == Dispatching && s'.db.tasks[id].budgetDay == Some(k.day)
  }

  /** A new permit comes from an allowed reservation, whose rows are stored. */
  lemma NewPermit(s: World, w: WorkerId, env: Environment, permit: Token, now: int, id: TaskId)
    requires id !in s.past.permits && id in OnReserve(s, w, env, permit, now).past.permits
    ensures ReadyToDispatch(s, w) && id == WorkerAt(s, w).id
    ensures var me := WorkerAt(s, w);
            var t := s.db.tasks[id];
            var r := ReservationFor(t.spec, me.token, me.policy, now);
            var k := UsageId(t.spec.owner, r.budgetDay);
            var u := if k in s.db.usages then s.db.usages[k] else EMPTY_USAGE;
            var d := Reserve(t, Lookup(s.db.settings, t.spec.owner), u, r, env, permit);
            var s' := OnReserve(s, w, env, permit, now);
            d.Allowed? && s'.db.tasks == s.db.tasks[id := d.task] && s'.db.usages == s.db.usages[k := d.usage]
  {
    hide Reserve, ReachesUsage, ReservationFor;
  }

  lemma ReservationIsLimited(s: World, w: WorkerId, env: Environment, permit: Token, now: int, id: TaskId)
    requires Inv(s) && id in s.db.tasks && id !in s.past.permits
    requires id in OnReserve(s, w, env, permit, now).past.permits
    ensures id in s.past.pinned && id.owner in s.db.settings
    ensures WithinLimits(s, OnReserve(s, w, env, permit, now), id, now)
  {
    hide Inv, Reserve, GateCode, OnReserve;
    NewPermit(s, w, env, permit, now, id);
    var me := WorkerAt(s, w);
    var t := s.db.tasks[id];
    var r := ReservationFor(t.spec, me.token, me.policy, now);
    var k := UsageId(t.spec.owner, r.budgetDay);
    var u := if k in s.db.usages then s.db.usages[k] else EMPTY_USAGE;
    AllowedShape(t, Lookup(s.db.settings, t.spec.owner), u, r, env, permit);
    TaskFacts(s, id);
    ReadyFacts(s, w, env, now);
  }

  /** A reservation, when it is made, was below both limits of the policy content its task
      was created under, and far enough from the owner's previous one; it then moves the
      day's total and its own category by exactly one. */
  lemma ReservationsRespectLimits(events: seq<Event>, w: WorkerId, env: Environment, permit: Token, now: int,
                                  id: TaskId)
    requires id in After(events).db.tasks && id !in After(events).past.permits
    requires id in OnReserve(After(events), w, env, permit, now).past.permits
    ensures id in After(events).past.pinned && id.owner in After(events).db.settings
    ensures WithinLimits(After(events), OnReserve(After(events), w, env, permit, now), id, now)
  {
    hide Inv, OnReserve, WithinLimits;
    EveryStateIsSound(events);
    ReservationIsLimited(After(events), w, env, permit, now, id);
  }

  // ------------------------------------------------------ unreachable failures

  /** Ending a task never raises: its ledger row exists, its budget day agrees with its
      dispatch time, and a refund always finds its reservation. */
  lemma CompletionNeverRaises(events: seq<Event>, w: WorkerId, now: int)
    requires var s := After(events);
             && WorkerAt(s, w).Closing? && WorkerAt(s, w).id in s.db.tasks
             && MayFinish(s.db.tasks[WorkerAt(s, w).id], WorkerAt(s, w).token)
    ensures var s := After(events);
            var me := WorkerAt(s, w);
            Finish(RowsFor(s.db, s.db.tasks[me.id]), me.completion, now).Success?
  {
    hide Inv, Finish;
    EveryStateIsSound(events);
    var s := After(events);
    var me := WorkerAt(s, w);
    ClosingFacts(s, w);
    WorkerFacts(s, w);
    TaskFacts(s, me.id);
    if s.db.tasks[me.id].status == Dispatching {
      DispatchedEndHasNoFault(s, me.id, me.completion, now);
    } else {
      PreDispatchEnd(s, me.id, me.completion, now);
    }
  }

  /** Neither does the recovery sweep. */
  lemma SweepNeverRaises(events: seq<Event>, id: TaskId, before: int, code: Code, now: int)
    requires id in After(events).db.tasks && Expired(After(events).db.tasks[id], before) && code != NoCode
    ensures Sweep(RowsFor(After(events).db, After(events).db.tasks[id]), code, now).Success?
  {
    hide Inv, Finish, Sweep, Resolve;
    EveryStateIsSound(events);
    var s := After(events);
    TaskFacts(s, id);
    HeldReservation(s, id);
    SweepIsEnd(s, id, before, code, now);
    SweepIsFinish(RowsFor(s.db, s.db.tasks[id]), code, now);
    DispatchedEndHasNoFault(s, id, RecoveryCompletion(s.db.tasks[id], RowsFor(s.db, s.db.tasks[id]).execution, code),
                            now);
  }

  /** The end of a dispatched and linked task always finds its own started audit row: the
      mismatch branch and the still-queued branch are never taken. */
  lemma EndFindsStartedAudit(events: seq<Event>, id: TaskId)
    requires id in After(events).db.tasks && After(events).db.tasks[id].status == Dispatching
    requires After(events).db.tasks[id].execution.Some?
    ensures var s := After(events);
            var x := RowsFor(s.db, s.db.tasks[id]).execution;
            x.Some? && Bound(s.db.tasks[id], x.value)
            && x.value.status in {ExecRunning, ExecSucceeded, ExecFailed, ExecManualReview}
  {
    hide Inv;
    EveryStateIsSound(events);
    TaskIsSound(After(events), id);
  }

  // ------------------------------------------------------------------ spacing

  lemma SlotsAreSound(s: World, o: OwnerId)
    requires Inv(s)
    ensures o in s.db.settings ==>
              SlotsOk(s, o, SlotsOf(s, o)) && s.db.settings[o].lastActionAt == LastAt(SlotsOf(s, o))
    ensures o !in s.db.settings ==> SlotsOf(s, o) == []
  {
  }

  /** Successive reservations of one owner are at least the interval apart that was in
      force for the later one, whatever the clocks of the workers say. */
  lemma ActionsAreSpaced(events: seq<Event>, o: OwnerId, i: nat, j: nat)
    requires i < j < |SlotsOf(After(events), o)|
    ensures var slots := SlotsOf(After(events), o);
            && slots[j].interval >= 10 && slots[j].at >= slots[i].at + slots[j].interval
            && slots[i].id != slots[j].id
  {
    hide Inv;
    EveryStateIsSound(events);
    SlotsAreSound(After(events), o);
    var slots := SlotsOf(After(events), o);
    assert slots[i].at < slots[j].at;
  }

  /** The reservations are exactly the owner's dispatched tasks, each at its own time. */
  lemma SlotsAreDispatches(events: seq<Event>, id: TaskId)
    requires id in After(events).db.tasks && After(events).db.tasks[id].dispatchStartedAt.Some?
    ensures exists i :: 0 <= i < |SlotsOf(After(events), id.owner)|
              && SlotsOf(After(events), id.owner)[i].id == id
              && Some(SlotsOf(After(events), id.owner)[i].at) == After(events).db.tasks[id].dispatchStartedAt
  {
    hide Inv;
    EveryStateIsSound(events);
    TaskFacts(After(events), id);
    SlotsAreSound(After(events), id.owner);
    var slots := SlotsOf(After(events), id.owner);
    assert id in SlotIds(slots);
  }

  /** How many slots fall in the closed window. */
  function CountIn(slots: seq<Slot>, a: int, b: int): nat {
    if slots == [] then 0
    else
      var last := slots[|slots| - 1];
      CountIn(slots[..|slots| - 1], a, b) + (if a <= last.at <= b then 1 else 0)
  }

  lemma {:induction false} CountCapped(slots: seq<Slot>, a: int, b: int, cap: int)
    requires cap <= b && forall i :: 0 <= i < |slots| ==> slots[i].at <= cap
    ensures CountIn(slots, a, b) == CountIn(slots, a, cap)
  {
    if slots != [] { CountCapped(slots[..|slots| - 1], a, b, cap); }
  }

  /** One more slot, an interval later. */
  lemma OneMore(n: nat, interval: int, d: int)
    requires interval > 0 && d >= 0 && (n == 0 || (n - 1) * interval <= d - interval)
    ensures n * interval <= d
  {
    assert n * interval == (n - 1) * interval + interval;
  }

  lemma {:induction false} WindowHolds(slots: seq<Slot>, a: int, b: int, interval: int)
    requires interval > 0 && Spaced(slots)
    requires forall i :: 0 <= i < |slots| ==> slots[i].interval >= interval
    ensures CountIn(slots, a, b) == 0 || (CountIn(slots, a, b) - 1) * interval <= b - a
  {
    if slots != [] {
      var rest, last := slots[..|slots| - 1], slots[|slots| - 1];
      if a <= last.at <= b {
        CountCapped(rest, a, b, last.at - interval);
        WindowHolds(rest, a, last.at - interval, interval);
        OneMore(CountIn(rest, a, last.at - interval), interval, last.at - a);
        assert (CountIn(slots, a, b) - 1) == CountIn(rest, a, last.at - interval);
      } else {
        WindowHolds(rest, a, b, interval);
      }
    }
  }

  /** With interval I in force, at most (b - a) / I + 1 reservations fall in any window. */
  lemma WindowIsBounded(events: seq<Event>, o: OwnerId, a: int, b: int, interval: int)
    requires interval > 0 && a <= b
    requires forall i :: 0 <= i < |SlotsOf(After(events), o)| ==> SlotsOf(After(events), o)[i].interval >= interval
    ensures CountIn(SlotsOf(After(events), o), a, b) <= (b - a) / interval + 1
  {
    hide Inv;
    EveryStateIsSound(events);
    SlotsAreSound(After(events), o);
    var slots := SlotsOf(After(events), o);
    WindowHolds(slots, a, b, interval);
    QuotientBound(CountIn(slots, a, b) - 1, b - a, interval);
  }

  lemma QuotientBound(n: int, d: int, interval: int)
    requires interval > 0 && d >= 0 && (n < 0 || n * interval <= d)
    ensures n <= d / interval
  {
    assert d < (d / interval + 1) * interval;
    if n >= 0 { ProductsCompare(n, d / interval + 1, interval); }
  }

  lemma ProductsCompare(m: int, n: int, interval: int)
    requires interval > 0 && m * interval < n * interval
    ensures m < n
  {
    assert (n - m) * interval > 0;
  }
}
