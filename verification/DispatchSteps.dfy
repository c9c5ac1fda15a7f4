/** Reserving a dispatch, preparing its audit row and performing the action keep the
    invariant. */
module DispatchSteps {
  import opened Vocabulary
  import opened Policies
  import opened Transitions
  import opened Protocol
  import opened Invariant
  import opened Frames
  import opened EndSteps

  // --------------------------------------------------------------- reservation

  /** The rows and the history that one allowed reservation writes. */
  function WithReservation(s: World, id: TaskId, t': Task, row': Setting, k: UsageId, u': Usage, permit: Token,
                           slot: Slot): World {
    var o := t'.spec.owner;
    var slots := if o in s.past.slots then s.past.slots[o] else [];
    s.(db := s.db.(tasks := s.db.tasks[id := t'], settings := s.db.settings[o := row'], usages := s.db.usages[k := u']),
       past := s.past.(permits := s.past.permits[id := permit], slots := s.past.slots[o := slots + [slot]]))
  }

  function Booked(u: Usage, category: Category, at: int): Usage {
    u.Add(category, 1).(total := u.total + 1, lastActionAt := Some(at))
  }

  /** What makes a reservation well formed against the rows it was decided on. */
  ghost predicate ReservationFits(s: World, id: TaskId, t': Task, row': Setting, k: UsageId, u: Usage, u': Usage,
                                  permit: Token, slot: Slot) {
    && id in s.db.tasks && s.db.tasks[id].status in {Leased, Generating}
    && var t := s.db.tasks[id];
    && t.budgetDay.None? && t.dispatchStartedAt.None? && t.execution.None? && 1 <= t.attempts <= MAX_ATTEMPTS
    && t.spec.Id() == id && !t.unknown
    && t.spec.owner in s.db.settings
    && t' == t.(status := Dispatching, actionKey := Some(t.spec.Key()), budgetDay := Some(k.day),
                dispatchStartedAt := Some(slot.at), token := Some(permit), leaseUntil := None)
    && k.owner == t.spec.owner
    && u == (if k in s.db.usages then s.db.usages[k] else EMPTY_USAGE)
    && u' == Booked(u, t.spec.Category(), slot.at)
    && row' == s.db.settings[t.spec.owner].(lastActionAt := Some(slot.at), lastRunAt := Some(slot.at))
    && slot.id == id && slot.interval >= 10
    && (s.db.settings[t.spec.owner].lastActionAt.Some? ==>
          slot.at >= s.db.settings[t.spec.owner].lastActionAt.value + slot.interval)
    && permit in s.issued
    && (forall w :: w in s.workers && !s.workers[w].Idle? ==> s.workers[w].token != permit)
  }

  /** A day without a ledger row has no reservations. */
  lemma EmptyDay(s: World, k: UsageId)
    requires BudgetInv(s) && k !in s.db.usages
    ensures Reserved(s, k) == {}
  {
    forall id | id in s.db.tasks && s.db.tasks[id].budgetDay.Some? ensures id !in Reserved(s, k) {
      assert UsageId(s.db.tasks[id].spec.owner, s.db.tasks[id].budgetDay.value) in s.db.usages;
    }
  }

  lemma EmptyLedger(s: World, k: UsageId)
    requires Reserved(s, k) == {}
    ensures UsageOk(s, k, EMPTY_USAGE)
  {
    assert Charged(s, k) == {};
    assert EndedBadly(s, k) == {};
    assert EndedUnknown(s, k) == {};
    forall c: Category ensures EMPTY_USAGE.Count(c) == |ChargedTo(s, k, c)| { assert ChargedTo(s, k, c) == {}; }
  }

  lemma ReservedSets(s: World, s': World, id: TaskId, k: UsageId)
    requires id in s.db.tasks && s.db.tasks[id].budgetDay.None? && id !in s.past.refunded
    requires s'.past.refunded == s.past.refunded
    requires id in s'.db.tasks && s'.db.tasks == s.db.tasks[id := s'.db.tasks[id]]
    requires s'.db.tasks[id].spec == s.db.tasks[id].spec && s'.db.tasks[id].status == Dispatching
    requires s'.db.tasks[id].budgetDay == Some(k.day) && s.db.tasks[id].spec.owner == k.owner
    ensures id !in Charged(s, k) && Charged(s', k) == Charged(s, k) + {id}
    ensures EndedBadly(s', k) == EndedBadly(s, k) && EndedUnknown(s', k) == EndedUnknown(s, k)
  {
    assert Reserved(s', k) == Reserved(s, k) + {id};
  }

  lemma ReservedCategory(s: World, s': World, id: TaskId, k: UsageId, c: Category)
    requires id in s.db.tasks && s.db.tasks[id].budgetDay.None? && id !in s.past.refunded
    requires s'.past.refunded == s.past.refunded
    requires id in s'.db.tasks && s'.db.tasks == s.db.tasks[id := s'.db.tasks[id]]
    requires s'.db.tasks[id].spec == s.db.tasks[id].spec && s'.db.tasks[id].status == Dispatching
    requires s'.db.tasks[id].budgetDay == Some(k.day) && s.db.tasks[id].spec.owner == k.owner
    ensures id !in ChargedTo(s, k, c)
    ensures ChargedTo(s', k, c) ==
              (if c == s.db.tasks[id].spec.Category() then ChargedTo(s, k, c) + {id} else ChargedTo(s, k, c))
  {
    ReservedSets(s, s', id, k);
  }

  lemma OtherSets(s: World, s': World, id: TaskId, k: UsageId, other: UsageId)
    requires id in s.db.tasks && s.db.tasks[id].budgetDay.None?
    requires s'.past.refunded == s.past.refunded
    requires id in s'.db.tasks && s'.db.tasks == s.db.tasks[id := s'.db.tasks[id]]
    requires s'.db.tasks[id].spec == s.db.tasks[id].spec
    requires s'.db.tasks[id].budgetDay == Some(k.day) && s.db.tasks[id].spec.owner == k.owner && other != k
    ensures Reserved(s', other) == Reserved(s, other) && Charged(s', other) == Charged(s, other)
    ensures EndedBadly(s', other) == EndedBadly(s, other) && EndedUnknown(s', other) == EndedUnknown(s, other)
  {
    assert Reserved(s', other) == Reserved(s, other);
  }

  lemma OtherDays(s: World, s': World, id: TaskId, k: UsageId, other: UsageId, u: Usage)
    requires id in s.db.tasks && s.db.tasks[id].budgetDay.None?
    requires s'.past.refunded == s.past.refunded
    requires id in s'.db.tasks && s'.db.tasks == s.db.tasks[id := s'.db.tasks[id]]
    requires s'.db.tasks[id].spec == s.db.tasks[id].spec
    requires s'.db.tasks[id].budgetDay == Some(k.day) && s.db.tasks[id].spec.owner == k.owner
    requires other != k && UsageOk(s, other, u)
    requires forall o :: o in s.db.settings && s.db.settings[o].lastActionAt.Some? ==>
               o in s'.db.settings && s'.db.settings[o].lastActionAt.Some?
    ensures UsageOk(s', other, u)
  {
    OtherSets(s, s', id, k, other);
    forall c: Category ensures ChargedTo(s', other, c) == ChargedTo(s, other, c) {}
  }

  lemma AddCounts(u: Usage, category: Category, at: int)
    ensures var u' := Booked(u, category, at);
            && u'.total == u.total + 1 && u'.Sum() == u.Sum() + 1
            && (forall c: Category :: u'.Count(c) == if c == category then u.Count(c) + 1 else u.Count(c))
            && u'.failed == u.failed && u'.unknown == u.unknown
  {
  }

  lemma ReserveThatDay(s: World, s': World, id: TaskId, k: UsageId, u: Usage, at: int)
    requires id in s.db.tasks && s.db.tasks[id].budgetDay.None? && id !in s.past.refunded
    requires s'.past.refunded == s.past.refunded
    requires id in s'.db.tasks && s'.db.tasks == s.db.tasks[id := s'.db.tasks[id]]
    requires s'.db.tasks[id].spec == s.db.tasks[id].spec && s'.db.tasks[id].status == Dispatching
    requires s'.db.tasks[id].budgetDay == Some(k.day) && s.db.tasks[id].spec.owner == k.owner
    requires UsageOk(s, k, u)
    requires k.owner in s'.db.settings && s'.db.settings[k.owner].lastActionAt.Some?
    ensures UsageOk(s', k, Booked(u, s.db.tasks[id].spec.Category(), at))
  {
    var mine := s.db.tasks[id].spec.Category();
    var u' := Booked(u, mine, at);
    AddCounts(u, mine, at);
    forall c: Category ensures u'.Count(c) == |ChargedTo(s', k, c)| {
      ReservedCategory(s, s', id, k, c);
      assert u.Count(c) == |ChargedTo(s, k, c)|;
    }
    ReservedSets(s, s', id, k);
  }

  lemma LedgerBefore(s: World, id: TaskId, t': Task, row': Setting, k: UsageId, u: Usage, u': Usage, permit: Token,
                     slot: Slot)
    requires BudgetInv(s) && ReservationFits(s, id, t', row', k, u, u', permit, slot)
    ensures UsageOk(s, k, u) && id !in s.past.refunded
  {
    if k !in s.db.usages {
      EmptyDay(s, k);
      EmptyLedger(s, k);
    }
  }

  /** The parts of a reservation that the ledger looks at. */
  ghost predicate LedgerMove(s: World, s': World, id: TaskId, k: UsageId) {
    && id in s.db.tasks && s.db.tasks[id].budgetDay.None? && id !in s.past.refunded
    && s'.past.refunded == s.past.refunded
    && id in s'.db.tasks && s'.db.tasks == s.db.tasks[id := s'.db.tasks[id]]
    && s'.db.tasks[id].spec == s.db.tasks[id].spec && s'.db.tasks[id].status == Dispatching
    && s'.db.tasks[id].budgetDay == Some(k.day) && s.db.tasks[id].spec.owner == k.owner
    && k.owner in s'.db.settings && s'.db.settings[k.owner].lastActionAt.Some?
    && (forall o :: o in s.db.settings && s.db.settings[o].lastActionAt.Some? ==>
          o in s'.db.settings && s'.db.settings[o].lastActionAt.Some?)
  }

  lemma ReservationMovesLedger(s: World, id: TaskId, t': Task, row': Setting, k: UsageId, u: Usage, u': Usage,
                               permit: Token, slot: Slot)
    requires ReservationFits(s, id, t', row', k, u, u', permit, slot) && id !in s.past.refunded
    ensures LedgerMove(s, WithReservation(s, id, t', row', k, u', permit, slot), id, k)
    ensures u' == Booked(u, s.db.tasks[id].spec.Category(), slot.at)
  {
  }

  lemma LedgersAfter(s: World, s': World, id: TaskId, k: UsageId, u: Usage, at: int)
    requires LedgerMove(s, s', id, k) && UsageOk(s, k, u)
    requires forall j :: j in s.db.usages ==> UsageOk(s, j, s.db.usages[j])
    requires s'.db.usages == s.db.usages[k := Booked(u, s.db.tasks[id].spec.Category(), at)]
    ensures forall j :: j in s'.db.usages ==> UsageOk(s', j, s'.db.usages[j])
  {
    forall j | j in s'.db.usages ensures UsageOk(s', j, s'.db.usages[j]) {
      if j == k { ReserveThatDay(s, s', id, k, u, at); }
      else { OtherDays(s, s', id, k, j, s.db.usages[j]); }
    }
  }

  lemma TrackedAfter(s: World, s': World, id: TaskId, k: UsageId)
    requires BudgetInv(s) && LedgerMove(s, s', id, k) && s'.db.usages.Keys == s.db.usages.Keys + {k}
    ensures forall j :: j in s'.db.tasks && s'.db.tasks[j].budgetDay.Some? ==>
              UsageId(s'.db.tasks[j].spec.owner, s'.db.tasks[j].budgetDay.value) in s'.db.usages
    ensures forall j :: j in s'.past.refunded ==>
              && j in s'.db.tasks && s'.db.tasks[j].budgetDay.Some?
              && s'.db.tasks[j].status == Failed && RetryableCode(s'.db.tasks[j].code)
  {
  }

  lemma BudgetAfter(s: World, s': World, id: TaskId, k: UsageId, u: Usage, at: int)
    requires BudgetInv(s) && LedgerMove(s, s', id, k) && UsageOk(s, k, u)
    requires s'.db.usages == s.db.usages[k := Booked(u, s.db.tasks[id].spec.Category(), at)]
    ensures BudgetInv(s')
  {
    TrackedAfter(s, s', id, k);
    LedgersAfter(s, s', id, k, u, at);
  }

  lemma BookReservation(s: World, s': World, id: TaskId, t': Task, row': Setting, k: UsageId, u: Usage, u': Usage,
                        permit: Token, slot: Slot)
    requires BudgetInv(s) && ReservationFits(s, id, t', row', k, u, u', permit, slot)
    requires UsageOk(s, k, u) && id !in s.past.refunded
    requires s' == WithReservation(s, id, t', row', k, u', permit, slot)
    ensures BudgetInv(s')
  {
    ReservationMovesLedger(s, id, t', row', k, u, u', permit, slot);
    BudgetAfter(s, s', id, k, u, slot.at);
  }

  lemma ReserveBudget(s: World, s': World, id: TaskId, t': Task, row': Setting, k: UsageId, u: Usage, u': Usage,
                      permit: Token, slot: Slot)
    requires BudgetInv(s) && ReservationFits(s, id, t', row', k, u, u', permit, slot)
    requires s' == WithReservation(s, id, t', row', k, u', permit, slot)
    ensures BudgetInv(s')
  {
    LedgerBefore(s, id, t', row', k, u, u', permit, slot);
    BookReservation(s, s', id, t', row', k, u, u', permit, slot);
  }

  lemma ReserveSpacing(s: World, id: TaskId, t': Task, row': Setting, k: UsageId, u: Usage, u': Usage, permit: Token,
                       slot: Slot)
    requires SpacingInv(s) && ReservationFits(s, id, t', row', k, u, u', permit, slot)
    ensures SpacingInv(WithReservation(s, id, t', row', k, u', permit, slot))
  {
    hide Spaced, SlotsOk, ReservationFits;
    var s' := WithReservation(s, id, t', row', k, u', permit, slot);
    var o := t'.spec.owner;
    SlotFits(s, id, t', row', k, u, u', permit, slot);
    forall p | p in s'.db.settings
      ensures SlotsOk(s', p, SlotsOf(s', p)) && s'.db.settings[p].lastActionAt == LastAt(SlotsOf(s', p))
    {
      if p == o { AppendSlot(s, s', id, o, slot); } else { OtherSlots(s, s', id, o, p, SlotsOf(s, p)); }
    }
  }

  /** What the spacing of an owner needs to know of a reservation. */
  lemma SlotFits(s: World, id: TaskId, t': Task, row': Setting, k: UsageId, u: Usage, u': Usage, permit: Token,
                 slot: Slot)
    requires ReservationFits(s, id, t', row', k, u, u', permit, slot)
    ensures var o := t'.spec.owner;
            && slot.id == id && slot.interval >= 10 && o in s.db.settings
            && (s.db.settings[o].lastActionAt.Some? ==> slot.at >= s.db.settings[o].lastActionAt.value + slot.interval)
            && id in s.db.tasks && s.db.tasks[id].dispatchStartedAt.None? && s.db.tasks[id].spec.owner == o
            && t'.dispatchStartedAt == Some(slot.at) && row'.lastActionAt == Some(slot.at)
  {
  }

  lemma OtherSlots(s: World, s': World, id: TaskId, o: OwnerId, p: OwnerId, slots: seq<Slot>)
    requires SlotsOk(s, p, slots) && p != o
    requires id in s.db.tasks && s.db.tasks[id].spec.owner == o
    requires id in s'.db.tasks && s'.db.tasks == s.db.tasks[id := s'.db.tasks[id]] && s'.db.tasks[id].spec.owner == o
    ensures SlotsOk(s', p, slots)
  {
    hide Spaced;
  }

  lemma AppendSlot(s: World, s': World, id: TaskId, o: OwnerId, slot: Slot)
    requires SlotsOk(s, o, SlotsOf(s, o)) && slot.id == id && slot.interval >= 10
    requires LastAt(SlotsOf(s, o)).Some? ==> slot.at >= LastAt(SlotsOf(s, o)).value + slot.interval
    requires id in s.db.tasks && s.db.tasks[id].dispatchStartedAt.None? && s.db.tasks[id].spec.owner == o
    requires id in s'.db.tasks && s'.db.tasks == s.db.tasks[id := s'.db.tasks[id]]
    requires s'.db.tasks[id].spec.owner == o && s'.db.tasks[id].dispatchStartedAt == Some(slot.at)
    ensures SlotsOk(s', o, SlotsOf(s, o) + [slot])
  {
    var slots := SlotsOf(s, o);
    var more := slots + [slot];
    AppendIds(slots, slot);
    assert Spaced(more) by { AppendSpaced(slots, slot); }
  }

  lemma AppendIds(slots: seq<Slot>, slot: Slot)
    ensures SlotIds(slots + [slot]) == SlotIds(slots) + {slot.id}
  {
    var more := slots + [slot];
    forall x | x in SlotIds(slots) + {slot.id} ensures x in SlotIds(more) {
      if x == slot.id { assert more[|slots|].id == x; }
      else {
        var i :| 0 <= i < |slots| && slots[i].id == x;
        assert more[i].id == x;
      }
    }
  }

  lemma AppendSpaced(slots: seq<Slot>, slot: Slot)
    requires Spaced(slots) && slot.interval >= 10
    requires LastAt(slots).Some? ==> slot.at >= LastAt(slots).value + slot.interval
    ensures Spaced(slots + [slot])
  {
    var more := slots + [slot];
    forall i, j | 0 <= i < j < |more| ensures more[j].at >= more[i].at + more[j].interval {
      if j == |slots| && i < |slots| - 1 { assert slots[|slots| - 1].at >= slots[i].at + slots[|slots| - 1].interval; }
    }
  }

  lemma ReserveTasks(s: World, id: TaskId, t': Task, row': Setting, k: UsageId, u: Usage, u': Usage, permit: Token,
                     slot: Slot)
    requires TasksInv(s.db) && ExecutionsInv(s.db) && ReservationFits(s, id, t', row', k, u, u', permit, slot)
    ensures var s' := WithReservation(s, id, t', row', k, u', permit, slot);
            TasksInv(s'.db) && ExecutionsInv(s'.db)
  {
    var db' := WithReservation(s, id, t', row', k, u', permit, slot).db;
    ExecutionsFrame(s.db, db');
    forall j | j in db'.tasks
      ensures TaskOk(j, db'.tasks[j]) && LinkOk(db', db'.tasks[j]) && db'.tasks[j].spec.owner in db'.settings
    {
      assert TaskOk(j, s.db.tasks[j]) && LinkOk(s.db, s.db.tasks[j]);
    }
  }

  lemma ReservePermits(s: World, id: TaskId, t': Task, row': Setting, k: UsageId, u: Usage, u': Usage, permit: Token,
                       slot: Slot)
    requires PermitsInv(s) && ReservationFits(s, id, t', row', k, u, u', permit, slot)
    ensures PermitsInv(WithReservation(s, id, t', row', k, u', permit, slot))
  {
  }

  lemma ReservePins(s: World, id: TaskId, t': Task, row': Setting, k: UsageId, u: Usage, u': Usage, permit: Token,
                    slot: Slot)
    requires SettingsInv(s) && ReservationFits(s, id, t', row', k, u, u', permit, slot)
    ensures SettingsInv(WithReservation(s, id, t', row', k, u', permit, slot))
  {
    SettingsFrame(s, WithReservation(s, id, t', row', k, u', permit, slot));
  }

  lemma ReserveWorkers(s: World, id: TaskId, t': Task, row': Setting, k: UsageId, u: Usage, u': Usage, permit: Token,
                       slot: Slot)
    requires WorkersInv(s) && PermitsInv(s) && ReservationFits(s, id, t', row', k, u, u', permit, slot)
    ensures WorkersInv(WithReservation(s, id, t', row', k, u', permit, slot))
  {
    var s' := WithReservation(s, id, t', row', k, u', permit, slot);
    assert id !in s.past.permits;
    forall w | w in s'.workers ensures WorkerOk(s', w, s'.workers[w]) {
      assert WorkerOk(s, w, s.workers[w]);
    }
  }

  lemma ReservePast(s: World, id: TaskId, t': Task, row': Setting, k: UsageId, u: Usage, u': Usage, permit: Token,
                    slot: Slot)
    requires LogInv(s) && EscapedInv(s) && PermitsInv(s) && ReservationFits(s, id, t', row', k, u, u', permit, slot)
    ensures var s' := WithReservation(s, id, t', row', k, u', permit, slot);
            LogInv(s') && EscapedInv(s')
  {
    hide SoundInvocation;
    assert id !in s.past.permits;
  }

  lemma ReserveRows(s: World, id: TaskId, t': Task, row': Setting, k: UsageId, u: Usage, u': Usage, permit: Token,
                    slot: Slot)
    requires Inv(s) && ReservationFits(s, id, t', row', k, u, u', permit, slot)
    ensures Inv(WithReservation(s, id, t', row', k, u', permit, slot))
  {
    ReserveTasks(s, id, t', row', k, u, u', permit, slot);
    ReservePermits(s, id, t', row', k, u, u', permit, slot);
    ReservePins(s, id, t', row', k, u, u', permit, slot);
    ReserveWorkers(s, id, t', row', k, u, u', permit, slot);
    ReservePast(s, id, t', row', k, u, u', permit, slot);
    ReserveBudget(s, WithReservation(s, id, t', row', k, u', permit, slot), id, t', row', k, u, u', permit, slot);
    ReserveSpacing(s, id, t', row', k, u, u', permit, slot);
  }

  // ----------------------------------------------------- a refused reservation

  lemma TouchedDay(s: World, s': World, k: UsageId)
    requires BudgetInv(s) && k !in s.db.usages
    requires s'.db.tasks == s.db.tasks
    ensures UsageOk(s', k, EMPTY_USAGE)
  {
    EmptyDay(s, k);
    assert Reserved(s', k) == Reserved(s, k);
    EmptyLedger(s', k);
  }

  lemma TouchedTracked(s: World, s': World, k: UsageId)
    requires BudgetInv(s) && s'.db.tasks == s.db.tasks && s'.past.refunded == s.past.refunded
    requires s'.db.usages.Keys == s.db.usages.Keys + {k}
    ensures forall id :: id in s'.db.tasks && s'.db.tasks[id].budgetDay.Some? ==>
              UsageId(s'.db.tasks[id].spec.owner, s'.db.tasks[id].budgetDay.value) in s'.db.usages
    ensures forall id :: id in s'.past.refunded ==>
              && id in s'.db.tasks && s'.db.tasks[id].budgetDay.Some?
              && s'.db.tasks[id].status == Failed && RetryableCode(s'.db.tasks[id].code)
  {
  }

  lemma TouchedBudget(s: World, s': World, k: UsageId)
    requires BudgetInv(s) && k !in s.db.usages
    requires s'.db.tasks == s.db.tasks && s'.past.refunded == s.past.refunded && s'.db.settings == s.db.settings
    requires s'.db.usages == s.db.usages[k := EMPTY_USAGE]
    ensures BudgetInv(s')
  {
    hide UsageOk;
    TouchedDay(s, s', k);
    TouchedOthers(s, s', k);
    TouchedTracked(s, s', k);
  }

  lemma TouchedOthers(s: World, s': World, k: UsageId)
    requires BudgetInv(s) && k !in s.db.usages
    requires s'.db.tasks == s.db.tasks && s'.past.refunded == s.past.refunded && s'.db.settings == s.db.settings
    requires s'.db.usages == s.db.usages[k := EMPTY_USAGE]
    ensures forall j :: j in s.db.usages ==> UsageOk(s', j, s'.db.usages[j])
  {
    forall j | j in s.db.usages ensures UsageOk(s', j, s'.db.usages[j]) {
      assert UsageOk(s, j, s.db.usages[j]);
      assert Reserved(s', j) == Reserved(s, j);
      assert Charged(s', j) == Charged(s, j);
      assert EndedBadly(s', j) == EndedBadly(s, j);
      assert EndedUnknown(s', j) == EndedUnknown(s, j);
      forall c: Category ensures ChargedTo(s', j, c) == ChargedTo(s, j, c) {}
    }
  }

  /** A refused reservation may leave an empty ledger row behind, and nothing else. */
  lemma TouchUsage(s: World, s': World, k: UsageId)
    requires Inv(s)
    requires s' == s.(db := s.db.(usages := s.db.usages[k := if k in s.db.usages then s.db.usages[k] else EMPTY_USAGE]))
    ensures Inv(s')
  {
    if k in s.db.usages {
      assert s.db.usages[k := s.db.usages[k]] == s.db.usages;
    } else {
      TouchedBudget(s, s', k);
      LedgerApartRows(s, s'.db.usages, s.past.refunded);
      LedgerApartPast(s, s'.db.usages, s.past.refunded);
      assert s' == s.(db := s.db.(usages := s'.db.usages), past := s.past.(refunded := s.past.refunded));
    }
  }

  lemma DeniedKeeps(s: World, w: WorkerId, k: UsageId, touched: bool, code: DispatchCode, retryAt: Option<int>,
                    me': Worker)
    requires Inv(s) && ReadyToDispatch(s, w)
    requires var me := WorkerAt(s, w);
             me' == if code == LeaseLost then Idle
                    else if code == MinimumInterval && retryAt.Some?
                    then Deferring(me.id, me.token, me.attempt, retryAt.value, MinimumIntervalPending)
                    else if code == SourceStale then Closing(me.id, me.token, StaleWith(DispatchDenied(code)), false)
                    else Closing(me.id, me.token, CancelledWith(DispatchDenied(code)), false)
    ensures var s1 := if touched
                      then s.(db :=
                        s.db.(usages := s.db.usages[k := if k in s.db.usages then s.db.usages[k] else EMPTY_USAGE]))
                      else s;
            Inv(Moved(s1, w, me'))
  {
    hide Inv;
    var s1 := if touched
              then s.(db := s.db.(usages := s.db.usages[k := if k in s.db.usages then s.db.usages[k] else EMPTY_USAGE]))
              else s;
    if touched { TouchUsage(s, s1, k); }
    WorkerFacts(s1, w);
    MoveWorker(s1, w, me');
  }

  // ---------------------------------------------------- an allowed reservation

  /** What a worker ready to dispatch knows, once its lease and the gate are confirmed:
      its limits, its interval and its day are those of the policy now in force. */
  lemma ReadyFacts(s: World, w: WorkerId, env: Environment, now: int)
    requires Inv(s) && ReadyToDispatch(s, w)
    requires var me := WorkerAt(s, w);
             var t := s.db.tasks[me.id];
             && HoldsLiveLease(t, me.token, now)
             && GateCode(t, GateRequestFor(t.spec), Lookup(s.db.settings, t.spec.owner), env).None?
    ensures var me := WorkerAt(s, w);
            var t := s.db.tasks[me.id];
            && t.attempts <= MAX_ATTEMPTS && t.spec.owner in s.db.settings
            && var c := s.db.settings[t.spec.owner].content;
            && c == s.past.pinned[me.id]
            && me.policy.dailyTotal == c.dailyTotal
            && me.policy.ActionLimit(t.spec.Action()) == CategoryLimit(c, t.spec.Category())
            && me.policy.minimumInterval == c.minimumInterval && c.minimumInterval >= 10
            && me.policy.zoneOffset == c.zoneOffset
  {
    var me := WorkerAt(s, w);
    assert WorkerOk(s, w, me);
    TaskFacts(s, me.id);
  }

  /** The allowed branch, written out. */
  lemma AllowedShape(t: Task, row: Option<Setting>, u: Usage, r: Reservation, env: Environment, permit: Token)
    requires Reserve(t, row, u, r, env, permit).Allowed?
    ensures var d := Reserve(t, row, u, r, env, permit);
            && HoldsLiveLease(t, r.token, r.now) && GateCode(t, r.gate, row, env).None? && row.Some?
            && u.total < r.dailyTotal && u.Count(t.spec.Category()) < r.dailyAction
            && (row.value.lastActionAt.Some? ==> r.now >= row.value.lastActionAt.value + r.minimumInterval)
            && d.task == t.(status := Dispatching, actionKey := Some(r.actionKey), budgetDay := Some(r.budgetDay),
                            dispatchStartedAt := Some(r.now), token := Some(permit), leaseUntil := None)
            && d.setting == row.value.(lastActionAt := Some(r.now), lastRunAt := Some(r.now))
            && d.usage == Booked(u, t.spec.Category(), r.now)
  {
  }

  lemma AllowedFits(s: World, w: WorkerId, me: Worker, t: Task, k: UsageId, r: Reservation, u: Usage, d: Decision,
                    env: Environment, permit: Token, now: int, s2: World)
    requires Inv(s) && ReadyToDispatch(s, w) && permit !in s.issued
    requires s2 == Moved(s, w, Idle).(issued := s.issued + {permit})
    requires me == WorkerAt(s, w) && t == s.db.tasks[me.id]
    requires r == ReservationFor(t.spec, me.token, me.policy, now) && k == UsageId(t.spec.owner, r.budgetDay)
    requires u == (if k in s.db.usages then s.db.usages[k] else EMPTY_USAGE)
    requires d == Reserve(t, Lookup(s.db.settings, t.spec.owner), u, r, env, permit) && d.Allowed?
    ensures ReservationFits(s2, me.id, d.task, d.setting, k, u, d.usage, permit, Slot(me.id, now, r.minimumInterval))
  {
    hide Inv;
    AllowedShape(t, Lookup(s.db.settings, t.spec.owner), u, r, env, permit);
    ReadyFacts(s, w, env, now);
    TaskFacts(s, me.id);
    FreshToken(s, permit);
  }

  lemma AllowedByParts(s: World, w: WorkerId, me: Worker, t: Task, k: UsageId, r: Reservation, u: Usage, d: Decision,
                       env: Environment, permit: Token, now: int)
    requires ReadyToDispatch(s, w) && permit !in s.issued
    requires me == WorkerAt(s, w) && t == s.db.tasks[me.id]
    requires r == ReservationFor(t.spec, me.token, me.policy, now) && k == UsageId(t.spec.owner, r.budgetDay)
    requires u == (if k in s.db.usages then s.db.usages[k] else EMPTY_USAGE)
    requires d == Reserve(t, Lookup(s.db.settings, t.spec.owner), u, r, env, permit) && d.Allowed?
    requires d.task.spec == t.spec
    ensures var s2 := Moved(s, w, Idle).(issued := s.issued + {permit});
            var s3 :=
              WithReservation(s2, me.id, d.task, d.setting, k, d.usage, permit, Slot(me.id, now, r.minimumInterval));
            OnReserve(s, w, env, permit, now) == Moved(s3, w, Permitted(me.id, permit))
  {
    assert s.workers[w := Idle][w := Permitted(me.id, permit)] == s.workers[w := Permitted(me.id, permit)];
  }

  lemma AllowedKeeps(s: World, w: WorkerId, me: Worker, t: Task, k: UsageId, r: Reservation, u: Usage, d: Decision,
                     env: Environment, permit: Token, now: int)
    requires Inv(s) && ReadyToDispatch(s, w) && permit !in s.issued
    requires me == WorkerAt(s, w) && t == s.db.tasks[me.id]
    requires r == ReservationFor(t.spec, me.token, me.policy, now) && k == UsageId(t.spec.owner, r.budgetDay)
    requires u == (if k in s.db.usages then s.db.usages[k] else EMPTY_USAGE)
    requires d == Reserve(t, Lookup(s.db.settings, t.spec.owner), u, r, env, permit) && d.Allowed?
    ensures Inv(OnReserve(s, w, env, permit, now))
  {
    MoveWorker(s, w, Idle);
    IssueToken(Moved(s, w, Idle), permit);
    var s2 := Moved(s, w, Idle).(issued := s.issued + {permit});
    var slot := Slot(me.id, now, r.minimumInterval);
    AllowedFits(s, w, me, t, k, r, u, d, env, permit, now, s2);
    ReserveRows(s2, me.id, d.task, d.setting, k, u, d.usage, permit, slot);
    AllowedByParts(s, w, me, t, k, r, u, d, env, permit, now);
    GrantPermit(s, s2, w, me.id, d.task, d.setting, k, u, d.usage, permit, slot);
  }

  lemma GrantPermit(s: World, s2: World, w: WorkerId, id: TaskId, t': Task, row': Setting, k: UsageId, u: Usage,
                    u': Usage, permit: Token, slot: Slot)
    requires Inv(s2) && ReservationFits(s2, id, t', row', k, u, u', permit, slot)
    requires Inv(WithReservation(s2, id, t', row', k, u', permit, slot))
    ensures Inv(Moved(WithReservation(s2, id, t', row', k, u', permit, slot), w, Permitted(id, permit)))
  {
    var s3 := WithReservation(s2, id, t', row', k, u', permit, slot);
    PermitWorker(s2, s3, w, id, permit);
    MoveWorker(s3, w, Permitted(id, permit));
  }

  lemma PermitWorker(s: World, s3: World, w: WorkerId, id: TaskId, permit: Token)
    requires LogInv(s) && PermitsInv(s) && id in s.db.tasks && s.db.tasks[id].budgetDay.None?
    requires s3.past.log == s.past.log && id in s3.past.permits && s3.past.permits[id] == permit
    requires id in s3.db.tasks && s3.db.tasks[id].execution.None?
    ensures WorkerOk(s3, w, Permitted(id, permit))
  {
    forall i | 0 <= i < |s.past.log| ensures s.past.log[i].id != id {}
  }

  lemma ReserveKeeps(s: World, w: WorkerId, env: Environment, permit: Token, now: int)
    requires Inv(s)
    ensures Inv(OnReserve(s, w, env, permit, now))
  {
    hide Inv;
    if ReadyToDispatch(s, w) && permit !in s.issued {
      var me := WorkerAt(s, w);
      var t := s.db.tasks[me.id];
      var r := ReservationFor(t.spec, me.token, me.policy, now);
      var k := UsageId(t.spec.owner, r.budgetDay);
      var row := Lookup(s.db.settings, t.spec.owner);
      var u := if k in s.db.usages then s.db.usages[k] else EMPTY_USAGE;
      match Reserve(t, row, u, r, env, permit)
      case Allowed(_, _, _) => AllowedKeeps(s, w, me, t, k, r, u, Reserve(t, row, u, r, env, permit), env, permit, now);
      case Denied(code, retryAt) =>
        var me' :=
          if code == LeaseLost then Idle
          else if code == MinimumInterval && retryAt.Some?
          then Deferring(me.id, me.token, me.attempt, retryAt.value, MinimumIntervalPending)
          else if code == SourceStale then Closing(me.id, me.token, StaleWith(DispatchDenied(code)), false)
          else Closing(me.id, me.token, CancelledWith(DispatchDenied(code)), false);
        DeniedKeeps(s, w, k, ReachesUsage(t, row, r, env), code, retryAt, me');
    }
  }
}
