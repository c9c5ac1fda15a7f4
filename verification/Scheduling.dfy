/** The scheduler's prefilter: which due tasks it hands to workers, and why the
    authoritative gate would not refuse them for budget or spacing. */
module Scheduling {
  import opened Vocabulary
  import opened Policies
  import opened Transitions
  import opened Protocol
  import opened Invariant
  import opened Safety
  import Budgets
  import Charges
  import Leases

  /** What one scheduling pass reads: policy rows, ledger rows and owners whose time zone
      cannot be resolved. */
  datatype Snapshot = Snapshot(settings: map<OwnerId, Setting>, usages: map<UsageId, Usage>, unknownZones: set<OwnerId>)

  /** The rows the database query returns: due work of enabled owners who are not halted. */
  predicate Queried(db: Snapshot, t: Task, now: int) {
    && Claimable(t, now)
    && t.spec.owner in db.settings
    && db.settings[t.spec.owner].content.userEnabled
    && db.settings[t.spec.owner].haltedAt.None?
  }

  function UsageToday(db: Snapshot, owner: OwnerId, now: int): Usage
    requires owner in db.settings
  {
    var key := UsageId(owner, LocalDay(db.settings[owner].content.zoneOffset, now));
    if key in db.usages then db.usages[key] else EMPTY_USAGE
  }

  /** Nothing the scheduler can see would hold this task back. */
  predicate Eligible(db: Snapshot, t: Task, now: int)
    requires t.spec.owner in db.settings
  {
    var setting := db.settings[t.spec.owner];
    var usage := UsageToday(db, t.spec.owner, now);
    && (setting.lastActionAt.None? || setting.lastActionAt.value + setting.content.minimumInterval <= now)
    && t.spec.owner !in db.unknownZones
    && usage.total < setting.content.dailyTotal
    && usage.Count(t.spec.Category()) < CategoryLimit(setting.content, t.spec.Category())
  }

  /** The limit that is used: the one asked for, but one at least and fifty at most. */
  function Maximum(limit: int): (maximum: int)
    ensures 1 <= maximum <= 50 && (1 <= limit <= 50 ==> maximum == limit)
    ensures (limit < 1 ==> maximum == 1) && (limit > 50 ==> maximum == 50)
  {
    Min(Max(1, limit), 50)
  }

  /** The query returns exactly the due work, in any of its three forms, of owners who are
      enabled and not halted. */
  lemma QueriedExactlyWhen(db: Snapshot, t: Task, now: int)
    ensures Queried(db, t, now) <==>
              && Leases.MayBeTaken(t, now)
              && t.spec.owner in db.settings && db.settings[t.spec.owner].content.userEnabled
              && db.settings[t.spec.owner].haltedAt == None
  {
  }

  /** A task is eligible exactly when its owner's zone is known, the interval since the
      owner's last action is over, and the day's total and the one column of its type are
      below their limits. */
  lemma EligibleExactlyWhen(db: Snapshot, t: Task, now: int)
    requires t.spec.owner in db.settings && SoundSetting(db.settings[t.spec.owner])
    ensures var row := db.settings[t.spec.owner];
            var u := UsageToday(db, t.spec.owner, now);
            Eligible(db, t, now) <==>
              && t.spec.owner !in db.unknownZones
              && (row.lastActionAt.Some? ==> now >= row.lastActionAt.value + row.content.minimumInterval)
              && u.total < row.content.dailyTotal
              && Charges.Column(u, t.spec.taskType) < Charges.Limit(row.content, t.spec.taskType)
  {
    hide UsageToday;
    Charges.LimitOfType(db.settings[t.spec.owner].content, t.spec);
  }

  ghost predicate OneEach(selected: seq<Task>) {
    forall i, j :: 0 <= i < j < |selected| ==> selected[i].spec.owner != selected[j].spec.owner
  }

  predicate Joined(db: Snapshot, rows: seq<Task>) {
    forall i :: 0 <= i < |rows| ==> rows[i].spec.owner in db.settings
  }

  function Owners(rows: seq<Task>): set<OwnerId> {
    set i | 0 <= i < |rows| :: rows[i].spec.owner
  }

  /** The first eligible task of every owner, in the order of the rows. */
  function FirstPerOwner(db: Snapshot, rows: seq<Task>, now: int): seq<Task>
    requires Joined(db, rows)
  {
    if rows == [] then []
    else
      var before, last := FirstPerOwner(db, rows[..|rows| - 1], now), rows[|rows| - 1];
      if Eligible(db, last, now) && last.spec.owner !in Owners(before) then before + [last] else before
  }

  lemma OwnersGrow(rows: seq<Task>, last: Task)
    ensures Owners(rows + [last]) == Owners(rows) + {last.spec.owner}
  {
    var more := rows + [last];
    forall o | o in Owners(rows) + {last.spec.owner} ensures o in Owners(more) {
      if o == last.spec.owner { assert more[|rows|].spec.owner == o; }
      else {
        var i :| 0 <= i < |rows| && rows[i].spec.owner == o;
        assert more[i].spec.owner == o;
      }
    }
  }

  /** At most one task per owner, only eligible ones, and no owner with an eligible task is
      passed over. */
  lemma {:induction false} FirstPerOwnerIsFair(db: Snapshot, rows: seq<Task>, now: int)
    requires Joined(db, rows)
    ensures var first := FirstPerOwner(db, rows, now);
            && OneEach(first)
            && (forall t :: t in first ==> t in rows && t.spec.owner in db.settings && Eligible(db, t, now))
            && (forall i :: 0 <= i < |rows| && Eligible(db, rows[i], now) ==> rows[i].spec.owner in Owners(first))
  {
    hide Eligible;
    if rows != [] {
      var n := |rows| - 1;
      FirstPerOwnerIsFair(db, rows[..n], now);
      var before := FirstPerOwner(db, rows[..n], now);
      OwnersGrow(before, rows[n]);
      forall i | 0 <= i < |rows| && Eligible(db, rows[i], now)
        ensures rows[i].spec.owner in Owners(FirstPerOwner(db, rows, now))
      {
        if i < n { assert rows[i] == rows[..n][i]; }
      }
    }
  }

  /** Later rows never displace earlier choices. */
  lemma {:induction false} FirstPerOwnerGrows(db: Snapshot, rows: seq<Task>, k: nat, now: int)
    requires k <= |rows| && Joined(db, rows)
    ensures FirstPerOwner(db, rows[..k], now) <= FirstPerOwner(db, rows, now)
    decreases |rows|
  {
    if k < |rows| {
      FirstPerOwnerGrows(db, rows[..|rows| - 1], k, now);
      assert rows[..|rows| - 1][..k] == rows[..k];
    } else {
      assert rows[..k] == rows;
    }
  }

  /** Picks at most one due task per owner, up to the limit, in the order of the rows. */
  method DueTaskIds(db: Snapshot, rows: seq<Task>, now: int, limit: int) returns (selected: seq<Task>)
    requires forall i :: 0 <= i < |rows| ==> Queried(db, rows[i], now)
    ensures Joined(db, rows) && |selected| <= Maximum(limit)
    ensures var first := FirstPerOwner(db, rows, now);
            selected == if |first| <= Maximum(limit) then first else first[..Maximum(limit)]
  {
    hide Eligible;
    var maximum := Maximum(limit);
    var owners: set<OwnerId> := {};
    selected := [];
    var i := 0;
    while i < |rows|
      invariant 0 <= i <= |rows|
      invariant selected == FirstPerOwner(db, rows[..i], now)
      invariant |selected| < maximum
      invariant owners == Owners(selected)
    {
      var task := rows[i];
      assert rows[..i + 1][..i] == rows[..i];
      OwnersGrow(selected, task);
      if task.spec.owner !in owners && Eligible(db, task, now) {
        selected := selected + [task];
        owners := owners + {task.spec.owner};
        if |selected| >= maximum {
          FirstPerOwnerGrows(db, rows, i + 1, now);
          return;
        }
      }
      i := i + 1;
    }
    assert rows[..i] == rows;
  }

  // ------------------------------------------------- agreement with the gate

  /** The prefilter and the authoritative gate agree: a task the scheduler finds eligible is
      not refused for budget or spacing by a reservation made in the same state and instant
      under the owner's current policy. */
  lemma EligibleIsNotRefused(events: seq<Event>, unknownZones: set<OwnerId>, id: TaskId, token: Token,
                             read: Environment, env: Environment, permit: Token, now: int)
    requires id in After(events).db.tasks && id.owner in After(events).db.settings
    requires var s := After(events);
             && s.db.tasks[id].spec.owner == id.owner
             && Eligible(Snapshot(s.db.settings, s.db.usages, unknownZones), s.db.tasks[id], now)
             && PolicyFromRows(s.db.settings[id.owner], read).Some?
    ensures var s := After(events);
            var t, row := s.db.tasks[id], s.db.settings[id.owner];
            var p := PolicyFromRows(row, read).value;
            var r := ReservationFor(t.spec, token, p, now);
            var key := UsageId(id.owner, r.budgetDay);
            var usage := if key in s.db.usages then s.db.usages[key] else EMPTY_USAGE;
            var d := Reserve(t, Some(row), usage, r, env, permit);
            d.Denied? ==> d.code !in {DailyBudgetExhausted, MinimumInterval}
  {
    hide Inv, GateCode;
    EveryStateIsSound(events);
    var s := After(events);
    var t, row := s.db.tasks[id], s.db.settings[id.owner];
    RowIsSound(s, id.owner);
    LimitsAgree(row, read, t.spec.taskType);
    var p := PolicyFromRows(row, read).value;
    var key := UsageId(id.owner, LocalDay(p.zoneOffset, now));
    Budgets.LedgerIsSound(s, key);
    GateNeverBlamesBudget(t, ReservationFor(t.spec, token, p, now), Some(row), env);
  }

  /** More than that: a reservation in the same state and instant that passes the gate is
      allowed exactly for an eligible task, so the prefilter holds nothing back that the gate
      would let through. */
  lemma EligibleIsAllowed(events: seq<Event>, id: TaskId, token: Token, read: Environment, env: Environment,
                          permit: Token, now: int)
    requires id in After(events).db.tasks && id.owner in After(events).db.settings
    requires var s := After(events);
             && s.db.tasks[id].spec.owner == id.owner
             && PolicyFromRows(s.db.settings[id.owner], read).Some?
             && var p := PolicyFromRows(s.db.settings[id.owner], read).value;
             Charges.PassesGate(s.db.tasks[id], Some(s.db.settings[id.owner]),
                                ReservationFor(s.db.tasks[id].spec, token, p, now), env)
    ensures var s := After(events);
            var t, row := s.db.tasks[id], s.db.settings[id.owner];
            var r := ReservationFor(t.spec, token, PolicyFromRows(row, read).value, now);
            var key := UsageId(id.owner, r.budgetDay);
            var usage := if key in s.db.usages then s.db.usages[key] else EMPTY_USAGE;
            Reserve(t, Some(row), usage, r, env, permit).Allowed? <==>
              Eligible(Snapshot(s.db.settings, s.db.usages, {}), t, now)
  {
    hide Inv, GateCode, PolicyFromRows, Reserve, CategoryLimit;
    EveryStateIsSound(events);
    var s := After(events);
    var t, row := s.db.tasks[id], s.db.settings[id.owner];
    RowIsSound(s, id.owner);
    LimitsAgree(row, read, t.spec.taskType);
    var p := PolicyFromRows(row, read).value;
    var r := ReservationFor(t.spec, token, p, now);
    var key := UsageId(id.owner, r.budgetDay);
    var usage := if key in s.db.usages then s.db.usages[key] else EMPTY_USAGE;
    Budgets.LedgerIsSound(s, key);
    Charges.ReservationDecides(t, Some(row), usage, r, env, permit);
    SameColumn(usage, t.spec);
  }

  lemma SameColumn(u: Usage, spec: TaskSpec)
    ensures u.Count(spec.Category()) == Charges.Column(u, spec.taskType)
  {
  }

  lemma RowIsSound(s: World, o: OwnerId)
    requires Inv(s) && o in s.db.settings
    ensures SoundSetting(s.db.settings[o])
  {
  }

  /** The authorization gate itself never gives budget or spacing as its reason. */
  lemma GateNeverBlamesBudget(t: Task, r: Reservation, row: Option<Setting>, env: Environment)
    ensures var code := GateCode(t, r.gate, row, env);
            code.Some? ==> code.value !in {DailyBudgetExhausted, MinimumInterval}
  {
  }
}
