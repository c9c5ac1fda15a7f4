/** What a reservation is charged to, by task type and by ledger column; when exactly it is
    refused; and the ledger's columns over every run. */
module Charges {
  import opened Vocabulary
  import opened Policies
  import opened Transitions
  import opened Protocol
  import opened Invariant
  import opened Frames
  import opened Endings
  import opened EndRules
  import opened EndSteps
  import opened Runs
  import opened Safety
  import opened Budgets

  /** The one ledger column that a task of each type is counted in. */
  function Column(u: Usage, taskType: TaskType): int {
    match taskType
    case ReplyToMessage => u.reply
    case ProactiveMessage => u.outreach
    case ScheduledPost => u.post
    case FollowTarget | UnfollowTarget | FollowDiscovered | BefriendDiscovered => u.relationship
    case BrowseOnline => u.browse
    case RequestMatch => u.matching
  }

  /** The ledger row with that column, the total and nothing else moved by the same amount. */
  function Shifted(u: Usage, taskType: TaskType, n: int): Usage {
    var total := u.(total := u.total + n);
    match taskType
    case ReplyToMessage => total.(reply := u.reply + n)
    case ProactiveMessage => total.(outreach := u.outreach + n)
    case ScheduledPost => total.(post := u.post + n)
    case FollowTarget | UnfollowTarget | FollowDiscovered | BefriendDiscovered =>
      total.(relationship := u.relationship + n)
    case BrowseOnline => total.(browse := u.browse + n)
    case RequestMatch => total.(matching := u.matching + n)
  }

  /** The limit that the policy content sets for that column. */
  function Limit(c: PolicyContent, taskType: TaskType): int {
    match taskType
    case ReplyToMessage | ProactiveMessage => c.dailyReply
    case ScheduledPost => c.dailyPost
    case FollowTarget | UnfollowTarget | FollowDiscovered | BefriendDiscovered => c.dailyRelationship
    case BrowseOnline => Min(c.dailyTotal, 8)
    case RequestMatch => Min(c.dailyTotal, 6)
  }

  // ------------------------------------------------------------ one reservation

  /** Whether nothing but budget and spacing can still refuse a reservation. */
  ghost predicate PassesGate(t: Task, row: Option<Setting>, r: Reservation, env: Environment) {
    && t.status in {Leased, Generating} && t.token == Some(r.token)
    && t.leaseUntil.Some? && t.leaseUntil.value >= r.now
    && GateCode(t, r.gate, row, env).None?
    && (r.expectedSource != "" ==> env.headDispatchable)
  }

  /** A reservation that passes the gate is refused for budget exactly when the total or the
      one column of its task type is at its limit; for spacing exactly when it is not, and
      less than the interval has passed since the owner's previous action; and it is
      otherwise allowed. */
  lemma ReservationDecides(t: Task, row: Option<Setting>, u: Usage, r: Reservation, env: Environment, permit: Token)
    requires PassesGate(t, row, r, env)
    ensures row.Some?
    ensures var d := Reserve(t, row, u, r, env, permit);
            var full := u.total >= r.dailyTotal || Column(u, t.spec.taskType) >= r.dailyAction;
            var previous := if row.value.lastActionAt.Some? then row.value.lastActionAt else u.lastActionAt;
            var early := previous.Some? && r.now < previous.value + r.minimumInterval;
            && (d == Denied(DailyBudgetExhausted, None) <==> full)
            && (d.Denied? && d.code == MinimumInterval <==> !full && early)
            && (!full && early ==> d == Denied(MinimumInterval, Some(previous.value + r.minimumInterval)))
            && (d.Allowed? <==> !full && !early)
  {
    hide GateCode;
    GateNeedsOwner(t, r.gate, row, env);
  }

  lemma GateNeedsOwner(t: Task, r: GateRequest, row: Option<Setting>, env: Environment)
    requires GateCode(t, r, row, env).None?
    ensures row.Some?
  {
  }

  /** A reservation that does not pass is refused with the first reason in this order, and
      the ledger is not looked at. */
  lemma ReservationRefuses(t: Task, row: Option<Setting>, u: Usage, r: Reservation, env: Environment, permit: Token)
    requires !PassesGate(t, row, r, env)
    ensures var live := t.status in {Leased, Generating} && t.token == Some(r.token)
                        && t.leaseUntil.Some? && t.leaseUntil.value >= r.now;
            var gate := GateCode(t, r.gate, row, env);
            Reserve(t, row, u, r, env, permit) ==
              Denied(if !live then LeaseLost else if gate.Some? then gate.value else SourceStale, None)
  {
    hide GateCode;
  }

  /** An allowed reservation raises the total and the one column of its task type by one,
      leaves the other five columns, and starts the dispatch under the new permit. */
  lemma AllowedReservationCharges(t: Task, row: Option<Setting>, u: Usage, r: Reservation, env: Environment,
                                  permit: Token)
    requires Reserve(t, row, u, r, env, permit).Allowed?
    ensures var d := Reserve(t, row, u, r, env, permit);
            && row.Some?
            && d.usage == Shifted(u, t.spec.taskType, 1).(lastActionAt := Some(r.now))
            && d.setting == row.value.(lastActionAt := Some(r.now), lastRunAt := Some(r.now))
            && d.task == t.(status := Dispatching, actionKey := Some(r.actionKey), budgetDay := Some(r.budgetDay),
                            dispatchStartedAt := Some(r.now), token := Some(permit), leaseUntil := None)
  {
    hide GateCode;
    AllowedNeedsOwner(t, row, u, r, env, permit);
  }

  lemma AllowedNeedsOwner(t: Task, row: Option<Setting>, u: Usage, r: Reservation, env: Environment, permit: Token)
    requires Reserve(t, row, u, r, env, permit).Allowed?
    ensures row.Some?
  {
    GateNeedsOwner(t, r.gate, row, env);
  }

  /** The other side: an end gives back exactly what was charged, and only to a retry. */
  lemma EndMovesLedger(r: Rows, c: Completion, now: int)
    requires Finish(r, c, now).Success? && ValidCompletion(c)
    requires r.task.status == Dispatching && r.task.budgetDay.Some?
    ensures var after := Finish(r, c, now).value;
            && r.usage.Some? && after.usage.Some?
            && var u := if Retried(c, after.task) then Shifted(r.usage.value, r.task.spec.taskType, -1)
                        else r.usage.value;
            && after.usage.value == u.(
                 failed := u.failed + (if after.task.status in {Failed, ManualReview} then 1 else 0),
                 unknown := u.unknown + (if after.task.status == ManualReview then 1 else 0))
  {
    hide Resolve, GrantsRetry, ValidCompletion, SettingAfter;
    VerdictTells(r.task, r.execution, c, now);
    RetryTells(c, Resolve(r.task, r.execution, c, now));
    RetryHasTime(c);
  }

  /** What a refused reservation leaves to do: nothing when the lease is lost, waiting for the
      interval, an end as stale when the source is, and otherwise an end as cancelled, each
      under the refusal's own code.  The day's ledger row is there afterwards exactly when the
      budget was looked at. */
  lemma RefusalMovesWorker(s: World, w: WorkerId, env: Environment, permit: Token, now: int)
    requires ReadyToDispatch(s, w) && permit !in s.issued
    ensures var me := WorkerAt(s, w);
            var t := s.db.tasks[me.id];
            var r := ReservationFor(t.spec, me.token, me.policy, now);
            var k := UsageId(t.spec.owner, r.budgetDay);
            var u := if k in s.db.usages then s.db.usages[k] else EMPTY_USAGE;
            var d := Reserve(t, Lookup(s.db.settings, t.spec.owner), u, r, env, permit);
            var s' := Step(s, ReserveDispatch(w, env, permit, now));
            d.Denied? ==>
              && s'.db == s.db.(usages := s'.db.usages) && s'.past == s.past && s'.issued == s.issued
              && s'.db.usages == (if PassesGate(t, Lookup(s.db.settings, t.spec.owner), r, env)
                                  then s.db.usages[k := u] else s.db.usages)
              && WorkerAt(s', w) ==
                   match d.code
                   case LeaseLost => Idle
                   case MinimumInterval =>
                     if d.retryAt.Some?
                     then Deferring(me.id, me.token, me.attempt, d.retryAt.value, MinimumIntervalPending)
                     else Closing(me.id, me.token, FailedWith(InvalidIntervalDecision), false)
                   case SourceStale => Closing(me.id, me.token, StaleWith(DispatchDenied(SourceStale)), false)
                   case _ => Closing(me.id, me.token, CancelledWith(DispatchDenied(d.code)), false)
  {
    hide Reserve, ReachesUsage, ReservationFor;
    var me := WorkerAt(s, w);
    var t := s.db.tasks[me.id];
    BudgetIsReached(t, Lookup(s.db.settings, t.spec.owner), ReservationFor(t.spec, me.token, me.policy, now), env);
  }

  lemma BudgetIsReached(t: Task, row: Option<Setting>, r: Reservation, env: Environment)
    ensures ReachesUsage(t, row, r, env) <==> PassesGate(t, row, r, env)
  {
    hide GateCode;
  }

  // ------------------------------------------------------------------ every run

  /** The request that a ready worker builds carries the limits that the policy content of its
      task sets, and the owner's local day. */
  ghost predicate UsesTheLimits(s: World, w: WorkerId, now: int)
    requires ReadyToDispatch(s, w)
  {
    var me := WorkerAt(s, w);
    var t := s.db.tasks[me.id];
    var r := ReservationFor(t.spec, me.token, me.policy, now);
    && me.id in s.past.pinned
    && var c := s.past.pinned[me.id];
    && r.dailyTotal == c.dailyTotal && r.dailyAction == Limit(c, t.spec.taskType)
    && r.minimumInterval == c.minimumInterval && r.now == now
    && r.budgetDay * 86_400 <= now + c.zoneOffset < (r.budgetDay + 1) * 86_400
    && r.expectedSource == t.spec.source && r.token == me.token
  }

  lemma ReadyLimits(s: World, w: WorkerId, now: int)
    requires Inv(s) && ReadyToDispatch(s, w)
    ensures UsesTheLimits(s, w, now) && SoundContent(s.past.pinned[WorkerAt(s, w).id])
  {
    hide Inv;
    var me := WorkerAt(s, w);
    WorkerFacts(s, w);
    TaskFacts(s, me.id);
    LimitOfType(s.past.pinned[me.id], s.db.tasks[me.id].spec);
  }

  lemma ReadyWorkersUseTheLimits(events: seq<Event>, w: WorkerId, now: int)
    requires ReadyToDispatch(After(events), w)
    ensures UsesTheLimits(After(events), w, now)
  {
    hide Inv, UsesTheLimits;
    EveryStateIsSound(events);
    ReadyLimits(After(events), w, now);
  }

  lemma LimitOfType(c: PolicyContent, spec: TaskSpec)
    requires SoundContent(c)
    ensures CategoryLimit(c, spec.Category()) == Limit(c, spec.taskType)
  {
  }

  /** The tasks charged to a day, by task type. */
  ghost function ChargedAs(s: World, k: UsageId, types: set<TaskType>): set<TaskId> {
    set id | id in s.db.tasks && s.db.tasks[id].spec.owner == k.owner && s.db.tasks[id].budgetDay == Some(k.day)
             && id !in s.past.refunded && s.db.tasks[id].spec.taskType in types
  }

  lemma ColumnCounts(s: World, k: UsageId, c: Category, types: set<TaskType>)
    requires forall taskType: TaskType :: CategoryOf(taskType, ActionOf(taskType)) == c <==> taskType in types
    ensures ChargedTo(s, k, c) == ChargedAs(s, k, types)
  {
    forall id | id in s.db.tasks
      ensures s.db.tasks[id].spec.Category() == c <==> s.db.tasks[id].spec.taskType in types
    {
    }
  }

  ghost predicate ColumnsCount(s: World, k: UsageId, u: Usage) {
    && u.reply == |ChargedAs(s, k, {ReplyToMessage})|
    && u.outreach == |ChargedAs(s, k, {ProactiveMessage})|
    && u.post == |ChargedAs(s, k, {ScheduledPost})|
    && u.relationship == |ChargedAs(s, k, {FollowTarget, UnfollowTarget, FollowDiscovered, BefriendDiscovered})|
    && u.browse == |ChargedAs(s, k, {BrowseOnline})|
    && u.matching == |ChargedAs(s, k, {RequestMatch})|
  }

  lemma CategoriesAreColumns(s: World, k: UsageId, u: Usage)
    requires forall c: Category :: u.Count(c) == |ChargedTo(s, k, c)|
    ensures ColumnsCount(s, k, u)
  {
    hide ChargedTo, ChargedAs;
    ColumnCounts(s, k, Reply, {ReplyToMessage});
    ColumnCounts(s, k, Outreach, {ProactiveMessage});
    ColumnCounts(s, k, Post, {ScheduledPost});
    ColumnCounts(s, k, Relationship, {FollowTarget, UnfollowTarget, FollowDiscovered, BefriendDiscovered});
    ColumnCounts(s, k, Browse, {BrowseOnline});
    ColumnCounts(s, k, Match, {RequestMatch});
    assert u.Count(Reply) == u.reply && u.Count(Outreach) == u.outreach && u.Count(Post) == u.post;
    assert u.Count(Relationship) == u.relationship && u.Count(Browse) == u.browse && u.Count(Match) == u.matching;
  }

  /** In every reachable state each column of a day's ledger is the number of tasks of its own
      types that were reserved for the day and not refunded. */
  lemma ColumnsAreConserved(events: seq<Event>, k: UsageId)
    requires k in After(events).db.usages
    ensures ColumnsCount(After(events), k, After(events).db.usages[k])
  {
    hide Inv, ChargedTo, ColumnsCount, Run;
    LedgerIsConserved(events, k);
    CategoriesAreColumns(After(events), k, After(events).db.usages[k]);
  }

  // -------------------------------------------------------------- the daily caps

  /** Two hundred actions, eight browses and six match requests. */
  ghost predicate Capped(u: Usage) {
    u.total <= 200 && u.browse <= 8 && u.matching <= 6
  }

  ghost predicate AllCapped(s: World) {
    forall k :: k in s.db.usages ==> Capped(s.db.usages[k])
  }

  ghost predicate LeavesLedger(e: Event) {
    !e.ReserveDispatch? && !e.Complete? && !e.SweepExpired?
  }

  lemma LedgerLeft(s: World, e: Event)
    requires LeavesLedger(e)
    ensures Step(s, e).db.usages == s.db.usages
  {
    hide OnInspect, OnRenewLease, OnPrepare, OnAct, OnFinalize;
    match e
    case Inspect(w, env, head, now) => WorkersLeaveLedger(s, e);
    case RenewLease(w, head, now, leaseUntil) => WorkersLeaveLedger(s, e);
    case PrepareExecution(w, snapshot, fate, code, now) => WorkersLeaveLedger(s, e);
    case Act(w, env, reply, fate, code, now) => WorkersLeaveLedger(s, e);
    case Finalize(w, swallowed, now) => WorkersLeaveLedger(s, e);
    case _ => OthersLeaveLedger(s, e);
  }

  lemma OthersLeaveLedger(s: World, e: Event)
    requires LeavesLedger(e) && !e.Inspect? && !e.RenewLease? && !e.PrepareExecution? && !e.Act? && !e.Finalize?
    ensures Step(s, e).db.usages == s.db.usages
  {
    hide Configure, Disable, WellFormedSpec, GenerationBegun, Claimed, Claimable, DeferredTask, Withdrawn;
    hide CancelledExecution, UnknownExecution, HoldsLiveLease, NewTask;
  }

  lemma WorkersLeaveLedger(s: World, e: Event)
    requires e.Inspect? || e.RenewLease? || e.PrepareExecution? || e.Act? || e.Finalize?
    ensures Step(s, e).db.usages == s.db.usages
  {
    hide QuietWindowEnd, Preflight, PolicyFromRows, CompletionFor, Recorded, PreparedRow, SameAction, Configure;
    hide Disable;
    hide WellFormedSpec, GenerationBegun, Claimed, Claimable, DeferredTask, Withdrawn, CancelledExecution;
    hide UnknownExecution;
    hide PermitHolds, HoldsLiveLease, NewTask, Started, NewExecution;
  }

  lemma ReservationCaps(t: Task, row: Option<Setting>, u: Usage, r: Reservation, env: Environment, permit: Token,
                        c: PolicyContent)
    requires Reserve(t, row, u, r, env, permit).Allowed? && Capped(u) && SoundContent(c)
    requires r.dailyTotal == c.dailyTotal && r.dailyAction == Limit(c, t.spec.taskType)
    ensures Capped(Reserve(t, row, u, r, env, permit).usage)
  {
    hide GateCode, EarliestNext, HoldsLiveLease;
    AllowedReservationCharges(t, row, u, r, env, permit);
    BelowLimits(t, row, u, r, env, permit);
  }

  lemma BelowLimits(t: Task, row: Option<Setting>, u: Usage, r: Reservation, env: Environment, permit: Token)
    requires Reserve(t, row, u, r, env, permit).Allowed?
    ensures u.total < r.dailyTotal && Column(u, t.spec.taskType) < r.dailyAction
  {
    hide GateCode, EarliestNext, HoldsLiveLease;
  }

  /** A reservation moves one day's row at most, and then as an allowed reservation does. */
  lemma ReserveTouches(s: World, w: WorkerId, env: Environment, permit: Token, now: int)
    ensures var s' := OnReserve(s, w, env, permit, now);
            s'.db.usages != s.db.usages ==>
              && ReadyToDispatch(s, w)
              && var me := WorkerAt(s, w);
              && var t := s.db.tasks[me.id];
              && var r := ReservationFor(t.spec, me.token, me.policy, now);
              && var k := UsageId(t.spec.owner, r.budgetDay);
              && var u := if k in s.db.usages then s.db.usages[k] else EMPTY_USAGE;
              && var d := Reserve(t, Lookup(s.db.settings, t.spec.owner), u, r, env, permit);
              && s'.db.usages == s.db.usages[k := if d.Allowed? then d.usage else u]
  {
    hide Reserve, ReachesUsage, ReservationFor;
  }

  lemma ReserveKeepsCaps(s: World, w: WorkerId, env: Environment, permit: Token, now: int)
    requires Inv(s) && AllCapped(s)
    ensures AllCapped(OnReserve(s, w, env, permit, now))
  {
    hide Inv, Reserve, OnReserve;
    ReserveTouches(s, w, env, permit, now);
    if OnReserve(s, w, env, permit, now).db.usages != s.db.usages {
      var me := WorkerAt(s, w);
      var t := s.db.tasks[me.id];
      var r := ReservationFor(t.spec, me.token, me.policy, now);
      var k := UsageId(t.spec.owner, r.budgetDay);
      var u := if k in s.db.usages then s.db.usages[k] else EMPTY_USAGE;
      ReadyLimits(s, w, now);
      if Reserve(t, Lookup(s.db.settings, t.spec.owner), u, r, env, permit).Allowed? {
        ReservationCaps(t, Lookup(s.db.settings, t.spec.owner), u, r, env, permit, s.past.pinned[me.id]);
      }
    }
  }

  lemma EndLowers(s: World, id: TaskId, c: Completion, now: int, k: UsageId)
    requires id in s.db.tasks && k in EndedBy(s, id, c, now).db.usages
    ensures k in s.db.usages
    ensures var u, u' := s.db.usages[k], EndedBy(s, id, c, now).db.usages[k];
            u'.total <= u.total && u'.browse <= u.browse && u'.matching <= u.matching
  {
    hide Resolve, GrantsRetry, SettingAfter, Ended;
  }

  lemma EndKeepsCaps(s: World, id: TaskId, c: Completion, now: int)
    requires AllCapped(s) && id in s.db.tasks
    ensures AllCapped(EndedBy(s, id, c, now))
  {
    hide EndedBy;
    forall k | k in EndedBy(s, id, c, now).db.usages ensures Capped(EndedBy(s, id, c, now).db.usages[k]) {
      EndLowers(s, id, c, now, k);
    }
  }

  lemma SameLedgerCapped(s: World, s': World)
    requires AllCapped(s) && s'.db.usages == s.db.usages
    ensures AllCapped(s')
  {
  }

  lemma CompleteKeepsCaps(s: World, w: WorkerId, now: int)
    requires AllCapped(s)
    ensures AllCapped(OnComplete(s, w, now))
  {
    hide AllCapped, EndedBy, MayFinish;
    var me := WorkerAt(s, w);
    SameLedgerCapped(s, Moved(s, w, Idle));
    if me.Closing? && me.id in s.db.tasks { EndKeepsCaps(Moved(s, w, Idle), me.id, me.completion, now); }
  }

  lemma SweepKeepsCaps(s: World, id: TaskId, before: int, code: Code, now: int)
    requires Inv(s) && AllCapped(s)
    ensures AllCapped(OnSweep(s, id, before, code, now))
  {
    hide Inv, AllCapped, EndedBy, RecoveryCompletion;
    if id in s.db.tasks && Expired(s.db.tasks[id], before) && code != NoCode {
      SweepIsEnd(s, id, before, code, now);
      EndKeepsCaps(s, id, RecoveryCompletion(s.db.tasks[id], RowsFor(s.db, s.db.tasks[id]).execution, code), now);
    }
  }

  lemma StepKeepsCaps(s: World, e: Event)
    requires Inv(s) && AllCapped(s)
    ensures AllCapped(Step(s, e))
  {
    hide Inv, AllCapped, OnReserve, OnComplete, OnSweep;
    match e
    case ReserveDispatch(w, env, permit, now) => ReserveKeepsCaps(s, w, env, permit, now);
    case Complete(w, now) => CompleteKeepsCaps(s, w, now);
    case SweepExpired(id, before, code, now) => SweepKeepsCaps(s, id, before, code, now);
    case _ =>
      LedgerLeft(s, e);
      SameLedgerCapped(s, Step(s, e));
  }

  lemma {:induction false} RunKeepsCaps(s: World, events: seq<Event>)
    requires Inv(s) && AllCapped(s)
    ensures AllCapped(Run(s, events))
    decreases |events|
  {
    hide Inv, AllCapped, Step;
    if events != [] {
      StepKeeps(s, events[0]);
      StepKeepsCaps(s, events[0]);
      RunKeepsCaps(Step(s, events[0]), events[1..]);
    }
  }

  /** Whatever the owner configures, and however often, no day of any run has more than two
      hundred tasks reserved and not refunded, more than eight browses or more than six
      match requests. */
  lemma DaysAreCapped(events: seq<Event>, k: UsageId)
    ensures var s := After(events);
            && |Reserved(s, k) - s.past.refunded| <= 200
            && |ChargedAs(s, k, {BrowseOnline})| <= 8
            && |ChargedAs(s, k, {RequestMatch})| <= 6
  {
    hide Inv, ChargedTo;
    StartIsSound();
    RunKeepsCaps(START, events);
    LedgerIsConserved(events, k);
    var s := After(events);
    if k in s.db.usages {
      ColumnsAreConserved(events, k);
    } else {
      assert ChargedAs(s, k, {BrowseOnline}) == {} && ChargedAs(s, k, {RequestMatch}) == {};
    }
  }
}
