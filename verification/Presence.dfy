/** The presence coordinator: callbacks are serialised per account, repeated operations
    are coalesced, and one drain at a time works through an account's backlog. */
module Presence {
  import opened Vocabulary

  type Account = string
  type Operation = string
  type Ticket = nat
  type ThreadId = nat

  /** A waiting callback; the ticket names the accepted submission it came from. */
  datatype Entry = Entry(operation: Operation, ticket: Ticket)

  datatype AccountState = AccountState(pending: seq<Entry>, running: bool)

  /** The fields guarded by the lock. */
  datatype Guarded = Guarded(states: map<Account, AccountState>, closed: bool)

  /** What a submission led to: refused, added to a running drain's backlog, or added with
      a new drain handed to the executor. */
  datatype Admission = Refused | Joined | Scheduled

  /** Assigning into an ordered dictionary: a known operation keeps its place. */
  function Put(pending: seq<Entry>, entry: Entry): seq<Entry> {
    if pending == [] then [entry]
    else if pending[0].operation == entry.operation then [entry] + pending[1..]
    else [pending[0]] + Put(pending[1..], entry)
  }

  function Without(pending: seq<Entry>, operation: Operation): seq<Entry> {
    if pending == [] then []
    else if pending[0].operation == operation then pending[1..]
    else [pending[0]] + Without(pending[1..], operation)
  }

  function StateOf(g: Guarded, account: Account): AccountState {
    if account in g.states then g.states[account] else AccountState([], false)
  }

  /** `submit`, when the executor takes the drain or raises. */
  function Submitted(g: Guarded, account: Account, entry: Entry, executorTakes: bool): (Guarded, Admission) {
    if account == "" || entry.operation == "" || g.closed then (g, Refused)
    else
      var pending := Put(StateOf(g, account).pending, entry);
      if StateOf(g, account).running then
        (g.(states := g.states[account := AccountState(pending, true)]), Joined)
      else if executorTakes then
        (g.(states := g.states[account := AccountState(pending, true)]), Scheduled)
      else
        var left := Without(pending, entry.operation);
        (g.(states := if left == [] then g.states - {account} else g.states[account := AccountState(left, false)]),
         Refused)
  }

  /** One turn of the drain under the lock: the next callback, or the end of the drain. */
  function TakenNext(g: Guarded, account: Account): (Guarded, Option<Entry>) {
    if account !in g.states then (g, None)
    else
      var state := g.states[account];
      if state.pending == [] then (g.(states := g.states - {account}), None)
      else if g.closed then (g.(states := g.states[account := state.(running := false)]), None)
      else (g.(states := g.states[account := state.(pending := state.pending[1..])]), Some(state.pending[0]))
  }

  function Closed(g: Guarded): Guarded {
    if g.closed then g
    else Guarded(map a | a in g.states :: g.states[a].(pending := []), true)
  }

  /** The coordinator itself, updating its fields under its lock. */
  class PresenceCoordinator {
    var states: map<Account, AccountState>
    var closed: bool

    constructor ()
      ensures Value() == Guarded(map[], false)
    {
      states, closed := map[], false;
    }

    function Value(): Guarded
      reads this
    {
      Guarded(states, closed)
    }

    method Submit(account: Account, entry: Entry, executorTakes: bool) returns (admission: Admission)
      modifies this
      ensures (Value(), admission) == Submitted(old(Value()), account, entry, executorTakes)
    {
      if account == "" || entry.operation == "" { return Refused; }
      if closed { return Refused; }
      if account !in states { states := states[account := AccountState([], false)]; }
      states := states[account := states[account].(pending := Put(states[account].pending, entry))];
      ghost var before := StateOf(old(Value()), account);
      assert states == old(states)[account := AccountState(Put(before.pending, entry), before.running)];
      if states[account].running { return Joined; }
      states := states[account := states[account].(running := true)];
      assert states == old(states)[account := AccountState(Put(before.pending, entry), true)];
      if !executorTakes {
        states := states[account := AccountState(Without(states[account].pending, entry.operation), false)];
        assert states
               == old(states)[account := AccountState(Without(Put(before.pending, entry), entry.operation), false)];
        if states[account].pending == [] {
          states := states - {account};
          assert states == old(states) - {account};
        }
        assert Value().states == if Without(Put(before.pending, entry), entry.operation) == []
                                 then old(states) - {account}
                                 else old(states)[account := AccountState(
                                        Without(Put(before.pending, entry), entry.operation), false)];
        return Refused;
      }
      return Scheduled;
    }

    /** The locked part of the drain's loop. */
    method TakeNext(account: Account) returns (entry: Option<Entry>)
      modifies this
      ensures (Value(), entry) == TakenNext(old(Value()), account)
    {
      if account !in states { return None; }
      var pending := states[account].pending;
      if pending == [] || closed {
        states := states[account := states[account].(running := false)];
        if pending == [] {
          states := states - {account};
          assert states == old(states) - {account};
        }
        return None;
      }
      states := states[account := states[account].(pending := pending[1..])];
      return Some(pending[0]);
    }

    method Close()
      modifies this
      ensures Value() == Closed(old(Value()))
    {
      if closed { return; }
      closed := true;
      var left := states.Keys;
      while left != {}
        invariant states.Keys == old(states).Keys && left <= states.Keys && closed
        invariant forall a :: a in states ==>
                    states[a] == if a in left then old(states)[a] else old(states)[a].(pending := [])
        decreases |left|
      {
        var account :| account in left;
        states := states[account := states[account].(pending := [])];
        left := left - {account};
      }
    }
  }

  // ------------------------------------------------------------ all interleavings

  /** Where a thread of the executor stands in a drain. */
  datatype Drain = Looking(account: Account) | Calling(account: Account, entry: Entry)

  datatype Fate = Waiting | Running | Done | ReplacedBy(later: Ticket) | Discarded

  datatype Submission = Submission(account: Account, operation: Operation)

  /** The coordinator, its executor, and what became of every accepted submission. */
  datatype World = World(
    guarded: Guarded,
    queued: multiset<Account>,
    active: map<ThreadId, Drain>,
    accepted: seq<Submission>,
    fates: seq<Fate>)

  const START := World(Guarded(map[], false), multiset{}, map[], [], [])

  datatype Event =
    | Submit(account: Account, operation: Operation, executorTakes: bool)
    | Begin(thread: ThreadId, account: Account)
    | TakeNext(thread: ThreadId)
    | CallbackEnds(thread: ThreadId)
    | Close
    | CancelQueued

  /** The ticket that an accepted submission replaces, if any. */
  function Replaced(pending: seq<Entry>, operation: Operation): Option<Ticket> {
    if pending == [] then None
    else if pending[0].operation == operation then Some(pending[0].ticket)
    else Replaced(pending[1..], operation)
  }

  function OnSubmit(w: World, account: Account, operation: Operation, executorTakes: bool): World {
    var ticket := |w.accepted|;
    var (g, admission) := Submitted(w.guarded, account, Entry(operation, ticket), executorTakes);
    if admission == Refused then w.(guarded := g)
    else
      var previous := Replaced(StateOf(w.guarded, account).pending, operation);
      var fates := if previous.Some? && previous.value < |w.fates| then w.fates[previous.value := ReplacedBy(ticket)]
                   else w.fates;
      w.(guarded := g,
         queued := if admission == Scheduled then w.queued + multiset{account} else w.queued,
         accepted := w.accepted + [Submission(account, operation)],
         fates := fates + [Waiting])
  }

  function SetFate(fates: seq<Fate>, ticket: Ticket, fate: Fate): seq<Fate> {
    if ticket < |fates| then fates[ticket := fate] else fates
  }

  function OnTakeNext(w: World, thread: ThreadId): World {
    if thread !in w.active || !w.active[thread].Looking? then w
    else
      var account := w.active[thread].account;
      var (g, entry) := TakenNext(w.guarded, account);
      match entry
      case None => w.(guarded := g, active := w.active - {thread})
      case Some(e) =>
        w.(guarded := g, active := w.active[thread := Calling(account, e)],
           fates := SetFate(w.fates, e.ticket, Running))
  }

  function DiscardWaiting(fates: seq<Fate>): (after: seq<Fate>)
    ensures |after| == |fates|
    ensures forall t :: 0 <= t < |fates| ==> after[t] == if fates[t].Waiting? then Discarded else fates[t]
  {
    if fates == [] then []
    else
      var n := |fates| - 1;
      DiscardWaiting(fates[..n]) + [if fates[n].Waiting? then Discarded else fates[n]]
  }

  function Step(w: World, e: Event): World {
    match e
    case Submit(account, operation, executorTakes) => OnSubmit(w, account, operation, executorTakes)
    case Begin(thread, account) =>
      if thread !in w.active && account in w.queued
      then w.(queued := w.queued - multiset{account}, active := w.active[thread := Looking(account)]) else w
    case TakeNext(thread) => OnTakeNext(w, thread)
    case CallbackEnds(thread) =>
      if thread in w.active && w.active[thread].Calling?
      then w.(active := w.active[thread := Looking(w.active[thread].account)],
              fates := SetFate(w.fates, w.active[thread].entry.ticket, Done))
      else w
    case Close =>
      if w.guarded.closed then w else w.(guarded := Closed(w.guarded), fates := DiscardWaiting(w.fates))
    case CancelQueued => if w.guarded.closed then w.(queued := multiset{}) else w
  }

  function Run(w: World, events: seq<Event>): World
    decreases |events|
  {
    if events == [] then w else Run(Step(w, events[0]), events[1..])
  }

  // ------------------------------------------------------------------- drains

  function ThreadsOn(w: World, account: Account): set<ThreadId> {
    set t | t in w.active && w.active[t].account == account
  }

  /** How many drains of an account are scheduled or running. */
  function Drains(w: World, account: Account): nat {
    w.queued[account] + |ThreadsOn(w, account)|
  }

  ghost predicate DrainsInv(w: World) {
    && (forall a: Account :: Drains(w, a) <= 1)
    && (!w.guarded.closed ==>
          forall a: Account :: (a in w.guarded.states <==> Drains(w, a) == 1))
    && (!w.guarded.closed ==> forall a :: a in w.guarded.states ==> w.guarded.states[a].running)
    && (w.guarded.closed ==> forall a :: a in w.guarded.states ==> w.guarded.states[a].pending == [])
  }

  /** A waiting entry of an account, as the submission that made it. */
  ghost predicate EntryOk(w: World, account: Account, e: Entry) {
    e.ticket < |w.accepted| == |w.fates| && w.accepted[e.ticket] == Submission(account, e.operation)
    && w.fates[e.ticket] == Waiting
  }

  ghost predicate DistinctOperations(pending: seq<Entry>) {
    forall i, j :: 0 <= i < j < |pending| ==> pending[i].operation != pending[j].operation
  }

  ghost predicate FateOk(w: World, t: Ticket)
    requires t < |w.accepted| == |w.fates|
  {
    match w.fates[t]
    case Waiting =>
      w.accepted[t].account in w.guarded.states
      && Entry(w.accepted[t].operation, t) in w.guarded.states[w.accepted[t].account].pending
    case Running =>
      exists thread ::
        thread in w.active && w.active[thread] == Calling(w.accepted[t].account, Entry(w.accepted[t].operation, t))
    case Done => true
    case ReplacedBy(later) => t < later < |w.accepted| && w.accepted[later] == w.accepted[t]
    case Discarded => w.guarded.closed
  }

  ghost predicate FatesInv(w: World) {
    && |w.accepted| == |w.fates|
    && (forall a :: a in w.guarded.states ==>
          && DistinctOperations(w.guarded.states[a].pending)
          && forall e :: e in w.guarded.states[a].pending ==> EntryOk(w, a, e))
    && (forall thread :: thread in w.active && w.active[thread].Calling? ==>
          && var e := w.active[thread].entry;
          && e.ticket < |w.fates| && w.fates[e.ticket] == Running
          && w.accepted[e.ticket] == Submission(w.active[thread].account, e.operation))
    && (forall t :: 0 <= t < |w.fates| ==> FateOk(w, t))
  }

  ghost predicate Inv(w: World) {
    DrainsInv(w) && FatesInv(w)
  }

  lemma StartIsSound()
    ensures Inv(START)
  {
  }

  // ----------------------------------------------------------- ordered dictionary

  lemma {:induction false} PutFacts(pending: seq<Entry>, entry: Entry)
    requires DistinctOperations(pending)
    ensures DistinctOperations(Put(pending, entry)) && Put(pending, entry) != []
    ensures forall e :: e in Put(pending, entry) <==> e == entry || (e in pending && e.operation != entry.operation)
  {
    if pending != [] {
      var rest := pending[1..];
      assert pending == [pending[0]] + rest;
      if pending[0].operation == entry.operation {
        forall e | e in rest ensures e.operation != entry.operation {
          var i :| 0 <= i < |rest| && rest[i] == e;
          assert pending[i + 1] == e;
        }
      } else {
        PutFacts(rest, entry);
        var put := Put(rest, entry);
        forall e | e in put ensures e.operation != pending[0].operation {
          if e != entry {
            var i :| 0 <= i < |rest| && rest[i] == e;
            assert pending[i + 1] == e;
          }
        }
      }
    }
  }

  lemma {:induction false} ReplacedFacts(pending: seq<Entry>, operation: Operation)
    ensures match Replaced(pending, operation)
            case Some(t) => Entry(operation, t) in pending
            case None => forall e :: e in pending ==> e.operation != operation
  {
    if pending != [] {
      assert pending == [pending[0]] + pending[1..];
      ReplacedFacts(pending[1..], operation);
    }
  }

  /** Two waiting entries of one operation are the same entry. */
  lemma OnePerOperation(pending: seq<Entry>, e: Entry, f: Entry)
    requires DistinctOperations(pending) && e in pending && f in pending && e.operation == f.operation
    ensures e == f
  {
    var i :| 0 <= i < |pending| && pending[i] == e;
    var j :| 0 <= j < |pending| && pending[j] == f;
    if i < j || j < i { assert pending[i].operation == pending[j].operation; }
  }

  // ------------------------------------------------------------ drains, step by step

  lemma SubmitDrains(w: World, account: Account, operation: Operation, executorTakes: bool)
    requires DrainsInv(w)
    ensures DrainsInv(OnSubmit(w, account, operation, executorTakes))
  {
    var w' := OnSubmit(w, account, operation, executorTakes);
    var admission := Submitted(w.guarded, account, Entry(operation, |w.accepted|), executorTakes).1;
    assert admission == Scheduled ==> account !in w.guarded.states;
    assert Drains(w, account) <= 1;
    forall a: Account
      ensures Drains(w', a) == Drains(w, a) + (if admission == Scheduled && a == account then 1 else 0)
    {
      assert ThreadsOn(w', a) == ThreadsOn(w, a);
    }
  }

  /** Moving a drain from the queue to a thread changes no count. */
  lemma BeginSameDrains(w: World, w': World, thread: ThreadId, account: Account, a: Account)
    requires thread !in w.active && account in w.queued
    requires w'.queued == w.queued - multiset{account} && w'.active == w.active[thread := Looking(account)]
    ensures Drains(w', a) == Drains(w, a)
  {
    assert ThreadsOn(w', a) == if a == account then ThreadsOn(w, a) + {thread} else ThreadsOn(w, a);
  }

  lemma DrainsCarry(w: World, w': World)
    requires DrainsInv(w) && w'.guarded == w.guarded && forall a: Account :: Drains(w', a) == Drains(w, a)
    ensures DrainsInv(w')
  {
    hide Drains;
  }

  lemma BeginDrains(w: World, thread: ThreadId, account: Account)
    requires DrainsInv(w)
    ensures DrainsInv(Step(w, Begin(thread, account)))
  {
    hide DrainsInv, Drains;
    var w' := Step(w, Begin(thread, account));
    if thread !in w.active && account in w.queued {
      forall a: Account ensures Drains(w', a) == Drains(w, a) { BeginSameDrains(w, w', thread, account, a); }
      DrainsCarry(w, w');
    }
  }

  lemma TakeDrains(w: World, thread: ThreadId)
    requires DrainsInv(w)
    ensures DrainsInv(OnTakeNext(w, thread))
  {
    if thread in w.active && w.active[thread].Looking? {
      var account := w.active[thread].account;
      var w' := OnTakeNext(w, thread);
      assert thread in ThreadsOn(w, account) && Drains(w, account) == 1 && w.queued[account] == 0;
      forall a: Account
        ensures Drains(w', a) == if a == account && thread !in w'.active then 0 else Drains(w, a)
      {
        assert ThreadsOn(w', a) == if a == account && thread !in w'.active then ThreadsOn(w, a) - {thread}
                                   else ThreadsOn(w, a);
      }
    }
  }

  lemma OtherDrains(w: World, e: Event)
    requires DrainsInv(w) && (e.CallbackEnds? || e.Close? || e.CancelQueued?)
    ensures DrainsInv(Step(w, e))
  {
    var w' := Step(w, e);
    forall a: Account ensures ThreadsOn(w', a) == ThreadsOn(w, a) {}
    forall a: Account ensures Drains(w', a) <= Drains(w, a) {}
  }

  // ------------------------------------------------------------- fates, step by step

  /** Distinct threads work for distinct accounts, so they hold distinct tickets. */
  lemma ThreadsApart(w: World, t: ThreadId, u: ThreadId)
    requires DrainsInv(w) && t in w.active && u in w.active && t != u
    ensures w.active[t].account != w.active[u].account
  {
    var account := w.active[t].account;
    assert |{t, u}| == 2 && Drains(w, account) <= 1;
    if w.active[u].account == account { SubsetSize({t, u}, ThreadsOn(w, account)); }
  }

  /** While the coordinator is open, refusing a submission changes nothing at all. */
  lemma RefusalChangesNothing(w: World, account: Account, operation: Operation, executorTakes: bool)
    requires DrainsInv(w) && Submitted(w.guarded, account, Entry(operation, |w.accepted|), executorTakes).1 == Refused
    ensures OnSubmit(w, account, operation, executorTakes) == w
  {
    if account != "" && operation != "" && !w.guarded.closed {
      assert account !in w.guarded.states;
      assert w.guarded.states - {account} == w.guarded.states;
    }
  }

  /** A submission that is accepted: the new ticket waits, and the one it replaces says so. */
  lemma AcceptedFates(w: World, w': World, account: Account, operation: Operation, executorTakes: bool)
    requires Inv(w) && w' == OnSubmit(w, account, operation, executorTakes)
    requires Submitted(w.guarded, account, Entry(operation, |w.accepted|), executorTakes).1 != Refused
    ensures FatesInv(w')
  {
    var ticket := |w.accepted|;
    var pending := StateOf(w.guarded, account).pending;
    var entry := Entry(operation, ticket);
    PutFacts(pending, entry);
    ReplacedFacts(pending, operation);
    assert w'.guarded.states == w.guarded.states[account := AccountState(Put(pending, entry), true)];
    AcceptedEntries(w, w', account, operation);
    forall t | 0 <= t < |w'.fates| ensures FateOk(w', t) {
      if t < ticket {
        assert FateOk(w, t);
        if w.fates[t].Waiting? { AcceptedWaiting(w, w', account, operation, t); }
      }
    }
  }

  lemma AcceptedEntries(w: World, w': World, account: Account, operation: Operation)
    requires Inv(w)
    requires var ticket := |w.accepted|;
             var pending := StateOf(w.guarded, account).pending;
             var previous := Replaced(pending, operation);
             && w'.guarded.states
               == w.guarded.states[account := AccountState(Put(pending, Entry(operation, ticket)), true)]
             && w'.accepted == w.accepted + [Submission(account, operation)]
             && w'.fates
               == (if previous.Some? && previous.value < |w.fates| then w.fates[previous.value := ReplacedBy(ticket)]
                   else w.fates) + [Waiting]
    ensures forall a :: a in w'.guarded.states ==>
              && DistinctOperations(w'.guarded.states[a].pending)
              && forall e :: e in w'.guarded.states[a].pending ==> EntryOk(w', a, e)
  {
    var ticket := |w.accepted|;
    var pending := StateOf(w.guarded, account).pending;
    PutFacts(pending, Entry(operation, ticket));
    ReplacedFacts(pending, operation);
    forall a | a in w'.guarded.states
      ensures DistinctOperations(w'.guarded.states[a].pending)
      ensures forall e :: e in w'.guarded.states[a].pending ==> EntryOk(w', a, e)
    {
      forall e | e in w'.guarded.states[a].pending ensures EntryOk(w', a, e) {
        if e.ticket != ticket {
          assert e in w.guarded.states[a].pending && EntryOk(w, a, e);
        } else if a != account {
          assert EntryOk(w, a, e);
        } else if e != Entry(operation, ticket) {
          assert EntryOk(w, a, e);
        }
      }
    }
  }

  lemma AcceptedWaiting(w: World, w': World, account: Account, operation: Operation, t: Ticket)
    requires FatesInv(w) && t < |w.fates| && w.fates[t] == Waiting
    requires var ticket := |w.accepted|;
             var pending := StateOf(w.guarded, account).pending;
             var previous := Replaced(pending, operation);
             && w'.guarded.states
               == w.guarded.states[account := AccountState(Put(pending, Entry(operation, ticket)), true)]
             && w'.accepted == w.accepted + [Submission(account, operation)]
             && w'.fates
               == (if previous.Some? && previous.value < |w.fates| then w.fates[previous.value := ReplacedBy(ticket)]
                   else w.fates) + [Waiting]
    ensures FateOk(w', t)
  {
    var ticket := |w.accepted|;
    var pending := StateOf(w.guarded, account).pending;
    PutFacts(pending, Entry(operation, ticket));
    ReplacedFacts(pending, operation);
    assert FateOk(w, t);
    var mine := Entry(w.accepted[t].operation, t);
    if w.accepted[t] == Submission(account, operation) {
      assert mine in pending;
      OnePerOperation(pending, mine, Entry(operation, Replaced(pending, operation).value));
    }
  }

  lemma SubmitFates(w: World, account: Account, operation: Operation, executorTakes: bool)
    requires Inv(w)
    ensures FatesInv(OnSubmit(w, account, operation, executorTakes))
  {
    if Submitted(w.guarded, account, Entry(operation, |w.accepted|), executorTakes).1 == Refused {
      RefusalChangesNothing(w, account, operation, executorTakes);
    } else {
      AcceptedFates(w, OnSubmit(w, account, operation, executorTakes), account, operation, executorTakes);
    }
  }

  lemma BeginFates(w: World, thread: ThreadId, account: Account)
    requires FatesInv(w)
    ensures FatesInv(Step(w, Begin(thread, account)))
  {
    var w' := Step(w, Begin(thread, account));
    forall t | 0 <= t < |w'.fates| ensures FateOk(w', t) {
      assert FateOk(w, t);
      if w.fates[t] == Running {
        var u :| u in w.active && w.active[u] == Calling(w.accepted[t].account, Entry(w.accepted[t].operation, t));
        assert w'.active[u] == w.active[u];
      }
    }
  }

  /** The drain takes the oldest entry; its ticket now runs. */
  lemma TakenFates(w: World, w': World, thread: ThreadId)
    requires Inv(w) && thread in w.active && w.active[thread].Looking? && w' == OnTakeNext(w, thread)
    requires TakenNext(w.guarded, w.active[thread].account).1.Some?
    ensures FatesInv(w')
  {
    var account := w.active[thread].account;
    var pending := w.guarded.states[account].pending;
    var e := pending[0];
    assert pending == [e] + pending[1..];
    assert EntryOk(w, account, e);
    forall a | a in w'.guarded.states
      ensures DistinctOperations(w'.guarded.states[a].pending)
      ensures forall f :: f in w'.guarded.states[a].pending ==> EntryOk(w', a, f)
    {
      forall f | f in w'.guarded.states[a].pending ensures EntryOk(w', a, f) {
        assert EntryOk(w, a, f);
        if a == account {
          var i :| 0 <= i < |pending[1..]| && pending[1..][i] == f;
          assert pending[i + 1] == f && f.operation != e.operation;
        }
      }
    }
    forall t | 0 <= t < |w'.fates| ensures FateOk(w', t) {
      assert FateOk(w, t);
      if t == e.ticket {
        assert w'.active[thread] == Calling(account, Entry(w.accepted[t].operation, t));
      } else if w.fates[t] == Running {
        var u :| u in w.active && w.active[u] == Calling(w.accepted[t].account, Entry(w.accepted[t].operation, t));
        assert w'.active[u] == w.active[u];
      }
    }
  }

  lemma TakeFates(w: World, thread: ThreadId)
    requires Inv(w)
    ensures FatesInv(OnTakeNext(w, thread))
  {
    if thread in w.active && w.active[thread].Looking? {
      var w' := OnTakeNext(w, thread);
      var account := w.active[thread].account;
      if TakenNext(w.guarded, account).1.Some? {
        TakenFates(w, w', thread);
      } else {
        assert account in w.guarded.states ==> w.guarded.states[account].pending == [];
        forall t | 0 <= t < |w'.fates| ensures FateOk(w', t) {
          assert FateOk(w, t);
          if w.fates[t] == Running {
            var u :| u in w.active && w.active[u] == Calling(w.accepted[t].account, Entry(w.accepted[t].operation, t));
            assert w'.active[u] == w.active[u];
          }
        }
      }
    }
  }

  lemma EndFates(w: World, thread: ThreadId)
    requires Inv(w)
    ensures FatesInv(Step(w, CallbackEnds(thread)))
  {
    if thread in w.active && w.active[thread].Calling? {
      var w' := Step(w, CallbackEnds(thread));
      var ended := w.active[thread].entry.ticket;
      forall u | u in w'.active && w'.active[u].Calling? ensures w'.active[u].entry.ticket != ended {
        ThreadsApart(w, thread, u);
      }
      forall a | a in w'.guarded.states
        ensures forall f :: f in w'.guarded.states[a].pending ==> EntryOk(w', a, f)
      {
        forall f | f in w'.guarded.states[a].pending ensures EntryOk(w', a, f) { assert EntryOk(w, a, f); }
      }
      forall t | 0 <= t < |w'.fates| ensures FateOk(w', t) {
        assert FateOk(w, t);
        if t != ended && w.fates[t] == Running {
          var u :| u in w.active && w.active[u] == Calling(w.accepted[t].account, Entry(w.accepted[t].operation, t));
          assert w'.active[u] == w.active[u];
        }
      }
    }
  }

  lemma CloseFates(w: World)
    requires Inv(w)
    ensures FatesInv(Step(w, Close))
  {
    if !w.guarded.closed {
      var w' := Step(w, Close);
      forall t | 0 <= t < |w'.fates| ensures FateOk(w', t) {
        assert FateOk(w, t);
        if w.fates[t] == Running {
          var u :| u in w.active && w.active[u] == Calling(w.accepted[t].account, Entry(w.accepted[t].operation, t));
          assert w'.active[u] == w.active[u];
        }
      }
    }
  }

  lemma CancelFates(w: World)
    requires FatesInv(w)
    ensures FatesInv(Step(w, CancelQueued))
  {
    var w' := Step(w, CancelQueued);
    forall t | 0 <= t < |w'.fates| ensures FateOk(w', t) {
      assert FateOk(w, t);
      if w.fates[t] == Running {
        var u :| u in w.active && w.active[u] == Calling(w.accepted[t].account, Entry(w.accepted[t].operation, t));
        assert w'.active[u] == w.active[u];
      }
    }
    forall a | a in w'.guarded.states
      ensures forall f :: f in w'.guarded.states[a].pending ==> EntryOk(w', a, f)
    {
      forall f | f in w'.guarded.states[a].pending ensures EntryOk(w', a, f) { assert EntryOk(w, a, f); }
    }
  }

  // ------------------------------------------------------------------ every run

  lemma StepKeeps(w: World, e: Event)
    requires Inv(w)
    ensures Inv(Step(w, e))
  {
    hide DrainsInv, FatesInv, OnSubmit, OnTakeNext;
    match e
    case Submit(account, operation, executorTakes) =>
      SubmitDrains(w, account, operation, executorTakes);
      SubmitFates(w, account, operation, executorTakes);
    case Begin(thread, account) => BeginDrains(w, thread, account); BeginFates(w, thread, account);
    case TakeNext(thread) => TakeDrains(w, thread); TakeFates(w, thread);
    case CallbackEnds(thread) => OtherDrains(w, e); EndFates(w, thread);
    case Close => OtherDrains(w, e); CloseFates(w);
    case CancelQueued => OtherDrains(w, e); CancelFates(w);
  }

  lemma {:induction false} RunKeeps(w: World, events: seq<Event>)
    requires Inv(w)
    ensures Inv(Run(w, events))
    decreases |events|
  {
    hide Inv;
    if events != [] {
      StepKeeps(w, events[0]);
      RunKeeps(Step(w, events[0]), events[1..]);
    }
  }

  /** Until it is closed, an account has waiting work or a running callback exactly while one
      drain, and only one, is scheduled or running for it. */
  lemma OneDrainPerAccount(events: seq<Event>, account: Account)
    ensures var w := Run(START, events);
            && Drains(w, account) <= 1
            && (!w.guarded.closed ==> (account in w.guarded.states <==> Drains(w, account) == 1))
            && (!w.guarded.closed && account in w.guarded.states ==> w.guarded.states[account].running)
  {
    RunKeeps(START, events);
  }

  /** Two callbacks of one account never run at the same time. */
  lemma CallbacksNeverOverlap(events: seq<Event>, t: ThreadId, u: ThreadId)
    requires var w := Run(START, events);
             && t in w.active && u in w.active && t != u && w.active[t].Calling? && w.active[u].Calling?
    ensures var w := Run(START, events);
            w.active[t].account != w.active[u].account
  {
    RunKeeps(START, events);
    ThreadsApart(Run(START, events), t, u);
  }

  /** No wake-up is lost: every accepted submission has been run, is running, was replaced by
      a later one of the same operation, was discarded by closing, or still waits while
      exactly one drain is on its way to it. */
  lemma NoWakeUpIsLost(events: seq<Event>, ticket: Ticket)
    requires ticket < |Run(START, events).accepted|
    ensures var w := Run(START, events);
            && |w.fates| == |w.accepted|
            && match w.fates[ticket]
               case Done => true
               case Running =>
                 exists t :: t in w.active
                   && w.active[t] == Calling(w.accepted[ticket].account, Entry(w.accepted[ticket].operation, ticket))
               case ReplacedBy(later) => ticket < later < |w.accepted| && w.accepted[later] == w.accepted[ticket]
               case Discarded => w.guarded.closed
               case Waiting =>
                 && !w.guarded.closed && w.accepted[ticket].account in w.guarded.states
                 && Entry(w.accepted[ticket].operation, ticket) in w.guarded.states[w.accepted[ticket].account].pending
                 && Drains(w, w.accepted[ticket].account) == 1
  {
    RunKeeps(START, events);
    assert FateOk(Run(START, events), ticket);
  }

  /** Until it is closed, a refused submission leaves no trace. */
  lemma RefusedSubmissionLeavesNoTrace(events: seq<Event>, account: Account, operation: Operation, executorTakes: bool)
    requires var w := Run(START, events);
             Submitted(w.guarded, account, Entry(operation, |w.accepted|), executorTakes).1 == Refused
    ensures Step(Run(START, events), Submit(account, operation, executorTakes)) == Run(START, events)
  {
    RunKeeps(START, events);
    RefusalChangesNothing(Run(START, events), account, operation, executorTakes);
  }

  // ------------------------------------------------------------ order of the backlog

  /** The operations that wait for an account, in order. */
  function Backlog(w: World, account: Account): seq<Operation> {
    Operations(StateOf(w.guarded, account).pending)
  }

  function Operations(pending: seq<Entry>): seq<Operation> {
    seq(|pending|, i requires 0 <= i < |pending| => pending[i].operation)
  }

  lemma {:induction false} PutKeepsOrder(pending: seq<Entry>, entry: Entry)
    ensures Operations(Put(pending, entry)) ==
              if entry.operation in Operations(pending) then Operations(pending)
              else Operations(pending) + [entry.operation]
  {
    if pending != [] {
      var first, rest := pending[0], pending[1..];
      assert pending == [first] + rest && Operations(pending) == [first.operation] + Operations(rest);
      if first.operation == entry.operation {
        assert Operations([entry] + rest) == [entry.operation] + Operations(rest);
      } else {
        PutKeepsOrder(rest, entry);
        assert Operations([first] + Put(rest, entry)) == [first.operation] + Operations(Put(rest, entry));
      }
    }
  }

  /** A submission is refused exactly when it names nothing, the coordinator is closed, or a
      new drain is needed and the executor raises; it joins a drain exactly when one is on. */
  lemma SubmissionDecides(events: seq<Event>, account: Account, operation: Operation, executorTakes: bool)
    ensures var w := Run(START, events);
            var admission := Submitted(w.guarded, account, Entry(operation, |w.accepted|), executorTakes).1;
            var nameless := account == "" || operation == "";
            && (admission == Refused <==>
                  nameless || w.guarded.closed || (Drains(w, account) == 0 && !executorTakes))
            && (admission == Joined <==> !nameless && !w.guarded.closed && Drains(w, account) == 1)
            && (admission == Scheduled <==>
                  !nameless && !w.guarded.closed && Drains(w, account) == 0 && executorTakes)
  {
    hide Drains;
    OneDrainPerAccount(events, account);
  }

  /** The backlog of every account is a queue: an accepted operation goes to its end, or keeps
      its place if it already waits; a drain takes its head; closing empties it; and nothing
      else moves it. */
  lemma BacklogIsAQueue(events: seq<Event>, e: Event, account: Account)
    ensures var w := Run(START, events);
            var w' := Step(w, e);
            var before, after := Backlog(w, account), Backlog(w', account);
            match e
            case Submit(a, operation, executorTakes) =>
              after == if a == account && |w'.accepted| > |w.accepted| && operation !in before
                       then before + [operation] else before
            case TakeNext(thread) =>
              if thread in w.active && w.active[thread] == Looking(account) && before != [] && !w.guarded.closed
              then && after == before[1..]
                   && w'.active[thread] == Calling(account, StateOf(w.guarded, account).pending[0])
              else after == before
            case Close => after == []
            case _ => after == before
  {
    hide Inv;
    StartIsSound();
    RunKeeps(START, events);
    var w := Run(START, events);
    match e
    case Submit(a, operation, executorTakes) => SubmitQueues(w, a, operation, executorTakes, account);
    case TakeNext(thread) => TakeDequeues(w, thread, account);
    case Close => CloseEmpties(w, account);
    case _ =>
  }

  lemma SubmitQueues(w: World, a: Account, operation: Operation, executorTakes: bool, account: Account)
    requires Inv(w)
    ensures var w' := OnSubmit(w, a, operation, executorTakes);
            Backlog(w', account) ==
              if a == account && |w'.accepted| > |w.accepted| && operation !in Backlog(w, account)
              then Backlog(w, account) + [operation] else Backlog(w, account)
  {
    hide Drains, FatesInv, Operations, Put;
    var entry := Entry(operation, |w.accepted|);
    if Submitted(w.guarded, a, entry, executorTakes).1 == Refused {
      RefusalChangesNothing(w, a, operation, executorTakes);
    } else {
      PutKeepsOrder(StateOf(w.guarded, a).pending, entry);
    }
  }

  lemma TakeDequeues(w: World, thread: ThreadId, account: Account)
    requires Inv(w)
    ensures var w' := OnTakeNext(w, thread);
            var before := Backlog(w, account);
            if thread in w.active && w.active[thread] == Looking(account) && before != [] && !w.guarded.closed
            then && Backlog(w', account) == before[1..]
                 && w'.active[thread] == Calling(account, StateOf(w.guarded, account).pending[0])
            else Backlog(w', account) == before
  {
    hide Drains, FatesInv;
    var pending := StateOf(w.guarded, account).pending;
    if pending != [] { assert Operations(pending)[1..] == Operations(pending[1..]); }
  }

  lemma CloseEmpties(w: World, account: Account)
    requires Inv(w)
    ensures Backlog(Step(w, Close), account) == []
  {
    hide Drains, FatesInv;
  }

  // ------------------------------------------------------------ a drain finishes

  /** One drain working alone: take, run, take, run, until nothing is left. */
  function Alone(thread: ThreadId, n: nat): seq<Event> {
    if n == 0 then [] else [TakeNext(thread), CallbackEnds(thread)] + Alone(thread, n - 1)
  }

  lemma RunTwo(w: World, a: Event, b: Event, rest: seq<Event>)
    ensures Run(w, [a, b] + rest) == Run(Step(Step(w, a), b), rest)
  {
    assert ([a, b] + rest)[1..] == [b] + rest;
    assert ([b] + rest)[1..] == rest;
  }

  lemma OneTurn(w: World, thread: ThreadId, w2: World)
    requires Inv(w) && !w.guarded.closed
    requires thread in w.active && w.active[thread].Looking? && w.active[thread].account in w.guarded.states
    requires w.guarded.states[w.active[thread].account].pending != []
    requires w2 == Step(Step(w, TakeNext(thread)), CallbackEnds(thread))
    ensures var account := w.active[thread].account;
            var pending := w.guarded.states[account].pending;
            && Inv(w2) && !w2.guarded.closed && thread in w2.active && w2.active[thread] == w.active[thread]
            && account in w2.guarded.states && w2.guarded.states[account].pending == pending[1..]
            && w2.accepted == w.accepted && |w2.fates| == |w.fates|
            && pending[0].ticket < |w.fates| && w2.fates[pending[0].ticket] == Done
            && (forall t :: 0 <= t < |w.fates| && w.fates[t] == Done ==> w2.fates[t] == Done)
            && (forall e :: e in pending ==> e.ticket < |w.fates|)
  {
    var account := w.active[thread].account;
    var pending := w.guarded.states[account].pending;
    forall e | e in pending ensures e.ticket < |w.fates| { assert EntryOk(w, account, e); }
    assert pending[0] in pending;
    StepKeeps(w, TakeNext(thread));
    StepKeeps(Step(w, TakeNext(thread)), CallbackEnds(thread));
  }

  /** Left to itself, a drain runs the whole backlog of its account, oldest first, and every
      ticket that was waiting there is done. */
  lemma {:induction false} BacklogIsRun(w: World, thread: ThreadId)
    requires Inv(w) && !w.guarded.closed
    requires thread in w.active && w.active[thread].Looking? && w.active[thread].account in w.guarded.states
    ensures var pending := w.guarded.states[w.active[thread].account].pending;
            var w' := Run(w, Alone(thread, |pending|));
            && Inv(w') && !w'.guarded.closed
            && thread in w'.active && w'.active[thread] == w.active[thread]
            && w.active[thread].account in w'.guarded.states
            && w'.guarded.states[w.active[thread].account].pending == []
            && w'.accepted == w.accepted
            && |w'.fates| == |w.fates|
            && (forall t :: 0 <= t < |w.fates| && w.fates[t] == Done ==> w'.fates[t] == Done)
            && (forall e :: e in pending ==> e.ticket < |w'.fates| && w'.fates[e.ticket] == Done)
    decreases |w.guarded.states[w.active[thread].account].pending|
  {
    hide Inv, Step;
    var account := w.active[thread].account;
    var pending := w.guarded.states[account].pending;
    if pending != [] {
      var w2 := Step(Step(w, TakeNext(thread)), CallbackEnds(thread));
      OneTurn(w, thread, w2);
      BacklogIsRun(w2, thread);
      RunTwo(w, TakeNext(thread), CallbackEnds(thread), Alone(thread, |pending| - 1));
      assert pending == [pending[0]] + pending[1..];
    }
  }
}
