/** The profile lookup coordinator: a bounded executor with at most one lookup in flight
    per account and uid. */
module ProfileLookups {
  import opened Vocabulary

  type FutureId = nat

  datatype Key = Key(account: string, uid: string)

  datatype Progress = Waiting | Running | Finished

  /** What a future still holds: its place in the flight table and a permit, a permit
      only, or nothing. */
  datatype Holding = InFlight | PermitOnly | Nothing

  datatype Lookup = Lookup(key: Key, progress: Progress, holding: Holding)

  /** The fields guarded by the lock, and the semaphore's free permits. */
  datatype Guarded = Guarded(flights: map<Key, FutureId>, free: int, closed: bool)

  datatype World = World(guarded: Guarded, futures: map<FutureId, Lookup>)

  function Start(capacity: nat): World {
    World(Guarded(map[], capacity, false), map[])
  }

  /** How the executor answers a submission. */
  datatype Submission = Taken(future: FutureId) | Raised

  datatype Admission = Existing(future: FutureId) | Saturated | Created(future: FutureId) | Broken

  /** `_future` under the lock. */
  function Admitted(g: Guarded, key: Key, submission: Submission): (Guarded, Admission) {
    if key in g.flights then (g, Existing(g.flights[key]))
    else if g.closed || g.free <= 0 then (g, Saturated)
    else
      match submission
      case Raised => (g, Broken)
      case Taken(future) => (Guarded(g.flights[key := future], g.free - 1, g.closed), Created(future))
  }

  /** The locked part of `_release`: only the very future that is registered is removed. */
  function Unregistered(g: Guarded, key: Key, future: FutureId): Guarded {
    if key in g.flights && g.flights[key] == future then g.(flights := g.flights - {key}) else g
  }

  class ProfileLookupCoordinator {
    const capacity: nat
    var flights: map<Key, FutureId>
    var free: int
    var closed: bool

    constructor (maxWorkers: int, maxPending: int)
      ensures capacity >= 1 && capacity >= maxWorkers && capacity >= maxPending
      ensures capacity in {1, maxWorkers, maxPending} && Value() == Guarded(map[], capacity, false)
    {
      capacity := Max(Max(1, maxWorkers), maxPending);
      flights, free, closed := map[], Max(Max(1, maxWorkers), maxPending), false;
    }

    function Value(): Guarded
      reads this
    {
      Guarded(flights, free, closed)
    }

    method Future(key: Key, submission: Submission) returns (admission: Admission)
      modifies this
      ensures (Value(), admission) == Admitted(old(Value()), key, submission)
    {
      if key in flights { return Existing(flights[key]); }
      if closed || free <= 0 { return Saturated; }
      free := free - 1;
      if submission.Raised? {
        free := free + 1;
        return Broken;
      }
      flights := flights[key := submission.future];
      return Created(submission.future);
    }

    method Unregister(key: Key, future: FutureId)
      modifies this
      ensures Value() == Unregistered(old(Value()), key, future)
    {
      if key in flights && flights[key] == future { flights := flights - {key}; }
    }

    /** Gives one permit back; a bounded semaphore refuses more than it started with. */
    method Release() returns (done: bool)
      modifies this
      ensures done == (old(free) < capacity)
      ensures Value() == if done then old(Value()).(free := old(free) + 1) else old(Value())
    {
      if free >= capacity { return false; }
      free := free + 1;
      return true;
    }

    method Close()
      modifies this
      ensures Value() == old(Value()).(closed := true)
    {
      closed := true;
    }
  }

  // ------------------------------------------------------------ all interleavings

  datatype Event =
    | Request(key: Key, submission: Submission, finishedAtOnce: bool)
    | Begin(future: FutureId)
    | Finish(future: FutureId)
    | Unregister(future: FutureId)
    | ReturnPermit(future: FutureId)
    | Close

  /** A new future is one the executor has not handed out before.  When it is already done
      as its callback is added, the callback runs on the spot. */
  function OnRequest(w: World, key: Key, submission: Submission, finishedAtOnce: bool): World {
    if submission.Taken? && submission.future in w.futures then w
    else
      var (g, admission) := Admitted(w.guarded, key, submission);
      if !admission.Created? then w.(guarded := g)
      else if finishedAtOnce then
        World(Unregistered(g, key, admission.future).(free := g.free + 1),
              w.futures[admission.future := Lookup(key, Finished, Nothing)])
      else World(g, w.futures[admission.future := Lookup(key, Waiting, InFlight)])
  }

  function Step(w: World, e: Event): World {
    match e
    case Request(key, submission, finishedAtOnce) => OnRequest(w, key, submission, finishedAtOnce)
    case Begin(f) =>
      if f in w.futures && w.futures[f].progress == Waiting
      then w.(futures := w.futures[f := w.futures[f].(progress := Running)]) else w
    case Finish(f) =>
      // completion, failure, or cancellation of a queued future when the executor shuts down
      if f in w.futures && w.futures[f].progress != Finished
      then w.(futures := w.futures[f := w.futures[f].(progress := Finished)]) else w
    case Unregister(f) =>
      if f in w.futures && w.futures[f].progress == Finished && w.futures[f].holding == InFlight
      then World(Unregistered(w.guarded, w.futures[f].key, f), w.futures[f := w.futures[f].(holding := PermitOnly)])
      else w
    case ReturnPermit(f) =>
      if f in w.futures && w.futures[f].holding == PermitOnly
      then World(w.guarded.(free := w.guarded.free + 1), w.futures[f := w.futures[f].(holding := Nothing)]) else w
    case Close => w.(guarded := w.guarded.(closed := true))
  }

  function Run(w: World, events: seq<Event>): World
    decreases |events|
  {
    if events == [] then w else Run(Step(w, events[0]), events[1..])
  }

  function Unreleased(w: World): set<FutureId> {
    set f | f in w.futures && w.futures[f].holding != Nothing
  }

  ghost predicate Inv(w: World, capacity: nat) {
    && w.guarded.free >= 0
    && w.guarded.free + |Unreleased(w)| == capacity
    && (forall key :: key in w.guarded.flights ==>
          && w.guarded.flights[key] in w.futures
          && w.futures[w.guarded.flights[key]].key == key
          && w.futures[w.guarded.flights[key]].holding == InFlight)
    && (forall f :: f in w.futures && w.futures[f].holding == InFlight ==>
          w.futures[f].key in w.guarded.flights && w.guarded.flights[w.futures[f].key] == f)
    && (forall f :: f in w.futures && w.futures[f].progress != Finished ==> w.futures[f].holding == InFlight)
  }

  lemma StartIsSound(capacity: nat)
    ensures Inv(Start(capacity), capacity)
  {
    assert Unreleased(Start(capacity)) == {};
  }

  lemma CreatedKeeps(w: World, w': World, capacity: nat, key: Key, future: FutureId)
    requires Inv(w, capacity) && future !in w.futures && key !in w.guarded.flights && w.guarded.free > 0
    requires w' == World(Guarded(w.guarded.flights[key := future], w.guarded.free - 1, w.guarded.closed),
                         w.futures[future := Lookup(key, Waiting, InFlight)])
    ensures Inv(w', capacity)
  {
    assert Unreleased(w') == Unreleased(w) + {future};
  }

  lemma FinishedAtOnceKeeps(w: World, w': World, capacity: nat, key: Key, future: FutureId)
    requires Inv(w, capacity) && future !in w.futures && key !in w.guarded.flights
    requires w' == World(w.guarded, w.futures[future := Lookup(key, Finished, Nothing)])
    ensures Inv(w', capacity)
  {
    assert Unreleased(w') == Unreleased(w);
  }

  lemma RequestKeeps(w: World, capacity: nat, key: Key, submission: Submission, finishedAtOnce: bool)
    requires Inv(w, capacity)
    ensures Inv(OnRequest(w, key, submission, finishedAtOnce), capacity)
  {
    hide Inv;
    var w' := OnRequest(w, key, submission, finishedAtOnce);
    if !(submission.Taken? && submission.future in w.futures) {
      var admission := Admitted(w.guarded, key, submission).1;
      if admission.Created? {
        if finishedAtOnce {
          assert w.guarded.flights[key := admission.future] - {key} == w.guarded.flights;
          FinishedAtOnceKeeps(w, w', capacity, key, admission.future);
        } else {
          CreatedKeeps(w, w', capacity, key, admission.future);
        }
      }
    }
  }

  lemma ReturnKeeps(w: World, capacity: nat, f: FutureId)
    requires Inv(w, capacity)
    ensures Inv(Step(w, ReturnPermit(f)), capacity)
  {
    var w' := Step(w, ReturnPermit(f));
    if f in w.futures && w.futures[f].holding == PermitOnly {
      assert f in Unreleased(w) && Unreleased(w') == Unreleased(w) - {f};
    }
  }

  lemma OtherKeeps(w: World, capacity: nat, e: Event)
    requires Inv(w, capacity) && !e.Request? && !e.ReturnPermit?
    ensures Inv(Step(w, e), capacity)
  {
    assert Unreleased(Step(w, e)) == Unreleased(w);
  }

  lemma StepKeeps(w: World, capacity: nat, e: Event)
    requires Inv(w, capacity)
    ensures Inv(Step(w, e), capacity)
  {
    hide Inv;
    match e
    case Request(key, submission, finishedAtOnce) => RequestKeeps(w, capacity, key, submission, finishedAtOnce);
    case ReturnPermit(f) => ReturnKeeps(w, capacity, f);
    case _ => OtherKeeps(w, capacity, e);
  }

  lemma {:induction false} RunKeeps(w: World, capacity: nat, events: seq<Event>)
    requires Inv(w, capacity)
    ensures Inv(Run(w, events), capacity)
    decreases |events|
  {
    hide Inv;
    if events != [] {
      StepKeeps(w, capacity, events[0]);
      RunKeeps(Step(w, events[0]), capacity, events[1..]);
    }
  }

  /** Free permits and unreleased futures always add up to the capacity. */
  lemma PermitsAreConserved(capacity: nat, events: seq<Event>)
    ensures var w := Run(Start(capacity), events);
            w.guarded.free >= 0 && w.guarded.free + |Unreleased(w)| == capacity
  {
    StartIsSound(capacity);
    RunKeeps(Start(capacity), capacity, events);
  }

  /** The flight table holds at most one unfinished lookup for an account and uid. */
  lemma SingleFlight(capacity: nat, events: seq<Event>, f: FutureId, g: FutureId)
    requires var w := Run(Start(capacity), events);
             && f in w.futures && g in w.futures && w.futures[f].key == w.futures[g].key
             && w.futures[f].progress != Finished && w.futures[g].progress != Finished
    ensures f == g
  {
    StartIsSound(capacity);
    RunKeeps(Start(capacity), capacity, events);
  }

  /** The identity test of a release always finds its own future, and the permit it then
      gives back always fits. */
  lemma ReleaseAlwaysSucceeds(capacity: nat, events: seq<Event>, f: FutureId)
    requires f in Run(Start(capacity), events).futures
    ensures var w := Run(Start(capacity), events);
            && (w.futures[f].holding == InFlight ==>
                  w.futures[f].key in w.guarded.flights && w.guarded.flights[w.futures[f].key] == f)
            && (w.futures[f].holding != Nothing ==> w.guarded.free < capacity)
  {
    StartIsSound(capacity);
    RunKeeps(Start(capacity), capacity, events);
    var w := Run(Start(capacity), events);
    if w.futures[f].holding != Nothing {
      assert f in Unreleased(w);
    }
  }

  /** A release removes the registration of its own future only: when another future has been
      registered for the same account and uid, that one stays. */
  lemma ReleaseRemovesOwnOnly(g: Guarded, key: Key, future: FutureId, other: Key)
    ensures var after := Unregistered(g, key, future);
            && after.free == g.free && after.closed == g.closed
            && (other in after.flights <==> other in g.flights && !(other == key && g.flights[other] == future))
            && (other in after.flights ==> after.flights[other] == g.flights[other])
  {
  }

  // -------------------------------------------------------------- one batched call

  /** What a finished lookup holds. */
  datatype Outcome<T> = Threw | Value(value: Option<T>)

  /** What asking for one uid leads to, by the time its future is read. */
  datatype Reply<T> = Full | Failing | Late | Failed | Answered(value: Option<T>)

  /** Reads a future once, after the wait: it is done by then or it is not. */
  function ReplyTo<T>(admission: Admission, done: bool, outcome: FutureId -> Outcome<T>): Reply<T> {
    if admission.Saturated? then Full
    else if admission.Broken? then Failing
    else if !done then Late
    else
      match outcome(admission.future)
      case Threw => Reply.Failed
      case Value(value) => Answered(value)
  }

  function Replies<T>(ask: string -> Admission, done: string -> bool,
                      outcome: FutureId -> Outcome<T>): string -> Reply<T> {
    (u: string) => ReplyTo(ask(u), done(u), outcome)
  }

  /** The uids asked for, blanks and repeats dropped, in order. */
  function Targets(uids: seq<string>): (targets: seq<string>)
    ensures forall i, j :: 0 <= i < j < |targets| ==> targets[i] != targets[j]
    ensures forall u :: u in targets <==> u in uids && u != ""
  {
    if uids == [] then []
    else
      var n := |uids| - 1;
      var before := Targets(uids[..n]);
      assert uids == uids[..n] + [uids[n]];
      if uids[n] == "" || uids[n] in before then before else before + [uids[n]]
  }

  datatype Batch<T> = Batch(completed: map<string, Option<T>>, pending: seq<string>, saturated: seq<string>)

  datatype Kind = NoRoom | Begun | Unanswered

  predicate Matches<T>(r: Reply<T>, kind: Kind) {
    match kind
    case NoRoom => r.Full?
    case Begun => !r.Full?
    case Unanswered => r.Late? || r.Failed?
  }

  /** The admitted uids that led to a given kind of reply, in order. */
  function Those<T>(admitted: seq<string>, reply: string -> Reply<T>, kind: Kind): seq<string> {
    if admitted == [] then []
    else
      var n := |admitted| - 1;
      Those(admitted[..n], reply, kind) + (if Matches(reply(admitted[n]), kind) then [admitted[n]] else [])
  }

  lemma ThoseMore<T>(admitted: seq<string>, n: nat, reply: string -> Reply<T>, kind: Kind)
    requires n < |admitted|
    ensures Those(admitted[..n + 1], reply, kind) ==
              Those(admitted[..n], reply, kind) + (if Matches(reply(admitted[n]), kind) then [admitted[n]] else [])
  {
    assert admitted[..n + 1][..n] == admitted[..n];
  }

  lemma {:induction false} ThoseHas<T>(admitted: seq<string>, reply: string -> Reply<T>, kind: Kind, u: string)
    ensures u in Those(admitted, reply, kind) <==> u in admitted && Matches(reply(u), kind)
  {
    if admitted != [] {
      var n := |admitted| - 1;
      assert admitted == admitted[..n] + [admitted[n]];
      ThoseHas(admitted[..n], reply, kind, u);
    }
  }

  /** As many of the first targets as may be looked up at once, none for a negative number. */
  function First(targets: seq<string>, maxSync: int): (first: seq<string>)
    ensures first <= targets
    ensures |first| == if maxSync <= 0 then 0 else if maxSync < |targets| then maxSync else |targets|
  {
    var limit := Max(0, maxSync);
    if |targets| <= limit then targets else targets[..limit]
  }

  /** Targets keep the order in which their uids were first given. */
  lemma {:induction false} TargetsKeepOrder(uids: seq<string>, n: nat)
    requires n <= |uids|
    ensures Targets(uids[..n]) <= Targets(uids)
    decreases |uids|
  {
    if n == |uids| {
      assert uids[..n] == uids;
    } else {
      var m := |uids| - 1;
      TargetsKeepOrder(uids[..m], n);
      assert uids[..m][..n] == uids[..n];
    }
  }

  /** Asks for every admitted uid in turn. */
  method StartAll<T>(admitted: seq<string>, reply: string -> Reply<T>)
    returns (broken: bool, started: seq<string>, saturated: seq<string>)
    ensures broken <==> exists i :: 0 <= i < |admitted| && reply(admitted[i]).Failing?
    ensures !broken ==> started == Those(admitted, reply, Begun) && saturated == Those(admitted, reply, NoRoom)
  {
    hide Those;
    broken, started, saturated := false, [], [];
    NoneYet(admitted, reply);
    var i := 0;
    while i < |admitted|
      invariant 0 <= i <= |admitted|
      invariant saturated == Those(admitted[..i], reply, NoRoom) && started == Those(admitted[..i], reply, Begun)
      invariant forall k :: 0 <= k < i ==> !reply(admitted[k]).Failing?
    {
      ThoseMore(admitted, i, reply, NoRoom);
      ThoseMore(admitted, i, reply, Begun);
      var r := reply(admitted[i]);
      if r.Failing? { return true, started, saturated; }
      if r.Full? { saturated := saturated + [admitted[i]]; } else { started := started + [admitted[i]]; }
      i := i + 1;
    }
    assert admitted[..i] == admitted;
  }

  lemma NoneYet<T>(admitted: seq<string>, reply: string -> Reply<T>)
    ensures forall kind: Kind :: Those(admitted[..0], reply, kind) == []
  {
  }

  /** Reads what the started lookups have produced by the deadline. */
  method Collect<T>(started: seq<string>, reply: string -> Reply<T>)
    returns (completed: map<string, Option<T>>, unanswered: seq<string>)
    requires forall i :: 0 <= i < |started| ==> !reply(started[i]).Failing? && !reply(started[i]).Full?
    ensures unanswered == Those(started, reply, Unanswered)
    ensures forall u :: u in completed <==> u in started && reply(u).Answered?
    ensures forall u :: u in completed ==> completed[u] == reply(u).value
  {
    hide Those;
    completed, unanswered := map[], [];
    NoneYet(started, reply);
    var i := 0;
    while i < |started|
      invariant 0 <= i <= |started|
      invariant unanswered == Those(started[..i], reply, Unanswered)
      invariant forall u :: u in completed <==> u in started[..i] && reply(u).Answered?
      invariant forall u :: u in completed ==> completed[u] == reply(u).value
    {
      ThoseMore(started, i, reply, Unanswered);
      assert started[..i + 1] == started[..i] + [started[i]];
      var r := reply(started[i]);
      if r.Answered? {
        completed := completed[started[i] := r.value];
      } else {
        unanswered := unanswered + [started[i]];
      }
      i := i + 1;
    }
    assert started[..i] == started;
  }

  /** The result of a request: which targets were answered, and the others in order. */
  ghost predicate Answers<T>(b: Batch<T>, targets: seq<string>, admitted: seq<string>, reply: string -> Reply<T>)
    requires |admitted| <= |targets|
  {
    && b.pending == targets[|admitted|..] + Those(admitted, reply, Unanswered) + Those(admitted, reply, NoRoom)
    && b.saturated == Those(admitted, reply, NoRoom)
    && (forall u :: u in b.completed <==> u in admitted && reply(u).Answered?)
    && (forall u :: u in b.completed ==> b.completed[u] == reply(u).value)
  }

  /** One request over the first `maxSync` targets.  An executor that cannot start a lookup
      ends the request.  The final removal of repeats changes nothing, since no target is
      pending twice. */
  method FetchMany<T>(uids: seq<string>, maxSync: int, ask: string -> Admission, done: string -> bool,
                      outcome: FutureId -> Outcome<T>)
    returns (batch: Option<Batch<T>>)
    ensures var admitted := First(Targets(uids), maxSync);
            && (batch.None? <==> exists i :: 0 <= i < |admitted| && ask(admitted[i]).Broken?)
            && (batch.Some? ==> Answers(batch.value, Targets(uids), admitted, Replies(ask, done, outcome)))
  {
    var reply := Replies(ask, done, outcome);
    hide Those;
    var targets := Targets(uids);
    var admitted := First(targets, maxSync);
    var pending := targets[|admitted|..];
    var broken, started, saturated := StartAll(admitted, reply);
    if broken {
      ghost var k :| 0 <= k < |admitted| && reply(admitted[k]).Failing?;
      assert ask(First(Targets(uids), maxSync)[k]).Broken?;
      return None;
    }
    forall u ensures u in started <==> u in admitted && !reply(u).Full? { ThoseHas(admitted, reply, Begun, u); }
    forall i | 0 <= i < |started| ensures !reply(started[i]).Failing? && !reply(started[i]).Full? {
      assert started[i] in started;
      var k :| 0 <= k < |admitted| && admitted[k] == started[i];
    }
    var completed, unanswered := Collect(started, reply);
    ThoseOfThose(admitted, reply);
    pending := pending + unanswered + saturated;
    forall i | 0 <= i < |admitted| ensures !ask(admitted[i]).Broken? { assert !reply(admitted[i]).Failing?; }
    batch := Some(Batch(completed, pending, saturated));
  }

  lemma {:induction false} ThoseOfThose<T>(admitted: seq<string>, reply: string -> Reply<T>)
    ensures Those(Those(admitted, reply, Begun), reply, Unanswered) == Those(admitted, reply, Unanswered)
  {
    if admitted != [] {
      var n := |admitted| - 1;
      ThoseOfThose(admitted[..n], reply);
      var rest := Those(admitted[..n], reply, Begun);
      assert (rest + [admitted[n]])[..|rest|] == rest;
      if Matches(reply(admitted[n]), Begun) {
        assert Those(admitted, reply, Begun) == rest + [admitted[n]];
      } else {
        assert Those(admitted, reply, Begun) == rest;
      }
    }
  }

  ghost predicate Distinct(uids: seq<string>) {
    forall i, j :: 0 <= i < j < |uids| ==> uids[i] != uids[j]
  }

  lemma DistinctJoin(a: seq<string>, b: seq<string>)
    requires Distinct(a) && Distinct(b) && forall u :: u in a ==> u !in b
    ensures Distinct(a + b)
  {
    var c := a + b;
    forall i, j | 0 <= i < j < |c| ensures c[i] != c[j] {
      if i < |a| <= j { assert c[i] in a && c[j] in b; }
    }
  }

  lemma {:induction false} ThoseAreDistinct<T>(admitted: seq<string>, reply: string -> Reply<T>, kind: Kind)
    requires Distinct(admitted)
    ensures Distinct(Those(admitted, reply, kind))
  {
    if admitted != [] {
      var n := |admitted| - 1;
      ThoseAreDistinct(admitted[..n], reply, kind);
      var rest := Those(admitted[..n], reply, kind);
      forall u | u in rest ensures u !in [admitted[n]] {
        ThoseHas(admitted[..n], reply, kind, u);
        var k :| 0 <= k < n && admitted[..n][k] == u;
        assert admitted[k] == u;
      }
      DistinctJoin(rest, [admitted[n]]);
      if Matches(reply(admitted[n]), kind) {
        assert Those(admitted, reply, kind) == rest + [admitted[n]];
      } else {
        assert Those(admitted, reply, kind) == rest;
      }
    }
  }

  /** The split is exact: every target is either completed or pending, never both, nothing
      is pending twice, and the saturated targets are among the pending ones. */
  lemma SplitIsExact<T>(uids: seq<string>, maxSync: int, reply: string -> Reply<T>, b: Batch<T>)
    requires var admitted := First(Targets(uids), maxSync);
             && (forall u :: u in admitted ==> !reply(u).Failing?)
             && Answers(b, Targets(uids), admitted, reply)
    ensures forall u :: u in Targets(uids) <==> (u in b.completed || u in b.pending)
    ensures forall u :: !(u in b.completed && u in b.pending)
    ensures forall u :: u in b.saturated ==> u in b.pending
    ensures Distinct(b.pending)
  {
    hide Those;
    var targets := Targets(uids);
    var admitted := First(targets, maxSync);
    var deferred := targets[|admitted|..];
    assert targets == admitted + deferred;
    var late, full := Those(admitted, reply, Unanswered), Those(admitted, reply, NoRoom);
    forall u
      ensures u in late <==> u in admitted && (reply(u).Late? || reply(u).Failed?)
      ensures u in full <==> u in admitted && reply(u).Full?
    {
      ThoseHas(admitted, reply, Unanswered, u);
      ThoseHas(admitted, reply, NoRoom, u);
    }
    forall u | u in deferred ensures u !in admitted {
      var i :| 0 <= i < |deferred| && deferred[i] == u;
      assert targets[|admitted| + i] == u;
      forall k | 0 <= k < |admitted| ensures admitted[k] != u { assert targets[k] == admitted[k]; }
    }
    ThoseAreDistinct(admitted, reply, Unanswered);
    ThoseAreDistinct(admitted, reply, NoRoom);
    DistinctJoin(deferred, late);
    DistinctJoin(deferred + late, full);
  }

  // ------------------------------------------------- a batch inside a whole run

  /** Asking for one uid: what happens before its turn, and how the executor answers. */
  datatype Ask = Ask(meanwhile: seq<Event>, submission: Submission, finishedAtOnce: bool)

  /** The world and the admissions after the first uids were asked for in turn, with any
      other events in between.  Nothing is asked for after the executor raised. */
  function AskAll(w: World, account: string, admitted: seq<string>, asks: string -> Ask)
    : (World, map<string, Admission>)
  {
    if admitted == [] then (w, map[])
    else
      var (before, got) := AskAll(w, account, admitted[..|admitted| - 1], asks);
      if Broken in got.Values then (before, got)
      else
        var u := admitted[|admitted| - 1];
        var ask := asks(u);
        var now := Run(before, ask.meanwhile);
        (OnRequest(now, Key(account, u), ask.submission, ask.finishedAtOnce),
         got[u := Admitted(now.guarded, Key(account, u), ask.submission).1])
  }

  /** The executor never hands out a future twice. */
  ghost predicate HandsOutNew(w: World, account: string, admitted: seq<string>, asks: string -> Ask) {
    forall n :: 0 <= n < |admitted| ==>
      var ask := asks(admitted[n]);
      ask.submission.Taken? ==>
        ask.submission.future !in Run(AskAll(w, account, admitted[..n], asks).0, ask.meanwhile).futures
  }

  /** A lookup keeps its key, and once finished stays finished. */
  ghost predicate Kept(w: World, w': World) {
    forall f :: f in w.futures ==>
      && f in w'.futures && w'.futures[f].key == w.futures[f].key
      && (w.futures[f].progress == Finished ==> w'.futures[f].progress == Finished)
  }

  lemma {:induction false} LookupsAreKept(w: World, events: seq<Event>)
    ensures Kept(w, Run(w, events))
    decreases |events|
  {
    if events != [] {
      assert Kept(w, Step(w, events[0]));
      LookupsAreKept(Step(w, events[0]), events[1..]);
    }
  }

  /** Every future that asking gave is a lookup for that very account and uid. */
  ghost predicate OwnLookups(w: World, account: string, got: map<string, Admission>) {
    forall u :: u in got && (got[u].Existing? || got[u].Created?) ==>
      got[u].future in w.futures && w.futures[got[u].future].key == Key(account, u)
  }

  lemma OwnStaysOwn(w: World, w': World, account: string, got: map<string, Admission>)
    requires OwnLookups(w, account, got) && Kept(w, w')
    ensures OwnLookups(w', account, got)
  {
  }

  lemma OneMoreAsk(w: World, capacity: nat, account: string, got: map<string, Admission>, u: string, ask: Ask)
    requires Inv(w, capacity) && OwnLookups(w, account, got)
    requires ask.submission.Taken? ==> ask.submission.future !in w.futures
    ensures var w' := OnRequest(w, Key(account, u), ask.submission, ask.finishedAtOnce);
            OwnLookups(w', account, got[u := Admitted(w.guarded, Key(account, u), ask.submission).1])
  {
    hide Unreleased;
  }

  lemma {:induction false} AskingGivesOwnLookups(w: World, capacity: nat, account: string, admitted: seq<string>,
                                                 asks: string -> Ask)
    requires Inv(w, capacity) && HandsOutNew(w, account, admitted, asks)
    ensures var (after, got) := AskAll(w, account, admitted, asks);
            && Inv(after, capacity) && OwnLookups(after, account, got) && Kept(w, after)
            && (forall u :: u in got ==> u in admitted)
            && (Broken !in got.Values ==> forall u :: u in admitted ==> u in got)
    decreases |admitted|
  {
    hide Inv, OwnLookups, Run, Admitted, OnRequest, Kept;
    if admitted == [] {
      NothingAsked(w, account);
    } else {
      var n := |admitted| - 1;
      assert admitted == admitted[..n] + [admitted[n]];
      forall k | 0 <= k < n ensures admitted[..n][..k] == admitted[..k] {}
      AskingGivesOwnLookups(w, capacity, account, admitted[..n], asks);
      var (before, got) := AskAll(w, account, admitted[..n], asks);
      var u := admitted[n];
      var ask := asks(u);
      var now := Run(before, ask.meanwhile);
      if Broken !in got.Values {
        LookupsAreKept(before, ask.meanwhile);
        RunKeeps(before, capacity, ask.meanwhile);
        OwnStaysOwn(before, now, account, got);
        OneMoreAsk(now, capacity, account, got, u, ask);
        RequestKeeps(now, capacity, Key(account, u), ask.submission, ask.finishedAtOnce);
        RequestKept(now, Key(account, u), ask);
        KeptTogether(w, before, now);
        KeptTogether(w, now, OnRequest(now, Key(account, u), ask.submission, ask.finishedAtOnce));
      }
    }
  }

  lemma NothingAsked(w: World, account: string)
    ensures Kept(w, w) && OwnLookups(w, account, map[])
  {
  }

  lemma KeptTogether(w: World, w': World, w'': World)
    requires Kept(w, w') && Kept(w', w'')
    ensures Kept(w, w'')
  {
  }

  lemma RequestKept(w: World, key: Key, ask: Ask)
    ensures Kept(w, OnRequest(w, key, ask.submission, ask.finishedAtOnce))
  {
  }

  function AskOf(got: map<string, Admission>): string -> Admission {
    (u: string) => if u in got then got[u] else Saturated
  }

  /** Whether the future of a uid is done when it is read, after the wait and whatever
      else happened until then. */
  function DoneAt(after: World, got: map<string, Admission>, until: string -> seq<Event>): string -> bool {
    (u: string) =>
      && u in got && (got[u].Existing? || got[u].Created?)
      && got[u].future in Run(after, until(u)).futures
      && Run(after, until(u)).futures[got[u].future].progress == Finished
  }

  /** What a batch says of one admitted uid is what became of its own lookup: no room, not
      done or failed by the time it was read, or the value that lookup produced. */
  ghost predicate SaysOf<T>(b: Batch<T>, account: string, u: string, admission: Admission, now: World,
                            outcome: FutureId -> Outcome<T>) {
    match admission
    case Broken => false
    case Saturated => u in b.saturated
    case _ =>
      var f := admission.future;
      && u !in b.saturated
      && f in now.futures && now.futures[f].key == Key(account, u)
      && (if now.futures[f].progress == Finished && outcome(f).Value?
          then u in b.completed && b.completed[u] == outcome(f).value
          else u in b.pending)
  }

  lemma SaysOfOne<T>(b: Batch<T>, targets: seq<string>, admitted: seq<string>, account: string, after: World,
                     got: map<string, Admission>, until: string -> seq<Event>, outcome: FutureId -> Outcome<T>,
                     u: string)
    requires |admitted| <= |targets| && u in admitted && u in got && got[u] != Broken && OwnLookups(after, account, got)
    requires Answers(b, targets, admitted, Replies(AskOf(got), DoneAt(after, got, until), outcome))
    ensures SaysOf(b, account, u, got[u], Run(after, until(u)), outcome)
  {
    hide Those;
    var reply := Replies(AskOf(got), DoneAt(after, got, until), outcome);
    LookupsAreKept(after, until(u));
    ThoseHas(admitted, reply, Unanswered, u);
    ThoseHas(admitted, reply, NoRoom, u);
  }

  /** In any run of the coordinator, and whatever happens between the questions of a batch
      and before each answer is read, the batch tells of every uid exactly what became of
      that uid's own lookup, whether this batch started it or joined it. */
  lemma BatchFollowsLookups<T>(capacity: nat, events: seq<Event>, account: string, uids: seq<string>, maxSync: int,
                               asks: string -> Ask, until: string -> seq<Event>, outcome: FutureId -> Outcome<T>,
                               b: Batch<T>)
    requires HandsOutNew(Run(Start(capacity), events), account, First(Targets(uids), maxSync), asks)
    requires var admitted := First(Targets(uids), maxSync);
             var (after, got) := AskAll(Run(Start(capacity), events), account, admitted, asks);
             && Broken !in got.Values
             && Answers(b, Targets(uids), admitted, Replies(AskOf(got), DoneAt(after, got, until), outcome))
    ensures var admitted := First(Targets(uids), maxSync);
            var (after, got) := AskAll(Run(Start(capacity), events), account, admitted, asks);
            forall u :: u in admitted ==> u in got && SaysOf(b, account, u, got[u], Run(after, until(u)), outcome)
  {
    hide Inv, Answers, SaysOf, OwnLookups, AskAll, Run, Targets;
    var w := Run(Start(capacity), events);
    var targets := Targets(uids);
    var admitted := First(targets, maxSync);
    StartIsSound(capacity);
    RunKeeps(Start(capacity), capacity, events);
    AskingGivesOwnLookups(w, capacity, account, admitted, asks);
    var (after, got) := AskAll(w, account, admitted, asks);
    forall u | u in admitted ensures u in got && SaysOf(b, account, u, got[u], Run(after, until(u)), outcome) {
      assert got[u] in got.Values;
      SaysOfOne(b, targets, admitted, account, after, got, until, outcome, u);
    }
  }

  /** Asking finds no room exactly when no lookup of that account and uid is registered and
      the coordinator is closed or all its permits are held by unreleased lookups. */
  lemma SaturatedExactlyWhen(capacity: nat, events: seq<Event>, key: Key, submission: Submission)
    ensures var w := Run(Start(capacity), events);
            Admitted(w.guarded, key, submission).1.Saturated? <==>
              && (forall f :: f in w.futures ==> !(w.futures[f].holding == InFlight && w.futures[f].key == key))
              && (w.guarded.closed || |Unreleased(w)| == capacity)
  {
    StartIsSound(capacity);
    RunKeeps(Start(capacity), capacity, events);
    hide Run;
    var w := Run(Start(capacity), events);
    if key in w.guarded.flights { assert w.futures[w.guarded.flights[key]].key == key; }
  }
}
