/** One round-robin pass over the contacts' buckets.  Text handling is abstracted: a
    candidate carries its contact, the key under which repeats are dropped, whether it is
    short, and whether it is usable at all. */
module RoundRobin {
  import opened Vocabulary

  type Peer = string

  datatype Candidate = Candidate(peer: Peer, key: string, short: bool, usable: bool, at: Option<int>)

  /** The candidates of one contact, in order. */
  function Of(items: seq<Candidate>, peer: Peer): (own: seq<Candidate>)
    ensures |own| <= |items|
  {
    if items == [] then []
    else
      var rest, last := Of(items[..|items| - 1], peer), items[|items| - 1];
      if last.peer == peer then rest + [last] else rest
  }

  lemma OfMore(items: seq<Candidate>, last: Candidate, peer: Peer)
    ensures Of(items + [last], peer) == if last.peer == peer then Of(items, peer) + [last] else Of(items, peer)
  {
    assert (items + [last])[..|items|] == items;
  }

  // ----------------------------------------------------------------- the state

  function CountFor(perPeer: map<Peer, nat>, peer: Peer): nat {
    if peer in perPeer then perPeer[peer] else 0
  }

  /** The list being filled and how often each contact has been taken. */
  class Selection {
    var items: seq<Candidate>
    var perPeer: map<Peer, nat>

    ghost predicate Valid()
      reads this
    {
      && (forall p: Peer :: CountFor(perPeer, p) == |Of(items, p)|)
      && (forall p :: p in perPeer ==> perPeer[p] >= 1)
    }

    constructor ()
      ensures Valid() && items == [] && perPeer == map[]
    {
      items, perPeer := [], map[];
    }

    function Count(peer: Peer): nat
      reads this
    {
      CountFor(perPeer, peer)
    }

    method Take(item: Candidate)
      requires Valid()
      modifies this
      ensures Valid() && items == old(items) + [item]
      ensures forall p: Peer :: Count(p) == old(Count(p)) + (if p == item.peer then 1 else 0)
    {
      forall p: Peer ensures Of(items + [item], p) == if item.peer == p then Of(items, p) + [item] else Of(items, p) {
        OfMore(items, item, p);
      }
      items := items + [item];
      perPeer := perPeer[item.peer := CountFor(perPeer, item.peer) + 1];
    }
  }

  /** How far each contact's bucket has been read; shared by the passes over it. */
  class Offsets {
    var next: map<Peer, nat>

    constructor (order: seq<Peer>)
      ensures next == map p | p in order :: 0
    {
      next := map p | p in order :: 0;
    }
  }

  ghost predicate Distinct(order: seq<Peer>) {
    forall i, j :: 0 <= i < j < |order| ==> order[i] != order[j]
  }

  ghost predicate Sorted(buckets: map<Peer, seq<Candidate>>) {
    forall p :: p in buckets ==> forall i :: 0 <= i < |buckets[p]| ==> buckets[p][i].peer == p
  }

  ghost predicate Reads(order: seq<Peer>, buckets: map<Peer, seq<Candidate>>, next: map<Peer, nat>) {
    forall p :: p in order ==> p in buckets && p in next && next[p] <= |buckets[p]|
  }

  // ------------------------------------------------------------- what a pass does

  /** How many items of its contact this pass had taken before its item `i`. */
  ghost function Turn(added: seq<Candidate>, i: nat): nat
    requires i < |added|
  {
    |Of(added[..i], added[i].peer)|
  }

  ghost function Position(order: seq<Peer>, peer: Peer): nat
    requires peer in order
  {
    var i :| 0 <= i < |order| && order[i] == peer; i
  }

  lemma PositionIs(order: seq<Peer>, k: nat)
    requires Distinct(order) && k < |order|
    ensures Position(order, order[k]) == k
  {
  }

  /** Turn by turn, and within a turn in the order of the contacts. */
  ghost predicate TurnByTurn(added: seq<Candidate>, order: seq<Peer>) {
    && (forall i :: 0 <= i < |added| ==> added[i].peer in order)
    && (forall i, j :: 0 <= i < j < |added| ==>
          || Turn(added, i) < Turn(added, j)
          || (Turn(added, i) == Turn(added, j) && Position(order, added[i].peer) < Position(order, added[j].peer)))
  }

  /** Nothing more can be taken from this contact. */
  ghost predicate Spent(buckets: map<Peer, seq<Candidate>>, next: map<Peer, nat>, count: nat, peer: Peer, cap: int)
    requires peer in buckets && peer in next
  {
    count >= cap || next[peer] >= |buckets[peer]|
  }

  /** Every contact advanced through its own bucket by exactly what was added of it. */
  ghost predicate Advanced(order: seq<Peer>, buckets: map<Peer, seq<Candidate>>, from: map<Peer, nat>,
                           next: map<Peer, nat>, added: seq<Candidate>)
    requires Reads(order, buckets, from) && Reads(order, buckets, next)
  {
    forall p :: p in order ==>
      && next[p] == from[p] + |Of(added, p)|
      && Of(added, p) == buckets[p][from[p]..next[p]]
  }

  ghost predicate TurnsBelow(added: seq<Candidate>, order: seq<Peer>, rounds: nat, k: nat)
  {
    forall i :: 0 <= i < |added| ==>
      && added[i].peer in order
      && (Turn(added, i) < rounds || (Turn(added, i) == rounds && Position(order, added[i].peer) < k))
  }

  lemma TurnMore(added: seq<Candidate>, item: Candidate, i: nat)
    requires i < |added|
    ensures Turn(added + [item], i) == Turn(added, i)
  {
    assert (added + [item])[..i] == added[..i];
  }

  /** The item a contact contributes in the current round extends the order. */
  lemma NextInTurn(added: seq<Candidate>, order: seq<Peer>, rounds: nat, k: nat, item: Candidate)
    requires Distinct(order) && k < |order| && item.peer == order[k]
    requires TurnByTurn(added, order) && TurnsBelow(added, order, rounds, k) && |Of(added, item.peer)| == rounds
    ensures TurnByTurn(added + [item], order) && TurnsBelow(added + [item], order, rounds, k + 1)
  {
    hide Of, Turn, Position;
    var more := added + [item];
    var n := |added|;
    PositionIs(order, k);
    LastTurn(added, item);
    forall i | 0 <= i < n ensures more[i] == added[i] && Turn(more, i) == Turn(added, i) { TurnMore(added, item, i); }
    forall i, j | 0 <= i < j < |more|
      ensures || Turn(more, i) < Turn(more, j)
              || (Turn(more, i) == Turn(more, j) && Position(order, more[i].peer) < Position(order, more[j].peer))
    {
      if j < n { assert Turn(added, i) <= Turn(added, j); } else { assert Turn(added, i) <= rounds; }
    }
  }

  lemma LastTurn(added: seq<Candidate>, item: Candidate)
    ensures Turn(added + [item], |added|) == |Of(added, item.peer)|
  {
    assert (added + [item])[..|added|] == added;
  }

  lemma LaterTurns(added: seq<Candidate>, order: seq<Peer>, rounds: nat, k: nat, l: nat)
    requires TurnsBelow(added, order, rounds, k) && k <= l
    ensures TurnsBelow(added, order, rounds, l)
  {
  }

  lemma RoundEnds(added: seq<Candidate>, order: seq<Peer>, rounds: nat, k: nat)
    requires TurnsBelow(added, order, rounds, k)
    ensures TurnsBelow(added, order, rounds + 1, 0)
  {
  }

  /** Where a contact stands when `rounds` rounds have reached it. */
  ghost predicate Stands(added: seq<Candidate>, peer: Peer, rounds: nat, spent: bool) {
    |Of(added, peer)| == rounds || (|Of(added, peer)| <= rounds && spent)
  }

  /** A pass in progress: `rounds` rounds are complete and the current one has reached
      contact `k`. */
  ghost predicate InPass(order: seq<Peer>, buckets: map<Peer, seq<Candidate>>, from: map<Peer, nat>,
                         was: seq<Candidate>, next: map<Peer, nat>, added: seq<Candidate>, cap: int, rounds: nat,
                         k: nat)
  {
    && Distinct(order) && k <= |order| && Reads(order, buckets, from) && Reads(order, buckets, next)
    && Advanced(order, buckets, from, next, added)
    && TurnByTurn(added, order) && TurnsBelow(added, order, rounds, k)
    && (forall i :: 0 <= i < |order| ==>
          Stands(added, order[i], if i < k then rounds + 1 else rounds,
                 Spent(buckets, next, |Of(was + added, order[i])|, order[i], cap)))
    && (forall p: Peer :: |Of(was + added, p)| <= Max(|Of(was, p)|, cap))
  }

  lemma PassSkips(order: seq<Peer>, buckets: map<Peer, seq<Candidate>>, from: map<Peer, nat>, was: seq<Candidate>,
                  next: map<Peer, nat>, added: seq<Candidate>, cap: int, rounds: nat, k: nat)
    requires InPass(order, buckets, from, was, next, added, cap, rounds, k) && k < |order|
    requires Spent(buckets, next, |Of(was + added, order[k])|, order[k], cap)
    ensures InPass(order, buckets, from, was, next, added, cap, rounds, k + 1)
  {
    hide Of, TurnByTurn, Advanced;
    LaterTurns(added, order, rounds, k, k + 1);
  }

  lemma TakeCounts(was: seq<Candidate>, added: seq<Candidate>, item: Candidate, q: Peer)
    ensures Of(added + [item], q) == if q == item.peer then Of(added, q) + [item] else Of(added, q)
    ensures |Of(was + (added + [item]), q)| == |Of(was + added, q)| + (if q == item.peer then 1 else 0)
  {
    assert was + (added + [item]) == was + added + [item];
    OfMore(added, item, q);
    OfMore(was + added, item, q);
  }

  lemma TakeAdvances(order: seq<Peer>, buckets: map<Peer, seq<Candidate>>, from: map<Peer, nat>, was: seq<Candidate>,
                     next: map<Peer, nat>, added: seq<Candidate>, p: Peer)
    requires Reads(order, buckets, from) && Reads(order, buckets, next) && Advanced(order, buckets, from, next, added)
    requires p in order && Sorted(buckets) && next[p] < |buckets[p]|
    ensures var next' := next[p := next[p] + 1];
            Reads(order, buckets, next') && Advanced(order, buckets, from, next', added + [buckets[p][next[p]]])
  {
    hide Of;
    var item := buckets[p][next[p]];
    var next' := next[p := next[p] + 1];
    forall q | q in order
      ensures next'[q] == from[q] + |Of(added + [item], q)|
      ensures Of(added + [item], q) == buckets[q][from[q]..next'[q]]
    {
      OfMore(added, item, q);
      if q == p { assert buckets[p][from[p]..next[p]] + [item] == buckets[p][from[p]..next'[p]]; }
    }
  }

  lemma TakeStands(order: seq<Peer>, buckets: map<Peer, seq<Candidate>>, was: seq<Candidate>, next: map<Peer, nat>,
                   added: seq<Candidate>, item: Candidate, cap: int, rounds: nat, k: nat, i: nat)
    requires Distinct(order) && Reads(order, buckets, next) && k < |order| && i < |order|
    requires item.peer == order[k] && next[order[k]] < |buckets[order[k]]|
    requires Stands(added, order[k], rounds, false)
    requires Stands(added, order[i], if i < k then rounds + 1 else rounds,
                    Spent(buckets, next, |Of(was + added, order[i])|, order[i], cap))
    ensures Stands(added + [item], order[i], if i < k + 1 then rounds + 1 else rounds,
                   Spent(buckets, next[order[k] := next[order[k]] + 1], |Of(was + (added + [item]), order[i])|,
                         order[i], cap))
  {
    TakeCounts(was, added, item, order[i]);
    assert order[i] == order[k] <==> i == k;
  }

  lemma PassTakes(order: seq<Peer>, buckets: map<Peer, seq<Candidate>>, from: map<Peer, nat>, was: seq<Candidate>,
                  next: map<Peer, nat>, added: seq<Candidate>, cap: int, rounds: nat, k: nat)
    requires InPass(order, buckets, from, was, next, added, cap, rounds, k) && k < |order| && Sorted(buckets)
    requires !Spent(buckets, next, |Of(was + added, order[k])|, order[k], cap)
    ensures var p := order[k];
            InPass(order, buckets, from, was, next[p := next[p] + 1], added + [buckets[p][next[p]]], cap, rounds, k + 1)
  {
    hide Advanced, TurnByTurn, TurnsBelow, Of;
    var p := order[k];
    var item := buckets[p][next[p]];
    var more, next' := added + [item], next[p := next[p] + 1];
    TakeAdvances(order, buckets, from, was, next, added, p);
    NextInTurn(added, order, rounds, k, item);
    forall i | 0 <= i < |order|
      ensures Stands(more, order[i], if i < k + 1 then rounds + 1 else rounds,
                     Spent(buckets, next', |Of(was + more, order[i])|, order[i], cap))
    {
      TakeStands(order, buckets, was, next, added, item, cap, rounds, k, i);
    }
    forall q: Peer ensures |Of(was + more, q)| <= Max(|Of(was, q)|, cap) {
      TakeCounts(was, added, item, q);
    }
  }

  lemma PassReads(order: seq<Peer>, buckets: map<Peer, seq<Candidate>>, from: map<Peer, nat>, was: seq<Candidate>,
                  next: map<Peer, nat>, added: seq<Candidate>, cap: int, rounds: nat, k: nat)
    requires InPass(order, buckets, from, was, next, added, cap, rounds, k)
    ensures Reads(order, buckets, next)
  {
  }

  lemma PassTurns(order: seq<Peer>, buckets: map<Peer, seq<Candidate>>, from: map<Peer, nat>, was: seq<Candidate>,
                  next: map<Peer, nat>, added: seq<Candidate>, cap: int, rounds: nat)
    requires InPass(order, buckets, from, was, next, added, cap, rounds, |order|)
    ensures InPass(order, buckets, from, was, next, added, cap, rounds + 1, 0)
  {
    RoundEnds(added, order, rounds, |order|);
  }

  /** What a finished pass guarantees: each contact contributed the next stretch of its own
      bucket, turn by turn; no contact went past its cap; the pass stopped only at its
      target or when every contact was spent; and it was fair: a contact that fell two or
      more behind another, or one behind a later one, was spent. */
  ghost predicate Drawn(order: seq<Peer>, buckets: map<Peer, seq<Candidate>>, from: map<Peer, nat>, was: seq<Candidate>,
                        next: map<Peer, nat>, added: seq<Candidate>, target: int, cap: int)
  {
    && Reads(order, buckets, from) && Reads(order, buckets, next)
    && Advanced(order, buckets, from, next, added)
    && TurnByTurn(added, order)
    && (forall p: Peer :: |Of(was + added, p)| <= Max(|Of(was, p)|, cap))
    && |was + added| <= Max(|was|, target)
    && (|was + added| >= target || forall p :: p in order ==> Spent(buckets, next, |Of(was + added, p)|, p, cap))
    && (forall p, q :: p in order && q in order && |Of(added, p)| >= |Of(added, q)| + 2
          ==> Spent(buckets, next, |Of(was + added, q)|, q, cap))
    && (forall i, j :: 0 <= i < j < |order| && |Of(added, order[j])| > |Of(added, order[i])|
          ==> Spent(buckets, next, |Of(was + added, order[i])|, order[i], cap))
  }

  lemma PassEnds(order: seq<Peer>, buckets: map<Peer, seq<Candidate>>, from: map<Peer, nat>, was: seq<Candidate>,
                 next: map<Peer, nat>, added: seq<Candidate>, target: int, cap: int, rounds: nat, k: nat)
    requires InPass(order, buckets, from, was, next, added, cap, rounds, k)
    requires |was + added| <= Max(|was|, target)
    requires |was + added| >= target || forall p :: p in order ==> Spent(buckets, next, |Of(was + added, p)|, p, cap)
    ensures Drawn(order, buckets, from, was, next, added, target, cap)
  {
    forall p, q | p in order && q in order && |Of(added, p)| >= |Of(added, q)| + 2
      ensures Spent(buckets, next, |Of(was + added, q)|, q, cap)
    {
      var i :| 0 <= i < |order| && order[i] == p;
      var j :| 0 <= j < |order| && order[j] == q;
      assert Stands(added, order[i], if i < k then rounds + 1 else rounds,
                    Spent(buckets, next, |Of(was + added, order[i])|, order[i], cap));
      assert Stands(added, order[j], if j < k then rounds + 1 else rounds,
                    Spent(buckets, next, |Of(was + added, order[j])|, order[j], cap));
    }
    forall i, j | 0 <= i < j < |order| && |Of(added, order[j])| > |Of(added, order[i])|
      ensures Spent(buckets, next, |Of(was + added, order[i])|, order[i], cap)
    {
      assert Stands(added, order[i], if i < k then rounds + 1 else rounds,
                    Spent(buckets, next, |Of(was + added, order[i])|, order[i], cap));
      assert Stands(added, order[j], if j < k then rounds + 1 else rounds,
                    Spent(buckets, next, |Of(was + added, order[j])|, order[j], cap));
    }
  }

  lemma PassStarts(order: seq<Peer>, buckets: map<Peer, seq<Candidate>>, from: map<Peer, nat>, was: seq<Candidate>,
                   cap: int)
    requires Distinct(order) && Reads(order, buckets, from)
    ensures InPass(order, buckets, from, was, from, [], cap, 0, 0)
  {
    assert was + [] == was;
  }

  /** One pass over the contacts, round after round, until the target is met or a whole
      round changes nothing. */
  method RoundRobinTake(buckets: map<Peer, seq<Candidate>>, order: seq<Peer>, selection: Selection, offsets: Offsets,
                        target: int, cap: int)
    requires selection.Valid() && Distinct(order) && Sorted(buckets) && Reads(order, buckets, offsets.next)
    modifies selection, offsets
    ensures selection.Valid() && old(selection.items) <= selection.items
    ensures Drawn(order, buckets, old(offsets.next), old(selection.items), offsets.next,
                  selection.items[|old(selection.items)|..], target, cap)
  {
    hide InPass, Drawn, Of, Distinct, Sorted;
    ghost var from, was := offsets.next, selection.items;
    ghost var added: seq<Candidate> := [];
    ghost var rounds, reached := 0, 0;
    PassStarts(order, buckets, from, was, cap);
    while |selection.items| < target
      invariant selection.Valid() && selection.items == was + added
      invariant 0 <= reached <= |order|
      invariant InPass(order, buckets, from, was, offsets.next, added, cap, rounds, reached)
      invariant |selection.items| < target ==> reached == 0
      invariant |selection.items| <= Max(|was|, target)
      decreases target - |selection.items|
    {
      var changed := false;
      var k := 0;
      ghost var before := |selection.items|;
      while k < |order| && |selection.items| < target
        invariant 0 <= k <= |order| && reached == k
        invariant selection.Valid() && selection.items == was + added
        invariant InPass(order, buckets, from, was, offsets.next, added, cap, rounds, k)
        invariant |selection.items| <= target
        invariant if changed then |selection.items| > before else |selection.items| == before
        invariant !changed ==> forall i :: 0 <= i < k ==>
                    order[i] in buckets && order[i] in offsets.next
                    && Spent(buckets, offsets.next, |Of(was + added, order[i])|, order[i], cap)
      {
        var peer := order[k];
        PassReads(order, buckets, from, was, offsets.next, added, cap, rounds, k);
        assert selection.Count(peer) == |Of(was + added, peer)|;
        if selection.Count(peer) >= cap || offsets.next[peer] >= |buckets[peer]| {
          PassSkips(order, buckets, from, was, offsets.next, added, cap, rounds, k);
        } else {
          var offset := offsets.next[peer];
          PassTakes(order, buckets, from, was, offsets.next, added, cap, rounds, k);
          selection.Take(buckets[peer][offset]);
          offsets.next := offsets.next[peer := offset + 1];
          added := added + [buckets[peer][offset]];
          changed := true;
        }
        k := k + 1;
        reached := k;
      }
      if !changed {
        PassReads(order, buckets, from, was, offsets.next, added, cap, rounds, k);
        forall p | p in order ensures Spent(buckets, offsets.next, |Of(was + added, p)|, p, cap) {
          var i :| 0 <= i < |order| && order[i] == p;
        }
        break;
      }
      if k == |order| {
        PassTurns(order, buckets, from, was, offsets.next, added, cap, rounds);
        rounds, reached := rounds + 1, 0;
      }
    }
    PassEnds(order, buckets, from, was, offsets.next, added, target, cap, rounds, reached);
    assert selection.items[|was|..] == added;
  }

  // --------------------------------------------- a pass has only one outcome

  lemma {:induction false} OfJoined(first: seq<Candidate>, second: seq<Candidate>, peer: Peer)
    ensures Of(first + second, peer) == Of(first, peer) + Of(second, peer)
  {
    if second == [] {
      assert first + second == first;
    } else {
      var n := |second| - 1;
      OfJoined(first, second[..n], peer);
      OfMore(first + second[..n], second[n], peer);
      assert first + second == first + second[..n] + [second[n]];
    }
  }

  /** The items of a contact in order: item `i` of the list is its `Turn`-th one. */
  lemma TurnIsIndex(added: seq<Candidate>, i: nat)
    requires i < |added|
    ensures var own := Of(added, added[i].peer);
            Turn(added, i) < |own| && own[Turn(added, i)] == added[i]
  {
    var p := added[i].peer;
    assert added == added[..i] + [added[i]] + added[i + 1..];
    OfJoined(added[..i] + [added[i]], added[i + 1..], p);
    OfMore(added[..i], added[i], p);
  }

  /** A contact with more items than a prefix holds has one right at that turn, later on. */
  lemma {:induction false} NextTurn(added: seq<Candidate>, i: nat, p: Peer) returns (j: nat)
    requires i <= |added| && |Of(added, p)| > |Of(added[..i], p)|
    ensures i <= j < |added| && added[j].peer == p && Turn(added, j) == |Of(added[..i], p)|
    decreases |added| - i
  {
    assert added[..|added|] == added;
    if i < |added| {
      assert added[..i + 1] == added[..i] + [added[i]];
      OfMore(added[..i], added[i], p);
      if added[i].peer == p { j := i; } else { j := NextTurn(added, i + 1, p); }
    }
  }

  /** What a contact could still give in one outcome, it was not out of in another. */
  lemma NotSpent(order: seq<Peer>, buckets: map<Peer, seq<Candidate>>, from: map<Peer, nat>, was: seq<Candidate>,
                 a: seq<Candidate>, next: map<Peer, nat>, b: seq<Candidate>, other: map<Peer, nat>, target: int,
                 cap: int, p: Peer)
    requires Drawn(order, buckets, from, was, next, a, target, cap)
    requires Drawn(order, buckets, from, was, other, b, target, cap)
    requires p in order && |Of(a, p)| > |Of(b, p)|
    ensures !Spent(buckets, other, |Of(was + b, p)|, p, cap)
  {
    hide TurnByTurn, Of;
    OfJoined(was, a, p);
    OfJoined(was, b, p);
    assert |Of(was + a, p)| <= Max(|Of(was, p)|, cap);
  }

  /** A turn that comes before item `i` but was not taken by then is never taken. */
  lemma TurnIsOver(order: seq<Peer>, b: seq<Candidate>, i: nat, p: Peer)
    requires TurnByTurn(b, order) && i < |b| && p in order && b[i].peer in order && p != b[i].peer
    requires var t := |Of(b[..i], p)|;
             t < Turn(b, i) || (t == Turn(b, i) && Position(order, p) < Position(order, b[i].peer))
    ensures |Of(b, p)| <= |Of(b[..i], p)|
  {
    hide Of, Position;
    if |Of(b, p)| > |Of(b[..i], p)| {
      var j := NextTurn(b, i, p);
      assert false;
    }
  }

  /** A contact that could still give stands in the way of any later turn. */
  lemma MustBeSpent(order: seq<Peer>, buckets: map<Peer, seq<Candidate>>, from: map<Peer, nat>, was: seq<Candidate>,
                    b: seq<Candidate>, other: map<Peer, nat>, target: int, cap: int, p: Peer, q: Peer)
    requires Drawn(order, buckets, from, was, other, b, target, cap)
    requires p in order && q in order && |Of(b, q)| > |Of(b, p)|
    requires |Of(b, q)| >= |Of(b, p)| + 2 || Position(order, p) < Position(order, q)
    ensures Spent(buckets, other, |Of(was + b, p)|, p, cap)
  {
    hide Of, TurnByTurn, Advanced;
    assert order[Position(order, p)] == p && order[Position(order, q)] == q;
  }

  /** At a difference neither contact's turn comes first: the other outcome would have
      passed it over. */
  lemma NotFirst(order: seq<Peer>, buckets: map<Peer, seq<Candidate>>, from: map<Peer, nat>, was: seq<Candidate>,
                 a: seq<Candidate>, next: map<Peer, nat>, b: seq<Candidate>, other: map<Peer, nat>, target: int,
                 cap: int, i: nat)
    requires Drawn(order, buckets, from, was, next, a, target, cap)
    requires Drawn(order, buckets, from, was, other, b, target, cap)
    requires i < |a| && i < |b| && a[..i] == b[..i] && a[i].peer in order && b[i].peer in order
    requires a[i].peer != b[i].peer
    ensures Turn(a, i) >= Turn(b, i)
    ensures Turn(a, i) == Turn(b, i) ==> Position(order, a[i].peer) >= Position(order, b[i].peer)
  {
    hide Of, Position, TurnByTurn, Advanced, Spent;
    var p, q := a[i].peer, b[i].peer;
    if Turn(a, i) < Turn(b, i) || (Turn(a, i) == Turn(b, i) && Position(order, p) < Position(order, q)) {
      TurnIsIndex(a, i);
      TurnIsIndex(b, i);
      TurnIsOver(order, b, i, p);
      MustBeSpent(order, buckets, from, was, b, other, target, cap, p, q);
      NotSpent(order, buckets, from, was, a, next, b, other, target, cap, p);
      assert false;
    }
  }

  lemma SameItem(order: seq<Peer>, buckets: map<Peer, seq<Candidate>>, from: map<Peer, nat>, was: seq<Candidate>,
                 a: seq<Candidate>, next: map<Peer, nat>, b: seq<Candidate>, other: map<Peer, nat>, target: int,
                 cap: int, i: nat)
    requires Distinct(order)
    requires Drawn(order, buckets, from, was, next, a, target, cap)
    requires Drawn(order, buckets, from, was, other, b, target, cap)
    requires i < |a| && i < |b| && a[..i] == b[..i]
    ensures a[i] == b[i]
  {
    hide Of;
    var p, q := a[i].peer, b[i].peer;
    assert p in order && q in order;
    if p == q {
      TurnIsIndex(a, i);
      TurnIsIndex(b, i);
    } else {
      assert order[Position(order, p)] == p && order[Position(order, q)] == q;
      NotFirst(order, buckets, from, was, a, next, b, other, target, cap, i);
      NotFirst(order, buckets, from, was, b, other, a, next, target, cap, i);
      assert false;
    }
  }

  lemma {:induction false} SamePrefix(order: seq<Peer>, buckets: map<Peer, seq<Candidate>>, from: map<Peer, nat>,
                                      was: seq<Candidate>, a: seq<Candidate>, next: map<Peer, nat>, b: seq<Candidate>,
                                      other: map<Peer, nat>, target: int, cap: int, n: nat)
    requires Distinct(order)
    requires Drawn(order, buckets, from, was, next, a, target, cap)
    requires Drawn(order, buckets, from, was, other, b, target, cap)
    requires n <= |a| && n <= |b|
    ensures a[..n] == b[..n]
  {
    hide Drawn;
    if n > 0 {
      SamePrefix(order, buckets, from, was, a, next, b, other, target, cap, n - 1);
      SameItem(order, buckets, from, was, a, next, b, other, target, cap, n - 1);
      assert a[..n] == a[..n - 1] + [a[n - 1]] && b[..n] == b[..n - 1] + [b[n - 1]];
    }
  }

  lemma NoLonger(order: seq<Peer>, buckets: map<Peer, seq<Candidate>>, from: map<Peer, nat>, was: seq<Candidate>,
                 a: seq<Candidate>, next: map<Peer, nat>, b: seq<Candidate>, other: map<Peer, nat>, target: int,
                 cap: int)
    requires Distinct(order)
    requires Drawn(order, buckets, from, was, next, a, target, cap)
    requires Drawn(order, buckets, from, was, other, b, target, cap)
    ensures |a| <= |b|
  {
    hide Of;
    if |a| > |b| {
      var p := a[|b|].peer;
      assert p in order;
      SamePrefix(order, buckets, from, was, a, next, b, other, target, cap, |b|);
      TurnIsIndex(a, |b|);
      assert b == a[..|b|];
      assert |was + a| <= target;
      NotSpent(order, buckets, from, was, a, next, b, other, target, cap, p);
      assert false;
    }
  }

  /** From given buckets, offsets and samples a pass can add one list only, and leaves one
      offset per contact: its guarantees leave nothing open. */
  lemma OnlyOneOutcome(order: seq<Peer>, buckets: map<Peer, seq<Candidate>>, from: map<Peer, nat>, was: seq<Candidate>,
                       a: seq<Candidate>, next: map<Peer, nat>, b: seq<Candidate>, other: map<Peer, nat>, target: int,
                       cap: int)
    requires Distinct(order)
    requires Drawn(order, buckets, from, was, next, a, target, cap)
    requires Drawn(order, buckets, from, was, other, b, target, cap)
    ensures a == b && forall p :: p in order ==> next[p] == other[p]
  {
    NoLonger(order, buckets, from, was, a, next, b, other, target, cap);
    NoLonger(order, buckets, from, was, b, other, a, next, target, cap);
    SamePrefix(order, buckets, from, was, a, next, b, other, target, cap, |a|);
    assert a[..|a|] == a && b[..|b|] == b;
  }
}
