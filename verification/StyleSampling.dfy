/** Contact-balanced sampling of messages for a writing profile: three passes over shared
    offsets, a cap per contact, and a fifth of short messages at most. */
module StyleSampling {
  import opened Vocabulary
  import opened RoundRobin

  const MAX_SAMPLES := 100
  const MAX_PER_PEER := 10
  const MIN_SAMPLES := 8
  const MIN_PEERS := 8
  const POLICY_VERSION := 1
  const SANITIZER_VERSION := 1

  // ------------------------------------------------------ what may be sampled

  /** The usable candidates that name a contact, with repeated texts dropped. */
  function Kept(candidates: seq<Candidate>): (kept: seq<Candidate>)
    ensures forall c :: c in kept ==> c in candidates && c.usable && c.peer != ""
    ensures forall i, j :: 0 <= i < j < |kept| ==> kept[i].key != kept[j].key
  {
    if candidates == [] then []
    else
      var before, last := Kept(candidates[..|candidates| - 1]), candidates[|candidates| - 1];
      if last.peer != "" && last.usable && (forall c :: c in before ==> c.key != last.key) then before + [last]
      else before
  }

  /** The contacts in order of first appearance. */
  function PeerOrder(items: seq<Candidate>): (order: seq<Peer>)
    ensures forall i, j :: 0 <= i < j < |order| ==> order[i] != order[j]
    ensures forall p :: p in order <==> exists i :: 0 <= i < |items| && items[i].peer == p
  {
    if items == [] then []
    else
      var before, last := PeerOrder(items[..|items| - 1]), items[|items| - 1];
      assert items == items[..|items| - 1] + [last];
      if last.peer in before then before else before + [last.peer]
  }

  /** The long, or the short, messages of one contact, in order. */
  function OfClass(items: seq<Candidate>, peer: Peer, short: bool): seq<Candidate> {
    if items == [] then []
    else
      var rest, last := OfClass(items[..|items| - 1], peer, short), items[|items| - 1];
      if last.peer == peer && last.short == short then rest + [last] else rest
  }

  lemma {:induction false} ClassIsOwn(items: seq<Candidate>, peer: Peer, short: bool)
    ensures forall c :: c in OfClass(items, peer, short) ==> c in items && c.peer == peer && c.short == short
  {
    if items != [] {
      ClassIsOwn(items[..|items| - 1], peer, short);
      assert items == items[..|items| - 1] + [items[|items| - 1]];
    }
  }

  lemma OfClassMore(items: seq<Candidate>, last: Candidate, peer: Peer, short: bool)
    ensures OfClass(items + [last], peer, short) ==
              if last.peer == peer && last.short == short then OfClass(items, peer, short) + [last]
              else OfClass(items, peer, short)
  {
    assert (items + [last])[..|items|] == items;
  }

  function Capped(items: seq<Candidate>, cap: nat): seq<Candidate> {
    if |items| <= cap then items else items[..cap]
  }

  /** The buckets hold, for every contact, the first `cap` of its kept messages of a class. */
  ghost predicate Grouped(kept: seq<Candidate>, order: seq<Peer>, buckets: map<Peer, seq<Candidate>>, short: bool,
                          cap: nat) {
    && buckets.Keys == (set p | p in order)
    && forall p :: p in order ==> buckets[p] == Capped(OfClass(kept, p, short), cap)
  }

  lemma GroupMore(kept: seq<Candidate>, item: Candidate, order: seq<Peer>, buckets: map<Peer, seq<Candidate>>,
                  short: bool, cap: nat)
    requires Grouped(kept, order, buckets, short, cap) && item.peer in order
    ensures var own := buckets[item.peer];
            Grouped(kept + [item], order,
                    if item.short == short && |own| < cap then buckets[item.peer := own + [item]]
                    else buckets, short, cap)
  {
    hide OfClass;
    var own := buckets[item.peer];
    var more := if item.short == short && |own| < cap then buckets[item.peer := own + [item]] else buckets;
    forall p | p in order ensures more[p] == Capped(OfClass(kept + [item], p, short), cap) {
      OfClassMore(kept, item, p, short);
    }
  }

  /** A contact that was not kept before has no messages yet. */
  lemma {:induction false} NoneOf(kept: seq<Candidate>, peer: Peer, short: bool)
    requires forall i :: 0 <= i < |kept| ==> kept[i].peer != peer
    ensures OfClass(kept, peer, short) == []
  {
    if kept != [] { NoneOf(kept[..|kept| - 1], peer, short); }
  }

  lemma GroupOpens(kept: seq<Candidate>, order: seq<Peer>, buckets: map<Peer, seq<Candidate>>, peer: Peer, short: bool,
                   cap: nat)
    requires Grouped(kept, order, buckets, short, cap) && peer !in order && order == PeerOrder(kept)
    ensures Grouped(kept, order + [peer], buckets[peer := []], short, cap)
  {
    NoneOf(kept, peer, short);
  }

  function Keys(items: seq<Candidate>): set<string> {
    set i | 0 <= i < |items| :: items[i].key
  }

  lemma KeysMore(items: seq<Candidate>, item: Candidate)
    ensures Keys(items + [item]) == Keys(items) + {item.key}
  {
    var more := items + [item];
    forall k | k in Keys(items) + {item.key} ensures k in Keys(more) {
      if k == item.key { assert more[|items|].key == k; }
      else {
        var i :| 0 <= i < |items| && items[i].key == k;
        assert more[i].key == k;
      }
    }
  }

  lemma KeptMore(candidates: seq<Candidate>, n: nat)
    requires n < |candidates|
    ensures var kept, item := Kept(candidates[..n]), candidates[n];
            Kept(candidates[..n + 1]) ==
              if item.peer != "" && item.usable && item.key !in Keys(kept) then kept + [item] else kept
  {
    assert candidates[..n + 1][..n] == candidates[..n];
    var kept, item := Kept(candidates[..n]), candidates[n];
    if item.key !in Keys(kept) {
      forall c | c in kept ensures c.key != item.key {
        var i :| 0 <= i < |kept| && kept[i] == c;
        assert kept[i].key in Keys(kept);
      }
    }
  }

  lemma OrderMore(kept: seq<Candidate>, item: Candidate)
    ensures PeerOrder(kept + [item]) ==
              if item.peer in PeerOrder(kept) then PeerOrder(kept) else PeerOrder(kept) + [item.peer]
  {
    assert (kept + [item])[..|kept|] == kept;
  }

  /** Files one kept message under its contact and class. */
  method KeepItem(ghost kept: seq<Candidate>, item: Candidate, cap: nat, order: seq<Peer>,
                  longs: map<Peer, seq<Candidate>>, shorts: map<Peer, seq<Candidate>>)
    returns (order': seq<Peer>, longs': map<Peer, seq<Candidate>>, shorts': map<Peer, seq<Candidate>>)
    requires order == PeerOrder(kept) && Grouped(kept, order, longs, false, cap)
    requires Grouped(kept, order, shorts, true, cap)
    ensures order' == PeerOrder(kept + [item])
    ensures Grouped(kept + [item], order', longs', false, cap) && Grouped(kept + [item], order', shorts', true, cap)
  {
    hide Grouped, OfClass, Capped, PeerOrder;
    order', longs', shorts' := order, longs, shorts;
    OrderMore(kept, item);
    if item.peer !in order {
      GroupOpens(kept, order, longs, item.peer, false, cap);
      GroupOpens(kept, order, shorts, item.peer, true, cap);
      order' := order + [item.peer];
      longs', shorts' := longs[item.peer := []], shorts[item.peer := []];
    }
    GroupHas(kept, order', longs', false, cap);
    GroupHas(kept, order', shorts', true, cap);
    GroupMore(kept, item, order', longs', false, cap);
    GroupMore(kept, item, order', shorts', true, cap);
    if item.short {
      if |shorts'[item.peer]| < cap { shorts' := shorts'[item.peer := shorts'[item.peer] + [item]]; }
    } else {
      if |longs'[item.peer]| < cap { longs' := longs'[item.peer := longs'[item.peer] + [item]]; }
    }
  }

  /** Fills the buckets, dropping unusable and repeated texts. */
  method GroupCandidates(candidates: seq<Candidate>, cap: nat)
    returns (order: seq<Peer>, longs: map<Peer, seq<Candidate>>, shorts: map<Peer, seq<Candidate>>)
    ensures var kept := Kept(candidates);
            order == PeerOrder(kept) && Grouped(kept, order, longs, false, cap)
            && Grouped(kept, order, shorts, true, cap)
  {
    hide Grouped, OfClass, Capped, Kept, PeerOrder, Keys;
    order, longs, shorts := [], map[], map[];
    var seen: set<string> := {};
    var n := 0;
    NothingGrouped(candidates, cap);
    while n < |candidates|
      invariant 0 <= n <= |candidates|
      invariant order == PeerOrder(Kept(candidates[..n]))
      invariant Grouped(Kept(candidates[..n]), order, longs, false, cap)
      invariant Grouped(Kept(candidates[..n]), order, shorts, true, cap)
      invariant seen == Keys(Kept(candidates[..n]))
    {
      var item := candidates[n];
      ghost var kept := Kept(candidates[..n]);
      KeptMore(candidates, n);
      if item.peer != "" && item.usable && item.key !in seen {
        seen := seen + {item.key};
        KeysMore(kept, item);
        order, longs, shorts := KeepItem(kept, item, cap, order, longs, shorts);
      }
      n := n + 1;
    }
    assert candidates[..n] == candidates;
  }

  lemma NothingGrouped(candidates: seq<Candidate>, cap: nat)
    ensures Kept(candidates[..0]) == [] && PeerOrder([]) == [] && Keys([]) == {}
    ensures Grouped([], [], map[], false, cap) && Grouped([], [], map[], true, cap)
  {
  }

  lemma GroupHas(kept: seq<Candidate>, order: seq<Peer>, buckets: map<Peer, seq<Candidate>>, short: bool, cap: nat)
    requires Grouped(kept, order, buckets, short, cap)
    ensures forall p :: p in order <==> p in buckets
  {
  }

  // ------------------------------------------------------------ the three passes

  function Shorts(items: seq<Candidate>): (count: nat)
    ensures count <= |items|
  {
    if items == [] then 0 else Shorts(items[..|items| - 1]) + (if items[|items| - 1].short then 1 else 0)
  }

  lemma ShortsMore(items: seq<Candidate>, last: Candidate)
    ensures Shorts(items + [last]) == Shorts(items) + (if last.short then 1 else 0)
  {
    assert (items + [last])[..|items|] == items;
  }

  lemma {:induction false} ShortsJoined(first: seq<Candidate>, second: seq<Candidate>)
    ensures Shorts(first + second) == Shorts(first) + Shorts(second)
  {
    if second == [] {
      assert first + second == first;
    } else {
      var n := |second| - 1;
      ShortsJoined(first, second[..n]);
      ShortsMore(first + second[..n], second[n]);
      assert first + second == first + second[..n] + [second[n]];
    }
  }

  lemma {:induction false} OfClassJoined(first: seq<Candidate>, second: seq<Candidate>, peer: Peer, short: bool)
    ensures OfClass(first + second, peer, short) == OfClass(first, peer, short) + OfClass(second, peer, short)
  {
    if second == [] {
      assert first + second == first;
    } else {
      var n := |second| - 1;
      OfClassJoined(first, second[..n], peer, short);
      OfClassMore(first + second[..n], second[n], peer, short);
      assert first + second == first + second[..n] + [second[n]];
    }
  }

  /** Items that are all of one class. */
  ghost predicate AllOf(items: seq<Candidate>, short: bool) {
    forall i :: 0 <= i < |items| ==> items[i].short == short
  }

  lemma {:induction false} OneClass(items: seq<Candidate>, peer: Peer, short: bool)
    requires AllOf(items, short)
    ensures OfClass(items, peer, short) == Of(items, peer) && OfClass(items, peer, !short) == []
    ensures Shorts(items) == if short then |items| else 0
  {
    if items != [] { OneClass(items[..|items| - 1], peer, short); }
  }

  lemma {:induction false} OwnHas(items: seq<Candidate>, i: nat)
    requires i < |items|
    ensures items[i] in Of(items, items[i].peer)
  {
    var n := |items| - 1;
    assert items == items[..n] + [items[n]];
    if i < n { OwnHas(items[..n], i); }
  }

  lemma {:induction false} ClassHas(items: seq<Candidate>, i: nat)
    requires i < |items|
    ensures items[i] in OfClass(items, items[i].peer, items[i].short)
  {
    var n := |items| - 1;
    assert items == items[..n] + [items[n]];
    if i < n { ClassHas(items[..n], i); }
  }

  ghost predicate DistinctKeys(items: seq<Candidate>) {
    forall i, j :: 0 <= i < j < |items| ==> items[i].key != items[j].key
  }

  lemma DistinctMore(items: seq<Candidate>, last: Candidate)
    requires DistinctKeys(items) && forall c :: c in items ==> c.key != last.key
    ensures DistinctKeys(items + [last])
  {
  }

  lemma {:induction false} ClassIsDistinct(items: seq<Candidate>, peer: Peer, short: bool)
    requires DistinctKeys(items)
    ensures DistinctKeys(OfClass(items, peer, short))
  {
    if items != [] {
      var n := |items| - 1;
      ClassIsDistinct(items[..n], peer, short);
      ClassIsOwn(items[..n], peer, short);
      var rest := OfClass(items[..n], peer, short);
      forall c | c in rest ensures c.key != items[n].key {
        var j :| 0 <= j < n && items[..n][j] == c;
        assert items[j] == c;
      }
      DistinctMore(rest, items[n]);
    }
  }

  /** What one pass over the buckets of a class adds. */
  lemma PassAdds(kept: seq<Candidate>, order: seq<Peer>, buckets: map<Peer, seq<Candidate>>, short: bool, cap: nat,
                 from: map<Peer, nat>, was: seq<Candidate>, next: map<Peer, nat>, added: seq<Candidate>, target: int)
    requires Grouped(kept, order, buckets, short, cap) && Drawn(order, buckets, from, was, next, added, target, cap)
    ensures AllOf(added, short) && forall i :: 0 <= i < |added| ==> added[i] in kept && added[i].peer in order
  {
    hide OfClass, Of, TurnByTurn;
    forall i | 0 <= i < |added| ensures added[i].short == short && added[i] in kept && added[i].peer in order {
      InTurnIsKnown(added, order, i);
      OwnHas(added, i);
      var p := added[i].peer;
      assert added[i] in buckets[p][from[p]..next[p]];
      assert added[i] in OfClass(kept, p, short);
      ClassIsOwn(kept, p, short);
    }
  }

  lemma InTurnIsKnown(added: seq<Candidate>, order: seq<Peer>, i: nat)
    requires TurnByTurn(added, order) && i < |added|
    ensures added[i].peer in order
  {
  }

  lemma {:induction false} NothingOf(items: seq<Candidate>, peer: Peer)
    requires forall i :: 0 <= i < |items| ==> items[i].peer != peer
    ensures Of(items, peer) == []
  {
    if items != [] { NothingOf(items[..|items| - 1], peer); }
  }

  /** The long messages of a contact that two passes over the same offsets took, with a pass
      over the short ones in between. */
  lemma LongsAreAPrefix(kept: seq<Candidate>, order: seq<Peer>, longs: map<Peer, seq<Candidate>>, cap: nat,
                        start: map<Peer, nat>, middle: map<Peer, nat>, end: map<Peer, nat>, a1: seq<Candidate>,
                        a2: seq<Candidate>, a3: seq<Candidate>, p: Peer)
    requires Grouped(kept, order, longs, false, cap) && p in order
    requires Reads(order, longs, start) && Reads(order, longs, middle) && Reads(order, longs, end) && start[p] == 0
    requires Advanced(order, longs, start, middle, a1) && Advanced(order, longs, middle, end, a3)
    requires AllOf(a1, false) && AllOf(a2, true) && AllOf(a3, false)
    ensures OfClass(a1 + a2 + a3, p, false) == longs[p][..end[p]]
  {
    hide Grouped, OfClass, Of, AllOf;
    OfClassJoined(a1 + a2, a3, p, false);
    OfClassJoined(a1, a2, p, false);
    OneClass(a1, p, false);
    OneClass(a2, p, true);
    OneClass(a3, p, false);
    assert longs[p][start[p]..middle[p]] + longs[p][middle[p]..end[p]] == longs[p][..end[p]];
  }

  lemma ShortsAreAPrefix(kept: seq<Candidate>, order: seq<Peer>, shorts: map<Peer, seq<Candidate>>, cap: nat,
                         start: map<Peer, nat>, end: map<Peer, nat>, a1: seq<Candidate>, a2: seq<Candidate>,
                         a3: seq<Candidate>, p: Peer)
    requires Grouped(kept, order, shorts, true, cap) && p in order
    requires Reads(order, shorts, start) && Reads(order, shorts, end) && start[p] == 0
    requires Advanced(order, shorts, start, end, a2)
    requires AllOf(a1, false) && AllOf(a2, true) && AllOf(a3, false)
    ensures OfClass(a1 + a2 + a3, p, true) == shorts[p][..end[p]]
  {
    hide Grouped, OfClass, Of, AllOf;
    OfClassJoined(a1 + a2, a3, p, true);
    OfClassJoined(a1, a2, p, true);
    OneClass(a1, p, false);
    OneClass(a2, p, true);
    OneClass(a3, p, false);
  }

  /** What the three passes leave, whatever the candidates and whatever the limits. */
  ghost predicate Sampled(kept: seq<Candidate>, items: seq<Candidate>, maximum: int, cap: nat) {
    && |items| <= maximum
    && (forall p: Peer :: |Of(items, p)| <= cap)
    && (forall c :: c in items ==> c in kept)
    && (forall p: Peer, short: bool :: OfClass(items, p, short) <= OfClass(kept, p, short))
    && DistinctKeys(items)
    && 5 * Shorts(items) <= |items|
    && (|items| == maximum
        || forall p :: p in PeerOrder(kept) ==>
             |Of(items, p)| >= cap || OfClass(items, p, false) == Capped(OfClass(kept, p, false), cap))
  }

  /** A value at two places of a list is at two places of its class. */
  lemma TwiceInClass(items: seq<Candidate>, i: nat, j: nat)
    requires i < j < |items| && items[i] == items[j]
    ensures var own := OfClass(items, items[i].peer, items[i].short);
            exists k, l :: 0 <= k < l < |own| && own[k] == items[i] && own[l] == items[i]
  {
    hide OfClass;
    var c := items[j];
    assert items == items[..j] + [c] + items[j + 1..];
    OfClassJoined(items[..j] + [c], items[j + 1..], c.peer, c.short);
    OfClassMore(items[..j], c, c.peer, c.short);
    ClassHas(items[..j], i);
    var first := OfClass(items[..j], c.peer, c.short);
    var k :| 0 <= k < |first| && first[k] == c;
    assert OfClass(items, c.peer, c.short)[k] == c && OfClass(items, c.peer, c.short)[|first|] == c;
  }

  /** No kept message is taken twice: its bucket is read once, in order. */
  lemma NeverTwice(kept: seq<Candidate>, items: seq<Candidate>, i: nat, j: nat)
    requires DistinctKeys(kept)
    requires forall c :: c in items ==> c in kept
    requires forall p: Peer, short: bool :: OfClass(items, p, short) <= OfClass(kept, p, short)
    requires i < j < |items|
    ensures items[i].key != items[j].key
  {
    hide OfClass;
    if items[i].key == items[j].key {
      SameKeySame(kept, items[i], items[j]);
      TwiceInClass(items, i, j);
      ClassIsDistinct(kept, items[i].peer, items[i].short);
    }
  }

  lemma SameKeySame(kept: seq<Candidate>, c: Candidate, d: Candidate)
    requires DistinctKeys(kept) && c in kept && d in kept && c.key == d.key
    ensures c == d
  {
    var a :| 0 <= a < |kept| && kept[a] == c;
    var b :| 0 <= b < |kept| && kept[b] == d;
    if a < b || b < a { assert kept[a].key == kept[b].key; }
  }

  /** The starting offsets of a class. */
  ghost predicate AtStart(order: seq<Peer>, next: map<Peer, nat>) {
    forall p :: p in order ==> p in next && next[p] == 0
  }

  lemma PrefixesOfKept(kept: seq<Candidate>, order: seq<Peer>, longs: map<Peer, seq<Candidate>>,
                       shorts: map<Peer, seq<Candidate>>, cap: nat, l0: map<Peer, nat>, l1: map<Peer, nat>,
                       l2: map<Peer, nat>, s0: map<Peer, nat>, s1: map<Peer, nat>, a1: seq<Candidate>,
                       a2: seq<Candidate>, a3: seq<Candidate>, p: Peer, short: bool)
    requires order == PeerOrder(kept)
    requires Grouped(kept, order, longs, false, cap) && Grouped(kept, order, shorts, true, cap)
    requires AtStart(order, l0) && AtStart(order, s0)
    requires Reads(order, longs, l0) && Reads(order, longs, l1) && Reads(order, longs, l2)
    requires Reads(order, shorts, s0) && Reads(order, shorts, s1)
    requires Advanced(order, longs, l0, l1, a1) && Advanced(order, shorts, s0, s1, a2)
    requires Advanced(order, longs, l1, l2, a3)
    requires AllOf(a1, false) && AllOf(a2, true) && AllOf(a3, false)
    requires forall i :: 0 <= i < |a1 + a2 + a3| ==> (a1 + a2 + a3)[i].peer in order
    ensures OfClass(a1 + a2 + a3, p, short) <= OfClass(kept, p, short)
    ensures p in order && !short ==> OfClass(a1 + a2 + a3, p, short) == longs[p][..l2[p]]
  {
    hide OfClass, PeerOrder, Advanced, AllOf, Of;
    if p !in order {
      NoneOf(a1 + a2 + a3, p, short);
    } else if short {
      ShortsAreAPrefix(kept, order, shorts, cap, s0, s1, a1, a2, a3, p);
    } else {
      LongsAreAPrefix(kept, order, longs, cap, l0, l1, l2, a1, a2, a3, p);
    }
  }

  lemma ShareOfShorts(a1: seq<Candidate>, a2: seq<Candidate>, a3: seq<Candidate>)
    requires AllOf(a1, false) && AllOf(a2, true) && AllOf(a3, false) && 4 * |a2| <= |a1|
    ensures 5 * Shorts(a1 + a2 + a3) <= |a1 + a2 + a3|
  {
    hide AllOf;
    ShortsJoined(a1 + a2, a3);
    ShortsJoined(a1, a2);
    OneClass(a1, "", false);
    OneClass(a2, "", true);
    OneClass(a3, "", false);
  }

  lemma SampleParts(kept: seq<Candidate>, order: seq<Peer>, longs: map<Peer, seq<Candidate>>,
                    shorts: map<Peer, seq<Candidate>>, cap: nat, l0: map<Peer, nat>, l1: map<Peer, nat>,
                    l2: map<Peer, nat>, s0: map<Peer, nat>, s1: map<Peer, nat>, a1: seq<Candidate>, a2: seq<Candidate>,
                    a3: seq<Candidate>, t1: int, t2: int, maximum: int)
    requires order == PeerOrder(kept) && DistinctKeys(kept)
    requires Grouped(kept, order, longs, false, cap) && Grouped(kept, order, shorts, true, cap)
    requires AtStart(order, l0) && AtStart(order, s0)
    requires Drawn(order, longs, l0, [], l1, a1, t1, cap) && Drawn(order, shorts, s0, a1, s1, a2, t2, cap)
    requires Drawn(order, longs, l1, a1 + a2, l2, a3, maximum, cap)
    ensures var items := a1 + a2 + a3;
            && AllOf(a1, false) && AllOf(a2, true) && AllOf(a3, false)
            && (forall c :: c in items ==> c in kept)
            && (forall p: Peer, short: bool :: OfClass(items, p, short) <= OfClass(kept, p, short))
            && (forall p :: p in order ==> OfClass(items, p, false) == longs[p][..l2[p]])
            && DistinctKeys(items)
  {
    hide OfClass, PeerOrder, Of, TurnByTurn, Grouped, AllOf;
    PassAdds(kept, order, longs, false, cap, l0, [], l1, a1, t1);
    PassAdds(kept, order, shorts, true, cap, s0, a1, s1, a2, t2);
    PassAdds(kept, order, longs, false, cap, l1, a1 + a2, l2, a3, maximum);
    var items := a1 + a2 + a3;
    forall p: Peer, short: bool
      ensures OfClass(items, p, short) <= OfClass(kept, p, short)
      ensures p in order && !short ==> OfClass(items, p, short) == longs[p][..l2[p]]
    {
      PrefixesOfKept(kept, order, longs, shorts, cap, l0, l1, l2, s0, s1, a1, a2, a3, p, short);
    }
    forall i, j | 0 <= i < j < |items| ensures items[i].key != items[j].key {
      NeverTwice(kept, items, i, j);
    }
  }

  /** Everything the three passes read and add: the buckets, the offsets before and after
      each pass, and the samples of each. */
  datatype Passes = Passes(
    longs: map<Peer, seq<Candidate>>, shorts: map<Peer, seq<Candidate>>,
    l0: map<Peer, nat>, l1: map<Peer, nat>, l2: map<Peer, nat>, s0: map<Peer, nat>, s1: map<Peer, nat>,
    a1: seq<Candidate>, a2: seq<Candidate>, a3: seq<Candidate>)
  {
    function Items(): seq<Candidate> { a1 + a2 + a3 }
  }

  /** Long messages up to four fifths of the maximum, short ones up to a quarter of those,
      then long ones again from where the first pass stopped. */
  ghost predicate ByPasses(kept: seq<Candidate>, maximum: int, cap: nat, p: Passes) {
    var order := PeerOrder(kept);
    && Grouped(kept, order, p.longs, false, cap) && Grouped(kept, order, p.shorts, true, cap)
    && AtStart(order, p.l0) && AtStart(order, p.s0)
    && Drawn(order, p.longs, p.l0, [], p.l1, p.a1, maximum * 4 / 5, cap)
    && Drawn(order, p.shorts, p.s0, p.a1, p.s1, p.a2, |p.a1| + Min(maximum - |p.a1|, |p.a1| / 4), cap)
    && Drawn(order, p.longs, p.l1, p.a1 + p.a2, p.l2, p.a3, maximum, cap)
  }

  /** Short of the maximum, every contact is at its cap or out of long messages. */
  lemma ShortfallIsForced(kept: seq<Candidate>, maximum: int, cap: nat, passes: Passes, p: Peer)
    requires ByPasses(kept, maximum, cap, passes) && p in PeerOrder(kept) && |passes.Items()| < maximum
    requires OfClass(passes.Items(), p, false) == passes.longs[p][..passes.l2[p]]
    ensures |Of(passes.Items(), p)| >= cap
         || OfClass(passes.Items(), p, false) == Capped(OfClass(kept, p, false), cap)
  {
    hide OfClass, PeerOrder, Of, Advanced, TurnByTurn;
    assert Spent(passes.longs, passes.l2, |Of(passes.Items(), p)|, p, cap);
  }

  lemma PassesStayInside(kept: seq<Candidate>, maximum: int, cap: nat, passes: Passes)
    requires ByPasses(kept, maximum, cap, passes) && maximum >= MIN_SAMPLES
    ensures |passes.Items()| <= maximum && 4 * |passes.a2| <= |passes.a1|
    ensures forall p: Peer :: |Of(passes.Items(), p)| <= cap
  {
    hide OfClass, PeerOrder, Of, Advanced, TurnByTurn, Spent, Grouped;
    assert [] + passes.a1 == passes.a1;
    EmptyOf();
  }

  /** However the passes are carried out, they give a balanced sample. */
  lemma SamplesAreBalanced(kept: seq<Candidate>, maximum: int, cap: nat, passes: Passes)
    requires DistinctKeys(kept) && maximum >= MIN_SAMPLES && ByPasses(kept, maximum, cap, passes)
    ensures Sampled(kept, passes.Items(), maximum, cap)
  {
    hide OfClass, PeerOrder, Of, Drawn, Grouped, DistinctKeys, AllOf, Capped;
    var (a1, a2, a3) := (passes.a1, passes.a2, passes.a3);
    SampleParts(kept, PeerOrder(kept), passes.longs, passes.shorts, cap,
                passes.l0, passes.l1, passes.l2, passes.s0, passes.s1,
                a1, a2, a3, maximum * 4 / 5, |a1| + Min(maximum - |a1|, |a1| / 4), maximum);
    PassesStayInside(kept, maximum, cap, passes);
    ShareOfShorts(a1, a2, a3);
    if |passes.Items()| < maximum {
      forall p | p in PeerOrder(kept)
        ensures |Of(passes.Items(), p)| >= cap
             || OfClass(passes.Items(), p, false) == Capped(OfClass(kept, p, false), cap)
      {
        ShortfallIsForced(kept, maximum, cap, passes, p);
      }
    }
  }

  lemma SameBuckets(kept: seq<Candidate>, order: seq<Peer>, x: map<Peer, seq<Candidate>>, y: map<Peer, seq<Candidate>>,
                    short: bool, cap: nat)
    requires Grouped(kept, order, x, short, cap) && Grouped(kept, order, y, short, cap)
    ensures x == y
  {
  }

  /** A pass only looks at the offsets of the contacts in the order. */
  lemma DrawnFrom(order: seq<Peer>, buckets: map<Peer, seq<Candidate>>, from: map<Peer, nat>, from': map<Peer, nat>,
                  was: seq<Candidate>, next: map<Peer, nat>, added: seq<Candidate>, target: int, cap: int)
    requires Drawn(order, buckets, from, was, next, added, target, cap)
    requires forall p :: p in order ==> p in from' && from'[p] == from[p]
    ensures Drawn(order, buckets, from', was, next, added, target, cap)
  {
    hide Of, TurnByTurn, Spent;
  }

  lemma SamePass(order: seq<Peer>, buckets: map<Peer, seq<Candidate>>, f: map<Peer, nat>, g: map<Peer, nat>,
                 was: seq<Candidate>, fNext: map<Peer, nat>, gNext: map<Peer, nat>, a: seq<Candidate>,
                 b: seq<Candidate>, target: int, cap: int)
    requires Distinct(order)
    requires Drawn(order, buckets, f, was, fNext, a, target, cap)
    requires Drawn(order, buckets, g, was, gNext, b, target, cap)
    requires forall p :: p in order ==> p in f && p in g && f[p] == g[p]
    ensures a == b && forall p :: p in order ==> p in fNext && p in gNext && fNext[p] == gNext[p]
  {
    DrawnReads(order, buckets, f, was, fNext, a, target, cap);
    DrawnReads(order, buckets, g, was, gNext, b, target, cap);
    hide Drawn;
    DrawnFrom(order, buckets, g, f, was, gNext, b, target, cap);
    OnlyOneOutcome(order, buckets, f, was, a, fNext, b, gNext, target, cap);
  }

  /** The same candidates and limits always give the same samples in the same order. */
  lemma SamplesAreDetermined(candidates: seq<Candidate>, maximum: int, cap: nat, x: Passes, y: Passes)
    requires ByPasses(Kept(candidates), maximum, cap, x) && ByPasses(Kept(candidates), maximum, cap, y)
    ensures x.Items() == y.Items()
  {
    hide Drawn, Grouped, Kept, PeerOrder;
    var kept := Kept(candidates);
    var order := PeerOrder(kept);
    KeptIsDistinct(candidates);
    SameBuckets(kept, order, x.longs, y.longs, false, cap);
    SameBuckets(kept, order, x.shorts, y.shorts, true, cap);
    SamePass(order, x.longs, x.l0, y.l0, [], x.l1, y.l1, x.a1, y.a1, maximum * 4 / 5, cap);
    SamePass(order, x.shorts, x.s0, y.s0, x.a1, x.s1, y.s1, x.a2, y.a2, |x.a1| + Min(maximum - |x.a1|, |x.a1| / 4),
             cap);
    SamePass(order, x.longs, x.l1, y.l1, x.a1 + x.a2, x.l2, y.l2, x.a3, y.a3, maximum, cap);
  }

  lemma EmptyOf()
    ensures forall p: Peer :: Of([], p) == []
  {
  }

  // ---------------------------------------------------------------- the sampler

  datatype SamplingError = InsufficientSamples | InsufficientDiversity | QuotaBroken

  datatype StyleSelection = StyleSelection(items: seq<Candidate>, peerCount: nat, lastAt: Option<int>)

  datatype ProfileRow = ProfileRow(sourceCount: int, peerCount: int, policyVersion: int, sanitizerVersion: int)

  predicate ProfileIsCurrent(row: Option<ProfileRow>) {
    && row.Some?
    && row.value.policyVersion == POLICY_VERSION && row.value.sanitizerVersion == SANITIZER_VERSION
    && row.value.sourceCount >= MIN_SAMPLES
    && MIN_PEERS <= row.value.peerCount <= row.value.sourceCount
  }

  function ProfileOf(s: StyleSelection): ProfileRow {
    ProfileRow(|s.items|, s.peerCount, POLICY_VERSION, SANITIZER_VERSION)
  }

  function PeersOf(items: seq<Candidate>): set<Peer> {
    set i | 0 <= i < |items| :: items[i].peer
  }

  lemma {:induction false} PeersAreFewer(items: seq<Candidate>)
    ensures |PeersOf(items)| <= |items|
  {
    if items != [] {
      var n := |items| - 1;
      PeersAreFewer(items[..n]);
      assert PeersOf(items) == PeersOf(items[..n]) + {items[n].peer};
    }
  }

  /** The counter has an entry for exactly the contacts that were taken. */
  lemma CounterKeys(selection: Selection)
    requires selection.Valid()
    ensures selection.perPeer.Keys == PeersOf(selection.items)
  {
    forall p: Peer ensures p in selection.perPeer <==> p in PeersOf(selection.items) {
      assert selection.Count(p) == |Of(selection.items, p)|;
      if p in PeersOf(selection.items) {
        var i :| 0 <= i < |selection.items| && selection.items[i].peer == p;
        OwnHas(selection.items, i);
      } else {
        NothingOf(selection.items, p);
      }
    }
  }

  ghost predicate Dominates(items: seq<Candidate>, p: Peer) {
    |Of(items, p)| * 100 > |items| * 15
  }

  /** The latest time among the items that carry one. */
  ghost predicate IsLatest(items: seq<Candidate>, at: Option<int>) {
    && (forall c :: c in items && c.at.Some? ==> at.Some? && c.at.value <= at.value)
    && (at.Some? ==> exists c :: c in items && c.at == at)
  }

  method LatestAt(items: seq<Candidate>) returns (at: Option<int>)
    ensures IsLatest(items, at)
  {
    at := None;
    for i := 0 to |items|
      invariant IsLatest(items[..i], at)
    {
      assert items[..i + 1] == items[..i] + [items[i]];
      if items[i].at.Some? && (at.None? || at.value < items[i].at.value) {
        at := items[i].at;
        assert items[i] in items[..i + 1];
      } else if at.Some? {
        var c :| c in items[..i] && c.at == at;
        assert c in items[..i + 1];
      }
    }
    assert items[..|items|] == items;
  }

  method CountShorts(items: seq<Candidate>) returns (count: nat)
    ensures count == Shorts(items)
  {
    count := 0;
    for i := 0 to |items|
      invariant count == Shorts(items[..i])
    {
      assert items[..i + 1] == items[..i] + [items[i]];
      ShortsMore(items[..i], items[i]);
      if items[i].short { count := count + 1; }
    }
    assert items[..|items|] == items;
  }

  /** Whether one contact holds more than fifteen in a hundred of the samples. */
  method SomeoneDominates(selection: Selection, order: seq<Peer>) returns (found: bool)
    requires selection.Valid() && forall p :: p in PeersOf(selection.items) ==> p in order
    ensures found <==> exists p: Peer :: Dominates(selection.items, p)
  {
    var most := 0;
    for i := 0 to |order|
      invariant forall k :: 0 <= k < i ==> |Of(selection.items, order[k])| <= most
      invariant most == 0 || exists k :: 0 <= k < i && |Of(selection.items, order[k])| == most
    {
      assert selection.Count(order[i]) == |Of(selection.items, order[i])|;
      if selection.Count(order[i]) > most { most := selection.Count(order[i]); }
    }
    found := most * 100 > |selection.items| * 15;
    forall p: Peer ensures |Of(selection.items, p)| <= most {
      if p !in order { NothingOf(selection.items, p); }
    }
    if found {
      var k :| 0 <= k < |order| && |Of(selection.items, order[k])| == most;
      assert Dominates(selection.items, order[k]);
    }
  }

  /** Three passes: long messages up to four fifths, short ones up to a quarter of those,
      then long ones again. */
  method DrawSamples(candidates: seq<Candidate>, maximum: int, cap: nat)
    returns (selection: Selection, order: seq<Peer>, ghost passes: Passes)
    requires maximum >= MIN_SAMPLES
    ensures fresh(selection) && selection.Valid() && order == PeerOrder(Kept(candidates))
    ensures ByPasses(Kept(candidates), maximum, cap, passes) && selection.items == passes.Items()
    ensures Sampled(Kept(candidates), selection.items, maximum, cap)
  {
    hide Kept, PeerOrder, Of, Drawn, Grouped, Sampled;
    var longs, shorts;
    order, longs, shorts := GroupCandidates(candidates, cap);
    ghost var kept := Kept(candidates);
    KeptIsDistinct(candidates);
    GroupReads(kept, order, longs, false, cap);
    GroupReads(kept, order, shorts, true, cap);
    selection := new Selection();
    var longOffsets := new Offsets(order);
    var shortOffsets := new Offsets(order);
    ghost var l0, s0 := longOffsets.next, shortOffsets.next;
    RoundRobinTake(longs, order, selection, longOffsets, maximum * 4 / 5, cap);
    ghost var l1, a1 := longOffsets.next, selection.items;
    assert selection.items[0..] == a1;
    var longCount := |selection.items|;
    var shortCount := Min(maximum - longCount, longCount / 4);
    RoundRobinTake(shorts, order, selection, shortOffsets, longCount + shortCount, cap);
    ghost var s1, a2 := shortOffsets.next, selection.items[|a1|..];
    assert selection.items == a1 + a2;
    DrawnReads(order, longs, l0, [], l1, a1, maximum * 4 / 5, cap);
    RoundRobinTake(longs, order, selection, longOffsets, maximum, cap);
    ghost var l2, a3 := longOffsets.next, selection.items[|a1 + a2|..];
    assert selection.items == a1 + a2 + a3;
    passes := Passes(longs, shorts, l0, l1, l2, s0, s1, a1, a2, a3);
    SamplesAreBalanced(kept, maximum, cap, passes);
  }

  lemma KeptIsDistinct(candidates: seq<Candidate>)
    ensures DistinctKeys(Kept(candidates)) && Distinct(PeerOrder(Kept(candidates)))
  {
  }

  lemma GroupReads(kept: seq<Candidate>, order: seq<Peer>, buckets: map<Peer, seq<Candidate>>, short: bool, cap: nat)
    requires Grouped(kept, order, buckets, short, cap)
    ensures Sorted(buckets) && Reads(order, buckets, map p | p in order :: 0)
  {
    forall p | p in buckets ensures forall i :: 0 <= i < |buckets[p]| ==> buckets[p][i].peer == p {
      ClassIsOwn(kept, p, short);
      forall i | 0 <= i < |buckets[p]| ensures buckets[p][i].peer == p {
        assert buckets[p][i] == OfClass(kept, p, short)[i];
      }
    }
  }

  lemma DrawnReads(order: seq<Peer>, buckets: map<Peer, seq<Candidate>>, from: map<Peer, nat>, was: seq<Candidate>,
                   next: map<Peer, nat>, added: seq<Candidate>, target: int, cap: int)
    requires Drawn(order, buckets, from, was, next, added, target, cap)
    ensures Reads(order, buckets, next)
  {
  }

  /** Whether a selection is what the drawn samples amount to, or the reason to refuse them. */
  ghost predicate Judged(result: Result<StyleSelection, SamplingError>, drawn: seq<Candidate>) {
    match result
    case Failure(InsufficientSamples) => |drawn| < MIN_SAMPLES
    case Failure(InsufficientDiversity) =>
      |drawn| >= MIN_SAMPLES && (|PeersOf(drawn)| < MIN_PEERS || exists p: Peer :: Dominates(drawn, p))
    case Failure(QuotaBroken) => false
    case Success(s) =>
      && s.items == drawn && |drawn| >= MIN_SAMPLES
      && s.peerCount == |PeersOf(drawn)| >= MIN_PEERS
      && (forall p: Peer :: !Dominates(drawn, p))
      && IsLatest(drawn, s.lastAt)
  }

  /** The limits that are used: what was asked for, between 8 and 100 samples and between one
      and ten of each contact. */
  function Maximum(samples: int): (maximum: int)
    ensures 8 <= maximum <= 100 && (8 <= samples <= 100 ==> maximum == samples)
    ensures (samples < 8 ==> maximum == 8) && (samples > 100 ==> maximum == 100)
  {
    Min(MAX_SAMPLES, Max(MIN_SAMPLES, samples))
  }

  function Cap(perPeer: int): (cap: nat)
    ensures 1 <= cap <= 10 && (1 <= perPeer <= 10 ==> cap == perPeer)
    ensures (perPeer < 1 ==> cap == 1) && (perPeer > 10 ==> cap == 10)
  {
    Min(MAX_PER_PEER, Max(1, perPeer))
  }

  /** The sampler.  Its last check can never fail, and what it returns always makes a profile
      that counts as current. */
  method StratifiedStyleSamples(candidates: seq<Candidate>, maximumSamples: int, maximumPerPeer: int)
    returns (result: Result<StyleSelection, SamplingError>, ghost passes: Passes)
    ensures result != Failure(QuotaBroken)
    ensures result.Success? ==>
              && Sampled(Kept(candidates), result.value.items, Maximum(maximumSamples), Cap(maximumPerPeer))
              && ProfileIsCurrent(Some(ProfileOf(result.value)))
    ensures ByPasses(Kept(candidates), Maximum(maximumSamples), Cap(maximumPerPeer), passes)
    ensures Judged(result, passes.Items())
  {
    hide Kept, PeerOrder, Of, Dominates, IsLatest, Shorts, Sampled, ByPasses;
    var maximum, cap := Maximum(maximumSamples), Cap(maximumPerPeer);
    var selection, order;
    selection, order, passes := DrawSamples(candidates, maximum, cap);
    ghost var drawn := selection.items;
    SampledFacts(Kept(candidates), drawn, maximum, cap);
    if |selection.items| < MIN_SAMPLES {
      result := Failure(InsufficientSamples);
      assert Judged(result, drawn);
      return;
    }
    CounterKeys(selection);
    PeersAreFewer(drawn);
    var peerCount := |selection.perPeer|;
    assert peerCount == |selection.perPeer.Keys|;
    if peerCount < MIN_PEERS {
      result := Failure(InsufficientDiversity);
      assert Judged(result, drawn);
      return;
    }
    PeersAreKnown(Kept(candidates), drawn);
    var dominated := SomeoneDominates(selection, order);
    if dominated {
      result := Failure(InsufficientDiversity);
      assert Judged(result, drawn);
      return;
    }
    var shortCount := CountShorts(selection.items);
    if shortCount * 5 > |selection.items| {
      result := Failure(QuotaBroken);
      return;
    }
    var lastAt := LatestAt(selection.items);
    result := Success(StyleSelection(selection.items, peerCount, lastAt));
    assert Judged(result, drawn);
  }

  lemma SampledFacts(kept: seq<Candidate>, items: seq<Candidate>, maximum: int, cap: nat)
    requires Sampled(kept, items, maximum, cap)
    ensures 5 * Shorts(items) <= |items| && forall c :: c in items ==> c in kept
  {
  }

  lemma PeersAreKnown(kept: seq<Candidate>, items: seq<Candidate>)
    requires forall c :: c in items ==> c in kept
    ensures forall p :: p in PeersOf(items) ==> p in PeerOrder(kept)
  {
    forall i | 0 <= i < |items| ensures items[i].peer in PeerOrder(kept) {
      assert items[i] in kept;
      var k :| 0 <= k < |kept| && kept[k] == items[i];
    }
  }

  // ---------------------------------------------------------------- in numbers

  /** What a returned selection comes to, whatever was asked for: 8 to 100 samples of at least
      8 contacts, no contact with more than ten or more than 15 in 100, at most one in five
      short, and the number of contacts and the latest time as stated. */
  lemma SelectionInNumbers(candidates: seq<Candidate>, samples: int, perPeer: int, passes: Passes, s: StyleSelection)
    requires ByPasses(Kept(candidates), Maximum(samples), Cap(perPeer), passes)
    requires Judged(Success(s), passes.Items())
    ensures 8 <= |s.items| <= 100 && s.items == passes.Items()
    ensures forall p: Peer :: |Of(s.items, p)| <= 10 && 100 * |Of(s.items, p)| <= 15 * |s.items|
    ensures s.peerCount == |PeersOf(s.items)| && s.peerCount >= 8
    ensures 5 * Shorts(s.items) <= |s.items|
    ensures s.lastAt == None <==> forall c :: c in s.items ==> c.at == None
    ensures forall c :: c in s.items && c.at.Some? ==> s.lastAt.Some? && c.at.value <= s.lastAt.value
  {
    hide ByPasses, Kept, Of, OfClass, PeerOrder, DistinctKeys;
    KeptIsDistinct(candidates);
    SamplesAreBalanced(Kept(candidates), Maximum(samples), Cap(perPeer), passes);
    forall p: Peer ensures 100 * |Of(s.items, p)| <= 15 * |s.items| { assert !Dominates(s.items, p); }
  }

  /** The targets of the passes: long messages up to four fifths of the maximum, then short
      ones up to a quarter of those and the maximum, then long ones up to the maximum.  A pass
      falls short only when every contact is at its cap or has given all it has. */
  lemma PassesInNumbers(kept: seq<Candidate>, maximum: nat, cap: nat, p: Passes)
    requires ByPasses(kept, maximum, cap, p)
    ensures 5 * |p.a1| <= 4 * maximum && 4 * |p.a2| <= |p.a1| && |p.a1| + |p.a2| + |p.a3| <= maximum
    ensures 5 * (|p.a1| + 1) <= 4 * maximum ==>
              forall q :: q in PeerOrder(kept) ==> |Of(p.a1, q)| >= cap || p.l1[q] >= |p.longs[q]|
    ensures 4 * (|p.a2| + 1) <= |p.a1| && |p.a1| + |p.a2| < maximum ==>
              forall q :: q in PeerOrder(kept) ==> |Of(p.a1 + p.a2, q)| >= cap || p.s1[q] >= |p.shorts[q]|
  {
    hide OfClass, PeerOrder, Of, Advanced, TurnByTurn, Grouped, AtStart;
    assert [] + p.a1 == p.a1;
    forall q | q in PeerOrder(kept) && 5 * (|p.a1| + 1) <= 4 * maximum
      ensures |Of(p.a1, q)| >= cap || p.l1[q] >= |p.longs[q]|
    {
      assert Spent(p.longs, p.l1, |Of([] + p.a1, q)|, q, cap);
    }
    forall q | q in PeerOrder(kept) && 4 * (|p.a2| + 1) <= |p.a1| && |p.a1| + |p.a2| < maximum
      ensures |Of(p.a1 + p.a2, q)| >= cap || p.s1[q] >= |p.shorts[q]|
    {
      assert Spent(p.shorts, p.s1, |Of(p.a1 + p.a2, q)|, q, cap);
    }
  }

  /** Why samples are refused: fewer than eight; or fewer than eight contacts, or one with more
      than 15 in 100. */
  lemma RefusalInNumbers(drawn: seq<Candidate>, error: SamplingError)
    ensures Judged(Failure(error), drawn) <==>
              match error
              case InsufficientSamples => |drawn| < 8
              case InsufficientDiversity =>
                |drawn| >= 8 && (|PeersOf(drawn)| < 8 || exists p: Peer :: 100 * |Of(drawn, p)| > 15 * |drawn|)
              case QuotaBroken => false
  {
    hide Of;
    if p: Peer :| Dominates(drawn, p) {
      assert 100 * |Of(drawn, p)| > 15 * |drawn|;
    }
    if p: Peer :| 100 * |Of(drawn, p)| > 15 * |drawn| { assert Dominates(drawn, p); }
  }

  /** A stored profile counts as current exactly when both versions are the present ones and
      its counts are those of a possible selection. */
  lemma CurrentExactlyWhen(row: Option<ProfileRow>)
    ensures ProfileIsCurrent(row) <==>
              && row.Some? && row.value.policyVersion == 1 && row.value.sanitizerVersion == 1
              && row.value.sourceCount >= 8 && row.value.peerCount >= 8 && row.value.peerCount <= row.value.sourceCount
  {
  }

  // ------------------------------------------------------------- what is kept

  /** Every usable candidate that names a contact is kept unless an earlier one has its key,
      and the kept ones are in order. */
  lemma {:induction false} KeptIsFirst(candidates: seq<Candidate>, i: nat)
    requires i < |candidates| && candidates[i].usable && candidates[i].peer != ""
    ensures exists c :: c in Kept(candidates) && c.key == candidates[i].key
    ensures (forall j :: 0 <= j < i && candidates[j].usable && candidates[j].peer != "" ==>
               candidates[j].key != candidates[i].key) ==> candidates[i] in Kept(candidates)
    decreases |candidates|
  {
    var n := |candidates| - 1;
    if i < n {
      KeptIsFirst(candidates[..n], i);
      var c :| c in Kept(candidates[..n]) && c.key == candidates[i].key;
      assert c in Kept(candidates);
    } else {
      var before := Kept(candidates[..n]);
      if c :| c in before && c.key == candidates[n].key {
        assert c in Kept(candidates);
        assert c in candidates[..n] && c.usable && c.peer != "";
        var j :| 0 <= j < n && candidates[..n][j] == c;
        assert candidates[j] == c;
      } else {
        assert candidates[n] in Kept(candidates);
      }
    }
  }

  /** What is kept of a beginning is the beginning of what is kept. */
  lemma {:induction false} KeptGrows(candidates: seq<Candidate>, n: nat)
    requires n <= |candidates|
    ensures Kept(candidates[..n]) <= Kept(candidates)
    decreases |candidates|
  {
    if n == |candidates| {
      assert candidates[..n] == candidates;
    } else {
      var m := |candidates| - 1;
      KeptGrows(candidates[..m], n);
      assert candidates[..m][..n] == candidates[..n];
    }
  }

  /** Contacts take their turns in the order in which they were first kept. */
  lemma {:induction false} OrderGrows(items: seq<Candidate>, n: nat)
    requires n <= |items|
    ensures PeerOrder(items[..n]) <= PeerOrder(items)
    decreases |items|
  {
    if n == |items| {
      assert items[..n] == items;
    } else {
      var m := |items| - 1;
      OrderGrows(items[..m], n);
      assert items[..m][..n] == items[..n];
    }
  }

  /** A contact's messages of a class are all of them, and in order. */
  lemma {:induction false} ClassIsComplete(items: seq<Candidate>, peer: Peer, short: bool, c: Candidate)
    ensures c in OfClass(items, peer, short) <==> c in items && c.peer == peer && c.short == short
  {
    ClassIsOwn(items, peer, short);
    if c in items && c.peer == peer && c.short == short {
      var i :| 0 <= i < |items| && items[i] == c;
      ClassHas(items, i);
    }
  }
}
