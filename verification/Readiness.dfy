/** The cutover readiness report: one pass over the account rows with many counters,
    against a specification that says of each row, on its own, what it counts for. */
module Readiness {
  import opened Vocabulary

  // -------------------------------------------------------------------- inputs

  datatype Domain = Social | Moments | Discovery | Media

  const DOMAINS := [Social, Moments, Discovery, Media]

  datatype BlockKind = Blacklist | BlacklistedBy

  datatype Credential = NoCredential(encryptedPassword: bool) | DisabledCredential | EnabledCredential(safeHash: bool)

  /** An account row; the uid is empty when it is missing or malformed. */
  datatype Account = Account(active: bool, user: string, uid: string, external: string, credential: Credential)

  /** A domain completion marker.  `sound` stands for the checks on its own fields: status,
      schema, scopes, counts, paths and coverage. */
  datatype DomainMarker = DomainMarker(
    sound: bool, external: string, uid: string, digest: string,
    prerequisites: map<string, string>, pages: int, messages: int, directions: int)

  datatype BlockMarker = BlockMarker(sound: bool, external: string, uid: string)

  datatype PeerMarker = PeerMarker(sound: bool, external: string, uid: string, peerCount: int, digest: string)

  /** The stored markers, and which stored relationship rows pass their own checks. */
  datatype Store = Store(
    domains: map<(string, Domain), DomainMarker>,
    blocks: map<(string, BlockKind), BlockMarker>,
    peers: map<string, PeerMarker>,
    soundBlockRows: set<(string, string)>,
    soundPeerRows: set<(string, string, PeerMarker)>)

  const MAX_PEERS := 5000
  const MAX_PAGES := 1000
  const MAX_MESSAGES := 1_000_000

  // ------------------------------------------------------------- marker validity

  predicate IsDigit(c: char) {
    c in "0123456789abcdef"
  }

  predicate ValidDigest(digest: string) {
    |digest| == 64 && forall c :: c in digest ==> IsDigit(c)
  }

  predicate ValidPeerMarker(m: PeerMarker, a: Account) {
    m.sound && m.external == a.external && m.uid == a.uid && 0 <= m.peerCount <= MAX_PEERS && ValidDigest(m.digest)
  }

  predicate ValidBlockMarker(m: BlockMarker, a: Account) {
    m.sound && m.external == a.external && m.uid == a.uid
  }

  datatype Prerequisites = Prerequisites(digests: map<string, string>, peerCount: int)

  predicate ValidHistory(m: DomainMarker, peerCount: int) {
    && m.directions == peerCount * 2 && 0 <= m.messages <= MAX_MESSAGES
    && (if m.directions == 0 then m.pages == 0 else m.directions <= m.pages <= m.directions * MAX_PAGES)
  }

  predicate ValidDomainMarker(m: DomainMarker, domain: Domain, a: Account, media: Option<Prerequisites>) {
    && m.sound && m.external == a.external && m.uid == a.uid && ValidDigest(m.digest)
    && (domain == Media ==>
          && media.Some?
          && m.prerequisites == media.value.digests
          && (forall name :: name in m.prerequisites ==> ValidDigest(m.prerequisites[name]))
          && ValidHistory(m, media.value.peerCount))
  }

  /** What a media marker must refer to: the account's own valid social, moments and message
      peer markers; nothing when one of them is missing or invalid. */
  function MediaPrerequisites(store: Store, a: Account): Option<Prerequisites> {
    if (a.user, Social) !in store.domains || (a.user, Moments) !in store.domains || a.user !in store.peers then None
    else
      var social, moments, peer :=
        store.domains[(a.user, Social)], store.domains[(a.user, Moments)], store.peers[a.user];
      if !ValidDomainMarker(social, Social, a, None) || !ValidDomainMarker(moments, Moments, a, None)
         || !ValidPeerMarker(peer, a) then None
      else Some(Prerequisites(map["message_peer" := peer.digest, "moments" := moments.digest,
                                  "social" := social.digest],
                              peer.peerCount))
  }

  // --------------------------------------------------------------- the specification

  datatype Counter =
    | Active | EnabledCredentials | MissingCredentials | BackfillCandidates | DisabledCredentials | InvalidCredentials
    | DuplicateUserAccounts | LoginReady | MissingUid | DuplicateUidAccounts
    | DomainReady(ready: Domain) | DomainMissing(missing: Domain) | DomainInvalid(invalid: Domain) | AllDomainsReady
    | IdentityReady | BlockReady | BlockMissing | BlockInvalid | BlockRowsInvalid
    | PeerReady | PeerMissing | PeerInvalid | PeerRowsInvalid | CoreReady | CutoverReady

  /** The users, or uids, that more than one row carries. */
  datatype Repeats = Repeats(users: set<string>, uids: set<string>)

  predicate Reached(r: Repeats, a: Account) {
    a.active && a.user !in r.users && a.uid != "" && a.uid !in r.uids
  }

  predicate CredentialValid(a: Account) {
    a.credential.EnabledCredential? && a.credential.safeHash
  }

  predicate MarkerReady(s: Store, a: Account, d: Domain) {
    && (a.user, d) in s.domains
    && ValidDomainMarker(s.domains[(a.user, d)], d, a, if d == Media then MediaPrerequisites(s, a) else None)
  }

  predicate MarkersReady(s: Store, a: Account) {
    MarkerReady(s, a, Social) && MarkerReady(s, a, Moments) && MarkerReady(s, a, Discovery) && MarkerReady(s, a, Media)
  }

  predicate BlocksPresent(s: Store, a: Account) {
    (a.user, Blacklist) in s.blocks && (a.user, BlacklistedBy) in s.blocks
  }

  predicate BlocksValid(s: Store, a: Account) {
    && BlocksPresent(s, a)
    && ValidBlockMarker(s.blocks[(a.user, Blacklist)], a) && ValidBlockMarker(s.blocks[(a.user, BlacklistedBy)], a)
  }

  predicate BlockSound(s: Store, a: Account) {
    BlocksValid(s, a) && (a.user, a.uid) in s.soundBlockRows
  }

  predicate PeerValid(s: Store, a: Account) {
    a.user in s.peers && ValidPeerMarker(s.peers[a.user], a)
  }

  predicate PeerSound(s: Store, a: Account) {
    PeerValid(s, a) && (a.user, a.uid, s.peers[a.user]) in s.soundPeerRows
  }

  predicate Identified(r: Repeats, a: Account) {
    Reached(r, a) && CredentialValid(a)
  }

  /** Whether a row counts for a counter. */
  predicate CountsFor(s: Store, r: Repeats, a: Account, c: Counter) {
    match c
    case Active => a.active
    case EnabledCredentials => a.active && a.credential.EnabledCredential?
    case MissingCredentials => a.active && a.credential.NoCredential?
    case BackfillCandidates => a.active && a.credential.NoCredential? && a.credential.encryptedPassword
    case DisabledCredentials => a.active && a.credential.DisabledCredential?
    case InvalidCredentials => a.active && a.credential.EnabledCredential? && !a.credential.safeHash
    case DuplicateUserAccounts => a.active && a.user in r.users
    case LoginReady => a.active && a.user !in r.users && CredentialValid(a)
    case MissingUid => a.active && a.user !in r.users && a.uid == ""
    case DuplicateUidAccounts => a.active && a.user !in r.users && a.uid != "" && a.uid in r.uids
    case DomainReady(d) => Reached(r, a) && MarkerReady(s, a, d)
    case DomainMissing(d) => Reached(r, a) && (a.user, d) !in s.domains
    case DomainInvalid(d) => Reached(r, a) && (a.user, d) in s.domains && !MarkerReady(s, a, d)
    case AllDomainsReady => Reached(r, a) && MarkersReady(s, a)
    case IdentityReady => Identified(r, a)
    case BlockReady => Identified(r, a) && BlockSound(s, a)
    case BlockMissing => Identified(r, a) && !BlocksPresent(s, a)
    case BlockInvalid => Identified(r, a) && BlocksPresent(s, a) && !BlockSound(s, a)
    case BlockRowsInvalid => Identified(r, a) && BlocksValid(s, a) && !BlockSound(s, a)
    case PeerReady => Identified(r, a) && PeerSound(s, a)
    case PeerMissing => Identified(r, a) && a.user !in s.peers
    case PeerInvalid => Identified(r, a) && a.user in s.peers && !PeerSound(s, a)
    case PeerRowsInvalid => Identified(r, a) && PeerValid(s, a) && !PeerSound(s, a)
    case CoreReady => Identified(r, a) && BlockSound(s, a) && PeerSound(s, a)
    case CutoverReady => Identified(r, a) && BlockSound(s, a) && PeerSound(s, a) && MarkersReady(s, a)
  }

  function Tally(s: Store, r: Repeats, rows: seq<Account>, c: Counter): nat {
    if rows == [] then 0
    else Tally(s, r, rows[..|rows| - 1], c) + (if CountsFor(s, r, rows[|rows| - 1], c) then 1 else 0)
  }

  lemma TallyMore(s: Store, r: Repeats, rows: seq<Account>, n: nat, c: Counter)
    requires n < |rows|
    ensures Tally(s, r, rows[..n + 1], c) == Tally(s, r, rows[..n], c) + (if CountsFor(s, r, rows[n], c) then 1 else 0)
  {
    assert rows[..n + 1][..n] == rows[..n];
  }

  // ------------------------------------------------------------------ duplicates

  function Occurs(values: seq<string>, v: string): nat {
    if values == [] then 0
    else Occurs(values[..|values| - 1], v) + (if values[|values| - 1] == v then 1 else 0)
  }

  lemma {:induction false} OccursOnce(values: seq<string>, v: string)
    ensures Occurs(values, v) >= 1 <==> v in values
    ensures Occurs(values, v) >= 2 <==> exists i, j :: 0 <= i < j < |values| && values[i] == v && values[j] == v
  {
    if values != [] {
      var n := |values| - 1;
      var rest := values[..n];
      OccursOnce(rest, v);
      assert values == rest + [values[n]];
      if values[n] == v && v in rest {
        var i :| 0 <= i < n && rest[i] == v;
        assert values[i] == v && values[n] == v;
      }
      if Occurs(rest, v) >= 2 {
        var i, j :| 0 <= i < j < n && rest[i] == v && rest[j] == v;
        assert values[i] == v && values[j] == v;
      }
      if i, j :| 0 <= i < j < |values| && values[i] == v && values[j] == v {
        if j < n { assert rest[i] == v && rest[j] == v; } else { assert rest[i] == v; }
      }
    }
  }

  /** The non-empty values that occur more than once. */
  method RepeatedValues(values: seq<string>) returns (repeated: set<string>)
    ensures forall v :: v in repeated <==>
              v != "" && exists i, j :: 0 <= i < j < |values| && values[i] == v && values[j] == v
  {
    var counts: map<string, nat> := map[];
    for i := 0 to |values|
      invariant "" !in counts
      invariant forall v :: v != "" ==> Occurs(values[..i], v) == (if v in counts then counts[v] else 0)
    {
      assert values[..i + 1][..i] == values[..i];
      var v := values[i];
      if v != "" { counts := counts[v := (if v in counts then counts[v] else 0) + 1]; }
    }
    assert values[..|values|] == values;
    repeated := set v | v in counts && counts[v] > 1;
    forall v
      ensures v in repeated <==> v != "" && exists i, j :: 0 <= i < j < |values| && values[i] == v && values[j] == v
    {
      OccursOnce(values, v);
    }
  }

  // ------------------------------------------------------------------- the loop

  function Get(of: map<Counter, nat>, c: Counter): nat {
    if c in of then of[c] else 0
  }

  /** The counters of one evaluation. */
  class Tallies {
    var of: map<Counter, nat>

    constructor ()
      ensures forall c: Counter :: Get(of, c) == 0
    {
      of := map[];
    }

    method Bump(c: Counter)
      modifies this
      ensures forall d: Counter :: Get(of, d) == Get(old(of), d) + (if d == c then 1 else 0)
    {
      of := of[c := Get(of, c) + 1];
    }
  }

  /** Exactly these counters moved by one. */
  ghost predicate Moved(before: map<Counter, nat>, after: map<Counter, nat>, moved: set<Counter>) {
    forall c: Counter :: Get(after, c) == Get(before, c) + (if c in moved then 1 else 0)
  }

  method CountCredential(t: Tallies, a: Account) returns (valid: bool, ghost moved: set<Counter>)
    requires a.active
    modifies t
    ensures valid == CredentialValid(a) && Moved(old(t.of), t.of, moved)
    ensures forall c :: c in moved <==>
              match c
              case Active => true
              case EnabledCredentials => a.credential.EnabledCredential?
              case MissingCredentials => a.credential.NoCredential?
              case BackfillCandidates => a.credential.NoCredential? && a.credential.encryptedPassword
              case DisabledCredentials => a.credential.DisabledCredential?
              case InvalidCredentials => a.credential.EnabledCredential? && !a.credential.safeHash
              case _ => false
  {
    hide CountsFor;
    t.Bump(Active);
    moved := {Active};
    var enabled := a.credential.EnabledCredential?;
    valid := enabled && a.credential.safeHash;
    if enabled {
      t.Bump(EnabledCredentials);
      moved := moved + {EnabledCredentials};
    }
    if a.credential.NoCredential? {
      t.Bump(MissingCredentials);
      moved := moved + {MissingCredentials};
      if a.credential.encryptedPassword {
        t.Bump(BackfillCandidates);
        moved := moved + {BackfillCandidates};
      }
    } else if a.credential.DisabledCredential? {
      t.Bump(DisabledCredentials);
      moved := moved + {DisabledCredentials};
    } else if !valid {
      t.Bump(InvalidCredentials);
      moved := moved + {InvalidCredentials};
    }
  }

  /** What one domain marker of a reached account counts for. */
  function MarkerCounter(s: Store, a: Account, d: Domain): Counter {
    if (a.user, d) !in s.domains then DomainMissing(d)
    else if MarkerReady(s, a, d) then DomainReady(d)
    else DomainInvalid(d)
  }

  method CountDomain(t: Tallies, s: Store, a: Account, d: Domain, media: Option<Prerequisites>) returns (ready: bool)
    requires media == MediaPrerequisites(s, a)
    modifies t
    ensures ready == MarkerReady(s, a, d) && Moved(old(t.of), t.of, {MarkerCounter(s, a, d)})
  {
    hide MediaPrerequisites;
    if (a.user, d) !in s.domains {
      t.Bump(DomainMissing(d));
      ready := false;
    } else if !ValidDomainMarker(s.domains[(a.user, d)], d, a, if d == Media then media else None) {
      t.Bump(DomainInvalid(d));
      ready := false;
    } else {
      t.Bump(DomainReady(d));
      ready := true;
    }
  }

  method CountMarkers(t: Tallies, s: Store, a: Account) returns (ready: bool, ghost moved: set<Counter>)
    modifies t
    ensures Moved(old(t.of), t.of, moved)
    ensures ready == forall k :: 0 <= k < |DOMAINS| ==> MarkerReady(s, a, DOMAINS[k])
    ensures moved == set k | 0 <= k < |DOMAINS| :: MarkerCounter(s, a, DOMAINS[k])
  {
    hide MarkerReady, Moved;
    var media := MediaPrerequisites(s, a);
    ready, moved := true, {};
    ghost var before := t.of;
    MovedNone(before);
    for i := 0 to |DOMAINS|
      invariant Moved(before, t.of, moved)
      invariant ready == forall k :: 0 <= k < i ==> MarkerReady(s, a, DOMAINS[k])
      invariant moved == set k | 0 <= k < i :: MarkerCounter(s, a, DOMAINS[k])
    {
      ghost var middle := t.of;
      DomainsAreDistinct(i);
      var found := CountDomain(t, s, a, DOMAINS[i], media);
      MovesAdd(before, middle, t.of, moved, {MarkerCounter(s, a, DOMAINS[i])});
      moved := moved + {MarkerCounter(s, a, DOMAINS[i])};
      if !found { ready := false; }
    }
  }

  lemma MarkersOfAll(s: Store, a: Account)
    ensures MarkersReady(s, a) <==> forall k :: 0 <= k < |DOMAINS| ==> MarkerReady(s, a, DOMAINS[k])
    ensures (set k | 0 <= k < |DOMAINS| :: MarkerCounter(s, a, DOMAINS[k])) == (set d: Domain :: MarkerCounter(s, a, d))
    ensures forall d: Domain :: MarkerCounter(s, a, d) != AllDomainsReady
  {
    hide MarkerReady;
    AllDomains();
    var mine := set k | 0 <= k < |DOMAINS| :: MarkerCounter(s, a, DOMAINS[k]);
    forall d: Domain ensures MarkerCounter(s, a, d) in mine {
      assert d in DOMAINS;
      var k :| 0 <= k < |DOMAINS| && DOMAINS[k] == d;
      assert MarkerCounter(s, a, DOMAINS[k]) in mine;
    }
  }

  /** The four domain markers of a reached account. */
  method CountDomains(t: Tallies, s: Store, a: Account) returns (ready: bool, ghost moved: set<Counter>)
    modifies t
    ensures ready == MarkersReady(s, a) && Moved(old(t.of), t.of, moved)
    ensures moved == (set d: Domain :: MarkerCounter(s, a, d)) + (if ready then {AllDomainsReady} else {})
  {
    hide MarkerReady, MarkersReady, MarkerCounter, Moved;
    ghost var before := t.of;
    ready, moved := CountMarkers(t, s, a);
    MarkersOfAll(s, a);
    if ready {
      ghost var middle := t.of;
      t.Bump(AllDomainsReady);
      MovedOne(middle, t.of, AllDomainsReady);
      MovesAdd(before, middle, t.of, moved, {AllDomainsReady});
      moved := moved + {AllDomainsReady};
    }
  }

  lemma DomainMoves(s: Store, a: Account, ready: bool, moved: set<Counter>)
    requires ready == MarkersReady(s, a)
    requires moved == (set d: Domain :: MarkerCounter(s, a, d)) + (if ready then {AllDomainsReady} else {})
    ensures forall c :: c in moved <==>
              match c
              case DomainReady(d) => MarkerReady(s, a, d)
              case DomainMissing(d) => (a.user, d) !in s.domains
              case DomainInvalid(d) => (a.user, d) in s.domains && !MarkerReady(s, a, d)
              case AllDomainsReady => MarkersReady(s, a)
              case _ => false
  {
    hide ValidDomainMarker, MediaPrerequisites, MarkersReady;
    forall d: Domain ensures MarkerCounter(s, a, d) in moved {}
    forall c: Counter | c.DomainReady? && MarkerReady(s, a, c.ready)
      ensures c in moved
    {
      assert MarkerCounter(s, a, c.ready) == c;
    }
    forall c: Counter | c.DomainMissing? && (a.user, c.missing) !in s.domains
      ensures c in moved
    {
      assert MarkerCounter(s, a, c.missing) == c;
    }
    forall c: Counter | c.DomainInvalid? && (a.user, c.invalid) in s.domains && !MarkerReady(s, a, c.invalid)
      ensures c in moved
    {
      assert MarkerCounter(s, a, c.invalid) == c;
    }
  }

  lemma MovedNone(of: map<Counter, nat>)
    ensures Moved(of, of, {})
  {
  }

  lemma DomainsAreDistinct(i: nat)
    requires i < |DOMAINS|
    ensures forall k :: 0 <= k < i ==> DOMAINS[k] != DOMAINS[i]
  {
  }

  lemma AllDomains()
    ensures DOMAINS[..|DOMAINS|] == DOMAINS && forall d: Domain :: d in DOMAINS
    ensures DOMAINS[0] == Social && DOMAINS[1] == Moments && DOMAINS[2] == Discovery && DOMAINS[3] == Media
  {
    forall d: Domain ensures d in DOMAINS {
      match d
      case Social => assert DOMAINS[0] == d;
      case Moments => assert DOMAINS[1] == d;
      case Discovery => assert DOMAINS[2] == d;
      case Media => assert DOMAINS[3] == d;
    }
  }

  method CountBlocks(t: Tallies, s: Store, a: Account) returns (ready: bool, ghost moved: set<Counter>)
    modifies t
    ensures ready == BlockSound(s, a) && Moved(old(t.of), t.of, moved)
    ensures forall c :: c in moved <==>
              match c
              case BlockReady => BlockSound(s, a)
              case BlockMissing => !BlocksPresent(s, a)
              case BlockInvalid => BlocksPresent(s, a) && !BlockSound(s, a)
              case BlockRowsInvalid => BlocksValid(s, a) && !BlockSound(s, a)
              case _ => false
  {
    ready, moved := false, {};
    if !((a.user, Blacklist) in s.blocks && (a.user, BlacklistedBy) in s.blocks) {
      t.Bump(BlockMissing);
      moved := {BlockMissing};
    } else if !(ValidBlockMarker(s.blocks[(a.user, Blacklist)], a)
                && ValidBlockMarker(s.blocks[(a.user, BlacklistedBy)], a)) {
      t.Bump(BlockInvalid);
      moved := {BlockInvalid};
    } else if (a.user, a.uid) !in s.soundBlockRows {
      t.Bump(BlockInvalid);
      t.Bump(BlockRowsInvalid);
      moved := {BlockInvalid, BlockRowsInvalid};
    } else {
      ready := true;
      t.Bump(BlockReady);
      moved := {BlockReady};
    }
  }

  method CountPeers(t: Tallies, s: Store, a: Account) returns (ready: bool, ghost moved: set<Counter>)
    modifies t
    ensures ready == PeerSound(s, a) && Moved(old(t.of), t.of, moved)
    ensures forall c :: c in moved <==>
              match c
              case PeerReady => PeerSound(s, a)
              case PeerMissing => a.user !in s.peers
              case PeerInvalid => a.user in s.peers && !PeerSound(s, a)
              case PeerRowsInvalid => PeerValid(s, a) && !PeerSound(s, a)
              case _ => false
  {
    ready, moved := false, {};
    if a.user !in s.peers {
      t.Bump(PeerMissing);
      moved := {PeerMissing};
    } else if !ValidPeerMarker(s.peers[a.user], a) {
      t.Bump(PeerInvalid);
      moved := {PeerInvalid};
    } else if (a.user, a.uid, s.peers[a.user]) !in s.soundPeerRows {
      t.Bump(PeerInvalid);
      t.Bump(PeerRowsInvalid);
      moved := {PeerInvalid, PeerRowsInvalid};
    } else {
      ready := true;
      t.Bump(PeerReady);
      moved := {PeerReady};
    }
  }

  /** The two kinds of message snapshots. */
  method CountBoth(t: Tallies, s: Store, a: Account) returns (ready: bool, ghost moved: set<Counter>)
    modifies t
    ensures ready == (BlockSound(s, a) && PeerSound(s, a)) && Moved(old(t.of), t.of, moved)
    ensures forall c :: c in moved <==>
              match c
              case BlockReady => BlockSound(s, a)
              case BlockMissing => !BlocksPresent(s, a)
              case BlockInvalid => BlocksPresent(s, a) && !BlockSound(s, a)
              case BlockRowsInvalid => BlocksValid(s, a) && !BlockSound(s, a)
              case PeerReady => PeerSound(s, a)
              case PeerMissing => a.user !in s.peers
              case PeerInvalid => a.user in s.peers && !PeerSound(s, a)
              case PeerRowsInvalid => PeerValid(s, a) && !PeerSound(s, a)
              case _ => false
  {
    hide BlockSound, PeerSound, BlocksValid, PeerValid, BlocksPresent, Moved;
    ghost var before, blocks, peers := t.of, {}, {};
    var blockReady, peerReady;
    blockReady, blocks := CountBlocks(t, s, a);
    ghost var middle := t.of;
    peerReady, peers := CountPeers(t, s, a);
    MovesAdd(before, middle, t.of, blocks, peers);
    ready, moved := blockReady && peerReady, blocks + peers;
  }

  /** The accounts that are ready in every snapshot, and in every domain besides. */
  method CountReady(t: Tallies, coreReady: bool, domainsReady: bool) returns (ghost moved: set<Counter>)
    modifies t
    ensures Moved(old(t.of), t.of, moved)
    ensures forall c :: c in moved <==>
              match c
              case CoreReady => coreReady
              case CutoverReady => coreReady && domainsReady
              case _ => false
  {
    moved := {};
    if coreReady {
      t.Bump(CoreReady);
      moved := moved + {CoreReady};
    }
    if coreReady && domainsReady {
      t.Bump(CutoverReady);
      moved := moved + {CutoverReady};
    }
  }

  /** The message snapshots of an account whose identity is established. */
  method CountSnapshots(t: Tallies, s: Store, a: Account, domainsReady: bool) returns (ghost moved: set<Counter>)
    requires domainsReady == MarkersReady(s, a)
    modifies t
    ensures Moved(old(t.of), t.of, moved)
    ensures forall c :: c in moved <==>
              match c
              case IdentityReady => true
              case BlockReady => BlockSound(s, a)
              case BlockMissing => !BlocksPresent(s, a)
              case BlockInvalid => BlocksPresent(s, a) && !BlockSound(s, a)
              case BlockRowsInvalid => BlocksValid(s, a) && !BlockSound(s, a)
              case PeerReady => PeerSound(s, a)
              case PeerMissing => a.user !in s.peers
              case PeerInvalid => a.user in s.peers && !PeerSound(s, a)
              case PeerRowsInvalid => PeerValid(s, a) && !PeerSound(s, a)
              case CoreReady => BlockSound(s, a) && PeerSound(s, a)
              case CutoverReady => BlockSound(s, a) && PeerSound(s, a) && MarkersReady(s, a)
              case _ => false
  {
    hide MarkerReady, MarkersReady, BlockSound, PeerSound, BlocksValid, PeerValid, BlocksPresent, Moved;
    ghost var before, both, rest := t.of, {}, {};
    t.Bump(IdentityReady);
    MovedOne(before, t.of, IdentityReady);
    ghost var middle := t.of;
    var coreReady;
    coreReady, both := CountBoth(t, s, a);
    MovesAdd(before, middle, t.of, {IdentityReady}, both);
    middle := t.of;
    rest := CountReady(t, coreReady, domainsReady);
    MovesAdd(before, middle, t.of, {IdentityReady} + both, rest);
    moved := {IdentityReady} + both + rest;
  }

  lemma MovedOne(before: map<Counter, nat>, after: map<Counter, nat>, c: Counter)
    requires forall d: Counter :: Get(after, d) == Get(before, d) + (if d == c then 1 else 0)
    ensures Moved(before, after, {c})
  {
  }

  lemma MovesAdd(a: map<Counter, nat>, b: map<Counter, nat>, c: map<Counter, nat>, x: set<Counter>, y: set<Counter>)
    requires Moved(a, b, x) && Moved(b, c, y) && x !! y
    ensures Moved(a, c, x + y)
  {
  }

  /** The markers and snapshots of an account with a uid of its own. */
  method CountReached(t: Tallies, s: Store, a: Account, valid: bool) returns (ghost moved: set<Counter>)
    requires valid == CredentialValid(a)
    modifies t
    ensures Moved(old(t.of), t.of, moved)
    ensures forall r: Repeats, c: Counter :: Reached(r, a) ==>
              (c in moved <==>
                 CountsFor(s, r, a, c) && c !in {Active, EnabledCredentials, MissingCredentials, BackfillCandidates,
                                                               DisabledCredentials, InvalidCredentials, LoginReady})
  {
    hide MarkerReady, MarkersReady, BlockSound, PeerSound, BlocksValid, PeerValid, BlocksPresent, Moved;
    ghost var before, more := t.of, {};
    var domainsReady;
    domainsReady, moved := CountDomains(t, s, a);
    DomainMoves(s, a, domainsReady, moved);
    if valid {
      ghost var middle := t.of;
      more := CountSnapshots(t, s, a, domainsReady);
      MovesAdd(before, middle, t.of, moved, more);
      moved := moved + more;
    }
  }

  /** One turn of the loop: the row moves exactly the counters that it counts for. */
  method EvaluateRow(t: Tallies, s: Store, r: Repeats, a: Account)
    modifies t
    ensures forall c: Counter :: Get(t.of, c) == Get(old(t.of), c) + (if CountsFor(s, r, a, c) then 1 else 0)
  {
    hide MarkerReady, MarkersReady, BlockSound, PeerSound, BlocksValid, PeerValid, BlocksPresent;
    if !a.active { return; }
    ghost var before := t.of;
    var valid;
    ghost var moved;
    valid, moved := CountCredential(t, a);
    ghost var middle := t.of;
    if a.user in r.users {
      t.Bump(DuplicateUserAccounts);
      return;
    }
    if valid {
      t.Bump(LoginReady);
      MovedOne(middle, t.of, LoginReady);
      MovesAdd(before, middle, t.of, moved, {LoginReady});
      moved := moved + {LoginReady};
    }
    if a.uid == "" {
      t.Bump(MissingUid);
      return;
    }
    if a.uid in r.uids {
      t.Bump(DuplicateUidAccounts);
      return;
    }
    middle := t.of;
    ghost var more := CountReached(t, s, a, valid);
    assert Reached(r, a);
    assert moved !! more;
    MovesAdd(before, middle, t.of, moved, more);
  }

  // --------------------------------------------------------------------- queues

  datatype QueueRow = QueueRow(status: string, count: int, oldestAt: Option<int>)

  const KNOWN := ["pending", "retry", "processing", "failed"]

  datatype QueueSummary = QueueSummary(
    total: nat, pending: nat, retry: nat, processing: nat, failed: nat, otherUnfinished: nat, unfinished: nat,
    oldest: Option<int>)

  function Amount(row: QueueRow): nat {
    Max(0, row.count)
  }

  /** Counting per status, in order of first appearance. */
  function CountOf(counts: seq<(string, nat)>, status: string): nat {
    if counts == [] then 0 else if counts[0].0 == status then counts[0].1 else CountOf(counts[1..], status)
  }

  function Added(counts: seq<(string, nat)>, status: string, n: nat): seq<(string, nat)> {
    if counts == [] then [(status, n)]
    else if counts[0].0 == status then [(status, counts[0].1 + n)] + counts[1..]
    else [counts[0]] + Added(counts[1..], status, n)
  }

  lemma {:induction false} AddedCount(counts: seq<(string, nat)>, status: string, n: nat, other: string)
    ensures CountOf(Added(counts, status, n), other) == CountOf(counts, other) + (if other == status then n else 0)
  {
    if counts != [] { AddedCount(counts[1..], status, n, other); }
  }

  predicate Other(status: string, terminal: set<string>) {
    status !in terminal && status !in KNOWN
  }

  function SumOther(counts: seq<(string, nat)>, terminal: set<string>): nat {
    if counts == [] then 0
    else (if Other(counts[0].0, terminal) then counts[0].1 else 0) + SumOther(counts[1..], terminal)
  }

  lemma {:induction false} AddedSum(counts: seq<(string, nat)>, status: string, n: nat, terminal: set<string>)
    ensures SumOther(Added(counts, status, n), terminal)
            == SumOther(counts, terminal) + (if Other(status, terminal) then n else 0)
  {
    if counts != [] { AddedSum(counts[1..], status, n, terminal); }
  }

  /** The items of the rows whose status satisfies a test. */
  function WithStatus(rows: seq<QueueRow>, status: string): nat {
    if rows == [] then 0
    else
      WithStatus(rows[..|rows| - 1], status)
      + (if rows[|rows| - 1].status == status then Amount(rows[|rows| - 1]) else 0)
  }

  predicate Counted(status: string, terminal: set<string>) {
    status in KNOWN || status !in terminal
  }

  function Unfinished(rows: seq<QueueRow>, terminal: set<string>): nat {
    if rows == [] then 0
    else
      Unfinished(rows[..|rows| - 1], terminal)
      + (if Counted(rows[|rows| - 1].status, terminal) then Amount(rows[|rows| - 1]) else 0)
  }

  function Total(rows: seq<QueueRow>): nat {
    if rows == [] then 0 else Total(rows[..|rows| - 1]) + Amount(rows[|rows| - 1])
  }

  /** The earliest known time of an item that is not in a terminal status. */
  ghost predicate IsOldest(rows: seq<QueueRow>, terminal: set<string>, at: Option<int>) {
    && (forall i :: 0 <= i < |rows| && Waits(rows[i], terminal) ==> at.Some? && at.value <= rows[i].oldestAt.value)
    && (at.Some? ==> exists i :: 0 <= i < |rows| && Waits(rows[i], terminal) && rows[i].oldestAt == at)
  }

  predicate Waits(row: QueueRow, terminal: set<string>) {
    row.status !in terminal && Amount(row) > 0 && row.oldestAt.Some?
  }

  /** The four statuses every queue knows, summed from the counter. */
  lemma {:induction false} UnfinishedSplits(rows: seq<QueueRow>, counts: seq<(string, nat)>, terminal: set<string>)
    requires forall status: string :: CountOf(counts, status) == WithStatus(rows, status)
    requires SumOther(counts, terminal) == SumOtherRows(rows, terminal)
    ensures CountOf(counts, "pending") + CountOf(counts, "retry") + CountOf(counts, "processing")
            + CountOf(counts, "failed")
              + SumOther(counts, terminal) == Unfinished(rows, terminal)
  {
    RowsSplit(rows, terminal);
  }

  function SumOtherRows(rows: seq<QueueRow>, terminal: set<string>): nat {
    if rows == [] then 0
    else
      SumOtherRows(rows[..|rows| - 1], terminal)
      + (if Other(rows[|rows| - 1].status, terminal) then Amount(rows[|rows| - 1]) else 0)
  }

  lemma {:induction false} RowsSplit(rows: seq<QueueRow>, terminal: set<string>)
    ensures WithStatus(rows, "pending") + WithStatus(rows, "retry") + WithStatus(rows, "processing")
            + WithStatus(rows, "failed")
              + SumOtherRows(rows, terminal) == Unfinished(rows, terminal)
  {
    if rows != [] {
      RowsSplit(rows[..|rows| - 1], terminal);
      KnownStatuses(rows[|rows| - 1].status);
    }
  }

  lemma KnownStatuses(status: string)
    ensures status in KNOWN <==>
              status == "pending" || status == "retry" || status == "processing" || status == "failed"
    ensures "pending" != "retry" && "pending" != "processing" && "pending" != "failed"
    ensures "retry" != "processing" && "retry" != "failed" && "processing" != "failed"
  {
    assert KNOWN[0] == "pending" && KNOWN[1] == "retry" && KNOWN[2] == "processing" && KNOWN[3] == "failed";
    assert |"pending"| == 7 && |"retry"| == 5 && |"processing"| == 10 && |"failed"| == 6;
  }

  /** Everything not in a terminal status is unfinished, whether its status is known or not. */
  method UnfinishedSummary(rows: seq<QueueRow>, terminal: set<string>) returns (q: QueueSummary)
    ensures q.unfinished == Unfinished(rows, terminal) && q.total == Total(rows)
    ensures q.pending == WithStatus(rows, "pending") && q.retry == WithStatus(rows, "retry")
    ensures q.processing == WithStatus(rows, "processing") && q.failed == WithStatus(rows, "failed")
    ensures q.otherUnfinished == SumOtherRows(rows, terminal)
    ensures IsOldest(rows, terminal, q.oldest)
  {
    hide Other, Waits;
    var counts: seq<(string, nat)> := [];
    var total: nat := 0;
    var oldest: Option<int> := None;
    for i := 0 to |rows|
      invariant total == Total(rows[..i])
      invariant forall status: string :: CountOf(counts, status) == WithStatus(rows[..i], status)
      invariant SumOther(counts, terminal) == SumOtherRows(rows[..i], terminal)
      invariant IsOldest(rows[..i], terminal, oldest)
    {
      var row := rows[i];
      assert rows[..i + 1][..i] == rows[..i];
      var count: nat := Max(0, row.count);
      ghost var before := counts;
      counts := Added(counts, row.status, count);
      forall status: string
        ensures CountOf(counts, status) == CountOf(before, status) + (if status == row.status then count else 0)
      {
        AddedCount(before, row.status, count, status);
      }
      AddedSum(before, row.status, count, terminal);
      total := total + count;
      OldestMore(rows, i, terminal, oldest);
      if row.status !in terminal && count > 0 && row.oldestAt.Some?
         && (oldest.None? || row.oldestAt.value < oldest.value) {
        oldest := row.oldestAt;
      }
    }
    assert rows[..|rows|] == rows;
    UnfinishedSplits(rows, counts, terminal);
    var known := CountOf(counts, "pending") + CountOf(counts, "retry") + CountOf(counts, "processing")
      + CountOf(counts, "failed");
    var other := SumOther(counts, terminal);
    q := QueueSummary(total, CountOf(counts, "pending"), CountOf(counts, "retry"), CountOf(counts, "processing"),
                      CountOf(counts, "failed"), other, known + other, oldest);
  }

  lemma OldestMore(rows: seq<QueueRow>, i: nat, terminal: set<string>, oldest: Option<int>)
    requires i < |rows| && IsOldest(rows[..i], terminal, oldest)
    ensures IsOldest(rows[..i + 1], terminal,
                     if rows[i].status !in terminal && Max(0, rows[i].count) > 0 && rows[i].oldestAt.Some?
                        && (oldest.None? || rows[i].oldestAt.value < oldest.value) then rows[i].oldestAt else oldest)
  {
    var more := rows[..i + 1];
    var at := if rows[i].status !in terminal && Max(0, rows[i].count) > 0 && rows[i].oldestAt.Some?
                 && (oldest.None? || rows[i].oldestAt.value < oldest.value) then rows[i].oldestAt else oldest;
    if at.Some? {
      if at == rows[i].oldestAt && Waits(rows[i], terminal) {
        assert more[i] == rows[i];
      } else {
        var k :| 0 <= k < i && Waits(rows[..i][k], terminal) && rows[..i][k].oldestAt == oldest;
        assert more[k] == rows[k];
      }
    }
    forall k | 0 <= k < |more| && Waits(more[k], terminal) ensures at.Some? && at.value <= more[k].oldestAt.value {
      if k < i { assert rows[..i][k] == more[k]; }
    }
  }

  // ------------------------------------------------------------------- the report

  const OUTBOX_TERMINAL := {"completed", "cancelled"}
  const ARCHIVE_TERMINAL := {"completed"}
  const DELIVERY_TERMINAL := {"delivered", "cancelled"}

  datatype Report = Report(
    providerAccounts: nat,
    of: map<Counter, nat>,
    duplicateUsers: nat,
    duplicateUids: nat,
    outbox: QueueSummary,
    archives: QueueSummary,
    deliveries: QueueSummary,
    localCoreReady: bool,
    domainDataReady: bool,
    cutoverReady: bool)

  function Users(rows: seq<Account>): seq<string> {
    seq(|rows|, i requires 0 <= i < |rows| => rows[i].user)
  }

  function Uids(rows: seq<Account>): seq<string> {
    seq(|rows|, i requires 0 <= i < |rows| => rows[i].uid)
  }

  /** The users and uids that two rows share, over all rows, active or not. */
  ghost predicate AreRepeats(r: Repeats, rows: seq<Account>) {
    && (forall v :: v in r.users <==>
          v != "" && exists i, j :: 0 <= i < j < |rows| && rows[i].user == v && rows[j].user == v)
    && (forall v :: v in r.uids <==>
          v != "" && exists i, j :: 0 <= i < j < |rows| && rows[i].uid == v && rows[j].uid == v)
  }

  ghost predicate SharedUser(rows: seq<Account>) {
    exists i, j :: 0 <= i < j < |rows| && rows[i].user == rows[j].user && rows[i].user != ""
  }

  ghost predicate SharedUid(rows: seq<Account>) {
    exists i, j :: 0 <= i < j < |rows| && rows[i].uid == rows[j].uid && rows[i].uid != ""
  }

  /** What one active account must satisfy for the cutover. */
  ghost predicate AccountReady(s: Store, a: Account) {
    a.uid != "" && CredentialValid(a) && BlockSound(s, a) && PeerSound(s, a) && MarkersReady(s, a)
  }

  /** What one active account must satisfy for its local core, and for its domain data. */
  ghost predicate CoreSound(s: Store, a: Account) {
    a.uid != "" && CredentialValid(a) && BlockSound(s, a) && PeerSound(s, a)
  }

  ghost predicate DomainsSound(s: Store, a: Account) {
    a.uid != "" && MarkersReady(s, a)
  }

  /** A counter reaches the number of active rows exactly when it counts every one of them. */
  lemma {:induction false} TallyIsAll(s: Store, r: Repeats, rows: seq<Account>, c: Counter)
    requires forall a: Account :: CountsFor(s, r, a, c) ==> a.active
    ensures Tally(s, r, rows, c) <= Tally(s, r, rows, Active)
    ensures (Tally(s, r, rows, c) == Tally(s, r, rows, Active))
              <==> (forall i :: 0 <= i < |rows| && rows[i].active ==> CountsFor(s, r, rows[i], c))
  {
    hide CountsFor;
    ActiveCounts(s, r);
    if rows != [] {
      var n := |rows| - 1;
      var rest := rows[..n];
      TallyIsAll(s, r, rest, c);
      if forall i :: 0 <= i < |rest| && rest[i].active ==> CountsFor(s, r, rest[i], c) {
        forall i | 0 <= i < n && rows[i].active ensures CountsFor(s, r, rows[i], c) { assert rest[i] == rows[i]; }
      } else {
        var i :| 0 <= i < |rest| && rest[i].active && !CountsFor(s, r, rest[i], c);
        assert rows[i] == rest[i];
      }
    }
  }

  lemma ActiveCounts(s: Store, r: Repeats)
    ensures forall a: Account :: CountsFor(s, r, a, Active) == a.active
  {
  }

  lemma {:induction false} SomeActive(s: Store, r: Repeats, rows: seq<Account>)
    ensures Tally(s, r, rows, Active) > 0 <==> exists i :: 0 <= i < |rows| && rows[i].active
  {
    hide CountsFor;
    ActiveCounts(s, r);
    if rows != [] {
      var n := |rows| - 1;
      SomeActive(s, r, rows[..n]);
      if i :| 0 <= i < n && rows[..n][i].active { assert rows[i].active; }
      if i :| 0 <= i < |rows| && rows[i].active { if i < n { assert rows[..n][i].active; } }
    }
  }

  /** The rows of an evaluation, one after the other. */
  method EvaluateRows(s: Store, r: Repeats, rows: seq<Account>) returns (of: map<Counter, nat>)
    ensures forall c: Counter :: Get(of, c) == Tally(s, r, rows, c)
  {
    hide CountsFor;
    var t := new Tallies();
    for i := 0 to |rows|
      invariant forall c: Counter :: Get(t.of, c) == Tally(s, r, rows[..i], c)
    {
      ghost var before := t.of;
      EvaluateRow(t, s, r, rows[i]);
      forall c: Counter ensures Get(t.of, c) == Tally(s, r, rows[..i + 1], c) { TallyMore(s, r, rows, i, c); }
    }
    assert rows[..|rows|] == rows;
    of := t.of;
  }

  method FindRepeats(rows: seq<Account>) returns (r: Repeats)
    ensures AreRepeats(r, rows)
  {
    var users := RepeatedValues(Users(rows));
    var uids := RepeatedValues(Uids(rows));
    r := Repeats(users, uids);
    ghost var names, ids := Users(rows), Uids(rows);
    assert forall i :: 0 <= i < |rows| ==> names[i] == rows[i].user && ids[i] == rows[i].uid;
    forall v
      ensures v in r.users <==> v != "" && exists i, j :: 0 <= i < j < |rows| && rows[i].user == v && rows[j].user == v
    {
      if i, j :| 0 <= i < j < |rows| && rows[i].user == v && rows[j].user == v {
        assert names[i] == v && names[j] == v;
      }
      if i, j :| 0 <= i < j < |names| && names[i] == v && names[j] == v {
        assert rows[i].user == v && rows[j].user == v;
      }
    }
    forall v
      ensures v in r.uids <==> v != "" && exists i, j :: 0 <= i < j < |rows| && rows[i].uid == v && rows[j].uid == v
    {
      if i, j :| 0 <= i < j < |rows| && rows[i].uid == v && rows[j].uid == v { assert ids[i] == v && ids[j] == v; }
      if i, j :| 0 <= i < j < |ids| && ids[i] == v && ids[j] == v { assert rows[i].uid == v && rows[j].uid == v; }
    }
  }

  lemma NoRepeats(r: Repeats, rows: seq<Account>)
    requires AreRepeats(r, rows)
    ensures r.users == {} <==> !SharedUser(rows)
    ensures r.uids == {} <==> !SharedUid(rows)
  {
    if SharedUser(rows) {
      var i, j :| 0 <= i < j < |rows| && rows[i].user == rows[j].user && rows[i].user != "";
      assert rows[i].user in r.users;
    }
    if SharedUid(rows) {
      var i, j :| 0 <= i < j < |rows| && rows[i].uid == rows[j].uid && rows[i].uid != "";
      assert rows[i].uid in r.uids;
    }
    if r.users != {} { var v :| v in r.users; }
    if r.uids != {} { var v :| v in r.uids; }
  }

  /** Without repeats, every active row counts for the cutover exactly when it is ready. */
  lemma AllCounted(s: Store, r: Repeats, rows: seq<Account>, c: Counter)
    requires c in {CoreReady, AllDomainsReady, CutoverReady}
    ensures var ready := Tally(s, r, rows, c) == Tally(s, r, rows, Active);
            ready <==> forall i :: 0 <= i < |rows| && rows[i].active ==> CountsFor(s, r, rows[i], c)
  {
    CountsOnlyActive(s, r, c);
    TallyIsAll(s, r, rows, c);
  }

  lemma CountsOnlyActive(s: Store, r: Repeats, c: Counter)
    ensures forall a: Account :: CountsFor(s, r, a, c) ==> a.active
  {
  }

  /** The report.  The cutover is ready exactly when some account is active, every active
      account is ready in every respect, no user or uid is shared by two rows, the three
      queues have nothing unfinished, and the object store is ready. */
  method EvaluateReadiness(s: Store, rows: seq<Account>, outboxRows: seq<QueueRow>, archiveRows: seq<QueueRow>,
                           deliveryRows: seq<QueueRow>, r2Ready: bool)
    returns (report: Report, ghost r: Repeats)
    ensures AreRepeats(r, rows) && report.providerAccounts == |rows|
    ensures forall c: Counter :: Get(report.of, c) == Tally(s, r, rows, c)
    ensures report.duplicateUsers == |r.users| && report.duplicateUids == |r.uids|
    ensures report.outbox.unfinished == Unfinished(outboxRows, OUTBOX_TERMINAL)
    ensures report.archives.unfinished == Unfinished(archiveRows, ARCHIVE_TERMINAL)
    ensures report.deliveries.unfinished == Unfinished(deliveryRows, DELIVERY_TERMINAL)
    ensures report.localCoreReady <==>
              && (exists i :: 0 <= i < |rows| && rows[i].active)
              && (forall i :: 0 <= i < |rows| && rows[i].active ==> CoreSound(s, rows[i]))
              && !SharedUser(rows) && !SharedUid(rows)
    ensures report.domainDataReady <==>
              && (exists i :: 0 <= i < |rows| && rows[i].active)
              && (forall i :: 0 <= i < |rows| && rows[i].active ==> DomainsSound(s, rows[i]))
              && !SharedUser(rows) && !SharedUid(rows)
    ensures report.cutoverReady <==>
              && (exists i :: 0 <= i < |rows| && rows[i].active)
              && (forall i :: 0 <= i < |rows| && rows[i].active ==> AccountReady(s, rows[i]))
              && !SharedUser(rows) && !SharedUid(rows)
              && Unfinished(outboxRows, OUTBOX_TERMINAL) == 0
              && Unfinished(archiveRows, ARCHIVE_TERMINAL) == 0
              && Unfinished(deliveryRows, DELIVERY_TERMINAL) == 0
              && r2Ready
  {
    hide CountsFor, AreRepeats, Unfinished, Tally, AccountReady, SharedUser, SharedUid, CoreSound, DomainsSound;
    var repeats := FindRepeats(rows);
    r := repeats;
    var of := EvaluateRows(s, repeats, rows);
    var outbox := UnfinishedSummary(outboxRows, OUTBOX_TERMINAL);
    var archives := UnfinishedSummary(archiveRows, ARCHIVE_TERMINAL);
    var deliveries := UnfinishedSummary(deliveryRows, DELIVERY_TERMINAL);
    var active := Get(of, Active);
    var unique := repeats.users == {} && repeats.uids == {};
    var localCoreReady := active > 0 && Get(of, CoreReady) == active && unique;
    var domainDataReady := active > 0 && Get(of, AllDomainsReady) == active && unique;
    var cutoverReady := localCoreReady && domainDataReady && Get(of, CutoverReady) == active
                        && outbox.unfinished == 0 && archives.unfinished == 0 && deliveries.unfinished == 0 && r2Ready;
    CutoverMeans(s, repeats, rows);
    PartsMean(s, repeats, rows);
    report := Report(|rows|, of, |repeats.users|, |repeats.uids|, outbox, archives, deliveries,
                     localCoreReady, domainDataReady, cutoverReady);
  }

  /** What the counters together say about the accounts. */
  lemma CutoverMeans(s: Store, r: Repeats, rows: seq<Account>)
    requires AreRepeats(r, rows)
    ensures var active := Tally(s, r, rows, Active);
            (&& active > 0 && Tally(s, r, rows, CoreReady) == active && Tally(s, r, rows, AllDomainsReady) == active
             && Tally(s, r, rows, CutoverReady) == active && r.users == {} && r.uids == {})
            <==>
            (&& (exists i :: 0 <= i < |rows| && rows[i].active)
             && (forall i :: 0 <= i < |rows| && rows[i].active ==> AccountReady(s, rows[i]))
             && !SharedUser(rows) && !SharedUid(rows))
  {
    hide AreRepeats, SharedUser, SharedUid, AccountReady, CountsFor;
    NoRepeats(r, rows);
    SomeActive(s, r, rows);
    AllCounted(s, r, rows, CoreReady);
    AllCounted(s, r, rows, AllDomainsReady);
    AllCounted(s, r, rows, CutoverReady);
    if r.users == {} && r.uids == {} { ReadyMeansCounted(s, r); }
  }

  /** The two halves of the cutover, each on its own. */
  lemma PartsMean(s: Store, r: Repeats, rows: seq<Account>)
    requires AreRepeats(r, rows)
    ensures var active := Tally(s, r, rows, Active);
            var unique := r.users == {} && r.uids == {};
            && (active > 0 && Tally(s, r, rows, CoreReady) == active && unique <==>
                  && (exists i :: 0 <= i < |rows| && rows[i].active)
                  && (forall i :: 0 <= i < |rows| && rows[i].active ==> CoreSound(s, rows[i]))
                  && !SharedUser(rows) && !SharedUid(rows))
            && (active > 0 && Tally(s, r, rows, AllDomainsReady) == active && unique <==>
                  && (exists i :: 0 <= i < |rows| && rows[i].active)
                  && (forall i :: 0 <= i < |rows| && rows[i].active ==> DomainsSound(s, rows[i]))
                  && !SharedUser(rows) && !SharedUid(rows))
  {
    hide AreRepeats, SharedUser, SharedUid, CountsFor, CoreSound, DomainsSound;
    NoRepeats(r, rows);
    SomeActive(s, r, rows);
    AllCounted(s, r, rows, CoreReady);
    AllCounted(s, r, rows, AllDomainsReady);
    if r.users == {} && r.uids == {} { PartsMeanCounted(s, r); }
  }

  lemma PartsMeanCounted(s: Store, r: Repeats)
    requires r.users == {} && r.uids == {}
    ensures forall a: Account :: a.active ==> (CountsFor(s, r, a, CoreReady) <==> CoreSound(s, a))
    ensures forall a: Account :: a.active ==> (CountsFor(s, r, a, AllDomainsReady) <==> DomainsSound(s, a))
  {
    hide MarkerReady, MarkersReady, BlockSound, PeerSound, BlocksValid, PeerValid, BlocksPresent;
  }

  lemma ReadyMeansCounted(s: Store, r: Repeats)
    requires r.users == {} && r.uids == {}
    ensures forall a: Account :: a.active ==> (CountsFor(s, r, a, CutoverReady) <==> AccountReady(s, a))
    ensures forall a: Account :: CountsFor(s, r, a, CutoverReady) ==>
              CountsFor(s, r, a, CoreReady) && CountsFor(s, r, a, AllDomainsReady)
  {
    hide MarkerReady, MarkersReady, BlockSound, PeerSound, BlocksValid, PeerValid, BlocksPresent;
  }

  // ---------------------------------------------------------- how counters relate

  lemma {:induction false} TallyAtMost(s: Store, r: Repeats, rows: seq<Account>, c: Counter, d: Counter)
    requires forall a: Account :: CountsFor(s, r, a, c) ==> CountsFor(s, r, a, d)
    ensures Tally(s, r, rows, c) <= Tally(s, r, rows, d)
  {
    hide CountsFor;
    if rows != [] { TallyAtMost(s, r, rows[..|rows| - 1], c, d); }
  }

  lemma MediaNeedsBoth(s: Store, a: Account)
    requires MarkerReady(s, a, Media)
    ensures MarkerReady(s, a, Social) && MarkerReady(s, a, Moments)
  {
  }

  /** Media-ready accounts never outnumber social-ready or moments-ready ones. */
  lemma MediaReadyIsRarest(s: Store, r: Repeats, rows: seq<Account>)
    ensures Tally(s, r, rows, DomainReady(Media)) <= Tally(s, r, rows, DomainReady(Social))
    ensures Tally(s, r, rows, DomainReady(Media)) <= Tally(s, r, rows, DomainReady(Moments))
  {
    forall a: Account | CountsFor(s, r, a, DomainReady(Media))
      ensures CountsFor(s, r, a, DomainReady(Social)) && CountsFor(s, r, a, DomainReady(Moments))
    {
      MediaNeedsBoth(s, a);
    }
    TallyAtMost(s, r, rows, DomainReady(Media), DomainReady(Social));
    TallyAtMost(s, r, rows, DomainReady(Media), DomainReady(Moments));
  }

  /** For every domain the counters partition the active accounts. */
  lemma {:induction false} DomainsPartition(s: Store, r: Repeats, rows: seq<Account>, d: Domain)
    ensures Tally(s, r, rows, Active) ==
              Tally(s, r, rows, DuplicateUserAccounts) + Tally(s, r, rows, MissingUid)
              + Tally(s, r, rows, DuplicateUidAccounts)
              + Tally(s, r, rows, DomainReady(d)) + Tally(s, r, rows, DomainMissing(d))
              + Tally(s, r, rows, DomainInvalid(d))
  {
    if rows != [] {
      DomainsPartition(s, r, rows[..|rows| - 1], d);
      DomainOfOne(s, r, rows[|rows| - 1], d);
    }
  }

  function One(s: Store, r: Repeats, a: Account, c: Counter): nat {
    if CountsFor(s, r, a, c) then 1 else 0
  }

  lemma DomainOfOne(s: Store, r: Repeats, a: Account, d: Domain)
    ensures One(s, r, a, Active) ==
              One(s, r, a, DuplicateUserAccounts) + One(s, r, a, MissingUid) + One(s, r, a, DuplicateUidAccounts)
              + One(s, r, a, DomainReady(d)) + One(s, r, a, DomainMissing(d)) + One(s, r, a, DomainInvalid(d))
  {
    hide ValidDomainMarker, MediaPrerequisites;
  }

  /** Credentials partition the active accounts; snapshots partition the identified ones. */
  lemma {:induction false} OthersPartition(s: Store, r: Repeats, rows: seq<Account>)
    ensures Tally(s, r, rows, Active) ==
              Tally(s, r, rows, EnabledCredentials) + Tally(s, r, rows, DisabledCredentials)
              + Tally(s, r, rows, MissingCredentials)
    ensures Tally(s, r, rows, IdentityReady) ==
              Tally(s, r, rows, BlockReady) + Tally(s, r, rows, BlockMissing) + Tally(s, r, rows, BlockInvalid)
    ensures Tally(s, r, rows, IdentityReady) ==
              Tally(s, r, rows, PeerReady) + Tally(s, r, rows, PeerMissing) + Tally(s, r, rows, PeerInvalid)
  {
    if rows != [] {
      OthersPartition(s, r, rows[..|rows| - 1]);
      OthersOfOne(s, r, rows[|rows| - 1]);
    }
  }

  lemma OthersOfOne(s: Store, r: Repeats, a: Account)
    ensures One(s, r, a, Active)
            == One(s, r, a, EnabledCredentials) + One(s, r, a, DisabledCredentials) + One(s, r, a, MissingCredentials)
    ensures One(s, r, a, IdentityReady)
            == One(s, r, a, BlockReady) + One(s, r, a, BlockMissing) + One(s, r, a, BlockInvalid)
    ensures One(s, r, a, IdentityReady)
            == One(s, r, a, PeerReady) + One(s, r, a, PeerMissing) + One(s, r, a, PeerInvalid)
  {
    hide ValidBlockMarker, ValidPeerMarker;
  }

  // ---------------------------------------------------- what readiness rests on

  /** Sixty-four lower-case hexadecimal digits. */
  ghost predicate Hex(digest: string) {
    && |digest| == 64
    && forall i :: 0 <= i < 64 ==> '0' <= digest[i] <= '9' || 'a' <= digest[i] <= 'f'
  }

  lemma HexDigit(c: char)
    ensures c in "0123456789abcdef" <==> '0' <= c <= '9' || 'a' <= c <= 'f'
  {
    var digits := "0123456789abcdef";
    assert digits[0] == '0' && digits[1] == '1' && digits[2] == '2' && digits[3] == '3' && digits[4] == '4';
    assert digits[5] == '5' && digits[6] == '6' && digits[7] == '7' && digits[8] == '8' && digits[9] == '9';
    assert digits[10] == 'a' && digits[11] == 'b' && digits[12] == 'c' && digits[13] == 'd' && digits[14] == 'e';
    assert digits[15] == 'f';
  }

  lemma ValidIsHex(digest: string)
    ensures ValidDigest(digest) <==> Hex(digest)
  {
    if Hex(digest) {
      forall c | c in digest ensures IsDigit(c) {
        var i :| 0 <= i < |digest| && digest[i] == c;
        HexDigit(c);
      }
    }
    if ValidDigest(digest) {
      forall i | 0 <= i < 64 ensures '0' <= digest[i] <= '9' || 'a' <= digest[i] <= 'f' {
        assert IsDigit(digest[i]);
        HexDigit(digest[i]);
      }
    }
  }

  /** The message peers of an account are valid exactly when a marker for that very account and
      uid says so, counts at most five thousand and carries a digest. */
  lemma PeersValidExactlyWhen(s: Store, a: Account)
    ensures PeerValid(s, a) <==>
              && a.user in s.peers
              && s.peers[a.user].sound && s.peers[a.user].external == a.external && s.peers[a.user].uid == a.uid
              && 0 <= s.peers[a.user].peerCount <= 5000 && Hex(s.peers[a.user].digest)
  {
    if a.user in s.peers { ValidIsHex(s.peers[a.user].digest); }
  }

  /** A marker that is sound, belongs to this account and uid, and carries a digest. */
  ghost predicate OwnMarker(m: DomainMarker, a: Account) {
    m.sound && m.external == a.external && m.uid == a.uid && Hex(m.digest)
  }

  /** Social, moments and discovery data are ready exactly when a marker of the account's own
      is there. */
  lemma DomainReadyExactlyWhen(s: Store, a: Account, d: Domain)
    requires d != Media
    ensures MarkerReady(s, a, d) <==> (a.user, d) in s.domains && OwnMarker(s.domains[(a.user, d)], a)
  {
    if (a.user, d) in s.domains { ValidIsHex(s.domains[(a.user, d)].digest); }
  }

  /** Media data are ready exactly when, besides its own marker, the social and moments data are
      ready and the message peers valid; the marker names the digests of these three and no
      other; it covers two directions for every peer, up to a million messages, and between
      one and a thousand pages per direction. */
  lemma MediaReadyExactlyWhen(s: Store, a: Account)
    ensures MarkerReady(s, a, Media) <==>
              && (a.user, Media) in s.domains && OwnMarker(s.domains[(a.user, Media)], a)
              && MarkerReady(s, a, Social) && MarkerReady(s, a, Moments) && PeerValid(s, a)
              && var m, peer := s.domains[(a.user, Media)], s.peers[a.user];
              && m.prerequisites == map["social" := s.domains[(a.user, Social)].digest,
                                        "moments" := s.domains[(a.user, Moments)].digest,
                                        "message_peer" := peer.digest]
              && m.directions == 2 * peer.peerCount && 0 <= m.messages <= 1_000_000
              && m.directions <= m.pages <= 1000 * m.directions
  {
    hide ValidDigest, ValidHistory, ValidPeerMarker, Hex;
    if (a.user, Media) in s.domains {
      var m := s.domains[(a.user, Media)];
      ValidIsHex(m.digest);
      if a.user in s.peers { HistoryFits(m, s.peers[a.user], a); }
    }
  }

  lemma HistoryFits(m: DomainMarker, peer: PeerMarker, a: Account)
    ensures ValidPeerMarker(peer, a) ==> ValidDigest(peer.digest) && peer.peerCount >= 0
    ensures ValidPeerMarker(peer, a) ==>
              (ValidHistory(m, peer.peerCount) <==>
                 && m.directions == 2 * peer.peerCount && 0 <= m.messages <= 1_000_000
                 && m.directions <= m.pages <= 1000 * m.directions)
  {
  }

  /** A marker of one kind of block that is sound and belongs to this account and uid. */
  ghost predicate OwnBlocks(s: Store, a: Account, kind: BlockKind) {
    && (a.user, kind) in s.blocks
    && s.blocks[(a.user, kind)].sound && s.blocks[(a.user, kind)].external == a.external
    && s.blocks[(a.user, kind)].uid == a.uid
  }

  /** The blocks of an account are sound exactly when both markers and the stored rows are. */
  lemma BlocksSoundExactlyWhen(s: Store, a: Account)
    ensures BlockSound(s, a) <==>
              && OwnBlocks(s, a, Blacklist) && OwnBlocks(s, a, BlacklistedBy)
              && (a.user, a.uid) in s.soundBlockRows
  {
  }

  /** What one active account needs, column by column: a uid, an enabled credential with a safe
      hash, sound blocks, valid peers whose stored rows are sound, and ready data in every
      domain. */
  lemma AccountReadyExactlyWhen(s: Store, a: Account)
    ensures AccountReady(s, a) <==> CoreSound(s, a) && DomainsSound(s, a)
    ensures CoreSound(s, a) <==>
              && a.uid != "" && a.credential == EnabledCredential(true) && BlockSound(s, a)
              && PeerValid(s, a) && (a.user, a.uid, s.peers[a.user]) in s.soundPeerRows
    ensures DomainsSound(s, a) <==> a.uid != "" && forall d: Domain :: MarkerReady(s, a, d)
  {
    hide MarkerReady, BlockSound, PeerValid;
    if MarkersReady(s, a) {
      forall d: Domain ensures MarkerReady(s, a, d) {
        match d
        case Social =>
        case Moments =>
        case Discovery =>
        case Media =>
      }
    }
  }

  /** Whether another row carries the same, non-empty user, or uid. */
  ghost predicate UserRepeats(rows: seq<Account>, i: nat)
    requires i < |rows|
  {
    rows[i].user != "" && exists j :: 0 <= j < |rows| && j != i && rows[j].user == rows[i].user
  }

  ghost predicate UidRepeats(rows: seq<Account>, i: nat)
    requires i < |rows|
  {
    rows[i].uid != "" && exists j :: 0 <= j < |rows| && j != i && rows[j].uid == rows[i].uid
  }

  lemma RepeatsOfRow(rows: seq<Account>, r: Repeats, i: nat)
    requires AreRepeats(r, rows) && i < |rows|
    ensures rows[i].user in r.users <==> UserRepeats(rows, i)
    ensures rows[i].uid in r.uids <==> UidRepeats(rows, i)
  {
    if rows[i].user in r.users {
      var j, k :| 0 <= j < k < |rows| && rows[j].user == rows[i].user && rows[k].user == rows[i].user;
      assert j != i || k != i;
    }
    if rows[i].uid in r.uids {
      var j, k :| 0 <= j < k < |rows| && rows[j].uid == rows[i].uid && rows[k].uid == rows[i].uid;
      assert j != i || k != i;
    }
  }

  /** What a row counts for before its markers are looked at, in terms of the rows alone.  A
      duplicate user counts for nothing else but its credential; a duplicate or missing uid
      stops at the login. */
  lemma RowCountsExactly(s: Store, rows: seq<Account>, r: Repeats, i: nat)
    requires AreRepeats(r, rows) && i < |rows|
    ensures var a := rows[i];
            && (CountsFor(s, r, a, InvalidCredentials) <==> a.active && a.credential == EnabledCredential(false))
            && (CountsFor(s, r, a, BackfillCandidates) <==> a.active && a.credential == NoCredential(true))
            && (CountsFor(s, r, a, DuplicateUserAccounts) <==> a.active && UserRepeats(rows, i))
            && (CountsFor(s, r, a, LoginReady) <==>
                  a.active && a.credential == EnabledCredential(true) && !UserRepeats(rows, i))
            && (CountsFor(s, r, a, MissingUid) <==> a.active && !UserRepeats(rows, i) && a.uid == "")
            && (CountsFor(s, r, a, DuplicateUidAccounts) <==>
                  a.active && !UserRepeats(rows, i) && UidRepeats(rows, i))
            && (CountsFor(s, r, a, IdentityReady) <==>
                  CountsFor(s, r, a, LoginReady) && a.uid != "" && !UidRepeats(rows, i))
  {
    hide AreRepeats, UserRepeats, UidRepeats, MarkerReady, BlockSound, PeerSound;
    RepeatsOfRow(rows, r, i);
    NoEmptyUid(rows, i);
  }

  lemma NoEmptyUid(rows: seq<Account>, i: nat)
    requires i < |rows|
    ensures UidRepeats(rows, i) ==> rows[i].uid != ""
  {
  }

  /** A queue has nothing unfinished exactly when every row with items is in a terminal
      status; for the three queues' own terminal statuses. */
  lemma {:induction false} NothingUnfinishedExactlyWhen(rows: seq<QueueRow>, terminal: set<string>)
    requires terminal !! {"pending", "retry", "processing", "failed"}
    ensures Unfinished(rows, terminal) == 0 <==>
              forall i :: 0 <= i < |rows| && rows[i].count > 0 ==> rows[i].status in terminal
  {
    if rows != [] {
      var n := |rows| - 1;
      NothingUnfinishedExactlyWhen(rows[..n], terminal);
      KnownStatuses(rows[n].status);
      if forall i :: 0 <= i < n && rows[..n][i].count > 0 ==> rows[..n][i].status in terminal {
        forall i | 0 <= i < n && rows[i].count > 0
          ensures rows[i].status in terminal
        {
          assert rows[..n][i] == rows[i];
        }
      } else {
        var i :| 0 <= i < n && rows[..n][i].count > 0 && rows[..n][i].status !in terminal;
        assert rows[i] == rows[..n][i];
      }
    }
  }

  lemma TerminalStatuses()
    ensures OUTBOX_TERMINAL == {"completed", "cancelled"} && ARCHIVE_TERMINAL == {"completed"}
    ensures DELIVERY_TERMINAL == {"delivered", "cancelled"}
    ensures OUTBOX_TERMINAL !! {"pending", "retry", "processing", "failed"}
    ensures ARCHIVE_TERMINAL !! {"pending", "retry", "processing", "failed"}
    ensures DELIVERY_TERMINAL !! {"pending", "retry", "processing", "failed"}
  {
    assert "completed"[0] == 'c' && "cancelled"[0] == 'c' && "delivered"[0] == 'd';
    assert "pending"[0] == 'p' && "retry"[0] == 'r' && "processing"[0] == 'p' && "failed"[0] == 'f';
  }
}
