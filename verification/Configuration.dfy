/** Exactly which policies an owner may submit, and what configuring and disabling store. */
module Configuration {
  import opened Vocabulary
  import opened Policies

  // ----------------------------------------------------------------- acceptance

  datatype Capability = Replies | Posts | Relationships | Discovery | Matching | Messages | DiscoveredFollow | Friends

  /** The switch of each capability. */
  predicate On(c: PolicyContent, capability: Capability) {
    match capability
    case Replies => c.autoReply
    case Posts => c.scheduledPosts
    case Relationships => c.managedRelationships
    case Discovery => c.discovery
    case Matching => c.textMatch
    case Messages => c.proactiveMessages
    case DiscoveredFollow => c.followDiscovered
    case Friends => c.friendRequests
  }

  /** What a capability needs besides its switch: its action, and a daily budget where it has
      one; relationships need one direction, not both, and someone to act on. */
  predicate Supported(c: PolicyContent, capability: Capability) {
    match capability
    case Replies => SendPrivateMessage in c.allowedActions && c.dailyReply > 0
    case Posts => PublishTextPost in c.allowedActions && c.dailyPost > 0
    case Relationships =>
      && ((FollowUser in c.allowedActions) != (UnfollowUser in c.allowedActions))
      && c.targets != [] && c.dailyRelationship > 0
    case Discovery => BrowseOnlineUsers in c.allowedActions
    case Matching => RequestTextMatch in c.allowedActions
    case Messages => SendPrivateMessage in c.allowedActions && c.dailyReply > 0
    case DiscoveredFollow => FollowUser in c.allowedActions && c.dailyRelationship > 0
    case Friends => RequestFriend in c.allowedActions && c.dailyRelationship > 0
  }

  /** The limits that every submitted policy must respect, enabled or not. */
  predicate InBounds(c: PolicyContent) {
    && (forall target :: target in c.targets ==> ValidTarget(target))
    && |set target | target in c.targets| <= 100 && |c.brief| <= 4000
    && 0 <= c.activeStart <= 1439 && 0 <= c.activeEnd <= 1439
    && 10 <= c.minimumInterval <= 86_400 && 1 <= c.dailyTotal <= 200
    && 0 <= c.dailyReply <= c.dailyTotal
    && 0 <= c.dailyPost <= c.dailyTotal && c.dailyPost <= 20
    && 0 <= c.dailyRelationship <= c.dailyTotal && c.dailyRelationship <= 100
    && 60 <= c.postIntervalMinutes <= 10_080 && 10 <= c.discoveryIntervalSeconds <= 86_400
    && 1 <= c.failureLimit <= 20
  }

  lemma {:induction false} RepeatsCount<T(!new)>(values: seq<T>)
    ensures |WithoutRepeats(values)| == |set v | v in values|
  {
    if values != [] {
      var n := |values| - 1;
      var rest, last := values[..n], values[n];
      var before := set v | v in rest;
      RepeatsCount(rest);
      assert values == rest + [last];
      assert (set v | v in values) == before + {last};
      assert last in before <==> last in WithoutRepeats(rest);
      if last in before { assert before + {last} == before; }
    }
  }

  lemma CapabilitiesBroken(c: PolicyContent)
    requires c.userEnabled
    ensures (exists k: Capability :: On(c, k)) <==> c.(userEnabled := false).AnyCapability()
    ensures (forall k: Capability :: On(c, k) ==> Supported(c, k)) <==>
              && (c.autoReply ==> On(c, Replies) && Supported(c, Replies))
              && (c.scheduledPosts ==> Supported(c, Posts))
              && (c.managedRelationships ==> Supported(c, Relationships))
              && (c.discovery ==> Supported(c, Discovery))
              && (c.textMatch ==> Supported(c, Matching))
              && (c.proactiveMessages ==> Supported(c, Messages))
              && (c.followDiscovered ==> Supported(c, DiscoveredFollow))
              && (c.friendRequests ==> Supported(c, Friends))
  {
    if c.autoReply { assert On(c, Replies); }
    if c.scheduledPosts { assert On(c, Posts); }
    if c.managedRelationships { assert On(c, Relationships); }
    if c.discovery { assert On(c, Discovery); }
    if c.textMatch { assert On(c, Matching); }
    if c.proactiveMessages { assert On(c, Messages); }
    if c.followDiscovered { assert On(c, DiscoveredFollow); }
    if c.friendRequests { assert On(c, Friends); }
  }

  /** A policy is accepted exactly when it respects the limits and, if the owner is enabled,
      some capability is on and every one that is on has what it needs. */
  lemma AcceptedExactlyWhen(row: Setting, request: PolicyContent, now: int)
    ensures Configure(row, request, now).Success? <==>
              && InBounds(request)
              && (request.userEnabled ==>
                    && (exists k: Capability :: On(request, k))
                    && (forall k: Capability :: On(request, k) ==> Supported(request, k)))
  {
    hide StoredContent, ValidTarget, WithoutRepeats, On, Supported;
    RepeatsCount(request.targets);
    if request.userEnabled {
      EnabledBroken(request);
    } else {
      DisabledBroken(request);
    }
  }

  lemma EnabledBroken(c: PolicyContent)
    requires c.userEnabled && |WithoutRepeats(c.targets)| == |set target | target in c.targets|
    ensures Problem(c).None? <==>
              && InBounds(c) && (exists k: Capability :: On(c, k))
              && (forall k: Capability :: On(c, k) ==> Supported(c, k))
  {
    hide ValidTarget, WithoutRepeats, Problem;
    CapabilitiesBroken(c);
    if Problem(c).None? { NothingBroken(c); } else { SomethingBroken(c); }
  }

  lemma NothingBroken(c: PolicyContent)
    requires c.userEnabled && |WithoutRepeats(c.targets)| == |set target | target in c.targets|
    requires Problem(c).None?
    ensures InBounds(c) && c.(userEnabled := false).AnyCapability()
    ensures forall k: Capability :: On(c, k) ==> Supported(c, k)
  {
    hide ValidTarget, WithoutRepeats;
  }

  lemma SomethingBroken(c: PolicyContent)
    requires c.userEnabled && |WithoutRepeats(c.targets)| == |set target | target in c.targets|
    requires Problem(c).Some?
    ensures !(InBounds(c) && c.(userEnabled := false).AnyCapability()
              && forall k: Capability :: On(c, k) ==> Supported(c, k))
  {
    hide ValidTarget, WithoutRepeats;
    if forall k: Capability :: On(c, k) ==> Supported(c, k) { CapabilitiesBroken(c); }
  }

  lemma DisabledBroken(c: PolicyContent)
    requires !c.userEnabled && |WithoutRepeats(c.targets)| == |set target | target in c.targets|
    ensures Problem(c).None? <==> InBounds(c)
  {
    hide ValidTarget, WithoutRepeats;
  }

  // ------------------------------------------------------------------- storing

  /** What is stored of an accepted policy.  A disabled owner keeps no capability.  The reply
      watermark is the moment replies were switched on: it is kept while they stay on, and
      cleared with them.  Lists lose their repeats and nothing else; everything else is
      stored as submitted. */
  lemma StoredAsSubmitted(previous: PolicyContent, request: PolicyContent, now: int)
    ensures var c := StoredContent(previous, request, now);
            && c.userEnabled == request.userEnabled
            && (forall k: Capability :: On(c, k) <==> request.userEnabled && On(request, k))
            && (!c.autoReply ==> c.autoReplyStartedAt == None)
            && (c.autoReply ==>
                  c.autoReplyStartedAt ==
                    if previous.autoReply && previous.autoReplyStartedAt.Some? then previous.autoReplyStartedAt
                    else Some(now))
            && (forall a :: a in c.allowedActions <==> a in request.allowedActions)
            && (forall t :: t in c.targets <==> t in request.targets)
            && (forall i, j :: 0 <= i < j < |c.allowedActions| ==> c.allowedActions[i] != c.allowedActions[j])
            && (forall i, j :: 0 <= i < j < |c.targets| ==> c.targets[i] != c.targets[j])
            && c.brief == request.brief && c.zoneOffset == request.zoneOffset
            && c.activeStart == request.activeStart && c.activeEnd == request.activeEnd
            && c.minimumInterval == request.minimumInterval && c.dailyTotal == request.dailyTotal
            && c.dailyReply == request.dailyReply && c.dailyPost == request.dailyPost
            && c.dailyRelationship == request.dailyRelationship
            && c.postIntervalMinutes == request.postIntervalMinutes
            && c.discoveryIntervalSeconds == request.discoveryIntervalSeconds
            && c.failureLimit == request.failureLimit
  {
    hide WithoutRepeats;
  }

  /** The lists keep the order of first appearance. */
  lemma {:induction false} RepeatsKeepOrder<T(!new)>(values: seq<T>, more: seq<T>)
    ensures WithoutRepeats(values) <= WithoutRepeats(values + more)
  {
    if more == [] {
      assert values + more == values;
    } else {
      var n := |more| - 1;
      RepeatsKeepOrder(values, more[..n]);
      assert (values + more)[..|values + more| - 1] == values + more[..n];
    }
  }

  /** The minutes column rounds the seconds up, between five minutes and a day; ten seconds,
      the default, is half an hour. */
  lemma MinutesColumn(previous: PolicyContent, request: PolicyContent, now: int)
    requires 10 <= request.discoveryIntervalSeconds <= 86_400
    ensures var minutes := StoredContent(previous, request, now).discoveryIntervalMinutes;
            var seconds := request.discoveryIntervalSeconds;
            && 5 <= minutes <= 1440
            && (seconds == 10 ==> minutes == 30)
            && (10 < seconds <= 300 ==> minutes == 5)
            && (seconds > 300 ==> (minutes - 1) * 60 < seconds <= minutes * 60)
  {
  }

  /** Configuring stores the content under a new version exactly when it differs; and when it
      differs, or the owner was halted, clears the streak, lifts the halt and makes an
      enabled owner due now.  Nothing else of the row moves. */
  lemma ConfigureStores(row: Setting, request: PolicyContent, now: int)
    requires Configure(row, request, now).Success?
    ensures var after := Configure(row, request, now).value;
            var c := StoredContent(row.content, request, now);
            && after.content == c
            && after.version == (if c == row.content then row.version else Max(1, row.version) + 1)
            && (if c == row.content && row.haltedAt.None? then after == row
                else
                  && after.failures == 0 && after.haltedAt == None && after.haltedReason == NoCode
                  && after.nextRunAt == (if request.userEnabled then Some(now) else None))
            && after.lastRunAt == row.lastRunAt && after.lastActionAt == row.lastActionAt
            && after.lastPostAt == row.lastPostAt && after.lastDiscoveryAt == row.lastDiscoveryAt
            && after.lastMatchAt == row.lastMatchAt && after.lastOutreachAt == row.lastOutreachAt
  {
    hide Problem, WithoutRepeats;
  }

  /** Disabling acts exactly on an owner for whom anything is on; afterwards nothing is, the
      owner is halted under the reason with no next run, and the version is new. */
  lemma DisableSwitchesOff(row: Setting, reason: Code, now: int)
    ensures var after := Disable(row, reason, now);
            var active := row.content.userEnabled || exists k: Capability :: On(row.content, k);
            && !after.content.userEnabled && (forall k: Capability :: !On(after.content, k))
            && (!active ==> after == row)
            && (active ==>
                  && after.haltedAt == Some(now) && after.haltedReason == reason && after.nextRunAt == None
                  && after.version > row.version && after.version == Max(1, row.version) + 1
                  && after.content.autoReplyStartedAt == None
                  && after.failures == row.failures && after.lastActionAt == row.lastActionAt
                  && after.content.targets == row.content.targets && after.content.brief == row.content.brief
                  && after.content.dailyTotal == row.content.dailyTotal
                  && after.content.allowedActions == row.content.allowedActions)
  {
    var c := row.content;
    if c.autoReply { assert On(c, Replies); }
    if c.scheduledPosts { assert On(c, Posts); }
    if c.managedRelationships { assert On(c, Relationships); }
    if c.discovery { assert On(c, Discovery); }
    if c.textMatch { assert On(c, Matching); }
    if c.proactiveMessages { assert On(c, Messages); }
    if c.followDiscovered { assert On(c, DiscoveredFollow); }
    if c.friendRequests { assert On(c, Friends); }
  }
}
