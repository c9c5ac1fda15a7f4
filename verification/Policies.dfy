/** The owner's unattended-action policy: what `configure` accepts, how the stored
    row is translated into the fail-closed policy snapshot, and quiet hours.
    Times are integer seconds; a time zone is a fixed offset in seconds. */
module Policies {
  import opened Vocabulary

  const BROWSE_DAILY_LIMIT := 8
  const MATCH_DAILY_LIMIT := 6
  const DAY := 86_400

  /** The configured columns of the policy row: exactly the values whose change
      gives the row a new version. */
  datatype PolicyContent = PolicyContent(
    userEnabled: bool,
    autoReply: bool,
    autoReplyStartedAt: Option<int>,
    scheduledPosts: bool,
    managedRelationships: bool,
    discovery: bool,
    textMatch: bool,
    proactiveMessages: bool,
    followDiscovered: bool,
    friendRequests: bool,
    allowedActions: seq<ActionType>,
    brief: string,
    targets: seq<string>,
    zoneOffset: int,
    activeStart: int,
    activeEnd: int,
    minimumInterval: int,
    dailyTotal: int,
    dailyReply: int,
    dailyPost: int,
    dailyRelationship: int,
    postIntervalMinutes: int,
    discoveryIntervalMinutes: int,
    discoveryIntervalSeconds: int,
    failureLimit: int)
  {
    predicate AnyCapability() {
      || userEnabled || autoReply || scheduledPosts || managedRelationships || discovery
      || textMatch || proactiveMessages || followDiscovered || friendRequests
    }

    /** What every transaction writes when it switches the owner off. */
    function SwitchedOff(): PolicyContent {
      this.(userEnabled := false, autoReply := false, autoReplyStartedAt := None,
            scheduledPosts := false, managedRelationships := false, discovery := false,
            textMatch := false, proactiveMessages := false, followDiscovered := false,
            friendRequests := false)
    }
  }

  /** The row of a newly created owner: everything off, conservative limits. */
  const DEFAULT_CONTENT := PolicyContent(
    false, false, None, false, false, false, false, false, false, false,
    [], "", [], 0, 0, 0, 30, 20, 10, 1, 5, 1440, 30, 10, 3)

  /** No control or blank character and no wildcard. */
  predicate Plain(c: char) {
    c as int >= 33 && c !in "*?[]"
  }

  predicate ValidTarget(target: string) {
    0 < |target| <= 128 && forall c :: c in target ==> Plain(c)
  }

  function WithoutRepeats<T(==,!new)>(values: seq<T>): (kept: seq<T>)
    ensures forall v :: v in kept <==> v in values
    ensures forall i, j :: 0 <= i < j < |kept| ==> kept[i] != kept[j]
  {
    if values == [] then []
    else
      var rest := WithoutRepeats(values[..|values| - 1]);
      var last := values[|values| - 1];
      assert values == values[..|values| - 1] + [last];
      if last in rest then rest else rest + [last]
  }

  /** A capability counts only while the owner is enabled. */
  function Gated(request: PolicyContent): PolicyContent {
    if request.userEnabled then request else request.SwitchedOff()
  }

  /** The first rule a submitted policy breaks, in the order they are checked. */
  function Problem(request: PolicyContent): Option<string> {
    var p := Gated(request);
    if exists t :: t in p.targets && !ValidTarget(t) then Some("invalid target")
    else if |WithoutRepeats(p.targets)| > 100 then Some("too many targets")
    else if |p.brief| > 4000 then Some("brief too long")
    else if !(0 <= p.activeStart < 1440) || !(0 <= p.activeEnd < 1440) then Some("active time")
    else if !(10 <= p.minimumInterval <= 86_400) then Some("minimum interval")
    else if !(1 <= p.dailyTotal <= 200) then Some("total limit")
    else if !(0 <= p.dailyReply <= Min(200, p.dailyTotal)) then Some("reply limit")
    else if !(0 <= p.dailyPost <= Min(20, p.dailyTotal)) then Some("post limit")
    else if !(0 <= p.dailyRelationship <= Min(100, p.dailyTotal)) then Some("relationship limit")
    else if !(60 <= p.postIntervalMinutes <= 10_080) then Some("post interval")
    else if !(10 <= p.discoveryIntervalSeconds <= 86_400) then Some("discovery interval")
    else if !(1 <= p.failureLimit <= 20) then Some("failure threshold")
    else if p.userEnabled && !p.(userEnabled := false).AnyCapability() then Some("no capability")
    else if p.autoReply && SendPrivateMessage !in p.allowedActions then Some("reply action")
    else if p.autoReply && p.dailyReply < 1 then Some("reply budget")
    else if p.scheduledPosts && PublishTextPost !in p.allowedActions then Some("post action")
    else if p.scheduledPosts && p.dailyPost < 1 then Some("post budget")
    else if p.managedRelationships && FollowUser !in p.allowedActions
            && UnfollowUser !in p.allowedActions then Some("relationship action")
    else if p.managedRelationships && FollowUser in p.allowedActions
            && UnfollowUser in p.allowedActions then Some("ambiguous relationship")
    else if p.managedRelationships && p.targets == [] then Some("relationship targets")
    else if p.managedRelationships && p.dailyRelationship < 1 then Some("relationship budget")
    else if p.discovery && BrowseOnlineUsers !in p.allowedActions then Some("browse action")
    else if p.textMatch && RequestTextMatch !in p.allowedActions then Some("match action")
    else if p.proactiveMessages && SendPrivateMessage !in p.allowedActions then Some("outreach action")
    else if p.proactiveMessages && p.dailyReply < 1 then Some("outreach budget")
    else if p.followDiscovered && FollowUser !in p.allowedActions then Some("follow action")
    else if p.followDiscovered && p.dailyRelationship < 1 then Some("follow budget")
    else if p.friendRequests && RequestFriend !in p.allowedActions then Some("friend action")
    else if p.friendRequests && p.dailyRelationship < 1 then Some("friend budget")
    else None
  }

  /** The minutes column kept for readers of the older schedule. */
  function LegacyDiscoveryMinutes(seconds: int): int {
    if seconds == 10 then 30 else Max(5, Min(1440, (seconds + 59) / 60))
  }

  /** The stored content: repeats dropped, and the auto-reply watermark kept while
      replies stay on, set to `now` when they are switched on, and cleared with them. */
  function StoredContent(previous: PolicyContent, request: PolicyContent, now: int): PolicyContent {
    var p := Gated(request);
    p.(allowedActions := WithoutRepeats(p.allowedActions),
       targets := WithoutRepeats(p.targets),
       discoveryIntervalMinutes := LegacyDiscoveryMinutes(p.discoveryIntervalSeconds),
       autoReplyStartedAt :=
         if !p.autoReply then None
         else if previous.autoReply && previous.autoReplyStartedAt.Some? then previous.autoReplyStartedAt
         else Some(now))
  }

  /** The policy row.  `content` is versioned; the other columns are bookkeeping. */
  datatype Setting = Setting(
    content: PolicyContent,
    version: int,
    failures: int,
    haltedAt: Option<int>,
    haltedReason: Code,
    nextRunAt: Option<int>,
    lastRunAt: Option<int>,
    lastActionAt: Option<int>,
    lastPostAt: Option<int>,
    lastDiscoveryAt: Option<int>,
    lastMatchAt: Option<int>,
    lastOutreachAt: Option<int>)

  const NEW_SETTING := Setting(DEFAULT_CONTENT, 1, 0, None, NoCode, None, None, None, None, None, None, None)

  /** A user submits a policy.  Resubmitting also lifts a halt and clears the
      failure streak; only a change of content moves the version. */
  function Configure(row: Setting, request: PolicyContent, now: int): Result<Setting, string> {
    match Problem(request)
    case Some(problem) => Failure(problem)
    case None =>
      var content := StoredContent(row.content, request, now);
      var changed := content != row.content;
      var stored := if changed then row.(content := content, version := Max(1, row.version) + 1) else row;
      Success(
        if changed || row.haltedAt.Some? then
          stored.(failures := 0, haltedAt := None, haltedReason := NoCode,
                  nextRunAt := if content.userEnabled then Some(now) else None)
        else stored)
  }

  /** An administrator or the owner switches unattended actions off. */
  function Disable(row: Setting, reason: Code, now: int): Setting {
    if row.content.AnyCapability() then
      row.(content := row.content.SwitchedOff(), version := Max(1, row.version) + 1,
           haltedAt := Some(now), haltedReason := reason, nextRunAt := None)
    else row
  }

  /** The row-level limits every stored row satisfies. */
  predicate SoundContent(c: PolicyContent) {
    && 0 <= c.activeStart < 1440 && 0 <= c.activeEnd < 1440
    && 10 <= c.minimumInterval <= 86_400
    && 1 <= c.dailyTotal <= 200
    && 0 <= c.dailyReply <= c.dailyTotal
    && 0 <= c.dailyPost <= c.dailyTotal
    && 0 <= c.dailyRelationship <= c.dailyTotal
    && 1 <= c.failureLimit <= 20
    && (forall t :: t in c.targets ==> ValidTarget(t))
    && (c.autoReply ==> c.autoReplyStartedAt.Some?)
  }

  predicate SoundSetting(row: Setting) {
    SoundContent(row.content) && row.version >= 1 && row.failures >= 0
  }

  lemma ConfigureKeepsRowSound(row: Setting, request: PolicyContent, now: int)
    requires SoundSetting(row)
    ensures Configure(row, request, now).Success? ==> SoundSetting(Configure(row, request, now).value)
    ensures SoundSetting(Disable(row, AutonomyAccessRevoked, now))
  {
  }

  /** Configuring never changes content without moving the version forward. */
  lemma ConfigureVersions(row: Setting, request: PolicyContent, now: int)
    requires row.version >= 1 && Configure(row, request, now).Success?
    ensures var after := Configure(row, request, now).value;
            && after.version >= row.version
            && (after.version == row.version <==> after.content == row.content)
            && after.haltedAt.None? && (after.failures == 0 || after == row)
  {
  }

  // ---------------------------------------------------------------- translation

  datatype SystemRow = SystemRow(enabled: bool, accountActionsEnabled: bool, autonomyEnabled: bool)
  datatype UserRow = UserRow(active: bool, disabled: bool, runnerGranted: bool, actionsGranted: bool,
                             autonomyGranted: bool)
  datatype AgentRow = AgentRow(userEnabled: bool, version: int, activeConnection: Option<nat>)
  datatype ExecutionSettingRow = ExecutionSettingRow(userEnabled: bool, autoSend: bool, version: int,
                                                     allowedActions: set<ActionType>)
  datatype ConnectionRow = ConnectionRow(id: nat, enabled: bool, hasKey: bool, lastTestOk: bool)

  /** The other rows and readings a transaction sees; none is written by the protocol. */
  datatype Environment = Environment(
    system: Option<SystemRow>,
    user: Option<UserRow>,
    account: Option<nat>,
    agent: Option<AgentRow>,
    execution: Option<ExecutionSettingRow>,
    connection: Option<ConnectionRow>,
    fingerprint: nat,
    contactChanged: bool,
    contactForbidden: bool,
    candidateAllowed: bool,
    headDispatchable: bool,
    hasConversation: bool,
    contentDigestPresent: bool,
    duplicatePost: bool)

  /** The fail-closed snapshot a worker runs under. */
  datatype Policy = Policy(
    account: nat,
    version: int,
    executionVersion: int,
    runnerVersion: int,
    connection: nat,
    fingerprint: nat,
    available: bool,
    autoSend: bool,
    userEnabled: bool,
    autoReply: bool,
    autoReplyStartedAt: Option<int>,
    scheduledPosts: bool,
    managedRelationships: bool,
    discovery: bool,
    textMatch: bool,
    proactiveMessages: bool,
    followDiscovered: bool,
    friendRequests: bool,
    selectedActions: set<ActionType>,
    targets: set<string>,
    dailyTotal: int,
    limits: map<ActionType, int>,
    minimumInterval: int,
    zoneOffset: int,
    quietStart: Option<int>,
    quietEnd: Option<int>,
    failureLimit: int,
    failures: int,
    halted: bool,
    postLateness: int)
  {
    function ActionLimit(action: ActionType): int {
      if action in limits then limits[action] else dailyTotal
    }

    /** What constructing the snapshot checks. */
    predicate Valid() {
      && version >= 1 && executionVersion >= 1 && runnerVersion >= 1
      && (forall t :: t in targets ==> ValidTarget(t))
      && 1 <= dailyTotal <= 1000
      && (forall a :: a in limits ==> 0 <= limits[a] <= dailyTotal)
      && 1 <= minimumInterval <= 86_400
      && 1 <= failureLimit <= 100
      && failures >= 0
      && 60 <= postLateness <= 86_400
      && (quietStart.None? <==> quietEnd.None?)
      && (quietStart.Some? ==>
            && 0 <= quietStart.value < 1440 && 0 <= quietEnd.value < 1440
            && quietStart.value != quietEnd.value)
      && (autoReply ==> SendPrivateMessage in selectedActions && autoReplyStartedAt.Some?)
      && (scheduledPosts ==> PublishTextPost in selectedActions)
      && (managedRelationships ==>
            (FollowUser in selectedActions || UnfollowUser in selectedActions) && targets != {})
      && (discovery ==> BrowseOnlineUsers in selectedActions)
      && (textMatch ==> RequestTextMatch in selectedActions)
      && (proactiveMessages ==> SendPrivateMessage in selectedActions)
      && (followDiscovered ==> FollowUser in selectedActions)
      && (friendRequests ==> RequestFriend in selectedActions)
    }

    predicate Enables(taskType: TaskType) {
      match taskType
      case ReplyToMessage => autoReply
      case ScheduledPost => scheduledPosts
      case FollowTarget => managedRelationships
      case UnfollowTarget => managedRelationships
      case BrowseOnline => discovery
      case RequestMatch => textMatch
      case ProactiveMessage => proactiveMessages
      case FollowDiscovered => followDiscovered
      case BefriendDiscovered => friendRequests
    }
  }

  /** The unvalidated translation; `None` only when a required row is missing. */
  function Translate(setting: Setting, env: Environment): Option<Policy> {
    if env.execution.None? || env.agent.None? || env.connection.None? || env.account.None? then None
    else
      var c := setting.content;
      var x := env.execution.value;
      var actions := set a | a in c.allowedActions && a in x.allowedActions;
      var targets := set t | t in c.targets;
      var total := if c.dailyTotal == 0 then 1 else c.dailyTotal;
      var replies := Min(total, Max(0, c.dailyReply));
      var posts := Min(total, Max(0, c.dailyPost));
      var relationships := Min(total, Max(0, c.dailyRelationship));
      var quiet := c.activeStart != c.activeEnd;
      var up := env.user.Some? && env.user.value.active && !env.user.value.disabled;
      Some(Policy(
        account := env.account.value,
        version := setting.version,
        executionVersion := x.version,
        runnerVersion := env.agent.value.version,
        connection := env.connection.value.id,
        fingerprint := env.fingerprint,
        available :=
          && up
          && env.system.Some? && env.system.value.enabled && env.system.value.accountActionsEnabled
          && env.system.value.autonomyEnabled
          && env.user.value.runnerGranted && env.user.value.actionsGranted && env.user.value.autonomyGranted
          && env.agent.value.userEnabled && x.userEnabled
          && env.connection.value.enabled && env.connection.value.hasKey && env.connection.value.lastTestOk,
        autoSend := x.autoSend,
        userEnabled := c.userEnabled,
        autoReply := c.autoReply && SendPrivateMessage in actions && c.autoReplyStartedAt.Some?,
        autoReplyStartedAt := c.autoReplyStartedAt,
        scheduledPosts := c.scheduledPosts && PublishTextPost in actions,
        managedRelationships :=
          c.managedRelationships && (FollowUser in actions || UnfollowUser in actions) && targets != {},
        discovery := c.discovery && BrowseOnlineUsers in actions,
        textMatch := c.textMatch && RequestTextMatch in actions,
        proactiveMessages := c.proactiveMessages && SendPrivateMessage in actions,
        followDiscovered := c.followDiscovered && FollowUser in actions,
        friendRequests := c.friendRequests && RequestFriend in actions,
        selectedActions := actions,
        targets := targets,
        dailyTotal := total,
        limits := map[
          SendPrivateMessage := replies,
          PublishTextPost := posts,
          FollowUser := relationships,
          UnfollowUser := relationships,
          BrowseOnlineUsers := Min(total, BROWSE_DAILY_LIMIT),
          RequestTextMatch := Min(total, MATCH_DAILY_LIMIT),
          RequestFriend := relationships],
        minimumInterval := if c.minimumInterval == 0 then 60 else c.minimumInterval,
        zoneOffset := c.zoneOffset,
        quietStart := if quiet then Some(c.activeEnd) else None,
        quietEnd := if quiet then Some(c.activeStart) else None,
        failureLimit := if c.failureLimit == 0 then 1 else c.failureLimit,
        failures := setting.failures,
        halted := setting.haltedAt.Some?,
        postLateness := 3600))
  }

  /** The policy snapshot, or nothing when a row is missing or validation fails. */
  function PolicyFromRows(setting: Setting, env: Environment): Option<Policy> {
    var candidate := Translate(setting, env);
    if candidate.Some? && candidate.value.Valid() then candidate else None
  }

  /** The repository's own per-category limit, read straight from the row. */
  function CategoryLimit(c: PolicyContent, category: Category): int {
    var total := Max(1, if c.dailyTotal == 0 then 1 else c.dailyTotal);
    match category
    case Reply => Min(total, c.dailyReply)
    case Outreach => Min(total, c.dailyReply)
    case Post => Min(total, c.dailyPost)
    case Relationship => Min(total, c.dailyRelationship)
    case Browse => Min(total, BROWSE_DAILY_LIMIT)
    case Match => Min(total, MATCH_DAILY_LIMIT)
  }

  /** Every row that `configure` can store translates into a valid policy, as long
      as the other rows exist and carry positive versions. */
  lemma ConfiguredPolicyIsAccepted(previous: Setting, request: PolicyContent, now: int, env: Environment)
    requires SoundSetting(previous) && Configure(previous, request, now).Success?
    requires env.account.Some? && env.execution.Some? && env.agent.Some? && env.connection.Some?
    requires env.execution.value.version >= 1 && env.agent.value.version >= 1
    ensures var stored := Configure(previous, request, now).value;
            PolicyFromRows(stored, env) == Translate(stored, env) && PolicyFromRows(stored, env).Some?
  {
    ConfigureKeepsRowSound(previous, request, now);
    SoundRowIsAccepted(Configure(previous, request, now).value, env);
  }

  lemma SoundRowIsAccepted(row: Setting, env: Environment)
    requires SoundSetting(row)
    requires env.account.Some? && env.execution.Some? && env.agent.Some? && env.connection.Some?
    requires env.execution.value.version >= 1 && env.agent.value.version >= 1
    ensures PolicyFromRows(row, env) == Translate(row, env) && PolicyFromRows(row, env).Some?
  {
    var p := Translate(row, env).value;
    assert forall t :: t in p.targets ==> t in row.content.targets;
    assert p.Valid();
  }

  /** The policy's limit for a task is the repository's limit for its category. */
  lemma LimitsAgree(row: Setting, env: Environment, taskType: TaskType)
    requires SoundSetting(row) && PolicyFromRows(row, env).Some?
    ensures var p := PolicyFromRows(row, env).value;
            && p.ActionLimit(ActionOf(taskType)) ==
                 CategoryLimit(row.content, CategoryOf(taskType, ActionOf(taskType)))
            && p.dailyTotal == row.content.dailyTotal
            && p.minimumInterval == row.content.minimumInterval
            && p.failureLimit == row.content.failureLimit
            && p.zoneOffset == row.content.zoneOffset
            && p.version == row.version
  {
  }

  // ---------------------------------------------------------------- quiet hours

  /** Minute of the local day. */
  function LocalMinute(offset: int, now: int): (minute: int)
    ensures 0 <= minute < 1440
  {
    ((now + offset) % DAY) / 60
  }

  function LocalDay(offset: int, now: int): int {
    (now + offset) / DAY
  }

  predicate InWindow(start: int, end: int, minute: int) {
    if start < end then start <= minute < end else minute >= start || minute < end
  }

  /** The dispatch-time check of the configured active hours. */
  predicate ActiveAt(c: PolicyContent, now: int) {
    c.activeStart == c.activeEnd || InWindow(c.activeStart, c.activeEnd, LocalMinute(c.zoneOffset, now))
  }

  /** When the quiet hours that contain `now` end; nothing outside quiet hours. */
  function QuietWindowEnd(p: Policy, now: int): Option<int> {
    if p.quietStart.None? || p.quietEnd.None? then None
    else
      var start, end := p.quietStart.value, p.quietEnd.value;
      var minute := LocalMinute(p.zoneOffset, now);
      if !InWindow(start, end, minute) then None
      else
        var today := LocalDay(p.zoneOffset, now);
        var endDay := if start < end || minute < start then today else today + 1;
        Some(endDay * DAY + end * 60 - p.zoneOffset)
  }

  predicate QuietAt(p: Policy, now: int) {
    QuietWindowEnd(p, now).Some?
  }

  /** Quiet hours are exactly the complement of the dispatch-time active hours. */
  lemma QuietIsInactive(row: Setting, env: Environment, now: int)
    requires SoundSetting(row) && PolicyFromRows(row, env).Some?
    ensures QuietAt(PolicyFromRows(row, env).value, now) <==> !ActiveAt(row.content, now)
  {
  }

  /** The time `seconds` into local day `day`. */
  lemma LocalTime(offset: int, day: int, seconds: int, at: int)
    requires 0 <= seconds < DAY && at == day * DAY + seconds - offset
    ensures LocalDay(offset, at) == day && LocalMinute(offset, at) == seconds / 60
  {
    assert at + offset == day * DAY + seconds;
  }

  lemma SplitLocalTime(offset: int, now: int)
    ensures var s := (now + offset) % DAY;
            0 <= s < DAY && now == LocalDay(offset, now) * DAY + s - offset
            && LocalMinute(offset, now) == s / 60
  {
  }

  /** The quiet window that contains `now`, in local days and minutes. */
  lemma QuietWindow(p: Policy, now: int)
    requires p.Valid() && QuietAt(p, now)
    ensures p.quietStart.Some? && p.quietEnd.Some?
    ensures var start, end := p.quietStart.value, p.quietEnd.value;
            var minute := LocalMinute(p.zoneOffset, now);
            var today := LocalDay(p.zoneOffset, now);
            var endDay := if start < end || minute < start then today else today + 1;
            && 0 <= start < 1440 && 0 <= end < 1440 && start != end && InWindow(start, end, minute)
            && QuietWindowEnd(p, now) == Some(endDay * DAY + end * 60 - p.zoneOffset)
  {
    hide LocalMinute, LocalDay;
  }

  /** Nothing outside a window is quiet, and everything inside it is. */
  lemma QuietInWindow(p: Policy, t: int)
    requires p.quietStart.Some? && p.quietEnd.Some?
    ensures QuietAt(p, t) <==> InWindow(p.quietStart.value, p.quietEnd.value, LocalMinute(p.zoneOffset, t))
  {
  }

  /** `QuietWindowEnd` is the least later instant outside quiet hours: deferred work
      is not woken early, and not kept waiting past the window. */
  lemma QuietEndIsLeast(p: Policy, now: int, t: int)
    requires p.Valid() && QuietAt(p, now)
    ensures var end := QuietWindowEnd(p, now).value;
            && now < end && !QuietAt(p, end)
            && (now <= t < end ==> QuietAt(p, t))
  {
    hide Policy.Valid, QuietAt, QuietWindowEnd, LocalMinute, LocalDay;
    QuietWindow(p, now);
    var start, end := p.quietStart.value, p.quietEnd.value;
    var finish := QuietWindowEnd(p, now).value;
    SplitLocalTime(p.zoneOffset, now);
    SplitLocalTime(p.zoneOffset, t);
    var today := LocalDay(p.zoneOffset, now);
    var endDay := if start < end || LocalMinute(p.zoneOffset, now) < start then today else today + 1;
    LocalTime(p.zoneOffset, endDay, end * 60, finish);
    QuietInWindow(p, finish);
    QuietInWindow(p, t);
  }
}
