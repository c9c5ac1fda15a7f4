/** Names shared by the unattended-action protocol: actions, task types, budget
    categories, statuses and stable error codes. */
module Vocabulary {

  datatype Option<+T> = None | Some(value: T)

  datatype Result<+T, +E> = Success(value: T) | Failure(error: E)

  datatype ActionType =
    | SendPrivateMessage
    | PublishTextPost
    | FollowUser
    | UnfollowUser
    | BrowseOnlineUsers
    | RequestTextMatch
    | RequestFriend

  datatype TaskType =
    | ReplyToMessage
    | ScheduledPost
    | FollowTarget
    | UnfollowTarget
    | BrowseOnline
    | RequestMatch
    | ProactiveMessage
    | FollowDiscovered
    | BefriendDiscovered

  /** The one fixed action each task type may perform. */
  function ActionOf(taskType: TaskType): ActionType {
    match taskType
    case ReplyToMessage => SendPrivateMessage
    case ScheduledPost => PublishTextPost
    case FollowTarget => FollowUser
    case UnfollowTarget => UnfollowUser
    case BrowseOnline => BrowseOnlineUsers
    case RequestMatch => RequestTextMatch
    case ProactiveMessage => SendPrivateMessage
    case FollowDiscovered => FollowUser
    case BefriendDiscovered => RequestFriend
  }

  predicate NeedsGeneratedText(taskType: TaskType) {
    taskType in {ReplyToMessage, ScheduledPost, ProactiveMessage, BefriendDiscovered}
  }

  predicate UsesDiscoveredCandidate(taskType: TaskType) {
    taskType in {ProactiveMessage, FollowDiscovered, BefriendDiscovered}
  }

  datatype Category = Reply | Outreach | Post | Relationship | Browse | Match

  /** The daily-usage counter that a task is charged to. */
  function CategoryOf(taskType: TaskType, action: ActionType): Category {
    if taskType == ReplyToMessage then Reply
    else if taskType == ProactiveMessage then Outreach
    else if taskType == BrowseOnline then Browse
    else if taskType == RequestMatch then Match
    else if action == PublishTextPost then Post
    else Relationship
  }

  datatype TaskStatus =
    | Queued | Deferred | Leased | Generating | Dispatching
    | Succeeded | Failed | Cancelled | Stale | ManualReview
  {
    predicate NotStarted() {
      this in {Queued, Deferred, Leased, Generating}
    }

    predicate Terminal() {
      this in {Succeeded, Failed, Cancelled, Stale, ManualReview}
    }
  }

  datatype ExecutionStatus =
    | ExecQueued | ExecRunning | ExecSucceeded | ExecFailed | ExecCancelled | ExecManualReview

  /** Normalised stable error codes.  The codes the protocol itself writes or
      compares are constructors; any other code is `Named`.  `NoCode` is an
      absent or empty code. */
  datatype Code =
    | NoCode
    | LocalMessageSourceStale
    | ExternalDiscoveryUnavailable
    | ActionExecutionNotPrepared
    | ActionExecutionNotStarted
    | ExecutionAuditMismatch
    | ExecutionAuditSyncFailed
    | ExecutionAuditStateMismatch
    | AccountActionFailed
    | AccountActionCancelled
    | UserCancelled
    | AccountActionOutcomeUnknown
    | ActionIdempotencyConflict
    | DispatchOutcomeUnknown
    | DispatchPermitInvalid
    | DispatchGateUnavailable
    | DispatchReentryUnknown
    | WorkerLostBeforeActionStart
    | WorkerLostBeforeActionPrepare
    | ExecutionTimeoutUnknown
    | AutonomyTaskFailed
    | AutonomyHalted
    | AutonomyAccessRevoked
    | AutonomyPolicyChanged
    | AutonomyActionNotAllowed
    | AutonomyTaskTypeDisabled
    | AutonomyAutoSendDisabled
    | AutonomyTargetNotAllowlisted
    | TaskAttemptsExhausted
    | ScheduledTimeNotReached
    | ScheduledPostTooLate
    | ScheduledPostExpired
    | InboundAlreadyHandled
    | InboundRequiresReply
    | InboundChangedDuringGeneration
    | ProactiveAlreadySent
    | ProactiveChangedDuringGeneration
    | InboundMessageStale
    | ReplyHasUnapprovedAddress
    | ReplyNotNeeded
    | InvalidIntervalDecision
    | QuietHours
    | MinimumIntervalPending
    | DispatchDenied(decision: DispatchCode)
    | Named(text: string)

  /** Why a dispatch reservation was refused. */
  datatype DispatchCode =
    | LeaseLost
    | AccessRevoked
    | PolicyChanged
    | ActionNotAllowed
    | Halted
    | SourceStale
    | DailyBudgetExhausted
    | MinimumInterval

  /** Python's `code or fallback`. */
  function OrElse(code: Code, fallback: Code): Code {
    if code == NoCode then fallback else code
  }

  /** Provider failures that release the reservation and allow a later retry. */
  predicate RetryableCode(code: Code) {
    code == ExternalDiscoveryUnavailable
  }

  /** Stored result identifiers keep 256 characters at most. */
  function Clip(resultId: string): string {
    if |resultId| <= 256 then resultId else resultId[..256]
  }

  function Min(a: int, b: int): int { if a <= b then a else b }

  function Max(a: int, b: int): int { if a >= b then a else b }

  /** A part is no larger than the whole. */
  lemma {:induction false} SubsetSize<T>(part: set<T>, whole: set<T>)
    requires part <= whole
    ensures |part| <= |whole|
  {
    if part != {} {
      var x :| x in part;
      SubsetSize(part - {x}, whole - {x});
    }
  }
}
