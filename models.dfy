// The business records of the bot (src/storage/models.py): chat messages,
// conversation contexts, users, token quotas, ban records and role-play
// configurations, with the computed properties the managers consult.
// Timestamps are whole seconds on one clock.

module Models {
  import opened Common

  datatype ContextType = PrivateContext | GroupContext | MultiUserContext | RolePlayContext
  datatype ContextStatus = Active | Paused | Expired | Archived | Deleted
  datatype MessageType = TextMessage | ImageMessage | VoiceMessage | SystemMessage | CommandMessage
  datatype MessageRole = UserRole | AssistantRole | SystemRole
  datatype BanType = Temporary | Permanent
  datatype BanReason = RateLimitExceeded | TokenAbuse | MaliciousBehavior | Spamming | ManualBan

  /** `ge=1` of `Context.max_messages` and `TokenQuota.minute_limit`. */
  type Positive = n: int | n >= 1 witness 1

  const MINUTE: int := 60
  const HOUR: int := 3600
  const DAY: int := 86400

  datatype ChatMessage = ChatMessage(
    messageId: string,
    senderId: string,
    senderName: string,
    role: MessageRole,
    content: string,
    messageType: MessageType,
    timestamp: int,
    isSystem: bool,
    metadata: Dict)

  /** The string value of a `MessageRole` member, as sent to the chat API. */
  function RoleValue(role: MessageRole): (r: string)
    ensures r == "user" <==> role == UserRole
    ensures r == "assistant" <==> role == AssistantRole
    ensures r == "system" <==> role == SystemRole
  {
    match role
    case UserRole => "user"
    case AssistantRole => "assistant"
    case SystemRole => "system"
  }

  const DEFAULT_MAX_MESSAGES: Positive := 200

  datatype Context = Context(
    contextId: string,
    kind: ContextType,
    name: string,
    creatorId: string,
    participants: seq<string>,
    messages: seq<ChatMessage>,
    maxMessages: Positive,
    status: ContextStatus,
    currentRoleId: Option<string>,
    metadata: Dict,
    createdAt: int,
    updatedAt: int,
    expiresAt: Option<int>)

  datatype User = User(
    userId: string,
    nickname: string,
    isActive: bool,
    isBanned: bool,
    currentContextId: Option<string>,
    metadata: Dict,
    createdAt: int,
    lastActive: int)

  datatype TokenQuota = TokenQuota(
    userId: string,
    totalQuota: int,
    used: int,
    dailyLimit: int,
    dailyUsed: int,
    dailyReset: int,
    minuteLimit: int,
    minuteRequests: seq<int>)

  datatype BanRecord = BanRecord(
    userId: string,
    reason: BanReason,
    banType: BanType,
    startedAt: int,
    expiresAt: Option<int>,
    details: string)

  datatype RolePlayConfig = RolePlayConfig(
    roleId: string,
    name: string,
    description: string,
    systemPrompt: string,
    isActive: bool,
    createdAt: int)

  // ---------------------------------------------------------------------------
  // TokenQuota
  // ---------------------------------------------------------------------------

  /** The field constraints checked when a `TokenQuota` is constructed. */
  predicate QuotaConstraints(q: TokenQuota)
  {
    q.totalQuota >= 0 && q.used >= 0 && q.dailyLimit >= 0 && q.dailyUsed >= 0 && q.minuteLimit >= 1
  }

  /** `TokenQuota.remaining`: quota left, never below zero. */
  function Remaining(q: TokenQuota): (r: nat)
    ensures r >= q.totalQuota - q.used
    ensures r == 0 || r == q.totalQuota - q.used
  {
    if q.totalQuota - q.used > 0 then q.totalQuota - q.used else 0
  }

  /** `TokenQuota.daily_remaining`: quota left today, never below zero. */
  function DailyRemaining(q: TokenQuota): (r: nat)
    ensures r >= q.dailyLimit - q.dailyUsed
    ensures r == 0 || r == q.dailyLimit - q.dailyUsed
  {
    if q.dailyLimit - q.dailyUsed > 0 then q.dailyLimit - q.dailyUsed else 0
  }

  /** A request logged at `ts` still counts at `now` when it is less than a minute old. */
  predicate InLastMinute(ts: int, now: int) { now - ts < MINUTE }

  /** The requests of `log` less than a minute old at `now`, in log order. */
  function Recent(log: seq<int>, now: int): (r: seq<int>)
    ensures forall i :: 0 <= i < |r| ==> InLastMinute(r[i], now)
  {
    if log == [] then []
    else Recent(log[..|log| - 1], now) + (if InLastMinute(log[|log| - 1], now) then [log[|log| - 1]] else [])
  }

  /** Pruning keeps every recent request, as often as it was logged, and nothing else. */
  lemma {:induction false} RecentExactly(log: seq<int>, now: int)
    ensures forall ts :: multiset(Recent(log, now))[ts] == if InLastMinute(ts, now) then multiset(log)[ts] else 0
    decreases |log|
  {
    if log != [] {
      RecentExactly(log[..|log| - 1], now);
      assert log == log[..|log| - 1] + [log[|log| - 1]];
    }
  }

  /** Pruning distributes over concatenation, so it keeps the log's order. */
  lemma {:induction false} RecentAppend(a: seq<int>, b: seq<int>, now: int)
    ensures Recent(a + b, now) == Recent(a, now) + Recent(b, now)
    decreases |b|
  {
    if b == [] {
      assert a + b == a;
    } else {
      var b' := b[..|b| - 1];
      assert (a + b)[..|a + b| - 1] == a + b';
      RecentAppend(a, b', now);
    }
  }

  /** A log whose entries are all recent is not shortened by pruning. */
  lemma {:induction false} RecentKeepsRecent(log: seq<int>, now: int)
    requires forall i :: 0 <= i < |log| ==> InLastMinute(log[i], now)
    ensures Recent(log, now) == log
    decreases |log|
  {
    if log != [] {
      RecentKeepsRecent(log[..|log| - 1], now);
    }
  }

  /** Pruning twice at the same instant prunes nothing more. */
  lemma RecentIdempotent(log: seq<int>, now: int)
    ensures Recent(Recent(log, now), now) == Recent(log, now)
  {
    RecentKeepsRecent(Recent(log, now), now);
  }

  /** `TokenQuota.validate_minute_requests`: construction drops requests a minute old or older. */
  function ValidateMinuteRequests(log: seq<int>, now: int): seq<int>
  {
    Recent(log, now)
  }

  /** `TokenQuota.is_minute_limit_exceeded`. */
  predicate IsMinuteLimitExceeded(q: TokenQuota, now: int)
  {
    |Recent(q.minuteRequests, now)| >= q.minuteLimit
  }

  /** The per-minute limit is exceeded exactly when at least `minuteLimit`
      of the logged requests are less than a minute old. */
  lemma MinuteLimitExceededIff(q: TokenQuota, now: int)
    ensures IsMinuteLimitExceeded(q, now) <==>
            |q.minuteRequests| - CountOld(q.minuteRequests, now) >= q.minuteLimit
  {
    RecentCount(q.minuteRequests, now);
  }

  /** The number of requests of `log` that are a minute old or older at `now`. */
  function CountOld(log: seq<int>, now: int): nat
  {
    if log == [] then 0
    else CountOld(log[..|log| - 1], now) + (if InLastMinute(log[|log| - 1], now) then 0 else 1)
  }

  lemma {:induction false} RecentCount(log: seq<int>, now: int)
    ensures |Recent(log, now)| == |log| - CountOld(log, now)
    decreases |log|
  {
    if log != [] {
      RecentCount(log[..|log| - 1], now);
    }
  }

  // ---------------------------------------------------------------------------
  // BanRecord
  // ---------------------------------------------------------------------------

  /** `BanRecord.is_active`. */
  predicate BanIsActive(b: BanRecord, now: int)
  {
    match b.banType
    case Permanent => true
    case Temporary => b.expiresAt.Some? && now < b.expiresAt.value
  }

  /** `BanRecord.remaining_seconds`: None for a permanent ban, else the whole seconds left. */
  function BanRemainingSeconds(b: BanRecord, now: int): (r: Option<nat>)
    ensures r.None? <==> b.banType == Permanent
    ensures r.Some? && b.expiresAt.Some? ==> r.value >= b.expiresAt.value - now
    ensures r.Some? && b.expiresAt.Some? ==> r.value == 0 || r.value == b.expiresAt.value - now
    ensures r.Some? && b.expiresAt.None? ==> r.value == 0
  {
    match b.banType
    case Permanent => None
    case Temporary =>
      if b.expiresAt.None? then Some(0)
      else if b.expiresAt.value - now > 0 then Some(b.expiresAt.value - now) else Some(0)
  }

  /** A temporary ban is active exactly while whole seconds remain on it. */
  lemma BanActiveIffTimeLeft(b: BanRecord, now: int)
    requires b.banType == Temporary
    ensures BanIsActive(b, now) <==> BanRemainingSeconds(b, now).value > 0
  {
  }

  /** A temporary ban with an expiry is active before it and inactive from it on. */
  lemma BanExpiresExactly(b: BanRecord, t1: int, t2: int)
    requires b.banType == Temporary && b.expiresAt.Some?
    requires t1 < b.expiresAt.value <= t2
    ensures BanIsActive(b, t1) && !BanIsActive(b, t2)
  {
  }
}
