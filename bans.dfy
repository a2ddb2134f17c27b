// The ban manager (src/managers/ban.py): ban records in the durable store,
// and three in-memory per-user trackers (request times, message times, and
// timed message texts) that are pruned to a sliding window, appended to and
// counted on every abuse check.

module Bans {
  import opened Common
  import opened Models
  import opened Store

  // ---------------------------------------------------------------------------
  // Detection rules
  // ---------------------------------------------------------------------------

  const RAPID_THRESHOLD := "rapid_request_threshold"
  const RAPID_WINDOW := "rapid_request_window"
  const TOKEN_BURST := "token_burst_threshold"
  const TOKEN_RATE := "token_rate_threshold"
  const SPAM_THRESHOLD := "spam_message_threshold"
  const SPAM_WINDOW := "spam_window"
  const REPEAT_THRESHOLD := "repeat_threshold"
  const REPEAT_WINDOW := "repeat_window"

  const DEFAULT_DETECTION_RULES: map<string, int> := map[
    RAPID_THRESHOLD := 10, RAPID_WINDOW := 60,
    TOKEN_BURST := 1000, TOKEN_RATE := 5000,
    SPAM_THRESHOLD := 5, SPAM_WINDOW := 10,
    REPEAT_THRESHOLD := 3, REPEAT_WINDOW := 30]

  const RAPID_REASON := "请求过于频繁"
  const TOKEN_REASON := "Token消耗异常"
  const SPAM_REASON := "检测到刷屏行为"
  const REPEAT_REASON := "发送重复内容"

  const SECONDS_PER_HOUR := 3600

  /** Every rule the detectors read is present. */
  predicate RulesComplete(rules: map<string, int>)
  {
    RAPID_THRESHOLD in rules && RAPID_WINDOW in rules && TOKEN_BURST in rules &&
    SPAM_THRESHOLD in rules && SPAM_WINDOW in rules && REPEAT_THRESHOLD in rules && REPEAT_WINDOW in rules
  }

  /** The constructor's rule table: the defaults, overridden key by key by the custom rules. */
  function MergeRules(custom: map<string, int>): (r: map<string, int>)
    ensures RulesComplete(r)
    ensures forall k :: k in custom ==> k in r && r[k] == custom[k]
    ensures forall k :: k in DEFAULT_DETECTION_RULES && k !in custom ==> k in r && r[k] == DEFAULT_DETECTION_RULES[k]
  {
    DEFAULT_DETECTION_RULES + custom
  }

  // ---------------------------------------------------------------------------
  // Sliding windows
  // ---------------------------------------------------------------------------

  /** A time `ts` still counts at `now` for a window of `window` seconds. */
  predicate InWindow(ts: int, now: int, window: int) { now - ts < window }

  /** The times of `log` that still count, in log order. */
  function Window(log: seq<int>, now: int, window: int): (r: seq<int>)
    ensures |r| <= |log|
    ensures forall i :: 0 <= i < |r| ==> InWindow(r[i], now, window)
    ensures forall t :: t in r <==> t in log && InWindow(t, now, window)
  {
    if log == [] then []
    else
      assert log == log[..|log| - 1] + [log[|log| - 1]];
      Window(log[..|log| - 1], now, window) + (if InWindow(log[|log| - 1], now, window) then [log[|log| - 1]] else [])
  }

  /** A tracker after one check: the times that still count, then `now`. */
  function Logged(log: seq<int>, now: int, window: int): (r: seq<int>)
    ensures |r| >= 1 && r[|r| - 1] == now
    ensures window > 0 ==> forall i :: 0 <= i < |r| ==> InWindow(r[i], now, window)
  {
    Window(log, now, window) + [now]
  }

  /** A log whose times all still count loses nothing to the window. */
  lemma {:induction false} WindowKeepsAll(log: seq<int>, now: int, window: int)
    requires forall i :: 0 <= i < |log| ==> InWindow(log[i], now, window)
    ensures Window(log, now, window) == log
    decreases |log|
  {
    if log != [] {
      WindowKeepsAll(log[..|log| - 1], now, window);
    }
  }

  /** A sequence of checks at `times`, starting from the tracker `log`. */
  function Replay(log: seq<int>, times: seq<int>, window: int): seq<int>
    decreases |times|
  {
    if times == [] then log else Replay(Logged(log, times[0], window), times[1..], window)
  }

  predicate NonDecreasing(times: seq<int>)
  {
    forall i, j :: 0 <= i <= j < |times| ==> times[i] <= times[j]
  }

  lemma {:induction false} ReplayAppend(log: seq<int>, times: seq<int>, t: int, window: int)
    ensures Replay(log, times + [t], window) == Logged(Replay(log, times, window), t, window)
    decreases |times|
  {
    if times == [] {
      assert ([] + [t])[1..] == [];
    } else {
      assert (times + [t])[0] == times[0];
      assert (times + [t])[1..] == times[1..] + [t];
      ReplayAppend(Logged(log, times[0], window), times[1..], t, window);
    }
  }

  /** All times before position k still count at any later time of the burst. */
  lemma PrefixInWindow(times: seq<int>, k: nat, window: int)
    requires NonDecreasing(times) && k < |times|
    requires times[|times| - 1] - times[0] < window
    ensures forall i :: 0 <= i < |times[..k]| ==> InWindow(times[..k][i], times[k], window)
  {
    forall i | 0 <= i < k
      ensures InWindow(times[..k][i], times[k], window)
    {
      assert times[0] <= times[i];
      assert times[k] <= times[|times| - 1];
    }
  }

  lemma {:induction false} ReplayPrefix(times: seq<int>, k: nat, window: int)
    requires NonDecreasing(times) && k <= |times|
    requires |times| > 0 ==> times[|times| - 1] - times[0] < window
    ensures Replay([], times[..k], window) == times[..k]
    decreases k
  {
    if k > 0 {
      ReplayPrefix(times, k - 1, window);
      assert times[..k] == times[..k - 1] + [times[k - 1]];
      ReplayAppend([], times[..k - 1], times[k - 1], window);
      PrefixInWindow(times, k - 1, window);
      WindowKeepsAll(times[..k - 1], times[k - 1], window);
    }
  }

  /** Checks that all fall inside one window are all remembered: starting
      from an empty tracker, the check at position k sees a log of exactly
      k + 1 entries, so with threshold 10 the 11th request of a minute is the
      first one flagged. */
  lemma BurstCounted(times: seq<int>, k: nat, window: int)
    requires NonDecreasing(times) && k < |times|
    requires times[|times| - 1] - times[0] < window
    ensures |Logged(Replay([], times[..k], window), times[k], window)| == k + 1
  {
    ReplayPrefix(times, k, window);
    PrefixInWindow(times, k, window);
    WindowKeepsAll(times[..k], times[k], window);
  }

  /** The timed texts of `log` that still count, in log order. */
  function ContentWindow(log: seq<(int, string)>, now: int, window: int): (r: seq<(int, string)>)
    ensures |r| <= |log|
    ensures forall i :: 0 <= i < |r| ==> InWindow(r[i].0, now, window)
    ensures forall e :: e in r <==> e in log && InWindow(e.0, now, window)
  {
    if log == [] then []
    else
      assert log == log[..|log| - 1] + [log[|log| - 1]];
      ContentWindow(log[..|log| - 1], now, window) +
      (if InWindow(log[|log| - 1].0, now, window) then [log[|log| - 1]] else [])
  }

  /** How many entries of `log` carry the text `text`. */
  function CountText(log: seq<(int, string)>, text: string): (n: nat)
    ensures n <= |log|
    ensures n == 0 <==> forall i :: 0 <= i < |log| ==> log[i].1 != text
  {
    if log == [] then 0 else CountText(log[..|log| - 1], text) + (if log[|log| - 1].1 == text then 1 else 0)
  }

  /** `k` repetitions of one text, all still inside the window, count `k` times. */
  lemma {:induction false} RepeatsCounted(log: seq<(int, string)>, text: string, now: int, window: int)
    requires forall i :: 0 <= i < |log| ==> log[i].1 == text && InWindow(log[i].0, now, window)
    ensures CountText(ContentWindow(log, now, window), text) == |log|
    decreases |log|
  {
    if log != [] {
      RepeatsCounted(log[..|log| - 1], text, now, window);
    }
  }

  function Lookup<T>(m: map<string, seq<T>>, k: string): seq<T>
  {
    if k in m then m[k] else []
  }

  /** `cleanup_tracking` on one user's request times. */
  function After(log: seq<int>, before: int): (r: seq<int>)
    ensures forall i :: 0 <= i < |r| ==> r[i] > before
    ensures forall t :: t in r <==> t in log && t > before
  {
    if log == [] then []
    else
      assert log == log[..|log| - 1] + [log[|log| - 1]];
      After(log[..|log| - 1], before) + (if log[|log| - 1] > before then [log[|log| - 1]] else [])
  }

  // ---------------------------------------------------------------------------
  // Ban records
  // ---------------------------------------------------------------------------

  /** The record `ban_user` creates. */
  function NewBan(userId: string, reason: BanReason, banType: BanType, durationHours: Option<int>,
                  details: string, now: int): (b: BanRecord)
    ensures b.userId == userId && b.startedAt == now && b.banType == banType
    ensures banType == Permanent <==> b.expiresAt.None?
    ensures banType == Temporary ==>
      b.expiresAt.value == now + SECONDS_PER_HOUR * (if durationHours.Some? then durationHours.value else 1)
  {
    var expires := match banType
      case Permanent => None
      case Temporary => Some(now + SECONDS_PER_HOUR * (if durationHours.Some? then durationHours.value else 1));
    BanRecord(userId, reason, banType, now, expires, details)
  }

  /** A new ban is in force at once unless it is temporary with no positive duration. */
  lemma NewBanActive(userId: string, reason: BanReason, banType: BanType, durationHours: Option<int>,
                     details: string, now: int)
    ensures var b := NewBan(userId, reason, banType, durationHours, details, now);
      BanCandidate(b, userId, now) <==>
      banType == Permanent || durationHours.None? || durationHours.value > 0
  {
  }

  /** Every ban the store selects as active is active by the record's own test. */
  lemma CandidateIsActive(b: BanRecord, userId: string, now: int)
    requires BanCandidate(b, userId, now)
    ensures BanIsActive(b, now)
  {
  }

  /** `unban_user` ends a ban by moving its expiry to `now`: a temporary ban
      is then no longer selected, but a permanent one still is. */
  lemma UnbanEffect(b: BanRecord, now: int)
    ensures !BanCandidate(b.(expiresAt := Some(now)), b.userId, now) <==> b.banType == Temporary
  {
  }

  function ReasonValue(reason: BanReason): string
  {
    match reason
    case RateLimitExceeded => "rate_limit_exceeded"
    case TokenAbuse => "token_abuse"
    case MaliciousBehavior => "malicious_behavior"
    case Spamming => "spamming"
    case ManualBan => "manual"
  }

  /** `get_ban_reason` for a record: its details, or else the reason's value. */
  function BanReasonText(b: BanRecord): (r: string)
    ensures r != ""
    ensures b.details != "" ==> r == b.details
  {
    if b.details != "" then b.details else ReasonValue(b.reason)
  }

  function ActiveBans(bans: seq<BanRecord>, now: int): (r: seq<BanRecord>)
    ensures forall b :: b in r <==> b in bans && BanIsActive(b, now)
  {
    if bans == [] then []
    else
      assert bans == bans[..|bans| - 1] + [bans[|bans| - 1]];
      ActiveBans(bans[..|bans| - 1], now) + (if BanIsActive(bans[|bans| - 1], now) then [bans[|bans| - 1]] else [])
  }

  class BanManager {
    const db: Database
    const rules: map<string, int>
    var requests: map<string, seq<int>>
    var messages: map<string, seq<int>>
    var content: map<string, seq<(int, string)>>

    /** The rules are the defaults overridden by `custom`; the trackers start empty. */
    constructor (db: Database, custom: map<string, int>)
      ensures this.db == db && rules == MergeRules(custom)
      ensures requests == map[] && messages == map[] && content == map[]
    {
      this.db := db;
      rules := MergeRules(custom);
      requests := map[];
      messages := map[];
      content := map[];
    }

    // -------------------------------------------------------------------------
    // Ban status
    // -------------------------------------------------------------------------

    /** `check_ban_status`: the store's active ban, which is always active by
        its own test as well. */
    method CheckBanStatus(userId: string, now: int) returns (r: Outcome<Option<BanRecord>>)
      ensures r.Raised? <==> !db.up
      ensures r.Ok? ==> r.value == LatestCandidate(db.bans, userId, now)
      ensures r.Ok? && r.value.Some? ==> BanIsActive(r.value.value, now) && r.value.value.userId == userId
    {
      var record := db.GetActiveBan(userId, now);
      if record.Raised? {
        return Raised(record.error);
      }
      if record.value.Some? && BanIsActive(record.value.value, now) {
        return Ok(record.value);
      }
      r := Ok(None);
    }

    /** `is_banned`. */
    method IsBanned(userId: string, now: int) returns (r: Outcome<bool>)
      ensures r.Raised? <==> !db.up
      ensures r.Ok? ==> (r.value <==> exists b :: b in db.bans && BanCandidate(b, userId, now))
    {
      var status := CheckBanStatus(userId, now);
      r := match status
        case Raised(err) => Raised(err)
        case Ok(found) => Ok(found.Some?);
    }

    /** `get_remaining_ban_time`: whole seconds left, or None both when there
        is no ban and when the ban is permanent. */
    method GetRemainingBanTime(userId: string, now: int) returns (r: Outcome<Option<nat>>)
      ensures r.Raised? <==> !db.up
      ensures r.Ok? ==>
        var ban := LatestCandidate(db.bans, userId, now);
        r.value == if ban.None? then None else BanRemainingSeconds(ban.value, now)
      ensures r.Ok? && r.value.Some? ==> r.value.value > 0
    {
      var status := CheckBanStatus(userId, now);
      r := match status
        case Raised(err) => Raised(err)
        case Ok(found) => Ok(if found.Some? then BanRemainingSeconds(found.value, now) else None);
    }

    /** `get_ban_reason`. */
    method GetBanReason(userId: string, now: int) returns (r: Outcome<Option<string>>)
      ensures r.Raised? <==> !db.up
      ensures r.Ok? ==>
        var ban := LatestCandidate(db.bans, userId, now);
        r.value == if ban.None? then None else Some(BanReasonText(ban.value))
    {
      var status := CheckBanStatus(userId, now);
      r := match status
        case Raised(err) => Raised(err)
        case Ok(found) => Ok(if found.Some? then Some(BanReasonText(found.value)) else None);
    }

    /** `list_ban_records`: the user's records, latest start first, at most `limit`. */
    function ListBanRecords(userId: string, limit: int): (r: Outcome<seq<BanRecord>>)
      reads db
      ensures r.Raised? <==> !db.up
      ensures r.Ok? ==> forall b :: b in r.value ==> b in db.bans && b.userId == userId
      ensures r.Ok? ==> forall i, j :: 0 <= i < j < |r.value| ==> r.value[i].startedAt >= r.value[j].startedAt
      ensures r.Ok? && limit >= 0 ==> |r.value| <= limit
      ensures r.Ok? ==> var all := db.ListBansByUser(userId).value;
        |r.value| <= |all| && r.value == all[..|r.value|] &&
        |r.value| == (if limit >= 0 then (if limit <= |all| then limit else |all|)
                      else (if -limit <= |all| then |all| + limit else 0))
      ensures r.Ok? && limit >= 0 ==>
        |r.value| == limit || forall b :: b in db.bans && b.userId == userId ==> b in r.value
    {
      match db.ListBansByUser(userId)
      case Raised(err) => Raised(err)
      case Ok(all) =>
        ListBansByUserCorrect(db.bans, userId);
        var r := SliceTo(all, limit);
        assert forall b :: b in r ==> b in all;
        Ok(r)
    }

    /** `get_all_active_bans`, as the filter it intends over every record. */
    function GetAllActiveBans(now: int): (r: Outcome<seq<BanRecord>>)
      reads db
      ensures r.Raised? <==> !db.up
      ensures r.Ok? ==> forall b :: b in r.value <==> b in db.bans && BanIsActive(b, now)
    {
      if !db.up then Raised(DB_UNAVAILABLE) else Ok(ActiveBans(db.bans, now))
    }

    // -------------------------------------------------------------------------
    // Banning and unbanning
    // -------------------------------------------------------------------------

    /** `ban_user`: a new record is stored, the user (if known) is flagged
        banned, and the user's trackers are dropped. */
    method BanUser(userId: string, reason: BanReason, banType: BanType, durationHours: Option<int>,
                   details: string, now: int) returns (r: Outcome<BanRecord>)
      requires db.Valid()
      modifies this, db
      ensures db.Valid()
      ensures r.Raised? <==> !db.up
      ensures r.Ok? ==>
        r.value == NewBan(userId, reason, banType, durationHours, details, now) &&
        db.bans == old(db.bans) + [r.value] &&
        db.users == (if userId in old(db.users) then old(db.users)[userId := old(db.users)[userId].(isBanned := true)]
                     else old(db.users)) &&
        requests == old(requests) - {userId} && messages == old(messages) - {userId} &&
        content == old(content) - {userId}
      ensures r.Raised? ==> (db.bans == old(db.bans) && db.users == old(db.users) &&
        requests == old(requests) && messages == old(messages) && content == old(content))
      ensures db.userOrder == old(db.userOrder) && db.ContextsUnchanged() && db.QuotasUnchanged() && db.RolesUnchanged()
    {
      var record := NewBan(userId, reason, banType, durationHours, details, now);
      var created := db.CreateBan(record);
      if created.Raised? {
        return Raised(created.error);
      }
      var user := db.GetUser(userId);
      if user.Ok? && user.value.Some? {
        var _ := db.UpdateUser(user.value.value.(isBanned := true));
      }
      ClearUserTracking(userId);
      r := Ok(record);
    }

    /** `unban_user`: false when no ban is active; otherwise the active ban's
        expiry is moved to `now` and the user (if known) is unflagged. */
    method UnbanUser(userId: string, now: int) returns (r: Outcome<bool>)
      requires db.Valid()
      modifies db
      ensures db.Valid()
      ensures var ban := LatestCandidate(old(db.bans), userId, now);
        (ban.None? && db.up ==> r == Ok(false) && db.bans == old(db.bans) && db.users == old(db.users)) &&
        (r.Ok? && r.value ==> (ban.Some? &&
          var keyed := BanKeyMatches(old(db.bans), userId, ban.value.startedAt);
          |keyed| == 1 && db.bans == old(db.bans)[keyed[0] := old(db.bans)[keyed[0]].(expiresAt := Some(now))] &&
          db.users == (if userId in old(db.users) then old(db.users)[userId := old(db.users)[userId].(isBanned := false)]
                       else old(db.users))))
      ensures var ban := LatestCandidate(old(db.bans), userId, now);
        ban.Some? && db.up ==>
          (r.Raised? <==> |BanKeyMatches(old(db.bans), userId, ban.value.startedAt)| != 1) && (r.Ok? ==> r.value)
      ensures !db.up ==> r.Raised?
      ensures r.Raised? ==> db.bans == old(db.bans) && db.users == old(db.users)
      ensures db.userOrder == old(db.userOrder) && db.ContextsUnchanged() && db.QuotasUnchanged() && db.RolesUnchanged()
    {
      var record := db.GetActiveBan(userId, now);
      if record.Raised? {
        return Raised(record.error);
      }
      if record.value.None? {
        return Ok(false);
      }
      r := Lift(userId, record.value.value, now);
    }

    /** The writes of `unban_user` once the active ban is found: the ban
        ends now, then the user loses the banned flag. */
    method Lift(userId: string, ban: BanRecord, now: int) returns (r: Outcome<bool>)
      requires db.Valid() && ban in db.bans && ban.userId == userId
      modifies db
      ensures db.Valid()
      ensures r.Raised? <==> !db.up || |BanKeyMatches(old(db.bans), userId, ban.startedAt)| != 1
      ensures r.Raised? ==> db.bans == old(db.bans) && db.users == old(db.users)
      ensures r.Ok? ==> r.value
      ensures r.Ok? ==> var keyed := BanKeyMatches(old(db.bans), userId, ban.startedAt);
        db.bans == old(db.bans)[keyed[0] := old(db.bans)[keyed[0]].(expiresAt := Some(now))]
      ensures r.Ok? ==>
        db.users == (if userId in old(db.users) then old(db.users)[userId := old(db.users)[userId].(isBanned := false)]
                     else old(db.users))
      ensures db.userOrder == old(db.userOrder) && db.ContextsUnchanged() && db.QuotasUnchanged() && db.RolesUnchanged()
    {
      var updated := db.UpdateBan(ban.(expiresAt := Some(now)));
      if updated.Raised? {
        return Raised(updated.error);
      }
      ghost var keyed := BanKeyMatches(old(db.bans), userId, ban.startedAt);
      ghost var i :| 0 <= i < |old(db.bans)| && old(db.bans)[i] == ban;
      assert i in keyed && keyed[0] == i;
      ClearBanFlag(userId);
      r := Ok(true);
    }

    /** The last step of `unban_user`: a known user loses the banned flag;
        a failed read is ignored. */
    method ClearBanFlag(userId: string)
      requires db.Valid()
      modifies db
      ensures db.Valid()
      ensures db.users == if db.up && userId in old(db.users)
        then old(db.users)[userId := old(db.users)[userId].(isBanned := false)] else old(db.users)
      ensures db.userOrder == old(db.userOrder) && db.bans == old(db.bans)
      ensures db.ContextsUnchanged() && db.QuotasUnchanged() && db.RolesUnchanged()
    {
      var user := db.GetUser(userId);
      if user.Ok? && user.value.Some? {
        var _ := db.UpdateUser(user.value.value.(isBanned := false));
      }
    }

    // -------------------------------------------------------------------------
    // Abuse detection
    // -------------------------------------------------------------------------

    /** `_detect_rapid_requests`: the request tracker is windowed and gains
        `now`; flags when it then holds more than the threshold. */
    method DetectRapidRequests(userId: string, now: int) returns (flagged: bool)
      requires RulesComplete(rules)
      modifies this
      ensures requests == old(requests)[userId := Logged(Lookup(old(requests), userId), now, rules[RAPID_WINDOW])]
      ensures flagged <==> |requests[userId]| > rules[RAPID_THRESHOLD]
      ensures messages == old(messages) && content == old(content)
    {
      var log := if userId in requests then requests[userId] else [];
      log := Window(log, now, rules[RAPID_WINDOW]) + [now];
      requests := requests[userId := log];
      flagged := |log| > rules[RAPID_THRESHOLD];
    }

    /** `_detect_token_abuse`: a single use above the burst threshold; no tracker is touched. */
    function DetectTokenAbuse(tokens: int): (flagged: bool)
      requires RulesComplete(rules)
      ensures flagged <==> tokens > rules[TOKEN_BURST]
    {
      tokens > rules[TOKEN_BURST]
    }

    /** `_detect_spam`: as the request check, on the message tracker and the spam window. */
    method DetectSpam(userId: string, now: int) returns (flagged: bool)
      requires RulesComplete(rules)
      modifies this
      ensures messages == old(messages)[userId := Logged(Lookup(old(messages), userId), now, rules[SPAM_WINDOW])]
      ensures flagged <==> |messages[userId]| > rules[SPAM_THRESHOLD]
      ensures requests == old(requests) && content == old(content)
    {
      var log := if userId in messages then messages[userId] else [];
      log := Window(log, now, rules[SPAM_WINDOW]) + [now];
      messages := messages[userId := log];
      flagged := |log| > rules[SPAM_THRESHOLD];
    }

    /** `_detect_repeated_content`: counts the earlier copies of `text` still
        inside the window, then records this one; flags at the threshold. */
    method DetectRepeatedContent(userId: string, text: string, now: int) returns (flagged: bool)
      requires RulesComplete(rules)
      modifies this
      ensures text == "" ==> !flagged && content == old(content)
      ensures text != "" ==>
        var window := ContentWindow(Lookup(old(content), userId), now, rules[REPEAT_WINDOW]);
        content == old(content)[userId := window + [(now, text)]] &&
        (flagged <==> CountText(window, text) >= rules[REPEAT_THRESHOLD])
      ensures requests == old(requests) && messages == old(messages)
    {
      if text == "" {
        return false;
      }
      var log := if userId in content then content[userId] else [];
      log := ContentWindow(log, now, rules[REPEAT_WINDOW]);
      var count := CountText(log, text);
      content := content[userId := log + [(now, text)]];
      flagged := count >= rules[REPEAT_THRESHOLD];
    }

    /** `detect_abuse`: rapid requests, then token burst (when tokens were
        used), then spam and repetition (when there is text); the first hit is
        reported and the later checks, with their tracker updates, are skipped. */
    method DetectAbuse(userId: string, text: string, tokens: int, now: int) returns (abusive: bool, reason: Option<string>)
      requires RulesComplete(rules)
      modifies this
      ensures
        var rapidLog := Logged(Lookup(old(requests), userId), now, rules[RAPID_WINDOW]);
        var rapid := |rapidLog| > rules[RAPID_THRESHOLD];
        var burst := tokens > 0 && tokens > rules[TOKEN_BURST];
        var spamLog := Logged(Lookup(old(messages), userId), now, rules[SPAM_WINDOW]);
        var spam := |spamLog| > rules[SPAM_THRESHOLD];
        var window := ContentWindow(Lookup(old(content), userId), now, rules[REPEAT_WINDOW]);
        var repeat := CountText(window, text) >= rules[REPEAT_THRESHOLD];
        requests == old(requests)[userId := rapidLog] &&
        messages == (if !rapid && !burst && text != "" then old(messages)[userId := spamLog] else old(messages)) &&
        content == (if !rapid && !burst && text != "" && !spam then old(content)[userId := window + [(now, text)]]
                    else old(content)) &&
        (abusive, reason) == (if rapid then (true, Some(RAPID_REASON))
                              else if burst then (true, Some(TOKEN_REASON))
                              else if text != "" && spam then (true, Some(SPAM_REASON))
                              else if text != "" && repeat then (true, Some(REPEAT_REASON))
                              else (false, None))
    {
      var rapid := DetectRapidRequests(userId, now);
      if rapid {
        return true, Some(RAPID_REASON);
      }
      if tokens > 0 && DetectTokenAbuse(tokens) {
        return true, Some(TOKEN_REASON);
      }
      if text != "" {
        var spam := DetectSpam(userId, now);
        if spam {
          return true, Some(SPAM_REASON);
        }
        var repeat := DetectRepeatedContent(userId, text, now);
        if repeat {
          return true, Some(REPEAT_REASON);
        }
      }
      return false, None;
    }

    // -------------------------------------------------------------------------
    // Tracker maintenance
    // -------------------------------------------------------------------------

    /** `_clear_user_tracking`. */
    method ClearUserTracking(userId: string)
      modifies this
      ensures requests == old(requests) - {userId}
      ensures messages == old(messages) - {userId}
      ensures content == old(content) - {userId}
    {
      requests := requests - {userId};
      messages := messages - {userId};
      content := content - {userId};
    }

    /** `cleanup_tracking`: every user's request times keep only those after
        `before`, and users left with none are dropped; the message and text
        trackers are not touched. */
    method CleanupTracking(before: int)
      modifies this
      ensures forall id :: id in requests <==> id in old(requests) && After(old(requests)[id], before) != []
      ensures forall id :: id in requests ==> requests[id] == After(old(requests)[id], before)
      ensures messages == old(messages) && content == old(content)
    {
      var pending := requests.Keys;
      var kept := requests;
      while pending != {}
        invariant pending <= old(requests).Keys
        invariant forall id :: id in kept && id !in pending ==> id in old(requests)
        invariant forall id :: id in pending ==> id in kept && kept[id] == old(requests)[id]
        invariant forall id :: id in old(requests) && id !in pending ==>
          (id in kept <==> After(old(requests)[id], before) != []) &&
          (id in kept ==> kept[id] == After(old(requests)[id], before))
        decreases |pending|
      {
        var id :| id in pending;
        var later := After(kept[id], before);
        if later == [] {
          kept := kept - {id};
        } else {
          kept := kept[id := later];
        }
        pending := pending - {id};
      }
      requests := kept;
    }
  }
}
