// The token controller (src/managers/token.py): per-user token quotas with a
// total budget, a daily budget that rolls over at `daily_reset`, and a
// per-minute request log.  The quota is loaded (created with defaults, or
// rolled over when the reset time has come), checked, then updated and
// written back through the quota repository.

module Tokens {
  import opened Common
  import opened Models
  import opened Store

  const DEFAULT_TOTAL_QUOTA := 50000
  const DEFAULT_DAILY_LIMIT := 5000
  const DEFAULT_MINUTE_LIMIT := 200

  const QUOTA_TOO_LOW_PREFIX := "配额不足，剩余 "
  const DAILY_TOO_LOW_PREFIX := "今日配额不足，剩余 "
  const TOKEN_SUFFIX := " Token"
  const TOO_FREQUENT := "请求过于频繁，请稍后再试"

  /** `_create_default_quota`: a fresh quota whose first reset is a day away. */
  function DefaultQuota(userId: string, now: int): (q: TokenQuota)
    ensures q.userId == userId && QuotaConstraints(q)
    ensures q.totalQuota == 50000 && q.dailyLimit == 5000 && q.minuteLimit == 200
    ensures q.used == 0 && q.dailyUsed == 0 && q.minuteRequests == [] && q.dailyReset == now + DAY
    ensures Remaining(q) == 50000 && DailyRemaining(q) == 5000
  {
    TokenQuota(userId, DEFAULT_TOTAL_QUOTA, 0, DEFAULT_DAILY_LIMIT, 0, now + DAY, DEFAULT_MINUTE_LIMIT, [])
  }

  /** `_check_and_reset_daily` on a loaded quota: once `now` reaches the reset
      time, today's usage starts again from 0 and the next reset is a day on. */
  function DailyRolled(q: TokenQuota, now: int): (r: TokenQuota)
    ensures now < r.dailyReset
    ensures now >= q.dailyReset ==> r == q.(dailyUsed := 0, dailyReset := now + DAY)
    ensures now < q.dailyReset ==> r == q
  {
    if now >= q.dailyReset then q.(dailyUsed := 0, dailyReset := now + DAY) else q
  }

  /** The quota `get_quota` hands back for the stored quota table: a missing
      row gives the default quota; a stored row is validated, its minute log
      pruned, and its daily usage rolled over when due. */
  function QuotaView(up: bool, quotas: map<string, TokenQuota>, userId: string, now: int): Outcome<TokenQuota>
  {
    if !up then Raised(DB_UNAVAILABLE)
    else if userId !in quotas then Ok(DefaultQuota(userId, now))
    else if !QuotaConstraints(quotas[userId]) then Raised(QUOTA_INVALID)
    else Ok(DailyRolled(LoadQuota(quotas[userId], now), now))
  }

  /** A quota handed back by `get_quota` is valid, its log holds only the last
      minute's requests, and its next reset lies in the future. */
  lemma QuotaViewShape(up: bool, quotas: map<string, TokenQuota>, userId: string, now: int)
    requires forall id :: id in quotas ==> quotas[id].userId == id
    requires QuotaView(up, quotas, userId, now).Ok?
    ensures var q := QuotaView(up, quotas, userId, now).value;
      q.userId == userId && QuotaConstraints(q) && now < q.dailyReset &&
      (forall i :: 0 <= i < |q.minuteRequests| ==> InLastMinute(q.minuteRequests[i], now)) &&
      (userId in quotas ==> q.used == quotas[userId].used && q.totalQuota == quotas[userId].totalQuota)
  {
  }

  /** Storing what `get_quota` handed back and loading again at the same
      instant gives the same quota. */
  lemma {:induction false} QuotaViewStable(quotas: map<string, TokenQuota>, userId: string, now: int)
    requires (forall id :: id in quotas ==> quotas[id].userId == id)
    requires QuotaView(true, quotas, userId, now).Ok?
    ensures var v := QuotaView(true, quotas, userId, now).value;
      QuotaView(true, quotas[userId := v], userId, now) == Ok(v)
  {
    var v := QuotaView(true, quotas, userId, now).value;
    if userId in quotas {
      var row := quotas[userId];
      RecentIdempotent(row.minuteRequests, now);
    }
    RecentKeepsRecent(v.minuteRequests, now);
  }

  /** The stored row of `userId`, loaded at `now`, is `v`. */
  predicate Settled(quotas: map<string, TokenQuota>, userId: string, now: int, v: TokenQuota)
  {
    userId in quotas && QuotaConstraints(quotas[userId]) &&
    LoadQuota(quotas[userId], now) == v
  }

  /** Only the row of `userId` may differ between `a` and `b`. */
  ghost predicate OthersSame(a: map<string, TokenQuota>, b: map<string, TokenQuota>, userId: string)
  {
    (forall id :: id != userId ==> (id in a <==> id in b)) &&
    (forall id :: id != userId && id in a ==> id in b && a[id] == b[id])
  }

  lemma OthersSameUpdate(a: map<string, TokenQuota>, b: map<string, TokenQuota>, userId: string, x: TokenQuota)
    requires OthersSame(a, b, userId)
    ensures b[userId := x] == a[userId := x]
  {
  }

  lemma SettledView(quotas: map<string, TokenQuota>, userId: string, now: int, v: TokenQuota)
    requires Settled(quotas, userId, now, v) && now < v.dailyReset
    ensures QuotaView(true, quotas, userId, now) == Ok(v)
  {
  }

  /** `_record_request`'s new log: the last minute's requests, then `now`. */
  function RecordedLog(log: seq<int>, now: int): (r: seq<int>)
    ensures |r| >= 1 && r[|r| - 1] == now
    ensures forall i :: 0 <= i < |r| ==> InLastMinute(r[i], now)
    ensures multiset(r) == multiset(Recent(log, now)) + multiset{now}
  {
    Recent(log, now) + [now]
  }

  /** `_check_minute_limit`: fewer than `minute_limit` requests in the last minute. */
  predicate MinuteLimitOk(q: TokenQuota, now: int)
  {
    |Recent(q.minuteRequests, now)| < q.minuteLimit
  }

  /** `_check_daily_limit`. */
  predicate DailyLimitOk(q: TokenQuota)
  {
    DailyRemaining(q) > 0
  }

  /** The private minute check is the negation of the quota's own exceeded flag. */
  lemma MinuteLimitOkIff(q: TokenQuota, now: int)
    ensures MinuteLimitOk(q, now) <==> !IsMinuteLimitExceeded(q, now)
    ensures MinuteLimitOk(q, now) <==> |q.minuteRequests| - CountOld(q.minuteRequests, now) < q.minuteLimit
  {
    MinuteLimitExceededIff(q, now);
  }

  /** The daily check passes exactly while usage is below the limit. */
  lemma DailyLimitOkIff(q: TokenQuota)
    ensures DailyLimitOk(q) <==> q.dailyUsed < q.dailyLimit
  {
  }

  /** `check_quota` on a loaded quota: total, then daily, then per-minute;
      the first failing test is reported. */
  function CheckQuotaOf(q: TokenQuota, tokens: int, now: int): (r: (bool, string))
    ensures r.0 <==> tokens <= Remaining(q) && tokens <= DailyRemaining(q) && !IsMinuteLimitExceeded(q, now)
    ensures r.0 ==> r.1 == ""
    ensures !r.0 ==> r.1 != ""
    ensures Remaining(q) < tokens ==> r.1 == QUOTA_TOO_LOW_PREFIX + NatToString(Remaining(q)) + TOKEN_SUFFIX
    ensures tokens <= Remaining(q) && DailyRemaining(q) < tokens ==>
      r.1 == DAILY_TOO_LOW_PREFIX + NatToString(DailyRemaining(q)) + TOKEN_SUFFIX
    ensures tokens <= Remaining(q) && tokens <= DailyRemaining(q) && IsMinuteLimitExceeded(q, now) ==> r.1 == TOO_FREQUENT
  {
    if Remaining(q) < tokens then (false, QUOTA_TOO_LOW_PREFIX + NatToString(Remaining(q)) + TOKEN_SUFFIX)
    else if DailyRemaining(q) < tokens then (false, DAILY_TOO_LOW_PREFIX + NatToString(DailyRemaining(q)) + TOKEN_SUFFIX)
    else if IsMinuteLimitExceeded(q, now) then (false, TOO_FREQUENT)
    else (true, "")
  }

  /** With no tokens requested only the per-minute limit can refuse. */
  lemma CheckNoTokens(q: TokenQuota, now: int)
    ensures CheckQuotaOf(q, 0, now).0 <==> MinuteLimitOk(q, now)
    ensures !CheckQuotaOf(q, 0, now).0 ==> CheckQuotaOf(q, 0, now).1 == TOO_FREQUENT
  {
    MinuteLimitOkIff(q, now);
  }

  /** The quota a successful `consume` stores. */
  function Consumed(q: TokenQuota, tokens: int, now: int): (r: TokenQuota)
    ensures r.used == q.used + tokens && r.dailyUsed == q.dailyUsed + tokens
    ensures r.minuteRequests == RecordedLog(q.minuteRequests, now)
    ensures r.(used := q.used, dailyUsed := q.dailyUsed, minuteRequests := q.minuteRequests) == q
  {
    q.(used := q.used + tokens, dailyUsed := q.dailyUsed + tokens, minuteRequests := RecordedLog(q.minuteRequests, now))
  }

  /** Consuming `tokens` from a loaded quota lowers both remainders by
      exactly `tokens` when it was allowed, and logs the request as the
      newest entry of a log that still holds only the last minute. */
  lemma ConsumedRemaining(q: TokenQuota, tokens: int, now: int)
    requires tokens >= 0
    requires CheckQuotaOf(q, tokens, now).0
    requires forall i :: 0 <= i < |q.minuteRequests| ==> InLastMinute(q.minuteRequests[i], now)
    ensures Remaining(Consumed(q, tokens, now)) == Remaining(q) - tokens
    ensures DailyRemaining(Consumed(q, tokens, now)) == DailyRemaining(q) - tokens
    ensures Consumed(q, tokens, now).minuteRequests == q.minuteRequests + [now]
  {
    RecentKeepsRecent(q.minuteRequests, now);
  }

  /** The single adjustments the quota setters make to a loaded quota. */
  datatype QuotaEdit = AddTotal(amount: int) | ClearUsage | NewDailyLimit(daily: int) | NewMinuteLimit(minute: int)

  function ApplyEdit(q: TokenQuota, e: QuotaEdit): (r: TokenQuota)
    ensures r.userId == q.userId
  {
    match e
    case AddTotal(n) => q.(totalQuota := q.totalQuota + n)
    case ClearUsage => q.(used := 0, dailyUsed := 0, minuteRequests := [])
    case NewDailyLimit(n) => q.(dailyLimit := n)
    case NewMinuteLimit(n) => q.(minuteLimit := n)
  }

  class TokenController {
    const db: Database

    constructor (db: Database)
      ensures this.db == db
    {
      this.db := db;
    }

    /** `get_quota`: hands back the quota as `QuotaView` describes it, and
        leaves the store holding either the old row or exactly that quota,
        so that loading again at the same instant gives the same quota. */
    method GetQuota(userId: string, now: int) returns (r: Outcome<TokenQuota>)
      requires db.Valid()
      modifies db
      ensures db.Valid()
      ensures r == QuotaView(db.up, old(db.quotas), userId, now)
      ensures r.Ok? ==> Settled(db.quotas, userId, now, r.value)
      ensures OthersSame(old(db.quotas), db.quotas, userId)
      ensures r.Raised? ==> db.quotas == old(db.quotas)
      ensures db.UsersUnchanged() && db.ContextsUnchanged() && db.BansUnchanged() && db.RolesUnchanged()
    {
      var got := db.GetQuota(userId, now);
      if got.Raised? {
        return Raised(got.error);
      }
      if got.value.None? {
        var created := db.CreateQuota(DefaultQuota(userId, now), now);
        r := created;
        return;
      }
      var q := got.value.value;
      RecentIdempotent(db.quotas[userId].minuteRequests, now);
      if now >= q.dailyReset {
        r := db.ResetDaily(userId, now);
      } else {
        r := Ok(q);
      }
    }

    /** `check_quota`: the verdict and message of `CheckQuotaOf` on the loaded quota. */
    method CheckQuota(userId: string, tokens: int, now: int) returns (r: Outcome<(bool, string)>)
      requires db.Valid()
      modifies db
      ensures db.Valid()
      ensures var v := QuotaView(db.up, old(db.quotas), userId, now);
        (r.Raised? <==> v.Raised?) && (r.Ok? ==> r.value == CheckQuotaOf(v.value, tokens, now))
      ensures var v := QuotaView(db.up, old(db.quotas), userId, now);
        v.Ok? ==> Settled(db.quotas, userId, now, v.value)
      ensures OthersSame(old(db.quotas), db.quotas, userId)
      ensures db.UsersUnchanged() && db.ContextsUnchanged() && db.BansUnchanged() && db.RolesUnchanged()
    {
      var q := GetQuota(userId, now);
      r := match q
        case Raised(err) => Raised(err)
        case Ok(v) => Ok(CheckQuotaOf(v, tokens, now));
    }

    /** `check_minute_limit`: true while the per-minute limit is not reached. */
    method CheckMinuteLimit(userId: string, now: int) returns (r: Outcome<bool>)
      requires db.Valid()
      modifies db
      ensures db.Valid()
      ensures var v := QuotaView(db.up, old(db.quotas), userId, now);
        (r.Raised? <==> v.Raised?) && (r.Ok? ==> (r.value <==> MinuteLimitOk(v.value, now)))
      ensures var v := QuotaView(db.up, old(db.quotas), userId, now);
        v.Ok? ==> Settled(db.quotas, userId, now, v.value)
      ensures OthersSame(old(db.quotas), db.quotas, userId)
      ensures db.UsersUnchanged() && db.ContextsUnchanged() && db.BansUnchanged() && db.RolesUnchanged()
    {
      var q := GetQuota(userId, now);
      r := match q
        case Raised(err) => Raised(err)
        case Ok(v) => Ok(!IsMinuteLimitExceeded(v, now));
    }

    /** `check_daily_limit`: true while some of today's budget is left. */
    method CheckDailyLimit(userId: string, now: int) returns (r: Outcome<bool>)
      requires db.Valid()
      modifies db
      ensures db.Valid()
      ensures var v := QuotaView(db.up, old(db.quotas), userId, now);
        (r.Raised? <==> v.Raised?) && (r.Ok? ==> (r.value <==> DailyLimitOk(v.value)))
      ensures var v := QuotaView(db.up, old(db.quotas), userId, now);
        v.Ok? ==> Settled(db.quotas, userId, now, v.value)
      ensures OthersSame(old(db.quotas), db.quotas, userId)
      ensures db.UsersUnchanged() && db.ContextsUnchanged() && db.BansUnchanged() && db.RolesUnchanged()
    {
      var q := GetQuota(userId, now);
      r := match q
        case Raised(err) => Raised(err)
        case Ok(v) => Ok(DailyRemaining(v) > 0);
    }

    /** `consume`: refused (false) when the check fails, with the loaded
        quota left as it was; otherwise both counters grow by `tokens` and the
        request is logged. */
    method Consume(userId: string, tokens: int, now: int) returns (r: Outcome<bool>)
      requires db.Valid()
      modifies db
      ensures db.Valid()
      ensures var v := QuotaView(db.up, old(db.quotas), userId, now);
        (r.Raised? <==> v.Raised?) &&
        (r.Ok? ==> (r.value <==> CheckQuotaOf(v.value, tokens, now).0)) &&
        (r.Ok? && r.value ==> userId in db.quotas && db.quotas[userId] == Consumed(v.value, tokens, now)) &&
        (r.Ok? && !r.value ==> QuotaView(db.up, db.quotas, userId, now) == v)
      ensures OthersSame(old(db.quotas), db.quotas, userId)
      ensures db.UsersUnchanged() && db.ContextsUnchanged() && db.BansUnchanged() && db.RolesUnchanged()
    {
      var check := CheckQuota(userId, tokens, now);
      if check.Raised? {
        return Raised(check.error);
      }
      ghost var v := QuotaView(db.up, old(db.quotas), userId, now).value;
      QuotaViewShape(db.up, old(db.quotas), userId, now);
      if !check.value.0 {
        SettledView(db.quotas, userId, now, v);
        return Ok(false);
      }
      r := Charge(userId, tokens, now, v);
    }

    /** The writes of an allowed `consume`: the usage counters grow by
        `tokens`, then the request is logged. */
    method Charge(userId: string, tokens: int, now: int, ghost v: TokenQuota) returns (r: Outcome<bool>)
      requires db.Valid() && db.up && Settled(db.quotas, userId, now, v) && v.userId == userId
      modifies db
      ensures db.Valid()
      ensures r == Ok(true) && userId in db.quotas && db.quotas[userId] == Consumed(v, tokens, now)
      ensures OthersSame(old(db.quotas), db.quotas, userId)
      ensures db.UsersUnchanged() && db.ContextsUnchanged() && db.BansUnchanged() && db.RolesUnchanged()
    {
      var inc := db.IncrementUsed(userId, tokens, now);
      match inc {
        case Raised(err) =>
          r := Raised(err);
        case Ok(q) =>
          ghost var mid := db.quotas;
          assert q == v.(used := v.used + tokens, dailyUsed := v.dailyUsed + tokens);
          var stored := q.(minuteRequests := RecordedLog(q.minuteRequests, now));
          var _ := db.UpdateQuota(stored);
          assert db.quotas == mid[userId := stored];
          r := Ok(true);
      }
    }

    /** Load, adjust and write back: the shape of the quota setters. */
    method Rewrite(userId: string, e: QuotaEdit, now: int) returns (r: Outcome<bool>)
      requires db.Valid()
      modifies db
      ensures db.Valid()
      ensures var v := QuotaView(db.up, old(db.quotas), userId, now);
        (r.Raised? <==> v.Raised?) && (r.Ok? ==> r.value) &&
        (r.Ok? ==> db.quotas == old(db.quotas)[userId := ApplyEdit(v.value, e)])
      ensures db.UsersUnchanged() && db.ContextsUnchanged() && db.BansUnchanged() && db.RolesUnchanged()
    {
      var got := GetQuota(userId, now);
      if got.Raised? {
        return Raised(got.error);
      }
      ghost var mid := db.quotas;
      assert got.value.userId == userId;
      var q := ApplyEdit(got.value, e);
      var _ := db.UpdateQuota(q);
      OthersSameUpdate(old(db.quotas), mid, userId, q);
      r := Ok(true);
    }

    /** `add_quota`: the total budget grows by `amount`. */
    method AddQuota(userId: string, amount: int, now: int) returns (r: Outcome<bool>)
      requires db.Valid()
      modifies db
      ensures db.Valid()
      ensures var v := QuotaView(db.up, old(db.quotas), userId, now);
        (r.Raised? <==> v.Raised?) && (r.Ok? ==> r.value) &&
        (r.Ok? ==> db.quotas == old(db.quotas)[userId := v.value.(totalQuota := v.value.totalQuota + amount)])
      ensures db.UsersUnchanged() && db.ContextsUnchanged() && db.BansUnchanged() && db.RolesUnchanged()
    {
      r := Rewrite(userId, AddTotal(amount), now);
    }

    /** `reset_user`: usage and the minute log are cleared; the limits stay. */
    method ResetUser(userId: string, now: int) returns (r: Outcome<bool>)
      requires db.Valid()
      modifies db
      ensures db.Valid()
      ensures var v := QuotaView(db.up, old(db.quotas), userId, now);
        (r.Raised? <==> v.Raised?) && (r.Ok? ==> r.value) &&
        (r.Ok? ==> db.quotas == old(db.quotas)[userId := v.value.(used := 0, dailyUsed := 0, minuteRequests := [])])
      ensures db.UsersUnchanged() && db.ContextsUnchanged() && db.BansUnchanged() && db.RolesUnchanged()
    {
      r := Rewrite(userId, ClearUsage, now);
    }

    /** `set_daily_limit`. */
    method SetDailyLimit(userId: string, limit: int, now: int) returns (r: Outcome<bool>)
      requires db.Valid()
      modifies db
      ensures db.Valid()
      ensures var v := QuotaView(db.up, old(db.quotas), userId, now);
        (r.Raised? <==> v.Raised?) && (r.Ok? ==> r.value) &&
        (r.Ok? ==> db.quotas == old(db.quotas)[userId := v.value.(dailyLimit := limit)])
      ensures db.UsersUnchanged() && db.ContextsUnchanged() && db.BansUnchanged() && db.RolesUnchanged()
    {
      r := Rewrite(userId, NewDailyLimit(limit), now);
    }

    /** `set_minute_limit`. */
    method SetMinuteLimit(userId: string, limit: int, now: int) returns (r: Outcome<bool>)
      requires db.Valid()
      modifies db
      ensures db.Valid()
      ensures var v := QuotaView(db.up, old(db.quotas), userId, now);
        (r.Raised? <==> v.Raised?) && (r.Ok? ==> r.value) &&
        (r.Ok? ==> db.quotas == old(db.quotas)[userId := v.value.(minuteLimit := limit)])
      ensures db.UsersUnchanged() && db.ContextsUnchanged() && db.BansUnchanged() && db.RolesUnchanged()
    {
      r := Rewrite(userId, NewMinuteLimit(limit), now);
    }

    /** `reset_daily`: today's usage back to 0 and the next reset a day away. */
    method ResetDaily(userId: string, now: int) returns (r: Outcome<bool>)
      requires db.Valid()
      modifies db
      ensures db.Valid()
      ensures var v := QuotaView(db.up, old(db.quotas), userId, now);
        (r.Raised? <==> v.Raised?) && (r.Ok? ==> r.value) &&
        (r.Ok? ==> db.quotas == old(db.quotas)[userId := v.value.(dailyUsed := 0, dailyReset := now + DAY)])
      ensures db.UsersUnchanged() && db.ContextsUnchanged() && db.BansUnchanged() && db.RolesUnchanged()
    {
      var got := GetQuota(userId, now);
      if got.Raised? {
        return Raised(got.error);
      }
      ghost var mid := db.quotas;
      var reset := db.ResetDaily(userId, now);
      OthersSameUpdate(old(db.quotas), mid, userId, got.value.(dailyUsed := 0, dailyReset := now + DAY));
      r := match reset
        case Raised(err) => Raised(err)
        case Ok(_) => Ok(true);
    }
  }
}
