// The durable store (src/storage/database.py): the user, context, message,
// token-quota, ban-record and role tables behind their repositories.  The
// store is one object whose tables the repository methods read and update;
// when the database is unreachable every repository call raises and nothing
// changes.  Records are rebuilt through the model constructors when they are
// read, so quota rows are validated and their minute logs pruned on load.

module Store {
  import opened Common
  import opened Models
  import opened Sorting

  const DB_UNAVAILABLE := "database unavailable"
  const DUPLICATE_KEY := "duplicate primary key"
  const QUOTA_NOT_FOUND := "Token quota not found"
  const QUOTA_INVALID := "token quota failed validation"
  const BAN_NOT_FOUND := "Ban record not found"
  const BAN_AMBIGUOUS := "multiple ban records found"

  /** Every context is loaded with this message bound, whatever it was created with. */
  const LOADED_MAX_MESSAGES: Positive := 200

  /** The bound on `UserRepository.list_all`. */
  const LIST_ALL_LIMIT: nat := 100

  function TimestampKey(m: ChatMessage): int { m.timestamp }

  /** The stored messages of context `id`, in insertion order. */
  function MessagesOf(rows: seq<(string, ChatMessage)>, id: string): (r: seq<ChatMessage>)
    ensures |r| <= |rows|
    ensures forall m :: m in r <==> (id, m) in rows
  {
    if rows == [] then []
    else
      var init := MessagesOf(rows[..|rows| - 1], id);
      var last := rows[|rows| - 1];
      assert rows == rows[..|rows| - 1] + [last];
      init + (if last.0 == id then [last.1] else [])
  }

  /** `ContextRepository._orm_to_model`: the row with all of its stored
      messages ordered by timestamp and the fixed message bound. */
  function Load(row: Context, rows: seq<(string, ChatMessage)>): (c: Context)
  {
    row.(messages := SortBy(MessagesOf(rows, row.contextId), TimestampKey), maxMessages := LOADED_MAX_MESSAGES)
  }

  lemma LoadOrdered(row: Context, rows: seq<(string, ChatMessage)>)
    ensures var c := Load(row, rows);
      c.maxMessages == 200 &&
      (forall i, j :: 0 <= i < j < |c.messages| ==> c.messages[i].timestamp <= c.messages[j].timestamp) &&
      multiset(c.messages) == multiset(MessagesOf(rows, row.contextId))
  {
    SortByCorrect(MessagesOf(rows, row.contextId), TimestampKey);
  }

  /** A quota row rebuilt as a `TokenQuota` at `now`: the minute log loses
      the requests a minute old or older. */
  function LoadQuota(row: TokenQuota, now: int): (q: TokenQuota)
    ensures q.(minuteRequests := row.minuteRequests) == row
    ensures q.minuteRequests == Recent(row.minuteRequests, now)
  {
    row.(minuteRequests := ValidateMinuteRequests(row.minuteRequests, now))
  }

  /** `list_expired`'s filter. */
  predicate ExpiredAt(c: Context, now: int)
  {
    c.status == Active && c.expiresAt.Some? && c.expiresAt.value < now
  }

  /** `get_active_ban`'s filter. */
  predicate BanCandidate(b: BanRecord, userId: string, now: int)
  {
    b.userId == userId && (b.banType == Permanent || (b.expiresAt.Some? && b.expiresAt.value > now))
  }

  /** The most recently started candidate ban; among equal start times, the later row. */
  function LatestCandidate(bans: seq<BanRecord>, userId: string, now: int): (r: Option<BanRecord>)
    ensures r.Some? ==> r.value in bans && BanCandidate(r.value, userId, now)
    ensures r.Some? ==> forall b :: b in bans && BanCandidate(b, userId, now) ==> b.startedAt <= r.value.startedAt
    ensures r.None? <==> forall b :: b in bans ==> !BanCandidate(b, userId, now)
  {
    if bans == [] then None
    else
      var last := bans[|bans| - 1];
      var rest := LatestCandidate(bans[..|bans| - 1], userId, now);
      assert bans == bans[..|bans| - 1] + [last];
      if BanCandidate(last, userId, now) && (rest.None? || rest.value.startedAt <= last.startedAt) then Some(last)
      else rest
  }

  /** The indices of the ban rows keyed by (user, start time). */
  function BanKeyMatches(bans: seq<BanRecord>, userId: string, startedAt: int): (r: seq<nat>)
    ensures forall k :: 0 <= k < |r| ==> r[k] < |bans|
    ensures forall i :: 0 <= i < |bans| ==> (i in r <==> bans[i].userId == userId && bans[i].startedAt == startedAt)
  {
    if bans == [] then []
    else
      var last := |bans| - 1;
      BanKeyMatches(bans[..last], userId, startedAt) +
      (if bans[last].userId == userId && bans[last].startedAt == startedAt then [last] else [])
  }

  function BanStartKey(b: BanRecord): int { -b.startedAt }

  function RoleCreatedKey(r: RolePlayConfig): int { r.createdAt }

  function ActiveRoles(roles: seq<RolePlayConfig>): (r: seq<RolePlayConfig>)
    ensures forall x :: x in r <==> x in roles && x.isActive
  {
    if roles == [] then []
    else
      assert roles == roles[..|roles| - 1] + [roles[|roles| - 1]];
      ActiveRoles(roles[..|roles| - 1]) + (if roles[|roles| - 1].isActive then [roles[|roles| - 1]] else [])
  }

  function FindRole(roles: seq<RolePlayConfig>, roleId: string): (r: Option<RolePlayConfig>)
    ensures r.Some? ==> r.value in roles && r.value.roleId == roleId
    ensures r.None? <==> forall x :: x in roles ==> x.roleId != roleId
  {
    if roles == [] then None
    else if roles[0].roleId == roleId then Some(roles[0])
    else
      assert forall x :: x in roles ==> x == roles[0] || x in roles[1..];
      FindRole(roles[1..], roleId)
  }

  predicate NoDuplicates<T(==)>(s: seq<T>)
  {
    forall i, j :: 0 <= i < j < |s| ==> s[i] != s[j]
  }

  class Database {
    /** Whether the database can be reached; when it cannot, every repository call raises. */
    const up: bool
    var users: map<string, User>
    var userOrder: seq<string>
    var contexts: map<string, Context>
    var messageRows: seq<(string, ChatMessage)>
    var quotas: map<string, TokenQuota>
    var bans: seq<BanRecord>
    var roles: seq<RolePlayConfig>

    /** Rows are keyed by their own ids, and `userOrder` is the user table's row order. */
    ghost predicate Valid()
      reads this
    {
      (forall id :: id in users ==> users[id].userId == id) &&
      (forall id :: id in contexts ==> contexts[id].contextId == id && contexts[id].messages == []) &&
      (forall id :: id in quotas ==> quotas[id].userId == id) &&
      (forall id :: id in users <==> id in userOrder) && NoDuplicates(userOrder)
    }

    twostate predicate UsersUnchanged()
      reads this
    {
      users == old(users) && userOrder == old(userOrder)
    }

    twostate predicate ContextsUnchanged()
      reads this
    {
      contexts == old(contexts) && messageRows == old(messageRows)
    }

    twostate predicate QuotasUnchanged()
      reads this
    {
      quotas == old(quotas)
    }

    twostate predicate BansUnchanged()
      reads this
    {
      bans == old(bans)
    }

    twostate predicate RolesUnchanged()
      reads this
    {
      roles == old(roles)
    }

    constructor (up: bool)
      ensures this.up == up && Valid()
      ensures users == map[] && userOrder == [] && contexts == map[] && messageRows == []
      ensures quotas == map[] && bans == [] && roles == []
    {
      this.up := up;
      users := map[];
      userOrder := [];
      contexts := map[];
      messageRows := [];
      quotas := map[];
      bans := [];
      roles := [];
    }

    // -------------------------------------------------------------------------
    // UserRepository
    // -------------------------------------------------------------------------

    /** `UserRepository.get`. */
    function GetUser(userId: string): (r: Outcome<Option<User>>)
      reads this
      ensures r.Raised? <==> !up
      ensures r.Ok? ==> (r.value.Some? <==> userId in users)
      ensures r.Ok? && r.value.Some? ==> r.value.value == users[userId]
    {
      if !up then Raised(DB_UNAVAILABLE)
      else if userId in users then Ok(Some(users[userId])) else Ok(None)
    }

    /** `UserRepository.create`: a second row with the same id violates the primary key. */
    method CreateUser(u: User) returns (r: Outcome<User>)
      requires Valid()
      modifies this
      ensures Valid()
      ensures r.Ok? <==> up && u.userId !in old(users)
      ensures r.Ok? ==> r.value == u && users == old(users)[u.userId := u] && userOrder == old(userOrder) + [u.userId]
      ensures r.Raised? ==> users == old(users) && userOrder == old(userOrder)
      ensures contexts == old(contexts) && messageRows == old(messageRows)
      ensures quotas == old(quotas) && bans == old(bans) && roles == old(roles)
    {
      if !up {
        return Raised(DB_UNAVAILABLE);
      }
      if u.userId in users {
        return Raised(DUPLICATE_KEY);
      }
      users := users[u.userId := u];
      userOrder := userOrder + [u.userId];
      r := Ok(u);
    }

    /** `UserRepository.update`: rewrites every column but the creation time
        of the row with the user's id; an absent row is left absent. */
    method UpdateUser(u: User) returns (r: Outcome<User>)
      requires Valid()
      modifies this
      ensures Valid()
      ensures r.Raised? <==> !up
      ensures r.Ok? ==> r.value == u
      ensures r.Ok? && u.userId in old(users) ==>
        users == old(users)[u.userId := u.(createdAt := old(users)[u.userId].createdAt)]
      ensures r.Raised? || u.userId !in old(users) ==> users == old(users)
      ensures userOrder == old(userOrder) && contexts == old(contexts)
      ensures messageRows == old(messageRows) && quotas == old(quotas) && bans == old(bans) && roles == old(roles)
    {
      if !up {
        return Raised(DB_UNAVAILABLE);
      }
      if u.userId in users {
        users := users[u.userId := u.(createdAt := users[u.userId].createdAt)];
      }
      r := Ok(u);
    }

    /** `UserRepository.get_or_create`: an active, unbanned user is created
        only when none is stored; otherwise the stored user is returned. */
    method GetOrCreateUser(userId: string, nickname: string, now: int) returns (r: Outcome<User>)
      requires Valid()
      modifies this
      ensures Valid()
      ensures r.Raised? <==> !up
      ensures r.Ok? && userId in old(users) ==> r.value == old(users)[userId] && users == old(users)
      ensures r.Ok? && userId !in old(users) ==>
        r.value == User(userId, nickname, true, false, None, map[], now, now) &&
        users == old(users)[userId := r.value]
      ensures r.Ok? ==> r.value.userId == userId && userId in users
      ensures r.Raised? ==> users == old(users)
      ensures contexts == old(contexts) && messageRows == old(messageRows)
      ensures quotas == old(quotas) && bans == old(bans) && roles == old(roles)
    {
      var got := GetUser(userId);
      if got.Raised? {
        return Raised(got.error);
      }
      if got.value.Some? {
        return Ok(got.value.value);
      }
      r := CreateUser(User(userId, nickname, true, false, None, map[], now, now));
    }

    /** `UserRepository.list_all()`: the first 100 rows in table order. */
    function ListAllUsers(): (r: Outcome<seq<User>>)
      requires Valid()
      reads this
      ensures r.Raised? <==> !up
      ensures r.Ok? ==> |r.value| == if |userOrder| < LIST_ALL_LIMIT then |userOrder| else LIST_ALL_LIMIT
      ensures r.Ok? ==> forall i :: 0 <= i < |r.value| ==> r.value[i] == users[userOrder[i]]
    {
      if !up then Raised(DB_UNAVAILABLE)
      else
        var n := if |userOrder| < LIST_ALL_LIMIT then |userOrder| else LIST_ALL_LIMIT;
        Ok(RowsOf(userOrder[..n], users))
    }

    // -------------------------------------------------------------------------
    // ContextRepository
    // -------------------------------------------------------------------------

    /** `ContextRepository.create`: stores the row (its messages live in the
        message table) and returns it as it would be loaded. */
    method CreateContext(c: Context) returns (r: Outcome<Context>)
      requires Valid()
      modifies this
      ensures Valid()
      ensures r.Ok? <==> up && c.contextId !in old(contexts)
      ensures r.Ok? ==> contexts == old(contexts)[c.contextId := c.(messages := [])] &&
                        r.value == Load(c.(messages := []), messageRows)
      ensures r.Raised? ==> contexts == old(contexts)
      ensures users == old(users) && userOrder == old(userOrder) && messageRows == old(messageRows)
      ensures quotas == old(quotas) && bans == old(bans) && roles == old(roles)
    {
      if !up {
        return Raised(DB_UNAVAILABLE);
      }
      if c.contextId in contexts {
        return Raised(DUPLICATE_KEY);
      }
      contexts := contexts[c.contextId := c.(messages := [])];
      r := Ok(Load(c.(messages := []), messageRows));
    }

    /** `ContextRepository.get`. */
    function GetContext(contextId: string): (r: Outcome<Option<Context>>)
      reads this
      ensures r.Raised? <==> !up
      ensures r.Ok? ==> (r.value.Some? <==> contextId in contexts)
      ensures r.Ok? && r.value.Some? ==> r.value.value == Load(contexts[contextId], messageRows)
    {
      if !up then Raised(DB_UNAVAILABLE)
      else if contextId in contexts then Ok(Some(Load(contexts[contextId], messageRows)))
      else Ok(None)
    }

    /** `ContextRepository.update`: rewrites the mutable columns of the row
        with the context's id and stamps `updated_at` with the current time;
        the creator, the creation time and the messages are not touched. */
    method UpdateContext(c: Context, now: int) returns (r: Outcome<Context>)
      requires Valid()
      modifies this
      ensures Valid()
      ensures r.Raised? <==> !up
      ensures r.Ok? ==> r.value == c
      ensures r.Ok? && c.contextId in old(contexts) ==>
        contexts == old(contexts)[c.contextId := UpdatedRow(old(contexts)[c.contextId], c, now)]
      ensures r.Raised? || c.contextId !in old(contexts) ==> contexts == old(contexts)
      ensures users == old(users) && userOrder == old(userOrder) && messageRows == old(messageRows)
      ensures quotas == old(quotas) && bans == old(bans) && roles == old(roles)
    {
      if !up {
        return Raised(DB_UNAVAILABLE);
      }
      if c.contextId in contexts {
        contexts := contexts[c.contextId := UpdatedRow(contexts[c.contextId], c, now)];
      }
      r := Ok(c);
    }

    /** `ContextRepository.list_expired`: the ids of exactly the ACTIVE
        contexts whose expiry lies before `now`. */
    function ListExpired(now: int): (r: Outcome<set<string>>)
      reads this
      ensures r.Raised? <==> !up
      ensures r.Ok? ==> forall id :: id in r.value <==> id in contexts && ExpiredAt(contexts[id], now)
    {
      if !up then Raised(DB_UNAVAILABLE)
      else Ok(set id | id in contexts && ExpiredAt(contexts[id], now))
    }

    /** `ContextRepository.add_message`: one more row in the message table. */
    method AddMessage(contextId: string, m: ChatMessage) returns (r: Outcome<()>)
      requires Valid()
      modifies this
      ensures Valid()
      ensures r.Raised? <==> !up
      ensures r.Ok? ==> messageRows == old(messageRows) + [(contextId, m)]
      ensures r.Raised? ==> messageRows == old(messageRows)
      ensures users == old(users) && userOrder == old(userOrder) && contexts == old(contexts)
      ensures quotas == old(quotas) && bans == old(bans) && roles == old(roles)
    {
      if !up {
        return Raised(DB_UNAVAILABLE);
      }
      messageRows := messageRows + [(contextId, m)];
      r := Ok(());
    }

    // -------------------------------------------------------------------------
    // TokenQuotaRepository
    // -------------------------------------------------------------------------

    /** `TokenQuotaRepository.get`: the row is rebuilt as a `TokenQuota`, so a
        row breaking a field constraint raises and the minute log loses the
        entries a minute old or older. */
    function GetQuota(userId: string, now: int): (r: Outcome<Option<TokenQuota>>)
      reads this
      ensures !up ==> r.Raised?
      ensures up && userId !in quotas ==> r == Ok(None)
      ensures up && userId in quotas ==>
        (r.Raised? <==> !QuotaConstraints(quotas[userId])) &&
        (r.Ok? ==> r.value == Some(LoadQuota(quotas[userId], now)))
    {
      if !up then Raised(DB_UNAVAILABLE)
      else if userId !in quotas then Ok(None)
      else if !QuotaConstraints(quotas[userId]) then Raised(QUOTA_INVALID)
      else Ok(Some(LoadQuota(quotas[userId], now)))
    }

    /** `TokenQuotaRepository.create`. */
    method CreateQuota(q: TokenQuota, now: int) returns (r: Outcome<TokenQuota>)
      requires Valid()
      modifies this
      ensures Valid()
      ensures r.Ok? <==> up && q.userId !in old(quotas)
      ensures r.Ok? ==> quotas == old(quotas)[q.userId := q] &&
                        r.value == LoadQuota(q, now)
      ensures r.Raised? ==> quotas == old(quotas)
      ensures users == old(users) && userOrder == old(userOrder) && contexts == old(contexts)
      ensures messageRows == old(messageRows) && bans == old(bans) && roles == old(roles)
    {
      if !up {
        return Raised(DB_UNAVAILABLE);
      }
      if q.userId in quotas {
        return Raised(DUPLICATE_KEY);
      }
      quotas := quotas[q.userId := q];
      r := Ok(LoadQuota(q, now));
    }

    /** `TokenQuotaRepository.update`: rewrites the row with the quota's user
        id, if there is one, and hands back the quota it was given. */
    method UpdateQuota(q: TokenQuota) returns (r: Outcome<TokenQuota>)
      requires Valid()
      modifies this
      ensures Valid()
      ensures r.Raised? <==> !up
      ensures r.Ok? ==> r.value == q
      ensures r.Ok? && q.userId in old(quotas) ==> quotas == old(quotas)[q.userId := q]
      ensures r.Raised? || q.userId !in old(quotas) ==> quotas == old(quotas)
      ensures users == old(users) && userOrder == old(userOrder) && contexts == old(contexts)
      ensures messageRows == old(messageRows) && bans == old(bans) && roles == old(roles)
    {
      if !up {
        return Raised(DB_UNAVAILABLE);
      }
      if q.userId in quotas {
        quotas := quotas[q.userId := q];
      }
      r := Ok(q);
    }

    /** `TokenQuotaRepository.increment_used`: both counters of the loaded
        quota grow by `tokens`; a missing quota raises. */
    method IncrementUsed(userId: string, tokens: int, now: int) returns (r: Outcome<TokenQuota>)
      requires Valid()
      modifies this
      ensures Valid()
      ensures r.Ok? <==> up && userId in old(quotas) && QuotaConstraints(old(quotas)[userId])
      ensures r.Ok? ==>
        var q := LoadQuota(old(quotas)[userId], now);
        r.value == q.(used := q.used + tokens, dailyUsed := q.dailyUsed + tokens) &&
        quotas == old(quotas)[userId := r.value]
      ensures r.Raised? ==> quotas == old(quotas)
      ensures users == old(users) && userOrder == old(userOrder) && contexts == old(contexts)
      ensures messageRows == old(messageRows) && bans == old(bans) && roles == old(roles)
    {
      var got := GetQuota(userId, now);
      if got.Raised? {
        return Raised(got.error);
      }
      if got.value.None? {
        return Raised(QUOTA_NOT_FOUND);
      }
      var q := got.value.value;
      r := UpdateQuota(q.(used := q.used + tokens, dailyUsed := q.dailyUsed + tokens));
    }

    /** `TokenQuotaRepository.reset_daily`: today's usage of the loaded quota
        back to 0 and the next reset one day from now; a missing quota raises. */
    method ResetDaily(userId: string, now: int) returns (r: Outcome<TokenQuota>)
      requires Valid()
      modifies this
      ensures Valid()
      ensures r.Ok? <==> up && userId in old(quotas) && QuotaConstraints(old(quotas)[userId])
      ensures r.Ok? ==>
        r.value == LoadQuota(old(quotas)[userId], now).(dailyUsed := 0, dailyReset := now + DAY) &&
        quotas == old(quotas)[userId := r.value]
      ensures r.Raised? ==> quotas == old(quotas)
      ensures users == old(users) && userOrder == old(userOrder) && contexts == old(contexts)
      ensures messageRows == old(messageRows) && bans == old(bans) && roles == old(roles)
    {
      var got := GetQuota(userId, now);
      if got.Raised? {
        return Raised(got.error);
      }
      if got.value.None? {
        return Raised(QUOTA_NOT_FOUND);
      }
      var q := got.value.value;
      r := UpdateQuota(q.(dailyUsed := 0, dailyReset := now + DAY));
    }

    // -------------------------------------------------------------------------
    // BanRecordRepository
    // -------------------------------------------------------------------------

    /** `BanRecordRepository.create`. */
    method CreateBan(b: BanRecord) returns (r: Outcome<BanRecord>)
      requires Valid()
      modifies this
      ensures Valid()
      ensures r.Raised? <==> !up
      ensures r.Ok? ==> r.value == b && bans == old(bans) + [b]
      ensures r.Raised? ==> bans == old(bans)
      ensures users == old(users) && userOrder == old(userOrder) && contexts == old(contexts)
      ensures messageRows == old(messageRows) && quotas == old(quotas) && roles == old(roles)
    {
      if !up {
        return Raised(DB_UNAVAILABLE);
      }
      bans := bans + [b];
      r := Ok(b);
    }

    /** `BanRecordRepository.update`: the one row keyed by (user, start
        time) gets the record's expiry and details; no row, or more than one,
        raises. */
    method UpdateBan(b: BanRecord) returns (r: Outcome<BanRecord>)
      requires Valid()
      modifies this
      ensures Valid()
      ensures var keyed := BanKeyMatches(old(bans), b.userId, b.startedAt);
        (r.Ok? <==> up && |keyed| == 1) &&
        (r.Ok? ==> r.value == old(bans)[keyed[0]].(expiresAt := b.expiresAt, details := b.details) &&
                   bans == old(bans)[keyed[0] := r.value])
      ensures r.Raised? ==> bans == old(bans)
      ensures users == old(users) && userOrder == old(userOrder) && contexts == old(contexts)
      ensures messageRows == old(messageRows) && quotas == old(quotas) && roles == old(roles)
    {
      if !up {
        return Raised(DB_UNAVAILABLE);
      }
      var keyed := BanKeyMatches(bans, b.userId, b.startedAt);
      if |keyed| == 0 {
        return Raised(BAN_NOT_FOUND);
      }
      if |keyed| > 1 {
        return Raised(BAN_AMBIGUOUS);
      }
      var row := bans[keyed[0]].(expiresAt := b.expiresAt, details := b.details);
      bans := bans[keyed[0] := row];
      r := Ok(row);
    }

    /** `BanRecordRepository.get_active_ban`: the latest-started record of the
        user that is permanent or expires after `now`. */
    method GetActiveBan(userId: string, now: int) returns (r: Outcome<Option<BanRecord>>)
      ensures r.Raised? <==> !up
      ensures r.Ok? ==> r.value == LatestCandidate(bans, userId, now)
    {
      if !up {
        return Raised(DB_UNAVAILABLE);
      }
      var best: Option<BanRecord> := None;
      var i := 0;
      while i < |bans|
        invariant 0 <= i <= |bans|
        invariant best == LatestCandidate(bans[..i], userId, now)
      {
        assert bans[..i + 1][..i] == bans[..i];
        var b := bans[i];
        if BanCandidate(b, userId, now) && (best.None? || best.value.startedAt <= b.startedAt) {
          best := Some(b);
        }
        i := i + 1;
      }
      assert bans[..i] == bans;
      r := Ok(best);
    }

    /** `BanRecordRepository.list_by_user`: the user's records, latest start first. */
    function ListBansByUser(userId: string): (r: Outcome<seq<BanRecord>>)
      reads this
      ensures r.Raised? <==> !up
      ensures r.Ok? ==> (forall b :: b in r.value <==> b in bans && b.userId == userId) &&
                        (forall i, j :: 0 <= i < j < |r.value| ==> r.value[i].startedAt >= r.value[j].startedAt)
    {
      if !up then Raised(DB_UNAVAILABLE)
      else
        ListBansByUserCorrect(bans, userId);
        Ok(SortBy(UserBans(bans, userId), BanStartKey))
    }

    // -------------------------------------------------------------------------
    // RoleConfigRepository
    // -------------------------------------------------------------------------

    /** `RoleConfigRepository.get`. */
    function GetRole(roleId: string): (r: Outcome<Option<RolePlayConfig>>)
      reads this
      ensures r.Raised? <==> !up
      ensures r.Ok? ==> r.value == FindRole(roles, roleId)
    {
      if !up then Raised(DB_UNAVAILABLE) else Ok(FindRole(roles, roleId))
    }

    /** `RoleConfigRepository.create`. */
    method CreateRole(role: RolePlayConfig) returns (r: Outcome<RolePlayConfig>)
      requires Valid()
      modifies this
      ensures Valid()
      ensures r.Ok? <==> up && FindRole(old(roles), role.roleId).None?
      ensures r.Ok? ==> r.value == role && roles == old(roles) + [role]
      ensures r.Raised? ==> roles == old(roles)
      ensures users == old(users) && userOrder == old(userOrder) && contexts == old(contexts)
      ensures messageRows == old(messageRows) && quotas == old(quotas) && bans == old(bans)
    {
      if !up {
        return Raised(DB_UNAVAILABLE);
      }
      if FindRole(roles, role.roleId).Some? {
        return Raised(DUPLICATE_KEY);
      }
      roles := roles + [role];
      r := Ok(role);
    }

    /** `RoleConfigRepository.list_active`: the enabled roles, oldest first. */
    function ListActiveRoles(): (r: Outcome<seq<RolePlayConfig>>)
      reads this
      ensures r.Raised? <==> !up
      ensures r.Ok? ==> (forall x :: x in r.value <==> x in roles && x.isActive) &&
                        (forall i, j :: 0 <= i < j < |r.value| ==> r.value[i].createdAt <= r.value[j].createdAt)
    {
      if !up then Raised(DB_UNAVAILABLE)
      else
        ListActiveRolesCorrect(roles);
        Ok(SortBy(ActiveRoles(roles), RoleCreatedKey))
    }
  }

  /** The row after `ContextRepository.update`. */
  function UpdatedRow(row: Context, c: Context, now: int): (r: Context)
    ensures r.contextId == row.contextId && r.creatorId == row.creatorId && r.createdAt == row.createdAt
    ensures r.messages == row.messages && r.maxMessages == row.maxMessages
    ensures r.status == c.status && r.participants == c.participants && r.updatedAt == now
  {
    row.(kind := c.kind, name := c.name, participants := c.participants, status := c.status,
         currentRoleId := c.currentRoleId, metadata := c.metadata, updatedAt := now, expiresAt := c.expiresAt)
  }

  /** The rows of `users` listed in `order`. */
  function RowsOf(order: seq<string>, users: map<string, User>): (r: seq<User>)
    requires forall id :: id in order ==> id in users
    ensures |r| == |order| && forall i :: 0 <= i < |r| ==> r[i] == users[order[i]]
  {
    if order == [] then [] else [users[order[0]]] + RowsOf(order[1..], users)
  }

  function UserBans(bans: seq<BanRecord>, userId: string): (r: seq<BanRecord>)
    ensures forall b :: b in r <==> b in bans && b.userId == userId
  {
    if bans == [] then []
    else
      assert bans == bans[..|bans| - 1] + [bans[|bans| - 1]];
      UserBans(bans[..|bans| - 1], userId) + (if bans[|bans| - 1].userId == userId then [bans[|bans| - 1]] else [])
  }

  /** Listing a user's bans returns exactly that user's records, latest start first. */
  lemma ListBansByUserCorrect(bans: seq<BanRecord>, userId: string)
    ensures var r := SortBy(UserBans(bans, userId), BanStartKey);
      (forall b :: b in r <==> b in bans && b.userId == userId) &&
      (forall i, j :: 0 <= i < j < |r| ==> r[i].startedAt >= r[j].startedAt)
  {
    var u := UserBans(bans, userId);
    SortByCorrect(u, BanStartKey);
    var r := SortBy(u, BanStartKey);
    forall b ensures b in r <==> b in u {
      assert b in r <==> b in multiset(r);
    }
    forall i, j | 0 <= i < j < |r| ensures r[i].startedAt >= r[j].startedAt {
      assert BanStartKey(r[i]) <= BanStartKey(r[j]);
    }
  }

  /** Listing roles returns exactly the enabled roles, oldest first. */
  lemma ListActiveRolesCorrect(roles: seq<RolePlayConfig>)
    ensures var r := SortBy(ActiveRoles(roles), RoleCreatedKey);
      (forall x :: x in r <==> x in roles && x.isActive) &&
      (forall i, j :: 0 <= i < j < |r| ==> r[i].createdAt <= r[j].createdAt)
  {
    var a := ActiveRoles(roles);
    SortByCorrect(a, RoleCreatedKey);
    var r := SortBy(a, RoleCreatedKey);
    forall x ensures x in r <==> x in a {
      assert x in r <==> x in multiset(r);
    }
  }
}
