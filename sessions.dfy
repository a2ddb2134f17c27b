// Conversation contexts (src/core/context.py): a cache storage and a
// durable storage combined into the hybrid storage the context manager uses
// by default, and the manager's operations on participants, messages and
// status. The cache is a map from context id to context; the durable store
// is the shared `Database`.

module Sessions {
  import opened Common
  import opened Models
  import opened Store

  // ---------------------------------------------------------------------------
  // Row-level facts
  // ---------------------------------------------------------------------------

  /** The row `DatabaseContextStorage.save` leaves for `c`: an update of the
      existing row, or a new row. */
  function SavedRow(contexts: map<string, Context>, c: Context, now: int): Context
  {
    if c.contextId in contexts then UpdatedRow(contexts[c.contextId], c, now) else c.(messages := [])
  }

  /** A context loaded from its row, given a new status and written back,
      changes exactly its status and update time. */
  lemma RewriteLoaded(row: Context, rows: seq<(string, ChatMessage)>, s: ContextStatus, t: int, now: int)
    ensures UpdatedRow(row, Load(row, rows).(status := s, updatedAt := t), now) == row.(status := s, updatedAt := now)
  {
  }

  /** The durable table after a soft delete of `id`. */
  function SoftDeleted(contexts: map<string, Context>, id: string, now: int): (r: map<string, Context>)
    ensures r.Keys == contexts.Keys
    ensures id in contexts ==> r[id].status == Deleted
    ensures forall k :: k in contexts && k != id ==> r[k] == contexts[k]
  {
    if id in contexts then contexts[id := contexts[id].(status := Deleted, updatedAt := now)] else contexts
  }

  /** `list_active`'s filter: ACTIVE, and including the user when a non-empty id is given. */
  predicate Listed(c: Context, userId: Option<string>)
  {
    c.status == Active && (userId.None? || userId.value == "" || userId.value in c.participants)
  }

  /** Python's `s[-n:]` for any integer n other than 0: the last n elements
      for positive n, and all but the first -n elements for negative n. */
  function PyTail<T>(s: seq<T>, n: int): (r: seq<T>)
    requires n != 0
    ensures n > 0 ==> r == LastN(s, n)
    ensures n < 0 ==> r == if -n <= |s| then s[-n..] else []
  {
    if n > 0 then (if n <= |s| then s[|s| - n..] else s)
    else if -n <= |s| then s[-n..] else []
  }

  /** The message list after `add_message` appends `m`: the newest `bound` messages. */
  function Trimmed(messages: seq<ChatMessage>, m: ChatMessage, bound: Positive): (r: seq<ChatMessage>)
    ensures |r| <= bound && |r| <= |messages| + 1
    ensures |r| > 0 && r[|r| - 1] == m
    ensures r == (messages + [m])[|messages| + 1 - |r|..]
    ensures |messages| + 1 <= bound ==> r == messages + [m]
  {
    var all := messages + [m];
    if |all| > bound then all[|all| - bound..] else all
  }

  /** `get_messages`: everything, or for a truthy limit below the length,
      Python's `messages[-limit:]`. */
  function Latest(messages: seq<ChatMessage>, limit: Option<int>): (r: seq<ChatMessage>)
    ensures limit.None? || limit.value == 0 || |messages| <= limit.value ==> r == messages
    ensures limit.Some? && limit.value > 0 ==> r == LastN(messages, limit.value)
  {
    if limit.Some? && limit.value != 0 && |messages| > limit.value then PyTail(messages, limit.value) else messages
  }

  /** A negative limit drops messages from the front instead of keeping the last ones. */
  lemma NegativeLimitDropsFront(messages: seq<ChatMessage>, limit: int)
    requires limit < 0 && -limit <= |messages|
    ensures Latest(messages, Some(limit)) == messages[-limit..]
  {
  }

  /** The user table after `userId` leaves context `id`: its current context
      is cleared when it was `id`, and nothing else changes. */
  function Left(users: map<string, User>, userId: string, id: string): (r: map<string, User>)
    ensures r.Keys == users.Keys
    ensures userId in r ==> r[userId].currentContextId != Some(id)
    ensures forall k :: k in users && k != userId ==> r[k] == users[k]
    ensures forall k :: k in users ==> r[k] == users[k] || r[k] == users[k].(currentContextId := None)
  {
    if userId in users && users[userId].currentContextId == Some(id)
    then users[userId := users[userId].(currentContextId := None)] else users
  }

  /** The user table after every participant leaves context `id`, in participant order. */
  function Detached(users: map<string, User>, participants: seq<string>, id: string): (r: map<string, User>)
    ensures r.Keys == users.Keys
    ensures forall p :: p in participants && p in r ==> r[p].currentContextId != Some(id)
    ensures forall k :: k in users && k !in participants ==> r[k] == users[k]
    ensures forall k :: k in users ==> r[k] == users[k] || r[k] == users[k].(currentContextId := None)
  {
    if participants == [] then users
    else
      var init := participants[..|participants| - 1];
      assert forall q :: q in participants ==> q in init || q == participants[|participants| - 1];
      Left(Detached(users, init, id), participants[|participants| - 1], id)
  }

  lemma DetachedStep(users: map<string, User>, participants: seq<string>, i: nat, id: string)
    requires i < |participants|
    ensures Detached(users, participants[..i + 1], id) == Left(Detached(users, participants[..i], id), participants[i], id)
  {
    assert participants[..i + 1][..i] == participants[..i];
  }

  /** `list.remove`: the first occurrence of `x` goes. */
  function RemoveFirst(s: seq<string>, x: string): (r: seq<string>)
    requires x in s
    ensures |r| == |s| - 1
    ensures multiset(r) == multiset(s) - multiset{x}
    ensures NoDuplicates(s) ==> x !in r
  {
    assert s == [s[0]] + s[1..];
    if s[0] == x then s[1..] else [s[0]] + RemoveFirst(s[1..], x)
  }

  function KindValue(k: ContextType): string
  {
    match k
    case PrivateContext => "private"
    case GroupContext => "group"
    case MultiUserContext => "multi_user"
    case RolePlayContext => "role_play"
  }

  const CONTEXT_ID_PREFIX := "ctx_"

  /** The context `create_context` builds; `token` is the random part of the id. */
  function NewContext(kind: ContextType, creatorId: string, name: string, participants: Option<seq<string>>,
                      expiresInHours: Option<int>, metadata: Dict, token: string, now: int): (c: Context)
    ensures c.contextId == CONTEXT_ID_PREFIX + token && StartsWith(c.contextId, CONTEXT_ID_PREFIX)
    ensures c.creatorId == creatorId && creatorId in c.participants
    ensures participants.Some? ==>
      |participants.value| <= |c.participants| && c.participants[..|participants.value|] == participants.value
    ensures c.status == Active && c.messages == [] && c.maxMessages == DEFAULT_MAX_MESSAGES && c.createdAt == now && c.updatedAt == now
    ensures c.expiresAt.Some? <==> expiresInHours.Some? && expiresInHours.value != 0
    ensures c.expiresAt.Some? ==> c.expiresAt.value == now + HOUR * expiresInHours.value
    ensures name != "" ==> c.name == name
  {
    var id := CONTEXT_ID_PREFIX + token;
    assert id[..|CONTEXT_ID_PREFIX|] == CONTEXT_ID_PREFIX;
    var members := if participants.None? then [creatorId]
                   else if creatorId in participants.value then participants.value
                   else participants.value + [creatorId];
    var expires := if expiresInHours.Some? && expiresInHours.value != 0 then Some(now + HOUR * expiresInHours.value) else None;
    Context(id, kind, if name != "" then name else KindValue(kind) + "_" + SliceTo(id, 8), creatorId, members, [],
            DEFAULT_MAX_MESSAGES, Active, None, metadata, now, now, expires)
  }

  /** The message `add_message` builds; `messageId` is the fresh id. */
  function NewMessage(messageId: string, senderId: string, senderName: string, content: string,
                      messageType: MessageType, role: MessageRole, isSystem: bool, now: int): ChatMessage
  {
    ChatMessage(messageId, senderId, senderName, role, content, messageType, now, isSystem, map[])
  }

  // ---------------------------------------------------------------------------
  // Storages
  // ---------------------------------------------------------------------------

  /** `RedisContextStorage`: when the cache is down every call fails, and
      the failure is reported as a miss or as false. */
  class CacheStorage {
    const up: bool
    var entries: map<string, Context>

    constructor (up: bool)
      ensures this.up == up && entries == map[]
    {
      this.up := up;
      entries := map[];
    }

    function Get(id: string): (r: Option<Context>)
      reads this
      ensures r.Some? <==> up && id in entries
      ensures r.Some? ==> r.value == entries[id]
    {
      if up && id in entries then Some(entries[id]) else None
    }

    method Save(c: Context) returns (ok: bool)
      modifies this
      ensures ok == up
      ensures entries == if up then old(entries)[c.contextId := c] else old(entries)
    {
      if up {
        entries := entries[c.contextId := c];
      }
      ok := up;
    }

    method Delete(id: string) returns (ok: bool)
      modifies this
      ensures ok == up
      ensures entries == if up then old(entries) - {id} else old(entries)
    {
      if up {
        entries := entries - {id};
      }
      ok := up;
    }
  }

  /** `DatabaseContextStorage`: repository errors become a miss or false. */
  class DatabaseStorage {
    const db: Database

    constructor (db: Database)
      ensures this.db == db
    {
      this.db := db;
    }

    function Get(id: string): (r: Option<Context>)
      reads db
      ensures r.Some? <==> db.up && id in db.contexts
      ensures r.Some? ==> r.value == Load(db.contexts[id], db.messageRows)
    {
      match db.GetContext(id)
      case Raised(_) => None
      case Ok(found) => found
    }

    /** Updates the row when it exists and creates it otherwise. */
    method Save(c: Context, now: int) returns (ok: bool)
      requires db.Valid()
      modifies db
      ensures db.Valid()
      ensures ok == db.up
      ensures db.contexts == if ok then old(db.contexts)[c.contextId := SavedRow(old(db.contexts), c, now)] else old(db.contexts)
      ensures db.UsersUnchanged() && db.messageRows == old(db.messageRows)
      ensures db.QuotasUnchanged() && db.BansUnchanged() && db.RolesUnchanged()
    {
      var existing := db.GetContext(c.contextId);
      if existing.Raised? {
        return false;
      }
      if existing.value.Some? {
        var updated := db.UpdateContext(c, now);
      } else {
        var created := db.CreateContext(c);
      }
      ok := true;
    }

    /** Soft delete: the row's status becomes DELETED; false when it is absent. */
    method Delete(id: string, now: int) returns (ok: bool)
      requires db.Valid()
      modifies db
      ensures db.Valid()
      ensures ok <==> db.up && id in old(db.contexts)
      ensures db.contexts == if db.up then SoftDeleted(old(db.contexts), id, now) else old(db.contexts)
      ensures db.UsersUnchanged() && db.messageRows == old(db.messageRows)
      ensures db.QuotasUnchanged() && db.BansUnchanged() && db.RolesUnchanged()
    {
      var existing := db.GetContext(id);
      if existing.Raised? || existing.value.None? {
        return false;
      }
      var loaded := existing.value.value;
      RewriteLoaded(db.contexts[id], db.messageRows, Deleted, loaded.updatedAt, now);
      assert loaded.(status := Deleted) == loaded.(status := Deleted, updatedAt := loaded.updatedAt);
      var updated := db.UpdateContext(loaded.(status := Deleted), now);
      ok := true;
    }

    /** `list_active`, as the filter it intends over every stored context. */
    function ListActive(userId: Option<string>): (r: set<string>)
      reads db
      ensures forall id :: id in r <==> db.up && id in db.contexts && Listed(db.contexts[id], userId)
    {
      if !db.up then {} else set id | id in db.contexts && Listed(db.contexts[id], userId)
    }
  }

  /** `HybridContextStorage`: reads try the cache first and back-fill it on
      a miss; writes and deletes go to both storages and succeed only when
      both do. */
  class HybridStorage {
    const cache: CacheStorage
    const durable: DatabaseStorage

    constructor (cache: CacheStorage, durable: DatabaseStorage)
      ensures this.cache == cache && this.durable == durable
    {
      this.cache := cache;
      this.durable := durable;
    }

    /** The context a read returns, without its back-fill. */
    function View(id: string): (r: Option<Context>)
      reads cache, durable.db
      ensures cache.Get(id).Some? ==> r == cache.Get(id)
      ensures cache.Get(id).None? ==> r == durable.Get(id)
    {
      if cache.Get(id).Some? then cache.Get(id) else durable.Get(id)
    }

    /** The cache after a read of `id`. */
    function Backfilled(id: string): (r: map<string, Context>)
      reads cache, durable.db
      ensures cache.up && View(id).Some? ==> r == cache.entries[id := View(id).value]
      ensures !cache.up || View(id).None? ==> r == cache.entries
    {
      if cache.up && View(id).Some? then cache.entries[id := View(id).value] else cache.entries
    }

    method Get(id: string) returns (r: Option<Context>)
      requires durable.db.Valid()
      modifies cache
      ensures r == old(View(id)) && View(id) == r
      ensures cache.entries == old(Backfilled(id))
    {
      r := cache.Get(id);
      if r.Some? {
        assert cache.entries[id := r.value] == cache.entries;
        return;
      }
      r := durable.Get(id);
      if r.Some? {
        var _ := cache.Save(r.value);
      }
    }

    method Save(c: Context, now: int) returns (ok: bool)
      requires durable.db.Valid()
      modifies cache, durable.db
      ensures durable.db.Valid()
      ensures ok <==> cache.up && durable.db.up
      ensures cache.entries == if cache.up then old(cache.entries)[c.contextId := c] else old(cache.entries)
      ensures durable.db.contexts == if durable.db.up
        then old(durable.db.contexts)[c.contextId := SavedRow(old(durable.db.contexts), c, now)]
        else old(durable.db.contexts)
      ensures durable.db.UsersUnchanged() && durable.db.messageRows == old(durable.db.messageRows)
      ensures durable.db.QuotasUnchanged() && durable.db.BansUnchanged() && durable.db.RolesUnchanged()
    {
      var cacheOk := cache.Save(c);
      var dbOk := durable.Save(c, now);
      ok := cacheOk && dbOk;
    }

    method Delete(id: string, now: int) returns (ok: bool)
      requires durable.db.Valid()
      modifies cache, durable.db
      ensures durable.db.Valid()
      ensures ok <==> cache.up && durable.db.up && id in old(durable.db.contexts)
      ensures cache.entries == if cache.up then old(cache.entries) - {id} else old(cache.entries)
      ensures durable.db.contexts == if durable.db.up then SoftDeleted(old(durable.db.contexts), id, now)
                                     else old(durable.db.contexts)
      ensures durable.db.UsersUnchanged() && durable.db.messageRows == old(durable.db.messageRows)
      ensures durable.db.QuotasUnchanged() && durable.db.BansUnchanged() && durable.db.RolesUnchanged()
    {
      var cacheOk := cache.Delete(id);
      var dbOk := durable.Delete(id, now);
      ok := cacheOk && dbOk;
    }

    /** Listing is served by the durable storage alone. */
    function ListActive(userId: Option<string>): (r: set<string>)
      reads durable.db
      ensures r == durable.ListActive(userId)
    {
      durable.ListActive(userId)
    }
  }

  // ---------------------------------------------------------------------------
  // The context manager
  // ---------------------------------------------------------------------------

  /** The ids of the ACTIVE contexts whose expiry lies before `now`. */
  function ExpiredIds(contexts: map<string, Context>, now: int): set<string>
  {
    set id | id in contexts && ExpiredAt(contexts[id], now)
  }

  /** The context after `add_participant` appends `userId`. */
  function Joined(c: Context, userId: string, now: int): (r: Context)
    ensures r.participants == c.participants + [userId]
    ensures r == c.(participants := r.participants, updatedAt := now)
  {
    c.(participants := c.participants + [userId], updatedAt := now)
  }

  /** The context after `remove_participant` takes `userId` out: the first
      occurrence goes, and the context is archived when the creator leaves. */
  function Departed(c: Context, userId: string, now: int): (r: Context)
    requires userId in c.participants
    ensures multiset(r.participants) == multiset(c.participants) - multiset{userId}
    ensures r.status == if userId == c.creatorId then Archived else c.status
    ensures r == c.(participants := r.participants, status := r.status, updatedAt := now)
  {
    c.(participants := RemoveFirst(c.participants, userId),
       status := if userId == c.creatorId then Archived else c.status, updatedAt := now)
  }

  /** The context after `add_message` records `m`. */
  function Appended(c: Context, m: ChatMessage, now: int): (r: Context)
    ensures 0 < |r.messages| <= c.maxMessages && r.messages[|r.messages| - 1] == m
    ensures r == c.(messages := r.messages, updatedAt := now)
  {
    c.(messages := Trimmed(c.messages, m, c.maxMessages), updatedAt := now)
  }

  /** Writing a key twice leaves only the second value. */
  lemma OverwriteTwice(m: map<string, Context>, k: string, a: Context, b: Context)
    ensures m[k := a][k := b] == m[k := b]
  {
  }

  /** The user table after `get_or_create(userId, nickname)`. */
  function Ensured(users: map<string, User>, userId: string, nickname: string, now: int): (r: map<string, User>)
    ensures userId in r && r.Keys == users.Keys + {userId}
    ensures forall k :: k in users ==> r[k] == users[k]
  {
    if userId in users then users else users[userId := User(userId, nickname, true, false, None, map[], now, now)]
  }

  /** The creator's row as `create_context` finds or makes it. */
  function Creator(users: map<string, User>, creatorId: string, now: int): User
  {
    if creatorId in users then users[creatorId] else User(creatorId, "", true, false, None, map[], now, now)
  }

  lemma CreatorAttached(before: map<string, User>, found: map<string, User>, u: User, creatorId: string, now: int, id: string)
    requires creatorId in before ==> u == before[creatorId] && found == before
    requires creatorId !in before ==> u == User(creatorId, "", true, false, None, map[], now, now) && found == before[creatorId := u]
    ensures found[creatorId := u.(currentContextId := Some(id))]
         == before[creatorId := Creator(before, creatorId, now).(currentContextId := Some(id))]
  {
  }

  class ContextManager {
    const db: Database
    const storage: HybridStorage

    /** The default configuration: a hybrid storage over `cache` and the durable store. */
    constructor (db: Database, cache: CacheStorage)
      ensures this.db == db && storage.cache == cache && storage.durable.db == db
    {
      this.db := db;
      var durable := new DatabaseStorage(db);
      storage := new HybridStorage(cache, durable);
    }

    /** The hybrid storage writes to this manager's database. */
    predicate Wired()
    {
      storage.durable.db == db
    }

    /** The cache and the durable table after `c` is saved at `now`. */
    twostate predicate SavedState(c: Context, now: int)
      reads storage.cache, db
    {
      storage.cache.entries == (if storage.cache.up then old(storage.cache.entries)[c.contextId := c]
                                else old(storage.cache.entries)) &&
      db.contexts == (if db.up then old(db.contexts)[c.contextId := SavedRow(old(db.contexts), c, now)]
                      else old(db.contexts))
    }

    /** `get_context`: the hybrid read. */
    method GetContext(id: string) returns (r: Option<Context>)
      requires Wired() && db.Valid()
      modifies storage.cache
      ensures r == old(storage.View(id)) && storage.View(id) == r
      ensures storage.cache.entries == old(storage.Backfilled(id))
    {
      r := storage.Get(id);
    }

    /** `update_context`: stamps the update time and saves to both storages. */
    method UpdateContext(c: Context, now: int) returns (ok: bool)
      requires Wired() && db.Valid()
      modifies storage.cache, db
      ensures db.Valid()
      ensures ok <==> storage.cache.up && db.up
      ensures SavedState(c.(updatedAt := now), now)
      ensures db.UsersUnchanged() && db.messageRows == old(db.messageRows)
      ensures db.QuotasUnchanged() && db.BansUnchanged() && db.RolesUnchanged()
    {
      ok := storage.Save(c.(updatedAt := now), now);
    }

    /** `create_context`: makes sure the creator exists, stores the new
        context in both storages and makes it the creator's current one. */
    method CreateContext(kind: ContextType, creatorId: string, name: string, participants: Option<seq<string>>,
                         expiresInHours: Option<int>, metadata: Dict, token: string, now: int)
      returns (r: Outcome<Context>)
      requires Wired() && db.Valid()
      modifies storage.cache, db
      ensures db.Valid()
      ensures var c := NewContext(kind, creatorId, name, participants, expiresInHours, metadata, token, now);
        (r.Raised? <==> !db.up || c.contextId in old(db.contexts)) &&
        (r.Raised? ==> db.contexts == old(db.contexts) && storage.cache.entries == old(storage.cache.entries)) &&
        (r.Ok? ==>
          r.value == Load(c, old(db.messageRows)) &&
          db.contexts == old(db.contexts)[c.contextId := c] &&
          storage.cache.entries == (if storage.cache.up then old(storage.cache.entries)[c.contextId := r.value]
                                    else old(storage.cache.entries)) &&
          db.users == old(db.users)[creatorId := Creator(old(db.users), creatorId, now).(currentContextId := Some(c.contextId))])
      ensures r.Raised? ==>
        db.users == if db.up then old(db.users)[creatorId := Creator(old(db.users), creatorId, now)] else old(db.users)
      ensures db.messageRows == old(db.messageRows) && db.QuotasUnchanged() && db.BansUnchanged() && db.RolesUnchanged()
    {
      var user := db.GetOrCreateUser(creatorId, "", now);
      if user.Raised? {
        return Raised(user.error);
      }
      ghost var users1 := db.users;
      var c := NewContext(kind, creatorId, name, participants, expiresInHours, metadata, token, now);
      var created := Register(c, now);
      if created.Raised? {
        return created;
      }
      var updated := db.UpdateUser(user.value.(currentContextId := Some(c.contextId)));
      CreatorAttached(old(db.users), users1, user.value, creatorId, now, c.contextId);
      r := match updated
        case Raised(err) => Raised(err)
        case Ok(_) => created;
    }

    /** The context half of `create_context`: the row is inserted, then the
        loaded context is saved through the storage. */
    method Register(c: Context, now: int) returns (r: Outcome<Context>)
      requires Wired() && db.Valid()
      requires c.messages == [] && c.status == Active && c.updatedAt == now
      modifies storage.cache, db
      ensures db.Valid()
      ensures r.Raised? <==> !db.up || c.contextId in old(db.contexts)
      ensures r.Raised? ==> db.contexts == old(db.contexts) && storage.cache.entries == old(storage.cache.entries)
      ensures r.Ok? ==>
        r.value == Load(c, old(db.messageRows)) &&
        db.contexts == old(db.contexts)[c.contextId := c] &&
        storage.cache.entries == (if storage.cache.up then old(storage.cache.entries)[c.contextId := r.value]
                                  else old(storage.cache.entries))
      ensures db.UsersUnchanged() && db.messageRows == old(db.messageRows)
      ensures db.QuotasUnchanged() && db.BansUnchanged() && db.RolesUnchanged()
    {
      assert c.(messages := []) == c;
      var created := db.CreateContext(c);
      if created.Raised? {
        return Raised(created.error);
      }
      ghost var contexts1 := db.contexts;
      RewriteLoaded(c, db.messageRows, Active, now, now);
      assert created.value == Load(c, db.messageRows).(status := Active, updatedAt := now);
      assert UpdatedRow(c, created.value, now) == c;
      var _ := storage.Save(created.value, now);
      assert db.contexts == contexts1;
      r := created;
    }

    /** `delete_context`: every participant whose current context this is
        loses it, then the context is removed from the cache and soft-deleted. */
    method DeleteContext(id: string, now: int) returns (r: Outcome<bool>)
      requires Wired() && db.Valid()
      modifies storage.cache, db
      ensures db.Valid()
      ensures r.Raised? ==> !db.up
      ensures !db.up ==> db.users == old(db.users) && db.contexts == old(db.contexts)
      ensures db.up ==> (r.Ok? &&
        db.users == (if old(storage.View(id)).Some? then Detached(old(db.users), old(storage.View(id)).value.participants, id)
                     else old(db.users)) &&
        db.contexts == SoftDeleted(old(db.contexts), id, now) &&
        storage.cache.entries == (if storage.cache.up then old(storage.cache.entries) - {id} else old(storage.cache.entries)) &&
        (r.value <==> storage.cache.up && id in old(db.contexts)))
      ensures forall k :: k in storage.cache.entries ==>
        k in old(storage.Backfilled(id)) && storage.cache.entries[k] == old(storage.Backfilled(id))[k]
      ensures db.userOrder == old(db.userOrder) && db.messageRows == old(db.messageRows)
      ensures db.QuotasUnchanged() && db.BansUnchanged() && db.RolesUnchanged()
    {
      var context := storage.Get(id);
      ghost var cache1 := storage.cache.entries;
      assert cache1 - {id} == old(storage.cache.entries) - {id};
      if context.Some? {
        var detached := DetachAll(context.value.participants, id);
        if detached.Raised? {
          return detached;
        }
      }
      var ok := storage.Delete(id, now);
      r := Ok(ok);
    }

    /** The loop of `delete_context`: every participant whose current context
        is `id` loses it; the first read that raises ends the loop. */
    method DetachAll(participants: seq<string>, id: string) returns (r: Outcome<bool>)
      requires db.Valid()
      modifies db
      ensures db.Valid()
      ensures r.Raised? <==> !db.up && participants != []
      ensures db.users == if db.up then Detached(old(db.users), participants, id) else old(db.users)
      ensures db.userOrder == old(db.userOrder) && db.ContextsUnchanged()
      ensures db.QuotasUnchanged() && db.BansUnchanged() && db.RolesUnchanged()
    {
      var i := 0;
      while i < |participants|
        invariant 0 <= i <= |participants|
        invariant !db.up ==> i == 0
        invariant db.Valid()
        invariant db.users == Detached(old(db.users), participants[..i], id)
        invariant db.userOrder == old(db.userOrder) && db.ContextsUnchanged()
        invariant db.QuotasUnchanged() && db.BansUnchanged() && db.RolesUnchanged()
      {
        DetachedStep(old(db.users), participants, i, id);
        r := DetachOne(participants[i], id);
        if r.Raised? {
          return;
        }
        i := i + 1;
      }
      assert participants[..i] == participants;
      r := Ok(true);
    }

    /** One round of that loop: the user loses `id` as current context. */
    method DetachOne(userId: string, id: string) returns (r: Outcome<bool>)
      requires db.Valid()
      modifies db
      ensures db.Valid()
      ensures r.Raised? <==> !db.up
      ensures db.users == if db.up then Left(old(db.users), userId, id) else old(db.users)
      ensures db.userOrder == old(db.userOrder) && db.ContextsUnchanged()
      ensures db.QuotasUnchanged() && db.BansUnchanged() && db.RolesUnchanged()
    {
      var user := db.GetUser(userId);
      if user.Raised? {
        return Raised(user.error);
      }
      if user.value.Some? && user.value.value.currentContextId == Some(id) {
        var _ := db.UpdateUser(user.value.value.(currentContextId := None));
      }
      r := Ok(true);
    }

    /** `add_participant`: false for an unknown context, true without a write
        when the user is already in it; otherwise the user is made to exist
        and is appended once. */
    method AddParticipant(contextId: string, userId: string, userName: string, now: int) returns (r: Outcome<bool>)
      requires Wired() && db.Valid()
      modifies storage.cache, db
      ensures db.Valid()
      ensures var v := old(storage.View(contextId));
        (v.None? || userId in v.value.participants ==>
          r == Ok(v.Some?) && db.contexts == old(db.contexts) && db.users == old(db.users) &&
          storage.cache.entries == old(storage.Backfilled(contextId))) &&
        (v.Some? && userId !in v.value.participants ==>
          (r.Raised? <==> !db.up) &&
          (r.Ok? ==> r.value == storage.cache.up && db.users == Ensured(old(db.users), userId, userName, now) &&
                     SavedState(Joined(v.value, userId, now), now)))
      ensures r.Raised? ==> db.contexts == old(db.contexts) && db.users == old(db.users) &&
                            storage.cache.entries == old(storage.Backfilled(contextId))
      ensures db.messageRows == old(db.messageRows) && db.QuotasUnchanged() && db.BansUnchanged() && db.RolesUnchanged()
    {
      var context := storage.Get(contextId);
      if context.None? {
        return Ok(false);
      }
      var c := context.value;
      if userId in c.participants {
        return Ok(true);
      }
      var user := db.GetOrCreateUser(userId, userName, now);
      if user.Raised? {
        return Raised(user.error);
      }
      assert db.users == Ensured(old(db.users), userId, userName, now);
      var ok := UpdateContext(Joined(c, userId, now), now);
      r := Ok(ok);
    }

    /** `remove_participant`: false for an unknown context, true without a
        write when the user is not in it; otherwise the user leaves, the
        context is archived if the user created it, and the user's current
        context is cleared if it was this one. */
    method RemoveParticipant(contextId: string, userId: string, now: int) returns (r: Outcome<bool>)
      requires Wired() && db.Valid()
      modifies storage.cache, db
      ensures db.Valid()
      ensures var v := old(storage.View(contextId));
        (v.None? || userId !in v.value.participants ==>
          r == Ok(v.Some?) && db.contexts == old(db.contexts) && db.users == old(db.users) &&
          storage.cache.entries == old(storage.Backfilled(contextId))) &&
        (v.Some? && userId in v.value.participants ==>
          (r.Raised? <==> !db.up) &&
          (r.Ok? ==> r.value == storage.cache.up && db.users == Left(old(db.users), userId, contextId) &&
                     SavedState(Departed(v.value, userId, now), now)))
      ensures r.Raised? ==> db.contexts == old(db.contexts) && db.users == old(db.users) &&
                            storage.cache.entries == old(storage.Backfilled(contextId))
      ensures db.userOrder == old(db.userOrder) && db.messageRows == old(db.messageRows)
      ensures db.QuotasUnchanged() && db.BansUnchanged() && db.RolesUnchanged()
    {
      var context := storage.Get(contextId);
      if context.None? {
        return Ok(false);
      }
      var c := context.value;
      if userId !in c.participants {
        return Ok(true);
      }
      r := Withdraw(contextId, c, userId, now);
      OverwriteTwice(old(storage.cache.entries), contextId, c, Departed(c, userId, now));
    }

    /** The writes of `remove_participant` once the user is known to be in
        the context: the user's current context is cleared if it is this one,
        then the context is saved without the user. */
    method Withdraw(contextId: string, c: Context, userId: string, now: int) returns (r: Outcome<bool>)
      requires Wired() && db.Valid() && userId in c.participants
      modifies storage.cache, db
      ensures db.Valid()
      ensures r.Raised? <==> !db.up
      ensures r.Raised? ==> db.contexts == old(db.contexts) && db.users == old(db.users) &&
                            storage.cache.entries == old(storage.cache.entries)
      ensures r.Ok? ==> r.value == storage.cache.up && db.users == Left(old(db.users), userId, contextId) &&
                        SavedState(Departed(c, userId, now), now)
      ensures db.userOrder == old(db.userOrder) && db.messageRows == old(db.messageRows)
      ensures db.QuotasUnchanged() && db.BansUnchanged() && db.RolesUnchanged()
    {
      var user := db.GetUser(userId);
      if user.Raised? {
        return Raised(user.error);
      }
      if user.value.Some? && user.value.value.currentContextId == Some(contextId) {
        var _ := db.UpdateUser(user.value.value.(currentContextId := None));
      }
      assert db.users == Left(old(db.users), userId, contextId);
      var departed := Departed(c, userId, now);
      assert departed.(updatedAt := now) == departed;
      var ok := UpdateContext(departed, now);
      r := Ok(ok);
    }

    /** `add_message`: false for an unknown context; otherwise the message
        gets a row of its own, and the context keeps the newest messages up
        to its bound. */
    method AddMessage(contextId: string, messageId: string, senderId: string, senderName: string, content: string,
                      messageType: MessageType, role: MessageRole, isSystem: bool, now: int)
      returns (r: Outcome<bool>)
      requires Wired() && db.Valid()
      modifies storage.cache, db
      ensures db.Valid()
      ensures var v := old(storage.View(contextId));
        var m := NewMessage(messageId, senderId, senderName, content, messageType, role, isSystem, now);
        (v.None? ==> r == Ok(false) && db.contexts == old(db.contexts) && db.messageRows == old(db.messageRows) &&
                     storage.cache.entries == old(storage.cache.entries)) &&
        (v.Some? ==>
          (r.Raised? <==> !db.up) &&
          (r.Raised? ==> db.messageRows == old(db.messageRows) && db.contexts == old(db.contexts)) &&
          (r.Ok? ==> r.value == storage.cache.up && db.messageRows == old(db.messageRows) + [(contextId, m)] &&
                     SavedState(Appended(v.value, m, now), now)))
      ensures db.UsersUnchanged() && db.QuotasUnchanged() && db.BansUnchanged() && db.RolesUnchanged()
    {
      var context := storage.Get(contextId);
      if context.None? {
        return Ok(false);
      }
      var m := NewMessage(messageId, senderId, senderName, content, messageType, role, isSystem, now);
      r := Record(contextId, context.value, m, now);
      OverwriteTwice(old(storage.cache.entries), contextId, context.value, Appended(context.value, m, now));
    }

    /** The writes of `add_message` once the context is found: the message
        row, then the context with the message appended. */
    method Record(contextId: string, c: Context, m: ChatMessage, now: int) returns (r: Outcome<bool>)
      requires Wired() && db.Valid()
      modifies storage.cache, db
      ensures db.Valid()
      ensures r.Raised? <==> !db.up
      ensures r.Raised? ==> db.messageRows == old(db.messageRows) && db.contexts == old(db.contexts)
      ensures r.Ok? ==> r.value == storage.cache.up && db.messageRows == old(db.messageRows) + [(contextId, m)] &&
                        SavedState(Appended(c, m, now), now)
      ensures db.UsersUnchanged() && db.QuotasUnchanged() && db.BansUnchanged() && db.RolesUnchanged()
    {
      var stored := db.AddMessage(contextId, m);
      if stored.Raised? {
        return Raised(stored.error);
      }
      var appended := Appended(c, m, now);
      assert appended.(updatedAt := now) == appended;
      var ok := UpdateContext(appended, now);
      r := Ok(ok);
    }

    /** `get_messages`. */
    method GetMessages(contextId: string, limit: Option<int>) returns (r: seq<ChatMessage>)
      requires Wired() && db.Valid()
      modifies storage.cache
      ensures var v := old(storage.View(contextId));
        r == if v.None? then [] else Latest(v.value.messages, limit)
      ensures storage.cache.entries == old(storage.Backfilled(contextId))
    {
      var context := storage.Get(contextId);
      if context.None? {
        return [];
      }
      r := Latest(context.value.messages, limit);
    }

    /** `list_active_contexts`. */
    function ListActiveContexts(userId: Option<string>): (r: set<string>)
      requires Wired()
      reads db
      ensures forall id :: id in r <==> db.up && id in db.contexts && Listed(db.contexts[id], userId)
    {
      storage.ListActive(userId)
    }

    /** `get_user_context`: the user's current context, read through the storage. */
    method GetUserContext(userId: string) returns (r: Outcome<Option<Context>>)
      requires Wired() && db.Valid()
      modifies storage.cache
      ensures r.Raised? <==> !db.up
      ensures r.Raised? ==> storage.cache.entries == old(storage.cache.entries)
      ensures r.Ok? ==>
        var current := if userId in db.users then db.users[userId].currentContextId else None;
        if current.None? || current.value == "" then r.value.None? && storage.cache.entries == old(storage.cache.entries)
        else r.value == old(storage.View(current.value)) && storage.cache.entries == old(storage.Backfilled(current.value))
    {
      var user := db.GetUser(userId);
      if user.Raised? {
        return Raised(user.error);
      }
      if user.value.None? || user.value.value.currentContextId.None? || user.value.value.currentContextId.value == "" {
        return Ok(None);
      }
      var context := storage.Get(user.value.value.currentContextId.value);
      r := Ok(context);
    }

    /** `pause_context`. */
    method PauseContext(contextId: string, now: int) returns (ok: bool)
      requires Wired() && db.Valid()
      modifies storage.cache, db
      ensures db.Valid()
      ensures var v := old(storage.View(contextId));
        (ok <==> v.Some? && storage.cache.up && db.up) &&
        (v.None? ==> db.contexts == old(db.contexts) && storage.cache.entries == old(storage.cache.entries)) &&
        (v.Some? ==> SavedState(v.value.(status := Paused, updatedAt := now), now))
      ensures db.UsersUnchanged() && db.messageRows == old(db.messageRows)
      ensures db.QuotasUnchanged() && db.BansUnchanged() && db.RolesUnchanged()
    {
      ok := Restatus(contextId, Paused, now);
    }

    /** `resume_context`. */
    method ResumeContext(contextId: string, now: int) returns (ok: bool)
      requires Wired() && db.Valid()
      modifies storage.cache, db
      ensures db.Valid()
      ensures var v := old(storage.View(contextId));
        (ok <==> v.Some? && storage.cache.up && db.up) &&
        (v.None? ==> db.contexts == old(db.contexts) && storage.cache.entries == old(storage.cache.entries)) &&
        (v.Some? ==> SavedState(v.value.(status := Active, updatedAt := now), now))
      ensures db.UsersUnchanged() && db.messageRows == old(db.messageRows)
      ensures db.QuotasUnchanged() && db.BansUnchanged() && db.RolesUnchanged()
    {
      ok := Restatus(contextId, Active, now);
    }

    method Restatus(contextId: string, status: ContextStatus, now: int) returns (ok: bool)
      requires Wired() && db.Valid()
      modifies storage.cache, db
      ensures db.Valid()
      ensures var v := old(storage.View(contextId));
        (ok <==> v.Some? && storage.cache.up && db.up) &&
        (v.None? ==> db.contexts == old(db.contexts) && storage.cache.entries == old(storage.cache.entries)) &&
        (v.Some? ==> SavedState(v.value.(status := status, updatedAt := now), now))
      ensures db.UsersUnchanged() && db.messageRows == old(db.messageRows)
      ensures db.QuotasUnchanged() && db.BansUnchanged() && db.RolesUnchanged()
    {
      var context := storage.Get(contextId);
      if context.None? {
        return false;
      }
      ok := UpdateContext(context.value.(status := status), now);
    }

    /** One context of the sweep: it is loaded, and marked EXPIRED and
        saved when it is ACTIVE with an expiry before `now`. */
    method SweepOne(id: string, now: int) returns (expired: bool)
      requires Wired() && db.Valid() && db.up && id in db.contexts
      modifies storage.cache, db
      ensures db.Valid()
      ensures expired == ExpiredAt(old(db.contexts)[id], now)
      ensures db.contexts == if expired then old(db.contexts)[id := Expire(old(db.contexts)[id], now)] else old(db.contexts)
      ensures storage.cache.entries ==
        if expired && storage.cache.up then old(storage.cache.entries)[id := Expire(Load(old(db.contexts)[id], old(db.messageRows)), now)]
        else old(storage.cache.entries)
      ensures db.UsersUnchanged() && db.messageRows == old(db.messageRows)
      ensures db.QuotasUnchanged() && db.BansUnchanged() && db.RolesUnchanged()
    {
      var c := Load(db.contexts[id], db.messageRows);
      expired := c.status == Active && c.expiresAt.Some? && c.expiresAt.value < now;
      if expired {
        RewriteLoaded(db.contexts[id], db.messageRows, Expired, now, now);
        var _ := UpdateContext(c.(status := Expired), now);
      }
    }

    /** One round of the sweep: the context `id` is handled and the count of
        expired ones kept up to date. */
    method SweepStep(ghost entries: map<string, Context>, all: map<string, Context>, rows: seq<(string, ChatMessage)>,
                     ghost done: set<string>, id: string, count: nat, now: int) returns (next: nat)
      requires Wired() && db.Valid() && db.up
      requires id in all && id !in done
      requires db.contexts == SweptRows(all, done, now) && db.messageRows == rows
      requires count == |SweptIds(all, done, now)|
      requires storage.cache.entries == if storage.cache.up then SweptCache(entries, all, rows, done, now) else entries
      modifies storage.cache, db
      ensures db.Valid()
      ensures db.contexts == SweptRows(all, done + {id}, now)
      ensures next == |SweptIds(all, done + {id}, now)|
      ensures storage.cache.entries == if storage.cache.up then SweptCache(entries, all, rows, done + {id}, now) else entries
      ensures db.UsersUnchanged() && db.messageRows == old(db.messageRows)
      ensures db.QuotasUnchanged() && db.BansUnchanged() && db.RolesUnchanged()
    {
      SweptRowsStep(all, done, id, now);
      var expired := SweepOne(id, now);
      SweptCacheStep(entries, all, rows, done, id, now);
      SweptCountStep(all, done, id, now);
      next := if expired then count + 1 else count;
    }

    /** `cleanup_expired`: every ACTIVE context whose expiry lies before
        `now` is marked EXPIRED and saved to both storages; the number of
        them is returned. */
    method CleanupExpired(now: int) returns (r: Outcome<nat>)
      requires Wired() && db.Valid()
      modifies storage.cache, db
      ensures db.Valid()
      ensures r.Raised? <==> !db.up
      ensures r.Raised? ==> db.contexts == old(db.contexts) && storage.cache.entries == old(storage.cache.entries)
      ensures r.Ok? ==> r.value == |ExpiredIds(old(db.contexts), now)|
      ensures r.Ok? ==> db.contexts == SweptRows(old(db.contexts), old(db.contexts).Keys, now)
      ensures r.Ok? ==> (storage.cache.entries ==
        if storage.cache.up then SweptCache(old(storage.cache.entries), old(db.contexts), old(db.messageRows), old(db.contexts).Keys, now)
        else old(storage.cache.entries))
      ensures db.UsersUnchanged() && db.messageRows == old(db.messageRows)
      ensures db.QuotasUnchanged() && db.BansUnchanged() && db.RolesUnchanged()
    {
      if !db.up {
        return Raised(DB_UNAVAILABLE);
      }
      var all := db.contexts;
      var rows := db.messageRows;
      var pending := all.Keys;
      ghost var done: set<string> := {};
      var count := 0;
      SweptEmpty(old(storage.cache.entries), all, rows, now);
      while pending != {}
        invariant pending <= all.Keys && done == all.Keys - pending
        invariant db.Valid() && db.up
        invariant db.contexts == SweptRows(all, done, now)
        invariant count == |SweptIds(all, done, now)|
        invariant storage.cache.entries == if storage.cache.up then SweptCache(old(storage.cache.entries), all, rows, done, now)
                                           else old(storage.cache.entries)
        invariant db.UsersUnchanged() && db.messageRows == rows
        invariant db.QuotasUnchanged() && db.BansUnchanged() && db.RolesUnchanged()
        decreases |pending|
      {
        var id :| id in pending;
        count := SweepStep(old(storage.cache.entries), all, rows, done, id, count, now);
        MovedKey(all.Keys, pending, id);
        pending := pending - {id};
        done := done + {id};
      }
      SweptAll(old(storage.cache.entries), all, rows, done, now);
      r := Ok(count);
    }
  }

  /** A context marked EXPIRED by the sweep. */
  function Expire(c: Context, now: int): Context
  {
    c.(status := Expired, updatedAt := now)
  }

  /** The ids among `done` of contexts that have expired. */
  function SweptIds(all: map<string, Context>, done: set<string>, now: int): set<string>
  {
    set k | k in done && k in all && ExpiredAt(all[k], now)
  }

  /** The durable table once the sweep has handled the ids in `done`. */
  function SweptRows(all: map<string, Context>, done: set<string>, now: int): (r: map<string, Context>)
    ensures r.Keys == all.Keys
    ensures forall k :: k in all ==> r[k] == if k in done && ExpiredAt(all[k], now) then Expire(all[k], now) else all[k]
  {
    map k | k in all :: if k in done && ExpiredAt(all[k], now) then Expire(all[k], now) else all[k]
  }

  /** The cache once the sweep has handled the ids in `done`: every expired
      context among them has its loaded copy, marked EXPIRED, stored. */
  function SweptCache(entries: map<string, Context>, all: map<string, Context>, rows: seq<(string, ChatMessage)>,
                      done: set<string>, now: int): (r: map<string, Context>)
    ensures r.Keys == entries.Keys + SweptIds(all, done, now)
    ensures forall k :: k in r ==>
      r[k] == if k in SweptIds(all, done, now) then Expire(Load(all[k], rows), now) else entries[k]
  {
    entries + map k | k in SweptIds(all, done, now) :: Expire(Load(all[k], rows), now)
  }

  lemma SweptEmpty(entries: map<string, Context>, all: map<string, Context>, rows: seq<(string, ChatMessage)>, now: int)
    ensures SweptRows(all, {}, now) == all && SweptIds(all, {}, now) == {}
    ensures SweptCache(entries, all, rows, {}, now) == entries
  {
    assert SweptIds(all, {}, now) == {};
  }

  /** Handling one more id adds it to the expired ids exactly when it has expired. */
  lemma SweptIdsStep(all: map<string, Context>, done: set<string>, id: string, now: int)
    requires id in all && id !in done
    ensures id !in SweptIds(all, done, now)
    ensures SweptIds(all, done + {id}, now) ==
      if ExpiredAt(all[id], now) then SweptIds(all, done, now) + {id} else SweptIds(all, done, now)
  {
    if ExpiredAt(all[id], now) {
      assert SweptIds(all, done + {id}, now) == SweptIds(all, done, now) + {id};
    } else {
      assert SweptIds(all, done + {id}, now) == SweptIds(all, done, now);
    }
  }

  /** Handling one more id adds one to the count exactly when it has expired. */
  lemma SweptCountStep(all: map<string, Context>, done: set<string>, id: string, now: int)
    requires id in all && id !in done
    ensures |SweptIds(all, done + {id}, now)| == |SweptIds(all, done, now)| + if ExpiredAt(all[id], now) then 1 else 0
  {
    SweptIdsStep(all, done, id, now);
  }

  /** Handling one more id changes at most that id's row. */
  lemma SweptRowsStep(all: map<string, Context>, done: set<string>, id: string, now: int)
    requires id in all && id !in done
    ensures SweptRows(all, done, now)[id] == all[id]
    ensures SweptRows(all, done + {id}, now) ==
      if ExpiredAt(all[id], now) then SweptRows(all, done, now)[id := Expire(all[id], now)] else SweptRows(all, done, now)
  {
    var before, after := SweptRows(all, done, now), SweptRows(all, done + {id}, now);
    var want := if ExpiredAt(all[id], now) then before[id := Expire(all[id], now)] else before;
    assert after.Keys == want.Keys;
    assert forall k :: k in after ==> after[k] == want[k];
  }

  /** Handling one more id changes at most that id's cache entry. */
  lemma SweptCacheStep(entries: map<string, Context>, all: map<string, Context>, rows: seq<(string, ChatMessage)>,
                       done: set<string>, id: string, now: int)
    requires id in all && id !in done
    ensures SweptCache(entries, all, rows, done + {id}, now) ==
      if ExpiredAt(all[id], now) then SweptCache(entries, all, rows, done, now)[id := Expire(Load(all[id], rows), now)]
      else SweptCache(entries, all, rows, done, now)
  {
    SweptIdsStep(all, done, id, now);
    var before, after := SweptCache(entries, all, rows, done, now), SweptCache(entries, all, rows, done + {id}, now);
    var want := if ExpiredAt(all[id], now) then before[id := Expire(Load(all[id], rows), now)] else before;
    assert after.Keys == want.Keys;
    forall k | k in after
      ensures after[k] == want[k]
    {
      if k != id {
        assert k in SweptIds(all, done + {id}, now) <==> k in SweptIds(all, done, now);
      }
    }
  }

  /** Moving one key from the pending part to the done part. */
  lemma MovedKey(keys: set<string>, pending: set<string>, id: string)
    requires pending <= keys && id in pending
    ensures pending - {id} <= keys && keys - (pending - {id}) == (keys - pending) + {id}
  {
  }

  lemma SweptAll(entries: map<string, Context>, all: map<string, Context>, rows: seq<(string, ChatMessage)>,
                 done: set<string>, now: int)
    requires done == all.Keys
    ensures SweptIds(all, done, now) == ExpiredIds(all, now)
  {
  }
}
