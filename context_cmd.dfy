// The context commands (src/modules/context_cmd.py): create, join, leave
// and end a conversation context, show its history and list the user's
// contexts. Both managers are optional; every command answers with a text,
// and an exception inside a command becomes a failure text.

module ContextCommands {
  import opened Common
  import opened Models
  import opened Store
  import opened Sessions
  import Users

  const NOT_INITIALISED := "上下文管理器未初始化"
  const NO_USER_INFO := "❌ 无法获取用户信息"
  const NO_SUCH_USER := "❌ 用户不存在"
  const NOT_IN_ANY := "❌ 您当前没有在任何上下文中"
  const PRIVATE_NAME_PREFIX := "私聊_"
  const DEFAULT_EXPIRE_HOURS := 24

  const CREATE_FAILED := "❌ 创建上下文失败: "
  const JOIN_NOT_FOUND := "❌ 未找到上下文: "
  const JOIN_STATUS_PREFIX := "❌ 该上下文已"
  const ALREADY_IN := "❌ 您已经在该上下文中了"
  const JOIN_FAILED := "❌ 加入上下文失败: "
  const MISSING_CONTEXT := "❌ 上下文不存在: "
  const LEFT_PREFIX := "✅ 已离开上下文: "
  const LEAVE_FAILED := "❌ 离开上下文失败: "
  const SPECIFY_CONTEXT := "❌ 请指定要结束的上下文"
  const NOT_CREATOR := "❌ 只有上下文创建者才能结束上下文"
  const ENDED_PREFIX := "✅ 上下文已结束: "
  const END_FAILED := "❌ 结束上下文失败: "
  const NO_HISTORY := "📭 暂无对话记录"
  const HISTORY_FAILED := "❌ 查看历史失败: "
  const HISTORY_CLIP := 100
  const DEFAULT_HISTORY_LIMIT := 10
  const NO_ACTIVE := "📭 您暂无活跃的上下文"

  // ---------------------------------------------------------------------------
  // Texts
  // ---------------------------------------------------------------------------

  /** `ContextStatus.value`. */
  function StatusValue(s: ContextStatus): string
  {
    match s
    case Active => "active"
    case Paused => "paused"
    case Expired => "expired"
    case Archived => "archived"
    case Deleted => "deleted"
  }

  /** The name `cmd_create_context` gives a context when none is asked for. */
  function DefaultName(userId: string, userName: string, contextName: string): (r: string)
    ensures contextName != "" ==> r == contextName
    ensures contextName == "" && userName != "" ==> r == PRIVATE_NAME_PREFIX + userName
    ensures contextName == "" && userName == "" ==> r == PRIVATE_NAME_PREFIX + userId
    ensures r != ""
  {
    if contextName != "" then contextName else PRIVATE_NAME_PREFIX + (if userName != "" then userName else userId)
  }

  function CreatedReply(c: Context, expireHours: int): string
  {
    "✅ 上下文创建成功！\n\n📋 上下文ID: " + c.contextId + "\n📝 名称: " + c.name +
    "\n👤 参与者: " + NatToString(|c.participants|) + "人\n⏰ 过期时间: " + IntToString(expireHours) +
    "小时后\n\n您现在可以开始对话了！"
  }

  function JoinedReply(contextId: string, name: string, count: nat): string
  {
    "✅ 成功加入上下文！\n\n📋 上下文ID: " + contextId + "\n📝 名称: " + name + "\n👥 当前参与者: " +
    NatToString(count) + "人"
  }

  /** A message's content as the history shows it: at most `HISTORY_CLIP`
      characters, marked with an ellipsis when something was cut. */
  function Clip(content: string): (r: string)
    ensures |content| <= HISTORY_CLIP ==> r == content
    ensures |content| > HISTORY_CLIP ==>
      |r| == HISTORY_CLIP + 3 && r[..HISTORY_CLIP] == content[..HISTORY_CLIP] && r[HISTORY_CLIP..] == "..."
  {
    if |content| > HISTORY_CLIP then content[..HISTORY_CLIP] + "..." else content
  }

  function RoleIcon(role: MessageRole): string
  {
    match role
    case UserRole => "👤"
    case AssistantRole => "🤖"
    case SystemRole => "⚙️"
  }

  function HistoryLine(m: ChatMessage): string
  {
    RoleIcon(m.role) + " " + Clip(m.content)
  }

  /** One history line per message, in message order. */
  function HistoryLines(ms: seq<ChatMessage>): (r: seq<string>)
    ensures |r| == |ms|
    ensures forall i :: 0 <= i < |ms| ==> r[i] == HistoryLine(ms[i])
  {
    if ms == [] then [] else HistoryLines(ms[..|ms| - 1]) + [HistoryLine(ms[|ms| - 1])]
  }

  function HistoryHeader(n: nat): string
  {
    "📜 对话历史 (最近" + NatToString(n) + "条):\n"
  }

  /** The history text: the header, then one line per message, joined by newlines. */
  function HistoryText(ms: seq<ChatMessage>): string
  {
    JoinWith([HistoryHeader(|ms|)] + HistoryLines(ms), "\n")
  }

  function ListEntry(c: Context): string
  {
    (if c.status == Active then "🟢" else "⏸️") + " " + c.name + " (ID: " + c.contextId + ")\n   参与者: " +
    NatToString(|c.participants|) + "人"
  }

  function ListHeader(n: nat): string
  {
    "📋 您的上下文列表 (" + NatToString(n) + "个):\n"
  }

  /** The listed contexts, in listing order, that have the user as a participant. */
  function Mine(order: seq<string>, contexts: map<string, Context>, userId: string): (r: seq<string>)
    ensures forall id :: id in r <==> id in order && id in contexts && userId in contexts[id].participants
    ensures NoDuplicates(order) ==> NoDuplicates(r)
  {
    if order == [] then []
    else
      var rest := Mine(order[..|order| - 1], contexts, userId);
      var id := order[|order| - 1];
      assert forall x :: x in order <==> x in order[..|order| - 1] || x == id;
      if id in contexts && userId in contexts[id].participants then rest + [id] else rest
  }

  /** One entry per listed context. */
  function ListEntries(ids: seq<string>, contexts: map<string, Context>): (r: seq<string>)
    requires forall id :: id in ids ==> id in contexts
    ensures |r| == |ids|
    ensures forall i :: 0 <= i < |ids| ==> r[i] == ListEntry(contexts[ids[i]])
  {
    if ids == [] then [] else ListEntries(ids[..|ids| - 1], contexts) + [ListEntry(contexts[ids[|ids| - 1]])]
  }

  /** The list text: the header, then one entry per context, separated by blank lines. */
  function ListText(ids: seq<string>, contexts: map<string, Context>): string
    requires forall id :: id in ids ==> id in contexts
  {
    if ids == [] then NO_ACTIVE else JoinWith([ListHeader(|ids|)] + ListEntries(ids, contexts), "\n\n")
  }

  /** The user table after each of `participants`, in order, has its current
      context cleared; participants without a user row are skipped. */
  function Cleared(users: map<string, User>, participants: seq<string>, now: int): (r: map<string, User>)
    ensures r.Keys == users.Keys
  {
    if participants == [] then users
    else
      var u := Cleared(users, participants[..|participants| - 1], now);
      var p := participants[|participants| - 1];
      if p in u then u[p := u[p].(currentContextId := None, lastActive := now)] else u
  }

  /** Every participant with a user row ends with no current context, and
      every other user is untouched. */
  lemma {:induction false} ClearedCorrect(users: map<string, User>, participants: seq<string>, now: int)
    ensures forall p :: p in participants && p in users ==>
      Cleared(users, participants, now)[p] == users[p].(currentContextId := None, lastActive := now)
    ensures forall k :: k in users && k !in participants ==> Cleared(users, participants, now)[k] == users[k]
  {
    if participants != [] {
      var init := participants[..|participants| - 1];
      ClearedCorrect(users, init, now);
      assert forall q :: q in participants <==> q in init || q == participants[|participants| - 1];
    }
  }

  lemma ClearedStep(users: map<string, User>, participants: seq<string>, i: nat, now: int)
    requires i < |participants|
    ensures var u := Cleared(users, participants[..i], now);
      Cleared(users, participants[..i + 1], now)
      == if participants[i] in u then u[participants[i] := u[participants[i]].(currentContextId := None, lastActive := now)]
         else u
  {
    assert participants[..i + 1][..i] == participants[..i];
  }

  /** Clearing the user's current context hides whether leaving already cleared it. */
  lemma LeftThenCleared(users: map<string, User>, userId: string, id: string, now: int)
    requires userId in users
    ensures var l := Left(users, userId, id);
      l[userId := l[userId].(currentContextId := None, lastActive := now)]
      == users[userId := users[userId].(currentContextId := None, lastActive := now)]
  {
  }

  /** `cmd_end_context`'s choice of context: the given id when it is
      non-empty, otherwise the user's current context; a reply when there is none. */
  function EndTarget(contextId: Option<string>, hasUsers: bool, lookup: Outcome<Option<User>>): (r: Outcome<string>)
    ensures r.Ok? ==> r.value != ""
    ensures contextId.Some? && contextId.value != "" ==> r == Ok(contextId.value)
    ensures (contextId.None? || contextId.value == "") && r.Ok? ==>
      hasUsers && lookup.Ok? && lookup.value.Some? && lookup.value.value.currentContextId == Some(r.value)
  {
    if contextId.Some? && contextId.value != "" then Ok(contextId.value)
    else if !hasUsers then Raised(NO_USER_INFO)
    else match lookup
      case Raised(e) => Raised(END_FAILED + e)
      case Ok(None) => Raised(NO_SUCH_USER)
      case Ok(Some(u)) =>
        if u.currentContextId.None? || u.currentContextId.value == "" then Raised(SPECIFY_CONTEXT)
        else Ok(u.currentContextId.value)
  }

  // ---------------------------------------------------------------------------
  // The module
  // ---------------------------------------------------------------------------

  class ContextCommandModule {
    const contexts: ContextManager?
    const users: Users.UserManager?

    constructor (contexts: ContextManager?, users: Users.UserManager?)
      ensures this.contexts == contexts && this.users == users
    {
      this.contexts := contexts;
      this.users := users;
    }

    function Footprint(): set<object>
    {
      (if contexts != null then {contexts.db, contexts.storage.cache} else {}) +
      (if users != null then {users.db} else {})
    }

    /** Both managers work on the same database. */
    ghost predicate Valid()
      reads Footprint()
    {
      (contexts != null ==> contexts.Wired() && contexts.db.Valid()) &&
      (users != null ==> users.db.Valid()) &&
      (contexts != null && users != null ==> users.db == contexts.db)
    }

    /** Nothing but the cache's back-fill of `id` happened. */
    twostate predicate Untouched(id: string)
      requires contexts != null
      reads contexts.db, contexts.storage.cache
    {
      contexts.db.users == old(contexts.db.users) && contexts.db.contexts == old(contexts.db.contexts) &&
      contexts.storage.cache.entries == old(contexts.storage.Backfilled(id))
    }

    /** Nothing was written. */
    twostate predicate Unchanged()
      requires contexts != null
      reads contexts.db, contexts.storage.cache
    {
      contexts.db.users == old(contexts.db.users) && contexts.db.contexts == old(contexts.db.contexts) &&
      contexts.storage.cache.entries == old(contexts.storage.cache.entries)
    }

    /** `cmd_create_context`: a private context with the user as its only
        participant, expiring after `expireHours`, made the user's current one. */
    method CreateCmd(userId: string, userName: string, contextName: string, token: string, now: int,
                     expireHours: int := DEFAULT_EXPIRE_HOURS)
      returns (r: string)
      requires Valid()
      modifies Footprint()
      ensures Valid()
      ensures contexts == null ==> r == NOT_INITIALISED
      ensures contexts != null ==>
        var c := NewContext(PrivateContext, userId, DefaultName(userId, userName, contextName), Some([userId]),
                            Some(expireHours), map[], token, now);
        var db := contexts.db;
        (db.up && c.contextId !in old(db.contexts) ==>
          r == CreatedReply(c, expireHours) &&
          db.contexts == old(db.contexts)[c.contextId := c] &&
          userId in db.users && db.users[userId].currentContextId == Some(c.contextId)) &&
        (!db.up || c.contextId in old(db.contexts) ==>
          StartsWith(r, CREATE_FAILED) && db.contexts == old(db.contexts) &&
          contexts.storage.cache.entries == old(contexts.storage.cache.entries))
      ensures contexts != null ==>
        var c := NewContext(PrivateContext, userId, DefaultName(userId, userName, contextName), Some([userId]),
                            Some(expireHours), map[], token, now);
        var db := contexts.db;
        (db.up && c.contextId !in old(db.contexts) ==>
          contexts.storage.cache.entries ==
            if contexts.storage.cache.up then old(contexts.storage.cache.entries)[c.contextId := Load(c, old(db.messageRows))]
            else old(contexts.storage.cache.entries)) &&
        db.users.Keys <= old(db.users).Keys + {userId} &&
        (forall u :: u in old(db.users) && u != userId ==> u in db.users && db.users[u] == old(db.users)[u]) &&
        db.messageRows == old(db.messageRows) && db.QuotasUnchanged() && db.BansUnchanged() && db.RolesUnchanged()
      ensures contexts == null ==> unchanged(Footprint())
    {
      if contexts == null {
        return NOT_INITIALISED;
      }
      var name := DefaultName(userId, userName, contextName);
      var made := contexts.CreateContext(PrivateContext, userId, name, Some([userId]), Some(expireHours), map[], token, now);
      if made.Raised? {
        return CREATE_FAILED + made.error;
      }
      var c := made.value;
      r := CreatedReply(c, expireHours);
      if users != null {
        var saved := users.SetUserContext(userId, Some(c.contextId), now);
        r := match saved
          case Raised(e) => CREATE_FAILED + e
          case Ok(_) => r;
      }
    }

    /** `cmd_join_context`: refused, with nothing written, unless the context
        exists, is ACTIVE and does not have the user yet. */
    method JoinCmd(userId: string, contextId: string, now: int) returns (r: string)
      requires Valid()
      modifies Footprint()
      ensures Valid()
      ensures contexts == null ==> r == NOT_INITIALISED
      ensures contexts != null ==>
        var v := old(contexts.storage.View(contextId));
        var db := contexts.db;
        (v.None? ==> r == JOIN_NOT_FOUND + contextId && Untouched(contextId)) &&
        (v.Some? && v.value.status != Active ==> r == JOIN_STATUS_PREFIX + StatusValue(v.value.status) && Untouched(contextId)) &&
        (v.Some? && v.value.status == Active && userId in v.value.participants ==> r == ALREADY_IN && Untouched(contextId)) &&
        (v.Some? && v.value.status == Active && userId !in v.value.participants ==>
          (!db.up ==> StartsWith(r, JOIN_FAILED) && db.users == old(db.users) && db.contexts == old(db.contexts)) &&
          (db.up ==>
            r == JoinedReply(contextId, v.value.name, |v.value.participants| + 1) &&
            contexts.SavedState(Joined(v.value, userId, now), now) &&
            var joined := Ensured(old(db.users), userId, "", now);
            db.users == if users == null then joined
                        else joined[userId := joined[userId].(currentContextId := Some(contextId), lastActive := now)]))
    {
      if contexts == null {
        return NOT_INITIALISED;
      }
      var context := contexts.GetContext(contextId);
      if context.None? {
        return JOIN_NOT_FOUND + contextId;
      }
      var c := context.value;
      if c.status != Active {
        return JOIN_STATUS_PREFIX + StatusValue(c.status);
      }
      if userId in c.participants {
        return ALREADY_IN;
      }
      r := Enrol(userId, contextId, c, now);
      OverwriteTwice(old(contexts.storage.cache.entries), contextId, c, Joined(c, userId, now));
    }

    /** The writes of a join: the user is added to the context and, with a
        user manager, given it as current context. */
    method Enrol(userId: string, contextId: string, c: Context, now: int) returns (r: string)
      requires Valid() && contexts != null
      requires contexts.storage.View(contextId) == Some(c) && userId !in c.participants
      modifies Footprint()
      ensures Valid()
      ensures var db := contexts.db;
        (!db.up ==> StartsWith(r, JOIN_FAILED) && db.users == old(db.users) && db.contexts == old(db.contexts)) &&
        (db.up ==>
          r == JoinedReply(contextId, c.name, |c.participants| + 1) &&
          contexts.SavedState(Joined(c, userId, now), now) &&
          var joined := Ensured(old(db.users), userId, "", now);
          db.users == if users == null then joined
                      else joined[userId := joined[userId].(currentContextId := Some(contextId), lastActive := now)])
    {
      var added := contexts.AddParticipant(contextId, userId, "", now);
      if added.Raised? {
        return JOIN_FAILED + added.error;
      }
      r := JoinedReply(contextId, c.name, |c.participants| + 1);
      if users != null {
        // The database is up here, so the update cannot raise.
        var _ := users.SetUserContext(userId, Some(contextId), now);
      }
    }

    /** What leaving context `id` does when the user exists: the user is
        taken out of the context and has no current context afterwards. */
    twostate predicate LeaveEffect(userId: string, id: string, now: int, r: string)
      requires contexts != null
      reads contexts.db, contexts.storage.cache
    {
      var v := old(contexts.storage.View(id));
      var db := contexts.db;
      (v.None? ==> r == MISSING_CONTEXT + id && Untouched(id)) &&
      (v.Some? ==>
        r == LEFT_PREFIX + v.value.name && userId in old(db.users) &&
        db.users == old(db.users)[userId := old(db.users)[userId].(currentContextId := None, lastActive := now)] &&
        (userId in v.value.participants ==> contexts.SavedState(Departed(v.value, userId, now), now)) &&
        (userId !in v.value.participants ==> db.contexts == old(db.contexts)))
    }

    /** `cmd_leave_context`: the user leaves its current context, which is
        cleared. */
    method LeaveCmd(userId: string, now: int) returns (r: string)
      requires Valid()
      modifies Footprint()
      ensures Valid()
      ensures contexts == null ==> r == NOT_INITIALISED
      ensures contexts != null && users == null ==> r == NO_USER_INFO && Unchanged()
      ensures contexts != null && users != null ==>
        var db := contexts.db;
        var current := if userId in old(db.users) then old(db.users)[userId].currentContextId else None;
        (!db.up ==> StartsWith(r, LEAVE_FAILED) && db.users == old(db.users) && db.contexts == old(db.contexts)) &&
        (db.up && (current.None? || current.value == "") ==> r == NOT_IN_ANY && Unchanged()) &&
        (db.up && current.Some? && current.value != "" ==> LeaveEffect(userId, current.value, now, r))
    {
      if contexts == null {
        return NOT_INITIALISED;
      }
      if users == null {
        return NO_USER_INFO;
      }
      var user := users.db.GetUser(userId);
      if user.Raised? {
        return LEAVE_FAILED + user.error;
      }
      if user.value.None? || user.value.value.currentContextId.None? || user.value.value.currentContextId.value == "" {
        return NOT_IN_ANY;
      }
      r := LeaveContext(userId, user.value.value.currentContextId.value, now);
    }

    method LeaveContext(userId: string, id: string, now: int) returns (r: string)
      requires Valid() && contexts != null && users != null
      requires contexts.db.up && userId in contexts.db.users
      modifies Footprint()
      ensures Valid()
      ensures var v := old(contexts.storage.View(id));
        v.None? ==> r == MISSING_CONTEXT + id && Untouched(id)
      ensures var v := old(contexts.storage.View(id));
        v.Some? ==> r == LEFT_PREFIX + v.value.name
      ensures old(contexts.storage.View(id)).Some? ==>
        contexts.db.users == old(contexts.db.users)[userId := old(contexts.db.users)[userId].(currentContextId := None, lastActive := now)]
      ensures var v := old(contexts.storage.View(id));
        v.Some? && userId in v.value.participants ==> contexts.SavedState(Departed(v.value, userId, now), now)
      ensures var v := old(contexts.storage.View(id));
        v.Some? && userId !in v.value.participants ==> contexts.db.contexts == old(contexts.db.contexts)
    {
      var context := Depart(userId, id, now);
      if context.None? {
        return MISSING_CONTEXT + id;
      }
      LeftThenCleared(old(contexts.db.users), userId, id, now);
      ghost var rows, entries := contexts.db.contexts, contexts.storage.cache.entries;
      var _ := users.SetUserContext(userId, None, now);
      assert contexts.db.contexts == rows && contexts.storage.cache.entries == entries;
      r := LEFT_PREFIX + context.value.name;
    }

    /** The context part of leaving: read the context and, when it exists,
        take the user out of it. */
    method Depart(userId: string, id: string, now: int) returns (c: Option<Context>)
      requires Valid() && contexts != null && contexts.db.up
      modifies contexts.db, contexts.storage.cache
      ensures Valid()
      ensures c == old(contexts.storage.View(id))
      ensures c.None? ==> Untouched(id)
      ensures c.Some? ==>
        (contexts.db.users == old(contexts.db.users) || contexts.db.users == Left(old(contexts.db.users), userId, id)) &&
        (userId in c.value.participants ==> contexts.SavedState(Departed(c.value, userId, now), now)) &&
        (userId !in c.value.participants ==> contexts.db.contexts == old(contexts.db.contexts))
    {
      c := contexts.GetContext(id);
      if c.Some? {
        // The database is up here, so the update cannot raise.
        var _ := contexts.RemoveParticipant(id, userId, now);
      }
    }

    /** What ending context `id` does: refused unless it exists and the user
        created it; otherwise it is paused and every participant's current
        context is cleared. */
    twostate predicate EndEffect(userId: string, id: string, now: int, r: string)
      requires contexts != null
      reads contexts.db, contexts.storage.cache
    {
      var v := old(contexts.storage.View(id));
      var db := contexts.db;
      (v.None? ==> r == MISSING_CONTEXT + id && Untouched(id)) &&
      (v.Some? && v.value.creatorId != userId ==> r == NOT_CREATOR && Untouched(id)) &&
      (v.Some? && v.value.creatorId == userId ==>
        contexts.SavedState(v.value.(status := Paused, updatedAt := now), now) &&
        (db.up ==>
          r == ENDED_PREFIX + v.value.name &&
          db.users == if users == null then old(db.users) else Cleared(old(db.users), v.value.participants, now)) &&
        (!db.up ==>
          db.users == old(db.users) &&
          (users != null && v.value.participants != [] ==> StartsWith(r, END_FAILED)) &&
          (users == null || v.value.participants == [] ==> r == ENDED_PREFIX + v.value.name)))
    }

    /** `cmd_end_context`. */
    method EndCmd(userId: string, contextId: Option<string>, now: int) returns (r: string)
      requires Valid()
      modifies Footprint()
      ensures Valid()
      ensures contexts == null ==> r == NOT_INITIALISED
      ensures contexts != null ==>
        var target := EndTarget(contextId, users != null, old(contexts.db.GetUser(userId)));
        (target.Raised? ==> r == target.error && Unchanged()) &&
        (target.Ok? ==> EndEffect(userId, target.value, now, r))
    {
      if contexts == null {
        return NOT_INITIALISED;
      }
      var lookup := contexts.db.GetUser(userId);
      var target := EndTarget(contextId, users != null, lookup);
      if target.Raised? {
        return target.error;
      }
      r := EndContext(userId, target.value, now);
    }

    method EndContext(userId: string, id: string, now: int) returns (r: string)
      requires Valid() && contexts != null
      modifies Footprint()
      ensures Valid()
      ensures EndEffect(userId, id, now, r)
    {
      var context := contexts.GetContext(id);
      if context.None? {
        return MISSING_CONTEXT + id;
      }
      var c := context.value;
      if c.creatorId != userId {
        return NOT_CREATOR;
      }
      var _ := contexts.PauseContext(id, now);
      OverwriteTwice(old(contexts.storage.cache.entries), id, c, c.(status := Paused, updatedAt := now));
      r := ENDED_PREFIX + c.name;
      if users != null {
        ghost var rows, entries := contexts.db.contexts, contexts.storage.cache.entries;
        var cleared := ClearParticipants(c.participants, now);
        assert contexts.db.contexts == rows && contexts.storage.cache.entries == entries;
        if cleared.Raised? {
          r := END_FAILED + cleared.error;
        }
      }
    }

    /** The loop of `cmd_end_context` that clears every participant's current
        context; it stops at the first update that raises. */
    method ClearParticipants(participants: seq<string>, now: int) returns (r: Outcome<bool>)
      requires users != null && users.db.Valid()
      modifies users.db
      ensures users.db.Valid()
      ensures r.Raised? <==> !users.db.up && participants != []
      ensures users.db.users == if users.db.up then Cleared(old(users.db.users), participants, now) else old(users.db.users)
      ensures users.db.ContextsUnchanged()
    {
      var i := 0;
      while i < |participants|
        invariant 0 <= i <= |participants|
        invariant users.db.Valid()
        invariant users.db.users == Cleared(old(users.db.users), participants[..i], now)
        invariant users.db.up || i == 0
        invariant users.db.ContextsUnchanged()
      {
        ClearedStep(old(users.db.users), participants, i, now);
        var saved := users.SetUserContext(participants[i], None, now);
        if saved.Raised? {
          return Raised(saved.error);
        }
        i := i + 1;
      }
      assert participants[..i] == participants;
      r := Ok(true);
    }

    /** `cmd_show_history`: the newest `limit` messages of the user's current context. */
    method ShowHistory(userId: string, limit: int := DEFAULT_HISTORY_LIMIT) returns (r: string)
      requires Valid()
      modifies Footprint()
      ensures Valid()
      ensures contexts == null ==> r == NOT_INITIALISED
      ensures contexts != null && users == null ==> r == NO_USER_INFO
      ensures contexts != null ==> contexts.db.users == old(contexts.db.users) && contexts.db.contexts == old(contexts.db.contexts)
      ensures contexts != null && users != null ==>
        var db := contexts.db;
        var current := if userId in db.users then db.users[userId].currentContextId else None;
        (!db.up ==> StartsWith(r, HISTORY_FAILED)) &&
        (db.up && (current.None? || current.value == "") ==> r == NOT_IN_ANY) &&
        (db.up && current.Some? && current.value != "" ==>
          var v := old(contexts.storage.View(current.value));
          var ms := if v.None? then [] else Latest(v.value.messages, Some(limit));
          r == if ms == [] then NO_HISTORY else HistoryText(ms))
    {
      if contexts == null {
        return NOT_INITIALISED;
      }
      if users == null {
        return NO_USER_INFO;
      }
      var user := users.db.GetUser(userId);
      if user.Raised? {
        return HISTORY_FAILED + user.error;
      }
      if user.value.None? || user.value.value.currentContextId.None? || user.value.value.currentContextId.value == "" {
        return NOT_IN_ANY;
      }
      var messages := contexts.GetMessages(user.value.value.currentContextId.value, Some(limit));
      if messages == [] {
        return NO_HISTORY;
      }
      r := RenderHistory(messages);
    }

    /** The loop of `cmd_show_history` that builds the text. */
    method RenderHistory(messages: seq<ChatMessage>) returns (r: string)
      ensures r == HistoryText(messages)
    {
      var lines := [HistoryHeader(|messages|)];
      var i := 0;
      while i < |messages|
        invariant 0 <= i <= |messages|
        invariant lines == [HistoryHeader(|messages|)] + HistoryLines(messages[..i])
      {
        assert messages[..i + 1][..i] == messages[..i];
        lines := lines + [HistoryLine(messages[i])];
        i := i + 1;
      }
      assert messages[..i] == messages;
      r := JoinWith(lines, "\n");
    }

    /** `cmd_list_contexts`: `order` is the order in which the storage lists
        the ACTIVE contexts. */
    method ListCmd(userId: string, order: seq<string>) returns (r: string)
      requires Valid()
      requires contexts != null ==>
        NoDuplicates(order) && forall id :: id in order <==> id in contexts.ListActiveContexts(None)
      ensures contexts == null ==> r == NOT_INITIALISED
      ensures contexts != null ==>
        var mine := Mine(order, contexts.db.contexts, userId);
        (forall id :: id in mine ==> id in contexts.db.contexts) &&
        r == ListText(mine, contexts.db.contexts)
    {
      if contexts == null {
        return NOT_INITIALISED;
      }
      var rows := contexts.db.contexts;
      var mine := Mine(order, rows, userId);
      if mine == [] {
        return NO_ACTIVE;
      }
      var lines := [ListHeader(|mine|)];
      var i := 0;
      while i < |mine|
        invariant 0 <= i <= |mine|
        invariant lines == [ListHeader(|mine|)] + ListEntries(mine[..i], rows)
      {
        assert mine[..i + 1][..i] == mine[..i];
        lines := lines + [ListEntry(rows[mine[i]])];
        i := i + 1;
      }
      assert mine[..i] == mine;
      r := JoinWith(lines, "\n\n");
    }
  }

  /** The listing shows exactly the ACTIVE contexts the user takes part in:
      the filter over all ACTIVE contexts agrees with listing for the user. */
  lemma {:induction false} MineIsListedForUser(m: ContextManager, order: seq<string>, userId: string)
    requires m.Wired()
    requires forall id :: id in order <==> id in m.ListActiveContexts(None)
    requires userId != ""
    ensures forall id :: id in Mine(order, m.db.contexts, userId) <==> id in m.ListActiveContexts(Some(userId))
  {
    forall id | id in Mine(order, m.db.contexts, userId)
      ensures id in m.ListActiveContexts(Some(userId))
    {
      assert id in m.ListActiveContexts(None);
    }
    forall id | id in m.ListActiveContexts(Some(userId))
      ensures id in Mine(order, m.db.contexts, userId)
    {
      assert Listed(m.db.contexts[id], None);
    }
  }
}
