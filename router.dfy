// The message router (src/core/router.py): the entry point of every incoming
// message.  It admits or refuses the sender (ban, then quota, then the
// per-minute and daily limits), finds or opens the conversation context,
// records the user message, runs the processing graph and records the
// reply.  Fresh ids (the message id, the context token and the two stored
// message ids), the clock and the outcome of the graph runtime are inputs.

module Router {
  import opened Common
  import opened Models
  import opened Store
  import opened RobotStates
  import Tokens
  import Bans
  import Sessions
  import Graph

  const USER_BANNED := "USER_BANNED"
  const QUOTA_EXCEEDED := "QUOTA_EXCEEDED"
  const RATE_LIMIT_EXCEEDED := "RATE_LIMIT_EXCEEDED"
  const DAILY_LIMIT_EXCEEDED := "DAILY_LIMIT_EXCEEDED"

  const PERMANENT_BAN_NOTICE := "您已被永久封禁。"
  const TIMED_BAN_PREFIX := "您已被封禁，剩余 "
  const TIMED_BAN_SUFFIX := " 分钟。"
  const BAN_NOTICE := "您已被封禁。"
  const RATE_LIMIT_NOTICE := "请求过于频繁，请稍后再试。"
  const DAILY_LIMIT_NOTICE := "今日配额已用完，请明天再试。"
  const ROUTING_APOLOGY := "抱歉，处理您的消息时出现错误。"

  const PRIVATE_NAME_PREFIX := "私聊_"
  const GROUP_NAME_PREFIX := "群聊_"
  const GROUP_ID_PREFIX := "group_"
  const TALK_NAME_PREFIX := "对话_"
  const CREATED_PREFIX := "已创建新对话："
  const JOIN_PENDING := "加入对话功能正在开发中..."
  const LEFT_NOTICE := "已离开当前对话"
  const NOT_IN_CONTEXT := "您不在任何对话中"
  const ENDED_NOTICE := "对话已结束"
  const UNKNOWN_OPERATION := "未知上下文操作"
  const ROBOT_ID := "robot"
  const ROBOT_NAME := "Robot"

  // ---------------------------------------------------------------------------
  // Admission
  // ---------------------------------------------------------------------------

  /** The dictionary `_pre_check` returns. */
  datatype Admission = Admission(allowed: bool, reason: string, errorCode: Option<string>)

  const ADMITTED := Admission(true, "", None)

  /** The refusal text for a banned sender, from the remaining ban time. */
  function BanNotice(remaining: Option<nat>): string
  {
    match remaining
    case None => PERMANENT_BAN_NOTICE
    case Some(seconds) =>
      if seconds > 0 then TIMED_BAN_PREFIX + NatToString(seconds / 60) + TIMED_BAN_SUFFIX else BAN_NOTICE
  }

  /** The admission decision for `userId` over the stored bans and quotas.
      Every repository call raises when the database is down, and the gate
      then fails open; a stored quota that fails validation fails open too. */
  function Verdict(up: bool, bans: seq<BanRecord>, quotas: map<string, TokenQuota>, userId: string, now: int): Admission
  {
    if !up then ADMITTED
    else match LatestCandidate(bans, userId, now)
      case Some(ban) => Admission(false, BanNotice(BanRemainingSeconds(ban, now)), Some(USER_BANNED))
      case None =>
        match Tokens.QuotaView(true, quotas, userId, now)
        case Raised(_) => ADMITTED
        case Ok(q) =>
          var (ok, message) := Tokens.CheckQuotaOf(q, 0, now);
          if !ok then Admission(false, message, Some(QUOTA_EXCEEDED))
          else if !Tokens.MinuteLimitOk(q, now) then Admission(false, RATE_LIMIT_NOTICE, Some(RATE_LIMIT_EXCEEDED))
          else if !Tokens.DailyLimitOk(q) then Admission(false, DAILY_LIMIT_NOTICE, Some(DAILY_LIMIT_EXCEEDED))
          else ADMITTED
  }

  /** What the gate decides: a sender is refused for a ban exactly when some
      stored ban is in force; the quota check asks for no tokens, so only the
      per-minute limit can make it refuse, and the separate per-minute test
      after it can never refuse; a refusal always carries a code and a text. */
  lemma VerdictCases(up: bool, bans: seq<BanRecord>, quotas: map<string, TokenQuota>, userId: string, now: int)
    ensures var a := Verdict(up, bans, quotas, userId, now);
      (!up ==> a == ADMITTED) &&
      (a.errorCode == Some(USER_BANNED) <==> up && exists b :: b in bans && BanCandidate(b, userId, now)) &&
      (a.errorCode == Some(QUOTA_EXCEEDED) ==>
        a.reason == Tokens.TOO_FREQUENT && !Tokens.MinuteLimitOk(Tokens.QuotaView(up, quotas, userId, now).value, now)) &&
      a.errorCode != Some(RATE_LIMIT_EXCEEDED) &&
      (a.allowed <==> a == ADMITTED) &&
      (!a.allowed ==> a.errorCode.Some? && a.reason != "")
  {
    if up && LatestCandidate(bans, userId, now).None? {
      var v := Tokens.QuotaView(true, quotas, userId, now);
      if v.Ok? {
        Tokens.CheckNoTokens(v.value, now);
      }
    }
  }

  /** The gate admits exactly the senders with no ban in force whose quota
      (when it loads) is under both the per-minute and the daily limit. */
  lemma VerdictAdmits(bans: seq<BanRecord>, quotas: map<string, TokenQuota>, userId: string, now: int)
    ensures Verdict(true, bans, quotas, userId, now).allowed <==>
      (forall b :: b in bans ==> !BanCandidate(b, userId, now)) &&
      (Tokens.QuotaView(true, quotas, userId, now).Ok? ==>
        Tokens.MinuteLimitOk(Tokens.QuotaView(true, quotas, userId, now).value, now) &&
        Tokens.DailyLimitOk(Tokens.QuotaView(true, quotas, userId, now).value))
  {
    var v := Tokens.QuotaView(true, quotas, userId, now);
    if v.Ok? {
      Tokens.CheckNoTokens(v.value, now);
    }
  }

  /** A temporary ban in force is reported with its whole minutes left,
      rounded down; a permanent one with the permanent-ban text. */
  lemma BanNoticeOf(b: BanRecord, now: int)
    requires BanCandidate(b, b.userId, now)
    ensures b.banType == Permanent ==> BanNotice(BanRemainingSeconds(b, now)) == PERMANENT_BAN_NOTICE
    ensures b.banType == Temporary ==>
      BanNotice(BanRemainingSeconds(b, now)) == TIMED_BAN_PREFIX + NatToString((b.expiresAt.value - now) / 60) + TIMED_BAN_SUFFIX
  {
    if b.banType == Temporary {
      assert BanRemainingSeconds(b, now).value == b.expiresAt.value - now;
    }
  }

  // ---------------------------------------------------------------------------
  // Routing
  // ---------------------------------------------------------------------------

  /** `MessageProcessingResult`, without the elapsed time and token count. */
  datatype ProcessingResult = ProcessingResult(success: bool, response: string, error: Option<string>,
                                               snapshot: Option<RobotState>)

  /** The names of the `MessageType` members. */
  const MESSAGE_TYPE_NAMES := {"TEXT", "IMAGE", "VOICE", "SYSTEM", "COMMAND"}

  /** The type the router stores the user message under: the membership test
      looks at member names while the conversion looks up member values, so
      any name raises and every other input is stored as TEXT. */
  function StoredMessageType(messageType: string): (r: Outcome<MessageType>)
  {
    if messageType in MESSAGE_TYPE_NAMES then Raised(InvalidMessageType(messageType))
    else Ok(TextMessage)
  }

  /** `str(e)` of the ValueError the enum lookup raises for an unknown value. */
  function InvalidMessageType(messageType: string): string
  {
    "'" + messageType + "' is not a valid MessageType"
  }

  /** The routed user message never keeps the type it was sent with. */
  lemma StoredMessageTypeIsText(messageType: string)
    ensures StoredMessageType(messageType).Ok? <==> messageType !in MESSAGE_TYPE_NAMES
    ensures StoredMessageType(messageType).Ok? ==> StoredMessageType(messageType).value == TextMessage
    ensures StoredMessageType(messageType).Raised? ==> StoredMessageType(messageType).error == InvalidMessageType(messageType)
    ensures StoredMessageType("text") == Ok(TextMessage) && StoredMessageType("TEXT").Raised?
  {
    assert "text" != "TEXT" by { assert "text"[0] != "TEXT"[0]; }
    assert "text" !in MESSAGE_TYPE_NAMES by {
      assert "text"[0] == 't';
    }
  }

  function KindOf(groupId: Option<string>): ContextType
  {
    if groupId.None? then PrivateContext else GroupContext
  }

  /** The state handed to the graph: the initial state with the context type
      and, when there is one, the context id filled in. */
  function Prepared(messageId: string, userId: string, userName: string, content: string,
                    groupId: Option<string>, messageType: string, contextId: Option<string>, now: int): (s: RobotState)
    ensures s.contextType == Some(if groupId.None? then "private" else "group")
    ensures s.contextId == contextId && s.messageId == messageId && s.processingStage == Received
  {
    CreateInitialState(messageId, userId, content, userName, groupId, messageType, now)
      .(contextType := Some(Sessions.KindValue(KindOf(groupId))), contextId := contextId)
  }

  /** Every context id was minted by `create_context`. */
  predicate Minted(contexts: map<string, Context>)
  {
    forall k :: k in contexts ==> StartsWith(k, Sessions.CONTEXT_ID_PREFIX)
  }

  /** The group lookup uses an id that `create_context` never mints, so it
      never finds a context. */
  lemma GroupLookupMisses(contexts: map<string, Context>, groupId: string)
    requires Minted(contexts)
    ensures GROUP_ID_PREFIX + groupId !in contexts
  {
    var id := GROUP_ID_PREFIX + groupId;
    assert !StartsWith(id, Sessions.CONTEXT_ID_PREFIX) by {
      assert id[0] == 'g' && Sessions.CONTEXT_ID_PREFIX[0] == 'c';
    }
  }

  /** Every entry of `before` but the one at `id` is still in `after`, unchanged. */
  predicate KeepsOthers(before: map<string, Context>, after: map<string, Context>, id: Option<string>)
  {
    forall k :: k in before && Some(k) != id ==> k in after && after[k] == before[k]
  }

  /** No entry was removed, and only the entry at `id` may have been written or added. */
  predicate OnlyAt(before: map<string, Context>, after: map<string, Context>, id: Option<string>)
  {
    before.Keys <= after.Keys && KeepsOthers(before, after, id) && forall k :: k in after ==> k in before || Some(k) == id
  }

  /** Only the record of `userId` may have been written or added. */
  predicate OthersKept(before: map<string, User>, after: map<string, User>, userId: string)
  {
    (forall u :: u in before && u != userId ==> u in after && after[u] == before[u]) &&
    forall u :: u in after ==> u in before || u == userId
  }

  lemma OnlyAtTwice(a: map<string, Context>, b: map<string, Context>, c: map<string, Context>, id: Option<string>)
    requires OnlyAt(a, b, id) && OnlyAt(b, c, id)
    ensures OnlyAt(a, c, id)
  {
  }

  lemma KeepsOthersTwice(a: map<string, Context>, b: map<string, Context>, c: map<string, Context>, id: Option<string>)
    requires KeepsOthers(a, b, id) && KeepsOthers(b, c, id)
    ensures KeepsOthers(a, c, id)
  {
  }

  /** The id of a context, if there is one. */
  function IdOf(c: Option<Context>): Option<string>
  {
    if c.Some? then Some(c.value.contextId) else None
  }

  class MessageRouter {
    const db: Database
    const tokens: Tokens.TokenController
    const bans: Bans.BanManager
    const contexts: Sessions.ContextManager

    constructor (db: Database, tokens: Tokens.TokenController, bans: Bans.BanManager, contexts: Sessions.ContextManager)
      ensures this.db == db && this.tokens == tokens && this.bans == bans && this.contexts == contexts
    {
      this.db := db;
      this.tokens := tokens;
      this.bans := bans;
      this.contexts := contexts;
    }

    /** All managers share one database. */
    predicate Wired()
    {
      tokens.db == db && bans.db == db && contexts.db == db && contexts.Wired()
    }

    /** The stored rows are keyed by their ids, and so are the cached contexts. */
    ghost predicate Valid()
      reads db, contexts.storage.cache
    {
      db.Valid() &&
      forall k :: k in contexts.storage.cache.entries ==> contexts.storage.cache.entries[k].contextId == k
    }

    /** A context read through the hybrid storage carries the id it was read under. */
    lemma ViewKeyed(id: string)
      requires Wired() && Valid()
      ensures contexts.storage.View(id).Some? ==> contexts.storage.View(id).value.contextId == id
      ensures contexts.storage.Backfilled(id).Keys == contexts.storage.cache.entries.Keys ||
              contexts.storage.Backfilled(id).Keys == contexts.storage.cache.entries.Keys + {id}
      ensures forall k :: k in contexts.storage.Backfilled(id) ==> contexts.storage.Backfilled(id)[k].contextId == k
    {
    }

    /** `_pre_check`: ban, then quota, then the per-minute and daily limits;
        the first refusal wins, and an error anywhere admits. */
    method PreCheck(userId: string, now: int) returns (a: Admission)
      requires Wired() && db.Valid()
      modifies db
      ensures db.Valid()
      ensures a == Verdict(db.up, old(db.bans), old(db.quotas), userId, now)
      ensures Tokens.OthersSame(old(db.quotas), db.quotas, userId)
      ensures db.UsersUnchanged() && db.ContextsUnchanged() && db.BansUnchanged() && db.RolesUnchanged()
    {
      var banned := bans.IsBanned(userId, now);
      if banned.Raised? {
        return ADMITTED;
      }
      if banned.value {
        var remaining := bans.GetRemainingBanTime(userId, now);
        a := match remaining
          case Raised(_) => Admission(false, "", Some(USER_BANNED))
          case Ok(left) => Admission(false, BanNotice(left), Some(USER_BANNED));
        return;
      }
      ghost var v := Tokens.QuotaView(true, db.quotas, userId, now);
      var quota := tokens.CheckQuota(userId, 0, now);
      if quota.Raised? {
        return ADMITTED;
      }
      if !quota.value.0 {
        return Admission(false, quota.value.1, Some(QUOTA_EXCEEDED));
      }
      Tokens.QuotaViewShape(true, old(db.quotas), userId, now);
      Tokens.SettledView(db.quotas, userId, now, v.value);
      var minute := tokens.CheckMinuteLimit(userId, now);
      Tokens.SettledView(db.quotas, userId, now, v.value);
      var minuteOk := match minute case Raised(_) => true case Ok(ok) => ok;
      if !minuteOk {
        return Admission(false, RATE_LIMIT_NOTICE, Some(RATE_LIMIT_EXCEEDED));
      }
      var daily := tokens.CheckDailyLimit(userId, now);
      var dailyOk := match daily case Raised(_) => true case Ok(ok) => ok;
      if !dailyOk {
        return Admission(false, DAILY_LIMIT_NOTICE, Some(DAILY_LIMIT_EXCEEDED));
      }
      a := ADMITTED;
    }

    /** `_get_or_create_context`.  A private chat continues the sender's
        current context while it is ACTIVE and otherwise opens a new one; a
        group chat looks up `group_<gid>` directly in the database, opens a
        new context when that is missing or not ACTIVE, and adds the sender
        when absent.  Any error gives no context. */
    method GetOrCreateContext(userId: string, userName: string, groupId: Option<string>, token: string, now: int)
      returns (r: Option<Context>)
      requires Wired() && Valid()
      modifies db, contexts.storage.cache
      ensures Valid()
      ensures !db.up ==> r.None?
      ensures db.up && Sessions.CONTEXT_ID_PREFIX + token !in old(db.contexts) ==> r.Some?
      ensures r.Some? ==> r.value.status == Active && contexts.storage.View(r.value.contextId).Some?
      ensures groupId.None? && db.up ==>
        var current := if userId in old(db.users) then old(db.users)[userId].currentContextId else None;
        var found := if current.None? || current.value == "" then None else old(contexts.storage.View(current.value));
        if found.Some? && found.value.status == Active then r == found && r.value.contextId == current.value && db.users == old(db.users)
        else (r.Some? <==> Sessions.CONTEXT_ID_PREFIX + token !in old(db.contexts)) &&
             (r.Some? ==> r.value == Load(Sessions.NewContext(PrivateContext, userId, PRIVATE_NAME_PREFIX + userName,
                                                              Some([userId]), None, map[], token, now), old(db.messageRows)) &&
                          db.users == old(db.users)[userId := Sessions.Creator(old(db.users), userId, now)
                                                                .(currentContextId := Some(r.value.contextId))])
      ensures groupId.Some? && Minted(old(db.contexts)) ==>
        r.Some? ==> r.value == Load(Sessions.NewContext(GroupContext, userId, GROUP_NAME_PREFIX + groupId.value,
                                                        Some([userId]), None, map[], token, now), old(db.messageRows)) &&
                    db.users == old(db.users)[userId := Sessions.Creator(old(db.users), userId, now)
                                                          .(currentContextId := Some(r.value.contextId))]
      ensures groupId.None? && db.up ==>
        var current := if userId in old(db.users) then old(db.users)[userId].currentContextId else None;
        var found := if current.None? || current.value == "" then None else old(contexts.storage.View(current.value));
        var newId := Sessions.CONTEXT_ID_PREFIX + token;
        if found.Some? && found.value.status == Active then
          IdOf(r) == Some(current.value) && db.users == old(db.users)
        else
          IdOf(r) == (if newId in old(db.contexts) then None else Some(newId)) &&
          (newId !in old(db.contexts) ==>
            db.users == old(db.users)[userId := Sessions.Creator(old(db.users), userId, now).(currentContextId := Some(newId))])
      ensures groupId.Some? && Minted(old(db.contexts)) && db.up ==>
        var newId := Sessions.CONTEXT_ID_PREFIX + token;
        IdOf(r) == (if newId in old(db.contexts) then None else Some(newId)) &&
        (newId !in old(db.contexts) ==>
          db.users == old(db.users)[userId := Sessions.Creator(old(db.users), userId, now).(currentContextId := Some(newId))])
      ensures OthersKept(old(db.users), db.users, userId)
      ensures OnlyAt(old(db.contexts), db.contexts, if r.Some? then Some(r.value.contextId) else None)
      ensures KeepsOthers(old(contexts.storage.cache.entries), contexts.storage.cache.entries,
                          if r.Some? then Some(r.value.contextId) else None)
      ensures db.messageRows == old(db.messageRows) && db.QuotasUnchanged() && db.BansUnchanged() && db.RolesUnchanged()
    {
      if groupId.None? {
        r := PrivateContextFor(userId, userName, token, now);
      } else {
        r := GroupContextFor(userId, userName, groupId.value, token, now);
      }
    }

    /** The private-chat half of `_get_or_create_context`. */
    method PrivateContextFor(userId: string, userName: string, token: string, now: int) returns (r: Option<Context>)
      requires Wired() && Valid()
      modifies db, contexts.storage.cache
      ensures Valid()
      ensures !db.up ==> r.None?
      ensures db.up && Sessions.CONTEXT_ID_PREFIX + token !in old(db.contexts) ==> r.Some?
      ensures r.Some? ==> r.value.status == Active && contexts.storage.View(r.value.contextId).Some?
      ensures db.up ==>
        var current := if userId in old(db.users) then old(db.users)[userId].currentContextId else None;
        var found := if current.None? || current.value == "" then None else old(contexts.storage.View(current.value));
        if found.Some? && found.value.status == Active then r == found && r.value.contextId == current.value && db.users == old(db.users)
        else (r.Some? <==> Sessions.CONTEXT_ID_PREFIX + token !in old(db.contexts)) &&
             (r.Some? ==> r.value == Load(Sessions.NewContext(PrivateContext, userId, PRIVATE_NAME_PREFIX + userName,
                                                              Some([userId]), None, map[], token, now), old(db.messageRows)) &&
                          db.users == old(db.users)[userId := Sessions.Creator(old(db.users), userId, now)
                                                                .(currentContextId := Some(r.value.contextId))])
      ensures OthersKept(old(db.users), db.users, userId)
      ensures OnlyAt(old(db.contexts), db.contexts, if r.Some? then Some(r.value.contextId) else None)
      ensures KeepsOthers(old(contexts.storage.cache.entries), contexts.storage.cache.entries,
                          if r.Some? then Some(r.value.contextId) else None)
      ensures db.messageRows == old(db.messageRows) && db.QuotasUnchanged() && db.BansUnchanged() && db.RolesUnchanged()
    {
      var current := contexts.GetUserContext(userId);
      if current.Raised? {
        return None;
      }
      var found := current.value;
      if found.Some? && found.value.status == Active {
        ViewKeyed(db.users[userId].currentContextId.value);
        return found;
      }
      r := OpenContext(PrivateContext, userId, PRIVATE_NAME_PREFIX + userName, token, now);
    }

    /** The group-chat half of `_get_or_create_context`. */
    method GroupContextFor(userId: string, userName: string, groupId: string, token: string, now: int)
      returns (r: Option<Context>)
      requires Wired() && Valid()
      modifies db, contexts.storage.cache
      ensures Valid()
      ensures !db.up ==> r.None?
      ensures db.up && Sessions.CONTEXT_ID_PREFIX + token !in old(db.contexts) ==> r.Some?
      ensures r.Some? ==> r.value.status == Active && contexts.storage.View(r.value.contextId).Some?
      ensures Minted(old(db.contexts)) ==> (r.Some? <==> db.up && Sessions.CONTEXT_ID_PREFIX + token !in old(db.contexts))
      ensures Minted(old(db.contexts)) ==>
        r.Some? ==> r.value == Load(Sessions.NewContext(GroupContext, userId, GROUP_NAME_PREFIX + groupId,
                                                        Some([userId]), None, map[], token, now), old(db.messageRows)) &&
                    db.users == old(db.users)[userId := Sessions.Creator(old(db.users), userId, now)
                                                          .(currentContextId := Some(r.value.contextId))]
      ensures OthersKept(old(db.users), db.users, userId)
      ensures OnlyAt(old(db.contexts), db.contexts, if r.Some? then Some(r.value.contextId) else None)
      ensures KeepsOthers(old(contexts.storage.cache.entries), contexts.storage.cache.entries,
                          if r.Some? then Some(r.value.contextId) else None)
      ensures db.messageRows == old(db.messageRows) && db.QuotasUnchanged() && db.BansUnchanged() && db.RolesUnchanged()
    {
      var looked := db.GetContext(GROUP_ID_PREFIX + groupId);
      if looked.Raised? {
        return None;
      }
      if Minted(db.contexts) {
        GroupLookupMisses(db.contexts, groupId);
      }
      if looked.value.Some? && looked.value.value.status == Active {
        r := EnsureParticipant(looked.value.value, userId, userName, now);
      } else {
        var made := OpenContext(GroupContext, userId, GROUP_NAME_PREFIX + groupId, token, now);
        if made.None? {
          return None;
        }
        ghost var contexts1, cache1 := db.contexts, contexts.storage.cache.entries;
        r := EnsureParticipant(made.value, userId, userName, now);
        OnlyAtTwice(old(db.contexts), contexts1, db.contexts, Some(made.value.contextId));
        KeepsOthersTwice(old(contexts.storage.cache.entries), cache1, contexts.storage.cache.entries, Some(made.value.contextId));
      }
    }

    /** The last step of the group-chat half: a sender missing from the
        context's participants is added to it; a failure to add gives no
        context. */
    method EnsureParticipant(context: Context, userId: string, userName: string, now: int) returns (r: Option<Context>)
      requires Wired() && Valid()
      requires context.status == Active && contexts.storage.View(context.contextId).Some?
      modifies db, contexts.storage.cache
      ensures Valid()
      ensures userId in context.participants ==>
        r == Some(context) && db.users == old(db.users) && db.contexts == old(db.contexts) &&
        contexts.storage.cache.entries == old(contexts.storage.cache.entries)
      ensures db.up ==> r.Some?
      ensures r.Some? ==> r.value == context && contexts.storage.View(context.contextId).Some?
      ensures r.None? ==> db.contexts == old(db.contexts) && db.users == old(db.users)
      ensures OthersKept(old(db.users), db.users, userId)
      ensures OnlyAt(old(db.contexts), db.contexts, Some(context.contextId))
      ensures KeepsOthers(old(contexts.storage.cache.entries), contexts.storage.cache.entries, Some(context.contextId))
      ensures db.messageRows == old(db.messageRows) && db.QuotasUnchanged() && db.BansUnchanged() && db.RolesUnchanged()
    {
      if userId in context.participants {
        return Some(context);
      }
      ViewKeyed(context.contextId);
      var added := contexts.AddParticipant(context.contextId, userId, userName, now);
      if added.Raised? {
        return None;
      }
      ViewKeyed(context.contextId);
      r := Some(context);
    }

    /** `create_context` with the sender as creator and only participant. */
    method OpenContext(kind: ContextType, userId: string, name: string, token: string, now: int) returns (r: Option<Context>)
      requires Wired() && Valid()
      modifies db, contexts.storage.cache
      ensures Valid()
      ensures r.Some? <==> db.up && Sessions.CONTEXT_ID_PREFIX + token !in old(db.contexts)
      ensures r.Some? ==> r.value == Load(Sessions.NewContext(kind, userId, name, Some([userId]), None, map[], token, now),
                                          old(db.messageRows))
      ensures r.Some? ==> r.value.status == Active && userId in r.value.participants &&
                          contexts.storage.View(r.value.contextId).Some?
      ensures r.None? ==> db.contexts == old(db.contexts) && contexts.storage.cache.entries == old(contexts.storage.cache.entries)
      ensures r.Some? ==>
        db.users == old(db.users)[userId := Sessions.Creator(old(db.users), userId, now).(currentContextId := Some(r.value.contextId))]
      ensures r.None? ==> db.users == if db.up then old(db.users)[userId := Sessions.Creator(old(db.users), userId, now)] else old(db.users)
      ensures OnlyAt(old(db.contexts), db.contexts, if r.Some? then Some(r.value.contextId) else None)
      ensures KeepsOthers(old(contexts.storage.cache.entries), contexts.storage.cache.entries,
                          if r.Some? then Some(r.value.contextId) else None)
      ensures db.messageRows == old(db.messageRows) && db.QuotasUnchanged() && db.BansUnchanged() && db.RolesUnchanged()
    {
      var created := contexts.CreateContext(kind, userId, name, Some([userId]), None, map[], token, now);
      if created.Raised? {
        return None;
      }
      r := Some(created.value);
    }

    /** `route_message`: a refused sender gets the refusal and nothing else
        happens; otherwise the user message is recorded in the context (when
        one is found or opened), the graph runs on the prepared state, and a
        non-empty reply is recorded after it.  An error on the way gives the
        fixed apology instead of a result. */
    method RouteMessage(userId: string, userName: string, content: string, groupId: Option<string>, messageType: string,
                        messageId: string, token: string, userMessageId: string, replyMessageId: string, now: int,
                        cfg: Graph.GraphConfig, runtimeError: Option<string>) returns (r: ProcessingResult)
      requires Wired() && Valid()
      modifies db, contexts.storage.cache
      ensures Valid()
      ensures var a := Verdict(db.up, old(db.bans), old(db.quotas), userId, now);
        (!a.allowed ==>
          r == ProcessingResult(false, a.reason, a.errorCode, None) &&
          db.users == old(db.users) && db.contexts == old(db.contexts) && db.messageRows == old(db.messageRows) &&
          contexts.storage.cache.entries == old(contexts.storage.cache.entries)) &&
        (r.success ==> a.allowed) &&
        (a.allowed && messageType !in MESSAGE_TYPE_NAMES ==> r.success) &&
        (a.allowed && !r.success ==>
          messageType in MESSAGE_TYPE_NAMES && db.messageRows == old(db.messageRows) &&
          r == ProcessingResult(false, ROUTING_APOLOGY, Some(InvalidMessageType(messageType)), None)) &&
        (a.allowed && messageType in MESSAGE_TYPE_NAMES && r.success ==> r.snapshot.Some? && r.snapshot.value.contextId.None?) &&
        (a.allowed && messageType in MESSAGE_TYPE_NAMES && db.up && Sessions.CONTEXT_ID_PREFIX + token !in old(db.contexts) ==>
          !r.success)
      ensures r.success ==> (r.error.None? && r.snapshot.Some? &&
        var s := r.snapshot.value;
        s == Graph.Process(cfg, Prepared(messageId, userId, userName, content, groupId, messageType, s.contextId, now), runtimeError) &&
        r.response == s.response &&
        (s.contextId.None? ==> db.messageRows == old(db.messageRows)) &&
        (s.contextId.Some? ==>
          db.messageRows == old(db.messageRows) +
            [(s.contextId.value, Sessions.NewMessage(userMessageId, userId, userName, content, TextMessage, UserRole, false, now))] +
            (if r.response == "" then []
             else [(s.contextId.value, Sessions.NewMessage(replyMessageId, ROBOT_ID, ROBOT_NAME, r.response, TextMessage, UserRole, false, now))])))
      ensures !db.up ==> r.success && r.snapshot.value.contextId.None?
      ensures Verdict(db.up, old(db.bans), old(db.quotas), userId, now).allowed && db.up && messageType !in MESSAGE_TYPE_NAMES && Sessions.CONTEXT_ID_PREFIX + token !in old(db.contexts) ==>
        r.snapshot.Some? && r.snapshot.value.contextId.Some?
      ensures Verdict(db.up, old(db.bans), old(db.quotas), userId, now).allowed && groupId.None? && db.up && messageType !in MESSAGE_TYPE_NAMES && r.snapshot.Some? ==>
        var current := if userId in old(db.users) then old(db.users)[userId].currentContextId else None;
        var found := if current.None? || current.value == "" then None else old(contexts.storage.View(current.value));
        var newId := Sessions.CONTEXT_ID_PREFIX + token;
        if found.Some? && found.value.status == Active then
          r.snapshot.value.contextId == Some(current.value) && db.users == old(db.users)
        else
          r.snapshot.value.contextId == (if newId in old(db.contexts) then None else Some(newId)) &&
          (newId !in old(db.contexts) ==>
            db.users == old(db.users)[userId := Sessions.Creator(old(db.users), userId, now).(currentContextId := Some(newId))])
      ensures Verdict(db.up, old(db.bans), old(db.quotas), userId, now).allowed && groupId.Some? && Minted(old(db.contexts)) && db.up && messageType !in MESSAGE_TYPE_NAMES && r.snapshot.Some? ==>
        var newId := Sessions.CONTEXT_ID_PREFIX + token;
        r.snapshot.value.contextId == (if newId in old(db.contexts) then None else Some(newId)) &&
        (newId !in old(db.contexts) ==>
          db.users == old(db.users)[userId := Sessions.Creator(old(db.users), userId, now).(currentContextId := Some(newId))])
      ensures r.success ==>
        OnlyAt(old(db.contexts), db.contexts, r.snapshot.value.contextId) &&
        KeepsOthers(old(contexts.storage.cache.entries), contexts.storage.cache.entries, r.snapshot.value.contextId) &&
        (r.snapshot.value.contextId.Some? ==> r.snapshot.value.contextId.value in db.contexts)
      ensures OthersKept(old(db.users), db.users, userId)
      ensures db.BansUnchanged() && db.RolesUnchanged()
    {
      var admission := PreCheck(userId, now);
      if !admission.allowed {
        return ProcessingResult(false, admission.reason, admission.errorCode, None);
      }
      ghost var current := if userId in db.users then db.users[userId].currentContextId else None;
      if current.Some? && current.value != "" {
        assert contexts.storage.View(current.value) == old(contexts.storage.View(current.value));
      }
      r := Deliver(userId, userName, content, groupId, messageType, messageId, token, userMessageId, replyMessageId,
                   now, cfg, runtimeError);
    }

    /** What `route_message` does for an admitted sender. */
    method Deliver(userId: string, userName: string, content: string, groupId: Option<string>, messageType: string,
                   messageId: string, token: string, userMessageId: string, replyMessageId: string, now: int,
                   cfg: Graph.GraphConfig, runtimeError: Option<string>) returns (r: ProcessingResult)
      requires Wired() && Valid()
      modifies db, contexts.storage.cache
      ensures Valid()
      ensures messageType !in MESSAGE_TYPE_NAMES ==> r.success
      ensures !r.success ==>
        messageType in MESSAGE_TYPE_NAMES && db.messageRows == old(db.messageRows) &&
        r == ProcessingResult(false, ROUTING_APOLOGY, Some(InvalidMessageType(messageType)), None)
      ensures messageType in MESSAGE_TYPE_NAMES && r.success ==> r.snapshot.Some? && r.snapshot.value.contextId.None?
      ensures messageType in MESSAGE_TYPE_NAMES && db.up && Sessions.CONTEXT_ID_PREFIX + token !in old(db.contexts) ==> !r.success
      ensures r.success ==> (r.error.None? && r.snapshot.Some? &&
        var s := r.snapshot.value;
        s == Graph.Process(cfg, Prepared(messageId, userId, userName, content, groupId, messageType, s.contextId, now), runtimeError) &&
        r.response == s.response &&
        (s.contextId.None? ==> db.messageRows == old(db.messageRows)) &&
        (s.contextId.Some? ==>
          db.messageRows == old(db.messageRows) +
            [(s.contextId.value, Sessions.NewMessage(userMessageId, userId, userName, content, TextMessage, UserRole, false, now))] +
            (if r.response == "" then []
             else [(s.contextId.value, Sessions.NewMessage(replyMessageId, ROBOT_ID, ROBOT_NAME, r.response, TextMessage, UserRole, false, now))])))
      ensures !db.up ==> r.success && r.snapshot.value.contextId.None?
      ensures db.up && messageType !in MESSAGE_TYPE_NAMES && Sessions.CONTEXT_ID_PREFIX + token !in old(db.contexts) ==>
        r.snapshot.Some? && r.snapshot.value.contextId.Some?
      ensures groupId.None? && db.up && messageType !in MESSAGE_TYPE_NAMES && r.snapshot.Some? ==>
        var current := if userId in old(db.users) then old(db.users)[userId].currentContextId else None;
        var found := if current.None? || current.value == "" then None else old(contexts.storage.View(current.value));
        var newId := Sessions.CONTEXT_ID_PREFIX + token;
        if found.Some? && found.value.status == Active then
          r.snapshot.value.contextId == Some(current.value) && db.users == old(db.users)
        else
          r.snapshot.value.contextId == (if newId in old(db.contexts) then None else Some(newId)) &&
          (newId !in old(db.contexts) ==>
            db.users == old(db.users)[userId := Sessions.Creator(old(db.users), userId, now).(currentContextId := Some(newId))])
      ensures groupId.Some? && Minted(old(db.contexts)) && db.up && messageType !in MESSAGE_TYPE_NAMES && r.snapshot.Some? ==>
        var newId := Sessions.CONTEXT_ID_PREFIX + token;
        r.snapshot.value.contextId == (if newId in old(db.contexts) then None else Some(newId)) &&
        (newId !in old(db.contexts) ==>
          db.users == old(db.users)[userId := Sessions.Creator(old(db.users), userId, now).(currentContextId := Some(newId))])
      ensures r.success ==>
        OnlyAt(old(db.contexts), db.contexts, r.snapshot.value.contextId) &&
        KeepsOthers(old(contexts.storage.cache.entries), contexts.storage.cache.entries, r.snapshot.value.contextId) &&
        (r.snapshot.value.contextId.Some? ==> r.snapshot.value.contextId.value in db.contexts)
      ensures OthersKept(old(db.users), db.users, userId)
      ensures db.BansUnchanged() && db.RolesUnchanged()
    {
      var context := GetOrCreateContext(userId, userName, groupId, token, now);
      ghost var contexts1, cache1 := db.contexts, contexts.storage.cache.entries;
      var contextId := if context.Some? then Some(context.value.contextId) else None;
      r := Exchange(contextId, userId, userName, content, groupId, messageType, messageId, userMessageId, replyMessageId,
                    now, cfg, runtimeError);
      if r.success {
        OnlyAtTwice(old(db.contexts), contexts1, db.contexts, contextId);
        KeepsOthersTwice(old(contexts.storage.cache.entries), cache1, contexts.storage.cache.entries, contextId);
      }
    }

    /** The part of `route_message` after the context is found: the user
        message is recorded in it, the graph runs, and the reply is recorded. */
    method Exchange(contextId: Option<string>, userId: string, userName: string, content: string, groupId: Option<string>,
                    messageType: string, messageId: string, userMessageId: string, replyMessageId: string, now: int,
                    cfg: Graph.GraphConfig, runtimeError: Option<string>) returns (r: ProcessingResult)
      requires Wired() && Valid()
      requires contextId.Some? ==> db.up && contexts.storage.View(contextId.value).Some?
      modifies db, contexts.storage.cache
      ensures Valid()
      ensures r.success <==> contextId.None? || messageType !in MESSAGE_TYPE_NAMES
      ensures !r.success ==>
        r == ProcessingResult(false, ROUTING_APOLOGY, Some(InvalidMessageType(messageType)), None) &&
        db.messageRows == old(db.messageRows) && db.contexts == old(db.contexts) &&
        contexts.storage.cache.entries == old(contexts.storage.cache.entries)
      ensures r.success ==> (r.error.None? && r.snapshot.Some? &&
        var s := r.snapshot.value;
        s.contextId == contextId &&
        s == Graph.Process(cfg, Prepared(messageId, userId, userName, content, groupId, messageType, contextId, now), runtimeError) &&
        r.response == s.response &&
        (contextId.None? ==> db.messageRows == old(db.messageRows)) &&
        (contextId.Some? ==>
          contextId.value in db.contexts &&
          db.messageRows == old(db.messageRows) +
            [(contextId.value, Sessions.NewMessage(userMessageId, userId, userName, content, TextMessage, UserRole, false, now))] +
            (if r.response == "" then []
             else [(contextId.value, Sessions.NewMessage(replyMessageId, ROBOT_ID, ROBOT_NAME, r.response, TextMessage, UserRole, false, now))])) &&
        OnlyAt(old(db.contexts), db.contexts, contextId) &&
        KeepsOthers(old(contexts.storage.cache.entries), contexts.storage.cache.entries, contextId))
      ensures db.users == old(db.users) && db.BansUnchanged() && db.RolesUnchanged()
    {
      if contextId.Some? {
        var kind := StoredMessageType(messageType);
        if kind.Raised? {
          return ProcessingResult(false, ROUTING_APOLOGY, Some(kind.error), None);
        }
        Post(contextId.value, userMessageId, userId, userName, content, kind.value, now);
      }
      ghost var contexts1, cache1 := db.contexts, contexts.storage.cache.entries;
      var state := Prepared(messageId, userId, userName, content, groupId, messageType, contextId, now);
      var final := Answer(state, cfg, runtimeError, replyMessageId, now);
      OnlyAtTwice(old(db.contexts), contexts1, db.contexts, contextId);
      KeepsOthersTwice(old(contexts.storage.cache.entries), cache1, contexts.storage.cache.entries, contextId);
      r := ProcessingResult(true, final.response, None, Some(final));
    }

    /** The graph runs on the prepared state; a non-empty response is stored
        in the state's context as the robot's message. */
    method Answer(state: RobotState, cfg: Graph.GraphConfig, runtimeError: Option<string>, replyMessageId: string, now: int)
      returns (final: RobotState)
      requires Wired() && Valid()
      requires state.contextId.Some? ==> db.up && contexts.storage.View(state.contextId.value).Some?
      modifies db, contexts.storage.cache
      ensures Valid()
      ensures final == Graph.Process(cfg, state, runtimeError) && final.contextId == state.contextId
      ensures db.messageRows == old(db.messageRows) +
        (if state.contextId.None? || final.response == "" then []
         else [(state.contextId.value, Sessions.NewMessage(replyMessageId, ROBOT_ID, ROBOT_NAME, final.response, TextMessage, UserRole, false, now))])
      ensures OnlyAt(old(db.contexts), db.contexts, state.contextId)
      ensures KeepsOthers(old(contexts.storage.cache.entries), contexts.storage.cache.entries, state.contextId)
      ensures db.users == old(db.users)
      ensures db.BansUnchanged() && db.RolesUnchanged()
    {
      final := Graph.Process(cfg, state, runtimeError);
      if state.contextId.Some? && final.response != "" {
        Post(state.contextId.value, replyMessageId, ROBOT_ID, ROBOT_NAME, final.response, TextMessage, now);
      }
    }

    /** `add_message` on a context the hybrid storage can read while the
        database is up: the message is stored, and cannot fail. */
    method Post(id: string, messageId: string, senderId: string, senderName: string, text: string,
                 kind: MessageType, now: int)
      requires Wired() && Valid() && db.up && contexts.storage.View(id).Some?
      modifies db, contexts.storage.cache
      ensures Valid() && contexts.storage.View(id).Some?
      ensures db.messageRows == old(db.messageRows) + [(id, Sessions.NewMessage(messageId, senderId, senderName, text, kind, UserRole, false, now))]
      ensures id in db.contexts && OnlyAt(old(db.contexts), db.contexts, Some(id))
      ensures KeepsOthers(old(contexts.storage.cache.entries), contexts.storage.cache.entries, Some(id))
      ensures db.UsersUnchanged() && db.QuotasUnchanged() && db.BansUnchanged() && db.RolesUnchanged()
    {
      ViewKeyed(id);
      var added := contexts.AddMessage(id, messageId, senderId, senderName, text, kind, UserRole, false, now);
    }

    /** Neither the users, the contexts, the stored messages nor the cache changed. */
    twostate predicate Untouched()
      reads db, contexts.storage.cache
    {
      db.users == old(db.users) && db.contexts == old(db.contexts) && db.messageRows == old(db.messageRows) &&
      contexts.storage.cache.entries == old(contexts.storage.cache.entries)
    }

    /** `handle_context_intent`: CREATE opens a private context named after
        the user; JOIN is not implemented; LEAVE and END act on the state's
        context, and answer that there is none when the id is missing or
        empty; any other intent is an unknown operation.  Errors of the
        context manager propagate. */
    method HandleContextIntent(s: RobotState, token: string, now: int) returns (r: Outcome<string>)
      requires Wired() && Valid()
      modifies db, contexts.storage.cache
      ensures Valid()
      ensures s.intent == ContextCreate ==>
        var c := Sessions.NewContext(PrivateContext, s.userId, TALK_NAME_PREFIX + s.userName, None, None, map[], token, now);
        (r.Raised? <==> !db.up || c.contextId in old(db.contexts)) &&
        (r.Raised? ==>
          db.contexts == old(db.contexts) && contexts.storage.cache.entries == old(contexts.storage.cache.entries) &&
          db.users == (if db.up then old(db.users)[s.userId := Sessions.Creator(old(db.users), s.userId, now)] else old(db.users))) &&
        (r.Ok? ==>
          r.value == CREATED_PREFIX + c.contextId && db.contexts == old(db.contexts)[c.contextId := c] &&
          contexts.storage.cache.entries ==
            (if contexts.storage.cache.up then old(contexts.storage.cache.entries)[c.contextId := Load(c, old(db.messageRows))]
             else old(contexts.storage.cache.entries)) &&
          db.users == old(db.users)[s.userId := Sessions.Creator(old(db.users), s.userId, now).(currentContextId := Some(c.contextId))])
      ensures s.intent == ContextJoin ==> r == Ok(JOIN_PENDING) && Untouched()
      ensures (s.intent == ContextLeave || s.intent == ContextEnd) && (s.contextId.None? || s.contextId.value == "") ==>
        r == Ok(NOT_IN_CONTEXT) && Untouched()
      ensures s.intent == ContextLeave && s.contextId.Some? && s.contextId.value != "" ==>
        var id := s.contextId.value;
        var v := old(contexts.storage.View(id));
        (v.None? || s.userId !in v.value.participants ==>
          r == Ok(LEFT_NOTICE) && db.contexts == old(db.contexts) && db.users == old(db.users) &&
          contexts.storage.cache.entries == old(contexts.storage.Backfilled(id))) &&
        (v.Some? && s.userId in v.value.participants ==>
          (r.Raised? <==> !db.up) &&
          (r.Raised? ==> db.contexts == old(db.contexts) && db.users == old(db.users) &&
                         contexts.storage.cache.entries == old(contexts.storage.Backfilled(id))) &&
          (r.Ok? ==> r.value == LEFT_NOTICE && db.users == Sessions.Left(old(db.users), s.userId, id) &&
                     contexts.SavedState(Sessions.Departed(v.value, s.userId, now), now)))
      ensures s.intent == ContextEnd && s.contextId.Some? && s.contextId.value != "" ==>
        var id := s.contextId.value;
        var v := old(contexts.storage.View(id));
        (r.Raised? ==> !db.up) && (r.Ok? ==> r.value == ENDED_NOTICE) &&
        (!db.up ==> db.users == old(db.users) && db.contexts == old(db.contexts)) &&
        (db.up ==> (r.Ok? &&
          db.users == (if v.Some? then Sessions.Detached(old(db.users), v.value.participants, id) else old(db.users)) &&
          db.contexts == Sessions.SoftDeleted(old(db.contexts), id, now) &&
          contexts.storage.cache.entries ==
            (if contexts.storage.cache.up then old(contexts.storage.cache.entries) - {id} else old(contexts.storage.cache.entries))))
      ensures !Graph.IsContextIntent(s.intent) ==> r == Ok(UNKNOWN_OPERATION) && Untouched()
      ensures db.messageRows == old(db.messageRows) && db.QuotasUnchanged() && db.BansUnchanged() && db.RolesUnchanged()
    {
      match s.intent {
        case ContextCreate =>
          var created := contexts.CreateContext(PrivateContext, s.userId, TALK_NAME_PREFIX + s.userName, None, None, map[],
                                                token, now);
          r := match created
            case Raised(e) => Raised(e)
            case Ok(c) => Ok(CREATED_PREFIX + c.contextId);
        case ContextJoin =>
          r := Ok(JOIN_PENDING);
        case ContextLeave =>
          if s.contextId.None? || s.contextId.value == "" {
            return Ok(NOT_IN_CONTEXT);
          }
          ViewKeyed(s.contextId.value);
          var left := contexts.RemoveParticipant(s.contextId.value, s.userId, now);
          r := match left
            case Raised(e) => Raised(e)
            case Ok(_) => Ok(LEFT_NOTICE);
        case ContextEnd =>
          if s.contextId.None? || s.contextId.value == "" {
            return Ok(NOT_IN_CONTEXT);
          }
          ViewKeyed(s.contextId.value);
          var ended := contexts.DeleteContext(s.contextId.value, now);
          r := match ended
            case Raised(e) => Raised(e)
            case Ok(_) => Ok(ENDED_NOTICE);
        case _ =>
          r := Ok(UNKNOWN_OPERATION);
      }
    }
  }
}
