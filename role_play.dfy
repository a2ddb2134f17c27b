// The role-play module (src/modules/role_play.py): role lookup with fallback
// to the built-in roles, the role listing without duplicate ids, activation
// of a role for a conversation, and reply generation under the active role's
// system prompt.  Roles read from JSON files are a parameter of the
// constructor (`fileRoles`); the LLM's answer is a parameter (`reply`).

module RolePlay {
  import opened Common
  import opened Models
  import opened Store
  import opened Sessions
  import opened Llm
  import opened Chat

  /** The fields of a role besides its id, as the role dictionaries hold them. */
  datatype RoleData = RoleData(name: string, description: string, systemPrompt: string, isActive: bool)

  /** `DEFAULT_ROLES`, in its insertion order. */
  const DEFAULT_ROLES: seq<(string, RoleData)> := [
    ("assistant", RoleData("助手", "一个友好、专业的AI助手",
      "你是一个友好、专业的AI助手。\n\n你的特点：\n- 回答简洁明了，通常不超过200字\n" +
      "- 语气友善，专业可靠\n- 能够帮助用户解决各种问题\n\n请用中文回答。", true)),
    ("teacher", RoleData("老师", "一位耐心、专业的考研辅导老师",
      "你是一位耐心、专业的考研辅导老师。\n\n你的特点：\n- 深入了解考研408各科知识点\n" +
      "- 能够用通俗易懂的方式讲解复杂概念\n- 语气鼓励、耐心，给学生信心\n- 经常提醒学生注意学习方法\n\n请用中文回答。",
      true)),
    ("humorous", RoleData("幽默大师", "一个风趣幽默的AI，能让学习变得更有趣",
      "你是一个风趣幽默的AI助手。\n\n你的特点：\n- 回答轻松有趣，可以适当开玩笑\n- 喜欢用网络流行语和表情符号\n" +
      "- 在幽默中也能提供有价值的信息\n- 让学习变得不再枯燥\n\n请用中文回答。", true))
  ]

  /** The system prompt when no role is active. */
  const FALLBACK_PROMPT := "你是一个AI助手。"

  /** A dictionary's keys are distinct. */
  predicate UniqueIds(roles: seq<(string, RoleData)>)
  {
    forall i, j :: 0 <= i < j < |roles| ==> roles[i].0 != roles[j].0
  }

  /** No two configurations share a role id. */
  predicate DistinctRoleIds(roles: seq<RolePlayConfig>)
  {
    forall i, j :: 0 <= i < j < |roles| ==> roles[i].roleId != roles[j].roleId
  }

  /** `{r.role_id for r in roles}`. */
  function IdsOf(roles: seq<RolePlayConfig>): set<string>
  {
    set i | 0 <= i < |roles| :: roles[i].roleId
  }

  /** `RolePlayConfig(role_id=roleId, **data)`, created at `now`. */
  function Config(roleId: string, data: RoleData, now: int): RolePlayConfig
  {
    RolePlayConfig(roleId, data.name, data.description, data.systemPrompt, data.isActive, now)
  }

  /** `roleId in roles` and `roles[roleId]` for a role dictionary. */
  function Lookup(roles: seq<(string, RoleData)>, roleId: string): (r: Option<RoleData>)
    ensures r.None? <==> forall i :: 0 <= i < |roles| ==> roles[i].0 != roleId
    ensures r.Some? ==> exists i :: 0 <= i < |roles| && roles[i] == (roleId, r.value)
  {
    if roles == [] then None
    else if roles[0].0 == roleId then Some(roles[0].1)
    else
      var rest := Lookup(roles[1..], roleId);
      assert forall i :: 1 <= i < |roles| ==> roles[i] == roles[1..][i - 1];
      rest
  }

  /** The built-in roles `list_roles` appends: those whose id is not in
      `existing` and, under `activeOnly`, that are active, in dictionary order. */
  function MissingDefaults(defaults: seq<(string, RoleData)>, existing: set<string>, activeOnly: bool, now: int)
    : (r: seq<RolePlayConfig>)
    ensures forall x :: x in r ==> x.roleId !in existing && (!activeOnly || x.isActive)
    ensures forall x :: x in r ==> exists i :: 0 <= i < |defaults| && x == Config(defaults[i].0, defaults[i].1, now)
  {
    if defaults == [] then []
    else
      var (id, data) := defaults[|defaults| - 1];
      var role := Config(id, data, now);
      MissingDefaults(defaults[..|defaults| - 1], existing, activeOnly, now) +
      (if id !in existing && (!activeOnly || role.isActive) then [role] else [])
  }

  /** `list_roles`: the stored roles, then the built-in roles not already listed. */
  function Listing(stored: seq<RolePlayConfig>, defaults: seq<(string, RoleData)>, activeOnly: bool, now: int)
    : seq<RolePlayConfig>
  {
    stored + MissingDefaults(defaults, IdsOf(stored), activeOnly, now)
  }

  lemma {:induction false} MissingDefaultsDistinct(defaults: seq<(string, RoleData)>, existing: set<string>,
                                                   activeOnly: bool, now: int)
    requires UniqueIds(defaults)
    ensures DistinctRoleIds(MissingDefaults(defaults, existing, activeOnly, now))
  {
    if defaults != [] {
      var init := defaults[..|defaults| - 1];
      MissingDefaultsDistinct(init, existing, activeOnly, now);
      var before := MissingDefaults(init, existing, activeOnly, now);
      forall x | x in before
        ensures x.roleId != defaults[|defaults| - 1].0
      {
        var i :| 0 <= i < |init| && x == Config(init[i].0, init[i].1, now);
        assert init[i] == defaults[i];
      }
    }
  }

  /** The listing never repeats a role id, provided the stored roles do not. */
  lemma ListingDistinct(stored: seq<RolePlayConfig>, defaults: seq<(string, RoleData)>, activeOnly: bool, now: int)
    requires UniqueIds(defaults) && DistinctRoleIds(stored)
    ensures DistinctRoleIds(Listing(stored, defaults, activeOnly, now))
  {
    var added := MissingDefaults(defaults, IdsOf(stored), activeOnly, now);
    MissingDefaultsDistinct(defaults, IdsOf(stored), activeOnly, now);
    var all := stored + added;
    forall i, j | 0 <= i < j < |all|
      ensures all[i].roleId != all[j].roleId
    {
      if j >= |stored| && i < |stored| {
        assert all[j] in added;
        assert all[i].roleId in IdsOf(stored);
      }
    }
  }

  /** Which ids the listing adds: each built-in id not yet listed (an active
      one, under `activeOnly`). */
  lemma {:induction false} MissingDefaultsIds(defaults: seq<(string, RoleData)>, existing: set<string>,
                                              activeOnly: bool, now: int, id: string)
    requires id !in existing
    ensures id in IdsOf(MissingDefaults(defaults, existing, activeOnly, now)) <==>
            exists i :: 0 <= i < |defaults| && defaults[i].0 == id && (!activeOnly || defaults[i].1.isActive)
  {
    if defaults != [] {
      var init := defaults[..|defaults| - 1];
      var last := defaults[|defaults| - 1];
      MissingDefaultsIds(init, existing, activeOnly, now, id);
      var before := MissingDefaults(init, existing, activeOnly, now);
      var tail := if last.0 !in existing && (!activeOnly || last.1.isActive) then [Config(last.0, last.1, now)] else [];
      assert MissingDefaults(defaults, existing, activeOnly, now) == before + tail;
      IdsOfAppend(before, tail);
      var inInit := exists i :: 0 <= i < |init| && init[i].0 == id && (!activeOnly || init[i].1.isActive);
      var isLast := last.0 == id && (!activeOnly || last.1.isActive);
      if tail == [] {
        assert IdsOf(tail) == {};
      } else {
        assert IdsOf(tail) == {last.0} by {
          assert tail[0].roleId == last.0;
        }
      }
      assert id in IdsOf(tail) <==> isLast;
      if inInit {
        var i :| 0 <= i < |init| && init[i].0 == id && (!activeOnly || init[i].1.isActive);
        assert defaults[i] == init[i];
      }
      if exists i :: 0 <= i < |defaults| && defaults[i].0 == id && (!activeOnly || defaults[i].1.isActive) {
        var i :| 0 <= i < |defaults| && defaults[i].0 == id && (!activeOnly || defaults[i].1.isActive);
        if i < |init| {
          assert init[i] == defaults[i];
        }
      }
    }
  }

  lemma IdsOfAppend(a: seq<RolePlayConfig>, b: seq<RolePlayConfig>)
    ensures IdsOf(a + b) == IdsOf(a) + IdsOf(b)
  {
    var ab := a + b;
    forall id | id in IdsOf(ab)
      ensures id in IdsOf(a) + IdsOf(b)
    {
      var i :| 0 <= i < |ab| && ab[i].roleId == id;
      if i >= |a| {
        assert b[i - |a|] == ab[i];
      }
    }
    forall id | id in IdsOf(a) + IdsOf(b)
      ensures id in IdsOf(ab)
    {
      if id in IdsOf(a) {
        var i :| 0 <= i < |a| && a[i].roleId == id;
        assert ab[i] == a[i];
      } else {
        var i :| 0 <= i < |b| && b[i].roleId == id;
        assert ab[|a| + i] == b[i];
      }
    }
  }

  /** With no stored roles, the built-in roles are listed: all three ids appear. */
  lemma DefaultRolesListed(now: int)
    ensures var ids := IdsOf(Listing([], DEFAULT_ROLES, false, now));
      "assistant" in ids && "teacher" in ids && "humorous" in ids
  {
    assert IdsOf([]) == {};
    assert Listing([], DEFAULT_ROLES, false, now) == MissingDefaults(DEFAULT_ROLES, {}, false, now);
    MissingDefaultsIds(DEFAULT_ROLES, {}, false, now, "assistant");
    assert DEFAULT_ROLES[0].0 == "assistant";
    MissingDefaultsIds(DEFAULT_ROLES, {}, false, now, "teacher");
    assert DEFAULT_ROLES[1].0 == "teacher";
    MissingDefaultsIds(DEFAULT_ROLES, {}, false, now, "humorous");
    assert DEFAULT_ROLES[2].0 == "humorous";
  }

  lemma DefaultRolesUnique()
    ensures UniqueIds(DEFAULT_ROLES)
  {
  }

  /** The role id `generate_response` looks up: the context's current role, when set and non-empty. */
  function ActiveRoleId(context: Option<Context>): (r: Option<string>)
    ensures r.Some? ==> r.value != "" && context.Some? && context.value.currentRoleId == r
  {
    if context.Some? && context.value.currentRoleId.Some? && context.value.currentRoleId.value != ""
    then context.value.currentRoleId else None
  }

  /** The system prompt of `generate_response`: the role's, or the fallback. */
  function SystemPromptFor(role: Option<RolePlayConfig>): string
  {
    if role.Some? then role.value.systemPrompt else FALLBACK_PROMPT
  }

  class RolePlayModule {
    const contexts: ContextManager?
    /** The database behind `role_repo`; absent when the module has none. */
    const db: Database?
    /** The roles read from the role directory, or `DEFAULT_ROLES` when none were found. */
    const defaults: seq<(string, RoleData)>

    constructor (contexts: ContextManager?, db: Database?, fileRoles: seq<(string, RoleData)>)
      requires UniqueIds(fileRoles)
      ensures this.contexts == contexts && this.db == db
      ensures defaults == if fileRoles != [] then fileRoles else DEFAULT_ROLES
      ensures UniqueIds(defaults)
    {
      this.contexts := contexts;
      this.db := db;
      defaults := if fileRoles != [] then fileRoles else DEFAULT_ROLES;
    }

    ghost predicate Ready()
      reads if contexts != null then {contexts.db} else {}
    {
      UniqueIds(defaults) && (contexts != null ==> contexts.Wired() && contexts.db.Valid())
    }

    /** `get_role`: the stored role first, then the built-in one, else none.
        A repository error propagates. */
    function GetRole(roleId: string, now: int): (r: Outcome<Option<RolePlayConfig>>)
      reads if db != null then {db} else {}
      ensures r.Raised? <==> db != null && !db.up
      ensures r.Ok? && r.value.Some? ==> r.value.value.roleId == roleId
      ensures r.Ok? && db != null && FindRole(db.roles, roleId).Some? ==> r.value == FindRole(db.roles, roleId)
      ensures r.Ok? && (db == null || FindRole(db.roles, roleId).None?) ==>
        r.value == match Lookup(defaults, roleId) case None => None case Some(d) => Some(Config(roleId, d, now))
    {
      var stored := if db == null then Ok(None) else db.GetRole(roleId);
      match stored
      case Raised(e) => Raised(e)
      case Ok(found) =>
        if found.Some? then Ok(found)
        else match Lookup(defaults, roleId)
          case None => Ok(None)
          case Some(d) => Ok(Some(Config(roleId, d, now)))
    }

    /** The stored half of `list_roles`: `list_active()` when there is a repository. */
    function StoredRoles(): (r: Outcome<seq<RolePlayConfig>>)
      reads if db != null then {db} else {}
      ensures r.Raised? <==> db != null && !db.up
      ensures db == null ==> r == Ok([])
    {
      if db == null then Ok([]) else db.ListActiveRoles()
    }

    /** `list_roles`: the loop over the built-in roles against the ids already listed. */
    method ListRoles(activeOnly: bool, now: int) returns (r: Outcome<seq<RolePlayConfig>>)
      ensures r.Raised? <==> db != null && !db.up
      ensures r.Ok? ==> StoredRoles().Ok? && r.value == Listing(StoredRoles().value, defaults, activeOnly, now)
    {
      var stored := StoredRoles();
      if stored.Raised? {
        return Raised(stored.error);
      }
      var roles := stored.value;
      var existing := IdsOf(roles);
      for k := 0 to |defaults|
        invariant roles == stored.value + MissingDefaults(defaults[..k], existing, activeOnly, now)
      {
        assert defaults[..k + 1][..k] == defaults[..k];
        var (id, data) := defaults[k];
        if id !in existing {
          var role := Config(id, data, now);
          if !activeOnly || role.isActive {
            roles := roles + [role];
          }
        }
      }
      assert defaults[..|defaults|] == defaults;
      r := Ok(roles);
    }

    /** `activate_role`: a missing or inactive role, or no manager, gives
        false and changes nothing; otherwise the context gets the role as its
        current one and is saved, and the answer is true whatever the save did.
        `updated` is the caller's context object afterwards. */
    method ActivateRole(context: Context, roleId: string, now: int) returns (r: Outcome<bool>, updated: Context)
      requires Ready()
      modifies if contexts != null then {contexts.storage.cache, contexts.db} else {}
      ensures var role := old(GetRole(roleId, now));
        (r.Raised? <==> role.Raised?) &&
        (r == Ok(true) <==> role.Ok? && role.value.Some? && role.value.value.isActive && contexts != null)
      ensures r == Ok(true) ==> updated == context.(currentRoleId := Some(roleId), updatedAt := now)
      ensures r == Ok(true) ==> contexts != null && contexts.SavedState(updated, now)
      ensures r != Ok(true) ==> updated == context
      ensures r != Ok(true) && contexts != null ==>
        contexts.storage.cache.entries == old(contexts.storage.cache.entries) &&
        contexts.db.contexts == old(contexts.db.contexts)
    {
      updated := context;
      var role := GetRole(roleId, now);
      if role.Raised? {
        return Raised(role.error), context;
      }
      if role.value.None? || !role.value.value.isActive || contexts == null {
        return Ok(false), context;
      }
      var withRole := context.(currentRoleId := Some(roleId));
      var saved := contexts.UpdateContext(withRole, now);
      updated := withRole.(updatedAt := now);
      r := Ok(true);
    }

    /** `generate_response`: the prompt under the active role (`prompt`), then
        the stripped reply, saved like a chat exchange; the apology when the
        LLM call raises.  An error of the role lookup propagates before
        anything happens. */
    method GenerateResponse(userMessage: string, context: Option<Context>, userId: string, maxHistory: int,
                            reply: Outcome<string>, userMessageId: string, replyMessageId: string, now: int)
      returns (r: Outcome<string>, prompt: seq<ApiMessage>)
      requires Ready()
      modifies if contexts != null then {contexts.storage.cache, contexts.db} else {}
      ensures var roleId := ActiveRoleId(context);
        var role := if roleId.None? then Ok(None) else old(GetRole(roleId.value, now));
        (r.Raised? <==> role.Raised?) &&
        (r.Ok? ==> prompt == PromptList(SystemPromptFor(role.value),
                                        if context.None? || contexts == null then []
                                        else Shown(old(contexts.storage.View(context.value.contextId)), maxHistory),
                                        userMessage))
      ensures r.Ok? ==> r.value == if reply.Raised? then APOLOGY else Strip(reply.value)
      ensures contexts != null ==> contexts.db.Valid()
      ensures contexts != null ==>
        contexts.db.messageRows == old(contexts.db.messageRows) +
          if r.Ok? && reply.Ok? && context.Some? && contexts.db.up &&
             old(contexts.storage.View(context.value.contextId)).Some?
          then Exchange(context.value.contextId, userId, userMessage, r.value, userMessageId, replyMessageId, now)
          else []
    {
      prompt := [];
      var roleId := ActiveRoleId(context);
      var role: Option<RolePlayConfig> := None;
      if roleId.Some? {
        var found := GetRole(roleId.value, now);
        if found.Raised? {
          return Raised(found.error), prompt;
        }
        role := found.value;
      }
      var answer;
      answer, prompt := Converse(contexts, SystemPromptFor(role), userMessage, context, userId, maxHistory, reply,
                                 userMessageId, replyMessageId, now);
      r := Ok(answer);
    }
  }
}
