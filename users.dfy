// The user manager (src/managers/user.py): every operation loads the user
// row, assigns one field and writes the row back through the repository,
// which stamps the activity time.  Database failures propagate as `Raised`.

module Users {
  import opened Common
  import opened Models
  import opened Sorting
  import opened Store

  /** The single-field assignments the manager performs on a loaded user. */
  datatype UserEdit =
    | SetNickname(nickname: string)
    | SetBanned(banned: bool)
    | SetActive(active: bool)
    | SetContext(contextId: Option<string>)
    | MergeMetadata(extra: Dict)
    | ReplaceMetadata(metadata: Dict)
    | Touch

  /** `dict.update`: keys of `extra` take their new value, all other keys keep theirs. */
  function Merge(base: Dict, extra: Dict): (r: Dict)
    ensures r.Keys == base.Keys + extra.Keys
    ensures forall k :: k in extra ==> r[k] == extra[k]
    ensures forall k :: k in base && k !in extra ==> r[k] == base[k]
  {
    base + extra
  }

  function ApplyEdit(u: User, e: UserEdit): (r: User)
    ensures r.userId == u.userId && r.createdAt == u.createdAt && r.lastActive == u.lastActive
  {
    match e
    case SetNickname(n) => u.(nickname := n)
    case SetBanned(b) => u.(isBanned := b)
    case SetActive(a) => u.(isActive := a)
    case SetContext(c) => u.(currentContextId := c)
    case MergeMetadata(m) => u.(metadata := Merge(u.metadata, m))
    case ReplaceMetadata(m) => u.(metadata := m)
    case Touch => u
  }

  /** The user `create_user` builds: the id stands in for an empty nickname,
      and a new user is active and not banned. */
  function NewUser(userId: string, nickname: string, metadata: Dict, now: int): (u: User)
    ensures u.userId == userId && (userId != "" ==> u.nickname != "")
    ensures u.nickname == nickname || (nickname == "" && u.nickname == userId)
    ensures u.isActive && !u.isBanned && u.currentContextId.None?
  {
    User(userId, if nickname == "" then userId else nickname, true, false, None, metadata, now, now)
  }

  function LastActiveDesc(u: User): int { -u.lastActive }

  predicate Eligible(u: User) { u.isActive && !u.isBanned }

  function EligibleUsers(all: seq<User>): (r: seq<User>)
    ensures forall u :: u in r <==> u in all && Eligible(u)
  {
    if all == [] then []
    else
      assert all == all[..|all| - 1] + [all[|all| - 1]];
      EligibleUsers(all[..|all| - 1]) + (if Eligible(all[|all| - 1]) then [all[|all| - 1]] else [])
  }

  /** The body of `get_active_users` over the listed rows. */
  function ActiveUsers(all: seq<User>, limit: int): seq<User>
  {
    SliceTo(SortBy(EligibleUsers(all), LastActiveDesc), limit)
  }

  /** Only active, unbanned users are listed, most recently active first, at
      most `limit` of them, and none is dropped while the limit allows. */
  lemma ActiveUsersCorrect(all: seq<User>, limit: int)
    ensures var r := ActiveUsers(all, limit);
      (forall u :: u in r ==> u in all && Eligible(u)) &&
      (forall i, j :: 0 <= i < j < |r| ==> r[i].lastActive >= r[j].lastActive) &&
      (limit >= 0 ==> |r| <= limit) &&
      (limit >= |EligibleUsers(all)| ==> forall u :: u in all && Eligible(u) ==> u in r)
  {
    var e := EligibleUsers(all);
    SortByCorrect(e, LastActiveDesc);
    var sorted := SortBy(e, LastActiveDesc);
    var r := ActiveUsers(all, limit);
    assert |sorted| == |e| by {
      assert |multiset(sorted)| == |multiset(e)|;
    }
    forall u | u in r ensures u in all && Eligible(u) {
      assert u in sorted;
      assert u in multiset(sorted);
    }
    forall i, j | 0 <= i < j < |r| ensures r[i].lastActive >= r[j].lastActive {
      assert r[i] == sorted[i] && r[j] == sorted[j];
      assert LastActiveDesc(sorted[i]) <= LastActiveDesc(sorted[j]);
    }
    if limit >= |e| {
      assert r == sorted;
      forall u | u in all && Eligible(u) ensures u in r {
        assert u in multiset(e);
      }
    }
  }

  class UserManager {
    const db: Database

    constructor (db: Database)
      ensures this.db == db
    {
      this.db := db;
    }

    /** `update_user`: the user, stamped active now, is written back. */
    method UpdateUser(u: User, now: int) returns (r: Outcome<User>)
      requires db.Valid()
      modifies db
      ensures db.Valid()
      ensures r.Raised? <==> !db.up
      ensures r.Ok? ==> r.value == u.(lastActive := now)
      ensures r.Ok? && u.userId in old(db.users) ==>
        db.users == old(db.users)[u.userId := u.(lastActive := now, createdAt := old(db.users)[u.userId].createdAt)]
      ensures r.Raised? || u.userId !in old(db.users) ==> db.users == old(db.users)
      ensures db.userOrder == old(db.userOrder)
      ensures db.ContextsUnchanged() && db.QuotasUnchanged() && db.BansUnchanged() && db.RolesUnchanged()
    {
      r := db.UpdateUser(u.(lastActive := now));
    }

    /** Load, edit and write back: the shape of every flag setter.  An
        unknown user gives false and nothing changes. */
    method Rewrite(userId: string, e: UserEdit, now: int) returns (r: Outcome<bool>)
      requires db.Valid()
      modifies db
      ensures db.Valid()
      ensures r.Raised? <==> !db.up
      ensures r.Ok? ==> (r.value <==> userId in old(db.users))
      ensures r.Ok? && r.value ==>
        db.users == old(db.users)[userId := ApplyEdit(old(db.users)[userId], e).(lastActive := now)]
      ensures r.Raised? || userId !in old(db.users) ==> db.users == old(db.users)
      ensures db.userOrder == old(db.userOrder)
      ensures db.ContextsUnchanged() && db.QuotasUnchanged() && db.BansUnchanged() && db.RolesUnchanged()
    {
      var got := db.GetUser(userId);
      if got.Raised? {
        return Raised(got.error);
      }
      if got.value.None? {
        return Ok(false);
      }
      var u := ApplyEdit(got.value.value, e);
      var written := UpdateUser(u, now);
      r := match written
        case Ok(_) => Ok(true)
        case Raised(err) => Raised(err);
    }

    /** `create_user`. */
    method CreateUser(userId: string, nickname: string, metadata: Dict, now: int) returns (r: Outcome<User>)
      requires db.Valid()
      modifies db
      ensures db.Valid()
      ensures r.Ok? <==> db.up && userId !in old(db.users)
      ensures r.Ok? ==> r.value == NewUser(userId, nickname, metadata, now) &&
                        db.users == old(db.users)[userId := r.value]
      ensures r.Raised? ==> db.users == old(db.users)
      ensures db.ContextsUnchanged() && db.QuotasUnchanged() && db.BansUnchanged() && db.RolesUnchanged()
    {
      r := db.CreateUser(NewUser(userId, nickname, metadata, now));
    }

    /** `get_or_create_user`: an unknown user is created; a known one gets
        the nickname only when a non-empty, different one is supplied.  The
        user returned is the one stored. */
    method GetOrCreateUser(userId: string, nickname: string, now: int) returns (r: Outcome<User>)
      requires db.Valid()
      modifies db
      ensures db.Valid()
      ensures r.Raised? <==> !db.up
      ensures r.Ok? ==> userId in db.users && db.users[userId] == r.value && r.value.userId == userId
      ensures r.Ok? && userId !in old(db.users) ==> r.value == NewUser(userId, nickname, map[], now)
      ensures r.Ok? && userId in old(db.users) ==>
        var before := old(db.users)[userId];
        if nickname != "" && nickname != before.nickname
        then r.value == before.(nickname := nickname, lastActive := now)
        else r.value == before && db.users == old(db.users)
      ensures r.Ok? ==> forall id :: id != userId ==> (id in db.users <==> id in old(db.users))
      ensures r.Ok? ==> forall id :: id != userId && id in db.users ==> db.users[id] == old(db.users)[id]
      ensures r.Raised? ==> db.users == old(db.users)
      ensures db.ContextsUnchanged() && db.QuotasUnchanged() && db.BansUnchanged() && db.RolesUnchanged()
    {
      var got := db.GetUser(userId);
      if got.Raised? {
        return Raised(got.error);
      }
      if got.value.None? {
        r := CreateUser(userId, nickname, map[], now);
        return;
      }
      var u := got.value.value;
      if nickname != "" && nickname != u.nickname {
        r := UpdateUser(u.(nickname := nickname), now);
      } else {
        r := Ok(u);
      }
    }

    /** `update_nickname`. */
    method UpdateNickname(userId: string, nickname: string, now: int) returns (r: Outcome<bool>)
      requires db.Valid()
      modifies db
      ensures db.Valid()
      ensures r.Raised? <==> !db.up
      ensures r.Ok? ==> (r.value <==> userId in old(db.users))
      ensures r.Ok? && r.value ==>
        db.users == old(db.users)[userId := old(db.users)[userId].(nickname := nickname, lastActive := now)]
      ensures r.Raised? || userId !in old(db.users) ==> db.users == old(db.users)
      ensures db.ContextsUnchanged() && db.QuotasUnchanged() && db.BansUnchanged() && db.RolesUnchanged()
    {
      r := Rewrite(userId, SetNickname(nickname), now);
    }

    /** `ban_user`, `unban_user`: set exactly the banned flag. */
    method SetBannedFlag(userId: string, banned: bool, now: int) returns (r: Outcome<bool>)
      requires db.Valid()
      modifies db
      ensures db.Valid()
      ensures r.Raised? <==> !db.up
      ensures r.Ok? ==> (r.value <==> userId in old(db.users))
      ensures r.Ok? && r.value ==>
        db.users == old(db.users)[userId := old(db.users)[userId].(isBanned := banned, lastActive := now)]
      ensures r.Raised? || userId !in old(db.users) ==> db.users == old(db.users)
      ensures db.ContextsUnchanged() && db.QuotasUnchanged() && db.BansUnchanged() && db.RolesUnchanged()
    {
      r := Rewrite(userId, SetBanned(banned), now);
    }

    /** `activate_user`, `deactivate_user`: set exactly the active flag. */
    method SetActiveFlag(userId: string, active: bool, now: int) returns (r: Outcome<bool>)
      requires db.Valid()
      modifies db
      ensures db.Valid()
      ensures r.Raised? <==> !db.up
      ensures r.Ok? ==> (r.value <==> userId in old(db.users))
      ensures r.Ok? && r.value ==>
        db.users == old(db.users)[userId := old(db.users)[userId].(isActive := active, lastActive := now)]
      ensures r.Raised? || userId !in old(db.users) ==> db.users == old(db.users)
      ensures db.ContextsUnchanged() && db.QuotasUnchanged() && db.BansUnchanged() && db.RolesUnchanged()
    {
      r := Rewrite(userId, SetActive(active), now);
    }

    /** `set_user_context` (`Some`) and `clear_user_context` (`None`). */
    method SetUserContext(userId: string, contextId: Option<string>, now: int) returns (r: Outcome<bool>)
      requires db.Valid()
      modifies db
      ensures db.Valid()
      ensures r.Raised? <==> !db.up
      ensures r.Ok? ==> (r.value <==> userId in old(db.users))
      ensures r.Ok? && r.value ==>
        db.users == old(db.users)[userId := old(db.users)[userId].(currentContextId := contextId, lastActive := now)]
      ensures r.Raised? || userId !in old(db.users) ==> db.users == old(db.users)
      ensures db.ContextsUnchanged() && db.QuotasUnchanged() && db.BansUnchanged() && db.RolesUnchanged()
    {
      r := Rewrite(userId, SetContext(contextId), now);
    }

    /** `update_last_active`. */
    method UpdateLastActive(userId: string, now: int) returns (r: Outcome<bool>)
      requires db.Valid()
      modifies db
      ensures db.Valid()
      ensures r.Raised? <==> !db.up
      ensures r.Ok? ==> (r.value <==> userId in old(db.users))
      ensures r.Ok? && r.value ==> db.users == old(db.users)[userId := old(db.users)[userId].(lastActive := now)]
      ensures r.Raised? || userId !in old(db.users) ==> db.users == old(db.users)
      ensures db.ContextsUnchanged() && db.QuotasUnchanged() && db.BansUnchanged() && db.RolesUnchanged()
    {
      r := Rewrite(userId, Touch, now);
    }

    /** `update_user_metadata`: merged into (`merge`) or replacing the stored metadata. */
    method UpdateUserMetadata(userId: string, metadata: Dict, merge: bool, now: int) returns (r: Outcome<bool>)
      requires db.Valid()
      modifies db
      ensures db.Valid()
      ensures r.Raised? <==> !db.up
      ensures r.Ok? ==> (r.value <==> userId in old(db.users))
      ensures r.Ok? && r.value ==>
        var before := old(db.users)[userId];
        db.users == old(db.users)[userId := before.(metadata := if merge then Merge(before.metadata, metadata) else metadata,
                                                     lastActive := now)]
      ensures r.Raised? || userId !in old(db.users) ==> db.users == old(db.users)
      ensures db.ContextsUnchanged() && db.QuotasUnchanged() && db.BansUnchanged() && db.RolesUnchanged()
    {
      r := Rewrite(userId, if merge then MergeMetadata(metadata) else ReplaceMetadata(metadata), now);
    }

    /** `is_user_active`: false for an unknown user. */
    function IsUserActive(userId: string): (r: Outcome<bool>)
      reads db
      ensures r.Raised? <==> !db.up
      ensures r.Ok? ==> (r.value <==> userId in db.users && db.users[userId].isActive)
    {
      match db.GetUser(userId)
      case Raised(err) => Raised(err)
      case Ok(found) => Ok(found.Some? && found.value.isActive)
    }

    /** `is_user_banned`: false for an unknown user. */
    function IsUserBanned(userId: string): (r: Outcome<bool>)
      reads db
      ensures r.Raised? <==> !db.up
      ensures r.Ok? ==> (r.value <==> userId in db.users && db.users[userId].isBanned)
    {
      match db.GetUser(userId)
      case Raised(err) => Raised(err)
      case Ok(found) => Ok(found.Some? && found.value.isBanned)
    }

    /** `get_user_metadata`: empty for an unknown user. */
    function GetUserMetadata(userId: string): (r: Outcome<Dict>)
      reads db
      ensures r.Raised? <==> !db.up
      ensures r.Ok? ==> r.value == if userId in db.users then db.users[userId].metadata else map[]
    {
      match db.GetUser(userId)
      case Raised(err) => Raised(err)
      case Ok(found) => Ok(if found.Some? then found.value.metadata else map[])
    }

    /** `get_active_users` over the first rows `list_all` returns. */
    function GetActiveUsers(limit: int): (r: Outcome<seq<User>>)
      requires db.Valid()
      reads db
      ensures r.Raised? <==> !db.up
      ensures r.Ok? ==> forall u :: u in r.value ==> u.userId in db.users && db.users[u.userId] == u && Eligible(u)
      ensures r.Ok? ==> forall i, j :: 0 <= i < j < |r.value| ==> r.value[i].lastActive >= r.value[j].lastActive
      ensures r.Ok? && limit >= 0 ==> |r.value| <= limit
    {
      match db.ListAllUsers()
      case Raised(err) => Raised(err)
      case Ok(all) =>
        ActiveUsersCorrect(all, limit);
        assert forall u :: u in all ==> u.userId in db.users && db.users[u.userId] == u by {
          forall u | u in all ensures u.userId in db.users && db.users[u.userId] == u {
            var i :| 0 <= i < |all| && all[i] == u;
            assert db.userOrder[i] in db.userOrder;
          }
        }
        Ok(ActiveUsers(all, limit))
    }
  }
}
