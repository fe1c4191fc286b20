/**
 User lifecycle operations and the last-administrator invariant, one operation at a time:
 the stored users and audit log, and what the two operations do to them.
 */
module UserAdmin {
  import opened Wrappers

  datatype Role = Admin | Analyst | Viewer

  datatype User = User(active: bool, superuser: bool, role: Role)

  type Users = map<nat, User>

  predicate EffectiveAdmin(u: User) {
    u.active && (u.superuser || u.role == Admin)
  }

  function AdminIds(users: Users): set<nat> {
    set id | id in users && EffectiveAdmin(users[id])
  }

  /** `ToggleActive` is the enable/disable operation; an invalid role name is `None`. */
  datatype Request =
    | ToggleActive(target: nat, actor: Option<nat>)
    | SetRole(target: nat, role: Option<Role>, actor: Option<nat>)

  datatype Refusal = TargetNotFound | OwnActiveAccount | LastAdministrator

  datatype AuditEntry =
    | StatusChanged(actor: Option<nat>, target: nat, before: bool, after: bool)
    | RoleChanged(actor: Option<nat>, target: nat, was: Role, now: Role)

  /** The source's assertion: the change keeps the target an administrator or leaves another one. */
  predicate LeavesAnAdmin(users: Users, target: nat, willBeActive: bool, willBeAdminRole: bool, superuser: bool) {
    var admins := AdminIds(users);
    target in admins && !(willBeActive && (superuser || willBeAdminRole)) ==> |admins - {target}| >= 1
  }

  /** The new row of the target, or why there is none. */
  function Decide(users: Users, r: Request): Result<User, Refusal> {
    if r.target !in users then Err(TargetNotFound)
    else
      var u := users[r.target];
      match r
      case ToggleActive(target, actor) =>
        if actor == Some(target) && u.active then Err(OwnActiveAccount)
        else if u.active && !LeavesAnAdmin(users, target, false, u.role == Admin, u.superuser)
          then Err(LastAdministrator)
        else Ok(u.(active := !u.active))
      case SetRole(target, role, _) =>
        if role == None || role.value == u.role then Ok(u)
        else if !LeavesAnAdmin(users, target, u.active, role.value == Admin, u.superuser) then Err(LastAdministrator)
        else Ok(u.(role := role.value))
  }

  function Apply(users: Users, r: Request): Users {
    match Decide(users, r)
    case Ok(u) => users[r.target := u]
    case Err(_) => users
  }

  function Audit(users: Users, r: Request): seq<AuditEntry> {
    match Decide(users, r)
    case Err(_) => []
    case Ok(u) =>
      if r.target !in users then []
      else if r.ToggleActive? then [StatusChanged(r.actor, r.target, users[r.target].active, u.active)]
      else if u.role == users[r.target].role then []
      else [RoleChanged(r.actor, r.target, users[r.target].role, u.role)]
  }

  // ---------------------------------------------------------------------------
  // The invariant, one operation at a time
  // ---------------------------------------------------------------------------

  /** The row an accepted request would write, check or no check. */
  function Wanted(users: Users, r: Request): User
    requires r.target in users
  {
    var u := users[r.target];
    match r
    case ToggleActive(_, _) => u.(active := !u.active)
    case SetRole(_, role, _) => u.(role := role.GetOr(u.role))
  }

  lemma AdminsAfter(users: Users, target: nat, u: User)
    requires target in users
    ensures AdminIds(users[target := u]) == AdminIds(users) - {target} + if EffectiveAdmin(u) then {target} else {}
  {
  }

  /** A request is refused as the last administrator's exactly when carrying it out would take away the last one. */
  lemma RefusedIffLastAdmin(users: Users, r: Request)
    requires r.target in users && !(r.ToggleActive? && r.actor == Some(r.target) && users[r.target].active)
    ensures Decide(users, r) == Err(LastAdministrator)
      <==> AdminIds(users) != {} && AdminIds(users[r.target := Wanted(users, r)]) == {}
    ensures Decide(users, r) != Err(LastAdministrator) ==> Decide(users, r) == Ok(Wanted(users, r))
  {
    var admins := AdminIds(users);
    AdminsAfter(users, r.target, Wanted(users, r));
    if admins - {r.target} != {} {
      var w :| w in admins - {r.target};
      assert |admins - {r.target}| >= 1;
    }
  }

  /** Operations run one at a time never lose the last administrator. */
  lemma ApplyKeepsAdmin(users: Users, r: Request)
    requires AdminIds(users) != {}
    ensures AdminIds(Apply(users, r)) != {}
  {
    if r.target in users && Decide(users, r).Ok? {
      RefusedIffLastAdmin(users, r);
    }
  }

  // ---------------------------------------------------------------------------
  // Own accounts
  // ---------------------------------------------------------------------------

  /** A request to disable one's own active account. */
  predicate DisablesItself(users: Users, r: Request) {
    r.ToggleActive? && r.actor == Some(r.target) && r.target in users && users[r.target].active
  }

  /** Such a request, and no other, is refused for that, and leaves users and audit log alone. */
  lemma OwnAccountRefusedIff(users: Users, r: Request)
    ensures Decide(users, r) == Err(OwnActiveAccount) <==> DisablesItself(users, r)
    ensures DisablesItself(users, r) ==> Apply(users, r) == users && Audit(users, r) == []
  {
  }

  /** The rows a request leaves: all but its target's, and that one too unless carried out as asked. */
  lemma OnlyTargetChanges(users: Users, r: Request)
    ensures Apply(users, r).Keys == users.Keys
    ensures forall id :: id in users && id != r.target ==> Apply(users, r)[id] == users[id]
    ensures r.target in users ==> Apply(users, r)[r.target] in {users[r.target], Wanted(users, r)}
  {
  }

  /** Who is active before a request and not after it was disabled by somebody else. */
  lemma DisabledByAnother(users: Users, r: Request, id: nat)
    requires id in users && users[id].active
    ensures id in Apply(users, r)
    ensures !Apply(users, r)[id].active ==> r.ToggleActive? && r.target == id && r.actor != Some(id)
  {
    OwnAccountRefusedIff(users, r);
  }

  function ApplyAll(users: Users, rs: seq<Request>): Users {
    if rs == [] then users else Apply(ApplyAll(users, rs[..|rs| - 1]), rs[|rs| - 1])
  }

  function AuditAll(users: Users, rs: seq<Request>): seq<AuditEntry> {
    if rs == [] then []
    else AuditAll(users, rs[..|rs| - 1]) + Audit(ApplyAll(users, rs[..|rs| - 1]), rs[|rs| - 1])
  }

  lemma {:induction false} SerialRunKeepsAdmin(users: Users, rs: seq<Request>)
    requires AdminIds(users) != {}
    ensures AdminIds(ApplyAll(users, rs)) != {}
  {
    if rs != [] {
      SerialRunKeepsAdmin(users, rs[..|rs| - 1]);
      ApplyKeepsAdmin(ApplyAll(users, rs[..|rs| - 1]), rs[|rs| - 1]);
    }
  }

  /** A log entry names who asked, whom it concerns, and what changed into what; without a change there is none. */
  lemma AuditTells(users: Users, r: Request)
    ensures Audit(users, r) == [] <==> Apply(users, r) == users
    ensures Audit(users, r) != [] ==>
      && |Audit(users, r)| == 1 && r.target in users
      && match Audit(users, r)[0]
         case StatusChanged(actor, target, before, after) =>
           && r.ToggleActive? && (actor, target) == (r.actor, r.target)
           && before == users[target].active && after == Apply(users, r)[target].active
         case RoleChanged(actor, target, was, now) =>
           && r.SetRole? && (actor, target) == (r.actor, r.target)
           && was == users[target].role && now == Apply(users, r)[target].role
  {
    if r.target in users {
      assert users[r.target := users[r.target]] == users;
    }
  }

  /** A request among the first `k` that toggles `id`, made by somebody else. */
  ghost predicate ToggledByAnother(rs: seq<Request>, k: nat, id: nat) {
    exists i :: 0 <= i < k && i < |rs| && rs[i].ToggleActive? && rs[i].target == id && rs[i].actor != Some(id)
  }

  /** In every serial run an account active at first and disabled at the end was toggled by somebody else. */
  lemma {:induction false} NobodyDisablesHimself(users: Users, rs: seq<Request>, id: nat)
    requires id in users && users[id].active
    ensures id in ApplyAll(users, rs)
    ensures !ApplyAll(users, rs)[id].active ==> ToggledByAnother(rs, |rs|, id)
  {
    if rs != [] {
      var init, last := rs[..|rs| - 1], rs[|rs| - 1];
      NobodyDisablesHimself(users, init, id);
      OnlyTargetChanges(ApplyAll(users, init), last);
      if ApplyAll(users, init)[id].active {
        DisabledByAnother(ApplyAll(users, init), last, id);
        assert rs[|rs| - 1] == last;
      } else {
        var i :| 0 <= i < |init| && init[i].ToggleActive? && init[i].target == id && init[i].actor != Some(id);
        assert rs[i] == init[i];
      }
    }
  }

  // ---------------------------------------------------------------------------
  // The audit log tells the whole story
  // ---------------------------------------------------------------------------

  function Redo(users: Users, e: AuditEntry): Users {
    if e.target !in users then users
    else match e
      case StatusChanged(_, target, _, after) => users[target := users[target].(active := after)]
      case RoleChanged(_, target, _, now) => users[target := users[target].(role := now)]
  }

  function Replay(users: Users, log: seq<AuditEntry>): Users {
    if log == [] then users else Redo(Replay(users, log[..|log| - 1]), log[|log| - 1])
  }

  lemma {:induction false} ReplayAppend(users: Users, log: seq<AuditEntry>, more: seq<AuditEntry>)
    ensures Replay(users, log + more) == Replay(Replay(users, log), more)
  {
    if more == [] {
      assert log + more == log;
    } else {
      assert (log + more)[..|log + more| - 1] == log + more[..|more| - 1];
      ReplayAppend(users, log, more[..|more| - 1]);
    }
  }

  lemma AuditRedoes(users: Users, r: Request)
    ensures Replay(users, Audit(users, r)) == Apply(users, r)
  {
    var log := Audit(users, r);
    if log != [] {
      assert log[..|log| - 1] == [];
    }
  }

  /** Replaying the audit log on the initial table gives the current table. */
  lemma {:induction false} AuditReplaysToPresent(users: Users, rs: seq<Request>)
    ensures Replay(users, AuditAll(users, rs)) == ApplyAll(users, rs)
  {
    if rs != [] {
      var init, last := rs[..|rs| - 1], rs[|rs| - 1];
      AuditReplaysToPresent(users, init);
      ReplayAppend(users, AuditAll(users, init), Audit(ApplyAll(users, init), last));
      AuditRedoes(ApplyAll(users, init), last);
    }
  }

  class UserStore {
    var users: Users
    var audit: seq<AuditEntry>

    constructor (users: Users)
      ensures this.users == users && audit == []
    {
      this.users, audit := users, [];
    }

    method DisableUserSafely(target: nat, actor: Option<nat>) returns (r: Result<bool, Refusal>)
      modifies this
      ensures users == Apply(old(users), ToggleActive(target, actor))
      ensures audit == old(audit) + Audit(old(users), ToggleActive(target, actor))
      ensures match Decide(old(users), ToggleActive(target, actor))
              case Ok(u) => r == Ok(u.active)
              case Err(e) => r == Err(e)
      ensures target in old(users) && old(users)[target].active && actor == Some(target) ==>
        r == Err(OwnActiveAccount) && users == old(users) && audit == old(audit)
    {
      if target !in users {
        return Err(TargetNotFound);
      }
      var u := users[target];
      if actor == Some(target) && u.active {
        return Err(OwnActiveAccount);
      }
      var oldStatus := u.active;
      var newStatus := !oldStatus;
      if !newStatus {
        if !LeavesAnAdmin(users, target, false, u.role == Admin, u.superuser) {
          return Err(LastAdministrator);
        }
      }
      users := users[target := u.(active := newStatus)];
      audit := audit + [StatusChanged(actor, target, oldStatus, newStatus)];
      return Ok(newStatus);
    }

    method UpdateUserRoleSafely(target: nat, role: Option<Role>, actor: Option<nat>) returns (r: Result<(), Refusal>)
      modifies this
      ensures users == Apply(old(users), SetRole(target, role, actor))
      ensures audit == old(audit) + Audit(old(users), SetRole(target, role, actor))
      ensures match Decide(old(users), SetRole(target, role, actor))
              case Ok(_) => r == Ok(())
              case Err(e) => r == Err(e)
    {
      if target !in users {
        return Err(TargetNotFound);
      }
      var u := users[target];
      var oldRole := u.role;
      if role.Some? && role.value != oldRole {
        if !LeavesAnAdmin(users, target, u.active, role.value == Admin, u.superuser) {
          return Err(LastAdministrator);
        }
        u := u.(role := role.value);
        audit := audit + [RoleChanged(actor, target, oldRole, role.value)];
      }
      users := users[target := u];
      return Ok(());
    }
  }
}
