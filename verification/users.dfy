/**
 * User administration: role changes under the Admin/Manager policy,
 * suspension, and the inspector profile that follows the Inspector role.
 * Users and profiles are keyed by user id; errors are HTTP status codes.
 */
module UserAdmin {
  import opened Wrappers
  import opened Text

  datatype UserRec = UserRec(role: string, isActive: bool, fullName: Option<string>, email: Option<string>)

  /** The scheduling profile backing an Inspector user. */
  datatype Profile = Profile(name: string, active: bool)

  /** The roles a role update may ask for. */
  const Roles: set<string> := {"Citizen", "Inspector", "Manager", "Admin"}

  /** The roles a Manager may move users between. */
  const ManagerRoles: set<string> := {"Citizen", "Inspector"}

  /** The ids of the active Admins. */
  function AdminIds(users: map<string, UserRec>): set<string> {
    set id | id in users && users[id].role == "Admin" && users[id].isActive
  }

  /** `_count_admins`: the number of active Admins. */
  function ActiveAdmins(users: map<string, UserRec>): nat {
    |AdminIds(users)|
  }

  predicate Present(s: Option<string>) {
    s.Some? && s.value != ""
  }

  /** The profile name: the full name, else the email, else "Inspector " and the first eight characters of the id. */
  function DisplayName(id: string, u: UserRec): (n: string)
    ensures Present(u.fullName) ==> n == u.fullName.value
    ensures !Present(u.fullName) && Present(u.email) ==> n == u.email.value
    ensures !Present(u.fullName) && !Present(u.email) ==> n == "Inspector " + Prefix(id, 8)
  {
    if Present(u.fullName) then u.fullName.value
    else if Present(u.email) then u.email.value
    else "Inspector " + Prefix(id, 8)
  }

  /** `ensure_inspector_profile`: activate (creating if need be) and rename, or deactivate an existing profile. */
  function ProfileAfter(profiles: map<string, Profile>, id: string, u: UserRec, active: bool): map<string, Profile> {
    if active then profiles[id := Profile(DisplayName(id, u), true)]
    else if id in profiles then profiles[id := profiles[id].(active := false)]
    else profiles
  }

  /** The role policy, after the target was found: no self-change, Admins may not demote the last active Admin, Managers only move between Citizen and Inspector, anyone else is refused. */
  function RoleDecision(actorId: string, actorRole: string, targetId: string, targetRole: string, newRole: string, admins: nat): Result<(), int> {
    if actorId == targetId then Err(403)
    else if actorRole == "Admin" then
      (if targetRole == "Admin" && newRole != "Admin" && admins <= 1 then Err(400) else Ok(()))
    else if actorRole == "Manager" then
      (if targetRole in ManagerRoles && newRole in ManagerRoles then Ok(()) else Err(403))
    else Err(403)
  }

  /** `update_role` on the users and profiles: 404 for a missing target, then the policy, then the role and profile updates. */
  function RoleUpdate(users: map<string, UserRec>, profiles: map<string, Profile>, actorId: string, actorRole: string,
                      targetId: string, newRole: string): Result<(map<string, UserRec>, map<string, Profile>), int> {
    if targetId !in users then Err(404)
    else
      var old_ := users[targetId];
      match RoleDecision(actorId, actorRole, targetId, old_.role, newRole, ActiveAdmins(users))
      case Err(e) => Err(e)
      case Ok(_) =>
        var u := old_.(role := newRole);
        var profiles' :=
          if newRole == "Inspector" then ProfileAfter(profiles, targetId, u, true)
          else if old_.role == "Inspector" then ProfileAfter(profiles, targetId, u, false)
          else profiles;
        Ok((users[targetId := u], profiles'))
  }

  /** `suspend_user`: 404 for a missing target, 400 when suspending an Admin while at most one Admin is active. */
  function Suspension(users: map<string, UserRec>, targetId: string, isActive: bool): Result<map<string, UserRec>, int> {
    if targetId !in users then Err(404)
    else if users[targetId].role == "Admin" && !isActive && ActiveAdmins(users) <= 1 then Err(400)
    else Ok(users[targetId := users[targetId].(isActive := isActive)])
  }

  class Directory {
    var users: map<string, UserRec>
    var profiles: map<string, Profile>

    constructor (users: map<string, UserRec>, profiles: map<string, Profile>)
      ensures this.users == users && this.profiles == profiles
    {
      this.users := users;
      this.profiles := profiles;
    }

    /** `update_role`, with the actor's id and role. */
    method UpdateRole(actorId: string, actorRole: string, targetId: string, newRole: string) returns (r: Result<UserRec, int>)
      requires newRole in Roles
      modifies this
      ensures match RoleUpdate(old(users), old(profiles), actorId, actorRole, targetId, newRole)
        case Err(e) => r == Err(e) && users == old(users) && profiles == old(profiles)
        case Ok(next) => users == next.0 && profiles == next.1 && r == Ok(users[targetId])
    {
      if targetId !in users {
        return Err(404);
      }
      var target := users[targetId];
      var oldRole := target.role;
      if actorId == targetId {
        return Err(403);
      }
      if actorRole == "Admin" {
        if target.role == "Admin" && newRole != "Admin" && ActiveAdmins(users) <= 1 {
          return Err(400);
        }
      } else if actorRole == "Manager" {
        if target.role !in ManagerRoles || newRole !in ManagerRoles {
          return Err(403);
        }
      } else {
        return Err(403);
      }
      target := target.(role := newRole);
      users := users[targetId := target];
      if newRole == "Inspector" {
        EnsureInspectorProfile(targetId, target, true);
      } else if oldRole == "Inspector" {
        EnsureInspectorProfile(targetId, target, false);
      }
      r := Ok(target);
    }

    method EnsureInspectorProfile(id: string, u: UserRec, active: bool)
      modifies this
      ensures profiles == ProfileAfter(old(profiles), id, u, active) && users == old(users)
    {
      if active {
        profiles := profiles[id := Profile(DisplayName(id, u), true)];
      } else if id in profiles {
        profiles := profiles[id := profiles[id].(active := false)];
      }
    }

    /** `suspend_user`. */
    method SuspendUser(targetId: string, isActive: bool) returns (r: Result<bool, int>)
      modifies this
      ensures match Suspension(old(users), targetId, isActive)
        case Err(e) => r == Err(e) && users == old(users)
        case Ok(next) => users == next && r == Ok(isActive)
      ensures profiles == old(profiles)
    {
      if targetId !in users {
        return Err(404);
      }
      if users[targetId].role == "Admin" && !isActive && ActiveAdmins(users) <= 1 {
        return Err(400);
      }
      users := users[targetId := users[targetId].(isActive := isActive)];
      r := Ok(isActive);
    }
  }

  /**
   * Nobody changes their own role; a Manager's change stays between
   * Citizen and Inspector; only Admins and Managers may change roles; an
   * Admin is refused exactly when demoting an Admin with at most one active.
   */
  lemma RoleDecisionMeaning(actorId: string, actorRole: string, targetId: string, targetRole: string, newRole: string, admins: nat)
    ensures var d := RoleDecision(actorId, actorRole, targetId, targetRole, newRole, admins);
      (actorId == targetId ==> d == Err(403)) &&
      (actorRole != "Admin" && actorRole != "Manager" ==> d == Err(403)) &&
      (d.Ok? && actorRole == "Manager" ==> targetRole in ManagerRoles && newRole in ManagerRoles) &&
      (actorId != targetId && actorRole == "Admin" ==>
        (d.Ok? <==> !(targetRole == "Admin" && newRole != "Admin" && admins <= 1)))
  {
  }

  /** A set that loses one member it held, with another left, is still non-empty. */
  lemma RemoveOne(s: set<string>, t: string, o: set<string>)
    requires t in s && |s| >= 2 && o == s - {t}
    ensures |o| >= 1
  {
  }

  /** A successful role update never leaves the system without an active Admin. */
  lemma RoleUpdateKeepsAdmin(users: map<string, UserRec>, profiles: map<string, Profile>, actorId: string, actorRole: string,
                             targetId: string, newRole: string)
    requires ActiveAdmins(users) >= 1
    requires RoleUpdate(users, profiles, actorId, actorRole, targetId, newRole).Ok?
    ensures ActiveAdmins(RoleUpdate(users, profiles, actorId, actorRole, targetId, newRole).value.0) >= 1
  {
    var users' := RoleUpdate(users, profiles, actorId, actorRole, targetId, newRole).value.0;
    var s := AdminIds(users);
    var s' := AdminIds(users');
    if targetId in s && newRole != "Admin" {
      assert s' == s - {targetId};
      RemoveOne(s, targetId, s');
    } else {
      assert s <= s';
      SubsetSize(s, s');
    }
  }

  lemma SubsetSize(a: set<string>, b: set<string>)
    requires a <= b
    ensures |a| <= |b|
  {
    assert b == a + (b - a);
  }

  /** A successful suspension never leaves the system without an active Admin. */
  lemma SuspensionKeepsAdmin(users: map<string, UserRec>, targetId: string, isActive: bool)
    requires ActiveAdmins(users) >= 1 && Suspension(users, targetId, isActive).Ok?
    ensures ActiveAdmins(Suspension(users, targetId, isActive).value) >= 1
  {
    var users' := Suspension(users, targetId, isActive).value;
    var s := AdminIds(users);
    var s' := AdminIds(users');
    if targetId in s && !isActive {
      assert s' == s - {targetId};
      RemoveOne(s, targetId, s');
    } else {
      assert s <= s';
      SubsetSize(s, s');
    }
  }

  /**
   * After a successful role update the target has the new role and
   * nobody else changes; becoming Inspector leaves an active profile
   * under the display name; leaving Inspector deactivates the profile if
   * there is one and creates none; other users' profiles stay as they were.
   */
  lemma RoleUpdateProfiles(users: map<string, UserRec>, profiles: map<string, Profile>, actorId: string, actorRole: string,
                           targetId: string, newRole: string)
    requires RoleUpdate(users, profiles, actorId, actorRole, targetId, newRole).Ok?
    ensures var (u', p') := RoleUpdate(users, profiles, actorId, actorRole, targetId, newRole).value;
      targetId in users && u'.Keys == users.Keys && u'[targetId] == users[targetId].(role := newRole) &&
      (forall id :: id in users && id != targetId ==> u'[id] == users[id]) &&
      (newRole == "Inspector" ==> targetId in p' && p'[targetId] == Profile(DisplayName(targetId, users[targetId]), true)) &&
      (newRole != "Inspector" && users[targetId].role == "Inspector" ==>
        (targetId in p' <==> targetId in profiles) && (targetId in p' ==> !p'[targetId].active && p'[targetId].name == profiles[targetId].name)) &&
      (newRole != "Inspector" && users[targetId].role != "Inspector" ==> p' == profiles) &&
      (forall id :: id != targetId ==> (id in p' <==> id in profiles) && (id in p' ==> p'[id] == profiles[id]))
  {
  }
}
