/** What one admin request undoes of another, and exactly who holds a role after any of them. */
module AdminUndo {
  import opened Wrappers
  import opened Models
  import opened DirectoryInvariant
  import opened Authz
  import opened Admin

  // ------------------------------------------------------------- undoing

  /** The second request is accepted after the first, and puts the store back as it was. */
  ghost predicate Undoes(s: Store, op: Operator, first: Call, second: Call) {
    var (s', r) := Execute(s, op, first);
    r.Ok? && Execute(s', op, second).1.Ok? && Execute(s', op, second).0 == s
  }

  lemma DroppingAFreshGroup(d: Directory, g: Id, row: Group)
    requires Valid(d) && g !in d.groups
    ensures WithoutGroup(d.(groups := d.groups[g := row]), g) == d
  {
    assert d.groups[g := row] - {g} == d.groups;
    assert (set m | m in d.members && m.group != g) == d.members;
    assert (set gr | gr in d.groupRoles && gr.group != g) == d.groupRoles;
  }

  /** A group just created is nobody's admin group, so it can be deleted, and nothing of it stays. */
  lemma DeletingUndoesCreatingAGroup(s: Store, op: Operator, g: Id, name: string, description: string)
    requires Valid(s.dir) && Execute(s, op, CallCreateGroup(g, name, description)).1.Ok?
    ensures Undoes(s, op, CallCreateGroup(g, name, description), CallDeleteGroup(g))
  {
    hide DetailedGroup, Seed.GroupNameTaken, WithoutGroup, AppsOk, UsersOk, GroupsOk, RolesOk, PermissionsOk, MembersOk, GroupRolesOk,
      RolePermissionsOk, DomainsOk;
    assert ConsoleOk(op.tenant, s.dir.tenants[op.tenant], s.dir.apps, s.dir.groups);
    DroppingAFreshGroup(s.dir, g, Group(op.tenant, name, description));
  }

  lemma DroppingAFreshRole(d: Directory, r: Id, row: Role)
    requires Valid(d) && r !in d.roles
    ensures WithoutRole(d.(roles := d.roles[r := row]), r) == d
  {
    assert d.roles[r := row] - {r} == d.roles;
    assert (set rp | rp in d.rolePermissions && rp.role != r) == d.rolePermissions;
    assert (set gr | gr in d.groupRoles && gr.role != r) == d.groupRoles;
  }

  lemma DeletingUndoesCreatingARole(s: Store, op: Operator, r: Id, app: Id, name: string, description: string)
    requires Valid(s.dir) && Execute(s, op, CallCreateRole(r, app, name, description)).1.Ok?
    ensures Undoes(s, op, CallCreateRole(r, app, name, description), CallDeleteRole(r))
  {
    hide DetailedRole, Seed.RoleNameTaken, WithoutRole, Valid;
    DroppingAFreshRole(s.dir, r, Role(op.tenant, app, name, description));
  }

  lemma LinksReplaced(d: Directory, r: Id, first: set<Id>, second: set<Id>)
    ensures WithRolePermissions(WithRolePermissions(d, r, first), r, second) == WithRolePermissions(d, r, second)
  {
    var mid := WithRolePermissions(d, r, first).rolePermissions;
    assert (set rp | rp in mid && rp.role != r) == (set rp | rp in d.rolePermissions && rp.role != r);
  }

  /** A PUT leaves no trace of an earlier one: the last accepted set is all there is. */
  lemma LastSetWins(s: Store, op: Operator, r: Id, first: set<Id>, second: set<Id>)
    requires Execute(s, op, CallSetPermissions(r, first)).1.Ok?
    ensures Execute(Execute(s, op, CallSetPermissions(r, first)).0, op, CallSetPermissions(r, second)).1.Ok?
      <==> Execute(s, op, CallSetPermissions(r, second)).1.Ok?
    ensures Execute(s, op, CallSetPermissions(r, second)).1.Ok? ==>
      Execute(Execute(s, op, CallSetPermissions(r, first)).0, op, CallSetPermissions(r, second)) == Execute(s, op, CallSetPermissions(r, second))
  {
    hide DetailedRole;
    LinksReplaced(s.dir, r, first, second);
  }

  // ------------------------------------------------------------- who holds a role after a request

  predicate OnApp(d: Directory, role: Id, app: Id) { role in d.roles && d.roles[role].app == app }

  /** The user is in some group other than `g` that holds the role. */
  ghost predicate HeldBesides(d: Directory, user: Id, role: Id, g: Id) {
    exists h :: h != g && Membership(h, user) in d.members && GroupRole(h, role) in d.groupRoles
  }

  function AdminGroupOf(d: Directory, t: Id): Option<Id> {
    if t in d.tenants then d.tenants[t].adminGroup else None
  }

  /** The four requests that give someone a role, and to whom. */
  ghost predicate Gives(d: Directory, t: Id, c: Call, user: Id, role: Id) {
    match c
    case CallAddMember(g, u) => u == user && GroupRole(g, role) in d.groupRoles
    case CallAddGroupRole(g, r) => r == role && Membership(g, user) in d.members
    case CallCreateUser(u, _, _, isAdmin) => u == user && isAdmin && AdminsHold(d, t, role)
    case CallPatchUser(u, p) => u == user && p.isAdmin == Some(true) && AdminsHold(d, t, role)
    case _ => false
  }

  ghost predicate AdminsHold(d: Directory, t: Id, role: Id) {
    AdminGroupOf(d, t).Some? && GroupRole(AdminGroupOf(d, t).value, role) in d.groupRoles
  }

  /** The five that take one away, unless another group still gives it. */
  ghost predicate Takes(d: Directory, t: Id, c: Call, user: Id, role: Id) {
    match c
    case CallRemoveMember(g, u) => u == user && !HeldBesides(d, user, role, g)
    case CallRemoveGroupRole(g, r) => r == role && !HeldBesides(d, user, role, g)
    case CallDeleteGroup(g) => !HeldBesides(d, user, role, g)
    case CallDeleteRole(r) => r == role
    case CallPatchUser(u, p) =>
      u == user && p.isAdmin == Some(false) && AdminGroupOf(d, t).Some? && !HeldBesides(d, user, role, AdminGroupOf(d, t).value)
    case _ => false
  }

  ghost predicate HoldsAfter(s: Store, op: Operator, c: Call, user: Id, role: Id, app: Id) {
    var (s', r) := Execute(s, op, c);
    role in RolesOf(s'.dir, user, app) <==>
      || (role in RolesOf(s.dir, user, app) && !(r.Ok? && Takes(s.dir, op.tenant, c, user, role)))
      || (r.Ok? && OnApp(s.dir, role, app) && Gives(s.dir, op.tenant, c, user, role))
  }

  lemma NewUserHolds(s: Store, op: Operator, c: Call, user: Id, role: Id, app: Id)
    requires Valid(s.dir) && c.CallCreateUser?
    ensures HoldsAfter(s, op, c, user, role, app)
  {
    hide PublicUser, NormaliseEmail, Seed.EmailTaken, AppsOk, UsersOk, GroupsOk, RolesOk, PermissionsOk, RolePermissionsOk, DomainsOk;
    if op.tenant in s.dir.tenants {
      assert ConsoleOk(op.tenant, s.dir.tenants[op.tenant], s.dir.apps, s.dir.groups);
    }
  }

  lemma PatchedUserHolds(s: Store, op: Operator, c: Call, user: Id, role: Id, app: Id)
    requires Valid(s.dir) && c.CallPatchUser?
    ensures HoldsAfter(s, op, c, user, role, app)
  {
    hide PublicUser, PatchedUser, AppsOk, UsersOk, GroupsOk, RolesOk, PermissionsOk, RolePermissionsOk, DomainsOk;
    if op.tenant in s.dir.tenants {
      assert ConsoleOk(op.tenant, s.dir.tenants[op.tenant], s.dir.apps, s.dir.groups);
    }
  }

  lemma MemberCallsHold(s: Store, op: Operator, c: Call, user: Id, role: Id, app: Id)
    requires c.CallAddMember? || c.CallRemoveMember? || c.CallAddGroupRole? || c.CallRemoveGroupRole?
    ensures HoldsAfter(s, op, c, user, role, app)
  {
    hide DetailedGroup;
  }

  lemma DeletionsHold(s: Store, op: Operator, c: Call, user: Id, role: Id, app: Id)
    requires c.CallDeleteGroup? || c.CallDeleteRole?
    ensures HoldsAfter(s, op, c, user, role, app)
  {
  }

  lemma NewRoleIsHeldByNobody(s: Store, op: Operator, c: Call, user: Id, role: Id, app: Id)
    requires Valid(s.dir) && c.CallCreateRole?
    ensures HoldsAfter(s, op, c, user, role, app)
  {
    hide DetailedRole, Seed.RoleNameTaken, AppsOk, UsersOk, GroupsOk, RolesOk, PermissionsOk, MembersOk, RolePermissionsOk, DomainsOk, ConsolesOk;
  }

  lemma PatchedRoleIsHeld(s: Store, op: Operator, c: Call, user: Id, role: Id, app: Id)
    requires c.CallPatchRole?
    ensures HoldsAfter(s, op, c, user, role, app)
  {
    hide DetailedRole, OtherRoleNamed;
  }

  lemma OtherCallsHold(s: Store, op: Operator, c: Call, user: Id, role: Id, app: Id)
    requires !c.CallCreateUser? && !c.CallPatchUser? && !c.CallAddMember? && !c.CallRemoveMember? && !c.CallAddGroupRole? && !c.CallRemoveGroupRole?
    requires !c.CallDeleteGroup? && !c.CallDeleteRole? && !c.CallCreateRole? && !c.CallPatchRole?
    ensures HoldsAfter(s, op, c, user, role, app)
  {
  }

  /**
   Whatever the request and whoever the user: a role is held afterwards exactly if it
   was held and not among those the request takes, or is one the request gives. So
   only joining, assigning and the flag give roles, each to the people it names, and
   a role someone also has through another group outlives every removal but its own.
   */
  lemma WhoHoldsIsExact(s: Store, op: Operator, c: Call, user: Id, role: Id, app: Id)
    requires Valid(s.dir)
    ensures HoldsAfter(s, op, c, user, role, app)
  {
    hide HoldsAfter, Valid;
    if c.CallCreateUser? {
      NewUserHolds(s, op, c, user, role, app);
    } else if c.CallPatchUser? {
      PatchedUserHolds(s, op, c, user, role, app);
    } else if c.CallAddMember? || c.CallRemoveMember? || c.CallAddGroupRole? || c.CallRemoveGroupRole? {
      MemberCallsHold(s, op, c, user, role, app);
    } else if c.CallDeleteGroup? || c.CallDeleteRole? {
      DeletionsHold(s, op, c, user, role, app);
    } else if c.CallCreateRole? {
      NewRoleIsHeldByNobody(s, op, c, user, role, app);
    } else if c.CallPatchRole? {
      PatchedRoleIsHeld(s, op, c, user, role, app);
    } else {
      OtherCallsHold(s, op, c, user, role, app);
    }
  }
}
