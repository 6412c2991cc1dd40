/**
 Tenants do not interfere through the admin API.

 `AgreeOn(t, a, b)` says two stores hold the same rows of tenant `t`. Used within
 one run it is write isolation; used across two runs it is noninterference: what
 an operator of `t` is told, and what they leave behind, depends on `t`'s rows only.
 */
module AdminIsolation {
  import opened Wrappers
  import opened Models
  import opened DirectoryInvariant
  import opened Admin
  import Seed

  ghost predicate AgreeUsers(t: Id, a: map<Id, User>, b: map<Id, User>) {
    forall u :: (u in a && a[u].tenant == t) || (u in b && b[u].tenant == t) ==> u in a && u in b && a[u] == b[u]
  }

  ghost predicate AgreeApps(t: Id, a: map<Id, Application>, b: map<Id, Application>) {
    forall x :: (x in a && a[x].tenant == t) || (x in b && b[x].tenant == t) ==> x in a && x in b && a[x] == b[x]
  }

  ghost predicate AgreeGroups(t: Id, a: map<Id, Group>, b: map<Id, Group>) {
    forall g :: (g in a && a[g].tenant == t) || (g in b && b[g].tenant == t) ==> g in a && g in b && a[g] == b[g]
  }

  ghost predicate AgreeRoles(t: Id, a: map<Id, Role>, b: map<Id, Role>) {
    forall r :: (r in a && a[r].tenant == t) || (r in b && b[r].tenant == t) ==> r in a && r in b && a[r] == b[r]
  }

  /** `mine` are the keys of the groups, roles, applications or users the tenant owns. */
  ghost predicate AgreeMembers(mine: set<Id>, a: set<Membership>, b: set<Membership>) {
    forall m: Membership {:trigger m in a} {:trigger m in b} :: m.group in mine ==> (m in a <==> m in b)
  }

  ghost predicate AgreeGroupRoles(mine: set<Id>, a: set<GroupRole>, b: set<GroupRole>) {
    forall gr: GroupRole {:trigger gr in a} {:trigger gr in b} :: gr.group in mine ==> (gr in a <==> gr in b)
  }

  ghost predicate AgreeLinks(mine: set<Id>, a: set<RolePermission>, b: set<RolePermission>) {
    forall rp: RolePermission {:trigger rp in a} {:trigger rp in b} :: rp.role in mine ==> (rp in a <==> rp in b)
  }

  ghost predicate AgreePermissions(mine: set<Id>, a: map<Id, Permission>, b: map<Id, Permission>) {
    forall p :: (p in a && a[p].app in mine) || (p in b && b[p].app in mine) ==> p in a && p in b && a[p] == b[p]
  }

  ghost predicate AgreeDomains(t: Id, a: map<string, Id>, b: map<string, Id>) {
    forall x :: (x in a && a[x] == t) <==> (x in b && b[x] == t)
  }

  ghost predicate AgreeTenants(t: Id, a: map<Id, Tenant>, b: map<Id, Tenant>) {
    (t in a <==> t in b) && (t in a ==> a[t] == b[t])
  }

  ghost predicate AgreeCredentials(mine: set<Id>, a: map<Id, Credential>, b: map<Id, Credential>) {
    forall c :: (c in a && a[c].user in mine) || (c in b && b[c].user in mine) ==> c in a && c in b && a[c] == b[c]
  }

  ghost predicate AgreeActivations(mine: set<Id>, a: map<string, ActivationCode>, b: map<string, ActivationCode>) {
    forall c :: (c in a && a[c].user in mine) || (c in b && b[c].user in mine) ==> c in a && c in b && a[c] == b[c]
  }

  ghost function UsersIn(users: map<Id, User>, t: Id): set<Id> { set u | u in users && users[u].tenant == t }
  ghost function AppsIn(apps: map<Id, Application>, t: Id): set<Id> { set a | a in apps && apps[a].tenant == t }
  ghost function GroupsIn(groups: map<Id, Group>, t: Id): set<Id> { set g | g in groups && groups[g].tenant == t }
  ghost function RolesIn(roles: map<Id, Role>, t: Id): set<Id> { set r | r in roles && roles[r].tenant == t }

  ghost predicate AgreeOn(t: Id, a: Store, b: Store) {
    && AgreeTenants(t, a.dir.tenants, b.dir.tenants)
    && AgreeDomains(t, a.dir.domains, b.dir.domains)
    && AgreeApps(t, a.dir.apps, b.dir.apps)
    && AgreeUsers(t, a.dir.users, b.dir.users)
    && AgreeGroups(t, a.dir.groups, b.dir.groups)
    && AgreeRoles(t, a.dir.roles, b.dir.roles)
    && AgreeMembers(GroupsIn(a.dir.groups, t), a.dir.members, b.dir.members)
    && AgreeGroupRoles(GroupsIn(a.dir.groups, t), a.dir.groupRoles, b.dir.groupRoles)
    && AgreeLinks(RolesIn(a.dir.roles, t), a.dir.rolePermissions, b.dir.rolePermissions)
    && AgreePermissions(AppsIn(a.dir.apps, t), a.dir.permissions, b.dir.permissions)
    && AgreeCredentials(UsersIn(a.dir.users, t), a.auth.credentials, b.auth.credentials)
    && AgreeActivations(UsersIn(a.dir.users, t), a.auth.activations, b.auth.activations)
  }

  lemma AgreeSets(t: Id, a: Store, b: Store)
    requires AgreeOn(t, a, b)
    ensures UsersIn(a.dir.users, t) == UsersIn(b.dir.users, t) && AppsIn(a.dir.apps, t) == AppsIn(b.dir.apps, t)
    ensures GroupsIn(a.dir.groups, t) == GroupsIn(b.dir.groups, t) && RolesIn(a.dir.roles, t) == RolesIn(b.dir.roles, t)
  {
  }

  lemma AgreeRefl(t: Id, a: Store)
    ensures AgreeOn(t, a, a)
  {
  }

  lemma AgreeTrans(t: Id, a: Store, b: Store, c: Store)
    requires AgreeOn(t, a, b) && AgreeOn(t, b, c)
    ensures AgreeOn(t, a, c)
  {
  }

  // ------------------------------------------------------------- what an operator can see

  lemma UserLooksTheSame(t: Id, a: Store, b: Store, u: Id)
    requires Valid(a.dir) && Valid(b.dir) && AgreeOn(t, a, b) && u in UsersIn(a.dir.users, t)
    ensures u in b.dir.users && PublicUser(a, u) == PublicUser(b, u)
  {
    hide AgreeGroupRoles, AgreeLinks, AgreePermissions, AgreeActivations, AgreeDomains, AgreeTenants, AgreeApps, AgreeRoles,
      AppsOk, UsersOk, GroupsOk, RolesOk, PermissionsOk, GroupRolesOk, RolePermissionsOk, DomainsOk, ConsolesOk;
    assert PasskeysOf(a.auth.credentials, u) == PasskeysOf(b.auth.credentials, u);
    forall m: Membership | m.user == u ensures m in a.dir.members <==> m in b.dir.members {
      if m in a.dir.members { assert m.group in GroupsIn(a.dir.groups, t); }
      if m in b.dir.members { assert m.group in GroupsIn(a.dir.groups, t); }
    }
    forall x ensures x in GroupRefs(a.dir, u) <==> x in GroupRefs(b.dir, u) {
      if m :| m in a.dir.members && m.user == u && m.group in a.dir.groups && x == GroupRef(m.group, a.dir.groups[m.group].name) {
        assert m in b.dir.members;
      }
      if m :| m in b.dir.members && m.user == u && m.group in b.dir.groups && x == GroupRef(m.group, b.dir.groups[m.group].name) {
        assert m in a.dir.members;
      }
    }
  }

  lemma GroupLooksTheSame(t: Id, a: Store, b: Store, g: Id)
    requires Valid(a.dir) && Valid(b.dir) && AgreeOn(t, a, b) && g in GroupsIn(a.dir.groups, t)
    ensures g in b.dir.groups && DetailedGroup(a.dir, g) == DetailedGroup(b.dir, g)
  {
    hide AgreeLinks, AgreePermissions, AgreeActivations, AgreeDomains, AgreeTenants, AgreeApps, AgreeCredentials,
      AppsOk, UsersOk, GroupsOk, RolesOk, PermissionsOk, RolePermissionsOk, DomainsOk, ConsolesOk;
    assert MembershipsOf(a.dir, g) == MembershipsOf(b.dir, g);
    assert MemberRefs(a.dir, g) == MemberRefs(b.dir, g) by {
      forall m | m in MembershipsOf(a.dir, g) ensures m.user in a.dir.users && m.user in b.dir.users && a.dir.users[m.user] == b.dir.users[m.user] {
      }
      forall x ensures x in MemberRefs(a.dir, g) <==> x in MemberRefs(b.dir, g) {
        if m :| m in a.dir.members && m.group == g && x == MemberRef(m.user, if m.user in a.dir.users then a.dir.users[m.user].email else m.user) {
          assert m in MembershipsOf(b.dir, g) && m in b.dir.members;
        }
        if m :| m in b.dir.members && m.group == g && x == MemberRef(m.user, if m.user in b.dir.users then b.dir.users[m.user].email else m.user) {
          assert m in MembershipsOf(a.dir, g) && m in a.dir.members;
        }
      }
    }
    assert RoleRefs(a.dir, g) == RoleRefs(b.dir, g) by {
      forall gr: GroupRole | gr.group == g ensures gr in a.dir.groupRoles <==> gr in b.dir.groupRoles {
      }
      forall gr | gr in a.dir.groupRoles && gr.group == g ensures gr.role in a.dir.roles && gr.role in b.dir.roles && a.dir.roles[gr.role] == b.dir.roles[gr.role] {
      }
    }
  }

  lemma RoleLooksTheSame(t: Id, a: Store, b: Store, r: Id)
    requires Valid(a.dir) && Valid(b.dir) && AgreeOn(t, a, b) && r in RolesIn(a.dir.roles, t)
    ensures r in b.dir.roles && DetailedRole(a.dir, r) == DetailedRole(b.dir, r)
  {
    hide AgreeMembers, AgreeGroupRoles, AgreeActivations, AgreeDomains, AgreeTenants, AgreeUsers, AgreeGroups, AgreeCredentials,
      AppsOk, UsersOk, GroupsOk, PermissionsOk, MembersOk, GroupRolesOk, DomainsOk, ConsolesOk;
    assert LinksOf(a.dir, r) == LinksOf(b.dir, r);
    assert PermissionsOf(a.dir, r) == PermissionsOf(b.dir, r) by {
      forall rp | rp in LinksOf(a.dir, r)
        ensures rp.permission in a.dir.permissions && rp.permission in b.dir.permissions
        ensures a.dir.permissions[rp.permission] == b.dir.permissions[rp.permission]
      {
        assert a.dir.permissions[rp.permission].app in AppsIn(a.dir.apps, t);
      }
      forall rp: RolePermission | rp.role == r ensures rp in a.dir.rolePermissions <==> rp in b.dir.rolePermissions {
      }
    }
  }

  lemma TenantLooksTheSame(t: Id, a: Store, b: Store)
    requires AgreeOn(t, a, b)
    ensures t in a.dir.tenants ==> t in b.dir.tenants && PublicTenant(a.dir, t) == PublicTenant(b.dir, t)
    ensures t in b.dir.tenants ==> t in a.dir.tenants
  {
  }

  // ------------------------------------------------------------- write isolation

  lemma UserPutApart(t: Id, s: Store, u: Id, row: User, members: set<Membership>)
    requires row.tenant != t && (u in s.dir.users ==> s.dir.users[u].tenant != t)
    requires AgreeMembers(GroupsIn(s.dir.groups, t), s.dir.members, members)
    ensures AgreeOn(t, s, s.(dir := s.dir.(users := s.dir.users[u := row], members := members)))
  {
  }

  lemma SyncApart(t: Id, d: Directory, home: Id, u: Id, isAdmin: bool)
    requires home in d.tenants && ConsoleOk(home, d.tenants[home], d.apps, d.groups) && t != home
    ensures AgreeMembers(GroupsIn(d.groups, t), d.members, SyncAdminFlag(d, d.tenants[home], u, isAdmin))
  {
  }

  lemma UsersApart(t: Id, s: Store, op: Operator, c: Call)
    requires Valid(s.dir) && t != op.tenant && (c.CallCreateUser? || c.CallPatchUser?)
    ensures AgreeOn(t, s, Execute(s, op, c).0)
  {
    hide AgreeOn, AgreeMembers, PublicUser, NormaliseEmail, ConsoleOk, SyncAdminFlag, GroupsIn, Seed.EmailTaken;
    AgreeRefl(t, s);
    var s' := Execute(s, op, c).0;
    if c.CallCreateUser? && Execute(s, op, c).1.Ok? {
      assert ConsoleOk(op.tenant, s.dir.tenants[op.tenant], s.dir.apps, s.dir.groups);
      SyncApart(t, s.dir.(users := s'.dir.users), op.tenant, c.user, c.isAdmin);
      UserPutApart(t, s, c.user, s'.dir.users[c.user], s'.dir.members);
    } else if c.CallPatchUser? && Execute(s, op, c).1.Ok? {
      if c.userPatch.isAdmin.Some? {
        assert ConsoleOk(op.tenant, s.dir.tenants[op.tenant], s.dir.apps, s.dir.groups);
        SyncApart(t, s.dir.(users := s'.dir.users), op.tenant, c.user, c.userPatch.isAdmin.value);
      } else {
        AgreeOnMembers(t, s);
      }
      UserPutApart(t, s, c.user, s'.dir.users[c.user], s'.dir.members);
    }
  }

  lemma AgreeOnMembers(t: Id, s: Store)
    ensures AgreeMembers(GroupsIn(s.dir.groups, t), s.dir.members, s.dir.members)
  {
  }

  lemma CodesApart(t: Id, s: Store, op: Operator, u: Id, hash: string, now: Time, ttl: int)
    requires t != op.tenant
    ensures AgreeOn(t, s, IssueActivationCode(s, op, u, hash, now, ttl).0)
  {
    hide AgreeGroupRoles, AgreeLinks, AgreePermissions, AgreeDomains, AgreeTenants, AgreeApps, AgreeRoles, AgreeGroups,
      AgreeUsers, AgreeMembers, AgreeCredentials;
    AgreeRefl(t, s);
  }

  lemma AppsApart(t: Id, s: Store, op: Operator, c: Call)
    requires t != op.tenant && (c.CallCreateApp? || c.CallPatchApp?)
    ensures AgreeOn(t, s, Execute(s, op, c).0)
  {
    hide AgreeGroupRoles, AgreeLinks, AgreePermissions, AgreeDomains, AgreeTenants, AgreeRoles, AgreeGroups,
      AgreeUsers, AgreeMembers, AgreeCredentials, AgreeActivations, Seed.ClientIdTaken;
    AgreeRefl(t, s);
    assert AppsIn(Execute(s, op, c).0.dir.apps, t) == AppsIn(s.dir.apps, t);
  }

  lemma GroupsApart(t: Id, s: Store, op: Operator, c: Call)
    requires t != op.tenant && (c.CallCreateGroup? || c.CallPatchGroup?)
    ensures AgreeOn(t, s, Execute(s, op, c).0)
  {
    hide AgreeGroupRoles, AgreeLinks, AgreePermissions, AgreeDomains, AgreeTenants, AgreeRoles, AgreeApps,
      AgreeUsers, AgreeMembers, AgreeCredentials, AgreeActivations, DetailedGroup, Seed.GroupNameTaken, OtherGroupNamed;
    AgreeRefl(t, s);
    assert GroupsIn(Execute(s, op, c).0.dir.groups, t) == GroupsIn(s.dir.groups, t);
  }

  lemma LinksApart(t: Id, s: Store, op: Operator, c: Call)
    requires t != op.tenant && (c.CallAddMember? || c.CallRemoveMember? || c.CallAddGroupRole? || c.CallRemoveGroupRole?)
    ensures AgreeOn(t, s, Execute(s, op, c).0)
  {
    hide AgreeLinks, AgreePermissions, AgreeDomains, AgreeTenants, AgreeRoles, AgreeApps, AgreeGroups,
      AgreeUsers, AgreeCredentials, AgreeActivations, DetailedGroup;
    AgreeRefl(t, s);
  }

  lemma DeleteGroupApart(t: Id, s: Store, g: Id)
    requires g in s.dir.groups && s.dir.groups[g].tenant != t
    ensures AgreeOn(t, s, s.(dir := WithoutGroup(s.dir, g)))
  {
  }

  lemma PutRoleApart(t: Id, s: Store, r: Id, row: Role)
    requires row.tenant != t && (r in s.dir.roles ==> s.dir.roles[r].tenant != t)
    ensures AgreeOn(t, s, s.(dir := s.dir.(roles := s.dir.roles[r := row])))
  {
  }

  lemma RolesApart(t: Id, s: Store, op: Operator, c: Call)
    requires t != op.tenant && (c.CallCreateRole? || c.CallPatchRole?)
    ensures AgreeOn(t, s, Execute(s, op, c).0)
  {
    hide AgreeOn, DetailedRole, Seed.RoleNameTaken, OtherRoleNamed;
    AgreeRefl(t, s);
    if Execute(s, op, c).1.Ok? {
      PutRoleApart(t, s, c.role, Execute(s, op, c).0.dir.roles[c.role]);
    }
  }

  lemma DeleteRoleApart(t: Id, s: Store, r: Id)
    requires Valid(s.dir) && r in s.dir.roles && s.dir.roles[r].tenant != t
    ensures AgreeOn(t, s, s.(dir := WithoutRole(s.dir, r)))
  {
    hide AgreeMembers, AgreePermissions, AgreeDomains, AgreeTenants, AgreeGroups, AgreeApps, AgreeUsers, AgreeCredentials, AgreeActivations,
      AppsOk, UsersOk, GroupsOk, RolesOk, PermissionsOk, MembersOk, RolePermissionsOk, DomainsOk, ConsolesOk;
    AgreeRefl(t, s);
  }

  lemma PermissionsApart(t: Id, s: Store, op: Operator, c: Call)
    requires t != op.tenant && (c.CallSetPermissions? || c.CallCreatePermission?)
    ensures AgreeOn(t, s, Execute(s, op, c).0)
  {
    hide AgreeGroupRoles, AgreeDomains, AgreeTenants, AgreeGroups, AgreeRoles, AgreeApps,
      AgreeUsers, AgreeMembers, AgreeCredentials, AgreeActivations, DetailedRole, Seed.PermissionId, Seed.ScopeTaken;
    AgreeRefl(t, s);
  }

  /** No request of an operator acting on one tenant changes a row of another. */
  lemma WritesStayHome(t: Id, s: Store, op: Operator, c: Call)
    requires Valid(s.dir) && t != op.tenant
    ensures AgreeOn(t, s, Execute(s, op, c).0)
  {
    hide Valid, AgreeOn, CreateUser, PatchUser, IssuedCode, CreateApplication, PatchApplication, CreateGroup, PatchGroup, AddMember, RemoveMember,
      AddGroupRole, RemoveGroupRole, CreateRole, PatchRole, WithoutGroup, WithoutRole, SetRolePermissions, CreatePermission;
    AgreeRefl(t, s);
    match c
    case CallCreateUser(_, _, _, _) => UsersApart(t, s, op, c);
    case CallPatchUser(_, _) => UsersApart(t, s, op, c);
    case CallIssueCode(u, hash, now, ttl) => CodesApart(t, s, op, u, hash, now, ttl);
    case CallCreateApp(_, _, _, _) => AppsApart(t, s, op, c);
    case CallPatchApp(_, _) => AppsApart(t, s, op, c);
    case CallCreateGroup(_, _, _) => GroupsApart(t, s, op, c);
    case CallPatchGroup(_, _, _) => GroupsApart(t, s, op, c);
    case CallDeleteGroup(g) => if DeleteGroup(s, op, g).1.Ok? { DeleteGroupApart(t, s, g); }
    case CallAddMember(_, _) => LinksApart(t, s, op, c);
    case CallRemoveMember(_, _) => LinksApart(t, s, op, c);
    case CallAddGroupRole(_, _) => LinksApart(t, s, op, c);
    case CallRemoveGroupRole(_, _) => LinksApart(t, s, op, c);
    case CallCreateRole(_, _, _, _) => RolesApart(t, s, op, c);
    case CallPatchRole(_, _, _) => RolesApart(t, s, op, c);
    case CallDeleteRole(r) => if DeleteRole(s, op, r).1.Ok? { DeleteRoleApart(t, s, r); }
    case CallSetPermissions(_, _) => PermissionsApart(t, s, op, c);
    case CallCreatePermission(_, _, _, _) => PermissionsApart(t, s, op, c);
    case _ =>
  }
}
