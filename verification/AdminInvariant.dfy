/** Every admin request leaves a valid directory valid, and nobody moved. */
module AdminInvariant {
  import opened Wrappers
  import opened Models
  import opened DirectoryInvariant
  import opened Authz
  import opened Admin
  import Seed
  import SeedInvariant

  lemma UsersKeep(s: Store, op: Operator, c: Call)
    requires Valid(s.dir) && (c.CallCreateUser? || c.CallPatchUser?)
    ensures Valid(Execute(s, op, c).0.dir)
  {
    hide Valid, PublicUser, NormaliseEmail, PatchedUser, SyncAdminFlag;
    match c
    case CallCreateUser(u, email, digest, isAdmin) =>
      var e := NormaliseEmail(email);
      if op.tenant in s.dir.tenants && !Seed.EmailTaken(s.dir.users, op.tenant, e) && u !in s.dir.users {
        var row := User(op.tenant, e, digest, true, isAdmin, false, None);
        PutUser(s.dir, u, row);
        SyncKeeps(s.dir.(users := s.dir.users[u := row]), op.tenant, u, isAdmin);
      }
    case CallPatchUser(u, p) =>
      if OwnsUser(s.dir, op.tenant, u) && (p.isAdmin.Some? ==> op.tenant in s.dir.tenants) {
        var row := PatchedUser(s.dir.users[u], p);
        PatchKeepsUser(s.dir, u, p);
        if p.isAdmin.Some? {
          SyncKeeps(s.dir.(users := s.dir.users[u := row]), op.tenant, u, p.isAdmin.value);
        }
      }
  }

  lemma PatchKeepsUser(d: Directory, u: Id, p: UserPatch)
    requires Valid(d) && u in d.users
    ensures Valid(d.(users := d.users[u := PatchedUser(d.users[u], p)]))
    ensures PatchedUser(d.users[u], p).tenant == d.users[u].tenant
  {
  }

  lemma SyncKeeps(d: Directory, t: Id, u: Id, isAdmin: bool)
    requires Valid(d) && t in d.tenants && OwnsUser(d, t, u)
    ensures Valid(d.(members := SyncAdminFlag(d, d.tenants[t], u, isAdmin)))
  {
  }

  lemma AppsKeep(s: Store, op: Operator, c: Call)
    requires Valid(s.dir) && (c.CallCreateApp? || c.CallPatchApp?)
    ensures Valid(Execute(s, op, c).0.dir)
  {
    hide UsersOk, GroupsOk, RolesOk, PermissionsOk, MembersOk, GroupRolesOk, RolePermissionsOk, DomainsOk, ConsolesOk;
    match c
    case CallCreateApp(a, clientId, name, redirect) =>
      if Execute(s, op, c).1.Ok? {
        PutApp(s.dir, a, Application(Some(clientId), op.tenant, name, true, redirect, false));
      }
    case CallPatchApp(a, p) =>
      if Execute(s, op, c).1.Ok? {
        PutApp(s.dir, a, PatchedApp(s.dir.apps[a], p));
      }
  }

  lemma GroupsKeep(s: Store, op: Operator, c: Call)
    requires Valid(s.dir) && (c.CallCreateGroup? || c.CallPatchGroup?)
    ensures Valid(Execute(s, op, c).0.dir)
  {
    hide AppsOk, UsersOk, RolesOk, PermissionsOk, MembersOk, GroupRolesOk, RolePermissionsOk, DomainsOk, ConsolesOk, DetailedGroup;
    match c
    case CallCreateGroup(g, name, description) =>
      if Execute(s, op, c).1.Ok? {
        PutGroup(s.dir, g, Group(op.tenant, name, description));
      }
    case CallPatchGroup(g, name, description) =>
      if Execute(s, op, c).1.Ok? {
        PutGroup(s.dir, g, Execute(s, op, c).0.dir.groups[g]);
      }
  }

  lemma DeleteGroupKeeps(d: Directory, g: Id)
    requires Valid(d) && g in d.groups && d.groups[g].tenant in d.tenants && d.tenants[d.groups[g].tenant].adminGroup != Some(g)
    ensures Valid(WithoutGroup(d, g))
  {
    hide AppsOk, UsersOk, RolesOk, PermissionsOk, RolePermissionsOk, DomainsOk;
    var d1 := d.(members := (set m | m in d.members && m.group != g));
    PutMembers(d, d1.members);
    var d2 := d1.(groupRoles := (set gr | gr in d.groupRoles && gr.group != g));
    PutGroupRoles(d1, d2.groupRoles);
    assert forall t :: t in d2.tenants ==> ConsoleOk(t, d2.tenants[t], d2.apps, d2.groups);
    DropGroup(d2, g);
  }

  lemma LinksKeep(s: Store, op: Operator, c: Call)
    requires Valid(s.dir) && (c.CallAddMember? || c.CallRemoveMember? || c.CallAddGroupRole? || c.CallRemoveGroupRole?)
    ensures Valid(Execute(s, op, c).0.dir)
  {
    hide AppsOk, UsersOk, GroupsOk, RolesOk, PermissionsOk, RolePermissionsOk, DomainsOk, ConsolesOk, DetailedGroup;
    var d' := Execute(s, op, c).0.dir;
    PutMembers(s.dir, d'.members);
    PutGroupRoles(s.dir, d'.groupRoles);
  }

  lemma RolesKeep(s: Store, op: Operator, c: Call)
    requires Valid(s.dir) && (c.CallCreateRole? || c.CallPatchRole?)
    ensures Valid(Execute(s, op, c).0.dir)
  {
    hide AppsOk, UsersOk, GroupsOk, PermissionsOk, MembersOk, GroupRolesOk, RolePermissionsOk, DomainsOk, ConsolesOk, DetailedRole;
    match c
    case CallCreateRole(r, app, name, description) =>
      if Execute(s, op, c).1.Ok? {
        PutRole(s.dir, r, Role(op.tenant, app, name, description));
      }
    case CallPatchRole(r, name, description) =>
      if Execute(s, op, c).1.Ok? {
        PutRole(s.dir, r, Execute(s, op, c).0.dir.roles[r]);
      }
  }

  lemma DeleteRoleKeeps(d: Directory, r: Id)
    requires Valid(d)
    ensures Valid(WithoutRole(d, r))
  {
    hide AppsOk, UsersOk, GroupsOk, RolesOk, PermissionsOk, MembersOk, DomainsOk, ConsolesOk;
    var d1 := d.(rolePermissions := (set rp | rp in d.rolePermissions && rp.role != r));
    PutRolePermissions(d, d1.rolePermissions);
    var d2 := d1.(groupRoles := (set gr | gr in d.groupRoles && gr.role != r));
    PutGroupRoles(d1, d2.groupRoles);
    DropRole(d2, r);
  }

  lemma PermissionsKeep(s: Store, op: Operator, c: Call)
    requires Valid(s.dir) && (c.CallSetPermissions? || c.CallCreatePermission?)
    ensures Valid(Execute(s, op, c).0.dir)
  {
    hide AppsOk, UsersOk, GroupsOk, RolesOk, MembersOk, GroupRolesOk, DomainsOk, ConsolesOk, DetailedRole, Seed.PermissionId;
    match c
    case CallSetPermissions(r, wanted) =>
      if Execute(s, op, c).1.Ok? {
        PutRolePermissions(s.dir, WithRolePermissions(s.dir, r, wanted).rolePermissions);
      }
    case CallCreatePermission(app, resource, operation, description) =>
      if Execute(s, op, c).1.Ok? {
        PutPermission(s.dir, Seed.PermissionId(app, resource, operation), Permission(app, resource, operation, description));
      }
  }

  /** Any request of any operator, accepted or refused. */
  lemma ExecuteKeepsValid(s: Store, op: Operator, c: Call)
    requires Valid(s.dir)
    ensures Valid(Execute(s, op, c).0.dir)
  {
    hide Valid, CreateUser, PatchUser, CreateApplication, PatchApplication, CreateGroup, PatchGroup, AddMember, RemoveMember,
      AddGroupRole, RemoveGroupRole, CreateRole, PatchRole, WithoutGroup, WithoutRole, SetRolePermissions, CreatePermission;
    match c
    case CallCreateUser(_, _, _, _) => UsersKeep(s, op, c);
    case CallPatchUser(_, _) => UsersKeep(s, op, c);
    case CallCreateApp(_, _, _, _) => AppsKeep(s, op, c);
    case CallPatchApp(_, _) => AppsKeep(s, op, c);
    case CallCreateGroup(_, _, _) => GroupsKeep(s, op, c);
    case CallPatchGroup(_, _, _) => GroupsKeep(s, op, c);
    case CallDeleteGroup(g) => if DeleteGroup(s, op, g).1.Ok? { DeleteGroupKeeps(s.dir, g); }
    case CallAddMember(_, _) => LinksKeep(s, op, c);
    case CallRemoveMember(_, _) => LinksKeep(s, op, c);
    case CallAddGroupRole(_, _) => LinksKeep(s, op, c);
    case CallRemoveGroupRole(_, _) => LinksKeep(s, op, c);
    case CallCreateRole(_, _, _, _) => RolesKeep(s, op, c);
    case CallPatchRole(_, _, _) => RolesKeep(s, op, c);
    case CallDeleteRole(r) => DeleteRoleKeeps(s.dir, r);
    case CallSetPermissions(_, _) => PermissionsKeep(s, op, c);
    case CallCreatePermission(_, _, _, _) => PermissionsKeep(s, op, c);
    case _ =>
  }

  // ------------------------------------------------------------- platform requests

  lemma PatchTenantKeepsValid(s: Store, t: Id, p: TenantPatch)
    requires Valid(s.dir)
    ensures Valid(PatchTenant(s, t, p).0.dir)
  {
  }

  /** The directory with the new tenant's own row and domains, before its console. */
  function WithTenant(d: Directory, t: Id, name: string, branding: Branding, domains: seq<string>): Directory {
    d.(tenants := d.tenants[t := Tenant(name, false, None, None, branding)], domains := ReplacedDomains(d.domains, t, domains))
  }

  lemma WithTenantIsValid(d: Directory, t: Id, name: string, branding: Branding, domains: seq<string>)
    requires Valid(d) && t !in d.tenants
    ensures Valid(WithTenant(d, t, name, branding, domains))
    ensures SeedInvariant.OwnsNothing(WithTenant(d, t, name, branding, domains), t)
  {
  }

  /**
   A tenant that was created has a valid console exactly when none of the ids
   derived from its own was taken; the request itself never looks.
   */
  lemma CreateTenantKeepsValidIffUnclaimed(s: Store, t: Id, name: string, branding: Branding, domains: seq<string>, rnd: Seed.Randoms)
    requires Valid(s.dir)
    ensures var (s', r) := CreateTenant(s, t, name, branding, domains, rnd);
      && (r.Err? ==> s' == s)
      && (r.Ok? ==> (Valid(s'.dir) <==> SeedInvariant.Unclaimed(s.dir, t)))
  {
    hide Valid, Seed.Run, Seed.BootstrapConsole, Seed.ConsoleId, Seed.AdminGroupId, Seed.AdminRoleId, Seed.SupportRoleId,
      SeedInvariant.ScopeId, SeedInvariant.OwnsNothing, ReplacedDomains, PublicTenant, Repeats, DomainOwnedElsewhere;
    if CreateTenant(s, t, name, branding, domains, rnd).1.Ok? {
      var d := WithTenant(s.dir, t, name, branding, domains);
      WithTenantIsValid(s.dir, t, name, branding, domains);
      SeedInvariant.BootstrapKeepsValidIffUnclaimed(d, t, rnd);
    }
  }

  // ------------------------------------------------------------- nobody moves

  predicate WritesGroups(c: Call) {
    || c.CallCreateGroup? || c.CallPatchGroup? || c.CallDeleteGroup? || c.CallAddMember? || c.CallRemoveMember?
    || c.CallAddGroupRole? || c.CallRemoveGroupRole?
  }

  ghost predicate SameOwners(a: Directory, b: Directory) {
    b.users == a.users && b.apps == a.apps && b.tenants == a.tenants
  }

  lemma GroupWritesLeaveOwners(s: Store, op: Operator, c: Call)
    requires WritesGroups(c)
    ensures SameOwners(s.dir, Execute(s, op, c).0.dir)
  {
    hide DetailedGroup, Seed.GroupNameTaken, OtherGroupNamed, CreateUser, PatchUser, CreateApplication, PatchApplication,
      ListUsers, ListApplications, ListGroups, ListRoles, ListPermissions, GetGroup, GetRole, CurrentTenant,
      IssueActivationCode, CreateRole, PatchRole, DeleteRole, SetRolePermissions, CreatePermission;
  }

  lemma RoleWritesLeaveOwners(s: Store, op: Operator, c: Call)
    requires c.CallCreateRole? || c.CallPatchRole?
    ensures SameOwners(s.dir, Execute(s, op, c).0.dir)
  {
    hide DeleteRole, DetailedRole, Seed.RoleNameTaken, OtherRoleNamed, SetRolePermissions, CreatePermission, CreateUser, PatchUser,
      CreateApplication, PatchApplication, ListUsers, ListApplications, ListGroups, ListRoles, ListPermissions, GetGroup, GetRole,
      CurrentTenant, IssueActivationCode, CreateGroup, PatchGroup, DeleteGroup, AddMember, RemoveMember, AddGroupRole, RemoveGroupRole;
  }

  lemma PermissionWritesLeaveOwners(s: Store, op: Operator, c: Call)
    requires c.CallSetPermissions? || c.CallCreatePermission?
    ensures SameOwners(s.dir, Execute(s, op, c).0.dir)
  {
    hide Seed.PermissionId, DetailedRole, Seed.ScopeTaken, KnownPermission, CreateRole, PatchRole, DeleteRole, CreateUser, PatchUser,
      CreateApplication, PatchApplication, ListUsers, ListApplications, ListGroups, ListRoles, ListPermissions, GetGroup, GetRole,
      CurrentTenant, IssueActivationCode, CreateGroup, PatchGroup, DeleteGroup, AddMember, RemoveMember, AddGroupRole, RemoveGroupRole;
  }

  lemma LeavesOwners(s: Store, op: Operator, c: Call)
    requires !c.CallCreateUser? && !c.CallPatchUser? && !c.CallCreateApp? && !c.CallPatchApp?
    ensures SameOwners(s.dir, Execute(s, op, c).0.dir)
  {
    if WritesGroups(c) {
      hide Execute;
      GroupWritesLeaveOwners(s, op, c);
    } else if c.CallCreateRole? || c.CallPatchRole? {
      hide Execute;
      RoleWritesLeaveOwners(s, op, c);
    } else if c.CallSetPermissions? || c.CallCreatePermission? {
      hide Execute;
      PermissionWritesLeaveOwners(s, op, c);
    } else {
      hide CreateUser, PatchUser, CreateApplication, PatchApplication, CreateGroup, PatchGroup, DeleteGroup, AddMember, RemoveMember,
        AddGroupRole, RemoveGroupRole, CreateRole, PatchRole, SetRolePermissions, CreatePermission,
        ListUsers, ListApplications, ListGroups, ListRoles, ListPermissions, GetGroup, GetRole, CurrentTenant, IssuedCode;
    }
  }

  lemma RowEditsAreStable(d: Directory, u: Id, user: User, members: set<Membership>, a: Id, app: Application)
    ensures Stable(d, d)
    ensures (u in d.users ==> d.users[u].tenant == user.tenant) ==> Stable(d, d.(users := d.users[u := user], members := members))
    ensures (a in d.apps ==> d.apps[a].tenant == app.tenant) ==> Stable(d, d.(apps := d.apps[a := app]))
  {
  }

  lemma OwnersStay(s: Store, op: Operator, c: Call)
    requires c.CallCreateUser? || c.CallPatchUser? || c.CallCreateApp? || c.CallPatchApp?
    ensures Stable(s.dir, Execute(s, op, c).0.dir)
  {
    hide NormaliseEmail, PublicUser, SyncAdminFlag, Seed.EmailTaken, Seed.ClientIdTaken, Stable;
    var d' := Execute(s, op, c).0.dir;
    if c.CallCreateUser? || c.CallPatchUser? {
      var row := if c.user in d'.users then d'.users[c.user] else User(op.tenant, "", "", true, false, false, None);
      RowEditsAreStable(s.dir, c.user, row, d'.members, "", Application(None, op.tenant, "", true, None, false));
    } else {
      var row := if c.app in d'.apps then d'.apps[c.app] else Application(None, op.tenant, "", true, None, false);
      RowEditsAreStable(s.dir, "", User(op.tenant, "", "", true, false, false, None), d'.members, c.app, row);
    }
  }

  /** No request moves a user or an application, or makes a tenant the platform. */
  lemma ExecuteIsStable(s: Store, op: Operator, c: Call)
    ensures Stable(s.dir, Execute(s, op, c).0.dir)
  {
    if c.CallCreateUser? || c.CallPatchUser? || c.CallCreateApp? || c.CallPatchApp? {
      hide CreateUser, PatchUser, CreateApplication, PatchApplication, Stable;
      OwnersStay(s, op, c);
    } else {
      hide Execute;
      LeavesOwners(s, op, c);
    }
  }

  lemma CreateTenantIsStable(s: Store, t: Id, name: string, branding: Branding, domains: seq<string>, rnd: Seed.Randoms)
    ensures Stable(s.dir, CreateTenant(s, t, name, branding, domains, rnd).0.dir)
  {
    hide Seed.Run, Seed.BootstrapConsole, Seed.ConsoleId, Seed.AdminGroupId, ReplacedDomains, PublicTenant, Repeats, DomainOwnedElsewhere,
      Seed.EmailTaken;
    var d := WithTenant(s.dir, t, name, branding, domains);
    if Seed.Run(d, Seed.BootstrapConsole(t), rnd).Some? {
      Seed.RunGrows(d, Seed.BootstrapConsole(t), rnd);
    }
  }
}
