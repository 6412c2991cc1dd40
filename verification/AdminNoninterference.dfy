/**
 Two-run noninterference of the admin API.

 Take two stores that hold the same rows of one tenant and may differ anywhere
 else. A request of that tenant's operator is answered alike on both and leaves
 them still in agreement, with one exception that is stated exactly: ids, client
 ids and code hashes are unique across the platform, so a create that reaches one
 of those lookups learns whether somebody has the value, and nothing more.
 */
module AdminNoninterference {
  import opened Wrappers
  import opened Models
  import opened DirectoryInvariant
  import opened Authz
  import opened Admin
  import opened AdminInvariant
  import opened AdminIsolation
  import Seed

  /** Passkeys and activation codes belong to users that exist. */
  ghost predicate OwnersExist(users: set<Id>, auth: Auth) {
    && (forall c :: c in auth.credentials ==> auth.credentials[c].user in users)
    && (forall c :: c in auth.activations ==> auth.activations[c].user in users)
  }

  ghost predicate WellFormed(s: Store) {
    Valid(s.dir) && OwnersExist(s.dir.users.Keys, s.auth)
  }

  /** The answers of the platform-wide lookups a request reaches; `false` for one it does not. */
  datatype Claims = Claims(id: bool, clientId: bool)

  predicate IdTaken(s: Store, op: Operator, c: Call) {
    match c
    case CallCreateUser(u, email, _, _) =>
      op.tenant in s.dir.tenants && !Seed.EmailTaken(s.dir.users, op.tenant, NormaliseEmail(email)) && u in s.dir.users
    case CallIssueCode(u, hash, _, _) =>
      OwnsUser(s.dir, op.tenant, u) && s.dir.users[u].enabled && hash in s.auth.activations
    case CallCreateApp(a, _, _, _) => a in s.dir.apps
    case CallCreateGroup(g, _, _) => g in s.dir.groups
    case CallCreateRole(r, app, _, _) => OwnsApp(s.dir, op.tenant, app) && r in s.dir.roles
    case CallCreatePermission(app, resource, operation, _) =>
      && OwnsApp(s.dir, op.tenant, app) && !Seed.ScopeTaken(s.dir.permissions, app, resource, operation)
      && Seed.PermissionId(app, resource, operation) in s.dir.permissions
    case _ => false
  }

  predicate ClientIdTaken(s: Store, op: Operator, c: Call) {
    && c.CallCreateApp? && c.app !in s.dir.apps && op.tenant in s.dir.tenants
    && Seed.ClientIdTaken(s.dir.apps, c.clientId)
  }

  function ClaimsOf(s: Store, op: Operator, c: Call): Claims {
    Claims(IdTaken(s, op, c), ClientIdTaken(s, op, c))
  }

  /** Only the five creates and a colliding code hash reach a platform-wide lookup. */
  predicate ClaimsNothing(c: Call) {
    && !c.CallCreateUser? && !c.CallCreateApp? && !c.CallCreateGroup? && !c.CallCreateRole?
    && !c.CallCreatePermission? && !c.CallIssueCode?
  }

  ghost predicate SameClaims(s1: Store, s2: Store, op: Operator, c: Call) {
    ClaimsOf(s1, op, c) == ClaimsOf(s2, op, c)
  }

  ghost predicate SameAnswer(s1: Store, s2: Store, op: Operator, c: Call) {
    Execute(s1, op, c).1 == Execute(s2, op, c).1
  }

  ghost predicate StillAgree(s1: Store, s2: Store, op: Operator, c: Call) {
    AgreeOn(op.tenant, Execute(s1, op, c).0, Execute(s2, op, c).0)
  }

  ghost predicate Twins(s1: Store, s2: Store, t: Id) {
    WellFormed(s1) && WellFormed(s2) && AgreeOn(t, s1, s2)
  }

  // ------------------------------------------------------------- lookups agree

  lemma TenantLookups(t: Id, s1: Store, s2: Store, e: string, name: string)
    requires AgreeOn(t, s1, s2)
    ensures t in s1.dir.tenants <==> t in s2.dir.tenants
    ensures t in s1.dir.tenants ==> s1.dir.tenants[t] == s2.dir.tenants[t]
    ensures Seed.EmailTaken(s1.dir.users, t, e) <==> Seed.EmailTaken(s2.dir.users, t, e)
    ensures Seed.GroupNameTaken(s1.dir.groups, t, name) <==> Seed.GroupNameTaken(s2.dir.groups, t, name)
    ensures forall u :: OwnsUser(s1.dir, t, u) || OwnsUser(s2.dir, t, u) ==>
      OwnsUser(s1.dir, t, u) && OwnsUser(s2.dir, t, u) && s1.dir.users[u] == s2.dir.users[u]
    ensures forall a :: OwnsApp(s1.dir, t, a) || OwnsApp(s2.dir, t, a) ==>
      OwnsApp(s1.dir, t, a) && OwnsApp(s2.dir, t, a) && s1.dir.apps[a] == s2.dir.apps[a]
    ensures forall g :: OwnsGroup(s1.dir, t, g) || OwnsGroup(s2.dir, t, g) ==>
      OwnsGroup(s1.dir, t, g) && OwnsGroup(s2.dir, t, g) && s1.dir.groups[g] == s2.dir.groups[g]
    ensures forall r :: OwnsRole(s1.dir, t, r) || OwnsRole(s2.dir, t, r) ==>
      OwnsRole(s1.dir, t, r) && OwnsRole(s2.dir, t, r) && s1.dir.roles[r] == s2.dir.roles[r]
  {
  }

  lemma AppLookups(t: Id, s1: Store, s2: Store, app: Id, name: string, resource: string, operation: string)
    requires Twins(s1, s2, t) && OwnsApp(s1.dir, t, app)
    ensures Seed.RoleNameTaken(s1.dir.roles, app, name) <==> Seed.RoleNameTaken(s2.dir.roles, app, name)
    ensures Seed.ScopeTaken(s1.dir.permissions, app, resource, operation) <==> Seed.ScopeTaken(s2.dir.permissions, app, resource, operation)
    ensures forall r :: OtherRoleNamed(s1.dir.roles, app, name, r) <==> OtherRoleNamed(s2.dir.roles, app, name, r)
  {
    hide AgreeMembers, AgreeGroupRoles, AgreeLinks, AgreeCredentials, AgreeActivations, AgreeDomains, AgreeUsers, AgreeGroups,
      UsersOk, GroupsOk, MembersOk, GroupRolesOk, RolePermissionsOk, DomainsOk, ConsolesOk, OwnersExist, UniqueClientIds;
    assert app in AppsIn(s1.dir.apps, t) && OwnsApp(s2.dir, t, app);
    forall r: Id ensures r in s1.dir.roles && s1.dir.roles[r].app == app <==> r in s2.dir.roles && s2.dir.roles[r].app == app {
    }
    forall r: Id | r in s1.dir.roles && s1.dir.roles[r].app == app ensures s1.dir.roles[r] == s2.dir.roles[r] {
    }
  }

  lemma PermissionLookups(t: Id, s1: Store, s2: Store, p: Id)
    requires AgreeOn(t, s1, s2)
    ensures KnownPermission(s1.dir, t, p) <==> KnownPermission(s2.dir, t, p)
    ensures KnownPermission(s1.dir, t, p) ==> s1.dir.permissions[p] == s2.dir.permissions[p]
  {
  }

  lemma LinkLookups(t: Id, s1: Store, s2: Store, g: Id)
    requires AgreeOn(t, s1, s2) && OwnsGroup(s1.dir, t, g)
    ensures forall u :: Membership(g, u) in s1.dir.members <==> Membership(g, u) in s2.dir.members
    ensures forall r :: GroupRole(g, r) in s1.dir.groupRoles <==> GroupRole(g, r) in s2.dir.groupRoles
  {
  }

  // ------------------------------------------------------------- the same edit on both

  lemma WiderUsers(mine: set<Id>, u: Id, s1: Store, s2: Store)
    requires OwnersExist(s1.dir.users.Keys, s1.auth) && OwnersExist(s2.dir.users.Keys, s2.auth)
    requires u in mine || (u !in s1.dir.users && u !in s2.dir.users)
    requires AgreeCredentials(mine, s1.auth.credentials, s2.auth.credentials)
    requires AgreeActivations(mine, s1.auth.activations, s2.auth.activations)
    ensures AgreeCredentials(mine + {u}, s1.auth.credentials, s2.auth.credentials)
    ensures AgreeActivations(mine + {u}, s1.auth.activations, s2.auth.activations)
  {
  }

  lemma PutUserOnBoth(t: Id, s1: Store, s2: Store, u: Id, row: User, m1: set<Membership>, m2: set<Membership>)
    requires Twins(s1, s2, t) && row.tenant == t
    requires (u in s1.dir.users <==> u in s2.dir.users) && (u in s1.dir.users ==> OwnsUser(s1.dir, t, u))
    requires AgreeMembers(GroupsIn(s1.dir.groups, t), m1, m2)
    ensures AgreeOn(t, s1.(dir := s1.dir.(users := s1.dir.users[u := row], members := m1)),
                       s2.(dir := s2.dir.(users := s2.dir.users[u := row], members := m2)))
  {
    hide Valid, OwnersExist, AgreeGroupRoles, AgreeLinks, AgreePermissions, AgreeDomains, AgreeTenants, AgreeApps, AgreeRoles, AgreeGroups,
      AgreeMembers, AgreeCredentials, AgreeActivations, GroupsIn, RolesIn, AppsIn;
    WiderUsers(UsersIn(s1.dir.users, t), u, s1, s2);
    assert UsersIn(s1.dir.users[u := row], t) == UsersIn(s1.dir.users, t) + {u};
  }

  lemma SyncOnBoth(t: Id, s1: Store, s2: Store, users1: map<Id, User>, users2: map<Id, User>, u: Id, isAdmin: bool)
    requires Twins(s1, s2, t) && t in s1.dir.tenants && t in s2.dir.tenants
    ensures AgreeMembers(GroupsIn(s1.dir.groups, t),
      SyncAdminFlag(s1.dir.(users := users1), s1.dir.tenants[t], u, isAdmin),
      SyncAdminFlag(s2.dir.(users := users2), s2.dir.tenants[t], u, isAdmin))
  {
  }

  lemma WiderApps(mine: set<Id>, a: Id, d1: Directory, d2: Directory)
    requires PermissionsOk(d1.apps.Keys, d1.permissions) && PermissionsOk(d2.apps.Keys, d2.permissions)
    requires a in mine || (a !in d1.apps && a !in d2.apps)
    requires AgreePermissions(mine, d1.permissions, d2.permissions)
    ensures AgreePermissions(mine + {a}, d1.permissions, d2.permissions)
  {
  }

  lemma PutAppOnBoth(t: Id, s1: Store, s2: Store, a: Id, row: Application)
    requires Twins(s1, s2, t) && row.tenant == t
    requires (a in s1.dir.apps <==> a in s2.dir.apps) && (a in s1.dir.apps ==> OwnsApp(s1.dir, t, a))
    ensures AgreeOn(t, s1.(dir := s1.dir.(apps := s1.dir.apps[a := row])), s2.(dir := s2.dir.(apps := s2.dir.apps[a := row])))
  {
    hide AgreeGroupRoles, AgreeLinks, AgreePermissions, AgreeDomains, AgreeTenants, AgreeUsers, AgreeRoles, AgreeGroups,
      AgreeMembers, AgreeCredentials, AgreeActivations, GroupsIn, RolesIn, UsersIn,
      AppsOk, UsersOk, GroupsOk, RolesOk, PermissionsOk, MembersOk, GroupRolesOk, RolePermissionsOk, DomainsOk, ConsolesOk, OwnersExist;
    WiderApps(AppsIn(s1.dir.apps, t), a, s1.dir, s2.dir);
    assert AppsIn(s1.dir.apps[a := row], t) == AppsIn(s1.dir.apps, t) + {a};
  }

  lemma WiderGroups(mine: set<Id>, g: Id, d1: Directory, d2: Directory)
    requires MembersOk(d1.groups, d1.users, d1.members) && MembersOk(d2.groups, d2.users, d2.members)
    requires GroupRolesOk(d1.groups, d1.roles, d1.groupRoles) && GroupRolesOk(d2.groups, d2.roles, d2.groupRoles)
    requires g in mine || (g !in d1.groups && g !in d2.groups)
    requires AgreeMembers(mine, d1.members, d2.members) && AgreeGroupRoles(mine, d1.groupRoles, d2.groupRoles)
    ensures AgreeMembers(mine + {g}, d1.members, d2.members) && AgreeGroupRoles(mine + {g}, d1.groupRoles, d2.groupRoles)
  {
  }

  lemma PutGroupOnBoth(t: Id, s1: Store, s2: Store, g: Id, row: Group)
    requires Twins(s1, s2, t) && row.tenant == t
    requires (g in s1.dir.groups <==> g in s2.dir.groups) && (g in s1.dir.groups ==> OwnsGroup(s1.dir, t, g))
    ensures AgreeOn(t, s1.(dir := s1.dir.(groups := s1.dir.groups[g := row])), s2.(dir := s2.dir.(groups := s2.dir.groups[g := row])))
  {
    hide AgreeGroupRoles, AgreeLinks, AgreePermissions, AgreeDomains, AgreeTenants, AgreeUsers, AgreeRoles, AgreeApps,
      AgreeMembers, AgreeCredentials, AgreeActivations, AppsIn, RolesIn, UsersIn,
      AppsOk, UsersOk, GroupsOk, RolesOk, PermissionsOk, MembersOk, GroupRolesOk, RolePermissionsOk, DomainsOk, ConsolesOk, OwnersExist;
    WiderGroups(GroupsIn(s1.dir.groups, t), g, s1.dir, s2.dir);
    assert GroupsIn(s1.dir.groups[g := row], t) == GroupsIn(s1.dir.groups, t) + {g};
  }

  lemma WiderRoles(mine: set<Id>, r: Id, d1: Directory, d2: Directory)
    requires RolePermissionsOk(d1.roles, d1.permissions, d1.rolePermissions) && RolePermissionsOk(d2.roles, d2.permissions, d2.rolePermissions)
    requires r in mine || (r !in d1.roles && r !in d2.roles)
    requires AgreeLinks(mine, d1.rolePermissions, d2.rolePermissions)
    ensures AgreeLinks(mine + {r}, d1.rolePermissions, d2.rolePermissions)
  {
  }

  lemma PutRoleOnBoth(t: Id, s1: Store, s2: Store, r: Id, row: Role)
    requires Twins(s1, s2, t) && row.tenant == t
    requires (r in s1.dir.roles <==> r in s2.dir.roles) && (r in s1.dir.roles ==> OwnsRole(s1.dir, t, r))
    ensures AgreeOn(t, s1.(dir := s1.dir.(roles := s1.dir.roles[r := row])), s2.(dir := s2.dir.(roles := s2.dir.roles[r := row])))
  {
    hide AgreeGroupRoles, AgreeLinks, AgreePermissions, AgreeDomains, AgreeTenants, AgreeUsers, AgreeGroups, AgreeApps,
      AgreeMembers, AgreeCredentials, AgreeActivations, AppsIn, GroupsIn, UsersIn,
      AppsOk, UsersOk, GroupsOk, RolesOk, PermissionsOk, MembersOk, GroupRolesOk, RolePermissionsOk, DomainsOk, ConsolesOk, OwnersExist;
    WiderRoles(RolesIn(s1.dir.roles, t), r, s1.dir, s2.dir);
    assert RolesIn(s1.dir.roles[r := row], t) == RolesIn(s1.dir.roles, t) + {r};
  }

  // ------------------------------------------------------------- requests that write

  lemma UserCallsMatch(s1: Store, s2: Store, op: Operator, c: Call)
    requires Twins(s1, s2, op.tenant) && (c.CallCreateUser? || c.CallPatchUser?) && SameClaims(s1, s2, op, c)
    ensures StillAgree(s1, s2, op, c)
    ensures Execute(s1, op, c).1.Ok? <==> Execute(s2, op, c).1.Ok?
    ensures Execute(s1, op, c).1.Err? ==> SameAnswer(s1, s2, op, c)
    ensures Execute(s1, op, c).1.Ok? ==> c.user in UsersIn(Execute(s1, op, c).0.dir.users, op.tenant)
  {
    hide Valid, OwnersExist, AgreeOn, AgreeMembers, PublicUser, NormaliseEmail, SyncAdminFlag, GroupsIn, Seed.EmailTaken;
    var t := op.tenant;
    TenantLookups(t, s1, s2, if c.CallCreateUser? then NormaliseEmail(c.email) else "", "");
    var r1, r2 := Execute(s1, op, c), Execute(s2, op, c);
    if r1.1.Ok? {
      var row := r1.0.dir.users[c.user];
      if c.CallCreateUser? {
        SyncOnBoth(t, s1, s2, r1.0.dir.users, r2.0.dir.users, c.user, c.isAdmin);
      } else if c.userPatch.isAdmin.Some? {
        SyncOnBoth(t, s1, s2, r1.0.dir.users, r2.0.dir.users, c.user, c.userPatch.isAdmin.value);
      } else {
        MembersAgree(t, s1, s2);
      }
      PutUserOnBoth(t, s1, s2, c.user, row, r1.0.dir.members, r2.0.dir.members);
    }
  }

  lemma MembersAgree(t: Id, s1: Store, s2: Store)
    requires AgreeOn(t, s1, s2)
    ensures AgreeMembers(GroupsIn(s1.dir.groups, t), s1.dir.members, s2.dir.members)
  {
  }

  /** Both are accepted or both refused alike, and the stores still agree. */
  ghost predicate Match(s1: Store, s2: Store, op: Operator, c: Call) {
    && StillAgree(s1, s2, op, c)
    && (Execute(s1, op, c).1.Ok? <==> Execute(s2, op, c).1.Ok?)
    && (Execute(s1, op, c).1.Err? ==> SameAnswer(s1, s2, op, c))
  }

  lemma CodesOnBoth(t: Id, s1: Store, s2: Store, u: Id, issuedBy: string, now: Time, ttl: int, hash: string)
    requires AgreeOn(t, s1, s2) && OwnsUser(s1.dir, t, u)
    requires hash !in s1.auth.activations && hash !in s2.auth.activations
    ensures AgreeOn(t, s1.(auth := s1.auth.(activations := IssuedCode(s1.auth.activations, u, issuedBy, now, ttl, hash))),
                       s2.(auth := s2.auth.(activations := IssuedCode(s2.auth.activations, u, issuedBy, now, ttl, hash))))
  {
    hide AgreeGroupRoles, AgreeLinks, AgreePermissions, AgreeDomains, AgreeTenants, AgreeApps, AgreeRoles, AgreeGroups, AgreeUsers,
      AgreeMembers, AgreeCredentials, AppsIn, RolesIn, GroupsIn;
  }

  lemma CodeCallsMatch(s1: Store, s2: Store, op: Operator, c: Call)
    requires Twins(s1, s2, op.tenant) && c.CallIssueCode? && SameClaims(s1, s2, op, c)
    ensures Match(s1, s2, op, c) && SameAnswer(s1, s2, op, c)
  {
    hide Valid, OwnersExist, AgreeOn, IssuedCode;
    TenantLookups(op.tenant, s1, s2, "", "");
    if Execute(s1, op, c).1.Ok? {
      CodesOnBoth(op.tenant, s1, s2, c.user, op.user, c.now, c.ttl, c.hash);
    }
  }

  lemma AppCallsMatch(s1: Store, s2: Store, op: Operator, c: Call)
    requires Twins(s1, s2, op.tenant) && (c.CallCreateApp? || c.CallPatchApp?) && SameClaims(s1, s2, op, c)
    ensures Match(s1, s2, op, c)
    ensures Execute(s1, op, c).1.Ok? ==> SameAnswer(s1, s2, op, c)
  {
    hide Valid, OwnersExist, AgreeOn, Seed.ClientIdTaken;
    TenantLookups(op.tenant, s1, s2, "", "");
    if Execute(s1, op, c).1.Ok? {
      PutAppOnBoth(op.tenant, s1, s2, c.app, Execute(s1, op, c).0.dir.apps[c.app]);
    }
  }

  lemma GroupCallsMatch(s1: Store, s2: Store, op: Operator, c: Call)
    requires Twins(s1, s2, op.tenant) && (c.CallCreateGroup? || c.CallPatchGroup?) && SameClaims(s1, s2, op, c)
    ensures Match(s1, s2, op, c)
    ensures Execute(s1, op, c).1.Ok? ==> OwnsGroup(Execute(s1, op, c).0.dir, op.tenant, c.group)
  {
    hide Valid, OwnersExist, AgreeOn, DetailedGroup, Seed.GroupNameTaken;
    TenantLookups(op.tenant, s1, s2, "", if c.CallCreateGroup? then c.groupName else "");
    if Execute(s1, op, c).1.Ok? {
      PutGroupOnBoth(op.tenant, s1, s2, c.group, Execute(s1, op, c).0.dir.groups[c.group]);
    }
  }

  lemma CreateRoleMatches(s1: Store, s2: Store, op: Operator, c: Call)
    requires Twins(s1, s2, op.tenant) && c.CallCreateRole? && SameClaims(s1, s2, op, c)
    ensures Match(s1, s2, op, c)
    ensures Execute(s1, op, c).1.Ok? ==> OwnsRole(Execute(s1, op, c).0.dir, op.tenant, c.role)
  {
    hide OwnersExist, AgreeOn, DetailedRole, Seed.RoleNameTaken, Valid;
    TenantLookups(op.tenant, s1, s2, "", "");
    if OwnsApp(s1.dir, op.tenant, c.app) {
      AppLookups(op.tenant, s1, s2, c.app, c.roleName, "", "");
    }
    if Execute(s1, op, c).1.Ok? {
      PutRoleOnBoth(op.tenant, s1, s2, c.role, Execute(s1, op, c).0.dir.roles[c.role]);
    }
  }

  lemma PatchRoleMatches(s1: Store, s2: Store, op: Operator, c: Call)
    requires Twins(s1, s2, op.tenant) && c.CallPatchRole?
    ensures Match(s1, s2, op, c)
    ensures Execute(s1, op, c).1.Ok? ==> OwnsRole(Execute(s1, op, c).0.dir, op.tenant, c.role)
  {
    hide OwnersExist, AgreeOn, DetailedRole, OtherRoleNamed,
      AppsOk, UsersOk, GroupsOk, PermissionsOk, MembersOk, GroupRolesOk, RolePermissionsOk, DomainsOk, ConsolesOk;
    TenantLookups(op.tenant, s1, s2, "", "");
    if c.newName.Some? && OwnsRole(s1.dir, op.tenant, c.role) {
      AppLookups(op.tenant, s1, s2, s1.dir.roles[c.role].app, c.newName.value, "", "");
    }
    if Execute(s1, op, c).1.Ok? {
      PutRoleOnBoth(op.tenant, s1, s2, c.role, Execute(s1, op, c).0.dir.roles[c.role]);
    }
  }

  /** New relations that agree where the tenant's own rows are concerned. */
  lemma LinksOnBoth(t: Id, s1: Store, s2: Store, d1: Directory, d2: Directory)
    requires AgreeOn(t, s1, s2)
    requires d1 == s1.dir.(members := d1.members, groupRoles := d1.groupRoles, rolePermissions := d1.rolePermissions)
    requires d2 == s2.dir.(members := d2.members, groupRoles := d2.groupRoles, rolePermissions := d2.rolePermissions)
    requires AgreeMembers(GroupsIn(s1.dir.groups, t), d1.members, d2.members)
    requires AgreeGroupRoles(GroupsIn(s1.dir.groups, t), d1.groupRoles, d2.groupRoles)
    requires AgreeLinks(RolesIn(s1.dir.roles, t), d1.rolePermissions, d2.rolePermissions)
    ensures AgreeOn(t, s1.(dir := d1), s2.(dir := d2))
  {
  }

  lemma RelationsAgree(t: Id, s1: Store, s2: Store)
    requires AgreeOn(t, s1, s2)
    ensures AgreeMembers(GroupsIn(s1.dir.groups, t), s1.dir.members, s2.dir.members)
    ensures AgreeGroupRoles(GroupsIn(s1.dir.groups, t), s1.dir.groupRoles, s2.dir.groupRoles)
    ensures AgreeLinks(RolesIn(s1.dir.roles, t), s1.dir.rolePermissions, s2.dir.rolePermissions)
  {
  }

  lemma MemberOnBoth(t: Id, s1: Store, s2: Store, m: Membership)
    requires AgreeOn(t, s1, s2)
    ensures AgreeOn(t, s1.(dir := s1.dir.(members := s1.dir.members + {m})), s2.(dir := s2.dir.(members := s2.dir.members + {m})))
    ensures AgreeOn(t, s1.(dir := s1.dir.(members := s1.dir.members - {m})), s2.(dir := s2.dir.(members := s2.dir.members - {m})))
  {
  }

  lemma GroupRoleOnBoth(t: Id, s1: Store, s2: Store, gr: GroupRole)
    requires AgreeOn(t, s1, s2)
    ensures AgreeOn(t, s1.(dir := s1.dir.(groupRoles := s1.dir.groupRoles + {gr})), s2.(dir := s2.dir.(groupRoles := s2.dir.groupRoles + {gr})))
    ensures AgreeOn(t, s1.(dir := s1.dir.(groupRoles := s1.dir.groupRoles - {gr})), s2.(dir := s2.dir.(groupRoles := s2.dir.groupRoles - {gr})))
  {
  }

  lemma AddMemberMatches(s1: Store, s2: Store, op: Operator, c: Call)
    requires Twins(s1, s2, op.tenant) && c.CallAddMember?
    ensures Match(s1, s2, op, c)
    ensures Execute(s1, op, c).1.Ok? ==> OwnsGroup(Execute(s1, op, c).0.dir, op.tenant, c.group)
  {
    hide Valid, OwnersExist, AgreeOn, DetailedGroup;
    TenantLookups(op.tenant, s1, s2, "", "");
    if OwnsGroup(s1.dir, op.tenant, c.group) {
      LinkLookups(op.tenant, s1, s2, c.group);
      MemberOnBoth(op.tenant, s1, s2, Membership(c.group, c.user));
    }
  }

  lemma RemoveMemberMatches(s1: Store, s2: Store, op: Operator, c: Call)
    requires Twins(s1, s2, op.tenant) && c.CallRemoveMember?
    ensures Match(s1, s2, op, c)
    ensures Execute(s1, op, c).1.Ok? ==> OwnsGroup(Execute(s1, op, c).0.dir, op.tenant, c.group)
  {
    hide Valid, OwnersExist, AgreeOn, DetailedGroup;
    TenantLookups(op.tenant, s1, s2, "", "");
    if OwnsGroup(s1.dir, op.tenant, c.group) {
      LinkLookups(op.tenant, s1, s2, c.group);
      MemberOnBoth(op.tenant, s1, s2, Membership(c.group, c.user));
    }
  }

  lemma AddGroupRoleMatches(s1: Store, s2: Store, op: Operator, c: Call)
    requires Twins(s1, s2, op.tenant) && c.CallAddGroupRole?
    ensures Match(s1, s2, op, c)
    ensures Execute(s1, op, c).1.Ok? ==> OwnsGroup(Execute(s1, op, c).0.dir, op.tenant, c.group)
  {
    hide Valid, OwnersExist, AgreeOn, DetailedGroup;
    TenantLookups(op.tenant, s1, s2, "", "");
    if OwnsGroup(s1.dir, op.tenant, c.group) {
      LinkLookups(op.tenant, s1, s2, c.group);
      GroupRoleOnBoth(op.tenant, s1, s2, GroupRole(c.group, c.role));
    }
  }

  lemma RemoveGroupRoleMatches(s1: Store, s2: Store, op: Operator, c: Call)
    requires Twins(s1, s2, op.tenant) && c.CallRemoveGroupRole?
    ensures Match(s1, s2, op, c)
    ensures Execute(s1, op, c).1.Ok? ==> OwnsGroup(Execute(s1, op, c).0.dir, op.tenant, c.group)
  {
    hide Valid, OwnersExist, AgreeOn, DetailedGroup;
    TenantLookups(op.tenant, s1, s2, "", "");
    if OwnsGroup(s1.dir, op.tenant, c.group) {
      LinkLookups(op.tenant, s1, s2, c.group);
      GroupRoleOnBoth(op.tenant, s1, s2, GroupRole(c.group, c.role));
    }
  }

  lemma DropGroupOnBoth(t: Id, s1: Store, s2: Store, g: Id)
    requires AgreeOn(t, s1, s2) && OwnsGroup(s1.dir, t, g)
    ensures AgreeOn(t, s1.(dir := WithoutGroup(s1.dir, g)), s2.(dir := WithoutGroup(s2.dir, g)))
  {
  }

  lemma DeleteGroupMatches(s1: Store, s2: Store, op: Operator, c: Call)
    requires Twins(s1, s2, op.tenant) && c.CallDeleteGroup?
    ensures Match(s1, s2, op, c) && SameAnswer(s1, s2, op, c)
  {
    hide Valid, OwnersExist, AgreeOn, WithoutGroup;
    TenantLookups(op.tenant, s1, s2, "", "");
    if OwnsGroup(s1.dir, op.tenant, c.group) {
      DropGroupOnBoth(op.tenant, s1, s2, c.group);
    }
  }

  lemma DropRoleOnBoth(t: Id, s1: Store, s2: Store, r: Id)
    requires AgreeOn(t, s1, s2) && OwnsRole(s1.dir, t, r)
    ensures AgreeOn(t, s1.(dir := WithoutRole(s1.dir, r)), s2.(dir := WithoutRole(s2.dir, r)))
  {
  }

  lemma DeleteRoleMatches(s1: Store, s2: Store, op: Operator, c: Call)
    requires Twins(s1, s2, op.tenant) && c.CallDeleteRole?
    ensures Match(s1, s2, op, c) && SameAnswer(s1, s2, op, c)
  {
    hide Valid, OwnersExist, AgreeOn, WithoutRole;
    TenantLookups(op.tenant, s1, s2, "", "");
    if OwnsRole(s1.dir, op.tenant, c.role) {
      DropRoleOnBoth(op.tenant, s1, s2, c.role);
    }
  }

  lemma SetPermissionsMatches(s1: Store, s2: Store, op: Operator, c: Call)
    requires Twins(s1, s2, op.tenant) && c.CallSetPermissions?
    ensures Match(s1, s2, op, c)
    ensures Execute(s1, op, c).1.Ok? ==> OwnsRole(Execute(s1, op, c).0.dir, op.tenant, c.role)
  {
    hide Valid, OwnersExist, AgreeOn, DetailedRole, KnownPermission, AgreeMembers, AgreeGroupRoles, GroupsIn, RolesIn;
    TenantLookups(op.tenant, s1, s2, "", "");
    RelationsAgree(op.tenant, s1, s2);
    forall p ensures KnownPermission(s1.dir, op.tenant, p) <==> KnownPermission(s2.dir, op.tenant, p)
      ensures KnownPermission(s1.dir, op.tenant, p) ==>
        p in s1.dir.permissions && p in s2.dir.permissions && s1.dir.permissions[p] == s2.dir.permissions[p] {
      PermissionLookups(op.tenant, s1, s2, p);
      KnownIsThere(s1.dir, op.tenant, p);
      KnownIsThere(s2.dir, op.tenant, p);
    }
    if Execute(s1, op, c).1.Ok? {
      LinksOnBoth(op.tenant, s1, s2, Execute(s1, op, c).0.dir, Execute(s2, op, c).0.dir);
    }
  }

  lemma KnownIsThere(d: Directory, t: Id, p: Id)
    ensures KnownPermission(d, t, p) ==> p in d.permissions
  {
  }

  lemma PutPermissionOnBoth(t: Id, s1: Store, s2: Store, p: Id, row: Permission)
    requires AgreeOn(t, s1, s2) && p !in s1.dir.permissions && p !in s2.dir.permissions
    ensures AgreeOn(t, s1.(dir := s1.dir.(permissions := s1.dir.permissions[p := row])),
                       s2.(dir := s2.dir.(permissions := s2.dir.permissions[p := row])))
  {
  }

  lemma CreatePermissionMatches(s1: Store, s2: Store, op: Operator, c: Call)
    requires Twins(s1, s2, op.tenant) && c.CallCreatePermission? && SameClaims(s1, s2, op, c)
    ensures Match(s1, s2, op, c) && SameAnswer(s1, s2, op, c)
  {
    hide Valid, OwnersExist, AgreeOn, Seed.PermissionId, Seed.ScopeTaken, Seed.RoleNameTaken, OtherRoleNamed;
    TenantLookups(op.tenant, s1, s2, "", "");
    if OwnsApp(s1.dir, op.tenant, c.app) {
      AppLookups(op.tenant, s1, s2, c.app, "", c.resource, c.operation);
      if Execute(s1, op, c).1.Ok? {
        PutPermissionOnBoth(op.tenant, s1, s2, Seed.PermissionId(c.app, c.resource, c.operation),
          Permission(c.app, c.resource, c.operation, c.description));
      }
    }
  }

  // ------------------------------------------------------------- answers

  lemma UsersLookTheSame(s1: Store, s2: Store, t: Id)
    requires Twins(s1, s2, t)
    ensures forall u :: OwnsUser(s1.dir, t, u) <==> OwnsUser(s2.dir, t, u)
    ensures forall u :: OwnsUser(s1.dir, t, u) ==> OwnsUser(s2.dir, t, u) && PublicUser(s1, u) == PublicUser(s2, u)
  {
    hide WellFormed, AgreeOn, PublicUser;
    TwinsAreValid(s1, s2, t);
    TenantLookups(t, s1, s2, "", "");
    forall u | OwnsUser(s1.dir, t, u) ensures PublicUser(s1, u) == PublicUser(s2, u) {
      UserLooksTheSame(t, s1, s2, u);
    }
  }

  lemma UserListMatches(s1: Store, s2: Store, op: Operator)
    requires Twins(s1, s2, op.tenant)
    ensures ListUsers(s1, op) == ListUsers(s2, op)
  {
    hide Twins, PublicUser;
    UsersLookTheSame(s1, s2, op.tenant);
    assert forall u :: u in s1.dir.users && s1.dir.users[u].tenant == op.tenant <==> OwnsUser(s1.dir, op.tenant, u);
    assert forall u :: u in s2.dir.users && s2.dir.users[u].tenant == op.tenant <==> OwnsUser(s2.dir, op.tenant, u);
    assert ListUsers(s1, op).value.users == ListUsers(s2, op).value.users;
  }

  lemma GroupReadsMatch(s1: Store, s2: Store, op: Operator, g: Id)
    requires Twins(s1, s2, op.tenant)
    ensures ListGroups(s1, op) == ListGroups(s2, op) && GetGroup(s1, op, g) == GetGroup(s2, op, g)
  {
    hide WellFormed, AgreeOn, DetailedGroup, PublicGroup;
    TwinsAreValid(s1, s2, op.tenant);
    TenantLookups(op.tenant, s1, s2, "", "");
    forall g | OwnsGroup(s1.dir, op.tenant, g)
      ensures DetailedGroup(s1.dir, g) == DetailedGroup(s2.dir, g) && PublicGroup(s1.dir, g) == PublicGroup(s2.dir, g) {
      GroupLooksTheSame(op.tenant, s1, s2, g);
      SummaryIsPart(s1.dir, s2.dir, g, "");
    }
    assert ListGroups(s1, op).value.groups == ListGroups(s2, op).value.groups;
  }

  lemma RolesLookTheSame(s1: Store, s2: Store, t: Id)
    requires Twins(s1, s2, t)
    ensures forall r :: OwnsRole(s1.dir, t, r) ==>
      OwnsRole(s2.dir, t, r) && s1.dir.roles[r] == s2.dir.roles[r]
      && DetailedRole(s1.dir, r) == DetailedRole(s2.dir, r) && PublicRole(s1.dir, r) == PublicRole(s2.dir, r)
    ensures forall r :: OwnsRole(s2.dir, t, r) ==> OwnsRole(s1.dir, t, r)
  {
    hide WellFormed, AgreeOn, DetailedRole, PublicRole;
    TwinsAreValid(s1, s2, t);
    TenantLookups(t, s1, s2, "", "");
    forall r | OwnsRole(s1.dir, t, r)
      ensures DetailedRole(s1.dir, r) == DetailedRole(s2.dir, r) && PublicRole(s1.dir, r) == PublicRole(s2.dir, r) {
      RoleLooksTheSame(t, s1, s2, r);
      SummaryIsPart(s1.dir, s2.dir, "", r);
    }
  }

  lemma RoleReadsMatch(s1: Store, s2: Store, op: Operator, r: Id, app: Option<Id>)
    requires Twins(s1, s2, op.tenant)
    ensures ListRoles(s1, op, app) == ListRoles(s2, op, app) && GetRole(s1, op, r) == GetRole(s2, op, r)
  {
    hide Twins, DetailedRole, PublicRole;
    RolesLookTheSame(s1, s2, op.tenant);
    var l1, l2 := ListRoles(s1, op, app).value.roles, ListRoles(s2, op, app).value.roles;
    assert forall r :: r in l1 ==> OwnsRole(s1.dir, op.tenant, r) && r in l2 && l1[r] == l2[r];
    assert l1.Keys == l2.Keys && l1 == l2;
  }

  lemma SummaryIsPart(d1: Directory, d2: Directory, g: Id, r: Id)
    ensures g in d1.groups && g in d2.groups && DetailedGroup(d1, g) == DetailedGroup(d2, g) ==> PublicGroup(d1, g) == PublicGroup(d2, g)
    ensures r in d1.roles && r in d2.roles && DetailedRole(d1, r) == DetailedRole(d2, r) ==> PublicRole(d1, r) == PublicRole(d2, r)
  {
  }

  lemma TwinsAreValid(s1: Store, s2: Store, t: Id)
    requires Twins(s1, s2, t)
    ensures Valid(s1.dir) && Valid(s2.dir) && AgreeOn(t, s1, s2)
  {
  }

  lemma AppReadsMatch(s1: Store, s2: Store, op: Operator)
    requires AgreeOn(op.tenant, s1, s2)
    ensures ListApplications(s1, op) == ListApplications(s2, op) && CurrentTenant(s1, op) == CurrentTenant(s2, op)
  {
    hide AgreeOn, PublicTenant;
    TenantLookups(op.tenant, s1, s2, "", "");
    TenantLooksTheSame(op.tenant, s1, s2);
    assert ListApplications(s1, op).value.apps == ListApplications(s2, op).value.apps;
  }

  lemma PermissionListMatches(s1: Store, s2: Store, op: Operator, app: Option<Id>)
    requires AgreeOn(op.tenant, s1, s2)
    ensures ListPermissions(s1, op, app) == ListPermissions(s2, op, app)
  {
    hide AgreeOn;
    forall p ensures KnownPermission(s1.dir, op.tenant, p) <==> KnownPermission(s2.dir, op.tenant, p)
      ensures KnownPermission(s1.dir, op.tenant, p) ==> s1.dir.permissions[p] == s2.dir.permissions[p] {
      PermissionLookups(op.tenant, s1, s2, p);
    }
    assert ListPermissions(s1, op, app).value.permissions == ListPermissions(s2, op, app).value.permissions;
  }

  /** What an accepted change of a user, group or role answers is the row it left. */
  lemma AnswersTheUser(s: Store, op: Operator, c: Call)
    requires Execute(s, op, c).1.Ok?
    requires c.CallCreateUser? || c.CallPatchUser?
    ensures var (s', r) := Execute(s, op, c); c.user in s'.dir.users && r == Ok(UserAnswer(PublicUser(s', c.user)))
  {
    hide PublicUser, NormaliseEmail, SyncAdminFlag, Seed.EmailTaken, CreateGroup, PatchGroup, AddMember, RemoveMember, AddGroupRole,
      RemoveGroupRole, CreateRole, PatchRole, SetRolePermissions, ListUsers, ListApplications, ListGroups, ListRoles,
      ListPermissions, GetGroup, GetRole, CurrentTenant, IssueActivationCode, CreateApplication, PatchApplication, CreatePermission,
      DeleteGroup, DeleteRole;
  }

  lemma AnswersTheGroup(s: Store, op: Operator, c: Call)
    requires Execute(s, op, c).1.Ok?
    requires c.CallCreateGroup? || c.CallPatchGroup? || c.CallAddMember? || c.CallRemoveMember? || c.CallAddGroupRole? || c.CallRemoveGroupRole?
    ensures var (s', r) := Execute(s, op, c); c.group in s'.dir.groups && r == Ok(GroupAnswer(DetailedGroup(s'.dir, c.group)))
  {
    hide DetailedGroup, Seed.GroupNameTaken, OtherGroupNamed, CreateUser, PatchUser, CreateRole, PatchRole, SetRolePermissions,
      ListUsers, ListApplications, ListGroups, ListRoles, ListPermissions, GetGroup, GetRole, CurrentTenant, IssueActivationCode,
      CreateApplication, PatchApplication, CreatePermission, DeleteGroup, DeleteRole;
  }

  lemma AnswersTheRole(s: Store, op: Operator, c: Call)
    requires Execute(s, op, c).1.Ok?
    requires c.CallCreateRole? || c.CallPatchRole? || c.CallSetPermissions?
    ensures var (s', r) := Execute(s, op, c); c.role in s'.dir.roles && r == Ok(RoleAnswer(DetailedRole(s'.dir, c.role)))
  {
    hide DetailedRole, Seed.RoleNameTaken, OtherRoleNamed, Seed.PermissionId, KnownPermission, CreateUser, PatchUser, CreateGroup,
      PatchGroup, AddMember, RemoveMember, AddGroupRole, RemoveGroupRole, ListUsers, ListApplications, ListGroups, ListRoles,
      ListPermissions, GetGroup, GetRole, CurrentTenant, IssueActivationCode, CreateApplication, PatchApplication, CreatePermission,
      DeleteGroup, DeleteRole;
  }

  lemma UserWritesMatch(s1: Store, s2: Store, op: Operator, c: Call)
    requires Twins(s1, s2, op.tenant) && (c.CallCreateUser? || c.CallPatchUser?) && SameClaims(s1, s2, op, c)
    ensures SameAnswer(s1, s2, op, c) && StillAgree(s1, s2, op, c)
  {
    hide Valid, Execute, WellFormed, ClaimsOf, PublicUser, AgreeOn;
    UserCallsMatch(s1, s2, op, c);
    TwinsAreValid(s1, s2, op.tenant);
    if Execute(s1, op, c).1.Ok? {
      ExecuteKeepsValid(s1, op, c);
      ExecuteKeepsValid(s2, op, c);
      UserLooksTheSame(op.tenant, Execute(s1, op, c).0, Execute(s2, op, c).0, c.user);
      AnswersTheUser(s1, op, c);
      AnswersTheUser(s2, op, c);
    }
  }

  lemma GroupWritesMatch(s1: Store, s2: Store, op: Operator, c: Call)
    requires Twins(s1, s2, op.tenant) && SameClaims(s1, s2, op, c)
    requires c.CallCreateGroup? || c.CallPatchGroup? || c.CallAddMember? || c.CallRemoveMember? || c.CallAddGroupRole? || c.CallRemoveGroupRole?
    ensures SameAnswer(s1, s2, op, c) && StillAgree(s1, s2, op, c)
  {
    hide Valid, Execute, WellFormed, ClaimsOf, DetailedGroup, AgreeOn;
    if c.CallCreateGroup? || c.CallPatchGroup? {
      GroupCallsMatch(s1, s2, op, c);
    } else if c.CallAddMember? {
      AddMemberMatches(s1, s2, op, c);
    } else if c.CallRemoveMember? {
      RemoveMemberMatches(s1, s2, op, c);
    } else if c.CallAddGroupRole? {
      AddGroupRoleMatches(s1, s2, op, c);
    } else {
      RemoveGroupRoleMatches(s1, s2, op, c);
    }
    TwinsAreValid(s1, s2, op.tenant);
    if Execute(s1, op, c).1.Ok? {
      ExecuteKeepsValid(s1, op, c);
      ExecuteKeepsValid(s2, op, c);
      GroupLooksTheSame(op.tenant, Execute(s1, op, c).0, Execute(s2, op, c).0, c.group);
      AnswersTheGroup(s1, op, c);
      AnswersTheGroup(s2, op, c);
    }
  }

  lemma RoleWritesMatch(s1: Store, s2: Store, op: Operator, c: Call)
    requires Twins(s1, s2, op.tenant) && SameClaims(s1, s2, op, c) && (c.CallCreateRole? || c.CallPatchRole? || c.CallSetPermissions?)
    ensures SameAnswer(s1, s2, op, c) && StillAgree(s1, s2, op, c)
  {
    hide Valid, Execute, WellFormed, ClaimsOf, DetailedRole, AgreeOn;
    if c.CallSetPermissions? {
      SetPermissionsMatches(s1, s2, op, c);
    } else if c.CallCreateRole? {
      CreateRoleMatches(s1, s2, op, c);
    } else {
      PatchRoleMatches(s1, s2, op, c);
    }
    TwinsAreValid(s1, s2, op.tenant);
    if Execute(s1, op, c).1.Ok? {
      ExecuteKeepsValid(s1, op, c);
      ExecuteKeepsValid(s2, op, c);
      RoleLooksTheSame(op.tenant, Execute(s1, op, c).0, Execute(s2, op, c).0, c.role);
      AnswersTheRole(s1, op, c);
      AnswersTheRole(s2, op, c);
    }
  }

  /** A claim that differs between the stores shows in the answer. */
  lemma ClaimsShow(s1: Store, s2: Store, op: Operator, c: Call)
    requires Twins(s1, s2, op.tenant) && !SameClaims(s1, s2, op, c)
    ensures !SameAnswer(s1, s2, op, c)
  {
    hide OwnersExist, AgreeOn, NormaliseEmail, PublicUser, DetailedGroup, DetailedRole, SyncAdminFlag, IssuedCode,
      AppsOk, UsersOk, GroupsOk, RolesOk, PermissionsOk, MembersOk, GroupRolesOk, RolePermissionsOk, DomainsOk, ConsolesOk,
      Seed.EmailTaken, Seed.GroupNameTaken, Seed.RoleNameTaken, Seed.ScopeTaken, Seed.ClientIdTaken, Seed.PermissionId;
    TenantLookups(op.tenant, s1, s2, if c.CallCreateUser? then NormaliseEmail(c.email) else "", "");
    if c.CallCreatePermission? && OwnsApp(s1.dir, op.tenant, c.app) {
      AppLookups(op.tenant, s1, s2, c.app, "", c.resource, c.operation);
    }
  }

  /**
   The answer is a function of the tenant's own rows and the platform-wide claims
   the request reaches: equal exactly when those are, and then the stores agree afterwards.
   */
  lemma NonInterference(s1: Store, s2: Store, op: Operator, c: Call)
    requires Twins(s1, s2, op.tenant)
    ensures SameAnswer(s1, s2, op, c) <==> SameClaims(s1, s2, op, c)
    ensures SameClaims(s1, s2, op, c) ==> StillAgree(s1, s2, op, c)
    ensures ClaimsNothing(c) ==> SameAnswer(s1, s2, op, c) && StillAgree(s1, s2, op, c)
  {
    hide Twins, SameAnswer, StillAgree, Execute, AgreeOn;
    ClaimIsConstant(s1, s2, op, c);
    if !SameClaims(s1, s2, op, c) {
      ClaimsShow(s1, s2, op, c);
    } else {
      hide SameClaims;
      match c
      case CallCreateUser(_, _, _, _) => UserWritesMatch(s1, s2, op, c);
      case CallPatchUser(_, _) => UserWritesMatch(s1, s2, op, c);
      case CallIssueCode(_, _, _, _) => CodeCallsMatch(s1, s2, op, c);
      case CallCreateApp(_, _, _, _) => AppCallsMatch(s1, s2, op, c);
      case CallPatchApp(_, _) => AppCallsMatch(s1, s2, op, c);
      case CallCreateRole(_, _, _, _) => RoleWritesMatch(s1, s2, op, c);
      case CallPatchRole(_, _, _) => RoleWritesMatch(s1, s2, op, c);
      case CallSetPermissions(_, _) => RoleWritesMatch(s1, s2, op, c);
      case CallDeleteRole(_) => DeleteRoleMatches(s1, s2, op, c);
      case CallDeleteGroup(_) => DeleteGroupMatches(s1, s2, op, c);
      case CallCreatePermission(_, _, _, _) => CreatePermissionMatches(s1, s2, op, c);
      case CallCreateGroup(_, _, _) => GroupWritesMatch(s1, s2, op, c);
      case CallPatchGroup(_, _, _) => GroupWritesMatch(s1, s2, op, c);
      case CallAddMember(_, _) => GroupWritesMatch(s1, s2, op, c);
      case CallRemoveMember(_, _) => GroupWritesMatch(s1, s2, op, c);
      case CallAddGroupRole(_, _) => GroupWritesMatch(s1, s2, op, c);
      case CallRemoveGroupRole(_, _) => GroupWritesMatch(s1, s2, op, c);
      case _ => ReadsMatch(s1, s2, op, c);
    }
  }

  predicate ReadsOnly(c: Call) {
    || c.CallCurrentTenant? || c.CallListUsers? || c.CallListApps? || c.CallListGroups? || c.CallGetGroup?
    || c.CallListRoles? || c.CallGetRole? || c.CallListPermissions?
  }

  lemma ReadsMatch(s1: Store, s2: Store, op: Operator, c: Call)
    requires Twins(s1, s2, op.tenant) && ReadsOnly(c)
    ensures SameAnswer(s1, s2, op, c) && StillAgree(s1, s2, op, c)
  {
    hide Twins, AgreeOn, ListUsers, ListGroups, GetGroup, ListRoles, GetRole, ListApplications, CurrentTenant, ListPermissions;
    TwinsAreValid(s1, s2, op.tenant);
    UserListMatches(s1, s2, op);
    GroupReadsMatch(s1, s2, op, if c.CallGetGroup? then c.group else "");
    RoleReadsMatch(s1, s2, op, if c.CallGetRole? then c.role else "", if c.CallListRoles? then c.filter else None);
    AppReadsMatch(s1, s2, op);
    PermissionListMatches(s1, s2, op, if c.CallListPermissions? then c.filter else None);
  }

  lemma ClaimIsConstant(s1: Store, s2: Store, op: Operator, c: Call)
    ensures ClaimsNothing(c) ==> SameClaims(s1, s2, op, c)
  {
  }

  // ------------------------------------------------------------- what a request leaves alone

  lemma LeavesAuth(s: Store, op: Operator, c: Call)
    requires !c.CallIssueCode?
    ensures Execute(s, op, c).0.auth == s.auth
  {
    hide Seed.PermissionId, DetailedGroup, DetailedRole, ListUsers, ListApplications, ListGroups, IssuedCode, PublicUser, NormaliseEmail,
      ListRoles, ListPermissions, GetGroup, GetRole, CurrentTenant, Seed.ScopeTaken, Seed.RoleNameTaken, SyncAdminFlag,
      Seed.GroupNameTaken, OtherGroupNamed, OtherRoleNamed, KnownPermission, Seed.EmailTaken, Seed.ClientIdTaken, WithoutRole, WithoutGroup,
      WithRolePermissions;
  }

  lemma ExecuteKeepsWellFormed(s: Store, op: Operator, c: Call)
    requires WellFormed(s)
    ensures WellFormed(Execute(s, op, c).0)
  {
    hide Valid;
    ExecuteKeepsValid(s, op, c);
    if c.CallIssueCode? {
    } else {
      hide Execute;
      ExecuteIsStable(s, op, c);
      LeavesAuth(s, op, c);
    }
  }

  lemma AgreeSym(t: Id, a: Store, b: Store)
    requires AgreeOn(t, a, b)
    ensures AgreeOn(t, b, a)
  {
    AgreeSets(t, a, b);
    hide UsersIn, AppsIn, GroupsIn, RolesIn;
  }
}
