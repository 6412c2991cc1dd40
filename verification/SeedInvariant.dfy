/**
 When seeding, and giving a tenant its console, keep the directory valid.

 A command never looks at who owns a row it finds. So a run keeps the directory
 valid exactly when every row it links belongs where the link says, and creating
 a tenant does exactly when none of the ids derived from its name is taken.
 */
module SeedInvariant {
  import opened Wrappers
  import opened Models
  import opened DirectoryInvariant
  import opened Seed

  /** The rows this command is about to link have the same owner. */
  ghost predicate Sound(d: Directory, c: Command) {
    match c
    case EnsureRole(t, role, app, _, _) => role in d.roles || (app in d.apps ==> d.apps[app].tenant == t)
    case EnsureScope(role, p) =>
      RolePermission(role, p) in d.rolePermissions ||
      (role in d.roles && p in d.permissions ==> d.permissions[p].app == d.roles[role].app)
    case EnsureGroupRole(group, role) =>
      GroupRole(group, role) in d.groupRoles ||
      (group in d.groups && role in d.roles ==> d.groups[group].tenant == d.roles[role].tenant)
    case EnsureUser(t, user, email, groups, _) =>
      (!EmailTaken(d.users, t, NormaliseEmail(email)) || IsUser(d, t, user, NormaliseEmail(email))) ==>
      forall g :: g in groups && g in d.groups && Membership(g, user) !in d.members ==> d.groups[g].tenant == t
    case SetConsole(t) =>
      && (ConsoleId(t) in d.apps ==> d.apps[ConsoleId(t)].tenant == t && d.apps[ConsoleId(t)].enabled)
      && (AdminGroupId(t) in d.groups ==> d.groups[AdminGroupId(t)].tenant == t)
    case _ => true
  }

  ghost predicate AllSound(d: Directory, cs: seq<Command>, rnd: Randoms)
    decreases |cs|
  {
    cs != [] ==>
      Sound(d, cs[0]) && (RunOne(d, cs[0], rnd).Some? ==> AllSound(RunOne(d, cs[0], rnd).value, cs[1..], rnd))
  }

  /** Two linked rows disagree about their owner: nothing seeding does can undo that. */
  ghost predicate Broken(d: Directory) {
    || (exists r :: r in d.roles && d.roles[r].app in d.apps && d.apps[d.roles[r].app].tenant != d.roles[r].tenant)
    || (exists rp :: rp in d.rolePermissions && rp.role in d.roles && rp.permission in d.permissions
          && d.permissions[rp.permission].app != d.roles[rp.role].app)
    || (exists gr :: gr in d.groupRoles && gr.group in d.groups && gr.role in d.roles
          && d.groups[gr.group].tenant != d.roles[gr.role].tenant)
    || (exists m :: m in d.members && m.group in d.groups && m.user in d.users
          && d.groups[m.group].tenant != d.users[m.user].tenant)
    || (exists t :: t in d.tenants && LostConsole(d, t))
  }

  ghost predicate LostConsole(d: Directory, t: Id)
    requires t in d.tenants
  {
    || (d.tenants[t].consoleApp == Some(ConsoleId(t)) && ConsoleId(t) in d.apps
        && !(d.apps[ConsoleId(t)].tenant == t && d.apps[ConsoleId(t)].enabled))
    || (d.tenants[t].adminGroup == Some(AdminGroupId(t)) && AdminGroupId(t) in d.groups
        && d.groups[AdminGroupId(t)].tenant != t)
  }

  lemma BrokenIsInvalid(d: Directory)
    requires Broken(d)
    ensures !Valid(d)
  {
    hide ConsoleId, AdminGroupId;
  }

  lemma BrokenStays(d: Directory, d': Directory)
    requires Broken(d) && Grew(d, d')
    ensures Broken(d')
  {
    hide ConsoleId, AdminGroupId, EmailTaken;
    if t :| t in d.tenants && LostConsole(d, t) {
      assert t in d'.tenants && LostConsole(d', t);
    }
  }

  lemma LinkBreaks(d: Directory, c: Command)
    requires c.EnsureScope? || c.EnsureGroupRole? || c.EnsureRole?
    requires !Sound(d, c)
    ensures c.EnsureScope? && ScopeRow(d, c.role, c.permission).Some? ==> Broken(ScopeRow(d, c.role, c.permission).value)
    ensures c.EnsureGroupRole? && GroupRoleRow(d, c.group, c.role).Some? ==> Broken(GroupRoleRow(d, c.group, c.role).value)
    ensures c.EnsureRole? && RoleRow(d, c).Some? ==> Broken(RoleRow(d, c).value)
  {
    hide LostConsole, RoleNameTaken;
    if c.EnsureRole? && RoleRow(d, c).Some? {
      assert c.role in RoleRow(d, c).value.roles;
    } else if c.EnsureScope? && ScopeRow(d, c.role, c.permission).Some? {
      assert RolePermission(c.role, c.permission) in ScopeRow(d, c.role, c.permission).value.rolePermissions;
    } else if c.EnsureGroupRole? && GroupRoleRow(d, c.group, c.role).Some? {
      assert GroupRole(c.group, c.role) in GroupRoleRow(d, c.group, c.role).value.groupRoles;
    }
  }

  lemma ConsoleBreaks(d: Directory, t: Id)
    requires ConsoleSet(d, t).Some? && !Sound(d, SetConsole(t))
    ensures Broken(ConsoleSet(d, t).value)
  {
    hide ConsoleId, AdminGroupId;
    assert t in ConsoleSet(d, t).value.tenants && LostConsole(ConsoleSet(d, t).value, t);
  }

  lemma UserBreaks(d: Directory, c: Command, rnd: Randoms)
    requires c.EnsureUser? && UserRow(d, c, rnd).Some? && !Sound(d, c)
    ensures Broken(UserRow(d, c, rnd).value)
  {
  }

  lemma OneBreaks(d: Directory, c: Command, rnd: Randoms)
    requires RunOne(d, c, rnd).Some? && !Sound(d, c)
    ensures Broken(RunOne(d, c, rnd).value)
  {
    hide Broken, TenantRow, LogoOnce, ConsoleSet, DomainRow, ApplicationRow, ScopeRow, GroupRoleRow, UserRow,
      PermissionRow, RoleRow, GroupRow, ClientIdsFilled, NormaliseEmail, ConsoleId, AdminGroupId, EmailTaken;
    match c
    case SetConsole(t) => ConsoleBreaks(d, t);
    case EnsureUser(_, _, _, _, _) => UserBreaks(d, c, rnd);
    case _ => LinkBreaks(d, c);
  }

  // ------------------------------------------------------------- each command, when sound

  lemma TenantKeeps(d: Directory, c: Command)
    requires Valid(d) && c.EnsureTenant? && TenantRow(d, c).Some?
    ensures Valid(TenantRow(d, c).value)
  {
    hide Valid;
    if c.tenant !in d.tenants {
      PutTenant(d, c.tenant, TenantRow(d, c).value.tenants[c.tenant]);
    }
  }

  lemma LogoKeeps(d: Directory, t: Id, url: string)
    requires Valid(d) && LogoOnce(d, t, url).Some?
    ensures Valid(LogoOnce(d, t, url).value)
  {
    var row := d.tenants[t];
    assert ConsoleOk(t, row, d.apps, d.groups);
    PutTenant(d, t, row.(branding := row.branding.(logoUrl := Some(url))));
    hide Valid;
  }

  lemma ConsoleKeeps(d: Directory, t: Id)
    requires Valid(d) && ConsoleSet(d, t).Some? && Sound(d, SetConsole(t))
    ensures Valid(ConsoleSet(d, t).value)
  {
  }

  lemma DomainKeeps(d: Directory, t: Id, domain: string)
    requires Valid(d) && DomainRow(d, t, domain).Some?
    ensures Valid(DomainRow(d, t, domain).value)
  {
  }

  lemma ApplicationKeeps(d: Directory, t: Id, app: Id, name: string, redirect: Option<string>, rnd: Randoms)
    requires Valid(d) && ApplicationRow(d, t, app, name, redirect, rnd).Some?
    ensures Valid(ApplicationRow(d, t, app, name, redirect, rnd).value)
  {
    hide NewClientId, UsersOk, GroupsOk, RolesOk, PermissionsOk, MembersOk, GroupRolesOk, RolePermissionsOk, DomainsOk, ConsolesOk;
    PutApp(d, app, ApplicationRow(d, t, app, name, redirect, rnd).value.apps[app]);
  }

  lemma FillingKeeps(d: Directory, rnd: Randoms)
    requires Valid(d) && ClientIdsFilled(d, rnd).Some?
    ensures Valid(ClientIdsFilled(d, rnd).value)
  {
    hide NewClientId, UsersOk, GroupsOk, RolesOk, PermissionsOk, MembersOk, GroupRolesOk, RolePermissionsOk, DomainsOk, ConsolesOk;
    PutApps(d, ClientIdsFilled(d, rnd).value.apps);
  }

  lemma NamedRowsKeep(d: Directory, c: Command)
    requires Valid(d) && Sound(d, c)
    ensures c.EnsureRole? && RoleRow(d, c).Some? ==> Valid(RoleRow(d, c).value)
    ensures c.EnsurePermission? && PermissionRow(d, c).Some? ==> Valid(PermissionRow(d, c).value)
    ensures c.EnsureGroup? && GroupRow(d, c).Some? ==> Valid(GroupRow(d, c).value)
  {
    hide Valid, PermissionId;
    if c.EnsureRole? && c.role !in d.roles && RoleRow(d, c).Some? {
      PutRole(d, c.role, Role(c.tenant, c.app, c.name, c.description));
    } else if c.EnsurePermission? && PermissionId(c.app, c.resource, c.operation) !in d.permissions && PermissionRow(d, c).Some? {
      PutPermission(d, PermissionId(c.app, c.resource, c.operation), Permission(c.app, c.resource, c.operation, c.description));
    } else if c.EnsureGroup? && c.group !in d.groups && GroupRow(d, c).Some? {
      PutGroup(d, c.group, Group(c.tenant, c.name, c.description));
    }
  }

  lemma LinksKeep(d: Directory, c: Command)
    requires Valid(d) && Sound(d, c)
    ensures c.EnsureScope? && ScopeRow(d, c.role, c.permission).Some? ==> Valid(ScopeRow(d, c.role, c.permission).value)
    ensures c.EnsureGroupRole? && GroupRoleRow(d, c.group, c.role).Some? ==> Valid(GroupRoleRow(d, c.group, c.role).value)
  {
    hide AppsOk, UsersOk, GroupsOk, RolesOk, PermissionsOk, MembersOk, DomainsOk, ConsolesOk;
    if c.EnsureScope? && ScopeRow(d, c.role, c.permission).Some? {
      PutRolePermissions(d, ScopeRow(d, c.role, c.permission).value.rolePermissions);
    } else if c.EnsureGroupRole? && GroupRoleRow(d, c.group, c.role).Some? {
      PutGroupRoles(d, GroupRoleRow(d, c.group, c.role).value.groupRoles);
    }
  }

  lemma MembershipsKeep(d: Directory, user: Id, groups: seq<Id>)
    requires Valid(d) && user in d.users && AddMemberships(d, user, groups).Some?
    requires forall g :: g in groups && g in d.groups && Membership(g, user) !in d.members ==> d.groups[g].tenant == d.users[user].tenant
    ensures Valid(AddMemberships(d, user, groups).value)
  {
  }

  lemma UserKeeps(d: Directory, c: Command, rnd: Randoms)
    requires Valid(d) && c.EnsureUser? && UserRow(d, c, rnd).Some? && Sound(d, c)
    ensures Valid(UserRow(d, c, rnd).value)
  {
    hide NormaliseEmail, AddMemberships, Valid;
    var e := NormaliseEmail(c.email);
    if !EmailTaken(d.users, c.tenant, e) {
      var row := User(c.tenant, e, rnd.digest(e), true, c.isAdmin, false, None);
      PutUser(d, c.user, row);
      MembershipsKeep(d.(users := d.users[c.user := row]), c.user, c.groups);
    } else if IsUser(d, c.tenant, c.user, e) {
      MembershipsKeep(d, c.user, c.groups);
    }
  }

  lemma OneKeeps(d: Directory, c: Command, rnd: Randoms)
    requires Valid(d) && RunOne(d, c, rnd).Some? && Sound(d, c)
    ensures Valid(RunOne(d, c, rnd).value)
  {
    hide Valid, Sound, TenantRow, LogoOnce, ConsoleSet, DomainRow, ApplicationRow, ScopeRow, GroupRoleRow, UserRow,
      PermissionRow, RoleRow, GroupRow, ClientIdsFilled;
    match c
    case EnsureTenant(_, _, _, _, _, _) => TenantKeeps(d, c);
    case EnsureLogo(t, url) => LogoKeeps(d, t, url);
    case EnsureDomain(t, domain) => DomainKeeps(d, t, domain);
    case SetConsole(t) => ConsoleKeeps(d, t);
    case EnsureConsole(t) => ApplicationKeeps(d, t, ConsoleId(t), "Consola " + d.tenants[t].name, None, rnd);
    case EnsureApplication(t, app, name, redirect) => ApplicationKeeps(d, t, app, name, redirect, rnd);
    case EnsureUser(_, _, _, _, _) => UserKeeps(d, c, rnd);
    case FillClientIds => FillingKeeps(d, rnd);
    case EnsureScope(_, _) => LinksKeep(d, c);
    case EnsureGroupRole(_, _) => LinksKeep(d, c);
    case _ => NamedRowsKeep(d, c);
  }

  /** A run that commits leaves the directory valid exactly when every command was sound. */
  lemma {:induction false} RunKeepsValidIffSound(d: Directory, cs: seq<Command>, rnd: Randoms)
    requires Valid(d) && Run(d, cs, rnd).Some?
    ensures Valid(Run(d, cs, rnd).value) <==> AllSound(d, cs, rnd)
    decreases |cs|
  {
    hide Valid, Sound, Broken, RunOne, Grew;
    if cs != [] {
      var d1, end := RunOne(d, cs[0], rnd).value, Run(d, cs, rnd).value;
      if Sound(d, cs[0]) {
        OneKeeps(d, cs[0], rnd);
        RunKeepsValidIffSound(d1, cs[1..], rnd);
      } else {
        OneBreaks(d, cs[0], rnd);
        RunGrows(d1, cs[1..], rnd);
        BrokenStays(d1, end);
        BrokenIsInvalid(end);
      }
    }
  }

  lemma SeedKeepsValidIffSound(d: Directory, specs: seq<TenantSpec>, rnd: Randoms)
    requires Valid(d) && SeedIdentity(d, specs, rnd).Some?
    ensures Valid(SeedIdentity(d, specs, rnd).value) <==> AllSound(d, Program(specs), rnd)
  {
    hide Valid, AllSound, Run, Program;
    RunKeepsValidIffSound(d, Program(specs), rnd);
  }

  // ------------------------------------------------------------- ids with one owner

  /** Who an id is for: an application's and a group's tenant, a role's and a permission's application. */
  datatype Owners = Owners(app: Id -> Id, group: Id -> Id, role: Id -> Id, permission: Id -> Id)

  ghost predicate AppsRespect(apps: map<Id, Application>, ow: Owners, consoles: set<Id>) {
    forall a :: a in apps ==> apps[a].tenant == ow.app(a) && (a in consoles ==> apps[a].enabled)
  }

  ghost predicate GroupsRespect(groups: map<Id, Group>, ow: Owners) {
    forall g :: g in groups ==> groups[g].tenant == ow.group(g)
  }

  ghost predicate RolesRespect(roles: map<Id, Role>, ow: Owners) {
    forall r :: r in roles ==> roles[r].app == ow.role(r) && roles[r].tenant == ow.app(ow.role(r))
  }

  ghost predicate PermissionsRespect(permissions: map<Id, Permission>, ow: Owners) {
    forall p :: p in permissions ==> permissions[p].app == ow.permission(p)
  }

  /** Every row that is there is its owner's, and a console that is there is enabled. */
  ghost predicate Respects(d: Directory, ow: Owners, consoles: set<Id>) {
    && AppsRespect(d.apps, ow, consoles) && GroupsRespect(d.groups, ow)
    && RolesRespect(d.roles, ow) && PermissionsRespect(d.permissions, ow)
  }

  /** The command asks for its ids on behalf of their owners. */
  ghost predicate Entitled(c: Command, ow: Owners, consoles: set<Id>) {
    match c
    case EnsureConsole(t) => ow.app(ConsoleId(t)) == t
    case EnsureApplication(t, app, _, _) => ow.app(app) == t
    case EnsurePermission(app, resource, operation, _) => ow.permission(PermissionId(app, resource, operation)) == app
    case EnsureRole(t, role, app, _, _) => ow.role(role) == app && ow.app(app) == t
    case EnsureScope(role, p) => ow.role(role) == ow.permission(p)
    case EnsureGroup(t, group, _, _) => ow.group(group) == t
    case EnsureGroupRole(group, role) => ow.group(group) == ow.app(ow.role(role))
    case EnsureUser(t, _, _, groups, _) => forall g :: g in groups ==> ow.group(g) == t
    case SetConsole(t) => ow.app(ConsoleId(t)) == t && ow.group(AdminGroupId(t)) == t && ConsoleId(t) in consoles
    case _ => true
  }

  lemma EntitledIsSound(d: Directory, c: Command, ow: Owners, consoles: set<Id>)
    requires Respects(d, ow, consoles) && Entitled(c, ow, consoles)
    ensures Sound(d, c)
  {
    hide ConsoleId, AdminGroupId, PermissionId, NormaliseEmail, EmailTaken, IsUser;
  }

  lemma ApplicationRespects(d: Directory, t: Id, app: Id, name: string, redirect: Option<string>, rnd: Randoms, ow: Owners, consoles: set<Id>)
    requires AppsRespect(d.apps, ow, consoles) && ow.app(app) == t && ApplicationRow(d, t, app, name, redirect, rnd).Some?
    ensures var d' := ApplicationRow(d, t, app, name, redirect, rnd).value; AppsRespect(d'.apps, ow, consoles) && d' == d.(apps := d'.apps)
  {
    hide NewClientId, ClientIdTaken;
  }

  lemma FillingRespects(d: Directory, rnd: Randoms, ow: Owners, consoles: set<Id>)
    requires AppsRespect(d.apps, ow, consoles) && ClientIdsFilled(d, rnd).Some?
    ensures var d' := ClientIdsFilled(d, rnd).value; AppsRespect(d'.apps, ow, consoles) && d' == d.(apps := d'.apps)
  {
    hide NewClientId, DistinctClientIds;
  }

  lemma NamedRowsRespect(d: Directory, c: Command, ow: Owners)
    requires GroupsRespect(d.groups, ow) && RolesRespect(d.roles, ow) && PermissionsRespect(d.permissions, ow) && Entitled(c, ow, {})
    requires c.EnsurePermission? || c.EnsureRole? || c.EnsureGroup?
    ensures c.EnsurePermission? && PermissionRow(d, c).Some? ==>
      var d' := PermissionRow(d, c).value; PermissionsRespect(d'.permissions, ow) && d' == d.(permissions := d'.permissions)
    ensures c.EnsureRole? && RoleRow(d, c).Some? ==> var d' := RoleRow(d, c).value; RolesRespect(d'.roles, ow) && d' == d.(roles := d'.roles)
    ensures c.EnsureGroup? && GroupRow(d, c).Some? ==> var d' := GroupRow(d, c).value; GroupsRespect(d'.groups, ow) && d' == d.(groups := d'.groups)
  {
    hide PermissionId, ScopeTaken, RoleNameTaken, GroupNameTaken, ConsoleId, AdminGroupId;
  }

  predicate SameRows(a: Directory, b: Directory) {
    b.apps == a.apps && b.groups == a.groups && b.roles == a.roles && b.permissions == a.permissions
  }

  /** The other commands leave the four tables as they are. */
  lemma TenantsLeaveRows(d: Directory, c: Command)
    ensures c.EnsureTenant? && TenantRow(d, c).Some? ==> SameRows(d, TenantRow(d, c).value)
    ensures c.EnsureLogo? && LogoOnce(d, c.tenant, c.url).Some? ==> SameRows(d, LogoOnce(d, c.tenant, c.url).value)
    ensures c.SetConsole? && ConsoleSet(d, c.tenant).Some? ==> SameRows(d, ConsoleSet(d, c.tenant).value)
    ensures c.EnsureDomain? && DomainRow(d, c.tenant, c.domain).Some? ==> SameRows(d, DomainRow(d, c.tenant, c.domain).value)
  {
    hide ConsoleId, AdminGroupId;
  }

  lemma LinksLeaveRows(d: Directory, c: Command)
    ensures c.EnsureScope? && ScopeRow(d, c.role, c.permission).Some? ==> SameRows(d, ScopeRow(d, c.role, c.permission).value)
    ensures c.EnsureGroupRole? && GroupRoleRow(d, c.group, c.role).Some? ==> SameRows(d, GroupRoleRow(d, c.group, c.role).value)
  {
  }

  lemma MembershipsLeaveRows(d: Directory, user: Id, groups: seq<Id>)
    requires AddMemberships(d, user, groups).Some?
    ensures SameRows(d, AddMemberships(d, user, groups).value)
  {
  }

  lemma UserLeavesRows(d: Directory, c: Command, rnd: Randoms)
    requires c.EnsureUser? && UserRow(d, c, rnd).Some?
    ensures SameRows(d, UserRow(d, c, rnd).value)
  {
    hide NormaliseEmail, EmailTaken, IsUser, AddMemberships;
    var e := NormaliseEmail(c.email);
    if EmailTaken(d.users, c.tenant, e) {
      if IsUser(d, c.tenant, c.user, e) {
        MembershipsLeaveRows(d, c.user, c.groups);
      }
    } else {
      MembershipsLeaveRows(d.(users := d.users[c.user := User(c.tenant, e, rnd.digest(e), true, c.isAdmin, false, None)]), c.user, c.groups);
    }
  }

  lemma EntitledRespects(d: Directory, c: Command, ow: Owners, consoles: set<Id>, rnd: Randoms)
    requires Respects(d, ow, consoles) && Entitled(c, ow, consoles) && RunOne(d, c, rnd).Some?
    ensures Respects(RunOne(d, c, rnd).value, ow, consoles)
  {
    hide ConsoleId, AdminGroupId, PermissionId, ApplicationRow, PermissionRow, RoleRow, GroupRow, ClientIdsFilled, TenantRow, LogoOnce, DomainRow,
      ScopeRow, GroupRoleRow, UserRow, ConsoleSet, AppsRespect, GroupsRespect, RolesRespect, PermissionsRespect;
    match c
    case EnsureConsole(t) => ApplicationRespects(d, t, ConsoleId(t), "Consola " + d.tenants[t].name, None, rnd, ow, consoles);
    case EnsureApplication(t, app, name, redirect) => ApplicationRespects(d, t, app, name, redirect, rnd, ow, consoles);
    case EnsurePermission(_, _, _, _) => NamedRowsRespect(d, c, ow);
    case EnsureRole(_, _, _, _, _) => NamedRowsRespect(d, c, ow);
    case EnsureGroup(_, _, _, _) => NamedRowsRespect(d, c, ow);
    case FillClientIds => FillingRespects(d, rnd, ow, consoles);
    case EnsureUser(_, _, _, _, _) => UserLeavesRows(d, c, rnd);
    case _ =>
      TenantsLeaveRows(d, c);
      LinksLeaveRows(d, c);
  }

  lemma {:induction false} OneOwnerIsSound(d: Directory, cs: seq<Command>, ow: Owners, consoles: set<Id>, rnd: Randoms)
    requires Respects(d, ow, consoles) && forall c :: c in cs ==> Entitled(c, ow, consoles)
    ensures AllSound(d, cs, rnd)
    decreases |cs|
  {
    hide Respects, Entitled, Sound, RunOne;
    if cs != [] {
      EntitledIsSound(d, cs[0], ow, consoles);
      if RunOne(d, cs[0], rnd).Some? {
        EntitledRespects(d, cs[0], ow, consoles, rnd);
        OneOwnerIsSound(RunOne(d, cs[0], rnd).value, cs[1..], ow, consoles, rnd);
      }
    }
  }

  /** If every id, in the directory and in the specs, is only ever asked for by one owner, seeding keeps the directory valid. */
  lemma SeedKeepsValidWithOneOwner(d: Directory, specs: seq<TenantSpec>, ow: Owners, consoles: set<Id>, rnd: Randoms)
    requires Valid(d) && SeedIdentity(d, specs, rnd).Some?
    requires Respects(d, ow, consoles) && forall c :: c in Program(specs) ==> Entitled(c, ow, consoles)
    ensures Valid(SeedIdentity(d, specs, rnd).value)
  {
    hide Valid, Respects, Entitled, Run, Program;
    OneOwnerIsSound(d, Program(specs), ow, consoles, rnd);
    SeedKeepsValidIffSound(d, specs, rnd);
  }

  // ------------------------------------------------------------- a new tenant's console

  function ScopeId(t: Id, i: nat): Id
    requires i < |TENANT_ADMIN_SCOPES|
  {
    PermissionId(ConsoleId(t), TENANT_ADMIN_SCOPES[i].resource, TENANT_ADMIN_SCOPES[i].operation)
  }

  /** None of the ids derived from the tenant's own is in use. */
  ghost predicate Unclaimed(d: Directory, t: Id) {
    && ConsoleId(t) !in d.apps && AdminGroupId(t) !in d.groups
    && AdminRoleId(t) !in d.roles && SupportRoleId(t) !in d.roles
    && forall i | 0 <= i < |TENANT_ADMIN_SCOPES| :: ScopeId(t, i) !in d.permissions
  }

  /** A tenant nobody has given anything yet. */
  ghost predicate OwnsNothing(d: Directory, t: Id) {
    && (forall a :: a in d.apps ==> d.apps[a].tenant != t)
    && (forall g :: g in d.groups ==> d.groups[g].tenant != t)
    && (forall r :: r in d.roles ==> d.roles[r].tenant != t)
  }

  /** Whatever holds a derived id is what the console needs it to be. */
  ghost predicate OwnIds(d: Directory, t: Id) {
    && (ConsoleId(t) in d.apps ==> d.apps[ConsoleId(t)].tenant == t && d.apps[ConsoleId(t)].enabled)
    && (AdminGroupId(t) in d.groups ==> d.groups[AdminGroupId(t)].tenant == t)
    && (AdminRoleId(t) in d.roles ==> d.roles[AdminRoleId(t)].tenant == t && d.roles[AdminRoleId(t)].app == ConsoleId(t))
    && (SupportRoleId(t) in d.roles ==> d.roles[SupportRoleId(t)].tenant == t && d.roles[SupportRoleId(t)].app == ConsoleId(t))
    && forall i :: 0 <= i < |TENANT_ADMIN_SCOPES| && ScopeId(t, i) in d.permissions ==> d.permissions[ScopeId(t, i)].app == ConsoleId(t)
  }

  ghost predicate ForConsole(c: Command, t: Id) {
    match c
    case EnsureConsole(x) => x == t
    case SetConsole(x) => x == t
    case EnsurePermission(app, _, _, _) => app == ConsoleId(t)
    case EnsureRole(x, _, app, _, _) => x == t && app == ConsoleId(t)
    case EnsureScope(role, p) =>
      role in {AdminRoleId(t), SupportRoleId(t)} && exists i :: 0 <= i < |TENANT_ADMIN_SCOPES| && p == ScopeId(t, i)
    case EnsureGroup(x, _, _, _) => x == t
    case EnsureGroupRole(group, role) => group == AdminGroupId(t) && role == AdminRoleId(t)
    case _ => false
  }

  lemma ConsoleCommandIsSound(d: Directory, c: Command, t: Id, rnd: Randoms)
    requires OwnIds(d, t) && ForConsole(c, t)
    ensures Sound(d, c)
    ensures RunOne(d, c, rnd).Some? ==> OwnIds(RunOne(d, c, rnd).value, t)
  {
    hide ConsoleId, AdminGroupId, AdminRoleId, SupportRoleId, PermissionId, NewClientId, ClientIdTaken, ScopeId,
      ScopeTaken, RoleNameTaken, GroupNameTaken;
  }

  lemma {:induction false} ConsoleRunIsSound(d: Directory, cs: seq<Command>, t: Id, rnd: Randoms)
    requires OwnIds(d, t) && AllForConsole(cs, t)
    ensures AllSound(d, cs, rnd)
    decreases |cs|
  {
    hide OwnIds, ForConsole, Sound, RunOne;
    if cs != [] {
      ConsoleCommandIsSound(d, cs[0], t, rnd);
      if RunOne(d, cs[0], rnd).Some? {
        ConsoleRunIsSound(RunOne(d, cs[0], rnd).value, cs[1..], t, rnd);
      }
    }
  }

  lemma PermissionCommandsAre(app: Id, rows: seq<PermissionSpec>)
    ensures forall c :: c in PermissionCommands(app, rows) ==> c.EnsurePermission? && c.app == app
  {
  }

  lemma {:induction scopes} ScopeCommandsAre(role: Id, app: Id, scopes: seq<ScopeSpec>)
    ensures |ScopeCommands(role, app, scopes)| == |scopes|
    ensures forall i :: 0 <= i < |scopes| ==>
      ScopeCommands(role, app, scopes)[i] == EnsureScope(role, PermissionId(app, scopes[i].resource, scopes[i].operation))
  {
  }

  ghost predicate AllForConsole(cs: seq<Command>, t: Id) {
    forall c :: c in cs ==> ForConsole(c, t)
  }

  lemma ScopesAreForConsole(t: Id, role: Id, scopes: seq<ScopeSpec>)
    requires role in {AdminRoleId(t), SupportRoleId(t)}
    requires forall s :: s in scopes ==> s in TENANT_ADMIN_SCOPES
    ensures AllForConsole(ScopeCommands(role, ConsoleId(t), scopes), t)
  {
    hide ConsoleId, AdminGroupId, AdminRoleId, SupportRoleId, PermissionId, ScopeCommands;
    ScopeCommandsAre(role, ConsoleId(t), scopes);
    forall i | 0 <= i < |scopes| ensures ForConsole(ScopeCommands(role, ConsoleId(t), scopes)[i], t) {
      assert scopes[i] in TENANT_ADMIN_SCOPES;
      var k :| 0 <= k < |TENANT_ADMIN_SCOPES| && scopes[i] == TENANT_ADMIN_SCOPES[k];
      assert ScopeCommands(role, ConsoleId(t), scopes)[i].permission == ScopeId(t, k);
    }
  }

  lemma SupportIsLessThanAdmin()
    ensures forall s :: s in SUPPORT_SCOPES ==> s in TENANT_ADMIN_SCOPES
  {
  }

  lemma RowsAreForConsole(t: Id, name: string, description: string)
    ensures AllForConsole([EnsureConsole(t)], t) && AllForConsole([SetConsole(t)], t)
    ensures AllForConsole(PermissionCommands(ConsoleId(t), CONSOLE_PERMISSIONS), t)
    ensures forall role :: AllForConsole([EnsureRole(t, role, ConsoleId(t), name, description)], t)
    ensures AllForConsole(GroupCommands(t, AdminGroupId(t), name, description, [AdminRoleId(t)]), t)
  {
    hide ConsoleId, AdminGroupId, AdminRoleId, SupportRoleId, PermissionId, PermissionCommands;
    PermissionCommandsAre(ConsoleId(t), CONSOLE_PERMISSIONS);
    assert GroupRoleCommands(AdminGroupId(t), [AdminRoleId(t)]) == [EnsureGroupRole(AdminGroupId(t), AdminRoleId(t))];
  }

  lemma ForConsoleAppend(a: seq<Command>, b: seq<Command>, t: Id)
    requires AllForConsole(a, t) && AllForConsole(b, t)
    ensures AllForConsole(a + b, t)
  {
  }

  lemma BootstrapIsForConsole(t: Id)
    ensures AllForConsole(BootstrapConsole(t), t)
  {
    hide ConsoleId, AdminGroupId, AdminRoleId, SupportRoleId, PermissionCommands, ScopeCommands, GroupCommands, AllForConsole;
    var admin, support := "tenant-admin", "support";
    var manage, explain := "Administrar la organización: directorio, aplicaciones y política de riesgo",
      "Explicar un inicio de sesión: leer decisiones y motivos, sin cambiar nada";
    var group := GroupCommands(t, AdminGroupId(t), "Administradores", "Administran la organización en la consola", [AdminRoleId(t)]);
    RowsAreForConsole(t, admin, manage);
    RowsAreForConsole(t, support, explain);
    RowsAreForConsole(t, "Administradores", "Administran la organización en la consola");
    SupportIsLessThanAdmin();
    ScopesAreForConsole(t, AdminRoleId(t), TENANT_ADMIN_SCOPES);
    ScopesAreForConsole(t, SupportRoleId(t), SUPPORT_SCOPES);
    var roleA := RoleCommands(t, AdminRoleId(t), ConsoleId(t), admin, manage, TENANT_ADMIN_SCOPES);
    var roleS := RoleCommands(t, SupportRoleId(t), ConsoleId(t), support, explain, SUPPORT_SCOPES);
    ForConsoleAppend([EnsureRole(t, AdminRoleId(t), ConsoleId(t), admin, manage)], roleA[1..], t);
    ForConsoleAppend([EnsureRole(t, SupportRoleId(t), ConsoleId(t), support, explain)], roleS[1..], t);
    var p0 := [EnsureConsole(t)] + PermissionCommands(ConsoleId(t), CONSOLE_PERMISSIONS);
    ForConsoleAppend([EnsureConsole(t)], PermissionCommands(ConsoleId(t), CONSOLE_PERMISSIONS), t);
    ForConsoleAppend(p0, roleA, t);
    ForConsoleAppend(p0 + roleA, roleS, t);
    ForConsoleAppend(p0 + roleA + roleS, group, t);
    ForConsoleAppend(p0 + roleA + roleS + group, [SetConsole(t)], t);
  }

  /** The links a bootstrapped console has. */
  ghost predicate ConsoleLinks(d: Directory, t: Id) {
    && GroupRole(AdminGroupId(t), AdminRoleId(t)) in d.groupRoles
    && (forall i :: 0 <= i < |TENANT_ADMIN_SCOPES| ==> RolePermission(AdminRoleId(t), ScopeId(t, i)) in d.rolePermissions)
    && RolePermission(SupportRoleId(t), ScopeId(t, 0)) in d.rolePermissions
    && t in d.tenants && d.tenants[t].consoleApp == Some(ConsoleId(t)) && d.tenants[t].adminGroup == Some(AdminGroupId(t))
  }

  lemma BootstrapSettles(d: Directory, t: Id, rnd: Randoms)
    requires Run(d, BootstrapConsole(t), rnd).Some?
    ensures forall c :: c in BootstrapConsole(t) ==> Settled(Run(d, BootstrapConsole(t), rnd).value, c)
  {
    hide Run, BootstrapConsole, Settled;
    NoFillBootstrap(t);
    RunSettles(d, BootstrapConsole(t), rnd);
  }

  function AdminRoleCommands(t: Id): seq<Command> {
    RoleCommands(t, AdminRoleId(t), ConsoleId(t), "tenant-admin",
      "Administrar la organización: directorio, aplicaciones y política de riesgo", TENANT_ADMIN_SCOPES)
  }

  function SupportRoleCommands(t: Id): seq<Command> {
    RoleCommands(t, SupportRoleId(t), ConsoleId(t), "support",
      "Explicar un inicio de sesión: leer decisiones y motivos, sin cambiar nada", SUPPORT_SCOPES)
  }

  lemma InEither(a: seq<Command>, b: seq<Command>)
    ensures forall c :: c in a || c in b ==> c in a + b
  {
  }

  lemma BootstrapHasParts(t: Id)
    ensures SetConsole(t) in BootstrapConsole(t) && EnsureGroupRole(AdminGroupId(t), AdminRoleId(t)) in BootstrapConsole(t)
    ensures forall c :: c in AdminRoleCommands(t) || c in SupportRoleCommands(t) ==> c in BootstrapConsole(t)
  {
    var first := [EnsureConsole(t)] + PermissionCommands(ConsoleId(t), CONSOLE_PERMISSIONS);
    var admin, support, last := AdminRoleCommands(t), SupportRoleCommands(t), [SetConsole(t)];
    var group := GroupCommands(t, AdminGroupId(t), "Administradores", "Administran la organización en la consola", [AdminRoleId(t)]);
    assert BootstrapConsole(t) == first + admin + support + group + last;
    assert EnsureGroupRole(AdminGroupId(t), AdminRoleId(t)) in group by {
      assert EnsureGroupRole(AdminGroupId(t), AdminRoleId(t)) in GroupRoleCommands(AdminGroupId(t), [AdminRoleId(t)]);
    }
    hide BootstrapConsole, ConsoleId, AdminGroupId, AdminRoleId, SupportRoleId, PermissionCommands, AdminRoleCommands, SupportRoleCommands, GroupCommands;
    InEither(first, admin);
    InEither(first + admin, support);
    InEither(first + admin + support, group);
    InEither(first + admin + support + group, last);
    assert SetConsole(t) in last;
  }

  /** The commands of a bootstrap that the links come from. */
  lemma LinkCommands(t: Id)
    ensures SetConsole(t) in BootstrapConsole(t) && EnsureGroupRole(AdminGroupId(t), AdminRoleId(t)) in BootstrapConsole(t)
    ensures forall i :: 0 <= i < |TENANT_ADMIN_SCOPES| ==> EnsureScope(AdminRoleId(t), ScopeId(t, i)) in BootstrapConsole(t)
    ensures EnsureScope(SupportRoleId(t), ScopeId(t, 0)) in BootstrapConsole(t)
  {
    hide ConsoleId, AdminGroupId, AdminRoleId, SupportRoleId, PermissionId, ScopeCommands, BootstrapConsole;
    BootstrapHasParts(t);
    var admin, support := ScopeCommands(AdminRoleId(t), ConsoleId(t), TENANT_ADMIN_SCOPES), ScopeCommands(SupportRoleId(t), ConsoleId(t), SUPPORT_SCOPES);
    ScopeCommandsAre(AdminRoleId(t), ConsoleId(t), TENANT_ADMIN_SCOPES);
    ScopeCommandsAre(SupportRoleId(t), ConsoleId(t), SUPPORT_SCOPES);
    forall i | 0 <= i < |TENANT_ADMIN_SCOPES| ensures EnsureScope(AdminRoleId(t), ScopeId(t, i)) in BootstrapConsole(t) {
      assert admin[i] == EnsureScope(AdminRoleId(t), ScopeId(t, i)) && admin[i] in AdminRoleCommands(t);
    }
    assert SUPPORT_SCOPES[0] == TENANT_ADMIN_SCOPES[0];
    assert support[0] == EnsureScope(SupportRoleId(t), ScopeId(t, 0)) && support[0] in SupportRoleCommands(t);
  }

  lemma BootstrapLinks(d: Directory, t: Id, rnd: Randoms)
    requires Run(d, BootstrapConsole(t), rnd).Some?
    ensures ConsoleLinks(Run(d, BootstrapConsole(t), rnd).value, t)
  {
    hide ConsoleId, AdminGroupId, AdminRoleId, SupportRoleId, ScopeId, BootstrapConsole, Run;
    var end := Run(d, BootstrapConsole(t), rnd).value;
    BootstrapSettles(d, t, rnd);
    LinkCommands(t);
    assert Settled(end, SetConsole(t)) && Settled(end, EnsureGroupRole(AdminGroupId(t), AdminRoleId(t)));
    assert forall i :: 0 <= i < |TENANT_ADMIN_SCOPES| ==> Settled(end, EnsureScope(AdminRoleId(t), ScopeId(t, i)));
    assert Settled(end, EnsureScope(SupportRoleId(t), ScopeId(t, 0)));
  }

  /** A console linked to a row that was someone else's is not valid. */
  lemma ClaimedIsInvalid(d: Directory, end: Directory, t: Id)
    requires Valid(d) && OwnsNothing(d, t) && Grew(d, end) && ConsoleLinks(end, t) && Valid(end)
    ensures Unclaimed(d, t)
  {
    hide ConsoleId, AdminGroupId, AdminRoleId, SupportRoleId, ScopeId, EmailTaken, UniqueEmails, UniqueClientIds;
    var a, g := AdminRoleId(t), AdminGroupId(t);
    assert ConsoleOk(t, end.tenants[t], end.apps, end.groups);
    assert GroupRole(g, a) in end.groupRoles;
    forall i | 0 <= i < |TENANT_ADMIN_SCOPES| ensures ScopeId(t, i) !in d.permissions {
      assert RolePermission(a, ScopeId(t, i)) in end.rolePermissions;
    }
    assert RolePermission(a, ScopeId(t, 0)) in end.rolePermissions;
    assert RolePermission(SupportRoleId(t), ScopeId(t, 0)) in end.rolePermissions;
  }

  /**
   Giving a tenant with nothing of its own its console keeps the directory valid
   exactly when none of the ids derived from the tenant's was taken.
   */
  lemma BootstrapKeepsValidIffUnclaimed(d: Directory, t: Id, rnd: Randoms)
    requires Valid(d) && OwnsNothing(d, t) && Run(d, BootstrapConsole(t), rnd).Some?
    ensures Valid(Run(d, BootstrapConsole(t), rnd).value) <==> Unclaimed(d, t)
  {
    hide Valid, AllSound, BootstrapConsole, Run, Grew, ConsoleLinks, ForConsole, OwnsNothing,
      ConsoleId, AdminGroupId, AdminRoleId, SupportRoleId, ScopeId;
    var end := Run(d, BootstrapConsole(t), rnd).value;
    RunKeepsValidIffSound(d, BootstrapConsole(t), rnd);
    if Unclaimed(d, t) {
      BootstrapIsForConsole(t);
      ConsoleRunIsSound(d, BootstrapConsole(t), t, rnd);
    }
    if Valid(end) {
      BootstrapLinks(d, t, rnd);
      RunGrows(d, BootstrapConsole(t), rnd);
      ClaimedIsInvalid(d, end, t);
    }
  }
}
