/**
 The idempotent seed and the console every tenant is given.

 Seeding is a list of commands, each "add this row unless it is there". The
 service runs them from nested loops; `Program` is the same list, flat.
 A run fails as a whole when a command breaks a unique constraint or a foreign key.
 */
module Seed {
  import opened Wrappers
  import opened Models
  import opened DirectoryInvariant

  // ------------------------------------------------------------- derived ids

  function MangleChar(c: char): char { if c == '-' then '_' else c }

  function Mangle(s: string): string {
    seq(|s|, i requires 0 <= i < |s| => MangleChar(s[i]))
  }

  function PermissionId(app: Id, resource: string, operation: string): Id {
    Mangle("perm_" + app + "_" + resource + "_" + operation)
  }

  function ConsoleId(tenant: Id): Id { tenant + "-console" }
  function AdminGroupId(tenant: Id): Id { Mangle("grp_" + tenant + "_admins") }
  function AdminRoleId(tenant: Id): Id { Mangle("role_" + tenant + "_tenant_admin") }
  function SupportRoleId(tenant: Id): Id { Mangle("role_" + tenant + "_support") }

  /** Two demo applications have the same client id in every installation. */
  const SEEDED_CLIENT_IDS: map<Id, string> := map[
    "roku-bank-web" := "rk_Bk7mQ2xVn9PwR4tL",
    "kaze-portal" := "rk_Kz3sH8dYc5JfW1qN"]

  /** The random values of one run: a client id per application, a digest per email. */
  datatype Randoms = Randoms(clientId: Id -> string, digest: string -> string)

  function NewClientId(app: Id, rnd: Randoms): string {
    if app in SEEDED_CLIENT_IDS then SEEDED_CLIENT_IDS[app] else rnd.clientId(app)
  }

  // ------------------------------------------------------------- commands

  datatype Command =
    | EnsureTenant(tenant: Id, name: string, isPlatform: bool, style: string, primary: string, accent: string)
    | EnsureLogo(tenant: Id, url: string)
    | EnsureDomain(tenant: Id, domain: string)
    | EnsureConsole(tenant: Id)
    | EnsureApplication(tenant: Id, app: Id, name: string, redirect: Option<string>)
    | EnsurePermission(app: Id, resource: string, operation: string, description: string)
    | EnsureRole(tenant: Id, role: Id, app: Id, name: string, description: string)
    | EnsureScope(role: Id, permission: Id)
    | EnsureGroup(tenant: Id, group: Id, name: string, description: string)
    | EnsureGroupRole(group: Id, role: Id)
    | EnsureUser(tenant: Id, user: Id, email: string, groups: seq<Id>, isAdmin: bool)
    | SetConsole(tenant: Id)
    | FillClientIds

  predicate ClientIdTaken(apps: map<Id, Application>, clientId: string) {
    exists a :: a in apps && apps[a].clientId == Some(clientId)
  }

  predicate DistinctClientIds(apps: map<Id, Application>) {
    forall a, b :: a in apps && b in apps && apps[a].clientId.Some? && apps[a].clientId == apps[b].clientId ==> a == b
  }

  predicate EmailTaken(users: map<Id, User>, tenant: Id, email: string) {
    exists u :: u in users && users[u].tenant == tenant && users[u].email == email
  }

  predicate GroupNameTaken(groups: map<Id, Group>, tenant: Id, name: string) {
    exists g :: g in groups && groups[g].tenant == tenant && groups[g].name == name
  }

  predicate RoleNameTaken(roles: map<Id, Role>, app: Id, name: string) {
    exists r :: r in roles && roles[r].app == app && roles[r].name == name
  }

  predicate ScopeTaken(permissions: map<Id, Permission>, app: Id, resource: string, operation: string) {
    exists p :: p in permissions && permissions[p].app == app && permissions[p].resource == resource && permissions[p].operation == operation
  }

  function AddApplication(d: Directory, tenant: Id, app: Id, name: string, redirect: Option<string>, rnd: Randoms): Option<Directory>
    requires app !in d.apps
  {
    var clientId := NewClientId(app, rnd);
    if tenant !in d.tenants || ClientIdTaken(d.apps, clientId) then None
    else Some(d.(apps := d.apps[app := Application(Some(clientId), tenant, name, true, redirect, false)]))
  }

  /** An application that is there keeps its row; it gains a client id if it had none. */
  function KeepApplication(d: Directory, app: Id, redirect: Option<string>, rnd: Randoms): Option<Directory>
    requires app in d.apps
  {
    var row := d.apps[app];
    if row.clientId.None? && ClientIdTaken(d.apps, NewClientId(app, rnd)) then None
    else
      var row' := if row.clientId.None? then row.(clientId := Some(NewClientId(app, rnd))) else row;
      Some(d.(apps := d.apps[app := if redirect.Some? then row'.(redirectUri := redirect) else row']))
  }

  function AddMemberships(d: Directory, user: Id, groups: seq<Id>): Option<Directory> {
    if forall g :: g in groups ==> g in d.groups || Membership(g, user) in d.members then
      Some(d.(members := d.members + (set g | g in groups :: Membership(g, user))))
    else None
  }

  function FilledClientIds(apps: map<Id, Application>, rnd: Randoms): map<Id, Application> {
    map a | a in apps :: if apps[a].clientId.None? then apps[a].(clientId := Some(NewClientId(a, rnd))) else apps[a]
  }

  function TenantRow(d: Directory, c: Command): Option<Directory>
    requires c.EnsureTenant?
  {
    if c.tenant in d.tenants then Some(d)
    else Some(d.(tenants := d.tenants[c.tenant :=
      Tenant(c.name, c.isPlatform, None, None, Branding(c.name, c.style, None, c.primary, c.accent))]))
  }

  function LogoOnce(d: Directory, t: Id, url: string): Option<Directory> {
    if t !in d.tenants then None
    else if d.tenants[t].branding.logoUrl.Some? then Some(d)
    else Some(d.(tenants := d.tenants[t :=
      d.tenants[t].(branding := d.tenants[t].branding.(logoUrl := Some(url)))]))
  }

  function DomainRow(d: Directory, t: Id, domain: string): Option<Directory> {
    if domain in d.domains then Some(d)
    else if t !in d.tenants then None
    else Some(d.(domains := d.domains[domain := t]))
  }

  function ConsoleRow(d: Directory, t: Id, rnd: Randoms): Option<Directory> {
    if t !in d.tenants then None
    else ApplicationRow(d, t, ConsoleId(t), "Consola " + d.tenants[t].name, None, rnd)
  }

  function ApplicationRow(d: Directory, t: Id, app: Id, name: string, redirect: Option<string>, rnd: Randoms): Option<Directory> {
    if app in d.apps then KeepApplication(d, app, redirect, rnd)
    else AddApplication(d, t, app, name, redirect, rnd)
  }

  function PermissionRow(d: Directory, c: Command): Option<Directory>
    requires c.EnsurePermission?
  {
    var p := PermissionId(c.app, c.resource, c.operation);
    if p in d.permissions then Some(d)
    else if c.app !in d.apps || ScopeTaken(d.permissions, c.app, c.resource, c.operation) then None
    else Some(d.(permissions := d.permissions[p := Permission(c.app, c.resource, c.operation, c.description)]))
  }

  function RoleRow(d: Directory, c: Command): Option<Directory>
    requires c.EnsureRole?
  {
    if c.role in d.roles then Some(d)
    else if c.tenant !in d.tenants || c.app !in d.apps || RoleNameTaken(d.roles, c.app, c.name) then None
    else Some(d.(roles := d.roles[c.role := Role(c.tenant, c.app, c.name, c.description)]))
  }

  function ScopeRow(d: Directory, role: Id, p: Id): Option<Directory> {
    if RolePermission(role, p) in d.rolePermissions then Some(d)
    else if role !in d.roles || p !in d.permissions then None
    else Some(d.(rolePermissions := d.rolePermissions + {RolePermission(role, p)}))
  }

  function GroupRow(d: Directory, c: Command): Option<Directory>
    requires c.EnsureGroup?
  {
    if c.group in d.groups then Some(d)
    else if c.tenant !in d.tenants || GroupNameTaken(d.groups, c.tenant, c.name) then None
    else Some(d.(groups := d.groups[c.group := Group(c.tenant, c.name, c.description)]))
  }

  function GroupRoleRow(d: Directory, group: Id, role: Id): Option<Directory> {
    if GroupRole(group, role) in d.groupRoles then Some(d)
    else if group !in d.groups || role !in d.roles then None
    else Some(d.(groupRoles := d.groupRoles + {GroupRole(group, role)}))
  }

  /** An address that belongs to another user makes this a no-op. */
  function UserRow(d: Directory, c: Command, rnd: Randoms): Option<Directory>
    requires c.EnsureUser?
  {
    var e := NormaliseEmail(c.email);
    if !EmailTaken(d.users, c.tenant, e) then
      if c.user in d.users || c.tenant !in d.tenants then None
      else AddMemberships(
        d.(users := d.users[c.user := User(c.tenant, e, rnd.digest(e), true, c.isAdmin, false, None)]), c.user, c.groups)
    else if IsUser(d, c.tenant, c.user, e) then AddMemberships(d, c.user, c.groups)
    else Some(d)
  }

  predicate IsUser(d: Directory, tenant: Id, user: Id, email: string) {
    user in d.users && d.users[user].tenant == tenant && d.users[user].email == email
  }

  /** Both rows have just been ensured. */
  function ConsoleSet(d: Directory, t: Id): Option<Directory> {
    if t !in d.tenants || ConsoleId(t) !in d.apps || AdminGroupId(t) !in d.groups then None
    else Some(d.(tenants := d.tenants[t :=
      d.tenants[t].(consoleApp := Some(ConsoleId(t)), adminGroup := Some(AdminGroupId(t)))]))
  }

  function ClientIdsFilled(d: Directory, rnd: Randoms): Option<Directory> {
    var apps := FilledClientIds(d.apps, rnd);
    if DistinctClientIds(apps) then Some(d.(apps := apps)) else None
  }

  function RunOne(d: Directory, c: Command, rnd: Randoms): Option<Directory> {
    match c
    case EnsureTenant(_, _, _, _, _, _) => TenantRow(d, c)
    case EnsureLogo(t, url) => LogoOnce(d, t, url)
    case EnsureDomain(t, domain) => DomainRow(d, t, domain)
    case EnsureConsole(t) => ConsoleRow(d, t, rnd)
    case EnsureApplication(t, app, name, redirect) => ApplicationRow(d, t, app, name, redirect, rnd)
    case EnsurePermission(_, _, _, _) => PermissionRow(d, c)
    case EnsureRole(_, _, _, _, _) => RoleRow(d, c)
    case EnsureScope(role, p) => ScopeRow(d, role, p)
    case EnsureGroup(_, _, _, _) => GroupRow(d, c)
    case EnsureGroupRole(group, role) => GroupRoleRow(d, group, role)
    case EnsureUser(_, _, _, _, _) => UserRow(d, c, rnd)
    case SetConsole(t) => ConsoleSet(d, t)
    case FillClientIds => ClientIdsFilled(d, rnd)
  }

  function Run(d: Directory, cs: seq<Command>, rnd: Randoms): Option<Directory>
    decreases |cs|
  {
    if cs == [] then Some(d)
    else
      var d1 :- RunOne(d, cs[0], rnd);
      Run(d1, cs[1..], rnd)
  }

  // ------------------------------------------------------------- the console

  datatype PermissionSpec = PermissionSpec(resource: string, operation: string, description: string)
  datatype ScopeSpec = ScopeSpec(resource: string, operation: string)

  const CONSOLE_PERMISSIONS: seq<PermissionSpec> := [
    PermissionSpec("admin", "read", "Abrir la consola y leer el directorio"),
    PermissionSpec("admin", "write", "Crear y modificar usuarios, grupos, roles y aplicaciones"),
    PermissionSpec("decisions", "read", "Leer las decisiones y sus motivos por señal"),
    PermissionSpec("policy", "write", "Cambiar umbrales, acciones, política base y modo del motor")]
  const TENANT_ADMIN_SCOPES: seq<ScopeSpec> := [
    ScopeSpec("admin", "read"), ScopeSpec("admin", "write"),
    ScopeSpec("decisions", "read"), ScopeSpec("policy", "write")]
  const SUPPORT_SCOPES: seq<ScopeSpec> := [ScopeSpec("admin", "read"), ScopeSpec("decisions", "read")]

  function PermissionCommands(app: Id, rows: seq<PermissionSpec>): seq<Command> {
    if rows == [] then []
    else [EnsurePermission(app, rows[0].resource, rows[0].operation, rows[0].description)] + PermissionCommands(app, rows[1..])
  }

  function ScopeCommands(role: Id, app: Id, scopes: seq<ScopeSpec>): seq<Command> {
    if scopes == [] then []
    else [EnsureScope(role, PermissionId(app, scopes[0].resource, scopes[0].operation))] + ScopeCommands(role, app, scopes[1..])
  }

  function RoleCommands(tenant: Id, role: Id, app: Id, name: string, description: string, scopes: seq<ScopeSpec>): seq<Command> {
    [EnsureRole(tenant, role, app, name, description)] + ScopeCommands(role, app, scopes)
  }

  function GroupRoleCommands(group: Id, roles: seq<Id>): seq<Command> {
    if roles == [] then [] else [EnsureGroupRole(group, roles[0])] + GroupRoleCommands(group, roles[1..])
  }

  function GroupCommands(tenant: Id, group: Id, name: string, description: string, roles: seq<Id>): seq<Command> {
    [EnsureGroup(tenant, group, name, description)] + GroupRoleCommands(group, roles)
  }

  /** The commands that furnish a tenant's console and end by pointing the tenant at it. */
  function BootstrapConsole(t: Id): seq<Command> {
    [EnsureConsole(t)]
    + PermissionCommands(ConsoleId(t), CONSOLE_PERMISSIONS)
    + RoleCommands(t, AdminRoleId(t), ConsoleId(t), "tenant-admin",
        "Administrar la organización: directorio, aplicaciones y política de riesgo", TENANT_ADMIN_SCOPES)
    + RoleCommands(t, SupportRoleId(t), ConsoleId(t), "support",
        "Explicar un inicio de sesión: leer decisiones y motivos, sin cambiar nada", SUPPORT_SCOPES)
    + GroupCommands(t, AdminGroupId(t), "Administradores",
        "Administran la organización en la consola", [AdminRoleId(t)])
    + [SetConsole(t)]
  }

  // ------------------------------------------------------------- the seed

  datatype AppSpec = AppSpec(app: Id, name: string, redirect: Option<string>)
  datatype AppPermissions = AppPermissions(app: Id, rows: seq<PermissionSpec>)
  datatype RoleSpec = RoleSpec(role: Id, app: Id, name: string, description: string, scopes: seq<ScopeSpec>)
  datatype GroupSpec = GroupSpec(group: Id, name: string, description: string, roles: seq<Id>)
  datatype UserSpec = UserSpec(user: Id, email: string, groups: seq<Id>, isAdmin: bool)

  /** One tenant's seed, with the settings it names (logo and redirects) already looked up. */
  datatype TenantSpec = TenantSpec(
    tenant: Id, name: string, domains: seq<string>, isPlatform: bool, style: string, primary: string,
    accent: string, logo: Option<string>, apps: seq<AppSpec>, permissions: seq<AppPermissions>,
    roles: seq<RoleSpec>, groups: seq<GroupSpec>, users: seq<UserSpec>)

  function DomainCommands(t: Id, domains: seq<string>): seq<Command> {
    if domains == [] then [] else [EnsureDomain(t, domains[0])] + DomainCommands(t, domains[1..])
  }

  function AppCommands(t: Id, apps: seq<AppSpec>): seq<Command> {
    if apps == [] then []
    else [EnsureApplication(t, apps[0].app, apps[0].name, apps[0].redirect)] + AppCommands(t, apps[1..])
  }

  function AllPermissionCommands(rows: seq<AppPermissions>): seq<Command> {
    if rows == [] then [] else PermissionCommands(rows[0].app, rows[0].rows) + AllPermissionCommands(rows[1..])
  }

  function AllRoleCommands(t: Id, roles: seq<RoleSpec>): seq<Command> {
    if roles == [] then []
    else RoleCommands(t, roles[0].role, roles[0].app, roles[0].name, roles[0].description, roles[0].scopes) + AllRoleCommands(t, roles[1..])
  }

  function AllGroupCommands(t: Id, groups: seq<GroupSpec>): seq<Command> {
    if groups == [] then []
    else GroupCommands(t, groups[0].group, groups[0].name, groups[0].description, groups[0].roles) + AllGroupCommands(t, groups[1..])
  }

  function UserCommands(t: Id, users: seq<UserSpec>): seq<Command> {
    if users == [] then []
    else [EnsureUser(t, users[0].user, users[0].email, users[0].groups, users[0].isAdmin)] + UserCommands(t, users[1..])
  }

  function TenantCommands(spec: TenantSpec): seq<Command> {
    [EnsureTenant(spec.tenant, spec.name, spec.isPlatform, spec.style, spec.primary, spec.accent)]
    + (if spec.logo.Some? then [EnsureLogo(spec.tenant, spec.logo.value)] else [])
    + DomainCommands(spec.tenant, spec.domains)
    + BootstrapConsole(spec.tenant)
    + AppCommands(spec.tenant, spec.apps)
    + AllPermissionCommands(spec.permissions)
    + AllRoleCommands(spec.tenant, spec.roles)
    + AllGroupCommands(spec.tenant, spec.groups)
    + UserCommands(spec.tenant, spec.users)
  }

  function AllTenantCommands(specs: seq<TenantSpec>): seq<Command> {
    if specs == [] then [] else TenantCommands(specs[0]) + AllTenantCommands(specs[1..])
  }

  function Program(specs: seq<TenantSpec>): seq<Command> {
    AllTenantCommands(specs) + [FillClientIds]
  }

  function SeedIdentity(d: Directory, specs: seq<TenantSpec>, rnd: Randoms): Option<Directory> {
    Run(d, Program(specs), rnd)
  }

  lemma {:induction false} RunAppend(d: Directory, a: seq<Command>, b: seq<Command>, rnd: Randoms)
    ensures Run(d, a + b, rnd) == (var d1 := Run(d, a, rnd); if d1.None? then None else Run(d1.value, b, rnd))
    decreases |a|
  {
    if a == [] {
      assert a + b == b;
    } else {
      assert (a + b)[0] == a[0] && (a + b)[1..] == a[1..] + b;
      var d1 := RunOne(d, a[0], rnd);
      if d1.Some? {
        RunAppend(d1.value, a[1..], b, rnd);
      }
    }
  }

  // ------------------------------------------------------------- inflationary

  ghost predicate Sub<K(!new), V>(a: map<K, V>, b: map<K, V>) {
    forall k :: k in a ==> k in b && b[k] == a[k]
  }

  ghost predicate SameApp(a: Application, b: Application) {
    && b.tenant == a.tenant && b.name == a.name && b.enabled == a.enabled && b.alwaysPasskey == a.alwaysPasskey
    && (a.clientId.Some? ==> b.clientId == a.clientId)
  }

  ghost predicate SameTenant(t: Id, a: Tenant, b: Tenant) {
    && b.name == a.name && b.isPlatform == a.isPlatform
    && b.branding.displayName == a.branding.displayName && b.branding.loginStyle == a.branding.loginStyle
    && b.branding.primary == a.branding.primary && b.branding.accent == a.branding.accent
    && (a.branding.logoUrl.Some? ==> b.branding.logoUrl == a.branding.logoUrl)
    && (b.consoleApp == a.consoleApp || b.consoleApp == Some(ConsoleId(t)))
    && (b.adminGroup == a.adminGroup || b.adminGroup == Some(AdminGroupId(t)))
  }

  ghost predicate KeepsApps(a: map<Id, Application>, b: map<Id, Application>) {
    forall k :: k in a ==> k in b && SameApp(a[k], b[k])
  }

  ghost predicate KeepsTenants(a: map<Id, Tenant>, b: map<Id, Tenant>) {
    forall t :: t in a ==> t in b && SameTenant(t, a[t], b[t])
  }

  /** A new user never takes an address of their tenant that was taken. */
  ghost predicate KeepsUsers(a: map<Id, User>, b: map<Id, User>) {
    && Sub(a, b)
    && (forall u :: u in b && u !in a ==> !EmailTaken(a, b[u].tenant, b[u].email))
  }

  /**
   Nothing is removed, re-owned or renamed. All seeding may change on a row it
   found is to give it a missing client id, a redirect, a missing logo, or its
   tenant's derived console.
   */
  ghost predicate Grew(d: Directory, d': Directory) {
    && KeepsTenants(d.tenants, d'.tenants) && KeepsApps(d.apps, d'.apps) && KeepsUsers(d.users, d'.users)
    && Sub(d.groups, d'.groups) && Sub(d.roles, d'.roles)
    && Sub(d.permissions, d'.permissions) && Sub(d.domains, d'.domains)
    && d.members <= d'.members && d.groupRoles <= d'.groupRoles && d.rolePermissions <= d'.rolePermissions
  }

  lemma GrewRefl(d: Directory)
    ensures Grew(d, d)
  {
  }

  lemma KeepsUsersTrans(a: map<Id, User>, b: map<Id, User>, c: map<Id, User>)
    requires KeepsUsers(a, b) && KeepsUsers(b, c)
    ensures KeepsUsers(a, c)
  {
  }

  lemma KeepsTenantsTrans(a: map<Id, Tenant>, b: map<Id, Tenant>, c: map<Id, Tenant>)
    requires KeepsTenants(a, b) && KeepsTenants(b, c)
    ensures KeepsTenants(a, c)
  {
  }

  lemma GrewTrans(a: Directory, b: Directory, c: Directory)
    requires Grew(a, b) && Grew(b, c)
    ensures Grew(a, c)
  {
    hide SameTenant, KeepsTenants, KeepsUsers;
    KeepsUsersTrans(a.users, b.users, c.users);
    KeepsTenantsTrans(a.tenants, b.tenants, c.tenants);
  }

  lemma TenantsOnly(d: Directory, tenants: map<Id, Tenant>)
    requires KeepsTenants(d.tenants, tenants)
    ensures Grew(d, d.(tenants := tenants))
  {
  }

  lemma AppsOnly(d: Directory, apps: map<Id, Application>)
    requires KeepsApps(d.apps, apps)
    ensures Grew(d, d.(apps := apps))
  {
  }

  lemma UsersOnly(d: Directory, users: map<Id, User>, members: set<Membership>)
    requires KeepsUsers(d.users, users) && d.members <= members
    ensures Grew(d, d.(users := users, members := members))
  {
  }

  lemma TenantGrows(d: Directory, c: Command)
    requires c.EnsureTenant? && TenantRow(d, c).Some?
    ensures Grew(d, TenantRow(d, c).value)
  {
    hide Grew, ConsoleId, AdminGroupId;
    GrewRefl(d);
    TenantsOnly(d, TenantRow(d, c).value.tenants);
  }

  lemma LogoGrows(d: Directory, t: Id, url: string)
    requires LogoOnce(d, t, url).Some?
    ensures Grew(d, LogoOnce(d, t, url).value)
  {
    hide Grew, ConsoleId, AdminGroupId;
    GrewRefl(d);
    TenantsOnly(d, LogoOnce(d, t, url).value.tenants);
  }

  lemma ConsoleGrows(d: Directory, t: Id)
    requires ConsoleSet(d, t).Some?
    ensures Grew(d, ConsoleSet(d, t).value)
  {
  }

  lemma ApplicationKeepsApps(d: Directory, t: Id, app: Id, name: string, redirect: Option<string>, rnd: Randoms)
    requires ApplicationRow(d, t, app, name, redirect, rnd).Some?
    ensures var d' := ApplicationRow(d, t, app, name, redirect, rnd).value; d' == d.(apps := d'.apps) && KeepsApps(d.apps, d'.apps)
  {
    hide NewClientId, ClientIdTaken;
  }

  lemma ApplicationGrows(d: Directory, t: Id, app: Id, name: string, redirect: Option<string>, rnd: Randoms)
    requires ApplicationRow(d, t, app, name, redirect, rnd).Some?
    ensures Grew(d, ApplicationRow(d, t, app, name, redirect, rnd).value)
  {
    hide Grew, ApplicationRow, KeepsApps;
    ApplicationKeepsApps(d, t, app, name, redirect, rnd);
    AppsOnly(d, ApplicationRow(d, t, app, name, redirect, rnd).value.apps);
  }

  lemma UserGrows(d: Directory, c: Command, rnd: Randoms)
    requires c.EnsureUser? && UserRow(d, c, rnd).Some?
    ensures Grew(d, UserRow(d, c, rnd).value)
  {
    hide Grew, NormaliseEmail;
    var d' := UserRow(d, c, rnd).value;
    UsersOnly(d, d'.users, d'.members);
    assert d' == d.(users := d'.users, members := d'.members);
  }

  lemma RowsGrow(d: Directory, c: Command)
    ensures c.EnsureDomain? && DomainRow(d, c.tenant, c.domain).Some? ==> Grew(d, DomainRow(d, c.tenant, c.domain).value)
    ensures c.EnsureScope? && ScopeRow(d, c.role, c.permission).Some? ==> Grew(d, ScopeRow(d, c.role, c.permission).value)
    ensures c.EnsureGroupRole? && GroupRoleRow(d, c.group, c.role).Some? ==> Grew(d, GroupRoleRow(d, c.group, c.role).value)
  {
    hide ConsoleId, AdminGroupId, EmailTaken;
  }

  lemma NamedRowsGrow(d: Directory, c: Command)
    ensures c.EnsurePermission? && PermissionRow(d, c).Some? ==> Grew(d, PermissionRow(d, c).value)
    ensures c.EnsureRole? && RoleRow(d, c).Some? ==> Grew(d, RoleRow(d, c).value)
    ensures c.EnsureGroup? && GroupRow(d, c).Some? ==> Grew(d, GroupRow(d, c).value)
  {
    hide SameTenant, SameApp, EmailTaken, PermissionId, ScopeTaken, RoleNameTaken, GroupNameTaken;
    GrewRefl(d);
  }

  lemma OneGrows(d: Directory, c: Command, rnd: Randoms)
    requires RunOne(d, c, rnd).Some?
    ensures Grew(d, RunOne(d, c, rnd).value)
  {
    hide Grew, TenantRow, LogoOnce, ConsoleSet, DomainRow, ApplicationRow, ScopeRow, GroupRoleRow, UserRow,
      PermissionRow, RoleRow, GroupRow, ClientIdsFilled;
    match c
    case EnsureConsole(t) => ApplicationGrows(d, t, ConsoleId(t), "Consola " + d.tenants[t].name, None, rnd);
    case EnsureApplication(t, app, name, redirect) => ApplicationGrows(d, t, app, name, redirect, rnd);
    case EnsureUser(_, _, _, _, _) => UserGrows(d, c, rnd);
    case SetConsole(t) => ConsoleGrows(d, t);
    case FillClientIds => FillingGrows(d, rnd);
    case EnsureTenant(_, _, _, _, _, _) => TenantGrows(d, c);
    case EnsureLogo(t, url) => LogoGrows(d, t, url);
    case _ =>
      RowsGrow(d, c);
      NamedRowsGrow(d, c);
  }

  lemma FillingGrows(d: Directory, rnd: Randoms)
    requires ClientIdsFilled(d, rnd).Some?
    ensures Grew(d, ClientIdsFilled(d, rnd).value)
  {
  }

  lemma {:induction false} RunGrows(d: Directory, cs: seq<Command>, rnd: Randoms)
    requires Run(d, cs, rnd).Some?
    ensures Grew(d, Run(d, cs, rnd).value)
    decreases |cs|
  {
    hide Grew, RunOne;
    if cs == [] {
      GrewRefl(d);
    } else {
      OneGrows(d, cs[0], rnd);
      RunGrows(RunOne(d, cs[0], rnd).value, cs[1..], rnd);
      GrewTrans(d, RunOne(d, cs[0], rnd).value, Run(d, cs, rnd).value);
    }
  }

  lemma RunKeepsTenants(d: Directory, cs: seq<Command>, rnd: Randoms)
    requires Run(d, cs, rnd).Some?
    ensures d.tenants.Keys <= Run(d, cs, rnd).value.tenants.Keys
  {
    hide Run, ConsoleId, AdminGroupId, EmailTaken;
    RunGrows(d, cs, rnd);
  }

  // ------------------------------------------------------------- idempotent

  /** What a command wanted is there. */
  ghost predicate Settled(d: Directory, c: Command) {
    match c
    case EnsureTenant(t, _, _, _, _, _) => t in d.tenants
    case EnsureLogo(t, _) => t in d.tenants && d.tenants[t].branding.logoUrl.Some?
    case EnsureDomain(_, domain) => domain in d.domains
    case EnsureConsole(t) => t in d.tenants && ConsoleId(t) in d.apps && d.apps[ConsoleId(t)].clientId.Some?
    case EnsureApplication(_, app, _, _) => app in d.apps && d.apps[app].clientId.Some?
    case EnsurePermission(app, resource, operation, _) => PermissionId(app, resource, operation) in d.permissions
    case EnsureRole(_, role, _, _, _) => role in d.roles
    case EnsureScope(role, p) => RolePermission(role, p) in d.rolePermissions
    case EnsureGroup(_, group, _, _) => group in d.groups
    case EnsureGroupRole(group, role) => GroupRole(group, role) in d.groupRoles
    case EnsureUser(t, user, email, groups, _) =>
      var e := NormaliseEmail(email);
      && EmailTaken(d.users, t, e)
      && (IsUser(d, t, user, e) ==> forall g :: g in groups ==> Membership(g, user) in d.members)
    case SetConsole(t) =>
      && ConsoleId(t) in d.apps && AdminGroupId(t) in d.groups
      && t in d.tenants && d.tenants[t].consoleApp == Some(ConsoleId(t)) && d.tenants[t].adminGroup == Some(AdminGroupId(t))
    case FillClientIds => (forall a :: a in d.apps ==> d.apps[a].clientId.Some?) && DistinctClientIds(d.apps)
  }

  /** The redirect a command writes whether or not the application was there. */
  function RedirectOf(c: Command, app: Id): Option<string> {
    if c.EnsureApplication? && c.app == app then c.redirect else None
  }

  function LastRedirect(cs: seq<Command>, app: Id): Option<string> {
    if cs == [] then None
    else
      var later := LastRedirect(cs[1..], app);
      if later.Some? then later else RedirectOf(cs[0], app)
  }

  function WithRedirects(d: Directory, cs: seq<Command>): Directory {
    d.(apps := map a | a in d.apps ::
      var r := LastRedirect(cs, a);
      if r.Some? then d.apps[a].(redirectUri := r) else d.apps[a])
  }

  lemma ApplicationSettles(d: Directory, t: Id, app: Id, name: string, redirect: Option<string>, rnd: Randoms)
    requires ApplicationRow(d, t, app, name, redirect, rnd).Some?
    ensures var d' := ApplicationRow(d, t, app, name, redirect, rnd).value;
      d'.tenants == d.tenants && app in d'.apps && d'.apps[app].clientId.Some?
  {
    hide NewClientId, ClientIdTaken;
  }

  lemma UserSettles(d: Directory, c: Command, rnd: Randoms)
    requires c.EnsureUser? && UserRow(d, c, rnd).Some?
    ensures Settled(UserRow(d, c, rnd).value, c)
  {
    hide NormaliseEmail;
    var d', e := UserRow(d, c, rnd).value, NormaliseEmail(c.email);
    if !EmailTaken(d.users, c.tenant, e) {
      assert IsUser(d', c.tenant, c.user, e);
    }
  }

  lemma OneSettles(d: Directory, c: Command, rnd: Randoms)
    requires RunOne(d, c, rnd).Some?
    ensures Settled(RunOne(d, c, rnd).value, c)
  {
    hide ConsoleId, AdminGroupId, PermissionId, NormaliseEmail, NewClientId, ClientIdTaken, ApplicationRow, UserRow;
    match c
    case EnsureConsole(t) => ApplicationSettles(d, t, ConsoleId(t), "Consola " + d.tenants[t].name, None, rnd);
    case EnsureApplication(t, app, name, redirect) => ApplicationSettles(d, t, app, name, redirect, rnd);
    case EnsureUser(_, _, _, _, _) => UserSettles(d, c, rnd);
    case _ =>
  }

  /** What is settled stays settled however the directory grows. */
  lemma SettledStays(d: Directory, d': Directory, c: Command)
    requires Settled(d, c) && !c.FillClientIds? && Grew(d, d')
    ensures Settled(d', c)
  {
    hide ConsoleId, AdminGroupId, PermissionId, NormaliseEmail;
    if c.EnsureUser? {
      var e := NormaliseEmail(c.email);
      var u :| u in d.users && d.users[u].tenant == c.tenant && d.users[u].email == e;
      assert IsUser(d', c.tenant, u, e);
    }
  }

  ghost predicate AllSettled(d: Directory, cs: seq<Command>) {
    forall i :: 0 <= i < |cs| ==> Settled(d, cs[i])
  }

  ghost predicate FillsLast(cs: seq<Command>) {
    forall i :: 0 <= i < |cs| - 1 ==> !cs[i].FillClientIds?
  }

  lemma {:induction false} RunSettles(d: Directory, cs: seq<Command>, rnd: Randoms)
    requires Run(d, cs, rnd).Some? && FillsLast(cs)
    ensures AllSettled(Run(d, cs, rnd).value, cs)
    decreases |cs|
  {
    if cs != [] {
      var d1 := RunOne(d, cs[0], rnd).value;
      var rest := cs[1..];
      assert FillsLast(rest);
      RunSettles(d1, rest, rnd);
      OneSettles(d, cs[0], rnd);
      var end := Run(d, cs, rnd).value;
      RunGrows(d1, rest, rnd);
      if rest != [] {
        SettledStays(d1, end, cs[0]);
      }
      forall i | 0 <= i < |cs| ensures Settled(end, cs[i]) {
        if i > 0 { assert cs[i] == rest[i - 1]; }
      }
    }
  }

  lemma OneWritesRedirect(d: Directory, c: Command)
    ensures (!c.EnsureApplication? || c.redirect.None?) ==> WithRedirects(d, [c]) == d
    ensures c.EnsureApplication? && c.redirect.Some? && c.app in d.apps ==>
      WithRedirects(d, [c]) == d.(apps := d.apps[c.app := d.apps[c.app].(redirectUri := c.redirect)])
  {
    assert forall a :: LastRedirect([c], a) == RedirectOf(c, a);
    var d' := WithRedirects(d, [c]);
    if !c.EnsureApplication? || c.redirect.None? {
      assert d'.apps == d.apps;
    } else if c.app in d.apps {
      assert d'.apps == d.apps[c.app := d.apps[c.app].(redirectUri := c.redirect)];
    }
  }

  lemma ApplicationAgain(d: Directory, t: Id, app: Id, name: string, redirect: Option<string>, rnd: Randoms)
    requires app in d.apps && d.apps[app].clientId.Some?
    ensures ApplicationRow(d, t, app, name, redirect, rnd) ==
      Some(if redirect.Some? then d.(apps := d.apps[app := d.apps[app].(redirectUri := redirect)]) else d)
  {
    hide NewClientId, ClientIdTaken;
    if redirect.None? { assert d.apps[app := d.apps[app]] == d.apps; }
  }

  lemma UserAgain(d: Directory, c: Command, rnd: Randoms)
    requires c.EnsureUser? && Settled(d, c)
    ensures UserRow(d, c, rnd) == Some(d)
  {
    hide NormaliseEmail;
    if IsUser(d, c.tenant, c.user, NormaliseEmail(c.email)) {
      assert d.members + (set g | g in c.groups :: Membership(g, c.user)) == d.members;
    }
  }

  lemma RestAgain(d: Directory, c: Command, rnd: Randoms)
    requires Settled(d, c) && (c.SetConsole? || c.FillClientIds?)
    ensures c.SetConsole? ==> ConsoleSet(d, c.tenant) == Some(d)
    ensures c.FillClientIds? ==> ClientIdsFilled(d, rnd) == Some(d)
  {
    hide ConsoleId, AdminGroupId, NewClientId, NormaliseEmail, PermissionId, EmailTaken;
    if c.SetConsole? {
      assert d.tenants == d.tenants[c.tenant := d.tenants[c.tenant].(
        consoleApp := Some(ConsoleId(c.tenant)), adminGroup := Some(AdminGroupId(c.tenant)))];
    } else {
      assert FilledClientIds(d.apps, rnd) == d.apps;
    }
  }

  /** Running a settled command again changes nothing but the redirect it writes. */
  lemma OneRerun(d: Directory, c: Command, rnd: Randoms)
    requires Settled(d, c)
    ensures RunOne(d, c, rnd) == Some(WithRedirects(d, [c]))
  {
    hide WithRedirects, ApplicationRow, UserRow, ConsoleSet, ClientIdsFilled, ConsoleId, AdminGroupId, PermissionId, NormaliseEmail,
      EmailTaken, IsUser, DistinctClientIds;
    OneWritesRedirect(d, c);
    match c
    case EnsureApplication(t, app, name, redirect) => ApplicationAgain(d, t, app, name, redirect, rnd);
    case EnsureConsole(t) => ApplicationAgain(d, t, ConsoleId(t), "Consola " + d.tenants[t].name, None, rnd);
    case EnsureUser(_, _, _, _, _) => UserAgain(d, c, rnd);
    case SetConsole(_) => RestAgain(d, c, rnd);
    case FillClientIds => RestAgain(d, c, rnd);
    case _ =>
  }

  lemma RedirectsCompose(d: Directory, cs: seq<Command>)
    requires cs != []
    ensures WithRedirects(WithRedirects(d, cs[..1]), cs[1..]) == WithRedirects(d, cs)
  {
    var l, r := WithRedirects(WithRedirects(d, cs[..1]), cs[1..]), WithRedirects(d, cs);
    forall a | a in d.apps ensures l.apps[a] == r.apps[a] {
      assert LastRedirect(cs[..1], a) == RedirectOf(cs[0], a);
    }
    assert l.apps == r.apps;
  }

  lemma {:induction false} Rerun(d: Directory, cs: seq<Command>, rnd: Randoms)
    requires AllSettled(d, cs)
    ensures Run(d, cs, rnd) == Some(WithRedirects(d, cs))
    decreases |cs|
  {
    if cs == [] {
      assert WithRedirects(d, cs).apps == d.apps;
    } else {
      OneRerun(d, cs[0], rnd);
      assert cs[..1] == [cs[0]];
      var d1 := WithRedirects(d, cs[..1]);
      forall i | 0 <= i < |cs[1..]| ensures Settled(d1, cs[1..][i]) {
        assert Settled(d, cs[i + 1]);
        assert forall a :: a in d.apps ==> d1.apps[a].clientId == d.apps[a].clientId;
      }
      Rerun(d1, cs[1..], rnd);
      RedirectsCompose(d, cs);
    }
  }

  lemma ApplicationRedirect(d: Directory, t: Id, app: Id, name: string, redirect: Option<string>, rnd: Randoms, a: Id)
    requires ApplicationRow(d, t, app, name, redirect, rnd).Some?
    ensures var apps := ApplicationRow(d, t, app, name, redirect, rnd).value.apps;
      && (a == app && redirect.Some? ==> a in apps && apps[a].redirectUri == redirect)
      && (a in d.apps && (a != app || redirect.None?) ==> a in apps && apps[a].redirectUri == d.apps[a].redirectUri)
  {
    hide NewClientId, ClientIdTaken;
  }

  lemma OneRedirect(d: Directory, c: Command, rnd: Randoms, a: Id)
    requires RunOne(d, c, rnd).Some?
    ensures var apps := RunOne(d, c, rnd).value.apps;
      && (RedirectOf(c, a).Some? ==> a in apps && apps[a].redirectUri == RedirectOf(c, a))
      && (RedirectOf(c, a).None? && a in d.apps ==> a in apps && apps[a].redirectUri == d.apps[a].redirectUri)
  {
    hide ConsoleId, AdminGroupId, PermissionId, NormaliseEmail, NewClientId, ApplicationRow, DistinctClientIds,
      EmailTaken, ScopeTaken, RoleNameTaken, GroupNameTaken;
    match c
    case EnsureConsole(t) => ApplicationRedirect(d, t, ConsoleId(t), "Consola " + d.tenants[t].name, None, rnd, a);
    case EnsureApplication(t, app, name, redirect) => ApplicationRedirect(d, t, app, name, redirect, rnd, a);
    case _ =>
  }

  /** A run leaves each application with the last redirect written to it, or the one it had. */
  lemma {:induction false} RedirectsWritten(d: Directory, cs: seq<Command>, rnd: Randoms, a: Id)
    requires Run(d, cs, rnd).Some?
    ensures var apps := Run(d, cs, rnd).value.apps;
      && (LastRedirect(cs, a).Some? ==> a in apps && apps[a].redirectUri == LastRedirect(cs, a))
      && (LastRedirect(cs, a).None? && a in d.apps ==> a in apps && apps[a].redirectUri == d.apps[a].redirectUri)
    decreases |cs|
  {
    hide RunOne, Grew, RedirectOf;
    if cs != [] {
      OneRedirect(d, cs[0], rnd, a);
      RedirectsWritten(RunOne(d, cs[0], rnd).value, cs[1..], rnd, a);
    }
  }

  lemma RunTwice(d: Directory, cs: seq<Command>, rnd: Randoms, again: Randoms)
    requires FillsLast(cs) && Run(d, cs, rnd).Some?
    ensures Run(Run(d, cs, rnd).value, cs, again) == Run(d, cs, rnd)
  {
    hide Run;
    var end := Run(d, cs, rnd).value;
    RunSettles(d, cs, rnd);
    Rerun(end, cs, again);
    forall a | a in end.apps ensures WithRedirects(end, cs).apps[a] == end.apps[a] {
      RedirectsWritten(d, cs, rnd, a);
    }
    assert WithRedirects(end, cs).apps == end.apps;
  }

  lemma ProgramFillsLast(specs: seq<TenantSpec>)
    ensures FillsLast(Program(specs))
  {
    hide AllTenantCommands;
    NeverFills(specs);
  }

  ghost predicate NoFill(cs: seq<Command>) {
    forall i :: 0 <= i < |cs| ==> !cs[i].FillClientIds?
  }

  lemma {:induction cs} NoFillPermissions(app: Id, cs: seq<PermissionSpec>) ensures NoFill(PermissionCommands(app, cs)) {}
  lemma {:induction cs} NoFillScopes(role: Id, app: Id, cs: seq<ScopeSpec>) ensures NoFill(ScopeCommands(role, app, cs)) {}
  lemma {:induction cs} NoFillGroupRoles(g: Id, cs: seq<Id>) ensures NoFill(GroupRoleCommands(g, cs)) {}
  lemma {:induction cs} NoFillDomains(t: Id, cs: seq<string>) ensures NoFill(DomainCommands(t, cs)) {}
  lemma {:induction cs} NoFillApps(t: Id, cs: seq<AppSpec>) ensures NoFill(AppCommands(t, cs)) {}
  lemma {:induction cs} NoFillUsers(t: Id, cs: seq<UserSpec>) ensures NoFill(UserCommands(t, cs)) {}

  lemma NoFillAllPermissions(cs: seq<AppPermissions>)
    ensures NoFill(AllPermissionCommands(cs))
  {
    if cs != [] { NoFillPermissions(cs[0].app, cs[0].rows); NoFillAllPermissions(cs[1..]); }
  }

  lemma NoFillRoles(t: Id, cs: seq<RoleSpec>)
    ensures NoFill(AllRoleCommands(t, cs))
  {
    if cs != [] { NoFillScopes(cs[0].role, cs[0].app, cs[0].scopes); NoFillRoles(t, cs[1..]); }
  }

  lemma NoFillGroups(t: Id, cs: seq<GroupSpec>)
    ensures NoFill(AllGroupCommands(t, cs))
  {
    if cs != [] { NoFillGroupRoles(cs[0].group, cs[0].roles); NoFillGroups(t, cs[1..]); }
  }

  lemma NoFillBootstrap(t: Id)
    ensures NoFill(BootstrapConsole(t))
  {
    NoFillPermissions(ConsoleId(t), CONSOLE_PERMISSIONS);
    NoFillScopes(AdminRoleId(t), ConsoleId(t), TENANT_ADMIN_SCOPES);
    NoFillScopes(SupportRoleId(t), ConsoleId(t), SUPPORT_SCOPES);
    NoFillGroupRoles(AdminGroupId(t), [AdminRoleId(t)]);
  }

  lemma NeverFills(specs: seq<TenantSpec>)
    ensures NoFill(AllTenantCommands(specs))
  {
    hide BootstrapConsole, PermissionCommands, DomainCommands, AppCommands, AllPermissionCommands, AllRoleCommands,
      AllGroupCommands, UserCommands;
    if specs != [] {
      var s := specs[0];
      NoFillDomains(s.tenant, s.domains);
      NoFillBootstrap(s.tenant);
      NoFillApps(s.tenant, s.apps);
      NoFillAllPermissions(s.permissions);
      NoFillRoles(s.tenant, s.roles);
      NoFillGroups(s.tenant, s.groups);
      NoFillUsers(s.tenant, s.users);
      NeverFills(specs[1..]);
    }
  }

  /** Whatever it seeds, a second run with the same settings changes nothing, even with other randoms. */
  lemma SeedIsIdempotent(d: Directory, specs: seq<TenantSpec>, rnd: Randoms, again: Randoms)
    requires SeedIdentity(d, specs, rnd).Some?
    ensures SeedIdentity(SeedIdentity(d, specs, rnd).value, specs, again) == SeedIdentity(d, specs, rnd)
  {
    hide Program, Run;
    ProgramFillsLast(specs);
    RunTwice(d, Program(specs), rnd, again);
  }

  /** Seeding never removes or re-owns a row. */
  lemma SeedIsInflationary(d: Directory, specs: seq<TenantSpec>, rnd: Randoms)
    requires SeedIdentity(d, specs, rnd).Some?
    ensures Grew(d, SeedIdentity(d, specs, rnd).value)
    ensures Stable(d, SeedIdentity(d, specs, rnd).value)
  {
    hide Program, Run, ConsoleId, AdminGroupId;
    RunGrows(d, Program(specs), rnd);
  }
}
