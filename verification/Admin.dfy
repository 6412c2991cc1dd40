/**
 The admin API: every request is an `Operator` acting on one tenant, and every
 function below is one transaction, from the store before to the store after.
 A request that is refused leaves the store as it was.
 */
module Admin {
  import opened Wrappers
  import opened Models
  import opened Authz
  import Seed

  /** Who acts, for which tenant and with what rights, once the guard has let the request through. */
  datatype Operator = Operator(user: Id, home: Id, tenant: Id, permissions: set<string>, platform: bool)

  // ------------------------------------------------------------- answers

  datatype GroupRef = GroupRef(group: Id, name: string)
  datatype UserPublic = UserPublic(
    tenant: Id, user: Id, email: string, enabled: bool, isAdmin: bool, groups: set<GroupRef>,
    passkeys: nat, lastLogin: Option<Time>, alwaysPasskey: bool)
  datatype MemberRef = MemberRef(user: Id, email: string)
  datatype RoleRef = RoleRef(role: Id, app: Id, name: string)
  datatype GroupPublic = GroupPublic(tenant: Id, group: Id, name: string, description: string, memberCount: nat)
  datatype GroupDetail = GroupDetail(summary: GroupPublic, members: set<MemberRef>, roles: set<RoleRef>)
  datatype PermissionPublic = PermissionPublic(permission: Id, row: Permission)
  datatype RolePublic = RolePublic(tenant: Id, role: Id, app: Id, name: string, description: string, permissionCount: nat)
  datatype RoleDetail = RoleDetail(summary: RolePublic, permissions: set<PermissionPublic>)
  datatype TenantPublic = TenantPublic(tenant: Id, name: string, domains: set<string>, branding: Branding, isPlatform: bool)

  datatype Answer =
    | UserAnswer(user: UserPublic)
    | UsersAnswer(users: map<Id, UserPublic>)
    | AppAnswer(app: Id, row: Application)
    | AppsAnswer(apps: map<Id, Application>)
    | GroupAnswer(group: GroupDetail)
    | GroupsAnswer(groups: map<Id, GroupPublic>)
    | RoleAnswer(role: RoleDetail)
    | RolesAnswer(roles: map<Id, RolePublic>)
    | PermissionAnswer(permission: PermissionPublic)
    | PermissionsAnswer(permissions: map<Id, Permission>)
    | CodeAnswer(holder: Id, expiresAt: Time)
    | TenantAnswer(tenant: TenantPublic)
    | NoContent

  function GroupRefs(d: Directory, u: Id): set<GroupRef> {
    set m | m in d.members && m.user == u && m.group in d.groups :: GroupRef(m.group, d.groups[m.group].name)
  }

  function PasskeysOf(credentials: map<Id, Credential>, u: Id): set<Id> {
    set c | c in credentials && credentials[c].user == u
  }

  function PublicUser(s: Store, u: Id): UserPublic
    requires u in s.dir.users
  {
    var row := s.dir.users[u];
    UserPublic(row.tenant, u, row.email, row.enabled, row.isAdmin, GroupRefs(s.dir, u),
      |PasskeysOf(s.auth.credentials, u)|, row.lastLogin, row.alwaysPasskey)
  }

  function MembershipsOf(d: Directory, g: Id): set<Membership> { set m | m in d.members && m.group == g }

  function PublicGroup(d: Directory, g: Id): GroupPublic
    requires g in d.groups
  {
    GroupPublic(d.groups[g].tenant, g, d.groups[g].name, d.groups[g].description, |MembershipsOf(d, g)|)
  }

  function MemberRefs(d: Directory, g: Id): set<MemberRef> {
    set m | m in d.members && m.group == g ::
      MemberRef(m.user, if m.user in d.users then d.users[m.user].email else m.user)
  }

  function RoleRefs(d: Directory, g: Id): set<RoleRef> {
    set gr | gr in d.groupRoles && gr.group == g && gr.role in d.roles ::
      RoleRef(gr.role, d.roles[gr.role].app, d.roles[gr.role].name)
  }

  function DetailedGroup(d: Directory, g: Id): GroupDetail
    requires g in d.groups
  {
    GroupDetail(PublicGroup(d, g), MemberRefs(d, g), RoleRefs(d, g))
  }

  function LinksOf(d: Directory, r: Id): set<RolePermission> { set rp | rp in d.rolePermissions && rp.role == r }

  function PublicRole(d: Directory, r: Id): RolePublic
    requires r in d.roles
  {
    RolePublic(d.roles[r].tenant, r, d.roles[r].app, d.roles[r].name, d.roles[r].description, |LinksOf(d, r)|)
  }

  function PermissionsOf(d: Directory, r: Id): set<PermissionPublic> {
    set rp | rp in d.rolePermissions && rp.role == r && rp.permission in d.permissions ::
      PermissionPublic(rp.permission, d.permissions[rp.permission])
  }

  function DetailedRole(d: Directory, r: Id): RoleDetail
    requires r in d.roles
  {
    RoleDetail(PublicRole(d, r), PermissionsOf(d, r))
  }

  function PublicTenant(d: Directory, t: Id): TenantPublic
    requires t in d.tenants
  {
    TenantPublic(t, d.tenants[t].name, (set x | x in d.domains && d.domains[x] == t),
      d.tenants[t].branding, d.tenants[t].isPlatform)
  }

  // ------------------------------------------------------------- tenant-scoped lookups

  /** Another tenant's row answers like a missing one. */
  predicate OwnsUser(d: Directory, t: Id, u: Id) { u in d.users && d.users[u].tenant == t }
  predicate OwnsApp(d: Directory, t: Id, a: Id) { a in d.apps && d.apps[a].tenant == t }
  predicate OwnsGroup(d: Directory, t: Id, g: Id) { g in d.groups && d.groups[g].tenant == t }
  predicate OwnsRole(d: Directory, t: Id, r: Id) { r in d.roles && d.roles[r].tenant == t }

  const UNKNOWN_USER: Result<Answer> := Err(404, "unknown user")
  const UNKNOWN_APP: Result<Answer> := Err(404, "unknown application")
  const UNKNOWN_GROUP: Result<Answer> := Err(404, "unknown group")
  const UNKNOWN_ROLE: Result<Answer> := Err(404, "unknown role")
  const UNKNOWN_TENANT: Result<Answer> := Err(404, "unknown tenant")
  /** An integrity error nothing catches. */
  const CRASH: Result<Answer> := Err(500, "integrity error")

  // ------------------------------------------------------------- users

  function ListUsers(s: Store, op: Operator): Result<Answer> {
    Ok(UsersAnswer(map u | u in s.dir.users && s.dir.users[u].tenant == op.tenant :: PublicUser(s, u)))
  }

  /** The memberships once the flag has been carried over to the admin group; without such a group nothing happens. */
  function SyncAdminFlag(d: Directory, tenant: Tenant, u: Id, isAdmin: bool): set<Membership> {
    if tenant.adminGroup.None? || tenant.adminGroup.value !in d.groups then d.members
    else if isAdmin then d.members + {Membership(tenant.adminGroup.value, u)}
    else d.members - {Membership(tenant.adminGroup.value, u)}
  }

  function CreateUser(s: Store, op: Operator, u: Id, email: string, digest: string, isAdmin: bool): (Store, Result<Answer>) {
    var e := NormaliseEmail(email);
    if op.tenant !in s.dir.tenants then (s, UNKNOWN_TENANT)
    else if Seed.EmailTaken(s.dir.users, op.tenant, e) || u in s.dir.users then (s, Err(409, "email already exists"))
    else
      var d := s.dir.(users := s.dir.users[u := User(op.tenant, e, digest, true, isAdmin, false, None)]);
      var s' := s.(dir := d.(members := SyncAdminFlag(d, d.tenants[op.tenant], u, isAdmin)));
      (s', Ok(UserAnswer(PublicUser(s', u))))
  }

  datatype UserPatch = UserPatch(
    enabled: Option<bool>, isAdmin: Option<bool>, digest: Option<string>, alwaysPasskey: Option<bool>)

  function PatchedUser(row: User, p: UserPatch): User {
    row.(enabled := p.enabled.GetOr(row.enabled), isAdmin := p.isAdmin.GetOr(row.isAdmin),
         passwordHash := p.digest.GetOr(row.passwordHash), alwaysPasskey := p.alwaysPasskey.GetOr(row.alwaysPasskey))
  }

  function PatchUser(s: Store, op: Operator, u: Id, p: UserPatch): (Store, Result<Answer>) {
    if !OwnsUser(s.dir, op.tenant, u) then (s, UNKNOWN_USER)
    else if p.isAdmin.Some? && op.tenant !in s.dir.tenants then (s, UNKNOWN_TENANT)
    else
      var d := s.dir.(users := s.dir.users[u := PatchedUser(s.dir.users[u], p)]);
      var members := if p.isAdmin.Some? then SyncAdminFlag(d, d.tenants[op.tenant], u, p.isAdmin.value) else d.members;
      var s' := s.(dir := d.(members := members));
      (s', Ok(UserAnswer(PublicUser(s', u))))
  }

  /** Every earlier unused code of the user is consumed, then the new one is added. */
  function IssuedCode(codes: map<string, ActivationCode>, u: Id, issuedBy: string, now: Time, ttl: int, hash: string): map<string, ActivationCode> {
    (map c | c in codes ::
      if codes[c].user == u && codes[c].consumedAt.None? then codes[c].(consumedAt := Some(now)) else codes[c])
    [hash := ActivationCode(u, issuedBy, now + ttl, None, None)]
  }

  function IssueActivationCode(s: Store, op: Operator, u: Id, hash: string, now: Time, ttl: int): (Store, Result<Answer>) {
    if !OwnsUser(s.dir, op.tenant, u) then (s, UNKNOWN_USER)
    else if !s.dir.users[u].enabled then (s, Err(409, "user is disabled"))
    else if hash in s.auth.activations then (s, CRASH)
    else
      (s.(auth := s.auth.(activations := IssuedCode(s.auth.activations, u, op.user, now, ttl, hash))),
       Ok(CodeAnswer(u, now + ttl)))
  }

  // ------------------------------------------------------------- applications

  function ListApplications(s: Store, op: Operator): Result<Answer> {
    Ok(AppsAnswer(map a | a in s.dir.apps && s.dir.apps[a].tenant == op.tenant :: s.dir.apps[a]))
  }

  function CreateApplication(s: Store, op: Operator, a: Id, clientId: string, name: string, redirect: Option<string>): (Store, Result<Answer>) {
    if a in s.dir.apps then (s, Err(409, "application_id already exists"))
    else if op.tenant !in s.dir.tenants || Seed.ClientIdTaken(s.dir.apps, clientId) then (s, CRASH)
    else
      var row := Application(Some(clientId), op.tenant, name, true, redirect, false);
      (s.(dir := s.dir.(apps := s.dir.apps[a := row])), Ok(AppAnswer(a, row)))
  }

  datatype AppPatch = AppPatch(
    name: Option<string>, enabled: Option<bool>, redirect: Option<string>, alwaysPasskey: Option<bool>)

  function PatchedApp(row: Application, p: AppPatch): Application {
    row.(name := p.name.GetOr(row.name), enabled := p.enabled.GetOr(row.enabled),
         redirectUri := if p.redirect.None? then row.redirectUri else if p.redirect.value == "" then None else p.redirect,
         alwaysPasskey := p.alwaysPasskey.GetOr(row.alwaysPasskey))
  }

  /** Refuses the one change nobody could take back: switching off the application it is made from. */
  function PatchApplication(s: Store, op: Operator, a: Id, p: AppPatch): (Store, Result<Answer>) {
    if !OwnsApp(s.dir, op.tenant, a) then (s, UNKNOWN_APP)
    else if op.tenant !in s.dir.tenants then (s, UNKNOWN_TENANT)
    else if p.enabled == Some(false) && s.dir.tenants[op.tenant].consoleApp == Some(a) then
      (s, Err(409, "the console cannot be disabled"))
    else
      var row := PatchedApp(s.dir.apps[a], p);
      (s.(dir := s.dir.(apps := s.dir.apps[a := row])), Ok(AppAnswer(a, row)))
  }

  // ------------------------------------------------------------- groups

  function ListGroups(s: Store, op: Operator): Result<Answer> {
    Ok(GroupsAnswer(map g | g in s.dir.groups && s.dir.groups[g].tenant == op.tenant :: PublicGroup(s.dir, g)))
  }

  function GetGroup(s: Store, op: Operator, g: Id): Result<Answer> {
    if OwnsGroup(s.dir, op.tenant, g) then Ok(GroupAnswer(DetailedGroup(s.dir, g))) else UNKNOWN_GROUP
  }

  /** The answer of every operation that changes a group it owns. */
  function WithGroup(s: Store, d: Directory, g: Id): (Store, Result<Answer>)
    requires g in d.groups
  {
    (s.(dir := d), Ok(GroupAnswer(DetailedGroup(d, g))))
  }

  function CreateGroup(s: Store, op: Operator, g: Id, name: string, description: string): (Store, Result<Answer>) {
    if g in s.dir.groups then (s, Err(409, "group_id already exists"))
    else if Seed.GroupNameTaken(s.dir.groups, op.tenant, name) then (s, Err(409, "group name already exists"))
    else if op.tenant !in s.dir.tenants then (s, Err(409, "group_id or name already exists"))
    else WithGroup(s, s.dir.(groups := s.dir.groups[g := Group(op.tenant, name, description)]), g)
  }

  predicate OtherGroupNamed(groups: map<Id, Group>, t: Id, name: string, g: Id) {
    exists h :: h in groups && h != g && groups[h].tenant == t && groups[h].name == name
  }

  function PatchGroup(s: Store, op: Operator, g: Id, name: Option<string>, description: Option<string>): (Store, Result<Answer>) {
    if !OwnsGroup(s.dir, op.tenant, g) then (s, UNKNOWN_GROUP)
    else if name.Some? && OtherGroupNamed(s.dir.groups, op.tenant, name.value, g) then (s, Err(409, "group name already exists"))
    else
      var row := s.dir.groups[g];
      WithGroup(s, s.dir.(groups := s.dir.groups[g :=
        row.(name := name.GetOr(row.name), description := description.GetOr(row.description))]), g)
  }

  function WithoutGroup(d: Directory, g: Id): Directory {
    d.(members := (set m | m in d.members && m.group != g),
       groupRoles := (set gr | gr in d.groupRoles && gr.group != g),
       groups := d.groups - {g})
  }

  function DeleteGroup(s: Store, op: Operator, g: Id): (Store, Result<Answer>) {
    if !OwnsGroup(s.dir, op.tenant, g) then (s, UNKNOWN_GROUP)
    else if op.tenant !in s.dir.tenants then (s, UNKNOWN_TENANT)
    else if s.dir.tenants[op.tenant].adminGroup == Some(g) then (s, Err(409, "the admin group cannot be deleted"))
    else (s.(dir := WithoutGroup(s.dir, g)), Ok(NoContent))
  }

  function AddMember(s: Store, op: Operator, g: Id, u: Id): (Store, Result<Answer>) {
    if !OwnsGroup(s.dir, op.tenant, g) then (s, UNKNOWN_GROUP)
    else if !OwnsUser(s.dir, op.tenant, u) then (s, UNKNOWN_USER)
    else if Membership(g, u) in s.dir.members then (s, Err(409, "user is already a member"))
    else WithGroup(s, s.dir.(members := s.dir.members + {Membership(g, u)}), g)
  }

  function RemoveMember(s: Store, op: Operator, g: Id, u: Id): (Store, Result<Answer>) {
    if !OwnsGroup(s.dir, op.tenant, g) then (s, UNKNOWN_GROUP)
    else if Membership(g, u) !in s.dir.members then (s, Err(404, "unknown membership"))
    else WithGroup(s, s.dir.(members := s.dir.members - {Membership(g, u)}), g)
  }

  function AddGroupRole(s: Store, op: Operator, g: Id, r: Id): (Store, Result<Answer>) {
    if !OwnsGroup(s.dir, op.tenant, g) then (s, UNKNOWN_GROUP)
    else if !OwnsRole(s.dir, op.tenant, r) then (s, UNKNOWN_ROLE)
    else if GroupRole(g, r) in s.dir.groupRoles then (s, Err(409, "role already assigned"))
    else WithGroup(s, s.dir.(groupRoles := s.dir.groupRoles + {GroupRole(g, r)}), g)
  }

  function RemoveGroupRole(s: Store, op: Operator, g: Id, r: Id): (Store, Result<Answer>) {
    if !OwnsGroup(s.dir, op.tenant, g) then (s, UNKNOWN_GROUP)
    else if GroupRole(g, r) !in s.dir.groupRoles then (s, Err(404, "unknown role assignment"))
    else WithGroup(s, s.dir.(groupRoles := s.dir.groupRoles - {GroupRole(g, r)}), g)
  }

  // ------------------------------------------------------------- roles

  function ListRoles(s: Store, op: Operator, app: Option<Id>): Result<Answer> {
    Ok(RolesAnswer(map r | r in s.dir.roles && s.dir.roles[r].tenant == op.tenant && (app.Some? ==> s.dir.roles[r].app == app.value)
      :: PublicRole(s.dir, r)))
  }

  function GetRole(s: Store, op: Operator, r: Id): Result<Answer> {
    if OwnsRole(s.dir, op.tenant, r) then Ok(RoleAnswer(DetailedRole(s.dir, r))) else UNKNOWN_ROLE
  }

  function WithRole(s: Store, d: Directory, r: Id): (Store, Result<Answer>)
    requires r in d.roles
  {
    (s.(dir := d), Ok(RoleAnswer(DetailedRole(d, r))))
  }

  function CreateRole(s: Store, op: Operator, r: Id, app: Id, name: string, description: string): (Store, Result<Answer>) {
    if !OwnsApp(s.dir, op.tenant, app) then (s, UNKNOWN_APP)
    else if r in s.dir.roles then (s, Err(409, "role_id already exists"))
    else if Seed.RoleNameTaken(s.dir.roles, app, name) then (s, Err(409, "role name already exists for this application"))
    else WithRole(s, s.dir.(roles := s.dir.roles[r := Role(op.tenant, app, name, description)]), r)
  }

  predicate OtherRoleNamed(roles: map<Id, Role>, app: Id, name: string, r: Id) {
    exists q :: q in roles && q != r && roles[q].app == app && roles[q].name == name
  }

  function PatchRole(s: Store, op: Operator, r: Id, name: Option<string>, description: Option<string>): (Store, Result<Answer>) {
    if !OwnsRole(s.dir, op.tenant, r) then (s, UNKNOWN_ROLE)
    else if name.Some? && OtherRoleNamed(s.dir.roles, s.dir.roles[r].app, name.value, r) then
      (s, Err(409, "role name already exists for this application"))
    else
      var row := s.dir.roles[r];
      WithRole(s, s.dir.(roles := s.dir.roles[r :=
        row.(name := name.GetOr(row.name), description := description.GetOr(row.description))]), r)
  }

  function WithoutRole(d: Directory, r: Id): Directory {
    d.(rolePermissions := (set rp | rp in d.rolePermissions && rp.role != r),
       groupRoles := (set gr | gr in d.groupRoles && gr.role != r),
       roles := d.roles - {r})
  }

  function DeleteRole(s: Store, op: Operator, r: Id): (Store, Result<Answer>) {
    if !OwnsRole(s.dir, op.tenant, r) then (s, UNKNOWN_ROLE)
    else (s.(dir := WithoutRole(s.dir, r)), Ok(NoContent))
  }

  /** Exists on an application of this tenant; all others look alike. */
  predicate KnownPermission(d: Directory, t: Id, p: Id) {
    p in d.permissions && OwnsApp(d, t, d.permissions[p].app)
  }

  function SetRolePermissions(s: Store, op: Operator, r: Id, wanted: set<Id>): (Store, Result<Answer>) {
    if !OwnsRole(s.dir, op.tenant, r) then (s, UNKNOWN_ROLE)
    else if exists p :: p in wanted && !KnownPermission(s.dir, op.tenant, p) then (s, Err(404, "unknown permission(s)"))
    else if exists p :: p in wanted && s.dir.permissions[p].app != s.dir.roles[r].app then
      (s, Err(422, "permission(s) belong to a different application"))
    else WithRole(s, WithRolePermissions(s.dir, r, wanted), r)
  }

  // ------------------------------------------------------------- permissions

  function ListPermissions(s: Store, op: Operator, app: Option<Id>): Result<Answer> {
    Ok(PermissionsAnswer(map p |
      p in s.dir.permissions && OwnsApp(s.dir, op.tenant, s.dir.permissions[p].app) &&
      (app.Some? ==> s.dir.permissions[p].app == app.value) :: s.dir.permissions[p]))
  }

  function CreatePermission(s: Store, op: Operator, app: Id, resource: string, operation: string, description: string): (Store, Result<Answer>) {
    var p := Seed.PermissionId(app, resource, operation);
    if !OwnsApp(s.dir, op.tenant, app) then (s, UNKNOWN_APP)
    else if p in s.dir.permissions || Seed.ScopeTaken(s.dir.permissions, app, resource, operation) then
      (s, Err(409, "permission already exists"))
    else
      var row := Permission(app, resource, operation, description);
      (s.(dir := s.dir.(permissions := s.dir.permissions[p := row])), Ok(PermissionAnswer(PermissionPublic(p, row))))
  }

  // ------------------------------------------------------------- one request

  /** The tenant-scoped requests. Generated ids, digests and times are part of the call. */
  datatype Call =
    | CallCurrentTenant
    | CallListUsers
    | CallCreateUser(user: Id, email: string, digest: string, isAdmin: bool)
    | CallPatchUser(user: Id, userPatch: UserPatch)
    | CallIssueCode(user: Id, hash: string, now: Time, ttl: int)
    | CallListApps
    | CallCreateApp(app: Id, clientId: string, appName: string, redirect: Option<string>)
    | CallPatchApp(app: Id, appPatch: AppPatch)
    | CallListGroups
    | CallGetGroup(group: Id)
    | CallCreateGroup(group: Id, groupName: string, description: string)
    | CallPatchGroup(group: Id, newName: Option<string>, newDescription: Option<string>)
    | CallDeleteGroup(group: Id)
    | CallAddMember(group: Id, user: Id)
    | CallRemoveMember(group: Id, user: Id)
    | CallAddGroupRole(group: Id, role: Id)
    | CallRemoveGroupRole(group: Id, role: Id)
    | CallListRoles(filter: Option<Id>)
    | CallGetRole(role: Id)
    | CallCreateRole(role: Id, app: Id, roleName: string, description: string)
    | CallPatchRole(role: Id, newName: Option<string>, newDescription: Option<string>)
    | CallDeleteRole(role: Id)
    | CallSetPermissions(role: Id, wanted: set<Id>)
    | CallListPermissions(filter: Option<Id>)
    | CallCreatePermission(app: Id, resource: string, operation: string, description: string)

  function CurrentTenant(s: Store, op: Operator): Result<Answer> {
    if op.tenant in s.dir.tenants then Ok(TenantAnswer(PublicTenant(s.dir, op.tenant))) else UNKNOWN_TENANT
  }

  function Execute(s: Store, op: Operator, c: Call): (Store, Result<Answer>) {
    match c
    case CallCurrentTenant => (s, CurrentTenant(s, op))
    case CallListUsers => (s, ListUsers(s, op))
    case CallCreateUser(u, email, digest, isAdmin) => CreateUser(s, op, u, email, digest, isAdmin)
    case CallPatchUser(u, p) => PatchUser(s, op, u, p)
    case CallIssueCode(u, hash, now, ttl) => IssueActivationCode(s, op, u, hash, now, ttl)
    case CallListApps => (s, ListApplications(s, op))
    case CallCreateApp(a, clientId, name, redirect) => CreateApplication(s, op, a, clientId, name, redirect)
    case CallPatchApp(a, p) => PatchApplication(s, op, a, p)
    case CallListGroups => (s, ListGroups(s, op))
    case CallGetGroup(g) => (s, GetGroup(s, op, g))
    case CallCreateGroup(g, name, description) => CreateGroup(s, op, g, name, description)
    case CallPatchGroup(g, name, description) => PatchGroup(s, op, g, name, description)
    case CallDeleteGroup(g) => DeleteGroup(s, op, g)
    case CallAddMember(g, u) => AddMember(s, op, g, u)
    case CallRemoveMember(g, u) => RemoveMember(s, op, g, u)
    case CallAddGroupRole(g, r) => AddGroupRole(s, op, g, r)
    case CallRemoveGroupRole(g, r) => RemoveGroupRole(s, op, g, r)
    case CallListRoles(app) => (s, ListRoles(s, op, app))
    case CallGetRole(r) => (s, GetRole(s, op, r))
    case CallCreateRole(r, app, name, description) => CreateRole(s, op, r, app, name, description)
    case CallPatchRole(r, name, description) => PatchRole(s, op, r, name, description)
    case CallDeleteRole(r) => DeleteRole(s, op, r)
    case CallSetPermissions(r, wanted) => SetRolePermissions(s, op, r, wanted)
    case CallListPermissions(app) => (s, ListPermissions(s, op, app))
    case CallCreatePermission(app, resource, operation, description) =>
      CreatePermission(s, op, app, resource, operation, description)
  }

  // ------------------------------------------------------------- platform requests

  predicate AnyDomainTaken(domains: map<string, Id>, wanted: seq<string>) {
    exists x :: x in wanted && x in domains
  }

  predicate DomainOwnedElsewhere(domains: map<string, Id>, t: Id, wanted: seq<string>) {
    exists x :: x in wanted && x in domains && domains[x] != t
  }

  predicate Repeats(xs: seq<string>) {
    exists i, j :: 0 <= i < j < |xs| && xs[i] == xs[j]
  }

  /** The tenant's domains become exactly the wanted ones. */
  function ReplacedDomains(domains: map<string, Id>, t: Id, wanted: seq<string>): map<string, Id> {
    map x | x in domains.Keys + (set w | w in wanted) && (x in wanted || domains[x] != t) ::
      if x in wanted then t else domains[x]
  }

  /**
   The second transaction of creating a tenant, after its starter policy was
   written. Adding a repeated domain, or a bootstrap that breaks a constraint,
   is an integrity error, which this request reports as a clash.
   */
  function CreateTenant(s: Store, t: Id, name: string, branding: Branding, domains: seq<string>, rnd: Seed.Randoms): (Store, Result<Answer>) {
    if t in s.dir.tenants then (s, Err(409, "tenant already exists"))
    else if DomainOwnedElsewhere(s.dir.domains, t, domains) then (s, Err(409, "domain already registered"))
    else if Repeats(domains) then (s, Err(409, "tenant already exists"))
    else
      var d := s.dir.(tenants := s.dir.tenants[t := Tenant(name, false, None, None, branding)],
                      domains := ReplacedDomains(s.dir.domains, t, domains));
      match Seed.Run(d, Seed.BootstrapConsole(t), rnd)
      case None => (s, Err(409, "tenant already exists"))
      case Some(d') =>
        Seed.RunKeepsTenants(d, Seed.BootstrapConsole(t), rnd);
        (s.(dir := d'), Ok(TenantAnswer(PublicTenant(d', t))))
  }

  datatype TenantPatch = TenantPatch(name: Option<string>, domains: Option<seq<string>>, branding: Option<Branding>)

  function PatchTenant(s: Store, t: Id, p: TenantPatch): (Store, Result<Answer>) {
    if t !in s.dir.tenants then (s, UNKNOWN_TENANT)
    else if p.domains.Some? && DomainOwnedElsewhere(s.dir.domains, t, p.domains.value) then (s, Err(409, "domain already registered"))
    else if p.domains.Some? && Repeats(p.domains.value) then (s, CRASH)
    else
      var row := s.dir.tenants[t];
      var domains := if p.domains.Some? then ReplacedDomains(s.dir.domains, t, p.domains.value) else s.dir.domains;
      var d := s.dir.(tenants := s.dir.tenants[t := row.(name := p.name.GetOr(row.name), branding := p.branding.GetOr(row.branding))],
                      domains := domains);
      (s.(dir := d), Ok(TenantAnswer(PublicTenant(d, t))))
  }

  // ------------------------------------------------------------- the guard

  const TENANTS_READ := "tenants:read"

  /** What `load_session` found out about the caller. */
  datatype Caller = Caller(user: Id, home: Id, app: Id, permissions: set<string>)

  /** The caller is resolved in one transaction and checked against the tenants in the next. */
  function Authorize(s: Store, caller: Caller, acting: string, needs: string): Result<Operator> {
    if caller.home !in s.dir.tenants || s.dir.tenants[caller.home].consoleApp != Some(caller.app) then
      Err(403, "not a console session")
    else
      var platform := s.dir.tenants[caller.home].isPlatform && TENANTS_READ in caller.permissions;
      var target := if Strip(acting) == "" then caller.home else Strip(acting);
      if target != caller.home && !platform then Err(403, "requires permission tenants:read")
      else if target != caller.home && target !in s.dir.tenants then Err(404, "unknown tenant")
      else if needs !in caller.permissions then Err(403, "requires permission " + needs)
      else Ok(Operator(caller.user, caller.home, target, caller.permissions, platform))
  }
}
