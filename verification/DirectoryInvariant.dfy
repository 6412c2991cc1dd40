/**
 What the directory's tables promise of each other: the declared keys, unique
 constraints and foreign keys, and the rules the services keep on top of them
 (nothing crosses a tenant, a role carries only its own application's permissions,
 a bootstrapped tenant can always reach its console).

 The `Put` and `Drop` lemmas say which local facts each kind of edit needs.
 */
module DirectoryInvariant {
  import opened Wrappers
  import opened Models

  ghost predicate AppsOk(tenants: set<Id>, apps: map<Id, Application>) {
    && (forall a :: a in apps ==> apps[a].tenant in tenants)
    && UniqueClientIds(apps)
  }

  ghost predicate UniqueClientIds(apps: map<Id, Application>) {
    forall a, b :: a in apps && b in apps && apps[a].clientId.Some? && apps[a].clientId == apps[b].clientId ==> a == b
  }

  ghost predicate UniqueEmails(users: map<Id, User>) {
    forall u, v :: u in users && v in users && users[u].tenant == users[v].tenant && users[u].email == users[v].email ==> u == v
  }

  ghost predicate UsersOk(tenants: set<Id>, users: map<Id, User>) {
    && (forall u :: u in users ==> users[u].tenant in tenants)
    && UniqueEmails(users)
  }

  ghost predicate GroupsOk(tenants: set<Id>, groups: map<Id, Group>) {
    && (forall g :: g in groups ==> groups[g].tenant in tenants)
    && (forall g, h :: g in groups && h in groups && groups[g].tenant == groups[h].tenant && groups[g].name == groups[h].name ==> g == h)
  }

  /** A role's tenant is its application's, and names are unique per application. */
  ghost predicate RolesOk(apps: map<Id, Application>, roles: map<Id, Role>) {
    && (forall r :: r in roles ==> roles[r].app in apps && apps[roles[r].app].tenant == roles[r].tenant)
    && (forall r, q :: r in roles && q in roles && roles[r].app == roles[q].app && roles[r].name == roles[q].name ==> r == q)
  }

  ghost predicate PermissionsOk(apps: set<Id>, permissions: map<Id, Permission>) {
    && (forall p :: p in permissions ==> permissions[p].app in apps)
    && (forall p, q ::
      p in permissions && q in permissions && permissions[p].app == permissions[q].app &&
      permissions[p].resource == permissions[q].resource && permissions[p].operation == permissions[q].operation
      ==> p == q)
  }

  ghost predicate MembersOk(groups: map<Id, Group>, users: map<Id, User>, members: set<Membership>) {
    forall m :: m in members ==> m.group in groups && m.user in users && groups[m.group].tenant == users[m.user].tenant
  }

  ghost predicate GroupRolesOk(groups: map<Id, Group>, roles: map<Id, Role>, groupRoles: set<GroupRole>) {
    forall gr :: gr in groupRoles ==> gr.group in groups && gr.role in roles && groups[gr.group].tenant == roles[gr.role].tenant
  }

  ghost predicate RolePermissionsOk(roles: map<Id, Role>, permissions: map<Id, Permission>, links: set<RolePermission>) {
    forall rp :: rp in links ==> rp.role in roles && rp.permission in permissions && permissions[rp.permission].app == roles[rp.role].app
  }

  ghost predicate DomainsOk(tenants: set<Id>, domains: map<string, Id>) {
    forall x :: x in domains ==> domains[x] in tenants
  }

  /** A tenant's console is its own and enabled; its admin group is its own. */
  ghost predicate ConsoleOk(t: Id, row: Tenant, apps: map<Id, Application>, groups: map<Id, Group>) {
    && (row.consoleApp.Some? ==>
          row.consoleApp.value in apps && apps[row.consoleApp.value].tenant == t && apps[row.consoleApp.value].enabled)
    && (row.adminGroup.Some? ==>
          row.adminGroup.value in groups && groups[row.adminGroup.value].tenant == t)
  }

  ghost predicate ConsolesOk(tenants: map<Id, Tenant>, apps: map<Id, Application>, groups: map<Id, Group>) {
    forall t :: t in tenants ==> ConsoleOk(t, tenants[t], apps, groups)
  }

  ghost predicate Valid(d: Directory) {
    && AppsOk(d.tenants.Keys, d.apps)
    && UsersOk(d.tenants.Keys, d.users)
    && GroupsOk(d.tenants.Keys, d.groups)
    && RolesOk(d.apps, d.roles)
    && PermissionsOk(d.apps.Keys, d.permissions)
    && MembersOk(d.groups, d.users, d.members)
    && GroupRolesOk(d.groups, d.roles, d.groupRoles)
    && RolePermissionsOk(d.roles, d.permissions, d.rolePermissions)
    && DomainsOk(d.tenants.Keys, d.domains)
    && ConsolesOk(d.tenants, d.apps, d.groups)
  }

  /** Nobody is ever removed or handed to another tenant, nor is any application. */
  ghost predicate Stable(d: Directory, d': Directory) {
    && (forall u :: u in d.users ==> u in d'.users && d'.users[u].tenant == d.users[u].tenant)
    && (forall a :: a in d.apps ==> a in d'.apps && d'.apps[a].tenant == d.apps[a].tenant)
    && (forall t :: t in d.tenants ==> t in d'.tenants && d'.tenants[t].isPlatform == d.tenants[t].isPlatform)
  }

  // ------------------------------------------------------------- edits

  lemma PutTenant(d: Directory, t: Id, row: Tenant)
    requires Valid(d) && ConsoleOk(t, row, d.apps, d.groups)
    ensures Valid(d.(tenants := d.tenants[t := row]))
  {
  }

  /** Applications come and change, but none goes, moves, or stops being an enabled console. */
  lemma PutApps(d: Directory, apps: map<Id, Application>)
    requires Valid(d) && AppsOk(d.tenants.Keys, apps)
    requires forall a :: a in d.apps ==> a in apps && apps[a].tenant == d.apps[a].tenant
    requires forall t :: t in d.tenants && d.tenants[t].consoleApp.Some? && d.tenants[t].consoleApp.value in apps ==>
      (d.apps[d.tenants[t].consoleApp.value].enabled ==> apps[d.tenants[t].consoleApp.value].enabled)
    ensures Valid(d.(apps := apps))
  {
  }

  lemma PutApp(d: Directory, a: Id, row: Application)
    requires Valid(d) && row.tenant in d.tenants
    requires a in d.apps ==> d.apps[a].tenant == row.tenant && (d.apps[a].enabled ==> row.enabled || d.tenants[row.tenant].consoleApp != Some(a))
    requires forall b :: b in d.apps && b != a && row.clientId.Some? ==> d.apps[b].clientId != row.clientId
    ensures Valid(d.(apps := d.apps[a := row]))
  {
    hide UsersOk, GroupsOk, RolesOk, PermissionsOk, MembersOk, GroupRolesOk, RolePermissionsOk, DomainsOk;
    PutApps(d, d.apps[a := row]);
  }

  lemma PutUser(d: Directory, u: Id, row: User)
    requires Valid(d) && row.tenant in d.tenants
    requires u in d.users ==> d.users[u].tenant == row.tenant
    requires forall v :: v in d.users && d.users[v].tenant == row.tenant && d.users[v].email == row.email ==> v == u
    ensures Valid(d.(users := d.users[u := row]))
  {
  }

  lemma PutMembers(d: Directory, members: set<Membership>)
    requires Valid(d) && MembersOk(d.groups, d.users, members)
    ensures Valid(d.(members := members))
  {
  }

  lemma PutGroup(d: Directory, g: Id, row: Group)
    requires Valid(d) && row.tenant in d.tenants
    requires g in d.groups ==> d.groups[g].tenant == row.tenant
    requires forall h :: h in d.groups && d.groups[h].tenant == row.tenant && d.groups[h].name == row.name ==> h == g
    ensures Valid(d.(groups := d.groups[g := row]))
  {
    hide AppsOk, UsersOk, RolesOk, PermissionsOk, RolePermissionsOk, DomainsOk;
  }

  lemma PutRole(d: Directory, r: Id, row: Role)
    requires Valid(d) && row.app in d.apps && d.apps[row.app].tenant == row.tenant
    requires r in d.roles ==> d.roles[r].app == row.app
    requires forall q :: q in d.roles && d.roles[q].app == row.app && d.roles[q].name == row.name ==> q == r
    ensures Valid(d.(roles := d.roles[r := row]))
  {
    hide AppsOk, UsersOk, GroupsOk, PermissionsOk, MembersOk, DomainsOk, ConsolesOk;
  }

  lemma PutPermission(d: Directory, p: Id, row: Permission)
    requires Valid(d) && row.app in d.apps && p !in d.permissions
    requires forall q :: q in d.permissions && d.permissions[q].app == row.app && d.permissions[q].resource == row.resource
               ==> d.permissions[q].operation != row.operation
    ensures Valid(d.(permissions := d.permissions[p := row]))
  {
  }

  lemma PutGroupRoles(d: Directory, groupRoles: set<GroupRole>)
    requires Valid(d) && GroupRolesOk(d.groups, d.roles, groupRoles)
    ensures Valid(d.(groupRoles := groupRoles))
  {
  }

  lemma PutRolePermissions(d: Directory, links: set<RolePermission>)
    requires Valid(d) && RolePermissionsOk(d.roles, d.permissions, links)
    ensures Valid(d.(rolePermissions := links))
  {
  }

  /** A group goes with everything that names it, unless a tenant needs it. */
  lemma DropGroup(d: Directory, g: Id)
    requires Valid(d)
    requires forall t :: t in d.tenants ==> d.tenants[t].adminGroup != Some(g)
    requires forall m :: m in d.members ==> m.group != g
    requires forall gr :: gr in d.groupRoles ==> gr.group != g
    ensures Valid(d.(groups := d.groups - {g}))
  {
  }

  lemma DropRole(d: Directory, r: Id)
    requires Valid(d)
    requires forall rp :: rp in d.rolePermissions ==> rp.role != r
    requires forall gr :: gr in d.groupRoles ==> gr.role != r
    ensures Valid(d.(roles := d.roles - {r}))
  {
  }
}
