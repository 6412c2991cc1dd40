/**
 The admin flag and the admin group. The flag is a label; the membership is what
 lets someone into the console. Setting the flag makes them agree. Here is exactly
 which requests, and which commands of a seed, make them disagree.
 */
module AdminFlag {
  import opened Wrappers
  import opened Models
  import opened DirectoryInvariant
  import opened Admin
  import opened AdminInvariant
  import Seed
  import SeedInvariant

  /** The label and the membership say the same of this user. */
  predicate FlagAgrees(d: Directory, t: Id, u: Id)
    requires t in d.tenants && u in d.users && d.tenants[t].adminGroup.Some?
  {
    d.users[u].isAdmin <==> Membership(d.tenants[t].adminGroup.value, u) in d.members
  }

  /** Setting the flag always ends in agreement, whatever was there before. */
  lemma SettingTheFlagAgrees(s: Store, op: Operator, c: Call)
    requires Valid(s.dir) && Execute(s, op, c).1.Ok? && op.tenant in s.dir.tenants && s.dir.tenants[op.tenant].adminGroup.Some?
    requires c.CallCreateUser? || (c.CallPatchUser? && c.userPatch.isAdmin.Some?)
    ensures var d' := Execute(s, op, c).0.dir;
      && op.tenant in d'.tenants && c.user in d'.users && d'.tenants[op.tenant] == s.dir.tenants[op.tenant]
      && FlagAgrees(d', op.tenant, c.user)
      && d'.users[c.user].isAdmin == (if c.CallCreateUser? then c.isAdmin else c.userPatch.isAdmin.value)
      && forall g, u :: u != c.user ==> (Membership(g, u) in d'.members <==> Membership(g, u) in s.dir.members)
  {
    hide AppsOk, UsersOk, GroupsOk, RolesOk, PermissionsOk, MembersOk, GroupRolesOk, RolePermissionsOk, DomainsOk, PublicUser, NormaliseEmail;
    assert ConsoleOk(op.tenant, s.dir.tenants[op.tenant], s.dir.apps, s.dir.groups);
  }

  // ------------------------------------------------------------- every request

  /** A user of a tenant that has an admin group. */
  ghost predicate Labelled(d: Directory, t: Id, u: Id) {
    t in d.tenants && d.tenants[t].adminGroup.Some? && u in d.users && d.users[u].tenant == t
  }

  predicate SetsFlag(c: Call, u: Id) { c.CallPatchUser? && c.user == u && c.userPatch.isAdmin.Some? }

  /** Adds someone to the admin group of `t` or takes them out. */
  predicate EditsAdmins(d: Directory, c: Call, t: Id, u: Id)
    requires t in d.tenants
  {
    (c.CallAddMember? || c.CallRemoveMember?) && c.user == u && d.tenants[t].adminGroup == Some(c.group)
  }

  /** The user, the tenant's pointer and the agreement are as they were. */
  ghost predicate AgreementStays(d: Directory, d': Directory, t: Id, u: Id)
    requires Labelled(d, t, u)
  {
    Labelled(d', t, u) && d'.tenants[t] == d.tenants[t] && (FlagAgrees(d', t, u) <==> FlagAgrees(d, t, u))
  }

  lemma UserWritesKeepOthers(s: Store, op: Operator, c: Call, t: Id, u: Id)
    requires Labelled(s.dir, t, u) && (c.CallCreateUser? || (c.CallPatchUser? && !SetsFlag(c, u)))
    ensures AgreementStays(s.dir, Execute(s, op, c).0.dir, t, u)
  {
    hide PublicUser, NormaliseEmail, Seed.EmailTaken;
  }

  lemma MembersKeepOthers(s: Store, op: Operator, c: Call, t: Id, u: Id)
    requires Labelled(s.dir, t, u) && (c.CallAddMember? || c.CallRemoveMember?) && !EditsAdmins(s.dir, c, t, u)
    ensures AgreementStays(s.dir, Execute(s, op, c).0.dir, t, u)
  {
    hide DetailedGroup;
  }

  lemma DeletingKeepsOthers(s: Store, op: Operator, c: Call, t: Id, u: Id)
    requires Labelled(s.dir, t, u) && c.CallDeleteGroup? && s.dir.tenants[t].adminGroup != Some(c.group)
    ensures AgreementStays(s.dir, Execute(s, op, c).0.dir, t, u)
  {
  }

  /** The memberships go with the group, and the flag stays. */
  lemma DeletingAdmins(s: Store, op: Operator, c: Call, t: Id, u: Id)
    requires Labelled(s.dir, t, u) && c.CallDeleteGroup? && s.dir.tenants[t].adminGroup == Some(c.group)
    ensures var (s', r) := Execute(s, op, c);
      && Labelled(s'.dir, t, u) && s'.dir.tenants[t] == s.dir.tenants[t]
      && (FlagAgrees(s'.dir, t, u) <==> if r.Ok? then !s.dir.users[u].isAdmin else FlagAgrees(s.dir, t, u))
  {
  }

  ghost predicate SameLabels(d: Directory, d': Directory) {
    d'.members == d.members && d'.users == d.users && d'.tenants == d.tenants
  }

  lemma GroupWritesKeepLabels(s: Store, op: Operator, c: Call)
    requires c.CallCreateGroup? || c.CallPatchGroup? || c.CallAddGroupRole? || c.CallRemoveGroupRole?
    ensures SameLabels(s.dir, Execute(s, op, c).0.dir)
  {
    hide CreateUser, PatchUser, AddMember, RemoveMember, DeleteGroup, ListUsers, ListApplications, ListGroups,
      ListRoles, ListPermissions, GetGroup, GetRole, CurrentTenant,
      CreateRole, PatchRole, DeleteRole, SetRolePermissions, CreatePermission, CreateApplication, PatchApplication, IssueActivationCode,
      DetailedGroup, Seed.GroupNameTaken, OtherGroupNamed;
  }

  lemma RoleWritesKeepLabels(s: Store, op: Operator, c: Call)
    requires c.CallCreateRole? || c.CallPatchRole?
    ensures SameLabels(s.dir, Execute(s, op, c).0.dir)
  {
    hide CreateUser, PatchUser, AddMember, RemoveMember, DeleteGroup, ListUsers, ListApplications, ListGroups,
      ListRoles, ListPermissions, GetGroup, GetRole, CurrentTenant,
      DeleteRole, SetRolePermissions, CreatePermission, CreateGroup, PatchGroup, AddGroupRole, RemoveGroupRole,
      CreateApplication, PatchApplication, IssueActivationCode, DetailedRole, Seed.RoleNameTaken, OtherRoleNamed;
  }

  lemma PermissionWritesKeepLabels(s: Store, op: Operator, c: Call)
    requires c.CallDeleteRole? || c.CallSetPermissions? || c.CallCreatePermission?
    ensures SameLabels(s.dir, Execute(s, op, c).0.dir)
  {
    hide CreateUser, PatchUser, AddMember, RemoveMember, DeleteGroup, ListUsers, ListApplications, ListGroups,
      ListRoles, ListPermissions, GetGroup, GetRole, CurrentTenant,
      CreateRole, PatchRole, CreateGroup, PatchGroup, AddGroupRole, RemoveGroupRole,
      CreateApplication, PatchApplication, IssueActivationCode, DetailedRole, KnownPermission, Seed.PermissionId, Seed.ScopeTaken;
  }

  lemma RestKeepsLabels(s: Store, op: Operator, c: Call)
    requires !c.CallCreateUser? && !c.CallPatchUser? && !c.CallAddMember? && !c.CallRemoveMember? && !c.CallDeleteGroup?
    ensures SameLabels(s.dir, Execute(s, op, c).0.dir)
  {
    if c.CallCreateGroup? || c.CallPatchGroup? || c.CallAddGroupRole? || c.CallRemoveGroupRole? {
      hide Execute;
      GroupWritesKeepLabels(s, op, c);
    } else if c.CallCreateRole? || c.CallPatchRole? {
      hide Execute;
      RoleWritesKeepLabels(s, op, c);
    } else if c.CallDeleteRole? || c.CallSetPermissions? || c.CallCreatePermission? {
      hide Execute;
      PermissionWritesKeepLabels(s, op, c);
    } else {
      hide CreateUser, PatchUser, AddMember, RemoveMember, DeleteGroup, ListUsers, ListApplications, ListGroups,
      ListRoles, ListPermissions, GetGroup, GetRole, CurrentTenant,
        CreateGroup, PatchGroup, AddGroupRole, RemoveGroupRole, CreateRole, PatchRole, DeleteRole, SetRolePermissions, CreatePermission,
        IssuedCode, Seed.ClientIdTaken;
    }
  }

  lemma OtherRequestsKeepAgreement(s: Store, op: Operator, c: Call, t: Id, u: Id)
    requires Labelled(s.dir, t, u) && !SetsFlag(c, u) && !EditsAdmins(s.dir, c, t, u)
    requires !(c.CallDeleteGroup? && s.dir.tenants[t].adminGroup == Some(c.group))
    ensures AgreementStays(s.dir, Execute(s, op, c).0.dir, t, u)
  {
    hide Execute, AgreementStays;
    if c.CallCreateUser? || c.CallPatchUser? {
      UserWritesKeepOthers(s, op, c, t, u);
    } else if c.CallAddMember? || c.CallRemoveMember? {
      MembersKeepOthers(s, op, c, t, u);
    } else if c.CallDeleteGroup? {
      DeletingKeepsOthers(s, op, c, t, u);
    } else {
      RestKeepsLabels(s, op, c);
      SameRowsAgree(s.dir, Execute(s, op, c).0.dir, t, u);
    }
  }

  lemma SameRowsAgree(d: Directory, d': Directory, t: Id, u: Id)
    requires Labelled(d, t, u) && SameLabels(d, d')
    ensures AgreementStays(d, d', t, u)
  {
  }

  lemma SettingAgrees(s: Store, op: Operator, c: Call, t: Id, u: Id)
    requires Labelled(s.dir, t, u) && SetsFlag(c, u)
    ensures var (s', r) := Execute(s, op, c);
      && Labelled(s'.dir, t, u) && s'.dir.tenants[t] == s.dir.tenants[t]
      && (FlagAgrees(s'.dir, t, u) <==> if r.Ok? then SettingWorks(s.dir, c, t, u) else FlagAgrees(s.dir, t, u))
  {
    hide PublicUser;
  }

  /** The group is there to carry the flag, or the user's place in it is already what the flag now says. */
  predicate SettingWorks(d: Directory, c: Call, t: Id, u: Id)
    requires Labelled(d, t, u) && SetsFlag(c, u)
  {
    var g := d.tenants[t].adminGroup.value;
    g in d.groups || (c.userPatch.isAdmin.value <==> Membership(g, u) in d.members)
  }

  lemma EditingAdminsFlips(s: Store, op: Operator, c: Call, t: Id, u: Id)
    requires Labelled(s.dir, t, u) && EditsAdmins(s.dir, c, t, u)
    ensures var (s', r) := Execute(s, op, c);
      && Labelled(s'.dir, t, u) && s'.dir.tenants[t] == s.dir.tenants[t]
      && (FlagAgrees(s'.dir, t, u) <==> if r.Ok? then !FlagAgrees(s.dir, t, u) else FlagAgrees(s.dir, t, u))
  {
    hide DetailedGroup;
  }

  /**
   After any request, in any directory and for any user of any tenant: setting the flag
   ends in agreement if the admin group is there; an accepted edit of that user's place
   in the admin group turns agreement into disagreement and back; deleting the group
   leaves those who are flagged in disagreement and no others; nothing else, accepted
   or refused, changes it.
   */
  lemma AgreementAfterIff(s: Store, op: Operator, c: Call, t: Id, u: Id)
    requires Labelled(s.dir, t, u)
    ensures var (s', r) := Execute(s, op, c);
      && Labelled(s'.dir, t, u) && s'.dir.tenants[t] == s.dir.tenants[t]
      && (FlagAgrees(s'.dir, t, u) <==>
            if r.Ok? && SetsFlag(c, u) then SettingWorks(s.dir, c, t, u)
            else if r.Ok? && EditsAdmins(s.dir, c, t, u) then !FlagAgrees(s.dir, t, u)
            else if r.Ok? && c.CallDeleteGroup? && s.dir.tenants[t].adminGroup == Some(c.group) then !s.dir.users[u].isAdmin
            else FlagAgrees(s.dir, t, u))
  {
    hide Execute, SettingWorks;
    if SetsFlag(c, u) {
      SettingAgrees(s, op, c, t, u);
    } else if EditsAdmins(s.dir, c, t, u) {
      EditingAdminsFlips(s, op, c, t, u);
    } else if c.CallDeleteGroup? && s.dir.tenants[t].adminGroup == Some(c.group) {
      DeletingAdmins(s, op, c, t, u);
    } else {
      OtherRequestsKeepAgreement(s, op, c, t, u);
    }
  }

  lemma AdminGroupStays(s: Store, op: Operator, t: Id, u: Id)
    requires Valid(s.dir) && Labelled(s.dir, t, u)
    ensures s.dir.tenants[t].adminGroup.value in s.dir.groups
    ensures forall g :: s.dir.tenants[t].adminGroup == Some(g) ==> Execute(s, op, CallDeleteGroup(g)).1.Err?
  {
    hide AppsOk, UsersOk, GroupsOk, RolesOk, PermissionsOk, MembersOk, GroupRolesOk, RolePermissionsOk, DomainsOk;
    assert ConsoleOk(t, s.dir.tenants[t], s.dir.apps, s.dir.groups);
  }

  /** In a valid directory the group is there and cannot be deleted, so only an edit of the user's place in it undoes the flag. */
  lemma ValidAgreementAfterIff(s: Store, op: Operator, c: Call, t: Id, u: Id)
    requires Valid(s.dir) && Labelled(s.dir, t, u)
    ensures var (s', r) := Execute(s, op, c);
      && Labelled(s'.dir, t, u) && s'.dir.tenants[t] == s.dir.tenants[t]
      && (FlagAgrees(s'.dir, t, u) <==>
            if r.Ok? && SetsFlag(c, u) then true
            else if r.Ok? && EditsAdmins(s.dir, c, t, u) then !FlagAgrees(s.dir, t, u)
            else FlagAgrees(s.dir, t, u))
  {
    hide Valid, Execute;
    AdminGroupStays(s, op, t, u);
    AgreementAfterIff(s, op, c, t, u);
  }

  /**
   A group made under the id the new tenant's admin group will have: the tenant is
   created over it, and its maker may delete it, flags and all.
   */
  lemma MakerDeletesTheAdmins(s: Store, maker: Operator, x: Id, name: string, branding: Branding, domains: seq<string>, rnd: Seed.Randoms,
    op: Operator, u: Id, email: string, digest: string)
    requires Seed.AdminGroupId(x) in s.dir.groups && op.tenant == x
    requires var s1 := CreateTenant(s, x, name, branding, domains, rnd);
      var s2 := Execute(s1.0, op, CallCreateUser(u, email, digest, true));
      s1.1.Ok? && s2.1.Ok? && Execute(s2.0, maker, CallDeleteGroup(Seed.AdminGroupId(x))).1.Ok?
    ensures var s1 := CreateTenant(s, x, name, branding, domains, rnd).0;
      var s2 := Execute(s1, op, CallCreateUser(u, email, digest, true)).0;
      var s3 := Execute(s2, maker, CallDeleteGroup(Seed.AdminGroupId(x))).0;
      && Labelled(s2.dir, x, u) && FlagAgrees(s2.dir, x, u) && Labelled(s3.dir, x, u) && !FlagAgrees(s3.dir, x, u)
  {
    hide Seed.Run, Seed.BootstrapConsole, Seed.AdminGroupId, ReplacedDomains, PublicTenant, Repeats, DomainOwnedElsewhere, PublicUser, NormaliseEmail,
      Seed.EmailTaken, SeedInvariant.ScopeId;
    var d := WithTenant(s.dir, x, name, branding, domains);
    var s1 := CreateTenant(s, x, name, branding, domains, rnd).0;
    SeedInvariant.BootstrapLinks(d, x, rnd);
    Seed.RunGrows(d, Seed.BootstrapConsole(x), rnd);
    hide CreateTenant, DeleteGroup;
    var s2 := Execute(s1, op, CallCreateUser(u, email, digest, true)).0;
    DeletingAdmins(s2, maker, CallDeleteGroup(Seed.AdminGroupId(x)), x, u);
  }

  // ------------------------------------------------------------- every seed

  /** The command seeds this very user, by id and address, into this group. */
  predicate SeedsInto(d: Directory, c: Seed.Command, u: Id, g: Id)
    requires u in d.users
  {
    c.EnsureUser? && c.user == u && d.users[u].tenant == c.tenant && d.users[u].email == NormaliseEmail(c.email) && g in c.groups
  }

  /** The tenant points at its own admin group, the only one it is ever pointed at. */
  ghost predicate Pointed(d: Directory, t: Id, u: Id) {
    Labelled(d, t, u) && d.tenants[t].adminGroup == Some(Seed.AdminGroupId(t))
  }

  lemma SeedingLeavesMembers(d: Directory, c: Seed.Command, rnd: Seed.Randoms)
    requires Seed.RunOne(d, c, rnd).Some? && !c.EnsureUser?
    ensures Seed.RunOne(d, c, rnd).value.members == d.members && Seed.RunOne(d, c, rnd).value.users == d.users
  {
    hide Seed.ClientIdTaken, Seed.NewClientId, Seed.PermissionId, Seed.ConsoleId, Seed.AdminGroupId, Seed.ScopeTaken, Seed.RoleNameTaken,
      Seed.GroupNameTaken, Seed.DistinctClientIds, Seed.FilledClientIds;
  }

  lemma SeedingKeepsPointer(d: Directory, c: Seed.Command, rnd: Seed.Randoms, t: Id)
    requires Seed.RunOne(d, c, rnd).Some? && t in d.tenants && d.tenants[t].adminGroup == Some(Seed.AdminGroupId(t))
    ensures var d' := Seed.RunOne(d, c, rnd).value; t in d'.tenants && d'.tenants[t].adminGroup == d.tenants[t].adminGroup
  {
    hide NormaliseEmail, Seed.EmailTaken, Seed.ClientIdTaken, Seed.NewClientId, Seed.PermissionId, Seed.ConsoleId, Seed.AdminGroupId, Seed.ScopeTaken,
      Seed.RoleNameTaken, Seed.GroupNameTaken, Seed.DistinctClientIds, Seed.FilledClientIds;
  }

  lemma AddedMembers(d: Directory, user: Id, groups: seq<Id>, g: Id, u: Id)
    requires Seed.AddMemberships(d, user, groups).Some?
    ensures var d' := Seed.AddMemberships(d, user, groups).value;
      && d'.users == d.users && (Membership(g, u) in d'.members <==> Membership(g, u) in d.members || (u == user && g in groups))
  {
  }

  lemma UserCommandMembers(d: Directory, c: Seed.Command, rnd: Seed.Randoms, g: Id, u: Id)
    requires c.EnsureUser? && Seed.UserRow(d, c, rnd).Some? && u in d.users
    ensures var d' := Seed.UserRow(d, c, rnd).value;
      && u in d'.users && d'.users[u] == d.users[u]
      && (Membership(g, u) in d'.members <==> Membership(g, u) in d.members || SeedsInto(d, c, u, g))
  {
    hide NormaliseEmail, Seed.AddMemberships;
    var e := NormaliseEmail(c.email);
    if !Seed.EmailTaken(d.users, c.tenant, e) {
      AddedMembers(d.(users := d.users[c.user := User(c.tenant, e, rnd.digest(e), true, c.isAdmin, false, None)]), c.user, c.groups, g, u);
    } else if Seed.IsUser(d, c.tenant, c.user, e) {
      AddedMembers(d, c.user, c.groups, g, u);
    }
  }

  /** One command of a seed leaves the flag alone and puts a user into a group exactly when it names both. */
  lemma OneSeedsExactly(d: Directory, c: Seed.Command, rnd: Seed.Randoms, t: Id, u: Id)
    requires Pointed(d, t, u) && Seed.RunOne(d, c, rnd).Some?
    ensures var d' := Seed.RunOne(d, c, rnd).value; var g := Seed.AdminGroupId(t);
      && Pointed(d', t, u) && d'.users[u] == d.users[u]
      && (Membership(g, u) in d'.members <==> Membership(g, u) in d.members || SeedsInto(d, c, u, g))
  {
    hide SeedsInto, Seed.AdminGroupId, Seed.UserRow, Seed.TenantRow, Seed.LogoOnce, Seed.ConsoleSet, Seed.DomainRow, Seed.ConsoleRow,
      Seed.ApplicationRow, Seed.ScopeRow, Seed.GroupRoleRow, Seed.PermissionRow, Seed.RoleRow, Seed.GroupRow, Seed.ClientIdsFilled;
    SeedingKeepsPointer(d, c, rnd, t);
    if c.EnsureUser? {
      UserCommandMembers(d, c, rnd, Seed.AdminGroupId(t), u);
    } else {
      SeedingLeavesMembers(d, c, rnd);
      assert !SeedsInto(d, c, u, Seed.AdminGroupId(t)) by { NoUserCommand(d, c, u, Seed.AdminGroupId(t)); }
    }
  }

  lemma NoUserCommand(d: Directory, c: Seed.Command, u: Id, g: Id)
    requires u in d.users && !c.EnsureUser?
    ensures !SeedsInto(d, c, u, g)
  {
  }

  lemma SeedsIntoReadsTheRow(d: Directory, d': Directory, c: Seed.Command, u: Id, g: Id)
    requires u in d.users && u in d'.users && d'.users[u] == d.users[u]
    ensures SeedsInto(d', c, u, g) <==> SeedsInto(d, c, u, g)
  {
  }

  /** Some command of the run seeds this user into this group. */
  ghost predicate RunSeedsInto(d: Directory, cs: seq<Seed.Command>, u: Id, g: Id)
    requires u in d.users
  {
    exists c :: c in cs && SeedsInto(d, c, u, g)
  }

  lemma {:induction false} RunSeedsExactly(d: Directory, cs: seq<Seed.Command>, rnd: Seed.Randoms, t: Id, u: Id)
    requires Pointed(d, t, u) && Seed.Run(d, cs, rnd).Some?
    ensures var d' := Seed.Run(d, cs, rnd).value; var g := Seed.AdminGroupId(t);
      && Pointed(d', t, u) && d'.users[u] == d.users[u]
      && (Membership(g, u) in d'.members <==> Membership(g, u) in d.members || RunSeedsInto(d, cs, u, g))
    decreases |cs|
  {
    hide Seed.RunOne, SeedsInto, Seed.AdminGroupId;
    if cs != [] {
      var d1, g := Seed.RunOne(d, cs[0], rnd).value, Seed.AdminGroupId(t);
      OneSeedsExactly(d, cs[0], rnd, t, u);
      RunSeedsExactly(d1, cs[1..], rnd, t, u);
      forall c ensures SeedsInto(d1, c, u, g) <==> SeedsInto(d, c, u, g) { SeedsIntoReadsTheRow(d, d1, c, u, g); }
      assert RunSeedsInto(d, cs, u, g) <==> SeedsInto(d, cs[0], u, g) || RunSeedsInto(d1, cs[1..], u, g) by {
        assert forall c :: c in cs <==> c == cs[0] || c in cs[1..];
      }
    }
  }

  /**
   A seed that commits keeps a user's agreement exactly unless the flag is off and
   the specs list the user, by id and address, in the tenant's admin group.
   */
  lemma SeedKeepsAgreementIff(d: Directory, specs: seq<Seed.TenantSpec>, rnd: Seed.Randoms, t: Id, u: Id)
    requires Pointed(d, t, u) && FlagAgrees(d, t, u) && Seed.SeedIdentity(d, specs, rnd).Some?
    ensures var d' := Seed.SeedIdentity(d, specs, rnd).value;
      && Pointed(d', t, u)
      && (FlagAgrees(d', t, u) <==> d.users[u].isAdmin || !RunSeedsInto(d, Seed.Program(specs), u, Seed.AdminGroupId(t)))
  {
    hide Seed.Run, Seed.Program, Seed.AdminGroupId, RunSeedsInto;
    RunSeedsExactly(d, Seed.Program(specs), rnd, t, u);
  }

  lemma BootstrapSeedsNobody(d: Directory, t: Id, u: Id, g: Id)
    requires u in d.users
    ensures !RunSeedsInto(d, Seed.BootstrapConsole(t), u, g)
  {
    hide Seed.BootstrapConsole, SeedInvariant.ForConsole;
    SeedInvariant.BootstrapIsForConsole(t);
    forall c | c in Seed.BootstrapConsole(t) ensures !c.EnsureUser? {
      assert SeedInvariant.ForConsole(c, t);
      ConsoleCommandSeedsNobody(c, t);
    }
  }

  lemma ConsoleCommandSeedsNobody(c: Seed.Command, t: Id)
    requires SeedInvariant.ForConsole(c, t)
    ensures !c.EnsureUser?
  {
  }

  /** Creating a tenant, over whatever ids, and editing one leave every user's agreement alone. */
  lemma TenantsKeepAgreement(s: Store, x: Id, name: string, branding: Branding, domains: seq<string>, rnd: Seed.Randoms, p: TenantPatch, t: Id, u: Id)
    requires Pointed(s.dir, t, u)
    ensures var d' := CreateTenant(s, x, name, branding, domains, rnd).0.dir;
      Pointed(d', t, u) && (FlagAgrees(d', t, u) <==> FlagAgrees(s.dir, t, u))
    ensures var d' := PatchTenant(s, x, p).0.dir;
      Pointed(d', t, u) && (FlagAgrees(d', t, u) <==> FlagAgrees(s.dir, t, u))
  {
    hide Seed.Run, Seed.BootstrapConsole, Seed.AdminGroupId, ReplacedDomains, PublicTenant, Repeats, DomainOwnedElsewhere, RunSeedsInto;
    var d := WithTenant(s.dir, x, name, branding, domains);
    if x !in s.dir.tenants && Seed.Run(d, Seed.BootstrapConsole(x), rnd).Some? {
      RunSeedsExactly(d, Seed.BootstrapConsole(x), rnd, t, u);
      BootstrapSeedsNobody(d, x, u, Seed.AdminGroupId(t));
    }
  }

  /** A user the command creates agrees exactly when the flag it gives says whether it lists the admin group. */
  lemma SeededUserAgreesIff(d: Directory, c: Seed.Command, rnd: Seed.Randoms)
    requires MembersOk(d.groups, d.users, d.members) && c.EnsureUser? && c.user !in d.users && Seed.RunOne(d, c, rnd).Some?
    requires c.tenant in d.tenants && d.tenants[c.tenant].adminGroup.Some?
    requires !Seed.EmailTaken(d.users, c.tenant, NormaliseEmail(c.email))
    ensures var d' := Seed.RunOne(d, c, rnd).value;
      && Labelled(d', c.tenant, c.user)
      && (FlagAgrees(d', c.tenant, c.user) <==> (c.isAdmin <==> d.tenants[c.tenant].adminGroup.value in c.groups))
  {
    hide NormaliseEmail, Seed.EmailTaken;
  }

  /**
   An operator whose flag an admin takes away leaves the admin group with it; the
   next start of the service puts them back into the group and leaves the flag off.
   */
  lemma SeedingUndoesADemotion(s: Store, op: Operator, u: Id, specs: seq<Seed.TenantSpec>, rnd: Seed.Randoms)
    requires Valid(s.dir) && Pointed(s.dir, op.tenant, u)
    requires RunSeedsInto(s.dir, Seed.Program(specs), u, Seed.AdminGroupId(op.tenant))
    ensures var (s1, r) := Execute(s, op, CallPatchUser(u, UserPatch(None, Some(false), None, None)));
      && r.Ok? && Pointed(s1.dir, op.tenant, u) && FlagAgrees(s1.dir, op.tenant, u)
      && (Seed.SeedIdentity(s1.dir, specs, rnd).Some? ==>
            var d2 := Seed.SeedIdentity(s1.dir, specs, rnd).value;
            && Pointed(d2, op.tenant, u) && !d2.users[u].isAdmin && Membership(Seed.AdminGroupId(op.tenant), u) in d2.members
            && !FlagAgrees(d2, op.tenant, u))
  {
    hide Valid, PublicUser, Seed.Run, Seed.Program, Seed.AdminGroupId, SeedsInto;
    var c := CallPatchUser(u, UserPatch(None, Some(false), None, None));
    var s1 := Execute(s, op, c).0;
    assert s1.dir.users[u].email == s.dir.users[u].email;
    ValidAgreementAfterIff(s, op, c, op.tenant, u);
    forall x ensures SeedsInto(s1.dir, x, u, Seed.AdminGroupId(op.tenant)) <==> SeedsInto(s.dir, x, u, Seed.AdminGroupId(op.tenant)) {
      SameAddressIsSeeded(s.dir, s1.dir, x, u, Seed.AdminGroupId(op.tenant));
    }
    if Seed.SeedIdentity(s1.dir, specs, rnd).Some? {
      RunSeedsExactly(s1.dir, Seed.Program(specs), rnd, op.tenant, u);
    }
  }

  lemma SameAddressIsSeeded(d: Directory, d': Directory, c: Seed.Command, u: Id, g: Id)
    requires u in d.users && u in d'.users && d'.users[u].tenant == d.users[u].tenant && d'.users[u].email == d.users[u].email
    ensures SeedsInto(d', c, u, g) <==> SeedsInto(d, c, u, g)
  {
  }

  const DIEGO := "usr_rb_diego"
  const DIEGOS_EMAIL := "diego@rokubank.example"
  const BANK := "roku-bank"

  /** A directory with one operator, whose flag an admin has taken away. */
  function WithDiegoDemoted(): Directory {
    Directory(
      map[BANK := Tenant("Roku Bank", false, None, Some(Seed.AdminGroupId(BANK)), Branding("", "", None, "", ""))], map[], map[],
      map[DIEGO := User(BANK, NormaliseEmail(DIEGOS_EMAIL), "", true, false, false, None)],
      map[Seed.AdminGroupId(BANK) := Group(BANK, "Administradores", "")], {}, map[], map[], {}, {})
  }

  lemma DemotedIsValid()
    ensures Valid(WithDiegoDemoted()) && Pointed(WithDiegoDemoted(), BANK, DIEGO) && FlagAgrees(WithDiegoDemoted(), BANK, DIEGO)
  {
    hide NormaliseEmail, Seed.AdminGroupId;
  }

  lemma SeedingDiegoWorks(rnd: Seed.Randoms)
    ensures var c := Seed.EnsureUser(BANK, DIEGO, DIEGOS_EMAIL, [Seed.AdminGroupId(BANK)], true);
      Seed.RunOne(WithDiegoDemoted(), c, rnd).Some? && SeedsInto(WithDiegoDemoted(), c, DIEGO, Seed.AdminGroupId(BANK))
  {
    hide NormaliseEmail, Seed.AdminGroupId;
  }

  /** Seeded as the demo data lists them, the operator is back in the group, and the flag is still off. */
  lemma DiegoIsReadmitted(rnd: Seed.Randoms)
    ensures var d := WithDiegoDemoted();
      var d' := Seed.RunOne(d, Seed.EnsureUser(BANK, DIEGO, DIEGOS_EMAIL, [Seed.AdminGroupId(BANK)], true), rnd);
      && Valid(d) && Pointed(d, BANK, DIEGO) && FlagAgrees(d, BANK, DIEGO)
      && d'.Some? && Pointed(d'.value, BANK, DIEGO) && !FlagAgrees(d'.value, BANK, DIEGO)
  {
    hide NormaliseEmail, Seed.AdminGroupId, Seed.RunOne, SeedsInto, Valid;
    DemotedIsValid();
    SeedingDiegoWorks(rnd);
    OneSeedsExactly(WithDiegoDemoted(), Seed.EnsureUser(BANK, DIEGO, DIEGOS_EMAIL, [Seed.AdminGroupId(BANK)], true), rnd, BANK, DIEGO);
  }
}
