/**
 What creating a tenant does to the others. Over ids nobody has taken it leaves
 every other tenant's rows alone, and the only thing an operator there can notice
 is that a value they ask for is gone: one of the ids derived from the new tenant's,
 its console's client id, or one of its domains.
 */
module AdminFounding {
  import opened Wrappers
  import opened Models
  import opened DirectoryInvariant
  import opened Admin
  import opened AdminInvariant
  import opened AdminIsolation
  import opened AdminNoninterference
  import AdminEffects
  import Seed
  import SeedInvariant

  // ------------------------------------------------------------- a new tenant's rows are its own

  function OnDirectory(s: Store, d: Directory): Store { s.(dir := d) }

  /** Between two directories. */
  ghost predicate SameRowsOf(t: Id, s: Store, a: Directory, b: Directory) { AgreeOn(t, OnDirectory(s, a), OnDirectory(s, b)) }

  lemma OneAppStaysHome(s: Store, d: Directory, a: Id, row: Application, t: Id)
    requires row.tenant != t && (a in d.apps ==> d.apps[a].tenant != t)
    ensures SameRowsOf(t, s, d, d.(apps := d.apps[a := row]))
  {
  }

  lemma ConsoleRowStaysHome(s: Store, d: Directory, x: Id, t: Id, rnd: Seed.Randoms)
    requires t != x && SeedInvariant.OwnIds(d, x) && Seed.ConsoleRow(d, x, rnd).Some?
    ensures SameRowsOf(t, s, d, Seed.ConsoleRow(d, x, rnd).value)
  {
    hide Seed.NewClientId, Seed.ClientIdTaken, Seed.ConsoleId, Seed.AdminGroupId, Seed.AdminRoleId, Seed.SupportRoleId, SeedInvariant.ScopeId, SameRowsOf;
    OneAppStaysHome(s, d, Seed.ConsoleId(x), Seed.ConsoleRow(d, x, rnd).value.apps[Seed.ConsoleId(x)], t);
  }

  lemma PermissionStaysHome(s: Store, d: Directory, c: Seed.Command, x: Id, t: Id)
    requires t != x && SeedInvariant.OwnIds(d, x) && c.EnsurePermission? && SeedInvariant.ForConsole(c, x) && Seed.PermissionRow(d, c).Some?
    ensures SameRowsOf(t, s, d, Seed.PermissionRow(d, c).value)
  {
    hide Seed.PermissionId, Seed.ScopeTaken, Seed.ConsoleId, Seed.AdminGroupId, Seed.AdminRoleId, Seed.SupportRoleId, SeedInvariant.ScopeId;
  }

  lemma NamedRowStaysHome(s: Store, d: Directory, c: Seed.Command, x: Id, t: Id)
    requires t != x && (c.EnsureRole? || c.EnsureGroup?) && SeedInvariant.ForConsole(c, x)
    ensures c.EnsureRole? && Seed.RoleRow(d, c).Some? ==> SameRowsOf(t, s, d, Seed.RoleRow(d, c).value)
    ensures c.EnsureGroup? && Seed.GroupRow(d, c).Some? ==> SameRowsOf(t, s, d, Seed.GroupRow(d, c).value)
  {
    hide Seed.RoleNameTaken, Seed.GroupNameTaken, Seed.ConsoleId;
  }

  lemma LinkStaysHome(s: Store, d: Directory, c: Seed.Command, x: Id, t: Id)
    requires t != x && SeedInvariant.OwnIds(d, x) && (c.EnsureScope? || c.EnsureGroupRole?) && SeedInvariant.ForConsole(c, x)
    ensures c.EnsureScope? && Seed.ScopeRow(d, c.role, c.permission).Some? ==> SameRowsOf(t, s, d, Seed.ScopeRow(d, c.role, c.permission).value)
    ensures c.EnsureGroupRole? && Seed.GroupRoleRow(d, c.group, c.role).Some? ==> SameRowsOf(t, s, d, Seed.GroupRoleRow(d, c.group, c.role).value)
  {
    hide Seed.ConsoleId, Seed.AdminGroupId, Seed.AdminRoleId, Seed.SupportRoleId, SeedInvariant.ScopeId;
  }

  lemma PointerStaysHome(s: Store, d: Directory, x: Id, t: Id)
    requires t != x && Seed.ConsoleSet(d, x).Some?
    ensures SameRowsOf(t, s, d, Seed.ConsoleSet(d, x).value)
  {
    hide Seed.ConsoleId, Seed.AdminGroupId;
  }

  lemma CommandStaysHome(s: Store, d: Directory, c: Seed.Command, x: Id, t: Id, rnd: Seed.Randoms)
    requires t != x && SeedInvariant.OwnIds(d, x) && SeedInvariant.ForConsole(c, x) && Seed.RunOne(d, c, rnd).Some?
    ensures SameRowsOf(t, s, d, Seed.RunOne(d, c, rnd).value)
  {
    hide SameRowsOf, SeedInvariant.OwnIds, Seed.ConsoleRow, Seed.PermissionRow, Seed.RoleRow, Seed.GroupRow, Seed.ScopeRow, Seed.GroupRoleRow, Seed.ConsoleSet;
    match c
    case EnsureConsole(_) => ConsoleRowStaysHome(s, d, x, t, rnd);
    case EnsurePermission(_, _, _, _) => PermissionStaysHome(s, d, c, x, t);
    case EnsureScope(_, _) => LinkStaysHome(s, d, c, x, t);
    case EnsureGroupRole(_, _) => LinkStaysHome(s, d, c, x, t);
    case SetConsole(_) => PointerStaysHome(s, d, x, t);
    case EnsureRole(_, _, _, _, _) => NamedRowStaysHome(s, d, c, x, t);
    case EnsureGroup(_, _, _, _) => NamedRowStaysHome(s, d, c, x, t);
  }

  lemma {:induction false} ConsoleStaysHome(s: Store, d: Directory, cs: seq<Seed.Command>, x: Id, t: Id, rnd: Seed.Randoms)
    requires t != x && SeedInvariant.OwnIds(d, x) && SeedInvariant.AllForConsole(cs, x) && Seed.Run(d, cs, rnd).Some?
    ensures SameRowsOf(t, s, d, Seed.Run(d, cs, rnd).value)
    decreases |cs|
  {
    hide SeedInvariant.OwnIds, SeedInvariant.ForConsole, Seed.RunOne, AgreeOn, SeedInvariant.Sound;
    if cs == [] {
      AgreeRefl(t, OnDirectory(s, d));
    } else {
      var d1 := Seed.RunOne(d, cs[0], rnd).value;
      CommandStaysHome(s, d, cs[0], x, t, rnd);
      SeedInvariant.ConsoleCommandIsSound(d, cs[0], x, rnd);
      ConsoleStaysHome(s, d1, cs[1..], x, t, rnd);
      AgreeTrans(t, OnDirectory(s, d), OnDirectory(s, d1), OnDirectory(s, Seed.Run(d, cs, rnd).value));
    }
  }

  lemma RowStaysHome(s: Store, x: Id, name: string, branding: Branding, domains: seq<string>, t: Id)
    requires t != x && !DomainOwnedElsewhere(s.dir.domains, x, domains)
    ensures SameRowsOf(t, s, s.dir, WithTenant(s.dir, x, name, branding, domains))
  {
  }

  lemma UnclaimedAreOwn(d: Directory, x: Id, name: string, branding: Branding, domains: seq<string>)
    requires SeedInvariant.Unclaimed(d, x)
    ensures SeedInvariant.OwnIds(WithTenant(d, x, name, branding, domains), x)
  {
    hide Seed.ConsoleId, Seed.AdminGroupId, Seed.AdminRoleId, Seed.SupportRoleId, SeedInvariant.ScopeId, ReplacedDomains;
  }

  /** Creating a tenant over ids nobody has leaves every row of every other tenant as it was. */
  lemma FoundingStaysHome(s: Store, x: Id, name: string, branding: Branding, domains: seq<string>, rnd: Seed.Randoms, t: Id)
    requires t != x && SeedInvariant.Unclaimed(s.dir, x)
    ensures AgreeOn(t, s, CreateTenant(s, x, name, branding, domains, rnd).0)
  {
    hide AgreeOn, SeedInvariant.OwnIds, SeedInvariant.Unclaimed, SeedInvariant.AllForConsole, Seed.Run, Seed.BootstrapConsole, ReplacedDomains,
      PublicTenant, Repeats, DomainOwnedElsewhere;
    AgreeRefl(t, s);
    if CreateTenant(s, x, name, branding, domains, rnd).1.Ok? {
      var d := WithTenant(s.dir, x, name, branding, domains);
      var end := Seed.Run(d, Seed.BootstrapConsole(x), rnd).value;
      RowStaysHome(s, x, name, branding, domains, t);
      UnclaimedAreOwn(s.dir, x, name, branding, domains);
      SeedInvariant.BootstrapIsForConsole(x);
      ConsoleStaysHome(s, d, Seed.BootstrapConsole(x), x, t, rnd);
      AgreeTrans(t, s, OnDirectory(s, d), OnDirectory(s, end));
    }
  }

  // ------------------------------------------------------------- what else is there afterwards

  ghost predicate IsScope(x: Id, p: Id) { exists i :: 0 <= i < |Seed.TENANT_ADMIN_SCOPES| && p == SeedInvariant.ScopeId(x, i) }

  /** The command ensures rows under the ids derived from this tenant's only. */
  ghost predicate Derives(c: Seed.Command, x: Id) {
    match c
    case EnsureConsole(y) => y == x
    case EnsurePermission(app, resource, operation, _) => IsScope(x, Seed.PermissionId(app, resource, operation))
    case EnsureRole(_, role, _, _, _) => role in {Seed.AdminRoleId(x), Seed.SupportRoleId(x)}
    case EnsureGroup(_, group, _, _) => group == Seed.AdminGroupId(x)
    case EnsureScope(_, _) => true
    case EnsureGroupRole(_, _) => true
    case SetConsole(_) => true
    case _ => false
  }

  ghost predicate AllDerive(cs: seq<Seed.Command>, x: Id) { forall c :: c in cs ==> Derives(c, x) }

  lemma AllInEither(a: seq<Seed.Command>, b: seq<Seed.Command>, x: Id)
    requires AllDerive(a, x) && AllDerive(b, x)
    ensures AllDerive(a + b, x)
  {
    hide Derives;
  }

  lemma {:induction false} ConsolePermissionsDerive(x: Id, rows: seq<Seed.PermissionSpec>)
    requires forall r :: r in rows ==> IsScope(x, Seed.PermissionId(Seed.ConsoleId(x), r.resource, r.operation))
    ensures AllDerive(Seed.PermissionCommands(Seed.ConsoleId(x), rows), x)
    decreases |rows|
  {
    hide IsScope, Seed.PermissionId, Seed.ConsoleId;
    if rows != [] {
      ConsolePermissionsDerive(x, rows[1..]);
    }
  }

  lemma EveryPermissionIsAScope(x: Id)
    ensures forall r :: r in Seed.CONSOLE_PERMISSIONS ==> IsScope(x, Seed.PermissionId(Seed.ConsoleId(x), r.resource, r.operation))
  {
    hide Seed.PermissionId, Seed.ConsoleId;
    forall r | r in Seed.CONSOLE_PERMISSIONS ensures IsScope(x, Seed.PermissionId(Seed.ConsoleId(x), r.resource, r.operation)) {
      var k :| 0 <= k < |Seed.CONSOLE_PERMISSIONS| && r == Seed.CONSOLE_PERMISSIONS[k];
      assert Seed.PermissionId(Seed.ConsoleId(x), r.resource, r.operation) == SeedInvariant.ScopeId(x, k);
    }
  }

  lemma {:induction false} ScopeCommandsDerive(x: Id, role: Id, app: Id, scopes: seq<Seed.ScopeSpec>)
    ensures AllDerive(Seed.ScopeCommands(role, app, scopes), x)
    decreases |scopes|
  {
    if scopes != [] { ScopeCommandsDerive(x, role, app, scopes[1..]); }
  }

  lemma RolesDerive(x: Id, role: Id, name: string, description: string, scopes: seq<Seed.ScopeSpec>)
    requires role in {Seed.AdminRoleId(x), Seed.SupportRoleId(x)}
    ensures AllDerive(Seed.RoleCommands(x, role, Seed.ConsoleId(x), name, description, scopes), x)
  {
    hide Seed.AdminRoleId, Seed.SupportRoleId, Seed.ConsoleId, Seed.ScopeCommands;
    ScopeCommandsDerive(x, role, Seed.ConsoleId(x), scopes);
  }

  lemma GroupDerives(x: Id, name: string, description: string, role: Id)
    ensures AllDerive(Seed.GroupCommands(x, Seed.AdminGroupId(x), name, description, [role]), x)
  {
    hide Seed.AdminGroupId;
    assert Seed.GroupRoleCommands(Seed.AdminGroupId(x), [role]) == [Seed.EnsureGroupRole(Seed.AdminGroupId(x), role)];
  }

  lemma BootstrapDerives(x: Id)
    ensures AllDerive(Seed.BootstrapConsole(x), x)
  {
    hide Seed.ConsoleId, Seed.AdminGroupId, Seed.AdminRoleId, Seed.SupportRoleId, Seed.PermissionCommands, Seed.ScopeCommands, Seed.GroupCommands,
      Seed.RoleCommands, AllDerive, IsScope, Seed.PermissionId;
    var admin := Seed.RoleCommands(x, Seed.AdminRoleId(x), Seed.ConsoleId(x), "tenant-admin",
      "Administrar la organización: directorio, aplicaciones y política de riesgo", Seed.TENANT_ADMIN_SCOPES);
    var support := Seed.RoleCommands(x, Seed.SupportRoleId(x), Seed.ConsoleId(x), "support",
      "Explicar un inicio de sesión: leer decisiones y motivos, sin cambiar nada", Seed.SUPPORT_SCOPES);
    var group := Seed.GroupCommands(x, Seed.AdminGroupId(x), "Administradores", "Administran la organización en la consola", [Seed.AdminRoleId(x)]);
    var first, permissions, last := [Seed.EnsureConsole(x)], Seed.PermissionCommands(Seed.ConsoleId(x), Seed.CONSOLE_PERMISSIONS), [Seed.SetConsole(x)];
    EndsDerive(x);
    EveryPermissionIsAScope(x);
    ConsolePermissionsDerive(x, Seed.CONSOLE_PERMISSIONS);
    RolesDerive(x, Seed.AdminRoleId(x), "tenant-admin", "Administrar la organización: directorio, aplicaciones y política de riesgo", Seed.TENANT_ADMIN_SCOPES);
    RolesDerive(x, Seed.SupportRoleId(x), "support", "Explicar un inicio de sesión: leer decisiones y motivos, sin cambiar nada", Seed.SUPPORT_SCOPES);
    GroupDerives(x, "Administradores", "Administran la organización en la consola", Seed.AdminRoleId(x));
    AllInEither(first, permissions, x);
    AllInEither(first + permissions, admin, x);
    AllInEither(first + permissions + admin, support, x);
    AllInEither(first + permissions + admin + support, group, x);
    AllInEither(first + permissions + admin + support + group, last, x);
    assert Seed.BootstrapConsole(x) == first + permissions + admin + support + group + last;
  }

  lemma EndsDerive(x: Id)
    ensures AllDerive([Seed.EnsureConsole(x)], x) && AllDerive([Seed.SetConsole(x)], x)
  {
  }

  /** Nothing but rows under derived ids was added; and of applications, at most one with the drawn client id. */
  ghost predicate OnlyDerived(a: Directory, b: Directory, x: Id, rnd: Seed.Randoms) {
    && b.users == a.users && b.domains == a.domains
    && (forall k :: k in b.apps && k !in a.apps ==> k == Seed.ConsoleId(x))
    && (forall k :: k in b.apps && k !in a.apps ==> b.apps[k].clientId == Some(Seed.NewClientId(k, rnd)))
    && (forall k :: k in a.apps && k != Seed.ConsoleId(x) ==> k in b.apps && b.apps[k] == a.apps[k])
    && (forall k :: k in b.groups && k !in a.groups ==> k == Seed.AdminGroupId(x))
    && (forall k :: k in b.roles && k !in a.roles ==> k in {Seed.AdminRoleId(x), Seed.SupportRoleId(x)})
    && (forall k :: k in b.permissions && k !in a.permissions ==> IsScope(x, k))
  }

  lemma CommandAddsOnlyDerived(d: Directory, c: Seed.Command, x: Id, rnd: Seed.Randoms)
    requires Derives(c, x) && Seed.RunOne(d, c, rnd).Some?
    requires Seed.ConsoleId(x) in d.apps ==> d.apps[Seed.ConsoleId(x)].clientId.Some?
    ensures OnlyDerived(d, Seed.RunOne(d, c, rnd).value, x, rnd)
    ensures var d' := Seed.RunOne(d, c, rnd).value; Seed.ConsoleId(x) in d'.apps ==> d'.apps[Seed.ConsoleId(x)].clientId.Some?
    ensures Seed.ConsoleId(x) in d.apps ==> var d' := Seed.RunOne(d, c, rnd).value;
      Seed.ConsoleId(x) in d'.apps && d'.apps[Seed.ConsoleId(x)].clientId == d.apps[Seed.ConsoleId(x)].clientId
  {
    hide Seed.ConsoleId, Seed.AdminGroupId, Seed.AdminRoleId, Seed.SupportRoleId, IsScope, Seed.PermissionId, Seed.NewClientId, Seed.ClientIdTaken,
      Seed.ScopeTaken, Seed.RoleNameTaken, Seed.GroupNameTaken;
  }

  lemma OnlyDerivedTrans(a: Directory, b: Directory, c: Directory, x: Id, rnd: Seed.Randoms)
    requires OnlyDerived(a, b, x, rnd) && OnlyDerived(b, c, x, rnd)
    requires Seed.ConsoleId(x) in b.apps ==> Seed.ConsoleId(x) in c.apps && c.apps[Seed.ConsoleId(x)].clientId == b.apps[Seed.ConsoleId(x)].clientId
    ensures OnlyDerived(a, c, x, rnd)
  {
    hide Seed.ConsoleId, Seed.AdminGroupId, Seed.AdminRoleId, Seed.SupportRoleId, IsScope, Seed.NewClientId;
  }

  lemma OnlyDerivedRefl(a: Directory, x: Id, rnd: Seed.Randoms)
    ensures OnlyDerived(a, a, x, rnd)
  {
  }

  lemma {:induction false} RunAddsOnlyDerived(d: Directory, cs: seq<Seed.Command>, x: Id, rnd: Seed.Randoms)
    requires AllDerive(cs, x) && Seed.Run(d, cs, rnd).Some?
    requires Seed.ConsoleId(x) in d.apps ==> d.apps[Seed.ConsoleId(x)].clientId.Some?
    ensures var end := Seed.Run(d, cs, rnd).value;
      && OnlyDerived(d, end, x, rnd)
      && (Seed.ConsoleId(x) in d.apps ==>
            Seed.ConsoleId(x) in end.apps && end.apps[Seed.ConsoleId(x)].clientId == d.apps[Seed.ConsoleId(x)].clientId)
    decreases |cs|
  {
    hide Derives, OnlyDerived, Seed.RunOne, Seed.ConsoleId;
    if cs == [] {
      OnlyDerivedRefl(d, x, rnd);
    } else {
      var d1 := Seed.RunOne(d, cs[0], rnd).value;
      CommandAddsOnlyDerived(d, cs[0], x, rnd);
      RunAddsOnlyDerived(d1, cs[1..], x, rnd);
      OnlyDerivedTrans(d, d1, Seed.Run(d, cs, rnd).value, x, rnd);
    }
  }

  /** Exactly the rows under derived ids were added to the tables whose keys are platform-wide. */
  ghost predicate AddsDerived(a: Directory, b: Directory, x: Id, rnd: Seed.Randoms) {
    && b.users == a.users
    && (forall k :: k in b.apps <==> k in a.apps || k == Seed.ConsoleId(x))
    && (forall k :: k in a.apps ==> k in b.apps && b.apps[k] == a.apps[k])
    && Seed.ConsoleId(x) in b.apps && b.apps[Seed.ConsoleId(x)].clientId == Some(Seed.NewClientId(Seed.ConsoleId(x), rnd))
    && (forall k :: k in b.groups <==> k in a.groups || k == Seed.AdminGroupId(x))
    && (forall k :: k in b.roles <==> k in a.roles || k in {Seed.AdminRoleId(x), Seed.SupportRoleId(x)})
    && (forall k :: k in b.permissions <==> k in a.permissions || IsScope(x, k))
  }

  lemma ScopesAreFurnished(d: Directory, x: Id)
    requires AdminEffects.Furnished(d, x)
    ensures forall k :: IsScope(x, k) ==> k in d.permissions
  {
    hide Seed.PermissionId, Seed.ConsoleId, Seed.AdminGroupId, Seed.AdminRoleId, Seed.SupportRoleId, AdminEffects.Carried;
    forall i | 0 <= i < |Seed.TENANT_ADMIN_SCOPES| ensures SeedInvariant.ScopeId(x, i) in d.permissions {
      assert Seed.CONSOLE_PERMISSIONS[i] in Seed.CONSOLE_PERMISSIONS;
    }
  }

  lemma FurnishedHasRows(d: Directory, x: Id)
    requires AdminEffects.Furnished(d, x)
    ensures Seed.AdminRoleId(x) in d.roles && Seed.SupportRoleId(x) in d.roles && Seed.AdminGroupId(x) in d.groups
  {
  }

  lemma BootstrapHasConsole(d: Directory, x: Id, rnd: Seed.Randoms)
    requires Seed.Run(d, Seed.BootstrapConsole(x), rnd).Some?
    ensures Seed.ConsoleId(x) in Seed.Run(d, Seed.BootstrapConsole(x), rnd).value.apps
  {
    hide Seed.Run, Seed.ConsoleId, Seed.AdminGroupId, Seed.AdminRoleId, Seed.SupportRoleId, Seed.PermissionCommands, Seed.RoleCommands, Seed.GroupCommands;
    SeedInvariant.BootstrapSettles(d, x, rnd);
    assert Seed.BootstrapConsole(x)[0] == Seed.EnsureConsole(x);
    assert Seed.Settled(Seed.Run(d, Seed.BootstrapConsole(x), rnd).value, Seed.EnsureConsole(x));
  }

  lemma FoundingAddsDerived(s: Store, x: Id, name: string, branding: Branding, domains: seq<string>, rnd: Seed.Randoms)
    requires SeedInvariant.Unclaimed(s.dir, x) && CreateTenant(s, x, name, branding, domains, rnd).1.Ok?
    ensures AddsDerived(s.dir, CreateTenant(s, x, name, branding, domains, rnd).0.dir, x, rnd)
  {
    hide AdminEffects.Furnished, AllDerive, IsScope, Seed.Run, Seed.BootstrapConsole, ReplacedDomains, PublicTenant, Repeats,
      DomainOwnedElsewhere, Seed.ConsoleId, Seed.AdminGroupId, Seed.AdminRoleId, Seed.SupportRoleId, SeedInvariant.ScopeId, Seed.SameApp, Seed.SameTenant,
      Seed.KeepsTenants, Seed.KeepsUsers, Seed.NewClientId;
    var d := WithTenant(s.dir, x, name, branding, domains);
    var end := Seed.Run(d, Seed.BootstrapConsole(x), rnd).value;
    BootstrapDerives(x);
    RunAddsOnlyDerived(d, Seed.BootstrapConsole(x), x, rnd);
    Seed.RunGrows(d, Seed.BootstrapConsole(x), rnd);
    BootstrapHasConsole(d, x, rnd);
    AdminEffects.CreatedIsFurnished(s, x, name, branding, domains, rnd);
    FurnishedHasRows(end, x);
    ScopesAreFurnished(end, x);
  }

  // ------------------------------------------------------------- editing a tenant, on two stores

  /** The one lookup across tenants that editing a tenant makes. */
  predicate DomainClaim(s: Store, t: Id, p: TenantPatch) {
    t in s.dir.tenants && p.domains.Some? && DomainOwnedElsewhere(s.dir.domains, t, p.domains.value)
  }

  lemma ReplacedOnBoth(t: Id, s1: Store, s2: Store, row: Tenant, wanted: seq<string>)
    requires AgreeOn(t, s1, s2)
    ensures AgreeDomains(t, ReplacedDomains(s1.dir.domains, t, wanted), ReplacedDomains(s2.dir.domains, t, wanted))
    ensures forall x :: x in ReplacedDomains(s1.dir.domains, t, wanted) && ReplacedDomains(s1.dir.domains, t, wanted)[x] == t <==> x in wanted
  {
  }

  lemma ReshapedOnBoth(t: Id, s1: Store, s2: Store, row: Tenant, a: map<string, Id>, b: map<string, Id>)
    requires AgreeOn(t, s1, s2) && AgreeDomains(t, a, b)
    ensures var x, y := s1.dir.(tenants := s1.dir.tenants[t := row], domains := a), s2.dir.(tenants := s2.dir.tenants[t := row], domains := b);
      AgreeOn(t, OnDirectory(s1, x), OnDirectory(s2, y)) && PublicTenant(x, t) == PublicTenant(y, t)
  {
    assert (set k | k in a && a[k] == t) == (set k | k in b && b[k] == t);
  }

  /** The answer is the same exactly when the wanted domains are free of others on both, or on neither; and then the stores agree. */
  lemma ReshapeMatchesIff(t: Id, s1: Store, s2: Store, p: TenantPatch)
    requires AgreeOn(t, s1, s2)
    ensures PatchTenant(s1, t, p).1 == PatchTenant(s2, t, p).1 <==> DomainClaim(s1, t, p) == DomainClaim(s2, t, p)
    ensures DomainClaim(s1, t, p) == DomainClaim(s2, t, p) ==> AgreeOn(t, PatchTenant(s1, t, p).0, PatchTenant(s2, t, p).0)
  {
    hide AgreeOn, AgreeDomains, Repeats, DomainOwnedElsewhere, ReplacedDomains, PublicTenant;
    TenantLookups(t, s1, s2, "", "");
    if t in s1.dir.tenants && DomainClaim(s1, t, p) == DomainClaim(s2, t, p) {
      var was := s1.dir.tenants[t];
      var row := was.(name := p.name.GetOr(was.name), branding := p.branding.GetOr(was.branding));
      DomainsAgree(t, s1, s2);
      if p.domains.Some? {
        ReplacedOnBoth(t, s1, s2, row, p.domains.value);
        ReshapedOnBoth(t, s1, s2, row, ReplacedDomains(s1.dir.domains, t, p.domains.value), ReplacedDomains(s2.dir.domains, t, p.domains.value));
      } else {
        ReshapedOnBoth(t, s1, s2, row, s1.dir.domains, s2.dir.domains);
      }
    }
  }

  lemma DomainsAgree(t: Id, s1: Store, s2: Store)
    requires AgreeOn(t, s1, s2)
    ensures AgreeDomains(t, s1.dir.domains, s2.dir.domains)
  {
  }

  lemma OtherRowStaysHome(s: Store, x: Id, row: Tenant, domains: map<string, Id>, t: Id)
    requires t != x && AgreeDomains(t, s.dir.domains, domains)
    ensures AgreeOn(t, s, OnDirectory(s, s.dir.(tenants := s.dir.tenants[x := row], domains := domains)))
  {
  }

  lemma OtherDomainsStayHome(domains: map<string, Id>, x: Id, wanted: seq<string>, t: Id)
    requires t != x && !DomainOwnedElsewhere(domains, x, wanted)
    ensures AgreeDomains(t, domains, ReplacedDomains(domains, x, wanted))
  {
  }

  /** Editing another tenant. */
  lemma ReshapeStaysHome(s: Store, x: Id, p: TenantPatch, t: Id)
    requires t != x
    ensures AgreeOn(t, s, PatchTenant(s, x, p).0)
  {
    hide AgreeOn, AgreeDomains, PublicTenant, Repeats, DomainOwnedElsewhere, ReplacedDomains;
    AgreeRefl(t, s);
    DomainsAgree(t, s, s);
    if PatchTenant(s, x, p).1.Ok? {
      var d' := PatchTenant(s, x, p).0.dir;
      if p.domains.Some? {
        OtherDomainsStayHome(s.dir.domains, x, p.domains.value, t);
      }
      OtherRowStaysHome(s, x, d'.tenants[x], d'.domains, t);
    }
  }

  // ------------------------------------------------------------- what a new tenant takes from the others

  lemma FoundingKeepsWellFormed(s: Store, x: Id, name: string, branding: Branding, domains: seq<string>, rnd: Seed.Randoms)
    requires WellFormed(s) && (CreateTenant(s, x, name, branding, domains, rnd).1.Ok? ==> SeedInvariant.Unclaimed(s.dir, x))
    ensures WellFormed(CreateTenant(s, x, name, branding, domains, rnd).0)
  {
    hide Valid, SeedInvariant.Unclaimed, Seed.Run, Seed.BootstrapConsole, ReplacedDomains, PublicTenant, Repeats, DomainOwnedElsewhere, AddsDerived;
    CreateTenantKeepsValidIffUnclaimed(s, x, name, branding, domains, rnd);
    if CreateTenant(s, x, name, branding, domains, rnd).1.Ok? {
      FoundingAddsDerived(s, x, name, branding, domains, rnd);
      SameUsers(s.dir, CreateTenant(s, x, name, branding, domains, rnd).0.dir, x, rnd);
    }
  }

  lemma SameUsers(a: Directory, b: Directory, x: Id, rnd: Seed.Randoms)
    requires AddsDerived(a, b, x, rnd)
    ensures b.users == a.users
  {
  }

  /** The request gets to ask for a value the new tenant has taken. */
  ghost predicate AsksFor(s: Store, op: Operator, c: Call, x: Id, rnd: Seed.Randoms) {
    match c
    case CallCreateApp(a, clientId, _, _) =>
      || a == Seed.ConsoleId(x)
      || (a !in s.dir.apps && op.tenant in s.dir.tenants && clientId == Seed.NewClientId(Seed.ConsoleId(x), rnd))
    case CallCreateGroup(g, _, _) => g == Seed.AdminGroupId(x)
    case CallCreateRole(r, app, _, _) => OwnsApp(s.dir, op.tenant, app) && r in {Seed.AdminRoleId(x), Seed.SupportRoleId(x)}
    case CallCreatePermission(app, resource, operation, _) =>
      && OwnsApp(s.dir, op.tenant, app) && !Seed.ScopeTaken(s.dir.permissions, app, resource, operation)
      && IsScope(x, Seed.PermissionId(app, resource, operation))
    case _ => false
  }

  lemma ClientIdsAfter(a: Directory, b: Directory, x: Id, rnd: Seed.Randoms, clientId: string)
    requires AddsDerived(a, b, x, rnd)
    ensures Seed.ClientIdTaken(b.apps, clientId) <==> Seed.ClientIdTaken(a.apps, clientId) || clientId == Seed.NewClientId(Seed.ConsoleId(x), rnd)
  {
    hide IsScope, Seed.NewClientId, Seed.ConsoleId, Seed.AdminGroupId, Seed.AdminRoleId, Seed.SupportRoleId;
    if Seed.ClientIdTaken(a.apps, clientId) {
      var k :| k in a.apps && a.apps[k].clientId == Some(clientId);
      assert k in b.apps && b.apps[k].clientId == Some(clientId);
    }
  }

  /** The drawn client id was nobody's. */
  lemma NewClientIdWasFree(a: Directory, b: Directory, x: Id, rnd: Seed.Randoms)
    requires AddsDerived(a, b, x, rnd) && UniqueClientIds(b.apps) && Seed.ConsoleId(x) !in a.apps
    ensures !Seed.ClientIdTaken(a.apps, Seed.NewClientId(Seed.ConsoleId(x), rnd))
  {
    hide IsScope, Seed.NewClientId, Seed.ConsoleId, Seed.AdminGroupId, Seed.AdminRoleId, Seed.SupportRoleId;
  }

  lemma AppClaimsAfter(s: Store, s': Store, op: Operator, c: Call, x: Id, rnd: Seed.Randoms)
    requires c.CallCreateApp? && AddsDerived(s.dir, s'.dir, x, rnd) && SeedInvariant.Unclaimed(s.dir, x)
    requires UniqueClientIds(s'.dir.apps) && (op.tenant in s.dir.tenants <==> op.tenant in s'.dir.tenants)
    ensures SameClaims(s, s', op, c) <==> !AsksFor(s, op, c, x, rnd)
  {
    hide IsScope, Seed.NewClientId, Seed.ConsoleId, Seed.AdminGroupId, Seed.AdminRoleId, Seed.SupportRoleId, Seed.ClientIdTaken, SeedInvariant.ScopeId,
      UniqueClientIds;
    ClientIdsAfter(s.dir, s'.dir, x, rnd, c.clientId);
    NewClientIdWasFree(s.dir, s'.dir, x, rnd);
  }

  lemma PermissionClaimsAfter(s: Store, s': Store, op: Operator, c: Call, x: Id, rnd: Seed.Randoms)
    requires c.CallCreatePermission? && AddsDerived(s.dir, s'.dir, x, rnd) && SeedInvariant.Unclaimed(s.dir, x)
    requires OwnsApp(s.dir, op.tenant, c.app) <==> OwnsApp(s'.dir, op.tenant, c.app)
    requires OwnsApp(s.dir, op.tenant, c.app) ==>
      (Seed.ScopeTaken(s.dir.permissions, c.app, c.resource, c.operation) <==> Seed.ScopeTaken(s'.dir.permissions, c.app, c.resource, c.operation))
    ensures SameClaims(s, s', op, c) <==> !AsksFor(s, op, c, x, rnd)
  {
    hide IsScope, Seed.NewClientId, Seed.ConsoleId, Seed.AdminGroupId, Seed.AdminRoleId, Seed.SupportRoleId, Seed.PermissionId, Seed.ScopeTaken,
      SeedInvariant.ScopeId, OwnsApp, SeedInvariant.Unclaimed;
    ScopesWereFree(s.dir, x, Seed.PermissionId(c.app, c.resource, c.operation));
  }

  lemma OtherClaimsAfter(s: Store, s': Store, op: Operator, c: Call, x: Id, rnd: Seed.Randoms)
    requires !c.CallCreateApp? && !c.CallCreatePermission? && s'.auth == s.auth && AddsDerived(s.dir, s'.dir, x, rnd) && SeedInvariant.Unclaimed(s.dir, x)
    requires op.tenant in s.dir.tenants <==> op.tenant in s'.dir.tenants
    requires c.CallCreateRole? ==> (OwnsApp(s.dir, op.tenant, c.app) <==> OwnsApp(s'.dir, op.tenant, c.app))
    ensures SameClaims(s, s', op, c) <==> !AsksFor(s, op, c, x, rnd)
  {
    hide IsScope, Seed.NewClientId, Seed.ConsoleId, Seed.AdminGroupId, Seed.AdminRoleId, Seed.SupportRoleId, Seed.EmailTaken, NormaliseEmail, OwnsApp,
      SeedInvariant.ScopeId;
  }

  lemma ClaimsAfter(s: Store, s': Store, op: Operator, c: Call, x: Id, rnd: Seed.Randoms)
    requires Twins(s, s', op.tenant) && s'.auth == s.auth && SeedInvariant.Unclaimed(s.dir, x) && AddsDerived(s.dir, s'.dir, x, rnd)
    ensures SameClaims(s, s', op, c) <==> !AsksFor(s, op, c, x, rnd)
  {
    hide AgreeOn, AddsDerived, SeedInvariant.Unclaimed, SameClaims, AsksFor, OwnersExist, OwnsApp, Seed.ScopeTaken, UniqueClientIds, UsersOk, GroupsOk,
      RolesOk, PermissionsOk, MembersOk, GroupRolesOk, RolePermissionsOk, DomainsOk, ConsolesOk;
    TenantLookups(op.tenant, s, s', "", "");
    if c.CallCreateApp? {
      AppClaimsAfter(s, s', op, c, x, rnd);
    } else if c.CallCreatePermission? {
      if OwnsApp(s.dir, op.tenant, c.app) {
        AppLookups(op.tenant, s, s', c.app, "", c.resource, c.operation);
      }
      PermissionClaimsAfter(s, s', op, c, x, rnd);
    } else {
      OtherClaimsAfter(s, s', op, c, x, rnd);
    }
  }

  lemma ScopesWereFree(d: Directory, x: Id, p: Id)
    requires SeedInvariant.Unclaimed(d, x)
    ensures IsScope(x, p) ==> p !in d.permissions
  {
    hide SeedInvariant.ScopeId;
  }

  lemma FoundingLeavesAuth(s: Store, x: Id, name: string, branding: Branding, domains: seq<string>, rnd: Seed.Randoms)
    ensures CreateTenant(s, x, name, branding, domains, rnd).0.auth == s.auth
  {
  }

  /**
   Right after a tenant is created over ids nobody had, an operator of another tenant
   is answered as before exactly when their request does not ask for a value it took.
   */
  lemma FoundingInterferesIff(s: Store, x: Id, name: string, branding: Branding, domains: seq<string>, rnd: Seed.Randoms, op: Operator, c: Call)
    requires WellFormed(s) && SeedInvariant.Unclaimed(s.dir, x) && op.tenant != x && CreateTenant(s, x, name, branding, domains, rnd).1.Ok?
    ensures SameAnswer(s, CreateTenant(s, x, name, branding, domains, rnd).0, op, c) <==> !AsksFor(s, op, c, x, rnd)
  {
    hide WellFormed, SeedInvariant.Unclaimed, CreateTenant, SameAnswer, SameClaims, AsksFor, AgreeOn, AddsDerived, Execute;
    var s' := CreateTenant(s, x, name, branding, domains, rnd).0;
    FoundingKeepsWellFormed(s, x, name, branding, domains, rnd);
    FoundingStaysHome(s, x, name, branding, domains, rnd, op.tenant);
    FoundingAddsDerived(s, x, name, branding, domains, rnd);
    FoundingLeavesAuth(s, x, name, branding, domains, rnd);
    NonInterference(s, s', op, c);
    ClaimsAfter(s, s', op, c, x, rnd);
  }

  lemma DomainsAfter(s: Store, x: Id, name: string, branding: Branding, domains: seq<string>, rnd: Seed.Randoms)
    requires CreateTenant(s, x, name, branding, domains, rnd).1.Ok? && SeedInvariant.Unclaimed(s.dir, x)
    ensures CreateTenant(s, x, name, branding, domains, rnd).0.dir.domains == ReplacedDomains(s.dir.domains, x, domains)
  {
    hide AllDerive, IsScope, Seed.Run, Seed.BootstrapConsole, ReplacedDomains, PublicTenant, Repeats, DomainOwnedElsewhere, Seed.ConsoleId, Seed.AdminGroupId,
      Seed.AdminRoleId, Seed.SupportRoleId, SeedInvariant.ScopeId, Seed.NewClientId;
    var d := WithTenant(s.dir, x, name, branding, domains);
    BootstrapDerives(x);
    RunAddsOnlyDerived(d, Seed.BootstrapConsole(x), x, rnd);
  }

  lemma ElsewhereAfter(domains: map<string, Id>, x: Id, taken: seq<string>, t: Id, wanted: seq<string>)
    requires t != x && (forall k :: k in domains ==> domains[k] != x) && !DomainOwnedElsewhere(domains, x, taken)
    ensures DomainOwnedElsewhere(ReplacedDomains(domains, x, taken), t, wanted) <==>
      DomainOwnedElsewhere(domains, t, wanted) || exists w :: w in wanted && w in taken
  {
    if w :| w in wanted && w in domains && domains[w] != t {
      assert w in ReplacedDomains(domains, x, taken) && ReplacedDomains(domains, x, taken)[w] != t;
    }
    if w :| w in wanted && w in taken {
      assert w in ReplacedDomains(domains, x, taken) && ReplacedDomains(domains, x, taken)[w] == x;
    }
  }

  lemma AcceptedIsFree(s: Store, x: Id, name: string, branding: Branding, domains: seq<string>, rnd: Seed.Randoms)
    requires CreateTenant(s, x, name, branding, domains, rnd).1.Ok?
    ensures x !in s.dir.tenants && !DomainOwnedElsewhere(s.dir.domains, x, domains)
  {
    hide DomainOwnedElsewhere;
  }

  /** And editing a tenant is answered as before exactly when it wants none of the new one's domains, or could not have them anyway. */
  lemma FoundingTakesDomainsIff(s: Store, x: Id, name: string, branding: Branding, domains: seq<string>, rnd: Seed.Randoms, t: Id, p: TenantPatch)
    requires WellFormed(s) && SeedInvariant.Unclaimed(s.dir, x) && t != x && CreateTenant(s, x, name, branding, domains, rnd).1.Ok?
    ensures var s' := CreateTenant(s, x, name, branding, domains, rnd).0;
      PatchTenant(s, t, p).1 != PatchTenant(s', t, p).1 <==>
        t in s.dir.tenants && p.domains.Some? && !DomainClaim(s, t, p) && exists w :: w in p.domains.value && w in domains
  {
    hide WellFormed, SeedInvariant.Unclaimed, CreateTenant, PatchTenant, AgreeOn, DomainOwnedElsewhere, ReplacedDomains;
    var s' := CreateTenant(s, x, name, branding, domains, rnd).0;
    AcceptedIsFree(s, x, name, branding, domains, rnd);
    NoDomainsYet(s, x);
    FoundingStaysHome(s, x, name, branding, domains, rnd, t);
    DomainsAfter(s, x, name, branding, domains, rnd);
    ReshapeMatchesIff(t, s, s', p);
    TenantLookups(t, s, s', "", "");
    if p.domains.Some? {
      ElsewhereAfter(s.dir.domains, x, domains, t, p.domains.value);
    }
  }

  lemma NoDomainsYet(s: Store, x: Id)
    requires WellFormed(s)
    ensures x !in s.dir.tenants ==> forall k :: k in s.dir.domains ==> s.dir.domains[k] != x
  {
    hide AppsOk, UsersOk, GroupsOk, RolesOk, PermissionsOk, MembersOk, GroupRolesOk, RolePermissionsOk, ConsolesOk, OwnersExist;
  }
}
