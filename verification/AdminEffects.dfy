/** What admin requests do to permissions, and to a tenant with a twin. */
module AdminEffects {
  import opened Wrappers
  import opened Models
  import opened DirectoryInvariant
  import opened Authz
  import opened Admin
  import opened AdminInvariant
  import Seed
  import SeedInvariant

  /** Nobody holds anything on another tenant's application. */
  lemma PermissionsStayHome(d: Directory, user: Id, app: Id)
    requires Valid(d)
    ensures HasAccess(d, user, app) ==> user in d.users && app in d.apps && d.users[user].tenant == d.apps[app].tenant
    ensures EffectivePermissions(d, user, app) != {} ==> HasAccess(d, user, app)
  {
  }

  predicate Removes(c: Call) {
    c.CallDeleteGroup? || c.CallRemoveMember? || c.CallRemoveGroupRole? || c.CallDeleteRole?
  }

  lemma RemovingShrinks(s: Store, op: Operator, c: Call)
    requires Removes(c)
    ensures Shrunk(s.dir, Execute(s, op, c).0.dir)
  {
    hide DetailedGroup;
  }

  /** Deleting or unlinking never gives anyone a permission. */
  lemma RemovingNeverGrants(s: Store, op: Operator, c: Call, user: Id, app: Id)
    requires Removes(c)
    ensures var d' := Execute(s, op, c).0.dir;
      && RolesOf(d', user, app) <= RolesOf(s.dir, user, app)
      && EffectivePermissions(d', user, app) <= EffectivePermissions(s.dir, user, app)
  {
    hide RolesOf, EffectivePermissions, Execute, Shrunk;
    RemovingShrinks(s, op, c);
    RemovalsNeverEnlarge(s.dir, Execute(s, op, c).0.dir, user, app);
  }

  /** An accepted PUT of a role's permissions is exact for everyone, on every application. */
  lemma SettingPermissionsIsExact(s: Store, op: Operator, role: Id, wanted: set<Id>, user: Id, app: Id)
    requires SetRolePermissions(s, op, role, wanted).1.Ok?
    ensures var d' := SetRolePermissions(s, op, role, wanted).0.dir;
      EffectivePermissions(d', user, app) ==
        if role in RolesOf(s.dir, user, app)
        then OtherRoles(s.dir, user, app, role) + (set p | p in wanted :: ScopeOf(s.dir.permissions[p]))
        else EffectivePermissions(s.dir, user, app)
  {
    hide EffectivePermissions, OtherRoles, DetailedRole;
    ReplacementIsExact(s.dir, role, wanted, user, app);
    if role in RolesOf(s.dir, user, app) {
      HoldsIffInRoles(s.dir, user, role, app);
      assert ScopesIn(s.dir, wanted, app) == set p | p in wanted :: ScopeOf(s.dir.permissions[p]);
    }
  }

  // ------------------------------------------------------------- tenants with the same mangled id

  lemma MangleAppend(a: string, b: string)
    ensures Seed.Mangle(a + b) == Seed.Mangle(a) + Seed.Mangle(b)
  {
  }

  lemma TwinIds(t: Id, u: Id)
    requires Seed.Mangle(t) == Seed.Mangle(u)
    ensures Seed.AdminGroupId(t) == Seed.AdminGroupId(u)
    ensures Seed.AdminRoleId(t) == Seed.AdminRoleId(u) && Seed.SupportRoleId(t) == Seed.SupportRoleId(u)
    ensures forall r, o :: Seed.PermissionId(Seed.ConsoleId(t), r, o) == Seed.PermissionId(Seed.ConsoleId(u), r, o)
  {
    hide Seed.Mangle;
    Mangled("grp_", t, u, "_admins");
    Mangled("role_", t, u, "_tenant_admin");
    Mangled("role_", t, u, "_support");
    forall r: string, o: string ensures Seed.PermissionId(Seed.ConsoleId(t), r, o) == Seed.PermissionId(Seed.ConsoleId(u), r, o) {
      var rest := "-console" + "_" + r + "_" + o;
      Mangled("perm_", t, u, rest);
      assert "perm_" + (t + "-console") + "_" + r + "_" + o == "perm_" + t + rest;
      assert "perm_" + (u + "-console") + "_" + r + "_" + o == "perm_" + u + rest;
    }
  }

  lemma Mangled(a: string, t: Id, u: Id, b: string)
    requires Seed.Mangle(t) == Seed.Mangle(u)
    ensures Seed.Mangle(a + t + b) == Seed.Mangle(a + u + b)
  {
    hide Seed.Mangle;
    MangleAppend(a + t, b);
    MangleAppend(a, t);
    MangleAppend(a + u, b);
    MangleAppend(a, u);
  }

  /** Every row of a tenant's console but the application itself. */
  ghost predicate Furnished(d: Directory, t: Id) {
    && Seed.AdminRoleId(t) in d.roles && Seed.SupportRoleId(t) in d.roles && Seed.AdminGroupId(t) in d.groups
    && GroupRole(Seed.AdminGroupId(t), Seed.AdminRoleId(t)) in d.groupRoles
    && (forall p :: p in Seed.CONSOLE_PERMISSIONS ==> Seed.PermissionId(Seed.ConsoleId(t), p.resource, p.operation) in d.permissions)
    && Carried(d, t, Seed.AdminRoleId(t), Seed.TENANT_ADMIN_SCOPES)
    && Carried(d, t, Seed.SupportRoleId(t), Seed.SUPPORT_SCOPES)
  }

  ghost predicate Carried(d: Directory, t: Id, role: Id, scopes: seq<Seed.ScopeSpec>) {
    forall x :: x in scopes ==>
      RolePermission(role, Seed.PermissionId(Seed.ConsoleId(t), x.resource, x.operation)) in d.rolePermissions
  }

  /** What a bootstrap does between ensuring the application and linking it. */
  function Furnishing(t: Id): seq<Seed.Command> {
    Seed.PermissionCommands(Seed.ConsoleId(t), Seed.CONSOLE_PERMISSIONS)
    + Seed.RoleCommands(t, Seed.AdminRoleId(t), Seed.ConsoleId(t), "tenant-admin",
        "Administrar la organización: directorio, aplicaciones y política de riesgo", Seed.TENANT_ADMIN_SCOPES)
    + Seed.RoleCommands(t, Seed.SupportRoleId(t), Seed.ConsoleId(t), "support",
        "Explicar un inicio de sesión: leer decisiones y motivos, sin cambiar nada", Seed.SUPPORT_SCOPES)
    + Seed.GroupCommands(t, Seed.AdminGroupId(t), "Administradores",
        "Administran la organización en la consola", [Seed.AdminRoleId(t)])
  }

  lemma {:induction false} PermissionsSettled(d: Directory, app: Id, rows: seq<Seed.PermissionSpec>)
    ensures Seed.AllSettled(d, Seed.PermissionCommands(app, rows)) <==>
      forall p :: p in rows ==> Seed.PermissionId(app, p.resource, p.operation) in d.permissions
  {
    hide Seed.PermissionId;
    if rows != [] {
      PermissionsSettled(d, app, rows[1..]);
      SettledHead(d, Seed.PermissionCommands(app, rows));
      assert rows == [rows[0]] + rows[1..];
    }
  }

  lemma {:induction false} ScopesSettled(d: Directory, role: Id, app: Id, scopes: seq<Seed.ScopeSpec>)
    ensures Seed.AllSettled(d, Seed.ScopeCommands(role, app, scopes)) <==>
      forall x :: x in scopes ==> RolePermission(role, Seed.PermissionId(app, x.resource, x.operation)) in d.rolePermissions
  {
    hide Seed.PermissionId;
    if scopes != [] {
      ScopesSettled(d, role, app, scopes[1..]);
      SettledHead(d, Seed.ScopeCommands(role, app, scopes));
      assert scopes == [scopes[0]] + scopes[1..];
    }
  }

  lemma SettledHead(d: Directory, cs: seq<Seed.Command>)
    requires cs != []
    ensures Seed.AllSettled(d, cs) <==> Seed.Settled(d, cs[0]) && Seed.AllSettled(d, cs[1..])
  {
  }

  lemma SettledAppend(d: Directory, a: seq<Seed.Command>, b: seq<Seed.Command>)
    ensures Seed.AllSettled(d, a + b) <==> Seed.AllSettled(d, a) && Seed.AllSettled(d, b)
  {
    hide Seed.Settled;
    forall i | 0 <= i < |b| && Seed.AllSettled(d, a + b) ensures Seed.Settled(d, b[i]) {
      assert (a + b)[|a| + i] == b[i];
    }
    forall i | 0 <= i < |a| && Seed.AllSettled(d, a + b) ensures Seed.Settled(d, a[i]) {
      assert (a + b)[i] == a[i];
    }
  }

  lemma RolesSettled(d: Directory, t: Id, role: Id, name: string, description: string, scopes: seq<Seed.ScopeSpec>)
    ensures Seed.AllSettled(d, Seed.RoleCommands(t, role, Seed.ConsoleId(t), name, description, scopes)) <==>
      role in d.roles && Carried(d, t, role, scopes)
  {
    hide Seed.PermissionId, Seed.ConsoleId, Seed.AllSettled, Seed.ScopeCommands;
    var cs := Seed.RoleCommands(t, role, Seed.ConsoleId(t), name, description, scopes);
    assert cs[1..] == Seed.ScopeCommands(role, Seed.ConsoleId(t), scopes);
    SettledHead(d, cs);
    ScopesSettled(d, role, Seed.ConsoleId(t), scopes);
  }

  lemma GroupSettled(d: Directory, t: Id, group: Id, role: Id, name: string, description: string)
    ensures Seed.AllSettled(d, Seed.GroupCommands(t, group, name, description, [role])) <==>
      group in d.groups && GroupRole(group, role) in d.groupRoles
  {
    var cs := Seed.GroupCommands(t, group, name, description, [role]);
    assert Seed.GroupRoleCommands(group, [role]) == [Seed.EnsureGroupRole(group, role)];
    assert |cs| == 2 && cs[0].EnsureGroup? && cs[1] == Seed.EnsureGroupRole(group, role);
    assert Seed.AllSettled(d, cs) <==> Seed.Settled(d, cs[0]) && Seed.Settled(d, cs[1]);
  }

  lemma FurnishedIffSettled(d: Directory, t: Id)
    ensures Furnished(d, t) <==> Seed.AllSettled(d, Furnishing(t))
  {
    hide Seed.PermissionId, Seed.ConsoleId, Seed.AdminGroupId, Seed.AdminRoleId, Seed.SupportRoleId, Seed.AllSettled, Carried,
      Seed.PermissionCommands, Seed.RoleCommands, Seed.GroupCommands;
    var admin, manage := "tenant-admin", "Administrar la organización: directorio, aplicaciones y política de riesgo";
    var support, explain := "support", "Explicar un inicio de sesión: leer decisiones y motivos, sin cambiar nada";
    var group, run := "Administradores", "Administran la organización en la consola";
    var p := Seed.PermissionCommands(Seed.ConsoleId(t), Seed.CONSOLE_PERMISSIONS);
    var a := Seed.RoleCommands(t, Seed.AdminRoleId(t), Seed.ConsoleId(t), admin, manage, Seed.TENANT_ADMIN_SCOPES);
    var s := Seed.RoleCommands(t, Seed.SupportRoleId(t), Seed.ConsoleId(t), support, explain, Seed.SUPPORT_SCOPES);
    var g := Seed.GroupCommands(t, Seed.AdminGroupId(t), group, run, [Seed.AdminRoleId(t)]);
    PermissionsSettled(d, Seed.ConsoleId(t), Seed.CONSOLE_PERMISSIONS);
    RolesSettled(d, t, Seed.AdminRoleId(t), admin, manage, Seed.TENANT_ADMIN_SCOPES);
    RolesSettled(d, t, Seed.SupportRoleId(t), support, explain, Seed.SUPPORT_SCOPES);
    GroupSettled(d, t, Seed.AdminGroupId(t), Seed.AdminRoleId(t), group, run);
    SettledAppend(d, p, a);
    SettledAppend(d, p + a, s);
    SettledAppend(d, p + a + s, g);
  }

  lemma BootstrapParts(t: Id)
    ensures Seed.BootstrapConsole(t) == [Seed.EnsureConsole(t)] + Furnishing(t) + [Seed.SetConsole(t)]
  {
    hide Seed.ConsoleId, Seed.AdminGroupId, Seed.AdminRoleId, Seed.SupportRoleId,
      Seed.PermissionCommands, Seed.RoleCommands, Seed.GroupCommands;
  }

  lemma FurnishingTwins(d: Directory, t: Id, u: Id)
    requires Seed.Mangle(t) == Seed.Mangle(u) && Furnished(d, t)
    ensures Furnished(d, u)
  {
    hide Seed.Mangle, Seed.PermissionId, Seed.ConsoleId, Seed.AdminGroupId, Seed.AdminRoleId, Seed.SupportRoleId;
    TwinIds(t, u);
  }

  lemma {:induction false} FurnishingWritesNoRedirect(cs: seq<Seed.Command>, a: Id)
    requires forall c :: c in cs ==> !c.EnsureApplication?
    ensures Seed.LastRedirect(cs, a) == None
  {
    if cs != [] { FurnishingWritesNoRedirect(cs[1..], a); }
  }

  lemma FurnishingAgain(d: Directory, t: Id, rnd: Seed.Randoms)
    requires Furnished(d, t)
    ensures Seed.Run(d, Furnishing(t), rnd) == Some(d)
  {
    hide Furnished, Furnishing, Seed.Run, Seed.RunOne, Seed.Settled;
    FurnishedIffSettled(d, t);
    Seed.Rerun(d, Furnishing(t), rnd);
    SeedInvariant.BootstrapIsForConsole(t);
    BootstrapParts(t);
    forall c | c in Furnishing(t) ensures !c.EnsureApplication? {
      assert c in Seed.BootstrapConsole(t);
      assert SeedInvariant.ForConsole(c, t);
    }
    forall a ensures Seed.LastRedirect(Furnishing(t), a) == None {
      FurnishingWritesNoRedirect(Furnishing(t), a);
    }
    assert Seed.WithRedirects(d, Furnishing(t)).apps == d.apps;
  }

  lemma EnsuringAFreshConsole(d: Directory, t: Id, u: Id, rnd: Seed.Randoms)
    requires u in d.tenants && Furnished(d, t) && Seed.ConsoleId(u) !in d.apps
    requires !Seed.ClientIdTaken(d.apps, Seed.NewClientId(Seed.ConsoleId(u), rnd))
    ensures Seed.RunOne(d, Seed.EnsureConsole(u), rnd).Some?
    ensures var d1 := Seed.RunOne(d, Seed.EnsureConsole(u), rnd).value;
      Furnished(d1, t) && Seed.ConsoleId(u) in d1.apps && d1 == d.(apps := d1.apps)
  {
    hide Seed.ConsoleId, Seed.AdminGroupId, Seed.AdminRoleId, Seed.SupportRoleId, Seed.PermissionId, Seed.NewClientId, Seed.ClientIdTaken;
  }

  lemma RunSingle(d: Directory, c: Seed.Command, rnd: Seed.Randoms)
    ensures Seed.Run(d, [c], rnd) == Seed.RunOne(d, c, rnd)
  {
  }

  lemma LinkingSucceeds(d: Directory, u: Id, rnd: Seed.Randoms)
    requires u in d.tenants && Seed.AdminGroupId(u) in d.groups && Seed.ConsoleId(u) in d.apps
    ensures Seed.RunOne(d, Seed.SetConsole(u), rnd).Some?
  {
  }

  lemma FurnishedHasGroup(d: Directory, u: Id)
    requires Furnished(d, u)
    ensures Seed.AdminGroupId(u) in d.groups
  {
  }

  lemma SecondBootstrap(d: Directory, t: Id, u: Id, rnd: Seed.Randoms)
    requires u in d.tenants && Furnished(d, t) && Seed.Mangle(t) == Seed.Mangle(u) && Seed.ConsoleId(u) !in d.apps
    requires !Seed.ClientIdTaken(d.apps, Seed.NewClientId(Seed.ConsoleId(u), rnd))
    ensures Seed.Run(d, Seed.BootstrapConsole(u), rnd).Some?
  {
    hide Seed.Mangle, Seed.BootstrapConsole, Furnishing, Furnished, Seed.Run, Seed.RunOne, Seed.ConsoleId, Seed.AdminGroupId, Seed.NewClientId,
      Seed.ClientIdTaken;
    EnsuringAFreshConsole(d, t, u, rnd);
    var first, last := [Seed.EnsureConsole(u)], [Seed.SetConsole(u)];
    var d1 := Seed.RunOne(d, Seed.EnsureConsole(u), rnd).value;
    FurnishingTwins(d1, t, u);
    FurnishingAgain(d1, u, rnd);
    FurnishedHasGroup(d1, u);
    LinkingSucceeds(d1, u, rnd);
    BootstrapParts(u);
    RunSingle(d, Seed.EnsureConsole(u), rnd);
    RunSingle(d1, Seed.SetConsole(u), rnd);
    Seed.RunAppend(d, first, Furnishing(u), rnd);
    Seed.RunAppend(d, first + Furnishing(u), last, rnd);
  }

  /**
   Two tenants whose ids differ only in '-' and '_' share every derived id but the
   console's. The second is created without complaint, on the first one's rows.
   */
  lemma TwinTenantIsCreatedBroken(s: Store, t: Id, u: Id, name: string, branding: Branding, rnd: Seed.Randoms)
    requires Valid(s.dir) && Furnished(s.dir, t) && u !in s.dir.tenants && Seed.Mangle(t) == Seed.Mangle(u)
    requires Seed.ConsoleId(u) !in s.dir.apps && !Seed.ClientIdTaken(s.dir.apps, Seed.NewClientId(Seed.ConsoleId(u), rnd))
    ensures CreateTenant(s, u, name, branding, [], rnd).1.Ok?
    ensures !Valid(CreateTenant(s, u, name, branding, [], rnd).0.dir)
  {
    hide Valid, Seed.Mangle, Seed.Run, Seed.BootstrapConsole, Seed.ConsoleId, Seed.AdminGroupId, Seed.AdminRoleId, Seed.SupportRoleId,
      Seed.PermissionId, Seed.NewClientId, Seed.ClientIdTaken, PublicTenant, ReplacedDomains;
    var d := WithTenant(s.dir, u, name, branding, []);
    assert Furnished(d, t);
    SecondBootstrap(d, t, u, rnd);
    CreateTenantKeepsValidIffUnclaimed(s, u, name, branding, [], rnd);
    FurnishingTwins(s.dir, t, u);
  }

  /** A created tenant is furnished, so its twin is one request away. */
  lemma CreatedIsFurnished(s: Store, t: Id, name: string, branding: Branding, domains: seq<string>, rnd: Seed.Randoms)
    requires CreateTenant(s, t, name, branding, domains, rnd).1.Ok?
    ensures Furnished(CreateTenant(s, t, name, branding, domains, rnd).0.dir, t)
  {
    hide Furnished, Furnishing, Seed.Settled, Seed.Run, Seed.BootstrapConsole, ReplacedDomains, PublicTenant, Repeats, DomainOwnedElsewhere;
    var d := WithTenant(s.dir, t, name, branding, domains);
    Seed.NoFillBootstrap(t);
    Seed.RunSettles(d, Seed.BootstrapConsole(t), rnd);
    var end := Seed.Run(d, Seed.BootstrapConsole(t), rnd).value;
    BootstrapParts(t);
    SettledAppend(end, [Seed.EnsureConsole(t)] + Furnishing(t), [Seed.SetConsole(t)]);
    SettledAppend(end, [Seed.EnsureConsole(t)], Furnishing(t));
    FurnishedIffSettled(end, t);
  }

  lemma HyphenMeetsUnderscore()
    ensures Seed.Mangle("a-b") == Seed.Mangle("a_b") && "a-b" != "a_b"
  {
  }
}
