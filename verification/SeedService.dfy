/**
 Seeding on the database, row by row and list by list. Each method is the run of the
 commands it stands for; it answers false where the database refuses a row, and the
 transaction around it then puts everything back.
 */
module SeedService {
  import opened Wrappers
  import opened Models
  import opened Seed
  import opened Database

  /** This is how the commands ran: to this directory, or not at all. */
  ghost predicate Ran(d: Directory, cs: seq<Command>, rnd: Randoms, ok: bool, d': Directory) {
    var r := Run(d, cs, rnd);
    (ok <==> r.Some?) && (ok ==> r.value == d')
  }

  lemma RanThen(d: Directory, a: seq<Command>, d1: Directory, b: seq<Command>, rnd: Randoms, ok: bool, d2: Directory)
    requires Ran(d, a, rnd, true, d1) && Ran(d1, b, rnd, ok, d2)
    ensures Ran(d, a + b, rnd, ok, d2)
  {
    hide Run;
    RunAppend(d, a, b, rnd);
  }

  lemma RanNot(d: Directory, a: seq<Command>, b: seq<Command>, rnd: Randoms, d1: Directory, d2: Directory)
    requires Ran(d, a, rnd, false, d1)
    ensures Ran(d, a + b, rnd, false, d2)
  {
    hide Run;
    RunAppend(d, a, b, rnd);
  }

  lemma RanOne(d: Directory, c: Command, rnd: Randoms, ok: bool, d': Directory)
    requires ok <==> RunOne(d, c, rnd).Some?
    requires ok ==> d' == RunOne(d, c, rnd).value
    ensures Ran(d, [c], rnd, ok, d')
  {
  }

  /** One more stage of a longer list; a refusal ends the whole list. */
  lemma RanStage(d: Directory, sofar: seq<Command>, d1: Directory, stage: seq<Command>, rest: seq<Command>, rnd: Randoms, ok: bool, d2: Directory)
    requires Ran(d, sofar, rnd, true, d1) && Ran(d1, stage, rnd, ok, d2)
    ensures Ran(d, sofar + stage, rnd, ok, d2)
    ensures !ok ==> Ran(d, sofar + stage + rest, rnd, false, d2)
  {
    hide Ran;
    RanThen(d, sofar, d1, stage, rnd, ok, d2);
    if !ok { RanNot(d, sofar + stage, rest, rnd, d2, d2); }
  }

  class SeedService {
    const db: Tables
    const rnd: Randoms

    constructor (db: Tables, rnd: Randoms)
      ensures this.db == db && this.rnd == rnd
    {
      this.db, this.rnd := db, rnd;
    }

    // ------------------------------------------------------------- single rows

    method EnsureTenantRow(t: Id, name: string, isPlatform: bool, style: string, primary: string, accent: string)
      modifies db`tenants
      ensures Ran(old(db.Dir()), [EnsureTenant(t, name, isPlatform, style, primary, accent)], rnd, true, db.Dir())
    {
      if t !in db.tenants {
        db.tenants := db.tenants[t := Tenant(name, isPlatform, None, None, Branding(name, style, None, primary, accent))];
      }
      RanOne(old(db.Dir()), EnsureTenant(t, name, isPlatform, style, primary, accent), rnd, true, db.Dir());
    }

    method EnsureLogoUrl(t: Id, url: string) returns (ok: bool)
      modifies db`tenants
      ensures Ran(old(db.Dir()), [EnsureLogo(t, url)], rnd, ok, db.Dir())
    {
      ok := t in db.tenants;
      if ok && db.tenants[t].branding.logoUrl.None? {
        db.tenants := db.tenants[t := db.tenants[t].(branding := db.tenants[t].branding.(logoUrl := Some(url)))];
      }
      RanOne(old(db.Dir()), EnsureLogo(t, url), rnd, ok, db.Dir());
    }

    method EnsureDomains(t: Id, domains: seq<string>) returns (ok: bool)
      modifies db`domains
      ensures Ran(old(db.Dir()), DomainCommands(t, domains), rnd, ok, db.Dir())
    {
      for i := 0 to |domains|
        invariant Run(db.Dir(), DomainCommands(t, domains[i..]), rnd) == Run(old(db.Dir()), DomainCommands(t, domains), rnd)
      {
        assert DomainCommands(t, domains[i..])[1..] == DomainCommands(t, domains[i + 1..]);
        if domains[i] !in db.domains {
          if t !in db.tenants {
            return false;
          }
          db.domains := db.domains[domains[i] := t];
        }
      }
      ok := true;
    }

    /** A row that is there keeps its name, tenant and state; it gains a missing client id, and the redirect if one is named. */
    method EnsureApplicationRow(t: Id, app: Id, name: string, redirect: Option<string>) returns (ok: bool)
      modifies db`apps
      ensures var r := ApplicationRow(old(db.Dir()), t, app, name, redirect, rnd); (ok <==> r.Some?) && (ok ==> r.value == db.Dir())
    {
      hide ClientIdTaken, NewClientId;
      if app !in db.apps {
        if t !in db.tenants || ClientIdTaken(db.apps, NewClientId(app, rnd)) {
          return false;
        }
        db.apps := db.apps[app := Application(Some(NewClientId(app, rnd)), t, name, true, redirect, false)];
        return true;
      }
      var row := db.apps[app];
      if row.clientId.None? {
        if ClientIdTaken(db.apps, NewClientId(app, rnd)) {
          return false;
        }
        row := row.(clientId := Some(NewClientId(app, rnd)));
      }
      if redirect.Some? {
        row := row.(redirectUri := redirect);
      }
      db.apps := db.apps[app := row];
      ok := true;
    }

    // ------------------------------------------------------------- lists of rows

    method EnsureApplications(t: Id, apps: seq<AppSpec>) returns (ok: bool)
      modifies db`apps
      ensures Ran(old(db.Dir()), AppCommands(t, apps), rnd, ok, db.Dir())
    {
      hide ApplicationRow;
      for i := 0 to |apps|
        invariant Run(db.Dir(), AppCommands(t, apps[i..]), rnd) == Run(old(db.Dir()), AppCommands(t, apps), rnd)
      {
        assert AppCommands(t, apps[i..])[1..] == AppCommands(t, apps[i + 1..]);
        var done := EnsureApplicationRow(t, apps[i].app, apps[i].name, apps[i].redirect);
        if !done {
          return false;
        }
      }
      ok := true;
    }

    method EnsurePermissions(app: Id, rows: seq<PermissionSpec>) returns (ok: bool)
      modifies db`permissions
      ensures Ran(old(db.Dir()), PermissionCommands(app, rows), rnd, ok, db.Dir())
    {
      hide PermissionId, ScopeTaken;
      for i := 0 to |rows|
        invariant Run(db.Dir(), PermissionCommands(app, rows[i..]), rnd) == Run(old(db.Dir()), PermissionCommands(app, rows), rnd)
      {
        assert PermissionCommands(app, rows[i..])[1..] == PermissionCommands(app, rows[i + 1..]);
        var x := rows[i];
        var p := PermissionId(app, x.resource, x.operation);
        if p !in db.permissions {
          if app !in db.apps || ScopeTaken(db.permissions, app, x.resource, x.operation) {
            return false;
          }
          db.permissions := db.permissions[p := Permission(app, x.resource, x.operation, x.description)];
        }
      }
      ok := true;
    }

    method EnsureScopes(role: Id, app: Id, scopes: seq<ScopeSpec>) returns (ok: bool)
      modifies db`rolePermissions
      ensures Ran(old(db.Dir()), ScopeCommands(role, app, scopes), rnd, ok, db.Dir())
    {
      hide PermissionId;
      for i := 0 to |scopes|
        invariant Run(db.Dir(), ScopeCommands(role, app, scopes[i..]), rnd) == Run(old(db.Dir()), ScopeCommands(role, app, scopes), rnd)
      {
        assert ScopeCommands(role, app, scopes[i..])[1..] == ScopeCommands(role, app, scopes[i + 1..]);
        var p := PermissionId(app, scopes[i].resource, scopes[i].operation);
        if RolePermission(role, p) !in db.rolePermissions {
          if role !in db.roles || p !in db.permissions {
            return false;
          }
          db.rolePermissions := db.rolePermissions + {RolePermission(role, p)};
        }
      }
      ok := true;
    }

    method EnsureRoleRow(t: Id, role: Id, app: Id, name: string, description: string, scopes: seq<ScopeSpec>) returns (ok: bool)
      modifies db`roles, db`rolePermissions
      ensures Ran(old(db.Dir()), RoleCommands(t, role, app, name, description, scopes), rnd, ok, db.Dir())
    {
      hide RoleNameTaken, ScopeCommands;
      ghost var first := EnsureRole(t, role, app, name, description);
      var row := role in db.roles || !(t !in db.tenants || app !in db.apps || RoleNameTaken(db.roles, app, name));
      if row && role !in db.roles {
        db.roles := db.roles[role := Role(t, app, name, description)];
      }
      RanOne(old(db.Dir()), first, rnd, row, db.Dir());
      if !row {
        RanNot(old(db.Dir()), [first], ScopeCommands(role, app, scopes), rnd, db.Dir(), db.Dir());
        return false;
      }
      ghost var d1 := db.Dir();
      ok := EnsureScopes(role, app, scopes);
      RanThen(old(db.Dir()), [first], d1, ScopeCommands(role, app, scopes), rnd, ok, db.Dir());
    }

    method EnsureGroupRoles(group: Id, roles: seq<Id>) returns (ok: bool)
      modifies db`groupRoles
      ensures Ran(old(db.Dir()), GroupRoleCommands(group, roles), rnd, ok, db.Dir())
    {
      for i := 0 to |roles|
        invariant Run(db.Dir(), GroupRoleCommands(group, roles[i..]), rnd) == Run(old(db.Dir()), GroupRoleCommands(group, roles), rnd)
      {
        assert GroupRoleCommands(group, roles[i..])[1..] == GroupRoleCommands(group, roles[i + 1..]);
        if GroupRole(group, roles[i]) !in db.groupRoles {
          if group !in db.groups || roles[i] !in db.roles {
            return false;
          }
          db.groupRoles := db.groupRoles + {GroupRole(group, roles[i])};
        }
      }
      ok := true;
    }

    method EnsureGroupRow(t: Id, group: Id, name: string, description: string, roles: seq<Id>) returns (ok: bool)
      modifies db`groups, db`groupRoles
      ensures Ran(old(db.Dir()), GroupCommands(t, group, name, description, roles), rnd, ok, db.Dir())
    {
      hide GroupNameTaken, GroupRoleCommands;
      ghost var first := EnsureGroup(t, group, name, description);
      var row := group in db.groups || !(t !in db.tenants || GroupNameTaken(db.groups, t, name));
      if row && group !in db.groups {
        db.groups := db.groups[group := Group(t, name, description)];
      }
      RanOne(old(db.Dir()), first, rnd, row, db.Dir());
      if !row {
        RanNot(old(db.Dir()), [first], GroupRoleCommands(group, roles), rnd, db.Dir(), db.Dir());
        return false;
      }
      ghost var d1 := db.Dir();
      ok := EnsureGroupRoles(group, roles);
      RanThen(old(db.Dir()), [first], d1, GroupRoleCommands(group, roles), rnd, ok, db.Dir());
    }

    /** Each membership that is not there is added; one for a group that does not exist is refused. */
    method JoinGroups(user: Id, groups: seq<Id>) returns (ok: bool)
      modifies db`members
      ensures var r := AddMemberships(old(db.Dir()), user, groups); (ok <==> r.Some?) && (ok ==> r.value == db.Dir())
    {
      for i := 0 to |groups|
        invariant db.members == old(db.members) + (set g | g in groups[..i] :: Membership(g, user))
        invariant forall g :: g in groups[..i] ==> g in db.groups || Membership(g, user) in old(db.members)
      {
        assert groups[..i + 1] == groups[..i] + [groups[i]];
        if Membership(groups[i], user) !in db.members {
          if groups[i] !in db.groups {
            assert groups[i] in groups;
            return false;
          }
          db.members := db.members + {Membership(groups[i], user)};
        }
      }
      assert groups[..|groups|] == groups;
      ok := true;
    }

    method EnsureUserRow(t: Id, u: UserSpec) returns (ok: bool)
      modifies db`users, db`members
      ensures var r := UserRow(old(db.Dir()), EnsureUser(t, u.user, u.email, u.groups, u.isAdmin), rnd);
        (ok <==> r.Some?) && (ok ==> r.value == db.Dir())
    {
      hide AddMemberships, NormaliseEmail;
      var e := NormaliseEmail(u.email);
      if !EmailTaken(db.users, t, e) {
        if u.user in db.users || t !in db.tenants {
          return false;
        }
        db.users := db.users[u.user := User(t, e, rnd.digest(e), true, u.isAdmin, false, None)];
        ok := JoinGroups(u.user, u.groups);
      } else if u.user in db.users && db.users[u.user].tenant == t && db.users[u.user].email == e {
        ok := JoinGroups(u.user, u.groups);
      } else {
        ok := true;
      }
    }

    method EnsureUsers(t: Id, users: seq<UserSpec>) returns (ok: bool)
      modifies db`users, db`members
      ensures Ran(old(db.Dir()), UserCommands(t, users), rnd, ok, db.Dir())
    {
      hide UserRow;
      for i := 0 to |users|
        invariant Run(db.Dir(), UserCommands(t, users[i..]), rnd) == Run(old(db.Dir()), UserCommands(t, users), rnd)
      {
        assert UserCommands(t, users[i..])[1..] == UserCommands(t, users[i + 1..]);
        var done := EnsureUserRow(t, users[i]);
        if !done {
          return false;
        }
      }
      ok := true;
    }

    method EnsureAllPermissions(rows: seq<AppPermissions>) returns (ok: bool)
      modifies db`permissions
      ensures Ran(old(db.Dir()), AllPermissionCommands(rows), rnd, ok, db.Dir())
    {
      hide PermissionCommands, Run;
      RanNothing(db.Dir(), rnd);
      for i := 0 to |rows|
        invariant Rest(old(db.Dir()), AllPermissionCommands(rows), db.Dir(), AllPermissionCommands(rows[i..]), rnd)
      {
        ghost var d, one, rest := db.Dir(), PermissionCommands(rows[i].app, rows[i].rows), AllPermissionCommands(rows[i + 1..]);
        assert AllPermissionCommands(rows[i..]) == one + rest;
        ok := EnsurePermissions(rows[i].app, rows[i].rows);
        RestAfter(old(db.Dir()), AllPermissionCommands(rows), d, one, rest, rnd, ok, db.Dir());
        if !ok {
          return;
        }
      }
      RestOfNothing(old(db.Dir()), AllPermissionCommands(rows), db.Dir(), rnd);
      ok := true;
    }

    method EnsureRoles(t: Id, roles: seq<RoleSpec>) returns (ok: bool)
      modifies db`roles, db`rolePermissions
      ensures Ran(old(db.Dir()), AllRoleCommands(t, roles), rnd, ok, db.Dir())
    {
      hide RoleCommands, Run;
      RanNothing(db.Dir(), rnd);
      for i := 0 to |roles|
        invariant Rest(old(db.Dir()), AllRoleCommands(t, roles), db.Dir(), AllRoleCommands(t, roles[i..]), rnd)
      {
        var x := roles[i];
        ghost var d, rest := db.Dir(), AllRoleCommands(t, roles[i + 1..]);
        ghost var one := RoleCommands(t, x.role, x.app, x.name, x.description, x.scopes);
        assert AllRoleCommands(t, roles[i..]) == one + rest;
        ok := EnsureRoleRow(t, x.role, x.app, x.name, x.description, x.scopes);
        RestAfter(old(db.Dir()), AllRoleCommands(t, roles), d, one, rest, rnd, ok, db.Dir());
        if !ok {
          return;
        }
      }
      RestOfNothing(old(db.Dir()), AllRoleCommands(t, roles), db.Dir(), rnd);
      ok := true;
    }

    method EnsureGroups(t: Id, groups: seq<GroupSpec>) returns (ok: bool)
      modifies db`groups, db`groupRoles
      ensures Ran(old(db.Dir()), AllGroupCommands(t, groups), rnd, ok, db.Dir())
    {
      hide GroupCommands, Run;
      RanNothing(db.Dir(), rnd);
      for i := 0 to |groups|
        invariant Rest(old(db.Dir()), AllGroupCommands(t, groups), db.Dir(), AllGroupCommands(t, groups[i..]), rnd)
      {
        var x := groups[i];
        ghost var d, rest := db.Dir(), AllGroupCommands(t, groups[i + 1..]);
        ghost var one := GroupCommands(t, x.group, x.name, x.description, x.roles);
        assert AllGroupCommands(t, groups[i..]) == one + rest;
        ok := EnsureGroupRow(t, x.group, x.name, x.description, x.roles);
        RestAfter(old(db.Dir()), AllGroupCommands(t, groups), d, one, rest, rnd, ok, db.Dir());
        if !ok {
          return;
        }
      }
      RestOfNothing(old(db.Dir()), AllGroupCommands(t, groups), db.Dir(), rnd);
      ok := true;
    }

    // ------------------------------------------------------------- a tenant's console

    method EnsureConsoleRow(t: Id) returns (ok: bool)
      requires t in db.tenants
      modifies db`apps
      ensures Ran(old(db.Dir()), [EnsureConsole(t)], rnd, ok, db.Dir())
    {
      hide ApplicationRow, ConsoleId;
      ok := EnsureApplicationRow(t, ConsoleId(t), "Consola " + db.tenants[t].name, None);
      RanOne(old(db.Dir()), EnsureConsole(t), rnd, ok, db.Dir());
    }

    method LinkConsole(t: Id) returns (ok: bool)
      requires t in db.tenants
      modifies db`tenants
      ensures Ran(old(db.Dir()), [SetConsole(t)], rnd, ok, db.Dir())
    {
      hide ConsoleId, AdminGroupId;
      ok := ConsoleId(t) in db.apps && AdminGroupId(t) in db.groups;
      if ok {
        db.tenants := db.tenants[t := db.tenants[t].(consoleApp := Some(ConsoleId(t)), adminGroup := Some(AdminGroupId(t)))];
      }
      RanOne(old(db.Dir()), SetConsole(t), rnd, ok, db.Dir());
    }

    /** Application, permissions, roles and admin group, then the links to them. */
    method Bootstrap(t: Id) returns (ok: bool)
      requires t in db.tenants
      modifies db`tenants, db`apps, db`permissions, db`roles, db`rolePermissions, db`groups, db`groupRoles
      ensures Ran(old(db.Dir()), BootstrapConsole(t), rnd, ok, db.Dir())
    {
      hide Ran, Run, PermissionCommands, RoleCommands, GroupCommands, ConsoleId, AdminGroupId, AdminRoleId, SupportRoleId;
      var manage := "Administrar la organización: directorio, aplicaciones y política de riesgo";
      var explain := "Explicar un inicio de sesión: leer decisiones y motivos, sin cambiar nada";
      var about := "Administran la organización en la consola";
      ghost var d := db.Dir();
      ghost var a, b := [EnsureConsole(t)], PermissionCommands(ConsoleId(t), CONSOLE_PERMISSIONS);
      ghost var c := RoleCommands(t, AdminRoleId(t), ConsoleId(t), "tenant-admin", manage, TENANT_ADMIN_SCOPES);
      ghost var e := RoleCommands(t, SupportRoleId(t), ConsoleId(t), "support", explain, SUPPORT_SCOPES);
      ghost var f, g := GroupCommands(t, AdminGroupId(t), "Administradores", about, [AdminRoleId(t)]), [SetConsole(t)];
      assert BootstrapConsole(t) == a + b + c + e + f + g;

      ok := EnsureConsoleRow(t);
      ghost var d1 := db.Dir();
      if !ok {
        RanNot(d, a, b + c + e + f + g, rnd, d1, d1);
        assert a + (b + c + e + f + g) == a + b + c + e + f + g;
        return;
      }
      ok := EnsurePermissions(ConsoleId(t), CONSOLE_PERMISSIONS);
      ghost var d2 := db.Dir();
      RanStage(d, a, d1, b, c + e + f + g, rnd, ok, d2);
      if !ok {
        assert a + b + (c + e + f + g) == a + b + c + e + f + g;
        return;
      }
      ok := EnsureRoleRow(t, AdminRoleId(t), ConsoleId(t), "tenant-admin", manage, TENANT_ADMIN_SCOPES);
      ghost var d3 := db.Dir();
      RanStage(d, a + b, d2, c, e + f + g, rnd, ok, d3);
      if !ok {
        assert a + b + c + (e + f + g) == a + b + c + e + f + g;
        return;
      }
      ok := EnsureRoleRow(t, SupportRoleId(t), ConsoleId(t), "support", explain, SUPPORT_SCOPES);
      ghost var d4 := db.Dir();
      RanStage(d, a + b + c, d3, e, f + g, rnd, ok, d4);
      if !ok {
        assert a + b + c + e + (f + g) == a + b + c + e + f + g;
        return;
      }
      ok := EnsureGroupRow(t, AdminGroupId(t), "Administradores", about, [AdminRoleId(t)]);
      ghost var d5 := db.Dir();
      RanStage(d, a + b + c + e, d4, f, g, rnd, ok, d5);
      if !ok {
        return;
      }
      ok := LinkConsole(t);
      RanStage(d, a + b + c + e + f, d5, g, [], rnd, ok, db.Dir());
    }

    // ------------------------------------------------------------- the seed

    /** A tenant's row, logo and domains. */
    method SeedRow(spec: TenantSpec) returns (ok: bool)
      modifies db`tenants, db`domains
      ensures Ran(old(db.Dir()), RowCommands(spec), rnd, ok, db.Dir()) && (ok ==> spec.tenant in db.tenants)
    {
      hide Run, RunOne, DomainCommands;
      ghost var d := db.Dir();
      ghost var a := [EnsureTenant(spec.tenant, spec.name, spec.isPlatform, spec.style, spec.primary, spec.accent)];
      ghost var b := if spec.logo.Some? then [EnsureLogo(spec.tenant, spec.logo.value)] else [];
      EnsureTenantRow(spec.tenant, spec.name, spec.isPlatform, spec.style, spec.primary, spec.accent);
      ghost var d1 := db.Dir();
      ok := true;
      if spec.logo.Some? {
        ok := EnsureLogoUrl(spec.tenant, spec.logo.value);
      } else {
        RanNothing(d1, rnd);
      }
      ghost var d2 := db.Dir();
      RanStage(d, a, d1, b, DomainCommands(spec.tenant, spec.domains), rnd, ok, d2);
      if !ok {
        return;
      }
      ok := EnsureDomains(spec.tenant, spec.domains);
      RanStage(d, a + b, d2, DomainCommands(spec.tenant, spec.domains), [], rnd, ok, db.Dir());
      if ok {
        TenantIsThere(d, spec, rnd, db.Dir());
      }
    }

    /** Everything the spec says of one tenant, in the order of its commands. */
    method SeedTenant(spec: TenantSpec) returns (ok: bool)
      modifies db`tenants, db`domains, db`apps, db`permissions, db`roles, db`rolePermissions, db`groups, db`groupRoles, db`users, db`members
      ensures Ran(old(db.Dir()), TenantCommands(spec), rnd, ok, db.Dir())
    {
      hide Ran, Run, BootstrapConsole, RowCommands, AppCommands, AllPermissionCommands, AllRoleCommands, AllGroupCommands, UserCommands;
      var t := spec.tenant;
      ghost var d := db.Dir();
      ghost var a, b, c, e := RowCommands(spec), BootstrapConsole(t), AppCommands(t, spec.apps), AllPermissionCommands(spec.permissions);
      ghost var f, g, h := AllRoleCommands(t, spec.roles), AllGroupCommands(t, spec.groups), UserCommands(t, spec.users);
      TenantParts(spec);

      ok := SeedRow(spec);
      ghost var d1 := db.Dir();
      if !ok {
        RanNot(d, a, b + c + e + f + g + h, rnd, d1, d1);
        assert a + (b + c + e + f + g + h) == a + b + c + e + f + g + h;
        return;
      }
      ok := Bootstrap(t);
      ghost var d2 := db.Dir();
      RanStage(d, a, d1, b, c + e + f + g + h, rnd, ok, d2);
      if !ok {
        assert a + b + (c + e + f + g + h) == a + b + c + e + f + g + h;
        return;
      }
      ok := EnsureApplications(t, spec.apps);
      ghost var d3 := db.Dir();
      RanStage(d, a + b, d2, c, e + f + g + h, rnd, ok, d3);
      if !ok {
        assert a + b + c + (e + f + g + h) == a + b + c + e + f + g + h;
        return;
      }
      ok := EnsureAllPermissions(spec.permissions);
      ghost var d4 := db.Dir();
      RanStage(d, a + b + c, d3, e, f + g + h, rnd, ok, d4);
      if !ok {
        assert a + b + c + e + (f + g + h) == a + b + c + e + f + g + h;
        return;
      }
      ok := EnsureRoles(t, spec.roles);
      ghost var d5 := db.Dir();
      RanStage(d, a + b + c + e, d4, f, g + h, rnd, ok, d5);
      if !ok {
        assert a + b + c + e + f + (g + h) == a + b + c + e + f + g + h;
        return;
      }
      ok := EnsureGroups(t, spec.groups);
      ghost var d6 := db.Dir();
      RanStage(d, a + b + c + e + f, d5, g, h, rnd, ok, d6);
      if !ok {
        return;
      }
      ok := EnsureUsers(t, spec.users);
      RanStage(d, a + b + c + e + f + g, d6, h, [], rnd, ok, db.Dir());
    }

    /** Applications from before client ids existed get one; the unique constraint is checked at the end. */
    method FillMissingClientIds() returns (ok: bool)
      modifies db`apps
      ensures Ran(old(db.Dir()), [FillClientIds], rnd, ok, db.Dir())
    {
      hide NewClientId, DistinctClientIds;
      var rest := set a | a in db.apps && db.apps[a].clientId.None?;
      while rest != {}
        invariant db.apps.Keys == old(db.apps).Keys
        invariant forall a :: a in rest ==> a in db.apps && old(db.apps)[a].clientId.None?
        invariant forall a :: a in db.apps ==>
          db.apps[a] == if old(db.apps)[a].clientId.None? && a !in rest then old(db.apps)[a].(clientId := Some(NewClientId(a, rnd))) else old(db.apps)[a]
        decreases |rest|
      {
        var a :| a in rest;
        rest := rest - {a};
        db.apps := db.apps[a := db.apps[a].(clientId := Some(NewClientId(a, rnd)))];
      }
      assert db.apps == FilledClientIds(old(db.apps), rnd);
      ok := DistinctClientIds(db.apps);
      RanOne(old(db.Dir()), FillClientIds, rnd, ok, db.Dir());
    }

    /** The whole seed in one transaction. */
    method SeedAll(specs: seq<TenantSpec>) returns (ok: bool)
      modifies db
      ensures var r := SeedIdentity(old(db.Dir()), specs, rnd);
        && (ok <==> r.Some?)
        && db.Snapshot() == if ok then Store(r.value, old(db.Logins())) else old(db.Snapshot())
    {
      hide TenantCommands, Run;
      var saved := db.Snapshot();
      ghost var all := Program(specs);
      assert Program(specs) == AllTenantCommands(specs[0..]) + [FillClientIds];
      for i := 0 to |specs|
        invariant db.Logins() == saved.auth
        invariant Rest(saved.dir, all, db.Dir(), AllTenantCommands(specs[i..]) + [FillClientIds], rnd)
      {
        ghost var d, one, rest := db.Dir(), TenantCommands(specs[i]), AllTenantCommands(specs[i + 1..]) + [FillClientIds];
        assert AllTenantCommands(specs[i..]) + [FillClientIds] == one + rest;
        ok := SeedTenant(specs[i]);
        RestAfter(saved.dir, all, d, one, rest, rnd, ok, db.Dir());
        if !ok {
          db.Rollback(saved);
          return;
        }
      }
      assert AllTenantCommands(specs[|specs|..]) + [FillClientIds] == [FillClientIds] + [];
      ghost var d := db.Dir();
      ok := FillMissingClientIds();
      RestAfter(saved.dir, all, d, [FillClientIds], [], rnd, ok, db.Dir());
      if !ok {
        db.Rollback(saved);
        return;
      }
      RestOfNothing(saved.dir, all, db.Dir(), rnd);
    }
  }

  /** What the seed of a tenant begins with. */
  function RowCommands(spec: TenantSpec): seq<Command> {
    [EnsureTenant(spec.tenant, spec.name, spec.isPlatform, spec.style, spec.primary, spec.accent)]
    + (if spec.logo.Some? then [EnsureLogo(spec.tenant, spec.logo.value)] else [])
    + DomainCommands(spec.tenant, spec.domains)
  }

  lemma TenantParts(spec: TenantSpec)
    ensures TenantCommands(spec) ==
      RowCommands(spec) + BootstrapConsole(spec.tenant) + AppCommands(spec.tenant, spec.apps) + AllPermissionCommands(spec.permissions)
      + AllRoleCommands(spec.tenant, spec.roles) + AllGroupCommands(spec.tenant, spec.groups) + UserCommands(spec.tenant, spec.users)
  {
  }

  lemma TenantIsThere(d: Directory, spec: TenantSpec, rnd: Randoms, d': Directory)
    requires Ran(d, RowCommands(spec), rnd, true, d')
    ensures spec.tenant in d'.tenants
  {
    hide Run, RunOne, DomainCommands;
    NoFillDomains(spec.tenant, spec.domains);
    RunSettles(d, RowCommands(spec), rnd);
    assert Settled(d', RowCommands(spec)[0]);
  }

  /** What is left to run from here ends where the whole list does. */
  ghost predicate Rest(d: Directory, all: seq<Command>, here: Directory, rest: seq<Command>, rnd: Randoms) {
    Run(here, rest, rnd) == Run(d, all, rnd)
  }

  lemma RestAfter(d: Directory, all: seq<Command>, here: Directory, one: seq<Command>, rest: seq<Command>, rnd: Randoms, ok: bool, next: Directory)
    requires Rest(d, all, here, one + rest, rnd) && Ran(here, one, rnd, ok, next)
    ensures ok ==> Rest(d, all, next, rest, rnd)
    ensures !ok ==> Ran(d, all, rnd, false, next)
  {
    hide Run;
    RunAppend(here, one, rest, rnd);
  }

  lemma RestOfNothing(d: Directory, all: seq<Command>, here: Directory, rnd: Randoms)
    requires Rest(d, all, here, [], rnd)
    ensures Ran(d, all, rnd, true, here)
  {
  }

  lemma RanNothing(d: Directory, rnd: Randoms)
    ensures Ran(d, [], rnd, true, d)
  {
  }
}
