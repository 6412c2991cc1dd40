/**
 The admin service on the database, each method one transaction. Rows are assigned
 field by field as the request says, and a refusal after that rolls back.
 */
module AdminService {
  import opened Wrappers
  import opened Models
  import opened Admin
  import opened Database
  import Seed

  class AdminService {
    const db: Tables

    constructor (db: Tables)
      ensures this.db == db
    {
      this.db := db;
    }

    // ------------------------------------------------------------- users

    method SyncAdminFlag(tenant: Id, user: Id, isAdmin: bool)
      requires tenant in db.tenants
      modifies db`members
      ensures db.members == Admin.SyncAdminFlag(old(db.Dir()), db.tenants[tenant], user, isAdmin)
    {
      var group := db.tenants[tenant].adminGroup;
      if group.None? || group.value !in db.groups {
        return;
      }
      var membership := Membership(group.value, user);
      if isAdmin && membership !in db.members {
        db.members := db.members + {membership};
      } else if !isAdmin && membership in db.members {
        db.members := db.members - {membership};
      }
    }

    method CreateUser(op: Operator, user: Id, email: string, digest: string, isAdmin: bool) returns (r: Result<Answer>)
      modifies db
      ensures (db.Snapshot(), r) == Admin.CreateUser(old(db.Snapshot()), op, user, email, digest, isAdmin)
    {
      hide NormaliseEmail, Admin.SyncAdminFlag;
      var e := NormaliseEmail(email);
      if op.tenant !in db.tenants {
        return UNKNOWN_TENANT;
      }
      if Seed.EmailTaken(db.users, op.tenant, e) {
        return Err(409, "email already exists");
      }
      if user in db.users {
        return Err(409, "email already exists");
      }
      db.users := db.users[user := User(op.tenant, e, digest, true, isAdmin, false, None)];
      SyncAdminFlag(op.tenant, user, isAdmin);
      r := Ok(UserAnswer(PublicUser(db.Snapshot(), user)));
    }

    method PatchUser(op: Operator, user: Id, p: UserPatch) returns (r: Result<Answer>)
      modifies db
      ensures (db.Snapshot(), r) == Admin.PatchUser(old(db.Snapshot()), op, user, p)
    {
      hide Admin.SyncAdminFlag, PublicUser;
      var saved := db.Snapshot();
      if !OwnsUser(db.Dir(), op.tenant, user) {
        return UNKNOWN_USER;
      }
      var row := db.users[user];
      if p.enabled.Some? {
        row := row.(enabled := p.enabled.value);
      }
      if p.isAdmin.Some? {
        row := row.(isAdmin := p.isAdmin.value);
      }
      if p.digest.Some? {
        row := row.(passwordHash := p.digest.value);
      }
      if p.alwaysPasskey.Some? {
        row := row.(alwaysPasskey := p.alwaysPasskey.value);
      }
      assert row == PatchedUser(saved.dir.users[user], p);
      db.users := db.users[user := row];
      if p.isAdmin.Some? {
        if op.tenant !in db.tenants {
          db.Rollback(saved);
          return UNKNOWN_TENANT;
        }
        SyncAdminFlag(op.tenant, user, p.isAdmin.value);
      }
      r := Ok(UserAnswer(PublicUser(db.Snapshot(), user)));
    }

    method IssueActivationCode(op: Operator, user: Id, hash: string, now: Time, ttl: int) returns (r: Result<Answer>)
      modifies db
      ensures (db.Snapshot(), r) == Admin.IssueActivationCode(old(db.Snapshot()), op, user, hash, now, ttl)
    {
      var saved := db.Snapshot();
      if !OwnsUser(db.Dir(), op.tenant, user) {
        return UNKNOWN_USER;
      }
      if !db.users[user].enabled {
        return Err(409, "user is disabled");
      }
      db.activations := map c | c in db.activations ::
        if db.activations[c].user == user && db.activations[c].consumedAt.None? then db.activations[c].(consumedAt := Some(now))
        else db.activations[c];
      if hash in db.activations {
        db.Rollback(saved);
        return CRASH;
      }
      db.activations := db.activations[hash := ActivationCode(user, op.user, now + ttl, None, None)];
      r := Ok(CodeAnswer(user, now + ttl));
    }

    // ------------------------------------------------------------- applications

    method CreateApplication(op: Operator, app: Id, clientId: string, name: string, redirect: Option<string>) returns (r: Result<Answer>)
      modifies db
      ensures (db.Snapshot(), r) == Admin.CreateApplication(old(db.Snapshot()), op, app, clientId, name, redirect)
    {
      if app in db.apps {
        return Err(409, "application_id already exists");
      }
      if op.tenant !in db.tenants || Seed.ClientIdTaken(db.apps, clientId) {
        return CRASH;
      }
      var row := Application(Some(clientId), op.tenant, name, true, redirect, false);
      db.apps := db.apps[app := row];
      r := Ok(AppAnswer(app, row));
    }

    /** Each field the request names is assigned; an empty redirect clears it. */
    method AssignApp(before: Application, p: AppPatch) returns (row: Application)
      ensures row == PatchedApp(before, p)
    {
      row := before;
      if p.name.Some? {
        row := row.(name := p.name.value);
      }
      if p.enabled.Some? {
        row := row.(enabled := p.enabled.value);
      }
      if p.redirect.Some? {
        row := row.(redirectUri := if p.redirect.value == "" then None else p.redirect);
      }
      if p.alwaysPasskey.Some? {
        row := row.(alwaysPasskey := p.alwaysPasskey.value);
      }
    }

    method PatchApplication(op: Operator, app: Id, p: AppPatch) returns (r: Result<Answer>)
      modifies db
      ensures (db.Snapshot(), r) == Admin.PatchApplication(old(db.Snapshot()), op, app, p)
    {
      hide PatchedApp;
      if !OwnsApp(db.Dir(), op.tenant, app) {
        return UNKNOWN_APP;
      }
      if op.tenant !in db.tenants {
        return UNKNOWN_TENANT;
      }
      if p.enabled == Some(false) && Some(app) == db.tenants[op.tenant].consoleApp {
        return Err(409, "the console cannot be disabled");
      }
      var row := AssignApp(db.apps[app], p);
      db.apps := db.apps[app := row];
      r := Ok(AppAnswer(app, row));
    }

    // ------------------------------------------------------------- groups

    method CreateGroup(op: Operator, group: Id, name: string, description: string) returns (r: Result<Answer>)
      modifies db
      ensures (db.Snapshot(), r) == Admin.CreateGroup(old(db.Snapshot()), op, group, name, description)
    {
      hide DetailedGroup;
      if group in db.groups {
        return Err(409, "group_id already exists");
      }
      if Seed.GroupNameTaken(db.groups, op.tenant, name) {
        return Err(409, "group name already exists");
      }
      if op.tenant !in db.tenants {
        return Err(409, "group_id or name already exists");
      }
      db.groups := db.groups[group := Group(op.tenant, name, description)];
      r := Ok(GroupAnswer(DetailedGroup(db.Dir(), group)));
    }

    method PatchGroup(op: Operator, group: Id, name: Option<string>, description: Option<string>) returns (r: Result<Answer>)
      modifies db
      ensures (db.Snapshot(), r) == Admin.PatchGroup(old(db.Snapshot()), op, group, name, description)
    {
      hide DetailedGroup;
      if !OwnsGroup(db.Dir(), op.tenant, group) {
        return UNKNOWN_GROUP;
      }
      var row := db.groups[group];
      if name.Some? {
        if OtherGroupNamed(db.groups, op.tenant, name.value, group) {
          return Err(409, "group name already exists");
        }
        row := row.(name := name.value);
      }
      if description.Some? {
        row := row.(description := description.value);
      }
      db.groups := db.groups[group := row];
      r := Ok(GroupAnswer(DetailedGroup(db.Dir(), group)));
    }

    /** Memberships and assignments first, then the group. */
    method DeleteGroup(op: Operator, group: Id) returns (r: Result<Answer>)
      modifies db
      ensures (db.Snapshot(), r) == Admin.DeleteGroup(old(db.Snapshot()), op, group)
    {
      if !OwnsGroup(db.Dir(), op.tenant, group) {
        return UNKNOWN_GROUP;
      }
      if op.tenant !in db.tenants {
        return UNKNOWN_TENANT;
      }
      if Some(group) == db.tenants[op.tenant].adminGroup {
        return Err(409, "the admin group cannot be deleted");
      }
      db.members := set m | m in db.members && m.group != group;
      db.groupRoles := set gr | gr in db.groupRoles && gr.group != group;
      db.groups := db.groups - {group};
      r := Ok(NoContent);
    }

    method AddMember(op: Operator, group: Id, user: Id) returns (r: Result<Answer>)
      modifies db
      ensures (db.Snapshot(), r) == Admin.AddMember(old(db.Snapshot()), op, group, user)
    {
      hide DetailedGroup;
      if !OwnsGroup(db.Dir(), op.tenant, group) {
        return UNKNOWN_GROUP;
      }
      if !OwnsUser(db.Dir(), op.tenant, user) {
        return UNKNOWN_USER;
      }
      if Membership(group, user) in db.members {
        return Err(409, "user is already a member");
      }
      db.members := db.members + {Membership(group, user)};
      r := Ok(GroupAnswer(DetailedGroup(db.Dir(), group)));
    }

    method RemoveMember(op: Operator, group: Id, user: Id) returns (r: Result<Answer>)
      modifies db
      ensures (db.Snapshot(), r) == Admin.RemoveMember(old(db.Snapshot()), op, group, user)
    {
      hide DetailedGroup;
      if !OwnsGroup(db.Dir(), op.tenant, group) {
        return UNKNOWN_GROUP;
      }
      if Membership(group, user) !in db.members {
        return Err(404, "unknown membership");
      }
      db.members := db.members - {Membership(group, user)};
      r := Ok(GroupAnswer(DetailedGroup(db.Dir(), group)));
    }

    method AddGroupRole(op: Operator, group: Id, role: Id) returns (r: Result<Answer>)
      modifies db
      ensures (db.Snapshot(), r) == Admin.AddGroupRole(old(db.Snapshot()), op, group, role)
    {
      hide DetailedGroup;
      if !OwnsGroup(db.Dir(), op.tenant, group) {
        return UNKNOWN_GROUP;
      }
      if !OwnsRole(db.Dir(), op.tenant, role) {
        return UNKNOWN_ROLE;
      }
      if GroupRole(group, role) in db.groupRoles {
        return Err(409, "role already assigned");
      }
      db.groupRoles := db.groupRoles + {GroupRole(group, role)};
      r := Ok(GroupAnswer(DetailedGroup(db.Dir(), group)));
    }

    method RemoveGroupRole(op: Operator, group: Id, role: Id) returns (r: Result<Answer>)
      modifies db
      ensures (db.Snapshot(), r) == Admin.RemoveGroupRole(old(db.Snapshot()), op, group, role)
    {
      hide DetailedGroup;
      if !OwnsGroup(db.Dir(), op.tenant, group) {
        return UNKNOWN_GROUP;
      }
      if GroupRole(group, role) !in db.groupRoles {
        return Err(404, "unknown role assignment");
      }
      db.groupRoles := db.groupRoles - {GroupRole(group, role)};
      r := Ok(GroupAnswer(DetailedGroup(db.Dir(), group)));
    }

    // ------------------------------------------------------------- roles and permissions

    method CreateRole(op: Operator, role: Id, app: Id, name: string, description: string) returns (r: Result<Answer>)
      modifies db
      ensures (db.Snapshot(), r) == Admin.CreateRole(old(db.Snapshot()), op, role, app, name, description)
    {
      hide DetailedRole;
      if !OwnsApp(db.Dir(), op.tenant, app) {
        return UNKNOWN_APP;
      }
      if role in db.roles {
        return Err(409, "role_id already exists");
      }
      if Seed.RoleNameTaken(db.roles, app, name) {
        return Err(409, "role name already exists for this application");
      }
      db.roles := db.roles[role := Role(op.tenant, app, name, description)];
      r := Ok(RoleAnswer(DetailedRole(db.Dir(), role)));
    }

    method PatchRole(op: Operator, role: Id, name: Option<string>, description: Option<string>) returns (r: Result<Answer>)
      modifies db
      ensures (db.Snapshot(), r) == Admin.PatchRole(old(db.Snapshot()), op, role, name, description)
    {
      hide DetailedRole;
      if !OwnsRole(db.Dir(), op.tenant, role) {
        return UNKNOWN_ROLE;
      }
      var row := db.roles[role];
      if name.Some? {
        if OtherRoleNamed(db.roles, row.app, name.value, role) {
          return Err(409, "role name already exists for this application");
        }
        row := row.(name := name.value);
      }
      if description.Some? {
        row := row.(description := description.value);
      }
      db.roles := db.roles[role := row];
      r := Ok(RoleAnswer(DetailedRole(db.Dir(), role)));
    }

    method DeleteRole(op: Operator, role: Id) returns (r: Result<Answer>)
      modifies db
      ensures (db.Snapshot(), r) == Admin.DeleteRole(old(db.Snapshot()), op, role)
    {
      if !OwnsRole(db.Dir(), op.tenant, role) {
        return UNKNOWN_ROLE;
      }
      db.rolePermissions := set rp | rp in db.rolePermissions && rp.role != role;
      db.groupRoles := set gr | gr in db.groupRoles && gr.role != role;
      db.roles := db.roles - {role};
      r := Ok(NoContent);
    }

    method AddPermissions(role: Id, wanted: set<Id>)
      modifies db`rolePermissions
      ensures db.rolePermissions == old(db.rolePermissions) + (set p | p in wanted :: RolePermission(role, p))
    {
      var rest := wanted;
      while rest != {}
        invariant rest <= wanted
        invariant db.rolePermissions == old(db.rolePermissions) + (set p | p in wanted - rest :: RolePermission(role, p))
        decreases |rest|
      {
        var p :| p in rest;
        ghost var was := wanted - rest;
        rest := rest - {p};
        assert wanted - rest == was + {p};
        db.rolePermissions := db.rolePermissions + {RolePermission(role, p)};
      }
      assert wanted - rest == wanted;
    }

    /** The wanted permissions are looked at before anything is deleted, then added one by one. */
    method SetRolePermissions(op: Operator, role: Id, wanted: set<Id>) returns (r: Result<Answer>)
      modifies db
      ensures (db.Snapshot(), r) == Admin.SetRolePermissions(old(db.Snapshot()), op, role, wanted)
    {
      hide DetailedRole, KnownPermission;
      if !OwnsRole(db.Dir(), op.tenant, role) {
        return UNKNOWN_ROLE;
      }
      if exists p :: p in wanted && !KnownPermission(db.Dir(), op.tenant, p) {
        return Err(404, "unknown permission(s)");
      }
      assert forall p :: p in wanted ==> p in db.permissions by { KnownAreThere(db.Dir(), op.tenant, wanted); }
      if exists p :: p in wanted && db.permissions[p].app != db.roles[role].app {
        return Err(422, "permission(s) belong to a different application");
      }
      db.rolePermissions := set rp | rp in db.rolePermissions && rp.role != role;
      AddPermissions(role, wanted);
      r := Ok(RoleAnswer(DetailedRole(db.Dir(), role)));
    }

    method CreatePermission(op: Operator, app: Id, resource: string, operation: string, description: string) returns (r: Result<Answer>)
      modifies db
      ensures (db.Snapshot(), r) == Admin.CreatePermission(old(db.Snapshot()), op, app, resource, operation, description)
    {
      hide Seed.PermissionId;
      var p := Seed.PermissionId(app, resource, operation);
      if !OwnsApp(db.Dir(), op.tenant, app) {
        return UNKNOWN_APP;
      }
      if p in db.permissions {
        return Err(409, "permission already exists");
      }
      if Seed.ScopeTaken(db.permissions, app, resource, operation) {
        return Err(409, "permission already exists");
      }
      var row := Permission(app, resource, operation, description);
      db.permissions := db.permissions[p := row];
      r := Ok(PermissionAnswer(PermissionPublic(p, row)));
    }
  }

  lemma KnownAreThere(d: Directory, t: Id, wanted: set<Id>)
    requires forall p :: p in wanted ==> KnownPermission(d, t, p)
    ensures forall p :: p in wanted ==> p in d.permissions
  {
  }
}
