/**
 The database as the services see it: one field per table, rows added, deleted and
 assigned in place. `Snapshot` is its value. A request takes a snapshot when its
 transaction opens, and a request that fails half way puts it back.
 */
module Database {
  import opened Models

  class Tables {
    var tenants: map<Id, Tenant>
    var domains: map<string, Id>
    var apps: map<Id, Application>
    var users: map<Id, User>
    var groups: map<Id, Group>
    var members: set<Membership>
    var permissions: map<Id, Permission>
    var roles: map<Id, Role>
    var rolePermissions: set<RolePermission>
    var groupRoles: set<GroupRole>
    var sessions: map<string, Session>
    var activations: map<string, ActivationCode>
    var challenges: map<Id, Challenge>
    var credentials: map<Id, Credential>
    var codes: map<string, AuthCode>

    constructor (s: Store)
      ensures Snapshot() == s
    {
      tenants, domains, apps, users := s.dir.tenants, s.dir.domains, s.dir.apps, s.dir.users;
      groups, members, permissions, roles := s.dir.groups, s.dir.members, s.dir.permissions, s.dir.roles;
      rolePermissions, groupRoles := s.dir.rolePermissions, s.dir.groupRoles;
      sessions, activations, challenges := s.auth.sessions, s.auth.activations, s.auth.challenges;
      credentials, codes := s.auth.credentials, s.auth.codes;
    }

    function Dir(): Directory
      reads this
    {
      Directory(tenants, domains, apps, users, groups, members, permissions, roles, rolePermissions, groupRoles)
    }

    function Logins(): Auth
      reads this
    {
      Auth(sessions, activations, challenges, credentials, codes)
    }

    function Snapshot(): Store
      reads this
    {
      Store(Dir(), Logins())
    }

    method RestoreDirectory(d: Directory)
      modifies `tenants, `domains, `apps, `users, `groups, `members, `permissions, `roles, `rolePermissions, `groupRoles
      ensures Dir() == d
    {
      tenants, domains, apps, users, groups := d.tenants, d.domains, d.apps, d.users, d.groups;
      members, permissions, roles, rolePermissions, groupRoles := d.members, d.permissions, d.roles, d.rolePermissions, d.groupRoles;
    }

    method RestoreLogins(a: Auth)
      modifies `sessions, `activations, `challenges, `credentials, `codes
      ensures Logins() == a
    {
      sessions, activations, challenges, credentials, codes := a.sessions, a.activations, a.challenges, a.credentials, a.codes;
    }

    /** What leaving a transaction by an exception does. */
    method Rollback(saved: Store)
      modifies this
      ensures Snapshot() == saved
    {
      RestoreDirectory(saved.dir);
      RestoreLogins(saved.auth);
    }
  }
}
