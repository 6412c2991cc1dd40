/**
 user -> group -> role -> permission, always on one application.

 The joins are finite sets computed from the tables; `Grants` is what they are
 supposed to mean, and the lemmas say exactly how the directory's edits change it.
 */
module Authz {
  import opened Models

  /** Wire form of a permission. */
  function Scope(resource: string, operation: string): string {
    resource + ":" + operation
  }

  function ScopeOf(p: Permission): string {
    Scope(p.resource, p.operation)
  }

  function RolesOf(d: Directory, user: Id, app: Id): set<Id> {
    set m, gr |
      m in d.members && m.user == user && gr in d.groupRoles && gr.group == m.group &&
      gr.role in d.roles && d.roles[gr.role].app == app :: gr.role
  }

  /** Who may sign in to the application: whoever holds a role on it, even one that carries nothing. */
  predicate HasAccess(d: Directory, user: Id, app: Id) {
    RolesOf(d, user, app) != {}
  }

  /** What one role contributes on one application. */
  function ScopesOf(d: Directory, role: Id, app: Id): set<string> {
    set rp |
      rp in d.rolePermissions && rp.role == role &&
      rp.permission in d.permissions && d.permissions[rp.permission].app == app
      :: ScopeOf(d.permissions[rp.permission])
  }

  function EffectivePermissions(d: Directory, user: Id, app: Id): set<string> {
    set role, s | role in RolesOf(d, user, app) && s in ScopesOf(d, role, app) :: s
  }

  // ------------------------------------------------------------- what the join means

  /** The user is in a group that holds this role, and the role is on this application. */
  ghost predicate Holds(d: Directory, user: Id, role: Id, app: Id) {
    && role in d.roles && d.roles[role].app == app
    && exists g :: Membership(g, user) in d.members && GroupRole(g, role) in d.groupRoles
  }

  ghost predicate Carries(d: Directory, role: Id, permission: Id, app: Id) {
    && RolePermission(role, permission) in d.rolePermissions
    && permission in d.permissions && d.permissions[permission].app == app
  }

  ghost predicate Grants(d: Directory, user: Id, app: Id, s: string) {
    exists role, p :: Holds(d, user, role, app) && Carries(d, role, p, app) && ScopeOf(d.permissions[p]) == s
  }

  lemma HoldsIffInRoles(d: Directory, user: Id, role: Id, app: Id)
    ensures role in RolesOf(d, user, app) <==> Holds(d, user, role, app)
  {
  }

  lemma CarriesIffInScopes(d: Directory, role: Id, app: Id, s: string)
    ensures s in ScopesOf(d, role, app) <==> exists p :: Carries(d, role, p, app) && ScopeOf(d.permissions[p]) == s
  {
  }

  /** The join returns a scope exactly when some chain of rows grants it. */
  lemma EffectiveIsExact(d: Directory, user: Id, app: Id, s: string)
    ensures s in EffectivePermissions(d, user, app) <==> Grants(d, user, app, s)
  {
    if s in EffectivePermissions(d, user, app) {
      var role :| role in RolesOf(d, user, app) && s in ScopesOf(d, role, app);
      HoldsIffInRoles(d, user, role, app);
      CarriesIffInScopes(d, role, app, s);
    }
    if role, p :| Holds(d, user, role, app) && Carries(d, role, p, app) && ScopeOf(d.permissions[p]) == s {
      HoldsIffInRoles(d, user, role, app);
      CarriesIffInScopes(d, role, app, s);
      assert role in RolesOf(d, user, app) && s in ScopesOf(d, role, app);
    }
  }

  /** Signing in needs a role, not a permission: the two differ only by roles that carry nothing. */
  lemma PermissionNeedsAccess(d: Directory, user: Id, app: Id)
    ensures EffectivePermissions(d, user, app) != {} <==> exists role :: role in RolesOf(d, user, app) && ScopesOf(d, role, app) != {}
  {
    hide RolesOf, ScopesOf;
    if role :| role in RolesOf(d, user, app) && ScopesOf(d, role, app) != {} {
      var s :| s in ScopesOf(d, role, app);
      assert s in EffectivePermissions(d, user, app);
    }
  }

  // ------------------------------------------------------------- how edits change it

  /** The relations the join reads only lost rows. */
  ghost predicate Shrunk(d: Directory, d': Directory) {
    && d'.members <= d.members && d'.groupRoles <= d.groupRoles && d'.rolePermissions <= d.rolePermissions
    && (forall r :: r in d'.roles ==> r in d.roles && d.roles[r].app == d'.roles[r].app)
    && d'.permissions == d.permissions
  }

  /** Taking rows away never gives anyone a permission, or access, they did not have. */
  lemma RemovalsNeverEnlarge(d: Directory, d': Directory, user: Id, app: Id)
    requires Shrunk(d, d')
    ensures RolesOf(d', user, app) <= RolesOf(d, user, app)
    ensures EffectivePermissions(d', user, app) <= EffectivePermissions(d, user, app)
  {
    forall role | role in RolesOf(d', user, app) ensures role in RolesOf(d, user, app) {
      HoldsIffInRoles(d', user, role, app);
      HoldsIffInRoles(d, user, role, app);
    }
    forall s | s in EffectivePermissions(d', user, app) ensures s in EffectivePermissions(d, user, app) {
      EffectiveIsExact(d', user, app, s);
      EffectiveIsExact(d, user, app, s);
      var role, p :| Holds(d', user, role, app) && Carries(d', role, p, app) && ScopeOf(d'.permissions[p]) == s;
      assert Holds(d, user, role, app) && Carries(d, role, p, app);
    }
  }

  /** The directory after a role's permission set is replaced by `wanted`. */
  function WithRolePermissions(d: Directory, role: Id, wanted: set<Id>): Directory {
    d.(rolePermissions :=
      (set rp | rp in d.rolePermissions && rp.role != role) + (set p | p in wanted :: RolePermission(role, p)))
  }

  /** What the user's other roles contribute. */
  function OtherRoles(d: Directory, user: Id, app: Id, except: Id): set<string> {
    set role, s | role in RolesOf(d, user, app) && role != except && s in ScopesOf(d, role, app) :: s
  }

  function ScopesIn(d: Directory, wanted: set<Id>, app: Id): set<string> {
    set p | p in wanted && p in d.permissions && d.permissions[p].app == app :: ScopeOf(d.permissions[p])
  }

  /**
   Replacing a role's set is exact: whoever holds the role has what their other
   roles give plus the new set, and nobody else's permissions change at all.
   */
  lemma ReplacementIsExact(d: Directory, role: Id, wanted: set<Id>, user: Id, app: Id)
    ensures var d' := WithRolePermissions(d, role, wanted);
      && RolesOf(d', user, app) == RolesOf(d, user, app)
      && EffectivePermissions(d', user, app) ==
         (if role in RolesOf(d, user, app)
          then OtherRoles(d, user, app, role) + ScopesIn(d, wanted, app)
          else EffectivePermissions(d, user, app))
  {
    var d' := WithRolePermissions(d, role, wanted);
    assert ScopesOf(d', role, app) == ScopesIn(d, wanted, app) by {
      forall s ensures s in ScopesOf(d', role, app) <==> s in ScopesIn(d, wanted, app) {
        CarriesIffInScopes(d', role, app, s);
        if p :| p in wanted && p in d.permissions && d.permissions[p].app == app && ScopeOf(d.permissions[p]) == s {
          assert RolePermission(role, p) in d'.rolePermissions;
          assert Carries(d', role, p, app);
        }
      }
    }
    forall r | r != role ensures ScopesOf(d', r, app) == ScopesOf(d, r, app) {
      forall s ensures s in ScopesOf(d', r, app) <==> s in ScopesOf(d, r, app) {
        CarriesIffInScopes(d', r, app, s);
        CarriesIffInScopes(d, r, app, s);
        assert forall p :: Carries(d', r, p, app) <==> Carries(d, r, p, app);
      }
    }
    assert RolesOf(d', user, app) == RolesOf(d, user, app);
  }
}
