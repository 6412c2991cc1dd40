/**
 Whole runs of the admin API, from the bearer token on. A request is resolved to
 a caller in one transaction, authorized in a second and carried out in a third,
 so what it holds may be stale by the time it acts: others, of its own tenant and of
 other tenants, may act between.
 */
module AdminRuns {
  import opened Wrappers
  import opened Models
  import opened DirectoryInvariant
  import opened Admin
  import opened AdminInvariant
  import opened AdminIsolation
  import Login
  import Seed

  /** The store, and the callers and operators that requests in flight are holding. */
  datatype Desk = Desk(store: Store, callers: set<Caller>, operators: set<Operator>)

  datatype Step =
    | Resolve(raw: Option<string>, now: Time)
    | Admit(caller: Caller, acting: string, needs: string)
    | Act(op: Operator, call: Call)
    | Found(op: Operator, tenant: Id, name: string, branding: Branding, domains: seq<string>, randoms: Seed.Randoms)
    | Reshape(op: Operator, tenant: Id, patch: TenantPatch)

  function CallerOf(l: Login.Loaded): Caller { Caller(l.user.user, l.user.tenant, l.session.app, l.permissions) }

  /** A step that holds nothing, or is not allowed to act on tenants as such, does nothing. */
  function Take(o: Oracles, d: Desk, x: Step): Desk {
    match x
    case Resolve(raw, now) =>
      var l := Login.LoadSession(o, d.store, raw, now);
      if l.Err? then d else d.(callers := d.callers + {CallerOf(l.value)})
    case Admit(caller, acting, needs) =>
      var op := Authorize(d.store, caller, acting, needs);
      if caller !in d.callers || op.Err? then d else d.(operators := d.operators + {op.value})
    case Act(op, call) =>
      if op !in d.operators then d else d.(store := Execute(d.store, op, call).0)
    case Found(op, t, name, branding, domains, rnd) =>
      if op !in d.operators || !op.platform then d else d.(store := CreateTenant(d.store, t, name, branding, domains, rnd).0)
    case Reshape(op, t, p) =>
      if op !in d.operators || !op.platform then d else d.(store := PatchTenant(d.store, t, p).0)
  }

  function TakeAll(o: Oracles, d: Desk, xs: seq<Step>): Desk
    decreases |xs|
  {
    if xs == [] then d else TakeAll(o, Take(o, d, xs[0]), xs[1..])
  }

  // ------------------------------------------------------------- the guard

  /**
   Who may act where: only a caller on their own tenant's console with the permission
   asked for; and on another tenant only if their home is the platform, they hold
   tenants:read on that console, and the tenant exists.
   */
  lemma AuthorizeExactly(s: Store, caller: Caller, acting: string, needs: string)
    ensures var r := Authorize(s, caller, acting, needs);
      var target := if Strip(acting) == "" then caller.home else Strip(acting);
      && (r.Ok? <==>
            caller.home in s.dir.tenants && s.dir.tenants[caller.home].consoleApp == Some(caller.app) && needs in caller.permissions &&
            (target == caller.home ||
             (s.dir.tenants[caller.home].isPlatform && TENANTS_READ in caller.permissions && target in s.dir.tenants)))
      && (r.Ok? ==> r.value == Operator(caller.user, caller.home, target, caller.permissions,
                                        s.dir.tenants[caller.home].isPlatform && TENANTS_READ in caller.permissions))
  {
  }

  /** Asking for another tenant without being a platform operator is refused alike whether or not it exists. */
  lemma RefusalDoesNotProbe(s: Store, caller: Caller, a: string, b: string, needs: string)
    requires caller.home in s.dir.tenants && !(s.dir.tenants[caller.home].isPlatform && TENANTS_READ in caller.permissions)
    requires Strip(a) !in {"", caller.home} && Strip(b) !in {"", caller.home}
    ensures Authorize(s, caller, a, needs) == Authorize(s, caller, b, needs) && Authorize(s, caller, a, needs).Err?
  {
  }

  // ------------------------------------------------------------- some tenants' own people

  /** Every token a step resolves is a session of a user of one of these tenants. */
  ghost predicate TokensOf(o: Oracles, ts: set<Id>, d: Desk, xs: seq<Step>)
    decreases |xs|
  {
    xs != [] ==>
      && (xs[0].Resolve? ==> Login.LoadSession(o, d.store, xs[0].raw, xs[0].now).Ok? ==>
            Login.LoadSession(o, d.store, xs[0].raw, xs[0].now).value.user.tenant in ts)
      && TokensOf(o, ts, Take(o, d, xs[0]), xs[1..])
  }

  /** Everything in flight is these tenants', each for itself, and none of them is the platform. */
  ghost predicate AtHome(ts: set<Id>, d: Desk) {
    && Valid(d.store.dir)
    && (forall t :: t in ts && t in d.store.dir.tenants ==> !d.store.dir.tenants[t].isPlatform)
    && (forall c :: c in d.callers ==> c.home in ts)
    && (forall op :: op in d.operators ==> op.home in ts && op.tenant == op.home && !op.platform)
  }

  lemma StepStaysHome(o: Oracles, ts: set<Id>, d: Desk, x: Step)
    requires AtHome(ts, d) && TokensOf(o, ts, d, [x])
    ensures AtHome(ts, Take(o, d, x))
    ensures forall u: Id :: u !in ts ==> AgreeOn(u, d.store, Take(o, d, x).store)
    ensures Stable(d.store.dir, Take(o, d, x).store.dir)
  {
    hide Valid, Execute, CreateTenant, PatchTenant, AgreeOn, Login.LoadSession, Authorize, Strip;
    forall u: Id ensures AgreeOn(u, d.store, d.store) { AgreeRefl(u, d.store); }
    match x
    case Act(op, call) =>
      if op in d.operators {
        ExecuteKeepsValid(d.store, op, call);
        ExecuteIsStable(d.store, op, call);
        TenantsStay(d.store, op, call);
        forall u: Id | u !in ts ensures AgreeOn(u, d.store, Execute(d.store, op, call).0) {
          WritesStayHome(u, d.store, op, call);
        }
      }
    case Admit(caller, acting, needs) => AuthorizeExactly(d.store, caller, acting, needs);
    case _ =>
  }

  lemma TenantsStay(s: Store, op: Operator, c: Call)
    ensures Execute(s, op, c).0.dir.tenants == s.dir.tenants
  {
    if c.CallCreateUser? || c.CallPatchUser? || c.CallCreateApp? || c.CallPatchApp? {
      hide PublicUser, NormaliseEmail, SyncAdminFlag, Seed.EmailTaken, Seed.ClientIdTaken;
    } else {
      hide Execute;
      LeavesOwners(s, op, c);
    }
  }

  /**
   However many requests are made, in whatever order and interleaved however, under
   sessions of users of tenants none of which is the platform: the rows of every
   other tenant are untouched, no tenant is created or changed, and none becomes the
   platform. With one tenant this is its isolation; with all but one, the last one's.
   */
  lemma {:induction false} RunsStayHome(o: Oracles, ts: set<Id>, d: Desk, xs: seq<Step>)
    requires AtHome(ts, d) && TokensOf(o, ts, d, xs)
    ensures AtHome(ts, TakeAll(o, d, xs))
    ensures forall u: Id :: u !in ts ==> AgreeOn(u, d.store, TakeAll(o, d, xs).store)
    ensures Stable(d.store.dir, TakeAll(o, d, xs).store.dir)
    ensures TakeAll(o, d, xs).store.dir.tenants == d.store.dir.tenants
    decreases |xs|
  {
    hide AtHome, Take, AgreeOn, Login.LoadSession;
    if xs == [] {
      forall u: Id ensures AgreeOn(u, d.store, d.store) { AgreeRefl(u, d.store); }
    } else {
      var d1, end := Take(o, d, xs[0]), TakeAll(o, d, xs);
      assert TokensOf(o, ts, d, [xs[0]]);
      StepStaysHome(o, ts, d, xs[0]);
      StepKeepsTenants(o, ts, d, xs[0]);
      RunsStayHome(o, ts, d1, xs[1..]);
      forall u: Id | u !in ts ensures AgreeOn(u, d.store, end.store) {
        AgreeTrans(u, d.store, d1.store, end.store);
      }
      StableTrans(d.store.dir, d1.store.dir, end.store.dir);
    }
  }

  lemma StepKeepsTenants(o: Oracles, ts: set<Id>, d: Desk, x: Step)
    requires AtHome(ts, d)
    ensures Take(o, d, x).store.dir.tenants == d.store.dir.tenants
  {
    hide Valid, Execute, CreateTenant, PatchTenant, Login.LoadSession, Authorize;
    if x.Act? {
      TenantsStay(d.store, x.op, x.call);
    }
  }

  lemma StableTrans(a: Directory, b: Directory, c: Directory)
    requires Stable(a, b) && Stable(b, c)
    ensures Stable(a, c)
  {
  }
}
