/**
 Whole runs of the admin API, with the platform's requests and the sign-ins of
 users between them: what a tenant's operators are told is what they would be told
 if nobody else ever acted, exactly when no value they ask for was taken meanwhile.
 */
module AdminPurging {
  import opened Wrappers
  import opened Models
  import opened DirectoryInvariant
  import opened Admin
  import opened AdminInvariant
  import opened AdminIsolation
  import opened AdminNoninterference
  import opened AdminFounding
  import Login
  import Seed
  import SeedInvariant

  /** One request of a run; of a sign-in, the part an administrator can see. */
  datatype Request =
    | Ask(op: Operator, call: Call)
    | Found(tenant: Id, name: string, branding: Branding, domains: seq<string>, randoms: Seed.Randoms)
    | Reshape(tenant: Id, patch: TenantPatch)
    | SignIn(tenant: Id, user: Id, now: Time)

  /** The tenant it is about. */
  function About(x: Request): Id { if x.Ask? then x.op.tenant else x.tenant }

  function Signed(s: Store, t: Id, user: Id, now: Time): Store {
    if OwnsUser(s.dir, t, user) then OnDirectory(s, Login.SignedIn(s.dir, user, now)) else s
  }

  function Do(s: Store, x: Request): (Store, Result<Answer>) {
    match x
    case Ask(op, call) => Execute(s, op, call)
    case Found(t, name, branding, domains, rnd) => CreateTenant(s, t, name, branding, domains, rnd)
    case Reshape(t, p) => PatchTenant(s, t, p)
    case SignIn(t, user, now) => (Signed(s, t, user, now), Ok(NoContent))
  }

  function After(s: Store, x: Request): Store { Do(s, x).0 }

  /** What is answered to the requests about one tenant, in order. */
  function Heard(t: Id, s: Store, xs: seq<Request>): seq<Result<Answer>>
    decreases |xs|
  {
    if xs == [] then []
    else (if About(xs[0]) == t then [Do(s, xs[0]).1] else []) + Heard(t, After(s, xs[0]), xs[1..])
  }

  /** The run with every request about another tenant taken out. */
  function Purged(t: Id, xs: seq<Request>): seq<Request> {
    if xs == [] then [] else (if About(xs[0]) == t then [xs[0]] else []) + Purged(t, xs[1..])
  }

  function End(s: Store, xs: seq<Request>): Store
    decreases |xs|
  {
    if xs == [] then s else End(After(s, xs[0]), xs[1..])
  }

  /** The lookups across tenants that the request makes come out the same. */
  ghost predicate SameLookups(s1: Store, s2: Store, x: Request) {
    match x
    case Ask(op, call) => SameClaims(s1, s2, op, call)
    case Reshape(t, p) => DomainClaim(s1, t, p) == DomainClaim(s2, t, p)
    case _ => true
  }

  /** Every lookup the tenant's requests make comes out as it does when the others never act. */
  ghost predicate Unmoved(t: Id, s: Store, alone: Store, xs: seq<Request>)
    decreases |xs|
  {
    xs != [] ==>
      if About(xs[0]) == t then
        SameLookups(s, alone, xs[0]) && Unmoved(t, After(s, xs[0]), After(alone, xs[0]), xs[1..])
      else Unmoved(t, After(s, xs[0]), alone, xs[1..])
  }

  /** Tenants are created only over ids nobody has. */
  ghost predicate Tidy(s: Store, xs: seq<Request>)
    decreases |xs|
  {
    xs != [] ==> TidyOne(s, xs[0]) && Tidy(After(s, xs[0]), xs[1..])
  }

  ghost predicate TidyOne(s: Store, x: Request) {
    x.Found? && Do(s, x).1.Ok? ==> SeedInvariant.Unclaimed(s.dir, x.tenant)
  }

  /** The tenant is there already, or is not created in this run. */
  ghost predicate Settled(t: Id, s: Store, xs: seq<Request>) {
    t in s.dir.tenants || forall i :: 0 <= i < |xs| ==> !(xs[i].Found? && xs[i].tenant == t)
  }

  // ------------------------------------------------------------- signing in

  lemma StampKeepsAgreement(t: Id, s1: Store, s2: Store, user: Id, now: Time)
    requires AgreeOn(t, s1, s2)
    ensures AgreeOn(t, Signed(s1, t, user, now), Signed(s2, t, user, now))
  {
  }

  lemma StampStaysHome(t: Id, s: Store, x: Id, user: Id, now: Time)
    requires t != x
    ensures AgreeOn(t, s, Signed(s, x, user, now))
  {
  }

  lemma StampKeepsWellFormed(s: Store, t: Id, user: Id, now: Time)
    requires WellFormed(s)
    ensures WellFormed(Signed(s, t, user, now))
  {
  }

  // ------------------------------------------------------------- one request

  lemma ReshapeKeepsWellFormed(s: Store, t: Id, p: TenantPatch)
    requires WellFormed(s)
    ensures WellFormed(PatchTenant(s, t, p).0)
  {
    hide Valid, ReplacedDomains, PublicTenant, Repeats, DomainOwnedElsewhere;
    PatchTenantKeepsValid(s, t, p);
  }

  lemma StepKeepsWellFormed(s: Store, x: Request)
    requires WellFormed(s) && TidyOne(s, x)
    ensures WellFormed(After(s, x))
  {
    hide WellFormed, Execute, CreateTenant, PatchTenant, Signed, SeedInvariant.Unclaimed;
    match x
    case Ask(op, call) => ExecuteKeepsWellFormed(s, op, call);
    case Found(t, name, branding, domains, rnd) => FoundingKeepsWellFormed(s, t, name, branding, domains, rnd);
    case Reshape(t, p) => ReshapeKeepsWellFormed(s, t, p);
    case SignIn(t, user, now) => StampKeepsWellFormed(s, t, user, now);
  }

  /** A request about another tenant leaves this one's rows alone. */
  lemma OthersStayHome(t: Id, s: Store, x: Request)
    requires WellFormed(s) && TidyOne(s, x) && About(x) != t
    ensures AgreeOn(t, s, After(s, x))
  {
    hide AgreeOn, Execute, CreateTenant, PatchTenant, Signed, SeedInvariant.Unclaimed, Valid;
    match x
    case Ask(op, call) => WritesStayHome(t, s, op, call);
    case Found(y, name, branding, domains, rnd) =>
      if CreateTenant(s, y, name, branding, domains, rnd).1.Ok? {
        FoundingStaysHome(s, y, name, branding, domains, rnd, t);
      } else {
        CreateTenantKeepsValidIffUnclaimed(s, y, name, branding, domains, rnd);
        AgreeRefl(t, s);
      }
    case Reshape(y, p) => ReshapeStaysHome(s, y, p, t);
    case SignIn(y, user, now) => StampStaysHome(t, s, y, user, now);
  }

  lemma OthersStepKeepsTwins(t: Id, s: Store, alone: Store, x: Request)
    requires Twins(s, alone, t) && About(x) != t && TidyOne(s, x)
    ensures Twins(After(s, x), alone, t)
  {
    hide AgreeOn, WellFormed, After, TidyOne;
    StepKeepsWellFormed(s, x);
    OthersStayHome(t, s, x);
    AgreeSym(t, s, After(s, x));
    AgreeTrans(t, After(s, x), s, alone);
  }

  /** A tenant that is there cannot be created again. */
  lemma FoundAgainIsRefused(t: Id, s: Store, x: Request)
    requires x.Found? && x.tenant == t && t in s.dir.tenants
    ensures Do(s, x) == (s, Err(409, "tenant already exists"))
  {
  }

  /** The tenant's own request, on both sides. */
  lemma OwnStepIff(t: Id, s: Store, alone: Store, x: Request)
    requires Twins(s, alone, t) && About(x) == t && (x.Found? ==> t in s.dir.tenants)
    ensures Do(s, x).1 == Do(alone, x).1 <==> SameLookups(s, alone, x)
    ensures SameLookups(s, alone, x) ==> AgreeOn(t, After(s, x), After(alone, x))
  {
    hide AgreeOn, WellFormed, Execute, CreateTenant, PatchTenant, Signed, SameClaims, DomainClaim;
    match x
    case Ask(op, call) => NonInterference(s, alone, op, call);
    case Found(_, _, _, _, _) =>
      TenantLookups(t, s, alone, "", "");
      FoundAgainIsRefused(t, s, x);
      FoundAgainIsRefused(t, alone, x);
    case Reshape(_, p) => ReshapeMatchesIff(t, s, alone, p);
    case SignIn(_, user, now) => StampKeepsAgreement(t, s, alone, user, now);
  }

  lemma StepKeepsTenant(s: Store, x: Request, t: Id)
    requires t in s.dir.tenants
    ensures t in After(s, x).dir.tenants
  {
    hide Execute, CreateTenant, ReplacedDomains, PublicTenant, Repeats, DomainOwnedElsewhere;
    match x
    case Ask(op, call) => ExecuteIsStable(s, op, call);
    case Found(y, name, branding, domains, rnd) => CreateTenantIsStable(s, y, name, branding, domains, rnd);
    case _ =>
  }

  lemma FoundIsThere(s: Store, xs: seq<Request>, t: Id)
    requires Settled(t, s, xs)
    ensures xs != [] && xs[0].Found? && xs[0].tenant == t ==> t in s.dir.tenants
  {
  }

  lemma StaysSettled(s: Store, xs: seq<Request>, t: Id)
    requires xs != [] && Settled(t, s, xs)
    ensures Settled(t, After(s, xs[0]), xs[1..])
  {
    hide After;
    if t in s.dir.tenants {
      StepKeepsTenant(s, xs[0], t);
    } else {
      forall i | 0 <= i < |xs[1..]| ensures !(xs[1..][i].Found? && xs[1..][i].tenant == t) {
        assert xs[1..][i] == xs[i + 1];
      }
    }
  }

  lemma OwnStepKeepsTwins(t: Id, s: Store, alone: Store, x: Request)
    requires Twins(s, alone, t) && About(x) == t && (x.Found? ==> t in s.dir.tenants) && TidyOne(s, x) && SameLookups(s, alone, x)
    ensures Twins(After(s, x), After(alone, x), t)
  {
    hide AgreeOn, WellFormed, After, SameLookups, Do;
    OwnStepIff(t, s, alone, x);
    if x.Found? {
      TenantLookups(t, s, alone, "", "");
      FoundAgainIsRefused(t, alone, x);
    }
    StepKeepsWellFormed(s, x);
    StepKeepsWellFormed(alone, x);
  }

  // ------------------------------------------------------------- whole runs

  /**
   In any run of any operators, with tenants created and edited and users signing in
   between, what is answered about one tenant is what would be answered if nobody
   else acted, exactly when no lookup across tenants that it makes was moved.
   */
  lemma {:induction false} RunsDoNotInterfere(t: Id, s: Store, alone: Store, xs: seq<Request>)
    requires Twins(s, alone, t) && Settled(t, s, xs) && Tidy(s, xs)
    ensures Heard(t, s, xs) == Heard(t, alone, Purged(t, xs)) <==> Unmoved(t, s, alone, xs)
    ensures Unmoved(t, s, alone, xs) ==> Twins(End(s, xs), End(alone, Purged(t, xs)), t)
    decreases |xs|
  {
    hide Twins, SameLookups, Do, TidyOne, Settled;
    assert xs != [] && xs[0].Found? && xs[0].tenant == t ==> t in s.dir.tenants by { FoundIsThere(s, xs, t); }
    if xs == [] {
    } else if About(xs[0]) != t {
      OthersStepKeepsTwins(t, s, alone, xs[0]);
      StaysSettled(s, xs, t);
      assert Heard(t, s, xs) == Heard(t, After(s, xs[0]), xs[1..]) && Purged(t, xs) == Purged(t, xs[1..]);
      RunsDoNotInterfere(t, After(s, xs[0]), alone, xs[1..]);
    } else {
      var mine := [xs[0]] + Purged(t, xs[1..]);
      assert Purged(t, xs) == mine && mine[0] == xs[0] && mine[1..] == Purged(t, xs[1..]);
      OwnStepIff(t, s, alone, xs[0]);
      assert Heard(t, s, xs)[0] == Do(s, xs[0]).1;
      assert Heard(t, alone, mine)[0] == Do(alone, xs[0]).1;
      assert Heard(t, s, xs)[1..] == Heard(t, After(s, xs[0]), xs[1..]);
      assert Heard(t, alone, mine)[1..] == Heard(t, After(alone, xs[0]), Purged(t, xs[1..]));
      if SameLookups(s, alone, xs[0]) {
        OwnStepKeepsTwins(t, s, alone, xs[0]);
        StaysSettled(s, xs, t);
        RunsDoNotInterfere(t, After(s, xs[0]), After(alone, xs[0]), xs[1..]);
      }
    }
  }

  /** Makes no lookup across tenants. */
  predicate LooksNowhere(x: Request) {
    match x
    case Ask(_, call) => ClaimsNothing(call)
    case Reshape(_, p) => p.domains.None?
    case _ => true
  }

  /** A tenant whose operators create nothing and want no domains hears exactly what it would hear alone. */
  lemma EditsAreNeverDisturbed(t: Id, s: Store, alone: Store, xs: seq<Request>)
    requires Twins(s, alone, t) && Settled(t, s, xs) && Tidy(s, xs)
    requires forall i :: 0 <= i < |xs| && About(xs[i]) == t ==> LooksNowhere(xs[i])
    ensures Heard(t, s, xs) == Heard(t, alone, Purged(t, xs))
  {
    hide Twins, Heard, LooksNowhere, Unmoved, Tidy, Settled;
    NothingMoved(t, s, alone, xs);
    RunsDoNotInterfere(t, s, alone, xs);
  }

  lemma LooksAlike(s1: Store, s2: Store, x: Request)
    requires LooksNowhere(x)
    ensures SameLookups(s1, s2, x)
  {
    if x.Ask? { ClaimIsConstant(s1, s2, x.op, x.call); }
  }

  lemma {:induction false} NothingMoved(t: Id, s: Store, alone: Store, xs: seq<Request>)
    requires forall i :: 0 <= i < |xs| && About(xs[i]) == t ==> LooksNowhere(xs[i])
    ensures Unmoved(t, s, alone, xs)
    decreases |xs|
  {
    hide SameLookups, Do, LooksNowhere;
    if xs != [] {
      if About(xs[0]) == t { LooksAlike(s, alone, xs[0]); }
      NothingMoved(t, After(s, xs[0]), After(alone, xs[0]), xs[1..]);
      NothingMoved(t, After(s, xs[0]), alone, xs[1..]);
    }
  }
}
