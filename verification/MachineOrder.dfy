/**
 What a run does to the directory's own invariant: which steps can break it, and
 that the unique constraint sign-in rests on is kept by all of them.
 */
module MachineOrder {
  import opened Wrappers
  import opened Models
  import opened Authz
  import opened Login
  import opened Enrollment
  import opened DirectoryInvariant
  import opened Machine
  import opened MachineTheorems
  import Admin
  import AdminInvariant
  import Seed
  import SeedInvariant

  // ------------------------------------------------------------- steps of signing in

  lemma SignedInIsValid(d: Directory, user: Id, now: Time)
    requires Valid(d)
    ensures Valid(SignedIn(d, user, now))
  {
  }

  predicate SignsIn(l: Label) { l.Enforce? || l.StepUpOtp? || l.StepUpPasskey? }

  predicate Administers(l: Label) { l.Manage? || l.AddTenant? || l.EditTenant? || l.Reseed? }

  /** Signing someone in stamps their row. */
  ghost predicate OnlyStamps(d: Directory, d': Directory) {
    d' == d || exists user, now :: d' == SignedIn(d, user, now)
  }

  lemma FinishStamps(cfg: Settings, o: Oracles, s: Store, cid: Id, now: Time, requested: Option<string>, drawn: Fresh)
    requires cid in s.auth.challenges
    ensures OnlyStamps(s.dir, Finish(cfg, o, s, cid, now, requested, drawn).0.dir)
  {
    hide HasAccess, MatchRedirect, WithRisk, RedirectTo, SignedIn;
  }

  lemma StepUpStamps(cfg: Settings, o: Oracles, s: Store, now: Time, l: Label)
    ensures l.StepUpOtp? ==> OnlyStamps(s.dir, VerifyOtp(cfg, o, s, l.challenge, l.otp, now, l.requested, l.drawn).0.dir)
    ensures l.StepUpPasskey? ==> OnlyStamps(s.dir, VerifyWebAuthn(cfg, o, s, l.challenge, l.answer, now, l.requested, l.drawn).0.dir)
  {
    hide SignedIn, Finish;
    if (l.StepUpOtp? || l.StepUpPasskey?) && Open(s.auth.challenges, l.challenge, now) {
      FinishStamps(cfg, o, s, l.challenge, now, l.requested, l.drawn);
      if l.StepUpPasskey? && s.auth.challenges[l.challenge].nonce.Some? && Assert(o, s, s.auth.challenges[l.challenge], l.answer).Some? {
        FinishStamps(cfg, o, Counted(s, l.answer.id.value, Assert(o, s, s.auth.challenges[l.challenge], l.answer).value),
          l.challenge, now, l.requested, l.drawn);
      }
    }
  }

  lemma EnforceStamps(cfg: Settings, o: Oracles, c: Config, th: Id, drawn: Fresh, cid: Id)
    requires th in c.threads && c.threads[th].Ready?
    ensures OnlyStamps(c.store.dir, Enforcing(cfg, o, c, th, drawn, cid).0.store.dir)
  {
    hide MatchRedirect, RedirectTo, SignedIn, Login.Ruled, RiskOf;
  }

  lemma SigningInStamps(cfg: Settings, o: Oracles, c: Config, l: Label)
    requires SignsIn(l)
    ensures OnlyStamps(c.store.dir, Exec(cfg, o, c, l).0.store.dir)
  {
    hide Enforcing, VerifyOtp, VerifyWebAuthn, SignedIn;
    StepUpStamps(cfg, o, c.store, c.now, l);
    if l.Enforce? && l.thread in c.threads && c.threads[l.thread].Ready? {
      EnforceStamps(cfg, o, c, l.thread, l.drawn, l.challenge);
    }
  }

  lemma OthersLeaveDirectory(cfg: Settings, o: Oracles, c: Config, l: Label)
    requires !SignsIn(l) && !Administers(l)
    ensures Exec(cfg, o, c, l).0.store.dir == c.store.dir
  {
    hide Check, Rule, Flag, RouteApp, RouteConsole, WithCredential, HashCode, Unlocks, HasPasskey, View, VerifyOtp, VerifyWebAuthn, Enforcing;
  }

  lemma LoginKeepsValid(cfg: Settings, o: Oracles, c: Config, l: Label)
    requires Valid(c.store.dir) && !Administers(l)
    ensures Valid(Exec(cfg, o, c, l).0.store.dir)
  {
    hide Valid, Exec, SignedIn;
    if SignsIn(l) {
      SigningInStamps(cfg, o, c, l);
      if Exec(cfg, o, c, l).0.store.dir != c.store.dir {
        var user, now :| Exec(cfg, o, c, l).0.store.dir == SignedIn(c.store.dir, user, now);
        SignedInIsValid(c.store.dir, user, now);
      }
    } else {
      OthersLeaveDirectory(cfg, o, c, l);
    }
  }

  // ------------------------------------------------------------- which steps break the directory

  /** A tenant is created over no taken id; a seed that commits links only rows of one owner. */
  ghost predicate Orderly(c: Config, l: Label) {
    match l
    case AddTenant(t, name, branding, domains, rnd) =>
      Admin.CreateTenant(c.store, t, name, branding, domains, rnd).1.Ok? ==> SeedInvariant.Unclaimed(c.store.dir, t)
    case Reseed(specs, rnd) =>
      Seed.SeedIdentity(c.store.dir, specs, rnd).Some? ==> SeedInvariant.AllSound(c.store.dir, Seed.Program(specs), rnd)
    case _ => true
  }

  /** In a valid directory a step is orderly exactly when the directory is still valid after it. */
  lemma StepKeepsValidIffOrderly(cfg: Settings, o: Oracles, c: Config, l: Label)
    requires Valid(c.store.dir)
    ensures Valid(Exec(cfg, o, c, l).0.store.dir) <==> Orderly(c, l)
  {
    hide Valid, Admin.CreateTenant, Admin.PatchTenant, Admin.Execute, SeedInvariant.Unclaimed, SeedInvariant.AllSound, Seed.SeedIdentity,
      Seed.Program, Checking, Deciding, Looking, Enforcing, VerifyOtp, WebAuthnOptions, VerifyWebAuthn, Exchange, Logout, SessionOptions,
      SessionVerify, ActivationOptions, ActivationVerify, RouteApp, RouteConsole;
    match l
    case Manage(op, call) => AdminInvariant.ExecuteKeepsValid(c.store, op, call);
    case AddTenant(t, name, branding, domains, rnd) =>
      AdminInvariant.CreateTenantKeepsValidIffUnclaimed(c.store, t, name, branding, domains, rnd);
    case EditTenant(t, p) => AdminInvariant.PatchTenantKeepsValid(c.store, t, p);
    case Reseed(specs, rnd) =>
      if Seed.SeedIdentity(c.store.dir, specs, rnd).Some? {
        SeedInvariant.SeedKeepsValidIffSound(c.store.dir, specs, rnd);
      }
    case _ => LoginKeepsValid(cfg, o, c, l);
  }

  /** The directory is valid in every state of the run, and permissions are at home in each. */
  ghost predicate AlwaysValid(cfg: Settings, o: Oracles, w: World, ls: seq<Label>)
    decreases |ls|
  {
    && Valid(w.config.store.dir) && PermissionsAtHome(w.config.store.dir)
    && (ls != [] ==> AlwaysValid(cfg, o, Next(cfg, o, w, ls[0]), ls[1..]))
  }

  ghost predicate AllOrderly(cfg: Settings, o: Oracles, w: World, ls: seq<Label>)
    decreases |ls|
  {
    ls != [] ==> Orderly(w.config, ls[0]) && AllOrderly(cfg, o, Next(cfg, o, w, ls[0]), ls[1..])
  }

  /** From a valid directory, every state of a run is valid exactly when every step is orderly. */
  lemma {:induction false} RunStaysValidIffOrderly(cfg: Settings, o: Oracles, w: World, ls: seq<Label>)
    requires Valid(w.config.store.dir)
    ensures AlwaysValid(cfg, o, w, ls) <==> AllOrderly(cfg, o, w, ls)
    decreases |ls|
  {
    hide Valid, PermissionsAtHome, Orderly, Exec, Record;
    PermissionsAreAtHome(w.config.store.dir);
    if ls != [] {
      StepKeepsValidIffOrderly(cfg, o, w.config, ls[0]);
      if Orderly(w.config, ls[0]) {
        RunStaysValidIffOrderly(cfg, o, Next(cfg, o, w, ls[0]), ls[1..]);
      } else {
        assert !AlwaysValid(cfg, o, Next(cfg, o, w, ls[0]), ls[1..]);
      }
    }
  }

  // ------------------------------------------------------------- one user per address, whatever happens

  lemma StampKeepsEmails(d: Directory, user: Id, now: Time)
    requires UniqueEmails(d.users)
    ensures UniqueEmails(SignedIn(d, user, now).users)
  {
  }

  lemma AddingKeepsEmails(users: map<Id, User>, u: Id, row: User)
    requires UniqueEmails(users)
    requires if u in users then users[u].tenant == row.tenant && users[u].email == row.email else !Seed.EmailTaken(users, row.tenant, row.email)
    ensures UniqueEmails(users[u := row])
  {
  }

  lemma ManageKeepsEmails(s: Store, op: Admin.Operator, call: Admin.Call)
    requires UniqueEmails(s.dir.users)
    ensures UniqueEmails(Admin.Execute(s, op, call).0.dir.users)
  {
    hide UniqueEmails, NormaliseEmail, Admin.PublicUser, Admin.SyncAdminFlag, Seed.EmailTaken;
    if call.CallCreateUser? || call.CallPatchUser? {
      if Admin.Execute(s, op, call).1.Ok? {
        AddingKeepsEmails(s.dir.users, call.user, Admin.Execute(s, op, call).0.dir.users[call.user]);
      }
    } else {
      hide Admin.Execute;
      if call.CallCreateApp? || call.CallPatchApp? {
        AppsLeaveUsers(s, op, call);
      } else {
        AdminInvariant.LeavesOwners(s, op, call);
      }
    }
  }

  lemma AppsLeaveUsers(s: Store, op: Admin.Operator, call: Admin.Call)
    requires call.CallCreateApp? || call.CallPatchApp?
    ensures Admin.Execute(s, op, call).0.dir.users == s.dir.users
  {
    hide Seed.ClientIdTaken;
  }

  lemma OneKeepsEmails(d: Directory, c: Seed.Command, rnd: Seed.Randoms)
    requires UniqueEmails(d.users) && Seed.RunOne(d, c, rnd).Some?
    ensures UniqueEmails(Seed.RunOne(d, c, rnd).value.users)
  {
    hide UniqueEmails, NormaliseEmail, Seed.EmailTaken, Seed.ClientIdTaken, Seed.NewClientId, Seed.PermissionId, Seed.ConsoleId, Seed.AdminGroupId,
      Seed.ScopeTaken, Seed.RoleNameTaken, Seed.GroupNameTaken, Seed.DistinctClientIds, Seed.FilledClientIds;
    if c.EnsureUser? {
      var d', e := Seed.RunOne(d, c, rnd).value, NormaliseEmail(c.email);
      if !Seed.EmailTaken(d.users, c.tenant, e) {
        AddingKeepsEmails(d.users, c.user, d'.users[c.user]);
      }
    }
  }

  lemma {:induction false} SeedKeepsEmails(d: Directory, cs: seq<Seed.Command>, rnd: Seed.Randoms)
    requires UniqueEmails(d.users) && Seed.Run(d, cs, rnd).Some?
    ensures UniqueEmails(Seed.Run(d, cs, rnd).value.users)
    decreases |cs|
  {
    hide UniqueEmails, Seed.RunOne;
    if cs != [] {
      OneKeepsEmails(d, cs[0], rnd);
      SeedKeepsEmails(Seed.RunOne(d, cs[0], rnd).value, cs[1..], rnd);
    }
  }

  lemma TenantsKeepEmails(s: Store, l: Label)
    requires UniqueEmails(s.dir.users)
    ensures l.AddTenant? ==> UniqueEmails(Admin.CreateTenant(s, l.tenant, l.name, l.branding, l.domains, l.randoms).0.dir.users)
    ensures l.EditTenant? ==> UniqueEmails(Admin.PatchTenant(s, l.tenant, l.patch).0.dir.users)
  {
    hide UniqueEmails, Seed.Run, Seed.BootstrapConsole, Admin.ReplacedDomains, Admin.PublicTenant, Admin.Repeats, Admin.DomainOwnedElsewhere;
    if l.AddTenant? {
      var d := AdminInvariant.WithTenant(s.dir, l.tenant, l.name, l.branding, l.domains);
      if Seed.Run(d, Seed.BootstrapConsole(l.tenant), l.randoms).Some? {
        SeedKeepsEmails(d, Seed.BootstrapConsole(l.tenant), l.randoms);
      }
    }
  }

  /** No step, orderly or not, gives one tenant two users with the same address. */
  lemma StepKeepsEmails(cfg: Settings, o: Oracles, c: Config, l: Label)
    requires UniqueEmails(c.store.dir.users)
    ensures UniqueEmails(Exec(cfg, o, c, l).0.store.dir.users)
  {
    hide UniqueEmails, SignedIn, Admin.CreateTenant, Admin.PatchTenant, Admin.Execute, Seed.Run, Seed.Program;
    if SignsIn(l) {
      hide Exec;
      SigningInStamps(cfg, o, c, l);
      if Exec(cfg, o, c, l).0.store.dir != c.store.dir {
        var user, now :| Exec(cfg, o, c, l).0.store.dir == SignedIn(c.store.dir, user, now);
        StampKeepsEmails(c.store.dir, user, now);
      }
    } else if !Administers(l) {
      hide Exec;
      OthersLeaveDirectory(cfg, o, c, l);
    } else {
      match l
      case Manage(op, call) => ManageKeepsEmails(c.store, op, call);
      case AddTenant(_, _, _, _, _) => TenantsKeepEmails(c.store, l);
      case EditTenant(_, _) => TenantsKeepEmails(c.store, l);
      case Reseed(specs, rnd) =>
        if Seed.SeedIdentity(c.store.dir, specs, rnd).Some? {
          SeedKeepsEmails(c.store.dir, Seed.Program(specs), rnd);
        }
    }
  }

  lemma {:induction false} RunKeepsEmails(cfg: Settings, o: Oracles, w: World, ls: seq<Label>)
    requires UniqueEmails(w.config.store.dir.users)
    ensures UniqueEmails(After(cfg, o, w, ls).config.store.dir.users)
    decreases |ls|
  {
    hide UniqueEmails, Exec, Record;
    if ls != [] {
      StepKeepsEmails(cfg, o, w.config, ls[0]);
      RunKeepsEmails(cfg, o, Next(cfg, o, w, ls[0]), ls[1..]);
    }
  }
}
