/** What no step ever undoes: consumption marks, histories, passkeys and their counters. */
module MachineFrame {
  import opened Wrappers
  import opened Models
  import opened Authz
  import opened Login
  import opened Enrollment
  import opened Machine
  import opened MachineInvariant
  import opened MachineSteps
  import Admin
  import AdminNoninterference
  import Passkeys
  import Seed

  /** The library accepts no answer whose counter went back. */
  ghost predicate CounterRule(o: Oracles) {
    forall a: Assertion, nonce: Bytes, key: Bytes, n: int :: o.verifyGet(a, nonce, key, n).Some? ==> n <= o.verifyGet(a, nonce, key, n).value
  }

  /** Passkeys are never removed or handed over. */
  ghost predicate PasskeysStay(a: map<Id, Credential>, b: map<Id, Credential>) {
    forall k :: k in a ==> k in b && b[k].user == a[k].user && b[k].publicKey == a[k].publicKey
  }

  ghost predicate CountersAdvance(a: map<Id, Credential>, b: map<Id, Credential>) {
    forall k :: k in a && k in b ==> a[k].signCount <= b[k].signCount
  }

  ghost predicate AuthAdvances(a: Auth, b: Auth) {
    && ChallengesAdvance(a.challenges, b.challenges) && CodesAdvance(a.codes, b.codes) && ActivationsAdvance(a.activations, b.activations)
    && PasskeysStay(a.credentials, b.credentials)
  }

  /** New sessions are under hashes no session ever had. */
  ghost predicate SessionsFresh(a: Auth, b: Auth, lives: map<string, Life>) {
    forall h :: h in b.sessions && h !in a.sessions ==> h !in lives
  }

  ghost predicate Advances(w: World, c': Config) {
    AuthAdvances(w.config.store.auth, c'.store.auth) && SessionsFresh(w.config.store.auth, c'.store.auth, w.hist.lives)
  }

  lemma AuthRefl(w: World, c': Config)
    requires c'.store.auth == w.config.store.auth
    ensures Advances(w, c')
  {
  }

  lemma SessionAdvances(cfg: Settings, o: Oracles, w: World, user: Id, app: Id, drawn: Fresh, enroll: bool, target: Option<string>,
    challenges: map<Id, Challenge>, credentials: map<Id, Credential>)
    requires Unused(o, w, drawn) && ChallengesAdvance(w.config.store.auth.challenges, challenges)
    requires PasskeysStay(w.config.store.auth.credentials, credentials)
    ensures var s := w.config.store;
      var s1 := s.(auth := s.auth.(challenges := challenges, credentials := credentials));
      Advances(w, w.config.(store := WithSession(cfg, o, s1, user, app, w.config.now, drawn, enroll, target)))
  {
  }

  lemma ChallengeAdvances(w: World, cid: Id, row: Challenge)
    requires cid !in w.config.store.auth.challenges
    ensures Advances(w, w.config.(store := w.config.store.(auth :=
      w.config.store.auth.(challenges := w.config.store.auth.challenges[cid := row]))))
  {
  }

  lemma ThreadsDoNotMatter(w: World, c: Config, c': Config)
    requires Advances(w, c) && c'.store == c.store
    ensures Advances(w, c')
  {
  }

  lemma EnforcingAdvances(cfg: Settings, o: Oracles, w: World, th: Id, drawn: Fresh, cid: Id)
    requires th in w.config.threads && w.config.threads[th].Ready? && Unused(o, w, drawn) && cid !in w.config.store.auth.challenges
    ensures Advances(w, Enforcing(cfg, o, w.config, th, drawn, cid).0)
  {
    hide Login.Ruled, MatchRedirect, RiskOf, Unusual, WithSession, RedirectTo, Advances, Unused;
    var t, s, c' := w.config.threads[th], w.config.store, Enforcing(cfg, o, w.config, th, drawn, cid).0;
    if t.ruling.action == ALLOW {
      SessionAdvances(cfg, o, w, t.user, t.attempt.app, drawn, t.flag, MatchRedirect(t.attempt.registered, t.attempt.requested),
        s.auth.challenges, s.auth.credentials);
      assert s.(auth := s.auth.(challenges := s.auth.challenges, credentials := s.auth.credentials)) == s;
    } else {
      ChallengeAdvances(w, cid, c'.store.auth.challenges[cid]);
    }
    ThreadsDoNotMatter(w, w.config.(store := c'.store), c');
  }

  lemma FinishAdvances(cfg: Settings, o: Oracles, w: World, cid: Id, requested: Option<string>, drawn: Fresh, credentials: map<Id, Credential>)
    requires Unused(o, w, drawn) && Open(w.config.store.auth.challenges, cid, w.config.now)
    requires PasskeysStay(w.config.store.auth.credentials, credentials)
    ensures var s := w.config.store.(auth := w.config.store.auth.(credentials := credentials));
      Advances(w, w.config.(store := Finish(cfg, o, s, cid, w.config.now, requested, drawn).0))
  {
    hide MatchRedirect, WithRisk, WithSession, RedirectTo, HasAccess, PasskeysStay;
    var s := w.config.store.(auth := w.config.store.auth.(credentials := credentials));
    var c := s.auth.challenges[cid];
    var challenges := s.auth.challenges[cid := c.(consumedAt := Some(w.config.now))];
    if HasAccess(s.dir, c.user, c.app) {
      SessionAdvances(cfg, o, w, c.user, c.app, drawn, false,
        MatchRedirect(if c.app in s.dir.apps then s.dir.apps[c.app].redirectUri else None, requested), challenges, credentials);
    }
  }

  lemma StepUpAdvances(cfg: Settings, o: Oracles, w: World, l: Label)
    requires Allowed(o, w, l) && (l.StepUpOtp? || l.StepUpPasskey?)
    ensures l.StepUpOtp? ==> Advances(w, w.config.(store :=
      VerifyOtp(cfg, o, w.config.store, l.challenge, l.otp, w.config.now, l.requested, l.drawn).0))
    ensures l.StepUpPasskey? ==> Advances(w, w.config.(store :=
      VerifyWebAuthn(cfg, o, w.config.store, l.challenge, l.answer, w.config.now, l.requested, l.drawn).0))
  {
    hide Finish, HasAccess, Advances, Unused;
    var s := w.config.store;
    AuthRefl(w, w.config);
    if Open(s.auth.challenges, l.challenge, w.config.now) {
      FinishAdvances(cfg, o, w, l.challenge, l.requested, l.drawn, s.auth.credentials);
      assert s.(auth := s.auth.(credentials := s.auth.credentials)) == s;
      if l.StepUpPasskey? && s.auth.challenges[l.challenge].nonce.Some? && Assert(o, s, s.auth.challenges[l.challenge], l.answer).Some? {
        var counted := Counted(s, l.answer.id.value, Assert(o, s, s.auth.challenges[l.challenge], l.answer).value);
        FinishAdvances(cfg, o, w, l.challenge, l.requested, l.drawn, counted.auth.credentials);
      }
    }
  }

  lemma MildAdvances(w: World, c': Config)
    requires Mild(w.config.store.auth, c'.store.auth) && ActivationsAdvance(w.config.store.auth.activations, c'.store.auth.activations)
    requires PasskeysStay(w.config.store.auth.credentials, c'.store.auth.credentials)
    ensures Advances(w, c')
  {
  }

  lemma StayRefl(a: Auth)
    ensures ActivationsAdvance(a.activations, a.activations) && PasskeysStay(a.credentials, a.credentials)
  {
  }

  lemma SmallAdvances(o: Oracles, w: World, l: Label)
    ensures l.SignOut? ==> Advances(w, w.config.(store := Logout(o, w.config.store, l.raw)))
    ensures l.StepUpOptions? ==> Advances(w, w.config.(store := WebAuthnOptions(w.config.store, l.challenge, w.config.now, l.nonce).0))
    ensures l.EnrollOptions? ==> Advances(w, w.config.(store := SessionOptions(o, w.config.store, l.raw, w.config.now, l.nonce).0))
  {
    hide Advances, Mild, HasPasskey, ActivationsAdvance, PasskeysStay;
    StayRefl(w.config.store.auth);
    if l.SignOut? {
      LogoutIsMild(o, w.config.store, l.raw);
      MildAdvances(w, w.config.(store := Logout(o, w.config.store, l.raw)));
    } else if l.StepUpOptions? {
      NonceIsMild(w.config.store, l.challenge, w.config.now, l.nonce);
      MildAdvances(w, w.config.(store := WebAuthnOptions(w.config.store, l.challenge, w.config.now, l.nonce).0));
    } else if l.EnrollOptions? {
      EnrollNonceIsMild(o, w.config.store, l.raw, w.config.now, l.nonce);
      MildAdvances(w, w.config.(store := SessionOptions(o, w.config.store, l.raw, w.config.now, l.nonce).0));
    }
  }

  lemma RedeemAdvances(o: Oracles, w: World, code: string, drawn: Fresh)
    requires Unused(o, w, drawn)
    ensures Advances(w, w.config.(store := Exchange(o, w.config.store, code, w.config.now, drawn).0))
  {
  }

  lemma CodesOnlyAdvance(w: World, b: Auth)
    requires b == w.config.store.auth.(activations := b.activations) && ActivationsAdvance(w.config.store.auth.activations, b.activations)
    ensures Advances(w, w.config.(store := w.config.store.(auth := b)))
  {
  }

  lemma EnrollAdvances(o: Oracles, w: World, l: Label)
    ensures l.EnrollVerify? ==> Advances(w, w.config.(store := SessionVerify(o, w.config.store, l.raw, l.answer, w.config.now).0))
    ensures l.ActivateVerify? ==> Advances(w, w.config.(store := ActivationVerify(o, w.config.store, l.code, l.answer, w.config.now).0))
    ensures l.ActivateOptions? ==>
      Advances(w, w.config.(store := ActivationOptions(o, w.config.store, l.code, l.password, w.config.now, l.nonce).0))
  {
    hide Advances, HashCode, PasswordOk;
    AuthRefl(w, w.config);
    if l.EnrollVerify? && SessionVerify(o, w.config.store, l.raw, l.answer, w.config.now).1.Ok? {
      SessionVerifyAdvances(o, w, l.raw, l.answer);
    } else if l.ActivateVerify? && ActivationVerify(o, w.config.store, l.code, l.answer, w.config.now).1.Ok? {
      ActivationVerifyAdvances(o, w, l.code, l.answer);
    } else if l.ActivateOptions? {
      CodesOnlyAdvance(w, ActivationOptions(o, w.config.store, l.code, l.password, w.config.now, l.nonce).0.auth);
    }
  }

  lemma SessionVerifyAdvances(o: Oracles, w: World, raw: Option<string>, answer: Assertion)
    requires SessionVerify(o, w.config.store, raw, answer, w.config.now).1.Ok?
    ensures Advances(w, w.config.(store := SessionVerify(o, w.config.store, raw, answer, w.config.now).0))
  {
  }

  lemma ActivationVerifyAdvances(o: Oracles, w: World, code: string, answer: Assertion)
    requires ActivationVerify(o, w.config.store, code, answer, w.config.now).1.Ok?
    ensures Advances(w, w.config.(store := ActivationVerify(o, w.config.store, code, answer, w.config.now).0))
  {
  }

  lemma IssuedAdvances(a: map<string, ActivationCode>, u: Id, issuer: string, now: Time, ttl: int, hash: string)
    requires hash !in a
    ensures ActivationsAdvance(a, Admin.IssuedCode(a, u, issuer, now, ttl, hash))
  {
  }

  lemma ManageAdvances(w: World, op: Admin.Operator, call: Admin.Call)
    ensures Advances(w, w.config.(store := Admin.Execute(w.config.store, op, call).0))
  {
    hide Advances, ActivationsAdvance, Admin.IssuedCode;
    AuthRefl(w, w.config);
    if call.CallIssueCode? {
      if Admin.Execute(w.config.store, op, call).1.Ok? {
        IssuedAdvances(w.config.store.auth.activations, call.user, op.user, call.now, call.ttl, call.hash);
        CodesOnlyAdvance(w, Admin.Execute(w.config.store, op, call).0.auth);
      }
    } else {
      hide Admin.Execute;
      AdminNoninterference.LeavesAuth(w.config.store, op, call);
      AuthRefl(w, w.config.(store := Admin.Execute(w.config.store, op, call).0));
    }
  }

  lemma TenantsLeaveAuth(s: Store, t: Id, name: string, branding: Branding, domains: seq<string>, rnd: Seed.Randoms, p: Admin.TenantPatch)
    ensures Admin.CreateTenant(s, t, name, branding, domains, rnd).0.auth == s.auth && Admin.PatchTenant(s, t, p).0.auth == s.auth
  {
  }

  lemma ImportingAdvances(w: World, items: seq<Passkeys.Item>)
    ensures Advances(w, w.config.(store := Importing(w.config, items)))
  {
    hide Passkeys.Import, ChallengesAdvance, CodesAdvance, ActivationsAdvance;
    AuthRefl(w, w.config);
    if Passkeys.Import(w.config.store.dir.users.Keys, w.config.store.auth.credentials, items).Some? {
      Passkeys.ImportAdvances(w.config.store.dir.users.Keys, w.config.store.auth.credentials, items);
    }
  }

  /** No step takes anything back. */
  lemma StepAdvances(cfg: Settings, o: Oracles, w: World, l: Label)
    requires Allowed(o, w, l)
    ensures Advances(w, Exec(cfg, o, w.config, l).0)
  {
    hide Advances, Importing, Reseeding, Checking, Deciding, Looking, Enforcing, RouteApp, RouteConsole, Unused, VerifyOtp, WebAuthnOptions, VerifyWebAuthn,
      Exchange, Logout, SessionOptions, SessionVerify, ActivationOptions, ActivationVerify, Admin.Execute, Admin.CreateTenant, Admin.PatchTenant;
    var s := w.config.store;
    AuthRefl(w, w.config);
    match l
    case CheckPassword(th) =>
      if th in w.config.threads && w.config.threads[th].Routed? { CheckingLeavesStore(o, w, th); }
    case Decide(th, policy, pdp, event) =>
      if th in w.config.threads && w.config.threads[th].Checked? { DecidingLeavesStore(cfg, w, th, policy, pdp, event); }
    case Look(th) =>
      if th in w.config.threads && w.config.threads[th].Ruled? { LookingLeavesStore(cfg, w, th); }
    case Enforce(th, drawn, cid) =>
      if th in w.config.threads && w.config.threads[th].Ready? { EnforcingAdvances(cfg, o, w, th, drawn, cid); }
    case StepUpOtp(_, _, _, _) => StepUpAdvances(cfg, o, w, l);
    case StepUpPasskey(_, _, _, _) => StepUpAdvances(cfg, o, w, l);
    case StepUpOptions(_, _) => SmallAdvances(o, w, l);
    case SignOut(_) => SmallAdvances(o, w, l);
    case EnrollOptions(_, _) => SmallAdvances(o, w, l);
    case Redeem(code, drawn) => RedeemAdvances(o, w, code, drawn);
    case EnrollVerify(_, _) => EnrollAdvances(o, w, l);
    case ActivateOptions(_, _, _) => EnrollAdvances(o, w, l);
    case ActivateVerify(_, _) => EnrollAdvances(o, w, l);
    case Manage(op, call) => ManageAdvances(w, op, call);
    case AddTenant(t, name, branding, domains, rnd) =>
      TenantsLeaveAuth(s, t, name, branding, domains, rnd, Admin.TenantPatch(None, None, None));
      AuthRefl(w, w.config.(store := Admin.CreateTenant(s, t, name, branding, domains, rnd).0));
    case EditTenant(t, p) =>
      PatchLeavesAuth(s, t, p);
      AuthRefl(w, w.config.(store := Admin.PatchTenant(s, t, p).0));
    case ImportKeys(items) => ImportingAdvances(w, items);
    case Reseed(specs, rnd) =>
      SeedLeavesAuth(w.config, specs, rnd);
      AuthRefl(w, w.config.(store := Reseeding(w.config, specs, rnd)));
    case Tick(n) => AuthRefl(w, w.config.(now := w.config.now + n));
    case StartApp(_, _, _, _, _) => AuthRefl(w, Exec(cfg, o, w.config, l).0);
    case StartConsole(_, _, _) => AuthRefl(w, Exec(cfg, o, w.config, l).0);
  }

  lemma SeedLeavesAuth(c: Config, specs: seq<Seed.TenantSpec>, rnd: Seed.Randoms)
    ensures Reseeding(c, specs, rnd).auth == c.store.auth
  {
  }

  lemma PatchLeavesAuth(s: Store, t: Id, p: Admin.TenantPatch)
    ensures Admin.PatchTenant(s, t, p).0.auth == s.auth
  {
  }

  lemma CheckingLeavesStore(o: Oracles, w: World, th: Id)
    requires th in w.config.threads && w.config.threads[th].Routed?
    ensures Advances(w, Checking(o, w.config, th).0) && Checking(o, w.config, th).0.store == w.config.store
  {
  }

  lemma DecidingLeavesStore(cfg: Settings, w: World, th: Id, policy: Option<Policy>, pdp: Option<Decision>, event: Id)
    requires th in w.config.threads && w.config.threads[th].Checked?
    ensures Advances(w, Deciding(cfg, w.config, th, policy, pdp, event).0)
    ensures Deciding(cfg, w.config, th, policy, pdp, event).0.store == w.config.store
  {
  }

  lemma LookingLeavesStore(cfg: Settings, w: World, th: Id)
    requires th in w.config.threads && w.config.threads[th].Ruled?
    ensures Advances(w, Looking(cfg, w.config, th).0) && Looking(cfg, w.config, th).0.store == w.config.store
  {
  }

  // ------------------------------------------------------------- histories

  /** What was recorded of a session is never rewritten. */
  lemma LivesOnlyGrow(cfg: Settings, o: Oracles, w: World, l: Label)
    requires Allowed(o, w, l)
    ensures LivesGrow(w.hist.lives, Next(cfg, o, w, l).hist.lives)
  {
    hide Exec;
  }

  /** Taking steps, nothing recorded is lost, no mark is rewritten, and a token that stopped working never works again. */
  ghost predicate Later(a: World, b: World) {
    && AuthAdvances(a.config.store.auth, b.config.store.auth) && LivesGrow(a.hist.lives, b.hist.lives)
    && (forall h :: h in a.hist.lives && h !in a.config.store.auth.sessions ==> h !in b.config.store.auth.sessions)
  }

  lemma LaterRefl(a: World)
    ensures Later(a, a)
  {
  }

  lemma LaterTrans(a: World, b: World, c: World)
    requires Later(a, b) && Later(b, c)
    ensures Later(a, c)
  {
  }

  lemma StepIsLater(cfg: Settings, o: Oracles, w: World, l: Label)
    requires Allowed(o, w, l)
    ensures Later(w, Next(cfg, o, w, l))
  {
    hide Exec, AuthAdvances, LivesGrow, Allowed, Record;
    StepAdvances(cfg, o, w, l);
    LivesOnlyGrow(cfg, o, w, l);
  }

  lemma {:induction false} RunIsLater(cfg: Settings, o: Oracles, w: World, ls: seq<Label>)
    requires Run(cfg, o, w, ls)
    ensures Later(w, After(cfg, o, w, ls))
    decreases |ls|
  {
    hide Later, Next, Allowed;
    if ls == [] {
      LaterRefl(w);
    } else {
      var w1 := Next(cfg, o, w, ls[0]);
      StepIsLater(cfg, o, w, ls[0]);
      RunIsLater(cfg, o, w1, ls[1..]);
      LaterTrans(w, w1, After(cfg, o, w, ls));
    }
  }

  // ------------------------------------------------------------- passkey counters

  lemma SameCounters(a: map<Id, Credential>)
    ensures CountersAdvance(a, a)
  {
  }

  lemma PasskeyCounts(cfg: Settings, o: Oracles, s: Store, cid: Id, answer: Assertion, now: Time, requested: Option<string>, drawn: Fresh)
    requires CounterRule(o)
    ensures CountersAdvance(s.auth.credentials, VerifyWebAuthn(cfg, o, s, cid, answer, now, requested, drawn).0.auth.credentials)
  {
    hide HasAccess, MatchRedirect, SignedIn, WithRisk, RedirectTo;
  }

  lemma OtherCounts(cfg: Settings, o: Oracles, c: Config, l: Label)
    requires l.Enforce? || l.StepUpOtp? || l.StepUpOptions? || l.Redeem? || l.SignOut? || l.EnrollOptions? || l.ActivateOptions?
    ensures Exec(cfg, o, c, l).0.store.auth.credentials == c.store.auth.credentials
  {
    hide Checking, Deciding, Looking, RouteApp, RouteConsole, VerifyWebAuthn, SessionVerify, ActivationVerify, Admin.Execute,
      Admin.CreateTenant, Admin.PatchTenant, HasAccess, MatchRedirect, SignedIn, WithRisk, RedirectTo, HasPasskey, Login.Ruled, RiskOf, View,
      Importing, Reseeding, HashCode, Unlocks;
  }

  lemma EnrollCounts(o: Oracles, s: Store, raw: Option<string>, code: string, answer: Assertion, now: Time)
    ensures CountersAdvance(s.auth.credentials, SessionVerify(o, s, raw, answer, now).0.auth.credentials)
    ensures CountersAdvance(s.auth.credentials, ActivationVerify(o, s, code, answer, now).0.auth.credentials)
  {
  }

  /** Under the library's counter rule no passkey's counter ever goes back. */
  lemma StepCounts(cfg: Settings, o: Oracles, w: World, l: Label)
    requires CounterRule(o)
    ensures CountersAdvance(w.config.store.auth.credentials, Exec(cfg, o, w.config, l).0.store.auth.credentials)
  {
    hide CounterRule, Importing, Reseeding, Checking, Deciding, Looking, Enforcing, RouteApp, RouteConsole, VerifyOtp, WebAuthnOptions, VerifyWebAuthn, CountersAdvance,
      Exchange, Logout, SessionOptions, SessionVerify, ActivationOptions, ActivationVerify, Admin.Execute, Admin.CreateTenant, Admin.PatchTenant;
    var s := w.config.store;
    SameCounters(s.auth.credentials);
    match l
    case CheckPassword(th) =>
      if th in w.config.threads && w.config.threads[th].Routed? { CheckingLeavesStore(o, w, th); }
    case Decide(th, policy, pdp, event) =>
      if th in w.config.threads && w.config.threads[th].Checked? { DecidingLeavesStore(cfg, w, th, policy, pdp, event); }
    case Look(th) =>
      if th in w.config.threads && w.config.threads[th].Ruled? { LookingLeavesStore(cfg, w, th); }
    case StepUpPasskey(cid, answer, requested, drawn) => PasskeyCounts(cfg, o, s, cid, answer, w.config.now, requested, drawn);
    case EnrollVerify(raw, answer) => EnrollCounts(o, s, raw, "", answer, w.config.now);
    case ActivateVerify(code, answer) => EnrollCounts(o, s, None, code, answer, w.config.now);
    case Manage(op, call) => ManageCounts(s, op, call);
    case AddTenant(t, name, branding, domains, rnd) =>
      TenantsLeaveAuth(s, t, name, branding, domains, rnd, Admin.TenantPatch(None, None, None));
    case EditTenant(t, p) => PatchLeavesAuth(s, t, p);
    case ImportKeys(items) => ImportCounts(w.config, items);
    case Tick(n) =>
    case StartApp(_, _, _, _, _) =>
    case StartConsole(_, _, _) =>
    case Reseed(specs, rnd) => SeedLeavesAuth(w.config, specs, rnd);
    case _ => OtherCounts(cfg, o, w.config, l);
  }

  lemma ManageCounts(s: Store, op: Admin.Operator, call: Admin.Call)
    ensures Admin.Execute(s, op, call).0.auth.credentials == s.auth.credentials
  {
    if !call.CallIssueCode? {
      hide Admin.Execute;
      AdminNoninterference.LeavesAuth(s, op, call);
    }
  }

  lemma ImportCounts(c: Config, items: seq<Passkeys.Item>)
    ensures CountersAdvance(c.store.auth.credentials, Importing(c, items).auth.credentials)
  {
    if Passkeys.Import(c.store.dir.users.Keys, c.store.auth.credentials, items).Some? {
      Passkeys.ImportAdvances(c.store.dir.users.Keys, c.store.auth.credentials, items);
    }
  }

  lemma {:induction false} RunCounts(cfg: Settings, o: Oracles, w: World, ls: seq<Label>)
    requires CounterRule(o) && Run(cfg, o, w, ls)
    ensures CountersAdvance(w.config.store.auth.credentials, After(cfg, o, w, ls).config.store.auth.credentials)
    decreases |ls|
  {
    hide Exec, Record, Allowed, CounterRule;
    if ls == [] {
      SameCounters(w.config.store.auth.credentials);
    } else {
      var w1 := Next(cfg, o, w, ls[0]);
      StepCounts(cfg, o, w, ls[0]);
      StepAdvances(cfg, o, w, ls[0]);
      RunCounts(cfg, o, w1, ls[1..]);
    }
  }
}
