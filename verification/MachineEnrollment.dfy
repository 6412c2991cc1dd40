/**
 Whether the offer to enroll lapses once its user has a passkey. Asking for the
 options closes it and is refused, and the refusal undoes the closing; verifying
 does not ask. So it lapses for the sessions that have not asked yet, and only those.
 */
module MachineEnrollment {
  import opened Wrappers
  import opened Models
  import opened Authz
  import opened DirectoryInvariant
  import opened Login
  import opened Enrollment
  import opened Machine
  import opened MachineInvariant
  import opened MachineSteps
  import opened MachineFrame
  import LoginFacts
  import Admin
  import AdminNoninterference
  import Passkeys

  // ------------------------------------------------------------- what becomes of a session's nonce

  /** A nonce appears on a session only where its options were handed out. */
  ghost predicate NoncesFade(a: map<string, Session>, b: map<string, Session>) {
    forall h :: h in a && h in b ==> b[h].user == a[h].user && (b[h].nonce == a[h].nonce || b[h].nonce.None?)
  }

  lemma SessionsOnlyFade(o: Oracles, s: Store, now: Time, l: Label)
    ensures l.Redeem? && o.hash(l.drawn.token) !in s.auth.sessions ==> NoncesFade(s.auth.sessions, Exchange(o, s, l.code, now, l.drawn).0.auth.sessions)
    ensures l.SignOut? ==> NoncesFade(s.auth.sessions, Logout(o, s, l.raw).auth.sessions)
    ensures l.EnrollVerify? ==> NoncesFade(s.auth.sessions, SessionVerify(o, s, l.raw, l.answer, now).0.auth.sessions)
    ensures l.ActivateOptions? ==> ActivationOptions(o, s, l.code, l.password, now, l.nonce).0.auth.sessions == s.auth.sessions
    ensures l.ActivateVerify? ==> ActivationVerify(o, s, l.code, l.answer, now).0.auth.sessions == s.auth.sessions
    ensures l.StepUpOptions? ==> WebAuthnOptions(s, l.challenge, now, l.nonce).0.auth.sessions == s.auth.sessions
  {
    hide View, HashCode, PasswordOk, WithCredential, HasPasskey;
  }

  /** Someone who has a passkey is handed no options. */
  lemma OptionsPassOver(o: Oracles, s: Store, raw: Option<string>, now: Time, nonce: Bytes, h: string)
    requires h in s.auth.sessions && HasPasskey(s.auth.credentials, s.auth.sessions[h].user)
    ensures var b := SessionOptions(o, s, raw, now, nonce).0.auth.sessions; h in b && b[h] == s.auth.sessions[h]
  {
  }

  lemma NewSessionFades(cfg: Settings, o: Oracles, s: Store, user: Id, app: Id, now: Time, drawn: Fresh, enroll: bool, target: Option<string>)
    requires o.hash(drawn.token) !in s.auth.sessions
    ensures NoncesFade(s.auth.sessions, WithSession(cfg, o, s, user, app, now, drawn, enroll, target).auth.sessions)
  {
  }

  lemma FinishFades(cfg: Settings, o: Oracles, s: Store, cid: Id, now: Time, requested: Option<string>, drawn: Fresh)
    requires cid in s.auth.challenges && o.hash(drawn.token) !in s.auth.sessions
    ensures NoncesFade(s.auth.sessions, Finish(cfg, o, s, cid, now, requested, drawn).0.auth.sessions)
  {
    hide HasAccess, MatchRedirect, WithRisk, RedirectTo;
  }

  lemma StepUpFades(cfg: Settings, o: Oracles, w: World, l: Label)
    requires Allowed(o, w, l) && (l.StepUpOtp? || l.StepUpPasskey?)
    ensures l.StepUpOtp? ==> NoncesFade(w.config.store.auth.sessions,
      VerifyOtp(cfg, o, w.config.store, l.challenge, l.otp, w.config.now, l.requested, l.drawn).0.auth.sessions)
    ensures l.StepUpPasskey? ==> NoncesFade(w.config.store.auth.sessions,
      VerifyWebAuthn(cfg, o, w.config.store, l.challenge, l.answer, w.config.now, l.requested, l.drawn).0.auth.sessions)
  {
    hide Finish;
    var c, s := w.config, w.config.store;
    if Open(s.auth.challenges, l.challenge, c.now) {
      FinishFades(cfg, o, s, l.challenge, c.now, l.requested, l.drawn);
      if l.StepUpPasskey? && s.auth.challenges[l.challenge].nonce.Some? && Assert(o, s, s.auth.challenges[l.challenge], l.answer).Some? {
        FinishFades(cfg, o, Counted(s, l.answer.id.value, Assert(o, s, s.auth.challenges[l.challenge], l.answer).value),
          l.challenge, c.now, l.requested, l.drawn);
      }
    }
  }

  lemma EnforceFades(cfg: Settings, o: Oracles, w: World, th: Id, drawn: Fresh, cid: Id)
    requires th in w.config.threads && w.config.threads[th].Ready? && o.hash(drawn.token) !in w.config.store.auth.sessions
    ensures NoncesFade(w.config.store.auth.sessions, Enforcing(cfg, o, w.config, th, drawn, cid).0.store.auth.sessions)
  {
    hide MatchRedirect, RedirectTo, WithSession, Login.Ruled, RiskOf;
    var t := w.config.threads[th];
    NewSessionFades(cfg, o, w.config.store, t.user, t.attempt.app, w.config.now, drawn, t.flag, MatchRedirect(t.attempt.registered, t.attempt.requested));
  }

  lemma SigningInFades(cfg: Settings, o: Oracles, w: World, l: Label)
    requires Allowed(o, w, l) && (l.Enforce? || l.StepUpOtp? || l.StepUpPasskey?)
    ensures NoncesFade(w.config.store.auth.sessions, Exec(cfg, o, w.config, l).0.store.auth.sessions)
  {
    hide Enforcing, VerifyOtp, VerifyWebAuthn;
    if l.Enforce? {
      if l.thread in w.config.threads && w.config.threads[l.thread].Ready? {
        EnforceFades(cfg, o, w, l.thread, l.drawn, l.challenge);
      }
    } else {
      StepUpFades(cfg, o, w, l);
    }
  }

  predicate Quietly(l: Label) {
    || l.Tick? || l.StartApp? || l.StartConsole? || l.CheckPassword? || l.Decide? || l.Look? || l.Manage? || l.AddTenant? || l.EditTenant?
    || l.ImportKeys? || l.Reseed?
  }

  lemma LookingOnKeepsSessions(cfg: Settings, o: Oracles, w: World, l: Label)
    requires l.CheckPassword? || l.Decide? || l.Look?
    ensures Exec(cfg, o, w.config, l).0.store.auth.sessions == w.config.store.auth.sessions
  {
    hide Checking, Deciding, Looking, Enforcing, RouteApp, RouteConsole, VerifyOtp, WebAuthnOptions, VerifyWebAuthn, Exchange, Logout, SessionOptions,
      SessionVerify, ActivationOptions, ActivationVerify, Admin.Execute, Admin.CreateTenant, Admin.PatchTenant, Reseeding, Passkeys.Import, Advances;
    var c := w.config;
    match l
    case CheckPassword(th) =>
      if th in c.threads && c.threads[th].Routed? { CheckingLeavesStore(o, w, th); }
    case Decide(th, policy, pdp, event) =>
      if th in c.threads && c.threads[th].Checked? { DecidingLeavesStore(cfg, w, th, policy, pdp, event); }
    case Look(th) =>
      if th in c.threads && c.threads[th].Ruled? { LookingLeavesStore(cfg, w, th); }
  }

  lemma QuietlyKeepsSessions(cfg: Settings, o: Oracles, w: World, l: Label)
    requires Quietly(l)
    ensures Exec(cfg, o, w.config, l).0.store.auth.sessions == w.config.store.auth.sessions
  {
    if l.CheckPassword? || l.Decide? || l.Look? {
      hide Exec;
      LookingOnKeepsSessions(cfg, o, w, l);
    } else {
      RestKeepsSessions(cfg, o, w.config, l);
    }
  }

  lemma RestKeepsSessions(cfg: Settings, o: Oracles, c: Config, l: Label)
    requires Quietly(l) && !l.CheckPassword? && !l.Decide? && !l.Look?
    ensures Exec(cfg, o, c, l).0.store.auth.sessions == c.store.auth.sessions
  {
    hide Checking, Deciding, Looking, Enforcing, RouteApp, RouteConsole, VerifyOtp, WebAuthnOptions, VerifyWebAuthn, Exchange, Logout, SessionOptions,
      SessionVerify, ActivationOptions, ActivationVerify, Admin.Execute, Admin.CreateTenant, Admin.PatchTenant, Reseeding, Passkeys.Import, Advances;
    match l
    case Manage(op, call) => ManageKeepsSessions(c.store, op, call);
    case AddTenant(t, name, branding, domains, rnd) => TenantsLeaveAuth(c.store, t, name, branding, domains, rnd, Admin.TenantPatch(None, None, None));
    case EditTenant(t, p) => PatchLeavesAuth(c.store, t, p);
    case Reseed(specs, rnd) => SeedLeavesAuth(c, specs, rnd);
    case _ =>
  }

  lemma ManageKeepsSessions(s: Store, op: Admin.Operator, call: Admin.Call)
    ensures Admin.Execute(s, op, call).0.auth.sessions == s.auth.sessions
  {
    if !call.CallIssueCode? {
      hide Admin.Execute;
      AdminNoninterference.LeavesAuth(s, op, call);
    }
  }

  // ------------------------------------------------------------- the offer that lapsed

  /** The session's user has a passkey, and no options were handed out to it before that. */
  ghost predicate Lapsed(w: World, h: string, user: Id) {
    && h in w.hist.lives && HasPasskey(w.config.store.auth.credentials, user)
    && (h in w.config.store.auth.sessions ==> w.config.store.auth.sessions[h].user == user && w.config.store.auth.sessions[h].nonce.None?)
  }

  lemma RowFades(cfg: Settings, o: Oracles, w: World, l: Label, h: string)
    requires Allowed(o, w, l) && h in w.config.store.auth.sessions
    requires HasPasskey(w.config.store.auth.credentials, w.config.store.auth.sessions[h].user)
    ensures var a, b := w.config.store.auth.sessions, Exec(cfg, o, w.config, l).0.store.auth.sessions;
      h in b ==> b[h].user == a[h].user && (b[h].nonce == a[h].nonce || b[h].nonce.None?)
  {
    hide HasPasskey, NoncesFade, Checking, Deciding, Looking, Enforcing, VerifyOtp, WebAuthnOptions, VerifyWebAuthn, Exchange, RouteApp, RouteConsole,
      Logout, SessionOptions, SessionVerify, ActivationOptions, ActivationVerify, Admin.Execute, Admin.CreateTenant, Admin.PatchTenant, Importing,
      Reseeding;
    var a := w.config.store.auth.sessions;
    if Quietly(l) {
      QuietlyKeepsSessions(cfg, o, w, l);
    } else if l.Enforce? || l.StepUpOtp? || l.StepUpPasskey? {
      SigningInFades(cfg, o, w, l);
      Faded(a, Exec(cfg, o, w.config, l).0.store.auth.sessions, h);
    } else if l.EnrollOptions? {
      OptionsPassOver(o, w.config.store, l.raw, w.config.now, l.nonce, h);
    } else {
      SessionsOnlyFade(o, w.config.store, w.config.now, l);
      if l.Redeem? || l.SignOut? || l.EnrollVerify? {
        Faded(a, Exec(cfg, o, w.config, l).0.store.auth.sessions, h);
      }
    }
  }

  lemma Faded(a: map<string, Session>, b: map<string, Session>, h: string)
    requires NoncesFade(a, b) && h in a
    ensures h in b ==> b[h].user == a[h].user && (b[h].nonce == a[h].nonce || b[h].nonce.None?)
  {
  }

  lemma PasskeyStays(a: map<Id, Credential>, b: map<Id, Credential>, user: Id)
    requires HasPasskey(a, user) && PasskeysStay(a, b)
    ensures HasPasskey(b, user)
  {
  }

  lemma StepKeepsLapsed(cfg: Settings, o: Oracles, w: World, l: Label, h: string, user: Id)
    requires Allowed(o, w, l) && Lapsed(w, h, user)
    ensures Lapsed(Next(cfg, o, w, l), h, user)
  {
    hide Allowed, Exec, HasPasskey, PasskeysStay, Record, ChallengesAdvance, CodesAdvance, ActivationsAdvance;
    var c' := Exec(cfg, o, w.config, l).0;
    StepAdvances(cfg, o, w, l);
    LivesOnlyGrow(cfg, o, w, l);
    PasskeyStays(w.config.store.auth.credentials, c'.store.auth.credentials, user);
    if h in w.config.store.auth.sessions {
      RowFades(cfg, o, w, l, h);
    }
  }

  lemma {:induction false} RunKeepsLapsed(cfg: Settings, o: Oracles, w: World, ls: seq<Label>, h: string, user: Id)
    requires Run(cfg, o, w, ls) && Lapsed(w, h, user)
    ensures Lapsed(After(cfg, o, w, ls), h, user)
    decreases |ls|
  {
    hide Lapsed, Next, Allowed;
    if ls != [] {
      StepKeepsLapsed(cfg, o, w, ls[0], h, user);
      RunKeepsLapsed(cfg, o, Next(cfg, o, w, ls[0]), ls[1..], h, user);
    }
  }

  lemma LapsedEnrollsNothing(o: Oracles, w: World, raw: string, user: Id, answer: Assertion)
    requires Lapsed(w, o.hash(raw), user)
    ensures SessionVerify(o, w.config.store, Some(raw), answer, w.config.now).1.Err?
  {
  }

  /** This verification, made in this state, stores a passkey. */
  ghost predicate Stores(cfg: Settings, o: Oracles, w: World, raw: string, answer: Assertion) {
    Exec(cfg, o, w.config, EnrollVerify(Some(raw), answer)).1 == Enrolled(Ok(()))
  }

  lemma StoresIff(cfg: Settings, o: Oracles, w: World, raw: string, answer: Assertion)
    ensures Stores(cfg, o, w, raw, answer) <==> SessionVerify(o, w.config.store, Some(raw), answer, w.config.now).1.Ok?
  {
  }

  /** In some continuation the session still stores a passkey. */
  ghost predicate StillEnrolls(cfg: Settings, o: Oracles, w: World, raw: string) {
    exists ls, answer :: Run(cfg, o, w, ls) && Stores(cfg, o, After(cfg, o, w, ls), raw, answer)
  }

  /** The library accepts some answer to this nonce, for an id that is not registered. */
  ghost predicate AcceptsNew(o: Oracles, credentials: map<Id, Credential>, nonce: Bytes) {
    exists answer :: Accepts(o, credentials, nonce, answer)
  }

  predicate Accepts(o: Oracles, credentials: map<Id, Credential>, nonce: Bytes, answer: Assertion) {
    o.verifyCreate(answer, nonce).Some? && o.verifyCreate(answer, nonce).value.id !in credentials
  }

  lemma OfferedStillEnrolls(cfg: Settings, o: Oracles, w: World, raw: string, answer: Assertion)
    requires MayEnroll(w.config.store.auth.sessions, o.hash(raw), w.config.now)
    requires var row := w.config.store.auth.sessions[o.hash(raw)];
      row.nonce.Some? && Accepts(o, w.config.store.auth.credentials, row.nonce.value, answer)
    ensures StillEnrolls(cfg, o, w, raw)
  {
    hide Stores, HasPasskey, Allowed, Next;
    StoresIff(cfg, o, w, raw, answer);
    assert Run(cfg, o, w, []) && After(cfg, o, w, []) == w;
  }

  lemma LapsedNeverEnrolls(cfg: Settings, o: Oracles, w: World, raw: string, user: Id)
    requires Lapsed(w, o.hash(raw), user)
    ensures !StillEnrolls(cfg, o, w, raw)
  {
    hide Stores, Lapsed, Run, After;
    forall ls, answer | Run(cfg, o, w, ls) ensures !Stores(cfg, o, After(cfg, o, w, ls), raw, answer) {
      RunKeepsLapsed(cfg, o, w, ls, o.hash(raw), user);
      LapsedEnrollsNothing(o, After(cfg, o, w, ls), raw, user, answer);
      StoresIff(cfg, o, After(cfg, o, w, ls), raw, answer);
    }
  }

  /**
   A session marked for enrolling, inside its window, whose user has a passkey by
   now: it can still store one exactly when its options were handed out before.
   */
  lemma OfferLapsesIff(cfg: Settings, o: Oracles, w: World, raw: string)
    requires Inv(cfg, o, w) && MayEnroll(w.config.store.auth.sessions, o.hash(raw), w.config.now)
    requires HasPasskey(w.config.store.auth.credentials, w.config.store.auth.sessions[o.hash(raw)].user)
    requires var nonce := w.config.store.auth.sessions[o.hash(raw)].nonce;
      nonce.Some? ==> AcceptsNew(o, w.config.store.auth.credentials, nonce.value)
    ensures StillEnrolls(cfg, o, w, raw) <==> w.config.store.auth.sessions[o.hash(raw)].nonce.Some?
  {
    hide StillEnrolls, HasPasskey, Inv, Accepts, MayEnroll;
    var h := o.hash(raw);
    assert h in w.config.store.auth.sessions by { MarkedIsLive(w.config.store.auth.sessions, h, w.config.now); }
    var row := w.config.store.auth.sessions[h];
    if row.nonce.Some? {
      var answer :| Accepts(o, w.config.store.auth.credentials, row.nonce.value, answer);
      OfferedStillEnrolls(cfg, o, w, raw, answer);
    } else {
      MarkedIsAlive(cfg, o, w, h);
      LapsedNeverEnrolls(cfg, o, w, raw, row.user);
    }
  }

  lemma MarkedIsLive(sessions: map<string, Session>, h: string, now: Time)
    requires MayEnroll(sessions, h, now)
    ensures h in sessions
  {
  }

  lemma MarkedIsAlive(cfg: Settings, o: Oracles, w: World, h: string)
    requires Inv(cfg, o, w) && h in w.config.store.auth.sessions
    ensures h in w.hist.lives
  {
    hide OneCodeEach, UnlocksOk, DoorsOk, MarksOk;
    InvHasCodes(cfg, o, w, w.log);
  }

  /** Asking for the options then is refused, and leaves everything, the mark included, as it was. */
  lemma RefusalClosesNothing(o: Oracles, s: Store, raw: string, now: Time, nonce: Bytes)
    requires MayEnroll(s.auth.sessions, o.hash(raw), now) && HasPasskey(s.auth.credentials, s.auth.sessions[o.hash(raw)].user)
    ensures SessionOptions(o, s, Some(raw), now, nonce).1.Err? && SessionOptions(o, s, Some(raw), now, nonce).0 == s
  {
  }

  // ------------------------------------------------------------- two sessions, two passkeys

  /** An ordinary decision, and the five steps of a login it allows. */
  const USUAL := Decision("event", 0.0, LOW, ALLOW, ALLOW, [], false)

  function SignInRun(th: Id, app: Id, email: string, password: string, drawn: Fresh): seq<Label> {
    [StartApp(th, app, email, password, None), CheckPassword(th), Decide(th, None, Some(USUAL), "event"), Look(th), Machine.Enforce(th, drawn, "challenge")]
  }

  /** The user may sign in to the application with this password, and is not always asked for a passkey. */
  ghost predicate CanSignIn(d: Directory, o: Oracles, app: Id, email: string, password: string, u: Id) {
    && UniqueEmails(d.users) && RouteApp(d, app, email, password, None).Ok?
    && Verified(d, o, RouteApp(d, app, email, password, None).value, u) && !AlwaysPasskey(d, u, app)
  }

  lemma FiveSteps(cfg: Settings, o: Oracles, w: World, a: Label, b: Label, c: Label, d: Label, e: Label)
    ensures var w1 := Next(cfg, o, w, a);
      var w2 := Next(cfg, o, w1, b);
      var w3 := Next(cfg, o, w2, c);
      var w4 := Next(cfg, o, w3, d);
      var allowed := Allowed(o, w, a) && Allowed(o, w1, b) && Allowed(o, w2, c) && Allowed(o, w3, d) && Allowed(o, w4, e);
      After(cfg, o, w, [a, b, c, d, e]) == Next(cfg, o, w4, e) && (Run(cfg, o, w, [a, b, c, d, e]) <==> allowed)
  {
    hide Next, Allowed;
    var w1 := Next(cfg, o, w, a);
    var w2 := Next(cfg, o, w1, b);
    var w3 := Next(cfg, o, w2, c);
    var w4 := Next(cfg, o, w3, d);
    Onwards(cfg, o, w4, e, []);
    Onwards(cfg, o, w3, d, [e]);
    Onwards(cfg, o, w2, c, [d, e]);
    Onwards(cfg, o, w1, b, [c, d, e]);
    Onwards(cfg, o, w, a, [b, c, d, e]);
    assert [e] + [] == [e] && [d] + [e] == [d, e] && [c] + [d, e] == [c, d, e] && [b] + [c, d, e] == [b, c, d, e];
    assert [a] + [b, c, d, e] == [a, b, c, d, e];
  }

  lemma Onwards(cfg: Settings, o: Oracles, w: World, l: Label, ls: seq<Label>)
    ensures After(cfg, o, w, [l] + ls) == After(cfg, o, Next(cfg, o, w, l), ls)
    ensures Run(cfg, o, w, [l] + ls) <==> Allowed(o, w, l) && Run(cfg, o, Next(cfg, o, w, l), ls)
    ensures After(cfg, o, w, []) == w && Run(cfg, o, w, [])
  {
  }

  lemma {:induction false} RunThenRun(cfg: Settings, o: Oracles, w: World, a: seq<Label>, b: seq<Label>)
    ensures After(cfg, o, w, a + b) == After(cfg, o, After(cfg, o, w, a), b)
    ensures Run(cfg, o, w, a + b) <==> Run(cfg, o, w, a) && Run(cfg, o, After(cfg, o, w, a), b)
    decreases |a|
  {
    hide Next, Allowed;
    if a == [] {
      assert a + b == b;
    } else {
      assert a + b == [a[0]] + (a[1..] + b) && a == [a[0]] + a[1..];
      Onwards(cfg, o, w, a[0], a[1..] + b);
      Onwards(cfg, o, w, a[0], a[1..]);
      RunThenRun(cfg, o, Next(cfg, o, w, a[0]), a[1..], b);
    }
  }

  /** A step that opens no session records none. */
  lemma LivesUnmoved(cfg: Settings, o: Oracles, w: World, l: Label)
    requires l.StartApp? || l.CheckPassword? || l.Decide? || l.Look? || l.EnrollOptions?
    ensures Next(cfg, o, w, l).hist.lives == w.hist.lives
  {
    hide Exec;
  }

  lemma OneMoreLife(cfg: Settings, o: Oracles, w: World, l: Label)
    requires l.Enforce?
    ensures Next(cfg, o, w, l).hist.lives.Keys <= w.hist.lives.Keys + {o.hash(l.drawn.token)}
  {
    hide Exec;
  }

  lemma VerifiedPasses(d: Directory, o: Oracles, a: Attempt, u: Id)
    requires UniqueEmails(d.users) && Verified(d, o, a, u)
    ensures Check(d, o, a) == Passed(u, AlwaysPasskey(d, u, a.app))
  {
    hide UniqueEmails, NormaliseEmail, HasAccess, AlwaysPasskey;
    LoginFacts.EmailsAreUnique(d, a.tenant, NormaliseEmail(a.email), u, FindUser(d, a.tenant, NormaliseEmail(a.email)).value);
  }

  /** What each step of the login finds. */
  lemma StepsOfLogin(cfg: Settings, o: Oracles, c: Config, th: Id, app: Id, email: string, password: string, drawn: Fresh, u: Id)
    requires th !in c.threads && CanSignIn(c.store.dir, o, app, email, password, u) && !HasPasskey(c.store.auth.credentials, u)
    ensures var a := RouteApp(c.store.dir, app, email, password, None).value;
      var r := Ruling(ALLOW, Some(USUAL));
      var c1 := c.(threads := c.threads[th := Routed(a)]);
      var c2 := c.(threads := c.threads[th := Checked(a, u, false)]);
      var c3 := c.(threads := c.threads[th := Ruled(a, u, false, r)]);
      var c4 := c.(threads := c.threads[th := Ready(a, u, false, r, true)]);
      && Starting(c, th, Some(a), Bare(INVALID_CREDENTIALS)).0 == c1
      && Checking(o, c1, th).0 == c2
      && Deciding(cfg, c2, th, None, Some(USUAL), "event").0 == c3
      && Looking(cfg, c3, th).0 == c4
      && Enforcing(cfg, o, c4, th, drawn, "challenge").0.threads.Keys == c.threads.Keys + {th}
      && Enforcing(cfg, o, c4, th, drawn, "challenge").0.now == c.now
      && Enforcing(cfg, o, c4, th, drawn, "challenge").0.store ==
           WithSession(cfg, o, c.store, u, app, c.now, drawn, true, MatchRedirect(a.registered, None))
  {
    hide Check, Verified, HasPasskey, UniqueEmails, WithSession, MatchRedirect, NormaliseEmail, AlwaysPasskey;
    var a := RouteApp(c.store.dir, app, email, password, None).value;
    VerifiedPasses(c.store.dir, o, a, u);
    var c1 := c.(threads := c.threads[th := Routed(a)]);
    assert c1.threads[th := Checked(a, u, false)] == c.threads[th := Checked(a, u, false)];
  }

  lemma ExecOfLogin(cfg: Settings, o: Oracles, c: Config, th: Id, app: Id, email: string, password: string, drawn: Fresh)
    ensures th !in c.threads && RouteApp(c.store.dir, app, email, password, None).Ok? ==>
      Exec(cfg, o, c, StartApp(th, app, email, password, None)).0 ==
        Starting(c, th, Some(RouteApp(c.store.dir, app, email, password, None).value), Bare(INVALID_CREDENTIALS)).0
    ensures th in c.threads && c.threads[th].Routed? ==> Exec(cfg, o, c, CheckPassword(th)).0 == Checking(o, c, th).0
    ensures th in c.threads && c.threads[th].Checked? ==>
      Exec(cfg, o, c, Decide(th, None, Some(USUAL), "event")).0 == Deciding(cfg, c, th, None, Some(USUAL), "event").0
    ensures th in c.threads && c.threads[th].Ruled? ==> Exec(cfg, o, c, Look(th)).0 == Looking(cfg, c, th).0
    ensures th in c.threads && c.threads[th].Ready? ==>
      Exec(cfg, o, c, Machine.Enforce(th, drawn, "challenge")).0 == Enforcing(cfg, o, c, th, drawn, "challenge").0
  {
    hide RouteApp, Starting, Checking, Deciding, Looking, Enforcing;
  }

  /** The world just before the login is enforced. */
  lemma FourOfLogin(cfg: Settings, o: Oracles, w: World, th: Id, app: Id, email: string, password: string, drawn: Fresh, u: Id)
    requires th !in w.config.threads && CanSignIn(w.config.store.dir, o, app, email, password, u) && !HasPasskey(w.config.store.auth.credentials, u)
    ensures var a := RouteApp(w.config.store.dir, app, email, password, None).value;
      var ls := SignInRun(th, app, email, password, drawn);
      var w4 := Next(cfg, o, Next(cfg, o, Next(cfg, o, Next(cfg, o, w, ls[0]), ls[1]), ls[2]), ls[3]);
      && w4.config == w.config.(threads := w.config.threads[th := Ready(a, u, false, Ruling(ALLOW, Some(USUAL)), true)])
      && w4.hist.lives == w.hist.lives
  {
    var a := RouteApp(w.config.store.dir, app, email, password, None).value;
    var r := Ruling(ALLOW, Some(USUAL));
    var l1, l2, l3, l4 := StartApp(th, app, email, password, None), CheckPassword(th), Decide(th, None, Some(USUAL), "event"), Look(th);
    var w1 := Next(cfg, o, w, l1);
    var w2 := Next(cfg, o, w1, l2);
    var w3 := Next(cfg, o, w2, l3);
    StepsOfLogin(cfg, o, w.config, th, app, email, password, drawn, u);
    ExecOfLogin(cfg, o, w.config, th, app, email, password, drawn);
    ExecOfLogin(cfg, o, w.config.(threads := w.config.threads[th := Routed(a)]), th, app, email, password, drawn);
    ExecOfLogin(cfg, o, w.config.(threads := w.config.threads[th := Checked(a, u, false)]), th, app, email, password, drawn);
    ExecOfLogin(cfg, o, w.config.(threads := w.config.threads[th := Ruled(a, u, false, r)]), th, app, email, password, drawn);
    hide Exec, RouteApp, Starting, Checking, Deciding, Looking, Enforcing, WithSession, MatchRedirect, CanSignIn, HasPasskey, Record;
    LivesUnmoved(cfg, o, w, l1);
    LivesUnmoved(cfg, o, w1, l2);
    LivesUnmoved(cfg, o, w2, l3);
    LivesUnmoved(cfg, o, w3, l4);
  }

  /** Five steps after which the user has a session that may enroll. */
  lemma SignsInMarked(cfg: Settings, o: Oracles, w: World, th: Id, app: Id, email: string, password: string, drawn: Fresh, u: Id)
    requires th !in w.config.threads && CanSignIn(w.config.store.dir, o, app, email, password, u)
    requires !HasPasskey(w.config.store.auth.credentials, u) && Unused(o, w, drawn) && "challenge" !in w.config.store.auth.challenges
    ensures Run(cfg, o, w, SignInRun(th, app, email, password, drawn))
    ensures var w' := After(cfg, o, w, SignInRun(th, app, email, password, drawn));
      && w'.config.store == WithSession(cfg, o, w.config.store, u, app, w.config.now, drawn, true,
           MatchRedirect(RouteApp(w.config.store.dir, app, email, password, None).value.registered, None))
      && w'.config.now == w.config.now && w'.config.threads.Keys == w.config.threads.Keys + {th}
      && w'.hist.lives.Keys <= w.hist.lives.Keys + {o.hash(drawn.token)}
  {
    var a := RouteApp(w.config.store.dir, app, email, password, None).value;
    var r := Ruling(ALLOW, Some(USUAL));
    var ls := SignInRun(th, app, email, password, drawn);
    FourOfLogin(cfg, o, w, th, app, email, password, drawn, u);
    StepsOfLogin(cfg, o, w.config, th, app, email, password, drawn, u);
    ExecOfLogin(cfg, o, w.config.(threads := w.config.threads[th := Ready(a, u, false, r, true)]), th, app, email, password, drawn);
    hide Exec, RouteApp, Starting, Checking, Deciding, Looking, Enforcing, WithSession, MatchRedirect, CanSignIn, HasPasskey, Record, Run, After;
    OneMoreLife(cfg, o, Next(cfg, o, Next(cfg, o, Next(cfg, o, Next(cfg, o, w, ls[0]), ls[1]), ls[2]), ls[3]), ls[4]);
    FiveSteps(cfg, o, w, ls[0], ls[1], ls[2], ls[3], ls[4]);
  }

  /** Two live marked sessions of an enabled user who has no passkey. */
  ghost predicate TwoOffers(s: Store, g: string, h: string, u: Id, now: Time) {
    && g != h && MayEnroll(s.auth.sessions, g, now) && MayEnroll(s.auth.sessions, h, now)
    && s.auth.sessions[g].user == u && s.auth.sessions[h].user == u
    && u in s.dir.users && s.dir.users[u].enabled && !HasPasskey(s.auth.credentials, u)
  }

  function BothEnroll(x: string, y: string, m: Bytes, n: Bytes, a: Assertion, b: Assertion): seq<Label> {
    [EnrollOptions(Some(x), m), EnrollOptions(Some(y), n), EnrollVerify(Some(x), a), EnrollVerify(Some(y), b)]
  }

  lemma OptionsStep(o: Oracles, s: Store, x: string, now: Time, nonce: Bytes)
    requires var h := o.hash(x);
      MayEnroll(s.auth.sessions, h, now) && s.auth.sessions[h].user in s.dir.users && s.dir.users[s.auth.sessions[h].user].enabled
      && !HasPasskey(s.auth.credentials, s.auth.sessions[h].user)
    ensures var h := o.hash(x);
      SessionOptions(o, s, Some(x), now, nonce).0 ==
        s.(auth := s.auth.(sessions := s.auth.sessions[h := s.auth.sessions[h].(nonce := Some(nonce))]))
  {
  }

  lemma VerifyStep(o: Oracles, s: Store, x: string, now: Time, answer: Assertion)
    requires var h := o.hash(x);
      MayEnroll(s.auth.sessions, h, now) && s.auth.sessions[h].nonce.Some? && Accepts(o, s.auth.credentials, s.auth.sessions[h].nonce.value, answer)
    ensures var h := o.hash(x);
      var made := o.verifyCreate(answer, s.auth.sessions[h].nonce.value).value;
      SessionVerify(o, s, Some(x), answer, now).0 == s.(auth := s.auth.(
        credentials := s.auth.credentials[made.id := Credential(s.auth.sessions[h].user, made.publicKey, made.signCount)],
        sessions := s.auth.sessions[h := s.auth.sessions[h].(enrollUntil := None, nonce := None)]))
  {
  }

  /** The store after both have asked and both have verified. */
  lemma BothStored(o: Oracles, s: Store, x: string, y: string, m: Bytes, n: Bytes, a: Assertion, b: Assertion, u: Id, now: Time)
    requires TwoOffers(s, o.hash(x), o.hash(y), u, now)
    requires Accepts(o, s.auth.credentials, m, a) && Accepts(o, s.auth.credentials, n, b)
    requires o.verifyCreate(a, m).value.id != o.verifyCreate(b, n).value.id
    ensures var s1 := SessionOptions(o, s, Some(x), now, m).0;
      var s2 := SessionOptions(o, s1, Some(y), now, n).0;
      var s3 := SessionVerify(o, s2, Some(x), a, now).0;
      var s4 := SessionVerify(o, s3, Some(y), b, now).0;
      TwoPasskeys(s4, o.verifyCreate(a, m).value.id, o.verifyCreate(b, n).value.id, u)
  {
    hide SessionOptions, SessionVerify, HasPasskey;
    OptionsStep(o, s, x, now, m);
    var s1 := SessionOptions(o, s, Some(x), now, m).0;
    OptionsStep(o, s1, y, now, n);
    var s2 := SessionOptions(o, s1, Some(y), now, n).0;
    VerifyStep(o, s2, x, now, a);
    var s3 := SessionVerify(o, s2, Some(x), a, now).0;
    VerifyStep(o, s3, y, now, b);
  }

  ghost predicate TwoPasskeys(s: Store, i: Id, j: Id, u: Id) {
    && i != j && i in s.auth.credentials && j in s.auth.credentials
    && s.auth.credentials[i].user == u && s.auth.credentials[j].user == u
  }

  lemma BothEnrollRuns(cfg: Settings, o: Oracles, w: World, x: string, y: string, m: Bytes, n: Bytes, a: Assertion, b: Assertion)
    ensures Run(cfg, o, w, BothEnroll(x, y, m, n, a, b))
    ensures var now := w.config.now;
      var s1 := SessionOptions(o, w.config.store, Some(x), now, m).0;
      var s2 := SessionOptions(o, s1, Some(y), now, n).0;
      var s3 := SessionVerify(o, s2, Some(x), a, now).0;
      After(cfg, o, w, BothEnroll(x, y, m, n, a, b)).config.store == SessionVerify(o, s3, Some(y), b, now).0
  {
    hide SessionOptions, SessionVerify, Record, Exec;
    var l1, l2, l3, l4 := EnrollOptions(Some(x), m), EnrollOptions(Some(y), n), EnrollVerify(Some(x), a), EnrollVerify(Some(y), b);
    var w1 := Next(cfg, o, w, l1);
    var w2 := Next(cfg, o, w1, l2);
    var w3 := Next(cfg, o, w2, l3);
    ExecOfEnroll(cfg, o, w.config, x, m, a);
    ExecOfEnroll(cfg, o, w1.config, y, n, b);
    ExecOfEnroll(cfg, o, w2.config, x, m, a);
    ExecOfEnroll(cfg, o, w3.config, y, n, b);
    assert BothEnroll(x, y, m, n, a, b) == [l1] + ([l2] + ([l3] + ([l4] + [])));
    hide Next, Run, After;
    Onwards(cfg, o, w3, l4, []);
    Onwards(cfg, o, Next(cfg, o, w3, l4), l4, []);
    Onwards(cfg, o, w2, l3, [l4] + []);
    Onwards(cfg, o, w1, l2, [l3] + ([l4] + []));
    Onwards(cfg, o, w, l1, [l2] + ([l3] + ([l4] + [])));
  }

  lemma ExecOfEnroll(cfg: Settings, o: Oracles, c: Config, raw: string, nonce: Bytes, answer: Assertion)
    ensures Exec(cfg, o, c, EnrollOptions(Some(raw), nonce)).0 == c.(store := SessionOptions(o, c.store, Some(raw), c.now, nonce).0)
    ensures Exec(cfg, o, c, EnrollVerify(Some(raw), answer)).0 == c.(store := SessionVerify(o, c.store, Some(raw), answer, c.now).0)
  {
    hide SessionOptions, SessionVerify;
  }

  lemma StillCanSignIn(cfg: Settings, o: Oracles, s: Store, app: Id, email: string, password: string, u: Id, now: Time, drawn: Fresh, target: Option<string>)
    requires CanSignIn(s.dir, o, app, email, password, u)
    ensures var s' := WithSession(cfg, o, s, u, app, now, drawn, true, target);
      && CanSignIn(s'.dir, o, app, email, password, u)
      && RouteApp(s'.dir, app, email, password, None) == RouteApp(s.dir, app, email, password, None)
      && s'.auth.credentials == s.auth.credentials && s'.auth.challenges == s.auth.challenges
  {
    hide NormaliseEmail;
    assert RolesOf(SignedIn(s.dir, u, now), u, app) == RolesOf(s.dir, u, app);
  }

  lemma TwoSessionsOffer(cfg: Settings, o: Oracles, s: Store, app: Id, email: string, password: string, u: Id, now: Time, x: Fresh, y: Fresh,
    target: Option<string>)
    requires CanSignIn(s.dir, o, app, email, password, u) && !HasPasskey(s.auth.credentials, u)
    requires cfg.sessionTtl > 0 && cfg.enrollWindow > 0 && o.hash(x.token) != o.hash(y.token)
    ensures TwoOffers(WithSession(cfg, o, WithSession(cfg, o, s, u, app, now, x, true, target), u, app, now, y, true, target),
      o.hash(x.token), o.hash(y.token), u, now)
  {
    hide NormaliseEmail, HasPasskey, HasAccess, PasswordOk, UniqueEmails;
  }

  /** Nothing is in use at the start, and then only what the first login drew. */
  lemma SecondIsUnused(cfg: Settings, o: Oracles, w: World, w1: World, app: Id, u: Id, x: Fresh, y: Fresh, target: Option<string>)
    requires Initial(w) && o.hash(x.token) != o.hash(y.token) && o.hash(x.code) != o.hash(y.code)
    requires w1.config.store == WithSession(cfg, o, w.config.store, u, app, w.config.now, x, true, target)
    requires w1.hist.lives.Keys <= w.hist.lives.Keys + {o.hash(x.token)}
    ensures Unused(o, w1, y) && "challenge" !in w1.config.store.auth.challenges
  {
    OnlyItsOwn(cfg, o, w.config.store, app, u, w.config.now, x, target);
  }

  lemma NothingInUse(o: Oracles, w: World, x: Fresh)
    requires Initial(w)
    ensures Unused(o, w, x) && "challenge" !in w.config.store.auth.challenges && w.config.threads.Keys == {}
  {
  }

  /** After these two runs there are two offers and no new passkey. */
  ghost predicate LeavesOffers(cfg: Settings, o: Oracles, w: World, first: seq<Label>, second: seq<Label>, g: string, h: string, u: Id) {
    var w1 := After(cfg, o, w, first);
    var w2 := After(cfg, o, w1, second);
    && Run(cfg, o, w, first) && Run(cfg, o, w1, second)
    && TwoOffers(w2.config.store, g, h, u, w2.config.now) && w2.config.store.auth.credentials == w.config.store.auth.credentials
  }

  /** Two logins with nobody between leave their user two sessions that may enroll. */
  lemma TwoLogins(cfg: Settings, o: Oracles, w: World, app: Id, email: string, password: string, u: Id, x: Fresh, y: Fresh)
    requires Initial(w) && CanSignIn(w.config.store.dir, o, app, email, password, u) && !HasPasskey(w.config.store.auth.credentials, u)
    requires cfg.sessionTtl > 0 && cfg.enrollWindow > 0 && o.hash(x.token) != o.hash(y.token) && o.hash(x.code) != o.hash(y.code)
    ensures LeavesOffers(cfg, o, w, SignInRun("1", app, email, password, x), SignInRun("2", app, email, password, y), o.hash(x.token), o.hash(y.token), u)
  {
    hide HasPasskey, WithSession, MatchRedirect, RouteApp, Run, After, SignInRun, TwoOffers, Initial, Unused;
    var target := MatchRedirect(RouteApp(w.config.store.dir, app, email, password, None).value.registered, None);
    hide CanSignIn;
    var w1 := After(cfg, o, w, SignInRun("1", app, email, password, x));
    NothingInUse(o, w, x);
    SignsInMarked(cfg, o, w, "1", app, email, password, x, u);
    StillCanSignIn(cfg, o, w.config.store, app, email, password, u, w.config.now, x, target);
    SecondIsUnused(cfg, o, w, w1, app, u, x, y, target);
    SignsInMarked(cfg, o, w1, "2", app, email, password, y, u);
    TwoSessionsOffer(cfg, o, w.config.store, app, email, password, u, w.config.now, x, y, target);
    StillCanSignIn(cfg, o, w1.config.store, app, email, password, u, w.config.now, y, target);
  }

  /**
   From any start in which someone without a passkey may sign in: two logins, two
   requests for options, two answers the library accepts, and they have two passkeys.
   */
  lemma TwoSessionsStoreTwoPasskeys(cfg: Settings, o: Oracles, w: World, app: Id, email: string, password: string, u: Id, x: Fresh, y: Fresh,
    m: Bytes, n: Bytes, a: Assertion, b: Assertion)
    requires Initial(w) && CanSignIn(w.config.store.dir, o, app, email, password, u) && !HasPasskey(w.config.store.auth.credentials, u)
    requires cfg.sessionTtl > 0 && cfg.enrollWindow > 0 && o.hash(x.token) != o.hash(y.token) && o.hash(x.code) != o.hash(y.code)
    requires Accepts(o, w.config.store.auth.credentials, m, a) && Accepts(o, w.config.store.auth.credentials, n, b)
    requires o.verifyCreate(a, m).value.id != o.verifyCreate(b, n).value.id
    ensures var ls := SignInRun("1", app, email, password, x) + SignInRun("2", app, email, password, y) + BothEnroll(x.token, y.token, m, n, a, b);
      Run(cfg, o, w, ls) && TwoPasskeys(After(cfg, o, w, ls).config.store, o.verifyCreate(a, m).value.id, o.verifyCreate(b, n).value.id, u)
  {
    hide CanSignIn, HasPasskey, RouteApp, Run, After, SignInRun, BothEnroll, Accepts, TwoOffers, TwoPasskeys, Initial;
    var first, second, third := SignInRun("1", app, email, password, x), SignInRun("2", app, email, password, y),
      BothEnroll(x.token, y.token, m, n, a, b);
    var w2 := After(cfg, o, After(cfg, o, w, first), second);
    TwoLogins(cfg, o, w, app, email, password, u, x, y);
    BothStored(o, w2.config.store, x.token, y.token, m, n, a, b, u, w2.config.now);
    BothEnrollRuns(cfg, o, w2, x.token, y.token, m, n, a, b);
    RunThenRun(cfg, o, w, first + second, third);
    RunThenRun(cfg, o, w, first, second);
  }

  lemma OnlyItsOwn(cfg: Settings, o: Oracles, s: Store, app: Id, u: Id, now: Time, drawn: Fresh, target: Option<string>)
    ensures var s' := WithSession(cfg, o, s, u, app, now, drawn, true, target);
      && s'.auth.sessions.Keys == s.auth.sessions.Keys + {o.hash(drawn.token)}
      && s'.auth.codes.Keys <= s.auth.codes.Keys + {o.hash(drawn.code)}
  {
  }
}
