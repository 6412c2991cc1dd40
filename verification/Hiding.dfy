/**
 The browser does not see the decision.

 Two runs in which the risk engine's decisions may differ in score, level, signals
 and reasons, and in which step-up verdict they name, but agree on what is listed in
 `Alike`, give the browser the same answers: at login, and later when the challenge
 that kept the decision is completed. The relation is kept by every step.
 */
module Hiding {
  import opened Wrappers
  import opened Models
  import opened Authz
  import opened Login
  import opened Enrollment
  import opened Machine
  import MachineSteps
  import Admin
  import AdminNoninterference
  import Seed

  /** All the browser could tell apart. */
  predicate Alike(a: Decision, b: Decision) {
    && a.event == b.event && a.enforced == b.enforced && a.fallback == b.fallback
    && (a.verdict == ALLOW <==> b.verdict == ALLOW) && PublicReasons(a.reasons) == PublicReasons(b.reasons)
  }

  predicate BothAlike(a: Option<Decision>, b: Option<Decision>) {
    (a.None? && b.None?) || (a.Some? && b.Some? && Alike(a.value, b.value))
  }

  predicate SameRuling(a: Ruling, b: Ruling) { a.action == b.action && BothAlike(a.decision, b.decision) }

  predicate SameRisk(a: Risk, b: Risk) {
    a.event == b.event && a.action == b.action && PublicReasons(a.reasons) == PublicReasons(b.reasons)
  }

  predicate SameChallenge(a: Challenge, b: Challenge) { b == a.(risk := b.risk) && SameRisk(a.risk, b.risk) }

  ghost predicate SameChallenges(a: map<Id, Challenge>, b: map<Id, Challenge>) {
    a.Keys == b.Keys && forall c :: c in a ==> c in b && SameChallenge(a[c], b[c])
  }

  predicate SameThread(a: Thread, b: Thread) {
    match a
    case Routed(_) => b == a
    case Checked(_, _, _) => b == a
    case Ruled(at, u, al, r) => b.Ruled? && b == Ruled(at, u, al, b.ruling) && SameRuling(r, b.ruling)
    case Ready(at, u, al, r, flag) => b.Ready? && b == Ready(at, u, al, b.ruling, flag) && SameRuling(r, b.ruling)
    case Done(x) => b.Done? && Public(x) == Public(b.answer)
  }

  ghost predicate SameThreads(a: map<Id, Thread>, b: map<Id, Thread>) {
    a.Keys == b.Keys && forall th :: th in a ==> th in b && SameThread(a[th], b[th])
  }

  ghost predicate SameStore(a: Store, b: Store) {
    b == MachineSteps.Remembering(a, b.auth.challenges) && SameChallenges(a.auth.challenges, b.auth.challenges)
  }

  ghost predicate Indistinct(a: Config, b: Config) {
    a.now == b.now && SameStore(a.store, b.store) && SameThreads(a.threads, b.threads)
  }

  ghost predicate SameLabel(a: Label, b: Label) {
    a == b || (a.Decide? && b.Decide? && b == a.(pdp := b.pdp) && BothAlike(a.pdp, b.pdp))
  }

  /** What the browser receives of a reply. */
  function Shown(r: Reply): Reply {
    match r
    case Said(answer) => Said(Public(answer))
    case StepUp(Ok(answer)) => StepUp(Ok(Public(answer)))
    case _ => r
  }

  ghost predicate Hides(cfg: Settings, o: Oracles, a: Config, b: Config, la: Label, lb: Label) {
    && Indistinct(Exec(cfg, o, a, la).0, Exec(cfg, o, b, lb).0)
    && Shown(Exec(cfg, o, a, la).1) == Shown(Exec(cfg, o, b, lb).1)
  }

  // ------------------------------------------------------------- one login

  lemma MovesAlike(a: Config, b: Config, th: Id, x: Thread, y: Thread)
    requires Indistinct(a, b) && SameThread(x, y)
    ensures Indistinct(Move(a, th, x).0, Move(b, th, y).0) && Shown(Move(a, th, x).1) == Shown(Move(b, th, y).1)
  {
  }

  lemma RuleAlike(cfg: Settings, policy: Option<Policy>, p: Option<Decision>, q: Option<Decision>, event: Id, always: bool, user: Id)
    requires BothAlike(p, q)
    ensures var r, t := Rule(cfg, policy, p, event, always), Rule(cfg, policy, q, event, always);
      SameRuling(r, t) && Public(Login.Ruled(user, r)) == Public(Login.Ruled(user, t))
  {
  }

  lemma CheckingAlike(o: Oracles, a: Config, b: Config, th: Id)
    requires Indistinct(a, b) && th in a.threads && a.threads[th].Routed?
    ensures th in b.threads && b.threads[th].Routed?
    ensures Indistinct(Checking(o, a, th).0, Checking(o, b, th).0) && Shown(Checking(o, a, th).1) == Shown(Checking(o, b, th).1)
  {
    hide Indistinct, Check, Move;
    SameParts(a, b, th);
    var t := a.threads[th].attempt;
    match Check(a.store.dir, o, t)
    case Refused(answer) => MovesAlike(a, b, th, Done(answer), Done(answer));
    case WrongPassword(_) => MovesAlike(a, b, th, Done(Bare(INVALID_CREDENTIALS)), Done(Bare(INVALID_CREDENTIALS)));
    case Passed(user, always) => MovesAlike(a, b, th, Checked(t, user, always), Checked(t, user, always));
  }

  lemma SameParts(a: Config, b: Config, th: Id)
    requires Indistinct(a, b)
    ensures a.store.dir == b.store.dir && a.store.auth.credentials == b.store.auth.credentials && a.now == b.now
    ensures th in a.threads <==> th in b.threads
    ensures th in a.threads ==> SameThread(a.threads[th], b.threads[th])
  {
  }

  lemma DecidingAlike(cfg: Settings, a: Config, b: Config, th: Id, policy: Option<Policy>, p: Option<Decision>, q: Option<Decision>, event: Id)
    requires Indistinct(a, b) && th in a.threads && a.threads[th].Checked? && BothAlike(p, q)
    ensures th in b.threads && b.threads[th].Checked?
    ensures var x, y := Deciding(cfg, a, th, policy, p, event), Deciding(cfg, b, th, policy, q, event);
      Indistinct(x.0, y.0) && Shown(x.1) == Shown(y.1)
  {
    hide Indistinct, Rule, Move, Public, Login.Ruled, BothAlike;
    SameParts(a, b, th);
    var t := a.threads[th];
    RuleAlike(cfg, policy, p, q, event, t.always, t.user);
    var r, s := Rule(cfg, policy, p, event, t.always), Rule(cfg, policy, q, event, t.always);
    if r.action == BLOCK {
      MovesAlike(a, b, th, Done(Login.Ruled(t.user, r)), Done(Login.Ruled(t.user, s)));
    } else {
      MovesAlike(a, b, th, Ruled(t.attempt, t.user, t.always, r), Ruled(t.attempt, t.user, t.always, s));
    }
  }

  lemma LookingAlike(cfg: Settings, a: Config, b: Config, th: Id)
    requires Indistinct(a, b) && th in a.threads && a.threads[th].Ruled?
    ensures th in b.threads && b.threads[th].Ruled?
    ensures Indistinct(Looking(cfg, a, th).0, Looking(cfg, b, th).0) && Shown(Looking(cfg, a, th).1) == Shown(Looking(cfg, b, th).1)
  {
  }

  lemma IssueAlike(cfg: Settings, o: Oracles, s: Store, t: Store, user: Id, a: Attempt, p: Ruling, q: Ruling, offer: bool, now: Time, drawn: Fresh)
    requires SameStore(s, t) && SameRuling(p, q)
    ensures var x, y := Issue(cfg, o, s, user, a, p, offer, now, drawn), Issue(cfg, o, t, user, a, q, offer, now, drawn);
      SameStore(x.0, y.0) && Public(x.1) == Public(y.1)
  {
  }

  lemma OpenAlike(cfg: Settings, s: Store, t: Store, user: Id, app: Id, p: Ruling, q: Ruling, has: bool, now: Time, cid: Id)
    requires SameStore(s, t) && SameRuling(p, q)
    ensures var x, y := OpenStepUp(cfg, s, user, app, p, has, now, cid), OpenStepUp(cfg, t, user, app, q, has, now, cid);
      SameStore(x.0, y.0) && Public(x.1) == Public(y.1)
  {
  }

  lemma EnforcingAlike(cfg: Settings, o: Oracles, a: Config, b: Config, th: Id, drawn: Fresh, cid: Id)
    requires Indistinct(a, b) && th in a.threads && a.threads[th].Ready?
    ensures th in b.threads && b.threads[th].Ready?
    ensures var x, y := Enforcing(cfg, o, a, th, drawn, cid), Enforcing(cfg, o, b, th, drawn, cid);
      Indistinct(x.0, y.0) && Shown(x.1) == Shown(y.1)
  {
    hide SameStore, Public, Issue, OpenStepUp, Move, BothAlike;
    SameParts(a, b, th);
    var t, u := a.threads[th], b.threads[th];
    var s1, s2: Store, x1, x2: LoginResponse;
    if t.ruling.action == ALLOW {
      IssueAlike(cfg, o, a.store, b.store, t.user, t.attempt, t.ruling, u.ruling, t.flag, a.now, drawn);
      s1, x1 := Issue(cfg, o, a.store, t.user, t.attempt, t.ruling, t.flag, a.now, drawn).0, Issue(cfg, o, a.store, t.user, t.attempt, t.ruling, t.flag, a.now, drawn).1;
      s2, x2 := Issue(cfg, o, b.store, u.user, u.attempt, u.ruling, u.flag, b.now, drawn).0, Issue(cfg, o, b.store, u.user, u.attempt, u.ruling, u.flag, b.now, drawn).1;
    } else {
      OpenAlike(cfg, a.store, b.store, t.user, t.attempt.app, t.ruling, u.ruling, t.flag, a.now, cid);
      s1, x1 := OpenStepUp(cfg, a.store, t.user, t.attempt.app, t.ruling, t.flag, a.now, cid).0, OpenStepUp(cfg, a.store, t.user, t.attempt.app, t.ruling, t.flag, a.now, cid).1;
      s2, x2 := OpenStepUp(cfg, b.store, u.user, u.attempt.app, u.ruling, u.flag, b.now, cid).0, OpenStepUp(cfg, b.store, u.user, u.attempt.app, u.ruling, u.flag, b.now, cid).1;
    }
    assert Indistinct(a.(store := s1), b.(store := s2));
    MovesAlike(a.(store := s1), b.(store := s2), th, Done(x1), Done(x2));
  }

  // ------------------------------------------------------------- completing a step-up

  lemma ChallengeParts(s: Store, t: Store, cid: Id, now: Time)
    requires SameStore(s, t)
    ensures Open(s.auth.challenges, cid, now) <==> Open(t.auth.challenges, cid, now)
    ensures cid in s.auth.challenges <==> cid in t.auth.challenges
    ensures cid in s.auth.challenges ==> SameChallenge(s.auth.challenges[cid], t.auth.challenges[cid])
    ensures s.dir == t.dir && s.auth.credentials == t.auth.credentials
  {
  }

  lemma PutChallengeAlike(s: Store, t: Store, cid: Id, x: Challenge, y: Challenge)
    requires SameStore(s, t) && SameChallenge(x, y)
    ensures SameStore(MachineSteps.Remembering(s, s.auth.challenges[cid := x]), MachineSteps.Remembering(t, t.auth.challenges[cid := y]))
  {
  }

  lemma SessionAlike(cfg: Settings, o: Oracles, s: Store, t: Store, user: Id, app: Id, now: Time, drawn: Fresh, target: Option<string>)
    requires SameStore(s, t)
    ensures SameStore(WithSession(cfg, o, s, user, app, now, drawn, false, target), WithSession(cfg, o, t, user, app, now, drawn, false, target))
  {
  }

  lemma FinishAlike(cfg: Settings, o: Oracles, s: Store, t: Store, cid: Id, now: Time, requested: Option<string>, drawn: Fresh)
    requires SameStore(s, t) && cid in s.auth.challenges
    ensures cid in t.auth.challenges
    ensures var x, y := Finish(cfg, o, s, cid, now, requested, drawn), Finish(cfg, o, t, cid, now, requested, drawn);
      SameStore(x.0, y.0) && Public(x.1) == Public(y.1)
  {
    hide SameStore, HasAccess, MatchRedirect, WithSession;
    ChallengeParts(s, t, cid, now);
    var c, d := s.auth.challenges[cid], t.auth.challenges[cid];
    if HasAccess(s.dir, c.user, c.app) {
      var target := MatchRedirect(if c.app in s.dir.apps then s.dir.apps[c.app].redirectUri else None, requested);
      PutChallengeAlike(s, t, cid, c.(consumedAt := Some(now)), d.(consumedAt := Some(now)));
      SessionAlike(cfg, o, MachineSteps.Remembering(s, s.auth.challenges[cid := c.(consumedAt := Some(now))]),
        MachineSteps.Remembering(t, t.auth.challenges[cid := d.(consumedAt := Some(now))]), c.user, c.app, now, drawn, target);
    }
  }

  lemma OtpAlike(cfg: Settings, o: Oracles, s: Store, t: Store, cid: Id, otp: string, now: Time, requested: Option<string>, drawn: Fresh)
    requires SameStore(s, t)
    ensures var x, y := VerifyOtp(cfg, o, s, cid, otp, now, requested, drawn), VerifyOtp(cfg, o, t, cid, otp, now, requested, drawn);
      SameStore(x.0, y.0) && Shown(StepUp(x.1)) == Shown(StepUp(y.1))
  {
    hide SameStore, Finish, Public;
    ChallengeParts(s, t, cid, now);
    if Open(s.auth.challenges, cid, now) {
      FinishAlike(cfg, o, s, t, cid, now, requested, drawn);
    }
  }

  lemma CountedAlike(s: Store, t: Store, k: Id, n: int)
    requires SameStore(s, t) && k in s.auth.credentials
    ensures k in t.auth.credentials && SameStore(Counted(s, k, n), Counted(t, k, n))
    ensures Counted(s, k, n).auth.challenges == s.auth.challenges
  {
  }

  lemma PasskeyAlike(cfg: Settings, o: Oracles, s: Store, t: Store, cid: Id, answer: Assertion, now: Time, requested: Option<string>, drawn: Fresh)
    requires SameStore(s, t)
    ensures var x, y := VerifyWebAuthn(cfg, o, s, cid, answer, now, requested, drawn), VerifyWebAuthn(cfg, o, t, cid, answer, now, requested, drawn);
      SameStore(x.0, y.0) && Shown(StepUp(x.1)) == Shown(StepUp(y.1))
  {
    hide SameStore, Finish, Public, Counted;
    ChallengeParts(s, t, cid, now);
    if Open(s.auth.challenges, cid, now) {
      var c := s.auth.challenges[cid];
      if c.nonce.Some? && c.nonce.value != [] && c.ceremony && Assert(o, s, c, answer).Some? {
        var n := Assert(o, s, c, answer).value;
        CountedAlike(s, t, answer.id.value, n);
        FinishAlike(cfg, o, Counted(s, answer.id.value, n), Counted(t, answer.id.value, n), cid, now, requested, drawn);
      }
    }
  }

  lemma OptionsAlike(s: Store, t: Store, cid: Id, now: Time, nonce: Bytes)
    requires SameStore(s, t)
    ensures var x, y := WebAuthnOptions(s, cid, now, nonce), WebAuthnOptions(t, cid, now, nonce); SameStore(x.0, y.0) && x.1 == y.1
  {
  }

  // ------------------------------------------------------------- what never reads a challenge

  lemma SessionsIgnoreChallenges(o: Oracles, s: Store, ch: map<Id, Challenge>, raw: Option<string>, code: string, now: Time, drawn: Fresh, nonce: Bytes, answer: Assertion)
    ensures Exchange(o, MachineSteps.Remembering(s, ch), code, now, drawn) ==
      (MachineSteps.Remembering(Exchange(o, s, code, now, drawn).0, ch), Exchange(o, s, code, now, drawn).1)
    ensures Logout(o, MachineSteps.Remembering(s, ch), raw) == MachineSteps.Remembering(Logout(o, s, raw), ch)
    ensures SessionOptions(o, MachineSteps.Remembering(s, ch), raw, now, nonce) ==
      (MachineSteps.Remembering(SessionOptions(o, s, raw, now, nonce).0, ch), SessionOptions(o, s, raw, now, nonce).1)
    ensures SessionVerify(o, MachineSteps.Remembering(s, ch), raw, answer, now) ==
      (MachineSteps.Remembering(SessionVerify(o, s, raw, answer, now).0, ch), SessionVerify(o, s, raw, answer, now).1)
  {
    hide HasPasskey, View, WithCredential;
  }

  lemma CodesIgnoreChallenges(o: Oracles, s: Store, ch: map<Id, Challenge>, code: string, password: string, now: Time, nonce: Bytes, answer: Assertion)
    ensures ActivationOptions(o, MachineSteps.Remembering(s, ch), code, password, now, nonce) ==
      (MachineSteps.Remembering(ActivationOptions(o, s, code, password, now, nonce).0, ch), ActivationOptions(o, s, code, password, now, nonce).1)
    ensures ActivationVerify(o, MachineSteps.Remembering(s, ch), code, answer, now) ==
      (MachineSteps.Remembering(ActivationVerify(o, s, code, answer, now).0, ch), ActivationVerify(o, s, code, answer, now).1)
  {
  }

  ghost predicate Ignores(s: Store, ch: map<Id, Challenge>, op: Admin.Operator, c: Admin.Call) {
    Admin.Execute(MachineSteps.Remembering(s, ch), op, c) == (MachineSteps.Remembering(Admin.Execute(s, op, c).0, ch), Admin.Execute(s, op, c).1)
  }

  lemma UserCallsIgnore(s: Store, ch: map<Id, Challenge>, op: Admin.Operator, c: Admin.Call)
    requires c.CallListUsers? || c.CallCreateUser? || c.CallPatchUser? || c.CallIssueCode?
    ensures Ignores(s, ch, op, c)
  {
    hide NormaliseEmail, Admin.SyncAdminFlag, Admin.GroupRefs, Admin.PasskeysOf, Seed.EmailTaken, Admin.IssuedCode;
    if c.CallListUsers? {
      assert Admin.ListUsers(MachineSteps.Remembering(s, ch), op).value.users == Admin.ListUsers(s, op).value.users;
    }
  }

  lemma AppCallsIgnore(s: Store, ch: map<Id, Challenge>, op: Admin.Operator, c: Admin.Call)
    requires c.CallListApps? || c.CallCreateApp? || c.CallPatchApp? || c.CallListPermissions? || c.CallCreatePermission? || c.CallCurrentTenant?
    ensures Ignores(s, ch, op, c)
  {
    hide Seed.ClientIdTaken, Seed.PermissionId, Seed.ScopeTaken, Admin.PublicTenant;
  }

  lemma GroupCallsIgnore(s: Store, ch: map<Id, Challenge>, op: Admin.Operator, c: Admin.Call)
    requires c.CallListGroups? || c.CallGetGroup? || c.CallCreateGroup? || c.CallPatchGroup? || c.CallDeleteGroup? || c.CallAddMember?
      || c.CallRemoveMember? || c.CallAddGroupRole? || c.CallRemoveGroupRole?
    ensures Ignores(s, ch, op, c)
  {
    hide Admin.DetailedGroup, Admin.PublicGroup, Seed.GroupNameTaken, Admin.OtherGroupNamed, Admin.WithoutGroup;
  }

  lemma RoleCallsIgnore(s: Store, ch: map<Id, Challenge>, op: Admin.Operator, c: Admin.Call)
    requires c.CallListRoles? || c.CallGetRole? || c.CallCreateRole? || c.CallPatchRole? || c.CallDeleteRole? || c.CallSetPermissions?
    ensures Ignores(s, ch, op, c)
  {
    hide Admin.DetailedRole, Admin.PublicRole, Seed.RoleNameTaken, Admin.OtherRoleNamed, Admin.WithoutRole, WithRolePermissions;
  }

  lemma ManageIgnoresChallenges(s: Store, ch: map<Id, Challenge>, op: Admin.Operator, c: Admin.Call)
    ensures Ignores(s, ch, op, c)
  {
    hide Ignores;
    if c.CallListUsers? || c.CallCreateUser? || c.CallPatchUser? || c.CallIssueCode? {
      UserCallsIgnore(s, ch, op, c);
    } else if c.CallListApps? || c.CallCreateApp? || c.CallPatchApp? || c.CallListPermissions? || c.CallCreatePermission? || c.CallCurrentTenant? {
      AppCallsIgnore(s, ch, op, c);
    } else if c.CallListRoles? || c.CallGetRole? || c.CallCreateRole? || c.CallPatchRole? || c.CallDeleteRole? || c.CallSetPermissions? {
      RoleCallsIgnore(s, ch, op, c);
    } else {
      GroupCallsIgnore(s, ch, op, c);
    }
  }

  lemma TenantsIgnoreChallenges(s: Store, ch: map<Id, Challenge>, t: Id, name: string, branding: Branding, domains: seq<string>,
    rnd: Seed.Randoms, p: Admin.TenantPatch)
    ensures Admin.CreateTenant(MachineSteps.Remembering(s, ch), t, name, branding, domains, rnd) ==
      (MachineSteps.Remembering(Admin.CreateTenant(s, t, name, branding, domains, rnd).0, ch), Admin.CreateTenant(s, t, name, branding, domains, rnd).1)
    ensures Admin.PatchTenant(MachineSteps.Remembering(s, ch), t, p) == (MachineSteps.Remembering(Admin.PatchTenant(s, t, p).0, ch), Admin.PatchTenant(s, t, p).1)
  {
    hide Seed.Run, Seed.BootstrapConsole, Admin.ReplacedDomains, Admin.PublicTenant, Admin.Repeats, Admin.DomainOwnedElsewhere;
  }

  // ------------------------------------------------------------- every step, every run

  lemma Untouched(a: Config, b: Config, s: Store, now: Time)
    requires Indistinct(a, b) && s.auth.challenges == a.store.auth.challenges
    ensures Indistinct(a.(store := s, now := now), b.(store := MachineSteps.Remembering(s, b.store.auth.challenges), now := now))
  {
  }

  lemma Stores(a: Config, b: Config)
    requires Indistinct(a, b)
    ensures SameStore(a.store, b.store) && b.store == MachineSteps.Remembering(a.store, b.store.auth.challenges) && a.now == b.now
    ensures a.threads.Keys == b.threads.Keys
  {
  }

  lemma StoresBack(a: Config, b: Config, s: Store, t: Store)
    requires Indistinct(a, b) && SameStore(s, t)
    ensures Indistinct(a.(store := s), b.(store := t))
  {
  }

  lemma StartAlike(a: Config, b: Config, l: Label)
    requires Indistinct(a, b) && (l.Tick? || l.StartApp? || l.StartConsole? || l.ImportKeys? || l.Reseed?)
    ensures forall cfg: Settings, o: Oracles :: Hides(cfg, o, a, b, l, l)
  {
    hide Indistinct, Seed.SeedIdentity, RouteApp, RouteConsole, Move, Checking, Deciding, Looking, Enforcing, VerifyOtp, WebAuthnOptions, VerifyWebAuthn, Exchange,
      Logout, SessionOptions, SessionVerify, ActivationOptions, ActivationVerify, Admin.Execute, Admin.CreateTenant, Admin.PatchTenant;
    Stores(a, b);
    match l
    case Tick(n) => Untouched(a, b, a.store, a.now + n);
    case ImportKeys(items) => Untouched(a, b, Importing(a, items), a.now);
    case Reseed(specs, rnd) => Untouched(a, b, Reseeding(a, specs, rnd), a.now);
    case StartApp(th, app, email, password, requested) =>
      if RouteApp(a.store.dir, app, email, password, requested).Ok? {
        var t := Routed(RouteApp(a.store.dir, app, email, password, requested).value);
        MovesAlike(a, b, th, t, t);
      }
    case StartConsole(th, email, password) =>
      var at := RouteConsole(a.store.dir, email, password);
      var t := if at.Some? then Routed(at.value) else Done(Bare(INVALID_CREDENTIALS));
      MovesAlike(a, b, th, t, t);
  }

  lemma LoginAlike(cfg: Settings, o: Oracles, a: Config, b: Config, la: Label, lb: Label)
    requires Indistinct(a, b) && SameLabel(la, lb)
    requires la.CheckPassword? || la.Decide? || la.Look? || la.Enforce?
    ensures Hides(cfg, o, a, b, la, lb)
  {
    hide Indistinct, Checking, Deciding, Looking, Enforcing, VerifyOtp, WebAuthnOptions, VerifyWebAuthn, Exchange, RouteApp, RouteConsole,
      Logout, SessionOptions, SessionVerify, ActivationOptions, ActivationVerify, Admin.Execute, Admin.CreateTenant, Admin.PatchTenant;
    SameParts(a, b, la.thread);
    if la.thread in a.threads {
      if la.CheckPassword? && a.threads[la.thread].Routed? {
        CheckingAlike(o, a, b, la.thread);
      } else if la.Decide? && a.threads[la.thread].Checked? {
        if la.pdp == lb.pdp { AlikeRefl(la.pdp); }
        DecidingAlike(cfg, a, b, la.thread, la.policy, la.pdp, lb.pdp, la.event);
      } else if la.Look? && a.threads[la.thread].Ruled? {
        LookingAlike(cfg, a, b, la.thread);
      } else if la.Enforce? && a.threads[la.thread].Ready? {
        EnforcingAlike(cfg, o, a, b, la.thread, la.drawn, la.challenge);
      }
    }
  }

  lemma AlikeRefl(d: Option<Decision>)
    ensures BothAlike(d, d)
  {
  }

  lemma StepUpAlike(cfg: Settings, o: Oracles, a: Config, b: Config, l: Label)
    requires Indistinct(a, b) && (l.StepUpOtp? || l.StepUpOptions? || l.StepUpPasskey?)
    ensures Hides(cfg, o, a, b, l, l)
  {
    hide Indistinct, SameStore, Checking, Deciding, Looking, Enforcing, VerifyOtp, WebAuthnOptions, VerifyWebAuthn, Exchange, RouteApp, RouteConsole,
      Logout, SessionOptions, SessionVerify, ActivationOptions, ActivationVerify, Admin.Execute, Admin.CreateTenant, Admin.PatchTenant;
    Stores(a, b);
    var s, t := a.store, b.store;
    match l
    case StepUpOtp(cid, otp, requested, drawn) =>
      OtpAlike(cfg, o, s, t, cid, otp, a.now, requested, drawn);
      StoresBack(a, b, VerifyOtp(cfg, o, s, cid, otp, a.now, requested, drawn).0, VerifyOtp(cfg, o, t, cid, otp, a.now, requested, drawn).0);
    case StepUpPasskey(cid, answer, requested, drawn) =>
      PasskeyAlike(cfg, o, s, t, cid, answer, a.now, requested, drawn);
      StoresBack(a, b, VerifyWebAuthn(cfg, o, s, cid, answer, a.now, requested, drawn).0,
        VerifyWebAuthn(cfg, o, t, cid, answer, a.now, requested, drawn).0);
    case StepUpOptions(cid, nonce) =>
      OptionsAlike(s, t, cid, a.now, nonce);
      StoresBack(a, b, WebAuthnOptions(s, cid, a.now, nonce).0, WebAuthnOptions(t, cid, a.now, nonce).0);
  }

  /** Everything else leaves the challenges alone and never looks at them. */
  lemma OthersLeaveChallenges(o: Oracles, s: Store, now: Time, l: Label)
    ensures l.Redeem? ==> Exchange(o, s, l.code, now, l.drawn).0.auth.challenges == s.auth.challenges
    ensures l.SignOut? ==> Logout(o, s, l.raw).auth.challenges == s.auth.challenges
    ensures l.EnrollOptions? ==> SessionOptions(o, s, l.raw, now, l.nonce).0.auth.challenges == s.auth.challenges
    ensures l.EnrollVerify? ==> SessionVerify(o, s, l.raw, l.answer, now).0.auth.challenges == s.auth.challenges
    ensures l.ActivateOptions? ==> ActivationOptions(o, s, l.code, l.password, now, l.nonce).0.auth.challenges == s.auth.challenges
    ensures l.ActivateVerify? ==> ActivationVerify(o, s, l.code, l.answer, now).0.auth.challenges == s.auth.challenges
  {
    hide HasPasskey, View, WithCredential, HashCode, PasswordOk;
  }

  lemma AdminLeavesChallenges(s: Store, l: Label)
    ensures l.Manage? ==> Admin.Execute(s, l.op, l.call).0.auth.challenges == s.auth.challenges
    ensures l.AddTenant? ==> Admin.CreateTenant(s, l.tenant, l.name, l.branding, l.domains, l.randoms).0.auth.challenges == s.auth.challenges
    ensures l.EditTenant? ==> Admin.PatchTenant(s, l.tenant, l.patch).0.auth.challenges == s.auth.challenges
  {
    hide Seed.Run, Seed.BootstrapConsole, Admin.ReplacedDomains, Admin.PublicTenant, Admin.Repeats, Admin.DomainOwnedElsewhere;
    if l.Manage? {
      if !l.call.CallIssueCode? {
        hide Admin.Execute;
        AdminNoninterference.LeavesAuth(s, l.op, l.call);
      }
    }
  }

  lemma TokensAlike(cfg: Settings, o: Oracles, a: Config, b: Config, l: Label)
    requires Indistinct(a, b) && (l.Redeem? || l.SignOut?)
    ensures Hides(cfg, o, a, b, l, l)
  {
    hide Indistinct, SameStore, Checking, Deciding, Looking, Enforcing, VerifyOtp, WebAuthnOptions, VerifyWebAuthn, Exchange, RouteApp, RouteConsole,
      Logout, SessionOptions, SessionVerify, ActivationOptions, ActivationVerify, Admin.Execute, Admin.CreateTenant, Admin.PatchTenant, Importing,
      Reseeding;
    Stores(a, b);
    var s, ch, now := a.store, b.store.auth.challenges, a.now;
    OthersLeaveChallenges(o, s, now, l);
    if l.Redeem? {
      SessionsIgnoreChallenges(o, s, ch, None, l.code, now, l.drawn, [], Assertion(None, []));
      Untouched(a, b, Exchange(o, s, l.code, now, l.drawn).0, now);
    } else {
      SessionsIgnoreChallenges(o, s, ch, l.raw, "", now, Fresh("", ""), [], Assertion(None, []));
      Untouched(a, b, Logout(o, s, l.raw), now);
    }
  }

  lemma EnrollingAlike(cfg: Settings, o: Oracles, a: Config, b: Config, l: Label)
    requires Indistinct(a, b) && (l.EnrollOptions? || l.EnrollVerify?)
    ensures Hides(cfg, o, a, b, l, l)
  {
    hide Indistinct, SameStore, Checking, Deciding, Looking, Enforcing, VerifyOtp, WebAuthnOptions, VerifyWebAuthn, Exchange, RouteApp, RouteConsole,
      Logout, SessionOptions, SessionVerify, ActivationOptions, ActivationVerify, Admin.Execute, Admin.CreateTenant, Admin.PatchTenant, Importing,
      Reseeding;
    Stores(a, b);
    var s, ch, now := a.store, b.store.auth.challenges, a.now;
    OthersLeaveChallenges(o, s, now, l);
    if l.EnrollOptions? {
      SessionsIgnoreChallenges(o, s, ch, l.raw, "", now, Fresh("", ""), l.nonce, Assertion(None, []));
      Untouched(a, b, SessionOptions(o, s, l.raw, now, l.nonce).0, now);
    } else {
      SessionsIgnoreChallenges(o, s, ch, l.raw, "", now, Fresh("", ""), [], l.answer);
      Untouched(a, b, SessionVerify(o, s, l.raw, l.answer, now).0, now);
    }
  }

  lemma ActivatingAlike(cfg: Settings, o: Oracles, a: Config, b: Config, l: Label)
    requires Indistinct(a, b) && (l.ActivateOptions? || l.ActivateVerify?)
    ensures Hides(cfg, o, a, b, l, l)
  {
    hide Indistinct, SameStore, Checking, Deciding, Looking, Enforcing, VerifyOtp, WebAuthnOptions, VerifyWebAuthn, Exchange, RouteApp, RouteConsole,
      Logout, SessionOptions, SessionVerify, ActivationOptions, ActivationVerify, Admin.Execute, Admin.CreateTenant, Admin.PatchTenant, Importing,
      Reseeding;
    Stores(a, b);
    var s, ch, now := a.store, b.store.auth.challenges, a.now;
    OthersLeaveChallenges(o, s, now, l);
    if l.ActivateOptions? {
      CodesIgnoreChallenges(o, s, ch, l.code, l.password, now, l.nonce, Assertion(None, []));
      Untouched(a, b, ActivationOptions(o, s, l.code, l.password, now, l.nonce).0, now);
    } else {
      CodesIgnoreChallenges(o, s, ch, l.code, "", now, [], l.answer);
      Untouched(a, b, ActivationVerify(o, s, l.code, l.answer, now).0, now);
    }
  }

  lemma OthersAlike(cfg: Settings, o: Oracles, a: Config, b: Config, l: Label)
    requires Indistinct(a, b)
    requires l.Redeem? || l.SignOut? || l.EnrollOptions? || l.EnrollVerify? || l.ActivateOptions? || l.ActivateVerify?
    ensures Hides(cfg, o, a, b, l, l)
  {
    hide *;
    if l.Redeem? || l.SignOut? {
      TokensAlike(cfg, o, a, b, l);
    } else if l.EnrollOptions? || l.EnrollVerify? {
      EnrollingAlike(cfg, o, a, b, l);
    } else {
      ActivatingAlike(cfg, o, a, b, l);
    }
  }

  lemma AdminAlike(cfg: Settings, o: Oracles, a: Config, b: Config, l: Label)
    requires Indistinct(a, b) && (l.Manage? || l.AddTenant? || l.EditTenant?)
    ensures Hides(cfg, o, a, b, l, l)
  {
    hide Indistinct, SameStore, Checking, Deciding, Looking, Enforcing, VerifyOtp, WebAuthnOptions, VerifyWebAuthn, Exchange, RouteApp, RouteConsole,
      Logout, SessionOptions, SessionVerify, ActivationOptions, ActivationVerify, Admin.Execute, Admin.CreateTenant, Admin.PatchTenant;
    Stores(a, b);
    var s, ch := a.store, b.store.auth.challenges;
    AdminLeavesChallenges(s, l);
    match l
    case Manage(op, call) =>
      ManageIgnoresChallenges(s, ch, op, call);
      Untouched(a, b, Admin.Execute(s, op, call).0, a.now);
    case AddTenant(t, name, branding, domains, rnd) =>
      TenantsIgnoreChallenges(s, ch, t, name, branding, domains, rnd, Admin.TenantPatch(None, None, None));
      Untouched(a, b, Admin.CreateTenant(s, t, name, branding, domains, rnd).0, a.now);
    case EditTenant(t, p) =>
      EditIgnoresChallenges(s, ch, t, p);
      Untouched(a, b, Admin.PatchTenant(s, t, p).0, a.now);
  }

  lemma EditIgnoresChallenges(s: Store, ch: map<Id, Challenge>, t: Id, p: Admin.TenantPatch)
    ensures Admin.PatchTenant(MachineSteps.Remembering(s, ch), t, p) == (MachineSteps.Remembering(Admin.PatchTenant(s, t, p).0, ch), Admin.PatchTenant(s, t, p).1)
  {
  }

  /** No step tells two such runs apart. */
  lemma StepsHide(cfg: Settings, o: Oracles, a: Config, b: Config, la: Label, lb: Label)
    requires Indistinct(a, b) && SameLabel(la, lb)
    ensures Hides(cfg, o, a, b, la, lb)
  {
    hide Indistinct, Hides, BothAlike;
    if la.CheckPassword? || la.Decide? || la.Look? || la.Enforce? {
      LoginAlike(cfg, o, a, b, la, lb);
    } else if la.StepUpOtp? || la.StepUpOptions? || la.StepUpPasskey? {
      StepUpAlike(cfg, o, a, b, la);
    } else if la.Manage? || la.AddTenant? || la.EditTenant? {
      AdminAlike(cfg, o, a, b, la);
    } else if la.Tick? || la.StartApp? || la.StartConsole? || la.ImportKeys? || la.Reseed? {
      StartAlike(a, b, la);
    } else {
      OthersAlike(cfg, o, a, b, la);
    }
  }

  /** Everything the browsers receive in a run. */
  ghost function Seen(cfg: Settings, o: Oracles, c: Config, ls: seq<Label>): seq<Reply>
    decreases |ls|
  {
    if ls == [] then [] else [Shown(Exec(cfg, o, c, ls[0]).1)] + Seen(cfg, o, Exec(cfg, o, c, ls[0]).0, ls[1..])
  }

  /** Runs whose decisions are alike look the same to every browser, from first to last. */
  lemma {:induction false} RunsLookAlike(cfg: Settings, o: Oracles, a: Config, b: Config, la: seq<Label>, lb: seq<Label>)
    requires Indistinct(a, b) && |la| == |lb| && forall i :: 0 <= i < |la| ==> SameLabel(la[i], lb[i])
    ensures Seen(cfg, o, a, la) == Seen(cfg, o, b, lb)
    decreases |la|
  {
    hide Indistinct, Exec, SameLabel;
    if la != [] {
      StepsHide(cfg, o, a, b, la[0], lb[0]);
      forall i | 0 <= i < |la[1..]| ensures SameLabel(la[1..][i], lb[1..][i]) {
        assert la[1..][i] == la[i + 1] && lb[1..][i] == lb[i + 1];
      }
      RunsLookAlike(cfg, o, Exec(cfg, o, a, la[0]).0, Exec(cfg, o, b, lb[0]).0, la[1..], lb[1..]);
    }
  }
}
