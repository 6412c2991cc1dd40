/** What the two doors of a login, and the client id, may give away. */
module LoginFacts {
  import opened Wrappers
  import opened Models
  import opened Authz
  import opened DirectoryInvariant
  import opened Tenancy
  import opened Login
  import Admin
  import Seed

  // ------------------------------------------------------------- the console door

  /** A console login up to the risk engine: the answer it fails with, or who got through. */
  ghost function ConsoleFront(d: Directory, o: Oracles, email: string, password: string): Checked {
    var a := RouteConsole(d, email, password);
    if a.None? then Refused(Bare(INVALID_CREDENTIALS))
    else
      match Check(d, o, a.value)
      case WrongPassword(_) => Refused(Bare(INVALID_CREDENTIALS))
      case c => c
  }

  /** The email's domain routes to a tenant with an enabled console, on which its enabled user holds a role, and the password is right. */
  ghost predicate MayEnterConsole(d: Directory, o: Oracles, email: string, password: string, u: Id) {
    var t := TenantForOperatorEmail(d, email);
    && t.Some? && d.tenants[t.value].consoleApp.Some?
    && var console := d.tenants[t.value].consoleApp.value;
    && console in d.apps && d.apps[console].enabled && d.apps[console].tenant == t.value
    && Login.IsUser(d, t.value, NormaliseEmail(email), u) && d.users[u].enabled
    && PasswordOk(o, password, Some(d.users[u].passwordHash)) && HasAccess(d, u, console)
  }

  lemma EmailsAreUnique(d: Directory, t: Id, email: string, u: Id, v: Id)
    requires UniqueEmails(d.users) && Login.IsUser(d, t, email, u) && Login.IsUser(d, t, email, v)
    ensures u == v
  {
  }

  /**
   Whatever the store holds and whatever is wrong (the domain, the console, the user,
   the password, the role), a console login that does not reach the risk engine gets
   one and the same answer; and one that reaches it had nothing wrong.
   */
  lemma ConsoleFailuresAreUniform(d: Directory, o: Oracles, email: string, password: string)
    ensures var c := ConsoleFront(d, o, email, password);
      && !c.WrongPassword?
      && (c.Refused? ==> c.answer == Bare(INVALID_CREDENTIALS))
      && (c.Passed? ==> MayEnterConsole(d, o, email, password, c.user))
  {
    hide NormaliseEmail, PasswordOk, HasAccess, TenantForOperatorEmail, AlwaysPasskey;
    TenantExists(d, email);
  }

  /** Where an address has one user, the engine is reached exactly by those who may enter. */
  lemma ConsoleReachesTheEngineIff(d: Directory, o: Oracles, email: string, password: string, u: Id)
    requires UniqueEmails(d.users)
    ensures var c := ConsoleFront(d, o, email, password);
      c.Passed? && c.user == u <==> MayEnterConsole(d, o, email, password, u)
  {
    hide UniqueEmails, NormaliseEmail, PasswordOk, HasAccess, TenantForOperatorEmail, AlwaysPasskey;
    var t := TenantForOperatorEmail(d, email);
    TenantExists(d, email);
    ConsoleFailuresAreUniform(d, o, email, password);
    var found := if t.Some? then FindUser(d, t.value, NormaliseEmail(email)) else None;
    if MayEnterConsole(d, o, email, password, u) {
      EmailsAreUnique(d, t.value, NormaliseEmail(email), u, found.value);
    }
  }

  lemma TenantExists(d: Directory, email: string)
    ensures TenantForOperatorEmail(d, email).Some? ==> TenantForOperatorEmail(d, email).value in d.tenants
  {
  }

  // ------------------------------------------------------------- the application door

  /** An application login tells who it was only once the password was right. */
  lemma AppFailuresNameNobodyUnproved(d: Directory, o: Oracles, a: Attempt)
    ensures var c := Check(d, o, a);
      c.Refused? && c.answer.user.Some? ==>
        var u := c.answer.user.value;
        && c.answer.outcome == ACCESS_DENIED && !a.uniform && !HasAccess(d, u, a.app)
        && Login.IsUser(d, a.tenant, NormaliseEmail(a.email), u) && d.users[u].enabled
        && PasswordOk(o, a.password, Some(d.users[u].passwordHash))
  {
  }

  /** A known client id stands for its application. */
  lemma KnownClientResolves(d: Directory, clientId: string, app: Id, a: Id)
    requires UniqueClientIds(d.apps) && HasClientId(d, clientId, a) && a != ""
    ensures ResolveClient(d, Some(clientId), app) == a
  {
  }

  /**
   An unknown client id is meant to fail like an unknown application. It does so
   exactly when nobody has registered an enabled application under the stand-in id.
   */
  lemma UnknownClientFailsIff(d: Directory, clientId: string, app: Id, email: string, password: string, requested: Option<string>)
    requires forall a :: !HasClientId(d, clientId, a)
    ensures RouteApp(d, ResolveClient(d, Some(clientId), app), email, password, requested) == Err(400, "unknown application") <==>
      !("unknown:" + clientId in d.apps && d.apps["unknown:" + clientId].enabled)
  {
  }

  /** Any operator can bring that about, in any store: an application created under the stand-in id answers for the unknown client. */
  lemma StandInIsReachable(s: Store, op: Admin.Operator, clientId: string, drawn: string, app: Id, name: string, redirect: Option<string>)
    requires op.tenant in s.dir.tenants && "unknown:" + clientId !in s.dir.apps
    requires !Seed.ClientIdTaken(s.dir.apps, drawn) && drawn != clientId && forall a :: !HasClientId(s.dir, clientId, a)
    ensures var (s', r) := Admin.Execute(s, op, Admin.CallCreateApp("unknown:" + clientId, drawn, name, redirect));
      && r.Ok? && (forall a :: !HasClientId(s'.dir, clientId, a))
      && forall email, password, requested :: RouteApp(s'.dir, ResolveClient(s'.dir, Some(clientId), app), email, password, requested).Ok?
  {
    var id, d' := "unknown:" + clientId, Admin.Execute(s, op, Admin.CallCreateApp("unknown:" + clientId, drawn, name, redirect)).0.dir;
    forall a ensures !HasClientId(d', clientId, a) {
      assert !HasClientId(s.dir, clientId, a);
      assert a != id ==> (a in d'.apps <==> a in s.dir.apps);
    }
    assert ResolveClient(d', Some(clientId), app) == id;
  }

  // ------------------------------------------------------------- redirects

  /** Off-site only ever to the registered URI, and only when the request did not name another. */
  lemma RedirectsOnlyWhereRegistered(registered: Option<string>, requested: Option<string>)
    ensures var r := MatchRedirect(registered, requested);
      && (r.Some? <==> registered.Some? && registered.value != "" && requested in {None, Some(""), registered})
      && (r.Some? ==> r == registered)
  {
  }

  // ------------------------------------------------------------- tokens

  /** After signing out that token does not load, and every other does as before. */
  lemma SignOutEndsOne(o: Oracles, s: Store, raw: string, other: string, now: Time)
    ensures LoadSession(o, Logout(o, s, Some(raw)), Some(raw), now) == NO_SESSION
    ensures o.hash(other) != o.hash(raw) ==> LoadSession(o, Logout(o, s, Some(raw)), Some(other), now) == LoadSession(o, s, Some(other), now)
  {
    hide EffectivePermissions;
  }

  /**
   After an exchange the new token loads exactly what the session's token did, but
   may not enroll; that token does not load any more, and the code does not work again.
   */
  lemma ExchangeHandsOver(o: Oracles, s: Store, code: string, token: string, now: Time, later: Time, drawn: Fresh, again: Fresh)
    requires Exchange(o, s, code, now, drawn).1.Ok? && s.auth.codes[o.hash(code)].session == o.hash(token)
    requires o.hash(drawn.token) !in s.auth.sessions
    ensures var s' := Exchange(o, s, code, now, drawn).0;
      && LoadSession(o, s', Some(token), later) == NO_SESSION
      && Exchange(o, s', code, later, again) == (s', Err(400, "unknown or expired code"))
      && var before, after := LoadSession(o, s, Some(token), later), LoadSession(o, s', Some(drawn.token), later);
      (before.Ok? <==> after.Ok?) &&
      (before.Ok? ==> after == Ok(before.value.(session := before.value.session.(enrollUntil := None, nonce := None))))
  {
    hide EffectivePermissions;
  }

  /**
   A sign-in hands out a callback code exactly when the redirect matches, and the code
   then buys that user a token with the session's own expiry, for as long as both last.
   */
  lemma CallbackRedeemsIff(cfg: Settings, o: Oracles, s: Store, user: Id, app: Id, now: Time, drawn: Fresh, enroll: bool, target: Option<string>,
    later: Time, again: Fresh)
    requires o.hash(drawn.code) !in s.auth.codes
    ensures var r := Exchange(o, WithSession(cfg, o, s, user, app, now, drawn, enroll, target), drawn.code, later, again).1;
      && (r.Ok? <==> target.Some? && later < now + cfg.callbackTtl && later < now + cfg.sessionTtl
                     && user in s.dir.users && s.dir.users[user].enabled)
      && (r.Ok? ==> r.value.session == Token(again.token, now + cfg.sessionTtl) && r.value.user.user == user)
  {
  }

  /**
   A step-up can be completed exactly when there is a factor to complete it with: a
   refusal's challenge is never open and its answer names none, and the other is
   open until its lifetime has passed.
   */
  lemma StepUpOpensIff(cfg: Settings, s: Store, user: Id, app: Id, r: Ruling, hasFactor: bool, now: Time, cid: Id, later: Time)
    ensures var (s', answer) := OpenStepUp(cfg, s, user, app, r, hasFactor, now, cid);
      && (Open(s'.auth.challenges, cid, later) <==> hasFactor && later < now + cfg.challengeTtl)
      && (answer.challenge == if hasFactor then Some(cid) else None) && answer.session.None?
  {
  }

  /**
   While the engine does not answer and is not switched off, whoever signs in is asked
   for a second factor: never let in, never blocked, never trusted to enroll, and not
   told that anything was unusual.
   */
  lemma OutagesAskForAFactor(cfg: Settings, policy: Option<Policy>, event: Id, always: bool)
    requires !EngineOff(policy)
    ensures var r := Rule(cfg, policy, None, event, always);
      r.action in {REQUIRE_MFA, REAUTHENTICATE} && !TrustedContext(r) && !Unusual(r)
      && (r.action == REQUIRE_MFA <==> cfg.outage.DegradeToMfa?)
  {
  }

  // ------------------------------------------------------------- what is shown

  /** Of the reasons exactly the account's own pause is shown. */
  lemma {:induction false} ShownReasons(rs: seq<Reason>)
    ensures forall x :: x in PublicReasons(rs) <==> x in rs && x.code == PUBLIC_REASON
    decreases |rs|
  {
    if rs != [] {
      ShownReasons(rs[1..]);
      assert rs == [rs[0]] + rs[1..];
    }
  }

  /** Where the passkey is asked for every time nobody is let in on a password, whoever decided. */
  lemma AlwaysPasskeyIsNeverAllowed(cfg: Settings, policy: Option<Policy>, pdp: Option<Decision>, event: Id)
    ensures Rule(cfg, policy, pdp, event, true).action != ALLOW
    ensures Rule(cfg, policy, pdp, event, false).action != ALLOW ==>
      Rule(cfg, policy, pdp, event, true).action == Rule(cfg, policy, pdp, event, false).action
  {
  }
}
