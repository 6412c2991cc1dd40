/**
 The login service on the database, each method one transaction but for the last
 two, which are a whole login: what they do is the run of its steps with nobody between.
 */
module LoginService {
  import opened Wrappers
  import opened Models
  import opened Authz
  import opened Tenancy
  import opened Login
  import opened LoginFacts
  import opened Database
  import opened DirectoryInvariant
  import opened Machine
  import Admin
  import Enrollment

  /** Password hashing; it counts the comparisons it makes. */
  class Passwords {
    const o: Oracles
    var comparisons: nat

    constructor (o: Oracles)
      ensures this.o == o && comparisons == 0
    {
      this.o := o;
      comparisons := 0;
    }

    /** No digest, or an empty one, is compared with the dummy: the same cost, the answer thrown away. */
    method Verify(password: string, digest: Option<string>) returns (ok: bool)
      modifies this`comparisons
      ensures ok == PasswordOk(o, password, digest) && comparisons == old(comparisons) + 1
    {
      comparisons := comparisons + 1;
      var d := if digest.Some? && digest.value != "" then digest.value else o.dummyDigest;
      ok := o.passwordOk(password, d);
    }
  }

  class LoginService {
    const db: Tables
    const passwords: Passwords
    const cfg: Settings
    const o: Oracles

    constructor (db: Tables, passwords: Passwords, cfg: Settings)
      ensures this.db == db && this.passwords == passwords && this.cfg == cfg && o == passwords.o
    {
      this.db, this.passwords, this.cfg, this.o := db, passwords, cfg, passwords.o;
    }

    // ------------------------------------------------------------- the credential check

    method CheckCredentials(a: Attempt) returns (c: Checked)
      requires UniqueEmails(db.users) && passwords.o == o
      modifies passwords`comparisons
      ensures c == Check(db.Dir(), o, a)
      ensures passwords.comparisons == old(passwords.comparisons) + 1
    {
      hide UniqueEmails;
      var email := NormaliseEmail(a.email);
      if !exists u :: u in db.users && db.users[u].tenant == a.tenant && db.users[u].email == email {
        var _ := passwords.Verify(a.password, None);
        return Refused(Bare(INVALID_CREDENTIALS));
      }
      var user :| user in db.users && db.users[user].tenant == a.tenant && db.users[user].email == email;
      assert Login.IsUser(db.Dir(), a.tenant, email, user);
      EmailsAreUnique(db.Dir(), a.tenant, email, user, FindUser(db.Dir(), a.tenant, email).value);
      if !db.users[user].enabled {
        var _ := passwords.Verify(a.password, None);
        return Refused(Bare(INVALID_CREDENTIALS));
      }
      var ok := passwords.Verify(a.password, Some(db.users[user].passwordHash));
      if !ok {
        return WrongPassword(user);
      }
      var always := db.users[user].alwaysPasskey || (a.app in db.apps && db.apps[a.app].alwaysPasskey);
      if !HasAccess(db.Dir(), user, a.app) {
        if a.uniform {
          return Refused(Bare(INVALID_CREDENTIALS));
        }
        return Refused(Bare(ACCESS_DENIED).(user := Some(user), detail := ACCESS_DENIED_DETAIL));
      }
      c := Passed(user, always);
    }

    // ------------------------------------------------------------- sessions and challenges

    /** The user's row is stamped and the session added. */
    method PersistSession(user: Id, app: Id, now: Time, drawn: Fresh, enroll: bool) returns (token: Token)
      modifies db`users, db`sessions
      ensures db.Snapshot() == WithSession(cfg, o, old(db.Snapshot()), user, app, now, drawn, enroll, None)
      ensures token == Token(drawn.token, now + cfg.sessionTtl)
    {
      if user in db.users {
        db.users := db.users[user := db.users[user].(lastLogin := Some(now))];
      }
      db.sessions := db.sessions[Hash(o, drawn.token) :=
        Session(user, app, now + cfg.sessionTtl, if enroll then Some(now + cfg.enrollWindow) else None, None)];
      token := Token(drawn.token, now + cfg.sessionTtl);
    }

    /** A callback code bound to the session, where the redirect matches. */
    method PersistCallback(user: Id, app: Id, session: string, now: Time, drawn: Fresh, target: Option<string>)
      modifies db`codes
      ensures db.codes == if target.None? then old(db.codes)
        else old(db.codes)[o.hash(drawn.code) := AuthCode(session, user, app, target.value, now + cfg.callbackTtl, None)]
    {
      if target.Some? {
        db.codes := db.codes[Hash(o, drawn.code) := AuthCode(session, user, app, target.value, now + cfg.callbackTtl, None)];
      }
    }

    method CreateSession(user: Id, app: Id, now: Time, drawn: Fresh, enroll: bool, target: Option<string>) returns (token: Token)
      modifies db`users, db`sessions, db`codes
      ensures db.Snapshot() == WithSession(cfg, o, old(db.Snapshot()), user, app, now, drawn, enroll, target)
      ensures token == Token(drawn.token, now + cfg.sessionTtl)
    {
      hide SignedIn;
      token := PersistSession(user, app, now, drawn, enroll);
      PersistCallback(user, app, Hash(o, drawn.token), now, drawn, target);
    }

    method CreateChallenge(user: Id, app: Id, r: Ruling, now: Time, cid: Id, denied: Option<string>)
      modifies db`challenges
      ensures db.Snapshot() == old(db.Snapshot()).(auth := old(db.Logins()).(challenges := old(db.challenges)[cid :=
        Challenge(user, app, RiskOf(r), now + cfg.challengeTtl, if denied.Some? then Some(now) else None, None, false, denied)]))
    {
      db.challenges := db.challenges[cid :=
        Challenge(user, app, RiskOf(r), now + cfg.challengeTtl, if denied.Some? then Some(now) else None, None, false, denied)];
    }

    method Enforce(user: Id, a: Attempt, r: Ruling, now: Time, drawn: Fresh, cid: Id) returns (answer: LoginResponse)
      modifies db
      ensures (db.Snapshot(), answer) == Enforcement(cfg, o, old(db.Snapshot()), user, a, r, now, drawn, cid)
    {
      var session, challenge, redirect, offer, unusual := None, None, None, false, false;
      if r.action == ALLOW {
        offer := r.decision.Some? && r.decision.value.verdict == ALLOW && !r.decision.value.fallback && !HasPasskey(db.credentials, user);
        var target := MatchRedirect(a.registered, a.requested);
        var token := CreateSession(user, a.app, now, drawn, offer, target);
        session, redirect := Some(token), RedirectTo(target, drawn);
      } else if r.action in {REQUIRE_MFA, REAUTHENTICATE} {
        var hasFactor := cfg.mockOtp || HasPasskey(db.credentials, user);
        if !hasFactor {
          CreateChallenge(user, a.app, r, now, cid, Some("no_second_factor"));
          return Bare(SECOND_FACTOR_MISSING).(user := Some(user), action := Some(r.action),
            event := if r.decision.Some? then Some(r.decision.value.event) else None);
        }
        CreateChallenge(user, a.app, r, now, cid, None);
        challenge := Some(cid);
        unusual := r.decision.Some? && !r.decision.value.fallback && r.decision.value.verdict != ALLOW;
      }
      answer := LoginResponse(OutcomeOf(r.action), Some(user),
        if r.decision.Some? then Some(r.decision.value.event) else None, Some(r.action),
        if r.decision.Some? then Some(r.decision.value.score) else None,
        if r.decision.Some? then Some(r.decision.value.level) else None,
        if r.decision.Some? then r.decision.value.reasons else [],
        session, challenge, redirect, offer, unusual, "");
    }

    /** The stand-in for a risk engine that does not answer. */
    method DegradedDecision(event: Id) returns (d: Decision)
      ensures d == Degraded(cfg, event)
      ensures d.fallback && d.enforced in {REQUIRE_MFA, REAUTHENTICATE} && d.event == event
    {
      var action := if cfg.outage.DegradeToMfa? then REQUIRE_MFA else REAUTHENTICATE;
      d := Decision(event, 0.0, HIGH, action, action,
        [Reason("pdp_unavailable", "system", "risk engine did not respond; degraded to " +
          (if cfg.outage.DegradeToMfa? then "REQUIRE_MFA" else "REAUTHENTICATE") + " without a score")], true);
    }

    /** A login from its attempt on: one password comparison, whatever happens. */
    method Authenticate(a: Attempt, e: Engine, now: Time, drawn: Fresh, cid: Id) returns (answer: LoginResponse)
      requires UniqueEmails(db.users) && passwords.o == o
      modifies db, passwords`comparisons
      ensures (db.Snapshot(), answer) == Alone(cfg, o, old(db.Snapshot()), a, e, now, drawn, cid)
      ensures passwords.comparisons == old(passwords.comparisons) + 1
    {
      hide Check, Enforcement, UniqueEmails, Degraded;
      var checked := CheckCredentials(a);
      match checked
      case Refused(x) =>
        answer := x;
      case WrongPassword(_) =>
        answer := Bare(INVALID_CREDENTIALS);
      case Passed(user, always) =>
        if e.policy.Some? && e.policy.value.mode == OFF {
          answer := Enforce(user, a, Ruling(Floor(BaseAction(e.policy.value.base), always), None), now, drawn, cid);
        } else {
          var decision;
          if e.pdp.Some? {
            decision := e.pdp.value;
          } else {
            decision := DegradedDecision(e.event);
          }
          answer := Enforce(user, a, Ruling(Floor(decision.enforced, always), Some(decision)), now, drawn, cid);
        }
    }

    /** The application names the tenant; an unknown or disabled one is refused before any password is looked at. */
    method AppLogin(app: Id, email: string, password: string, requested: Option<string>, e: Engine, now: Time, drawn: Fresh, cid: Id)
      returns (r: Result<LoginResponse>)
      requires UniqueEmails(db.users) && passwords.o == o
      modifies db, passwords`comparisons
      ensures var route := RouteApp(old(db.Dir()), app, email, password, requested);
        if route.Err? then r == route.PropagateFailure() && db.Snapshot() == old(db.Snapshot())
        else
          var x := Alone(cfg, o, old(db.Snapshot()), route.value, e, now, drawn, cid);
          db.Snapshot() == x.0 && r == Ok(x.1)
    {
      hide Alone, UniqueEmails;
      if app !in db.apps || !db.apps[app].enabled {
        return Err(400, "unknown application");
      }
      var answer := Authenticate(
        Attempt(db.apps[app].tenant, app, email, password, requested, db.apps[app].redirectUri, false), e, now, drawn, cid);
      r := Ok(answer);
    }

    /**
     The tenant is found from the address. Exactly one password comparison is made on
     every path, and every failure before the risk engine gets the same answer.
     */
    method ConsoleLogin(email: string, password: string, e: Engine, now: Time, drawn: Fresh, cid: Id) returns (answer: LoginResponse)
      requires UniqueEmails(db.users) && passwords.o == o
      modifies db, passwords`comparisons
      ensures passwords.comparisons == old(passwords.comparisons) + 1
      ensures !ConsoleFront(old(db.Dir()), o, email, password).Passed? ==>
        answer == Bare(INVALID_CREDENTIALS) && db.Snapshot() == old(db.Snapshot())
      ensures ConsoleFront(old(db.Dir()), o, email, password).Passed? ==>
        var route := RouteConsole(old(db.Dir()), email, password);
        route.Some? && (db.Snapshot(), answer) == Alone(cfg, o, old(db.Snapshot()), route.value, e, now, drawn, cid)
    {
      hide Enforcement, UniqueEmails, TenantForOperatorEmail, MayEnterConsole;
      ConsoleFailuresAreUniform(db.Dir(), o, email, password);
      var tenant := TenantForOperatorEmail(db.Dir(), email);
      var console := ConsoleOf(db.Dir(), tenant);
      if tenant.None? || console.None? {
        var _ := passwords.Verify(password, None);
        return Bare(INVALID_CREDENTIALS);
      }
      hide Check;
      answer := Authenticate(Attempt(tenant.value, console.value, email, password, None, None, true), e, now, drawn, cid);
    }

    // ------------------------------------------------------------- completing a step-up

    method FinishChallenge(cid: Id, now: Time, requested: Option<string>, drawn: Fresh) returns (answer: LoginResponse)
      requires cid in db.challenges
      modifies db
      ensures (db.Snapshot(), answer) == Finish(cfg, o, old(db.Snapshot()), cid, now, requested, drawn)
    {
      hide HasAccess, MatchRedirect, SignedIn;
      var c := db.challenges[cid];
      if !HasAccess(db.Dir(), c.user, c.app) {
        return WithRisk(Bare(ACCESS_DENIED).(user := Some(c.user), detail := ACCESS_DENIED_DETAIL), c.risk);
      }
      var registered := if c.app in db.apps then db.apps[c.app].redirectUri else None;
      db.challenges := db.challenges[cid := c.(consumedAt := Some(now))];
      var target := MatchRedirect(registered, requested);
      var token := CreateSession(c.user, c.app, now, drawn, false, target);
      answer := WithRisk(Bare(AUTHENTICATED).(user := Some(c.user), session := Some(token), redirect := RedirectTo(target, drawn)), c.risk);
    }

    method VerifyMfa(cid: Id, code: string, now: Time, requested: Option<string>, drawn: Fresh) returns (r: Result<LoginResponse>)
      modifies db
      ensures (db.Snapshot(), r) == VerifyOtp(cfg, o, old(db.Snapshot()), cid, code, now, requested, drawn)
    {
      hide Finish;
      if !cfg.mockOtp {
        return Err(404, "not found");
      }
      if !Open(db.challenges, cid, now) {
        return Err(NO_CHALLENGE_STATUS, NO_CHALLENGE);
      }
      if code != cfg.otpCode {
        return Ok(Bare(INVALID_CREDENTIALS));
      }
      var answer := FinishChallenge(cid, now, requested, drawn);
      r := Ok(answer);
    }

    method StepUpOptions(cid: Id, now: Time, nonce: Bytes) returns (r: Result<set<Id>>)
      modifies db
      ensures (db.Snapshot(), r) == WebAuthnOptions(old(db.Snapshot()), cid, now, nonce)
    {
      if !Open(db.challenges, cid, now) {
        return Err(NO_CHALLENGE_STATUS, NO_CHALLENGE);
      }
      var user := db.challenges[cid].user;
      if !HasPasskey(db.credentials, user) {
        return Err(400, "no passkey for this user");
      }
      db.challenges := db.challenges[cid := db.challenges[cid].(nonce := Some(nonce), ceremony := true)];
      r := Ok(set k | k in db.credentials && db.credentials[k].user == user);
    }

    /** The counter is assigned before the role is looked at, and a refusal there is an answer, so it stays. */
    method VerifyPasskey(cid: Id, answer: Assertion, now: Time, requested: Option<string>, drawn: Fresh) returns (r: Result<LoginResponse>)
      modifies db
      ensures (db.Snapshot(), r) == VerifyWebAuthn(cfg, o, old(db.Snapshot()), cid, answer, now, requested, drawn)
    {
      hide Finish;
      if !Open(db.challenges, cid, now) {
        return Err(NO_CHALLENGE_STATUS, NO_CHALLENGE);
      }
      var c := db.challenges[cid];
      if c.nonce.None? || c.nonce.value == [] || !c.ceremony {
        return Err(NO_CHALLENGE_STATUS, NO_CHALLENGE);
      }
      if answer.id.None? {
        return Ok(Bare(INVALID_CREDENTIALS));
      }
      var k := answer.id.value;
      if k !in db.credentials || db.credentials[k].user != c.user {
        return Ok(Bare(INVALID_CREDENTIALS));
      }
      var count := o.verifyGet(answer, c.nonce.value, db.credentials[k].publicKey, db.credentials[k].signCount);
      if count.None? {
        return Ok(Bare(INVALID_CREDENTIALS));
      }
      db.credentials := db.credentials[k := db.credentials[k].(signCount := count.value)];
      var x := FinishChallenge(cid, now, requested, drawn);
      r := Ok(x);
    }

    // ------------------------------------------------------------- tokens

    method ExchangeCode(code: string, now: Time, drawn: Fresh) returns (r: Result<Exchanged>)
      modifies db
      ensures (db.Snapshot(), r) == Exchange(o, old(db.Snapshot()), code, now, drawn)
    {
      var k := Hash(o, code);
      if k !in db.codes || db.codes[k].consumedAt.Some? || db.codes[k].expiresAt <= now {
        return Err(400, "unknown or expired code");
      }
      var row := db.codes[k];
      if row.session !in db.sessions || db.sessions[row.session].expiresAt <= now {
        return Err(400, "unknown or expired code");
      }
      if row.user !in db.users || !db.users[row.user].enabled {
        return Err(400, "unknown or expired code");
      }
      db.codes := db.codes[k := row.(consumedAt := Some(now))];
      var stored := db.sessions[row.session];
      db.sessions := db.sessions[Hash(o, drawn.token) := Session(stored.user, stored.app, stored.expiresAt, None, None)];
      db.sessions := db.sessions - {row.session};
      r := Ok(Exchanged(Token(drawn.token, stored.expiresAt), View(db.Dir(), row.user)));
    }

    method SignOut(raw: Option<string>)
      modifies db
      ensures db.Snapshot() == Logout(o, old(db.Snapshot()), raw)
    {
      if raw.Some? {
        db.sessions := db.sessions - {Hash(o, raw.value)};
      }
    }

    method Load(raw: Option<string>, now: Time) returns (r: Result<Loaded>)
      ensures r == LoadSession(o, db.Snapshot(), raw, now)
    {
      hide EffectivePermissions;
      if raw.None? || Hash(o, raw.value) !in db.sessions || db.sessions[Hash(o, raw.value)].expiresAt <= now {
        return NO_SESSION;
      }
      var row := db.sessions[Hash(o, raw.value)];
      if row.user !in db.users || !db.users[row.user].enabled {
        return NO_SESSION;
      }
      r := Ok(Loaded(row, View(db.Dir(), row.user), EffectivePermissions(db.Dir(), row.user, row.app)));
    }
  }

  /** A login nobody disturbs is a run of the machine: its four steps, ending with the same store and answer. */
  lemma AloneIsARun(cfg: Settings, o: Oracles, c: Config, th: Id, e: Engine, drawn: Fresh, cid: Id)
    requires th in c.threads && c.threads[th].Routed?
    ensures var (s, answer) := Alone(cfg, o, c.store, c.threads[th].attempt, e, c.now, drawn, cid);
      FourSteps(cfg, o, c, th, e, drawn, cid) == c.(store := s, threads := c.threads[th := Done(answer)])
  {
    hide Check, Rule, Issue, OpenStepUp, HasPasskey;
    var a := c.threads[th].attempt;
    var c1 := Checking(o, c, th).0;
    match Check(c.store.dir, o, a)
    case Refused(_) =>
    case WrongPassword(_) =>
    case Passed(user, always) =>
      var r := Rule(cfg, e.policy, e.pdp, e.event, always);
      var c2 := Deciding(cfg, c1, th, e.policy, e.pdp, e.event).0;
      if r.action != BLOCK {
        var c3 := Looking(cfg, c2, th).0;
        assert c3 == c.(threads := c.threads[th := Ready(a, user, always, r, Flag(cfg, c.store, user, r))]);
        var c4 := Enforcing(cfg, o, c3, th, drawn, cid).0;
        assert c4.threads == c.threads[th := c4.threads[th]];
      } else {
        assert c2.threads == c.threads[th := c2.threads[th]];
      }
  }

  /** The four steps of one login, each where it applies. */
  ghost function FourSteps(cfg: Settings, o: Oracles, c: Config, th: Id, e: Engine, drawn: Fresh, cid: Id): Config
    requires th in c.threads && c.threads[th].Routed?
  {
    var c1 := Checking(o, c, th).0;
    if !c1.threads[th].Checked? then c1
    else
      var c2 := Deciding(cfg, c1, th, e.policy, e.pdp, e.event).0;
      if !c2.threads[th].Ruled? then c2
      else Enforcing(cfg, o, Looking(cfg, c2, th).0, th, drawn, cid).0
  }

  lemma FourStepsAreSteps(cfg: Settings, o: Oracles, c: Config, th: Id, e: Engine, drawn: Fresh, cid: Id)
    requires th in c.threads && c.threads[th].Routed?
    ensures var c1 := Exec(cfg, o, c, CheckPassword(th)).0;
      var c2 := Exec(cfg, o, c1, Decide(th, e.policy, e.pdp, e.event)).0;
      var c3 := Exec(cfg, o, c2, Look(th)).0;
      Exec(cfg, o, c3, Machine.Enforce(th, drawn, cid)).0 == FourSteps(cfg, o, c, th, e, drawn, cid)
  {
    hide Check, Rule, Issue, OpenStepUp, HasPasskey, VerifyOtp, WebAuthnOptions, VerifyWebAuthn, Exchange, Logout, RouteApp, RouteConsole,
      Enrollment.SessionOptions, Enrollment.SessionVerify, Enrollment.ActivationOptions, Enrollment.ActivationVerify,
      Admin.Execute, Admin.CreateTenant, Admin.PatchTenant, Importing, Flag;
  }
}
