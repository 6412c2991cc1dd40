/**
 The login service, one function per transaction, from the store before to the
 store after. A request that is refused with a status leaves the store as it was.

 What the service reads from elsewhere (the clock, random tokens, the tenant's
 cached policy, the risk engine's answer) comes in as an argument.
 */
module Login {
  import opened Wrappers
  import opened Models
  import opened Authz
  import opened Tenancy

  // ------------------------------------------------------------- pure parts

  const ACCESS_DENIED_DETAIL := "user is not granted access to this application"

  /** The least the decision is raised to: with the passkey asked for every time, ALLOW becomes a step-up. */
  function Floor(action: Action, alwaysPasskey: bool): Action {
    if alwaysPasskey && action == ALLOW then REQUIRE_MFA else action
  }

  /** The registered URI where the request names it or names none, and otherwise nothing. */
  function MatchRedirect(registered: Option<string>, requested: Option<string>): Option<string> {
    if registered.None? || registered.value == "" then None
    else if requested.None? || requested.value == "" then registered
    else if requested == registered then registered
    else None
  }

  function OutcomeOf(action: Action): Outcome {
    match action
    case ALLOW => AUTHENTICATED
    case REQUIRE_MFA => MFA_REQUIRED
    case REAUTHENTICATE => REAUTH_REQUIRED
    case BLOCK => BLOCKED
  }

  /** A missing or empty digest is compared with the dummy, so that it costs the same. */
  predicate PasswordOk(o: Oracles, password: string, digest: Option<string>) {
    o.passwordOk(password, if digest.Some? && digest.value != "" then digest.value else o.dummyDigest)
  }

  function Hash(o: Oracles, token: string): string { o.hash(token) }

  predicate HasPasskey(credentials: map<Id, Credential>, user: Id) {
    exists c :: c in credentials && credentials[c].user == user
  }

  // ------------------------------------------------------------- the credential check

  /** What a login carries through its steps; `uniform` marks the operators' door. */
  datatype Attempt = Attempt(
    tenant: Id, app: Id, email: string, password: string,
    requested: Option<string>, registered: Option<string>, uniform: bool)

  datatype Checked =
    | Refused(answer: LoginResponse)
    | WrongPassword(user: Id)
    | Passed(user: Id, always: bool)

  /** The applications' door: the tenant is the application's. */
  function RouteApp(d: Directory, app: Id, email: string, password: string, requested: Option<string>): Result<Attempt> {
    if app !in d.apps || !d.apps[app].enabled then Err(400, "unknown application")
    else Ok(Attempt(d.apps[app].tenant, app, email, password, requested, d.apps[app].redirectUri, false))
  }

  function ConsoleOf(d: Directory, tenant: Option<Id>): Option<Id> {
    if tenant.None? || tenant.value !in d.tenants then None
    else
      var console := d.tenants[tenant.value].consoleApp;
      if console.None? || console.value !in d.apps || !d.apps[console.value].enabled || d.apps[console.value].tenant != tenant.value then None
      else console
  }

  /** The operators' door: the tenant is found from the address; `None` is answered like a wrong password. */
  function RouteConsole(d: Directory, email: string, password: string): Option<Attempt> {
    var tenant := TenantForOperatorEmail(d, email);
    var console := ConsoleOf(d, tenant);
    if tenant.None? || console.None? then None
    else Some(Attempt(tenant.value, console.value, email, password, None, None, true))
  }

  predicate IsUser(d: Directory, tenant: Id, email: string, u: Id) {
    u in d.users && d.users[u].tenant == tenant && d.users[u].email == email
  }

  /** The row a query by tenant and email returns; the unique constraint leaves no choice. */
  ghost function FindUser(d: Directory, tenant: Id, email: string): Option<Id> {
    if u :| IsUser(d, tenant, email, u) then Some(u) else None
  }

  predicate AlwaysPasskey(d: Directory, user: Id, app: Id)
    requires user in d.users
  {
    d.users[user].alwaysPasskey || (app in d.apps && d.apps[app].alwaysPasskey)
  }

  function Denied(a: Attempt, user: Id): LoginResponse {
    if a.uniform then Bare(INVALID_CREDENTIALS)
    else Bare(ACCESS_DENIED).(user := Some(user), detail := ACCESS_DENIED_DETAIL)
  }

  ghost function Check(d: Directory, o: Oracles, a: Attempt): Checked {
    var found := FindUser(d, a.tenant, NormaliseEmail(a.email));
    if found.None? || !d.users[found.value].enabled then Refused(Bare(INVALID_CREDENTIALS))
    else if !PasswordOk(o, a.password, Some(d.users[found.value].passwordHash)) then WrongPassword(found.value)
    else if !HasAccess(d, found.value, a.app) then Refused(Denied(a, found.value))
    else Passed(found.value, AlwaysPasskey(d, found.value, a.app))
  }

  /** Everything a passed check established. */
  ghost predicate Verified(d: Directory, o: Oracles, a: Attempt, user: Id) {
    && IsUser(d, a.tenant, NormaliseEmail(a.email), user) && d.users[user].enabled
    && PasswordOk(o, a.password, Some(d.users[user].passwordHash))
    && HasAccess(d, user, a.app)
  }

  // ------------------------------------------------------------- the decision

  /** The action to apply, and the decision it came from unless the engine is off. */
  datatype Ruling = Ruling(action: Action, decision: Option<Decision>)

  predicate EngineOff(policy: Option<Policy>) { policy.Some? && policy.value.mode == OFF }

  function BaseAction(base: BasePolicy): Action { if base == ALWAYS_MFA then REQUIRE_MFA else ALLOW }

  function OutageStep(cfg: Settings): Action { if cfg.outage.DegradeToMfa? then REQUIRE_MFA else REAUTHENTICATE }

  /** Stands in for a risk engine that did not answer. */
  function Degraded(cfg: Settings, event: Id): Decision {
    Decision(event, 0.0, HIGH, OutageStep(cfg), OutageStep(cfg),
      [Reason("pdp_unavailable", "system", "risk engine did not respond; degraded to " +
        (if cfg.outage.DegradeToMfa? then "REQUIRE_MFA" else "REAUTHENTICATE") + " without a score")], true)
  }

  function Decided(cfg: Settings, pdp: Option<Decision>, event: Id): Decision {
    if pdp.Some? then pdp.value else Degraded(cfg, event)
  }

  function Rule(cfg: Settings, policy: Option<Policy>, pdp: Option<Decision>, event: Id, always: bool): Ruling {
    if EngineOff(policy) then Ruling(Floor(BaseAction(policy.value.base), always), None)
    else Ruling(Floor(Decided(cfg, pdp, event).enforced, always), Some(Decided(cfg, pdp, event)))
  }

  // ------------------------------------------------------------- enforcement

  /** The random values one transaction draws. */
  datatype Fresh = Fresh(token: string, code: string)

  /** What every answer says about the decision. */
  function Ruled(user: Id, r: Ruling): LoginResponse {
    var base := Bare(OutcomeOf(r.action)).(user := Some(user), action := Some(r.action));
    if r.decision.None? then base
    else
      var d := r.decision.value;
      base.(event := Some(d.event), score := Some(d.score), level := Some(d.level), reasons := d.reasons)
  }

  /** Trusted enough to enroll from: the engine answered, and its own verdict was ALLOW. */
  predicate TrustedContext(r: Ruling) {
    r.decision.Some? && r.decision.value.verdict == ALLOW && !r.decision.value.fallback
  }

  /** The login may be called unusual: a real verdict, not a setting or an outage, wanted more than a password. */
  predicate Unusual(r: Ruling) {
    r.decision.Some? && !r.decision.value.fallback && r.decision.value.verdict != ALLOW
  }

  predicate MayOffer(s: Store, user: Id, r: Ruling) {
    TrustedContext(r) && !HasPasskey(s.auth.credentials, user)
  }

  predicate HasSecondFactor(cfg: Settings, s: Store, user: Id) {
    cfg.mockOtp || HasPasskey(s.auth.credentials, user)
  }

  function SignedIn(d: Directory, user: Id, now: Time): Directory {
    if user in d.users then d.(users := d.users[user := d.users[user].(lastLogin := Some(now))]) else d
  }

  /** A new session and, where the redirect matches, a callback code bound to it. */
  function WithSession(cfg: Settings, o: Oracles, s: Store, user: Id, app: Id, now: Time, drawn: Fresh,
    enroll: bool, target: Option<string>): Store
  {
    var h := o.hash(drawn.token);
    var sessions := s.auth.sessions[h :=
      Session(user, app, now + cfg.sessionTtl, if enroll then Some(now + cfg.enrollWindow) else None, None)];
    var codes := if target.None? then s.auth.codes
      else s.auth.codes[o.hash(drawn.code) := AuthCode(h, user, app, target.value, now + cfg.callbackTtl, None)];
    Store(SignedIn(s.dir, user, now), s.auth.(sessions := sessions, codes := codes))
  }

  function RedirectTo(target: Option<string>, drawn: Fresh): Option<Redirect> {
    if target.None? then None else Some(Redirect(target.value, drawn.code))
  }

  function Issue(cfg: Settings, o: Oracles, s: Store, user: Id, a: Attempt, r: Ruling, offer: bool, now: Time, drawn: Fresh):
    (Store, LoginResponse)
  {
    var target := MatchRedirect(a.registered, a.requested);
    (WithSession(cfg, o, s, user, a.app, now, drawn, offer, target),
     Ruled(user, r).(session := Some(Token(drawn.token, now + cfg.sessionTtl)), redirect := RedirectTo(target, drawn), passkeyOffer := offer))
  }

  function RiskOf(r: Ruling): Risk {
    if r.decision.None? then Risk(None, r.action, None, None, [])
    else
      var d := r.decision.value;
      Risk(Some(d.event), r.action, Some(d.score), Some(d.level), d.reasons)
  }

  /** A step-up nobody could complete is refused, and the refusal kept as a challenge born consumed. */
  function OpenStepUp(cfg: Settings, s: Store, user: Id, app: Id, r: Ruling, hasFactor: bool, now: Time, cid: Id): (Store, LoginResponse) {
    var row := Challenge(user, app, RiskOf(r), now + cfg.challengeTtl, if hasFactor then None else Some(now), None, false,
      if hasFactor then None else Some("no_second_factor"));
    var s' := s.(auth := s.auth.(challenges := s.auth.challenges[cid := row]));
    if hasFactor then (s', Ruled(user, r).(challenge := Some(cid), unusual := Unusual(r)))
    else
      (s', Bare(SECOND_FACTOR_MISSING).(user := Some(user), action := Some(r.action),
        event := if r.decision.Some? then Some(r.decision.value.event) else None))
  }

  /** The risk engine's side of one login: the tenant's cached policy, its answer if any, and the event's id. */
  datatype Engine = Engine(policy: Option<Policy>, pdp: Option<Decision>, event: Id)

  function Enforcement(cfg: Settings, o: Oracles, s: Store, user: Id, a: Attempt, r: Ruling, now: Time, drawn: Fresh, cid: Id): (Store, LoginResponse) {
    match r.action
    case BLOCK => (s, Ruled(user, r))
    case ALLOW => Issue(cfg, o, s, user, a, r, MayOffer(s, user, r), now, drawn)
    case _ => OpenStepUp(cfg, s, user, a.app, r, HasSecondFactor(cfg, s, user), now, cid)
  }

  /** A whole login with nobody between its transactions. */
  ghost function Alone(cfg: Settings, o: Oracles, s: Store, a: Attempt, e: Engine, now: Time, drawn: Fresh, cid: Id): (Store, LoginResponse) {
    match Check(s.dir, o, a)
    case Refused(answer) => (s, answer)
    case WrongPassword(_) => (s, Bare(INVALID_CREDENTIALS))
    case Passed(user, always) => Enforcement(cfg, o, s, user, a, Rule(cfg, e.policy, e.pdp, e.event, always), now, drawn, cid)
  }

  // ------------------------------------------------------------- completing a step-up

  const NO_CHALLENGE_STATUS := 400
  const NO_CHALLENGE := "unknown or expired challenge"

  /** A challenge that may still be answered. */
  predicate Open(challenges: map<Id, Challenge>, cid: Id, now: Time) {
    cid in challenges && challenges[cid].consumedAt.None? && now < challenges[cid].expiresAt
  }

  function WithRisk(base: LoginResponse, risk: Risk): LoginResponse {
    base.(event := risk.event, action := Some(risk.action), score := risk.score, level := risk.level, reasons := risk.reasons)
  }

  function Finish(cfg: Settings, o: Oracles, s: Store, cid: Id, now: Time, requested: Option<string>, drawn: Fresh): (Store, LoginResponse)
    requires cid in s.auth.challenges
  {
    var c := s.auth.challenges[cid];
    if !HasAccess(s.dir, c.user, c.app) then
      (s, WithRisk(Bare(ACCESS_DENIED).(user := Some(c.user), detail := ACCESS_DENIED_DETAIL), c.risk))
    else
      var registered := if c.app in s.dir.apps then s.dir.apps[c.app].redirectUri else None;
      var target := MatchRedirect(registered, requested);
      var s1 := s.(auth := s.auth.(challenges := s.auth.challenges[cid := c.(consumedAt := Some(now))]));
      (WithSession(cfg, o, s1, c.user, c.app, now, drawn, false, target),
       WithRisk(Bare(AUTHENTICATED).(user := Some(c.user), session := Some(Token(drawn.token, now + cfg.sessionTtl)),
         redirect := RedirectTo(target, drawn)), c.risk))
  }

  function VerifyOtp(cfg: Settings, o: Oracles, s: Store, cid: Id, code: string, now: Time, requested: Option<string>, drawn: Fresh):
    (Store, Result<LoginResponse>)
  {
    if !cfg.mockOtp then (s, Err(404, "not found"))
    else if !Open(s.auth.challenges, cid, now) then (s, Err(NO_CHALLENGE_STATUS, NO_CHALLENGE))
    else if code != cfg.otpCode then (s, Ok(Bare(INVALID_CREDENTIALS)))
    else
      var (s', r) := Finish(cfg, o, s, cid, now, requested, drawn);
      (s', Ok(r))
  }

  /** The ceremony's options: the user's passkeys, and a nonce kept on the challenge. */
  function WebAuthnOptions(s: Store, cid: Id, now: Time, nonce: Bytes): (Store, Result<set<Id>>) {
    if !Open(s.auth.challenges, cid, now) then (s, Err(NO_CHALLENGE_STATUS, NO_CHALLENGE))
    else if !HasPasskey(s.auth.credentials, s.auth.challenges[cid].user) then (s, Err(400, "no passkey for this user"))
    else
      var c := s.auth.challenges[cid];
      (s.(auth := s.auth.(challenges := s.auth.challenges[cid := c.(nonce := Some(nonce), ceremony := true)])),
       Ok(set k | k in s.auth.credentials && s.auth.credentials[k].user == c.user))
  }

  /** A passkey of the challenge's user that answers its nonce, and the counter it reports. */
  function Assert(o: Oracles, s: Store, c: Challenge, answer: Assertion): Option<int>
    requires c.nonce.Some?
  {
    if answer.id.None? || answer.id.value !in s.auth.credentials then None
    else
      var k := s.auth.credentials[answer.id.value];
      if k.user != c.user then None else o.verifyGet(answer, c.nonce.value, k.publicKey, k.signCount)
  }

  function Counted(s: Store, k: Id, count: int): Store
    requires k in s.auth.credentials
  {
    s.(auth := s.auth.(credentials := s.auth.credentials[k := s.auth.credentials[k].(signCount := count)]))
  }

  /** The counter is written before the role is looked at, and stays written when it is gone. */
  function VerifyWebAuthn(cfg: Settings, o: Oracles, s: Store, cid: Id, answer: Assertion, now: Time, requested: Option<string>, drawn: Fresh):
    (Store, Result<LoginResponse>)
  {
    if !Open(s.auth.challenges, cid, now) then (s, Err(NO_CHALLENGE_STATUS, NO_CHALLENGE))
    else
      var c := s.auth.challenges[cid];
      if c.nonce.None? || c.nonce.value == [] || !c.ceremony then (s, Err(NO_CHALLENGE_STATUS, NO_CHALLENGE))
      else
        var count := Assert(o, s, c, answer);
        if count.None? then (s, Ok(Bare(INVALID_CREDENTIALS)))
        else
          var (s', r) := Finish(cfg, o, Counted(s, answer.id.value, count.value), cid, now, requested, drawn);
          (s', Ok(r))
  }

  // ------------------------------------------------------------- sessions

  datatype UserView = UserView(tenant: Id, user: Id, email: string, isAdmin: bool)
  datatype Exchanged = Exchanged(session: Token, user: UserView)

  function View(d: Directory, u: Id): UserView
    requires u in d.users
  {
    UserView(d.users[u].tenant, u, d.users[u].email, d.users[u].isAdmin)
  }

  predicate Live(sessions: map<string, Session>, h: string, now: Time) {
    h in sessions && now < sessions[h].expiresAt
  }

  predicate Redeemable(s: Store, k: string, now: Time) {
    && k in s.auth.codes && s.auth.codes[k].consumedAt.None? && now < s.auth.codes[k].expiresAt
    && Live(s.auth.sessions, s.auth.codes[k].session, now)
    && s.auth.codes[k].user in s.dir.users && s.dir.users[s.auth.codes[k].user].enabled
  }

  /** Same session, new token: the hosted page's copy stops working. */
  function Exchange(o: Oracles, s: Store, code: string, now: Time, drawn: Fresh): (Store, Result<Exchanged>) {
    var k := o.hash(code);
    if !Redeemable(s, k, now) then (s, Err(400, "unknown or expired code"))
    else
      var row := s.auth.codes[k];
      var held := s.auth.sessions[row.session];
      var rotated := s.auth.sessions[o.hash(drawn.token) := Session(held.user, held.app, held.expiresAt, None, None)] - {row.session};
      (s.(auth := s.auth.(codes := s.auth.codes[k := row.(consumedAt := Some(now))], sessions := rotated)),
       Ok(Exchanged(Token(drawn.token, held.expiresAt), View(s.dir, row.user))))
  }

  /** `None` is a missing or malformed Authorization header. */
  function Logout(o: Oracles, s: Store, raw: Option<string>): Store {
    if raw.None? then s else s.(auth := s.auth.(sessions := s.auth.sessions - {o.hash(raw.value)}))
  }

  datatype Loaded = Loaded(session: Session, user: UserView, permissions: set<string>)

  const NO_SESSION: Result<Loaded> := Err(401, "missing or expired session")

  function LoadSession(o: Oracles, s: Store, raw: Option<string>, now: Time): Result<Loaded> {
    if raw.None? || !Live(s.auth.sessions, o.hash(raw.value), now) then NO_SESSION
    else
      var row := s.auth.sessions[o.hash(raw.value)];
      if row.user !in s.dir.users || !s.dir.users[row.user].enabled then NO_SESSION
      else Ok(Loaded(row, View(s.dir, row.user), EffectivePermissions(s.dir, row.user, row.app)))
  }

  // ------------------------------------------------------------- the outer layer

  /** The code of the only reason that is passed on, about the account's own pause. */
  const PUBLIC_REASON := "account_cooldown"

  function PublicReasons(rs: seq<Reason>): seq<Reason> {
    if rs == [] then []
    else (if rs[0].code == PUBLIC_REASON then [rs[0]] else []) + PublicReasons(rs[1..])
  }

  /** An answer as it leaves the service. */
  function Public(r: LoginResponse): LoginResponse {
    r.(action := None, score := None, level := None, reasons := PublicReasons(r.reasons))
  }

  ghost predicate HasClientId(d: Directory, clientId: string, a: Id) {
    a in d.apps && d.apps[a].clientId == Some(clientId)
  }

  /** The application a public client id stands for; an unknown one is passed on as an id it is hoped nobody has. */
  ghost function ResolveClient(d: Directory, clientId: Option<string>, app: Id): Id {
    if clientId.None? then app
    else if a :| HasClientId(d, clientId.value, a) && a != "" then a
    else "unknown:" + clientId.value
  }
}
