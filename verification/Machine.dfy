/**
 The identity provider as a state machine. A step is one transaction of one
 request, so a login is several steps between which anyone else may act: the
 credential check, the ruling, the look for a passkey, and the enforcement.

 `Exec` is total: a step that does not apply changes nothing. `World` carries,
 beside the configuration, the log of the run so far and a history of who made
 what, which no step reads.
 */
module Machine {
  import opened Wrappers
  import opened Models
  import opened Login
  import opened Enrollment
  import Admin
  import Passkeys
  import Seed

  // ------------------------------------------------------------- the machine

  /** How far one login has got. */
  datatype Thread =
    | Routed(attempt: Attempt)
    | Checked(attempt: Attempt, user: Id, always: bool)
    | Ruled(attempt: Attempt, user: Id, always: bool, ruling: Ruling)
    | Ready(attempt: Attempt, user: Id, always: bool, ruling: Ruling, flag: bool)
    | Done(answer: LoginResponse)

  datatype Config = Config(store: Store, now: Time, threads: map<Id, Thread>)

  datatype Label =
    | Tick(seconds: nat)
    | StartApp(thread: Id, app: Id, email: string, password: string, requested: Option<string>)
    | StartConsole(thread: Id, email: string, password: string)
    | CheckPassword(thread: Id)
    | Decide(thread: Id, policy: Option<Policy>, pdp: Option<Decision>, event: Id)
    | Look(thread: Id)
    | Enforce(thread: Id, drawn: Fresh, challenge: Id)
    | StepUpOtp(challenge: Id, otp: string, requested: Option<string>, drawn: Fresh)
    | StepUpOptions(challenge: Id, nonce: Bytes)
    | StepUpPasskey(challenge: Id, answer: Assertion, requested: Option<string>, drawn: Fresh)
    | Redeem(code: string, drawn: Fresh)
    | SignOut(raw: Option<string>)
    | EnrollOptions(raw: Option<string>, nonce: Bytes)
    | EnrollVerify(raw: Option<string>, answer: Assertion)
    | ActivateOptions(code: string, password: string, nonce: Bytes)
    | ActivateVerify(code: string, answer: Assertion)
    | Manage(op: Admin.Operator, call: Admin.Call)
    | AddTenant(tenant: Id, name: string, branding: Branding, domains: seq<string>, randoms: Seed.Randoms)
    | EditTenant(tenant: Id, patch: Admin.TenantPatch)
    | ImportKeys(items: seq<Passkeys.Item>)
    | Reseed(specs: seq<Seed.TenantSpec>, randoms: Seed.Randoms)

  datatype Reply =
    | Silent
    | Said(answer: LoginResponse)
    | Redeemed(exchanged: Result<Exchanged>)
    | Ceremony(passkeys: Result<set<Id>>)
    | Enrolling(user: Result<Id>)
    | Enrolled(ok: Result<()>)
    | StepUp(login: Result<LoginResponse>)
    | Managed(result: Result<Admin.Answer>)

  function With(c: Config, s: Store, r: Reply): (Config, Reply) { (c.(store := s), r) }

  function Move(c: Config, th: Id, t: Thread): (Config, Reply) {
    (c.(threads := c.threads[th := t]), if t.Done? then Said(t.answer) else Silent)
  }

  ghost function Checking(o: Oracles, c: Config, th: Id): (Config, Reply)
    requires th in c.threads && c.threads[th].Routed?
  {
    var a := c.threads[th].attempt;
    match Check(c.store.dir, o, a)
    case Refused(answer) => Move(c, th, Done(answer))
    case WrongPassword(_) => Move(c, th, Done(Bare(INVALID_CREDENTIALS)))
    case Passed(user, always) => Move(c, th, Checked(a, user, always))
  }

  function Deciding(cfg: Settings, c: Config, th: Id, policy: Option<Policy>, pdp: Option<Decision>, event: Id): (Config, Reply)
    requires th in c.threads && c.threads[th].Checked?
  {
    var t := c.threads[th];
    var r := Rule(cfg, policy, pdp, event, t.always);
    if r.action == BLOCK then Move(c, th, Done(Login.Ruled(t.user, r)))
    else Move(c, th, Ruled(t.attempt, t.user, t.always, r))
  }

  predicate Flag(cfg: Settings, s: Store, user: Id, r: Ruling) {
    if r.action == ALLOW then MayOffer(s, user, r) else HasSecondFactor(cfg, s, user)
  }

  function Looking(cfg: Settings, c: Config, th: Id): (Config, Reply)
    requires th in c.threads && c.threads[th].Ruled?
  {
    var t := c.threads[th];
    Move(c, th, Ready(t.attempt, t.user, t.always, t.ruling, Flag(cfg, c.store, t.user, t.ruling)))
  }

  function Enforcing(cfg: Settings, o: Oracles, c: Config, th: Id, drawn: Fresh, cid: Id): (Config, Reply)
    requires th in c.threads && c.threads[th].Ready?
  {
    var t := c.threads[th];
    var (s, answer) :=
      if t.ruling.action == ALLOW then Issue(cfg, o, c.store, t.user, t.attempt, t.ruling, t.flag, c.now, drawn)
      else OpenStepUp(cfg, c.store, t.user, t.attempt.app, t.ruling, t.flag, c.now, cid);
    Move(c.(store := s), th, Done(answer))
  }

  function Starting(c: Config, th: Id, attempt: Option<Attempt>, otherwise: LoginResponse): (Config, Reply) {
    Move(c, th, if attempt.Some? then Routed(attempt.value) else Done(otherwise))
  }

  function Importing(c: Config, items: seq<Passkeys.Item>): Store {
    var after := Passkeys.Import(c.store.dir.users.Keys, c.store.auth.credentials, items);
    if after.None? then c.store else c.store.(auth := c.store.auth.(credentials := after.value))
  }

  /** A start of the service seeds again; a seed that breaks a constraint is undone as a whole. */
  function Reseeding(c: Config, specs: seq<Seed.TenantSpec>, rnd: Seed.Randoms): Store {
    var after := Seed.SeedIdentity(c.store.dir, specs, rnd);
    if after.None? then c.store else c.store.(dir := after.value)
  }

  ghost function Exec(cfg: Settings, o: Oracles, c: Config, l: Label): (Config, Reply) {
    match l
    case Tick(seconds) => (c.(now := c.now + seconds), Silent)
    case StartApp(th, app, email, password, requested) =>
      if th in c.threads || RouteApp(c.store.dir, app, email, password, requested).Err? then (c, Silent)
      else Starting(c, th, Some(RouteApp(c.store.dir, app, email, password, requested).value), Bare(INVALID_CREDENTIALS))
    case StartConsole(th, email, password) =>
      if th in c.threads then (c, Silent)
      else Starting(c, th, RouteConsole(c.store.dir, email, password), Bare(INVALID_CREDENTIALS))
    case CheckPassword(th) =>
      if th in c.threads && c.threads[th].Routed? then Checking(o, c, th) else (c, Silent)
    case Decide(th, policy, pdp, event) =>
      if th in c.threads && c.threads[th].Checked? then Deciding(cfg, c, th, policy, pdp, event) else (c, Silent)
    case Look(th) =>
      if th in c.threads && c.threads[th].Ruled? then Looking(cfg, c, th) else (c, Silent)
    case Enforce(th, drawn, cid) =>
      if th in c.threads && c.threads[th].Ready? then Enforcing(cfg, o, c, th, drawn, cid) else (c, Silent)
    case StepUpOtp(cid, otp, requested, drawn) =>
      var (s, r) := VerifyOtp(cfg, o, c.store, cid, otp, c.now, requested, drawn);
      With(c, s, StepUp(r))
    case StepUpOptions(cid, nonce) =>
      var (s, r) := WebAuthnOptions(c.store, cid, c.now, nonce);
      With(c, s, Ceremony(r))
    case StepUpPasskey(cid, answer, requested, drawn) =>
      var (s, r) := VerifyWebAuthn(cfg, o, c.store, cid, answer, c.now, requested, drawn);
      With(c, s, StepUp(r))
    case Redeem(code, drawn) =>
      var (s, r) := Exchange(o, c.store, code, c.now, drawn);
      With(c, s, Redeemed(r))
    case SignOut(raw) => With(c, Logout(o, c.store, raw), Silent)
    case EnrollOptions(raw, nonce) =>
      var (s, r) := SessionOptions(o, c.store, raw, c.now, nonce);
      With(c, s, Enrolling(r))
    case EnrollVerify(raw, answer) =>
      var (s, r) := SessionVerify(o, c.store, raw, answer, c.now);
      With(c, s, Enrolled(r))
    case ActivateOptions(code, password, nonce) =>
      var (s, r) := ActivationOptions(o, c.store, code, password, c.now, nonce);
      With(c, s, Enrolling(r))
    case ActivateVerify(code, answer) =>
      var (s, r) := ActivationVerify(o, c.store, code, answer, c.now);
      With(c, s, Enrolled(r))
    case Manage(op, call) =>
      var (s, r) := Admin.Execute(c.store, op, call);
      With(c, s, Managed(r))
    case AddTenant(t, name, branding, domains, rnd) =>
      var (s, r) := Admin.CreateTenant(c.store, t, name, branding, domains, rnd);
      With(c, s, Managed(r))
    case EditTenant(t, p) =>
      var (s, r) := Admin.PatchTenant(c.store, t, p);
      With(c, s, Managed(r))
    case ImportKeys(items) => With(c, Importing(c, items), Silent)
    case Reseed(specs, rnd) => With(c, Reseeding(c, specs, rnd), Silent)
  }

  // ------------------------------------------------------------- the run so far

  /** A configuration and the step taken from it. */
  datatype Moment = Moment(config: Config, took: Label)

  /** One login's path to its enforcement: what it was told, and at which steps of the log. */
  datatype Story = Story(
    attempt: Attempt, user: Id, always: bool, ruling: Ruling, flag: bool, check: nat, rule: nat, look: nat)

  /** The login a challenge was opened by. */
  datatype Opening = Opening(thread: Id, story: Story)

  datatype How =
    | ByLogin(thread: Id, story: Story)
    | ByStepUp(challenge: Id, opening: Opening)
    | ByExchange(parent: string, code: string)

  /** A session that was ever created: its terms, when and how it came to be, and the one it descends from. */
  datatype Life = Life(user: Id, app: Id, expiresAt: Time, at: Time, step: nat, how: How, root: string)

  /** Where a stored passkey came from. */
  datatype Door =
    | Initially
    | Imported(step: nat)
    | BySession(session: string, step: nat)
    | ByActivation(code: string, unlocked: nat, step: nat)

  datatype History = History(
    stories: map<Id, Story>, lives: map<string, Life>, openings: map<Id, Opening>, doors: map<Id, Door>, unlocked: map<string, nat>)

  datatype World = World(config: Config, log: seq<Moment>, hist: History)

  function Tell(t: Thread, before: Story, k: nat): Story {
    match t
    case Checked(a, u, al) => before.(attempt := a, user := u, always := al, check := k)
    case Ruled(_, _, _, r) => before.(ruling := r, rule := k)
    case Ready(_, _, _, _, flag) => before.(flag := flag, look := k)
    case _ => before
  }

  function Untold(a: Attempt): Story { Story(a, "", false, Ruling(BLOCK, None), false, 0, 0, 0) }

  predicate Appeared<V>(before: map<string, V>, after: map<string, V>, k: string) { k !in before && k in after }

  /** The thread a label belongs to, with its state after the step. */
  predicate Told(l: Label) { l.CheckPassword? || l.Decide? || l.Look? }

  function TellOne(h: History, c': Config, l: Label, k: nat): History
    requires Told(l)
  {
    if l.thread !in c'.threads || c'.threads[l.thread].Done? || c'.threads[l.thread].Routed? then h
    else
      var t := c'.threads[l.thread];
      h.(stories := h.stories[l.thread := Tell(t, if l.thread in h.stories then h.stories[l.thread] else Untold(t.attempt), k)])
  }

  function Enforced(o: Oracles, h: History, c: Config, c': Config, l: Label, k: nat): History
    requires l.Enforce?
  {
    if l.thread !in h.stories then h
    else
      var story, hash := h.stories[l.thread], o.hash(l.drawn.token);
      var h1 := if !Appeared(c.store.auth.challenges, c'.store.auth.challenges, l.challenge) then h
        else h.(openings := h.openings[l.challenge := Opening(l.thread, story)]);
      if !Appeared(c.store.auth.sessions, c'.store.auth.sessions, hash) then h1
      else
        var row := c'.store.auth.sessions[hash];
        h1.(lives := h1.lives[hash := Life(row.user, row.app, row.expiresAt, c.now, k, ByLogin(l.thread, story), hash)])
  }

  function SteppedUp(o: Oracles, h: History, c: Config, c': Config, cid: Id, drawn: Fresh, k: nat): History {
    var hash := o.hash(drawn.token);
    if !Appeared(c.store.auth.sessions, c'.store.auth.sessions, hash) || cid !in h.openings then h
    else
      var row := c'.store.auth.sessions[hash];
      h.(lives := h.lives[hash := Life(row.user, row.app, row.expiresAt, c.now, k, ByStepUp(cid, h.openings[cid]), hash)])
  }

  function Rotated(o: Oracles, h: History, c: Config, c': Config, code: string, drawn: Fresh, k: nat): History {
    var hash, key := o.hash(drawn.token), o.hash(code);
    if !Appeared(c.store.auth.sessions, c'.store.auth.sessions, hash) || key !in c.store.auth.codes then h
    else
      var row, parent := c'.store.auth.sessions[hash], c.store.auth.codes[key].session;
      var root := if parent in h.lives then h.lives[parent].root else parent;
      h.(lives := h.lives[hash := Life(row.user, row.app, row.expiresAt, c.now, k, ByExchange(parent, key), root)])
  }

  /** Every passkey that appeared came through this door. */
  function Entered(h: History, c: Config, c': Config, door: Door): History {
    h.(doors := h.doors + map x | x in c'.store.auth.credentials && x !in c.store.auth.credentials :: door)
  }

  function Record(o: Oracles, h: History, c: Config, c': Config, l: Label, k: nat): History {
    match l
    case CheckPassword(_) => if c' == c then h else TellOne(h, c', l, k)
    case Decide(_, _, _, _) => if c' == c then h else TellOne(h, c', l, k)
    case Look(_) => if c' == c then h else TellOne(h, c', l, k)
    case Enforce(_, _, _) => Enforced(o, h, c, c', l, k)
    case StepUpOtp(cid, _, _, drawn) => SteppedUp(o, h, c, c', cid, drawn, k)
    case StepUpPasskey(cid, _, _, drawn) => SteppedUp(o, h, c, c', cid, drawn, k)
    case Redeem(code, drawn) => Rotated(o, h, c, c', code, drawn, k)
    case EnrollVerify(raw, _) => if raw.None? then h else Entered(h, c, c', BySession(o.hash(raw.value), k))
    case ActivateOptions(code, password, _) =>
      if Unlocks(o, c.store, HashCode(o, code), password, c.now) then h.(unlocked := h.unlocked[HashCode(o, code) := k]) else h
    case ActivateVerify(code, _) =>
      var key := HashCode(o, code);
      Entered(h, c, c', ByActivation(key, if key in h.unlocked then h.unlocked[key] else 0, k))
    case ImportKeys(_) => Entered(h, c, c', Imported(k))
    case _ => h
  }

  ghost function Next(cfg: Settings, o: Oracles, w: World, l: Label): World {
    var c' := Exec(cfg, o, w.config, l).0;
    World(c', w.log + [Moment(w.config, l)], Record(o, w.hist, w.config, c', l, |w.log|))
  }

  // ------------------------------------------------------------- which runs there are

  /** A token nobody was ever given, a code and a challenge id nobody holds. */
  ghost predicate Unused(o: Oracles, w: World, drawn: Fresh) {
    && o.hash(drawn.token) !in w.hist.lives && o.hash(drawn.token) !in w.config.store.auth.sessions
    && o.hash(drawn.code) !in w.config.store.auth.codes
  }

  /**
   Random values are fresh. Everything may happen at any time: any request of any
   operator, tenants created over ids that are taken, and the service seeding again.
   */
  ghost predicate Allowed(o: Oracles, w: World, l: Label) {
    match l
    case Enforce(_, drawn, cid) => Unused(o, w, drawn) && cid !in w.config.store.auth.challenges
    case StepUpOtp(_, _, _, drawn) => Unused(o, w, drawn)
    case StepUpPasskey(_, _, _, drawn) => Unused(o, w, drawn)
    case Redeem(_, drawn) => Unused(o, w, drawn)
    case _ => true
  }

  /** Any directory and any passkeys, and nobody signed in. */
  ghost predicate Initial(w: World) {
    && w.config.store.auth.sessions == map[] && w.config.store.auth.challenges == map[]
    && w.config.store.auth.codes == map[] && w.config.store.auth.activations == map[]
    && w.config.threads == map[] && w.log == []
    && w.hist.stories == map[] && w.hist.lives == map[] && w.hist.openings == map[] && w.hist.unlocked == map[]
    && w.hist.doors.Keys == w.config.store.auth.credentials.Keys
    && (forall k :: k in w.hist.doors ==> w.hist.doors[k] == Initially)
  }

  ghost predicate Run(cfg: Settings, o: Oracles, w: World, ls: seq<Label>)
    decreases |ls|
  {
    ls != [] ==> Allowed(o, w, ls[0]) && Run(cfg, o, Next(cfg, o, w, ls[0]), ls[1..])
  }

  ghost function After(cfg: Settings, o: Oracles, w: World, ls: seq<Label>): World
    decreases |ls|
  {
    if ls == [] then w else After(cfg, o, Next(cfg, o, w, ls[0]), ls[1..])
  }
}
