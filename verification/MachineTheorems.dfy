/**
 What holds in every run of the identity provider, from any directory with nobody
 signed in, under any interleaving of logins, step-ups, enrollments, exchanges,
 imports, admin requests and seeds. Nothing here needs the directory to be valid:
 a tenant created over another's ids does not change where sessions come from.
 */
module MachineTheorems {
  import opened Wrappers
  import opened Models
  import opened Authz
  import opened Login
  import opened DirectoryInvariant
  import opened Machine
  import opened MachineInvariant
  import opened MachineSteps
  import opened MachineFrame

  // ------------------------------------------------------------- session lineage

  /** On its root's user and application, until exactly the session lifetime after the root began. */
  ghost predicate Descends(cfg: Settings, lives: map<string, Life>, h: string) {
    && h in lives && lives[h].root in lives
    && var life, root := lives[h], lives[lives[h].root];
    && Root(root) && root.root == life.root
    && life.user == root.user && life.app == root.app && life.expiresAt == root.at + cfg.sessionTtl
  }

  lemma LifeDescends(cfg: Settings, o: Oracles, log: Log, c: Config, lives: map<string, Life>, h: string)
    requires LivesOk(cfg, o, log, c, lives) && h in lives
    ensures Descends(cfg, lives, h)
    ensures lives[h].how.ByExchange? ==>
      var how := lives[h].how;
      && lives[h].root == how.parent && how.parent !in c.store.auth.sessions
      && how.code in c.store.auth.codes && c.store.auth.codes[how.code].session == how.parent
    ensures !lives[h].how.ByExchange? ==> lives[h].root == h
  {
    hide SessionsOk, CodesOk, OneEach, TellsAll, IssuedAt, FactorAt;
    assert LifeOk(cfg, o, log, c, lives, h);
    if lives[h].how.ByExchange? {
      assert LifeOk(cfg, o, log, c, lives, lives[h].how.parent);
    }
  }

  lemma OneChild(cfg: Settings, o: Oracles, log: Log, c: Config, lives: map<string, Life>, g: string, h: string)
    requires LivesOk(cfg, o, log, c, lives) && g in lives && h in lives && lives[g].root == lives[h].root
    requires lives[g].how.ByExchange? && lives[h].how.ByExchange?
    ensures g == h
  {
  }

  /**
   Every live session descends from one root, with the root's user, application
   and expiry; no lineage has two live tokens, and none is rotated twice.
   */
  ghost predicate Lineages(cfg: Settings, w: World) {
    var sessions, lives := w.config.store.auth.sessions, w.hist.lives;
    && (forall h :: h in sessions ==> Descends(cfg, lives, h) && RowIs(sessions, h, lives[h]))
    && (forall g, h :: g in sessions && h in sessions && g in lives && h in lives && lives[g].root == lives[h].root ==> g == h)
    && (forall g, h :: g in lives && h in lives && lives[g].how.ByExchange? && lives[h].how.ByExchange? && lives[g].root == lives[h].root
          ==> g == h)
  }

  lemma SessionLineage(cfg: Settings, o: Oracles, w: World)
    requires LivesOk(cfg, o, w.log, w.config, w.hist.lives)
    ensures Lineages(cfg, w)
  {
    var sessions, lives := w.config.store.auth.sessions, w.hist.lives;
    hide CodesOk, OneEach, LifeOk, Descends;
    forall h | h in sessions ensures Descends(cfg, lives, h) && RowIs(sessions, h, lives[h]) {
      LifeDescends(cfg, o, w.log, w.config, lives, h);
    }
    forall g, h | g in lives && h in lives && lives[g].how.ByExchange? && lives[h].how.ByExchange? && lives[g].root == lives[h].root
      ensures g == h {
      OneChild(cfg, o, w.log, w.config, lives, g, h);
    }
    forall g, h | g in sessions && h in sessions && g in lives && h in lives && lives[g].root == lives[h].root ensures g == h {
      LifeDescends(cfg, o, w.log, w.config, lives, g);
      LifeDescends(cfg, o, w.log, w.config, lives, h);
    }
  }

  /** A token that was rotated away or signed out never loads again, whatever happens next. */
  lemma GoneNeverLoads(cfg: Settings, o: Oracles, w: World, ls: seq<Label>, raw: string, now: Time)
    requires Run(cfg, o, w, ls) && o.hash(raw) in w.hist.lives && o.hash(raw) !in w.config.store.auth.sessions
    ensures LoadSession(o, After(cfg, o, w, ls).config.store, Some(raw), now) == NO_SESSION
  {
    hide Run, After, AuthAdvances, LivesGrow;
    RunIsLater(cfg, o, w, ls);
  }

  // ------------------------------------------------------------- why a session exists

  /** This login was checked at that step, and the password, the tenant and the role were right. */
  ghost predicate PasswordShown(o: Oracles, log: Log, th: Id, st: Story, user: Id, app: Id) {
    && st.check < |log| && log[st.check].took == CheckPassword(th)
    && st.attempt.app == app && Verified(log[st.check].config.store.dir, o, st.attempt, user)
  }

  ghost predicate AllowedIn(cfg: Settings, o: Oracles, log: Log, root: Life) {
    && root.how.ByLogin?
    && PasswordShown(o, log, root.how.thread, root.how.story, root.user, root.app)
    && TellsRule(cfg, log, root.how.thread, root.how.story) && root.how.story.ruling.action == ALLOW
    && root.how.story.check < root.step
  }

  /** The challenge was opened by a login that showed the password, and was completed in time, with a factor and a role. */
  ghost predicate SteppedIn(cfg: Settings, o: Oracles, log: Log, h: string, root: Life) {
    && root.how.ByStepUp?
    && var st := root.how.opening.story;
    && PasswordShown(o, log, root.how.opening.thread, st, root.user, root.app)
    && TellsRule(cfg, log, root.how.opening.thread, st) && st.ruling.action in {REQUIRE_MFA, REAUTHENTICATE}
    && st.check < root.step && FactorAt(cfg, o, log, root.step, root.how.challenge, h)
  }

  lemma PassedShows(o: Oracles, log: Log, th: Id, st: Story)
    requires TellsCheck(o, log, th, st)
    ensures PasswordShown(o, log, th, st, st.user, st.attempt.app)
  {
  }

  lemma RootIsJustified(cfg: Settings, o: Oracles, log: Log, c: Config, lives: map<string, Life>, h: string)
    requires LivesOk(cfg, o, log, c, lives) && h in lives && Root(lives[h])
    ensures AllowedIn(cfg, o, log, lives[h]) || SteppedIn(cfg, o, log, h, lives[h])
  {
    hide SessionsOk, CodesOk, OneEach, RuledAt, TellsCheck, FactorAt, Verified;
    assert LifeOk(cfg, o, log, c, lives, h);
    if lives[h].how.ByLogin? {
      PassedShows(o, log, lives[h].how.thread, lives[h].how.story);
    } else {
      var opening := lives[h].how.opening;
      PassedShows(o, log, opening.thread, opening.story);
      assert opening.story.ruling.action in {REQUIRE_MFA, REAUTHENTICATE};
    }
  }

  /**
   The root of every session's lineage is justified by what happened: a right
   password of that user with a role, then either an ALLOW or a completed challenge.
   The user and the application still belong to the same tenant.
   */
  ghost predicate Justified(cfg: Settings, o: Oracles, w: World) {
    forall h :: h in w.config.store.auth.sessions ==>
      Descends(cfg, w.hist.lives, h) && RootJustified(cfg, o, w.log, w.hist.lives, w.hist.lives[h].root)
      && SharesTenant(w.config.store.dir, w.config.store.auth.sessions[h].user, w.config.store.auth.sessions[h].app)
  }

  ghost predicate RootJustified(cfg: Settings, o: Oracles, log: Log, lives: map<string, Life>, r: string) {
    r in lives && (AllowedIn(cfg, o, log, lives[r]) || SteppedIn(cfg, o, log, r, lives[r]))
  }

  lemma EverySessionIsJustified(cfg: Settings, o: Oracles, w: World)
    requires LivesOk(cfg, o, w.log, w.config, w.hist.lives)
    requires TenantsOk(w.config.store.dir, w.config.threads, w.config.store.auth.challenges, w.hist.lives)
    ensures Justified(cfg, o, w)
  {
    hide CodesOk, OneEach, LifeOk, AllowedIn, SteppedIn, SharesTenant;
    forall h | h in w.config.store.auth.sessions
      ensures Descends(cfg, w.hist.lives, h) && RootJustified(cfg, o, w.log, w.hist.lives, w.hist.lives[h].root)
    {
      LifeDescends(cfg, o, w.log, w.config, w.hist.lives, h);
      RootIsJustified(cfg, o, w.log, w.config, w.hist.lives, w.hist.lives[h].root);
    }
  }

  // ------------------------------------------------------------- single use

  /**
   Consumption marks are write-once: a challenge, a callback code or an activation
   code that was consumed keeps its mark, and its terms, for the rest of any run.
   */
  lemma MarksAreWriteOnce(cfg: Settings, o: Oracles, w: World, ls: seq<Label>)
    requires Run(cfg, o, w, ls)
    ensures var a, b := w.config.store.auth, After(cfg, o, w, ls).config.store.auth;
      ChallengesAdvance(a.challenges, b.challenges) && CodesAdvance(a.codes, b.codes) && ActivationsAdvance(a.activations, b.activations)
  {
    hide Run, After, ChallengesAdvance, CodesAdvance, ActivationsAdvance;
    RunIsLater(cfg, o, w, ls);
  }

  /**
   A login and a challenge yield at most one session and a refused challenge none; a
   callback code is exchanged at most once; a marked session and an activation code
   enroll at most one passkey each; a user has at most one code that still works.
   */
  ghost predicate SpentOnce(w: World) {
    var lives := w.hist.lives;
    && OneEach(lives)
    && (forall h :: h in lives && lives[h].how.ByStepUp? ==> NotRefused(w.config.store.auth.challenges, lives[h].how.challenge))
    && (forall j, k :: j in w.hist.doors && k in w.hist.doors && SameDoor(w.hist.doors[j], w.hist.doors[k]) ==> j == k)
    && OneCodeEach(w.config.store.auth.activations)
  }

  ghost predicate NotRefused(challenges: map<Id, Challenge>, cid: Id) {
    cid in challenges && challenges[cid].deniedReason.None? && challenges[cid].consumedAt.Some?
  }

  lemma EverythingIsSpentOnce(cfg: Settings, o: Oracles, w: World)
    requires LivesOk(cfg, o, w.log, w.config, w.hist.lives) && OneCodeEach(w.config.store.auth.activations)
    requires DoorsOk(cfg, o, w.log, w.config.store.auth, w.hist.lives, w.hist.doors)
    ensures SpentOnce(w)
  {
  }

  // ------------------------------------------------------------- where passkeys come from

  /**
   Every stored passkey was there at first, or was imported, or came through one of
   the two doors: a session opened by a login the engine itself allowed, of a user
   without a passkey, inside its window; or an activation code for that user that was
   open both when the right password was shown and when it was used.
   */
  ghost predicate Provenance(cfg: Settings, o: Oracles, initially: set<Id>, w: World) {
    forall k :: k in w.config.store.auth.credentials ==> k in w.hist.doors && CameThrough(cfg, o, initially, w, k, w.hist.doors[k])
  }

  ghost predicate CameThrough(cfg: Settings, o: Oracles, initially: set<Id>, w: World, k: Id, door: Door)
    requires k in w.config.store.auth.credentials
  {
    var user := w.config.store.auth.credentials[k].user;
    match door
    case Initially => k in initially
    case Imported(at) => at < |w.log| && w.log[at].took.ImportKeys?
    case BySession(h, at) =>
      && h in w.hist.lives && w.hist.lives[h].user == user && TrustedLogin(cfg, o, w.log, w.hist.lives[h])
      && EnrolledAt(o, w.log, at, h, w.hist.lives[h].at + cfg.enrollWindow)
    case ByActivation(code, unlocked, at) =>
      unlocked < at && UnlockedAt(o, w.log, unlocked, code, user) && ActivatedAt(o, w.log, at, code)
  }

  /** A non-fallback ALLOW verdict, enforced as ALLOW, and no passkey when the service looked. */
  ghost predicate TrustedLogin(cfg: Settings, o: Oracles, log: Log, life: Life) {
    && AllowedIn(cfg, o, log, life)
    && var st := life.how.story;
    && st.look < |log| && log[st.look].took == Look(life.how.thread)
    && TrustedContext(st.ruling) && !HasPasskey(log[st.look].config.store.auth.credentials, life.user)
  }

  lemma MarkedIsTrusted(cfg: Settings, o: Oracles, log: Log, c: Config, lives: map<string, Life>, h: string)
    requires LivesOk(cfg, o, log, c, lives) && h in lives && MarkedLife(lives[h])
    ensures TrustedLogin(cfg, o, log, lives[h])
  {
  }

  ghost predicate InitiallyOnly(doors: map<Id, Door>, initially: set<Id>) {
    forall k :: k in doors && doors[k].Initially? ==> k in initially
  }

  lemma EveryPasskeyCameThroughADoor(cfg: Settings, o: Oracles, initially: set<Id>, w: World)
    requires LivesOk(cfg, o, w.log, w.config, w.hist.lives) && InitiallyOnly(w.hist.doors, initially)
    requires DoorsOk(cfg, o, w.log, w.config.store.auth, w.hist.lives, w.hist.doors)
    ensures Provenance(cfg, o, initially, w)
  {
    hide LivesOk, EnrolledAt, UnlockedAt, ActivatedAt, TrustedLogin, MarkedLife;
    forall k | k in w.config.store.auth.credentials ensures CameThrough(cfg, o, initially, w, k, w.hist.doors[k]) {
      assert DoorOk(cfg, o, w.log, w.config.store.auth, w.hist.lives, w.config.store.auth.credentials[k].user, w.hist.doors[k]);
      if w.hist.doors[k].BySession? {
        MarkedIsTrusted(cfg, o, w.log, w.config, w.hist.lives, w.hist.doors[k].session);
      }
    }
  }

  lemma {:induction false} DoorsOpenLater(cfg: Settings, o: Oracles, w: World, ls: seq<Label>, initially: set<Id>)
    requires InitiallyOnly(w.hist.doors, initially)
    ensures InitiallyOnly(After(cfg, o, w, ls).hist.doors, initially)
    decreases |ls|
  {
    if ls != [] {
      NewDoorsAreNot(cfg, o, w, ls[0], initially);
      hide Next;
      DoorsOpenLater(cfg, o, Next(cfg, o, w, ls[0]), ls[1..], initially);
    }
  }

  lemma NewDoorsAreNot(cfg: Settings, o: Oracles, w: World, l: Label, initially: set<Id>)
    requires InitiallyOnly(w.hist.doors, initially)
    ensures InitiallyOnly(Next(cfg, o, w, l).hist.doors, initially)
  {
    hide Exec;
  }

  // ------------------------------------------------------------- live authorization

  /** Exactly the unexpired sessions of enabled users load, with exactly the scopes some chain of rows grants now. */
  lemma LoadingIsLiveAndExact(o: Oracles, s: Store, raw: Option<string>, now: Time, x: string)
    ensures LoadSession(o, s, raw, now).Ok? <==>
      raw.Some? && Live(s.auth.sessions, o.hash(raw.value), now) &&
      var u := s.auth.sessions[o.hash(raw.value)].user; u in s.dir.users && s.dir.users[u].enabled
    ensures LoadSession(o, s, raw, now).Ok? ==>
      var l := LoadSession(o, s, raw, now).value;
      && l.session == s.auth.sessions[o.hash(raw.value)] && l.user.user == l.session.user
      && (x in l.permissions <==> Grants(s.dir, l.session.user, l.session.app, x))
  {
    hide EffectivePermissions, Grants;
    if LoadSession(o, s, raw, now).Ok? {
      var row := s.auth.sessions[o.hash(raw.value)];
      EffectiveIsExact(s.dir, row.user, row.app, x);
    }
  }

  /** In every state any user's permissions are on applications of that user's own tenant. */
  ghost predicate PermissionsAtHome(d: Directory) {
    forall u, a :: EffectivePermissions(d, u, a) != {} ==> SharesTenant(d, u, a)
  }

  lemma PermissionsAreAtHome(d: Directory)
    requires Valid(d)
    ensures PermissionsAtHome(d)
  {
  }

  // ------------------------------------------------------------- outages

  /** The risk engine does not answer, and the tenant's known mode is not OFF. */
  predicate InOutage(l: Label) { l.Decide? ==> l.pdp.None? && !EngineOff(l.policy) }

  ghost predicate LogInOutage(log: Log) {
    forall k :: 0 <= k < |log| ==> InOutage(log[k].took)
  }

  lemma NothingIsAllowed(cfg: Settings, log: Log, k: nat, th: Id, a: Attempt, u: Id, always: bool, r: Ruling)
    requires LogInOutage(log) && RuledAt(cfg, log, k, th, a, u, always, r)
    ensures r.action != ALLOW && r.action != BLOCK
  {
  }

  /** Nobody is blocked or offered a passkey, every session began with a completed challenge, and none enrolled anything. */
  ghost predicate SafeOutage(w: World) {
    && (forall th :: th in w.config.threads && w.config.threads[th].Done? ==>
          w.config.threads[th].answer.outcome != BLOCKED && !w.config.threads[th].answer.passkeyOffer)
    && (forall h :: h in w.hist.lives && Root(w.hist.lives[h]) ==> w.hist.lives[h].how.ByStepUp?)
    && (forall k :: k in w.hist.doors && k in w.config.store.auth.credentials ==> !w.hist.doors[k].BySession?)
  }

  lemma OutageIsSafe(cfg: Settings, o: Oracles, w: World)
    requires LogInOutage(w.log) && ThreadsOk(cfg, o, w.log, w.config.threads, w.hist.stories)
    requires LivesOk(cfg, o, w.log, w.config, w.hist.lives)
    requires DoorsOk(cfg, o, w.log, w.config.store.auth, w.hist.lives, w.hist.doors)
    ensures SafeOutage(w)
  {
    hide LogInOutage, LivesOk, RuledAt, TellsCheck, TellsLook, EnrolledAt, UnlockedAt, ActivatedAt, InOutage;
    forall th | th in w.config.threads && w.config.threads[th].Done?
      ensures w.config.threads[th].answer.outcome != BLOCKED && !w.config.threads[th].answer.passkeyOffer
    {
      assert ThreadOk(cfg, o, w.log, w.hist.stories, th, w.config.threads[th]);
      AnswersInOutage(cfg, o, w.log, w.hist.stories, th, w.config.threads[th].answer);
    }
    forall h | h in w.hist.lives && Root(w.hist.lives[h]) ensures w.hist.lives[h].how.ByStepUp? {
      RootIsJustified(cfg, o, w.log, w.config, w.hist.lives, h);
      if w.hist.lives[h].how.ByLogin? {
        var st := w.hist.lives[h].how.story;
        NothingIsAllowed(cfg, w.log, st.rule, w.hist.lives[h].how.thread, st.attempt, st.user, st.always, st.ruling);
      }
    }
  }

  lemma AnswersInOutage(cfg: Settings, o: Oracles, log: Log, stories: map<Id, Story>, th: Id, answer: LoginResponse)
    requires LogInOutage(log) && AnswerEarned(cfg, o, log, stories, th, answer)
    ensures answer.outcome != BLOCKED && !answer.passkeyOffer
  {
    hide LogInOutage, RuledAt, TellsCheck, TellsLook;
    if answer.outcome == BLOCKED {
      var k, a, u, always, r :| RuledAt(cfg, log, k, th, a, u, always, r) && r.action == BLOCK;
      NothingIsAllowed(cfg, log, k, th, a, u, always, r);
    }
    if answer.passkeyOffer {
      var st := stories[th];
      NothingIsAllowed(cfg, log, st.rule, th, st.attempt, st.user, st.always, st.ruling);
    }
  }

  /** Completing a challenge never answers BLOCKED and never offers a passkey, outage or not. */
  lemma StepUpsNeverBlock(cfg: Settings, o: Oracles, s: Store, cid: Id, now: Time, requested: Option<string>, drawn: Fresh, otp: string, answer: Assertion)
    ensures var r := VerifyOtp(cfg, o, s, cid, otp, now, requested, drawn).1;
      r.Ok? ==> r.value.outcome in {AUTHENTICATED, ACCESS_DENIED, INVALID_CREDENTIALS} && !r.value.passkeyOffer
    ensures var r := VerifyWebAuthn(cfg, o, s, cid, answer, now, requested, drawn).1;
      r.Ok? ==> r.value.outcome in {AUTHENTICATED, ACCESS_DENIED, INVALID_CREDENTIALS} && !r.value.passkeyOffer
  {
    hide HasAccess, MatchRedirect, WithSession, RedirectTo, Assert;
  }

  lemma {:induction false} LogOfRun(cfg: Settings, o: Oracles, w: World, ls: seq<Label>)
    requires LogInOutage(w.log) && forall i :: 0 <= i < |ls| ==> InOutage(ls[i])
    ensures LogInOutage(After(cfg, o, w, ls).log)
    decreases |ls|
  {
    hide Exec, Record;
    if ls != [] {
      LogOfRun(cfg, o, Next(cfg, o, w, ls[0]), ls[1..]);
    }
  }

  // ------------------------------------------------------------- every run

  lemma InvGives(cfg: Settings, o: Oracles, w: World)
    requires Inv(cfg, o, w)
    ensures LivesOk(cfg, o, w.log, w.config, w.hist.lives)
    ensures TenantsOk(w.config.store.dir, w.config.threads, w.config.store.auth.challenges, w.hist.lives)
    ensures DoorsOk(cfg, o, w.log, w.config.store.auth, w.hist.lives, w.hist.doors)
    ensures ThreadsOk(cfg, o, w.log, w.config.threads, w.hist.stories) && OneCodeEach(w.config.store.auth.activations)
  {
    hide LivesOk, TenantsOk, DoorsOk, ThreadsOk, OneCodeEach, ChallengesOk, MarksOk, UnlocksOk;
  }

  /** The safety properties of every reachable state. */
  ghost predicate Safe(cfg: Settings, o: Oracles, initially: set<Id>, w: World) {
    && Lineages(cfg, w) && Justified(cfg, o, w) && SpentOnce(w) && Provenance(cfg, o, initially, w)
    && (LogInOutage(w.log) ==> SafeOutage(w))
  }

  lemma InvIsSafe(cfg: Settings, o: Oracles, w: World, initially: set<Id>)
    requires Inv(cfg, o, w) && InitiallyOnly(w.hist.doors, initially)
    ensures Safe(cfg, o, initially, w)
  {
    hide Inv, LivesOk, TenantsOk, DoorsOk, ThreadsOk, OneCodeEach, Lineages, Justified, SpentOnce, Provenance,
      LogInOutage, SafeOutage, InitiallyOnly;
    InvGives(cfg, o, w);
    SessionLineage(cfg, o, w);
    EverySessionIsJustified(cfg, o, w);
    EverythingIsSpentOnce(cfg, o, w);
    EveryPasskeyCameThroughADoor(cfg, o, initially, w);
    if LogInOutage(w.log) {
      OutageIsSafe(cfg, o, w);
    }
  }

  lemma SafeInOutage(cfg: Settings, o: Oracles, initially: set<Id>, w: World)
    requires Safe(cfg, o, initially, w) && LogInOutage(w.log)
    ensures SafeOutage(w)
  {
  }

  /** Every state of every run is safe. */
  lemma EveryRunIsSafe(cfg: Settings, o: Oracles, init: World, ls: seq<Label>)
    requires Initial(init) && Run(cfg, o, init, ls)
    ensures Safe(cfg, o, init.config.store.auth.credentials.Keys, After(cfg, o, init, ls))
  {
    var initially := init.config.store.auth.credentials.Keys;
    assert InitiallyOnly(init.hist.doors, initially);
    hide Initial, Inv, Run, After, Safe, InitiallyOnly;
    InitialInv(cfg, o, init);
    RunKeepsInv(cfg, o, init, ls);
    DoorsOpenLater(cfg, o, init, ls, initially);
    InvIsSafe(cfg, o, After(cfg, o, init, ls), initially);
  }

  /** And safe from outages when every decision was taken in one. */
  lemma EveryOutageRunIsSafe(cfg: Settings, o: Oracles, init: World, ls: seq<Label>)
    requires Initial(init) && Run(cfg, o, init, ls)
    requires forall i :: 0 <= i < |ls| ==> InOutage(ls[i])
    ensures SafeOutage(After(cfg, o, init, ls))
  {
    assert LogInOutage(init.log);
    hide Initial, Run, After, Safe, SafeOutage, LogInOutage, InOutage;
    EveryRunIsSafe(cfg, o, init, ls);
    LogOfRun(cfg, o, init, ls);
    SafeInOutage(cfg, o, init.config.store.auth.credentials.Keys, After(cfg, o, init, ls));
  }
}
