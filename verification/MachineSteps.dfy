/** Every step of the machine keeps the invariant. */
module MachineSteps {
  import opened Wrappers
  import opened Models
  import opened Authz
  import opened Login
  import opened Tenancy
  import opened Enrollment
  import opened DirectoryInvariant
  import opened Machine
  import opened MachineInvariant
  import Admin
  import AdminInvariant
  import AdminNoninterference
  import Passkeys
  import Seed

  // ------------------------------------------------------------- steps that make nothing

  /** Sessions may go, or lose their mark; what they are never changes. */
  ghost predicate SessionsFade(a: map<string, Session>, b: map<string, Session>) {
    && MarksFade(a, b)
    && forall h :: h in b ==> h in a && b[h].user == a[h].user && b[h].app == a[h].app && b[h].expiresAt == a[h].expiresAt
  }

  ghost predicate SamePasskeys(a: map<Id, Credential>, b: map<Id, Credential>) {
    a.Keys == b.Keys && forall k :: k in a ==> k in b && b[k].user == a[k].user
  }

  ghost predicate Mild(a: Auth, b: Auth) {
    && ChallengesAdvance(a.challenges, b.challenges) && b.challenges.Keys == a.challenges.Keys
    && b.codes == a.codes && SessionsFade(a.sessions, b.sessions) && SamePasskeys(a.credentials, b.credentials)
  }

  ghost predicate ActivationsMild(o: Oracles, log: Log, a: map<string, ActivationCode>, b: map<string, ActivationCode>, unlocked: map<string, nat>) {
    ActivationsAdvance(a, b) && UnlocksOk(o, log, b, unlocked) && OneCodeEach(b)
  }

  ghost predicate ThreadsMild(a: map<Id, Thread>, b: map<Id, Thread>) {
    DoneStaysDone(a, b) && forall th :: th in b && !b[th].Done? ==> th in a && a[th] == b[th]
  }

  lemma MildIsUndisturbed(c: Config, c': Config, lives: map<string, Life>)
    requires Mild(c.store.auth, c'.store.auth) && ThreadsMild(c.threads, c'.threads)
    ensures Undisturbed(c, c', lives)
  {
  }

  lemma MildSessions(cfg: Settings, a: map<string, Session>, b: map<string, Session>, lives: map<string, Life>)
    requires SessionsOk(a, lives) && MarksOk(cfg, a, lives) && SessionsFade(a, b)
    ensures SessionsOk(b, lives) && MarksOk(cfg, b, lives)
  {
  }

  lemma MildTenants(d: Directory, a: map<Id, Thread>, b: map<Id, Thread>, x: map<Id, Challenge>, y: map<Id, Challenge>, lives: map<string, Life>)
    requires TenantsOk(d, a, x, lives) && ThreadsMild(a, b) && ChallengesAdvance(x, y) && y.Keys == x.Keys
    ensures TenantsOk(d, b, y, lives)
  {
  }

  lemma MildDoors(cfg: Settings, o: Oracles, log: Log, a: Auth, b: Auth, lives: map<string, Life>, doors: map<Id, Door>)
    requires DoorsOk(cfg, o, log, a, lives, doors) && Mild(a, b) && ActivationsAdvance(a.activations, b.activations)
    ensures DoorsOk(cfg, o, log, b, lives, doors)
  {
  }

  lemma MildLives(cfg: Settings, o: Oracles, log: Log, c: Config, c': Config, lives: map<string, Life>)
    requires LivesOk(cfg, o, log, c, lives) && Mild(c.store.auth, c'.store.auth) && ThreadsMild(c.threads, c'.threads)
    requires MarksOk(cfg, c.store.auth.sessions, lives)
    ensures LivesOk(cfg, o, log, c', lives) && MarksOk(cfg, c'.store.auth.sessions, lives)
  {
    MildIsUndisturbed(c, c', lives);
    MildSessions(cfg, c.store.auth.sessions, c'.store.auth.sessions, lives);
    hide MarksOk, SessionsOk, CodesOk, OneEach, LifeOk, Undisturbed, SessionsFade, SamePasskeys, ThreadsMild;
    LivesKeep(cfg, o, log, c, c', lives);
  }

  lemma Quiet(cfg: Settings, o: Oracles, w: World, c': Config, log: Log)
    requires InvIn(cfg, o, w, log)
    requires Stable(w.config.store.dir, c'.store.dir)
    requires ThreadsOk(cfg, o, log, c'.threads, w.hist.stories) && ThreadsMild(w.config.threads, c'.threads)
    requires Mild(w.config.store.auth, c'.store.auth)
    requires ActivationsMild(o, log, w.config.store.auth.activations, c'.store.auth.activations, w.hist.unlocked)
    ensures InvIn(cfg, o, World(c', log, w.hist), log)
  {
    var c, lives := w.config, w.hist.lives;
    hide Stable, ThreadsOk, ThreadsMild, TenantsOk, ChallengesOk, LivesOk, DoorsOk, MarksOk, UnlocksOk, OneCodeEach,
      SessionsFade, SamePasskeys, ActivationsAdvance, ChallengesAdvance;
    MildTenants(c.store.dir, c.threads, c'.threads, c.store.auth.challenges, c'.store.auth.challenges, lives);
    TenantsKeep(c.store.dir, c'.store.dir, c'.threads, c'.store.auth.challenges, lives);
    ChallengesKeep(cfg, o, log, c.store.auth.challenges, c'.store.auth.challenges, w.hist.openings);
    MildLives(cfg, o, log, c, c', lives);
    MildDoors(cfg, o, log, c.store.auth, c'.store.auth, lives, w.hist.doors);
  }

  lemma StableRefl(d: Directory)
    ensures Stable(d, d)
  {
  }

  lemma SignedInIsStable(d: Directory, user: Id, now: Time)
    ensures Stable(d, SignedIn(d, user, now))
  {
  }

  lemma SameAuthIsMild(o: Oracles, log: Log, a: Auth, unlocked: map<string, nat>)
    requires UnlocksOk(o, log, a.activations, unlocked) && OneCodeEach(a.activations)
    ensures Mild(a, a) && ActivationsMild(o, log, a.activations, a.activations, unlocked)
  {
  }

  lemma SameThreadsAreMild(a: map<Id, Thread>)
    ensures ThreadsMild(a, a)
  {
  }

  /** The directory changed, and nothing else. */
  lemma DirectoryStep(cfg: Settings, o: Oracles, w: World, c': Config, log: Log)
    requires InvIn(cfg, o, w, log)
    requires c'.threads == w.config.threads && c'.store.auth == w.config.store.auth
    requires Stable(w.config.store.dir, c'.store.dir)
    ensures InvIn(cfg, o, World(c', log, w.hist), log)
  {
    hide Stable, ThreadsOk, ThreadsMild, TenantsOk, ChallengesOk, LivesOk, DoorsOk, MarksOk, UnlocksOk, OneCodeEach, Mild, ActivationsMild;
    SameAuthIsMild(o, log, w.config.store.auth, w.hist.unlocked);
    SameThreadsAreMild(w.config.threads);
    Quiet(cfg, o, w, c', log);
  }

  lemma IssuedCodeIsMild(o: Oracles, log: Log, a: map<string, ActivationCode>, unlocked: map<string, nat>,
    u: Id, issuer: string, now: Time, ttl: int, hash: string)
    requires UnlocksOk(o, log, a, unlocked) && OneCodeEach(a) && hash !in a
    ensures ActivationsMild(o, log, a, Admin.IssuedCode(a, u, issuer, now, ttl, hash), unlocked)
  {
    hide UnlockedAt;
  }

  lemma CodeStep(cfg: Settings, o: Oracles, w: World, op: Admin.Operator, call: Admin.Call, log: Log)
    requires InvIn(cfg, o, w, log) && call.CallIssueCode?
    ensures InvIn(cfg, o, World(w.config.(store := Admin.Execute(w.config.store, op, call).0), log, w.hist), log)
  {
    hide Stable, ThreadsOk, ThreadsMild, TenantsOk, ChallengesOk, LivesOk, DoorsOk, MarksOk, UnlocksOk, OneCodeEach, Mild, ActivationsMild,
      Admin.IssuedCode;
    var c' := w.config.(store := Admin.Execute(w.config.store, op, call).0);
    StableRefl(w.config.store.dir);
    SameAuthIsMild(o, log, w.config.store.auth, w.hist.unlocked);
    SameThreadsAreMild(w.config.threads);
    if Admin.Execute(w.config.store, op, call).1.Ok? {
      IssuedCodeIsMild(o, log, w.config.store.auth.activations, w.hist.unlocked, call.user, op.user, call.now, call.ttl, call.hash);
    }
    MildIgnoresActivations(w.config.store.auth, c'.store.auth.activations);
    Quiet(cfg, o, w, c', log);
  }

  lemma MildIgnoresActivations(a: Auth, activations: map<string, ActivationCode>)
    ensures Mild(a, a.(activations := activations))
  {
  }

  lemma ManageStep(cfg: Settings, o: Oracles, w: World, op: Admin.Operator, call: Admin.Call, log: Log)
    requires InvIn(cfg, o, w, log)
    ensures InvIn(cfg, o, World(w.config.(store := Admin.Execute(w.config.store, op, call).0), log, w.hist), log)
  {
    hide InvIn, Admin.Execute, Stable;
    if call.CallIssueCode? {
      CodeStep(cfg, o, w, op, call, log);
    } else {
      AdminNoninterference.LeavesAuth(w.config.store, op, call);
      AdminInvariant.ExecuteIsStable(w.config.store, op, call);
      DirectoryStep(cfg, o, w, w.config.(store := Admin.Execute(w.config.store, op, call).0), log);
    }
  }

  lemma AddTenantStep(cfg: Settings, o: Oracles, w: World, l: Label, log: Log)
    requires InvIn(cfg, o, w, log) && l.AddTenant?
    ensures InvIn(cfg, o, World(w.config.(store :=
      Admin.CreateTenant(w.config.store, l.tenant, l.name, l.branding, l.domains, l.randoms).0), log, w.hist), log)
  {
    hide InvIn, Stable, Admin.Repeats, Admin.DomainOwnedElsewhere, Seed.Run, Seed.BootstrapConsole, Admin.ReplacedDomains, Admin.PublicTenant;
    AdminInvariant.CreateTenantIsStable(w.config.store, l.tenant, l.name, l.branding, l.domains, l.randoms);
    DirectoryStep(cfg, o, w, w.config.(store :=
      Admin.CreateTenant(w.config.store, l.tenant, l.name, l.branding, l.domains, l.randoms).0), log);
  }

  lemma ReseedStep(cfg: Settings, o: Oracles, w: World, specs: seq<Seed.TenantSpec>, rnd: Seed.Randoms, log: Log)
    requires InvIn(cfg, o, w, log)
    ensures InvIn(cfg, o, World(w.config.(store := Reseeding(w.config, specs, rnd)), log, w.hist), log)
  {
    hide InvIn, Stable, Seed.SeedIdentity;
    StableRefl(w.config.store.dir);
    if Seed.SeedIdentity(w.config.store.dir, specs, rnd).Some? {
      Seed.SeedIsInflationary(w.config.store.dir, specs, rnd);
    }
    DirectoryStep(cfg, o, w, w.config.(store := Reseeding(w.config, specs, rnd)), log);
  }

  lemma PatchTenantIsStable(s: Store, t: Id, p: Admin.TenantPatch)
    ensures Stable(s.dir, Admin.PatchTenant(s, t, p).0.dir)
  {
    hide Admin.Repeats, Admin.DomainOwnedElsewhere, Admin.ReplacedDomains, Admin.PublicTenant;
  }

  lemma EditTenantStep(cfg: Settings, o: Oracles, w: World, t: Id, p: Admin.TenantPatch, log: Log)
    requires InvIn(cfg, o, w, log)
    ensures InvIn(cfg, o, World(w.config.(store := Admin.PatchTenant(w.config.store, t, p).0), log, w.hist), log)
  {
    hide InvIn, Stable, Admin.Repeats, Admin.DomainOwnedElsewhere, Admin.ReplacedDomains, Admin.PublicTenant;
    PatchTenantIsStable(w.config.store, t, p);
    DirectoryStep(cfg, o, w, w.config.(store := Admin.PatchTenant(w.config.store, t, p).0), log);
  }

  // ------------------------------------------------------------- steps of one login

  lemma ThreadStep(cfg: Settings, o: Oracles, w: World, th: Id, t: Thread, stories: map<Id, Story>, log: Log)
    requires InvIn(cfg, o, w, log) && ThreadsOk(cfg, o, log, w.config.threads[th := t], stories)
    requires th in w.config.threads ==> !w.config.threads[th].Done?
    requires ThreadAtHome(w.config.store.dir, t)
    ensures InvIn(cfg, o, World(w.config.(threads := w.config.threads[th := t]), log, w.hist.(stories := stories)), log)
  {
    hide ThreadsOk, ChallengesOk, LivesOk, DoorsOk, MarksOk, UnlocksOk, OneCodeEach, SharesTenant;
    var c' := w.config.(threads := w.config.threads[th := t]);
    ThreadOnlyKeepsLives(cfg, o, log, w.config, c', w.hist.lives);
  }

  lemma ThreadOnlyKeepsLives(cfg: Settings, o: Oracles, log: Log, c: Config, c': Config, lives: map<string, Life>)
    requires LivesOk(cfg, o, log, c, lives) && DoneStaysDone(c.threads, c'.threads) && c'.store == c.store
    ensures LivesOk(cfg, o, log, c', lives)
  {
  }

  lemma PassedIsVerified(d: Directory, o: Oracles, a: Attempt)
    ensures Check(d, o, a).Passed? ==> Verified(d, o, a, Check(d, o, a).user)
    ensures Check(d, o, a).Refused? ==> Check(d, o, a).answer.outcome != BLOCKED && !Check(d, o, a).answer.passkeyOffer
  {
  }

  lemma ModestAnswer(cfg: Settings, o: Oracles, log: Log, stories: map<Id, Story>, th: Id, answer: LoginResponse)
    requires answer.outcome != BLOCKED && !answer.passkeyOffer
    ensures ThreadOk(cfg, o, log, stories, th, Done(answer))
  {
  }

  lemma RoutedIsHomed(cfg: Settings, o: Oracles, w: World, log: Log, th: Id)
    requires InvIn(cfg, o, w, log) && th in w.config.threads && w.config.threads[th].Routed?
    ensures Homed(w.config.store.dir, w.config.threads[th].attempt)
  {
    hide ThreadsOk, ChallengesOk, LivesOk, DoorsOk, MarksOk, UnlocksOk, OneCodeEach, Homed;
    assert ThreadAtHome(w.config.store.dir, w.config.threads[th]);
  }

  lemma CheckStep(cfg: Settings, o: Oracles, w: World, th: Id, log: Log)
    requires InvIn(cfg, o, w, log) && log == w.log + [Moment(w.config, CheckPassword(th))]
    requires th in w.config.threads && w.config.threads[th].Routed?
    ensures var c' := Checking(o, w.config, th).0;
      InvIn(cfg, o, World(c', log, TellOne(w.hist, c', CheckPassword(th), |w.log|)), log)
  {
    hide Check, TenantsOk, ChallengesOk, LivesOk, DoorsOk, MarksOk, UnlocksOk, OneCodeEach, ThreadsOk, ThreadOk;
    var a, stories := w.config.threads[th].attempt, w.hist.stories;
    var found := Check(w.config.store.dir, o, a);
    var c' := Checking(o, w.config, th).0;
    var h' := TellOne(w.hist, c', CheckPassword(th), |w.log|);
    PassedIsVerified(w.config.store.dir, o, a);
    if found.Passed? {
      var st := h'.stories[th];
      assert SharesTenant(w.config.store.dir, found.user, a.app) by { RoutedIsHomed(cfg, o, w, log, th); }
      assert h' == w.hist.(stories := stories[th := st]);
      assert TellsCheck(o, log, th, st);
      CheckedIsOk(cfg, o, log, stories[th := st], th, a, found.user, found.always);
      ThreadMoves(cfg, o, log, w.config.threads, stories, th, c'.threads[th], st);
      ThreadStep(cfg, o, w, th, c'.threads[th], h'.stories, log);
    } else {
      ModestAnswer(cfg, o, log, stories, th, c'.threads[th].answer);
      ThreadEnds(cfg, o, log, w.config.threads, stories, th, c'.threads[th]);
      ThreadStep(cfg, o, w, th, c'.threads[th], stories, log);
    }
  }

  lemma CheckedIsOk(cfg: Settings, o: Oracles, log: Log, stories: map<Id, Story>, th: Id, a: Attempt, u: Id, always: bool)
    requires th in stories && StoryIs(stories[th], a, u, always) && TellsCheck(o, log, th, stories[th])
    ensures ThreadOk(cfg, o, log, stories, th, Checked(a, u, always))
  {
  }

  lemma DecideStep(cfg: Settings, o: Oracles, w: World, l: Label, log: Log)
    requires InvIn(cfg, o, w, log) && l.Decide? && log == w.log + [Moment(w.config, l)]
    requires l.thread in w.config.threads && w.config.threads[l.thread].Checked?
    requires Inv(cfg, o, w)
    ensures var c' := Deciding(cfg, w.config, l.thread, l.policy, l.pdp, l.event).0;
      InvIn(cfg, o, World(c', log, TellOne(w.hist, c', l, |w.log|)), log)
  {
    hide Rule, ChallengesOk, LivesOk, DoorsOk, MarksOk, UnlocksOk, OneCodeEach, TellsCheck, SharesTenant;
    var th, stories, t := l.thread, w.hist.stories, w.config.threads[l.thread];
    var c' := Deciding(cfg, w.config, th, l.policy, l.pdp, l.event).0;
    var h' := TellOne(w.hist, c', l, |w.log|);
    var r := Rule(cfg, l.policy, l.pdp, l.event, t.always);
    assert ThreadOk(cfg, o, log, stories, th, t) && ThreadOk(cfg, o, w.log, stories, th, t);
    assert stories[th].check < |w.log| by { CheckIsEarlier(o, w.log, th, stories[th]); }
    assert RuledAt(cfg, log, |w.log|, th, t.attempt, t.user, t.always, r);
    hide TenantsOk, ThreadsOk, RuledAt;
    if r.action == BLOCK {
      assert AnswerEarned(cfg, o, log, stories, th, c'.threads[th].answer);
      ThreadEnds(cfg, o, log, w.config.threads, stories, th, c'.threads[th]);
      ThreadStep(cfg, o, w, th, c'.threads[th], stories, log);
    } else {
      var st := h'.stories[th];
      CheckTale(o, log, th, stories[th], st);
      ThreadMoves(cfg, o, log, w.config.threads, stories, th, c'.threads[th], st);
      CheckedSharesTenant(cfg, o, w, log, th);
      ThreadStep(cfg, o, w, th, c'.threads[th], h'.stories, log);
    }
  }

  lemma CheckIsEarlier(o: Oracles, log: Log, th: Id, st: Story)
    requires TellsCheck(o, log, th, st)
    ensures st.check < |log|
  {
  }

  lemma CheckTale(o: Oracles, log: Log, th: Id, a: Story, b: Story)
    requires TellsCheck(o, log, th, a) && StoryIs(b, a.attempt, a.user, a.always) && b.check == a.check
    ensures TellsCheck(o, log, th, b)
  {
  }

  lemma CheckedSharesTenant(cfg: Settings, o: Oracles, w: World, log: Log, th: Id)
    requires InvIn(cfg, o, w, log) && th in w.config.threads && !w.config.threads[th].Routed? && !w.config.threads[th].Done?
    ensures SharesTenant(w.config.store.dir, w.config.threads[th].user, w.config.threads[th].attempt.app)
  {
    hide ThreadsOk, ChallengesOk, LivesOk, DoorsOk, MarksOk, UnlocksOk, OneCodeEach, SharesTenant;
  }

  lemma LookStep(cfg: Settings, o: Oracles, w: World, th: Id, log: Log)
    requires InvIn(cfg, o, w, log) && log == w.log + [Moment(w.config, Look(th))] && Inv(cfg, o, w)
    requires th in w.config.threads && w.config.threads[th].Ruled?
    ensures var c' := Looking(cfg, w.config, th).0;
      InvIn(cfg, o, World(c', log, TellOne(w.hist, c', Look(th), |w.log|)), log)
  {
    hide Flag, ChallengesOk, LivesOk, DoorsOk, MarksOk, UnlocksOk, OneCodeEach, TellsCheck, SharesTenant, TenantsOk;
    var stories, t := w.hist.stories, w.config.threads[th];
    var c' := Looking(cfg, w.config, th).0;
    var h' := TellOne(w.hist, c', Look(th), |w.log|);
    assert ThreadOk(cfg, o, log, stories, th, t) && ThreadOk(cfg, o, w.log, stories, th, t);
    var st := h'.stories[th];
    assert TellsLook(cfg, log, th, st);
    CheckTale(o, log, th, stories[th], st);
    assert TellsRule(cfg, log, th, st);
    hide RuledAt, TellsRule, TellsLook, ThreadsOk;
    ThreadMoves(cfg, o, log, w.config.threads, stories, th, c'.threads[th], st);
    CheckedSharesTenant(cfg, o, w, log, th);
    ThreadStep(cfg, o, w, th, c'.threads[th], h'.stories, log);
  }

  // ------------------------------------------------------------- steps that sign someone in

  ghost predicate NewRow(cfg: Settings, a: Auth, b: Auth, h: string, life: Life) {
    && h !in a.sessions && RowIs(b.sessions, h, life) && b.sessions == a.sessions[h := b.sessions[h]]
    && OwnCode(a.codes, b.codes, h)
    && (b.sessions[h].enrollUntil.Some? ==> MarkedLife(life) && b.sessions[h].enrollUntil.value == life.at + cfg.enrollWindow)
  }

  lemma RootSessions(cfg: Settings, a: Auth, b: Auth, lives: map<string, Life>, h: string, life: Life)
    requires h !in lives && NewRow(cfg, a, b, h, life) && MarksOk(cfg, a.sessions, lives)
    ensures MarksOk(cfg, b.sessions, lives[h := life]) && MarksFade(a.sessions, b.sessions)
    ensures forall g :: g in b.sessions && g !in a.sessions ==> g !in lives
    ensures CodesAdvance(a.codes, b.codes)
  {
  }

  lemma RootTenants(d: Directory, threads: map<Id, Thread>, challenges: map<Id, Challenge>, lives: map<string, Life>, h: string, life: Life)
    requires TenantsOk(d, threads, challenges, lives) && SharesTenant(d, life.user, life.app)
    ensures TenantsOk(d, threads, challenges, lives[h := life])
  {
  }

  lemma RootStep(cfg: Settings, o: Oracles, w: World, c': Config, log: Log, h: string, life: Life)
    requires InvIn(cfg, o, w, log) && h !in w.hist.lives && Root(life) && NewRow(cfg, w.config.store.auth, c'.store.auth, h, life)
    requires LifeOk(cfg, o, log, c', w.hist.lives[h := life], h)
    requires forall g :: g in w.hist.lives ==> !SameSource(w.hist.lives[g].how, life.how)
    requires Stable(w.config.store.dir, c'.store.dir) && SharesTenant(w.config.store.dir, life.user, life.app)
    requires ThreadsOk(cfg, o, log, c'.threads, w.hist.stories) && ThreadsMild(w.config.threads, c'.threads)
    requires ChallengesAdvance(w.config.store.auth.challenges, c'.store.auth.challenges)
    requires c'.store.auth.challenges.Keys == w.config.store.auth.challenges.Keys
    requires SamePasskeys(w.config.store.auth.credentials, c'.store.auth.credentials)
    requires c'.store.auth.activations == w.config.store.auth.activations
    ensures InvIn(cfg, o, World(c', log, w.hist.(lives := w.hist.lives[h := life])), log)
  {
    var a, b, lives := w.config.store.auth, c'.store.auth, w.hist.lives;
    hide Stable, ThreadsOk, TenantsOk, ChallengesOk, LivesOk, DoorsOk, MarksOk, UnlocksOk, OneCodeEach, ChallengesAdvance, CodesAdvance,
      LifeOk, SharesTenant, SameSource, Root, MarkedLife, MarksFade, SamePasskeys, ThreadsMild, NewRow, LivesGrow;
    RootSessions(cfg, a, b, lives, h, life);
    RootTenants(w.config.store.dir, w.config.threads, a.challenges, lives, h, life);
    MildTenants(w.config.store.dir, w.config.threads, c'.threads, a.challenges, b.challenges, lives[h := life]);
    TenantsKeep(w.config.store.dir, c'.store.dir, c'.threads, b.challenges, lives[h := life]);
    ChallengesKeep(cfg, o, log, a.challenges, b.challenges, w.hist.openings);
    RootLives(cfg, o, log, w.config, c', lives, h, life);
    RootDoors(cfg, o, log, a, b, lives, h, life, w.hist.doors);
  }

  lemma RootLives(cfg: Settings, o: Oracles, log: Log, c: Config, c': Config, lives: map<string, Life>, h: string, life: Life)
    requires LivesOk(cfg, o, log, c, lives) && h !in lives && Root(life) && NewRow(cfg, c.store.auth, c'.store.auth, h, life)
    requires MarksOk(cfg, c.store.auth.sessions, lives)
    requires LifeOk(cfg, o, log, c', lives[h := life], h)
    requires forall g :: g in lives ==> !SameSource(lives[g].how, life.how)
    requires ThreadsMild(c.threads, c'.threads) && ChallengesAdvance(c.store.auth.challenges, c'.store.auth.challenges)
    ensures LivesOk(cfg, o, log, c', lives[h := life])
  {
    hide LivesOk, LifeOk, SameSource, Root, OwnCode, ChallengesAdvance, CodesAdvance, MarksOk, MarkedLife, MarksFade;
    RootSessions(cfg, c.store.auth, c'.store.auth, lives, h, life);
    LivesAddRoot(cfg, o, log, c, c', lives, h, life);
  }

  lemma RootDoors(cfg: Settings, o: Oracles, log: Log, a: Auth, b: Auth, lives: map<string, Life>, h: string, life: Life, doors: map<Id, Door>)
    requires DoorsOk(cfg, o, log, a, lives, doors) && h !in lives && NewRow(cfg, a, b, h, life) && MarksOk(cfg, a.sessions, lives)
    requires SamePasskeys(a.credentials, b.credentials) && b.activations == a.activations
    ensures DoorsOk(cfg, o, log, b, lives[h := life], doors)
  {
  }

  lemma SameActivations(a: map<string, ActivationCode>)
    ensures ActivationsAdvance(a, a)
  {
  }

  lemma SessionRow(cfg: Settings, o: Oracles, s: Store, user: Id, app: Id, now: Time, drawn: Fresh, enroll: bool, target: Option<string>, life: Life)
    requires o.hash(drawn.token) !in s.auth.sessions && o.hash(drawn.code) !in s.auth.codes
    requires life.user == user && life.app == app && life.expiresAt == now + cfg.sessionTtl && life.at == now
    requires enroll ==> MarkedLife(life)
    ensures NewRow(cfg, s.auth, WithSession(cfg, o, s, user, app, now, drawn, enroll, target).auth, o.hash(drawn.token), life)
  {
  }

  lemma FreshLogin(cfg: Settings, o: Oracles, log: Log, c: Config, lives: map<string, Life>, th: Id, st: Story)
    requires LivesOk(cfg, o, log, c, lives) && th in c.threads && !c.threads[th].Done?
    ensures forall g :: g in lives ==> !SameSource(lives[g].how, ByLogin(th, st))
  {
  }

  lemma LoginLifeIsOk(cfg: Settings, o: Oracles, log: Log, c: Config, lives: map<string, Life>, h: string)
    requires h in lives && lives[h].how.ByLogin? && lives[h].root == h && lives[h].expiresAt == lives[h].at + cfg.sessionTtl
    requires LoginLife(cfg, o, log, c.threads, h, lives[h])
    ensures LifeOk(cfg, o, log, c, lives, h)
  {
  }

  lemma ReadyThread(cfg: Settings, o: Oracles, w: World, th: Id)
    requires Inv(cfg, o, w) && th in w.config.threads && w.config.threads[th].Ready?
    ensures var t := w.config.threads[th];
      && th in w.hist.stories && StoryIs(w.hist.stories[th], t.attempt, t.user, t.always) && w.hist.stories[th].ruling == t.ruling
      && t.ruling.action != BLOCK && w.hist.stories[th].flag == t.flag && TellsAll(cfg, o, w.log, th, w.hist.stories[th])
      && w.hist.stories[th].look < |w.log|
    ensures SharesTenant(w.config.store.dir, w.config.threads[th].user, w.config.threads[th].attempt.app)
  {
    hide ChallengesOk, LivesOk, DoorsOk, MarksOk, UnlocksOk, OneCodeEach, TellsCheck, TellsRule, SharesTenant;
    assert ThreadOk(cfg, o, w.log, w.hist.stories, th, w.config.threads[th]);
  }

  lemma EnforcedHist(cfg: Settings, o: Oracles, w: World, l: Label)
    requires l.Enforce? && l.thread in w.config.threads && w.config.threads[l.thread].Ready? && l.thread in w.hist.stories
    requires Unused(o, w, l.drawn) && l.challenge !in w.config.store.auth.challenges
    ensures var t := w.config.threads[l.thread];
      var c' := Enforcing(cfg, o, w.config, l.thread, l.drawn, l.challenge).0;
      Enforced(o, w.hist, w.config, c', l, |w.log|) ==
        if t.ruling.action == ALLOW then
          var h := o.hash(l.drawn.token);
          w.hist.(lives := w.hist.lives[h := Life(t.user, t.attempt.app, w.config.now + cfg.sessionTtl, w.config.now, |w.log|,
            ByLogin(l.thread, w.hist.stories[l.thread]), h)])
        else w.hist.(openings := w.hist.openings[l.challenge := Opening(l.thread, w.hist.stories[l.thread])])
  {
    hide Login.Ruled, MatchRedirect, RedirectTo, RiskOf, Unusual;
  }

  lemma IssueStep(cfg: Settings, o: Oracles, w: World, l: Label, log: Log)
    requires InvIn(cfg, o, w, log) && Inv(cfg, o, w) && l.Enforce? && log == w.log + [Moment(w.config, l)]
    requires l.thread in w.config.threads && w.config.threads[l.thread].Ready? && w.config.threads[l.thread].ruling.action == ALLOW
    requires Unused(o, w, l.drawn) && l.challenge !in w.config.store.auth.challenges
    ensures var c' := Enforcing(cfg, o, w.config, l.thread, l.drawn, l.challenge).0;
      InvIn(cfg, o, World(c', log, Enforced(o, w.hist, w.config, c', l, |w.log|)), log)
  {
    hide Stable, SignedIn, ThreadsOk, TenantsOk, ChallengesOk, LivesOk, DoorsOk, MarksOk, UnlocksOk, OneCodeEach, Login.Ruled, MatchRedirect,
      RedirectTo, Enforced, TellsAll, SharesTenant, NewRow, LifeOk, SameSource, TrustedContext;
    ReadyThread(cfg, o, w, l.thread);
    var th, t, st, h, k := l.thread, w.config.threads[l.thread], w.hist.stories[l.thread], o.hash(l.drawn.token), |w.log|;
    var c' := Enforcing(cfg, o, w.config, th, l.drawn, l.challenge).0;
    IssuedAnswer(cfg, o, w.config.store, t.user, t.attempt, t.ruling, t.flag, w.config.now, l.drawn);
    EnforcedHist(cfg, o, w, l);
    EvidenceStays(cfg, o, w.log, Moment(w.config, l));
    var life := Life(t.user, t.attempt.app, w.config.now + cfg.sessionTtl, w.config.now, k, ByLogin(th, st), h);
    if t.flag { FlagMeansTrusted(cfg, o, w.log, th, st); }
    SessionRow(cfg, o, w.config.store, t.user, t.attempt.app, w.config.now, l.drawn, t.flag, MatchRedirect(t.attempt.registered, t.attempt.requested), life);
    SignedInIsStable(w.config.store.dir, t.user, w.config.now);
    assert LoginLife(cfg, o, log, c'.threads, h, life);
    LoginLifeIsOk(cfg, o, log, c', w.hist.lives[h := life], h);
    FreshLogin(cfg, o, log, w.config, w.hist.lives, th, st);
    assert c'.threads[th].Done? && ThreadOk(cfg, o, log, w.hist.stories, th, c'.threads[th]) by {
      IssuedIsEarned(cfg, o, log, w.hist.stories, th, c'.threads[th].answer);
    }
    ThreadEnds(cfg, o, log, w.config.threads, w.hist.stories, th, c'.threads[th]);
    RootStep(cfg, o, w, c', log, h, life);
  }

  lemma IssuedAnswer(cfg: Settings, o: Oracles, s: Store, user: Id, a: Attempt, r: Ruling, offer: bool, now: Time, drawn: Fresh)
    requires r.action == ALLOW
    ensures var answer := Issue(cfg, o, s, user, a, r, offer, now, drawn).1;
      answer.outcome == AUTHENTICATED && answer.passkeyOffer == offer
  {
  }

  lemma FlagMeansTrusted(cfg: Settings, o: Oracles, log: Log, th: Id, st: Story)
    requires TellsAll(cfg, o, log, th, st) && st.ruling.action == ALLOW && st.flag
    ensures TrustedContext(st.ruling)
  {
  }

  lemma IssuedIsEarned(cfg: Settings, o: Oracles, log: Log, stories: map<Id, Story>, th: Id, answer: LoginResponse)
    requires th in stories && TellsAll(cfg, o, log, th, stories[th]) && stories[th].ruling.action == ALLOW
    requires answer.outcome != BLOCKED && (answer.passkeyOffer ==> stories[th].flag)
    ensures ThreadOk(cfg, o, log, stories, th, Done(answer))
  {
  }

  // ------------------------------------------------------------- steps that open a challenge

  lemma MoreChallenges(cfg: Settings, o: Oracles, log: Log, a: map<Id, Challenge>, openings: map<Id, Opening>, cid: Id, row: Challenge, opening: Opening)
    requires ChallengesOk(cfg, o, log, a, openings) && cid !in a && ChallengeOk(cfg, o, log, row, opening)
    ensures ChallengesOk(cfg, o, log, a[cid := row], openings[cid := opening]) && ChallengesAdvance(a, a[cid := row])
  {
    hide ChallengeOk;
  }

  lemma ChallengeLives(cfg: Settings, o: Oracles, log: Log, c: Config, c': Config, lives: map<string, Life>)
    requires LivesOk(cfg, o, log, c, lives) && ChallengesAdvance(c.store.auth.challenges, c'.store.auth.challenges) && DoneStaysDone(c.threads, c'.threads)
    requires c'.store.auth.sessions == c.store.auth.sessions && c'.store.auth.codes == c.store.auth.codes
    ensures LivesOk(cfg, o, log, c', lives)
  {
  }

  lemma ChallengeDoors(cfg: Settings, o: Oracles, log: Log, a: Auth, b: Auth, lives: map<string, Life>, doors: map<Id, Door>)
    requires DoorsOk(cfg, o, log, a, lives, doors) && b == a.(challenges := b.challenges)
    ensures DoorsOk(cfg, o, log, b, lives, doors)
  {
  }

  /** The row a step-up opens, and the login it was opened by. */
  lemma OpenedRow(cfg: Settings, o: Oracles, log: Log, s: Store, th: Id, st: Story, now: Time, cid: Id)
    requires TellsAll(cfg, o, log, th, st) && st.ruling.action != ALLOW && st.ruling.action != BLOCK
    ensures var s' := OpenStepUp(cfg, s, st.user, st.attempt.app, st.ruling, st.flag, now, cid).0;
      && cid in s'.auth.challenges && s' == Remembering(s, s.auth.challenges[cid := s'.auth.challenges[cid]])
      && ChallengeOk(cfg, o, log, s'.auth.challenges[cid], Opening(th, st))
  {
  }

  /** A store with other challenges. */
  function Remembering(s: Store, challenges: map<Id, Challenge>): Store { s.(auth := s.auth.(challenges := challenges)) }

  lemma OpenedInv(cfg: Settings, o: Oracles, w: World, th: Id, answer: LoginResponse, cid: Id, row: Challenge, opening: Opening, log: Log)
    requires InvIn(cfg, o, w, log) && cid !in w.config.store.auth.challenges && ChallengeOk(cfg, o, log, row, opening)
    requires th in w.config.threads && !w.config.threads[th].Done? && answer.outcome != BLOCKED && !answer.passkeyOffer
    requires SharesTenant(w.config.store.dir, row.user, row.app)
    ensures InvIn(cfg, o, World(Config(Remembering(w.config.store, w.config.store.auth.challenges[cid := row]), w.config.now,
      w.config.threads[th := Done(answer)]), log, w.hist.(openings := w.hist.openings[cid := opening])), log)
  {
    hide ThreadsOk, ChallengesOk, TenantsOk, LivesOk, DoorsOk, MarksOk, UnlocksOk, OneCodeEach, ChallengeOk, SharesTenant, ChallengesAdvance;
    var c := w.config;
    var c' := Config(Remembering(c.store, c.store.auth.challenges[cid := row]), c.now, c.threads[th := Done(answer)]);
    MoreChallenges(cfg, o, log, c.store.auth.challenges, w.hist.openings, cid, row, opening);
    ModestAnswer(cfg, o, log, w.hist.stories, th, answer);
    ThreadEnds(cfg, o, log, c.threads, w.hist.stories, th, Done(answer));
    ChallengeLives(cfg, o, log, c, c', w.hist.lives);
    ChallengeDoors(cfg, o, log, c.store.auth, c'.store.auth, w.hist.lives, w.hist.doors);
    OpeningTenants(c.store.dir, c.threads, c'.threads, c.store.auth.challenges, c'.store.auth.challenges, w.hist.lives, cid);
  }

  lemma OpeningStep(cfg: Settings, o: Oracles, w: World, l: Label, log: Log)
    requires InvIn(cfg, o, w, log) && Inv(cfg, o, w) && l.Enforce? && log == w.log + [Moment(w.config, l)]
    requires l.thread in w.config.threads && w.config.threads[l.thread].Ready? && w.config.threads[l.thread].ruling.action != ALLOW
    requires Unused(o, w, l.drawn) && l.challenge !in w.config.store.auth.challenges
    ensures var c' := Enforcing(cfg, o, w.config, l.thread, l.drawn, l.challenge).0;
      InvIn(cfg, o, World(c', log, Enforced(o, w.hist, w.config, c', l, |w.log|)), log)
  {
    ReadyThread(cfg, o, w, l.thread);
    EnforcedHist(cfg, o, w, l);
    EvidenceStays(cfg, o, w.log, Moment(w.config, l));
    hide InvIn, Inv, OpenStepUp, Issue, ChallengeOk, Enforced, TellsAll, Unused, SharesTenant;
    var th, t, st, cid := l.thread, w.config.threads[l.thread], w.hist.stories[l.thread], l.challenge;
    var c' := Enforcing(cfg, o, w.config, th, l.drawn, cid).0;
    OpenedRow(cfg, o, log, w.config.store, th, st, w.config.now, cid);
    OpeningAnswer(cfg, w.config.store, t.user, t.attempt.app, t.ruling, t.flag, w.config.now, cid);
    OpenedFor(cfg, o, log, c'.store.auth.challenges[cid], Opening(th, st));
    OpenedInv(cfg, o, w, th, c'.threads[th].answer, cid, c'.store.auth.challenges[cid], Opening(th, st), log);
  }

  lemma OpenedFor(cfg: Settings, o: Oracles, log: Log, row: Challenge, opening: Opening)
    requires ChallengeOk(cfg, o, log, row, opening)
    ensures row.user == opening.story.user && row.app == opening.story.attempt.app
  {
  }

  lemma OpeningAnswer(cfg: Settings, s: Store, user: Id, app: Id, r: Ruling, hasFactor: bool, now: Time, cid: Id)
    requires r.action != ALLOW && r.action != BLOCK
    ensures var answer := OpenStepUp(cfg, s, user, app, r, hasFactor, now, cid).1;
      answer.outcome != BLOCKED && !answer.passkeyOffer
  {
  }

  lemma OpeningTenants(d: Directory, a: map<Id, Thread>, b: map<Id, Thread>, x: map<Id, Challenge>, y: map<Id, Challenge>, lives: map<string, Life>, cid: Id)
    requires TenantsOk(d, a, x, lives) && ThreadsMild(a, b) && cid in y && y == x[cid := y[cid]] && SharesTenant(d, y[cid].user, y[cid].app)
    ensures TenantsOk(d, b, y, lives)
  {
  }

  // ------------------------------------------------------------- steps that complete one

  lemma FreshStepUp(cfg: Settings, o: Oracles, log: Log, c: Config, lives: map<string, Life>, cid: Id)
    requires LivesOk(cfg, o, log, c, lives) && cid in c.store.auth.challenges && c.store.auth.challenges[cid].consumedAt.None?
    ensures forall g, x :: g in lives ==> !SameSource(lives[g].how, ByStepUp(cid, x))
  {
  }

  lemma StepUpLifeIsOk(cfg: Settings, o: Oracles, log: Log, c: Config, lives: map<string, Life>, h: string)
    requires h in lives && lives[h].how.ByStepUp? && lives[h].root == h && lives[h].expiresAt == lives[h].at + cfg.sessionTtl
    requires StepUpLife(cfg, o, log, c.store.auth.challenges, h, lives[h])
    ensures LifeOk(cfg, o, log, c, lives, h)
  {
  }

  /** Consuming the challenge, and the session it buys; `s` may already hold a new passkey counter. */
  lemma FinishStep(cfg: Settings, o: Oracles, w: World, s: Store, cid: Id, drawn: Fresh, requested: Option<string>, log: Log)
    requires InvIn(cfg, o, w, log) && Inv(cfg, o, w) && Unused(o, w, drawn) && Open(w.config.store.auth.challenges, cid, w.config.now)
    requires s == w.config.store.(auth := w.config.store.auth.(credentials := s.auth.credentials))
    requires SamePasskeys(w.config.store.auth.credentials, s.auth.credentials)
    requires HasAccess(s.dir, s.auth.challenges[cid].user, s.auth.challenges[cid].app)
    requires |w.log| < |log| && log[|w.log|].config.now == w.config.now && FactorAt(cfg, o, log, |w.log|, cid, o.hash(drawn.token))
    ensures var c' := w.config.(store := Finish(cfg, o, s, cid, w.config.now, requested, drawn).0);
      InvIn(cfg, o, World(c', log, SteppedUp(o, w.hist, w.config, c', cid, drawn, |w.log|)), log)
  {
    hide Stable, SignedIn, ThreadsOk, ThreadsMild, TenantsOk, LivesOk, DoorsOk, MarksOk, UnlocksOk, OneCodeEach, MatchRedirect,
      RedirectTo, SharesTenant, LifeOk, SameSource, WithRisk, HasAccess, FactorAt, ChallengeOk, SamePasskeys, NewRow, TellsAll;
    var row, h, now := w.config.store.auth.challenges[cid], o.hash(drawn.token), w.config.now;
    var c' := w.config.(store := Finish(cfg, o, s, cid, now, requested, drawn).0);
    var opening := w.hist.openings[cid];
    var life := Life(row.user, row.app, now + cfg.sessionTtl, now, |w.log|, ByStepUp(cid, opening), h);
    assert ChallengeOk(cfg, o, log, row, opening) && ChallengeOk(cfg, o, w.log, row, opening);
    OpenIsNotDenied(cfg, o, w.log, row, opening);
    OpenIsNotDenied(cfg, o, log, row, opening);
    FinishRow(cfg, o, s, cid, now, requested, drawn, life);
    NewRowIgnoresChallenges(cfg, s.auth, w.config.store.auth, c'.store.auth, h, life);
    StepUpSharesTenant(cfg, o, w, log, cid);
    SignedInIsStable(w.config.store.dir, row.user, now);
    SameThreadsAreMild(w.config.threads);
    StepUpLifeIsOk(cfg, o, log, c', w.hist.lives[h := life], h);
    FreshStepUp(cfg, o, log, w.config, w.hist.lives, cid);
    RootStep(cfg, o, w, c', log, h, life);
  }

  lemma OpenIsNotDenied(cfg: Settings, o: Oracles, log: Log, c: Challenge, opening: Opening)
    requires ChallengeOk(cfg, o, log, c, opening) && c.consumedAt.None?
    ensures c.deniedReason.None? && opening.story.flag && TellsAll(cfg, o, log, opening.thread, opening.story)
    ensures opening.story.user == c.user && opening.story.attempt.app == c.app && opening.story.look < |log|
    ensures opening.story.ruling.action != ALLOW && opening.story.ruling.action != BLOCK
  {
  }

  lemma StepUpSharesTenant(cfg: Settings, o: Oracles, w: World, log: Log, cid: Id)
    requires InvIn(cfg, o, w, log) && cid in w.config.store.auth.challenges
    ensures SharesTenant(w.config.store.dir, w.config.store.auth.challenges[cid].user, w.config.store.auth.challenges[cid].app)
  {
    hide ThreadsOk, ChallengesOk, LivesOk, DoorsOk, MarksOk, UnlocksOk, OneCodeEach, SharesTenant;
  }

  lemma ConsumedAdvances(a: map<Id, Challenge>, cid: Id, now: Time)
    requires cid in a && a[cid].consumedAt.None?
    ensures ChallengesAdvance(a, a[cid := a[cid].(consumedAt := Some(now))])
  {
  }

  lemma FinishRow(cfg: Settings, o: Oracles, s: Store, cid: Id, now: Time, requested: Option<string>, drawn: Fresh, life: Life)
    requires cid in s.auth.challenges && s.auth.challenges[cid].consumedAt.None?
    requires HasAccess(s.dir, s.auth.challenges[cid].user, s.auth.challenges[cid].app)
    requires o.hash(drawn.token) !in s.auth.sessions && o.hash(drawn.code) !in s.auth.codes
    requires life.user == s.auth.challenges[cid].user && life.app == s.auth.challenges[cid].app
    requires life.expiresAt == now + cfg.sessionTtl && life.at == now
    ensures var s' := Finish(cfg, o, s, cid, now, requested, drawn).0;
      && NewRow(cfg, s.auth, s'.auth, o.hash(drawn.token), life)
      && s'.dir == SignedIn(s.dir, life.user, now)
      && s'.auth.credentials == s.auth.credentials && s'.auth.activations == s.auth.activations
      && s'.auth.challenges == s.auth.challenges[cid := s.auth.challenges[cid].(consumedAt := Some(now))]
      && ChallengesAdvance(s.auth.challenges, s'.auth.challenges)
  {
    hide MarkedLife, SignedIn, HasAccess, MatchRedirect, NewRow, WithRisk, ChallengesAdvance, RedirectTo;
    var c := s.auth.challenges[cid];
    var s1 := Remembering(s, s.auth.challenges[cid := c.(consumedAt := Some(now))]);
    var target := MatchRedirect(if c.app in s.dir.apps then s.dir.apps[c.app].redirectUri else None, requested);
    var s' := WithSession(cfg, o, s1, c.user, c.app, now, drawn, false, target);
    assert Finish(cfg, o, s, cid, now, requested, drawn).0 == s';
    ConsumedAdvances(s.auth.challenges, cid, now);
    SessionRow(cfg, o, s1, c.user, c.app, now, drawn, false, target, life);
    NewRowIgnoresChallenges(cfg, s1.auth, s.auth, s'.auth, o.hash(drawn.token), life);
  }

  lemma NewRowIgnoresChallenges(cfg: Settings, a: Auth, a': Auth, b: Auth, h: string, life: Life)
    requires NewRow(cfg, a, b, h, life) && a'.sessions == a.sessions && a'.codes == a.codes
    ensures NewRow(cfg, a', b, h, life)
  {
  }

  lemma PasskeyCounterIsMild(cfg: Settings, o: Oracles, w: World, s: Store, log: Log)
    requires InvIn(cfg, o, w, log)
    requires s == w.config.store.(auth := w.config.store.auth.(credentials := s.auth.credentials))
    requires SamePasskeys(w.config.store.auth.credentials, s.auth.credentials)
    ensures InvIn(cfg, o, World(w.config.(store := s), log, w.hist), log)
  {
    hide Stable, ThreadsOk, ThreadsMild, TenantsOk, ChallengesOk, LivesOk, DoorsOk, MarksOk, UnlocksOk, OneCodeEach, SamePasskeys;
    StableRefl(w.config.store.dir);
    SameThreadsAreMild(w.config.threads);
    SameAuthIsMild(o, log, w.config.store.auth, w.hist.unlocked);
    Quiet(cfg, o, w, w.config.(store := s), log);
  }

  /** An unchanged store makes no session. */
  lemma NobodySignedIn(o: Oracles, w: World, c': Config, cid: Id, drawn: Fresh, k: nat)
    requires Unused(o, w, drawn) && c'.store.auth.sessions == w.config.store.auth.sessions
    ensures SteppedUp(o, w.hist, w.config, c', cid, drawn, k) == w.hist
  {
  }

  lemma CountedIsSame(s: Store, k: Id, count: int)
    requires k in s.auth.credentials
    ensures SamePasskeys(s.auth.credentials, Counted(s, k, count).auth.credentials)
  {
  }

  lemma RefusedFinish(cfg: Settings, o: Oracles, s: Store, cid: Id, now: Time, requested: Option<string>, drawn: Fresh)
    requires cid in s.auth.challenges && !HasAccess(s.dir, s.auth.challenges[cid].user, s.auth.challenges[cid].app)
    ensures Finish(cfg, o, s, cid, now, requested, drawn).0 == s
  {
  }

  lemma OtpStep(cfg: Settings, o: Oracles, w: World, l: Label, log: Log)
    requires InvIn(cfg, o, w, log) && Inv(cfg, o, w) && l.StepUpOtp? && Unused(o, w, l.drawn) && log == w.log + [Moment(w.config, l)]
    ensures var c' := w.config.(store := VerifyOtp(cfg, o, w.config.store, l.challenge, l.otp, w.config.now, l.requested, l.drawn).0);
      InvIn(cfg, o, World(c', log, SteppedUp(o, w.hist, w.config, c', l.challenge, l.drawn, |w.log|)), log)
  {
    hide InvIn, Inv, HasAccess, Finish, Unused, SteppedUp;
    var s, cid := w.config.store, l.challenge;
    var c' := w.config.(store := VerifyOtp(cfg, o, s, cid, l.otp, w.config.now, l.requested, l.drawn).0);
    if cfg.mockOtp && Open(s.auth.challenges, cid, w.config.now) && l.otp == cfg.otpCode {
      if HasAccess(s.dir, s.auth.challenges[cid].user, s.auth.challenges[cid].app) {
        assert FactorAt(cfg, o, log, |w.log|, cid, o.hash(l.drawn.token));
        FinishStep(cfg, o, w, s, cid, l.drawn, l.requested, log);
      } else {
        RefusedFinish(cfg, o, s, cid, w.config.now, l.requested, l.drawn);
        NobodySignedIn(o, w, c', cid, l.drawn, |w.log|);
        PasskeyCounterIsMild(cfg, o, w, s, log);
      }
    } else {
      NobodySignedIn(o, w, c', cid, l.drawn, |w.log|);
      PasskeyCounterIsMild(cfg, o, w, s, log);
    }
  }

  lemma PasskeyStep(cfg: Settings, o: Oracles, w: World, l: Label, log: Log)
    requires InvIn(cfg, o, w, log) && Inv(cfg, o, w) && l.StepUpPasskey? && Unused(o, w, l.drawn) && log == w.log + [Moment(w.config, l)]
    ensures var c' := w.config.(store := VerifyWebAuthn(cfg, o, w.config.store, l.challenge, l.answer, w.config.now, l.requested, l.drawn).0);
      InvIn(cfg, o, World(c', log, SteppedUp(o, w.hist, w.config, c', l.challenge, l.drawn, |w.log|)), log)
  {
    hide InvIn, Inv, HasAccess, Finish, Unused, SteppedUp, SamePasskeys;
    var s, cid := w.config.store, l.challenge;
    var c' := w.config.(store := VerifyWebAuthn(cfg, o, s, cid, l.answer, w.config.now, l.requested, l.drawn).0);
    if Open(s.auth.challenges, cid, w.config.now) && s.auth.challenges[cid].nonce.Some? && s.auth.challenges[cid].nonce.value != []
      && s.auth.challenges[cid].ceremony && Assert(o, s, s.auth.challenges[cid], l.answer).Some? {
      var counted := Counted(s, l.answer.id.value, Assert(o, s, s.auth.challenges[cid], l.answer).value);
      CountedIsSame(s, l.answer.id.value, Assert(o, s, s.auth.challenges[cid], l.answer).value);
      if HasAccess(s.dir, s.auth.challenges[cid].user, s.auth.challenges[cid].app) {
        assert FactorAt(cfg, o, log, |w.log|, cid, o.hash(l.drawn.token));
        FinishStep(cfg, o, w, counted, cid, l.drawn, l.requested, log);
      } else {
        RefusedFinish(cfg, o, counted, cid, w.config.now, l.requested, l.drawn);
        NobodySignedIn(o, w, c', cid, l.drawn, |w.log|);
        PasskeyCounterIsMild(cfg, o, w, counted, log);
      }
    } else {
      NobodySignedIn(o, w, c', cid, l.drawn, |w.log|);
      SamePasskeysRefl(s.auth.credentials);
      PasskeyCounterIsMild(cfg, o, w, s, log);
    }
  }

  lemma SamePasskeysRefl(a: map<Id, Credential>)
    ensures SamePasskeys(a, a)
  {
  }

  // ------------------------------------------------------------- steps that rotate or end a session

  lemma RotatedTenants(d: Directory, threads: map<Id, Thread>, challenges: map<Id, Challenge>, lives: map<string, Life>, p: string, h: string, life: Life)
    requires TenantsOk(d, threads, challenges, lives) && p in lives && lives[p].user == life.user && lives[p].app == life.app
    ensures TenantsOk(d, threads, challenges, lives[h := life])
  {
  }

  lemma RotatedMarks(cfg: Settings, o: Oracles, log: Log, a: Auth, b: Auth, lives: map<string, Life>, h: string, life: Life, doors: map<Id, Door>)
    requires h !in lives && h !in a.sessions && life.how.ByExchange? && Rotates(a, b, h, life) && b.sessions[h].enrollUntil.None?
    requires MarksOk(cfg, a.sessions, lives) && DoorsOk(cfg, o, log, a, lives, doors) && b.credentials == a.credentials && b.activations == a.activations
    ensures MarksOk(cfg, b.sessions, lives[h := life]) && DoorsOk(cfg, o, log, b, lives[h := life], doors)
  {
    hide DoorsOk, MarkedLife, ActivationsAdvance;
    SameActivations(a.activations);
    assert MarksFade(a.sessions, b.sessions);
    MarksKeep(cfg, a.sessions, b.sessions, lives, lives[h := life]);
    DoorsKeep(cfg, o, log, a, b, lives, lives[h := life], doors);
  }

  lemma RootOfParent(cfg: Settings, o: Oracles, log: Log, c: Config, lives: map<string, Life>, k: string)
    requires LivesOk(cfg, o, log, c, lives) && k in c.store.auth.codes && c.store.auth.codes[k].session in c.store.auth.sessions
    ensures var p := c.store.auth.codes[k].session; p in lives && Root(lives[p]) && lives[p].root == p && RowIs(c.store.auth.sessions, p, lives[p])
  {
    hide OneEach, TellsAll, IssuedAt, FactorAt;
    assert LifeOk(cfg, o, log, c, lives, c.store.auth.codes[k].session);
  }

  lemma RedeemStep(cfg: Settings, o: Oracles, w: World, l: Label, log: Log)
    requires InvIn(cfg, o, w, log) && l.Redeem? && Unused(o, w, l.drawn)
    ensures var c' := w.config.(store := Exchange(o, w.config.store, l.code, w.config.now, l.drawn).0);
      InvIn(cfg, o, World(c', log, Rotated(o, w.hist, w.config, c', l.code, l.drawn, |w.log|)), log)
  {
    hide ThreadsOk, TenantsOk, ChallengesOk, LivesOk, DoorsOk, MarksOk, UnlocksOk, OneCodeEach, Rotates, Root;
    var s, k, h := w.config.store, o.hash(l.code), o.hash(l.drawn.token);
    var c' := w.config.(store := Exchange(o, s, l.code, w.config.now, l.drawn).0);
    if Redeemable(s, k, w.config.now) {
      var p := s.auth.codes[k].session;
      RootOfParent(cfg, o, log, w.config, w.hist.lives, k);
      var row := s.auth.sessions[p];
      var life := Life(row.user, row.app, row.expiresAt, w.config.now, |w.log|, ByExchange(p, k), p);
      assert Rotated(o, w.hist, w.config, c', l.code, l.drawn, |w.log|) == w.hist.(lives := w.hist.lives[h := life]);
      ExchangeRotates(o, s, l.code, w.config.now, l.drawn, life);
      LivesAddChild(cfg, o, log, w.config, c', w.hist.lives, h, life);
      RotatedTenants(s.dir, w.config.threads, s.auth.challenges, w.hist.lives, p, h, life);
      RotatedMarks(cfg, o, log, s.auth, c'.store.auth, w.hist.lives, h, life, w.hist.doors);
    }
  }

  lemma ExchangeRotates(o: Oracles, s: Store, code: string, now: Time, drawn: Fresh, life: Life)
    requires var k := o.hash(code);
      && Redeemable(s, k, now) && life.how == ByExchange(s.auth.codes[k].session, k)
      && RowIs(s.auth.sessions, s.auth.codes[k].session, life)
    requires o.hash(drawn.token) !in s.auth.sessions
    ensures var s', h := Exchange(o, s, code, now, drawn).0, o.hash(drawn.token);
      && Rotates(s.auth, s'.auth, h, life) && s'.auth.sessions[h].enrollUntil.None? && !Root(life)
      && s' == s.(auth := s.auth.(sessions := s'.auth.sessions, codes := s'.auth.codes))
  {
  }

  lemma AuthStep(cfg: Settings, o: Oracles, w: World, b: Auth, log: Log)
    requires InvIn(cfg, o, w, log) && Mild(w.config.store.auth, b)
    requires ActivationsMild(o, log, w.config.store.auth.activations, b.activations, w.hist.unlocked)
    ensures InvIn(cfg, o, World(w.config.(store := w.config.store.(auth := b)), log, w.hist), log)
  {
    hide Stable, ThreadsOk, ThreadsMild, TenantsOk, ChallengesOk, LivesOk, DoorsOk, MarksOk, UnlocksOk, OneCodeEach, Mild, ActivationsMild;
    StableRefl(w.config.store.dir);
    SameThreadsAreMild(w.config.threads);
    Quiet(cfg, o, w, w.config.(store := w.config.store.(auth := b)), log);
  }

  lemma LogoutIsMild(o: Oracles, s: Store, raw: Option<string>)
    ensures Mild(s.auth, Logout(o, s, raw).auth)
  {
  }

  lemma RowsAreMild(a: Auth, cid: Id, nonce: Bytes, h: string)
    ensures cid in a.challenges ==>
      Mild(a, a.(challenges := a.challenges[cid := a.challenges[cid].(nonce := Some(nonce), ceremony := true)]))
    ensures h in a.sessions ==> Mild(a, a.(sessions := a.sessions[h := a.sessions[h].(nonce := Some(nonce))]))
    ensures Mild(a, a)
  {
  }

  lemma NonceIsMild(s: Store, cid: Id, now: Time, nonce: Bytes)
    ensures Mild(s.auth, WebAuthnOptions(s, cid, now, nonce).0.auth)
    ensures WebAuthnOptions(s, cid, now, nonce).0.auth.activations == s.auth.activations && WebAuthnOptions(s, cid, now, nonce).0.dir == s.dir
  {
    hide HasPasskey, Mild;
    RowsAreMild(s.auth, cid, nonce, "");
  }

  lemma EnrollNonceIsMild(o: Oracles, s: Store, raw: Option<string>, now: Time, nonce: Bytes)
    ensures Mild(s.auth, SessionOptions(o, s, raw, now, nonce).0.auth)
    ensures SessionOptions(o, s, raw, now, nonce).0.auth.activations == s.auth.activations && SessionOptions(o, s, raw, now, nonce).0.dir == s.dir
  {
    hide HasPasskey, Mild;
    RowsAreMild(s.auth, "", nonce, if raw.Some? then o.hash(raw.value) else "");
  }

  /** Signing out, and keeping a ceremony's nonce on a challenge or a session. */
  lemma SessionSteps(cfg: Settings, o: Oracles, w: World, l: Label, log: Log)
    requires InvIn(cfg, o, w, log)
    ensures l.SignOut? ==> InvIn(cfg, o, World(w.config.(store := Logout(o, w.config.store, l.raw)), log, w.hist), log)
    ensures l.StepUpOptions? ==>
      InvIn(cfg, o, World(w.config.(store := WebAuthnOptions(w.config.store, l.challenge, w.config.now, l.nonce).0), log, w.hist), log)
    ensures l.EnrollOptions? ==>
      InvIn(cfg, o, World(w.config.(store := SessionOptions(o, w.config.store, l.raw, w.config.now, l.nonce).0), log, w.hist), log)
  {
    hide InvIn, WebAuthnOptions, SessionOptions, Mild, ActivationsMild, UnlocksOk, OneCodeEach, DoorsOk, MarksOk, SessionsOk;
    var s := w.config.store;
    InvHasCodes(cfg, o, w, log);
    SameAuthIsMild(o, log, s.auth, w.hist.unlocked);
    if l.SignOut? {
      LogoutIsMild(o, s, l.raw);
      AuthStep(cfg, o, w, Logout(o, s, l.raw).auth, log);
    } else if l.StepUpOptions? {
      NonceIsMild(s, l.challenge, w.config.now, l.nonce);
      AuthStep(cfg, o, w, WebAuthnOptions(s, l.challenge, w.config.now, l.nonce).0.auth, log);
    } else if l.EnrollOptions? {
      EnrollNonceIsMild(o, s, l.raw, w.config.now, l.nonce);
      AuthStep(cfg, o, w, SessionOptions(o, s, l.raw, w.config.now, l.nonce).0.auth, log);
    }
  }

  lemma InvHasCodes(cfg: Settings, o: Oracles, w: World, log: Log)
    requires InvIn(cfg, o, w, log)
    ensures UnlocksOk(o, log, w.config.store.auth.activations, w.hist.unlocked) && OneCodeEach(w.config.store.auth.activations)
    ensures DoorsOk(cfg, o, log, w.config.store.auth, w.hist.lives, w.hist.doors)
    ensures MarksOk(cfg, w.config.store.auth.sessions, w.hist.lives) && SessionsOk(w.config.store.auth.sessions, w.hist.lives)
  {
    hide ThreadsOk, TenantsOk, ChallengesOk, DoorsOk, MarksOk, UnlocksOk, OneCodeEach, SessionsOk, CodesOk, OneEach, LifeOk;
  }

  // ------------------------------------------------------------- steps that enroll

  lemma UnlockingIsMild(o: Oracles, log: Log, a: map<string, ActivationCode>, unlocked: map<string, nat>, k: string, nonce: Bytes, at: nat)
    requires UnlocksOk(o, log, a, unlocked) && OneCodeEach(a) && k in a && UnlockedAt(o, log, at, k, a[k].user)
    ensures ActivationsMild(o, log, a, a[k := a[k].(nonce := Some(nonce))], unlocked[k := at])
  {
  }

  /** The nonce on a code, and the step at which its password was shown. */
  lemma UnlockStep(cfg: Settings, o: Oracles, w: World, l: Label, log: Log)
    requires InvIn(cfg, o, w, log) && l.ActivateOptions? && log == w.log + [Moment(w.config, l)]
    requires Unlocks(o, w.config.store, HashCode(o, l.code), l.password, w.config.now)
    ensures var c' := w.config.(store := ActivationOptions(o, w.config.store, l.code, l.password, w.config.now, l.nonce).0);
      InvIn(cfg, o, World(c', log, w.hist.(unlocked := w.hist.unlocked[HashCode(o, l.code) := |w.log|])), log)
  {
    hide HashCode, InvIn, ActivationsMild, UnlocksOk, OneCodeEach, DoorsOk, MarksOk, SessionsOk, Mild;
    var s, k := w.config.store, HashCode(o, l.code);
    var c' := w.config.(store := ActivationOptions(o, s, l.code, l.password, w.config.now, l.nonce).0);
    var later := w.hist.unlocked[k := |w.log|];
    InvHasCodes(cfg, o, w, log);
    assert UnlockedAt(o, log, |w.log|, k, s.auth.activations[k].user);
    hide UnlockedAt, Unlocks;
    LaterUnlock(o, log, s.auth.activations, w.hist.unlocked, k, |w.log|);
    UnlockingIsMild(o, log, s.auth.activations, w.hist.unlocked, k, l.nonce, |w.log|);
    MildIgnoresActivations(s.auth, c'.store.auth.activations);
    InvWithUnlocks(cfg, o, w, log, later);
    AuthStep(cfg, o, w.(hist := w.hist.(unlocked := later)), c'.store.auth, log);
  }

  lemma LaterUnlock(o: Oracles, log: Log, a: map<string, ActivationCode>, unlocked: map<string, nat>, k: string, at: nat)
    requires UnlocksOk(o, log, a, unlocked) && k in a && UnlockedAt(o, log, at, k, a[k].user)
    ensures UnlocksOk(o, log, a, unlocked[k := at])
  {
  }

  lemma InvWithUnlocks(cfg: Settings, o: Oracles, w: World, log: Log, unlocked: map<string, nat>)
    requires InvIn(cfg, o, w, log) && UnlocksOk(o, log, w.config.store.auth.activations, unlocked)
    ensures InvIn(cfg, o, w.(hist := w.hist.(unlocked := unlocked)), log)
  {
    hide ThreadsOk, TenantsOk, ChallengesOk, LivesOk, DoorsOk, MarksOk, UnlocksOk, OneCodeEach;
  }

  lemma InvAt(cfg: Settings, o: Oracles, w: World, log: Log)
    requires InvIn(cfg, o, w, log)
    ensures InvIn(cfg, o, World(w.config, log, w.hist), log)
  {
    hide ThreadsOk, TenantsOk, ChallengesOk, LivesOk, DoorsOk, MarksOk, UnlocksOk, OneCodeEach;
  }

  /** Passkeys appeared through a door, once the rest of the step has been taken. */
  lemma DoorStep(cfg: Settings, o: Oracles, w: World, c: Config, c': Config, log: Log, before: map<Id, Credential>, door: Door)
    requires InvIn(cfg, o, w, log) && w.config == c'.(store := c'.store.(auth := c'.store.auth.(credentials := before)))
    requires before == c.store.auth.credentials
    requires forall k :: k in before ==> k in c'.store.auth.credentials && c'.store.auth.credentials[k].user == before[k].user
    requires forall k :: k in c'.store.auth.credentials && k !in before ==>
      DoorOk(cfg, o, log, c'.store.auth, w.hist.lives, c'.store.auth.credentials[k].user, door)
    requires forall k :: k in w.hist.doors ==> !SameDoor(w.hist.doors[k], door) && !SameDoor(door, w.hist.doors[k])
    requires SameDoor(door, door) ==>
      forall j, k :: j in c'.store.auth.credentials && k in c'.store.auth.credentials && j !in before && k !in before ==> j == k
    ensures InvIn(cfg, o, World(c', log, Entered(w.hist, c, c', door)), log)
  {
    hide ThreadsOk, TenantsOk, ChallengesOk, DoorsOk, MarksOk, UnlocksOk, OneCodeEach, SameDoor, DoorOk, LivesOk;
    DoorsOpen(cfg, o, log, c'.store.auth, w.hist.lives, w.hist.doors, before, door);
    CredentialsDoNotMatter(cfg, o, log, w.config, c', w.hist.lives);
  }

  lemma CredentialsDoNotMatter(cfg: Settings, o: Oracles, log: Log, c: Config, c': Config, lives: map<string, Life>)
    requires LivesOk(cfg, o, log, c, lives)
    requires c == c'.(store := c'.store.(auth := c'.store.auth.(credentials := c.store.auth.credentials)))
    ensures LivesOk(cfg, o, log, c', lives)
  {
  }

  /** Nothing has been enrolled by a session that is still marked. */
  lemma MarkedIsUnused(cfg: Settings, o: Oracles, log: Log, auth: Auth, lives: map<string, Life>, doors: map<Id, Door>, h: string, k: nat)
    requires DoorsOk(cfg, o, log, auth, lives, doors) && h in auth.sessions && auth.sessions[h].enrollUntil.Some?
    ensures forall x :: x in doors ==> !SameDoor(doors[x], BySession(h, k)) && !SameDoor(BySession(h, k), doors[x])
  {
  }

  lemma OpenIsUnused(cfg: Settings, o: Oracles, log: Log, auth: Auth, lives: map<string, Life>, doors: map<Id, Door>, code: string, j: nat, k: nat)
    requires DoorsOk(cfg, o, log, auth, lives, doors) && code in auth.activations && auth.activations[code].consumedAt.None?
    ensures forall x :: x in doors ==> !SameDoor(doors[x], ByActivation(code, j, k)) && !SameDoor(ByActivation(code, j, k), doors[x])
  {
  }

  lemma SpentMarkIsMild(a: Auth, h: string)
    requires h in a.sessions
    ensures Mild(a, a.(sessions := a.sessions[h := a.sessions[h].(enrollUntil := None, nonce := None)]))
  {
  }

  /** What an accepted enrollment leaves, from either door. */
  lemma EnrollingAdds(o: Oracles, credentials: map<Id, Credential>, user: Id, nonce: Bytes, answer: Assertion)
    requires WithCredential(o, credentials, user, nonce, answer).Ok?
    ensures var after := WithCredential(o, credentials, user, nonce, answer).value;
      && (forall k :: k in credentials ==> k in after && after[k] == credentials[k])
      && (forall k :: k in after && k !in credentials ==> after[k].user == user)
      && (forall j, k :: j in after && k in after && j !in credentials && k !in credentials ==> j == k)
  {
  }

  lemma NothingEntered(h: History, c: Config, c': Config, door: Door)
    requires c'.store.auth.credentials == c.store.auth.credentials
    ensures Entered(h, c, c', door) == h
  {
  }

  lemma SessionDoor(cfg: Settings, o: Oracles, w: World, l: Label, log: Log, h: string)
    requires InvIn(cfg, o, w, log) && l.EnrollVerify? && log == w.log + [Moment(w.config, l)] && l.raw.Some? && h == o.hash(l.raw.value)
    requires MayEnroll(w.config.store.auth.sessions, h, w.config.now)
    ensures forall auth: Auth :: h in auth.sessions && auth.sessions[h].enrollUntil.None? ==>
      DoorOk(cfg, o, log, auth, w.hist.lives, w.config.store.auth.sessions[h].user, BySession(h, |w.log|))
  {
    InvHasCodes(cfg, o, w, log);
    hide InvIn, DoorsOk, UnlocksOk, OneCodeEach, MarkedLife;
  }

  lemma SessionVerifyStep(cfg: Settings, o: Oracles, w: World, l: Label, log: Log)
    requires InvIn(cfg, o, w, log) && l.EnrollVerify? && log == w.log + [Moment(w.config, l)]
    requires l.raw.Some? && SessionVerify(o, w.config.store, l.raw, l.answer, w.config.now).1.Ok?
    ensures var c' := w.config.(store := SessionVerify(o, w.config.store, l.raw, l.answer, w.config.now).0);
      InvIn(cfg, o, World(c', log, Entered(w.hist, w.config, c', BySession(o.hash(l.raw.value), |w.log|))), log)
  {
    hide InvIn, ActivationsMild, UnlocksOk, OneCodeEach, DoorsOk, MarksOk, SessionsOk, Mild, WithCredential, DoorOk, SameDoor, Entered;
    var s, h, k := w.config.store, o.hash(l.raw.value), |w.log|;
    var c' := w.config.(store := SessionVerify(o, s, l.raw, l.answer, w.config.now).0);
    var row := s.auth.sessions[h];
    var spent := s.auth.(sessions := c'.store.auth.sessions);
    InvHasCodes(cfg, o, w, log);
    SameAuthIsMild(o, log, s.auth, w.hist.unlocked);
    SpentMarkIsMild(s.auth, h);
    AuthStep(cfg, o, w, spent, log);
    SessionDoor(cfg, o, w, l, log, h);
    MarkedIsUnused(cfg, o, log, s.auth, w.hist.lives, w.hist.doors, h, k);
    EnrollingAdds(o, s.auth.credentials, row.user, row.nonce.value, l.answer);
    DoorStep(cfg, o, World(w.config.(store := s.(auth := spent)), log, w.hist), w.config, c', log, s.auth.credentials, BySession(h, k));
  }

  lemma SpentCodeIsMild(o: Oracles, log: Log, a: map<string, ActivationCode>, unlocked: map<string, nat>, k: string, now: Time)
    requires UnlocksOk(o, log, a, unlocked) && OneCodeEach(a) && k in a && a[k].consumedAt.None?
    ensures ActivationsMild(o, log, a, a[k := a[k].(consumedAt := Some(now))], unlocked)
  {
  }

  lemma UnlockIsEarlier(o: Oracles, log: Log, k: nat, code: string, user: Id)
    requires UnlockedAt(o, log, k, code, user)
    ensures k < |log|
  {
  }

  ghost predicate SpentBy(auth: Auth, k: string, user: Id) {
    k in auth.activations && auth.activations[k].consumedAt.Some? && auth.activations[k].user == user
  }

  lemma CodeDoor(cfg: Settings, o: Oracles, w: World, l: Label, log: Log, k: string)
    requires InvIn(cfg, o, w, log) && Inv(cfg, o, w) && l.ActivateVerify? && log == w.log + [Moment(w.config, l)] && k == HashCode(o, l.code)
    requires OpenCode(w.config.store.auth.activations, k, w.config.now) && w.config.store.auth.activations[k].nonce.Some?
    ensures k in w.hist.unlocked
    ensures forall auth: Auth :: SpentBy(auth, k, w.config.store.auth.activations[k].user) ==>
      DoorOk(cfg, o, log, auth, w.hist.lives, w.config.store.auth.activations[k].user, ByActivation(k, w.hist.unlocked[k], |w.log|))
  {
    InvHasCodes(cfg, o, w, log);
    InvHasCodes(cfg, o, w, w.log);
    hide InvIn, Inv, DoorsOk, MarksOk, OneCodeEach, UnlockedAt, HashCode, SessionsOk;
    assert UnlockedAt(o, log, w.hist.unlocked[k], k, w.config.store.auth.activations[k].user);
    UnlockIsEarlier(o, w.log, w.hist.unlocked[k], k, w.config.store.auth.activations[k].user);
    assert ActivatedAt(o, log, |w.log|, k);
  }

  lemma ActivationVerifyStep(cfg: Settings, o: Oracles, w: World, l: Label, log: Log)
    requires InvIn(cfg, o, w, log) && Inv(cfg, o, w) && l.ActivateVerify? && log == w.log + [Moment(w.config, l)]
    requires ActivationVerify(o, w.config.store, l.code, l.answer, w.config.now).1.Ok?
    ensures var c' := w.config.(store := ActivationVerify(o, w.config.store, l.code, l.answer, w.config.now).0);
      var k := HashCode(o, l.code);
      k in w.hist.unlocked && InvIn(cfg, o, World(c', log, Entered(w.hist, w.config, c', ByActivation(k, w.hist.unlocked[k], |w.log|))), log)
  {
    hide InvIn, Inv, ActivationsMild, UnlocksOk, OneCodeEach, DoorsOk, MarksOk, SessionsOk, Mild, WithCredential, DoorOk, SameDoor, Entered, HashCode;
    var s, k := w.config.store, HashCode(o, l.code);
    var c' := w.config.(store := ActivationVerify(o, s, l.code, l.answer, w.config.now).0);
    var row := s.auth.activations[k];
    var spent := s.auth.(activations := c'.store.auth.activations);
    InvHasCodes(cfg, o, w, log);
    CodeDoor(cfg, o, w, l, log, k);
    SpentCodeIsMild(o, log, s.auth.activations, w.hist.unlocked, k, w.config.now);
    MildIgnoresActivations(s.auth, spent.activations);
    AuthStep(cfg, o, w, spent, log);
    assert SpentBy(c'.store.auth, k, row.user);
    OpenIsUnused(cfg, o, log, s.auth, w.hist.lives, w.hist.doors, k, w.hist.unlocked[k], |w.log|);
    EnrollingAdds(o, s.auth.credentials, row.user, row.nonce.value, l.answer);
    DoorStep(cfg, o, World(w.config.(store := s.(auth := spent)), log, w.hist), w.config, c', log, s.auth.credentials,
      ByActivation(k, w.hist.unlocked[k], |w.log|));
  }

  lemma ImportStep(cfg: Settings, o: Oracles, w: World, l: Label, log: Log)
    requires InvIn(cfg, o, w, log) && l.ImportKeys? && log == w.log + [Moment(w.config, l)]
    ensures var c' := w.config.(store := Importing(w.config, l.items));
      InvIn(cfg, o, World(c', log, Entered(w.hist, w.config, c', Imported(|w.log|))), log)
  {
    hide InvIn, Entered, DoorsOk, MarksOk, SessionsOk, UnlocksOk, OneCodeEach, Passkeys.Import;
    var before := w.config.store.auth.credentials;
    if Passkeys.Import(w.config.store.dir.users.Keys, before, l.items).Some? {
      Passkeys.ImportAdvances(w.config.store.dir.users.Keys, before, l.items);
    }
    InvAt(cfg, o, w, log);
    DoorStep(cfg, o, World(w.config, log, w.hist), w.config, w.config.(store := Importing(w.config, l.items)), log, before, Imported(|w.log|));
  }

  // ------------------------------------------------------------- every step

  lemma TickStep(cfg: Settings, o: Oracles, w: World, c': Config, log: Log)
    requires InvIn(cfg, o, w, log) && c'.threads == w.config.threads && c'.store == w.config.store
    ensures InvIn(cfg, o, World(c', log, w.hist), log)
  {
    hide InvIn, Stable;
    StableRefl(w.config.store.dir);
    DirectoryStep(cfg, o, w, c', log);
  }

  lemma StartStep(cfg: Settings, o: Oracles, w: World, th: Id, attempt: Option<Attempt>, log: Log)
    requires InvIn(cfg, o, w, log) && th !in w.config.threads && (attempt.Some? ==> Homed(w.config.store.dir, attempt.value))
    ensures InvIn(cfg, o, World(Starting(w.config, th, attempt, Bare(INVALID_CREDENTIALS)).0, log, w.hist), log)
  {
    hide ThreadsOk, TenantsOk, ChallengesOk, LivesOk, DoorsOk, MarksOk, UnlocksOk, OneCodeEach, SharesTenant, ThreadOk;
    var t := Starting(w.config, th, attempt, Bare(INVALID_CREDENTIALS)).0.threads[th];
    if attempt.Some? {
      RoutedIsOk(cfg, o, log, w.hist.stories, th, attempt.value);
    } else {
      ModestAnswer(cfg, o, log, w.hist.stories, th, t.answer);
    }
    ThreadEnds(cfg, o, log, w.config.threads, w.hist.stories, th, t);
    ThreadStep(cfg, o, w, th, t, w.hist.stories, log);
  }

  /** Either door routes a login to an application of the tenant it names. */
  lemma RoutesAreHomed(d: Directory, app: Id, email: string, password: string, requested: Option<string>)
    ensures RouteApp(d, app, email, password, requested).Ok? ==> Homed(d, RouteApp(d, app, email, password, requested).value)
    ensures RouteConsole(d, email, password).Some? ==> Homed(d, RouteConsole(d, email, password).value)
  {
    hide TenantForOperatorEmail;
  }

  lemma RoutedIsOk(cfg: Settings, o: Oracles, log: Log, stories: map<Id, Story>, th: Id, a: Attempt)
    ensures ThreadOk(cfg, o, log, stories, th, Routed(a))
  {
  }

  lemma LoginSteps(cfg: Settings, o: Oracles, w: World, l: Label)
    requires Inv(cfg, o, w) && Allowed(o, w, l)
    requires l.Tick? || l.StartApp? || l.StartConsole? || l.CheckPassword? || l.Decide? || l.Look? || l.Enforce?
    ensures Inv(cfg, o, Next(cfg, o, w, l))
  {
    hide InvIn, Checking, Deciding, Looking, Enforcing, Starting, RouteApp, RouteConsole, TellOne, Enforced, Unused,
      VerifyOtp, WebAuthnOptions, VerifyWebAuthn, Exchange, Logout, SessionOptions, SessionVerify, ActivationOptions, ActivationVerify,
      Admin.Execute, Admin.CreateTenant, Admin.PatchTenant, Importing, Reseeding;
    var log := w.log + [Moment(w.config, l)];
    InvOutlasts(cfg, o, w, Moment(w.config, l));
    TickStep(cfg, o, w, w.config, log);
    if l.Tick? {
      TickStep(cfg, o, w, w.config.(now := w.config.now + l.seconds), log);
    } else if l.StartApp? {
      if l.thread !in w.config.threads && RouteApp(w.config.store.dir, l.app, l.email, l.password, l.requested).Ok? {
        RoutesAreHomed(w.config.store.dir, l.app, l.email, l.password, l.requested);
        StartStep(cfg, o, w, l.thread, Some(RouteApp(w.config.store.dir, l.app, l.email, l.password, l.requested).value), log);
      }
    } else if l.StartConsole? {
      if l.thread !in w.config.threads {
        RoutesAreHomed(w.config.store.dir, "", l.email, l.password, None);
        StartStep(cfg, o, w, l.thread, RouteConsole(w.config.store.dir, l.email, l.password), log);
      }
    } else if l.thread in w.config.threads {
      MovesOn(cfg, o, w, l);
      if l.CheckPassword? && w.config.threads[l.thread].Routed? {
        CheckStep(cfg, o, w, l.thread, log);
      } else if l.Decide? && w.config.threads[l.thread].Checked? {
        DecideStep(cfg, o, w, l, log);
      } else if l.Look? && w.config.threads[l.thread].Ruled? {
        LookStep(cfg, o, w, l.thread, log);
      } else if l.Enforce? && w.config.threads[l.thread].Ready? {
        if w.config.threads[l.thread].ruling.action == ALLOW {
          IssueStep(cfg, o, w, l, log);
        } else {
          OpeningStep(cfg, o, w, l, log);
        }
      } else {
        UnmovedHist(o, w, l);
      }
    } else {
      UnmovedHist(o, w, l);
    }
  }

  /** A step of a login that applies does something. */
  lemma MovesOn(cfg: Settings, o: Oracles, w: World, l: Label)
    requires l.CheckPassword? || l.Decide? || l.Look? || l.Enforce?
    requires l.thread in w.config.threads
    ensures l.CheckPassword? && w.config.threads[l.thread].Routed? ==> Checking(o, w.config, l.thread).0 != w.config
    ensures l.Decide? && w.config.threads[l.thread].Checked? ==>
      Deciding(cfg, w.config, l.thread, l.policy, l.pdp, l.event).0 != w.config
    ensures l.Look? && w.config.threads[l.thread].Ruled? ==> Looking(cfg, w.config, l.thread).0 != w.config
  {
  }

  lemma UnmovedHist(o: Oracles, w: World, l: Label)
    requires l.CheckPassword? || l.Decide? || l.Look? || l.Enforce?
    ensures Record(o, w.hist, w.config, w.config, l, |w.log|) == w.hist
  {
  }

  lemma StepUpSteps(cfg: Settings, o: Oracles, w: World, l: Label)
    requires Inv(cfg, o, w) && Allowed(o, w, l)
    requires l.StepUpOtp? || l.StepUpOptions? || l.StepUpPasskey? || l.Redeem? || l.SignOut? || l.EnrollOptions?
    ensures Inv(cfg, o, Next(cfg, o, w, l))
  {
    hide InvIn, Checking, Deciding, Looking, Enforcing, Starting, RouteApp, RouteConsole, TellOne, Enforced, Unused, SteppedUp, Rotated,
      VerifyOtp, WebAuthnOptions, VerifyWebAuthn, Exchange, Logout, SessionOptions, SessionVerify, ActivationOptions, ActivationVerify,
      Admin.Execute, Admin.CreateTenant, Admin.PatchTenant, Importing, Reseeding;
    var log := w.log + [Moment(w.config, l)];
    InvOutlasts(cfg, o, w, Moment(w.config, l));
    if l.StepUpOtp? {
      OtpStep(cfg, o, w, l, log);
    } else if l.StepUpPasskey? {
      PasskeyStep(cfg, o, w, l, log);
    } else if l.Redeem? {
      RedeemStep(cfg, o, w, l, log);
    } else {
      SessionSteps(cfg, o, w, l, log);
    }
  }

  lemma EnrollSteps(cfg: Settings, o: Oracles, w: World, l: Label)
    requires Inv(cfg, o, w) && (l.EnrollVerify? || l.ActivateOptions? || l.ActivateVerify? || l.ImportKeys?)
    ensures Inv(cfg, o, Next(cfg, o, w, l))
  {
    hide InvIn, Checking, Deciding, Looking, Enforcing, Starting, RouteApp, RouteConsole, TellOne, Enforced, Unused, SteppedUp, Rotated,
      VerifyOtp, WebAuthnOptions, VerifyWebAuthn, Exchange, Logout, SessionOptions, HashCode, Entered, WithCredential, Unlocks,
      Admin.Execute, Admin.CreateTenant, Admin.PatchTenant, Importing, Reseeding;
    var log, s := w.log + [Moment(w.config, l)], w.config.store;
    InvOutlasts(cfg, o, w, Moment(w.config, l));
    InvAt(cfg, o, w, log);
    match l
    case EnrollVerify(raw, answer) =>
      if SessionVerify(o, s, raw, answer, w.config.now).1.Ok? {
        SessionVerifyStep(cfg, o, w, l, log);
      } else if raw.Some? {
        NothingEntered(w.hist, w.config, w.config, BySession(o.hash(raw.value), |w.log|));
      }
    case ActivateOptions(code, password, nonce) =>
      if Unlocks(o, s, HashCode(o, code), password, w.config.now) {
        UnlockStep(cfg, o, w, l, log);
      }
    case ActivateVerify(code, answer) =>
      var k := HashCode(o, code);
      if ActivationVerify(o, s, code, answer, w.config.now).1.Ok? {
        ActivationVerifyStep(cfg, o, w, l, log);
      } else {
        NothingEntered(w.hist, w.config, w.config, ByActivation(k, if k in w.hist.unlocked then w.hist.unlocked[k] else 0, |w.log|));
      }
    case ImportKeys(items) => ImportStep(cfg, o, w, l, log);
  }

  lemma AdminSteps(cfg: Settings, o: Oracles, w: World, l: Label)
    requires Inv(cfg, o, w) && (l.Manage? || l.AddTenant? || l.EditTenant? || l.Reseed?)
    ensures Inv(cfg, o, Next(cfg, o, w, l))
  {
    hide InvIn, Checking, Deciding, Looking, Enforcing, Starting, RouteApp, RouteConsole, TellOne, Enforced, Unused, SteppedUp, Rotated,
      VerifyOtp, WebAuthnOptions, VerifyWebAuthn, Exchange, Logout, SessionOptions, SessionVerify, ActivationOptions, ActivationVerify,
      Admin.Execute, Admin.CreateTenant, Admin.PatchTenant, Importing, Reseeding;
    var log := w.log + [Moment(w.config, l)];
    InvOutlasts(cfg, o, w, Moment(w.config, l));
    match l
    case Manage(op, call) => ManageStep(cfg, o, w, op, call, log);
    case AddTenant(_, _, _, _, _) => AddTenantStep(cfg, o, w, l, log);
    case EditTenant(t, p) => EditTenantStep(cfg, o, w, t, p, log);
    case Reseed(specs, rnd) => ReseedStep(cfg, o, w, specs, rnd, log);
  }

  /** Whatever happens next, the invariant still holds. */
  lemma StepKeepsInv(cfg: Settings, o: Oracles, w: World, l: Label)
    requires Inv(cfg, o, w) && Allowed(o, w, l)
    ensures Inv(cfg, o, Next(cfg, o, w, l))
  {
    hide Inv, Next, Allowed;
    if l.Manage? || l.AddTenant? || l.EditTenant? || l.Reseed? {
      AdminSteps(cfg, o, w, l);
    } else if l.EnrollVerify? || l.ActivateOptions? || l.ActivateVerify? || l.ImportKeys? {
      EnrollSteps(cfg, o, w, l);
    } else if l.StepUpOtp? || l.StepUpOptions? || l.StepUpPasskey? || l.Redeem? || l.SignOut? || l.EnrollOptions? {
      StepUpSteps(cfg, o, w, l);
    } else {
      LoginSteps(cfg, o, w, l);
    }
  }

  lemma InitialInv(cfg: Settings, o: Oracles, w: World)
    requires Initial(w)
    ensures Inv(cfg, o, w)
  {
  }

  lemma {:induction false} RunKeepsInv(cfg: Settings, o: Oracles, w: World, ls: seq<Label>)
    requires Inv(cfg, o, w) && Run(cfg, o, w, ls)
    ensures Inv(cfg, o, After(cfg, o, w, ls))
    decreases |ls|
  {
    hide Inv, Next, Allowed;
    if ls != [] {
      StepKeepsInv(cfg, o, w, ls[0]);
      RunKeepsInv(cfg, o, Next(cfg, o, w, ls[0]), ls[1..]);
    }
  }
}
