/**
 What every run keeps: where each login, challenge, session and passkey came from.

 Evidence is a place in the log: `TellsCheck` says that at that step this very
 login was checked and the password, the tenant and the role were right.
 */
module MachineInvariant {
  import opened Wrappers
  import opened Models
  import opened Authz
  import opened Login
  import opened Enrollment
  import opened DirectoryInvariant
  import opened Machine

  type Log = seq<Moment>

  // ------------------------------------------------------------- evidence

  ghost predicate TellsCheck(o: Oracles, log: Log, th: Id, st: Story) {
    && st.check < |log| && log[st.check].took == CheckPassword(th)
    && th in log[st.check].config.threads && log[st.check].config.threads[th] == Routed(st.attempt)
    && Check(log[st.check].config.store.dir, o, st.attempt) == Passed(st.user, st.always)
  }

  ghost predicate RuledAt(cfg: Settings, log: Log, k: nat, th: Id, a: Attempt, u: Id, always: bool, r: Ruling) {
    && k < |log| && log[k].took.Decide? && log[k].took.thread == th
    && th in log[k].config.threads && log[k].config.threads[th] == Checked(a, u, always)
    && r == Rule(cfg, log[k].took.policy, log[k].took.pdp, log[k].took.event, always)
  }

  ghost predicate TellsRule(cfg: Settings, log: Log, th: Id, st: Story) {
    st.check < st.rule && RuledAt(cfg, log, st.rule, th, st.attempt, st.user, st.always, st.ruling)
  }

  ghost predicate TellsLook(cfg: Settings, log: Log, th: Id, st: Story) {
    && st.rule < st.look < |log| && log[st.look].took == Look(th)
    && st.flag == Flag(cfg, log[st.look].config.store, st.user, st.ruling)
  }

  /** The login was checked, ruled on and looked at, in that order, with these results. */
  ghost predicate TellsAll(cfg: Settings, o: Oracles, log: Log, th: Id, st: Story) {
    TellsCheck(o, log, th, st) && TellsRule(cfg, log, th, st) && TellsLook(cfg, log, th, st)
  }

  /** At this step the challenge was open, its user still had a role, and a second factor was verified for it. */
  ghost predicate FactorAt(cfg: Settings, o: Oracles, log: Log, k: nat, cid: Id, h: string) {
    && k < |log|
    && var s, l := log[k].config.store, log[k].took;
    && Open(s.auth.challenges, cid, log[k].config.now)
    && HasAccess(s.dir, s.auth.challenges[cid].user, s.auth.challenges[cid].app)
    && ((l.StepUpOtp? && l.challenge == cid && cfg.mockOtp && l.otp == cfg.otpCode && o.hash(l.drawn.token) == h)
        || (l.StepUpPasskey? && l.challenge == cid && s.auth.challenges[cid].nonce.Some? && o.hash(l.drawn.token) == h
            && Assert(o, s, s.auth.challenges[cid], l.answer).Some?))
  }

  ghost predicate IssuedAt(o: Oracles, log: Log, k: nat, th: Id, h: string, at: Time) {
    k < |log| && log[k].took.Enforce? && log[k].took.thread == th && o.hash(log[k].took.drawn.token) == h && log[k].config.now == at
  }

  /** At this step the code was open and the password of its user was shown. */
  ghost predicate UnlockedAt(o: Oracles, log: Log, k: nat, code: string, user: Id) {
    && k < |log| && log[k].took.ActivateOptions? && HashCode(o, log[k].took.code) == code
    && Unlocks(o, log[k].config.store, code, log[k].took.password, log[k].config.now)
    && log[k].config.store.auth.activations[code].user == user
  }

  ghost predicate EnrolledAt(o: Oracles, log: Log, k: nat, h: string, until: Time) {
    && k < |log| && log[k].took.EnrollVerify? && log[k].took.raw.Some? && o.hash(log[k].took.raw.value) == h
    && MayEnroll(log[k].config.store.auth.sessions, h, log[k].config.now) && log[k].config.now < until
  }

  ghost predicate ActivatedAt(o: Oracles, log: Log, k: nat, code: string) {
    && k < |log| && log[k].took.ActivateVerify? && HashCode(o, log[k].took.code) == code
    && OpenCode(log[k].config.store.auth.activations, code, log[k].config.now)
  }

  // ------------------------------------------------------------- logins in progress

  ghost predicate StoryIs(st: Story, a: Attempt, u: Id, always: bool) {
    st.attempt == a && st.user == u && st.always == always
  }

  /** Whatever an answer gives away was earned. */
  ghost predicate AnswerEarned(cfg: Settings, o: Oracles, log: Log, stories: map<Id, Story>, th: Id, answer: LoginResponse) {
    && (answer.outcome == BLOCKED ==> exists k, a, u, always, r :: RuledAt(cfg, log, k, th, a, u, always, r) && r.action == BLOCK)
    && (answer.passkeyOffer ==>
          th in stories && TellsAll(cfg, o, log, th, stories[th]) && stories[th].ruling.action == ALLOW
          && stories[th].flag && TrustedContext(stories[th].ruling))
  }

  ghost predicate ThreadOk(cfg: Settings, o: Oracles, log: Log, stories: map<Id, Story>, th: Id, t: Thread) {
    match t
    case Routed(_) => true
    case Checked(a, u, always) => th in stories && StoryIs(stories[th], a, u, always) && TellsCheck(o, log, th, stories[th])
    case Ruled(a, u, always, r) =>
      && th in stories && StoryIs(stories[th], a, u, always) && stories[th].ruling == r && r.action != BLOCK
      && TellsCheck(o, log, th, stories[th]) && TellsRule(cfg, log, th, stories[th])
    case Ready(a, u, always, r, flag) =>
      && th in stories && StoryIs(stories[th], a, u, always) && stories[th].ruling == r && r.action != BLOCK && stories[th].flag == flag
      && TellsAll(cfg, o, log, th, stories[th])
    case Done(answer) => AnswerEarned(cfg, o, log, stories, th, answer)
  }

  ghost predicate ThreadsOk(cfg: Settings, o: Oracles, log: Log, threads: map<Id, Thread>, stories: map<Id, Story>) {
    forall th :: th in threads ==> ThreadOk(cfg, o, log, stories, th, threads[th])
  }

  // ------------------------------------------------------------- tenants

  ghost predicate SharesTenant(d: Directory, user: Id, app: Id) {
    user in d.users && app in d.apps && d.users[user].tenant == d.apps[app].tenant
  }

  /** A login in progress is on an application of the tenant it was routed to, and then of its user. */
  ghost predicate ThreadAtHome(d: Directory, t: Thread) {
    match t
    case Routed(a) => Homed(d, a)
    case Done(_) => true
    case _ => SharesTenant(d, t.user, t.attempt.app)
  }

  ghost predicate Homed(d: Directory, a: Attempt) { a.app in d.apps && d.apps[a.app].tenant == a.tenant }

  ghost predicate TenantsOk(d: Directory, threads: map<Id, Thread>, challenges: map<Id, Challenge>, lives: map<string, Life>) {
    && (forall th :: th in threads ==> ThreadAtHome(d, threads[th]))
    && (forall c :: c in challenges ==> SharesTenant(d, challenges[c].user, challenges[c].app))
    && (forall h :: h in lives ==> SharesTenant(d, lives[h].user, lives[h].app))
  }

  // ------------------------------------------------------------- challenges

  ghost predicate ChallengeOk(cfg: Settings, o: Oracles, log: Log, c: Challenge, opening: Opening) {
    var st := opening.story;
    && TellsAll(cfg, o, log, opening.thread, st) && st.ruling.action != ALLOW && st.ruling.action != BLOCK
    && c.user == st.user && c.app == st.attempt.app && c.risk == RiskOf(st.ruling)
    && (c.deniedReason.Some? <==> !st.flag) && (c.deniedReason.Some? ==> c.consumedAt.Some?)
  }

  ghost predicate ChallengesOk(cfg: Settings, o: Oracles, log: Log, challenges: map<Id, Challenge>, openings: map<Id, Opening>) {
    forall cid :: cid in challenges ==> cid in openings && ChallengeOk(cfg, o, log, challenges[cid], openings[cid])
  }

  // ------------------------------------------------------------- sessions and their callback codes

  /** A session that began a lineage. */
  predicate Root(life: Life) { !life.how.ByExchange? }

  ghost predicate LoginLife(cfg: Settings, o: Oracles, log: Log, threads: map<Id, Thread>, h: string, life: Life)
    requires life.how.ByLogin?
  {
    var th, st := life.how.thread, life.how.story;
    && TellsAll(cfg, o, log, th, st) && st.look < life.step && st.ruling.action == ALLOW
    && st.user == life.user && st.attempt.app == life.app
    && IssuedAt(o, log, life.step, th, h, life.at)
    && th in threads && threads[th].Done?
  }

  ghost predicate StepUpLife(cfg: Settings, o: Oracles, log: Log, challenges: map<Id, Challenge>, h: string, life: Life)
    requires life.how.ByStepUp?
  {
    var cid, st := life.how.challenge, life.how.opening.story;
    && TellsAll(cfg, o, log, life.how.opening.thread, st) && st.look < life.step && st.ruling.action != ALLOW && st.ruling.action != BLOCK
    && st.user == life.user && st.attempt.app == life.app && st.flag
    && cid in challenges && challenges[cid].consumedAt == Some(life.at) && challenges[cid].deniedReason.None?
    && challenges[cid].user == life.user && challenges[cid].app == life.app
    && FactorAt(cfg, o, log, life.step, cid, h) && log[life.step].config.now == life.at
  }

  ghost predicate ChildLife(lives: map<string, Life>, codes: map<string, AuthCode>, sessions: map<string, Session>, life: Life)
    requires life.how.ByExchange?
  {
    var p, k := life.how.parent, life.how.code;
    && p in lives && Root(lives[p]) && life.root == p && p !in sessions
    && life.user == lives[p].user && life.app == lives[p].app && life.expiresAt == lives[p].expiresAt
    && k in codes && codes[k].consumedAt.Some? && codes[k].session == p
  }

  ghost predicate LifeOk(cfg: Settings, o: Oracles, log: Log, c: Config, lives: map<string, Life>, h: string)
    requires h in lives
  {
    match lives[h].how
    case ByLogin(_, _) => lives[h].root == h && lives[h].expiresAt == lives[h].at + cfg.sessionTtl && LoginLife(cfg, o, log, c.threads, h, lives[h])
    case ByStepUp(_, _) => lives[h].root == h && lives[h].expiresAt == lives[h].at + cfg.sessionTtl && StepUpLife(cfg, o, log, c.store.auth.challenges, h, lives[h])
    case ByExchange(_, _) => ChildLife(lives, c.store.auth.codes, c.store.auth.sessions, lives[h])
  }

  ghost predicate SessionsOk(sessions: map<string, Session>, lives: map<string, Life>) {
    forall h :: h in sessions ==>
      h in lives && lives[h].user == sessions[h].user && lives[h].app == sessions[h].app && lives[h].expiresAt == sessions[h].expiresAt
  }

  ghost predicate CodesOk(codes: map<string, AuthCode>, lives: map<string, Life>) {
    && (forall k :: k in codes ==> codes[k].session in lives && Root(lives[codes[k].session]))
    && (forall j, k :: j in codes && k in codes && codes[j].session == codes[k].session ==> j == k)
  }

  /** One session per login, per challenge, and per callback code. */
  ghost predicate OneEach(lives: map<string, Life>) {
    forall g, h :: g in lives && h in lives && SameSource(lives[g].how, lives[h].how) ==> g == h
  }

  predicate SameSource(a: How, b: How) {
    || (a.ByLogin? && b.ByLogin? && a.thread == b.thread)
    || (a.ByStepUp? && b.ByStepUp? && a.challenge == b.challenge)
    || (a.ByExchange? && b.ByExchange? && a.code == b.code)
  }

  ghost predicate LivesOk(cfg: Settings, o: Oracles, log: Log, c: Config, lives: map<string, Life>) {
    && SessionsOk(c.store.auth.sessions, lives) && CodesOk(c.store.auth.codes, lives) && OneEach(lives)
    && (forall h :: h in lives ==> LifeOk(cfg, o, log, c, lives, h))
  }

  // ------------------------------------------------------------- passkeys and activation codes

  /** The session came from a login the engine itself allowed, of a user who had no passkey. */
  ghost predicate MarkedLife(life: Life) {
    life.how.ByLogin? && life.how.story.flag && TrustedContext(life.how.story.ruling)
  }

  ghost predicate DoorOk(cfg: Settings, o: Oracles, log: Log, auth: Auth, lives: map<string, Life>, user: Id, door: Door) {
    match door
    case Initially => true
    case Imported(k) => k < |log| && log[k].took.ImportKeys?
    case BySession(h, k) =>
      && h in lives && MarkedLife(lives[h]) && lives[h].user == user && EnrolledAt(o, log, k, h, lives[h].at + cfg.enrollWindow)
      && (h in auth.sessions ==> auth.sessions[h].enrollUntil.None?)
    case ByActivation(code, j, k) =>
      && j < k && UnlockedAt(o, log, j, code, user) && ActivatedAt(o, log, k, code)
      && code in auth.activations && auth.activations[code].consumedAt.Some? && auth.activations[code].user == user
  }

  predicate SameDoor(a: Door, b: Door) {
    || (a.BySession? && b.BySession? && a.session == b.session)
    || (a.ByActivation? && b.ByActivation? && a.code == b.code)
  }

  ghost predicate DoorsOk(cfg: Settings, o: Oracles, log: Log, auth: Auth, lives: map<string, Life>, doors: map<Id, Door>) {
    && (forall k :: k in auth.credentials <==> k in doors)
    && (forall k :: k in doors && k in auth.credentials ==> DoorOk(cfg, o, log, auth, lives, auth.credentials[k].user, doors[k]))
    && (forall j, k :: j in doors && k in doors && SameDoor(doors[j], doors[k]) ==> j == k)
  }

  ghost predicate MarksOk(cfg: Settings, sessions: map<string, Session>, lives: map<string, Life>) {
    forall h :: h in sessions && sessions[h].enrollUntil.Some? ==>
      h in lives && MarkedLife(lives[h]) && sessions[h].enrollUntil.value == lives[h].at + cfg.enrollWindow
  }

  ghost predicate UnlocksOk(o: Oracles, log: Log, activations: map<string, ActivationCode>, unlocked: map<string, nat>) {
    forall k :: k in activations && activations[k].nonce.Some? ==>
      k in unlocked && UnlockedAt(o, log, unlocked[k], k, activations[k].user)
  }

  /** A user has at most one code that still works. */
  ghost predicate OneCodeEach(activations: map<string, ActivationCode>) {
    forall j, k ::
      j in activations && k in activations && activations[j].user == activations[k].user &&
      activations[j].consumedAt.None? && activations[k].consumedAt.None?
      ==> j == k
  }

  /** The invariant, with the evidence looked up in a log that may be longer than the world's own. */
  ghost predicate InvIn(cfg: Settings, o: Oracles, w: World, log: Log) {
    && ThreadsOk(cfg, o, log, w.config.threads, w.hist.stories)
    && TenantsOk(w.config.store.dir, w.config.threads, w.config.store.auth.challenges, w.hist.lives)
    && ChallengesOk(cfg, o, log, w.config.store.auth.challenges, w.hist.openings)
    && LivesOk(cfg, o, log, w.config, w.hist.lives)
    && DoorsOk(cfg, o, log, w.config.store.auth, w.hist.lives, w.hist.doors)
    && MarksOk(cfg, w.config.store.auth.sessions, w.hist.lives)
    && UnlocksOk(o, log, w.config.store.auth.activations, w.hist.unlocked)
    && OneCodeEach(w.config.store.auth.activations)
  }

  ghost predicate Inv(cfg: Settings, o: Oracles, w: World) { InvIn(cfg, o, w, w.log) }

  // ------------------------------------------------------------- evidence outlives the step

  lemma EvidenceStays(cfg: Settings, o: Oracles, log: Log, m: Moment)
    ensures forall th, st :: TellsAll(cfg, o, log, th, st) ==> TellsAll(cfg, o, log + [m], th, st)
    ensures forall th, st :: TellsCheck(o, log, th, st) ==> TellsCheck(o, log + [m], th, st)
    ensures forall th, st :: TellsRule(cfg, log, th, st) ==> TellsRule(cfg, log + [m], th, st)
    ensures forall k: nat, cid, h :: FactorAt(cfg, o, log, k, cid, h) ==> FactorAt(cfg, o, log + [m], k, cid, h)
    ensures forall k: nat, th, h, at :: IssuedAt(o, log, k, th, h, at) ==> IssuedAt(o, log + [m], k, th, h, at)
    ensures forall k: nat, c, u :: UnlockedAt(o, log, k, c, u) ==> UnlockedAt(o, log + [m], k, c, u)
    ensures forall k: nat, h, t :: EnrolledAt(o, log, k, h, t) ==> EnrolledAt(o, log + [m], k, h, t)
    ensures forall k: nat, c :: ActivatedAt(o, log, k, c) ==> ActivatedAt(o, log + [m], k, c)
    ensures forall k: nat, th, a, u, al, r :: RuledAt(cfg, log, k, th, a, u, al, r) ==> RuledAt(cfg, log + [m], k, th, a, u, al, r)
  {
    hide Check, Rule, Flag, HasAccess, Assert, HashCode, Unlocks, MayEnroll, OpenCode;
  }

  lemma ThreadsOutlast(cfg: Settings, o: Oracles, log: Log, m: Moment, threads: map<Id, Thread>, stories: map<Id, Story>)
    requires ThreadsOk(cfg, o, log, threads, stories)
    ensures ThreadsOk(cfg, o, log + [m], threads, stories)
  {
    EvidenceStays(cfg, o, log, m);
    hide TellsAll, TellsCheck, TellsRule, RuledAt, TrustedContext;
    forall th | th in threads && threads[th].Done? ensures AnswerEarned(cfg, o, log + [m], stories, th, threads[th].answer) {
      assert ThreadOk(cfg, o, log, stories, th, threads[th]);
      if threads[th].answer.outcome == BLOCKED {
        var k, a, u, always, r :| RuledAt(cfg, log, k, th, a, u, always, r) && r.action == BLOCK;
        assert RuledAt(cfg, log + [m], k, th, a, u, always, r);
      }
    }
  }

  lemma ChallengesOutlast(cfg: Settings, o: Oracles, log: Log, m: Moment, challenges: map<Id, Challenge>, openings: map<Id, Opening>)
    requires ChallengesOk(cfg, o, log, challenges, openings)
    ensures ChallengesOk(cfg, o, log + [m], challenges, openings)
  {
    EvidenceStays(cfg, o, log, m);
    hide TellsAll, RiskOf;
  }

  lemma LivesOutlast(cfg: Settings, o: Oracles, log: Log, m: Moment, c: Config, lives: map<string, Life>)
    requires LivesOk(cfg, o, log, c, lives)
    ensures LivesOk(cfg, o, log + [m], c, lives)
  {
    EvidenceStays(cfg, o, log, m);
    hide SessionsOk, CodesOk, OneEach, ChildLife, TellsAll, IssuedAt;
    forall h | h in lives ensures LifeOk(cfg, o, log + [m], c, lives, h) {
      assert LifeOk(cfg, o, log, c, lives, h);
      if lives[h].how.ByStepUp? {
        assert FactorAt(cfg, o, log + [m], lives[h].step, lives[h].how.challenge, h);
        assert (log + [m])[lives[h].step] == log[lives[h].step];
      }
    }
  }

  lemma DoorsOutlast(cfg: Settings, o: Oracles, log: Log, m: Moment, auth: Auth, lives: map<string, Life>, doors: map<Id, Door>)
    requires DoorsOk(cfg, o, log, auth, lives, doors)
    ensures DoorsOk(cfg, o, log + [m], auth, lives, doors)
  {
  }

  lemma UnlocksOutlast(cfg: Settings, o: Oracles, log: Log, m: Moment, activations: map<string, ActivationCode>, unlocked: map<string, nat>)
    requires UnlocksOk(o, log, activations, unlocked)
    ensures UnlocksOk(o, log + [m], activations, unlocked)
  {
  }

  lemma InvOutlasts(cfg: Settings, o: Oracles, w: World, m: Moment)
    requires Inv(cfg, o, w)
    ensures InvIn(cfg, o, w, w.log + [m])
  {
    hide ThreadsOk, TenantsOk, ChallengesOk, LivesOk, DoorsOk, MarksOk, UnlocksOk, OneCodeEach;
    ThreadsOutlast(cfg, o, w.log, m, w.config.threads, w.hist.stories);
    ChallengesOutlast(cfg, o, w.log, m, w.config.store.auth.challenges, w.hist.openings);
    LivesOutlast(cfg, o, w.log, m, w.config, w.hist.lives);
    DoorsOutlast(cfg, o, w.log, m, w.config.store.auth, w.hist.lives, w.hist.doors);
    UnlocksOutlast(cfg, o, w.log, m, w.config.store.auth.activations, w.hist.unlocked);
  }

  // ------------------------------------------------------------- what a step may change

  /** Challenges stay; their terms never change, and a consumption mark is never rewritten. */
  ghost predicate ChallengesAdvance(a: map<Id, Challenge>, b: map<Id, Challenge>) {
    forall c :: c in a ==>
      c in b && b[c].user == a[c].user && b[c].app == a[c].app && b[c].risk == a[c].risk && b[c].expiresAt == a[c].expiresAt
      && b[c].deniedReason == a[c].deniedReason && (a[c].consumedAt.Some? ==> b[c].consumedAt == a[c].consumedAt)
  }

  ghost predicate CodesAdvance(a: map<string, AuthCode>, b: map<string, AuthCode>) {
    forall k :: k in a ==>
      k in b && b[k].(consumedAt := None) == a[k].(consumedAt := None) && (a[k].consumedAt.Some? ==> b[k].consumedAt == a[k].consumedAt)
  }

  ghost predicate ActivationsAdvance(a: map<string, ActivationCode>, b: map<string, ActivationCode>) {
    forall k :: k in a ==>
      k in b && b[k].user == a[k].user && b[k].issuedBy == a[k].issuedBy && b[k].expiresAt == a[k].expiresAt
      && (a[k].consumedAt.Some? ==> b[k].consumedAt == a[k].consumedAt)
  }

  ghost predicate DoneStaysDone(a: map<Id, Thread>, b: map<Id, Thread>) {
    forall th :: th in a && a[th].Done? ==> th in b && b[th] == a[th]
  }

  ghost predicate LivesGrow(a: map<string, Life>, b: map<string, Life>) {
    forall h :: h in a ==> h in b && b[h] == a[h]
  }

  /** Only new sessions may be marked, and an old mark may only be taken away. */
  ghost predicate MarksFade(a: map<string, Session>, b: map<string, Session>) {
    forall h :: h in b && h in a ==> b[h].enrollUntil == a[h].enrollUntil || b[h].enrollUntil.None?
  }

  lemma TenantsKeep(d: Directory, d': Directory, threads: map<Id, Thread>, challenges: map<Id, Challenge>, lives: map<string, Life>)
    requires TenantsOk(d, threads, challenges, lives) && Stable(d, d')
    ensures TenantsOk(d', threads, challenges, lives)
  {
  }

  lemma ThreadMoves(cfg: Settings, o: Oracles, log: Log, threads: map<Id, Thread>, stories: map<Id, Story>, th: Id, t: Thread, st: Story)
    requires ThreadsOk(cfg, o, log, threads, stories) && ThreadOk(cfg, o, log, stories[th := st], th, t)
    ensures ThreadsOk(cfg, o, log, threads[th := t], stories[th := st])
  {
  }

  lemma ThreadEnds(cfg: Settings, o: Oracles, log: Log, threads: map<Id, Thread>, stories: map<Id, Story>, th: Id, t: Thread)
    requires ThreadsOk(cfg, o, log, threads, stories) && ThreadOk(cfg, o, log, stories, th, t)
    ensures ThreadsOk(cfg, o, log, threads[th := t], stories)
  {
  }

  lemma ChallengesKeep(cfg: Settings, o: Oracles, log: Log, a: map<Id, Challenge>, b: map<Id, Challenge>, openings: map<Id, Opening>)
    requires ChallengesOk(cfg, o, log, a, openings) && ChallengesAdvance(a, b) && b.Keys == a.Keys
    ensures ChallengesOk(cfg, o, log, b, openings)
  {
    hide TellsAll, RiskOf;
  }

  /** What an old session's origin rests on is not undone. */
  ghost predicate Undisturbed(c: Config, c': Config, lives: map<string, Life>) {
    && ChallengesAdvance(c.store.auth.challenges, c'.store.auth.challenges) && DoneStaysDone(c.threads, c'.threads)
    && CodesAdvance(c.store.auth.codes, c'.store.auth.codes)
    && (forall h :: h in c'.store.auth.sessions && h !in c.store.auth.sessions ==> h !in lives)
  }

  lemma LifeStays(cfg: Settings, o: Oracles, log: Log, c: Config, c': Config, lives: map<string, Life>, lives': map<string, Life>, h: string)
    requires h in lives && LifeOk(cfg, o, log, c, lives, h) && LivesGrow(lives, lives') && Undisturbed(c, c', lives)
    ensures h in lives' && LifeOk(cfg, o, log, c', lives', h)
  {
  }

  lemma LivesStay(cfg: Settings, o: Oracles, log: Log, c: Config, c': Config, lives: map<string, Life>, lives': map<string, Life>)
    requires LivesOk(cfg, o, log, c, lives) && LivesGrow(lives, lives') && Undisturbed(c, c', lives)
    ensures forall h :: h in lives ==> h in lives' && LifeOk(cfg, o, log, c', lives', h)
  {
    hide LifeOk, Undisturbed, LivesGrow, SessionsOk, CodesOk, OneEach;
    forall h | h in lives ensures h in lives' && LifeOk(cfg, o, log, c', lives', h) {
      LifeStays(cfg, o, log, c, c', lives, lives', h);
    }
  }

  lemma LivesKeep(cfg: Settings, o: Oracles, log: Log, c: Config, c': Config, lives: map<string, Life>)
    requires LivesOk(cfg, o, log, c, lives) && Undisturbed(c, c', lives)
    requires c'.store.auth.codes.Keys == c.store.auth.codes.Keys && SessionsOk(c'.store.auth.sessions, lives)
    ensures LivesOk(cfg, o, log, c', lives)
  {
    hide SessionsOk, OneEach, LifeOk;
    LivesStay(cfg, o, log, c, c', lives, lives);
  }

  ghost predicate RowIs(sessions: map<string, Session>, h: string, life: Life) {
    h in sessions && sessions[h].user == life.user && sessions[h].app == life.app && sessions[h].expiresAt == life.expiresAt
  }

  /** No callback code, or a new one of this session's own. */
  ghost predicate OwnCode(a: map<string, AuthCode>, b: map<string, AuthCode>, h: string) {
    a == b || exists k :: k !in a && k in b && b[k].session == h && b == a[k := b[k]]
  }

  lemma OneMore(lives: map<string, Life>, h: string, life: Life)
    requires OneEach(lives) && h !in lives && forall g :: g in lives ==> !SameSource(lives[g].how, life.how)
    ensures OneEach(lives[h := life])
  {
  }

  lemma CodesWithOwn(a: map<string, AuthCode>, b: map<string, AuthCode>, lives: map<string, Life>, h: string, life: Life)
    requires CodesOk(a, lives) && h !in lives && Root(life) && OwnCode(a, b, h)
    ensures CodesOk(b, lives[h := life])
  {
  }

  /** A new session begins a lineage, perhaps with a callback code of its own. */
  lemma LivesAddRoot(cfg: Settings, o: Oracles, log: Log, c: Config, c': Config, lives: map<string, Life>, h: string, life: Life)
    requires LivesOk(cfg, o, log, c, lives) && h !in lives && Root(life) && Undisturbed(c, c', lives)
    requires RowIs(c'.store.auth.sessions, h, life) && c'.store.auth.sessions == c.store.auth.sessions[h := c'.store.auth.sessions[h]]
    requires OwnCode(c.store.auth.codes, c'.store.auth.codes, h)
    requires LifeOk(cfg, o, log, c', lives[h := life], h)
    requires forall g :: g in lives ==> !SameSource(lives[g].how, life.how)
    ensures LivesOk(cfg, o, log, c', lives[h := life])
  {
    hide LifeOk, Undisturbed, CodesOk, OneEach, OwnCode, Root, SameSource;
    LivesStay(cfg, o, log, c, c', lives, lives[h := life]);
    OneMore(lives, h, life);
    CodesWithOwn(c.store.auth.codes, c'.store.auth.codes, lives, h, life);
  }

  ghost predicate Rotates(a: Auth, b: Auth, h: string, life: Life)
    requires life.how.ByExchange?
  {
    var p, k := life.how.parent, life.how.code;
    && k in a.codes && a.codes[k].session == p && a.codes[k].consumedAt.None? && RowIs(a.sessions, p, life)
    && RowIs(b.sessions, h, life) && b.sessions == a.sessions[h := b.sessions[h]] - {p}
    && k in b.codes && b.codes[k].consumedAt.Some? && b.codes == a.codes[k := a.codes[k].(consumedAt := b.codes[k].consumedAt)]
    && b.challenges == a.challenges
  }

  lemma RotatedSessions(a: Auth, b: Auth, lives: map<string, Life>, h: string, life: Life)
    requires SessionsOk(a.sessions, lives) && h !in lives && !Root(life) && Rotates(a, b, h, life)
    ensures SessionsOk(b.sessions, lives[h := life]) && forall g :: g in b.sessions && g !in a.sessions ==> g == h
  {
  }

  lemma RotatedCodes(a: Auth, b: Auth, lives: map<string, Life>, h: string, life: Life)
    requires CodesOk(a.codes, lives) && h !in lives && !Root(life) && Rotates(a, b, h, life)
    ensures CodesOk(b.codes, lives[h := life]) && CodesAdvance(a.codes, b.codes)
  {
  }

  lemma RotatedLife(a: Auth, b: Auth, lives: map<string, Life>, h: string, life: Life)
    requires SessionsOk(a.sessions, lives) && CodesOk(a.codes, lives) && h !in lives && !Root(life) && Rotates(a, b, h, life)
    requires life.root == life.how.parent
    ensures ChildLife(lives[h := life], b.codes, b.sessions, life)
  {
  }

  lemma ChildIsOk(cfg: Settings, o: Oracles, log: Log, c: Config, c': Config, lives: map<string, Life>, h: string, life: Life)
    requires LivesOk(cfg, o, log, c, lives) && h !in lives && h !in c.store.auth.sessions && !Root(life) && life.root == life.how.parent
    requires Rotates(c.store.auth, c'.store.auth, h, life) && c'.threads == c.threads
    ensures LifeOk(cfg, o, log, c', lives[h := life], h)
    ensures Undisturbed(c, c', lives) && CodesOk(c'.store.auth.codes, lives[h := life]) && SessionsOk(c'.store.auth.sessions, lives[h := life])
  {
    hide OneEach, LifeOk, SessionsOk, CodesOk, ChildLife;
    RotatedSessions(c.store.auth, c'.store.auth, lives, h, life);
    RotatedCodes(c.store.auth, c'.store.auth, lives, h, life);
    RotatedLife(c.store.auth, c'.store.auth, lives, h, life);
    ChildLifeIsLife(cfg, o, log, c', lives[h := life], h);
  }

  lemma ChildLifeIsLife(cfg: Settings, o: Oracles, log: Log, c: Config, lives: map<string, Life>, h: string)
    requires h in lives && lives[h].how.ByExchange? && ChildLife(lives, c.store.auth.codes, c.store.auth.sessions, lives[h])
    ensures LifeOk(cfg, o, log, c, lives, h)
  {
  }

  lemma ChildIsOne(cfg: Settings, o: Oracles, log: Log, c: Config, lives: map<string, Life>, h: string, life: Life)
    requires LivesOk(cfg, o, log, c, lives) && h !in lives && !Root(life)
    requires life.how.code in c.store.auth.codes && c.store.auth.codes[life.how.code].consumedAt.None?
    ensures OneEach(lives[h := life])
  {
  }

  /** A rotated session: the parent is gone, and its code is spent. */
  lemma LivesAddChild(cfg: Settings, o: Oracles, log: Log, c: Config, c': Config, lives: map<string, Life>, h: string, life: Life)
    requires LivesOk(cfg, o, log, c, lives) && h !in lives && h !in c.store.auth.sessions && !Root(life) && life.root == life.how.parent
    requires Rotates(c.store.auth, c'.store.auth, h, life) && c'.threads == c.threads
    ensures LivesOk(cfg, o, log, c', lives[h := life])
  {
    hide LifeOk, Undisturbed, CodesOk, OneEach, SessionsOk, RowIs;
    ChildIsOne(cfg, o, log, c, lives, h, life);
    ChildIsOk(cfg, o, log, c, c', lives, h, life);
    LivesStay(cfg, o, log, c, c', lives, lives[h := life]);
  }

  lemma DoorsKeep(cfg: Settings, o: Oracles, log: Log, a: Auth, b: Auth, lives: map<string, Life>, lives': map<string, Life>, doors: map<Id, Door>)
    requires DoorsOk(cfg, o, log, a, lives, doors) && LivesGrow(lives, lives') && ActivationsAdvance(a.activations, b.activations)
    requires b.credentials.Keys == a.credentials.Keys
    requires forall k :: k in a.credentials && k in b.credentials ==> b.credentials[k].user == a.credentials[k].user
    requires MarksFade(a.sessions, b.sessions)
    requires forall h :: h in b.sessions && h !in a.sessions ==> h !in lives
    ensures DoorsOk(cfg, o, log, b, lives', doors)
  {
    hide EnrolledAt, UnlockedAt, ActivatedAt, MarkedLife;
  }

  /** Passkeys appeared, all through one door nobody has been through. */
  lemma DoorsOpen(cfg: Settings, o: Oracles, log: Log, auth: Auth, lives: map<string, Life>, doors: map<Id, Door>, before: map<Id, Credential>, door: Door)
    requires DoorsOk(cfg, o, log, auth.(credentials := before), lives, doors)
    requires forall k :: k in before ==> k in auth.credentials && auth.credentials[k].user == before[k].user
    requires forall k :: k in auth.credentials && k !in before ==> DoorOk(cfg, o, log, auth, lives, auth.credentials[k].user, door)
    requires forall k :: k in doors ==> !SameDoor(doors[k], door) && !SameDoor(door, doors[k])
    requires SameDoor(door, door) ==> forall j, k :: j in auth.credentials && k in auth.credentials && j !in before && k !in before ==> j == k
    ensures DoorsOk(cfg, o, log, auth, lives, doors + map x | x in auth.credentials && x !in before :: door)
  {
    hide SameDoor, DoorOk;
    var doors' := doors + map x | x in auth.credentials && x !in before :: door;
    forall k | k in doors' && k in auth.credentials ensures DoorOk(cfg, o, log, auth, lives, auth.credentials[k].user, doors'[k]) {
      if k in before {
        DoorIgnoresCredentials(cfg, o, log, auth, before, lives, before[k].user, doors[k]);
      }
    }
    forall j, k | j in doors' && k in doors' && SameDoor(doors'[j], doors'[k]) ensures j == k {
      assert j in auth.credentials && k in auth.credentials;
    }
  }

  lemma DoorIgnoresCredentials(cfg: Settings, o: Oracles, log: Log, auth: Auth, before: map<Id, Credential>, lives: map<string, Life>, user: Id, door: Door)
    ensures DoorOk(cfg, o, log, auth.(credentials := before), lives, user, door) <==> DoorOk(cfg, o, log, auth, lives, user, door)
  {
  }

  lemma MarksKeep(cfg: Settings, a: map<string, Session>, b: map<string, Session>, lives: map<string, Life>, lives': map<string, Life>)
    requires MarksOk(cfg, a, lives) && LivesGrow(lives, lives') && MarksFade(a, b)
    requires forall h :: h in b && h !in a && b[h].enrollUntil.Some? ==>
      h in lives' && MarkedLife(lives'[h]) && b[h].enrollUntil.value == lives'[h].at + cfg.enrollWindow
    ensures MarksOk(cfg, b, lives')
  {
  }
}
