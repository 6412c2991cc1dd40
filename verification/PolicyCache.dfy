/**
 The read-through cache of tenant policies. The read of the risk engine happens
 outside the lock, so a `get` is four steps: note the time, look under the lock,
 read, and store under the lock. Anyone else may act between any two of them,
 and the engine's policies may change at any time.
 */
module PolicyCache {
  import opened Wrappers
  import opened Models

  datatype Entry = Entry(at: real, policy: Policy)

  /** How far one `get` has got. `failed` marks the answer of a failed read. */
  datatype Reading =
    | Started(tenant: Id, began: real)
    | Missed(tenant: Id, began: real, held: Option<Entry>)
    | Fetched(tenant: Id, began: real, policy: Policy)
    | Returned(tenant: Id, began: real, ended: real, result: Option<Policy>, failed: bool)

  /** `truth` is what the engine enforces; it has no policy for a tenant it does not know. */
  datatype State = State(now: real, truth: map<Id, Policy>, entries: map<Id, Entry>, gets: map<Id, Reading>)

  datatype Event =
    | Pass(seconds: real)
    | Write(tenant: Id, policy: Policy)
    | Begin(get: Id, tenant: Id)
    | Peek(get: Id)
    | Read(get: Id, answers: bool)
    | Keep(get: Id)
    | Invalidate(tenant: Id)

  predicate Fresh(e: Option<Entry>, began: real, ttl: real) { e.Some? && began - e.value.at < ttl }

  function Lookup(m: map<Id, Entry>, t: Id): Option<Entry> { if t in m then Some(m[t]) else None }

  function Known(e: Option<Entry>): Option<Policy> { if e.Some? then Some(e.value.policy) else None }

  function Step(ttl: real, s: State, x: Event): State {
    match x
    case Pass(n) => if n < 0.0 then s else s.(now := s.now + n)
    case Write(t, p) => s.(truth := s.truth[t := p])
    case Invalidate(t) => s.(entries := s.entries - {t})
    case Begin(g, t) => if g in s.gets then s else s.(gets := s.gets[g := Started(t, s.now)])
    case Peek(g) =>
      if g !in s.gets || !s.gets[g].Started? then s
      else
        var c := s.gets[g];
        var e := Lookup(s.entries, c.tenant);
        s.(gets := s.gets[g := if Fresh(e, c.began, ttl) then Returned(c.tenant, c.began, s.now, Known(e), false) else Missed(c.tenant, c.began, e)])
    case Read(g, answers) =>
      if g !in s.gets || !s.gets[g].Missed? then s
      else
        var c := s.gets[g];
        s.(gets := s.gets[g :=
          if answers && c.tenant in s.truth then Fetched(c.tenant, c.began, s.truth[c.tenant])
          else Returned(c.tenant, c.began, s.now, Known(c.held), true)])
    case Keep(g) =>
      if g !in s.gets || !s.gets[g].Fetched? then s
      else
        var c := s.gets[g];
        s.(entries := s.entries[c.tenant := Entry(c.began, c.policy)],
           gets := s.gets[g := Returned(c.tenant, c.began, s.now, Some(c.policy), false)])
  }

  // ------------------------------------------------------------- what was in force when

  /** The states a run has been through, the current one last. */
  type Trace = seq<State>

  function Last(tr: Trace): State
    requires tr != []
  {
    tr[|tr| - 1]
  }

  function Extend(ttl: real, tr: Trace, xs: seq<Event>): Trace
    requires tr != []
    ensures Extend(ttl, tr, xs) != [] && tr <= Extend(ttl, tr, xs)
    decreases |xs|
  {
    if xs == [] then tr else Extend(ttl, tr + [Step(ttl, Last(tr), xs[0])], xs[1..])
  }

  /** The engine enforced this policy for this tenant at the instant of state `k`. */
  predicate InForceAt(tr: Trace, k: int, t: Id, p: Policy) {
    0 <= k < |tr| && t in tr[k].truth && tr[k].truth[t] == p
  }

  /** In force at some instant at or after `since`. */
  ghost predicate InForceSince(tr: Trace, since: real, t: Id, p: Policy) {
    exists k :: InForceAt(tr, k, t, p) && since <= tr[k].now
  }

  /** In force at some instant later than `after` and no later than `until`. */
  ghost predicate InForceWithin(tr: Trace, after: real, until: real, t: Id, p: Policy) {
    exists k :: InForceAt(tr, k, t, p) && after < tr[k].now <= until
  }

  /** In force in some state from `from` on. */
  ghost predicate InForceFrom(tr: Trace, from: int, t: Id, p: Policy) {
    exists k :: from <= k && InForceAt(tr, k, t, p)
  }

  // ------------------------------------------------------------- how stale an answer can be

  ghost predicate EntryOk(tr: Trace, t: Id, e: Entry) { InForceSince(tr, e.at, t, e.policy) }

  ghost predicate GetOk(ttl: real, tr: Trace, now: real, g: Reading) {
    && g.began <= now
    && match g
       case Started(_, _) => true
       case Missed(t, _, held) => held.Some? ==> EntryOk(tr, t, held.value)
       case Fetched(t, began, p) => InForceSince(tr, began, t, p)
       case Returned(t, began, ended, r, failed) =>
         && (r.Some? && !failed ==> InForceWithin(tr, began - ttl, ended, t, r.value))
         && (r.Some? ==> InForceFrom(tr, 0, t, r.value))
  }

  /** Every entry and every get rests on an instant of the run. */
  ghost predicate Ok(ttl: real, tr: Trace, s: State) {
    && (forall k :: 0 <= k < |tr| ==> tr[k].now <= s.now)
    && (forall t :: t in s.entries ==> EntryOk(tr, t, s.entries[t]))
    && (forall g :: g in s.gets ==> GetOk(ttl, tr, s.now, s.gets[g]))
  }

  lemma ForceStays(tr: Trace, s: State)
    ensures forall since, t, p :: InForceSince(tr, since, t, p) ==> InForceSince(tr + [s], since, t, p)
    ensures forall after, until, t, p :: InForceWithin(tr, after, until, t, p) ==> InForceWithin(tr + [s], after, until, t, p)
    ensures forall from: int, t, p :: InForceFrom(tr, from, t, p) ==> InForceFrom(tr + [s], from, t, p)
  {
    forall since, t, p | InForceSince(tr, since, t, p) ensures InForceSince(tr + [s], since, t, p) {
      var k :| InForceAt(tr, k, t, p) && since <= tr[k].now;
      assert InForceAt(tr + [s], k, t, p);
    }
    forall after, until, t, p | InForceWithin(tr, after, until, t, p) ensures InForceWithin(tr + [s], after, until, t, p) {
      var k :| InForceAt(tr, k, t, p) && after < tr[k].now <= until;
      assert InForceAt(tr + [s], k, t, p);
    }
    forall from: int, t, p | InForceFrom(tr, from, t, p) ensures InForceFrom(tr + [s], from, t, p) {
      var k :| from <= k && InForceAt(tr, k, t, p);
      assert InForceAt(tr + [s], k, t, p);
    }
  }

  lemma OkStays(ttl: real, tr: Trace, s: State, s': State)
    requires Ok(ttl, tr, s) && s'.now >= s.now
    ensures forall t :: t in s.entries ==> EntryOk(tr + [s'], t, s.entries[t])
    ensures forall g :: g in s.gets ==> GetOk(ttl, tr + [s'], s.now, s.gets[g])
    ensures forall k :: 0 <= k < |tr + [s']| ==> (tr + [s'])[k].now <= s'.now
  {
    ForceStays(tr, s');
    hide InForceSince, InForceWithin, InForceFrom;
    forall g | g in s.gets ensures GetOk(ttl, tr + [s'], s.now, s.gets[g]) {
      assert GetOk(ttl, tr, s.now, s.gets[g]);
    }
  }

  lemma FreshIsRecent(tr: Trace, t: Id, e: Entry, began: real, ttl: real, now: real)
    requires EntryOk(tr, t, e) && began - e.at < ttl && forall k :: 0 <= k < |tr| ==> tr[k].now <= now
    ensures InForceWithin(tr, began - ttl, now, t, e.policy)
  {
  }

  lemma OnceInForce(tr: Trace, since: real, t: Id, p: Policy)
    requires InForceSince(tr, since, t, p)
    ensures InForceFrom(tr, 0, t, p)
  {
  }

  lemma FetchedIsRecent(tr: Trace, t: Id, p: Policy, began: real, ttl: real, now: real)
    requires InForceSince(tr, began, t, p) && 0.0 < ttl && forall k :: 0 <= k < |tr| ==> tr[k].now <= now
    ensures InForceWithin(tr, began - ttl, now, t, p)
  {
  }

  lemma GetAdvances(ttl: real, tr: Trace, x: Event)
    requires tr != [] && 0.0 < ttl && Ok(ttl, tr, Last(tr)) && (x.Peek? || x.Read? || x.Keep?) && x.get in Last(tr).gets
    ensures var s' := Step(ttl, Last(tr), x);
      && x.get in s'.gets && GetOk(ttl, tr + [s'], s'.now, s'.gets[x.get])
      && forall t :: t in s'.entries ==> EntryOk(tr + [s'], t, s'.entries[t])
  {
    var s, s' := Last(tr), Step(ttl, Last(tr), x);
    var c := s.gets[x.get];
    assert GetOk(ttl, tr, s.now, c);
    OkStays(ttl, tr, s, s');
    assert GetOk(ttl, tr + [s'], s.now, c);
    if x.Peek? && c.Started? {
      var e := Lookup(s.entries, c.tenant);
      hide InForceSince, InForceWithin, InForceFrom;
      if Fresh(e, c.began, ttl) {
        OnceInForce(tr + [s'], e.value.at, c.tenant, e.value.policy);
        FreshIsRecent(tr + [s'], c.tenant, e.value, c.began, ttl, s.now);
      }
    } else if x.Read? && c.Missed? {
      if x.answers && c.tenant in s.truth {
        assert InForceAt(tr + [s'], |tr|, c.tenant, s.truth[c.tenant]);
      } else {
        hide InForceSince, InForceWithin, InForceFrom;
        if c.held.Some? { OnceInForce(tr + [s'], c.held.value.at, c.tenant, c.held.value.policy); }
      }
    } else if x.Keep? && c.Fetched? {
      hide InForceSince, InForceWithin, InForceFrom;
      OnceInForce(tr + [s'], c.began, c.tenant, c.policy);
      FetchedIsRecent(tr + [s'], c.tenant, c.policy, c.began, ttl, s.now);
    }
  }

  lemma StepKeepsOk(ttl: real, tr: Trace, x: Event)
    requires tr != [] && 0.0 < ttl && Ok(ttl, tr, Last(tr))
    ensures var s' := Step(ttl, Last(tr), x); Ok(ttl, tr + [s'], s')
  {
    var s, s' := Last(tr), Step(ttl, Last(tr), x);
    OkStays(ttl, tr, s, s');
    if (x.Peek? || x.Read? || x.Keep?) && x.get in s.gets {
      GetAdvances(ttl, tr, x);
    }
    hide InForceSince, InForceWithin, InForceFrom;
  }

  lemma {:induction false} RunKeepsOk(ttl: real, tr: Trace, xs: seq<Event>)
    requires tr != [] && 0.0 < ttl && Ok(ttl, tr, Last(tr))
    ensures Ok(ttl, Extend(ttl, tr, xs), Last(Extend(ttl, tr, xs)))
    decreases |xs|
  {
    hide Ok, Step;
    if xs != [] {
      StepKeepsOk(ttl, tr, xs[0]);
      RunKeepsOk(ttl, tr + [Step(ttl, Last(tr), xs[0])], xs[1..]);
    }
  }

  /** The cache is empty and nobody is asking. */
  predicate Idle(s: State) { s.entries == map[] && s.gets == map[] }

  /**
   However reads, writes and invalidations interleave: a `get` that did not fall
   back on a failed read returns a policy that was in force at some instant less
   than the lifetime before it began, and no later than it ended.
   */
  lemma StalenessIsBounded(ttl: real, s: State, xs: seq<Event>, g: Id)
    requires 0.0 < ttl && Idle(s)
    requires var last := Last(Extend(ttl, [s], xs)); g in last.gets && last.gets[g].Returned?
    ensures var tr := Extend(ttl, [s], xs);
      var r := Last(tr).gets[g];
      r.result.Some? && !r.failed ==> InForceWithin(tr, r.began - ttl, r.ended, r.tenant, r.result.value)
  {
    RunKeepsOk(ttl, [s], xs);
    assert GetOk(ttl, Extend(ttl, [s], xs), Last(Extend(ttl, [s], xs)).now, Last(Extend(ttl, [s], xs)).gets[g]);
  }

  /** Even a failed read only ever returns what the engine once enforced. */
  lemma NothingIsInvented(ttl: real, s: State, xs: seq<Event>, g: Id)
    requires 0.0 < ttl && Idle(s)
    requires var last := Last(Extend(ttl, [s], xs)); g in last.gets && last.gets[g].Returned? && last.gets[g].result.Some?
    ensures var tr := Extend(ttl, [s], xs); InForceFrom(tr, 0, Last(tr).gets[g].tenant, Last(tr).gets[g].result.value)
  {
    RunKeepsOk(ttl, [s], xs);
    assert GetOk(ttl, Extend(ttl, [s], xs), Last(Extend(ttl, [s], xs)).now, Last(Extend(ttl, [s], xs)).gets[g]);
  }

  // ------------------------------------------------------------- when an invalidation is seen

  /** Every `get` of this tenant that has read and not yet stored holds the policy now in force. */
  predicate ReadsAreCurrent(s: State, t: Id) {
    forall g :: g in s.gets && s.gets[g].Fetched? && s.gets[g].tenant == t ==> t in s.truth && s.truth[t] == s.gets[g].policy
  }

  /** What later gets can get hold of was in force from state `from` on; `older` are the gets begun before. */
  ghost predicate SinceOk(tr: Trace, from: int, t: Id, older: set<Id>, s: State) {
    && (t in s.entries ==> InForceFrom(tr, from, t, s.entries[t].policy))
    && (forall g :: g in s.gets && s.gets[g].tenant == t ==> LaterOk(tr, from, t, g in older, s.gets[g]))
  }

  ghost predicate LaterOk(tr: Trace, from: int, t: Id, older: bool, g: Reading) {
    match g
    case Started(_, _) => true
    case Missed(_, _, held) => older || (held.Some? ==> InForceFrom(tr, from, t, held.value.policy))
    case Fetched(_, _, p) => InForceFrom(tr, from, t, p)
    case Returned(_, _, _, r, _) => older || (r.Some? ==> InForceFrom(tr, from, t, r.value))
  }

  lemma StepKeepsSince(ttl: real, tr: Trace, from: int, t: Id, older: set<Id>, x: Event)
    requires tr != [] && from < |tr| && SinceOk(tr, from, t, older, Last(tr))
    ensures SinceOk(tr + [Step(ttl, Last(tr), x)], from, t, older, Step(ttl, Last(tr), x))
  {
    var s, s' := Last(tr), Step(ttl, Last(tr), x);
    ForceStays(tr, s');
    if t in s'.truth { assert InForceAt(tr + [s'], |tr|, t, s'.truth[t]); }
    assert t in s'.truth ==> InForceFrom(tr + [s'], from, t, s'.truth[t]);
    hide InForceFrom;
    forall g | g in s'.gets && s'.gets[g].tenant == t ensures LaterOk(tr + [s'], from, t, g in older, s'.gets[g]) {
      if g in s.gets { assert LaterOk(tr, from, t, g in older, s.gets[g]); }
    }
  }

  lemma {:induction false} RunKeepsSince(ttl: real, tr: Trace, from: int, t: Id, older: set<Id>, xs: seq<Event>)
    requires tr != [] && from < |tr| && SinceOk(tr, from, t, older, Last(tr))
    ensures SinceOk(Extend(ttl, tr, xs), from, t, older, Last(Extend(ttl, tr, xs)))
    decreases |xs|
  {
    hide SinceOk, Step;
    if xs != [] {
      StepKeepsSince(ttl, tr, from, t, older, xs[0]);
      RunKeepsSince(ttl, tr + [Step(ttl, Last(tr), xs[0])], from, t, older, xs[1..]);
    }
  }

  /** Whatever happens next, `get` g of the tenant answers with nothing or a policy in force from the last state on. */
  ghost predicate SeenBy(ttl: real, tr: Trace, t: Id, g: Id)
    requires tr != []
  {
    forall xs :: AnswersSince(Extend(ttl, tr, xs), |tr| - 1, t, g)
  }

  ghost predicate AnswersSince(tr: Trace, from: int, t: Id, g: Id)
    requires tr != []
  {
    var gets := Last(tr).gets;
    g in gets && gets[g].tenant == t && gets[g].Returned? && gets[g].result.Some? ==> InForceFrom(tr, from, t, gets[g].result.value)
  }

  lemma CurrentReadsAreSeen(ttl: real, tr: Trace, t: Id, g: Id, xs: seq<Event>)
    requires tr != [] && t !in Last(tr).entries && g !in Last(tr).gets && ReadsAreCurrent(Last(tr), t)
    ensures AnswersSince(Extend(ttl, tr, xs), |tr| - 1, t, g)
  {
    var s := Last(tr);
    if t in s.truth { assert InForceAt(tr, |tr| - 1, t, s.truth[t]); }
    assert SinceOk(tr, |tr| - 1, t, s.gets.Keys, s);
    RunKeepsSince(ttl, tr, |tr| - 1, t, s.gets.Keys, xs);
    hide InForceFrom;
  }

  /** The late read is stored, and the new `get` finds it; if it is already too old, a failed read returns it all the same. */
  lemma OutdatedReadIsServed(ttl: real, tr: Trace, t: Id, g: Id, h: Id)
    requires tr != [] && g !in Last(tr).gets
    requires h in Last(tr).gets && Last(tr).gets[h].Fetched? && Last(tr).gets[h].tenant == t
    requires !(t in Last(tr).truth && Last(tr).truth[t] == Last(tr).gets[h].policy)
    ensures !AnswersSince(Extend(ttl, tr, [Keep(h), Begin(g, t), Peek(g), Read(g, false)]), |tr| - 1, t, g)
  {
    hide Extend;
    var tr' := Extend(ttl, tr, [Keep(h), Begin(g, t), Peek(g), Read(g, false)]);
    Four(ttl, tr, Keep(h), Begin(g, t), Peek(g), Read(g, false));
    var p := Last(tr).gets[h].policy;
    assert Last(tr').gets[g].Returned? && Last(tr').gets[g].result == Some(p);
    forall k | |tr| - 1 <= k ensures !InForceAt(tr', k, t, p) {
      assert 0 <= k < |tr'| ==> tr'[k].truth == Last(tr).truth;
    }
  }

  /**
   Right after an invalidation, every later `get` returns a policy in force at or
   after it, even one whose read fails, exactly when each read already made and not
   yet stored is of the policy in force now.
   */
  lemma InvalidationIsSeenIff(ttl: real, tr: Trace, t: Id, g: Id)
    requires tr != [] && t !in Last(tr).entries && g !in Last(tr).gets
    ensures SeenBy(ttl, tr, t, g) <==> ReadsAreCurrent(Last(tr), t)
  {
    hide AnswersSince, Extend;
    if ReadsAreCurrent(Last(tr), t) {
      forall xs ensures AnswersSince(Extend(ttl, tr, xs), |tr| - 1, t, g) {
        CurrentReadsAreSeen(ttl, tr, t, g, xs);
      }
    } else {
      var h :| h in Last(tr).gets && Last(tr).gets[h].Fetched? && Last(tr).gets[h].tenant == t &&
        !(t in Last(tr).truth && Last(tr).truth[t] == Last(tr).gets[h].policy);
      OutdatedReadIsServed(ttl, tr, t, g, h);
    }
  }

  // ------------------------------------------------------------- where the bound does not reach

  lemma ExtendOne(ttl: real, tr: Trace, x: Event, xs: seq<Event>)
    requires tr != []
    ensures Extend(ttl, tr, [x] + xs) == Extend(ttl, tr + [Step(ttl, Last(tr), x)], xs)
  {
  }

  lemma {:induction false} ExtendAppend(ttl: real, tr: Trace, xs: seq<Event>, ys: seq<Event>)
    requires tr != []
    ensures Extend(ttl, tr, xs + ys) == Extend(ttl, Extend(ttl, tr, xs), ys)
    decreases |xs|
  {
    if xs == [] {
      assert xs + ys == ys;
    } else {
      assert xs + ys == [xs[0]] + (xs[1..] + ys);
      ExtendOne(ttl, tr, xs[0], xs[1..] + ys);
      ExtendAppend(ttl, tr + [Step(ttl, Last(tr), xs[0])], xs[1..], ys);
    }
  }

  /** Four events, one by one. */
  lemma Four(ttl: real, tr: Trace, a: Event, b: Event, c: Event, d: Event)
    requires tr != []
    ensures var s1 := Step(ttl, Last(tr), a);
      var s2 := Step(ttl, s1, b);
      var s3 := Step(ttl, s2, c);
      Extend(ttl, tr, [a, b, c, d]) == tr + [s1, s2, s3, Step(ttl, s3, d)]
  {
    hide Step;
    var s1 := Step(ttl, Last(tr), a);
    var s2 := Step(ttl, s1, b);
    var s3 := Step(ttl, s2, c);
    assert [a, b, c, d] == [a] + ([b] + ([c] + ([d] + [])));
    ExtendOne(ttl, tr, a, [b] + ([c] + ([d] + [])));
    ExtendOne(ttl, tr + [s1], b, [c] + ([d] + []));
    ExtendOne(ttl, tr + [s1] + [s2], c, [d] + []);
    ExtendOne(ttl, tr + [s1] + [s2] + [s3], d, []);
    assert tr + [s1] + [s2] + [s3] + [Step(ttl, s3, d)] == tr + [s1, s2, s3, Step(ttl, s3, d)];
  }

  /** A policy is read and cached, and replaced; then, however much later, a read fails and it is returned. */
  lemma FailedReadsAreUnbounded(ttl: real, s: State, age: real, t: Id, q: Policy)
    requires 0.0 < ttl <= age && Idle(s) && t in s.truth && s.truth[t] != q
    ensures var p := s.truth[t];
      var tr := Extend(ttl, [s], [Begin("f", t), Peek("f"), Read("f", true), Keep("f")] + [Write(t, q), Pass(age), Begin("g", t), Peek("g")]);
      var end := Step(ttl, Last(tr), Read("g", false));
      && "g" in end.gets && end.gets["g"] == Returned(t, s.now + age, s.now + age, Some(p), true)
      && !InForceWithin(tr + [end], s.now, s.now + age, t, p)
  {
    hide Extend;
    var first := [Begin("f", t), Peek("f"), Read("f", true), Keep("f")];
    ExtendAppend(ttl, [s], first, [Write(t, q), Pass(age), Begin("g", t), Peek("g")]);
    Four(ttl, [s], Begin("f", t), Peek("f"), Read("f", true), Keep("f"));
    Four(ttl, Extend(ttl, [s], first), Write(t, q), Pass(age), Begin("g", t), Peek("g"));
  }

  /** A read made before the policy was replaced is stored after the invalidation, and a later `get` returns it. */
  lemma InvalidationCanBeOvertaken(ttl: real, s: State, t: Id, q: Policy)
    requires 0.0 < ttl && Idle(s) && t in s.truth && s.truth[t] != q
    ensures var p := s.truth[t];
      var tr := Extend(ttl, [s], [Begin("g", t), Peek("g"), Read("g", true), Write(t, q)] + [Invalidate(t), Keep("g"), Begin("h", t), Peek("h")]);
      && "h" in Last(tr).gets && Last(tr).gets["h"] == Returned(t, s.now, s.now, Some(p), false)
      && |tr| == 9 && !InForceFrom(tr, 4, t, p) && !ReadsAreCurrent(tr[5], t)
  {
    hide Extend;
    var first := [Begin("g", t), Peek("g"), Read("g", true), Write(t, q)];
    ExtendAppend(ttl, [s], first, [Invalidate(t), Keep("g"), Begin("h", t), Peek("h")]);
    Four(ttl, [s], Begin("g", t), Peek("g"), Read("g", true), Write(t, q));
    Four(ttl, Extend(ttl, [s], first), Invalidate(t), Keep("g"), Begin("h", t), Peek("h"));
  }

  // ------------------------------------------------------------- the cache itself

  /** The four steps of one `get` with nobody between: what `TenantPolicyCache.Get` does. */
  function Undisturbed(ttl: real, s: State, g: Id, t: Id, answers: bool): State {
    Step(ttl, Step(ttl, Step(ttl, Step(ttl, s, Begin(g, t)), Peek(g)), Read(g, answers)), Keep(g))
  }

  /** With nobody between, a `get` after an invalidation answers what is enforced now, or nothing. */
  lemma InvalidatedGetReads(ttl: real, s: State, g: Id, t: Id, answers: bool)
    requires g !in s.gets
    ensures var s' := Undisturbed(ttl, Step(ttl, s, Invalidate(t)), g, t, answers);
      && g in s'.gets && s'.gets[g].Returned?
      && s'.gets[g].result == if answers && t in s.truth then Some(s.truth[t]) else None
  {
  }

  class TenantPolicyCache {
    const ttl: real
    var entries: map<Id, Entry>

    constructor (ttl: real)
      ensures this.ttl == ttl && entries == map[]
    {
      this.ttl := ttl;
      entries := map[];
    }

    /** `truth` is the engine at the moment it is read; `answers` is whether the read succeeds. */
    method Get(tenant: Id, now: real, truth: map<Id, Policy>, answers: bool, ghost gets: map<Id, Reading>, ghost g: Id)
      returns (r: Option<Policy>)
      requires g !in gets
      modifies this`entries
      ensures var s := Undisturbed(ttl, State(now, truth, old(entries), gets), g, tenant, answers);
        && entries == s.entries && g in s.gets && s.gets[g].Returned? && s.gets[g].result == r
    {
      var entry := if tenant in entries then Some(entries[tenant]) else None;
      if entry.Some? && now - entry.value.at < ttl {
        return Some(entry.value.policy);
      }
      if !answers || tenant !in truth {
        return if entry.Some? then Some(entry.value.policy) else None;
      }
      var policy := truth[tenant];
      entries := entries[tenant := Entry(now, policy)];
      return Some(policy);
    }

    method Invalidate(tenant: Id)
      modifies this`entries
      ensures tenant !in entries
      ensures forall t :: t != tenant ==> Lookup(entries, t) == Lookup(old(entries), t)
    {
      entries := entries - {tenant};
    }
  }
}
