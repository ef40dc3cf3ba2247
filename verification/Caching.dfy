/** Decisions a client may repeat: why an answer given at some revision is still the answer while
    that revision stands, and for how long. */
module Caching {
  import opened Types
  import opened Ledger
  import opened Conditions
  import opened Operations
  import opened Daemon
  import opened Invariants
  import opened Transactions
  import opened Runs
  import opened Progress
  import opened Guarantees
  import opened Compaction
  import opened Revisions
  import R = Registry
  import C = DecisionCache

  /** The payloads that share a cache key: they differ at most in the request and operation names
      and in the time allowed for an answer. */
  predicate SameTuple(p: Payload, q: Payload) {
    q == p.(operation := q.operation, client := q.client, lifetime := q.lifetime)
  }

  /** The same authority at a later time. */
  ghost predicate SameAuthority(env: Env, later: Env) {
    later.installed == env.installed && later.arguments == env.arguments && env.now <= later.now
  }

  /** The session of a payload has not reached a deadline. */
  predicate Unexpired(sessions: map<Id, SessionRow>, p: Payload, now: nat) {
    p.session.Some? && p.session.value in sessions ==>
      var s := sessions[p.session.value]; s.idle > now && s.absolute > now && s.lease > now
  }

  // ----- the same grant is found later -----

  predicate Unqualified(q: Question) {
    q.payload.approval.None? && q.chosen.None?
  }

  lemma UsableEarlier(g: Grant, key: GrantKey, q: Question, r: Question, now: nat, later: nat)
    requires Unqualified(q) && Unqualified(r) && q.payload.session == r.payload.session && now <= later
    ensures Usable(g, key, r, later) ==> Usable(g, key, q, now)
    ensures g.expires == 0 && Usable(g, key, q, now) ==> Usable(g, key, r, later)
  {
  }

  lemma {:induction false} FoundLater(grants: map<Id, Grant>, key: GrantKey, q: Question, r: Question, now: nat,
                                      later: nat, bound: nat)
    requires Unqualified(q) && Unqualified(r) && q.payload.session == r.payload.session && now <= later
    requires var found := FindGrant(grants, key, q, now, bound); found.Some? && grants[found.value].expires == 0
    ensures FindGrant(grants, key, r, later, bound) == FindGrant(grants, key, q, now, bound)
  {
    hide Usable;
    if bound != 0 {
      if bound - 1 in grants { UsableEarlier(grants[bound - 1], key, q, r, now, later); }
      if !(bound - 1 in grants && Usable(grants[bound - 1], key, q, now)) {
        FoundLater(grants, key, q, r, now, later, bound - 1);
      }
    }
  }

  lemma UntimedOf(l: Ledger, g: Id)
    requires Inv(l) && g in l.grants && (l.grants[g].mode.PERSISTENT? || l.grants[g].mode.SESSION?)
    ensures l.grants[g].expires == 0
  {
  }

  /** A row that leaves the tally cacheable is decided alike later. */
  lemma RowLater(l: Ledger, env: Env, later: Env, peer: Peer, q: Question, r: Question, i: nat, t: Tally)
    requires Inv(l) && SameAuthority(env, later) && Unqualified(q) && Unqualified(r) && SameTuple(q.payload, r.payload)
             && q.check == r.check
    requires i < |q.payload.requirements| && CheckRow(l, env, peer, q, false, i, t).Ok?
    requires var s := CheckRow(l, env, peer, q, false, i, t).value; s.cacheable && !s.denied && !s.required
    ensures CheckRow(l, later, peer, r, false, i, t) == CheckRow(l, env, peer, q, false, i, t)
    ensures t.cacheable && !t.denied && !t.required
  {
    hide Inv, Identifier, Usable;
    var d := q.payload.requirements[i].definition;
    var c := l.definitions[d];
    var key := KeyOf(q.payload, i, c.policyVersion);
    var found := FindGrant(l.grants, key, q, env.now, l.next);
    UntimedOf(l, found.value);
    FoundLater(l.grants, key, q, r, env.now, later.now, l.next);
  }

  lemma {:induction false} RowsLater(l: Ledger, env: Env, later: Env, peer: Peer, q: Question, r: Question, n: nat)
    requires Inv(l) && SameAuthority(env, later) && Unqualified(q) && Unqualified(r) && SameTuple(q.payload, r.payload)
             && q.check == r.check
    requires n <= |q.payload.requirements| && CheckRows(l, env, peer, q, false, n).Ok?
    requires var s := CheckRows(l, env, peer, q, false, n).value; s.cacheable && !s.denied && !s.required
    ensures CheckRows(l, later, peer, r, false, n) == CheckRows(l, env, peer, q, false, n)
  {
    hide Inv, CheckRow, SameAuthority;
    if n != 0 {
      var t := CheckRows(l, env, peer, q, false, n - 1).value;
      RowLater(l, env, later, peer, q, r, n - 1, t);
      RowsLater(l, env, later, peer, q, r, n - 1);
    }
  }

  lemma SessionLater(sessions: map<Id, SessionRow>, now: nat, later: nat, peer: Peer, p: Payload, q: Payload)
    requires SameTuple(p, q) && ActiveSession(sessions, now, peer, p).Ok? && Unexpired(sessions, p, later)
    ensures ActiveSession(sessions, later, peer, q).Ok?
  {
    hide Context;
    assert Context(peer, q.subject, q.profile) == Context(peer, p.subject, p.profile);
  }

  /** On one ledger, a cacheable answer is the answer until the session reaches a deadline. */
  lemma ConditionsLater(l: Ledger, env: Env, later: Env, peer: Peer, q: Question, r: Question)
    requires Inv(l) && SameAuthority(env, later) && Unqualified(r) && q.chosen.None? && SameTuple(q.payload, r.payload)
             && q.check == r.check
    requires CheckConditions(l, env, peer, q, false).Ok? && CheckConditions(l, env, peer, q, false).value.cacheable
    requires Unexpired(l.sessions, q.payload, later.now)
    ensures var v := CheckConditions(l, env, peer, q, false).value;
            var w := CheckConditions(l, later, peer, r, false);
            w.Ok? && w.value.decision == v.decision == ALLOWED && w.value.rows == v.rows && w.value.grants == v.grants
  {
    hide Inv, SameAuthority, ActiveSession, CheckRows, CacheTtl, Unexpired;
    RowsLater(l, env, later, peer, q, r, |q.payload.requirements|);
    if q.payload.session.Some? {
      SessionLater(l.sessions, env.now, later.now, peer, q.payload, r.payload);
    }
  }

  // ----- the answer to a request -----

  lemma FoundBelow(grants: map<Id, Grant>, key: GrantKey, q: Question, now: nat, bound: nat)
    requires bound !in grants
    ensures FindGrant(grants, key, q, now, bound + 1) == FindGrant(grants, key, q, now, bound)
  {
  }

  ghost predicate SameView(l: Ledger, m: Ledger) {
    m.definitions == l.definitions && m.grants == l.grants && m.sessions == l.sessions && m.next == l.next + 1
        && l.next !in l.grants
  }

  lemma RowSameView(l: Ledger, m: Ledger, env: Env, peer: Peer, q: Question, enforce: bool, i: nat, t: Tally)
    requires SameView(l, m) && i < |q.payload.requirements|
    ensures CheckRow(m, env, peer, q, enforce, i, t) == CheckRow(l, env, peer, q, enforce, i, t)
  {
    hide Identifier, BoundArguments;
    var d := q.payload.requirements[i].definition;
    if Definition(l.definitions, d).Ok? {
      FoundBelow(l.grants, KeyOf(q.payload, i, l.definitions[d].policyVersion), q, env.now, l.next);
    }
  }

  lemma {:induction false} RowsSameView(l: Ledger, m: Ledger, env: Env, peer: Peer, q: Question, enforce: bool, n: nat)
    requires SameView(l, m) && n <= |q.payload.requirements|
    ensures CheckRows(m, env, peer, q, enforce, n) == CheckRows(l, env, peer, q, enforce, n)
  {
    hide CheckRow, SameView;
    if n != 0 {
      RowsSameView(l, m, env, peer, q, enforce, n - 1);
      var t := CheckRows(l, env, peer, q, enforce, n - 1);
      if t.Ok? { RowSameView(l, m, env, peer, q, enforce, n - 1, t.value); }
    }
  }

  /** Recording a request changes no condition. */
  lemma ConditionsSameView(l: Ledger, m: Ledger, env: Env, peer: Peer, q: Question, enforce: bool)
    requires SameView(l, m)
    ensures CheckConditions(m, env, peer, q, enforce) == CheckConditions(l, env, peer, q, enforce)
  {
    hide CheckRows, ActiveSession, CacheTtl;
    if 1 <= |q.payload.requirements| <= 16 { RowsSameView(l, m, env, peer, q, enforce, |q.payload.requirements|); }
  }

  /** An answer to a new request comes from the conditions, and its commit only records it. */
  lemma AnsweredRequest(l: Ledger, book: R.Book, env: Env, peer: Peer, p: Payload, v: Verdict, id: Id)
    requires Inv(l) && Transact(l, book, env, peer, Ask(p, Create)).result == Ok(Decided(v, None, Some(id)))
    ensures var m := Transact(l, book, env, peer, Ask(p, Create)).db;
            CheckConditions(m, env, peer, Question(p, None, Target(p, env.now), false), false) == Ok(v)
  {
    hide Inv, Core, SameTable, Quiet, Expire, Evaluate, CheckConditions, StillInstalled, SameView, Compensate;
    var swept := Expire(l, env.now);
    SweptKeeps(l, env.now);
    var c := Evaluate(swept, env, peer, p, Create);
    CommitStands(swept, c.value, env.fences);
    AdmittedRequest(swept, env, peer, p, v, id);
    ConditionsSameView(swept, c.value.db, env, peer, Question(p, None, Target(p, env.now), false), false);
  }

  lemma CommitStands(l: Ledger, c: Change, f: Fences)
    ensures Commit(l, c, f).status.None? ==> Commit(l, c, f).db == c.db
  {
  }

  lemma AdmittedRequest(l: Ledger, env: Env, peer: Peer, p: Payload, v: Verdict, id: Id)
    requires Inv(l) && Evaluate(l, env, peer, p, Create).Ok?
    requires Evaluate(l, env, peer, p, Create).value.reply == Decided(v, None, Some(id))
    ensures CheckConditions(l, env, peer, Question(p, None, Target(p, env.now), false), false) == Ok(v)
    ensures SameView(l, Evaluate(l, env, peer, p, Create).value.db)
  {
    hide Inv, Preflight, CheckConditions, StoredApproval, ModesPermit, PendingRequests, Revised, Withdraw;
    NextIsNew(l);
  }

  /** A cacheable answer to a request remains what the conditions would be decided, for every payload
      with the same cache key, at every later moment of any run at which the revision has not
      moved, the installation authority says the same and the session has reached no deadline. */
  lemma CachedDecisionStands(run: seq<Stamped>, i: nat, j: nat, peer: Peer, p: Payload, q: Payload, v: Verdict, id: Id,
                             later: Env)
    requires i < j <= |run| && run[i].event == Invoke(peer, Ask(p, Create))
    requires Step(After(FRESH, run[..i]), run[i]).1 == Ok(Decided(v, None, Some(id))) && v.cacheable
    requires At(run, i + 1).revision == At(run, j).revision
    requires SameTuple(p, q) && SameAuthority(run[i].env, later) && Unexpired(At(run, j).sessions, p, later.now)
    ensures var w := CheckConditions(At(run, j), later, peer, Question(q, None, None, false), false);
            w.Ok? && w.value.decision == ALLOWED && w.value.rows == v.rows
  {
    hide After, Steady, Inv, Like, CheckConditions, SameAuthority, Unexpired, Forward;
    var m, n := At(run, i + 1), At(run, j);
    AtSteady(run, i);
    AtSteady(run, i + 1);
    AnsweredAt(run, i, peer, p, v, id);
    SameRevisionIsAlike(run, i + 1, j);
    UnexpiredAlike(m, n, p, later.now);
    CacheableIsPlain(m, run[i].env, peer, Question(p, None, Target(p, run[i].env.now), false), v);
    ConditionsLater(m, run[i].env, later, peer, Question(p, None, None, false), Question(q, None, None, false));
    ConditionsAlike(m, n, later, peer, Question(q, None, None, false), false);
  }

  lemma AnsweredAt(run: seq<Stamped>, i: nat, peer: Peer, p: Payload, v: Verdict, id: Id)
    requires i < |run| && run[i].event == Invoke(peer, Ask(p, Create))
    requires Step(After(FRESH, run[..i]), run[i]).1 == Ok(Decided(v, None, Some(id)))
    ensures CheckConditions(At(run, i + 1), run[i].env, peer, Question(p, None, Target(p, run[i].env.now), false),
                            false) == Ok(v)
  {
    hide After, Steady, Step, CheckConditions;
    AtSteady(run, i);
    AtStep(run, i);
    AnsweredStep(After(FRESH, run[..i]), run[i].env, peer, p, v, id);
  }

  /** A step that answers a request leaves a ledger whose conditions are decided as it answered. */
  lemma AnsweredStep(s: Repo, env: Env, peer: Peer, p: Payload, v: Verdict, id: Id)
    requires Steady(s) && Step(s, Stamped(env, Invoke(peer, Ask(p, Create)))).1 == Ok(Decided(v, None, Some(id)))
    ensures CheckConditions(Step(s, Stamped(env, Invoke(peer, Ask(p, Create)))).0.db, env, peer,
                            Question(p, None, Target(p, env.now), false), false) == Ok(v)
  {
    hide Inv, Sound, Projects, Transact, Ensure, CheckConditions;
    EnsureKeeps(s, env);
    var t := Ensure(s, env);
    AnsweredRequest(t.db, t.book, env, peer, p, v, id);
  }

  lemma UnexpiredAlike(l: Ledger, k: Ledger, p: Payload, now: nat)
    requires Like(l, k) && Unexpired(k.sessions, p, now)
    ensures Unexpired(l.sessions, p, now)
  {
    hide RequestsLike, ReceiptsLike, GrantsLike;
    if p.session.Some? && p.session.value in l.sessions {
      assert SessionLike(l.sessions[p.session.value], k.sessions[p.session.value]);
    }
  }

  lemma CacheableIsPlain(l: Ledger, env: Env, peer: Peer, q: Question, v: Verdict)
    requires CheckConditions(l, env, peer, q, false) == Ok(v) && v.cacheable
    ensures q.payload.approval.None?
  {
    hide CheckRows, ActiveSession;
  }

  // ----- for how long -----

  /** The daemon's clock counts whole milliseconds of the client's. */
  function Milliseconds(us: nat): nat {
    us / 1000
  }

  function Earliest(s: SessionRow): nat {
    Min(Min(s.idle, s.absolute), s.lease)
  }

  /** The time to live a verdict carries ends with the session, counted on the daemon's clock. */
  lemma TtlEndsWithSession(l: Ledger, env: Env, peer: Peer, q: Question, v: Verdict)
    requires CheckConditions(l, env, peer, q, false) == Ok(v) && q.payload.session.Some?
    ensures q.payload.session.value in l.sessions
    ensures 0 < v.ttl <= 500 && env.now + v.ttl <= Earliest(l.sessions[q.payload.session.value])
  {
    hide CheckRows, Context;
    assert ActiveSession(l.sessions, env.now, peer, q.payload).Ok?;
  }

  /** An entry made for an answer measured on some ledger has expired within a millisecond after the
      earliest deadline the session has there: the client counts from the admission of its
      request, before the daemon measured. */
  lemma EntryEndsWithSession(l: Ledger, env: Env, peer: Peer, p: Question, v: Verdict, measured: nat,
                             q: C.Asked, a: C.Answer, stored: int, served: int)
    requires CheckConditions(l, env, peer, p, false) == Ok(v) && p.payload.session.Some?
    requires env.now == Milliseconds(measured) && q.admitted <= measured && a.ttl == v.ttl
    requires served < C.Made(q, a, stored).expires
    ensures p.payload.session.value in l.sessions
    ensures served < Earliest(l.sessions[p.payload.session.value]) * 1000 + 1000
  {
    hide CheckConditions, Earliest;
    TtlEndsWithSession(l, env, peer, p, v);
    assert measured < Milliseconds(measured) * 1000 + 1000;
  }

  /** Over every run: an answer the client keeps is never repeated a millisecond or more after the
      earliest deadline its session has at any later moment with the same revision. */
  lemma NeverAMillisecondLate(run: seq<Stamped>, i: nat, j: nat, peer: Peer, p: Payload, v: Verdict, id: Id,
                              measured: nat, q: C.Asked, a: C.Answer, stored: int, served: int)
    requires i < j <= |run| && run[i].event == Invoke(peer, Ask(p, Create)) && p.session.Some?
    requires Step(After(FRESH, run[..i]), run[i]).1 == Ok(Decided(v, None, Some(id)))
    requires At(run, i + 1).revision == At(run, j).revision
    requires run[i].env.now == Milliseconds(measured) && q.admitted <= measured && a.ttl == v.ttl
    requires served < C.Made(q, a, stored).expires
    ensures p.session.value in At(run, j).sessions
    ensures served < Earliest(At(run, j).sessions[p.session.value]) * 1000 + 1000
  {
    hide After, Like, CheckConditions, Earliest, Milliseconds, C.Made;
    AnsweredAt(run, i, peer, p, v, id);
    SameRevisionIsAlike(run, i + 1, j);
    var question := Question(p, None, Target(p, run[i].env.now), false);
    ConditionsAlike(At(run, i + 1), At(run, j), run[i].env, peer, question, false);
    EntryEndsWithSession(At(run, j), run[i].env, peer, question, v, measured, q, a, stored, served);
  }

  /** The entry is repeated although the daemon would refuse the session. */
  predicate RepeatedLate(sessions: map<Id, SessionRow>, peer: Peer, p: Payload, q: C.Asked, a: C.Answer,
                         measured: nat, served: nat) {
    && measured <= served < C.Made(q, a, measured).expires
    && ActiveSession(sessions, Milliseconds(served), peer, p).Err?
  }

  /** That can happen, within the millisecond, exactly when the session limits the time to live and
      the request was admitted within the millisecond in which the daemon measured it, after its
      beginning. */
  lemma LateExactlyWithinAMillisecond(sessions: map<Id, SessionRow>, peer: Peer, p: Payload,
                                      q: C.Asked, a: C.Answer, measured: nat)
    requires p.session.Some? && ActiveSession(sessions, Milliseconds(measured), peer, p).Ok?
    requires q.admitted <= measured && a.ttl == CacheTtl(sessions, Milliseconds(measured), p)
    ensures (exists served :: RepeatedLate(sessions, peer, p, q, a, measured, served))
            <==> q.admitted > Milliseconds(measured) * 1000
                 && Earliest(sessions[p.session.value]) - Milliseconds(measured) <= 500
  {
    hide Context;
    var deadline := Earliest(sessions[p.session.value]);
    var now := Milliseconds(measured);
    assert a.ttl == Min(500, deadline - now);
    if q.admitted > now * 1000 && deadline - now <= 500 {
      assert RepeatedLate(sessions, peer, p, q, a, measured, deadline * 1000);
    } else {
      forall served: nat ensures !RepeatedLate(sessions, peer, p, q, a, measured, served) {
        NotLate(sessions, peer, p, q, a, measured, served);
      }
    }
  }

  lemma NotLate(sessions: map<Id, SessionRow>, peer: Peer, p: Payload, q: C.Asked, a: C.Answer,
                measured: nat, served: nat)
    requires p.session.Some? && ActiveSession(sessions, Milliseconds(measured), peer, p).Ok?
    requires q.admitted <= measured && a.ttl == CacheTtl(sessions, Milliseconds(measured), p)
    requires q.admitted <= Milliseconds(measured) * 1000
             || Earliest(sessions[p.session.value]) - Milliseconds(measured) > 500
    ensures !RepeatedLate(sessions, peer, p, q, a, measured, served)
  {
    hide Context;
    var deadline := Earliest(sessions[p.session.value]);
    if served < C.Made(q, a, measured).expires {
      assert served < deadline * 1000;
      assert Milliseconds(served) < deadline;
    }
  }
}
