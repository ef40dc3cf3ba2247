/** What an answer to a prompt does: which grants it gives, to whom and for how long, and what becomes of
    the request. */
module Answers {
  import opened Types
  import opened Ledger
  import opened Conditions
  import opened Operations
  import opened Invariants
  import opened Verdicts
  import opened Withdrawals
  import opened Coverage

  // ----- what is asked -----

  /** The choice between the period asked for and PERSISTENT is left to the user. */
  ghost predicate Choosing(q: RequestRow) {
    q.payload.approval.Some? && q.payload.approval.value.choices
  }

  /** The period an answer is for. */
  ghost function Period(q: RequestRow, u: Screening): Mode {
    if Choosing(q) && u.chosen.Some? then u.chosen.value else u.mode
  }

  ghost function Evaluated(q: RequestRow, mode: Mode): Question {
    Question(q.payload, if Choosing(q) then Some(mode) else None, q.target, false)
  }

  ghost predicate OnDisplay(q: RequestRow, i: nat) {
    q.payload.approval.None? || i in q.shownRows
  }

  /** Requirement `i` is on display and lacks a grant: as the request has it stored, and for a versioned one
      also now; where the user chooses the period, only now and for that period. */
  ghost predicate Lacking(l: Ledger, q: RequestRow, mode: Mode, now: nat, i: nat)
    requires i < |q.payload.requirements| == |q.rows|
  {
    && OnDisplay(q, i)
    && if Choosing(q) then !Supplied(l, Evaluated(q, mode), now, i)
       else
         && q.rows[i].decision != ALLOWED
         && (q.payload.approval.Some? ==> !Supplied(l, Question(q.payload, None, q.target, false), now, i))
  }

  /** The grant given for requirement `i`. */
  ghost function Given(q: RequestRow, i: nat, version: string, mode: Mode, now: nat, duration: nat): Grant
    requires i < |q.payload.requirements|
  {
    var p, r := q.payload, q.payload.requirements[i];
    Grant(GrantKey(p.subject, p.profile, r.definition, version, r.scope, r.operation, r.purpose, r.recipient, r.holder),
          if mode == SESSION then p.session else None, mode, if mode == TIMED then now + duration else 0,
          if mode == ONCE then 1 else -1, false)
  }

  /** Exactly `ids` are new; the others are as they were. */
  ghost predicate Adds(a: map<Id, Grant>, b: map<Id, Grant>, ids: set<Id>) {
    b.Keys == a.Keys + ids && a.Keys !! ids && forall g :: g in a ==> b[g] == a[g]
  }

  ghost predicate OneEach(at: map<nat, Id>) {
    forall i, j :: i in at && j in at && at[i] == at[j] ==> i == j
  }

  /** `at` names the one new grant of each requirement of `rows`, and there are no others. */
  ghost predicate Gives(l: Ledger, grants: map<Id, Grant>, q: RequestRow, mode: Mode, now: nat, duration: nat,
                        rows: set<nat>, at: map<nat, Id>)
    requires forall i :: i in rows ==> i < |q.payload.requirements|
  {
    && at.Keys == rows && OneEach(at) && Adds(l.grants, grants, at.Values)
    && forall i :: i in rows ==> at[i] in grants && IsGiven(l, grants[at[i]], q, mode, now, duration, i)
  }

  /** The grant is one for requirement `i`, in a mode its present definition permits. */
  ghost predicate IsGiven(l: Ledger, g: Grant, q: RequestRow, mode: Mode, now: nat, duration: nat, i: nat)
    requires i < |q.payload.requirements|
  {
    var r := q.payload.requirements[i];
    && Defined(l, r) && mode in l.definitions[r.definition].modes
    && g == Given(q, i, l.definitions[r.definition].policyVersion, mode, now, duration)
  }

  // ----- the loop -----

  ghost function Rows(l: Ledger, q: RequestRow, mode: Mode, now: nat, n: nat): (r: set<nat>)
    requires n <= |q.payload.requirements| == |q.rows|
    ensures forall i :: i in r ==> i < n
  {
    set i: nat | i < n && Lacking(l, q, mode, now, i)
  }

  lemma GivesNone(l: Ledger, q: RequestRow, mode: Mode, now: nat, duration: nat)
    ensures Gives(l, l.grants, q, mode, now, duration, {}, map[])
  {
  }

  lemma GivesMore(l: Ledger, m: Ledger, q: RequestRow, mode: Mode, now: nat, duration: nat, rows: set<nat>,
                  at: map<nat, Id>, i: nat)
    requires (forall k :: k in rows ==> k < |q.payload.requirements|) && i < |q.payload.requirements| && i !in rows
    requires Gives(l, m.grants, q, mode, now, duration, rows, at) && m.definitions == l.definitions
    requires m.next !in m.grants && IssueOne(m, q, mode, if mode.TIMED? then now + duration else 0, i).Ok?
    ensures Gives(l, IssueOne(m, q, mode, if mode.TIMED? then now + duration else 0, i).value.grants, q, mode, now,
                  duration,
                  rows + {i}, at[i := m.next])
  {
    hide Given, IssueOne, OneEach, IsGiven, Defined, Adds;
    var k := IssueOne(m, q, mode, if mode.TIMED? then now + duration else 0, i).value;
    NewIsGiven(l, m, q, mode, now, duration, i);
    AddsMore(l.grants, m.grants, at.Values, m.next, k.grants[m.next]);
    OneMore(at, i, m.next);
    forall j | j in rows + {i}
      ensures at[i := m.next][j] in k.grants && IsGiven(l, k.grants[at[i := m.next][j]], q, mode, now, duration, j)
    {
      if j != i { assert at[j] in m.grants && at[j] != m.next; }
    }
  }

  lemma AddsMore(a: map<Id, Grant>, b: map<Id, Grant>, ids: set<Id>, g: Id, x: Grant)
    requires Adds(a, b, ids) && g !in b
    ensures Adds(a, b[g := x], ids + {g}) && g !in ids
  {
  }

  lemma NewIsGiven(l: Ledger, m: Ledger, q: RequestRow, mode: Mode, now: nat, duration: nat, i: nat)
    requires i < |q.payload.requirements| && IssueOne(m, q, mode, if mode.TIMED? then now + duration else 0, i).Ok?
    requires m.definitions == l.definitions && m.next !in m.grants
    ensures var k := IssueOne(m, q, mode, if mode.TIMED? then now + duration else 0, i).value;
            m.next in k.grants && k.grants == m.grants[m.next := k.grants[m.next]]
            && IsGiven(l, k.grants[m.next], q, mode, now, duration, i)
  {
    hide IssueOne;
    OneGiven(m, q, mode, now, duration, i);
  }

  lemma OneMore(at: map<nat, Id>, i: nat, g: Id)
    requires OneEach(at) && i !in at && g !in at.Values
    ensures OneEach(at[i := g]) && at[i := g].Values == at.Values + {g}
  {
    var to := at[i := g];
    forall h | h in at.Values ensures h in to.Values {
      var j :| j in at && at[j] == h;
      assert to[j] == h;
    }
    assert to[i] == g;
    assert forall j :: j in at ==> at[j] in at.Values;
  }

  lemma OneGiven(m: Ledger, q: RequestRow, mode: Mode, now: nat, duration: nat, i: nat)
    requires i < |q.payload.requirements| && IssueOne(m, q, mode, if mode.TIMED? then now + duration else 0, i).Ok?
    ensures var k := IssueOne(m, q, mode, if mode.TIMED? then now + duration else 0, i).value;
            && Defined(m, q.payload.requirements[i])
            && var c := m.definitions[q.payload.requirements[i].definition];
               && mode in c.modes && m.next in k.grants
               && k == m.(grants := m.grants[m.next := Given(q, i, c.policyVersion, mode, now, duration)],
                          next := m.next + 1)
  {
  }

  // the current verdict as the loop uses it
  ghost predicate Current(l: Ledger, q: RequestRow, mode: Mode, now: nat, current: Verdict)
    requires |q.payload.requirements| == |q.rows|
  {
    && |current.rows| == |q.rows|
    && forall i :: 0 <= i < |q.rows| && q.payload.approval.Some? ==>
         (current.rows[i].decision.ALLOWED? <==>
            Supplied(l, if Choosing(q) then Evaluated(q, mode) else Question(q.payload, None, q.target, false), now, i))
  }

  lemma WantedIsLacking(l: Ledger, q: RequestRow, mode: Mode, now: nat, current: Verdict, i: nat)
    requires i < |q.payload.requirements| == |q.rows| && Current(l, q, mode, now, current)
    ensures Wanted(q, current, i) <==> Lacking(l, q, mode, now, i)
  {
    hide Supplied;
  }

  lemma {:induction false} IssueGives(l: Ledger, q: RequestRow, current: Verdict, mode: Mode, now: nat, duration: nat,
                                      n: nat)
    returns (at: map<nat, Id>)
    requires n <= |q.rows| == |q.payload.requirements| == |current.rows| && Current(l, q, mode, now, current)
    requires (forall g :: g in l.grants ==> g < l.next)
    requires Issue(l, q, current, mode, if mode.TIMED? then now + duration else 0, n).Ok?
    ensures var m := Issue(l, q, current, mode, if mode.TIMED? then now + duration else 0, n).value;
            && Gives(l, m.grants, q, mode, now, duration, Rows(l, q, mode, now, n), at)
            && (forall g :: g in m.grants ==> g < m.next)
  {
    hide Gives, Lacking, Wanted, IssueOne, Current;
    var expires := if mode.TIMED? then now + duration else 0;
    if n == 0 {
      at := map[];
      GivesNone(l, q, mode, now, duration);
      assert Rows(l, q, mode, now, 0) == {};
    } else {
      at := IssueGives(l, q, current, mode, now, duration, n - 1);
      var m := Issue(l, q, current, mode, expires, n - 1).value;
      WantedIsLacking(l, q, mode, now, current, n - 1);
      RowsMore(l, q, mode, now, n);
      if Wanted(q, current, n - 1) {
        GivesMore(l, m, q, mode, now, duration, Rows(l, q, mode, now, n - 1), at, n - 1);
        OneGiven(m, q, mode, now, duration, n - 1);
        at := at[n - 1 := m.next];
      }
    }
  }

  lemma RowsMore(l: Ledger, q: RequestRow, mode: Mode, now: nat, n: nat)
    requires 0 < n <= |q.payload.requirements| == |q.rows|
    ensures n - 1 !in Rows(l, q, mode, now, n - 1)
    ensures Rows(l, q, mode, now, n) ==
              if Lacking(l, q, mode, now, n - 1) then Rows(l, q, mode, now, n - 1) + {n - 1}
              else Rows(l, q, mode, now, n - 1)
  {
    hide Lacking;
  }

  // ----- the answer -----

  /** The decision that is stored for requirement `i`: a refusal denies what was on display and not allowed
      before; anything else is decided on the ledger with the new grants. */
  ghost function Final(after: Ledger, q: RequestRow, u: Screening, mode: Mode, now: nat, i: nat): Decision
    requires i < |q.payload.requirements| == |q.rows|
  {
    if !u.allow && OnDisplay(q, i) && q.rows[i].decision != ALLOWED then DENIED
    else Says(after, Evaluated(q, mode), now, i).decision
  }

  ghost predicate AllSupplied(l: Ledger, q: Question, now: nat) {
    forall i :: 0 <= i < |q.payload.requirements| ==> Supplied(l, q, now, i)
  }

  /** What becomes of the request. */
  ghost predicate Concludes(after: Ledger, q: RequestRow, row: RequestRow, u: Screening, mode: Mode, now: nat)
    requires |q.payload.requirements| == |q.rows|
  {
    && row == q.(state := row.state, token := None, rows := row.rows, locale := "", shownRows := {},
                 chosen := if Choosing(q) then Some(mode) else q.chosen)
    && row.state == (if !u.allow then Refused
                     else if AllSupplied(after, Evaluated(q, mode), now) then Allowed else Invalidated)
    && |row.rows| == |q.rows|
    && forall i :: 0 <= i < |q.rows| ==> row.rows[i] == q.rows[i].(decision := Final(after, q, u, mode, now, i))
  }

  /** A refusal gives nothing; consent gives one grant for each requirement that lacks one, and no other. */
  ghost predicate Consents(l: Ledger, grants: map<Id, Grant>, issued: set<Id>, q: RequestRow, u: Screening, mode: Mode,
                           now: nat)
    requires |q.payload.requirements| == |q.rows|
  {
    if u.allow
    then exists at ::
           Gives(l, grants, q, mode, now, u.duration, Rows(l, q, mode, now, |q.rows|), at) && issued == at.Values
    else grants == l.grants && issued == {}
  }

  /** What an answer to request `id` commits and replies. */
  ghost predicate AnswersTo(l: Ledger, c: Change, id: Id, u: Screening, now: nat) {
    && id in l.requests && id in c.db.requests
    && var q, m := l.requests[id], c.db;
       var mode := Period(q, u);
       && |q.payload.requirements| == |q.rows|
       && m == l.(grants := m.grants, next := m.next, requests := l.requests[id := m.requests[id]],
                  revision := l.revision + 1)
       && Consents(l, m.grants, c.issued, q, u, mode, now)
       && (!u.allow ==> m.next == l.next)
       && Concludes(l.(grants := m.grants, next := m.next), q, m.requests[id], u, mode, now)
       && c.reply == Answered(id, m.requests[id].state, m.requests[id].rows)
       && c.request == Some(id)
       && (u.allow ==>
             (mode == SESSION ==> q.payload.session.Some?) && (mode == TIMED ==> 100 <= u.duration <= 3600000))
  }

  lemma ConcludeIs(l: Ledger, m: Ledger, env: Env, peer: Peer, id: Id, q: RequestRow, u: Screening)
    requires |q.payload.requirements| == |q.rows| && Conclude(l, m, env, peer, id, q, u, Period(q, u)).Ok?
    ensures var c := Conclude(l, m, env, peer, id, q, u, Period(q, u)).value;
            && id in c.db.requests
            && c.db == m.(requests := m.requests[id := c.db.requests[id]], revision := m.revision + 1)
            && c.issued == NewGrants(l, m) && c.request == Some(id)
            && Concludes(m, q, c.db.requests[id], u, Period(q, u), env.now)
            && c.reply == Answered(id, c.db.requests[id].state, c.db.requests[id].rows)
  {
    hide CheckConditions, Says, Supplied, NewGrants;
    var mode := Period(q, u);
    assert Asked(q, mode) == Evaluated(q, mode);
    VerdictSays(m, env, peer, Asked(q, mode), false);
    VerdictIs(m, env, peer, Asked(q, mode));
    var v := CheckConditions(m, env, peer, Asked(q, mode), false).value;
    forall i | 0 <= i < |q.rows|
      ensures Redecided(q.rows, if u.allow then v.rows else Refuse(q, v.rows))[i].decision
              == Final(m, q, u, mode, env.now, i)
    {
    }
  }

  lemma VerdictIs(l: Ledger, env: Env, peer: Peer, q: Question)
    requires CheckConditions(l, env, peer, q, false).Ok?
    ensures CheckConditions(l, env, peer, q, false).value.decision.ALLOWED? <==> AllSupplied(l, q, env.now)
  {
    hide CheckConditions, Supplied;
    VerdictSound(l, env, peer, q, false);
  }

  lemma SettleAnswers(l: Ledger, env: Env, peer: Peer, id: Id, q: RequestRow, u: Screening, current: Verdict)
    requires id in l.requests && q == l.requests[id] && |q.payload.requirements| == |q.rows| == |current.rows|
    requires Current(l, q, Period(q, u), env.now, current) && forall g :: g in l.grants ==> g < l.next
    requires Settle(l, env, peer, id, q, u, Period(q, u), current).Ok?
    ensures AnswersTo(l, Settle(l, env, peer, id, q, u, Period(q, u), current).value, id, u, env.now)
  {
    hide Conclude, Issue, Current, Gives, Concludes, Rows, NewGrants;
    var mode := Period(q, u);
    var expires := if mode.TIMED? then env.now + u.duration else 0;
    if u.allow {
      var m := Issue(l, q, current, mode, expires, |q.rows|).value;
      var at := IssueGives(l, q, current, mode, env.now, u.duration, |q.rows|);
      ConcludeIs(l, m, env, peer, id, q, u);
      NewAre(l, m, q, mode, env.now, u.duration, Rows(l, q, mode, env.now, |q.rows|), at);
      assert Gives(l, m.grants, q, mode, env.now, u.duration, Rows(l, q, mode, env.now, |q.rows|), at)
             && NewGrants(l, m) == at.Values;
    } else {
      ConcludeIs(l, l, env, peer, id, q, u);
      NoNew(l);
    }
  }

  lemma NewAre(l: Ledger, m: Ledger, q: RequestRow, mode: Mode, now: nat, duration: nat, rows: set<nat>,
               at: map<nat, Id>)
    requires (forall i :: i in rows ==> i < |q.payload.requirements|)
    requires Gives(l, m.grants, q, mode, now, duration, rows, at)
    ensures NewGrants(l, m) == at.Values
  {
    hide IsGiven, OneEach;
  }

  lemma NoNew(l: Ledger)
    ensures NewGrants(l, l) == {}
  {
  }

  // ----- who may answer -----

  /** The request a caller refers to. */
  ghost predicate Refers(l: Ledger, peer: Peer, ref: RequestRef, id: Id) {
    && id in l.requests && Permits(peer, l.requests[id].payload.subject, l.requests[id].payload.profile)
    && match ref
       case ById(x) => x == id
       case ByClient(client, subject, profile) =>
         && Permits(peer, subject, profile)
         && var key := ClientKey(peer.identity, subject, profile, client); key in l.clients && l.clients[key] == id
  }

  /** The definitions are active, installed, and as they were when the request was made. */
  ghost predicate Unchanged(l: Ledger, env: Env, q: RequestRow) {
    && |q.rows| == |q.payload.requirements|
    && forall i :: 0 <= i < |q.rows| ==>
         var r := q.payload.requirements[i];
         && Defined(l, r)
         && var c := l.definitions[r.definition];
            && env.installed(c.package, c.app, c.identity) && env.arguments(Some(c), r)
            && c.policyVersion == q.rows[i].policyVersion && c.textRevision == q.rows[i].textRevision
            && (Typed(c) ==> r.policyVersion == c.policyVersion)
  }

  /** PERSISTENT may be chosen for every requirement. */
  ghost predicate Offered(l: Ledger, q: RequestRow) {
    && Choosing(q)
    && forall i :: 0 <= i < |q.payload.requirements| ==>
         && q.payload.requirements[i].definition in l.definitions
         && var c := l.definitions[q.payload.requirements[i].definition]; c.level != "3" && PERSISTENT in c.modes
  }

  ghost predicate Localized(l: Ledger, q: RequestRow) {
    || q.payload.approval.Some?
    || exists i :: 0 <= i < |q.payload.requirements| && q.payload.requirements[i].definition in l.definitions
                   && Typed(l.definitions[q.payload.requirements[i].definition])
  }

  /** The prompt is open to this user interface. */
  ghost predicate Prompts(l: Ledger, env: Env, peer: Peer, q: RequestRow) {
    && "ui" in peer.roles && env.profile(q.payload.subject, q.payload.profile).None?
    && q.state == Pending && env.now < q.deadline && InSession(l.sessions, env.now, peer, q.payload)
    && Unchanged(l, env, q)
  }

  /** The conditions of a request can be decided. */
  ghost predicate CanDecide(l: Ledger, env: Env, peer: Peer, p: Payload) {
    1 <= |p.requirements| <= 16 && Ready(l, env, peer, Question(p, None, None, false), false, |p.requirements|)
  }

  /** The answer is to what was displayed, by the one it was displayed to. */
  ghost predicate Matches(l: Ledger, peer: Peer, q: RequestRow, u: Screening) {
    && u.token.Some? && u.token == q.token && q.uiOwner == peer.identity && q.uiInstance == peer.instance
    && (Localized(l, q) ==> q.locale != "" && u.locale == q.locale)
    && u.context == (if q.payload.approval.Some? then q.payload.approval else u.context)
    && (if q.payload.approval.None? then u.version.None? || u.version == Some(1) || u.version == Some(2)
        else u.version == Some(if Choosing(q) then 2 else 1))
    && (if Choosing(q)
        then && u.offered == q.shownPersistent == Some(Offered(l, q)) && u.chosen.Some?
             && (u.chosen.value == q.payload.approval.value.mode || (Offered(l, q) && u.chosen.value == PERSISTENT))
        else u.chosen.None? && u.offered.None?)
  }

  /** What consent asks for can be given. */
  ghost predicate CanGive(l: Ledger, q: RequestRow, u: Screening, now: nat)
    requires |q.payload.requirements| == |q.rows|
  {
    var mode := Period(q, u);
    && (mode == SESSION ==> q.payload.session.Some?) && (mode == TIMED ==> 100 <= u.duration <= 3600000)
    && forall i :: 0 <= i < |q.rows| && Lacking(l, q, mode, now, i) ==>
         && Defined(l, q.payload.requirements[i])
         && mode in l.definitions[q.payload.requirements[i].definition].modes
  }

  lemma FindIs(l: Ledger, peer: Peer, ref: RequestRef)
    ensures var r := FindRequest(l, peer, ref, true);
            (r.Ok? ==> Refers(l, peer, ref, r.value)) && forall id: Id :: Refers(l, peer, ref, id) ==> r == Ok(id)
  {
    hide Context, Permits;
    if ref.ByClient? { ContextPermits(peer, ref.subject, ref.profile); }
    forall id | id in l.requests
      ensures Context(peer, l.requests[id].payload.subject, l.requests[id].payload.profile).Ok? <==>
                Permits(peer, l.requests[id].payload.subject, l.requests[id].payload.profile)
    {
      ContextPermits(peer, l.requests[id].payload.subject, l.requests[id].payload.profile);
    }
  }

  lemma {:induction false} DisplayableIs(l: Ledger, env: Env, q: RequestRow, n: nat)
    requires n <= |q.payload.requirements| == |q.rows|
    ensures Displayable(l, env, q, n).Ok? <==>
              forall i :: 0 <= i < n ==>
                var r := q.payload.requirements[i];
                && Defined(l, r)
                && var c := l.definitions[r.definition];
                   && env.installed(c.package, c.app, c.identity) && env.arguments(Some(c), r)
                   && c.policyVersion == q.rows[i].policyVersion && c.textRevision == q.rows[i].textRevision
                   && (Typed(c) ==> r.policyVersion == c.policyVersion)
  {
    if n != 0 { DisplayableIs(l, env, q, n - 1); }
  }

  /** The decision to come does not depend on the grants, nor on the period chosen. */
  lemma DecidesIff(l: Ledger, m: Ledger, env: Env, peer: Peer, q: Question)
    requires m.definitions == l.definitions && m.sessions == l.sessions && !q.check
    ensures CheckConditions(m, env, peer, q, false).Ok? <==>
              && CanDecide(l, env, peer, q.payload)
              && (q.payload.session.Some? ==> InSession(l.sessions, env.now, peer, q.payload))
  {
    hide CheckConditions, InSession;
    ConditionsDecided(m, env, peer, q, false);
    if 1 <= |q.payload.requirements| <= 16 {
      ReadySame(l, m, env, peer, q, Question(q.payload, None, None, false), |q.payload.requirements|);
    }
  }

  lemma ReadySame(l: Ledger, m: Ledger, env: Env, peer: Peer, q: Question, r: Question, n: nat)
    requires m.definitions == l.definitions && q.payload == r.payload && q.check == r.check
             && n <= |q.payload.requirements|
    ensures Ready(m, env, peer, q, false, n) <==> Ready(l, env, peer, r, false, n)
  {
    forall i, k: nat | k <= |q.payload.requirements| && 0 <= i < |q.payload.requirements|
      ensures Before(m, q, k, i) <==> Before(l, r, k, i)
      ensures Decidable(m, env, peer, q, false, q.payload.requirements[i]) <==>
                Decidable(l, env, peer, r, false, r.payload.requirements[i])
      ensures Defined(m, q.payload.requirements[i]) <==> Defined(l, r.payload.requirements[i])
    {
    }
    hide Before, Decidable, Defined;
  }

  lemma OpenIs(l: Ledger, env: Env, peer: Peer, q: RequestRow, u: Screening)
    ensures var r := OpenPrompt(l, env, peer, q, u, true);
            && (r.Ok? <==>
                  && env.profile(q.payload.subject, q.payload.profile).None?
                  && q.state == Pending && env.now < q.deadline && InSession(l.sessions, env.now, peer, q.payload)
                  && (if q.payload.approval.None? then u.version.None? || u.version == Some(1) || u.version == Some(2)
                      else u.version == Some(if Choosing(q) then 2 else 1))
                  && Unchanged(l, env, q)
                  && (q.payload.approval.Some? ==> CanDecide(l, env, peer, q.payload)))
            && (r.Ok? ==> |r.value.rows| == |q.rows| == |q.payload.requirements|)
            && (r.Ok? && q.payload.approval.Some? ==>
                  CheckConditions(l, env, peer, Question(q.payload, None, q.target, false), false) == r)
  {
    hide ActiveSession, InSession, CheckConditions, Displayable, CanDecide, Unchanged;
    SessionIs(l.sessions, env.now, peer, q.payload);
    DecidesIff(l, l, env, peer, Question(q.payload, None, q.target, false));
    if |q.payload.requirements| == |q.rows| { DisplayableIs(l, env, q, |q.rows|); }
    UnchangedIs(l, env, q);
    if CheckConditions(l, env, peer, Question(q.payload, None, q.target, false), false).Ok? {
      VerdictSays(l, env, peer, Question(q.payload, None, q.target, false), false);
    }
  }

  lemma UnchangedIs(l: Ledger, env: Env, q: RequestRow)
    ensures Unchanged(l, env, q) <==>
              |q.rows| == |q.payload.requirements| && Displayable(l, env, q, |q.payload.requirements|).Ok?
  {
    hide Displayable;
    if |q.rows| == |q.payload.requirements| { DisplayableIs(l, env, q, |q.rows|); }
  }

  lemma IssuedIf(l: Ledger, q: RequestRow, current: Verdict, mode: Mode, now: nat, expires: nat, n: nat)
    requires n <= |q.rows| == |q.payload.requirements| == |current.rows| && Current(l, q, mode, now, current)
    ensures Issue(l, q, current, mode, expires, n).Ok? <==>
              forall i :: 0 <= i < n && Lacking(l, q, mode, now, i) ==>
                && Defined(l, q.payload.requirements[i])
                && mode in l.definitions[q.payload.requirements[i].definition].modes
  {
    hide Lacking, Wanted, Current;
    if n != 0 {
      IssuedIf(l, q, current, mode, now, expires, n - 1);
      WantedIsLacking(l, q, mode, now, current, n - 1);
    }
  }

  /** The verdict the loop goes by. */
  lemma CurrentIs(l: Ledger, env: Env, peer: Peer, q: RequestRow, mode: Mode, v: Verdict)
    requires |q.payload.requirements| == |q.rows| == |v.rows|
    requires q.payload.approval.Some? ==>
               var question := if Choosing(q) then Evaluated(q, mode) else Question(q.payload, None, q.target, false);
               CheckConditions(l, env, peer, question, false) == Ok(v)
    ensures Current(l, q, mode, env.now, v)
  {
    hide CheckConditions, Supplied;
    if q.payload.approval.Some? {
      var question := if Choosing(q) then Evaluated(q, mode) else Question(q.payload, None, q.target, false);
      VerdictSays(l, env, peer, question, false);
      forall i | 0 <= i < |q.rows| ensures v.rows[i].decision.ALLOWED? <==> Supplied(l, question, env.now, i) {
        SaysIs(l, question, env.now, i);
        SuppliedIsDefined(l, question, env.now, i);
      }
    }
  }

  lemma SuppliedIsDefined(l: Ledger, q: Question, now: nat, i: nat)
    requires i < |q.payload.requirements|
    ensures Supplied(l, q, now, i) ==> Defined(l, q.payload.requirements[i])
  {
  }

  lemma MatchesIs(l: Ledger, peer: Peer, q: RequestRow, u: Screening)
    ensures var version := if q.payload.approval.None?
                           then u.version.None? || u.version == Some(1) || u.version == Some(2)
                           else u.version == Some(if Choosing(q) then 2 else 1);
            && (Matches(l, peer, q, u) <==> version && Presented(l, peer, q, u) && AnswerMode(l, q, u).Ok?)
            && (AnswerMode(l, q, u).Ok? ==> AnswerMode(l, q, u).value == Period(q, u))
  {
    assert Offered(l, q) <==> PersistentOffer(l, q);
    assert Localized(l, q) <==> TypedPrompt(l, q) || Versioned(q);
    hide Offered, PersistentOffer, Localized, TypedPrompt;
  }

  lemma SettleIff(l: Ledger, env: Env, peer: Peer, id: Id, q: RequestRow, u: Screening, current: Verdict)
    requires |q.payload.requirements| == |q.rows| == |current.rows| && Current(l, q, Period(q, u), env.now, current)
    requires InSession(l.sessions, env.now, peer, q.payload)
    ensures Settle(l, env, peer, id, q, u, Period(q, u), current).Ok? <==>
              CanDecide(l, env, peer, q.payload) && (u.allow ==> CanGive(l, q, u, env.now))
  {
    hide Current, Lacking, CheckConditions, Issue, InSession, CanDecide;
    var mode := Period(q, u);
    var expires := if mode.TIMED? then env.now + u.duration else 0;
    IssuedIf(l, q, current, mode, env.now, expires, |q.rows|);
    var m := if u.allow then Issue(l, q, current, mode, expires, |q.rows|) else Ok(l);
    if m.Ok? {
      DecidesIff(l, m.value, env, peer, Asked(q, mode));
      if CheckConditions(m.value, env, peer, Asked(q, mode), false).Ok? {
        VerdictSays(m.value, env, peer, Asked(q, mode), false);
      }
    }
  }

  /** The answer is taken. */
  ghost predicate Taken(l: Ledger, env: Env, peer: Peer, ref: RequestRef, u: Screening, id: Id) {
    && Refers(l, peer, ref, id)
    && var q := l.requests[id];
       Prompts(l, env, peer, q) && Matches(l, peer, q, u) && CanDecide(l, env, peer, q.payload)
       && (u.allow ==> CanGive(l, q, u, env.now))
  }

  /** The stages of an answer. */
  lemma RespondStages(l: Ledger, env: Env, peer: Peer, ref: RequestRef, u: Screening, id: Id)
    requires FindRequest(l, peer, ref, true) == Ok(id) && id in l.requests
    ensures var q, r := l.requests[id], Respond(l, env, peer, ref, u);
            var first, mode := OpenPrompt(l, env, peer, q, u, true), AnswerMode(l, q, u);
            if "ui" !in peer.roles || first.Err? || !Presented(l, peer, q, u) || mode.Err? then r.Err?
            else
              var current := if Choices(q) then CheckConditions(l, env, peer, Asked(q, mode.value), false) else first;
              if current.Err? || !(|q.payload.requirements| == |q.rows| == |current.value.rows|) then r.Err?
              else r == Settle(l, env, peer, id, q, u, mode.value, current.value)
  {
    hide FindRequest, OpenPrompt, Presented, AnswerMode, CheckConditions, Settle;
  }

  lemma RespondToOne(l: Ledger, env: Env, peer: Peer, ref: RequestRef, u: Screening, id: Id)
    requires Inv(l) && Refers(l, peer, ref, id) && id in l.requests
    ensures var r := Respond(l, env, peer, ref, u);
            (r.Ok? <==> Taken(l, env, peer, ref, u, id)) && (r.Ok? ==> AnswersTo(l, r.value, id, u, env.now))
  {
    hide Inv, FindRequest, Refers, OpenPrompt, Presented, AnswerMode, CheckConditions, Settle, AnswersTo, Matches;
    hide CanGive, CanDecide, InSession, Unchanged, Current, Period, Respond, Prompts;
    FindIs(l, peer, ref);
    RespondStages(l, env, peer, ref, u, id);
    var q := l.requests[id];
    OpenIs(l, env, peer, q, u);
    MatchesIs(l, peer, q, u);
    InSessionPart(l, env, peer, q);
    var first := OpenPrompt(l, env, peer, q, u, true);
    if "ui" in peer.roles && first.Ok? && Matches(l, peer, q, u) { SettledOne(l, env, peer, u, id, first.value); }
  }

  lemma SettledOne(l: Ledger, env: Env, peer: Peer, u: Screening, id: Id, first: Verdict)
    requires Inv(l) && id in l.requests && OpenPrompt(l, env, peer, l.requests[id], u, true) == Ok(first)
    requires Matches(l, peer, l.requests[id], u)
    ensures var q := l.requests[id];
            var mode := Period(q, u);
            var current := if Choices(q) then CheckConditions(l, env, peer, Asked(q, mode), false) else Ok(first);
            && (current.Ok? ==> |q.payload.requirements| == |q.rows| == |current.value.rows|)
            && (current.Ok? && Settle(l, env, peer, id, q, u, mode, current.value).Ok? <==>
                  CanDecide(l, env, peer, q.payload) && (u.allow ==> CanGive(l, q, u, env.now)))
            && (current.Ok? && Settle(l, env, peer, id, q, u, mode, current.value).Ok? ==>
                  AnswersTo(l, Settle(l, env, peer, id, q, u, mode, current.value).value, id, u, env.now))
  {
    hide Inv, OpenPrompt, CheckConditions, Settle, AnswersTo, Matches;
    hide CanGive, CanDecide, InSession, Unchanged, Current, Period;
    var q := l.requests[id];
    OpenIs(l, env, peer, q, u);
    var mode := Period(q, u);
    assert Asked(q, mode) == Evaluated(q, mode);
    DecidesIff(l, l, env, peer, Asked(q, mode));
    var current := if Choices(q) then CheckConditions(l, env, peer, Asked(q, mode), false) else Ok(first);
    if current.Ok? {
      if Choices(q) { VerdictSays(l, env, peer, Asked(q, mode), false); }
      CurrentIs(l, env, peer, q, mode, current.value);
      SettleIff(l, env, peer, id, q, u, current.value);
      GrantsNamed(l);
      if Settle(l, env, peer, id, q, u, mode, current.value).Ok? {
        SettleAnswers(l, env, peer, id, q, u, current.value);
      }
    }
  }

  lemma InSessionPart(l: Ledger, env: Env, peer: Peer, q: RequestRow)
    ensures Prompts(l, env, peer, q) <==>
              && "ui" in peer.roles && env.profile(q.payload.subject, q.payload.profile).None?
              && q.state == Pending && env.now < q.deadline && InSession(l.sessions, env.now, peer, q.payload)
              && Unchanged(l, env, q)
  {
  }

  lemma GrantsNamed(l: Ledger)
    requires Inv(l)
    ensures forall g :: g in l.grants ==> g < l.next
  {
  }

  /** Which answers are taken, and what they do. */
  lemma RespondAnswers(l: Ledger, env: Env, peer: Peer, ref: RequestRef, u: Screening)
    requires Inv(l)
    ensures var r := Respond(l, env, peer, ref, u);
            && (r.Ok? <==> exists id: Id :: Taken(l, env, peer, ref, u, id))
            && (r.Ok? ==> r.value.request.Some? && Taken(l, env, peer, ref, u, r.value.request.value)
                          && AnswersTo(l, r.value, r.value.request.value, u, env.now))
  {
    hide Inv, Respond, Prompts, Matches, CanDecide, CanGive;
    FindIs(l, peer, ref);
    var found := FindRequest(l, peer, ref, true);
    if found.Ok? {
      RespondToOne(l, env, peer, ref, u, found.value);
      hide AnswersTo, Refers;
      AnsweredRequest(l, env, peer, ref, u, found.value);
    } else {
      NotFound(l, env, peer, ref, u);
    }
  }

  lemma NotFound(l: Ledger, env: Env, peer: Peer, ref: RequestRef, u: Screening)
    requires FindRequest(l, peer, ref, true).Err?
    ensures Respond(l, env, peer, ref, u).Err?
  {
    hide FindRequest, OpenPrompt;
  }

  lemma AnsweredRequest(l: Ledger, env: Env, peer: Peer, ref: RequestRef, u: Screening, id: Id)
    ensures Respond(l, env, peer, ref, u).Ok? && AnswersTo(l, Respond(l, env, peer, ref, u).value, id, u, env.now) ==>
              Respond(l, env, peer, ref, u).value.request == Some(id)
  {
    hide Respond, Consents, Concludes;
  }
}
