/** What asking, looking up a request and displaying its prompt do. */
module Requests {
  import opened Types
  import opened Ledger
  import opened Conditions
  import opened Operations
  import opened Invariants
  import opened Verdicts
  import opened Withdrawals
  import opened Coverage
  import opened Answers

  // ----- displaying -----

  ghost function Plainly(q: RequestRow): Question {
    Question(q.payload, None, q.target, false)
  }

  /** The requirements a prompt puts on display: all of them, or for a versioned request without the offer of
      PERSISTENT those that were not allowed when it was made and are not now. */
  ghost function OnScreen(l: Ledger, q: RequestRow, now: nat): set<nat>
    requires |q.payload.requirements| == |q.rows|
  {
    set i: nat | i < |q.rows| && (q.payload.approval.None? || Offered(l, q)
                                  || (q.rows[i].decision != ALLOWED && !Supplied(l, Plainly(q), now, i)))
  }

  ghost predicate CanShow(l: Ledger, env: Env, peer: Peer, ref: RequestRef, u: Screening, id: Id) {
    && Refers(l, peer, ref, id)
    && var q := l.requests[id];
       && Prompts(l, env, peer, q) && (u.version.None? || u.version == Some(1) || u.version == Some(2))
       && (q.payload.approval.Some? ==>
             CanDecide(l, env, peer, q.payload) && if Choosing(q) then u.periods else u.version == Some(1))
       && Identifier(u.locale) && (HasTyped(l, q) ==> u.template)
  }

  ghost predicate HasTyped(l: Ledger, q: RequestRow) {
    exists i :: 0 <= i < |q.payload.requirements| && q.payload.requirements[i].definition in l.definitions
                && Typed(l.definitions[q.payload.requirements[i].definition])
  }

  /** Nothing is left to display, and the request is concluded. */
  ghost predicate Wraps(l: Ledger, q: RequestRow, row: RequestRow, now: nat)
    requires |q.payload.requirements| == |q.rows| && q.payload.approval.Some?
  {
    && row == q.(state := row.state, token := None, rows := row.rows, shownRows := {},
                 chosen := if Choosing(q) then Some(q.payload.approval.value.mode) else q.chosen)
    && row.state == (if AllSupplied(l, Plainly(q), now) then Allowed else Invalidated)
    && |row.rows| == |q.rows|
    && forall i :: 0 <= i < |q.rows| ==> row.rows[i] == q.rows[i].(decision := Says(l, Plainly(q), now, i).decision)
  }

  /** The prompt gets a token and remembers what it displays, and to whom. */
  ghost predicate Presents(l: Ledger, q: RequestRow, row: RequestRow, peer: Peer, u: Screening, now: nat)
    requires |q.payload.requirements| == |q.rows|
  {
    row == q.(token := Some(l.next), uiOwner := peer.identity, uiInstance := peer.instance,
              locale := if Localized(l, q) then u.locale else q.locale,
              shownPersistent := if Choosing(q) then Some(Offered(l, q)) else q.shownPersistent,
              shownRows := if q.payload.approval.Some? then OnScreen(l, q, now) else q.shownRows)
  }

  ghost predicate Displays(l: Ledger, c: Change, peer: Peer, u: Screening, id: Id, now: nat) {
    && id in l.requests && id in c.db.requests
    && var q, row := l.requests[id], c.db.requests[id];
       && |q.payload.requirements| == |q.rows|
       && c.db == l.(requests := l.requests[id := row], next := c.db.next, revision := l.revision + 1)
       && if q.payload.approval.Some? && OnScreen(l, q, now) == {}
          then c.db.next == l.next && c.reply == Answered(id, row.state, row.rows) && Wraps(l, q, row, now)
          else && c.db.next == l.next + 1 && c.reply == Shown(id, l.next, OnScreen(l, q, now), Offered(l, q))
               && Presents(l, q, row, peer, u, now)
  }

  lemma ShowStages(l: Ledger, env: Env, peer: Peer, ref: RequestRef, u: Screening, id: Id)
    requires FindRequest(l, peer, ref, true) == Ok(id) && id in l.requests
    ensures var q, r := l.requests[id], ShowPrompt(l, env, peer, ref, u);
            var current := OpenPrompt(l, env, peer, q, u, false);
            if "ui" !in peer.roles || current.Err? || |current.value.rows| != |q.rows| || !Identifier(u.locale)
               || (TypedPrompt(l, q) && !u.template)
            then r.Err? else r == Ok(Display(l, peer, id, q, u, current.value))
  {
    hide FindRequest, OpenPrompt, Display, Identifier, TypedPrompt;
  }

  lemma OpenShowIs(l: Ledger, env: Env, peer: Peer, q: RequestRow, u: Screening)
    ensures var r := OpenPrompt(l, env, peer, q, u, false);
            && (r.Ok? <==>
                  && env.profile(q.payload.subject, q.payload.profile).None?
                  && q.state == Pending && env.now < q.deadline && InSession(l.sessions, env.now, peer, q.payload)
                  && (u.version.None? || u.version == Some(1) || u.version == Some(2)) && Unchanged(l, env, q)
                  && (q.payload.approval.Some? ==>
                        CanDecide(l, env, peer, q.payload) && if Choosing(q) then u.periods else u.version == Some(1)))
            && (r.Ok? ==> |r.value.rows| == |q.rows| == |q.payload.requirements|)
            && (r.Ok? && q.payload.approval.Some? ==> CheckConditions(l, env, peer, Plainly(q), false) == r)
  {
    hide ActiveSession, InSession, CheckConditions, Displayable, CanDecide, Unchanged;
    SessionIs(l.sessions, env.now, peer, q.payload);
    DecidesIff(l, l, env, peer, Plainly(q));
    UnchangedIs(l, env, q);
    if CheckConditions(l, env, peer, Plainly(q), false).Ok? { VerdictSays(l, env, peer, Plainly(q), false); }
  }

  lemma {:induction false} AllRowsAre(n: nat)
    ensures forall i: nat :: i in AllRows(n) <==> i < n
  {
    if n != 0 { AllRowsAre(n - 1); }
  }

  lemma ScreenIs(l: Ledger, env: Env, peer: Peer, q: RequestRow, current: Verdict)
    requires |q.payload.requirements| == |q.rows| == |current.rows|
    requires q.payload.approval.Some? ==> CheckConditions(l, env, peer, Plainly(q), false) == Ok(current)
    ensures Displayed(l, q, current) == OnScreen(l, q, env.now)
  {
    hide CheckConditions, Supplied, Says, Offered, PersistentOffer;
    AllRowsAre(|q.rows|);
    OfferIs(l, q);
    if q.payload.approval.Some? {
      VerdictSays(l, env, peer, Plainly(q), false);
      forall i | 0 <= i < |q.rows| ensures current.rows[i].decision.ALLOWED? <==> Supplied(l, Plainly(q), env.now, i) {
        SaysIs(l, Plainly(q), env.now, i);
        SuppliedIsDefined(l, Plainly(q), env.now, i);
      }
    }
  }

  lemma FinalIs(l: Ledger, env: Env, peer: Peer, q: RequestRow, current: Verdict)
    requires |q.payload.requirements| == |q.rows| == |current.rows| && q.payload.approval.Some?
    requires CheckConditions(l, env, peer, Plainly(q), false) == Ok(current)
    ensures Wraps(l, q, FinalRow(q, current), env.now)
  {
    hide CheckConditions, AllSupplied, Says;
    VerdictSays(l, env, peer, Plainly(q), false);
    VerdictIs(l, env, peer, Plainly(q));
  }

  lemma DisplayDisplays(l: Ledger, env: Env, peer: Peer, q: RequestRow, u: Screening, id: Id, current: Verdict)
    requires id in l.requests && l.requests[id] == q && |q.payload.requirements| == |q.rows| == |current.rows|
    requires q.payload.approval.Some? ==> CheckConditions(l, env, peer, Plainly(q), false) == Ok(current)
    ensures Displays(l, Display(l, peer, id, q, u, current), peer, u, id, env.now)
  {
    hide CheckConditions, Offered, PersistentOffer, FinalRow, ShownRow, Displayed, OnScreen, Wraps, Presents;
    hide Quiet, SameTable, Localized, TypedPrompt, Display;
    OfferIs(l, q);
    ScreenIs(l, env, peer, q, current);
    DisplayIs(l, peer, q, u, id, current);
    PresentsIs(l, peer, q, u, current, env.now);
    if q.payload.approval.Some? { FinalIs(l, env, peer, q, current); }
  }

  lemma DisplayIs(l: Ledger, peer: Peer, q: RequestRow, u: Screening, id: Id, current: Verdict)
    requires |q.rows| == |current.rows|
    ensures var c := Display(l, peer, id, q, u, current);
            var displayed := Displayed(l, q, current);
            var wraps := q.payload.approval.Some? && displayed == {};
            var row := if wraps then FinalRow(q, current) else ShownRow(l, peer, q, u, displayed);
            && c.db == l.(requests := l.requests[id := row], next := if wraps then l.next else l.next + 1,
                          revision := l.revision + 1)
            && c.reply == if wraps then Answered(id, row.state, row.rows)
                          else Shown(id, l.next, displayed, PersistentOffer(l, q))
  {
    hide PersistentOffer, FinalRow, ShownRow, Displayed, Quiet, SameTable;
  }

  lemma PresentsIs(l: Ledger, peer: Peer, q: RequestRow, u: Screening, current: Verdict, now: nat)
    requires |q.payload.requirements| == |q.rows| == |current.rows| && Displayed(l, q, current) == OnScreen(l, q, now)
    ensures Presents(l, q, ShownRow(l, peer, q, u, Displayed(l, q, current)), peer, u, now)
  {
    hide Offered, PersistentOffer, Localized, TypedPrompt, Displayed, OnScreen;
    OfferIs(l, q);
  }

  lemma OfferIs(l: Ledger, q: RequestRow)
    ensures Offered(l, q) <==> PersistentOffer(l, q)
    ensures Localized(l, q) <==> TypedPrompt(l, q) || q.payload.approval.Some?
    ensures HasTyped(l, q) <==> TypedPrompt(l, q)
  {
  }

  lemma ShowOne(l: Ledger, env: Env, peer: Peer, ref: RequestRef, u: Screening, id: Id)
    requires Refers(l, peer, ref, id) && id in l.requests
    ensures var r := ShowPrompt(l, env, peer, ref, u);
            (r.Ok? <==> CanShow(l, env, peer, ref, u, id)) && (r.Ok? ==> Displays(l, r.value, peer, u, id, env.now))
  {
    hide Refers, FindRequest, ShowPrompt, OpenPrompt, Display, Displays, Identifier, CheckConditions, Unchanged;
    hide InSession;
    hide CanDecide, Offered, PersistentOffer, TypedPrompt, HasTyped, Localized;
    FindIs(l, peer, ref);
    ShowStages(l, env, peer, ref, u, id);
    var q := l.requests[id];
    OpenShowIs(l, env, peer, q, u);
    OfferIs(l, q);
    InSessionPart(l, env, peer, q);
    var current := OpenPrompt(l, env, peer, q, u, false);
    if current.Ok? { DisplayDisplays(l, env, peer, q, u, id, current.value); }
  }

  /** Which prompts are displayed, and how. */
  lemma ShowDisplays(l: Ledger, env: Env, peer: Peer, ref: RequestRef, u: Screening)
    ensures var r := ShowPrompt(l, env, peer, ref, u);
            && (r.Ok? <==> exists id: Id :: CanShow(l, env, peer, ref, u, id))
            && (r.Ok? ==>
                  exists id: Id :: CanShow(l, env, peer, ref, u, id) && Displays(l, r.value, peer, u, id, env.now))
  {
    hide ShowPrompt, Prompts, CanDecide, Displays, HasTyped, Identifier;
    FindIs(l, peer, ref);
    var found := FindRequest(l, peer, ref, true);
    if found.Ok? { ShowOne(l, env, peer, ref, u, found.value); } else { NoPrompt(l, env, peer, ref, u); }
  }

  lemma NoPrompt(l: Ledger, env: Env, peer: Peer, ref: RequestRef, u: Screening)
    requires FindRequest(l, peer, ref, true).Err?
    ensures ShowPrompt(l, env, peer, ref, u).Err?
  {
    hide FindRequest, OpenPrompt, Display;
  }

  // ----- asking -----

  /** An approval context that makes sense: not PERSISTENT itself, a duration exactly for TIMED, a session
      for SESSION, and no more than 16 requirements. */
  ghost predicate Sensible(p: Payload) {
    p.approval.Some? ==>
      var a := p.approval.value;
      && a.mode != PERSISTENT && (if a.mode == TIMED then 100 <= a.duration <= 3600000 else a.duration == 0)
      && (a.mode == SESSION ==> p.session.Some? && p.generation >= 1) && 1 <= |p.requirements| <= 16
  }

  /** The arguments of a requirement fit its definition, if it has an active one. */
  ghost predicate Fits(l: Ledger, env: Env, r: Requirement) {
    if Defined(l, r)
    then
      var c := l.definitions[r.definition];
      (Typed(c) ==> r.policyVersion == c.policyVersion) && env.arguments(Some(c), r)
    else env.arguments(None, r)
  }

  ghost predicate MayAsk(l: Ledger, env: Env, peer: Peer, p: Payload, purpose: Purpose) {
    && Sensible(p)
    && (if purpose.Create? then "argo" in peer.roles
        else "checker" in peer.roles || "cm" in peer.roles || "ce" in peer.roles || "holder" in peer.roles)
    && InSession(l.sessions, env.now, peer, p) && env.profile(p.subject, p.profile).None?
    && (forall i :: 0 <= i < |p.requirements| ==> Fits(l, env, p.requirements[i]))
    && (purpose.Create? ==> Identifier(p.client) && Identifier(p.operation))
    && (purpose.Authorize? ==> Identifier(p.operation) && Identifier(p.step))
  }

  lemma {:induction false} ScreenFits(l: Ledger, env: Env, p: Payload, n: nat)
    requires n <= |p.requirements|
    ensures Screen(l, env, p, n).Ok? <==> forall i :: 0 <= i < n ==> Fits(l, env, p.requirements[i])
  {
    if n != 0 { ScreenFits(l, env, p, n - 1); }
  }

  lemma PreflightIs(l: Ledger, env: Env, peer: Peer, p: Payload, purpose: Purpose)
    ensures Preflight(l, env, peer, p, purpose).Ok? <==> MayAsk(l, env, peer, p, purpose)
  {
    hide Context, Permits, ActiveSession, Identifier, Screen, Fits;
    ContextPermits(peer, p.subject, p.profile);
    SessionIs(l.sessions, env.now, peer, p);
    SessionPermits(l.sessions, env.now, peer, p);
    ScreenFits(l, env, p, |p.requirements|);
    hide InSession;
  }

  lemma SessionPermits(sessions: map<Id, SessionRow>, now: nat, peer: Peer, p: Payload)
    ensures InSession(sessions, now, peer, p) ==> Permits(peer, p.subject, p.profile)
  {
  }

  /** When a TIMED approval asked for now is to end. */
  ghost function TargetOf(p: Payload, now: nat): Option<nat> {
    if p.approval.Some? && !p.approval.value.task && p.approval.value.mode == TIMED
    then Some(now + p.approval.value.duration) else None
  }

  /** A mere check decides, and changes nothing. */
  lemma QueryDecides(l: Ledger, env: Env, peer: Peer, p: Payload)
    ensures var r := Evaluate(l, env, peer, p, Query);
            var v := CheckConditions(l, env, peer, Question(p, None, TargetOf(p, env.now), true), false);
            && (r.Ok? <==> MayAsk(l, env, peer, p, Query) && v.Ok?)
            && (r.Ok? ==> r.value.db == l && r.value.reply == Decided(v.value, None, None))
  {
    hide Preflight, MayAsk, CheckConditions;
    PreflightIs(l, env, peer, p, Query);
  }

  ghost predicate Pending256(l: Ledger) {
    |set q | q in l.requests && l.requests[q].state == Pending| < 256
  }

  /** The row of a new request. */
  ghost predicate Records(l: Ledger, row: RequestRow, peer: Peer, p: Payload, now: nat) {
    var q := Question(p, None, TargetOf(p, now), false);
    && |row.rows| == |p.requirements| && (forall i :: 0 <= i < |row.rows| ==> row.rows[i] == Says(l, q, now, i))
    && |row.payload.requirements| == |p.requirements|
    && (forall i :: 0 <= i < |row.rows| ==>
          row.payload.requirements[i] ==
            if row.rows[i].decision == DENIED then p.requirements[i]
            else p.requirements[i].(policyVersion := row.rows[i].policyVersion))
    && row == RequestRow(peer.identity, p, p.(requirements := row.payload.requirements), row.rows, q.target,
                         if p.approval.Some? && p.approval.value.choices && AllSupplied(l, q, now)
                         then Some(p.approval.value.mode) else None,
                         {}, None, "", row.state, now + p.lifetime, None, "", "")
    && row.state == (if exists i :: 0 <= i < |row.rows| && row.rows[i].decision == DENIED then Refused
                     else if AllSupplied(l, q, now) then Allowed else Pending)
  }

  ghost predicate Permitted(l: Ledger, p: Payload, now: nat) {
    p.approval.Some? ==>
      forall i :: 0 <= i < |p.requirements|
                  && Says(l, Question(p, None, TargetOf(p, now), false), now, i).decision == CONSENT_REQUIRED ==>
        && p.requirements[i].definition in l.definitions
        && p.approval.value.mode in l.definitions[p.requirements[i].definition].modes
  }

  ghost predicate CanRecord(l: Ledger, env: Env, peer: Peer, p: Payload) {
    && CanDecide(l, env, peer, p) && Permitted(l, p, env.now) && 100 <= p.lifetime <= 300000
    && (Pending256(l)
        || AllSupplied(l, Question(p, None, TargetOf(p, env.now), false), env.now)
        || exists i :: 0 <= i < |p.requirements| && !Defined(l, p.requirements[i]))
  }

  ghost predicate Needs(l: Ledger, p: Payload, v: Verdict)
    requires |v.rows| == |p.requirements|
  {
    && (p.approval.Some? ==> ModesPermit(l, p, v.rows, p.approval.value.mode))
    && (v.decision.CONSENT_REQUIRED? ==> |PendingRequests(l)| < 256) && 100 <= p.lifetime <= 300000
  }

  lemma AdmitStages(l: Ledger, env: Env, peer: Peer, p: Payload)
    ensures var r := Admit(l, env, peer, p);
            var v := CheckConditions(l, env, peer, Question(p, None, TargetOf(p, env.now), false), false);
            if v.Err? || |v.value.rows| != |p.requirements| || !Needs(l, p, v.value) then r.Err?
            else
              && r.Ok? && r.value.reply == Decided(v.value, None, Some(l.next))
              && r.value.db == Admitted(l, peer, ClientKey(peer.identity, p.subject, p.profile, p.client), p, v.value,
                                        TargetOf(p, env.now), env.now)
  {
    hide CheckConditions, ModesPermit, PendingRequests, Admitted;
    assert Target(p, env.now) == TargetOf(p, env.now);
  }

  lemma NeedsIs(l: Ledger, env: Env, peer: Peer, p: Payload, v: Verdict)
    requires CheckConditions(l, env, peer, Question(p, None, TargetOf(p, env.now), false), false) == Ok(v)
    requires |v.rows| == |p.requirements| && CanDecide(l, env, peer, p)
    ensures Needs(l, p, v) <==> CanRecord(l, env, peer, p)
  {
    hide CheckConditions, Says, Supplied, CanDecide, PendingRequests, Pending256;
    var q := Question(p, None, TargetOf(p, env.now), false);
    PendingIs(l);
    VerdictSays(l, env, peer, q, false);
    VerdictIs(l, env, peer, q);
    hide AllSupplied;
    DeniedIs(l, q, env.now, v.rows);
  }

  lemma DeniedIs(l: Ledger, q: Question, now: nat, rows: seq<Row>)
    requires |rows| == |q.payload.requirements| && forall i :: 0 <= i < |rows| ==> rows[i] == Says(l, q, now, i)
    ensures (exists i :: 0 <= i < |rows| && rows[i].decision.DENIED?) <==>
              exists i :: 0 <= i < |rows| && !Defined(l, q.payload.requirements[i])
  {
    hide Says, Defined;
    forall i | 0 <= i < |rows| ensures rows[i].decision.DENIED? <==> !Defined(l, q.payload.requirements[i]) {
      SaysIs(l, q, now, i);
    }
    if i :| 0 <= i < |rows| && !Defined(l, q.payload.requirements[i]) { assert rows[i].decision.DENIED?; }
  }

  lemma AdmittedRecords(l: Ledger, env: Env, peer: Peer, p: Payload, v: Verdict)
    requires CheckConditions(l, env, peer, Question(p, None, TargetOf(p, env.now), false), false) == Ok(v)
    requires |v.rows| == |p.requirements|
    ensures var key := ClientKey(peer.identity, p.subject, p.profile, p.client);
            var m := Admitted(l, peer, key, p, v, TargetOf(p, env.now), env.now);
            && l.next in m.requests && Records(l, m.requests[l.next], peer, p, env.now)
            && m.requests[l.next].rows == v.rows
            && m == l.(requests := l.requests[l.next := m.requests[l.next]], next := l.next + 1,
                       revision := l.revision + 1,
                       clients := l.clients[key := l.next])
  {
    hide CheckConditions, Says, Supplied;
    var q := Question(p, None, TargetOf(p, env.now), false);
    VerdictSays(l, env, peer, q, false);
    VerdictIs(l, env, peer, q);
    hide AllSupplied;
  }

  /** A new request is recorded as it is decided, under a new name. */
  lemma AdmitRecords(l: Ledger, env: Env, peer: Peer, p: Payload)
    requires InSession(l.sessions, env.now, peer, p)
    ensures var r := Admit(l, env, peer, p);
            && (r.Ok? <==> CanRecord(l, env, peer, p))
            && (r.Ok? ==>
                  && l.next in r.value.db.requests
                  && var row := r.value.db.requests[l.next];
                     && Records(l, row, peer, p, env.now)
                     && r.value.db == l.(requests := l.requests[l.next := row], next := l.next + 1,
                                         revision := l.revision + 1,
                                         clients := l.clients[
                                           ClientKey(peer.identity, p.subject, p.profile, p.client) := l.next])
                     && r.value.reply.Decided? && r.value.reply.verdict.rows == row.rows
                     && r.value.reply.receipt.None? && r.value.reply.admitted == Some(l.next))
  {
    hide CheckConditions, InSession, CanDecide, Admit, Admitted, Needs, Records, Permitted, AllSupplied, Pending256;
    hide Defined;
    var q := Question(p, None, TargetOf(p, env.now), false);
    DecidesIff(l, l, env, peer, q);
    AdmitStages(l, env, peer, p);
    var d := CheckConditions(l, env, peer, q, false);
    if d.Ok? {
      VerdictSays(l, env, peer, q, false);
      NeedsIs(l, env, peer, p, d.value);
      AdmittedRecords(l, env, peer, p, d.value);
    }
  }

  lemma PendingIs(l: Ledger)
    ensures |PendingRequests(l)| < 256 <==> Pending256(l)
  {
    assert PendingRequests(l) == (set q | q in l.requests && l.requests[q].state == Pending);
  }

  // ----- asking again, and looking up -----

  /** An approval with a chosen period, which is checked again whenever it is looked up. */
  ghost predicate Rechecked(q: RequestRow) {
    q.state == Allowed && Choosing(q)
  }

  ghost predicate CanRecheck(l: Ledger, env: Env, peer: Peer, q: RequestRow) {
    Rechecked(q) ==>
      && env.profile(q.payload.subject, q.payload.profile).None?
      && (q.chosen == Some(PERSISTENT) || q.chosen == Some(q.payload.approval.value.mode))
      && InSession(l.sessions, env.now, peer, q.payload) && CanDecide(l, env, peer, q.payload)
  }

  ghost predicate StillCovered(l: Ledger, q: RequestRow, now: nat) {
    Rechecked(q) ==> AllSupplied(l, Question(q.payload, q.chosen, q.target, false), now)
  }

  lemma StoredIs(l: Ledger, env: Env, peer: Peer, q: RequestRow)
    ensures var r := StoredApproval(l, env, peer, q);
            (r.Ok? <==> CanRecheck(l, env, peer, q)) && (r.Ok? ==> (r.value <==> StillCovered(l, q, env.now)))
  {
    hide ActiveSession, InSession, CheckConditions, CanDecide, AllSupplied;
    SessionIs(l.sessions, env.now, peer, q.payload);
    var question := Question(q.payload, q.chosen, q.target, false);
    DecidesIff(l, l, env, peer, question);
    if CheckConditions(l, env, peer, question, false).Ok? { VerdictIs(l, env, peer, question); }
  }

  /** A request made again is found again if it is the same; if its approval is no longer covered it is
      void. Nothing else changes. */
  lemma RecallFinds(l: Ledger, env: Env, peer: Peer, id: Id, p: Payload)
    ensures var r := Recall(l, env, peer, id, p);
            && (r.Ok? <==> && id in l.requests && l.requests[id].fingerprint == p
                           && (p.approval.Some? ==> CanRecheck(l, env, peer, l.requests[id])))
            && (r.Ok? ==>
                  var q := l.requests[id];
                  if p.approval.Some? && !StillCovered(l, q, env.now)
                  then && r.value.db == l.(requests := l.requests[id := q.(state := Invalidated, token := None)],
                                           revision := l.revision + 1)
                       && r.value.reply == Known(id, Invalidated, q.chosen, q.shownPersistent)
                  else r.value.db == l && r.value.reply == Known(id, q.state, q.chosen, q.shownPersistent))
  {
    hide StoredApproval, CanRecheck, StillCovered;
    if id in l.requests { StoredIs(l, env, peer, l.requests[id]); }
  }

  /** `request`: the one made under the client's name before, or a new one. */
  lemma CreateAsks(l: Ledger, env: Env, peer: Peer, p: Payload)
    ensures var r := Evaluate(l, env, peer, p, Create);
            var key := ClientKey(peer.identity, p.subject, p.profile, p.client);
            if !MayAsk(l, env, peer, p, Create) then r.Err?
            else if key in l.clients then r == Recall(l, env, peer, l.clients[key], p)
            else r == Admit(l, env, peer, p)
  {
    hide Preflight, MayAsk, Recall, Admit;
    PreflightIs(l, env, peer, p, Create);
  }

  /** The owner's own request. */
  ghost predicate OwnRequest(l: Ledger, peer: Peer, ref: RequestRef, id: Id) {
    Refers(l, peer, ref, id) && l.requests[id].owner == peer.identity
  }

  lemma FindOwn(l: Ledger, peer: Peer, ref: RequestRef)
    ensures var r := FindRequest(l, peer, ref, false);
            && (r.Ok? ==> OwnRequest(l, peer, ref, r.value))
            && forall id: Id :: OwnRequest(l, peer, ref, id) ==> r == Ok(id)
  {
    hide Context, Permits;
    if ref.ByClient? { ContextPermits(peer, ref.subject, ref.profile); }
    forall id | id in l.requests
      ensures Context(peer, l.requests[id].payload.subject, l.requests[id].payload.profile).Ok? <==>
                Permits(peer, l.requests[id].payload.subject, l.requests[id].payload.profile)
    {
      ContextPermits(peer, l.requests[id].payload.subject, l.requests[id].payload.profile);
    }
  }

  ghost predicate CanRead(l: Ledger, env: Env, peer: Peer, q: RequestRow) {
    && "argo" in peer.roles
    && (q.state == Allowed ==> env.profile(q.payload.subject, q.payload.profile).None? && CanRecheck(l, env, peer, q))
  }

  /** Reading reports the state of the owner's request; cancelling ends one that is pending, and an approval
      no longer covered is void. */
  ghost predicate Reads(l: Ledger, c: Change, id: Id, cancel: bool, now: nat) {
    && id in l.requests
    && var q := l.requests[id];
       var state := if cancel && q.state == Pending then Cancelled
                    else if q.state == Allowed && !StillCovered(l, q, now) then Invalidated else q.state;
       && c.db == (if state == q.state then l
                   else l.(requests := l.requests[id := q.(state := state, token := None)], revision := l.revision + 1))
       && c.reply == Outcome(id, state, q.payload, q.rows, q.chosen, q.deadline)
  }

  lemma ReadOne(l: Ledger, env: Env, peer: Peer, ref: RequestRef, cancel: bool, id: Id)
    requires OwnRequest(l, peer, ref, id) && id in l.requests
    ensures var r := ReadResult(l, env, peer, ref, cancel);
            (r.Ok? <==> CanRead(l, env, peer, l.requests[id])) && (r.Ok? ==> Reads(l, r.value, id, cancel, env.now))
  {
    hide FindRequest, OwnRequest, CanRead, ReadResult, Reads;
    FoundOwn(l, peer, ref, id);
    if l.requests[id].state == Allowed {
      ReadAllowed(l, env, peer, ref, cancel, id);
    } else {
      ReadOther(l, env, peer, ref, cancel, id);
    }
  }

  lemma ReadAllowed(l: Ledger, env: Env, peer: Peer, ref: RequestRef, cancel: bool, id: Id)
    requires FindRequest(l, peer, ref, false) == Ok(id) && id in l.requests && l.requests[id].state == Allowed
    ensures var r := ReadResult(l, env, peer, ref, cancel);
            (r.Ok? <==> CanRead(l, env, peer, l.requests[id])) && (r.Ok? ==> Reads(l, r.value, id, cancel, env.now))
  {
    hide FindRequest, StoredApproval, CanRecheck, StillCovered;
    StoredIs(l, env, peer, l.requests[id]);
  }

  lemma ReadOther(l: Ledger, env: Env, peer: Peer, ref: RequestRef, cancel: bool, id: Id)
    requires FindRequest(l, peer, ref, false) == Ok(id) && id in l.requests && l.requests[id].state != Allowed
    ensures var r := ReadResult(l, env, peer, ref, cancel);
            (r.Ok? <==> CanRead(l, env, peer, l.requests[id])) && (r.Ok? ==> Reads(l, r.value, id, cancel, env.now))
  {
    hide FindRequest, StoredApproval, CanRecheck, StillCovered;
  }

  lemma FoundOwn(l: Ledger, peer: Peer, ref: RequestRef, id: Id)
    requires OwnRequest(l, peer, ref, id)
    ensures FindRequest(l, peer, ref, false) == Ok(id)
  {
    hide FindRequest, OwnRequest;
    FindOwn(l, peer, ref);
  }

  lemma ReadReads(l: Ledger, env: Env, peer: Peer, ref: RequestRef, cancel: bool)
    ensures var r := ReadResult(l, env, peer, ref, cancel);
            && (r.Ok? <==> exists id: Id :: OwnRequest(l, peer, ref, id) && CanRead(l, env, peer, l.requests[id]))
            && (r.Ok? ==> exists id: Id :: OwnRequest(l, peer, ref, id) && Reads(l, r.value, id, cancel, env.now))
  {
    hide ReadResult, CanRead, Reads;
    FindOwn(l, peer, ref);
    var found := FindRequest(l, peer, ref, false);
    if found.Ok? { ReadOne(l, env, peer, ref, cancel, found.value); } else { NoRequest(l, env, peer, ref, cancel); }
  }

  lemma NoRequest(l: Ledger, env: Env, peer: Peer, ref: RequestRef, cancel: bool)
    requires FindRequest(l, peer, ref, false).Err?
    ensures ReadResult(l, env, peer, ref, cancel).Err?
  {
    hide FindRequest, StoredApproval;
  }
}
