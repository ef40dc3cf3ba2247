/** What no step of the repository undoes: rows move forward only. */
module Progress {
  import opened Types
  import opened Ledger
  import opened Conditions
  import opened Operations
  import opened Daemon
  import opened Invariants
  import opened Preservation
  import opened Verdicts
  import opened Transactions
  import opened Runs
  import R = Registry

  /** A session keeps its context; whatever changes its state raises its generation, except the
      final step from closing to closed, and a closed session stays closed. */
  ghost predicate SessionOn(a: SessionRow, b: SessionRow) {
    && a.subject == b.subject && a.profile == b.profile && a.owner == b.owner && a.instance == b.instance
    && a.generation <= b.generation
    && (a.generation == b.generation ==> a.state == b.state || (a.state.Closing? && b.state.Closed?))
    && (!Live(a) ==> !Live(b) && a.generation == b.generation)
    && (a.state.Closed? ==> b.state.Closed?)
  }

  /** An artifact is never extended, re-sourced or made resident again, and a deletion is final. */
  ghost predicate ArtifactOn(a: Artifact, b: Artifact) {
    && b == a.(state := b.state)
    && (b.state.Active? ==> a.state.Active?)
    && (a.state.Deleted? ==> b.state.Deleted?)
  }

  /** A receipt keeps its execution, payload fingerprint and creation time, and is never
      validated again; its sources are kept or cleared. */
  ghost predicate ReceiptOn(a: Receipt, b: Receipt) {
    && a.execution == b.execution && a.fingerprint == b.fingerprint && a.created == b.created
    && (b.valid ==> a.valid && a == b)
    && b.sources <= a.sources
  }

  /** A grant keeps its tuple and terms; it is never restored, and uses only go down. */
  ghost predicate GrantOn(a: Grant, b: Grant) {
    && b == a.(revoked := b.revoked, remaining := b.remaining)
    && (a.revoked ==> b.revoked)
    && b.remaining <= a.remaining
  }

  ghost predicate SessionsForward(a: map<Id, SessionRow>, b: map<Id, SessionRow>) {
    forall s :: s in a ==> s in b && SessionOn(a[s], b[s])
  }

  ghost predicate ArtifactsForward(a: map<Id, Artifact>, b: map<Id, Artifact>) {
    forall x :: x in a ==> x in b && ArtifactOn(a[x], b[x])
  }

  ghost predicate ReceiptsForward(a: map<Id, Receipt>, b: map<Id, Receipt>) {
    forall r :: r in a ==> r in b && ReceiptOn(a[r], b[r])
  }

  /** Names below `bound` are never given to another grant. */
  ghost predicate GrantsForward(a: map<Id, Grant>, b: map<Id, Grant>, bound: Id) {
    forall g :: g in b && g < bound ==> g in a && GrantOn(a[g], b[g])
  }

  ghost predicate Forward(l: Ledger, m: Ledger) {
    && l.next <= m.next && l.revision <= m.revision
    && SessionsForward(l.sessions, m.sessions)
    && ArtifactsForward(l.artifacts, m.artifacts)
    && ReceiptsForward(l.receipts, m.receipts)
    && (forall e :: e in l.executions ==> e in m.executions && m.executions[e] == l.executions[e])
    && GrantsForward(l.grants, m.grants, l.next)
  }

  lemma ForwardSame(l: Ledger)
    ensures Forward(l, l)
  {
  }

  lemma ForwardTransitive(l: Ledger, m: Ledger, n: Ledger)
    requires Forward(l, m) && Forward(m, n)
    ensures Forward(l, n)
  {
    SessionsTransitive(l.sessions, m.sessions, n.sessions);
    ArtifactsTransitive(l.artifacts, m.artifacts, n.artifacts);
    ReceiptsTransitive(l.receipts, m.receipts, n.receipts);
    GrantsTransitive(l.grants, m.grants, n.grants, l.next, m.next);
  }

  /** No receipt or artifact is added, no grant is added, and no use is consumed. */
  ghost predicate Calm(l: Ledger, m: Ledger) {
    && m.artifacts.Keys == l.artifacts.Keys && m.receipts.Keys == l.receipts.Keys
    && forall g :: g in m.grants ==> g in l.grants && m.grants[g].remaining == l.grants[g].remaining
  }

  ghost predicate Onward(l: Ledger, m: Ledger) {
    Forward(l, m) && Calm(l, m)
  }

  lemma OnwardSame(l: Ledger)
    ensures Onward(l, l)
  {
    ForwardSame(l);
  }

  lemma OnwardTransitive(l: Ledger, m: Ledger, n: Ledger)
    requires Onward(l, m) && Onward(m, n)
    ensures Onward(l, n)
  {
    hide Forward;
    ForwardTransitive(l, m, n);
  }

  /** The uses a receipt takes from a grant. */
  function Taken(g: Grant, r: Receipt, id: Id): nat {
    if g.mode.ONCE? && id in r.sources then 1 else 0
  }

  /** One receipt is added, and takes one use from each of its ONCE sources. */
  ghost predicate Executes(l: Ledger, m: Ledger) {
    && m.artifacts == l.artifacts
    && l.next !in l.receipts && m.receipts.Keys == l.receipts.Keys + {l.next}
    && m.grants.Keys == l.grants.Keys
    && forall g :: g in m.grants ==>
         m.grants[g].remaining == l.grants[g].remaining - Taken(l.grants[g], m.receipts[l.next], g)
  }

  /** Grants are added, unused. */
  ghost predicate Issues(l: Ledger, m: Ledger) {
    && m.artifacts == l.artifacts && m.receipts == l.receipts
    && forall g :: g in m.grants ==>
         if g in l.grants then m.grants[g] == l.grants[g]
         else g >= l.next && (m.grants[g].mode.ONCE? ==> m.grants[g].remaining == 1)
  }

  /** A resident artifact is added. */
  ghost predicate Holds(l: Ledger, m: Ledger) {
    && m.receipts == l.receipts && m.grants == l.grants
    && m.artifacts.Keys == l.artifacts.Keys + {l.next} && m.artifacts[l.next].state.Active?
  }

  /** What a transaction may add. */
  ghost predicate Grows(l: Ledger, m: Ledger) {
    Forward(l, m) && (Calm(l, m) || Executes(l, m) || Issues(l, m) || Holds(l, m))
  }

  lemma SessionsTransitive(a: map<Id, SessionRow>, b: map<Id, SessionRow>, c: map<Id, SessionRow>)
    requires SessionsForward(a, b) && SessionsForward(b, c)
    ensures SessionsForward(a, c)
  {
    forall s | s in a ensures s in c && SessionOn(a[s], c[s]) {
      assert SessionOn(a[s], b[s]) && SessionOn(b[s], c[s]);
    }
  }

  lemma ArtifactsTransitive(a: map<Id, Artifact>, b: map<Id, Artifact>, c: map<Id, Artifact>)
    requires ArtifactsForward(a, b) && ArtifactsForward(b, c)
    ensures ArtifactsForward(a, c)
  {
    forall s | s in a ensures s in c && ArtifactOn(a[s], c[s]) {
      assert ArtifactOn(a[s], b[s]) && ArtifactOn(b[s], c[s]);
    }
  }

  lemma ReceiptsTransitive(a: map<Id, Receipt>, b: map<Id, Receipt>, c: map<Id, Receipt>)
    requires ReceiptsForward(a, b) && ReceiptsForward(b, c)
    ensures ReceiptsForward(a, c)
  {
    forall s | s in a ensures s in c && ReceiptOn(a[s], c[s]) {
      assert ReceiptOn(a[s], b[s]) && ReceiptOn(b[s], c[s]);
    }
  }

  lemma GrantsTransitive(a: map<Id, Grant>, b: map<Id, Grant>, c: map<Id, Grant>, m: Id, n: Id)
    requires m <= n && GrantsForward(a, b, m) && GrantsForward(b, c, n)
    ensures GrantsForward(a, c, m)
  {
    forall g | g in c && g < m ensures g in a && GrantOn(a[g], c[g]) {
      assert GrantOn(a[g], b[g]) && GrantOn(b[g], c[g]);
    }
  }

  // ----- the statements -----

  lemma RevokeOn(a: map<Id, Grant>, ids: set<Id>, bound: Id)
    ensures GrantsForward(a, RevokeSet(a, ids), bound)
    ensures forall g :: g in RevokeSet(a, ids) ==> g in a && RevokeSet(a, ids)[g].remaining == a[g].remaining
  {
  }

  lemma InvalidateOn(a: map<Id, Receipt>, ids: set<Id>)
    ensures ReceiptsForward(a, InvalidateSet(a, ids)) && InvalidateSet(a, ids).Keys == a.Keys
  {
  }

  lemma BlockOn(a: map<Id, Artifact>, ids: set<Id>)
    ensures ArtifactsForward(a, BlockSet(a, ids)) && BlockSet(a, ids).Keys == a.Keys
  {
  }

  lemma CloseOn(a: map<Id, SessionRow>, ids: set<Id>)
    ensures SessionsForward(a, CloseSet(a, ids))
  {
  }

  lemma CloseSessionOn(l: Ledger, s: Id)
    ensures Onward(l, CloseSession(l, s))
  {
    hide RevokeSet, BlockSet, CloseSet, FinalizeSet, GrantsForward, ArtifactsForward, SessionsForward;
    hide SessionGrants, ArtifactsIn, PendingIn, ReceiptOn;
    RevokeOn(l.grants, SessionGrants(l, s), l.next);
    BlockOn(l.artifacts, ArtifactsIn(l, s));
    CloseOn(l.sessions, {s});
    OnwardSame(l);
  }

  lemma SuspendSessionOn(l: Ledger, s: Id, now: nat)
    ensures Onward(l, SuspendSession(l, s, now))
  {
    hide FinalizeSet, PendingIn, ReceiptOn, ArtifactOn, GrantOn;
    OnwardSame(l);
  }

  lemma FinishOn(l: Ledger)
    ensures Onward(l, FinishCleanup(l))
  {
    hide UndeletedIn, ReceiptOn, ArtifactOn, GrantOn;
    OnwardSame(l);
  }

  lemma {:induction false} CloseAllOn(l: Ledger, ids: set<Id>, n: nat)
    ensures Onward(l, CloseAll(l, ids, n))
  {
    hide Onward, CloseSession;
    if n == 0 {
      OnwardSame(l);
    } else {
      CloseAllOn(l, ids, n - 1);
      var m := CloseAll(l, ids, n - 1);
      CloseSessionOn(m, n - 1);
      if n - 1 in ids { OnwardTransitive(l, m, CloseSession(m, n - 1)); }
    }
  }

  lemma {:induction false} SuspendAllOn(l: Ledger, ids: set<Id>, now: nat, n: nat)
    ensures Onward(l, SuspendAll(l, ids, now, n))
  {
    hide Onward, SuspendSession;
    if n == 0 {
      OnwardSame(l);
    } else {
      SuspendAllOn(l, ids, now, n - 1);
      var m := SuspendAll(l, ids, now, n - 1);
      SuspendSessionOn(m, n - 1, now);
      if n - 1 in ids { OnwardTransitive(l, m, SuspendSession(m, n - 1, now)); }
    }
  }

  lemma BumpOn(l: Ledger)
    ensures Onward(l, Bump(l))
  {
  }

  lemma RequestsOn(l: Ledger, requests: map<Id, RequestRow>, clients: map<ClientKey, Id>, next: Id)
    requires l.next <= next
    ensures Onward(l, l.(requests := requests, clients := clients, next := next))
  {
  }

  lemma ExpireOn(l: Ledger, now: nat)
    ensures Onward(l, Expire(l, now))
  {
    hide Onward, CloseAll, SuspendAll, FinishCleanup, FinalizeSet, BlockSet, CloseDue, SuspendDue, ExpiredRequests;
    hide ExpiredArtifacts, Bump;
    var l1 := l.(requests := FinalizeSet(l.requests, ExpiredRequests(l, now), Expired));
    RequestsOn(l, l1.requests, l.clients, l.next);
    var close, suspend := CloseDue(l1.sessions, now), SuspendDue(l1.sessions, now);
    var m := CloseAll(l1, close, l1.next);
    CloseAllOn(l1, close, l1.next);
    OnwardTransitive(l, l1, m);
    SuspendAllOn(m, suspend, now, l1.next);
    var l2 := SuspendAll(m, suspend, now, l1.next);
    OnwardTransitive(l, m, l2);
    ArtifactsBlocked(l2, ExpiredArtifacts(l2, now));
    var l3 := l2.(artifacts := BlockSet(l2.artifacts, ExpiredArtifacts(l2, now)));
    OnwardTransitive(l, l2, l3);
    FinishOn(l3);
    OnwardTransitive(l, l3, FinishCleanup(l3));
    BumpOn(FinishCleanup(l3));
    OnwardTransitive(l, FinishCleanup(l3), Bump(FinishCleanup(l3)));
  }

  lemma ArtifactsBlocked(l: Ledger, ids: set<Id>)
    ensures Onward(l, l.(artifacts := BlockSet(l.artifacts, ids)))
  {
    hide BlockSet, ArtifactsForward, ReceiptOn, GrantOn, SessionOn;
    BlockOn(l.artifacts, ids);
    OnwardSame(l);
  }

  // ----- the transactions -----

  lemma BumpedOn(l: Ledger, m: Ledger)
    requires Onward(l, m)
    ensures Onward(l, Bump(m))
  {
    hide Onward, Bump;
    BumpOn(m);
    OnwardTransitive(l, m, Bump(m));
  }

  lemma SessionPutOn(l: Ledger, id: Id, row: SessionRow, next: Id)
    requires l.next <= next && (id in l.sessions ==> SessionOn(l.sessions[id], row))
    ensures Onward(l, Bump(l.(sessions := l.sessions[id := row], next := next)))
  {
    hide ReceiptOn, ArtifactOn, GrantOn;
    OnwardSame(l);
  }

  lemma SessionActOn(l: Ledger, env: Env, peer: Peer, subject: string, profile: string, id: Id, generation: nat,
                     verb: SessionVerb)
    requires SessionAct(l, env, peer, subject, profile, id, generation, verb).Ok?
    ensures Onward(l, SessionAct(l, env, peer, subject, profile, id, generation, verb).value.db)
  {
    hide Onward, CloseSession, SuspendSession, FinishCleanup, Context, ActiveContext, Bump;
    var s := l.sessions[id];
    match verb
    case Close => ClosedOn(l, id);
    case Suspend =>
      ClosedOn(l, id);
      SuspendSessionOn(l, id, env.now);
      BumpedOn(l, SuspendSession(l, id, env.now));
    case Resume(token) =>
      SessionPutOn(l, id, s.(state := Open, generation := s.generation + 1, proof := Some(l.next),
                             lease := env.now + 30000), l.next + 1);
    case Heartbeat =>
      SessionPutOn(l, id, s.(lease := env.now + 30000), l.next);
      assert l.(sessions := l.sessions[id := s.(lease := env.now + 30000)],
                next := l.next) == l.(sessions := l.sessions[id := s.(lease := env.now + 30000)]);
  }

  lemma ClosedOn(l: Ledger, id: Id)
    ensures Onward(l, Bump(FinishCleanup(CloseSession(l, id))))
  {
    hide Onward, CloseSession, FinishCleanup, Bump;
    CloseSessionOn(l, id);
    FinishOn(CloseSession(l, id));
    OnwardTransitive(l, CloseSession(l, id), FinishCleanup(CloseSession(l, id)));
    BumpedOn(l, FinishCleanup(CloseSession(l, id)));
  }

  lemma ConsumeOn(grants: map<Id, Grant>, ids: seq<Id>, bound: Id)
    ensures GrantsForward(grants, Consume(grants, ids, |ids|), bound)
  {
    hide Consume;
    ConsumeShape(grants, ids, |ids|);
  }

  lemma AuthorizedOn(l: Ledger, e: Execution, p: Payload, ids: seq<Id>, now: nat)
    requires Inv(l) && e !in l.executions
    ensures Forward(l, Bump(Authorized(l, e, p, ids, now)))
  {
    NextIsNew(l);
    hide Inv, Consume, Elements, GrantsForward, ArtifactOn, SessionOn;
    ConsumeOn(l.grants, ids, l.next);
    ForwardSame(l);
  }

  lemma AuthorizedExecutes(l: Ledger, e: Execution, p: Payload, ids: seq<Id>, now: nat)
    requires Inv(l) && forall i :: 0 <= i < |ids| ==> Fit(l, p, ids[i])
    ensures Executes(l, Bump(Authorized(l, e, p, ids, now)))
  {
    NextIsNew(l);
    hide Inv, Consume;
    var m := Bump(Authorized(l, e, p, ids, now));
    ConsumeShape(l.grants, ids, |ids|);
    forall g | g in m.grants
      ensures m.grants[g].remaining == l.grants[g].remaining - Taken(l.grants[g], m.receipts[l.next], g)
    {
      ElementsOf(ids, g);
      if g in ids {
        assert g in ids[..|ids|];
        if l.grants[g].mode.ONCE? { CountedAt(l, g); }
      }
    }
  }

  lemma EvaluateOn(l: Ledger, env: Env, peer: Peer, p: Payload, purpose: Purpose)
    requires Inv(l) && Evaluate(l, env, peer, p, purpose).Ok?
    ensures Grows(l, Evaluate(l, env, peer, p, purpose).value.db)
  {
    hide Inv, Forward, Calm, Executes, Fit, CheckConditions, Authorized, Recall, Admit, ReceiptValid, Preflight, Bump;
    OnwardSame(l);
    var f := Fingerprint(p, purpose);
    match purpose
    case Authorize =>
      var e := Execution(peer.identity, f.operation, f.step);
      if e !in l.executions {
        var q := Question(f, None, Target(f, env.now), true);
        var ids := CheckConditions(l, env, peer, q, true).value.grants;
        VerdictSound(l, env, peer, q, true);
        AuthorizedOn(l, e, f, ids, env.now);
        AuthorizedExecutes(l, e, f, ids, env.now);
      }
    case Create =>
      var key := ClientKey(peer.identity, f.subject, f.profile, f.client);
      if key in l.clients { RecallOn(l, env, peer, l.clients[key], f); } else { AdmitOn(l, env, peer, f); }
    case Query =>
  }

  lemma RequestsBumped(l: Ledger, requests: map<Id, RequestRow>, clients: map<ClientKey, Id>, next: Id)
    requires l.next <= next
    ensures Onward(l, Bump(l.(requests := requests, clients := clients, next := next)))
  {
    hide Onward, Bump;
    RequestsOn(l, requests, clients, next);
    BumpedOn(l, l.(requests := requests, clients := clients, next := next));
  }

  lemma RecallOn(l: Ledger, env: Env, peer: Peer, q: Id, p: Payload)
    requires Recall(l, env, peer, q, p).Ok?
    ensures Onward(l, Recall(l, env, peer, q, p).value.db)
  {
    hide Onward, StoredApproval;
    OnwardSame(l);
    RequestsBumped(l, l.requests[q := l.requests[q].(state := Invalidated, token := None)], l.clients, l.next);
  }

  lemma AdmitOn(l: Ledger, env: Env, peer: Peer, p: Payload)
    requires Admit(l, env, peer, p).Ok?
    ensures Onward(l, Admit(l, env, peer, p).value.db)
  {
    hide Onward, CheckConditions, ModesPermit, PendingRequests, Revised;
    var db := Admit(l, env, peer, p).value.db;
    RequestsBumped(l, db.requests, db.clients, l.next + 1);
  }

  lemma ReadOn(l: Ledger, env: Env, peer: Peer, ref: RequestRef, cancel: bool)
    requires ReadResult(l, env, peer, ref, cancel).Ok?
    ensures Onward(l, ReadResult(l, env, peer, ref, cancel).value.db)
  {
    hide Onward, StoredApproval, FindRequest, ActiveContext;
    OnwardSame(l);
    var db := ReadResult(l, env, peer, ref, cancel).value.db;
    RequestsBumped(l, db.requests, l.clients, l.next);
  }

  lemma ShowOn(l: Ledger, env: Env, peer: Peer, ref: RequestRef, u: Screening)
    requires ShowPrompt(l, env, peer, ref, u).Ok?
    ensures Onward(l, ShowPrompt(l, env, peer, ref, u).value.db)
  {
    hide Onward, OpenPrompt, FindRequest, TypedPrompt, Identifier, Display, Quiet, SameTable;
    var id := FindRequest(l, peer, ref, true).value;
    var q := l.requests[id];
    DisplayOn(l, peer, id, q, u, OpenPrompt(l, env, peer, q, u, false).value);
  }

  lemma DisplayOn(l: Ledger, peer: Peer, id: Id, q: RequestRow, u: Screening, current: Verdict)
    requires id in l.requests && |current.rows| == |q.rows|
    ensures Onward(l, Display(l, peer, id, q, u, current).db)
  {
    hide Onward, Displayed, FinalRow, ShownRow, PersistentOffer, Quiet, SameTable;
    var db := Display(l, peer, id, q, u, current).db;
    RequestsBumped(l, db.requests, l.clients, l.next);
    RequestsBumped(l, db.requests, l.clients, l.next + 1);
  }

  /** Issuing adds grants under new names and leaves the others alone. */
  lemma {:induction false} IssueOn(l: Ledger, q: RequestRow, current: Verdict, mode: Mode, expires: nat, n: nat)
    requires n <= |q.rows| == |current.rows| == |q.payload.requirements|
    requires Issue(l, q, current, mode, expires, n).Ok?
    ensures Forward(l, Issue(l, q, current, mode, expires, n).value)
  {
    hide ReceiptOn, ArtifactOn, SessionOn, NewGrant;
    ForwardSame(l);
    if n != 0 {
      IssueOn(l, q, current, mode, expires, n - 1);
    }
  }

  lemma {:induction false} IssueUnused(l: Ledger, q: RequestRow, current: Verdict, mode: Mode, expires: nat, n: nat)
    requires n <= |q.rows| == |current.rows| == |q.payload.requirements|
    requires Inv(l) && Issue(l, q, current, mode, expires, n).Ok?
    ensures Issues(l, Issue(l, q, current, mode, expires, n).value)
    ensures l.next <= Issue(l, q, current, mode, expires, n).value.next
  {
    hide Inv, Issues, IssueOne, Wanted;
    IssuesNothing(l);
    if n != 0 {
      IssueUnused(l, q, current, mode, expires, n - 1);
      if Wanted(q, current, n - 1) {
        NamedGrants(l);
        IssueOneUnused(l, Issue(l, q, current, mode, expires, n - 1).value, q, mode, expires, n - 1);
      }
    }
  }

  lemma IssueOneUnused(l: Ledger, m: Ledger, q: RequestRow, mode: Mode, expires: nat, i: nat)
    requires i < |q.payload.requirements| && IssueOne(m, q, mode, expires, i).Ok?
    requires Issues(l, m) && l.next <= m.next && forall g :: g in l.grants ==> g < l.next
    ensures var k := IssueOne(m, q, mode, expires, i).value; Issues(l, k) && m.next <= k.next
  {
    hide KeyOf, Definition;
  }

  lemma NamedGrants(l: Ledger)
    requires Inv(l)
    ensures forall g :: g in l.grants ==> g < l.next
  {
  }

  lemma IssuesNothing(l: Ledger)
    ensures Issues(l, l)
  {
  }

  lemma SettleOn(l: Ledger, env: Env, peer: Peer, id: Id, q: RequestRow, u: Screening, mode: Mode, current: Verdict)
    requires |q.payload.requirements| == |q.rows| == |current.rows|
    requires Inv(l) && Settle(l, env, peer, id, q, u, mode, current).Ok?
    ensures Forward(l, Settle(l, env, peer, id, q, u, mode, current).value.db)
    ensures Issues(l, Settle(l, env, peer, id, q, u, mode, current).value.db)
  {
    hide Inv, Forward, Issues, CheckConditions, Issue, Redecided, Refuse, NewGrants, Asked, Bump;
    ForwardSame(l);
    IssuesNothing(l);
    var db := Settle(l, env, peer, id, q, u, mode, current).value.db;
    if u.allow {
      var expires := if mode.TIMED? then env.now + u.duration else 0;
      IssueOn(l, q, current, mode, expires, |q.rows|);
      IssueUnused(l, q, current, mode, expires, |q.rows|);
      var m := Issue(l, q, current, mode, expires, |q.rows|).value;
      AnswerOn(l, m, id, q, u, mode, CheckConditions(m, env, peer, Asked(q, mode), false).value);
    } else {
      AnswerOn(l, l, id, q, u, mode, CheckConditions(l, env, peer, Asked(q, mode), false).value);
    }
  }

  lemma AnswerOn(l: Ledger, m: Ledger, id: Id, q: RequestRow, u: Screening, mode: Mode, v: Verdict)
    requires |v.rows| == |q.rows| && Forward(l, m) && Issues(l, m)
    ensures Forward(l, Answer(l, m, id, q, u, mode, v).db) && Issues(l, Answer(l, m, id, q, u, mode, v).db)
  {
    hide Forward, Redecided, Refuse, NewGrants;
    var db := Answer(l, m, id, q, u, mode, v).db;
    RequestsBumped(m, m.requests[id := db.requests[id]], m.clients, m.next);
    ForwardTransitive(l, m, db);
  }

  lemma RespondOn(l: Ledger, env: Env, peer: Peer, ref: RequestRef, u: Screening)
    requires Inv(l) && Respond(l, env, peer, ref, u).Ok?
    ensures Grows(l, Respond(l, env, peer, ref, u).value.db)
  {
    hide Inv, Forward, Issues, OpenPrompt, FindRequest, Presented, AnswerMode, CheckConditions, Settle, Asked;
    var id := FindRequest(l, peer, ref, true).value;
    var q := l.requests[id];
    var mode := AnswerMode(l, q, u).value;
    var current := if Choices(q) then CheckConditions(l, env, peer, Asked(q, mode), false).value
        else OpenPrompt(l, env, peer, q, u, true).value;
    SettleOn(l, env, peer, id, q, u, mode, current);
  }

  lemma RetireOn(l: Ledger, gs: set<Id>, rs: set<Id>, xs: set<Id>)
    ensures Onward(l, Retire(l, gs, rs, xs))
  {
    hide RevokeSet, InvalidateSet, BlockSet, GrantsForward, ReceiptsForward, ArtifactsForward, SessionOn;
    OnwardSame(l);
    RevokeOn(l.grants, gs, l.next);
    InvalidateOn(l.receipts, rs);
    BlockOn(l.artifacts, xs);
  }

  lemma RevokeOpOn(l: Ledger, peer: Peer, definition: string, subject: string, profile: string)
    requires Revoke(l, peer, definition, subject, profile).Ok?
    ensures Onward(l, Revoke(l, peer, definition, subject, profile).value.db)
  {
    hide Onward, RevokeSet, InvalidateSet, BlockSet, Context, ReceiptsOn, ArtifactsOn, Revoked, Bump;
    var ids := set g | g in l.grants && l.grants[g].key.definition == definition
                       && l.grants[g].key.subject == subject && l.grants[g].key.profile == profile;
    var m := l.(grants := RevokeSet(l.grants, ids));
    RetireOn(l, ids, ReceiptsOn(m, Revoked(m)), ArtifactsOn(m, Revoked(m)));
    BumpedOn(l, Retire(l, ids, ReceiptsOn(m, Revoked(m)), ArtifactsOn(m, Revoked(m))));
  }

  lemma ArtifactAddOn(l: Ledger, a: Artifact, originals: map<Original, Id>)
    requires l.next !in l.artifacts && a.state.Active?
    ensures Grows(l, Bump(l.(artifacts := l.artifacts[l.next := a], originals := originals, next := l.next + 1)))
  {
    hide ReceiptOn, GrantOn, SessionOn;
    ForwardSame(l);
  }

  lemma RegisterOn(l: Ledger, env: Env, peer: Peer, u: Use, receipt: Id, i: nat)
    requires Inv(l) && Register(l, env, peer, u, receipt, i).Ok?
    ensures Grows(l, Register(l, env, peer, u, receipt, i).value.db)
  {
    hide Inv, Grows, ReceiptValid, HolderContext, RegisterNew;
    GrowsNothing(l);
    if Original(receipt, peer.identity) !in l.originals { RegisterNewOn(l, env, peer, u, receipt, i); }
  }

  lemma RegisterNewOn(l: Ledger, env: Env, peer: Peer, u: Use, receipt: Id, i: nat)
    requires Inv(l) && receipt in l.receipts && l.receipts[receipt].payload.Some?
    requires RegisterNew(l, env, peer, u, receipt, i).Ok?
    ensures Grows(l, RegisterNew(l, env, peer, u, receipt, i).value.db)
  {
    hide Inv, Grows, UndeletedIn;
    NextIsNew(l);
    var db := RegisterNew(l, env, peer, u, receipt, i).value.db;
    ArtifactAddOn(l, db.artifacts[l.next], db.originals);
  }

  lemma DeriveOn(l: Ledger, env: Env, peer: Peer, u: Use, parents: seq<Id>)
    requires Inv(l) && Derive(l, env, peer, u, parents).Ok?
    ensures Grows(l, Derive(l, env, peer, u, parents).value.db)
  {
    hide Inv, Grows, HolderContext, Inherit, UndeletedIn, Elements;
    NextIsNew(l);
    var db := Derive(l, env, peer, u, parents).value.db;
    ArtifactAddOn(l, db.artifacts[l.next], l.originals);
  }

  lemma GrowsNothing(l: Ledger)
    ensures Grows(l, l)
  {
    ForwardSame(l);
  }

  lemma MarkOn(l: Ledger, id: Id, b: Artifact)
    requires id in l.artifacts && ArtifactOn(l.artifacts[id], b)
    ensures Onward(l, l.(artifacts := l.artifacts[id := b]))
  {
    hide ReceiptOn, GrantOn, SessionOn;
    OnwardSame(l);
  }

  lemma AcknowledgeOn(l: Ledger, peer: Peer, artifact: Id, success: bool, reconcile: bool, subject: string,
                      profile: string)
    requires Acknowledge(l, peer, artifact, success, reconcile, subject, profile).Ok?
    ensures Onward(l, Acknowledge(l, peer, artifact, success, reconcile, subject, profile).value.db)
  {
    hide Onward, FinishCleanup, Context, Bump;
    var b := l.artifacts[artifact].(state := if success then Deleted else CleanupFailed);
    MarkOn(l, artifact, b);
    var m := l.(artifacts := l.artifacts[artifact := b]);
    FinishOn(m);
    OnwardTransitive(l, m, FinishCleanup(m));
    BumpedOn(l, FinishCleanup(m));
  }

  lemma SessionOpenOn(l: Ledger, env: Env, peer: Peer, subject: string, profile: string, m: Limits)
    requires Inv(l) && SessionOpen(l, env, peer, subject, profile, m).Ok?
    ensures Onward(l, SessionOpen(l, env, peer, subject, profile, m).value.db)
  {
    hide Inv, Onward, Context, ActiveContext, LiveSessions;
    NextIsNew(l);
    SessionPutOn(l, l.next, SessionOpen(l, env, peer, subject, profile, m).value.db.sessions[l.next], l.next + 2);
  }

  lemma DispatchOn(l: Ledger, env: Env, peer: Peer, call: Call)
    requires Inv(l) && Dispatch(l, env, peer, call).Ok?
    ensures Grows(l, Dispatch(l, env, peer, call).value.db)
  {
    hide Inv, Forward, Calm, Executes, Issues, Holds, Evaluate, ShowPrompt, Respond, ReadResult, SessionOpen;
    hide SessionAct, Revoke, Register, Derive, Acknowledge, HolderContext, Provenance, Context;
    OnwardSame(l);
    match call
    case Ask(p, purpose) => EvaluateOn(l, env, peer, p, purpose);
    case Show(ref, u) => ShowOn(l, env, peer, ref, u);
    case Decide(ref, u) => RespondOn(l, env, peer, ref, u);
    case Read(ref, cancel) => ReadOn(l, env, peer, ref, cancel);
    case Begin(subject, profile, m) => SessionOpenOn(l, env, peer, subject, profile, m);
    case Watch(_, _, _) =>
    case Act(subject, profile, id, generation, verb) =>
      SessionActOn(l, env, peer, subject, profile, id, generation, verb);
    case Withhold(d, subject, profile) => RevokeOpOn(l, peer, d, subject, profile);
    case Hold(u, receipt, i) => RegisterOn(l, env, peer, u, receipt, i);
    case Extend(u, parents) => DeriveOn(l, env, peer, u, parents);
    case Reuse(_, _) =>
    case Release(artifact, success, reconcile, subject, profile) =>
      AcknowledgeOn(l, peer, artifact, success, reconcile, subject, profile);
  }

  // ----- the steps between transactions -----

  lemma RedefineOn(l: Ledger, definitions: map<string, Config>, names: set<string>,
                   installed: (string, string, string) -> bool)
    requires names <= definitions.Keys
    ensures Onward(l, Redefine(l, definitions, names, installed))
  {
    hide RevokeSet, InvalidateSet, BlockSet, FinalizeSet, GrantsForward, ReceiptsForward, ArtifactsForward;
    hide SessionsForward, Reproject, PendingOnAny, GrantsOfAny, ReceiptsOn, ArtifactsOn;
    var ids := GrantsOfAny(l, names);
    RetireOn(l, ids, ReceiptsOn(l, ids), ArtifactsOn(l, ids));
  }

  lemma ReplayOn(l: Ledger, book: R.Book, installed: (string, string, string) -> bool)
    ensures Onward(l, Replay(l, book, installed))
  {
    hide Redefine, GrantsForward, ReceiptsForward, ArtifactsForward, SessionsForward;
    RedefineOn(l, book.definitions, Changed(l, book.definitions, installed), installed);
  }

  lemma FenceOn(l: Ledger, bindings: seq<Binding>, all: bool, user: string)
    ensures Onward(l, FenceProfiles(l, bindings, all, user))
  {
    hide Onward, CloseAll, FinishCleanup, RevokeSet, InvalidateSet, FinalizeSet, SessionsOf, RequestsOf;
    hide GrantsUnder, ReceiptsUnder, Retired, Bump;
    var m := CloseAll(l, SessionsOf(l, bindings), l.next);
    CloseAllOn(l, SessionsOf(l, bindings), l.next);
    var gs, rs := GrantsUnder(m, Retired(bindings, all, user)), ReceiptsUnder(m, bindings);
    RetireOn(m, gs, rs, {});
    BlockNone(m.artifacts);
    var k := m.(grants := RevokeSet(m.grants, gs), receipts := InvalidateSet(m.receipts, rs));
    assert Retire(m, gs, rs, {}) == k;
    var requests := FinalizeSet(m.requests, RequestsOf(m, bindings), Invalidated);
    RequestsOn(k, requests, k.clients, k.next);
    var n := k.(requests := requests);
    assert k.(requests := requests, clients := k.clients, next := k.next) == n;
    OnwardTransitive(m, k, n);
    OnwardTransitive(l, m, n);
    FinishOn(n);
    OnwardTransitive(l, n, FinishCleanup(n));
    BumpedOn(l, FinishCleanup(n));
  }

  lemma ResetOn(l: Ledger)
    ensures Onward(l, ResetRuntime(l))
  {
    hide Onward, FinishCleanup, Quiesced, Bump;
    QuiescedOn(l);
    FinishOn(Quiesced(l));
    OnwardTransitive(l, Quiesced(l), FinishCleanup(Quiesced(l)));
    BumpedOn(l, FinishCleanup(Quiesced(l)));
  }

  lemma QuiescedOn(l: Ledger)
    ensures Onward(l, Quiesced(l))
  {
    hide RevokeSet, InvalidateSet, BlockSet, CloseSet, FinalizeSet, GrantsForward, ReceiptsForward;
    hide ArtifactsForward, SessionsForward, Temporary, LiveSessions, PendingRequests;
    RevokeOn(l.grants, Temporary(l), l.next);
    InvalidateOn(l.receipts, l.receipts.Keys);
    BlockOn(l.artifacts, l.artifacts.Keys);
    CloseOn(l.sessions, LiveSessions(l));
  }

  lemma CompensateOn(l: Ledger, issued: set<Id>, request: Option<Id>)
    ensures Onward(l, Compensate(l, issued, request))
  {
    hide RevokeSet, FinalizeSet, GrantsForward, ReceiptsForward, ArtifactsForward, SessionsForward;
    OnwardSame(l);
    RevokeOn(l.grants, issued, l.next);
  }

  lemma ClearOn(l: Ledger, x: Record)
    ensures Onward(l, Clear(l, x))
  {
    hide Referenced, Blank;
    OnwardSame(l);
  }

  lemma {:induction false} ClearAllOn(l: Ledger, records: seq<Record>)
    ensures Onward(l, ClearAll(l, records))
  {
    hide Onward, Clear;
    OnwardSame(l);
    if records != [] {
      var m := ClearAll(l, records[..|records| - 1]);
      ClearAllOn(l, records[..|records| - 1]);
      ClearOn(m, records[|records| - 1]);
      OnwardTransitive(l, m, ClearAll(l, records));
    }
  }

  lemma TransactOn(l: Ledger, book: R.Book, env: Env, peer: Peer, call: Call)
    requires Inv(l)
    ensures Forward(l, Transact(l, book, env, peer, call).db)
  {
    hide Inv, Core, SameTable, Quiet, Forward, Calm, Executes, Issues, Holds, Expire, Dispatch, Compensate, Publish;
    var swept := Expire(l, env.now);
    SweptKeeps(l, env.now);
    ExpireOn(l, env.now);
    var c := Dispatch(swept, env, peer, call);
    if c.Ok? {
      DispatchOn(swept, env, peer, call);
      ForwardTransitive(l, swept, c.value.db);
      CompensateOn(c.value.db, c.value.issued, c.value.request);
      ForwardTransitive(l, c.value.db, Compensate(c.value.db, c.value.issued, c.value.request));
    }
  }

  lemma EnsureOn(s: Repo, env: Env)
    ensures Onward(s.db, Ensure(s, env).db)
  {
    hide Onward, Replay;
    OnwardSame(s.db);
    if s.fenced { ReplayOn(s.db, s.book, env.installed); }
  }

  /** Nothing but a call adds receipts, grants or artifacts, and no step takes a row back. */
  lemma StepCalm(s: Repo, e: Stamped)
    requires Steady(s) && (e.event.Invoke? ==> s.halted)
    ensures Onward(s.db, Step(s, e).0.db)
  {
    hide Inv, Sound, Projects, Onward, Replay, ResetRuntime, Expire, FenceProfiles, ClearAll, Transact, Ensure, R.Enact;
    OnwardSame(s.db);
    if e.event.Restart? {
      var m := Replay(s.db, s.book, e.env.installed);
      ReplayOn(s.db, s.book, e.env.installed);
      ResetOn(m);
      OnwardTransitive(s.db, m, ResetRuntime(m));
    } else if !s.halted {
      EnsureOn(s, e.env);
      var t := Ensure(s, e.env);
      match e.event
      case Enroll(step, crash) =>
        var u := t.(book := R.Enact(t.book, step), fenced := true);
        EnsureOn(u, e.env);
        OnwardTransitive(s.db, t.db, Ensure(u, e.env).db);
      case Tick(records) =>
        var m := Replay(t.db, t.book, e.env.installed);
        ReplayOn(t.db, t.book, e.env.installed);
        OnwardTransitive(s.db, t.db, m);
        ExpireOn(m, e.env.now);
        OnwardTransitive(s.db, m, Expire(m, e.env.now));
        ClearAllOn(Expire(m, e.env.now), records);
        OnwardTransitive(s.db, Expire(m, e.env.now), ClearAll(Expire(m, e.env.now), records));
      case Maintain(records) =>
        ClearAllOn(t.db, records);
        OnwardTransitive(s.db, t.db, ClearAll(t.db, records));
      case Fence(bindings, all, user) =>
        FenceOn(t.db, bindings, all, user);
        OnwardTransitive(s.db, t.db, FenceProfiles(t.db, bindings, all, user));
    }
  }

  lemma StepOn(s: Repo, e: Stamped)
    requires Steady(s)
    ensures Forward(s.db, Step(s, e).0.db)
  {
    hide Inv, Sound, Projects, Forward, Calm, Transact, Ensure;
    if e.event.Invoke? && !s.halted {
      EnsureOn(s, e.env);
      EnsureKeeps(s, e.env);
      var t := Ensure(s, e.env);
      TransactOn(t.db, t.book, e.env, e.event.peer, e.event.call);
      ForwardTransitive(s.db, t.db, Transact(t.db, t.book, e.env, e.event.peer, e.event.call).db);
    } else {
      StepCalm(s, e);
    }
  }

  /** Over every run, rows only move forward: sessions close for good, deletions are final,
      receipts and grants are never restored, and an execution keeps its receipt. */
  lemma {:induction false} RunOn(s: Repo, run: seq<Stamped>)
    requires Steady(s)
    ensures Forward(s.db, After(s, run).db)
  {
    hide Steady, Step, Forward;
    ForwardSame(s.db);
    if run != [] {
      var m := After(s, run[..|run| - 1]);
      RunOn(s, run[..|run| - 1]);
      RunKeeps(s, run[..|run| - 1]);
      StepOn(m, run[|run| - 1]);
      ForwardTransitive(s.db, m.db, After(s, run).db);
    }
  }
}
