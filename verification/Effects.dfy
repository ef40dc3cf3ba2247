/** What the statements that end things do to the tables, row by row: which sessions, grants, receipts,
    artifacts and requests they reach, and that they leave all others alone. */
module Effects {
  import opened Types
  import opened Ledger
  import opened Conditions
  import opened Operations
  import opened Daemon
  import opened Invariants
  import opened Sequences
  import opened Revisions
  import R = Registry

  // ----- the vocabulary -----

  ghost predicate Up(s: SessionRow) {
    s.state.Open? || s.state.Suspended?
  }

  /** A session that ends waits for its artifacts, if it has any left. */
  function Ended(s: SessionRow, waits: bool): SessionRow {
    s.(state := if waits then Closing else Closed, generation := s.generation + 1)
  }

  function Void(q: RequestRow, state: RequestState): RequestRow {
    q.(state := state, token := None)
  }

  ghost predicate Within(session: Option<Id>, ids: set<Id>) {
    session.Some? && session.value in ids
  }

  /** Exactly the grants of `ids` are revoked. */
  ghost predicate Revokes(a: map<Id, Grant>, b: map<Id, Grant>, ids: set<Id>) {
    b.Keys == a.Keys && forall g :: g in a ==> b[g] == a[g].(revoked := a[g].revoked || g in ids)
  }

  ghost predicate Invalidates(a: map<Id, Receipt>, b: map<Id, Receipt>, ids: set<Id>) {
    b.Keys == a.Keys && forall r :: r in a ==> b[r] == a[r].(valid := a[r].valid && r !in ids)
  }

  /** Exactly those of `ids` that are resident have to be cleaned up. */
  ghost predicate Blocks(a: map<Id, Artifact>, b: map<Id, Artifact>, ids: set<Id>) {
    && b.Keys == a.Keys
    && forall x :: x in a ==> b[x] == if x in ids && a[x].state.Active? then a[x].(state := CleanupPending) else a[x]
  }

  ghost predicate Ends(a: map<Id, SessionRow>, b: map<Id, SessionRow>, ids: set<Id>, artifacts: map<Id, Artifact>) {
    && b.Keys == a.Keys
    && forall s :: s in a ==> b[s] == if s in ids && Up(a[s]) then Ended(a[s], HasUndeleted(artifacts, s)) else a[s]
  }

  ghost predicate Voids(a: map<Id, RequestRow>, b: map<Id, RequestRow>, ids: set<Id>, state: RequestState) {
    b.Keys == a.Keys && forall q :: q in a ==> b[q] == if q in ids then Void(a[q], state) else a[q]
  }

  lemma StatementsAre(l: Ledger, ids: set<Id>, state: RequestState)
    ensures Revokes(l.grants, RevokeSet(l.grants, ids), ids)
    ensures Invalidates(l.receipts, InvalidateSet(l.receipts, ids), ids)
    ensures Blocks(l.artifacts, BlockSet(l.artifacts, ids), ids)
    ensures Voids(l.requests, FinalizeSet(l.requests, ids, state), ids, state)
  {
  }

  lemma UndeletedIs(l: Ledger, s: Id)
    ensures UndeletedIn(l, s) != {} <==> HasUndeleted(l.artifacts, s)
  {
    if HasUndeleted(l.artifacts, s) {
      var a :| a in l.artifacts && l.artifacts[a].session == s && !l.artifacts[a].state.Deleted?;
      assert a in UndeletedIn(l, s);
    }
  }

  /** Blocking deletes nothing. */
  lemma BlockedWait(a: map<Id, Artifact>, b: map<Id, Artifact>, ids: set<Id>, s: Id)
    requires Blocks(a, b, ids)
    ensures HasUndeleted(b, s) <==> HasUndeleted(a, s)
  {
    if HasUndeleted(a, s) {
      var x :| x in a && a[x].session == s && !a[x].state.Deleted?;
      assert b[x].session == s && !b[x].state.Deleted?;
    }
    if HasUndeleted(b, s) {
      var x :| x in b && b[x].session == s && !b[x].state.Deleted?;
      assert a[x].session == s && !a[x].state.Deleted?;
    }
  }

  /** Exactly the closing sessions that wait for nothing are closed. */
  ghost predicate Finishes(a: map<Id, SessionRow>, b: map<Id, SessionRow>, artifacts: map<Id, Artifact>) {
    && b.Keys == a.Keys
    && forall s :: s in a ==>
         b[s] == if a[s].state.Closing? && !HasUndeleted(artifacts, s) then a[s].(state := Closed) else a[s]
  }

  lemma FinishIs(l: Ledger)
    ensures var m := FinishCleanup(l); m == l.(sessions := m.sessions) && Finishes(l.sessions, m.sessions, l.artifacts)
  {
    hide UndeletedIn, HasUndeleted;
    forall s ensures UndeletedIn(l, s) != {} <==> HasUndeleted(l.artifacts, s) {
      UndeletedIs(l, s);
    }
  }

  /** Closing sessions and finishing those that wait for nothing. */
  lemma CloseEnds(a: map<Id, SessionRow>, b: map<Id, SessionRow>, ids: set<Id>, artifacts: map<Id, Artifact>,
                  later: map<Id, Artifact>, blocked: set<Id>)
    requires Settled(artifacts, a) && Blocks(artifacts, later, blocked) && Finishes(CloseSet(a, ids), b, later)
    ensures Ends(a, b, ids, artifacts)
  {
    hide Blocks, HasUndeleted;
    forall s | s in a
      ensures b[s] == if s in ids && Up(a[s]) then Ended(a[s], HasUndeleted(artifacts, s)) else a[s]
    {
      BlockedWait(artifacts, later, blocked, s);
    }
  }

  // ----- closing -----

  ghost function GrantsWithin(grants: map<Id, Grant>, ids: set<Id>): set<Id> {
    set g | g in grants && grants[g].mode.SESSION? && Within(grants[g].session, ids)
  }

  ghost function ArtifactsWithin(artifacts: map<Id, Artifact>, ids: set<Id>): set<Id> {
    set a | a in artifacts && artifacts[a].session in ids
  }

  ghost function PromptsWithin(requests: map<Id, RequestRow>, ids: set<Id>): set<Id> {
    set q | q in requests && requests[q].state.Pending? && Within(requests[q].payload.session, ids)
  }

  /** The sessions of `ids` end, with their SESSION grants, resident artifacts and open prompts. */
  ghost predicate Closes(l: Ledger, m: Ledger, ids: set<Id>) {
    && m == l.(sessions := m.sessions, grants := m.grants, artifacts := m.artifacts, requests := m.requests)
    && Ends(l.sessions, m.sessions, ids, l.artifacts)
    && Revokes(l.grants, m.grants, GrantsWithin(l.grants, ids))
    && Blocks(l.artifacts, m.artifacts, ArtifactsWithin(l.artifacts, ids))
    && Voids(l.requests, m.requests, PromptsWithin(l.requests, ids), Invalidated)
  }

  lemma CloseManyCloses(l: Ledger, ids: set<Id>)
    requires Settled(l.artifacts, l.sessions)
    ensures Closes(l, FinishCleanup(CloseMany(l, ids)), ids)
  {
    hide RevokeSet, BlockSet, FinalizeSet, CloseSet, Settled, Ends, Revokes, Blocks, Voids, FinishCleanup, Finishes;
    hide SessionGrantsAny, ArtifactsInAny, PendingInAny, GrantsWithin, ArtifactsWithin, PromptsWithin;
    StatementsAre(l, SessionGrantsAny(l, ids), Invalidated);
    StatementsAre(l, ArtifactsInAny(l, ids), Invalidated);
    StatementsAre(l, PendingInAny(l, ids), Invalidated);
    var k := CloseMany(l, ids);
    FinishIs(k);
    CloseEnds(l.sessions, FinishCleanup(k).sessions, ids, l.artifacts, k.artifacts, ArtifactsInAny(l, ids));
    CloseSets(l, ids);
  }

  lemma CloseSets(l: Ledger, ids: set<Id>)
    ensures SessionGrantsAny(l, ids) == GrantsWithin(l.grants, ids)
    ensures ArtifactsInAny(l, ids) == ArtifactsWithin(l.artifacts, ids)
    ensures PendingInAny(l, ids) == PromptsWithin(l.requests, ids)
  {
  }

  // ----- expiry -----

  /** The session has reached its end: open past a deadline it cannot be suspended at, or suspended for
      too long. */
  ghost predicate Over(s: SessionRow, now: nat) {
    || (s.state.Open? && (s.idle <= now || s.absolute <= now || (s.lease <= now && s.policy.ConnectionBound?)))
    || (s.state.Suspended? && (s.resume <= now || s.absolute <= now || s.idle <= now))
  }

  /** Only the lease of an open session that can be resumed has run out. */
  ghost predicate Lapses(s: SessionRow, now: nat) {
    s.state.Open? && s.policy.Resumable? && s.lease <= now && now < s.idle && now < s.absolute
  }

  function Paused(s: SessionRow, now: nat): SessionRow {
    s.(state := Suspended, generation := s.generation + 1, resume := now + s.grace)
  }

  ghost predicate Pauses(a: map<Id, SessionRow>, b: map<Id, SessionRow>, ids: set<Id>, now: nat) {
    b.Keys == a.Keys && forall s :: s in a ==> b[s] == if s in ids && a[s].state.Open? then Paused(a[s], now) else a[s]
  }

  ghost function OverSessions(sessions: map<Id, SessionRow>, now: nat): set<Id> {
    set s | s in sessions && Over(sessions[s], now)
  }

  ghost function LapsedSessions(sessions: map<Id, SessionRow>, now: nat): set<Id> {
    set s | s in sessions && Lapses(sessions[s], now)
  }

  ghost predicate SweptRequest(a: RequestRow, b: RequestRow, over: set<Id>, lapsed: set<Id>, now: nat) {
    b == if a.state.Pending? && a.deadline <= now then Void(a, Expired)
         else if a.state.Pending? && (Within(a.payload.session, over) || Within(a.payload.session, lapsed))
              then Void(a, Invalidated)
         else a
  }

  ghost predicate SweptSession(a: SessionRow, b: SessionRow, waits: bool, now: nat) {
    b == if Over(a, now) then Ended(a, waits) else if Lapses(a, now) then Paused(a, now) else a
  }

  ghost predicate SweptArtifact(a: Artifact, b: Artifact, over: set<Id>, now: nat) {
    b == if a.state.Active? && (a.expires <= now || a.session in over) then a.(state := CleanupPending) else a
  }

  /** What an expiry sweep does to the tables of a ledger. */
  ghost predicate SweptTables(l: Ledger, m: Ledger, now: nat) {
    var over, lapsed := OverSessions(l.sessions, now), LapsedSessions(l.sessions, now);
    && m == l.(sessions := m.sessions, requests := m.requests, grants := m.grants, artifacts := m.artifacts,
               revision := m.revision)
    && m.sessions.Keys == l.sessions.Keys
    && (forall s :: s in l.sessions ==> SweptSession(l.sessions[s], m.sessions[s], HasUndeleted(l.artifacts, s), now))
    && m.requests.Keys == l.requests.Keys
    && (forall q :: q in l.requests ==> SweptRequest(l.requests[q], m.requests[q], over, lapsed, now))
    && m.artifacts.Keys == l.artifacts.Keys
    && (forall a :: a in l.artifacts ==> SweptArtifact(l.artifacts[a], m.artifacts[a], over, now))
    && Revokes(l.grants, m.grants, GrantsWithin(l.grants, over))
  }

  /** And to its revision, which is raised exactly if a row changes. */
  ghost predicate Swept(l: Ledger, m: Ledger, now: nat) {
    && SweptTables(l, m, now)
    && m.revision == if m == l.(revision := m.revision) then l.revision else l.revision + 1
  }

  lemma PauseOne(l: Ledger, s: Id, now: nat)
    ensures var m := SuspendSession(l, s, now);
            && m == l.(sessions := m.sessions, requests := m.requests)
            && Pauses(l.sessions, m.sessions, {s}, now)
            && Voids(l.requests, m.requests, PromptsWithin(l.requests, {s}), Invalidated)
  {
    hide FinalizeSet;
    assert PendingIn(l, s) == PromptsWithin(l.requests, {s});
    StatementsAre(l, PendingIn(l, s), Invalidated);
  }

  lemma {:induction false} SuspendAllPauses(l: Ledger, ids: set<Id>, now: nat, n: nat)
    ensures var m := SuspendAll(l, ids, now, n);
            && m == l.(sessions := m.sessions, requests := m.requests)
            && Pauses(l.sessions, m.sessions, Below(ids, n), now)
            && Voids(l.requests, m.requests, PromptsWithin(l.requests, Below(ids, n)), Invalidated)
  {
    hide SuspendSession, Voids, Pauses, PromptsWithin, Below;
    if n == 0 {
      PausesNone(l, ids, now);
    } else {
      SuspendAllPauses(l, ids, now, n - 1);
      var m := SuspendAll(l, ids, now, n - 1);
      BelowMore(ids, n);
      if n - 1 in ids {
        PauseOne(m, n - 1, now);
        VoidsMore(l.requests, m.requests, SuspendSession(m, n - 1, now).requests, Below(ids, n - 1), n - 1);
        PausesMore(l.sessions, m.sessions, SuspendSession(m, n - 1, now).sessions, Below(ids, n - 1), n - 1, now);
      }
    }
  }

  lemma PausesNone(l: Ledger, ids: set<Id>, now: nat)
    ensures Pauses(l.sessions, l.sessions, Below(ids, 0), now)
    ensures Voids(l.requests, l.requests, PromptsWithin(l.requests, Below(ids, 0)), Invalidated)
  {
  }

  lemma BelowMore(ids: set<Id>, n: nat)
    requires n > 0
    ensures Below(ids, n) == if n - 1 in ids then Below(ids, n - 1) + {n - 1} else Below(ids, n - 1)
  {
  }

  lemma PausesMore(a: map<Id, SessionRow>, b: map<Id, SessionRow>, c: map<Id, SessionRow>, ids: set<Id>, s: Id,
                   now: nat)
    requires Pauses(a, b, ids, now) && Pauses(b, c, {s}, now)
    ensures Pauses(a, c, ids + {s}, now)
  {
  }

  lemma VoidsMore(a: map<Id, RequestRow>, b: map<Id, RequestRow>, c: map<Id, RequestRow>, ids: set<Id>, s: Id)
    requires Voids(a, b, PromptsWithin(a, ids), Invalidated) && Voids(b, c, PromptsWithin(b, {s}), Invalidated)
    ensures Voids(a, c, PromptsWithin(a, ids + {s}), Invalidated)
  {
  }

  lemma DueIs(sessions: map<Id, SessionRow>, now: nat)
    ensures CloseDue(sessions, now) == OverSessions(sessions, now)
    ensures SuspendDue(sessions, now) == LapsedSessions(sessions, now)
  {
  }

  lemma AllBelow(ids: set<Id>, n: Id)
    requires forall s :: s in ids ==> s < n
    ensures Below(ids, n) == ids
  {
  }

  lemma NamedAre(l: Ledger)
    requires Inv(l)
    ensures Settled(l.artifacts, l.sessions) && forall s :: s in l.sessions ==> s < l.next
  {
  }

  ghost function LateRequests(requests: map<Id, RequestRow>, now: nat): set<Id> {
    set q | q in requests && requests[q].state.Pending? && requests[q].deadline <= now
  }

  lemma RequestsAreSwept(a: map<Id, RequestRow>, b: map<Id, RequestRow>, c: map<Id, RequestRow>, d: map<Id, RequestRow>,
                         over: set<Id>, lapsed: set<Id>, now: nat)
    requires Voids(a, b, LateRequests(a, now), Expired) && Voids(b, c, PromptsWithin(b, over), Invalidated)
    requires Voids(c, d, PromptsWithin(c, lapsed), Invalidated)
    ensures d.Keys == a.Keys && forall q :: q in a ==> SweptRequest(a[q], d[q], over, lapsed, now)
  {
    forall q | q in a ensures SweptRequest(a[q], d[q], over, lapsed, now) {
    }
  }

  lemma SessionsAreSwept(a: map<Id, SessionRow>, b: map<Id, SessionRow>, c: map<Id, SessionRow>, now: nat,
                         artifacts: map<Id, Artifact>, later: map<Id, Artifact>, blocked: set<Id>)
    requires Pauses(CloseSet(a, OverSessions(a, now)), b, LapsedSessions(a, now), now) && Finishes(b, c, later)
    requires Settled(artifacts, a) && Blocks(artifacts, later, blocked)
    ensures c.Keys == a.Keys && forall s :: s in a ==> SweptSession(a[s], c[s], HasUndeleted(artifacts, s), now)
  {
    hide Blocks, HasUndeleted;
    forall s | s in a ensures SweptSession(a[s], c[s], HasUndeleted(artifacts, s), now) {
      BlockedWait(artifacts, later, blocked, s);
    }
  }

  lemma ArtifactsAreSwept(a: map<Id, Artifact>, b: map<Id, Artifact>, c: map<Id, Artifact>, gone: set<Id>,
                          over: set<Id>, now: nat)
    requires Blocks(a, b, ArtifactsWithin(a, over)) && Blocks(b, c, gone)
    requires gone == set x | x in b && b[x].state.Active? && b[x].expires <= now
    ensures c.Keys == a.Keys && forall x :: x in a ==> SweptArtifact(a[x], c[x], over, now)
  {
    forall x | x in a ensures SweptArtifact(a[x], c[x], over, now) {
    }
  }

  lemma BlocksTwice(a: map<Id, Artifact>, b: map<Id, Artifact>, c: map<Id, Artifact>, x: set<Id>, y: set<Id>)
    requires Blocks(a, b, x) && Blocks(b, c, y)
    ensures Blocks(a, c, x + y)
  {
  }

  lemma LateIs(l: Ledger, now: nat)
    ensures ExpiredRequests(l, now) == LateRequests(l.requests, now)
    ensures ExpiredArtifacts(l, now) ==
            set x | x in l.artifacts && l.artifacts[x].state.Active? && l.artifacts[x].expires <= now
  {
  }

  // the sweep in three parts

  function Lated(l: Ledger, now: nat): Ledger {
    l.(requests := FinalizeSet(l.requests, ExpiredRequests(l, now), Expired))
  }

  function Shut(l: Ledger, now: nat): Ledger {
    CloseAll(Lated(l, now), CloseDue(l.sessions, now), l.next)
  }

  function Rested(l: Ledger, now: nat): Ledger {
    SuspendAll(Shut(l, now), SuspendDue(l.sessions, now), now, l.next)
  }

  lemma ExpireIs(l: Ledger, now: nat)
    ensures var p := Rested(l, now);
            var m := FinishCleanup(p.(artifacts := BlockSet(p.artifacts, ExpiredArtifacts(p, now))));
            Expire(l, now) ==
              if ExpiredRequests(l, now) != {} || CloseDue(l.sessions, now) != {} || SuspendDue(l.sessions, now) != {}
                 || ExpiredArtifacts(p, now) != {}
              then Bump(m) else m
  {
    hide FinalizeSet, BlockSet, ExpiredRequests, ExpiredArtifacts, CloseDue, SuspendDue, CloseAll, SuspendAll;
    hide FinishCleanup;
  }

  lemma ShutIs(l: Ledger, now: nat)
    requires Inv(l)
    ensures var k, over := Shut(l, now), OverSessions(l.sessions, now);
            && k == l.(sessions := CloseSet(l.sessions, over), grants := k.grants, artifacts := k.artifacts,
                       requests := k.requests)
            && Revokes(l.grants, k.grants, GrantsWithin(l.grants, over))
            && Blocks(l.artifacts, k.artifacts, ArtifactsWithin(l.artifacts, over))
            && Voids(l.requests, Lated(l, now).requests, LateRequests(l.requests, now), Expired)
            && Voids(Lated(l, now).requests, k.requests, PromptsWithin(Lated(l, now).requests, over), Invalidated)
  {
    hide Inv, CloseAll, FinalizeSet, BlockSet, RevokeSet, CloseSet, CloseDue, SuspendDue, ExpiredRequests;
    hide ExpiredArtifacts, Voids, Blocks, Revokes, Settled, GrantsWithin, PromptsWithin, ArtifactsWithin, LateRequests;
    hide OverSessions, LapsedSessions, SessionGrantsAny, ArtifactsInAny, PendingInAny, Below;
    NamedAre(l);
    DueIs(l.sessions, now);
    LateIs(l, now);
    StatementsAre(l, ExpiredRequests(l, now), Expired);
    var over, l1 := OverSessions(l.sessions, now), Lated(l, now);
    OverAreNamed(l, now);
    AllBelow(over, l.next);
    CloseAllIsMany(l1, over, l.next);
    CloseSets(l1, over);
    StatementsAre(l1, SessionGrantsAny(l1, over), Invalidated);
    StatementsAre(l1, ArtifactsInAny(l1, over), Invalidated);
    StatementsAre(l1, PendingInAny(l1, over), Invalidated);
  }

  lemma RestedIs(l: Ledger, now: nat)
    requires Inv(l)
    ensures var k, p, lapsed := Shut(l, now), Rested(l, now), LapsedSessions(l.sessions, now);
            && p == k.(sessions := p.sessions, requests := p.requests)
            && Pauses(k.sessions, p.sessions, lapsed, now)
            && Voids(k.requests, p.requests, PromptsWithin(k.requests, lapsed), Invalidated)
  {
    hide Inv, Shut, SuspendAll, CloseDue, SuspendDue, Voids, Pauses, PromptsWithin, OverSessions, LapsedSessions, Below;
    hide Settled;
    NamedAre(l);
    DueIs(l.sessions, now);
    OverAreNamed(l, now);
    AllBelow(LapsedSessions(l.sessions, now), l.next);
    SuspendAllPauses(Shut(l, now), LapsedSessions(l.sessions, now), now, l.next);
  }

  /** All but the revision. */
  lemma TablesAreSwept(l: Ledger, now: nat)
    requires Inv(l)
    ensures SweptTables(l, Expire(l, now), now)
  {
    hide Inv, Shut, Rested, Lated, Expire, FinishCleanup, BlockSet, CloseSet, ExpiredRequests, CloseDue, SuspendDue;
    hide Voids, Blocks, Revokes, Pauses, Finishes, Settled, HasUndeleted, GrantsWithin, ExpiredArtifacts;
    hide PromptsWithin, ArtifactsWithin, LateRequests, OverSessions, LapsedSessions;
    hide SweptRequest, SweptSession, SweptArtifact;
    NamedAre(l);
    ExpireIs(l, now);
    ShutIs(l, now);
    RestedIs(l, now);
    var over, lapsed := OverSessions(l.sessions, now), LapsedSessions(l.sessions, now);
    var k, p := Shut(l, now), Rested(l, now);
    RequestsAreSwept(l.requests, Lated(l, now).requests, k.requests, p.requests, over, lapsed, now);
    LateIs(p, now);
    var gone := ExpiredArtifacts(p, now);
    StatementsAre(p, gone, Expired);
    var l3 := p.(artifacts := BlockSet(p.artifacts, gone));
    ArtifactsAreSwept(l.artifacts, k.artifacts, l3.artifacts, gone, over, now);
    BlocksTwice(l.artifacts, k.artifacts, l3.artifacts, ArtifactsWithin(l.artifacts, over), gone);
    FinishIs(l3);
    SessionsAreSwept(l.sessions, p.sessions, FinishCleanup(l3).sessions, now, l.artifacts, l3.artifacts,
                     ArtifactsWithin(l.artifacts, over) + gone);
  }

  lemma OverAreNamed(l: Ledger, now: nat)
    requires forall s :: s in l.sessions ==> s < l.next
    ensures forall s :: s in OverSessions(l.sessions, now) ==> s < l.next
    ensures forall s :: s in LapsedSessions(l.sessions, now) ==> s < l.next
  {
  }

  /** The expiry sweep, table by table. */
  lemma ExpireSweeps(l: Ledger, now: nat)
    requires Inv(l)
    ensures Swept(l, Expire(l, now), now)
  {
    hide Inv, Expire, SweptTables;
    TablesAreSwept(l, now);
    SweepRevision(l, now);
  }

  lemma SweepRevision(l: Ledger, now: nat)
    requires Inv(l)
    ensures var m := Expire(l, now);
            m.revision == if m == l.(revision := m.revision) then l.revision else l.revision + 1
  {
    hide Inv, Shut, Rested, FinishCleanup, BlockSet, CloseSet, ExpiredRequests, CloseDue, SuspendDue, Expire;
    hide Voids, Blocks, Revokes, Pauses, Finishes, HasUndeleted, GrantsWithin, ExpiredArtifacts, SweptTables;
    hide PromptsWithin, ArtifactsWithin, LateRequests, OverSessions, LapsedSessions;
    ExpireHonest(l, now);
    TablesAreSwept(l, now);
    ExpireIs(l, now);
    ShutIs(l, now);
    RestedIs(l, now);
    var p := Rested(l, now);
    FinishIs(p.(artifacts := BlockSet(p.artifacts, ExpiredArtifacts(p, now))));
    LateIs(l, now);
    GoneIs(p, now);
    DueIs(l.sessions, now);
    if Expire(l, now).revision != l.revision { ChangedIfDue(l, Shut(l, now).artifacts, Expire(l, now), now); }
  }

  lemma GoneIs(l: Ledger, now: nat)
    ensures ExpiredArtifacts(l, now) != {} <==>
              exists x :: x in l.artifacts && l.artifacts[x].state.Active? && l.artifacts[x].expires <= now
  {
    if x :| x in l.artifacts && l.artifacts[x].state.Active? && l.artifacts[x].expires <= now {
      assert x in ExpiredArtifacts(l, now);
    }
  }

  lemma ChangedIfDue(l: Ledger, artifacts: map<Id, Artifact>, m: Ledger, now: nat)
    requires SweptTables(l, m, now)
    requires Blocks(l.artifacts, artifacts, ArtifactsWithin(l.artifacts, OverSessions(l.sessions, now)))
    requires || LateRequests(l.requests, now) != {} || OverSessions(l.sessions, now) != {}
             || LapsedSessions(l.sessions, now) != {}
             || exists x :: x in artifacts && artifacts[x].state.Active? && artifacts[x].expires <= now
    ensures m != l.(revision := m.revision)
  {
    hide HasUndeleted, Revokes, LateRequests, OverSessions, LapsedSessions, SweptRequest, SweptSession, SweptArtifact;
    hide Blocks, ArtifactsWithin;
    var over, lapsed := OverSessions(l.sessions, now), LapsedSessions(l.sessions, now);
    if q :| q in LateRequests(l.requests, now) {
      LateChanges(l.requests, q, over, lapsed, now);
    } else if s :| s in over || s in lapsed {
      OverChanges(l.sessions, s, now);
    } else {
      var x :| x in artifacts && artifacts[x].state.Active? && artifacts[x].expires <= now;
      BlockedActive(l.artifacts, artifacts, ArtifactsWithin(l.artifacts, over), x);
      GoneChanges(l.artifacts[x], m.artifacts[x], over, now);
    }
  }

  lemma LateChanges(a: map<Id, RequestRow>, q: Id, over: set<Id>, lapsed: set<Id>, now: nat)
    requires q in LateRequests(a, now)
    ensures q in a && forall b :: SweptRequest(a[q], b, over, lapsed, now) ==> b != a[q]
  {
  }

  lemma OverChanges(a: map<Id, SessionRow>, s: Id, now: nat)
    requires s in OverSessions(a, now) || s in LapsedSessions(a, now)
    ensures s in a && forall b, waits :: SweptSession(a[s], b, waits, now) ==> b != a[s]
  {
  }

  lemma GoneChanges(a: Artifact, b: Artifact, over: set<Id>, now: nat)
    requires a.state.Active? && a.expires <= now && SweptArtifact(a, b, over, now)
    ensures b != a
  {
  }

  lemma BlockedActive(a: map<Id, Artifact>, b: map<Id, Artifact>, ids: set<Id>, x: Id)
    requires Blocks(a, b, ids) && x in b && b[x].state.Active?
    ensures x in a && a[x] == b[x]
  {
  }
}
