/** Every transaction keeps the invariants of the ledger. */
module Preservation {
  import opened Types
  import opened Ledger
  import opened Operations
  import opened Invariants

  // ----- changes to one table -----

  lemma RequestsKeep(l: Ledger, requests: map<Id, RequestRow>, next: Id)
    requires Core(l) && l.next <= next && forall q :: q in requests ==> q < next && Tidy(requests[q])
    ensures Core(l.(requests := requests, next := next))
  {
  }

  /** The rows of `ss` keep their context, stay live under resident artifacts, and are closed
      only over deleted ones. */
  ghost predicate SessionsFit(l: Ledger, ss: map<Id, SessionRow>) {
    && (forall s :: s in l.sessions ==>
          s in ss && ss[s].subject == l.sessions[s].subject && ss[s].profile == l.sessions[s].profile)
    && (forall a :: a in l.artifacts && l.artifacts[a].session in ss ==>
          && (l.artifacts[a].state.Active? ==> Live(ss[l.artifacts[a].session]))
          && (ss[l.artifacts[a].session].state.Closed? ==> l.artifacts[a].state.Deleted?))
  }

  lemma HeldSessions(l: Ledger, ss: map<Id, SessionRow>)
    requires Held(l.artifacts, l.grants, l.sessions) && Homed(l.artifacts, l.sessions) && SessionsFit(l, ss)
    ensures Held(l.artifacts, l.grants, ss)
  {
    forall a, g | a in l.artifacts && g in l.artifacts[a].sources && g in l.grants && l.artifacts[a].session in ss
      ensures Matches(ss[l.artifacts[a].session], l.artifacts[a].session, l.grants[g])
    {
      assert Matches(l.sessions[l.artifacts[a].session], l.artifacts[a].session, l.grants[g]);
    }
  }

  lemma SessionsKeep(l: Ledger, ss: map<Id, SessionRow>, next: Id)
    requires Core(l) && SessionsFit(l, ss) && l.next <= next && forall s :: s in ss ==> s < next
    ensures Core(l.(sessions := ss, next := next))
  {
    HeldSessions(l, ss);
    assert Homed(l.artifacts, ss);
    assert Placed(l.receipts, ss);
  }

  lemma BumpKeeps(l: Ledger)
    ensures Core(l) ==> Core(Bump(l))
    ensures Settled(l.artifacts, l.sessions) ==> Settled(Bump(l).artifacts, Bump(l).sessions)
  {
  }

  // ----- CloseSession, SuspendSession, FinishCleanup -----

  lemma SessionGrantsCaught(l: Ledger, s: Id)
    requires Core(l)
    ensures CatchesGrants(l.artifacts, SessionGrants(l, s), ArtifactsIn(l, s))
  {
    forall a, g | a in l.artifacts && l.artifacts[a].state.Active? && g in l.artifacts[a].sources
        && g in SessionGrants(l, s)
      ensures a in ArtifactsIn(l, s)
    {
      assert Matches(l.sessions[l.artifacts[a].session], l.artifacts[a].session, l.grants[g]);
    }
  }

  lemma NoReceiptsCaught(artifacts: map<Id, Artifact>, xs: set<Id>)
    ensures CatchesReceipts(artifacts, {}, xs)
  {
  }

  lemma InvalidateNone(receipts: map<Id, Receipt>)
    ensures InvalidateSet(receipts, {}) == receipts
  {
  }

  lemma CloseFits(l: Ledger, s: Id)
    requires Core(l)
    ensures SessionsFit(l.(artifacts := BlockSet(l.artifacts, ArtifactsIn(l, s))), CloseSet(l.sessions, {s}))
    ensures forall k :: k in CloseSet(l.sessions, {s}) ==> k < l.next
  {
    CloseFits0(l.artifacts, l.sessions, s);
  }

  lemma CloseFits0(artifacts: map<Id, Artifact>, sessions: map<Id, SessionRow>, s: Id)
    requires Homed(artifacts, sessions)
    ensures var ss := CloseSet(sessions, {s});
            var aa := BlockSet(artifacts, set a | a in artifacts && artifacts[a].session == s);
            forall a :: a in aa && aa[a].session in ss ==>
              && (aa[a].state.Active? ==> Live(ss[aa[a].session]))
              && (ss[aa[a].session].state.Closed? ==> aa[a].state.Deleted?)
  {
  }

  lemma FinalizeNames(l: Ledger, ids: set<Id>, state: RequestState)
    requires Core(l)
    ensures forall q :: q in FinalizeSet(l.requests, ids, state) ==>
              q < l.next && Tidy(FinalizeSet(l.requests, ids, state)[q])
  {
  }

  lemma CloseSessionKeeps(l: Ledger, s: Id)
    requires Core(l)
    ensures Core(CloseSession(l, s))
  {
    hide Core, CatchesGrants, SessionsFit, RevokeSet, BlockSet, CloseSet, FinalizeSet, InvalidateSet, SessionGrants;
    hide ArtifactsIn, PendingIn;
    var m := Retire(l, SessionGrants(l, s), {}, ArtifactsIn(l, s));
    var ss := CloseSet(l.sessions, {s});
    var qs := FinalizeSet(l.requests, PendingIn(l, s), Invalidated);
    SessionGrantsCaught(l, s);
    NoReceiptsCaught(l.artifacts, ArtifactsIn(l, s));
    RetireKeeps(l, SessionGrants(l, s), {}, ArtifactsIn(l, s));
    CloseFits(l, s);
    FinalizeNames(l, PendingIn(l, s), Invalidated);
    InvalidateNone(l.receipts);
    assert m.artifacts == BlockSet(l.artifacts, ArtifactsIn(l, s));
    SessionsKeep(m, ss, m.next);
    RequestsKeep(m.(sessions := ss), qs, m.next);
    assert m.(sessions := ss, requests := qs) == CloseSession(l, s);
  }

  lemma SuspendFits(l: Ledger, s: Id, now: nat)
    requires Homed(l.artifacts, l.sessions)
    ensures SessionsFit(l, SuspendSession(l, s, now).sessions)
  {
  }

  lemma SuspendSessionKeeps(l: Ledger, s: Id, now: nat)
    requires Core(l)
    ensures Core(SuspendSession(l, s, now))
  {
    var ss := SuspendSession(l, s, now).sessions;
    SuspendFits(l, s, now);
    FinalizeNames(l, PendingIn(l, s), Invalidated);
    assert forall k :: k in ss ==> k < l.next;
    hide Core, FinalizeSet, PendingIn, SessionsFit;
    SessionsKeep(l, ss, l.next);
    RequestsKeep(l.(sessions := ss), FinalizeSet(l.requests, PendingIn(l, s), Invalidated), l.next);
  }

  lemma FinishSettles(l: Ledger)
    ensures Settled(FinishCleanup(l).artifacts, FinishCleanup(l).sessions)
  {
    var m := FinishCleanup(l);
    forall s | s in m.sessions && m.sessions[s].state.Closing? ensures HasUndeleted(m.artifacts, s) {
      assert UndeletedIn(l, s) != {};
      var a :| a in UndeletedIn(l, s);
    }
  }

  lemma FinishFits(l: Ledger)
    requires Homed(l.artifacts, l.sessions)
    ensures SessionsFit(l, FinishCleanup(l).sessions)
  {
    var ss := FinishCleanup(l).sessions;
    forall a | a in l.artifacts && ss[l.artifacts[a].session].state.Closed? ensures l.artifacts[a].state.Deleted? {
      assert !l.artifacts[a].state.Deleted? ==> a in UndeletedIn(l, l.artifacts[a].session);
    }
  }

  lemma FinishCleanupKeeps(l: Ledger)
    requires Core(l)
    ensures Inv(FinishCleanup(l))
  {
    FinishSettles(l);
    FinishFits(l);
    var ss := FinishCleanup(l).sessions;
    assert forall k :: k in ss ==> k < l.next;
    hide Core, SessionsFit;
    SessionsKeep(l, ss, l.next);
  }

  lemma {:induction false} CloseAllKeeps(l: Ledger, ids: set<Id>, n: nat)
    requires Core(l)
    ensures Core(CloseAll(l, ids, n))
  {
    hide Core, CloseSession;
    if n != 0 {
      CloseAllKeeps(l, ids, n - 1);
      CloseSessionKeeps(CloseAll(l, ids, n - 1), n - 1);
    }
  }

  lemma {:induction false} SuspendAllKeeps(l: Ledger, ids: set<Id>, now: nat, n: nat)
    requires Core(l)
    ensures Core(SuspendAll(l, ids, now, n))
  {
    hide Core, SuspendSession;
    if n != 0 {
      SuspendAllKeeps(l, ids, now, n - 1);
      SuspendSessionKeeps(SuspendAll(l, ids, now, n - 1), n - 1, now);
    }
  }

  lemma BlockKeeps(l: Ledger, xs: set<Id>)
    requires Core(l)
    ensures Core(l.(artifacts := BlockSet(l.artifacts, xs)))
  {
    RetireKeeps(l, {}, {}, xs);
    InvalidateNone(l.receipts);
    assert RevokeSet(l.grants, {}) == l.grants;
    assert Retire(l, {}, {}, xs) == l.(artifacts := BlockSet(l.artifacts, xs));
  }

  lemma ExpireKeeps(l: Ledger, now: nat)
    requires Core(l)
    ensures Inv(Expire(l, now))
  {
    var l1 := l.(requests := FinalizeSet(l.requests, ExpiredRequests(l, now), Expired));
    RequestsKeep(l, l1.requests, l.next);
    var close, suspend := CloseDue(l1.sessions, now), SuspendDue(l1.sessions, now);
    CloseAllKeeps(l1, close, l1.next);
    var m := CloseAll(l1, close, l1.next);
    SuspendAllKeeps(m, suspend, now, l1.next);
    var l2 := SuspendAll(m, suspend, now, l1.next);
    BlockKeeps(l2, ExpiredArtifacts(l2, now));
    var l3 := l2.(artifacts := BlockSet(l2.artifacts, ExpiredArtifacts(l2, now)));
    FinishCleanupKeeps(l3);
    BumpKeeps(FinishCleanup(l3));
  }
}
