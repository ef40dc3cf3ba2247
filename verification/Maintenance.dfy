/** Repeated compaction reaches a fixpoint, and only one. */
module Maintenance {
  import opened Types
  import opened Ledger
  import opened Daemon
  import opened Invariants
  import opened Compaction

  const MAINTENANCE_LIMIT: nat := 128

  ghost predicate Idle(l: Ledger) {
    forall x :: !Clearable(l, x)
  }

  // ----- what is left to clear -----

  ghost function StaleReceipts(receipts: map<Id, Receipt>): set<Id> {
    set r | r in receipts && !receipts[r].valid && (receipts[r].payload.Some? || receipts[r].sources != {})
  }

  ghost function StaleRequests(requests: map<Id, RequestRow>): set<Id> {
    set q | q in requests && Terminal(requests[q])
            && (requests[q].token.Some? || requests[q].uiOwner != "" || requests[q].uiInstance != "")
  }

  ghost function StaleSessions(sessions: map<Id, SessionRow>): set<Id> {
    set s | s in sessions && sessions[s].state.Closed? && sessions[s].proof.Some?
  }

  /** The grants that will be clearable once the invalid receipts on them are cleared. */
  ghost function DeadGrants(l: Ledger): set<Id> {
    set g | g in l.grants && l.grants[g].revoked && !Needed(l.receipts, l.artifacts, g)
  }

  /** The number of records that compaction will clear in the end. */
  ghost function Weight(l: Ledger): nat {
    |StaleReceipts(l.receipts)| + |StaleRequests(l.requests)| + |StaleSessions(l.sessions)| + |DeadGrants(l)|
  }

  lemma HollowNeeds(receipts: map<Id, Receipt>, artifacts: map<Id, Artifact>, r: Id, g: Id)
    requires r in receipts && !receipts[r].valid
    ensures Needed(receipts[r := Hollow(receipts[r])], artifacts, g) == Needed(receipts, artifacts, g)
  {
    var rr := receipts[r := Hollow(receipts[r])];
    if exists q :: q in rr && rr[q].valid && g in rr[q].sources {
      var q :| q in rr && rr[q].valid && g in rr[q].sources;
      assert q in receipts && receipts[q].valid && g in receipts[q].sources;
    }
    if exists q :: q in receipts && receipts[q].valid && g in receipts[q].sources {
      var q :| q in receipts && receipts[q].valid && g in receipts[q].sources;
      assert q in rr && rr[q].valid && g in rr[q].sources;
    }
  }

  lemma ClearReceiptWeight(l: Ledger, r: Id)
    requires Clearable(l, ReceiptRecord(r))
    ensures var rr := l.receipts[r := Hollow(l.receipts[r])];
            && StaleReceipts(l.receipts) == StaleReceipts(rr) + {r} && r !in StaleReceipts(rr)
            && DeadGrants(l.(receipts := rr)) == DeadGrants(l)
  {
    hide Needed;
    forall g
      ensures Needed(l.receipts[r := Hollow(l.receipts[r])], l.artifacts, g) == Needed(l.receipts, l.artifacts, g)
    {
      HollowNeeds(l.receipts, l.artifacts, r, g);
    }
  }

  lemma ClearGrantWeight(l: Ledger, g: Id)
    requires Clearable(l, GrantRecord(g))
    ensures var m := l.(grants := l.grants - {g});
            DeadGrants(l) == DeadGrants(m) + {g} && g !in DeadGrants(m)
  {
    hide Needed;
    UnreferencedUnneeded(l, g);
  }

  lemma ClearRequestWeight(l: Ledger, q: Id)
    requires Clearable(l, RequestRecord(q))
    ensures var qq := l.requests[q := Blank(l.requests[q])];
            StaleRequests(l.requests) == StaleRequests(qq) + {q} && q !in StaleRequests(qq)
  {
    hide Referenced;
  }

  lemma ClearSessionWeight(l: Ledger, s: Id)
    requires Clearable(l, SessionRecord(s))
    ensures var ss := l.sessions[s := Unproved(l.sessions[s])];
            StaleSessions(l.sessions) == StaleSessions(ss) + {s} && s !in StaleSessions(ss)
  {
    hide Referenced;
  }

  /** Clearing a record leaves one less to clear, although it may make a grant clearable. */
  lemma ClearWeighs(l: Ledger, x: Record)
    requires Clearable(l, x)
    ensures Weight(Clear(l, x)) == Weight(l) - 1
  {
    hide Needed, Referenced, StaleReceipts, StaleRequests, StaleSessions, Hollow, Blank, Unproved;
    match x
    case ReceiptRecord(r) => ClearReceiptWeight(l, r);
    case RequestRecord(q) =>
      ClearRequestWeight(l, q);
      assert DeadGrants(Clear(l, x)) == DeadGrants(l);
    case SessionRecord(s) =>
      ClearSessionWeight(l, s);
      assert DeadGrants(Clear(l, x)) == DeadGrants(l);
    case GrantRecord(g) => ClearGrantWeight(l, g);
  }

  lemma IdleSets(l: Ledger)
    requires Idle(l)
    ensures StaleReceipts(l.receipts) == {} && StaleRequests(l.requests) == {} && StaleSessions(l.sessions) == {}
  {
    hide Referenced;
    forall r ensures r !in StaleReceipts(l.receipts) { assert !Clearable(l, ReceiptRecord(r)); }
    forall q ensures q !in StaleRequests(l.requests) { assert !Clearable(l, RequestRecord(q)); }
    forall s ensures s !in StaleSessions(l.sessions) { assert !Clearable(l, SessionRecord(s)); }
  }

  lemma IdleGrants(l: Ledger, g: Id)
    requires Idle(l)
    ensures g !in DeadGrants(l)
  {
    assert !Clearable(l, GrantRecord(g));
    if g in l.grants && l.grants[g].revoked && !(exists a :: a in l.artifacts && g in l.artifacts[a].sources) {
      assert Referenced(l, g);
      var r :| r in l.receipts && g in l.receipts[r].sources;
      assert !Clearable(l, ReceiptRecord(r));
      assert l.receipts[r].valid;
    }
  }

  /** Nothing is clearable exactly when nothing is left to clear. */
  lemma IdleIsWeightless(l: Ledger)
    ensures Idle(l) <==> Weight(l) == 0
  {
    if Idle(l) {
      IdleSets(l);
      forall g ensures g !in DeadGrants(l) { IdleGrants(l, g); }
      assert DeadGrants(l) == {};
    }
    if !Idle(l) {
      var x :| Clearable(l, x);
      ClearWeighs(l, x);
    }
  }

  // ----- batches -----

  /** Every record of a batch was clearable when it was cleared. */
  ghost predicate Effective(l: Ledger, records: seq<Record>) {
    forall i :: 0 <= i < |records| ==> Clearable(ClearAll(l, records[..i]), records[i])
  }

  /** What one maintenance run does: at most the shared budget of records, each of them
      effective, and nothing only where nothing can be cleared. */
  ghost predicate Batch(l: Ledger, m: Ledger, records: seq<Record>) {
    && |records| <= MAINTENANCE_LIMIT
    && m == ClearAll(l, records)
    && Effective(l, records)
    && (records == [] ==> Idle(l))
  }

  lemma {:induction false} EffectiveWeighs(l: Ledger, records: seq<Record>)
    requires Effective(l, records)
    ensures Weight(ClearAll(l, records)) == Weight(l) - |records|
  {
    hide Clearable, Clear, Weight;
    if records != [] {
      var n := |records| - 1;
      assert Effective(l, records[..n]) by {
        forall i | 0 <= i < n ensures Clearable(ClearAll(l, records[..n][..i]), records[..n][i]) {
          assert records[..n][..i] == records[..i];
          assert Clearable(ClearAll(l, records[..i]), records[i]);
        }
      }
      EffectiveWeighs(l, records[..n]);
      assert Clearable(ClearAll(l, records[..n]), records[n]);
      ClearWeighs(ClearAll(l, records[..n]), records[n]);
    }
  }

  /** A history of maintenance runs with no other activity. */
  ghost predicate Batches(states: seq<Ledger>, batches: seq<seq<Record>>) {
    && |states| == |batches| + 1
    && forall i :: 0 <= i < |batches| ==> Batch(states[i], states[i + 1], batches[i])
  }

  /** Each run but those on an idle ledger makes progress, so that enough of them leave nothing
      to clear; and the ledger they leave differs from the first only in what was cleared. */
  lemma {:induction false} BatchesReachFixpoint(states: seq<Ledger>, batches: seq<seq<Record>>)
    requires Batches(states, batches)
    ensures Like(states[0], states[|batches|])
    ensures Weight(states[|batches|]) <= Weight(states[0])
    ensures |batches| >= Weight(states[0]) ==> Idle(states[|batches|])
    ensures Idle(states[|batches|]) || Weight(states[|batches|]) + |batches| <= Weight(states[0])
  {
    hide Like, Weight, Idle, ClearAll, Effective;
    var n := |batches|;
    IdleIsWeightless(states[n]);
    if n == 0 {
      LikeSame(states[0]);
    } else {
      BatchesReachFixpoint(states[..n], batches[..n - 1]);
      IdleIsWeightless(states[n - 1]);
      assert Batch(states[n - 1], states[n], batches[n - 1]);
      EffectiveWeighs(states[n - 1], batches[n - 1]);
      ClearAllLike(states[n - 1], batches[n - 1]);
      LikeTransitive(states[0], states[n - 1], states[n]);
    }
  }

  lemma IdleGrantsMatter(l: Ledger, g: Id)
    requires Idle(l) && g in l.grants
    ensures Matters(l.grants, l.receipts, l.artifacts, g)
  {
    hide Needed, Idle;
    IdleGrants(l, g);
  }

  /** The fixpoint does not depend on what was cleared when: ledgers that are alike and have
      nothing left to clear are equal. */
  lemma FixpointIsUnique(l: Ledger, k: Ledger)
    requires Inv(l) && Inv(k) && Like(l, k) && Idle(l) && Idle(k)
    ensures l == k
  {
    hide Needed, Inv, Idle, SessionsLike, RequestsLike, ReceiptsLike, GrantsLike;
    IdleSets(l);
    IdleSets(k);
    TidyAll(l);
    TidyAll(k);
    assert l.receipts == k.receipts by { IdleReceipts(l, k); }
    assert l.requests == k.requests by { IdleRequests(l, k); }
    assert l.sessions == k.sessions by { IdleSessions(l, k); }
    assert l.grants == k.grants by { SameIdleGrants(l, k); }
  }

  lemma TidyAll(l: Ledger)
    requires Inv(l)
    ensures forall q :: q in l.requests ==> Tidy(l.requests[q])
  {
  }

  lemma IdleReceipts(l: Ledger, k: Ledger)
    requires Like(l, k) && StaleReceipts(l.receipts) == {} && StaleReceipts(k.receipts) == {}
    ensures l.receipts == k.receipts
  {
    hide SessionsLike, RequestsLike, GrantsLike;
    forall r | r in l.receipts ensures l.receipts[r] == k.receipts[r] {
      assert ReceiptLike(l.receipts[r], k.receipts[r]);
      assert r !in StaleReceipts(l.receipts) && r !in StaleReceipts(k.receipts);
    }
  }

  lemma IdleRequests(l: Ledger, k: Ledger)
    requires Like(l, k) && StaleRequests(l.requests) == {} && StaleRequests(k.requests) == {}
    requires forall q :: q in l.requests && q in k.requests ==> Tidy(l.requests[q]) && Tidy(k.requests[q])
    ensures l.requests == k.requests
  {
    hide SessionsLike, ReceiptsLike, GrantsLike;
    forall q | q in l.requests ensures l.requests[q] == k.requests[q] {
      assert RequestLike(l.requests[q], k.requests[q]);
      assert q !in StaleRequests(l.requests) && q !in StaleRequests(k.requests);
    }
  }

  lemma IdleSessions(l: Ledger, k: Ledger)
    requires Like(l, k) && StaleSessions(l.sessions) == {} && StaleSessions(k.sessions) == {}
    ensures l.sessions == k.sessions
  {
    hide RequestsLike, ReceiptsLike, GrantsLike;
    forall s | s in l.sessions ensures l.sessions[s] == k.sessions[s] {
      assert SessionLike(l.sessions[s], k.sessions[s]);
      assert s !in StaleSessions(l.sessions) && s !in StaleSessions(k.sessions);
    }
  }

  lemma SameIdleGrants(l: Ledger, k: Ledger)
    requires Like(l, k) && Idle(l) && Idle(k)
    ensures l.grants == k.grants
  {
    hide Like, Idle, Matters;
    LikeSymmetric(l, k);
    forall g | g in l.grants ensures g in k.grants && k.grants[g] == l.grants[g] {
      IdleGrantsMatter(l, g);
      MattersAlike(l, k, g);
    }
    forall g | g in k.grants ensures g in l.grants {
      IdleGrantsMatter(k, g);
      MattersAlike(k, l, g);
    }
  }
}
