/** Clearing metadata changes no later answer. Two ledgers are alike when they differ at most in
    what compaction may clear; every transaction answers alike on both and keeps them alike. */
module Compaction {
  import opened Types
  import opened Ledger
  import opened Conditions
  import opened Operations
  import opened Daemon
  import opened Invariants
  import opened Preservation
  import opened Transactions
  import opened Verdicts
  import opened Runs
  import opened Progress
  import R = Registry

  // ----- the relation -----

  ghost predicate SessionLike(a: SessionRow, b: SessionRow) {
    a == b || (a.state.Closed? && Unproved(a) == Unproved(b))
  }

  ghost predicate RequestLike(a: RequestRow, b: RequestRow) {
    a == b || (Terminal(a) && Blank(a) == Blank(b))
  }

  ghost predicate ReceiptLike(a: Receipt, b: Receipt) {
    a == b || (!a.valid && Hollow(a) == Hollow(b))
  }

  /** A valid receipt or an artifact rests on grant `g`. */
  ghost predicate Needed(receipts: map<Id, Receipt>, artifacts: map<Id, Artifact>, g: Id) {
    || (exists r :: r in receipts && receipts[r].valid && g in receipts[r].sources)
    || (exists a :: a in artifacts && g in artifacts[a].sources)
  }

  ghost predicate SessionsLike(a: map<Id, SessionRow>, b: map<Id, SessionRow>) {
    a.Keys == b.Keys && forall s :: s in a ==> SessionLike(a[s], b[s])
  }

  ghost predicate RequestsLike(a: map<Id, RequestRow>, b: map<Id, RequestRow>) {
    a.Keys == b.Keys && forall q :: q in a ==> RequestLike(a[q], b[q])
  }

  ghost predicate ReceiptsLike(a: map<Id, Receipt>, b: map<Id, Receipt>) {
    a.Keys == b.Keys && forall r :: r in a ==> ReceiptLike(a[r], b[r])
  }

  /** A grant in force, or one that something rests on. */
  ghost predicate Matters(grants: map<Id, Grant>, receipts: map<Id, Receipt>, artifacts: map<Id, Artifact>, g: Id) {
    g in grants && (!grants[g].revoked || Needed(receipts, artifacts, g))
  }

  ghost predicate GrantsLike(a: map<Id, Grant>, b: map<Id, Grant>, receipts: map<Id, Receipt>, artifacts: map<Id,
                             Artifact>) {
    forall g :: Matters(a, receipts, artifacts, g) || Matters(b, receipts, artifacts, g) ==>
      g in a && g in b && a[g] == b[g]
  }

  ghost predicate Like(l: Ledger, k: Ledger) {
    && l == k.(sessions := l.sessions, requests := l.requests, receipts := l.receipts, grants := l.grants)
    && SessionsLike(l.sessions, k.sessions)
    && RequestsLike(l.requests, k.requests)
    && ReceiptsLike(l.receipts, k.receipts)
    && GrantsLike(l.grants, k.grants, l.receipts, l.artifacts)
  }

  lemma NeededAlike(l: Ledger, k: Ledger, g: Id)
    requires ReceiptsLike(l.receipts, k.receipts)
    ensures Needed(l.receipts, l.artifacts, g) == Needed(k.receipts, l.artifacts, g)
  {
    if exists r :: r in l.receipts && l.receipts[r].valid && g in l.receipts[r].sources {
      var r :| r in l.receipts && l.receipts[r].valid && g in l.receipts[r].sources;
      assert k.receipts[r] == l.receipts[r];
    }
    if exists r :: r in k.receipts && k.receipts[r].valid && g in k.receipts[r].sources {
      var r :| r in k.receipts && k.receipts[r].valid && g in k.receipts[r].sources;
      assert ReceiptLike(l.receipts[r], k.receipts[r]);
    }
  }

  lemma LikeSame(l: Ledger)
    ensures Like(l, l)
  {
  }

  lemma LikeSymmetric(l: Ledger, k: Ledger)
    requires Like(l, k)
    ensures Like(k, l)
  {
    hide Needed;
    forall g ensures Needed(l.receipts, l.artifacts, g) == Needed(k.receipts, k.artifacts, g) {
      NeededAlike(l, k, g);
    }
  }

  lemma LikeTransitive(l: Ledger, k: Ledger, m: Ledger)
    requires Like(l, k) && Like(k, m)
    ensures Like(l, m)
  {
    hide Needed;
    forall g ensures Needed(l.receipts, l.artifacts, g) == Needed(k.receipts, k.artifacts, g) {
      NeededAlike(l, k, g);
    }
    assert SessionsLike(l.sessions, m.sessions);
    assert RequestsLike(l.requests, m.requests);
    assert ReceiptsLike(l.receipts, m.receipts);
    forall g | Matters(l.grants, l.receipts, l.artifacts, g) || Matters(m.grants, l.receipts, l.artifacts, g)
      ensures g in l.grants && g in m.grants && l.grants[g] == m.grants[g]
    {
      assert Matters(k.grants, l.receipts, l.artifacts, g) == Matters(k.grants, k.receipts, k.artifacts, g);
      assert Matters(m.grants, l.receipts, l.artifacts, g) == Matters(m.grants, k.receipts, k.artifacts, g);
    }
  }

  // ----- clearing -----

  lemma ClearLike(l: Ledger, x: Record)
    ensures Like(l, Clear(l, x))
  {
    hide Needed;
    if Clearable(l, x) && x.GrantRecord? {
      UnreferencedUnneeded(l, x.id);
    }
  }

  lemma UnreferencedUnneeded(l: Ledger, g: Id)
    requires !Referenced(l, g)
    ensures !Needed(l.receipts, l.artifacts, g)
  {
  }

  /** Any batch of clearings leaves a ledger that is alike. */
  lemma {:induction false} ClearAllLike(l: Ledger, records: seq<Record>)
    ensures Like(l, ClearAll(l, records))
  {
    hide Like, Clear;
    if records == [] {
      LikeSame(l);
    } else {
      var m := ClearAll(l, records[..|records| - 1]);
      ClearAllLike(l, records[..|records| - 1]);
      ClearLike(m, records[|records| - 1]);
      LikeTransitive(l, m, ClearAll(l, records));
    }
  }

  // ----- reading -----

  lemma UsableAlike(l: Ledger, k: Ledger, g: Id, key: GrantKey, q: Question, now: nat)
    requires Like(l, k) && g in l.grants && Usable(l.grants[g], key, q, now)
    ensures g in k.grants && k.grants[g] == l.grants[g]
  {
    hide Needed, SessionsLike, RequestsLike, ReceiptsLike;
    assert Matters(l.grants, l.receipts, l.artifacts, g);
  }

  lemma {:induction false} FindAlike(l: Ledger, k: Ledger, key: GrantKey, q: Question, now: nat, bound: nat)
    requires Like(l, k)
    ensures FindGrant(l.grants, key, q, now, bound) == FindGrant(k.grants, key, q, now, bound)
    ensures FindGrant(l.grants, key, q, now, bound).Some? ==>
              l.grants[FindGrant(l.grants, key, q, now, bound).value] == k.grants[FindGrant(l.grants, key, q, now,
                      bound).value]
  {
    if bound != 0 {
      FindAlike(l, k, key, q, now, bound - 1);
      hide Like, Usable;
      LikeSymmetric(l, k);
      if bound - 1 in l.grants && Usable(l.grants[bound - 1], key, q,
                                         now) { UsableAlike(l, k, bound - 1, key, q, now); }
      if bound - 1 in k.grants && Usable(k.grants[bound - 1], key, q,
                                         now) { UsableAlike(k, l, bound - 1, key, q, now); }
    }
  }

  lemma RowAlike(l: Ledger, k: Ledger, env: Env, peer: Peer, q: Question, enforce: bool, i: nat, t: Tally)
    requires Like(l, k) && i < |q.payload.requirements|
    ensures CheckRow(l, env, peer, q, enforce, i, t) == CheckRow(k, env, peer, q, enforce, i, t)
  {
    hide SessionsLike, RequestsLike, ReceiptsLike, GrantsLike, Identifier, BoundArguments;
    var r := q.payload.requirements[i];
    if Definition(l.definitions, r.definition).Ok? {
      FindAlike(l, k, KeyOf(q.payload, i, l.definitions[r.definition].policyVersion), q, env.now, l.next);
    }
  }

  lemma {:induction false} RowsAlike(l: Ledger, k: Ledger, env: Env, peer: Peer, q: Question, enforce: bool, n: nat)
    requires Like(l, k) && n <= |q.payload.requirements|
    ensures CheckRows(l, env, peer, q, enforce, n) == CheckRows(k, env, peer, q, enforce, n)
  {
    hide Like, CheckRow;
    if n != 0 {
      RowsAlike(l, k, env, peer, q, enforce, n - 1);
      var t := CheckRows(l, env, peer, q, enforce, n - 1);
      if t.Ok? { RowAlike(l, k, env, peer, q, enforce, n - 1, t.value); }
    }
  }

  lemma SessionAlike(a: map<Id, SessionRow>, b: map<Id, SessionRow>, now: nat, peer: Peer, p: Payload)
    requires SessionsLike(a, b)
    ensures ActiveSession(a, now, peer, p) == ActiveSession(b, now, peer, p)
    ensures CacheTtl(a, now, p) == CacheTtl(b, now, p)
  {
    hide Context;
    if p.session.Some? && p.session.value in a { assert SessionLike(a[p.session.value], b[p.session.value]); }
  }

  lemma ConditionsAlike(l: Ledger, k: Ledger, env: Env, peer: Peer, q: Question, enforce: bool)
    requires Like(l, k)
    ensures CheckConditions(l, env, peer, q, enforce) == CheckConditions(k, env, peer, q, enforce)
  {
    hide RequestsLike, ReceiptsLike, GrantsLike, SessionsLike, CheckRows, ActiveSession, CacheTtl;
    if 1 <= |q.payload.requirements| <= 16 { RowsAlike(l, k, env, peer, q, enforce, |q.payload.requirements|); }
    SessionAlike(l.sessions, k.sessions, env.now, peer, q.payload);
  }

  lemma {:induction false} ScreenAlike(l: Ledger, k: Ledger, env: Env, p: Payload, n: nat)
    requires l.definitions == k.definitions && n <= |p.requirements|
    ensures Screen(l, env, p, n) == Screen(k, env, p, n)
  {
    if n != 0 { ScreenAlike(l, k, env, p, n - 1); }
  }

  lemma {:induction false} ReceiptRowsAlike(l: Ledger, k: Ledger, env: Env, p: Payload, n: nat)
    requires l.definitions == k.definitions && n <= |p.requirements|
    ensures ReceiptRows(l, env, p, n) == ReceiptRows(k, env, p, n)
  {
    if n != 0 { ReceiptRowsAlike(l, k, env, p, n - 1); }
  }

  /** A grant that something rests on is in both ledgers or in neither. */
  lemma NeededShared(l: Ledger, k: Ledger, g: Id)
    requires Like(l, k) && Needed(l.receipts, l.artifacts, g)
    ensures g in l.grants <==> g in k.grants
    ensures g in l.grants ==> l.grants[g] == k.grants[g]
  {
    hide Needed, SessionsLike, RequestsLike, ReceiptsLike;
    assert Matters(l.grants, l.receipts, l.artifacts, g) || Matters(k.grants, l.receipts, l.artifacts, g)
           || (g !in l.grants && g !in k.grants);
  }

  lemma ValidNeeded(l: Ledger, r: Id, g: Id)
    requires r in l.receipts && l.receipts[r].valid && g in l.receipts[r].sources
    ensures Needed(l.receipts, l.artifacts, g)
  {
  }

  lemma HeldNeeded(l: Ledger, a: Id, g: Id)
    requires a in l.artifacts && g in l.artifacts[a].sources
    ensures Needed(l.receipts, l.artifacts, g)
  {
  }

  lemma LapsedAlike(l: Ledger, k: Ledger, sources: set<Id>, now: nat)
    requires Like(l, k) && forall g :: g in sources ==> Needed(l.receipts, l.artifacts, g)
    ensures LapsedSources(l.grants, sources, now) == LapsedSources(k.grants, sources, now)
  {
    hide Like, Needed, Lapsed;
    forall g | g in sources
      ensures (g in l.grants <==> g in k.grants) && (g in l.grants ==> l.grants[g] == k.grants[g])
    {
      NeededShared(l, k, g);
    }
  }

  lemma ReceiptAlike(l: Ledger, k: Ledger, r: Id)
    requires Like(l, k)
    ensures r in l.receipts <==> r in k.receipts
    ensures r in l.receipts ==> ReceiptLike(l.receipts[r], k.receipts[r])
  {
  }

  lemma ReceiptValidAlike(l: Ledger, k: Ledger, env: Env, r: Id)
    requires Like(l, k)
    ensures ReceiptValid(l, env, r) == ReceiptValid(k, env, r)
  {
    hide SessionsLike, RequestsLike, GrantsLike, ReceiptsLike, Needed, ReceiptRows, LapsedSources;
    ReceiptAlike(l, k, r);
    if r in l.receipts && l.receipts[r].valid && l.receipts[r].payload.Some? {
      forall g | g in l.receipts[r].sources ensures Needed(l.receipts, l.artifacts, g) { ValidNeeded(l, r, g); }
      LapsedAlike(l, k, l.receipts[r].sources, env.now);
      ReceiptRowsAlike(l, k, env, l.receipts[r].payload.value, |l.receipts[r].payload.value.requirements|);
    }
  }

  lemma StaleAlike(l: Ledger, k: Ledger, env: Env, a: Id)
    requires Like(l, k) && a in l.artifacts
    ensures StaleSources(l, env, l.artifacts[a].sources) == StaleSources(k, env, l.artifacts[a].sources)
    ensures MalformedSources(l, env, l.artifacts[a].sources) == MalformedSources(k, env, l.artifacts[a].sources)
  {
    hide SessionsLike, RequestsLike, GrantsLike, ReceiptsLike, Needed, Current;
    forall g | g in l.artifacts[a].sources
      ensures (g in l.grants <==> g in k.grants) && (g in l.grants ==> l.grants[g] == k.grants[g])
    {
      HeldNeeded(l, a, g);
      NeededShared(l, k, g);
    }
  }

  lemma ProvenanceAlike(l: Ledger, k: Ledger, env: Env, peer: Peer, u: Use, a: Id)
    requires Like(l, k)
    ensures Provenance(l, env, peer, u, a) == Provenance(k, env, peer, u, a)
  {
    hide SessionsLike, RequestsLike, GrantsLike, ReceiptsLike, StaleSources, MalformedSources, ActiveSession;
    SessionAlike(l.sessions, k.sessions, env.now, peer, u.payload);
    if a in l.artifacts { StaleAlike(l, k, env, a); }
  }

  // ----- the statements -----

  lemma RevokeLike(a: map<Id, Grant>, b: map<Id, Grant>, receipts: map<Id, Receipt>, artifacts: map<Id, Artifact>,
                   gs: set<Id>, hs: set<Id>)
    requires GrantsLike(a, b, receipts, artifacts)
    requires forall g :: Matters(a, receipts, artifacts, g) ==> (g in gs <==> g in hs)
    ensures GrantsLike(RevokeSet(a, gs), RevokeSet(b, hs), receipts, artifacts)
  {
    hide Needed;
    forall g | Matters(RevokeSet(a, gs), receipts, artifacts, g) || Matters(RevokeSet(b, hs), receipts, artifacts, g)
      ensures g in a && g in b && RevokeSet(a, gs)[g] == RevokeSet(b, hs)[g]
    {
      assert Matters(a, receipts, artifacts, g) || Matters(b, receipts, artifacts, g);
      assert Matters(a, receipts, artifacts, g);
    }
  }

  /** The relation on grants survives when less is needed. */
  lemma LessNeeded(a: map<Id, Grant>, b: map<Id, Grant>, receipts: map<Id, Receipt>, artifacts: map<Id, Artifact>,
                   rr: map<Id, Receipt>, aa: map<Id, Artifact>)
    requires GrantsLike(a, b, receipts, artifacts)
    requires forall g :: Needed(rr, aa, g) ==> Needed(receipts, artifacts, g)
    ensures GrantsLike(a, b, rr, aa)
  {
    hide Needed;
    forall g | Matters(a, rr, aa, g) || Matters(b, rr, aa, g) ensures g in a && g in b && a[g] == b[g] {
      assert Matters(a, receipts, artifacts, g) || Matters(b, receipts, artifacts, g);
    }
  }

  lemma RetiredNeeds(receipts: map<Id, Receipt>, artifacts: map<Id, Artifact>, rs: set<Id>, xs: set<Id>, g: Id)
    requires Needed(InvalidateSet(receipts, rs), BlockSet(artifacts, xs), g)
    ensures Needed(receipts, artifacts, g)
  {
    var rr, aa := InvalidateSet(receipts, rs), BlockSet(artifacts, xs);
    if exists r :: r in rr && rr[r].valid && g in rr[r].sources {
      var r :| r in rr && rr[r].valid && g in rr[r].sources;
      assert r in receipts && receipts[r].valid && g in receipts[r].sources;
    } else {
      var x :| x in aa && g in aa[x].sources;
      assert x in artifacts && g in artifacts[x].sources;
    }
  }

  lemma InvalidateLike(a: map<Id, Receipt>, b: map<Id, Receipt>, rs: set<Id>, ss: set<Id>)
    requires ReceiptsLike(a, b) && forall r :: r in a && a[r].valid ==> (r in rs <==> r in ss)
    ensures ReceiptsLike(InvalidateSet(a, rs), InvalidateSet(b, ss))
  {
    forall r | r in a ensures ReceiptLike(InvalidateSet(a, rs)[r], InvalidateSet(b, ss)[r]) {
      assert ReceiptLike(a[r], b[r]);
    }
  }

  lemma BlockLike(artifacts: map<Id, Artifact>, xs: set<Id>, ys: set<Id>)
    requires forall x :: x in artifacts && artifacts[x].state.Active? ==> (x in xs <==> x in ys)
    ensures BlockSet(artifacts, xs) == BlockSet(artifacts, ys)
  {
  }

  lemma FinalizeLike(a: map<Id, RequestRow>, b: map<Id, RequestRow>, ids: set<Id>, state: RequestState)
    requires RequestsLike(a, b) && !state.Pending?
    ensures RequestsLike(FinalizeSet(a, ids, state), FinalizeSet(b, ids, state))
  {
    forall q | q in a ensures RequestLike(FinalizeSet(a, ids, state)[q], FinalizeSet(b, ids, state)[q]) {
      FinalRowLike(a[q], b[q], state);
    }
  }

  lemma FinalRowLike(a: RequestRow, b: RequestRow, state: RequestState)
    requires RequestLike(a, b) && !state.Pending?
    ensures RequestLike(a.(state := state, token := None), b.(state := state, token := None))
  {
    assert Blank(a.(state := state, token := None)) == Blank(a).(state := state);
    assert Blank(b.(state := state, token := None)) == Blank(b).(state := state);
  }

  lemma CloseLike(a: map<Id, SessionRow>, b: map<Id, SessionRow>, ids: set<Id>, others: set<Id>)
    requires SessionsLike(a, b) && forall s :: s in a && Live(a[s]) ==> (s in ids <==> s in others)
    ensures SessionsLike(CloseSet(a, ids), CloseSet(b, others))
  {
    forall s | s in a ensures SessionLike(CloseSet(a, ids)[s], CloseSet(b, others)[s]) {
      assert SessionLike(a[s], b[s]);
    }
  }

  /** Retiring what matters alike. */
  lemma RetireLike(l: Ledger, k: Ledger, gs: set<Id>, hs: set<Id>, rs: set<Id>, ss: set<Id>, xs: set<Id>, ys: set<Id>)
    requires Like(l, k)
    requires forall g :: Matters(l.grants, l.receipts, l.artifacts, g) ==> (g in gs <==> g in hs)
    requires forall r :: r in l.receipts && l.receipts[r].valid ==> (r in rs <==> r in ss)
    requires forall x :: x in l.artifacts && l.artifacts[x].state.Active? ==> (x in xs <==> x in ys)
    ensures Like(Retire(l, gs, rs, xs), Retire(k, hs, ss, ys))
  {
    hide SessionsLike, RequestsLike, ReceiptsLike, GrantsLike, Matters, Needed, RevokeSet, InvalidateSet, BlockSet;
    RevokeLike(l.grants, k.grants, l.receipts, l.artifacts, gs, hs);
    InvalidateLike(l.receipts, k.receipts, rs, ss);
    BlockLike(l.artifacts, xs, ys);
    var rr, aa := InvalidateSet(l.receipts, rs), BlockSet(l.artifacts, xs);
    forall g | Needed(rr, aa, g) ensures Needed(l.receipts, l.artifacts,
                                                g) { RetiredNeeds(l.receipts, l.artifacts, rs, xs, g); }
    LessNeeded(RevokeSet(l.grants, gs), RevokeSet(k.grants, hs), l.receipts, l.artifacts, rr, aa);
  }

  /** The grants of `gs` and `hs` that matter are the same. */
  ghost predicate SameGrants(l: Ledger, k: Ledger, gs: set<Id>, hs: set<Id>) {
    && gs <= l.grants.Keys && hs <= k.grants.Keys
    && forall g :: Matters(l.grants, l.receipts, l.artifacts, g) ==> (g in gs <==> g in hs)
  }

  lemma SameOn(l: Ledger, k: Ledger, gs: set<Id>, hs: set<Id>, g: Id)
    requires Like(l, k) && SameGrants(l, k, gs, hs) && Needed(l.receipts, l.artifacts, g)
    ensures g in gs <==> g in hs
  {
    hide Needed, SessionsLike, RequestsLike, ReceiptsLike;
    assert g in l.grants ==> Matters(l.grants, l.receipts, l.artifacts, g);
    assert g in k.grants ==> Matters(k.grants, l.receipts, l.artifacts, g);
  }

  lemma ArtifactsOnAlike(l: Ledger, k: Ledger, gs: set<Id>, hs: set<Id>)
    requires Like(l, k) && SameGrants(l, k, gs, hs)
    ensures ArtifactsOn(l, gs) == ArtifactsOn(k, hs)
  {
    hide SessionsLike, RequestsLike, ReceiptsLike, GrantsLike, SameGrants, Needed;
    forall x | x in l.artifacts ensures l.artifacts[x].sources * gs == l.artifacts[x].sources * hs {
      forall g | g in l.artifacts[x].sources ensures g in gs <==> g in hs {
        HeldNeeded(l, x, g);
        SameOn(l, k, gs, hs, g);
      }
    }
  }

  lemma ReceiptsOnAlike(l: Ledger, k: Ledger, gs: set<Id>, hs: set<Id>, r: Id)
    requires Like(l, k) && SameGrants(l, k, gs, hs) && r in l.receipts && l.receipts[r].valid
    ensures r in ReceiptsOn(l, gs) <==> r in ReceiptsOn(k, hs)
  {
    hide SessionsLike, RequestsLike, ReceiptsLike, GrantsLike, SameGrants, Needed;
    ReceiptAlike(l, k, r);
    forall g | g in l.receipts[r].sources ensures g in gs <==> g in hs {
      ValidNeeded(l, r, g);
      SameOn(l, k, gs, hs, g);
    }
    assert l.receipts[r].sources * gs == l.receipts[r].sources * hs;
  }

  /** Revoking a set of grants, with the receipts and artifacts on them. */
  lemma RetireOnLike(l: Ledger, k: Ledger, gs: set<Id>, hs: set<Id>)
    requires Like(l, k) && SameGrants(l, k, gs, hs)
    ensures Like(Retire(l, gs, ReceiptsOn(l, gs), ArtifactsOn(l, gs)),
                 Retire(k, hs, ReceiptsOn(k, hs), ArtifactsOn(k, hs)))
  {
    hide Like, Retire, ReceiptsOn, ArtifactsOn, Matters;
    ArtifactsOnAlike(l, k, gs, hs);
    forall r | r in l.receipts && l.receipts[r].valid ensures r in ReceiptsOn(l, gs) <==> r in ReceiptsOn(k, hs) {
      ReceiptsOnAlike(l, k, gs, hs, r);
    }
    RetireLike(l, k, gs, hs, ReceiptsOn(l, gs), ReceiptsOn(k, hs), ArtifactsOn(l, gs), ArtifactsOn(k, hs));
  }

  lemma SessionsReplaced(l: Ledger, k: Ledger, a: map<Id, SessionRow>, b: map<Id, SessionRow>, next: Id)
    requires Like(l, k) && SessionsLike(a, b)
    ensures Like(l.(sessions := a, next := next), k.(sessions := b, next := next))
  {
    hide SessionsLike, RequestsLike, ReceiptsLike, GrantsLike;
  }

  lemma BumpLike(l: Ledger, k: Ledger)
    requires Like(l, k)
    ensures Like(Bump(l), Bump(k))
  {
    hide SessionsLike, RequestsLike, ReceiptsLike, GrantsLike;
  }

  lemma FinalizedLike(l: Ledger, k: Ledger, ids: set<Id>, others: set<Id>, state: RequestState)
    requires Like(l, k) && ids == others && !state.Pending?
    ensures Like(l.(requests := FinalizeSet(l.requests, ids, state)),
                 k.(requests := FinalizeSet(k.requests, others, state)))
  {
    hide SessionsLike, RequestsLike, ReceiptsLike, GrantsLike, FinalizeSet;
    FinalizeLike(l.requests, k.requests, ids, state);
  }

  // ----- CloseSession, SuspendSession, FinishCleanup and Expire -----

  lemma MattersAlike(l: Ledger, k: Ledger, g: Id)
    requires Like(l, k) && Matters(l.grants, l.receipts, l.artifacts, g)
    ensures g in k.grants && k.grants[g] == l.grants[g]
  {
    hide Needed, SessionsLike, RequestsLike, ReceiptsLike;
  }

  lemma SessionGrantsAlike(l: Ledger, k: Ledger, s: Id)
    requires Like(l, k)
    ensures SameGrants(l, k, SessionGrants(l, s), SessionGrants(k, s))
  {
    hide Like, Matters;
    forall g | Matters(l.grants, l.receipts, l.artifacts, g)
      ensures g in SessionGrants(l, s) <==> g in SessionGrants(k, s)
    {
      MattersAlike(l, k, g);
      MattersIn(l.grants, l.receipts, l.artifacts, g);
    }
  }

  lemma MattersIn(grants: map<Id, Grant>, receipts: map<Id, Receipt>, artifacts: map<Id, Artifact>, g: Id)
    requires Matters(grants, receipts, artifacts, g)
    ensures g in grants
  {
  }

  lemma PendingAlike(l: Ledger, k: Ledger, s: Id)
    requires RequestsLike(l.requests, k.requests)
    ensures PendingIn(l, s) == PendingIn(k, s)
    ensures PendingRequests(l) == PendingRequests(k)
  {
    forall q | q in l.requests
      ensures l.requests[q].state == k.requests[q].state && l.requests[q].payload == k.requests[q].payload
    {
      assert RequestLike(l.requests[q], k.requests[q]);
    }
  }

  lemma InvalidateNothing(l: Ledger, gs: set<Id>, xs: set<Id>)
    ensures Retire(l, gs, {}, xs) == l.(grants := RevokeSet(l.grants, gs), artifacts := BlockSet(l.artifacts, xs))
  {
    InvalidateNone(l.receipts);
  }

  lemma CloseSessionLike(l: Ledger, k: Ledger, s: Id)
    requires Like(l, k)
    ensures Like(CloseSession(l, s), CloseSession(k, s))
  {
    hide SessionsLike, RequestsLike, ReceiptsLike, GrantsLike, Matters, RevokeSet, BlockSet, FinalizeSet, CloseSet;
    hide SessionGrants, PendingIn, Retire;
    SessionGrantsAlike(l, k, s);
    PendingAlike(l, k, s);
    RetireLike(l, k, SessionGrants(l, s), SessionGrants(k, s), {}, {}, ArtifactsIn(l, s), ArtifactsIn(k, s));
    InvalidateNothing(l, SessionGrants(l, s), ArtifactsIn(l, s));
    InvalidateNothing(k, SessionGrants(k, s), ArtifactsIn(k, s));
    CloseLike(l.sessions, k.sessions, {s}, {s});
    FinalizeLike(l.requests, k.requests, PendingIn(l, s), Invalidated);
  }

  lemma SuspendSessionLike(l: Ledger, k: Ledger, s: Id, now: nat)
    requires Like(l, k)
    ensures Like(SuspendSession(l, s, now), SuspendSession(k, s, now))
  {
    hide Like, SessionsLike, RequestsLike, FinalizeSet, PendingIn;
    SessionsOfLike(l, k);
    PendingAlike(l, k, s);
    FinalizedLike(l, k, PendingIn(l, s), PendingIn(k, s), Invalidated);
    var m := l.(requests := FinalizeSet(l.requests, PendingIn(l, s), Invalidated));
    var n := k.(requests := FinalizeSet(k.requests, PendingIn(k, s), Invalidated));
    RowOfSession(l.sessions, k.sessions, s);
    NextAlike(l, k);
    if s in l.sessions && l.sessions[s].state.Open? {
      var row := l.sessions[s].(state := Suspended, generation := l.sessions[s].generation + 1,
                                resume := now + l.sessions[s].grace);
      SessionPutLike(l.sessions, k.sessions, s, row);
      SessionsReplaced(m, n, l.sessions[s := row], k.sessions[s := row], l.next);
      assert SuspendSession(l, s, now) == m.(sessions := l.sessions[s := row], next := l.next);
      assert SuspendSession(k, s, now) == n.(sessions := k.sessions[s := row], next := l.next);
    } else {
      assert SuspendSession(l, s, now) == m && SuspendSession(k, s, now) == n;
    }
  }

  lemma RowOfSession(a: map<Id, SessionRow>, b: map<Id, SessionRow>, s: Id)
    requires SessionsLike(a, b)
    ensures s in a <==> s in b
    ensures s in a ==> Unproved(a[s]) == Unproved(b[s])
    ensures s in a && !a[s].state.Closed? ==> a[s] == b[s]
  {
    if s in a { assert SessionLike(a[s], b[s]); }
  }

  lemma SessionPutLike(a: map<Id, SessionRow>, b: map<Id, SessionRow>, s: Id, row: SessionRow)
    requires SessionsLike(a, b)
    ensures SessionsLike(a[s := row], b[s := row])
  {
  }

  lemma FinishLike(l: Ledger, k: Ledger)
    requires Like(l, k)
    ensures Like(FinishCleanup(l), FinishCleanup(k))
  {
    hide RequestsLike, ReceiptsLike, GrantsLike, UndeletedIn;
    forall s | s in l.sessions ensures SessionLike(FinishCleanup(l).sessions[s], FinishCleanup(k).sessions[s]) {
      UndeletedAlike(l, k, s);
      assert SessionLike(l.sessions[s], k.sessions[s]);
    }
  }

  lemma UndeletedAlike(l: Ledger, k: Ledger, s: Id)
    requires l.artifacts == k.artifacts
    ensures UndeletedIn(l, s) == UndeletedIn(k, s)
  {
  }

  lemma {:induction false} CloseAllLike(l: Ledger, k: Ledger, ids: set<Id>, n: nat)
    requires Like(l, k)
    ensures Like(CloseAll(l, ids, n), CloseAll(k, ids, n))
  {
    hide Like, CloseSession;
    if n != 0 {
      CloseAllLike(l, k, ids, n - 1);
      CloseSessionLike(CloseAll(l, ids, n - 1), CloseAll(k, ids, n - 1), n - 1);
    }
  }

  lemma {:induction false} SuspendAllLike(l: Ledger, k: Ledger, ids: set<Id>, now: nat, n: nat)
    requires Like(l, k)
    ensures Like(SuspendAll(l, ids, now, n), SuspendAll(k, ids, now, n))
  {
    hide Like, SuspendSession;
    if n != 0 {
      SuspendAllLike(l, k, ids, now, n - 1);
      SuspendSessionLike(SuspendAll(l, ids, now, n - 1), SuspendAll(k, ids, now, n - 1), n - 1, now);
    }
  }

  lemma DueAlike(l: Ledger, k: Ledger, now: nat)
    requires Like(l, k)
    ensures CloseDue(l.sessions, now) ==
              CloseDue(k.sessions, now) && SuspendDue(l.sessions, now) == SuspendDue(k.sessions, now)
    ensures ExpiredRequests(l, now) == ExpiredRequests(k, now)
    ensures ExpiredArtifacts(l, now) == ExpiredArtifacts(k, now)
  {
    hide ReceiptsLike, GrantsLike;
    forall s | s in l.sessions
      ensures Due(l.sessions[s], now) ==
                Due(k.sessions[s], now) && Suspends(l.sessions[s], now) == Suspends(k.sessions[s], now)
    {
      assert SessionLike(l.sessions[s], k.sessions[s]);
    }
    forall q | q in l.requests
      ensures l.requests[q].state == k.requests[q].state && l.requests[q].deadline == k.requests[q].deadline
    {
      assert RequestLike(l.requests[q], k.requests[q]);
    }
  }

  lemma NextAlike(l: Ledger, k: Ledger)
    requires Like(l, k)
    ensures l.next == k.next && l.artifacts == k.artifacts && l.definitions == k.definitions && l.clients == k.clients
    ensures l.executions == k.executions && l.originals == k.originals && l.applied == k.applied
            && l.revision == k.revision
  {
  }

  lemma ExpiryLike(l: Ledger, k: Ledger, now: nat, close: set<Id>, suspend: set<Id>)
    requires Like(l, k)
    ensures var m := SuspendAll(CloseAll(l, close, l.next), suspend, now, l.next);
            var n := SuspendAll(CloseAll(k, close, k.next), suspend, now, k.next);
            Like(m, n)
  {
    hide Like, CloseAll, SuspendAll;
    NextAlike(l, k);
    CloseAllLike(l, k, close, l.next);
    SuspendAllLike(CloseAll(l, close, l.next), CloseAll(k, close, k.next), suspend, now, l.next);
  }

  lemma BlockedLike(l: Ledger, k: Ledger, xs: set<Id>)
    requires Like(l, k)
    ensures Like(l.(artifacts := BlockSet(l.artifacts, xs)), k.(artifacts := BlockSet(k.artifacts, xs)))
  {
    hide Like, Matters;
    RetireLike(l, k, {}, {}, {}, {}, xs, xs);
    RetireOnly(l, xs);
    RetireOnly(k, xs);
  }

  lemma RetireOnly(l: Ledger, xs: set<Id>)
    ensures Retire(l, {}, {}, xs) == l.(artifacts := BlockSet(l.artifacts, xs))
  {
    assert RevokeSet(l.grants, {}) == l.grants;
    InvalidateNone(l.receipts);
  }

  lemma ExpireLike(l: Ledger, k: Ledger, now: nat)
    requires Like(l, k)
    ensures Like(Expire(l, now), Expire(k, now))
  {
    hide Like, CloseAll, SuspendAll, FinishCleanup, FinalizeSet, BlockSet, CloseDue, SuspendDue, ExpiredRequests;
    hide ExpiredArtifacts, Bump;
    DueAlike(l, k, now);
    var late := ExpiredRequests(l, now);
    FinalizedLike(l, k, late, ExpiredRequests(k, now), Expired);
    var l1, k1 := l.(requests := FinalizeSet(l.requests, late, Expired)),
        k.(requests := FinalizeSet(k.requests, late, Expired));
    DueAlike(l1, k1, now);
    var close, suspend := CloseDue(l1.sessions, now), SuspendDue(l1.sessions, now);
    ExpiryLike(l1, k1, now, close, suspend);
    var l2 := SuspendAll(CloseAll(l1, close, l1.next), suspend, now, l1.next);
    var k2 := SuspendAll(CloseAll(k1, close, k1.next), suspend, now, k1.next);
    DueAlike(l2, k2, now);
    var gone := ExpiredArtifacts(l2, now);
    BlockedLike(l2, k2, gone);
    var l3, k3 := l2.(artifacts := BlockSet(l2.artifacts, gone)), k2.(artifacts := BlockSet(k2.artifacts, gone));
    FinishLike(l3, k3);
    BumpLike(FinishCleanup(l3), FinishCleanup(k3));
  }

  // ----- the transactions -----

  /** The same refusal, or the same reply with ledgers that are alike. */
  ghost predicate Alike(a: Result<Change>, b: Result<Change>) {
    if a.Err? then b == a
    else b.Ok? && b.value == a.value.(db := b.value.db) && Like(a.value.db, b.value.db)
  }

  lemma SessionOpenAlike(l: Ledger, k: Ledger, env: Env, peer: Peer, subject: string, profile: string, m: Limits)
    requires Like(l, k)
    ensures Alike(SessionOpen(l, env, peer, subject, profile, m), SessionOpen(k, env, peer, subject, profile, m))
  {
    hide SessionsLike, RequestsLike, ReceiptsLike, GrantsLike, Context, ActiveContext, LiveSessions;
    LiveAlike(l, k);
    var r := SessionOpen(l, env, peer, subject, profile, m);
    if r.Ok? { SessionPutLike(l.sessions, k.sessions, l.next, r.value.db.sessions[l.next]); }
  }

  lemma LiveAlike(l: Ledger, k: Ledger)
    requires SessionsLike(l.sessions, k.sessions)
    ensures LiveSessions(l) == LiveSessions(k)
  {
    forall s | s in l.sessions ensures Live(l.sessions[s]) == Live(k.sessions[s]) {
      assert SessionLike(l.sessions[s], k.sessions[s]);
    }
  }

  lemma WatchAlike(l: Ledger, k: Ledger, peer: Peer, subject: string, profile: string, id: Id)
    requires Like(l, k)
    ensures Alike(SessionWatch(l, peer, subject, profile, id), SessionWatch(k, peer, subject, profile, id))
  {
    hide SessionsLike, RequestsLike, ReceiptsLike, GrantsLike, Context, UndeletedIn;
    RowOfSession(l.sessions, k.sessions, id);
    UndeletedAlike(l, k, id);
  }

  lemma ViewAlike(l: Ledger, k: Ledger, id: Id, token: Option<Id>)
    requires Like(l, k)
    ensures Viewed(l, id, token) == Viewed(k, id, token)
  {
    hide SessionsLike, RequestsLike, ReceiptsLike, GrantsLike;
    RowOfSession(l.sessions, k.sessions, id);
  }

  lemma ClosedLike(l: Ledger, k: Ledger, id: Id)
    requires Like(l, k)
    ensures Like(FinishCleanup(CloseSession(l, id)), FinishCleanup(CloseSession(k, id)))
  {
    hide Like, FinishCleanup, CloseSession;
    CloseSessionLike(l, k, id);
    FinishLike(CloseSession(l, id), CloseSession(k, id));
  }

  lemma SessionRowAlike(l: Ledger, k: Ledger, peer: Peer, subject: string, profile: string, id: Id)
    requires Like(l, k)
    ensures var a, b := SessionRowOf(l, peer, subject, profile, id, true),
        SessionRowOf(k, peer, subject, profile, id, true);
            && (a.Err? ==> b == a)
            && (a.Ok? ==> && b.Ok? && id in l.sessions && id in k.sessions
                          && a.value == l.sessions[id] && b.value == k.sessions[id]
                          && Unproved(a.value) == Unproved(b.value) && (!a.value.state.Closed? ==> a == b))
  {
    hide SessionsLike, RequestsLike, ReceiptsLike, GrantsLike, Context;
    RowOfSession(l.sessions, k.sessions, id);
  }

  lemma SessionActAlike(l: Ledger, k: Ledger, env: Env, peer: Peer, subject: string, profile: string, id: Id,
                        generation: nat, verb: SessionVerb)
    requires Like(l, k)
    ensures Alike(SessionAct(l, env, peer, subject, profile, id, generation, verb),
                  SessionAct(k, env, peer, subject, profile, id, generation, verb))
  {
    hide Like, CloseSession, SuspendSession, FinishCleanup, Context, ActiveContext, SessionRowOf, Viewed, Bump;
    hide SessionsLike;
    SessionRowAlike(l, k, peer, subject, profile, id);
    NextAlike(l, k);
    ClosedLike(l, k, id);
    var m, n := FinishCleanup(CloseSession(l, id)), FinishCleanup(CloseSession(k, id));
    ViewAlike(m, n, id, None);
    BumpLike(m, n);
    match verb
    case Close =>
    case Suspend =>
      var m, n := SuspendSession(l, id, env.now), SuspendSession(k, id, env.now);
      SuspendSessionLike(l, k, id, env.now);
      ViewAlike(m, n, id, None);
      BumpLike(m, n);
    case Resume(token) =>
      if SessionRowOf(l, peer, subject, profile, id, true).Ok? {
        var s := l.sessions[id];
        SessionRowPut(l, k, id, s.(state := Open, generation := s.generation + 1, proof := Some(l.next),
                                   lease := env.now + 30000), l.next + 1);
      }
    case Heartbeat =>
      if SessionRowOf(l, peer, subject, profile, id, true).Ok? {
        var s := l.sessions[id];
        SessionRowPut(l, k, id, s.(lease := env.now + 30000), l.next);
      }
  }

  lemma SessionRowPut(l: Ledger, k: Ledger, id: Id, row: SessionRow, next: Id)
    requires Like(l, k)
    ensures Like(Bump(l.(sessions := l.sessions[id := row], next := next)),
                 Bump(k.(sessions := k.sessions[id := row], next := next)))
    ensures next == l.next ==>
              Like(Bump(l.(sessions := l.sessions[id := row])), Bump(k.(sessions := k.sessions[id := row])))
  {
    hide SessionsLike, RequestsLike, ReceiptsLike, GrantsLike;
    SessionPutLike(l.sessions, k.sessions, id, row);
  }

  lemma RevokeAlike(l: Ledger, k: Ledger, peer: Peer, definition: string, subject: string, profile: string)
    requires Like(l, k)
    ensures Alike(Revoke(l, peer, definition, subject, profile), Revoke(k, peer, definition, subject, profile))
  {
    hide Like, Context, Matters, Identifier, RevokeSet, ReceiptsOn, ArtifactsOn, Revoked, Bump, InvalidateSet, BlockSet;
    var gs := set g | g in l.grants && l.grants[g].key.definition == definition
                      && l.grants[g].key.subject == subject && l.grants[g].key.profile == profile;
    var hs := set g | g in k.grants && k.grants[g].key.definition == definition
                      && k.grants[g].key.subject == subject && k.grants[g].key.profile == profile;
    forall g | Matters(l.grants, l.receipts, l.artifacts, g) ensures g in gs <==> g in hs {
      MattersAlike(l, k, g);
      MattersIn(l.grants, l.receipts, l.artifacts, g);
    }
    RevokedLike(l, k, gs, hs);
  }

  lemma RevokedLike(l: Ledger, k: Ledger, gs: set<Id>, hs: set<Id>)
    requires Like(l, k) && forall g :: Matters(l.grants, l.receipts, l.artifacts, g) ==> (g in gs <==> g in hs)
    ensures var m, n := l.(grants := RevokeSet(l.grants, gs)), k.(grants := RevokeSet(k.grants, hs));
            Like(Bump(m.(receipts := InvalidateSet(m.receipts, ReceiptsOn(m, Revoked(m))),
                         artifacts := BlockSet(m.artifacts, ArtifactsOn(m, Revoked(m))))),
                 Bump(n.(receipts := InvalidateSet(n.receipts, ReceiptsOn(n, Revoked(n))),
                         artifacts := BlockSet(n.artifacts, ArtifactsOn(n, Revoked(n))))))
  {
    hide Like, Matters, RevokeSet, ReceiptsOn, ArtifactsOn, Revoked, Bump, InvalidateSet, BlockSet;
    RetireLike(l, k, gs, hs, {}, {}, {}, {});
    RevokeOnly(l, gs);
    RevokeOnly(k, hs);
    var m, n := l.(grants := RevokeSet(l.grants, gs)), k.(grants := RevokeSet(k.grants, hs));
    RevokedAlike(m, n);
    RetireOnLike(m, n, Revoked(m), Revoked(n));
    RevokeAgain(m);
    RevokeAgain(n);
    BumpLike(Retire(m, Revoked(m), ReceiptsOn(m, Revoked(m)), ArtifactsOn(m, Revoked(m))),
             Retire(n, Revoked(n), ReceiptsOn(n, Revoked(n)), ArtifactsOn(n, Revoked(n))));
  }

  lemma RevokeOnly(l: Ledger, gs: set<Id>)
    ensures Retire(l, gs, {}, {}) == l.(grants := RevokeSet(l.grants, gs))
  {
    InvalidateNone(l.receipts);
    BlockNone(l.artifacts);
  }

  lemma RevokedAlike(l: Ledger, k: Ledger)
    requires Like(l, k)
    ensures SameGrants(l, k, Revoked(l), Revoked(k))
  {
    hide Like, Matters;
    forall g | Matters(l.grants, l.receipts, l.artifacts, g) ensures g in Revoked(l) <==> g in Revoked(k) {
      MattersAlike(l, k, g);
      MattersIn(l.grants, l.receipts, l.artifacts, g);
    }
  }

  lemma RevokeAgain(l: Ledger)
    ensures RevokeSet(l.grants, Revoked(l)) == l.grants
  {
  }

  lemma HolderAlike(l: Ledger, k: Ledger, env: Env, peer: Peer, u: Use)
    requires Like(l, k)
    ensures HolderContext(l, env, peer, u) == HolderContext(k, env, peer, u)
  {
    hide SessionsLike, RequestsLike, ReceiptsLike, GrantsLike, Context, ActiveContext, ActiveSession;
    SessionAlike(l.sessions, k.sessions, env.now, peer, u.payload);
  }

  lemma ArtifactAddLike(l: Ledger, k: Ledger, a: Artifact, originals: map<Original, Id>)
    requires Like(l, k) && l.next !in l.artifacts && forall g :: g in a.sources ==> Needed(l.receipts, l.artifacts, g)
    ensures Like(Bump(l.(artifacts := l.artifacts[l.next := a], originals := originals, next := l.next + 1)),
                 Bump(k.(artifacts := k.artifacts[k.next := a], originals := originals, next := k.next + 1)))
  {
    hide SessionsLike, RequestsLike, ReceiptsLike, GrantsLike, Needed;
    var aa := l.artifacts[l.next := a];
    forall g | Needed(l.receipts, aa, g) ensures Needed(l.receipts, l.artifacts, g) { AddedNeeds(l, aa, l.next, a, g); }
    LessNeeded(l.grants, k.grants, l.receipts, l.artifacts, l.receipts, aa);
  }

  lemma AddedNeeds(l: Ledger, aa: map<Id, Artifact>, id: Id, a: Artifact, g: Id)
    requires aa == l.artifacts[id := a] && Needed(l.receipts, aa, g)
    requires g in a.sources ==> Needed(l.receipts, l.artifacts, g)
    ensures Needed(l.receipts, l.artifacts, g)
  {
    if !(exists r :: r in l.receipts && l.receipts[r].valid && g in l.receipts[r].sources) {
      var x :| x in aa && g in aa[x].sources;
      assert x == id || (x in l.artifacts && g in l.artifacts[x].sources);
    }
  }

  lemma RegisterNewAlike(l: Ledger, k: Ledger, env: Env, peer: Peer, u: Use, r: Id, i: nat)
    requires Like(l, k) && l.next !in l.artifacts && r in l.receipts && r in k.receipts
    requires l.receipts[r].valid && l.receipts[r].payload.Some? && k.receipts[r] == l.receipts[r]
    ensures Alike(RegisterNew(l, env, peer, u, r, i), RegisterNew(k, env, peer, u, r, i))
  {
    hide Like, UndeletedIn, Needed, Definition, Retention;
    NextAlike(l, k);
    if u.payload.session.Some? { UndeletedAlike(l, k, u.payload.session.value); }
    forall g | g in l.receipts[r].sources ensures Needed(l.receipts, l.artifacts, g) { ValidNeeded(l, r, g); }
    var x := RegisterNew(l, env, peer, u, r, i);
    if x.Ok? { ArtifactAddLike(l, k, x.value.db.artifacts[l.next], x.value.db.originals); }
  }

  lemma RegisterAlike(l: Ledger, k: Ledger, env: Env, peer: Peer, u: Use, receipt: Id, i: nat)
    requires Like(l, k) && l.next !in l.artifacts
    ensures Alike(Register(l, env, peer, u, receipt, i), Register(k, env, peer, u, receipt, i))
  {
    hide Like, ReceiptValid, HolderContext, RegisterNew;
    HolderAlike(l, k, env, peer, u);
    ReceiptValidAlike(l, k, env, receipt);
    NextAlike(l, k);
    if ReceiptValid(l, env, receipt) == Ok(true) {
      ReceiptValidSound(l, env, receipt);
      ReceiptAlike(l, k, receipt);
      RegisterNewAlike(l, k, env, peer, u, receipt, i);
    }
  }

  lemma {:induction false} InheritAlike(l: Ledger, k: Ledger, env: Env, peer: Peer, u: Use, parents: seq<Id>, n: nat)
    requires Like(l, k) && n <= |parents|
    ensures Inherit(l, env, peer, u, parents, n) == Inherit(k, env, peer, u, parents, n)
    ensures Inherit(l, env, peer, u, parents, n).Ok? ==>
              forall g :: g in Inherit(l, env, peer, u, parents, n).value.sources ==> Needed(l.receipts, l.artifacts, g)
  {
    hide Like, Needed, Provenance, SameUse;
    if n != 0 {
      InheritAlike(l, k, env, peer, u, parents, n - 1);
      NextAlike(l, k);
      var id := parents[n - 1];
      ProvenanceAlike(l, k, env, peer, u, id);
      if id in l.artifacts {
        forall g | g in l.artifacts[id].sources ensures Needed(l.receipts, l.artifacts, g) { HeldNeeded(l, id, g); }
      }
    }
  }

  lemma DeriveAlike(l: Ledger, k: Ledger, env: Env, peer: Peer, u: Use, parents: seq<Id>)
    requires Like(l, k) && l.next !in l.artifacts
    ensures Alike(Derive(l, env, peer, u, parents), Derive(k, env, peer, u, parents))
  {
    hide Like, HolderContext, UndeletedIn, Needed, Inherit, Elements;
    HolderAlike(l, k, env, peer, u);
    NextAlike(l, k);
    InheritAlike(l, k, env, peer, u, parents, |parents|);
    if u.payload.session.Some? { UndeletedAlike(l, k, u.payload.session.value); }
    var r := Derive(l, env, peer, u, parents);
    if r.Ok? { ArtifactAddLike(l, k, r.value.db.artifacts[l.next], l.originals); }
  }

  lemma CheckDataAlike(l: Ledger, k: Ledger, env: Env, peer: Peer, u: Use, artifact: Id)
    requires Like(l, k)
    ensures Alike(CheckData(l, env, peer, u, artifact), CheckData(k, env, peer, u, artifact))
  {
    hide Like, HolderContext, Provenance;
    HolderAlike(l, k, env, peer, u);
    ProvenanceAlike(l, k, env, peer, u, artifact);
  }

  lemma MarkLike(l: Ledger, k: Ledger, id: Id, b: Artifact)
    requires Like(l, k) && id in l.artifacts && b.sources == l.artifacts[id].sources
    ensures Like(l.(artifacts := l.artifacts[id := b]), k.(artifacts := k.artifacts[id := b]))
  {
    hide SessionsLike, RequestsLike, ReceiptsLike, GrantsLike, Needed;
    var aa := l.artifacts[id := b];
    forall g | Needed(l.receipts, aa, g) ensures Needed(l.receipts, l.artifacts, g) {
      if g in b.sources { HeldNeeded(l, id, g); }
      AddedNeeds(l, aa, id, b, g);
    }
    LessNeeded(l.grants, k.grants, l.receipts, l.artifacts, l.receipts, aa);
  }

  lemma AcknowledgeAlike(l: Ledger, k: Ledger, peer: Peer, artifact: Id, success: bool, reconcile: bool,
                         subject: string, profile: string)
    requires Like(l, k)
    ensures Alike(Acknowledge(l, peer, artifact, success, reconcile, subject, profile),
                  Acknowledge(k, peer, artifact, success, reconcile, subject, profile))
  {
    hide RequestsLike, ReceiptsLike, GrantsLike, SessionsLike, Like, FinishCleanup, Context, Bump;
    NextAlike(l, k);
    if artifact in l.artifacts {
      SessionsOfLike(l, k);
      RowOfSession(l.sessions, k.sessions, l.artifacts[artifact].session);
      var b := l.artifacts[artifact].(state := if success then Deleted else CleanupFailed);
      MarkLike(l, k, artifact, b);
      var m, n := l.(artifacts := l.artifacts[artifact := b]), k.(artifacts := k.artifacts[artifact := b]);
      FinishLike(m, n);
      BumpLike(FinishCleanup(m), FinishCleanup(n));
    }
  }

  lemma SessionsOfLike(l: Ledger, k: Ledger)
    requires Like(l, k)
    ensures SessionsLike(l.sessions, k.sessions) && RequestsLike(l.requests, k.requests)
  {
  }

  // ----- evaluation -----

  lemma PreflightAlike(l: Ledger, k: Ledger, env: Env, peer: Peer, p: Payload, purpose: Purpose)
    requires Like(l, k)
    ensures Preflight(l, env, peer, p, purpose) == Preflight(k, env, peer, p, purpose)
  {
    hide SessionsLike, RequestsLike, ReceiptsLike, GrantsLike, Context, ActiveContext, ActiveSession, Screen;
    hide ApprovalWellFormed, Answerable, Identifier;
    SessionAlike(l.sessions, k.sessions, env.now, peer, p);
    ScreenAlike(l, k, env, p, |p.requirements|);
  }

  lemma RepeatAlike(l: Ledger, k: Ledger, env: Env, receipt: Id, fingerprint: Payload)
    requires Like(l, k)
    ensures Alike(Repeat(l, env, receipt, fingerprint), Repeat(k, env, receipt, fingerprint))
  {
    hide Like, ReceiptValid;
    ReceiptAlike(l, k, receipt);
    ReceiptValidAlike(l, k, env, receipt);
  }

  /** Taking uses from grants in force keeps what matters alike. */
  lemma {:induction false} ConsumeLike(a: map<Id, Grant>, b: map<Id, Grant>, receipts: map<Id, Receipt>,
                                       artifacts: map<Id, Artifact>, ids: seq<Id>, n: nat)
    requires GrantsLike(a, b, receipts, artifacts) && n <= |ids|
    requires forall i :: 0 <= i < |ids| ==> ids[i] in a && !a[ids[i]].revoked
    ensures GrantsLike(Consume(a, ids, n), Consume(b, ids, n), receipts, artifacts)
  {
    hide GrantsLike;
    if n != 0 {
      ConsumeLike(a, b, receipts, artifacts, ids, n - 1);
      var m, o := Consume(a, ids, n - 1), Consume(b, ids, n - 1);
      var g := ids[n - 1];
      ConsumeShape(a, ids, n - 1);
      InForceAlike(m, o, receipts, artifacts, g);
      GrantPutLike(m, o, receipts, artifacts, g, m[g].(remaining := m[g].remaining - 1));
    }
  }

  lemma InForceAlike(a: map<Id, Grant>, b: map<Id, Grant>, receipts: map<Id, Receipt>, artifacts: map<Id, Artifact>,
                     g: Id)
    requires GrantsLike(a, b, receipts, artifacts) && g in a && !a[g].revoked
    ensures g in b && b[g] == a[g]
  {
    hide Needed;
    assert Matters(a, receipts, artifacts, g);
  }

  lemma MoreNeeded(a: map<Id, Grant>, b: map<Id, Grant>, receipts: map<Id, Receipt>, artifacts: map<Id, Artifact>,
                   rr: map<Id, Receipt>, ids: set<Id>)
    requires GrantsLike(a, b, receipts, artifacts)
    requires forall g :: g in ids ==> g in a && !a[g].revoked
    requires forall g :: Needed(rr, artifacts, g) ==> Needed(receipts, artifacts, g) || g in ids
    ensures GrantsLike(a, b, rr, artifacts)
  {
    hide Needed;
    forall g | Matters(a, rr, artifacts, g) || Matters(b, rr, artifacts, g) ensures g in a && g in b && a[g] == b[g] {
      assert Matters(a, receipts, artifacts, g) || Matters(b, receipts, artifacts, g);
    }
  }

  lemma ReceiptPutLike(a: map<Id, Receipt>, b: map<Id, Receipt>, id: Id, r: Receipt)
    requires ReceiptsLike(a, b)
    ensures ReceiptsLike(a[id := r], b[id := r])
  {
  }

  lemma InsertedNeeds(receipts: map<Id, Receipt>, artifacts: map<Id, Artifact>, id: Id, r: Receipt, g: Id)
    requires Needed(receipts[id := r], artifacts, g) && g !in r.sources
    ensures Needed(receipts, artifacts, g)
  {
    var rr := receipts[id := r];
    if exists q :: q in rr && rr[q].valid && g in rr[q].sources {
      var q :| q in rr && rr[q].valid && g in rr[q].sources;
      assert q in receipts && receipts[q].valid && g in receipts[q].sources;
    }
  }

  lemma ConsumeInForce(grants: map<Id, Grant>, ids: seq<Id>)
    requires forall i :: 0 <= i < |ids| ==> ids[i] in grants && !grants[ids[i]].revoked
    ensures forall g :: g in Elements(ids) ==>
              g in Consume(grants, ids, |ids|) && !Consume(grants, ids, |ids|)[g].revoked
  {
    hide Consume;
    ConsumeShape(grants, ids, |ids|);
  }

  lemma AuthorizedLike(l: Ledger, k: Ledger, e: Execution, p: Payload, ids: seq<Id>, now: nat)
    requires Like(l, k) && forall i :: 0 <= i < |ids| ==> ids[i] in l.grants && !l.grants[ids[i]].revoked
    ensures Like(Bump(Authorized(l, e, p, ids, now)), Bump(Authorized(k, e, p, ids, now)))
  {
    hide SessionsLike, RequestsLike, ReceiptsLike, GrantsLike, Needed, Consume, Elements;
    var r := Receipt(e, p, Some(p), now, true, Elements(ids));
    ConsumeLike(l.grants, k.grants, l.receipts, l.artifacts, ids, |ids|);
    ConsumeInForce(l.grants, ids);
    ReceiptPutLike(l.receipts, k.receipts, l.next, r);
    var rr := l.receipts[l.next := r];
    forall g | Needed(rr, l.artifacts, g) ensures Needed(l.receipts, l.artifacts, g) || g in Elements(ids) {
      if g !in r.sources { InsertedNeeds(l.receipts, l.artifacts, l.next, r, g); }
    }
    MoreNeeded(Consume(l.grants, ids, |ids|), Consume(k.grants, ids, |ids|), l.receipts, l.artifacts, rr,
               Elements(ids));
  }

  lemma AuthorizeAlike(l: Ledger, k: Ledger, env: Env, peer: Peer, p: Payload)
    requires Like(l, k)
    ensures Alike(AuthorizeAnew(l, env, peer, p), AuthorizeAnew(k, env, peer, p))
  {
    hide Like, CheckConditions, Authorized, Bump, Fit;
    var q := Question(p, None, Target(p, env.now), true);
    NextAlike(l, k);
    ConditionsAlike(l, k, env, peer, q, true);
    var v := CheckConditions(l, env, peer, q, true);
    if v.Ok? {
      VerdictSound(l, env, peer, q, true);
      FitInForce(l, p, v.value.grants);
      AuthorizedLike(l, k, Execution(peer.identity, p.operation, p.step), p, v.value.grants, env.now);
    }
  }

  lemma FitInForce(l: Ledger, p: Payload, ids: seq<Id>)
    requires forall i :: 0 <= i < |ids| ==> Fit(l, p, ids[i])
    ensures forall i :: 0 <= i < |ids| ==> ids[i] in l.grants && !l.grants[ids[i]].revoked
  {
  }

  lemma RowOfRequest(l: Ledger, k: Ledger, q: Id)
    requires Like(l, k)
    ensures q in l.requests <==> q in k.requests
    ensures q in l.requests ==> RequestLike(l.requests[q], k.requests[q])
  {
    hide SessionsLike, ReceiptsLike, GrantsLike;
  }

  lemma StoredAlike(l: Ledger, k: Ledger, env: Env, peer: Peer, a: RequestRow, b: RequestRow)
    requires Like(l, k) && RequestLike(a, b)
    ensures StoredApproval(l, env, peer, a) == StoredApproval(k, env, peer, b)
  {
    hide RequestsLike, ReceiptsLike, GrantsLike, SessionsLike, CheckConditions, ActiveSession, ActiveContext;
    ConditionsAlike(l, k, env, peer, Question(a.payload, a.chosen, a.target, false), false);
    SessionAlike(l.sessions, k.sessions, env.now, peer, a.payload);
  }

  lemma RequestPutLike(l: Ledger, k: Ledger, id: Id, a: RequestRow, b: RequestRow)
    requires Like(l, k) && RequestLike(a, b)
    ensures RequestsLike(l.requests[id := a], k.requests[id := b])
    ensures Like(Bump(l.(requests := l.requests[id := a])), Bump(k.(requests := k.requests[id := b])))
    ensures Like(Bump(l.(requests := l.requests[id := a], next := l.next + 1)),
                 Bump(k.(requests := k.requests[id := b], next := k.next + 1)))
  {
    hide SessionsLike, ReceiptsLike, GrantsLike, RequestLike;
  }

  lemma WithdrawLike(l: Ledger, k: Ledger, id: Id)
    requires Like(l, k) && id in l.requests && id in k.requests
    ensures Like(Withdraw(l, id), Withdraw(k, id))
  {
    hide Like, Bump;
    RowOfRequest(l, k, id);
    FinalRowLike(l.requests[id], k.requests[id], Invalidated);
    RequestPutLike(l, k, id, l.requests[id].(state := Invalidated, token := None),
                   k.requests[id].(state := Invalidated, token := None));
  }

  lemma RecallAlike(l: Ledger, k: Ledger, env: Env, peer: Peer, q: Id, p: Payload)
    requires Like(l, k)
    ensures Alike(Recall(l, env, peer, q, p), Recall(k, env, peer, q, p))
  {
    hide Like, StoredApproval, Withdraw;
    RowOfRequest(l, k, q);
    if q in l.requests {
      StoredAlike(l, k, env, peer, l.requests[q], k.requests[q]);
      WithdrawLike(l, k, q);
    }
  }

  lemma ModesAlike(l: Ledger, k: Ledger, p: Payload, rows: seq<Row>, mode: Mode)
    requires l.definitions == k.definitions && |rows| == |p.requirements|
    ensures ModesPermit(l, p, rows, mode) == ModesPermit(k, p, rows, mode)
  {
  }

  lemma AdmittedLike(l: Ledger, k: Ledger, peer: Peer, key: ClientKey, p: Payload, v: Verdict, target: Option<nat>,
                     now: nat)
    requires Like(l, k) && |v.rows| == |p.requirements|
    ensures Like(Admitted(l, peer, key, p, v, target, now), Admitted(k, peer, key, p, v, target, now))
  {
    hide SessionsLike, ReceiptsLike, GrantsLike, RequestsLike, RequestLike, Revised;
    var row := Admitted(l, peer, key, p, v, target, now).requests[l.next];
    RequestItself(row);
    RequestPutLike(l, k, l.next, row, row);
  }

  lemma AdmitAlike(l: Ledger, k: Ledger, env: Env, peer: Peer, p: Payload)
    requires Like(l, k)
    ensures Alike(Admit(l, env, peer, p), Admit(k, env, peer, p))
  {
    hide Like, RequestsLike, CheckConditions, ModesPermit, PendingRequests, Admitted;
    NextAlike(l, k);
    SessionsOfLike(l, k);
    PendingAlike(l, k, 0);
    var target := Target(p, env.now);
    ConditionsAlike(l, k, env, peer, Question(p, None, target, false), false);
    var v := CheckConditions(l, env, peer, Question(p, None, target, false), false);
    if v.Ok? && |v.value.rows| == |p.requirements| {
      if p.approval.Some? { ModesAlike(l, k, p, v.value.rows, p.approval.value.mode); }
      AdmittedLike(l, k, peer, ClientKey(peer.identity, p.subject, p.profile, p.client), p, v.value, target, env.now);
    }
  }

  lemma EvaluateAlike(l: Ledger, k: Ledger, env: Env, peer: Peer, p: Payload, purpose: Purpose)
    requires Like(l, k)
    ensures Alike(Evaluate(l, env, peer, p, purpose), Evaluate(k, env, peer, p, purpose))
  {
    hide Like, Preflight, CheckConditions, Repeat, AuthorizeAnew, Recall, Admit;
    NextAlike(l, k);
    PreflightAlike(l, k, env, peer, p, purpose);
    var f := Fingerprint(p, purpose);
    match purpose
    case Authorize =>
      var e := Execution(peer.identity, f.operation, f.step);
      AuthorizeAlike(l, k, env, peer, f);
      if e in l.executions { RepeatAlike(l, k, env, l.executions[e], f); }
    case Create =>
      var key := ClientKey(peer.identity, f.subject, f.profile, f.client);
      AdmitAlike(l, k, env, peer, f);
      if key in l.clients { RecallAlike(l, k, env, peer, l.clients[key], f); }
    case Query =>
      ConditionsAlike(l, k, env, peer, Question(f, None, Target(f, env.now), true), false);
  }

  // ----- results and prompts -----

  lemma FindRequestAlike(l: Ledger, k: Ledger, peer: Peer, ref: RequestRef, ui: bool)
    requires Like(l, k)
    ensures FindRequest(l, peer, ref, ui) == FindRequest(k, peer, ref, ui)
    ensures FindRequest(l, peer, ref, ui).Ok? ==> FindRequest(l, peer, ref, ui).value in l.requests
  {
    hide Like, Context;
    NextAlike(l, k);
    match ref
    case ById(id) => RowOfRequest(l, k, id);
    case ByClient(client, subject, profile) =>
      var key := ClientKey(peer.identity, subject, profile, client);
      if key in l.clients { RowOfRequest(l, k, l.clients[key]); }
  }

  lemma ReadAlike(l: Ledger, k: Ledger, env: Env, peer: Peer, ref: RequestRef, cancel: bool)
    requires Like(l, k)
    ensures Alike(ReadResult(l, env, peer, ref, cancel), ReadResult(k, env, peer, ref, cancel))
  {
    hide Like, FindRequest, StoredApproval, ActiveContext, Withdraw, Bump;
    FindRequestAlike(l, k, peer, ref, false);
    var id := FindRequest(l, peer, ref, false);
    if id.Ok? {
      RowOfRequest(l, k, id.value);
      var a, b := l.requests[id.value], k.requests[id.value];
      StoredAlike(l, k, env, peer, a, b);
      WithdrawLike(l, k, id.value);
      FinalRowLike(a, b, Cancelled);
      RequestPutLike(l, k, id.value, a.(state := Cancelled, token := None), b.(state := Cancelled, token := None));
    }
  }

  lemma {:induction false} DisplayableAlike(l: Ledger, k: Ledger, env: Env, q: RequestRow, n: nat)
    requires l.definitions == k.definitions && n <= |q.payload.requirements|
    ensures Displayable(l, env, q, n) == Displayable(k, env, q, n)
  {
    if n != 0 { DisplayableAlike(l, k, env, q, n - 1); }
  }

  lemma OfferAlike(l: Ledger, k: Ledger, q: RequestRow)
    requires l.definitions == k.definitions
    ensures PersistentOffer(l, q) == PersistentOffer(k, q) && TypedPrompt(l, q) == TypedPrompt(k, q)
  {
  }

  lemma OpenPromptAlike(l: Ledger, k: Ledger, env: Env, peer: Peer, a: RequestRow, b: RequestRow, u: Screening,
                        respond: bool)
    requires Like(l, k) && RequestLike(a, b)
    ensures OpenPrompt(l, env, peer, a, u, respond) == OpenPrompt(k, env, peer, b, u, respond)
    ensures OpenPrompt(l, env, peer, a, u, respond).Ok? ==> a == b
  {
    hide SessionsLike, RequestsLike, ReceiptsLike, GrantsLike, CheckConditions, ActiveSession, ActiveContext;
    hide Displayable;
    SessionAlike(l.sessions, k.sessions, env.now, peer, a.payload);
    ConditionsAlike(l, k, env, peer, Question(a.payload, None, a.target, false), false);
    DisplayableAlike(l, k, env, a, |a.payload.requirements|);
  }

  lemma DisplayAlike(l: Ledger, k: Ledger, peer: Peer, id: Id, q: RequestRow, u: Screening, current: Verdict)
    requires Like(l, k) && |current.rows| == |q.rows|
    ensures Alike(Ok(Display(l, peer, id, q, u, current)), Ok(Display(k, peer, id, q, u, current)))
  {
    hide Like, FinalRow, Outstanding, AllRows, PersistentOffer, TypedPrompt, Bump, RequestLike;
    NextAlike(l, k);
    OfferAlike(l, k, q);
    var displayed := Displayed(l, q, current);
    RequestItself(FinalRow(q, current));
    RequestItself(ShownRow(l, peer, q, u, displayed));
    RequestPutLike(l, k, id, FinalRow(q, current), FinalRow(q, current));
    RequestPutLike(l, k, id, ShownRow(l, peer, q, u, displayed), ShownRow(k, peer, q, u, displayed));
  }

  lemma RequestItself(q: RequestRow)
    ensures RequestLike(q, q)
  {
  }

  lemma ShowAlike(l: Ledger, k: Ledger, env: Env, peer: Peer, ref: RequestRef, u: Screening)
    requires Like(l, k)
    ensures Alike(ShowPrompt(l, env, peer, ref, u), ShowPrompt(k, env, peer, ref, u))
  {
    hide Like, RequestLike, FindRequest, OpenPrompt, Display, TypedPrompt, Identifier;
    FindRequestAlike(l, k, peer, ref, true);
    NextAlike(l, k);
    var id := FindRequest(l, peer, ref, true);
    if id.Ok? {
      RowOfRequest(l, k, id.value);
      var a, b := l.requests[id.value], k.requests[id.value];
      OpenPromptAlike(l, k, env, peer, a, b, u, false);
      OfferAlike(l, k, a);
      var current := OpenPrompt(l, env, peer, a, u, false);
      if current.Ok? && |current.value.rows| == |a.rows| { DisplayAlike(l, k, peer, id.value, a, u, current.value); }
    }
  }

  lemma GrantPutLike(a: map<Id, Grant>, b: map<Id, Grant>, receipts: map<Id, Receipt>, artifacts: map<Id, Artifact>,
                     id: Id, x: Grant)
    requires GrantsLike(a, b, receipts, artifacts)
    ensures GrantsLike(a[id := x], b[id := x], receipts, artifacts)
  {
    hide Needed;
    var aa, bb := a[id := x], b[id := x];
    forall g | Matters(aa, receipts, artifacts, g) || Matters(bb, receipts, artifacts, g)
      ensures g in aa && g in bb && aa[g] == bb[g]
    {
      if g != id { assert Matters(a, receipts, artifacts, g) || Matters(b, receipts, artifacts, g); }
    }
  }

  lemma GrantAddedLike(l: Ledger, k: Ledger, x: Grant)
    requires Like(l, k)
    ensures Like(l.(grants := l.grants[l.next := x], next := l.next + 1),
                 k.(grants := k.grants[k.next := x], next := k.next + 1))
  {
    hide SessionsLike, RequestsLike, ReceiptsLike, GrantsLike;
    GrantPutLike(l.grants, k.grants, l.receipts, l.artifacts, l.next, x);
  }

  /** The grants with names from `n` on are the same in both tables. */
  ghost predicate SameAbove(a: map<Id, Grant>, b: map<Id, Grant>, n: Id) {
    (forall g :: g in a && g >= n ==> g in b) && (forall g :: g in b && g >= n ==> g in a)
  }

  lemma {:induction false} IssueLike(l: Ledger, k: Ledger, q: RequestRow, current: Verdict, mode: Mode, expires: nat,
                                     n: nat)
    requires Like(l, k) && SameAbove(l.grants, k.grants, l.next)
    requires n <= |q.rows| == |current.rows| == |q.payload.requirements|
    ensures var a, b := Issue(l, q, current, mode, expires, n), Issue(k, q, current, mode, expires, n);
            if a.Err? then b == a
            else b.Ok? && Like(a.value, b.value) && SameAbove(a.value.grants, b.value.grants, l.next)
  {
    hide Like, Wanted, IssueOne, SameAbove;
    if n != 0 {
      IssueLike(l, k, q, current, mode, expires, n - 1);
      var a, b := Issue(l, q, current, mode, expires, n - 1), Issue(k, q, current, mode, expires, n - 1);
      if a.Ok? { IssueOneLike(a.value, b.value, q, mode, expires, n - 1, l.next); }
    }
  }

  lemma IssueOneLike(l: Ledger, k: Ledger, q: RequestRow, mode: Mode, expires: nat, i: nat, bound: Id)
    requires Like(l, k) && SameAbove(l.grants, k.grants, bound) && i < |q.payload.requirements|
    ensures var a, b := IssueOne(l, q, mode, expires, i), IssueOne(k, q, mode, expires, i);
            if a.Err? then b == a
            else b.Ok? && Like(a.value, b.value) && SameAbove(a.value.grants, b.value.grants, bound)
  {
    hide Like, NewGrant, Definition, SameAbove;
    NextAlike(l, k);
    var c := Definition(l.definitions, q.payload.requirements[i].definition);
    if c.Ok? {
      var x := NewGrant(q, i, c.value, mode, expires);
      GrantAddedLike(l, k, x);
      SameAboveAdded(l.grants, k.grants, bound, l.next, x);
    }
  }

  lemma SameAboveAdded(a: map<Id, Grant>, b: map<Id, Grant>, n: Id, g: Id, x: Grant)
    requires SameAbove(a, b, n)
    ensures SameAbove(a[g := x], b[g := x], n)
  {
  }

  lemma AnswerAlike(l: Ledger, k: Ledger, m: Ledger, n: Ledger, id: Id, q: RequestRow, u: Screening, mode: Mode,
                    v: Verdict)
    requires Like(m, n) && |v.rows| == |q.rows| && NewGrants(l, m) == NewGrants(k, n)
    ensures Alike(Ok(Answer(l, m, id, q, u, mode, v)), Ok(Answer(k, n, id, q, u, mode, v)))
  {
    hide Like, Redecided, NewGrants, Bump, RequestLike;
    var state := if !u.allow then Refused else if v.decision.ALLOWED? then Allowed else Invalidated;
    var rows := Redecided(q.rows, if u.allow then v.rows else Refuse(q, v.rows));
    var row := q.(state := state, token := None, rows := rows, locale := "", shownRows := {},
                  chosen := if Choices(q) then Some(mode) else q.chosen);
    RequestItself(row);
    RequestPutLike(m, n, id, row, row);
  }

  lemma NewGrantsAlike(l: Ledger, k: Ledger, m: Ledger, n: Ledger)
    requires Inv(l) && Inv(k) && l.next == k.next && Issues(l, m) && Issues(k, n)
             && SameAbove(m.grants, n.grants, l.next)
    ensures NewGrants(l, m) == NewGrants(k, n)
  {
    hide Inv;
    NamedGrants(l);
    NamedGrants(k);
  }

  lemma SameAboveNext(l: Ledger, k: Ledger)
    requires Inv(l) && Inv(k) && l.next == k.next
    ensures SameAbove(l.grants, k.grants, l.next)
  {
    hide Inv;
    NamedGrants(l);
    NamedGrants(k);
  }

  lemma ConcludeAlike(l: Ledger, k: Ledger, m: Ledger, n: Ledger, env: Env, peer: Peer, id: Id, q: RequestRow,
                      u: Screening, mode: Mode)
    requires Like(m, n) && NewGrants(l, m) == NewGrants(k, n)
    ensures Alike(Conclude(l, m, env, peer, id, q, u, mode), Conclude(k, n, env, peer, id, q, u, mode))
  {
    hide Like, CheckConditions, Answer, NewGrants, Asked;
    ConditionsAlike(m, n, env, peer, Asked(q, mode), false);
    var v := CheckConditions(m, env, peer, Asked(q, mode), false);
    if v.Ok? && |v.value.rows| == |q.rows| { AnswerAlike(l, k, m, n, id, q, u, mode, v.value); }
  }

  lemma SettleAlike(l: Ledger, k: Ledger, env: Env, peer: Peer, id: Id, q: RequestRow, u: Screening, mode: Mode,
                    current: Verdict)
    requires Inv(l) && Inv(k) && Like(l, k) && |q.payload.requirements| == |q.rows| == |current.rows|
    ensures Alike(Settle(l, env, peer, id, q, u, mode, current), Settle(k, env, peer, id, q, u, mode, current))
  {
    hide Inv, Like, Issues, SameAbove, Conclude, Issue, NewGrants;
    NextAlike(l, k);
    SameAboveNext(l, k);
    var expires := if mode.TIMED? then env.now + u.duration else 0;
    IssueLike(l, k, q, current, mode, expires, |q.rows|);
    if u.allow {
      var a, b := Issue(l, q, current, mode, expires, |q.rows|), Issue(k, q, current, mode, expires, |q.rows|);
      if a.Ok? {
        IssueUnused(l, q, current, mode, expires, |q.rows|);
        IssueUnused(k, q, current, mode, expires, |q.rows|);
        NewGrantsAlike(l, k, a.value, b.value);
        ConcludeAlike(l, k, a.value, b.value, env, peer, id, q, u, mode);
      }
    } else {
      IssuesNothing(l);
      IssuesNothing(k);
      NewGrantsAlike(l, k, l, k);
      ConcludeAlike(l, k, l, k, env, peer, id, q, u, mode);
    }
  }

  lemma ModeAlike(l: Ledger, k: Ledger, peer: Peer, q: RequestRow, u: Screening)
    requires l.definitions == k.definitions
    ensures AnswerMode(l, q, u) == AnswerMode(k, q, u) && Presented(l, peer, q, u) == Presented(k, peer, q, u)
  {
    hide PersistentOffer, TypedPrompt;
    OfferAlike(l, k, q);
  }

  lemma RespondAlike(l: Ledger, k: Ledger, env: Env, peer: Peer, ref: RequestRef, u: Screening)
    requires Inv(l) && Inv(k) && Like(l, k)
    ensures Alike(Respond(l, env, peer, ref, u), Respond(k, env, peer, ref, u))
  {
    hide Inv, Like, RequestLike, FindRequest, OpenPrompt, Presented, AnswerMode, CheckConditions, Settle, Asked;
    FindRequestAlike(l, k, peer, ref, true);
    NextAlike(l, k);
    var id := FindRequest(l, peer, ref, true);
    if id.Ok? {
      RowOfRequest(l, k, id.value);
      var q, b := l.requests[id.value], k.requests[id.value];
      OpenPromptAlike(l, k, env, peer, q, b, u, true);
      var first := OpenPrompt(l, env, peer, q, u, true);
      if first.Ok? {
        ModeAlike(l, k, peer, q, u);
        var mode := AnswerMode(l, q, u);
        if mode.Ok? {
          ConditionsAlike(l, k, env, peer, Asked(q, mode.value), false);
          var current := if Choices(q) then CheckConditions(l, env, peer, Asked(q, mode.value), false) else first;
          if current.Ok? && |q.payload.requirements| == |q.rows| == |current.value.rows| {
            SettleAlike(l, k, env, peer, id.value, q, u, mode.value, current.value);
          }
        }
      }
    }
  }

  lemma DispatchAlike(l: Ledger, k: Ledger, env: Env, peer: Peer, call: Call)
    requires Inv(l) && Inv(k) && Like(l, k)
    ensures Alike(Dispatch(l, env, peer, call), Dispatch(k, env, peer, call))
  {
    hide Inv, Alike, Like, Evaluate, ShowPrompt, Respond, ReadResult, SessionOpen, SessionWatch, SessionAct, Revoke;
    hide Register, Derive, CheckData, Acknowledge;
    NextIsNew(l);
    match call
    case Ask(p, purpose) => EvaluateAlike(l, k, env, peer, p, purpose);
    case Show(ref, u) => ShowAlike(l, k, env, peer, ref, u);
    case Decide(ref, u) => RespondAlike(l, k, env, peer, ref, u);
    case Read(ref, cancel) => ReadAlike(l, k, env, peer, ref, cancel);
    case Begin(subject, profile, m) => SessionOpenAlike(l, k, env, peer, subject, profile, m);
    case Watch(subject, profile, id) => WatchAlike(l, k, peer, subject, profile, id);
    case Act(subject, profile, id, generation, verb) =>
      SessionActAlike(l, k, env, peer, subject, profile, id, generation, verb);
    case Withhold(d, subject, profile) => RevokeAlike(l, k, peer, d, subject, profile);
    case Hold(u, receipt, i) => RegisterAlike(l, k, env, peer, u, receipt, i);
    case Extend(u, parents) => DeriveAlike(l, k, env, peer, u, parents);
    case Reuse(u, artifact) => CheckDataAlike(l, k, env, peer, u, artifact);
    case Release(artifact, success, reconcile, subject, profile) =>
      AcknowledgeAlike(l, k, peer, artifact, success, reconcile, subject, profile);
  }

  // ----- the other steps -----

  lemma PendingOnAlike(l: Ledger, k: Ledger, names: set<string>)
    requires RequestsLike(l.requests, k.requests)
    ensures PendingOnAny(l, names) == PendingOnAny(k, names)
  {
    forall q | q in l.requests
      ensures l.requests[q].state == k.requests[q].state && l.requests[q].payload == k.requests[q].payload
    {
      assert RequestLike(l.requests[q], k.requests[q]);
    }
  }

  lemma GrantsOfAlike(l: Ledger, k: Ledger, names: set<string>)
    requires Like(l, k)
    ensures SameGrants(l, k, GrantsOfAny(l, names), GrantsOfAny(k, names))
  {
    hide Like, Matters;
    forall g | Matters(l.grants, l.receipts, l.artifacts, g)
      ensures g in GrantsOfAny(l, names) <==> g in GrantsOfAny(k, names)
    {
      MattersAlike(l, k, g);
      MattersIn(l.grants, l.receipts, l.artifacts, g);
    }
  }

  lemma TableReplaced(l: Ledger, k: Ledger, table: map<string, Config>, applied: nat)
    requires Like(l, k)
    ensures Like(l.(definitions := table), k.(definitions := table))
            && Like(l.(applied := applied), k.(applied := applied))
  {
    hide SessionsLike, RequestsLike, ReceiptsLike, GrantsLike;
  }

  lemma RedefineLike(l: Ledger, k: Ledger, definitions: map<string, Config>, names: set<string>,
                     installed: (string, string, string) -> bool)
    requires Like(l, k) && names <= definitions.Keys
    ensures Like(Redefine(l, definitions, names, installed), Redefine(k, definitions, names, installed))
  {
    hide Like, RequestsLike, SameGrants, RevokeSet, InvalidateSet, BlockSet, FinalizeSet, GrantsOfAny, ReceiptsOn;
    hide ArtifactsOn, PendingOnAny, Reproject;
    NextAlike(l, k);
    SessionsOfLike(l, k);
    var gs, hs := GrantsOfAny(l, names), GrantsOfAny(k, names);
    GrantsOfAlike(l, k, names);
    RetireOnLike(l, k, gs, hs);
    var m, n := Retire(l, gs, ReceiptsOn(l, gs), ArtifactsOn(l, gs)),
        Retire(k, hs, ReceiptsOn(k, hs), ArtifactsOn(k, hs));
    PendingOnAlike(l, k, names);
    FinalizedLike(m, n, PendingOnAny(l, names), PendingOnAny(k, names), Invalidated);
    TableReplaced(m.(requests := FinalizeSet(m.requests, PendingOnAny(l, names), Invalidated)),
                  n.(requests := FinalizeSet(n.requests, PendingOnAny(k, names), Invalidated)),
                  Reproject(l.definitions, definitions, names, installed), 0);
  }

  lemma ReplayLike(l: Ledger, k: Ledger, book: R.Book, installed: (string, string, string) -> bool)
    requires Like(l, k)
    ensures Like(Replay(l, book, installed), Replay(k, book, installed))
  {
    hide Like, Redefine, Bump;
    NextAlike(l, k);
    var names := Changed(l, book.definitions, installed);
    assert names == Changed(k, book.definitions, installed);
    RedefineLike(l, k, book.definitions, names, installed);
    var m, n := Redefine(l, book.definitions, names, installed), Redefine(k, book.definitions, names, installed);
    NextAlike(m, n);
    TableReplaced(m, n, map[], book.revision);
    BumpLike(m.(applied := book.revision), n.(applied := book.revision));
  }

  lemma FencedSets(l: Ledger, k: Ledger, bindings: seq<Binding>, retired: seq<Binding>)
    requires Like(l, k)
    ensures RequestsOf(l, bindings) == RequestsOf(k, bindings)
    ensures forall g :: Matters(l.grants, l.receipts, l.artifacts, g) ==>
              (g in GrantsUnder(l, retired) <==> g in GrantsUnder(k, retired))
    ensures forall r :: r in l.receipts && l.receipts[r].valid ==>
              (r in ReceiptsUnder(l, bindings) <==> r in ReceiptsUnder(k, bindings))
  {
    hide Like, Matters, BoundTo;
    forall g | Matters(l.grants, l.receipts, l.artifacts, g)
      ensures g in GrantsUnder(l, retired) <==> g in GrantsUnder(k, retired)
    {
      MattersAlike(l, k, g);
      MattersIn(l.grants, l.receipts, l.artifacts, g);
    }
    forall r | r in l.receipts && l.receipts[r].valid
      ensures r in ReceiptsUnder(l, bindings) <==> r in ReceiptsUnder(k, bindings)
    {
      ReceiptAlike(l, k, r);
    }
    RequestsOfAlike(l, k, bindings);
  }

  lemma RequestsOfAlike(l: Ledger, k: Ledger, bindings: seq<Binding>)
    requires Like(l, k)
    ensures RequestsOf(l, bindings) == RequestsOf(k, bindings)
  {
    hide SessionsLike, ReceiptsLike, GrantsLike, BoundTo;
    forall q | q in l.requests
      ensures l.requests[q].state == k.requests[q].state && l.requests[q].payload == k.requests[q].payload
    {
      assert RequestLike(l.requests[q], k.requests[q]);
    }
  }

  lemma SessionsOfAlike(l: Ledger, k: Ledger, bindings: seq<Binding>)
    requires Like(l, k)
    ensures SessionsOf(l, bindings) == SessionsOf(k, bindings)
  {
    hide RequestsLike, ReceiptsLike, GrantsLike, BoundTo;
    forall s | s in l.sessions ensures Unproved(l.sessions[s]) == Unproved(k.sessions[s]) {
      assert SessionLike(l.sessions[s], k.sessions[s]);
    }
  }

  lemma RetireKept(l: Ledger, gs: set<Id>, rs: set<Id>)
    ensures Retire(l, gs, rs, {}) == l.(grants := RevokeSet(l.grants, gs), receipts := InvalidateSet(l.receipts, rs))
  {
    BlockNone(l.artifacts);
  }

  lemma FenceLike(l: Ledger, k: Ledger, bindings: seq<Binding>, all: bool, user: string)
    requires Like(l, k)
    ensures Like(FenceProfiles(l, bindings, all, user), FenceProfiles(k, bindings, all, user))
  {
    hide Like, Matters, CloseAll, FinishCleanup, RevokeSet, InvalidateSet, FinalizeSet, SessionsOf, RequestsOf;
    hide GrantsUnder, ReceiptsUnder, Retired, Retire, Bump;
    NextAlike(l, k);
    SessionsOfAlike(l, k, bindings);
    var ids := SessionsOf(l, bindings);
    CloseAllLike(l, k, ids, l.next);
    var m, n := CloseAll(l, ids, l.next), CloseAll(k, ids, l.next);
    var retired := Retired(bindings, all, user);
    FencedSets(m, n, bindings, retired);
    var gs, hs, rs, ss := GrantsUnder(m, retired), GrantsUnder(n, retired), ReceiptsUnder(m, bindings),
        ReceiptsUnder(n, bindings);
    RetireLike(m, n, gs, hs, rs, ss, {}, {});
    RetireKept(m, gs, rs);
    RetireKept(n, hs, ss);
    var m', n' := m.(grants := RevokeSet(m.grants, gs), receipts := InvalidateSet(m.receipts, rs)),
                  n.(grants := RevokeSet(n.grants, hs), receipts := InvalidateSet(n.receipts, ss));
    FinalizedLike(m', n', RequestsOf(m, bindings), RequestsOf(n, bindings), Invalidated);
    var m'', n'' := m'.(requests := FinalizeSet(m.requests, RequestsOf(m, bindings), Invalidated)),
                    n'.(requests := FinalizeSet(n.requests, RequestsOf(n, bindings), Invalidated));
    FinishLike(m'', n'');
    BumpLike(FinishCleanup(m''), FinishCleanup(n''));
  }

  lemma QuiescedLike(l: Ledger, k: Ledger)
    requires Like(l, k)
    ensures Like(Quiesced(l), Quiesced(k))
  {
    hide SessionsLike, RequestsLike, ReceiptsLike, GrantsLike, Matters, RevokeSet, InvalidateSet, BlockSet;
    hide FinalizeSet, CloseSet, LiveSessions, PendingRequests, Temporary;
    forall g | Matters(l.grants, l.receipts, l.artifacts, g) ensures g in Temporary(l) <==>
      g in Temporary(k) { TemporaryAlike(l, k, g); }
    KeysAlike(l, k);
    RetireLike(l, k, Temporary(l), Temporary(k), l.receipts.Keys, k.receipts.Keys, l.artifacts.Keys, k.artifacts.Keys);
    LiveAlike(l, k);
    CloseLike(l.sessions, k.sessions, LiveSessions(l), LiveSessions(k));
    PendingAlike(l, k, 0);
    FinalizeLike(l.requests, k.requests, PendingRequests(l), Invalidated);
  }

  lemma TemporaryAlike(l: Ledger, k: Ledger, g: Id)
    requires Like(l, k) && Matters(l.grants, l.receipts, l.artifacts, g)
    ensures g in Temporary(l) <==> g in Temporary(k)
  {
    hide Like, Matters;
    MattersAlike(l, k, g);
    MattersIn(l.grants, l.receipts, l.artifacts, g);
  }

  lemma KeysAlike(l: Ledger, k: Ledger)
    requires Like(l, k)
    ensures l.receipts.Keys == k.receipts.Keys
  {
  }

  lemma ResetLike(l: Ledger, k: Ledger)
    requires Like(l, k)
    ensures Like(ResetRuntime(l), ResetRuntime(k))
  {
    hide Like, Quiesced, FinishCleanup, Bump;
    QuiescedLike(l, k);
    FinishLike(Quiesced(l), Quiesced(k));
    BumpLike(FinishCleanup(Quiesced(l)), FinishCleanup(Quiesced(k)));
  }

  lemma CompensateLike(l: Ledger, k: Ledger, issued: set<Id>, request: Option<Id>)
    requires Like(l, k)
    ensures Like(Compensate(l, issued, request), Compensate(k, issued, request))
  {
    hide Like, Matters, RevokeSet, FinalizeSet, Retire, Bump;
    RetireLike(l, k, issued, issued, {}, {}, {}, {});
    RevokeOnly(l, issued);
    RevokeOnly(k, issued);
    var m, n := l.(grants := RevokeSet(l.grants, issued)), k.(grants := RevokeSet(k.grants, issued));
    if request.Some? {
      FinalizedLike(m, n, {request.value}, {request.value}, Invalidated);
      BumpLike(m.(requests := FinalizeSet(m.requests, {request.value}, Invalidated)),
               n.(requests := FinalizeSet(n.requests, {request.value}, Invalidated)));
    } else {
      BumpLike(m, n);
    }
  }

  lemma CheckedAlike(l: Ledger, k: Ledger, call: Call)
    requires Like(l, k) && (call.Hold? ==> call.receipt in l.receipts && l.receipts[call.receipt].valid)
    ensures Checked(l, call) == Checked(k, call)
  {
    hide Like;
    if call.Hold? { ReceiptAlike(l, k, call.receipt); }
    if (call.Show? || call.Decide?) && call.ref.ById? { RowOfRequest(l, k, call.ref.id); }
  }

  lemma PublishAlike(l: Ledger, k: Ledger, book: R.Book, env: Env, peer: Peer, call: Call, reply: Reply)
    requires Like(l, k) && (call.Hold? ==> call.receipt in l.receipts && l.receipts[call.receipt].valid)
    ensures Publish(l, book, env, peer, call, reply) == Publish(k, book, env, peer, call, reply)
  {
    hide Like, Checked, StillInstalled, Provenance, Sensitive;
    CheckedAlike(l, k, call);
    match call
    case Reuse(u, artifact) => ProvenanceAlike(l, k, env, peer, u, artifact);
    case Hold(u, _, _) => if reply.Stored? { ProvenanceAlike(l, k, env, peer, u, reply.artifact); }
    case Extend(u, _) => if reply.Stored? { ProvenanceAlike(l, k, env, peer, u, reply.artifact); }
    case _ =>
  }

  lemma HoldIsOnValid(l: Ledger, env: Env, peer: Peer, u: Use, r: Id, i: nat)
    requires Register(l, env, peer, u, r, i).Ok?
    ensures var m := Register(l, env, peer, u, r, i).value.db; r in m.receipts && m.receipts[r].valid
  {
    hide ReceiptValid, HolderContext, UndeletedIn, Definition;
    ReceiptValidSound(l, env, r);
  }

  lemma CommitAlike(l: Ledger, k: Ledger, a: Result<Change>, b: Result<Change>, f: Fences)
    requires Like(l, k) && Alike(a, b) && a.Ok?
    ensures var x, y := Commit(l, a.value, f), Commit(k, b.value, f);
            Like(x.db, y.db) && x.halted == y.halted && x.status == y.status
  {
    hide Like, Compensate;
    CompensateLike(a.value.db, b.value.db, a.value.issued, a.value.request);
  }

  lemma CommittedReceipts(l: Ledger, c: Change, f: Fences)
    ensures Commit(l, c, f).status.None? ==> Commit(l, c, f).db == c.db
  {
  }

  lemma SealAlike(l: Ledger, k: Ledger, a: Result<Change>, b: Result<Change>, book: R.Book, env: Env, peer: Peer,
                  call: Call)
    requires Like(l, k) && Alike(a, b) && a.Ok?
    requires call.Hold? ==> call.receipt in a.value.db.receipts && a.value.db.receipts[call.receipt].valid
    ensures var x, y := Seal(l, a.value, book, env, peer, call), Seal(k, b.value, book, env, peer, call);
            Like(x.db, y.db) && x.halted == y.halted && x.result == y.result
  {
    hide Like, Commit, Publish;
    CommitAlike(l, k, a, b, env.fences);
    CommittedReceipts(l, a.value, env.fences);
    var d, d' := Commit(l, a.value, env.fences), Commit(k, b.value, env.fences);
    if d.status.None? { PublishAlike(d.db, d'.db, book, env, peer, call, a.value.reply); }
  }

  lemma TransactAlike(l: Ledger, k: Ledger, book: R.Book, env: Env, peer: Peer, call: Call)
    requires Inv(l) && Inv(k) && Like(l, k)
    ensures var x, y := Transact(l, book, env, peer, call), Transact(k, book, env, peer, call);
            Like(x.db, y.db) && x.halted == y.halted && x.result == y.result
  {
    hide Inv, Core, Like, Alike, Expire, Dispatch, Seal, SameTable, Quiet;
    ExpireLike(l, k, env.now);
    var m, n := Expire(l, env.now), Expire(k, env.now);
    SweptKeeps(l, env.now);
    SweptKeeps(k, env.now);
    var a, b := Dispatch(m, env, peer, call), Dispatch(n, env, peer, call);
    DispatchAlike(m, n, env, peer, call);
    SameOutcome(a, b);
    if a.Ok? {
      HeldReceipt(m, env, peer, call);
      SealAlike(m, n, a, b, book, env, peer, call);
    }
  }

  lemma SameOutcome(a: Result<Change>, b: Result<Change>)
    requires Alike(a, b)
    ensures a.Err? ==> b == a
    ensures a.Ok? ==> b.Ok?
  {
  }

  lemma HeldReceipt(l: Ledger, env: Env, peer: Peer, call: Call)
    requires Dispatch(l, env, peer, call).Ok?
    ensures call.Hold? ==>
              var m := Dispatch(l, env, peer, call).value.db;
              call.receipt in m.receipts && m.receipts[call.receipt].valid
  {
    hide Register, Evaluate, Respond;
    if call.Hold? { HoldIsOnValid(l, env, peer, call.use, call.receipt, call.requirement); }
  }

  // ----- runs -----

  /** Two repositories that differ at most in what compaction may clear. */
  ghost predicate RepoLike(s: Repo, t: Repo) {
    s == t.(db := s.db) && Like(s.db, t.db)
  }

  /** The same event, but for the records a compaction picks. */
  ghost predicate SameButRecords(e: Stamped, f: Stamped) {
    e.env == f.env && (e.event == f.event || (e.event.Tick? && f.event.Tick?)
        || (e.event.Maintain? && f.event.Maintain?))
  }

  lemma EnsureAlike(s: Repo, t: Repo, env: Env)
    requires RepoLike(s, t)
    ensures RepoLike(Ensure(s, env), Ensure(t, env))
  {
    hide Like, Replay;
    ReplayLike(s.db, t.db, s.book, env.installed);
  }

  /** Clearing different records on both sides. */
  lemma ClearedLike(l: Ledger, k: Ledger, xs: seq<Record>, ys: seq<Record>)
    requires Like(l, k)
    ensures Like(ClearAll(l, xs), ClearAll(k, ys))
  {
    hide Like, ClearAll;
    ClearAllLike(l, xs);
    ClearAllLike(k, ys);
    LikeSymmetric(l, ClearAll(l, xs));
    LikeTransitive(ClearAll(l, xs), l, k);
    LikeTransitive(ClearAll(l, xs), k, ClearAll(k, ys));
  }

  lemma StepAlike(s: Repo, t: Repo, e: Stamped, f: Stamped)
    requires Steady(s) && Steady(t) && RepoLike(s, t) && SameButRecords(e, f)
    ensures RepoLike(Step(s, e).0, Step(t, f).0) && Step(s, e).1 == Step(t, f).1
  {
    hide Inv, Sound, Projects, Like, Replay, ResetRuntime, Expire, FenceProfiles, ClearAll, Transact, Ensure, R.Enact;
    if e.event.Restart? {
      ReplayLike(s.db, t.db, s.book, e.env.installed);
      ResetLike(Replay(s.db, s.book, e.env.installed), Replay(t.db, t.book, e.env.installed));
    } else if !s.halted {
      EnsureAlike(s, t, e.env);
      EnsureKeeps(s, e.env);
      EnsureKeeps(t, e.env);
      var u, v := Ensure(s, e.env), Ensure(t, e.env);
      match e.event
      case Invoke(peer, call) => TransactAlike(u.db, v.db, u.book, e.env, peer, call);
      case Enroll(step, crash) =>
        EnsureAlike(u.(book := R.Enact(u.book, step), fenced := true),
                    v.(book := R.Enact(v.book, step), fenced := true), e.env);
      case Tick(records) =>
        ReplayLike(u.db, v.db, u.book, e.env.installed);
        ExpireLike(Replay(u.db, u.book, e.env.installed), Replay(v.db, v.book, e.env.installed), e.env.now);
        ClearedLike(Expire(Replay(u.db, u.book, e.env.installed), e.env.now),
                    Expire(Replay(v.db, v.book, e.env.installed), e.env.now), records, f.event.records);
      case Maintain(records) => ClearedLike(u.db, v.db, records, f.event.records);
      case Fence(bindings, all, user) => FenceLike(u.db, v.db, bindings, all, user);
    }
  }

  /** Two runs that differ only in which records their compactions clear, if any, from ledgers
      that differ only in what compaction may have cleared, give the same replies throughout. */
  lemma {:induction false} RunsAlike(s: Repo, t: Repo, run: seq<Stamped>, other: seq<Stamped>)
    requires Steady(s) && Steady(t) && RepoLike(s, t)
    requires |run| == |other| && forall i :: 0 <= i < |run| ==> SameButRecords(run[i], other[i])
    ensures Replies(s, run) == Replies(t, other)
    ensures RepoLike(After(s, run), After(t, other))
  {
    hide Steady, Step, RepoLike, SameButRecords;
    if run != [] {
      var n := |run| - 1;
      RunsAlike(s, t, run[..n], other[..n]);
      RunKeeps(s, run[..n]);
      RunKeeps(t, other[..n]);
      StepAlike(After(s, run[..n]), After(t, other[..n]), run[n], other[n]);
    }
  }

  /** Whatever a compaction of a reachable repository clears, every later sequence of events gets
      the replies it would have got without it. */
  lemma CompactionIsInvisible(before: seq<Stamped>, records: seq<Record>, run: seq<Stamped>)
    ensures var s := After(FRESH, before);
            Replies(s.(db := ClearAll(s.db, records)), run) == Replies(s, run)
  {
    hide After, Step, ClearAll, Like, Inv, Sound, Projects, SameButRecords;
    var s := After(FRESH, before);
    FreshSteady();
    RunKeeps(FRESH, before);
    ClearAllKeeps(s.db, records);
    ClearAllTable(s.db, records);
    ClearAllLike(s.db, records);
    LikeSymmetric(s.db, ClearAll(s.db, records));
    forall i | 0 <= i < |run| ensures SameButRecords(run[i], run[i]) { SameEvent(run[i]); }
    RunsAlike(s.(db := ClearAll(s.db, records)), s, run, run);
  }

  lemma SameEvent(e: Stamped)
    ensures SameButRecords(e, e)
  {
  }
}
