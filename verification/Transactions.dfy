/** Every call the dispatcher accepts commits a ledger that satisfies the invariants. */
module Transactions {
  import opened Types
  import opened Ledger
  import opened Conditions
  import opened Operations
  import opened Invariants
  import opened Preservation
  import opened Verdicts

  // ----- authorization -----

  /** `b` is grant `a` after an authorization that names it or not. */
  ghost predicate Used(a: Grant, b: Grant, named: bool) {
    && b == a.(remaining := b.remaining)
    && b.remaining <= a.remaining
    && (a.remaining >= 0 ==> b.remaining >= 0)
    && (!a.mode.ONCE? || !named ==> b == a)
    && (named && a.mode.ONCE? && a.remaining <= 1 ==> b.remaining <= 0)
  }

  /** Consuming uses changes nothing but `remaining`, and only of ONCE grants that are named. */
  lemma {:induction false} ConsumeShape(grants: map<Id, Grant>, ids: seq<Id>, n: nat)
    requires n <= |ids|
    ensures var m := Consume(grants, ids, n);
            && m.Keys == grants.Keys
            && forall g :: g in m ==> Used(grants[g], m[g], g in ids[..n])
  {
    if n != 0 {
      ConsumeShape(grants, ids, n - 1);
      assert ids[..n] == ids[..n - 1] + [ids[n - 1]];
    }
  }

  /** Two grant tables that differ at most in the uses that remain. */
  ghost predicate SameButUses(a: map<Id, Grant>, b: map<Id, Grant>) {
    a.Keys == b.Keys && forall g :: g in a ==> b[g] == a[g].(remaining := b[g].remaining)
  }

  lemma CoveredSame(p: Payload, sources: set<Id>, a: map<Id, Grant>, b: map<Id, Grant>)
    requires SameButUses(a, b) && Covered(p, sources, a)
    ensures Covered(p, sources, b)
  {
    forall i | 0 <= i < |p.requirements| ensures Backs(sources, b, p.requirements[i].definition) {
      assert Backs(sources, a, p.requirements[i].definition);
      var g :| g in sources && g in a && a[g].key.definition == p.requirements[i].definition;
      assert g in b && b[g].key == a[g].key;
    }
  }

  lemma BackedSame(receipts: map<Id, Receipt>, a: map<Id, Grant>, b: map<Id, Grant>, definitions: map<string, Config>)
    requires SameButUses(a, b) && Backed(receipts, a, definitions)
    ensures Backed(receipts, b, definitions)
  {
    forall r | r in receipts && receipts[r].valid ensures Covered(receipts[r].payload.value, receipts[r].sources, b) {
      CoveredSame(receipts[r].payload.value, receipts[r].sources, a, b);
    }
  }

  lemma CleanSame(artifacts: map<Id, Artifact>, sessions: map<Id, SessionRow>, a: map<Id, Grant>, b: map<Id, Grant>)
    requires SameButUses(a, b) && Clean(artifacts, a) && Held(artifacts, a, sessions)
    ensures Clean(artifacts, b) && Held(artifacts, b, sessions)
  {
  }

  ghost predicate FewerUses(a: map<Id, Grant>, b: map<Id, Grant>) {
    && SameButUses(a, b)
    && (forall g :: g in b && b[g].mode.ONCE? ==> 0 <= b[g].remaining <= a[g].remaining)
    && (forall g :: g in b && !b[g].mode.ONCE? ==> b[g] == a[g])
  }

  lemma SpentSame(receipts: map<Id, Receipt>, a: map<Id, Grant>, b: map<Id, Grant>)
    requires FewerUses(a, b) && Spent(receipts, a)
    ensures Spent(receipts, b)
  {
  }

  lemma LawfulSame(definitions: map<string, Config>, a: map<Id, Grant>, b: map<Id, Grant>)
    requires FewerUses(a, b) && Lawful(a, definitions) && Counted(a)
    ensures Lawful(b, definitions) && Counted(b)
  {
  }

  lemma UsesKeep(l: Ledger, grants: map<Id, Grant>)
    requires Core(l) && FewerUses(l.grants, grants)
    ensures Core(l.(grants := grants))
  {
    BackedSame(l.receipts, l.grants, grants, l.definitions);
    CleanSame(l.artifacts, l.sessions, l.grants, grants);
    SpentSame(l.receipts, l.grants, grants);
    LawfulSame(l.definitions, l.grants, grants);
  }

  lemma CoveredAll(l: Ledger, p: Payload, ids: seq<Id>)
    requires |ids| == |p.requirements|
    requires forall i :: 0 <= i < |ids| ==>
               ids[i] in l.grants && l.grants[ids[i]].key.definition == p.requirements[i].definition
    ensures Covered(p, Elements(ids), l.grants)
  {
    forall i | 0 <= i < |p.requirements| ensures Backs(Elements(ids), l.grants, p.requirements[i].definition) {
      assert ids[i] in Elements(ids);
    }
  }

  ghost predicate Sources(p: Payload, sources: set<Id>, grants: map<Id, Grant>, definitions: map<string, Config>) {
    forall g :: g in sources ==>
      && g in grants && Serves(p, grants[g]) && Current(definitions, grants[g].key)
      && (grants[g].mode.ONCE? ==> grants[g].remaining == 0)
  }

  ghost predicate InContext(p: Payload, sessions: map<Id, SessionRow>) {
    p.session.Some? ==>
      p.session.value in sessions && sessions[p.session.value].subject == p.subject
          && sessions[p.session.value].profile == p.profile
  }

  /** A receipt that may be inserted: new, backed, and with its ONCE sources used up. */
  ghost predicate Insertable(l: Ledger, r: Receipt) {
    && r.execution !in l.executions
    && r.payload == Some(r.fingerprint) && Covered(r.payload.value, r.sources, l.grants)
    && Sources(r.payload.value, r.sources, l.grants, l.definitions)
    && InContext(r.payload.value, l.sessions)
  }

  function Inserted(l: Ledger, r: Receipt): Ledger {
    l.(receipts := l.receipts[l.next := r], executions := l.executions[r.execution := l.next], next := l.next + 1)
  }

  lemma UniqueInsert(receipts: map<Id, Receipt>, executions: map<Execution, Id>, id: Id, r: Receipt)
    requires Unique(receipts, executions) && id !in receipts && r.execution !in executions
             && r.payload == Some(r.fingerprint)
    ensures Unique(receipts[id := r], executions[r.execution := id])
  {
  }

  lemma BackedInsert(receipts: map<Id, Receipt>, grants: map<Id, Grant>, definitions: map<string, Config>, id: Id,
                     r: Receipt)
    requires Backed(receipts, grants, definitions) && Spent(receipts, grants)
    requires r.payload.Some? && Covered(r.payload.value, r.sources, grants)
             && Sources(r.payload.value, r.sources, grants, definitions)
    ensures Backed(receipts[id := r], grants, definitions) && Spent(receipts[id := r], grants)
  {
  }

  lemma RootedInsert(artifacts: map<Id, Artifact>, receipts: map<Id, Receipt>, definitions: map<string, Config>, id: Id,
                     r: Receipt)
    requires Rooted(artifacts, receipts, definitions) && id !in receipts
    ensures Rooted(artifacts, receipts[id := r], definitions)
  {
  }

  lemma PlacedInsert(receipts: map<Id, Receipt>, sessions: map<Id, SessionRow>, id: Id, r: Receipt)
    requires Placed(receipts, sessions) && r.payload.Some? && InContext(r.payload.value, sessions)
    ensures Placed(receipts[id := r], sessions)
  {
  }

  lemma ReceiptInserted(l: Ledger, r: Receipt)
    requires Core(l) && Insertable(l, r)
    ensures Core(Inserted(l, r))
  {
    hide Homed, Clean, Held, Derived, Rooted, Indexed, Backed, Spent, Lawful, Counted, Placed, Sound, Unique;
    UniqueInsert(l.receipts, l.executions, l.next, r);
    BackedInsert(l.receipts, l.grants, l.definitions, l.next, r);
    RootedInsert(l.artifacts, l.receipts, l.definitions, l.next, r);
    PlacedInsert(l.receipts, l.sessions, l.next, r);
  }

  lemma ElementsOf(ids: seq<Id>, g: Id)
    ensures g in Elements(ids) <==> g in ids
  {
  }

  lemma ConsumeFewer(l: Ledger, ids: seq<Id>)
    requires Core(l)
    ensures FewerUses(l.grants, Consume(l.grants, ids, |ids|))
  {
    ConsumeShape(l.grants, ids, |ids|);
    FewerUsed(l.grants, Consume(l.grants, ids, |ids|), ids);
  }

  lemma FewerUsed(a: map<Id, Grant>, b: map<Id, Grant>, ids: seq<Id>)
    requires Counted(a) && a.Keys == b.Keys && forall g :: g in b ==> Used(a[g], b[g], g in ids[..|ids|])
    ensures FewerUses(a, b)
  {
  }

  lemma ConsumedSources(l: Ledger, p: Payload, ids: seq<Id>)
    requires Core(l) && forall i :: 0 <= i < |ids| ==> Fit(l, p, ids[i])
    ensures Sources(p, Elements(ids), Consume(l.grants, ids, |ids|), l.definitions)
  {
    hide Core, Consume;
    var m := Consume(l.grants, ids, |ids|);
    ConsumeShape(l.grants, ids, |ids|);
    forall g | g in Elements(ids)
      ensures g in m && Serves(p, m[g]) && Current(l.definitions, m[g].key) && (m[g].mode.ONCE? ==> m[g].remaining == 0)
    {
      var i :| 0 <= i < |ids| && ids[i] == g;
      assert Fit(l, p, ids[i]) && g in ids[..|ids|];
      assert Used(l.grants[g], m[g], true);
      if m[g].mode.ONCE? { CountedAt(l, g); }
    }
  }

  lemma CountedAt(l: Ledger, g: Id)
    requires Core(l) && g in l.grants && l.grants[g].mode.ONCE?
    ensures 0 <= l.grants[g].remaining <= 1
  {
  }

  lemma SessionInContext(sessions: map<Id, SessionRow>, now: nat, peer: Peer, p: Payload)
    requires p.session.Some? ==> ActiveSession(sessions, now, peer, p).Ok?
    ensures InContext(p, sessions)
  {
  }

  /** Authorizing on an ALLOWED verdict: the receipt is backed and its ONCE grants are spent. */
  lemma AuthorizedKeeps(l: Ledger, env: Env, peer: Peer, q: Question, ids: seq<Id>)
    requires Core(l)
    requires CheckConditions(l, env, peer, q, true).Ok? && CheckConditions(l, env, peer, q,
            true).value.decision.ALLOWED?
    requires ids == CheckConditions(l, env, peer, q, true).value.grants
    requires Execution(peer.identity, q.payload.operation, q.payload.step) !in l.executions
    ensures Core(Authorized(l, Execution(peer.identity, q.payload.operation, q.payload.step), q.payload, ids, env.now))
  {
    hide Core, CheckConditions, Consume, Covered, Sources, FewerUses, ActiveSession, InContext, SameButUses, Elements;
    VerdictSound(l, env, peer, q, true);
    var p := q.payload;
    var e := Execution(peer.identity, p.operation, p.step);
    var m := l.(grants := Consume(l.grants, ids, |ids|));
    var r := Receipt(e, p, Some(p), env.now, true, Elements(ids));
    ConsumeFewer(l, ids);
    UsesKeep(l, m.grants);
    ConsumedSources(l, p, ids);
    CoveredAll(l, p, ids);
    CoveredSame(p, Elements(ids), l.grants, m.grants);
    SessionInContext(l.sessions, env.now, peer, p);
    ReceiptInserted(m, r);
    assert Inserted(m, r) == Authorized(l, e, p, ids, env.now);
  }

  // ----- answering a prompt -----

  lemma CoveredAdd(p: Payload, sources: set<Id>, grants: map<Id, Grant>, id: Id, g: Grant)
    requires Covered(p, sources, grants) && id !in grants
    ensures Covered(p, sources, grants[id := g])
  {
    forall i | 0 <= i < |p.requirements| ensures Backs(sources, grants[id := g], p.requirements[i].definition) {
      assert Backs(sources, grants, p.requirements[i].definition);
      var h :| h in sources && h in grants && grants[h].key.definition == p.requirements[i].definition;
      assert h in grants[id := g] && grants[id := g][h] == grants[h];
    }
  }

  lemma BackedAdd(receipts: map<Id, Receipt>, grants: map<Id, Grant>, definitions: map<string, Config>, id: Id,
                  g: Grant)
    requires Backed(receipts, grants, definitions) && Spent(receipts, grants) && id !in grants
    ensures Backed(receipts, grants[id := g], definitions) && Spent(receipts, grants[id := g])
  {
    forall r | r in receipts && receipts[r].valid
      ensures Covered(receipts[r].payload.value, receipts[r].sources, grants[id := g])
    {
      CoveredAdd(receipts[r].payload.value, receipts[r].sources, grants, id, g);
    }
  }

  lemma CleanAdd(artifacts: map<Id, Artifact>, grants: map<Id, Grant>, sessions: map<Id, SessionRow>, id: Id, g: Grant)
    requires Clean(artifacts, grants) && Held(artifacts, grants, sessions) && id !in grants
    ensures Clean(artifacts, grants[id := g]) && Held(artifacts, grants[id := g], sessions)
  {
  }

  ghost predicate Grantable(definitions: map<string, Config>, g: Grant) {
    && Current(definitions, g.key) && g.mode in definitions[g.key.definition].modes
    && g.remaining == (if g.mode.ONCE? then 1 else -1)
    && (g.mode.SESSION? ==> g.session.Some?)
    && (g.mode.TIMED? || g.expires == 0)
  }

  lemma GrantAdded(l: Ledger, g: Grant)
    requires Core(l) && Grantable(l.definitions, g)
    ensures Core(l.(grants := l.grants[l.next := g], next := l.next + 1))
  {
    hide Homed, Clean, Held, Derived, Rooted, Indexed, Backed, Spent, Placed, Sound, Unique;
    BackedAdd(l.receipts, l.grants, l.definitions, l.next, g);
    CleanAdd(l.artifacts, l.grants, l.sessions, l.next, g);
  }

  /** The grants an answer issues are lawful, and nothing else of the ledger moves. */
  lemma {:induction false} IssueKeeps(l: Ledger, q: RequestRow, current: Verdict, mode: Mode, expires: nat, n: nat)
    requires n <= |q.rows| == |current.rows| == |q.payload.requirements|
    requires Core(l) && (mode.SESSION? ==> q.payload.session.Some?) && (mode.TIMED? || expires == 0)
    requires Issue(l, q, current, mode, expires, n).Ok?
    ensures var m := Issue(l, q, current, mode, expires, n).value;
            && Core(m)
            && m == l.(grants := m.grants, next := m.next)
            && m.next >= l.next
  {
    hide Core;
    if n != 0 {
      IssueKeeps(l, q, current, mode, expires, n - 1);
      var m := Issue(l, q, current, mode, expires, n - 1).value;
      if Wanted(q, current, n - 1) {
        var c := Definition(m.definitions, q.payload.requirements[n - 1].definition).value;
        assert Grantable(m.definitions, NewGrant(q, n - 1, c, mode, expires));
        GrantAdded(m, NewGrant(q, n - 1, c, mode, expires));
      }
    }
  }

  // ----- artifacts -----

  lemma ArtifactsKeep(l: Ledger, artifacts: map<Id, Artifact>, originals: map<Original, Id>, next: Id)
    requires Core(l) && l.next <= next && (forall a :: a in artifacts ==> a < next)
    requires Indexed(artifacts, originals) && Homed(artifacts, l.sessions) && Clean(artifacts, l.grants)
    requires Held(artifacts, l.grants, l.sessions) && Derived(artifacts) && Rooted(artifacts, l.receipts, l.definitions)
    ensures Core(l.(artifacts := artifacts, originals := originals, next := next))
  {
    hide Homed, Clean, Held, Derived, Rooted, Indexed, Backed, Spent, Lawful, Counted, Placed, Sound, Unique;
  }

  /** An artifact that may be inserted under the name `id`. */
  ghost predicate Fresh(l: Ledger, id: Id, a: Artifact) {
    && a.state.Active? && a.session in l.sessions && Live(l.sessions[a.session])
    && (forall g :: g in a.sources ==>
          g in l.grants && !l.grants[g].revoked && Matches(l.sessions[a.session], a.session, l.grants[g]))
    && (forall p :: p in a.parents ==> p in l.artifacts && p < id && Inherits(a, l.artifacts[p]))
    && (a.receipt.Some? ==> a.receipt.value in l.receipts && Root(a, l.receipts[a.receipt.value], l.definitions))
  }

  lemma HomedAdd(l: Ledger, id: Id, a: Artifact)
    requires Homed(l.artifacts, l.sessions) && Fresh(l, id, a)
    ensures Homed(l.artifacts[id := a], l.sessions)
  {
  }

  lemma CleanArtifactAdd(l: Ledger, id: Id, a: Artifact)
    requires Clean(l.artifacts, l.grants) && Held(l.artifacts, l.grants, l.sessions) && Fresh(l, id, a)
    ensures Clean(l.artifacts[id := a], l.grants) && Held(l.artifacts[id := a], l.grants, l.sessions)
  {
  }

  lemma DerivedAdd(l: Ledger, id: Id, a: Artifact)
    requires Derived(l.artifacts) && id !in l.artifacts && Fresh(l, id, a)
    ensures Derived(l.artifacts[id := a])
  {
    var aa := l.artifacts[id := a];
    forall c, p | Child(aa, c, p) ensures Follows(aa, c, p) {
      if c != id { assert Child(l.artifacts, c, p) && Follows(l.artifacts, c, p); }
    }
  }

  lemma RootedAdd(l: Ledger, id: Id, a: Artifact)
    requires Rooted(l.artifacts, l.receipts, l.definitions) && Fresh(l, id, a)
    ensures Rooted(l.artifacts[id := a], l.receipts, l.definitions)
  {
  }

  lemma OriginalAdd(artifacts: map<Id, Artifact>, originals: map<Original, Id>, id: Id, a: Artifact)
    requires Indexed(artifacts, originals) && id !in artifacts
    ensures Indexed(artifacts[id := a], originals)
    ensures a.receipt.Some? ==> Indexed(artifacts[id := a], originals[Original(a.receipt.value, a.holder) := id])
  {
  }

  lemma ArtifactAdded(l: Ledger, a: Artifact)
    requires Core(l) && Fresh(l, l.next, a)
    ensures Core(l.(artifacts := l.artifacts[l.next := a], next := l.next + 1))
    ensures a.receipt.Some? ==>
      Core(l.(artifacts := l.artifacts[l.next := a], originals := l.originals[Original(a.receipt.value,
              a.holder) := l.next], next := l.next + 1))
  {
    hide Homed, Clean, Held, Derived, Rooted, Indexed, Backed, Spent, Lawful, Counted, Placed, Sound, Unique;
    HomedAdd(l, l.next, a);
    CleanArtifactAdd(l, l.next, a);
    DerivedAdd(l, l.next, a);
    RootedAdd(l, l.next, a);
    OriginalAdd(l.artifacts, l.originals, l.next, a);
  }

  lemma ActiveSessionRow(sessions: map<Id, SessionRow>, now: nat, peer: Peer, p: Payload)
    requires ActiveSession(sessions, now, peer, p).Ok? && p.session.Some?
    ensures p.session.value in sessions
    ensures sessions[p.session.value].state.Open?
    ensures sessions[p.session.value].subject == p.subject && sessions[p.session.value].profile == p.profile
  {
  }

  /** The source grants of a receipt found valid match the session it was given in. */
  lemma ReceiptSources(l: Ledger, env: Env, r: Id, s: Id)
    requires Core(l) && ReceiptValid(l, env, r) == Ok(true)
    requires l.receipts[r].payload.Some? && l.receipts[r].payload.value.session == Some(s)
    requires s in l.sessions && l.sessions[s].subject == l.receipts[r].payload.value.subject
             && l.sessions[s].profile == l.receipts[r].payload.value.profile
    ensures forall g :: g in l.receipts[r].sources ==>
              g in l.grants && !l.grants[g].revoked && Matches(l.sessions[s], s, l.grants[g])
  {
    hide Homed, Clean, Held, Derived, Rooted, Indexed, Lawful, Counted, Placed, Sound, Unique, ReceiptValid;
    ReceiptValidSound(l, env, r);
    forall g | g in l.receipts[r].sources
      ensures g in l.grants && !l.grants[g].revoked && Matches(l.sessions[s], s, l.grants[g])
    {
      assert Serves(l.receipts[r].payload.value, l.grants[g]);
      assert !Lapsed(l.grants[g], env.now);
    }
  }

  lemma RegisterKeeps(l: Ledger, env: Env, peer: Peer, u: Use, receipt: Id, i: nat)
    requires Core(l) && Register(l, env, peer, u, receipt, i).Ok?
    ensures Core(Register(l, env, peer, u, receipt, i).value.db)
  {
    hide Core, ReceiptValid, Root, Matches, ActiveSession;
    assert ReceiptValid(l, env, receipt) == Ok(true);
    var row := l.receipts[receipt];
    var p := row.payload.value;
    var original := Original(receipt, peer.identity);
    if original !in l.originals {
      var s := u.payload.session.value;
      ActiveSessionRow(l.sessions, env.now, peer, u.payload);
      ReceiptValidSound(l, env, receipt);
      ReceiptSources(l, env, receipt, s);
      var c := Definition(l.definitions, p.requirements[i].definition).value;
      var a := Artifact(Some(receipt), s, peer.identity, peer.instance, u.purpose, u.recipient, u.scope,
                        row.created + Retention(c), Active, Decimal(c.level), row.sources, {});
      RegisteredRoot(l, receipt, a, i);
      ArtifactAdded(l, a);
      BumpKeeps(l.(artifacts := l.artifacts[l.next := a], originals := l.originals[original := l.next],
                   next := l.next + 1));
    }
  }

  lemma RegisteredRoot(l: Ledger, r: Id, a: Artifact, i: nat)
    requires r in l.receipts && l.receipts[r].valid && l.receipts[r].payload.Some?
    requires a.sources == l.receipts[r].sources && l.receipts[r].payload.value.session == Some(a.session)
    requires i < |l.receipts[r].payload.value.requirements|
    requires l.receipts[r].payload.value.requirements[i].definition in l.definitions
    requires a.expires == l.receipts[r].created
                          + Retention(l.definitions[l.receipts[r].payload.value.requirements[i].definition])
    ensures Root(a, l.receipts[r], l.definitions)
  {
  }

  /** What `Inherit` has gathered from the first `n` parents bounds the derived artifact. */
  ghost predicate Gathered(l: Ledger, peer: Peer, u: Use, parents: seq<Id>, t: Lineage, n: nat)
    requires n <= |parents|
  {
    && (n > 0 ==> t.expires.Some?)
    && (forall i :: 0 <= i < n ==>
          && parents[i] in l.artifacts
          && t.expires.Some? && t.expires.value <= l.artifacts[parents[i]].expires
          && t.level >= l.artifacts[parents[i]].level
          && t.sources >= l.artifacts[parents[i]].sources
          && Some(l.artifacts[parents[i]].session) == u.payload.session)
    && (forall g :: g in t.sources ==>
          exists i :: 0 <= i < n && parents[i] in l.artifacts && l.artifacts[parents[i]].state.Active?
              && g in l.artifacts[parents[i]].sources)
  }

  lemma {:induction false} InheritGathers(l: Ledger, env: Env, peer: Peer, u: Use, parents: seq<Id>, n: nat)
    requires n <= |parents| && Inherit(l, env, peer, u, parents, n).Ok?
    ensures Gathered(l, peer, u, parents, Inherit(l, env, peer, u, parents, n).value, n)
  {
    hide Provenance;
    if n != 0 {
      InheritGathers(l, env, peer, u, parents, n - 1);
    }
  }

  lemma DerivedFresh(l: Ledger, peer: Peer, u: Use, parents: seq<Id>, t: Lineage, a: Artifact)
    requires Core(l) && Gathered(l, peer, u, parents, t, |parents|) && parents != []
    requires u.payload.session == Some(a.session) && a.session in l.sessions && Live(l.sessions[a.session])
    requires a.state.Active? && a.receipt.None? && a.sources == t.sources && a.parents == Elements(parents)
    requires t.expires.Some? && a.expires == t.expires.value && a.level == t.level
    ensures Fresh(l, l.next, a)
  {
    hide Homed, Derived, Rooted, Indexed, Backed, Spent, Lawful, Counted, Placed, Sound, Unique, Matches;
    forall g | g in a.sources
      ensures g in l.grants && !l.grants[g].revoked && Matches(l.sessions[a.session], a.session, l.grants[g])
    {
      var i :| 0 <= i < |parents| && parents[i] in l.artifacts && l.artifacts[parents[i]].state.Active?
          && g in l.artifacts[parents[i]].sources;
      assert l.artifacts[parents[i]].session == a.session;
    }
  }

  lemma DeriveKeeps(l: Ledger, env: Env, peer: Peer, u: Use, parents: seq<Id>)
    requires Core(l) && Derive(l, env, peer, u, parents).Ok?
    ensures Core(Derive(l, env, peer, u, parents).value.db)
  {
    hide Core, Inherit, Gathered, ActiveSession, Fresh;
    var t := Inherit(l, env, peer, u, parents, |parents|).value;
    InheritGathers(l, env, peer, u, parents, |parents|);
    ActiveSessionRow(l.sessions, env.now, peer, u.payload);
    var a := Artifact(None, u.payload.session.value, peer.identity, peer.instance, u.purpose, u.recipient, u.scope,
                      t.expires.value, Active, t.level, t.sources, Elements(parents));
    DerivedFresh(l, peer, u, parents, t, a);
    ArtifactAdded(l, a);
    BumpKeeps(l.(artifacts := l.artifacts[l.next := a], next := l.next + 1));
  }

  // ----- acknowledgement and revocation -----

  lemma HomedMark(l: Ledger, id: Id, b: Artifact)
    requires Homed(l.artifacts, l.sessions) && id in l.artifacts && b == l.artifacts[id].(state := b.state)
    requires b.state.Deleted? || (b.state.CleanupFailed? && !l.artifacts[id].state.Deleted?)
    ensures Homed(l.artifacts[id := b], l.sessions)
  {
  }

  lemma CleanMark(l: Ledger, id: Id, b: Artifact)
    requires id in l.artifacts && b == l.artifacts[id].(state := b.state) && !b.state.Active?
    ensures Clean(l.artifacts, l.grants) ==> Clean(l.artifacts[id := b], l.grants)
    ensures Held(l.artifacts, l.grants, l.sessions) ==> Held(l.artifacts[id := b], l.grants, l.sessions)
  {
  }

  lemma DerivedMark(l: Ledger, id: Id, b: Artifact)
    requires id in l.artifacts && b == l.artifacts[id].(state := b.state) && !b.state.Active?
    ensures Derived(l.artifacts) ==> Derived(l.artifacts[id := b])
    ensures Indexed(l.artifacts, l.originals) ==> Indexed(l.artifacts[id := b], l.originals)
  {
    var aa := l.artifacts[id := b];
    if Derived(l.artifacts) {
      forall c, p | Child(aa, c, p) ensures Follows(aa, c, p) {
        assert Child(l.artifacts, c, p) && Follows(l.artifacts, c, p);
      }
    }
  }

  lemma RootedMark(l: Ledger, id: Id, b: Artifact)
    requires id in l.artifacts && !b.state.Active? && Rooted(l.artifacts, l.receipts, l.definitions)
    ensures Rooted(l.artifacts[id := b], l.receipts, l.definitions)
  {
  }

  lemma MarkKeeps(l: Ledger, id: Id, b: Artifact)
    requires Core(l) && id in l.artifacts && b == l.artifacts[id].(state := b.state)
    requires b.state.Deleted? || (b.state.CleanupFailed? && !l.artifacts[id].state.Deleted?)
    ensures Core(l.(artifacts := l.artifacts[id := b]))
  {
    hide Homed, Clean, Held, Derived, Rooted, Indexed, Backed, Spent, Lawful, Counted, Placed, Sound, Unique;
    HomedMark(l, id, b);
    CleanMark(l, id, b);
    DerivedMark(l, id, b);
    RootedMark(l, id, b);
    ArtifactsKeep(l, l.artifacts[id := b], l.originals, l.next);
  }

  lemma AcknowledgeKeeps(l: Ledger, peer: Peer, artifact: Id, success: bool, reconcile: bool, subject: string,
                         profile: string)
    requires Core(l) && Acknowledge(l, peer, artifact, success, reconcile, subject, profile).Ok?
    ensures Inv(Acknowledge(l, peer, artifact, success, reconcile, subject, profile).value.db)
  {
    hide Core, FinishCleanup, Settled;
    var b := l.artifacts[artifact].(state := if success then Deleted else CleanupFailed);
    MarkKeeps(l, artifact, b);
    var m := l.(artifacts := l.artifacts[artifact := b]);
    FinishCleanupKeeps(m);
    BumpKeeps(FinishCleanup(m));
  }

  lemma RevokedCaught(l: Ledger, ids: set<Id>)
    requires Core(l) && ids <= l.grants.Keys
    ensures var m := l.(grants := RevokeSet(l.grants, ids));
            && CatchesGrants(l.artifacts, ids, ArtifactsOn(m, Revoked(m)))
            && CatchesReceipts(l.artifacts, ReceiptsOn(m, Revoked(m)), ArtifactsOn(m, Revoked(m)))
  {
    hide Homed, Clean, Held, Derived, Indexed, Backed, Spent, Lawful, Counted, Placed, Sound, Unique, Timed;
    var m := l.(grants := RevokeSet(l.grants, ids));
    forall a, g | a in l.artifacts && g in l.artifacts[a].sources && g in ids ensures a in ArtifactsOn(m, Revoked(m)) {
      assert g in Revoked(m);
      assert g in l.artifacts[a].sources * Revoked(m);
    }
    forall a | a in l.artifacts && l.artifacts[a].state.Active? && l.artifacts[a].receipt.Some?
        && l.artifacts[a].receipt.value in ReceiptsOn(m, Revoked(m))
      ensures a in ArtifactsOn(m, Revoked(m))
    {
      assert l.artifacts[a].sources == l.receipts[l.artifacts[a].receipt.value].sources;
    }
  }

  lemma RevokeKeeps(l: Ledger, peer: Peer, definition: string, subject: string, profile: string)
    requires Inv(l) && Revoke(l, peer, definition, subject, profile).Ok?
    ensures Inv(Revoke(l, peer, definition, subject, profile).value.db)
  {
    hide Core, Settled, CatchesGrants, CatchesReceipts, RevokeSet, InvalidateSet, BlockSet, Context, ReceiptsOn;
    hide ArtifactsOn, Revoked;
    var ids := set g | g in l.grants && l.grants[g].key.definition == definition
                       && l.grants[g].key.subject == subject && l.grants[g].key.profile == profile;
    var m := l.(grants := RevokeSet(l.grants, ids));
    RevokedCaught(l, ids);
    RetireKeeps(l, ids, ReceiptsOn(m, Revoked(m)), ArtifactsOn(m, Revoked(m)));
    SettledBlock(l.artifacts, l.sessions, ArtifactsOn(m, Revoked(m)));
    BumpKeeps(Retire(l, ids, ReceiptsOn(m, Revoked(m)), ArtifactsOn(m, Revoked(m))));
  }

  // ----- sessions -----

  lemma SettledSame(artifacts: map<Id, Artifact>, ss: map<Id, SessionRow>, tt: map<Id, SessionRow>)
    requires Settled(artifacts, ss)
    requires forall s :: s in tt && tt[s].state.Closing? ==> s in ss && ss[s].state.Closing?
    ensures Settled(artifacts, tt)
  {
  }

  lemma SessionPutFits(l: Ledger, id: Id, row: SessionRow)
    requires Core(l) && Live(row)
    requires id in l.sessions ==> row.subject == l.sessions[id].subject && row.profile == l.sessions[id].profile
    ensures SessionsFit(l, l.sessions[id := row])
  {
    hide Clean, Held, Derived, Rooted, Indexed, Backed, Spent, Lawful, Counted, Placed, Sound, Unique;
  }

  lemma SessionPut(l: Ledger, id: Id, row: SessionRow, next: Id)
    requires Inv(l) && Live(row) && l.next <= next && id < next
    requires id in l.sessions ==> row.subject == l.sessions[id].subject && row.profile == l.sessions[id].profile
    ensures Inv(Bump(l.(sessions := l.sessions[id := row], next := next)))
  {
    hide Core, Settled, SessionsFit;
    var ss := l.sessions[id := row];
    NextIsNew(l);
    SessionPutFits(l, id, row);
    SettledSame(l.artifacts, l.sessions, ss);
    SessionsKeep(l, ss, next);
    BumpKeeps(l.(sessions := ss, next := next));
  }

  lemma SessionOpenKeeps(l: Ledger, env: Env, peer: Peer, subject: string, profile: string, m: Limits)
    requires Inv(l) && SessionOpen(l, env, peer, subject, profile, m).Ok?
    ensures Inv(SessionOpen(l, env, peer, subject, profile, m).value.db)
  {
    NextIsNew(l);
    hide Inv, Context, ActiveContext, LiveSessions;
    var row := SessionOpen(l, env, peer, subject, profile, m).value.db.sessions[l.next];
    SessionPut(l, l.next, row, l.next + 2);
  }

  lemma NextIsNew(l: Ledger)
    requires Inv(l)
    ensures l.next !in l.sessions && l.next !in l.requests && l.next !in l.grants && l.next !in l.receipts
            && l.next !in l.artifacts
    ensures forall s :: s in l.sessions ==> s < l.next
  {
  }

  lemma SuspendKeepsSettled(l: Ledger, id: Id, now: nat)
    requires Settled(l.artifacts, l.sessions)
    ensures var m := SuspendSession(l, id, now); Settled(m.artifacts, m.sessions)
  {
    SettledSame(l.artifacts, l.sessions, SuspendSession(l, id, now).sessions);
  }

  lemma ClosedKeeps(l: Ledger, id: Id)
    requires Core(l)
    ensures Inv(Bump(FinishCleanup(CloseSession(l, id))))
  {
    hide Core, Settled, CloseSession, FinishCleanup;
    CloseSessionKeeps(l, id);
    FinishCleanupKeeps(CloseSession(l, id));
    BumpKeeps(FinishCleanup(CloseSession(l, id)));
  }

  lemma SuspendedKeeps(l: Ledger, id: Id, now: nat)
    requires Inv(l)
    ensures Inv(Bump(SuspendSession(l, id, now)))
  {
    hide Core, Settled, SuspendSession;
    SuspendSessionKeeps(l, id, now);
    SuspendKeepsSettled(l, id, now);
    BumpKeeps(SuspendSession(l, id, now));
  }

  lemma SessionActKeeps(l: Ledger, env: Env, peer: Peer, subject: string, profile: string, id: Id, generation: nat,
                        verb: SessionVerb)
    requires Inv(l) && SessionAct(l, env, peer, subject, profile, id, generation, verb).Ok?
    ensures Inv(SessionAct(l, env, peer, subject, profile, id, generation, verb).value.db)
  {
    hide Inv, Core, Settled, CloseSession, SuspendSession, FinishCleanup, Context, ActiveContext, Bump;
    NextIsNew(l);
    var s := l.sessions[id];
    match verb
    case Close =>
      CoreOf(l);
      ClosedKeeps(l, id);
    case Suspend =>
      if s.policy.ConnectionBound? {
        CoreOf(l);
        ClosedKeeps(l, id);
      } else {
        SuspendedKeeps(l, id, env.now);
      }
    case Resume(token) =>
      SessionPut(l, id, s.(state := Open, generation := s.generation + 1, proof := Some(l.next),
                           lease := env.now + 30000), l.next + 1);
    case Heartbeat =>
      SessionPut(l, id, s.(lease := env.now + 30000), l.next);
      assert l.(sessions := l.sessions[id := s.(lease := env.now + 30000)],
                next := l.next) == l.(sessions := l.sessions[id := s.(lease := env.now + 30000)]);
  }

  lemma CoreOf(l: Ledger)
    requires Inv(l)
    ensures Core(l)
  {
  }

  // ----- requests -----

  lemma RequestPut(l: Ledger, id: Id, row: RequestRow, clients: map<ClientKey, Id>, next: Id)
    requires Inv(l) && l.next <= next && id < next && Tidy(row)
    ensures Inv(Bump(l.(requests := l.requests[id := row], clients := clients, next := next)))
  {
    hide Homed, Clean, Held, Derived, Rooted, Indexed, Backed, Spent, Lawful, Counted, Placed, Sound, Unique, Settled;
  }

  lemma RequestUpdated(l: Ledger, id: Id, row: RequestRow)
    requires Inv(l) && id in l.requests && Tidy(row)
    ensures Inv(Bump(l.(requests := l.requests[id := row])))
    ensures Inv(Bump(l.(requests := l.requests[id := row], next := l.next + 1)))
  {
    hide Homed, Clean, Held, Derived, Rooted, Indexed, Backed, Spent, Lawful, Counted, Placed, Sound, Unique, Settled;
  }

  lemma TidyOf(l: Ledger, id: Id)
    requires Inv(l) && id in l.requests
    ensures Tidy(l.requests[id])
  {
  }

  lemma AuthorizeAnewKeeps(l: Ledger, env: Env, peer: Peer, p: Payload)
    requires Inv(l) && AuthorizeAnew(l, env, peer, p).Ok?
    requires Execution(peer.identity, p.operation, p.step) !in l.executions
    ensures Inv(AuthorizeAnew(l, env, peer, p).value.db)
  {
    hide Core, Settled, CheckConditions, Consume;
    var q := Question(p, None, Target(p, env.now), true);
    var v := CheckConditions(l, env, peer, q, true).value;
    if v.decision.ALLOWED? {
      var e := Execution(peer.identity, p.operation, p.step);
      AuthorizedKeeps(l, env, peer, q, v.grants);
      BumpKeeps(Authorized(l, e, p, v.grants, env.now));
    }
  }

  lemma RecallKeeps(l: Ledger, env: Env, peer: Peer, q: Id, p: Payload)
    requires Inv(l) && Recall(l, env, peer, q, p).Ok?
    ensures Inv(Recall(l, env, peer, q, p).value.db)
  {
    hide Inv, StoredApproval;
    TidyOf(l, q);
    RequestUpdated(l, q, l.requests[q].(state := Invalidated, token := None));
  }

  lemma AdmitKeeps(l: Ledger, env: Env, peer: Peer, p: Payload)
    requires Inv(l) && Admit(l, env, peer, p).Ok?
    ensures Inv(Admit(l, env, peer, p).value.db)
  {
    hide Inv, CheckConditions, ModesPermit, PendingRequests, Revised;
    var db := Admit(l, env, peer, p).value.db;
    RequestPut(l, l.next, db.requests[l.next], db.clients, l.next + 1);
  }

  lemma EvaluateKeeps(l: Ledger, env: Env, peer: Peer, p: Payload, purpose: Purpose)
    requires Inv(l) && Evaluate(l, env, peer, p, purpose).Ok?
    ensures Inv(Evaluate(l, env, peer, p, purpose).value.db)
  {
    hide Inv, CheckConditions, AuthorizeAnew, Recall, Admit, ReceiptValid, Preflight;
    var f := Fingerprint(p, purpose);
    match purpose
    case Authorize =>
      if Execution(peer.identity, f.operation, f.step) !in l.executions { AuthorizeAnewKeeps(l, env, peer, f); }
    case Create =>
      var key := ClientKey(peer.identity, f.subject, f.profile, f.client);
      if key in l.clients { RecallKeeps(l, env, peer, l.clients[key], f); } else { AdmitKeeps(l, env, peer, f); }
    case Query =>
  }

  lemma ReadKeeps(l: Ledger, env: Env, peer: Peer, ref: RequestRef, cancel: bool)
    requires Inv(l) && ReadResult(l, env, peer, ref, cancel).Ok?
    ensures Inv(ReadResult(l, env, peer, ref, cancel).value.db)
  {
    hide Inv, StoredApproval, FindRequest, ActiveContext;
    var id := FindRequest(l, peer, ref, false).value;
    TidyOf(l, id);
    RequestUpdated(l, id, l.requests[id].(state := Cancelled, token := None));
    RequestUpdated(l, id, l.requests[id].(state := Invalidated, token := None));
  }

  lemma DisplayKeeps(l: Ledger, peer: Peer, id: Id, q: RequestRow, u: Screening, current: Verdict)
    requires Inv(l) && id in l.requests && |current.rows| == |q.rows| && Tidy(q) && peer.identity != ""
    ensures Inv(Display(l, peer, id, q, u, current).db)
  {
    hide Inv, Displayed, PersistentOffer, TypedPrompt, Redecided, Bump;
    RequestUpdated(l, id, FinalRow(q, current));
    RequestUpdated(l, id, ShownRow(l, peer, q, u, Displayed(l, q, current)));
  }

  lemma ShowKeeps(l: Ledger, env: Env, peer: Peer, ref: RequestRef, u: Screening)
    requires Inv(l) && ShowPrompt(l, env, peer, ref, u).Ok? && peer.identity != ""
    ensures Inv(ShowPrompt(l, env, peer, ref, u).value.db)
  {
    hide Inv, OpenPrompt, FindRequest, Display, TypedPrompt, Identifier;
    var id := FindRequest(l, peer, ref, true).value;
    TidyOf(l, id);
    DisplayKeeps(l, peer, id, l.requests[id], u, OpenPrompt(l, env, peer, l.requests[id], u, false).value);
  }

  lemma IssuedKeeps(l: Ledger, q: RequestRow, current: Verdict, mode: Mode, expires: nat, id: Id, row: RequestRow)
    requires |q.rows| == |current.rows| == |q.payload.requirements|
    requires Inv(l) && (mode.SESSION? ==>
                          q.payload.session.Some?) && (mode.TIMED? || expires == 0) && id in l.requests && Tidy(row)
    requires Issue(l, q, current, mode, expires, |q.rows|).Ok?
    ensures var m := Issue(l, q, current, mode, expires, |q.rows|).value;
            Inv(Bump(m.(requests := m.requests[id := row])))
  {
    hide Core, Settled, Issue;
    IssueKeeps(l, q, current, mode, expires, |q.rows|);
    var m := Issue(l, q, current, mode, expires, |q.rows|).value;
    RequestUpdated(m, id, row);
  }

  lemma SettleKeeps(l: Ledger, env: Env, peer: Peer, id: Id, q: RequestRow, u: Screening, mode: Mode, current: Verdict)
    requires |q.payload.requirements| == |q.rows| == |current.rows|
    requires Inv(l) && id in l.requests && Settle(l, env, peer, id, q, u, mode, current).Ok?
    ensures Inv(Settle(l, env, peer, id, q, u, mode, current).value.db)
  {
    hide Inv, CheckConditions, Issue, Redecided, Refuse, NewGrants, Asked;
    var row := Settle(l, env, peer, id, q, u, mode, current).value.db.requests[id];
    if u.allow {
      IssuedKeeps(l, q, current, mode, if mode.TIMED? then env.now + u.duration else 0, id, row);
    } else {
      RequestUpdated(l, id, row);
    }
  }

  lemma RespondKeeps(l: Ledger, env: Env, peer: Peer, ref: RequestRef, u: Screening)
    requires Inv(l) && Respond(l, env, peer, ref, u).Ok?
    ensures Inv(Respond(l, env, peer, ref, u).value.db)
  {
    hide Inv, OpenPrompt, FindRequest, Presented, AnswerMode, CheckConditions, Settle, Asked;
    var id := FindRequest(l, peer, ref, true).value;
    var q := l.requests[id];
    var mode := AnswerMode(l, q, u).value;
    var current := if Choices(q) then CheckConditions(l, env, peer, Asked(q, mode), false).value
        else OpenPrompt(l, env, peer, q, u, true).value;
    SettleKeeps(l, env, peer, id, q, u, mode, current);
  }

  lemma SettledAdd(artifacts: map<Id, Artifact>, sessions: map<Id, SessionRow>, id: Id, a: Artifact)
    requires Settled(artifacts, sessions) && id !in artifacts
    ensures Settled(artifacts[id := a], sessions)
  {
    forall s | s in sessions && sessions[s].state.Closing? ensures HasUndeleted(artifacts[id := a], s) {
      assert HasUndeleted(artifacts, s);
      var x :| x in artifacts && artifacts[x].session == s && !artifacts[x].state.Deleted?;
      assert x in artifacts[id := a] && artifacts[id := a][x] == artifacts[x];
    }
  }

  lemma RegisterSettled(l: Ledger, env: Env, peer: Peer, u: Use, receipt: Id, i: nat)
    requires Inv(l) && Register(l, env, peer, u, receipt, i).Ok?
    ensures Inv(Register(l, env, peer, u, receipt, i).value.db)
  {
    hide Core, Settled, ReceiptValid, HolderContext, UndeletedIn;
    NextIsNew(l);
    var db := Register(l, env, peer, u, receipt, i).value.db;
    RegisterKeeps(l, env, peer, u, receipt, i);
    if l.next in db.artifacts { SettledAdd(l.artifacts, l.sessions, l.next, db.artifacts[l.next]); }
  }

  lemma DeriveSettled(l: Ledger, env: Env, peer: Peer, u: Use, parents: seq<Id>)
    requires Inv(l) && Derive(l, env, peer, u, parents).Ok?
    ensures Inv(Derive(l, env, peer, u, parents).value.db)
  {
    hide Core, Settled, HolderContext, Inherit, UndeletedIn, Elements;
    NextIsNew(l);
    var db := Derive(l, env, peer, u, parents).value.db;
    DeriveKeeps(l, env, peer, u, parents);
    SettledAdd(l.artifacts, l.sessions, l.next, db.artifacts[l.next]);
  }

  /** Whatever call is dispatched, the ledger it is about to commit is sound. */
  lemma DispatchKeeps(l: Ledger, env: Env, peer: Peer, call: Call)
    requires Inv(l) && Dispatch(l, env, peer, call).Ok? && peer.identity != ""
    ensures Inv(Dispatch(l, env, peer, call).value.db)
  {
    hide Inv, Evaluate, ShowPrompt, Respond, ReadResult, SessionOpen, SessionAct, Revoke, Register, Derive;
    hide Acknowledge, HolderContext, Provenance, Context;
    match call
    case Ask(p, purpose) => EvaluateKeeps(l, env, peer, p, purpose);
    case Show(ref, u) => ShowKeeps(l, env, peer, ref, u);
    case Decide(ref, u) => RespondKeeps(l, env, peer, ref, u);
    case Read(ref, cancel) => ReadKeeps(l, env, peer, ref, cancel);
    case Begin(subject, profile, m) => SessionOpenKeeps(l, env, peer, subject, profile, m);
    case Watch(_, _, _) =>
    case Act(subject, profile, id, generation, verb) =>
      SessionActKeeps(l, env, peer, subject, profile, id, generation, verb);
    case Withhold(d, subject, profile) => RevokeKeeps(l, peer, d, subject, profile);
    case Hold(u, receipt, i) => RegisterSettled(l, env, peer, u, receipt, i);
    case Extend(u, parents) => DeriveSettled(l, env, peer, u, parents);
    case Reuse(_, _) =>
    case Release(artifact, success, reconcile, subject, profile) =>
      CoreOf(l);
      AcknowledgeKeeps(l, peer, artifact, success, reconcile, subject, profile);
  }

  lemma SweptKeeps(l: Ledger, now: nat)
    requires Inv(l)
    ensures Inv(Expire(l, now))
  {
    hide Inv, Core, Expire;
    CoreOf(l);
    ExpireKeeps(l, now);
  }
}
