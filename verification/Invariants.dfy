/** What holds of the ledger between transactions. Each clause speaks only of the tables it
    relates, so that a transaction disturbs few of them. */
module Invariants {
  import opened Types
  import opened Ledger
  import opened Conditions
  import R = Registry

  // ----- the clauses -----

  /** A locale is stored together with the UI that displayed the prompt in it. */
  ghost predicate Tidy(q: RequestRow) {
    q.locale != "" ==> q.uiOwner != ""
  }

  /** Every name in use was drawn before; every request is tidy. */
  ghost predicate Named(l: Ledger) {
    && (forall k :: k in l.sessions ==> k < l.next)
    && (forall k :: k in l.requests ==> k < l.next && Tidy(l.requests[k]))
    && (forall k :: k in l.grants ==> k < l.next)
    && (forall k :: k in l.receipts ==> k < l.next)
    && (forall k :: k in l.artifacts ==> k < l.next)
  }

  /** Each (enforcer, operation, step) names exactly one receipt, which keeps its payload
      until compaction clears it. */
  ghost predicate Unique(receipts: map<Id, Receipt>, executions: map<Execution, Id>) {
    && (forall r :: r in receipts ==> receipts[r].payload.None? || receipts[r].payload == Some(receipts[r].fingerprint))
    && (forall r :: r in receipts ==> receipts[r].execution in executions && executions[receipts[r].execution] == r)
    && (forall e :: e in executions ==> executions[e] in receipts && receipts[executions[e]].execution == e)
  }

  /** An original artifact is found under its receipt and holder. */
  ghost predicate Indexed(artifacts: map<Id, Artifact>, originals: map<Original, Id>) {
    forall o :: o in originals ==>
      originals[o] in artifacts && artifacts[originals[o]].receipt == Some(o.receipt)
          && artifacts[originals[o]].holder == o.holder
  }

  /** A resident artifact lives in a live session, and a closed session only has deleted ones. */
  ghost predicate Homed(artifacts: map<Id, Artifact>, sessions: map<Id, SessionRow>) {
    forall a :: a in artifacts ==>
      && artifacts[a].session in sessions
      && (artifacts[a].state.Active? ==> Live(sessions[artifacts[a].session]))
      && (sessions[artifacts[a].session].state.Closed? ==> artifacts[a].state.Deleted?)
  }

  ghost predicate HasUndeleted(artifacts: map<Id, Artifact>, s: Id) {
    exists a :: a in artifacts && artifacts[a].session == s && !artifacts[a].state.Deleted?
  }

  /** A closing session still waits for an artifact. */
  ghost predicate Settled(artifacts: map<Id, Artifact>, sessions: map<Id, SessionRow>) {
    forall s :: s in sessions && sessions[s].state.Closing? ==> HasUndeleted(artifacts, s)
  }

  /** No resident artifact has a revoked source grant. */
  ghost predicate Clean(artifacts: map<Id, Artifact>, grants: map<Id, Grant>) {
    forall a, g :: a in artifacts && g in artifacts[a].sources ==>
      g in grants && (artifacts[a].state.Active? ==> !grants[g].revoked)
  }

  ghost predicate Matches(s: SessionRow, id: Id, g: Grant) {
    && g.key.subject == s.subject && g.key.profile == s.profile
    && (g.mode.SESSION? ==> g.session == Some(id))
  }

  /** The source grants of an artifact were given in its session's context. */
  ghost predicate Held(artifacts: map<Id, Artifact>, grants: map<Id, Grant>, sessions: map<Id, SessionRow>) {
    forall a, g :: a in artifacts && g in artifacts[a].sources && g in grants && artifacts[a].session in sessions ==>
      Matches(sessions[artifacts[a].session], artifacts[a].session, grants[g])
  }

  ghost predicate Serves(p: Payload, g: Grant) {
    && g.key.subject == p.subject && g.key.profile == p.profile
    && (g.mode.SESSION? ==> g.session == p.session)
  }

  ghost predicate Backs(sources: set<Id>, grants: map<Id, Grant>, d: string) {
    exists g :: g in sources && g in grants && grants[g].key.definition == d
  }

  ghost predicate Covered(p: Payload, sources: set<Id>, grants: map<Id, Grant>) {
    forall i :: 0 <= i < |p.requirements| ==> Backs(sources, grants, p.requirements[i].definition)
  }

  /** A valid receipt keeps its payload, and a current grant in its context for each requirement. */
  ghost predicate Backed(receipts: map<Id, Receipt>, grants: map<Id, Grant>, definitions: map<string, Config>) {
    forall r :: r in receipts && receipts[r].valid ==>
      && receipts[r].payload.Some?
      && Covered(receipts[r].payload.value, receipts[r].sources, grants)
      && forall g :: g in receipts[r].sources && g in grants ==>
           Serves(receipts[r].payload.value, grants[g]) && Current(definitions, grants[g].key)
  }

  /** A grant that backs a receipt exists, and a ONCE grant that does is used up. */
  ghost predicate Spent(receipts: map<Id, Receipt>, grants: map<Id, Grant>) {
    forall r, g :: r in receipts && g in receipts[r].sources ==>
      g in grants && (grants[g].mode.ONCE? ==> grants[g].remaining == 0)
  }

  /** A grant in force is permitted by the definition now projected. */
  ghost predicate Lawful(grants: map<Id, Grant>, definitions: map<string, Config>) {
    forall g :: g in grants && !grants[g].revoked ==>
      Current(definitions, grants[g].key) && grants[g].mode in definitions[grants[g].key.definition].modes
  }

  ghost predicate Counted(grants: map<Id, Grant>) {
    forall g :: g in grants ==>
      && (grants[g].mode.ONCE? ==> 0 <= grants[g].remaining <= 1)
      && (!grants[g].mode.ONCE? ==> grants[g].remaining == -1)
      && (grants[g].mode.SESSION? ==> grants[g].session.Some?)
      && (grants[g].mode.TIMED? || grants[g].expires == 0)
  }

  ghost predicate Inherits(c: Artifact, p: Artifact) {
    c.expires <= p.expires && c.level >= p.level && c.sources >= p.sources && c.session == p.session
  }

  /** A derived artifact comes after its parents and inherits their limits. */
  ghost predicate Derived(artifacts: map<Id, Artifact>) {
    forall c, p :: Child(artifacts, c, p) ==> Follows(artifacts, c, p)
  }

  predicate Child(artifacts: map<Id, Artifact>, c: Id, p: Id) {
    c in artifacts && p in artifacts[c].parents
  }

  ghost predicate Follows(artifacts: map<Id, Artifact>, c: Id, p: Id)
    requires Child(artifacts, c, p)
  {
    p in artifacts && p < c && Inherits(artifacts[c], artifacts[p])
  }

  ghost predicate Timed(a: Artifact, r: Receipt, definitions: map<string, Config>) {
    exists i :: r.payload.Some? && 0 <= i < |r.payload.value.requirements|
      && r.payload.value.requirements[i].definition in definitions
      && a.expires == r.created + Retention(definitions[r.payload.value.requirements[i].definition])
  }

  ghost predicate Root(a: Artifact, r: Receipt, definitions: map<string, Config>) {
    && r.valid && r.payload.Some?
    && a.sources == r.sources
    && r.payload.value.session == Some(a.session)
    && Timed(a, r, definitions)
  }

  /** A resident original artifact rests on a valid receipt, and expires one retention
      period after that receipt was created. */
  ghost predicate Rooted(artifacts: map<Id, Artifact>, receipts: map<Id, Receipt>, definitions: map<string, Config>) {
    forall a :: a in artifacts && artifacts[a].state.Active? && artifacts[a].receipt.Some? ==>
      artifacts[a].receipt.value in receipts && Root(artifacts[a], receipts[artifacts[a].receipt.value], definitions)
  }

  /** A receipt in a session was given in that session's context. */
  ghost predicate Placed(receipts: map<Id, Receipt>, sessions: map<Id, SessionRow>) {
    forall r :: r in receipts && receipts[r].payload.Some? && receipts[r].payload.value.session.Some? ==>
      var p := receipts[r].payload.value;
      p.session.value in sessions && sessions[p.session.value].subject == p.subject
          && sessions[p.session.value].profile == p.profile
  }

  ghost predicate Sound(definitions: map<string, Config>) {
    forall d :: d in definitions ==> R.WellFormed(definitions[d])
  }

  /** The clauses a transaction may rely on at any point of it. */
  ghost predicate Core(l: Ledger) {
    && Named(l)
    && Unique(l.receipts, l.executions)
    && Indexed(l.artifacts, l.originals)
    && Homed(l.artifacts, l.sessions)
    && Clean(l.artifacts, l.grants)
    && Held(l.artifacts, l.grants, l.sessions)
    && Backed(l.receipts, l.grants, l.definitions)
    && Spent(l.receipts, l.grants)
    && Lawful(l.grants, l.definitions)
    && Counted(l.grants)
    && Derived(l.artifacts)
    && Rooted(l.artifacts, l.receipts, l.definitions)
    && Placed(l.receipts, l.sessions)
    && Sound(l.definitions)
  }

  ghost predicate Inv(l: Ledger) {
    Core(l) && Settled(l.artifacts, l.sessions)
  }

  // ----- retiring grants, receipts and artifacts together -----

  function Retire(l: Ledger, gs: set<Id>, rs: set<Id>, xs: set<Id>): Ledger {
    l.(grants := RevokeSet(l.grants, gs), receipts := InvalidateSet(l.receipts, rs),
       artifacts := BlockSet(l.artifacts, xs))
  }

  /** `xs` contains every resident artifact on a grant of `gs`. */
  ghost predicate CatchesGrants(artifacts: map<Id, Artifact>, gs: set<Id>, xs: set<Id>) {
    forall a, g :: a in artifacts && artifacts[a].state.Active? && g in artifacts[a].sources && g in gs ==> a in xs
  }

  /** `xs` contains every resident original artifact on a receipt of `rs`. */
  ghost predicate CatchesReceipts(artifacts: map<Id, Artifact>, rs: set<Id>, xs: set<Id>) {
    forall a :: (a in artifacts && artifacts[a].state.Active? && artifacts[a].receipt.Some?
                 && artifacts[a].receipt.value in rs) ==> a in xs
  }

  lemma NamesRetire(l: Ledger, gs: set<Id>, rs: set<Id>, xs: set<Id>)
    requires Named(l)
    ensures Named(Retire(l, gs, rs, xs))
  {
  }

  lemma UniqueRetire(receipts: map<Id, Receipt>, executions: map<Execution, Id>, rs: set<Id>)
    requires Unique(receipts, executions)
    ensures Unique(InvalidateSet(receipts, rs), executions)
  {
  }

  lemma OriginalBlock(artifacts: map<Id, Artifact>, originals: map<Original, Id>, xs: set<Id>)
    requires Indexed(artifacts, originals)
    ensures Indexed(BlockSet(artifacts, xs), originals)
  {
  }

  lemma HomedBlock(artifacts: map<Id, Artifact>, sessions: map<Id, SessionRow>, xs: set<Id>)
    requires Homed(artifacts, sessions)
    ensures Homed(BlockSet(artifacts, xs), sessions)
  {
  }

  lemma CleanRetire(artifacts: map<Id, Artifact>, grants: map<Id, Grant>, gs: set<Id>, xs: set<Id>)
    requires Clean(artifacts, grants) && CatchesGrants(artifacts, gs, xs)
    ensures Clean(BlockSet(artifacts, xs), RevokeSet(grants, gs))
  {
  }

  lemma HeldRetire(artifacts: map<Id, Artifact>, grants: map<Id, Grant>, sessions: map<Id, SessionRow>, gs: set<Id>,
                   xs: set<Id>)
    requires Held(artifacts, grants, sessions)
    ensures Held(BlockSet(artifacts, xs), RevokeSet(grants, gs), sessions)
  {
  }

  lemma CoveredRevoke(p: Payload, sources: set<Id>, grants: map<Id, Grant>, gs: set<Id>)
    requires Covered(p, sources, grants)
    ensures Covered(p, sources, RevokeSet(grants, gs))
  {
    forall i | 0 <= i < |p.requirements| ensures Backs(sources, RevokeSet(grants, gs), p.requirements[i].definition) {
      assert Backs(sources, grants, p.requirements[i].definition);
      var g :| g in sources && g in grants && grants[g].key.definition == p.requirements[i].definition;
      assert RevokeSet(grants, gs)[g].key == grants[g].key;
    }
  }

  lemma BackedRetire(receipts: map<Id, Receipt>, grants: map<Id, Grant>, definitions: map<string, Config>, gs: set<Id>,
                     rs: set<Id>)
    requires Backed(receipts, grants, definitions)
    ensures Backed(InvalidateSet(receipts, rs), RevokeSet(grants, gs), definitions)
  {
    var rr := InvalidateSet(receipts, rs);
    forall r | r in rr && rr[r].valid
      ensures rr[r].payload.Some? && Covered(rr[r].payload.value, rr[r].sources, RevokeSet(grants, gs))
    {
      CoveredRevoke(receipts[r].payload.value, receipts[r].sources, grants, gs);
    }
  }

  lemma SpentRetire(receipts: map<Id, Receipt>, grants: map<Id, Grant>, gs: set<Id>, rs: set<Id>)
    requires Spent(receipts, grants)
    ensures Spent(InvalidateSet(receipts, rs), RevokeSet(grants, gs))
  {
  }

  lemma LawfulRetire(grants: map<Id, Grant>, definitions: map<string, Config>, gs: set<Id>)
    requires Lawful(grants, definitions) && Counted(grants)
    ensures Lawful(RevokeSet(grants, gs), definitions) && Counted(RevokeSet(grants, gs))
  {
  }

  lemma DerivedBlock(artifacts: map<Id, Artifact>, xs: set<Id>)
    requires Derived(artifacts)
    ensures Derived(BlockSet(artifacts, xs))
  {
    var aa := BlockSet(artifacts, xs);
    forall c, p | Child(aa, c, p) ensures Follows(aa, c, p) {
      assert Child(artifacts, c, p) && Follows(artifacts, c, p);
    }
  }

  lemma RootedRetire(artifacts: map<Id, Artifact>, receipts: map<Id, Receipt>, definitions: map<string, Config>,
                     rs: set<Id>, xs: set<Id>)
    requires Rooted(artifacts, receipts, definitions) && CatchesReceipts(artifacts, rs, xs)
    ensures Rooted(BlockSet(artifacts, xs), InvalidateSet(receipts, rs), definitions)
  {
    var aa, rr := BlockSet(artifacts, xs), InvalidateSet(receipts, rs);
    forall a | a in aa && aa[a].state.Active? && aa[a].receipt.Some?
      ensures aa[a].receipt.value in rr && Root(aa[a], rr[aa[a].receipt.value], definitions)
    {
      assert aa[a] == artifacts[a];
      assert artifacts[a].receipt.value !in rs;
    }
  }

  lemma PlacedRetire(receipts: map<Id, Receipt>, sessions: map<Id, SessionRow>, rs: set<Id>)
    requires Placed(receipts, sessions)
    ensures Placed(InvalidateSet(receipts, rs), sessions)
  {
  }

  lemma SettledBlock(artifacts: map<Id, Artifact>, sessions: map<Id, SessionRow>, xs: set<Id>)
    requires Settled(artifacts, sessions)
    ensures Settled(BlockSet(artifacts, xs), sessions)
  {
    forall s | s in sessions && sessions[s].state.Closing? ensures HasUndeleted(BlockSet(artifacts, xs), s) {
      assert HasUndeleted(artifacts, s);
      var a :| a in artifacts && artifacts[a].session == s && !artifacts[a].state.Deleted?;
      assert a in BlockSet(artifacts, xs) && BlockSet(artifacts, xs)[a].session == s;
    }
  }

  /** Revoking grants and invalidating receipts keeps the ledger sound as long as the resident
      artifacts that rest on them are blocked in the same transaction. */
  lemma RetireKeeps(l: Ledger, gs: set<Id>, rs: set<Id>, xs: set<Id>)
    requires Core(l) && CatchesGrants(l.artifacts, gs, xs) && CatchesReceipts(l.artifacts, rs, xs)
    ensures Core(Retire(l, gs, rs, xs))
  {
    NamesRetire(l, gs, rs, xs);
    UniqueRetire(l.receipts, l.executions, rs);
    OriginalBlock(l.artifacts, l.originals, xs);
    HomedBlock(l.artifacts, l.sessions, xs);
    CleanRetire(l.artifacts, l.grants, gs, xs);
    HeldRetire(l.artifacts, l.grants, l.sessions, gs, xs);
    BackedRetire(l.receipts, l.grants, l.definitions, gs, rs);
    SpentRetire(l.receipts, l.grants, gs, rs);
    LawfulRetire(l.grants, l.definitions, gs);
    DerivedBlock(l.artifacts, xs);
    RootedRetire(l.artifacts, l.receipts, l.definitions, rs, xs);
    PlacedRetire(l.receipts, l.sessions, rs);
  }
}
