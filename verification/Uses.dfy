/** What authorizing an execution and holding data under it do. */
module Uses {
  import opened Types
  import opened Ledger
  import opened Conditions
  import opened Operations
  import opened Invariants
  import opened Verdicts
  import opened Transactions
  import opened Progress
  import opened Effects
  import opened Withdrawals
  import opened Coverage
  import opened Requests

  // ----- authorizing -----

  /** What is executed: the request without the name and the time the client gave it. */
  ghost function Executed(p: Payload): Payload {
    p.(client := "", lifetime := 0)
  }

  /** A new receipt, created now, rests on the grants the verdict names; each ONCE grant among them loses one
      use, and nothing else changes. */
  ghost predicate Authorizes(l: Ledger, m: Ledger, peer: Peer, p: Payload, grants: seq<Id>, now: nat) {
    var e, sources := Execution(peer.identity, p.operation, p.step), set i | 0 <= i < |grants| :: grants[i];
    && m == l.(grants := m.grants, next := l.next + 1, revision := l.revision + 1,
               receipts := l.receipts[l.next := Receipt(e, Executed(p), Some(Executed(p)), now, true, sources)],
               executions := l.executions[e := l.next])
    && m.grants.Keys == l.grants.Keys
    && forall g :: g in l.grants ==>
         m.grants[g] == l.grants[g].(remaining := l.grants[g].remaining -
                                                  if g in sources && l.grants[g].mode == ONCE then 1 else 0)
  }

  lemma AuthorizedAuthorizes(l: Ledger, peer: Peer, p: Payload, grants: seq<Id>, now: nat)
    requires Inv(l) && forall i :: 0 <= i < |grants| ==> Fit(l, Executed(p), grants[i])
    ensures var e := Execution(peer.identity, p.operation, p.step);
            Authorizes(l, Bump(Authorized(l, e, Executed(p), grants, now)), peer, p, grants, now)
  {
    hide Inv, Consume, Fit;
    var e := Execution(peer.identity, p.operation, p.step);
    AuthorizedExecutes(l, e, Executed(p), grants, now);
    ConsumeShape(l.grants, grants, |grants|);
    assert Elements(grants) == set i | 0 <= i < |grants| :: grants[i];
  }

  ghost function Enforcing(p: Payload, now: nat): Question {
    Question(Executed(p), None, TargetOf(p, now), true)
  }

  /** A first execution is authorized exactly if its conditions are decided, and leaves a receipt exactly if
      they are allowed. */
  lemma AuthorizeExecutes(l: Ledger, env: Env, peer: Peer, p: Payload)
    requires Inv(l) && Execution(peer.identity, p.operation, p.step) !in l.executions
    ensures var r := Evaluate(l, env, peer, p, Authorize);
            var v := CheckConditions(l, env, peer, Enforcing(p, env.now), true);
            && (r.Ok? <==> MayAsk(l, env, peer, p, Authorize) && v.Ok?)
            && (r.Ok? ==>
                  if v.value.decision.ALLOWED?
                  then Authorizes(l, r.value.db, peer, p, v.value.grants, env.now)
                       && r.value.reply == Decided(v.value, Some(l.next), None)
                  else r.value.db == l && r.value.reply == Decided(v.value, None, None))
  {
    hide Inv, Preflight, MayAsk, CheckConditions, Authorized, Authorizes, Fit;
    PreflightIs(l, env, peer, p, Authorize);
    assert Target(Executed(p), env.now) == TargetOf(p, env.now);
    var v := CheckConditions(l, env, peer, Enforcing(p, env.now), true);
    if v.Ok? {
      VerdictSound(l, env, peer, Enforcing(p, env.now), true);
      AuthorizedAuthorizes(l, peer, p, v.value.grants, env.now);
    }
  }

  /** The receipt still authorizes what it was given for. */
  ghost predicate Standing(l: Ledger, env: Env, r: Id) {
    && r in l.receipts && l.receipts[r].valid && l.receipts[r].payload.Some?
    && (forall g :: g in l.receipts[r].sources && g in l.grants ==>
          !l.grants[g].revoked && (l.grants[g].expires == 0 || env.now < l.grants[g].expires))
    && var p := l.receipts[r].payload.value;
       && env.profile(p.subject, p.profile).None?
       && forall i :: 0 <= i < |p.requirements| ==> Upheld(l, env, p.requirements[i])
  }

  ghost predicate Upheld(l: Ledger, env: Env, r: Requirement) {
    && Defined(l, r)
    && var c := l.definitions[r.definition];
       && (r.policyVersion == c.policyVersion || (r.policyVersion == "" && !Typed(c)))
       && env.arguments(Some(c), r) && env.installed(c.package, c.app, c.identity)
  }

  lemma StandingIs(l: Ledger, env: Env, r: Id)
    ensures ReceiptValid(l, env, r) == Ok(true) <==> Standing(l, env, r)
  {
    hide ReceiptValid;
    ReceiptValidSound(l, env, r);
    forall q: Requirement ensures UpToDate(l, env, q) <==> Upheld(l, env, q) {
    }
    hide UpToDate, Upheld;
  }

  /** A repeated execution finds its receipt: CONFLICT for another payload, that receipt while it stands, and
      nothing is consumed or written. */
  lemma AuthorizeRepeats(l: Ledger, env: Env, peer: Peer, p: Payload)
    requires Execution(peer.identity, p.operation, p.step) in l.executions && MayAsk(l, env, peer, p, Authorize)
    ensures var r := Evaluate(l, env, peer, p, Authorize);
            var id := l.executions[Execution(peer.identity, p.operation, p.step)];
            && (r.Ok? <==> Standing(l, env, id) && l.receipts[id].fingerprint == Executed(p))
            && (r.Ok? ==> r.value.db == l && r.value.reply == Repeated(id))
            && (id in l.receipts && l.receipts[id].fingerprint != Executed(p) ==> r == Err(CONFLICT))
  {
    hide Preflight, MayAsk, ReceiptValid, Standing;
    PreflightIs(l, env, peer, p, Authorize);
    StandingIs(l, env, l.executions[Execution(peer.identity, p.operation, p.step)]);
    StandingHas(l, env, l.executions[Execution(peer.identity, p.operation, p.step)]);
  }

  lemma StandingHas(l: Ledger, env: Env, r: Id)
    ensures Standing(l, env, r) ==> r in l.receipts && l.receipts[r].payload.Some?
  {
  }

  // ----- data -----

  /** The holder works in its session. */
  ghost predicate Holding(l: Ledger, env: Env, peer: Peer, u: Use) {
    && "holder" in peer.roles && env.profile(u.payload.subject, u.payload.profile).None?
    && u.payload.session.Some? && InSession(l.sessions, env.now, peer, u.payload)
  }

  lemma HoldingIs(l: Ledger, env: Env, peer: Peer, u: Use)
    ensures HolderContext(l, env, peer, u).Ok? <==> Holding(l, env, peer, u)
  {
    hide Context, Permits, ActiveSession;
    ContextPermits(peer, u.payload.subject, u.payload.profile);
    SessionIs(l.sessions, env.now, peer, u.payload);
    SessionPermits(l.sessions, env.now, peer, u.payload);
    hide InSession;
  }

  /** The artifact is the holder's own, for exactly this use. */
  ghost predicate Own(a: Artifact, peer: Peer, u: Use) {
    && u.payload.session == Some(a.session) && a.holder == peer.identity && a.instance == peer.instance
    && a.purpose == u.purpose && a.recipient == u.recipient && a.scope == u.scope
  }

  /** A source grant is not revoked, and its definition active, installed, of the same version and fit for
      what was granted. */
  ghost predicate Sustains(l: Ledger, env: Env, g: Grant) {
    && !g.revoked && g.key.definition in l.definitions
    && var c, k := l.definitions[g.key.definition], g.key;
       && c.active && c.policyVersion == k.version && env.installed(c.package, c.app, c.identity)
       && env.arguments(Some(c), Requirement(k.definition, k.scope, k.operation, k.purpose, k.recipient, k.holder,
                                             k.version))
  }

  /** The artifact may be used. */
  ghost predicate Usage(l: Ledger, env: Env, peer: Peer, u: Use, artifact: Id) {
    && artifact in l.artifacts
    && var a := l.artifacts[artifact];
       && Own(a, peer, u) && a.state == Active && env.now < a.expires && a.sources != {}
       && forall g :: g in a.sources && g in l.grants ==> Sustains(l, env, l.grants[g])
  }

  lemma SourcesSustain(l: Ledger, env: Env, sources: set<Id>)
    ensures StaleSources(l, env, sources) == {} && MalformedSources(l, env, sources) == {} <==>
              forall g :: g in sources && g in l.grants ==> Sustains(l, env, l.grants[g])
  {
    if g :| g in sources && g in l.grants && !Sustains(l, env, l.grants[g]) {
      assert g in StaleSources(l, env, sources) || g in MalformedSources(l, env, sources);
    }
    if g :| g in StaleSources(l, env, sources) {
      assert g in sources && g in l.grants && !Sustains(l, env, l.grants[g]);
    }
    if g :| g in MalformedSources(l, env, sources) {
      assert g in sources && g in l.grants && !Sustains(l, env, l.grants[g]);
    }
  }

  lemma UsageIs(l: Ledger, env: Env, peer: Peer, u: Use, artifact: Id)
    requires InSession(l.sessions, env.now, peer, u.payload)
    ensures Provenance(l, env, peer, u, artifact).Ok? <==> Usage(l, env, peer, u, artifact)
  {
    hide ActiveSession, InSession, StaleSources, MalformedSources, Sustains;
    SessionIs(l.sessions, env.now, peer, u.payload);
    if artifact in l.artifacts { SourcesSustain(l, env, l.artifacts[artifact].sources); }
  }

  /** `data_check` permits exactly the holder's own use of a resident artifact whose sources all stand. */
  lemma CheckPermits(l: Ledger, env: Env, peer: Peer, u: Use, artifact: Id)
    ensures var r := CheckData(l, env, peer, u, artifact);
            && (r.Ok? <==> Holding(l, env, peer, u) && Usage(l, env, peer, u, artifact))
            && (r.Ok? ==> r.value.db == l && r.value.reply == Reply.Permitted)
  {
    hide HolderContext, Provenance, Usage, InSession;
    HoldingIs(l, env, peer, u);
    if Holding(l, env, peer, u) { UsageIs(l, env, peer, u, artifact); }
  }

  // ----- registering -----

  ghost predicate Room(l: Ledger, session: Id) {
    |set a | a in l.artifacts && l.artifacts[a].session == session && l.artifacts[a].state != Deleted| < 256
  }

  lemma RoomIs(l: Ledger, session: Id)
    ensures |UndeletedIn(l, session)| < 256 <==> Room(l, session)
  {
    assert UndeletedIn(l, session) ==
             (set a | a in l.artifacts && l.artifacts[a].session == session && l.artifacts[a].state != Deleted);
  }

  /** The receipt was given for this use, in this session. */
  ghost predicate GivenTo(l: Ledger, env: Env, u: Use, receipt: Id) {
    && Standing(l, env, receipt)
    && var p := l.receipts[receipt].payload.value;
       && p.session == u.payload.session && p.generation == u.payload.generation
       && p.subject == u.payload.subject && p.profile == u.payload.profile
  }

  /** The requirement allows this holder to keep data for a while from the authorization on. */
  ghost predicate Keepable(l: Ledger, env: Env, peer: Peer, u: Use, receipt: Id, i: nat)
    requires receipt in l.receipts && l.receipts[receipt].payload.Some?
  {
    var row := l.receipts[receipt];
    && i < |row.payload.value.requirements|
    && var r := row.payload.value.requirements[i];
       && r.holder == peer.identity && r.scope == u.scope && r.purpose == u.purpose && r.recipient == u.recipient
       && Defined(l, r) && l.definitions[r.definition].retention.Some?
       && 0 < Decimal(l.definitions[r.definition].retention.value)
       && env.now < row.created + Decimal(l.definitions[r.definition].retention.value)
       && u.payload.session.Some? && Room(l, u.payload.session.value)
  }

  /** The original artifact: it ends one retention period after the authorization, and rests on its grants. */
  ghost function OriginalOf(l: Ledger, peer: Peer, u: Use, receipt: Id, i: nat): Artifact
    requires receipt in l.receipts && l.receipts[receipt].payload.Some? && u.payload.session.Some?
    requires i < |l.receipts[receipt].payload.value.requirements|
    requires var r := l.receipts[receipt].payload.value.requirements[i];
             Defined(l, r) && l.definitions[r.definition].retention.Some?
  {
    var row := l.receipts[receipt];
    var c := l.definitions[row.payload.value.requirements[i].definition];
    Artifact(Some(receipt), u.payload.session.value, peer.identity, peer.instance, u.purpose, u.recipient, u.scope,
             row.created + Decimal(c.retention.value), Active, Decimal(c.level), row.sources, {})
  }

  lemma NewIsOriginal(l: Ledger, env: Env, peer: Peer, u: Use, receipt: Id, i: nat)
    requires receipt in l.receipts && l.receipts[receipt].payload.Some?
    ensures var r := RegisterNew(l, env, peer, u, receipt, i);
            && (r.Ok? <==> Keepable(l, env, peer, u, receipt, i))
            && (r.Ok? ==>
                  var a := OriginalOf(l, peer, u, receipt, i);
                  && r.value.db == l.(artifacts := l.artifacts[l.next := a], next := l.next + 1,
                                      revision := l.revision + 1,
                                      originals := l.originals[Original(receipt, peer.identity) := l.next])
                  && r.value.reply == Stored(l.next, a.expires))
  {
    hide UndeletedIn, Room, Decimal;
    if u.payload.session.Some? { RoomIs(l, u.payload.session.value); }
  }

  /** The original registered before is the holder's, for this use, and still resident. */
  ghost predicate Kept(l: Ledger, env: Env, peer: Peer, u: Use, artifact: Id) {
    && artifact in l.artifacts
    && var a := l.artifacts[artifact];
       && a.instance == peer.instance && a.purpose == u.purpose && a.recipient == u.recipient && a.scope == u.scope
       && a.state == Active && env.now < a.expires
  }

  /** `data_register`: one original for each receipt and holder. */
  lemma RegisterKeepsOne(l: Ledger, env: Env, peer: Peer, u: Use, receipt: Id, i: nat)
    ensures var r := Register(l, env, peer, u, receipt, i);
            var original := Original(receipt, peer.identity);
            if !Holding(l, env, peer, u) || !GivenTo(l, env, u, receipt) then r.Err?
            else if original in l.originals then
              && (r.Ok? <==> Kept(l, env, peer, u, l.originals[original]))
              && (r.Ok? ==> r.value.db == l
                            && r.value.reply == Stored(l.originals[original],
                                                       l.artifacts[l.originals[original]].expires))
            else r == RegisterNew(l, env, peer, u, receipt, i)
  {
    hide HolderContext, Holding, ReceiptValid, RegisterNew, Standing;
    HoldingIs(l, env, peer, u);
    StandingIs(l, env, receipt);
    StandingHas(l, env, receipt);
  }

  // ----- deriving -----

  ghost predicate Parents(l: Ledger, parents: seq<Id>, n: nat) {
    n <= |parents| && forall i :: 0 <= i < n ==> parents[i] in l.artifacts
  }

  /** The first of the ends of the parents, the highest of their levels, and all of their sources. */
  ghost predicate Inherited(l: Ledger, parents: seq<Id>, n: nat, expires: nat, level: nat, sources: set<Id>)
    requires Parents(l, parents, n)
  {
    && (exists i :: 0 <= i < n && l.artifacts[parents[i]].expires == expires)
    && (forall i :: 0 <= i < n ==> expires <= l.artifacts[parents[i]].expires)
    && (exists i :: 0 <= i < n && l.artifacts[parents[i]].level == level)
    && (forall i :: 0 <= i < n ==> l.artifacts[parents[i]].level <= level)
    && (forall i :: 0 <= i < n ==> l.artifacts[parents[i]].sources <= sources)
    && (forall g :: g in sources ==> exists i :: 0 <= i < n && g in l.artifacts[parents[i]].sources)
  }

  ghost predicate Usages(l: Ledger, env: Env, peer: Peer, u: Use, parents: seq<Id>, n: nat) {
    && n <= |parents| && (forall i :: 0 <= i < n ==> Usage(l, env, peer, u, parents[i]))
    && forall i, j :: 0 <= i < j < n ==> parents[i] != parents[j]
  }

  lemma InheritMore(l: Ledger, parents: seq<Id>, n: nat, t: Lineage)
    requires n < |parents| && Parents(l, parents, n + 1)
    requires n == 0 ==> t == Lineage(None, 0, {})
    requires n > 0 ==> t.expires.Some? && Inherited(l, parents, n, t.expires.value, t.level, t.sources)
    ensures var a := l.artifacts[parents[n]];
            Inherited(l, parents, n + 1, Earlier(t.expires, a.expires).value,
                      if a.level > t.level then a.level else t.level,
                      t.sources + a.sources)
  {
    var a := l.artifacts[parents[n]];
    var expires, level := Earlier(t.expires, a.expires).value, if a.level > t.level then a.level else t.level;
    if expires == a.expires {
      assert l.artifacts[parents[n]].expires == expires;
    } else {
      var i :| 0 <= i < n && l.artifacts[parents[i]].expires == t.expires.value;
      assert l.artifacts[parents[i]].expires == expires;
    }
    if n == 0 || a.level > t.level {
      assert l.artifacts[parents[n]].level == level;
    } else {
      var i :| 0 <= i < n && l.artifacts[parents[i]].level == t.level;
      assert l.artifacts[parents[i]].level == level;
    }
    forall g | g in t.sources + a.sources ensures exists i :: 0 <= i < n + 1 && g in l.artifacts[parents[i]].sources {
      if g in a.sources {
        assert g in l.artifacts[parents[n]].sources;
      } else {
        var i :| 0 <= i < n && g in l.artifacts[parents[i]].sources;
        assert g in l.artifacts[parents[i]].sources;
      }
    }
  }

  lemma {:induction false} InheritIs(l: Ledger, env: Env, peer: Peer, u: Use, parents: seq<Id>, n: nat)
    requires n <= |parents| && InSession(l.sessions, env.now, peer, u.payload)
    ensures var r := Inherit(l, env, peer, u, parents, n);
            && (r.Ok? <==> Usages(l, env, peer, u, parents, n))
            && (r.Ok? ==> Parents(l, parents, n))
            && (r.Ok? && n == 0 ==> r.value == Lineage(None, 0, {}))
            && (r.Ok? && n > 0 ==> r.value.expires.Some?
                                   && Inherited(l, parents, n, r.value.expires.value, r.value.level, r.value.sources))
  {
    hide InSession, Provenance, Usage, Inherited, SameUse, Own;
    if n != 0 {
      InheritIs(l, env, peer, u, parents, n - 1);
      UsageIs(l, env, peer, u, parents[n - 1]);
      UsageHas(l, env, peer, u, parents[n - 1]);
      var t := Inherit(l, env, peer, u, parents, n - 1);
      assert parents[n - 1] in parents[..n - 1] <==> exists i :: 0 <= i < n - 1 && parents[i] == parents[n - 1];
      if t.Ok? && parents[n - 1] in l.artifacts { InheritMore(l, parents, n - 1, t.value); }
    }
  }

  lemma UsageHas(l: Ledger, env: Env, peer: Peer, u: Use, artifact: Id)
    ensures Usage(l, env, peer, u, artifact) ==>
              && artifact in l.artifacts && SameUse(l.artifacts[artifact], peer, u)
              && l.artifacts[artifact].state.Active? && l.artifacts[artifact].expires > env.now
  {
  }

  ghost predicate Derives(l: Ledger, c: Change, peer: Peer, u: Use, parents: seq<Id>) {
    && u.payload.session.Some? && Parents(l, parents, |parents|) && l.next in c.db.artifacts
    && var a := c.db.artifacts[l.next];
       && c.db == l.(artifacts := l.artifacts[l.next := a], next := l.next + 1, revision := l.revision + 1)
       && a == Artifact(None, u.payload.session.value, peer.identity, peer.instance, u.purpose, u.recipient, u.scope,
                        a.expires, Active, a.level, a.sources, set i | 0 <= i < |parents| :: parents[i])
       && Inherited(l, parents, |parents|, a.expires, a.level, a.sources)
       && c.reply == Stored(l.next, a.expires)
  }

  /** `data_register_derived`: data derived from artifacts the holder may all use keeps the strictest of their
      terms. */
  lemma DeriveDerives(l: Ledger, env: Env, peer: Peer, u: Use, parents: seq<Id>)
    ensures var r := Derive(l, env, peer, u, parents);
            && (r.Ok? <==>
                  && Holding(l, env, peer, u) && 1 <= |parents| <= 16 && Usages(l, env, peer, u, parents, |parents|)
                           && Room(l, u.payload.session.value))
            && (r.Ok? ==> Derives(l, r.value, peer, u, parents))
  {
    hide HolderContext, Inherit, UndeletedIn, Room, Usages, Inherited, InSession;
    HoldingIs(l, env, peer, u);
    if Holding(l, env, peer, u) {
      InheritIs(l, env, peer, u, parents, |parents|);
      RoomIs(l, u.payload.session.value);
      assert Elements(parents) == set i | 0 <= i < |parents| :: parents[i];
    }
  }

  // ----- releasing and acknowledging -----

  /** Who may report on the cleanup of an artifact: the instance that holds it, or, to reconcile, another
      instance of the holder in its context, once it is not resident any more. */
  ghost predicate MayReport(l: Ledger, peer: Peer, artifact: Id, success: bool, reconcile: bool, subject: string,
                            profile: string) {
    && "holder" in peer.roles && artifact in l.artifacts
    && var a := l.artifacts[artifact];
       && a.session in l.sessions && a.holder == peer.identity
       && (a.instance == peer.instance
           || (&& reconcile && Permits(peer, subject, profile) && a.state != Active
               && l.sessions[a.session].subject == subject && l.sessions[a.session].profile == profile))
       && (success || a.state != Deleted)
  }

  /** Success deletes the artifact for good, failure keeps it for another try; a closing session that waited
      for nothing else is closed. */
  lemma AcknowledgeReports(l: Ledger, peer: Peer, artifact: Id, success: bool, reconcile: bool, subject: string,
                           profile: string)
    ensures var r := Acknowledge(l, peer, artifact, success, reconcile, subject, profile);
            && (r.Ok? <==> MayReport(l, peer, artifact, success, reconcile, subject, profile))
            && (r.Ok? ==> artifact in l.artifacts)
            && (r.Ok? ==>
                  var m := r.value.db;
                  && m == l.(sessions := m.sessions, revision := l.revision + 1,
                             artifacts := l.artifacts[artifact := l.artifacts[artifact].(
                               state := if success then Deleted else CleanupFailed)])
                  && Finishes(l.sessions, m.sessions, m.artifacts)
                  && r.value.reply == Acknowledged(success))
  {
    hide MayReport, Acknowledge, Finishes;
    ReportIff(l, peer, artifact, success, reconcile, subject, profile);
    if Acknowledge(l, peer, artifact, success, reconcile, subject, profile).Ok? {
      var k := l.(artifacts := l.artifacts[artifact := l.artifacts[artifact].(
                    state := if success then Deleted else CleanupFailed)]);
      FinishIs(k);
    }
  }

  lemma ReportIff(l: Ledger, peer: Peer, artifact: Id, success: bool, reconcile: bool, subject: string, profile: string)
    ensures var r := Acknowledge(l, peer, artifact, success, reconcile, subject, profile);
            && (r.Ok? <==> MayReport(l, peer, artifact, success, reconcile, subject, profile))
            && (r.Ok? ==> artifact in l.artifacts)
            && (r.Ok? ==>
                  var k := l.(artifacts := l.artifacts[artifact := l.artifacts[artifact].(
                                state := if success then Deleted else CleanupFailed)]);
                  r.value.db == Bump(FinishCleanup(k)) && r.value.reply == Acknowledged(success))
  {
    hide Context, Permits, FinishCleanup;
    ContextPermits(peer, subject, profile);
  }
}
