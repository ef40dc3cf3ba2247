/** What the effects of single operations mean for whole runs: nothing outlives its time, a withdrawn
    consent stays withdrawn until it is given again, and a receipt is dated. */
module Consequences {
  import opened Types
  import opened Ledger
  import opened Conditions
  import opened Operations
  import opened Daemon
  import opened Invariants
  import opened Verdicts
  import opened Transactions
  import opened Runs
  import opened Guarantees
  import opened Effects
  import opened Withdrawals
  import opened Coverage
  import opened Answers
  import opened Requests
  import opened Uses
  import P = Progress
  import R = Registry

  // ----- after an expiry sweep -----

  ghost predicate ArtifactInTime(a: Artifact, now: nat) {
    a.state == Active ==> now < a.expires
  }

  ghost predicate RequestInTime(q: RequestRow, now: nat) {
    q.state == Pending ==> now < q.deadline
  }

  ghost predicate SessionInTime(s: SessionRow, now: nat) {
    && (s.state == Open ==> now < s.idle && now < s.absolute && now < s.lease)
    && (s.state == Suspended ==> (now < s.resume || s.grace == 0) && now < s.idle && now < s.absolute)
  }

  /** No resident artifact is past its end, no prompt past its deadline, and no session past one of its. */
  ghost predicate InTime(l: Ledger, now: nat) {
    && (forall a :: a in l.artifacts ==> ArtifactInTime(l.artifacts[a], now))
    && (forall q :: q in l.requests ==> RequestInTime(l.requests[q], now))
    && (forall s :: s in l.sessions ==> SessionInTime(l.sessions[s], now))
  }

  /** The session has reached none of its limits. */
  ghost predicate Unhurried(l: Ledger, session: Id, now: nat) {
    session in l.sessions ==> !Over(l.sessions[session], now) && !Lapses(l.sessions[session], now)
  }

  /** After a sweep everything is in time. */
  lemma SweepLeavesInTime(l: Ledger, now: nat)
    requires Inv(l)
    ensures InTime(Expire(l, now), now)
  {
    hide Inv, Expire, HasUndeleted, Revokes, GrantsWithin, SweptSession, SweptArtifact, SweptRequest, OverSessions;
    hide LapsedSessions, ArtifactInTime, RequestInTime, SessionInTime;
    ExpireSweeps(l, now);
    var m := Expire(l, now);
    var over, lapsed := OverSessions(l.sessions, now), LapsedSessions(l.sessions, now);
    forall s | s in m.sessions ensures SessionInTime(m.sessions[s], now) {
      SweptSessionInTime(l.sessions[s], m.sessions[s], HasUndeleted(l.artifacts, s), now);
    }
    forall a | a in m.artifacts ensures ArtifactInTime(m.artifacts[a], now) {
      SweptArtifactInTime(l.artifacts[a], m.artifacts[a], over, now);
    }
    forall q | q in m.requests ensures RequestInTime(m.requests[q], now) {
      SweptRequestInTime(l.requests[q], m.requests[q], over, lapsed, now);
    }
  }

  lemma SweptSessionInTime(a: SessionRow, b: SessionRow, waits: bool, now: nat)
    requires SweptSession(a, b, waits, now)
    ensures SessionInTime(b, now) && (!Over(a, now) && !Lapses(a, now) ==> b == a)
  {
  }

  lemma SweptArtifactInTime(a: Artifact, b: Artifact, over: set<Id>, now: nat)
    requires SweptArtifact(a, b, over, now)
    ensures ArtifactInTime(b, now) && (now < a.expires && a.session !in over ==> b == a)
  {
  }

  lemma SweptRequestInTime(a: RequestRow, b: RequestRow, over: set<Id>, lapsed: set<Id>, now: nat)
    requires SweptRequest(a, b, over, lapsed, now)
    ensures RequestInTime(b, now)
    ensures now < a.deadline && !Within(a.payload.session, over) && !Within(a.payload.session, lapsed) ==> b == a
  {
  }

  lemma UnhurriedIs(l: Ledger, s: Id, now: nat)
    ensures Unhurried(l, s, now) <==> s !in OverSessions(l.sessions, now) && s !in LapsedSessions(l.sessions, now)
  {
  }

  /** What had reached no limit is as it was. */
  lemma SweepLeavesTheRest(l: Ledger, now: nat, a: Id, q: Id, s: Id)
    requires Inv(l)
    ensures var m := Expire(l, now);
            && (a in l.artifacts && now < l.artifacts[a].expires && Unhurried(l, l.artifacts[a].session, now) ==>
                  a in m.artifacts && m.artifacts[a] == l.artifacts[a])
            && (q in l.requests && now < l.requests[q].deadline
                && OfUnhurried(l, l.requests[q].payload.session, now) ==>
                  q in m.requests && m.requests[q] == l.requests[q])
            && (s in l.sessions && Unhurried(l, s, now) ==> s in m.sessions && m.sessions[s] == l.sessions[s])
  {
    hide Inv, Expire, HasUndeleted, Revokes, GrantsWithin, SweptSession, SweptArtifact, SweptRequest, OverSessions;
    hide LapsedSessions, ArtifactInTime, RequestInTime, SessionInTime;
    ExpireSweeps(l, now);
    var m := Expire(l, now);
    var over, lapsed := OverSessions(l.sessions, now), LapsedSessions(l.sessions, now);
    if a in l.artifacts {
      UnhurriedIs(l, l.artifacts[a].session, now);
      SweptArtifactInTime(l.artifacts[a], m.artifacts[a], over, now);
    }
    if q in l.requests {
      if l.requests[q].payload.session.Some? { UnhurriedIs(l, l.requests[q].payload.session.value, now); }
      SweptRequestInTime(l.requests[q], m.requests[q], over, lapsed, now);
    }
    if s in l.sessions { SweptSessionInTime(l.sessions[s], m.sessions[s], HasUndeleted(l.artifacts, s), now); }
  }

  ghost predicate OfUnhurried(l: Ledger, session: Option<Id>, now: nat) {
    session.Some? ==> Unhurried(l, session.value, now)
  }

  // ----- what a call may add -----

  /** A resident artifact was resident before, or ends in the future. */
  ghost predicate FreshArtifacts(a: map<Id, Artifact>, b: map<Id, Artifact>, now: nat) {
    forall x :: x in b && b[x].state == Active ==> now < b[x].expires || (x in a && a[x] == b[x])
  }

  /** No grant is added, and whatever is resident was before or is fresh. */
  ghost predicate AddsNoGrant(l: Ledger, m: Ledger, now: nat) {
    m.grants.Keys <= l.grants.Keys && FreshArtifacts(l.artifacts, m.artifacts, now)
  }

  ghost predicate SameReceipts(l: Ledger, m: Ledger) {
    m.receipts.Keys == l.receipts.Keys
  }

  /** At most one receipt is added: that of this execution, now. */
  ghost predicate Dates(l: Ledger, m: Ledger, peer: Peer, p: Payload, now: nat) {
    forall r :: r in m.receipts && r !in l.receipts ==>
      && m.receipts[r].created == now && m.receipts[r].execution == Execution(peer.identity, p.operation, p.step)
      && m.receipts[r].fingerprint == Executed(p)
  }

  lemma SameAdds(l: Ledger, m: Ledger, now: nat)
    requires m.grants.Keys <= l.grants.Keys && m.artifacts == l.artifacts
    ensures AddsNoGrant(l, m, now)
  {
  }

  lemma BlocksFresh(a: map<Id, Artifact>, b: map<Id, Artifact>, ids: set<Id>, now: nat)
    requires Blocks(a, b, ids)
    ensures FreshArtifacts(a, b, now)
  {
  }

  lemma AskAdds(l: Ledger, env: Env, peer: Peer, p: Payload, purpose: Purpose)
    requires Inv(l) && Evaluate(l, env, peer, p, purpose).Ok?
    ensures var m := Evaluate(l, env, peer, p, purpose).value.db;
            && AddsNoGrant(l, m, env.now)
            && (if purpose.Authorize? then Dates(l, m, peer, p, env.now) else SameReceipts(l, m))
  {
    hide Inv, Evaluate, CheckConditions, Recall, Admit, StillCovered, CanRecheck, Records, CanRecord, Standing;
    hide AddsNoGrant;
    var m := Evaluate(l, env, peer, p, purpose).value.db;
    MayAskHolds(l, env, peer, p, purpose);
    SameAdds(l, l, env.now);
    match purpose
    case Query => QueryDecides(l, env, peer, p);
    case Create =>
      CreateAsks(l, env, peer, p);
      var key := ClientKey(peer.identity, p.subject, p.profile, p.client);
      if key in l.clients { RecallFinds(l, env, peer, l.clients[key], p); } else { AdmitRecords(l, env, peer, p); }
      SameAdds(l, m, env.now);
    case Authorize =>
      if Execution(peer.identity, p.operation, p.step) in l.executions {
        AuthorizeRepeats(l, env, peer, p);
      } else {
        AuthorizeExecutes(l, env, peer, p);
        SameAdds(l, m, env.now);
      }
  }

  lemma MayAskHolds(l: Ledger, env: Env, peer: Peer, p: Payload, purpose: Purpose)
    requires Evaluate(l, env, peer, p, purpose).Ok?
    ensures MayAsk(l, env, peer, p, purpose) && InSession(l.sessions, env.now, peer, p)
  {
    hide Preflight, CheckConditions, Recall, Admit, AuthorizeAnew, Repeat;
    PreflightIs(l, env, peer, p, purpose);
  }

  lemma RegisterAdds(l: Ledger, env: Env, peer: Peer, u: Use, receipt: Id, i: nat)
    requires Register(l, env, peer, u, receipt, i).Ok?
    ensures AddsNoGrant(l, Register(l, env, peer, u, receipt, i).value.db, env.now)
    ensures SameReceipts(l, Register(l, env, peer, u, receipt, i).value.db)
  {
    hide Register, RegisterNew, Holding, Standing, Room;
    RegisterKeepsOne(l, env, peer, u, receipt, i);
    StandingHas(l, env, receipt);
    if receipt in l.receipts && l.receipts[receipt].payload.Some? { NewIsOriginal(l, env, peer, u, receipt, i); }
  }

  lemma DeriveAdds(l: Ledger, env: Env, peer: Peer, u: Use, parents: seq<Id>)
    requires Derive(l, env, peer, u, parents).Ok?
    ensures AddsNoGrant(l, Derive(l, env, peer, u, parents).value.db, env.now)
    ensures SameReceipts(l, Derive(l, env, peer, u, parents).value.db)
  {
    hide Derive, Holding, Room, Usages, Derives, AddsNoGrant, SameReceipts;
    DeriveDerives(l, env, peer, u, parents);
    DerivesAdds(l, Derive(l, env, peer, u, parents).value, env, peer, u, parents);
  }

  lemma DerivesAdds(l: Ledger, c: Change, env: Env, peer: Peer, u: Use, parents: seq<Id>)
    requires Derives(l, c, peer, u, parents) && Usages(l, env, peer, u, parents, |parents|)
    ensures AddsNoGrant(l, c.db, env.now) && SameReceipts(l, c.db)
  {
    hide Own, Sustains;
    var i :| 0 <= i < |parents| && l.artifacts[parents[i]].expires == c.db.artifacts[l.next].expires;
    assert Usage(l, env, peer, u, parents[i]);
  }

  lemma ActAdds(l: Ledger, env: Env, peer: Peer, subject: string, profile: string, id: Id, generation: nat,
                verb: SessionVerb)
    requires Inv(l) && SessionAct(l, env, peer, subject, profile, id, generation, verb).Ok?
    ensures AddsNoGrant(l, SessionAct(l, env, peer, subject, profile, id, generation, verb).value.db, env.now)
    ensures SameReceipts(l, SessionAct(l, env, peer, subject, profile, id, generation, verb).value.db)
  {
    hide Inv, SessionAct, Acts, Acted, AddsNoGrant, SameReceipts;
    ActActs(l, env, peer, subject, profile, id, generation, verb);
    ActedAdds(l, SessionAct(l, env, peer, subject, profile, id, generation, verb).value.db, env, id, verb);
  }

  lemma ActedAdds(l: Ledger, m: Ledger, env: Env, id: Id, verb: SessionVerb)
    requires id in l.sessions && Acted(l, m, env, id, verb)
    ensures AddsNoGrant(l, m, env.now) && SameReceipts(l, m)
  {
    hide Closes, Voids, PromptsWithin;
    if verb.Close? || (verb.Suspend? && l.sessions[id].policy.ConnectionBound?) {
      ClosesAdds(l, m.(revision := l.revision), id, env.now);
    }
  }

  lemma ClosesAdds(l: Ledger, m: Ledger, id: Id, now: nat)
    requires Closes(l, m, {id})
    ensures AddsNoGrant(l, m, now) && SameReceipts(l, m)
  {
    hide Ends, Voids, Blocks, ArtifactsWithin, GrantsWithin, PromptsWithin;
    BlocksFresh(l.artifacts, m.artifacts, ArtifactsWithin(l.artifacts, {id}), now);
  }

  lemma RevokeAdds(l: Ledger, env: Env, peer: Peer, definition: string, subject: string, profile: string)
    requires Inv(l) && Revoke(l, peer, definition, subject, profile).Ok?
    ensures AddsNoGrant(l, Revoke(l, peer, definition, subject, profile).value.db, env.now)
    ensures SameReceipts(l, Revoke(l, peer, definition, subject, profile).value.db)
  {
    hide Inv, Revoke, Blocks, RestsOnRevoked;
    RevokeWithdraws(l, peer, definition, subject, profile);
    var m := Revoke(l, peer, definition, subject, profile).value.db;
    BlocksFresh(l.artifacts, m.artifacts, RestingOn(l.artifacts, GrantsFor(l.grants, definition, subject, profile)),
                env.now);
  }

  lemma AcknowledgeAdds(l: Ledger, env: Env, peer: Peer, artifact: Id, success: bool, reconcile: bool, subject: string,
                        profile: string)
    requires Acknowledge(l, peer, artifact, success, reconcile, subject, profile).Ok?
    ensures AddsNoGrant(l, Acknowledge(l, peer, artifact, success, reconcile, subject, profile).value.db, env.now)
    ensures SameReceipts(l, Acknowledge(l, peer, artifact, success, reconcile, subject, profile).value.db)
  {
    hide Acknowledge, Finishes, MayReport;
    AcknowledgeReports(l, peer, artifact, success, reconcile, subject, profile);
  }

  lemma ShowAdds(l: Ledger, env: Env, peer: Peer, ref: RequestRef, u: Screening)
    requires ShowPrompt(l, env, peer, ref, u).Ok?
    ensures AddsNoGrant(l, ShowPrompt(l, env, peer, ref, u).value.db, env.now)
    ensures SameReceipts(l, ShowPrompt(l, env, peer, ref, u).value.db)
  {
    hide ShowPrompt, CanShow, OnScreen, Wraps, Presents, Offered;
    ShowDisplays(l, env, peer, ref, u);
    SameAdds(l, ShowPrompt(l, env, peer, ref, u).value.db, env.now);
  }

  lemma ReadAdds(l: Ledger, env: Env, peer: Peer, ref: RequestRef, cancel: bool)
    requires ReadResult(l, env, peer, ref, cancel).Ok?
    ensures AddsNoGrant(l, ReadResult(l, env, peer, ref, cancel).value.db, env.now)
    ensures SameReceipts(l, ReadResult(l, env, peer, ref, cancel).value.db)
  {
    hide ReadResult, CanRead, OwnRequest, Reads, AddsNoGrant, SameReceipts;
    ReadReads(l, env, peer, ref, cancel);
    var c := ReadResult(l, env, peer, ref, cancel).value;
    var id: Id :| OwnRequest(l, peer, ref, id) && Reads(l, c, id, cancel, env.now);
    ReadsAdds(l, c, id, cancel, env.now);
  }

  lemma ReadsAdds(l: Ledger, c: Change, id: Id, cancel: bool, now: nat)
    requires Reads(l, c, id, cancel, now)
    ensures AddsNoGrant(l, c.db, now) && SameReceipts(l, c.db)
  {
    hide StillCovered, AddsNoGrant;
    if c.db != l { assert c.db == l.(requests := c.db.requests, revision := c.db.revision); }
    SameAdds(l, c.db, now);
  }

  lemma OpenAdds(l: Ledger, env: Env, peer: Peer, subject: string, profile: string, m: Limits)
    requires SessionOpen(l, env, peer, subject, profile, m).Ok?
    ensures AddsNoGrant(l, SessionOpen(l, env, peer, subject, profile, m).value.db, env.now)
    ensures SameReceipts(l, SessionOpen(l, env, peer, subject, profile, m).value.db)
  {
    hide SessionOpen, Permits;
    OpenOpens(l, env, peer, subject, profile, m);
  }

  lemma AnswerAdds(l: Ledger, env: Env, peer: Peer, ref: RequestRef, u: Screening)
    requires Inv(l) && Respond(l, env, peer, ref, u).Ok?
    ensures Respond(l, env, peer, ref, u).value.db.artifacts == l.artifacts
    ensures SameReceipts(l, Respond(l, env, peer, ref, u).value.db)
  {
    hide Inv, Respond, Taken, Consents, Concludes;
    RespondAnswers(l, env, peer, ref, u);
  }

  /** Only an answer adds grants, and whatever a call makes resident ends in the future. */
  lemma DispatchAdds(l: Ledger, env: Env, peer: Peer, call: Call)
    requires Inv(l) && Dispatch(l, env, peer, call).Ok?
    ensures var m := Dispatch(l, env, peer, call).value.db;
            && FreshArtifacts(l.artifacts, m.artifacts, env.now) && (!call.Decide? ==> m.grants.Keys <= l.grants.Keys)
            && (if call.Ask? && call.purpose.Authorize? then Dates(l, m, peer, call.payload, env.now)
                else SameReceipts(l, m))
  {
    hide Inv, Evaluate, ShowPrompt, Respond, ReadResult, SessionOpen, SessionAct, Revoke, Register, Derive, Acknowledge;
    hide HolderContext, Provenance, Context;
    SameAdds(l, l, env.now);
    match call
    case Ask(p, purpose) => AskAdds(l, env, peer, p, purpose);
    case Show(ref, u) => ShowAdds(l, env, peer, ref, u);
    case Decide(ref, u) => AnswerAdds(l, env, peer, ref, u);
    case Read(ref, cancel) => ReadAdds(l, env, peer, ref, cancel);
    case Begin(subject, profile, m) => OpenAdds(l, env, peer, subject, profile, m);
    case Watch(_, _, _) =>
    case Act(subject, profile, id, generation, verb) => ActAdds(l, env, peer, subject, profile, id, generation, verb);
    case Withhold(d, subject, profile) => RevokeAdds(l, env, peer, d, subject, profile);
    case Hold(u, receipt, i) => RegisterAdds(l, env, peer, u, receipt, i);
    case Extend(u, parents) => DeriveAdds(l, env, peer, u, parents);
    case Reuse(_, _) =>
    case Release(artifact, success, reconcile, subject, profile) =>
      AcknowledgeAdds(l, env, peer, artifact, success, reconcile, subject, profile);
  }

  // ----- steps -----

  ghost predicate AllFresh(artifacts: map<Id, Artifact>, now: nat) {
    forall a :: a in artifacts && artifacts[a].state == Active ==> now < artifacts[a].expires
  }

  lemma SealIs(l: Ledger, c: Change, book: R.Book, env: Env, peer: Peer, call: Call)
    ensures var m := Seal(l, c, book, env, peer, call).db;
            && (m.artifacts == l.artifacts || m.artifacts == c.db.artifacts)
            && (m.grants.Keys == l.grants.Keys || m.grants.Keys == c.db.grants.Keys)
  {
    hide Publish, FinalizeSet;
  }

  lemma SweptIsFresh(l: Ledger, now: nat)
    requires Inv(l)
    ensures AllFresh(Expire(l, now).artifacts, now)
  {
    hide Inv, Expire, RequestInTime, SessionInTime;
    SweepLeavesInTime(l, now);
    assert forall a :: a in Expire(l, now).artifacts ==> ArtifactInTime(Expire(l, now).artifacts[a], now);
  }

  /** After a call no resident artifact is past its end, and only an answer has added grants. */
  lemma TransactAdds(l: Ledger, book: R.Book, env: Env, peer: Peer, call: Call)
    requires Inv(l)
    ensures var m := Transact(l, book, env, peer, call).db;
            AllFresh(m.artifacts, env.now) && (!call.Decide? ==> m.grants.Keys <= l.grants.Keys)
  {
    hide Inv, Core, Expire, Dispatch, Seal, InTime;
    var swept := Expire(l, env.now);
    SweptKeeps(l, env.now);
    SweptIsFresh(l, env.now);
    ExpireAdds(l, env.now);
    var c := Dispatch(swept, env, peer, call);
    if c.Ok? {
      DispatchAdds(swept, env, peer, call);
      SealIs(swept, c.value, book, env, peer, call);
    }
  }

  ghost predicate Answering(e: Stamped) {
    e.event.Invoke? && e.event.call.Decide?
  }

  lemma {:induction false} ClearAllAdds(l: Ledger, records: seq<Record>)
    ensures ClearAll(l, records).grants.Keys <= l.grants.Keys && ClearAll(l, records).artifacts == l.artifacts
  {
    hide Clear;
    if records != [] {
      ClearAllAdds(l, records[..|records| - 1]);
      ClearAdds(ClearAll(l, records[..|records| - 1]), records[|records| - 1]);
    }
  }

  lemma ClearAdds(l: Ledger, x: Record)
    ensures Clear(l, x).grants.Keys <= l.grants.Keys && Clear(l, x).artifacts == l.artifacts
  {
    hide Clearable, Hollow, Blank, Unproved;
  }

  lemma EnsureAdds(s: Repo, env: Env)
    ensures Ensure(s, env).db.grants.Keys <= s.db.grants.Keys
  {
    hide Replay, Outdated, Writes, Blocks, Voids, Invalidates;
    if s.fenced { ReplayReplays(s.db, s.book, env.installed); }
  }

  /** Only an answer adds grants. */
  lemma StepAdds(s: Repo, e: Stamped)
    requires Steady(s) && !Answering(e)
    ensures Step(s, e).0.db.grants.Keys <= s.db.grants.Keys
  {
    hide Inv, Sound, Projects, Replay, ResetRuntime, Expire, FenceProfiles, ClearAll, Transact, Ensure, R.Enact;
    hide Replayed, Fenced, Restarted, SweptTables;
    if e.event.Restart? {
      ReplayAdds(s.db, s.book, e.env.installed);
      ReplayKeeps(s.db, s.book, e.env.installed);
      ResetAdds(Replay(s.db, s.book, e.env.installed));
    } else if !s.halted {
      EnsureAdds(s, e.env);
      EnsureKeeps(s, e.env);
      var t := Ensure(s, e.env);
      match e.event
      case Invoke(peer, call) => TransactAdds(t.db, t.book, e.env, peer, call);
      case Enroll(step, crash) => EnsureAdds(t.(book := R.Enact(t.book, step), fenced := true), e.env);
      case Tick(records) =>
        var m := Replay(t.db, t.book, e.env.installed);
        ReplayAdds(t.db, t.book, e.env.installed);
        ReplayKeeps(t.db, t.book, e.env.installed);
        ExpireAdds(m, e.env.now);
        ClearAllAdds(Expire(m, e.env.now), records);
      case Maintain(records) => ClearAllAdds(t.db, records);
      case Fence(bindings, all, user) => FenceAdds(t.db, bindings, all, user);
    }
  }

  lemma ReplayAdds(l: Ledger, book: R.Book, installed: (string, string, string) -> bool)
    ensures Replay(l, book, installed).grants.Keys <= l.grants.Keys
  {
    hide Replay, Outdated, Writes, Blocks, Voids, Invalidates;
    ReplayReplays(l, book, installed);
  }

  lemma ResetAdds(l: Ledger)
    requires Inv(l)
    ensures ResetRuntime(l).grants.Keys <= l.grants.Keys
  {
    hide Inv, ResetRuntime, Ends, Blocks, Voids, Invalidates;
    ResetRestarts(l);
  }

  lemma ExpireAdds(l: Ledger, now: nat)
    requires Inv(l)
    ensures Expire(l, now).grants.Keys <= l.grants.Keys
  {
    hide Inv, Expire, SweptSession, SweptArtifact, SweptRequest;
    ExpireSweeps(l, now);
  }

  lemma FenceAdds(l: Ledger, bindings: seq<Binding>, all: bool, user: string)
    requires Inv(l)
    ensures FenceProfiles(l, bindings, all, user).grants.Keys <= l.grants.Keys
  {
    hide Inv, FenceProfiles, Ends, Blocks, Voids, Invalidates;
    FenceFences(l, bindings, all, user);
  }

  /** The step is a call, or a tick, of a repository that is not halted. */
  ghost predicate Attended(s: Repo, e: Stamped) {
    !s.halted && (e.event.Invoke? || e.event.Tick?)
  }

  lemma StepIsFresh(s: Repo, e: Stamped)
    requires Steady(s) && Attended(s, e)
    ensures AllFresh(Step(s, e).0.db.artifacts, e.env.now)
  {
    hide Inv, Sound, Projects, Replay, Expire, ClearAll, Transact, Ensure;
    EnsureKeeps(s, e.env);
    var t := Ensure(s, e.env);
    match e.event
    case Invoke(peer, call) => TransactAdds(t.db, t.book, e.env, peer, call);
    case Tick(records) =>
      var m := Replay(t.db, t.book, e.env.installed);
      ReplayKeeps(t.db, t.book, e.env.installed);
      SweptIsFresh(m, e.env.now);
      ClearAllAdds(Expire(m, e.env.now), records);
  }

  // ----- runs -----

  /** Whenever the daemon is called or ticks, nothing resident, at any distance from its original, is kept as
      long as one retention period after the receipt was created. */
  lemma NothingOutlivesItsRetention(run: seq<Stamped>, path: seq<Id>, r: Id)
    requires run != [] && Attended(After(FRESH, run[..|run| - 1]), run[|run| - 1])
    requires var artifacts := At(run, |run|).artifacts;
             && Chain(artifacts, path) && artifacts[path[0]].state == Active
             && path[|path| - 1] in artifacts && artifacts[path[|path| - 1]].receipt == Some(r)
    ensures var l := At(run, |run|);
            && r in l.receipts
            && exists k, retention :: Grants(run, k, r, retention)
                 && run[|run| - 1].env.now < l.receipts[r].created + retention
  {
    hide After, Step, Steady, Attended, Grants, AllFresh, Chain;
    var n := |run| - 1;
    AtSteady(run, n);
    AtStep(run, n);
    StepIsFresh(After(FRESH, run[..n]), run[n]);
    RetentionIsBounded(run, path, r);
    ChainStarts(At(run, |run|).artifacts, path);
    FreshAt(At(run, |run|).artifacts, path[0], run[n].env.now);
    var k, retention :| Grants(run, k, r, retention)
                        && At(run, |run|).artifacts[path[0]].expires <= At(run, |run|).receipts[r].created + retention;
    assert Grants(run, k, r, retention) && run[n].env.now < At(run, |run|).receipts[r].created + retention;
  }

  lemma ChainStarts(artifacts: map<Id, Artifact>, path: seq<Id>)
    requires Chain(artifacts, path)
    ensures path != [] && path[0] in artifacts
  {
  }

  lemma FreshAt(artifacts: map<Id, Artifact>, a: Id, now: nat)
    requires AllFresh(artifacts, now) && a in artifacts && artifacts[a].state == Active
    ensures now < artifacts[a].expires
  {
  }

  /** No grant for the definition, subject and profile is in force. */
  ghost predicate NoneFor(l: Ledger, definition: string, subject: string, profile: string) {
    forall g :: g in GrantsFor(l.grants, definition, subject, profile) ==> l.grants[g].revoked
  }

  lemma NoneForAllowsNone(l: Ledger, env: Env, peer: Peer, q: Question, enforce: bool, i: nat)
    requires i < |q.payload.requirements|
    requires NoneFor(l, q.payload.requirements[i].definition, q.payload.subject, q.payload.profile)
    requires CheckConditions(l, env, peer, q, enforce).Ok?
    ensures !CheckConditions(l, env, peer, q, enforce).value.decision.ALLOWED?
  {
    hide CheckConditions, Supplied;
    VerdictSound(l, env, peer, q, enforce);
    NoneForLacks(l, q, env.now, i);
  }

  lemma NoneForLacks(l: Ledger, q: Question, now: nat, i: nat)
    requires i < |q.payload.requirements|
    requires NoneFor(l, q.payload.requirements[i].definition, q.payload.subject, q.payload.profile)
    ensures !Supplied(l, q, now, i)
  {
    forall g ensures !Supplies(l, q, now, i, g) {
      if g in l.grants && !l.grants[g].revoked {
        assert g !in GrantsFor(l.grants, q.payload.requirements[i].definition, q.payload.subject, q.payload.profile);
      }
    }
  }

  /** Every grant of `m` for the definition, subject and profile is one of `l`. */
  ghost predicate AddsNoneFor(l: Ledger, m: Ledger, definition: string, subject: string, profile: string) {
    GrantsFor(m.grants, definition, subject, profile) <= l.grants.Keys
  }

  /** The payload asks for the consent of that subject in that profile. */
  ghost predicate Wants(p: Payload, definition: string, subject: string, profile: string) {
    && p.subject == subject && p.profile == profile
    && exists i :: 0 <= i < |p.requirements| && p.requirements[i].definition == definition
  }

  /** The step is a consent to a request that asks for it. */
  ghost predicate Consenting(l: Ledger, e: Stamped, definition: string, subject: string, profile: string) {
    && Answering(e) && e.event.call.screen.allow
    && exists id: Id :: Refers(l, e.event.peer, e.event.call.ref, id)
                        && Wants(l.requests[id].payload, definition, subject, profile)
  }

  lemma AnswerGivesWhatIsWanted(l: Ledger, env: Env, peer: Peer, ref: RequestRef, u: Screening, definition: string,
                                subject: string, profile: string)
    requires Inv(l) && Respond(l, env, peer, ref, u).Ok?
    requires !Consenting(l, Stamped(env, Invoke(peer, Decide(ref, u))), definition, subject, profile)
    ensures AddsNoneFor(l, Respond(l, env, peer, ref, u).value.db, definition, subject, profile)
  {
    hide Inv, Respond, Prompts, Answers.Matches, CanDecide, CanGive, Refers, AnswersTo;
    RespondAnswers(l, env, peer, ref, u);
    var c := Respond(l, env, peer, ref, u).value;
    AnswerGives(l, c, c.request.value, u, env.now, definition, subject, profile);
  }

  lemma AnswerGives(l: Ledger, c: Change, id: Id, u: Screening, now: nat, definition: string, subject: string,
                    profile: string)
    requires AnswersTo(l, c, id, u, now)
    requires u.allow ==> !Wants(l.requests[id].payload, definition, subject, profile)
    ensures AddsNoneFor(l, c.db, definition, subject, profile)
  {
    hide Concludes, Wants, Rows, Defined, Consents;
    var q := l.requests[id];
    ConsentGives(l, c.db.grants, c.issued, q, u, Period(q, u), now, definition, subject, profile);
  }

  lemma ConsentGives(l: Ledger, grants: map<Id, Grant>, issued: set<Id>, q: RequestRow, u: Screening, mode: Mode,
                     now: nat, definition: string, subject: string, profile: string)
    requires |q.payload.requirements| == |q.rows| && Consents(l, grants, issued, q, u, mode, now)
    requires u.allow ==> !Wants(q.payload, definition, subject, profile)
    ensures GrantsFor(grants, definition, subject, profile) <= l.grants.Keys
  {
    hide Lacking;
    if u.allow {
      var rows := Rows(l, q, mode, now, |q.rows|);
      var at :| Gives(l, grants, q, mode, now, u.duration, rows, at) && issued == at.Values;
      forall i | i in at ensures at[i] !in GrantsFor(grants, definition, subject, profile) {
        GivenIsWanted(l, grants[at[i]], q, mode, now, u.duration, i, definition, subject, profile);
      }
    }
  }

  lemma GivenIsWanted(l: Ledger, g: Grant, q: RequestRow, mode: Mode, now: nat, duration: nat, i: nat,
                      definition: string, subject: string, profile: string)
    requires i < |q.payload.requirements| && IsGiven(l, g, q, mode, now, duration, i)
    requires !Wants(q.payload, definition, subject, profile)
    ensures g.key.definition != definition || g.key.subject != subject || g.key.profile != profile
  {
    hide Defined;
  }

  /** The same requests, under the same names. */
  ghost predicate SameAsked(l: Ledger, m: Ledger) {
    && m.clients == l.clients && m.requests.Keys == l.requests.Keys
    && forall q :: q in l.requests ==> m.requests[q].payload == l.requests[q].payload
  }

  lemma StillConsenting(l: Ledger, m: Ledger, e: Stamped, definition: string, subject: string, profile: string)
    requires SameAsked(l, m) && Consenting(m, e, definition, subject, profile)
    ensures Consenting(l, e, definition, subject, profile)
  {
    hide Wants;
    var peer, ref := e.event.peer, e.event.call.ref;
    var id: Id :| Refers(m, peer, ref, id) && Wants(m.requests[id].payload, definition, subject, profile);
    assert Refers(l, peer, ref, id);
  }

  lemma SweptAsksTheSame(l: Ledger, now: nat)
    requires Inv(l)
    ensures SameAsked(l, Expire(l, now)) && Expire(l, now).grants.Keys <= l.grants.Keys
  {
    hide Inv, Core, Expire, SweptSession, SweptArtifact;
    ExpireSweeps(l, now);
  }

  lemma EnsuredAsksTheSame(s: Repo, env: Env)
    ensures SameAsked(s.db, Ensure(s, env).db) && Ensure(s, env).db.grants.Keys <= s.db.grants.Keys
  {
    hide Replay, Outdated, Writes, Blocks, Invalidates;
    if s.fenced { ReplayReplays(s.db, s.book, env.installed); }
  }

  lemma SealFor(l: Ledger, c: Change, book: R.Book, env: Env, peer: Peer, call: Call, definition: string,
                subject: string, profile: string)
    requires AddsNoneFor(l, c.db, definition, subject, profile)
    ensures AddsNoneFor(l, Seal(l, c, book, env, peer, call).db, definition, subject, profile)
  {
    hide Publish, FinalizeSet;
    var m := Seal(l, c, book, env, peer, call).db;
    forall g | g in GrantsFor(m.grants, definition, subject, profile) ensures g in l.grants {
      assert g in l.grants || g in GrantsFor(c.db.grants, definition, subject, profile);
    }
  }

  lemma TransactGives(l: Ledger, book: R.Book, env: Env, peer: Peer, ref: RequestRef, u: Screening,
                      definition: string, subject: string, profile: string)
    requires Inv(l) && !Consenting(l, Stamped(env, Invoke(peer, Decide(ref, u))), definition, subject, profile)
    ensures AddsNoneFor(l, Transact(l, book, env, peer, Decide(ref, u)).db, definition, subject, profile)
  {
    hide Inv, Core, Expire, Respond, Seal, SameAsked, Consenting;
    var swept := Expire(l, env.now);
    SweptKeeps(l, env.now);
    SweptAsksTheSame(l, env.now);
    if Consenting(swept, Stamped(env, Invoke(peer, Decide(ref, u))), definition, subject, profile) {
      StillConsenting(l, swept, Stamped(env, Invoke(peer, Decide(ref, u))), definition, subject, profile);
    }
    var c := Respond(swept, env, peer, ref, u);
    if c.Ok? {
      AnswerGivesWhatIsWanted(swept, env, peer, ref, u, definition, subject, profile);
      SealFor(swept, c.value, book, env, peer, Decide(ref, u), definition, subject, profile);
    }
  }

  /** Only a consent to a request that asks for it adds a grant. */
  lemma StepGives(s: Repo, e: Stamped, definition: string, subject: string, profile: string)
    requires Steady(s) && !Consenting(s.db, e, definition, subject, profile)
    ensures AddsNoneFor(s.db, Step(s, e).0.db, definition, subject, profile)
  {
    hide Inv, Sound, Projects, Step, Consenting, SameAsked;
    if !Answering(e) {
      StepAdds(s, e);
    } else if s.halted {
      HaltedGives(s, e, definition, subject, profile);
    } else {
      EnsureKeeps(s, e.env);
      EnsuredAsksTheSame(s, e.env);
      var t := Ensure(s, e.env);
      if Consenting(t.db, e, definition, subject, profile) {
        StillConsenting(s.db, t.db, e, definition, subject, profile);
      }
      AnswerStepGives(s, e, definition, subject, profile);
    }
  }

  lemma HaltedGives(s: Repo, e: Stamped, definition: string, subject: string, profile: string)
    requires s.halted && e.event.Invoke?
    ensures AddsNoneFor(s.db, Step(s, e).0.db, definition, subject, profile)
  {
  }

  lemma AnswerStepGives(s: Repo, e: Stamped, definition: string, subject: string, profile: string)
    requires Answering(e) && Inv(Ensure(s, e.env).db) && Ensure(s, e.env).db.grants.Keys <= s.db.grants.Keys
    requires !Consenting(Ensure(s, e.env).db, e, definition, subject, profile)
    ensures AddsNoneFor(s.db, Step(s, e).0.db, definition, subject, profile)
  {
    hide Inv, Ensure, Transact, Consenting;
    var t := Ensure(s, e.env);
    assert e == Stamped(e.env, Invoke(e.event.peer, Decide(e.event.call.ref, e.event.call.screen)));
    TransactGives(t.db, t.book, e.env, e.event.peer, e.event.call.ref, e.event.call.screen, definition, subject,
                  profile);
  }

  lemma NoneForLater(l: Ledger, m: Ledger, definition: string, subject: string, profile: string)
    requires NoneFor(l, definition, subject, profile) && AddsNoneFor(l, m, definition, subject, profile) && Inv(l)
    requires P.Forward(l, m)
    ensures NoneFor(m, definition, subject, profile)
  {
    hide Inv, P.SessionsForward, P.ArtifactsForward, P.ReceiptsForward;
    GrantsNamed(l);
    forall g | g in GrantsFor(m.grants, definition, subject, profile) ensures m.grants[g].revoked {
      assert g in l.grants && P.GrantOn(l.grants[g], m.grants[g]);
      assert g in GrantsFor(l.grants, definition, subject, profile);
    }
  }

  /** Once consent is withdrawn for a definition, subject and profile, no grant for them is in force until someone
      consents to a request that asks for it. */
  lemma {:induction false} WithdrawnUntilAnswered(run: seq<Stamped>, i: nat, j: nat, peer: Peer, definition: string,
                                                  subject: string, profile: string)
    requires i < j <= |run| && run[i].event == Invoke(peer, Withhold(definition, subject, profile))
    requires Step(After(FRESH, run[..i]), run[i]).1.Ok?
    requires forall k :: i < k < j ==> !Consenting(At(run, k), run[k], definition, subject, profile)
    ensures NoneFor(At(run, j), definition, subject, profile)
    decreases j
  {
    hide After, Step, Steady, NoneFor, AddsNoneFor, Consenting, P.Forward;
    AtSteady(run, j - 1);
    AtStep(run, j - 1);
    var s := After(FRESH, run[..j - 1]);
    if j == i + 1 {
      WithheldAtOnce(s, run[i].env, peer, definition, subject, profile);
    } else {
      WithdrawnUntilAnswered(run, i, j - 1, peer, definition, subject, profile);
      StepGives(s, run[j - 1], definition, subject, profile);
      P.StepOn(s, run[j - 1]);
      NoneForLater(At(run, j - 1), At(run, j), definition, subject, profile);
    }
  }

  lemma WithheldAtOnce(s: Repo, env: Env, peer: Peer, definition: string, subject: string, profile: string)
    requires Steady(s) && Step(s, Stamped(env, Invoke(peer, Withhold(definition, subject, profile)))).1.Ok?
    ensures NoneFor(Step(s, Stamped(env, Invoke(peer, Withhold(definition, subject, profile)))).0.db, definition,
                    subject, profile)
  {
    hide Inv, Core, Sound, Projects, Ensure, Expire, Revoke, Publish, NoneFor;
    EnsureKeeps(s, env);
    var t := Ensure(s, env);
    SweptKeeps(t.db, env.now);
    var swept := Expire(t.db, env.now);
    RevokedAtOnce(swept, peer, definition, subject, profile);
  }

  lemma RevokedAtOnce(l: Ledger, peer: Peer, definition: string, subject: string, profile: string)
    requires Inv(l)
    ensures var r := Revoke(l, peer, definition, subject, profile);
            r.Ok? ==> !r.value.guarded && NoneFor(r.value.db, definition, subject, profile)
  {
    hide Inv, Blocks, RestsOnRevoked;
    RevokeWithdraws(l, peer, definition, subject, profile);
    RevokeIsPlain(l, peer, definition, subject, profile);
    hide Revoke;
  }

  lemma RevokeIsPlain(l: Ledger, peer: Peer, definition: string, subject: string, profile: string)
    ensures var r := Revoke(l, peer, definition, subject, profile); r.Ok? ==> !r.value.guarded
  {
    hide RevokeSet, InvalidateSet, BlockSet, ReceiptsOn, ArtifactsOn, Revoked, Context;
  }

  /** After a withdrawal no conditions that need the consent are allowed until someone consents to a
      request that asks for it. */
  lemma NothingAllowedUntilAnswered(run: seq<Stamped>, i: nat, j: nat, admin: Peer, env: Env, peer: Peer, q: Question,
                                    enforce: bool, n: nat)
    requires i < j <= |run| && n < |q.payload.requirements|
    requires run[i].event ==
               Invoke(admin, Withhold(q.payload.requirements[n].definition, q.payload.subject, q.payload.profile))
    requires Step(After(FRESH, run[..i]), run[i]).1.Ok?
    requires forall k :: i < k < j ==>
               !Consenting(At(run, k), run[k], q.payload.requirements[n].definition, q.payload.subject,
                           q.payload.profile)
    requires CheckConditions(At(run, j), env, peer, q, enforce).Ok?
    ensures !CheckConditions(At(run, j), env, peer, q, enforce).value.decision.ALLOWED?
  {
    hide After, Step, CheckConditions, NoneFor, Consenting;
    WithdrawnUntilAnswered(run, i, j, admin, q.payload.requirements[n].definition, q.payload.subject,
                           q.payload.profile);
    NoneForAllowsNone(At(run, j), env, peer, q, enforce, n);
  }

  // ----- receipts are dated -----

  ghost predicate Executing(e: Stamped) {
    e.event.Invoke? && e.event.call.Ask? && e.event.call.purpose.Authorize?
  }

  ghost predicate DatesStep(l: Ledger, m: Ledger, e: Stamped) {
    if Executing(e) then Dates(l, m, e.event.peer, e.event.call.payload, e.env.now) else SameReceipts(l, m)
  }

  lemma SealDates(l: Ledger, c: Change, book: R.Book, env: Env, peer: Peer, call: Call)
    ensures var m := Seal(l, c, book, env, peer, call).db; m.receipts == l.receipts || m.receipts == c.db.receipts
  {
    hide Publish, FinalizeSet, RevokeSet;
  }

  lemma SweptReceipts(l: Ledger, now: nat)
    requires Inv(l)
    ensures Expire(l, now).receipts == l.receipts
  {
    hide Inv, Core, Expire, SweptSession, SweptArtifact, SweptRequest, Revokes;
    ExpireSweeps(l, now);
  }

  lemma TransactDates(l: Ledger, book: R.Book, env: Env, peer: Peer, call: Call)
    requires Inv(l)
    ensures DatesStep(l, Transact(l, book, env, peer, call).db, Stamped(env, Invoke(peer, call)))
  {
    hide Inv, Core, Expire, Dispatch, Seal, FreshArtifacts;
    var swept := Expire(l, env.now);
    SweptKeeps(l, env.now);
    SweptReceipts(l, env.now);
    var c := Dispatch(swept, env, peer, call);
    if c.Ok? {
      DispatchAdds(swept, env, peer, call);
      SealDates(swept, c.value, book, env, peer, call);
    }
  }

  lemma StepDates(s: Repo, e: Stamped)
    requires Steady(s)
    ensures DatesStep(s.db, Step(s, e).0.db, e)
  {
    hide Inv, Sound, Projects, Transact, Ensure, Replay, P.Forward;
    if e.event.Invoke? && !s.halted {
      EnsureKeeps(s, e.env);
      var t := Ensure(s, e.env);
      EnsureSame(s, e.env);
      TransactDates(t.db, t.book, e.env, e.event.peer, e.event.call);
    } else if !e.event.Invoke? {
      P.StepCalm(s, e);
    }
  }

  lemma EnsureSame(s: Repo, env: Env)
    ensures Ensure(s, env).db.receipts.Keys == s.db.receipts.Keys
  {
    hide Replay, Outdated, Writes, Blocks, Voids, Revokes;
    if s.fenced { ReplayReplays(s.db, s.book, env.installed); }
  }

  /** Step `k` authorized the execution of receipt `r`, and at that time it was created. */
  ghost predicate CreatedBy(run: seq<Stamped>, k: nat, r: Receipt) {
    && k < |run| && Executing(run[k]) && r.created == run[k].env.now
    && r.execution == Execution(run[k].event.peer.identity, run[k].event.call.payload.operation,
                                run[k].event.call.payload.step)
    && r.fingerprint == Executed(run[k].event.call.payload)
  }

  /** Every receipt was created by an authorization, at its time, for its enforcer and what it asked for. */
  lemma {:induction false} ReceiptsAreDated(run: seq<Stamped>, j: nat, r: Id)
    requires j <= |run| && r in At(run, j).receipts
    ensures exists k: nat :: k < j && CreatedBy(run, k, At(run, j).receipts[r])
    decreases j
  {
    hide After, Step, Steady, P.Forward, Executing;
    if j == 0 {
      NoReceipts(run);
    } else {
      AtSteady(run, j - 1);
      AtStep(run, j - 1);
      StepDates(After(FRESH, run[..j - 1]), run[j - 1]);
      if r in At(run, j - 1).receipts {
        ReceiptsAreDated(run, j - 1, r);
        Later(run, j - 1, j);
        KeptReceipt(At(run, j - 1), At(run, j), r);
        var k: nat :| k < j - 1 && CreatedBy(run, k, At(run, j - 1).receipts[r]);
        assert CreatedBy(run, k, At(run, j).receipts[r]);
      } else {
        assert CreatedBy(run, j - 1, At(run, j).receipts[r]);
      }
    }
  }

  lemma NoReceipts(run: seq<Stamped>)
    ensures At(run, 0).receipts == map[]
  {
    assert run[..0] == [];
  }
}
