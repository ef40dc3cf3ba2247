/** The policy revision: while it stands, the ledger is the same but for what compaction cleared. */
module Revisions {
  import opened Types
  import opened Ledger
  import opened Conditions
  import opened Operations
  import opened Daemon
  import opened Invariants
  import opened Preservation
  import opened Transactions
  import opened Runs
  import opened Progress
  import opened Guarantees
  import opened Compaction
  import R = Registry

  /** Nothing changed, or the revision was raised. */
  ghost predicate Honest(l: Ledger, m: Ledger) {
    m == l || l.revision < m.revision
  }

  lemma EvaluateHonest(l: Ledger, env: Env, peer: Peer, p: Payload, purpose: Purpose)
    requires Evaluate(l, env, peer, p, purpose).Ok?
    ensures Honest(l, Evaluate(l, env, peer, p, purpose).value.db)
  {
    hide Preflight, CheckConditions, ReceiptValid, StoredApproval, ModesPermit, PendingRequests, Revised, Consume;
    hide Elements;
  }

  lemma ReadHonest(l: Ledger, env: Env, peer: Peer, ref: RequestRef, cancel: bool)
    requires ReadResult(l, env, peer, ref, cancel).Ok?
    ensures Honest(l, ReadResult(l, env, peer, ref, cancel).value.db)
  {
    hide FindRequest, StoredApproval, ActiveContext;
  }

  lemma ShowHonest(l: Ledger, env: Env, peer: Peer, ref: RequestRef, u: Screening)
    requires ShowPrompt(l, env, peer, ref, u).Ok?
    ensures Honest(l, ShowPrompt(l, env, peer, ref, u).value.db)
  {
    hide FindRequest, OpenPrompt, TypedPrompt, Identifier, Display;
    var id := FindRequest(l, peer, ref, true).value;
    DisplayRaises(l, peer, id, l.requests[id], u, OpenPrompt(l, env, peer, l.requests[id], u, false).value);
  }

  lemma DisplayRaises(l: Ledger, peer: Peer, id: Id, q: RequestRow, u: Screening, current: Verdict)
    requires |current.rows| == |q.rows|
    ensures l.revision < Display(l, peer, id, q, u, current).db.revision
  {
    hide Displayed, FinalRow, ShownRow, PersistentOffer, Quiet, SameTable, Versioned;
    var row := FinalRow(q, current);
    assert Bump(l.(requests := l.requests[id := row])).revision == l.revision + 1;
    var shown := ShownRow(l, peer, q, u, Displayed(l, q, current));
    assert Bump(l.(requests := l.requests[id := shown], next := l.next + 1)).revision == l.revision + 1;
  }

  lemma SettleHonest(l: Ledger, env: Env, peer: Peer, id: Id, q: RequestRow, u: Screening, mode: Mode, current: Verdict)
    requires |q.payload.requirements| == |q.rows| == |current.rows| && Settle(l, env, peer, id, q, u, mode, current).Ok?
    ensures Honest(l, Settle(l, env, peer, id, q, u, mode, current).value.db)
  {
    hide CheckConditions, Issue, Asked, Redecided, Refuse, NewGrants;
  }

  lemma RespondHonest(l: Ledger, env: Env, peer: Peer, ref: RequestRef, u: Screening)
    requires Respond(l, env, peer, ref, u).Ok?
    ensures Honest(l, Respond(l, env, peer, ref, u).value.db)
  {
    hide FindRequest, OpenPrompt, Presented, AnswerMode, CheckConditions, Settle, Asked, Honest;
    var id := FindRequest(l, peer, ref, true).value;
    var q := l.requests[id];
    var mode := AnswerMode(l, q, u).value;
    var current := if Choices(q) then CheckConditions(l, env, peer, Asked(q, mode), false).value
        else OpenPrompt(l, env, peer, q, u, true).value;
    SettleHonest(l, env, peer, id, q, u, mode, current);
  }

  lemma SessionActHonest(l: Ledger, env: Env, peer: Peer, subject: string, profile: string, id: Id, generation: nat,
                         verb: SessionVerb)
    requires SessionAct(l, env, peer, subject, profile, id, generation, verb).Ok?
    ensures Honest(l, SessionAct(l, env, peer, subject, profile, id, generation, verb).value.db)
  {
    hide Context, ActiveContext, SessionRowOf, Viewed, RevokeSet, BlockSet, CloseSet, FinalizeSet, SessionGrants;
    hide ArtifactsIn, PendingIn, UndeletedIn;
  }

  lemma RegisterHonest(l: Ledger, env: Env, peer: Peer, u: Use, receipt: Id, i: nat)
    requires Register(l, env, peer, u, receipt, i).Ok?
    ensures Honest(l, Register(l, env, peer, u, receipt, i).value.db)
  {
    hide HolderContext, ReceiptValid, UndeletedIn, Definition;
  }

  lemma DispatchHonest(l: Ledger, env: Env, peer: Peer, call: Call)
    requires Dispatch(l, env, peer, call).Ok?
    ensures Honest(l, Dispatch(l, env, peer, call).value.db)
  {
    hide Evaluate, ShowPrompt, Respond, ReadResult, SessionAct, Register, Inherit, HolderContext, Provenance;
    hide Context, ActiveContext, LiveSessions;
    hide FinishCleanup, RevokeSet, InvalidateSet, BlockSet, ReceiptsOn, ArtifactsOn, Revoked, UndeletedIn, Elements;
    match call
    case Ask(p, purpose) => EvaluateHonest(l, env, peer, p, purpose);
    case Show(ref, u) => ShowHonest(l, env, peer, ref, u);
    case Decide(ref, u) => RespondHonest(l, env, peer, ref, u);
    case Read(ref, cancel) => ReadHonest(l, env, peer, ref, cancel);
    case Begin(_, _, _) =>
    case Watch(_, _, _) =>
    case Act(subject, profile, id, generation, verb) =>
      SessionActHonest(l, env, peer, subject, profile, id, generation, verb);
    case Withhold(_, _, _) =>
    case Hold(u, receipt, i) => RegisterHonest(l, env, peer, u, receipt, i);
    case Extend(_, _) =>
    case Reuse(_, _) =>
    case Release(artifact, success, reconcile, subject, profile) =>
      AcknowledgeHonest(l, peer, artifact, success, reconcile, subject, profile);
  }

  lemma AcknowledgeHonest(l: Ledger, peer: Peer, artifact: Id, success: bool, reconcile: bool, subject: string,
                          profile: string)
    requires Acknowledge(l, peer, artifact, success, reconcile, subject, profile).Ok?
    ensures Honest(l, Acknowledge(l, peer, artifact, success, reconcile, subject, profile).value.db)
  {
    hide Context, UndeletedIn;
  }

  // ----- Expire, Replay and the others -----

  lemma {:induction false} CloseNobody(l: Ledger, n: nat)
    ensures CloseAll(l, {}, n) == l
  {
    hide CloseSession;
    if n != 0 { CloseNobody(l, n - 1); }
  }

  lemma {:induction false} SuspendNobody(l: Ledger, now: nat, n: nat)
    ensures SuspendAll(l, {}, now, n) == l
  {
    hide SuspendSession;
    if n != 0 { SuspendNobody(l, now, n - 1); }
  }

  lemma FinishNothing(l: Ledger)
    requires Settled(l.artifacts, l.sessions)
    ensures FinishCleanup(l) == l
  {
    forall s | s in l.sessions && l.sessions[s].state.Closing? ensures UndeletedIn(l, s) != {} {
      assert HasUndeleted(l.artifacts, s);
      var a :| a in l.artifacts && l.artifacts[a].session == s && !l.artifacts[a].state.Deleted?;
      assert a in UndeletedIn(l, s);
    }
    assert FinishCleanup(l).sessions == l.sessions;
  }

  lemma NothingFinalized(l: Ledger)
    ensures FinalizeSet(l.requests, {}, Expired) == l.requests && BlockSet(l.artifacts, {}) == l.artifacts
  {
  }

  lemma SettledOf(l: Ledger)
    requires Inv(l)
    ensures Settled(l.artifacts, l.sessions)
  {
  }

  lemma ExpireHonest(l: Ledger, now: nat)
    requires Inv(l)
    ensures Honest(l, Expire(l, now))
  {
    hide Inv, Forward, CloseAll, SuspendAll, FinishCleanup, FinalizeSet, BlockSet, CloseDue, SuspendDue;
    hide ExpiredRequests, ExpiredArtifacts;
    var late := ExpiredRequests(l, now);
    var l1 := l.(requests := FinalizeSet(l.requests, late, Expired));
    var close, suspend := CloseDue(l1.sessions, now), SuspendDue(l1.sessions, now);
    var m := CloseAll(l1, close, l1.next);
    var l2 := SuspendAll(m, suspend, now, l1.next);
    var gone := ExpiredArtifacts(l2, now);
    var l3 := l2.(artifacts := BlockSet(l2.artifacts, gone));
    if late == {} && close == {} && suspend == {} && gone == {} {
      NothingFinalized(l);
      CloseNobody(l1, l1.next);
      SuspendNobody(m, now, l1.next);
      NothingFinalized(l2);
      SettledOf(l);
      FinishNothing(l3);
    } else {
      CloseAllOn(l1, close, l1.next);
      SuspendAllOn(m, suspend, now, l1.next);
      FinishOn(l3);
      RevisionOn(l1, m);
      RevisionOn(m, l2);
      RevisionOn(l3, FinishCleanup(l3));
    }
  }

  lemma RevisionOn(l: Ledger, m: Ledger)
    requires Forward(l, m)
    ensures l.revision <= m.revision
  {
  }

  lemma ReplayHonest(l: Ledger, book: R.Book, installed: (string, string, string) -> bool)
    ensures Honest(l, Replay(l, book, installed))
  {
    hide RevokeSet, InvalidateSet, BlockSet, FinalizeSet, ReceiptsOn, ArtifactsOn, PendingOnAny, GrantsOfAny, Reproject;
    var names := Changed(l, book.definitions, installed);
    if names == {} { RedefineNothing(l, book.definitions, installed); }
  }

  lemma EnsureHonest(s: Repo, env: Env)
    ensures Honest(s.db, Ensure(s, env).db)
  {
    hide Replay;
    if s.fenced { ReplayHonest(s.db, s.book, env.installed); }
  }

  lemma FenceRaises(l: Ledger, bindings: seq<Binding>, all: bool, user: string)
    ensures l.revision < FenceProfiles(l, bindings, all, user).revision
  {
    hide Forward, CloseAll, RevokeSet, InvalidateSet, FinalizeSet, SessionsOf, RequestsOf, GrantsUnder;
    hide ReceiptsUnder, Retired;
    CloseAllOn(l, SessionsOf(l, bindings), l.next);
    RevisionOn(l, CloseAll(l, SessionsOf(l, bindings), l.next));
  }

  lemma ResetRaises(l: Ledger)
    ensures l.revision < ResetRuntime(l).revision
  {
    hide RevokeSet, InvalidateSet, BlockSet, CloseSet, FinalizeSet;
  }

  lemma TransactHonest(l: Ledger, book: R.Book, env: Env, peer: Peer, call: Call)
    requires Inv(l)
    ensures Honest(l, Transact(l, book, env, peer, call).db)
  {
    hide Inv, Core, SameTable, Quiet, Expire, Dispatch, Publish, RevokeSet, FinalizeSet;
    var swept := Expire(l, env.now);
    ExpireHonest(l, env.now);
    var c := Dispatch(swept, env, peer, call);
    if c.Ok? { DispatchHonest(swept, env, peer, call); }
  }

  lemma {:induction false} ClearAllRevision(l: Ledger, records: seq<Record>)
    ensures ClearAll(l, records).revision == l.revision
  {
    hide Clear;
    if records != [] {
      ClearAllRevision(l, records[..|records| - 1]);
      ClearRevision(ClearAll(l, records[..|records| - 1]), records[|records| - 1]);
    }
  }

  lemma ClearRevision(l: Ledger, x: Record)
    ensures Clear(l, x).revision == l.revision
  {
    hide Clearable, Hollow, Blank, Unproved;
  }

  lemma ClearedAlike(l: Ledger, m: Ledger, records: seq<Record>)
    requires Honest(l, m) && l.revision == ClearAll(m, records).revision
    ensures Like(l, ClearAll(m, records))
  {
    hide Like;
    ClearAllRevision(m, records);
    ClearAllLike(l, records);
  }

  /** A step that leaves the revision leaves the ledger, but for what a compaction clears. */
  lemma StepHonest(s: Repo, e: Stamped)
    requires Steady(s)
    ensures s.db.revision <= Step(s, e).0.db.revision
    ensures s.db.revision == Step(s, e).0.db.revision ==> Like(s.db, Step(s, e).0.db)
  {
    hide Inv, Sound, Projects, Like, Replay, ResetRuntime, Expire, FenceProfiles, ClearAll, Transact, Ensure, R.Enact;
    LikeSame(s.db);
    if e.event.Restart? {
      ReplayHonest(s.db, s.book, e.env.installed);
      ResetRaises(Replay(s.db, s.book, e.env.installed));
    } else if !s.halted {
      EnsureHonest(s, e.env);
      EnsureKeeps(s, e.env);
      var t := Ensure(s, e.env);
      match e.event
      case Invoke(peer, call) => TransactHonest(t.db, t.book, e.env, peer, call);
      case Enroll(step, crash) => EnsureHonest(t.(book := R.Enact(t.book, step), fenced := true), e.env);
      case Tick(records) =>
        var m := Replay(t.db, t.book, e.env.installed);
        ReplayHonest(t.db, t.book, e.env.installed);
        ReplayKeeps(t.db, t.book, e.env.installed);
        ExpireHonest(m, e.env.now);
        ClearAllRevision(Expire(m, e.env.now), records);
        if s.db.revision == ClearAll(Expire(m, e.env.now), records).revision {
          ClearedAlike(s.db, Expire(m, e.env.now), records);
        }
      case Maintain(records) =>
        ClearAllRevision(t.db, records);
        if s.db.revision == ClearAll(t.db, records).revision { ClearedAlike(s.db, t.db, records); }
      case Fence(bindings, all, user) => FenceRaises(t.db, bindings, all, user);
    }
  }

  /** Two moments of a run with the same revision have ledgers that are alike. */
  lemma {:induction false} SameRevisionIsAlike(run: seq<Stamped>, i: nat, j: nat)
    requires i <= j <= |run| && At(run, i).revision == At(run, j).revision
    ensures Like(At(run, i), At(run, j))
  {
    hide After, Step, Steady, Like, Forward;
    if i == j {
      LikeSame(At(run, i));
    } else {
      Later(run, i, j - 1);
      RevisionOn(At(run, i), At(run, j - 1));
      AtSteady(run, j - 1);
      AtStep(run, j - 1);
      StepHonest(After(FRESH, run[..j - 1]), run[j - 1]);
      SameRevisionIsAlike(run, i, j - 1);
      LikeTransitive(At(run, i), At(run, j - 1), At(run, j));
    }
  }
}
