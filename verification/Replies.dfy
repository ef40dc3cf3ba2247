/** What stands between a committed transaction and its reply. */
module Replies {
  import opened Types
  import opened Ledger
  import opened Conditions
  import opened Operations
  import opened Daemon
  import opened Invariants
  import opened Transactions
  import opened Effects
  import opened Withdrawals
  import opened Coverage
  import opened Uses
  import R = Registry

  // ----- watching a session -----

  /** Whoever may act for the subject and profile of a session sees it, with what is left in it. */
  lemma WatchReports(l: Ledger, peer: Peer, subject: string, profile: string, id: Id)
    ensures var r := SessionWatch(l, peer, subject, profile, id);
            && (r.Ok? <==>
                  && Permits(peer, subject, profile) && id in l.sessions
                  && l.sessions[id].subject == subject && l.sessions[id].profile == profile)
            && (r.Ok? ==>
                  && r.value.db == l && !r.value.guarded && r.value.reply.Watched? && r.value.reply.view.id == id
                  && r.value.reply.view.state == l.sessions[id].state
                  && r.value.reply.view.generation == l.sessions[id].generation
                  && r.value.reply.undeleted ==
                     |set a | a in l.artifacts && l.artifacts[a].session == id && l.artifacts[a].state != Deleted|)
  {
    hide Context, Permits;
    ContextPermits(peer, subject, profile);
    assert UndeletedIn(l, id) ==
           set a | a in l.artifacts && l.artifacts[a].session == id && l.artifacts[a].state != Deleted;
  }

  // ----- which replies let the caller go on -----

  /** The reply tells of a decision, a prompt, an open session, or data that may be used. */
  ghost predicate Permissive(reply: Reply) {
    || reply.Decided? || reply.Repeated? || reply.Known? || reply.Shown? || reply.Answered?
    || reply.Stored? || reply.Permitted?
    || (reply.Opened? && reply.view.state == Open)
    || (reply.Outcome? && reply.state == Allowed)
  }

  /** Where a definition is mentioned in what the call asks about. */
  ghost predicate Mentioned(rows: seq<Requirement>, d: string) {
    exists i :: 0 <= i < |rows| && rows[i].definition == d
  }

  /** The call is about the definition: it asks for it, shows or answers a request for it by its name, or keeps
      data under a receipt for it. */
  ghost predicate About(l: Ledger, call: Call, d: string) {
    || (call.Ask? && Mentioned(call.payload.requirements, d))
    || ((call.Show? || call.Decide?) && call.ref.ById? && call.ref.id in l.requests
        && Mentioned(l.requests[call.ref.id].payload.requirements, d))
    || (call.Hold? && call.receipt in l.receipts && l.receipts[call.receipt].payload.Some?
        && Mentioned(l.receipts[call.receipt].payload.value.requirements, d))
  }

  lemma CheckedIs(l: Ledger, call: Call, d: string)
    ensures Mentioned(Checked(l, call), d) <==> About(l, call, d)
  {
  }

  /** The artifact a reply speaks of, and the use it was asked for. */
  ghost predicate Speaks(call: Call, reply: Reply, u: Use, artifact: Id) {
    || (call == Reuse(u, artifact))
    || (call.Hold? && call.use == u && reply.Stored? && reply.artifact == artifact)
    || (call.Extend? && call.use == u && reply.Stored? && reply.artifact == artifact)
  }

  lemma VouchedIs(l: Ledger, env: Env, peer: Peer, call: Call, reply: Reply)
    requires (call.Reuse? || call.Hold? || call.Extend?) ==> InSession(l.sessions, env.now, peer, call.use.payload)
    ensures Daemon.Vouched(l, env, peer, call, reply).Ok? <==>
              forall u, a :: Speaks(call, reply, u, a) ==> Usage(l, env, peer, u, a)
  {
    hide Provenance, Usage, InSession;
    match call
    case Reuse(u, artifact) => Vouches(l, env, peer, call, reply, u, artifact);
    case Hold(u, _, _) => if reply.Stored? { Vouches(l, env, peer, call, reply, u, reply.artifact); }
    case Extend(u, _) => if reply.Stored? { Vouches(l, env, peer, call, reply, u, reply.artifact); }
    case _ =>
  }

  lemma Vouches(l: Ledger, env: Env, peer: Peer, call: Call, reply: Reply, u: Use, artifact: Id)
    requires InSession(l.sessions, env.now, peer, u.payload)
    requires Speaks(call, reply, u, artifact)
    ensures Daemon.Vouched(l, env, peer, call, reply).Ok? <==> Usage(l, env, peer, u, artifact)
  {
    hide Provenance, Usage, InSession;
    UsageIs(l, env, peer, u, artifact);
  }

  lemma InstalledIs(l: Ledger, book: R.Book, env: Env, call: Call)
    ensures StillInstalled(book, env, Checked(l, call)) <==> Published(l, book, env, call)
  {
    hide Checked, About;
    forall d ensures Mentioned(Checked(l, call), d) <==> About(l, call, d) { CheckedIs(l, call, d); }
    var rows := Checked(l, call);
    if !StillInstalled(book, env, rows) {
      var i :| 0 <= i < |rows| && rows[i].definition in book.definitions && book.definitions[rows[i].definition].active
               && var c := book.definitions[rows[i].definition]; !env.published(c.package, c.app, c.identity);
      assert Mentioned(rows, rows[i].definition);
    }
    if !Published(l, book, env, call) {
      var d :| About(l, call, d) && d in book.definitions && book.definitions[d].active
               && var c := book.definitions[d]; !env.published(c.package, c.app, c.identity);
      var i :| 0 <= i < |rows| && rows[i].definition == d;
      assert !StillInstalled(book, env, rows);
    }
  }

  /** Whatever the call is about and the registry keeps active is still installed. */
  ghost predicate Published(l: Ledger, book: R.Book, env: Env, call: Call) {
    forall d :: About(l, call, d) && d in book.definitions && book.definitions[d].active ==>
      env.published(book.definitions[d].package, book.definitions[d].app, book.definitions[d].identity)
  }

  // ----- the kinds of reply -----

  ghost predicate Cancelling(call: Call) { call.Read? && call.cancel }

  /** A reply is withheld across a fence exactly if it lets the caller go on, unless it answers a cancellation;
      and such a reply is guarded. */
  ghost predicate Kind(call: Call, c: Change) {
    && (Sensitive(call, c.reply) <==> Permissive(c.reply) && !Cancelling(call))
    && (Permissive(c.reply) ==> c.guarded)
  }

  ghost predicate Guards(c: Change) { Permissive(c.reply) && c.guarded }

  lemma AskKind(l: Ledger, env: Env, peer: Peer, p: Payload, purpose: Purpose)
    requires Evaluate(l, env, peer, p, purpose).Ok?
    ensures Guards(Evaluate(l, env, peer, p, purpose).value)
  {
    hide Preflight, CheckConditions, ReceiptValid, StoredApproval, Admitted, Authorized, ModesPermit;
  }

  lemma PromptKind(l: Ledger, env: Env, peer: Peer, ref: RequestRef, u: Screening)
    ensures ShowPrompt(l, env, peer, ref, u).Ok? ==> Guards(ShowPrompt(l, env, peer, ref, u).value)
  {
    hide FindRequest, OpenPrompt, Displayed, FinalRow, ShownRow, TypedPrompt, PersistentOffer, Identifier;
  }

  lemma AnswerKind(l: Ledger, env: Env, peer: Peer, ref: RequestRef, u: Screening)
    ensures Respond(l, env, peer, ref, u).Ok? ==> Guards(Respond(l, env, peer, ref, u).value)
  {
    hide FindRequest, OpenPrompt, Presented, AnswerMode, CheckConditions, Issue, Redecided, Refuse, NewGrants;
  }

  ghost predicate Stores(c: Change, l: Ledger) { c.reply.Stored? && c.guarded && c.db.sessions == l.sessions }

  lemma NewKind(l: Ledger, env: Env, peer: Peer, u: Use, receipt: Id, i: nat)
    requires receipt in l.receipts && l.receipts[receipt].payload.Some?
    ensures RegisterNew(l, env, peer, u, receipt, i).Ok? ==> Stores(RegisterNew(l, env, peer, u, receipt, i).value, l)
  {
    hide Definition, Retention, UndeletedIn;
  }

  lemma HoldKind(l: Ledger, env: Env, peer: Peer, u: Use, receipt: Id, i: nat)
    requires Register(l, env, peer, u, receipt, i).Ok?
    ensures Stores(Register(l, env, peer, u, receipt, i).value, l)
    ensures InSession(l.sessions, env.now, peer, u.payload)
  {
    hide HolderContext, ReceiptValid, RegisterNew, InSession;
    HoldingIs(l, env, peer, u);
    if receipt in l.receipts && l.receipts[receipt].payload.Some? { NewKind(l, env, peer, u, receipt, i); }
  }

  lemma ExtendKind(l: Ledger, env: Env, peer: Peer, u: Use, parents: seq<Id>)
    requires Derive(l, env, peer, u, parents).Ok?
    ensures Stores(Derive(l, env, peer, u, parents).value, l)
    ensures InSession(l.sessions, env.now, peer, u.payload)
  {
    hide HolderContext, Inherit, UndeletedIn, InSession;
    HoldingIs(l, env, peer, u);
  }

  lemma ReuseKind(l: Ledger, env: Env, peer: Peer, u: Use, artifact: Id)
    requires CheckData(l, env, peer, u, artifact).Ok?
    ensures CheckData(l, env, peer, u, artifact).value.db == l && Guards(CheckData(l, env, peer, u, artifact).value)
    ensures InSession(l.sessions, env.now, peer, u.payload)
  {
    hide HolderContext, Provenance, InSession;
    HoldingIs(l, env, peer, u);
  }

  lemma DataInSession(l: Ledger, env: Env, peer: Peer, call: Call)
    requires call.Reuse? || call.Hold? || call.Extend?
    requires Dispatch(l, env, peer, call).Ok?
    ensures InSession(Dispatch(l, env, peer, call).value.db.sessions, env.now, peer, call.use.payload)
  {
    hide Register, Derive, CheckData, InSession, Permissive;
    match call
    case Hold(u, receipt, i) => HoldKind(l, env, peer, u, receipt, i);
    case Extend(u, parents) => ExtendKind(l, env, peer, u, parents);
    case Reuse(u, artifact) => ReuseKind(l, env, peer, u, artifact);
  }

  lemma ClosedIsNotOpen(l: Ledger, id: Id)
    ensures id in l.sessions ==> FinishCleanup(CloseSession(l, id)).sessions[id].state != Open
  {
    hide RevokeSet, BlockSet, FinalizeSet, UndeletedIn;
  }

  lemma ActKind(l: Ledger, env: Env, peer: Peer, subject: string, profile: string, id: Id, generation: nat,
                verb: SessionVerb)
    requires SessionAct(l, env, peer, subject, profile, id, generation, verb).Ok?
    ensures var c := SessionAct(l, env, peer, subject, profile, id, generation, verb).value;
            && c.reply.Opened? && (c.guarded <==> verb.Resume? || verb.Heartbeat?)
            && (c.reply.view.state == Open <==> verb.Resume? || verb.Heartbeat?)
  {
    hide Context, FinishCleanup, CloseSession, FinalizeSet;
    ClosedIsNotOpen(l, id);
  }

  lemma DispatchKind(l: Ledger, env: Env, peer: Peer, call: Call)
    requires Dispatch(l, env, peer, call).Ok?
    ensures Kind(call, Dispatch(l, env, peer, call).value)
  {
    hide Evaluate, ShowPrompt, Respond, ReadResult, Register, Derive, CheckData, SessionAct, InSession;
    match call
    case Ask(p, purpose) => AskKind(l, env, peer, p, purpose);
    case Show(ref, u) => PromptKind(l, env, peer, ref, u);
    case Decide(ref, u) => AnswerKind(l, env, peer, ref, u);
    case Read(ref, cancel) => ReadKind(l, env, peer, ref, cancel);
    case Act(subject, profile, id, generation, verb) =>
      ActKind(l, env, peer, subject, profile, id, generation, verb);
    case Hold(u, receipt, i) => HoldKind(l, env, peer, u, receipt, i);
    case Extend(u, parents) => ExtendKind(l, env, peer, u, parents);
    case Reuse(u, artifact) => ReuseKind(l, env, peer, u, artifact);
    case Begin(_, _, _) =>
    case Watch(_, _, _) =>
    case Withhold(_, _, _) =>
    case Release(_, _, _, _, _) =>
  }

  lemma ReadKind(l: Ledger, env: Env, peer: Peer, ref: RequestRef, cancel: bool)
    requires ReadResult(l, env, peer, ref, cancel).Ok?
    ensures var c := ReadResult(l, env, peer, ref, cancel).value;
            c.reply.Outcome? && (c.reply.state == Allowed ==> c.guarded)
  {
    hide FindRequest, StoredApproval;
  }

  // ----- the reply -----

  ghost predicate Uncrossed(c: Change, f: Fences) {
    c.guarded && f.enabled ==> f.before == 0 && f.during == 0
  }

  /** Nothing stands against the reply of a committed transaction. */
  ghost predicate Stands(c: Change, book: R.Book, env: Env, peer: Peer, call: Call) {
    && Published(c.db, book, env, call)
    && (forall u, a :: Speaks(call, c.reply, u, a) ==> Usage(c.db, env, peer, u, a))
    && (Permissive(c.reply) && !Cancelling(call) && env.fences.enabled ==> env.fences.after == 0)
  }

  /** A transaction is answered exactly if no fence crossed its commit, and, on the ledger it left, everything
      it was about is still installed, the data it speaks of may be used, and no fence rose before a reply that
      lets the caller go on. */
  lemma ReplyStands(l: Ledger, book: R.Book, env: Env, peer: Peer, call: Call)
    ensures var t, c := Transact(l, book, env, peer, call), Dispatch(Expire(l, env.now), env, peer, call);
            && (t.result.Ok? <==>
                  && peer.identity != "" && peer.instance != "" && c.Ok?
                  && Uncrossed(c.value, env.fences) && Stands(c.value, book, env, peer, call))
            && (t.result.Ok? ==> t.result.value == c.value.reply && t.db == c.value.db && !t.halted)
  {
    hide Expire, Dispatch, Stands, Publish;
    var c := Dispatch(Expire(l, env.now), env, peer, call);
    if c.Ok? { PublishStands(Expire(l, env.now), c.value, book, env, peer, call); }
  }

  lemma PublishStands(l: Ledger, c: Change, book: R.Book, env: Env, peer: Peer, call: Call)
    requires Dispatch(l, env, peer, call) == Ok(c)
    ensures var r := Publish(c.db, book, env, peer, call, c.reply);
            (r.Ok? <==> Stands(c, book, env, peer, call)) && (r.Ok? ==> r.value == c.reply)
  {
    hide Dispatch, StillInstalled, Published, Daemon.Vouched, Sensitive, Permissive, Usage, Speaks, Checked;
    DispatchKind(l, env, peer, call);
    InstalledIs(c.db, book, env, call);
    if call.Reuse? || call.Hold? || call.Extend? { DataInSession(l, env, peer, call); }
    VouchedIs(c.db, env, peer, call, c.reply);
  }

  /** While profiles are switched under a daemon with profile authority, no reply lets a caller go on. */
  lemma PermissionCrossesNoFence(s: Repo, e: Stamped)
    requires e.event.Invoke? && Step(s, e).1.Ok? && Permissive(Step(s, e).1.value) && e.env.fences.enabled
    ensures e.env.fences.before == e.env.fences.during == 0
    ensures !Cancelling(e.event.call) ==> e.env.fences.after == 0
  {
    hide Transact, Ensure, Expire, Dispatch, Permissive, Published, Usage, Speaks;
    var t := Ensure(s, e.env);
    ReplyStands(t.db, t.book, e.env, e.event.peer, e.event.call);
    DispatchKind(Expire(t.db, e.env.now), e.env, e.event.peer, e.event.call);
  }
}
