/** The repository as a whole: the ledger beside its registry, and the steps that move both. */
module Daemon {
  import opened Types
  import opened Ledger
  import opened Conditions
  import opened Operations
  import R = Registry

  /** `fenced`: the registry is ahead of the ledger. `halted`: a lost compensation, after
      which nothing is answered until the process restarts. */
  datatype Repo = Repo(db: Ledger, book: R.Book, fenced: bool, halted: bool)

  const FRESH := Repo(EMPTY, R.Book(map[], map[], 0), false, false)

  // ----- Replay -----

  function Projected(c: Config, installed: (string, string, string) -> bool): Config {
    c.(active := c.active && installed(c.package, c.app, c.identity))
  }

  /** The definitions whose projection differs from the table. */
  function Changed(l: Ledger, definitions: map<string, Config>, installed: (string, string,
          string) -> bool): set<string> {
    set d | d in definitions && !(d in l.definitions && l.definitions[d] == Projected(definitions[d], installed))
  }

  function GrantsOfAny(l: Ledger, names: set<string>): set<Id> {
    set g | g in l.grants && l.grants[g].key.definition in names
  }

  predicate MentionsAny(p: Payload, names: set<string>) {
    exists i :: 0 <= i < |p.requirements| && p.requirements[i].definition in names
  }

  function PendingOnAny(l: Ledger, names: set<string>): set<Id> {
    set q | q in l.requests && l.requests[q].state.Pending? && MentionsAny(l.requests[q].payload, names)
  }

  function Reproject(table: map<string, Config>, definitions: map<string, Config>, names: set<string>,
                     installed: (string, string, string) -> bool): map<string, Config>
    requires names <= definitions.Keys
  {
    map d | d in table.Keys + names :: if d in names then Projected(definitions[d], installed) else table[d]
  }

  /** The definitions in `names` are invalidated and projected anew. */
  function Redefine(l: Ledger, definitions: map<string, Config>, names: set<string>,
                    installed: (string, string, string) -> bool): Ledger
    requires names <= definitions.Keys
  {
    var ids := GrantsOfAny(l, names);
    l.(definitions := Reproject(l.definitions, definitions, names, installed),
       grants := RevokeSet(l.grants, ids),
       receipts := InvalidateSet(l.receipts, ReceiptsOn(l, ids)),
       artifacts := BlockSet(l.artifacts, ArtifactsOn(l, ids)),
       requests := FinalizeSet(l.requests, PendingOnAny(l, names), Invalidated))
  }

  function Marked(l: Ledger, revision: nat, changed: bool): Ledger {
    var m := l.(applied := revision);
    if changed || l.applied != revision then Bump(m) else m
  }

  function Replay(l: Ledger, book: R.Book, installed: (string, string, string) -> bool): Ledger {
    var names := Changed(l, book.definitions, installed);
    Marked(Redefine(l, book.definitions, names, installed), book.revision, names != {})
  }

  // ----- FenceProfiles and ResetRuntime -----

  predicate BoundTo(bindings: seq<Binding>, subject: string, profile: string) {
    exists i :: 0 <= i < |bindings| && bindings[i].subject == subject && bindings[i].profile == profile
  }

  function Retired(bindings: seq<Binding>, all: bool, user: string): seq<Binding> {
    if bindings == [] then []
    else (if all || (user != "" && bindings[0].user == user) then [bindings[0]] else []) + Retired(bindings[1..], all,
            user)
  }

  function SessionsOf(l: Ledger, bindings: seq<Binding>): set<Id> {
    set s | s in l.sessions && Live(l.sessions[s]) && BoundTo(bindings, l.sessions[s].subject, l.sessions[s].profile)
  }

  function RequestsOf(l: Ledger, bindings: seq<Binding>): set<Id> {
    set q | q in l.requests && (l.requests[q].state.Pending? || l.requests[q].state.Allowed?)
            && BoundTo(bindings, l.requests[q].payload.subject, l.requests[q].payload.profile)
  }

  function GrantsUnder(l: Ledger, bindings: seq<Binding>): set<Id> {
    set g | g in l.grants && BoundTo(bindings, l.grants[g].key.subject, l.grants[g].key.profile)
  }

  function ReceiptsUnder(l: Ledger, bindings: seq<Binding>): set<Id> {
    set r | r in l.receipts && l.receipts[r].valid && l.receipts[r].payload.Some?
            && BoundTo(bindings, l.receipts[r].payload.value.subject, l.receipts[r].payload.value.profile)
  }

  function FenceProfiles(l: Ledger, bindings: seq<Binding>, all: bool, user: string): (r: Ledger)
    ensures SameTable(l, r)
  {
    var m := CloseAll(l, SessionsOf(l, bindings), l.next);
    Bump(FinishCleanup(
      m.(requests := FinalizeSet(m.requests, RequestsOf(m, bindings), Invalidated),
         grants := RevokeSet(m.grants, GrantsUnder(m, Retired(bindings, all, user))),
         receipts := InvalidateSet(m.receipts, ReceiptsUnder(m, bindings)))))
  }

  function Temporary(l: Ledger): set<Id> {
    set g | g in l.grants && !l.grants[g].mode.PERSISTENT?
  }

  function Quiesced(l: Ledger): Ledger {
    l.(requests := FinalizeSet(l.requests, PendingRequests(l), Invalidated),
       sessions := CloseSet(l.sessions, LiveSessions(l)),
       grants := RevokeSet(l.grants, Temporary(l)),
       receipts := InvalidateSet(l.receipts, l.receipts.Keys),
       artifacts := BlockSet(l.artifacts, l.artifacts.Keys))
  }

  function ResetRuntime(l: Ledger): Ledger {
    Bump(FinishCleanup(Quiesced(l)))
  }

  // ----- CompactMetadata -----

  datatype Record = ReceiptRecord(id: Id) | RequestRecord(id: Id) | SessionRecord(id: Id) | GrantRecord(id: Id)

  predicate Referenced(l: Ledger, g: Id) {
    || (exists r :: r in l.receipts && g in l.receipts[r].sources)
    || (exists a :: a in l.artifacts && g in l.artifacts[a].sources)
  }

  predicate Clearable(l: Ledger, x: Record) {
    match x
    case ReceiptRecord(r) =>
      r in l.receipts && !l.receipts[r].valid && (l.receipts[r].payload.Some? || l.receipts[r].sources != {})
    case RequestRecord(q) =>
      q in l.requests && Terminal(l.requests[q])
      && (l.requests[q].token.Some? || l.requests[q].uiOwner != "" || l.requests[q].uiInstance != "")
    case SessionRecord(s) =>
      s in l.sessions && l.sessions[s].state.Closed? && l.sessions[s].proof.Some?
    case GrantRecord(g) =>
      g in l.grants && l.grants[g].revoked && !Referenced(l, g)
  }

  function Hollow(r: Receipt): Receipt { r.(payload := None, sources := {}) }

  function Blank(q: RequestRow): RequestRow { q.(token := None, uiOwner := "", uiInstance := "", locale := "") }

  function Unproved(s: SessionRow): SessionRow { s.(proof := None) }

  /** Clears one record, if it may be cleared. */
  function Clear(l: Ledger, x: Record): Ledger {
    if !Clearable(l, x) then l
    else match x
      case ReceiptRecord(r) => l.(receipts := l.receipts[r := Hollow(l.receipts[r])])
      case RequestRecord(q) => l.(requests := l.requests[q := Blank(l.requests[q])])
      case SessionRecord(s) => l.(sessions := l.sessions[s := Unproved(l.sessions[s])])
      case GrantRecord(g) => l.(grants := l.grants - {g})
  }

  function ClearAll(l: Ledger, records: seq<Record>): Ledger {
    if records == [] then l else Clear(ClearAll(l, records[..|records| - 1]), records[|records| - 1])
  }

  // ----- Execute -----

  function Compensate(l: Ledger, issued: set<Id>, request: Option<Id>): Ledger {
    Bump(l.(grants := RevokeSet(l.grants, issued),
            requests := if request.Some? then FinalizeSet(l.requests, {request.value}, Invalidated) else l.requests))
  }

  datatype Committed = Committed(db: Ledger, halted: bool, status: Option<Status>)

  /** `ProfileCommit`, or a plain commit where the transaction is not guarded. */
  function Commit(before: Ledger, c: Change, f: Fences): Committed {
    if !c.guarded || !f.enabled then Committed(c.db, false, None)
    else if f.before > 0 then Committed(before, false, Some(ESTALE))
    else if f.during == 0 then Committed(c.db, false, None)
    else if f.compensates then Committed(Compensate(c.db, c.issued, c.request), false, Some(ESTALE))
    else Committed(c.db, true, Some(STORAGE))
  }

  /** Replies that are withheld when the profile generation moved. */
  predicate Sensitive(call: Call, reply: Reply) {
    match call
    case Ask(_, _) => true
    case Show(_, _) => true
    case Decide(_, _) => true
    case Begin(_, _, _) => true
    case Act(_, _, _, _, verb) => verb.Resume? || verb.Heartbeat?
    case Hold(_, _, _) => true
    case Extend(_, _) => true
    case Reuse(_, _) => true
    case Read(_, cancel) => !cancel && reply.Outcome? && reply.state.Allowed?
    case _ => false
  }

  function Checked(l: Ledger, call: Call): seq<Requirement> {
    match call
    case Ask(p, _) => p.requirements
    case Show(ref, _) => if ref.ById? && ref.id in l.requests then l.requests[ref.id].payload.requirements else []
    case Decide(ref, _) => if ref.ById? && ref.id in l.requests then l.requests[ref.id].payload.requirements else []
    case Hold(_, r, _) => if r in l.receipts && l.receipts[r].payload.Some?
        then l.receipts[r].payload.value.requirements else []
    case _ => []
  }

  predicate StillInstalled(book: R.Book, env: Env, rows: seq<Requirement>) {
    forall i ::
      0 <= i < |rows| && rows[i].definition in book.definitions && book.definitions[rows[i].definition].active ==>
      var c := book.definitions[rows[i].definition];
      env.published(c.package, c.app, c.identity)
  }

  function Vouched(l: Ledger, env: Env, peer: Peer, call: Call, reply: Reply): Result<()> {
    match call
    case Reuse(u, artifact) => Provenance(l, env, peer, u, artifact)
    case Hold(u, _, _) => if reply.Stored? then Provenance(l, env, peer, u, reply.artifact) else Ok(())
    case Extend(u, _) => if reply.Stored? then Provenance(l, env, peer, u, reply.artifact) else Ok(())
    case _ => Ok(())
  }

  /** The checks between the commit and the reply. */
  function Publish(l: Ledger, book: R.Book, env: Env, peer: Peer, call: Call, reply: Reply): Result<Reply> {
    var _ :- Need(StillInstalled(book, env, Checked(l, call)), ESTALE);
    var _ :- Vouched(l, env, peer, call, reply);
    var _ :- Need(Sensitive(call, reply) && env.fences.enabled ==> env.fences.after == 0, ESTALE);
    Ok(reply)
  }

  datatype Turn = Turn(db: Ledger, halted: bool, result: Result<Reply>)

  /** The end of a transaction: the commit and, if it stands, the checks before the reply. */
  function Seal(l: Ledger, c: Change, book: R.Book, env: Env, peer: Peer, call: Call): Turn {
    var d := Commit(l, c, env.fences);
    Turn(d.db, d.halted,
         if d.status.Some? then Err(d.status.value) else Publish(d.db, book, env, peer, call, c.reply))
  }

  /** One transaction, from the expiry sweep to the reply. */
  function Transact(l: Ledger, book: R.Book, env: Env, peer: Peer, call: Call): Turn {
    var swept := Expire(l, env.now);
    if peer.identity == "" || peer.instance == "" then Turn(swept, false, Err(EACCES))
    else
      var c := Dispatch(swept, env, peer, call);
      if c.Err? then Turn(swept, false, Err(c.status))
      else Seal(swept, c.value, book, env, peer, call)
  }

  function Ensure(s: Repo, env: Env): Repo {
    if s.fenced then s.(db := Replay(s.db, s.book, env.installed), fenced := false) else s
  }

  function Execute(s: Repo, env: Env, peer: Peer, call: Call): (Repo, Result<Reply>) {
    if s.halted then (s, Err(STORAGE))
    else
      var t := Ensure(s, env);
      var turn := Transact(t.db, t.book, env, peer, call);
      (t.(db := turn.db, halted := turn.halted, fenced := turn.halted), turn.result)
  }

  // ----- runs -----

  /** What the process does, each with what the outside world answers meanwhile. `Enroll` with
      `crash` stops between the rename of the registry and the replay of it. */
  datatype Event =
    | Invoke(peer: Peer, call: Call)
    | Enroll(step: R.Step, crash: bool)
    | Tick(records: seq<Record>)
    | Maintain(records: seq<Record>)
    | Fence(bindings: seq<Binding>, all: bool, user: string)
    | Restart

  datatype Stamped = Stamped(env: Env, event: Event)

  function Step(s: Repo, e: Stamped): (Repo, Result<Reply>) {
    match e.event
    case Invoke(peer, call) => Execute(s, e.env, peer, call)
    case Restart =>
      (s.(db := ResetRuntime(Replay(s.db, s.book, e.env.installed)), fenced := false, halted := false), Ok(Done))
    case Enroll(step, crash) =>
      if s.halted then (s, Err(STORAGE)) else
      var t := Ensure(s, e.env);
      var book := R.Enact(t.book, step);
      var u := t.(book := book, fenced := true);
      if book == t.book then (t, Ok(Done))
      else if crash then (u, Err(STORAGE))
      else (Ensure(u, e.env), Ok(Done))
    case Tick(records) =>
      if s.halted then (s, Err(STORAGE)) else
      var t := Ensure(s, e.env);
      (t.(db := ClearAll(Expire(Replay(t.db, t.book, e.env.installed), e.env.now), records)), Ok(Done))
    case Maintain(records) =>
      if s.halted then (s, Err(STORAGE)) else
      var t := Ensure(s, e.env);
      (t.(db := ClearAll(t.db, records)), Ok(Done))
    case Fence(bindings, all, user) =>
      if s.halted then (s, Err(STORAGE)) else
      var t := Ensure(s, e.env);
      (t.(db := FenceProfiles(t.db, bindings, all, user)), Ok(Done))
  }

  /** The state after a run, and its replies. */
  function After(s: Repo, run: seq<Stamped>): Repo {
    hide Step; if run == [] then s else Step(After(s, run[..|run| - 1]), run[|run| - 1]).0
  }

  function Replies(s: Repo, run: seq<Stamped>): seq<Result<Reply>> {
    hide Step; if run == [] then []
    else Replies(s, run[..|run| - 1]) + [Step(After(s, run[..|run| - 1]), run[|run| - 1]).1]
  }
}
