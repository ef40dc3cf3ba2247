/** The transactions of the repository. Each function gives what its transaction is about
    to commit, or the status with which it is rolled back. */
module Operations {
  import opened Types
  import opened Ledger
  import opened Conditions

  datatype SessionView = SessionView(
    id: Id, state: SessionState, generation: nat, policy: Lifecycle,
    idle: nat, absolute: nat, lease: nat, resume: nat)

  /** The fields of a successful reply. */
  datatype Reply =
    | Decided(verdict: Verdict, receipt: Option<Id>, admitted: Option<Id>)
    | Repeated(prior: Id)
    | Known(request: Id, state: RequestState, chosen: Option<Mode>, shownPersistent: Option<bool>)
    | Outcome(request: Id, state: RequestState, payload: Payload, rows: seq<Row>,
              chosen: Option<Mode>, deadline: nat)
    | Shown(request: Id, token: Id, displayed: set<nat>, persistent: bool)
    | Answered(request: Id, state: RequestState, rows: seq<Row>)
    | Opened(view: SessionView, proof: Option<Id>)
    | Watched(view: SessionView, undeleted: nat)
    | Stored(artifact: Id, expires: nat)
    | Acknowledged(success: bool)
    | Permitted
    | Done

  /** A transaction about to commit. `guarded` transactions commit through `ProfileCommit`;
      `issued` and `request` are what it must retire if a fence crosses the commit. */
  datatype Change = Change(db: Ledger, reply: Reply, guarded: bool, issued: set<Id>, request: Option<Id>)

  /** A transaction that issues no grants and answers no request. */
  predicate Quiet(c: Change) { c.issued == {} && c.request.None? }

  function Guarded(db: Ledger, reply: Reply): Change { Change(db, reply, true, {}, None) }

  function Plain(db: Ledger, reply: Reply): Change { Change(db, reply, false, {}, None) }

  /** Nothing but a replay writes the definitions table. */
  predicate SameTable(l: Ledger, m: Ledger) { m.definitions == l.definitions && m.applied == l.applied }

  // ----- Expire -----

  function ExpiredRequests(l: Ledger, now: nat): set<Id> {
    set q | q in l.requests && l.requests[q].state.Pending? && l.requests[q].deadline <= now
  }

  predicate Due(s: SessionRow, now: nat) {
    || (s.state.Open? && (s.idle <= now || s.absolute <= now || s.lease <= now))
    || (s.state.Suspended? && (s.resume <= now || s.absolute <= now || s.idle <= now))
  }

  predicate Suspends(s: SessionRow, now: nat) {
    s.policy.Resumable? && s.state.Open? && s.idle > now && s.absolute > now
  }

  function CloseDue(sessions: map<Id, SessionRow>, now: nat): set<Id> {
    set s | s in sessions && Due(sessions[s], now) && !Suspends(sessions[s], now)
  }

  function SuspendDue(sessions: map<Id, SessionRow>, now: nat): set<Id> {
    set s | s in sessions && Due(sessions[s], now) && Suspends(sessions[s], now)
  }

  /** `CloseSession` for every session of a set, in the order of their names. */
  function CloseAll(l: Ledger, ids: set<Id>, n: nat): (m: Ledger)
    ensures SameTable(l, m)
  {
    if n == 0 then l
    else
      var m := CloseAll(l, ids, n - 1);
      if n - 1 in ids then CloseSession(m, n - 1) else m
  }

  function SuspendAll(l: Ledger, ids: set<Id>, now: nat, n: nat): (m: Ledger)
    ensures SameTable(l, m)
  {
    if n == 0 then l
    else
      var m := SuspendAll(l, ids, now, n - 1);
      if n - 1 in ids then SuspendSession(m, n - 1, now) else m
  }

  function ExpiredArtifacts(l: Ledger, now: nat): set<Id> {
    set a | a in l.artifacts && l.artifacts[a].state.Active? && l.artifacts[a].expires <= now
  }

  function Expire(l: Ledger, now: nat): Ledger {
    var late := ExpiredRequests(l, now);
    var l1 := l.(requests := FinalizeSet(l.requests, late, Expired));
    var close := CloseDue(l1.sessions, now);
    var suspend := SuspendDue(l1.sessions, now);
    var l2 := SuspendAll(CloseAll(l1, close, l1.next), suspend, now, l1.next);
    var gone := ExpiredArtifacts(l2, now);
    var l3 := FinishCleanup(l2.(artifacts := BlockSet(l2.artifacts, gone)));
    if late != {} || close != {} || suspend != {} || gone != {} then Bump(l3) else l3
  }

  // ----- sessions -----

  function View(id: Id, s: SessionRow): SessionView {
    SessionView(id, s.state, s.generation, s.policy, s.idle, s.absolute, s.lease, s.resume)
  }

  const DAY: nat := 86400000

  datatype Limits = Limits(policy: Lifecycle, idle: nat, lifetime: nat, lease: nat, grace: nat)

  function LiveSessions(l: Ledger): set<Id> {
    set s | s in l.sessions && Live(l.sessions[s])
  }

  function SessionOpen(l: Ledger, env: Env, peer: Peer, subject: string, profile: string,
                       m: Limits): (r: Result<Change>)
    ensures r.Ok? ==> Quiet(r.value) && SameTable(l, r.value.db)
  {
    var _ :- Context(peer, subject, profile);
    var _ :- Need("session" in peer.roles, EACCES);
    var _ :- ActiveContext(env, subject, profile);
    var _ :- Need(|LiveSessions(l)| < 128, EBUSY);
    var _ :- Need(100 <= m.idle <= DAY && 100 <= m.lifetime <= DAY && 100 <= m.lease <= 60000
        && 100 <= m.grace <= 300000, EINVAL);
    var row := SessionRow(subject, profile, peer.identity, peer.instance, Open, 1, m.policy,
                          env.now + m.idle, env.now + m.lifetime, env.now + m.lease, m.grace, 0, Some(l.next + 1));
    Ok(Guarded(Bump(l.(sessions := l.sessions[l.next := row], next := l.next + 2)),
               Opened(View(l.next, row), Some(l.next + 1))))
  }

  datatype SessionVerb = Close | Suspend | Resume(token: Option<Id>) | Heartbeat

  function SessionRowOf(l: Ledger, peer: Peer, subject: string, profile: string, id: Id,
                        owner: bool): Result<SessionRow> {
    var _ :- Context(peer, subject, profile);
    var _ :- Need(id in l.sessions, ENOENT);
    var s := l.sessions[id];
    var _ :- Need(s.subject == subject && s.profile == profile, EACCES);
    var _ :- Need(owner ==> s.owner == peer.identity && s.instance == peer.instance, EACCES);
    Ok(s)
  }

  function Viewed(l: Ledger, id: Id, token: Option<Id>): Result<Reply> {
    if id in l.sessions then Ok(Opened(View(id, l.sessions[id]), token)) else Err(ENOENT)
  }

  function SessionWatch(l: Ledger, peer: Peer, subject: string, profile: string, id: Id): (r: Result<Change>)
    ensures r.Ok? ==> Quiet(r.value) && SameTable(l, r.value.db)
  {
    var s :- SessionRowOf(l, peer, subject, profile, id, false);
    Ok(Plain(l, Watched(View(id, s), |UndeletedIn(l, id)|)))
  }

  function SessionAct(l: Ledger, env: Env, peer: Peer, subject: string, profile: string,
                      id: Id, generation: nat, verb: SessionVerb): (r: Result<Change>)
    ensures r.Ok? ==> Quiet(r.value) && SameTable(l, r.value.db)
  {
    var _ :- Context(peer, subject, profile);
    var _ :- Need("session" in peer.roles, EACCES);
    var _ :- if verb.Resume? || verb.Heartbeat? then ActiveContext(env, subject, profile) else Ok(());
    var s :- SessionRowOf(l, peer, subject, profile, id, true);
    var _ :- Need(s.generation == generation, ESTALE);
    match verb
    case Close =>
      var m := FinishCleanup(CloseSession(l, id));
      var reply :- Viewed(m, id, None);
      Ok(Plain(Bump(m), reply))
    case Suspend =>
      var _ :- Need(s.state.Open?, SESSION_INACTIVE);
      var m := if s.policy.ConnectionBound? then FinishCleanup(CloseSession(l, id)) else SuspendSession(l, id, env.now);
      var reply :- Viewed(m, id, None);
      Ok(Plain(Bump(m), reply))
    case Resume(token) =>
      var _ :- Need(s.state.Suspended? && s.resume > env.now, SESSION_INACTIVE);
      var _ :- Need(token.Some? && token == s.proof, EACCES);
      var row := s.(state := Open, generation := s.generation + 1, proof := Some(l.next), lease := env.now + 30000);
      Ok(Guarded(Bump(l.(sessions := l.sessions[id := row], next := l.next + 1)), Opened(View(id, row), Some(l.next))))
    case Heartbeat =>
      var _ :- Need(s.state.Open?, SESSION_INACTIVE);
      var row := s.(lease := env.now + 30000);
      Ok(Guarded(Bump(l.(sessions := l.sessions[id := row])), Opened(View(id, row), None)))
  }

  // ----- Evaluate -----

  datatype Purpose = Create | Query | Authorize

  predicate Answerable(p: Payload, create: bool, peer: Peer) {
    if create then "argo" in peer.roles
    else "checker" in peer.roles || "cm" in peer.roles || "ce" in peer.roles || "holder" in peer.roles
  }

  /** The structural rules of `approval::Validate`. */
  predicate ApprovalWellFormed(p: Payload) {
    p.approval.Some? ==>
      var a := p.approval.value;
      && !a.mode.PERSISTENT?
      && (a.mode.TIMED? ==> 100 <= a.duration <= 3600000)
      && (!a.mode.TIMED? ==> a.duration == 0)
      && (a.mode.SESSION? ==> p.session.Some? && p.generation >= 1)
      && 1 <= |p.requirements| <= 16
  }

  /** The typed schema is checked before any retry shortcut. */
  function Screen(l: Ledger, env: Env, p: Payload, n: nat): Result<()>
    requires n <= |p.requirements|
  {
    if n == 0 then Ok(())
    else
      var _ :- Screen(l, env, p, n - 1);
      var r := p.requirements[n - 1];
      if Definition(l.definitions, r.definition).Ok? then BoundArguments(env, l.definitions[r.definition], r)
      else Need(env.arguments(None, r), EINVAL)
  }

  /** One ONCE use is taken from each grant of `ids[..n]`. */
  function Consume(grants: map<Id, Grant>, ids: seq<Id>, n: nat): map<Id, Grant>
    requires n <= |ids|
  {
    if n == 0 then grants
    else
      var m := Consume(grants, ids, n - 1);
      var g := ids[n - 1];
      if g in m && m[g].mode.ONCE? && m[g].remaining > 0
      then m[g := m[g].(remaining := m[g].remaining - 1)] else m
  }

  function Elements(ids: seq<Id>): set<Id> {
    set i | 0 <= i < |ids| :: ids[i]
  }

  /** The receipt an authorized execution leaves behind, and the uses it consumes. */
  function Authorized(l: Ledger, execution: Execution, fingerprint: Payload, ids: seq<Id>, now: nat): Ledger {
    l.(grants := Consume(l.grants, ids, |ids|),
       receipts := l.receipts[l.next := Receipt(execution, fingerprint, Some(fingerprint), now, true, Elements(ids))],
       executions := l.executions[execution := l.next],
       next := l.next + 1)
  }

  function PendingRequests(l: Ledger): set<Id> {
    set q | q in l.requests && l.requests[q].state.Pending?
  }

  /** The payload with the policy versions the decision was taken under. */
  function Revised(p: Payload, rows: seq<Row>): Payload
    requires |rows| == |p.requirements|
  {
    p.(requirements := seq(|rows|, i requires 0 <= i < |rows| =>
      if rows[i].decision.DENIED? then p.requirements[i]
      else p.requirements[i].(policyVersion := rows[i].policyVersion)))
  }

  function StateOf(d: Decision): RequestState {
    match d
    case ALLOWED => Allowed
    case DENIED => Refused
    case CONSENT_REQUIRED => Pending
  }

  /** `ValidateStoredApproval`: a stored version 2 approval is still covered. */
  function StoredApproval(l: Ledger, env: Env, peer: Peer, q: RequestRow): Result<bool> {
    if !(q.state.Allowed? && q.payload.approval.Some? && q.payload.approval.value.choices) then Ok(true)
    else
      var _ :- ActiveContext(env, q.payload.subject, q.payload.profile);
      var _ :- Need(q.chosen == Some(PERSISTENT) || q.chosen == Some(q.payload.approval.value.mode), ESTALE);
      var _ :- ActiveSession(l.sessions, env.now, peer, q.payload);
      var v :- CheckConditions(l, env, peer, Question(q.payload, q.chosen, q.target, false), false);
      Ok(v.decision.ALLOWED?)
  }

  function Withdraw(l: Ledger, id: Id): Ledger
    requires id in l.requests
  {
    Bump(l.(requests := l.requests[id := l.requests[id].(state := Invalidated, token := None)]))
  }

  predicate ModesPermit(l: Ledger, p: Payload, rows: seq<Row>, mode: Mode)
    requires |rows| == |p.requirements|
  {
    forall i :: 0 <= i < |rows| && rows[i].decision.CONSENT_REQUIRED? ==>
      p.requirements[i].definition in l.definitions && mode in l.definitions[p.requirements[i].definition].modes
  }

  function Admitted(l: Ledger, peer: Peer, key: ClientKey, p: Payload, v: Verdict, target: Option<nat>,
                    now: nat): Ledger
    requires |v.rows| == |p.requirements|
  {
    var chosen := if p.approval.Some? && p.approval.value.choices && v.decision.ALLOWED?
                  then Some(p.approval.value.mode) else None;
    var row := RequestRow(peer.identity, p, Revised(p, v.rows), v.rows, target, chosen,
                          {}, None, "", StateOf(v.decision), now + p.lifetime, None, "", "");
    Bump(l.(requests := l.requests[l.next := row], clients := l.clients[key := l.next], next := l.next + 1))
  }

  function Fingerprint(p: Payload, purpose: Purpose): Payload {
    if purpose.Authorize? then p.(client := "", lifetime := 0) else p
  }

  function Repeat(l: Ledger, env: Env, receipt: Id, fingerprint: Payload): (r: Result<Change>)
    ensures r.Ok? ==> Quiet(r.value) && SameTable(l, r.value.db)
  {
    var _ :- Need(receipt in l.receipts && l.receipts[receipt].fingerprint == fingerprint, CONFLICT);
    var ok :- ReceiptValid(l, env, receipt);
    var _ :- Need(ok, ESTALE);
    Ok(Guarded(l, Repeated(receipt)))
  }

  function Recall(l: Ledger, env: Env, peer: Peer, q: Id, p: Payload): (r: Result<Change>)
    ensures r.Ok? ==> Quiet(r.value) && SameTable(l, r.value.db)
  {
    var _ :- Need(q in l.requests && l.requests[q].fingerprint == p, CONFLICT);
    var row := l.requests[q];
    var ok :- if p.approval.Some? then StoredApproval(l, env, peer, row) else Ok(true);
    if ok then Ok(Guarded(l, Known(q, row.state, row.chosen, row.shownPersistent)))
    else Ok(Guarded(Withdraw(l, q), Known(q, Invalidated, row.chosen, row.shownPersistent)))
  }

  function Target(p: Payload, now: nat): Option<nat> {
    if p.approval.Some? && !p.approval.value.task && p.approval.value.mode.TIMED?
    then Some(now + p.approval.value.duration) else None
  }

  function AuthorizeAnew(l: Ledger, env: Env, peer: Peer, p: Payload): (r: Result<Change>)
    ensures r.Ok? ==> Quiet(r.value) && SameTable(l, r.value.db)
  {
    var q := Question(p, None, Target(p, env.now), true);
    var v :- CheckConditions(l, env, peer, q, true);
    if v.decision.ALLOWED? then
      var execution := Execution(peer.identity, p.operation, p.step);
      Ok(Guarded(Bump(Authorized(l, execution, p, v.grants, env.now)), Decided(v, Some(l.next), None)))
    else Ok(Guarded(l, Decided(v, None, None)))
  }

  function Admit(l: Ledger, env: Env, peer: Peer, p: Payload): (r: Result<Change>)
    ensures r.Ok? ==> Quiet(r.value) && SameTable(l, r.value.db)
  {
    var target := Target(p, env.now);
    var v :- CheckConditions(l, env, peer, Question(p, None, target, false), false);
    var _ :- Need(|v.rows| == |p.requirements|, EINVAL);
    var _ :- Need(p.approval.Some? ==> ModesPermit(l, p, v.rows, p.approval.value.mode), EACCES);
    var _ :- Need(v.decision.CONSENT_REQUIRED? ==> |PendingRequests(l)| < 256, EBUSY);
    var _ :- Need(100 <= p.lifetime <= 300000, EINVAL);
    var key := ClientKey(peer.identity, p.subject, p.profile, p.client);
    Ok(Guarded(Admitted(l, peer, key, p, v, target, env.now), Decided(v, None, Some(l.next))))
  }

  /** The checks every evaluation makes before it looks at receipts, requests or grants. */
  function Preflight(l: Ledger, env: Env, peer: Peer, p: Payload, purpose: Purpose): Result<()> {
    var _ :- Need(ApprovalWellFormed(p), EINVAL);
    var _ :- Need(Answerable(p, purpose.Create?, peer), EACCES);
    var _ :- Context(peer, p.subject, p.profile);
    var _ :- ActiveContext(env, p.subject, p.profile);
    var _ :- ActiveSession(l.sessions, env.now, peer, p);
    var _ :- Screen(l, env, p, |p.requirements|);
    match purpose
    case Authorize => Need(Identifier(p.operation) && Identifier(p.step), EINVAL)
    case Create => Need(Identifier(p.client) && Identifier(p.operation), EINVAL)
    case Query => Ok(())
  }

  function Evaluate(l: Ledger, env: Env, peer: Peer, input: Payload, purpose: Purpose): (r: Result<Change>)
    ensures r.Ok? ==> Quiet(r.value) && SameTable(l, r.value.db)
  {
    var _ :- Preflight(l, env, peer, input, purpose);
    var p := Fingerprint(input, purpose);
    match purpose
    case Authorize =>
      var execution := Execution(peer.identity, p.operation, p.step);
      if execution in l.executions then Repeat(l, env, l.executions[execution], p)
      else AuthorizeAnew(l, env, peer, p)
    case Create =>
      var key := ClientKey(peer.identity, p.subject, p.profile, p.client);
      if key in l.clients then Recall(l, env, peer, l.clients[key], p)
      else Admit(l, env, peer, p)
    case Query =>
      var v :- CheckConditions(l, env, peer, Question(p, None, Target(p, env.now), true), false);
      Ok(Guarded(l, Decided(v, None, None)))
  }

  // ----- results and prompts -----

  datatype RequestRef = ById(id: Id) | ByClient(client: string, subject: string, profile: string)

  function FindRequest(l: Ledger, peer: Peer, ref: RequestRef, ui: bool): Result<Id> {
    var _ :- if ref.ByClient? then Context(peer, ref.subject, ref.profile) else Ok(());
    var id := match ref
              case ById(id) => if id in l.requests then Some(id) else None
              case ByClient(client, subject, profile) =>
                var key := ClientKey(peer.identity, subject, profile, client);
                if key in l.clients && l.clients[key] in l.requests then Some(l.clients[key]) else None;
    var _ :- Need(id.Some?, ENOENT);
    var q := l.requests[id.value];
    var _ :- Context(peer, q.payload.subject, q.payload.profile);
    var _ :- Need(ui || q.owner == peer.identity, EACCES);
    Ok(id.value)
  }

  function Reported(id: Id, q: RequestRow, state: RequestState): Reply {
    Outcome(id, state, q.payload, q.rows, q.chosen, q.deadline)
  }

  /** `Result`: the owner reads, and may cancel, a request. */
  function ReadResult(l: Ledger, env: Env, peer: Peer, ref: RequestRef, cancel: bool): (r: Result<Change>)
    ensures r.Ok? ==> Quiet(r.value) && SameTable(l, r.value.db)
  {
    var _ :- Need("argo" in peer.roles, EACCES);
    var id :- FindRequest(l, peer, ref, false);
    var _ :- Need(id in l.requests, ENOENT);
    var q := l.requests[id];
    if cancel && q.state.Pending? then
      Ok(Plain(Bump(l.(requests := l.requests[id := q.(state := Cancelled, token := None)])),
               Reported(id, q, Cancelled)))
    else if q.state.Allowed? then
      var _ :- ActiveContext(env, q.payload.subject, q.payload.profile);
      var ok :- StoredApproval(l, env, peer, q);
      if ok then Ok(Guarded(l, Reported(id, q, Allowed)))
      else Ok(Guarded(Withdraw(l, id), Reported(id, q, Invalidated)))
    else Ok(Plain(l, Reported(id, q, q.state)))
  }

  /** What the UI presents: its capability, and for an answer the user's choice. */
  datatype Screening = Screening(
    version: Option<nat>, periods: bool, template: bool, locale: string,
    token: Option<Id>, allow: bool, mode: Mode, duration: nat,
    context: Option<Approval>, offered: Option<bool>, chosen: Option<Mode>)

  predicate Versioned(q: RequestRow) { q.payload.approval.Some? }

  predicate Choices(q: RequestRow) { q.payload.approval.Some? && q.payload.approval.value.choices }

  /** Every definition of a prompt is installed and unchanged since the request. */
  function Displayable(l: Ledger, env: Env, q: RequestRow, n: nat): Result<()>
    requires n <= |q.payload.requirements|
  {
    if n == 0 then Ok(())
    else
      var _ :- Displayable(l, env, q, n - 1);
      var r := q.payload.requirements[n - 1];
      var c :- Definition(l.definitions, r.definition);
      var _ :- Need(Installed(env, c), ESTALE);
      var _ :- Need(n - 1 < |q.rows| && c.policyVersion == q.rows[n - 1].policyVersion
          && c.textRevision == q.rows[n - 1].textRevision, ESTALE);
      BoundArguments(env, c, r)
  }

  predicate PersistentOffer(l: Ledger, q: RequestRow) {
    && Choices(q)
    && forall i :: 0 <= i < |q.payload.requirements| ==>
         var d := q.payload.requirements[i].definition;
         d in l.definitions && l.definitions[d].level != "3" && PERSISTENT in l.definitions[d].modes
  }

  predicate TypedPrompt(l: Ledger, q: RequestRow) {
    exists i :: 0 <= i < |q.payload.requirements| &&
      q.payload.requirements[i].definition in l.definitions
          && Typed(l.definitions[q.payload.requirements[i].definition])
  }

  function NoVerdict(n: nat): Verdict {
    Verdict(CONSENT_REQUIRED, seq(n, _ => Row(CONSENT_REQUIRED, "", "")), [], false, 0)
  }

  /** The checks shared by showing and answering a prompt; yields the current decision
      of a versioned request. */
  function OpenPrompt(l: Ledger, env: Env, peer: Peer, q: RequestRow, u: Screening, respond: bool): Result<Verdict> {
    var _ :- ActiveContext(env, q.payload.subject, q.payload.profile);
    var _ :- Need(q.state.Pending?, ESTALE);
    var _ :- Need(q.deadline > env.now, ETIMEDOUT);
    var _ :- ActiveSession(l.sessions, env.now, peer, q.payload);
    var _ :- Need(u.version.None? || u.version.value == 1 || u.version.value == 2,
                  if Versioned(q) && respond then EACCES else EINVAL);
    var capable := if Choices(q) && !respond then u.periods
                   else u.version == Some(if Choices(q) then 2 else 1);
    var _ :- Need(Versioned(q) ==> capable, if respond then EACCES else EINVAL);
    var current :- if Versioned(q) then CheckConditions(l, env, peer, Question(q.payload, None, q.target, false), false)
                   else Ok(NoVerdict(|q.payload.requirements|));
    var _ :- Need(|current.rows| == |q.payload.requirements| == |q.rows|, EINVAL);
    var _ :- Displayable(l, env, q, |q.payload.requirements|);
    Ok(current)
  }

  function Outstanding(q: RequestRow, current: Verdict): set<nat>
    requires |current.rows| == |q.rows|
  {
    set i | 0 <= i < |q.rows| && !q.rows[i].decision.ALLOWED? && !current.rows[i].decision.ALLOWED?
  }

  function AllRows(n: nat): set<nat> {
    if n == 0 then {} else AllRows(n - 1) + {n - 1}
  }

  /** The rows of a request with the decisions of a later evaluation. */
  function Redecided(rows: seq<Row>, v: seq<Row>): seq<Row>
    requires |rows| == |v|
  {
    seq(|rows|, i requires 0 <= i < |rows| => rows[i].(decision := v[i].decision))
  }

  function Displayed(l: Ledger, q: RequestRow, current: Verdict): set<nat>
    requires |current.rows| == |q.rows|
  {
    if !Versioned(q) || PersistentOffer(l, q) then AllRows(|q.rows|) else Outstanding(q, current)
  }

  function FinalRow(q: RequestRow, current: Verdict): RequestRow
    requires |current.rows| == |q.rows|
  {
    q.(state := if current.decision.ALLOWED? then Allowed else Invalidated,
       token := None, rows := Redecided(q.rows, current.rows), shownRows := {},
       chosen := if Choices(q) then Some(q.payload.approval.value.mode) else q.chosen)
  }

  function ShownRow(l: Ledger, peer: Peer, q: RequestRow, u: Screening, displayed: set<nat>): RequestRow {
    q.(token := Some(l.next), uiOwner := peer.identity, uiInstance := peer.instance,
       locale := if TypedPrompt(l, q) || Versioned(q) then u.locale else q.locale,
       shownPersistent := if Choices(q) then Some(PersistentOffer(l, q)) else q.shownPersistent,
       shownRows := if Versioned(q) then displayed else q.shownRows)
  }

  /** What showing a prompt writes: a new token with what was displayed, or, where nothing is
      left to approve, the final state. */
  function Display(l: Ledger, peer: Peer, id: Id, q: RequestRow, u: Screening, current: Verdict): (c: Change)
    requires |current.rows| == |q.rows|
    ensures Quiet(c) && SameTable(l, c.db)
  {
    var displayed := Displayed(l, q, current);
    if Versioned(q) && displayed == {} then
      var row := FinalRow(q, current);
      Guarded(Bump(l.(requests := l.requests[id := row])), Answered(id, row.state, row.rows))
    else
      var row := ShownRow(l, peer, q, u, displayed);
      Guarded(Bump(l.(requests := l.requests[id := row], next := l.next + 1)),
              Shown(id, l.next, displayed, PersistentOffer(l, q)))
  }

  function ShowPrompt(l: Ledger, env: Env, peer: Peer, ref: RequestRef, u: Screening): (r: Result<Change>)
    ensures r.Ok? ==> Quiet(r.value) && SameTable(l, r.value.db)
  {
    var _ :- Need("ui" in peer.roles, EACCES);
    var id :- FindRequest(l, peer, ref, true);
    var _ :- Need(id in l.requests, ENOENT);
    var q := l.requests[id];
    var current :- OpenPrompt(l, env, peer, q, u, false);
    var _ :- Need(|current.rows| == |q.rows|, EINVAL);
    var _ :- Need(Identifier(u.locale), EINVAL);
    var _ :- Need(TypedPrompt(l, q) ==> u.template, EINVAL);
    Ok(Display(l, peer, id, q, u, current))
  }

  predicate Satisfied(q: RequestRow, current: Verdict, i: nat)
    requires i < |q.rows| == |current.rows|
  {
    if Choices(q) then current.rows[i].decision.ALLOWED?
    else q.rows[i].decision.ALLOWED? || (Versioned(q) && current.rows[i].decision.ALLOWED?)
  }

  predicate Wanted(q: RequestRow, current: Verdict, i: nat)
    requires i < |q.rows| == |current.rows|
  {
    (Versioned(q) ==> i in q.shownRows) && !Satisfied(q, current, i)
  }

  function NewGrant(q: RequestRow, i: nat, c: Config, mode: Mode, expires: nat): Grant
    requires i < |q.payload.requirements|
  {
    Grant(KeyOf(q.payload, i, c.policyVersion), if mode.SESSION? then q.payload.session else None,
          mode, expires, if mode.ONCE? then 1 else -1, false)
  }

  /** The loop that inserts a grant for each displayed row still missing one. */
  function Issue(l: Ledger, q: RequestRow, current: Verdict, mode: Mode, expires: nat, n: nat): (r: Result<Ledger>)
    requires n <= |q.rows| == |current.rows| == |q.payload.requirements|
    ensures r.Ok? ==> r.value == l.(grants := r.value.grants, next := r.value.next)
  {
    if n == 0 then Ok(l)
    else
      var m :- Issue(l, q, current, mode, expires, n - 1);
      if !Wanted(q, current, n - 1) then Ok(m) else IssueOne(m, q, mode, expires, n - 1)
  }

  /** One turn of that loop. */
  function IssueOne(l: Ledger, q: RequestRow, mode: Mode, expires: nat, i: nat): (r: Result<Ledger>)
    requires i < |q.payload.requirements|
    ensures r.Ok? ==> r.value == l.(grants := r.value.grants, next := r.value.next)
  {
    var c :- Definition(l.definitions, q.payload.requirements[i].definition);
    var _ :- Need(mode in c.modes, EACCES);
    Ok(l.(grants := l.grants[l.next := NewGrant(q, i, c, mode, expires)], next := l.next + 1))
  }

  function NewGrants(l: Ledger, m: Ledger): set<Id> {
    set g | g in m.grants && g !in l.grants
  }

  function Refuse(q: RequestRow, rows: seq<Row>): seq<Row>
    requires |rows| == |q.rows|
  {
    seq(|rows|, i requires 0 <= i < |rows| =>
      if (Versioned(q) ==>
            i in q.shownRows) && !q.rows[i].decision.ALLOWED? then rows[i].(decision := DENIED) else rows[i])
  }

  /** The mode an answer grants: the request's own period, or PERSISTENT where offered. */
  function AnswerMode(l: Ledger, q: RequestRow, u: Screening): Result<Mode> {
    if Choices(q) then
      var persistent := PersistentOffer(l, q);
      var _ :- Need(u.offered == Some(persistent) && q.shownPersistent == Some(persistent), EACCES);
      var _ :- Need(u.chosen.Some? && (u.chosen.value == q.payload.approval.value.mode
          || (persistent && u.chosen.value.PERSISTENT?)), EACCES);
      Ok(u.chosen.value)
    else
      var _ :- Need(u.chosen.None? && u.offered.None?, EINVAL);
      Ok(u.mode)
  }

  predicate Presented(l: Ledger, peer: Peer, q: RequestRow, u: Screening) {
    && u.token.Some? && u.token == q.token && q.uiOwner == peer.identity && q.uiInstance == peer.instance
    && ((TypedPrompt(l, q) || Versioned(q)) ==> q.locale != "" && u.locale == q.locale)
    && (Versioned(q) ==> u.context == q.payload.approval)
  }

  /** The request row and the ledger an answer leaves, once its grants are issued. */
  function Answer(l: Ledger, m: Ledger, id: Id, q: RequestRow, u: Screening, mode: Mode, v: Verdict): Change
    requires |v.rows| == |q.rows|
  {
    var state := if !u.allow then Refused else if v.decision.ALLOWED? then Allowed else Invalidated;
    var rows := Redecided(q.rows, if u.allow then v.rows else Refuse(q, v.rows));
    var row := q.(state := state, token := None, rows := rows, locale := "", shownRows := {},
                  chosen := if Choices(q) then Some(mode) else q.chosen);
    Change(Bump(m.(requests := m.requests[id := row])), Answered(id, state, rows), true, NewGrants(l, m), Some(id))
  }

  /** Evaluates the whole request on `m`, the ledger with the grants of the answer. */
  function Conclude(l: Ledger, m: Ledger, env: Env, peer: Peer, id: Id, q: RequestRow, u: Screening,
                    mode: Mode): Result<Change> {
    var v :- CheckConditions(m, env, peer, Asked(q, mode), false);
    var _ :- Need(|v.rows| == |q.rows|, EINVAL);
    Ok(Answer(l, m, id, q, u, mode, v))
  }

  /** Issues the grants of an answer and evaluates the whole request again. */
  function Settle(l: Ledger, env: Env, peer: Peer, id: Id, q: RequestRow, u: Screening, mode: Mode,
                  current: Verdict): (r: Result<Change>)
    requires |q.payload.requirements| == |q.rows| == |current.rows|
    ensures r.Ok? ==> r.value.db.artifacts == l.artifacts && r.value.issued !! l.grants.Keys && SameTable(l, r.value.db)
  {
    var _ :- Need(u.allow && mode.SESSION? ==> q.payload.session.Some?, EINVAL);
    var _ :- Need(u.allow && mode.TIMED? ==> 100 <= u.duration <= 3600000, EINVAL);
    var m :- if u.allow then Issue(l, q, current, mode, if mode.TIMED? then env.now + u.duration else 0, |q.rows|)
        else Ok(l);
    Conclude(l, m, env, peer, id, q, u, mode)
  }

  function Asked(q: RequestRow, mode: Mode): Question {
    Question(q.payload, if Choices(q) then Some(mode) else None, q.target, false)
  }

  function Respond(l: Ledger, env: Env, peer: Peer, ref: RequestRef, u: Screening): (r: Result<Change>)
    ensures r.Ok? ==> r.value.db.artifacts == l.artifacts && r.value.issued !! l.grants.Keys && SameTable(l, r.value.db)
  {
    var _ :- Need("ui" in peer.roles, EACCES);
    var id :- FindRequest(l, peer, ref, true);
    var _ :- Need(id in l.requests, ENOENT);
    var q := l.requests[id];
    var first :- OpenPrompt(l, env, peer, q, u, true);
    var _ :- Need(Presented(l, peer, q, u), EACCES);
    var mode :- AnswerMode(l, q, u);
    var current :- if Choices(q) then CheckConditions(l, env, peer, Asked(q, mode), false) else Ok(first);
    var _ :- Need(|q.payload.requirements| == |q.rows| == |current.rows|, EINVAL);
    Settle(l, env, peer, id, q, u, mode, current)
  }

  // ----- data -----

  function Revoke(l: Ledger, peer: Peer, definition: string, subject: string, profile: string): (r: Result<Change>)
    ensures r.Ok? ==> Quiet(r.value) && SameTable(l, r.value.db)
  {
    var _ :- Need("admin" in peer.roles, EACCES);
    var _ :- Context(peer, subject, profile);
    var _ :- Need(Identifier(definition), EINVAL);
    var ids := set g | g in l.grants && l.grants[g].key.definition == definition
                       && l.grants[g].key.subject == subject && l.grants[g].key.profile == profile;
    var m := l.(grants := RevokeSet(l.grants, ids));
    Ok(Plain(Bump(m.(receipts := InvalidateSet(m.receipts, ReceiptsOn(m, Revoked(m))),
                     artifacts := BlockSet(m.artifacts, ArtifactsOn(m, Revoked(m))))), Done))
  }

  function HolderContext(l: Ledger, env: Env, peer: Peer, u: Use): Result<()> {
    var _ :- Need("holder" in peer.roles, EACCES);
    var _ :- Context(peer, u.payload.subject, u.payload.profile);
    var _ :- ActiveContext(env, u.payload.subject, u.payload.profile);
    var _ :- Need(u.payload.session.Some?, EINVAL);
    ActiveSession(l.sessions, env.now, peer, u.payload)
  }

  function Retained(l: Ledger, now: nat, peer: Peer, u: Use, artifact: Id): (r: Result<Change>)
    ensures r.Ok? ==> Quiet(r.value) && SameTable(l, r.value.db)
  {
    var _ :- Need(artifact in l.artifacts, ENOENT);
    var a := l.artifacts[artifact];
    var _ :- Need(a.instance == peer.instance, EACCES);
    var _ :- Need(a.purpose == u.purpose && a.recipient == u.recipient && a.scope == u.scope, CONFLICT);
    var _ :- Need(a.state.Active? && a.expires > now, ESTALE);
    Ok(Guarded(l, Stored(artifact, a.expires)))
  }

  /** The insertion of an original artifact for requirement `i` of a receipt found valid. */
  function RegisterNew(l: Ledger, env: Env, peer: Peer, u: Use, receipt: Id, i: nat): (r: Result<Change>)
    requires receipt in l.receipts && l.receipts[receipt].payload.Some?
    ensures r.Ok? ==> Quiet(r.value) && SameTable(l, r.value.db)
  {
    var row := l.receipts[receipt];
    var p := row.payload.value;
    var _ :- Need(i < |p.requirements|, EINVAL);
    var r := p.requirements[i];
    var _ :- Need(r.holder == peer.identity, EACCES);
    var _ :- Need(r.scope == u.scope && r.purpose == u.purpose && r.recipient == u.recipient, EACCES);
    var c :- Definition(l.definitions, r.definition);
    var _ :- Need(Retention(c) > 0, EACCES);
    var expires := row.created + Retention(c);
    var _ :- Need(expires > env.now, ESTALE);
    var _ :- Need(u.payload.session.Some?, EINVAL);
    var session := u.payload.session.value;
    var _ :- Need(|UndeletedIn(l, session)| < 256, EBUSY);
    var a := Artifact(Some(receipt), session, peer.identity, peer.instance, u.purpose, u.recipient, u.scope,
                      expires, Active, Decimal(c.level), row.sources, {});
    Ok(Guarded(Bump(l.(artifacts := l.artifacts[l.next := a], originals := l.originals[Original(receipt,
            peer.identity) := l.next],
                       next := l.next + 1)),
               Stored(l.next, expires)))
  }

  /** `data_register`: one original artifact per receipt and holder. */
  function Register(l: Ledger, env: Env, peer: Peer, u: Use, receipt: Id, i: nat): (r: Result<Change>)
    ensures r.Ok? ==> Quiet(r.value) && SameTable(l, r.value.db)
  {
    hide RegisterNew, HolderContext, ReceiptValid;
    var _ :- HolderContext(l, env, peer, u);
    var ok :- ReceiptValid(l, env, receipt);
    var _ :- Need(ok && receipt in l.receipts && l.receipts[receipt].payload.Some?, ESTALE);
    var p := l.receipts[receipt].payload.value;
    var _ :- Need(p.session == u.payload.session && p.generation == u.payload.generation
                  && p.subject == u.payload.subject && p.profile == u.payload.profile, EACCES);
    var original := Original(receipt, peer.identity);
    if original in l.originals then Retained(l, env.now, peer, u, l.originals[original])
    else RegisterNew(l, env, peer, u, receipt, i)
  }

  /** What a derived artifact inherits from the parents visited so far. */
  datatype Lineage = Lineage(expires: Option<nat>, level: nat, sources: set<Id>)

  function Earlier(e: Option<nat>, x: nat): Option<nat> {
    if e.None? || x < e.value then Some(x) else e
  }

  function Inherit(l: Ledger, env: Env, peer: Peer, u: Use, parents: seq<Id>, n: nat): Result<Lineage>
    requires n <= |parents|
  {
    if n == 0 then Ok(Lineage(None, 0, {}))
    else
      var t :- Inherit(l, env, peer, u, parents, n - 1);
      var id := parents[n - 1];
      var _ :- Need(id !in parents[..n - 1], EINVAL);
      var _ :- Need(id in l.artifacts, ENOENT);
      var a := l.artifacts[id];
      var _ :- Need(SameUse(a, peer, u), EACCES);
      var _ :- Need(a.state.Active? && a.expires > env.now, ESTALE);
      var _ :- Provenance(l, env, peer, u, id);
      Ok(Lineage(Earlier(t.expires, a.expires), if a.level > t.level then a.level else t.level, t.sources + a.sources))
  }

  /** `data_register_derived`. */
  function Derive(l: Ledger, env: Env, peer: Peer, u: Use, parents: seq<Id>): (r: Result<Change>)
    ensures r.Ok? ==> Quiet(r.value) && SameTable(l, r.value.db)
  {
    var _ :- HolderContext(l, env, peer, u);
    var _ :- Need(1 <= |parents| <= 16, EINVAL);
    var t :- Inherit(l, env, peer, u, parents, |parents|);
    var _ :- Need(u.payload.session.Some? && t.expires.Some?, EINVAL);
    var session := u.payload.session.value;
    var _ :- Need(|UndeletedIn(l, session)| < 256, EBUSY);
    var a := Artifact(None, session, peer.identity, peer.instance, u.purpose, u.recipient, u.scope,
                      t.expires.value, Active, t.level, t.sources, Elements(parents));
    Ok(Guarded(Bump(l.(artifacts := l.artifacts[l.next := a], next := l.next + 1)), Stored(l.next, t.expires.value)))
  }

  function CheckData(l: Ledger, env: Env, peer: Peer, u: Use, artifact: Id): (r: Result<Change>)
    ensures r.Ok? ==> Quiet(r.value) && SameTable(l, r.value.db)
  {
    var _ :- HolderContext(l, env, peer, u);
    var _ :- Provenance(l, env, peer, u, artifact);
    Ok(Guarded(l, Reply.Permitted))
  }

  /** `data_release` and `cleanup_ack`. */
  function Acknowledge(l: Ledger, peer: Peer, artifact: Id, success: bool, reconcile: bool,
                       subject: string, profile: string): (r: Result<Change>)
    ensures r.Ok? ==> Quiet(r.value) && SameTable(l, r.value.db)
  {
    var _ :- Need("holder" in peer.roles, EACCES);
    var _ :- Need(artifact in l.artifacts, ENOENT);
    var a := l.artifacts[artifact];
    var _ :- Need(a.session in l.sessions, ENOENT);
    var s := l.sessions[a.session];
    var _ :- Need(a.holder == peer.identity, EACCES);
    var _ :- if a.instance == peer.instance then Ok(()) else
             var _ :- Need(reconcile, EACCES);
             var _ :- Context(peer, subject, profile);
             var _ :- Need(s.subject == subject && s.profile == profile, EACCES);
             Need(!a.state.Active?, EACCES);
    var _ :- Need(success || !a.state.Deleted?, ESTALE);
    var b := a.(state := if success then Deleted else CleanupFailed);
    Ok(Plain(Bump(FinishCleanup(l.(artifacts := l.artifacts[artifact := b]))), Acknowledged(success)))
  }

  // ----- the dispatcher -----

  datatype Call =
    | Ask(payload: Payload, purpose: Purpose)
    | Show(ref: RequestRef, screen: Screening)
    | Decide(ref: RequestRef, screen: Screening)
    | Read(ref: RequestRef, cancel: bool)
    | Begin(subject: string, profile: string, limits: Limits)
    | Watch(subject: string, profile: string, session: Id)
    | Act(subject: string, profile: string, session: Id, generation: nat, verb: SessionVerb)
    | Withhold(definition: string, subject: string, profile: string)
    | Hold(use: Use, receipt: Id, requirement: nat)
    | Extend(use: Use, parents: seq<Id>)
    | Reuse(use: Use, artifact: Id)
    | Release(artifact: Id, success: bool, reconcile: bool, subject: string, profile: string)

  function Dispatch(l: Ledger, env: Env, peer: Peer, call: Call): (r: Result<Change>)
    ensures r.Ok? && !call.Decide? ==> Quiet(r.value) && SameTable(l, r.value.db)
    ensures r.Ok? && call.Decide? ==>
              r.value.db.artifacts == l.artifacts && r.value.issued !! l.grants.Keys && SameTable(l, r.value.db)
  {
    match call
    case Ask(p, purpose) => Evaluate(l, env, peer, p, purpose)
    case Show(ref, u) => ShowPrompt(l, env, peer, ref, u)
    case Decide(ref, u) => Respond(l, env, peer, ref, u)
    case Read(ref, cancel) => ReadResult(l, env, peer, ref, cancel)
    case Begin(subject, profile, m) => SessionOpen(l, env, peer, subject, profile, m)
    case Watch(subject, profile, id) => SessionWatch(l, peer, subject, profile, id)
    case Act(subject, profile, id, generation, verb) => SessionAct(l, env, peer, subject, profile, id, generation, verb)
    case Withhold(d, subject, profile) => Revoke(l, peer, d, subject, profile)
    case Hold(u, receipt, i) => Register(l, env, peer, u, receipt, i)
    case Extend(u, parents) => Derive(l, env, peer, u, parents)
    case Reuse(u, artifact) => CheckData(l, env, peer, u, artifact)
    case Release(artifact, success, reconcile, subject, profile) =>
      Acknowledge(l, peer, artifact, success, reconcile, subject, profile)
  }
}
