/** The tables of the database and the statements the transactions run on them. */
module Ledger {
  import opened Types

  datatype Ledger = Ledger(
    definitions: map<string, Config>,
    sessions: map<Id, SessionRow>,
    requests: map<Id, RequestRow>,
    clients: map<ClientKey, Id>,
    grants: map<Id, Grant>,
    receipts: map<Id, Receipt>,
    executions: map<Execution, Id>,
    artifacts: map<Id, Artifact>,
    originals: map<Original, Id>,
    applied: nat,
    revision: nat,
    next: Id)

  const EMPTY := Ledger(map[], map[], map[], map[], map[], map[], map[], map[], map[], 0, 0, 0)

  predicate Live(s: SessionRow) {
    s.state.Open? || s.state.Suspended?
  }

  predicate Terminal(q: RequestRow) {
    !q.state.Pending?
  }

  function Bump(l: Ledger): Ledger {
    l.(revision := l.revision + 1)
  }

  // ----- UPDATE statements over a set of rows -----

  function RevokeSet(grants: map<Id, Grant>, ids: set<Id>): map<Id, Grant> {
    map g | g in grants :: if g in ids then grants[g].(revoked := true) else grants[g]
  }

  function InvalidateSet(receipts: map<Id, Receipt>, ids: set<Id>): map<Id, Receipt> {
    map r | r in receipts :: if r in ids then receipts[r].(valid := false) else receipts[r]
  }

  function Block(a: Artifact): Artifact {
    if a.state.Active? then a.(state := CleanupPending) else a
  }

  function BlockSet(artifacts: map<Id, Artifact>, ids: set<Id>): map<Id, Artifact> {
    map a | a in artifacts :: if a in ids then Block(artifacts[a]) else artifacts[a]
  }

  function CloseRow(s: SessionRow): SessionRow {
    if Live(s) then s.(state := Closing, generation := s.generation + 1) else s
  }

  function CloseSet(sessions: map<Id, SessionRow>, ids: set<Id>): map<Id, SessionRow> {
    map s | s in sessions :: if s in ids then CloseRow(sessions[s]) else sessions[s]
  }

  function FinalizeSet(requests: map<Id, RequestRow>, ids: set<Id>, state: RequestState): map<Id, RequestRow> {
    map q | q in requests ::
      if q in ids then requests[q].(state := state, token := None) else requests[q]
  }

  // ----- the WHERE clauses -----

  function GrantsOf(l: Ledger, definition: string): set<Id> {
    set g | g in l.grants && l.grants[g].key.definition == definition
  }

  function ReceiptsOn(l: Ledger, ids: set<Id>): set<Id> {
    set r | r in l.receipts && l.receipts[r].sources * ids != {}
  }

  function ArtifactsOn(l: Ledger, ids: set<Id>): set<Id> {
    set a | a in l.artifacts && l.artifacts[a].sources * ids != {}
  }

  function Revoked(l: Ledger): set<Id> {
    set g | g in l.grants && l.grants[g].revoked
  }

  predicate Mentions(p: Payload, definition: string) {
    exists i :: 0 <= i < |p.requirements| && p.requirements[i].definition == definition
  }

  function PendingOn(l: Ledger, definition: string): set<Id> {
    set q | q in l.requests && l.requests[q].state.Pending? && Mentions(l.requests[q].payload, definition)
  }

  function PendingIn(l: Ledger, session: Id): set<Id> {
    set q | q in l.requests && l.requests[q].state.Pending? && l.requests[q].payload.session == Some(session)
  }

  // ----- the helpers the transactions share -----

  /** `Invalidate`: a definition's grants are revoked, and with them every receipt,
      resident artifact and open prompt that rests on them. */
  function Invalidate(l: Ledger, definition: string): Ledger {
    var ids := GrantsOf(l, definition);
    l.(grants := RevokeSet(l.grants, ids),
       receipts := InvalidateSet(l.receipts, ReceiptsOn(l, ids)),
       artifacts := BlockSet(l.artifacts, ArtifactsOn(l, ids)),
       requests := FinalizeSet(l.requests, PendingOn(l, definition), Invalidated))
  }

  function SessionGrants(l: Ledger, session: Id): set<Id> {
    set g | g in l.grants && l.grants[g].mode.SESSION? && l.grants[g].session == Some(session)
  }

  function ArtifactsIn(l: Ledger, session: Id): set<Id> {
    set a | a in l.artifacts && l.artifacts[a].session == session
  }

  /** `CloseSession`. */
  function CloseSession(l: Ledger, session: Id): Ledger {
    l.(sessions := CloseSet(l.sessions, {session}),
       grants := RevokeSet(l.grants, SessionGrants(l, session)),
       artifacts := BlockSet(l.artifacts, ArtifactsIn(l, session)),
       requests := FinalizeSet(l.requests, PendingIn(l, session), Invalidated))
  }

  /** `SuspendSession`. */
  function SuspendSession(l: Ledger, session: Id, now: nat): Ledger {
    l.(sessions := if session in l.sessions && l.sessions[session].state.Open?
                   then var s := l.sessions[session];
                        l.sessions[session := s.(state := Suspended, generation := s.generation + 1,
                                                 resume := now + s.grace)]
                   else l.sessions,
       requests := FinalizeSet(l.requests, PendingIn(l, session), Invalidated))
  }

  function UndeletedIn(l: Ledger, session: Id): set<Id> {
    set a | a in l.artifacts && l.artifacts[a].session == session && !l.artifacts[a].state.Deleted?
  }

  /** `FinishCleanup`: a closing session without an undeleted artifact is closed. */
  function FinishCleanup(l: Ledger): Ledger {
    l.(sessions := map s | s in l.sessions ::
         if l.sessions[s].state.Closing? && UndeletedIn(l, s) == {}
         then l.sessions[s].(state := Closed) else l.sessions[s])
  }
}
