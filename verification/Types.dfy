/** Rows of the consent ledger's tables and the values its requests carry. */
module Types {

  /** A name drawn by `Id()`. Names are fresh and, like rowids, grow with insertion. */
  type Id = nat

  datatype Option<+T> = None | Some(value: T)

  datatype Result<+T> = Ok(value: T) | Err(status: Status) {
    predicate IsFailure() { Err? }
    function PropagateFailure<U>(): (r: Result<U>)
      requires Err?
    {
      Err(status)
    }
    function Extract(): T
      requires Ok?
    {
      value
    }
  }

  /** `Require`: the statement that abandons an operation with a status. */
  function Need(condition: bool, status: Status): Result<()> {
    if condition then Ok(()) else Err(status)
  }

  datatype Status =
    | EINVAL | EACCES | ESTALE | ENOENT | EBUSY | ETIMEDOUT | ENOSYS | ENOSPC
    | CONFLICT | SESSION_INACTIVE | SESSION_CLOSED | STORAGE

  datatype Mode = ONCE | SESSION | TIMED | PERSISTENT

  datatype Decision = ALLOWED | DENIED | CONSENT_REQUIRED

  /** A definition as the registry stores it. Numbers stay the text they were registered
      as; `modes` is the comma-separated list, `schema` the template parameters and
      `messages` the localized texts with their fallbacks. */
  datatype Config = Config(
    package: string, app: string, identity: string, enforcer: string,
    policyVersion: string, textRevision: string, level: string, modes: seq<Mode>,
    retention: Option<string>, schema: map<string, string>, messages: map<string, string>,
    active: bool)

  /** A definition with typed parameters (`template_version` 1). */
  predicate Typed(c: Config) {
    "template_version" in c.schema && c.schema["template_version"] == "1"
  }

  predicate Digit(c: char) {
    '0' <= c <= '9'
  }

  predicate Digits(s: string) {
    s != "" && forall i :: 0 <= i < |s| ==> Digit(s[i])
  }

  /** The number a decimal text denotes. */
  function Decimal(s: string): nat {
    if s == "" then 0
    else 10 * Decimal(s[..|s| - 1]) + (if Digit(s[|s| - 1]) then (s[|s| - 1] - '0') as nat else 0)
  }

  function Retention(c: Config): nat {
    if c.retention.Some? then Decimal(c.retention.value) else 0
  }

  datatype Requirement = Requirement(
    definition: string, scope: string, operation: string, purpose: string,
    recipient: string, holder: string, policyVersion: string)

  /** The exact tuple a grant is bound to (`GrantKey`). */
  datatype GrantKey = GrantKey(
    subject: string, profile: string, definition: string, version: string,
    scope: string, operation: string, purpose: string, recipient: string, holder: string)

  /** The versioned approval context: `choices` is version 2, `task` is kind TASK. */
  datatype Approval = Approval(
    choices: bool, task: bool, selection: string, mode: Mode, duration: nat)

  datatype Payload = Payload(
    subject: string, profile: string, session: Option<Id>, generation: nat,
    operation: string, step: string, client: string, lifetime: nat,
    approval: Option<Approval>, requirements: seq<Requirement>)

  datatype Grant = Grant(
    key: GrantKey, session: Option<Id>, mode: Mode, expires: nat, remaining: int, revoked: bool)

  /** The unique key of one original artifact. */
  datatype Original = Original(receipt: Id, holder: string)

  datatype Execution = Execution(enforcer: string, operation: string, step: string)

  /** `payload` is `None` once compaction cleared it; `sources` are the rows of
      `authorization_grants` for this receipt. */
  datatype Receipt = Receipt(
    execution: Execution, fingerprint: Payload, payload: Option<Payload>,
    created: nat, valid: bool, sources: set<Id>)

  datatype SessionState = Open | Suspended | Closing | Closed

  datatype Lifecycle = ConnectionBound | Resumable

  datatype SessionRow = SessionRow(
    subject: string, profile: string, owner: string, instance: string,
    state: SessionState, generation: nat, policy: Lifecycle,
    idle: nat, absolute: nat, lease: nat, grace: nat, resume: nat, proof: Option<Id>)

  datatype RequestState =
    | Pending | Allowed | Refused | Cancelled | Expired | Invalidated

  /** The decision of one requirement, with the revisions it was taken under. */
  datatype Row = Row(decision: Decision, policyVersion: string, textRevision: string)

  datatype ClientKey = ClientKey(owner: string, subject: string, profile: string, client: string)

  /** `target` is the admitted TIMED deadline, `chosen` the mode the user picked,
      `shownRows`, `shownPersistent` and `locale` what the last prompt displayed. */
  datatype RequestRow = RequestRow(
    owner: string, fingerprint: Payload, payload: Payload, rows: seq<Row>,
    target: Option<nat>, chosen: Option<Mode>,
    shownRows: set<nat>, shownPersistent: Option<bool>, locale: string,
    state: RequestState, deadline: nat, token: Option<Id>, uiOwner: string, uiInstance: string)

  datatype ArtifactState = Active | CleanupPending | CleanupFailed | Deleted

  /** `receipt` is `None` for a derived artifact; `sources` and `parents` are its rows
      in `artifact_grants` and `artifact_parents`. */
  datatype Artifact = Artifact(
    receipt: Option<Id>, session: Id, holder: string, instance: string,
    purpose: string, recipient: string, scope: string, expires: nat,
    state: ArtifactState, level: nat, sources: set<Id>, parents: set<Id>)

  datatype Peer = Peer(
    identity: string, instance: string, roles: set<string>, subjects: set<string>,
    profiles: set<string>, enforcers: set<string>)

  datatype Binding = Binding(subject: string, user: string, profile: string)
}
