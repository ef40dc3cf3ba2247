/** Read-only decisions over the ledger: sessions, conditions, receipts, provenance. */
module Conditions {
  import opened Types
  import opened Ledger

  /** What a profile switch does while one operation runs: how often the main thread
      fences between the operation's start and its commit, during the commit, and
      between the commit and the reply, and whether a compensation would succeed. */
  datatype Fences = Fences(enabled: bool, before: nat, during: nat, after: nat, compensates: bool)

  /** Everything an operation reads from outside the ledger. `published` is the
      installation authority consulted again before the reply. */
  datatype Env = Env(
    now: nat,
    installed: (string, string, string) -> bool,
    published: (string, string, string) -> bool,
    arguments: (Option<Config>, Requirement) -> bool,
    profile: (string, string) -> Option<Status>,
    fences: Fences)

  predicate IdentifierChar(c: char) {
    'a' <= c <= 'z' || 'A' <= c <= 'Z' || '0' <= c <= '9' || c == '.' || c == '_' || c == ':' || c == '-'
  }

  predicate Identifier(s: string) {
    1 <= |s| <= 256 && forall i :: 0 <= i < |s| ==> IdentifierChar(s[i])
  }

  predicate Member(values: set<string>, value: string) {
    value in values || "*" in values
  }

  predicate Installed(env: Env, c: Config) {
    env.installed(c.package, c.app, c.identity)
  }

  function Context(peer: Peer, subject: string, profile: string): Result<()> {
    var _ :- Need(Identifier(subject) && Identifier(profile), EINVAL);
    Need(Member(peer.subjects, subject) && Member(peer.profiles, profile), EACCES)
  }

  function ActiveContext(env: Env, subject: string, profile: string): Result<()> {
    match env.profile(subject, profile)
    case None => Ok(())
    case Some(status) => Err(status)
  }

  /** `SessionState` with `active`: the session named by a request is usable now. */
  function ActiveSession(sessions: map<Id, SessionRow>, now: nat, peer: Peer, p: Payload): Result<()> {
    var _ :- Context(peer, p.subject, p.profile);
    if p.session.None? then Ok(()) else
    var _ :- Need(p.session.value in sessions, ENOENT);
    var s := sessions[p.session.value];
    var _ :- Need(s.subject == p.subject && s.profile == p.profile, EACCES);
    var _ :- Need(Live(s), SESSION_CLOSED);
    var _ :- Need(s.state.Open?, SESSION_INACTIVE);
    var _ :- Need(s.generation == p.generation, ESTALE);
    Need(s.idle > now && s.absolute > now && s.lease > now, SESSION_INACTIVE)
  }

  function Definition(definitions: map<string, Config>, id: string): Result<Config> {
    if id in definitions && definitions[id].active then Ok(definitions[id]) else Err(ENOENT)
  }

  /** `ValidateBoundArguments`. */
  function BoundArguments(env: Env, c: Config, r: Requirement): Result<()> {
    var _ :- Need(Typed(c) ==> r.policyVersion == c.policyVersion, ESTALE);
    Need(env.arguments(Some(c), r), EINVAL)
  }

  function KeyOf(p: Payload, i: nat, version: string): GrantKey
    requires i < |p.requirements|
  {
    var r := p.requirements[i];
    GrantKey(p.subject, p.profile, r.definition, version, r.scope, r.operation, r.purpose, r.recipient, r.holder)
  }

  /** What is asked of the grants: the payload, the period a stored or answered approval
      must be covered for, the admitted TIMED deadline, and whether the call is `check`. */
  datatype Question = Question(payload: Payload, chosen: Option<Mode>, target: Option<nat>, check: bool)

  /** `approval::Covers`. */
  predicate Covers(q: Question, mode: Mode, expires: nat, now: nat) {
    if expires != 0 && expires <= now then false
    else if q.chosen == Some(PERSISTENT) then mode.PERSISTENT?
    else if q.payload.approval.None? || q.payload.approval.value.task then true
    else
      var selected := q.payload.approval.value.mode;
      if selected.ONCE? || mode.PERSISTENT? then true
      else if selected.SESSION? then mode.SESSION?
      else selected.TIMED? && mode.TIMED? && q.target.Some? && expires >= q.target.value
  }

  predicate Usable(g: Grant, key: GrantKey, q: Question, now: nat) {
    && g.key == key
    && !g.revoked
    && (g.expires == 0 || g.expires > now)
    && g.remaining != 0
    && (g.mode.SESSION? ==> g.session == q.payload.session)
    && Covers(q, g.mode, g.expires, now)
  }

  /** The usable grant inserted last, among the names below `bound`. */
  function FindGrant(grants: map<Id, Grant>, key: GrantKey, q: Question, now: nat, bound: nat): (r: Option<Id>)
    ensures r.Some? ==> r.value < bound && r.value in grants && Usable(grants[r.value], key, q, now)
    ensures forall g :: g in grants && g < bound && (r.Some? ==> r.value < g) ==> !Usable(grants[g], key, q, now)
  {
    if bound == 0 then None
    else if bound - 1 in grants && Usable(grants[bound - 1], key, q, now) then Some(bound - 1)
    else FindGrant(grants, key, q, now, bound - 1)
  }

  /** The running totals of the loop over requirements in `CheckConditions`. */
  datatype Tally = Tally(
    rows: seq<Row>, grants: seq<Id>, keys: set<GrantKey>,
    required: bool, denied: bool, cacheable: bool)

  function CheckRow(l: Ledger, env: Env, peer: Peer, q: Question, enforce: bool, i: nat, t: Tally): Result<Tally>
    requires i < |q.payload.requirements|
  {
    var r := q.payload.requirements[i];
    var _ :- Need(Identifier(r.definition) && Identifier(r.operation) && Identifier(r.purpose), EINVAL);
    var _ :- Need(|r.scope| <= 4096, EINVAL);
    if Definition(l.definitions, r.definition).Err? then
      Ok(t.(rows := t.rows + [Row(DENIED, "", "")], denied := true))
    else
      var c := l.definitions[r.definition];
      var _ :- Need(Installed(env, c), ESTALE);
      var _ :- BoundArguments(env, c, r);
      var _ :- Need(r.policyVersion == "" || r.policyVersion == c.policyVersion, ESTALE);
      var _ :- Need((enforce || q.check) ==> peer.identity == c.enforcer || Member(peer.enforcers, c.enforcer), EACCES);
      var key := KeyOf(q.payload, i, c.policyVersion);
      var _ :- Need(key !in t.keys, EINVAL);
      var found := FindGrant(l.grants, key, q, env.now, l.next);
      var keys := t.keys + {key};
      if found.Some? then
        var g := l.grants[found.value];
        Ok(t.(rows := t.rows + [Row(ALLOWED, c.policyVersion, c.textRevision)],
              grants := t.grants + [found.value], keys := keys,
              cacheable := t.cacheable && (g.mode.PERSISTENT? || g.mode.SESSION?) && c.level != "3"))
      else
        Ok(t.(rows := t.rows + [Row(CONSENT_REQUIRED, c.policyVersion, c.textRevision)],
              keys := keys, required := true, cacheable := false))
  }

  const START := Tally([], [], {}, false, false, true)

  function CheckRows(l: Ledger, env: Env, peer: Peer, q: Question, enforce: bool, n: nat): Result<Tally>
    requires n <= |q.payload.requirements|
  {
    if n == 0 then Ok(START)
    else
      var t :- CheckRows(l, env, peer, q, enforce, n - 1);
      CheckRow(l, env, peer, q, enforce, n - 1, t)
  }

  datatype Verdict = Verdict(decision: Decision, rows: seq<Row>, grants: seq<Id>, cacheable: bool, ttl: nat)

  function Min(a: int, b: int): int { if a <= b then a else b }

  function Overall(t: Tally): Decision {
    if t.denied then DENIED else if t.required then CONSENT_REQUIRED else ALLOWED
  }

  /** Milliseconds for which the daemon lets a client repeat its answer. */
  function CacheTtl(sessions: map<Id, SessionRow>, now: nat, p: Payload): int {
    if p.session.Some? && p.session.value in sessions then
      var s := sessions[p.session.value];
      Min(Min(Min(500, s.idle - now), s.absolute - now), s.lease - now)
    else 500
  }

  function CheckConditions(l: Ledger, env: Env, peer: Peer, q: Question, enforce: bool): Result<Verdict> {
    var _ :- Need(1 <= |q.payload.requirements| <= 16, EINVAL);
    var t :- CheckRows(l, env, peer, q, enforce, |q.payload.requirements|);
    var _ :- if q.payload.session.None? then Ok(()) else ActiveSession(l.sessions, env.now, peer, q.payload);
    var ttl := CacheTtl(l.sessions, env.now, q.payload);
    Ok(Verdict(Overall(t), t.rows, t.grants,
               q.payload.approval.None? && t.cacheable && !enforce && !t.required && !t.denied && ttl > 0,
               if ttl > 0 then ttl else 0))
  }

  /** The loop over the requirements of a stored receipt in `ReceiptValid`. */
  function ReceiptRows(l: Ledger, env: Env, p: Payload, n: nat): Result<bool>
    requires n <= |p.requirements|
  {
    if n == 0 then Ok(true)
    else
      var ok :- ReceiptRows(l, env, p, n - 1);
      if !ok then Ok(false) else
      var r := p.requirements[n - 1];
      var c :- Definition(l.definitions, r.definition);
      if r.policyVersion != "" && r.policyVersion != c.policyVersion then Ok(false) else
      var _ :- BoundArguments(env, c, r);
      Ok(Installed(env, c))
  }

  predicate Lapsed(g: Grant, now: nat) {
    g.revoked || (g.expires != 0 && g.expires <= now)
  }

  function LapsedSources(grants: map<Id, Grant>, sources: set<Id>, now: nat): set<Id> {
    set g | g in sources && g in grants && Lapsed(grants[g], now)
  }

  /** `ReceiptValid`. */
  function ReceiptValid(l: Ledger, env: Env, r: Id): Result<bool> {
    if r !in l.receipts || !l.receipts[r].valid || l.receipts[r].payload.None? then Ok(false)
    else
      var p := l.receipts[r].payload.value;
      if env.profile(p.subject, p.profile).Some? then Ok(false)
      else if LapsedSources(l.grants, l.receipts[r].sources, env.now) != {} then Ok(false)
      else ReceiptRows(l, env, p, |p.requirements|)
  }

  /** The context under which a holder uses an artifact. */
  datatype Use = Use(payload: Payload, purpose: string, recipient: string, scope: string)

  predicate SameUse(a: Artifact, peer: Peer, u: Use) {
    && u.payload.session == Some(a.session)
    && a.holder == peer.identity && a.instance == peer.instance
    && a.purpose == u.purpose && a.recipient == u.recipient && a.scope == u.scope
  }

  predicate Current(definitions: map<string, Config>, k: GrantKey) {
    && k.definition in definitions
    && definitions[k.definition].active
    && definitions[k.definition].policyVersion == k.version
  }

  function Bound(k: GrantKey): Requirement {
    Requirement(k.definition, k.scope, k.operation, k.purpose, k.recipient, k.holder, k.version)
  }

  function StaleSources(l: Ledger, env: Env, sources: set<Id>): set<Id> {
    set g | g in sources && g in l.grants &&
            (l.grants[g].revoked || !Current(l.definitions, l.grants[g].key)
             || !Installed(env, l.definitions[l.grants[g].key.definition]))
  }

  function MalformedSources(l: Ledger, env: Env, sources: set<Id>): set<Id> {
    set g | g in sources && g in l.grants && Current(l.definitions, l.grants[g].key) &&
            !env.arguments(Some(l.definitions[l.grants[g].key.definition]), Bound(l.grants[g].key))
  }

  /** `ValidateArtifactProvenance`. */
  function Provenance(l: Ledger, env: Env, peer: Peer, u: Use, artifact: Id): Result<()> {
    var _ :- ActiveSession(l.sessions, env.now, peer, u.payload);
    var _ :- Need(artifact in l.artifacts, ENOENT);
    var a := l.artifacts[artifact];
    var _ :- Need(SameUse(a, peer, u), EACCES);
    var _ :- Need(a.state.Active? && a.expires > env.now, ESTALE);
    var _ :- Need(StaleSources(l, env, a.sources) == {}, ESTALE);
    var _ :- Need(MalformedSources(l, env, a.sources) == {}, EINVAL);
    Need(a.sources != {}, ESTALE)
  }
}
