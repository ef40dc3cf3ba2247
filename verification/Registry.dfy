/** The definition registry: registration, uninstall and offline import. */
module Registry {
  import opened Types

  /** Online keys are derived from the peer and its operation, offline ones carry their own
      prefix, so the two never meet. */
  datatype OperationKey = Online(text: string) | Offline(operation: string)

  datatype Action =
    | Install(definition: string, config: Config)
    | Uninstall(package: string, generation: string)

  /** What an operation left behind: its payload, and whether it was judged obsolete. */
  datatype Stamp = Stamp(action: Action, obsolete: bool)

  datatype Book = Book(definitions: map<string, Config>, operations: map<OperationKey, Stamp>, revision: nat)

  const MAX_DEFINITIONS := 2048
  const MAX_OPERATIONS := 8192
  const INT32_MAX := 0x7fff_ffff

  predicate Revision(s: string) {
    Digits(s) && |s| <= 20 && 1 <= Decimal(s) <= INT32_MAX
  }

  /** The rules of `registration::ValidateDefinition` on revisions, level and modes. */
  predicate WellFormed(c: Config) {
    && c.identity != ""
    && Revision(c.policyVersion) && Revision(c.textRevision)
    && Digits(c.level) && |c.level| <= 20 && Decimal(c.level) <= 3
    && c.modes != []
    && (forall i, j :: 0 <= i < j < |c.modes| ==> c.modes[i] != c.modes[j])
    && (Decimal(c.level) == 3 ==> forall m :: m in c.modes ==> m.ONCE?)
    && (c.retention.Some? ==>
          Digits(c.retention.value) && |c.retention.value| <= 20 && Decimal(c.retention.value) <= 86400000)
  }

  function Policy(c: Config): nat { Decimal(c.policyVersion) }

  function Text(c: Config): nat { Decimal(c.textRevision) }

  predicate SamePolicy(a: Config, b: Config) {
    a.enforcer == b.enforcer && a.level == b.level && a.modes == b.modes && a.retention == b.retention
  }

  /** The owner of a definition and the revision rules of an update (`CommonRegister`). */
  function Revise(cur: Config, next: Config): Result<()> {
    var _ :- Need(cur.package == next.package && cur.app == next.app, EACCES);
    Advance(cur, next)
  }

  function Advance(cur: Config, next: Config): Result<()> {
    var _ :- Need(Policy(next) >= Policy(cur), CONFLICT);
    var _ :- Need(Text(next) >= Text(cur), CONFLICT);
    var _ :- Need(cur.schema == next.schema || Policy(next) > Policy(cur), CONFLICT);
    var _ :- Need(cur.messages == next.messages || Text(next) > Text(cur), CONFLICT);
    if Policy(next) == Policy(cur) && cur.active && cur.identity == next.identity then
      var _ :- Need(SamePolicy(cur, next), CONFLICT);
      Need(Text(next) == Text(cur) ==> cur == next, CONFLICT)
    else Ok(())
  }

  function Put(b: Book, key: OperationKey, action: Action, definitions: map<string, Config>): Result<Book> {
    var _ :- Need(|definitions| <= MAX_DEFINITIONS, ENOSPC);
    var operations := b.operations[key := Stamp(action, false)];
    var _ :- Need(|operations| <= MAX_OPERATIONS, ENOSPC);
    Ok(Book(definitions, operations, b.revision + 1))
  }

  predicate Uninstallable(b: Book, package: string, generation: string) {
    forall d :: d in b.definitions && b.definitions[d].package == package && b.definitions[d].active
      ==> b.definitions[d].identity == generation
  }

  function Deactivated(definitions: map<string, Config>, package: string): map<string, Config> {
    map d | d in definitions ::
      if definitions[d].package == package then definitions[d].(active := false) else definitions[d]
  }

  /** `CommonRegister`. `installed` is the status of the installation authority for a
      definition, `removable` that of the package authority for an uninstall. */
  function Enroll(b: Book, installed: Config -> Option<Status>, removable: (string, string) -> bool,
                  key: OperationKey, action: Action): Result<Book> {
    var _ :- if action.Install? then Ok(()) else
             var _ :- Need(action.generation != "", EINVAL);
             var _ :- Need(removable(action.package, action.generation), ESTALE);
             Need(Uninstallable(b, action.package, action.generation), ESTALE);
    if key in b.operations then
      var _ :- Need(b.operations[key] == Stamp(action, false), CONFLICT);
      Ok(b)
    else match action
      case Uninstall(package, generation) => Put(b, key, action, Deactivated(b.definitions, package))
      case Install(d, config) =>
        var next := config.(active := true);
        var _ :- Need(WellFormed(next), EINVAL);
        var _ :- if installed(next).Some? then Err(installed(next).value) else Ok(());
        var _ :- if d in b.definitions then Revise(b.definitions[d], next) else Ok(());
        Put(b, key, action, b.definitions[d := next])
  }

  /** `ObsoleteOfflineRegistration`: the seed is older than what is retained. */
  function Obsolete(b: Book, d: string, seed: Config): Result<bool> {
    if d !in b.definitions then Ok(false)
    else
      var cur := b.definitions[d];
      var _ :- Need(cur.package == seed.package && cur.app == seed.app, EACCES);
      if cur.identity != seed.identity then Ok(false) else
      var _ :- Need(Policy(cur) == Policy(seed) ==> cur.schema == seed.schema && SamePolicy(cur, seed), CONFLICT);
      var _ :- Need(Text(cur) == Text(seed) ==> cur.messages == seed.messages, CONFLICT);
      var _ :- Need(!(Policy(cur) > Policy(seed) && Text(cur) < Text(seed))
                    && !(Policy(cur) < Policy(seed) && Text(cur) > Text(seed)), CONFLICT);
      if !cur.active then Ok(true)
      else Ok(Policy(cur) >= Policy(seed) && Text(cur) >= Text(seed)
              && (Policy(cur) > Policy(seed) || Text(cur) > Text(seed)))
  }

  /** `ImportOfflineRegistration`; the flag says that the seed was obsolete. */
  function Import(b: Book, installed: Config -> Option<Status>, operation: string, d: string,
                  config: Config): Result<(Book, bool)> {
    var seed := config.(active := true);
    var action := Install(d, config);
    var key := Offline(operation);
    var _ :- Need(WellFormed(seed), EINVAL);
    var _ :- if installed(seed).Some? then Err(installed(seed).value) else Ok(());
    if key in b.operations then
      var _ :- Need(b.operations[key].action == action, CONFLICT);
      Ok((b, b.operations[key].obsolete))
    else
      var obsolete :- Obsolete(b, d, seed);
      if obsolete then
        var operations := b.operations[key := Stamp(action, true)];
        var _ :- Need(|operations| <= MAX_OPERATIONS, ENOSPC);
        Ok((Book(b.definitions, operations, b.revision + 1), true))
      else
        var c :- Enroll(b, installed, (p, g) => false, key, action);
        Ok((c, false))
  }

  // ----- what holds over every sequence of operations -----

  /** No operation takes a definition away, changes its owner, lowers a revision, or changes
      the schema or the messages without raising the revision they belong to. */
  ghost predicate Advances(a: Config, b: Config) {
    && a.package == b.package && a.app == b.app
    && Policy(a) <= Policy(b) && Text(a) <= Text(b)
    && (a.schema != b.schema ==> Policy(a) < Policy(b))
    && (a.messages != b.messages ==> Text(a) < Text(b))
  }

  ghost predicate Monotone(a: Book, b: Book) {
    && a.revision <= b.revision
    && (forall k :: k in a.operations ==> k in b.operations && b.operations[k] == a.operations[k])
    && (forall d :: d in a.definitions ==> d in b.definitions && Advances(a.definitions[d], b.definitions[d]))
  }

  lemma PutMonotone(b: Book, key: OperationKey, action: Action, definitions: map<string, Config>)
    requires key !in b.operations
    requires forall d :: d in b.definitions ==> d in definitions && Advances(b.definitions[d], definitions[d])
    ensures var r := Put(b, key, action, definitions); r.Ok? ==> Monotone(b, r.value)
  {
  }

  lemma SameMonotone(b: Book)
    ensures Monotone(b, b)
  {
  }

  lemma EnrollMonotone(b: Book, installed: Config -> Option<Status>, removable: (string, string) -> bool,
                       key: OperationKey, action: Action)
    ensures var r := Enroll(b, installed, removable, key, action);
            r.Ok? ==> Monotone(b, r.value)
  {
    hide Put, WellFormed, Monotone, Uninstallable;
    SameMonotone(b);
    if Enroll(b, installed, removable, key, action).Ok? && key !in b.operations {
      match action
      case Uninstall(package, _) => PutMonotone(b, key, action, Deactivated(b.definitions, package));
      case Install(d, config) => PutMonotone(b, key, action, b.definitions[d := config.(active := true)]);
    }
  }

  lemma ImportMonotone(b: Book, installed: Config -> Option<Status>, operation: string, d: string, config: Config)
    ensures var r := Import(b, installed, operation, d, config);
            r.Ok? ==> Monotone(b, r.value.0)
  {
    EnrollMonotone(b, installed, (p, g) => false, Offline(operation), Install(d, config));
  }

  lemma MonotoneTransitive(a: Book, b: Book, c: Book)
    requires Monotone(a, b) && Monotone(b, c)
    ensures Monotone(a, c)
  {
    forall d | d in a.definitions
      ensures d in c.definitions && Advances(a.definitions[d], c.definitions[d])
    {
      assert Advances(a.definitions[d], b.definitions[d]) && Advances(b.definitions[d], c.definitions[d]);
    }
  }

  /** One operation on the registry with the answers the authorities give while it runs. */
  datatype Step =
    | Register(key: OperationKey, action: Action, installed: Config -> Option<Status>,
               removable: (string, string) -> bool)
    | Seed(operation: string, definition: string, config: Config, installed: Config -> Option<Status>)

  /** A rejected operation leaves the registry as it is. */
  function Enact(b: Book, s: Step): Book {
    match s
    case Register(key, action, installed, removable) =>
      (var r := Enroll(b, installed, removable, key, action); if r.Ok? then r.value else b)
    case Seed(operation, d, config, installed) =>
      (var r := Import(b, installed, operation, d, config); if r.Ok? then r.value.0 else b)
  }

  function Enacted(b: Book, steps: seq<Step>): Book {
    if steps == [] then b else Enact(Enacted(b, steps[..|steps| - 1]), steps[|steps| - 1])
  }

  /** Over every sequence of registrations, uninstalls and offline imports: a definition keeps
      its owner, no revision decreases, and schema and messages only change upwards. */
  lemma {:induction false} RegistryAdvances(b: Book, steps: seq<Step>)
    ensures Monotone(b, Enacted(b, steps))
  {
    if steps != [] {
      var before := Enacted(b, steps[..|steps| - 1]);
      RegistryAdvances(b, steps[..|steps| - 1]);
      match steps[|steps| - 1] {
        case Register(key, action, installed, removable) => EnrollMonotone(before, installed, removable, key, action);
        case Seed(operation, d, config, installed) => ImportMonotone(before, installed, operation, d, config);
      }
      MonotoneTransitive(b, before, Enacted(b, steps));
    }
  }

  /** The step is accepted. */
  predicate Accepts(b: Book, s: Step) {
    match s
    case Register(key, action, installed, removable) => Enroll(b, installed, removable, key, action).Ok?
    case Seed(operation, d, config, installed) => Import(b, installed, operation, d, config).Ok?
  }

  lemma EnrolledIsIdle(b: Book, s: Step, steps: seq<Step>)
    requires s.Register? && Accepts(b, s)
    ensures Enact(Enacted(Enact(b, s), steps), s) == Enacted(Enact(b, s), steps)
  {
    var after := Enact(b, s);
    RegistryAdvances(after, steps);
    assert s.key in after.operations && after.operations[s.key] == Stamp(s.action, false);
  }

  lemma SeededIsIdle(b: Book, s: Step, steps: seq<Step>)
    requires s.Seed? && Accepts(b, s)
    ensures Enact(Enacted(Enact(b, s), steps), s) == Enacted(Enact(b, s), steps)
  {
    var after := Enact(b, s);
    RegistryAdvances(after, steps);
    assert Offline(s.operation) in after.operations
           && after.operations[Offline(s.operation)].action == Install(s.definition, s.config);
  }

  /** Repeating an accepted registration, uninstall or offline import later changes nothing, whatever
      ran in between. */
  lemma RepetitionIsIdle(b: Book, s: Step, steps: seq<Step>)
    requires Accepts(b, s)
    ensures var later := Enacted(Enact(b, s), steps); Enact(later, s) == later
  {
    hide Accepts, Enact, Enacted;
    if s.Register? { EnrolledIsIdle(b, s, steps); } else { SeededIsIdle(b, s, steps); }
  }

  // ----- what one operation changes -----

  /** `next` may stand in the place of `cur`: it advances it, and what it repeats it repeats unchanged. */
  ghost predicate MayFollow(cur: Config, next: Config) {
    && Advances(cur, next)
    && (cur.active && cur.identity == next.identity && Policy(cur) == Policy(next) ==>
          && cur.enforcer == next.enforcer && cur.level == next.level && cur.modes == next.modes
          && cur.retention == next.retention && (Text(cur) == Text(next) ==> cur == next))
  }

  lemma ReviseIs(cur: Config, next: Config)
    ensures Revise(cur, next).Ok? <==> MayFollow(cur, next)
  {
  }

  /** A first registration is accepted exactly if the definition is well-formed, installed and may follow the
      one it replaces; it replaces that one alone. */
  lemma InstallInstalls(b: Book, installed: Config -> Option<Status>, removable: (string, string) -> bool,
                        key: OperationKey, d: string, config: Config)
    requires key !in b.operations
    ensures var r, next := Enroll(b, installed, removable, key, Install(d, config)), config.(active := true);
            && (r.Ok? <==>
                  && WellFormed(next) && installed(next).None?
                  && (d in b.definitions ==> MayFollow(b.definitions[d], next))
                  && |b.definitions.Keys + {d}| <= 2048 && |b.operations| < 8192)
            && (r.Ok? ==>
                  r.value == Book(b.definitions[d := next], b.operations[key := Stamp(Install(d, config), false)],
                                  b.revision + 1))
  {
    hide WellFormed, MayFollow, Revise, Put;
    var next := config.(active := true);
    if d in b.definitions { ReviseIs(b.definitions[d], next); }
    PutPuts(b, key, Install(d, config), d, next);
  }

  lemma PutPuts(b: Book, key: OperationKey, action: Action, d: string, next: Config)
    requires key !in b.operations
    ensures var r := Put(b, key, action, b.definitions[d := next]);
            && (r.Ok? <==> |b.definitions.Keys + {d}| <= 2048 && |b.operations| < 8192)
            && (r.Ok? ==>
                  r.value == Book(b.definitions[d := next], b.operations[key := Stamp(action, false)], b.revision + 1))
  {
    KeysAre(b.definitions, d, next);
    KeysAre(b.operations, key, Stamp(action, false));
  }

  lemma KeysAre<K, V>(m: map<K, V>, k: K, v: V)
    ensures |m[k := v]| == |m.Keys + {k}|
  {
    assert m[k := v].Keys == m.Keys + {k};
  }

  /** A first uninstall is accepted exactly if the package authority confirms the generation and every active
      definition of the package is of it; it deactivates those of the package, and no other. */
  lemma UninstallDeactivates(b: Book, installed: Config -> Option<Status>, removable: (string, string) -> bool,
                             key: OperationKey, package: string, generation: string)
    requires key !in b.operations
    ensures var r := Enroll(b, installed, removable, key, Uninstall(package, generation));
            && (r.Ok? <==>
                  && generation != "" && removable(package, generation)
                  && (forall d :: d in b.definitions && b.definitions[d].package == package && b.definitions[d].active
                        ==> b.definitions[d].identity == generation)
                  && |b.definitions| <= 2048 && |b.operations| < 8192)
            && (r.Ok? ==>
                  && r.value.operations == b.operations[key := Stamp(Uninstall(package, generation), false)]
                  && r.value.revision == b.revision + 1 && r.value.definitions.Keys == b.definitions.Keys
                  && forall d :: d in b.definitions ==>
                       var c := b.definitions[d];
                       r.value.definitions[d] == if c.package == package then c.(active := false) else c)
  {
    assert Deactivated(b.definitions, package).Keys == b.definitions.Keys;
    KeysAre(b.operations, key, Stamp(Uninstall(package, generation), false));
    assert |Deactivated(b.definitions, package)| == |b.definitions| by {
      SameKeys(Deactivated(b.definitions, package), b.definitions);
    }
  }

  lemma SameKeys<K, V>(m: map<K, V>, n: map<K, V>)
    requires m.Keys == n.Keys
    ensures |m| == |n|
  {
    assert |m| == |m.Keys| && |n| == |n.Keys|;
  }

  /** The seed is of the generation retained, and that was removed since or is newer. */
  ghost predicate Outdone(b: Book, d: string, seed: Config) {
    && d in b.definitions && b.definitions[d].identity == seed.identity
    && var cur := b.definitions[d];
       || !cur.active
       || (Policy(cur) >= Policy(seed) && Text(cur) >= Text(seed)
           && (Policy(cur), Text(cur)) != (Policy(seed), Text(seed)))
  }

  /** A first offline import leaves the definitions alone exactly if the seed is outdone, and otherwise installs
      it like a registration. */
  lemma ImportSeeds(b: Book, installed: Config -> Option<Status>, operation: string, d: string, config: Config)
    requires Offline(operation) !in b.operations
    ensures var r, seed := Import(b, installed, operation, d, config), config.(active := true);
            r.Ok? ==>
              && (r.value.1 <==> Outdone(b, d, seed)) && WellFormed(seed) && installed(seed).None?
              && (d in b.definitions ==>
                    b.definitions[d].package == seed.package && b.definitions[d].app == seed.app)
              && r.value.0 == Book(if r.value.1 then b.definitions else b.definitions[d := seed],
                                   b.operations[Offline(operation) := Stamp(Install(d, config), r.value.1)],
                                   b.revision + 1)
  {
    hide WellFormed, Obsolete, Outdone, Enroll, MayFollow;
    ObsoleteIs(b, d, config.(active := true));
    InstallInstalls(b, installed, (p, g) => false, Offline(operation), d, config);
    if d in b.definitions { FollowsOwner(b.definitions[d], config.(active := true)); }
  }

  lemma FollowsOwner(cur: Config, next: Config)
    ensures MayFollow(cur, next) ==> cur.package == next.package && cur.app == next.app
  {
  }

  lemma ObsoleteIs(b: Book, d: string, seed: Config)
    ensures var r := Obsolete(b, d, seed);
            r.Ok? ==>
              && (r.value <==> Outdone(b, d, seed))
              && (d in b.definitions ==> b.definitions[d].package == seed.package && b.definitions[d].app == seed.app)
  {
    hide Policy, Text;
  }

  // ----- the offline screening against the later revision checks -----

  /** The two seeds write the same revision numbers in the same way. */
  predicate SameSpelling(a: Config, b: Config) {
    a.policyVersion == b.policyVersion && a.textRevision == b.textRevision
  }

  /** A seed of the same generation that the screening judged neither obsolete nor conflicting
      passes the later revision checks exactly when equal revisions are also spelled alike. */
  lemma ScreenedSeedAdvances(b: Book, d: string, seed: Config)
    requires d in b.definitions && b.definitions[d].active && b.definitions[d].identity == seed.identity
    requires seed.active
    requires Obsolete(b, d, seed) == Ok(false)
    ensures Revise(b.definitions[d], seed).Ok?
            <==> (Policy(b.definitions[d]) == Policy(seed) && Text(b.definitions[d]) == Text(seed) ==>
                    SameSpelling(b.definitions[d], seed))
  {
  }

  const NOTHING := Book(map[], map[], 0)

  const SAMPLE := Config("p", "a", "i", "e", "1", "1", "1", [PERSISTENT], None, map[],
                         map["default_locale" := "en", "message.en.title" := "t", "message.en.body" := "b"], true)

  const REGISTER := Register(Online("k"), Install("d", SAMPLE), _ => None, (_, _) => true)

  const REGISTERED := Book(map["d" := SAMPLE], map[Online("k") := Stamp(Install("d", SAMPLE), false)], 1)

  lemma SampleIsWellFormed()
    ensures WellFormed(SAMPLE)
  {
    assert Digits("1") && "1"[..0] == "";
    assert Decimal("1") == 1;
  }

  lemma SampleIsRegistered()
    ensures Enact(NOTHING, REGISTER) == REGISTERED
  {
    hide WellFormed;
    SampleIsWellFormed();
    assert SAMPLE.(active := true) == SAMPLE;
    assert map[]["d" := SAMPLE] == REGISTERED.definitions;
    assert map[][Online("k") := Stamp(Install("d", SAMPLE), false)] == REGISTERED.operations;
  }

  lemma SeedIsWellFormed(seed: Config)
    requires seed == SAMPLE.(policyVersion := "01")
    ensures WellFormed(seed) && Policy(seed) == Policy(SAMPLE) == 1 && Text(seed) == Text(SAMPLE)
  {
    SampleIsWellFormed();
    assert Decimal("1") == 1 by { assert "1"[..0] == ""; }
    assert Decimal("01") == 1 by { assert "01"[..1] == "0"; assert "0"[..0] == ""; }
  }

  /** From the empty registry, the screening lets a seed through that the later check refuses: revision
      "01" is revision "1", but the stored definition differs. */
  lemma LeadingZeroConflicts(operation: string)
    ensures exists steps: seq<Step>, d: string, seed: Config ::
      var b := Enacted(NOTHING, steps);
      && d in b.definitions && b.definitions[d].active && b.definitions[d].identity == seed.identity
      && WellFormed(seed) && seed.active
      && Obsolete(b, d, seed) == Ok(false)
      && Revise(b.definitions[d], seed) == Err(CONFLICT)
      && Import(b, _ => None, operation, d, seed) == Err(CONFLICT)
  {
    hide WellFormed, Policy, Text, Enact;
    var seed := SAMPLE.(policyVersion := "01");
    var steps := [REGISTER];
    SampleIsRegistered();
    SeedIsWellFormed(seed);
    assert steps[..0] == [];
    assert Enacted(NOTHING, []) == NOTHING;
    var b := Enacted(NOTHING, steps);
    assert b == REGISTERED;
    assert "01" != "1" by { assert |"01"| != |"1"|; }
    assert Obsolete(b, "d", seed) == Ok(false);
    assert Revise(b.definitions["d"], seed) == Err(CONFLICT);
    assert seed.(active := true) == seed;
    assert Import(b, _ => None, operation, "d", seed) == Err(CONFLICT);
  }
}
