/** What the ledger guarantees over every run of the daemon. */
module Guarantees {
  import opened Types
  import opened Ledger
  import opened Conditions
  import opened Operations
  import opened Daemon
  import opened Invariants
  import opened Preservation
  import opened Transactions
  import opened Verdicts
  import opened Runs
  import opened Progress
  import R = Registry

  // ----- what one step adds -----

  /** The receipts a step adds on a grant. */
  ghost function Linked(l: Ledger, m: Ledger, g: Id): set<Id> {
    set r | r in m.receipts && r !in l.receipts && g in m.receipts[r].sources
  }

  /** A ONCE grant loses exactly one use per receipt added on it, and starts with one. */
  ghost predicate Spends(l: Ledger, m: Ledger) {
    forall g :: g in m.grants && m.grants[g].mode.ONCE? ==>
      if g in l.grants then l.grants[g].remaining - m.grants[g].remaining == |Linked(l, m, g)|
      else m.grants[g].remaining == 1 && Linked(l, m, g) == {}
  }

  /** An artifact is resident when it is added. */
  ghost predicate Births(l: Ledger, m: Ledger) {
    forall x :: x in m.artifacts && x !in l.artifacts ==> m.artifacts[x].state.Active?
  }

  lemma CalmSpends(l: Ledger, m: Ledger)
    requires Calm(l, m)
    ensures Spends(l, m) && Births(l, m)
  {
    forall g ensures Linked(l, m, g) == {} {
    }
  }

  lemma ExecutesSpends(l: Ledger, m: Ledger)
    requires Executes(l, m) && Forward(l, m) && Inv(l)
    ensures Spends(l, m)
  {
    hide Inv;
    NamedGrants(l);
    forall g | g in m.grants && m.grants[g].mode.ONCE?
      ensures l.grants[g].remaining - m.grants[g].remaining == |Linked(l, m, g)|
    {
      assert GrantOn(l.grants[g], m.grants[g]);
      assert Linked(l, m, g) == if g in m.receipts[l.next].sources then {l.next} else {};
    }
  }

  lemma UnlinkedSpends(l: Ledger, m: Ledger)
    requires Issues(l, m) || Holds(l, m)
    ensures Spends(l, m)
  {
    forall g ensures Linked(l, m, g) == {} {
    }
  }

  lemma GrowsSpends(l: Ledger, m: Ledger)
    requires Inv(l) && Grows(l, m)
    ensures Spends(l, m) && Births(l, m)
  {
    hide Inv, Forward, Spends;
    if Calm(l, m) {
      CalmSpends(l, m);
    } else if Executes(l, m) {
      ExecutesSpends(l, m);
    } else {
      UnlinkedSpends(l, m);
    }
  }

  lemma CalmThenSpends(l: Ledger, k: Ledger, m: Ledger)
    requires Inv(l) && Onward(l, k) && Spends(k, m) && Forward(k, m)
    ensures Spends(l, m)
    ensures Births(k, m) ==> Births(l, m)
  {
    hide Inv, SessionsForward, ArtifactsForward, ReceiptsForward;
    NamedGrants(l);
    forall g ensures Linked(l, m, g) == Linked(k, m, g) {
    }
  }

  lemma SpendsThenRevokes(k: Ledger, m: Ledger, issued: set<Id>, request: Option<Id>)
    requires Spends(k, m) && Births(k, m)
    ensures Spends(k, Compensate(m, issued, request)) && Births(k, Compensate(m, issued, request))
  {
    var n := Compensate(m, issued, request);
    forall g ensures Linked(k, n, g) == Linked(k, m, g) {
    }
  }

  lemma TransactSpends(l: Ledger, book: R.Book, env: Env, peer: Peer, call: Call)
    requires Inv(l)
    ensures Spends(l, Transact(l, book, env, peer, call).db) && Births(l, Transact(l, book, env, peer, call).db)
  {
    hide Inv, Core, SameTable, Quiet, Forward, Calm, Executes, Issues, Holds, Expire, Dispatch, Compensate, Publish;
    hide Spends, Births;
    var swept := Expire(l, env.now);
    SweptKeeps(l, env.now);
    ExpireOn(l, env.now);
    CalmSpends(l, swept);
    var c := Dispatch(swept, env, peer, call);
    if c.Ok? {
      var m := c.value.db;
      DispatchOn(swept, env, peer, call);
      GrowsSpends(swept, m);
      CalmThenSpends(l, swept, m);
      SpendsThenRevokes(l, m, c.value.issued, c.value.request);
    }
  }

  lemma StepSpends(s: Repo, e: Stamped)
    requires Steady(s)
    ensures Spends(s.db, Step(s, e).0.db) && Births(s.db, Step(s, e).0.db)
  {
    hide Inv, Sound, Projects, Forward, Calm, Spends, Births, Replay, ResetRuntime, Expire, FenceProfiles, ClearAll;
    hide Transact, Ensure, R.Enact;
    if e.event.Invoke? && !s.halted {
      EnsureOn(s, e.env);
      EnsureKeeps(s, e.env);
      var t := Ensure(s, e.env);
      TransactSpends(t.db, t.book, e.env, e.event.peer, e.event.call);
      TransactOn(t.db, t.book, e.env, e.event.peer, e.event.call);
      CalmThenSpends(s.db, t.db, Transact(t.db, t.book, e.env, e.event.peer, e.event.call).db);
    } else {
      StepCalm(s, e);
      CalmSpends(s.db, Step(s, e).0.db);
    }
  }

  // ----- the states of a run -----

  /** The ledger of a fresh daemon after the first `j` steps of a run. */
  ghost function At(run: seq<Stamped>, j: nat): Ledger
    requires j <= |run|
  {
    After(FRESH, run[..j]).db
  }

  lemma AtSteady(run: seq<Stamped>, j: nat)
    requires j <= |run|
    ensures Steady(After(FRESH, run[..j])) && Inv(At(run, j))
  {
    hide Inv, Sound, Projects, After;
    FreshSteady();
    RunKeeps(FRESH, run[..j]);
  }

  lemma AtStep(run: seq<Stamped>, j: nat)
    requires j < |run|
    ensures At(run, j + 1) == Step(After(FRESH, run[..j]), run[j]).0.db
  {
    hide Step;
    assert run[..j + 1][..j] == run[..j];
  }

  lemma {:induction false} Later(run: seq<Stamped>, i: nat, j: nat)
    requires i <= j <= |run|
    ensures Forward(At(run, i), At(run, j))
  {
    hide Forward, After, Step, Steady;
    if i == j {
      ForwardSame(At(run, i));
    } else {
      Later(run, i, j - 1);
      AtSteady(run, j - 1);
      AtStep(run, j - 1);
      StepOn(After(FRESH, run[..j - 1]), run[j - 1]);
      ForwardTransitive(At(run, i), At(run, j - 1), At(run, j));
    }
  }

  // ----- artifacts and their sources -----

  /** A path of the derivation graph, from a descendant to an ancestor. */
  ghost predicate Chain(artifacts: map<Id, Artifact>, path: seq<Id>) {
    && path != [] && path[0] in artifacts
    && forall i :: 0 <= i < |path| - 1 ==> path[i] in artifacts && path[i + 1] in artifacts[path[i]].parents
  }

  lemma {:induction false} ChainInherits(artifacts: map<Id, Artifact>, path: seq<Id>)
    requires Derived(artifacts) && Chain(artifacts, path)
    ensures path[|path| - 1] in artifacts
    ensures Inherits(artifacts[path[0]], artifacts[path[|path| - 1]])
    ensures |path| > 1 ==> path[|path| - 1] < path[0]
  {
    if |path| > 1 {
      var rest := path[..|path| - 1];
      ChainInherits(artifacts, rest);
      assert Child(artifacts, path[|path| - 2], path[|path| - 1]);
      assert Follows(artifacts, path[|path| - 2], path[|path| - 1]);
    }
  }

  lemma DerivedOf(l: Ledger)
    requires Inv(l)
    ensures Derived(l.artifacts)
  {
  }

  /** In every reachable state the derivation graph is acyclic, and a descendant at any distance
      expires no later, has no lower level and no fewer source grants than its ancestor. */
  lemma LineageHolds(run: seq<Stamped>, path: seq<Id>)
    requires Chain(At(run, |run|).artifacts, path)
    ensures var artifacts := At(run, |run|).artifacts;
            var c, p := path[0], path[|path| - 1];
            && p in artifacts
            && (|path| > 1 ==> c != p)
            && artifacts[c].expires <= artifacts[p].expires
            && artifacts[c].level >= artifacts[p].level
            && artifacts[c].sources >= artifacts[p].sources
  {
    hide After, Steady, Inv, Derived;
    AtSteady(run, |run|);
    DerivedOf(At(run, |run|));
    ChainInherits(At(run, |run|).artifacts, path);
  }

  /** In every reachable state no source grant of a resident artifact, its own or that of any
      ancestor, is revoked or gone. */
  lemma NoResidentOnRevokedGrant(run: seq<Stamped>, path: seq<Id>, g: Id)
    requires var l := At(run, |run|);
             Chain(l.artifacts, path) && l.artifacts[path[0]].state.Active?
             && path[|path| - 1] in l.artifacts && g in l.artifacts[path[|path| - 1]].sources
    ensures var l := At(run, |run|); g in l.grants && !l.grants[g].revoked
  {
    hide After, Steady, Inv, Derived;
    AtSteady(run, |run|);
    LineageHolds(run, path);
    CleanOf(At(run, |run|));
    assert g in At(run, |run|).artifacts[path[0]].sources;
  }

  // ----- retention -----

  /** Artifact `a` was resident after step `k`. */
  ghost predicate ResidentAt(run: seq<Stamped>, k: nat, a: Id) {
    k <= |run| && a in At(run, k).artifacts && At(run, k).artifacts[a].state.Active?
  }

  lemma {:induction false} OnceResident(run: seq<Stamped>, j: nat, a: Id) returns (k: nat)
    requires j <= |run| && a in At(run, j).artifacts
    ensures k <= j && ResidentAt(run, k, a)
  {
    hide Step, Steady, Births, Spends;
    if j == 0 {
      NothingYet(run, a);
      assert false;
    } else {
      AtSteady(run, j - 1);
      AtStep(run, j - 1);
      StepSpends(After(FRESH, run[..j - 1]), run[j - 1]);
      if a in At(run, j - 1).artifacts {
        k := OnceResident(run, j - 1, a);
      } else {
        BornActive(At(run, j - 1), At(run, j), a);
        k := j;
      }
    }
  }

  lemma NothingYet(run: seq<Stamped>, a: Id)
    ensures a !in At(run, 0).artifacts
  {
    hide Step;
    assert run[..0] == [];
  }

  lemma BornActive(l: Ledger, m: Ledger, a: Id)
    requires Births(l, m) && a in m.artifacts && a !in l.artifacts
    ensures m.artifacts[a].state.Active?
  {
  }

  /** The retention that some requirement of receipt `r` had after step `k`. */
  ghost predicate Grants(run: seq<Stamped>, k: nat, r: Id, retention: nat) {
    && k <= |run| && r in At(run, k).receipts
    && exists i :: At(run, k).receipts[r].payload.Some? && 0 <= i < |At(run, k).receipts[r].payload.value.requirements|
         && var d := At(run, k).receipts[r].payload.value.requirements[i].definition;
            d in At(run, k).definitions && retention == Retention(At(run, k).definitions[d])
  }

  lemma RootedAt(l: Ledger, a: Id) returns (retention: nat)
    requires Inv(l) && a in l.artifacts && l.artifacts[a].state.Active? && l.artifacts[a].receipt.Some?
    ensures var r := l.artifacts[a].receipt.value;
            && r in l.receipts && l.artifacts[a].expires == l.receipts[r].created + retention
            && exists i :: l.receipts[r].payload.Some? && 0 <= i < |l.receipts[r].payload.value.requirements|
                 && var d := l.receipts[r].payload.value.requirements[i].definition;
                    d in l.definitions && retention == Retention(l.definitions[d])
  {
    hide Named, Unique, Indexed, Homed, Clean, Held, Backed, Spent, Lawful, Counted, Derived, Placed, Sound;
    hide Settled, Retention;
    var r := l.artifacts[a].receipt.value;
    assert Root(l.artifacts[a], l.receipts[r], l.definitions);
    var p := l.receipts[r].payload.value;
    var i :| 0 <= i < |p.requirements| && p.requirements[i].definition in l.definitions
             && l.artifacts[a].expires ==
                l.receipts[r].created + Retention(l.definitions[p.requirements[i].definition]);
    retention := Retention(l.definitions[p.requirements[i].definition]);
  }

  /** No chain of derivations or repeated registrations keeps anything longer than one retention
      period, as it stood when the original was registered, after the receipt was created. */
  lemma RetentionIsBounded(run: seq<Stamped>, path: seq<Id>, r: Id)
    requires var artifacts := At(run, |run|).artifacts;
             Chain(artifacts, path) && path[|path| - 1] in artifacts && artifacts[path[|path| - 1]].receipt == Some(r)
    ensures var l := At(run, |run|);
            r in l.receipts
            && exists k, retention :: Grants(run, k, r, retention)
                && l.artifacts[path[0]].expires <= l.receipts[r].created + retention
  {
    hide After, Steady, Inv, Derived, Forward, ArtifactsForward, ReceiptsForward;
    var l := At(run, |run|);
    var a := path[|path| - 1];
    LineageHolds(run, path);
    var k := OnceResident(run, |run|, a);
    AtSteady(run, k);
    Later(run, k, |run|);
    KeptArtifact(At(run, k), l, a);
    var retention := RootedAt(At(run, k), a);
    KeptReceipt(At(run, k), l, r);
    assert Grants(run, k, r, retention);
  }

  lemma KeptArtifact(l: Ledger, m: Ledger, a: Id)
    requires Forward(l, m) && a in l.artifacts
    ensures a in m.artifacts && ArtifactOn(l.artifacts[a], m.artifacts[a])
  {
  }

  lemma KeptReceipt(l: Ledger, m: Ledger, r: Id)
    requires Forward(l, m) && r in l.receipts
    ensures r in m.receipts && ReceiptOn(l.receipts[r], m.receipts[r])
  {
  }

  // ----- executions and ONCE grants -----

  /** How many receipts the first `j` steps of a run added on a grant. */
  ghost function Links(run: seq<Stamped>, j: nat, g: Id): nat
    requires j <= |run|
  {
    if j == 0 then 0 else Links(run, j - 1, g) + |Linked(At(run, j - 1), At(run, j), g)|
  }

  /** New receipts only name grants that are there. */
  lemma LinkedAreGrants(l: Ledger, m: Ledger, g: Id)
    requires Inv(m) && g !in m.grants
    ensures Linked(l, m, g) == {}
  {
    hide Named, Unique, Indexed, Homed, Clean, Held, Backed, Lawful, Counted, Derived, Placed, Sound, Settled, Rooted;
  }

  lemma {:induction false} NoLinksYet(run: seq<Stamped>, j: nat, g: Id)
    requires j <= |run| && g >= At(run, j).next
    ensures Links(run, j, g) == 0
  {
    hide After, Step, Steady, Inv, SessionsForward, ArtifactsForward, ReceiptsForward, GrantsForward;
    if j != 0 {
      Later(run, j - 1, j);
      NoLinksYet(run, j - 1, g);
      AtSteady(run, j);
      NamedGrants(At(run, j));
      LinkedAreGrants(At(run, j - 1), At(run, j), g);
    }
  }

  lemma KeptGrant(l: Ledger, m: Ledger, g: Id)
    requires Inv(l) && Forward(l, m) && g in l.grants && g in m.grants
    ensures GrantOn(l.grants[g], m.grants[g])
  {
    hide Inv;
    NamedGrants(l);
  }

  lemma StepSpendsAt(run: seq<Stamped>, j: nat)
    requires j < |run|
    ensures Spends(At(run, j), At(run, j + 1))
  {
    hide After, Step, Steady, Spends, Births;
    AtSteady(run, j);
    AtStep(run, j);
    StepSpends(After(FRESH, run[..j]), run[j]);
  }

  lemma CountedOf(l: Ledger, g: Id)
    requires Inv(l) && g in l.grants && l.grants[g].mode.ONCE?
    ensures 0 <= l.grants[g].remaining <= 1
  {
  }

  /** Over every run, the receipts ever added on a ONCE grant are exactly the uses it no longer
      has; so there is at most one, also after the grant itself was cleared. */
  lemma {:induction false} OnceBacksOneReceipt(run: seq<Stamped>, i: nat, j: nat, g: Id)
    requires i <= j <= |run|
    requires g in At(run, i).grants && At(run, i).grants[g].mode.ONCE?
    ensures Links(run, j, g) <= 1
    ensures g in At(run, j).grants ==> Links(run, j, g) == 1 - At(run, j).grants[g].remaining
    decreases j
  {
    hide After, Step, Steady, Inv, Forward;
    AtSteady(run, i);
    AtSteady(run, j);
    if j == 0 {
      NoGrantsYet(run, g);
      assert false;
    } else {
      var l, m := At(run, j - 1), At(run, j);
      AtSteady(run, j - 1);
      StepSpendsAt(run, j - 1);
      Later(run, j - 1, j);
      if g in m.grants { CountedLater(run, i, j, g); }
      if i < j {
        OnceBacksOneReceipt(run, i, j - 1, g);
        if g in m.grants {
          GrantWasThere(run, i, j - 1, j, g);
        } else {
          LinkedAreGrants(l, m, g);
        }
      } else if g in l.grants {
        KeptGrant(l, m, g);
        OnceBacksOneReceipt(run, j - 1, j - 1, g);
      } else {
        NewName(l, m, g);
        NoLinksYet(run, j - 1, g);
      }
    }
  }

  lemma NoGrantsYet(run: seq<Stamped>, g: Id)
    ensures g !in At(run, 0).grants
  {
    hide Step;
    assert run[..0] == [];
  }

  lemma NewName(l: Ledger, m: Ledger, g: Id)
    requires Forward(l, m) && g in m.grants && g !in l.grants
    ensures g >= l.next
  {
  }

  lemma CountedLater(run: seq<Stamped>, i: nat, j: nat, g: Id)
    requires i <= j <= |run|
    requires g in At(run, i).grants && At(run, i).grants[g].mode.ONCE? && g in At(run, j).grants
    ensures At(run, j).grants[g].mode.ONCE? && 0 <= At(run, j).grants[g].remaining <= 1
  {
    hide After, Step, Steady, Inv, Forward;
    AtSteady(run, i);
    AtSteady(run, j);
    Later(run, i, j);
    KeptGrant(At(run, i), At(run, j), g);
    CountedOf(At(run, j), g);
  }

  lemma GrantWasThere(run: seq<Stamped>, i: nat, k: nat, j: nat, g: Id)
    requires i <= k <= j <= |run|
    requires g in At(run, i).grants && g in At(run, j).grants
    ensures g in At(run, k).grants
  {
    hide After, Step, Steady, Inv, SessionsForward, ArtifactsForward, ReceiptsForward;
    AtSteady(run, i);
    NamedGrants(At(run, i));
    Later(run, i, k);
    Later(run, k, j);
  }

  /** An (enforcer, operation, step) that has a receipt has that receipt, and no other, forever. */
  lemma ExecutionKeepsReceipt(run: seq<Stamped>, i: nat, j: nat, e: Execution, r: Id)
    requires i <= j <= |run| && e in At(run, i).executions && r in At(run, j).receipts
    ensures e in At(run, j).executions && At(run, j).executions[e] == At(run, i).executions[e]
    ensures At(run, j).receipts[r].execution == e <==> r == At(run, i).executions[e]
  {
    hide After, Step, Steady, SessionsForward, ArtifactsForward, ReceiptsForward, GrantsForward;
    hide Named, Indexed, Homed, Clean, Held, Backed, Spent, Lawful, Counted, Derived, Rooted, Placed, Sound, Settled;
    AtSteady(run, j);
    Later(run, i, j);
  }

  /** Every requirement of a valid receipt has an active definition. */
  lemma ValidDefinitions(l: Ledger, r: Id, i: nat)
    requires Inv(l) && r in l.receipts && l.receipts[r].valid && l.receipts[r].payload.Some?
    requires i < |l.receipts[r].payload.value.requirements|
    ensures Definition(l.definitions, l.receipts[r].payload.value.requirements[i].definition).Ok?
  {
    hide Named, Unique, Indexed, Homed, Clean, Held, Spent, Lawful, Counted, Derived, Rooted, Placed, Sound, Settled;
    var d := l.receipts[r].payload.value.requirements[i].definition;
    assert Backs(l.receipts[r].sources, l.grants, d);
    var g :| g in l.receipts[r].sources && g in l.grants && l.grants[g].key.definition == d;
  }

  /** Screening a payload lets the loop over the same requirements of a receipt run through. */
  lemma {:induction false} ScreenedRows(l: Ledger, env: Env, p: Payload, n: nat)
    requires n <= |p.requirements| && Screen(l, env, p, n).Ok?
    requires forall i :: 0 <= i < n ==> Definition(l.definitions, p.requirements[i].definition).Ok?
    ensures ReceiptRows(l, env, p, n).Ok?
  {
    if n != 0 {
      ScreenedRows(l, env, p, n - 1);
    }
  }

  lemma {:induction false} ScreenSame(l: Ledger, env: Env, p: Payload, q: Payload, n: nat)
    requires p.requirements == q.requirements && n <= |p.requirements|
    ensures Screen(l, env, p, n) == Screen(l, env, q, n)
  {
    if n != 0 {
      ScreenSame(l, env, p, q, n - 1);
    }
  }

  lemma ScreenedReceipt(l: Ledger, env: Env, r: Id)
    requires Inv(l) && r in l.receipts
    requires Screen(l, env, l.receipts[r].fingerprint, |l.receipts[r].fingerprint.requirements|).Ok?
    ensures ReceiptValid(l, env, r).Ok?
  {
    hide Named, Indexed, Homed, Clean, Held, Backed, Spent, Lawful, Counted, Derived, Rooted, Placed, Sound;
    hide Settled, ReceiptRows, Screen, Definition;
    if l.receipts[r].valid && l.receipts[r].payload.Some? {
      var p := l.receipts[r].payload.value;
      assert p == l.receipts[r].fingerprint;
      forall i | 0 <= i < |p.requirements| ensures Definition(l.definitions, p.requirements[i].definition).Ok? {
        ValidDefinitions(l, r, i);
      }
      ScreenedRows(l, env, p, |p.requirements|);
    }
  }

  lemma PreflightScreens(l: Ledger, env: Env, peer: Peer, p: Payload)
    requires Preflight(l, env, peer, p, Authorize).Ok?
    ensures Screen(l, env, p, |p.requirements|).Ok?
  {
    hide Screen, ActiveSession, Context, ApprovalWellFormed, Answerable, Identifier;
  }

  /** A retry that passes the checks made before any lookup is answered by the stored receipt
      alone: its name while it is valid, CONFLICT for another payload, and otherwise ESTALE.
      Nothing is consumed or written. */
  lemma RetryAnswersFromReceipt(l: Ledger, env: Env, peer: Peer, p: Payload)
    requires Inv(l) && Preflight(l, env, peer, p, Authorize).Ok?
    requires Execution(peer.identity, p.operation, p.step) in l.executions
    ensures var r := l.executions[Execution(peer.identity, p.operation, p.step)];
            r in l.receipts
            && Evaluate(l, env, peer, p, Authorize) ==
                 if l.receipts[r].fingerprint != Fingerprint(p, Authorize) then Err(CONFLICT)
                 else if ReceiptValid(l, env, r) == Ok(true) then Ok(Guarded(l, Repeated(r)))
                 else Err(ESTALE)
  {
    hide Named, Indexed, Homed, Clean, Held, Backed, Spent, Lawful, Counted, Derived, Rooted, Placed, Sound, Settled;
    hide Preflight, ReceiptValid, Screen, AuthorizeAnew;
    var r := l.executions[Execution(peer.identity, p.operation, p.step)];
    var f := Fingerprint(p, Authorize);
    PreflightScreens(l, env, peer, p);
    if l.receipts[r].fingerprint == f {
      ScreenSame(l, env, p, f, |p.requirements|);
      ScreenedReceipt(l, env, r);
    }
  }

  // ----- definitions and grants -----

  /** A grant in force across a step keeps the definition it was given under. */
  ghost predicate Terms(l: Ledger, m: Ledger) {
    forall g :: g in l.grants && g in m.grants && !m.grants[g].revoked ==>
      var d := l.grants[g].key.definition;
      d in l.definitions && d in m.definitions && m.definitions[d] == l.definitions[d]
  }

  lemma SameTableTerms(l: Ledger, m: Ledger)
    requires Inv(l) && Forward(l, m) && SameTable(l, m)
    ensures Terms(l, m)
  {
    hide Unique, Indexed, Homed, Clean, Held, Backed, Spent, Counted, Derived, Rooted, Placed, Sound, Settled;
    forall g | g in l.grants && g in m.grants && !m.grants[g].revoked
      ensures l.grants[g].key.definition in l.definitions
    {
      assert GrantOn(l.grants[g], m.grants[g]);
    }
  }

  lemma ReplayTerms(l: Ledger, book: R.Book, installed: (string, string, string) -> bool)
    requires Inv(l)
    ensures Terms(l, Replay(l, book, installed))
  {
    hide Named, Unique, Indexed, Homed, Clean, Held, Backed, Spent, Counted, Derived, Rooted, Placed, Sound, Settled;
    hide InvalidateSet, BlockSet, FinalizeSet, ReceiptsOn, ArtifactsOn, PendingOnAny;
  }

  lemma TermsTransitive(l: Ledger, m: Ledger, n: Ledger)
    requires Inv(l) && Forward(l, m) && Forward(m, n) && Terms(l, m) && Terms(m, n)
    ensures Terms(l, n)
  {
    hide Inv, SessionsForward, ArtifactsForward, ReceiptsForward;
    NamedGrants(l);
    forall g | g in l.grants && g in n.grants && !n.grants[g].revoked
      ensures var d := l.grants[g].key.definition;
              d in l.definitions && d in n.definitions && n.definitions[d] == l.definitions[d]
    {
      assert GrantOn(m.grants[g], n.grants[g]) && GrantOn(l.grants[g], m.grants[g]);
    }
  }

  lemma EnsureTerms(s: Repo, env: Env)
    requires Inv(s.db)
    ensures Terms(s.db, Ensure(s, env).db)
  {
    hide Inv, Forward, Replay, Terms;
    if s.fenced {
      ReplayTerms(s.db, s.book, env.installed);
    } else {
      ForwardSame(s.db);
      SameTableTerms(s.db, s.db);
    }
  }

  /** Across any ledger change behind a replay: the table is the replayed one. */
  lemma EnsuredTerms(s: Repo, env: Env, m: Ledger)
    requires Steady(s) && !s.halted && Forward(Ensure(s, env).db, m) && SameTable(Ensure(s, env).db, m)
    ensures Terms(s.db, m)
  {
    hide Inv, Sound, Projects, Forward, Calm, Terms, Ensure;
    EnsureKeeps(s, env);
    EnsureOn(s, env);
    EnsureTerms(s, env);
    SameTableTerms(Ensure(s, env).db, m);
    TermsTransitive(s.db, Ensure(s, env).db, m);
  }

  lemma StepTerms(s: Repo, e: Stamped)
    requires Steady(s)
    ensures Terms(s.db, Step(s, e).0.db)
  {
    hide Inv, Sound, Projects, Forward, Calm, Terms, Replay, ResetRuntime, Expire, FenceProfiles, ClearAll;
    hide Transact, Ensure, R.Enact;
    ForwardSame(s.db);
    SameTableTerms(s.db, s.db);
    if e.event.Restart? {
      var m := Replay(s.db, s.book, e.env.installed);
      ReplayTerms(s.db, s.book, e.env.installed);
      ReplayKeeps(s.db, s.book, e.env.installed);
      ReplayOn(s.db, s.book, e.env.installed);
      ResetOn(m);
      ResetTable(m);
      SameTableTerms(m, ResetRuntime(m));
      TermsTransitive(s.db, m, ResetRuntime(m));
    } else if !s.halted {
      var t := Ensure(s, e.env);
      EnsureKeeps(s, e.env);
      EnsureBook(s, e.env);
      EnsureOn(s, e.env);
      EnsureTerms(s, e.env);
      match e.event
      case Invoke(peer, call) =>
        TransactOn(t.db, t.book, e.env, peer, call);
        TransactTable(t.db, t.book, e.env, peer, call);
        EnsuredTerms(s, e.env, Transact(t.db, t.book, e.env, peer, call).db);
      case Enroll(step, crash) =>
        var u := t.(book := R.Enact(t.book, step), fenced := true);
        EnsureTerms(u, e.env);
        EnsureOn(u, e.env);
        TermsTransitive(s.db, t.db, Ensure(u, e.env).db);
      case Tick(records) =>
        TickTerms(s, e.env, records);
      case Maintain(records) =>
        ClearAllOn(t.db, records);
        ClearAllTable(t.db, records);
        EnsuredTerms(s, e.env, ClearAll(t.db, records));
      case Fence(bindings, all, user) =>
        FenceOn(t.db, bindings, all, user);
        EnsuredTerms(s, e.env, FenceProfiles(t.db, bindings, all, user));
    }
  }

  lemma TickTerms(s: Repo, env: Env, records: seq<Record>)
    requires Steady(s) && !s.halted
    ensures var t := Ensure(s, env);
            Terms(s.db, ClearAll(Expire(Replay(t.db, t.book, env.installed), env.now), records))
  {
    hide Inv, Sound, Projects, Forward, Calm, Terms, Replay, Expire, ClearAll, Ensure;
    EnsureKeeps(s, env);
    EnsureOn(s, env);
    EnsureTerms(s, env);
    var t := Ensure(s, env);
    var m := Replay(t.db, t.book, env.installed);
    ReplayKeeps(t.db, t.book, env.installed);
    ReplayOn(t.db, t.book, env.installed);
    ReplayTerms(t.db, t.book, env.installed);
    TermsTransitive(s.db, t.db, m);
    ForwardTransitive(s.db, t.db, m);
    var x := Expire(m, env.now);
    ExpireOn(m, env.now);
    ExpireTable(m, env.now);
    ClearAllOn(x, records);
    ClearAllTable(x, records);
    ForwardTransitive(m, x, ClearAll(x, records));
    SameTableTerms(m, ClearAll(x, records));
    TermsTransitive(s.db, m, ClearAll(x, records));
  }

  lemma {:induction false} TermsBetween(run: seq<Stamped>, i: nat, j: nat)
    requires i <= j <= |run|
    ensures Terms(At(run, i), At(run, j))
  {
    hide After, Step, Steady, Inv, Forward, Terms;
    AtSteady(run, i);
    if i == j {
      ForwardSame(At(run, i));
      SameTableTerms(At(run, i), At(run, i));
    } else {
      TermsBetween(run, i, j - 1);
      AtSteady(run, j - 1);
      AtStep(run, j - 1);
      StepTerms(After(FRESH, run[..j - 1]), run[j - 1]);
      Later(run, i, j - 1);
      Later(run, j - 1, j);
      TermsTransitive(At(run, i), At(run, j - 1), At(run, j));
    }
  }

  lemma LawfulOf(l: Ledger, g: Id)
    requires Inv(l) && g in l.grants && !l.grants[g].revoked
    ensures var k := l.grants[g].key;
            && Current(l.definitions, k) && l.grants[g].mode in l.definitions[k.definition].modes
            && R.WellFormed(l.definitions[k.definition])
  {
    hide Named, Unique, Indexed, Homed, Clean, Held, Backed, Spent, Counted, Derived, Rooted, Placed, Settled;
    hide R.WellFormed;
  }

  /** A grant in force stands, and has stood since it was issued, under exactly the configuration
      its definition has now; that definition is active, in the version the grant is bound to,
      and permits its mode, which on level 3 is ONCE. */
  lemma GrantsStandUnderTheirDefinition(run: seq<Stamped>, i: nat, j: nat, g: Id)
    requires i <= j <= |run| && g in At(run, i).grants && g in At(run, j).grants && !At(run, j).grants[g].revoked
    ensures var d := At(run, j).grants[g].key.definition;
            && d in At(run, i).definitions && d in At(run, j).definitions
            && var c := At(run, j).definitions[d];
            && At(run, i).definitions[d] == c
            && c.active && c.policyVersion == At(run, j).grants[g].key.version
            && At(run, j).grants[g].mode in c.modes
            && (Decimal(c.level) == 3 ==> At(run, j).grants[g].mode.ONCE?)
  {
    hide After, Step, Steady, Inv, Forward;
    AtSteady(run, i);
    AtSteady(run, j);
    Later(run, i, j);
    KeptGrant(At(run, i), At(run, j), g);
    TermsBetween(run, i, j);
    LawfulOf(At(run, j), g);
  }

  /** Where the ledger is not behind the registry, its table has the registry's definitions, each as
      registered or masked; and right after a step that replays, exactly those the authority of
      that step does not vouch for are masked. */
  lemma TableFollowsRegistry(run: seq<Stamped>, e: Stamped)
    ensures var s := After(FRESH, run);
            && (!s.fenced ==> Projects(s.db.definitions, s.book.definitions))
            && ((!s.halted && e.event.Tick?) || e.event.Restart? ==>
                  var t := Step(s, e).0;
                  t.db.definitions == Mask(t.book.definitions, e.env.installed) && t.db.applied == t.book.revision)
  {
    hide After, Inv, Sound, Projects, Replay, ResetRuntime, Expire, ClearAll, Ensure, Mask;
    var s := After(FRESH, run);
    FreshSteady();
    RunKeeps(FRESH, run);
    if e.event.Restart? {
      ReplayProjects(s.db, s.book, e.env.installed);
      ResetTable(Replay(s.db, s.book, e.env.installed));
    } else if !s.halted && e.event.Tick? {
      EnsureKeeps(s, e.env);
      EnsureBook(s, e.env);
      var t := Ensure(s, e.env);
      var m := Replay(t.db, t.book, e.env.installed);
      ReplayProjects(t.db, t.book, e.env.installed);
      ExpireTable(m, e.env.now);
      ClearAllTable(Expire(m, e.env.now), e.event.records);
    }
  }

  // ----- sessions -----

  lemma HomeOf(l: Ledger)
    requires Inv(l)
    ensures Homed(l.artifacts, l.sessions) && Settled(l.artifacts, l.sessions)
  {
  }

  /** In every reachable state a resident artifact is in an open or suspended session, a closed
      session has only deleted artifacts, and a closing one still has an undeleted one. */
  lemma SessionsAndArtifacts(run: seq<Stamped>, x: Id, s: Id)
    requires var l := At(run, |run|); x in l.artifacts && s in l.sessions
    ensures var l := At(run, |run|);
            && l.artifacts[x].session in l.sessions
            && (l.artifacts[x].state.Active? ==> Live(l.sessions[l.artifacts[x].session]))
            && (l.sessions[s].state.Closed? && l.artifacts[x].session == s ==> l.artifacts[x].state.Deleted?)
            && (l.sessions[s].state.Closing? ==> HasUndeleted(l.artifacts, s))
  {
    hide After, Step, Steady, Inv, HasUndeleted;
    AtSteady(run, |run|);
    HomeOf(At(run, |run|));
  }

  lemma KeptSession(l: Ledger, m: Ledger, s: Id)
    requires Forward(l, m) && s in l.sessions
    ensures s in m.sessions && SessionOn(l.sessions[s], m.sessions[s])
  {
  }

  /** DELETED and CLOSED are final, and so are the context of a session and the terms of an artifact. */
  lemma EndsAreFinal(run: seq<Stamped>, i: nat, j: nat, x: Id, s: Id)
    requires i <= j <= |run| && x in At(run, i).artifacts && s in At(run, i).sessions
    ensures x in At(run, j).artifacts && s in At(run, j).sessions
    ensures At(run, i).artifacts[x].state.Deleted? ==> At(run, j).artifacts[x].state.Deleted?
    ensures !At(run, i).artifacts[x].state.Active? ==> !At(run, j).artifacts[x].state.Active?
    ensures At(run, i).sessions[s].state.Closed? ==> At(run, j).sessions[s].state.Closed?
    ensures !Live(At(run, i).sessions[s]) ==> !Live(At(run, j).sessions[s])
  {
    hide After, Step, Forward;
    Later(run, i, j);
    KeptArtifact(At(run, i), At(run, j), x);
    KeptSession(At(run, i), At(run, j), s);
  }

  lemma ActiveIsOpen(sessions: map<Id, SessionRow>, now: nat, peer: Peer, p: Payload)
    requires p.session.Some? && ActiveSession(sessions, now, peer, p).Ok?
    ensures p.session.value in sessions && sessions[p.session.value].state.Open?
            && sessions[p.session.value].generation == p.generation
  {
    hide Context;
  }

  /** Two successful active checks of one session with the same generation, by whatever peers:
      the session was open, in that generation, at every moment between them. */
  lemma SameGenerationMeansUninterrupted(run: seq<Stamped>, i: nat, k: nat, j: nat, p: Payload, q: Payload,
                                         t: nat, u: nat, first: Peer, second: Peer)
    requires i <= k <= j <= |run| && p.session.Some? && q.session == p.session && q.generation == p.generation
    requires ActiveSession(At(run, i).sessions, t, first, p).Ok? && ActiveSession(At(run, j).sessions, u, second, q).Ok?
    ensures var s := p.session.value;
            s in At(run, k).sessions && At(run, k).sessions[s].state.Open?
                && At(run, k).sessions[s].generation == p.generation
  {
    hide After, Step, Forward, ActiveSession;
    var s := p.session.value;
    ActiveIsOpen(At(run, i).sessions, t, first, p);
    ActiveIsOpen(At(run, j).sessions, u, second, q);
    Later(run, i, k);
    Later(run, k, j);
    KeptSession(At(run, i), At(run, k), s);
    KeptSession(At(run, k), At(run, j), s);
  }
}
