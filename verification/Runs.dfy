/** The invariants over every run of the repository. */
module Runs {
  import opened Types
  import opened Ledger
  import opened Conditions
  import opened Operations
  import opened Daemon
  import opened Invariants
  import opened Preservation
  import opened Transactions
  import R = Registry

  // ----- Replay -----

  lemma ReceiptRootsCaught(l: Ledger, gs: set<Id>)
    requires Core(l)
    ensures CatchesGrants(l.artifacts, gs, ArtifactsOn(l, gs))
    ensures CatchesReceipts(l.artifacts, ReceiptsOn(l, gs), ArtifactsOn(l, gs))
  {
    hide Homed, Clean, Held, Derived, Indexed, Backed, Spent, Lawful, Counted, Placed, Sound, Unique, Timed;
    forall a, g | a in l.artifacts && g in l.artifacts[a].sources && g in gs ensures a in ArtifactsOn(l, gs) {
      assert g in l.artifacts[a].sources * gs;
    }
    forall a | a in l.artifacts && l.artifacts[a].state.Active? && l.artifacts[a].receipt.Some?
        && l.artifacts[a].receipt.value in ReceiptsOn(l, gs)
      ensures a in ArtifactsOn(l, gs)
    {
      assert l.artifacts[a].sources == l.receipts[l.artifacts[a].receipt.value].sources;
    }
  }

  /** Nothing in force rests on a definition of `names`. */
  ghost predicate Untied(l: Ledger, names: set<string>) {
    && (forall g :: g in l.grants && l.grants[g].key.definition in names ==> l.grants[g].revoked)
    && (forall r, g :: r in l.receipts && l.receipts[r].valid && g in l.receipts[r].sources && g in l.grants
                       ==> l.grants[g].key.definition !in names)
  }

  ghost predicate SameOutside(a: map<string, Config>, b: map<string, Config>, names: set<string>) {
    forall d :: d in a && d !in names ==> d in b && b[d] == a[d]
  }

  lemma BackedElsewhere(l: Ledger, table: map<string, Config>, names: set<string>)
    requires Backed(l.receipts, l.grants, l.definitions) && Untied(l, names) && SameOutside(l.definitions, table, names)
    ensures Backed(l.receipts, l.grants, table)
  {
  }

  lemma LawfulElsewhere(l: Ledger, table: map<string, Config>, names: set<string>)
    requires Lawful(l.grants, l.definitions) && Untied(l, names) && SameOutside(l.definitions, table, names)
    ensures Lawful(l.grants, table)
  {
  }

  lemma TimedElsewhere(l: Ledger, a: Artifact, r: Id, table: map<string, Config>, names: set<string>)
    requires r in l.receipts && Root(a, l.receipts[r], l.definitions)
    requires Covered(l.receipts[r].payload.value, l.receipts[r].sources, l.grants)
    requires Untied(l, names) && SameOutside(l.definitions, table, names)
    ensures Root(a, l.receipts[r], table)
  {
    var p := l.receipts[r].payload.value;
    var i :| 0 <= i < |p.requirements| && p.requirements[i].definition in l.definitions
             && a.expires == l.receipts[r].created + Retention(l.definitions[p.requirements[i].definition]);
    assert Backs(l.receipts[r].sources, l.grants, p.requirements[i].definition);
    var g :| g in l.receipts[r].sources && g in l.grants && l.grants[g].key.definition == p.requirements[i].definition;
    assert table[p.requirements[i].definition] == l.definitions[p.requirements[i].definition];
  }

  lemma RootedElsewhere(l: Ledger, table: map<string, Config>, names: set<string>)
    requires Rooted(l.artifacts, l.receipts, l.definitions) && Backed(l.receipts, l.grants, l.definitions)
    requires Untied(l, names) && SameOutside(l.definitions, table, names)
    ensures Rooted(l.artifacts, l.receipts, table)
  {
    hide Root, Covered, Untied, SameOutside;
    forall a | a in l.artifacts && l.artifacts[a].state.Active? && l.artifacts[a].receipt.Some?
      ensures Root(l.artifacts[a], l.receipts[l.artifacts[a].receipt.value], table)
    {
      RootValid(l.artifacts[a], l.receipts[l.artifacts[a].receipt.value], l.definitions);
      TimedElsewhere(l, l.artifacts[a], l.artifacts[a].receipt.value, table, names);
    }
  }

  lemma RootValid(a: Artifact, r: Receipt, definitions: map<string, Config>)
    requires Root(a, r, definitions)
    ensures r.valid && r.payload.Some?
  {
  }

  lemma DefinitionsKeep(l: Ledger, table: map<string, Config>, names: set<string>)
    requires Core(l) && Untied(l, names) && SameOutside(l.definitions, table, names) && Sound(table)
    ensures Core(l.(definitions := table))
  {
    hide Homed, Clean, Held, Derived, Rooted, Indexed, Backed, Spent, Lawful, Counted, Placed, Sound, Unique;
    hide Untied, SameOutside;
    BackedElsewhere(l, table, names);
    LawfulElsewhere(l, table, names);
    RootedElsewhere(l, table, names);
  }

  lemma RedefinedUntied(l: Ledger, names: set<string>)
    ensures var gs := GrantsOfAny(l, names);
            Untied(Retire(l, gs, ReceiptsOn(l, gs), ArtifactsOn(l, gs)), names)
  {
    var gs := GrantsOfAny(l, names);
    var m := Retire(l, gs, ReceiptsOn(l, gs), ArtifactsOn(l, gs));
    forall r, g | r in m.receipts && m.receipts[r].valid && g in m.receipts[r].sources && g in m.grants
      ensures m.grants[g].key.definition !in names
    {
      assert r !in ReceiptsOn(l, gs);
      assert g !in l.receipts[r].sources * gs;
    }
  }

  lemma ReprojectSound(table: map<string, Config>, definitions: map<string, Config>, names: set<string>,
                       installed: (string, string, string) -> bool)
    requires names <= definitions.Keys && Sound(table) && Sound(definitions)
    ensures Sound(Reproject(table, definitions, names, installed))
    ensures SameOutside(table, Reproject(table, definitions, names, installed), names)
  {
  }

  lemma SoundOf(l: Ledger)
    requires Core(l)
    ensures Sound(l.definitions)
  {
  }

  lemma RedefineKeeps(l: Ledger, definitions: map<string, Config>, names: set<string>,
                      installed: (string, string, string) -> bool)
    requires Inv(l) && names <= definitions.Keys && Sound(definitions)
    ensures Inv(Redefine(l, definitions, names, installed))
  {
    hide Core, Settled, CatchesGrants, CatchesReceipts, Untied, SameOutside, Sound, RevokeSet, InvalidateSet;
    hide BlockSet, FinalizeSet, ReceiptsOn, ArtifactsOn, GrantsOfAny, PendingOnAny, Reproject;
    var gs := GrantsOfAny(l, names);
    var m := Retire(l, gs, ReceiptsOn(l, gs), ArtifactsOn(l, gs));
    var table := Reproject(l.definitions, definitions, names, installed);
    ReceiptRootsCaught(l, gs);
    RetireKeeps(l, gs, ReceiptsOn(l, gs), ArtifactsOn(l, gs));
    SettledBlock(l.artifacts, l.sessions, ArtifactsOn(l, gs));
    RedefinedUntied(l, names);
    SoundOf(l);
    ReprojectSound(l.definitions, definitions, names, installed);
    DefinitionsKeep(m, table, names);
    FinalizeNames(l, PendingOnAny(l, names), Invalidated);
    RequestsKeep(m.(definitions := table), FinalizeSet(l.requests, PendingOnAny(l, names), Invalidated), l.next);
  }

  lemma MarkedKeeps(l: Ledger, revision: nat, changed: bool)
    requires Inv(l)
    ensures Inv(Marked(l, revision, changed))
  {
    hide Homed, Clean, Held, Derived, Rooted, Indexed, Backed, Spent, Lawful, Counted, Placed, Sound, Unique, Settled;
  }

  lemma ReplayKeeps(l: Ledger, book: R.Book, installed: (string, string, string) -> bool)
    requires Inv(l) && Sound(book.definitions)
    ensures Inv(Replay(l, book, installed))
  {
    hide Inv, Sound, Redefine, Marked;
    RedefineKeeps(l, book.definitions, Changed(l, book.definitions, installed), installed);
    MarkedKeeps(Redefine(l, book.definitions, Changed(l, book.definitions, installed), installed), book.revision,
                Changed(l, book.definitions, installed) != {});
  }

  // ----- FenceProfiles, ResetRuntime and a compensation -----

  /** The sessions in `ids` end up not live; no row changes its context or leaves the table. */
  lemma {:induction false} CloseAllCloses(l: Ledger, ids: set<Id>, n: nat)
    ensures var m := CloseAll(l, ids, n);
            && m.sessions.Keys == l.sessions.Keys && m.next == l.next
            && forall s :: s in l.sessions ==>
                 && m.sessions[s].subject == l.sessions[s].subject && m.sessions[s].profile == l.sessions[s].profile
                 && (s in ids && s < n ==> !Live(m.sessions[s]))
                 && (Live(m.sessions[s]) ==> Live(l.sessions[s]))
  {
    hide RevokeSet, BlockSet, FinalizeSet, SessionGrants, ArtifactsIn, PendingIn;
    if n != 0 {
      CloseAllCloses(l, ids, n - 1);
    }
  }

  lemma RetiredBound(bindings: seq<Binding>, all: bool, user: string, subject: string, profile: string)
    ensures BoundTo(Retired(bindings, all, user), subject, profile) ==> BoundTo(bindings, subject, profile)
  {
    if bindings != [] {
      RetiredBound(bindings[1..], all, user, subject, profile);
      var rest := Retired(bindings[1..], all, user);
      var mine := Retired(bindings, all, user);
      if BoundTo(mine, subject, profile) {
        var i :| 0 <= i < |mine| && mine[i].subject == subject && mine[i].profile == profile;
        if mine == rest || i > 0 {
          assert mine == rest || mine[i] == rest[i - 1];
          assert BoundTo(rest, subject, profile);
          var j :| 0 <= j < |bindings[1..]| && bindings[1..][j].subject == subject
              && bindings[1..][j].profile == profile;
          assert bindings[j + 1].subject == subject;
        } else {
          assert mine[0] == bindings[0];
        }
      }
    }
  }

  /** No resident artifact is left in a session bound to a fenced profile. */
  ghost predicate Vacated(l: Ledger, bindings: seq<Binding>) {
    forall a :: a in l.artifacts && l.artifacts[a].state.Active? && l.artifacts[a].session in l.sessions ==>
      !BoundTo(bindings, l.sessions[l.artifacts[a].session].subject, l.sessions[l.artifacts[a].session].profile)
  }

  lemma ClosedVacates(l: Ledger, bindings: seq<Binding>)
    requires Core(l)
    ensures Vacated(CloseAll(l, SessionsOf(l, bindings), l.next), bindings)
  {
    hide Core, CloseAll, BoundTo;
    var ids := SessionsOf(l, bindings);
    var m := CloseAll(l, ids, l.next);
    CloseAllKeeps(l, ids, l.next);
    CloseAllCloses(l, ids, l.next);
    HomedOf(m);
    NamedSessions(l);
    forall a | a in m.artifacts && m.artifacts[a].state.Active?
      ensures !BoundTo(bindings, m.sessions[m.artifacts[a].session].subject, m.sessions[m.artifacts[a].session].profile)
    {
      var s := m.artifacts[a].session;
      assert Live(m.sessions[s]) && s in l.sessions && Live(l.sessions[s]);
      assert s !in ids;
    }
  }

  lemma HomedOf(l: Ledger)
    requires Core(l)
    ensures Homed(l.artifacts, l.sessions)
  {
  }

  lemma NamedSessions(l: Ledger)
    requires Core(l)
    ensures forall s :: s in l.sessions ==> s < l.next
  {
  }

  lemma VacatedGrants(m: Ledger, bindings: seq<Binding>, all: bool, user: string)
    requires Core(m) && Vacated(m, bindings)
    ensures CatchesGrants(m.artifacts, GrantsUnder(m, Retired(bindings, all, user)), {})
  {
    hide Derived, Indexed, Backed, Spent, Lawful, Counted, Placed, Sound, Unique, Rooted, Clean, BoundTo, Retired;
    forall a, g | a in m.artifacts && m.artifacts[a].state.Active? && g in m.artifacts[a].sources && g in m.grants
      ensures g !in GrantsUnder(m, Retired(bindings, all, user))
    {
      RetiredBound(bindings, all, user, m.grants[g].key.subject, m.grants[g].key.profile);
      assert Matches(m.sessions[m.artifacts[a].session], m.artifacts[a].session, m.grants[g]);
    }
  }

  lemma VacatedReceipts(m: Ledger, bindings: seq<Binding>)
    requires Core(m) && Vacated(m, bindings)
    ensures CatchesReceipts(m.artifacts, ReceiptsUnder(m, bindings), {})
  {
    hide Derived, Indexed, Backed, Spent, Lawful, Counted, Sound, Unique, Clean, Held, Timed, BoundTo;
    forall a | a in m.artifacts && m.artifacts[a].state.Active? && m.artifacts[a].receipt.Some?
      ensures m.artifacts[a].receipt.value !in ReceiptsUnder(m, bindings)
    {
      var r := m.artifacts[a].receipt.value;
      assert Root(m.artifacts[a], m.receipts[r], m.definitions);
    }
  }

  lemma BlockNone(artifacts: map<Id, Artifact>)
    ensures BlockSet(artifacts, {}) == artifacts
  {
  }

  lemma FencedCore(m: Ledger, bindings: seq<Binding>, all: bool, user: string)
    requires Core(m) && Vacated(m, bindings)
    ensures Core(m.(requests := FinalizeSet(m.requests, RequestsOf(m, bindings), Invalidated),
                    grants := RevokeSet(m.grants, GrantsUnder(m, Retired(bindings, all, user))),
                    receipts := InvalidateSet(m.receipts, ReceiptsUnder(m, bindings))))
  {
    hide Core, Vacated, CatchesGrants, CatchesReceipts, RevokeSet, InvalidateSet, BlockSet, FinalizeSet;
    hide GrantsUnder, ReceiptsUnder, RequestsOf, Retired;
    var gs, rs := GrantsUnder(m, Retired(bindings, all, user)), ReceiptsUnder(m, bindings);
    VacatedGrants(m, bindings, all, user);
    VacatedReceipts(m, bindings);
    RetireKeeps(m, gs, rs, {});
    BlockNone(m.artifacts);
    FinalizeNames(m, RequestsOf(m, bindings), Invalidated);
    RequestsKeep(Retire(m, gs, rs, {}), FinalizeSet(m.requests, RequestsOf(m, bindings), Invalidated), m.next);
  }

  lemma FenceKeeps(l: Ledger, bindings: seq<Binding>, all: bool, user: string)
    requires Inv(l)
    ensures Inv(FenceProfiles(l, bindings, all, user))
  {
    hide Core, Settled, CloseAll, Vacated, FinishCleanup, RevokeSet, InvalidateSet, FinalizeSet, GrantsUnder;
    hide ReceiptsUnder, RequestsOf, Retired, SessionsOf;
    var m := CloseAll(l, SessionsOf(l, bindings), l.next);
    CloseAllKeeps(l, SessionsOf(l, bindings), l.next);
    ClosedVacates(l, bindings);
    FencedCore(m, bindings, all, user);
    var n := m.(requests := FinalizeSet(m.requests, RequestsOf(m, bindings), Invalidated),
                grants := RevokeSet(m.grants, GrantsUnder(m, Retired(bindings, all, user))),
                receipts := InvalidateSet(m.receipts, ReceiptsUnder(m, bindings)));
    FinishCleanupKeeps(n);
    BumpKeeps(FinishCleanup(n));
  }

  lemma ResetFits(l: Ledger, gs: set<Id>)
    requires Core(l)
    ensures SessionsFit(Retire(l, gs, l.receipts.Keys, l.artifacts.Keys), CloseSet(l.sessions, LiveSessions(l)))
    ensures forall s :: s in CloseSet(l.sessions, LiveSessions(l)) ==> s < l.next
  {
    hide Derived, Indexed, Backed, Spent, Lawful, Counted, Sound, Unique, Clean, Held, Rooted, Placed, RevokeSet;
    hide InvalidateSet;
  }

  lemma AllCaught(artifacts: map<Id, Artifact>, gs: set<Id>, rs: set<Id>)
    ensures CatchesGrants(artifacts, gs, artifacts.Keys) && CatchesReceipts(artifacts, rs, artifacts.Keys)
  {
  }

  lemma QuiescedKeeps(l: Ledger)
    requires Core(l)
    ensures Core(Quiesced(l))
  {
    hide Core, SessionsFit, CatchesGrants, CatchesReceipts, RevokeSet, InvalidateSet, BlockSet, CloseSet;
    hide FinalizeSet, LiveSessions, PendingRequests, Temporary;
    AllCaught(l.artifacts, Temporary(l), l.receipts.Keys);
    RetireKeeps(l, Temporary(l), l.receipts.Keys, l.artifacts.Keys);
    ResetFits(l, Temporary(l));
    FinalizeNames(l, PendingRequests(l), Invalidated);
    var m := Retire(l, Temporary(l), l.receipts.Keys, l.artifacts.Keys);
    SessionsKeep(m, CloseSet(l.sessions, LiveSessions(l)), l.next);
    RequestsKeep(m.(sessions := CloseSet(l.sessions, LiveSessions(l)), next := l.next),
                 FinalizeSet(l.requests, PendingRequests(l), Invalidated), l.next);
  }

  lemma ResetKeeps(l: Ledger)
    requires Inv(l)
    ensures Inv(ResetRuntime(l))
  {
    hide Core, Settled, Quiesced, FinishCleanup;
    QuiescedKeeps(l);
    FinishCleanupKeeps(Quiesced(l));
    BumpKeeps(FinishCleanup(Quiesced(l)));
  }

  lemma CompensateKeeps(l: Ledger, issued: set<Id>, request: Option<Id>)
    requires Inv(l) && CatchesGrants(l.artifacts, issued, {})
    ensures Inv(Compensate(l, issued, request))
  {
    hide Core, Settled, CatchesGrants, CatchesReceipts, RevokeSet, InvalidateSet, BlockSet, FinalizeSet;
    NoReceiptsCaught(l.artifacts, {});
    RetireKeeps(l, issued, {}, {});
    InvalidateNone(l.receipts);
    BlockNone(l.artifacts);
    var m := l.(grants := RevokeSet(l.grants, issued));
    assert Retire(l, issued, {}, {}) == m;
    if request.Some? {
      FinalizeNames(m, {request.value}, Invalidated);
      RequestsKeep(m, FinalizeSet(m.requests, {request.value}, Invalidated), m.next);
      BumpKeeps(m.(requests := FinalizeSet(m.requests, {request.value}, Invalidated)));
    } else {
      BumpKeeps(m);
    }
  }

  // ----- compaction -----

  lemma HollowBacked(l: Ledger, r: Id)
    requires r in l.receipts && !l.receipts[r].valid
    ensures Backed(l.receipts, l.grants, l.definitions) ==>
              Backed(l.receipts[r := Hollow(l.receipts[r])], l.grants, l.definitions)
    ensures Spent(l.receipts, l.grants) ==> Spent(l.receipts[r := Hollow(l.receipts[r])], l.grants)
    ensures Placed(l.receipts, l.sessions) ==> Placed(l.receipts[r := Hollow(l.receipts[r])], l.sessions)
  {
  }

  lemma HollowRooted(l: Ledger, r: Id)
    requires r in l.receipts && !l.receipts[r].valid
    ensures Rooted(l.artifacts, l.receipts, l.definitions) ==>
              Rooted(l.artifacts, l.receipts[r := Hollow(l.receipts[r])], l.definitions)
    ensures Unique(l.receipts, l.executions) ==> Unique(l.receipts[r := Hollow(l.receipts[r])], l.executions)
  {
    hide Timed;
  }

  lemma ClearReceiptKeeps(l: Ledger, r: Id)
    requires Core(l) && r in l.receipts && !l.receipts[r].valid
    ensures Core(l.(receipts := l.receipts[r := Hollow(l.receipts[r])]))
  {
    hide Homed, Clean, Held, Derived, Rooted, Indexed, Backed, Spent, Lawful, Counted, Placed, Sound, Unique, Hollow;
    HollowBacked(l, r);
    HollowRooted(l, r);
  }

  lemma CoveredDrop(p: Payload, sources: set<Id>, grants: map<Id, Grant>, g: Id)
    requires Covered(p, sources, grants) && g !in sources
    ensures Covered(p, sources, grants - {g})
  {
    forall i | 0 <= i < |p.requirements| ensures Backs(sources, grants - {g}, p.requirements[i].definition) {
      assert Backs(sources, grants, p.requirements[i].definition);
      var h :| h in sources && h in grants && grants[h].key.definition == p.requirements[i].definition;
      assert h in grants - {g} && (grants - {g})[h] == grants[h];
    }
  }

  lemma BackedDrop(l: Ledger, g: Id)
    requires Backed(l.receipts, l.grants, l.definitions) && Spent(l.receipts, l.grants) && !Referenced(l, g)
    ensures Backed(l.receipts, l.grants - {g}, l.definitions) && Spent(l.receipts, l.grants - {g})
  {
    forall r | r in l.receipts && l.receipts[r].valid
      ensures Covered(l.receipts[r].payload.value, l.receipts[r].sources, l.grants - {g})
    {
      CoveredDrop(l.receipts[r].payload.value, l.receipts[r].sources, l.grants, g);
    }
  }

  lemma CleanDrop(l: Ledger, g: Id)
    requires Clean(l.artifacts, l.grants) && Held(l.artifacts, l.grants, l.sessions) && !Referenced(l, g)
    ensures Clean(l.artifacts, l.grants - {g}) && Held(l.artifacts, l.grants - {g}, l.sessions)
  {
  }

  lemma LawfulDrop(l: Ledger, g: Id)
    requires Lawful(l.grants, l.definitions) && Counted(l.grants)
    ensures Lawful(l.grants - {g}, l.definitions) && Counted(l.grants - {g})
  {
  }

  lemma ClearGrantKeeps(l: Ledger, g: Id)
    requires Core(l) && !Referenced(l, g)
    ensures Core(l.(grants := l.grants - {g}))
  {
    hide Homed, Clean, Held, Derived, Rooted, Indexed, Backed, Spent, Lawful, Counted, Placed, Sound, Unique;
    hide Referenced;
    BackedDrop(l, g);
    CleanDrop(l, g);
    LawfulDrop(l, g);
  }

  lemma ClearSessionFits(l: Ledger, s: Id)
    requires Core(l) && s in l.sessions
    ensures SessionsFit(l, l.sessions[s := Unproved(l.sessions[s])])
  {
    hide Clean, Held, Derived, Rooted, Indexed, Backed, Spent, Lawful, Counted, Placed, Sound, Unique;
  }

  lemma ClearSessionKeeps(l: Ledger, s: Id)
    requires Inv(l) && s in l.sessions
    ensures Inv(l.(sessions := l.sessions[s := Unproved(l.sessions[s])]))
  {
    hide Core, Settled, SessionsFit;
    var ss := l.sessions[s := Unproved(l.sessions[s])];
    ClearSessionFits(l, s);
    NamedSessions(l);
    SettledSame(l.artifacts, l.sessions, ss);
    SessionsKeep(l, ss, l.next);
  }

  lemma ClearRequestKeeps(l: Ledger, q: Id, row: RequestRow)
    requires Inv(l) && q in l.requests && Tidy(row)
    ensures Inv(l.(requests := l.requests[q := row]))
  {
    hide Homed, Clean, Held, Derived, Rooted, Indexed, Backed, Spent, Lawful, Counted, Placed, Sound, Unique, Settled;
  }

  lemma ClearKeeps(l: Ledger, x: Record)
    requires Inv(l)
    ensures Inv(Clear(l, x))
  {
    hide Core, Settled, Referenced, Hollow, Unproved;
    if Clearable(l, x) {
      match x
      case ReceiptRecord(r) => ClearReceiptKeeps(l, r);
      case RequestRecord(q) => ClearRequestKeeps(l, q, Blank(l.requests[q]));
      case SessionRecord(s) => ClearSessionKeeps(l, s);
      case GrantRecord(g) => ClearGrantKeeps(l, g);
    }
  }

  lemma {:induction false} ClearAllKeeps(l: Ledger, records: seq<Record>)
    requires Inv(l)
    ensures Inv(ClearAll(l, records))
  {
    hide Inv, Clear;
    if records != [] {
      ClearAllKeeps(l, records[..|records| - 1]);
      ClearKeeps(ClearAll(l, records[..|records| - 1]), records[|records| - 1]);
    }
  }

  // ----- Execute and the other steps -----

  /** Only an answer issues grants, and no artifact rests on a grant it has just issued. */
  lemma IssuedUnused(l: Ledger, env: Env, peer: Peer, call: Call)
    requires Inv(l) && Dispatch(l, env, peer, call).Ok?
    ensures var c := Dispatch(l, env, peer, call).value;
            CatchesGrants(c.db.artifacts, c.issued, {})
  {
    hide Inv, Dispatch;
    var c := Dispatch(l, env, peer, call).value;
    CleanOf(l);
  }

  lemma CleanOf(l: Ledger)
    requires Inv(l)
    ensures Clean(l.artifacts, l.grants)
  {
  }

  lemma ExpireTable(l: Ledger, now: nat)
    ensures SameTable(l, Expire(l, now))
  {
    hide CloseAll, SuspendAll, FinalizeSet, BlockSet, CloseDue, SuspendDue, ExpiredRequests, ExpiredArtifacts;
  }

  lemma {:induction false} ClearAllTable(l: Ledger, records: seq<Record>)
    ensures SameTable(l, ClearAll(l, records))
  {
    hide Clear;
    if records != [] {
      ClearAllTable(l, records[..|records| - 1]);
      ClearTable(ClearAll(l, records[..|records| - 1]), records[|records| - 1]);
    }
  }

  lemma ClearTable(l: Ledger, x: Record)
    ensures SameTable(l, Clear(l, x))
  {
    hide Clearable;
  }

  lemma TransactTable(l: Ledger, book: R.Book, env: Env, peer: Peer, call: Call)
    ensures SameTable(l, Transact(l, book, env, peer, call).db)
  {
    hide Expire, Dispatch, Publish, RevokeSet, FinalizeSet;
    ExpireTable(l, env.now);
  }

  lemma TransactKeeps(l: Ledger, book: R.Book, env: Env, peer: Peer, call: Call)
    requires Inv(l)
    ensures Inv(Transact(l, book, env, peer, call).db)
  {
    hide Inv, Core, SameTable, Quiet, Expire, Dispatch, Compensate, Publish;
    var swept := Expire(l, env.now);
    SweptKeeps(l, env.now);
    var c := Dispatch(swept, env, peer, call);
    if c.Ok? && peer.identity != "" {
      DispatchKeeps(swept, env, peer, call);
      IssuedUnused(swept, env, peer, call);
      CompensateKeeps(c.value.db, c.value.issued, c.value.request);
    }
  }

  /** The definitions table is the registry, some of its definitions masked. */
  ghost predicate Projects(table: map<string, Config>, definitions: map<string, Config>) {
    table.Keys == definitions.Keys
    && forall d :: d in table ==> table[d] == definitions[d] || table[d] == definitions[d].(active := false)
  }

  /** What holds of the repository between steps. */
  ghost predicate Steady(s: Repo) {
    && Inv(s.db)
    && Sound(s.book.definitions)
    && s.db.definitions.Keys <= s.book.definitions.Keys
    && (!s.fenced ==> Projects(s.db.definitions, s.book.definitions))
    && (s.halted ==> s.fenced)
  }

  function Mask(definitions: map<string, Config>, installed: (string, string, string) -> bool): map<string, Config> {
    map d | d in definitions :: Projected(definitions[d], installed)
  }

  /** After a replay the table is exactly the registry masked by the validator. */
  lemma ReplayProjects(l: Ledger, book: R.Book, installed: (string, string, string) -> bool)
    requires l.definitions.Keys <= book.definitions.Keys
    ensures var m := Replay(l, book, installed);
            && m.definitions == Mask(book.definitions, installed)
            && m.applied == book.revision
            && Projects(m.definitions, book.definitions)
  {
    hide RevokeSet, InvalidateSet, BlockSet, FinalizeSet, GrantsOfAny, ReceiptsOn, ArtifactsOn, PendingOnAny;
    hide Reproject, Mask, Projects;
    ReprojectMasks(l, book.definitions, installed);
  }

  lemma ReprojectMasks(l: Ledger, definitions: map<string, Config>, installed: (string, string, string) -> bool)
    requires l.definitions.Keys <= definitions.Keys
    ensures Reproject(l.definitions, definitions, Changed(l, definitions, installed), installed) ==
              Mask(definitions, installed)
    ensures Projects(Mask(definitions, installed), definitions)
  {
  }

  /** A second replay under the same authority changes nothing, not even the revision. */
  lemma ReplayTwice(l: Ledger, book: R.Book, installed: (string, string, string) -> bool)
    requires l.definitions.Keys <= book.definitions.Keys
    ensures var m := Replay(l, book, installed); Replay(m, book, installed) == m
  {
    var m := Replay(l, book, installed);
    ReplayProjects(l, book, installed);
    hide Replay, Marked;
    ReplayIdle(m, book, installed);
  }

  lemma ReplayIdle(m: Ledger, book: R.Book, installed: (string, string, string) -> bool)
    requires m.definitions == Mask(book.definitions, installed)
    requires m.applied == book.revision
    ensures Replay(m, book, installed) == m
  {
    assert Changed(m, book.definitions, installed) == {};
    RedefineNothing(m, book.definitions, installed);
  }

  lemma RedefineNothing(m: Ledger, definitions: map<string, Config>, installed: (string, string, string) -> bool)
    ensures Redefine(m, definitions, {}, installed) == m
  {
    assert GrantsOfAny(m, {}) == {} && PendingOnAny(m, {}) == {};
    assert ReceiptsOn(m, {}) == {} && ArtifactsOn(m, {}) == {};
    assert RevokeSet(m.grants, {}) == m.grants;
    assert InvalidateSet(m.receipts, {}) == m.receipts;
    assert BlockSet(m.artifacts, {}) == m.artifacts;
    assert FinalizeSet(m.requests, {}, Invalidated) == m.requests;
    assert Reproject(m.definitions, definitions, {}, installed) == m.definitions;
  }

  lemma EnsureKeeps(s: Repo, env: Env)
    requires Steady(s) && !s.halted
    ensures Steady(Ensure(s, env)) && !Ensure(s, env).fenced
  {
    hide Inv, Sound, Projects, Replay;
    if s.fenced {
      ReplayKeeps(s.db, s.book, env.installed);
      ReplayProjects(s.db, s.book, env.installed);
    }
  }

  lemma EnactSound(b: R.Book, step: R.Step)
    requires Sound(b.definitions)
    ensures Sound(R.Enact(b, step).definitions) && b.definitions.Keys <= R.Enact(b, step).definitions.Keys
  {
    hide Sound, R.Enroll, R.Import;
    match step
    case Register(key, action, installed, removable) => EnrollSound(b, installed, removable, key, action);
    case Seed(operation, d, config, installed) => ImportSound(b, installed, operation, d, config);
  }

  lemma ImportSound(b: R.Book, installed: Config -> Option<Status>, operation: string, d: string, config: Config)
    requires Sound(b.definitions)
    ensures var r := R.Import(b, installed, operation, d, config);
            r.Ok? ==> Sound(r.value.0.definitions) && b.definitions.Keys <= r.value.0.definitions.Keys
  {
    hide Sound, R.Enroll, R.Obsolete, R.WellFormed;
    EnrollSound(b, installed, (p, g) => false, R.Offline(operation), R.Install(d, config));
  }

  lemma PutSound(b: R.Book, key: R.OperationKey, action: R.Action, definitions: map<string, Config>)
    requires Sound(definitions) && b.definitions.Keys <= definitions.Keys
    ensures var r := R.Put(b, key, action, definitions);
            r.Ok? ==> Sound(r.value.definitions) && b.definitions.Keys <= r.value.definitions.Keys
  {
  }

  lemma EnrollSound(b: R.Book, installed: Config -> Option<Status>, removable: (string, string) -> bool,
                    key: R.OperationKey, action: R.Action)
    requires Sound(b.definitions)
    ensures var r := R.Enroll(b, installed, removable, key, action);
            r.Ok? ==> Sound(r.value.definitions) && b.definitions.Keys <= r.value.definitions.Keys
  {
    hide R.Put, R.Revise, R.WellFormed;
    match action
    case Uninstall(package, _) =>
      DeactivatedSound(b.definitions, package);
      PutSound(b, key, action, R.Deactivated(b.definitions, package));
    case Install(d, config) =>
      if R.WellFormed(config.(active := true)) {
        PutSound(b, key, action, b.definitions[d := config.(active := true)]);
      }
  }

  lemma DeactivatedSound(definitions: map<string, Config>, package: string)
    requires Sound(definitions)
    ensures Sound(R.Deactivated(definitions, package)) && R.Deactivated(definitions, package).Keys == definitions.Keys
  {
  }

  lemma StepKeeps(s: Repo, e: Stamped)
    requires Steady(s)
    ensures Steady(Step(s, e).0)
  {
    hide Inv, Sound, Projects, Replay, ResetRuntime, Expire, FenceProfiles, ClearAll, Transact, Ensure, R.Enact;
    if e.event.Restart? {
      ReplayKeeps(s.db, s.book, e.env.installed);
      ReplayProjects(s.db, s.book, e.env.installed);
      ResetKeeps(Replay(s.db, s.book, e.env.installed));
      ResetTable(Replay(s.db, s.book, e.env.installed));
    } else if !s.halted {
      EnsureKeeps(s, e.env);
      EnsureBook(s, e.env);
      var t := Ensure(s, e.env);
      match e.event
      case Invoke(peer, call) =>
        TransactKeeps(t.db, t.book, e.env, peer, call);
        TransactTable(t.db, t.book, e.env, peer, call);
      case Enroll(step, crash) =>
        EnactSound(t.book, step);
        var u := t.(book := R.Enact(t.book, step), fenced := true);
        EnsureKeeps(u, e.env);
      case Tick(records) =>
        ReplayKeeps(t.db, t.book, e.env.installed);
        ReplayProjects(t.db, t.book, e.env.installed);
        var m := Replay(t.db, t.book, e.env.installed);
        CoreOf(m);
        ExpireKeeps(m, e.env.now);
        ExpireTable(m, e.env.now);
        ClearAllKeeps(Expire(m, e.env.now), records);
        ClearAllTable(Expire(m, e.env.now), records);
      case Maintain(records) =>
        ClearAllKeeps(t.db, records);
        ClearAllTable(t.db, records);
      case Fence(bindings, all, user) => FenceKeeps(t.db, bindings, all, user);
    }
  }

  lemma EnsureBook(s: Repo, env: Env)
    ensures Ensure(s, env).book == s.book && Ensure(s, env).halted == s.halted
  {
  }

  lemma ResetTable(l: Ledger)
    ensures SameTable(l, ResetRuntime(l))
  {
  }

  lemma FreshSteady()
    ensures Steady(FRESH)
  {
  }

  /** In every reachable state the repository is sound. */
  lemma {:induction false} RunKeeps(s: Repo, run: seq<Stamped>)
    requires Steady(s)
    ensures Steady(After(s, run))
  {
    hide Steady, Step;
    if run != [] {
      RunKeeps(s, run[..|run| - 1]);
      StepKeeps(After(s, run[..|run| - 1]), run[|run| - 1]);
    }
  }
}
