/** What revoking, fencing, restarting, redefining and closing do to the tables, row by row, and that a
    withdrawn consent stays withdrawn until it is given again. */
module Withdrawals {
  import opened Types
  import opened Ledger
  import opened Conditions
  import opened Operations
  import opened Daemon
  import opened Invariants
  import opened Sequences
  import opened Effects
  import R = Registry

  ghost predicate Permits(peer: Peer, subject: string, profile: string) {
    && Identifier(subject) && Identifier(profile)
    && (subject in peer.subjects || "*" in peer.subjects) && (profile in peer.profiles || "*" in peer.profiles)
  }

  lemma ContextPermits(peer: Peer, subject: string, profile: string)
    ensures Context(peer, subject, profile).Ok? <==> Permits(peer, subject, profile)
  {
    hide Identifier;
  }

  // ----- revoking -----

  ghost function GrantsFor(grants: map<Id, Grant>, definition: string, subject: string, profile: string): set<Id> {
    set g | g in grants && grants[g].key.definition == definition
            && grants[g].key.subject == subject && grants[g].key.profile == profile
  }

  /** One of the sources is a revoked grant. */
  ghost predicate RestsOnRevoked(sources: set<Id>, grants: map<Id, Grant>) {
    exists g :: g in sources && g in grants && grants[g].revoked
  }

  ghost function RestingOn(artifacts: map<Id, Artifact>, ids: set<Id>): set<Id> {
    set a | a in artifacts && exists g :: g in artifacts[a].sources && g in ids
  }

  ghost predicate Withdraws(l: Ledger, m: Ledger, ids: set<Id>) {
    && m == l.(grants := m.grants, receipts := m.receipts, artifacts := m.artifacts, revision := l.revision + 1)
    && Revokes(l.grants, m.grants, ids)
    && m.receipts.Keys == l.receipts.Keys
    && (forall r :: r in l.receipts ==>
          m.receipts[r] ==
          l.receipts[r].(valid := l.receipts[r].valid && !RestsOnRevoked(l.receipts[r].sources, m.grants)))
    && Blocks(l.artifacts, m.artifacts, RestingOn(l.artifacts, ids))
  }

  lemma OnRevoked(m: Ledger)
    ensures forall r :: r in ReceiptsOn(m, Revoked(m)) <==>
              r in m.receipts && RestsOnRevoked(m.receipts[r].sources, m.grants)
    ensures forall a :: a in ArtifactsOn(m, Revoked(m)) <==>
              a in m.artifacts && RestsOnRevoked(m.artifacts[a].sources, m.grants)
  {
    forall sources: set<Id> ensures sources * Revoked(m) != {} <==> RestsOnRevoked(sources, m.grants) {
      if RestsOnRevoked(sources, m.grants) {
        var g :| g in sources && g in m.grants && m.grants[g].revoked;
        assert g in sources * Revoked(m);
      }
    }
  }

  /** No resident artifact rests on a grant revoked before. */
  lemma NewlyResting(l: Ledger, grants: map<Id, Grant>, ids: set<Id>, a: Id)
    requires Clean(l.artifacts, l.grants) && Revokes(l.grants, grants, ids)
    requires a in l.artifacts && l.artifacts[a].state.Active?
    ensures RestsOnRevoked(l.artifacts[a].sources, grants) <==> a in RestingOn(l.artifacts, ids)
  {
    if RestsOnRevoked(l.artifacts[a].sources, grants) {
      var g :| g in l.artifacts[a].sources && g in grants && grants[g].revoked;
      assert g in l.grants && !l.grants[g].revoked;
    }
    if a in RestingOn(l.artifacts, ids) {
      var g :| g in l.artifacts[a].sources && g in ids;
      assert g in l.grants && grants[g].revoked;
    }
  }

  lemma CleanIn(l: Ledger)
    requires Inv(l)
    ensures Clean(l.artifacts, l.grants) && Settled(l.artifacts, l.sessions)
  {
  }

  /** Revoking reaches exactly the grants of the definition, subject and profile named. */
  lemma RevokeWithdraws(l: Ledger, peer: Peer, definition: string, subject: string, profile: string)
    requires Inv(l)
    ensures var r := Revoke(l, peer, definition, subject, profile);
            && (r.Ok? <==> "admin" in peer.roles && Permits(peer, subject, profile) && Identifier(definition))
            && (r.Ok? ==>
                  Withdraws(l, r.value.db, GrantsFor(l.grants, definition, subject, profile)) && r.value.reply == Done)
  {
    hide Inv, Context, Permits, Identifier, ReceiptsOn, ArtifactsOn, Revoked, Clean, Settled, RestsOnRevoked;
    hide RestingOn;
    ContextPermits(peer, subject, profile);
    CleanIn(l);
    if Revoke(l, peer, definition, subject, profile).Ok? {
      var db := Revoke(l, peer, definition, subject, profile).value.db;
      var m := l.(grants := db.grants);
      OnRevoked(m);
      forall a | a in l.artifacts && l.artifacts[a].state.Active?
        ensures RestsOnRevoked(l.artifacts[a].sources, m.grants) <==>
                  a in RestingOn(l.artifacts, GrantsFor(l.grants, definition, subject, profile))
      {
        NewlyResting(l, m.grants, GrantsFor(l.grants, definition, subject, profile), a);
      }
    }
  }

  // ----- fencing -----

  ghost predicate Binds(bindings: seq<Binding>, subject: string, profile: string) {
    exists i :: 0 <= i < |bindings| && bindings[i].subject == subject && bindings[i].profile == profile
  }

  /** A binding whose grants the fence takes: all of them, or those of the removed user. */
  ghost predicate Targets(bindings: seq<Binding>, all: bool, user: string, subject: string, profile: string) {
    exists i :: 0 <= i < |bindings| && bindings[i].subject == subject && bindings[i].profile == profile
                && (all || (user != "" && bindings[i].user == user))
  }

  lemma {:induction false} RetiredTargets(bindings: seq<Binding>, all: bool, user: string, subject: string,
                                          profile: string)
    ensures BoundTo(Retired(bindings, all, user), subject, profile) <==> Targets(bindings, all, user, subject, profile)
  {
    hide BoundTo, Targets;
    if bindings == [] {
      NoneBound(all, user, subject, profile);
    } else {
      var rest, first := Retired(bindings[1..], all, user), Retired([bindings[0]], all, user);
      RetiredTargets(bindings[1..], all, user, subject, profile);
      assert bindings == [bindings[0]] + bindings[1..];
      BoundConcat(first, rest, subject, profile);
      OneRetired(bindings[0], all, user, subject, profile);
      assert Retired(bindings, all, user) == first + rest;
      TargetsFirst(bindings, all, user, subject, profile);
    }
  }

  lemma NoneBound(all: bool, user: string, subject: string, profile: string)
    ensures !BoundTo([], subject, profile) && !Targets([], all, user, subject, profile)
  {
  }

  lemma OneRetired(b: Binding, all: bool, user: string, subject: string, profile: string)
    ensures Retired([b], all, user) == (if all || (user != "" && b.user == user) then [b] else [])
    ensures BoundTo(Retired([b], all, user), subject, profile) <==> Hit(b, all, user, subject, profile)
  {
    assert [b][1..] == [];
    assert Retired([], all, user) == [];
    if all || (user != "" && b.user == user) { assert [b][0] == b; }
  }

  ghost predicate Hit(b: Binding, all: bool, user: string, subject: string, profile: string) {
    b.subject == subject && b.profile == profile && (all || (user != "" && b.user == user))
  }

  lemma TargetsFirst(bindings: seq<Binding>, all: bool, user: string, subject: string, profile: string)
    requires bindings != []
    ensures Targets(bindings, all, user, subject, profile) <==>
              Hit(bindings[0], all, user, subject, profile) || Targets(bindings[1..], all, user, subject, profile)
  {
    var rest := bindings[1..];
    assert forall i :: 0 <= i < |rest| ==> rest[i] == bindings[i + 1];
    assert forall i :: 1 <= i < |bindings| ==> bindings[i] == rest[i - 1];
  }

  ghost function SessionsUnder(sessions: map<Id, SessionRow>, bindings: seq<Binding>): set<Id> {
    set s | s in sessions && Up(sessions[s]) && Binds(bindings, sessions[s].subject, sessions[s].profile)
  }

  ghost function GrantsTargeted(grants: map<Id, Grant>, bindings: seq<Binding>, all: bool, user: string): set<Id> {
    set g | g in grants && Targets(bindings, all, user, grants[g].key.subject, grants[g].key.profile)
  }

  ghost function ReceiptsBound(receipts: map<Id, Receipt>, bindings: seq<Binding>): set<Id> {
    set r | r in receipts && receipts[r].payload.Some?
            && Binds(bindings, receipts[r].payload.value.subject, receipts[r].payload.value.profile)
  }

  ghost function RequestsBound(requests: map<Id, RequestRow>, bindings: seq<Binding>): set<Id> {
    set q | q in requests && (requests[q].state.Pending? || requests[q].state.Allowed?)
            && Binds(bindings, requests[q].payload.subject, requests[q].payload.profile)
  }

  /** What a profile fence does: the sessions, requests and receipts under the bindings end; the grants of
      those it targets are revoked. */
  ghost predicate Fenced(l: Ledger, m: Ledger, bindings: seq<Binding>, all: bool, user: string) {
    var under := SessionsUnder(l.sessions, bindings);
    && m == l.(sessions := m.sessions, grants := m.grants, receipts := m.receipts, artifacts := m.artifacts,
               requests := m.requests, revision := l.revision + 1)
    && Ends(l.sessions, m.sessions, under, l.artifacts)
    && Revokes(l.grants, m.grants, GrantsWithin(l.grants, under) + GrantsTargeted(l.grants, bindings, all, user))
    && Invalidates(l.receipts, m.receipts, ReceiptsBound(l.receipts, bindings))
    && Blocks(l.artifacts, m.artifacts, ArtifactsWithin(l.artifacts, under))
    && Voids(l.requests, m.requests, PromptsWithin(l.requests, under) + RequestsBound(l.requests, bindings),
             Invalidated)
  }

  lemma UnderIs(l: Ledger, bindings: seq<Binding>, all: bool, user: string)
    ensures SessionsOf(l, bindings) == SessionsUnder(l.sessions, bindings)
    ensures GrantsUnder(l, Retired(bindings, all, user)) == GrantsTargeted(l.grants, bindings, all, user)
    ensures RequestsOf(l, bindings) == RequestsBound(l.requests, bindings)
    ensures ReceiptsUnder(l, bindings) <= ReceiptsBound(l.receipts, bindings)
    ensures forall r :: r in ReceiptsBound(l.receipts, bindings) && l.receipts[r].valid ==>
              r in ReceiptsUnder(l, bindings)
  {
    forall subject, profile
      ensures BoundTo(Retired(bindings, all, user), subject, profile) <==>
                Targets(bindings, all, user, subject, profile)
      ensures BoundTo(bindings, subject, profile) <==> Binds(bindings, subject, profile)
    {
      RetiredTargets(bindings, all, user, subject, profile);
    }
    hide BoundTo, Binds, Targets, Retired;
  }

  lemma RevokesTwice(a: map<Id, Grant>, b: map<Id, Grant>, c: map<Id, Grant>, x: set<Id>, y: set<Id>)
    requires Revokes(a, b, x) && Revokes(b, c, y)
    ensures Revokes(a, c, x + y)
  {
  }

  lemma SameTargets(a: map<Id, Grant>, b: map<Id, Grant>, x: set<Id>, bindings: seq<Binding>, all: bool, user: string)
    requires Revokes(a, b, x)
    ensures GrantsTargeted(b, bindings, all, user) == GrantsTargeted(a, bindings, all, user)
  {
    hide Targets;
  }

  lemma VoidsTwice(a: map<Id, RequestRow>, b: map<Id, RequestRow>, c: map<Id, RequestRow>, under: set<Id>,
                   bindings: seq<Binding>)
    requires Voids(a, b, PromptsWithin(a, under), Invalidated) && Voids(b, c, RequestsBound(b, bindings), Invalidated)
    ensures Voids(a, c, PromptsWithin(a, under) + RequestsBound(a, bindings), Invalidated)
  {
    hide Binds;
  }

  lemma InvalidatesBound(a: map<Id, Receipt>, b: map<Id, Receipt>, x: set<Id>, y: set<Id>)
    requires Invalidates(a, b, x) && x <= y && forall r :: r in y && r in a && a[r].valid ==> r in x
    ensures Invalidates(a, b, y)
  {
  }

  lemma FenceIs(l: Ledger, bindings: seq<Binding>, all: bool, user: string)
    ensures var m := CloseAll(l, SessionsOf(l, bindings), l.next);
            var k := m.(requests := FinalizeSet(m.requests, RequestsOf(m, bindings), Invalidated),
                        grants := RevokeSet(m.grants, GrantsUnder(m, Retired(bindings, all, user))),
                        receipts := InvalidateSet(m.receipts, ReceiptsUnder(m, bindings)));
            FenceProfiles(l, bindings, all, user) == Bump(FinishCleanup(k))
  {
    hide CloseAll, SessionsOf, RequestsOf, FinalizeSet, RevokeSet, GrantsUnder, Retired, InvalidateSet, ReceiptsUnder;
    hide FinishCleanup;
  }

  /** The fence, table by table. */
  lemma FenceFences(l: Ledger, bindings: seq<Binding>, all: bool, user: string)
    requires Inv(l)
    ensures Fenced(l, FenceProfiles(l, bindings, all, user), bindings, all, user)
  {
    hide Inv, FenceProfiles, CloseAll, SessionsOf, RequestsOf, FinalizeSet, RevokeSet, GrantsUnder, Retired;
    hide InvalidateSet;
    hide ReceiptsUnder, FinishCleanup, BlockSet, CloseSet, Below, Settled, Ends, Finishes, Revokes, Invalidates;
    hide Blocks, Voids;
    hide GrantsWithin, ArtifactsWithin, PromptsWithin, SessionsUnder, GrantsTargeted, ReceiptsBound, RequestsBound;
    hide SessionGrantsAny, ArtifactsInAny, PendingInAny;
    var under := SessionsUnder(l.sessions, bindings);
    NamedAre(l);
    FenceIs(l, bindings, all, user);
    UnderIs(l, bindings, all, user);
    UnderAreNamed(l, bindings);
    AllBelow(under, l.next);
    CloseAllIsMany(l, under, l.next);
    var m := CloseMany(l, under);
    CloseSets(l, under);
    StatementsAre(l, SessionGrantsAny(l, under), Invalidated);
    StatementsAre(l, ArtifactsInAny(l, under), Invalidated);
    StatementsAre(l, PendingInAny(l, under), Invalidated);
    UnderIs(m, bindings, all, user);
    StatementsAre(m, RequestsOf(m, bindings), Invalidated);
    StatementsAre(m, GrantsUnder(m, Retired(bindings, all, user)), Invalidated);
    StatementsAre(m, ReceiptsUnder(m, bindings), Invalidated);
    var k := m.(requests := FinalizeSet(m.requests, RequestsOf(m, bindings), Invalidated),
                grants := RevokeSet(m.grants, GrantsUnder(m, Retired(bindings, all, user))),
                receipts := InvalidateSet(m.receipts, ReceiptsUnder(m, bindings)));
    FinishIs(k);
    CloseEnds(l.sessions, FinishCleanup(k).sessions, under, l.artifacts, m.artifacts,
              ArtifactsWithin(l.artifacts, under));
    SameTargets(l.grants, m.grants, GrantsWithin(l.grants, under), bindings, all, user);
    RevokesTwice(l.grants, m.grants, k.grants, GrantsWithin(l.grants, under),
                 GrantsTargeted(l.grants, bindings, all, user));
    VoidsTwice(l.requests, m.requests, k.requests, under, bindings);
    InvalidatesBound(l.receipts, k.receipts, ReceiptsUnder(m, bindings), ReceiptsBound(l.receipts, bindings));
  }

  lemma UnderAreNamed(l: Ledger, bindings: seq<Binding>)
    requires forall s :: s in l.sessions ==> s < l.next
    ensures forall s :: s in SessionsUnder(l.sessions, bindings) ==> s < l.next
  {
  }

  /** Afterwards nothing under a binding goes on. */
  lemma FencedIsQuiet(l: Ledger, bindings: seq<Binding>, all: bool, user: string)
    requires Inv(l)
    ensures var m := FenceProfiles(l, bindings, all, user);
            && (forall s :: s in m.sessions && Binds(bindings, m.sessions[s].subject, m.sessions[s].profile) ==>
                  !Up(m.sessions[s]))
            && (forall q :: q in m.requests
                            && Binds(bindings, m.requests[q].payload.subject, m.requests[q].payload.profile) ==>
                  !m.requests[q].state.Pending? && !m.requests[q].state.Allowed?)
            && (forall r :: r in m.receipts && m.receipts[r].payload.Some? && m.receipts[r].valid ==>
                  !Binds(bindings, m.receipts[r].payload.value.subject, m.receipts[r].payload.value.profile))
  {
    hide Inv, FenceProfiles, Binds, HasUndeleted, Revokes, Blocks;
    FenceFences(l, bindings, all, user);
  }

  // ----- restarting -----

  /** What a restart leaves: no session, request or receipt in use, no artifact resident, and of the
      grants only the PERSISTENT ones. */
  ghost predicate Restarted(l: Ledger, m: Ledger) {
    && m == l.(sessions := m.sessions, grants := m.grants, receipts := m.receipts, artifacts := m.artifacts,
               requests := m.requests, revision := l.revision + 1)
    && Ends(l.sessions, m.sessions, l.sessions.Keys, l.artifacts)
    && Revokes(l.grants, m.grants, set g | g in l.grants && l.grants[g].mode != PERSISTENT)
    && Invalidates(l.receipts, m.receipts, l.receipts.Keys)
    && Blocks(l.artifacts, m.artifacts, l.artifacts.Keys)
    && Voids(l.requests, m.requests, (set q | q in l.requests && l.requests[q].state.Pending?), Invalidated)
  }

  lemma ResetRestarts(l: Ledger)
    requires Inv(l)
    ensures Restarted(l, ResetRuntime(l))
  {
    hide Inv, Settled, RevokeSet, InvalidateSet, BlockSet, FinalizeSet, Ends, Finishes, FinishCleanup, CloseSet;
    NamedAre(l);
    StatementsAre(l, Temporary(l), Invalidated);
    StatementsAre(l, l.receipts.Keys, Invalidated);
    StatementsAre(l, l.artifacts.Keys, Invalidated);
    StatementsAre(l, PendingRequests(l), Invalidated);
    var k := Quiesced(l);
    FinishIs(k);
    CloseLive(l);
    CloseEnds(l.sessions, FinishCleanup(k).sessions, l.sessions.Keys, l.artifacts, k.artifacts, l.artifacts.Keys);
  }

  lemma CloseLive(l: Ledger)
    ensures CloseSet(l.sessions, LiveSessions(l)) == CloseSet(l.sessions, l.sessions.Keys)
  {
  }

  // ----- redefining -----

  /** The definitions that are not in the table as the registry has them, masked where the installation
      is not vouched for. */
  ghost function Outdated(table: map<string, Config>, definitions: map<string, Config>,
                          installed: (string, string, string) -> bool): set<string> {
    set d | d in definitions && (d !in table || table[d] != Vouched(definitions[d], installed))
  }

  ghost function Vouched(c: Config, installed: (string, string, string) -> bool): Config {
    if installed(c.package, c.app, c.identity) then c else c.(active := false)
  }

  ghost function GivenUnder(grants: map<Id, Grant>, names: set<string>): set<Id> {
    set g | g in grants && grants[g].key.definition in names
  }

  ghost function ReceiptsResting(receipts: map<Id, Receipt>, ids: set<Id>): set<Id> {
    set r | r in receipts && exists g :: g in receipts[r].sources && g in ids
  }

  ghost function PromptsFor(requests: map<Id, RequestRow>, names: set<string>): set<Id> {
    set q | q in requests && requests[q].state.Pending?
            && exists i :: 0 <= i < |requests[q].payload.requirements|
                           && requests[q].payload.requirements[i].definition in names
  }

  /** Exactly the definitions of `names` are written, as they are registered or masked. */
  ghost predicate Writes(a: map<string, Config>, b: map<string, Config>, definitions: map<string, Config>,
                         names: set<string>, installed: (string, string, string) -> bool) {
    && b.Keys == a.Keys + names
    && forall d :: d in b ==>
         if d in names then d in definitions && b[d] == Vouched(definitions[d], installed) else b[d] == a[d]
  }

  /** What a replay does: the outdated definitions are written anew, their grants are revoked, and what
      rests on those, or asks for them, ends. */
  ghost predicate Replayed(l: Ledger, m: Ledger, book: R.Book, installed: (string, string, string) -> bool) {
    var names := Outdated(l.definitions, book.definitions, installed);
    var ids := GivenUnder(l.grants, names);
    && m == l.(definitions := m.definitions, grants := m.grants, receipts := m.receipts, artifacts := m.artifacts,
               requests := m.requests, applied := book.revision, revision := m.revision)
    && Writes(l.definitions, m.definitions, book.definitions, names, installed)
    && Revokes(l.grants, m.grants, ids)
    && Invalidates(l.receipts, m.receipts, ReceiptsResting(l.receipts, ids))
    && Blocks(l.artifacts, m.artifacts, RestingOn(l.artifacts, ids))
    && Voids(l.requests, m.requests, PromptsFor(l.requests, names), Invalidated)
    && m.revision == if names == {} && l.applied == book.revision then l.revision else l.revision + 1
  }

  lemma RestingIs(l: Ledger, ids: set<Id>)
    ensures ReceiptsOn(l, ids) == ReceiptsResting(l.receipts, ids) && ArtifactsOn(l, ids) == RestingOn(l.artifacts, ids)
  {
    forall sources: set<Id> ensures sources * ids != {} <==> exists g :: g in sources && g in ids {
      if g :| g in sources && g in ids { assert g in sources * ids; }
    }
  }

  lemma VouchedIs(c: Config, installed: (string, string, string) -> bool)
    ensures Projected(c, installed) == Vouched(c, installed)
  {
    if !installed(c.package, c.app, c.identity) { assert c.(active := false) == Projected(c, installed); }
  }

  lemma OutdatedIs(l: Ledger, definitions: map<string, Config>, installed: (string, string, string) -> bool)
    ensures Changed(l, definitions, installed) == Outdated(l.definitions, definitions, installed) <= definitions.Keys
  {
    hide Projected, Vouched;
    forall d | d in definitions ensures Projected(definitions[d], installed) == Vouched(definitions[d], installed) {
      VouchedIs(definitions[d], installed);
    }
  }

  lemma ForNames(l: Ledger, names: set<string>)
    ensures GrantsOfAny(l, names) == GivenUnder(l.grants, names)
    ensures PendingOnAny(l, names) == PromptsFor(l.requests, names)
  {
  }

  lemma RedefineIs(l: Ledger, definitions: map<string, Config>, names: set<string>,
                   installed: (string, string, string) -> bool)
    requires names <= definitions.Keys
    ensures var m, ids := Redefine(l, definitions, names, installed), GivenUnder(l.grants, names);
            && m == l.(definitions := Reproject(l.definitions, definitions, names, installed), grants := m.grants,
                       receipts := m.receipts, artifacts := m.artifacts, requests := m.requests)
            && Revokes(l.grants, m.grants, ids)
            && Invalidates(l.receipts, m.receipts, ReceiptsResting(l.receipts, ids))
            && Blocks(l.artifacts, m.artifacts, RestingOn(l.artifacts, ids))
            && Voids(l.requests, m.requests, PromptsFor(l.requests, names), Invalidated)
  {
    hide GrantsOfAny, GivenUnder, ReceiptsOn, ReceiptsResting, ArtifactsOn, RestingOn, PendingOnAny, PromptsFor;
    hide RevokeSet, InvalidateSet, BlockSet, FinalizeSet, Revokes, Invalidates, Blocks, Voids, Reproject;
    ForNames(l, names);
    var ids := GrantsOfAny(l, names);
    RestingIs(l, ids);
    StatementsAre(l, ids, Invalidated);
    StatementsAre(l, ReceiptsOn(l, ids), Invalidated);
    StatementsAre(l, ArtifactsOn(l, ids), Invalidated);
    StatementsAre(l, PendingOnAny(l, names), Invalidated);
  }

  /** The replay, table by table. */
  lemma ReplayReplays(l: Ledger, book: R.Book, installed: (string, string, string) -> bool)
    ensures Replayed(l, Replay(l, book, installed), book, installed)
  {
    hide Changed, Outdated, GivenUnder, ReceiptsResting, RestingOn, PromptsFor, Redefine, Reproject;
    hide Revokes, Invalidates, Blocks, Voids, Projected, Vouched, Writes;
    var names := Changed(l, book.definitions, installed);
    OutdatedIs(l, book.definitions, installed);
    RedefineIs(l, book.definitions, names, installed);
    ReprojectIs(l.definitions, book.definitions, names, installed);
  }

  lemma ReprojectIs(table: map<string, Config>, definitions: map<string, Config>, names: set<string>,
                    installed: (string, string, string) -> bool)
    requires names <= definitions.Keys
    ensures Writes(table, Reproject(table, definitions, names, installed), definitions, names, installed)
  {
    hide Projected, Vouched;
    forall d | d in names ensures Projected(definitions[d], installed) == Vouched(definitions[d], installed) {
      VouchedIs(definitions[d], installed);
    }
  }

  // ----- a commit that is taken back -----

  /** A commit a fence fell into is undone as far as it matters: the grants it inserted are revoked and the
      request it answered is void. */
  lemma CommitTakenBack(l: Ledger, c: Change, f: Fences)
    requires c.guarded && f.enabled && f.before == 0 && f.during > 0 && f.compensates
    ensures var m := Commit(l, c, f).db;
            && m == c.db.(grants := m.grants, requests := m.requests, revision := c.db.revision + 1)
            && Revokes(c.db.grants, m.grants, c.issued)
            && Voids(c.db.requests, m.requests, if c.request.Some? then {c.request.value} else {}, Invalidated)
  {
    hide RevokeSet, FinalizeSet;
    StatementsAre(c.db, c.issued, Invalidated);
    if c.request.Some? { StatementsAre(c.db, {c.request.value}, Invalidated); }
  }

  // ----- sessions -----

  const DAY_MS: nat := 86400000

  /** A session is opened exactly within the limits, and runs for what was asked. */
  lemma OpenOpens(l: Ledger, env: Env, peer: Peer, subject: string, profile: string, m: Limits)
    ensures var r := SessionOpen(l, env, peer, subject, profile, m);
            && (r.Ok? <==>
                  && Permits(peer, subject, profile) && "session" in peer.roles && env.profile(subject, profile).None?
                  && |set s | s in l.sessions && Up(l.sessions[s])| < 128
                  && 100 <= m.idle <= DAY_MS && 100 <= m.lifetime <= DAY_MS && 100 <= m.lease <= 60000
                  && 100 <= m.grace <= 300000)
            && (r.Ok? ==>
                  var row := SessionRow(subject, profile, peer.identity, peer.instance, Open, 1, m.policy,
                                        env.now + m.idle, env.now + m.lifetime, env.now + m.lease, m.grace, 0,
                                        Some(l.next + 1));
                  && r.value.db == l.(sessions := l.sessions[l.next := row], next := l.next + 2,
                                      revision := l.revision + 1)
                  && r.value.reply == Opened(View(l.next, row), Some(l.next + 1)))
  {
    hide Context, Permits;
    ContextPermits(peer, subject, profile);
    assert LiveSessions(l) == (set s | s in l.sessions && Up(l.sessions[s]));
  }

  /** The session is the caller's own, in the generation named. */
  ghost predicate Owns(l: Ledger, peer: Peer, subject: string, profile: string, id: Id, generation: nat) {
    && Permits(peer, subject, profile) && "session" in peer.roles && id in l.sessions
    && var s := l.sessions[id];
       && s.subject == subject && s.profile == profile && s.owner == peer.identity && s.instance == peer.instance
       && s.generation == generation
  }

  ghost predicate Acts(l: Ledger, env: Env, subject: string, profile: string, id: Id, verb: SessionVerb)
    requires id in l.sessions
  {
    var s := l.sessions[id];
    match verb
    case Close => true
    case Suspend => s.state.Open?
    case Resume(token) =>
      && env.profile(subject, profile).None? && s.state.Suspended? && env.now < s.resume
      && token.Some? && token == s.proof
    case Heartbeat => env.profile(subject, profile).None? && s.state.Open?
  }

  /** What the verb does to the caller's session: it is closed, suspended, resumed with a new proof, or its
      lease is renewed. */
  ghost predicate Acted(l: Ledger, m: Ledger, env: Env, id: Id, verb: SessionVerb)
    requires id in l.sessions
  {
    var s := l.sessions[id];
    && m.revision == l.revision + 1
    && if verb.Close? || (verb.Suspend? && s.policy.ConnectionBound?) then Closes(l, m.(revision := l.revision), {id})
       else if verb.Suspend? then
         && m == l.(sessions := l.sessions[id := Paused(s, env.now)], requests := m.requests, revision := m.revision)
         && Voids(l.requests, m.requests, PromptsWithin(l.requests, {id}), Invalidated)
       else if verb.Resume? then
         m == l.(sessions := l.sessions[id := s.(state := Open, generation := s.generation + 1, proof := Some(l.next),
                                                 lease := env.now + 30000)],
                 next := l.next + 1, revision := m.revision)
       else m == l.(sessions := l.sessions[id := s.(lease := env.now + 30000)], revision := m.revision)
  }

  lemma ActActs(l: Ledger, env: Env, peer: Peer, subject: string, profile: string, id: Id, generation: nat,
                verb: SessionVerb)
    requires Inv(l)
    ensures var r := SessionAct(l, env, peer, subject, profile, id, generation, verb);
            && (r.Ok? <==> Owns(l, peer, subject, profile, id, generation) && Acts(l, env, subject, profile, id, verb))
            && (r.Ok? ==> Acted(l, r.value.db, env, id, verb))
  {
    hide Inv, SessionAct, Owns, Acted;
    if verb.Close? {
      CloseActs(l, env, peer, subject, profile, id, generation);
    } else if verb.Suspend? {
      SuspendActs(l, env, peer, subject, profile, id, generation);
    } else {
      GoingOnActs(l, env, peer, subject, profile, id, generation, verb);
    }
  }

  lemma Closing(l: Ledger, id: Id)
    requires Inv(l)
    ensures var m := FinishCleanup(CloseSession(l, id));
            m.revision == l.revision && Closes(l, m, {id}) && (Viewed(m, id, None).Ok? <==> id in l.sessions)
  {
    hide Inv, Settled, FinishCleanup, CloseSession, Viewed, Revokes, Blocks, Voids, Ends, CloseMany;
    NamedAre(l);
    CloseOne(l, id);
    CloseManyCloses(l, {id});
    ClosedHas(l, id);
  }

  lemma CloseActs(l: Ledger, env: Env, peer: Peer, subject: string, profile: string, id: Id, generation: nat)
    requires Inv(l)
    ensures var r := SessionAct(l, env, peer, subject, profile, id, generation, Close);
            && (r.Ok? <==> Owns(l, peer, subject, profile, id, generation))
            && (r.Ok? ==> Acted(l, r.value.db, env, id, Close))
  {
    hide Inv, Context, Permits, FinishCleanup, CloseSession, SuspendSession, Viewed, Closes;
    ContextPermits(peer, subject, profile);
    Closing(l, id);
  }

  lemma SuspendActs(l: Ledger, env: Env, peer: Peer, subject: string, profile: string, id: Id, generation: nat)
    requires Inv(l)
    ensures var r := SessionAct(l, env, peer, subject, profile, id, generation, Suspend);
            && (r.Ok? <==> Owns(l, peer, subject, profile, id, generation) && l.sessions[id].state.Open?)
            && (r.Ok? ==> Acted(l, r.value.db, env, id, Suspend))
  {
    hide Inv, Context, Permits, FinishCleanup, CloseSession, SuspendSession, Viewed, Closes, Voids, PromptsWithin;
    hide Pauses;
    ContextPermits(peer, subject, profile);
    Closing(l, id);
    PauseOne(l, id, env.now);
    ClosedHas(l, id);
    if id in l.sessions && l.sessions[id].state.Open? { PausedRow(l, id, env.now); }
  }

  lemma GoingOnActs(l: Ledger, env: Env, peer: Peer, subject: string, profile: string, id: Id, generation: nat,
                    verb: SessionVerb)
    requires verb.Resume? || verb.Heartbeat?
    ensures var r := SessionAct(l, env, peer, subject, profile, id, generation, verb);
            && (r.Ok? <==> Owns(l, peer, subject, profile, id, generation) && Acts(l, env, subject, profile, id, verb))
            && (r.Ok? ==> Acted(l, r.value.db, env, id, verb))
  {
    hide Context, Permits, FinishCleanup, CloseSession, SuspendSession, Viewed;
    ContextPermits(peer, subject, profile);
  }

  lemma ClosedHas(l: Ledger, id: Id)
    ensures Viewed(FinishCleanup(CloseSession(l, id)), id, None).Ok? <==> id in l.sessions
    ensures forall now :: Viewed(SuspendSession(l, id, now), id, None).Ok? <==> id in l.sessions
  {
  }

  lemma PausedRow(l: Ledger, id: Id, now: nat)
    requires id in l.sessions && l.sessions[id].state.Open?
    ensures SuspendSession(l, id, now).sessions == l.sessions[id := Paused(l.sessions[id], now)]
  {
  }
}
