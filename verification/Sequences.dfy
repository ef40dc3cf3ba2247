/** Statement after statement against all at once: closing sessions one by one, fencing binding
    by binding and replaying definition by definition leave the ledger the set-wise functions give. */
module Sequences {
  import opened Types
  import opened Ledger
  import opened Operations
  import opened Daemon

  // ----- the same statement twice -----

  lemma RevokeTwice(grants: map<Id, Grant>, a: set<Id>, b: set<Id>)
    ensures RevokeSet(RevokeSet(grants, a), b) == RevokeSet(grants, a + b)
  {
  }

  lemma InvalidateTwice(receipts: map<Id, Receipt>, a: set<Id>, b: set<Id>)
    ensures InvalidateSet(InvalidateSet(receipts, a), b) == InvalidateSet(receipts, a + b)
  {
  }

  lemma BlockTwice(artifacts: map<Id, Artifact>, a: set<Id>, b: set<Id>)
    ensures BlockSet(BlockSet(artifacts, a), b) == BlockSet(artifacts, a + b)
  {
  }

  lemma FinalizeTwice(requests: map<Id, RequestRow>, a: set<Id>, b: set<Id>, state: RequestState)
    ensures FinalizeSet(FinalizeSet(requests, a, state), b, state) == FinalizeSet(requests, a + b, state)
  {
  }

  lemma CloseTwice(sessions: map<Id, SessionRow>, a: set<Id>, b: set<Id>)
    ensures CloseSet(CloseSet(sessions, a), b) == CloseSet(sessions, a + b)
  {
  }

  // ----- closing many sessions -----

  function SessionGrantsAny(l: Ledger, ids: set<Id>): set<Id> {
    set g | g in l.grants && l.grants[g].mode.SESSION? && l.grants[g].session.Some? && l.grants[g].session.value in ids
  }

  function ArtifactsInAny(l: Ledger, ids: set<Id>): set<Id> {
    set a | a in l.artifacts && l.artifacts[a].session in ids
  }

  function PendingInAny(l: Ledger, ids: set<Id>): set<Id> {
    set q | q in l.requests && l.requests[q].state.Pending?
            && l.requests[q].payload.session.Some? && l.requests[q].payload.session.value in ids
  }

  /** All sessions of `ids` closed at once. */
  function CloseMany(l: Ledger, ids: set<Id>): Ledger {
    l.(sessions := CloseSet(l.sessions, ids),
       grants := RevokeSet(l.grants, SessionGrantsAny(l, ids)),
       artifacts := BlockSet(l.artifacts, ArtifactsInAny(l, ids)),
       requests := FinalizeSet(l.requests, PendingInAny(l, ids), Invalidated))
  }

  lemma CloseNone(l: Ledger)
    ensures CloseMany(l, {}) == l
  {
    assert CloseSet(l.sessions, {}) == l.sessions;
    assert RevokeSet(l.grants, SessionGrantsAny(l, {})) == l.grants;
    assert BlockSet(l.artifacts, ArtifactsInAny(l, {})) == l.artifacts;
    assert FinalizeSet(l.requests, PendingInAny(l, {}), Invalidated) == l.requests;
  }

  lemma CloseManyGrants(l: Ledger, a: set<Id>, b: set<Id>)
    ensures SessionGrantsAny(CloseMany(l, a), b) == SessionGrantsAny(l, b)
    ensures SessionGrantsAny(l, a + b) == SessionGrantsAny(l, a) + SessionGrantsAny(l, b)
  {
    hide CloseSet, BlockSet, FinalizeSet;
  }

  lemma CloseManyArtifacts(l: Ledger, a: set<Id>, b: set<Id>)
    ensures ArtifactsInAny(CloseMany(l, a), b) == ArtifactsInAny(l, b)
    ensures ArtifactsInAny(l, a + b) == ArtifactsInAny(l, a) + ArtifactsInAny(l, b)
  {
    hide CloseSet, RevokeSet, FinalizeSet;
  }

  lemma CloseManyRequests(l: Ledger, a: set<Id>, b: set<Id>)
    ensures PendingInAny(l, a) + PendingInAny(CloseMany(l, a), b) == PendingInAny(l, a + b)
  {
    hide CloseSet, RevokeSet, BlockSet;
  }

  /** Closing some and then others is closing all of them. */
  lemma CloseManyMore(l: Ledger, a: set<Id>, b: set<Id>)
    ensures CloseMany(CloseMany(l, a), b) == CloseMany(l, a + b)
  {
    hide CloseSet, RevokeSet, BlockSet, FinalizeSet, SessionGrantsAny, ArtifactsInAny, PendingInAny;
    CloseTwice(l.sessions, a, b);
    CloseManyGrants(l, a, b);
    RevokeTwice(l.grants, SessionGrantsAny(l, a), SessionGrantsAny(l, b));
    CloseManyArtifacts(l, a, b);
    BlockTwice(l.artifacts, ArtifactsInAny(l, a), ArtifactsInAny(l, b));
    CloseManyRequests(l, a, b);
    FinalizeTwice(l.requests, PendingInAny(l, a), PendingInAny(CloseMany(l, a), b), Invalidated);
  }

  lemma CloseOne(l: Ledger, s: Id)
    ensures CloseSession(l, s) == CloseMany(l, {s})
  {
    assert SessionGrants(l, s) == SessionGrantsAny(l, {s});
    assert ArtifactsIn(l, s) == ArtifactsInAny(l, {s});
    assert PendingIn(l, s) == PendingInAny(l, {s});
  }

  function Below(ids: set<Id>, n: nat): set<Id> {
    set s | s in ids && s < n
  }

  /** Closing in the order of names is closing all of them. */
  lemma {:induction false} CloseAllIsMany(l: Ledger, ids: set<Id>, n: nat)
    ensures CloseAll(l, ids, n) == CloseMany(l, Below(ids, n))
  {
    hide CloseMany, CloseSession;
    if n == 0 {
      assert Below(ids, 0) == {};
      CloseNone(l);
    } else {
      CloseAllIsMany(l, ids, n - 1);
      if n - 1 in ids {
        CloseOne(CloseAll(l, ids, n - 1), n - 1);
        CloseManyMore(l, Below(ids, n - 1), {n - 1});
        assert Below(ids, n) == Below(ids, n - 1) + {n - 1};
      } else {
        assert Below(ids, n) == Below(ids, n - 1);
      }
    }
  }

  // ----- fencing binding by binding -----

  /** The sessions, requests and grants of several bindings at once. */
  function FenceMany(l: Ledger, bindings: seq<Binding>, all: bool, user: string): Ledger {
    var m := CloseMany(l, SessionsOf(l, bindings));
    m.(requests := FinalizeSet(m.requests, RequestsOf(m, bindings), Invalidated),
       grants := RevokeSet(m.grants, GrantsUnder(m, Retired(bindings, all, user))))
  }

  lemma BoundAppend(bindings: seq<Binding>, b: Binding, subject: string, profile: string)
    ensures BoundTo(bindings + [b], subject, profile) <==>
              BoundTo(bindings, subject, profile) || BoundTo([b], subject, profile)
  {
    var both := bindings + [b];
    assert both[|bindings|] == b;
    if BoundTo(bindings, subject, profile) {
      var i :| 0 <= i < |bindings| && bindings[i].subject == subject && bindings[i].profile == profile;
      assert both[i] == bindings[i];
    }
    if BoundTo([b], subject, profile) { assert both[|bindings|].subject == subject; }
  }

  lemma {:induction false} RetiredAppend(bindings: seq<Binding>, b: Binding, all: bool, user: string)
    ensures Retired(bindings + [b], all, user) == Retired(bindings, all, user) + Retired([b], all, user)
  {
    if bindings == [] {
      assert bindings + [b] == [b];
    } else {
      RetiredAppend(bindings[1..], b, all, user);
      assert (bindings + [b])[1..] == bindings[1..] + [b];
    }
  }

  lemma BoundConcat(a: seq<Binding>, b: seq<Binding>, subject: string, profile: string)
    ensures BoundTo(a + b, subject, profile) <==> BoundTo(a, subject, profile) || BoundTo(b, subject, profile)
    decreases |b|
  {
    if b == [] {
      assert a + b == a;
    } else {
      var c := b[..|b| - 1];
      BoundConcat(a, c, subject, profile);
      BoundAppend(a + c, b[|b| - 1], subject, profile);
      BoundAppend(c, b[|b| - 1], subject, profile);
      assert a + b == (a + c) + [b[|b| - 1]] && b == c + [b[|b| - 1]];
    }
  }

  lemma FenceSessions(l: Ledger, bindings: seq<Binding>, b: Binding, all: bool, user: string)
    ensures SessionsOf(l, bindings) + SessionsOf(FenceMany(l, bindings, all, user), [b]) ==
              SessionsOf(l, bindings + [b])
  {
    hide RevokeSet, BlockSet, FinalizeSet, BoundTo, Retired, GrantsUnder, RequestsOf, SessionGrantsAny;
    hide ArtifactsInAny, PendingInAny;
    var m := FenceMany(l, bindings, all, user);
    forall s | s in l.sessions
      ensures s in SessionsOf(l, bindings) + SessionsOf(m, [b]) <==> s in SessionsOf(l, bindings + [b])
    {
      BoundAppend(bindings, b, l.sessions[s].subject, l.sessions[s].profile);
    }
  }

  lemma FenceGrants(l: Ledger, bindings: seq<Binding>, b: Binding, all: bool, user: string, m: Ledger)
    requires m.grants.Keys == l.grants.Keys && forall g :: g in l.grants ==> m.grants[g].key == l.grants[g].key
    ensures GrantsUnder(l, Retired(bindings, all, user)) + GrantsUnder(m, Retired([b], all, user)) ==
              GrantsUnder(l, Retired(bindings + [b], all, user))
  {
    hide BoundTo, Retired;
    RetiredAppend(bindings, b, all, user);
    forall g | g in l.grants
      ensures g in GrantsUnder(l, Retired(bindings + [b], all, user)) <==>
                g in GrantsUnder(l, Retired(bindings, all, user)) + GrantsUnder(m, Retired([b], all, user))
    {
      BoundConcat(Retired(bindings, all, user), Retired([b], all, user), l.grants[g].key.subject,
                  l.grants[g].key.profile);
    }
  }

  /** A request a fence has reached. */
  predicate Reached(q: RequestRow, ids: set<Id>, bindings: seq<Binding>) {
    || (q.state.Pending? && q.payload.session.Some? && q.payload.session.value in ids)
    || ((q.state.Pending? || q.state.Allowed?) && BoundTo(bindings, q.payload.subject, q.payload.profile))
  }

  function ReachedSet(requests: map<Id, RequestRow>, ids: set<Id>, bindings: seq<Binding>): set<Id> {
    set q | q in requests && Reached(requests[q], ids, bindings)
  }

  lemma FenceReaches(l: Ledger, ids: set<Id>, bindings: seq<Binding>)
    ensures var m := CloseMany(l, ids);
            FinalizeSet(m.requests, RequestsOf(m, bindings), Invalidated) ==
              FinalizeSet(l.requests, ReachedSet(l.requests, ids, bindings), Invalidated)
  {
    hide CloseSet, RevokeSet, BlockSet, BoundTo;
  }

  lemma ReachedTwice(requests: map<Id, RequestRow>, a: set<Id>, b: set<Id>, bindings: seq<Binding>, more: Binding)
    ensures var m := FinalizeSet(requests, ReachedSet(requests, a, bindings), Invalidated);
            FinalizeSet(m, ReachedSet(m, b, [more]), Invalidated) ==
              FinalizeSet(requests, ReachedSet(requests, a + b, bindings + [more]), Invalidated)
  {
    hide BoundTo;
    forall q | q in requests
      ensures BoundTo(bindings + [more], requests[q].payload.subject, requests[q].payload.profile)
              <==> BoundTo(bindings, requests[q].payload.subject, requests[q].payload.profile)
                   || BoundTo([more], requests[q].payload.subject, requests[q].payload.profile)
    {
      BoundAppend(bindings, more, requests[q].payload.subject, requests[q].payload.profile);
    }
  }

  lemma FencedRequests(l: Ledger, bindings: seq<Binding>, b: Binding, all: bool, user: string)
    ensures FenceMany(FenceMany(l, bindings, all, user), [b], all, user).requests ==
              FenceMany(l, bindings + [b], all, user).requests
  {
    hide CloseMany, RevokeSet, FinalizeSet, RequestsOf, GrantsUnder, Retired, ReachedSet, SessionsOf;
    var m := FenceMany(l, bindings, all, user);
    FenceReaches(l, SessionsOf(l, bindings), bindings);
    FenceReaches(m, SessionsOf(m, [b]), [b]);
    FenceReaches(l, SessionsOf(l, bindings + [b]), bindings + [b]);
    ReachedTwice(l.requests, SessionsOf(l, bindings), SessionsOf(m, [b]), bindings, b);
    FenceSessions(l, bindings, b, all, user);
  }

  lemma FenceManyGrants(l: Ledger, bindings: seq<Binding>, all: bool, user: string)
    ensures FenceMany(l, bindings, all, user).grants
              == RevokeSet(l.grants, SessionGrantsAny(l, SessionsOf(l, bindings)) + GrantsUnder(l,
                      Retired(bindings, all, user)))
  {
    hide CloseSet, BlockSet, FinalizeSet, RequestsOf, Retired, SessionsOf, BoundTo, SessionGrantsAny;
    var m := CloseMany(l, SessionsOf(l, bindings));
    assert GrantsUnder(m, Retired(bindings, all, user)) == GrantsUnder(l, Retired(bindings, all, user));
    RevokeTwice(l.grants, SessionGrantsAny(l, SessionsOf(l, bindings)), GrantsUnder(l, Retired(bindings, all, user)));
  }

  lemma FencedGrants(l: Ledger, bindings: seq<Binding>, b: Binding, all: bool, user: string)
    ensures FenceMany(FenceMany(l, bindings, all, user), [b], all, user).grants ==
              FenceMany(l, bindings + [b], all, user).grants
  {
    hide FenceMany, Retired, SessionsOf, BoundTo, GrantsUnder;
    var m := FenceMany(l, bindings, all, user);
    var x, y := SessionsOf(l, bindings), SessionsOf(m, [b]);
    FenceManyGrants(l, bindings, all, user);
    FenceManyGrants(m, [b], all, user);
    FenceManyGrants(l, bindings + [b], all, user);
    FenceSessions(l, bindings, b, all, user);
    FenceGrants(l, bindings, b, all, user, m);
    assert SessionGrantsAny(m, y) == SessionGrantsAny(l, y);
    assert SessionGrantsAny(l, x + y) == SessionGrantsAny(l, x) + SessionGrantsAny(l, y);
    hide SessionGrantsAny, RevokeSet;
    var u, v := GrantsUnder(l, Retired(bindings, all, user)), GrantsUnder(m, Retired([b], all, user));
    RevokeTwice(l.grants, SessionGrantsAny(l, x) + u, SessionGrantsAny(l, y) + v);
    assert (SessionGrantsAny(l, x) + u) + (SessionGrantsAny(l, y) + v) == SessionGrantsAny(l, x + y) + (u + v);
  }

  lemma FencedRest(l: Ledger, bindings: seq<Binding>, b: Binding, all: bool, user: string)
    ensures var n, k := FenceMany(FenceMany(l, bindings, all, user), [b], all, user),
        FenceMany(l, bindings + [b], all, user);
            n.sessions == k.sessions && n.artifacts == k.artifacts && n == k.(requests := n.requests,
                    grants := n.grants)
  {
    hide CloseSet, BlockSet, RevokeSet, FinalizeSet, RequestsOf, Retired, SessionsOf, GrantsUnder, SessionGrantsAny;
    hide PendingInAny, ArtifactsInAny;
    var m := FenceMany(l, bindings, all, user);
    var x, y := SessionsOf(l, bindings), SessionsOf(m, [b]);
    FenceSessions(l, bindings, b, all, user);
    CloseTwice(l.sessions, x, y);
    SameArtifacts(m, CloseMany(l, x), y);
    CloseManyArtifacts(l, x, y);
    BlockTwice(l.artifacts, ArtifactsInAny(l, x), ArtifactsInAny(l, y));
  }

  lemma SameArtifacts(l: Ledger, m: Ledger, ids: set<Id>)
    requires l.artifacts == m.artifacts
    ensures ArtifactsInAny(l, ids) == ArtifactsInAny(m, ids)
  {
  }

  /** Fencing one more binding is fencing all of them. */
  lemma FenceManyMore(l: Ledger, bindings: seq<Binding>, b: Binding, all: bool, user: string)
    ensures FenceMany(FenceMany(l, bindings, all, user), [b], all, user) == FenceMany(l, bindings + [b], all, user)
  {
    hide FenceMany;
    FencedRequests(l, bindings, b, all, user);
    FencedGrants(l, bindings, b, all, user);
    FencedRest(l, bindings, b, all, user);
  }

  lemma FenceNone(l: Ledger, all: bool, user: string)
    ensures FenceMany(l, [], all, user) == l
  {
    assert SessionsOf(l, []) == {};
    CloseNone(l);
    assert RequestsOf(l, []) == {} && GrantsUnder(l, []) == {};
    assert FinalizeSet(l.requests, {}, Invalidated) == l.requests;
    assert RevokeSet(l.grants, {}) == l.grants;
  }

  /** The set-wise fence is the fence of all bindings, then the receipts, then the cleanup. */
  lemma FenceIsMany(l: Ledger, bindings: seq<Binding>, all: bool, user: string)
    requires forall s :: s in l.sessions ==> s < l.next
    ensures var m := FenceMany(l, bindings, all, user);
            FenceProfiles(l, bindings, all, user)
              == Bump(FinishCleanup(m.(receipts := InvalidateSet(m.receipts, ReceiptsUnder(m, bindings)))))
  {
    hide CloseMany, CloseAll, RevokeSet, InvalidateSet, FinalizeSet, RequestsOf, GrantsUnder, Retired, FinishCleanup;
    var ids := SessionsOf(l, bindings);
    CloseAllIsMany(l, ids, l.next);
    assert Below(ids, l.next) == ids;
    var m := CloseMany(l, ids);
    assert ReceiptsUnder(m, bindings) == ReceiptsUnder(FenceMany(l, bindings, all, user), bindings);
  }

  // ----- replaying definition by definition -----

  /** One definition is invalidated and projected anew. */
  function RedefineOne(l: Ledger, d: string, config: Config): Ledger {
    Invalidate(l, d).(definitions := l.definitions[d := config])
  }

  lemma RedefinedSets(l: Ledger, definitions: map<string, Config>, names: set<string>, d: string,
                      installed: (string, string, string) -> bool)
    requires names <= definitions.Keys && d in definitions
    ensures var m := Redefine(l, definitions, names, installed);
            && GrantsOf(m, d) == GrantsOfAny(l, {d})
            && GrantsOfAny(l, names) + GrantsOfAny(l, {d}) == GrantsOfAny(l, names + {d})
  {
    hide InvalidateSet, BlockSet, FinalizeSet, ReceiptsOn, ArtifactsOn, PendingOnAny, Reproject;
  }

  lemma RedefinedReceipts(l: Ledger, definitions: map<string, Config>, names: set<string>,
                          installed: (string, string, string) -> bool, a: set<Id>, b: set<Id>)
    requires names <= definitions.Keys
    ensures var m := Redefine(l, definitions, names, installed); ReceiptsOn(m, b) == ReceiptsOn(l, b)
    ensures ReceiptsOn(l, a) + ReceiptsOn(l, b) == ReceiptsOn(l, a + b)
  {
    hide RevokeSet, BlockSet, FinalizeSet, ArtifactsOn, PendingOnAny, Reproject, GrantsOfAny;
    forall r | r in l.receipts
      ensures l.receipts[r].sources * (a + b) == l.receipts[r].sources * a + l.receipts[r].sources * b
    {
    }
  }

  lemma RedefinedArtifacts(l: Ledger, definitions: map<string, Config>, names: set<string>,
                           installed: (string, string, string) -> bool, a: set<Id>, b: set<Id>)
    requires names <= definitions.Keys
    ensures var m := Redefine(l, definitions, names, installed); ArtifactsOn(m, b) == ArtifactsOn(l, b)
    ensures ArtifactsOn(l, a) + ArtifactsOn(l, b) == ArtifactsOn(l, a + b)
  {
    hide RevokeSet, InvalidateSet, FinalizeSet, ReceiptsOn, PendingOnAny, Reproject, GrantsOfAny;
    forall x | x in l.artifacts
      ensures l.artifacts[x].sources * (a + b) == l.artifacts[x].sources * a + l.artifacts[x].sources * b
    {
    }
  }

  lemma MentionsMore(p: Payload, names: set<string>, d: string)
    ensures MentionsAny(p, names + {d}) <==> MentionsAny(p, names) || Mentions(p, d)
  {
    if MentionsAny(p, names) {
      var i :| 0 <= i < |p.requirements| && p.requirements[i].definition in names;
      assert p.requirements[i].definition in names + {d};
    }
    if Mentions(p, d) {
      var i :| 0 <= i < |p.requirements| && p.requirements[i].definition == d;
      assert p.requirements[i].definition in names + {d};
    }
  }

  lemma RedefinedRequests(l: Ledger, definitions: map<string, Config>, names: set<string>, d: string,
                          installed: (string, string, string) -> bool)
    requires names <= definitions.Keys
    ensures var m := Redefine(l, definitions, names, installed);
            PendingOnAny(l, names) + PendingOn(m, d) == PendingOnAny(l, names + {d})
  {
    hide RevokeSet, InvalidateSet, BlockSet, ReceiptsOn, ArtifactsOn, Reproject, GrantsOfAny, MentionsAny, Mentions;
    forall q | q in l.requests
      ensures MentionsAny(l.requests[q].payload, names + {d}) <==>
                MentionsAny(l.requests[q].payload, names) || Mentions(l.requests[q].payload, d)
    {
      MentionsMore(l.requests[q].payload, names, d);
    }
  }

  lemma ReprojectMore(table: map<string, Config>, definitions: map<string, Config>, names: set<string>, d: string,
                      installed: (string, string, string) -> bool)
    requires names <= definitions.Keys && d in definitions
    ensures Reproject(table, definitions, names, installed)[d := Projected(definitions[d], installed)]
              == Reproject(table, definitions, names + {d}, installed)
  {
  }

  /** Replaying one more definition is replaying all of them. */
  lemma RedefineMore(l: Ledger, definitions: map<string, Config>, names: set<string>, d: string,
                     installed: (string, string, string) -> bool)
    requires names <= definitions.Keys && d in definitions
    ensures RedefineOne(Redefine(l, definitions, names, installed), d, Projected(definitions[d], installed))
              == Redefine(l, definitions, names + {d}, installed)
  {
    hide RevokeSet, InvalidateSet, BlockSet, FinalizeSet, ReceiptsOn, ArtifactsOn, PendingOnAny, PendingOn;
    hide Reproject, GrantsOfAny, GrantsOf, Projected;
    var m := Redefine(l, definitions, names, installed);
    var a, b := GrantsOfAny(l, names), GrantsOfAny(l, {d});
    RedefinedSets(l, definitions, names, d, installed);
    RevokeTwice(l.grants, a, b);
    RedefinedReceipts(l, definitions, names, installed, a, b);
    InvalidateTwice(l.receipts, ReceiptsOn(l, a), ReceiptsOn(l, b));
    RedefinedArtifacts(l, definitions, names, installed, a, b);
    BlockTwice(l.artifacts, ArtifactsOn(l, a), ArtifactsOn(l, b));
    RedefinedRequests(l, definitions, names, d, installed);
    FinalizeTwice(l.requests, PendingOnAny(l, names), PendingOn(m, d), Invalidated);
    ReprojectMore(l.definitions, definitions, names, d, installed);
  }
}
