/** The repository as an object: a database handle, the registry beside it, and the statements and
    loops of its methods, each proved to leave what the functions on ledgers say. */
module Repository {
  import opened Types
  import opened Ledger
  import opened Conditions
  import opened Operations
  import opened Daemon
  import opened Invariants
  import opened Transactions
  import opened Runs
  import opened Maintenance
  import opened Sequences
  import L = Ledger
  import C = Conditions
  import O = Operations
  import D = Daemon
  import R = Registry

  // ----- the records of one class -----

  function Kind(x: Record): nat {
    match x
    case ReceiptRecord(_) => 0
    case RequestRecord(_) => 1
    case SessionRecord(_) => 2
    case GrantRecord(_) => 3
  }

  /** The rows a class of the maintenance selects. */
  function Candidates(l: Ledger, kind: nat): (c: set<Record>)
    requires kind < 4
    ensures forall x :: x in c <==> Kind(x) == kind && Clearable(l, x)
  {
    if kind == 0 then set r | r in l.receipts && Clearable(l, ReceiptRecord(r)) :: ReceiptRecord(r)
    else if kind == 1 then set q | q in l.requests && Clearable(l, RequestRecord(q)) :: RequestRecord(q)
    else if kind == 2 then set s | s in l.sessions && Clearable(l, SessionRecord(s)) :: SessionRecord(s)
    else set g | g in l.grants && Clearable(l, GrantRecord(g)) :: GrantRecord(g)
  }

  lemma StillClearable(l: Ledger, x: Record, y: Record)
    requires x != y && Kind(x) == Kind(y) && Clearable(l, x) && Clearable(l, y)
    ensures Clearable(Clear(l, x), y)
  {
  }

  lemma EffectiveMore(l: Ledger, records: seq<Record>, x: Record)
    requires Effective(l, records) && Clearable(ClearAll(l, records), x)
    ensures Effective(l, records + [x]) && ClearAll(l, records + [x]) == Clear(ClearAll(l, records), x)
  {
    hide Clearable, Clear;
    var more := records + [x];
    assert more[..|records|] == records;
    forall i | 0 <= i < |more| ensures Clearable(ClearAll(l, more[..i]), more[i]) {
      if i < |records| { assert more[..i] == records[..i] && more[i] == records[i]; }
    }
  }

  /** The turn of a class when the rotation starts at another. */
  function TurnOf(rotation: nat, kind: nat): nat
    requires rotation < 4
  {
    (kind + 4 - rotation) % 4
  }

  lemma ClassOfTurn(rotation: nat, turn: nat, kind: nat)
    requires rotation < 4 && turn < 4 && kind < 4
    ensures TurnOf(rotation, kind) == turn <==> kind == (rotation + turn) % 4
  {
  }

  ghost predicate NoneOf(l: Ledger, kind: nat) {
    forall x :: Kind(x) == kind ==> !Clearable(l, x)
  }

  /** The classes of the first `turns` turns have nothing to clear. */
  ghost predicate NothingIn(l: Ledger, rotation: nat, turns: nat)
    requires rotation < 4
  {
    forall k :: k < 4 && TurnOf(rotation, k) < turns ==> NoneOf(l, k)
  }

  lemma NothingInMore(l: Ledger, rotation: nat, turns: nat)
    requires rotation < 4 && turns < 4 && NothingIn(l, rotation, turns) && Candidates(l, (rotation + turns) % 4) == {}
    ensures NothingIn(l, rotation, turns + 1)
  {
    hide Clearable, Candidates;
    forall k | k < 4 && TurnOf(rotation, k) < turns + 1 ensures NoneOf(l, k) {
      ClassOfTurn(rotation, turns, k);
      if TurnOf(rotation, k) == turns {
        forall x | Kind(x) == k ensures !Clearable(l, x) { assert x !in Candidates(l, k); }
      }
    }
  }

  lemma NothingCleared(l: Ledger, rotation: nat)
    requires rotation < 4
    ensures ClearAll(l, []) == l && Effective(l, []) && NothingIn(l, rotation, 0)
  {
  }

  lemma EffectiveFront(l: Ledger, b: seq<Record>)
    requires b != [] && Effective(l, b)
    ensures var c, x := b[..|b| - 1], b[|b| - 1];
            Effective(l, c) && Clearable(ClearAll(l, c), x) && ClearAll(l, b) == Clear(ClearAll(l, c), x)
  {
    hide Clearable, Clear;
    var c := b[..|b| - 1];
    forall i | 0 <= i < |c| ensures Clearable(ClearAll(l, c[..i]), c[i]) {
      assert c[..i] == b[..i] && c[i] == b[i];
    }
  }

  lemma {:induction false} EffectiveJoined(l: Ledger, a: seq<Record>, b: seq<Record>)
    requires Effective(l, a) && Effective(ClearAll(l, a), b)
    ensures ClearAll(l, a + b) == ClearAll(ClearAll(l, a), b) && Effective(l, a + b)
    decreases |b|
  {
    hide Clearable, Clear, Effective;
    if b == [] {
      assert a + b == a;
    } else {
      var c, x := b[..|b| - 1], b[|b| - 1];
      EffectiveFront(ClearAll(l, a), b);
      EffectiveJoined(l, a, c);
      EffectiveMore(l, a + c, x);
      assert a + b == (a + c) + [x];
    }
  }

  lemma NothingAtAll(l: Ledger, rotation: nat)
    requires rotation < 4 && NothingIn(l, rotation, 4)
    ensures Idle(l)
  {
    hide Clearable;
    forall x ensures !Clearable(l, x) { assert NoneOf(l, Kind(x)); }
  }

  lemma FinalizeNone(requests: map<Id, RequestRow>, state: RequestState)
    ensures FinalizeSet(requests, {}, state) == requests
  {
  }

  lemma FinalizeMore(requests: map<Id, RequestRow>, ids: set<Id>, q: Id, state: RequestState)
    ensures var f := FinalizeSet(requests, ids, state);
            FinalizeSet(requests, ids + {q}, state) ==
            if q in f then f[q := f[q].(state := state, token := None)] else f
  {
  }

  class Repository {
    var db: Ledger
    var book: R.Book
    var fenced: bool
    var halted: bool
    var rotation: nat

    ghost function View(): Repo
      reads this
    {
      Repo(db, book, fenced, halted)
    }

    ghost predicate Valid()
      reads this
    {
      Steady(View()) && rotation < 4
    }

    constructor ()
      ensures Valid() && View() == FRESH
    {
      db := EMPTY;
      book := R.Book(map[], map[], 0);
      fenced, halted, rotation := false, false, 0;
      new;
      FreshSteady();
    }

    // ----- statements -----

    /** The requests of `ids` are ended, one UPDATE each. */
    method EndRequests(ids: set<Id>, state: RequestState)
      modifies this`db
      ensures db == old(db).(requests := FinalizeSet(old(db).requests, ids, state))
    {
      hide FinalizeSet;
      var left := ids;
      ghost var was := db.requests;
      FinalizeNone(was, state);
      assert ids - left == {};
      while left != {}
        invariant left <= ids
        invariant db == old(db).(requests := FinalizeSet(was, ids - left, state))
        decreases left
      {
        var q :| q in left;
        FinalizeMore(was, ids - left, q, state);
        if q in db.requests {
          db := db.(requests := db.requests[q := db.requests[q].(state := state, token := None)]);
        }
        assert (ids - left) + {q} == ids - (left - {q});
        left := left - {q};
      }
      assert ids - left == ids;
    }

    method CloseSession(session: Id)
      modifies this`db
      ensures db == L.CloseSession(old(db), session)
    {
      db := db.(sessions := CloseSet(db.sessions, {session}));
      db := db.(grants := RevokeSet(db.grants, SessionGrants(db, session)));
      db := db.(artifacts := BlockSet(db.artifacts, ArtifactsIn(db, session)));
      EndRequests(PendingIn(db, session), Invalidated);
    }

    /** Closes the sessions of `ids`, in whatever order their rows come. */
    method CloseSessions(ids: set<Id>)
      modifies this`db
      ensures db == CloseMany(old(db), ids)
    {
      hide CloseMany, L.CloseSession;
      var left := ids;
      CloseNone(db);
      assert ids - left == {};
      while left != {}
        invariant left <= ids
        invariant db == CloseMany(old(db), ids - left)
        decreases left
      {
        var s :| s in left;
        CloseOne(db, s);
        CloseManyMore(old(db), ids - left, {s});
        CloseSession(s);
        assert (ids - left) + {s} == ids - (left - {s});
        left := left - {s};
      }
      assert ids - left == ids;
    }

    method SuspendSession(session: Id, now: nat)
      modifies this`db
      ensures db == L.SuspendSession(old(db), session, now)
    {
      if session in db.sessions && db.sessions[session].state.Open? {
        var s := db.sessions[session];
        db := db.(sessions := db.sessions[session := s.(state := Suspended, generation := s.generation + 1,
                                                        resume := now + s.grace)]);
      }
      EndRequests(PendingIn(db, session), Invalidated);
    }

    method Expire(now: nat)
      modifies this`db
      ensures db == O.Expire(old(db), now)
    {
      hide L.CloseSession, L.SuspendSession, FinalizeSet, BlockSet;
      var late := ExpiredRequests(db, now);
      EndRequests(late, Expired);
      var close, suspend := CloseDue(db.sessions, now), SuspendDue(db.sessions, now);
      ghost var start := db;
      var last := db.next;
      for s := 0 to last
        invariant db == CloseAll(start, close, s)
      {
        if s in close { CloseSession(s); }
      }
      ghost var closed := db;
      for s := 0 to last
        invariant db == SuspendAll(closed, suspend, now, s)
      {
        if s in suspend { SuspendSession(s, now); }
      }
      var gone := ExpiredArtifacts(db, now);
      db := db.(artifacts := BlockSet(db.artifacts, gone));
      db := FinishCleanup(db);
      if late != {} || close != {} || suspend != {} || gone != {} { db := Bump(db); }
    }

    method Invalidate(definition: string)
      modifies this`db
      ensures db == L.Invalidate(old(db), definition)
    {
      var ids := GrantsOf(db, definition);
      db := db.(grants := RevokeSet(db.grants, ids));
      db := db.(receipts := InvalidateSet(db.receipts, ReceiptsOn(db, ids)));
      db := db.(artifacts := BlockSet(db.artifacts, ArtifactsOn(db, ids)));
      EndRequests(PendingOn(db, definition), Invalidated);
    }

    /** Projects the registry definition by definition, in whatever order they come. */
    method Replay(installed: (string, string, string) -> bool)
      modifies this`db, this`fenced
      ensures db == D.Replay(old(db), book, installed) && !fenced
    {
      hide D.Redefine, RevokeSet, InvalidateSet, BlockSet, FinalizeSet, GrantsOf, ReceiptsOn, ArtifactsOn;
      hide PendingOn, Projected;
      var left := book.definitions.Keys;
      var changed := false;
      ghost var names: set<string> := {};
      RedefineNothing(db, book.definitions, installed);
      while left != {}
        invariant left <= book.definitions.Keys && names <= book.definitions.Keys
        invariant names == Changed(old(db), book.definitions, installed) - left
        invariant db == Redefine(old(db), book.definitions, names, installed)
        invariant changed <==> names != {}
        decreases left
      {
        var d :| d in left;
        var config := Projected(book.definitions[d], installed);
        TableUntouched(old(db), book.definitions, names, d, installed);
        if !(d in db.definitions && db.definitions[d] == config) {
          changed := true;
          RedefineMore(old(db), book.definitions, names, d, installed);
          Invalidate(d);
          db := db.(definitions := db.definitions[d := config]);
          names := names + {d};
        }
        left := left - {d};
      }
      assert names == Changed(old(db), book.definitions, installed);
      if db.applied != book.revision { changed := true; }
      db := db.(applied := book.revision);
      if changed { db := Bump(db); }
      fenced := false;
      MarkedApplied(old(db), book.definitions, names, installed);
    }

    /** The fence of a profile switch, binding by binding. */
    method Fence(bindings: seq<Binding>, all: bool, user: string)
      requires Named(db)
      modifies this`db
      ensures db == FenceProfiles(old(db), bindings, all, user)
    {
      hide CloseMany, FinalizeSet, RevokeSet, InvalidateSet, SessionsOf, RequestsOf, GrantsUnder, ReceiptsUnder;
      hide Retired, FinishCleanup;
      FenceNone(db, all, user);
      for i := 0 to |bindings|
        invariant db == FenceMany(old(db), bindings[..i], all, user)
      {
        var b := bindings[i];
        FenceManyMore(old(db), bindings[..i], b, all, user);
        assert bindings[..i + 1] == bindings[..i] + [b];
        CloseSessions(SessionsOf(db, [b]));
        ghost var m := db;
        EndRequests(RequestsOf(db, [b]), Invalidated);
        SameUnder(db, m, Retired([b], all, user));
        db := db.(grants := RevokeSet(db.grants, GrantsUnder(db, Retired([b], all, user))));
      }
      assert bindings[..|bindings|] == bindings;
      FenceIsMany(old(db), bindings, all, user);
      db := db.(receipts := InvalidateSet(db.receipts, ReceiptsUnder(db, bindings)));
      db := FinishCleanup(db);
      db := Bump(db);
    }

    method ResetRuntime()
      modifies this`db
      ensures db == D.ResetRuntime(old(db))
    {
      EndRequests(PendingRequests(db), Invalidated);
      db := db.(sessions := CloseSet(db.sessions, LiveSessions(db)));
      db := db.(grants := RevokeSet(db.grants, Temporary(db)));
      db := db.(receipts := InvalidateSet(db.receipts, db.receipts.Keys));
      db := db.(artifacts := BlockSet(db.artifacts, db.artifacts.Keys));
      db := FinishCleanup(db);
      db := Bump(db);
    }

    // ----- conditions -----

    /** The usable grant inserted last. */
    method FindGrant(key: GrantKey, q: Question, now: nat) returns (found: Option<Id>)
      ensures found == C.FindGrant(db.grants, key, q, now, db.next)
    {
      var n: nat := db.next;
      while n > 0
        invariant n <= db.next
        invariant C.FindGrant(db.grants, key, q, now, db.next) == C.FindGrant(db.grants, key, q, now, n)
      {
        n := n - 1;
        if n in db.grants && Usable(db.grants[n], key, q, now) { return Some(n); }
      }
      return None;
    }

    /** One decision per requirement, and the grants behind them. */
    method CheckConditions(env: Env, peer: Peer, q: Question, enforce: bool) returns (r: Result<Verdict>)
      ensures r == C.CheckConditions(db, env, peer, q, enforce)
    {
      hide Identifier, BoundArguments, C.FindGrant, ActiveSession, CacheTtl;
      var n := |q.payload.requirements|;
      if !(1 <= n <= 16) { return Err(EINVAL); }
      var t := START;
      for i := 0 to n
        invariant CheckRows(db, env, peer, q, enforce, i) == Ok(t)
      {
        var row := CheckRow(db, env, peer, q, enforce, i, t);
        if row.Err? {
          RowsFail(db, env, peer, q, enforce, i + 1, n);
          return Err(row.status);
        }
        t := row.value;
      }
      if q.payload.session.Some? {
        var active := ActiveSession(db.sessions, env.now, peer, q.payload);
        if active.Err? { return Err(active.status); }
      }
      var ttl := CacheTtl(db.sessions, env.now, q.payload);
      return Ok(Verdict(Overall(t), t.rows, t.grants,
                        q.payload.approval.None? && t.cacheable && !enforce && !t.required && !t.denied && ttl > 0,
                        if ttl > 0 then ttl else 0));
    }

    // ----- transactions with loops -----

    /** Takes one use from each ONCE grant named, and leaves the receipt. */
    method Authorize(env: Env, peer: Peer, p: Payload) returns (r: Result<Change>)
      modifies this`db
      ensures r == AuthorizeAnew(old(db), env, peer, p)
      ensures db == if r.Ok? then r.value.db else old(db)
    {
      hide C.CheckConditions, Consume;
      var v := CheckConditions(env, peer, Question(p, None, Target(p, env.now), true), true);
      if v.Err? { return Err(v.status); }
      if !v.value.decision.ALLOWED? { return Ok(Guarded(db, Decided(v.value, None, None))); }
      var ids := v.value.grants;
      ConsumeNone(db.grants, ids);
      for i := 0 to |ids|
        invariant db == old(db).(grants := Consume(old(db).grants, ids, i))
      {
        var g := ids[i];
        ConsumeMore(old(db).grants, ids, i);
        if g in db.grants && db.grants[g].mode.ONCE? && db.grants[g].remaining > 0 {
          db := db.(grants := db.grants[g := db.grants[g].(remaining := db.grants[g].remaining - 1)]);
        }
      }
      var id := db.next;
      var e := Execution(peer.identity, p.operation, p.step);
      db := db.(receipts := db.receipts[id := Receipt(e, p, Some(p), env.now, true, Elements(ids))],
                executions := db.executions[e := id], next := id + 1);
      db := Bump(db);
      return Ok(Guarded(db, Decided(v.value, Some(id), None)));
    }

    /** Inserts a grant for each displayed row still missing one; a refused mode undoes them all. */
    method IssueGrants(q: RequestRow, current: Verdict, mode: Mode, expires: nat) returns (r: Result<set<Id>>)
      requires |q.rows| == |current.rows| == |q.payload.requirements|
      requires forall g :: g in db.grants ==> g < db.next
      modifies this`db
      ensures var m := Issue(old(db), q, current, mode, expires, |q.rows|);
              && (m.Err? ==> r == Err(m.status) && db == old(db))
              && (m.Ok? ==> db == m.value && r == Ok(NewGrants(old(db), db)))
    {
      hide Wanted, NewGrant, Definition;
      var saved := db;
      var issued: set<Id> := {};
      for i := 0 to |q.rows|
        invariant Issue(old(db), q, current, mode, expires, i) == Ok(db)
        invariant old(db).next <= db.next && issued == NewGrants(old(db), db)
        invariant forall g :: g in old(db).grants ==> g < old(db).next
      {
        if Wanted(q, current, i) {
          var c := Definition(db.definitions, q.payload.requirements[i].definition);
          if c.Err? || mode !in c.value.modes {
            var status := if c.Err? then c.status else EACCES;
            IssueFails(old(db), q, current, mode, expires, i + 1, |q.rows|);
            db := saved;
            return Err(status);
          }
          issued := issued + {db.next};
          db := db.(grants := db.grants[db.next := NewGrant(q, i, c.value, mode, expires)], next := db.next + 1);
        }
      }
      return Ok(issued);
    }

    // ----- maintenance -----

    /** Clears records of one class, as far as the budget goes. */
    method CompactClass(kind: nat, budget: nat) returns (cleared: seq<Record>)
      requires kind < 4
      modifies this`db
      ensures |cleared| <= budget
      ensures db == ClearAll(old(db), cleared) && Effective(old(db), cleared)
      ensures cleared == [] && budget > 0 ==> Candidates(old(db), kind) == {}
    {
      hide Clear, Clearable;
      cleared := [];
      var left := Candidates(db, kind);
      while left != {} && |cleared| < budget
        invariant |cleared| <= budget
        invariant db == ClearAll(old(db), cleared) && Effective(old(db), cleared)
        invariant forall x :: x in left ==> Kind(x) == kind && Clearable(db, x)
        invariant cleared == [] ==> left == Candidates(old(db), kind)
        decreases left
      {
        var x :| x in left;
        left := left - {x};
        forall y | y in left ensures Clearable(Clear(db, x), y) { StillClearable(db, x, y); }
        EffectiveMore(old(db), cleared, x);
        db := Clear(db, x);
        cleared := cleared + [x];
      }
    }

    /** Clears at most the shared budget of records, starting each time with another class. */
    method CompactMetadata() returns (cleared: seq<Record>)
      requires Valid()
      modifies this`db, this`rotation
      ensures Valid() && View() == old(View()).(db := db)
      ensures Batch(old(db), db, cleared)
      ensures rotation == (old(rotation) + 1) % 4
    {
      hide Steady, ClearAll, NothingIn, Candidates, Effective, Idle;
      cleared := [];
      var first := rotation;
      NothingCleared(db, first);
      for turn := 0 to 4
        invariant rotation == first && |cleared| <= MAINTENANCE_LIMIT
        invariant db == ClearAll(old(db), cleared) && Effective(old(db), cleared)
        invariant cleared == [] ==> NothingIn(old(db), first, turn)
      {
        if |cleared| < MAINTENANCE_LIMIT {
          ghost var before := db;
          var more := CompactClass((first + turn) % 4, MAINTENANCE_LIMIT - |cleared|);
          EffectiveJoined(old(db), cleared, more);
          if cleared == [] && more == [] { NothingInMore(old(db), first, turn); }
          cleared := cleared + more;
        }
      }
      if cleared == [] { NothingAtAll(old(db), first); }
      rotation := (rotation + 1) % 4;
      ClearedSteady(old(View()), cleared);
    }

    // ----- Execute -----

    /** Commits, unless a profile switch fenced before or while it did. */
    method ProfileCommit(c: Change, f: Fences) returns (status: Option<Status>)
      requires !halted
      modifies this`db, this`halted, this`fenced
      ensures var d := Commit(old(db), c, f);
              db == d.db && status == d.status && halted == d.halted && fenced == (d.halted || old(fenced))
    {
      hide FinalizeSet;
      if !c.guarded || !f.enabled {
        db := c.db;
        return None;
      }
      if f.before > 0 { return Some(ESTALE); }
      db := c.db;
      if f.during == 0 { return None; }
      if !f.compensates {
        halted, fenced := true, true;
        return Some(STORAGE);
      }
      RevokeEach(c.issued);
      if c.request.Some? { EndRequests({c.request.value}, Invalidated); }
      db := Bump(db);
      return Some(ESTALE);
    }

    method RevokeEach(ids: set<Id>)
      modifies this`db
      ensures db == old(db).(grants := RevokeSet(old(db).grants, ids))
    {
      var left := ids;
      assert RevokeSet(db.grants, {}) == db.grants;
      assert ids - left == {};
      while left != {}
        invariant left <= ids
        invariant db == old(db).(grants := RevokeSet(old(db).grants, ids - left))
        decreases left
      {
        var g :| g in left;
        if g in db.grants { db := db.(grants := db.grants[g := db.grants[g].(revoked := true)]); }
        left := left - {g};
        assert db.grants == RevokeSet(old(db).grants, ids - left);
      }
      assert ids - left == ids;
    }

    /** One request of a client, from the replay that may be due to the reply. */
    method Execute(env: Env, peer: Peer, call: Call) returns (reply: Result<Reply>)
      requires Valid()
      modifies this`db, this`fenced, this`halted
      ensures Valid() && (View(), reply) == D.Execute(old(View()), env, peer, call)
    {
      hide Steady, O.Expire, D.Replay, Dispatch, Commit, Publish;
      ghost var s := View();
      ExecuteKeeps(s, env, peer, call);
      if halted { return Err(STORAGE); }
      if fenced { Replay(env.installed); }
      Expire(env.now);
      if peer.identity == "" || peer.instance == "" { return Err(EACCES); }
      var change := Dispatch(db, env, peer, call);
      if change.Err? { return Err(change.status); }
      var status := ProfileCommit(change.value, env.fences);
      if status.Some? { return Err(status.value); }
      return Publish(db, book, env, peer, call, change.value.reply);
    }
  }

  lemma ExecuteKeeps(s: Repo, env: Env, peer: Peer, call: Call)
    requires Steady(s)
    ensures Steady(D.Execute(s, env, peer, call).0)
  {
    hide Steady, D.Execute;
    StepKeeps(s, Stamped(env, Invoke(peer, call)));
  }

  lemma ClearedSteady(s: Repo, records: seq<Record>)
    requires Steady(s)
    ensures Steady(s.(db := ClearAll(s.db, records)))
  {
    hide Inv, Sound, Projects, ClearAll;
    ClearAllKeeps(s.db, records);
    ClearAllTable(s.db, records);
  }

  lemma {:induction false} RowsFail(l: Ledger, env: Env, peer: Peer, q: Question, enforce: bool, i: nat, n: nat)
    requires i <= n <= |q.payload.requirements| && CheckRows(l, env, peer, q, enforce, i).Err?
    ensures CheckRows(l, env, peer, q, enforce, n) == CheckRows(l, env, peer, q, enforce, i)
  {
    hide CheckRow;
    if i < n { RowsFail(l, env, peer, q, enforce, i, n - 1); }
  }

  lemma {:induction false} IssueFails(l: Ledger, q: RequestRow, current: Verdict, mode: Mode, expires: nat, i: nat,
                                      n: nat)
    requires i <= n <= |q.rows| == |current.rows| == |q.payload.requirements|
             && Issue(l, q, current, mode, expires, i).Err?
    ensures Issue(l, q, current, mode, expires, n) == Issue(l, q, current, mode, expires, i)
  {
    if i < n { IssueFails(l, q, current, mode, expires, i, n - 1); }
  }

  lemma ConsumeNone(grants: map<Id, Grant>, ids: seq<Id>)
    ensures Consume(grants, ids, 0) == grants
  {
  }

  lemma ConsumeMore(grants: map<Id, Grant>, ids: seq<Id>, i: nat)
    requires i < |ids|
    ensures var m := Consume(grants, ids, i);
            Consume(grants, ids, i + 1) ==
              if ids[i] in m && m[ids[i]].mode.ONCE? && m[ids[i]].remaining > 0
              then m[ids[i] := m[ids[i]].(remaining := m[ids[i]].remaining - 1)] else m
  {
  }


  lemma TableUntouched(l: Ledger, definitions: map<string, Config>, names: set<string>, d: string,
                       installed: (string, string, string) -> bool)
    requires names <= definitions.Keys && d !in names
    ensures var m := Redefine(l, definitions, names, installed);
            && m.applied == l.applied
            && (d in m.definitions <==> d in l.definitions)
            && (d in l.definitions ==> m.definitions[d] == l.definitions[d])
  {
    hide RevokeSet, InvalidateSet, BlockSet, FinalizeSet, ReceiptsOn, ArtifactsOn, PendingOnAny, GrantsOfAny;
  }

  lemma MarkedApplied(l: Ledger, definitions: map<string, Config>, names: set<string>,
                      installed: (string, string, string) -> bool)
    requires names <= definitions.Keys
    ensures Redefine(l, definitions, names, installed).applied == l.applied
  {
  }

  lemma SameUnder(l: Ledger, m: Ledger, bindings: seq<Binding>)
    requires l.grants == m.grants
    ensures GrantsUnder(l, bindings) == GrantsUnder(m, bindings)
  {
  }
}
