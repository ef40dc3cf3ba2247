/** When conditions are decided at all, what is decided for each requirement, and how long a decision
    under an approval lasts. */
module Coverage {
  import opened Types
  import opened Ledger
  import opened Conditions
  import opened Invariants
  import opened Verdicts
  import opened Withdrawals
  import opened Caching

  // ----- what is decided -----

  ghost predicate Defined(l: Ledger, r: Requirement) {
    r.definition in l.definitions && l.definitions[r.definition].active
  }

  /** The decision on requirement `i`: denied without an active definition, allowed with a grant to use, and
      otherwise in need of consent. */
  ghost function Says(l: Ledger, q: Question, now: nat, i: nat): Row
    requires i < |q.payload.requirements|
  {
    var r := q.payload.requirements[i];
    if !Defined(l, r) then Row(DENIED, "", "")
    else
      var c := l.definitions[r.definition];
      Row(if Supplied(l, q, now, i) then ALLOWED else CONSENT_REQUIRED, c.policyVersion, c.textRevision)
  }

  lemma RowSays(l: Ledger, env: Env, peer: Peer, q: Question, enforce: bool, i: nat, t: Tally)
    requires i < |q.payload.requirements| && CheckRow(l, env, peer, q, enforce, i, t).Ok?
    ensures var u := CheckRow(l, env, peer, q, enforce, i, t).value;
            && u.rows == t.rows + [Says(l, q, env.now, i)]
            && u.denied == (t.denied || !Defined(l, q.payload.requirements[i]))
            && u.required == (t.required || (Defined(l, q.payload.requirements[i]) && !Supplied(l, q, env.now, i)))
  {
    hide BoundArguments, Identifier, FindGrant, Supplies;
    FoundIs(l, env, q, i);
  }

  lemma FoundIs(l: Ledger, env: Env, q: Question, i: nat)
    requires i < |q.payload.requirements|
    ensures var d := q.payload.requirements[i].definition;
            Defined(l, q.payload.requirements[i]) ==>
              (FindGrant(l.grants, KeyOf(q.payload, i, l.definitions[d].policyVersion), q, env.now, l.next).Some?
               <==> Supplied(l, q, env.now, i))
  {
    hide Usable, GivenFor, InForce, Reaches;
    var d := q.payload.requirements[i].definition;
    if Defined(l, q.payload.requirements[i]) {
      var version := l.definitions[d].policyVersion;
      forall g | g in l.grants
        ensures Usable(l.grants[g], KeyOf(q.payload, i, version), q, env.now) <==>
                  && GivenFor(l.grants[g].key, q.payload, q.payload.requirements[i], version)
                  && InForce(l.grants[g], q.payload.session, env.now) && Reaches(l.grants[g], q)
      {
        UsableIs(l.grants[g], q, i, version, env.now);
      }
      var found := FindGrant(l.grants, KeyOf(q.payload, i, version), q, env.now, l.next);
      if found.Some? { assert Supplies(l, q, env.now, i, found.value); }
    }
  }

  lemma {:induction false} RowsSay(l: Ledger, env: Env, peer: Peer, q: Question, enforce: bool, n: nat)
    requires n <= |q.payload.requirements| && CheckRows(l, env, peer, q, enforce, n).Ok?
    ensures var t := CheckRows(l, env, peer, q, enforce, n).value;
            && |t.rows| == n && (forall i :: 0 <= i < n ==> t.rows[i] == Says(l, q, env.now, i))
            && (t.denied <==> exists i :: 0 <= i < n && !Defined(l, q.payload.requirements[i]))
            && (t.required <==>
                  exists i :: 0 <= i < n && Defined(l, q.payload.requirements[i]) && !Supplied(l, q, env.now, i))
  {
    hide CheckRow, Says, Supplied, Defined;
    if n != 0 {
      RowsSay(l, env, peer, q, enforce, n - 1);
      RowSays(l, env, peer, q, enforce, n - 1, CheckRows(l, env, peer, q, enforce, n - 1).value);
    }
  }

  /** What a verdict says, requirement by requirement and as a whole. */
  lemma VerdictSays(l: Ledger, env: Env, peer: Peer, q: Question, enforce: bool)
    requires CheckConditions(l, env, peer, q, enforce).Ok?
    ensures var v, n := CheckConditions(l, env, peer, q, enforce).value, |q.payload.requirements|;
            && |v.rows| == n && (forall i :: 0 <= i < n ==> v.rows[i] == Says(l, q, env.now, i))
            && (v.decision.DENIED? <==> exists i :: 0 <= i < n && v.rows[i].decision.DENIED?)
            && (v.decision.ALLOWED? <==> forall i :: 0 <= i < n ==> v.rows[i].decision.ALLOWED?)
  {
    hide CheckRows, Supplied, Defined, Says;
    var v, n := CheckConditions(l, env, peer, q, enforce).value, |q.payload.requirements|;
    RowsSay(l, env, peer, q, enforce, n);
    forall i | 0 <= i < n
      ensures v.rows[i].decision.DENIED? <==> !Defined(l, q.payload.requirements[i])
      ensures v.rows[i].decision.ALLOWED? <==> Defined(l, q.payload.requirements[i]) && Supplied(l, q, env.now, i)
    {
      SaysIs(l, q, env.now, i);
    }
    if i :| 0 <= i < n && !Defined(l, q.payload.requirements[i]) {
      assert v.rows[i].decision.DENIED?;
    } else if i :| 0 <= i < n && !Supplied(l, q, env.now, i) {
      assert !v.rows[i].decision.ALLOWED?;
    }
  }

  lemma SaysIs(l: Ledger, q: Question, now: nat, i: nat)
    requires i < |q.payload.requirements|
    ensures Says(l, q, now, i).decision.DENIED? <==> !Defined(l, q.payload.requirements[i])
    ensures Says(l, q, now, i).decision.ALLOWED? <==> Defined(l, q.payload.requirements[i]) && Supplied(l, q, now, i)
  {
    hide Supplied;
  }

  // ----- when it is decided -----

  /** A requirement that can be decided: well-formed, and if its definition is active, installed, with
      arguments and version that fit, and put by an enforcer where one is needed. */
  ghost predicate Decidable(l: Ledger, env: Env, peer: Peer, q: Question, enforce: bool, r: Requirement) {
    && Identifier(r.definition) && Identifier(r.operation) && Identifier(r.purpose) && |r.scope| <= 4096
    && (Defined(l, r) ==>
          var c := l.definitions[r.definition];
          && env.installed(c.package, c.app, c.identity) && env.arguments(Some(c), r)
          && (r.policyVersion == c.policyVersion || (r.policyVersion == "" && !Typed(c)))
          && (enforce || q.check ==>
                peer.identity == c.enforcer || c.enforcer in peer.enforcers || "*" in peer.enforcers))
  }

  /** Two requirements that ask for the same. */
  ghost predicate Alike(a: Requirement, b: Requirement) {
    && a.definition == b.definition && a.scope == b.scope && a.operation == b.operation && a.purpose == b.purpose
    && a.recipient == b.recipient && a.holder == b.holder
  }

  /** The session of a request can be used now. */
  ghost predicate InSession(sessions: map<Id, SessionRow>, now: nat, peer: Peer, p: Payload) {
    && Permits(peer, p.subject, p.profile)
    && (p.session.Some? ==>
          && p.session.value in sessions
          && var s := sessions[p.session.value];
             && s.subject == p.subject && s.profile == p.profile && s.state == Open && s.generation == p.generation
             && now < s.idle && now < s.absolute && now < s.lease)
  }

  lemma SessionIs(sessions: map<Id, SessionRow>, now: nat, peer: Peer, p: Payload)
    ensures ActiveSession(sessions, now, peer, p).Ok? <==> InSession(sessions, now, peer, p)
  {
    hide Context, Permits;
    ContextPermits(peer, p.subject, p.profile);
  }

  ghost function KeyAt(l: Ledger, q: Question, i: nat): GrantKey
    requires i < |q.payload.requirements| && Defined(l, q.payload.requirements[i])
  {
    KeyOf(q.payload, i, l.definitions[q.payload.requirements[i].definition].policyVersion)
  }

  ghost predicate Before(l: Ledger, q: Question, n: nat, i: nat)
    requires n <= |q.payload.requirements| && i < |q.payload.requirements|
  {
    exists j :: 0 <= j < n && Defined(l, q.payload.requirements[j])
                && Alike(q.payload.requirements[i], q.payload.requirements[j])
  }

  /** The keys of the first `n` requirements. */
  ghost predicate KeysAre(l: Ledger, q: Question, keys: set<GrantKey>, n: nat)
    requires n <= |q.payload.requirements|
  {
    forall i :: 0 <= i < |q.payload.requirements| && Defined(l, q.payload.requirements[i]) ==>
      (KeyAt(l, q, i) in keys <==> Before(l, q, n, i))
  }

  /** The first `n` requirements can be decided, and no two of them ask for the same. */
  ghost predicate Ready(l: Ledger, env: Env, peer: Peer, q: Question, enforce: bool, n: nat)
    requires n <= |q.payload.requirements|
  {
    && (forall i :: 0 <= i < n ==> Decidable(l, env, peer, q, enforce, q.payload.requirements[i]))
    && (forall i :: 0 <= i < n && Defined(l, q.payload.requirements[i]) ==> !Before(l, q, i, i))
  }

  lemma RowDecidable(l: Ledger, env: Env, peer: Peer, q: Question, enforce: bool, i: nat, t: Tally)
    requires i < |q.payload.requirements|
    ensures var r := q.payload.requirements[i];
            var u := CheckRow(l, env, peer, q, enforce, i, t);
            && (u.Ok? <==> Decidable(l, env, peer, q, enforce, r) && (Defined(l, r) ==> KeyAt(l, q, i) !in t.keys))
            && (u.Ok? ==> u.value.keys == if Defined(l, r) then t.keys + {KeyAt(l, q, i)} else t.keys)
  {
    hide Identifier, FindGrant;
  }

  lemma KeysMore(l: Ledger, q: Question, keys: set<GrantKey>, n: nat)
    requires n < |q.payload.requirements| && KeysAre(l, q, keys, n)
    ensures var r := q.payload.requirements[n];
            KeysAre(l, q, if Defined(l, r) then keys + {KeyAt(l, q, n)} else keys, n + 1)
  {
    hide Defined;
    forall i | 0 <= i < |q.payload.requirements| && Defined(l, q.payload.requirements[i])
      ensures Before(l, q, n + 1, i) <==>
                || Before(l, q, n, i)
                || (Defined(l, q.payload.requirements[n])
                    && Alike(q.payload.requirements[i], q.payload.requirements[n]))
      ensures Defined(l, q.payload.requirements[n]) ==>
                (KeyAt(l, q, i) == KeyAt(l, q, n) <==> Alike(q.payload.requirements[i], q.payload.requirements[n]))
    {
    }
  }

  lemma {:induction false} RowsDecidable(l: Ledger, env: Env, peer: Peer, q: Question, enforce: bool, n: nat)
    requires n <= |q.payload.requirements|
    ensures var t := CheckRows(l, env, peer, q, enforce, n);
            && (t.Ok? <==> Ready(l, env, peer, q, enforce, n))
            && (t.Ok? ==> KeysAre(l, q, t.value.keys, n))
  {
    hide CheckRow, Decidable, Defined, KeyAt, Before, KeysAre;
    if n == 0 {
      NoKeys(l, q);
    } else {
      RowsDecidable(l, env, peer, q, enforce, n - 1);
      var t := CheckRows(l, env, peer, q, enforce, n - 1);
      if t.Ok? {
        RowDecidable(l, env, peer, q, enforce, n - 1, t.value);
        KeysMore(l, q, t.value.keys, n - 1);
        KeysAt(l, q, t.value.keys, n - 1);
      }
    }
  }

  lemma NoKeys(l: Ledger, q: Question)
    ensures KeysAre(l, q, {}, 0)
  {
  }

  lemma KeysAt(l: Ledger, q: Question, keys: set<GrantKey>, n: nat)
    requires n < |q.payload.requirements| && KeysAre(l, q, keys, n)
    ensures Defined(l, q.payload.requirements[n]) ==> (KeyAt(l, q, n) in keys <==> Before(l, q, n, n))
  {
  }

  /** Conditions are decided exactly if there are between 1 and 16 requirements, each can be decided, no two
      ask for the same, and the session, if there is one, can be used. */
  lemma ConditionsDecided(l: Ledger, env: Env, peer: Peer, q: Question, enforce: bool)
    ensures CheckConditions(l, env, peer, q, enforce).Ok? <==>
              && 1 <= |q.payload.requirements| <= 16
              && Ready(l, env, peer, q, enforce, |q.payload.requirements|)
              && (q.payload.session.Some? ==> InSession(l.sessions, env.now, peer, q.payload))
  {
    hide CheckRows, ActiveSession, InSession, Ready;
    if 1 <= |q.payload.requirements| <= 16 { RowsDecidable(l, env, peer, q, enforce, |q.payload.requirements|); }
    SessionIs(l.sessions, env.now, peer, q.payload);
  }

  // ----- approvals -----

  /** Grant `g` is in force for requirement `i`. */
  ghost predicate Held(l: Ledger, q: Question, now: nat, i: nat, g: Id)
    requires i < |q.payload.requirements|
  {
    && Defined(l, q.payload.requirements[i]) && g in l.grants && g < l.next
    && GivenFor(l.grants[g].key, q.payload, q.payload.requirements[i],
                l.definitions[q.payload.requirements[i].definition].policyVersion)
    && InForce(l.grants[g], q.payload.session, now)
  }

  /** For the whole session, or longer. */
  ghost predicate SessionLong(g: Grant, session: Option<Id>) {
    g.mode == PERSISTENT || (g.mode == SESSION && g.session == session)
  }

  /** Until the target, or longer. */
  ghost predicate UntilTarget(g: Grant, target: nat) {
    g.mode == PERSISTENT || (g.mode == TIMED && target <= g.expires)
  }

  ghost predicate HeldForSession(l: Ledger, q: Question, now: nat, i: nat)
    requires i < |q.payload.requirements|
  {
    exists g :: Held(l, q, now, i, g) && SessionLong(l.grants[g], q.payload.session)
  }

  ghost predicate HeldUntilTarget(l: Ledger, q: Question, now: nat, i: nat)
    requires i < |q.payload.requirements| && q.target.Some?
  {
    exists g :: Held(l, q, now, i, g) && UntilTarget(l.grants[g], q.target.value)
  }

  ghost predicate HeldForGood(l: Ledger, q: Question, now: nat, i: nat)
    requires i < |q.payload.requirements|
  {
    exists g :: Held(l, q, now, i, g) && l.grants[g].mode == PERSISTENT
  }

  ghost predicate HeldAtAll(l: Ledger, q: Question, now: nat, i: nat)
    requires i < |q.payload.requirements|
  {
    exists g :: Held(l, q, now, i, g)
  }

  ghost predicate Preapproves(q: Question, mode: Mode) {
    && q.payload.approval.Some? && !q.payload.approval.value.task && q.payload.approval.value.mode == mode
    && q.chosen != Some(PERSISTENT)
  }

  /** A SESSION approval is allowed if and only if every requirement has a grant for all of that session, and
      the verdict names such grants. */
  lemma SessionApprovalRests(l: Ledger, env: Env, peer: Peer, q: Question, enforce: bool)
    requires CheckConditions(l, env, peer, q, enforce).Ok? && Preapproves(q, SESSION)
    ensures var v, n := CheckConditions(l, env, peer, q, enforce).value, |q.payload.requirements|;
            && (v.decision.ALLOWED? <==>
                  forall i :: 0 <= i < n ==> HeldForSession(l, q, env.now, i))
            && (v.decision.ALLOWED? ==>
                  |v.grants| == n && forall i :: 0 <= i < n ==>
                    Held(l, q, env.now, i, v.grants[i]) && SessionLong(l.grants[v.grants[i]], q.payload.session))
  {
    hide CheckConditions, GivenFor;
    VerdictSound(l, env, peer, q, enforce);
    forall i, g | 0 <= i < |q.payload.requirements|
      ensures Supplies(l, q, env.now, i, g) <==>
                Held(l, q, env.now, i, g) && SessionLong(l.grants[g], q.payload.session)
    {
    }
    forall i | 0 <= i < |q.payload.requirements|
      ensures Supplied(l, q, env.now, i) <==> HeldForSession(l, q, env.now, i)
    {
    }
    hide Supplies, Held, SessionLong, Supplied, HeldForSession;
  }

  /** A TIMED approval is allowed if and only if every requirement has a grant that does not end before its
      target, and the verdict names such grants. */
  lemma TimedApprovalRests(l: Ledger, env: Env, peer: Peer, q: Question, enforce: bool)
    requires CheckConditions(l, env, peer, q, enforce).Ok? && Preapproves(q, TIMED) && q.target.Some?
    ensures var v, n := CheckConditions(l, env, peer, q, enforce).value, |q.payload.requirements|;
            && (v.decision.ALLOWED? <==>
                  forall i :: 0 <= i < n ==> HeldUntilTarget(l, q, env.now, i))
            && (v.decision.ALLOWED? ==>
                  |v.grants| == n && forall i :: 0 <= i < n ==>
                    Held(l, q, env.now, i, v.grants[i]) && UntilTarget(l.grants[v.grants[i]], q.target.value))
  {
    hide CheckConditions, GivenFor;
    VerdictSound(l, env, peer, q, enforce);
    forall i, g | 0 <= i < |q.payload.requirements|
      ensures Supplies(l, q, env.now, i, g) <==>
                Held(l, q, env.now, i, g) && UntilTarget(l.grants[g], q.target.value)
    {
    }
    forall i | 0 <= i < |q.payload.requirements|
      ensures Supplied(l, q, env.now, i) <==> HeldUntilTarget(l, q, env.now, i)
    {
    }
    hide Supplies, Held, UntilTarget, Supplied, HeldUntilTarget;
  }

  /** With a PERSISTENT period chosen, only PERSISTENT grants count. */
  lemma PersistentChoiceRests(l: Ledger, env: Env, peer: Peer, q: Question, enforce: bool)
    requires CheckConditions(l, env, peer, q, enforce).Ok? && q.chosen == Some(PERSISTENT)
    ensures var v, n := CheckConditions(l, env, peer, q, enforce).value, |q.payload.requirements|;
            && (v.decision.ALLOWED? <==>
                  forall i :: 0 <= i < n ==> HeldForGood(l, q, env.now, i))
            && (v.decision.ALLOWED? ==>
                  |v.grants| == n && forall i :: 0 <= i < n ==>
                    Held(l, q, env.now, i, v.grants[i]) && l.grants[v.grants[i]].mode == PERSISTENT)
  {
    hide CheckConditions, GivenFor;
    VerdictSound(l, env, peer, q, enforce);
    forall i, g | 0 <= i < |q.payload.requirements|
      ensures Supplies(l, q, env.now, i, g) <==> Held(l, q, env.now, i, g) && l.grants[g].mode == PERSISTENT
    {
    }
    forall i | 0 <= i < |q.payload.requirements|
      ensures Supplied(l, q, env.now, i) <==> HeldForGood(l, q, env.now, i)
    {
    }
    hide Supplies, Held, Supplied, HeldForGood;
  }

  /** Without a versioned approval, for a task and for a ONCE approval every grant in force counts. */
  lemma AnyGrantServes(l: Ledger, env: Env, peer: Peer, q: Question, enforce: bool)
    requires CheckConditions(l, env, peer, q, enforce).Ok? && q.chosen != Some(PERSISTENT)
    requires q.payload.approval.None? || q.payload.approval.value.task || q.payload.approval.value.mode == ONCE
    ensures var v, n := CheckConditions(l, env, peer, q, enforce).value, |q.payload.requirements|;
            && (v.decision.ALLOWED? <==> forall i :: 0 <= i < n ==> HeldAtAll(l, q, env.now, i))
            && (v.decision.ALLOWED? ==>
                  |v.grants| == n && forall i :: 0 <= i < n ==> Held(l, q, env.now, i, v.grants[i]))
  {
    hide CheckConditions, GivenFor;
    VerdictSound(l, env, peer, q, enforce);
    forall i, g | 0 <= i < |q.payload.requirements|
      ensures Supplies(l, q, env.now, i, g) <==> Held(l, q, env.now, i, g)
    {
    }
    forall i | 0 <= i < |q.payload.requirements|
      ensures Supplied(l, q, env.now, i) <==> HeldAtAll(l, q, env.now, i)
    {
    }
    hide Supplies, Held, Supplied, HeldAtAll;
  }

  lemma ReadyLater(l: Ledger, env: Env, later: Env, peer: Peer, q: Question, enforce: bool, n: nat)
    requires n <= |q.payload.requirements| && later.installed == env.installed && later.arguments == env.arguments
    requires Ready(l, env, peer, q, enforce, n)
    ensures Ready(l, later, peer, q, enforce, n)
  {
    hide Identifier, Before;
  }

  lemma UntimedEnds(l: Ledger, g: Id)
    requires Inv(l) && g in l.grants && l.grants[g].mode != TIMED
    ensures l.grants[g].expires == 0
  {
  }

  /** A TIMED approval that is allowed stays allowed on the same ledger until its target. */
  lemma TimedApprovalLasts(l: Ledger, env: Env, later: Env, peer: Peer, q: Question, enforce: bool)
    requires Inv(l) && Preapproves(q, TIMED) && q.target.Some?
    requires CheckConditions(l, env, peer, q, enforce).Ok?
    requires CheckConditions(l, env, peer, q, enforce).value.decision.ALLOWED?
    requires SameAuthority(env, later) && later.now < q.target.value
    requires q.payload.session.Some? ==> InSession(l.sessions, later.now, peer, q.payload)
    ensures var w := CheckConditions(l, later, peer, q, enforce); w.Ok? && w.value.decision.ALLOWED?
  {
    hide Inv, CheckConditions, Ready, InSession, GivenFor;
    var v, n := CheckConditions(l, env, peer, q, enforce).value, |q.payload.requirements|;
    ConditionsDecided(l, env, peer, q, enforce);
    ReadyLater(l, env, later, peer, q, enforce, n);
    ConditionsDecided(l, later, peer, q, enforce);
    TimedApprovalRests(l, env, peer, q, enforce);
    TimedApprovalRests(l, later, peer, q, enforce);
    forall i | 0 <= i < n
      ensures Held(l, q, later.now, i, v.grants[i]) && UntilTarget(l.grants[v.grants[i]], q.target.value)
    {
      if l.grants[v.grants[i]].mode == PERSISTENT { UntimedEnds(l, v.grants[i]); }
    }
    forall i | 0 <= i < n ensures HeldUntilTarget(l, q, later.now, i) {
      assert Held(l, q, later.now, i, v.grants[i]) && UntilTarget(l.grants[v.grants[i]], q.target.value);
    }
  }

  // ----- what may be repeated -----

  /** The grants a verdict rests on outlive the request, and nothing of level 3 is among them. */
  ghost predicate Lasting(l: Ledger, q: Question, grants: seq<Id>, n: nat)
    requires n <= |q.payload.requirements|
  {
    && |grants| >= n
    && forall i :: 0 <= i < n ==>
         && grants[i] in l.grants && (l.grants[grants[i]].mode == PERSISTENT || l.grants[grants[i]].mode == SESSION)
         && q.payload.requirements[i].definition in l.definitions
         && l.definitions[q.payload.requirements[i].definition].level != "3"
  }

  lemma {:induction false} RowsLast(l: Ledger, env: Env, peer: Peer, q: Question, enforce: bool, n: nat)
    requires n <= |q.payload.requirements| && CheckRows(l, env, peer, q, enforce, n).Ok?
    ensures var t := CheckRows(l, env, peer, q, enforce, n).value;
            !t.denied && !t.required ==> |t.grants| == n && (t.cacheable <==> Lasting(l, q, t.grants, n))
  {
    hide CheckRow, Lasting;
    if n == 0 {
      NothingLasts(l, q);
    } else {
      RowsLast(l, env, peer, q, enforce, n - 1);
      RowLasts(l, env, peer, q, enforce, n - 1, CheckRows(l, env, peer, q, enforce, n - 1).value);
    }
  }

  lemma NothingLasts(l: Ledger, q: Question)
    ensures Lasting(l, q, [], 0)
  {
  }

  lemma RowLasts(l: Ledger, env: Env, peer: Peer, q: Question, enforce: bool, n: nat, t: Tally)
    requires n < |q.payload.requirements| && CheckRow(l, env, peer, q, enforce, n, t).Ok?
    requires !t.denied && !t.required ==> |t.grants| == n && (t.cacheable <==> Lasting(l, q, t.grants, n))
    ensures var u := CheckRow(l, env, peer, q, enforce, n, t).value;
            !u.denied && !u.required ==> |u.grants| == n + 1 && (u.cacheable <==> Lasting(l, q, u.grants, n + 1))
  {
    hide Identifier, BoundArguments, KeyOf, Usable;
    var u := CheckRow(l, env, peer, q, enforce, n, t).value;
    if !u.denied && !u.required {
      assert u.grants[..n] == t.grants;
      assert forall i :: 0 <= i < n ==> u.grants[i] == t.grants[i];
    }
  }

  /** A verdict may be repeated exactly if it allows an unversioned request, enforces nothing, and rests on
      lasting grants; and for half a second, or until the first deadline of the session. */
  lemma RepeatableIs(l: Ledger, env: Env, peer: Peer, q: Question, enforce: bool)
    requires CheckConditions(l, env, peer, q, enforce).Ok?
    ensures var v := CheckConditions(l, env, peer, q, enforce).value;
            && (v.cacheable <==>
                  && q.payload.approval.None? && !enforce && v.decision.ALLOWED?
                  && Lasting(l, q, v.grants, |q.payload.requirements|))
            && v.ttl == (if q.payload.session.None? then 500
                         else Min(500, Earliest(l.sessions[q.payload.session.value]) - env.now))
  {
    hide CheckRows, Context, Lasting;
    RowsLast(l, env, peer, q, enforce, |q.payload.requirements|);
    if q.payload.session.Some? { assert ActiveSession(l.sessions, env.now, peer, q.payload).Ok?; }
  }
}
