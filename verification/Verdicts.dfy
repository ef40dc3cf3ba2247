/** What an ALLOWED verdict and a valid receipt say about the grants behind them. */
module Verdicts {
  import opened Types
  import opened Ledger
  import opened Conditions
  import opened Invariants

  /** Grant `g` may be used for the payload now. */
  ghost predicate Fit(l: Ledger, p: Payload, g: Id) {
    && g in l.grants
    && !l.grants[g].revoked && l.grants[g].remaining != 0
    && Serves(p, l.grants[g]) && Current(l.definitions, l.grants[g].key)
    && l.grants[g].key.definition in l.definitions
  }

  /** After `n` requirements, every grant found is fit, the grants have distinct keys, and
      without a refusal there is one for each requirement. */
  ghost predicate Tallied(l: Ledger, p: Payload, t: Tally, n: nat)
    requires n <= |p.requirements|
  {
    && |t.rows| == n
    && |t.grants| <= n
    && (forall i :: 0 <= i < |t.grants| ==> Fit(l, p, t.grants[i]) && l.grants[t.grants[i]].key in t.keys)
    && (forall i, j :: 0 <= i < j < |t.grants| ==> l.grants[t.grants[i]].key != l.grants[t.grants[j]].key)
    && (!t.denied && !t.required ==>
          |t.grants| == n
          && forall i :: 0 <= i < n ==> l.grants[t.grants[i]].key.definition == p.requirements[i].definition)
  }

  lemma RowTallied(l: Ledger, env: Env, peer: Peer, q: Question, enforce: bool, i: nat, t: Tally)
    requires i < |q.payload.requirements| && Tallied(l, q.payload, t, i)
    requires CheckRow(l, env, peer, q, enforce, i, t).Ok?
    ensures Tallied(l, q.payload, CheckRow(l, env, peer, q, enforce, i, t).value, i + 1)
  {
    var r := q.payload.requirements[i];
    var t' := CheckRow(l, env, peer, q, enforce, i, t).value;
    if Definition(l.definitions, r.definition).Ok? {
      var c := l.definitions[r.definition];
      var key := KeyOf(q.payload, i, c.policyVersion);
      var found := FindGrant(l.grants, key, q, env.now, l.next);
      if found.Some? {
        assert Fit(l, q.payload, found.value);
        assert t'.grants == t.grants + [found.value];
        assert l.grants[found.value].key == key;
      }
    }
  }

  lemma {:induction false} RowsTallied(l: Ledger, env: Env, peer: Peer, q: Question, enforce: bool, n: nat)
    requires n <= |q.payload.requirements|
    requires CheckRows(l, env, peer, q, enforce, n).Ok?
    ensures Tallied(l, q.payload, CheckRows(l, env, peer, q, enforce, n).value, n)
  {
    if n != 0 {
      RowsTallied(l, env, peer, q, enforce, n - 1);
      var t := CheckRows(l, env, peer, q, enforce, n - 1).value;
      hide CheckRow, Tallied;
      RowTallied(l, env, peer, q, enforce, n - 1, t);
    }
  }

  /** The grant was given for the very requirement, in the given version of its definition. */
  ghost predicate GivenFor(k: GrantKey, p: Payload, r: Requirement, version: string) {
    && k.subject == p.subject && k.profile == p.profile && k.definition == r.definition && k.version == version
    && k.scope == r.scope && k.operation == r.operation && k.purpose == r.purpose && k.recipient == r.recipient
    && k.holder == r.holder
  }

  /** The grant can be used now: it is not revoked, not used up, not past its time, and if it is one of a
      session, it is one of the session asked for. */
  ghost predicate InForce(g: Grant, session: Option<Id>, now: nat) {
    && !g.revoked && g.remaining != 0 && (g.expires == 0 || now < g.expires)
    && (g.mode.SESSION? ==> g.session == session)
  }

  /** The grant reaches as far as the approval asked for: a chosen PERSISTENT period needs a PERSISTENT
      grant; a SESSION or TIMED approval a PERSISTENT one, one of its own kind for the session, or one
      that does not end before its target. Anything else, and every task, needs no more. */
  ghost predicate Reaches(g: Grant, q: Question) {
    if q.chosen == Some(PERSISTENT) then g.mode == PERSISTENT
    else if q.payload.approval.None? || q.payload.approval.value.task then true
    else
      match q.payload.approval.value.mode
      case ONCE => true
      case SESSION => g.mode == PERSISTENT || g.mode == SESSION
      case TIMED => g.mode == PERSISTENT || (g.mode == TIMED && q.target.Some? && q.target.value <= g.expires)
      case PERSISTENT => g.mode == PERSISTENT
  }

  /** Grant `g` may be used for requirement `i` under its present definition. */
  ghost predicate Supplies(l: Ledger, q: Question, now: nat, i: nat, g: Id)
    requires i < |q.payload.requirements|
  {
    var r := q.payload.requirements[i];
    && r.definition in l.definitions && l.definitions[r.definition].active && g in l.grants && g < l.next
    && GivenFor(l.grants[g].key, q.payload, r, l.definitions[r.definition].policyVersion)
    && InForce(l.grants[g], q.payload.session, now) && Reaches(l.grants[g], q)
  }

  lemma UsableIs(g: Grant, q: Question, i: nat, version: string, now: nat)
    requires i < |q.payload.requirements|
    ensures Usable(g, KeyOf(q.payload, i, version), q, now) <==>
              GivenFor(g.key, q.payload, q.payload.requirements[i], version) && InForce(g, q.payload.session, now)
              && Reaches(g, q)
  {
  }

  ghost predicate Supplied(l: Ledger, q: Question, now: nat, i: nat)
    requires i < |q.payload.requirements|
  {
    exists g :: Supplies(l, q, now, i, g)
  }

  /** After `n` requirements: none was refused exactly if each of them has a grant to use. */
  ghost predicate Resolved(l: Ledger, q: Question, now: nat, t: Tally, n: nat)
    requires n <= |q.payload.requirements|
  {
    && (!t.denied && !t.required <==> forall i :: 0 <= i < n ==> Supplied(l, q, now, i))
    && (!t.denied && !t.required ==> |t.grants| == n && forall i :: 0 <= i < n ==> Supplies(l, q, now, i, t.grants[i]))
  }

  lemma RowSupplied(l: Ledger, env: Env, peer: Peer, q: Question, enforce: bool, i: nat, t: Tally)
    requires i < |q.payload.requirements| && CheckRow(l, env, peer, q, enforce, i, t).Ok?
    ensures var u := CheckRow(l, env, peer, q, enforce, i, t).value;
            && (Supplied(l, q, env.now, i) ==>
                  && u.denied == t.denied && u.required == t.required && |u.grants| == |t.grants| + 1
                  && u.grants[..|t.grants|] == t.grants && Supplies(l, q, env.now, i, u.grants[|t.grants|]))
            && (!Supplied(l, q, env.now, i) ==> u.denied || u.required)
  {
    hide Usable, BoundArguments, Identifier, GivenFor, InForce, Reaches;
    var d := q.payload.requirements[i].definition;
    if Definition(l.definitions, d).Ok? {
      var version := l.definitions[d].policyVersion;
      forall g | g in l.grants
        ensures Usable(l.grants[g], KeyOf(q.payload, i, version), q, env.now) <==>
                  && GivenFor(l.grants[g].key, q.payload, q.payload.requirements[i], version)
                  && InForce(l.grants[g], q.payload.session, env.now) && Reaches(l.grants[g], q)
      {
        UsableIs(l.grants[g], q, i, version, env.now);
      }
      var found := FindGrant(l.grants, KeyOf(q.payload, i, version), q, env.now, l.next);
      if found.Some? { assert Supplies(l, q, env.now, i, found.value); }
    }
  }

  lemma {:induction false} RowsResolved(l: Ledger, env: Env, peer: Peer, q: Question, enforce: bool, n: nat)
    requires n <= |q.payload.requirements| && CheckRows(l, env, peer, q, enforce, n).Ok?
    ensures Resolved(l, q, env.now, CheckRows(l, env, peer, q, enforce, n).value, n)
  {
    hide CheckRow, Supplies, Supplied;
    if n != 0 {
      RowsResolved(l, env, peer, q, enforce, n - 1);
      var t := CheckRows(l, env, peer, q, enforce, n - 1).value;
      RowSupplied(l, env, peer, q, enforce, n - 1, t);
      RefusalStays(l, env, peer, q, enforce, n - 1, t);
      var u := CheckRows(l, env, peer, q, enforce, n).value;
      forall i | 0 <= i < n && !u.denied && !u.required ensures Supplies(l, q, env.now, i, u.grants[i]) {
        if i < n - 1 { assert u.grants[i] == u.grants[..|t.grants|][i]; }
      }
    }
  }

  lemma RefusalStays(l: Ledger, env: Env, peer: Peer, q: Question, enforce: bool, i: nat, t: Tally)
    requires i < |q.payload.requirements| && CheckRow(l, env, peer, q, enforce, i, t).Ok?
    ensures var u := CheckRow(l, env, peer, q, enforce, i, t).value;
            (t.denied ==> u.denied) && (t.required ==> u.required)
  {
    hide BoundArguments, Identifier;
  }

  /** One decision per requirement; the verdict is ALLOWED if and only if every requirement has a
      grant to use, and then it names one for each, no two of them with the same key. */
  lemma VerdictSound(l: Ledger, env: Env, peer: Peer, q: Question, enforce: bool)
    requires CheckConditions(l, env, peer, q, enforce).Ok?
    ensures var v := CheckConditions(l, env, peer, q, enforce).value;
            var n := |q.payload.requirements|;
            && |v.rows| == n
            && (v.decision.ALLOWED? <==> forall i :: 0 <= i < n ==> Supplied(l, q, env.now, i))
            && (v.decision.ALLOWED? ==> |v.grants| == n && forall i :: 0 <= i < n ==>
                  Supplies(l, q, env.now, i, v.grants[i]))
            && (forall i :: 0 <= i < |v.grants| ==> Fit(l, q.payload, v.grants[i]))
            && (forall i, j :: 0 <= i < j < |v.grants| ==> l.grants[v.grants[i]].key != l.grants[v.grants[j]].key)
            && (v.decision.ALLOWED? ==>
                  forall i :: 0 <= i < n ==>
                    l.grants[v.grants[i]].key.definition == q.payload.requirements[i].definition)
            && (q.payload.session.Some? ==> ActiveSession(l.sessions, env.now, peer, q.payload).Ok?)
  {
    hide Supplies, Supplied, Fit, CheckRows;
    var n := |q.payload.requirements|;
    RowsTallied(l, env, peer, q, enforce, n);
    RowsResolved(l, env, peer, q, enforce, n);
  }

  // ----- receipts -----

  /** The definition of a stored requirement is active, in the version it names, and installed. */
  ghost predicate UpToDate(l: Ledger, env: Env, r: Requirement) {
    && Definition(l.definitions, r.definition).Ok?
    && var c := l.definitions[r.definition];
       (r.policyVersion == "" || r.policyVersion == c.policyVersion) && BoundArguments(env, c, r).Ok?
           && Installed(env, c)
  }

  lemma {:induction false} ReceiptRowsHold(l: Ledger, env: Env, p: Payload, n: nat)
    requires n <= |p.requirements|
    ensures ReceiptRows(l, env, p, n) == Ok(true) <==> forall i :: 0 <= i < n ==> UpToDate(l, env, p.requirements[i])
  {
    hide BoundArguments, Installed;
    if n != 0 { ReceiptRowsHold(l, env, p, n - 1); }
  }

  /** A receipt is found valid if and only if it was not invalidated or cleared, its profile is active,
      none of its sources lapsed, and the definition of each of its requirements holds. */
  lemma ReceiptValidSound(l: Ledger, env: Env, r: Id)
    ensures ReceiptValid(l, env, r) == Ok(true) <==>
              && r in l.receipts && l.receipts[r].valid && l.receipts[r].payload.Some?
              && (forall g :: g in l.receipts[r].sources && g in l.grants ==> !Lapsed(l.grants[g], env.now))
              && var p := l.receipts[r].payload.value;
                 && env.profile(p.subject, p.profile).None?
                 && forall i :: 0 <= i < |p.requirements| ==> UpToDate(l, env, p.requirements[i])
  {
    hide ReceiptRows, UpToDate, Lapsed;
    if r in l.receipts && l.receipts[r].payload.Some? {
      var p := l.receipts[r].payload.value;
      ReceiptRowsHold(l, env, p, |p.requirements|);
      var lapsed := LapsedSources(l.grants, l.receipts[r].sources, env.now);
      assert forall g :: g in l.receipts[r].sources && g in l.grants && Lapsed(l.grants[g], env.now) ==> g in lapsed;
    }
  }
}
