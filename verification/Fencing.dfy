/** Answers that meet a profile fence. The main thread may fence at any point while the database
    thread answers a prompt; `Fences` counts the fences in each window of that operation. */
module Fencing {
  import opened Types
  import opened Ledger
  import opened Conditions
  import opened Operations
  import opened Daemon
  import opened Invariants
  import opened Transactions
  import opened Runs
  import opened Progress
  import R = Registry

  /** No grant of `ids` is in force. */
  ghost predicate NoneInForce(l: Ledger, ids: set<Id>) {
    forall g :: g in ids && g in l.grants ==> l.grants[g].revoked
  }

  ghost predicate AllInForce(l: Ledger, ids: set<Id>) {
    forall g :: g in ids ==> g in l.grants && !l.grants[g].revoked
  }

  /** No fence fell between the start of the operation and the check after its commit. */
  predicate Unfenced(f: Fences) {
    !f.enabled || (f.before == 0 && f.during == 0)
  }

  lemma AnswerIsGuarded(l: Ledger, env: Env, peer: Peer, ref: RequestRef, u: Screening)
    requires Inv(l) && Respond(l, env, peer, ref, u).Ok?
    ensures var c := Respond(l, env, peer, ref, u).value;
            c.guarded && c.request.Some? && c.issued == NewGrants(l, c.db)
  {
    hide Inv, FindRequest, OpenPrompt, Presented, AnswerMode, CheckConditions, Issue, Asked, Redecided, Refuse;
    hide NewGrants, Bump, Choices;
    var id := FindRequest(l, peer, ref, true).value;
    var q := l.requests[id];
    var mode := AnswerMode(l, q, u).value;
    var current := if Choices(q) then CheckConditions(l, env, peer, Asked(q, mode), false).value
        else OpenPrompt(l, env, peer, q, u, true).value;
    SettleIsGuarded(l, env, peer, id, q, u, mode, current);
  }

  lemma SettleIsGuarded(l: Ledger, env: Env, peer: Peer, id: Id, q: RequestRow, u: Screening, mode: Mode,
                        current: Verdict)
    requires |q.payload.requirements| == |q.rows| == |current.rows|
    requires Settle(l, env, peer, id, q, u, mode, current).Ok?
    ensures var c := Settle(l, env, peer, id, q, u, mode, current).value;
            c.guarded && c.request == Some(id) && c.issued == NewGrants(l, c.db)
  {
    hide CheckConditions, Issue, Asked, Redecided, Refuse, Choices;
  }

  /** The grants an answer issues are in force in the ledger it is about to commit. */
  lemma {:induction false} IssuedInForce(l: Ledger, q: RequestRow, current: Verdict, mode: Mode, expires: nat, n: nat)
    requires n <= |q.rows| == |current.rows| == |q.payload.requirements|
    requires Issue(l, q, current, mode, expires, n).Ok?
    ensures AllInForce(Issue(l, q, current, mode, expires, n).value,
                       NewGrants(l, Issue(l, q, current, mode, expires, n).value))
  {
    hide IssueOne, Wanted;
    if n != 0 {
      IssuedInForce(l, q, current, mode, expires, n - 1);
      if Wanted(q, current, n - 1) {
        OneInForce(l, Issue(l, q, current, mode, expires, n - 1).value, q, mode, expires, n - 1);
      }
    }
  }

  lemma OneInForce(l: Ledger, m: Ledger, q: RequestRow, mode: Mode, expires: nat, i: nat)
    requires i < |q.payload.requirements| && IssueOne(m, q, mode, expires, i).Ok? && AllInForce(m, NewGrants(l, m))
    ensures var k := IssueOne(m, q, mode, expires, i).value; AllInForce(k, NewGrants(l, k))
  {
    hide KeyOf, Definition;
  }

  lemma SettledInForce(l: Ledger, env: Env, peer: Peer, id: Id, q: RequestRow, u: Screening, mode: Mode,
                       current: Verdict)
    requires |q.payload.requirements| == |q.rows| == |current.rows|
    requires Settle(l, env, peer, id, q, u, mode, current).Ok?
    ensures var c := Settle(l, env, peer, id, q, u, mode, current).value; AllInForce(c.db, c.issued)
  {
    hide CheckConditions, Issue, Asked, Redecided, Refuse, Choices;
    if u.allow {
      IssuedInForce(l, q, current, mode, if mode.TIMED? then env.now + u.duration else 0, |q.rows|);
    }
  }

  lemma AnsweredInForce(l: Ledger, env: Env, peer: Peer, ref: RequestRef, u: Screening)
    requires Respond(l, env, peer, ref, u).Ok?
    ensures var c := Respond(l, env, peer, ref, u).value; AllInForce(c.db, c.issued)
  {
    hide FindRequest, OpenPrompt, Presented, AnswerMode, CheckConditions, Settle, Asked, Choices, AllInForce;
    var id := FindRequest(l, peer, ref, true).value;
    var q := l.requests[id];
    var mode := AnswerMode(l, q, u).value;
    var current := if Choices(q) then CheckConditions(l, env, peer, Asked(q, mode), false).value
        else OpenPrompt(l, env, peer, q, u, true).value;
    SettledInForce(l, env, peer, id, q, u, mode, current);
  }

  lemma CommitUnderFence(l: Ledger, c: Change, f: Fences)
    requires c.guarded && c.issued !! l.grants.Keys
    ensures var d := Commit(l, c, f);
            && (Unfenced(f) <==> d.status.None?)
            && (Unfenced(f) ==> d.db == c.db && !d.halted)
            && (!Unfenced(f) ==> NoneInForce(d.db, c.issued) || d.halted)
            && (d.halted ==> d.status == Some(STORAGE))
  {
    hide FinalizeSet;
  }

  /** For every placement of profile fences inside an answer that would commit:
      - the reply succeeds if and only if no fence fell anywhere before the final check and the
        definitions are still installed;
      - a fence before the check after the commit leaves every grant the answer inserted rolled
        back or revoked, or stops the repository;
      - without one, the grants stand, whatever is replied: a fence that falls only between that
        check and the final one makes the reply ESTALE and leaves the grants in force. */
  lemma AnswerUnderFence(l: Ledger, book: R.Book, env: Env, peer: Peer, ref: RequestRef, u: Screening)
    requires Inv(l) && peer.identity != "" && peer.instance != ""
    requires Respond(Expire(l, env.now), env, peer, ref, u).Ok?
    ensures var issued := Respond(Expire(l, env.now), env, peer, ref, u).value.issued;
            var t := Transact(l, book, env, peer, Decide(ref, u));
            && (t.result.Ok? <==>
                  && Unfenced(env.fences) && (env.fences.enabled ==> env.fences.after == 0)
                  && StillInstalled(book, env, Checked(t.db, Decide(ref, u))))
            && (!Unfenced(env.fences) ==> NoneInForce(t.db, issued) || t.halted)
            && (Unfenced(env.fences) ==> AllInForce(t.db, issued) && !t.halted)
            && (t.halted ==> t.result == Err(STORAGE))
  {
    hide Inv, Core, Expire, Respond, Commit, StillInstalled, Checked, NoneInForce, AllInForce, NewGrants;
    SweptKeeps(l, env.now);
    var swept := Expire(l, env.now);
    AnswerIsGuarded(swept, env, peer, ref, u);
    AnsweredInForce(swept, env, peer, ref, u);
    CommitUnderFence(swept, Respond(swept, env, peer, ref, u).value, env.fences);
  }

  /** A stopped repository refuses every operation until it is restarted. */
  lemma {:induction false} HaltedRefusesAll(s: Repo, run: seq<Stamped>)
    requires s.halted && forall i :: 0 <= i < |run| ==> !run[i].event.Restart?
    ensures After(s, run) == s
    ensures |Replies(s, run)| == |run| && forall i :: 0 <= i < |run| ==> Replies(s, run)[i] == Err(STORAGE)
  {
    hide Execute, Replay, ResetRuntime, Expire, ClearAll, FenceProfiles, R.Enact;
    if run != [] {
      HaltedRefusesAll(s, run[..|run| - 1]);
      HaltedStep(s, run[|run| - 1]);
    }
  }

  lemma HaltedStep(s: Repo, e: Stamped)
    requires s.halted && !e.event.Restart?
    ensures Step(s, e) == (s, Err(STORAGE))
  {
    hide Transact, Ensure, Replay, ResetRuntime, Expire, ClearAll, FenceProfiles, R.Enact;
  }
}
