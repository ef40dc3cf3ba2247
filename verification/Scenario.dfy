/** One run of the daemon from its beginning: a definition is registered, an agent opens a session and
    asks, the prompt is displayed and answered. What can go wrong is shown at its states. */
module Scenario {
  import opened Types
  import opened Ledger
  import opened Conditions
  import opened Operations
  import opened Daemon
  import opened Invariants
  import opened Runs
  import opened Revisions
  import opened Fencing
  import R = Registry

  // ----- calls that simply succeed -----

  /** Nothing expires. */
  ghost predicate Still(l: Ledger, now: nat) {
    && ExpiredRequests(l, now) == {} && ExpiredArtifacts(l, now) == {}
    && CloseDue(l.sessions, now) == {} && SuspendDue(l.sessions, now) == {}
  }

  lemma NothingDue(l: Ledger, now: nat)
    requires Inv(l) && Still(l, now)
    ensures Expire(l, now) == l
  {
    hide Inv, CloseAll, SuspendAll, FinishCleanup, FinalizeSet, BlockSet, CloseDue, SuspendDue, ExpiredRequests;
    hide ExpiredArtifacts;
    NothingFinalized(l);
    CloseNobody(l, l.next);
    SuspendNobody(l, now, l.next);
    SettledOf(l);
    FinishNothing(l);
  }

  /** The world at millisecond 1, in which everything is installed; `after` fences fall between the check
      after a commit and the final one. */
  function Here(enabled: bool, after: nat): Env {
    Env(1, (_, _, _) => true, (_, _, _) => true, (_, _) => true, (_, _) => None, Fences(enabled, 0, 0, after, true))
  }

  /** The repository after a call, and the reply. */
  function Called(s: Repo, env: Env, peer: Peer, call: Call): (Repo, Result<Reply>) {
    hide Execute; Step(s, Stamped(env, Invoke(peer, call)))
  }

  predicate Simple(call: Call) {
    call.Ask? || call.Show? || call.Decide? || call.Begin?
  }

  /** The ledger of a call that is dispatched is committed, and its reply given. */
  lemma Succeeds(s: Repo, enabled: bool, peer: Peer, call: Call)
    requires Steady(s) && !s.fenced && !s.halted && Still(s.db, 1) && Simple(call)
    requires peer.identity != "" && peer.instance != "" && Dispatch(s.db, Here(enabled, 0), peer, call).Ok?
    ensures var c := Dispatch(s.db, Here(enabled, 0), peer, call).value;
            Called(s, Here(enabled, 0), peer, call) == (s.(db := c.db), Ok(c.reply))
  {
    hide Inv, Sound, Projects, Expire, Dispatch, Checked, Still;
    NothingDue(s.db, 1);
  }

  // ----- the cast -----

  const AGENT := Peer("a", "i", {"argo", "session"}, {"*"}, {"*"}, {})

  const UI := Peer("u", "i", {"ui"}, {"*"}, {"*"}, {})

  const LIMITS := Limits(Resumable, 100, 1000, 1000, 100)

  const SESSION := SessionRow("s", "f", "a", "i", Open, 1, Resumable, 101, 1001, 1001, 100, 0, Some(1))

  const WANTED := Requirement("d", "", "o", "p", "", "", "")

  const FIRST := Payload("s", "f", Some(0), 1, "o", "", "c", 100, None, [WANTED])

  const SCREEN := Screening(None, false, false, "en", None, false, PERSISTENT, 0, None, None, None)

  const CONSENT := Screening(None, false, false, "", Some(3), true, PERSISTENT, 0, None, None, None)

  lemma Names()
    ensures Identifier("b") && Identifier("c") && Identifier("d") && Identifier("en") && Identifier("f")
    ensures Identifier("o") && Identifier("p") && Identifier("s")
  {
  }

  // ----- the ledgers -----

  /** After the registration. */
  const L1 := EMPTY.(definitions := map["d" := R.SAMPLE], applied := 1, revision := 1)

  /** With a session. */
  const L2 := L1.(sessions := map[0 := SESSION], next := 2, revision := 2)

  const ROWS := [Row(CONSENT_REQUIRED, "1", "1")]

  const ASKED := RequestRow("a", FIRST, FIRST.(requirements := [WANTED.(policyVersion := "1")]), ROWS, None, None, {},
                            None, "", Pending, 101, None, "", "")

  /** With a request. */
  const L3 := L2.(requests := map[2 := ASKED], clients := map[ClientKey("a", "s", "f", "c") := 2],
                  next := 3, revision := 3)

  const SHOWN := ASKED.(token := Some(3), uiOwner := "u", uiInstance := "i")

  /** With its prompt on display. */
  const L4 := L3.(requests := map[2 := SHOWN], next := 4, revision := 4)

  const KEY := GrantKey("s", "f", "d", "1", "", "o", "p", "", "")

  /** With the grant of an answer. */
  const ISSUED := L4.(grants := map[4 := Grant(KEY, None, PERSISTENT, 0, -1, false)], next := 5)

  const ALLOWING := Verdict(ALLOWED, [Row(ALLOWED, "1", "1")], [4], true, 100)

  /** With the answer. */
  const L5 := Answer(L4, ISSUED, 2, SHOWN, CONSENT, PERSISTENT, ALLOWING).db

  function Stage(l: Ledger): Repo {
    Repo(l, R.REGISTERED, false, false)
  }

  // ----- the conditions of its requests -----

  /** A ledger of the scenario, and a request of it. */
  predicate Set(l: Ledger, p: Payload) {
    && l.definitions == L1.definitions && l.sessions == L2.sessions
    && p == FIRST.(client := p.client, requirements := p.requirements)
    && (p.requirements == [WANTED] || p.requirements == [WANTED.(policyVersion := "1")])
  }

  lemma RowIsChecked(l: Ledger, enabled: bool, after: nat, peer: Peer, p: Payload)
    requires Set(l, p)
    ensures var q := Question(p, None, None, false);
            var found := FindGrant(l.grants, KEY, q, 1, l.next);
            CheckRow(l, Here(enabled, after), peer, q, false, 0, START) ==
              Ok(if found.None? then Tally(ROWS, [], {KEY}, true, false, false)
                 else Tally(ALLOWING.rows, [found.value], {KEY}, false, false,
                            l.grants[found.value].mode.PERSISTENT? || l.grants[found.value].mode.SESSION?))
  {
    hide Identifier, FindGrant;
    Names();
    assert KeyOf(p, 0, "1") == KEY;
    assert R.SAMPLE.level != "3" by { assert R.SAMPLE.level[0] == '1' && "3"[0] == '3'; }
    assert Definition(l.definitions, "d") == Ok(R.SAMPLE);
    assert BoundArguments(Here(enabled, after), R.SAMPLE, p.requirements[0]) == Ok(());
    assert START.rows + ROWS == ROWS && START.rows + ALLOWING.rows == ALLOWING.rows && START.keys + {KEY} == {KEY};
    var found := FindGrant(l.grants, KEY, Question(p, None, None, false), 1, l.next);
    if found.Some? { assert START.grants + [found.value] == [found.value]; }
  }

  lemma SessionIsActive(l: Ledger, peer: Peer, p: Payload)
    requires Set(l, p) && peer.subjects == peer.profiles == {"*"}
    ensures ActiveSession(l.sessions, 1, peer, p) == Ok(()) && CacheTtl(l.sessions, 1, p) == 100
  {
    hide Identifier;
    Names();
  }

  lemma ConditionsAreChecked(l: Ledger, enabled: bool, after: nat, peer: Peer, p: Payload)
    requires Set(l, p) && peer.subjects == peer.profiles == {"*"}
    ensures var q := Question(p, None, None, false);
            var found := FindGrant(l.grants, KEY, q, 1, l.next);
            CheckConditions(l, Here(enabled, after), peer, q, false) ==
              Ok(if found.None? then Verdict(CONSENT_REQUIRED, ROWS, [], false, 100)
                 else ALLOWING.(grants := [found.value], cacheable :=
                                l.grants[found.value].mode.PERSISTENT? || l.grants[found.value].mode.SESSION?))
  {
    hide CheckRow, ActiveSession, CacheTtl, FindGrant;
    RowIsChecked(l, enabled, after, peer, p);
    SessionIsActive(l, peer, p);
    assert CheckRows(l, Here(enabled, after), peer, Question(p, None, None, false), false, 0) == Ok(START);
  }

  lemma AskPasses(l: Ledger, enabled: bool, p: Payload)
    requires Set(l, p) && Identifier(p.client)
    ensures Preflight(l, Here(enabled, 0), AGENT, p, Create) == Ok(())
  {
    hide Identifier, ActiveSession;
    Names();
    SessionIsActive(l, AGENT, p);
    assert Definition(l.definitions, "d") == Ok(R.SAMPLE);
    assert Screen(l, Here(enabled, 0), p, 0) == Ok(());
    assert Screen(l, Here(enabled, 0), p, 1) == Ok(());
  }

  // ----- the steps -----

  lemma RegisteredStep(enabled: bool)
    ensures Step(FRESH, Stamped(Here(enabled, 0), Enroll(R.REGISTER, false))).0 == Stage(L1)
  {
    hide R.Enact, RevokeSet, InvalidateSet, BlockSet, FinalizeSet, ReceiptsOn, ArtifactsOn, PendingOnAny, GrantsOfAny;
    R.SampleIsRegistered();
    assert FRESH.book == R.NOTHING;
    ProjectedSample(enabled);
  }

  lemma ProjectedSample(enabled: bool)
    ensures Replay(EMPTY, R.REGISTERED, Here(enabled, 0).installed) == L1
  {
    var installed := Here(enabled, 0).installed;
    assert Projected(R.SAMPLE, installed) == R.SAMPLE;
    assert Changed(EMPTY, R.REGISTERED.definitions, installed) == {"d"};
    var l := Redefine(EMPTY, R.REGISTERED.definitions, {"d"}, installed);
    assert l.definitions == L1.definitions;
    assert l.grants == map[] && l.receipts == map[] && l.artifacts == map[] && l.requests == map[];
  }

  lemma OpenedStep(enabled: bool)
    requires Steady(Stage(L1))
    ensures Called(Stage(L1), Here(enabled, 0), AGENT, Begin("s", "f", LIMITS)).0 == Stage(L2)
  {
    hide Steady, Called, Identifier;
    Names();
    assert LiveSessions(L1) == {};
    assert map[][0 := SESSION] == L2.sessions;
    assert SessionOpen(L1, Here(enabled, 0), AGENT, "s", "f", LIMITS).value.db == L2;
    Succeeds(Stage(L1), enabled, AGENT, Begin("s", "f", LIMITS));
  }

  lemma AskIsAdmitted(enabled: bool)
    ensures var r := Evaluate(L2, Here(enabled, 0), AGENT, FIRST, Create); r.Ok? && r.value.db == L3
  {
    hide Preflight, CheckConditions, Identifier;
    Names();
    AskPasses(L2, enabled, FIRST);
    ConditionsAreChecked(L2, enabled, 0, AGENT, FIRST);
    assert FindGrant(L2.grants, KEY, Question(FIRST, None, None, false), 1, L2.next).None?;
    assert PendingRequests(L2) == {};
    assert Revised(FIRST, ROWS).requirements == [WANTED.(policyVersion := "1")];
    assert map[][2 := ASKED] == L3.requests;
    assert map[][ClientKey("a", "s", "f", "c") := 2] == L3.clients;
  }

  lemma AskedStep(enabled: bool)
    requires Steady(Stage(L2))
    ensures Called(Stage(L2), Here(enabled, 0), AGENT, Ask(FIRST, Create)).0 == Stage(L3)
  {
    hide Steady, Called, Evaluate;
    AskIsAdmitted(enabled);
    Succeeds(Stage(L2), enabled, AGENT, Ask(FIRST, Create));
  }

  lemma PromptOpens(l: Ledger, q: RequestRow, u: Screening, enabled: bool, after: nat, respond: bool)
    requires Set(l, q.payload) && q == ASKED.(token := q.token, uiOwner := q.uiOwner, uiInstance := q.uiInstance)
    requires u.version.None?
    ensures OpenPrompt(l, Here(enabled, after), UI, q, u, respond) == Ok(NoVerdict(1))
  {
    hide ActiveSession;
    SessionIsActive(l, UI, q.payload);
    assert Definition(l.definitions, "d") == Ok(R.SAMPLE);
    assert Displayable(l, Here(enabled, after), q, 0) == Ok(());
    assert Displayable(l, Here(enabled, after), q, 1) == Ok(());
  }

  lemma RequestIsFound(l: Ledger)
    requires 2 in l.requests && l.requests[2].payload.subject == "s" && l.requests[2].payload.profile == "f"
    ensures FindRequest(l, UI, ById(2), true) == Ok(2)
  {
    hide Identifier;
    Names();
  }

  lemma PromptIsShown(enabled: bool)
    ensures var r := ShowPrompt(L3, Here(enabled, 0), UI, ById(2), SCREEN); r.Ok? && r.value.db == L4
  {
    hide Identifier, FindRequest, OpenPrompt;
    Names();
    RequestIsFound(L3);
    PromptOpens(L3, ASKED, SCREEN, enabled, 0, false);
    assert !TypedPrompt(L3, ASKED);
    assert L3.requests[2 := SHOWN] == L4.requests;
  }

  lemma ShownStep(enabled: bool)
    requires Steady(Stage(L3))
    ensures Called(Stage(L3), Here(enabled, 0), UI, Show(ById(2), SCREEN)).0 == Stage(L4)
  {
    hide Steady, Called, ShowPrompt;
    PromptIsShown(enabled);
    Succeeds(Stage(L3), enabled, UI, Show(ById(2), SCREEN));
  }

  lemma GrantIsIssued()
    ensures Issue(L4, SHOWN, NoVerdict(1), PERSISTENT, 0, 1) == Ok(ISSUED)
  {
    assert Issue(L4, SHOWN, NoVerdict(1), PERSISTENT, 0, 0) == Ok(L4);
    assert Wanted(SHOWN, NoVerdict(1), 0);
    assert PERSISTENT in R.SAMPLE.modes;
    assert NewGrant(SHOWN, 0, R.SAMPLE, PERSISTENT, 0) == ISSUED.grants[4];
    assert L4.grants[4 := ISSUED.grants[4]] == ISSUED.grants;
  }

  /** Whatever fences fall later, the answer issues its grant. */
  lemma ConsentIsGiven(enabled: bool, after: nat)
    ensures var r := Respond(L4, Here(enabled, after), UI, ById(2), CONSENT);
            r.Ok? && r.value.db == L5 && 4 in r.value.issued
  {
    hide FindRequest, OpenPrompt, Issue, CheckConditions;
    RequestIsFound(L4);
    PromptOpens(L4, SHOWN, CONSENT, enabled, after, true);
    assert !TypedPrompt(L4, SHOWN);
    GrantIsIssued();
    ConditionsAreChecked(ISSUED, enabled, after, UI, SHOWN.payload);
    assert FindGrant(ISSUED.grants, KEY, Question(SHOWN.payload, None, None, false), 1, 5) == Some(4);
  }

  lemma ConsentedStep(enabled: bool)
    requires Steady(Stage(L4))
    ensures Called(Stage(L4), Here(enabled, 0), UI, Decide(ById(2), CONSENT)).0 == Stage(L5)
  {
    hide Steady, Called, Respond;
    ConsentIsGiven(enabled, 0);
    Succeeds(Stage(L4), enabled, UI, Decide(ById(2), CONSENT));
  }

  // ----- the run -----

  /** The run up to the displayed prompt. */
  function Displaying(enabled: bool): seq<Stamped> {
    var env := Here(enabled, 0);
    [Stamped(env, Enroll(R.REGISTER, false)), Stamped(env, Invoke(AGENT, Begin("s", "f", LIMITS))),
     Stamped(env, Invoke(AGENT, Ask(FIRST, Create))), Stamped(env, Invoke(UI, Show(ById(2), SCREEN)))]
  }

  lemma {:induction false} OneMore(s: Repo, run: seq<Stamped>, e: Stamped)
    requires Steady(s)
    ensures After(s, run + [e]) == Step(After(s, run), e).0 && Steady(After(s, run))
  {
    hide Step, Steady;
    assert (run + [e])[..|run|] == run;
    RunKeeps(s, run);
  }

  lemma DisplayingLeads(enabled: bool)
    ensures After(FRESH, Displaying(enabled)) == Stage(L4) && Steady(Stage(L4))
  {
    hide Step, Steady, After, L1, L2, L3, L4;
    var run := Displaying(enabled);
    FreshSteady();
    assert After(FRESH, []) == FRESH by { NoRun(FRESH); }
    assert [] + [run[0]] == run[..1] && run[..1] + [run[1]] == run[..2] && run[..2] + [run[2]] == run[..3];
    assert run[..3] + [run[3]] == run;
    OneMore(FRESH, [], run[0]);
    RegisteredStep(enabled);
    OneMore(FRESH, run[..1], run[1]);
    OpenedStep(enabled);
    OneMore(FRESH, run[..2], run[2]);
    AskedStep(enabled);
    OneMore(FRESH, run[..3], run[3]);
    ShownStep(enabled);
    RunKeeps(FRESH, run);
  }

  lemma NoRun(s: Repo)
    ensures After(s, []) == s
  {
  }

  /** At a state the daemon reaches: with a fence between the check after the commit and the final check,
      an answer is refused and its grants are in force nevertheless. */
  lemma FenceCanLeaveGrants(after: nat)
    requires after > 0
    ensures var s := After(FRESH, Displaying(true));
            var r := Respond(Expire(s.db, 1), Here(true, after), UI, ById(2), CONSENT);
            var t := Called(s, Here(true, after), UI, Decide(ById(2), CONSENT));
            && r.Ok? && r.value.issued != {}
            && AllInForce(t.0.db, r.value.issued) && t.1.Err? && !t.0.halted
  {
    hide Inv, Sound, Projects, Respond, Expire, Transact, AllInForce, NoneInForce, L4, L5, StillInstalled, Checked;
    DisplayingLeads(true);
    L4IsStill();
    NothingDue(L4, 1);
    ConsentIsGiven(true, after);
    AnswerUnderFence(L4, R.REGISTERED, Here(true, after), UI, ById(2), CONSENT);
  }

  lemma L4IsStill()
    ensures Still(L4, 1)
  {
  }
}
