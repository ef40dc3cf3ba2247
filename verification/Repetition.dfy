/** A behaviour of client and daemon, from the daemon's beginning, in which an answer is repeated: what
    is said about repeated answers is said about something, and a little too late is possible. */
module Repetition {
  import opened Types
  import opened Ledger
  import opened Conditions
  import opened Operations
  import opened Daemon
  import opened Invariants
  import opened Runs
  import opened Caching
  import opened DecisionCache
  import opened Serving
  import opened Scenario
  import C = DecisionCache
  import N = Numbers
  import R = Registry

  // ----- the request -----

  const ROW: map<string, string> := map["r0.definition" := "d", "r0.operation" := "o", "r0.purpose" := "p"]

  const REST: map<string, string> := map[
    "method" := "request", "subject" := "s", "profile" := "f", "session" := "0", "generation" := "1",
    "operation_id" := "o", "client_request_id" := "b", "deadline_ms" := "100", "count" := "1"]

  const SENT: map<string, string> := ROW + REST

  const READER := Reader(s => Decimal(s), s => Decimal(s), _ => Approval(false, false, "", ONCE, 0))

  const SECOND := FIRST.(client := "b")

  lemma RowFields()
    ensures Get(ROW, "r0.definition") == "d" && Get(ROW, "r0.operation") == "o" && Get(ROW, "r0.purpose") == "p"
    ensures Get(ROW, "r0.scope") == Get(ROW, "r0.recipient") == Get(ROW, "r0.holder") == ""
    ensures Get(ROW, "r0.policy_version") == ""
    ensures forall k :: k in ROW ==> |k| > 0 && k[0] == 'r'
  {
    var a, b, c := "r0.definition", "r0.operation", "r0.purpose";
    assert a[3] == 'd' && b[3] == 'o' && c[3] == 'p' && c[4] == 'u';
    assert "r0.scope"[3] == 's' && "r0.recipient"[3] == 'r' && "r0.holder"[3] == 'h' && "r0.policy_version"[4] == 'o';
  }

  lemma RestKeys()
    ensures forall k :: k in REST ==> |k| > 1 && k[0] != 'r' && k[0] != 'a' && k[..2] != "st"
  {
    assert "method"[0] == 'm' && "profile"[0] == 'p' && "generation"[0] == 'g' && "operation_id"[0] == 'o';
    assert "client_request_id"[0] == 'c' && "deadline_ms"[0] == 'd' && "count"[0] == 'c' && "subject"[1] == 'u';
    assert "session"[1] == 'e' && "subject"[0] == 's' && "session"[0] == 's';
    assert "st"[0] == 's' && "st"[1] == 't';
  }

  lemma RestFields()
    ensures Get(REST, "method") == "request" && Get(REST, "subject") == "s" && Get(REST, "profile") == "f"
    ensures Get(REST, "session") == "0" && Get(REST, "generation") == "1" && Get(REST, "operation_id") == "o"
    ensures Get(REST, "client_request_id") == "b" && Get(REST, "deadline_ms") == "100" && Get(REST, "count") == "1"
  {
    var a, b, c, d, e := "method", "subject", "profile", "session", "generation";
    var f, g, h, i := "operation_id", "client_request_id", "deadline_ms", "count";
    assert a[0] == 'm' && c[0] == 'p' && e[0] == 'g' && f[0] == 'o' && h[0] == 'd';
    assert b[0] == 's' && d[0] == 's' && b[1] == 'u' && d[1] == 'e';
    assert g[0] == 'c' && i[0] == 'c' && g[1] == 'l' && i[1] == 'o';
  }

  lemma GetJoined(a: map<string, string>, b: map<string, string>, key: string)
    requires a.Keys !! b.Keys
    ensures Get(a + b, key) == if key in a then Get(a, key) else Get(b, key)
  {
  }

  lemma Apart()
    ensures ROW.Keys !! REST.Keys
  {
    hide ROW, REST;
    RowFields();
    RestKeys();
  }

  lemma RowKey(key: string)
    requires |key| > 0 && key[0] == 'r'
    ensures Get(SENT, key) == Get(ROW, key)
  {
    hide ROW, REST;
    Apart();
    RestKeys();
    GetJoined(ROW, REST, key);
  }

  lemma RestKey(key: string)
    requires |key| > 0 && key[0] != 'r'
    ensures Get(SENT, key) == Get(REST, key) && (key in SENT <==> key in REST)
  {
    hide ROW, REST;
    Apart();
    RowFields();
    GetJoined(ROW, REST, key);
  }

  lemma RequirementIsRead()
    ensures RequirementOf(SENT, 0) == WANTED
  {
    hide ROW, REST, SENT, Get;
    assert N.Text(0) == "0";
    var row := "r" + N.Text(0) + ".";
    assert row == "r0.";
    assert row + "definition" == "r0.definition" && row + "operation" == "r0.operation";
    assert row + "purpose" == "r0.purpose" && row + "scope" == "r0.scope" && row + "recipient" == "r0.recipient";
    assert row + "holder" == "r0.holder" && row + "policy_version" == "r0.policy_version";
    RowFields();
    RowKey("r0.definition");
    RowKey("r0.scope");
    RowKey("r0.operation");
    RowKey("r0.purpose");
    RowKey("r0.recipient");
    RowKey("r0.holder");
    RowKey("r0.policy_version");
  }

  lemma MissingFields()
    ensures Get(SENT, "step_id") == "" && "approval_version" !in SENT
  {
    hide ROW, REST, SENT;
    RestKeys();
    RestKey("step_id");
    RestKey("approval_version");
    assert "step_id"[..2] == "st" && "approval_version"[0] == 'a';
  }

  lemma SentFields()
    ensures Get(SENT, "method") == "request" && Get(SENT, "subject") == "s" && Get(SENT, "profile") == "f"
    ensures Get(SENT, "session") == "0" && Get(SENT, "generation") == "1" && Get(SENT, "operation_id") == "o"
    ensures Get(SENT, "client_request_id") == "b" && Get(SENT, "deadline_ms") == "100" && Get(SENT, "count") == "1"
  {
    hide ROW, REST, SENT, Get;
    RestFields();
    RestKey("method");
    RestKey("subject");
    RestKey("profile");
    RestKey("session");
    RestKey("generation");
    RestKey("operation_id");
    RestKey("client_request_id");
    RestKey("deadline_ms");
    RestKey("count");
  }

  lemma Numerals()
    ensures Decimal("0") == 0 && Decimal("1") == 1 && Decimal("100") == 100
  {
    assert "0"[..0] == "" && "1"[..0] == "" && "100"[..2] == "10" && "10"[..1] == "1";
    assert Decimal("1") == 1;
    assert Decimal("10") == 10;
  }

  lemma SecondIsRead()
    ensures PayloadOf(READER, SENT) == SECOND && Unversioned(C.Asked(SENT, 0))
  {
    hide ROW, REST, SENT, Get, RequirementOf, Decimal;
    RequirementIsRead();
    MissingFields();
    SentFields();
    Numerals();
    assert PayloadOf(READER, SENT).requirements == [RequirementOf(SENT, 0)];
  }

  // ----- the daemon's answer -----

  const HERE := Here(false, 0)

  lemma GrantIsFound()
    ensures L5.definitions == L1.definitions && L5.sessions == L2.sessions && L5.next == 5 && L5.revision == 5
    ensures FindGrant(L5.grants, KEY, Question(SECOND, None, None, false), 1, 5) == Some(4)
    ensures L5.grants == ISSUED.grants && L5.clients == L3.clients
  {
    assert Usable(L5.grants[4], KEY, Question(SECOND, None, None, false), 1);
  }

  lemma SecondIsAdmitted()
    ensures var r := Evaluate(L5, HERE, AGENT, SECOND, Create);
            && r.Ok? && r.value.reply == Decided(ALLOWING, None, Some(5))
            && r.value.db.revision == 6 && r.value.db.sessions == L2.sessions
  {
    hide Preflight, CheckConditions, Identifier, L5, FindGrant;
    Names();
    GrantIsFound();
    AskPasses(L5, false, SECOND);
    ConditionsAreChecked(L5, false, 0, AGENT, SECOND);
    assert "b" != "c" by { assert "b"[0] == 'b' && "c"[0] == 'c'; }
    assert ClientKey("a", "s", "f", "b") !in L5.clients;
  }

  lemma L5IsStill()
    ensures Still(L5, 1)
  {
  }

  function Answering(): (Repo, Result<Reply>) {
    Called(Stage(L5), HERE, AGENT, Ask(SECOND, Create))
  }

  /** The daemon answers the request, and says that the answer may be repeated. */
  lemma SecondIsAnswered()
    requires Steady(Stage(L5))
    ensures var t := Answering();
            && t.1 == Ok(Decided(ALLOWING, None, Some(5)))
            && t.0.db.revision == 6 && t.0.db.sessions == L2.sessions
  {
    hide Steady, Called, Evaluate, L5, Still;
    SecondIsAdmitted();
    L5IsStill();
    Succeeds(Stage(L5), false, AGENT, Ask(SECOND, Create));
  }

  // ----- the behaviour -----

  /** The request is admitted and measured within the same millisecond. */
  const ASK := C.Asked(SENT, 1999)

  const ANSWER := Answer(Name(0), 6, false, true, true, true, 100, "0", "1", ALLOWING.rows)

  const REPLY := Act.Reply(ASK, Ask(SECOND, Create), HERE, 1999)

  function Waiting(repo: Repo): World {
    World(0, repo, [], [], UNSYNCED)
  }

  function Answered(): World {
    Waiting(Answering().0).(sent := [Sent(ASK, ANSWER, 0, HERE, 1999)])
  }

  lemma AnsweredIsNext()
    requires Steady(Stage(L5))
    ensures Next(READER, AGENT, Waiting(Stage(L5)), REPLY, Answered())
  {
    hide Step, Steady, PayloadOf, SENT, ROW, REST, Get, L5;
    SecondIsAnswered();
    SecondIsRead();
    SentFields();
    assert [] + [Sent(ASK, ANSWER, 0, HERE, 1999)] == [Sent(ASK, ANSWER, 0, HERE, 1999)];
  }

  function Served(): World {
    Answered().(client := Cache(Name(0), 6, true, false, map[CacheKey(SENT) := Made(ASK, ANSWER, 2000)]))
  }

  lemma AnswerIsKept(now: int)
    requires 1999 <= now < 101999
    ensures var c := Cache(Name(0), 6, true, false, map[CacheKey(SENT) := Made(ASK, ANSWER, now)]);
            Received(UNSYNCED, c, ASK, ANSWER, now)
  {
    hide CacheKey, SENT, ROW, REST, Get, N.Text;
    SecondIsRead();
    SentFields();
    var c := Synchronized(UNSYNCED, ANSWER);
    assert c == Cache(Name(0), 6, true, false, map[]);
    assert Repeatable(ASK, ANSWER, now);
    assert Kept(map[], map[CacheKey(SENT) := Made(ASK, ANSWER, now)], CacheKey(SENT), Made(ASK, ANSWER, now));
  }

  lemma DeliveredIsNext(w: World, s: Sent, c: Cache, now: int)
    requires w.sent == [s] && Received(w.client, c, s.asked, s.answer, now)
    ensures Next(READER, AGENT, w, DeliverReply(0, now), w.(client := c))
  {
    hide Received, Step;
  }

  lemma ServedIsNext()
    ensures Next(READER, AGENT, Answered(), DeliverReply(0, 2000), Served())
  {
    hide Answering, CacheKey, SENT, ASK, ANSWER, Received, Next, Name, Made;
    AnswerIsKept(2000);
    DeliveredIsNext(Answered(), Sent(ASK, ANSWER, 0, HERE, 1999), Served().client, 2000);
  }

  function Event(k: nat): Stamped
    requires k < 5
  {
    if k < 4 then Displaying(false)[k] else Stamped(HERE, Invoke(UI, Decide(ById(2), CONSENT)))
  }

  function State(k: nat): Repo
    requires k <= 5
  {
    if k == 0 then FRESH
    else Stage(if k == 1 then L1 else if k == 2 then L2 else if k == 3 then L3 else if k == 4 then L4 else L5)
  }

  /** The daemon's run, step by step. */
  lemma {:induction false} Steps(k: nat)
    requires k <= 5
    ensures Steady(State(k)) && forall i :: 0 <= i < k ==> State(i + 1) == Step(State(i), Event(i)).0
  {
    hide Step, Steady, L1, L2, L3, L4, L5;
    if k == 0 {
      FreshSteady();
    } else {
      Steps(k - 1);
      OneStep(k - 1);
      StepKeeps(State(k - 1), Event(k - 1));
    }
  }

  lemma OneStep(k: nat)
    requires k < 5 && Steady(State(k))
    ensures State(k + 1) == Step(State(k), Event(k)).0
  {
    hide Step, Steady, L1, L2, L3, L4, L5;
    if k == 0 { RegisteredStep(false); }
    else if k == 1 { OpenedStep(false); }
    else if k == 2 { AskedStep(false); }
    else if k == 3 { ShownStep(false); }
    else { ConsentedStep(false); }
  }

  lemma OtherIsNext(s: Repo, e: Stamped)
    requires !e.event.Restart?
    ensures Next(READER, AGENT, Waiting(s), Other(e), Waiting(Step(s, e).0))
  {
    hide Step;
  }

  /** The whole behaviour, from a daemon without a past. */
  lemma ServedIsReached()
    ensures Reachable(READER, AGENT, Served())
  {
    hide Step, Steady, Next, State, Event, Answered, Served, L5;
    Steps(5);
    Ends();
    FreshSteady();
    var ws := seq(6, i requires 0 <= i < 6 => Waiting(State(i))) + [Answered(), Served()];
    var xs := seq(5, i requires 0 <= i < 5 => Other(Event(i))) + [REPLY, DeliverReply(0, 2000)];
    forall i | 0 <= i < 7 ensures Next(READER, AGENT, ws[i], xs[i], ws[i + 1]) {
      if i < 5 {
        NoRestart(i);
        OtherIsNext(State(i), Event(i));
      } else if i == 5 {
        AnsweredIsNext();
      } else {
        ServedIsNext();
      }
    }
    assert Beginning(ws[0]);
    assert Behaviour(READER, AGENT, ws, xs) && ws[|xs|] == Served();
  }

  lemma Ends()
    ensures State(0) == FRESH && State(5) == Stage(L5)
  {
  }

  lemma NoRestart(k: nat)
    requires k < 5
    ensures !Event(k).event.Restart?
  {
  }

  lemma ServedNow(now: int)
    requires now < 101999
    ensures var w := Served();
            && Found(w.client, ASK, now) == Some(ANSWER)
            && w.client.epoch == Name(w.epoch) && w.client.revision == w.repo.db.revision
            && w.repo.db.sessions == L2.sessions
  {
    hide CacheKey, SENT, ROW, REST, Get, Called, Steady, State, L5;
    Steps(5);
    Ends();
    SecondIsRead();
    SecondIsAnswered();
  }

  /** There is a reachable world in which the client repeats an answer while its epoch and revision
      are the daemon's. */
  lemma RepetitionHappens()
    ensures var w := Served();
            && Reachable(READER, AGENT, w) && Found(w.client, ASK, 3000) == Some(ANSWER)
            && w.client.epoch == Name(w.epoch) && w.client.revision == w.repo.db.revision
  {
    hide Reachable, Served, Found;
    ServedIsReached();
    ServedNow(3000);
  }

  /** And in that world it repeats the answer half a millisecond after the session's deadline, when the
      daemon refuses the same request. */
  lemma LateByLessIsPossible()
    ensures var w := Served();
            && Reachable(READER, AGENT, w) && Found(w.client, ASK, 101500) == Some(ANSWER)
            && w.client.epoch == Name(w.epoch) && w.client.revision == w.repo.db.revision
            && var question := Question(PayloadOf(READER, SENT), None, None, false);
               CheckConditions(w.repo.db, HERE.(now := Milliseconds(101500)), AGENT, question, false).Err?
  {
    hide Reachable, Served, Found, PayloadOf, SENT;
    ServedIsReached();
    ServedNow(101500);
    SecondIsRead();
    LateIsRefused(Served().repo.db);
  }

  lemma LateIsRefused(l: Ledger)
    requires l.sessions == L2.sessions
    ensures CheckConditions(l, HERE.(now := 101), AGENT, Question(SECOND, None, None, false), false).Err?
  {
    hide CheckRows, Identifier;
    assert ActiveSession(l.sessions, 101, AGENT, SECOND).Err?;
  }
}
