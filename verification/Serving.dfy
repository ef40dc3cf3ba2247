/** A client beside the daemon: the two exchange replies and events that are stamped with an epoch and
    a revision and arrive late, in any order, repeatedly or never, while the daemon goes on, is
    restarted and loses its database. */
module Serving {
  import opened Types
  import opened Ledger
  import opened Conditions
  import opened Operations
  import opened Daemon
  import opened Invariants
  import opened Verdicts
  import opened Runs
  import opened Compaction
  import opened Revisions
  import opened Caching
  import opened DecisionCache
  import N = Numbers
  import R = Registry

  // ----- reading a request -----

  /** How the daemon reads names, numbers and an approval context; any functions will do. */
  datatype Reader = Reader(id: string -> Id, number: string -> nat, approval: map<string, string> -> Approval)

  function RequirementOf(fields: map<string, string>, i: nat): Requirement {
    var row := "r" + N.Text(i) + ".";
    Requirement(Get(fields, row + "definition"), Get(fields, row + "scope"), Get(fields, row + "operation"),
                Get(fields, row + "purpose"), Get(fields, row + "recipient"), Get(fields, row + "holder"),
                Get(fields, row + "policy_version"))
  }

  /** The payload the daemon takes from the fields of a request. */
  function PayloadOf(reader: Reader, fields: map<string, string>): Payload {
    Payload(Get(fields, "subject"), Get(fields, "profile"),
            if Get(fields, "session") == "" then None else Some(reader.id(Get(fields, "session"))),
            reader.number(Get(fields, "generation")),
            Get(fields, "operation_id"), Get(fields, "step_id"), Get(fields, "client_request_id"),
            reader.number(Get(fields, "deadline_ms")),
            if "approval_version" in fields then Some(reader.approval(fields - NAMES)) else None,
            seq(reader.number(Get(fields, "count")), i requires 0 <= i => RequirementOf(fields, i)))
  }

  lemma GetSame(a: map<string, string>, b: map<string, string>, key: string)
    requires a - NAMES == b - NAMES && key !in NAMES
    ensures Get(a, key) == Get(b, key) && (key in a <==> key in b)
  {
    assert key in a <==> key in a - NAMES;
    assert key in b <==> key in b - NAMES;
    if key in a { assert (a - NAMES)[key] == (b - NAMES)[key]; }
  }

  lemma RowNameIsNone(i: nat, name: string)
    ensures "r" + N.Text(i) + "." + name !in NAMES
  {
    var key := "r" + N.Text(i) + "." + name;
    assert key[0] == 'r';
    assert "id"[0] != 'r' && "client_request_id"[0] != 'r' && "operation_id"[0] != 'r' && "deadline_ms"[0] != 'r';
  }

  lemma RequirementSame(a: map<string, string>, b: map<string, string>, i: nat)
    requires a - NAMES == b - NAMES
    ensures RequirementOf(a, i) == RequirementOf(b, i)
  {
    hide Get;
    var row := "r" + N.Text(i) + ".";
    forall name: string ensures Get(a, row + name) == Get(b, row + name) {
      RowNameIsNone(i, name);
      GetSame(a, b, row + name);
    }
  }

  /** Requests with the same cache key are read as payloads that share their conditions. */
  lemma SameKeySameTuple(reader: Reader, a: map<string, string>, b: map<string, string>)
    requires CacheKey(a) == CacheKey(b)
    ensures SameTuple(PayloadOf(reader, a), PayloadOf(reader, b))
  {
    hide Get, RequirementOf, CacheKey;
    KeyIsExact(a, b);
    GetSame(a, b, "subject");
    GetSame(a, b, "profile");
    GetSame(a, b, "session");
    GetSame(a, b, "generation");
    GetSame(a, b, "step_id");
    GetSame(a, b, "count");
    GetSame(a, b, "approval_version");
    forall i: nat ensures RequirementOf(a, i) == RequirementOf(b, i) {
      RequirementSame(a, b, i);
    }
    assert PayloadOf(reader, a).requirements == PayloadOf(reader, b).requirements;
  }

  // ----- the world -----

  /** A reply on its way: to which request, when the daemon took its decision, on which clock reading
      (in microseconds), and under which authority. */
  datatype Sent = Sent(asked: Asked, answer: Answer, epoch: nat, env: Env, measured: nat)

  /** `sent` and `events` are all messages the daemon ever sent to this client. */
  datatype World = World(epoch: nat, repo: Repo, sent: seq<Sent>, events: seq<Answer>, client: Cache)

  /** The client meets a daemon with a sound repository. */
  ghost predicate Beginning(w: World) {
    w == World(0, w.repo, [], [], UNSYNCED) && Steady(w.repo)
  }

  /** The text of an epoch; like all names it is drawn once. */
  function Name(epoch: nat): string {
    N.Text(epoch)
  }

  predicate Decision(reply: Reply) {
    reply.Decided? && reply.receipt.None? && reply.admitted.Some?
  }

  predicate Granting(reply: Reply) {
    match reply
    case Decided(v, _, _) => v.decision.ALLOWED?
    case Known(_, state, _, _) => state.Allowed?
    case Outcome(_, state, _, _, _, _) => state.Allowed?
    case _ => false
  }

  /** A refusal has no revision. */
  const REFUSAL := Answer("", -1, false, false, false, false, 0, "", "", [])

  /** The reply as it is sent: stamped with the epoch and the revision after the operation. Only a
      decision taken for a new request says whether it may be repeated. */
  function Stamp(epoch: nat, l: Ledger, env: Env, q: Asked, call: Call, r: Result<Reply>): Answer {
    if r.Err? then REFUSAL.(epoch := Name(epoch))
    else
      var a := Answer(Name(epoch), l.revision, env.fences.enabled, true, Granting(r.value), false, 0, "", "", []);
      if call.Ask? && call.purpose.Create? && Decision(r.value) then
        var v := r.value.verdict;
        a.(cacheable := v.cacheable, ttl := v.ttl, rows := v.rows,
           session := Get(q.fields, "session"), generation := Get(q.fields, "generation"))
      else a
  }

  /** The call a request makes: a plain one asks for its decision, and may poll for it later. */
  predicate Makes(reader: Reader, q: Asked, call: Call) {
    Unversioned(q) ==> call == Ask(PayloadOf(reader, q.fields), Create) || call.Read?
  }

  /** `OpenDatabase`: the database that was there, or an empty one in the place of a lost one. */
  function Opening(s: Repo, lost: bool): Repo {
    if lost then s.(db := EMPTY, fenced := true) else s
  }

  datatype Act =
    | Other(e: Stamped)
    | Reply(q: Asked, call: Call, env: Env, measured: nat)
    | Refuse(q: Asked, env: Env, measured: nat)
    | Announce(authority: bool)
    | Open(env: Env, lost: bool)
    | DeliverReply(i: nat, now: int)
    | DeliverEvent(i: nat)
    | Repeat(q: Asked, now: int)

  /** The daemon measures on the clock on which the client admitted the request before. */
  predicate Measured(q: Asked, env: Env, measured: nat) {
    env.now == Milliseconds(measured) && q.admitted <= measured
  }

  ghost predicate Next(reader: Reader, peer: Peer, w: World, x: Act, u: World) {
    hide Step, Stamp, Makes, Measured, Received, Used, Emptied; match x
    case Other(e) => !e.event.Restart? && u == w.(repo := Step(w.repo, e).0)
    case Reply(q, call, env, measured) =>
      && Makes(reader, q, call) && Measured(q, env, measured)
      && var t := Step(w.repo, Stamped(env, Invoke(peer, call)));
         u == w.(repo := t.0,
                 sent := w.sent + [Sent(q, Stamp(w.epoch, t.0.db, env, q, call, t.1), w.epoch, env, measured)])
    case Refuse(q, env, measured) =>
      Measured(q, env, measured) && u == w.(sent := w.sent + [Sent(q, REFUSAL, w.epoch, env, measured)])
    case Announce(authority) =>
      u == w.(events := w.events + [REFUSAL.(epoch := Name(w.epoch), revision := w.repo.db.revision,
                                             authority := authority)])
    case Open(env, lost) =>
      u == w.(epoch := w.epoch + 1, repo := Step(Opening(w.repo, lost), Stamped(env, Restart)).0)
    case DeliverReply(i, now) =>
      && i < |w.sent| && u == w.(client := u.client)
      && Received(w.client, u.client, w.sent[i].asked, w.sent[i].answer, now)
    case DeliverEvent(i) => i < |w.events| && u == w.(client := Emptied(w.client, w.events[i]))
    case Repeat(q, now) => u == w.(client := Used(w.client, q, now))
  }

  ghost predicate Behaviour(reader: Reader, peer: Peer, ws: seq<World>, xs: seq<Act>) {
    hide Next, Beginning;
    && |ws| == |xs| + 1 && Beginning(ws[0])
    && forall i :: 0 <= i < |xs| ==> Next(reader, peer, ws[i], xs[i], ws[i + 1])
  }

  /** Some behaviour leads there. */
  ghost predicate Reachable(reader: Reader, peer: Peer, w: World) {
    hide Behaviour; exists ws, xs :: |ws| == |xs| + 1 && Behaviour(reader, peer, ws, xs) && ws[|xs|] == w
  }

  // ----- what holds throughout -----

  /** The stamp is of the past or the present. */
  ghost predicate Dated(w: World, epoch: nat, revision: int) {
    epoch < w.epoch || (epoch == w.epoch && revision <= w.repo.db.revision)
  }

  /** On this ledger the conditions are decided as the reply says. */
  ghost predicate Stands(reader: Reader, peer: Peer, l: Ledger, s: Sent) {
    var r := CheckConditions(l, s.env, peer, Question(PayloadOf(reader, s.asked.fields), None, None, false), false);
    r.Ok? && r.value.cacheable && r.value.ttl == s.answer.ttl && r.value.rows == s.answer.rows
  }

  ghost predicate Honored(reader: Reader, peer: Peer, w: World, s: Sent) {
    && Measured(s.asked, s.env, s.measured) && Dated(w, s.epoch, s.answer.revision)
    && (s.answer.revision >= 0 ==> s.answer.epoch == Name(s.epoch))
    && (Unversioned(s.asked) && s.answer.cacheable && s.epoch == w.epoch && s.answer.revision == w.repo.db.revision ==>
          Stands(reader, peer, w.repo.db, s))
  }

  ghost predicate Announced(w: World, a: Answer) {
    exists n: nat :: a.epoch == Name(n) && Dated(w, n, a.revision)
  }

  /** An entry comes from a reply to a request with its key. */
  ghost predicate From(s: Sent, key: string, e: Entry) {
    && CacheKey(s.asked.fields) == key && e.answer == s.answer && Unversioned(s.asked) && s.answer.cacheable
    && e.expires == Made(s.asked, s.answer, 0).expires
  }

  ghost predicate Backed(sent: seq<Sent>, key: string, e: Entry) {
    exists i :: 0 <= i < |sent| && From(sent[i], key, e)
  }

  ghost predicate AllBacked(sent: seq<Sent>, c: Cache) {
    forall k :: k in c.entries ==> Backed(sent, k, c.entries[k])
  }

  /** A client in step is in step with a moment of the daemon. */
  ghost predicate InStep(w: World, c: Cache) {
    c.synced ==> exists n: nat :: c.epoch == Name(n) && Dated(w, n, c.revision)
  }

  ghost predicate Good(reader: Reader, peer: Peer, w: World) {
    && Steady(w.repo)
    && (forall i :: 0 <= i < |w.sent| ==> Honored(reader, peer, w, w.sent[i]))
    && (forall i :: 0 <= i < |w.events| ==> Announced(w, w.events[i]))
    && Coherent(w.client) && AllBacked(w.sent, w.client) && InStep(w, w.client)
  }

  // ----- the daemon moves -----

  /** The daemon's state goes on: a later epoch, or a later revision, or a ledger that is alike. */
  ghost predicate Moves(w: World, u: World) {
    || w.epoch < u.epoch
    || (w.epoch == u.epoch && w.repo.db.revision < u.repo.db.revision)
    || (w.epoch == u.epoch && w.repo.db.revision == u.repo.db.revision && Like(w.repo.db, u.repo.db))
  }

  lemma MovesHonored(reader: Reader, peer: Peer, w: World, u: World, s: Sent)
    requires Moves(w, u) && Honored(reader, peer, w, s)
    ensures Honored(reader, peer, u, s)
  {
    hide CheckConditions, Like, PayloadOf, Milliseconds;
    if w.epoch == u.epoch && w.repo.db.revision == u.repo.db.revision {
      ConditionsAlike(w.repo.db, u.repo.db, s.env, peer, Question(PayloadOf(reader, s.asked.fields), None, None, false),
                      false);
    }
  }

  lemma MovesRest(w: World, u: World)
    requires Moves(w, u) && u.events == w.events && u.client == w.client && InStep(w, w.client)
    requires forall i :: 0 <= i < |w.events| ==> Announced(w, w.events[i])
    ensures InStep(u, u.client) && forall i :: 0 <= i < |u.events| ==> Announced(u, u.events[i])
  {
    hide Like;
    forall i | 0 <= i < |u.events| ensures Announced(u, u.events[i]) {
      assert Announced(w, w.events[i]);
      var n: nat :| w.events[i].epoch == Name(n) && Dated(w, n, w.events[i].revision);
      assert Dated(u, n, u.events[i].revision);
    }
    if u.client.synced {
      var n: nat :| w.client.epoch == Name(n) && Dated(w, n, w.client.revision);
      assert Dated(u, n, u.client.revision);
    }
  }

  lemma MovesGood(reader: Reader, peer: Peer, w: World, u: World)
    requires Good(reader, peer, w) && Moves(w, u) && Steady(u.repo)
    requires u.sent == w.sent && u.events == w.events && u.client == w.client
    ensures Good(reader, peer, u)
  {
    hide Honored, Moves, Steady, Coherent, AllBacked, InStep, Announced;
    MovesRest(w, u);
    forall i | 0 <= i < |u.sent| ensures Honored(reader, peer, u, u.sent[i]) {
      MovesHonored(reader, peer, w, u, w.sent[i]);
    }
  }

  lemma StepMoves(w: World, e: Stamped)
    requires Steady(w.repo)
    ensures var u := w.(repo := Step(w.repo, e).0); Moves(w, u) && Steady(u.repo)
  {
    hide Steady, Like, Step;
    StepHonest(w.repo, e);
    StepKeeps(w.repo, e);
  }

  lemma OpenSteady(s: Repo, env: Env, lost: bool)
    requires Steady(s)
    ensures Steady(Step(Opening(s, lost), Stamped(env, Restart)).0)
  {
    hide Sound, Projects, Step;
    EmptyInv();
    StepKeeps(Opening(s, lost), Stamped(env, Restart));
  }

  lemma EmptyInv()
    ensures Inv(EMPTY)
  {
  }

  // ----- a reply is sent -----

  lemma ReplyHonored(reader: Reader, peer: Peer, w: World, q: Asked, call: Call, env: Env, measured: nat)
    requires Steady(w.repo) && Makes(reader, q, call) && Measured(q, env, measured)
    ensures var t := Step(w.repo, Stamped(env, Invoke(peer, call)));
            Honored(reader, peer, w.(repo := t.0), Sent(q, Stamp(w.epoch, t.0.db, env, q, call, t.1), w.epoch, env,
                                                        measured))
  {
    hide Steady, Step, CheckConditions, PayloadOf, Milliseconds, Get;
    var t := Step(w.repo, Stamped(env, Invoke(peer, call)));
    var a := Stamp(w.epoch, t.0.db, env, q, call, t.1);
    if Unversioned(q) && a.cacheable {
      var p := PayloadOf(reader, q.fields);
      UnversionedHasNoTarget(reader, q, env.now);
      AnsweredStep(w.repo, env, peer, p, t.1.value.verdict, t.1.value.admitted.value);
    }
  }

  lemma UnversionedHasNoTarget(reader: Reader, q: Asked, now: nat)
    requires Unversioned(q)
    ensures Target(PayloadOf(reader, q.fields), now) == None
  {
  }

  lemma SentGood(reader: Reader, peer: Peer, w: World, s: Sent)
    requires Good(reader, peer, w) && Honored(reader, peer, w, s)
    ensures Good(reader, peer, w.(sent := w.sent + [s]))
  {
    hide Honored, Steady, Coherent, Announced, From;
    var u := w.(sent := w.sent + [s]);
    forall i | 0 <= i < |u.sent| ensures Honored(reader, peer, u, u.sent[i]) {
      assert Honored(reader, peer, w, u.sent[i]);
      HonoredFrame(reader, peer, w, u, u.sent[i]);
    }
    forall k | k in u.client.entries ensures Backed(u.sent, k, u.client.entries[k]) {
      assert Backed(w.sent, k, w.client.entries[k]);
      var i :| 0 <= i < |w.sent| && From(w.sent[i], k, w.client.entries[k]);
      assert u.sent[i] == w.sent[i];
    }
    EventsFrame(w, u);
  }

  lemma HonoredFrame(reader: Reader, peer: Peer, w: World, u: World, s: Sent)
    requires Honored(reader, peer, w, s) && u.epoch == w.epoch && u.repo == w.repo
    ensures Honored(reader, peer, u, s)
  {
    hide Stands, Milliseconds;
  }

  lemma EventsFrame(w: World, u: World)
    requires u.epoch == w.epoch && u.repo == w.repo && u.events == w.events && u.client == w.client
             && InStep(w, w.client)
    requires forall i :: 0 <= i < |w.events| ==> Announced(w, w.events[i])
    ensures InStep(u, u.client) && forall i :: 0 <= i < |u.events| ==> Announced(u, u.events[i])
  {
    hide Like;
    LikeSame(w.repo.db);
    MovesRest(w, u);
  }

  // ----- a message arrives -----

  lemma ReceivedGood(reader: Reader, peer: Peer, w: World, i: nat, now: int, u: World)
    requires Good(reader, peer, w) && Next(reader, peer, w, DeliverReply(i, now), u)
    ensures Good(reader, peer, u)
  {
    hide Honored, Steady, Announced, From, Stands, Received, Coherent, AllBacked, InStep;
    var s := w.sent[i];
    ReceivedCoherent(w.client, u.client, s.asked, s.answer, now);
    ReceivedBacked(w.sent, w.client, u.client, i, now);
    ReceivedInStep(reader, peer, w, u, i, now);
    forall k | 0 <= k < |u.sent| ensures Honored(reader, peer, u, u.sent[k]) {
      HonoredFrame(reader, peer, w, u, w.sent[k]);
    }
    forall k | 0 <= k < |u.events| ensures Announced(u, u.events[k]) {
      AnnouncedFrame(w, u, w.events[k]);
    }
  }

  lemma AnnouncedFrame(w: World, u: World, a: Answer)
    requires Announced(w, a) && u.epoch == w.epoch && u.repo == w.repo
    ensures Announced(u, a)
  {
    var n: nat :| a.epoch == Name(n) && Dated(w, n, a.revision);
    assert Dated(u, n, a.revision);
  }

  lemma ReceivedBacked(sent: seq<Sent>, c: Cache, d: Cache, i: nat, now: int)
    requires i < |sent| && AllBacked(sent, c) && Received(c, d, sent[i].asked, sent[i].answer, now)
    ensures AllBacked(sent, d)
  {
    hide CacheKey, Kept, Behind;
    var s := sent[i];
    var m := Synchronized(c, s.answer);
    if d != m {
      var key, e := CacheKey(s.asked.fields), Made(s.asked, s.answer, now);
      KeptFrom(m.entries, d.entries, key, e);
      assert From(s, key, e);
      forall k | k in d.entries ensures Backed(sent, k, d.entries[k]) {
        if k != key { assert Backed(sent, k, c.entries[k]); }
      }
    }
  }

  lemma ReceivedInStep(reader: Reader, peer: Peer, w: World, u: World, i: nat, now: int)
    requires i < |w.sent| && Honored(reader, peer, w, w.sent[i]) && InStep(w, w.client)
    requires u == w.(client := u.client) && Received(w.client, u.client, w.sent[i].asked, w.sent[i].answer, now)
    ensures InStep(u, u.client)
  {
    hide CacheKey, Kept, Repeatable, Stands, Milliseconds;
    if u.client.synced {
      assert !Behind(w.client, w.sent[i].answer);
      assert u.client.epoch == Name(w.sent[i].epoch) && Dated(u, w.sent[i].epoch, u.client.revision);
    }
  }

  lemma EventGood(reader: Reader, peer: Peer, w: World, i: nat)
    requires Good(reader, peer, w) && i < |w.events|
    ensures Good(reader, peer, w.(client := Emptied(w.client, w.events[i])))
  {
    hide Honored, Steady;
    var u := w.(client := Emptied(w.client, w.events[i]));
    forall k | 0 <= k < |u.sent| ensures Honored(reader, peer, u, u.sent[k]) {
      HonoredFrame(reader, peer, w, u, w.sent[k]);
    }
    forall k | 0 <= k < |u.events| ensures Announced(u, u.events[k]) {
      AnnouncedFrame(w, u, w.events[k]);
    }
    assert Announced(u, u.events[i]);
  }

  lemma AnnounceGood(reader: Reader, peer: Peer, w: World, a: Answer)
    requires Good(reader, peer, w) && a.epoch == Name(w.epoch) && a.revision == w.repo.db.revision
    ensures Good(reader, peer, w.(events := w.events + [a]))
  {
    hide Honored, Steady, Coherent, AllBacked;
    var u := w.(events := w.events + [a]);
    forall k | 0 <= k < |u.sent| ensures Honored(reader, peer, u, u.sent[k]) {
      HonoredFrame(reader, peer, w, u, w.sent[k]);
    }
    forall k | 0 <= k < |u.events| ensures Announced(u, u.events[k]) {
      if k < |w.events| { AnnouncedFrame(w, u, w.events[k]); } else { assert Dated(u, w.epoch, a.revision); }
    }
    InStepFrame(w, u);
  }

  lemma InStepFrame(w: World, u: World)
    requires InStep(w, w.client) && u.epoch == w.epoch && u.repo == w.repo
    requires u.client.synced ==>
               w.client.synced && u.client.epoch == w.client.epoch && u.client.revision == w.client.revision
    ensures InStep(u, u.client)
  {
    if u.client.synced {
      var n: nat :| w.client.epoch == Name(n) && Dated(w, n, w.client.revision);
      assert Dated(u, n, u.client.revision);
    }
  }

  lemma UsedGood(reader: Reader, peer: Peer, w: World, q: Asked, now: int)
    requires Good(reader, peer, w)
    ensures Good(reader, peer, w.(client := Used(w.client, q, now)))
  {
    hide Honored, Steady, CacheKey, From;
    var u := w.(client := Used(w.client, q, now));
    forall k | 0 <= k < |u.sent| ensures Honored(reader, peer, u, u.sent[k]) {
      HonoredFrame(reader, peer, w, u, w.sent[k]);
    }
    forall k | 0 <= k < |u.events| ensures Announced(u, u.events[k]) {
      AnnouncedFrame(w, u, w.events[k]);
    }
    InStepFrame(w, u);
    UsedCoherent(w.client, q, now);
    UsedBacked(w.sent, w.client, q, now);
  }

  lemma UsedCoherent(c: Cache, q: Asked, now: int)
    requires Coherent(c)
    ensures Coherent(Used(c, q, now))
  {
    hide CacheKey;
    if Found(c, q, now).Some? {
      var key := CacheKey(q.fields);
      Larger(c.entries, key, c.entries[key].(lastUsed := now));
    }
  }

  lemma UsedBacked(sent: seq<Sent>, c: Cache, q: Asked, now: int)
    requires AllBacked(sent, c)
    ensures AllBacked(sent, Used(c, q, now))
  {
    hide CacheKey;
    var d := Used(c, q, now);
    forall k | k in d.entries ensures Backed(sent, k, d.entries[k]) {
      assert Backed(sent, k, c.entries[k]);
      var i :| 0 <= i < |sent| && From(sent[i], k, c.entries[k]);
      assert From(sent[i], k, d.entries[k]);
    }
  }

  // ----- every behaviour -----

  lemma NextGood(reader: Reader, peer: Peer, w: World, x: Act, u: World)
    requires Good(reader, peer, w) && Next(reader, peer, w, x, u)
    ensures Good(reader, peer, u)
  {
    hide Good, Step, Stamp, Used, Emptied, Moves, Honored, Makes, Measured;
    SteadyOf(reader, peer, w);
    match x
    case Other(e) =>
      StepMoves(w, e);
      MovesGood(reader, peer, w, u);
    case Reply(q, call, env, measured) =>
      var e := Stamped(env, Invoke(peer, call));
      StepMoves(w, e);
      var m := w.(repo := Step(w.repo, e).0);
      MovesGood(reader, peer, w, m);
      ReplyHonored(reader, peer, w, q, call, env, measured);
      SentGood(reader, peer, m, u.sent[|w.sent|]);
    case Refuse(q, env, measured) =>
      RefusalHonored(reader, peer, w, q, env, measured);
      SentGood(reader, peer, w, Sent(q, REFUSAL, w.epoch, env, measured));
    case Announce(authority) => AnnounceGood(reader, peer, w, u.events[|w.events|]);
    case Open(env, lost) =>
      OpenSteady(w.repo, env, lost);
      LaterEpoch(w, u);
      MovesGood(reader, peer, w, u);
    case DeliverReply(i, now) => ReceivedGood(reader, peer, w, i, now, u);
    case DeliverEvent(i) => EventGood(reader, peer, w, i);
    case Repeat(q, now) => UsedGood(reader, peer, w, q, now);
  }

  lemma SteadyOf(reader: Reader, peer: Peer, w: World)
    requires Good(reader, peer, w)
    ensures Steady(w.repo)
  {
  }

  lemma LaterEpoch(w: World, u: World)
    requires w.epoch < u.epoch
    ensures Moves(w, u)
  {
  }

  lemma RefusalHonored(reader: Reader, peer: Peer, w: World, q: Asked, env: Env, measured: nat)
    requires Measured(q, env, measured)
    ensures Honored(reader, peer, w, Sent(q, REFUSAL, w.epoch, env, measured))
  {
  }

  lemma {:induction false} BehavesGood(reader: Reader, peer: Peer, ws: seq<World>, xs: seq<Act>)
    requires |ws| == |xs| + 1 && Behaviour(reader, peer, ws, xs)
    ensures Good(reader, peer, ws[|xs|])
    decreases |xs|
  {
    hide Good, Next, Beginning;
    if |xs| == 0 {
      BeginningGood(reader, peer, ws[0]);
    } else {
      var n := |xs| - 1;
      BehavesGood(reader, peer, ws[..n + 1], xs[..n]);
      NextGood(reader, peer, ws[n], xs[n], ws[n + 1]);
    }
  }

  lemma ReachableGood(reader: Reader, peer: Peer, w: World)
    requires Reachable(reader, peer, w)
    ensures Good(reader, peer, w)
  {
    hide Good, Next;
    var ws, xs :| |ws| == |xs| + 1 && Behaviour(reader, peer, ws, xs) && ws[|xs|] == w;
    BehavesGood(reader, peer, ws, xs);
  }

  lemma BeginningGood(reader: Reader, peer: Peer, w: World)
    requires Beginning(w)
    ensures Good(reader, peer, w)
  {
    hide Steady;
  }

  // ----- what the client serves -----

  /** The conditions of a request are decided ALLOWED, with these decisions of its requirements. */
  ghost predicate Decides(l: Ledger, env: Env, peer: Peer, p: Payload, rows: seq<Row>) {
    var r := CheckConditions(l, env, peer, Question(p, None, None, false), false);
    r.Ok? && r.value.decision.ALLOWED? && r.value.rows == rows
  }

  /** The reply `s` confirms the answer `a` repeated for the request `q` now: it was given in this
      epoch to a request with the same key; as long as the installation authority says what it
      said then, and until a deadline of the session, the daemon decides just so; and no deadline
      has passed by a millisecond. */
  ghost predicate Confirms(reader: Reader, peer: Peer, w: World, s: Sent, q: Asked, a: Answer, now: int) {
    var p := PayloadOf(reader, q.fields);
    var sessions := w.repo.db.sessions;
    && s.answer == a && s.epoch == w.epoch && CacheKey(s.asked.fields) == CacheKey(q.fields)
    && (forall later :: SameAuthority(s.env, later) && Unexpired(sessions, p, later.now) ==>
          Decides(w.repo.db, later, peer, p, a.rows))
    && (p.session.Some? ==> p.session.value in sessions && now < Earliest(sessions[p.session.value]) * 1000 + 1000)
  }

  /** In every behaviour: whatever the client repeats while its epoch and revision are the daemon's is
      what the daemon would decide. */
  lemma ServedIsDecided(reader: Reader, peer: Peer, w: World, q: Asked, now: int)
    requires Reachable(reader, peer, w) && Found(w.client, q, now).Some?
    requires w.client.epoch == Name(w.epoch) && w.client.revision == w.repo.db.revision
    ensures exists i :: 0 <= i < |w.sent| && Confirms(reader, peer, w, w.sent[i], q, Found(w.client, q, now).value, now)
  {
    hide Reachable, Good, Confirms, Honored, CacheKey;
    ReachableGood(reader, peer, w);
    var key := CacheKey(q.fields);
    var i := Origin(reader, peer, w, key);
    HonoredConfirms(reader, peer, w, w.sent[i], q, now);
  }

  lemma Origin(reader: Reader, peer: Peer, w: World, key: string) returns (i: nat)
    requires Good(reader, peer, w) && key in w.client.entries
    ensures i < |w.sent| && From(w.sent[i], key, w.client.entries[key])
    ensures Honored(reader, peer, w, w.sent[i]) && Coherent(w.client) && Steady(w.repo)
  {
    hide Honored, Steady, Announced, InStep, From;
    assert Backed(w.sent, key, w.client.entries[key]);
    i :| 0 <= i < |w.sent| && From(w.sent[i], key, w.client.entries[key]);
  }

  lemma HonoredConfirms(reader: Reader, peer: Peer, w: World, s: Sent, q: Asked, now: int)
    requires Steady(w.repo) && Honored(reader, peer, w, s) && Coherent(w.client) && Found(w.client, q, now).Some?
    requires From(s, CacheKey(q.fields), w.client.entries[CacheKey(q.fields)])
    requires w.client.epoch == Name(w.epoch) && w.client.revision == w.repo.db.revision
    ensures Confirms(reader, peer, w, s, q, Found(w.client, q, now).value, now)
  {
    hide CacheKey, PayloadOf, CheckConditions, Inv, Projects, Sound, SameAuthority, Unexpired, Milliseconds, Earliest;
    var p, r := PayloadOf(reader, s.asked.fields), PayloadOf(reader, q.fields);
    var l := w.repo.db;
    N.TextIsInjective(s.epoch, w.epoch);
    assert Stands(reader, peer, l, s);
    SameKeySameTuple(reader, s.asked.fields, q.fields);
    UnversionedIsPlain(reader, q);
    forall later | SameAuthority(s.env, later) && Unexpired(l.sessions, r, later.now)
      ensures Decides(l, later, peer, r, s.answer.rows)
    {
      UnexpiredSame(l.sessions, p, r, later.now);
      ConditionsLater(l, s.env, later, peer, Question(p, None, None, false), Question(r, None, None, false));
    }
    if r.session.Some? {
      var v := CheckConditions(l, s.env, peer, Question(p, None, None, false), false).value;
      EntryEndsWithSession(l, s.env, peer, Question(p, None, None, false), v, s.measured, s.asked, s.answer, 0, now);
    }
  }

  lemma UnversionedIsPlain(reader: Reader, q: Asked)
    requires Unversioned(q)
    ensures PayloadOf(reader, q.fields).approval.None?
  {
  }

  lemma UnexpiredSame(sessions: map<Id, SessionRow>, p: Payload, q: Payload, now: nat)
    requires SameTuple(p, q) && Unexpired(sessions, q, now)
    ensures Unexpired(sessions, p, now)
  {
  }

  // ----- why the epoch is compared -----

  /** A ledger without a past. */
  ghost predicate Bare(l: Ledger) {
    && l.sessions == map[] && l.requests == map[] && l.grants == map[] && l.receipts == map[] && l.artifacts == map[]
  }

  lemma ReplayIsBare(l: Ledger, book: R.Book, installed: (string, string, string) -> bool)
    requires Bare(l)
    ensures Bare(Replay(l, book, installed)) && Replay(l, book, installed).revision <= l.revision + 1
  {
    hide Changed, GrantsOfAny, ReceiptsOn, ArtifactsOn, PendingOnAny, Reproject;
  }

  lemma ResetIsBare(l: Ledger)
    requires Bare(l)
    ensures Bare(ResetRuntime(l)) && ResetRuntime(l).revision == l.revision + 1
  {
    hide PendingRequests, LiveSessions, Temporary;
  }

  lemma LostIsBare(s: Repo, env: Env)
    ensures var t := Step(Opening(s, true), Stamped(env, Restart)).0;
            Bare(t.db) && !t.fenced && !t.halted && t.db.revision <= 2
  {
    hide Replay, ResetRuntime, Execute, Ensure, FenceProfiles, Expire, ClearAll;
    assert Bare(EMPTY);
    ReplayIsBare(EMPTY, s.book, env.installed);
    ResetIsBare(Replay(EMPTY, s.book, env.installed));
  }

  lemma FenceIsBare(l: Ledger, bindings: seq<Binding>)
    requires Bare(l)
    ensures var m := FenceProfiles(l, bindings, false, ""); Bare(m) && m.revision == l.revision + 1
  {
    hide RequestsOf, GrantsUnder, Retired, ReceiptsUnder, CloseAll, BoundTo;
    assert SessionsOf(l, bindings) == {};
    CloseNobody(l, l.next);
  }

  lemma FencedIsBare(s: Repo, env: Env, bindings: seq<Binding>)
    requires Bare(s.db) && !s.fenced && !s.halted
    ensures var t := Step(s, Stamped(env, Event.Fence(bindings, false, ""))).0;
            Bare(t.db) && !t.fenced && !t.halted && t.db.revision == s.db.revision + 1
  {
    hide Bare, Replay, ResetRuntime, Execute, FenceProfiles, Expire, ClearAll;
    FenceIsBare(s.db, bindings);
  }

  lemma BareAllowsNothing(l: Ledger, env: Env, peer: Peer, q: Question)
    requires Bare(l) && CheckConditions(l, env, peer, q, false).Ok?
    ensures !CheckConditions(l, env, peer, q, false).value.decision.ALLOWED?
  {
    hide CheckRows, Overall, Supplied, Supplies;
    VerdictSound(l, env, peer, q, false);
    var v := CheckConditions(l, env, peer, q, false).value;
    assert v.decision.ALLOWED? ==> |v.grants| >= 1 && Fit(l, q.payload, v.grants[0]);
  }

  /** `n` profile fences. */
  function Fences(env: Env, bindings: seq<Binding>, n: nat): seq<Stamped> {
    seq(n, i => Stamped(env, Event.Fence(bindings, false, "")))
  }

  lemma {:induction false} FencesRaise(s: Repo, env: Env, bindings: seq<Binding>, n: nat)
    requires Bare(s.db) && !s.fenced && !s.halted
    ensures var t := After(s, Fences(env, bindings, n));
            Bare(t.db) && !t.fenced && !t.halted && t.db.revision == s.db.revision + n
  {
    hide Step, Bare;
    if n != 0 {
      FencesRaise(s, env, bindings, n - 1);
      var run := Fences(env, bindings, n);
      assert run[..n - 1] == Fences(env, bindings, n - 1);
      FencedIsBare(After(s, run[..n - 1]), env, bindings);
    }
  }

  /** The database is lost, and then come `n` profile fences. */
  function Relapsed(s: Repo, env: Env, bindings: seq<Binding>, n: nat): Repo {
    hide Step; After(Step(Opening(s, true), Stamped(env, Restart)).0, Fences(env, bindings, n))
  }

  ghost predicate AllowsNothing(l: Ledger) {
    forall env, peer, q :: CheckConditions(l, env, peer, q, false).Ok? ==>
      !CheckConditions(l, env, peer, q, false).value.decision.ALLOWED?
  }

  /** After them the daemon is at that revision, and allows nothing. */
  ghost predicate Relapses(s: Repo, env: Env, bindings: seq<Binding>, n: nat, revision: nat) {
    hide After, AllowsNothing;
    var l := Relapsed(s, env, bindings, n).db; l.revision == revision && AllowsNothing(l)
  }

  lemma BareRefuses(l: Ledger)
    requires Bare(l)
    ensures AllowsNothing(l)
  {
    hide Bare, CheckConditions;
    forall env, peer, q | CheckConditions(l, env, peer, q, false).Ok?
      ensures !CheckConditions(l, env, peer, q, false).value.decision.ALLOWED?
    {
      BareAllowsNothing(l, env, peer, q);
    }
  }

  /** Whatever revision from 2 on an answer carries, after the loss of the database the daemon can be
      at that revision again and allow nothing: a revision alone says nothing. */
  lemma EpochIsNeeded(s: Repo, env: Env, bindings: seq<Binding>, revision: nat)
    requires revision >= 2
    ensures exists n: nat :: Relapses(s, env, bindings, n, revision)
  {
    hide Step, Bare, AllowsNothing, After, Fences;
    LostIsBare(s, env);
    var u := Step(Opening(s, true), Stamped(env, Restart)).0;
    var n := revision - u.db.revision;
    FencesRaise(u, env, bindings, n);
    BareRefuses(Relapsed(s, env, bindings, n).db);
    assert Relapses(s, env, bindings, n, revision);
  }
}
