/** The client's handle, whose critical sections are those of `Exchange`. */
module Client {
  import opened Types
  import opened Exchange

  // ----- the write loop -----

  /** What the transport answers to a write. */
  datatype Answer = Took(count: nat) | WouldBlock | Broken

  predicate Writable(s: State) {
    s.output != [] && !s.writing && s.output[0].operation in s.operations
  }

  /** A frame marked and tried once. */
  function Try(s: State, answer: Answer): State {
    Push(Begin(s), if answer.Took? then answer.count else 0)
  }

  /** The write loop, with the answers the transport will give: it stops with the queue empty, or
      when the transport takes nothing. The result says whether the connection still stands. */
  function Written(s: State, answers: seq<Answer>): (State, bool)
    decreases |s.output|, |answers|
  {
    if !Writable(s) then (s, true)
    else if Droppable(s) then Written(Begin(s), answers)
    else if answers == [] || answers[0] == WouldBlock then (Try(s, WouldBlock), true)
    else if answers[0] == Broken || answers[0].count == 0 then (Try(s, answers[0]), false)
    else Written(Try(s, answers[0]), answers[1..])
  }

  lemma TryKeeps(s: State, answer: Answer)
    requires Inv(s)
    ensures Inv(Try(s, answer)) && Onward(s, Try(s, answer)) && Onward(s, Begin(s)) && Inv(Begin(s))
  {
    hide Inv, Onward, Begin, Push;
    var count := if answer.Took? then answer.count else 0;
    BeginKeeps(s);
    PushKeeps(Begin(s), count);
    OnwardTransitive(s, Begin(s), Push(Begin(s), count));
  }

  lemma {:induction false} WrittenKeeps(s: State, answers: seq<Answer>)
    requires Inv(s)
    ensures Inv(Written(s, answers).0) && Onward(s, Written(s, answers).0)
    decreases |s.output|, |answers|
  {
    hide Inv, Onward;
    OnwardSame(s);
    if Writable(s) {
      var answer := if answers == [] then WouldBlock else answers[0];
      TryKeeps(s, answer);
      if Droppable(s) {
        WrittenKeeps(Begin(s), answers);
        OnwardTransitive(s, Begin(s), Written(Begin(s), answers).0);
      } else if answer.Took? && answer.count > 0 {
        WrittenKeeps(Try(s, answer), answers[1..]);
        OnwardTransitive(s, Try(s, answer), Written(Try(s, answer), answers[1..]).0);
      }
    }
  }

  /** Nothing of the frame was written, and nobody waits for it. */
  predicate Idle(o: Output, operation: Operation) {
    o.offset == 0 && (operation.done || operation.detached)
  }

  lemma IdleIsDroppable(s: State)
    requires s.output != [] && s.output[0].operation in s.operations
    ensures Droppable(s) <==> Idle(s.output[0], s.operations[s.output[0].operation])
  {
  }

  lemma ByteCount(s: State)
    requires Inv(s)
    ensures s.bytes == Unsent(s.output)
  {
  }

  lemma WrittenDrop(s: State, answers: seq<Answer>)
    requires Writable(s) && Droppable(s)
    ensures Written(s, answers) == Written(Begin(s), answers)
    ensures !Begin(s).writing && |Begin(s).output| < |s.output|
  {
  }

  lemma WrittenTry(s: State, answers: seq<Answer>, i: nat)
    requires Writable(s) && !Droppable(s) && i <= |answers|
    ensures var answer := if i == |answers| then WouldBlock else answers[i];
            && !Try(s, answer).writing && |Try(s, answer).output| <= |s.output|
            && if answer.Took? && answer.count > 0
               then Written(s, answers[i..]) == Written(Try(s, answer), answers[i + 1..])
               else Written(s, answers[i..]) == (Try(s, answer), answer == WouldBlock)
  {
    if i < |answers| { assert answers[i..][1..] == answers[i + 1..]; }
  }

  lemma WrittenDone(s: State, answers: seq<Answer>)
    requires s.output == []
    ensures Written(s, answers) == (s, true)
  {
  }

  // ----- failing -----

  predicate Unfinished(s: State, id: Id) {
    id in s.listed && id in s.operations && !s.operations[id].done && !s.operations[id].detached
  }

  function Failed(o: Operation, lost: bool): Operation {
    o.(done := true, outcome := Some(Failure(o, lost)), completions := o.completions + 1)
  }

  /** Some of the open operations ended because the connection failed. */
  function FailSome(s: State, lost: bool, ids: set<Id>): State {
    s.(operations := map id | id in s.operations ::
         if id in ids && Unfinished(s, id) then Failed(s.operations[id], lost) else s.operations[id],
       listed := set id | id in s.listed &&
         !(id in ids && Unfinished(s, id) && (!s.operations[id].asynchronous || s.closed)))
  }

  /** A failure tells each open operation what is true of it: that the stream is malformed, that its outcome is
      unknown, or that nothing came of it. */
  lemma FailureIsTold(s: State, lost: bool, id: Id)
    requires Unfinished(s, id)
    ensures var o, p := s.operations[id], FailSome(Disconnect(s), lost, s.listed).operations[id];
            && p.done && p.completions == o.completions + 1
            && p.outcome == Some(if !lost then Malformed else if o.sent && !o.accepted then Unknown else Lost(false))
  {
    assert Unfinished(Disconnect(s), id);
  }

  lemma FailMore(s: State, lost: bool, ids: set<Id>, id: Id)
    requires Unfinished(s, id) && id !in ids
    ensures End(FailSome(s, lost, ids), id, lost) == FailSome(s, lost, ids + {id})
  {
    var t, u := FailSome(s, lost, ids), FailSome(s, lost, ids + {id});
    assert t.operations[id] == s.operations[id] && id in t.listed;
    assert End(t, id, lost).operations == u.operations;
    assert End(t, id, lost).listed == u.listed;
  }

  lemma FailNone(s: State, lost: bool)
    ensures FailSome(s, lost, {}) == s
  {
    assert FailSome(s, lost, {}).operations == s.operations;
    assert FailSome(s, lost, {}).listed == s.listed;
  }

  lemma {:induction false} FailKeeps(s: State, lost: bool, ids: set<Id>)
    requires Inv(s) && forall id :: id in ids ==> Unfinished(s, id)
    ensures Inv(FailSome(s, lost, ids)) && Onward(s, FailSome(s, lost, ids))
    decreases ids
  {
    hide Inv, Onward, End, FailSome, Unfinished;
    if ids == {} {
      FailNone(s, lost);
      OnwardSame(s);
    } else {
      var id :| id in ids;
      var rest := ids - {id};
      FailKeeps(s, lost, rest);
      FailMore(s, lost, rest, id);
      assert rest + {id} == ids;
      EndKeeps(FailSome(s, lost, rest), id, lost);
      OnwardTransitive(s, FailSome(s, lost, rest), FailSome(s, lost, ids));
    }
  }

  lemma StillOpen(s: State, lost: bool, ids: set<Id>, id: Id)
    requires Unfinished(FailSome(s, lost, ids), id) && forall i :: i in ids ==> Unfinished(s, i)
    ensures Unfinished(s, id) && id !in ids
  {
  }

  lemma AllFailed(s: State, lost: bool, ids: set<Id>)
    requires (forall id :: id in ids ==> Unfinished(s, id)) && forall id :: !Unfinished(FailSome(s, lost, ids), id)
    ensures FailSome(s, lost, ids) == FailSome(s, lost, s.listed)
  {
    var t := FailSome(s, lost, ids);
    forall id | Unfinished(s, id) ensures id in ids {
      if id !in ids { assert Unfinished(t, id); }
    }
    var u := FailSome(s, lost, s.listed);
    assert t.operations == u.operations;
    assert t.listed == u.listed;
  }

  // ----- closing -----

  function Finished(o: Operation): Operation {
    o.(done := true, detached := true, callback := false, outcome := Some(Lost(true)))
  }

  function CloseSome(s: State, ids: set<Id>): map<Id, Operation> {
    map id | id in s.operations :: if id in ids then Finished(s.operations[id]) else s.operations[id]
  }

  lemma CloseNone(s: State)
    ensures CloseSome(s, {}) == s.operations
  {
  }

  lemma CloseMore(s: State, ids: set<Id>, id: Id)
    requires id !in ids
    ensures var t := CloseSome(s, ids);
            CloseSome(s, ids + {id}) == if id in t then t[id := Finished(t[id])] else t
  {
  }

  lemma CloseTwice(s: State)
    requires s.closed
    ensures Exchange.Close(s) == s
  {
  }

  lemma CloseAll(s: State)
    requires !s.closed
    ensures Exchange.Close(s) == s.(closed := true, listed := {}, operations := CloseSome(s, s.listed))
  {
    assert Exchange.Close(s).operations == CloseSome(s, s.listed);
  }

  // ----- replies -----

  const INT_MIN: int := -0x8000_0000

  /** A reply as it is read: which operation waits for it, its status if that is a number, whether a
      request is still pending, and whether that request is named. */
  datatype Incoming = Incoming(version: string, operation: Option<Id>, status: Option<int>, pending: bool, named: bool)

  predicate Plausible(r: Incoming) {
    r.version == "1" && r.status.Some? && INT_MIN <= r.status.value <= 0
  }

  predicate Unsettled(r: Incoming) {
    r.status == Some(0) && r.pending
  }

  /** What the stream goes on after. */
  predicate Acceptable(r: Incoming) {
    if r.operation.None? then r.version == "1" else Plausible(r) && (Unsettled(r) ==> r.named)
  }

  /** The status it ends its operation with. */
  function EndsWith(r: Incoming): Option<int> {
    if Unsettled(r) then None else r.status
  }

  /** The handle. `listed` and `operations` are the table of operations under way and the records
      its entries share with their callers. */
  class Client {
    var operations: map<Id, Operation>
    var listed: set<Id>
    var output: seq<Output>
    var bytes: int
    var writing: bool
    var closed: bool
    var disconnected: bool
    var next: Id

    ghost function Now(): State
      reads this
    {
      State(operations, listed, output, bytes, writing, closed, disconnected, next)
    }

    ghost predicate Valid()
      reads this
    {
      Inv(Now())
    }

    constructor ()
      ensures Valid() && Now() == START
    {
      operations, listed, output, bytes := map[], {}, [], 0;
      writing, closed, disconnected, next := false, false, false, 0;
    }

    method Admit(asynchronous: bool, cached: bool) returns (id: Option<Id>)
      requires Valid()
      modifies this
      ensures Now() == Exchange.Admit(old(Now()), asynchronous, cached) && Valid()
      ensures id == if old(closed || disconnected) then None else Some(old(next))
    {
      ghost var was := Now();
      if closed || disconnected {
        id := None;
      } else {
        id := Some(next);
        operations := operations[next := Operation(asynchronous, asynchronous, cached, false, false, false,
                                                   if cached then Some(Replied(0)) else None, if cached then 1 else 0,
                                                       0)];
        if asynchronous || !cached { listed := listed + {next}; }
        next := next + 1;
      }
      hide Inv;
      AdmitKeeps(was, asynchronous, cached);
    }

    method Complete(id: Id, outcome: Outcome)
      requires id in operations
      modifies this`operations, this`listed
      ensures Now() == Exchange.Complete(old(Now()), id, outcome)
    {
      var o := operations[id];
      if o.done || o.detached { return; }
      operations := operations[id := o.(done := true, outcome := Some(outcome), completions := o.completions + 1)];
      if !o.asynchronous || closed { listed := listed - {id}; }
    }

    method Queue(id: Id, size: nat)
      requires Valid() && id in operations
      modifies this
      ensures Now() == Exchange.Queue(old(Now()), id, size) && Valid()
    {
      ghost var was := Now();
      hide Inv, Exchange.Complete;
      QueueKeeps(was, id, size);
      if operations[id].done || operations[id].detached { return; }
      if size == 0 {
        Complete(id, Invalid);
      } else if bytes + size > MAX_OUTPUT {
        Complete(id, Busy);
      } else {
        bytes := bytes + size;
        output := output + [Output(id, size, 0)];
      }
    }

    /** Marks the front operation and tries its frame. */
    method Attempt(answer: Answer)
      requires Writable(Now()) && !Droppable(Now())
      modifies this`operations, this`output, this`bytes
      ensures Now() == Try(old(Now()), answer)
    {
      var o := output[0];
      operations := operations[o.operation := operations[o.operation].(sent := true)];
      var count := if answer.Took? then answer.count else 0;
      if o.offset + count >= o.size {
        bytes := bytes - (o.size - o.offset);
        output := output[1..];
      } else {
        bytes := bytes - count;
        output := [o.(offset := o.offset + count)] + output[1..];
      }
    }

    method Drop()
      requires Writable(Now()) && Droppable(Now())
      modifies this`output, this`bytes
      ensures Now() == Begin(old(Now()))
    {
      bytes := bytes - output[0].size;
      output := output[1..];
    }

    /** `Write`: the loop is `Written`, and leaves the byte count that of the bytes still queued. */
    method Write(answers: seq<Answer>) returns (standing: bool)
      requires Valid() && !writing
      modifies this
      ensures (Now(), standing) == Written(old(Now()), answers) && Valid() && !writing
      ensures bytes == Unsent(output)
    {
      hide Inv, Try, Begin, Droppable, Written;
      ghost var was := Now();
      WrittenKeeps(was, answers);
      ByteCount(Written(was, answers).0);
      var i := 0;
      assert answers[0..] == answers;
      while output != []
        invariant Inv(Now()) && !writing && i <= |answers|
        invariant Written(was, answers) == Written(Now(), answers[i..])
        decreases |output|, |answers| - i
      {
        FrontIn(Now());
        if Idle(output[0], operations[output[0].operation]) {
          IdleIsDroppable(Now());
          WrittenDrop(Now(), answers[i..]);
          BeginKeeps(Now());
          Drop();
        } else {
          IdleIsDroppable(Now());
          var answer := if i == |answers| then WouldBlock else answers[i];
          WrittenTry(Now(), answers, i);
          TryKeeps(Now(), answer);
          Attempt(answer);
          if !answer.Took? || answer.count == 0 { return answer == WouldBlock; }
          i := i + 1;
        }
      }
      WrittenDone(Now(), answers[i..]);
      return true;
    }

    /** `Fail`: every open operation ends, one at a time; afterwards none is open. */
    method Fail(lost: bool)
      requires Valid()
      modifies this
      ensures Valid() && Now() == FailSome(Disconnect(old(Now())), lost, old(listed))
      ensures forall id :: id in listed && id in operations ==> operations[id].done || operations[id].detached
    {
      disconnected := true;
      ghost var was := Now();
      ghost var ids := {};
      FailNone(was, lost);
      while exists id :: id in listed && id in operations && !operations[id].done && !operations[id].detached
        invariant Now() == FailSome(was, lost, ids) && forall id :: id in ids ==> Unfinished(was, id)
        decreases was.listed - ids
      {
        hide FailSome;
        var id :| id in listed && id in operations && !operations[id].done && !operations[id].detached;
        StillOpen(was, lost, ids, id);
        FailMore(was, lost, ids, id);
        Complete(id, Failure(operations[id], lost));
        ids := ids + {id};
      }
      hide Inv;
      DisconnectKeeps(old(Now()));
      FailKeeps(was, lost, ids);
      AllFailed(was, lost, ids);
    }

    /** `Close`: all operations under way are ended without their callbacks. */
    method Close()
      requires Valid()
      modifies this
      ensures Now() == Exchange.Close(old(Now())) && Valid()
    {
      ghost var was := Now();
      hide Inv, CloseSome, Exchange.Close;
      CloseKeeps(was);
      if closed {
        CloseTwice(was);
        return;
      }
      CloseNone(was);
      closed := true;
      var todo := listed;
      assert was.listed - todo == {};
      while todo != {}
        invariant todo <= listed && Now() == was.(closed := true, operations := operations)
        invariant operations == CloseSome(was, was.listed - todo)
        decreases todo
      {
        var id :| id in todo;
        CloseMore(was, was.listed - todo, id);
        if id in operations {
          operations := operations[id := Finished(operations[id])];
        }
        assert was.listed - todo + {id} == was.listed - (todo - {id});
        todo := todo - {id};
      }
      assert was.listed - {} == was.listed;
      CloseAll(was);
      listed := {};
    }

    /** A reply: ignored if nothing waits for it, refused if it is malformed. */
    method Receive(reply: Incoming) returns (fine: bool)
      requires Valid() && (reply.operation.Some? ==> reply.operation.value in operations)
      modifies this
      ensures Valid() && fine == Acceptable(reply)
      ensures Now() == if reply.operation.None? || !Plausible(reply) then old(Now())
                       else Exchange.Receive(old(Now()), reply.operation.value, EndsWith(reply))
    {
      hide Inv, Exchange.Complete;
      ghost var was := Now();
      if reply.version != "1" { return false; }
      if reply.operation.None? { return true; }
      var id := reply.operation.value;
      if reply.status.None? || reply.status.value > 0 || reply.status.value < INT_MIN { return false; }
      ReceiveKeeps(was, id, EndsWith(reply));
      operations := operations[id := operations[id].(accepted := true)];
      if reply.status.value == 0 && reply.pending { return reply.named; }
      Complete(id, Replied(reply.status.value));
      return true;
    }

    /** The deadline of an operation passed, in `Pump` or in the caller that waits for it. */
    method Expire(id: Id)
      requires Valid() && id in operations
      modifies this
      ensures Now() == Exchange.Expire(old(Now()), id) && Valid()
    {
      ghost var was := Now();
      hide Inv, Exchange.Complete;
      ExpireKeeps(was, id);
      Complete(id, if operations[id].sent && !operations[id].accepted then Unknown else TimedOut);
    }

    method Dispatch(id: Id) returns (called: bool)
      requires Valid() && id in operations
      modifies this
      ensures Now() == Exchange.Dispatch(old(Now()), id) && Valid()
      ensures called <==> old(operations[id].callback && !closed && !operations[id].detached)
    {
      ghost var was := Now();
      hide Inv;
      DispatchKeeps(was, id);
      var o := operations[id];
      called := !closed && !o.detached && o.callback;
      listed := listed - {id};
      operations := operations[id := o.(callback := false, taken := if called then o.taken + 1 else o.taken)];
    }

    method Detach(id: Id) returns (found: bool)
      requires Valid()
      modifies this
      ensures Now() == Exchange.Detach(old(Now()), id) && Valid()
      ensures found <==> old(Detachable(Now(), id))
    {
      ghost var was := Now();
      hide Inv;
      DetachKeeps(was, id);
      found := id in listed && id in operations && operations[id].asynchronous;
      if found {
        operations := operations[id := operations[id].(detached := true, callback := false)];
        listed := listed - {id};
      }
    }
  }
}
