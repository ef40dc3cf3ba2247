/** The operations of a client: each is completed once, its callback is taken once, and the bytes
    queued for the daemon are accounted for. Every step is one critical section of the client; the
    threads of the application and of the transport take them in any order. */
module Exchange {
  import opened Types

  const MAX_OUTPUT: nat := 262144

  /** Why an operation ended. `Lost` is the code for a lost connection; closing the handle
      reports the same code. */
  datatype Outcome = Replied(status: int) | TimedOut | Lost(closed: bool) | Unknown | Busy | Invalid | Malformed

  /** `completions` and `taken` count how often it was completed and its callback taken. */
  datatype Operation = Operation(
    asynchronous: bool, callback: bool, done: bool, detached: bool, sent: bool, accepted: bool,
    outcome: Option<Outcome>, completions: nat, taken: nat)

  /** A frame in the output queue. */
  datatype Output = Output(operation: Id, size: nat, offset: nat)

  datatype State = State(
    operations: map<Id, Operation>, listed: set<Id>, output: seq<Output>, bytes: int,
    writing: bool, closed: bool, disconnected: bool, next: Id)

  const START := State(map[], {}, [], 0, false, false, false, 0)

  // ----- the critical sections -----

  function Admit(s: State, asynchronous: bool, cached: bool): State {
    if s.closed || s.disconnected then s
    else
      var o := Operation(asynchronous, asynchronous, cached, false, false, false,
                         if cached then Some(Replied(0)) else None, if cached then 1 else 0, 0);
      s.(operations := s.operations[s.next := o],
         listed := if asynchronous || !cached then s.listed + {s.next} else s.listed,
         next := s.next + 1)
  }

  /** Ends an operation; a second attempt does nothing. */
  function Complete(s: State, id: Id, outcome: Outcome): State {
    if id !in s.operations || s.operations[id].done || s.operations[id].detached then s
    else
      var o := s.operations[id];
      s.(operations := s.operations[id := o.(done := true, outcome := Some(outcome), completions := o.completions + 1)],
         listed := if !o.asynchronous || s.closed then s.listed - {id} else s.listed)
  }

  /** A frame of `size` bytes is queued; 0 stands for a message that cannot be encoded. */
  function Queue(s: State, id: Id, size: nat): State {
    if id !in s.operations || s.operations[id].done || s.operations[id].detached then s
    else if size == 0 then Complete(s, id, Invalid)
    else if s.bytes + size > MAX_OUTPUT then Complete(s, id, Busy)
    else s.(output := s.output + [Output(id, size, 0)], bytes := s.bytes + size)
  }

  /** The front frame is dropped, when nobody waits for it and nothing of it was written. */
  predicate Droppable(s: State) {
    s.output != [] && s.output[0].offset == 0
    && s.output[0].operation in s.operations
    && (s.operations[s.output[0].operation].done || s.operations[s.output[0].operation].detached)
  }

  function Mark(s: State, id: Id): State
    requires id in s.operations
  {
    s.(operations := s.operations[id := s.operations[id].(sent := true)])
  }

  /** The turn of the write loop under the lock: the front frame is dropped, or its operation is
      marked before the transport is tried. */
  function Begin(s: State): State {
    if s.writing || s.output == [] || s.output[0].operation !in s.operations then s
    else if Droppable(s) then s.(output := s.output[1..], bytes := s.bytes - s.output[0].size)
    else Mark(s, s.output[0].operation).(writing := true)
  }

  /** The transport took `count` bytes of the front frame, at most what is left of it; none when it
      would block or is broken. */
  function Push(s: State, count: nat): State {
    if !s.writing || s.output == [] then s
    else
      var o := s.output[0];
      if o.offset + count >= o.size
      then s.(output := s.output[1..], bytes := s.bytes - (o.size - o.offset), writing := false)
      else s.(output := [o.(offset := o.offset + count)] + s.output[1..], bytes := s.bytes - count, writing := false)
  }

  /** A reply; `None` is that the decision is pending and will be asked for again. */
  function Receive(s: State, id: Id, status: Option<int>): State {
    if id !in s.operations then s
    else
      var t := s.(operations := s.operations[id := s.operations[id].(accepted := true)]);
      if status.None? then t else Complete(t, id, Replied(status.value))
  }

  /** What an operation that ends without a reply is told. */
  function Ending(o: Operation, otherwise: Outcome): Outcome {
    if o.sent && !o.accepted then Unknown else otherwise
  }

  function Expire(s: State, id: Id): State {
    if id !in s.operations then s else Complete(s, id, Ending(s.operations[id], TimedOut))
  }

  /** How `Fail` ends an operation: the connection was lost, or its stream malformed. */
  function Failure(o: Operation, lost: bool): Outcome {
    if lost then Ending(o, Lost(false)) else Malformed
  }

  function Disconnect(s: State): State {
    s.(disconnected := true)
  }

  /** One turn of `Fail`. */
  function End(s: State, id: Id, lost: bool): State {
    if id !in s.operations || id !in s.listed then s else Complete(s, id, Failure(s.operations[id], lost))
  }

  /** The callback is taken, if the handle is open and the operation not detached. */
  function Dispatch(s: State, id: Id): State {
    if id !in s.operations then s
    else
      var o := s.operations[id];
      var called := o.callback && !s.closed && !o.detached;
      s.(operations := s.operations[id := o.(callback := false, taken := if called then o.taken + 1 else o.taken)],
         listed := s.listed - {id})
  }

  predicate Detachable(s: State, id: Id) {
    id in s.listed && id in s.operations && s.operations[id].asynchronous
  }

  function Detach(s: State, id: Id): State {
    if !Detachable(s, id) then s
    else s.(operations := s.operations[id := s.operations[id].(detached := true, callback := false)],
            listed := s.listed - {id})
  }

  function Close(s: State): State {
    if s.closed then s
    else
      s.(closed := true, listed := {},
         operations := map id | id in s.operations ::
           if id in s.listed then s.operations[id].(done := true, detached := true, callback := false,
                                                    outcome := Some(Lost(true)))
           else s.operations[id])
  }

  datatype Event =
    | Admitted(asynchronous: bool, cached: bool)
    | Queued(id: Id, size: nat)
    | Begun
    | Pushed(count: nat)
    | Received(id: Id, status: Option<int>)
    | Expired(id: Id)
    | Disconnected
    | Ended(id: Id, lost: bool)
    | Dispatched(id: Id)
    | Detached(id: Id)
    | Closed

  function Step(s: State, e: Event): State {
    match e
    case Admitted(asynchronous, cached) => Admit(s, asynchronous, cached)
    case Queued(id, size) => Queue(s, id, size)
    case Begun => Begin(s)
    case Pushed(count) => Push(s, count)
    case Received(id, status) => Receive(s, id, status)
    case Expired(id) => Expire(s, id)
    case Disconnected => Disconnect(s)
    case Ended(id, lost) => End(s, id, lost)
    case Dispatched(id) => Dispatch(s, id)
    case Detached(id) => Detach(s, id)
    case Closed => Close(s)
  }

  function After(run: seq<Event>): State {
    if run == [] then START else Step(After(run[..|run| - 1]), run[|run| - 1])
  }

  // ----- what holds between them -----

  /** An end without a reply is reported as such only where no outcome can be outstanding. */
  predicate Truthful(o: Operation) {
    o.outcome == Some(TimedOut) || o.outcome == Some(Lost(false)) ==> !o.sent || o.accepted
  }

  predicate Good(o: Operation) {
    && o.completions <= 1 && (o.completions == 1 ==> o.done)
    && o.taken <= 1 && (o.callback ==> o.taken == 0 && o.asynchronous && !o.detached)
    && (o.outcome.Some? ==> o.done)
    && Truthful(o)
  }

  predicate Operating(operations: map<Id, Operation>, listed: set<Id>, closed: bool, next: Id) {
    && (forall id :: id in operations ==> id < next && Good(operations[id]))
    && (forall id :: id in operations && operations[id].callback ==> id in listed && !closed)
    && (forall id :: id in listed ==> id in operations)
  }

  function Unsent(queue: seq<Output>): int {
    if queue == [] then 0 else queue[0].size - queue[0].offset + Unsent(queue[1..])
  }

  /** The queue holds frames not yet written out, and frames begun belong to operations marked so. */
  predicate Queueing(output: seq<Output>, operations: map<Id, Operation>, bytes: int) {
    && bytes == Unsent(output) && bytes <= MAX_OUTPUT
    && (forall i :: 0 <= i < |output| ==> output[i].offset < output[i].size && output[i].operation in operations)
    && (forall i :: 0 <= i < |output| && output[i].offset > 0 ==> operations[output[i].operation].sent)
  }

  /** While the transport is tried, the front frame's operation is marked. */
  predicate Midway(output: seq<Output>, operations: map<Id, Operation>, writing: bool) {
    writing ==> output != [] && output[0].operation in operations && operations[output[0].operation].sent
  }

  predicate Inv(s: State) {
    && Operating(s.operations, s.listed, s.closed, s.next) && Queueing(s.output, s.operations, s.bytes)
    && Midway(s.output, s.operations, s.writing)
  }

  /** What no step undoes. */
  predicate Later(a: Operation, b: Operation) {
    && (b.callback ==> a.callback) && (a.done ==> b.done) && (a.detached ==> b.detached)
    && (a.sent ==> b.sent) && (a.accepted ==> b.accepted) && a.completions <= b.completions && a.taken <= b.taken
    && (!a.callback ==> b.taken == a.taken)
    && (a.done ==> b.completions == a.completions && b.sent == a.sent)
    && (a.outcome.Some? && b.outcome != a.outcome ==> b.outcome == Some(Lost(true)))
  }

  predicate Onward(s: State, t: State) {
    && (forall id :: id in s.operations ==> id in t.operations && Later(s.operations[id], t.operations[id]))
    && (s.closed ==> t.closed)
  }

  lemma OnwardSame(s: State)
    ensures Onward(s, s)
  {
  }

  lemma OnwardTransitive(s: State, t: State, u: State)
    requires Onward(s, t) && Onward(t, u)
    ensures Onward(s, u)
  {
    forall id | id in s.operations ensures id in u.operations && Later(s.operations[id], u.operations[id]) {
      assert Later(s.operations[id], t.operations[id]) && Later(t.operations[id], u.operations[id]);
    }
  }

  /** A change to one operation. */
  lemma UpdateKeeps(s: State, id: Id, o: Operation, listed: set<Id>)
    requires Inv(s) && id in s.operations && Good(o) && Later(s.operations[id], o)
    requires s.listed - {id} <= listed <= s.listed && (o.callback ==> id in listed)
    ensures var t := s.(operations := s.operations[id := o], listed := listed); Inv(t) && Onward(s, t)
  {
  }

  lemma {:induction false} UnsentAppend(queue: seq<Output>, o: Output)
    ensures Unsent(queue + [o]) == Unsent(queue) + o.size - o.offset
  {
    if queue == [] {
      assert queue + [o] == [o];
    } else {
      UnsentAppend(queue[1..], o);
      assert (queue + [o])[1..] == queue[1..] + [o];
    }
  }

  lemma CompleteKeeps(s: State, id: Id, outcome: Outcome)
    requires Inv(s) && outcome != Lost(true)
    requires id in s.operations && (outcome == TimedOut || outcome == Lost(false)) ==>
               !s.operations[id].sent || s.operations[id].accepted
    ensures Inv(Complete(s, id, outcome)) && Onward(s, Complete(s, id, outcome))
  {
    hide Queueing;
    OnwardSame(s);
    if id in s.operations && !s.operations[id].done && !s.operations[id].detached {
      var o := s.operations[id];
      UpdateKeeps(s, id, o.(done := true, outcome := Some(outcome), completions := o.completions + 1),
                  if !o.asynchronous || s.closed then s.listed - {id} else s.listed);
    }
  }

  lemma AdmitKeeps(s: State, asynchronous: bool, cached: bool)
    requires Inv(s)
    ensures Inv(Admit(s, asynchronous, cached)) && Onward(s, Admit(s, asynchronous, cached))
  {
    OnwardSame(s);
  }

  lemma QueueKeeps(s: State, id: Id, size: nat)
    requires Inv(s)
    ensures Inv(Queue(s, id, size)) && Onward(s, Queue(s, id, size))
  {
    hide Complete, Inv, Onward;
    OnwardSame(s);
    if id in s.operations {
      CompleteKeeps(s, id, Invalid);
      CompleteKeeps(s, id, Busy);
      if size > 0 && s.bytes + size <= MAX_OUTPUT { AppendKeeps(s, id, size); }
    }
  }

  lemma AppendKeeps(s: State, id: Id, size: nat)
    requires s.bytes + size <= MAX_OUTPUT
    requires Inv(s) && size > 0 && id in s.operations
    ensures var t := s.(output := s.output + [Output(id, size, 0)], bytes := s.bytes + size); Inv(t) && Onward(s, t)
  {
    hide Operating, Later;
    OnwardSame(s);
    OnwardFrame(s, s, s.(output := s.output + [Output(id, size, 0)], bytes := s.bytes + size));
    UnsentAppend(s.output, Output(id, size, 0));
  }

  lemma BeginKeeps(s: State)
    requires Inv(s)
    ensures Inv(Begin(s)) && Onward(s, Begin(s))
  {
    hide Operating, Queueing, Onward, Later, Mark, Droppable;
    OnwardSame(s);
    if s.output != [] && !s.writing {
      FrontIn(s);
      if Droppable(s) {
        DropKeeps(s);
      } else {
        MarkKeeps(s);
        SentOf(s, s.output[0].operation);
        OnwardFrame(s, Mark(s, s.output[0].operation), Begin(s));
      }
    }
  }

  lemma PushKeeps(s: State, count: nat)
    requires Inv(s)
    ensures Inv(Push(s, count)) && Onward(s, Push(s, count))
  {
    hide Operating, Queueing, Onward;
    OnwardSame(s);
    if s.writing {
      QueueingPushed(s, count);
      OnwardFrame(s, s, Push(s, count));
    }
  }

  lemma OnwardFrame(s: State, t: State, u: State)
    requires Onward(s, t) && t.operations == u.operations && t.closed == u.closed
    ensures Onward(s, u)
  {
  }

  lemma SentOf(s: State, id: Id)
    requires id in s.operations
    ensures var t := Mark(s, id);
            t == s.(operations := t.operations) && id in t.operations && t.operations[id].sent
  {
  }

  lemma DropKeeps(s: State)
    requires Inv(s) && Droppable(s) && !s.writing
    ensures var t := s.(output := s.output[1..], bytes := s.bytes - s.output[0].size); Inv(t) && Onward(s, t)
  {
    hide Operating;
    OnwardSame(s);
  }

  lemma MarkKeeps(s: State)
    requires Inv(s) && s.output != [] && s.output[0].operation in s.operations && !Droppable(s)
    ensures Inv(Mark(s, s.output[0].operation)) && Onward(s, Mark(s, s.output[0].operation))
  {
    hide Queueing;
    var id := s.output[0].operation;
    FrontOf(s);
    UpdateKeeps(s, id, s.operations[id].(sent := true), s.listed);
  }

  lemma FrontIn(s: State)
    requires Inv(s) && s.output != []
    ensures s.output[0].operation in s.operations
  {
  }

  /** An operation whose frame was not begun is under way, or its frame is dropped. */
  lemma FrontOf(s: State)
    requires Inv(s) && s.output != [] && !Droppable(s)
    ensures var id := s.output[0].operation;
            id in s.operations && (s.operations[id].sent || (!s.operations[id].done && !s.operations[id].detached))
  {
  }

  lemma QueueingPushed(t: State, count: nat)
    requires Queueing(t.output, t.operations, t.bytes) && t.output != [] && t.operations[t.output[0].operation].sent
    ensures var o := t.output[0];
            && Queueing(t.output[1..], t.operations, t.bytes - (o.size - o.offset))
            && (o.offset + count < o.size ==>
                  Queueing([o.(offset := o.offset + count)] + t.output[1..], t.operations, t.bytes - count))
  {
    var o := t.output[0];
    var rest := t.output[1..];
    forall i | 0 <= i < |rest| ensures rest[i] == t.output[i + 1] {
    }
    var more := [o.(offset := o.offset + count)] + rest;
    assert more[1..] == rest;
  }

  lemma ReceiveKeeps(s: State, id: Id, status: Option<int>)
    requires Inv(s)
    ensures Inv(Receive(s, id, status)) && Onward(s, Receive(s, id, status))
  {
    hide Queueing, Complete, Onward;
    OnwardSame(s);
    if id in s.operations {
      UpdateKeeps(s, id, s.operations[id].(accepted := true), s.listed);
      var t := s.(operations := s.operations[id := s.operations[id].(accepted := true)]);
      if status.Some? {
        CompleteKeeps(t, id, Replied(status.value));
        OnwardTransitive(s, t, Complete(t, id, Replied(status.value)));
      }
    }
  }

  lemma ExpireKeeps(s: State, id: Id)
    requires Inv(s)
    ensures Inv(Expire(s, id)) && Onward(s, Expire(s, id))
  {
    hide Queueing, Operating, Complete, Onward;
    OnwardSame(s);
    if id in s.operations { CompleteKeeps(s, id, Ending(s.operations[id], TimedOut)); }
  }

  lemma DisconnectKeeps(s: State)
    requires Inv(s)
    ensures Inv(Disconnect(s)) && Onward(s, Disconnect(s))
  {
    OnwardSame(s);
    OnwardFrame(s, s, Disconnect(s));
  }

  lemma EndKeeps(s: State, id: Id, lost: bool)
    requires Inv(s)
    ensures Inv(End(s, id, lost)) && Onward(s, End(s, id, lost))
  {
    hide Queueing, Operating, Complete, Onward;
    OnwardSame(s);
    if id in s.operations { CompleteKeeps(s, id, Failure(s.operations[id], lost)); }
  }

  lemma DispatchKeeps(s: State, id: Id)
    requires Inv(s)
    ensures Inv(Dispatch(s, id)) && Onward(s, Dispatch(s, id))
  {
    hide Queueing;
    OnwardSame(s);
    if id in s.operations {
      var o := s.operations[id];
      var called := o.callback && !s.closed && !o.detached;
      UpdateKeeps(s, id, o.(callback := false, taken := if called then o.taken + 1 else o.taken), s.listed - {id});
    }
  }

  lemma DetachKeeps(s: State, id: Id)
    requires Inv(s)
    ensures Inv(Detach(s, id)) && Onward(s, Detach(s, id))
  {
    hide Queueing;
    OnwardSame(s);
    if Detachable(s, id) {
      UpdateKeeps(s, id, s.operations[id].(detached := true, callback := false), s.listed - {id});
    }
  }

  lemma CloseKeeps(s: State)
    requires Inv(s)
    ensures Inv(Close(s)) && Onward(s, Close(s))
  {
    OnwardSame(s);
  }

  lemma StepKeeps(s: State, e: Event)
    requires Inv(s)
    ensures Inv(Step(s, e)) && Onward(s, Step(s, e))
  {
    hide Inv, Onward, Admit, Queue, Begin, Push, Receive, Expire, Disconnect, End, Dispatch, Detach, Close;
    match e
    case Admitted(asynchronous, cached) => AdmitKeeps(s, asynchronous, cached);
    case Queued(id, size) => QueueKeeps(s, id, size);
    case Begun => BeginKeeps(s);
    case Pushed(count) => PushKeeps(s, count);
    case Received(id, status) => ReceiveKeeps(s, id, status);
    case Expired(id) => ExpireKeeps(s, id);
    case Disconnected => DisconnectKeeps(s);
    case Ended(id, lost) => EndKeeps(s, id, lost);
    case Dispatched(id) => DispatchKeeps(s, id);
    case Detached(id) => DetachKeeps(s, id);
    case Closed => CloseKeeps(s);
  }

  /** In every order of the critical sections: an operation is completed at most once, its callback
      is taken at most once, an end by deadline or lost connection is reported as such only if
      nothing was attempted on the wire or a reply had arrived, and the byte count is that of the
      bytes queued and not yet written. */
  lemma {:induction false} RunKeeps(run: seq<Event>, id: Id)
    ensures Inv(After(run))
    ensures After(run).bytes == Unsent(After(run).output) <= MAX_OUTPUT
    ensures id in After(run).operations ==>
              var o := After(run).operations[id]; o.completions <= 1 && o.taken <= 1 && Truthful(o)
  {
    hide Step;
    if run != [] {
      RunKeeps(run[..|run| - 1], id);
      StepKeeps(After(run[..|run| - 1]), run[|run| - 1]);
    }
  }

  lemma {:induction false} RunOnward(run: seq<Event>, i: nat)
    requires i <= |run|
    ensures Onward(After(run[..i]), After(run))
    decreases |run|
  {
    hide Step, Onward, Inv;
    if i == |run| {
      assert run[..i] == run;
      OnwardSame(After(run));
    } else {
      var before := run[..|run| - 1];
      RunOnward(before, i);
      assert before[..i] == run[..i];
      RunKeeps(before, 0);
      StepKeeps(After(before), run[|run| - 1]);
      OnwardTransitive(After(run[..i]), After(before), After(run));
    }
  }

  /** Once an operation is detached, or the handle closed, its callback is never taken any more. */
  lemma NoCallbackAfterwards(run: seq<Event>, i: nat, id: Id)
    requires i <= |run| && id in After(run[..i]).operations
    requires After(run[..i]).operations[id].detached || After(run[..i]).closed
    ensures id in After(run).operations && After(run).operations[id].taken == After(run[..i]).operations[id].taken
  {
    hide Step, After, Queueing;
    RunKeeps(run[..i], id);
    RunOnward(run, i);
    assert Later(After(run[..i]).operations[id], After(run).operations[id]);
  }

  // ----- closing -----

  /** What the caller is told of an end without a reply: the codes for a deadline and for a lost
      connection, however it was lost, leave no outcome outstanding. */
  predicate Candid(o: Operation) {
    o.outcome.Some? && (o.outcome.value.TimedOut? || o.outcome.value.Lost?) ==> !o.sent || o.accepted
  }

  /** Closing the handle reports every operation under way as lost, which is the truth if and only if
      nothing of it was attempted on the wire or its reply had arrived. */
  lemma ClosingIsCandid(run: seq<Event>, id: Id)
    requires !After(run).closed && id in After(run).listed
    ensures id in After(run).operations && id in After(run + [Event.Closed]).operations
    ensures var o, c := After(run).operations[id], After(run + [Event.Closed]).operations[id];
            c.outcome == Some(Lost(true)) && (Candid(c) <==> !o.sent || o.accepted)
  {
    hide Step, Queueing, Midway;
    RunKeeps(run, id);
    assert (run + [Event.Closed])[..|run|] == run;
    assert Step(After(run), Event.Closed) == Close(After(run)) by { StepIsClose(After(run)); }
  }

  lemma StepIsClose(s: State)
    ensures Step(s, Event.Closed) == Close(s)
  {
  }

  /** The handle was open, and the operation under way, attempted and without a reply. */
  predicate Outstanding(s: State, id: Id) {
    !s.closed && id in s.listed && id in s.operations && s.operations[id].sent && !s.operations[id].accepted
  }

  /** Whatever is reported as lost by closing was so before. */
  ghost predicate NoneClosed(s: State, t: State, id: Id) {
    id in t.operations && t.operations[id].outcome == Some(Lost(true)) ==>
      id in s.operations && s.operations[id].outcome == Some(Lost(true))
  }

  lemma CompleteClosesNone(s: State, i: Id, outcome: Outcome, id: Id)
    requires outcome != Lost(true)
    ensures NoneClosed(s, Complete(s, i, outcome), id)
  {
  }

  lemma ReceiveClosesNone(s: State, i: Id, status: Option<int>, id: Id)
    ensures NoneClosed(s, Receive(s, i, status), id)
  {
    hide Complete;
    if i in s.operations {
      var t := s.(operations := s.operations[i := s.operations[i].(accepted := true)]);
      if status.Some? { CompleteClosesNone(t, i, Replied(status.value), id); }
    }
  }

  lemma WriteClosesNone(s: State, count: nat, id: Id)
    ensures NoneClosed(s, Begin(s), id) && NoneClosed(s, Push(s, count), id)
  {
    hide Droppable;
  }

  lemma RestClosesNone(s: State, asynchronous: bool, cached: bool, i: Id, id: Id)
    ensures NoneClosed(s, Admit(s, asynchronous, cached), id)
    ensures NoneClosed(s, Dispatch(s, i), id) && NoneClosed(s, Detach(s, i), id)
  {
  }

  /** Only closing reports an operation as lost by closing. */
  lemma OnlyClosing(s: State, e: Event, id: Id)
    requires e != Event.Closed
    ensures NoneClosed(s, Step(s, e), id)
  {
    hide NoneClosed, Complete, Receive, Begin, Push, Dispatch, Detach, Admit;
    NoneClosedSame(s, id);
    match e
    case Admitted(asynchronous, cached) => RestClosesNone(s, asynchronous, cached, 0, id);
    case Queued(i, size) =>
      CompleteClosesNone(s, i, Invalid, id);
      CompleteClosesNone(s, i, Busy, id);
      NoneClosedFrame(s, Step(s, e), id);
    case Begun => WriteClosesNone(s, 0, id);
    case Pushed(count) => WriteClosesNone(s, count, id);
    case Received(i, status) => ReceiveClosesNone(s, i, status, id);
    case Expired(i) => if i in s.operations { CompleteClosesNone(s, i, Ending(s.operations[i], TimedOut), id); }
    case Disconnected => NoneClosedFrame(s, Step(s, e), id);
    case Ended(i, lost) => if i in s.operations { CompleteClosesNone(s, i, Failure(s.operations[i], lost), id); }
    case Dispatched(i) => RestClosesNone(s, false, false, i, id);
    case Detached(i) => RestClosesNone(s, false, false, i, id);
  }

  lemma NoneClosedSame(s: State, id: Id)
    ensures NoneClosed(s, s, id)
  {
  }

  lemma NoneClosedFrame(s: State, t: State, id: Id)
    ensures t.operations == s.operations ==> NoneClosed(s, t, id)
  {
  }

  lemma StepCandid(s: State, e: Event, id: Id)
    requires Inv(s) && id in Step(s, e).operations && !Candid(Step(s, e).operations[id])
    ensures (id in s.operations && !Candid(s.operations[id])) || (e == Event.Closed && Outstanding(s, id))
  {
    hide Step, Queueing, Midway;
    StepKeeps(s, e);
    var o := Step(s, e).operations[id];
    assert Good(o);
    if e == Event.Closed {
      StepIsClose(s);
    } else {
      OnlyClosing(s, e, id);
      assert Later(s.operations[id], o);
    }
  }

  /** In every run: an operation that is reported as timed out or lost although its outcome is open
      was closed upon while it was outstanding. */
  lemma {:induction false} OnlyClosingHides(run: seq<Event>, id: Id)
    requires id in After(run).operations && !Candid(After(run).operations[id])
    ensures exists k :: 0 <= k < |run| && run[k] == Event.Closed && Outstanding(After(run[..k]), id)
  {
    hide Step, Inv, Candid, Outstanding;
    var n := |run| - 1;
    if run != [] {
      var before := run[..n];
      RunKeeps(before, id);
      StepCandid(After(before), run[n], id);
      if id in After(before).operations && !Candid(After(before).operations[id]) {
        OnlyClosingHides(before, id);
        var k :| 0 <= k < |before| && before[k] == Event.Closed && Outstanding(After(before[..k]), id);
        assert before[..k] == run[..k];
      }
    }
  }

  /** Closing the handle reports a lost connection even where the outcome is open. */
  lemma ClosingHidesAnOpenOutcome()
    ensures exists run, id :: id in After(run).operations && After(run).operations[id].outcome == Some(Lost(true))
                              && After(run).operations[id].sent && !After(run).operations[id].accepted
  {
    var one, two, three := Admitted(true, false), Queued(0, 10), Begun;
    var s1 := Admit(START, true, false);
    var s2 := Queue(s1, 0, 10);
    var s3 := Begin(s2);
    assert After([one]) == s1 by { assert [one][..0] == []; }
    assert After([one, two]) == s2 by { assert [one, two][..1] == [one]; }
    assert After([one, two, three]) == s3 by { assert [one, two, three][..2] == [one, two]; }
    var run := [one, two, three, Event.Closed];
    assert After(run) == Close(s3) by { assert run[..3] == [one, two, three]; }
    assert 0 in s3.operations && s3.operations[0].sent && !s3.operations[0].accepted && 0 in s3.listed && !s3.closed;
    assert After(run).operations[0].outcome == Some(Lost(true));
  }
}
