/** The codec as loops, and the stream reader that puts frames together again. */
module Streams {
  import opened Types
  import opened Parcels
  import opened Frames
  import K = Pack

  // ----- Encode and Decode -----

  lemma {:induction false} SizeJoins(a: seq<Field>, b: seq<Field>)
    ensures FieldsSize(a + b) == FieldsSize(a) + FieldsSize(b)
  {
    if a == [] {
      assert a + b == b;
    } else {
      SizeJoins(a[1..], b);
      assert (a + b)[1..] == a[1..] + b;
    }
  }

  lemma NoFields(m: Message)
    ensures FieldsIn(m, {}) == [] && FieldsSize([]) == 0
    ensures [] + FieldsIn(m, Extra(m)) == FieldsIn(m, Extra(m))
  {
  }

  /** The next field in order, after those gathered already. */
  lemma FieldsFrom(m: Message, keys: set<string>, before: seq<Field>)
    requires keys <= m.Keys && keys != {}
    ensures var k := K.Least(keys);
            var f := Field(k, m[k]);
            && before + FieldsIn(m, keys) == (before + [f]) + FieldsIn(m, keys - {k})
            && FieldsSize(before + [f]) == FieldsSize(before) + 10 + |k| + |m[k]|
            && FieldsSize(before + FieldsIn(m, keys)) >= FieldsSize(before + [f])
  {
    var k := K.Least(keys);
    var f := Field(k, m[k]);
    var rest := FieldsIn(m, keys - {k});
    assert before + ([f] + rest) == (before + [f]) + rest;
    SizeJoins(before, [f]);
    SizeJoins(before + [f], rest);
    assert FieldsSize([f]) == 10 + |k| + |m[k]|;
  }

  /** The fields of a message and the size of its frame, abandoned as soon as it is too large. */
  method Gather(m: Message, start: nat) returns (r: Option<(seq<Field>, nat)>)
    requires start <= FRAME_MAX
    ensures var fields := FieldsIn(m, Extra(m));
            r == if start + FieldsSize(fields) > FRAME_MAX then None else Some((fields, start + FieldsSize(fields)))
  {
    hide FieldsIn, FieldsSize, Extra, K.First;
    var left := Extra(m);
    var fields: seq<Field> := [];
    var size := start;
    NoFields(m);
    ExtraIn(m);
    while left != {}
      invariant left <= m.Keys && fields + FieldsIn(m, left) == FieldsIn(m, Extra(m))
      invariant size == start + FieldsSize(fields) <= FRAME_MAX
      decreases left
    {
      var k := K.Least(left);
      K.LeastIn(left);
      var f := Field(k, m[k]);
      FieldsFrom(m, left, fields);
      size := size + 10 + |k| + |m[k]|;
      if size > FRAME_MAX { return None; }
      fields := fields + [f];
      left := left - {k};
    }
    assert fields + FieldsIn(m, {}) == fields;
    return Some((fields, size));
  }

  method Encode(utf8: string -> bool, m: Message) returns (frame: Bytes)
    requires Utf8(utf8) && ByteStrings(m)
    ensures frame == Encoded(utf8, m)
  {
    hide FieldsIn, Put, ValidEnvelope;
    if !Admissible(utf8, m) { return []; }
    var action := Value(m, "method");
    var kind := KindOf(action);
    var id := IdOf(m, kind);
    if id.None? { return []; }
    var status := StatusOf(m, kind);
    if status.None? { return []; }
    var gathered := Gather(m, 29 + |action|);
    if gathered.None? { return []; }
    var e := Envelope(1, kind, id.value, action, status.value, gathered.value.0);
    EnvelopeIsValid(utf8, m);
    return U32(gathered.value.1) + Put(utf8, e);
  }

  method Decode(utf8: string -> bool, body: Bytes) returns (r: Option<Message>)
    ensures r == Decoded(utf8, body)
  {
    hide Get, Base, Lawful, ValidField;
    if |body| < 29 || |body| > FRAME_MAX { return None; }
    var e := Get(utf8, body);
    if e.Err? || !Lawful(e.value) { return None; }
    var m := Base(e.value);
    var fields := e.value.fields;
    assert fields[0..] == fields;
    for i := 0 to |fields|
      invariant AddFields(utf8, Base(e.value), fields) == AddFields(utf8, m, fields[i..])
    {
      var f := fields[i];
      assert fields[i..][0] == f && fields[i..][1..] == fields[i + 1..];
      if !ValidField(utf8, f.key, f.value) || f.key == "status" || f.key in m { return None; }
      m := m[f.key := f.value];
    }
    return Some(m);
  }

  // ----- the receive loop -----

  /** What a buffer yields: the messages in it, what is left, and whether it is well-formed. */
  datatype Drained = Drained(messages: seq<Message>, rest: Bytes, ok: bool)

  /** The frame at the front of a buffer: not there yet, malformed, or a message. */
  datatype Front = Wait | Bad | Take(message: Message, rest: Bytes)

  function FrontOf(utf8: string -> bool, input: Bytes): (f: Front)
    ensures f.Take? ==> |f.rest| < |input|
  {
    if |input| < 4 then Wait
    else
      var size := GetU32(input);
      if size == 0 || size > FRAME_MAX then Bad
      else if |input| < size + 4 then Wait
      else
        var m := Decoded(utf8, input[4..size + 4]);
        if m.None? then Bad else Take(m.value, input[size + 4..])
  }

  function Drain(utf8: string -> bool, input: Bytes): Drained
    decreases |input|
  {
    match FrontOf(utf8, input)
    case Wait => Drained([], input, true)
    case Bad => Drained([], input, false)
    case Take(m, rest) =>
      var d := Drain(utf8, rest);
      Drained([m] + d.messages, d.rest, d.ok)
  }

  lemma FrontPrefix(utf8: string -> bool, a: Bytes, b: Bytes)
    ensures FrontOf(utf8, a).Bad? ==> FrontOf(utf8, a + b).Bad?
    ensures FrontOf(utf8, a).Take? ==> FrontOf(utf8, a + b) == Take(FrontOf(utf8, a).message, FrontOf(utf8, a).rest + b)
  {
    hide Decoded, GetU32;
    if |a| >= 4 {
      var size := GetU32(a);
      SameHeader(a, b);
      if |a| >= size + 4 {
        assert (a + b)[4..size + 4] == a[4..size + 4];
        assert (a + b)[size + 4..] == a[size + 4..] + b;
      }
    }
  }

  lemma DrainOnce(utf8: string -> bool, input: Bytes)
    ensures var f := FrontOf(utf8, input);
            && (f.Wait? ==> Drain(utf8, input) == Drained([], input, true))
            && (f.Bad? ==> Drain(utf8, input) == Drained([], input, false))
            && (f.Take? ==>
                  var d := Drain(utf8, f.rest); Drain(utf8, input) == Drained([f.message] + d.messages, d.rest, d.ok))
  {
    hide FrontOf;
  }

  /** Draining a prefix first makes no difference to the whole. */
  lemma {:induction false} DrainPrefix(utf8: string -> bool, a: Bytes, b: Bytes)
    ensures var d := Drain(utf8, a);
            var all := Drain(utf8, a + b);
            if d.ok
            then var more := Drain(utf8, d.rest + b); all == Drained(d.messages + more.messages, more.rest, more.ok)
            else !all.ok && all.messages == d.messages
    decreases |a|
  {
    hide FrontOf, Drain;
    FrontPrefix(utf8, a, b);
    DrainOnce(utf8, a);
    DrainOnce(utf8, a + b);
    match FrontOf(utf8, a)
    case Wait =>
      var more := Drain(utf8, a + b);
      assert [] + more.messages == more.messages;
    case Bad =>
    case Take(m, rest) =>
      DrainPrefix(utf8, rest, b);
      var d := Drain(utf8, rest);
      var more := Drain(utf8, d.rest + b);
      assert [m] + (d.messages + more.messages) == ([m] + d.messages) + more.messages;
  }

  lemma SameHeader(a: Bytes, b: Bytes)
    requires |a| >= 4
    ensures GetU32(a + b) == GetU32(a)
  {
  }

  /** A connection's input: what has been received and not yet decoded, and the messages handed on. */
  class Connection {
    const utf8: string -> bool
    var input: Bytes
    var received: seq<Message>
    var failed: bool

    constructor (utf8: string -> bool)
      ensures this.utf8 == utf8 && input == [] && received == [] && !failed
    {
      this.utf8, input, received, failed := utf8, [], [], false;
    }

    /** One read of the socket: the bytes are appended and every whole frame is handed on. */
    method Read(chunk: Bytes)
      requires !failed
      modifies this
      ensures var d := Drain(utf8, old(input) + chunk);
              received == old(received) + d.messages && input == d.rest && failed == !d.ok
    {
      hide GetU32, Decoded, Drain;
      input := input + chunk;
      ghost var start := input;
      ghost var taken: seq<Message> := [];
      assert [] + Drain(utf8, start).messages == Drain(utf8, start).messages;
      while |input| >= 4
        invariant !failed && received == old(received) + taken
        invariant var d := Drain(utf8, input);
                  Drain(utf8, start) == Drained(taken + d.messages, d.rest, d.ok)
        decreases |input|
      {
        DrainOnce(utf8, input);
        assert taken + [] == taken;
        var size := GetU32(input);
        if size == 0 || size > FRAME_MAX {
          failed := true;
          return;
        }
        if |input| < size + 4 { break; }
        var m := Decode(utf8, input[4..size + 4]);
        if m.None? {
          failed := true;
          return;
        }
        JoinOne(taken, m.value, Drain(utf8, input[size + 4..]).messages);
        received := received + [m.value];
        taken := taken + [m.value];
        input := input[size + 4..];
      }
      DrainOnce(utf8, input);
      assert taken + [] == taken;
    }
  }

  lemma JoinOne(a: seq<Message>, m: Message, b: seq<Message>)
    ensures a + ([m] + b) == (a + [m]) + b
  {
  }

  /** The reads of a whole stream, one after the other. */
  function DrainAll(utf8: string -> bool, input: Bytes, chunks: seq<Bytes>): Drained
    decreases |chunks|
  {
    if chunks == [] then Drained([], input, true)
    else
      var d := Drain(utf8, input + chunks[0]);
      if !d.ok then d
      else
        var more := DrainAll(utf8, d.rest, chunks[1..]);
        Drained(d.messages + more.messages, more.rest, more.ok)
  }

  function Concat(chunks: seq<Bytes>): Bytes {
    if chunks == [] then [] else chunks[0] + Concat(chunks[1..])
  }

  /** However a stream is cut into reads, it yields the messages it yields in one piece, fails or not
      alike, and if it does not, leaves the same bytes. */
  lemma {:induction false} CutsDoNotMatter(utf8: string -> bool, input: Bytes, chunks: seq<Bytes>)
    requires chunks != []
    ensures var a, b := DrainAll(utf8, input, chunks), Drain(utf8, input + Concat(chunks));
            a.ok == b.ok && a.messages == b.messages && (a.ok ==> a.rest == b.rest)
    decreases |chunks|
  {
    hide Drain;
    var first, rest := input + chunks[0], Concat(chunks[1..]);
    assert input + Concat(chunks) == first + rest;
    DrainPrefix(utf8, first, rest);
    var d := Drain(utf8, first);
    if d.ok {
      if |chunks| == 1 {
        assert rest == [] && first + rest == first;
        var more := DrainAll(utf8, d.rest, chunks[1..]);
        assert d.messages + more.messages == d.messages;
      } else {
        CutsDoNotMatter(utf8, d.rest, chunks[1..]);
      }
    }
  }

  ghost function Wire(utf8: string -> bool, messages: seq<Message>): Bytes
    requires Utf8(utf8) && forall i :: 0 <= i < |messages| ==> ByteStrings(messages[i])
  {
    if messages == [] then [] else Encoded(utf8, messages[0]) + Wire(utf8, messages[1..])
  }

  lemma {:induction false} DrainFrames(utf8: string -> bool, messages: seq<Message>)
    requires Utf8(utf8) && forall i :: 0 <= i < |messages| ==> Canonical(utf8, messages[i]) && ByteStrings(messages[i])
    ensures Drain(utf8, Wire(utf8, messages)) == Drained(messages, [], true)
    decreases |messages|
  {
    hide Canonical, Encoded, Decoded, GetU32, Utf8, ByteStrings;
    if messages != [] {
      var m, rest := messages[0], Wire(utf8, messages[1..]);
      var frame := Encoded(utf8, m);
      DecodeEncoded(utf8, m);
      var s := frame + rest;
      SameHeader(frame, rest);
      assert s[4..|frame|] == frame[4..] && s[|frame|..] == rest;
      DrainFrames(utf8, messages[1..]);
      assert [m] + messages[1..] == messages;
    }
  }

  /** Any list of canonical messages, encoded, concatenated and cut into reads at any points, is
      handed on as exactly that list, in order, with nothing left over. */
  lemma StreamDelivers(utf8: string -> bool, messages: seq<Message>, chunks: seq<Bytes>)
    requires Utf8(utf8) && forall i :: 0 <= i < |messages| ==> Canonical(utf8, messages[i]) && ByteStrings(messages[i])
    requires chunks != [] && Concat(chunks) == Wire(utf8, messages)
    ensures DrainAll(utf8, [], chunks) == Drained(messages, [], true)
  {
    hide Canonical, Drain, DrainAll, Wire, Concat, Utf8, ByteStrings;
    DrainFrames(utf8, messages);
    assert [] + Concat(chunks) == Concat(chunks);
    CutsDoNotMatter(utf8, [], chunks);
  }
}
