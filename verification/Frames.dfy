/** Messages in frames, and the stream they travel in. UTF-8 validity is a parameter, of which
    only that plain ASCII text is valid is ever used. */
module Frames {
  import opened Types
  import opened Numbers
  import opened Parcels
  import K = Pack

  type Message = map<string, string>

  const FRAME_MAX := 65536
  const MESSAGE_FIELDS := 256
  const RESERVED: set<string> := {"v", "id", "method", "status"}

  predicate Plain(s: string) {
    forall i :: 0 <= i < |s| ==> 0 < s[i] as int < 128
  }

  /** Plain ASCII text is UTF-8. */
  ghost predicate Utf8(utf8: string -> bool) {
    forall s :: Plain(s) ==> utf8(s)
  }

  predicate KeyChar(c: char) {
    'a' <= c <= 'z' || 'A' <= c <= 'Z' || '0' <= c <= '9' || c == '_' || c == '.' || c == '-'
  }

  predicate ValidField(utf8: string -> bool, key: string, value: string) {
    && 1 <= |key| <= KEY_MAX && |value| <= VALUE_MAX && NoNul(value) && utf8(value)
    && forall i :: 0 <= i < |key| ==> KeyChar(key[i])
  }

  /** The strings of a message are strings of bytes. */
  predicate ByteStrings(m: Message) {
    forall k :: k in m ==> Octets(k) && Octets(m[k])
  }

  function Value(m: Message, key: string): string {
    if key in m then m[key] else ""
  }

  function KindOf(action: string): nat {
    if action == "reply" then 2 else if action == "event" then 3 else 1
  }

  function Extra(m: Message): set<string> {
    m.Keys - RESERVED
  }

  /** The entries of a map as fields, in the order of their keys. */
  function FieldsIn(m: Message, keys: set<string>): (f: seq<Field>)
    requires keys <= m.Keys
    ensures |f| == |keys|
    ensures forall i :: 0 <= i < |f| ==> f[i].key in keys && f[i].value == m[f[i].key]
    decreases keys
  {
    if keys == {} then []
    else
      var k := K.Least(keys);
      [Field(k, m[k])] + FieldsIn(m, keys - {k})
  }

  // ----- Encode -----

  predicate Admissible(utf8: string -> bool, m: Message) {
    && m != map[] && |m| <= MESSAGE_FIELDS && Value(m, "v") == "1"
    && (forall k :: k in m ==> ValidField(utf8, k, m[k]))
    && 1 <= |Value(m, "method")| <= METHOD_MAX
  }

  function StatusOf(m: Message, kind: nat): Option<int> {
    if kind == 2 then
      var status := Parsed(Value(m, "status"));
      if status.Some? && -0x8000_0000 <= status.value <= 0 then status else None
    else if "status" in m then None else Some(0)
  }

  function IdOf(m: Message, kind: nat): Option<nat> {
    var id := Parsed(Value(m, "id"));
    if id.Some? && id.value >= 0 && (kind == 3 <==> id.value == 0) then Some(id.value) else None
  }

  function EnvelopeOf(utf8: string -> bool, m: Message): Option<Envelope> {
    if !Admissible(utf8, m) then None
    else
      var action := Value(m, "method");
      var kind := KindOf(action);
      var id, status := IdOf(m, kind), StatusOf(m, kind);
      if id.None? || status.None? then None
      else Some(Envelope(1, kind, id.value, action, status.value, FieldsIn(m, Extra(m))))
  }

  function SizeOf(e: Envelope): nat {
    29 + |e.action| + FieldsSize(e.fields)
  }

  lemma EnvelopeIsValid(utf8: string -> bool, m: Message)
    requires Utf8(utf8) && ByteStrings(m) && EnvelopeOf(utf8, m).Some?
    ensures ValidEnvelope(utf8, EnvelopeOf(utf8, m).value)
  {
    var e := EnvelopeOf(utf8, m).value;
    ExtraCount(m);
    forall i | 0 <= i < |e.fields| ensures ValidEntry(utf8, e.fields[i]) {
      var k := e.fields[i].key;
      assert ValidField(utf8, k, m[k]);
      KeyIsPlain(k);
    }
    assert ValidField(utf8, "method", m["method"]);
  }

  lemma KeyIsPlain(k: string)
    requires forall i :: 0 <= i < |k| ==> KeyChar(k[i])
    ensures Plain(k) && NoNul(k)
  {
  }

  lemma ExtraCount(m: Message)
    ensures |Extra(m)| <= |m|
  {
    SubsetSize(Extra(m), m.Keys);
    assert |m| == |m.Keys|;
  }

  lemma {:induction false} SubsetSize(a: set<string>, b: set<string>)
    requires a <= b
    ensures |a| <= |b|
  {
    if a != {} {
      var x :| x in a;
      SubsetSize(a - {x}, b - {x});
    }
  }

  /** `Encode`; nothing for a message that is refused. */
  ghost function Encoded(utf8: string -> bool, m: Message): Bytes
    requires Utf8(utf8) && ByteStrings(m)
  {
    var e := EnvelopeOf(utf8, m);
    if e.None? || SizeOf(e.value) > FRAME_MAX then []
    else
      EnvelopeIsValid(utf8, m);
      U32(SizeOf(e.value)) + Put(utf8, e.value)
  }

  // ----- Decode -----

  predicate Lawful(e: Envelope) {
    && e.version == 1 && e.action != "" && e.correlation <= INT64_MAX
    && |e.fields| <= MESSAGE_FIELDS - (if e.kind == 2 then 4 else 3)
    && (match e.kind
        case 1 => e.correlation != 0 && e.status == 0 && e.action != "reply" && e.action != "event"
        case 2 => e.correlation != 0 && e.action == "reply" && e.status <= 0
        case 3 => e.correlation == 0 && e.action == "event" && e.status == 0
        case _ => false)
  }

  function Base(e: Envelope): Message {
    var m := map["v" := "1", "id" := SignedText(e.correlation), "method" := e.action];
    if e.kind == 2 then m["status" := SignedText(e.status)] else m
  }

  /** The fields are added one by one; a repeated or malformed one refuses the message. */
  function AddFields(utf8: string -> bool, m: Message, fields: seq<Field>): Option<Message>
    decreases |fields|
  {
    if fields == [] then Some(m)
    else
      var f := fields[0];
      if !ValidField(utf8, f.key, f.value) || f.key == "status" || f.key in m then None
      else AddFields(utf8, m[f.key := f.value], fields[1..])
  }

  function Decoded(utf8: string -> bool, body: Bytes): Option<Message> {
    if |body| < 29 || |body| > FRAME_MAX then None
    else
      var e := Get(utf8, body);
      if e.Err? || !Lawful(e.value) then None else AddFields(utf8, Base(e.value), e.value.fields)
  }

  // ----- a message survives its frame -----

  /** A message that is accepted and whose numbers are written the way they are read. */
  ghost predicate Canonical(utf8: string -> bool, m: Message)
    requires Utf8(utf8)
  {
    && ByteStrings(m) && Encoded(utf8, m) != []
    && var e := EnvelopeOf(utf8, m);
       e.Some? && m["id"] == SignedText(e.value.correlation)
       && (e.value.kind == 2 ==> m["status"] == SignedText(e.value.status))
  }

  /** The keys of fields are distinct and not in `m`; each is a legal one. */
  ghost predicate Addable(utf8: string -> bool, m: Message, fields: seq<Field>) {
    && (forall i :: 0 <= i < |fields| ==>
          ValidField(utf8, fields[i].key, fields[i].value) && fields[i].key != "status" && fields[i].key !in m)
    && (forall i, j :: 0 <= i < j < |fields| ==> fields[i].key != fields[j].key)
  }

  function Joined(m: Message, fields: seq<Field>): Message
    decreases |fields|
  {
    if fields == [] then m else Joined(m[fields[0].key := fields[0].value], fields[1..])
  }

  lemma {:induction false} AddIsJoin(utf8: string -> bool, m: Message, fields: seq<Field>)
    ensures AddFields(utf8, m, fields) == if Addable(utf8, m, fields) then Some(Joined(m, fields)) else None
    decreases |fields|
  {
    if fields != [] {
      var f, rest := fields[0], fields[1..];
      var n := m[f.key := f.value];
      hide ValidField, Addable;
      AddIsJoin(utf8, n, rest);
      AddableIf(utf8, m, fields);
    }
  }

  /** Fields are addable exactly when the first one is, and then the others. */
  lemma AddableIf(utf8: string -> bool, m: Message, fields: seq<Field>)
    requires fields != []
    ensures var f, rest := fields[0], fields[1..];
            Addable(utf8, m, fields) <==>
              ValidField(utf8, f.key, f.value) && f.key != "status" && f.key !in m
                  && Addable(utf8, m[f.key := f.value], rest)
  {
    hide ValidField;
    var f, rest := fields[0], fields[1..];
    if Addable(utf8, m, fields) { AddableRest(utf8, m, fields); }
    if ValidField(utf8, f.key, f.value) && f.key != "status" && f.key !in m
        && Addable(utf8, m[f.key := f.value], rest) {
      forall i | 0 <= i < |fields|
        ensures ValidField(utf8, fields[i].key, fields[i].value) && fields[i].key != "status" && fields[i].key !in m
      {
        if i > 0 { assert fields[i] == rest[i - 1]; }
      }
      forall i, j | 0 <= i < j < |fields| ensures fields[i].key != fields[j].key {
        assert fields[j] == rest[j - 1];
        if i > 0 { assert fields[i] == rest[i - 1]; }
      }
    }
  }

  lemma {:induction false} FieldsDistinct(m: Message, keys: set<string>)
    requires keys <= m.Keys
    ensures forall i, j :: 0 <= i < j < |FieldsIn(m, keys)| ==> FieldsIn(m, keys)[i].key != FieldsIn(m, keys)[j].key
    decreases keys
  {
    if keys != {} {
      var k := K.Least(keys);
      FieldsDistinct(m, keys - {k});
      var rest := FieldsIn(m, keys - {k});
      forall j | 0 <= j < |rest| ensures rest[j].key != k {
      }
    }
  }

  lemma RestrictStep(m: Message, base: Message, keys: set<string>, k: string)
    requires keys <= m.Keys && k in keys
    ensures base[k := m[k]] + K.Restrict(m, keys - {k}) == base + K.Restrict(m, keys)
  {
    var a, b := base[k := m[k]] + K.Restrict(m, keys - {k}), base + K.Restrict(m, keys);
    assert a.Keys == b.Keys;
    forall x | x in a ensures a[x] == b[x] {
    }
  }

  lemma {:induction false} JoinAll(m: Message, base: Message, keys: set<string>)
    requires keys <= m.Keys
    ensures Joined(base, FieldsIn(m, keys)) == base + K.Restrict(m, keys)
    decreases keys
  {
    hide K.First;
    if keys == {} {
      assert K.Restrict(m, {}) == map[];
    } else {
      var k := K.Least(keys);
      K.LeastIn(keys);
      var all := FieldsIn(m, keys);
      assert all[1..] == FieldsIn(m, keys - {k}) && all[0] == Field(k, m[k]);
      JoinAll(m, base[k := m[k]], keys - {k});
      RestrictStep(m, base, keys, k);
    }
  }

  /** The reserved keys of a message of a kind. */
  function Header(kind: nat): set<string> {
    if kind == 2 then {"v", "id", "method", "status"} else {"v", "id", "method"}
  }

  lemma HeaderSize(kind: nat)
    ensures |Header(kind)| == if kind == 2 then 4 else 3
    ensures Header(kind) <= RESERVED
  {
    assert {"v", "id"} == {"v"} + {"id"};
    assert {"v", "id", "method"} == {"v", "id"} + {"method"};
    assert {"v", "id", "method", "status"} == {"v", "id", "method"} + {"status"};
  }

  lemma BaseKeys(e: Envelope)
    ensures Base(e).Keys == Header(e.kind)
    ensures Base(e)["v"] == "1" && Base(e)["id"] == SignedText(e.correlation) && Base(e)["method"] == e.action
    ensures e.kind == 2 ==> Base(e)["status"] == SignedText(e.status)
  {
  }

  lemma HeaderIn(utf8: string -> bool, m: Message)
    requires EnvelopeOf(utf8, m).Some?
    ensures "v" in m && "id" in m && "method" in m && ("status" in m <==> EnvelopeOf(utf8, m).value.kind == 2)
    ensures m["v"] == "1" && m["method"] == EnvelopeOf(utf8, m).value.action
  {
  }

  lemma SplitKeys(m: Message, kind: nat)
    requires "v" in m && "id" in m && "method" in m && ("status" in m <==> kind == 2)
    ensures m.Keys == Extra(m) + Header(kind) && Extra(m) !! Header(kind)
    ensures |Extra(m)| == |m| - if kind == 2 then 4 else 3
  {
    HeaderSize(kind);
    assert m.Keys == Extra(m) + Header(kind);
    assert |Extra(m) + Header(kind)| == |Extra(m)| + |Header(kind)|;
    assert |m| == |m.Keys|;
  }

  lemma CanonicalParts(utf8: string -> bool, m: Message, e: Envelope)
    requires Utf8(utf8) && Canonical(utf8, m) && EnvelopeOf(utf8, m) == Some(e)
    ensures m == Base(e) + K.Restrict(m, Extra(m))
    ensures Extra(m) !! Base(e).Keys
    ensures |Extra(m)| == |m| - if e.kind == 2 then 4 else 3
  {
    hide EnvelopeOf, Extra, Base, Header, Encoded;
    HeaderIn(utf8, m);
    SplitKeys(m, e.kind);
    BaseKeys(e);
    var n := Base(e) + K.Restrict(m, Extra(m));
    forall k | k in m ensures k in n && n[k] == m[k] { CanonicalKey(utf8, m, e, k); }
    assert n.Keys == m.Keys;
  }

  lemma CanonicalKey(utf8: string -> bool, m: Message, e: Envelope, k: string)
    requires Utf8(utf8) && Canonical(utf8, m) && EnvelopeOf(utf8, m) == Some(e) && k in m
    ensures k in Base(e) ==> Base(e)[k] == m[k]
    ensures k in Base(e) || k in Extra(m)
  {
    hide EnvelopeOf, Base, Encoded;
    HeaderIn(utf8, m);
    BaseKeys(e);
  }

  lemma CanonicalExtra(utf8: string -> bool, m: Message, e: Envelope)
    requires Utf8(utf8) && Canonical(utf8, m) && EnvelopeOf(utf8, m) == Some(e)
    ensures Lawful(e)
    ensures Base(e) + K.Restrict(m, Extra(m)) == m
    ensures Addable(utf8, Base(e), e.fields)
  {
    hide Encoded, FieldsIn, Base, ValidField;
    CanonicalParts(utf8, m, e);
    BaseKeys(e);
    FieldsDistinct(m, Extra(m));
    forall i | 0 <= i < |e.fields|
      ensures ValidField(utf8, e.fields[i].key, e.fields[i].value) && e.fields[i].key != "status"
              && e.fields[i].key !in Base(e)
    {
      assert e.fields[i].key in Extra(m);
    }
  }

  /** Decoding an encoded message gives it back. */
  lemma DecodeEncoded(utf8: string -> bool, m: Message)
    requires Utf8(utf8) && Canonical(utf8, m)
    ensures var frame := Encoded(utf8, m);
            |frame| >= 33 && GetU32(frame) == |frame| - 4 <= FRAME_MAX && Decoded(utf8, frame[4..]) == Some(m)
  {
    hide EnvelopeOf, Lawful, Base, ValidEnvelope, Addable, ValidField, Get, Put, U32, GetU32, Extra, Utf8;
    var e := EnvelopeOf(utf8, m).value;
    EnvelopeIsValid(utf8, m);
    GetPut(utf8, e);
    var body := Put(utf8, e);
    var frame := Encoded(utf8, m);
    assert frame == U32(SizeOf(e)) + body && frame[4..] == body;
    GetPutU32(SizeOf(e), body);
    CanonicalExtra(utf8, m, e);
    AddIsJoin(utf8, Base(e), e.fields);
    EnvelopeFields(utf8, m);
    ExtraIn(m);
    JoinAll(m, Base(e), Extra(m));
  }

  lemma ExtraIn(m: Message)
    ensures Extra(m) <= m.Keys
  {
  }

  lemma EnvelopeFields(utf8: string -> bool, m: Message)
    requires EnvelopeOf(utf8, m).Some?
    ensures EnvelopeOf(utf8, m).value.fields == FieldsIn(m, Extra(m))
  {
  }

  // ----- what is accepted can be written again -----

  function FieldSize(k: string, v: string): nat {
    10 + |k| + |v|
  }

  /** The size of the fields does not depend on which one is taken first. */
  lemma {:induction false} TakeField(m: Message, keys: set<string>, k: string)
    requires keys <= m.Keys && k in keys
    ensures FieldsSize(FieldsIn(m, keys)) == FieldSize(k, m[k]) + FieldsSize(FieldsIn(m, keys - {k}))
    decreases keys
  {
    var j := K.Least(keys);
    FirstField(m, keys);
    if j != k {
      var rest := keys - {k};
      TakeField(m, keys - {j}, k);
      FirstField(m, rest);
      K.FirstUnique(rest, j, K.Least(rest));
      assert (keys - {j}) - {k} == rest - {j};
    }
  }

  lemma FirstField(m: Message, keys: set<string>)
    requires keys <= m.Keys && keys != {}
    ensures var j := K.Least(keys);
            FieldsSize(FieldsIn(m, keys)) == FieldSize(j, m[j]) + FieldsSize(FieldsIn(m, keys - {j}))
  {
    var j := K.Least(keys);
    var all := FieldsIn(m, keys);
    assert all[1..] == FieldsIn(m, keys - {j}) && all[0] == Field(j, m[j]);
  }

  function KeysOf(fields: seq<Field>): set<string> {
    set i | 0 <= i < |fields| :: fields[i].key
  }

  lemma AddableRest(utf8: string -> bool, m: Message, fields: seq<Field>)
    requires Addable(utf8, m, fields) && fields != []
    ensures Addable(utf8, m[fields[0].key := fields[0].value], fields[1..]) && fields[0].key !in m
  {
    hide ValidField;
    var rest := fields[1..];
    forall i | 0 <= i < |rest|
      ensures rest[i].key !in m && rest[i].key != fields[0].key && ValidField(utf8, rest[i].key, rest[i].value)
              && rest[i].key != "status"
    {
      assert rest[i] == fields[i + 1];
    }
  }

  lemma {:induction false} JoinedKeys(m: Message, fields: seq<Field>)
    ensures Joined(m, fields).Keys == m.Keys + KeysOf(fields)
    decreases |fields|
  {
    hide KeysOf;
    if fields == [] {
      NoKeys();
    } else {
      var m' := m[fields[0].key := fields[0].value];
      JoinedKeys(m', fields[1..]);
      KeysOfMore(fields);
      assert m'.Keys == m.Keys + {fields[0].key};
    }
  }

  lemma {:induction false} JoinedKeeps(utf8: string -> bool, m: Message, fields: seq<Field>, k: string)
    requires Addable(utf8, m, fields) && k in m
    ensures k in Joined(m, fields) && Joined(m, fields)[k] == m[k]
    decreases |fields|
  {
    hide Addable;
    if fields != [] {
      AddableRest(utf8, m, fields);
      JoinedKeeps(utf8, m[fields[0].key := fields[0].value], fields[1..], k);
    }
  }

  lemma {:induction false} JoinedCount(utf8: string -> bool, m: Message, fields: seq<Field>)
    requires Addable(utf8, m, fields)
    ensures |Joined(m, fields)| == |m| + |fields|
    decreases |fields|
  {
    hide Addable;
    if fields != [] {
      AddableRest(utf8, m, fields);
      JoinedCount(utf8, m[fields[0].key := fields[0].value], fields[1..]);
    }
  }

  lemma JoinedIs(utf8: string -> bool, m: Message, fields: seq<Field>)
    requires Addable(utf8, m, fields)
    ensures Joined(m, fields).Keys == m.Keys + KeysOf(fields) && KeysOf(fields) !! m.Keys
    ensures forall k :: k in m ==> Joined(m, fields)[k] == m[k]
    ensures |Joined(m, fields)| == |m| + |fields|
  {
    hide Joined, ValidField;
    JoinedKeys(m, fields);
    JoinedCount(utf8, m, fields);
    forall k | k in m ensures Joined(m, fields)[k] == m[k] { JoinedKeeps(utf8, m, fields, k); }
  }

  lemma NoKeys()
    ensures KeysOf([]) == {}
  {
  }

  lemma {:induction false} JoinedValues(utf8: string -> bool, m: Message, fields: seq<Field>, i: nat)
    requires Addable(utf8, m, fields) && i < |fields|
    ensures fields[i].key in Joined(m, fields) && Joined(m, fields)[fields[i].key] == fields[i].value
    decreases |fields|
  {
    hide Addable;
    var f, rest := fields[0], fields[1..];
    AddableRest(utf8, m, fields);
    if i == 0 {
      JoinedKeeps(utf8, m[f.key := f.value], rest, f.key);
    } else {
      JoinedValues(utf8, m[f.key := f.value], rest, i - 1);
    }
  }

  lemma KeysOfMore(fields: seq<Field>)
    requires fields != []
    ensures KeysOf(fields) == KeysOf(fields[1..]) + {fields[0].key}
  {
    var rest := fields[1..];
    forall k | k in KeysOf(fields) ensures k in KeysOf(rest) + {fields[0].key} {
      var i :| 0 <= i < |fields| && fields[i].key == k;
      if i > 0 { assert rest[i - 1].key == k; }
    }
    forall k | k in KeysOf(rest) ensures k in KeysOf(fields) {
      var i :| 0 <= i < |rest| && rest[i].key == k;
      assert fields[i + 1].key == k;
    }
  }

  /** In whatever order the fields came, the map lists them at the same size. */
  lemma {:induction false} SameSize(m: Message, fields: seq<Field>)
    requires KeysOf(fields) <= m.Keys
    requires forall i :: 0 <= i < |fields| ==> m[fields[i].key] == fields[i].value
    requires forall i, j :: 0 <= i < j < |fields| ==> fields[i].key != fields[j].key
    ensures FieldsSize(FieldsIn(m, KeysOf(fields))) == FieldsSize(fields)
  {
    if fields == [] {
      assert KeysOf(fields) == {};
    } else {
      var rest := fields[1..];
      KeysOfMore(fields);
      assert fields[0].key !in KeysOf(rest);
      SameSize(m, rest);
      TakeField(m, KeysOf(fields), fields[0].key);
      assert KeysOf(fields) - {fields[0].key} == KeysOf(rest);
    }
  }

  lemma {:induction false} DigitsArePlain(n: nat)
    ensures Plain(Text(n)) && |Text(n)| >= 1
  {
    assert forall i :: 0 <= i < |Text(n)| ==> Digit(Text(n)[i]);
  }

  lemma NumberIsShort(n: nat)
    requires n < U64_END
    ensures |Text(n)| <= 20
  {
    assert Power(20) >= U64_END by {
      assert Power(18) == 100 * Power(16) && Power(16) == 100 * Power(14);
      assert Power(14) == 100 * Power(12) && Power(12) == 100 * Power(10);
      assert Power(10) == 100 * Power(8) && Power(8) == 100 * Power(6);
      assert Power(6) == 100 * Power(4) && Power(4) == 100 * Power(2) && Power(2) == 100;
    }
    TextIsShort(n, 20);
  }

  lemma SignedIsField(utf8: string -> bool, key: string, n: int)
    requires Utf8(utf8) && -0x8000_0000 <= n < U64_END && 1 <= |key| <= KEY_MAX && forall i :: 0 <= i < |key| ==>
               KeyChar(key[i])
    ensures ValidField(utf8, key, SignedText(n)) && Octets(SignedText(n))
  {
    var a := if n < 0 then -n else n;
    DigitsArePlain(a);
    NumberIsShort(a);
    assert Plain(SignedText(n));
  }

  lemma BaseIsValid(utf8: string -> bool, e: Envelope)
    requires Utf8(utf8) && ValidEnvelope(utf8, e) && Lawful(e)
    ensures ByteStrings(Base(e)) && forall k :: k in Base(e) ==> ValidField(utf8, k, Base(e)[k])
  {
    hide ValidField, SignedText;
    BaseKeys(e);
    SignedIsField(utf8, "id", e.correlation);
    SignedIsField(utf8, "status", e.status);
    ConstantFields(utf8, e);
  }

  lemma ConstantFields(utf8: string -> bool, e: Envelope)
    requires Utf8(utf8) && ValidEnvelope(utf8, e)
    ensures ValidField(utf8, "v", "1") && ValidField(utf8, "method", e.action)
  {
    assert Plain("1");
  }

  /** What decoding gives, in terms of the envelope. */
  lemma DecodedIs(utf8: string -> bool, body: Bytes)
    requires Utf8(utf8) && Decoded(utf8, body).Some?
    ensures var e := Get(utf8, body).value;
            && Get(utf8, body).Ok? && ValidEnvelope(utf8, e) && Lawful(e) && Addable(utf8, Base(e), e.fields)
            && Decoded(utf8, body) == Some(Joined(Base(e), e.fields))
            && |body| == SizeOf(e) <= FRAME_MAX
  {
    hide Get, Lawful, ValidEnvelope, Addable, Base, Put;
    var e := Get(utf8, body).value;
    PutGet(utf8, body);
    GetPut(utf8, e);
    AddIsJoin(utf8, Base(e), e.fields);
  }

  lemma DecodedFields(utf8: string -> bool, e: Envelope)
    requires Utf8(utf8) && ValidEnvelope(utf8, e) && Lawful(e) && Addable(utf8, Base(e), e.fields)
    ensures var m := Joined(Base(e), e.fields);
            ByteStrings(m) && forall k :: k in m ==> ValidField(utf8, k, m[k])
  {
    hide ValidField, Lawful, Base, Octets;
    var m := Joined(Base(e), e.fields);
    BaseIsValid(utf8, e);
    JoinedIs(utf8, Base(e), e.fields);
    forall k | k in m ensures Octets(k) && Octets(m[k]) && ValidField(utf8, k, m[k]) {
      if k !in Base(e) {
        var i :| 0 <= i < |e.fields| && e.fields[i].key == k;
        JoinedValues(utf8, Base(e), e.fields, i);
        assert ValidEntry(utf8, e.fields[i]);
      }
    }
  }

  lemma DecodedHeader(utf8: string -> bool, e: Envelope)
    requires Addable(utf8, Base(e), e.fields) && Lawful(e)
    ensures var m := Joined(Base(e), e.fields);
            && "v" in m && m["v"] == "1" && "method" in m && m["method"] == e.action && "id" in m
                && m["id"] == SignedText(e.correlation)
            && ("status" in m <==> e.kind == 2) && (e.kind == 2 ==> m["status"] == SignedText(e.status))
            && Extra(m) == KeysOf(e.fields) && |m| <= MESSAGE_FIELDS
  {
    hide Base;
    var m := Joined(Base(e), e.fields);
    BaseKeys(e);
    HeaderSize(e.kind);
    JoinedIs(utf8, Base(e), e.fields);
    assert |Base(e)| == |Base(e).Keys|;
    assert "status" !in KeysOf(e.fields);
  }

  lemma ReencodedEnvelope(utf8: string -> bool, e: Envelope)
    requires Utf8(utf8) && ValidEnvelope(utf8, e) && Lawful(e) && Addable(utf8, Base(e), e.fields)
    ensures var m := Joined(Base(e), e.fields);
            && EnvelopeOf(utf8, m) == Some(e.(fields := FieldsIn(m, Extra(m))))
            && FieldsSize(FieldsIn(m, Extra(m))) == FieldsSize(e.fields)
  {
    hide Base, Joined, FieldsIn, ValidField, Extra, SignedText, Parsed;
    var m := Joined(Base(e), e.fields);
    DecodedFields(utf8, e);
    DecodedHeader(utf8, e);
    ParsedText(e.correlation);
    ParsedText(e.status);
    JoinedSize(utf8, e);
  }

  lemma JoinedSize(utf8: string -> bool, e: Envelope)
    requires Addable(utf8, Base(e), e.fields) && Lawful(e)
    ensures var m := Joined(Base(e), e.fields);
            Extra(m) <= m.Keys && FieldsSize(FieldsIn(m, Extra(m))) == FieldsSize(e.fields)
  {
    hide Base, Lawful, ValidField;
    var m := Joined(Base(e), e.fields);
    JoinedIs(utf8, Base(e), e.fields);
    DecodedHeader(utf8, e);
    forall i | 0 <= i < |e.fields| ensures m[e.fields[i].key] == e.fields[i].value {
      JoinedValues(utf8, Base(e), e.fields, i);
    }
    SameSize(m, e.fields);
  }

  /** Every body that is accepted is that of a canonical message, which is written again at the
      same size and decodes to the same message. */
  lemma AcceptedReencodes(utf8: string -> bool, body: Bytes)
    requires Utf8(utf8) && Decoded(utf8, body).Some?
    ensures var m := Decoded(utf8, body).value;
            && Canonical(utf8, m)
            && |Encoded(utf8, m)| == |body| + 4
            && Decoded(utf8, Encoded(utf8, m)[4..]) == Some(m)
  {
    hide Get, Lawful, ValidEnvelope, Addable, Base, EnvelopeOf, Decoded, Joined, FieldsIn, Extra;
    DecodedIs(utf8, body);
    var e := Get(utf8, body).value;
    var m := Decoded(utf8, body).value;
    ReencodedEnvelope(utf8, e);
    DecodedFields(utf8, e);
    DecodedHeader(utf8, e);
    EnvelopeIsValid(utf8, m);
    GetPut(utf8, EnvelopeOf(utf8, m).value);
    DecodeEncoded(utf8, m);
  }
}
