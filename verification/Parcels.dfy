/** The layout of a message on the wire: big-endian integers, length-prefixed strings that end in
    NUL, and the envelope record made of them. Writing and reading are inverse both ways. */
module Parcels {
  import opened Types

  newtype byte = x: int | 0 <= x < 256

  type Bytes = seq<byte>

  const U32_END := 0x1_0000_0000
  const U64_END := 0x1_0000_0000_0000_0000

  // ----- integers -----

  function U16(n: nat): (b: Bytes)
    requires n < 0x1_0000
    ensures |b| == 2
  {
    [(n / 256) as byte, (n % 256) as byte]
  }

  function GetU16(b: Bytes): (n: nat)
    requires |b| >= 2
    ensures n < 0x1_0000
  {
    b[0] as nat * 256 + b[1] as nat
  }

  function U32(n: nat): (b: Bytes)
    requires n < U32_END
    ensures |b| == 4
  {
    U16(n / 0x1_0000) + U16(n % 0x1_0000)
  }

  /** Four bytes in network order; also `FrameSize`. */
  function GetU32(b: Bytes): (n: nat)
    requires |b| >= 4
    ensures n < U32_END
  {
    GetU16(b) * 0x1_0000 + GetU16(b[2..])
  }

  lemma GetPutU16(n: nat, rest: Bytes)
    requires n < 0x1_0000
    ensures GetU16(U16(n) + rest) == n
  {
  }

  lemma PutGetU16(b: Bytes)
    requires |b| >= 2
    ensures U16(GetU16(b)) == b[..2]
  {
  }

  lemma GetPutU32(n: nat, rest: Bytes)
    requires n < U32_END
    ensures GetU32(U32(n) + rest) == n
  {
    hide U16, GetU16;
    var h, l := n / 0x1_0000, n % 0x1_0000;
    var b := U32(n) + rest;
    assert b == U16(h) + (U16(l) + rest) && b[2..] == U16(l) + rest;
    GetPutU16(h, U16(l) + rest);
    GetPutU16(l, rest);
  }

  lemma PutGetU32(b: Bytes)
    requires |b| >= 4
    ensures U32(GetU32(b)) == b[..4]
  {
    hide U16, GetU16;
    var h, l := GetU16(b), GetU16(b[2..]);
    SplitU32(h, l);
    PutGetU16(b);
    PutGetU16(b[2..]);
    assert b[..4] == b[..2] + b[2..][..2];
  }

  lemma SplitU32(h: nat, l: nat)
    requires l < 0x1_0000
    ensures (h * 0x1_0000 + l) / 0x1_0000 == h && (h * 0x1_0000 + l) % 0x1_0000 == l
  {
  }

  function U64(n: nat): (b: Bytes)
    requires n < U64_END
    ensures |b| == 8
  {
    U32(n / U32_END) + U32(n % U32_END)
  }

  function GetU64(b: Bytes): (n: nat)
    requires |b| >= 8
    ensures n < U64_END
  {
    GetU32(b) * U32_END + GetU32(b[4..])
  }

  lemma GetPutU64(n: nat, rest: Bytes)
    requires n < U64_END
    ensures GetU64(U64(n) + rest) == n
  {
    var h, l := n / U32_END, n % U32_END;
    var b := U64(n) + rest;
    assert b == U32(h) + (U32(l) + rest) && b[4..] == U32(l) + rest;
    GetPutU32(h, U32(l) + rest);
    GetPutU32(l, rest);
  }

  lemma PutGetU64(b: Bytes)
    requires |b| >= 8
    ensures U64(GetU64(b)) == b[..8]
  {
    var h, l := GetU32(b), GetU32(b[4..]);
    SplitU64(h, l);
    PutGetU32(b);
    PutGetU32(b[4..]);
    assert b[..8] == b[..4] + b[4..][..4];
  }

  lemma SplitU64(h: nat, l: nat)
    requires l < U32_END
    ensures (h * U32_END + l) / U32_END == h && (h * U32_END + l) % U32_END == l
  {
  }

  /** Two's complement. */
  function I32(n: int): (b: Bytes)
    requires -0x8000_0000 <= n < 0x8000_0000
    ensures |b| == 4
  {
    U32(if n < 0 then U32_END + n else n)
  }

  function GetI32(b: Bytes): (n: int)
    requires |b| >= 4
    ensures -0x8000_0000 <= n < 0x8000_0000
  {
    if GetU32(b) < 0x8000_0000 then GetU32(b) else GetU32(b) - U32_END
  }

  // ----- strings -----

  /** The characters of a byte string. */
  predicate Octets(s: string) {
    forall i :: 0 <= i < |s| ==> s[i] as int < 256
  }

  function Raw(s: string): (b: Bytes)
    requires Octets(s)
    ensures |b| == |s|
  {
    seq(|s|, i requires 0 <= i < |s| => s[i] as int as byte)
  }

  function Chars(b: Bytes): (s: string)
    ensures |s| == |b| && Octets(s)
  {
    seq(|b|, i requires 0 <= i < |b| => b[i] as int as char)
  }

  predicate NoNul(s: string) {
    forall i :: 0 <= i < |s| ==> s[i] != '\0'
  }

  /** `ValidString`: bounded, without NUL, and UTF-8. */
  predicate ValidString(utf8: string -> bool, s: string, maximum: nat) {
    |s| <= maximum && NoNul(s) && utf8(s)
  }

  function Str(s: string): (b: Bytes)
    requires Octets(s) && |s| + 1 < U32_END
    ensures |b| == 5 + |s|
  {
    U32(|s| + 1) + Raw(s) + [0]
  }

  /** `Reader::String`. */
  function GetStr(utf8: string -> bool, b: Bytes, maximum: nat): Result<(string, Bytes)> {
    var _ :- Need(|b| >= 4, EINVAL);
    var n := GetU32(b);
    var rest := b[4..];
    var _ :- Need(n != 0 && n - 1 <= maximum && n <= |rest|, EINVAL);
    var s := Chars(rest[..n - 1]);
    var _ :- Need(rest[n - 1] == 0 && NoNul(s) && utf8(s), EINVAL);
    Ok((s, rest[n..]))
  }

  lemma CharsOfRaw(s: string)
    requires Octets(s)
    ensures Chars(Raw(s)) == s
  {
  }

  lemma RawOfChars(b: Bytes)
    ensures Raw(Chars(b)) == b
  {
  }

  lemma GetPutStr(utf8: string -> bool, s: string, maximum: nat, rest: Bytes)
    requires Octets(s) && |s| + 1 < U32_END && ValidString(utf8, s, maximum)
    ensures GetStr(utf8, Str(s) + rest, maximum) == Ok((s, rest))
  {
    var b := Str(s) + rest;
    var tail := Raw(s) + [0] + rest;
    assert b == U32(|s| + 1) + tail;
    GetPutU32(|s| + 1, tail);
    assert b[4..] == tail;
    assert tail[..|s|] == Raw(s) && tail[|s|] == 0 && tail[|s| + 1..] == rest;
    CharsOfRaw(s);
  }

  lemma PutGetStr(utf8: string -> bool, b: Bytes, maximum: nat)
    requires GetStr(utf8, b, maximum).Ok?
    ensures var r := GetStr(utf8, b, maximum).value;
            Octets(r.0) && |r.0| + 1 < U32_END && ValidString(utf8, r.0, maximum) && b == Str(r.0) + r.1
  {
    var n := GetU32(b);
    var rest := b[4..];
    PutGetU32(b);
    RawOfChars(rest[..n - 1]);
    assert rest == rest[..n - 1] + [rest[n - 1]] + rest[n..];
    assert b == b[..4] + rest;
  }

  // ----- the envelope -----

  datatype Field = Field(key: string, value: string)

  datatype Envelope = Envelope(version: nat, kind: nat, correlation: nat, action: string, status: int,
                               fields: seq<Field>)

  const KEY_MAX := 128
  const VALUE_MAX := 8192
  const METHOD_MAX := 128
  const FIELDS_MAX := 256

  predicate ValidEntry(utf8: string -> bool, f: Field) {
    && Octets(f.key) && Octets(f.value)
    && ValidString(utf8, f.key, KEY_MAX) && |f.key| >= 1 && ValidString(utf8, f.value, VALUE_MAX)
  }

  predicate ValidEnvelope(utf8: string -> bool, e: Envelope) {
    && e.version < U32_END && e.kind < U32_END && e.correlation < U64_END
    && Octets(e.action) && ValidString(utf8, e.action, METHOD_MAX)
    && -0x8000_0000 <= e.status < 0x8000_0000
    && |e.fields| <= FIELDS_MAX
    && forall i :: 0 <= i < |e.fields| ==> ValidEntry(utf8, e.fields[i])
  }

  predicate Sized(fields: seq<Field>) {
    forall i :: 0 <= i < |fields| ==>
      Octets(fields[i].key) && Octets(fields[i].value) && |fields[i].key| + 1 < U32_END
          && |fields[i].value| + 1 < U32_END
  }

  function PutFields(fields: seq<Field>): Bytes
    requires Sized(fields)
  {
    if fields == [] then [] else Str(fields[0].key) + Str(fields[0].value) + PutFields(fields[1..])
  }

  function GetFields(utf8: string -> bool, b: Bytes, n: nat): Result<(seq<Field>, Bytes)>
    decreases n
  {
    if n == 0 then Ok(([], b))
    else
      var k :- GetStr(utf8, b, KEY_MAX);
      var v :- GetStr(utf8, k.1, VALUE_MAX);
      var _ :- Need(|k.0| >= 1, EINVAL);
      var more :- GetFields(utf8, v.1, n - 1);
      Ok(([Field(k.0, v.0)] + more.0, more.1))
  }

  /** Bytes of the fields. */
  function FieldsSize(fields: seq<Field>): nat {
    if fields == [] then 0 else 10 + |fields[0].key| + |fields[0].value| + FieldsSize(fields[1..])
  }

  lemma {:induction false} GetPutFields(utf8: string -> bool, fields: seq<Field>, rest: Bytes)
    requires Sized(fields) && forall i :: 0 <= i < |fields| ==> ValidEntry(utf8, fields[i])
    ensures GetFields(utf8, PutFields(fields) + rest, |fields|) == Ok((fields, rest))
    ensures |PutFields(fields)| == FieldsSize(fields) >= 11 * |fields|
  {
    hide Str, GetStr, ValidString;
    if fields != [] {
      var f, tail := fields[0], PutFields(fields[1..]);
      assert ValidEntry(utf8, f);
      GetPutFields(utf8, fields[1..], rest);
      GetPutStr(utf8, f.key, KEY_MAX, Str(f.value) + (tail + rest));
      GetPutStr(utf8, f.value, VALUE_MAX, tail + rest);
      assert PutFields(fields) + rest == Str(f.key) + (Str(f.value) + (tail + rest));
      assert fields == [f] + fields[1..];
      assert |PutFields(fields)| == |Str(f.key)| + |Str(f.value)| + |tail|;
    } else {
      assert PutFields(fields) + rest == rest;
    }
  }

  lemma {:induction false} PutGetFields(utf8: string -> bool, b: Bytes, n: nat)
    requires GetFields(utf8, b, n).Ok?
    ensures var r := GetFields(utf8, b, n).value;
            && |r.0| == n && Sized(r.0) && b == PutFields(r.0) + r.1
            && forall i :: 0 <= i < n ==> ValidEntry(utf8, r.0[i])
    decreases n
  {
    hide Str, GetStr, ValidString;
    if n != 0 {
      var k := GetStr(utf8, b, KEY_MAX).value;
      var v := GetStr(utf8, k.1, VALUE_MAX).value;
      PutGetStr(utf8, b, KEY_MAX);
      PutGetStr(utf8, k.1, VALUE_MAX);
      PutGetFields(utf8, v.1, n - 1);
      var more := GetFields(utf8, v.1, n - 1).value;
      var all := [Field(k.0, v.0)] + more.0;
      assert ValidEntry(utf8, all[0]);
      assert all[1..] == more.0;
      assert b == Str(k.0) + (Str(v.0) + (PutFields(more.0) + more.1));
      assert PutFields(all) + more.1 == Str(k.0) + (Str(v.0) + (PutFields(more.0) + more.1));
    }
  }

  function Head(e: Envelope): Bytes
    requires e.version < U32_END && e.kind < U32_END && e.correlation < U64_END
  {
    U32(e.version) + U32(e.kind) + U64(e.correlation)
  }

  /** `Envelope::WriteToParcel`. */
  function Put(utf8: string -> bool, e: Envelope): Bytes
    requires ValidEnvelope(utf8, e)
  {
    ShortEntries(utf8, e);
    Head(e) + Str(e.action) + I32(e.status) + U32(|e.fields|) + PutFields(e.fields)
  }

  /** `Envelope::ReadFromParcel`, and the check that nothing is left over. */
  function Get(utf8: string -> bool, b: Bytes): Result<Envelope> {
    var _ :- Need(|b| >= 16, EINVAL);
    var action :- GetStr(utf8, b[16..], METHOD_MAX);
    var _ :- Need(|action.1| >= 8, EINVAL);
    var count := GetU32(action.1[4..]);
    var rest := action.1[8..];
    var _ :- Need(count <= FIELDS_MAX && count <= |rest| / 11, EINVAL);
    var fields :- GetFields(utf8, rest, count);
    var _ :- Need(fields.1 == [], EINVAL);
    Ok(Envelope(GetU32(b), GetU32(b[4..]), GetU64(b[8..]), action.0, GetI32(action.1), fields.0))
  }

  lemma HeadRound(e: Envelope, rest: Bytes)
    requires e.version < U32_END && e.kind < U32_END && e.correlation < U64_END
    ensures var b := Head(e) + rest;
            GetU32(b) == e.version && GetU32(b[4..]) == e.kind && GetU64(b[8..]) == e.correlation && b[16..] == rest
  {
    var b := Head(e) + rest;
    var v, k, c := U32(e.version), U32(e.kind), U64(e.correlation);
    assert b == v + (k + (c + rest));
    assert b[4..] == k + (c + rest);
    assert b[8..] == c + rest;
    GetPutU32(e.version, k + (c + rest));
    GetPutU32(e.kind, c + rest);
    GetPutU64(e.correlation, rest);
  }

  lemma StatusRound(status: int, rest: Bytes)
    requires -0x8000_0000 <= status < 0x8000_0000
    ensures GetI32(I32(status) + rest) == status
  {
    GetPutU32(if status < 0 then U32_END + status else status, rest);
  }

  /** Reading what was written gives the envelope back. */
  lemma GetPut(utf8: string -> bool, e: Envelope)
    requires ValidEnvelope(utf8, e)
    ensures Get(utf8, Put(utf8, e)) == Ok(e)
    ensures |Put(utf8, e)| == 29 + |e.action| + FieldsSize(e.fields)
  {
    hide U32, U64, I32, GetU32, GetU64, GetI32, Str, GetStr, Head, ValidString, ValidEntry;
    ShortEntries(utf8, e);
    var fields := PutFields(e.fields);
    var tail := I32(e.status) + (U32(|e.fields|) + fields);
    var b := Put(utf8, e);
    assert b == Head(e) + (Str(e.action) + tail);
    HeadRound(e, Str(e.action) + tail);
    HeadSize(e);
    GetPutStr(utf8, e.action, METHOD_MAX, tail);
    StatusRound(e.status, U32(|e.fields|) + fields);
    assert tail[4..] == U32(|e.fields|) + fields && tail[8..] == fields;
    GetPutU32(|e.fields|, fields);
    GetPutFields(utf8, e.fields, []);
    assert fields + [] == fields;
  }

  lemma HeadSize(e: Envelope)
    requires e.version < U32_END && e.kind < U32_END && e.correlation < U64_END
    ensures |Head(e)| == 16
  {
  }

  lemma ShortEntries(utf8: string -> bool, e: Envelope)
    requires ValidEnvelope(utf8, e)
    ensures Sized(e.fields)
    ensures |e.action| <= METHOD_MAX
  {
    forall i | 0 <= i < |e.fields|
      ensures Octets(e.fields[i].key) && Octets(e.fields[i].value) && |e.fields[i].key| + 1 < U32_END
              && |e.fields[i].value| + 1 < U32_END
    {
      assert ValidEntry(utf8, e.fields[i]);
    }
  }

  lemma PutGetI32(b: Bytes)
    requires |b| >= 4
    ensures I32(GetI32(b)) == b[..4]
  {
    hide U32, GetU32;
    PutGetU32(b);
  }

  lemma PutGetHead(b: Bytes, e: Envelope)
    requires |b| >= 16 && e.version == GetU32(b) && e.kind == GetU32(b[4..]) && e.correlation == GetU64(b[8..])
    ensures Head(e) == b[..16]
  {
    hide U32, GetU32, U64, GetU64;
    PutGetU32(b);
    PutGetU32(b[4..]);
    PutGetU64(b[8..]);
    assert b[..16] == b[..4] + b[4..][..4] + b[8..][..8];
  }

  /** Every body that is read is exactly what its envelope is written as. */
  lemma PutGet(utf8: string -> bool, b: Bytes)
    requires Get(utf8, b).Ok?
    ensures ValidEnvelope(utf8, Get(utf8, b).value)
    ensures Put(utf8, Get(utf8, b).value) == b
  {
    hide U32, GetU32, U64, GetU64, I32, GetI32, GetStr, Str, Head, ValidString, ValidEntry;
    var e := Get(utf8, b).value;
    var action := GetStr(utf8, b[16..], METHOD_MAX).value;
    var tail := action.1;
    var rest := tail[8..];
    PutGetHead(b, e);
    PutGetStr(utf8, b[16..], METHOD_MAX);
    PutGetI32(tail);
    PutGetU32(tail[4..]);
    PutGetFields(utf8, rest, GetU32(tail[4..]));
    assert PutFields(e.fields) == rest;
    assert tail == tail[..4] + tail[4..][..4] + rest;
    assert b == b[..16] + b[16..];
    assert b == Head(e) + (Str(e.action) + (I32(e.status) + U32(|e.fields|) + rest));
  }
}
