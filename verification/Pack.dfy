/** Stored metadata: length-prefixed packing of string maps, and the key of a grant. */
module Pack {
  import opened Types
  import opened Conditions
  import opened Numbers

  const PART_LIMIT := 4 * 1024 * 1024

  // ----- the order of a map -----

  /** The order of `std::string`. */
  predicate Before(a: string, b: string) {
    if b == "" then false
    else if a == "" then true
    else a[0] < b[0] || (a[0] == b[0] && Before(a[1..], b[1..]))
  }

  lemma {:induction false} BeforeTotal(a: string, b: string)
    ensures a == b || Before(a, b) || Before(b, a)
  {
    if a != "" && b != "" && a[0] == b[0] {
      BeforeTotal(a[1..], b[1..]);
      if a[1..] == b[1..] { assert a == [a[0]] + a[1..] && b == [b[0]] + b[1..]; }
    }
  }

  lemma {:induction false} BeforeStrict(a: string, b: string)
    requires Before(a, b)
    ensures a != b && !Before(b, a)
  {
    if a != "" && a[0] == b[0] { BeforeStrict(a[1..], b[1..]); }
  }

  lemma {:induction false} BeforeTransitive(a: string, b: string, c: string)
    requires Before(a, b) && Before(b, c)
    ensures Before(a, c)
  {
    if a != "" && a[0] == b[0] == c[0] { BeforeTransitive(a[1..], b[1..], c[1..]); }
  }

  predicate First(keys: set<string>, k: string) {
    k in keys && forall j :: j in keys && j != k ==> Before(k, j)
  }

  lemma {:induction false} FirstExists(keys: set<string>) returns (k: string)
    requires keys != {}
    ensures First(keys, k)
    decreases keys
  {
    var x :| x in keys;
    var rest := keys - {x};
    k := x;
    if rest != {} {
      var y := FirstExists(rest);
      BeforeTotal(x, y);
      if Before(x, y) {
        forall j | j in keys && j != x ensures Before(x, j) {
          if j != y { BeforeTransitive(x, y, j); }
        }
      } else {
        k := y;
      }
    } else {
      forall j | j in keys ensures j == x { assert j !in rest; }
    }
  }

  lemma FirstUnique(keys: set<string>, a: string, b: string)
    requires First(keys, a) && First(keys, b)
    ensures a == b
  {
    if a != b { BeforeStrict(a, b); }
  }

  lemma OneFirst(keys: set<string>)
    requires keys != {}
    ensures exists k :: First(keys, k)
    ensures forall a, b :: First(keys, a) && First(keys, b) ==> a == b
  {
    var k := FirstExists(keys);
    forall a, b | First(keys, a) && First(keys, b) ensures a == b { FirstUnique(keys, a, b); }
  }

  function Least(keys: set<string>): (k: string)
    requires keys != {}
    ensures First(keys, k)
  {
    OneFirst(keys);
    var k :| First(keys, k);
    k
  }

  // ----- Pack -----

  /** One part: its length in decimal, a colon, and its characters. */
  function Part(s: string): string {
    Text(|s|) + ":" + s
  }

  function PackKeys(m: map<string, string>, keys: set<string>): string
    requires keys <= m.Keys
    decreases keys
  {
    if keys == {} then ""
    else
      var k := Least(keys);
      Part(k) + Part(m[k]) + PackKeys(m, keys - {k})
  }

  function Packed(m: map<string, string>): string {
    PackKeys(m, m.Keys)
  }

  /** `Pack`: the entries in the order of their keys. */
  method Pack(m: map<string, string>) returns (result: string)
    ensures result == Packed(m)
  {
    result := "";
    var left := m.Keys;
    while left != {}
      invariant left <= m.Keys
      invariant Packed(m) == result + PackKeys(m, left)
      decreases left
    {
      var k := Least(left);
      ghost var rest := PackKeys(m, left - {k});
      assert result + (Part(k) + Part(m[k]) + rest) == (result + Part(k) + Part(m[k])) + rest;
      result := result + Part(k) + Part(m[k]);
      left := left - {k};
    }
    assert result + "" == result;
  }

  // ----- Unpack -----

  function Colon(s: string): Option<nat> {
    if s == "" then None
    else if s[0] == ':' then Some(0)
    else var i := Colon(s[1..]); if i.None? then None else Some(i.value + 1)
  }

  /** The next part of stored metadata, and what follows it. */
  function Next(s: string): (r: Result<(string, string)>)
    ensures r.Ok? ==> |r.value.1| < |s|
  {
    var end := Colon(s);
    var _ :- Need(end.Some? && end.value <= 10 && end.value < |s|, STORAGE);
    var size :- Integer(s[..end.value], 0, PART_LIMIT);
    var rest := s[end.value + 1..];
    var _ :- Need(0 <= size <= |rest|, STORAGE);
    Ok((rest[..size], rest[size..]))
  }

  function UnpackInto(s: string, m: map<string, string>): Result<map<string, string>>
    decreases |s|
  {
    if s == "" then Ok(m)
    else
      var k :- Next(s);
      var v :- Next(k.1);
      var _ :- Need(k.0 !in m, STORAGE);
      UnpackInto(v.1, m[k.0 := v.0])
  }

  function Unpacked(s: string): Result<map<string, string>> {
    UnpackInto(s, map[])
  }

  /** `Unpack`: key and value by turns, until the text ends. */
  method Unpack(s: string) returns (r: Result<map<string, string>>)
    ensures r == Unpacked(s)
  {
    hide Next;
    var rest := s;
    var m: map<string, string> := map[];
    while rest != ""
      invariant Unpacked(s) == UnpackInto(rest, m)
      decreases |rest|
    {
      var k := Next(rest);
      if k.Err? { return Err(k.status); }
      var v := Next(k.value.1);
      if v.Err? { return Err(v.status); }
      if k.value.0 in m { return Err(STORAGE); }
      m := m[k.value.0 := v.value.0];
      rest := v.value.1;
    }
    return Ok(m);
  }

  // ----- the round trip -----

  lemma {:induction false} ColonAfter(d: string, rest: string)
    requires forall i :: 0 <= i < |d| ==> d[i] != ':'
    ensures Colon(d + ":" + rest) == Some(|d|)
  {
    var s := d + ":" + rest;
    if d != "" {
      ColonAfter(d[1..], rest);
      assert s[1..] == d[1..] + ":" + rest;
    }
  }

  /** A part is read back, whatever follows it, as long as it is within the limit. */
  lemma NextPart(part: string, rest: string)
    requires |part| <= PART_LIMIT
    ensures Next(Part(part) + rest) == Ok((part, rest))
  {
    var d := Text(|part|);
    var s := Part(part) + rest;
    assert s == d + ":" + (part + rest);
    ColonAfter(d, part + rest);
    PowerOfSeven();
    TextIsShort(|part|, 7);
    TextIsDecimal(|part|);
    assert s[..|d|] == d;
    var tail := s[|d| + 1..];
    assert tail == part + rest;
    assert tail[..|part|] == part && tail[|part|..] == rest;
  }

  lemma PowerOfSeven()
    ensures Power(7) == 10000000
  {
    assert Power(6) == 10 * Power(5);
    assert Power(4) == 10 * Power(3);
    assert Power(2) == 10 * Power(1);
  }

  ghost predicate Bounded(m: map<string, string>) {
    forall k :: k in m ==> |k| <= PART_LIMIT && |m[k]| <= PART_LIMIT
  }

  function Restrict(m: map<string, string>, keys: set<string>): map<string, string> {
    map k | k in m && k in keys :: m[k]
  }

  lemma {:induction false} UnpackKeys(m: map<string, string>, keys: set<string>, done: map<string, string>)
    requires Bounded(m) && keys <= m.Keys && done == Restrict(m, m.Keys - keys)
    ensures UnpackInto(PackKeys(m, keys), done) == Ok(m)
    decreases keys
  {
    hide Next;
    if keys == {} {
      assert done == m;
    } else {
      var k := Least(keys);
      var rest := PackKeys(m, keys - {k});
      var s := PackKeys(m, keys);
      assert s == Part(k) + (Part(m[k]) + rest);
      NextPart(k, Part(m[k]) + rest);
      NextPart(m[k], rest);
      assert k !in done;
      UnpackKeys(m, keys - {k}, done[k := m[k]]);
    }
  }

  /** Unpacking what was packed gives the map back, for every map within the limit. */
  lemma UnpackPacked(m: map<string, string>)
    requires Bounded(m)
    ensures Unpacked(Packed(m)) == Ok(m)
  {
    UnpackKeys(m, m.Keys, map[]);
  }

  // ----- packing tells maps apart, of whatever size -----

  lemma {:induction false} SamePrefix(a: string, b: string, x: string, y: string)
    requires forall i :: 0 <= i < |a| ==> a[i] != ':'
    requires forall i :: 0 <= i < |b| ==> b[i] != ':'
    requires a + ":" + x == b + ":" + y
    ensures a == b && x == y
  {
    ColonAfter(a, x);
    ColonAfter(b, y);
    var s := a + ":" + x;
    assert a == s[..|a|] && x == s[|a| + 1..];
    assert b == s[..|b|] && y == s[|b| + 1..];
  }

  lemma PartIsPrefixCode(a: string, b: string, x: string, y: string)
    requires Part(a) + x == Part(b) + y
    ensures a == b && x == y
  {
    assert Part(a) + x == Text(|a|) + ":" + (a + x);
    assert Part(b) + y == Text(|b|) + ":" + (b + y);
    SamePrefix(Text(|a|), Text(|b|), a + x, b + y);
    TextIsInjective(|a|, |b|);
    assert a == (a + x)[..|a|] && b == (b + y)[..|a|];
    assert x == (a + x)[|a|..] && y == (b + y)[|a|..];
  }

  lemma PackFirst(m: map<string, string>, keys: set<string>)
    requires keys <= m.Keys && keys != {}
    ensures var k := Least(keys);
            PackKeys(m, keys) == Part(k) + (Part(m[k]) + PackKeys(m, keys - {k})) && PackKeys(m, keys) != ""
  {
    var k := Least(keys);
    var rest := PackKeys(m, keys - {k});
    assert Part(k) + Part(m[k]) + rest == Part(k) + (Part(m[k]) + rest);
    assert Part(k) != "";
  }

  lemma {:induction false} PackKeysInjective(m: map<string, string>, n: map<string, string>, a: set<string>,
                                             b: set<string>)
    requires a <= m.Keys && b <= n.Keys && PackKeys(m, a) == PackKeys(n, b)
    ensures a == b && forall k :: k in a ==> m[k] == n[k]
    decreases a
  {
    hide First, Part;
    if a != {} { PackFirst(m, a); }
    if b != {} { PackFirst(n, b); }
    if a != {} && b != {} {
      var j, k := Least(a), Least(b);
      LeastIn(a);
      LeastIn(b);
      PartIsPrefixCode(j, k, Part(m[j]) + PackKeys(m, a - {j}), Part(n[k]) + PackKeys(n, b - {k}));
      PartIsPrefixCode(m[j], n[k], PackKeys(m, a - {j}), PackKeys(n, b - {k}));
      PackKeysInjective(m, n, a - {j}, b - {k});
      assert a == (a - {j}) + {j} && b == (b - {k}) + {k};
    }
  }

  lemma LeastIn(keys: set<string>)
    requires keys != {}
    ensures Least(keys) in keys
  {
  }

  /** Different maps have different packings. */
  lemma PackedIsInjective(m: map<string, string>, n: map<string, string>)
    requires Packed(m) == Packed(n)
    ensures m == n
  {
    PackKeysInjective(m, n, m.Keys, n.Keys);
  }

  // ----- the key of a grant -----

  /** The fields that are packed into a grant's key. */
  function KeyFields(k: GrantKey): map<string, string> {
    map["subject" := k.subject, "profile" := k.profile, "definition" := k.definition, "version" := k.version,
        "scope" := k.scope, "operation" := k.operation, "purpose" := k.purpose,
        "recipient" := k.recipient, "holder" := k.holder]
  }

  lemma FieldsAreExact(j: GrantKey, k: GrantKey)
    requires KeyFields(j) == KeyFields(k)
    ensures j == k
  {
    var m, n := KeyFields(j), KeyFields(k);
    assert m["subject"] == n["subject"] && m["profile"] == n["profile"] && m["definition"] == n["definition"];
    assert m["version"] == n["version"] && m["scope"] == n["scope"] && m["operation"] == n["operation"];
    assert m["purpose"] == n["purpose"] && m["recipient"] == n["recipient"] && m["holder"] == n["holder"];
  }

  /** Two requirements, of whatever requests, share the stored key of their grants exactly when
      subject, profile, definition, version, scope, operation, purpose, recipient and holder agree. */
  lemma GrantKeyIsExact(p: Payload, i: nat, version: string, q: Payload, j: nat, other: string)
    requires i < |p.requirements| && j < |q.requirements|
    ensures Packed(KeyFields(KeyOf(p, i, version))) == Packed(KeyFields(KeyOf(q, j, other)))
            <==> && p.subject == q.subject && p.profile == q.profile && version == other
                 && p.requirements[i].(policyVersion := "") == q.requirements[j].(policyVersion := "")
  {
    var a, b := KeyOf(p, i, version), KeyOf(q, j, other);
    if Packed(KeyFields(a)) == Packed(KeyFields(b)) {
      PackedIsInjective(KeyFields(a), KeyFields(b));
      FieldsAreExact(a, b);
    }
  }
}
