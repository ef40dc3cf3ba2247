/** Requests and prompts as the messages they are: which fields a caller may not supply, how the
    arguments of a requirement travel with a prompt, and what is displayed of it. */
module Prompts {
  import opened Types
  import opened Templates
  import N = Numbers

  type Message = map<string, string>

  const FIELDS: int := 256
  const REQUIREMENTS: int := 16

  function Get(m: Message, key: string): string {
    if key in m then m[key] else ""
  }

  predicate Starts(s: string, prefix: string) {
    |prefix| <= |s| && s[..|prefix|] == prefix
  }

  function Row(i: nat): string {
    "r" + N.Text(i) + "."
  }

  // ----- the arguments of a request -----

  /** A field of some row: `r`, digits and a dot. */
  predicate Numbered(key: string) {
    var dot := Find(key, '.', 0);
    |key| > 1 && key[0] == 'r' && 1 < dot < |key| && forall i :: 1 <= i < dot ==> Digit(key[i])
  }

  /** A display argument, which only the daemon adds. */
  predicate Reserved(key: string) {
    || key == "display_args" || Starts(key, "display_args.")
    || (Numbered(key) &&
        var property := key[Find(key, '.', 0) + 1..];
        property == "display_args" || Starts(property, "display_args.") || Starts(property, "arg"))
  }

  /** `CallerArguments`. */
  method CallerArguments(request: Message) returns (fine: bool)
    ensures fine <==> forall k :: k in request ==> !Reserved(k)
  {
    hide Reserved;
    var todo := request.Keys;
    while todo != {}
      invariant todo <= request.Keys && forall k :: k in request && k !in todo ==> !Reserved(k)
      decreases todo
    {
      var k :| k in todo;
      if Reserved(k) { return false; }
      todo := todo - {k};
    }
    return true;
  }

  function Named(s: Source): string {
    match s
    case Scope => "scope"
    case Purpose => "purpose"
    case Recipient => "recipient"
    case Operation => "operation"
    case Retention => "retention_ms"
  }

  /** The fields of one row of a request that parameters may take their values from. */
  function RowOf(request: Message, i: nat): map<Source, string> {
    map s | s in {Scope, Purpose, Recipient, Operation} && Row(i) + Named(s) in request :: request[Row(i) + Named(s)]
  }

  predicate Admissible(d: Definition, request: Message, i: nat) {
    i < REQUIREMENTS && |request| <= FIELDS && (forall k :: k in request ==> !Reserved(k)) && SchemaFine(d)
  }

  /** `Arguments`: the values of all parameters, or nothing when the request carries fields of the
      daemon, or too many, or a value is missing or out of range. */
  method Arguments(utf8: string -> bool, d: Definition, request: Message, i: nat) returns (r: Option<map<string,
          string>>)
    ensures r.Some? <==> Admissible(d, request, i) && forall n :: n in d.schema ==>
              Argued(utf8, d, RowOf(request, i), n)
    ensures r.Some? ==> Values(d, RowOf(request, i), r.value)
  {
    hide Reserved, SchemaFine, Argued, Values, RowOf;
    if i >= REQUIREMENTS || |request| > FIELDS { return None; }
    var fine := CallerArguments(request);
    if !fine || !SchemaFine(d) { return None; }
    r := Collect(utf8, d, RowOf(request, i));
  }

  // ----- the arguments of a prompt -----

  function Key(i: nat, j: nat, property: string): string {
    Row(i) + "arg" + N.Text(j) + "." + property
  }

  predicate Typed(prompt: Message, i: nat) {
    Row(i) + "template_version" in prompt
  }

  /** How many arguments the row of a prompt says it has. */
  function Count(prompt: Message, i: nat): Option<nat> {
    if !Typed(prompt, i) then Some(0)
    else
      var n := Canonical(Get(prompt, Row(i) + "arg_count"));
      if prompt[Row(i) + "template_version"] == "1" && n.Some? && 0 <= n.value <= PARAMETERS then Some(n.value)
          else None
  }

  /** One argument; `None` for an unknown type or a missing value. */
  function Read(prompt: Message, i: nat, j: nat): Option<Argument> {
    var kind := Get(prompt, Key(i, j, "type"));
    if Key(i, j, "value") in prompt && (kind == "integer" || kind == "string")
    then Some(Argument(Get(prompt, Key(i, j, "name")), kind == "integer", prompt[Key(i, j, "value")])) else None
  }

  function ReadAll(prompt: Message, i: nat, n: nat): Option<seq<Argument>> {
    if n == 0 then Some([])
    else
      var before := ReadAll(prompt, i, n - 1);
      var a := Read(prompt, i, n - 1);
      if before.None? || a.None? then None else Some(before.value + [a.value])
  }

  /** A field that begins like an argument is one, or their number. */
  predicate Stray(prompt: Message, i: nat, n: nat, key: string) {
    var prefix := Row(i) + "arg";
    Starts(key, prefix) && !(key == prefix + "_count" && Typed(prompt, i)) && !Indexed(key[|prefix|..], n)
  }

  /** The rest of such a field: an index below `n`, a dot and a known property. */
  predicate Indexed(rest: string, n: nat) {
    var dot := Find(rest, '.', 0);
    && dot < |rest|
    && var index := Canonical(rest[..dot]);
       index.Some? && 0 <= index.value < n && rest[dot + 1..] in {"name", "type", "value"}
  }

  /** The prompt is of bounded size and has that row. */
  predicate Framed(prompt: Message, i: nat) {
    var count := Canonical(Get(prompt, "count"));
    |prompt| <= FIELDS && count.Some? && 1 <= count.value <= REQUIREMENTS && i < count.value
  }

  /** What is displayed of a row of a prompt. */
  function Displayed(utf8: string -> bool, prompt: Message, i: nat, heading: bool): Option<string> {
    if !Framed(prompt, i) then None
    else
      var n := Count(prompt, i);
      if n.None? || exists k :: k in prompt && Stray(prompt, i, n.value, k) then None
      else
        var arguments := ReadAll(prompt, i, n.value);
        if arguments.None? then None
        else Formatted(utf8, Get(prompt, Row(i) + "title"), Get(prompt, Row(i) + "body"), arguments.value, heading)
  }

  method Strays(prompt: Message, i: nat, n: nat) returns (found: bool)
    ensures found <==> exists k :: k in prompt && Stray(prompt, i, n, k)
  {
    hide Stray;
    var todo := prompt.Keys;
    while todo != {}
      invariant todo <= prompt.Keys && forall k :: k in prompt && k !in todo ==> !Stray(prompt, i, n, k)
      decreases todo
    {
      var k :| k in todo;
      if Stray(prompt, i, n, k) { return true; }
      todo := todo - {k};
    }
    return false;
  }

  /** `FormatPrompt`. */
  method FormatPrompt(utf8: string -> bool, prompt: Message, i: nat, heading: bool) returns (r: Option<string>)
    ensures r == Displayed(utf8, prompt, i, heading)
  {
    hide Stray, Formatted, Read, Count, Framed;
    if !Framed(prompt, i) { return None; }
    var n := Count(prompt, i);
    if n.None? { return None; }
    var arguments: seq<Argument> := [];
    for j := 0 to n.value
      invariant ReadAll(prompt, i, j) == Some(arguments)
    {
      var a := Read(prompt, i, j);
      if a.None? {
        ReadFails(prompt, i, j + 1, n.value);
        return None;
      }
      arguments := arguments + [a.value];
    }
    var stray := Strays(prompt, i, n.value);
    if stray { return None; }
    r := Format(utf8, Get(prompt, Row(i) + "title"), Get(prompt, Row(i) + "body"), arguments, heading);
  }

  lemma {:induction false} ReadFails(prompt: Message, i: nat, m: nat, n: nat)
    requires m <= n && ReadAll(prompt, i, m).None?
    ensures ReadAll(prompt, i, n).None?
  {
    if m < n { ReadFails(prompt, i, m, n - 1); }
  }

  // ----- what the daemon appends is what is displayed -----

  function Put(prompt: Message, i: nat, j: nat, a: Argument): Message {
    prompt[Key(i, j, "name") := a.name][Key(i, j, "type") := if a.whole then "integer"
        else "string"][Key(i, j, "value") := a.value]
  }

  function PutAll(prompt: Message, i: nat, arguments: seq<Argument>, n: nat): Message
    requires n <= |arguments|
  {
    if n == 0 then prompt else Put(PutAll(prompt, i, arguments, n - 1), i, n - 1, arguments[n - 1])
  }

  /** `AppendArguments`: a typed definition's arguments, numbered in the order of their names. */
  function AppendArguments(prompt: Message, i: nat, typed: bool, arguments: seq<Argument>): Message {
    if !typed then prompt
    else PutAll(prompt[Row(i) + "template_version" := "1"][Row(i) + "arg_count" := N.Text(|arguments|)], i, arguments,
                |arguments|)
  }

  /** A prompt to which nothing was appended for this row. */
  predicate Unappended(prompt: Message, i: nat) {
    !Typed(prompt, i) && forall k :: k in prompt ==> !Starts(k, Row(i) + "arg")
  }

  lemma DotAfter(digits: string, rest: string)
    requires Digits(digits)
    ensures Find(digits + "." + rest, '.', 0) == |digits|
  {
    var s := digits + "." + rest;
    forall k | 0 <= k < |digits| ensures s[k] != '.' {
      assert s[k] == digits[k] && Digit(digits[k]);
    }
    FoundAt(s, '.', 0, |digits|);
  }

  /** The fields of different arguments, and different fields of one, have different keys. */
  lemma KeyIsExact(i: nat, j: nat, p: string, k: nat, q: string)
    ensures Key(i, j, p) == Key(i, k, q) <==> j == k && p == q
  {
    hide Find, N.Text;
    if Key(i, j, p) == Key(i, k, q) {
      KeyStarts(i, j, p);
      KeyStarts(i, k, q);
      DotAfter(N.Text(j), p);
      DotAfter(N.Text(k), q);
      Halves(N.Text(j), p);
      Halves(N.Text(k), q);
      N.TextIsInjective(j, k);
    }
  }

  lemma Halves(digits: string, rest: string)
    ensures var s := digits + "." + rest; s[..|digits|] == digits && s[|digits| + 1..] == rest
  {
  }

  /** They begin with their row and `arg`, and a digit follows. */
  lemma KeyStarts(i: nat, j: nat, p: string)
    ensures var key := Key(i, j, p);
            var prefix := Row(i) + "arg";
            Starts(key, prefix) && key[|prefix|..] == N.Text(j) + "." + p && Digit(key[|prefix|])
  {
    var key, prefix := Key(i, j, p), Row(i) + "arg";
    var rest := N.Text(j) + "." + p;
    assert key == prefix + rest;
    assert key[|prefix|..] == rest && rest[0] == N.Text(j)[0];
  }

  lemma CanonicalText(n: nat)
    requires n <= N.INT64_MAX
    ensures Canonical(N.Text(n)) == Some(n)
  {
    N.ParsedText(n);
  }

  /** Not the field of an argument. */
  predicate Foreign(i: nat, key: string) {
    var prefix := Row(i) + "arg";
    !(Starts(key, prefix) && |key| > |prefix| && Digit(key[|prefix|]))
  }

  lemma ForeignIsNone(i: nat, j: nat, p: string, key: string)
    requires Foreign(i, key)
    ensures key != Key(i, j, p)
  {
    hide Key, Row;
    KeyStarts(i, j, p);
  }

  lemma {:induction false} PutAllKeeps(prompt: Message, i: nat, arguments: seq<Argument>, n: nat, key: string)
    requires n <= |arguments| && Foreign(i, key)
    ensures var m := PutAll(prompt, i, arguments, n); (key in m <==> key in prompt) && Get(m, key) == Get(prompt, key)
  {
    hide Key, Foreign;
    if n != 0 {
      PutAllKeeps(prompt, i, arguments, n - 1, key);
      ForeignIsNone(i, n - 1, "name", key);
      ForeignIsNone(i, n - 1, "type", key);
      ForeignIsNone(i, n - 1, "value", key);
    }
  }

  lemma PutReads(prompt: Message, i: nat, j: nat, a: Argument)
    ensures Read(Put(prompt, i, j, a), i, j) == Some(a)
  {
    hide Key;
    KeyIsExact(i, j, "name", j, "type");
    KeyIsExact(i, j, "name", j, "value");
    KeyIsExact(i, j, "type", j, "value");
  }

  lemma PutOther(prompt: Message, i: nat, j: nat, a: Argument, k: nat, p: string)
    requires j != k
    ensures var m := Put(prompt, i, j, a);
            Get(m, Key(i, k, p)) == Get(prompt, Key(i, k, p)) && (Key(i, k, p) in m <==> Key(i, k, p) in prompt)
  {
    hide Key;
    KeyIsExact(i, j, "name", k, p);
    KeyIsExact(i, j, "type", k, p);
    KeyIsExact(i, j, "value", k, p);
  }

  lemma PutElsewhere(prompt: Message, i: nat, j: nat, a: Argument, k: nat)
    requires j != k
    ensures Read(Put(prompt, i, j, a), i, k) == Read(prompt, i, k)
  {
    hide Key, Put;
    PutOther(prompt, i, j, a, k, "name");
    PutOther(prompt, i, j, a, k, "type");
    PutOther(prompt, i, j, a, k, "value");
  }

  lemma {:induction false} PutAllReads(prompt: Message, i: nat, arguments: seq<Argument>, n: nat, j: nat)
    requires j < n <= |arguments|
    ensures Read(PutAll(prompt, i, arguments, n), i, j) == Some(arguments[j])
  {
    hide Put, Read;
    var before := PutAll(prompt, i, arguments, n - 1);
    if j == n - 1 {
      PutReads(before, i, j, arguments[j]);
    } else {
      PutAllReads(prompt, i, arguments, n - 1, j);
      PutElsewhere(before, i, n - 1, arguments[n - 1], j);
    }
  }

  lemma {:induction false} ReadAllPut(m: Message, i: nat, arguments: seq<Argument>, n: nat)
    requires n <= |arguments| && forall j :: 0 <= j < n ==> Read(m, i, j) == Some(arguments[j])
    ensures ReadAll(m, i, n) == Some(arguments[..n])
  {
    hide Read;
    if n != 0 {
      ReadAllPut(m, i, arguments, n - 1);
      assert arguments[..n] == arguments[..n - 1] + [arguments[n - 1]];
    }
  }

  /** The key is that of a field of one of the first `n` arguments. */
  ghost predicate Argues(i: nat, n: nat, key: string) {
    exists j: nat, p :: j < n && p in {"name", "type", "value"} && key == Key(i, j, p)
  }

  lemma {:induction false} PutAllFrom(prompt: Message, i: nat, arguments: seq<Argument>, n: nat, key: string)
    requires n <= |arguments| && key in PutAll(prompt, i, arguments, n)
    ensures key in prompt || Argues(i, n, key)
  {
    hide Key;
    if n != 0 {
      var before := PutAll(prompt, i, arguments, n - 1);
      if key in before {
        PutAllFrom(prompt, i, arguments, n - 1, key);
        if key !in prompt {
          var j: nat, p :| j < n - 1 && p in {"name", "type", "value"} && key == Key(i, j, p);
          assert j < n && p in {"name", "type", "value"} && key == Key(i, j, p);
        }
      } else {
        var p := if key == Key(i, n - 1, "name") then "name" else if key == Key(i, n - 1, "type") then "type"
            else "value";
        assert n - 1 < n && p in {"name", "type", "value"} && key == Key(i, n - 1, p);
      }
    }
  }

  lemma ArguesIsIndexed(i: nat, n: nat, key: string)
    requires Argues(i, n, key) && n <= PARAMETERS
    ensures var prefix := Row(i) + "arg"; Starts(key, prefix) && Indexed(key[|prefix|..], n)
  {
    hide Key, Row, Canonical, Find;
    var j: nat, p :| j < n && p in {"name", "type", "value"} && key == Key(i, j, p);
    KeyStarts(i, j, p);
    DotAfter(N.Text(j), p);
    Halves(N.Text(j), p);
    CanonicalText(j);
  }

  /** The prompt to which the arguments are added. */
  function Headed(prompt: Message, i: nat, n: nat): Message {
    prompt[Row(i) + "template_version" := "1"][Row(i) + "arg_count" := N.Text(n)]
  }

  /** The other fields of a row are not those of its arguments. */
  lemma OtherFields(i: nat)
    ensures var row := Row(i);
            && Foreign(i, "count") && Foreign(i, row + "title") && Foreign(i, row + "body")
            && Foreign(i, row + "template_version") && Foreign(i, row + "arg_count")
            && !Starts(row + "template_version", row + "arg") && Starts(row + "arg_count", row + "arg")
            && row + "template_version" != row + "arg_count"
  {
    hide N.Text;
    var row := Row(i);
    var prefix := row + "arg";
    assert prefix[0] == 'r' && "count"[0] == 'c';
    assert (row + "title")[|row|] == 't' && (row + "body")[|row|] == 'b' && (row + "template_version")[|row|] == 't';
    assert prefix[|row|] == 'a';
    assert (row + "arg_count")[|prefix|] == '_' && (row + "arg_count")[..|prefix|] == prefix;
  }

  lemma HeadedKeeps(prompt: Message, i: nat, n: nat)
    ensures var m := Headed(prompt, i, n);
            var row := Row(i);
            && Get(m, "count") == Get(prompt, "count")
            && Get(m, row + "title") == Get(prompt, row + "title") && Get(m, row + "body") == Get(prompt, row + "body")
            && Get(m, row + "template_version") == "1" && Get(m, row + "arg_count") == N.Text(n) && Typed(m, i)
  {
    hide N.Text;
    OtherFields(i);
    var row := Row(i);
    assert "count"[0] != row[0];
    assert (row + "title")[|row|..] == "title" && (row + "body")[|row|..] == "body";
    assert (row + "template_version")[|row|..] == "template_version" && (row + "arg_count")[|row|..] == "arg_count";
  }

  /** What was appended is what is read, and nothing else begins like it. */
  lemma AppendedIsRead(prompt: Message, i: nat, arguments: seq<Argument>)
    requires Unappended(prompt, i) && |arguments| <= PARAMETERS
    ensures var m := AppendArguments(prompt, i, true, arguments);
            var row := Row(i);
            && Get(m, "count") == Get(prompt, "count")
            && Get(m, row + "title") == Get(prompt, row + "title") && Get(m, row + "body") == Get(prompt, row + "body")
            && Count(m, i) == Some(|arguments|) && ReadAll(m, i, |arguments|) == Some(arguments)
            && forall k :: k in m ==> !Stray(m, i, |arguments|, k)
  {
    hide PutAll, Foreign, Read, Row, Canonical, Stray, Key, Get, Unappended;
    var n := |arguments|;
    var h, row := Headed(prompt, i, n), Row(i);
    var m := PutAll(h, i, arguments, n);
    HeadedKeeps(prompt, i, n);
    OtherFields(i);
    PutAllKeeps(h, i, arguments, n, "count");
    PutAllKeeps(h, i, arguments, n, row + "title");
    PutAllKeeps(h, i, arguments, n, row + "body");
    PutAllKeeps(h, i, arguments, n, row + "template_version");
    PutAllKeeps(h, i, arguments, n, row + "arg_count");
    CanonicalText(n);
    GetIn(m, row + "template_version");
    forall j | 0 <= j < n ensures Read(m, i, j) == Some(arguments[j]) {
      PutAllReads(h, i, arguments, n, j);
    }
    ReadAllPut(m, i, arguments, n);
    assert arguments[..n] == arguments;
    forall k | k in m ensures !Stray(m, i, n, k) {
      PutAllFrom(h, i, arguments, n, k);
      NotStray(prompt, i, n, m, k);
    }
  }

  lemma GetIn(m: Message, key: string)
    ensures key in m ==> m[key] == Get(m, key)
  {
  }

  lemma NotStray(prompt: Message, i: nat, n: nat, m: Message, key: string)
    requires Unappended(prompt, i) && n <= PARAMETERS && Typed(m, i)
    requires key in Headed(prompt, i, n) || Argues(i, n, key)
    ensures !Stray(m, i, n, key)
  {
    hide N.Text, Indexed, Argues;
    OtherFields(i);
    var row := Row(i);
    assert (row + "arg") + "_count" == row + "arg_count";
    if Argues(i, n, key) {
      ArguesIsIndexed(i, n, key);
    } else {
      assert key in prompt || key == row + "template_version" || key == row + "arg_count";
    }
  }

  /** For every accepted definition, requested locale and accepted request: the prompt that carries
      the texts of the selected locale and the appended arguments is displayed as the template
      with each slot replaced once, unless the prompt has too many fields or the text is too long. */
  lemma PromptIsFormatted(utf8: string -> bool, d: Definition, request: Message, requested: string,
                          order: seq<string>, values: map<string, string>, prompt: Message, i: nat, heading: bool)
    requires Accepted(utf8, d) && Locale(requested)
    requires Values(d, RowOf(request, i), values) && forall n :: n in d.schema ==> Argued(utf8, d, RowOf(request, i), n)
    requires Lists(order, d.schema.Keys) && Unappended(prompt, i)
    requires var count := Canonical(Get(prompt, "count")); count.Some? && i < count.value <= REQUIREMENTS
    requires var t := Selected(utf8, d, requested);
             Get(prompt, Row(i) + "title") == t.title.value && Get(prompt, Row(i) + "body") == t.body.value
    ensures var m := AppendArguments(prompt, i, d.typed, Appended(d, order, values));
            var t := Selected(utf8, d, requested);
            var pieces := Pieces(if heading then t.title.value else t.body.value, 0);
            && pieces.Some? && Slots(pieces.value) <= values.Keys
            && var whole := Filled(pieces.value, values);
               Displayed(utf8, m, i, heading) == if |m| <= FIELDS && |whole| <= RENDERED_MAX then Some(whole) else None
  {
    hide Accepted, Locale, Argued, Pieces, Slots, Filled, Formatted, Canonical, Row, Get, RowOf, Displayed, Sourced;
    hide Unappended, AppendArguments, SelectLocale, Registered;
    TextIsFormatted(utf8, d, RowOf(request, i), requested, order, values, heading);
    FewArguments(utf8, d, order);
    var arguments := Appended(d, order, values);
    AppendedIsDisplayed(utf8, prompt, i, d.typed, arguments, heading);
  }

  lemma AppendedIsDisplayed(utf8: string -> bool, prompt: Message, i: nat, typed: bool, arguments: seq<Argument>,
                            heading: bool)
    requires Unappended(prompt, i) && |arguments| <= PARAMETERS && (!typed ==> arguments == [])
    requires var count := Canonical(Get(prompt, "count")); count.Some? && i < count.value <= REQUIREMENTS
    ensures var m := AppendArguments(prompt, i, typed, arguments);
            Displayed(utf8, m, i, heading) ==
              if |m| <= FIELDS
              then Formatted(utf8, Get(prompt, Row(i) + "title"), Get(prompt, Row(i) + "body"), arguments, heading)
                  else None
  {
    hide Formatted, Canonical, Row, Get, Stray, Unappended, AppendArguments, Count, ReadAll;
    if typed { AppendedIsRead(prompt, i, arguments); } else { UntypedIsRead(prompt, i, arguments); }
  }

  /** The texts of the locale selected for a request. */
  function Selected(utf8: string -> bool, d: Definition, requested: string): (t: Texts)
    requires Accepted(utf8, d) && Locale(requested)
    ensures t.title.Some? && t.body.Some?
  {
    LocaleIsFound(utf8, d, requested);
    d.locales[SelectLocale(utf8, d, requested).value]
  }

  lemma FewArguments(utf8: string -> bool, d: Definition, order: seq<string>)
    requires Accepted(utf8, d) && Lists(order, d.schema.Keys)
    ensures |order| <= PARAMETERS && (!d.typed ==> order == [])
  {
    FrontAll(order, d.schema.Keys);
    KeysCount(d);
  }

  lemma UntypedIsRead(prompt: Message, i: nat, arguments: seq<Argument>)
    requires Unappended(prompt, i) && arguments == []
    ensures var m := AppendArguments(prompt, i, false, arguments);
            m == prompt && Count(m, i) == Some(0) && ReadAll(m, i, 0) == Some([]) && forall k :: k in m ==>
              !Stray(m, i, 0, k)
  {
  }
}
