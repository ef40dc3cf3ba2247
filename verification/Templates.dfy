/** Localized prompt texts: templates whose slots are filled in one pass, and the locale that is
    always found for them. */
module Templates {
  import opened Types
  import N = Numbers

  const PARAMETERS: int := 8
  const TEMPLATE_MAX: int := 4096
  const STRING_MAX: int := 512
  const RENDERED_MAX: int := 8192

  // ----- templates -----

  /** A template is a sequence of characters and of slots named between braces. */
  datatype Piece = Literal(c: char) | Slot(name: string)

  predicate NameChar(c: char) {
    'a' <= c <= 'z' || 'A' <= c <= 'Z' || '0' <= c <= '9' || c == '_'
  }

  predicate Name(s: string) {
    1 <= |s| <= 32 && !Digit(s[0]) && forall i :: 0 <= i < |s| ==> NameChar(s[i])
  }

  /** The place of a character, counted from `from`, or the length of the text. */
  function Find(text: string, c: char, from: nat): (r: nat)
    requires from <= |text|
    ensures from <= r <= |text| && (r < |text| ==> text[r] == c)
    ensures forall i :: from <= i < r ==> text[i] != c
    decreases |text| - from
  {
    if from == |text| || text[from] == c then from else Find(text, c, from + 1)
  }

  /** The pieces of a template from a position on; `None` for braces that do not match or do not
      enclose a name. */
  function Pieces(text: string, from: nat): Option<seq<Piece>>
    requires from <= |text|
    decreases |text| - from
  {
    if from == |text| then Some([])
    else if text[from] == '}' then None
    else if text[from] != '{' then
      var rest := Pieces(text, from + 1);
      if rest.None? then None else Some([Literal(text[from])] + rest.value)
    else
      var end := Find(text, '}', from + 1);
      if end == |text| || !Name(text[from + 1..end]) then None
      else
        var rest := Pieces(text, end + 1);
        if rest.None? then None else Some([Slot(text[from + 1..end])] + rest.value)
  }

  function Shown(p: Piece): (r: string)
    ensures r != ""
  {
    if p.Slot? then "{" + p.name + "}" else [p.c]
  }

  /** A template written out from its pieces. */
  function Show(pieces: seq<Piece>): string {
    if pieces == [] then "" else Shown(pieces[0]) + Show(pieces[1..])
  }

  predicate WellFormed(p: Piece) {
    if p.Slot? then Name(p.name) else p.c != '{' && p.c != '}'
  }

  /** Reading a template loses nothing of it. */
  lemma {:induction false} PiecesShow(text: string, from: nat)
    requires from <= |text| && Pieces(text, from).Some?
    ensures var pieces := Pieces(text, from).value;
            Show(pieces) == text[from..] && forall i :: 0 <= i < |pieces| ==> WellFormed(pieces[i])
    decreases |text| - from
  {
    if from == |text| {
      PiecesEnd(text);
    } else {
      hide Pieces, Shown, WellFormed;
      var pieces := Pieces(text, from).value;
      PiecesFirst(text, from);
      var next := from + |Shown(pieces[0])|;
      PiecesShow(text, next);
      assert pieces[1..] == Pieces(text, next).value;
      assert text[from..] == text[from..next] + text[next..];
      forall i | 0 <= i < |pieces| ensures WellFormed(pieces[i]) {
        assert i > 0 ==> pieces[i] == pieces[1..][i - 1];
      }
    }
  }

  lemma PiecesFirst(text: string, from: nat)
    requires from < |text| && Pieces(text, from).Some?
    ensures var pieces := Pieces(text, from).value;
            && pieces != [] && WellFormed(pieces[0])
            && var next := from + |Shown(pieces[0])|;
               && next <= |text| && text[from..next] == Shown(pieces[0])
               && Pieces(text, next) == Some(pieces[1..])
  {
    hide Name;
    if text[from] == '{' {
      var end := Find(text, '}', from + 1);
      assert text[from..end + 1] == "{" + text[from + 1..end] + "}";
    }
  }

  /** And every sequence of well-formed pieces is read back from its text. */
  lemma {:induction false} ShowPieces(before: string, pieces: seq<Piece>)
    requires forall i :: 0 <= i < |pieces| ==> WellFormed(pieces[i])
    ensures Pieces(before + Show(pieces), |before|) == Some(pieces)
    decreases |pieces|
  {
    hide Name, Pieces;
    var text := before + Show(pieces);
    if pieces == [] {
      assert text == before;
      PiecesEnd(text);
    } else {
      var p, rest := pieces[0], pieces[1..];
      var shown := Shown(p);
      assert WellFormed(p);
      ShowPieces(before + shown, rest);
      JoinAt(before, shown, Show(rest));
      PieceRead(text, |before|, p, shown);
      assert [p] + rest == pieces;
    }
  }

  lemma PiecesEnd(text: string)
    ensures Pieces(text, |text|) == Some([])
  {
  }

  lemma JoinAt(a: string, b: string, c: string)
    ensures var text := a + (b + c); text == (a + b) + c && text[|a|..|a| + |b|] == b
  {
    assert a + (b + c) == (a + b) + c;
    assert ((a + b) + c)[|a|..|a| + |b|] == b;
  }

  lemma PieceRead(text: string, from: nat, p: Piece, shown: string)
    requires WellFormed(p) && shown == Shown(p)
    requires from + |shown| <= |text| && text[from..from + |shown|] == shown
    requires Pieces(text, from + |shown|).Some?
    ensures Pieces(text, from) == Some([p] + Pieces(text, from + |shown|).value)
  {
    hide Name;
    assert text[from] == shown[0];
    if p.Slot? {
      var end := from + 1 + |p.name|;
      forall i | 0 <= i < |p.name| ensures text[from + 1 + i] == p.name[i] {
        assert text[from + 1 + i] == shown[1 + i];
      }
      assert text[end] == shown[1 + |p.name|] == '}';
      assert text[from + 1..end] == p.name;
      NameHasNoBrace(p.name);
      assert forall i :: from + 1 <= i < end ==> text[i] == p.name[i - from - 1];
      FoundAt(text, '}', from + 1, end);
    }
  }

  lemma NameHasNoBrace(name: string)
    requires Name(name)
    ensures forall i :: 0 <= i < |name| ==> name[i] != '}'
  {
  }

  lemma {:induction false} FoundAt(text: string, c: char, from: nat, at: nat)
    requires from <= at < |text| && text[at] == c && forall i :: from <= i < at ==> text[i] != c
    ensures Find(text, c, from) == at
    decreases |text| - from
  {
    if from < at { FoundAt(text, c, from + 1, at); }
  }

  function Slots(pieces: seq<Piece>): set<string> {
    if pieces == [] then {}
    else if pieces[0].Slot? then {pieces[0].name} + Slots(pieces[1..])
    else Slots(pieces[1..])
  }

  /** `Text`: bounded, without NUL, and UTF-8. */
  predicate Displayable(utf8: string -> bool, s: string, maximum: int) {
    |s| <= maximum && (forall i :: 0 <= i < |s| ==> s[i] != '\0') && utf8(s)
  }

  lemma SlotsJoin(p: Piece, rest: seq<Piece>)
    ensures Slots([p] + rest) == if p.Slot? then {p.name} + Slots(rest) else Slots(rest)
  {
    assert ([p] + rest)[1..] == rest;
  }

  /** The names from a position on, added to those before it. */
  function Names(text: string, from: nat, before: set<string>): Option<set<string>>
    requires from <= |text|
  {
    var pieces := Pieces(text, from);
    if pieces.None? then None else Some(before + Slots(pieces.value))
  }

  lemma NamesStep(text: string, from: nat, before: set<string>)
    requires from < |text| && text[from] != '{' && text[from] != '}'
    ensures Names(text, from, before) == Names(text, from + 1, before)
  {
    hide Slots;
    var rest := Pieces(text, from + 1);
    if rest.Some? { SlotsJoin(Literal(text[from]), rest.value); }
  }

  lemma NamesSlot(text: string, from: nat, before: set<string>)
    requires from < |text| && text[from] == '{'
    ensures var end := Find(text, '}', from + 1);
            if end == |text| || !Name(text[from + 1..end]) then Names(text, from, before).None?
            else Names(text, from, before) == Names(text, end + 1, before + {text[from + 1..end]})
  {
    hide Slots, Name;
    var end := Find(text, '}', from + 1);
    if end < |text| && Name(text[from + 1..end]) {
      var rest := Pieces(text, end + 1);
      var name := text[from + 1..end];
      if rest.Some? {
        SlotsJoin(Slot(name), rest.value);
        assert before + ({name} + Slots(rest.value)) == (before + {name}) + Slots(rest.value);
      }
    }
  }

  lemma NamesEnd(text: string, before: set<string>)
    ensures Names(text, |text|, before) == Some(before)
  {
    assert before + {} == before;
  }

  lemma NamesGrow(text: string, from: nat, before: set<string>)
    requires from <= |text| && Names(text, from, before).Some?
    ensures |before| <= |Names(text, from, before).value|
  {
    Grows(before, Names(text, from, before).value);
  }

  /** `Placeholders`: adds the slot names of a template, as long as they are few enough. */
  method Placeholders(utf8: string -> bool, text: string, before: set<string>) returns (r: Option<set<string>>)
    requires |before| <= PARAMETERS
    ensures r == Placed(utf8, text, before)
  {
    hide Pieces, Slots, Names, Name;
    if text == "" || !Displayable(utf8, text, TEMPLATE_MAX) { return None; }
    var names := before;
    var position := 0;
    while position < |text|
      invariant position <= |text| && |names| <= PARAMETERS
      invariant Names(text, 0, before) == Names(text, position, names)
      decreases |text| - position
    {
      if text[position] == '}' {
        Unmatched(text, position, names);
        return None;
      }
      if text[position] != '{' {
        NamesStep(text, position, names);
        position := position + 1;
      } else {
        NamesSlot(text, position, names);
        var end := Find(text, '}', position + 1);
        if end == |text| { return None; }
        var name := text[position + 1..end];
        if !Name(name) { return None; }
        names := names + {name};
        if |names| > PARAMETERS {
          if Names(text, 0, before).Some? { NamesGrow(text, end + 1, names); }
          return None;
        }
        position := end + 1;
      }
    }
    NamesEnd(text, names);
    return Some(names);
  }

  lemma Unmatched(text: string, from: nat, before: set<string>)
    requires from < |text| && text[from] == '}'
    ensures Names(text, from, before).None?
  {
  }

  /** The names after a template was looked at: refused for its braces or for too many names. */
  function Placed(utf8: string -> bool, text: string, before: set<string>): Option<set<string>> {
    if text == "" || !Displayable(utf8, text, TEMPLATE_MAX) then None
    else
      var names := Names(text, 0, before);
      if names.None? || |names.value| > PARAMETERS then None else names
  }

  lemma {:induction false} Grows(a: set<string>, b: set<string>)
    requires a <= b
    ensures |a| <= |b|
  {
    if a != {} {
      var x :| x in a;
      Grows(a - {x}, b - {x});
    }
  }

  // ----- rendering -----

  /** Every slot replaced by its value, as it is; the values are not looked into. */
  function Filled(pieces: seq<Piece>, values: map<string, string>): string
    requires Slots(pieces) <= values.Keys
  {
    if pieces == [] then ""
    else
      assert pieces[0].Slot? ==> pieces[0].name in Slots(pieces);
      (if pieces[0].Slot? then values[pieces[0].name] else [pieces[0].c]) + Filled(pieces[1..], values)
  }

  lemma FilledJoin(p: Piece, rest: seq<Piece>, values: map<string, string>)
    requires Slots([p] + rest) <= values.Keys
    ensures Slots(rest) <= values.Keys && (p.Slot? ==> p.name in values)
    ensures Filled([p] + rest, values) == (if p.Slot? then values[p.name] else [p.c]) + Filled(rest, values)
  {
    SlotsJoin(p, rest);
    assert ([p] + rest)[1..] == rest;
    assert p.Slot? ==> p.name in Slots([p] + rest);
  }

  /** What the template from a position on is filled with; `None` when a value is missing. */
  function Fill(text: string, from: nat, values: map<string, string>): Option<string>
    requires from <= |text| && Pieces(text, from).Some?
  {
    var pieces := Pieces(text, from).value;
    if Slots(pieces) <= values.Keys then Some(Filled(pieces, values)) else None
  }

  function After(text: string, rest: Option<string>): Option<string> {
    if rest.None? then None else Some(text + rest.value)
  }

  lemma AfterAfter(a: string, b: string, rest: Option<string>)
    ensures After(a, After(b, rest)) == After(a + b, rest)
  {
    if rest.Some? { assert a + (b + rest.value) == (a + b) + rest.value; }
  }

  /** The run of plain characters up to the next brace is copied. */
  lemma {:induction false} FillRun(text: string, from: nat, to: nat, values: map<string, string>)
    requires from <= to <= |text| && (forall i :: from <= i < to ==> text[i] != '{') && Pieces(text, from).Some?
    ensures Pieces(text, to).Some? && Fill(text, from, values) == After(text[from..to], Fill(text, to, values))
    decreases |text| - from
  {
    if from < to {
      FillRun(text, from + 1, to, values);
      var rest := Pieces(text, from + 1).value;
      SlotsJoin(Literal(text[from]), rest);
      if Slots(rest) <= values.Keys { FilledJoin(Literal(text[from]), rest, values); }
      assert text[from..to] == [text[from]] + text[from + 1..to];
      AfterAfter([text[from]], text[from + 1..to], Fill(text, to, values));
    } else {
      assert text[from..to] == "";
      AfterNothing(Fill(text, from, values));
    }
  }

  /** A slot is replaced by its value. */
  lemma FillSlot(text: string, from: nat, values: map<string, string>)
    requires from < |text| && text[from] == '{' && Pieces(text, from).Some?
    ensures var end := Find(text, '}', from + 1);
            && end < |text| && Pieces(text, end + 1).Some?
            && var name := text[from + 1..end];
               Fill(text, from, values) == if name in values then After(values[name], Fill(text, end + 1, values))
                   else None
  {
    var end := Find(text, '}', from + 1);
    var name := text[from + 1..end];
    var rest := Pieces(text, end + 1).value;
    SlotsJoin(Slot(name), rest);
    if Slots([Slot(name)] + rest) <= values.Keys { FilledJoin(Slot(name), rest, values); }
  }

  lemma FillEnd(text: string, values: map<string, string>)
    ensures Fill(text, |text|, values) == Some("")
  {
  }

  /** The text of a template, bounded. */
  function Rendered(text: string, values: map<string, string>): Option<string>
    requires Pieces(text, 0).Some?
  {
    var all := Fill(text, 0, values);
    if all.Some? && |all.value| <= RENDERED_MAX then all else None
  }

  /** `Render`, on a template whose braces were checked before. */
  method Render(text: string, values: map<string, string>) returns (r: Option<string>)
    requires Pieces(text, 0).Some?
    ensures r == Rendered(text, values)
  {
    hide Pieces, Slots, Filled, Fill;
    var rendered: string := "";
    var position := 0;
    AfterNothing(Fill(text, 0, values));
    while position < |text|
      invariant position <= |text| && |rendered| <= RENDERED_MAX && Pieces(text, position).Some?
      invariant Fill(text, 0, values) == After(rendered, Fill(text, position, values))
      decreases |text| - position
    {
      var begin := Find(text, '{', position);
      FillRun(text, position, begin, values);
      AfterAfter(rendered, text[position..begin], Fill(text, begin, values));
      if begin - position > RENDERED_MAX - |rendered| { return None; }
      rendered := rendered + text[position..begin];
      position := begin;
      if begin == |text| { break; }
      FillSlot(text, begin, values);
      var close := Find(text, '}', begin + 1);
      var name := text[begin + 1..close];
      if name !in values || |values[name]| > RENDERED_MAX - |rendered| { return None; }
      AfterAfter(rendered, values[name], Fill(text, close + 1, values));
      rendered := rendered + values[name];
      position := close + 1;
    }
    FillEnd(text, values);
    assert rendered + "" == rendered;
    return Some(rendered);
  }

  lemma AfterNothing(rest: Option<string>)
    ensures After("", rest) == rest
  {
    if rest.Some? { assert "" + rest.value == rest.value; }
  }

  // ----- definitions -----

  datatype Source = Scope | Purpose | Recipient | Operation | Retention

  datatype Kind = Whole(minimum: int, maximum: int) | Free(bytes: int)

  datatype Parameter = Parameter(source: Source, kind: Kind)

  datatype Texts = Texts(title: Option<string>, body: Option<string>)

  /** The localized part of a definition; `retention` is the text of its retention, "0" if absent. */
  datatype Definition = Definition(
    typed: bool,
    schema: map<string, Parameter>,
    locales: map<string, Texts>,
    fallbacks: map<string, string>,
    preset: string,
    retention: string)

  predicate Locale(s: string) {
    1 <= |s| <= 256 && forall i :: 0 <= i < |s| ==> LocaleChar(s[i])
  }

  predicate LocaleChar(c: char) {
    'a' <= c <= 'z' || 'A' <= c <= 'Z' || '0' <= c <= '9' || c == '-' || c == '_' || c == '.' || c == ':'
  }

  predicate ParameterFine(p: Parameter) {
    match p.kind
    case Whole(low, high) =>
      (p.source == Scope || p.source == Retention)
      && N.INT64_MIN <= low <= high <= N.INT64_MAX
    case Free(bytes) => p.source != Retention && 1 <= bytes <= STRING_MAX
  }

  /** `ParseSchema`, on a schema whose keys were taken apart. */
  predicate SchemaFine(d: Definition) {
    && |d.schema| <= PARAMETERS
    && (!d.typed ==> d.schema == map[])
    && forall n :: n in d.schema ==> Name(n) && ParameterFine(d.schema[n])
  }

  /** `Integer`: the one decimal text of a 64-bit number. */
  function Canonical(s: string): Option<int> {
    var n := N.Parsed(s);
    if n.Some? && N.SignedText(n.value) == s then n else None
  }

  predicate Value(utf8: string -> bool, p: Parameter, value: string) {
    match p.kind
    case Whole(low, high) =>
      var n := Canonical(value);
      n.Some? && low <= n.value <= high
    case Free(bytes) => Displayable(utf8, value, bytes)
  }

  /** The names of the texts of one locale. */
  function TextNames(utf8: string -> bool, t: Texts): Option<set<string>> {
    var first := if t.body.None? then Some({}) else Placed(utf8, t.body.value, {});
    if first.None? || t.title.None? then first else Placed(utf8, t.title.value, first.value)
  }

  predicate TextsFine(utf8: string -> bool, d: Definition, t: Texts) {
    && (d.typed ==> t.title.Some? && t.body.Some?)
    && TextNames(utf8, t) == Some(d.schema.Keys)
  }

  function Registered(d: Definition): set<string> {
    set l | l in d.locales && d.locales[l].title.Some? && d.locales[l].body.Some?
  }

  const TEXTS: int := 32

  predicate FewTexts(d: Definition) {
    |set l | l in d.locales && d.locales[l].title.Some?| + |set l | l in d.locales && d.locales[l].body.Some?| <= TEXTS
  }

  /** `MessageLocales`: every text names the declared parameters, the default locale has both texts
      and a fallback leads from a locale without texts to one with both. */
  predicate LocalesFine(utf8: string -> bool, d: Definition) {
    && FewTexts(d)
    && (forall l :: l in d.locales ==> LocaleFine(utf8, d, l))
    && d.preset in Registered(d)
    && forall a :: a in d.fallbacks ==> FallbackFine(d, a)
  }

  predicate LocaleFine(utf8: string -> bool, d: Definition, l: string)
    requires l in d.locales
  {
    Locale(l) && TextsFine(utf8, d, d.locales[l])
  }

  predicate FallbackFine(d: Definition, alias: string)
    requires alias in d.fallbacks
  {
    Locale(alias) && alias !in Registered(d) && d.fallbacks[alias] in Registered(d)
  }

  method LocaleNames(utf8: string -> bool, t: Texts) returns (r: Option<set<string>>)
    ensures r == TextNames(utf8, t)
  {
    hide Placed;
    r := Some({});
    if t.body.Some? {
      r := Placeholders(utf8, t.body.value, {});
      PlacedIsSmall(utf8, t.body.value, {});
    }
    if r.Some? && t.title.Some? { r := Placeholders(utf8, t.title.value, r.value); }
  }

  /** `MessageLocales`: the locales with both texts, found one locale and one fallback at a time. */
  method MessageLocales(utf8: string -> bool, d: Definition) returns (r: Option<set<string>>)
    ensures r == if LocalesFine(utf8, d) then Some(Registered(d)) else None
  {
    hide TextNames, Locale, TextsFine, FallbackFine, FewTexts, Registered;
    if !FewTexts(d) { return None; }
    r := Locales(utf8, d);
    if r.None? || d.preset !in r.value { return None; }
    var fine := Fallbacks(d, r.value);
    if !fine { return None; }
  }

  method Locales(utf8: string -> bool, d: Definition) returns (r: Option<set<string>>)
    ensures r == if forall l :: l in d.locales ==> LocaleFine(utf8, d, l) then Some(Registered(d)) else None
  {
    hide TextNames, Locale;
    var registered := {};
    var todo := d.locales.Keys;
    while todo != {}
      invariant todo <= d.locales.Keys && registered == Registered(d) - todo
      invariant forall l :: l in d.locales && l !in todo ==> LocaleFine(utf8, d, l)
      decreases todo
    {
      var l :| l in todo;
      var t := d.locales[l];
      var names := LocaleNames(utf8, t);
      if !Locale(l) || names != Some(d.schema.Keys) || (d.typed && !(t.title.Some? && t.body.Some?)) {
        assert !LocaleFine(utf8, d, l);
        return None;
      }
      if t.title.Some? && t.body.Some? { registered := registered + {l}; }
      todo := todo - {l};
    }
    assert registered == Registered(d);
    return Some(registered);
  }

  method Fallbacks(d: Definition, registered: set<string>) returns (fine: bool)
    requires registered == Registered(d)
    ensures fine <==> forall a :: a in d.fallbacks ==> FallbackFine(d, a)
  {
    hide Locale, Registered;
    var todo := d.fallbacks.Keys;
    while todo != {}
      invariant todo <= d.fallbacks.Keys
      invariant forall a :: a in d.fallbacks && a !in todo ==> FallbackFine(d, a)
      decreases todo
    {
      var a :| a in todo;
      if !Locale(a) || a in registered || d.fallbacks[a] !in registered {
        assert !FallbackFine(d, a);
        return false;
      }
      todo := todo - {a};
    }
    return true;
  }

  predicate Accepted(utf8: string -> bool, d: Definition) {
    && SchemaFine(d) && LocalesFine(utf8, d)
    && forall n :: n in d.schema && d.schema[n].source == Retention ==> Value(utf8, d.schema[n], d.retention)
  }

  /** The separate search for chains of fallbacks finds none. */
  lemma FallbacksDoNotChain(utf8: string -> bool, d: Definition, alias: string)
    requires LocalesFine(utf8, d) && alias in d.fallbacks
    ensures d.fallbacks[alias] !in d.fallbacks
  {
    assert FallbackFine(d, alias);
    assert forall a :: a in d.fallbacks ==> a !in Registered(d) by {
      assert forall a :: a in d.fallbacks ==> FallbackFine(d, a);
    }
  }

  // ----- choosing a locale -----

  function Known(requested: string): string {
    if requested == "ko-KR" then "ko"
    else if requested == "en-US" || requested == "en-GB" then "en"
    else requested
  }

  function SelectLocale(utf8: string -> bool, d: Definition, requested: string): Option<string> {
    if !Locale(requested) || !SchemaFine(d) || !LocalesFine(utf8, d) then None
    else if requested in Registered(d) then Some(requested)
    else
      var locale := if requested in d.fallbacks then d.fallbacks[requested] else Known(requested);
      Some(if locale in Registered(d) then locale else d.preset)
  }

  /** An accepted definition answers every request for a locale with one that has both texts: itself, what the
      definition falls back to, the language of a Korean, American or British one, or the default. */
  lemma LocaleIsFound(utf8: string -> bool, d: Definition, requested: string)
    requires Accepted(utf8, d) && Locale(requested)
    ensures var l, texts := SelectLocale(utf8, d, requested), Registered(d);
            && l.Some? && l.value in texts
            && (requested in texts ==> l.value == requested)
            && (requested !in texts && requested in d.fallbacks ==> l.value == d.fallbacks[requested])
            && (requested !in texts && requested !in d.fallbacks ==>
                  l.value == if requested == "ko-KR" && "ko" in texts then "ko"
                             else if requested in {"en-US", "en-GB"} && "en" in texts then "en" else d.preset)
  {
    assert requested in d.fallbacks ==> FallbackFine(d, requested);
  }

  // ----- arguments -----

  /** The value of a parameter: from the definition, or from the requirement's row. */
  function Sourced(d: Definition, row: map<Source, string>, p: Parameter): Option<string> {
    if p.source == Retention then Some(d.retention)
    else if p.source in row then Some(row[p.source]) else None
  }

  predicate Argued(utf8: string -> bool, d: Definition, row: map<Source, string>, name: string)
    requires name in d.schema
  {
    var value := Sourced(d, row, d.schema[name]);
    value.Some? && Value(utf8, d.schema[name], value.value)
  }

  /** A parameter has a value exactly if the retention of the definition, or what the row says of its source, is
      the text of a number within its bounds, or a text that can be displayed within its length. */
  lemma ArguedIs(utf8: string -> bool, d: Definition, row: map<Source, string>, name: string)
    requires name in d.schema && ParameterFine(d.schema[name])
    ensures var p := d.schema[name];
            Argued(utf8, d, row, name) <==>
              && (p.source == Retention || p.source in row)
              && var value := if p.source == Retention then d.retention else row[p.source];
                 match p.kind
                 case Whole(low, high) => exists n :: low <= n <= high && value == N.SignedText(n)
                 case Free(bytes) => Displayable(utf8, value, bytes)
  {
    hide Displayable, N.Parsed, N.SignedText;
    var p := d.schema[name];
    if p.kind.Whole? && Sourced(d, row, p).Some? {
      CanonicalIs(Sourced(d, row, p).value, p.kind.minimum, p.kind.maximum);
    }
  }

  lemma CanonicalIs(value: string, low: int, high: int)
    requires N.INT64_MIN <= low <= high <= N.INT64_MAX
    ensures Canonical(value).Some? && low <= Canonical(value).value <= high <==>
              exists n :: low <= n <= high && value == N.SignedText(n)
  {
    hide N.Parsed, N.SignedText;
    if n :| low <= n <= high && value == N.SignedText(n) { N.ParsedText(n); }
  }

  /** The values of all parameters, or nothing when one is missing or out of range. */
  method Collect(utf8: string -> bool, d: Definition, row: map<Source, string>) returns (r: Option<map<string, string>>)
    ensures r.Some? <==> forall n :: n in d.schema ==> Argued(utf8, d, row, n)
    ensures r.Some? ==> Values(d, row, r.value)
  {
    var todo := d.schema.Keys;
    var values: map<string, string> := map[];
    while todo != {}
      invariant todo <= d.schema.Keys && values.Keys == d.schema.Keys - todo
      invariant forall n :: n in values ==> Argued(utf8, d, row, n) && Sourced(d, row, d.schema[n]) == Some(values[n])
      decreases todo
    {
      var name :| name in todo;
      if !Argued(utf8, d, row, name) { return None; }
      values := values[name := Sourced(d, row, d.schema[name]).value];
      todo := todo - {name};
    }
    return Some(values);
  }

  predicate Values(d: Definition, row: map<Source, string>, values: map<string, string>) {
    values.Keys == d.schema.Keys && forall n :: n in values ==> Sourced(d, row, d.schema[n]) == Some(values[n])
  }

  // ----- prompts -----

  /** An argument as it travels with a prompt. */
  datatype Argument = Argument(name: string, whole: bool, value: string)

  predicate ArgumentFine(utf8: string -> bool, a: Argument) {
    Name(a.name) && if a.whole then Canonical(a.value).Some? else Displayable(utf8, a.value, STRING_MAX)
  }

  /** The values of a list of arguments; `None` when one is refused or named twice. */
  function Gathered(utf8: string -> bool, arguments: seq<Argument>, n: nat): Option<map<string, string>>
    requires n <= |arguments|
  {
    if n == 0 then Some(map[])
    else
      var before := Gathered(utf8, arguments, n - 1);
      var a := arguments[n - 1];
      if before.None? || !ArgumentFine(utf8, a) || a.name in before.value then None
      else Some(before.value[a.name := a.value])
  }

  /** The title or the body of one requirement, from its texts and its arguments. */
  function Formatted(utf8: string -> bool, title: string, body: string, arguments: seq<Argument>,
                     heading: bool): Option<string> {
    var first := Placed(utf8, title, {});
    if first.None? then None
    else
      var names := Placed(utf8, body, first.value);
      var values := Gathered(utf8, arguments, |arguments|);
      if names.None? || |arguments| > PARAMETERS || values.None? || values.value.Keys != names.value then None
      else Rendered(if heading then title else body, values.value)
  }

  method Format(utf8: string -> bool, title: string, body: string, arguments: seq<Argument>, heading: bool)
    returns (r: Option<string>)
    ensures r == Formatted(utf8, title, body, arguments, heading)
  {
    hide Pieces, Names, ArgumentFine, Rendered;
    var first := Placeholders(utf8, title, {});
    if first.None? { return None; }
    PlacedIsSmall(utf8, title, {});
    var names := Placeholders(utf8, body, first.value);
    if names.None? || |arguments| > PARAMETERS { return None; }
    var values: map<string, string> := map[];
    var index := 0;
    while index < |arguments|
      invariant index <= |arguments|
      invariant Gathered(utf8, arguments, index) == Some(values)
    {
      var a := arguments[index];
      if !ArgumentFine(utf8, a) || a.name in values {
        GatheredFails(utf8, arguments, index + 1, |arguments|);
        return None;
      }
      values := values[a.name := a.value];
      index := index + 1;
    }
    if values.Keys != names.value { return None; }
    PlacedHasPieces(utf8, title, {});
    PlacedHasPieces(utf8, body, first.value);
    r := Render(if heading then title else body, values);
  }

  lemma PlacedIsSmall(utf8: string -> bool, text: string, before: set<string>)
    ensures Placed(utf8, text, before).Some? ==> |Placed(utf8, text, before).value| <= PARAMETERS
  {
  }

  lemma PlacedHasPieces(utf8: string -> bool, text: string, before: set<string>)
    requires Placed(utf8, text, before).Some?
    ensures Pieces(text, 0).Some? && Placed(utf8, text, before).value == before + Slots(Pieces(text, 0).value)
  {
  }

  lemma {:induction false} GatheredFails(utf8: string -> bool, arguments: seq<Argument>, m: nat, n: nat)
    requires m <= n <= |arguments| && Gathered(utf8, arguments, m).None?
    ensures Gathered(utf8, arguments, n).None?
  {
    if m < n { GatheredFails(utf8, arguments, m, n - 1); }
  }

  // ----- from a definition to the prompt -----

  /** The arguments of a requirement, in the order of their names. */
  function Appended(d: Definition, order: seq<string>, values: map<string, string>): (r: seq<Argument>)
    requires Within(order, d.schema.Keys) && values.Keys == d.schema.Keys
    ensures |r| == |order|
  {
    seq(|order|, i requires 0 <= i < |order| => Argument(order[i], d.schema[order[i]].kind.Whole?, values[order[i]]))
  }

  predicate Within(order: seq<string>, names: set<string>) {
    forall i :: 0 <= i < |order| ==> order[i] in names
  }

  predicate Distinct(order: seq<string>) {
    forall i, j :: 0 <= i < j < |order| ==> order[i] != order[j]
  }

  predicate Lists(order: seq<string>, names: set<string>) {
    Within(order, names) && Distinct(order) && forall n :: n in names ==> n in order
  }

  /** A value that fits its parameter is accepted as an argument. */
  lemma ArguedIsFine(utf8: string -> bool, d: Definition, row: map<Source, string>, name: string)
    requires SchemaFine(d) && name in d.schema && Argued(utf8, d, row, name)
    ensures ArgumentFine(utf8, Argument(name, d.schema[name].kind.Whole?, Sourced(d, row, d.schema[name]).value))
  {
    hide Name, Canonical;
    var p := d.schema[name];
    assert Name(name) && ParameterFine(p) && Value(utf8, p, Sourced(d, row, p).value);
  }

  /** Those of the values that have one of the names. */
  predicate Part(g: Option<map<string, string>>, values: map<string, string>, names: set<string>) {
    g.Some? && g.value.Keys == names && forall k :: k in g.value ==> k in values && g.value[k] == values[k]
  }

  lemma GatheredMore(utf8: string -> bool, arguments: seq<Argument>, n: nat, values: map<string, string>,
                     names: set<string>)
    requires n < |arguments| && Part(Gathered(utf8, arguments, n), values, names)
    requires var a := arguments[n];
             ArgumentFine(utf8, a) && a.name !in names && a.name in values && values[a.name] == a.value
    ensures Part(Gathered(utf8, arguments, n + 1), values, names + {arguments[n].name})
  {
    hide ArgumentFine;
  }

  lemma GatheredNone(utf8: string -> bool, arguments: seq<Argument>, values: map<string, string>)
    ensures Part(Gathered(utf8, arguments, 0), values, {})
  {
  }

  lemma {:induction false} GatheredAppended(utf8: string -> bool, d: Definition, row: map<Source, string>,
                                            order: seq<string>, values: map<string, string>, n: nat)
    requires SchemaFine(d) && Values(d, row, values) && values.Keys == d.schema.Keys
    requires Within(order, d.schema.Keys) && Distinct(order) && n <= |order|
    requires forall k :: k in d.schema ==> Argued(utf8, d, row, k)
    ensures Part(Gathered(utf8, Appended(d, order, values), n), values, Front(order, n))
  {
    hide ArgumentFine, Argued, SchemaFine, Gathered, Part, Values, Sourced;
    if n == 0 {
      GatheredNone(utf8, Appended(d, order, values), values);
    } else {
      GatheredAppended(utf8, d, row, order, values, n - 1);
      FrontLacks(order, n - 1);
      AppendedIsFine(utf8, d, row, order, values, n - 1);
      GatheredMore(utf8, Appended(d, order, values), n - 1, values, Front(order, n - 1));
    }
  }

  lemma AppendedIsFine(utf8: string -> bool, d: Definition, row: map<Source, string>, order: seq<string>,
                       values: map<string, string>, i: nat)
    requires SchemaFine(d) && Values(d, row, values) && Within(order, d.schema.Keys)
    requires i < |order| && Argued(utf8, d, row, order[i])
    ensures ArgumentFine(utf8, Appended(d, order, values)[i])
  {
    hide ArgumentFine, Argued, SchemaFine;
    ArguedIsFine(utf8, d, row, order[i]);
  }

  /** The order in which the two texts are looked at does not matter. */
  lemma EitherOrder(utf8: string -> bool, t: Texts, names: set<string>)
    requires t.title.Some? && t.body.Some? && TextNames(utf8, t) == Some(names)
    ensures var first := Placed(utf8, t.title.value, {});
            first.Some? && Placed(utf8, t.body.value, first.value) == Some(names)
  {
    hide Pieces, Slots, Displayable;
    var title, body := Pieces(t.title.value, 0), Pieces(t.body.value, 0);
    var b, h := Slots(body.value), Slots(title.value);
    assert {} + b + h == {} + h + b == names;
    Grows({} + h, names);
  }

  /** The first `n` names. */
  function Front(order: seq<string>, n: nat): set<string>
    requires n <= |order|
  {
    if n == 0 then {} else Front(order, n - 1) + {order[n - 1]}
  }

  lemma {:induction false} FrontIs(order: seq<string>, n: nat, k: string)
    requires n <= |order|
    ensures k in Front(order, n) <==> exists i :: 0 <= i < n && order[i] == k
  {
    if n > 0 { FrontIs(order, n - 1, k); }
  }

  lemma FrontLacks(order: seq<string>, n: nat)
    requires n < |order| && Distinct(order)
    ensures order[n] !in Front(order, n)
  {
    FrontIs(order, n, order[n]);
  }

  lemma {:induction false} FrontCounts(order: seq<string>, n: nat)
    requires Distinct(order) && n <= |order|
    ensures |Front(order, n)| == n
  {
    if n > 0 {
      FrontCounts(order, n - 1);
      FrontLacks(order, n - 1);
    }
  }

  lemma FrontAll(order: seq<string>, names: set<string>)
    requires Lists(order, names)
    ensures Front(order, |order|) == names && |order| == |names|
  {
    FrontCounts(order, |order|);
    forall k ensures k in Front(order, |order|) <==> k in names {
      FrontIs(order, |order|, k);
    }
  }

  /** Every accepted definition, requested locale and accepted row give a title and a body that are
      the template with each slot replaced once, unless that text is too long. */
  lemma TextIsFormatted(utf8: string -> bool, d: Definition, row: map<Source, string>, requested: string,
                        order: seq<string>, values: map<string, string>, heading: bool)
    requires Accepted(utf8, d) && Locale(requested) && Lists(order, d.schema.Keys) && Values(d, row, values)
    requires forall n :: n in d.schema ==> Argued(utf8, d, row, n)
    ensures var locale := SelectLocale(utf8, d, requested);
            && locale.Some? && locale.value in Registered(d)
            && var t := d.locales[locale.value];
               var text := if heading then t.title.value else t.body.value;
               && Pieces(text, 0).Some? && Slots(Pieces(text, 0).value) <= values.Keys
               && var whole := Filled(Pieces(text, 0).value, values);
                  Formatted(utf8, t.title.value, t.body.value, Appended(d, order, values), heading)
                    == if |whole| <= RENDERED_MAX then Some(whole) else None
  {
    LocaleIsFound(utf8, d, requested);
    hide Argued, Gathered, Filled, Slots, SelectLocale, Locale, Placed, Formatted, Pieces;
    var t := d.locales[SelectLocale(utf8, d, requested).value];
    assert LocaleFine(utf8, d, SelectLocale(utf8, d, requested).value);
    assert TextsFine(utf8, d, t);
    hide TextsFine, Accepted, Registered;
    EitherOrder(utf8, t, d.schema.Keys);
    AllGathered(utf8, d, row, order, values);
    FormattedText(utf8, t.title.value, t.body.value, Appended(d, order, values), values, heading);
  }

  lemma AllGathered(utf8: string -> bool, d: Definition, row: map<Source, string>, order: seq<string>,
                    values: map<string, string>)
    requires SchemaFine(d) && Values(d, row, values) && Lists(order, d.schema.Keys)
    requires forall k :: k in d.schema ==> Argued(utf8, d, row, k)
    ensures |order| <= PARAMETERS && Gathered(utf8, Appended(d, order, values), |order|) == Some(values)
  {
    hide Argued, Gathered, Appended, SchemaFine;
    GatheredAppended(utf8, d, row, order, values, |order|);
    FrontAll(order, d.schema.Keys);
    SameMap(Gathered(utf8, Appended(d, order, values), |order|).value, values);
    KeysCount(d);
  }

  lemma FormattedText(utf8: string -> bool, title: string, body: string, arguments: seq<Argument>, values: map<string,
                      string>, heading: bool)
    requires var first := Placed(utf8, title, {}); first.Some? && Placed(utf8, body, first.value) == Some(values.Keys)
    requires |arguments| <= PARAMETERS && Gathered(utf8, arguments, |arguments|) == Some(values)
    ensures var text := if heading then title else body;
            && Pieces(text, 0).Some? && Slots(Pieces(text, 0).value) <= values.Keys
            && var whole := Filled(Pieces(text, 0).value, values);
               Formatted(utf8, title, body, arguments, heading) == if |whole| <= RENDERED_MAX then Some(whole) else None
  {
    hide Pieces, Slots, Filled, Gathered, Placed;
    PlacedHasPieces(utf8, title, {});
    PlacedHasPieces(utf8, body, Placed(utf8, title, {}).value);
  }

  lemma SameMap(a: map<string, string>, b: map<string, string>)
    requires a.Keys == b.Keys
    requires forall k :: k in a ==> k in b && a[k] == b[k]
    ensures a == b
  {
  }

  lemma KeysCount(d: Definition)
    requires SchemaFine(d)
    ensures |d.schema.Keys| <= PARAMETERS
  {
    assert |d.schema.Keys| == |d.schema|;
  }
}
