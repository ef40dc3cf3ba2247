/** The prompt on the screen: text cut into pages, and approval that waits until all of them
    have been displayed. */
module Review {
  import opened Types
  import K = Pack

  // ----- Paginate -----

  /** One displayed character, with whatever combines with it. */
  type Element = string

  const NEWLINE: Element := "\n"
  const LINES: nat := 6
  const COLUMNS: nat := 26

  /** The characters of a text other than line ends. */
  function Visible(text: seq<Element>): seq<Element> {
    if text == [] then []
    else Visible(text[..|text| - 1]) + (if text[|text| - 1] == NEWLINE then [] else [text[|text| - 1]])
  }

  /** The number of lines of a page, and the length of its last line. */
  function LineCount(page: seq<Element>): nat {
    if page == [] then 1 else LineCount(page[..|page| - 1]) + (if page[|page| - 1] == NEWLINE then 1 else 0)
  }

  function LastLine(page: seq<Element>): nat {
    if page == [] || page[|page| - 1] == NEWLINE then 0 else LastLine(page[..|page| - 1]) + 1
  }

  /** No line of a page is longer than the screen is wide. */
  predicate Narrow(page: seq<Element>) {
    forall i :: 0 <= i <= |page| ==> LastLine(page[..i]) <= COLUMNS
  }

  predicate Fits(page: seq<Element>) {
    LineCount(page) <= LINES && Narrow(page)
  }

  lemma AppendOne(page: seq<Element>, e: Element)
    ensures Visible(page + [e]) == Visible(page) + if e == NEWLINE then [] else [e]
    ensures LineCount(page + [e]) == LineCount(page) + if e == NEWLINE then 1 else 0
    ensures LastLine(page + [e]) == if e == NEWLINE then 0 else LastLine(page) + 1
  {
    assert (page + [e])[..|page|] == page;
  }

  lemma NarrowAppend(page: seq<Element>, e: Element)
    requires Narrow(page) && LastLine(page + [e]) <= COLUMNS
    ensures Narrow(page + [e])
  {
    var more := page + [e];
    forall i | 0 <= i <= |more| ensures LastLine(more[..i]) <= COLUMNS {
      if i <= |page| { assert more[..i] == page[..i]; } else { assert more[..i] == more; }
    }
  }

  function AllVisible(pages: seq<seq<Element>>): seq<Element> {
    if pages == [] then [] else AllVisible(pages[..|pages| - 1]) + Visible(pages[|pages| - 1])
  }

  lemma AppendPage(pages: seq<seq<Element>>, page: seq<Element>)
    ensures AllVisible(pages + [page]) == AllVisible(pages) + Visible(page)
  {
    assert (pages + [page])[..|pages|] == pages;
  }

  // ----- the text to display -----

  /** Line ends of two characters become one, and tabs become spaces. */
  function Normalized(text: string): string {
    if text == "" then ""
    else if |text| >= 2 && text[..2] == "\r\n" then "\n" + Normalized(text[2..])
    else [if text[0] == '\t' then ' ' else text[0]] + Normalized(text[1..])
  }

  predicate Hides(text: string, hidden: char -> bool) {
    exists i :: 0 <= i < |text| && hidden(text[i])
  }

  predicate Oversized(elements: seq<Element>) {
    exists i :: 0 <= i < |elements| && |elements[i]| > 16
  }

  /** `Paginate`: `hidden` are the control and format characters other than a line end, which are
      refused; `segment` cuts a text into its elements. The elements of the pages other than line
      ends are those of the text, in order, and every page fits the screen. */
  method Paginate(text: string, hidden: char -> bool, segment: string -> seq<Element>)
    returns (r: Option<seq<seq<Element>>>)
    ensures r.None? <==> Hides(Normalized(text), hidden) || Oversized(segment(Normalized(text)))
    ensures r.Some? ==> AllVisible(r.value) == Visible(segment(Normalized(text)))
    ensures r.Some? ==> forall i :: 0 <= i < |r.value| ==> Fits(r.value[i]) && r.value[i] != []
  {
    hide AllVisible, Visible, Fits, Normalized, Hides, Oversized;
    var shown := Normalized(text);
    if Hides(shown, hidden) { return None; }
    r := Cut(segment(shown));
  }

  /** Cuts the elements of a text into pages; `None` is an element too large to display. */
  method Cut(text: seq<Element>) returns (r: Option<seq<seq<Element>>>)
    ensures r.None? <==> Oversized(text)
    ensures r.Some? ==> AllVisible(r.value) == Visible(text)
    ensures r.Some? ==> forall i :: 0 <= i < |r.value| ==> Fits(r.value[i]) && r.value[i] != []
  {
    hide Visible, AllVisible, LineCount, LastLine, Narrow;
    var pages: seq<seq<Element>> := [];
    var page: seq<Element> := [];
    var lines, columns := 1, 0;
    Nothing(text);
    for k := 0 to |text|
      invariant forall i :: 0 <= i < k ==> |text[i]| <= 16
      invariant AllVisible(pages) + Visible(page) == Visible(text[..k])
      invariant forall i :: 0 <= i < |pages| ==> Fits(pages[i]) && pages[i] != []
      invariant Narrow(page) && lines == LineCount(page) <= LINES && columns == LastLine(page) <= COLUMNS
      invariant lines > 1 ==> page != []
    {
      var element := text[k];
      if |element| > 16 { return None; }
      assert text[..k + 1] == text[..k] + [element];
      AppendOne(text[..k], element);
      if element == NEWLINE || columns == COLUMNS {
        if lines == LINES {
          AppendPage(pages, page);
          pages := pages + [page];
          page, lines := [], 1;
          Nothing(text);
          assert AllVisible(pages) + Visible([]) == AllVisible(pages);
        } else {
          AppendOne(page, NEWLINE);
          NarrowAppend(page, NEWLINE);
          page, lines := page + [NEWLINE], lines + 1;
        }
        columns := 0;
        if element == NEWLINE { continue; }
      }
      AppendOne(page, element);
      NarrowAppend(page, element);
      assert AllVisible(pages) + (Visible(page) + [element]) == (AllVisible(pages) + Visible(page)) + [element];
      page := page + [element];
      columns := columns + 1;
    }
    assert text[..|text|] == text;
    if page != [] {
      AppendPage(pages, page);
      pages := pages + [page];
    } else {
      Nothing(text);
      assert AllVisible(pages) + Visible([]) == AllVisible(pages);
    }
    return Some(pages);
  }

  lemma Nothing(text: seq<Element>)
    ensures Visible([]) == [] && AllVisible([]) == [] && Visible(text[..0]) == []
    ensures LineCount([]) == 1 && LastLine([]) == 0 && Narrow([])
    ensures AllVisible([]) + Visible([]) == Visible(text[..0])
  {
  }

  // ----- what a prompt displays -----

  const LOCALES: set<string> := {"en", "en-US", "en-GB", "ko", "ko-KR"}
  const PERIODS: set<string> := {"ONCE", "SESSION", "TIMED", "PERSISTENT"}

  /** A prompt as it is displayed; `fields` are the keys and values it is bound to, by turns. */
  datatype Snapshot = Snapshot(locale: string, fields: seq<string>, period: string, pages: seq<string>,
                               approvable: bool)

  predicate Proper(s: Snapshot) {
    s.locale in LOCALES && s.fields != [] && s.period in PERIODS && s.pages != []
  }

  function Parts(list: seq<string>): string {
    if list == [] then "" else K.Part(list[0]) + Parts(list[1..])
  }

  /** The text by which two prompts are compared. */
  function Content(s: Snapshot): string {
    s.locale + Parts(s.fields) + s.period + Parts(s.pages)
  }

  predicate StartsDigit(s: string) {
    s != "" && Digit(s[0])
  }

  lemma PartsStart(list: seq<string>, rest: string)
    requires list != []
    ensures StartsDigit(Parts(list) + rest)
  {
    assert Digit(K.Part(list[0])[0]);
  }

  lemma PartsOrNot(list: seq<string>, rest: string)
    requires !StartsDigit(rest)
    ensures StartsDigit(Parts(list) + rest) <==> list != []
    ensures list != [] ==> Parts(list) + rest == K.Part(list[0]) + (Parts(list[1..]) + rest)
    ensures list == [] ==> Parts(list) + rest == rest
  {
    hide K.Part, StartsDigit, Parts;
    PartsSplit(list);
    if list != [] {
      PartsStart(list, rest);
      Associates(K.Part(list[0]), Parts(list[1..]), rest);
    } else {
      assert "" + rest == rest;
    }
  }

  lemma PartsSplit(list: seq<string>)
    ensures Parts(list) == if list == [] then "" else K.Part(list[0]) + Parts(list[1..])
  {
  }

  lemma Associates(a: string, b: string, c: string)
    ensures (a + b) + c == a + (b + c)
  {
  }

  /** A list of parts ends where no digit follows. */
  lemma {:induction false} PartsEnd(a: seq<string>, b: seq<string>, x: string, y: string)
    requires Parts(a) + x == Parts(b) + y && !StartsDigit(x) && !StartsDigit(y)
    ensures a == b && x == y
    decreases |a|
  {
    hide Parts, StartsDigit, K.Part;
    PartsOrNot(a, x);
    PartsOrNot(b, y);
    if a != [] {
      K.PartIsPrefixCode(a[0], b[0], Parts(a[1..]) + x, Parts(b[1..]) + y);
      PartsEnd(a[1..], b[1..], x, y);
      assert a == [a[0]] + a[1..] && b == [b[0]] + b[1..];
    }
  }

  predicate Word(s: string) {
    s != "" && forall i :: 0 <= i < |s| ==> !Digit(s[i])
  }

  /** The place of the first digit. */
  function FirstDigit(s: string): nat {
    if s == "" || Digit(s[0]) then 0 else 1 + FirstDigit(s[1..])
  }

  lemma {:induction false} DigitAfterWord(a: string, x: string)
    requires (forall i :: 0 <= i < |a| ==> !Digit(a[i])) && StartsDigit(x)
    ensures FirstDigit(a + x) == |a|
  {
    if a == "" {
      assert a + x == x;
    } else {
      DigitAfterWord(a[1..], x);
      assert (a + x)[1..] == a[1..] + x;
    }
  }

  /** A word ends where a digit follows. */
  lemma WordEnds(a: string, b: string, x: string, y: string)
    requires a + x == b + y && Word(a) && Word(b) && StartsDigit(x) && StartsDigit(y)
    ensures a == b && x == y
  {
    DigitAfterWord(a, x);
    DigitAfterWord(b, y);
    var s := a + x;
    assert a == s[..|a|] && x == s[|a|..] && b == (b + y)[..|b|] && y == (b + y)[|b|..];
  }

  lemma Words(s: Snapshot)
    requires Proper(s)
    ensures Word(s.locale) && Word(s.period)
  {
  }

  /** Prompts with the same content have the same pages. */
  lemma SameContentSamePages(a: Snapshot, b: Snapshot)
    requires Proper(a) && Proper(b) && Content(a) == Content(b)
    ensures a.pages == b.pages && a.fields == b.fields && a.period == b.period && a.locale == b.locale
  {
    hide Word, StartsDigit, Parts, Proper;
    Words(a);
    Words(b);
    var x, y := a.period + Parts(a.pages), b.period + Parts(b.pages);
    assert Content(a) == a.locale + (Parts(a.fields) + x) && Content(b) == b.locale + (Parts(b.fields) + y);
    ProperParts(a);
    ProperParts(b);
    WordEnds(a.locale, b.locale, Parts(a.fields) + x, Parts(b.fields) + y);
    PartsEnd(a.fields, b.fields, x, y);
    WordEnds(a.period, b.period, Parts(a.pages), Parts(b.pages));
    NoMore();
    assert Parts(a.pages) + "" == Parts(b.pages) + "";
    PartsEnd(a.pages, b.pages, "", "");
  }

  lemma ProperParts(s: Snapshot)
    requires Proper(s)
    ensures var x := s.period + Parts(s.pages);
            StartsDigit(Parts(s.fields) + x) && !StartsDigit(x) && StartsDigit(Parts(s.pages))
  {
    hide Parts;
    PartsStart(s.fields, s.period + Parts(s.pages));
    PartsStart(s.pages, "");
    assert Parts(s.pages) + "" == Parts(s.pages);
    Words(s);
  }

  lemma NoMore()
    ensures !StartsDigit("")
  {
  }

  // ----- PromptReview -----

  class PromptReview {
    var snapshot: Option<Snapshot>
    var page: nat
    var reviewed: nat
    /** The pages displayed since the present content appeared. */
    ghost var seen: set<nat>

    ghost predicate Valid()
      reads this
    {
      match snapshot
      case None => page == 0 && reviewed == 0 && seen == {}
      case Some(s) =>
        && Proper(s) && page < reviewed <= |s.pages|
        && (forall p :: p in seen ==> p < reviewed) && (forall p :: 0 <= p < reviewed ==> p in seen)
    }

    constructor ()
      ensures Valid() && snapshot.None?
    {
      snapshot, page, reviewed, seen := None, 0, 0, {};
    }

    /** Approval is offered exactly for content of which every page was displayed since it appeared. */
    predicate CanAllow()
      requires Valid()
      reads this
      ensures CanAllow() <==>
                snapshot.Some? && snapshot.value.approvable && forall p :: 0 <= p < |snapshot.value.pages| ==> p in seen
    {
      assert snapshot.Some? && |snapshot.value.pages| - 1 in seen ==> reviewed == |snapshot.value.pages|;
      snapshot.Some? && snapshot.value.approvable && reviewed == |snapshot.value.pages|
    }

    /** A refreshed or new prompt, or the same one with another period chosen. */
    method Install(latest: Snapshot)
      requires Valid() && Proper(latest)
      modifies this
      ensures Valid() && snapshot == Some(latest)
      ensures old(snapshot).Some? && Content(old(snapshot).value) == Content(latest)
              ==> page == old(page) && seen == old(seen) + {page}
      ensures old(snapshot).None? || Content(old(snapshot).value) != Content(latest)
              ==> page == 0 && seen == {0} && (CanAllow() ==> |latest.pages| == 1)
    {
      if snapshot.None? || Content(snapshot.value) != Content(latest) {
        page, reviewed, seen := 0, 0, {};
      } else {
        SameContentSamePages(snapshot.value, latest);
      }
      snapshot := Some(latest);
      seen := seen + {page};
      if reviewed < page + 1 { reviewed := page + 1; }
    }

    method Clear()
      modifies this
      ensures Valid() && snapshot.None?
    {
      snapshot, page, reviewed, seen := None, 0, 0, {};
    }

    /** One page forward or back; anything else is refused. */
    method Move(offset: int) returns (ok: bool)
      requires Valid()
      modifies this
      ensures Valid() && snapshot == old(snapshot)
      ensures ok <==> (offset == -1 || offset == 1) && snapshot.Some?
                      && 0 <= old(page) + offset < |snapshot.value.pages|
      ensures ok ==> page == old(page) + offset && seen == old(seen) + {page}
      ensures !ok ==> page == old(page) && seen == old(seen)
    {
      if !(offset == -1 || offset == 1) || snapshot.None? || page + offset < 0
          || page + offset >= |snapshot.value.pages| {
        return false;
      }
      page := page + offset;
      seen := seen + {page};
      if reviewed < page + 1 { reviewed := page + 1; }
      return true;
    }
  }
}
