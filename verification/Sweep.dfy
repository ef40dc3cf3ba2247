/** Cleanup pages: the keyset cursor the daemon hands out, and the sweep that follows it over a
    set of artifacts that changes from page to page. */
module Sweep {
  import opened Types
  import K = Pack

  const PAGE: nat := 48
  const PAGES: nat := 128

  // ----- identities and cursors -----

  predicate HexChar(c: char) {
    '0' <= c <= '9' || 'a' <= c <= 'f'
  }

  predicate Hex(s: string, size: nat) {
    |s| == size && forall i :: 0 <= i < |s| ==> HexChar(s[i])
  }

  predicate Identity(s: string) {
    Hex(s, 48)
  }

  datatype Cursor = Cursor(incarnation: string, scope: string, last: string, upper: string)

  /** What the daemon puts in a cursor. */
  predicate Proper(c: Cursor) {
    Identity(c.incarnation) && Hex(c.scope, 64) && Identity(c.last) && Identity(c.upper) && K.Before(c.last, c.upper)
  }

  function Encode(c: Cursor): string {
    "1:" + c.incarnation + ":" + c.scope + ":" + c.last + ":" + c.upper
  }

  /** `CleanupCursor::Parse`: a version and four fixed-width fields, fully consumed. */
  function Parse(token: string): Option<Cursor> {
    if |token| != 213 || token[..2] != "1:" || token[50] != ':' || token[115] != ':' || token[164] != ':' then None
    else
      var c := Cursor(token[2..50], token[51..115], token[116..164], token[165..]);
      if Proper(c) then Some(c) else None
  }

  /** Every cursor the daemon forms is read back, and a cursor that is read was written so. */
  lemma ParseEncode(c: Cursor)
    requires Proper(c)
    ensures Parse(Encode(c)) == Some(c)
  {
    var token := Encode(c);
    assert token[..2] == "1:";
    assert token[2..50] == c.incarnation && token[50] == ':';
    assert token[51..115] == c.scope && token[115] == ':';
    assert token[116..164] == c.last && token[164] == ':';
    assert token[165..] == c.upper;
  }

  lemma EncodeParse(token: string)
    requires Parse(token).Some?
    ensures Proper(Parse(token).value) && Encode(Parse(token).value) == token
  {
    var c := Parse(token).value;
    assert token == token[..2] + token[2..50] + [token[50]] + token[51..115] + [token[115]] + token[116..164]
                    + [token[164]] + token[165..];
  }

  // ----- pages -----

  function Sorted(ids: set<string>): seq<string>
    decreases ids
  {
    if ids == {} then [] else var k := K.Least(ids); [k] + Sorted(ids - {k})
  }

  ghost predicate Ascending(s: seq<string>) {
    forall i, j :: 0 <= i < j < |s| ==> K.Before(s[i], s[j])
  }

  lemma {:induction false} SortedIs(ids: set<string>)
    ensures Ascending(Sorted(ids)) && |Sorted(ids)| == |ids|
    ensures forall x :: x in Sorted(ids) <==> x in ids
    decreases ids
  {
    if ids != {} {
      var k := K.Least(ids);
      SortedIs(ids - {k});
    }
  }

  /** The largest identity, or nothing. */
  function Greatest(ids: set<string>): string {
    if ids == {} then "" else SortedIs(ids); Sorted(ids)[|ids| - 1]
  }

  function Range(ids: set<string>, last: string, upper: string): set<string> {
    set x | x in ids && K.Before(last, x) && (x == upper || K.Before(x, upper))
  }

  datatype Page = Page(rows: seq<string>, more: bool, next: string)

  /** `cleanup_list`, on the artifacts that wait for cleanup in the caller's scope. */
  function List(pending: set<string>, incarnation: string, scope: string, token: string): Result<Page> {
    var cursor :-
      if token == "" then Ok(Cursor(incarnation, scope, "", Greatest(pending)))
      else
        var c := Parse(token);
        var _ :- Need(c.Some?, EINVAL);
        var _ :- Need(c.value.incarnation == incarnation, ESTALE);
        var _ :- Need(c.value.scope == scope, EACCES);
        Ok(c.value);
    var range := Sorted(Range(pending, cursor.last, cursor.upper));
    if |range| <= PAGE then Ok(Page(range, false, ""))
    else Ok(Page(range[..PAGE], true, Encode(cursor.(last := range[PAGE - 1]))))
  }

  /** A page is refused exactly for a cursor that is malformed, of another incarnation or of another scope. */
  lemma ListRefuses(pending: set<string>, incarnation: string, scope: string, token: string)
    ensures var page := List(pending, incarnation, scope, token);
            && (page.Ok? <==> token == "" || exists c :: Proper(c) && token == Encode(c)
                                               && c.incarnation == incarnation && c.scope == scope)
            && (page == Err(EINVAL) <==> token != "" && forall c :: Proper(c) ==> token != Encode(c))
            && (page == Err(ESTALE) <==>
                  token != "" && exists c :: Proper(c) && token == Encode(c) && c.incarnation != incarnation)
  {
    hide Sorted, Range, Greatest, Parse, Encode, Proper;
    if Parse(token).Some? { EncodeParse(token); }
    forall c | Proper(c) && token == Encode(c) ensures Parse(token) == Some(c) { ParseEncode(c); }
  }

  lemma RangeAscends(ids: set<string>, last: string, upper: string)
    ensures var s := Sorted(Range(ids, last, upper));
            && Ascending(s)
            && forall i :: 0 <= i < |s| ==>
                 s[i] in ids && K.Before(last, s[i]) && (s[i] == upper || K.Before(s[i], upper))
  {
    var s := Sorted(Range(ids, last, upper));
    SortedIs(Range(ids, last, upper));
    forall i | 0 <= i < |s| ensures s[i] in Range(ids, last, upper) {
      assert s[i] in s;
    }
  }

  lemma GreatestIs(ids: set<string>, x: string)
    requires x in ids
    ensures Greatest(ids) in ids && (x == Greatest(ids) || K.Before(x, Greatest(ids)))
  {
    SortedIs(ids);
    var s := Sorted(ids);
    assert x in s;
    var i :| 0 <= i < |s| && s[i] == x;
    assert s[|s| - 1] in s;
    if i < |s| - 1 { assert K.Before(s[i], s[|s| - 1]); }
  }

  /** The next cursor of a page is one that `Parse` accepts. */
  lemma NextIsProper(pending: set<string>, last: string, upper: string, incarnation: string, scope: string)
    requires Identity(incarnation) && Hex(scope, 64) && Identity(upper)
    requires forall x :: x in pending ==> Identity(x)
    requires |Sorted(Range(pending, last, upper))| > PAGE
    ensures Proper(Cursor(incarnation, scope, Sorted(Range(pending, last, upper))[PAGE - 1], upper))
  {
    var s := Sorted(Range(pending, last, upper));
    RangeAscends(pending, last, upper);
    assert K.Before(s[PAGE - 1], s[PAGE]);
    assert s[PAGE] == upper || K.Before(s[PAGE], upper);
    if s[PAGE] != upper { K.BeforeTransitive(s[PAGE - 1], s[PAGE], upper); }
  }

  // ----- a sweep over changing pages -----

  /** Where a sweep stands: its cursor, what it handed to cleanup so far, and whether it is done. */
  datatype Position = Position(cursor: string, handed: seq<string>, done: bool)

  function Advance(p: Position, pending: set<string>, incarnation: string, scope: string): Position {
    var page := List(pending, incarnation, scope, p.cursor);
    if page.Err? then p
    else Position(page.value.next, p.handed + page.value.rows, !page.value.more)
  }

  /** The sweep after pages on which `ps` waited for cleanup. */
  function Swept(ps: seq<set<string>>, incarnation: string, scope: string): Position {
    if ps == [] then Position("", [], false)
    else
      var p := Swept(ps[..|ps| - 1], incarnation, scope);
      if p.done then p else Advance(p, ps[|ps| - 1], incarnation, scope)
  }

  ghost predicate Identities(ps: seq<set<string>>) {
    forall i, x :: 0 <= i < |ps| && x in ps[i] ==> Identity(x)
  }

  /** Artifact `x` waited for cleanup on every page. */
  ghost predicate Stayed(ps: seq<set<string>>, x: string) {
    forall i :: 0 <= i < |ps| ==> x in ps[i]
  }

  ghost predicate UpTo(x: string, y: string) {
    x == y || K.Before(x, y)
  }

  /** The interval a sweep has covered: everything that stayed up to `last` was handed over, and
      everything handed over lies there. */
  ghost predicate Covers(ps: seq<set<string>>, handed: seq<string>, last: string) {
    && (forall x :: Stayed(ps, x) && UpTo(x, last) ==> x in handed)
    && (forall i :: 0 <= i < |handed| ==> UpTo(handed[i], last))
  }

  /** A sweep under way: its cursor points past what it covered, short of the initial maximum. */
  ghost predicate UnderWay(ps: seq<set<string>>, p: Position, incarnation: string, scope: string) {
    if ps == [] then p == Position("", [], false)
    else exists c :: Proper(c) && c.incarnation == incarnation && c.scope == scope && c.upper == Greatest(ps[0])
           && p.cursor == Encode(c) && p.handed != [] && p.handed[|p.handed| - 1] == c.last
               && Covers(ps, p.handed, c.last)
  }

  /** A sweep that is done: everything that stayed was handed over. */
  ghost predicate Complete(ps: seq<set<string>>, p: Position) {
    p.cursor == "" && ps != [] && forall x :: Stayed(ps, x) ==> x in p.handed
  }

  /** Artifact `x` waited for cleanup on some page. */
  ghost predicate Waited(ps: seq<set<string>>, x: string) {
    exists i :: 0 <= i < |ps| && x in ps[i]
  }

  /** Nothing is handed over twice, or without waiting for it, and nothing that stayed is missed. */
  ghost predicate Exact(ps: seq<set<string>>, p: Position, incarnation: string, scope: string) {
    && Ascending(p.handed) && (forall i :: 0 <= i < |p.handed| ==> Waited(ps, p.handed[i]))
    && (if p.done then Complete(ps, p) else UnderWay(ps, p, incarnation, scope))
  }

  lemma AscendingJoins(a: seq<string>, b: seq<string>, last: string)
    requires Ascending(a) && Ascending(b)
    requires forall i :: 0 <= i < |a| ==> UpTo(a[i], last)
    requires forall i :: 0 <= i < |b| ==> K.Before(last, b[i])
    ensures Ascending(a + b)
  {
    var s := a + b;
    forall i, j | 0 <= i < j < |s| ensures K.Before(s[i], s[j]) {
      if i < |a| <= j {
        assert UpTo(a[i], last);
        if a[i] != last { K.BeforeTransitive(a[i], last, b[j - |a|]); }
      }
    }
  }

  lemma StayedPrefix(ps: seq<set<string>>, p: set<string>, x: string)
    requires Stayed(ps + [p], x)
    ensures Stayed(ps, x) && x in p
  {
    forall i | 0 <= i < |ps| ensures x in ps[i] { assert (ps + [p])[i] == ps[i]; }
    assert (ps + [p])[|ps|] == p;
  }

  /** Everything on a page up to its last row is a row. */
  lemma RowsUpTo(s: seq<string>, n: nat, x: string)
    requires Ascending(s) && 0 < n <= |s| && x in s && UpTo(x, s[n - 1])
    ensures x in s[..n]
  {
    var i :| 0 <= i < |s| && s[i] == x;
    if i >= n {
      K.BeforeStrict(s[n - 1], s[i]);
    }
    assert s[..n][i] == x;
  }

  lemma InRange(pending: set<string>, last: string, upper: string, x: string)
    requires x in pending && !UpTo(x, last) && UpTo(x, upper)
    ensures x in Sorted(Range(pending, last, upper))
  {
    K.BeforeTotal(x, last);
    SortedIs(Range(pending, last, upper));
  }

  lemma UpToTransitive(x: string, y: string, z: string)
    requires UpTo(x, y) && UpTo(y, z)
    ensures UpTo(x, z)
  {
    if x != y && y != z { K.BeforeTransitive(x, y, z); }
  }

  /** A full page moves the covered interval up to its last row. */
  lemma FullPage(ps: seq<set<string>>, handed: seq<string>, pending: set<string>, last: string, upper: string)
    requires Ascending(handed) && forall i :: 0 <= i < |handed| ==> UpTo(handed[i], last)
    requires forall x :: Stayed(ps, x) && x in pending && UpTo(x, last) ==> x in handed
    requires |Sorted(Range(pending, last, upper))| > PAGE
    ensures var rows := Sorted(Range(pending, last, upper))[..PAGE];
            Ascending(handed + rows) && Covers(ps + [pending], handed + rows, rows[PAGE - 1])
                && K.Before(last, rows[PAGE - 1])
  {
    hide Range;
    var s := Sorted(Range(pending, last, upper));
    var rows := s[..PAGE];
    var end := rows[PAGE - 1];
    RangeAscends(pending, last, upper);
    AscendingJoins(handed, rows, last);
    forall x | Stayed(ps + [pending], x) && UpTo(x, end) ensures x in handed + rows {
      StayedPrefix(ps, pending, x);
      if !UpTo(x, last) {
        UpToTransitive(x, end, upper);
        InRange(pending, last, upper, x);
        RowsUpTo(s, PAGE, x);
      }
    }
    forall i | 0 <= i < |handed + rows| ensures UpTo((handed + rows)[i], end) {
      if i < |handed| { UpToTransitive(handed[i], last, end); }
    }
  }

  /** The last page covers the rest of the initial range. */
  lemma LastPage(ps: seq<set<string>>, handed: seq<string>, pending: set<string>, last: string, upper: string)
    requires Ascending(handed) && forall i :: 0 <= i < |handed| ==> UpTo(handed[i], last)
    requires forall x :: Stayed(ps, x) && x in pending && UpTo(x, last) ==> x in handed
    requires forall x :: Stayed(ps + [pending], x) ==> UpTo(x, upper)
    ensures var rows := Sorted(Range(pending, last, upper));
            Ascending(handed + rows) && forall x :: Stayed(ps + [pending], x) ==> x in handed + rows
  {
    hide Range;
    var rows := Sorted(Range(pending, last, upper));
    RangeAscends(pending, last, upper);
    AscendingJoins(handed, rows, last);
    forall x | Stayed(ps + [pending], x) ensures x in handed + rows {
      StayedPrefix(ps, pending, x);
      if !UpTo(x, last) { InRange(pending, last, upper, x); }
    }
  }

  lemma StayedIsBounded(ps: seq<set<string>>, x: string)
    requires ps != [] && Stayed(ps, x)
    ensures UpTo(x, Greatest(ps[0]))
  {
    GreatestIs(ps[0], x);
  }

  lemma RowsWaited(ps: seq<set<string>>, handed: seq<string>, pending: set<string>, last: string, upper: string, n: nat)
    requires (forall i :: 0 <= i < |handed| ==> Waited(ps, handed[i])) && n <= |Sorted(Range(pending, last, upper))|
    ensures var all := handed + Sorted(Range(pending, last, upper))[..n];
            forall i :: 0 <= i < |all| ==> Waited(ps + [pending], all[i])
  {
    RangeAscends(pending, last, upper);
    var all := handed + Sorted(Range(pending, last, upper))[..n];
    var more := ps + [pending];
    forall i | 0 <= i < |all| ensures Waited(more, all[i]) {
      if i < |handed| {
        var j :| 0 <= j < |ps| && handed[i] in ps[j];
        assert all[i] in more[j];
      } else {
        assert all[i] in more[|ps|];
      }
    }
  }

  /** The page at an explicit place of the range. */
  lemma PageAt(ps: seq<set<string>>, handed: seq<string>, pending: set<string>, c: Cursor)
    requires Identity(c.incarnation) && Hex(c.scope, 64)
    requires forall x :: x in pending ==> Identity(x)
    requires Ascending(handed) && (forall i :: 0 <= i < |handed| ==> UpTo(handed[i], c.last) && Waited(ps, handed[i]))
    requires forall x :: Stayed(ps, x) && x in pending && UpTo(x, c.last) ==> x in handed
    requires c.upper == Greatest((ps + [pending])[0])
    requires ps != [] ==> Identity(c.upper)
    ensures var s := Sorted(Range(pending, c.last, c.upper));
            var p := if |s| <= PAGE then Position("", handed + s, true)
                     else Position(Encode(c.(last := s[PAGE - 1])), handed + s[..PAGE], false);
            Exact(ps + [pending], p, c.incarnation, c.scope)
  {
    hide Range, Sorted, Proper, Encode, Greatest, Waited;
    var s := Sorted(Range(pending, c.last, c.upper));
    RowsWaited(ps, handed, pending, c.last, c.upper, if |s| <= PAGE then |s| else PAGE);
    assert s[..|s|] == s;
    if |s| <= PAGE {
      forall x | Stayed(ps + [pending], x) ensures UpTo(x, c.upper) { StayedIsBounded(ps + [pending], x); }
      LastPage(ps, handed, pending, c.last, c.upper);
    } else {
      UpperIsIdentity(ps, pending, c);
      FullPage(ps, handed, pending, c.last, c.upper);
      NextIsProper(pending, c.last, c.upper, c.incarnation, c.scope);
    }
  }

  lemma UpperIsIdentity(ps: seq<set<string>>, pending: set<string>, c: Cursor)
    requires forall x :: x in pending ==> Identity(x)
    requires c.upper == Greatest((ps + [pending])[0]) && (ps != [] ==> Identity(c.upper))
    requires |Sorted(Range(pending, c.last, c.upper))| > PAGE
    ensures Identity(c.upper)
  {
    var s := Sorted(Range(pending, c.last, c.upper));
    RangeAscends(pending, c.last, c.upper);
    assert s[0] in pending;
    if ps == [] {
      GreatestIs(pending, s[0]);
      assert (ps + [pending])[0] == pending;
    }
  }

  /** A page never fails in a sweep that follows its own cursor, and keeps the sweep exact. */
  lemma AdvanceExact(ps: seq<set<string>>, p: Position, pending: set<string>, incarnation: string, scope: string)
    requires Identity(incarnation) && Hex(scope, 64) && forall x :: x in pending ==> Identity(x)
    requires Exact(ps, p, incarnation, scope) && !p.done
    ensures List(pending, incarnation, scope, p.cursor).Ok?
    ensures Exact(ps + [pending], Advance(p, pending, incarnation, scope), incarnation, scope)
    ensures var q := Advance(p, pending, incarnation, scope); q.done || q.cursor != p.cursor
  {
    hide Range, Sorted, Greatest, Covers, Waited;
    if ps == [] {
      var c := Cursor(incarnation, scope, "", Greatest(pending));
      assert (ps + [pending])[0] == pending;
      PageAt(ps, p.handed, pending, c);
      assert Encode(c) != "";
    } else {
      var c :| Proper(c) && c.incarnation == incarnation && c.scope == scope && c.upper == Greatest(ps[0])
               && p.cursor == Encode(c) && p.handed != [] && p.handed[|p.handed| - 1] == c.last
                   && Covers(ps, p.handed, c.last);
      ParseEncode(c);
      assert Encode(c) != "";
      assert (ps + [pending])[0] == ps[0];
      CoveredUpTo(ps, p.handed, c.last);
      PageAt(ps, p.handed, pending, c);
      CursorMoves(pending, c);
    }
  }

  lemma CoveredUpTo(ps: seq<set<string>>, handed: seq<string>, last: string)
    requires Covers(ps, handed, last)
    ensures forall i :: 0 <= i < |handed| ==> UpTo(handed[i], last)
    ensures forall x :: Stayed(ps, x) && UpTo(x, last) ==> x in handed
  {
  }

  /** The cursor of the next page is another one, further on. */
  lemma CursorMoves(pending: set<string>, c: Cursor)
    requires Proper(c)
    ensures var s := Sorted(Range(pending, c.last, c.upper));
            |s| > PAGE ==> K.Before(c.last, s[PAGE - 1]) && Encode(c.(last := s[PAGE - 1])) != Encode(c)
  {
    hide Range, Sorted;
    var s := Sorted(Range(pending, c.last, c.upper));
    RangeAscends(pending, c.last, c.upper);
    if |s| > PAGE {
      K.BeforeStrict(c.last, s[PAGE - 1]);
      var d := c.(last := s[PAGE - 1]);
      if Encode(d) == Encode(c) { SameCursor(c, d); }
    }
  }

  lemma SameCursor(c: Cursor, d: Cursor)
    requires Identity(c.incarnation) && d == c.(last := d.last) && Hex(c.scope, 64) && Identity(c.last)
             && Encode(c) == Encode(d)
    ensures c == d
  {
    var token := Encode(c);
    assert |c.last| + |c.upper| == |d.last| + |d.upper|;
    assert token[116..164] == c.last;
    assert token[116..164] == d.last;
  }

  /** Whatever the pages of a sweep find, it is exact at every point up to its end. */
  lemma {:induction false} SweptIsExact(ps: seq<set<string>>, incarnation: string, scope: string)
    requires Identity(incarnation) && Hex(scope, 64) && Identities(ps)
    requires ps != [] ==> !Swept(ps[..|ps| - 1], incarnation, scope).done
    ensures Exact(ps, Swept(ps, incarnation, scope), incarnation, scope)
  {
    hide Exact, Advance, Hex;
    if ps == [] {
      NothingSwept(incarnation, scope);
    } else {
      var before, pending := ps[..|ps| - 1], ps[|ps| - 1];
      SweptIsExact(before, incarnation, scope);
      AdvanceExact(before, Swept(before, incarnation, scope), pending, incarnation, scope);
      assert ps == before + [pending];
    }
  }

  // ----- CleanupSweep -----

  /** What the outside world is like at one fetch: whether it fails, the database that answers,
      the artifacts waiting there, and what deleting each of them gives. */
  datatype Moment = Moment(error: Option<Status>, incarnation: string, pending: set<string>, outcome: string -> int)

  datatype Verdict = Finished(failure: int) | InProgress | Malformed | Mismatch | Failed(status: Status)

  function FirstFailure(failure: int, rows: seq<string>, outcome: string -> int): int {
    if rows == [] then failure
    else
      var before := FirstFailure(failure, rows[..|rows| - 1], outcome);
      if before == 0 then outcome(rows[|rows| - 1]) else before
  }

  /** A place a sweep has been at before its present cursor. */
  ghost predicate Behind(p: string, cursor: string) {
    p == cursor || p == "" || (Parse(p).Some? && Parse(cursor).Some?
        && K.Before(Parse(p).value.last, Parse(cursor).value.last))
  }

  /** The cursor after a page is none of those before it. */
  lemma CursorIsNew(ps: seq<set<string>>, p: Position, pending: set<string>, incarnation: string, scope: string,
                    earlier: string)
    requires Identity(incarnation) && Hex(scope, 64) && forall x :: x in pending ==> Identity(x)
    requires Exact(ps, p, incarnation, scope) && !p.done && Behind(earlier, p.cursor)
    ensures var q := Advance(p, pending, incarnation, scope);
            !q.done ==> q.cursor != earlier && q.cursor != "" && Behind(earlier, q.cursor)
  {
    hide Range, Sorted, Greatest, Covers, Waited, Ascending, Parse;
    var q := Advance(p, pending, incarnation, scope);
    AdvanceExact(ps, p, pending, incarnation, scope);
    NoEmptyCursor();
    if !q.done {
      assert UnderWay(ps + [pending], q, incarnation, scope);
      var d :| Proper(d) && q.cursor == Encode(d) && q.handed != [] && q.handed[|q.handed| - 1] == d.last;
      ParseEncode(d);
      assert Encode(d) != "";
      if ps != [] {
        var c :| Proper(c) && p.cursor == Encode(c) && p.handed != [] && p.handed[|p.handed| - 1] == c.last;
        ParseEncode(c);
        HandedGrows(ps, p, pending, incarnation, scope);
        if earlier != p.cursor && earlier != "" { K.BeforeTransitive(Parse(earlier).value.last, c.last, d.last); }
        K.BeforeStrict(c.last, d.last);
        if earlier != p.cursor && earlier != "" { K.BeforeStrict(Parse(earlier).value.last, d.last); }
      }
    }
  }

  lemma NoEmptyCursor()
    ensures Parse("").None?
  {
  }

  lemma BehindItself(p: string)
    ensures Behind(p, p)
  {
  }

  lemma HandedGrows(ps: seq<set<string>>, p: Position, pending: set<string>, incarnation: string, scope: string)
    requires Identity(incarnation) && Hex(scope, 64) && forall x :: x in pending ==> Identity(x)
    requires Exact(ps, p, incarnation, scope) && !p.done && ps != [] && !Advance(p, pending, incarnation, scope).done
    ensures var q := Advance(p, pending, incarnation, scope);
            p.handed != [] && q.handed != [] && K.Before(p.handed[|p.handed| - 1], q.handed[|q.handed| - 1])
  {
    hide Range, Sorted, Greatest, Covers, Waited, Parse;
    var q := Advance(p, pending, incarnation, scope);
    AdvanceExact(ps, p, pending, incarnation, scope);
    var rows := List(pending, incarnation, scope, p.cursor).value.rows;
    assert q.handed == p.handed + rows && |rows| == PAGE;
    assert K.Before(q.handed[|p.handed| - 1], q.handed[|q.handed| - 1]);
  }

  /** A cursor of another database is refused. */
  lemma OtherDatabase(ps: seq<set<string>>, p: Position, pending: set<string>, incarnation: string, scope: string,
                      other: string)
    requires Exact(ps, p, incarnation, scope) && !p.done && ps != [] && other != incarnation
    ensures List(pending, other, scope, p.cursor) == Err(ESTALE)
  {
    hide Range, Sorted, Greatest, Covers, Waited, Ascending;
    var c :| Proper(c) && c.incarnation == incarnation && p.cursor == Encode(c);
    ParseEncode(c);
    assert Encode(c) != "";
  }

  lemma NothingSwept(incarnation: string, scope: string)
    ensures Exact([], Position("", [], false), incarnation, scope)
  {
  }

  lemma ExactIs(ps: seq<set<string>>, p: Position, incarnation: string, scope: string)
    requires Exact(ps, p, incarnation, scope) && p.done
    ensures Ascending(p.handed) && forall x :: Stayed(ps, x) ==> x in p.handed
  {
  }

  /** A page that is answered is well-formed, comes from the sweep's own database, and keeps the
      sweep exact. */
  lemma PageIsSound(ps: seq<set<string>>, p: Position, m: Moment, incarnation: string, scope: string)
    requires Identity(incarnation) && Hex(scope, 64) && (forall x :: x in m.pending ==> Identity(x))
    requires Exact(ps, p, incarnation, scope) && !p.done && (ps == [] ==> incarnation == m.incarnation)
    requires List(m.pending, m.incarnation, scope, p.cursor).Ok?
    ensures m.incarnation == incarnation
    ensures var page := List(m.pending, m.incarnation, scope, p.cursor).value;
            && |page.rows| <= PAGE && "" !in page.rows
            && (page.more ==> page.rows != [] && page.next != "") && (!page.more ==> page.next == "")
            && Advance(p, m.pending, incarnation, scope) == Position(page.next, p.handed + page.rows, !page.more)
            && Exact(ps + [m.pending], Position(page.next, p.handed + page.rows, !page.more), incarnation, scope)
  {
    hide Exact, Range, Sorted, Greatest, Parse;
    if m.incarnation != incarnation { OtherDatabase(ps, p, m.pending, incarnation, scope, m.incarnation); }
    AdvanceExact(ps, p, m.pending, incarnation, scope);
    RowsAreNames(m.pending, incarnation, scope, p.cursor);
  }

  lemma RowsAreNames(pending: set<string>, incarnation: string, scope: string, token: string)
    requires (forall x :: x in pending ==> Identity(x)) && List(pending, incarnation, scope, token).Ok?
    ensures "" !in List(pending, incarnation, scope, token).value.rows
  {
    var cursor := if token == "" then Cursor(incarnation, scope, "", Greatest(pending)) else Parse(token).value;
    RangeAscends(pending, cursor.last, cursor.upper);
  }

  predicate NoneTwice(s: seq<string>) {
    forall i, j :: 0 <= i < j < |s| ==> s[i] != s[j]
  }

  /** In an ascending sequence an element occurs once. */
  lemma AscendingOnce(s: seq<string>)
    requires Ascending(s)
    ensures NoneTwice(s)
  {
    forall i, j | 0 <= i < j < |s| ensures s[i] != s[j] {
      K.BeforeStrict(s[i], s[j]);
    }
  }

  /** A page that breaks the rules of the protocol. */
  predicate Misshapen(page: Page) {
    || |page.rows| > PAGE || (page.more && (page.rows == [] || page.next == ""))
    || (!page.more && page.next != "") || "" in page.rows
  }

  class Progress {
    var scope: string
    var cursor: string
    var failure: int
    var finished: bool
    ghost var pages: seq<set<string>>
    ghost var handed: seq<string>
    ghost var incarnation: string

    /** The pages the sweep has seen explain its cursor and what it has handed to cleanup. */
    ghost predicate Valid()
      reads this
    {
      && Hex(scope, 64) && Identity(incarnation)
      && (pages == [] ==> cursor == "" && handed == [])
      && (pages != [] ==> Exact(pages, Position(cursor, handed, finished), incarnation, scope))
    }

    constructor (scope: string)
      requires Hex(scope, 64)
      ensures Valid() && finished && pages == []
    {
      this.scope, cursor, failure, finished := scope, "", 0, true;
      pages, handed, incarnation := [], [], seq(48, _ => '0');
    }

    /** Hands the rows of a page to cleanup and remembers the first failure. */
    method Hand(rows: seq<string>, outcome: string -> int)
      modifies this`failure, this`handed
      ensures handed == old(handed) + rows && failure == FirstFailure(old(failure), rows, outcome)
    {
      assert rows[..0] == [];
      for i := 0 to |rows|
        invariant handed == old(handed) + rows[..i] && failure == FirstFailure(old(failure), rows[..i], outcome)
      {
        assert rows[..i + 1][..i] == rows[..i] && rows[..i + 1][i] == rows[i];
        var status := outcome(rows[i]);
        handed := handed + [rows[i]];
        if failure == 0 { failure := status; }
        assert old(handed) + rows[..i] + [rows[i]] == old(handed) + rows[..i + 1];
      }
      assert rows[..|rows|] == rows;
    }

    /** One page: it is fetched, checked and handed over, and the cursor moves on; or the sweep ends, or
        the fetch fails. */
    method Page(m: Moment, positions: set<string>) returns (r: Option<Verdict>)
      requires Valid() && !finished && forall p :: p in positions ==> Behind(p, cursor)
      requires Identity(m.incarnation) && forall x :: x in m.pending ==> Identity(x)
      modifies this
      ensures Valid() && scope == old(scope) && old(pages) <= pages && old(handed) <= handed
      ensures r.None? ==> !finished && forall p :: p in positions ==> Behind(p, cursor)
      ensures r.Some? ==> r.value.Finished? || r.value.Failed?
      ensures r.Some? ==> (r.value.Finished? <==> finished)
      ensures finished ==> Ascending(handed) && NoneTwice(handed) && forall x :: Stayed(pages, x) ==> x in handed
    {
      hide Exact, List, Advance, Behind, Hex, Ascending, NoneTwice, Stayed;
      if m.error.Some? { return Some(Failed(m.error.value)); }
      var page := List(m.pending, m.incarnation, scope, cursor);
      if page.Err? { return Some(Failed(page.status)); }
      ghost var p := Position(cursor, handed, false);
      if pages == [] { incarnation := m.incarnation; NothingSwept(incarnation, scope); }
      PageIsSound(pages, p, m, incarnation, scope);
      if Misshapen(page.value) { return Some(Malformed); }
      Hand(page.value.rows, m.outcome);
      pages := pages + [m.pending];
      if !page.value.more {
        cursor, finished := "", true;
        ExactIs(pages, Position(cursor, handed, true), incarnation, scope);
        AscendingOnce(handed);
        return Some(Finished(failure));
      }
      forall e | e in positions ensures page.value.next != e && Behind(e, page.value.next) {
        CursorIsNew(pages[..|pages| - 1], p, m.pending, incarnation, scope, e);
      }
      if page.value.next in positions { return Some(Malformed); }
      cursor := page.value.next;
      return None;
    }

    /** One invocation: at most so many pages, from where the last one stopped. `world(k)` is the
        outside world at fetch `k`, and `digest` what the daemon makes of the caller's scope.
        A sweep that finishes, in this invocation or after several, has handed over everything
        that waited for cleanup on all of its pages, and nothing twice. */
    method CleanupSweep(digest: string, world: nat -> Moment, start: nat) returns (status: Verdict, used: nat)
      requires Valid() && Hex(digest, 64)
      requires forall k :: Identity(world(k).incarnation) && forall x :: x in world(k).pending ==> Identity(x)
      modifies this
      ensures Valid()
      ensures !status.Malformed?
      ensures status.Mismatch? <==> !old(finished) && old(scope) != digest
      ensures status.Mismatch? ==>
                finished == old(finished) && cursor == old(cursor) && pages == old(pages) && handed == old(handed)
      ensures status.Finished? ==> finished && Ascending(handed) && NoneTwice(handed)
      ensures status.Finished? ==> forall x :: Stayed(pages, x) ==> x in handed
      ensures !status.Finished? ==> !finished
      ensures used <= PAGES && (status.InProgress? ==> used == PAGES)
      ensures !old(finished) ==> old(pages) <= pages && old(handed) <= handed
    {
      hide Exact, List, Advance, Behind, Hex, Ascending, NoneTwice, Stayed;
      used := 0;
      if finished {
        scope, cursor, failure, finished := digest, "", 0, false;
        pages, handed := [], [];
      } else if scope != digest {
        return Mismatch, 0;
      }
      var positions := {cursor};
      BehindItself(cursor);
      while used < PAGES
        invariant used <= PAGES && Valid() && !finished && scope == digest
        invariant !old(finished) ==> old(pages) <= pages && old(handed) <= handed
        invariant forall p :: p in positions ==> Behind(p, cursor)
      {
        var r := Page(world(start + used), positions);
        used := used + 1;
        if r.Some? { return r.value, used; }
        positions := positions + {cursor};
        BehindItself(cursor);
      }
      return InProgress, used;
    }
  }
}
