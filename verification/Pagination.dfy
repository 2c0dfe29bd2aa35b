/**
 * Keyset pagination: `list_incidents` of `aeh/service.py` over `list_rows` of `aeh/repository.py`.
 */
module Pagination {
  import opened Base
  import opened Schema
  import opened Cursor

  /** The optional query parameters; an empty text is no filter. */
  datatype Filter = Filter(service: Option<string>, state: Option<IncidentState>)
  datatype Position = Position(created: Time, id: Id)
  datatype Reply = Page(items: seq<Id>, next: Option<string>) | BadLimit | BadCursor

  predicate Given(text: Option<string>) {
    text.Some? && text.value != ""
  }

  /** The joined row passes the filters. */
  predicate Kept(db: Db, filter: Filter, i: Id) {
    && i in db.incidents && db.incidents[i].service in db.services
    && (Given(filter.service) ==> db.services[db.incidents[i].service].key == filter.service.value)
    && (filter.state.Some? ==> db.incidents[i].state == filter.state.value)
  }

  /** `ORDER BY created_at DESC, id DESC`: row `i` comes after the position. */
  predicate After(db: Db, i: Id, at: Position)
    requires i in db.incidents
  {
    db.incidents[i].createdAt < at.created || (db.incidents[i].createdAt == at.created && i < at.id)
  }

  function PositionOf(db: Db, i: Id): Position
    requires i in db.incidents
  {
    Position(db.incidents[i].createdAt, i)
  }

  function Rows(db: Db, filter: Filter, before: Option<Position>): (rows: set<Id>)
    ensures rows <= db.incidents.Keys
  {
    set i | i in db.incidents && Kept(db, filter, i) && (before.Some? ==> After(db, i, before.value))
  }

  /** The row that comes before all others. */
  ghost predicate IsNewest(db: Db, rows: set<Id>, i: Id)
    requires rows <= db.incidents.Keys
  {
    i in rows && forall k | k in rows && k != i :: After(db, k, PositionOf(db, i))
  }

  lemma {:induction false} NewestExists(db: Db, rows: set<Id>)
    requires rows <= db.incidents.Keys && rows != {}
    ensures exists i :: IsNewest(db, rows, i)
  {
    var x :| x in rows;
    if rows == {x} {
      assert IsNewest(db, rows, x);
    } else {
      NewestExists(db, rows - {x});
      var y :| IsNewest(db, rows - {x}, y);
      var newest := if After(db, x, PositionOf(db, y)) then y else x;
      forall k | k in rows && k != newest ensures After(db, k, PositionOf(db, newest)) {
        assert k == x || k in rows - {x};
      }
      assert IsNewest(db, rows, newest);
    }
  }

  ghost function Ordered(db: Db, rows: set<Id>): (s: seq<Id>)
    requires rows <= db.incidents.Keys
    ensures |s| == |rows| && forall i :: i in s <==> i in rows
  {
    if rows == {} then []
    else
      NewestExists(db, rows);
      var i :| IsNewest(db, rows, i);
      [i] + Ordered(db, rows - {i})
  }

  /** The filtered rows that a query from this position goes through. */
  ghost function Rest(db: Db, filter: Filter, before: Option<Position>): seq<Id> {
    Ordered(db, Rows(db, filter, before))
  }

  /** `list_rows`. */
  ghost function ListRows(db: Db, filter: Filter, before: Option<Position>, limit: nat): (rows: seq<Id>)
    ensures forall i | i in rows :: i in db.incidents
  {
    var all := Rest(db, filter, before);
    if |all| <= limit then all else all[..limit]
  }

  /** The position a request starts from, and whether its cursor is valid. */
  function Start(f: Format, cursor: Option<string>): (bool, Option<Position>) {
    if !Given(cursor) then (true, None)
    else
      var at := DecodeCursor(f, cursor.value);
      if at.None? then (false, None) else (true, Some(Position(at.value.0, at.value.1)))
  }

  /** `list_incidents`, with the rows themselves for their summaries. */
  ghost function ListIncidents(f: Format, db: Db, filter: Filter, cursor: Option<string>, limit: int): Reply {
    if !(1 <= limit <= 100) then BadLimit
    else if !Start(f, cursor).0 then BadCursor
    else
      var rows := ListRows(db, filter, Start(f, cursor).1, limit + 1);
      if |rows| > limit then
        Page(rows[..limit], CursorTo(f, db, rows[limit - 1]))
      else Page(rows, None)
  }

  /** The whole filtered list in order, each row once. */
  ghost predicate IsListing(db: Db, rows: set<Id>, s: seq<Id>)
    requires rows <= db.incidents.Keys
  {
    && (forall i :: i in s <==> i in rows)
    && forall a, b | 0 <= a < b < |s| :: After(db, s[b], PositionOf(db, s[a]))
  }

  /** Created later, or at the same instant with the greater id. */
  predicate Newer(db: Db, i: Id, k: Id)
    requires i in db.incidents && k in db.incidents
  {
    db.incidents[i].createdAt > db.incidents[k].createdAt || (db.incidents[i].createdAt == db.incidents[k].createdAt && i > k)
  }

  /** The rows a listing goes through, filter by filter. */
  lemma RowsExactly(db: Db, filter: Filter, i: Id)
    ensures i in Rows(db, filter, None) <==>
            && i in db.incidents && db.incidents[i].service in db.services
            && (filter.service.Some? && filter.service.value != "" ==> db.services[db.incidents[i].service].key == filter.service.value)
            && (filter.state.Some? ==> db.incidents[i].state == filter.state.value)
  {}

  /** A listing is newest first. */
  lemma ListingExactly(db: Db, rows: set<Id>, s: seq<Id>)
    requires rows <= db.incidents.Keys && IsListing(db, rows, s)
    ensures forall i | i in s :: i in db.incidents
    ensures forall a, b | 0 <= a < b < |s| :: Newer(db, s[a], s[b])
  {}

  /** A request is answered with a page exactly when its limit is from 1 to 100 and its cursor is empty or valid. */
  lemma RepliesExactly(f: Format, db: Db, filter: Filter, cursor: Option<string>, limit: int)
    ensures var reply := ListIncidents(f, db, filter, cursor, limit);
            && (reply.BadLimit? <==> limit < 1 || limit > 100)
            && (reply.BadCursor? <==> 1 <= limit <= 100 && cursor.Some? && cursor.value != "" && DecodeCursor(f, cursor.value).None?)
            && (reply.Page? ==> |reply.items| <= limit)
  {}

  lemma {:induction false} OrderedIsListing(db: Db, rows: set<Id>)
    requires rows <= db.incidents.Keys
    ensures IsListing(db, rows, Ordered(db, rows))
  {
    if rows != {} {
      var i := Ordered(db, rows)[0];
      var rest := Ordered(db, rows)[1..];
      NewestIsFirst(db, rows);
      OrderedIsListing(db, rows - {i});
    }
  }

  lemma NewestIsFirst(db: Db, rows: set<Id>)
    requires rows <= db.incidents.Keys && rows != {}
    ensures var s := Ordered(db, rows);
            IsNewest(db, rows, s[0]) && s[1..] == Ordered(db, rows - {s[0]})
  {
    NewestExists(db, rows);
  }

  /** There is one listing: strictly sorted sequences of the same rows are equal. */
  lemma {:induction false} ListingIsUnique(db: Db, rows: set<Id>, s: seq<Id>)
    requires rows <= db.incidents.Keys && IsListing(db, rows, s)
    ensures s == Ordered(db, rows)
    decreases rows
  {
    if s == [] {
      assert rows == {};
    } else {
      assert s[0] in rows;
      NewestIsFirst(db, rows);
      var i := Ordered(db, rows)[0];
      var n :| 0 <= n < |s| && s[n] == i;
      assert n == 0;
      TailIsListing(db, rows, s);
      ListingIsUnique(db, rows - {i}, s[1..]);
      assert s == [s[0]] + s[1..];
    }
  }

  lemma TailIsListing(db: Db, rows: set<Id>, s: seq<Id>)
    requires rows <= db.incidents.Keys && IsListing(db, rows, s) && s != []
    ensures IsListing(db, rows - {s[0]}, s[1..])
  {
    forall k ensures k in s[1..] <==> k in rows - {s[0]} {
      if k in rows - {s[0]} {
        var m :| 0 <= m < |s| && s[m] == k;
        assert s[1..][m - 1] == k;
      }
      if k in s[1..] {
        var m :| 0 <= m < |s| - 1 && s[1..][m] == k;
        assert After(db, s[m + 1], PositionOf(db, s[0]));
        assert s[m + 1] in s;
      }
    }
  }

  /** What comes after the row at index `k` is the rest of the list. */
  lemma RestFollows(db: Db, filter: Filter, before: Option<Position>, k: nat)
    requires k < |Rest(db, filter, before)|
    ensures Rest(db, filter, before)[k] in db.incidents
    ensures Rest(db, filter, Some(PositionOf(db, Rest(db, filter, before)[k]))) == Rest(db, filter, before)[k + 1..]
  {
    var rows := Rows(db, filter, before);
    var all := Rest(db, filter, before);
    OrderedIsListing(db, rows);
    assert all[k] in rows;
    var rest := Rows(db, filter, Some(PositionOf(db, all[k])));
    forall i ensures i in all[k + 1..] <==> i in rest {
      if i in all[k + 1..] {
        var m :| k + 1 <= m < |all| && all[m] == i;
        assert After(db, all[m], PositionOf(db, all[k]));
        assert all[m] in rows;
      }
      if i in rest {
        assert i in rows;
        var m :| 0 <= m < |all| && all[m] == i;
        assert m > k;
      }
    }
    ListingIsUnique(db, rest, all[k + 1..]);
  }

  // ---- following the cursors ----

  /** The replies to a request and to one more request for each cursor received, with any limits. */
  ghost predicate Followed(f: Format, db: Db, filter: Filter, cursor: Option<string>, limits: seq<int>, pages: seq<Reply>)
    decreases |pages|
  {
    && |limits| == |pages| > 0
    && pages[0] == ListIncidents(f, db, filter, cursor, limits[0])
    && pages[0].Page?
    && (|pages| > 1 ==> pages[0].next.Some? && Followed(f, db, filter, pages[0].next, limits[1..], pages[1..]))
  }

  ghost function Items(pages: seq<Reply>): seq<Id> {
    if pages == [] then [] else (if pages[0].Page? then pages[0].items else []) + Items(pages[1..])
  }

  /** The rows that stand after a cursor. */
  ghost function Remaining(f: Format, db: Db, filter: Filter, cursor: Option<string>): seq<Id> {
    Rest(db, filter, Start(f, cursor).1)
  }

  /** A page holds the first rows of what remains, and a cursor to the last of them when there are more. */
  lemma PageIs(f: Format, db: Db, filter: Filter, cursor: Option<string>, limit: int, page: Reply)
    requires page == ListIncidents(f, db, filter, cursor, limit) && page.Page?
    ensures var all := Remaining(f, db, filter, cursor);
            && limit >= 1
            && page.items == (if |all| <= limit then all else all[..limit])
            && (|all| <= limit <==> page.next.None?)
            && (|all| > limit ==> all[limit - 1] in db.incidents && page.next == CursorTo(f, db, all[limit - 1]))
  {
    var all := Remaining(f, db, filter, cursor);
    if |all| > limit {
      RestFollows(db, filter, Start(f, cursor).1, limit - 1);
      assert ListRows(db, filter, Start(f, cursor).1, limit + 1) == all[..limit + 1];
      assert all[..limit + 1][..limit] == all[..limit];
    }
  }

  function CursorTo(f: Format, db: Db, i: Id): Option<string>
    requires i in db.incidents
  {
    Some(EncodeCursor(f, db.incidents[i].createdAt, i))
  }

  /** One page takes its items off the front of what remains; its cursor stands before the rest. */
  lemma PageAdvances(f: Format, db: Db, filter: Filter, cursor: Option<string>, limit: int, page: Reply)
    requires Sound(f) && page == ListIncidents(f, db, filter, cursor, limit) && page.Page?
    ensures var all := Remaining(f, db, filter, cursor);
            if page.next.None? then page.items == all
            else
              && |page.items| == limit >= 1
              && all == page.items + Remaining(f, db, filter, page.next)
              && Remaining(f, db, filter, page.next) != []
  {
    var all := Remaining(f, db, filter, cursor);
    PageIs(f, db, filter, cursor, limit, page);
    if |all| > limit {
      RestFollows(db, filter, Start(f, cursor).1, limit - 1);
      CursorStarts(f, db, all[limit - 1]);
      assert Remaining(f, db, filter, page.next) == all[limit..];
      assert all == all[..limit] + all[limit..];
    }
  }

  /** A cursor made from a row starts right after that row. */
  lemma CursorStarts(f: Format, db: Db, i: Id)
    requires Sound(f) && i in db.incidents
    ensures Start(f, CursorTo(f, db, i)) == (true, Some(PositionOf(db, i)))
  {
    CursorRoundTrip(f, db.incidents[i].createdAt, i);
    CursorNotEmpty(f, db.incidents[i].createdAt, i);
  }

  lemma CursorNotEmpty(f: Format, created: Time, id: Id)
    ensures EncodeCursor(f, created, id) != ""
  {
    var data := f.iso(created) + [BAR] + f.show(id);
    var raw := data + [BAR] + Signature(f, data);
    var body := EncodeShape(raw);
    StripRepeat(body, PadCount(|raw|));
  }

  /** A page relative to the rows that remain after each cursor. */
  ghost predicate Advances(rest: Option<string> -> seq<Id>, cursor: Option<string>, page: Reply) {
    && page.Page?
    && if page.next.None? then page.items == rest(cursor)
       else page.items != [] && rest(cursor) == page.items + rest(page.next) && rest(page.next) != []
  }

  ghost predicate Chained(rest: Option<string> -> seq<Id>, cursor: Option<string>, pages: seq<Reply>)
    decreases |pages|
  {
    && pages != [] && Advances(rest, cursor, pages[0])
    && (|pages| > 1 ==> pages[0].next.Some? && Chained(rest, pages[0].next, pages[1..]))
  }

  lemma {:induction false} FollowedIsChained(f: Format, db: Db, filter: Filter, cursor: Option<string>, limits: seq<int>, pages: seq<Reply>)
    requires Sound(f) && Followed(f, db, filter, cursor, limits, pages)
    ensures Chained(c => Remaining(f, db, filter, c), cursor, pages)
    decreases |pages|
  {
    PageAdvances(f, db, filter, cursor, limits[0], pages[0]);
    if |pages| > 1 {
      FollowedIsChained(f, db, filter, pages[0].next, limits[1..], pages[1..]);
    }
  }

  /** The items of the pages followed so far, and the rows after the last cursor, are the whole list. */
  lemma {:induction false} ChainKeeps(rest: Option<string> -> seq<Id>, cursor: Option<string>, pages: seq<Reply>)
    requires Chained(rest, cursor, pages)
    ensures pages[|pages| - 1].Page?
    ensures var next := pages[|pages| - 1].next;
            rest(cursor) == Items(pages) + if next.Some? then rest(next) else []
    ensures rest(cursor) != [] ==> |pages| <= |Items(pages)|
    decreases |pages|
  {
    if |pages| > 1 {
      ChainKeeps(rest, pages[0].next, pages[1..]);
      assert pages[1..][|pages| - 2] == pages[|pages| - 1];
    } else {
      assert Items(pages[1..]) == [];
    }
  }

  /**
   * Following `nextCursor` to null on an unchanging table yields the whole filtered list in order,
   * each row once, whatever limits the caller chose.
   */
  lemma PaginationIsComplete(f: Format, db: Db, filter: Filter, limits: seq<int>, pages: seq<Reply>)
    requires Sound(f) && Followed(f, db, filter, None, limits, pages)
    ensures pages[|pages| - 1].Page?
    ensures pages[|pages| - 1].next.None? ==>
              && IsListing(db, Rows(db, filter, None), Items(pages)) && |Items(pages)| == |Rows(db, filter, None)|
              && (forall i | i in Items(pages) :: i in db.incidents)
              && (forall a, b | 0 <= a < b < |Items(pages)| :: Newer(db, Items(pages)[a], Items(pages)[b]))
  {
    FollowedIsChained(f, db, filter, None, limits, pages);
    ChainKeeps(c => Remaining(f, db, filter, c), None, pages);
    OrderedIsListing(db, Rows(db, filter, None));
    assert Items(pages) + [] == Items(pages);
    ListingExactly(db, Rows(db, filter, None), Ordered(db, Rows(db, filter, None)));
  }

  /** It ends: there are never more pages than rows, but for the one empty page of an empty list. */
  lemma PaginationEnds(f: Format, db: Db, filter: Filter, limits: seq<int>, pages: seq<Reply>)
    requires Sound(f) && Followed(f, db, filter, None, limits, pages)
    ensures |pages| <= |Rows(db, filter, None)| || (Rows(db, filter, None) == {} && |pages| == 1)
  {
    FollowedIsChained(f, db, filter, None, limits, pages);
    ChainKeeps(c => Remaining(f, db, filter, c), None, pages);
    assert |Remaining(f, db, filter, None)| == |Rows(db, filter, None)|;
    if Remaining(f, db, filter, None) == [] {
      PageAdvances(f, db, filter, None, limits[0], pages[0]);
    }
  }

  /** A request with a valid limit and a cursor from an earlier page is always answered with a page. */
  lemma FollowUpAnswered(f: Format, db: Db, filter: Filter, cursor: Option<string>, limit: int, page: Reply, again: int)
    requires Sound(f) && page == ListIncidents(f, db, filter, cursor, limit) && page.Page? && 1 <= again <= 100
    ensures page.next.Some? ==> ListIncidents(f, db, filter, page.next, again).Page?
  {
    var all := Remaining(f, db, filter, cursor);
    PageIs(f, db, filter, cursor, limit, page);
    if |all| > limit {
      CursorStarts(f, db, all[limit - 1]);
    }
  }
}
