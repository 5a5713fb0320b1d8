/**
 Listing the event history page by page: the keyset query, the clamps on its limit, the look-ahead
 row and the token that continues the listing, over a table that changes between pages.
 */
module EventHistory {
  import opened Wrappers
  import opened Cursor
  import opened Calendar
  import opened Sets

  /** `readable` says whether the stored trigger converts to an API message. */
  datatype Row = Row(id: int, project: string, func: int, status: string, createdAt: Time, readable: bool)

  /** Where a row stands in the listing: its creation instant and its id. */
  type Key = (int, int)

  predicate ValidRow(r: Row) {
    ValidTime(r.createdAt) && ValidId(r.id)
  }

  function KeyOf(r: Row): Key {
    (Instant(r.createdAt), r.id)
  }

  predicate Before(a: Key, b: Key) {
    a.0 < b.0 || (a.0 == b.0 && a.1 < b.1)
  }

  /** The table, by primary key. */
  type Table = map<int, Row>

  predicate ValidTable(t: Table) {
    forall i :: i in t ==> t[i].id == i && ValidRow(t[i])
  }

  datatype Filter = Filter(project: string, func: Option<int>, status: Option<string>, since: Option<int>, until: Option<int>)

  predicate Selected(f: Filter, r: Row) {
    && r.project == f.project
    && (f.func.Some? ==> r.func == f.func.value)
    && (f.status.Some? ==> r.status == f.status.value)
    && (f.since.Some? ==> Instant(r.createdAt) >= f.since.value)
    && (f.until.Some? ==> Instant(r.createdAt) <= f.until.value)
  }

  predicate Under(k: Key, cursor: Option<Key>) {
    cursor.Some? ==> Before(k, cursor.value)
  }

  predicate Eligible(t: Table, f: Filter, cursor: Option<Key>, id: int) {
    id in t && Selected(f, t[id]) && Under(KeyOf(t[id]), cursor)
  }

  predicate Descending(rows: seq<Row>) {
    forall i, j :: 0 <= i < j < |rows| ==> Before(KeyOf(rows[j]), KeyOf(rows[i]))
  }

  predicate AllEligible(t: Table, f: Filter, cursor: Option<Key>, rows: seq<Row>) {
    forall i :: 0 <= i < |rows| ==> Eligible(t, f, cursor, rows[i].id) && t[rows[i].id] == rows[i]
  }

  /** What the SQL text asks for: the first `limit` eligible rows in descending order. */
  ghost predicate Answers(t: Table, f: Filter, cursor: Option<Key>, limit: int, rows: seq<Row>) {
    && AllEligible(t, f, cursor, rows)
    && Descending(rows)
    && |rows| <= limit
    && (forall id :: Eligible(t, f, cursor, id) && t[id] !in rows ==>
          |rows| == limit && forall i :: 0 <= i < |rows| ==> Before(KeyOf(t[id]), KeyOf(rows[i])))
  }

  // The handler

  /** UUIDPaginationFromProto: the page size a request means, if it is a valid one. */
  function PageSize(requested: int): Option<int> {
    if requested < 0 then None
    else if requested == 0 then Some(20)
    else if requested > 100 then Some(100)
    else Some(requested)
  }

  /** The service's own clamp on the limit it passes to the query. */
  function ServiceLimit(limit: int): int {
    if limit <= 0 then 21 else if limit > 101 then 101 else limit
  }

  datatype Page = Page(rows: seq<Row>, next: string)

  datatype ListError = BadPageSize | BadPageToken | Unreadable

  function CursorOf(token: string): Result<Option<(Time, int)>, ListError> {
    if token == "" then Ok(None)
    else
      var c := DecodeCursor(token);
      if c.Err? then Err(BadPageToken) else Ok(Some(c.value))
  }

  function TokenOf(r: Row): string
    requires ValidRow(r)
  {
    EncodeCursor(r.createdAt, r.id)
  }

  predicate ValidRows(rows: seq<Row>) {
    forall i :: 0 <= i < |rows| ==> ValidRow(rows[i])
  }

  predicate AllReadable(rows: seq<Row>) {
    forall i :: 0 <= i < |rows| ==> rows[i].readable
  }

  function Shown(rows: seq<Row>, size: int): seq<Row>
    requires size >= 0
  {
    if |rows| > size then rows[..size] else rows
  }

  /** The page made of a query answer. */
  function PageOf(rows: seq<Row>, size: int): Result<Page, ListError>
    requires size >= 1 && ValidRows(rows)
  {
    var shown := Shown(rows, size);
    if !AllReadable(shown) then Err(Unreadable)
    else
      Ok(Page(shown,
              if |rows| > size then TokenOf(rows[size - 1]) else ""))
  }

  method EventRecordsToProto(rows: seq<Row>, hasMore: bool) returns (r: Result<Page, ListError>)
    requires ValidRows(rows)
    ensures r == if !AllReadable(rows) then Err(Unreadable)
                 else Ok(Page(rows, if hasMore && |rows| > 0 then TokenOf(rows[|rows| - 1]) else ""))
  {
    var records: seq<Row> := [];
    for i := 0 to |rows|
      invariant AllReadable(rows[..i]) && records == rows[..i]
    {
      if !rows[i].readable {
        return Err(Unreadable);
      }
      records := records + [rows[i]];
    }
    assert records == rows;
    var next := "";
    if hasMore && |rows| > 0 {
      next := TokenOf(rows[|rows| - 1]);
    }
    r := Ok(Page(records, next));
  }

  /** `rows` is what the database answers to the query the handler makes. */
  method ListEventHistory(ghost t: Table, ghost f: Filter, requested: int, token: string, rows: seq<Row>)
    returns (r: Result<Page, ListError>)
    requires ValidTable(t) && ValidRows(rows)
    requires PageSize(requested).Some? && CursorOf(token).Ok? ==>
               Answers(t, f, Position(CursorOf(token).value), ServiceLimit(PageSize(requested).value + 1), rows)
    ensures r == if PageSize(requested).None? then Err(BadPageSize)
                 else if CursorOf(token).Err? then Err(BadPageToken)
                 else PageOf(rows, PageSize(requested).value)
  {
    var size := PageSize(requested);
    if size.None? {
      return Err(BadPageSize);
    }
    var cursor := CursorOf(token);
    if cursor.Err? {
      return Err(BadPageToken);
    }
    var hasMore := |rows| > size.value;
    var shown := if hasMore then rows[..size.value] else rows;
    r := EventRecordsToProto(shown, hasMore);
  }

  /** The position a decoded cursor stands for. */
  function Position(c: Option<(Time, int)>): Option<Key> {
    if c.None? then None else Some((Instant(c.value.0), c.value.1))
  }

  /** As many rows as asked for up to a hundred, or twenty by default. */
  predicate IsPageSize(size: int, requested: int) {
    if requested == 0 then size == 20
    else size <= requested && size <= 100 && (size == requested || size == 100)
  }

  /** The clamps leave room for the look-ahead row: the query is always asked for one row more than shown. */
  lemma LookAheadFits(requested: int)
    ensures PageSize(requested).None? <==> requested < 0
    ensures PageSize(requested).Some? ==>
      var size := PageSize(requested).value;
      && IsPageSize(size, requested) && 1 <= size <= 100 && ServiceLimit(size + 1) == size + 1
  {
  }

  lemma SameAtPosition(t: Table, f: Filter, cursor: Option<Key>, limit: int, a: seq<Row>, b: seq<Row>, i: nat)
    requires ValidTable(t) && Answers(t, f, cursor, limit, a) && Answers(t, f, cursor, limit, b)
    requires i < |a| && i < |b| && a[..i] == b[..i]
    ensures a[i] == b[i]
  {
    hide KeyOf, Eligible;
  }

  lemma {:induction false} SamePrefix(t: Table, f: Filter, cursor: Option<Key>, limit: int, a: seq<Row>, b: seq<Row>, i: nat)
    requires ValidTable(t) && Answers(t, f, cursor, limit, a) && Answers(t, f, cursor, limit, b)
    requires i <= |a| && i <= |b|
    ensures a[..i] == b[..i]
    decreases i
  {
    if i > 0 {
      SamePrefix(t, f, cursor, limit, a, b, i - 1);
      SameAtPosition(t, f, cursor, limit, a, b, i - 1);
    }
  }

  lemma {:induction false} DistinctFit(b: seq<Row>, a: seq<Row>)
    requires forall i, j :: 0 <= i < j < |b| ==> b[i] != b[j]
    requires forall i :: 0 <= i < |b| ==> b[i] in a
    ensures |b| <= |a|
    decreases |b|
  {
    if b != [] {
      var last := b[|b| - 1];
      var k :| 0 <= k < |a| && a[k] == last;
      var rest := a[..k] + a[k + 1..];
      forall i | 0 <= i < |b| - 1
        ensures b[i] in rest
      {
        var m :| 0 <= m < |a| && a[m] == b[i];
        assert m != k;
        assert if m < k then rest[m] == b[i] else rest[m - 1] == b[i];
      }
      DistinctFit(b[..|b| - 1], rest);
    }
  }

  lemma NotLonger(t: Table, f: Filter, cursor: Option<Key>, limit: int, a: seq<Row>, b: seq<Row>)
    requires ValidTable(t) && Answers(t, f, cursor, limit, a) && Answers(t, f, cursor, limit, b)
    ensures |b| <= |a|
  {
    if |a| < limit {
      forall i | 0 <= i < |b|
        ensures b[i] in a
      {
        assert Eligible(t, f, cursor, b[i].id);
      }
      assert forall i, j :: 0 <= i < j < |b| ==> Before(KeyOf(b[j]), KeyOf(b[i]));
      DistinctFit(b, a);
    }
  }

  /** The SQL text leaves no choice: two answers to one query are the same rows in the same order. */
  lemma AnswerUnique(t: Table, f: Filter, cursor: Option<Key>, limit: int, a: seq<Row>, b: seq<Row>)
    requires ValidTable(t) && Answers(t, f, cursor, limit, a) && Answers(t, f, cursor, limit, b)
    ensures a == b
  {
    NotLonger(t, f, cursor, limit, a, b);
    NotLonger(t, f, cursor, limit, b, a);
    SamePrefix(t, f, cursor, limit, a, b, |a|);
    assert a[..|a|] == a && b[..|a|] == b;
  }

  // Following the tokens

  /** One request of a listing: the table it met, the page size it asked for, the rows it was answered. */
  datatype Visit = Visit(table: Table, requested: int, rows: seq<Row>)

  /** The request was answered with a page. */
  predicate Paged(v: Visit) {
    ValidRows(v.rows) && PageSize(v.requested).Some? && PageOf(v.rows, PageSize(v.requested).value).Ok?
  }

  ghost predicate Visited(f: Filter, cursor: Option<Key>, v: Visit) {
    && ValidTable(v.table) && Paged(v)
    && Answers(v.table, f, cursor, ServiceLimit(PageSize(v.requested).value + 1), v.rows)
  }

  function PageAt(v: Visit): Page {
    if Paged(v) then PageOf(v.rows, PageSize(v.requested).value).value else Page([], "")
  }

  /** The position the next request starts from: the token goes out as text and comes back. */
  function Resume(token: string): Option<Key> {
    var c := CursorOf(token);
    if c.Err? then None else Position(c.value)
  }

  /** A listing that follows each page's token, as far as `visits` go. */
  ghost predicate Listing(f: Filter, cursor: Option<Key>, visits: seq<Visit>)
    decreases |visits|
  {
    visits != [] ==>
      && Visited(f, cursor, visits[0])
      && (|visits| > 1 ==> PageAt(visits[0]).next != "")
      && Listing(f, Resume(PageAt(visits[0]).next), visits[1..])
  }

  /** The listing went on until a page came without a token. */
  predicate Ends(visits: seq<Visit>) {
    visits != [] && PageAt(visits[|visits| - 1]).next == ""
  }

  function Returned(visits: seq<Visit>): seq<Row>
    decreases |visits|
  {
    if visits == [] then [] else PageAt(visits[0]).rows + Returned(visits[1..])
  }

  lemma ResumeAfter(r: Row)
    requires ValidRow(r)
    ensures TokenOf(r) != "" && Resume(TokenOf(r)) == Some(KeyOf(r))
  {
    CursorRoundTrip(r.createdAt, r.id);
    hide EncodeCursor, Instant, ValidTime, ValidId;
    EmptyTokenFails();
  }

  lemma EmptyTokenFails()
    ensures DecodeCursor("").Err?
  {
  }

  /** A page is cut from its answer; its token, if any, continues after its last row. */
  lemma PageShape(v: Visit)
    requires Paged(v)
    ensures var p, size := PageAt(v), PageSize(v.requested).value;
      && size >= 1 && ValidRows(p.rows) && p.rows == Shown(v.rows, size)
      && (p.next == "" <==> |v.rows| <= size)
      && (p.next != "" ==> Resume(p.next) == Some(KeyOf(p.rows[size - 1])))
  {
    SizePositive(v);
    hide TokenOf, Resume, KeyOf, ValidRow, PageSize;
    var size := PageSize(v.requested).value;
    if |v.rows| > size {
      assert ValidRow(v.rows[size - 1]);
      ResumeAfter(v.rows[size - 1]);
    }
  }

  /** The answer's first rows, as many as the request means, and a token exactly if there were more. */
  lemma PageShows(v: Visit)
    requires Paged(v)
    ensures v.requested >= 0
    ensures forall size: nat :: IsPageSize(size, v.requested) ==>
      if |v.rows| <= size then PageAt(v) == Page(v.rows, "")
      else PageAt(v).rows == v.rows[..size] && PageAt(v).next != ""
  {
    SizePositive(v);
    LookAheadFits(v.requested);
    PageShape(v);
    hide TokenOf, Resume, KeyOf, ValidRow, PageSize, ValidRows, PageOf;
  }

  /** The row is what the request asks about, and older than where the listing stands. */
  predicate AsksFor(f: Filter, cursor: Option<Key>, r: Row) {
    && r.project == f.project
    && (match f.func case Some(x) => r.func == x case None => true)
    && (match f.status case Some(x) => r.status == x case None => true)
    && (match f.since case Some(x) => x <= Instant(r.createdAt) case None => true)
    && (match f.until case Some(x) => Instant(r.createdAt) <= x case None => true)
    && (match cursor
        case Some((instant, id)) => Instant(r.createdAt) < instant || (Instant(r.createdAt) == instant && r.id < id)
        case None => true)
  }

  /** Answers hold what is asked for, newest first, and miss only rows older than all of a full answer. */
  lemma AnswersFit(t: Table, f: Filter, cursor: Option<Key>, limit: int, rows: seq<Row>)
    requires ValidTable(t) && Answers(t, f, cursor, limit, rows)
    ensures forall i :: 0 <= i < |rows| ==> AsksFor(f, cursor, rows[i]) && rows[i].id in t && t[rows[i].id] == rows[i]
    ensures forall i, j :: 0 <= i < j < |rows| ==> Older(rows[j], rows[i])
    ensures forall id :: id in t && AsksFor(f, cursor, t[id]) && t[id] !in rows ==>
      |rows| == limit && forall i :: 0 <= i < |rows| ==> Older(t[id], rows[i])
  {
    hide Instant, ValidRow;
    forall r | Selected(f, r) && Under(KeyOf(r), cursor)
      ensures AsksFor(f, cursor, r)
    {
    }
    forall r | AsksFor(f, cursor, r)
      ensures Selected(f, r) && Under(KeyOf(r), cursor)
    {
    }
    forall r, q
      ensures Before(KeyOf(r), KeyOf(q)) <==> Older(r, q)
    {
    }
    hide Selected, Under, AsksFor, Before, Older, KeyOf;
    forall id | id in t && AsksFor(f, cursor, t[id])
      ensures Eligible(t, f, cursor, id)
    {
    }
  }

  /** Created before, or at the same instant with a smaller id. */
  predicate Older(r: Row, q: Row) {
    Instant(r.createdAt) < Instant(q.createdAt) || (Instant(r.createdAt) == Instant(q.createdAt) && r.id < q.id)
  }

  lemma SizePositive(v: Visit)
    requires Paged(v)
    ensures PageSize(v.requested).Some? && PageSize(v.requested).value >= 1
  {
  }

  lemma ShownFacts(t: Table, f: Filter, cursor: Option<Key>, rows: seq<Row>, size: nat)
    requires AllEligible(t, f, cursor, rows) && Descending(rows)
    ensures AllEligible(t, f, cursor, Shown(rows, size)) && Descending(Shown(rows, size))
  {
    hide Eligible, KeyOf, Before;
  }

  lemma PageFacts(f: Filter, cursor: Option<Key>, v: Visit)
    requires Visited(f, cursor, v)
    ensures var p := PageAt(v);
      && ValidRows(p.rows) && Descending(p.rows) && AllEligible(v.table, f, cursor, p.rows)
      && (p.next != "" ==> p.rows != [] && Resume(p.next) == Some(KeyOf(p.rows[|p.rows| - 1])))
  {
    hide PageAt, Resume, AllEligible, KeyOf, Descending, PageSize, ValidRows, PageOf;
    PageShape(v);
    ShownFacts(v.table, f, cursor, v.rows, PageSize(v.requested).value);
  }

  /** Across pages, whatever happens to the table in between, keys strictly descend. */
  lemma {:induction false} ListingDescends(f: Filter, cursor: Option<Key>, visits: seq<Visit>)
    requires Listing(f, cursor, visits)
    ensures ValidRows(Returned(visits)) && Descending(Returned(visits))
    ensures AllUnder(Returned(visits), cursor)
    decreases |visits|
  {
    hide *;
    if visits == [] {
      NothingReturned(visits);
      NoRowsDescend(cursor);
    } else {
      var p := PageAt(visits[0]);
      ListingHead(f, cursor, visits);
      ListingDescends(f, Resume(p.next), visits[1..]);
      PageUnder(f, cursor, visits[0]);
      if |visits| > 1 {
        ResumeAtLast(f, cursor, visits[0]);
        BeforeLast(Returned(visits[1..]), KeyOf(p.rows[|p.rows| - 1]));
      } else {
        NothingReturned(visits[1..]);
        NoRowsDescend(None);
      }
      JoinDescends(p.rows, Returned(visits[1..]), cursor);
    }
  }

  lemma NoRowsDescend(cursor: Option<Key>)
    ensures ValidRows([]) && Descending([]) && AllUnder([], cursor)
  {
  }

  predicate AllUnder(rows: seq<Row>, cursor: Option<Key>) {
    forall i :: 0 <= i < |rows| ==> Under(KeyOf(rows[i]), cursor)
  }

  lemma PageUnder(f: Filter, cursor: Option<Key>, v: Visit)
    requires Visited(f, cursor, v)
    ensures var p := PageAt(v);
      ValidRows(p.rows) && Descending(p.rows) && AllUnder(p.rows, cursor)
  {
    hide PageAt, KeyOf, Selected, Under, Resume, ValidRows, Descending, Visited;
    PageFacts(f, cursor, v);
  }

  lemma BeforeLast(rows: seq<Row>, last: Key)
    requires AllUnder(rows, Some(last))
    ensures forall i :: 0 <= i < |rows| ==> Before(KeyOf(rows[i]), last)
  {
    hide KeyOf, Before;
  }

  /** Rows in order under a cursor, then rows in order under the last of them, are in order. */
  lemma JoinDescends(a: seq<Row>, b: seq<Row>, cursor: Option<Key>)
    requires ValidRows(a) && ValidRows(b) && Descending(a) && Descending(b)
    requires AllUnder(a, cursor)
    requires b != [] ==> a != [] && forall i :: 0 <= i < |b| ==> Before(KeyOf(b[i]), KeyOf(a[|a| - 1]))
    ensures ValidRows(a + b) && Descending(a + b)
    ensures AllUnder(a + b, cursor)
  {
    hide KeyOf, ValidRow;
  }

  /** The row `id` is in the table this visit met, selected by the filter, with key `k`. */
  predicate PresentAt(f: Filter, v: Visit, id: int, k: Key) {
    id in v.table && Selected(f, v.table[id]) && KeyOf(v.table[id]) == k
  }

  /** A row an answer leaves out comes after all of its rows; the row after a page comes after the page. */
  lemma RestIsLower(t: Table, f: Filter, cursor: Option<Key>, size: nat, rows: seq<Row>, id: int)
    requires Answers(t, f, cursor, size + 1, rows) && Eligible(t, f, cursor, id) && size >= 1
    requires t[id] !in Shown(rows, size)
    ensures |rows| == size + 1 && Before(KeyOf(t[id]), KeyOf(rows[size - 1]))
  {
    var r := t[id];
    hide KeyOf, Before, Eligible, AllEligible;
    if r in rows {
      var j :| 0 <= j < |rows| && rows[j] == r;
      assert Shown(rows, size) == rows[..if |rows| > size then size else |rows|];
      assert j == size;
      assert Before(KeyOf(rows[j]), KeyOf(rows[size - 1]));
    } else {
      assert |rows| == size + 1;
    }
  }

  lemma PageCovers(f: Filter, cursor: Option<Key>, v: Visit, id: int, k: Key)
    requires Visited(f, cursor, v) && PresentAt(f, v, id, k) && Under(k, cursor)
    ensures var p := PageAt(v);
      || v.table[id] in p.rows
      || (p.next != "" && p.rows != [] && Before(k, KeyOf(p.rows[|p.rows| - 1])))
  {
    hide *;
    EligibleAt(f, cursor, v, id, k);
    PageShape(v);
    var p, size := PageAt(v), PageSize(v.requested).value;
    if v.table[id] !in p.rows {
      RestIsLower(v.table, f, cursor, size, v.rows, id);
      ShownFull(v.rows, size);
    }
  }

  lemma EligibleAt(f: Filter, cursor: Option<Key>, v: Visit, id: int, k: Key)
    requires Visited(f, cursor, v) && PresentAt(f, v, id, k) && Under(k, cursor)
    ensures Paged(v) && PageSize(v.requested).Some? && id in v.table && KeyOf(v.table[id]) == k
    ensures Eligible(v.table, f, cursor, id) && Answers(v.table, f, cursor, PageSize(v.requested).value + 1, v.rows)
  {
    LookAheadFits(v.requested);
    hide Answers, Selected, ServiceLimit, KeyOf, Under, IsPageSize;
  }

  lemma ShownFull(rows: seq<Row>, size: nat)
    requires |rows| == size + 1 && size >= 1
    ensures |Shown(rows, size)| == size && Shown(rows, size)[size - 1] == rows[size - 1]
  {
  }

  /** Some of the rows is the row `id` with key `k`. */
  ghost predicate Returns(rows: seq<Row>, id: int, k: Key) {
    exists at :: 0 <= at < |rows| && rows[at].id == id && KeyOf(rows[at]) == k
  }

  lemma ReturnsIn(a: seq<Row>, b: seq<Row>, id: int, k: Key)
    requires Returns(a, id, k) || Returns(b, id, k)
    ensures Returns(a + b, id, k)
  {
    hide KeyOf;
    if Returns(a, id, k) {
      var at :| 0 <= at < |a| && a[at].id == id && KeyOf(a[at]) == k;
      assert (a + b)[at] == a[at];
    } else {
      var at :| 0 <= at < |b| && b[at].id == id && KeyOf(b[at]) == k;
      assert (a + b)[|a| + at] == b[at];
    }
  }

  /** A listing is its first page and the listing its token continues. */
  lemma ListingHead(f: Filter, cursor: Option<Key>, visits: seq<Visit>)
    requires Listing(f, cursor, visits) && visits != []
    ensures Visited(f, cursor, visits[0])
    ensures |visits| > 1 ==> PageAt(visits[0]).next != ""
    ensures Listing(f, Resume(PageAt(visits[0]).next), visits[1..])
    ensures Returned(visits) == PageAt(visits[0]).rows + Returned(visits[1..])
    ensures |visits| > 1 && Ends(visits) ==> Ends(visits[1..])
    ensures |visits| == 1 && Ends(visits) ==> PageAt(visits[0]).next == ""
  {
    hide PageAt, Resume, Visited, Paged;
    if |visits| > 1 {
      assert visits[1..][|visits| - 2] == visits[|visits| - 1];
    }
  }

  predicate PresentThroughout(f: Filter, visits: seq<Visit>, id: int, k: Key) {
    forall i :: 0 <= i < |visits| ==> PresentAt(f, visits[i], id, k)
  }

  lemma PresentSplit(f: Filter, visits: seq<Visit>, id: int, k: Key)
    requires PresentThroughout(f, visits, id, k) && visits != []
    ensures PresentAt(f, visits[0], id, k) && PresentThroughout(f, visits[1..], id, k)
  {
    hide PresentAt;
  }

  /** The first page returns the row, or leaves it to the rest of the listing. */
  lemma CoverStep(f: Filter, cursor: Option<Key>, visits: seq<Visit>, id: int, k: Key)
    requires Listing(f, cursor, visits) && visits != [] && Ends(visits)
    requires PresentThroughout(f, visits, id, k) && Under(k, cursor)
    ensures var p, rest := PageAt(visits[0]), visits[1..];
      || Returns(p.rows, id, k)
      || (Listing(f, Resume(p.next), rest) && Ends(rest) && PresentThroughout(f, rest, id, k) && Under(k, Resume(p.next)))
  {
    hide *;
    var v := visits[0];
    var p := PageAt(v);
    PresentSplit(f, visits, id, k);
    ListingHead(f, cursor, visits);
    PresentRow(f, cursor, v, id, k);
    PageCovers(f, cursor, v, id, k);
    if v.table[id] in p.rows {
      ShownReturns(p.rows, v.table[id], k);
    } else {
      ResumeAtLast(f, cursor, v);
      UnderSome(k, KeyOf(p.rows[|p.rows| - 1]));
    }
  }

  /** A row that is there and matches at every request is returned. */
  lemma {:induction false} ListingCovers(f: Filter, cursor: Option<Key>, visits: seq<Visit>, id: int, k: Key)
    requires Listing(f, cursor, visits) && visits != [] && Ends(visits)
    requires PresentThroughout(f, visits, id, k) && Under(k, cursor)
    ensures Returns(Returned(visits), id, k)
    decreases |visits|
  {
    hide *;
    var p := PageAt(visits[0]);
    CoverStep(f, cursor, visits, id, k);
    if !Returns(p.rows, id, k) {
      EndsSomewhere(visits[1..]);
      ListingCovers(f, Resume(p.next), visits[1..], id, k);
    }
    ReturnsIn(p.rows, Returned(visits[1..]), id, k);
    ListingHead(f, cursor, visits);
  }

  lemma ShownReturns(rows: seq<Row>, r: Row, k: Key)
    requires r in rows && KeyOf(r) == k
    ensures Returns(rows, r.id, k)
  {
  }

  lemma EndsSomewhere(visits: seq<Visit>)
    requires Ends(visits)
    ensures visits != []
  {
  }

  lemma UnderSome(k: Key, c: Key)
    requires Before(k, c)
    ensures Under(k, Some(c))
  {
  }

  lemma PresentRow(f: Filter, cursor: Option<Key>, v: Visit, id: int, k: Key)
    requires Visited(f, cursor, v) && PresentAt(f, v, id, k)
    ensures id in v.table && v.table[id].id == id && KeyOf(v.table[id]) == k
  {
    hide KeyOf, Answers;
  }

  lemma ResumeAtLast(f: Filter, cursor: Option<Key>, v: Visit)
    requires Visited(f, cursor, v) && PageAt(v).next != ""
    ensures var p := PageAt(v);
      p.rows != [] && ValidRow(p.rows[|p.rows| - 1]) && Resume(p.next) == Some(KeyOf(p.rows[|p.rows| - 1]))
  {
    PageFacts(f, cursor, v);
    hide PageAt, Resume, Visited;
  }

  /** Position `at` holds the row `id` with key `k`, and no other position holds that key. */
  predicate OnlyAt(rows: seq<Row>, at: nat, id: int, k: Key)
    requires at < |rows|
  {
    && rows[at].id == id && KeyOf(rows[at]) == k
    && forall j :: 0 <= j < |rows| && j != at ==> KeyOf(rows[j]) != k
  }

  lemma ReturnsOnce(rows: seq<Row>, id: int, k: Key)
    requires Descending(rows) && Returns(rows, id, k)
    ensures exists at :: 0 <= at < |rows| && OnlyAt(rows, at, id, k)
  {
    hide KeyOf;
    var at :| 0 <= at < |rows| && rows[at].id == id && KeyOf(rows[at]) == k;
    forall j | 0 <= j < |rows| && j != at
      ensures KeyOf(rows[j]) != KeyOf(rows[at])
    {
      assert if j < at then Before(KeyOf(rows[at]), KeyOf(rows[j])) else Before(KeyOf(rows[j]), KeyOf(rows[at]));
    }
    assert OnlyAt(rows, at, id, k);
  }

  /**
   Exactly once: a listing followed to its end returns no key twice, and returns every row that
   was there and matched at every request, whatever was inserted, deleted or changed in between.
   */
  lemma ExactlyOnce(f: Filter, visits: seq<Visit>, id: int, k: Key)
    requires Listing(f, None, visits) && visits != [] && Ends(visits)
    requires PresentThroughout(f, visits, id, k)
    ensures ValidRows(Returned(visits)) && Descending(Returned(visits))
    ensures exists at :: 0 <= at < |Returned(visits)| && OnlyAt(Returned(visits), at, id, k)
  {
    assert Under(k, None);
    hide *;
    ListingDescends(f, None, visits);
    ListingCovers(f, None, visits, id, k);
    ReturnsOnce(Returned(visits), id, k);
  }

  // Termination

  function EligibleIds(t: Table, f: Filter, cursor: Option<Key>): set<int> {
    set id | id in t && Eligible(t, f, cursor, id)
  }

  /** Between a page and the next request, no row appears under the page's cursor. */
  predicate NoneInsertedUnder(f: Filter, visits: seq<Visit>)
    decreases |visits|
  {
    |visits| > 1 ==>
      && EligibleIds(visits[1].table, f, Resume(PageAt(visits[0]).next))
         <= EligibleIds(visits[0].table, f, Resume(PageAt(visits[0]).next))
      && NoneInsertedUnder(f, visits[1..])
  }

  function Ids(rows: seq<Row>): set<int> {
    set i | 0 <= i < |rows| :: rows[i].id
  }

  predicate DistinctIds(rows: seq<Row>) {
    forall i, j :: 0 <= i < j < |rows| ==> rows[i].id != rows[j].id
  }

  lemma ShownDistinct(t: Table, f: Filter, cursor: Option<Key>, rows: seq<Row>)
    requires AllEligible(t, f, cursor, rows) && Descending(rows)
    ensures DistinctIds(rows) && Ids(rows) <= EligibleIds(t, f, cursor)
  {
    hide KeyOf, Selected, Under;
    forall i, j | 0 <= i < j < |rows|
      ensures rows[i].id != rows[j].id
    {
      assert Before(KeyOf(rows[j]), KeyOf(rows[i]));
      assert t[rows[i].id] == rows[i] && t[rows[j].id] == rows[j];
    }
  }

  lemma {:induction false} IdsCount(rows: seq<Row>)
    requires DistinctIds(rows)
    ensures |Ids(rows)| == |rows|
    decreases |rows|
  {
    hide KeyOf, Before, ValidRow;
    if rows == [] {
      assert Ids(rows) == {};
    } else {
      var front, last := rows[..|rows| - 1], rows[|rows| - 1];
      IdsCount(front);
      assert Ids(rows) == Ids(front) + {last.id} by {
        forall id | id in Ids(rows)
          ensures id in Ids(front) + {last.id}
        {
          var i :| 0 <= i < |rows| && rows[i].id == id;
          assert i < |front| ==> front[i].id == id;
        }
        forall id | id in Ids(front)
          ensures id in Ids(rows)
        {
          var i :| 0 <= i < |front| && front[i].id == id;
          assert rows[i].id == id;
        }
        assert last.id in Ids(rows);
      }
      assert last.id !in Ids(front);
    }
  }

  /** What a page shows leaves the eligible rows: what is left is under its cursor. */
  lemma PageShrinks(f: Filter, cursor: Option<Key>, v: Visit)
    requires Visited(f, cursor, v)
    ensures var p := PageAt(v);
      && |p.rows| <= |EligibleIds(v.table, f, cursor)|
      && (p.next != "" ==> |EligibleIds(v.table, f, Resume(p.next))| + |p.rows| <= |EligibleIds(v.table, f, cursor)|)
  {
    hide *;
    var p := PageAt(v);
    var all := EligibleIds(v.table, f, cursor);
    PageFacts(f, cursor, v);
    ShownDistinct(v.table, f, cursor, p.rows);
    IdsCount(p.rows);
    Smaller(Ids(p.rows), all);
    if p.next != "" {
      var left := EligibleIds(v.table, f, Resume(p.next));
      LeftBelow(f, cursor, v.table, p.rows);
      assert |left + Ids(p.rows)| == |left| + |Ids(p.rows)|;
      Smaller(left + Ids(p.rows), all);
    }
  }

  lemma LeftBelow(f: Filter, cursor: Option<Key>, t: Table, rows: seq<Row>)
    requires Descending(rows) && rows != [] && AllEligible(t, f, cursor, rows)
    ensures EligibleIds(t, f, Some(KeyOf(rows[|rows| - 1]))) <= EligibleIds(t, f, cursor)
    ensures EligibleIds(t, f, Some(KeyOf(rows[|rows| - 1]))) !! Ids(rows)
  {
    var last := KeyOf(rows[|rows| - 1]);
    forall id | id in EligibleIds(t, f, Some(last))
      ensures id in EligibleIds(t, f, cursor) && id !in Ids(rows)
    {
      assert Before(KeyOf(t[id]), last);
      assert Eligible(t, f, cursor, rows[|rows| - 1].id);
      forall i | 0 <= i < |rows|
        ensures rows[i].id != id
      {
        assert i < |rows| - 1 ==> Before(last, KeyOf(rows[i]));
      }
    }
  }

  /** With nothing inserted under the cursor, a listing cannot outlast the rows it started with. */
  lemma {:induction false} ListingEnds(f: Filter, cursor: Option<Key>, visits: seq<Visit>)
    requires Listing(f, cursor, visits) && visits != []
    requires NoneInsertedUnder(f, visits)
    ensures |Returned(visits)| <= |EligibleIds(visits[0].table, f, cursor)|
    ensures |visits| <= |Returned(visits)| + 1
    decreases |visits|
  {
    var v, p := visits[0], PageAt(visits[0]);
    assert |visits| > 1 ==>
        EligibleIds(visits[1].table, f, Resume(p.next)) <= EligibleIds(v.table, f, Resume(p.next))
        && NoneInsertedUnder(f, visits[1..]);
    hide PageAt, Resume, EligibleIds, Visited, Returned, Listing, Paged, ValidTable, NoneInsertedUnder;
    ListingHead(f, cursor, visits);
    PageShrinks(f, cursor, v);
    if |visits| > 1 {
      ListingEnds(f, Resume(p.next), visits[1..]);
      ResumeAtLast(f, cursor, v);
      Smaller(EligibleIds(visits[1].table, f, Resume(p.next)), EligibleIds(v.table, f, Resume(p.next)));
    } else {
      NothingReturned(visits[1..]);
    }
  }

  lemma NothingReturned(visits: seq<Visit>)
    requires visits == []
    ensures Returned(visits) == []
  {
  }
}
