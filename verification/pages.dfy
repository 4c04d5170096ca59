/**
 The transaction list: a keyset page on (created_at, id), newest first, and the walk over all its
 pages while newer rows are being inserted.
 */
module Pages {
  import opened Store
  import opened Cursor

  /** The columns of tran_log a list filters or sorts on; created_at is in nanoseconds. */
  datatype Row = Row(key: Key, status: string, rc: Option<string>, maskedPan: string, reason: Option<string>)

  datatype Filter = Filter(
    status: Option<string>,
    rc: Option<string>,
    last4: Option<string>,
    from: Option<int>,
    to: Option<int>,
    reason: Option<string>)

  const DEFAULT_LIMIT: nat := 50
  const CUSTOMER_CANCELLATION := "CUSTOMER_CANCELLATION"
  const TIMEOUT := "TIMEOUT"
  const MAC_FAILURE := "MAC_FAILURE"
  const SEND_FAILURE := "SEND_FAILURE"

  /** ReversalReasonOf. */
  function ReasonOf(code: string): string {
    if code == "" then ""
    else if code == "17" then CUSTOMER_CANCELLATION
    else if code == "68" then TIMEOUT
    else if code == "06" then MAC_FAILURE
    else SEND_FAILURE
  }

  /** reversalReasonClause; a row without a reason matches none. */
  predicate HasReason(row: Row, reason: string) {
    && row.reason.Some?
    && (if reason == CUSTOMER_CANCELLATION then row.reason.value == "17"
        else if reason == TIMEOUT then row.reason.value == "68"
        else if reason == MAC_FAILURE then row.reason.value == "06"
        else row.reason.value !in {"17", "68", "06"})
  }

  function Right4(s: string): string {
    if |s| <= 4 then s else s[|s| - 4..]
  }

  predicate Matches(f: Filter, row: Row) {
    && (f.status.Some? ==> row.status == f.status.value)
    && (f.rc.Some? ==> row.rc == f.rc)
    && (f.last4.Some? ==> Right4(row.maskedPan) == f.last4.value)
    && (f.from.Some? ==> row.key.at >= f.from.value)
    && (f.to.Some? ==> row.key.at <= f.to.value)
    && (f.reason.Some? ==> HasReason(row, f.reason.value))
  }

  // The SELECT as it is built: conditions over numbered arguments.

  datatype Value = Text(s: string) | Time(at: int) | Number(n: int)

  /** A column, or an expression on one; null when the row has none. */
  datatype Column = State | ResponseCode | LastFour | CreatedAt | ReversalReason

  datatype Condition =
    | Equals(column: Column, arg: nat)
    | AtLeast(column: Column, arg: nat)
    | AtMost(column: Column, arg: nat)
    | NotInCodes                                   // reversal_reason NOT IN ('17', '68', '06')
    | KeyBelow(atArg: nat, idArg: nat)             // (created_at, id) < ($n, $m)

  function ColumnOf(row: Row, column: Column): Option<Value> {
    match column
    case State => Some(Text(row.status))
    case ResponseCode => if row.rc.Some? then Some(Text(row.rc.value)) else None
    case LastFour => Some(Text(Right4(row.maskedPan)))
    case CreatedAt => Some(Time(row.key.at))
    case ReversalReason => if row.reason.Some? then Some(Text(row.reason.value)) else None
  }

  function Arg(args: seq<Value>, n: nat): Option<Value> {
    if 0 < n <= |args| then Some(args[n - 1]) else None
  }

  /** A condition selects a row when it is true of it; a comparison with null is not. */
  predicate Selects(row: Row, c: Condition, args: seq<Value>) {
    match c
    case Equals(column, n) => ColumnOf(row, column).Some? && ColumnOf(row, column) == Arg(args, n)
    case AtLeast(column, n) =>
      var v, a := ColumnOf(row, column), Arg(args, n);
      v.Some? && a.Some? && v.value.Time? && a.value.Time? && v.value.at >= a.value.at
    case AtMost(column, n) =>
      var v, a := ColumnOf(row, column), Arg(args, n);
      v.Some? && a.Some? && v.value.Time? && a.value.Time? && v.value.at <= a.value.at
    case NotInCodes => row.reason.Some? && row.reason.value != "17" && row.reason.value != "68" && row.reason.value != "06"
    case KeyBelow(n, m) =>
      var at, id := Arg(args, n), Arg(args, m);
      at.Some? && id.Some? && at.value.Time? && id.value.Number? && Before(row.key, Key(at.value.at, id.value.n))
  }

  predicate SelectsAll(row: Row, conditions: seq<Condition>, args: seq<Value>) {
    forall i :: 0 <= i < |conditions| ==> Selects(row, conditions[i], args)
  }

  /** The code a reason's name stands for; None for SEND_FAILURE, and for any other text. */
  function CodeOf(reason: string): Option<string> {
    if reason == CUSTOMER_CANCELLATION then Some("17")
    else if reason == TIMEOUT then Some("68")
    else if reason == MAC_FAILURE then Some("06")
    else None
  }

  /** One condition on one argument is appended; the arguments of the others keep their numbers. */
  lemma Appended(conditions: seq<Condition>, args: seq<Value>, c: Condition, more: seq<Value>)
    requires forall i :: 0 <= i < |conditions| ==> Numbered(conditions[i], |args|)
    ensures forall row :: SelectsAll(row, conditions + [c], args + more) <==>
                          SelectsAll(row, conditions, args) && Selects(row, c, args + more)
  {
    forall row ensures SelectsAll(row, conditions + [c], args + more) <==>
                       SelectsAll(row, conditions, args) && Selects(row, c, args + more)
    {
      forall i | 0 <= i < |conditions| ensures Selects(row, conditions[i], args + more) <==> Selects(row, conditions[i], args) {
        NumbersStay(row, conditions[i], args, more);
      }
      assert forall i :: 0 <= i < |conditions| ==> (conditions + [c])[i] == conditions[i];
      assert (conditions + [c])[|conditions|] == c;
    }
  }

  /** The condition's arguments are among the first n. */
  predicate Numbered(c: Condition, n: nat) {
    match c
    case Equals(_, k) => 0 < k <= n
    case AtLeast(_, k) => 0 < k <= n
    case AtMost(_, k) => 0 < k <= n
    case NotInCodes => true
    case KeyBelow(k, m) => 0 < k <= n && 0 < m <= n
  }

  lemma NumbersStay(row: Row, c: Condition, args: seq<Value>, more: seq<Value>)
    requires Numbered(c, |args|)
    ensures Selects(row, c, args + more) <==> Selects(row, c, args)
  {
  }

  /** The query so far selects exactly these rows. */
  ghost predicate Builds(conditions: seq<Condition>, args: seq<Value>, f: Filter, cursor: Option<Key>) {
    && (forall i :: 0 <= i < |conditions| ==> Numbered(conditions[i], |args|))
    && (forall row :: SelectsAll(row, conditions, args) <==> Matches(f, row) && Under(row, cursor))
  }

  const NO_FILTER := Filter(None, None, None, None, None, None)

  method Add(conditions: seq<Condition>, args: seq<Value>, c: Condition, more: seq<Value>,
             ghost f: Filter, ghost g: Filter, ghost under: Option<Key>, ghost cursor: Option<Key>)
    returns (cs: seq<Condition>, values: seq<Value>)
    requires Builds(conditions, args, f, under) && Numbered(c, |args + more|)
    requires forall row :: Matches(g, row) && Under(row, cursor) <==> Matches(f, row) && Under(row, under) && Selects(row, c, args + more)
    ensures Builds(cs, values, g, cursor)
  {
    Appended(conditions, args, c, more);
    cs, values := conditions + [c], args + more;
  }

  /** buildListQuery: each filter that is set appends its condition and its argument. */
  method BuildListQuery(f: Filter, cursor: Option<Key>) returns (conditions: seq<Condition>, args: seq<Value>)
    ensures Builds(conditions, args, f, cursor)
  {
    conditions, args := [], [];
    ghost var g := NO_FILTER;
    if f.status.Some? {
      conditions, args := Add(conditions, args, Equals(State, |args| + 1), [Text(f.status.value)], g, g.(status := f.status), None, None);
    }
    g := g.(status := f.status);
    if f.rc.Some? {
      conditions, args := Add(conditions, args, Equals(ResponseCode, |args| + 1), [Text(f.rc.value)], g, g.(rc := f.rc), None, None);
    }
    g := g.(rc := f.rc);
    if f.last4.Some? {
      conditions, args := Add(conditions, args, Equals(LastFour, |args| + 1), [Text(f.last4.value)], g, g.(last4 := f.last4), None, None);
    }
    g := g.(last4 := f.last4);
    conditions, args := AddTimes(f, conditions, args, g);
    g := g.(from := f.from, to := f.to);
    conditions, args := AddReason(f, conditions, args, g);
    if cursor.Some? {
      conditions, args := Add(conditions, args, KeyBelow(|args| + 1, |args| + 2), [Time(cursor.value.at), Number(cursor.value.id)], f, f, None, cursor);
    }
  }

  method AddTimes(f: Filter, conditions: seq<Condition>, args: seq<Value>, ghost g: Filter) returns (cs: seq<Condition>, values: seq<Value>)
    requires Builds(conditions, args, g, None) && g.from.None? && g.to.None?
    ensures Builds(cs, values, g.(from := f.from, to := f.to), None)
  {
    cs, values := conditions, args;
    if f.from.Some? {
      cs, values := Add(cs, values, AtLeast(CreatedAt, |values| + 1), [Time(f.from.value)], g, g.(from := f.from), None, None);
    }
    ghost var h := g.(from := f.from);
    if f.to.Some? {
      cs, values := Add(cs, values, AtMost(CreatedAt, |values| + 1), [Time(f.to.value)], h, h.(to := f.to), None, None);
    }
  }

  /** reversalReasonClause: the codes a reason names, or every other code. */
  method AddReason(f: Filter, conditions: seq<Condition>, args: seq<Value>, ghost g: Filter) returns (cs: seq<Condition>, values: seq<Value>)
    requires Builds(conditions, args, g, None) && g.reason.None?
    ensures Builds(cs, values, g.(reason := f.reason), None)
  {
    cs, values := conditions, args;
    if f.reason.Some? {
      var code := CodeOf(f.reason.value);
      if code.Some? {
        cs, values := Add(cs, values, Equals(ReversalReason, |values| + 1), [Text(code.value)], g, g.(reason := f.reason), None, None);
      } else {
        cs, values := Add(cs, values, NotInCodes, [], g, g.(reason := f.reason), None, None);
      }
    }
  }

  /** The row comparison (a.created_at, a.id) < (b.created_at, b.id). */
  predicate Before(a: Key, b: Key) {
    a.at < b.at || (a.at == b.at && a.id < b.id)
  }

  predicate Under(row: Row, cursor: Option<Key>) {
    cursor.Some? ==> Before(row.key, cursor.value)
  }

  // The query.

  function Selected(table: seq<Row>, f: Filter, cursor: Option<Key>): seq<Row> {
    if table == [] then []
    else
      var rest, r := Selected(table[..|table| - 1], f, cursor), table[|table| - 1];
      if Matches(f, r) && Under(r, cursor) then rest + [r] else rest
  }

  /** ORDER BY created_at DESC, id DESC. */
  function Ordered(rows: seq<Row>): seq<Row> {
    if rows == [] then []
    else Placed(rows[|rows| - 1], Ordered(rows[..|rows| - 1]))
  }

  function Placed(row: Row, sorted: seq<Row>): seq<Row> {
    if sorted == [] || Before(sorted[0].key, row.key) then [row] + sorted
    else [sorted[0]] + Placed(row, sorted[1..])
  }

  function Query(table: seq<Row>, f: Filter, cursor: Option<Key>): seq<Row> {
    Ordered(Selected(table, f, cursor))
  }

  lemma {:induction false} SelectedHas(table: seq<Row>, f: Filter, cursor: Option<Key>, r: Row)
    ensures r in Selected(table, f, cursor) <==> r in table && Matches(f, r) && Under(r, cursor)
  {
    if table != [] {
      SelectedHas(table[..|table| - 1], f, cursor, r);
      assert table == table[..|table| - 1] + [table[|table| - 1]];
    }
  }

  lemma {:induction false} PlacedHas(row: Row, sorted: seq<Row>, r: Row)
    ensures r in Placed(row, sorted) <==> r == row || r in sorted
  {
    if sorted != [] && !Before(sorted[0].key, row.key) {
      PlacedHas(row, sorted[1..], r);
      assert sorted == [sorted[0]] + sorted[1..];
    }
  }

  lemma {:induction false} OrderedHas(rows: seq<Row>, r: Row)
    ensures r in Ordered(rows) <==> r in rows
  {
    if rows != [] {
      var most := rows[..|rows| - 1];
      OrderedHas(most, r);
      PlacedHas(rows[|rows| - 1], Ordered(most), r);
      assert rows == most + [rows[|rows| - 1]];
    }
  }

  lemma QueryHas(table: seq<Row>, f: Filter, cursor: Option<Key>, r: Row)
    ensures r in Query(table, f, cursor) <==> r in table && Matches(f, r) && Under(r, cursor)
  {
    SelectedHas(table, f, cursor, r);
    OrderedHas(Selected(table, f, cursor), r);
  }

  ghost predicate Descending(rows: seq<Row>) {
    forall i, j :: 0 <= i < j < |rows| ==> Before(rows[j].key, rows[i].key)
  }

  /** The primary key is unique, and both columns are 64-bit. */
  ghost predicate IsTable(table: seq<Row>) {
    && UniqueKeys(table)
    && (forall r :: r in table ==> IsInt64(r.key.at) && IsInt64(r.key.id))
  }

  ghost predicate UniqueKeys(rows: seq<Row>) {
    forall i, j :: 0 <= i < j < |rows| ==> rows[i].key.id != rows[j].key.id
  }

  lemma {:induction false} PlacedDescends(row: Row, sorted: seq<Row>)
    requires Descending(sorted) && forall r :: r in sorted ==> r.key.id != row.key.id
    ensures Descending(Placed(row, sorted))
  {
    if sorted != [] && !Before(sorted[0].key, row.key) {
      var rest := Placed(row, sorted[1..]);
      PlacedDescends(row, sorted[1..]);
      assert sorted[0] in sorted;
      forall r | r in rest ensures Before(r.key, sorted[0].key) {
        PlacedHas(row, sorted[1..], r);
        if r != row {
          assert r in sorted[1..];
          var k :| 0 <= k < |sorted[1..]| && sorted[1..][k] == r;
          assert sorted[k + 1] == r;
        }
      }
      var placed := [sorted[0]] + rest;
      assert forall j :: 0 < j < |placed| ==> placed[j] == rest[j - 1] && rest[j - 1] in rest;
    } else if sorted != [] {
      assert forall j :: 0 <= j < |sorted| ==> sorted[j] == sorted[0] || Before(sorted[j].key, sorted[0].key);
    }
  }

  lemma {:induction false} OrderedDescends(rows: seq<Row>)
    requires UniqueKeys(rows)
    ensures Descending(Ordered(rows))
  {
    if rows != [] {
      var most, r := rows[..|rows| - 1], rows[|rows| - 1];
      OrderedDescends(most);
      forall q | q in Ordered(most) ensures q.key.id != r.key.id {
        OrderedHas(most, q);
        var k :| 0 <= k < |most| && most[k] == q;
        assert rows[k] == q;
      }
      PlacedDescends(r, Ordered(most));
    }
  }

  /** A strictly descending list is fixed by what is in it. */
  lemma {:induction false} DescendingUnique(a: seq<Row>, b: seq<Row>)
    requires Descending(a) && Descending(b) && forall r :: r in a <==> r in b
    ensures a == b
  {
    assert a != [] ==> a[0] in b;
    assert b != [] ==> b[0] in a;
    if a != [] && b != [] {
      assert a[0] == b[0];
      forall r ensures r in a[1..] <==> r in b[1..] {
        TailHas(a, r);
        TailHas(b, r);
      }
      DescendingUnique(a[1..], b[1..]);
      assert a == [a[0]] + a[1..] && b == [b[0]] + b[1..];
    }
  }

  lemma TailHas(a: seq<Row>, r: Row)
    requires Descending(a) && a != []
    ensures r in a[1..] <==> r in a && r != a[0]
  {
    if r in a && r != a[0] {
      var k :| 0 <= k < |a| && a[k] == r;
      assert a[1..][k - 1] == r;
    }
    if r in a[1..] {
      var k :| 0 <= k < |a[1..]| && a[1..][k] == r;
      assert a[k + 1] == r && Before(a[k + 1].key, a[0].key);
    }
  }

  lemma {:induction false} SelectedUnique(table: seq<Row>, f: Filter, cursor: Option<Key>)
    requires UniqueKeys(table)
    ensures UniqueKeys(Selected(table, f, cursor))
  {
    if table != [] {
      var most, r := table[..|table| - 1], table[|table| - 1];
      SelectedUnique(most, f, cursor);
      forall q | q in Selected(most, f, cursor) ensures q.key.id != r.key.id {
        SelectedHas(most, f, cursor, q);
        var k :| 0 <= k < |most| && most[k] == q;
        assert table[k] == q;
      }
    }
  }

  lemma QueryDescends(table: seq<Row>, f: Filter, cursor: Option<Key>)
    requires UniqueKeys(table)
    ensures Descending(Query(table, f, cursor))
  {
    SelectedUnique(table, f, cursor);
    OrderedDescends(Selected(table, f, cursor));
  }

  /** Everything the filter matches, newest first. */
  function Listing(table: seq<Row>, f: Filter): seq<Row> {
    Query(table, f, None)
  }

  lemma ListingIs(table: seq<Row>, f: Filter)
    requires IsTable(table)
    ensures Descending(Listing(table, f))
    ensures forall r :: r in Listing(table, f) <==> r in table && Matches(f, r)
  {
    QueryDescends(table, f, None);
    forall r ensures r in Listing(table, f) <==> r in table && Matches(f, r) {
      QueryHas(table, f, None, r);
    }
  }

  /** Rows newer than every row of a table. */
  ghost predicate Newer(rows: seq<Row>, table: seq<Row>) {
    forall r, q :: r in rows && q in table ==> Before(q.key, r.key)
  }

  ghost predicate Grown(table: seq<Row>, newer: seq<Row>) {
    IsTable(table + newer) && Newer(newer, table)
  }

  /** Under a cursor taken from the listing, the query is the rest of the listing, newer rows or not. */
  lemma RestOfListing(table: seq<Row>, newer: seq<Row>, f: Filter, k: nat)
    requires IsTable(table) && Grown(table, newer)
    requires 0 < k <= |Listing(table, f)|
    ensures Query(table + newer, f, Some(Listing(table, f)[k - 1].key)) == Listing(table, f)[k..]
  {
    ListingIs(table, f);
    var all := Listing(table, f);
    var cursor := Some(all[k - 1].key);
    assert all[k - 1] in all;
    var query := Query(table + newer, f, cursor);
    QueryDescends(table + newer, f, cursor);
    forall r ensures r in query <==> r in all[k..] {
      QueryHas(table + newer, f, cursor, r);
      InRest(all, k, r);
      assert r in newer ==> Before(all[k - 1].key, r.key);
    }
    DescendingUnique(query, all[k..]);
  }

  lemma InRest(all: seq<Row>, k: nat, r: Row)
    requires Descending(all) && 0 < k <= |all|
    ensures r in all[k..] <==> r in all && Before(r.key, all[k - 1].key)
  {
    if r in all[k..] {
      var i :| 0 <= i < |all[k..]| && all[k..][i] == r;
      assert all[k + i] == r;
    }
    if r in all && Before(r.key, all[k - 1].key) {
      var i :| 0 <= i < |all| && all[i] == r;
      assert all[k..][i - k] == r;
    }
  }

  // List and the walk.

  /** What List returns for a query: its first n rows, and the key of the last of them when more follow. */
  function FirstPage(rows: seq<Row>, n: nat): (seq<Row>, Option<Key>)
    requires n > 0
  {
    if |rows| > n then (rows[..n], Some(rows[n - 1].key)) else (rows, None)
  }

  function PageSize(limit: int): nat {
    if limit <= 0 then DEFAULT_LIMIT else limit
  }

  /** The cursor text that stands for the next page, "" for none. */
  ghost predicate Points(cursor: string, next: Option<Key>) {
    if cursor == "" then next.None? else next.Some? && DecodeCursor(cursor) == next
  }

  /** List: a page and the cursor of the next one; None is ErrInvalidCursor. */
  method List(table: seq<Row>, f: Filter, limit: int, cursor: string) returns (page: Option<seq<Row>>, next: string)
    requires IsTable(table)
    ensures page.None? <==> cursor != "" && DecodeCursor(cursor).None?
    ensures page.Some? ==>
              var (rows, key) := FirstPage(Query(table, f, if cursor == "" then None else DecodeCursor(cursor)), PageSize(limit));
              page.value == rows && Points(next, key)
  {
    next := "";
    var at: Option<Key> := None;
    if cursor != "" {
      at := DecodeCursor(cursor);
      if at.None? {
        return None, "";
      }
    }
    var rows;
    rows, next := Fetch(table, f, PageSize(limit), at);
    page := Some(rows);
  }

  /** limit + 1 rows are fetched, to see whether a next page exists. */
  method Fetch(table: seq<Row>, f: Filter, limit: nat, at: Option<Key>) returns (page: seq<Row>, next: string)
    requires IsTable(table) && limit > 0
    ensures page == FirstPage(Query(table, f, at), limit).0 && Points(next, FirstPage(Query(table, f, at), limit).1)
  {
    var rows := Query(table, f, at);
    page := if |rows| > limit + 1 then rows[..limit + 1] else rows;
    next := "";
    if |page| > limit {
      var last := page[limit - 1];
      QueryHas(table, f, at, last);
      assert last == rows[limit - 1];
      DecodeUndoesEncode(last.key);
      next := EncodeCursor(last.key);
      page := page[..limit];
    }
  }

  /** What is left to read after the first k rows of a listing. */
  function Left(listing: seq<Row>, k: nat): Option<Key> {
    if 0 < k < |listing| then Some(listing[k - 1].key) else None
  }

  /** The rows read are the first k of the listing, and the cursor says what is left. */
  ghost predicate Reading(listing: seq<Row>, all: seq<Row>, cursor: string) {
    && |all| <= |listing| && all == listing[..|all|]
    && (if cursor == "" then |all| == |listing| else 0 < |all| < |listing| && Points(cursor, Left(listing, |all|)))
  }

  method Begin(table: seq<Row>, f: Filter, limit: int) returns (page: seq<Row>, next: string)
    requires IsTable(table)
    ensures Reading(Listing(table, f), page, next)
  {
    var read;
    read, next := List(table, f, limit, "");
    page := read.value;
    FirstIsReading(Query(table, f, None), PageSize(limit), next);
  }

  lemma FirstIsReading(listing: seq<Row>, limit: nat, next: string)
    requires limit > 0 && Points(next, FirstPage(listing, limit).1)
    ensures Reading(listing, FirstPage(listing, limit).0, next)
  {
  }

  /** List under a cursor that stands for a key. */
  method ListUnder(table: seq<Row>, f: Filter, limit: int, cursor: string, ghost key: Key) returns (page: seq<Row>, next: string)
    requires IsTable(table) && cursor != "" && Points(cursor, Some(key))
    ensures page == FirstPage(Query(table, f, Some(key)), PageSize(limit)).0
    ensures Points(next, FirstPage(Query(table, f, Some(key)), PageSize(limit)).1)
  {
    var read;
    read, next := List(table, f, limit, cursor);
    page := read.value;
  }

  method Continue(table: seq<Row>, newer: seq<Row>, f: Filter, limit: int, cursor: string, all: seq<Row>) returns (more: seq<Row>, next: string)
    requires IsTable(table) && Grown(table, newer)
    requires cursor != "" && Reading(Listing(table, f), all, cursor)
    ensures Reading(Listing(table, f), more, next) && |more| > |all|
  {
    RestOfListing(table, newer, f, |all|);
    more, next := ReadNext(table + newer, f, limit, cursor, all, Listing(table, f));
  }

  /** One more page of a listing whose rest the query finds. */
  method ReadNext(table: seq<Row>, f: Filter, limit: int, cursor: string, all: seq<Row>, ghost listing: seq<Row>)
    returns (more: seq<Row>, next: string)
    requires IsTable(table) && cursor != "" && Reading(listing, all, cursor)
    requires Query(table, f, Some(listing[|all| - 1].key)) == listing[|all|..]
    ensures Reading(listing, more, next) && |more| > |all|
  {
    var page;
    page, next := ListUnder(table, f, limit, cursor, listing[|all| - 1].key);
    ReadOn(listing, all, page, PageSize(limit), next);
    more := all + page;
  }

  /**
   Following the cursors from "" ends, and yields exactly what the filter matched at the start, each
   row once and newest first, whatever newer rows are there by the time of each page.
   */
  method Walk(table: seq<Row>, newer: nat -> seq<Row>, f: Filter, limit: int) returns (all: seq<Row>)
    requires IsTable(table) && forall n: nat :: Grown(table, newer(n))
    ensures all == Listing(table, f)
    ensures Descending(all) && forall r :: r in all <==> r in table && Matches(f, r)
  {
    var cursor;
    all, cursor := Begin(table, f, limit);
    var pages: nat := 1;
    while cursor != ""
      invariant Reading(Listing(table, f), all, cursor)
      decreases |Listing(table, f)| - |all|
    {
      all, cursor := Continue(table, newer(pages), f, limit, cursor, all);
      pages := pages + 1;
    }
    ListingIs(table, f);
  }

  lemma ReadOn(listing: seq<Row>, all: seq<Row>, page: seq<Row>, n: nat, next: string)
    requires 0 < |all| < |listing| && all == listing[..|all|] && n > 0
    requires page == FirstPage(listing[|all|..], n).0 && Points(next, FirstPage(listing[|all|..], n).1)
    ensures Reading(listing, all + page, next) && |page| > 0
  {
    NextPage(listing, |all|, page, n);
  }

  lemma NextPage(listing: seq<Row>, k: nat, page: seq<Row>, n: nat)
    requires 0 < k < |listing| && n > 0 && page == FirstPage(listing[k..], n).0
    ensures |page| > 0 && k + |page| <= |listing| && listing[..k] + page == listing[..k + |page|]
    ensures FirstPage(listing[k..], n).1 == Left(listing, k + |page|)
  {
  }

  /** The reason filter and the reason shown for a row agree, for every reason that has a name. */
  lemma ReasonFilterAgrees(row: Row, reason: string)
    requires reason in {CUSTOMER_CANCELLATION, TIMEOUT, MAC_FAILURE, SEND_FAILURE}
    requires row.reason.Some? && row.reason.value != ""
    ensures HasReason(row, reason) <==> ReasonOf(row.reason.value) == reason
  {
  }
}
