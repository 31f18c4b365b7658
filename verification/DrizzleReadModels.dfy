/** Stable total order and page windows over SQL read models (Source/Drizzle/DrizzleReadModels.ts). */
module DrizzleReadModels {
  import opened Options

  type Column = nat

  /**
   * A column's value. `rank` is its place in the order the database sorts the column by, whatever its type, collation
   * and treatment of nulls; values that differ may share it.
   */
  datatype Cell = Cell(rank: real, content: nat)

  /** A row holds one value for each column. */
  type Row = seq<Cell>

  datatype Direction = Ascending | Descending | Unsupported
  datatype Sorting = Sorting(field: Column, direction: Direction)
  datatype By = By(column: Column, descending: bool)

  datatype Model = Model(columns: nat, keys: seq<Column>, sortable: set<Column>, maxPageSize: nat)
  {
    /** What the constructor checks, and what a table guarantees. */
    predicate Valid() {
      && keys != [] && 1 <= maxPageSize <= 10000
      && (forall i :: 0 <= i < |keys| ==> keys[i] < columns)
      && (forall c :: c in sortable ==> c < columns)
    }
  }

  // ---- the order --------------------------------------------------------------------------------

  function Without(keys: seq<Column>, c: Column): (r: seq<Column>)
    ensures forall k :: k in r <==> k in keys && k != c
  {
    if keys == [] then [] else (if keys[0] == c then [] else [keys[0]]) + Without(keys[1..], c)
  }

  function Increasing(keys: seq<Column>): (r: seq<By>)
    ensures |r| == |keys| && forall i :: 0 <= i < |r| ==> r[i] == By(keys[i], false)
  {
    if keys == [] then [] else [By(keys[0], false)] + Increasing(keys[1..])
  }

  /** `order`: the sort column, then the primary keys; None when the sorting is not supported. */
  function Order(m: Model, sorting: Option<Sorting>): Option<seq<By>>
    requires m.Valid()
  {
    if sorting.Some? && (sorting.value.direction.Unsupported? || sorting.value.field !in m.sortable) then None
    else
      var column := if sorting.Some? then sorting.value.field else m.keys[0];
      Some([By(column, sorting.Some? && sorting.value.direction.Descending?)] + Increasing(Without(m.keys, column)))
  }

  /** Every column the order mentions exists. */
  predicate Fits(order: seq<By>, row: Row) {
    forall i :: 0 <= i < |order| ==> order[i].column < |row|
  }

  /** One row comes strictly before another: the first column in which they differ decides. */
  predicate Precedes(order: seq<By>, a: Row, b: Row)
    requires Fits(order, a) && Fits(order, b)
  {
    if order == [] then false
    else
      var x, y := a[order[0].column].rank, b[order[0].column].rank;
      if x != y then (if order[0].descending then y < x else x < y)
      else
        assert forall i :: 0 <= i < |order[1..]| ==> order[1..][i] == order[i + 1];
        Precedes(order[1..], a, b)
  }

  lemma {:induction false} PrecedesIsStrict(order: seq<By>, a: Row, b: Row, c: Row)
    requires Fits(order, a) && Fits(order, b) && Fits(order, c)
    ensures !Precedes(order, a, a)
    ensures Precedes(order, a, b) ==> !Precedes(order, b, a)
    ensures Precedes(order, a, b) && Precedes(order, b, c) ==> Precedes(order, a, c)
  {
    if order != [] {
      assert forall i :: 0 <= i < |order[1..]| ==> order[1..][i] == order[i + 1];
      PrecedesIsStrict(order[1..], a, b, c);
    }
  }

  lemma {:induction false} PrecedesIsTotal(order: seq<By>, a: Row, b: Row, i: nat)
    requires Fits(order, a) && Fits(order, b) && i < |order| && a[order[i].column].rank != b[order[i].column].rank
    ensures Precedes(order, a, b) || Precedes(order, b, a)
  {
    if a[order[0].column].rank == b[order[0].column].rank {
      assert forall k :: 0 <= k < |order[1..]| ==> order[1..][k] == order[k + 1];
      PrecedesIsTotal(order[1..], a, b, i - 1);
    }
  }

  /** A table: every row has every column, and no two rows share a primary key. */
  ghost predicate Table(m: Model, rows: seq<Row>) {
    && (forall i :: 0 <= i < |rows| ==> |rows[i]| == m.columns)
    && (forall i, j :: 0 <= i < j < |rows| ==> exists k :: k in m.keys && k < m.columns && rows[i][k].rank != rows[j][k].rank)
  }

  /** The produced order is a strict total order on the rows of a table, whatever column it sorts by. */
  lemma OrderIsTotal(m: Model, sorting: Option<Sorting>, rows: seq<Row>, a: Row, b: Row)
    requires m.Valid() && Order(m, sorting).Some? && Table(m, rows) && a in rows && b in rows && a != b
    ensures var order := Order(m, sorting).value;
            Fits(order, a) && Fits(order, b) && (Precedes(order, a, b) <==> !Precedes(order, b, a))
  {
    var order := Order(m, sorting).value;
    var i :| 0 <= i < |rows| && rows[i] == a;
    var j :| 0 <= j < |rows| && rows[j] == b;
    OrderFits(m, sorting, a);
    OrderFits(m, sorting, b);
    var k :| k in m.keys && k < m.columns && a[k].rank != b[k].rank;
    var column := order[0].column;
    if k == column {
      PrecedesIsTotal(order, a, b, 0);
    } else {
      var n :| 0 <= n < |Without(m.keys, column)| && Without(m.keys, column)[n] == k;
      assert order[n + 1] == By(k, false);
      PrecedesIsTotal(order, a, b, n + 1);
    }
    PrecedesIsStrict(order, a, b, a);
  }

  lemma OrderFits(m: Model, sorting: Option<Sorting>, row: Row)
    requires m.Valid() && Order(m, sorting).Some? && |row| == m.columns
    ensures Fits(Order(m, sorting).value, row)
  {
    var order := Order(m, sorting).value;
    forall i | 0 <= i < |order| ensures order[i].column < |row| {
      if i != 0 {
        assert order[i].column == Without(m.keys, order[0].column)[i - 1];
        assert order[i].column in m.keys;
      }
    }
  }

  // ---- what a sorted query returns --------------------------------------------------------------

  /** The rows a database may return for one ordered query: all of them, none out of order. */
  ghost predicate Sorted(m: Model, sorting: Option<Sorting>, rows: seq<Row>, s: seq<Row>)
    requires m.Valid() && Order(m, sorting).Some?
  {
    multiset(s) == multiset(rows) && InOrder(m, sorting, s)
  }

  predicate Later(m: Model, sorting: Option<Sorting>, a: Row, b: Row)
    requires m.Valid() && Order(m, sorting).Some?
  {
    var order := Order(m, sorting).value;
    Fits(order, a) && Fits(order, b) && Precedes(order, b, a)
  }

  /** No row stands before one that should precede it. */
  ghost predicate InOrder(m: Model, sorting: Option<Sorting>, s: seq<Row>)
    requires m.Valid() && Order(m, sorting).Some?
  {
    forall i, j :: 0 <= i < j < |s| ==> !Later(m, sorting, s[i], s[j])
  }

  // ---- the order that was asked for -------------------------------------------------------------

  predicate Holds(keys: seq<Column>, row: Row) {
    forall i :: 0 <= i < |keys| ==> keys[i] < |row|
  }

  lemma IncreasingFits(keys: seq<Column>, c: Column, row: Row)
    requires Holds(keys, row)
    ensures Fits(Increasing(Without(keys, c)), row)
  {
    forall k | k in Without(keys, c) ensures k < |row| { assert k in keys; }
    assert forall i :: 0 <= i < |Without(keys, c)| ==> Without(keys, c)[i] in Without(keys, c);
  }

  /** The first of these keys in which the rows differ. */
  predicate FirstDifference(keys: seq<Column>, a: Row, b: Row, i: int) {
    && 0 <= i < |keys| && keys[i] < |a| && keys[i] < |b| && a[keys[i]].rank != b[keys[i]].rank
    && forall j :: 0 <= j < i ==> keys[j] < |a| && keys[j] < |b| && a[keys[j]].rank == b[keys[j]].rank
  }

  /** The first key in which the rows differ is smaller in the first of them. */
  ghost predicate SmallerKey(keys: seq<Column>, a: Row, b: Row) {
    exists i :: FirstDifference(keys, a, b, i) && a[keys[i]].rank < b[keys[i]].rank
  }

  lemma SmallerKeyOn(keys: seq<Column>, a: Row, b: Row)
    requires keys != [] && Holds(keys, a) && Holds(keys, b)
    ensures SmallerKey(keys, a, b) <==>
            a[keys[0]].rank < b[keys[0]].rank || (a[keys[0]].rank == b[keys[0]].rank && SmallerKey(keys[1..], a, b))
  {
    if SmallerKey(keys[1..], a, b) && a[keys[0]].rank == b[keys[0]].rank {
      var i :| FirstDifference(keys[1..], a, b, i) && a[keys[1..][i]].rank < b[keys[1..][i]].rank;
      assert FirstDifference(keys, a, b, i + 1);
    }
    if a[keys[0]].rank < b[keys[0]].rank { assert FirstDifference(keys, a, b, 0); }
    if SmallerKey(keys, a, b) {
      var i :| FirstDifference(keys, a, b, i) && a[keys[i]].rank < b[keys[i]].rank;
      if i != 0 {
        assert FirstDifference(keys[1..], a, b, i - 1) by {
          assert forall j :: 0 <= j < i - 1 ==> keys[1..][j] == keys[j + 1];
        }
      }
    }
  }

  /** Among rows that agree in one column, the increasing order of the other keys is the order of the keys. */
  lemma {:induction false} KeysDecide(keys: seq<Column>, c: Column, a: Row, b: Row)
    requires c < |a| && c < |b| && a[c].rank == b[c].rank
    requires Holds(keys, a) && Holds(keys, b)
    ensures var order := Increasing(Without(keys, c));
            Fits(order, a) && Fits(order, b) && (Precedes(order, a, b) <==> SmallerKey(keys, a, b))
  {
    IncreasingFits(keys, c, a);
    IncreasingFits(keys, c, b);
    if keys != [] {
      KeysDecide(keys[1..], c, a, b);
      SmallerKeyOn(keys, a, b);
      if keys[0] != c {
        var rest := Increasing(Without(keys[1..], c));
        assert Without(keys, c)[1..] == Without(keys[1..], c);
        assert Increasing(Without(keys, c)) == [By(keys[0], false)] + rest;
        assert Increasing(Without(keys, c))[1..] == rest;
      } else {
        assert Without(keys, c) == Without(keys[1..], c);
      }
    }
  }

  /** What the caller of a query asked for, said without the order that is handed to the database. */
  ghost predicate Asked(m: Model, sorting: Option<Sorting>, a: Row, b: Row)
    requires m.Valid() && |a| == m.columns && |b| == m.columns
    requires sorting.Some? ==> sorting.value.field < m.columns
  {
    if sorting.Some? && a[sorting.value.field].rank != b[sorting.value.field].rank then
      (if sorting.value.direction.Descending? then b[sorting.value.field].rank < a[sorting.value.field].rank
       else a[sorting.value.field].rank < b[sorting.value.field].rank)
    else SmallerKey(m.keys, a, b)
  }

  /**
   * Rows precede each other as was asked for: by the requested field in the requested direction, and where that is equal,
   * or nothing was requested, by the first primary key in which they differ, ascending. What is not sortable, or not
   * sorted either way, is refused.
   */
  lemma RowsPrecedeAsAsked(m: Model, sorting: Option<Sorting>, a: Row, b: Row)
    requires m.Valid() && |a| == m.columns && |b| == m.columns
    ensures Order(m, sorting).None? <==> sorting.Some? && (sorting.value.direction.Unsupported? || sorting.value.field !in m.sortable)
    ensures var order := Order(m, sorting);
            order.Some? ==> Fits(order.value, a) && Fits(order.value, b) && (Precedes(order.value, a, b) <==> Asked(m, sorting, a, b))
  {
    var order := Order(m, sorting);
    if order.Some? {
      OrderFits(m, sorting, a);
      OrderFits(m, sorting, b);
      var column := order.value[0].column;
      assert order.value[1..] == Increasing(Without(m.keys, column));
      if a[column].rank == b[column].rank { KeysDecide(m.keys, column, a, b); } else { SmallerKeyOn(m.keys, a, b); }
    }
  }

  /** So the answer to a sorted query never shows a row before one that was asked to come first. */
  lemma AnswersComeAsAsked(m: Model, sorting: Option<Sorting>, rows: seq<Row>, s: seq<Row>, i: nat, j: nat)
    requires m.Valid() && Order(m, sorting).Some? && Table(m, rows) && Sorted(m, sorting, rows, s) && i < j < |s|
    ensures |s[i]| == m.columns && |s[j]| == m.columns && (Asked(m, sorting, s[i], s[j]) || s[i] == s[j])
  {
    assert s[i] in multiset(rows) && s[j] in multiset(rows);
    RowsPrecedeAsAsked(m, sorting, s[i], s[j]);
    RowsPrecedeAsAsked(m, sorting, s[j], s[i]);
    assert !Later(m, sorting, s[i], s[j]);
    if s[i] != s[j] { OrderIsTotal(m, sorting, rows, s[i], s[j]); }
  }

  // ---- sorted answers agree ---------------------------------------------------------------------

  lemma SameFirst(m: Model, sorting: Option<Sorting>, rows: seq<Row>, s: seq<Row>, t: seq<Row>)
    requires m.Valid() && Order(m, sorting).Some? && Table(m, rows)
    requires InOrder(m, sorting, s) && InOrder(m, sorting, t) && s != [] && t != []
    requires s[0] in t && t[0] in s && s[0] in rows && t[0] in rows
    ensures s[0] == t[0]
  {
    var i :| 0 <= i < |s| && s[i] == t[0];
    var j :| 0 <= j < |t| && t[j] == s[0];
    assert i != 0 ==> !Later(m, sorting, s[0], s[i]);
    assert j != 0 ==> !Later(m, sorting, t[0], t[j]);
    hide InOrder, Order, Table;
    if s[0] != t[0] { OrderIsTotal(m, sorting, rows, s[0], t[0]); }
  }

  lemma DropFirst(s: seq<Row>)
    requires s != []
    ensures multiset(s[1..]) == multiset(s) - multiset{s[0]}
  {
    assert s == [s[0]] + s[1..];
  }

  lemma TailInOrder(m: Model, sorting: Option<Sorting>, s: seq<Row>)
    requires m.Valid() && Order(m, sorting).Some? && InOrder(m, sorting, s) && s != []
    ensures InOrder(m, sorting, s[1..])
  {
  }

  lemma SameRows(s: seq<Row>, t: seq<Row>)
    requires multiset(s) == multiset(t)
    ensures |s| == |t| && (s != [] ==> s[0] in t && t[0] in s)
  {
    assert |s| == |multiset(s)| && |t| == |multiset(t)|;
    assert s != [] ==> s[0] in multiset(t) && t[0] in multiset(s);
  }

  lemma {:induction false} SortedIsUnique(m: Model, sorting: Option<Sorting>, rows: seq<Row>, s: seq<Row>, t: seq<Row>)
    requires m.Valid() && Order(m, sorting).Some? && Table(m, rows)
    requires multiset(s) == multiset(t) && forall r :: r in s ==> r in rows
    requires InOrder(m, sorting, s) && InOrder(m, sorting, t)
    ensures s == t
    decreases |s|
  {
    hide InOrder, Order, Table;
    SameRows(s, t);
    if s != [] {
      assert t[0] in s;
      SameFirst(m, sorting, rows, s, t);
      DropFirst(s);
      DropFirst(t);
      TailInOrder(m, sorting, s);
      TailInOrder(m, sorting, t);
      SortedIsUnique(m, sorting, rows, s[1..], t[1..]);
      assert s == [s[0]] + s[1..] && t == [t[0]] + t[1..];
    }
  }

  // ---- pages ------------------------------------------------------------------------------------

  function Min(a: nat, b: nat): nat {
    if a < b then a else b
  }

  /** `limit` rows from `offset` on. */
  function Window(s: seq<Row>, offset: nat, limit: nat): (r: seq<Row>)
    ensures |r| == Min(limit, if offset < |s| then |s| - offset else 0)
    ensures offset == 0 && |s| <= limit ==> r == s
  {
    s[Min(offset, |s|)..Min(offset + limit, |s|)]
  }

  function Concat(pages: seq<seq<Row>>): seq<Row> {
    if pages == [] then [] else Concat(pages[..|pages| - 1]) + pages[|pages| - 1]
  }

  lemma WindowExtends(s: seq<Row>, offset: nat, limit: nat)
    ensures s[..Min(offset, |s|)] + Window(s, offset, limit) == s[..Min(offset + limit, |s|)]
  {
  }

  /** Where a page begins. */
  function Offset(page: nat, size: nat): nat {
    page * size
  }

  lemma OffsetOn(page: nat, size: nat)
    ensures Offset(0, size) == 0 && Offset(page + 1, size) == Offset(page, size) + size
  {
  }

  lemma {:induction false} WindowsConcat(s: seq<Row>, pages: seq<seq<Row>>, size: nat)
    requires forall k :: 0 <= k < |pages| ==> pages[k] == Window(s, Offset(k, size), size)
    ensures Concat(pages) == s[..Min(Offset(|pages|, size), |s|)]
  {
    hide Window, Offset;
    if pages != [] {
      var n := |pages| - 1;
      WindowsConcat(s, pages[..n], size);
      OffsetOn(n, size);
      WindowExtends(s, Offset(n, size), size);
    } else {
      OffsetOn(0, size);
    }
  }

  /**
   * Pages of independently sorted queries fit together: for any supported sorting and any page size, the pages up to the
   * last row are the sorted rows, with no gap and no repeat, whichever arrangement each query chose.
   */
  lemma PagesPartitionTheRows(m: Model, sorting: Option<Sorting>, rows: seq<Row>, answers: seq<seq<Row>>, pages: seq<seq<Row>>, size: nat)
    requires m.Valid() && Order(m, sorting).Some? && Table(m, rows) && answers != [] && |answers| == |pages|
    requires forall k :: 0 <= k < |answers| ==> Sorted(m, sorting, rows, answers[k])
    requires forall k :: 0 <= k < |pages| ==> pages[k] == Window(answers[k], Offset(k, size), size)
    requires |rows| <= Offset(|pages|, size)
    ensures Sorted(m, sorting, rows, Concat(pages))
    ensures forall k :: 0 <= k < |answers| ==> Concat(pages) == answers[k]
  {
    var s := answers[0];
    forall k | 0 <= k < |answers| ensures answers[k] == s {
      assert forall r :: r in s ==> r in multiset(rows);
      SortedIsUnique(m, sorting, rows, s, answers[k]);
    }
    WindowsConcat(s, pages, size);
    assert |s| == |multiset(s)| == |multiset(rows)| == |rows|;
    assert s[..|s|] == s;
  }

  /** Under any order that leaves two rows tied, they can change places between two queries, and one is never shown. */
  lemma TiesBreakPages(order: seq<By>, a: Row, b: Row)
    requires Fits(order, a) && Fits(order, b) && a != b && !Precedes(order, a, b) && !Precedes(order, b, a)
    ensures multiset([a, b]) == multiset([b, a])
    ensures var shown := Window([a, b], 0, 1) + Window([b, a], 1, 1); shown == [a, a] && b !in shown
  {
    assert multiset([a, b]) == multiset{a, b} == multiset([b, a]);
  }

  // ---- reading ----------------------------------------------------------------------------------

  /** A JavaScript number that need not be whole. */
  datatype Number = Whole(value: int) | NotWhole

  predicate Safe(n: Number) {
    n.Whole? && -0x20_0000_0000_0000 < n.value < 0x20_0000_0000_0000
  }

  datatype Paging = Paging(page: Number, pageSize: Number)
  datatype Error = InvalidPage | PagingRequired | InvalidSort | InvalidCount | Inconsistent
  datatype Result<T> = Ok(value: T) | Err(error: Error)
  datatype QueryPage = QueryPage(items: seq<Row>, total: nat)

  /** A page whose offset can be represented exactly. */
  predicate Exact(p: Paging) {
    && Safe(p.page) && 0 <= p.page.value && Safe(p.pageSize) && 1 <= p.pageSize.value
    && Safe(Whole(p.page.value * p.pageSize.value))
  }

  /** `validatePage`: a page of the model, within bounds that keep its offset exact. */
  method ValidatePage(m: Model, paging: Option<Paging>, sorting: Option<Sorting>) returns (r: Result<(nat, nat)>)
    requires m.Valid()
    ensures r.Ok? <==> Order(m, sorting).Some? && (paging.Some? ==> Exact(paging.value) && paging.value.pageSize.value <= m.maxPageSize)
    ensures r == Err(InvalidPage) <==> paging.Some? && !Exact(paging.value)
    ensures r == Err(PagingRequired) <==> paging.Some? && Exact(paging.value) && m.maxPageSize < paging.value.pageSize.value
    ensures r.Ok? ==> 1 <= r.value.1 <= m.maxPageSize
    ensures r.Ok? ==> r.value == if paging.Some? then (paging.value.page.value, paging.value.pageSize.value) else (0, m.maxPageSize)
  {
    var p := if paging.Some? then paging.value else Paging(Whole(0), Whole(m.maxPageSize));
    if !Safe(p.page) || p.page.value < 0 || !Safe(p.pageSize) || p.pageSize.value < 1 { return Err(InvalidPage); }
    if !Safe(Whole(p.page.value * p.pageSize.value)) { return Err(InvalidPage); }
    if p.pageSize.value > m.maxPageSize { return Err(PagingRequired); }
    if Order(m, sorting).None? { return Err(InvalidSort); }
    return Ok((p.page.value, p.pageSize.value));
  }

  /** What the database answers in one attempt: a count, and the sorted rows it held when they were selected. */
  datatype Attempt = Attempt(count: Number, sorted: seq<Row>)

  predicate Counts(a: Attempt) {
    Safe(a.count) && 0 <= a.count.value
  }

  /** The items of a page are as many as its count leaves for it. */
  predicate Consistent(items: seq<Row>, total: nat, page: nat, pageSize: nat) {
    |items| == Min(pageSize, if Offset(page, pageSize) < total then total - Offset(page, pageSize) else 0)
  }

  predicate Agrees(a: Attempt, page: nat, pageSize: nat) {
    Counts(a) && Consistent(Window(a.sorted, Offset(page, pageSize), pageSize), a.count.value, page, pageSize)
  }

  /** An attempt that neither fails nor agrees is tried again. */
  predicate Retries(a: Attempt, m: Model, paged: bool, page: nat, pageSize: nat) {
    Counts(a) && (paged || a.count.value <= m.maxPageSize) && !Agrees(a, page, pageSize)
  }

  /** The read behind `observePage`: at most three attempts to see a count and a page that agree. */
  method ObservedPage(m: Model, paged: bool, page: nat, pageSize: nat, attempts: seq<Attempt>) returns (r: Result<QueryPage>)
    requires |attempts| == 3
    ensures r.Ok? ==> Consistent(r.value.items, r.value.total, page, pageSize) && (!paged ==> r.value.total <= m.maxPageSize)
    ensures r.Ok? ==> exists i :: 0 <= i < 3 && (forall k :: 0 <= k < i ==> Retries(attempts[k], m, paged, page, pageSize))
                                  && Counts(attempts[i]) && r.value.total == attempts[i].count.value
                                  && r.value.items == Window(attempts[i].sorted, Offset(page, pageSize), pageSize)
    ensures r == Err(InvalidCount) ==>
              exists i :: 0 <= i < 3 && (forall k :: 0 <= k < i ==> Retries(attempts[k], m, paged, page, pageSize)) && !Counts(attempts[i])
    ensures r == Err(PagingRequired) ==>
              exists i :: 0 <= i < 3 && (forall k :: 0 <= k < i ==> Retries(attempts[k], m, paged, page, pageSize))
                          && Counts(attempts[i]) && !paged && m.maxPageSize < attempts[i].count.value
    ensures r.Err? ==> r.error in {InvalidCount, PagingRequired, Inconsistent}
    ensures r == Err(Inconsistent) <==> forall k :: 0 <= k < 3 ==> Retries(attempts[k], m, paged, page, pageSize)
    ensures Agrees(attempts[0], page, pageSize) && (paged || attempts[0].count.value <= m.maxPageSize) ==> r.Ok?
  {
    var attempt := 0;
    while attempt < 3
      invariant 0 <= attempt <= 3
      invariant forall k :: 0 <= k < attempt ==> Retries(attempts[k], m, paged, page, pageSize)
    {
      var a := attempts[attempt];
      if !Counts(a) { return Err(InvalidCount); }
      var total: nat := a.count.value;
      if !paged && total > m.maxPageSize { return Err(PagingRequired); }
      var items := Window(a.sorted, Offset(page, pageSize), pageSize);
      if |items| == Min(pageSize, if Offset(page, pageSize) < total then total - Offset(page, pageSize) else 0) {
        return Ok(QueryPage(items, total));
      }
      attempt := attempt + 1;
    }
    return Err(Inconsistent);
  }

  /** Without a write between the count and the selection, the first attempt agrees. */
  lemma UndisturbedAttemptAgrees(a: Attempt, page: nat, pageSize: nat)
    requires Counts(a) && a.count.value == |a.sorted|
    ensures Agrees(a, page, pageSize)
  {
  }

  /** `observe` asks for one row more than it may show: what it emits is the complete result, never a truncated one. */
  method Observed(m: Model, sorted: seq<Row>) returns (r: Result<seq<Row>>)
    ensures r == if |sorted| <= m.maxPageSize then Ok(sorted) else Err(PagingRequired)
  {
    var items := Window(sorted, 0, m.maxPageSize + 1);
    if |items| > m.maxPageSize { return Err(PagingRequired); }
    return Ok(items);
  }
}
