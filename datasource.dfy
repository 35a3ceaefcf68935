/** A reference database that honours a query's row window, used to state what
    the pages of a paginated query add up to. The rows are taken to be already
    in the order the query's sort keys ask for; sorting is the database's job. */
module DataSource {
  import opened Wrappers
  import opened Pagination

  function Min(a: int, b: int): int {
    if a <= b then a else b
  }

  function Clamp(x: int, lo: int, hi: int): (r: int)
    requires lo <= hi
    ensures lo <= r <= hi
  {
    if x < lo then lo else if x > hi then hi else x
  }

  /** The rows of `rows` whose zero-based index lies in [range.lower, range.upper). */
  function Window<T>(rows: seq<T>, range: QueryRange): (w: seq<T>)
    ensures |w| <= if range.upper <= range.lower then 0 else range.upper - range.lower
    ensures 0 <= range.lower ==>
              forall k :: 0 <= k < |w| ==> range.lower + k < |rows| && w[k] == rows[range.lower + k]
    ensures 0 <= range.lower <= range.upper ==>
              |w| == Min(range.upper, |rows|) - Min(range.lower, |rows|)
  {
    var lo := Clamp(range.lower, 0, |rows|);
    var hi := Clamp(range.upper, lo, |rows|);
    rows[lo..hi]
  }

  /** What the database returns for a query: the window when one is set, all rows otherwise. */
  function Execute<T>(rows: seq<T>, q: Query): seq<T> {
    match q.range
    case None => rows
    case Some(r) => Window(rows, r)
  }

  /** Pages 1 to n of `rows`, `count` rows per page, laid end to end. */
  function Pages<T>(rows: seq<T>, count: int, n: nat): seq<T> {
    if n == 0 then [] else Pages(rows, count, n - 1) + Window(rows, PageRange(n, count))
  }

  lemma MulStep(n: int, count: int)
    ensures (n - 1) * count + count == n * count
  {
  }

  lemma MulMonotone(a: int, b: int, count: int)
    requires a <= b && 0 <= count
    ensures a * count <= b * count
  {
  }

  /** Page n asks for rows (n - 1) * count up to n * count. */
  lemma PageRangeBounds(n: int, count: int)
    requires n >= 1
    ensures PageRange(n, count).lower == (n - 1) * count
    ensures PageRange(n, count).upper == n * count
  {
  }

  /** Consecutive pages ask for adjoining windows: no row is skipped or asked for twice. */
  lemma PagesAdjoin(page: int, count: int)
    requires page >= 1
    ensures PageRange(page, count).upper == PageRange(page + 1, count).lower
  {
  }

  /** The first n pages together are exactly the first n * count rows (all rows
      once n * count passes the end). */
  lemma {:induction false} PagesReassemble<T>(rows: seq<T>, count: int, n: nat)
    requires count >= 0
    ensures Pages(rows, count, n) == rows[..Min(n * count, |rows|)]
  {
    if n > 0 {
      PagesReassemble(rows, count, n - 1);
      PageRangeBounds(n, count);
      MulMonotone(n - 1, n, count);
      MulMonotone(0, n - 1, count);
      var lo := Min((n - 1) * count, |rows|);
      var hi := Min(n * count, |rows|);
      assert Window(rows, PageRange(n, count)) == rows[lo..hi];
      assert rows[..lo] + rows[lo..hi] == rows[..hi];
    }
  }

  /** Row i lies in [(i / count) * count, (i / count) * count + count). */
  lemma DivBounds(i: int, count: int)
    requires count > 0
    ensures (i / count) * count <= i < (i / count) * count + count
  {
  }

  /** A row index in [k * count, k * count + count) gives quotient k. */
  lemma DivUnique(i: int, count: int, k: int)
    requires count > 0 && k * count <= i < k * count + count
    ensures i / count == k
  {
    var q := i / count;
    DivBounds(i, count);
    if q < k {
      MulMonotone(q + 1, k, count);
      MulStep(q + 1, count);
      assert false;
    } else if q > k {
      MulMonotone(k + 1, q, count);
      MulStep(k + 1, count);
      assert false;
    }
  }

  /** With a positive page size every row index lies on exactly one page, page i / count + 1. */
  lemma RowOnExactlyOnePage(i: int, count: int, page: int)
    requires i >= 0 && count > 0 && page >= 1
    ensures PageRange(page, count).lower <= i < PageRange(page, count).upper
            <==> page == i / count + 1
  {
    if PageRange(page, count).lower <= i < PageRange(page, count).upper {
      DivUnique(i, count, page - 1);
    }
    if page == i / count + 1 {
      DivBounds(i, count);
    }
  }

  /** Against a database that honours the window, a successful page holds the
      rows from (page - 1) * count on, never more than `count` of them, and
      `total` counts just those rows. */
  lemma PageFromDatabase<M>(rows: seq<M>, query: Query, page: Int, count: Int,
                            sorts: seq<QuerySort>)
    requires page >= 1 && count >= 0
    ensures var out := PaginateOutcome(query, page, count, sorts, q => Execute(rows, q));
            var lo := Min((page - 1) * count, |rows|);
            var hi := Min(page * count, |rows|);
            && out.result.Success?
            && lo <= hi
            && out.result.value.data == rows[lo..hi]
            && |out.result.value.data| <= count
            && out.result.value.total == hi - lo
  {
  }

  /** 25 rows, 10 per page: page 1 is rows 0..10 and page 3 is the last five rows;
      `total` is the number of rows on the page, not 25. */
  lemma TwentyFiveRows<M>(rows: seq<M>, query: Query, sorts: seq<QuerySort>)
    requires |rows| == 25
    ensures var first := PaginateOutcome(query, 1, 10, sorts, q => Execute(rows, q));
            && first.query.range == Some(QueryRange(0, 10))
            && first.result == Success(Page(1, rows[..10], 10, 10))
    ensures var third := PaginateOutcome(query, 3, 10, sorts, q => Execute(rows, q));
            && third.query.range == Some(QueryRange(20, 30))
            && third.result == Success(Page(3, rows[20..], 10, 5))
  {
    assert rows[20..25] == rows[20..];
  }

  /** A caller's view of the builder: the same calls made through its methods. */
  method ClientScenarios(rows: seq<int>)
    requires |rows| == 25
  {
    var plain := Query("users", [], [], None);
    var name := QuerySort("name", Ascending);
    var model := Paginatable(20, Some(100), [name]);
    var builder := new QueryBuilder(model, plain, q => Execute(rows, q));

    var zero := builder.Paginate(0);
    assert zero == Failure(InvalidPageNumber(0)) && builder.query == plain;
    assert builder.fetched == [];

    var third := builder.Paginate(3, 10);
    assert rows[20..25] == rows[20..];
    assert builder.query.range == Some(QueryRange(20, 30));
    assert builder.query.sorts == [name];
    assert third == Success(Page(3, rows[20..], 10, 5));
    assert builder.fetched == [builder.query];

    var again := builder.Paginate(3, 10);
    assert builder.query.sorts == [name, name];
    assert again == third;

    var second := new QueryBuilder(model, plain, q => Execute(rows, q));
    var defaults := second.PaginateFor(map[], "page", "per");
    assert second.query.range == Some(QueryRange(0, 20));
    assert defaults == Success(Page(1, rows[..20], 20, 20));

    var big := new QueryBuilder(model, plain, q => Execute(rows, q));
    var clamped := big.PaginateFor(map["per" := IntegerValue(500)], "page", "per");
    assert rows[0..25] == rows;
    assert big.query.range == Some(QueryRange(0, 100));
    assert clamped == Success(Page(1, rows, 100, 25));

    var wrong := new QueryBuilder(model, plain, q => Execute(rows, q));
    var malformed := wrong.PaginateFor(map["page" := OtherValue("two")], "page", "per");
    assert malformed == Failure(ParameterTypeError("page"));
    assert wrong.query == plain && wrong.fetched == [];
  }
}
