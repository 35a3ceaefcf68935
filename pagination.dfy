/** Page-based pagination of a query builder: the page calculator
    (`paginate(page:count:_:)`) and the request adapter
    (`paginate(for:key:perKey:_:)`) of QueryBuilder+Paginatable.swift. */
module Pagination {
  import opened Wrappers

  const MinInt: int := -0x8000_0000_0000_0000
  const MaxInt: int := 0x7FFF_FFFF_FFFF_FFFF

  predicate InInt(x: int) {
    MinInt <= x <= MaxInt
  }

  /** Swift's `Int` on a 64-bit platform. */
  type Int = x: int | InInt(x)

  // ---------------------------------------------------------------------------
  // Data model
  // ---------------------------------------------------------------------------

  datatype SortDirection = Ascending | Descending

  /** One sort key of a query: a field and a direction. */
  datatype QuerySort = QuerySort(field: string, direction: SortDirection)

  /** A filter of a query; it stands for all query state pagination leaves alone. */
  datatype QueryFilter = QueryFilter(field: string, value: string)

  /** The half-open row window [lower, upper) a query asks the database for. */
  datatype QueryRange = QueryRange(lower: int, upper: int)

  /** The query a builder is assembling. */
  datatype Query = Query(entity: string, filters: seq<QueryFilter>, sorts: seq<QuerySort>,
                         range: Option<QueryRange>)

  /** One page of results with its metadata. */
  datatype Page<M> = Page(number: Int, data: seq<M>, size: Int, total: nat)

  /** What a paginatable model declares about itself. */
  datatype Paginatable = Paginatable(defaultPageSize: Int, maxPageSize: Option<Int>,
                                     defaultPageSorts: seq<QuerySort>)

  /** The errors the two operations throw. `ParameterTypeError` is the web
      framework's decoding error for a query-string value that is not an integer. */
  datatype PaginationError = InvalidPageNumber(page: Int) | ParameterTypeError(key: string)

  /** A query-string value as the framework's typed accessor sees it: an integer,
      or something it cannot decode as one. */
  datatype ParamValue = IntegerValue(n: Int) | OtherValue(raw: string)

  /** The page number and page size the request adapter settles on. */
  datatype PageRequest = PageRequest(page: Int, per: Int)

  /** The state a pagination call leaves behind: the builder's query and what the call returned or threw. */
  datatype Outcome<M> = Outcome(query: Query, result: Result<Page<M>, PaginationError>)

  // ---------------------------------------------------------------------------
  // Page calculator
  // ---------------------------------------------------------------------------

  /** The `page > 0 ? page : 1` fallback: always a valid page number, and the
      identity on every page number the guard lets through. */
  function PageFallback(page: Int): (r: Int)
    ensures r >= 1
    ensures page > 0 ==> r == page
  {
    if page > 0 then page else 1
  }

  /** The row window of page `page` (counted from 1) with `count` rows per page. */
  function PageRange(page: int, count: int): (r: QueryRange)
    requires page >= 1
    ensures r.upper - r.lower == count
    ensures count >= 0 ==> 0 <= r.lower
    ensures page == 1 ==> r.lower == 0
  {
    var lowerBound := (page - 1) * count;
    QueryRange(lowerBound, lowerBound + count)
  }

  /** Both bounds of the page's window are representable, so computing them does not trap. */
  predicate RangeFits(page: int, count: int)
    requires page >= 1
  {
    InInt(PageRange(page, count).lower) && InInt(PageRange(page, count).upper)
  }

  /** The Page built from the fetched rows. */
  function MakePage<M>(page: Int, count: Int, results: seq<M>): Page<M> {
    Page(page, results, count, |results|)
  }

  /** What `paginate(page:count:_:)` does to a query, given what the database
      returns for the query it ends up with. */
  function PaginateOutcome<M>(query: Query, page: Int, count: Int, sorts: seq<QuerySort>,
                               fetch: Query -> seq<M>): (out: Outcome<M>)
    ensures out.result.Failure? <==> page <= 0
    ensures out.result.Failure? ==>
              out.result.error == InvalidPageNumber(page) && out.query == query
    ensures out.result.Success? ==>
              && out.query.range.Some?
              && out.query.range.value.lower == (page - 1) * count
              && out.query.range.value.upper - out.query.range.value.lower == count
              && (count >= 0 ==> 0 <= out.query.range.value.lower)
    ensures out.result.Success? ==>
              && query.sorts <= out.query.sorts
              && out.query.sorts[|query.sorts|..] == sorts
              && out.query.entity == query.entity
              && out.query.filters == query.filters
    ensures out.result.Success? ==>
              && out.result.value.number == page
              && out.result.value.size == count
              && out.result.value.data == fetch(out.query)
              && out.result.value.total == |out.result.value.data|
  {
    if page <= 0 then
      Outcome(query, Failure(InvalidPageNumber(page)))
    else
      var pageUsed := PageFallback(page);
      var q := query.(range := Some(PageRange(pageUsed, count)), sorts := query.sorts + sorts);
      Outcome(q, Success(MakePage(pageUsed, count, fetch(q))))
  }

  /** Paginating the same builder twice with the same arguments asks for the same
      window again but adds the sort keys a second time; the two pages are equal
      when the database returns the same rows for both queries. */
  lemma RepeatedPaginateAppendsSortsTwice<M>(query: Query, page: Int, count: Int,
                                             sorts: seq<QuerySort>, fetch: Query -> seq<M>)
    requires page > 0
    ensures var first := PaginateOutcome(query, page, count, sorts, fetch);
            var second := PaginateOutcome(first.query, page, count, sorts, fetch);
            && second.query.range == first.query.range
            && second.query.sorts == query.sorts + sorts + sorts
            && second.result.value.number == first.result.value.number
            && second.result.value.size == first.result.value.size
            && (fetch(second.query) == fetch(first.query) ==> second.result == first.result)
  {
  }

  // ---------------------------------------------------------------------------
  // Request adapter
  // ---------------------------------------------------------------------------

  /** The query string holds a value at `key` that is not an integer. */
  predicate Malformed(params: map<string, ParamValue>, key: string) {
    key in params && params[key].OtherValue?
  }

  /** The framework's `get(Int?.self, at: key)`: nothing when the key is absent,
      the integer when it decodes, a thrown error otherwise. */
  function ReadInt(params: map<string, ParamValue>, key: string): Result<Option<Int>, PaginationError> {
    if key !in params then Success(None)
    else match params[key]
      case IntegerValue(n) => Success(Some(n))
      case OtherValue(_) => Failure(ParameterTypeError(key))
  }

  /** The silent clamp of the page size to the model's maximum. */
  function ClampPageSize(per: Int, maxPageSize: Option<Int>): (r: Int)
    ensures r <= per
    ensures maxPageSize.None? ==> r == per
    ensures maxPageSize.Some? ==> r <= maxPageSize.value
    ensures maxPageSize.Some? && per <= maxPageSize.value ==> r == per
    ensures maxPageSize.Some? && per > maxPageSize.value ==> r == maxPageSize.value
  {
    if maxPageSize.Some? && per > maxPageSize.value then maxPageSize.value else per
  }

  /** The page number and page size the adapter reads from the query string. */
  function ResolveRequest(params: map<string, ParamValue>, key: string, perKey: string,
                          model: Paginatable): (r: Result<PageRequest, PaginationError>)
    ensures r.Failure? <==> Malformed(params, key) || Malformed(params, perKey)
    ensures Malformed(params, key) ==> r == Failure(ParameterTypeError(key))
    ensures !Malformed(params, key) && Malformed(params, perKey) ==>
              r == Failure(ParameterTypeError(perKey))
    ensures r.Success? && key !in params ==> r.value.page == 1
    ensures r.Success? && key in params ==> r.value.page == params[key].n
    ensures r.Success? && perKey !in params ==>
              r.value.per == ClampPageSize(model.defaultPageSize, model.maxPageSize)
    ensures r.Success? && perKey in params ==>
              r.value.per == ClampPageSize(params[perKey].n, model.maxPageSize)
    ensures r.Success? && model.maxPageSize.Some? ==> r.value.per <= model.maxPageSize.value
  {
    match ReadInt(params, key)
    case Failure(e) => Failure(e)
    case Success(pageParam) =>
      match ReadInt(params, perKey)
      case Failure(e) => Failure(e)
      case Success(perParam) =>
        Success(PageRequest(pageParam.GetOr(1),
                            ClampPageSize(perParam.GetOr(model.defaultPageSize), model.maxPageSize)))
  }

  /** The resolved page, when positive, has a window whose bounds do not trap. */
  predicate RequestFits(params: map<string, ParamValue>, key: string, perKey: string,
                        model: Paginatable)
  {
    match ResolveRequest(params, key, perKey, model)
    case Failure(_) => true
    case Success(req) => req.page > 0 ==> RangeFits(req.page, req.per)
  }

  /** What `paginate(for:key:perKey:_:)` does to a query. */
  function RequestOutcome<M>(query: Query, params: map<string, ParamValue>, key: string,
                             perKey: string, model: Paginatable, sorts: seq<QuerySort>,
                             fetch: Query -> seq<M>): (out: Outcome<M>)
    ensures Malformed(params, key) ==>
              out == Outcome(query, Failure(ParameterTypeError(key)))
    ensures !Malformed(params, key) && Malformed(params, perKey) ==>
              out == Outcome(query, Failure(ParameterTypeError(perKey)))
    ensures !Malformed(params, key) && !Malformed(params, perKey) ==>
              var page := if key in params then params[key].n else 1;
              var per := if perKey in params then params[perKey].n else model.defaultPageSize;
              var size := ClampPageSize(per, model.maxPageSize);
              && (out.result.Failure? <==> page <= 0)
              && (out.result.Failure? ==>
                    out.result.error == InvalidPageNumber(page) && out.query == query)
              && (out.result.Success? ==>
                    && out.result.value.number == page
                    && out.result.value.size == size
                    && out.query.range.Some?
                    && out.query.range.value.lower == (page - 1) * size
                    && out.query.range.value.upper - out.query.range.value.lower == size
                    && out.query.sorts == query.sorts + sorts
                    && out.query.entity == query.entity
                    && out.query.filters == query.filters
                    && out.result.value.data == fetch(out.query)
                    && out.result.value.total == |out.result.value.data|)
  {
    match ResolveRequest(params, key, perKey, model)
    case Failure(e) => Outcome(query, Failure(e))
    case Success(req) => PaginateOutcome(query, req.page, req.per, sorts, fetch)
  }

  /** A page number of 0 or less in the query string still fails in the calculator,
      carrying that number, and leaves the query as it was. */
  lemma RequestRejectsNonPositivePage<M>(query: Query, params: map<string, ParamValue>,
                                         key: string, perKey: string, model: Paginatable,
                                         sorts: seq<QuerySort>, fetch: Query -> seq<M>)
    requires key in params && params[key].IntegerValue? && params[key].n <= 0
    requires !Malformed(params, perKey)
    ensures var out := RequestOutcome(query, params, key, perKey, model, sorts, fetch);
            out.result == Failure(InvalidPageNumber(params[key].n)) && out.query == query
  {
  }

  /** An oversized page size is cut down to the maximum rather than rejected: the
      call succeeds and asks for a window exactly that wide. */
  lemma RequestClampsOversizedPageSize<M>(query: Query, params: map<string, ParamValue>,
                                          key: string, perKey: string, model: Paginatable,
                                          sorts: seq<QuerySort>, fetch: Query -> seq<M>)
    requires model.maxPageSize.Some?
    requires perKey in params && params[perKey].IntegerValue?
    requires params[perKey].n > model.maxPageSize.value
    requires key !in params || (params[key].IntegerValue? && params[key].n > 0)
    ensures var out := RequestOutcome(query, params, key, perKey, model, sorts, fetch);
            && out.result.Success?
            && out.result.value.size == model.maxPageSize.value
            && out.query.range.value.upper - out.query.range.value.lower == model.maxPageSize.value
  {
  }

  /** A request without either parameter gets page 1 at the model's default size
      (clamped), so it asks for the window starting at row 0. */
  lemma RequestWithoutParametersUsesDefaults<M>(query: Query, params: map<string, ParamValue>,
                                                key: string, perKey: string, model: Paginatable,
                                                sorts: seq<QuerySort>, fetch: Query -> seq<M>)
    requires key !in params && perKey !in params
    ensures var out := RequestOutcome(query, params, key, perKey, model, sorts, fetch);
            var size := ClampPageSize(model.defaultPageSize, model.maxPageSize);
            && out.result.Success?
            && out.result.value.number == 1
            && out.result.value.size == size
            && out.query.range == Some(QueryRange(0, size))
  {
  }

  // ---------------------------------------------------------------------------
  // The query builder
  // ---------------------------------------------------------------------------

  /** A query builder over a paginatable model. `source` is what the database
      returns for a query; the builder's `query` is updated in place. `fetched`
      records, in order, every query the builder has sent to the database. */
  class QueryBuilder<M> {
    const model: Paginatable
    const source: Query -> seq<M>
    var query: Query
    ghost var fetched: seq<Query>

    constructor (model: Paginatable, query: Query, source: Query -> seq<M>)
      ensures this.model == model && this.query == query && this.source == source
      ensures fetched == []
    {
      this.model := model;
      this.query := query;
      this.source := source;
      fetched := [];
    }

    /** `paginate(page:count:_:)`: fails on a page number below 1; otherwise sets
        the query's window, appends the sort keys, fetches and wraps the rows. */
    method Paginate(page: Int, count: Int := model.defaultPageSize,
                    sorts: seq<QuerySort> := model.defaultPageSorts)
      returns (r: Result<Page<M>, PaginationError>)
      requires page > 0 ==> RangeFits(page, count)
      modifies this
      ensures Outcome(query, r) == PaginateOutcome(old(query), page, count, sorts, source)
      ensures r.Failure? ==> fetched == old(fetched)
      ensures r.Success? ==> fetched == old(fetched) + [query]
    {
      if !(page > 0) {
        return Failure(InvalidPageNumber(page));
      }
      var pageUsed := PageFallback(page);
      var lowerBound: Int := (pageUsed - 1) * count;
      var upperBound: Int := lowerBound + count;
      query := query.(range := Some(QueryRange(lowerBound, upperBound)));
      query := query.(sorts := query.sorts + sorts);
      var results := source(query);
      fetched := fetched + [query];
      r := Success(MakePage(pageUsed, count, results));
    }

    /** `paginate(for:key:perKey:_:)`: reads the page number (default 1) and the
        page size (default the model's) from the query string, clamps the size to
        the model's maximum and hands both to `Paginate`. */
    method PaginateFor(params: map<string, ParamValue>, key: string, perKey: string,
                       sorts: seq<QuerySort> := model.defaultPageSorts)
      returns (r: Result<Page<M>, PaginationError>)
      requires RequestFits(params, key, perKey, model)
      modifies this
      ensures Outcome(query, r) ==
              RequestOutcome(old(query), params, key, perKey, model, sorts, source)
      ensures r.Failure? ==> fetched == old(fetched)
      ensures r.Success? ==> fetched == old(fetched) + [query]
    {
      var pageParam := ReadInt(params, key);
      if pageParam.Failure? {
        return Failure(pageParam.error);
      }
      var page := pageParam.value.GetOr(1);
      var perParam := ReadInt(params, perKey);
      if perParam.Failure? {
        return Failure(perParam.error);
      }
      var per := perParam.value.GetOr(model.defaultPageSize);
      if model.maxPageSize.Some? && per > model.maxPageSize.value {
        per := model.maxPageSize.value;
      }
      r := Paginate(page, per, sorts);
    }
  }
}
