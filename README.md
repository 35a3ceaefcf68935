# Pagination for a query builder, modelled in Dafny

This project models the page-based pagination extension of a Swift query
builder (Fluent on Vapor). It covers the two operations of
`Sources/Pagination/QueryBuilder+Paginatable.swift`:

- **The page calculator**, `paginate(page:count:_:)`. It rejects a page number
  below 1 by throwing `invalidPageNumber(page)`. Otherwise it sets the query's
  row window to `[(page - 1) * count, (page - 1) * count + count)` and appends
  the caller's sort keys after the query's own. It then fetches the rows and
  wraps them in a `Page` holding the page number, the rows, the page size and the
  number of rows fetched.
- **The request adapter**, `paginate(for:key:perKey:_:)`. It reads the page
  number (default 1) and the page size (default the model's `defaultPageSize`)
  from the query string and silently clamps the size to the model's
  `maxPageSize` when one is set. Then it calls the calculator.

Files:

- `wrappers.dfy`: module `Wrappers`, holding `Option` (Swift optionals) and
  `Result` (a value returned or an error thrown).
- `pagination.dfy`: module `Pagination`. It holds the data model (`Query`,
  `QueryRange`, `QuerySort`, `Page`, `Paginatable`, `PaginationError`) and the
  pure specification of both operations (`PaginateOutcome`, `ResolveRequest`,
  `RequestOutcome`) with the lemmas about them. It also holds the class
  `QueryBuilder`, whose methods `Paginate` and `PaginateFor` change the
  builder's `query` field in place, step by step as the Swift does. Each method
  is proved to leave exactly the state and result its specification function
  gives.
- `datasource.dfy`: module `DataSource`. It holds a reference database that
  honours a query's row window (`Window`, `Execute`), plus lemmas about what
  pages add up to against it. Consecutive pages adjoin. With a page size of 0
  or more, the first n pages together are the first n * count rows, and a page
  never holds more than `count` rows. With a positive page size, every row lies
  on exactly one page. (With a page size of 0 no row is on any page.) It also holds the 25-row examples
  and a client method that makes the same calls through the class.

Modelling choices:

- Swift's `Int` is the subset type `Pagination.Int` (64-bit). Swift traps when
  `(page - 1) * count` or `lowerBound + count` overflows. The methods therefore
  require that both bounds fit (`RangeFits`, `RequestFits`). The specification
  functions compute over unbounded integers.
- The database fetch (`self.all()`) is the class's `source`, a function from
  the query to the rows returned. The methods call it on the query as updated,
  so the model shows that the fetch sees the new window and sorts. The ghost
  field `fetched` records every query sent to the database, so the contracts
  can say when a call fetches and when it does not.
- The framework's typed accessor `req.query.get(Int?.self, at:)` is `ReadInt`
  over a map from keys to `ParamValue`. An absent key gives `None`. An integer
  gives `Some(n)`. Anything else throws `ParameterTypeError(key)`. The page key
  is read first, so it is the one reported when both values are malformed.
- `Model.defaultPageSize`, `Model.maxPageSize` and `Model.defaultPageSorts` form
  the `Paginatable` value a builder carries in `model`. The Swift default
  arguments become Dafny default parameter values.
- `Page.total` is the number of rows fetched for this page (`results.count`,
  line 36). It is not the number of rows matching the query. On 25 rows at 10
  per page, page 3 reports `total == 5` (`DataSource.TwentyFiveRows`). Read as
  the number of rows matching the query, `total` would be 25. The model follows
  the code.
- The fallback `page > 0 ? page : 1` on line 20 follows the guard, so it never
  changes the page number (`PageFallback`). A page number below 1 is always
  rejected, never clamped.
- Paginating the same builder twice with the same arguments is not idempotent
  on the query: the sort keys are appended a second time. The two `Page` values
  are equal only if the database returns the same rows for the query with the
  repeated sort keys, that is, if it treats a repeated sort key as having no
  effect (`RepeatedPaginateAppendsSortsTwice`).
- `count` is never validated. A zero or negative page size goes through to the
  query's window as is.

## Model

| member | source | states |
|---|---|---|
| `Pagination.PageFallback` | Sources/Pagination/QueryBuilder+Paginatable.swift:19-20 | the fallback always yields a page number of at least 1, and it returns the page number unchanged whenever that number is positive (every number past the guard) |
| `Pagination.PageRange` | Sources/Pagination/QueryBuilder+Paginatable.swift:22-24 | the window is exactly `count` wide, starts at row 0 or later when `count >= 0`, and starts at row 0 on page 1 |
| `Pagination.PaginateOutcome` | Sources/Pagination/QueryBuilder+Paginatable.swift:13-39 | the call fails exactly when `page <= 0`, with `InvalidPageNumber(page)` and the query left alone; on success the window starts at `(page - 1) * count` and is `count` wide; the old sorts are a prefix of the new ones and the rest are the supplied sorts in order; entity and filters are unchanged; the Page has number `page`, size `count`, the rows the database returns for the updated query in order, and total equal to the number of those rows |
| `Pagination.RepeatedPaginateAppendsSortsTwice` | Sources/Pagination/QueryBuilder+Paginatable.swift:22-28 | paginating the same builder twice asks for the same window, carries the supplied sort keys twice (no de-duplication), and reports the same page number and size; the two results are equal whenever the database returns the same rows for both queries |
| `Pagination.ClampPageSize` | Sources/Pagination/QueryBuilder+Paginatable.swift:47-49 | the clamp is `min(per, maxPageSize)`: it never enlarges the size; with no maximum it is the identity; with a maximum the result is at most the maximum, equals the requested size when that size is within the maximum, and is exactly the maximum when the requested size is larger |
| `Pagination.ResolveRequest` | Sources/Pagination/QueryBuilder+Paginatable.swift:45-49 | resolution fails exactly when a present page or per-page value is not an integer, reporting the page key first; a missing page resolves to 1 and a present one passes through unvalidated; the size is the clamped per-page value or the clamped model default; with a maximum the size never exceeds it |
| `Pagination.RequestOutcome` | Sources/Pagination/QueryBuilder+Paginatable.swift:44-55 | a malformed page value throws `ParameterTypeError(key)` and a malformed per-page value (page fine) throws `ParameterTypeError(perKey)`, both with the query untouched; with both values well formed, the call fails exactly when the resolved page (the page value, or 1 when missing) is 0 or less, with `InvalidPageNumber` of that page and the query untouched; on success the Page has that number, size `ClampPageSize` of the per-page value (or of the model default when missing), and total equal to the number of rows it holds; the window starts at `(page - 1) * size` and is `size` wide; the old sorts are followed by the supplied ones; entity and filters are unchanged; and the data is the rows fetched for the new query |
| `Pagination.RequestRejectsNonPositivePage` | Sources/Pagination/QueryBuilder+Paginatable.swift:45-54 | a query-string page number of 0 or less still fails with `InvalidPageNumber` carrying that number, and the query is unchanged |
| `Pagination.RequestClampsOversizedPageSize` | Sources/Pagination/QueryBuilder+Paginatable.swift:46-54 | a per-page value above the maximum is not rejected: the call succeeds with page size equal to the maximum and a window exactly that wide |
| `Pagination.RequestWithoutParametersUsesDefaults` | Sources/Pagination/QueryBuilder+Paginatable.swift:45-46 | with neither parameter present the call succeeds on page 1 at the model's default size (clamped), asking for the window starting at row 0 |
| `Pagination.QueryBuilder.Paginate` | Sources/Pagination/QueryBuilder+Paginatable.swift:13-39 | the in-place guard, window assignment, sort append, fetch and Page construction leave exactly the query and result `PaginateOutcome` gives for the old query; a rejected page makes no fetch, and a successful call makes exactly one fetch, of the updated query |
| `Pagination.QueryBuilder.PaginateFor` | Sources/Pagination/QueryBuilder+Paginatable.swift:44-55 | reading both parameters, reassigning the page size to the maximum when it is larger, then calling `Paginate`, leaves exactly the query and result `RequestOutcome` gives; a failed call (decoding error or rejected page) makes no fetch, and a successful one makes exactly one fetch, of the updated query |
| `DataSource.PageRangeBounds` | Sources/Pagination/QueryBuilder+Paginatable.swift:23-24 | page n asks for rows from `(n - 1) * count` up to `n * count` |
| `DataSource.PagesAdjoin` | Sources/Pagination/QueryBuilder+Paginatable.swift:23-24 | one page's upper bound is the next page's lower bound, so no row is skipped or asked for twice |
| `DataSource.PagesReassemble` | Sources/Pagination/QueryBuilder+Paginatable.swift:23-24 | against a database that honours the window, pages 1 to n laid end to end are exactly the first `n * count` rows (all rows once that passes the end) |
| `DataSource.RowOnExactlyOnePage` | Sources/Pagination/QueryBuilder+Paginatable.swift:23-24 | with a positive page size, row i lies in the window of page p if and only if `p == i / count + 1` |
| `DataSource.PageFromDatabase` | Sources/Pagination/QueryBuilder+Paginatable.swift:23-37 | against a database that honours the window, a page holds the rows from `(page - 1) * count` to `page * count`, cut at the end of the table; it never holds more than `count` rows, and its total is the number of rows it holds |
| `DataSource.TwentyFiveRows` | Sources/Pagination/QueryBuilder+Paginatable.swift:13-39 | with 25 rows and 10 per page, page 1 asks for [0, 10) and holds the first 10 rows; page 3 asks for [20, 30) and holds the last 5 rows with total 5 |

## Left out

- Asynchronous execution (`Future` and `map(to:)`, line 31): the fetch is a function from the query to its rows and always succeeds. Failures of the database are not modelled.
- The `Page` initializer (lines 32-37) is defined in a file that is not part of this model. Its throwing conditions are unknown, so the model assumes it always succeeds and stores its four arguments.
- The forced cast `results as! [Model]` (line 34) has no counterpart: the rows already have the model's type.
- `paginate(for:)` returning `Paginated<Model>` through `response()` (lines 57-60): `Paginated` and `response()` are defined in files that are not part of this model.
- The framework's query-string decoder: which raw strings decode as integers is not modelled. A value is given as already decoded (`IntegerValue`) or not decodable (`OtherValue`).
- `Pagination.defaultPageKey` and `Pagination.defaultPagePerKey` are defined in a file that is not part of this model, so `PaginateFor` takes both keys as required parameters.
- The database's sorting: `DataSource` takes the rows as already in the requested order, so the appended sort keys do not affect what it returns.
- Swift's integer overflow trap is a precondition of the two methods rather than a modelled crash.
