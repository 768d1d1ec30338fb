/** What the four controllers share: the response they send, the query string,
    the `where` filter they build field by field, and the list endpoint's
    pagination, ordering and `meta` object. */
module Http {
  import opened Wrappers
  import opened JsValues
  import opened Text
  import opened Seqs
  import opened Sorting
  import opened Store

  /** The query string: parameter name to value; an absent name is undefined. */
  type Query = map<string, string>

  /** `meta` of a list response. `totalPages` is `None` when `limit` is 0
      (`Math.ceil` of a division by zero, sent as null). */
  datatype Meta = Meta(total: nat, page: int, limit: int, totalPages: Option<int>)

  /** The JSON a handler sends. */
  datatype Body =
    | Record(row: Row)                                   // res.json(row)
    | Page(data: seq<Row>, meta: Meta)                   // { data, meta }
    | Error(error: string)                               // { error }
    | Missing(error: string, fields: seq<string>)        // { error, fields }
    | Duplicate(error: string, existingAsset: Row)       // { error, existingAsset }
    | Failed(error: string, details: DbError)            // { error, details }
    | NoContent                                          // 204, empty body

  datatype Response = Response(status: int, body: Body)

  /** A parameter with a destructuring default: the default replaces only an
      absent parameter, not an empty one. */
  function Param(q: Query, name: string, default: string): string {
    if name in q then q[name] else default
  }

  /** `if (q[name])`: the parameter is present and non-empty. */
  predicate Given(q: Query, name: string) {
    name in q && q[name] != ""
  }

  // ---------------------------------------------------------------------------
  // The where filter

  /** `where`: an optional case-insensitive search over some columns (any of
      them may contain it) and exact equality on others. */
  datatype Where = Where(search: Option<string>, searchIn: seq<string>, equal: map<string, string>)

  /** `{ contains: s, mode: 'insensitive' }` on one column. */
  predicate ContainsIgnoringCase(v: Value, s: string) {
    v.Str? && IncludesIgnoringCase(v.s, s)
  }

  predicate Matches(row: Row, w: Where) {
    (w.search.Some? ==>
      exists i | 0 <= i < |w.searchIn| :: ContainsIgnoringCase(Get(row, w.searchIn[i]), w.search.value)) &&
    (forall k :: k in w.equal ==> Get(row, k) == Str(w.equal[k]))
  }

  /** `where` built from the query's optional equality filters: each given
      parameter in `names` becomes a condition on the column of that name. */
  method EqualityWhere(q: Query, names: seq<string>) returns (w: Where)
    ensures w.search.None?
    ensures forall row :: Matches(row, w) <==>
      forall i :: 0 <= i < |names| && Given(q, names[i]) ==> Get(row, names[i]) == Str(q[names[i]])
  {
    var equal: map<string, string> := map[];
    for i := 0 to |names|
      invariant forall k :: k in equal <==> exists j :: 0 <= j < i && names[j] == k && Given(q, k)
      invariant forall k :: k in equal ==> equal[k] == q[k]
    {
      if Given(q, names[i]) {
        equal := equal[names[i] := q[names[i]]];
      }
    }
    w := Where(None, [], equal);
    forall row
      ensures Matches(row, w) <==>
        forall i :: 0 <= i < |names| && Given(q, names[i]) ==> Get(row, names[i]) == Str(q[names[i]])
    {
      if forall i :: 0 <= i < |names| && Given(q, names[i]) ==> Get(row, names[i]) == Str(q[names[i]]) {
        forall k | k in equal
          ensures Get(row, k) == Str(equal[k])
        {
          var j :| 0 <= j < |names| && names[j] == k && Given(q, k);
        }
      }
    }
  }

  // ---------------------------------------------------------------------------
  // Pagination

  /** `Math.ceil(total / limit)` for a positive limit. */
  function CeilDiv(total: nat, limit: nat): (r: nat)
    requires limit > 0
    ensures (r - 1) * limit < total <= r * limit
  {
    (total + limit - 1) / limit
  }

  function TotalPages(total: nat, limit: nat): (r: Option<int>)
    ensures r.None? <==> limit == 0
    ensures r.Some? ==> (r.value - 1) * limit < total <= r.value * limit
  {
    if limit == 0 then None else Some(CeilDiv(total, limit))
  }

  /** `skip` then `take`: at most `take` rows starting at position `skip`. */
  function Window<T>(s: seq<T>, skip: nat, take: nat): (r: seq<T>)
    ensures |r| == if skip >= |s| then 0 else if |s| - skip < take then |s| - skip else take
    ensures forall i :: 0 <= i < |r| ==> r[i] == s[skip + i]
  {
    if skip >= |s| then [] else Take(s[skip..], take)
  }

  /** The column's value as a sort key: numbers and dates by value, anything
      else as 0. */
  function ColumnKey(column: string): Row -> real {
    row => var v := Get(row, column);
      if v.Num? then v.n else if v.Date? then v.ms as real else 0.0
  }

  /** `sortOrder === 'asc' ? 'asc' : 'desc'`. */
  function OrderOf(q: Query): (dir: Direction)
    ensures dir == Asc <==> "sortOrder" in q && q["sortOrder"] == "asc"
  {
    if Param(q, "sortOrder", "desc") == "asc" then Asc else Desc
  }

  /** The page window a list request asks for. */
  datatype Paging = Paging(page: int, limit: nat, skip: nat)

  /** `skip = (page - 1) * limit` from the parsed `page` and `limit`. A NaN
      page or limit, a negative skip or a negative limit make the query fail
      (`None`). */
  function PagingOf(page: Option<int>, limit: Option<int>): (r: Option<Paging>)
    ensures r.Some? <==> page.Some? && limit.Some? && limit.value >= 0 && (page.value - 1) * limit.value >= 0
    ensures r.Some? ==> r.value.page == page.value && r.value.limit == limit.value
    ensures r.Some? ==> r.value.skip == (r.value.page - 1) * r.value.limit
  {
    if page.None? || limit.None? then None
    else if limit.value < 0 || (page.value - 1) * limit.value < 0 then None
    else Some(Paging(page.value, limit.value, (page.value - 1) * limit.value))
  }

  /** The paging a query string asks for: `page` and `limit` default to "1"
      and "10" and are read with `parseInt`. */
  function QueryPaging(q: Query): Option<Paging> {
    PagingOf(ParseInt(Param(q, "page", "1")), ParseInt(Param(q, "limit", "10")))
  }

  /** The `{ data, meta }` body: the matching rows are counted, ordered and cut
      to the window. */
  function PageOf(rows: seq<Row>, keep: Row -> bool, key: Row -> real, dir: Direction, p: Paging): Body {
    var matching := Filter(rows, keep);
    Page(Window(SortBy(matching, key, dir), p.skip, p.limit),
         Meta(|matching|, p.page, p.limit, TotalPages(|matching|, p.limit)))
  }

  /** A list endpoint: 200 with the page, or 500 with `failure` when the
      paging parameters make the query fail or `sortBy` names no column of
      the table (the ORM rejects an `orderBy` on an unknown field). */
  function Listing(rows: seq<Row>, keep: Row -> bool, q: Query, columns: set<string>,
                   defaultSort: string, failure: string): Response {
    match QueryPaging(q)
    case None => Response(500, Error(failure))
    case Some(p) =>
      var sortBy := Param(q, "sortBy", defaultSort);
      if sortBy !in columns then Response(500, Error(failure))
      else Response(200, PageOf(rows, keep, ColumnKey(sortBy), OrderOf(q), p))
  }

  /** A page holds at most `limit` rows, every one of them stored and matching
      the filter, ordered by the key in the requested direction; `meta` counts
      every matching row, echoes page and limit, and `totalPages` is the
      ceiling of total / limit. */
  lemma PageContents(rows: seq<Row>, keep: Row -> bool, key: Row -> real, dir: Direction, p: Paging)
    ensures var b := PageOf(rows, keep, key, dir, p);
      b.Page? &&
      b.meta.total == Count(rows, keep) &&
      b.meta.page == p.page && b.meta.limit == p.limit &&
      |b.data| <= p.limit &&
      (forall x :: x in b.data ==> x in rows && keep(x)) &&
      Sorted(b.data, key, dir) &&
      (p.limit > 0 ==>
        b.meta.totalPages.Some? &&
        (b.meta.totalPages.value - 1) * p.limit < b.meta.total <= b.meta.totalPages.value * p.limit)
  {
    var matching := Filter(rows, keep);
    var ordered := SortBy(matching, key, dir);
    var data := Window(ordered, p.skip, p.limit);
    forall x | x in data
      ensures x in rows && keep(x)
    {
      var i :| 0 <= i < |data| && data[i] == x;
      assert x in ordered;
    }
    assert Sorted(data, key, dir) by {
      forall i, j | 0 <= i < j < |data|
        ensures InOrder(dir, key(data[i]), key(data[j]))
      {
        assert data[i] == ordered[p.skip + i] && data[j] == ordered[p.skip + j];
      }
    }
  }

  /** Two filters that keep the same rows give the same response. */
  lemma ListingSameFilter(rows: seq<Row>, keep: Row -> bool, keep': Row -> bool, q: Query, columns: set<string>,
                          defaultSort: string, failure: string)
    requires forall row :: keep(row) == keep'(row)
    ensures Listing(rows, keep, q, columns, defaultSort, failure) ==
            Listing(rows, keep', q, columns, defaultSort, failure)
  {
    FilterSame(rows, keep, keep');
  }

  /** A list request answers 200 exactly when its paging parameters are
      usable and it sorts by a column of the table, and 500 with the
      handler's message otherwise. */
  lemma ListingStatus(rows: seq<Row>, keep: Row -> bool, q: Query, columns: set<string>,
                      defaultSort: string, failure: string)
    ensures var res := Listing(rows, keep, q, columns, defaultSort, failure);
      (res.status == 200 <==> QueryPaging(q).Some? && Param(q, "sortBy", defaultSort) in columns) &&
      (res.status != 200 ==> res == Response(500, Error(failure)))
  {
  }

  /** A `sortBy` that names no column of the table fails the request,
      whatever the paging. */
  lemma UnknownSortFails(rows: seq<Row>, keep: Row -> bool, q: Query, columns: set<string>,
                         defaultSort: string, failure: string)
    requires "sortBy" in q && q["sortBy"] !in columns
    ensures Listing(rows, keep, q, columns, defaultSort, failure) == Response(500, Error(failure))
  {
  }

  /** With an empty query string a list endpoint asks for page 1 of 10 rows,
      newest first by its default sort column. */
  lemma DefaultPaging(defaultSort: string)
    ensures QueryPaging(map[]) == Some(Paging(1, 10, 0))
    ensures OrderOf(map[]) == Desc
  {
    ParseDefaults();
  }

  /** An empty query string answers 200 exactly when the default sort column
      is one of the table's. */
  lemma DefaultListing(rows: seq<Row>, keep: Row -> bool, columns: set<string>, defaultSort: string, failure: string)
    ensures Listing(rows, keep, map[], columns, defaultSort, failure).status == 200 <==> defaultSort in columns
  {
    DefaultPaging(defaultSort);
    ListingStatus(rows, keep, map[], columns, defaultSort, failure);
    assert Param(map[], "sortBy", defaultSort) == defaultSort;
  }

  /** Only a sortOrder of exactly "asc" sorts ascending. */
  lemma OnlyAscIsAscending(q: Query)
    requires "sortOrder" in q && q["sortOrder"] != "asc"
    ensures OrderOf(q) == Desc
  {
  }

  /** A page number parsed as NaN fails the whole request. */
  lemma UnparsablePageFails(rows: seq<Row>, keep: Row -> bool, q: Query, columns: set<string>,
                            defaultSort: string, failure: string)
    requires "page" in q && ParseInt(q["page"]).None?
    ensures Listing(rows, keep, q, columns, defaultSort, failure) == Response(500, Error(failure))
  {
  }

  /** Page 0 with a positive limit asks for a negative skip, which fails. */
  lemma PageZeroFails(limit: int)
    requires limit > 0
    ensures PagingOf(Some(0), Some(limit)).None?
  {
  }

  // ---------------------------------------------------------------------------
  // Get by id

  /** `findUnique` then `if (!record) 404 else res.json(record)`. */
  function Found(rows: seq<Row>, id: string, notFound: string): (res: Response)
    ensures res.status == 404 <==> forall i :: 0 <= i < |rows| ==> !HasId(rows[i], id)
    ensures res.status == 404 ==> res.body == Error(notFound)
    ensures res.status != 404 ==>
      res.status == 200 && res.body.Record? && res.body.row in rows && HasId(res.body.row, id)
  {
    match Lookup(rows, id)
    case None => Response(404, Error(notFound))
    case Some(row) => Response(200, Record(row))
  }
}
