/** The query and command wrappers of wrapper/wrapper.go: pagination
    arithmetic and validation, sort validation, pages, and the builders,
    which assign their own fields and hand back the same builder. Go's int
    is a 64-bit two's-complement integer, so the pagination arithmetic
    wraps. The context.Context a wrapper carries is an opaque type
    parameter C; a nil context is None. A Go slice is an optional
    sequence: the nil slice is None, an allocated one (empty or not) is
    Some. */
module Wrapper {
  import opened GoOption

  const MinInt: int := -0x8000_0000_0000_0000
  const MaxInt: int := 0x7fff_ffff_ffff_ffff

  /** Go's int. */
  type Int = x: int | MinInt <= x <= MaxInt

  /** The result of Go's + and - on int: the exact result, wrapped into
      the 64-bit range. */
  function Wrap(x: int): (r: Int)
    ensures MinInt <= x <= MaxInt ==> r == x
    ensures (r - x) % 0x1_0000_0000_0000_0000 == 0
  {
    var m := 0x1_0000_0000_0000_0000;
    var r := (x - MinInt) % m + MinInt;
    assert (x - MinInt) % m == x - MinInt - m * ((x - MinInt) / m);
    r
  }

  function Add(a: Int, b: Int): Int { Wrap(a + b) }

  function Sub(a: Int, b: Int): Int { Wrap(a - b) }

  /** len of a slice; the nil slice has length zero. */
  function Len<T>(s: Option<seq<T>>): nat
  {
    if s.Some? then |s.value| else 0
  }

  // ---------------------------------------------------------------------
  // SortBy
  // ---------------------------------------------------------------------

  datatype SortBy = SortBy(field: string, ascending: bool)

  function NewSortBy(field: string, ascending: bool): (s: SortBy)
    ensures s.field == field && s.ascending == ascending
  {
    SortBy(field, ascending)
  }

  function NewAscendingSortBy(field: string): (s: SortBy)
    ensures s == NewSortBy(field, true)
  {
    SortBy(field, true)
  }

  function NewDescendingSortBy(field: string): (s: SortBy)
    ensures s == NewSortBy(field, false)
  {
    SortBy(field, false)
  }

  /** SortBy.Validate: the nil error is None. */
  function ValidateSortBy(s: SortBy): (err: Option<string>)
    ensures err.Some? <==> s.field == ""
    ensures err.Some? ==> err.value == "sort field cannot be empty"
  {
    if s.field == "" then Some("sort field cannot be empty") else None
  }

  /** Whichever constructor made it, a sort order is valid exactly when it
      names a field, and it keeps the field and direction it was given. */
  lemma SortByConstructors(field: string, ascending: bool)
    ensures NewSortBy(field, ascending).field == field
    ensures NewAscendingSortBy(field).ascending && !NewDescendingSortBy(field).ascending
    ensures ValidateSortBy(NewSortBy(field, ascending)).None? <==> field != ""
    ensures ValidateSortBy(NewAscendingSortBy(field)) == ValidateSortBy(NewDescendingSortBy(field))
  {
  }

  // ---------------------------------------------------------------------
  // Pagination
  // ---------------------------------------------------------------------

  datatype Pagination = Pagination(limit: Int, offset: Int)

  function NewPagination(limit: Int, offset: Int): (p: Pagination)
    ensures p.limit == limit && p.offset == offset
  {
    Pagination(limit, offset)
  }

  /** The first page: ten items from the start. */
  function NewFirstPagePagination(): (p: Pagination)
    ensures p == NewPagination(10, 0)
    ensures ValidatePagination(p).None?
  {
    Pagination(10, 0)
  }

  /** Pagination.Validate: the limit is checked before the offset. */
  function ValidatePagination(p: Pagination): (err: Option<string>)
    ensures err.None? <==> p.limit > 0 && p.offset >= 0
    ensures p.limit <= 0 ==> err == Some("limit must be positive")
    ensures p.limit > 0 && p.offset < 0 ==> err == Some("offset cannot be negative")
  {
    if p.limit <= 0 then Some("limit must be positive")
    else if p.offset < 0 then Some("offset cannot be negative")
    else None
  }

  /** Pagination.HasNext, as written: offset + limit in Go's int, which
      wraps. */
  function HasNext(p: Pagination, totalCount: Int): (r: bool)
    ensures MinInt <= p.offset + p.limit <= MaxInt ==> (r <==> p.offset + p.limit < totalCount)
  {
    Add(p.offset, p.limit) < totalCount
  }

  /** Pagination.NextPage: the same limit, the offset moved on by it. */
  function NextPage(p: Pagination): (q: Pagination)
    ensures q.limit == p.limit
    ensures MinInt <= p.offset + p.limit <= MaxInt ==> q.offset == p.offset + p.limit
    ensures (q.offset - (p.offset + p.limit)) % 0x1_0000_0000_0000_0000 == 0
  {
    Pagination(p.limit, Add(p.offset, p.limit))
  }

  /** There is a next page exactly when the next page starts before the
      total count, with the wrap-around of both alike. */
  lemma HasNextIsNextPageStart(p: Pagination, totalCount: Int)
    ensures HasNext(p, totalCount) <==> NextPage(p).offset < totalCount
    ensures NextPage(p).limit == p.limit
  {
  }

  /** The reference: there is a next page when the items counted so far
      plus one page fall short of the total, in exact arithmetic. */
  predicate HasNextExact(p: Pagination, totalCount: int)
  {
    p.offset + p.limit < totalCount
  }

  /** When offset + limit fits in an int, HasNext is the reference; in
      particular it is false exactly at the boundary offset + limit ==
      totalCount. */
  lemma HasNextWithoutOverflow(p: Pagination, totalCount: Int)
    requires MinInt <= p.offset + p.limit <= MaxInt
    ensures HasNext(p, totalCount) <==> HasNextExact(p, totalCount)
    ensures p.offset + p.limit == totalCount ==> !HasNext(p, totalCount)
  {
  }

  /** A valid pagination whose offset + limit overflows: HasNext reports a
      next page of an empty result, where the reference does not. */
  lemma HasNextOverflow()
    ensures var p := NewPagination(1, MaxInt);
            && ValidatePagination(p).None?
            && HasNext(p, 0)
            && !HasNextExact(p, 0)
  {
    var p := NewPagination(1, MaxInt);
    assert Add(p.offset, p.limit) == MinInt;
  }

  /** HasNext rearranged so that nothing overflows: totalCount - limit
      cannot leave the int range for a valid pagination and a count that is
      not negative. */
  function HasNextFixed(p: Pagination, totalCount: Int): bool
  {
    p.offset < Sub(totalCount, p.limit)
  }

  /** The rearranged HasNext is the reference on every valid pagination
      and every count. */
  lemma HasNextFixedIsExact(p: Pagination, totalCount: Int)
    requires ValidatePagination(p).None? && totalCount >= 0
    ensures HasNextFixed(p, totalCount) <==> HasNextExact(p, totalCount)
  {
  }

  /** NextPage of a valid pagination is valid, as long as offset + limit
      fits in an int. */
  lemma NextPageStaysValid(p: Pagination)
    requires ValidatePagination(p).None?
    requires p.offset + p.limit <= MaxInt
    ensures ValidatePagination(NextPage(p)).None?
    ensures NextPage(p).offset == p.offset + p.limit > p.offset
  {
  }

  /** The last offset that fits: its next page wraps to a negative
      offset and is no longer valid. */
  lemma NextPageOverflow()
    ensures var p := NewPagination(1, MaxInt);
            && ValidatePagination(p).None?
            && NextPage(p).offset == MinInt
            && ValidatePagination(NextPage(p)) == Some("offset cannot be negative")
  {
    var p := NewPagination(1, MaxInt);
    assert Add(p.offset, p.limit) == MinInt;
  }

  // ---------------------------------------------------------------------
  // Filter, Projection, wrappers and pages
  // ---------------------------------------------------------------------

  /** A filter on a field; the value is Go's `any`, a type parameter. */
  datatype Filter<V> = Filter(field: string, value: V)

  function NewFilter<V>(field: string, value: V): (f: Filter<V>)
    ensures f.field == field && f.value == value
  {
    Filter(field, value)
  }

  /** A projection: the fields to return, a Go slice. */
  datatype Projection = Projection(fields: Option<seq<string>>)

  function NewProjection(fields: Option<seq<string>>): (p: Projection)
    ensures p.fields == fields
  {
    Projection(fields)
  }

  /** The empty projection holds an allocated slice of no fields, which
      is not the projection of a nil slice. */
  function NewEmptyProjection(): (p: Projection)
    ensures p.fields == Some([]) && Len(p.fields) == 0
    ensures p != NewProjection(None)
  {
    Projection(Some([]))
  }

  datatype QueryWrapper<C, Q, V> = QueryWrapper(
    context: Option<C>,
    query: Q,
    projection: Projection,
    pagination: Pagination,
    sortBy: SortBy,
    filter: Option<seq<Filter<V>>>)

  function NewQueryWrapper<C, Q, V>(ctx: Option<C>, query: Q, projection: Projection, pagination: Pagination,
                                    sortBy: SortBy, filter: Option<seq<Filter<V>>>): (w: QueryWrapper<C, Q, V>)
    ensures w.context == ctx && w.query == query
    ensures w.projection == projection && w.pagination == pagination
    ensures w.sortBy == sortBy && w.filter == filter
  {
    QueryWrapper(ctx, query, projection, pagination, sortBy, filter)
  }

  datatype CommandWrapper<C, M> = CommandWrapper(context: Option<C>, command: M)

  function NewCommandWrapper<C, M>(ctx: Option<C>, command: M): (w: CommandWrapper<C, M>)
    ensures w.context == ctx && w.command == command
  {
    CommandWrapper(ctx, command)
  }

  /** A page of results. */
  datatype Page<R> = Page(results: Option<seq<R>>, offset: Int, limit: Int, hasNext: bool) {
    function Next(): bool { hasNext }
    function First(): bool { offset == 0 }
    function HasData(): bool { Len(results) > 0 }
  }

  /** The queries on a page: Next repeats the flag it was built with, the
      first page is the one at offset zero, and a page has data exactly
      when it has a result. */
  lemma PageQueries<R>(results: Option<seq<R>>, offset: Int, limit: Int, hasNext: bool)
    ensures Page(results, offset, limit, hasNext).Next() == hasNext
    ensures Page(results, offset, limit, hasNext).First() <==> offset == 0
    ensures Page(results, offset, limit, hasNext).HasData() <==> results.Some? && results.value != []
  {
  }

  // ---------------------------------------------------------------------
  // Builders
  // ---------------------------------------------------------------------

  /** QueryWrapperBuilder. The Go zero value of the query type is `zero`;
      every other field starts at its zero value: a nil context, a
      projection of a nil slice, a zero pagination and sort order, and a
      nil filter slice. */
  class QueryWrapperBuilder<C, Q, V> {
    var ctx: Option<C>
    var query: Q
    var projection: Projection
    var pagination: Pagination
    var sortBy: SortBy
    var filter: Option<seq<Filter<V>>>

    constructor (zero: Q)
      ensures ctx == None && query == zero
      ensures projection == Projection(None) && pagination == Pagination(0, 0)
      ensures sortBy == SortBy("", false) && filter == None
    {
      ctx := None;
      query := zero;
      projection := Projection(None);
      pagination := Pagination(0, 0);
      sortBy := SortBy("", false);
      filter := None;
    }

    method WithContext(c: Option<C>) returns (b: QueryWrapperBuilder<C, Q, V>)
      modifies this
      ensures b == this && ctx == c
      ensures query == old(query) && projection == old(projection) && pagination == old(pagination)
      ensures sortBy == old(sortBy) && filter == old(filter)
    {
      ctx := c;
      b := this;
    }

    method WithQuery(q: Q) returns (b: QueryWrapperBuilder<C, Q, V>)
      modifies this
      ensures b == this && query == q
      ensures ctx == old(ctx) && projection == old(projection) && pagination == old(pagination)
      ensures sortBy == old(sortBy) && filter == old(filter)
    {
      query := q;
      b := this;
    }

    /** withProjection, unexported in the Go code. */
    method WithProjection(pr: Projection) returns (b: QueryWrapperBuilder<C, Q, V>)
      modifies this
      ensures b == this && projection == pr
      ensures ctx == old(ctx) && query == old(query) && pagination == old(pagination)
      ensures sortBy == old(sortBy) && filter == old(filter)
    {
      projection := pr;
      b := this;
    }

    method WithPagination(pg: Pagination) returns (b: QueryWrapperBuilder<C, Q, V>)
      modifies this
      ensures b == this && pagination == pg
      ensures ctx == old(ctx) && query == old(query) && projection == old(projection)
      ensures sortBy == old(sortBy) && filter == old(filter)
    {
      pagination := pg;
      b := this;
    }

    method WithSortBy(s: SortBy) returns (b: QueryWrapperBuilder<C, Q, V>)
      modifies this
      ensures b == this && sortBy == s
      ensures ctx == old(ctx) && query == old(query) && projection == old(projection)
      ensures pagination == old(pagination) && filter == old(filter)
    {
      sortBy := s;
      b := this;
    }

    method WithFilter(f: Option<seq<Filter<V>>>) returns (b: QueryWrapperBuilder<C, Q, V>)
      modifies this
      ensures b == this && filter == f
      ensures ctx == old(ctx) && query == old(query) && projection == old(projection)
      ensures pagination == old(pagination) && sortBy == old(sortBy)
    {
      filter := f;
      b := this;
    }

    /** Build: the wrapper NewQueryWrapper would make from the fields. */
    function Build(): (w: QueryWrapper<C, Q, V>)
      reads this
      ensures w == NewQueryWrapper(ctx, query, projection, pagination, sortBy, filter)
    {
      QueryWrapper(ctx, query, projection, pagination, sortBy, filter)
    }
  }

  /** CommandWrapperBuilder, with the zero value of the command type. */
  class CommandWrapperBuilder<C, M> {
    var ctx: Option<C>
    var command: M

    constructor (zero: M)
      ensures ctx == None && command == zero
    {
      ctx := None;
      command := zero;
    }

    method WithContext(c: Option<C>) returns (b: CommandWrapperBuilder<C, M>)
      modifies this
      ensures b == this && ctx == c && command == old(command)
    {
      ctx := c;
      b := this;
    }

    method WithCommand(m: M) returns (b: CommandWrapperBuilder<C, M>)
      modifies this
      ensures b == this && command == m && ctx == old(ctx)
    {
      command := m;
      b := this;
    }

    function Build(): (w: CommandWrapper<C, M>)
      reads this
      ensures w == NewCommandWrapper(ctx, command)
    {
      CommandWrapper(ctx, command)
    }
  }

  /** PagesBuilder; a fresh one holds a nil result slice, offset and
      limit zero and no next page. */
  class PagesBuilder<R> {
    var results: Option<seq<R>>
    var offset: Int
    var limit: Int
    var hasNext: bool

    constructor ()
      ensures results == None && offset == 0 && limit == 0 && !hasNext
      ensures !Build().HasData() && Build().First() && !Build().Next()
    {
      results := None;
      offset := 0;
      limit := 0;
      hasNext := false;
    }

    method Results(rs: Option<seq<R>>) returns (b: PagesBuilder<R>)
      modifies this
      ensures b == this && results == rs
      ensures offset == old(offset) && limit == old(limit) && hasNext == old(hasNext)
    {
      results := rs;
      b := this;
    }

    method Offset(o: Int) returns (b: PagesBuilder<R>)
      modifies this
      ensures b == this && offset == o
      ensures results == old(results) && limit == old(limit) && hasNext == old(hasNext)
    {
      offset := o;
      b := this;
    }

    method Limit(l: Int) returns (b: PagesBuilder<R>)
      modifies this
      ensures b == this && limit == l
      ensures results == old(results) && offset == old(offset) && hasNext == old(hasNext)
    {
      limit := l;
      b := this;
    }

    method HasNext(h: bool) returns (b: PagesBuilder<R>)
      modifies this
      ensures b == this && hasNext == h
      ensures results == old(results) && offset == old(offset) && limit == old(limit)
    {
      hasNext := h;
      b := this;
    }

    /** Build: the page holds every field, so its queries answer from
        them. */
    function Build(): (page: Page<R>)
      reads this
      ensures page.results == results && page.offset == offset && page.limit == limit
      ensures page.Next() == hasNext && (page.First() <==> offset == 0) && (page.HasData() <==> Len(results) > 0)
    {
      Page(results, offset, limit, hasNext)
    }
  }

  /** A chain of setters on a fresh builder builds exactly the wrapper
      with the values passed in. */
  method BuildQueryWrapper<C, Q, V>(zero: Q, c: Option<C>, q: Q, pr: Projection, pg: Pagination, s: SortBy,
                                    f: Option<seq<Filter<V>>>)
    returns (w: QueryWrapper<C, Q, V>)
    ensures w == NewQueryWrapper(c, q, pr, pg, s, f)
  {
    var b := new QueryWrapperBuilder<C, Q, V>(zero);
    b := b.WithContext(c);
    b := b.WithQuery(q);
    b := b.WithProjection(pr);
    b := b.WithPagination(pg);
    b := b.WithSortBy(s);
    b := b.WithFilter(f);
    w := b.Build();
  }

  method BuildCommandWrapper<C, M>(zero: M, c: Option<C>, m: M) returns (w: CommandWrapper<C, M>)
    ensures w == NewCommandWrapper(c, m)
  {
    var b := new CommandWrapperBuilder<C, M>(zero);
    b := b.WithContext(c);
    b := b.WithCommand(m);
    w := b.Build();
  }

  /** A page built through the builder holds what the setters were given,
      and its queries answer from it. */
  method BuildPage<R>(results: Option<seq<R>>, offset: Int, limit: Int, hasNext: bool) returns (page: Page<R>)
    ensures page.results == results && page.offset == offset && page.limit == limit
    ensures page.Next() == hasNext && (page.First() <==> offset == 0)
    ensures page.HasData() <==> results.Some? && results.value != []
  {
    var b := new PagesBuilder<R>();
    b := b.Results(results);
    b := b.Offset(offset);
    b := b.Limit(limit);
    b := b.HasNext(hasNext);
    page := b.Build();
  }

  /** A page built without setting its results has a nil result slice
      and no data; without an offset it is the first page. */
  method BuildDefaultPage<R>() returns (page: Page<R>)
    ensures page.results == None && !page.HasData()
    ensures page.First() && !page.Next() && page.limit == 0
  {
    var b := new PagesBuilder<R>();
    page := b.Build();
  }
}
