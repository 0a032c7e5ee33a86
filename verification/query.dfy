/** The management API's query object and its builder. */
module Queries {
  import opened Wrappers
  import opened Context

  /** Rust's `i32`, the width of `offset` and `limit`. */
  newtype i32 = x: int | -0x8000_0000 <= x < 0x8000_0000

  datatype SortOrder = Asc | Desc

  datatype Sort = Sort(field: string, order: SortOrder)

  /** One filter expression: left operand, operator and right value. */
  datatype Criterion = Criterion(operandLeft: string, operator: string, operandRight: Json)

  datatype Query = Query(offset: i32, limit: i32, sort: Option<Sort>, filterExpression: seq<Criterion>)

  const DefaultOffset: i32 := 0
  const DefaultLimit: i32 := 50

  /** `Query::default()`: first page of fifty, unsorted, unfiltered. */
  function DefaultQuery(): (q: Query)
    ensures q.offset == 0 && q.limit == 50 && q.sort == None && q.filterExpression == []
  {
    Query(DefaultOffset, DefaultLimit, None, [])
  }

  /** `Criterion::new`: the operands and operator are stored as given. */
  function NewCriterion(left: string, operator: string, right: Json): (c: Criterion)
    ensures c.operandLeft == left && c.operator == operator && c.operandRight == right
  {
    Criterion(left, operator, right)
  }

  datatype QueryBuilder = QueryBuilder(query: Query) {

    /** `filter`: appends one criterion after the earlier ones. */
    function Filter(left: string, operator: string, right: Json): (b: QueryBuilder)
      ensures b.query.filterExpression == query.filterExpression + [NewCriterion(left, operator, right)]
      ensures b.query.offset == query.offset && b.query.limit == query.limit && b.query.sort == query.sort
    {
      QueryBuilder(query.(filterExpression := query.filterExpression + [Criterion(left, operator, right)]))
    }

    /** `sort`: replaces any earlier sort. */
    function SortBy(field: string, order: SortOrder): (b: QueryBuilder)
      ensures b.query.sort == Some(Sort(field, order))
      ensures b.query.offset == query.offset && b.query.limit == query.limit
      ensures b.query.filterExpression == query.filterExpression
    {
      QueryBuilder(query.(sort := Some(Sort(field, order))))
    }

    /** `limit`: overwrites the page size. */
    function Limit(limit: i32): (b: QueryBuilder)
      ensures b.query.limit == limit
      ensures b.query.offset == query.offset && b.query.sort == query.sort
      ensures b.query.filterExpression == query.filterExpression
    {
      QueryBuilder(query.(limit := limit))
    }

    /** `offset`: overwrites the page start. */
    function Offset(offset: i32): (b: QueryBuilder)
      ensures b.query.offset == offset
      ensures b.query.limit == query.limit && b.query.sort == query.sort
      ensures b.query.filterExpression == query.filterExpression
    {
      QueryBuilder(query.(offset := offset))
    }

    /** `build`: the accumulated query, exactly as the setters left it. */
    function Build(): (q: Query)
      ensures QueryBuilder(q) == this
    {
      query
    }
  }

  /** `Query::builder()`: starts from the default query. */
  function Builder(): (b: QueryBuilder)
    ensures b.Build() == DefaultQuery()
  {
    QueryBuilder(DefaultQuery())
  }

  /** Criteria accumulate in call order: filtering by a list of criteria,
      one call after another, yields exactly that list after the earlier
      ones. */
  function FilterAll(b: QueryBuilder, cs: seq<Criterion>): (r: QueryBuilder)
    ensures r.query.filterExpression == b.query.filterExpression + cs
    ensures r.query.offset == b.query.offset && r.query.limit == b.query.limit && r.query.sort == b.query.sort
    decreases |cs|
  {
    if |cs| == 0 then b
    else FilterAll(b.Filter(cs[0].operandLeft, cs[0].operator, cs[0].operandRight), cs[1..])
  }

  /** Setters are last-write-wins, and setters of different fields commute. */
  lemma SettersLastWriteWins(b: QueryBuilder, l1: i32, l2: i32, o1: i32, o2: i32, f1: string, f2: string, s1: SortOrder, s2: SortOrder)
    ensures b.Limit(l1).Limit(l2) == b.Limit(l2)
    ensures b.Offset(o1).Offset(o2) == b.Offset(o2)
    ensures b.SortBy(f1, s1).SortBy(f2, s2) == b.SortBy(f2, s2)
    ensures b.Limit(l1).Offset(o1) == b.Offset(o1).Limit(l1)
  {
  }
}
