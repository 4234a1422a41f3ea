/** How the two builders meet: the text a filter builder renders is handed,
    unchanged, to the query builder's filter stage. */
module Pipeline {
  import opened Optional
  import opened Text
  import Filters
  import opened Flux

  /** The filter stage embeds the rendered predicate verbatim, and the built
      query ends with that stage. */
  lemma FilterStageEmbedsPredicate(q: QueryBuilder, b: Filters.FilterBuilder)
    ensures var r := Flux.Filter(q, Filters.RenderAll(b.filters));
            |r.parts| == |q.parts| + 1 &&
            r.parts[|q.parts|] == Call("filter", "fn: (r) => " + Filters.RenderAll(b.filters)) &&
            IsSuffix(Call("filter", "fn: (r) => " + Filters.RenderAll(b.filters)), Build(r))
  {
  }

  /** A one-comparison predicate inside a filter stage. */
  lemma ExampleFilterStage()
    ensures Build(Flux.Filter(NewQueryBuilder(),
              Filters.RenderAll(Filters.AddFilter(Filters.NewFilterBuilder(), "field1", "value1").filters)))
            == Call("filter", "fn: (r) => " + "r.field1 == \"value1\"")
  {
    Filters.ExampleSingleFilter();
  }

  /** The shape of a from / range / filter / group query: four stages in call
      order with the separator between each pair. */
  lemma ExampleBasicQuery(bucket: string, start: string, fn: string, column: string)
    ensures Build(GroupBy(Flux.Filter(Range(From(NewQueryBuilder(), bucket), start, None), fn), [column]))
            == Call("from", "bucket: " + Quote(bucket)) + Pipe +
               Call("range", "start: " + start) + Pipe +
               Call("filter", "fn: (r) => " + fn) + Pipe +
               Call("group", "columns: [" + Quote(column) + "]")
  {
  }

  /** Sum without a column and Limit without an offset print no optional
      argument at all: `sum()` and `limit(n: 10)`. */
  lemma ExampleSumAndLimit(q: QueryBuilder)
    ensures Sum(q, None).parts[|q.parts|] == Call("sum", "")
    ensures Limit(q, 10, None).parts[|q.parts|] == Call("limit", "n: 10")
  {
    assert IntToDecimal(10) == "10";
  }
}
