/** The query builder of builder.go: an ordered list of independently
    formatted stage strings, joined with " |> " by Build. Each stage method
    formats exactly one stage from its arguments and appends it. */
module Flux {
  import opened Optional
  import opened Text

  /** The separator Build puts between neighbouring stages. */
  const Pipe: string := " |> "

  /** The builder's state: the formatted stages in the order they were added. */
  datatype QueryBuilder = QueryBuilder(parts: seq<string>)

  function NewQueryBuilder(): QueryBuilder {
    QueryBuilder([])
  }

  /** Build: the stages in order with " |> " between neighbours. */
  function Build(q: QueryBuilder): (r: string)
    ensures |q.parts| == 0 ==> r == ""
    ensures |q.parts| == 1 ==> r == q.parts[0]
  {
    Join(q.parts, Pipe)
  }

  /** No leading or trailing separator: the built text starts with the first
      stage and ends with the last, and separators account for exactly the
      extra length. */
  lemma BuildBounds(q: QueryBuilder)
    requires |q.parts| > 0
    ensures IsPrefix(q.parts[0], Build(q)) && IsSuffix(q.parts[|q.parts| - 1], Build(q))
    ensures |Build(q)| == TotalLength(q.parts) + |Pipe| * (|q.parts| - 1)
  {
    JoinBounds(q.parts, Pipe);
  }

  /** `r` is `q` with exactly one more stage, `stage`, at the end; the earlier
      stages keep their content and order, and the built text grows by one
      separator (none for the first stage) and that stage. */
  predicate AppendsStage(q: QueryBuilder, r: QueryBuilder, stage: string) {
    && |r.parts| == |q.parts| + 1
    && r.parts[..|q.parts|] == q.parts
    && r.parts[|q.parts|] == stage
    && Build(r) == (if |q.parts| == 0 then stage else Build(q) + Pipe + stage)
  }

  function Append(q: QueryBuilder, stage: string): (r: QueryBuilder)
    ensures AppendsStage(q, r, stage)
  {
    if |q.parts| == 0 then QueryBuilder([stage])
    else
      JoinAppend(q.parts, stage, Pipe);
      QueryBuilder(q.parts + [stage])
  }

  /** Build distributes over a split of the stage list. */
  lemma BuildConcat(a: seq<string>, b: seq<string>)
    requires |a| > 0 && |b| > 0
    ensures Build(QueryBuilder(a + b)) == Build(QueryBuilder(a)) + Pipe + Build(QueryBuilder(b))
  {
    JoinConcat(a, b, Pipe);
  }

  // ---------------------------------------------------------------------
  // Optional argument lists

  /** The given items, in order, with the absent ones dropped. */
  function Present(items: seq<Option<string>>): (r: seq<string>)
    ensures |r| <= |items|
    ensures (forall i :: 0 <= i < |items| ==> items[i].None?) <==> |r| == 0
  {
    if |items| == 0 then []
    else if items[0].Some? then [items[0].value] + Present(items[1..])
    else Present(items[1..])
  }

  lemma {:induction false} PresentConcat(a: seq<Option<string>>, b: seq<Option<string>>)
    ensures Present(a + b) == Present(a) + Present(b)
  {
    if |a| == 0 {
      assert a + b == b;
    } else {
      assert (a + b)[1..] == a[1..] + b;
      PresentConcat(a[1..], b);
    }
  }

  /** An argument list built by conditional appends: the given items in their
      fixed order, separated by ", ". */
  function Args(items: seq<Option<string>>): string {
    Join(Present(items), ", ")
  }

  /** An absent trailing argument adds nothing; a given one adds ", " and its
      text, or only its text when it is the first one given. */
  lemma ArgsAppend(items: seq<Option<string>>, x: Option<string>)
    ensures x.None? ==> Args(items + [x]) == Args(items)
    ensures x.Some? && |Present(items)| == 0 ==> Args(items + [x]) == x.value
    ensures x.Some? && |Present(items)| > 0 ==>
      Args(items + [x]) == Args(items) + ", " + x.value
  {
    PresentConcat(items, [x]);
    assert Present([x]) == (if x.Some? then [x.value] else []) by {
      assert [x][1..] == [];
    }
    if x.Some? && |Present(items)| > 0 {
      JoinAppend(Present(items), x.value, ", ");
    } else if x.None? {
      assert Present(items) + [] == Present(items);
    }
  }

  /** `key` followed by the value when one is given. */
  function Labeled(key: string, o: Option<string>): (r: Option<string>)
    ensures r.Some? <==> o.Some?
  {
    if o.Some? then Some(key + o.value) else None
  }

  /** A mandatory first argument and an optional second one: the second
      appears, after ", ", only when given. */
  lemma ArgsPair(first: string, second: Option<string>)
    ensures second.None? ==> Args([Some(first), second]) == first
    ensures second.Some? ==> Args([Some(first), second]) == first + ", " + second.value
  {
    var items := [Some(first), second];
    assert items[1..] == [second];
    assert [second][1..] == [];
    assert Present([second]) == (if second.Some? then [second.value] else []);
    assert Present(items) == [first] + Present([second]);
    if second.Some? {
      assert Present(items) == [first, second.value];
      assert [first, second.value][1..] == [second.value];
    } else {
      assert Present(items) == [first];
    }
  }

  /** An Option<int> rendered with Go's %d. */
  function OptDecimal(o: Option<int>): (r: Option<string>)
    ensures r.Some? <==> o.Some?
  {
    if o.Some? then Some(IntToDecimal(o.value)) else None
  }

  // ---------------------------------------------------------------------
  // Stage methods

  /** A stage is a call of a named function: `name(args)`. */
  function Call(name: string, args: string): string {
    name + "(" + args + ")"
  }

  /** From: `from(bucket: "<bucket>")`, the bucket name unescaped. */
  function From(q: QueryBuilder, bucket: string): (r: QueryBuilder)
    ensures AppendsStage(q, r, Call("from", "bucket: " + Quote(bucket)))
  {
    Append(q, Call("from", "bucket: " + Quote(bucket)))
  }

  /** Range: the start bound always, the stop bound only when one is given.
      Both bounds arrive already formatted as RFC 3339 timestamps. */
  function Range(q: QueryBuilder, start: string, stop: Option<string>): (r: QueryBuilder)
    ensures stop.None? ==> AppendsStage(q, r, Call("range", "start: " + start))
    ensures stop.Some? ==>
      AppendsStage(q, r, Call("range", "start: " + start + ", " + ("stop: " + stop.value)))
  {
    ArgsPair("start: " + start, Labeled("stop: ", stop));
    Append(q, Call("range", Args([Some("start: " + start), Labeled("stop: ", stop)])))
  }

  /** Filter: the predicate text spliced in verbatim as the body of `(r) =>`. */
  function Filter(q: QueryBuilder, fn: string): (r: QueryBuilder)
    ensures AppendsStage(q, r, Call("filter", "fn: (r) => " + fn))
  {
    Append(q, Call("filter", "fn: (r) => " + fn))
  }

  /** The argument of the column-list stages: the quoted columns in brackets. */
  function ColumnsArg(columns: seq<string>): string {
    "columns: [" + QuoteList(columns) + "]"
  }

  /** GroupBy: the quoted column list. */
  function GroupBy(q: QueryBuilder, columns: seq<string>): (r: QueryBuilder)
    ensures AppendsStage(q, r, Call("group", ColumnsArg(columns)))
  {
    Append(q, Call("group", ColumnsArg(columns)))
  }

  /** Map: the record text spliced in verbatim inside `({` and `})`. */
  function Map(q: QueryBuilder, fn: string): (r: QueryBuilder)
    ensures AppendsStage(q, r, Call("map", "fn: (r) => ({" + fn + "})"))
  {
    Append(q, Call("map", "fn: (r) => ({" + fn + "})"))
  }

  /** TruncateTimeColumn: the seconds in decimal followed by the unit `s`. */
  function TruncateTimeColumn(q: QueryBuilder, seconds: int): (r: QueryBuilder)
    ensures AppendsStage(q, r, Call("truncateTimeColumn", "unit: " + IntToDecimal(seconds) + "s"))
  {
    Append(q, Call("truncateTimeColumn", "unit: " + IntToDecimal(seconds) + "s"))
  }

  /** Select: the quoted column list followed by a literal ", " before the
      closing parenthesis, as the source writes it. */
  function Select(q: QueryBuilder, columns: seq<string>): (r: QueryBuilder)
    ensures AppendsStage(q, r, Call("select", ColumnsArg(columns) + ", "))
  {
    Append(q, Call("select", ColumnsArg(columns) + ", "))
  }

  /** Keep: the quoted column list; only those columns survive. */
  function Keep(q: QueryBuilder, columns: seq<string>): (r: QueryBuilder)
    ensures AppendsStage(q, r, Call("keep", ColumnsArg(columns)))
  {
    Append(q, Call("keep", ColumnsArg(columns)))
  }

  /** Drop: the quoted column list; those columns are removed. */
  function Drop(q: QueryBuilder, columns: seq<string>): (r: QueryBuilder)
    ensures AppendsStage(q, r, Call("drop", ColumnsArg(columns)))
  {
    Append(q, Call("drop", ColumnsArg(columns)))
  }

  /** One `old: "new"` entry of a rename mapping; the key is not quoted. */
  function RenameEntry(pair: (string, string)): string {
    pair.0 + ": " + Quote(pair.1)
  }

  /** The entries of a rename mapping, one per pair, in walk order. */
  function RenameEntries(pairs: seq<(string, string)>): seq<string> {
    seq(|pairs|, i requires 0 <= i < |pairs| => RenameEntry(pairs[i]))
  }

  /** The source's loop over the mapping: start from an empty argument list
      and append one formatted entry per pair as the walk reaches it. The
      list it ends with holds exactly one entry per pair, each at its pair's
      position. */
  method CollectRenameArgs(pairs: seq<(string, string)>) returns (args: seq<string>)
    ensures |args| == |pairs|
    ensures forall i :: 0 <= i < |pairs| ==> args[i] == RenameEntry(pairs[i])
    ensures args == RenameEntries(pairs)
  {
    args := [];
    var k := 0;
    while k < |pairs|
      invariant 0 <= k <= |pairs|
      invariant |args| == k
      invariant forall i :: 0 <= i < k ==> args[i] == RenameEntry(pairs[i])
    {
      args := args + [RenameEntry(pairs[k])];
      k := k + 1;
    }
  }

  /** Rename: the entries of the mapping, in the order the map is walked
      (given here as the order of `pairs`), separated by ", ", in braces. */
  function Rename(q: QueryBuilder, pairs: seq<(string, string)>): (r: QueryBuilder)
    ensures AppendsStage(q, r, Call("rename", "columns: {" + Join(RenameEntries(pairs), ", ") + "}"))
    ensures |pairs| == 0 ==> AppendsStage(q, r, Call("rename", "columns: {}"))
    ensures |pairs| == 1 ==>
      AppendsStage(q, r, Call("rename", "columns: {" + (pairs[0].0 + ": " + Quote(pairs[0].1)) + "}"))
  {
    var entries := RenameEntries(pairs);
    assert |pairs| == 0 ==> "columns: {" + Join(entries, ", ") == "columns: {";
    Append(q, Call("rename", "columns: {" + Join(entries, ", ") + "}"))
  }

  /** One more entry in the walk adds ", " and that entry after the earlier
      entries' text; the earlier entries keep their order. */
  lemma RenameEntriesAppend(pairs: seq<(string, string)>, p: (string, string))
    requires |pairs| > 0
    ensures Join(RenameEntries(pairs + [p]), ", ") == Join(RenameEntries(pairs), ", ") + ", " + RenameEntry(p)
  {
    assert RenameEntries(pairs + [p]) == RenameEntries(pairs) + [RenameEntry(p)];
    JoinAppend(RenameEntries(pairs), RenameEntry(p), ", ");
  }

  /** strconv.FormatBool. */
  function BoolText(b: bool): string {
    if b then "true" else "false"
  }

  /** Sort: the quoted column list, then `desc: true` or `desc: false`. */
  function Sort(q: QueryBuilder, descending: bool, columns: seq<string>): (r: QueryBuilder)
    ensures descending ==> AppendsStage(q, r, Call("sort", ColumnsArg(columns) + ", desc: true"))
    ensures !descending ==> AppendsStage(q, r, Call("sort", ColumnsArg(columns) + ", desc: false"))
  {
    Append(q, Call("sort", ColumnsArg(columns) + ", desc: " + BoolText(descending)))
  }

  /** Pivot: row key and column key each as a one-element quoted list, the
      value column quoted. */
  function Pivot(q: QueryBuilder, rowKey: string, columnKey: string, valueColumn: string): (r: QueryBuilder)
    ensures AppendsStage(q, r, Call("pivot",
      "rowKey: [" + Quote(rowKey) + "], columnKey: [" + Quote(columnKey) +
      "], valueColumn: " + Quote(valueColumn)))
  {
    Append(q, Call("pivot",
      "rowKey: [" + Quote(rowKey) + "], columnKey: [" + Quote(columnKey) +
      "], valueColumn: " + Quote(valueColumn)))
  }

  /** Sum: `sum()` without a column, `sum(column: "<c>")` with one. */
  function Sum(q: QueryBuilder, column: Option<string>): (r: QueryBuilder)
    ensures column.None? ==> AppendsStage(q, r, Call("sum", ""))
    ensures column.Some? ==> AppendsStage(q, r, Call("sum", "column: " + Quote(column.value)))
  {
    var item := Labeled("column: ", if column.Some? then Some(Quote(column.value)) else None);
    assert [item][1..] == [];
    Append(q, Call("sum", Args([item])))
  }

  /** The argument-free aggregate and selector stages. */
  datatype Reduction = Mean | Median | Min | Max {
    function Name(): (r: string)
      ensures |r| == 3 || |r| == 4 || |r| == 6
    {
      match this
      case Mean => "mean"
      case Median => "median"
      case Min => "min"
      case Max => "max"
    }
  }

  /** Distinct reductions have distinct stage names, so the printed stage
      identifies the reduction. */
  lemma NameInjective(a: Reduction, b: Reduction)
    requires a.Name() == b.Name()
    ensures a == b
  {
  }

  /** Mean / Median / Min / Max: the function name with an empty argument list. */
  function Reduce(q: QueryBuilder, reduction: Reduction): (r: QueryBuilder)
    ensures AppendsStage(q, r, Call(reduction.Name(), ""))
  {
    Append(q, Call(reduction.Name(), ""))
  }

  /** Limit: `n` always, `offset` only when one is given, both with %d. */
  function Limit(q: QueryBuilder, n: int, offset: Option<int>): (r: QueryBuilder)
    ensures offset.None? ==> AppendsStage(q, r, Call("limit", "n: " + IntToDecimal(n)))
    ensures offset.Some? ==>
      AppendsStage(q, r, Call("limit", "n: " + IntToDecimal(n) + ", " + ("offset: " + IntToDecimal(offset.value))))
  {
    ArgsPair("n: " + IntToDecimal(n), Labeled("offset: ", OptDecimal(offset)));
    Append(q, Call("limit", Args([Some("n: " + IntToDecimal(n)), Labeled("offset: ", OptDecimal(offset))])))
  }

  /** The arguments of an elapsed stage, each only when given. */
  function ElapsedArgs(columnName: Option<string>, timeColumn: Option<string>, unit: Option<string>): string {
    Args([Labeled("columnName: ", if columnName.Some? then Some(Quote(columnName.value)) else None),
          Labeled("timeColumn: ", if timeColumn.Some? then Some(Quote(timeColumn.value)) else None),
          Labeled("unit: ", unit)])
  }

  /** With nothing given the argument list is empty. */
  lemma ElapsedArgsNone()
    ensures ElapsedArgs(None, None, None) == ""
  {
  }

  /** A given column name comes first. */
  lemma ElapsedArgsFirst(columnName: string, timeColumn: Option<string>, unit: Option<string>)
    ensures IsPrefix("columnName: " + Quote(columnName), ElapsedArgs(Some(columnName), timeColumn, unit))
  {
    var c := Some("columnName: " + Quote(columnName));
    var t := Labeled("timeColumn: ", if timeColumn.Some? then Some(Quote(timeColumn.value)) else None);
    var u := Labeled("unit: ", unit);
    assert Present([c, t, u]) == [c.value] + Present([c, t, u][1..]);
  }

  /** A given unit comes last. */
  lemma ElapsedArgsLast(columnName: Option<string>, timeColumn: Option<string>, unit: string)
    ensures IsSuffix("unit: " + unit, ElapsedArgs(columnName, timeColumn, Some(unit)))
  {
    var c := Labeled("columnName: ", if columnName.Some? then Some(Quote(columnName.value)) else None);
    var t := Labeled("timeColumn: ", if timeColumn.Some? then Some(Quote(timeColumn.value)) else None);
    var u := Some("unit: " + unit);
    assert [c, t] + [u] == [c, t, u];
    ArgsAppend([c, t], u);
  }

  /** All three given: column name, time column, unit, in that order. */
  lemma ElapsedArgsAll(columnName: string, timeColumn: string, unit: string)
    ensures ElapsedArgs(Some(columnName), Some(timeColumn), Some(unit)) ==
      ("columnName: " + Quote(columnName)) + ", " + ("timeColumn: " + Quote(timeColumn)) + ", " + ("unit: " + unit)
  {
    var c := "columnName: " + Quote(columnName);
    var t := "timeColumn: " + Quote(timeColumn);
    var u := "unit: " + unit;
    var items := [Some(c), Some(t), Some(u)];
    assert items[1..] == [Some(t), Some(u)];
    assert items[1..][1..] == [Some(u)];
    assert [Some(u)][1..] == [];
    assert Present([Some(u)]) == [u];
    assert Present(items[1..]) == [t] + [u];
    assert Present(items) == [c] + ([t] + [u]);
    assert [c] + ([t] + [u]) == [c, t, u];
    JoinAppend([c], t, ", ");
    JoinAppend([c, t], u, ", ");
    assert [c] + [t] == [c, t];
    assert [c, t] + [u] == [c, t, u];
  }

  /** Elapsed: `elapsed(...)` around the given arguments; `elapsed()` when
      none is given. */
  function Elapsed(q: QueryBuilder, columnName: Option<string>, timeColumn: Option<string>,
                   unit: Option<string>): (r: QueryBuilder)
    ensures AppendsStage(q, r, Call("elapsed", ElapsedArgs(columnName, timeColumn, unit)))
    ensures columnName.None? && timeColumn.None? && unit.None? ==>
      AppendsStage(q, r, Call("elapsed", ""))
  {
    Append(q, Call("elapsed", ElapsedArgs(columnName, timeColumn, unit)))
  }
}
