# fluxy query builders in Dafny

A Dafny model of the two builders in the Go package `go_fluxy`. Together they assemble text in the Flux query language.

* **The filter builder** (`filter.go`, module `Filters`) keeps an append-only list of flat `Filter` records. Each record comes from one of these calls:
  * a comparison (`AddFilter`), whose operator defaults to `==`;
  * a connective (`And`, `Or`, `Not`);
  * a group marker (`StartGroup`, `EndGroup`);
  * a verbatim fragment (`AddCompleteFilter`).

  The six operator setters (`Eq`, `Neq`, `Gt`, `Gte`, `Lt`, `Lte`) overwrite the operator of the *last* record, whatever kind it is. `Build` renders each record by a fixed priority and concatenates the results: group start, group end, complete text, connective, then field with operator.
* **The query builder** (`builder.go`, module `Flux`) keeps an ordered list of stage strings. Each stage method formats one stage such as `from(bucket: "b")` and appends it. `Build` joins the stages with `" |> "`.
* Module `Text` holds the query builder's text helpers: joining with a separator (Go's `strings.Join`), the quoted column list, and decimal rendering of integers (Go's `%d`) with its inverse. Module `Optional` holds the `Option` type that stands for Go's nil pointers and unset enum fields.
* Module `Pipeline` shows the composition: a rendered predicate is handed to the filter stage.

The Go builders are mutable objects with chaining methods. Here every builder is an immutable value (`FilterBuilder(filters: seq<Filter>)`, `QueryBuilder(parts: seq<string>)`), and every method is a pure function from the old builder to the new one. Some source methods are parameterised:

| source methods | Dafny function |
|---|---|
| `Eq` … `Lte` | `SetOperator(b, op)` |
| `And` / `Or` / `Not` | `AddCondition(b, c)` |
| `StartGroup` / `EndGroup` | `AddGroup(b, g)` |
| `Mean` / `Median` / `Min` / `Max` | `Reduce(q, r)` |

The `Filter` record is kept flat, as in the source. Nothing in the type stops a record from setting a group, a connective and a field at once. Instead, the model proves that no sequence of builder calls ever produces such a record (`RunWellFormed`). It also proves that an operator setter misapplied after a non-comparison cannot change the output (`MisplacedSetterHarmless`).

Equality renders as `==`, the value of the `Eq` constant in the code. The test file expects `=` in its expected strings. The model follows the code.

## Model

| member | source | states |
|---|---|---|
| Filters.Operator.Symbol | filter.go:13-18 | Each operator prints as a symbol of one or two characters. |
| Filters.SymbolInjective | filter.go:13-18 | Distinct operators have distinct symbols, so the printed symbol identifies the operator. |
| Filters.Condition.Keyword | filter.go:20-22 | Each connective prints as a non-empty keyword: `and`, `or` or `not`. |
| Filters.KeywordInjective | filter.go:20-22 | Distinct connectives have distinct keywords. |
| Filters.RenderAll | filter.go:134-146 | No records print nothing, and a single record prints its own text. |
| Filters.RenderAllEmptyIff | filter.go:134-146 | The whole output is empty if and only if every record prints nothing. |
| Filters.Render | filter.go:135-145 | A record prints nothing exactly when it has no group marker, no complete text, no connective, and either an empty field or no operator; every populated kind prints something. |
| Filters.SingleKindRender | filter.go:135-145 | For a record that populates one kind, the priority order is irrelevant: a field prints `r.F OP "V"`, a connective prints ` c `, complete text prints `(c)`. |
| Filters.RenderAllAppend | filter.go:134-146 | Rendering is a left-to-right fold: one more record appends exactly its own text. |
| Filters.RenderAllConcat | filter.go:134-146 | The rendered text of two record lists placed one after the other is the first list's text followed by the second's. |
| Filters.Build | filter.go:131-149 | The buffer loop returns exactly the in-order concatenation of every record's text. Build changes nothing, so repeated calls agree. |
| Filters.AddFilter | filter.go:49-56 | Appends exactly one record with the given field and value and operator `==` and nothing else set. Earlier records are unchanged. The output grows by `r.F == "V"`, or by nothing when the field is empty. The single-kind invariant is preserved. |
| Filters.AddCondition | filter.go:58-74 | Appends exactly one record carrying only the connective. The output grows by the keyword with one space on each side. The invariant is preserved. |
| Filters.AddCompleteFilter | filter.go:112-116 | Appends exactly one record carrying only the verbatim text. The output grows by `(text)`, or by nothing for empty text. The invariant is preserved. |
| Filters.AddGroup | filter.go:118-128 | Appends exactly one record carrying only the marker. The output grows by a bare `(` or `)` with no spaces. The invariant is preserved. |
| Filters.SetOperator | filter.go:76-110 | Needs a non-empty list, as the source indexes len-1. The length and every record but the last are unchanged. In the last record only the operator changes. The invariant is preserved. |
| Filters.RenderAllSplitLast | filter.go:134-146 | The output is the text of all records but the last, followed by the last record's text. |
| Filters.MisplacedSetterHarmless | filter.go:77-110 | A setter applied when the last record is a connective, a group marker, complete text or an empty-field comparison leaves the output unchanged. |
| Filters.SetterRewritesLastComparison | filter.go:143-144 | A setter applied after a comparison with a non-empty field prints that comparison with the new operator. All earlier text is unchanged. |
| Filters.ComparisonTextInjective | filter.go:12-18 | Two comparisons on the same field and value print identically only if they use the same operator. |
| Filters.SetterChangesOutputIff | filter.go:77-110 | A setter changes the output if and only if the last record prints as a comparison and currently has a different operator. |
| Filters.AddFilterThenSetter | filter.go:49-56 | `AddFilter(f, v)` followed by a setter prints `r.f OP "v"` after the earlier text. |
| Filters.GroupWrapsInner | filter.go:118-128 | StartGroup, any records, then EndGroup print the inner text inside exactly one pair of parentheses with no added spaces. |
| Filters.Apply | filter.go:53-128 | A single call fails (the Go panic) exactly when it is a setter on an empty builder. Appending calls add one record and setters add none. The invariant is preserved. |
| Filters.RunFromWellFormed | filter.go:53-128 | Any run of calls from a well-formed builder that does not panic ends in a well-formed builder. |
| Filters.RunWellFormed | filter.go:53-128 | Every builder reachable through the public calls has only single-kind records, and every record with a field has an operator. |
| Filters.RunFromNonEmpty | filter.go:77-110 | From a non-empty builder no call sequence panics. The record count grows by the number of appending calls. |
| Filters.RunPanicsIff | filter.go:77-110 | A call sequence panics if and only if its very first call is an operator setter. Otherwise it holds one record per appending call. |
| Filters.ExampleSingleFilter | filter.go:53-56 | `AddFilter("field1", "value1")` renders `r.field1 == "value1"`. |
| Filters.TwoComparisons | filter_test.go:20-26 | Comparison, connective, comparison renders as the first comparison, the keyword between single spaces, then the second comparison. |
| Text.Join | builder.go:163-165 | Joining no parts gives `""`, and joining one part gives that part unchanged. |
| Text.JoinBounds | builder.go:163-165 | A join of one or more parts starts with the first part and ends with the last. It is longer than the parts by exactly one separator per gap. |
| Text.JoinAppend | builder.go:163-165 | Appending a part to a non-empty list extends the joined text by one separator and that part. |
| Text.JoinConcat | builder.go:163-165 | The join of two non-empty runs is the join of each, glued with one separator. |
| Text.QuoteList | builder.go:43-47 | No columns give an empty list. One column gives that column in double quotes. |
| Text.QuoteListConcat | builder.go:43-47 | The quoted list keeps column order: the list of `a + b` is the list of `a`, `", "`, then the list of `b`. |
| Text.NatToDecimal | builder.go:57 | The decimal text is non-empty and all digits, with a leading zero only for 0, and is one digit long exactly below 10. |
| Text.ParseNatToDecimal | builder.go:57 | Reading the decimal text back gives the number rendered. |
| Text.ParseNatPositive | builder.go:57 | A digit string with a non-zero first digit has a positive value. |
| Text.NatToDecimalParse | builder.go:57 | Every canonical digit string is the rendering of its own value, so the decimal form is unique. |
| Text.IntToDecimal | builder.go:138 | The rendering starts with `-` exactly for negative integers. |
| Text.IntToDecimalRoundTrip | builder.go:138-140 | Reading back the `%d` rendering of any integer, negative ones included, gives that integer. |
| Flux.Build | builder.go:162-165 | An empty builder gives `""` and one stage gives that stage verbatim. |
| Flux.BuildBounds | builder.go:162-165 | With at least one stage the text starts with the first stage and ends with the last, so there is no leading or trailing separator. Separators add exactly 4 characters per gap. |
| Flux.BuildConcat | builder.go:163-165 | Building a stage list split in two gives the two builds joined by one `" |> "`. |
| Flux.Present | builder.go:148-157 | Dropping absent optional arguments never adds items. The result is empty exactly when every argument is absent. |
| Flux.PresentConcat | builder.go:148-157 | Dropping absent arguments keeps the present ones in their order, piecewise over concatenation. |
| Flux.ArgsAppend | builder.go:29-34 | An absent trailing optional argument adds nothing. A present one adds `", "` and its text, or only its text when it is the first present. |
| Flux.ArgsPair | builder.go:137-143 | A mandatory argument followed by an optional one: the optional one appears, after `", "`, only when given. |
| Flux.From | builder.go:21-24 | Appends one stage `from(bucket: "b")`. Earlier stages are unchanged. Build grows by the separator (none for the first stage) and that stage. |
| Flux.Range | builder.go:26-36 | Appends `range(start: S)`, with `, stop: T` only when a stop is given. Earlier stages are unchanged and Build grows accordingly. |
| Flux.Filter | builder.go:38-41 | Appends `filter(fn: (r) => fn)` with fn verbatim. Earlier stages are unchanged and Build grows accordingly. |
| Flux.GroupBy | builder.go:43-49 | Appends `group(columns: [...])` with the quoted columns in order. Earlier stages are unchanged and Build grows accordingly. |
| Flux.Map | builder.go:51-54 | Appends `map(fn: (r) => ({fn}))` with fn verbatim. Earlier stages are unchanged and Build grows accordingly. |
| Flux.TruncateTimeColumn | builder.go:56-59 | Appends `truncateTimeColumn(unit: Ns)` with N in decimal. Earlier stages are unchanged and Build grows accordingly. |
| Flux.Select | builder.go:61-67 | Appends `select(columns: [...], )`, keeping the source's literal `", "` before the closing parenthesis. Earlier stages are unchanged and Build grows accordingly. |
| Flux.Keep | builder.go:69-75 | Appends `keep(columns: [...])` with the quoted columns in order. Earlier stages are unchanged and Build grows accordingly. |
| Flux.Drop | builder.go:77-83 | Appends `drop(columns: [...])` with the quoted columns in order. Earlier stages are unchanged and Build grows accordingly. |
| Flux.CollectRenameArgs | builder.go:86-89 | The loop that appends one formatted entry per pair ends with exactly one entry per pair, the i-th being the i-th pair's `old: "new"`, which is the entry list `Rename` joins. |
| Flux.Rename | builder.go:85-92 | For any mapping, appends one stage `rename(columns: {...})` holding the entries in walk order, separated by `", "`. Earlier stages are unchanged and Build grows accordingly. An empty mapping gives `rename(columns: {})`, and one entry gives `rename(columns: {old: "new"})`. |
| Flux.RenameEntriesAppend | builder.go:87-90 | One more entry in the walk adds `", "` and that entry after the earlier entries' text. |
| Flux.Sort | builder.go:94-100 | Appends the quoted column list followed by `desc: true` or `desc: false`, according to the flag. |
| Flux.Pivot | builder.go:102-105 | Appends a pivot stage with row key and column key as one-element quoted lists and the value column quoted. |
| Flux.Sum | builder.go:107-114 | Appends `sum()` without a column, and `sum(column: "c")` only when a column is given. |
| Flux.Reduction.Name | builder.go:116-134 | Each reduction's stage name has 3, 4 or 6 characters. |
| Flux.NameInjective | builder.go:116-134 | Distinct reductions have distinct stage names, so the printed stage identifies the reduction. |
| Flux.Reduce | builder.go:116-134 | Appends the fixed stage `mean()`, `median()`, `min()` or `max()`. |
| Flux.Limit | builder.go:136-145 | Appends `limit(n: N)`, with `, offset: O` only when an offset is given. Both numbers are in decimal. |
| Flux.ElapsedArgsNone | builder.go:147-160 | With no column name, time column or unit the argument list is empty. |
| Flux.ElapsedArgsFirst | builder.go:147-151 | A given column name always comes first. |
| Flux.ElapsedArgsLast | builder.go:155-158 | A given unit always comes last. |
| Flux.ElapsedArgsAll | builder.go:147-160 | With all three given, the order is columnName, timeColumn, unit, separated by `", "`. |
| Flux.Elapsed | builder.go:147-160 | Appends `elapsed(args)`, and `elapsed()` when nothing is given. Earlier stages are unchanged. |
| Pipeline.FilterStageEmbedsPredicate | builder.go:38-41 | The filter stage embeds the rendered predicate verbatim, and the built query ends with that stage. |
| Pipeline.ExampleFilterStage | builder.go:38-41 | A one-comparison predicate yields the filter stage `filter(fn: (r) => r.field1 == "value1")`. |
| Pipeline.ExampleBasicQuery | builder_test.go:14-21 | From, Range without stop, Filter and GroupBy of one column build the four stages in call order, separated by `" |> "`. |
| Pipeline.ExampleSumAndLimit | builder_test.go:33-35 | `Sum(nil)` appends `sum()` and `Limit(10, nil)` appends `limit(n: 10)`. |

## Left out

- Time formatting: `Range` takes its bounds as already-formatted strings. Go's `time.Time.Format(time.RFC3339)`, the timestamp format of section 5.6 of RFC 3339, is not part of this model.
- Go map walk order in `Rename`: Go walks a map in an unspecified order. The model takes that order as a parameter (`pairs`) and states the stage for each given order. It does not model which order Go picks.
- Go integer width: `TruncateTimeColumn` and `Limit` take unbounded integers. `%d` only renders its argument, so there is no wrap-around to model.
- Escaping: there is none. Quotes and parentheses inside field names, values, columns and fragments pass through verbatim, as in the source.
- Structural validation: there is no check of group balance, connective adjacency, or leading or trailing connectives, and no strict-mode validator. The code has none.
- The operator, condition and group fields are enums wrapped in `Option`. In Go they are named string types whose empty string means unset. The builder only ever stores the declared constants, so no other string value is modelled.
- Chaining and pointer receivers: each method returns a new immutable builder instead of mutating and returning `*FilterBuilder` or `*FluxQueryBuilder`.
- The constructors `NewFilterBuilder` and `NewFluxQueryBuilder` are modelled as the plain functions `Filters.NewFilterBuilder` and `Flux.NewQueryBuilder`, each returning an empty builder.
- Filters.TwoComparisons: states the two-comparison shape symbolically, in terms of the comparison text and keyword. The literal strings of the test file are not spelled out, because that file expects `=`, which the code never emits.
- Pipeline.ExampleBasicQuery: states the test's query shape with symbolic bucket, bound, predicate and column. It does not spell out the literal strings.
- The Go test harness is not modelled.
- Strings are sequences of Unicode characters, not Go's byte strings. A Go string holding invalid UTF-8 cannot be represented, and every length stated (for example in `Text.JoinBounds` and `Flux.BuildBounds`) counts characters, not bytes.
