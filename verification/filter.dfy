/** The filter-predicate builder of filter.go: an append-only list of flat
    filter records, a family of setters that rewrite the operator of the last
    record, and a renderer that concatenates each record's text in order.

    The record is kept flat, as in the source: every field is optional and
    nothing in the type stops two of them from being set at once. The
    renderer resolves such mixtures by a fixed priority; the lemmas below
    show that the builder's own operations never produce them. */
module Filters {
  import opened Optional

  /** The comparison operators; the source spells equality "==". */
  datatype Operator = Eq | Neq | Gt | Gte | Lt | Lte {
    function Symbol(): (r: string)
      ensures |r| == 1 || |r| == 2
    {
      match this
      case Eq => "=="
      case Neq => "!="
      case Gt => ">"
      case Gte => ">="
      case Lt => "<"
      case Lte => "<="
    }
  }

  /** Distinct operators have distinct symbols, so the printed symbol
      identifies the operator. */
  lemma SymbolInjective(p: Operator, q: Operator)
    requires p.Symbol() == q.Symbol()
    ensures p == q
  {
  }

  /** The logical connectives. */
  datatype Condition = And | Or | Not {
    function Keyword(): (r: string)
      ensures |r| > 0
    {
      match this
      case And => "and"
      case Or => "or"
      case Not => "not"
    }
  }

  /** Distinct connectives have distinct keywords. */
  lemma KeywordInjective(c: Condition, d: Condition)
    requires c.Keyword() == d.Keyword()
    ensures c == d
  {
  }

  /** Group markers, rendered as a bare parenthesis. */
  datatype GroupMarker = Start | End

  /** One flat filter record. `None` and `""` play the role of Go's empty
      string (the zero value of each field). */
  datatype Filter = Filter(
    field: string,
    value: string,
    operator: Option<Operator>,
    condition: Option<Condition>,
    group: Option<GroupMarker>,
    complete: string)

  /** The builder's state: the records in the order they were appended. */
  datatype FilterBuilder = FilterBuilder(filters: seq<Filter>)

  function NewFilterBuilder(): FilterBuilder {
    FilterBuilder([])
  }

  // ---------------------------------------------------------------------
  // Rendering

  /** The text of one comparison: `r.<field> <op> "<value>"`, nothing escaped. */
  function ComparisonText(field: string, op: Operator, value: string): string {
    "r." + field + " " + op.Symbol() + " \"" + value + "\""
  }

  /** True when the record would print a comparison: no group, no complete
      text, no connective, a non-empty field. The operator is what is printed. */
  predicate IsLiveComparison(f: Filter) {
    f.group.None? && f.complete == "" && f.condition.None? && f.field != ""
  }

  /** The text of one record, by the renderer's fixed priority: group start,
      group end, complete text, connective, then field with operator. */
  function Render(f: Filter): (r: string)
    ensures r == "" <==>
      f.group.None? && f.complete == "" && f.condition.None? &&
      (f.field == "" || f.operator.None?)
  {
    match f.group
    case Some(Start) => "("
    case Some(End) => ")"
    case None =>
      if f.complete != "" then "(" + f.complete + ")"
      else if f.condition.Some? then " " + f.condition.value.Keyword() + " "
      else if f.field != "" && f.operator.Some? then
        ComparisonText(f.field, f.operator.value, f.value)
      else ""
  }

  /** The concatenation of every record's text, first record first. */
  function RenderAll(fs: seq<Filter>): (r: string)
    ensures |fs| == 0 ==> r == ""
    ensures |fs| == 1 ==> r == Render(fs[0])
  {
    if |fs| == 0 then "" else Render(fs[0]) + RenderAll(fs[1..])
  }

  /** The output is empty exactly when no record prints anything. */
  lemma {:induction false} RenderAllEmptyIff(fs: seq<Filter>)
    ensures RenderAll(fs) == "" <==> forall i :: 0 <= i < |fs| ==> Render(fs[i]) == ""
  {
    if |fs| > 0 {
      RenderAllEmptyIff(fs[1..]);
      assert forall i :: 1 <= i < |fs| ==> fs[i] == fs[1..][i - 1];
    }
  }

  /** Rendering is a left-to-right fold: one more record adds its text at the end. */
  lemma {:induction false} RenderAllAppend(fs: seq<Filter>, f: Filter)
    ensures RenderAll(fs + [f]) == RenderAll(fs) + Render(f)
  {
    if |fs| == 0 {
      assert (fs + [f])[1..] == [];
    } else {
      assert (fs + [f])[1..] == fs[1..] + [f];
      RenderAllAppend(fs[1..], f);
    }
  }

  /** Rendering distributes over concatenation of record lists. */
  lemma {:induction false} RenderAllConcat(a: seq<Filter>, b: seq<Filter>)
    ensures RenderAll(a + b) == RenderAll(a) + RenderAll(b)
  {
    if |a| == 0 {
      assert a + b == b;
    } else {
      assert (a + b)[1..] == a[1..] + b;
      RenderAllConcat(a[1..], b);
    }
  }

  /** Build walks the records once, appending each record's text to a buffer.
      Its result is the fold of Render over the records, whatever they hold. */
  method Build(b: FilterBuilder) returns (s: string)
    ensures s == RenderAll(b.filters)
  {
    s := "";
    var i := 0;
    while i < |b.filters|
      invariant 0 <= i <= |b.filters|
      invariant s == RenderAll(b.filters[..i])
    {
      RenderAllAppend(b.filters[..i], b.filters[i]);
      assert b.filters[..i + 1] == b.filters[..i] + [b.filters[i]];
      s := s + Render(b.filters[i]);
      i := i + 1;
    }
    assert b.filters[..i] == b.filters;
  }

  // ---------------------------------------------------------------------
  // The single-kind invariant

  /** A record populates at most one of group / complete / condition / field,
      and a record with a field always has an operator. */
  predicate SingleKind(f: Filter) {
    && (f.group.Some? ==> f.complete == "" && f.condition.None? && f.field == "")
    && (f.complete != "" ==> f.condition.None? && f.field == "")
    && (f.condition.Some? ==> f.field == "")
    && (f.field != "" ==> f.operator.Some?)
  }

  predicate WellFormed(fs: seq<Filter>) {
    forall i :: 0 <= i < |fs| ==> SingleKind(fs[i])
  }

  /** For a single-kind record the priority order does not matter: its text
      is determined by the one part it populates. */
  lemma SingleKindRender(f: Filter)
    requires SingleKind(f)
    ensures f.field != "" ==> Render(f) == ComparisonText(f.field, f.operator.value, f.value)
    ensures f.condition.Some? ==> Render(f) == " " + f.condition.value.Keyword() + " "
    ensures f.complete != "" ==> Render(f) == "(" + f.complete + ")"
  {
  }

  // ---------------------------------------------------------------------
  // Builder operations

  /** `b` extended by exactly the record `f`, earlier records untouched. */
  predicate AppendsOne(b: FilterBuilder, r: FilterBuilder, f: Filter) {
    |r.filters| == |b.filters| + 1 &&
    r.filters[..|b.filters|] == b.filters &&
    r.filters[|b.filters|] == f
  }

  function Append(b: FilterBuilder, f: Filter): (r: FilterBuilder)
    ensures AppendsOne(b, r, f)
    ensures RenderAll(r.filters) == RenderAll(b.filters) + Render(f)
    ensures WellFormed(b.filters) && SingleKind(f) ==> WellFormed(r.filters)
  {
    RenderAllAppend(b.filters, f);
    FilterBuilder(b.filters + [f])
  }

  /** AddFilter: a comparison of `field` against `value` with operator "==".
      It prints `r.field == "value"`, or nothing when the field is empty. */
  function AddFilter(b: FilterBuilder, field: string, value: string): (r: FilterBuilder)
    ensures AppendsOne(b, r, Filter(field, value, Some(Eq), None, None, ""))
    ensures RenderAll(r.filters) ==
      RenderAll(b.filters) + (if field == "" then "" else ComparisonText(field, Eq, value))
    ensures WellFormed(b.filters) ==> WellFormed(r.filters)
  {
    Append(b, Filter(field, value, Some(Eq), None, None, ""))
  }

  /** And / Or / Not: a record carrying only the connective, printed with one
      space on each side. */
  function AddCondition(b: FilterBuilder, c: Condition): (r: FilterBuilder)
    ensures AppendsOne(b, r, Filter("", "", None, Some(c), None, ""))
    ensures RenderAll(r.filters) == RenderAll(b.filters) + " " + c.Keyword() + " "
    ensures WellFormed(b.filters) ==> WellFormed(r.filters)
  {
    Append(b, Filter("", "", None, Some(c), None, ""))
  }

  /** AddCompleteFilter: a record carrying only verbatim text, printed inside
      parentheses, or nothing when the text is empty. */
  function AddCompleteFilter(b: FilterBuilder, text: string): (r: FilterBuilder)
    ensures AppendsOne(b, r, Filter("", "", None, None, None, text))
    ensures RenderAll(r.filters) ==
      RenderAll(b.filters) + (if text == "" then "" else "(" + text + ")")
    ensures WellFormed(b.filters) ==> WellFormed(r.filters)
  {
    Append(b, Filter("", "", None, None, None, text))
  }

  /** StartGroup / EndGroup: a record carrying only the marker, printed as a
      bare parenthesis with no spaces. */
  function AddGroup(b: FilterBuilder, g: GroupMarker): (r: FilterBuilder)
    ensures AppendsOne(b, r, Filter("", "", None, None, Some(g), ""))
    ensures RenderAll(r.filters) == RenderAll(b.filters) + (if g == Start then "(" else ")")
    ensures WellFormed(b.filters) ==> WellFormed(r.filters)
  {
    Append(b, Filter("", "", None, None, Some(g), ""))
  }

  /** Eq / Neq / Gt / Gte / Lt / Lte: overwrite the operator of the last
      record, whatever kind it is. The list must not be empty (the source
      indexes position len-1 and panics otherwise). */
  function SetOperator(b: FilterBuilder, op: Operator): (r: FilterBuilder)
    requires |b.filters| > 0
    ensures |r.filters| == |b.filters|
    ensures r.filters[..|b.filters| - 1] == b.filters[..|b.filters| - 1]
    ensures var last := b.filters[|b.filters| - 1];
            r.filters[|b.filters| - 1] ==
              Filter(last.field, last.value, Some(op), last.condition, last.group, last.complete)
    ensures WellFormed(b.filters) ==> WellFormed(r.filters)
  {
    var n := |b.filters|;
    FilterBuilder(b.filters[n - 1 := b.filters[n - 1].(operator := Some(op))])
  }

  // ---------------------------------------------------------------------
  // What the operator setters do to the rendered text

  /** The rendered text of a list is the text of all but its last record
      followed by the text of the last. */
  lemma {:induction false} RenderAllSplitLast(fs: seq<Filter>)
    requires |fs| > 0
    ensures RenderAll(fs) == RenderAll(fs[..|fs| - 1]) + Render(fs[|fs| - 1])
  {
    assert fs == fs[..|fs| - 1] + [fs[|fs| - 1]];
    RenderAllAppend(fs[..|fs| - 1], fs[|fs| - 1]);
  }

  /** A setter applied after a connective, a group marker, a complete filter
      or an empty-field comparison leaves the output unchanged: those cases
      are rendered before the operator is ever looked at. */
  lemma MisplacedSetterHarmless(b: FilterBuilder, op: Operator)
    requires |b.filters| > 0
    requires !IsLiveComparison(b.filters[|b.filters| - 1])
    ensures RenderAll(SetOperator(b, op).filters) == RenderAll(b.filters)
  {
    var r := SetOperator(b, op);
    RenderAllSplitLast(b.filters);
    RenderAllSplitLast(r.filters);
  }

  /** A setter applied after a comparison with a non-empty field replaces
      that comparison's operator in the output and changes nothing else. */
  lemma SetterRewritesLastComparison(b: FilterBuilder, op: Operator)
    requires |b.filters| > 0
    requires IsLiveComparison(b.filters[|b.filters| - 1])
    ensures var last := b.filters[|b.filters| - 1];
            RenderAll(SetOperator(b, op).filters) ==
              RenderAll(b.filters[..|b.filters| - 1]) + ComparisonText(last.field, op, last.value)
  {
    var r := SetOperator(b, op);
    RenderAllSplitLast(r.filters);
  }

  /** Different operators print differently inside the same comparison. */
  lemma ComparisonTextInjective(field: string, value: string, p: Operator, q: Operator)
    requires ComparisonText(field, p, value) == ComparisonText(field, q, value)
    ensures p == q
  {
    var pre := "r." + field + " ";
    var post := " \"" + value + "\"";
    var s := pre + p.Symbol() + post;
    var t := pre + q.Symbol() + post;
    assert s == ComparisonText(field, p, value);
    assert t == ComparisonText(field, q, value);
    assert |p.Symbol()| == |q.Symbol()|;
    assert s[|pre|..|pre| + |p.Symbol()|] == p.Symbol();
    assert t[|pre|..|pre| + |q.Symbol()|] == q.Symbol();
    SymbolInjective(p, q);
  }

  /** A setter changes the output exactly when the last record prints as a
      comparison and currently carries a different operator. */
  lemma SetterChangesOutputIff(b: FilterBuilder, op: Operator)
    requires |b.filters| > 0
    ensures var last := b.filters[|b.filters| - 1];
            RenderAll(SetOperator(b, op).filters) != RenderAll(b.filters) <==>
              IsLiveComparison(last) && last.operator != Some(op)
  {
    var last := b.filters[|b.filters| - 1];
    var pre := b.filters[..|b.filters| - 1];
    var r := SetOperator(b, op);
    RenderAllSplitLast(b.filters);
    RenderAllSplitLast(r.filters);
    var x := Render(last);
    var y := Render(r.filters[|b.filters| - 1]);
    if RenderAll(pre) + x == RenderAll(pre) + y {
      assert x == (RenderAll(pre) + x)[|RenderAll(pre)|..];
      assert y == (RenderAll(pre) + y)[|RenderAll(pre)|..];
      if IsLiveComparison(last) && last.operator.Some? {
        ComparisonTextInjective(last.field, last.value, last.operator.value, op);
      }
    }
  }

  /** A setter right after AddFilter prints the comparison with that operator. */
  lemma AddFilterThenSetter(b: FilterBuilder, field: string, value: string, op: Operator)
    requires field != ""
    ensures RenderAll(SetOperator(AddFilter(b, field, value), op).filters) ==
      RenderAll(b.filters) + ComparisonText(field, op, value)
  {
    var a := AddFilter(b, field, value);
    SetterRewritesLastComparison(a, op);
    assert a.filters[..|a.filters| - 1] == b.filters;
  }

  /** A group start, any records, and a group end print the inner records'
      text inside exactly one pair of parentheses, with no added spaces. */
  lemma GroupWrapsInner(b: FilterBuilder, inner: seq<Filter>)
    ensures var started := AddGroup(b, Start);
            var filled := FilterBuilder(started.filters + inner);
            RenderAll(AddGroup(filled, End).filters) ==
              RenderAll(b.filters) + "(" + RenderAll(inner) + ")"
  {
    var started := AddGroup(b, Start);
    RenderAllConcat(started.filters, inner);
  }

  // ---------------------------------------------------------------------
  // Sequences of builder calls

  /** One call on the builder's public surface. */
  datatype BuilderCall =
    | AddFilterCall(field: string, value: string)
    | ConditionCall(c: Condition)
    | OperatorCall(op: Operator)
    | CompleteCall(text: string)
    | GroupCall(g: GroupMarker)

  /** The effect of one call; `None` stands for the panic of a setter called
      on an empty builder. */
  function Apply(b: FilterBuilder, call: BuilderCall): (r: Option<FilterBuilder>)
    ensures r.None? <==> call.OperatorCall? && |b.filters| == 0
    ensures r.Some? && !call.OperatorCall? ==> |r.value.filters| == |b.filters| + 1
    ensures r.Some? && call.OperatorCall? ==> |r.value.filters| == |b.filters|
    ensures r.Some? && WellFormed(b.filters) ==> WellFormed(r.value.filters)
  {
    match call
    case AddFilterCall(field, value) => Some(AddFilter(b, field, value))
    case ConditionCall(c) => Some(AddCondition(b, c))
    case OperatorCall(op) => if |b.filters| == 0 then None else Some(SetOperator(b, op))
    case CompleteCall(text) => Some(AddCompleteFilter(b, text))
    case GroupCall(g) => Some(AddGroup(b, g))
  }

  /** The calls applied in order, stopping at the first panic. */
  function RunFrom(b: FilterBuilder, calls: seq<BuilderCall>): Option<FilterBuilder>
    decreases |calls|
  {
    if |calls| == 0 then Some(b)
    else
      match Apply(b, calls[0])
      case None => None
      case Some(b') => RunFrom(b', calls[1..])
  }

  function Run(calls: seq<BuilderCall>): Option<FilterBuilder> {
    RunFrom(NewFilterBuilder(), calls)
  }

  /** Number of calls that append a record (all but the setters). */
  function AppendCount(calls: seq<BuilderCall>): nat {
    if |calls| == 0 then 0
    else (if calls[0].OperatorCall? then 0 else 1) + AppendCount(calls[1..])
  }

  lemma {:induction false} RunFromWellFormed(b: FilterBuilder, calls: seq<BuilderCall>)
    requires WellFormed(b.filters)
    ensures RunFrom(b, calls).Some? ==> WellFormed(RunFrom(b, calls).value.filters)
    decreases |calls|
  {
    if |calls| > 0 {
      var next := Apply(b, calls[0]);
      if next.Some? {
        RunFromWellFormed(next.value, calls[1..]);
      }
    }
  }

  /** Whatever sequence of builder calls produced it, every record populates
      at most one kind, and every record with a field has an operator. */
  lemma RunWellFormed(calls: seq<BuilderCall>)
    ensures Run(calls).Some? ==> WellFormed(Run(calls).value.filters)
  {
    RunFromWellFormed(NewFilterBuilder(), calls);
  }

  lemma {:induction false} RunFromNonEmpty(b: FilterBuilder, calls: seq<BuilderCall>)
    requires |b.filters| > 0
    ensures RunFrom(b, calls).Some?
    ensures |RunFrom(b, calls).value.filters| == |b.filters| + AppendCount(calls)
    decreases |calls|
  {
    if |calls| > 0 {
      RunFromNonEmpty(Apply(b, calls[0]).value, calls[1..]);
    }
  }

  /** A run of calls panics exactly when its very first call is an operator
      setter; otherwise it holds one record per appending call. */
  lemma RunPanicsIff(calls: seq<BuilderCall>)
    ensures Run(calls).None? <==> |calls| > 0 && calls[0].OperatorCall?
    ensures Run(calls).Some? ==> |Run(calls).value.filters| == AppendCount(calls)
  {
    if |calls| > 0 && !calls[0].OperatorCall? {
      var b := Apply(NewFilterBuilder(), calls[0]).value;
      RunFromNonEmpty(b, calls[1..]);
    }
  }

  // ---------------------------------------------------------------------
  // Worked examples

  /** A single AddFilter prints `r.field1 == "value1"`, with the operator the
      code defines for equality, "==". */
  lemma ExampleSingleFilter()
    ensures RenderAll(AddFilter(NewFilterBuilder(), "field1", "value1").filters)
            == "r.field1 == \"value1\""
  {
    assert Eq.Symbol() == "==";
    assert "r." + "field1" + " " + "==" + " \"" + "value1" + "\"" == "r.field1 == \"value1\"";
  }

  /** Two comparisons joined by a connective print as the first comparison,
      the keyword between single spaces, then the second comparison. */
  lemma TwoComparisons(f1: string, v1: string, c: Condition, f2: string, v2: string)
    requires f1 != "" && f2 != ""
    ensures RenderAll(AddFilter(AddCondition(AddFilter(NewFilterBuilder(), f1, v1), c), f2, v2).filters)
            == ComparisonText(f1, Eq, v1) + " " + c.Keyword() + " " + ComparisonText(f2, Eq, v2)
  {
    var b0 := NewFilterBuilder();
    var b1 := AddFilter(b0, f1, v1);
    var b2 := AddCondition(b1, c);
    var b3 := AddFilter(b2, f2, v2);
    assert RenderAll(b0.filters) == "";
    assert RenderAll(b1.filters) == ComparisonText(f1, Eq, v1);
    assert RenderAll(b3.filters) == RenderAll(b2.filters) + ComparisonText(f2, Eq, v2);
  }
}
