/**
 * Properties of the query compiler: the loop-shaped Compile agrees with the
 * reference definitions FilterOf and ScanAfter, the shape of a level's
 * result, and what each operator compiles to.
 */
module FilterLemmas {
  import opened Wrappers
  import opened Text
  import opened QueryParams
  import opened Filters
  import opened FilterSpec

  /* ---------------- Compile agrees with FilterOf and ScanAfter ---------------- */

  /**
   * getFilter's result is the reference filter FilterOf, errors included,
   * and the scan it leaves is the reference ScanAfter: the filter does not
   * depend on the scan, and the scan changes do not depend on the filters.
   */
  lemma {:induction false} CompileMatchesReference(prefix: string, ps: seq<QueryParameter>, op: ListOp, cfg: Configs, st: ScanState)
    decreases ps, 1
    ensures Compile(prefix, ps, op, cfg, st).Err? ==>
      FilterOf(prefix, ps, op, cfg) == Err(Compile(prefix, ps, op, cfg, st).error)
    ensures Compile(prefix, ps, op, cfg, st).Ok? ==>
      && FilterOf(prefix, ps, op, cfg) == Ok(Compile(prefix, ps, op, cfg, st).value.filter)
      && Compile(prefix, ps, op, cfg, st).value.scan == ScanAfter(prefix, ps, cfg, st)
  {
    if ps != [] {
      WalkMatchesReference(prefix, ps, cfg, Level([], st));
      match Walk(prefix, ps, cfg, Level([], st))
      case Err(e) =>
      case Ok(l) => assert l.filters == ItemsOf(prefix, ps, cfg).value;
    }
  }

  lemma {:induction false} WalkMatchesReference(prefix: string, ps: seq<QueryParameter>, cfg: Configs, acc: Level)
    decreases ps, 0
    ensures Walk(prefix, ps, cfg, acc).Err? ==>
      ItemsOf(prefix, ps, cfg) == Err(Walk(prefix, ps, cfg, acc).error)
    ensures Walk(prefix, ps, cfg, acc).Ok? ==>
      && ItemsOf(prefix, ps, cfg).Ok?
      && Walk(prefix, ps, cfg, acc).value.filters == acc.filters + ItemsOf(prefix, ps, cfg).value
      && Walk(prefix, ps, cfg, acc).value.scan == ScanAfter(prefix, ps, cfg, acc.scan)
  {
    if ps != [] {
      StepMatchesReference(prefix, ps[0], cfg, acc);
      match Step(prefix, ps[0], cfg, acc)
      case Err(e) =>
      case Ok(next) =>
        WalkMatchesReference(prefix, ps[1..], cfg, next);
    }
  }

  lemma {:induction false} StepMatchesReference(prefix: string, p: QueryParameter, cfg: Configs, acc: Level)
    decreases p
    ensures Step(prefix, p, cfg, acc).Err? ==>
      ItemOf(prefix, p, cfg) == Err(Step(prefix, p, cfg, acc).error)
    ensures Step(prefix, p, cfg, acc).Ok? ==>
      && ItemOf(prefix, p, cfg).Ok?
      && Step(prefix, p, cfg, acc).value.filters == acc.filters + AsSeq(ItemOf(prefix, p, cfg).value)
      && Step(prefix, p, cfg, acc).value.scan == ScanAfterOne(prefix, p, cfg, acc.scan)
  {
    match p
    case Conjunction(cs) => CompileMatchesReference("", cs, MustPassAll, cfg, acc.scan);
    case Disjunction(cs) => CompileMatchesReference("", cs, MustPassOne, cfg, acc.scan);
    case NestedProperty(_, cs) => CompileMatchesReference(PropertyName(prefix, p), cs, MustPassAll, cfg, acc.scan);
    case _ =>
  }

  /* ---------------- the shape of one level ---------------- */

  /** Each predicate parameter contributes exactly one item to its level, and nothing else does. */
  lemma {:induction false} ItemsCount(prefix: string, ps: seq<QueryParameter>, cfg: Configs)
    ensures ItemsOf(prefix, ps, cfg).Ok? ==> |ItemsOf(prefix, ps, cfg).value| == CountPredicates(ps)
  {
    if ps != [] {
      ItemsCount(prefix, ps[1..], cfg);
    }
  }

  /** A list with no predicate parameter never fails and yields no item. */
  lemma {:induction false} NoPredicatesNoItems(prefix: string, ps: seq<QueryParameter>, cfg: Configs)
    requires CountPredicates(ps) == 0
    ensures ItemsOf(prefix, ps, cfg) == Ok([])
  {
    if ps != [] {
      assert ItemOf(prefix, ps[0], cfg) == Ok(None);
      NoPredicatesNoItems(prefix, ps[1..], cfg);
      assert AsSeq<Filter>(None) + [] == [];
    }
  }

  /**
   * A non-empty level yields null exactly when it holds no predicate;
   * otherwise a list under the level's operator holding one item per
   * predicate, a single one included.
   */
  lemma LevelShape(prefix: string, ps: seq<QueryParameter>, op: ListOp, cfg: Configs)
    requires ps != []
    requires FilterOf(prefix, ps, op, cfg).Ok?
    ensures FilterOf(prefix, ps, op, cfg).value == Absent <==> CountPredicates(ps) == 0
    ensures FilterOf(prefix, ps, op, cfg).value != Absent ==>
      && FilterOf(prefix, ps, op, cfg).value.FilterList?
      && FilterOf(prefix, ps, op, cfg).value.listOp == op
      && |FilterOf(prefix, ps, op, cfg).value.items| == CountPredicates(ps)
  {
    ItemsCount(prefix, ps, cfg);
  }

  /** A single predicate is still wrapped in a filter list of its own. */
  lemma SinglePredicateWrapped(prefix: string, ps: seq<QueryParameter>, op: ListOp, cfg: Configs)
    requires CountPredicates(ps) == 1
    requires FilterOf(prefix, ps, op, cfg).Ok?
    ensures exists f :: FilterOf(prefix, ps, op, cfg).value == FilterList(op, [f])
  {
    ItemsCount(prefix, ps, cfg);
    var items := ItemsOf(prefix, ps, cfg).value;
    assert FilterOf(prefix, ps, op, cfg).value == FilterList(op, [items[0]]);
  }

  /**
   * formScan: an empty query scans everything through the match-all row
   * filter; a non-empty query without predicates (only paging or
   * projections) sets no filter at all.
   */
  lemma ScanFilterWithoutPredicates(params: seq<QueryParameter>, cfg: Configs)
    requires CountPredicates(params) == 0
    ensures PlanOf(params, cfg).Ok?
    ensures params == [] ==> PlanOf(params, cfg).value.filter == Some(MatchAll)
    ensures params != [] ==> PlanOf(params, cfg).value.filter == None
  {
    var st := ScanState("", []);
    if params != [] {
      NoPredicatesNoItems("", params, cfg);
      CompileMatchesReference("", params, MustPassAll, cfg, st);
    }
  }

  /** The filter of a query is the reference filter at the top level, under MUST_PASS_ALL. */
  lemma PlanFilterIsReference(params: seq<QueryParameter>, cfg: Configs)
    ensures PlanOf(params, cfg).Ok? <==> FilterOf("", params, MustPassAll, cfg).Ok?
    ensures PlanOf(params, cfg).Err? ==> PlanOf(params, cfg).error == FilterOf("", params, MustPassAll, cfg).error
    ensures PlanOf(params, cfg).Ok? ==>
      var f := FilterOf("", params, MustPassAll, cfg).value;
      PlanOf(params, cfg).value.filter == (if f == Absent then None else Some(f))
  {
    CompileMatchesReference("", params, MustPassAll, cfg, ScanState("", []));
  }

  /* ---------------- compound parameters and names ---------------- */

  /** Conjunction and disjunction recurse with an empty prefix: the enclosing name is dropped. */
  lemma CompoundDropsPrefix(prefix1: string, prefix2: string, cs: seq<QueryParameter>, cfg: Configs)
    ensures ItemOf(prefix1, Conjunction(cs), cfg) == ItemOf(prefix2, Conjunction(cs), cfg)
    ensures ItemOf(prefix1, Disjunction(cs), cfg) == ItemOf(prefix2, Disjunction(cs), cfg)
    ensures ItemOf(prefix1, Conjunction(cs), cfg) == Lift(FilterOf("", cs, MustPassAll, cfg))
    ensures ItemOf(prefix1, Disjunction(cs), cfg) == Lift(FilterOf("", cs, MustPassOne, cfg))
  {
  }

  /**
   * A nested property recurses under MUST_PASS_ALL with its name appended
   * to a non-blank prefix after a dot, and replacing a blank one.
   */
  lemma NestedPropertyPrefix(prefix: string, n: string, cs: seq<QueryParameter>, cfg: Configs)
    ensures !IsBlank(prefix) ==>
      ItemOf(prefix, NestedProperty(n, cs), cfg) == Lift(FilterOf(prefix + "." + n, cs, MustPassAll, cfg))
    ensures IsBlank(prefix) ==>
      ItemOf(prefix, NestedProperty(n, cs), cfg) == Lift(FilterOf(n, cs, MustPassAll, cfg))
  {
  }

  /* ---------------- operators ---------------- */

  /** IS_NOT_IN is the IS_IN list wrapped in a SkipFilter, errors included. */
  lemma NotInIsSkippedIn(prefix: string, name: string, values: seq<Option<string>>, cfg: Configs)
    ensures
      var notIn := PropertyFilter(prefix, Property(name, Some(OpIsNotIn), Multi(values)), cfg);
      var isIn := PropertyFilter(prefix, Property(name, Some(OpIsIn), Multi(values)), cfg);
      (notIn.Ok? <==> isIn.Ok?) &&
      (notIn.Ok? ==> notIn.value == SkipFilter(isIn.value)) &&
      (notIn.Err? ==> notIn.error == isIn.error)
  {
  }

  /**
   * IS_IN over non-null values with a configuration: a MUST_PASS_ONE list
   * of EQUAL binary-comparator cell filters, one per value, in order.
   */
  lemma InListMembers(prefix: string, name: string, values: seq<string>, cfg: Configs)
    requires PropertyName(prefix, Property(name, None, Bare)) in cfg
    ensures
      var c := cfg[PropertyName(prefix, Property(name, None, Bare))];
      var r := PropertyFilter(prefix, Property(name, Some(OpIsIn), Multi(SomeAll(values))), cfg);
      && r.Ok? && r.value.FilterList? && r.value.listOp == MustPassOne
      && |r.value.items| == |values|
      && forall i :: 0 <= i < |values| ==> r.value.items[i] == CellFilter(c, Equal, Binary(values[i]))
  {
    var vs := SomeAll(values);
    assert forall i :: 0 <= i < |vs| ==> vs[i].Some?;
  }

  function SomeAll(values: seq<string>): (r: seq<Option<string>>)
    ensures |r| == |values| && forall i :: 0 <= i < |values| ==> r[i] == Some(values[i])
  {
    if values == [] then [] else [Some(values[0])] + SomeAll(values[1..])
  }

  /** An IS_IN with no values builds an empty list and never consults the configuration. */
  lemma EmptyInNeedsNoConfig(prefix: string, name: string, cfg: Configs)
    ensures PropertyFilter(prefix, Property(name, Some(OpIsIn), Multi([])), cfg) == Ok(FilterList(MustPassOne, []))
    ensures PropertyFilter(prefix, Property(name, Some(OpIsNotIn), Multi([])), cfg) == Ok(SkipFilter(FilterList(MustPassOne, [])))
  {
  }

  /**
   * IS_EMPTY and IS_NULL compare EQUAL to "" and IS_NOT_EMPTY and
   * IS_NOT_NULL compare NOT_EQUAL to "", with filter-if-missing forced to
   * false and true respectively; a row or qualifier filter is left as is.
   */
  lemma EmptinessFilters(prefix: string, name: string, operand: Operand, cfg: Configs)
    requires PropertyName(prefix, Property(name, None, operand)) in cfg
    ensures
      var c := cfg[PropertyName(prefix, Property(name, None, operand))];
      var columnValue := !c.filterOnRowId && !c.qualifierRangePrefix;
      && PropertyFilter(prefix, Property(name, Some(OpIsEmpty), operand), cfg)
         == Ok(if columnValue then ColumnValueFilter(c.family, c.qualifier, Equal, Binary(""), false, c.latestVersionOnly)
               else CellFilter(c, Equal, Binary("")))
      && PropertyFilter(prefix, Property(name, Some(OpIsNull), operand), cfg)
         == PropertyFilter(prefix, Property(name, Some(OpIsEmpty), operand), cfg)
      && PropertyFilter(prefix, Property(name, Some(OpIsNotEmpty), operand), cfg)
         == Ok(if columnValue then ColumnValueFilter(c.family, c.qualifier, NotEqual, Binary(""), true, c.latestVersionOnly)
               else CellFilter(c, NotEqual, Binary("")))
      && PropertyFilter(prefix, Property(name, Some(OpIsNotNull), operand), cfg)
         == PropertyFilter(prefix, Property(name, Some(OpIsNotEmpty), operand), cfg)
  {
  }

  /**
   * STRING_LIKE compares EQUAL through the comparator of its match mode,
   * and a missing match mode behaves as EXACT.
   */
  lemma StringLikeModes(prefix: string, name: string, text: Option<string>, cfg: Configs)
    requires PropertyName(prefix, Property(name, None, Bare)) in cfg
    ensures
      var c := cfg[PropertyName(prefix, Property(name, None, Bare))];
      var t := text.GetOr("");
      && PropertyFilter(prefix, Property(name, Some(OpStringLike), Text(text, None)), cfg)
         == PropertyFilter(prefix, Property(name, Some(OpStringLike), Text(text, Some(Exact))), cfg)
      && PropertyFilter(prefix, Property(name, Some(OpStringLike), Text(text, Some(Exact))), cfg) == Ok(CellFilter(c, Equal, Binary(t)))
      && PropertyFilter(prefix, Property(name, Some(OpStringLike), Text(text, Some(Start))), cfg) == Ok(CellFilter(c, Equal, BinaryPrefix(t)))
      && PropertyFilter(prefix, Property(name, Some(OpStringLike), Text(text, Some(End))), cfg) == Ok(CellFilter(c, Equal, BinarySuffix(t)))
      && PropertyFilter(prefix, Property(name, Some(OpStringLike), Text(text, Some(Anywhere))), cfg) == Ok(CellFilter(c, Equal, Substring(t)))
  {
  }

  /** BETWEEN on a parameter that is not a pair compares against the range from "" to "". */
  lemma BetweenDefaultsToEmpty(prefix: string, name: string, operand: Operand, cfg: Configs)
    requires !operand.Pair?
    requires PropertyName(prefix, Property(name, None, operand)) in cfg
    ensures PropertyFilter(prefix, Property(name, Some(OpBetween), operand), cfg)
      == Ok(CellFilter(cfg[PropertyName(prefix, Property(name, None, operand))], Equal, Range("", "")))
  {
  }

  /**
   * The comparison operators compare the value's text (or "" when it is
   * missing) with a binary comparator under their own compare operation.
   */
  lemma ComparisonOperators(prefix: string, name: string, value: Option<string>, cfg: Configs)
    requires PropertyName(prefix, Property(name, None, Bare)) in cfg
    ensures
      var c := cfg[PropertyName(prefix, Property(name, None, Bare))];
      var b := Binary(value.GetOr(""));
      && PropertyFilter(prefix, Property(name, Some(OpEqual), Single(value)), cfg) == Ok(CellFilter(c, Equal, b))
      && PropertyFilter(prefix, Property(name, Some(OpNotEqual), Single(value)), cfg) == Ok(CellFilter(c, NotEqual, b))
      && PropertyFilter(prefix, Property(name, Some(OpLesser), Single(value)), cfg) == Ok(CellFilter(c, Less, b))
      && PropertyFilter(prefix, Property(name, Some(OpLesserEqual), Single(value)), cfg) == Ok(CellFilter(c, LessOrEqual, b))
      && PropertyFilter(prefix, Property(name, Some(OpGreater), Single(value)), cfg) == Ok(CellFilter(c, Greater, b))
      && PropertyFilter(prefix, Property(name, Some(OpGreaterEqual), Single(value)), cfg) == Ok(CellFilter(c, GreaterOrEqual, b))
  {
  }

  /**
   * A property condition fails when it has no operator, and fails on a
   * missing configuration for every operator that reaches getCellFilter.
   */
  lemma PropertyErrors(prefix: string, name: string, op: OperatorType, value: Option<string>, cfg: Configs)
    requires PropertyName(prefix, Property(name, None, Bare)) !in cfg
    requires op !in {OpIsIn, OpIsNotIn, OpStringLike}
    ensures PropertyFilter(prefix, Property(name, None, Single(value)), cfg)
      == Err(NullOperator(PropertyName(prefix, Property(name, None, Bare))))
    ensures PropertyFilter(prefix, Property(name, Some(op), Single(value)), cfg)
      == Err(MissingFilterConfig(PropertyName(prefix, Property(name, None, Bare))))
  {
  }

  /* ---------------- scan changes ---------------- */

  /** Visiting two lists in a row changes the scan as visiting their concatenation does. */
  lemma {:induction false} ScanAfterAppend(prefix: string, ps1: seq<QueryParameter>, ps2: seq<QueryParameter>, cfg: Configs, st: ScanState)
    ensures ScanAfter(prefix, ps1 + ps2, cfg, st) == ScanAfter(prefix, ps2, cfg, ScanAfter(prefix, ps1, cfg, st))
  {
    if ps1 == [] {
      assert ps1 + ps2 == ps2;
    } else {
      assert (ps1 + ps2)[1..] == ps1[1..] + ps2;
      ScanAfterAppend(prefix, ps1[1..], ps2, cfg, ScanAfterOne(prefix, ps1[0], cfg, st));
    }
  }

  /** No FIRST_RESULT occurs in these parameters, at any depth of nesting. */
  predicate KeepsStartRow(ps: seq<QueryParameter>)
    decreases ps
  {
    ps == [] || (KeepsStartRowOne(ps[0]) && KeepsStartRow(ps[1..]))
  }

  predicate KeepsStartRowOne(p: QueryParameter)
    decreases p
  {
    match p
    case Conjunction(cs) => KeepsStartRow(cs)
    case Disjunction(cs) => KeepsStartRow(cs)
    case NestedProperty(_, cs) => KeepsStartRow(cs)
    case FirstResult(_) => false
    case _ => true
  }

  /** Parameters without a FIRST_RESULT anywhere in them leave the start row as it was. */
  lemma {:induction false} StartRowUntouched(prefix: string, ps: seq<QueryParameter>, cfg: Configs, st: ScanState)
    requires KeepsStartRow(ps)
    decreases ps
    ensures ScanAfter(prefix, ps, cfg, st).startRow == st.startRow
  {
    if ps != [] {
      StartRowUntouchedOne(prefix, ps[0], cfg, st);
      StartRowUntouched(prefix, ps[1..], cfg, ScanAfterOne(prefix, ps[0], cfg, st));
    }
  }

  lemma {:induction false} StartRowUntouchedOne(prefix: string, p: QueryParameter, cfg: Configs, st: ScanState)
    requires KeepsStartRowOne(p)
    decreases p
    ensures ScanAfterOne(prefix, p, cfg, st).startRow == st.startRow
  {
    match p
    case Conjunction(cs) => StartRowUntouched("", cs, cfg, st);
    case Disjunction(cs) => StartRowUntouched("", cs, cfg, st);
    case NestedProperty(_, cs) => StartRowUntouched(PropertyName(prefix, p), cs, cfg, st);
    case _ =>
  }

  /**
   * A FIRST_RESULT decides the start row, whatever came before it, when no
   * FIRST_RESULT follows it at any depth (the same scan is handed to nested
   * lists, so a later nested one would override it).
   */
  lemma LastFirstResultWins(prefix: string, ps: seq<QueryParameter>, v: Option<string>, qs: seq<QueryParameter>, cfg: Configs, st: ScanState)
    requires KeepsStartRow(qs)
    ensures ScanAfter(prefix, ps + [FirstResult(v)] + qs, cfg, st).startRow == v.GetOr("")
  {
    ScanAfterAppend(prefix, ps + [FirstResult(v)], qs, cfg, st);
    ScanAfterAppend(prefix, ps, [FirstResult(v)], cfg, st);
    StartRowUntouched(prefix, qs, cfg, ScanAfter(prefix, ps + [FirstResult(v)], cfg, st));
  }

  /** A FIRST_RESULT nested after a level's own FIRST_RESULT overrides it. */
  lemma NestedFirstResultOverrides(prefix: string, a: Option<string>, b: Option<string>, cfg: Configs, st: ScanState)
    ensures ScanAfter(prefix, [FirstResult(a), Conjunction([FirstResult(b)])], cfg, st).startRow == b.GetOr("")
  {
    var ps := [FirstResult(a), Conjunction([FirstResult(b)])];
    var st1 := ScanAfterOne(prefix, FirstResult(a), cfg, st);
    var st2 := ScanAfterOne(prefix, Conjunction([FirstResult(b)]), cfg, st1);
    assert ps[1..] == [Conjunction([FirstResult(b)])];
    assert ScanAfter(prefix, ps, cfg, st) == ScanAfter(prefix, ps[1..], cfg, st1);
    assert ScanAfter(prefix, ps[1..], cfg, st1) == ScanAfter(prefix, ps[1..][1..], cfg, st2);
    assert ps[1..][1..] == [];
    assert st2 == ScanAfter("", [FirstResult(b)], cfg, st1);
    assert [FirstResult(b)][1..] == [];
    assert ScanAfter("", [FirstResult(b)], cfg, st1) == ScanAfter("", [], cfg, ScanAfterOne("", FirstResult(b), cfg, st1));
  }

  /** The compiler only appends column requests: earlier requests are kept, in order. */
  lemma {:induction false} ColumnsOnlyGrow(prefix: string, ps: seq<QueryParameter>, cfg: Configs, st: ScanState)
    decreases ps
    ensures st.columns <= ScanAfter(prefix, ps, cfg, st).columns
  {
    if ps != [] {
      ColumnsOnlyGrowOne(prefix, ps[0], cfg, st);
      ColumnsOnlyGrow(prefix, ps[1..], cfg, ScanAfterOne(prefix, ps[0], cfg, st));
    }
  }

  lemma {:induction false} ColumnsOnlyGrowOne(prefix: string, p: QueryParameter, cfg: Configs, st: ScanState)
    decreases p
    ensures st.columns <= ScanAfterOne(prefix, p, cfg, st).columns
  {
    match p
    case Conjunction(cs) => ColumnsOnlyGrow("", cs, cfg, st);
    case Disjunction(cs) => ColumnsOnlyGrow("", cs, cfg, st);
    case NestedProperty(_, cs) => ColumnsOnlyGrow(PropertyName(prefix, p), cs, cfg, st);
    case _ =>
  }

  /**
   * A projection named "family:qualifier" whose configured name "family" is
   * configured requests exactly that dynamic column, ahead of the
   * configured qualifier.
   */
  lemma DynamicQualifierWins(configName: string, dynamic: string, cfg: Configs)
    requires ':' !in configName
    requires !IsBlank(dynamic)
    requires configName in cfg
    ensures UnitColumn(configName + ":" + dynamic, cfg) == Some(Column(cfg[configName].family, dynamic))
  {
    var name := configName + ":" + dynamic;
    var (head, tail) := SplitAtColon(name);
    assert ':' in name by { assert name[|configName|] == ':'; }
    ColonSplitUnique(configName, dynamic, head, tail.value);
  }

  /** A name splits at its first colon in one way only. */
  lemma ColonSplitUnique(a: string, b: string, c: string, d: string)
    requires ':' !in a && ':' !in c
    requires a + ":" + b == c + ":" + d
    ensures a == c && b == d
  {
    var s := a + ":" + b;
    assert forall i :: 0 <= i < |a| ==> s[i] == a[i] != ':';
    assert forall i :: 0 <= i < |c| ==> s[i] == c[i] != ':';
    assert s[|a|] == ':' && s[|c|] == ':';
    assert |a| == |c|;
    assert a == s[..|a|] == c;
    assert b == s[|a| + 1..] == d;
  }
}
