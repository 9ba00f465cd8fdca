/**
 * CommonDao's query compiler as the source runs it: getFilter walks the
 * parameters in a loop, appends to a filter list and writes to a shared
 * Scan; each method is proved against its function in FilterSpec.
 */
module FilterCompiler {
  import opened Wrappers
  import opened QueryParams
  import opened Filters
  import opened FilterSpec

  /** The parts of an HBase Scan that the compiler sets. */
  class Scan {
    var startRow: string
    /** addColumn / addFamily calls, in the order they were made */
    var columns: seq<ColumnRequest>
    var filter: Option<Filter>

    constructor ()
      ensures startRow == "" && columns == [] && filter == None
    {
      startRow := "";
      columns := [];
      filter := None;
    }

    function State(): ScanState
      reads this
    {
      ScanState(startRow, columns)
    }

    method SetStartRow(row: string)
      modifies this
      ensures startRow == row && columns == old(columns) && filter == old(filter)
    {
      startRow := row;
    }

    method AddColumn(request: ColumnRequest)
      modifies this
      ensures columns == old(columns) + [request] && startRow == old(startRow) && filter == old(filter)
    {
      columns := columns + [request];
    }

    method SetFilter(f: Filter)
      modifies this
      ensures filter == Some(f) && startRow == old(startRow) && columns == old(columns)
    {
      filter := Some(f);
    }
  }

  /** getInFilter: adds one EQUAL cell filter per value to a MUST_PASS_ONE list. */
  method GetInFilter(values: seq<Option<string>>, config: Option<FilterConfig>, name: string)
    returns (r: Result<Filter, CompileError>)
    ensures r == InFilter(values, config, name)
  {
    var items: seq<Filter> := [];
    var i := 0;
    assert values[0..] == values;
    PrependNothing(InItems(values, config, name));
    while i < |values|
      invariant 0 <= i <= |values|
      invariant InItems(values, config, name) == Prepend(items, InItems(values[i..], config, name))
    {
      assert values[i..][1..] == values[i + 1..];
      var v := values[i];
      if v.None? {
        return Err(NullOperand(name));
      }
      if config.None? {
        return Err(MissingFilterConfig(name));
      }
      var cell := CellFilter(config.value, Equal, Binary(v.value));
      assert InItems(values[i..], config, name) == Prepend([cell], InItems(values[i + 1..], config, name));
      PrependTwice(items, [cell], InItems(values[i + 1..], config, name));
      items := items + [cell];
      i := i + 1;
    }
    assert values[i..] == [];
    assert items + [] == items;
    r := Ok(FilterList(MustPassOne, items));
  }

  function Prepend(items: seq<Filter>, r: Result<seq<Filter>, CompileError>): Result<seq<Filter>, CompileError> {
    match r
    case Err(e) => Err(e)
    case Ok(rest) => Ok(items + rest)
  }

  lemma PrependNothing(r: Result<seq<Filter>, CompileError>)
    ensures Prepend([], r) == r
  {
    match r
    case Err(_) =>
    case Ok(rest) => assert [] + rest == rest;
  }

  lemma PrependTwice(a: seq<Filter>, b: seq<Filter>, r: Result<seq<Filter>, CompileError>)
    ensures Prepend(a, Prepend(b, r)) == Prepend(a + b, r)
  {
    match r
    case Err(_) =>
    case Ok(rest) => assert a + (b + rest) == (a + b) + rest;
  }

  /** handlePropertyParam: appends the property condition's filter to the level's list. */
  method HandlePropertyParam(prefix: string, p: QueryParameter, cfg: Configs, filters: seq<Filter>)
    returns (r: Result<seq<Filter>, CompileError>)
    requires p.Property?
    ensures PropertyFilter(prefix, p, cfg).Err? ==> r == Err(PropertyFilter(prefix, p, cfg).error)
    ensures PropertyFilter(prefix, p, cfg).Ok? ==> r == Ok(filters + [PropertyFilter(prefix, p, cfg).value])
  {
    var name := PropertyName(prefix, p);
    var config := Lookup(cfg, name);
    var text := ValueText(p);
    if p.operator.None? {
      return Err(NullOperator(name));
    }
    var f: Result<Filter, CompileError>;
    match p.operator.value {
      case OpEqual => f := Cell(config, name, Equal, Binary(text));
      case OpLesser => f := Cell(config, name, Less, Binary(text));
      case OpLesserEqual => f := Cell(config, name, LessOrEqual, Binary(text));
      case OpGreater => f := Cell(config, name, Greater, Binary(text));
      case OpGreaterEqual => f := Cell(config, name, GreaterOrEqual, Binary(text));
      case OpNotEqual => f := Cell(config, name, NotEqual, Binary(text));
      case OpIsEmpty => f := MissingFlag(Cell(config, name, Equal, Binary("")), false);
      case OpIsNull => f := MissingFlag(Cell(config, name, Equal, Binary("")), false);
      case OpIsNotEmpty => f := MissingFlag(Cell(config, name, NotEqual, Binary("")), true);
      case OpIsNotNull => f := MissingFlag(Cell(config, name, NotEqual, Binary("")), true);
      case OpStringLike =>
        if !p.operand.Text? {
          return Err(NotStringLike(name));
        }
        var mode := p.operand.matchMode.GetOr(Exact);
        f := Cell(config, name, Equal, LikeComparator(mode, text));
      case OpBetween =>
        var first := FirstOperand(p);
        var second := SecondOperand(p);
        if first.None? || second.None? {
          return Err(NullOperand(name));
        }
        f := Cell(config, name, Equal, Range(first.value, second.value));
      case OpIsIn =>
        if !p.operand.Multi? {
          return Err(NotMultiOperand(name));
        }
        f := GetInFilter(p.operand.values, config, name);
      case OpIsNotIn =>
        if !p.operand.Multi? {
          return Err(NotMultiOperand(name));
        }
        var inList := GetInFilter(p.operand.values, config, name);
        if inList.Err? {
          return Err(inList.error);
        }
        f := Ok(SkipFilter(inList.value));
    }
    if f.Err? {
      return Err(f.error);
    }
    r := Ok(filters + [f.value]);
  }

  /**
   * getFilter(namePrefix, queryParams, scan, operator): the level's filter,
   * with the scan's start row and column requests updated as the
   * parameters are visited.
   */
  method GetFilter(prefix: string, params: seq<QueryParameter>, scan: Scan, op: ListOp, cfg: Configs)
    returns (r: Result<Filter, CompileError>)
    modifies scan
    decreases params, 1
    ensures scan.filter == old(scan.filter)
    ensures Compile(prefix, params, op, cfg, old(scan.State())).Err? ==>
      r == Err(Compile(prefix, params, op, cfg, old(scan.State())).error)
    ensures Compile(prefix, params, op, cfg, old(scan.State())).Ok? ==>
      && r == Ok(Compile(prefix, params, op, cfg, old(scan.State())).value.filter)
      && scan.State() == Compile(prefix, params, op, cfg, old(scan.State())).value.scan
  {
    if params == [] {
      return Ok(MatchAll);
    }
    var filters: seq<Filter> := [];
    var i := 0;
    while i < |params|
      invariant 0 <= i <= |params|
      invariant scan.filter == old(scan.filter)
      invariant Walk(prefix, params, cfg, Level([], old(scan.State()))) == Walk(prefix, params[i..], cfg, Level(filters, scan.State()))
    {
      assert params[i..][1..] == params[i + 1..];
      var next := VisitParam(prefix, params[i], scan, cfg, filters);
      if next.Err? {
        return Err(next.error);
      }
      filters := next.value;
      i := i + 1;
    }
    r := if filters == [] then Ok(Absent) else Ok(FilterList(op, filters));
  }

  /** One pass of getFilter's loop: the switch on the parameter's type. */
  method VisitParam(prefix: string, p: QueryParameter, scan: Scan, cfg: Configs, filters: seq<Filter>)
    returns (r: Result<seq<Filter>, CompileError>)
    modifies scan
    decreases p
    ensures scan.filter == old(scan.filter)
    ensures Step(prefix, p, cfg, Level(filters, old(scan.State()))).Err? ==>
      r == Err(Step(prefix, p, cfg, Level(filters, old(scan.State()))).error)
    ensures Step(prefix, p, cfg, Level(filters, old(scan.State()))).Ok? ==>
      && r == Ok(Step(prefix, p, cfg, Level(filters, old(scan.State()))).value.filters)
      && scan.State() == Step(prefix, p, cfg, Level(filters, old(scan.State()))).value.scan
  {
    match p {
      case Conjunction(cs) =>
        var f := GetFilter("", cs, scan, MustPassAll, cfg);
        r := if f.Err? then Err(f.error) else Ok(filters + [f.value]);
      case Disjunction(cs) =>
        var f := GetFilter("", cs, scan, MustPassOne, cfg);
        r := if f.Err? then Err(f.error) else Ok(filters + [f.value]);
      case NestedProperty(_, cs) =>
        var f := GetFilter(PropertyName(prefix, p), cs, scan, MustPassAll, cfg);
        r := if f.Err? then Err(f.error) else Ok(filters + [f.value]);
      case Property(_, _, _) =>
        r := HandlePropertyParam(prefix, p, cfg, filters);
      case FirstResult(_) =>
        scan.SetStartRow(ValueText(p));
        r := Ok(filters);
      case UnitProp(_) =>
        var request := UnitColumn(PropertyName(prefix, p), cfg);
        if request.Some? {
          scan.AddColumn(request.value);
        } else {
          assert old(scan.State()).columns + AsSeq(request) == old(scan.State()).columns;
        }
        r := Ok(filters);
      case MaxResult(_) =>
        r := Ok(filters);
      case Other =>
        r := Ok(filters);
    }
  }

  /** formScan: a fresh scan carrying the compiled filter unless getFilter gave null. */
  method FormScan(params: seq<QueryParameter>, cfg: Configs) returns (r: Result<Scan, CompileError>)
    ensures PlanOf(params, cfg).Err? ==> r.Err? && r.error == PlanOf(params, cfg).error
    ensures PlanOf(params, cfg).Ok? ==>
      && r.Ok? && fresh(r.value)
      && PlanOf(params, cfg).value == ScanPlan(r.value.startRow, r.value.columns, r.value.filter)
  {
    var scan := new Scan();
    var f := GetFilter("", params, scan, MustPassAll, cfg);
    if f.Err? {
      return Err(f.error);
    }
    if f.value != Absent {
      scan.SetFilter(f.value);
    }
    r := Ok(scan);
  }

  /**
   * getMaxScanRows(params): the value of the first MAX_RESULT parameter of
   * the top level if there is one, whatever its size; otherwise the
   * configured maximum, or DEFAULT_MAX_ROWS when that is not positive.
   */
  method GetMaxScanRows(params: seq<QueryParameter>, maxRows: int) returns (r: int)
    ensures (forall i :: 0 <= i < |params| ==> !params[i].MaxResult?) ==> r == DefaultScanRows(maxRows)
    ensures (exists i :: 0 <= i < |params| && params[i].MaxResult?) ==>
      exists k :: 0 <= k < |params| && params[k].MaxResult? && r == params[k].count &&
        forall j :: 0 <= j < k ==> !params[j].MaxResult?
    ensures r == MaxScanRows(params, maxRows)
  {
    var i := 0;
    assert params[0..] == params;
    while i < |params|
      invariant 0 <= i <= |params|
      invariant forall j :: 0 <= j < i ==> !params[j].MaxResult?
      invariant MaxScanRows(params, maxRows) == MaxScanRows(params[i..], maxRows)
    {
      assert params[i..][1..] == params[i + 1..];
      if params[i].MaxResult? {
        return params[i].count;
      }
      i := i + 1;
    }
    r := DefaultScanRows(maxRows);
  }
}
