/**
 * What CommonDao's query compiler computes, as functions: the filter built
 * for one property condition, the filter and scan changes built for a
 * parameter list, and the scan row limit.
 */
module FilterSpec {
  import opened Wrappers
  import opened Text
  import opened QueryParams
  import opened Filters

  /** The exceptions the compiler can raise (a NullPointerException or a ClassCastException in the source). */
  datatype CompileError =
    | NullOperator(property: string)
    | MissingFilterConfig(property: string)
    | NullOperand(property: string)
    | NotMultiOperand(property: string)
    | NotStringLike(property: string)

  /** The SchemaInfoProvider's filter configurations, by property name. */
  type Configs = map<string, FilterConfig>

  function Lookup(cfg: Configs, name: string): Option<FilterConfig> {
    if name in cfg then Some(cfg[name]) else None
  }

  const DEFAULT_MAX_ROWS: int := 1000

  /* ---------------- names and values ---------------- */

  /** getPropertyName: the parameter's name under the prefix, dot-joined when the prefix is not blank. */
  function PropertyName(prefix: string, p: QueryParameter): (r: string)
    ensures IsBlank(prefix) ==> r == OwnName(p)
    ensures !IsBlank(prefix) ==> r == prefix + "." + OwnName(p)
  {
    (if IsBlank(prefix) then "" else prefix + ".") + OwnName(p)
  }

  /** getValue: the parameter's value as text; a missing or null value is "". */
  function ValueText(p: QueryParameter): (r: string)
    ensures p.Property? && p.operand.Single? && p.operand.value.Some? ==> r == p.operand.value.value
    ensures p.Property? && p.operand.Text? && p.operand.text.Some? ==> r == p.operand.text.value
    ensures p.FirstResult? && p.start.Some? ==> r == p.start.value
    ensures r != "" ==> (p.Property? && (p.operand.Single? || p.operand.Text?)) || p.FirstResult?
  {
    match p
    case Property(_, _, Single(Some(v))) => v
    case Property(_, _, Text(Some(v), _)) => v
    case FirstResult(Some(v)) => v
    case _ => ""
  }

  /** getFirstParameter: the first BETWEEN operand, or "" when the parameter is not a pair. */
  function FirstOperand(p: QueryParameter): (r: Option<string>)
    ensures p.Property? && p.operand.Pair? ==> r == p.operand.first
    ensures !(p.Property? && p.operand.Pair?) ==> r == Some("")
  {
    if p.Property? && p.operand.Pair? then p.operand.first else Some("")
  }

  /** getSecondParameter: the second BETWEEN operand, or "" when the parameter is not a pair. */
  function SecondOperand(p: QueryParameter): (r: Option<string>)
    ensures p.Property? && p.operand.Pair? ==> r == p.operand.second
    ensures !(p.Property? && p.operand.Pair?) ==> r == Some("")
  {
    if p.Property? && p.operand.Pair? then p.operand.second else Some("")
  }

  /* ---------------- cell filters ---------------- */

  /**
   * getCellFilter: a row filter when the property is the row id, else a
   * qualifier filter when the qualifier is a range prefix, else a column
   * value filter carrying the configuration's column and flags.
   */
  function CellFilter(c: FilterConfig, op: CompareOp, cmp: Comparator): (r: Filter)
    ensures r.RowFilter? <==> c.filterOnRowId
    ensures r.QualifierFilter? <==> !c.filterOnRowId && c.qualifierRangePrefix
    ensures r.ColumnValueFilter? <==> !c.filterOnRowId && !c.qualifierRangePrefix
    ensures r.op == op && r.cmp == cmp
    ensures r.ColumnValueFilter? ==>
      r.family == c.family && r.qualifier == c.qualifier &&
      r.filterIfMissing == c.filterIfMissing && r.latestVersionOnly == c.latestVersionOnly
  {
    if c.filterOnRowId then RowFilter(op, cmp)
    else if c.qualifierRangePrefix then QualifierFilter(op, cmp)
    else ColumnValueFilter(c.family, c.qualifier, op, cmp, c.filterIfMissing, c.latestVersionOnly)
  }

  /** getCellFilter on a configuration that may be null: a null one fails. */
  function Cell(config: Option<FilterConfig>, name: string, op: CompareOp, cmp: Comparator): (r: Result<Filter, CompileError>)
    ensures r.Err? <==> config.None?
    ensures r.Err? ==> r.error == MissingFilterConfig(name)
    ensures r.Ok? ==> r.value == CellFilter(config.value, op, cmp)
  {
    if config.None? then Err(MissingFilterConfig(name)) else Ok(CellFilter(config.value, op, cmp))
  }

  /** setFilterIfMissing applied only when the filter is a column value filter. */
  function WithFilterIfMissing(f: Filter, flag: bool): (r: Filter)
    ensures f.ColumnValueFilter? ==> r == f.(filterIfMissing := flag)
    ensures !f.ColumnValueFilter? ==> r == f
  {
    if f.ColumnValueFilter? then f.(filterIfMissing := flag) else f
  }

  /** The comparator STRING_LIKE uses for a match mode. */
  function LikeComparator(mode: MatchMode, text: string): Comparator {
    match mode
    case Exact => Binary(text)
    case Start => BinaryPrefix(text)
    case End => BinarySuffix(text)
    case Anywhere => Substring(text)
  }

  /**
   * The members of getInFilter's list, one EQUAL cell filter per value, in
   * order; it fails at the first value that is null or, when there is a
   * value at all, at a null configuration.
   */
  function InItems(values: seq<Option<string>>, config: Option<FilterConfig>, name: string): (r: Result<seq<Filter>, CompileError>)
    ensures r.Ok? <==> values == [] || (config.Some? && forall i :: 0 <= i < |values| ==> values[i].Some?)
    ensures r.Ok? ==> |r.value| == |values|
    ensures r.Ok? ==> forall i :: 0 <= i < |values| ==> r.value[i] == CellFilter(config.value, Equal, Binary(values[i].value))
  {
    if values == [] then Ok([])
    else if values[0].None? then Err(NullOperand(name))
    else if config.None? then Err(MissingFilterConfig(name))
    else
      var head := CellFilter(config.value, Equal, Binary(values[0].value));
      match InItems(values[1..], config, name)
      case Err(e) => Err(e)
      case Ok(rest) => Ok([head] + rest)
  }

  /** getInFilter: a MUST_PASS_ONE list of the equality filters. */
  function InFilter(values: seq<Option<string>>, config: Option<FilterConfig>, name: string): (r: Result<Filter, CompileError>)
    ensures r.Ok? ==> r.value.FilterList? && r.value.listOp == MustPassOne && |r.value.items| == |values|
  {
    match InItems(values, config, name)
    case Err(e) => Err(e)
    case Ok(items) => Ok(FilterList(MustPassOne, items))
  }

  /** handlePropertyParam: the one filter a property condition adds to its level. */
  function PropertyFilter(prefix: string, p: QueryParameter, cfg: Configs): (r: Result<Filter, CompileError>)
    requires p.Property?
  {
    var name := PropertyName(prefix, p);
    var config := Lookup(cfg, name);
    var text := ValueText(p);
    match p.operator
    case None => Err(NullOperator(name))
    case Some(op) =>
      match op
      case OpEqual => Cell(config, name, Equal, Binary(text))
      case OpLesser => Cell(config, name, Less, Binary(text))
      case OpLesserEqual => Cell(config, name, LessOrEqual, Binary(text))
      case OpGreater => Cell(config, name, Greater, Binary(text))
      case OpGreaterEqual => Cell(config, name, GreaterOrEqual, Binary(text))
      case OpNotEqual => Cell(config, name, NotEqual, Binary(text))
      case OpIsEmpty => MissingFlag(Cell(config, name, Equal, Binary("")), false)
      case OpIsNull => MissingFlag(Cell(config, name, Equal, Binary("")), false)
      case OpIsNotEmpty => MissingFlag(Cell(config, name, NotEqual, Binary("")), true)
      case OpIsNotNull => MissingFlag(Cell(config, name, NotEqual, Binary("")), true)
      case OpStringLike =>
        if !p.operand.Text? then Err(NotStringLike(name))
        else Cell(config, name, Equal, LikeComparator(p.operand.matchMode.GetOr(Exact), text))
      case OpBetween =>
        var first := FirstOperand(p);
        var second := SecondOperand(p);
        if first.None? || second.None? then Err(NullOperand(name))
        else Cell(config, name, Equal, Range(first.value, second.value))
      case OpIsIn =>
        if !p.operand.Multi? then Err(NotMultiOperand(name))
        else InFilter(p.operand.values, config, name)
      case OpIsNotIn =>
        if !p.operand.Multi? then Err(NotMultiOperand(name))
        else match InFilter(p.operand.values, config, name)
          case Err(e) => Err(e)
          case Ok(f) => Ok(SkipFilter(f))
  }

  function MissingFlag(r: Result<Filter, CompileError>, flag: bool): Result<Filter, CompileError> {
    match r
    case Err(e) => Err(e)
    case Ok(f) => Ok(WithFilterIfMissing(f, flag))
  }

  /* ---------------- projections ---------------- */

  /** A projection name split at its first ':' into the configured name and the dynamic qualifier. */
  function SplitAtColon(name: string): (r: (string, Option<string>))
    ensures ':' !in r.0
    ensures r.1.None? <==> ':' !in name
    ensures r.1.None? ==> r.0 == name
    ensures r.1.Some? ==> name == r.0 + ":" + r.1.value
  {
    var i := IndexOf(name, ':');
    if i > -1 then (name[..i], Some(name[i + 1..])) else (name, None)
  }

  /**
   * The column request a UNIT_PROP parameter adds: the dynamic qualifier if
   * it is not blank, else the configured qualifier if it is non-empty, else
   * the whole family; nothing when the configured name has no configuration.
   */
  /** The configured property name of a projection: the part before its first ':'. */
  function ConfigName(name: string): string {
    SplitAtColon(name).0
  }

  /** The dynamic qualifier of a projection: the part after its first ':', if any. */
  function DynamicQualifier(name: string): Option<string> {
    SplitAtColon(name).1
  }

  /**
   * The column request a UNIT_PROP parameter adds: the dynamic qualifier if
   * it is not blank, else the configured qualifier if it is non-empty, else
   * the whole family; nothing when the configured name has no configuration.
   */
  function UnitColumn(name: string, cfg: Configs): (r: Option<ColumnRequest>)
    ensures r.None? <==> ConfigName(name) !in cfg
    ensures r.Some? ==> r.value.family == cfg[ConfigName(name)].family
    ensures r.Some? && DynamicQualifier(name).Some? && !IsBlank(DynamicQualifier(name).value) ==>
      r.value == Column(r.value.family, DynamicQualifier(name).value)
    ensures r.Some? && r.value.Family? ==>
      cfg[ConfigName(name)].qualifier.None? || cfg[ConfigName(name)].qualifier.value == ""
  {
    var dynamic := DynamicQualifier(name);
    match Lookup(cfg, ConfigName(name))
    case None => None
    case Some(c) =>
      if dynamic.Some? && !IsBlank(dynamic.value) then Some(Column(c.family, dynamic.value))
      else if c.qualifier.Some? && |c.qualifier.value| > 0 then Some(Column(c.family, c.qualifier.value))
      else Some(Family(c.family))
  }

  function AsSeq<T>(o: Option<T>): seq<T> {
    if o.Some? then [o.value] else []
  }

  /* ---------------- one level of getFilter, as the loop runs it ---------------- */

  /** The part of a Scan the compiler writes: its start row and the requested columns. */
  datatype ScanState = ScanState(startRow: string, columns: seq<ColumnRequest>)

  /** The filters collected so far at one level, and the scan as it stands. */
  datatype Level = Level(filters: seq<Filter>, scan: ScanState)

  datatype Compiled = Compiled(filter: Filter, scan: ScanState)

  /**
   * getFilter(prefix, params, scan, operator): match-all for an empty list;
   * otherwise the level's filters under `op` (even a single one), or Absent
   * (null) when the level yields none.
   */
  function Compile(prefix: string, ps: seq<QueryParameter>, op: ListOp, cfg: Configs, st: ScanState): (r: Result<Compiled, CompileError>)
    decreases ps, 1
    ensures ps == [] ==> r == Ok(Compiled(MatchAll, st))
  {
    if ps == [] then Ok(Compiled(MatchAll, st))
    else
      match Walk(prefix, ps, cfg, Level([], st))
      case Err(e) => Err(e)
      case Ok(l) => Ok(Compiled(if l.filters == [] then Absent else FilterList(op, l.filters), l.scan))
  }

  /** The loop of getFilter over the parameters still to visit. */
  function Walk(prefix: string, ps: seq<QueryParameter>, cfg: Configs, acc: Level): Result<Level, CompileError>
    decreases ps, 0
  {
    if ps == [] then Ok(acc)
    else
      match Step(prefix, ps[0], cfg, acc)
      case Err(e) => Err(e)
      case Ok(next) => Walk(prefix, ps[1..], cfg, next)
  }

  /** One iteration of getFilter's loop: the switch on the parameter type. */
  function Step(prefix: string, p: QueryParameter, cfg: Configs, acc: Level): Result<Level, CompileError>
    decreases p
  {
    match p
    case Conjunction(cs) => Nest(Compile("", cs, MustPassAll, cfg, acc.scan), acc)
    case Disjunction(cs) => Nest(Compile("", cs, MustPassOne, cfg, acc.scan), acc)
    case NestedProperty(_, cs) => Nest(Compile(PropertyName(prefix, p), cs, MustPassAll, cfg, acc.scan), acc)
    case Property(_, _, _) =>
      (match PropertyFilter(prefix, p, cfg)
       case Err(e) => Err(e)
       case Ok(f) => Ok(Level(acc.filters + [f], acc.scan)))
    case FirstResult(_) => Ok(Level(acc.filters, acc.scan.(startRow := ValueText(p))))
    case UnitProp(_) =>
      Ok(Level(acc.filters, acc.scan.(columns := acc.scan.columns + AsSeq(UnitColumn(PropertyName(prefix, p), cfg)))))
    case MaxResult(_) => Ok(acc)
    case Other => Ok(acc)
  }

  /** A nested getFilter call's result appended to the level, with the scan it left behind. */
  function Nest(inner: Result<Compiled, CompileError>, acc: Level): Result<Level, CompileError> {
    match inner
    case Err(e) => Err(e)
    case Ok(c) => Ok(Level(acc.filters + [c.filter], c.scan))
  }

  /* ---------------- the filter alone, as a reference definition ---------------- */

  /**
   * The filter getFilter returns, defined without the scan: the level's
   * items are the items of its predicate parameters, in order.
   */
  function FilterOf(prefix: string, ps: seq<QueryParameter>, op: ListOp, cfg: Configs): Result<Filter, CompileError>
    decreases ps, 1
  {
    if ps == [] then Ok(MatchAll)
    else
      match ItemsOf(prefix, ps, cfg)
      case Err(e) => Err(e)
      case Ok(items) => Ok(if items == [] then Absent else FilterList(op, items))
  }

  function ItemsOf(prefix: string, ps: seq<QueryParameter>, cfg: Configs): Result<seq<Filter>, CompileError>
    decreases ps, 0
  {
    if ps == [] then Ok([])
    else
      match ItemOf(prefix, ps[0], cfg)
      case Err(e) => Err(e)
      case Ok(head) =>
        match ItemsOf(prefix, ps[1..], cfg)
        case Err(e) => Err(e)
        case Ok(rest) => Ok(AsSeq(head) + rest)
  }

  /** The item a parameter contributes to its level: one filter for a predicate, none otherwise. */
  function ItemOf(prefix: string, p: QueryParameter, cfg: Configs): Result<Option<Filter>, CompileError>
    decreases p
  {
    match p
    case Conjunction(cs) => Lift(FilterOf("", cs, MustPassAll, cfg))
    case Disjunction(cs) => Lift(FilterOf("", cs, MustPassOne, cfg))
    case NestedProperty(_, cs) => Lift(FilterOf(PropertyName(prefix, p), cs, MustPassAll, cfg))
    case Property(_, _, _) => Lift(PropertyFilter(prefix, p, cfg))
    case _ => Ok(None)
  }

  function Lift(r: Result<Filter, CompileError>): Result<Option<Filter>, CompileError> {
    match r
    case Err(e) => Err(e)
    case Ok(f) => Ok(Some(f))
  }

  /* ---------------- the scan changes alone, as a reference definition ---------------- */

  /**
   * The scan after visiting a parameter tree in order when nothing fails:
   * FIRST_RESULT sets the start row, UNIT_PROP appends its column request,
   * compound parameters visit their children.
   */
  function ScanAfter(prefix: string, ps: seq<QueryParameter>, cfg: Configs, st: ScanState): ScanState
    decreases ps
  {
    if ps == [] then st
    else ScanAfter(prefix, ps[1..], cfg, ScanAfterOne(prefix, ps[0], cfg, st))
  }

  function ScanAfterOne(prefix: string, p: QueryParameter, cfg: Configs, st: ScanState): ScanState
    decreases p
  {
    match p
    case Conjunction(cs) => ScanAfter("", cs, cfg, st)
    case Disjunction(cs) => ScanAfter("", cs, cfg, st)
    case NestedProperty(_, cs) => ScanAfter(PropertyName(prefix, p), cs, cfg, st)
    case FirstResult(_) => st.(startRow := ValueText(p))
    case UnitProp(_) => st.(columns := st.columns + AsSeq(UnitColumn(PropertyName(prefix, p), cfg)))
    case _ => st
  }

  /* ---------------- formScan and the row limit ---------------- */

  /** The scan formScan builds: start row, column requests and the filter (None when getFilter gave null). */
  datatype ScanPlan = ScanPlan(startRow: string, columns: seq<ColumnRequest>, filter: Option<Filter>)

  function PlanOf(params: seq<QueryParameter>, cfg: Configs): Result<ScanPlan, CompileError> {
    match Compile("", params, MustPassAll, cfg, ScanState("", []))
    case Err(e) => Err(e)
    case Ok(c) => Ok(ScanPlan(c.scan.startRow, c.scan.columns, if c.filter == Absent then None else Some(c.filter)))
  }

  /** getMaxScanRows(): the configured maximum when it is positive, else DEFAULT_MAX_ROWS. */
  function DefaultScanRows(maxRows: int): (r: int)
    ensures r > 0
    ensures maxRows > 0 ==> r == maxRows
    ensures maxRows <= 0 ==> r == DEFAULT_MAX_ROWS
  {
    if maxRows > 0 then maxRows else DEFAULT_MAX_ROWS
  }

  /** getMaxScanRows(params): the count of the first MAX_RESULT parameter, else the default. */
  function MaxScanRows(params: seq<QueryParameter>, maxRows: int): int {
    if params == [] then DefaultScanRows(maxRows)
    else if params[0].MaxResult? then params[0].count
    else MaxScanRows(params[1..], maxRows)
  }
}
