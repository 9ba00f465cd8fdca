/**
 * HBase scan filters and comparators, as a tree of values.  Only the shape
 * of the tree is modelled; how HBase evaluates a filter against a row is not.
 */
module Filters {
  import opened Wrappers

  datatype CompareOp = Less | LessOrEqual | Equal | NotEqual | GreaterOrEqual | Greater

  datatype Comparator =
    | Binary(value: string)
    | BinaryPrefix(prefix: string)
    | BinarySuffix(suffix: string)
    | Substring(part: string)
    | Range(low: string, high: string)

  /** FilterList.Operator */
  datatype ListOp = MustPassAll | MustPassOne

  datatype Filter =
    | RowFilter(op: CompareOp, cmp: Comparator)
    | QualifierFilter(op: CompareOp, cmp: Comparator)
    /** SingleColumnValueExcludeFilter with its two flags */
    | ColumnValueFilter(family: string, qualifier: Option<string>, op: CompareOp, cmp: Comparator,
                        filterIfMissing: bool, latestVersionOnly: bool)
    | FilterList(listOp: ListOp, items: seq<Filter>)
    | SkipFilter(inner: Filter)
    /** the null reference getFilter yields for a level that produced no predicate */
    | Absent

  /** The filter that accepts every row: RowFilter(EQUAL, BinaryPrefixComparator(empty)). */
  const MatchAll: Filter := RowFilter(Equal, BinaryPrefix(""))

  /**
   * The metadata a SchemaInfoProvider gives for one property.  The
   * qualifier is None for a null byte array.
   */
  datatype FilterConfig = FilterConfig(
    family: string,
    qualifier: Option<string>,
    filterOnRowId: bool,
    qualifierRangePrefix: bool,
    filterIfMissing: bool,
    latestVersionOnly: bool)

  /** A column request the compiler makes on the scan: addColumn or addFamily. */
  datatype ColumnRequest = Column(family: string, qualifier: string) | Family(family: string)
}
