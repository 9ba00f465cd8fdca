/**
 * The query-parameter tree that the DAO compiles into an HBase scan.
 *
 * Java dispatches on `getParameterType()` and casts to the parameter's
 * interface; here each parameter type is one constructor.  Values are held
 * as their `toString()` text, and a Java `null` value is `None`.
 */
module QueryParams {
  import opened Wrappers

  datatype MatchMode = Exact | Start | End | Anywhere

  datatype OperatorType =
    | OpEqual | OpLesser | OpLesserEqual | OpGreater | OpGreaterEqual | OpNotEqual
    | OpIsEmpty | OpIsNull | OpIsNotEmpty | OpIsNotNull
    | OpStringLike | OpBetween | OpIsIn | OpIsNotIn

  /** The operand shape a property parameter carries (its Java interface). */
  datatype Operand =
    /** a QueryParameterWithValue */
    | Single(value: Option<string>)
    /** a string-like parameter: a value and an optional match mode */
    | Text(text: Option<string>, matchMode: Option<MatchMode>)
    /** a BiOperandQueryParameter */
    | Pair(first: Option<string>, second: Option<string>)
    /** a multi-operand parameter (IS_IN / IS_NOT_IN) */
    | Multi(values: seq<Option<string>>)
    /** a parameter with no value at all */
    | Bare

  datatype QueryParameter =
    | Conjunction(children: seq<QueryParameter>)
    | Disjunction(children: seq<QueryParameter>)
    | NestedProperty(name: string, children: seq<QueryParameter>)
    /** PARAMETER_TYPE_PROPERTY; `operator` is None when the parameter carries no operator */
    | Property(name: string, operator: Option<OperatorType>, operand: Operand)
    /** PARAMETER_TYPE_FIRST_RESULT: the scan's start row */
    | FirstResult(start: Option<string>)
    /** PARAMETER_TYPE_MAX_RESULT: a Java Integer */
    | MaxResult(count: int)
    /** PARAMETER_TYPE_UNIT_PROP: a projection of a column or family */
    | UnitProp(name: string)
    /** every other parameter type (ordering, grouping, ...), which the compiler ignores */
    | Other

  /** The parameters that add one entry to the filter list of their level. */
  predicate IsPredicate(p: QueryParameter) {
    p.Conjunction? || p.Disjunction? || p.NestedProperty? || p.Property?
  }

  /** The number of predicate parameters at the top level of `ps`. */
  function CountPredicates(ps: seq<QueryParameter>): (n: nat)
    ensures n <= |ps|
  {
    if ps == [] then 0
    else (if IsPredicate(ps[0]) then 1 else 0) + CountPredicates(ps[1..])
  }

  /** The property name a parameter carries, or "" when it has none. */
  function OwnName(p: QueryParameter): string {
    match p
    case NestedProperty(n, _) => n
    case Property(n, _, _) => n
    case UnitProp(n) => n
    case _ => ""
  }
}
