/**
 * The vocabulary of the data grid (lib/types/data-grid.types.ts): column
 * types, the three operator families, filter entries, the single-column
 * sort descriptor, column configuration and the query handed to the host.
 */
module GridTypes {
  import opened Options
  import opened JsValues

  datatype ColumnType = StringCol | NumberCol | BooleanCol | DateCol | CurrencyCol

  /** Columns whose filter and edit values are parsed as numbers. */
  predicate IsNumeric(t: ColumnType)
  {
    t == NumberCol || t == CurrencyCol
  }

  /** `FilterOperator`: every operator token of the three families. */
  datatype FilterOperator =
    | Equals | NotEquals | Contains | StartsWith | EndsWith
    | GreaterThan | LessThan | GreaterOrEqual | LessOrEqual
    | All | True | False

  /** The token the operator travels as, on the wire and in the UI's select. */
  function Token(op: FilterOperator): string
  {
    match op
    case Equals => "equals"
    case NotEquals => "notEquals"
    case Contains => "contains"
    case StartsWith => "startsWith"
    case EndsWith => "endsWith"
    case GreaterThan => "greaterThan"
    case LessThan => "lessThan"
    case GreaterOrEqual => "greaterOrEqual"
    case LessOrEqual => "lessOrEqual"
    case All => "all"
    case True => "true"
    case False => "false"
  }

  /** Distinct operators travel as distinct, non-empty tokens. */
  lemma TokenInjective(a: FilterOperator, b: FilterOperator)
    ensures Token(a) != ""
    ensures Token(a) == Token(b) <==> a == b
  {
  }

  /** `StringFilterOperator` */
  predicate IsStringOperator(op: FilterOperator)
  {
    op == Equals || op == NotEquals || op == Contains || op == StartsWith || op == EndsWith
  }

  /** `NumberFilterOperator` */
  predicate IsNumberOperator(op: FilterOperator)
  {
    op == Equals || op == NotEquals || op == GreaterThan || op == LessThan ||
    op == GreaterOrEqual || op == LessOrEqual
  }

  /** `BooleanFilterOperator` */
  predicate IsBooleanOperator(op: FilterOperator)
  {
    op == All || op == True || op == False
  }

  /**
   * `FilterOperator` is the union of the three families; the string and
   * number families share exactly `equals` and `notEquals`, and the boolean
   * family shares nothing with either.
   */
  lemma OperatorFamilies(op: FilterOperator)
    ensures IsStringOperator(op) || IsNumberOperator(op) || IsBooleanOperator(op)
    ensures IsStringOperator(op) && IsNumberOperator(op) <==> op == Equals || op == NotEquals
    ensures IsBooleanOperator(op) ==> !IsStringOperator(op) && !IsNumberOperator(op)
  {
  }

  /** The value of a filter entry: a string, a number or a boolean. */
  type FilterValue = v: Value | v.Str? || v.Num? || v.Bool? witness Str("")

  /** `ColumnFilter` */
  datatype ColumnFilter = ColumnFilter(operator: FilterOperator, value: FilterValue)

  /** A stored sort direction is never null: "unsorted" is the absence of a `Sort`. */
  datatype Direction = Asc | Desc

  /** `DataGridSort` */
  datatype Sort = Sort(field: string, direction: Direction)

  /** One element of `DataGridQuery.filters`. */
  datatype QueryFilter = QueryFilter(field: string, operator: FilterOperator, value: FilterValue)

  /** `DataGridQuery`: `sort` is optional, the other three are always present. */
  datatype Query = Query(filters: seq<QueryFilter>, sort: Option<Sort>, page: int, pageSize: int)

  /**
   * `ColumnConfig`: the optional flags are `Option<bool>` (None is
   * `undefined`); `hasRender` says whether a custom `render` is supplied.
   */
  datatype ColumnConfig = ColumnConfig(
    field: string,
    header: string,
    colType: ColumnType,
    width: Option<string>,
    editable: Option<bool>,
    filterable: Option<bool>,
    sortable: Option<bool>,
    hasRender: bool)
}
