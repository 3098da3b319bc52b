/**
 * The per-column filter popover (`ColumnFilterPopup`): the operator tables,
 * the draft operator and value with the open flag, and the rules that turn
 * Apply, Clear and the sort buttons into one filter change or one sort
 * change for the grid.
 */
module FilterPopup {
  import opened Options
  import opened JsValues
  import opened GridTypes

  const StringOperators: seq<FilterOperator> := [Equals, NotEquals, Contains, StartsWith, EndsWith]
  const NumberOperators: seq<FilterOperator> :=
    [Equals, NotEquals, GreaterThan, LessThan, GreaterOrEqual, LessOrEqual]
  const BooleanOperators: seq<FilterOperator> := [All, True, False]

  /** The operators the select offers for a column type (`getOperators`). */
  function Operators(t: ColumnType): seq<FilterOperator>
  {
    match t
    case StringCol => StringOperators
    case NumberCol => NumberOperators
    case CurrencyCol => NumberOperators
    case BooleanCol => BooleanOperators
    case DateCol => StringOperators
  }

  /**
   * The list for a column type holds each operator of its family once:
   * 3 boolean operators, 6 numeric ones for number and currency columns,
   * and the 5 string operators for string and date columns.
   */
  lemma OperatorTables(t: ColumnType)
    ensures forall i, j :: 0 <= i < j < |Operators(t)| ==> Operators(t)[i] != Operators(t)[j]
    ensures t == BooleanCol ==>
      |Operators(t)| == 3 && forall op :: op in Operators(t) <==> IsBooleanOperator(op)
    ensures IsNumeric(t) ==>
      |Operators(t)| == 6 && forall op :: op in Operators(t) <==> IsNumberOperator(op)
    ensures t == StringCol || t == DateCol ==>
      |Operators(t)| == 5 && forall op :: op in Operators(t) <==> IsStringOperator(op)
  {
  }

  /**
   * The operator a column starts from and returns to on Clear
   * (`getDefaultOperator`): `contains` for strings, `all` for booleans and
   * `equals` for the others. It is always one the select offers.
   */
  function DefaultOperator(t: ColumnType): (op: FilterOperator)
    ensures op in Operators(t)
    ensures op == All <==> t == BooleanCol
    ensures op == Contains <==> t == StringCol
    ensures op == Equals <==> IsNumeric(t) || t == DateCol
  {
    match t
    case StringCol => Contains
    case NumberCol => Equals
    case CurrencyCol => Equals
    case BooleanCol => All
    case DateCol => Equals
  }

  /**
   * The draft operator of a freshly mounted popover:
   * `filter?.operator || getDefaultOperator(type)`. Every operator's token is
   * a non-empty string (`GridTypes.TokenInjective`), so with a filter present
   * the `||` never falls through to the default.
   */
  function InitialOperator(t: ColumnType, filter: Option<ColumnFilter>): (op: FilterOperator)
    ensures filter.Some? ==> op == filter.value.operator
    ensures filter.None? ==> op == DefaultOperator(t)
  {
    match filter
    case None => DefaultOperator(t)
    case Some(f) => f.operator
  }

  /** The draft value of a freshly mounted popover: `filter?.value?.toString() || ""`. */
  function InitialDraft(rt: Runtime, filter: Option<ColumnFilter>): string
  {
    match filter
    case None => ""
    case Some(f) => ToJsString(rt, f.value)
  }

  /**
   * What Apply hands to `onFilterChange` (`handleApplyFilter`): None is
   * `undefined`, which clears the column's filter.
   */
  function ApplyDecision(rt: Runtime, t: ColumnType, op: FilterOperator, draft: string): Option<ColumnFilter>
  {
    if t == BooleanCol then
      if op == All then None else Some(ColumnFilter(op, Bool(op == True)))
    else if Trim(draft) == "" then None
    else
      var v: FilterValue := if IsNumeric(t) then Num(rt.parseFloat(draft)) else Str(draft);
      Some(ColumnFilter(op, v))
  }

  /**
   * On a boolean column Apply clears the filter exactly when the operator is
   * `all`, and otherwise filters on whether the operator is `true`. On any
   * other column it clears the filter exactly when the draft is blank, and
   * otherwise filters on the untrimmed draft, parsed for numeric columns.
   */
  lemma ApplyDecisionSpec(rt: Runtime, t: ColumnType, op: FilterOperator, draft: string)
    ensures t == BooleanCol ==> (ApplyDecision(rt, t, op, draft) == None <==> op == All)
    ensures t == BooleanCol && op != All ==>
      ApplyDecision(rt, t, op, draft) == Some(ColumnFilter(op, Bool(op == True)))
    ensures t != BooleanCol ==> (ApplyDecision(rt, t, op, draft) == None <==> AllWhitespace(draft))
    ensures t != BooleanCol && !AllWhitespace(draft) && IsNumeric(t) ==>
      ApplyDecision(rt, t, op, draft) == Some(ColumnFilter(op, Num(rt.parseFloat(draft))))
    ensures t != BooleanCol && !AllWhitespace(draft) && !IsNumeric(t) ==>
      ApplyDecision(rt, t, op, draft) == Some(ColumnFilter(op, Str(draft)))
  {
  }

  /**
   * A popover mounted with what Apply produced, a filter or `undefined`,
   * re-emits exactly that when applied unchanged. For a numeric filter this
   * needs the host's number printing to read back through `parseFloat`.
   */
  lemma ApplyAfterRemount(rt: Runtime, t: ColumnType, op: FilterOperator, draft: string)
    requires IsNumeric(t) && !AllWhitespace(draft) ==>
      var n := rt.parseFloat(draft);
      !AllWhitespace(rt.numberToString(n)) && rt.parseFloat(rt.numberToString(n)) == n
    ensures var f := ApplyDecision(rt, t, op, draft);
      ApplyDecision(rt, t, InitialOperator(t, f), InitialDraft(rt, f)) == f
  {
    var f := ApplyDecision(rt, t, op, draft);
    ApplyDecisionSpec(rt, t, op, draft);
    if t == BooleanCol {
      if op != All {
        assert f == Some(ColumnFilter(op, Bool(op == True)));
        assert InitialOperator(t, f) == op;
      }
    } else if AllWhitespace(draft) {
      assert f == None;
      assert InitialDraft(rt, f) == "";
      ApplyDecisionSpec(rt, t, DefaultOperator(t), "");
    } else if IsNumeric(t) {
      var n := rt.parseFloat(draft);
      assert f == Some(ColumnFilter(op, Num(n)));
      assert InitialDraft(rt, f) == rt.numberToString(n);
      ApplyDecisionSpec(rt, t, op, rt.numberToString(n));
    } else {
      assert f == Some(ColumnFilter(op, Str(draft)));
      assert InitialDraft(rt, f) == draft;
      ApplyDecisionSpec(rt, t, op, draft);
    }
  }

  /**
   * The sort buttons (`handleSort`): choosing the direction the column is
   * already sorted in asks for no sort; any other choice asks for it.
   */
  function SortToggle(current: Option<Direction>, chosen: Direction): Option<Direction>
  {
    if current == Some(chosen) then None else Some(chosen)
  }

  /**
   * The toggle clears exactly when the chosen direction is the active one,
   * and otherwise selects the chosen direction; choosing the same direction
   * twice returns to where it started.
   */
  lemma SortToggleSpec(current: Option<Direction>, chosen: Direction)
    ensures SortToggle(current, chosen) == None <==> current == Some(chosen)
    ensures SortToggle(current, chosen) != None ==> SortToggle(current, chosen) == Some(chosen)
    ensures current.None? || current == Some(chosen) ==>
      SortToggle(SortToggle(current, chosen), chosen) == current
  {
  }

  /** One column's popover: its draft operator and value and whether it is open. */
  class ColumnFilterPopup {
    const column: ColumnConfig
    var operator: FilterOperator
    var value: string
    var open: bool

    /** Mounting: the draft comes from the incoming filter or the type default; closed. */
    constructor (rt: Runtime, column: ColumnConfig, filter: Option<ColumnFilter>)
      ensures this.column == column
      ensures operator == InitialOperator(column.colType, filter)
      ensures value == InitialDraft(rt, filter)
      ensures !open
    {
      this.column := column;
      operator := InitialOperator(column.colType, filter);
      value := InitialDraft(rt, filter);
      open := false;
    }

    /** The operator select: only the draft operator changes. */
    method SelectOperator(op: FilterOperator)
      modifies this`operator
      ensures operator == op
    {
      operator := op;
    }

    /** Typing in the value input: only the draft value changes. */
    method EditDraft(text: string)
      modifies this`value
      ensures value == text
    {
      value := text;
    }

    /** Opening or closing the popover. */
    method SetOpen(isOpen: bool)
      modifies this`open
      ensures open == isOpen
    {
      open := isOpen;
    }

    /**
     * Apply (button or Enter in the value input): returns what is handed to
     * `onFilterChange`, keeps the draft and always closes the popover.
     */
    method ApplyFilter(rt: Runtime) returns (emitted: Option<ColumnFilter>)
      modifies this`open
      ensures emitted == ApplyDecision(rt, column.colType, operator, value)
      ensures !open
    {
      if column.colType == BooleanCol {
        if operator == All {
          emitted := None;
        } else {
          emitted := Some(ColumnFilter(operator, Bool(operator == True)));
        }
      } else {
        if Trim(value) == "" {
          emitted := None;
        } else {
          var v: FilterValue := if IsNumeric(column.colType) then Num(rt.parseFloat(value)) else Str(value);
          emitted := Some(ColumnFilter(operator, v));
        }
      }
      open := false;
    }

    /**
     * Clear: resets the draft to an empty value and the type's default
     * operator, hands `undefined` to `onFilterChange` and leaves the popover
     * as it was.
     */
    method ClearFilter() returns (emitted: Option<ColumnFilter>)
      modifies this`operator, this`value
      ensures value == "" && operator == DefaultOperator(column.colType)
      ensures emitted == None
    {
      value := "";
      operator := DefaultOperator(column.colType);
      emitted := None;
    }
  }
}
