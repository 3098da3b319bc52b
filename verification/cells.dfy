/**
 * One cell of the grid (`EditableCell` and `renderCellValue`): which view a
 * cell shows, how its value is rendered, the single editing-cell pointer,
 * and the edit a blur reports to `onCellEdit`.
 */
module Cells {
  import opened Options
  import opened JsValues
  import opened GridTypes

  /** A row's `id`: a number or a string. */
  datatype RowId = NumId(n: Number) | StrId(s: string)

  function IdValue(id: RowId): Value
  {
    match id
    case NumId(n) => Num(n)
    case StrId(s) => Str(s)
  }

  /** `a === b` on row ids. */
  predicate SameId(a: RowId, b: RowId)
  {
    StrictEquals(IdValue(a), IdValue(b))
  }

  /** A row: its `id` and the values of its other fields. */
  datatype Row = Row(id: RowId, cells: map<string, Value>)

  /** `row[field]`: the row's id for `"id"`, `undefined` for a field the row does not have. */
  function CellValue(row: Row, field: string): Value
  {
    if field == "id" then IdValue(row.id)
    else if field in row.cells then row.cells[field]
    else Undefined
  }

  /** The editing-cell pointer `{id, field}`. */
  datatype CellRef = CellRef(id: RowId, field: string)

  /** A cell is in edit mode when the editing cell matches both its row id and its field. */
  predicate IsEditing(editing: Option<CellRef>, row: Row, field: string)
  {
    editing.Some? && SameId(editing.value.id, row.id) && editing.value.field == field
  }

  /** No two rows share an id. */
  predicate UniqueIds(rows: seq<Row>)
  {
    forall i, j :: 0 <= i < j < |rows| ==> !SameId(rows[i].id, rows[j].id)
  }

  /** No two columns share a field. */
  predicate UniqueFields(columns: seq<ColumnConfig>)
  {
    forall i, j :: 0 <= i < j < |columns| ==> columns[i].field != columns[j].field
  }

  /**
   * With unique row ids and unique column fields, whatever the pointer, at
   * most one cell of the table is in edit mode.
   */
  lemma AtMostOneEditing(editing: Option<CellRef>, rows: seq<Row>, columns: seq<ColumnConfig>,
                         r1: nat, c1: nat, r2: nat, c2: nat)
    requires UniqueIds(rows) && UniqueFields(columns)
    requires r1 < |rows| && r2 < |rows| && c1 < |columns| && c2 < |columns|
    requires IsEditing(editing, rows[r1], columns[c1].field)
    requires IsEditing(editing, rows[r2], columns[c2].field)
    ensures r1 == r2 && c1 == c2
  {
    assert SameId(rows[r1].id, rows[r2].id);
  }

  /** The locale formatters, applied outside the model (pt-BR). */
  datatype Format = BrlCurrency | BrNumber | BrDate | Stringify

  /** What a read-only cell shows. */
  datatype Rendered =
    | Custom(value: Value, row: Row)      // the column's own `render(value, row)`
    | Dash                                // the "-" placeholder
    | Text(s: string)                     // a literal label
    | Formatted(format: Format, value: Value)

  /** `renderCellValue` */
  function RenderCellValue(col: ColumnConfig, value: Value, row: Row): Rendered
  {
    if col.hasRender then Custom(value, row)
    else if value.Null? || value.Undefined? then Dash
    else match col.colType
      case CurrencyCol => Formatted(BrlCurrency, value)
      case NumberCol => Formatted(BrNumber, value)
      case BooleanCol => Text(if Truthy(value) then "Sim" else "Não")
      case DateCol => Formatted(BrDate, value)
      case StringCol => Formatted(Stringify, value)
  }

  /**
   * A custom `render` wins over everything; otherwise a nullish value shows
   * the dash, and only a nullish value does; a boolean shows "Sim" or "Não"
   * by truthiness; every other type goes to its own formatter.
   */
  lemma RenderDispatch(col: ColumnConfig, value: Value, row: Row)
    ensures col.hasRender ==> RenderCellValue(col, value, row) == Custom(value, row)
    ensures !col.hasRender ==> (RenderCellValue(col, value, row) == Dash <==> IsNullish(value))
    ensures !col.hasRender && !IsNullish(value) && col.colType == BooleanCol ==>
      RenderCellValue(col, value, row) == Text(if Truthy(value) then "Sim" else "Não")
    ensures !col.hasRender && !IsNullish(value) && col.colType != BooleanCol ==>
      RenderCellValue(col, value, row).Formatted? &&
      RenderCellValue(col, value, row).value == value &&
      (RenderCellValue(col, value, row).format == BrlCurrency <==> col.colType == CurrencyCol) &&
      (RenderCellValue(col, value, row).format == BrNumber <==> col.colType == NumberCol) &&
      (RenderCellValue(col, value, row).format == BrDate <==> col.colType == DateCol)
  {
  }

  /** A cell is interactive only when the grid is editable and the column is not `editable: false`. */
  predicate CellEditable(gridEditable: bool, col: ColumnConfig)
  {
    gridEditable && col.editable != Some(false)
  }

  /** The text the edit input of a cell starts with, as written: `String(value || "")`. */
  function InputSeedAsWritten(rt: Runtime, value: Value): string
  {
    ToJsString(rt, if Truthy(value) then value else Str(""))
  }

  /** The text the edit input starts with, nullish-coalesced: `String(value ?? "")`. */
  function InputSeed(rt: Runtime, value: Value): string
  {
    ToJsString(rt, if IsNullish(value) then Str("") else value)
  }

  /** What `EditableCell` shows. */
  datatype CellView =
    | ReadOnly(content: Rendered)               // no handler at all
    | Checkbox(checked: bool)                   // onCheckedChange
    | EditInput(numeric: bool, seed: string)    // onBlur and onKeyDown
    | ClickToEdit(content: Rendered)            // onClick

  /** `EditableCell`: the view of one cell given the grid's state. */
  function ViewOf(rt: Runtime, gridEditable: bool, editing: Option<CellRef>, row: Row, col: ColumnConfig): CellView
  {
    var value := CellValue(row, col.field);
    if !CellEditable(gridEditable, col) then ReadOnly(RenderCellValue(col, value, row))
    else if col.colType == BooleanCol then Checkbox(Truthy(value))
    else if IsEditing(editing, row, col.field) then EditInput(IsNumeric(col.colType), InputSeed(rt, value))
    else ClickToEdit(RenderCellValue(col, value, row))
  }

  /**
   * A cell of a non-editable grid or of an `editable: false` column is
   * read-only; an editable boolean cell is always a checkbox, custom render
   * or not, and never in edit mode; any other editable cell shows the input
   * exactly when it is the editing cell, and is clickable otherwise.
   */
  lemma ViewSpec(rt: Runtime, gridEditable: bool, editing: Option<CellRef>, row: Row, col: ColumnConfig)
    ensures ViewOf(rt, gridEditable, editing, row, col).ReadOnly? <==> !CellEditable(gridEditable, col)
    ensures CellEditable(gridEditable, col) && col.colType == BooleanCol ==>
      ViewOf(rt, gridEditable, editing, row, col) == Checkbox(Truthy(CellValue(row, col.field)))
    ensures ViewOf(rt, gridEditable, editing, row, col).EditInput? <==>
      CellEditable(gridEditable, col) && col.colType != BooleanCol && IsEditing(editing, row, col.field)
    ensures ViewOf(rt, gridEditable, editing, row, col).ClickToEdit? <==>
      CellEditable(gridEditable, col) && col.colType != BooleanCol && !IsEditing(editing, row, col.field)
  {
  }

  /** One call of `onCellEdit(row, field, value)`. */
  datatype CellEdit = CellEdit(row: Row, field: string, value: Value)

  /** The value a blur commits: the input's text, parsed for numeric columns. */
  function CommitValue(rt: Runtime, t: ColumnType, text: string): Value
  {
    if IsNumeric(t) then Num(rt.parseFloat(text)) else Str(text)
  }

  /** The edit a blur reports: one only when the committed value `!==` the cell's value. */
  function BlurEdit(rt: Runtime, row: Row, col: ColumnConfig, text: string): Option<CellEdit>
  {
    var newValue := CommitValue(rt, col.colType, text);
    if !StrictEquals(newValue, CellValue(row, col.field)) then Some(CellEdit(row, col.field, newValue))
    else None
  }

  /**
   * A blur reports nothing exactly when the committed value is the cell's
   * value (and not NaN); otherwise it reports that row, that field and the
   * committed value, which is a number for numeric columns and the text
   * for the others.
   */
  lemma BlurEditSpec(rt: Runtime, row: Row, col: ColumnConfig, text: string)
    ensures BlurEdit(rt, row, col, text) == None <==>
      CellValue(row, col.field) == CommitValue(rt, col.colType, text) && CellValue(row, col.field) != Num(NaN)
    ensures BlurEdit(rt, row, col, text).Some? ==>
      BlurEdit(rt, row, col, text).value.row == row &&
      BlurEdit(rt, row, col, text).value.field == col.field &&
      BlurEdit(rt, row, col, text).value.value == (if IsNumeric(col.colType) then Num(rt.parseFloat(text)) else Str(text))
  {
    StrictEqualsCharacterized(CommitValue(rt, col.colType, text), CellValue(row, col.field));
  }

  /**
   * With the input seeded as written, leaving an untouched numeric cell that
   * holds 0 reports NaN: the seed of 0 is "", which `parseFloat` reads as NaN.
   */
  lemma UntouchedZeroReportsNaN(rt: Runtime, row: Row, col: ColumnConfig)
    requires IsNumeric(col.colType) && rt.parseFloat("") == NaN
    requires CellValue(row, col.field) == Num(Finite(0.0))
    ensures InputSeedAsWritten(rt, CellValue(row, col.field)) == ""
    ensures BlurEdit(rt, row, col, InputSeedAsWritten(rt, CellValue(row, col.field))) ==
      Some(CellEdit(row, col.field, Num(NaN)))
  {
  }

  /**
   * With the nullish-coalesced seed, leaving an untouched cell reports
   * nothing whenever the cell holds a value of its column's kind: a string
   * in a text column, or a finite number in a numeric column whose printed
   * form reads back through `parseFloat`. A finite number prints as a valid
   * number string, which a number input keeps as it is.
   */
  lemma UntouchedBlurReportsNothing(rt: Runtime, row: Row, col: ColumnConfig)
    requires col.colType != BooleanCol
    requires !IsNumeric(col.colType) ==> CellValue(row, col.field).Str?
    requires IsNumeric(col.colType) ==>
      var v := CellValue(row, col.field);
      v.Num? && v.n.Finite? && rt.parseFloat(rt.numberToString(v.n)) == v.n
    ensures BlurEdit(rt, row, col, InputSeed(rt, CellValue(row, col.field))) == None
  {
  }
}
