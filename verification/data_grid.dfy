/**
 * The grid engine (`DataGrid`): the aggregate filter object, the single
 * sort and the editing-cell pointer, the handlers that change them, and the
 * calls the grid makes to its host's `onQueryChange` and `onCellEdit`,
 * recorded in call order.
 */
module Engine {
  import opened Options
  import opened JsValues
  import opened GridTypes
  import opened FilterObjects
  import opened Queries
  import opened FilterPopup
  import opened Cells

  /** The filter object after a column's filter change (`handleFilterChange`). */
  function FilterChange(o: FilterObject, field: string, filter: Option<ColumnFilter>): FilterObject
    requires DistinctKeys(o)
  {
    match filter
    case None => Delete(o, field)
    case Some(f) => Put(o, field, Some(f))
  }

  /**
   * A filter change touches only its own field: `undefined` removes it from
   * the aggregate map, a filter maps it to that filter. The object keeps
   * distinct keys and never comes to hold `undefined`.
   */
  lemma FilterChangeSpec(o: FilterObject, field: string, filter: Option<ColumnFilter>)
    requires DistinctKeys(o)
    ensures DistinctKeys(FilterChange(o, field, filter))
    ensures NoUndefined(o) ==> NoUndefined(FilterChange(o, field, filter))
    ensures filter.None? ==> Defined(FilterChange(o, field, filter)) == Defined(o) - {field}
    ensures filter.Some? ==> Defined(FilterChange(o, field, filter)) == Defined(o)[field := filter.value]
  {
    match filter
    case None =>
      DefinedAfterDelete(o, field);
      if NoUndefined(o) { NoUndefinedPreserved(o, field, ColumnFilter(Equals, Str(""))); }
    case Some(f) =>
      DefinedAfterPut(o, field, f);
      if NoUndefined(o) { NoUndefinedPreserved(o, field, f); }
  }

  /** The sort after a column's sort change (`handleSortChange`): null means unsorted. */
  function SortChange(field: string, direction: Option<Direction>): Option<Sort>
  {
    match direction
    case None => None
    case Some(d) => Some(Sort(field, d))
  }

  /** The `sortDirection` handed to a column's popover: the direction only for the sorted column. */
  function DirectionFor(sort: Option<Sort>, field: string): Option<Direction>
  {
    if sort.Some? && sort.value.field == field then Some(sort.value.direction) else None
  }

  /**
   * Among columns with distinct fields, only the sorted column is handed a
   * direction, and it is handed the sort's direction.
   */
  lemma DirectionForOnlySorted(sort: Option<Sort>, columns: seq<ColumnConfig>, i: nat)
    requires UniqueFields(columns) && i < |columns|
    ensures DirectionFor(sort, columns[i].field).Some? <==> sort.Some? && sort.value.field == columns[i].field
    ensures DirectionFor(sort, columns[i].field).Some? ==>
      DirectionFor(sort, columns[i].field).value == sort.value.direction &&
      forall j :: 0 <= j < |columns| && j != i ==> DirectionFor(sort, columns[j].field).None?
  {
    if DirectionFor(sort, columns[i].field).Some? {
      forall j | 0 <= j < |columns| && j != i ensures DirectionFor(sort, columns[j].field).None? {
        if j < i { assert columns[j].field != columns[i].field; }
        else { assert columns[i].field != columns[j].field; }
      }
    }
  }

  /** The grid's sort after a sort button of `field`'s popover is pressed. */
  function SortClick(sort: Option<Sort>, field: string, chosen: Direction): Option<Sort>
  {
    SortChange(field, SortToggle(DirectionFor(sort, field), chosen))
  }

  /**
   * A sort button clears the sort exactly when the grid is already sorted on
   * that column in that direction, and otherwise replaces any sort, on any
   * column, by that column and direction. Pressing the same button twice
   * from anything else ends unsorted; pressing ascending then descending
   * always ends sorted descending on that column.
   */
  lemma {:induction false} SortClickSpec(sort: Option<Sort>, field: string, chosen: Direction)
    ensures SortClick(sort, field, chosen) == None <==> sort == Some(Sort(field, chosen))
    ensures SortClick(sort, field, chosen) != None ==> SortClick(sort, field, chosen) == Some(Sort(field, chosen))
    ensures SortClick(SortClick(sort, field, chosen), field, chosen) ==
      if sort == Some(Sort(field, chosen)) then sort else None
    ensures SortClick(SortClick(sort, field, Asc), field, Desc) == Some(Sort(field, Desc))
  {
    SortToggleSpec(DirectionFor(sort, field), chosen);
    var once := SortClick(sort, field, chosen);
    SortToggleSpec(DirectionFor(once, field), chosen);
    var up := SortClick(sort, field, Asc);
    SortToggleSpec(DirectionFor(sort, field), Asc);
    SortToggleSpec(DirectionFor(up, field), Desc);
  }

  /** One mounted grid with its props and its state. */
  class DataGrid {
    const columns: seq<ColumnConfig>   // the cells of each row are drawn for these columns
    const editable: bool
    const hasCellEditHandler: bool     // `onCellEdit` was supplied
    const hasQueryHandler: bool        // `onQueryChange` was supplied

    var filters: FilterObject
    var sort: Option<Sort>
    var editingCell: Option<CellRef>

    var queries: seq<Query>            // the calls of `onQueryChange`, in order
    var edits: seq<CellEdit>           // the calls of `onCellEdit`, in order

    /** The filter object has distinct keys and never holds `undefined`. */
    ghost predicate Valid()
      reads this
    {
      DistinctKeys(filters) && NoUndefined(filters)
    }

    /** Mounting: no filters, unsorted, nothing editing, no callback yet. */
    constructor (columns: seq<ColumnConfig>, editable: bool, hasCellEditHandler: bool, hasQueryHandler: bool)
      ensures Valid()
      ensures this.columns == columns && this.editable == editable
      ensures this.hasCellEditHandler == hasCellEditHandler && this.hasQueryHandler == hasQueryHandler
      ensures filters == [] && sort == None && editingCell == None
      ensures queries == [] && edits == []
    {
      this.columns := columns;
      this.editable := editable;
      this.hasCellEditHandler := hasCellEditHandler;
      this.hasQueryHandler := hasQueryHandler;
      filters := [];
      sort := None;
      editingCell := None;
      queries := [];
      edits := [];
    }

    /** `getActiveFilterCount`: the number of keys of the filter object. */
    function ActiveFilterCount(): nat
      reads this
    {
      |filters|
    }

    /**
     * Since `undefined` is never stored, the header's count is the number of
     * active filters and the number of filters the next query carries.
     */
    lemma ActiveFilterCountExact()
      requires Valid()
      ensures ActiveFilterCount() == |Defined(filters)|
      ensures ActiveFilterCount() == |BuildQuery(filters, sort).filters|
    {
      DefinedCoversKeys(filters);
      ProjectFiltersCount(filters);
    }

    /** `getActiveSortField` */
    function ActiveSortField(): (f: Option<string>)
      reads this
      ensures f.Some? <==> sort.Some?
      ensures f.Some? ==> DirectionFor(sort, f.value) == Some(sort.value.direction)
    {
      match sort
      case None => None
      case Some(s) => Some(s.field)
    }

    /** `notifyQueryChange`: one query built from the given state, if the host listens. */
    method NotifyQueryChange(currentFilters: FilterObject, currentSort: Option<Sort>)
      modifies this`queries
      ensures queries == old(queries) + if hasQueryHandler then [BuildQuery(currentFilters, currentSort)] else []
    {
      if hasQueryHandler {
        var query := Query(ProjectFilters(currentFilters), currentSort, FirstPage, DefaultPageSize);
        queries := queries + [query];
      }
    }

    /**
     * `handleFilterChange`: the field's filter is set or removed, the sort,
     * the pointer and the edits are untouched, and exactly one query of the
     * new state is emitted when the host listens.
     */
    method HandleFilterChange(field: string, filter: Option<ColumnFilter>)
      requires Valid()
      modifies this`filters, this`queries
      ensures Valid()
      ensures filters == FilterChange(old(filters), field, filter)
      ensures filter.None? ==> Defined(filters) == old(Defined(filters)) - {field}
      ensures filter.Some? ==> Defined(filters) == old(Defined(filters))[field := filter.value]
      ensures sort == old(sort) && editingCell == old(editingCell) && edits == old(edits)
      ensures queries == old(queries) + if hasQueryHandler then [BuildQuery(filters, sort)] else []
    {
      FilterChangeSpec(filters, field, filter);
      var newFilters := filters;
      if filter.None? {
        newFilters := Delete(newFilters, field);
      } else {
        newFilters := Put(newFilters, field, filter);
      }
      filters := newFilters;
      NotifyQueryChange(newFilters, sort);
    }

    /**
     * `handleSortChange`: a direction makes this field the only sort, null
     * makes the grid unsorted; the filters are untouched, and exactly one
     * query of the new state is emitted when the host listens.
     */
    method HandleSortChange(field: string, direction: Option<Direction>)
      requires Valid()
      modifies this`sort, this`queries
      ensures Valid()
      ensures sort == SortChange(field, direction)
      ensures direction.Some? ==> sort == Some(Sort(field, direction.value))
      ensures direction.None? ==> sort == None
      ensures filters == old(filters) && editingCell == old(editingCell) && edits == old(edits)
      ensures queries == old(queries) + if hasQueryHandler then [BuildQuery(filters, sort)] else []
    {
      var newSort := if direction.Some? then Some(Sort(field, direction.value)) else None;
      sort := newSort;
      NotifyQueryChange(filters, newSort);
    }

    /** The view the grid gives a cell right now. */
    function View(rt: Runtime, row: Row, col: ColumnConfig): CellView
      reads this
    {
      ViewOf(rt, editable, editingCell, row, col)
    }

    /**
     * A click on a cell: a clickable cell becomes the only cell in edit mode,
     * and the click handler itself makes no callback; a click anywhere else
     * has no handler and changes nothing. The blur of an input that was in
     * edit mode is a separate event, `BlurCell`.
     */
    method ClickCell(rt: Runtime, row: Row, col: ColumnConfig)
      requires Valid() && col in columns
      modifies this`editingCell
      ensures Valid()
      ensures old(View(rt, row, col)).ClickToEdit? ==> editingCell == Some(CellRef(row.id, col.field))
      ensures !old(View(rt, row, col)).ClickToEdit? ==> editingCell == old(editingCell)
      ensures filters == old(filters) && sort == old(sort)
      ensures queries == old(queries) && edits == old(edits)
    {
      if View(rt, row, col).ClickToEdit? {
        editingCell := Some(CellRef(row.id, col.field));
      }
    }

    /**
     * Blur of a cell's edit input holding `text`: edit mode ends and the
     * host is told of the edit only when the committed value differs. A cell
     * that shows no input has no blur handler.
     */
    method BlurCell(rt: Runtime, row: Row, col: ColumnConfig, text: string)
      requires Valid() && col in columns
      modifies this`editingCell, this`edits
      ensures Valid()
      ensures old(View(rt, row, col)).EditInput? ==> editingCell == None
      ensures old(View(rt, row, col)).EditInput? ==>
        edits == old(edits) + if hasCellEditHandler then ToSeq(BlurEdit(rt, row, col, text)) else []
      ensures !old(View(rt, row, col)).EditInput? ==> editingCell == old(editingCell) && edits == old(edits)
      ensures filters == old(filters) && sort == old(sort) && queries == old(queries)
    {
      if View(rt, row, col).EditInput? {
        editingCell := None;
        var newValue := CommitValue(rt, col.colType, text);
        if !StrictEquals(newValue, CellValue(row, col.field)) && hasCellEditHandler {
          edits := edits + [CellEdit(row, col.field, newValue)];
        }
      }
    }

    /**
     * A key pressed in a cell's edit input: Enter blurs the input (and so
     * commits), Escape leaves edit mode without calling `onCellEdit`, any
     * other key does nothing.
     */
    method KeyDownCell(rt: Runtime, row: Row, col: ColumnConfig, key: string, text: string)
      requires Valid() && col in columns
      modifies this`editingCell, this`edits
      ensures Valid()
      ensures old(View(rt, row, col)).EditInput? && key == "Enter" ==>
        editingCell == None &&
        edits == old(edits) + if hasCellEditHandler then ToSeq(BlurEdit(rt, row, col, text)) else []
      ensures old(View(rt, row, col)).EditInput? && key == "Escape" ==>
        editingCell == None && edits == old(edits)
      ensures !old(View(rt, row, col)).EditInput? || (key != "Enter" && key != "Escape") ==>
        editingCell == old(editingCell) && edits == old(edits)
      ensures filters == old(filters) && sort == old(sort) && queries == old(queries)
    {
      if View(rt, row, col).EditInput? {
        if key == "Enter" {
          BlurCell(rt, row, col, text);
        }
        if key == "Escape" {
          editingCell := None;
        }
      }
    }

    /**
     * A checkbox toggle: an editable boolean cell reports the checked value
     * at once and leaves the pointer alone; any other cell has no checkbox.
     */
    method CheckedChange(rt: Runtime, row: Row, col: ColumnConfig, checked: bool)
      requires Valid() && col in columns
      modifies this`edits
      ensures Valid()
      ensures old(View(rt, row, col)).Checkbox? && hasCellEditHandler ==>
        edits == old(edits) + [CellEdit(row, col.field, Bool(checked))]
      ensures !old(View(rt, row, col)).Checkbox? || !hasCellEditHandler ==> edits == old(edits)
      ensures filters == old(filters) && sort == old(sort) && editingCell == old(editingCell)
      ensures queries == old(queries)
    {
      if View(rt, row, col).Checkbox? && hasCellEditHandler {
        edits := edits + [CellEdit(row, col.field, Bool(checked))];
      }
    }
  }

  /**
   * Apply in a column's popover: the popover closes and the grid takes the
   * filter change it emits for that column.
   */
  method ApplyFromPopup(grid: DataGrid, popup: ColumnFilterPopup, rt: Runtime)
    requires grid.Valid()
    modifies grid`filters, grid`queries, popup`open
    ensures grid.Valid() && !popup.open
    ensures grid.filters ==
      FilterChange(old(grid.filters), popup.column.field,
                   ApplyDecision(rt, popup.column.colType, popup.operator, popup.value))
    ensures grid.sort == old(grid.sort)
    ensures grid.queries == old(grid.queries) +
      if grid.hasQueryHandler then [BuildQuery(grid.filters, grid.sort)] else []
  {
    var emitted := popup.ApplyFilter(rt);
    grid.HandleFilterChange(popup.column.field, emitted);
  }

  /**
   * Clear in a column's popover: the draft resets and the grid drops that
   * column's filter.
   */
  method ClearFromPopup(grid: DataGrid, popup: ColumnFilterPopup)
    requires grid.Valid()
    modifies grid`filters, grid`queries, popup`operator, popup`value
    ensures grid.Valid()
    ensures popup.value == "" && popup.operator == DefaultOperator(popup.column.colType)
    ensures Defined(grid.filters) == old(Defined(grid.filters)) - {popup.column.field}
    ensures grid.sort == old(grid.sort)
    ensures grid.queries == old(grid.queries) +
      if grid.hasQueryHandler then [BuildQuery(grid.filters, grid.sort)] else []
  {
    var emitted := popup.ClearFilter();
    grid.HandleFilterChange(popup.column.field, emitted);
  }

  /**
   * A sort button of a column's popover, which is handed the grid's
   * direction for that column: the grid's sort becomes `SortClick`.
   */
  method SortFromPopup(grid: DataGrid, col: ColumnConfig, chosen: Direction)
    requires grid.Valid()
    modifies grid`sort, grid`queries
    ensures grid.Valid()
    ensures grid.sort == SortClick(old(grid.sort), col.field, chosen)
    ensures grid.filters == old(grid.filters)
    ensures grid.queries == old(grid.queries) +
      if grid.hasQueryHandler then [BuildQuery(grid.filters, grid.sort)] else []
  {
    var emitted := SortToggle(DirectionFor(grid.sort, col.field), chosen);
    grid.HandleSortChange(col.field, emitted);
  }
}
