# Data grid of the lawsuit-records dashboard, in Dafny

This project models the client-side data grid of the dashboard that lists
court-process records. The grid has two parts.

- The **grid engine** (`DataGrid`) owns three pieces of state: the aggregate
  filter object (column field → `{operator, value}`), a single optional sort
  `{field, direction}`, and a single optional editing-cell pointer
  `{id, field}`. Every filter or sort change is merged into that state, and
  then one query `{filters, sort?, page: 1, pageSize: 50}` goes to the host's
  `onQueryChange`. Cell edits run through a small state machine:
  - a click enters edit mode;
  - blur or Enter leaves it, and calls `onCellEdit` only when the value
    changed;
  - Escape leaves it without a callback;
  - an editable boolean cell is a checkbox that reports at once.
- The **column filter popover** (`ColumnFilterPopup`) keeps a draft operator,
  a draft value and an open flag. It turns Apply, Clear and the two sort
  buttons into one filter change or one sort change for its column.

Modules:

- `Options`: optional values.
- `JsValues`: the JavaScript semantics the grid relies on: cell values,
  `===`, truthiness, `String(…)` and `trim`. Number parsing and printing
  come in as the two fields of a `Runtime` value.
- `GridTypes`: the types of `lib/types/data-grid.types.ts`.
- `FilterObjects`: `DataGridFilters` as the JavaScript object the grid keeps,
  an ordered list of own properties with `o[k]`, `o[k] = v` and
  `delete o[k]`, and `Defined`, its view as a map. Field names are taken to
  be ordinary property names (see "## Left out").
- `Queries`: `notifyQueryChange`'s projection of that object into a query.
- `FilterPopup`: the operator tables, the Apply and sort-toggle decisions,
  and the popover as a class.
- `Cells`: what one cell shows, how it renders, the editing pointer, and what
  a blur reports.
- `Engine`: the grid as a class, with its handlers and the wiring from each
  popover to the grid.

Each handler that changes state is a method on a class. Its `ensures` gives
the whole new state, including the recorded calls to `onQueryChange` and
`onCellEdit`. The pure decisions are functions, and the lemmas beside them
state the properties.

Choosing an operator in a popover only updates the draft. A filter, on a
boolean column as on any other, is emitted on Apply
(`FilterPopup.ColumnFilterPopup.SelectOperator`,
`FilterPopup.ColumnFilterPopup.ApplyFilter`).

## Model

| member | source | states |
|---|---|---|
| `JsValues.StrictEquals` | components/data-grid/data-grid.tsx:110 | `===` on cell values, specified by `JsValues.StrictEqualsCharacterized`: symmetric, and equality of values other than NaN |
| `JsValues.Truthy` | components/data-grid/data-grid.tsx:86 | JavaScript truthiness, as used by `Boolean(value)`, the `""` fallback of the input seed and `value ? … : …`; specified by `JsValues.FalsyValues` |
| `JsValues.FalsyValues` | components/data-grid/data-grid.tsx:155 | the falsy values are exactly `undefined`, `null`, `false`, `0`, `NaN` and `""` |
| `JsValues.IsNullish` | components/data-grid/data-grid.tsx:142 | the test that `value` is `null` or `undefined`; `Cells.RenderDispatch` states that it alone decides the dash |
| `JsValues.ToJsString` | components/data-grid/data-grid.tsx:100 | `String(v)` and `v.toString()`; numbers go through the host's printing. `FilterPopup.ApplyAfterRemount` and the two untouched-blur lemmas state what the grid relies on |
| `JsValues.StrictEqualsCharacterized` | components/data-grid/data-grid.tsx:110 | `!==` is symmetric. Two values are strictly equal exactly when they are the same value and that value is not NaN |
| `JsValues.Trim` | components/data-grid/column-filter.tsx:87 | `trim` leaves a result that starts and ends with non-whitespace. It is empty exactly when every character is ECMAScript whitespace |
| `JsValues.TrimStart` | components/data-grid/column-filter.tsx:87 | the result is a suffix of the input. Every character dropped is whitespace, and the result does not start with whitespace |
| `JsValues.TrimEnd` | components/data-grid/column-filter.tsx:87 | the result is a prefix of the input. Every character dropped is whitespace, and the result does not end with whitespace |
| `GridTypes.TokenInjective` | lib/types/data-grid.types.ts:4-22 | each operator has a non-empty token, and distinct operators have distinct tokens |
| `GridTypes.OperatorFamilies` | lib/types/data-grid.types.ts:4-22 | every operator is in the string, number or boolean family. Exactly `equals`/`notEquals` are shared by string and number, and the boolean family shares nothing |
| `FilterObjects.Get` | lib/types/data-grid.types.ts:44-46 | looking up an absent key gives `undefined` |
| `FilterObjects.Delete` | components/data-grid/data-grid.tsx:39-41 | `delete` keeps keys distinct and removes `k` from the key set |
| `FilterObjects.DeleteRemovesOne` | components/data-grid/data-grid.tsx:41 | `delete` removes exactly the one property `k`, in place, and changes nothing if `k` is absent |
| `FilterObjects.DeleteGet` | components/data-grid/data-grid.tsx:41 | after `delete`, `o[k]` is undefined and every other lookup is unchanged |
| `FilterObjects.Put` | components/data-grid/data-grid.tsx:42-43 | assignment keeps keys distinct and adds `k` to the key set |
| `FilterObjects.PutPlacement` | components/data-grid/data-grid.tsx:43 | a new key is appended, and an existing key is overwritten in its place |
| `FilterObjects.PutGet` | components/data-grid/data-grid.tsx:43 | after `o[k] = v`, `o[k]` is `v` and every other lookup is unchanged |
| `FilterObjects.Defined` | lib/types/data-grid.types.ts:44-46 | the aggregate map holds exactly the keys whose value is a filter, each with that filter |
| `FilterObjects.DefinedAfterDelete` | components/data-grid/data-grid.tsx:40-41 | on the aggregate map, deleting `k` removes key `k` |
| `FilterObjects.DefinedAfterPut` | components/data-grid/data-grid.tsx:42-43 | on the aggregate map, storing `f` under `k` maps `k` to `f` |
| `FilterObjects.NoUndefinedPreserved` | components/data-grid/data-grid.tsx:38-45 | neither handler branch ever stores `undefined` |
| `FilterObjects.DefinedCoversKeys` | components/data-grid/data-grid.tsx:163-165 | with no `undefined` values, the aggregate map has exactly the object's keys and as many entries as the object has properties |
| `Queries.BuildQuery` | components/data-grid/data-grid.tsx:55-70 | the query `notifyQueryChange` builds, specified by `Queries.QueryShape` and `Queries.ProjectFiltersExact` |
| `Queries.ProjectFilters` | components/data-grid/data-grid.tsx:58-64 | the projection is no longer than the object, and names only keys of the object |
| `Queries.ProjectFiltersDistinct` | components/data-grid/data-grid.tsx:58-64 | no field appears twice among the query's filters |
| `Queries.ProjectFiltersExact` | components/data-grid/data-grid.tsx:58-64 | read back as a map, the query's filters are exactly the aggregate filter map, with each operator and value |
| `Queries.ProjectFiltersCount` | components/data-grid/data-grid.tsx:58-64 | with no `undefined` values, the query has one filter per key |
| `Queries.QueryShape` | components/data-grid/data-grid.tsx:55-70 | page is 1 and pageSize is 50. `sort` is present iff the state has one, and then it equals it. The filters name each active field once and name no other field |
| `FilterPopup.Operators` | components/data-grid/column-filter.tsx:65-77 | `getOperators`, with date and any other type falling back to the string list; specified by `FilterPopup.OperatorTables` |
| `FilterPopup.OperatorTables` | components/data-grid/column-filter.tsx:65-77 | each list holds its family's operators exactly once: 3 for boolean, 6 for number/currency, and the 5 string operators for string and date |
| `FilterPopup.DefaultOperator` | components/data-grid/column-filter.tsx:51-63 | the default is `all` iff the column is boolean, `contains` iff string, and `equals` iff number, currency or date. It is always one of the operators offered for the column |
| `FilterPopup.InitialDraft` | components/data-grid/column-filter.tsx:45 | the draft value: the incoming value's string form, or `""` without a filter; `FilterPopup.ApplyAfterRemount` states that applying this draft unchanged re-emits the filter |
| `FilterPopup.ApplyDecision` | components/data-grid/column-filter.tsx:79-93 | `handleApplyFilter`'s choice of what to emit, specified by `FilterPopup.ApplyDecisionSpec` and `FilterPopup.ApplyAfterRemount` |
| `FilterPopup.InitialOperator` | components/data-grid/column-filter.tsx:44 | a new popover's draft operator is the incoming filter's operator, or the type default when there is none |
| `FilterPopup.ApplyDecisionSpec` | components/data-grid/column-filter.tsx:79-93 | on a boolean column, Apply emits `undefined` iff the operator is `all`, and otherwise `{op, op === "true"}`. On other columns it emits `undefined` iff the draft is blank, and otherwise `{op, value}`: the untrimmed draft for text and date, `parseFloat(draft)` for number and currency |
| `FilterPopup.ApplyAfterRemount` | components/data-grid/column-filter.tsx:44-93 | a popover mounted with what Apply produced, a filter or `undefined`, emits exactly that when applied unchanged. A numeric filter needs the printed number to parse back |
| `FilterPopup.SortToggle` | components/data-grid/column-filter.tsx:103-109 | `handleSort`'s choice, specified by `FilterPopup.SortToggleSpec` |
| `FilterPopup.SortToggleSpec` | components/data-grid/column-filter.tsx:103-109 | the toggle emits null iff the chosen direction is the active one, and otherwise emits the chosen direction. From unsorted or from the chosen direction, toggling twice returns to the start |
| `FilterPopup.ColumnFilterPopup.constructor` | components/data-grid/column-filter.tsx:44-46 | initial draft: the incoming operator or the default, the incoming value's string form or "", and closed |
| `FilterPopup.ColumnFilterPopup.SelectOperator` | components/data-grid/column-filter.tsx:166 | selecting an operator changes only the draft operator |
| `FilterPopup.ColumnFilterPopup.EditDraft` | components/data-grid/column-filter.tsx:186 | typing changes only the draft value |
| `FilterPopup.ColumnFilterPopup.SetOpen` | components/data-grid/column-filter.tsx:112 | opening or closing changes only the open flag |
| `FilterPopup.ColumnFilterPopup.ApplyFilter` | components/data-grid/column-filter.tsx:79-95 | Apply emits the Apply decision for the current draft, keeps the draft, and always closes the popover |
| `FilterPopup.ColumnFilterPopup.ClearFilter` | components/data-grid/column-filter.tsx:97-101 | Clear resets the value to "" and the operator to the type default, emits `undefined`, and leaves the open flag alone |
| `Cells.IsEditing` | components/data-grid/data-grid.tsx:76 | the `isEditing` test on the row id and the field; `Cells.AtMostOneEditing` states that it selects at most one cell |
| `Cells.CellValue` | components/data-grid/data-grid.tsx:75 | `row[field]`: the row's id for a column on `"id"`, and `undefined` for a field the row lacks; used by `Cells.ViewSpec` and `Cells.BlurEditSpec` |
| `Cells.CellEditable` | components/data-grid/data-grid.tsx:78 | the grid is editable and the column is not `editable: false`; `Cells.ViewSpec` states that it alone decides a read-only cell |
| `Cells.RenderCellValue` | components/data-grid/data-grid.tsx:137-161 | `renderCellValue`, specified by `Cells.RenderDispatch` |
| `Cells.ViewOf` | components/data-grid/data-grid.tsx:73-135 | `EditableCell`, specified by `Cells.ViewSpec`; its edit input is seeded with the corrected `Cells.InputSeed` (see "## Findings") |
| `Cells.AtMostOneEditing` | components/data-grid/data-grid.tsx:76 | when row ids and column fields are unique, at most one cell is in edit mode, whatever the pointer |
| `Cells.RenderDispatch` | components/data-grid/data-grid.tsx:137-161 | a custom `render` wins. Otherwise the dash is shown iff the value is null or undefined, a boolean shows "Sim"/"Não" by truthiness, and each other type goes to its own formatter |
| `Cells.ViewSpec` | components/data-grid/data-grid.tsx:73-135 | a cell is read-only iff the grid or the column is not editable. An editable boolean cell is always a checkbox. Any other editable cell shows the input iff it is the editing cell, and is clickable otherwise |
| `Cells.CommitValue` | components/data-grid/data-grid.tsx:106-109 | the value a blur commits, parsed for number and currency columns; specified by `Cells.BlurEditSpec` |
| `Cells.BlurEdit` | components/data-grid/data-grid.tsx:104-113 | the `onCellEdit` call a blur makes, specified by `Cells.BlurEditSpec` |
| `Cells.InputSeedAsWritten` | components/data-grid/data-grid.tsx:100 | the source's seed, which falls back to `""` for every falsy value; `Cells.UntouchedZeroReportsNaN` states what it does to a 0 |
| `Cells.InputSeed` | components/data-grid/data-grid.tsx:100 | the corrected seed `String(value ?? "")`; `Cells.UntouchedBlurReportsNothing` states that leaving it untouched reports nothing |
| `Cells.BlurEditSpec` | components/data-grid/data-grid.tsx:104-113 | a blur reports nothing iff the committed value equals the cell value and is not NaN. Otherwise it reports `(row, field, value)`, where the value is parsed for number/currency columns |
| `Cells.UntouchedZeroReportsNaN` | components/data-grid/data-grid.tsx:100 | as written, leaving an untouched numeric cell that holds 0 reports NaN |
| `Cells.UntouchedBlurReportsNothing` | components/data-grid/data-grid.tsx:100-113 | with the `??` seed, leaving an untouched cell that holds a value of its column's kind reports nothing |
| `Engine.FilterChange` | components/data-grid/data-grid.tsx:38-45 | the object `handleFilterChange` stores, specified by `Engine.FilterChangeSpec` |
| `Engine.SortChange` | components/data-grid/data-grid.tsx:50 | `direction ? {field, direction} : null`; `Engine.DataGrid.HandleSortChange` and `Engine.SortClickSpec` state its effect |
| `Engine.DirectionFor` | components/data-grid/data-grid.tsx:220 | the `sortDirection` prop, specified by `Engine.DirectionForOnlySorted` |
| `Engine.SortClick` | components/data-grid/data-grid.tsx:220-222 | a popover sort button composed with `handleSortChange`, specified by `Engine.SortClickSpec` |
| `Engine.FilterChangeSpec` | components/data-grid/data-grid.tsx:38-45 | `undefined` removes exactly that field from the aggregate map, and a filter maps exactly that field to it. Keys stay distinct and `undefined` is never stored |
| `Engine.DirectionForOnlySorted` | components/data-grid/data-grid.tsx:220 | only the sorted column is handed a direction, namely the sort's direction. Every other column gets null |
| `Engine.SortClickSpec` | components/data-grid/data-grid.tsx:220-222 | a sort button clears the sort iff the grid is already sorted on that column in that direction. Otherwise it replaces any sort with that column and direction. The same button twice from elsewhere ends unsorted, and asc then desc ends sorted desc |
| `Engine.DataGrid.constructor` | components/data-grid/data-grid.tsx:34-36 | a new grid has no filters, no sort, nothing editing and no callbacks yet |
| `Engine.DataGrid.ActiveFilterCount` | components/data-grid/data-grid.tsx:163-165 | `getActiveFilterCount`, specified by `Engine.DataGrid.ActiveFilterCountExact` |
| `Engine.DataGrid.ActiveFilterCountExact` | components/data-grid/data-grid.tsx:163-165 | the header's filter count equals the number of active filters and the number of filters in the next query |
| `Engine.DataGrid.ActiveSortField` | components/data-grid/data-grid.tsx:167-169 | a field is given iff the grid is sorted, and that field is the one handed the sort's direction |
| `Engine.DataGrid.View` | components/data-grid/data-grid.tsx:73-135 | the view the grid gives a cell from its current state, `Cells.ViewOf`; the contracts of the cell handlers are stated in terms of it |
| `Engine.DataGrid.NotifyQueryChange` | components/data-grid/data-grid.tsx:55-71 | exactly one query built from the given state is emitted when `onQueryChange` is supplied, and none otherwise |
| `Engine.DataGrid.HandleFilterChange` | components/data-grid/data-grid.tsx:38-47 | the field's filter is set or removed and all other keys are unchanged. Sort, pointer and edits are unchanged. One query is emitted from the new state when a listener is supplied |
| `Engine.DataGrid.HandleSortChange` | components/data-grid/data-grid.tsx:49-53 | a direction makes `{field, direction}` the only sort, and null leaves the grid unsorted. Filters are unchanged. One query is emitted from the new state when a listener is supplied |
| `Engine.DataGrid.ClickCell` | components/data-grid/data-grid.tsx:127-134 | a click on a clickable cell points at exactly that cell, without any callback. Any other click changes nothing |
| `Engine.DataGrid.BlurCell` | components/data-grid/data-grid.tsx:104-113 | blurring the input clears the pointer. `onCellEdit` is called only when the committed value differs |
| `Engine.DataGrid.KeyDownCell` | components/data-grid/data-grid.tsx:114-121 | Enter commits as blur does. Escape clears the pointer with no callback. Other keys do nothing |
| `Engine.DataGrid.CheckedChange` | components/data-grid/data-grid.tsx:82-93 | an editable boolean cell reports the checked value at once and leaves the pointer alone. No other cell reports anything |
| `Engine.ApplyFromPopup` | components/data-grid/data-grid.tsx:217-223 | Apply in a popover closes it, and the grid takes the emitted change for that column and emits one query when a listener is supplied |
| `Engine.ClearFromPopup` | components/data-grid/data-grid.tsx:217-223 | Clear resets the draft, the grid drops that column's filter, and one query is emitted when a listener is supplied |
| `Engine.SortFromPopup` | components/data-grid/data-grid.tsx:217-223 | a sort button leaves the grid's sort as `SortClick` of the old sort. Filters are unchanged and one query is emitted when a listener is supplied |

## Findings

| source | as written | input that shows it | evidently intended | confidence | as-written member | corrected member |
|---|---|---|---|---|---|---|
| components/data-grid/data-grid.tsx:100 | the edit input is seeded with `String(value \|\| "")`, which turns a cell value of 0 into "" | an editable number or currency cell holding 0 is clicked and then left (blur or Enter). The controlled input still holds its seed "", `parseFloat("")` is NaN, `NaN !== 0`, so `onCellEdit(row, field, NaN)` is called | seed with `String(value ?? "")`, so that leaving a cell that holds a value of its column's kind reports no edit: a finite number whose printed form parses back, in a number or currency column, or a string in a text or date column. The fix does not cover other values. A nullish value seeds "", so a text cell still reports "" and a numeric cell reports NaN. A number or boolean in a text column reports its string form. An infinity in a numeric column reports NaN, because a number input empties its seed "Infinity" | not executed; medium | `Cells.UntouchedZeroReportsNaN` | `Cells.UntouchedBlurReportsNothing` |

The model's cell view (`Cells.ViewOf`) seeds the input with the corrected
`Cells.InputSeed`. `Cells.InputSeedAsWritten` keeps the source's expression.

## Left out

- Cells.ViewOf: seeds the edit input with the corrected `String(value ?? "")`
  (`Cells.InputSeed`), not the source's `String(value || "")` at
  components/data-grid/data-grid.tsx:100. Only the `seed` of the
  `EditInput` view that `Cells.ViewOf` and `Engine.DataGrid.View` give differs
  from the source. `Engine.DataGrid.BlurCell` and `Engine.DataGrid.KeyDownCell`
  take the text at blur as a parameter and never read the seed. The source's
  seed is `Cells.InputSeedAsWritten`. The two seeds differ only for a cell
  holding `0`, `NaN` or `false`.
- Field names are assumed to be ordinary property names. They are neither
  array-index-like keys such as `"2"` nor names inherited from
  `Object.prototype` such as `constructor`, `toString` or `__proto__`.
  JavaScript lists index-like keys first, in ascending numeric order, so
  `FilterObjects.PutPlacement`'s "a new key is appended" does not hold for
  them, and that order is not modelled. `filters[k]` on an inherited name
  reads the inherited member rather than `undefined`, and
  `newFilters["__proto__"] = f` replaces the prototype instead of adding a
  key. `FilterObjects.Get` and `FilterObjects.Put` model own properties only.
- Number parsing and printing (`Number.parseFloat`, number-to-string) are not
  modelled. They are the fields of `JsValues.Runtime`, and no IEEE-754
  behaviour is modelled. A number is finite (a real), NaN or an infinity, which
  is all that `!==` needs. Properties that depend on parsing take it as a
  hypothesis: `FilterPopup.ApplyAfterRemount` and
  `Cells.UntouchedBlurReportsNothing`.
- The pt-BR locale formatters (`Intl.NumberFormat`, `toLocaleDateString`,
  `String(value)`) are not applied. A rendered cell records which formatter
  it goes to and with which value (`Cells.Formatted`).
- A custom `render` function is not called. It is a flag on the column, and a
  rendered cell records `Custom(value, row)`.
- The text in a cell's edit input at blur is a parameter of
  `Engine.DataGrid.BlurCell` and `Engine.DataGrid.KeyDownCell`. React's
  keystroke handling is not modelled. In the source the input is controlled,
  and its `onChange` handler stores nothing. So React puts the input back to
  its `value` after every keystroke, and the text at blur is the seed
  `String(value || "")`, except that a number input (number and currency
  columns) empties a seed that is not a valid number, such as `"Infinity"`.
  No typed edit ever reaches `onCellEdit`. That sanitisation is not modelled. The free
  text parameter therefore also admits runs the source cannot produce.
- Whether a focused input that is removed on Escape also fires a blur is not
  modelled. Escape is modelled as the source's handler says: the pointer is
  cleared and no callback is made.
- The `filterable` and `sortable` flags, the `hasActiveFilter` condition on the
  Clear button, labels, widths, icons and the loading and empty-state
  placeholders are not modelled. They only decide which controls are rendered,
  and the handlers themselves do not check them.
- The header summary text is not modelled. Its count is
  `Engine.DataGrid.ActiveFilterCount`, proved exact by
  `Engine.DataGrid.ActiveFilterCountExact`. The sorted column's header label
  is looked up by `columns.find`, which is presentation.
- Row cells hold only scalar values (undefined, null, boolean, number,
  string). Nested objects and arrays are not modelled.
- The radix checkbox's "indeterminate" state is not modelled. The checked
  value is a boolean.
- The operator labels shown in the select are not modelled. They are display
  text only.
- `DataGridState` and `ColumnSort` (lib/types/data-grid.types.ts:29-31, 53-58)
  are declared in the source but not used by the core. `Option<Direction>`
  stands for `ColumnSort.direction`.
- The host pages, services, authentication and layout are not part of this
  model. They are I/O and presentation.
