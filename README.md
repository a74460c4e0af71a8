# CrossReference: a verified model of a generic two-dimensional lookup table

`CrossReference<TRows, TColumns, TData>` is a cross-reference table. It stores one
value for every pair of a row key and a column key. It keeps three fields:

- `_Rows`, the ordered list of row keys;
- `_Columns`, the ordered list of column keys;
- `_TableData`, a dictionary from row key to a dictionary from column key to value.

Its operations replace a whole axis (`AddColumns`, `AddRows`, their params
overloads, and the `Columns` and `Rows` setters). They rebuild every cell to
`default(TData)` (`RefillTable`), bulk-load keys and cells from a grid (the `Table`
setter), read and write one cell (the indexer), test membership
(`ContainsRowKey`, `ContainsColumnKey`) and empty the table (`Clear`).

The model has four files:

- `wrappers.dfy` (module `Wrappers`): `Option`, which stands for a reference that
  may be null, and `Result` / `Outcome`, which stand for a call that may throw.
- `table_spec.dfy` (module `TableSpec`): the table's state as a value (`State`),
  every operation as a function on it, and the lemmas about those functions.
- `cross_reference.dfy` (module `CrossReferences`): the class `CrossReference`.
  Its fields `rows`, `cols` and `data` are reassigned by its methods. Its loops
  mirror the source's loops, and every method is proved to leave the state that
  the corresponding `TableSpec` function gives.
- `scenarios.dfy` (module `Scenarios`): two clients in the manner of the
  demonstration program, with two small steps factored out of the first. They
  derive the expected cells from the contracts alone.

How the model treats the source:

- **Null.** C# null is `None`. The list arguments are `Option<seq<Option<K>>>`:
  the outer `None` is a null array, and an inner `None` is a null element, which
  is skipped.
- **`default(TData)`.** The constructor takes this value as `dflt`.
- **Exceptions** are `Error` values, one per kind of exception:
  - `NullParameter` is the exception thrown by `AddColumns`/`AddRows` for a null list;
  - `RowKeyUnknown` and `ColumnKeyUnknown` are the two exceptions thrown by the indexer's get;
  - `DuplicateKey` is the exception that `Dictionary.Add` raises for a key already present.
- **Duplicate keys** are not a precondition. The source replaces the axis list and
  then fails partway through the rebuild. The model keeps exactly the state the
  source leaves behind: `Load` records the dictionary built so far, how many rows
  were added, and whether the fill completed. The invariant `Valid()` (every row
  key has an entry, and every entry has exactly the column keys) is promised after
  every successful operation. No operation requires it, because the source does
  not need it.
- **Rebuild conditions.** A rebuild fails exactly when:
  - the row keys repeat; or
  - there is at least one row and the column keys repeat.

  So duplicate columns on a table with no rows go through (`RefilledSpec`).
- **Bulk-load grid.** The grid is typed: a header `seq<Option<C>>` (row 0 from
  column 1 on) and lines `Line(key, cells)` (column 0, then columns 1 and on),
  and it must be rectangular.
  - Null header entries are skipped.
  - Each line's key is appended to the rows before that line's row is filled, so
    after a failure the rows end with the failing key.
  - Cells are read by position: table column `j` gets the line's cell `j`. With a
    null in the header, later cells shift left (`Loaded`). With no null they sit
    under their own header (`LoadedAligned`).
- **Indexer order.** The indexer takes the row key first. A read checks the row
  key before the column key. A write with a missing (non-null) key does nothing.

## Model

| member | source | states |
|---|---|---|
| `TableSpec.Empty` | CrossReference.cs:19-21 | the initial state (no rows, no columns, no data) satisfies the table invariant |
| `TableSpec.NonNull` | CrossReference.cs:131-137 | the filtered list is no longer than the input; it holds exactly the non-null elements of the input |
| `TableSpec.NonNullConcat` | CrossReference.cs:131-137 | filtering distributes over concatenation, so the surviving keys keep their input order |
| `TableSpec.NonNullAllPresent` | CrossReference.cs:244-250 | a list without nulls is kept whole, element by element |
| `TableSpec.BuildRow` | CrossReference.cs:195-200 | filling a row dictionary with `Add` succeeds exactly when the column keys are distinct; on success its keys are the column keys and column `j` holds value `j` |
| `TableSpec.AddLines` | CrossReference.cs:256-270 | a fill adds at most one row per line, and a complete fill adds every line |
| `TableSpec.AddLinesKeys` | CrossReference.cs:191-203 | the outer dictionary's keys are exactly the keys of the lines added so far, and those keys are distinct |
| `TableSpec.AddLinesRows` | CrossReference.cs:191-203 | every added line's key maps to the row dictionary built from that line's cells |
| `TableSpec.AddLinesComplete` | CrossReference.cs:199-202 | a fill completes exactly when the line keys are distinct and, if there is any line, the column keys are distinct |
| `TableSpec.AddLinesFull` | CrossReference.cs:256-270 | after a complete fill the dictionary has the table's shape over the line keys and the column keys, and line `i`'s cell `j` sits under (key `i`, column `j`) |
| `TableSpec.AddLinesFirstFailure` | CrossReference.cs:256-270 | an incomplete fill stops at a line that exists, the first one whose add fails: its row repeats a column key, or its key is an earlier line's key |
| `TableSpec.AddLinesStops` | CrossReference.cs:191-203 | once a prefix of the lines fails, the later lines are never looked at (an exception ends the loop) |
| `TableSpec.RefilledSpec` | CrossReference.cs:187-204 | about the value-level rebuild `Refilled`: a rebuild completes exactly when the rows are distinct and, if there are rows, the columns are; it then has the table's shape; every cell it holds, complete or not, is the default value |
| `TableSpec.ReplaceColumnsSpec` | CrossReference.cs:121-149 | about `ReplaceColumns`: replacing the columns gives the non-null list as columns and keeps the rows; it succeeds exactly when the rows are distinct and (no rows or the new columns are distinct); every cell is wiped to default |
| `TableSpec.ReplaceRowsSpec` | CrossReference.cs:156-182 | about `ReplaceRows`: replacing the rows gives the non-null list as rows and keeps the columns; it succeeds exactly when the new rows are distinct and (no rows or the columns are distinct); every cell is wiped to default |
| `TableSpec.ParamsList` | CrossReference.cs:92-99 | the params overload's list filters to the first key (if not null) followed by the filtered rest |
| `TableSpec.LoadedSpec` | CrossReference.cs:229-273 | about `Loaded` and `LoadSucceeds`: a bulk load succeeds exactly when the line keys are distinct and (no lines or the header keys are distinct); on success the rows are the line keys in order, the table is shaped, and line `i`'s cell `j` is stored under (key `i`, column `j`) |
| `TableSpec.LoadedAligned` | CrossReference.cs:244-266 | after a successful load, with no null in the header, every loaded cell is stored under the column key written above it |
| `TableSpec.LookupShaped` | CrossReference.cs:286-303 | about the indexer's read `Lookup`: on a shaped table a read fails with RowKeyUnknown for an unknown row (checked first), then with ColumnKeyUnknown for an unknown column, and otherwise returns the stored cell |
| `TableSpec.StoreLookup` | CrossReference.cs:304-310 | about the indexer's write `Store`: read after write returns the new value when both keys exist; every other cell reads as before; with either key missing the dictionary is unchanged |
| `TableSpec.StoreShaped` | CrossReference.cs:304-310 | a write keeps the key lists and the table's shape |
| `CrossReferences.FillRow` | CrossReference.cs:195-200 | the inner loop builds exactly the row that `BuildRow` describes, failing at the first repeated column key |
| `CrossReferences.CopyNonNull` | CrossReference.cs:127-137 | the copy loop yields exactly the non-null elements in order |
| `CrossReferences.CrossReference.constructor` | CrossReference.cs:26-28 | a new table is empty and valid, with the given default value |
| `CrossReferences.CrossReference.WithRows` | CrossReference.cs:34-37 | null list fails with NullParameter; otherwise the table is the empty table after `AddRows`, or DuplicateKey when that rebuild fails; on success valid with every cell default |
| `CrossReferences.CrossReference.WithRowsAndColumns` | CrossReference.cs:44-48 | either list null fails with NullParameter; otherwise the table is the empty table after `AddColumns` then `AddRows`, or DuplicateKey; on success valid with every cell default |
| `CrossReferences.CrossReference.Clear` | CrossReference.cs:53-60 | rows, columns and data become empty; the table is valid; no key is contained on either axis |
| `CrossReferences.CrossReference.RefillTable` | CrossReference.cs:187-204 | the dictionary becomes the rebuild of the current rows and columns (partial up to the failing add), and the result says whether it completed; rows and columns do not change |
| `CrossReferences.CrossReference.AddColumns` | CrossReference.cs:121-149 | null list: NullParameter, state unchanged; otherwise columns replaced by the non-null elements (not appended), rows kept, data rebuilt, result the column count or DuplicateKey; on success valid with all cells default |
| `CrossReferences.CrossReference.AddRows` | CrossReference.cs:156-182 | null list: NullParameter, state unchanged; otherwise rows replaced by the non-null elements, columns kept, data rebuilt, result the row count or DuplicateKey; on success valid with all cells default |
| `CrossReferences.CrossReference.AddColumnsParams` | CrossReference.cs:92-99 | behaves as `AddColumns` on `[first] + rest`; never NullParameter |
| `CrossReferences.CrossReference.AddRowsParams` | CrossReference.cs:107-114 | behaves as `AddRows` on `[first] + rest`; never NullParameter |
| `CrossReferences.CrossReference.SetColumns` | CrossReference.cs:65-72 | the Columns setter is `AddColumns` on the (non-null) list with the count dropped |
| `CrossReferences.CrossReference.SetRows` | CrossReference.cs:77-84 | the Rows setter is `AddRows` on the (non-null) list with the count dropped |
| `CrossReferences.CrossReference.ContainsColumnKey` | CrossReference.cs:211-214 | true exactly when the key occurs in the column list; on a valid table, each row dictionary has the key exactly when the result is true |
| `CrossReferences.CrossReference.ContainsRowKey` | CrossReference.cs:221-224 | true exactly when the key occurs in the row list; on a valid table, exactly when the dictionary has it |
| `CrossReferences.CrossReference.SetTable` | CrossReference.cs:229-273 | the state becomes `Loaded(grid)`: empty for a null grid, else columns from the header, rows and cells line by line up to the first failing add; Pass exactly when the load succeeds, and then valid |
| `CrossReferences.CrossReference.LoadLines` | CrossReference.cs:256-270 | the grid's line loop leaves the dictionary of `AddLines` and reports whether it completed; the rows are all the line keys after a complete fill, and otherwise the keys up to and including the failing line |
| `CrossReferences.CrossReference.Get` | CrossReference.cs:286-303 | RowKeyUnknown exactly when the row has no entry, else ColumnKeyUnknown exactly when the column has none; whenever both keys have entries, the stored cell, on any table, valid or not; on a valid table the same in terms of the key lists |
| `Scenarios.FlagTable` | CrossReference.cs:44-48 | the constructor with two distinct row keys and two distinct column keys succeeds: a fresh valid table with exactly those keys, every cell at the default |
| `Scenarios.ReplaceWithOneColumn` | CrossReference.cs:65-72 | the Columns setter given one null and one key, on a valid table with distinct rows, succeeds: that key is the only column, the rows stay, every cell is back at the default |
| `CrossReferences.CrossReference.Set` | CrossReference.cs:304-310 | the cell is written when both keys exist and a later read returns the new value; all other reads are unchanged; with a missing key the data is unchanged; validity is unchanged |

## Left out

- Program.cs, the demonstration program with console output, is not part of this model. Program.cs is a caller only; `scenarios.dfy` follows two of its uses.
- The object grid's runtime casts and unboxing exceptions (`(TColumns)`, `(TRows)`, `(TData)` from `object`) are left out: the grid is typed.
- A null row key in column 0 of the grid is left out. The row keys are taken without filtering; a null one is appended to `_Rows`, and then `Dictionary.Add` throws ArgumentNullException. The model's line keys are non-null `R` values. So, although the row keys are not filtered, a null row key is never stored.
- Grids of height 0 or width 0 are left out. The typed grid always has a header row and a key column. On an object grid of height 0 and width above 1, or of width 0 and height above 1, the source throws IndexOutOfRangeException.
- A null list given to the `Columns`/`Rows` setters (a NullReferenceException from `ToArray`) is left out, and so is an explicit null params array in the params overloads: those members take a non-null `seq`.
- The `Columns`/`Rows` getters return the live `List` objects. A caller can mutate those lists and break the invariant. The model exposes the fields as values and does not model that aliasing.
- Each row dictionary is a separate object that the indexer's setter mutates in place. No two rows share one, so the model keeps rows as map values.
- Dictionary hashing and `EqualityComparer` are left out: key equality is Dafny's `==`. The "always false" null test on value-type keys is modelled like any other null, as `None`.
- Exception message texts are not modelled (including the .NET text of `DuplicateKey`); only the kind of error is.
- `Get`, `Set`: a null key passed to the indexer is left out. Both get and set call `Dictionary.ContainsKey(null)`, which throws ArgumentNullException. So a write with a null key throws rather than doing nothing. The model's keys are non-null `R`/`C` values. `ContainsRowKey`, `ContainsColumnKey`: the same holds for them; there `List.Contains(null)` does not throw, and is true only after a bulk load with a null row key (left out above) has appended that null to the rows.
- The source has no read-back of the whole grid (the `Table` property has only a setter), so no grid getter is modelled.
- `[DefaultProperty]`, namespaces, the `double` values of the demonstration and thread safety are not modelled. The class is single-threaded.
