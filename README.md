# sheetToKV: spreadsheets to Dota KV text

`sheetToKV` is a gulp plugin. It turns every sheet of an Excel workbook into a
Dota 2 KeyValues text file. The note row and the title row (`key_row`) describe
the columns. Every data row below them becomes one KV object, named after the
row's first cell (its main key). Each column's header decides what that column
does. It may:

- be skipped (a blank header, `_name`, `_desc`, or a blank cell);
- open or close a nested block (`foo[`, `foo{`, `]`, `…}`), tracked on the
  `listValuesBlock` stack;
- enter or leave the `AttachWearables[ … ]` block, whose cells become
  `"Wearable<header>" { "ItemDef" "<cell>" }` blocks;
- record a localization entry instead of KV (`#Loc…` headers and the header
  `#ValuesLoc`), pushed onto the plugin's `locTokens` list;
- write a `"key" "value"` line, a `{…}` value as it is, or a `k`/`v` fragment.

Cells go through `deal_with_kv_value`. On the first data row, a column with a
note gets a `// note` comment (`deal_cell_note`). After the walk, a pass
deletes every line that opens a container when the line after it closes that
container, so empty blocks disappear, including nested ones.

`convert` handles a whole sheet:

- If a main key occurs more than once, each consecutive run of its rows goes
  into one `"key" { … }` object, and the rows in the run are numbered from 1.
- A title row of exactly two cells takes a fast path instead: one
  `\t"<a>" "<b>"` line per row.
- The name of the root object comes from markers in the body (`DOTAHeroes`,
  `DOTAUnits`, `DOTAItems`, `DOTAAbilities`). Without a marker, the sheet
  name is used.
- Every output path is listed in `genratedFiles`. A path written twice throws.

The model is split into these modules:

- `JsString`: the JavaScript string operations the code uses.
- `SheetTypes`: cells, options and localization entries.
- `KvValue`: `deal_with_kv_value`.
- `RowEmitter`: the per-column specification of `convert_row_to_kv`.
- `Collapse`: the pass that deletes empty containers.
- `MainKeyGrouping`: counting main keys, then the grouping state machine,
  proved equal to a reference plan built from runs of equal keys.
- `SheetOutput`: the fast path, the root-object name, the file text and the
  conversion of one sheet.
- `Workbook`: the loop over the sheets, with the duplicate check.
- `Plugin`: the class `SheetToKV`. It holds the two lists that live as long as
  the plugin (`locTokens`, `generatedFiles`). Its imperative methods are proved
  against the functions above.

Four consequences of the code, spelled out:

- The fast path is taken when the title row has exactly two cells
  (`key_row.length == 2`).
- Take a title row `id, items[, item, weight, ]` with two rows sharing the main
  key `x`. The code writes `"x" { "1" { "items" { … } } "2" { "items" { … } } }`:
  each numbered row holds its own `items` block.
- On a duplicate output name, the code throws inside the loop over the sheets.
  The model stops the workbook with `DuplicatedKVFile`. The files already
  passed on stay written, and so do the entries already recorded.
- Under the header `#ValuesLoc`, the name of an entry falls back to the header
  itself, because `isNaN(Number("#ValuesLoc"))` always holds. The
  `unknown_var_<n>` names are therefore never produced, and
  `RowEmitter.VarIndexStaysZero` proves it.

## Model

| member | source | states |
|---|---|---|
| JsString.IndexOf | src/sheetToKV.ts:226 | `includes`/`indexOf`: the result is an occurrence of the pattern with none before it; None exactly when the pattern occurs nowhere |
| JsString.ReplaceFirstSpec | src/sheetToKV.ts:229 | `replace` with a string pattern leaves a text in which the pattern occurs nowhere unchanged, and otherwise replaces the earliest occurrence and keeps everything before and after it |
| JsString.ReplaceFirstAtStart | src/sheetToKV.ts:229 | a pattern the text starts with is cut from the front |
| JsString.TrimStartSpec | src/sheetToKV.ts:217 | `trimStart` leaves the longest suffix that does not start with whitespace and removes only whitespace |
| JsString.TrimEndSpec | src/sheetToKV.ts:228 | `trimEnd` leaves the longest prefix that does not end with whitespace and removes only whitespace |
| JsString.TrimEmptyIff | src/sheetToKV.ts:228 | `cell.trim() === ''` holds exactly when the cell is all whitespace |
| JsString.FirstToken | src/sheetToKV.ts:247-248 | `split(' ')[0]` is a prefix holding no space, followed by a space when it is not the whole text |
| JsString.SplitJoin | src/sheetToKV.ts:436 | splitting a `join` at its separator gives back the parts, when no part holds the separator |
| JsString.RepeatAdd | src/sheetToKV.ts:165 | `repeat(a + b)` is `repeat(a)` followed by `repeat(b)` |
| JsString.NatToString | src/sheetToKV.ts:170 | the text of an element number is a non-empty run of decimal digits whose value is the number, with a leading `0` only for 0 |
| SheetTypes.IndentUnit | src/sheetToKV.ts:165 | the indentation unit (the `indent` option, or a tab when that is empty) is never empty |
| SheetTypes.Indent | src/sheetToKV.ts:165 | `n` levels of indentation are `n` units long |
| SheetTypes.IndentDeeper | src/sheetToKV.ts:279-308 | one level deeper is the same indentation plus one unit |
| KvValue.DealWithKvValue | src/sheetToKV.ts:95-109 | an undefined cell gives `""`; a text outside the numeric pattern comes back unchanged; a text inside it is reformatted exactly when its decimal text has a non-zero digit after the point (see "Left out" for the double's exceptions); in every case a result equal to the `forceEmptyToken` sentinel becomes `""` |
| KvValue.NumericPatternMatchesRegex | src/sheetToKV.ts:96 | the numeric test accepts exactly the texts that `/^[0-9]+.?[0-9]*$/` matches (digits, at most one non-line-terminator, digits) |
| KvValue.IntegerTextUnchanged | src/sheetToKV.ts:96-108 | a run of digits other than the sentinel is written back unchanged (`number % 1 === 0`); a run too long for a double is the overflow exception under "Left out" |
| KvValue.ZeroFractionUnchanged | src/sheetToKV.ts:96-101 | a decimal whose fractional digits are all `0` is an integer to `parseFloat` and comes back unchanged |
| KvValue.OtherSeparatorUnchanged | src/sheetToKV.ts:96-101 | digits split by one character other than `.` match the pattern and come back unchanged: `parseFloat` reads a whole number (the digits before a separator such as `,`, or `dEn` for `e`) |
| KvValue.RealFractionReformatted | src/sheetToKV.ts:96-101 | a decimal with a non-zero fractional digit matches the pattern and goes through the four-digit formatter |
| KvValue.UnchangedNumberExamples | src/sheetToKV.ts:96-101 | `"3.0"`, `"1e5"` and `"12,5"` come back unchanged |
| KvValue.NormalisationExamples | src/sheetToKV.ts:95-109 | `"3"` stays `"3"`, `"3.5"` goes through the four-digit formatter, `__empty__` becomes `""` |
| Collapse.DeletePairs | src/sheetToKV.ts:342-355 | the splice loop with its back-step computes the stack reduction of the lines, for any pair test |
| Collapse.ScanDelete | src/sheetToKV.ts:348-352 | splicing out a pair and stepping back one line keeps the loop's state: the lines before the index are the reduction's stack |
| Collapse.ScanKeep | src/sheetToKV.ts:342-345 | moving past a line that completes no pair keeps the loop's state |
| Collapse.CollapseEmptyContainers | src/sheetToKV.ts:342-355 | the pass on `row_cells` gives exactly `Collapsed` of its input |
| Collapse.ReduceKeepsNoPair | src/sheetToKV.ts:342-355 | the reduction never creates an adjacent pair on a stack that has none |
| Collapse.CollapsedHasNoEmptyPair | src/sheetToKV.ts:348 | afterwards no line ending in `{` (trimmed) is followed by a line that trims to `}`, including pairs formed by a deletion |
| Collapse.ReduceUnchanged | src/sheetToKV.ts:342-355 | lines with no pair go through unchanged |
| Collapse.CollapsedUnchangedWhenNoEmptyPair | src/sheetToKV.ts:342-355 | a row without empty containers is left as it is |
| Collapse.CollapseIdempotent | src/sheetToKV.ts:342-355 | a second pass deletes nothing |
| Collapse.ReduceSelects | src/sheetToKV.ts:349-350 | the result is the input with some elements left out, in order, and every element left out has any property that both elements of every pair have |
| Collapse.CollapsedIsSubsequence | src/sheetToKV.ts:349-350 | the pass only deletes: its result is a subsequence of the lines, and every line dropped opens or closes a container |
| Collapse.ReduceDeletesEvenly | src/sheetToKV.ts:349-350 | the reduction never grows and deletes an even number of elements |
| Collapse.CollapsedDeletesPairs | src/sheetToKV.ts:349-350 | lines are deleted two at a time |
| RowEmitter.InitialState | src/sheetToKV.ts:145-153 | the walk starts with an empty stack, outside the wearables block, at level one (two for a grouped row) |
| RowEmitter.Shift | src/sheetToKV.ts:285-300 | `shift` takes one element off a non-empty stack and leaves an empty one empty |
| RowEmitter.NoteAt | src/sheetToKV.ts:184-187 | a column has a note exactly when its note cell is present and not blank after trimming, and the note is that cell as it is |
| RowEmitter.CellNote | src/sheetToKV.ts:120-131 | `deal_cell_note`: the indentation and the key, with a newline unless it is suppressed; on the first data row a present note puts exactly one `// note` line in front of that |
| RowEmitter.CellNoteShape | src/sheetToKV.ts:120-131 | every `deal_cell_note` text starts with its indentation and ends with its key (and newline) |
| RowEmitter.ColumnState | src/sheetToKV.ts:159-337 | after every column the level is still at least one, and at least two inside the wearables block |
| RowEmitter.ColumnEntries | src/sheetToKV.ts:226-273 | a column records at most one entry, and only after the first column, under a localization header, with a non-blank cell |
| RowEmitter.ValuesLocEntries | src/sheetToKV.ts:252-271 | a `#ValuesLoc` cell records at most one entry |
| RowEmitter.WalkColumns | src/sheetToKV.ts:159-338 | the walk over the columns keeps the level invariant throughout |
| RowEmitter.SkippedColumn | src/sheetToKV.ts:164-182 | a column without a header, or a `_name`/`_desc` column after the first, writes nothing, records nothing and changes nothing |
| RowEmitter.MainKeyOpensRow | src/sheetToKV.ts:167-177 | the first column raises the level and opens `"<main key or element number>" {`, with a `// <row[1]>` comment line in front exactly when the second header is `_name` or `_desc` |
| RowEmitter.MainKeyLineShape | src/sheetToKV.ts:170-176 | the row's opening line ends with `"<name>" {` at the current depth and starts with a `// <row[1]>` comment line exactly when the second header is `_name` or `_desc` |
| RowEmitter.WearablesBlockOpens | src/sheetToKV.ts:190-196 | `AttachWearables[` enters the wearables block one level deeper and opens `"AttachWearables" {` |
| RowEmitter.WearablesBody | src/sheetToKV.ts:209-223 | inside the wearables block every non-blank cell is written as a wearable, whatever its header (even a `#Loc` one), and records nothing |
| RowEmitter.WearableItemDef | src/sheetToKV.ts:221-222 | a wearable that is not an inline block becomes `"Wearable<header>" { "ItemDef" "<cell>" }` one level deeper |
| RowEmitter.WearablesBlockCloses | src/sheetToKV.ts:198-203 | `]` inside the block leaves it, drops the level and writes `}` at the block's indentation |
| RowEmitter.LocColumnRecordsEntry | src/sheetToKV.ts:226-237 | a `#Loc` column writes no KV and records its cell, unless blank or whitespace only, under the header with the first `#Loc` cut and the first `{}` replaced by the main key |
| RowEmitter.LocColumnExample | src/sheetToKV.ts:226-237 | with main key `hero1`, `#Loc{}_Lore` records the cell under `hero1_Lore` |
| RowEmitter.ValuesLocHeaderIsNotLoc | src/sheetToKV.ts:226-240 | `#ValuesLoc` does not contain `#Loc`, so it reaches its own branch |
| RowEmitter.ValuesLocHeaderIsNotNumber | src/sheetToKV.ts:244-246 | `Number("#ValuesLoc")` is NaN, so the header is always a usable label |
| RowEmitter.ValuesLocHeaderClass | src/sheetToKV.ts:226-240 | outside the wearables block, or with a blank cell, the header `#ValuesLoc` takes the `#ValuesLoc` branch |
| RowEmitter.ValuesLocEntriesSpec | src/sheetToKV.ts:240-273 | the label is the cell's first word unless that word is a number, otherwise `#ValuesLoc`; the word and its space are cut from the text; the entry `DOTA_Tooltip_ability_<main key>_<label>` is recorded unless the text is blank |
| RowEmitter.ValuesLocColumnRecordsEntry | src/sheetToKV.ts:240-273 | a `#ValuesLoc` column writes no KV, changes no state, records nothing for a blank cell and otherwise the entry above |
| RowEmitter.ValuesLocHasLabel | src/sheetToKV.ts:244-255 | under `#ValuesLoc` the label is never empty |
| RowEmitter.ColumnKeepsVarIndex | src/sheetToKV.ts:252-255 | no column moves the `unknown_var_` counter |
| RowEmitter.VarIndexStaysZero | src/sheetToKV.ts:252-255 | the counter stays at zero over the whole row: `unknown_var_<n>` is never generated |
| RowEmitter.OpenHeaderClass | src/sheetToKV.ts:277-296 | a header ending in `[` or `{` (not wearables, not localization) takes the open-block branch with that bracket |
| RowEmitter.OpenLineShape | src/sheetToKV.ts:277-296 | an opening line starts at its depth and ends with `" {` and a newline |
| RowEmitter.OpenHeaderPushes | src/sheetToKV.ts:277-296 | an opening header pushes itself onto the stack, records nothing, and writes `"<header without its first bracket>" {` (with its note on the first data row) at exactly the depth the stack had before the push |
| RowEmitter.CloseHeaderClass | src/sheetToKV.ts:284-303 | `]` and headers ending in `}` take the close-block branch |
| RowEmitter.CloseHeaderPops | src/sheetToKV.ts:284-303 | a closing header pops the stack (an empty one stays empty) and writes `}` at the depth after the pop |
| RowEmitter.OpenBlocks | src/sheetToKV.ts:277-303 | the blocks a run of headers leaves open are never more than the run has columns |
| RowEmitter.WalkStateIsState | src/sheetToKV.ts:159-338 | the state the walk reaches after n columns is the state computed column by column without the lines and entries |
| RowEmitter.OpenColumnState | src/sheetToKV.ts:277-296 | outside the wearables block, an opening header pushes itself and changes nothing else |
| RowEmitter.CloseColumnState | src/sheetToKV.ts:284-303 | outside the wearables block, a closing header pops the stack and changes nothing else |
| RowEmitter.OtherColumnKeepsState | src/sheetToKV.ts:164-336 | outside the wearables block, every other header after the first (localization, ordinary, skipped) leaves the state unchanged |
| RowEmitter.InsideColumnState | src/sheetToKV.ts:277-336 | with blocks b open above a stack, one column pushes its opening header onto b, pops b for a closing header, and otherwise leaves b; the stack below b is untouched |
| RowEmitter.WalkInsideBlock | src/sheetToKV.ts:277-336 | over a run of columns that never closes more blocks than it opened and never enters the wearables block, the walk's stack is the run's own open blocks on top of the stack it started from, and nothing else in the state changes |
| RowEmitter.OpenAndCloseAlign | src/sheetToKV.ts:277-336 | over the walk of a row, a block opened at one column and closed at a later one, the columns between being any mix of ordinary, localization and nested block columns that closes every block it opens: the opening line is at depth d, every column inside sees its own open blocks on top of the header, the `}` is at exactly depth d, and the state after the close is the state before the open |
| RowEmitter.NestedBlocksExample | src/sheetToKV.ts:277-303 | in the title row `id, a{, b{, x, }, }` both blocks are balanced runs, so the outer `}` matches `a{` and the inner one matches `b{` |
| RowEmitter.PlainColumnsKeepState | src/sheetToKV.ts:305-336 | ordinary columns outside the wearables block leave the walk's state unchanged |
| RowEmitter.BlockBodyIsDeeper | src/sheetToKV.ts:277-336 | a non-blank ordinary column inside a block writes its line at exactly the opening line's indentation plus one unit |
| RowEmitter.PlainHeaderClass | src/sheetToKV.ts:305-307 | an ordinary header is skipped when its cell is blank and it is not `AbilityN`; otherwise it is written as a value |
| RowEmitter.ValueLineStarts | src/sheetToKV.ts:308-336 | the line of an ordinary header starts at the depth of the stack |
| RowEmitter.PlainValueLine | src/sheetToKV.ts:308-336 | for an ordinary header the value line is an inline `{…}` block after the key, or `"key" "value"` with its note, at exactly the depth of the stack |
| RowEmitter.PlainColumnLine | src/sheetToKV.ts:305-336 | an ordinary column changes no state and records nothing; it writes no line exactly when its cell is blank and the header is not `AbilityN`, otherwise the line of its normalised cell at exactly the current depth |
| RowEmitter.AbilityColumnAlwaysWritten | src/sheetToKV.ts:305-336 | an `AbilityN` column with a blank cell still writes `"AbilityN" ""` |
| RowEmitter.EntriesBoundedByLocColumns | src/sheetToKV.ts:226-273 | a row records at most as many entries as it has non-blank localization columns |
| RowEmitter.NoLocHeadersNoEntries | src/sheetToKV.ts:226-273 | under a title row with no localization header a row records nothing |
| RowEmitter.RowLinesHaveNoEmptyBlock | src/sheetToKV.ts:338-358 | the lines a row is written from hold no empty block |
| MainKeyGrouping.MainKeyOf | src/sheetToKV.ts:442-456 | a row has a main key exactly when its first cell is not blank |
| MainKeyGrouping.CountMainKeys | src/sheetToKV.ts:440-449 | `mapMainKey` holds exactly the main keys that occur, each with its number of rows |
| MainKeyGrouping.RunsAreWellFormed | src/sheetToKV.ts:455-481 | the runs are non-empty, hold rows of their own key in order, and consecutive runs have different keys |
| MainKeyGrouping.RunsCoverKeyedRows | src/sheetToKV.ts:455-481 | the runs hold exactly the rows that have a main key, in order |
| MainKeyGrouping.ClosedMeansNewRun | src/sheetToKV.ts:461-477 | with no group open, a keyed row always starts a new run |
| MainKeyGrouping.GroupExtend | src/sheetToKV.ts:467-473 | a row with the open group's key becomes the group's next numbered element |
| MainKeyGrouping.GroupStart | src/sheetToKV.ts:461-473 | a row starting a run of a repeated key closes any open group and opens `"key" {` with element 1 |
| MainKeyGrouping.GroupSingle | src/sheetToKV.ts:461-477 | a row whose key occurs once closes any open group and is written unwrapped |
| MainKeyGrouping.GroupRow | src/sheetToKV.ts:456-481 | the callback's update of `current_mainkey` and `index` extends the output so that, with any close still owed, it is the reference plan of the rows so far |
| MainKeyGrouping.PlannerSkip | src/sheetToKV.ts:456 | a row without a main key writes nothing and changes nothing |
| MainKeyGrouping.PlannerDone | src/sheetToKV.ts:482-484 | the trailing close completes the plan |
| MainKeyGrouping.PlanMainKeyGroups | src/sheetToKV.ts:440-486 | both passes together write exactly the reference plan: each run of a repeated key wrapped and numbered from 1, every other row unwrapped |
| MainKeyGrouping.PlanWritesKeyedRowsInOrder | src/sheetToKV.ts:455-486 | every row with a main key is converted exactly once and in sheet order, and no row without one is converted |
| MainKeyGrouping.PlanIsBalanced | src/sheetToKV.ts:461-484 | groups never nest and each is closed; rows inside a group are array elements and rows outside are not |
| MainKeyGrouping.PlanArrayFlag | src/sheetToKV.ts:467-479 | a converted row is an array element exactly when its main key occurs more than once |
| MainKeyGrouping.SplitRunsExample | src/sheetToKV.ts:455-484 | rows `a, b, a` give two separate `"a"` groups, each numbered from 1, with `b` unwrapped between them |
| SheetOutput.SimpleKVBodyLines | src/sheetToKV.ts:432-436 | the fast-path body splits back into exactly those lines when no cell of the two columns holds a line break |
| SheetOutput.FastPathBody | src/sheetToKV.ts:432-437 | on the fast path the body ignores the note row, is named after the sheet and records nothing |
| SheetOutput.FastPathNamedAfterSheet | src/sheetToKV.ts:432-437 | a sheet whose title row has two cells, with `autoSimpleKV` on, converts to the fast-path body named after the sheet, and records nothing |
| SheetOutput.ContainerName | src/sheetToKV.ts:488-498 | the root object is named `DOTAHeroes`, `DOTAUnits`, `DOTAItems`, `DOTAAbilities` or the sheet |
| SheetOutput.ContainerNameByMarker | src/sheetToKV.ts:488-498 | for every sheet name, the first marker present (`override_hero`, `AttackCapabilities`, `BaseClass` with an item or ability class, in that order) gives its name, and no marker gives the sheet name |
| SheetOutput.ContainerNameChoice | src/sheetToKV.ts:488-498 | for a sheet not itself named `DOTAHeroes`, `DOTAUnits`, `DOTAItems` or `DOTAAbilities`, also the converse: each name is chosen only when its marker is present and no earlier one is, and the sheet name only when none is |
| SheetOutput.SheetNamedLikeMarker | src/sheetToKV.ts:488-498 | why the converse needs that condition: a sheet named `DOTAUnits` with no marker in its body is named `DOTAUnits` |
| SheetOutput.NoLocHeadersNoPlanEntries | src/sheetToKV.ts:455-486 | a sheet whose title row has no localization header records nothing |
| SheetOutput.OutputWrapsBody | src/sheetToKV.ts:502-511 | the file ends with `"<file_name>" {` … `}` holding the body as it is |
| SheetOutput.ConvertSheetSpec | src/sheetToKV.ts:379-521 | a written sheet goes to `<sheet><kvFileExt>` joined to the workbook's directory; the only failure before the duplicate check is a missing header row |
| SheetOutput.ConvertSheetCases | src/sheetToKV.ts:381-427 | a sheet fails exactly when it is not ignored, not empty and lacks a header row; it is written exactly when it is not ignored and has its header rows and a data row |
| SheetOutput.ConvertedSheet | src/sheetToKV.ts:414-513 | such a sheet converts to the body, root-object name and entries of its data rows |
| Workbook.AppendNewKeepsNoDuplicates | src/sheetToKV.ts:520-523 | appending a name that is not listed keeps the list free of duplicates |
| Workbook.RunKeepsNoDuplicates | src/sheetToKV.ts:517-523 | a list of output names without duplicates keeps none over a workbook |
| Workbook.RunRecordsFiles | src/sheetToKV.ts:517-523 | the list only grows, by the names of the files written, once each and in order; a duplicate that stops the workbook was already listed |
| Workbook.RunWritesSubsequence | src/sheetToKV.ts:378-536 | the files written are conversions of the sheets, taken in sheet order |
| Workbook.CleanRunWritesAll | src/sheetToKV.ts:378-536 | sheets that all convert, to distinct names not yet written, are all written, with no error |
| Workbook.FailureStops | src/sheetToKV.ts:378-536 | a failing sheet stops the workbook: nothing after it is written or recorded |
| Workbook.RunWorkbookRecordsFiles | src/sheetToKV.ts:378-536 | over a workbook, the output list grows by exactly the names written and never holds a name twice |
| Plugin.SheetToKV.constructor | src/sheetToKV.ts:72 | a new plugin has no entries and no output files |
| Plugin.SheetToKV.MapColumn | src/sheetToKV.ts:159-337 | the callback for one column yields the specified line, the specified new stack, level, wearables flag and counter, and pushes the column's entries |
| Plugin.SheetToKV.LayoutColumn | src/sheetToKV.ts:164-336 | every column other than a localization column yields the specified line and the specified new stack, level and wearables flag |
| Plugin.SheetToKV.HarvestLoc | src/sheetToKV.ts:226-273 | a localization column pushes exactly its specified entries and updates the counter as specified |
| Plugin.SheetToKV.WalkRow | src/sheetToKV.ts:143-338 | the mapped and filtered lines of a row, and the entries it pushes, are those of the specified walk |
| Plugin.SheetToKV.ConvertRowToKV | src/sheetToKV.ts:112-359 | `convert_row_to_kv` returns the row's collapsed lines joined, with the closing tail, and pushes the row's entries |
| Plugin.SheetToKV.ConvertPiece | src/sheetToKV.ts:461-483 | a group's opening and closing lines sit one unit in; a row piece is its converted row |
| Plugin.SheetToKV.ConvertRows | src/sheetToKV.ts:451-486 | the grouped body is the plan's pieces in order, and the entries pushed are those of its rows in order |
| Plugin.SheetToKV.RegisterOutput | src/sheetToKV.ts:517-523 | a name already listed is refused and the list left alone; a new name is appended once; the list never holds a name twice |
| Plugin.SheetToKV.SheetContents | src/sheetToKV.ts:429-499 | the fast-path or grouped body, the root-object name and the entries pushed are those specified for the sheet |
| Plugin.SheetToKV.ReadSheet | src/sheetToKV.ts:379-427 | a sheet is skipped, fails or converts as specified, and pushes the entries of its conversion |
| Plugin.SheetToKV.ReadRows | src/sheetToKV.ts:414-516 | a sheet with header rows and data rows converts, and its entries are pushed |
| Plugin.SheetToKV.ConvertSheet | src/sheetToKV.ts:379-527 | the conversion, or the duplicate error when the name was written before; the output list grows by the name exactly when the file is written |
| Plugin.SheetToKV.ConvertWorkbook | src/sheetToKV.ts:378-536 | the sheets in order until one fails: the files, error, output list and entries of the specified workbook run, with no name listed twice |

## Left out

- Transliteration of Chinese text to pinyin (`convert_chinese_to_pinyin`, `customPinyin`, `aliasList`) depends on a foreign library. The model assumes `chineseToPinyin` is off and takes sheet names as already transliterated. So `sheetsIgnore` sees the transliterated name in the model, whereas the source tests the raw name (line 381) before transliterating it (line 398).
- KvValue.DealWithKvValue: `parseFloat(v).toFixed(4)` is the parameter `formatDecimal`, and the text `toFixed` produces is not modelled. Which texts go through it is modelled only for numbers a double holds exactly. `HasFraction` reads the decimal text, but the source tests the parsed double (`number % 1 !== 0`). There are two exceptions:
  - Overflow: a text beyond double range, such as `"1e400"` or a run of 309 or more digits, parses to `Infinity`. `Infinity % 1` is NaN, so the source writes `"Infinity"`. The model returns the text unchanged.
  - A fraction lost to rounding: `"1.0000000000000000001"` and `"12345678901234567.5"` parse to whole doubles, so the source keeps the text. The model sends them to `formatDecimal`.
- `$` patterns in a `replace` replacement string are not interpreted. A main key holding `$&` or `$$` would be written as it is.
- JavaScript `null` and `undefined` cells are one `Missing` case, treated as `undefined`.
  - A `null` cell in a header row would make `toString()` throw; the model reads it as `""`, like a hole.
  - `deal_with_kv_value(null)` returns `null` (line 108). So a blank `AbilityN` cell that is `null` is written `"AbilityN" "null"`; the model writes `"AbilityN" ""`.
  - A `null` first or second cell is written `null` in the fast-path line (434) and in the main-key comment (172); the model writes `undefined` there.
- Numeric cells are taken as their decimal text; the spreadsheet reader's number-to-text conversion is not modelled.
- Reading workbook bytes (`xlsx.parse`), the stream and Vinyl glue (`isNull`, `isStream`, the temp-file and extension checks, `this.push`, `next`) and the CSV sink `pushNewLinesToCSVFile` are I/O. `locTokens` is modelled as the list the sink receives.
- `sheetsIgnore` (a regular expression) and `path.join` are parameters of the options (`sheetsIgnore`, `joinPath`).
- `checkSpace` and the other console output are logging only, and are left out.
- The CRLF `replace` at line 526 discards its result, so it does nothing and is left out.
- The `TypeError` thrown when `keyRowNumber` points outside the sheet is modelled as the error `MissingHeaderRow`. A thrown error ends the workbook in the model. What the stream does with it afterwards is not modelled.
