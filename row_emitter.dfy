/** `convert_row_to_kv`: one data row walked against the title row, column
    by column.  Each column yields at most one text fragment (a "line",
    possibly several physical lines) and at most one localization entry,
    and updates the walk's variables. */
module RowEmitter {
  import opened JsString
  import opened SheetTypes
  import opened KvValue
  import opened Collapse

  /** The arguments of `convert_row_to_kv`: the data row, its index among
      the data rows, the note row, the title row (`key_row`), whether the
      row is an element of a grouped main key, and its element number. */
  datatype RowInput = RowInput(
    row: seq<Cell>,
    rowIndex: nat,
    noteRow: seq<string>,
    keyRow: seq<string>,
    isArray: bool,
    arrayIndex: nat)

  /** The variables the walk updates: `listValuesBlock` (`unshift` puts a
      header in front, `shift` takes the front one off), `indentLevel`,
      `attachWearablesBlock` and `varIndex`.  (`locAbilitySpecial` is set
      and cleared within one column and is not part of the state.) */
  datatype EmitState = EmitState(stack: seq<string>, level: nat, wearables: bool, varIndex: nat)

  /** The indentation level starts at one or two and only drops when a
      wearables block that raised it is closed. */
  predicate ValidState(st: EmitState) {
    st.level >= 1 && (st.wearables ==> st.level >= 2)
  }

  function InitialState(isArray: bool): (st: EmitState)
    ensures ValidState(st)
  {
    EmitState([], if isArray then 2 else 1, false, 0)
  }

  /** `Array.prototype.shift` on the stack; an empty stack stays empty. */
  function Shift(stack: seq<string>): (r: seq<string>)
    ensures |r| == if stack == [] then 0 else |stack| - 1
  {
    if stack == [] then [] else stack[1..]
  }

  /** `key_row[i]`, with `""` standing for a missing header. */
  function HeaderAt(keyRow: seq<string>, i: nat): string {
    if i < |keyRow| then keyRow[i] else ""
  }

  /** The note of column `i`, or None (JavaScript `null`) when it is
      missing, empty or whitespace only. */
  function NoteAt(noteRow: seq<string>, i: nat): (r: Option<string>)
    ensures r.Some? <==> i < |noteRow| && Trim(noteRow[i]) != ""
    ensures r.Some? ==> r.value == noteRow[i]
  {
    if i < |noteRow| && Trim(noteRow[i]) != "" then Some(noteRow[i]) else None
  }

  /** `deal_cell_note`: on the first data row, a column that has a note is
      preceded by a `// note` comment line. */
  function CellNote(rowIndex: nat, note: Option<string>, indentStr: string, cellKey: string, ignoreNewline: bool): (r: string)
    ensures !(rowIndex == 0 && note.Some?) ==> r == indentStr + cellKey + (if ignoreNewline then "" else "\n")
    ensures rowIndex == 0 && note.Some? ==>
      StartsWith(r, indentStr + "// " + note.value + " \n") &&
      EndsWith(r, indentStr + cellKey + (if ignoreNewline then "" else "\n")) &&
      |r| == |indentStr + "// " + note.value + " \n"| + |indentStr + cellKey + (if ignoreNewline then "" else "\n")|
  {
    var body := if rowIndex == 0 && note.Some? then indentStr + "// " + note.value + " \n" + indentStr + cellKey
                else indentStr + cellKey;
    var r := body + (if ignoreNewline then "" else "\n");
    assert rowIndex == 0 && note.Some? ==>
      r == (indentStr + "// " + note.value + " \n") + (indentStr + cellKey + (if ignoreNewline then "" else "\n"));
    r
  }

  /** `/^Ability[0-9]{1,2}/.test(key)` */
  predicate IsAbilityHeader(key: string) {
    StartsWith(key, "Ability") && |key| > 7 && IsDigit(key[7])
  }

  /** Headers whose cells become localization entries rather than KV. */
  predicate IsLocHeader(key: string) {
    Contains(key, "#Loc") || key == "#ValuesLoc"
  }

  /** `"DOTA_Tooltip_ability_<main key>_<name>"` */
  function ValuesLocKey(mainKey: string, name: string): string {
    "DOTA_Tooltip_ability_" + mainKey + "_" + name
  }

  /** The label of a `#ValuesLoc` cell (sheetToKV.ts lines 240-273): the
      cell's first space-separated token when that token is not a number,
      otherwise the header when it is not a number, otherwise none (`""`). */
  function ValuesLocLabel(key: string, text: string): string {
    var token := FirstToken(text);
    if !IsNumberText(token) then token
    else if !IsNumberText(key) then key
    else ""
  }

  /** The text a `#ValuesLoc` cell records: the label token and its space
      are cut from it when the token is the label. */
  function ValuesLocText(text: string): string {
    var token := FirstToken(text);
    if !IsNumberText(token) then ReplaceFirst(text, token + " ", "") else text
  }

  /** The entry of a non-blank `#ValuesLoc` cell: none when the text left is
      empty or whitespace only; a missing label becomes `unknown_var_<n>`. */
  function ValuesLocEntries(varIndex: nat, key: string, mainKey: string, text: string): (r: seq<LocEntry>)
    ensures |r| <= 1
  {
    var given := ValuesLocLabel(key, text);
    var rest := ValuesLocText(text);
    var name := if given == "" then "unknown_var_" + NatToString(varIndex) else given;
    if rest == "" || Trim(rest) == "" then [] else [LocEntry(ValuesLocKey(mainKey, name), rest)]
  }

  /** The line a container header opens: `"name" {`, at the depth of the
      stack after the push. */
  function OpenLine(o: Options, inp: RowInput, i: nat, depth: nat, key: string, bracket: string): string {
    CellNote(inp.rowIndex, NoteAt(inp.noteRow, i), Indent(o, depth), "\"" + ReplaceFirst(key, bracket, "") + "\" {", false)
  }

  /** The line a close header emits: `}` at the depth of the stack after
      the pop. */
  function CloseLine(o: Options, depth: nat): string {
    Indent(o, depth) + "}\n"
  }

  /** A cell inside `AttachWearables[ ... ]`. */
  function WearableLine(o: Options, level: nat, key: string, cell: string): string {
    var ind := Indent(o, level + 1);
    if StartsWith(TrimStart(cell), "{") then ind + "\"" + key + "\" " + cell + "\n"
    else ind + "\"Wearable" + key + "\" \n" + ind + "{\n" + Indent(o, level + 2) + "\"ItemDef\" \"" + cell + "\"\n" + ind + "}\n"
  }

  /** The line of an ordinary column (sheetToKV.ts lines 308-336), whose
      cell `deal_with_kv_value` turned into `out`. */
  function ValueLine(o: Options, inp: RowInput, i: nat, depth: nat, key: string, out: string): string {
    var ind := if key != "value" && key != "v" then Indent(o, depth)
               else Indent(o, if depth >= 4 then depth - 4 else 0);
    if StartsWith(TrimStart(out), "{") then ind + "\"" + key + "\" " + out + "\n"
    else if key == "key" || key == "k" then CellNote(inp.rowIndex, NoteAt(inp.noteRow, i), ind, "\"" + out + "\"", true)
    else if key == "value" || key == "v" then ind + " \"" + out + "\"\n"
    else CellNote(inp.rowIndex, NoteAt(inp.noteRow, i), ind, "\"" + key + "\" \"" + out + "\"", false)
  }

  /** The line of the first column: the object of the row, named after its
      main key, or after its element number when it is grouped. */
  function MainKeyLine(o: Options, inp: RowInput, level: nat): string {
    var ind := Indent(o, level);
    var name := if inp.isArray then NatToString(inp.arrayIndex) else Str(At(inp.row, 0));
    var desc := HeaderAt(inp.keyRow, 1);
    if desc == "_name" || desc == "_desc" then ind + "// " + Str(At(inp.row, 1)) + "\n" + ind + "\"" + name + "\" {\n"
    else ind + "\"" + name + "\" {\n"
  }

  /** Which branch of the `key_row.map` callback (sheetToKV.ts lines
      159-337) a column takes, in the callback's order of tests. */
  datatype ColumnKind =
    | Skip            // no header, a `_name`/`_desc` column, or a blank cell
    | MainKey         // the first column
    | WearablesOpen   // `AttachWearables[`
    | WearablesClose  // `]` inside the wearables block
    | Wearable        // a non-blank cell inside the wearables block
    | Loc             // a header containing `#Loc`
    | ValuesLoc       // the header `#ValuesLoc`
    | OpenBlock(bracket: string)
    | CloseBlock
    | Value

  function Classify(key: string, i: nat, wearables: bool, cell: Cell): ColumnKind {
    if key == "" then Skip
    else if i == 0 then MainKey
    else if key == "_name" || key == "_desc" then Skip
    else if key == "AttachWearables[" then WearablesOpen
    else if wearables && key == "]" then WearablesClose
    else if wearables && !IsBlank(cell) then Wearable
    else if Contains(key, "#Loc") then Loc
    else if key == "#ValuesLoc" then ValuesLoc
    else if EndsWith(key, "[") then OpenBlock("[")
    else if key == "]" then CloseBlock
    else if EndsWith(key, "{") then OpenBlock("{")
    else if EndsWith(key, "}") then CloseBlock
    else if IsBlank(cell) && !IsAbilityHeader(key) then Skip
    else Value
  }

  /** The walk's variables after column `i`. */
  function ColumnState(inp: RowInput, st: EmitState, i: nat): (r: EmitState)
    requires ValidState(st)
    ensures ValidState(r)
  {
    var key := HeaderAt(inp.keyRow, i);
    var cell := At(inp.row, i);
    match Classify(key, i, st.wearables, cell)
    case MainKey => st.(level := st.level + 1)
    case WearablesOpen => st.(wearables := true, level := st.level + 1)
    case WearablesClose => st.(wearables := false, level := st.level - 1)
    case ValuesLoc =>
      if !IsBlank(cell) && ValuesLocLabel(key, cell.s) == "" then st.(varIndex := st.varIndex + 1) else st
    case OpenBlock(_) => st.(stack := [key] + st.stack)
    case CloseBlock => st.(stack := Shift(st.stack))
    case _ => st
  }

  /** The line column `i` yields from state `st`, if any. */
  function ColumnLine(o: Options, inp: RowInput, st: EmitState, i: nat): Option<string> {
    var key := HeaderAt(inp.keyRow, i);
    var cell := At(inp.row, i);
    match Classify(key, i, st.wearables, cell)
    case MainKey => Some(MainKeyLine(o, inp, st.level))
    case WearablesOpen => Some(OpenLine(o, inp, i, st.level + 1, key, "["))
    // the level drops by one and `}` is written one level deeper
    case WearablesClose => Some(CloseLine(o, st.level))
    case Wearable => Some(WearableLine(o, st.level, key, cell.s))
    // the depth after the push, less one
    case OpenBlock(bracket) => Some(OpenLine(o, inp, i, |st.stack| + st.level, key, bracket))
    case CloseBlock => Some(CloseLine(o, |Shift(st.stack)| + st.level))
    case Value => Some(ValueLine(o, inp, i, |st.stack| + st.level, key, DealWithKvValue(o, cell)))
    case _ => None
  }

  /** The localization entries column `i` records from state `st`. */
  function ColumnEntries(inp: RowInput, st: EmitState, i: nat): (r: seq<LocEntry>)
    ensures |r| <= 1
    ensures r != [] ==> i > 0 && IsLocHeader(HeaderAt(inp.keyRow, i)) && !IsBlank(At(inp.row, i))
  {
    var key := HeaderAt(inp.keyRow, i);
    var cell := At(inp.row, i);
    match Classify(key, i, st.wearables, cell)
    case Loc =>
      if IsBlank(cell) || Trim(cell.s) == "" then []
      else [LocEntry(ReplaceFirst(ReplaceFirst(key, "#Loc", ""), "{}", Str(At(inp.row, 0))), cell.s)]
    case ValuesLoc =>
      if IsBlank(cell) then [] else ValuesLocEntries(st.varIndex, key, Str(At(inp.row, 0)), cell.s)
    case _ => []
  }

  // What each kind of column does

  /** A column classified as skipped yields nothing and changes nothing. */
  lemma SkipColumn(o: Options, inp: RowInput, st: EmitState, i: nat)
    requires ValidState(st) && Classify(HeaderAt(inp.keyRow, i), i, st.wearables, At(inp.row, i)) == Skip
    ensures ColumnState(inp, st, i) == st && ColumnLine(o, inp, st, i) == None && ColumnEntries(inp, st, i) == []
  {
  }

  /** The first column raises the level and opens the row's object. */
  lemma MainKeyColumn(o: Options, inp: RowInput, st: EmitState, i: nat)
    requires ValidState(st) && Classify(HeaderAt(inp.keyRow, i), i, st.wearables, At(inp.row, i)) == MainKey
    ensures ColumnState(inp, st, i) == st.(level := st.level + 1) && ColumnEntries(inp, st, i) == []
    ensures ColumnLine(o, inp, st, i) == Some(MainKeyLine(o, inp, st.level))
  {
  }

  /** `AttachWearables[` enters the wearables block one level deeper. */
  lemma WearablesOpenColumn(o: Options, inp: RowInput, st: EmitState, i: nat)
    requires ValidState(st) && Classify(HeaderAt(inp.keyRow, i), i, st.wearables, At(inp.row, i)) == WearablesOpen
    ensures ColumnState(inp, st, i) == st.(wearables := true, level := st.level + 1) && ColumnEntries(inp, st, i) == []
    ensures ColumnLine(o, inp, st, i) == Some(OpenLine(o, inp, i, st.level + 1, HeaderAt(inp.keyRow, i), "["))
  {
  }

  /** `]` inside the wearables block leaves it one level up. */
  lemma WearablesCloseColumn(o: Options, inp: RowInput, st: EmitState, i: nat)
    requires ValidState(st) && Classify(HeaderAt(inp.keyRow, i), i, st.wearables, At(inp.row, i)) == WearablesClose
    ensures ColumnState(inp, st, i) == st.(wearables := false, level := st.level - 1) && ColumnEntries(inp, st, i) == []
    ensures ColumnLine(o, inp, st, i) == Some(CloseLine(o, st.level))
  {
  }

  /** A cell inside the wearables block is written as a wearable. */
  lemma WearableColumn(o: Options, inp: RowInput, st: EmitState, i: nat)
    requires ValidState(st) && Classify(HeaderAt(inp.keyRow, i), i, st.wearables, At(inp.row, i)) == Wearable
    ensures ColumnState(inp, st, i) == st && ColumnEntries(inp, st, i) == [] && At(inp.row, i).Text?
    ensures ColumnLine(o, inp, st, i) == Some(WearableLine(o, st.level, HeaderAt(inp.keyRow, i), At(inp.row, i).s))
  {
  }

  /** A localization column writes no KV. */
  lemma LocKindColumn(o: Options, inp: RowInput, st: EmitState, i: nat)
    requires Classify(HeaderAt(inp.keyRow, i), i, st.wearables, At(inp.row, i)) in {Loc, ValuesLoc}
    ensures ColumnLine(o, inp, st, i) == None
  {
  }

  /** A `#Loc` column records its cell under the header with `#Loc` cut
      out and `{}` replaced by the main key, unless the cell is blank or
      whitespace only. */
  lemma LocColumn(inp: RowInput, st: EmitState, i: nat)
    requires ValidState(st) && Classify(HeaderAt(inp.keyRow, i), i, st.wearables, At(inp.row, i)) == Loc
    ensures ColumnState(inp, st, i) == st
    ensures var cell := At(inp.row, i);
      var key := ReplaceFirst(ReplaceFirst(HeaderAt(inp.keyRow, i), "#Loc", ""), "{}", Str(At(inp.row, 0)));
      ColumnEntries(inp, st, i) == (if IsBlank(cell) || Trim(cell.s) == "" then [] else [LocEntry(key, cell.s)])
  {
  }

  /** A `#ValuesLoc` column records the entry of its cell, if any. */
  lemma ValuesLocColumn(inp: RowInput, st: EmitState, i: nat)
    requires ValidState(st) && Classify(HeaderAt(inp.keyRow, i), i, st.wearables, At(inp.row, i)) == ValuesLoc
    ensures var cell := At(inp.row, i);
      ColumnState(inp, st, i) == (if !IsBlank(cell) && ValuesLocLabel(HeaderAt(inp.keyRow, i), cell.s) == "" then st.(varIndex := st.varIndex + 1) else st) &&
      ColumnEntries(inp, st, i) == (if IsBlank(cell) then [] else ValuesLocEntries(st.varIndex, HeaderAt(inp.keyRow, i), Str(At(inp.row, 0)), cell.s))
  {
  }

  /** A column opening a block pushes its header. */
  lemma OpenBlockState(inp: RowInput, st: EmitState, i: nat, bracket: string)
    requires ValidState(st) && Classify(HeaderAt(inp.keyRow, i), i, st.wearables, At(inp.row, i)) == OpenBlock(bracket)
    ensures ColumnState(inp, st, i) == st.(stack := [HeaderAt(inp.keyRow, i)] + st.stack)
    ensures ColumnEntries(inp, st, i) == []
  {
  }

  /** The line of a column opening a block. */
  lemma OpenBlockLine(o: Options, inp: RowInput, st: EmitState, i: nat, bracket: string)
    requires Classify(HeaderAt(inp.keyRow, i), i, st.wearables, At(inp.row, i)) == OpenBlock(bracket)
    ensures ColumnLine(o, inp, st, i) == Some(OpenLine(o, inp, i, |st.stack| + st.level, HeaderAt(inp.keyRow, i), bracket))
  {
    var key := HeaderAt(inp.keyRow, i);
    var cell := At(inp.row, i);
    assert Classify(key, i, st.wearables, cell) == OpenBlock(bracket);
  }

  /** A column closing a block pops the stack and writes `}`. */
  lemma CloseBlockColumn(o: Options, inp: RowInput, st: EmitState, i: nat)
    requires ValidState(st) && Classify(HeaderAt(inp.keyRow, i), i, st.wearables, At(inp.row, i)) == CloseBlock
    ensures ColumnState(inp, st, i) == st.(stack := Shift(st.stack)) && ColumnEntries(inp, st, i) == []
    ensures ColumnLine(o, inp, st, i) == Some(CloseLine(o, |Shift(st.stack)| + st.level))
  {
  }

  /** A column classified as a value changes nothing and records nothing. */
  lemma ValueColumnState(inp: RowInput, st: EmitState, i: nat)
    requires ValidState(st) && Classify(HeaderAt(inp.keyRow, i), i, st.wearables, At(inp.row, i)) == Value
    ensures ColumnState(inp, st, i) == st && ColumnEntries(inp, st, i) == []
  {
  }

  /** The line of a column classified as a value. */
  lemma ValueColumnLine(o: Options, inp: RowInput, st: EmitState, i: nat)
    requires Classify(HeaderAt(inp.keyRow, i), i, st.wearables, At(inp.row, i)) == Value
    ensures ColumnLine(o, inp, st, i) ==
      Some(ValueLine(o, inp, i, |st.stack| + st.level, HeaderAt(inp.keyRow, i), DealWithKvValue(o, At(inp.row, i))))
  {
  }

  /** The walk over the first `n` columns: the state it reaches, the lines
      kept by `.filter((row) => row != null)` and the entries pushed. */
  datatype Walk = Walk(state: EmitState, lines: seq<string>, entries: seq<LocEntry>)

  function LineOf(line: Option<string>): seq<string> {
    match line
    case None => []
    case Some(l) => [l]
  }

  function WalkColumns(o: Options, inp: RowInput, n: nat): (w: Walk)
    requires n <= |inp.keyRow|
    ensures ValidState(w.state)
    decreases n, 1
  {
    if n == 0 then Walk(InitialState(inp.isArray), [], []) else WalkStep(o, inp, n - 1)
  }

  function WalkStep(o: Options, inp: RowInput, i: nat): (w: Walk)
    requires i < |inp.keyRow|
    ensures ValidState(w.state)
    decreases i + 1, 0
  {
    var w := WalkColumns(o, inp, i);
    Walk(ColumnState(inp, w.state, i), w.lines + LineOf(ColumnLine(o, inp, w.state, i)),
         w.entries + ColumnEntries(inp, w.state, i))
  }

  /** One more column of the walk. */
  lemma WalkNext(o: Options, inp: RowInput, i: nat, st: EmitState, lines: seq<string>, entries: seq<LocEntry>)
    requires i < |inp.keyRow| && WalkColumns(o, inp, i) == Walk(st, lines, entries)
    ensures WalkColumns(o, inp, i + 1) ==
      Walk(ColumnState(inp, st, i), lines + LineOf(ColumnLine(o, inp, st, i)), entries + ColumnEntries(inp, st, i))
  {
    assert WalkColumns(o, inp, i + 1) == WalkStep(o, inp, i);
  }

  /** The lines of the row after empty containers are deleted. */
  function RowLines(o: Options, inp: RowInput): seq<string> {
    Collapsed(WalkColumns(o, inp, |inp.keyRow|).lines)
  }

  /** `row_cells.join('') + indent + end_tail + '\n'`, where `end_tail`
      carries one more `indent` for a grouped row.  (This uses the `indent`
      option as it is, not `indent || '\t'`.) */
  function RowText(o: Options, inp: RowInput): string {
    Join(RowLines(o, inp), "") + o.indent + (if inp.isArray then o.indent + "}" else "}") + "\n"
  }

  /** The localization entries the row pushes onto `locTokens`. */
  function RowEntries(o: Options, inp: RowInput): seq<LocEntry> {
    WalkColumns(o, inp, |inp.keyRow|).entries
  }

  // Properties of one column

  /** A column without a header, and a `_name`/`_desc` column after the
      first, yield nothing and change nothing. */
  lemma SkippedColumn(o: Options, inp: RowInput, st: EmitState, i: nat)
    requires ValidState(st)
    requires HeaderAt(inp.keyRow, i) == "" || (i > 0 && HeaderAt(inp.keyRow, i) in {"_name", "_desc"})
    ensures ColumnState(inp, st, i) == st && ColumnLine(o, inp, st, i) == None && ColumnEntries(inp, st, i) == []
  {
  }

  /** The first column opens the row's object one level in and raises the
      level; a `_name`/`_desc` second column puts a comment line above it. */
  lemma MainKeyOpensRow(o: Options, inp: RowInput, st: EmitState)
    requires ValidState(st) && HeaderAt(inp.keyRow, 0) != ""
    ensures ColumnState(inp, st, 0) == st.(level := st.level + 1) && ColumnEntries(inp, st, 0) == []
    ensures var line := ColumnLine(o, inp, st, 0);
      var name := if inp.isArray then NatToString(inp.arrayIndex) else Str(At(inp.row, 0));
      line.Some? && EndsWith(line.value, Indent(o, st.level) + "\"" + name + "\" {\n") &&
      (HeaderAt(inp.keyRow, 1) in {"_name", "_desc"} <==>
        StartsWith(line.value, Indent(o, st.level) + "// " + Str(At(inp.row, 1)) + "\n"))
  {
    MainKeyColumn(o, inp, st, 0);
    MainKeyLineShape(o, inp, st.level);
  }

  /** The opening line of the row: its name line, with the comment line in
      front exactly when the second header is `_name` or `_desc`. */
  lemma MainKeyLineShape(o: Options, inp: RowInput, level: nat)
    ensures var line := MainKeyLine(o, inp, level);
      var name := if inp.isArray then NatToString(inp.arrayIndex) else Str(At(inp.row, 0));
      EndsWith(line, Indent(o, level) + "\"" + name + "\" {\n") &&
      (HeaderAt(inp.keyRow, 1) in {"_name", "_desc"} <==>
        StartsWith(line, Indent(o, level) + "// " + Str(At(inp.row, 1)) + "\n"))
  {
    var ind := Indent(o, level);
    var name := if inp.isArray then NatToString(inp.arrayIndex) else Str(At(inp.row, 0));
    var line := MainKeyLine(o, inp, level);
    var tail := ind + "\"" + name + "\" {\n";
    var head := ind + "// " + Str(At(inp.row, 1)) + "\n";
    if HeaderAt(inp.keyRow, 1) in {"_name", "_desc"} {
      assert line == head + tail;
      assert line[..|head|] == head;
      assert line[|line| - |tail|..] == tail;
    } else {
      assert line == tail;
      assert line[|ind|] == '"' && head[|ind|] == '/';
    }
  }


  /** A `#Loc` column (outside a wearables block, or with a blank cell)
      writes no KV and records the cell, unless it is blank or whitespace
      only, under the header with `#Loc` cut out and `{}` replaced by the
      main key. */
  lemma LocColumnRecordsEntry(o: Options, inp: RowInput, st: EmitState, i: nat)
    requires ValidState(st) && 0 < i < |inp.keyRow| && Contains(inp.keyRow[i], "#Loc")
    requires !st.wearables || IsBlank(At(inp.row, i))
    ensures ColumnState(inp, st, i) == st && ColumnLine(o, inp, st, i) == None
    ensures var cell := At(inp.row, i);
      var key := ReplaceFirst(ReplaceFirst(inp.keyRow[i], "#Loc", ""), "{}", Str(At(inp.row, 0)));
      ColumnEntries(inp, st, i) == (if IsBlank(cell) || AllWhitespace(cell.s) then [] else [LocEntry(key, cell.s)])
  {
    var key := inp.keyRow[i];
    assert HeaderAt(inp.keyRow, i) == key;
    ContainsFirstChar(key, "#Loc");
    assert Classify(key, i, st.wearables, At(inp.row, i)) == Loc;
    LocColumn(inp, st, i);
    LocKindColumn(o, inp, st, i);
    if At(inp.row, i).Text? {
      TrimEmptyIff(At(inp.row, i).s);
    }
  }

  /** With main key `hero1`, the header `#Loc{}_Lore` records the cell
      under `hero1_Lore`. */
  lemma LocColumnExample(o: Options, inp: RowInput, st: EmitState)
    requires ValidState(st) && !st.wearables && |inp.keyRow| == 4 && inp.keyRow[3] == "#Loc{}_Lore"
    requires |inp.row| == 4 && inp.row[0] == Text("hero1") && inp.row[3] == Text("Brave warrior")
    ensures ColumnEntries(inp, st, 3) == [LocEntry("hero1_Lore", "Brave warrior")]
  {
    LocKeyExample();
    LocColumnRecordsEntry(o, inp, st, 3);
  }

  /** The strings of the example above. */
  lemma LocKeyExample()
    ensures Contains("#Loc{}_Lore", "#Loc")
    ensures ReplaceFirst(ReplaceFirst("#Loc{}_Lore", "#Loc", ""), "{}", "hero1") == "hero1_Lore"
    ensures !AllWhitespace("Brave warrior")
  {
    var h := "#Loc{}_Lore";
    assert StartsWith(h, "#Loc");
    LocCutExample();
    BraceExample();
    var c := "Brave warrior";
    assert !IsWhitespace(c[0]);
  }

  lemma LocCutExample()
    ensures ReplaceFirst("#Loc{}_Lore", "#Loc", "") == "{}_Lore"
  {
    var h := "#Loc{}_Lore";
    assert StartsWith(h, "#Loc");
    ReplaceFirstAtStart(h, "#Loc", "");
    assert h[4..] == "{}_Lore";
  }

  lemma BraceExample()
    ensures ReplaceFirst("{}_Lore", "{}", "hero1") == "hero1_Lore"
  {
    var t := "{}_Lore";
    assert StartsWith(t, "{}");
    ReplaceFirstAtStart(t, "{}", "hero1");
    assert t[2..] == "_Lore";
  }

  /** `#ValuesLoc` is not a number, so it is always a usable name: the
      `unknown_var_` fallback is never taken. */
  lemma ValuesLocHeaderIsNotNumber()
    ensures !IsNumberText("#ValuesLoc")
  {
    var h := "#ValuesLoc";
    assert TrimStart(h) == h;
    assert TrimEnd(h) == h;
    assert LeadingDigits(h) == 0;
  }

  /** `#ValuesLoc` does not contain `#Loc`, so it has a branch of its own. */
  lemma ValuesLocHeaderIsNotLoc()
    ensures !Contains("#ValuesLoc", "#Loc")
  {
    var h := "#ValuesLoc";
    forall j: nat
      ensures !OccursAt(h, "#Loc", j)
    {
      if j + 4 <= |h| {
        var w := h[j..j + 4];
        assert w[0] == h[j] && w[1] == h[j + 1];
      }
    }
  }

  /** Under the header `#ValuesLoc` a cell always has a label: its first
      word unless that word is a number, in which case the header itself;
      the word and its space are cut from the text it labels.  The entry is
      that text, unless it is empty or whitespace only. */
  lemma ValuesLocEntriesSpec(varIndex: nat, mainKey: string, text: string)
    ensures var token := FirstToken(text);
      var name := if IsNumberText(token) then "#ValuesLoc" else token;
      var rest := if IsNumberText(token) then text else ReplaceFirst(text, token + " ", "");
      ValuesLocLabel("#ValuesLoc", text) == name != "" && ValuesLocText(text) == rest &&
      ValuesLocEntries(varIndex, "#ValuesLoc", mainKey, text) ==
        (if AllWhitespace(rest) then [] else [LocEntry(ValuesLocKey(mainKey, name), rest)])
  {
    ValuesLocHeaderIsNotNumber();
    var token := FirstToken(text);
    assert Trim("") == "";
    var rest := if IsNumberText(token) then text else ReplaceFirst(text, token + " ", "");
    TrimEmptyIff(rest);
  }

  /** A `#ValuesLoc` column writes no KV and never changes the state; a
      non-blank cell whose first word is not a number is recorded, without
      that word and its space, under `DOTA_Tooltip_ability_<main key>_<word>`;
      otherwise the whole cell is recorded under the header's own name. */
  lemma ValuesLocColumnRecordsEntry(o: Options, inp: RowInput, st: EmitState, i: nat)
    requires ValidState(st) && 0 < i < |inp.keyRow| && inp.keyRow[i] == "#ValuesLoc"
    requires !st.wearables || IsBlank(At(inp.row, i))
    ensures ColumnState(inp, st, i) == st && ColumnLine(o, inp, st, i) == None
    ensures var cell := At(inp.row, i);
      (IsBlank(cell) ==> ColumnEntries(inp, st, i) == []) &&
      (!IsBlank(cell) ==>
        var token := FirstToken(cell.s);
        var name := if IsNumberText(token) then "#ValuesLoc" else token;
        var rest := if IsNumberText(token) then cell.s else ReplaceFirst(cell.s, token + " ", "");
        ColumnEntries(inp, st, i) == (if AllWhitespace(rest) then [] else [LocEntry(ValuesLocKey(Str(At(inp.row, 0)), name), rest)]))
  {
    var cell := At(inp.row, i);
    assert HeaderAt(inp.keyRow, i) == "#ValuesLoc";
    ValuesLocHeaderClass(i, st.wearables, cell);
    ValuesLocColumn(inp, st, i);
    LocKindColumn(o, inp, st, i);
    if !IsBlank(cell) {
      ValuesLocHasLabel(cell.s);
      ValuesLocEntriesSpec(st.varIndex, Str(At(inp.row, 0)), cell.s);
    }
  }

  /** The branch the header `#ValuesLoc` takes. */
  lemma ValuesLocHeaderClass(i: nat, wearables: bool, cell: Cell)
    requires 0 < i && (!wearables || IsBlank(cell))
    ensures Classify("#ValuesLoc", i, wearables, cell) == ValuesLoc
  {
    ValuesLocHeaderIsNotLoc();
  }

  /** Headers that open a nested block with `[` or `{`. */
  predicate IsOpenHeader(key: string) {
    (EndsWith(key, "[") || EndsWith(key, "{")) && key != "AttachWearables[" && !IsLocHeader(key)
  }

  /** Headers that close a nested block: `]` or any header ending in `}`. */
  predicate IsCloseHeader(key: string) {
    (key == "]" || EndsWith(key, "}")) && !IsLocHeader(key)
  }

  /** Any line `deal_cell_note` writes starts with its indentation and ends
      with its key (and the newline, unless that is left out). */
  lemma CellNoteShape(rowIndex: nat, note: Option<string>, indentStr: string, cellKey: string, ignoreNewline: bool)
    ensures var r := CellNote(rowIndex, note, indentStr, cellKey, ignoreNewline);
      StartsWith(r, indentStr) && EndsWith(r, cellKey + (if ignoreNewline then "" else "\n"))
  {
    var r := CellNote(rowIndex, note, indentStr, cellKey, ignoreNewline);
    var nl := if ignoreNewline then "" else "\n";
    if rowIndex == 0 && note.Some? {
      StartsWithPrefix(r, indentStr, "// " + note.value + " \n");
      assert indentStr + "// " + note.value + " \n" == indentStr + ("// " + note.value + " \n");
      var t := indentStr + cellKey + nl;
      assert r[|r| - |t|..] == t;
      assert t[|t| - |cellKey + nl|..] == cellKey + nl;
      assert r[|r| - |cellKey + nl|..] == t[|t| - |cellKey + nl|..];
    } else {
      assert r == indentStr + (cellKey + nl);
      StartsWithPrefix(r, indentStr, cellKey + nl);
      assert r[|r| - |cellKey + nl|..] == cellKey + nl;
    }
  }

  /** The branch an opening header takes. */
  lemma OpenHeaderClass(key: string, i: nat, wearables: bool, cell: Cell)
    requires 0 < i && IsOpenHeader(key) && (!wearables || IsBlank(cell))
    ensures Classify(key, i, wearables, cell) == OpenBlock(if EndsWith(key, "[") then "[" else "{")
  {
    assert key != "]" && key != "_name" && key != "_desc";
  }

  /** An opening line starts at its depth and ends with `" {`. */
  lemma OpenLineShape(o: Options, inp: RowInput, i: nat, d: nat, key: string, bracket: string)
    ensures StartsWith(OpenLine(o, inp, i, d, key, bracket), Indent(o, d))
    ensures EndsWith(OpenLine(o, inp, i, d, key, bracket), "\" {\n")
  {
    var cellKey := "\"" + ReplaceFirst(key, bracket, "") + "\" {";
    var line := OpenLine(o, inp, i, d, key, bracket);
    CellNoteShape(inp.rowIndex, NoteAt(inp.noteRow, i), Indent(o, d), cellKey, false);
    var e := cellKey + "\n";
    assert line[|line| - 3..] == e[|e| - 3..];
  }

  /** The name an opening header gives its block: the header with its
      first bracket (the one it ends with, or an earlier one) removed. */
  function BlockName(key: string): string {
    ReplaceFirst(key, if EndsWith(key, "[") then "[" else "{", "")
  }

  /** An opening header pushes itself onto the block stack and writes
      `"<name>" {`, with its note in front on the first data row, at
      exactly the depth the stack had before the push. */
  lemma OpenHeaderPushes(o: Options, inp: RowInput, st: EmitState, i: nat)
    requires ValidState(st) && 0 < i < |inp.keyRow| && IsOpenHeader(inp.keyRow[i])
    requires !st.wearables || IsBlank(At(inp.row, i))
    ensures ColumnState(inp, st, i) == st.(stack := [inp.keyRow[i]] + st.stack) && ColumnEntries(inp, st, i) == []
    ensures ColumnLine(o, inp, st, i) ==
      Some(CellNote(inp.rowIndex, NoteAt(inp.noteRow, i), Indent(o, |st.stack| + st.level), "\"" + BlockName(inp.keyRow[i]) + "\" {", false))
  {
    var key := inp.keyRow[i];
    var bracket := if EndsWith(key, "[") then "[" else "{";
    assert HeaderAt(inp.keyRow, i) == key;
    OpenHeaderClass(key, i, st.wearables, At(inp.row, i));
    OpenBlockState(inp, st, i, bracket);
    OpenBlockLine(o, inp, st, i, bracket);
  }

  /** A closing header pops the block stack (an empty stack stays empty)
      and writes `}` at the depth of the stack after the pop. */
  lemma CloseHeaderPops(o: Options, inp: RowInput, st: EmitState, i: nat)
    requires ValidState(st) && 0 < i < |inp.keyRow| && IsCloseHeader(inp.keyRow[i])
    requires !st.wearables || (inp.keyRow[i] != "]" && IsBlank(At(inp.row, i)))
    ensures ColumnState(inp, st, i) == st.(stack := Shift(st.stack)) && ColumnEntries(inp, st, i) == []
    ensures ColumnLine(o, inp, st, i) == Some(Indent(o, |Shift(st.stack)| + st.level) + "}\n")
  {
    assert HeaderAt(inp.keyRow, i) == inp.keyRow[i];
    CloseHeaderClass(inp.keyRow[i], i, st.wearables, At(inp.row, i));
    CloseBlockColumn(o, inp, st, i);
  }

  /** The branch a closing header takes. */
  lemma CloseHeaderClass(key: string, i: nat, wearables: bool, cell: Cell)
    requires 0 < i && IsCloseHeader(key) && (!wearables || (key != "]" && IsBlank(cell)))
    ensures Classify(key, i, wearables, cell) == CloseBlock
  {
    assert key != "_name" && key != "_desc" && key != "AttachWearables[";
    assert !EndsWith(key, "[") && !EndsWith(key, "{");
  }

  /** The blocks that the headers of columns `i` to `k - 1` leave open,
      innermost first: an opening header pushes itself and a closing header
      pops the innermost one (with none open, none stays open). */
  function OpenBlocks(keyRow: seq<string>, i: nat, k: nat): (r: seq<string>)
    requires i <= k <= |keyRow|
    ensures |r| <= k - i
    decreases k
  {
    if k == i then []
    else
      PushPop(keyRow[k - 1], OpenBlocks(keyRow, i, k - 1))
  }

  /** The open blocks `b` after one more header `h`. */
  function PushPop(h: string, b: seq<string>): seq<string> {
    if IsOpenHeader(h) then [h] + b
    else if IsCloseHeader(h) then Shift(b)
    else b
  }

  /** The headers of columns `i` to `k - 1` stay inside the block around
      them: none enters the wearables block, and none closes a block while
      none of their own is open. */
  predicate InsideBlock(keyRow: seq<string>, i: nat, k: nat)
    requires i <= k <= |keyRow|
    decreases k
  {
    k == i ||
    (InsideBlock(keyRow, i, k - 1) && keyRow[k - 1] != "AttachWearables[" &&
     (IsCloseHeader(keyRow[k - 1]) ==> OpenBlocks(keyRow, i, k - 1) != []))
  }

  /** A block of the walk, from its opening header at column `i` to the
      closing header at column `j` that matches it, entered in state `st`
      outside a wearables block.  The columns between may hold blocks of
      their own, localization columns and `k`/`v` columns, as long as they
      close every block they open and none around them.  The opening
      `"<name>" {` line is written at the depth `d` the stack had before the
      push; every column inside sees the header pushed, below the blocks
      still open inside (so BlockBodyIsDeeper applies to each column where
      none is); the `}` is written at exactly the same depth `d`; and the
      close gives back the state the walk had before the block. */
  lemma OpenAndCloseAlign(o: Options, inp: RowInput, i: nat, j: nat, st: EmitState)
    requires 0 < i < j < |inp.keyRow|
    requires IsOpenHeader(inp.keyRow[i]) && IsCloseHeader(inp.keyRow[j])
    requires InsideBlock(inp.keyRow, i + 1, j) && OpenBlocks(inp.keyRow, i + 1, j) == []
    requires WalkColumns(o, inp, i).state == st && !st.wearables
    ensures ColumnLine(o, inp, st, i) ==
      Some(CellNote(inp.rowIndex, NoteAt(inp.noteRow, i), Indent(o, |st.stack| + st.level), "\"" + BlockName(inp.keyRow[i]) + "\" {", false))
    ensures forall k :: i < k <= j ==>
      WalkColumns(o, inp, k).state == st.(stack := OpenBlocks(inp.keyRow, i + 1, k) + ([inp.keyRow[i]] + st.stack))
    ensures ColumnLine(o, inp, WalkColumns(o, inp, j).state, j) == Some(Indent(o, |st.stack| + st.level) + "}\n")
    ensures WalkColumns(o, inp, j + 1).state == st
  {
    var inner := st.(stack := [inp.keyRow[i]] + st.stack);
    OpenHeaderPushes(o, inp, st, i);
    WalkOpensBlock(o, inp, i);
    WalkStateIsState(o, inp, i + 1);
    forall k | i < k <= j
      ensures WalkColumns(o, inp, k).state == inner.(stack := OpenBlocks(inp.keyRow, i + 1, k) + inner.stack)
    {
      InsideBlockPrefix(inp.keyRow, i + 1, k, j);
      WalkInsideBlock(inp, i + 1, k, inner);
      WalkStateIsState(o, inp, k);
    }
    assert WalkColumns(o, inp, j).state == inner;
    WalkClosesBlock(o, inp, st, inp.keyRow[i], j);
  }

  /** Nested blocks: in the title row `id, a{, b{, x, }, }` the columns
      inside `a{` (2 to 4) and inside `b{` (3) are balanced, so
      OpenAndCloseAlign applies to both blocks: the `}` of column 5 is at
      the depth of `"a" {`, the `}` of column 4 at the depth of `"b" {`,
      one deeper, and after column 5 the walk is back in the state it had
      before `a{`. */
  lemma NestedBlocksExample(k: seq<string>)
    requires k == ["id", "a{", "b{", "x", "}", "}"]
    ensures IsOpenHeader(k[1]) && IsOpenHeader(k[2]) && IsCloseHeader(k[4]) && IsCloseHeader(k[5])
    ensures InsideBlock(k, 2, 5) && OpenBlocks(k, 2, 5) == [] && OpenBlocks(k, 2, 2) == []
    ensures InsideBlock(k, 3, 4) && OpenBlocks(k, 3, 4) == []
  {
    NestedHeaders();
    assert OpenBlocks(k, 2, 3) == ["b{"];
    assert OpenBlocks(k, 2, 4) == ["b{"];
    assert InsideBlock(k, 2, 3) && InsideBlock(k, 2, 4);
  }

  /** The headers of the example above. */
  lemma NestedHeaders()
    ensures IsOpenHeader("a{") && IsOpenHeader("b{") && IsCloseHeader("}")
    ensures !IsOpenHeader("x") && !IsCloseHeader("x")
  {
    NoHashNoLoc("a{");
    NoHashNoLoc("b{");
    NoHashNoLoc("}");
    NoHashNoLoc("x");
  }

  /** A header without `#` is not a localization header. */
  lemma NoHashNoLoc(h: string)
    requires '#' !in h
    ensures !IsLocHeader(h)
  {
    ContainsFirstChar(h, "#Loc");
  }

  /** A prefix of a run of columns inside a block is inside it too. */
  lemma {:induction false} InsideBlockPrefix(keyRow: seq<string>, i: nat, k: nat, j: nat)
    requires i <= k <= j <= |keyRow| && InsideBlock(keyRow, i, j)
    ensures InsideBlock(keyRow, i, k)
    decreases j
  {
    if k < j {
      InsideBlockPrefix(keyRow, i, k, j - 1);
    }
  }

  /** The state the walk reaches after the first `n` columns, computed
      without the lines and entries. */
  ghost function WalkState(inp: RowInput, n: nat): (st: EmitState)
    requires n <= |inp.keyRow|
    ensures ValidState(st)
  {
    if n == 0 then InitialState(inp.isArray) else ColumnState(inp, WalkState(inp, n - 1), n - 1)
  }

  /** WalkState is the state of the walk. */
  lemma {:induction false} WalkStateIsState(o: Options, inp: RowInput, n: nat)
    requires n <= |inp.keyRow|
    ensures WalkColumns(o, inp, n).state == WalkState(inp, n)
  {
    if n > 0 {
      WalkStateIsState(o, inp, n - 1);
      var w := WalkColumns(o, inp, n - 1);
      WalkNext(o, inp, n - 1, w.state, w.lines, w.entries);
    }
  }

  /** The walk over columns inside a block adds the blocks they leave open
      on top of the stack it started from, and changes nothing else. */
  lemma {:induction false} WalkInsideBlock(inp: RowInput, i: nat, k: nat, st: EmitState)
    requires 0 < i <= k <= |inp.keyRow| && InsideBlock(inp.keyRow, i, k)
    requires WalkState(inp, i) == st && !st.wearables
    ensures WalkState(inp, k) == st.(stack := OpenBlocks(inp.keyRow, i, k) + st.stack)
    decreases k
  {
    if i < k {
      InsideBlockStep(inp.keyRow, i, k);
      WalkInsideBlock(inp, i, k - 1, st);
      InsideColumnState(inp, st, OpenBlocks(inp.keyRow, i, k - 1), k - 1);
    }
  }

  /** One more column of a run inside a block. */
  lemma InsideBlockStep(keyRow: seq<string>, i: nat, k: nat)
    requires i < k <= |keyRow| && InsideBlock(keyRow, i, k)
    ensures InsideBlock(keyRow, i, k - 1) && keyRow[k - 1] != "AttachWearables["
    ensures IsCloseHeader(keyRow[k - 1]) ==> OpenBlocks(keyRow, i, k - 1) != []
    ensures OpenBlocks(keyRow, i, k) == PushPop(keyRow[k - 1], OpenBlocks(keyRow, i, k - 1))
  {
  }

  /** One column inside a block, seen with the blocks `b` open above the
      stack of `st`: an opening header pushes, a closing header pops one of
      `b`, and every other header changes nothing. */
  lemma InsideColumnState(inp: RowInput, st: EmitState, b: seq<string>, m: nat)
    requires ValidState(st) && !st.wearables && 0 < m < |inp.keyRow| && inp.keyRow[m] != "AttachWearables["
    requires IsCloseHeader(inp.keyRow[m]) ==> b != []
    ensures ColumnState(inp, st.(stack := b + st.stack), m) == st.(stack := PushPop(inp.keyRow[m], b) + st.stack)
  {
    var h := inp.keyRow[m];
    var cur := st.(stack := b + st.stack);
    if IsOpenHeader(h) {
      OpenColumnState(inp, cur, m);
    } else if IsCloseHeader(h) {
      CloseColumnState(inp, cur, m);
      assert Shift(b + st.stack) == Shift(b) + st.stack;
    } else {
      OtherColumnKeepsState(inp, cur, m);
    }
  }

  /** Outside the wearables block, an opening header pushes itself. */
  lemma OpenColumnState(inp: RowInput, st: EmitState, m: nat)
    requires ValidState(st) && !st.wearables && 0 < m < |inp.keyRow| && IsOpenHeader(inp.keyRow[m])
    ensures ColumnState(inp, st, m) == st.(stack := [inp.keyRow[m]] + st.stack)
  {
    var h := inp.keyRow[m];
    assert HeaderAt(inp.keyRow, m) == h;
    OpenHeaderClass(h, m, false, At(inp.row, m));
    OpenBlockState(inp, st, m, if EndsWith(h, "[") then "[" else "{");
  }

  /** Outside the wearables block, a closing header pops the stack. */
  lemma CloseColumnState(inp: RowInput, st: EmitState, m: nat)
    requires ValidState(st) && !st.wearables && 0 < m < |inp.keyRow| && IsCloseHeader(inp.keyRow[m])
    ensures ColumnState(inp, st, m) == st.(stack := Shift(st.stack))
  {
    var h := inp.keyRow[m];
    assert HeaderAt(inp.keyRow, m) == h;
    CloseHeaderClass(h, m, false, At(inp.row, m));
    CloseBlockState(inp, st, m);
  }

  /** A column closing a block pops the stack. */
  lemma CloseBlockState(inp: RowInput, st: EmitState, i: nat)
    requires ValidState(st) && Classify(HeaderAt(inp.keyRow, i), i, st.wearables, At(inp.row, i)) == CloseBlock
    ensures ColumnState(inp, st, i) == st.(stack := Shift(st.stack))
  {
  }

  /** Outside the wearables block, a column that neither opens nor closes a
      block nor enters the wearables block changes no state. */
  lemma OtherColumnKeepsState(inp: RowInput, st: EmitState, m: nat)
    requires ValidState(st) && !st.wearables && 0 < m < |inp.keyRow|
    requires inp.keyRow[m] != "AttachWearables[" && !IsOpenHeader(inp.keyRow[m]) && !IsCloseHeader(inp.keyRow[m])
    ensures ColumnState(inp, st, m) == st
  {
    assert HeaderAt(inp.keyRow, m) == inp.keyRow[m];
    ColumnKeepsVarIndex(inp, st, m);
  }

  /** The walk's step over an opening header pushes it. */
  lemma WalkOpensBlock(o: Options, inp: RowInput, i: nat)
    requires 0 < i < |inp.keyRow| && IsOpenHeader(inp.keyRow[i]) && !WalkColumns(o, inp, i).state.wearables
    ensures var st := WalkColumns(o, inp, i).state;
      WalkColumns(o, inp, i + 1).state == st.(stack := [inp.keyRow[i]] + st.stack)
  {
    var w := WalkColumns(o, inp, i);
    OpenHeaderPushes(o, inp, w.state, i);
    WalkNext(o, inp, i, w.state, w.lines, w.entries);
  }

  /** The walk's step over a closing header that pops the header `h`. */
  lemma WalkClosesBlock(o: Options, inp: RowInput, st: EmitState, h: string, j: nat)
    requires ValidState(st) && !st.wearables && 0 < j < |inp.keyRow| && IsCloseHeader(inp.keyRow[j])
    requires WalkColumns(o, inp, j).state == st.(stack := [h] + st.stack)
    ensures WalkColumns(o, inp, j + 1).state == st
    ensures ColumnLine(o, inp, WalkColumns(o, inp, j).state, j) == Some(Indent(o, |st.stack| + st.level) + "}\n")
  {
    var w := WalkColumns(o, inp, j);
    BlockCloses(o, inp, st, h, j);
    WalkNext(o, inp, j, w.state, w.lines, w.entries);
  }

  /** The header pushed by an opening header is popped by a closing one,
      at the depth the stack had before the push. */
  lemma BlockCloses(o: Options, inp: RowInput, st: EmitState, h: string, j: nat)
    requires ValidState(st) && !st.wearables && 0 < j < |inp.keyRow| && IsCloseHeader(inp.keyRow[j])
    ensures var inner := st.(stack := [h] + st.stack);
      ColumnState(inp, inner, j) == st && ColumnLine(o, inp, inner, j) == Some(Indent(o, |st.stack| + st.level) + "}\n")
  {
    var inner := st.(stack := [h] + st.stack);
    CloseHeaderPops(o, inp, inner, j);
    assert Shift(inner.stack) == st.stack;
  }

  /** Ordinary columns outside a wearables block leave the walk's state as
      it is. */
  lemma {:induction false} PlainColumnsKeepState(inp: RowInput, i: nat, j: nat)
    requires 0 < i <= j <= |inp.keyRow|
    requires forall k :: i <= k < j ==> IsPlainHeader(inp.keyRow[k])
    requires !WalkState(inp, i).wearables
    ensures WalkState(inp, j) == WalkState(inp, i)
  {
    if i < j {
      PlainColumnsKeepState(inp, i, j - 1);
      PlainColumnKeepsState(inp, WalkState(inp, j - 1), j - 1);
    }
  }

  /** An ordinary column, outside a wearables block, changes no state. */
  lemma PlainColumnKeepsState(inp: RowInput, st: EmitState, i: nat)
    requires ValidState(st) && 0 < i < |inp.keyRow| && IsPlainHeader(inp.keyRow[i]) && !st.wearables
    ensures ColumnState(inp, st, i) == st
  {
    assert HeaderAt(inp.keyRow, i) == inp.keyRow[i];
    PlainHeaderClass(inp.keyRow[i], i, st.wearables, At(inp.row, i));
  }

  /** Ordinary headers: not a block, not localization, not a key/value pair
      of a list (`key`/`k`, `value`/`v`). */
  predicate IsPlainHeader(key: string) {
    key != "" && key !in {"_name", "_desc", "AttachWearables[", "]", "key", "k", "value", "v"} &&
    !IsLocHeader(key) && !EndsWith(key, "[") && !EndsWith(key, "{") && !EndsWith(key, "}")
  }

  /** The branch an ordinary header takes. */
  lemma PlainHeaderClass(key: string, i: nat, wearables: bool, cell: Cell)
    requires 0 < i && IsPlainHeader(key) && (!wearables || IsBlank(cell))
    ensures Classify(key, i, wearables, cell) == if IsBlank(cell) && !IsAbilityHeader(key) then Skip else Value
  {
  }

  /** The line of an ordinary header starts at its depth. */
  lemma ValueLineStarts(o: Options, inp: RowInput, i: nat, d: nat, key: string, out: string)
    requires key !in {"key", "k", "value", "v"}
    ensures StartsWith(ValueLine(o, inp, i, d, key, out), Indent(o, d))
  {
    var ind := Indent(o, d);
    var line := ValueLine(o, inp, i, d, key, out);
    if StartsWith(TrimStart(out), "{") {
      assert line == ind + ("\"" + key + "\" " + out + "\n");
      StartsWithPrefix(line, ind, "\"" + key + "\" " + out + "\n");
    } else {
      CellNoteShape(inp.rowIndex, NoteAt(inp.noteRow, i), ind, "\"" + key + "\" \"" + out + "\"", false);
    }
  }

  /** The line of an ordinary header `key` whose cell became `out`, at
      indentation `ind`: an inline block `{...}` after the key, otherwise
      `"key" "out"`, with its note in front on the first data row. */
  function PlainLine(inp: RowInput, i: nat, ind: string, key: string, out: string): string {
    if StartsWith(TrimStart(out), "{") then ind + "\"" + key + "\" " + out + "\n"
    else CellNote(inp.rowIndex, NoteAt(inp.noteRow, i), ind, "\"" + key + "\" \"" + out + "\"", false)
  }

  /** An ordinary column changes no state and records nothing; it is
      skipped when its cell is blank, except under an `AbilityN` header;
      otherwise it writes the line of its normalised cell at exactly the
      current depth. */
  lemma PlainColumnLine(o: Options, inp: RowInput, st: EmitState, i: nat)
    requires ValidState(st) && 0 < i < |inp.keyRow| && IsPlainHeader(inp.keyRow[i])
    requires !st.wearables || IsBlank(At(inp.row, i))
    ensures ColumnState(inp, st, i) == st && ColumnEntries(inp, st, i) == []
    ensures var line := ColumnLine(o, inp, st, i);
      (line.None? <==> IsBlank(At(inp.row, i)) && !IsAbilityHeader(inp.keyRow[i])) &&
      (line.Some? ==>
         line.value == PlainLine(inp, i, Indent(o, |st.stack| + st.level), inp.keyRow[i], DealWithKvValue(o, At(inp.row, i))))
  {
    var key := inp.keyRow[i];
    var cell := At(inp.row, i);
    var d := |st.stack| + st.level;
    assert HeaderAt(inp.keyRow, i) == key;
    PlainHeaderClass(key, i, st.wearables, cell);
    if IsBlank(cell) && !IsAbilityHeader(key) {
      SkipColumn(o, inp, st, i);
    } else {
      ValueColumnState(inp, st, i);
      ValueColumnLine(o, inp, st, i);
      PlainValueLine(o, inp, i, d, key, DealWithKvValue(o, cell));
    }
  }

  /** For an ordinary header, the value line is the plain line at the
      depth. */
  lemma PlainValueLine(o: Options, inp: RowInput, i: nat, d: nat, key: string, out: string)
    requires key !in {"key", "k", "value", "v"}
    ensures ValueLine(o, inp, i, d, key, out) == PlainLine(inp, i, Indent(o, d), key, out)
  {
  }

  /** An `AbilityN` column with a blank cell still writes `"AbilityN" ""`. */
  lemma AbilityColumnAlwaysWritten(o: Options, inp: RowInput, st: EmitState, i: nat)
    requires ValidState(st) && 0 < i < |inp.keyRow| && IsPlainHeader(inp.keyRow[i])
    requires IsAbilityHeader(inp.keyRow[i]) && IsBlank(At(inp.row, i))
    requires !(inp.rowIndex == 0 && NoteAt(inp.noteRow, i).Some?)
    ensures ColumnState(inp, st, i) == st && ColumnEntries(inp, st, i) == []
    ensures ColumnLine(o, inp, st, i) == Some(Indent(o, |st.stack| + st.level) + "\"" + inp.keyRow[i] + "\" \"\"\n")
  {
    var key := inp.keyRow[i];
    var cell := At(inp.row, i);
    assert HeaderAt(inp.keyRow, i) == key;
    PlainHeaderClass(key, i, st.wearables, cell);
    ValueColumnState(inp, st, i);
    ValueColumnLine(o, inp, st, i);
    assert key != "value" && key != "v" && key != "key" && key != "k";
    if cell.Text? {
      assert LeadingDigits(cell.s) == 0;
      assert !NumericPattern(cell.s);
    }
    assert DealWithKvValue(o, cell) == "";
    assert TrimStart("") == "";
    var ind := Indent(o, |st.stack| + st.level);
    var note := NoteAt(inp.noteRow, i);
    assert ValueLine(o, inp, i, |st.stack| + st.level, key, "") ==
      CellNote(inp.rowIndex, note, ind, "\"" + key + "\" \"" + "" + "\"", false);
    assert ind + ("\"" + key + "\" \"" + "" + "\"") + "\n" == ind + "\"" + key + "\" \"\"\n";
  }

  /** The body of a block is one level deeper than its opening line: an
      ordinary column seen with the stack one deeper than at the opening
      header writes its line at exactly that line's indentation plus one
      unit. */
  lemma BlockBodyIsDeeper(o: Options, inp: RowInput, st: EmitState, st2: EmitState, j: nat)
    requires ValidState(st) && ValidState(st2)
    requires |st2.stack| == |st.stack| + 1 && st2.level == st.level
    requires 0 < j < |inp.keyRow| && IsPlainHeader(inp.keyRow[j])
    requires !st2.wearables || IsBlank(At(inp.row, j))
    requires !IsBlank(At(inp.row, j))
    ensures ColumnLine(o, inp, st2, j) ==
      Some(PlainLine(inp, j, Indent(o, |st.stack| + st.level) + IndentUnit(o), inp.keyRow[j], DealWithKvValue(o, At(inp.row, j))))
  {
    PlainColumnLine(o, inp, st2, j);
    IndentDeeper(o, |st.stack| + st.level);
  }

  /** `AttachWearables[` enters the wearables block and raises the level. */
  lemma WearablesBlockOpens(o: Options, inp: RowInput, st: EmitState, i: nat)
    requires ValidState(st) && 0 < i < |inp.keyRow| && inp.keyRow[i] == "AttachWearables["
    ensures ColumnState(inp, st, i) == st.(wearables := true, level := st.level + 1) && ColumnEntries(inp, st, i) == []
    ensures ColumnLine(o, inp, st, i) == Some(OpenLine(o, inp, i, st.level + 1, "AttachWearables[", "["))
  {
  }

  /** Inside the wearables block every non-blank cell, whatever its header
      (even a `#Loc` one), is written as a wearable one level deeper, and
      the state is unchanged; `]` leaves the block at the indentation the
      block was opened at. */
  lemma WearablesBody(o: Options, inp: RowInput, st: EmitState, i: nat)
    requires ValidState(st) && st.wearables && 0 < i < |inp.keyRow|
    requires inp.keyRow[i] !in {"", "_name", "_desc", "AttachWearables[", "]"}
    requires !IsBlank(At(inp.row, i))
    ensures ColumnState(inp, st, i) == st && ColumnEntries(inp, st, i) == []
    ensures ColumnLine(o, inp, st, i) == Some(WearableLine(o, st.level, inp.keyRow[i], At(inp.row, i).s))
  {
  }

  lemma WearablesBlockCloses(o: Options, inp: RowInput, st: EmitState, i: nat)
    requires ValidState(st) && st.wearables && 0 < i < |inp.keyRow| && inp.keyRow[i] == "]"
    ensures ColumnState(inp, st, i) == st.(wearables := false, level := st.level - 1) && ColumnEntries(inp, st, i) == []
    ensures ColumnLine(o, inp, st, i) == Some(Indent(o, st.level) + "}\n")
  {
  }

  /** A wearable whose cell is not an inline block is an `ItemDef` in a
      `"Wearable<header>"` block. */
  lemma WearableItemDef(o: Options, level: nat, key: string, cell: string)
    requires !StartsWith(TrimStart(cell), "{")
    ensures var ind := Indent(o, level + 1);
      StartsWith(WearableLine(o, level, key, cell), ind + "\"Wearable" + key + "\" \n" + ind + "{\n") &&
      EndsWith(WearableLine(o, level, key, cell), "\"ItemDef\" \"" + cell + "\"\n" + ind + "}\n")
  {
    var ind := Indent(o, level + 1);
    var a := ind + "\"Wearable" + key + "\" \n" + ind + "{\n";
    var b := Indent(o, level + 2);
    var c := "\"ItemDef\" \"" + cell + "\"\n" + ind + "}\n";
    var line := WearableLine(o, level, key, cell);
    assert line == a + b + c;
    assert line[..|a|] == a;
    assert line[|line| - |c|..] == c;
  }

  // Properties of the whole row

  /** The number of columns after the first whose header is a localization
      header and whose cell is not blank. */
  function LocColumns(inp: RowInput, n: nat): nat {
    if n == 0 then 0
    else
      var counted := n - 1 > 0 && IsLocHeader(HeaderAt(inp.keyRow, n - 1)) && !IsBlank(At(inp.row, n - 1));
      LocColumns(inp, n - 1) + if counted then 1 else 0
  }

  /** Every entry comes from a distinct localization column: there are at
      most as many entries as such columns. */
  lemma {:induction false} EntriesBoundedByLocColumns(o: Options, inp: RowInput, n: nat)
    requires n <= |inp.keyRow|
    ensures |WalkColumns(o, inp, n).entries| <= LocColumns(inp, n)
  {
    if n > 0 {
      EntriesBoundedByLocColumns(o, inp, n - 1);
    }
  }

  /** A row under a title row without localization headers records
      nothing. */
  lemma NoLocHeadersNoEntries(o: Options, inp: RowInput)
    requires forall j :: 0 < j < |inp.keyRow| ==> !IsLocHeader(inp.keyRow[j])
    ensures RowEntries(o, inp) == []
  {
    NoLocColumns(inp, |inp.keyRow|);
    EntriesBoundedByLocColumns(o, inp, |inp.keyRow|);
  }

  lemma {:induction false} NoLocColumns(inp: RowInput, n: nat)
    requires n <= |inp.keyRow|
    requires forall j :: 0 < j < |inp.keyRow| ==> !IsLocHeader(inp.keyRow[j])
    ensures LocColumns(inp, n) == 0
  {
    if n > 0 {
      NoLocColumns(inp, n - 1);
    }
  }

  /** Under `#ValuesLoc` a cell always has a label, so the counter is
      never moved. */
  lemma ValuesLocHasLabel(text: string)
    ensures ValuesLocLabel("#ValuesLoc", text) != ""
  {
    ValuesLocHeaderIsNotNumber();
  }

  /** Only the header `#ValuesLoc` is classified as such. */
  lemma ValuesLocKind(key: string, i: nat, wearables: bool, cell: Cell)
    ensures Classify(key, i, wearables, cell) == ValuesLoc ==> key == "#ValuesLoc"
  {
  }

  /** No column moves the `unknown_var_` counter. */
  lemma ColumnKeepsVarIndex(inp: RowInput, st: EmitState, i: nat)
    requires ValidState(st)
    ensures ColumnState(inp, st, i).varIndex == st.varIndex
  {
    var cell := At(inp.row, i);
    ValuesLocKind(HeaderAt(inp.keyRow, i), i, st.wearables, cell);
    if HeaderAt(inp.keyRow, i) == "#ValuesLoc" && !IsBlank(cell) {
      ValuesLocHasLabel(cell.s);
    }
  }

  /** So the counter stays at zero over the whole row: the `unknown_var_`
      names are never generated. */
  lemma {:induction false} VarIndexStaysZero(o: Options, inp: RowInput, n: nat)
    requires n <= |inp.keyRow|
    ensures WalkColumns(o, inp, n).state.varIndex == 0
  {
    if n > 0 {
      var w := WalkColumns(o, inp, n - 1);
      VarIndexStaysZero(o, inp, n - 1);
      WalkNext(o, inp, n - 1, w.state, w.lines, w.entries);
      ColumnKeepsVarIndex(inp, w.state, n - 1);
    }
  }

  /** The row as written holds no empty block. */
  lemma RowLinesHaveNoEmptyBlock(o: Options, inp: RowInput)
    ensures NoEmptyPair(RowLines(o, inp))
  {
    CollapsedHasNoEmptyPair(WalkColumns(o, inp, |inp.keyRow|).lines);
  }
}
