/** The plugin instance: the options it was created with, the localization
    entries it has collected (`locTokens`) and the output files it has
    written (`genratedFiles`).  Both lists live as long as the plugin and
    only grow. */
module Plugin {
  import opened JsString
  import opened SheetTypes
  import opened KvValue
  import opened Collapse
  import opened RowEmitter
  import opened MainKeyGrouping
  import opened SheetOutput
  import opened Workbook

  class SheetToKV {
    const opts: Options
    var locTokens: seq<LocEntry>
    var generatedFiles: seq<string>

    /** The duplicate check keeps every output name listed once. */
    ghost predicate Valid()
      reads this
    {
      NoDuplicates(generatedFiles)
    }

    constructor(o: Options)
      ensures opts == o && locTokens == [] && generatedFiles == [] && Valid()
    {
      opts := o;
      locTokens := [];
      generatedFiles := [];
    }

    /** The `key_row.map` callback for column `i`: it reads and updates the
        walk's variables and may push one localization entry. */
    method MapColumn(inp: RowInput, i: nat, stack: seq<string>, level: nat, wearables: bool, varIndex: nat)
      returns (line: Option<string>, stack': seq<string>, level': nat, wearables': bool, varIndex': nat)
      requires ValidState(EmitState(stack, level, wearables, varIndex))
      modifies this`locTokens
      ensures var st := EmitState(stack, level, wearables, varIndex);
        line == ColumnLine(opts, inp, st, i) && EmitState(stack', level', wearables', varIndex') == ColumnState(inp, st, i) &&
        locTokens == old(locTokens) + ColumnEntries(inp, st, i)
    {
      ghost var st := EmitState(stack, level, wearables, varIndex);
      if Classify(HeaderAt(inp.keyRow, i), i, wearables, At(inp.row, i)) in {Loc, ValuesLoc} {
        LocKindColumn(opts, inp, st, i);
        line, stack', level', wearables' := None, stack, level, wearables;
        varIndex' := HarvestLoc(inp, i, stack, level, wearables, varIndex);
      } else {
        line, stack', level', wearables' := LayoutColumn(inp, i, stack, level, wearables, varIndex);
        varIndex' := varIndex;
        assert ColumnEntries(inp, st, i) == [];
      }
    }

    /** Every column other than a localization column: the line it yields
        and the stack, level and wearables flag it leaves. */
    method LayoutColumn(inp: RowInput, i: nat, stack: seq<string>, level: nat, wearables: bool, varIndex: nat)
      returns (line: Option<string>, stack': seq<string>, level': nat, wearables': bool)
      requires ValidState(EmitState(stack, level, wearables, varIndex))
      requires Classify(HeaderAt(inp.keyRow, i), i, wearables, At(inp.row, i)) !in {Loc, ValuesLoc}
      ensures var st := EmitState(stack, level, wearables, varIndex);
        line == ColumnLine(opts, inp, st, i) && EmitState(stack', level', wearables', varIndex) == ColumnState(inp, st, i)
    {
      var key := HeaderAt(inp.keyRow, i);
      var cell := At(inp.row, i);
      ghost var st := EmitState(stack, level, wearables, varIndex);
      stack', level', wearables' := stack, level, wearables;
      line := None;
      match Classify(key, i, wearables, cell)
      case Skip =>
        SkipColumn(opts, inp, st, i);
      case MainKey =>
        MainKeyColumn(opts, inp, st, i);
        line := Some(MainKeyLine(opts, inp, level));
        level' := level + 1;
      case WearablesOpen =>
        WearablesOpenColumn(opts, inp, st, i);
        wearables' := true;
        level' := level + 1;
        line := Some(OpenLine(opts, inp, i, level', key, "["));
      case WearablesClose =>
        WearablesCloseColumn(opts, inp, st, i);
        wearables' := false;
        level' := level - 1;
        line := Some(CloseLine(opts, level' + 1));
      case Wearable =>
        WearableColumn(opts, inp, st, i);
        line := Some(WearableLine(opts, level, key, cell.s));
      case OpenBlock(bracket) =>
        OpenBlockState(inp, st, i, bracket);
        OpenBlockLine(opts, inp, st, i, bracket);
        stack' := [key] + stack;
        line := Some(OpenLine(opts, inp, i, |stack'| + level - 1, key, bracket));
      case CloseBlock =>
        CloseBlockColumn(opts, inp, st, i);
        if stack != [] {
          stack' := stack[1..];
        }
        line := Some(CloseLine(opts, |stack'| + level));
      case Value =>
        ValueColumnState(inp, st, i);
        ValueColumnLine(opts, inp, st, i);
        var out := DealWithKvValue(opts, cell);
        line := Some(ValueLine(opts, inp, i, |stack| + level, key, out));
    }

    /** A `#Loc` or `#ValuesLoc` column (sheetToKV.ts lines 226-273): at
        most one entry pushed, and `varIndex` moved on when a label had to
        be made up. */
    method HarvestLoc(inp: RowInput, i: nat, stack: seq<string>, level: nat, wearables: bool, varIndex: nat)
      returns (varIndex': nat)
      requires ValidState(EmitState(stack, level, wearables, varIndex))
      requires Classify(HeaderAt(inp.keyRow, i), i, wearables, At(inp.row, i)) in {Loc, ValuesLoc}
      modifies this`locTokens
      ensures var st := EmitState(stack, level, wearables, varIndex);
        ColumnState(inp, st, i) == EmitState(stack, level, wearables, varIndex') &&
        locTokens == old(locTokens) + ColumnEntries(inp, st, i)
    {
      var key := HeaderAt(inp.keyRow, i);
      var cell := At(inp.row, i);
      var mainKey := Str(At(inp.row, 0));
      ghost var st := EmitState(stack, level, wearables, varIndex);
      varIndex' := varIndex;
      if Classify(key, i, wearables, cell) == Loc {
        LocColumn(inp, st, i);
        if !IsBlank(cell) && Trim(cell.s) != "" {
          var locKey := ReplaceFirst(ReplaceFirst(key, "#Loc", ""), "{}", mainKey);
          locTokens := locTokens + [LocEntry(locKey, cell.s)];
        }
      } else if !IsBlank(cell) {
        ValuesLocColumn(inp, st, i);
        var text := cell.s;
        var valuesKey := "";
        if !IsNumberText(key) {
          valuesKey := key;
        }
        var token := FirstToken(text);
        if !IsNumberText(token) {
          valuesKey := token;
          text := ReplaceFirst(text, token + " ", "");
        }
        if valuesKey == "" {
          valuesKey := "unknown_var_" + NatToString(varIndex);
          varIndex' := varIndex + 1;
        }
        if text != "" && Trim(text) != "" {
          locTokens := locTokens + [LocEntry(ValuesLocKey(mainKey, valuesKey), text)];
        }
      } else {
        ValuesLocColumn(inp, st, i);
      }
    }

    /** The `key_row.map` walk with its `.filter` (sheetToKV.ts lines
        143-338): the lines of the columns that yield one, in column order,
        with the walk's variables starting at an empty stack and level one
        or two. */
    method WalkRow(inp: RowInput) returns (rowCells: seq<string>)
      modifies this`locTokens
      ensures rowCells == WalkColumns(opts, inp, |inp.keyRow|).lines
      ensures locTokens == old(locTokens) + RowEntries(opts, inp)
    {
      var listValuesBlock: seq<string> := [];
      var indentLevel: nat := if inp.isArray then 2 else 1;
      var attachWearablesBlock := false;
      var varIndex: nat := 0;
      rowCells := [];
      ghost var recorded: seq<LocEntry> := [];
      var i := 0;
      while i < |inp.keyRow|
        invariant 0 <= i <= |inp.keyRow|
        invariant locTokens == old(locTokens) + recorded
        invariant WalkColumns(opts, inp, i) ==
          Walk(EmitState(listValuesBlock, indentLevel, attachWearablesBlock, varIndex), rowCells, recorded)
      {
        WalkNext(opts, inp, i, EmitState(listValuesBlock, indentLevel, attachWearablesBlock, varIndex), rowCells, recorded);
        ghost var before := locTokens;
        var line;
        line, listValuesBlock, indentLevel, attachWearablesBlock, varIndex :=
          MapColumn(inp, i, listValuesBlock, indentLevel, attachWearablesBlock, varIndex);
        AppendAssoc(old(locTokens), recorded, locTokens[|before|..]);
        recorded := recorded + locTokens[|before|..];
        if line.Some? {
          rowCells := rowCells + [line.value];
        }
        i := i + 1;
      }
    }

    /** `convert_row_to_kv` (sheetToKV.ts lines 112-359): the text of one
        data row, with the entries its localization columns record pushed
        onto `locTokens`. */
    method ConvertRowToKV(inp: RowInput) returns (text: string)
      modifies this`locTokens
      ensures text == RowText(opts, inp)
      ensures locTokens == old(locTokens) + RowEntries(opts, inp)
    {
      var rowCells := WalkRow(inp);
      rowCells := CollapseEmptyContainers(rowCells);
      var endTail := if inp.isArray then opts.indent + "}" else "}";
      text := Join(rowCells, "") + opts.indent + endTail + "\n";
    }

    /** One piece of the grouping plan: the group's opening line, its
        closing line, or a converted row. */
    method ConvertPiece(kvData: seq<seq<Cell>>, noteRow: seq<string>, keyRow: seq<string>, p: Piece)
      returns (t: string)
      modifies this`locTokens
      ensures t == PieceText(opts, kvData, noteRow, keyRow, p)
      ensures locTokens == old(locTokens) + PieceEntries(opts, kvData, noteRow, keyRow, p)
    {
      var indentStr := Indent(opts, 1);
      match p
      case OpenGroup(key) =>
        t := indentStr + "\"" + key + "\" {\n";
      case CloseGroup =>
        t := indentStr + "}\n";
      case EmitRow(r, isArray, arrayIndex) =>
        t := ConvertRowToKV(RowArgs(kvData, noteRow, keyRow, r, isArray, arrayIndex));
    }

    /** `kv_data_complex.join('')` (sheetToKV.ts lines 451-486): the pieces
        of the grouping plan in order, each row converted as it comes. */
    method ConvertRows(kvData: seq<seq<Cell>>, noteRow: seq<string>, keyRow: seq<string>, plan: seq<Piece>)
      returns (body: string)
      modifies this`locTokens
      ensures body == Render(opts, kvData, noteRow, keyRow, plan)
      ensures locTokens == old(locTokens) + PlanEntries(opts, kvData, noteRow, keyRow, plan)
    {
      body := "";
      var k := 0;
      while k < |plan|
        invariant 0 <= k <= |plan|
        invariant body == Render(opts, kvData, noteRow, keyRow, plan[..k])
        invariant locTokens == old(locTokens) + PlanEntries(opts, kvData, noteRow, keyRow, plan[..k])
      {
        var t := ConvertPiece(kvData, noteRow, keyRow, plan[k]);
        RenderSnoc(opts, kvData, noteRow, keyRow, plan, k);
        AppendAssoc(old(locTokens), PlanEntries(opts, kvData, noteRow, keyRow, plan[..k]), PieceEntries(opts, kvData, noteRow, keyRow, plan[k]));
        body := body + t;
        k := k + 1;
      }
      assert plan[..|plan|] == plan;
    }

    /** The duplicate check (sheetToKV.ts lines 517-523): a name already
        written is refused and the list is left alone; a new one is
        appended once. */
    method RegisterOutput(fullName: string) returns (ok: bool)
      requires Valid()
      modifies this`generatedFiles
      ensures Valid()
      ensures ok <==> fullName !in old(generatedFiles)
      ensures generatedFiles == if ok then old(generatedFiles) + [fullName] else old(generatedFiles)
    {
      if fullName in generatedFiles {
        return false;
      }
      generatedFiles := generatedFiles + [fullName];
      return true;
    }

    /** The data rows of a sheet (sheetToKV.ts lines 430-499): the
        fast-path body named after the sheet, or the grouped rows named by
        what they contain; the entries the rows record are pushed. */
    method SheetContents(sheetName: string, kvData: seq<seq<Cell>>, noteRow: seq<string>, keyRow: seq<string>)
      returns (t: SheetText)
      modifies this`locTokens
      ensures t == SheetBody(opts, sheetName, kvData, noteRow, keyRow)
      ensures locTokens == old(locTokens) + t.entries
    {
      if IsSimpleKV(opts, keyRow) {
        t := SheetText(SimpleKVBody(kvData), sheetName, []);
      } else {
        var mark := |locTokens|;
        var plan := PlanMainKeyGroups(kvData);
        var body := ConvertRows(kvData, noteRow, keyRow, plan);
        t := SheetText(body, ContainerName(body, sheetName), locTokens[mark..]);
      }
    }

    /** The conversion of one sheet of workbook `basename` in directory
        `dirname` up to the duplicate check (sheetToKV.ts lines 379-516),
        with the entries of its rows pushed. */
    method ReadSheet(basename: string, dirname: string, sheet: Sheet) returns (c: Conversion)
      modifies this`locTokens
      ensures c == ConvertSheetSpec(opts, basename, dirname, sheet)
      ensures locTokens == old(locTokens) + EntriesOf(c)
    {
      ConvertSheetCases(opts, basename, dirname, sheet);
      if opts.sheetsIgnore(sheet.name) || |sheet.data| == 0 {
        return Skipped;
      }
      if !HasHeaderRows(opts, sheet.data) {
        return Failed(MissingHeaderRow(sheet.name));
      }
      if |sheet.data| == opts.keyRowNumber {
        return Skipped;
      }
      c := ReadRows(basename, dirname, sheet);
    }

    /** A sheet with its header rows and some data rows: the file around
        the body of its data rows. */
    method ReadRows(basename: string, dirname: string, sheet: Sheet) returns (c: Conversion)
      requires !opts.sheetsIgnore(sheet.name) && HasHeaderRows(opts, sheet.data) && |sheet.data| > opts.keyRowNumber
      modifies this`locTokens
      ensures c.Converted? && locTokens == old(locTokens) + c.entries
      ensures c == ConvertSheetSpec(opts, basename, dirname, sheet)
    {
      var noteRow := HeaderRow(sheet.data[opts.keyRowNumber - 2]);
      var keyRow := HeaderRow(sheet.data[opts.keyRowNumber - 1]);
      var kvData := sheet.data[opts.keyRowNumber..];
      var t := SheetContents(sheet.name, kvData, noteRow, keyRow);
      var baseName := sheet.name + opts.kvFileExt;
      ConvertedSheet(opts, basename, dirname, sheet, t);
      c := Converted(sheet.name, baseName, opts.joinPath(dirname, baseName), t.fileName, t.body, t.entries);
    }

    /** One sheet (sheetToKV.ts lines 379-527): its conversion, or the
        duplicate error when its output name was written before.  The
        entries of its rows are recorded either way. */
    method ConvertSheet(basename: string, dirname: string, sheet: Sheet) returns (r: Conversion)
      requires Valid()
      modifies this`locTokens, this`generatedFiles
      ensures Valid()
      ensures var spec := ConvertSheetSpec(opts, basename, dirname, sheet);
        locTokens == old(locTokens) + EntriesOf(spec) &&
        r == (if spec.Converted? && spec.fullName in old(generatedFiles) then Failed(DuplicatedKVFile(spec.fullName)) else spec)
      ensures generatedFiles == if r.Converted? then old(generatedFiles) + [r.fullName] else old(generatedFiles)
    {
      r := ReadSheet(basename, dirname, sheet);
      if r.Converted? {
        var ok := RegisterOutput(r.fullName);
        if !ok {
          r := Failed(DuplicatedKVFile(r.fullName));
        }
      }
    }

    /** `workbook.forEach` (sheetToKV.ts lines 378-530): the sheets in
        order, until one fails; the files written and the error, if any. */
    method ConvertWorkbook(basename: string, dirname: string, sheets: seq<Sheet>)
      returns (files: seq<Conversion>, error: Option<ConvertError>)
      requires Valid()
      modifies this`locTokens, this`generatedFiles
      ensures Valid()
      ensures var run := RunWorkbook(opts, basename, dirname, sheets, old(generatedFiles));
        files == run.files && error == run.error && generatedFiles == run.generated &&
        locTokens == old(locTokens) + run.entries
    {
      ghost var convs := SheetConversions(opts, basename, dirname, sheets);
      ghost var recorded: seq<LocEntry> := [];
      files, error := [], None;
      LoopStart(convs, generatedFiles);
      var k := 0;
      while k < |sheets| && error == None
        invariant 0 <= k <= |sheets|
        invariant Valid()
        invariant locTokens == old(locTokens) + recorded
        invariant LoopState(convs, old(generatedFiles), k, files, generatedFiles, recorded, error)
        decreases |sheets| - k
      {
        ghost var generated := generatedFiles;
        var c := ConvertSheet(basename, dirname, sheets[k]);
        LoopStep(convs, old(generatedFiles), k, files, generated, recorded, c);
        AppendAssoc(old(locTokens), recorded, EntriesOf(convs[k]));
        recorded := recorded + EntriesOf(convs[k]);
        if c.Failed? {
          error := Some(c.error);
        } else if c.Converted? {
          files := files + [c];
        }
        k := k + 1;
      }
      LoopEnd(convs, old(generatedFiles), k, files, generatedFiles, recorded, error);
    }
  }
}
