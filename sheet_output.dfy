/** What `convert` writes for one sheet: the body (two-column fast path or
    grouped rows), the name of the root object, the file around it, and the
    localization entries collected on the way. */
module SheetOutput {
  import opened JsString
  import opened SheetTypes
  import opened RowEmitter
  import opened MainKeyGrouping

  /** A sheet of a workbook, as the spreadsheet reader hands it over. */
  datatype Sheet = Sheet(name: string, data: seq<seq<Cell>>)

  // The two-column fast path

  /** `\t"${row[0]}" "${row[1]}"` */
  function SimpleKVLine(row: seq<Cell>): string {
    "\t\"" + Str(At(row, 0)) + "\" \"" + Str(At(row, 1)) + "\""
  }

  function SimpleKVLines(rows: seq<seq<Cell>>): (r: seq<string>)
    ensures |r| == |rows| && forall j :: 0 <= j < |rows| ==> r[j] == SimpleKVLine(rows[j])
  {
    seq(|rows|, j requires 0 <= j < |rows| => SimpleKVLine(rows[j]))
  }

  /** `kv_data.map(...).join('\n')` */
  function SimpleKVBody(rows: seq<seq<Cell>>): string {
    Join(SimpleKVLines(rows), "\n")
  }

  /** A cell whose text holds no line break. */
  predicate SingleLine(c: Cell) {
    '\n' !in Str(c)
  }

  /** The fast-path body has one line per data row, in order: splitting it
      at line breaks gives back each row's `"key" "value"` line, provided
      no cell of the first two columns holds a line break. */
  lemma SimpleKVBodyLines(rows: seq<seq<Cell>>)
    requires |rows| > 0
    requires forall j :: 0 <= j < |rows| ==> SingleLine(At(rows[j], 0)) && SingleLine(At(rows[j], 1))
    ensures Split(SimpleKVBody(rows), '\n') == SimpleKVLines(rows)
  {
    var lines := SimpleKVLines(rows);
    forall j | 0 <= j < |lines|
      ensures '\n' !in lines[j]
    {
      var a, b := Str(At(rows[j], 0)), Str(At(rows[j], 1));
      assert lines[j] == "\t\"" + a + "\" \"" + b + "\"";
    }
    SplitJoin(lines, '\n');
  }

  // The name of the root object

  /** The `file_name` chain: the first marker the body contains names the
      root object; without one, the sheet does. */
  function ContainerName(body: string, sheetName: string): (r: string)
    ensures r in {"DOTAHeroes", "DOTAUnits", "DOTAItems", "DOTAAbilities", sheetName}
  {
    if Contains(body, "override_hero") then "DOTAHeroes"
    else if Contains(body, "AttackCapabilities") then "DOTAUnits"
    else if Contains(body, "BaseClass") && (Contains(body, "item_lua") || Contains(body, "item_datadriven")) then "DOTAItems"
    else if Contains(body, "BaseClass") && (Contains(body, "ability_lua") || Contains(body, "ability_datadriven")) then "DOTAAbilities"
    else sheetName
  }

  /** The markers of the root-object names. */
  predicate IsHeroes(body: string) { Contains(body, "override_hero") }
  predicate IsUnits(body: string) { Contains(body, "AttackCapabilities") }
  predicate IsItems(body: string) {
    Contains(body, "BaseClass") && (Contains(body, "item_lua") || Contains(body, "item_datadriven"))
  }
  predicate IsAbilities(body: string) {
    Contains(body, "BaseClass") && (Contains(body, "ability_lua") || Contains(body, "ability_datadriven"))
  }

  /** For every sheet name: the first marker present names the root
      object, and with no marker the sheet does. */
  lemma ContainerNameByMarker(body: string, sheetName: string)
    ensures var r := ContainerName(body, sheetName);
      (IsHeroes(body) ==> r == "DOTAHeroes") &&
      (!IsHeroes(body) && IsUnits(body) ==> r == "DOTAUnits") &&
      (!IsHeroes(body) && !IsUnits(body) && IsItems(body) ==> r == "DOTAItems") &&
      (!IsHeroes(body) && !IsUnits(body) && !IsItems(body) && IsAbilities(body) ==> r == "DOTAAbilities") &&
      (!IsHeroes(body) && !IsUnits(body) && !IsItems(body) && !IsAbilities(body) ==> r == sheetName)
  {
  }

  /** A sheet named like one of the four gets that name when its body has
      no marker: the name alone does not tell which branch was taken. */
  lemma SheetNamedLikeMarker(body: string)
    requires !IsHeroes(body) && !IsUnits(body) && !IsItems(body) && !IsAbilities(body)
    ensures ContainerName(body, "DOTAUnits") == "DOTAUnits" && !IsUnits(body)
  {
  }

  /** Each name is chosen exactly when its marker is present and no
      earlier marker is, and the sheet name exactly when none is (for a
      sheet not itself named like one of the four). */
  lemma ContainerNameChoice(body: string, sheetName: string)
    requires sheetName !in {"DOTAHeroes", "DOTAUnits", "DOTAItems", "DOTAAbilities"}
    ensures var r := ContainerName(body, sheetName);
      (r == "DOTAHeroes" <==> IsHeroes(body)) &&
      (r == "DOTAUnits" <==> !IsHeroes(body) && IsUnits(body)) &&
      (r == "DOTAItems" <==> !IsHeroes(body) && !IsUnits(body) && IsItems(body)) &&
      (r == "DOTAAbilities" <==> !IsHeroes(body) && !IsUnits(body) && !IsItems(body) && IsAbilities(body)) &&
      (r == sheetName <==> !IsHeroes(body) && !IsUnits(body) && !IsItems(body) && !IsAbilities(body))
  {
  }

  // The grouped body

  /** `kv_data[r]`, or an empty row past the end. */
  function RowAt(rows: seq<seq<Cell>>, r: nat): seq<Cell> {
    if r < |rows| then rows[r] else []
  }

  /** The arguments `convert_row_to_kv` gets for a written row. */
  function RowArgs(kvData: seq<seq<Cell>>, noteRow: seq<string>, keyRow: seq<string>, r: nat, isArray: bool, arrayIndex: nat): RowInput {
    RowInput(RowAt(kvData, r), r, noteRow, keyRow, isArray, arrayIndex)
  }

  /** The text of one piece: a group's lines sit one indentation unit in. */
  function PieceText(o: Options, kvData: seq<seq<Cell>>, noteRow: seq<string>, keyRow: seq<string>, p: Piece): string {
    match p
    case OpenGroup(k) => Indent(o, 1) + "\"" + k + "\" {\n"
    case CloseGroup => Indent(o, 1) + "}\n"
    case EmitRow(r, isArray, arrayIndex) => RowText(o, RowArgs(kvData, noteRow, keyRow, r, isArray, arrayIndex))
  }

  /** The entries one piece records. */
  function PieceEntries(o: Options, kvData: seq<seq<Cell>>, noteRow: seq<string>, keyRow: seq<string>, p: Piece): seq<LocEntry> {
    match p
    case EmitRow(r, isArray, arrayIndex) => RowEntries(o, RowArgs(kvData, noteRow, keyRow, r, isArray, arrayIndex))
    case _ => []
  }

  /** `kv_data_complex.join('')`, with the trailing close. */
  function Render(o: Options, kvData: seq<seq<Cell>>, noteRow: seq<string>, keyRow: seq<string>, plan: seq<Piece>): string
    decreases |plan|, 1
  {
    if |plan| == 0 then "" else RenderLast(o, kvData, noteRow, keyRow, plan)
  }

  /** The text of a non-empty plan: that of all but its last piece, then
      the last piece's. */
  function RenderLast(o: Options, kvData: seq<seq<Cell>>, noteRow: seq<string>, keyRow: seq<string>, plan: seq<Piece>): string
    requires |plan| > 0
    decreases |plan|, 0
  {
    Render(o, kvData, noteRow, keyRow, plan[..|plan| - 1]) + PieceText(o, kvData, noteRow, keyRow, plan[|plan| - 1])
  }

  /** The entries all rows of a plan record, in order. */
  function PlanEntries(o: Options, kvData: seq<seq<Cell>>, noteRow: seq<string>, keyRow: seq<string>, plan: seq<Piece>): seq<LocEntry>
    decreases |plan|, 1
  {
    if |plan| == 0 then [] else PlanEntriesLast(o, kvData, noteRow, keyRow, plan)
  }

  /** The entries of a non-empty plan: those of all but its last piece,
      then the last piece's. */
  function PlanEntriesLast(o: Options, kvData: seq<seq<Cell>>, noteRow: seq<string>, keyRow: seq<string>, plan: seq<Piece>): seq<LocEntry>
    requires |plan| > 0
    decreases |plan|, 0
  {
    PlanEntries(o, kvData, noteRow, keyRow, plan[..|plan| - 1]) + PieceEntries(o, kvData, noteRow, keyRow, plan[|plan| - 1])
  }

  /** Rendering one more piece appends its text and its entries. */
  lemma RenderSnoc(o: Options, kvData: seq<seq<Cell>>, noteRow: seq<string>, keyRow: seq<string>, plan: seq<Piece>, k: nat)
    requires k < |plan|
    ensures Render(o, kvData, noteRow, keyRow, plan[..k + 1]) ==
      Render(o, kvData, noteRow, keyRow, plan[..k]) + PieceText(o, kvData, noteRow, keyRow, plan[k])
    ensures PlanEntries(o, kvData, noteRow, keyRow, plan[..k + 1]) ==
      PlanEntries(o, kvData, noteRow, keyRow, plan[..k]) + PieceEntries(o, kvData, noteRow, keyRow, plan[k])
  {
    assert plan[..k + 1][..k] == plan[..k];
  }

  /** A sheet whose title row has no localization header records nothing. */
  lemma {:induction false} NoLocHeadersNoPlanEntries(o: Options, kvData: seq<seq<Cell>>, noteRow: seq<string>, keyRow: seq<string>, plan: seq<Piece>)
    requires forall j :: 0 < j < |keyRow| ==> !IsLocHeader(keyRow[j])
    ensures PlanEntries(o, kvData, noteRow, keyRow, plan) == []
  {
    if |plan| > 0 {
      NoLocHeadersNoPlanEntries(o, kvData, noteRow, keyRow, plan[..|plan| - 1]);
      match plan[|plan| - 1]
      case EmitRow(r, isArray, arrayIndex) =>
        NoLocHeadersNoEntries(o, RowArgs(kvData, noteRow, keyRow, r, isArray, arrayIndex));
      case _ =>
    }
  }

  // The file

  /** The three provenance comments at the head of every file. */
  function Provenance(basename: string, sheetName: string): string {
    "\n// this file is auto-generated by Xavier's sheet_to_kv from\n// " + basename + " " + sheetName +
    "\n// SourceCode: https://github.com/XavierCHN/gulp-dotax/blob/master/src/sheetToKV.ts" +
    "\n// Template: https://github.com/XavierCHN/x-template\n"
  }

  /** The root object: `"fileName"`, then the body between braces on lines
      of their own. */
  function RootObject(fileName: string, body: string): string {
    "\"" + fileName + "\"\n{\n" + body + "\n}\n"
  }

  /** The file `convert` writes. */
  function OutputText(basename: string, sheetName: string, fileName: string, body: string): string {
    Provenance(basename, sheetName) + RootObject(fileName, body)
  }

  /** The file ends with the root object, which holds the body as it is
      between its braces. */
  lemma OutputWrapsBody(basename: string, sheetName: string, fileName: string, body: string)
    ensures var t := OutputText(basename, sheetName, fileName, body);
      EndsWith(t, RootObject(fileName, body)) &&
      var r := RootObject(fileName, body);
      StartsWith(r, "\"" + fileName + "\"\n{\n") && EndsWith(r, body + "\n}\n")
  {
    var t := OutputText(basename, sheetName, fileName, body);
    var r := RootObject(fileName, body);
    var open := "\"" + fileName + "\"\n{\n";
    assert r == open + (body + "\n}\n");
    assert t[|t| - |r|..] == r;
  }

  // One sheet

  datatype ConvertError = MissingHeaderRow(sheet: string) | DuplicatedKVFile(fullName: string)

  /** What a sheet comes to: nothing, a file, or an error.  A file is
      described by the sheet it comes from, its base name and full path,
      the name of its root object and the body inside it; its text is
      `Contents`.  The entries its rows record come with it. */
  datatype Conversion =
    | Skipped
    | Converted(sheetName: string, baseName: string, fullName: string, fileName: string, body: string,
                entries: seq<LocEntry>)
    | Failed(error: ConvertError)

  /** The text of the file written for a conversion of workbook `basename`. */
  function Contents(basename: string, c: Conversion): string
    requires c.Converted?
  {
    OutputText(basename, c.sheetName, c.fileName, c.body)
  }

  /** The note row and title row exist: `sheet_data[keyRowNumber - 2]` and
      `sheet_data[keyRowNumber - 1]` are rows (otherwise `.map` is called on
      `undefined` and the conversion throws). */
  predicate HasHeaderRows(o: Options, data: seq<seq<Cell>>) {
    2 <= o.keyRowNumber <= |data|
  }

  /** The title row decides the fast path: exactly two cells, when
      `autoSimpleKV` is on. */
  predicate IsSimpleKV(o: Options, keyRow: seq<string>) {
    |keyRow| == 2 && o.autoSimpleKV
  }

  /** What the data rows of a sheet give: the body, the name of the root
      object and the localization entries recorded. */
  datatype SheetText = SheetText(body: string, fileName: string, entries: seq<LocEntry>)

  function SheetBody(o: Options, sheetName: string, kvData: seq<seq<Cell>>, noteRow: seq<string>, keyRow: seq<string>): SheetText {
    if IsSimpleKV(o, keyRow) then SheetText(SimpleKVBody(kvData), sheetName, [])
    else
      var plan := Plan(kvData);
      var body := Render(o, kvData, noteRow, keyRow, plan);
      SheetText(body, ContainerName(body, sheetName), PlanEntries(o, kvData, noteRow, keyRow, plan))
  }

  /** The conversion of one sheet of the workbook `basename` in directory
      `dirname`, before the duplicate-output check (sheetToKV.ts lines
      379-521). */
  function ConvertSheetSpec(o: Options, basename: string, dirname: string, sheet: Sheet): (r: Conversion)
    ensures r.Converted? ==> r.baseName == sheet.name + o.kvFileExt && r.fullName == o.joinPath(dirname, r.baseName)
    ensures r.Failed? ==> r.error == MissingHeaderRow(sheet.name)
  {
    if o.sheetsIgnore(sheet.name) || |sheet.data| == 0 then Skipped
    else if !HasHeaderRows(o, sheet.data) then Failed(MissingHeaderRow(sheet.name))
    else
      var noteRow := HeaderRow(sheet.data[o.keyRowNumber - 2]);
      var keyRow := HeaderRow(sheet.data[o.keyRowNumber - 1]);
      var kvData := sheet.data[o.keyRowNumber..];
      if |kvData| == 0 then Skipped
      else
        var t := SheetBody(o, sheet.name, kvData, noteRow, keyRow);
        var baseName := sheet.name + o.kvFileExt;
        Converted(sheet.name, baseName, o.joinPath(dirname, baseName), t.fileName, t.body, t.entries)
  }

  /** The entries a conversion records. */
  function EntriesOf(c: Conversion): seq<LocEntry> {
    if c.Converted? then c.entries else []
  }

  /** A sheet with its header rows and some data rows converts to the
      file around the body of its data rows. */
  lemma ConvertedSheet(o: Options, basename: string, dirname: string, sheet: Sheet, t: SheetText)
    requires !o.sheetsIgnore(sheet.name) && HasHeaderRows(o, sheet.data) && |sheet.data| > o.keyRowNumber
    requires t == SheetBody(o, sheet.name, sheet.data[o.keyRowNumber..],
                            HeaderRow(sheet.data[o.keyRowNumber - 2]), HeaderRow(sheet.data[o.keyRowNumber - 1]))
    ensures var baseName := sheet.name + o.kvFileExt;
      ConvertSheetSpec(o, basename, dirname, sheet) ==
      Converted(sheet.name, baseName, o.joinPath(dirname, baseName), t.fileName, t.body, t.entries)
  {
  }

  /** A sheet is written exactly when it is not ignored, has its header
      rows and at least one data row; it fails exactly when a header row is
      missing. */
  lemma ConvertSheetCases(o: Options, basename: string, dirname: string, sheet: Sheet)
    ensures var r := ConvertSheetSpec(o, basename, dirname, sheet);
      (r.Failed? <==> !o.sheetsIgnore(sheet.name) && |sheet.data| > 0 && !HasHeaderRows(o, sheet.data)) &&
      (r.Converted? <==> !o.sheetsIgnore(sheet.name) && HasHeaderRows(o, sheet.data) && |sheet.data| > o.keyRowNumber)
  {
  }

  /** On the fast path the root object is named after the sheet and the
      rows record no entries, whatever they hold. */
  lemma FastPathNamedAfterSheet(o: Options, basename: string, dirname: string, sheet: Sheet)
    requires !o.sheetsIgnore(sheet.name) && HasHeaderRows(o, sheet.data) && |sheet.data| > o.keyRowNumber
    requires IsSimpleKV(o, HeaderRow(sheet.data[o.keyRowNumber - 1]))
    ensures var r := ConvertSheetSpec(o, basename, dirname, sheet);
      r.Converted? && r.entries == [] &&
      r.fileName == sheet.name && r.body == SimpleKVBody(sheet.data[o.keyRowNumber..])
  {
    var noteRow := HeaderRow(sheet.data[o.keyRowNumber - 2]);
    var keyRow := HeaderRow(sheet.data[o.keyRowNumber - 1]);
    FastPathBody(o, sheet.name, sheet.data[o.keyRowNumber..], noteRow, keyRow);
  }

  /** The fast path ignores the note row and records nothing. */
  lemma FastPathBody(o: Options, sheetName: string, kvData: seq<seq<Cell>>, noteRow: seq<string>, keyRow: seq<string>)
    requires IsSimpleKV(o, keyRow)
    ensures SheetBody(o, sheetName, kvData, noteRow, keyRow) == SheetText(SimpleKVBody(kvData), sheetName, [])
  {
  }
}
