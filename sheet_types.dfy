/** The values the converter works on: spreadsheet cells, the plugin's
    options and the localization entries it collects. */
module SheetTypes {
  import opened JsString

  /** A cell of a data row as the spreadsheet reader hands it over: absent
      (`undefined` or `null`) or a piece of text.  Numeric cells are
      represented by their decimal text. */
  datatype Cell = Missing | Text(s: string)

  /** `row[i]`, which is `undefined` past the end of a short row. */
  function At(row: seq<Cell>, i: nat): Cell {
    if i < |row| then row[i] else Missing
  }

  /** `isEmptyOrNullOrUndefined`: absent, or the empty text. */
  predicate IsBlank(c: Cell) {
    c.Missing? || c.s == ""
  }

  /** What a template literal `${cell}` writes for a cell. */
  function Str(c: Cell): string {
    match c
    case Missing => "undefined"
    case Text(s) => s
  }

  /** A cell of the note or title row after `toString()`: an absent cell
      stays absent, which every test on a header treats like `""`. */
  function HeaderText(c: Cell): string {
    match c
    case Missing => ""
    case Text(s) => s
  }

  function HeaderRow(cells: seq<Cell>): (r: seq<string>)
    ensures |r| == |cells| && forall i :: 0 <= i < |cells| ==> r[i] == HeaderText(cells[i])
  {
    seq(|cells|, i requires 0 <= i < |cells| => HeaderText(cells[i]))
  }

  /** One localization token: `{ KeyName: key, [defaultLang]: text }`. */
  datatype LocEntry = LocEntry(key: string, text: string)

  /** The plugin options the core reads.  Three collaborators the core does
      not implement are parameters: `formatDecimal` stands for
      `parseFloat(v).toFixed(4)`, `sheetsIgnore` for the test of the
      ignore regular expression against a sheet name, and `joinPath` for
      `path.join`. */
  datatype Options = Options(
    indent: string,
    forceEmptyToken: string,
    autoSimpleKV: bool,
    kvFileExt: string,
    keyRowNumber: int,
    formatDecimal: string -> string,
    sheetsIgnore: string -> bool,
    joinPath: (string, string) -> string)

  /** `indent || '\t'`: the unit of indentation of the emitted lines. */
  function IndentUnit(o: Options): (u: string)
    ensures |u| > 0
  {
    if o.indent == "" then "\t" else o.indent
  }

  /** `(indent || '\t').repeat(n)` */
  function Indent(o: Options, n: nat): (r: string)
    ensures |r| == n * |IndentUnit(o)|
  {
    Repeat(IndentUnit(o), n)
  }

  /** One level deeper is one more unit of indentation. */
  lemma IndentDeeper(o: Options, n: nat)
    ensures Indent(o, n + 1) == Indent(o, n) + IndentUnit(o)
  {
    RepeatSucc(IndentUnit(o), n);
  }
}
