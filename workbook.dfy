/** The sheets of one workbook, converted in order against the list of
    output files already written (`genratedFiles`).  A sheet that fails,
    or whose output name is already taken, throws and ends the workbook. */
module Workbook {
  import opened JsString
  import opened SheetTypes
  import opened SheetOutput

  /** No output name is listed twice. */
  predicate NoDuplicates(s: seq<string>) {
    forall i, j :: 0 <= i < j < |s| ==> s[i] != s[j]
  }

  /** The output names of a sequence of conversions, in order. */
  function FullNames(files: seq<Conversion>): (r: seq<string>)
    requires forall k :: 0 <= k < |files| ==> files[k].Converted?
    ensures |r| == |files| && forall k :: 0 <= k < |files| ==> r[k] == files[k].fullName
  {
    if |files| == 0 then [] else [files[0].fullName] + FullNames(files[1..])
  }

  /** What a workbook gives: the files written, the output list after it,
      the localization entries recorded and the error that stopped it. */
  datatype WorkbookRun = WorkbookRun(
    files: seq<Conversion>,
    generated: seq<string>,
    entries: seq<LocEntry>,
    error: Option<ConvertError>)

  /** The conversions of the sheets, in order, before any is written. */
  function SheetConversions(o: Options, basename: string, dirname: string, sheets: seq<Sheet>): (r: seq<Conversion>)
    ensures |r| == |sheets| && forall j :: 0 <= j < |sheets| ==> r[j] == ConvertSheetSpec(o, basename, dirname, sheets[j])
  {
    seq(|sheets|, j requires 0 <= j < |sheets| => ConvertSheetSpec(o, basename, dirname, sheets[j]))
  }

  /** What converting a sheet can give: it fails only for a missing
      header row (the duplicate check comes after). */
  predicate IsSheetConversion(c: Conversion) {
    c.Failed? ==> c.error.MissingHeaderRow?
  }

  /** The `workbook.forEach` loop over the sheets' conversions: a skipped
      sheet writes nothing, a failed one throws, and a converted one is
      written unless its output name is already listed.  The entries of a
      sheet are recorded while its rows are converted, before the
      duplicate check can throw. */
  function RunConversions(convs: seq<Conversion>, generated: seq<string>): WorkbookRun
    decreases |convs|
  {
    if |convs| == 0 then WorkbookRun([], generated, [], None)
    else
      match convs[0]
      case Skipped => RunConversions(convs[1..], generated)
      case Failed(e) => WorkbookRun([], generated, [], Some(e))
      case Converted(_, _, fullName, _, _, entries) =>
        if fullName in generated then WorkbookRun([], generated, entries, Some(DuplicatedKVFile(fullName)))
        else
          var rest := RunConversions(convs[1..], generated + [fullName]);
          WorkbookRun([convs[0]] + rest.files, rest.generated, entries + rest.entries, rest.error)
  }

  /** The sheets of workbook `basename` in directory `dirname` (sheetToKV.ts
      lines 378-530). */
  function RunWorkbook(o: Options, basename: string, dirname: string, sheets: seq<Sheet>, generated: seq<string>): WorkbookRun {
    RunConversions(SheetConversions(o, basename, dirname, sheets), generated)
  }

  /** The output list only grows, by the name of each file written, once
      each and in order; a list without duplicates keeps none; a duplicate
      that stops the workbook was already listed. */
  lemma {:induction false} RunRecordsFiles(convs: seq<Conversion>, generated: seq<string>)
    requires forall j :: 0 <= j < |convs| ==> IsSheetConversion(convs[j])
    ensures var r := RunConversions(convs, generated);
      (forall k :: 0 <= k < |r.files| ==> r.files[k].Converted?) &&
      r.generated == generated + FullNames(r.files) &&
      (NoDuplicates(generated) ==> NoDuplicates(r.generated)) &&
      (r.error.Some? && r.error.value.DuplicatedKVFile? ==> r.error.value.fullName in r.generated)
    decreases |convs|
  {
    if NoDuplicates(generated) {
      RunKeepsNoDuplicates(convs, generated);
    }
    if |convs| > 0 {
      assert forall j :: 0 <= j < |convs[1..]| ==> convs[1..][j] == convs[j + 1];
      match convs[0]
      case Skipped =>
        RunRecordsFiles(convs[1..], generated);
      case Failed(e) =>
      case Converted(_, _, fullName, _, _, entries) =>
        if fullName !in generated {
          var g := generated + [fullName];
          RunRecordsFiles(convs[1..], g);
          var rest := RunConversions(convs[1..], g);
          var r := RunConversions(convs, generated);
          assert r.files == [convs[0]] + rest.files;
          assert r.files[1..] == rest.files;
          assert FullNames(r.files) == [fullName] + FullNames(rest.files);
          AppendAssoc(generated, [fullName], FullNames(rest.files));
        }
    }
  }

  /** A list without duplicates keeps none when the loop adds to it. */
  lemma {:induction false} RunKeepsNoDuplicates(convs: seq<Conversion>, generated: seq<string>)
    requires NoDuplicates(generated)
    ensures NoDuplicates(RunConversions(convs, generated).generated)
    decreases |convs|
  {
    if |convs| > 0 {
      match convs[0]
      case Skipped =>
        RunKeepsNoDuplicates(convs[1..], generated);
      case Failed(e) =>
      case Converted(_, _, fullName, _, _, entries) =>
        if fullName !in generated {
          AppendNewKeepsNoDuplicates(generated, fullName);
          RunKeepsNoDuplicates(convs[1..], generated + [fullName]);
        }
    }
  }

  lemma AppendNewKeepsNoDuplicates(s: seq<string>, x: string)
    requires NoDuplicates(s) && x !in s
    ensures NoDuplicates(s + [x])
  {
  }

  /** The files written are conversions of sheets, taken in the order of
      the sheets: a subsequence of the conversions. */
  lemma {:induction false} RunWritesSubsequence(convs: seq<Conversion>, generated: seq<string>) returns (pick: seq<nat>)
    ensures var r := RunConversions(convs, generated);
      |pick| == |r.files| &&
      (forall k :: 0 <= k < |pick| ==> pick[k] < |convs| && r.files[k] == convs[pick[k]]) &&
      (forall k, l :: 0 <= k < l < |pick| ==> pick[k] < pick[l])
    decreases |convs|
  {
    pick := [];
    if |convs| > 0 {
      match convs[0]
      case Skipped =>
        var p := RunWritesSubsequence(convs[1..], generated);
        pick := seq(|p|, k requires 0 <= k < |p| => p[k] + 1);
      case Failed(e) =>
      case Converted(_, _, fullName, _, _, entries) =>
        if fullName !in generated {
          var p := RunWritesSubsequence(convs[1..], generated + [fullName]);
          pick := [0] + seq(|p|, k requires 0 <= k < |p| => p[k] + 1);
        }
    }
  }

  /** A workbook whose sheets all convert, to distinct names not yet
      written, stops with no error and writes every sheet. */
  lemma {:induction false} CleanRunWritesAll(convs: seq<Conversion>, generated: seq<string>)
    requires forall j :: 0 <= j < |convs| ==> convs[j].Converted? && convs[j].fullName !in generated
    requires forall i, j :: 0 <= i < j < |convs| ==> convs[i].fullName != convs[j].fullName
    ensures var r := RunConversions(convs, generated);
      r.error == None && r.files == convs
    decreases |convs|
  {
    if |convs| > 0 {
      var g := generated + [convs[0].fullName];
      var tail := convs[1..];
      assert forall j :: 0 <= j < |tail| ==> tail[j] == convs[j + 1];
      CleanRunWritesAll(tail, g);
      assert [convs[0]] + tail == convs;
    }
  }

  /** A sheet that fails stops the workbook: nothing after it is written
      or recorded. */
  lemma {:induction false} FailureStops(convs: seq<Conversion>, generated: seq<string>, k: nat)
    requires k < |convs| && convs[k].Failed?
    ensures var r := RunConversions(convs, generated);
      r.error.Some? && r.entries == RunConversions(convs[..k], generated).entries &&
      r.files == RunConversions(convs[..k], generated).files
    decreases k
  {
    if k > 0 {
      var tail := convs[1..];
      assert convs[..k][1..] == tail[..k - 1];
      match convs[0]
      case Skipped =>
        FailureStops(tail, generated, k - 1);
      case Failed(e) =>
      case Converted(_, _, fullName, _, _, entries) =>
        if fullName !in generated {
          FailureStops(tail, generated + [fullName], k - 1);
        }
    }
  }

  /** For a workbook: the output list grows by exactly the names of the
      files written, and never comes to hold a name twice. */
  lemma RunWorkbookRecordsFiles(o: Options, basename: string, dirname: string, sheets: seq<Sheet>, generated: seq<string>)
    ensures var r := RunWorkbook(o, basename, dirname, sheets, generated);
      (forall k :: 0 <= k < |r.files| ==> r.files[k].Converted?) &&
      r.generated == generated + FullNames(r.files) &&
      (NoDuplicates(generated) ==> NoDuplicates(r.generated))
  {
    RunRecordsFiles(SheetConversions(o, basename, dirname, sheets), generated);
  }

  /** One sheet of the loop: what the rest of the run is after sheet `k`,
      given what converting it gave (`c`: its conversion, or the duplicate
      error when its name is already listed). */
  lemma RunStep(convs: seq<Conversion>, k: nat, generated: seq<string>, c: Conversion)
    requires k < |convs|
    requires c == if convs[k].Converted? && convs[k].fullName in generated then Failed(DuplicatedKVFile(convs[k].fullName)) else convs[k]
    ensures var run := RunConversions(convs[k..], generated);
      (c.Skipped? ==> run == RunConversions(convs[k + 1..], generated)) &&
      (c.Failed? ==> run == WorkbookRun([], generated, EntriesOf(convs[k]), Some(c.error))) &&
      (c.Converted? ==>
        var rest := RunConversions(convs[k + 1..], generated + [c.fullName]);
        EntriesOf(convs[k]) == c.entries &&
        run == WorkbookRun([c] + rest.files, rest.generated, c.entries + rest.entries, rest.error))
  {
    assert convs[k..][0] == convs[k];
    assert convs[k..][1..] == convs[k + 1..];
  }

  /** The `forEach` loop before sheet `k`, having written `files`, with
      output list `generated` and entries `recorded`: while no sheet has
      thrown, the run is what was done followed by the run of the sheets
      left; once one has, the run is what was done. */
  ghost predicate LoopState(convs: seq<Conversion>, start: seq<string>, k: nat, files: seq<Conversion>,
                            generated: seq<string>, recorded: seq<LocEntry>, error: Option<ConvertError>)
    requires k <= |convs|
  {
    var run := RunConversions(convs, start);
    if error == None then
      var rest := RunConversions(convs[k..], generated);
      run == WorkbookRun(files + rest.files, rest.generated, recorded + rest.entries, rest.error)
    else run == WorkbookRun(files, generated, recorded, error)
  }

  lemma LoopStart(convs: seq<Conversion>, start: seq<string>)
    ensures LoopState(convs, start, 0, [], start, [], None)
  {
    var run := RunConversions(convs, start);
    assert convs[0..] == convs;
    assert [] + run.files == run.files && [] + run.entries == run.entries;
  }

  /** One sheet of the loop, given what converting it gave (`c`: its
      conversion, or the duplicate error when its name is already listed). */
  lemma LoopStep(convs: seq<Conversion>, start: seq<string>, k: nat, files: seq<Conversion>,
                 generated: seq<string>, recorded: seq<LocEntry>, c: Conversion)
    requires k < |convs| && LoopState(convs, start, k, files, generated, recorded, None)
    requires c == if convs[k].Converted? && convs[k].fullName in generated then Failed(DuplicatedKVFile(convs[k].fullName)) else convs[k]
    ensures c.Skipped? ==> LoopState(convs, start, k + 1, files, generated, recorded + EntriesOf(convs[k]), None)
    ensures c.Failed? ==> LoopState(convs, start, k + 1, files, generated, recorded + EntriesOf(convs[k]), Some(c.error))
    ensures c.Converted? ==>
      LoopState(convs, start, k + 1, files + [c], generated + [c.fullName], recorded + EntriesOf(convs[k]), None)
  {
    RunStep(convs, k, generated, c);
    if c.Skipped? {
      assert EntriesOf(convs[k]) == [];
      assert recorded + [] == recorded;
    } else if c.Failed? {
      assert files + [] == files;
    } else {
      var rest := RunConversions(convs[k + 1..], generated + [c.fullName]);
      AppendAssoc(files, [c], rest.files);
      AppendAssoc(recorded, c.entries, rest.entries);
    }
  }

  /** When the loop stops, the run is what was done. */
  lemma LoopEnd(convs: seq<Conversion>, start: seq<string>, k: nat, files: seq<Conversion>,
                generated: seq<string>, recorded: seq<LocEntry>, error: Option<ConvertError>)
    requires k <= |convs| && LoopState(convs, start, k, files, generated, recorded, error)
    requires k == |convs| || error != None
    ensures RunConversions(convs, start) == WorkbookRun(files, generated, recorded, error)
  {
    if error == None {
      assert convs[k..] == [];
      assert files + [] == files && recorded + [] == recorded;
    }
  }
}
