/** The grouping of data rows by main key in `convert`: rows whose first
    cell occurs more than once in the sheet are written as the numbered
    elements of one object per consecutive run. */
module MainKeyGrouping {
  import opened JsString
  import opened SheetTypes

  /** `row[0]` when it is not blank; rows without a main key are skipped. */
  function MainKeyOf(row: seq<Cell>): (r: Option<string>)
    ensures r.None? <==> IsBlank(At(row, 0))
  {
    if IsBlank(At(row, 0)) then None else Some(At(row, 0).s)
  }

  /** The number of rows whose main key is `k`. */
  function Occurrences(rows: seq<seq<Cell>>, k: string): nat {
    if |rows| == 0 then 0
    else Occurrences(rows[..|rows| - 1], k) + (if MainKeyOf(rows[|rows| - 1]) == Some(k) then 1 else 0)
  }

  /** A prefix holds no more occurrences than the whole. */
  lemma {:induction false} OccurrencesPrefix(rows: seq<seq<Cell>>, n: nat, k: string)
    requires n <= |rows|
    ensures Occurrences(rows[..n], k) <= Occurrences(rows, k)
  {
    if n < |rows| {
      var init := rows[..|rows| - 1];
      assert init[..n] == rows[..n];
      OccurrencesPrefix(init, n, k);
    } else {
      assert rows[..n] == rows;
    }
  }

  /** The first pass (`mapMainKey`): how often each main key occurs. */
  method CountMainKeys(rows: seq<seq<Cell>>) returns (counts: map<string, nat>)
    ensures forall k :: k in counts <==> Occurrences(rows, k) > 0
    ensures forall k :: k in counts ==> counts[k] == Occurrences(rows, k)
  {
    counts := map[];
    var i := 0;
    while i < |rows|
      invariant 0 <= i <= |rows|
      invariant forall k :: k in counts <==> Occurrences(rows[..i], k) > 0
      invariant forall k :: k in counts ==> counts[k] == Occurrences(rows[..i], k)
    {
      assert rows[..i + 1][..i] == rows[..i];
      match MainKeyOf(rows[i]) {
        case None =>
        case Some(k) =>
          var count := if k in counts then counts[k] else 0;
          counts := counts[k := count + 1];
      }
      i := i + 1;
    }
    assert rows[..|rows|] == rows;
  }

  // The reference plan: runs of equal main keys

  /** A maximal run of consecutive keyed rows (rows without a key do not
      break a run) sharing one main key, as row indices. */
  datatype Run = Run(key: string, rows: seq<nat>)

  /** The runs of the first `n` rows. */
  function Runs(rows: seq<seq<Cell>>, n: nat): seq<Run>
    requires n <= |rows|
    decreases n, 1
  {
    if n == 0 then [] else RunsNext(rows, n - 1)
  }

  /** The runs of the first `i + 1` rows: row `i` extends the last run when
      it has that run's key, starts a new one when it has another, and is
      passed over when it has none. */
  function RunsNext(rows: seq<seq<Cell>>, i: nat): seq<Run>
    requires i < |rows|
    decreases i + 1, 0
  {
    var rs := Runs(rows, i);
    match MainKeyOf(rows[i])
    case None => rs
    case Some(k) =>
      if |rs| > 0 && rs[|rs| - 1].key == k then rs[..|rs| - 1] + [Run(k, rs[|rs| - 1].rows + [i])]
      else rs + [Run(k, [i])]
  }

  /** What the second pass writes, piece by piece: the opening and the
      closing line of a group, and a call of `convert_row_to_kv` with its
      row index, `is_array` and `array_index`. */
  datatype Piece = OpenGroup(key: string) | CloseGroup | EmitRow(rowIndex: nat, isArray: bool, arrayIndex: nat)

  /** The rows of a grouped run, numbered from 1. */
  function Numbered(rs: seq<nat>): (r: seq<Piece>)
    ensures |r| == |rs|
  {
    seq(|rs|, j requires 0 <= j < |rs| => EmitRow(rs[j], true, j + 1))
  }

  /** The rows of a run whose key occurs once. */
  function Unwrapped(rs: seq<nat>): (r: seq<Piece>)
    ensures |r| == |rs|
  {
    seq(|rs|, j requires 0 <= j < |rs| => EmitRow(rs[j], false, 0))
  }

  /** A run whose key occurs more than once in the sheet is wrapped in a
      group; any other is written as it is. */
  function RunPieces(run: Run, count: nat): seq<Piece> {
    if count > 1 then [OpenGroup(run.key)] + Numbered(run.rows) + [CloseGroup] else Unwrapped(run.rows)
  }

  function GroupedPlan(rows: seq<seq<Cell>>, runs: seq<Run>): seq<Piece>
    decreases |runs|, 1
  {
    if |runs| == 0 then [] else GroupedPlanLast(rows, runs)
  }

  /** The plan of non-empty runs: that of all but the last run, then the
      last run's pieces. */
  function GroupedPlanLast(rows: seq<seq<Cell>>, runs: seq<Run>): seq<Piece>
    requires |runs| > 0
    decreases |runs|, 0
  {
    var last := runs[|runs| - 1];
    GroupedPlan(rows, runs[..|runs| - 1]) + RunPieces(last, Occurrences(rows, last.key))
  }

  /** The plan of a sheet's data rows. */
  function Plan(rows: seq<seq<Cell>>): seq<Piece> {
    GroupedPlan(rows, Runs(rows, |rows|))
  }

  // Facts about runs

  /** Every run is non-empty, lists rows of its own key in increasing order
      below `n`, and differs in key from the run before it; the last run
      has no more rows than its key occurs. */
  ghost predicate RunsWellFormed(rows: seq<seq<Cell>>, n: nat, runs: seq<Run>)
    requires n <= |rows|
  {
    KeyedRuns(rows, n, runs) &&
    (forall r :: 0 < r < |runs| ==> runs[r - 1].key != runs[r].key) &&
    (|runs| > 0 ==> |runs[|runs| - 1].rows| <= Occurrences(rows[..n], runs[|runs| - 1].key))
  }

  lemma RunsAreWellFormed(rows: seq<seq<Cell>>, n: nat)
    requires n <= |rows|
    ensures RunsWellFormed(rows, n, Runs(rows, n))
  {
    RunsKeyed(rows, n);
    RunsAlternate(rows, n);
    RunLastBound(rows, n);
  }

  /** Every run is non-empty and lists rows of its own key, below `n`. */
  ghost predicate KeyedRuns(rows: seq<seq<Cell>>, n: nat, runs: seq<Run>)
    requires n <= |rows|
  {
    (forall r :: 0 <= r < |runs| ==> |runs[r].rows| > 0) &&
    (forall r, j :: 0 <= r < |runs| && 0 <= j < |runs[r].rows| ==>
       runs[r].rows[j] < n && MainKeyOf(rows[runs[r].rows[j]]) == Some(runs[r].key))
  }

  lemma {:induction false} RunsKeyed(rows: seq<seq<Cell>>, n: nat)
    requires n <= |rows|
    ensures KeyedRuns(rows, n, Runs(rows, n))
  {
    if n > 0 {
      var rs := Runs(rows, n - 1);
      RunsKeyed(rows, n - 1);
      match MainKeyOf(rows[n - 1])
      case None =>
        RunsSkip(rows, n - 1);
        assert KeyedRuns(rows, n, rs);
      case Some(k) =>
        if |rs| > 0 && rs[|rs| - 1].key == k {
          RunsExtend(rows, n - 1, rs, k);
          KeyedExtend(rows, n, rs, k);
        } else {
          RunsStart(rows, n - 1, rs, k);
          KeyedStart(rows, n, rs, k);
        }
    }
  }

  lemma KeyedExtend(rows: seq<seq<Cell>>, n: nat, rs: seq<Run>, k: string)
    requires 0 < n <= |rows| && MainKeyOf(rows[n - 1]) == Some(k)
    requires KeyedRuns(rows, n - 1, rs) && |rs| > 0 && rs[|rs| - 1].key == k
    ensures KeyedRuns(rows, n, rs[..|rs| - 1] + [Run(k, rs[|rs| - 1].rows + [n - 1])])
  {
    var last := rs[|rs| - 1];
    var rs' := rs[..|rs| - 1] + [Run(k, last.rows + [n - 1])];
    forall r, j | 0 <= r < |rs'| && 0 <= j < |rs'[r].rows|
      ensures rs'[r].rows[j] < n && MainKeyOf(rows[rs'[r].rows[j]]) == Some(rs'[r].key)
    {
      if r < |rs| - 1 {
        assert rs'[r] == rs[r];
      } else if j < |last.rows| {
        assert rs'[r].rows[j] == last.rows[j];
      }
    }
    assert forall r :: 0 <= r < |rs| - 1 ==> rs'[r] == rs[r];
  }

  lemma KeyedStart(rows: seq<seq<Cell>>, n: nat, rs: seq<Run>, k: string)
    requires 0 < n <= |rows| && MainKeyOf(rows[n - 1]) == Some(k)
    requires KeyedRuns(rows, n - 1, rs)
    ensures KeyedRuns(rows, n, rs + [Run(k, [n - 1])])
  {
    var rs' := rs + [Run(k, [n - 1])];
    assert forall r :: 0 <= r < |rs| ==> rs'[r] == rs[r];
  }

  /** How the runs grow by one row: unchanged, the last run extended, or a
      new run appended. */
  lemma RunsGrow(rows: seq<seq<Cell>>, n: nat)
    requires 0 < n <= |rows|
    ensures var rs, rs' := Runs(rows, n - 1), Runs(rows, n);
      match MainKeyOf(rows[n - 1])
      case None => rs' == rs
      case Some(k) =>
        if |rs| > 0 && rs[|rs| - 1].key == k then
          |rs'| == |rs| && (forall r :: 0 <= r < |rs| - 1 ==> rs'[r] == rs[r]) &&
          rs'[|rs| - 1] == Run(k, rs[|rs| - 1].rows + [n - 1])
        else
          |rs'| == |rs| + 1 && (forall r :: 0 <= r < |rs| ==> rs'[r] == rs[r]) && rs'[|rs|] == Run(k, [n - 1])
  {
  }

  lemma {:induction false} RunsAlternate(rows: seq<seq<Cell>>, n: nat)
    requires n <= |rows|
    ensures var runs := Runs(rows, n);
      forall r :: 0 < r < |runs| ==> runs[r - 1].key != runs[r].key
  {
    if n > 0 {
      RunsAlternate(rows, n - 1);
      RunsGrow(rows, n);
    }
  }

  lemma {:induction false} RunLastBound(rows: seq<seq<Cell>>, n: nat)
    requires n <= |rows|
    ensures var runs := Runs(rows, n);
      |runs| > 0 ==> |runs[|runs| - 1].rows| <= Occurrences(rows[..n], runs[|runs| - 1].key)
  {
    if n > 0 {
      RunLastBound(rows, n - 1);
      assert rows[..n][..n - 1] == rows[..n - 1];
      var rs := Runs(rows, n - 1);
      if |rs| > 0 {
        OccurrencesGrow(rows, n, rs[|rs| - 1].key);
      }
    }
  }

  lemma OccurrencesGrow(rows: seq<seq<Cell>>, n: nat, k: string)
    requires 0 < n <= |rows|
    ensures Occurrences(rows[..n], k) == Occurrences(rows[..n - 1], k) + (if MainKeyOf(rows[n - 1]) == Some(k) then 1 else 0)
  {
    assert rows[..n][..n - 1] == rows[..n - 1];
  }

  /** All the row indices of some runs, in order. */
  function RunRows(runs: seq<Run>): seq<nat> {
    if |runs| == 0 then [] else RunRows(runs[..|runs| - 1]) + runs[|runs| - 1].rows
  }

  /** The indices of the keyed rows among the first `n`, in order. */
  function KeyedRows(rows: seq<seq<Cell>>, n: nat): seq<nat>
    requires n <= |rows|
  {
    if n == 0 then []
    else KeyedRows(rows, n - 1) + (if MainKeyOf(rows[n - 1]).Some? then [n - 1] else [])
  }

  /** The runs hold exactly the keyed rows, in order. */
  lemma {:induction false} RunsCoverKeyedRows(rows: seq<seq<Cell>>, n: nat)
    requires n <= |rows|
    ensures RunRows(Runs(rows, n)) == KeyedRows(rows, n)
  {
    if n > 0 {
      RunsCoverKeyedRows(rows, n - 1);
      var rs := Runs(rows, n - 1);
      if MainKeyOf(rows[n - 1]).Some? && |rs| > 0 && rs[|rs| - 1].key == MainKeyOf(rows[n - 1]).value {
        var init := rs[..|rs| - 1];
        var last := rs[|rs| - 1];
        var rs' := init + [Run(last.key, last.rows + [n - 1])];
        assert rs'[..|rs'| - 1] == init;
        assert rs[..|rs| - 1] == init;
      } else if MainKeyOf(rows[n - 1]).Some? {
        var rs' := rs + [Run(MainKeyOf(rows[n - 1]).value, [n - 1])];
        assert rs'[..|rs'| - 1] == rs;
      }
    }
  }

  // The state machine of the second pass

  lemma NumberedSnoc(rs: seq<nat>, x: nat)
    ensures Numbered(rs + [x]) == Numbered(rs) + [EmitRow(x, true, |rs| + 1)]
  {
  }

  lemma CloseOpenGroup(rows: seq<seq<Cell>>, runs: seq<Run>, x: nat)
    requires |runs| > 0
    ensures var last := runs[|runs| - 1];
      var runs' := runs[..|runs| - 1] + [Run(last.key, last.rows + [x])];
      GroupedPlan(rows, runs') ==
        GroupedPlan(rows, runs[..|runs| - 1]) + RunPieces(Run(last.key, last.rows + [x]), Occurrences(rows, last.key))
  {
    var last := runs[|runs| - 1];
    var runs' := runs[..|runs| - 1] + [Run(last.key, last.rows + [x])];
    assert runs'[..|runs'| - 1] == runs[..|runs| - 1];
  }

  lemma NewRunPlan(rows: seq<seq<Cell>>, runs: seq<Run>, k: string, x: nat)
    ensures GroupedPlan(rows, runs + [Run(k, [x])]) == GroupedPlan(rows, runs) + RunPieces(Run(k, [x]), Occurrences(rows, k))
  {
    assert (runs + [Run(k, [x])])[..|runs|] == runs;
  }

  /** The close a plan still owes while a group is open. */
  function Owed(current: Option<string>): seq<Piece> {
    if current.Some? then [CloseGroup] else []
  }

  /** `current_mainkey` and `index` against some runs: a group is open
      exactly when the last run's key occurs more than once, and `index` is
      one past the number of its rows; the plan so far, with the close
      still owed, is the reference plan of the runs. */
  ghost predicate PlannerAt(rows: seq<seq<Cell>>, runs: seq<Run>, plan: seq<Piece>, current: Option<string>, index: nat) {
    (current.Some? ==>
       |runs| > 0 && current.value == runs[|runs| - 1].key && Occurrences(rows, current.value) > 1 &&
       index == |runs[|runs| - 1].rows| + 1) &&
    (current.None? ==> index == 1 && (|runs| > 0 ==> Occurrences(rows, runs[|runs| - 1].key) <= 1)) &&
    plan + Owed(current) == GroupedPlan(rows, runs)
  }

  /** The planner state after the first `i` rows. */
  ghost predicate PlannerState(rows: seq<seq<Cell>>, i: nat, plan: seq<Piece>, current: Option<string>, index: nat)
    requires i <= |rows|
  {
    PlannerAt(rows, Runs(rows, i), plan, current, index)
  }

  /** A row without a key leaves the runs as they are. */
  lemma RunsSkip(rows: seq<seq<Cell>>, i: nat)
    requires i < |rows| && MainKeyOf(rows[i]).None?
    ensures Runs(rows, i + 1) == Runs(rows, i)
  {
  }

  /** A row of the last run's key extends that run. */
  lemma RunsExtend(rows: seq<seq<Cell>>, i: nat, runs: seq<Run>, k: string)
    requires i < |rows| && MainKeyOf(rows[i]) == Some(k)
    requires runs == Runs(rows, i) && |runs| > 0 && runs[|runs| - 1].key == k
    ensures Runs(rows, i + 1) == runs[..|runs| - 1] + [Run(k, runs[|runs| - 1].rows + [i])]
  {
  }

  /** A row of another key starts a new run. */
  lemma RunsStart(rows: seq<seq<Cell>>, i: nat, runs: seq<Run>, k: string)
    requires i < |rows| && MainKeyOf(rows[i]) == Some(k)
    requires runs == Runs(rows, i) && (|runs| == 0 || runs[|runs| - 1].key != k)
    ensures Runs(rows, i + 1) == runs + [Run(k, [i])]
  {
  }

  /** A row of at least one earlier row's key: that key occurs in the
      rows before it. */
  lemma OccurrencesPositive(rows: seq<seq<Cell>>, n: nat, j: nat, k: string)
    requires j < n <= |rows| && MainKeyOf(rows[j]) == Some(k)
    ensures Occurrences(rows[..n], k) > 0
    decreases n
  {
    OccurrencesGrow(rows, n, k);
    if j < n - 1 {
      OccurrencesPositive(rows, n - 1, j, k);
    }
  }

  /** With no group open, a keyed row starts a new run: a key whose last
      run was not grouped occurs once, so it cannot come again. */
  lemma ClosedMeansNewRun(rows: seq<seq<Cell>>, i: nat, runs: seq<Run>, k: string)
    requires i < |rows| && runs == Runs(rows, i) && MainKeyOf(rows[i]) == Some(k)
    requires |runs| > 0 ==> Occurrences(rows, runs[|runs| - 1].key) <= 1
    ensures |runs| == 0 || runs[|runs| - 1].key != k
  {
    if |runs| > 0 && runs[|runs| - 1].key == k {
      RunsKeyed(rows, i);
      var last := runs[|runs| - 1];
      assert |last.rows| > 0;
      OccurrencesPositive(rows, i, last.rows[0], k);
      OccurrencesGrow(rows, i + 1, k);
      OccurrencesPrefix(rows, i + 1, k);
      assert false;
    }
  }

  /** Extending the last, grouped, run puts one more numbered row before
      the group's close. */
  lemma ExtendPlan(rows: seq<seq<Cell>>, runs: seq<Run>, plan: seq<Piece>, x: nat)
    requires |runs| > 0 && Occurrences(rows, runs[|runs| - 1].key) > 1
    requires plan + [CloseGroup] == GroupedPlan(rows, runs)
    ensures var last := runs[|runs| - 1];
      plan + [EmitRow(x, true, |last.rows| + 1)] + [CloseGroup] ==
        GroupedPlan(rows, runs[..|runs| - 1] + [Run(last.key, last.rows + [x])])
  {
    var last := runs[|runs| - 1];
    var pre := GroupedPlan(rows, runs[..|runs| - 1]);
    assert GroupedPlan(rows, runs) == pre + ([OpenGroup(last.key)] + Numbered(last.rows) + [CloseGroup]);
    assert plan == pre + [OpenGroup(last.key)] + Numbered(last.rows) by {
      assert plan == (plan + [CloseGroup])[..|plan|];
    }
    CloseOpenGroup(rows, runs, x);
    NumberedSnoc(last.rows, x);
  }

  /** A row of the open group's key is its next numbered element. */
  lemma ExtendAt(rows: seq<seq<Cell>>, runs: seq<Run>, plan: seq<Piece>, index: nat, k: string, x: nat)
    requires PlannerAt(rows, runs, plan, Some(k), index)
    ensures |runs| > 0
    ensures PlannerAt(rows, runs[..|runs| - 1] + [Run(k, runs[|runs| - 1].rows + [x])], plan + [EmitRow(x, true, index)], Some(k), index + 1)
  {
    ExtendPlan(rows, runs, plan, x);
  }

  /** A new run of a key occurring more than once opens a group. */
  lemma StartGroupAt(rows: seq<seq<Cell>>, runs: seq<Run>, plan: seq<Piece>, k: string, x: nat)
    requires plan == GroupedPlan(rows, runs) && Occurrences(rows, k) > 1
    ensures PlannerAt(rows, runs + [Run(k, [x])], plan + [OpenGroup(k), EmitRow(x, true, 1)], Some(k), 2)
  {
    NewRunPlan(rows, runs, k, x);
    assert Numbered([x]) == [EmitRow(x, true, 1)];
    assert plan + [OpenGroup(k), EmitRow(x, true, 1)] + [CloseGroup] == plan + ([OpenGroup(k)] + [EmitRow(x, true, 1)] + [CloseGroup]);
  }

  /** A new run of a key occurring once is written unwrapped. */
  lemma StartSingleAt(rows: seq<seq<Cell>>, runs: seq<Run>, plan: seq<Piece>, k: string, x: nat)
    requires plan == GroupedPlan(rows, runs) && Occurrences(rows, k) <= 1
    ensures PlannerAt(rows, runs + [Run(k, [x])], plan + [EmitRow(x, false, 0)], None, 1)
  {
    NewRunPlan(rows, runs, k, x);
    assert Unwrapped([x]) == [EmitRow(x, false, 0)];
    assert plan + [EmitRow(x, false, 0)] + [] == plan + [EmitRow(x, false, 0)];
  }

  /** Row `i` has the open group's key: it is the group's next element. */
  lemma GroupExtend(rows: seq<seq<Cell>>, i: nat, plan: seq<Piece>, index: nat, k: string)
    requires i < |rows| && MainKeyOf(rows[i]) == Some(k) && PlannerState(rows, i, plan, Some(k), index)
    ensures Occurrences(rows, k) > 1
    ensures PlannerState(rows, i + 1, plan + [EmitRow(i, true, index)], Some(k), index + 1)
  {
    var runs := Runs(rows, i);
    RunsExtend(rows, i, runs, k);
    ExtendAt(rows, runs, plan, index, k, i);
  }

  /** Row `i` starts a run of a key occurring more than once: the open
      group, if any, is closed and a new one opened. */
  lemma GroupStart(rows: seq<seq<Cell>>, i: nat, plan: seq<Piece>, current: Option<string>, index: nat, k: string)
    requires i < |rows| && MainKeyOf(rows[i]) == Some(k) && PlannerState(rows, i, plan, current, index)
    requires current != Some(k) && Occurrences(rows, k) > 1
    ensures PlannerState(rows, i + 1, plan + (Owed(current) + [OpenGroup(k), EmitRow(i, true, 1)]), Some(k), 2)
  {
    var runs := Runs(rows, i);
    if current.None? {
      ClosedMeansNewRun(rows, i, runs, k);
    }
    RunsStart(rows, i, runs, k);
    StartGroupAt(rows, runs, plan + Owed(current), k, i);
    AppendAssoc(plan, Owed(current), [OpenGroup(k), EmitRow(i, true, 1)]);
  }

  /** Row `i` has a key occurring once: the open group, if any, is closed
      and the row is written on its own. */
  lemma GroupSingle(rows: seq<seq<Cell>>, i: nat, plan: seq<Piece>, current: Option<string>, index: nat, k: string)
    requires i < |rows| && MainKeyOf(rows[i]) == Some(k) && PlannerState(rows, i, plan, current, index)
    requires Occurrences(rows, k) <= 1
    ensures current != Some(k)
    ensures PlannerState(rows, i + 1, plan + (Owed(current) + [EmitRow(i, false, 0)]), None, 1)
  {
    var runs := Runs(rows, i);
    if current.None? {
      ClosedMeansNewRun(rows, i, runs, k);
    }
    RunsStart(rows, i, runs, k);
    StartSingleAt(rows, runs, plan + Owed(current), k, i);
    AppendAssoc(plan, Owed(current), [EmitRow(i, false, 0)]);
  }

  /** The callback of the second pass for row `i` (sheetToKV.ts lines
      456-482): what it writes for the row, and the new `current_mainkey`
      and `index`. */
  method GroupRow(rows: seq<seq<Cell>>, counts: map<string, nat>, i: nat, ghost plan: seq<Piece>, current: Option<string>, index: nat)
    returns (res: seq<Piece>, current': Option<string>, index': nat)
    requires i < |rows| && MainKeyOf(rows[i]).Some?
    requires forall k :: k in counts <==> Occurrences(rows, k) > 0
    requires forall k :: k in counts ==> counts[k] == Occurrences(rows, k)
    requires PlannerState(rows, i, plan, current, index)
    ensures PlannerState(rows, i + 1, plan + res, current', index')
  {
    var k := MainKeyOf(rows[i]).value;
    OccurrencesGrow(rows, i + 1, k);
    OccurrencesPrefix(rows, i + 1, k);
    res := [];
    current', index' := current, index;
    if current'.Some? && current'.value != k {
      res := [CloseGroup];
      current' := None;
      index' := 1;
    }
    var count := counts[k];
    if count > 1 {
      if current'.None? {
        res := res + [OpenGroup(k)];
      }
      current' := Some(k);
      index' := index' + 1;
    } else {
      current' := None;
      index' := 1;
    }
    res := res + [EmitRow(i, count > 1, index' - 1)];
    if current == Some(k) {
      GroupExtend(rows, i, plan, index, k);
      assert res == [EmitRow(i, true, index)];
    } else if count > 1 {
      GroupStart(rows, i, plan, current, index, k);
      assert res == Owed(current) + [OpenGroup(k), EmitRow(i, true, 1)];
    } else {
      GroupSingle(rows, i, plan, current, index, k);
      assert res == Owed(current) + [EmitRow(i, false, 0)];
    }
  }

  /** A row without a key changes nothing. */
  lemma PlannerSkip(rows: seq<seq<Cell>>, i: nat, plan: seq<Piece>, current: Option<string>, index: nat)
    requires i < |rows| && MainKeyOf(rows[i]).None? && PlannerState(rows, i, plan, current, index)
    ensures PlannerState(rows, i + 1, plan, current, index)
  {
    RunsSkip(rows, i);
  }

  /** After the last row, closing the open group completes the plan. */
  lemma PlannerDone(rows: seq<seq<Cell>>, plan: seq<Piece>, current: Option<string>, index: nat)
    requires PlannerState(rows, |rows|, plan, current, index)
    ensures current.Some? ==> plan + [CloseGroup] == Plan(rows)
    ensures current.None? ==> plan == Plan(rows)
  {
    assert plan + [] == plan;
  }

  /** The second pass of the grouping (sheetToKV.ts lines 451-486): walks
      the rows with `current_mainkey` and `index`, closing the open group
      when the key changes, opening one for a key that occurs more than
      once, and closing the last group at the end. */
  method PlanMainKeyGroups(rows: seq<seq<Cell>>) returns (plan: seq<Piece>)
    ensures plan == Plan(rows)
  {
    var counts := CountMainKeys(rows);
    plan := [];
    var index: nat := 1;
    var current: Option<string> := None;
    var i := 0;
    while i < |rows|
      invariant 0 <= i <= |rows|
      invariant PlannerState(rows, i, plan, current, index)
    {
      if MainKeyOf(rows[i]).None? {
        PlannerSkip(rows, i, plan, current, index);
      } else {
        var res;
        res, current, index := GroupRow(rows, counts, i, plan, current, index);
        plan := plan + res;
      }
      i := i + 1;
    }
    PlannerDone(rows, plan, current, index);
    if current.Some? {
      plan := plan + [CloseGroup];
    }
  }

  // Properties of the plan

  /** The row indices a plan writes, in order. */
  function EmittedRows(plan: seq<Piece>): seq<nat> {
    if |plan| == 0 then []
    else EmittedRows(plan[..|plan| - 1]) + (if plan[|plan| - 1].EmitRow? then [plan[|plan| - 1].rowIndex] else [])
  }

  lemma {:induction false} EmittedRowsAppend(a: seq<Piece>, b: seq<Piece>)
    ensures EmittedRows(a + b) == EmittedRows(a) + EmittedRows(b)
  {
    if |b| > 0 {
      assert (a + b)[..|a + b| - 1] == a + b[..|b| - 1];
      EmittedRowsAppend(a, b[..|b| - 1]);
    } else {
      assert a + b == a;
    }
  }

  lemma {:induction false} EmittedNumbered(rs: seq<nat>)
    ensures EmittedRows(Numbered(rs)) == rs && EmittedRows(Unwrapped(rs)) == rs
  {
    if |rs| > 0 {
      var init := rs[..|rs| - 1];
      EmittedNumbered(init);
      assert Numbered(rs)[..|rs| - 1] == Numbered(init);
      assert Unwrapped(rs)[..|rs| - 1] == Unwrapped(init);
      assert init + [rs[|rs| - 1]] == rs;
    }
  }

  lemma EmittedRunPieces(run: Run, c: nat)
    ensures EmittedRows(RunPieces(run, c)) == run.rows
  {
    EmittedNumbered(run.rows);
    EmittedRowsAppend([OpenGroup(run.key)], Numbered(run.rows));
    EmittedRowsAppend([OpenGroup(run.key)] + Numbered(run.rows), [CloseGroup]);
    assert EmittedRows([OpenGroup(run.key)]) == [];
    assert EmittedRows([CloseGroup]) == [];
  }

  lemma {:induction false} EmittedGroupedPlan(rows: seq<seq<Cell>>, runs: seq<Run>)
    ensures EmittedRows(GroupedPlan(rows, runs)) == RunRows(runs)
  {
    if |runs| > 0 {
      var last := runs[|runs| - 1];
      EmittedGroupedPlan(rows, runs[..|runs| - 1]);
      EmittedRowsAppend(GroupedPlan(rows, runs[..|runs| - 1]), RunPieces(last, Occurrences(rows, last.key)));
      EmittedRunPieces(last, Occurrences(rows, last.key));
    }
  }

  /** Every keyed row is written exactly once, in sheet order, and no row
      without a key is written. */
  lemma PlanWritesKeyedRowsInOrder(rows: seq<seq<Cell>>)
    ensures EmittedRows(Plan(rows)) == KeyedRows(rows, |rows|)
  {
    EmittedGroupedPlan(rows, Runs(rows, |rows|));
    RunsCoverKeyedRows(rows, |rows|);
  }

  /** The group depth after a plan started at depth `d`, or None when the
      plan opens a group inside a group, closes one outside a group, or
      writes a row whose `is_array` disagrees with being inside a group. */
  function ScanFrom(d: nat, plan: seq<Piece>): Option<nat> {
    if |plan| == 0 then Some(d)
    else
      match ScanFrom(d, plan[..|plan| - 1])
      case None => None
      case Some(e) =>
        match plan[|plan| - 1]
        case OpenGroup(_) => if e == 0 then Some(1) else None
        case CloseGroup => if e == 1 then Some(0) else None
        case EmitRow(_, isArray, _) => if isArray == (e == 1) then Some(e) else None
  }

  lemma {:induction false} ScanAppend(d: nat, a: seq<Piece>, b: seq<Piece>)
    ensures ScanFrom(d, a + b) == match ScanFrom(d, a) case None => None case Some(e) => ScanFrom(e, b)
  {
    if |b| > 0 {
      assert (a + b)[..|a + b| - 1] == a + b[..|b| - 1];
      ScanAppend(d, a, b[..|b| - 1]);
    } else {
      assert a + b == a;
    }
  }

  lemma {:induction false} ScanRows(rs: seq<nat>)
    ensures ScanFrom(1, Numbered(rs)) == Some(1) && ScanFrom(0, Unwrapped(rs)) == Some(0)
  {
    if |rs| > 0 {
      ScanRows(rs[..|rs| - 1]);
      assert Numbered(rs)[..|rs| - 1] == Numbered(rs[..|rs| - 1]);
      assert Unwrapped(rs)[..|rs| - 1] == Unwrapped(rs[..|rs| - 1]);
    }
  }

  lemma {:induction false} ScanGroupedPlan(rows: seq<seq<Cell>>, runs: seq<Run>)
    ensures ScanFrom(0, GroupedPlan(rows, runs)) == Some(0)
  {
    if |runs| > 0 {
      var last := runs[|runs| - 1];
      ScanGroupedPlan(rows, runs[..|runs| - 1]);
      ScanAppend(0, GroupedPlan(rows, runs[..|runs| - 1]), RunPieces(last, Occurrences(rows, last.key)));
      ScanRows(last.rows);
      ScanAppend(0, [OpenGroup(last.key)], Numbered(last.rows));
      ScanAppend(0, [OpenGroup(last.key)] + Numbered(last.rows), [CloseGroup]);
    }
  }

  /** Groups never nest and every group is closed; the rows inside a group
      are written as array elements and the rows outside are not. */
  lemma PlanIsBalanced(rows: seq<seq<Cell>>)
    ensures ScanFrom(0, Plan(rows)) == Some(0)
  {
    ScanGroupedPlan(rows, Runs(rows, |rows|));
  }

  /** Every written row has its own key, and is an array element exactly
      when its key occurs more than once in the sheet. */
  lemma PlanArrayFlag(rows: seq<seq<Cell>>)
    ensures forall p :: p in Plan(rows) && p.EmitRow? ==>
      p.rowIndex < |rows| && MainKeyOf(rows[p.rowIndex]).Some? &&
      (p.isArray <==> Occurrences(rows, MainKeyOf(rows[p.rowIndex]).value) > 1)
  {
    RunsAreWellFormed(rows, |rows|);
    GroupedPlanArrayFlag(rows, Runs(rows, |rows|));
  }

  lemma {:induction false} GroupedPlanArrayFlag(rows: seq<seq<Cell>>, runs: seq<Run>)
    requires forall r, j :: 0 <= r < |runs| && 0 <= j < |runs[r].rows| ==>
      runs[r].rows[j] < |rows| && MainKeyOf(rows[runs[r].rows[j]]) == Some(runs[r].key)
    ensures forall p :: p in GroupedPlan(rows, runs) && p.EmitRow? ==>
      p.rowIndex < |rows| && MainKeyOf(rows[p.rowIndex]).Some? &&
      (p.isArray <==> Occurrences(rows, MainKeyOf(rows[p.rowIndex]).value) > 1)
  {
    if |runs| > 0 {
      var last := runs[|runs| - 1];
      GroupedPlanArrayFlag(rows, runs[..|runs| - 1]);
      var c := Occurrences(rows, last.key);
      forall p | p in RunPieces(last, c) && p.EmitRow?
        ensures p.rowIndex < |rows| && MainKeyOf(rows[p.rowIndex]) == Some(last.key) && (p.isArray <==> c > 1)
      {
        if c > 1 {
          var j :| 0 <= j < |Numbered(last.rows)| && Numbered(last.rows)[j] == p;
          assert last.rows[j] == p.rowIndex;
        } else {
          var j :| 0 <= j < |Unwrapped(last.rows)| && Unwrapped(last.rows)[j] == p;
          assert last.rows[j] == p.rowIndex;
        }
      }
    }
  }

  /** A key occurring in two separate runs gets two groups, each numbered
      from 1. */
  lemma SplitRunsExample()
    ensures var a, b := [Text("a")], [Text("b")];
      Plan([a, b, a]) ==
        [OpenGroup("a"), EmitRow(0, true, 1), CloseGroup, EmitRow(1, false, 0),
         OpenGroup("a"), EmitRow(2, true, 1), CloseGroup]
  {
    SplitRunsExampleRuns();
    SplitRunsExamplePlan();
  }

  /** The runs of the example: `a`, then `b`, then `a` again. */
  lemma SplitRunsExampleRuns()
    ensures var a, b := [Text("a")], [Text("b")];
      Runs([a, b, a], 3) == [Run("a", [0]), Run("b", [1]), Run("a", [2])]
  {
    var a, b := [Text("a")], [Text("b")];
    var rows := [a, b, a];
    assert MainKeyOf(a) == Some("a") && MainKeyOf(b) == Some("b");
    var runs := [Run("a", [0]), Run("b", [1]), Run("a", [2])];
    assert Runs(rows, 1) == runs[..1];
    assert Runs(rows, 2) == runs[..2];
    assert Runs(rows, 3) == runs;
  }

  /** The pieces of the example's runs: `a` occurs twice, `b` once. */
  lemma SplitRunsExamplePlan()
    ensures var a, b := [Text("a")], [Text("b")];
      GroupedPlan([a, b, a], [Run("a", [0]), Run("b", [1]), Run("a", [2])]) ==
        [OpenGroup("a"), EmitRow(0, true, 1), CloseGroup, EmitRow(1, false, 0),
         OpenGroup("a"), EmitRow(2, true, 1), CloseGroup]
  {
    var a, b := [Text("a")], [Text("b")];
    var rows := [a, b, a];
    assert rows[..2] == [a, b] && [a, b][..1] == [a] && [a][..0] == [];
    assert MainKeyOf(a) == Some("a") && MainKeyOf(b) == Some("b");
    assert Occurrences([a], "a") == 1 && Occurrences([a], "b") == 0;
    assert Occurrences([a, b], "a") == 1 && Occurrences([a, b], "b") == 1;
    assert Occurrences(rows, "a") == 2;
    assert Occurrences(rows, "b") == 1;
    var runs := [Run("a", [0]), Run("b", [1]), Run("a", [2])];
    assert Numbered([0]) == [EmitRow(0, true, 1)];
    assert Numbered([2]) == [EmitRow(2, true, 1)];
    assert Unwrapped([1]) == [EmitRow(1, false, 0)];
    var one := runs[..1];
    var two := runs[..2];
    assert two[..1] == one && runs[..2] == two && one[..0] == [];
    assert one == [Run("a", [0])] && two == [Run("a", [0]), Run("b", [1])];
    assert RunPieces(Run("a", [0]), 2) == [OpenGroup("a"), EmitRow(0, true, 1), CloseGroup];
    assert RunPieces(Run("a", [2]), 2) == [OpenGroup("a"), EmitRow(2, true, 1), CloseGroup];
    assert RunPieces(Run("b", [1]), 1) == [EmitRow(1, false, 0)];
    assert GroupedPlan(rows, one) == GroupedPlanLast(rows, one);
    assert GroupedPlan(rows, two) == GroupedPlanLast(rows, two);
    assert GroupedPlan(rows, runs) == GroupedPlanLast(rows, runs);
    assert GroupedPlan(rows, one) == [OpenGroup("a"), EmitRow(0, true, 1), CloseGroup];
    assert GroupedPlan(rows, two) == [OpenGroup("a"), EmitRow(0, true, 1), CloseGroup, EmitRow(1, false, 0)];
  }
}
