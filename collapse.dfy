/** The pass at the end of `convert_row_to_kv` that deletes empty
    containers: an emitted line opening a container immediately followed by
    the line closing it. */
module Collapse {
  import opened JsString

  /** A line whose trimmed text ends in `{`. */
  predicate Opens(line: string) {
    EndsWith(Trim(line), "{")
  }

  /** A line whose trimmed text is exactly `}`. */
  predicate Closes(line: string) {
    Trim(line) == "}"
  }

  /** The pair the loop deletes. */
  predicate EmptyPair(a: string, b: string) {
    Opens(a) && Closes(b)
  }

  /** No two adjacent elements of `s` satisfy `pair`. */
  predicate NoPair<T>(pair: (T, T) -> bool, s: seq<T>) {
    forall j :: 0 <= j < |s| - 1 ==> !pair(s[j], s[j + 1])
  }

  /** No two adjacent lines form an empty container. */
  predicate NoEmptyPair(s: seq<string>) {
    NoPair(EmptyPair, s)
  }

  /** Specification of the pass as a stack reduction, for any test `pair`
      of two adjacent lines: each line either cancels, together with the
      top of the stack, a pair that `pair` accepts, or is pushed. */
  function Push<T>(pair: (T, T) -> bool, stack: seq<T>, line: T): seq<T> {
    if |stack| > 0 && pair(stack[|stack| - 1], line) then stack[..|stack| - 1]
    else stack + [line]
  }

  function Reduce<T>(pair: (T, T) -> bool, stack: seq<T>, input: seq<T>): seq<T>
    decreases |input|
  {
    if input == [] then stack else Reduce(pair, Push(pair, stack, input[0]), input[1..])
  }

  /** The lines left by the deletion pass. */
  function Collapsed(lines: seq<string>): seq<string> {
    Reduce(EmptyPair, [], lines)
  }

  /** Deleting a pair at the boundary of the stack is one Push: the line
      list with the pair spliced out, one line further back. */
  lemma ReduceDeletesPair<T>(pair: (T, T) -> bool, c: seq<T>, i: nat)
    requires i + 1 < |c| && pair(c[i], c[i + 1])
    ensures var d := c[..i] + c[i + 2..];
      i <= |d| && Reduce(pair, c[..i + 1], c[i + 1..]) == Reduce(pair, d[..i], d[i..])
  {
    var d := c[..i] + c[i + 2..];
    assert Push(pair, c[..i + 1], c[i + 1]) == c[..i] == d[..i];
    assert c[i + 1..][1..] == c[i + 2..] == d[i..];
  }

  /** Moving past a line that does not complete a pair is one Push. */
  lemma ReduceKeepsLine<T>(pair: (T, T) -> bool, c: seq<T>, i: int)
    requires -1 <= i && i + 1 < |c|
    requires i >= 0 ==> !pair(c[i], c[i + 1])
    ensures Reduce(pair, c[..i + 1], c[i + 1..]) == Reduce(pair, c[..i + 2], c[i + 2..])
  {
    assert Push(pair, c[..i + 1], c[i + 1]) == c[..i + 2];
    assert c[i + 1..][1..] == c[i + 2..];
  }

  /** The state of the loop before index `i`: the lines before `i + 1` are
      the stack of the reduction and the lines from `i + 1` its input. */
  ghost predicate Scanning<T>(pair: (T, T) -> bool, lines: seq<T>, cells: seq<T>, i: int) {
    -1 <= i <= |cells| &&
    (i < |cells| ==> Reduce(pair, [], lines) == Reduce(pair, cells[..i + 1], cells[i + 1..])) &&
    (i == |cells| ==> Reduce(pair, [], lines) == cells)
  }

  lemma ScanStart<T>(pair: (T, T) -> bool, lines: seq<T>)
    ensures Scanning(pair, lines, lines, 0)
  {
    if |lines| > 0 {
      assert Push(pair, [], lines[0]) == lines[..1];
    }
  }

  lemma ScanDelete<T>(pair: (T, T) -> bool, lines: seq<T>, cells: seq<T>, i: int)
    requires Scanning(pair, lines, cells, i)
    requires 0 <= i && i + 1 < |cells| && pair(cells[i], cells[i + 1])
    ensures Scanning(pair, lines, cells[..i] + cells[i + 2..], i - 1)
  {
    ReduceDeletesPair(pair, cells, i);
  }

  lemma ScanKeep<T>(pair: (T, T) -> bool, lines: seq<T>, cells: seq<T>, i: int)
    requires Scanning(pair, lines, cells, i) && i < |cells|
    requires !(0 <= i && i + 1 < |cells| && pair(cells[i], cells[i + 1]))
    ensures Scanning(pair, lines, cells, i + 1)
  {
    if i + 1 < |cells| {
      ReduceKeepsLine(pair, cells, i);
    } else {
      assert cells[..i + 1] == cells && cells[i + 1..] == [];
    }
  }

  /** The loop at sheetToKV.ts lines 342-355, for any test `pair`, on the
      line list `row_cells` that it splices: after deleting the pair at `i`
      it steps back one line (`i--; i--` and the loop's `i++`) so that a
      pair formed by the deletion is deleted too. */
  method DeletePairs<T>(pair: (T, T) -> bool, lines: seq<T>) returns (cells: seq<T>)
    ensures cells == Reduce(pair, [], lines)
  {
    cells := lines;
    var i: int := 0;
    ScanStart(pair, lines);
    while i < |cells|
      invariant Scanning(pair, lines, cells, i)
      decreases 2 * |cells| - i
    {
      if 0 <= i && i + 1 < |cells| && pair(cells[i], cells[i + 1]) {
        ScanDelete(pair, lines, cells, i);
        cells := cells[..i] + cells[i + 2..];
        i := i - 1;
      } else {
        ScanKeep(pair, lines, cells, i);
        i := i + 1;
      }
    }
  }

  /** The pass of `convert_row_to_kv` deleting empty containers. */
  method CollapseEmptyContainers(lines: seq<string>) returns (cells: seq<string>)
    ensures cells == Collapsed(lines)
  {
    cells := DeletePairs(EmptyPair, lines);
  }

  /** Reduction never creates a pair on a stack that had none. */
  lemma {:induction false} ReduceKeepsNoPair<T>(pair: (T, T) -> bool, stack: seq<T>, input: seq<T>)
    requires NoPair(pair, stack)
    ensures NoPair(pair, Reduce(pair, stack, input))
    decreases |input|
  {
    if input != [] {
      var p := Push(pair, stack, input[0]);
      assert NoPair(pair, p) by {
        if |stack| > 0 && pair(stack[|stack| - 1], input[0]) {
          assert forall j :: 0 <= j < |p| ==> p[j] == stack[j];
        } else {
          assert forall j :: 0 <= j < |stack| ==> p[j] == stack[j];
        }
      }
      ReduceKeepsNoPair(pair, p, input[1..]);
    }
  }

  /** After the pass no line opening a container is directly followed by
      the line that closes it, including containers that became empty only
      once an inner pair was deleted. */
  lemma CollapsedHasNoEmptyPair(lines: seq<string>)
    ensures NoEmptyPair(Collapsed(lines))
  {
    ReduceKeepsNoPair(EmptyPair, [], lines);
  }

  /** Lines with no pair go through the reduction unchanged. */
  lemma {:induction false} ReduceUnchanged<T>(pair: (T, T) -> bool, stack: seq<T>, input: seq<T>)
    requires NoPair(pair, stack + input)
    ensures Reduce(pair, stack, input) == stack + input
    decreases |input|
  {
    if input != [] {
      var c := stack + input;
      if |stack| > 0 {
        assert c[|stack| - 1] == stack[|stack| - 1] && c[|stack|] == input[0];
      }
      assert Push(pair, stack, input[0]) == stack + [input[0]];
      assert (stack + [input[0]]) + input[1..] == c;
      ReduceUnchanged(pair, stack + [input[0]], input[1..]);
    }
  }

  lemma CollapsedUnchangedWhenNoEmptyPair(lines: seq<string>)
    requires NoEmptyPair(lines)
    ensures Collapsed(lines) == lines
  {
    assert [] + lines == lines;
    ReduceUnchanged(EmptyPair, [], lines);
  }

  /** Running the pass twice deletes nothing more. */
  lemma CollapseIdempotent(lines: seq<string>)
    ensures Collapsed(Collapsed(lines)) == Collapsed(lines)
  {
    CollapsedHasNoEmptyPair(lines);
    CollapsedUnchangedWhenNoEmptyPair(Collapsed(lines));
  }

  /** The elements of `s` whose flag in `keep` equals `flag`, in order:
      with `flag` set, the lines kept; with it clear, the lines dropped. */
  function Pick<T>(s: seq<T>, keep: seq<bool>, flag: bool): seq<T>
    requires |keep| == |s|
  {
    if s == [] then [] else (if keep[0] == flag then [s[0]] else []) + Pick(s[1..], keep[1..], flag)
  }

  lemma {:induction false} PickAppend<T>(a: seq<T>, b: seq<T>, ka: seq<bool>, kb: seq<bool>, flag: bool)
    requires |ka| == |a| && |kb| == |b|
    ensures Pick(a + b, ka + kb, flag) == Pick(a, ka, flag) + Pick(b, kb, flag)
  {
    if a != [] {
      assert (a + b)[1..] == a[1..] + b && (ka + kb)[1..] == ka[1..] + kb;
      PickAppend(a[1..], b, ka[1..], kb, flag);
    } else {
      assert a + b == b && ka + kb == kb;
    }
  }

  /** With every flag equal to `flag` the whole sequence is picked. */
  lemma {:induction false} PickAll<T>(s: seq<T>, keep: seq<bool>, flag: bool)
    requires |keep| == |s| && forall j :: 0 <= j < |keep| ==> keep[j] == flag
    ensures Pick(s, keep, flag) == s && Pick(s, keep, !flag) == []
  {
    if s != [] {
      PickAll(s[1..], keep[1..], flag);
    }
  }

  lemma PickPair<T>(top: T, x: T, flag: bool)
    ensures Pick([top, x], [false, false], flag) == if flag then [] else [top, x]
  {
    assert [top, x][1..] == [x] && [false, false][1..] == [false];
    assert Pick([top, x], [false, false], flag) == (if flag then [] else [top]) + Pick([x], [false], flag);
    assert [x][1..] == [] && [false][1..] == [];
    assert Pick([x], [false], flag) == (if flag then [] else [x]) + Pick([], [], flag);
  }

  /** Dropping the pair `top, x` between `p` and `rest`, which `k` splits. */
  lemma PickAroundPair<T>(p: seq<T>, top: T, x: T, rest: seq<T>, k: seq<bool>, flag: bool)
    requires |k| == |p| + |rest|
    ensures |k[..|p|] + [false, false] + k[|p|..]| == |p| + 2 + |rest|
    ensures Pick(p + [top, x] + rest, k[..|p|] + [false, false] + k[|p|..], flag)
      == Pick(p, k[..|p|], flag) + (if flag then [] else [top, x]) + Pick(rest, k[|p|..], flag)
    ensures Pick(p + rest, k, flag) == Pick(p, k[..|p|], flag) + Pick(rest, k[|p|..], flag)
  {
    var k1, k2 := k[..|p|], k[|p|..];
    assert k == k1 + k2;
    PickAppend(p, rest, k1, k2, flag);
    PickAppend(p + [top, x], rest, k1 + [false, false], k2, flag);
    PickAppend(p, [top, x], k1, [false, false], flag);
    PickPair(top, x, flag);
  }

  /** Every element of `s` satisfies `side`. */
  predicate All<T(==)>(side: T -> bool, s: seq<T>) {
    forall x :: x in s ==> side(x)
  }

  lemma AllAroundPair<T>(side: T -> bool, a: seq<T>, top: T, x: T, b: seq<T>)
    requires All(side, a + b) && side(top) && side(x)
    ensures All(side, a + [top, x] + b)
  {
    forall y | y in a + [top, x] + b
      ensures side(y)
    {
      if y in a || y in b {
        assert y in a + b;
      }
    }
  }

  /** Cancelling the top of the stack against the next input line: the
      pick of what is left, with both lines dropped. */
  lemma PickCancelled<T>(side: T -> bool, stack: seq<T>, input: seq<T>, k: seq<bool>, r: seq<T>)
    returns (keep: seq<bool>)
    requires |stack| > 0 && |input| > 0 && side(stack[|stack| - 1]) && side(input[0])
    requires |k| == |stack| - 1 + |input| - 1
    requires Pick(stack[..|stack| - 1] + input[1..], k, true) == r
    requires All(side, Pick(stack[..|stack| - 1] + input[1..], k, false))
    ensures |keep| == |stack| + |input|
    ensures Pick(stack + input, keep, true) == r
    ensures All(side, Pick(stack + input, keep, false))
  {
    var p, top, x, rest := stack[..|stack| - 1], stack[|stack| - 1], input[0], input[1..];
    assert stack + input == p + [top, x] + rest;
    keep := k[..|p|] + [false, false] + k[|p|..];
    PickAroundPair(p, top, x, rest, k, true);
    PickAroundPair(p, top, x, rest, k, false);
    AllAroundPair(side, Pick(p, k[..|p|], false), top, x, Pick(rest, k[|p|..], false));
  }

  /** The lines the reduction keeps are picked out of the stack and the
      input by `keep`; every line it drops belonged to a pair, so it
      satisfies any `side` that both lines of every pair satisfy. */
  lemma {:induction false} ReduceSelects<T>(pair: (T, T) -> bool, side: T -> bool, stack: seq<T>, input: seq<T>)
    returns (keep: seq<bool>)
    requires forall a, b :: pair(a, b) ==> side(a) && side(b)
    ensures |keep| == |stack| + |input|
    ensures Pick(stack + input, keep, true) == Reduce(pair, stack, input)
    ensures All(side, Pick(stack + input, keep, false))
    decreases |input|
  {
    if input == [] {
      keep := seq(|stack|, j => true);
      assert stack + input == stack;
      PickAll(stack, keep, true);
    } else {
      var p := Push(pair, stack, input[0]);
      var k := ReduceSelects(pair, side, p, input[1..]);
      if |stack| > 0 && pair(stack[|stack| - 1], input[0]) {
        keep := PickCancelled(side, stack, input, k, Reduce(pair, p, input[1..]));
      } else {
        assert p + input[1..] == stack + input;
        keep := k;
      }
    }
  }

  /** A line the pass may delete: one that opens or closes a container. */
  predicate IsContainerLine(line: string) {
    Opens(line) || Closes(line)
  }

  /** The pass only deletes: its result is the input with some lines left
      out, and every line left out opens or closes a container, so every
      line of content survives, in order. */
  lemma CollapsedIsSubsequence(lines: seq<string>) returns (keep: seq<bool>)
    ensures |keep| == |lines|
    ensures Pick(lines, keep, true) == Collapsed(lines)
    ensures forall line :: line in Pick(lines, keep, false) ==> IsContainerLine(line)
  {
    forall a, b | EmptyPair(a, b)
      ensures IsContainerLine(a) && IsContainerLine(b)
    {
    }
    keep := ReduceSelects(EmptyPair, IsContainerLine, [], lines);
    assert [] + lines == lines;
  }

  /** Lines are deleted two at a time. */
  lemma {:induction false} ReduceDeletesEvenly<T>(pair: (T, T) -> bool, stack: seq<T>, input: seq<T>)
    ensures |Reduce(pair, stack, input)| <= |stack| + |input|
    ensures (|stack| + |input| - |Reduce(pair, stack, input)|) % 2 == 0
    decreases |input|
  {
    if input != [] {
      var p := Push(pair, stack, input[0]);
      ReduceDeletesEvenly(pair, p, input[1..]);
      var r := Reduce(pair, stack, input);
      assert r == Reduce(pair, p, input[1..]);
      assert |p| == |stack| - 1 || |p| == |stack| + 1;
      var d, d' := |stack| + |input| - |r|, |p| + |input| - 1 - |r|;
      assert d == d' || d == d' + 2;
    }
  }

  lemma CollapsedDeletesPairs(lines: seq<string>)
    ensures |Collapsed(lines)| <= |lines| && (|lines| - |Collapsed(lines)|) % 2 == 0
  {
    ReduceDeletesEvenly(EmptyPair, [], lines);
  }
}
