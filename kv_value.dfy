/** `deal_with_kv_value`: the normalisation applied to a data cell before
    it is written as a KV value. */
module KvValue {
  import opened JsString
  import opened SheetTypes

  /** The test `/^[0-9]+.?[0-9]*$/.test(value)`: a run of digits, at most
      one further character other than a line terminator, then digits to the
      end.  Only one split is possible: the extra character, if any, is the
      first non-digit. */
  predicate NumericPattern(s: string) {
    var p := LeadingDigits(s);
    p > 0 && (p == |s| || (!IsLineTerminator(s[p]) && AllDigits(s[p + 1..])))
  }

  /** `s == d1 + x + d2` with `d1 = s[..i]` non-empty digits, `x = s[i..j]`
      at most one character that is not a line terminator, `d2 = s[j..]`
      digits: one way the regular expression can match. */
  ghost predicate RegexSplit(s: string, i: nat, j: nat) {
    1 <= i <= j <= |s| && j <= i + 1 && AllDigits(s[..i]) &&
    (j == i + 1 ==> !IsLineTerminator(s[i])) && AllDigits(s[j..])
  }

  /** NumericPattern is exactly the language of the regular expression. */
  lemma NumericPatternMatchesRegex(s: string)
    ensures NumericPattern(s) <==> exists i: nat, j: nat :: RegexSplit(s, i, j)
  {
    var p := LeadingDigits(s);
    if NumericPattern(s) {
      if p == |s| {
        assert RegexSplit(s, p, p);
      } else {
        assert RegexSplit(s, p, p + 1);
      }
    }
    if exists i: nat, j: nat :: RegexSplit(s, i, j) {
      var i: nat, j: nat :| RegexSplit(s, i, j);
      LeadingDigitsCovers(s, i);
      DigitsFrom(s, j, p);
    }
  }

  /** A prefix of digits is covered by the leading run of digits. */
  lemma {:induction false} LeadingDigitsCovers(s: string, i: nat)
    ensures i <= |s| && AllDigits(s[..i]) ==> LeadingDigits(s) >= i
  {
    if 0 < i <= |s| && AllDigits(s[..i]) {
      assert IsDigit(s[..i][0]);
      assert s[1..][..i - 1] == s[..i][1..];
      LeadingDigitsCovers(s[1..], i - 1);
    }
  }

  /** A suffix of digits starting at or before `p` makes `s[p]` a digit. */
  lemma DigitsFrom(s: string, j: nat, p: nat)
    ensures j <= p < |s| && AllDigits(s[j..]) ==> IsDigit(s[p])
  {
    if j <= p < |s| {
      assert s[j..][p - j] == s[p];
    }
  }

  /** `parseFloat(value) % 1 !== 0` for a text that NumericPattern accepts,
      read on the decimal text: the extra character is a decimal point and a
      non-zero digit follows it.  Any other extra character ends the number
      that `parseFloat` reads, and `e` followed by digits is an integral
      exponent.  (A text that overflows a double, or whose fraction a double
      rounds away, is decided differently by the double.) */
  predicate HasFraction(s: string) {
    var p := LeadingDigits(s);
    p < |s| && s[p] == '.' && exists k :: p < k < |s| && s[k] != '0'
  }

  /** `deal_with_kv_value`: a fractional decimal is reformatted (to four
      fractional digits, by `formatDecimal`), then an undefined cell and the
      configured `forceEmptyToken` become the empty text; everything else is
      returned as it is. */
  function DealWithKvValue(o: Options, cell: Cell): (r: string)
    ensures cell.Missing? ==> r == ""
    ensures cell.Text? && !NumericPattern(cell.s) ==>
      r == (if cell.s == o.forceEmptyToken then "" else cell.s)
    ensures cell.Text? && NumericPattern(cell.s) ==>
      r == (var v := if HasFraction(cell.s) then o.formatDecimal(cell.s) else cell.s;
            if v == o.forceEmptyToken then "" else v)
    ensures cell.Text? ==> r == "" || r == cell.s || r == o.formatDecimal(cell.s)
  {
    match cell
    case Missing => ""
    case Text(s) =>
      var v := if NumericPattern(s) && HasFraction(s) then o.formatDecimal(s) else s;
      if v == o.forceEmptyToken then "" else v
  }

  /** A whole number is written back unchanged. */
  lemma IntegerTextUnchanged(o: Options, s: string)
    requires |s| > 0 && AllDigits(s) && s != o.forceEmptyToken
    ensures DealWithKvValue(o, Text(s)) == s
  {
    assert s[..|s|] == s;
    LeadingDigitsCovers(s, |s|);
  }

  /** The leading run of digits of `d + rest`, when `d` is all digits and
      `rest` does not start with one, is `d`. */
  lemma {:induction false} LeadingDigitsOfPrefix(d: string, rest: string)
    requires AllDigits(d) && (rest == [] || !IsDigit(rest[0]))
    ensures LeadingDigits(d + rest) == |d|
  {
    if d != [] {
      assert (d + rest)[1..] == d[1..] + rest;
      LeadingDigitsOfPrefix(d[1..], rest);
    }
  }

  /** A decimal whose fractional digits are all `0` (`"3.0"`, `"3."`) is an
      integer to `parseFloat`, so it is written back unchanged. */
  lemma ZeroFractionUnchanged(o: Options, d: string, z: string)
    requires |d| > 0 && AllDigits(d) && forall k :: 0 <= k < |z| ==> z[k] == '0'
    requires d + "." + z != o.forceEmptyToken
    ensures DealWithKvValue(o, Text(d + "." + z)) == d + "." + z
  {
    var s := d + "." + z;
    assert s == d + ("." + z);
    LeadingDigitsOfPrefix(d, "." + z);
    assert forall k :: |d| < k < |s| ==> s[k] == z[k - |d| - 1];
  }

  /** A number split by a character other than `.` (`"1e5"`, `"12,5"`)
      matches the pattern and `parseFloat` reads a whole number: the digits
      before a separator such as `,`, or `d * 10^e` for `e`.  So the text is
      written back unchanged. */
  lemma OtherSeparatorUnchanged(o: Options, d: string, c: char, e: string)
    requires |d| > 0 && AllDigits(d) && AllDigits(e)
    requires !IsDigit(c) && c != '.' && !IsLineTerminator(c)
    requires d + [c] + e != o.forceEmptyToken
    ensures NumericPattern(d + [c] + e)
    ensures DealWithKvValue(o, Text(d + [c] + e)) == d + [c] + e
  {
    var s := d + [c] + e;
    assert s == d + ([c] + e);
    LeadingDigitsOfPrefix(d, [c] + e);
    assert s[|d| + 1..] == e;
  }

  /** A decimal with a non-zero fractional digit goes through the
      four-digit formatter. */
  lemma RealFractionReformatted(o: Options, d: string, f: string, k: nat)
    requires |d| > 0 && AllDigits(d) && AllDigits(f) && k < |f| && f[k] != '0'
    ensures var s := d + "." + f;
      NumericPattern(s) &&
      DealWithKvValue(o, Text(s)) == (if o.formatDecimal(s) == o.forceEmptyToken then "" else o.formatDecimal(s))
  {
    var s := d + "." + f;
    assert s == d + ("." + f);
    LeadingDigitsOfPrefix(d, "." + f);
    assert s[|d| + 1..] == f;
    assert s[|d|] == '.';
    assert NumericPattern(s);
    assert s[|d| + 1 + k] == f[k];
    assert HasFraction(s);
  }

  /** `"3.0"`, `"1e5"` and `"12,5"` come back unchanged. */
  lemma UnchangedNumberExamples(o: Options)
    requires o.forceEmptyToken == "__empty__"
    ensures DealWithKvValue(o, Text("3.0")) == "3.0"
    ensures DealWithKvValue(o, Text("1e5")) == "1e5"
    ensures DealWithKvValue(o, Text("12,5")) == "12,5"
  {
    ZeroFractionUnchanged(o, "3", "0");
    assert "3" + "." + "0" == "3.0";
    OtherSeparatorUnchanged(o, "1", 'e', "5");
    assert "1" + ['e'] + "5" == "1e5";
    OtherSeparatorUnchanged(o, "12", ',', "5");
    assert "12" + [','] + "5" == "12,5";
  }

  /** `"3"` stays `"3"`, `"3.5"` goes through the four-digit formatter, and
      the sentinel `__empty__` becomes `""`. */
  lemma NormalisationExamples(o: Options)
    requires o.forceEmptyToken == "__empty__"
    requires o.formatDecimal("3.5") != "__empty__"
    ensures DealWithKvValue(o, Text("3")) == "3"
    ensures DealWithKvValue(o, Text("3.5")) == o.formatDecimal("3.5")
    ensures DealWithKvValue(o, Text("__empty__")) == ""
  {
    IntegerTextUnchanged(o, "3");
    var h := "3.5";
    assert LeadingDigits(h[2..]) == 1;
    assert LeadingDigits(h[1..]) == 0;
    assert LeadingDigits(h) == 1;
    assert h[2] != '0';
    var e := "__empty__";
    assert LeadingDigits(e) == 0;
  }
}
