/** The JavaScript string operations the KV emitter relies on
    (repeat, startsWith, endsWith, includes, indexOf, replace with a string
    pattern, trim, trimStart, split, join, Number), written out over
    sequences of characters. */
module JsString {

  datatype Option<T> = None | Some(value: T)

  /** Concatenation regroups. */
  lemma AppendAssoc<T>(a: seq<T>, b: seq<T>, c: seq<T>)
    ensures (a + b) + c == a + (b + c)
  {
  }

  /** `s.repeat(n)` */
  function Repeat(s: string, n: nat): (r: string)
    ensures |r| == n * |s|
  {
    if n == 0 then "" else s + Repeat(s, n - 1)
  }

  /** One more repetition is the same as appending one more copy. */
  lemma {:induction false} RepeatSucc(s: string, n: nat)
    ensures Repeat(s, n + 1) == Repeat(s, n) + s
  {
    if n > 0 {
      RepeatSucc(s, n - 1);
      assert Repeat(s, n + 1) == s + Repeat(s, n) == s + (Repeat(s, n - 1) + s);
    }
  }

  /** Repetition adds up: `s.repeat(a + b) == s.repeat(a) + s.repeat(b)`. */
  lemma {:induction false} RepeatAdd(s: string, a: nat, b: nat)
    ensures Repeat(s, a + b) == Repeat(s, a) + Repeat(s, b)
  {
    if a > 0 {
      RepeatAdd(s, a - 1, b);
      assert Repeat(s, a + b) == s + Repeat(s, a - 1 + b);
    }
  }

  predicate StartsWith(s: string, prefix: string) {
    |prefix| <= |s| && s[..|prefix|] == prefix
  }

  predicate EndsWith(s: string, suffix: string) {
    |suffix| <= |s| && s[|s| - |suffix|..] == suffix
  }

  /** `t` occurs in `s` at position `j`. */
  predicate OccursAt(s: string, t: string, j: nat) {
    j + |t| <= |s| && s[j..j + |t|] == t
  }

  /** `s.indexOf(t)`: the first position at which `t` occurs in `s`. */
  function IndexOf(s: string, t: string): (r: Option<nat>)
    ensures r.Some? ==> OccursAt(s, t, r.value)
    ensures r.Some? ==> forall j: nat :: j < r.value ==> !OccursAt(s, t, j)
    ensures r.None? ==> forall j: nat :: !OccursAt(s, t, j)
    decreases |s|
  {
    if |s| < |t| then None
    else if s[..|t|] == t then Some(0)
    else
      var r := IndexOf(s[1..], t);
      assert forall i: nat :: 1 <= i ==> (OccursAt(s, t, i) <==> OccursAt(s[1..], t, i - 1)) by {
        forall i: nat | 1 <= i
          ensures OccursAt(s, t, i) <==> OccursAt(s[1..], t, i - 1)
        {
          if i + |t| <= |s| {
            var u := s[1..];
            var a, b := s[i..i + |t|], u[i - 1..i - 1 + |t|];
            assert |a| == |b| && forall k :: 0 <= k < |a| ==> a[k] == b[k];
            assert a == b;
          }
        }
      }
      match r
      case Some(j) => Some(j + 1)
      case None => None
  }

  /** `s.includes(t)` */
  predicate Contains(s: string, t: string) {
    IndexOf(s, t).Some?
  }

  /** `s.replace(pattern, replacement)` with a string pattern: only the first
      occurrence is replaced.  (The `$`-patterns a JavaScript replacement
      string may hold are not interpreted.) */
  function ReplaceFirst(s: string, pattern: string, replacement: string): (r: string)
    ensures !Contains(s, pattern) ==> r == s
    ensures Contains(s, pattern) ==>
        var i := IndexOf(s, pattern).value;
      r == s[..i] + replacement + s[i + |pattern|..]
  {
    match IndexOf(s, pattern)
    case None => s
    case Some(i) => s[..i] + replacement + s[i + |pattern|..]
  }

  /** What `replace` promises, without reference to IndexOf: a text in
      which the pattern occurs nowhere is unchanged, and otherwise the
      earliest occurrence, and only it, is replaced. */
  lemma ReplaceFirstSpec(s: string, pattern: string, replacement: string)
    ensures (forall j: nat :: !OccursAt(s, pattern, j)) ==> ReplaceFirst(s, pattern, replacement) == s
    ensures forall i: nat :: OccursAt(s, pattern, i) && (forall j: nat :: j < i ==> !OccursAt(s, pattern, j)) ==>
      ReplaceFirst(s, pattern, replacement) == s[..i] + replacement + s[i + |pattern|..]
  {
    match IndexOf(s, pattern)
    case None =>
    case Some(k) =>
      forall i: nat | OccursAt(s, pattern, i) && (forall j: nat :: j < i ==> !OccursAt(s, pattern, j))
        ensures i == k
      {
      }
  }

  /** Replacing a prefix: when `s` starts with `p`, the first occurrence of
      `p` is at position 0. */
  lemma ReplaceFirstAtStart(s: string, p: string, replacement: string)
    requires StartsWith(s, p)
    ensures ReplaceFirst(s, p, replacement) == replacement + s[|p|..]
  {
    assert OccursAt(s, p, 0);
  }

  /** A text that contains `t` contains the first character of `t`. */
  lemma ContainsFirstChar(s: string, t: string)
    requires |t| > 0
    ensures Contains(s, t) ==> t[0] in s
  {
    if Contains(s, t) {
      var j := IndexOf(s, t).value;
      assert s[j..j + |t|][0] == s[j];
    }
  }

  /** A text that starts with `a + b` starts with `a`. */
  lemma StartsWithPrefix(s: string, a: string, b: string)
    ensures StartsWith(s, a + b) ==> StartsWith(s, a)
  {
    if StartsWith(s, a + b) {
      assert s[..|a|] == s[..|a + b|][..|a|];
      assert (a + b)[..|a|] == a;
    }
  }

  /** The characters JavaScript's `trim` removes: WhiteSpace and
      LineTerminator of ECMAScript sections 12.2 and 12.3. */
  predicate IsWhitespace(c: char) {
    c == '\t' || c == '\n' || c == '\U{B}' || c == '\U{C}' || c == '\r' || c == ' '
    || c == '\U{A0}' || c == '\U{1680}' || ('\U{2000}' <= c <= '\U{200A}')
    || c == '\U{2028}' || c == '\U{2029}' || c == '\U{202F}' || c == '\U{205F}'
    || c == '\U{3000}' || c == '\U{FEFF}'
  }

  /** The line terminators, the characters `.` in a regular expression does
      not match. */
  predicate IsLineTerminator(c: char) {
    c == '\n' || c == '\r' || c == '\U{2028}' || c == '\U{2029}'
  }

  predicate AllWhitespace(s: string) {
    forall k :: 0 <= k < |s| ==> IsWhitespace(s[k])
  }

  /** `s.trimStart()`: drops the leading whitespace. */
  function TrimStart(s: string): (r: string)
    ensures |r| <= |s|
  {
    if |s| > 0 && IsWhitespace(s[0]) then TrimStart(s[1..]) else s
  }

  /** `s.trimEnd()`: drops the trailing whitespace. */
  function TrimEnd(s: string): (r: string)
    ensures |r| <= |s|
  {
    if |s| > 0 && IsWhitespace(s[|s| - 1]) then TrimEnd(s[..|s| - 1]) else s
  }

  /** `s.trim()` */
  function Trim(s: string): string {
    TrimEnd(TrimStart(s))
  }

  /** TrimStart leaves the longest suffix that does not start with
      whitespace. */
  lemma {:induction false} TrimStartSpec(s: string)
    ensures var r := TrimStart(s);
      r == s[|s| - |r|..] && AllWhitespace(s[..|s| - |r|]) && (r == [] || !IsWhitespace(r[0]))
  {
    if |s| > 0 && IsWhitespace(s[0]) {
      TrimStartSpec(s[1..]);
      var r := TrimStart(s[1..]);
      assert s[..|s| - |r|] == [s[0]] + s[1..][..|s| - 1 - |r|];
    }
  }

  /** TrimEnd leaves the longest prefix that does not end with whitespace. */
  lemma {:induction false} TrimEndSpec(s: string)
    ensures var r := TrimEnd(s);
      r == s[..|r|] && AllWhitespace(s[|r|..]) && (r == [] || !IsWhitespace(r[|r| - 1]))
  {
    if |s| > 0 && IsWhitespace(s[|s| - 1]) {
      TrimEndSpec(s[..|s| - 1]);
      var r := TrimEnd(s[..|s| - 1]);
      assert s[|r|..] == s[..|s| - 1][|r|..] + [s[|s| - 1]];
    }
  }

  /** A string is blank after trimming exactly when it is all whitespace. */
  lemma TrimEmptyIff(s: string)
    ensures Trim(s) == [] <==> AllWhitespace(s)
  {
    var a := TrimStart(s);
    TrimStartSpec(s);
    TrimEndSpec(a);
    if Trim(s) == [] {
      assert AllWhitespace(a[0..]);
      assert s == s[..|s| - |a|] + a;
    }
    if AllWhitespace(s) {
      assert AllWhitespace(a);
    }
  }

  /** `s.split(' ')[0]`: the text before the first space. */
  function FirstToken(s: string): (r: string)
    ensures StartsWith(s, r) && ' ' !in r
    ensures |r| < |s| ==> s[|r|] == ' '
  {
    match IndexOf(s, " ")
    case None =>
      assert forall k :: 0 <= k < |s| ==> s[k] != ' ' by {
        forall k | 0 <= k < |s| ensures s[k] != ' ' {
          assert !OccursAt(s, " ", k) && s[k..k + 1] == [s[k]];
        }
      }
      s
    case Some(i) =>
      assert forall k :: 0 <= k < i ==> s[k] != ' ' by {
        forall k | 0 <= k < i ensures s[k] != ' ' {
          assert !OccursAt(s, " ", k) && s[k..k + 1] == [s[k]];
        }
      }
      assert OccursAt(s, " ", i) && s[i..i + 1] == [s[i]];
      s[..i]
  }

  predicate IsDigit(c: char) { '0' <= c <= '9' }

  predicate AllDigits(s: string) {
    forall k :: 0 <= k < |s| ==> IsDigit(s[k])
  }

  /** The number a text of decimal digits denotes. */
  function DigitsValue(s: string): nat
    requires AllDigits(s)
  {
    if s == [] then 0 else DigitsValue(s[..|s| - 1]) * 10 + (s[|s| - 1] as int - '0' as int)
  }

  /** The decimal text of a natural number, as a template literal writes
      it: the digits spell `n`, with no leading zero. */
  function NatToString(n: nat): (r: string)
    ensures |r| > 0 && AllDigits(r) && DigitsValue(r) == n
    ensures r[0] == '0' <==> n == 0
  {
    var d := ['0' + (n % 10) as char];
    assert d[0] as int - '0' as int == n % 10;
    if n < 10 then d
    else
      var a := NatToString(n / 10);
      var r := a + d;
      assert r[..|r| - 1] == a && r[|r| - 1] == d[0] && r[0] == a[0];
      r
  }

  /** The length of the run of decimal digits `s` starts with. */
  function LeadingDigits(s: string): (n: nat)
    ensures n <= |s| && AllDigits(s[..n])
    ensures n < |s| ==> !IsDigit(s[n])
  {
    if |s| > 0 && IsDigit(s[0]) then
      var n := LeadingDigits(s[1..]);
      assert s[..n + 1] == [s[0]] + s[1..][..n];
      n + 1
    else 0
  }

  /** `!isNaN(Number(s))`: `s` is a StringNumericLiteral of ECMAScript
      section 7.1.4.1.1 (surrounding whitespace allowed; the empty string
      converts to 0). */
  predicate IsNumberText(s: string) {
    var t := Trim(s);
    t == [] || IsNonDecimalInteger(t) || IsSignedDecimal(t)
  }

  /** 0b..., 0o..., 0x... literals (no sign allowed). */
  predicate IsNonDecimalInteger(t: string) {
    |t| >= 3 && t[0] == '0' &&
    var body := t[2..];
    (t[1] in "bB" && forall k :: 0 <= k < |body| ==> body[k] in "01") ||
    (t[1] in "oO" && forall k :: 0 <= k < |body| ==> '0' <= body[k] <= '7') ||
    (t[1] in "xX" && forall k :: 0 <= k < |body| ==> IsDigit(body[k]) || 'a' <= body[k] <= 'f' || 'A' <= body[k] <= 'F')
  }

  predicate IsSignedDecimal(t: string) {
    if |t| > 0 && t[0] in "+-" then IsUnsignedDecimal(t[1..]) else IsUnsignedDecimal(t)
  }

  predicate IsUnsignedDecimal(t: string) {
    t == "Infinity" || (MantissaLength(t) > 0 && IsExponentOrEmpty(t[MantissaLength(t)..]))
  }

  /** The length of the longest `digits [. digits]` or `. digits` prefix of
      `t`, or 0 when `t` does not start with one. */
  function MantissaLength(t: string): (n: nat)
    ensures n <= |t|
  {
    var d := LeadingDigits(t);
    if d > 0 then
      if d < |t| && t[d] == '.' then d + 1 + LeadingDigits(t[d + 1..]) else d
    else if |t| > 1 && t[0] == '.' && LeadingDigits(t[1..]) > 0 then 1 + LeadingDigits(t[1..])
    else 0
  }

  predicate IsExponentOrEmpty(r: string) {
    r == [] ||
    (|r| >= 2 && r[0] in "eE" &&
     var u := if r[1] in "+-" then r[2..] else r[1..];
     |u| > 0 && AllDigits(u))
  }

  /** `lines.join(sep)` */
  function Join(lines: seq<string>, sep: string): string {
    if |lines| == 0 then ""
    else if |lines| == 1 then lines[0]
    else lines[0] + sep + Join(lines[1..], sep)
  }

  /** `s.split(c)` for a one-character separator. */
  function Split(s: string, c: char): (r: seq<string>)
    ensures |r| > 0
  {
    if s == [] then [""]
    else
      var rest := Split(s[1..], c);
      if s[0] == c then [""] + rest else [[s[0]] + rest[0]] + rest[1..]
  }

  lemma {:induction false} SplitNoSeparator(s: string, c: char)
    requires c !in s
    ensures Split(s, c) == [s]
  {
    if s != [] {
      SplitNoSeparator(s[1..], c);
      assert [s[0]] + s[1..] == s;
    }
  }

  lemma {:induction false} SplitAfterSeparator(x: string, y: string, c: char)
    requires c !in x
    ensures Split(x + [c] + y, c) == [x] + Split(y, c)
  {
    if x == [] {
      assert x + [c] + y == [c] + y;
      assert ([c] + y)[1..] == y;
    } else {
      assert (x + [c] + y)[1..] == x[1..] + [c] + y;
      SplitAfterSeparator(x[1..], y, c);
      assert [x[0]] + x[1..] == x;
    }
  }

  /** Splitting what was joined gives the parts back, provided no part holds
      the separator. */
  lemma {:induction false} SplitJoin(lines: seq<string>, c: char)
    requires |lines| > 0
    requires forall k :: 0 <= k < |lines| ==> c !in lines[k]
    ensures Split(Join(lines, [c]), c) == lines
  {
    if |lines| == 1 {
      SplitNoSeparator(lines[0], c);
    } else {
      SplitJoin(lines[1..], c);
      SplitAfterSeparator(lines[0], Join(lines[1..], [c]), c);
      assert [lines[0]] + lines[1..] == lines;
    }
  }
}
