/** Byte-string helpers standing for the parts of Go's `strings`, `bufio`
    and `unicode` packages that the core uses. A Go string is a byte
    sequence; here it is a `string` whose characters are single bytes, and
    only ASCII letters and white space are treated specially. */
module Text {
  import opened Wrappers

  /** `unicode.IsSpace` restricted to ASCII: tab, newline, vertical tab,
      form feed, carriage return and space. */
  predicate IsSpace(c: char) {
    c == ' ' || c == '\t' || c == '\n' || c == '\r' || c == 11 as char || c == 12 as char
  }

  /** `\s` in Go's regular expressions: like IsSpace but without the
      vertical tab. */
  predicate IsRegexSpace(c: char) {
    c == ' ' || c == '\t' || c == '\n' || c == '\r' || c == 12 as char
  }

  predicate IsDigit(c: char) { '0' <= c <= '9' }

  predicate IsUpper(c: char) { 'A' <= c <= 'Z' }

  function LowerChar(c: char): char {
    if IsUpper(c) then (c as int + 32) as char else c
  }

  /** `strings.ToLower` on ASCII text. */
  function Lower(s: string): (r: string)
    ensures |r| == |s|
    ensures forall i :: 0 <= i < |s| ==> r[i] == LowerChar(s[i])
  {
    if s == [] then [] else [LowerChar(s[0])] + Lower(s[1..])
  }

  predicate IsLower(c: char) { 'a' <= c <= 'z' }

  function UpperChar(c: char): char {
    if IsLower(c) then (c as int - 32) as char else c
  }

  /** `strings.ToUpper` on ASCII text. */
  function Upper(s: string): (r: string)
    ensures |r| == |s|
    ensures forall i :: 0 <= i < |s| ==> r[i] == UpperChar(s[i])
  {
    if s == [] then [] else [UpperChar(s[0])] + Upper(s[1..])
  }

  /** `strings.EqualFold` on ASCII text. */
  predicate EqualFold(a: string, b: string) {
    Lower(a) == Lower(b)
  }

  function TrimLeft(s: string): (r: string)
    ensures |r| <= |s| && r == s[|s| - |r|..]
    ensures r == [] || !IsSpace(r[0])
    ensures forall k :: 0 <= k < |s| - |r| ==> IsSpace(s[k])
  {
    if s != [] && IsSpace(s[0]) then TrimLeft(s[1..]) else s
  }

  function TrimRight(s: string): (r: string)
    ensures |r| <= |s| && r == s[..|r|]
    ensures r == [] || !IsSpace(r[|r| - 1])
    ensures forall k :: |r| <= k < |s| ==> IsSpace(s[k])
  {
    if s != [] && IsSpace(s[|s| - 1]) then TrimRight(s[..|s| - 1]) else s
  }

  /** `strings.TrimSpace`. */
  function TrimSpace(s: string): (r: string)
    ensures |r| <= |s|
    ensures r == [] || (!IsSpace(r[0]) && !IsSpace(r[|r| - 1]))
  {
    TrimRight(TrimLeft(s))
  }

  /** Text that already starts and ends with a non-space is its own trim. */
  lemma TrimSpaceKeeps(s: string)
    requires s == [] || (!IsSpace(s[0]) && !IsSpace(s[|s| - 1]))
    ensures TrimSpace(s) == s
  {
  }

  /** Trimming only removes characters. */
  lemma TrimSpaceIn(s: string, c: char)
    requires c in TrimSpace(s)
    ensures c in s
  {
    var l := TrimLeft(s);
    var t := TrimRight(l);
    var k :| 0 <= k < |t| && t[k] == c;
    var j := |s| - |l| + k;
    assert l[k] == c by { assert t == l[..|t|]; }
    assert s[j] == c by { assert l == s[|s| - |l|..]; }
  }

  predicate HasPrefix(s: string, p: string) {
    |p| <= |s| && s[..|p|] == p
  }

  predicate HasSuffix(s: string, p: string) {
    |p| <= |s| && s[|s| - |p|..] == p
  }

  lemma PrefixChar(s: string, p: string, i: int)
    requires HasPrefix(s, p) && 0 <= i < |p|
    ensures s[i] == p[i]
  {
    assert s[..|p|][i] == s[i];
  }

  lemma ConcatPrefix(a: string, b: string)
    ensures HasPrefix(a + b, a)
  {
    assert (a + b)[..|a|] == a;
  }

  /** `strings.Contains`: some position of `s` starts with `p`. */
  predicate Contains(s: string, p: string)
    decreases |s|
  {
    HasPrefix(s, p) || (s != [] && Contains(s[1..], p))
  }

  lemma {:induction false} ContainsInSuffix(a: string, b: string, p: string)
    requires Contains(b, p)
    ensures Contains(a + b, p)
  {
    if a != [] {
      ContainsInSuffix(a[1..], b, p);
      assert (a + b)[1..] == a[1..] + b;
      assert Contains((a + b)[1..], p);
    } else {
      assert a + b == b;
    }
  }

  lemma {:induction false} ContainsInPrefix(a: string, b: string, p: string)
    requires Contains(a, p)
    ensures Contains(a + b, p)
  {
    if HasPrefix(a, p) {
      assert (a + b)[..|p|] == a[..|p|];
    } else {
      ContainsInPrefix(a[1..], b, p);
      assert (a + b)[1..] == a[1..] + b;
    }
  }

  /** A one-character search is membership. */
  lemma {:induction false} ContainsChar(s: string, c: char)
    ensures Contains(s, [c]) <==> c in s
    decreases |s|
  {
    if s != [] {
      ContainsChar(s[1..], c);
      assert c in s <==> s[0] == c || c in s[1..];
    }
  }

  /** Index of the first occurrence of `c` in `s`, if any. */
  function IndexOf(s: string, c: char): (r: Option<nat>)
    ensures r.None? ==> c !in s
    ensures r.Some? ==> r.value < |s| && s[r.value] == c && c !in s[..r.value]
  {
    if s == [] then None
    else if s[0] == c then Some(0)
    else
      var rest := IndexOf(s[1..], c);
      if rest.None? then None else Some(rest.value + 1)
  }

  /** `strings.Split(s, string(sep))`: the pieces between occurrences of
      `sep`, always at least one. */
  function Split(s: string, sep: char): (r: seq<string>)
    ensures |r| >= 1
    ensures forall i :: 0 <= i < |r| ==> sep !in r[i]
    decreases |s|
  {
    match IndexOf(s, sep)
    case None => [s]
    case Some(i) => [s[..i]] + Split(s[i + 1..], sep)
  }

  /** `bufio.ScanLines`' removal of one trailing carriage return. */
  function DropCR(line: string): string {
    if line != [] && line[|line| - 1] == '\r' then line[..|line| - 1] else line
  }

  /** The tokens a `bufio.Scanner` with `ScanLines` yields: the text
      between newlines, each without a trailing carriage return; text after
      the last newline is a line only when it is not empty. */
  function ScanLines(s: string): (r: seq<string>)
    ensures forall i :: 0 <= i < |r| ==> '\n' !in r[i]
    decreases |s|
  {
    if s == [] then []
    else
      match IndexOf(s, '\n')
      case None => [DropCR(s)]
      case Some(i) => [DropCR(s[..i])] + ScanLines(s[i + 1..])
  }

  /** Text that ends a line splits its lines from those of what follows. */
  lemma {:induction false} ScanLinesAppend(a: string, b: string)
    requires a == [] || a[|a| - 1] == '\n'
    ensures ScanLines(a + b) == ScanLines(a) + ScanLines(b)
    decreases |a|
  {
    if a == [] {
      assert a + b == b;
    } else {
      var i := IndexOf(a, '\n').value;
      var tail := a[i + 1..];
      assert tail == [] || tail[|tail| - 1] == '\n';
      ScanLinesAppend(tail, b);
      ScanLinesSplitAt(a, b, i);
    }
  }

  /** The first line of `a + b` is the first line of `a` when `a` holds a
      newline. */
  lemma ScanLinesSplitAt(a: string, b: string, i: nat)
    requires IndexOf(a, '\n') == Some(i)
    ensures ScanLines(a + b) == [DropCR(a[..i])] + ScanLines(a[i + 1..] + b)
    ensures ScanLines(a) == [DropCR(a[..i])] + ScanLines(a[i + 1..])
  {
    IndexOfAppend(a, b, '\n');
    assert (a + b)[..i] == a[..i];
    assert (a + b)[i + 1..] == a[i + 1..] + b;
  }

  /** A line with its newline is scanned as that line. */
  lemma ScanLinesLine(e: string, rest: string)
    requires '\n' !in e && (e == [] || e[|e| - 1] != '\r')
    ensures ScanLines(e + "\n" + rest) == [e] + ScanLines(rest)
  {
    var line := e + "\n";
    assert line[..|e|] == e && line[|e| + 1..] == [];
    IndexOfUnique(line, '\n', |e|);
    ScanLinesSplitAt(line, rest, |e|);
    assert line[|e| + 1..] + rest == rest;
  }

  lemma IndexOfAppend(a: string, b: string, c: char)
    requires IndexOf(a, c).Some?
    ensures IndexOf(a + b, c) == IndexOf(a, c)
  {
    var i := IndexOf(a, c).value;
    assert (a + b)[i] == c;
    assert (a + b)[..i] == a[..i];
    IndexOfUnique(a + b, c, i);
  }

  lemma {:induction false} IndexOfUnique(s: string, c: char, i: nat)
    requires i < |s| && s[i] == c && c !in s[..i]
    ensures IndexOf(s, c) == Some(i)
  {
    if i > 0 {
      assert s[0] == s[..i][0];
      assert s[1..][..i - 1] == s[..i][1..];
      IndexOfUnique(s[1..], c, i - 1);
    }
  }

  /** `strings.ReplaceAll(s, string(a), string(b))` for one-byte `a`, `b`. */
  function ReplaceChar(s: string, a: char, b: char): (r: string)
    ensures |r| == |s|
    ensures forall i :: 0 <= i < |s| ==> r[i] == (if s[i] == a then b else s[i])
  {
    if s == [] then [] else [if s[0] == a then b else s[0]] + ReplaceChar(s[1..], a, b)
  }

  /** `strings.ReplaceAll(s, string(c), "")`. */
  function RemoveChar(s: string, c: char): (r: string)
    ensures |r| <= |s|
    ensures c !in r
    ensures forall x :: x in r ==> x in s
  {
    if s == [] then [] else (if s[0] == c then [] else [s[0]]) + RemoveChar(s[1..], c)
  }

  /** The keep-or-cut rule shared by the Go helpers `truncate`,
      `truncateStr`, `truncateForSpawn` and the importer's `truncate`:
      text within `maxLen` bytes is kept, longer text keeps its first
      `maxLen - 3` bytes followed by "...". Go panics on the cut when
      `maxLen < 3`, so callers must not reach it. */
  function Truncate(s: string, maxLen: int): (r: string)
    requires |s| <= maxLen || 3 <= maxLen
    ensures |s| <= maxLen ==> r == s
    ensures |s| > maxLen ==> |r| == maxLen && HasSuffix(r, "...") && HasPrefix(s, r[..maxLen - 3])
    ensures |r| <= |s|
  {
    if |s| <= maxLen then s else s[..maxLen - 3] + "..."
  }

  /** `strings.Join`-like concatenation with `sep` between consecutive
      elements. */
  function JoinWith(strs: seq<string>, sep: string): string
  {
    if strs == [] then "" else if |strs| == 1 then strs[0] else JoinWith(strs[..|strs| - 1], sep) + sep + strs[|strs| - 1]
  }

  // ----- decimal integers

  const MinInt64: int := -0x8000_0000_0000_0000
  const MaxInt64: int := 0x7FFF_FFFF_FFFF_FFFF

  predicate AllDecimal(s: string) {
    forall i :: 0 <= i < |s| ==> IsDigit(s[i])
  }

  /** The value of a run of decimal digits. */
  function DecimalValue(s: string): nat
    requires AllDecimal(s)
  {
    if s == [] then 0 else DecimalValue(s[..|s| - 1]) * 10 + (s[|s| - 1] as int - '0' as int)
  }

  /** `n` in decimal, without leading zeros. */
  function DecimalString(n: nat): (r: string)
    ensures r != [] && AllDecimal(r)
    ensures |r| > 1 ==> r[0] != '0'
  {
    if n < 10 then [('0' as int + n) as char]
    else DecimalString(n / 10) + [('0' as int + n % 10) as char]
  }

  lemma {:induction false} DecimalRoundTrip(n: nat)
    ensures DecimalValue(DecimalString(n)) == n
  {
    if n >= 10 {
      var s := DecimalString(n);
      assert s[..|s| - 1] == DecimalString(n / 10);
      DecimalRoundTrip(n / 10);
    }
  }

  /** `strconv.ParseInt(s, 10, 64)`: an optional sign, then one or more
      digits and nothing else, in the signed 64-bit range. */
  function ParseInt64(s: string): (r: Option<int>)
    ensures r.Some? ==> MinInt64 <= r.value <= MaxInt64
    ensures r.Some? ==> s != []
  {
    var body := if s != [] && (s[0] == '+' || s[0] == '-') then s[1..] else s;
    if body == [] || !AllDecimal(body) then None
    else
      var n: int := DecimalValue(body);
      var v := if s[0] == '-' then -n else n;
      if MinInt64 <= v <= MaxInt64 then Some(v) else None
  }

  /** `strconv.FormatInt(n, 10)`. */
  function FormatInt(n: int): string {
    if n < 0 then "-" + DecimalString(-n) else DecimalString(n)
  }

  /** Parsing a formatted integer of the 64-bit range gives it back. */
  lemma ParseFormatInt(n: int)
    requires MinInt64 <= n <= MaxInt64
    ensures ParseInt64(FormatInt(n)) == Some(n)
  {
    if n < 0 {
      var d := DecimalString(-n);
      var s := "-" + d;
      assert s[0] == '-' && s[1..] == d;
      DecimalRoundTrip(-n);
    } else {
      var d := DecimalString(n);
      assert IsDigit(d[0]);
      DecimalRoundTrip(n);
    }
  }

  /** Splitting at a separator placed between two texts splits each. */
  lemma {:induction false} SplitAround(x: string, y: string, c: char)
    ensures Split(x + [c] + y, c) == Split(x, c) + Split(y, c)
    decreases |x|
  {
    var s := x + [c] + y;
    match IndexOf(x, c)
    case None =>
      assert s[..|x|] == x;
      IndexOfUnique(s, c, |x|);
      assert s[|x| + 1..] == y;
    case Some(i) =>
      IndexOfAppend(x, [c] + y, c);
      assert s == x + ([c] + y);
      assert s[..i] == x[..i];
      assert s[i + 1..] == x[i + 1..] + [c] + y;
      SplitAround(x[i + 1..], y, c);
  }

  /** Joining with a one-byte separator that no element contains, then
      splitting at it, gives the elements back. */
  lemma {:induction false} JoinThenSplit(strs: seq<string>, c: char)
    requires strs != [] && forall i :: 0 <= i < |strs| ==> c !in strs[i]
    ensures Split(JoinWith(strs, [c]), c) == strs
  {
    var n := |strs| - 1;
    assert IndexOf(strs[n], c).None?;
    if n > 0 {
      JoinThenSplit(strs[..n], c);
      SplitAround(JoinWith(strs[..n], [c]), strs[n], c);
      assert strs == strs[..n] + [strs[n]];
    }
  }
}
