/** `bdc list`: the insights that pass the thread, type, age and author
    filters, newest first, one line each. */
module List {
  import opened Wrappers
  import opened Text
  import opened Types
  import opened Storage
  import opened Root

  // ----- parseSince

  /** The white space `fmt.Sscanf` skips before a number. A newline is not
      skipped, and scanning fails on it. */
  predicate IsScanSpace(c: char) {
    c == ' ' || c == '\t' || c == '\r' || c == 11 as char || c == 12 as char
  }

  function SkipScanSpace(s: string): (r: string)
    ensures |r| <= |s|
    ensures r != [] ==> !IsScanSpace(r[0])
  {
    if s != [] && IsScanSpace(s[0]) then SkipScanSpace(s[1..]) else s
  }

  /** Skipping only drops characters from the front. */
  lemma {:induction false} SkipScanSpaceSuffix(s: string)
    ensures s[|s| - |SkipScanSpace(s)|..] == SkipScanSpace(s)
  {
    if s != [] && IsScanSpace(s[0]) {
      SkipScanSpaceSuffix(s[1..]);
      assert s[1..][|s| - 1 - |SkipScanSpace(s)|..] == s[|s| - |SkipScanSpace(s)|..];
    }
  }

  /** The longest run of digits `s` starts with. */
  function LeadingDigits(s: string): (r: string)
    ensures AllDecimal(r) && HasPrefix(s, r)
    ensures |r| < |s| ==> !IsDigit(s[|r|])
  {
    if s != [] && IsDigit(s[0]) then [s[0]] + LeadingDigits(s[1..]) else []
  }

  /** `fmt.Sscanf(s, "%d", &num)`: skips white space, takes an optional
      sign and the digits after it, and ignores the rest; no digit, or a
      value outside the 64-bit range, is an error. */
  function ScanInt(s: string): Option<int> {
    var rest := SkipScanSpace(s);
    var signed := rest != [] && (rest[0] == '+' || rest[0] == '-');
    var digits := LeadingDigits(if signed then rest[1..] else rest);
    if digits == [] then None
    else if signed then ParseInt64([rest[0]] + digits)
    else ParseInt64(digits)
  }

  /** The seconds one unit of `h`, `d` or `w` stands for. */
  function UnitSeconds(unit: char): int {
    if unit == 'h' then 3600 else if unit == 'd' then 86400 else 604800
  }

  const NanosPerSecond: int := 1_000_000_000

  /** Go's int64 arithmetic: `x` wrapped into the signed 64-bit range. */
  function WrapInt64(x: int): (r: int)
    ensures MinInt64 <= r <= MaxInt64
    ensures (r - x) % 0x1_0000_0000_0000_0000 == 0
    ensures MinInt64 <= x <= MaxInt64 ==> r == x
  {
    var m := x % 0x1_0000_0000_0000_0000;
    if m > MaxInt64 then m - 0x1_0000_0000_0000_0000 else m
  }

  /** The seconds `now.Add(-time.Duration(n) * unit)` moves by: the
      duration is an int64 count of nanoseconds, so the product wraps, and
      `Add` takes whole seconds, borrowing one for a negative remainder
      (`now` has no fraction of a second in this model). */
  function SinceOffset(n: int, unit: char): int {
    WrapInt64(-n * UnitSeconds(unit) * NanosPerSecond) / NanosPerSecond
  }

  /** The largest count of a unit whose nanoseconds fit in 64 bits. */
  function MaxCount(unit: char): int {
    if unit == 'h' then 2562047 else if unit == 'd' then 106751 else 15250
  }

  /** Up to `MaxCount` the offset is exactly n units back. */
  lemma SinceOffsetExact(n: int, unit: char)
    requires 0 <= n <= MaxCount(unit) && (unit == 'h' || unit == 'd' || unit == 'w')
    ensures SinceOffset(n, unit) == -(n * UnitSeconds(unit))
  {
    var k := -(n * UnitSeconds(unit));
    assert k == -n * UnitSeconds(unit);
    if unit == 'h' {
      assert -n * UnitSeconds(unit) * NanosPerSecond == n * -3_600_000_000_000;
    } else if unit == 'd' {
      assert -n * UnitSeconds(unit) * NanosPerSecond == n * -86_400_000_000_000;
    } else {
      assert -n * UnitSeconds(unit) * NanosPerSecond == n * -604_800_000_000_000;
    }
    assert MinInt64 <= k * NanosPerSecond <= 0;
    assert (k * NanosPerSecond) / NanosPerSecond == k;
  }

  /** `parseSince`: "" means no bound; otherwise a number and a one-letter
      unit. Hours, days and weeks count back from `now` by an int64
      nanosecond duration; months go back by the calendar, which
      `monthsFromNow` stands for (`now.AddDate(0, k, 0)`). */
  function ParseSince(s: string, now: Time, monthsFromNow: int -> Time): (r: Result<Time>)
    ensures s == "" ==> r == Ok(ZeroTime)
    ensures |s| == 1 ==> r == Err(InvalidDurationFormat)
    ensures |s| >= 2 && ScanInt(s[..|s| - 1]).None? ==> r == Err(InvalidDurationNumber)
    ensures |s| >= 2 && r.Ok? ==> s[|s| - 1] in "hdwm"
  {
    if s == "" then Ok(ZeroTime)
    else if |s| < 2 then Err(InvalidDurationFormat)
    else
      var unit := s[|s| - 1];
      match ScanInt(s[..|s| - 1])
      case None => Err(InvalidDurationNumber)
      case Some(n) =>
        if unit == 'h' || unit == 'd' || unit == 'w' then Ok(now + SinceOffset(n, unit))
        else if unit == 'm' then Ok(monthsFromNow(-n))
        else Err(InvalidDurationUnit(unit))
  }

  lemma LeadingDigitsOf(d: string, rest: string)
    requires AllDecimal(d) && (rest == [] || !IsDigit(rest[0]))
    ensures LeadingDigits(d + rest) == d
  {
    if d != [] {
      assert (d + rest)[1..] == d[1..] + rest;
      LeadingDigitsOf(d[1..], rest);
      assert d == [d[0]] + d[1..];
    } else {
      assert d + rest == rest;
    }
  }

  /** A number written in decimal scans back, whatever non-digit text
      follows it. */
  lemma ScanDecimal(n: nat, rest: string)
    requires n <= MaxInt64 && (rest == [] || !IsDigit(rest[0]))
    ensures ScanInt(DecimalString(n) + rest) == Some(n)
  {
    var d := DecimalString(n);
    var s := d + rest;
    assert s[0] == d[0] && IsDigit(d[0]);
    ScanUnsigned(s);
    LeadingDigitsOf(d, rest);
    ParseDecimal(n);
  }

  /** Text starting with a digit scans as the digits it starts with. */
  lemma ScanUnsigned(s: string)
    requires s != [] && IsDigit(s[0])
    ensures ScanInt(s) == ParseInt64(LeadingDigits(s))
  {
    NothingToSkip(s);
  }

  /** A string that starts with no white space is not shortened. */
  lemma NothingToSkip(s: string)
    requires s != [] && !IsScanSpace(s[0])
    ensures SkipScanSpace(s) == s
  {
  }

  /** A number written in decimal parses back when it fits in 64 bits. */
  lemma ParseDecimal(n: nat)
    requires n <= MaxInt64
    ensures ParseInt64(DecimalString(n)) == Some(n)
  {
    var d := DecimalString(n);
    assert IsDigit(d[0]);
    DecimalRoundTrip(n);
  }

  /** "<n>h", "<n>d" and "<n>w" go back n hours, days or weeks from now,
      and "<n>m" n calendar months. */
  lemma ParseSinceCountsBack(n: nat, unit: char, now: Time, monthsFromNow: int -> Time)
    requires n <= MaxInt64 && unit in "hdwm"
    ensures unit != 'm' ==> ParseSince(DecimalString(n) + [unit], now, monthsFromNow) == Ok(now + SinceOffset(n, unit))
    ensures unit == 'm' ==> ParseSince(DecimalString(n) + [unit], now, monthsFromNow) == Ok(monthsFromNow(-(n as int)))
  {
    ScanBeforeUnit(n, unit);
    var s := DecimalString(n) + [unit];
    if unit == 'm' {
      ParseSinceMonths(s, n, now, monthsFromNow);
    } else {
      assert unit == 'h' || unit == 'd' || unit == 'w';
      ParseSinceUnits(s, n, unit, now, monthsFromNow);
    }
  }

  /** Up to 2562047 hours, 106751 days or 15250 weeks, "<n>h", "<n>d"
      and "<n>w" go back exactly n units from now. */
  lemma ParseSinceInRange(n: nat, unit: char, now: Time, monthsFromNow: int -> Time)
    requires (unit == 'h' || unit == 'd' || unit == 'w') && n <= MaxCount(unit)
    ensures ParseSince(DecimalString(n) + [unit], now, monthsFromNow) == Ok(now - n * UnitSeconds(unit))
  {
    ScanBeforeUnit(n, unit);
    ParseSinceUnitsExact(DecimalString(n) + [unit], n, unit, now, monthsFromNow);
  }

  lemma ParseSinceUnitsExact(s: string, n: nat, unit: char, now: Time, monthsFromNow: int -> Time)
    requires |s| >= 2 && ScanInt(s[..|s| - 1]) == Some(n) && s[|s| - 1] == unit
    requires (unit == 'h' || unit == 'd' || unit == 'w') && n <= MaxCount(unit)
    ensures ParseSince(s, now, monthsFromNow) == Ok(now - n * UnitSeconds(unit))
  {
    SinceOffsetExact(n, unit);
  }

  /** One past the range the nanosecond duration wraps: `--since
      2562048h` lies about 292 years in the future, so it lists nothing. */
  lemma ParseSinceWraps(now: Time, monthsFromNow: int -> Time)
    ensures ParseSince(DecimalString(2562048) + ['h'], now, monthsFromNow) == Ok(now + 9223371273)
  {
    ParseSinceCountsBack(2562048, 'h', now, monthsFromNow);
    HourOffsetWraps();
  }

  lemma HourOffsetWraps()
    ensures SinceOffset(2562048, 'h') == 9223371273
  {
    assert -2562048 * UnitSeconds('h') * NanosPerSecond == -9223372800000000000;
    assert WrapInt64(-9223372800000000000) == 9223371273709551616;
  }

  /** Text whose number scans, ending in `h`, `d` or `w`, goes back that
      many hours, days or weeks. */
  lemma ParseSinceUnits(s: string, n: int, unit: char, now: Time, monthsFromNow: int -> Time)
    requires |s| >= 2 && ScanInt(s[..|s| - 1]) == Some(n) && s[|s| - 1] == unit
    requires unit == 'h' || unit == 'd' || unit == 'w'
    ensures ParseSince(s, now, monthsFromNow) == Ok(now + SinceOffset(n, unit))
  {
  }

  /** Text whose number scans, ending in `m`, goes back that many calendar
      months. */
  lemma ParseSinceMonths(s: string, n: int, now: Time, monthsFromNow: int -> Time)
    requires |s| >= 2 && ScanInt(s[..|s| - 1]) == Some(n) && s[|s| - 1] == 'm'
    ensures ParseSince(s, now, monthsFromNow) == Ok(monthsFromNow(-n))
  {
  }

  /** A decimal number followed by one letter: the number scans back from
      all but the last character. */
  lemma ScanBeforeUnit(n: nat, unit: char)
    requires n <= MaxInt64
    ensures var s := DecimalString(n) + [unit];
      |s| >= 2 && s[|s| - 1] == unit && ScanInt(s[..|s| - 1]) == Some(n)
  {
    var d := DecimalString(n);
    var s := d + [unit];
    assert s[..|s| - 1] == d + [];
    ScanDecimal(n, []);
  }

  /** Any other letter after a valid number is refused by name. */
  lemma ParseSinceBadUnit(n: nat, unit: char, now: Time, monthsFromNow: int -> Time)
    requires n <= MaxInt64 && unit !in "hdwm" && !IsDigit(unit)
    ensures ParseSince(DecimalString(n) + [unit], now, monthsFromNow) == Err(InvalidDurationUnit(unit))
  {
    ScanBeforeUnit(n, unit);
  }

  // ----- the author branch

  /** The filters applied by hand to an author's insights: the thread and
      the type when given, and no insight older than `since` when a bound
      was given. */
  predicate PassesFilters(ins: Insight, threadId: string, kind: string, since: Time) {
    (threadId == "" || ins.threadId == threadId)
    && (kind == "" || ins.kind == kind)
    && !(since != ZeroTime && ins.timestamp < since)
  }

  function FilterByFlags(insights: seq<Insight>, threadId: string, kind: string, since: Time): seq<Insight> {
    if insights == [] then []
    else
      var last := insights[|insights| - 1];
      FilterByFlags(insights[..|insights| - 1], threadId, kind, since)
        + if PassesFilters(last, threadId, kind, since) then [last] else []
  }

  lemma {:induction false} FilterByFlagsMembers(insights: seq<Insight>, threadId: string, kind: string, since: Time, x: Insight)
    ensures x in FilterByFlags(insights, threadId, kind, since) <==> x in insights && PassesFilters(x, threadId, kind, since)
  {
    if insights != [] {
      var n := |insights| - 1;
      FilterByFlagsMembers(insights[..n], threadId, kind, since, x);
      assert insights == insights[..n] + [insights[n]];
    }
  }

  /** The loop of the author branch. */
  method ApplyFilters(insights: seq<Insight>, threadId: string, kind: string, since: Time) returns (filtered: seq<Insight>)
    ensures filtered == FilterByFlags(insights, threadId, kind, since)
  {
    filtered := [];
    var i := 0;
    while i < |insights|
      invariant 0 <= i <= |insights|
      invariant filtered == FilterByFlags(insights[..i], threadId, kind, since)
    {
      var ins := insights[i];
      assert insights[..i + 1][..i] == insights[..i] && insights[..i + 1][i] == ins;
      i := i + 1;
      assert filtered + [] == filtered;
      if threadId != "" && ins.threadId != threadId {
        continue;
      }
      if kind != "" && ins.kind != kind {
        continue;
      }
      if since != ZeroTime && ins.timestamp < since {
        continue;
      }
      filtered := filtered + [ins];
    }
    assert insights[..i] == insights;
  }

  /** With an author given, the list holds that author's insights that pass
      the other filters: the same insights the store's own filters pick,
      narrowed to the author. */
  lemma AuthorBranchAgrees(t: Tables, author: string, threadId: string, kind: string, since: Time, x: Insight)
    requires WellFormed(t) && author != ""
    ensures x in FilterByFlags(ListByAuthorIn(t, author), threadId, kind, since) <==>
      x in ListInsightsIn(t, threadId, kind, since) && x.authorId == author
  {
    FilterByFlagsMembers(ListByAuthorIn(t, author), threadId, kind, since, x);
    ListByAuthorMembers(t, author, x);
    ListInsightsMembers(t, threadId, kind, since, x);
  }

  // ----- printing

  /** `joinStrings`: the separator goes before every element but the
      first. */
  method JoinStrings(strs: seq<string>, sep: string) returns (result: string)
    ensures result == JoinWith(strs, sep)
  {
    result := "";
    var i := 0;
    while i < |strs|
      invariant 0 <= i <= |strs|
      invariant result == JoinWith(strs[..i], sep)
    {
      assert strs[..i + 1][..i] == strs[..i];
      if i > 0 {
        result := result + sep;
      }
      result := result + strs[i];
      i := i + 1;
    }
    assert strs[..i] == strs;
  }

  /** One printed line; the time format is not modelled. */
  datatype ListLine = ListLine(timestamp: Time, typeTag: string, text: string, meta: string)

  /** The metadata parts of a line: the thread and the author, when set. */
  function MetaParts(ins: Insight): (r: seq<string>)
    ensures |r| <= 2
  {
    (if ins.threadId != "" then ["thread: " + ins.threadId] else [])
      + (if ins.authorId != "" then ["by: " + ins.authorId] else [])
  }

  /** The parenthesised thread and author after the content, if any. */
  function MetaText(ins: Insight): string {
    var parts := MetaParts(ins);
    if parts == [] then "" else " (" + JoinWith(parts, ", ") + ")"
  }

  function ListLineOf(ins: Insight): ListLine {
    ListLine(ins.timestamp, "[" + ins.kind + "]", Truncate(ins.content, 60), MetaText(ins))
  }

  /** A line names the thread and the author exactly when they are set, and
      shows at most 60 bytes of the content. */
  lemma ListLineShows(ins: Insight)
    ensures |ListLineOf(ins).text| <= 60
    ensures ins.threadId == "" && ins.authorId == "" ==> ListLineOf(ins).meta == ""
    ensures ins.threadId != "" && ins.authorId == "" ==> ListLineOf(ins).meta == " (thread: " + ins.threadId + ")"
    ensures ins.threadId == "" && ins.authorId != "" ==> ListLineOf(ins).meta == " (by: " + ins.authorId + ")"
    ensures ins.threadId != "" && ins.authorId != "" ==>
      ListLineOf(ins).meta == " (thread: " + ins.threadId + ", by: " + ins.authorId + ")"
  {
    MetaShown(ins);
  }

  lemma MetaShown(ins: Insight)
    ensures ins.threadId == "" && ins.authorId == "" ==> MetaText(ins) == ""
    ensures ins.threadId != "" && ins.authorId == "" ==> MetaText(ins) == " (thread: " + ins.threadId + ")"
    ensures ins.threadId == "" && ins.authorId != "" ==> MetaText(ins) == " (by: " + ins.authorId + ")"
    ensures ins.threadId != "" && ins.authorId != "" ==>
      MetaText(ins) == " (thread: " + ins.threadId + ", by: " + ins.authorId + ")"
  {
    if ins.threadId != "" && ins.authorId != "" {
      assert MetaParts(ins) == ["thread: " + ins.threadId, "by: " + ins.authorId];
      JoinPair("thread: " + ins.threadId, "by: " + ins.authorId, ", ");
    }
  }

  /** Two parts are joined around one separator. */
  lemma JoinPair(a: string, b: string, sep: string)
    ensures JoinWith([a, b], sep) == a + sep + b
  {
    assert [a, b][..1] == [a];
  }

  function ListLinesOf(insights: seq<Insight>): (r: seq<ListLine>)
    ensures |r| == |insights|
    ensures forall k :: 0 <= k < |insights| ==> r[k] == ListLineOf(insights[k])
  {
    if insights == [] then [] else ListLinesOf(insights[..|insights| - 1]) + [ListLineOf(insights[|insights| - 1])]
  }

  /** The display loop: one line per insight, in list order. */
  method PrintList(insights: seq<Insight>) returns (lines: seq<ListLine>)
    ensures lines == ListLinesOf(insights)
  {
    lines := [];
    var i := 0;
    while i < |insights|
      invariant 0 <= i <= |insights|
      invariant lines == ListLinesOf(insights[..i])
    {
      var line := PrintLine(insights[i]);
      ListLinesStep(insights, i);
      lines := lines + [line];
      i := i + 1;
    }
    assert insights[..i] == insights;
  }

  /** One more insight adds its line at the end. */
  lemma ListLinesStep(insights: seq<Insight>, i: nat)
    requires i < |insights|
    ensures ListLinesOf(insights[..i + 1]) == ListLinesOf(insights[..i]) + [ListLineOf(insights[i])]
  {
    assert insights[..i + 1][..i] == insights[..i];
  }

  /** The line printed for one insight. */
  method PrintLine(ins: Insight) returns (line: ListLine)
    ensures line == ListLineOf(ins)
  {
    var parts: seq<string> := [];
    if ins.threadId != "" {
      parts := parts + ["thread: " + ins.threadId];
    }
    if ins.authorId != "" {
      parts := parts + ["by: " + ins.authorId];
    }
    assert parts == MetaParts(ins);
    var metaStr := "";
    if |parts| > 0 {
      var joined := JoinStrings(parts, ", ");
      metaStr := " (" + joined + ")";
    }
    line := ListLine(ins.timestamp, "[" + ins.kind + "]", Truncate(ins.content, 60), metaStr);
  }

  // ----- the command

  /** No line means "No insights found"; otherwise the lines and the
      total. */
  datatype ListView = ListView(lines: seq<ListLine>, total: nat)

  /** The insights listed, once the flags are checked. */
  function Listed(t: Tables, threadId: string, kind: string, since: Time, author: string): seq<Insight>
    requires WellFormed(t)
  {
    if author != "" then FilterByFlags(ListByAuthorIn(t, author), threadId, kind, since)
    else ListInsightsIn(t, threadId, kind, since)
  }

  /** The `--since` and `--type` flags are checked after the store opens:
      a bad duration, then a bad type, is an error. */
  function ListOf(t: Tables, threadId: string, kindFlag: string, sinceFlag: string, author: string, now: Time, monthsFromNow: int -> Time): Result<ListView>
    requires WellFormed(t)
  {
    var since := if sinceFlag != "" then ParseSince(sinceFlag, now, monthsFromNow) else Ok(ZeroTime);
    if since.Err? then Err(Wrapped("invalid --since value", since.error))
    else if kindFlag != "" && !IsValidType(kindFlag) then Err(InvalidInsightType(kindFlag))
    else
      var found := Listed(t, threadId, kindFlag, since.value, author);
      Ok(ListView(ListLinesOf(found), |found|))
  }

  /** `bdc list`. */
  method RunList(session: Session, threadId: string, kindFlag: string, sinceFlag: string, author: string, now: Time, monthsFromNow: int -> Time)
    returns (r: Result<ListView>)
    requires session.Valid()
    modifies session, session.db, session.Held()
    ensures session.Finished(old(session.Current()), old(session.SchemaAfterOpen()))
    ensures old(session.OpenError()).Some? ==> r == Err(old(session.OpenError()).value)
    ensures old(session.OpenError()).None? ==>
      r == ListOf(old(session.Current()), threadId, kindFlag, sinceFlag, author, now, monthsFromNow)
  {
    ghost var t := session.Current();
    var s := session.GetStore();
    if s.Err? {
      return Err(s.error);
    }
    var st := s.value;
    assert st.Snapshot() == t && WellFormed(t);
    var sinceTime := ZeroTime;
    if sinceFlag != "" {
      var parsed := ParseSince(sinceFlag, now, monthsFromNow);
      if parsed.Err? {
        session.CloseStore();
        return Err(Wrapped("invalid --since value", parsed.error));
      }
      sinceTime := parsed.value;
    }
    if kindFlag != "" && !IsValidType(kindFlag) {
      session.CloseStore();
      return Err(InvalidInsightType(kindFlag));
    }
    var insights: seq<Insight>;
    if author != "" {
      var byAuthor := st.ListInsightsByAuthor(author);
      insights := ApplyFilters(byAuthor, threadId, kindFlag, sinceTime);
    } else {
      insights := st.ListInsights(threadId, kindFlag, sinceTime);
    }
    var lines := PrintList(insights);
    session.CloseStore();
    return Ok(ListView(lines, |insights|));
  }
}
