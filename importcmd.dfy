/** `bdc import`: extracts insights from an AI session transcript or a Slack
    export, previews them and saves them, counting the ones saved. */
module ImportCmd {
  import opened Wrappers
  import opened Text
  import opened Types
  import opened Storage
  import opened Root
  import opened Timeline
  import opened AiSession
  import opened Slack

  // ----- detectFormat

  /** `filepath.Ext`: the suffix from the last dot of the last path
      element, or "" when that element has no dot. */
  function Ext(path: string): (r: string)
    ensures r == [] || (r[0] == '.' && |r| <= |path| && r == path[|path| - |r|..])
    ensures '/' !in r && forall k :: 0 < k < |r| ==> r[k] != '.'
  {
    if path == [] || path[|path| - 1] == '/' then []
    else if path[|path| - 1] == '.' then "."
    else
      var e := Ext(path[..|path| - 1]);
      if e == [] then [] else e + [path[|path| - 1]]
  }

  /** A file name ending in a dot and a dot-free suffix has that extension. */
  lemma {:induction false} ExtOfName(stem: string, ext: string)
    requires '.' !in ext && '/' !in ext
    ensures Ext(stem + "." + ext) == "." + ext
    decreases |ext|
  {
    var path := stem + "." + ext;
    if ext == [] {
      assert path[|path| - 1] == '.';
    } else {
      var n := |ext| - 1;
      assert path[..|path| - 1] == stem + "." + ext[..n];
      assert path[|path| - 1] == ext[n];
      assert ext[n] in ext;
      ExtOfName(stem, ext[..n]);
      assert "." + ext[..n] + [ext[n]] == "." + ext;
    }
  }

  /** What the path names: nothing, a directory of channel files (each
      decoded, or `None` when it cannot be read or decoded), or a regular
      file with its content (`None` when it cannot be read) and that
      content decoded as a Slack message array. */
  datatype PathEntry =
    | Missing
    | Directory(channelFiles: seq<Option<seq<SlackMessage>>>)
    | RegularFile(content: Option<string>, decoded: Option<seq<SlackMessage>>)

  /** `detectFormat`. */
  function DetectFormat(path: string, entry: PathEntry): (r: string)
    ensures r == "slack" || r == "ai-session" || r == "unknown"
    ensures entry.Missing? <==> r == "unknown" && !entry.RegularFile?
  {
    match entry
    case Missing => "unknown"
    case Directory(_) => "slack"
    case RegularFile(content, _) =>
      var ext := Lower(Ext(path));
      if ext == ".json" then "slack"
      else if ext == ".txt" || ext == ".md" || ext == ".log" then "ai-session"
      else
        match content
        case None => "unknown"
        case Some(c) =>
          var trimmed := TrimSpace(c);
          if HasPrefix(trimmed, "[") || HasPrefix(trimmed, "{") then "slack" else "ai-session"
  }

  /** A known extension decides, in any case and whatever the content. */
  lemma ExtensionDecides(stem: string, ext: string, entry: PathEntry)
    requires '.' !in ext && '/' !in ext && entry.RegularFile?
    ensures Lower("." + ext) == ".json" ==> DetectFormat(stem + "." + ext, entry) == "slack"
    ensures Lower("." + ext) in [".txt", ".md", ".log"] ==> DetectFormat(stem + "." + ext, entry) == "ai-session"
  {
    ExtOfName(stem, ext);
  }

  /** A file of unknown extension whose text starts, after white space,
      with `[` or `{` is taken for Slack JSON. */
  lemma JsonLookingIsSlack(path: string, space: string, opening: char, rest: string, decoded: Option<seq<SlackMessage>>)
    requires Lower(Ext(path)) !in [".json", ".txt", ".md", ".log"]
    requires forall k :: 0 <= k < |space| ==> IsSpace(space[k])
    requires opening == '[' || opening == '{'
    ensures DetectFormat(path, RegularFile(Some(space + [opening] + rest), decoded)) == "slack"
  {
    var c := space + [opening] + rest;
    OpeningSurvivesTrim(space, opening, rest);
    assert HasPrefix(TrimSpace(c), "[") || HasPrefix(TrimSpace(c), "{");
    var ext := Lower(Ext(path));
    assert ext != ".json" && ext != ".txt" && ext != ".md" && ext != ".log";
  }

  lemma OpeningSurvivesTrim(space: string, opening: char, rest: string)
    requires forall k :: 0 <= k < |space| ==> IsSpace(space[k])
    requires opening == '[' || opening == '{'
    ensures HasPrefix(TrimSpace(space + [opening] + rest), [opening])
  {
    var t := [opening] + rest;
    var c := space + [opening] + rest;
    assert TrimLeft(c) == t by {
      assert t[0] == opening;
      TrimLeftSpaces(space, t);
      assert c == space + t;
    }
    assert TrimSpace(c) == TrimRight(t);
    assert HasPrefix(TrimRight(t), [opening]) by {
      assert t[0] == opening;
      TrimRightKeepsFirst(t);
      var trimmed := TrimRight(t);
      assert trimmed[..1] == [trimmed[0]];
    }
  }

  /** `TrimRight` keeps a leading non-space. */
  lemma TrimRightKeepsFirst(t: string)
    requires t != [] && !IsSpace(t[0])
    ensures TrimRight(t) != [] && TrimRight(t)[0] == t[0]
  {
  }

  /** Leading white space is all that `TrimLeft` drops. */
  lemma {:induction false} TrimLeftSpaces(space: string, t: string)
    requires forall k :: 0 <= k < |space| ==> IsSpace(space[k])
    requires t != [] && !IsSpace(t[0])
    ensures TrimLeft(space + t) == t
  {
    if space == [] {
      assert space + t == t;
    } else {
      assert (space + t)[1..] == space[1..] + t;
      TrimLeftSpaces(space[1..], t);
    }
  }

  /** The format `runImport` uses: `--ai-session`, else `--slack`, else
      the detected one. */
  function ImportFormat(path: string, entry: PathEntry, aiSession: bool, slack: bool): string {
    if aiSession then "ai-session" else if slack then "slack" else DetectFormat(path, entry)
  }

  /** `--ai-session` wins over `--slack`, and either overrides detection:
      with a flag the format is never unknown. */
  lemma FlagsOverrideDetection(path: string, entry: PathEntry, slack: bool)
    ensures ImportFormat(path, entry, true, slack) == "ai-session"
    ensures ImportFormat(path, entry, false, true) == "slack"
    ensures ImportFormat(path, entry, false, false) == DetectFormat(path, entry)
  {
  }

  // ----- parsing

  /** The conversation parse, or the plain one when it finds no turn. */
  function AiSessionInsights(content: string, base: Time, now: Time, rnd: RandomStream): seq<Insight> {
    var conversation := ParseConversationOf(content, base, now, rnd);
    if |conversation| == 0 then ParseAISessionOf(content, base, now, rnd) else conversation
  }

  /** A transcript without a single speaker line is parsed plainly. */
  lemma PlainWithoutSpeakers(content: string, base: Time, now: Time, rnd: RandomStream)
    requires NoSpeakerLines(Split(content, '\n'))
    ensures AiSessionInsights(content, base, now, rnd) == ParseAISessionOf(content, base, now, rnd)
  {
    PreambleKeepsInitial(Split(content, '\n'));
  }

  /** Every insight with the given time. */
  function Restamped(insights: seq<Insight>, ts: Time): (r: seq<Insight>)
    ensures |r| == |insights|
    ensures forall k :: 0 <= k < |r| ==> r[k] == insights[k].(timestamp := ts)
  {
    seq(|insights|, k requires 0 <= k < |insights| => insights[k].(timestamp := ts))
  }

  /** Every insight in the given thread. */
  function Rethreaded(insights: seq<Insight>, threadId: string): (r: seq<Insight>)
    ensures |r| == |insights|
    ensures forall k :: 0 <= k < |r| ==> r[k] == insights[k].(threadId := threadId)
  {
    seq(|insights|, k requires 0 <= k < |insights| => insights[k].(threadId := threadId))
  }

  /** The Slack insights, restamped with a non-zero base. */
  function SlackStamped(insights: seq<Insight>, base: Time): seq<Insight> {
    if base != ZeroTime then Restamped(insights, base) else insights
  }

  /** What the parse step of `runImport` yields for a format. */
  function ParsedInsights(format: string, entry: PathEntry, base: Time, now: Time, rnd: RandomStream,
                          rnds: nat -> RandomStream): Result<seq<Insight>>
  {
    if format == "ai-session" then
      if entry.RegularFile? && entry.content.Some? then Ok(AiSessionInsights(entry.content.value, base, now, rnd))
      else Err(Wrapped("failed to read file", ReadFailed))
    else if format == "slack" then
      match entry
      case Missing => Err(Wrapped("failed to stat path", ReadFailed))
      case Directory(files) => Ok(SlackStamped(ParseSlackExportOf(files, now, rnds), base))
      case RegularFile(None, _) => Err(Wrapped("failed to read file", ReadFailed))
      case RegularFile(Some(_), decoded) =>
        match ParseSlackJSON(decoded, now, rnd)
        case Err(e) => Err(Wrapped("failed to parse", e))
        case Ok(insights) => Ok(SlackStamped(insights, base))
    else Err(UnknownFormat(format))
  }

  /** The base timestamp of `--timestamp`: absent is the zero time; a
      value that does not parse is refused. */
  function BaseTimestamp(timestampArg: Option<Result<Time>>): Result<Time> {
    match timestampArg
    case None => Ok(ZeroTime)
    case Some(Err(e)) => Err(Wrapped("invalid timestamp", e))
    case Some(Ok(ts)) => Ok(ts)
  }

  /** Everything `runImport` does before it looks at the store: the base
      time, the format, the parse and the thread assignment. */
  function ImportPlan(path: string, entry: PathEntry, timestampArg: Option<Result<Time>>, thread: string,
                      aiSession: bool, slack: bool, now: Time, rnd: RandomStream, rnds: nat -> RandomStream)
    : Result<seq<Insight>>
  {
    match BaseTimestamp(timestampArg)
    case Err(e) => Err(e)
    case Ok(base) =>
      match ParsedInsights(ImportFormat(path, entry, aiSession, slack), entry, base, now, rnd, rnds)
      case Err(e) => Err(e)
      case Ok(insights) => Ok(if thread != "" then Rethreaded(insights, thread) else insights)
  }

  /** The loop that overwrites every insight's timestamp. */
  method StampAll(insights: seq<Insight>, ts: Time) returns (r: seq<Insight>)
    ensures r == Restamped(insights, ts)
  {
    r := insights;
    var i := 0;
    while i < |r|
      invariant 0 <= i <= |r| && |r| == |insights|
      invariant forall k :: 0 <= k < i ==> r[k] == insights[k].(timestamp := ts)
      invariant forall k :: i <= k < |r| ==> r[k] == insights[k]
    {
      r := r[i := r[i].(timestamp := ts)];
      i := i + 1;
    }
  }

  /** The loop that puts every insight in the thread. */
  method ThreadAll(insights: seq<Insight>, threadId: string) returns (r: seq<Insight>)
    ensures r == Rethreaded(insights, threadId)
  {
    r := insights;
    var i := 0;
    while i < |r|
      invariant 0 <= i <= |r| && |r| == |insights|
      invariant forall k :: 0 <= k < i ==> r[k] == insights[k].(threadId := threadId)
      invariant forall k :: i <= k < |r| ==> r[k] == insights[k]
    {
      r := r[i := r[i].(threadId := threadId)];
      i := i + 1;
    }
  }

  /** The parse step of `runImport`. */
  method ParseInput(format: string, entry: PathEntry, base: Time, now: Time, rnd: RandomStream,
                    rnds: nat -> RandomStream) returns (r: Result<seq<Insight>>)
    ensures r == ParsedInsights(format, entry, base, now, rnd, rnds)
  {
    if format == "ai-session" {
      if !entry.RegularFile? || entry.content.None? {
        return Err(Wrapped("failed to read file", ReadFailed));
      }
      var content := entry.content.value;
      var insights := ParseConversationWithTimestamp(content, base, now, rnd);
      if |insights| == 0 {
        insights := ParseAISessionWithTimestamp(content, base, now, rnd);
      }
      return Ok(insights);
    } else if format == "slack" {
      if entry.Missing? {
        return Err(Wrapped("failed to stat path", ReadFailed));
      }
      var insights: seq<Insight>;
      if entry.Directory? {
        insights := ParseSlackExport(entry.channelFiles, now, rnds);
      } else {
        if entry.content.None? {
          return Err(Wrapped("failed to read file", ReadFailed));
        }
        var parsed := ParseSlackJSON(entry.decoded, now, rnd);
        if parsed.Err? {
          return Err(Wrapped("failed to parse", parsed.error));
        }
        insights := parsed.value;
      }
      if base != ZeroTime {
        insights := StampAll(insights, base);
      }
      return Ok(insights);
    }
    return Err(UnknownFormat(format));
  }

  /** The steps of `runImport` before the store is opened. */
  method PlanImport(path: string, entry: PathEntry, timestampArg: Option<Result<Time>>, thread: string,
                    aiSession: bool, slack: bool, now: Time, rnd: RandomStream, rnds: nat -> RandomStream)
    returns (r: Result<seq<Insight>>)
    ensures r == ImportPlan(path, entry, timestampArg, thread, aiSession, slack, now, rnd, rnds)
  {
    var baseTimestamp := ZeroTime;
    if timestampArg.Some? {
      if timestampArg.value.Err? {
        return Err(Wrapped("invalid timestamp", timestampArg.value.error));
      }
      baseTimestamp := timestampArg.value.value;
    }
    var format := DetectFormat(path, entry);
    if aiSession {
      format := "ai-session";
    } else if slack {
      format := "slack";
    }
    var insights := ParseInput(format, entry, baseTimestamp, now, rnd, rnds);
    if insights.Err? {
      return insights;
    }
    var result := insights.value;
    if thread != "" {
      result := ThreadAll(result, thread);
    }
    return Ok(result);
  }

  /** With `--thread`, every insight to be saved is in that thread; a
      Slack import with a base time has every insight at that time. */
  lemma PlanAssignsThread(path: string, entry: PathEntry, timestampArg: Option<Result<Time>>, thread: string,
                          aiSession: bool, slack: bool, now: Time, rnd: RandomStream, rnds: nat -> RandomStream, k: nat)
    requires ImportPlan(path, entry, timestampArg, thread, aiSession, slack, now, rnd, rnds).Ok?
    requires k < |ImportPlan(path, entry, timestampArg, thread, aiSession, slack, now, rnd, rnds).value|
    ensures var ins := ImportPlan(path, entry, timestampArg, thread, aiSession, slack, now, rnd, rnds).value[k];
      (thread != "" ==> ins.threadId == thread) &&
      (ImportFormat(path, entry, aiSession, slack) == "slack" && BaseTimestamp(timestampArg).value != ZeroTime ==>
        ins.timestamp == BaseTimestamp(timestampArg).value)
  {
  }

  // ----- truncateContent and the preview

  /** `truncateContent`: newlines become spaces, carriage returns go, and
      the keep-or-cut rule applies. */
  function TruncateContent(s: string, maxLen: int): (r: string)
    requires 3 <= maxLen
    ensures '\n' !in r && '\r' !in r
    ensures |r| <= maxLen
    ensures |s| <= maxLen && '\n' !in s && '\r' !in s ==> r == s
  {
    var spaced := ReplaceChar(s, '\n', ' ');
    var cleaned := RemoveChar(spaced, '\r');
    assert '\n' !in spaced;
    assert '\n' !in cleaned;
    assert |s| <= maxLen && '\n' !in s && '\r' !in s ==> cleaned == s by {
      if |s| <= maxLen && '\n' !in s && '\r' !in s {
        NoChangeWithout(s);
      }
    }
    var r := Truncate(cleaned, maxLen);
    assert r == cleaned || r == r[..maxLen - 3] + "..." by {
      if |cleaned| > maxLen {
        assert r[..maxLen - 3] + r[maxLen - 3..] == r;
      }
    }
    assert forall x :: x in r ==> x in cleaned || x == '.' by {
      if |cleaned| > maxLen {
        forall x | x in r
          ensures x in cleaned || x == '.'
        {
          var k :| 0 <= k < |r| && r[k] == x;
          if k < maxLen - 3 {
            assert r[k] == cleaned[k];
          } else {
            assert r[k] == "..."[k - (maxLen - 3)];
          }
        }
      }
    }
    r
  }

  lemma NoChangeWithout(s: string)
    requires '\n' !in s && '\r' !in s
    ensures RemoveChar(ReplaceChar(s, '\n', ' '), '\r') == s
  {
    var spaced := ReplaceChar(s, '\n', ' ');
    assert spaced == s;
    RemoveAbsent(s, '\r');
  }

  lemma {:induction false} RemoveAbsent(s: string, c: char)
    requires c !in s
    ensures RemoveChar(s, c) == s
  {
    if s != [] {
      assert s == [s[0]] + s[1..];
      RemoveAbsent(s[1..], c);
    }
  }

  /** One preview line: its number, the type's symbol, the cleaned text,
      the type label and, with a base time, the insight's date. */
  datatype PreviewLine = PreviewLine(number: nat, symbol: string, text: string, typeLabel: string, date: Option<Time>)

  function PreviewLineOf(k: nat, ins: Insight, base: Time): PreviewLine {
    PreviewLine(k + 1, InsightSymbol(ins.kind), TruncateContent(ins.content, 60), TypeLabel(ins.kind),
                if base != ZeroTime then Some(ins.timestamp) else None)
  }

  /** The lines `runImport` prints before saving, unless `--quiet`. */
  function Preview(insights: seq<Insight>, base: Time): (r: seq<PreviewLine>)
    ensures |r| == |insights|
  {
    seq(|insights|, k requires 0 <= k < |insights| => PreviewLineOf(k, insights[k], base))
  }

  /** The preview numbers the insights from one, shows at most 60 bytes of
      each on one line, and dates them only when a base time was given. */
  lemma PreviewShape(insights: seq<Insight>, base: Time, k: nat)
    requires k < |insights|
    ensures var line := Preview(insights, base)[k];
      line.number == k + 1 && |line.text| <= 60 && '\n' !in line.text && '\r' !in line.text &&
      line.symbol == InsightSymbol(insights[k].kind) && line.typeLabel == TypeLabel(insights[k].kind) &&
      (line.date.Some? <==> base != ZeroTime)
  {
  }

  // ----- saving

  /** The save loop on tables: each insight the store accepts is added and
      counted; the others are skipped. */
  function SaveAllIn(t: Tables, insights: seq<Insight>): (Tables, nat) {
    if insights == [] then (t, 0)
    else SaveStep(SaveAllIn(t, insights[..|insights| - 1]), insights[|insights| - 1])
  }

  /** One turn of the loop: the tables and the count so far, then one
      insight offered to the store. */
  function SaveStep(acc: (Tables, nat), ins: Insight): (Tables, nat) {
    match InsertInsightIn(acc.0, ins)
    case Ok(after) => (after, acc.1 + 1)
    case Err(_) => acc
  }

  lemma SaveAllStep(t: Tables, insights: seq<Insight>, i: nat)
    requires i < |insights|
    ensures SaveAllIn(t, insights[..i + 1]) == SaveStep(SaveAllIn(t, insights[..i]), insights[i])
  {
    assert insights[..i + 1][..i] == insights[..i];
  }

  /** The count is the number of rows added: at most one per insight, and
      no row that was there before changes or goes. */
  lemma {:induction false} SaveAllCounts(t: Tables, insights: seq<Insight>)
    ensures var (after, saved) := SaveAllIn(t, insights);
      saved <= |insights| && |after.rowOrder| == |t.rowOrder| + saved &&
      after.rowOrder[..|t.rowOrder|] == t.rowOrder &&
      (forall id :: id in t.insights ==> id in after.insights && after.insights[id] == t.insights[id]) &&
      after.threads == t.threads
  {
    if insights != [] {
      SaveAllCounts(t, insights[..|insights| - 1]);
      var (before, saved) := SaveAllIn(t, insights[..|insights| - 1]);
      assert (before.rowOrder + [insights[|insights| - 1].id])[..|t.rowOrder|] == before.rowOrder[..|t.rowOrder|];
    }
  }

  /** Insights whose identifiers are new and distinct, each with no thread
      or an existing one, are all saved, each readable afterwards as it was
      given. */
  lemma {:induction false} SaveAllFresh(t: Tables, insights: seq<Insight>)
    requires forall k :: 0 <= k < |insights| ==> insights[k].id !in t.insights
    requires forall j, k :: 0 <= j < k < |insights| ==> insights[j].id != insights[k].id
    requires forall k :: 0 <= k < |insights| ==> insights[k].threadId == "" || insights[k].threadId in t.threads
    ensures var (after, saved) := SaveAllIn(t, insights);
      saved == |insights| && forall k :: 0 <= k < |insights| ==> InsightIn(after, insights[k].id) == Ok(insights[k])
  {
    if insights != [] {
      var n := |insights| - 1;
      SaveAllFresh(t, insights[..n]);
      SaveAllCounts(t, insights[..n]);
      var (before, saved) := SaveAllIn(t, insights[..n]);
      var ins := insights[n];
      assert ins.id !in before.insights by {
        forall j | 0 <= j < n
          ensures insights[..n][j].id != ins.id
        {
          assert insights[..n][j] == insights[j];
        }
        BatchOnlyAdds(t, insights[..n], ins.id);
      }
      var after := before.(insights := before.insights[ins.id := ToRow(ins)], rowOrder := before.rowOrder + [ins.id]);
      assert SaveAllIn(t, insights) == (after, saved + 1) by {
        assert InsertInsightIn(before, ins) == Ok(after);
      }
      forall k | 0 <= k < |insights|
        ensures InsightIn(after, insights[k].id) == Ok(insights[k])
      {
        if k < n {
          assert insights[..n][k] == insights[k];
          assert insights[k].id != ins.id;
        }
      }
    }
  }

  /** The loop adds rows only for the insights it is given. */
  lemma {:induction false} BatchOnlyAdds(t: Tables, insights: seq<Insight>, id: string)
    requires id !in t.insights
    requires forall j :: 0 <= j < |insights| ==> insights[j].id != id
    ensures id !in SaveAllIn(t, insights).0.insights
  {
    if insights != [] {
      var n := |insights| - 1;
      forall j | 0 <= j < n
        ensures insights[..n][j].id != id
      {
        assert insights[..n][j] == insights[j];
      }
      BatchOnlyAdds(t, insights[..n], id);
    }
  }

  /** The loop of `runImport` over an open store. */
  method SaveAll(st: Store, insights: seq<Insight>) returns (saved: nat)
    requires st.Valid()
    modifies st
    ensures st.Valid() && st.closed == old(st.closed)
    ensures (st.Snapshot(), saved) == SaveAllIn(old(st.Snapshot()), insights)
  {
    ghost var t := st.Snapshot();
    saved := 0;
    var i := 0;
    while i < |insights|
      invariant 0 <= i <= |insights|
      invariant st.Valid() && st.closed == old(st.closed)
      invariant (st.Snapshot(), saved) == SaveAllIn(t, insights[..i])
    {
      SaveAllStep(t, insights, i);
      saved := SaveOne(st, insights[i], saved);
      i := i + 1;
    }
    assert insights[..i] == insights;
  }

  /** One turn of the loop: an insight the store accepts is counted. */
  method SaveOne(st: Store, ins: Insight, saved: nat) returns (count: nat)
    requires st.Valid()
    modifies st
    ensures st.Valid() && st.closed == old(st.closed)
    ensures (st.Snapshot(), count) == SaveStep((old(st.Snapshot()), saved), ins)
  {
    var err := st.CreateInsight(ins);
    count := if err.None? then saved + 1 else saved;
  }

  /** The saving half of `runImport`: the thread must exist, then every
      insight is offered to the store. */
  method SaveImported(session: Session, insights: seq<Insight>, thread: string) returns (r: Result<nat>)
    requires session.Valid()
    modifies session, session.db, session.Held()
    ensures old(session.OpenError()).Some? ==>
      r == Err(old(session.OpenError()).value) && session.Finished(old(session.Current()), old(session.SchemaAfterOpen()))
    ensures old(session.OpenError()).None? && thread != "" && thread !in old(session.Current()).threads ==>
      r == Err(Wrapped("thread " + thread + " not found", ThreadNotFound(thread))) &&
      session.Finished(old(session.Current()), old(session.SchemaAfterOpen()))
    ensures old(session.OpenError()).None? && (thread == "" || thread in old(session.Current()).threads) ==>
      var (after, saved) := SaveAllIn(old(session.Current()), insights);
      r == Ok(saved) && session.Finished(after, old(session.SchemaAfterOpen()))
  {
    ghost var t := session.Current();
    var s := session.GetStore();
    if s.Err? {
      return Err(s.error);
    }
    var st := s.value;
    assert st.Snapshot() == t;
    if thread != "" {
      var th := st.GetThread(thread);
      if th.Err? {
        session.CloseStore();
        return Err(Wrapped("thread " + thread + " not found", th.error));
      }
    }
    var saved := SaveAll(st, insights);
    session.CloseStore();
    return Ok(saved);
  }

  /** How an import ends when nothing fails. */
  datatype ImportOutcome =
    | NothingExtracted
    | DryRun(insights: seq<Insight>)
    | Imported(insights: seq<Insight>, saved: nat)

  /** `runImport`'s run. */
  method RunImport(session: Session, path: string, entry: PathEntry, timestampArg: Option<Result<Time>>, thread: string,
                   aiSession: bool, slack: bool, dryRun: bool, now: Time, rnd: RandomStream, rnds: nat -> RandomStream)
    returns (r: Result<ImportOutcome>)
    requires session.Valid()
    modifies session, session.db, session.Held()
    ensures var plan := ImportPlan(path, entry, timestampArg, thread, aiSession, slack, now, rnd, rnds);
      plan.Err? || |plan.value| == 0 || dryRun ==>
        unchanged(session, session.db) && unchanged(session.Held()) && session.Valid() &&
        r == (if plan.Err? then Err(plan.error) else if |plan.value| == 0 then Ok(NothingExtracted) else Ok(DryRun(plan.value)))
    ensures var plan := ImportPlan(path, entry, timestampArg, thread, aiSession, slack, now, rnd, rnds);
      plan.Ok? && |plan.value| > 0 && !dryRun && old(session.OpenError()).Some? ==>
        r == Err(old(session.OpenError()).value) && session.Finished(old(session.Current()), old(session.SchemaAfterOpen()))
    ensures var plan := ImportPlan(path, entry, timestampArg, thread, aiSession, slack, now, rnd, rnds);
      plan.Ok? && |plan.value| > 0 && !dryRun && old(session.OpenError()).None? ==>
        if thread != "" && thread !in old(session.Current()).threads then
          r == Err(Wrapped("thread " + thread + " not found", ThreadNotFound(thread))) &&
          session.Finished(old(session.Current()), old(session.SchemaAfterOpen()))
        else
          var (after, saved) := SaveAllIn(old(session.Current()), plan.value);
          r == Ok(Imported(plan.value, saved)) && session.Finished(after, old(session.SchemaAfterOpen()))
  {
    var plan := PlanImport(path, entry, timestampArg, thread, aiSession, slack, now, rnd, rnds);
    r := ImportPlanned(session, plan, thread, dryRun);
  }

  /** What `runImport` does with the insights it planned. */
  method ImportPlanned(session: Session, plan: Result<seq<Insight>>, thread: string, dryRun: bool)
    returns (r: Result<ImportOutcome>)
    requires session.Valid()
    modifies session, session.db, session.Held()
    ensures plan.Err? || |plan.value| == 0 || dryRun ==>
      unchanged(session, session.db) && unchanged(session.Held()) && session.Valid() &&
      r == (if plan.Err? then Err(plan.error) else if |plan.value| == 0 then Ok(NothingExtracted) else Ok(DryRun(plan.value)))
    ensures plan.Ok? && |plan.value| > 0 && !dryRun && old(session.OpenError()).Some? ==>
      r == Err(old(session.OpenError()).value) && session.Finished(old(session.Current()), old(session.SchemaAfterOpen()))
    ensures plan.Ok? && |plan.value| > 0 && !dryRun && old(session.OpenError()).None? ==>
      if thread != "" && thread !in old(session.Current()).threads then
        r == Err(Wrapped("thread " + thread + " not found", ThreadNotFound(thread))) &&
        session.Finished(old(session.Current()), old(session.SchemaAfterOpen()))
      else
        var (after, saved) := SaveAllIn(old(session.Current()), plan.value);
        r == Ok(Imported(plan.value, saved)) && session.Finished(after, old(session.SchemaAfterOpen()))
  {
    if plan.Err? {
      return Err(plan.error);
    }
    var insights := plan.value;
    if |insights| == 0 {
      return Ok(NothingExtracted);
    }
    if dryRun {
      return Ok(DryRun(insights));
    }
    var saved := SaveImported(session, insights, thread);
    if saved.Err? {
      return Err(saved.error);
    }
    return Ok(Imported(insights, saved.value));
  }
}
