/** Extraction of insights from a Slack export: every substantive message
    of every channel file, oldest first. */
module Slack {
  import opened Wrappers
  import opened Text
  import opened Types
  import opened Sorting
  import opened AiSession
  import opened Sequences

  /** A message of a channel file, as decoded from its JSON array. */
  datatype SlackMessage = SlackMessage(kind: string, user: string, text: string, ts: string, threadTs: string)

  // ----- isSlackNoise

  /** The thumbs-up emoji as the source spells it: the UTF-8 bytes of its
      Windows-1252 reading. */
  const ThumbsUp: string := [0xC3 as char, 0xB0 as char, 0xC5 as char, 0xB8 as char, 0xE2 as char, 0x80 as char, 0x98 as char]

  const NoisePatterns: seq<string> :=
    ["ok", "okay", "thanks", "thank you", ThumbsUp, ['l', 'g', 't', 'm'], "sounds good", "+1",
     "cool", "nice", "great", "got it", "will do", "on it"]

  /** `isSlackNoise`: one of the stock replies, whole and in any case, or a
      lone reaction between colons. */
  predicate IsSlackNoise(text: string) {
    Lower(TrimSpace(text)) in NoisePatterns || (HasPrefix(text, ":") && HasSuffix(text, ":"))
  }

  /** Of the stock replies only "sounds good" is long enough to reach the
      noise test: a trimmed message of ten bytes or more is noise exactly
      when it reads "sounds good" in some case, or is wrapped in colons. */
  lemma SubstantiveNoise(text: string)
    requires Trimmed(text) && |text| >= 10
    ensures IsSlackNoise(text) <==> Lower(text) == "sounds good" || (text[0] == ':' && text[|text| - 1] == ':')
  {
    TrimSpaceKeeps(text);
    LongNoiseWord(Lower(text));
    WrappedInColons(text);
  }

  /** "sounds good" is the one stock reply of ten bytes or more. */
  lemma LongNoiseWord(lower: string)
    requires |lower| >= 10
    ensures lower in NoisePatterns <==> lower == "sounds good"
  {
    assert forall k :: 0 <= k < |NoisePatterns| && k != 6 ==> |NoisePatterns[k]| < 10;
  }

  lemma WrappedInColons(text: string)
    requires text != []
    ensures HasPrefix(text, ":") && HasSuffix(text, ":") <==> text[0] == ':' && text[|text| - 1] == ':'
  {
    if text[0] == ':' {
      assert text[..1] == ":";
    }
    if text[|text| - 1] == ':' {
      assert text[|text| - 1..] == ":";
    }
  }

  /** A reaction such as `:tada:` is noise. */
  lemma ReactionIsNoise(name: string)
    ensures IsSlackNoise(":" + name + ":")
  {
    var s := ":" + name + ":";
    assert s[..1] == ":";
    assert s[|s| - 1..] == ":";
  }

  // ----- parseSlackTimestamp

  /** `parseSlackTimestamp`: the whole seconds before the first dot, from
      the Unix epoch; now when they do not parse. */
  function ParseSlackTimestamp(ts: string, now: Time): Time {
    var parts := Split(ts, '.');
    match ParseInt64(parts[0])
    case None => now
    case Some(epoch) => epoch + UnixEpoch
  }

  /** The microseconds after the dot are ignored. */
  lemma SlackFractionIgnored(seconds: string, micros: string, now: Time)
    requires '.' !in seconds
    ensures ParseSlackTimestamp(seconds + "." + micros, now) == ParseSlackTimestamp(seconds, now)
  {
    SplitAround(seconds, micros, '.');
    assert seconds + "." + micros == seconds + ['.'] + micros;
    assert IndexOf(seconds, '.').None?;
  }

  /** Seconds written in decimal are read back as that moment. */
  lemma SlackSecondsRead(epoch: int, micros: string, now: Time)
    requires MinInt64 <= epoch <= MaxInt64
    ensures ParseSlackTimestamp(FormatInt(epoch) + "." + micros, now) == epoch + UnixEpoch
  {
    var seconds := FormatInt(epoch);
    assert '.' !in seconds;
    SlackFractionIgnored(seconds, micros, now);
    assert IndexOf(seconds, '.').None?;
    ParseFormatInt(epoch);
  }

  // ----- messagesToInsights

  /** The messages kept: plain messages (type "message" or none) whose
      trimmed text has ten bytes or more and is not noise. */
  predicate Kept(msg: SlackMessage) {
    (msg.kind == "message" || msg.kind == "") &&
    |TrimSpace(msg.text)| >= 10 && !IsSlackNoise(TrimSpace(msg.text))
  }

  function KeptMessages(messages: seq<SlackMessage>): seq<SlackMessage> {
    Filter(messages, Kept)
  }

  /** Selection keeps the order of the messages. */
  lemma KeptMessagesAppend(a: seq<SlackMessage>, b: seq<SlackMessage>)
    ensures KeptMessages(a + b) == KeptMessages(a) + KeptMessages(b)
  {
    FilterAppend(a, b, Kept);
  }

  /** A message is kept exactly when it passes all three tests. */
  lemma KeptMessageMembers(messages: seq<SlackMessage>, msg: SlackMessage)
    ensures msg in KeptMessages(messages) <==> msg in messages && Kept(msg)
  {
    FilterMembers(messages, Kept, msg);
  }

  /** The insight of a kept message: the trimmed text, 0.6 confidence, the
      Slack timestamp as the source reference and the author as the one
      participant. */
  function SlackInsight(msg: SlackMessage, now: Time, w: RandomWord): Insight {
    var text := TrimSpace(msg.text);
    Insight(GenerateID("ins", w), ParseSlackTimestamp(msg.ts, now), text, Truncate(text, 80), DetectInsightType(text),
            ConfidenceSlack, Source("slack", msg.ts, [msg.user]), "", "", [], [], "", now)
  }

  /** The insight of the `k`-th kept message, drawing the `k`-th random
      word. */
  function SlackPart(now: Time, rnd: RandomStream): (SlackMessage, nat) -> Insight {
    (msg: SlackMessage, k: nat) => SlackInsight(msg, now, rnd(k))
  }

  function SlackInsights(kept: seq<SlackMessage>, now: Time, rnd: RandomStream): (r: seq<Insight>)
    ensures |r| == |kept|
  {
    MapIndexed(kept, SlackPart(now, rnd))
  }

  lemma SlackInsightAt(kept: seq<SlackMessage>, now: Time, rnd: RandomStream, k: nat)
    requires k < |kept|
    ensures SlackInsights(kept, now, rnd)[k] == SlackInsight(kept[k], now, rnd(k))
  {
    MapIndexedAt(kept, SlackPart(now, rnd), k);
  }

  lemma SlackInsightsStep(kept: seq<SlackMessage>, msg: SlackMessage, now: Time, rnd: RandomStream)
    ensures SlackInsights(kept + [msg], now, rnd) == SlackInsights(kept, now, rnd) + [SlackInsight(msg, now, rnd(|kept|))]
  {
    MapIndexedStep(kept, msg, SlackPart(now, rnd));
  }

  /** `messagesToInsights` as a value. */
  function MessagesToInsightsOf(messages: seq<SlackMessage>, now: Time, rnd: RandomStream): seq<Insight> {
    SlackInsights(KeptMessages(messages), now, rnd)
  }

  /** `messagesToInsights`: one insight per kept message, in order. */
  method MessagesToInsights(messages: seq<SlackMessage>, now: Time, rnd: RandomStream) returns (insights: seq<Insight>)
    ensures insights == MessagesToInsightsOf(messages, now, rnd)
  {
    insights := [];
    ghost var kept: seq<SlackMessage> := [];
    var i := 0;
    while i < |messages|
      invariant 0 <= i <= |messages|
      invariant kept == KeptMessages(messages[..i])
      invariant insights == SlackInsights(kept, now, rnd)
    {
      FilterStep(messages, i, Kept);
      var msg := messages[i];
      i := i + 1;
      if msg.kind != "message" && msg.kind != "" {
        continue;
      }
      var text := TrimSpace(msg.text);
      if |text| < 10 {
        continue;
      }
      if IsSlackNoise(text) {
        continue;
      }
      var ts := ParseSlackTimestamp(msg.ts, now);
      var insightType := DetectInsightType(text);
      var insight := Insight(GenerateID("ins", rnd(|insights|)), ts, text, Truncate(text, 80), insightType,
                             ConfidenceSlack, Source("slack", msg.ts, [msg.user]), "", "", [], [], "", now);
      SlackInsightsStep(kept, msg, now, rnd);
      insights := insights + [insight];
      kept := kept + [msg];
    }
    assert messages[..i] == messages;
  }

  /** Each Slack insight is a kept message: its content is the trimmed text
      of ten bytes or more, never noise; its time is the message's
      timestamp, its reference the raw timestamp and its one participant
      the message's author. */
  lemma SlackInsightFields(messages: seq<SlackMessage>, now: Time, rnd: RandomStream, k: nat)
    requires k < |MessagesToInsightsOf(messages, now, rnd)|
    ensures var msg := KeptMessages(messages)[k];
      var ins := MessagesToInsightsOf(messages, now, rnd)[k];
      (msg.kind == "message" || msg.kind == "") &&
      ins.content == TrimSpace(msg.text) && |ins.content| >= 10 && !IsSlackNoise(ins.content) &&
      ins.timestamp == ParseSlackTimestamp(msg.ts, now) && ins.createdAt == now &&
      ins.confidence == ConfidenceSlack && ins.source == Source("slack", msg.ts, [msg.user]) &&
      ins.summary == Truncate(ins.content, 80) && ins.kind == DetectInsightType(ins.content) && HasPrefix(ins.id, "ins-")
  {
    var kept := KeptMessages(messages);
    var msg := kept[k];
    assert Kept(msg) by {
      FilterAccepted(messages, Kept, k);
    }
    assert MessagesToInsightsOf(messages, now, rnd)[k] == SlackInsight(msg, now, rnd(k)) by {
      SlackInsightAt(kept, now, rnd, k);
    }
    SlackInsightOfKept(msg, now, rnd(k));
  }

  /** The insight of a kept message carries its trimmed text and its
      Slack fields. */
  lemma SlackInsightOfKept(msg: SlackMessage, now: Time, w: RandomWord)
    requires Kept(msg)
    ensures var ins := SlackInsight(msg, now, w);
      (msg.kind == "message" || msg.kind == "") &&
      ins.content == TrimSpace(msg.text) && |ins.content| >= 10 && !IsSlackNoise(ins.content) &&
      ins.timestamp == ParseSlackTimestamp(msg.ts, now) && ins.createdAt == now &&
      ins.confidence == ConfidenceSlack && ins.source == Source("slack", msg.ts, [msg.user]) &&
      ins.summary == Truncate(ins.content, 80) && ins.kind == DetectInsightType(ins.content) && HasPrefix(ins.id, "ins-")
  {
  }

  // ----- ParseSlackJSON

  /** `ParseSlackJSON` over the decoded array: `None` stands for content
      that is not a JSON array of messages. */
  function ParseSlackJSON(decoded: Option<seq<SlackMessage>>, now: Time, rnd: RandomStream): (r: Result<seq<Insight>>)
    ensures decoded.None? <==> r.Err?
    ensures r.Err? ==> r.error == Wrapped("failed to parse Slack JSON", ParseFailed)
  {
    match decoded
    case None => Err(Wrapped("failed to parse Slack JSON", ParseFailed))
    case Some(messages) => Ok(MessagesToInsightsOf(messages, now, rnd))
  }

  // ----- ParseSlackExport

  function TimestampKey(ins: Insight): int {
    ins.timestamp
  }

  /** What one channel file contributes: its insights, or nothing when it
      could not be read or decoded. */
  function FileResult(file: Option<seq<SlackMessage>>, now: Time, rnd: RandomStream): seq<Insight> {
    match ParseSlackJSON(file, now, rnd)
    case Ok(insights) => insights
    case Err(_) => []
  }

  /** The insights of the channel files, in file order; the `f`-th file
      draws its identifiers from `rnds(f)`. */
  function FileInsights(files: seq<Option<seq<SlackMessage>>>, now: Time, rnds: nat -> RandomStream): seq<Insight> {
    ConcatMap(files, FilePart(now, rnds))
  }

  /** What the `f`-th file contributes. */
  function FilePart(now: Time, rnds: nat -> RandomStream): (nat, Option<seq<SlackMessage>>) -> seq<Insight> {
    (f: nat, file: Option<seq<SlackMessage>>) => FileResult(file, now, rnds(f))
  }

  /** `ParseSlackExport` as a value: all files' insights, oldest first. */
  function ParseSlackExportOf(files: seq<Option<seq<SlackMessage>>>, now: Time, rnds: nat -> RandomStream): seq<Insight> {
    SortBy(FileInsights(files, now, rnds), TimestampKey)
  }

  /** `ParseSlackExport` over the directory's `*.json` files, each given as
      its decoded array or `None` when it could not be read or decoded:
      such files are skipped, and the insights of the others are sorted by
      time. */
  method ParseSlackExport(files: seq<Option<seq<SlackMessage>>>, now: Time, rnds: nat -> RandomStream)
    returns (r: seq<Insight>)
    ensures r == ParseSlackExportOf(files, now, rnds)
  {
    var allInsights: seq<Insight> := [];
    var i := 0;
    while i < |files|
      invariant 0 <= i <= |files|
      invariant allInsights == FileInsights(files[..i], now, rnds)
    {
      ConcatMapStep(files, i, FilePart(now, rnds));
      var insights := ParseSlackJSON(files[i], now, rnds(i));
      if insights.Ok? {
        allInsights := allInsights + insights.value;
      } else {
        assert allInsights + [] == allInsights;
      }
      i := i + 1;
    }
    assert files[..i] == files;
    r := SortBy(allInsights, TimestampKey);
  }

  /** The export's insights are ordered by time and are exactly those of
      the readable files, each as often as it was extracted. */
  lemma ExportOrdered(files: seq<Option<seq<SlackMessage>>>, now: Time, rnds: nat -> RandomStream)
    ensures var r := ParseSlackExportOf(files, now, rnds);
      (forall i, j :: 0 <= i < j < |r| ==> r[i].timestamp <= r[j].timestamp) &&
      multiset(r) == multiset(FileInsights(files, now, rnds))
  {
    var r := ParseSlackExportOf(files, now, rnds);
    assert SortedBy(r, TimestampKey);
    forall i, j | 0 <= i < j < |r|
      ensures r[i].timestamp <= r[j].timestamp
    {
      assert TimestampKey(r[i]) <= TimestampKey(r[j]);
    }
  }

  /** A readable file's insights all appear in the export. */
  lemma ReadableFileIncluded(files: seq<Option<seq<SlackMessage>>>, now: Time, rnds: nat -> RandomStream, f: nat, ins: Insight)
    requires f < |files| && files[f].Some? && ins in MessagesToInsightsOf(files[f].value, now, rnds(f))
    ensures ins in ParseSlackExportOf(files, now, rnds)
  {
    var part := FilePart(now, rnds);
    assert ins in part(f, files[f]);
    ConcatMapIncludes(files, part, f, ins);
    SameElements(FileInsights(files, now, rnds), TimestampKey, ins);
  }

  /** Every insight of the export comes from a readable file. */
  lemma ExportFromReadableFile(files: seq<Option<seq<SlackMessage>>>, now: Time, rnds: nat -> RandomStream, ins: Insight)
    requires ins in ParseSlackExportOf(files, now, rnds)
    ensures exists f :: 0 <= f < |files| && files[f].Some? && ins in MessagesToInsightsOf(files[f].value, now, rnds(f))
  {
    var part := FilePart(now, rnds);
    SameElements(FileInsights(files, now, rnds), TimestampKey, ins);
    ConcatMapFrom(files, part, ins);
    var f :| 0 <= f < |files| && ins in part(f, files[f]);
    assert ins in FileResult(files[f], now, rnds(f));
  }
}
