/** Extraction of insights from AI session transcripts: a plain parser
    that takes every substantive line, and a conversation parser that
    collects speaker turns. */
module AiSession {
  import opened Wrappers
  import opened Text
  import opened Types

  /** The random words `GenerateID` draws, the `k`-th for the `k`-th
      identifier a parse makes. */
  type RandomStream = nat -> RandomWord

  // ----- detectInsightType

  const DiscoveryPatterns: seq<string> := ["found:", "discovered:", "noticed:", "realized:", "identified:"]
  const DecisionPatterns: seq<string> := ["decision:", "decided:", "let's go with", "we'll use", "going with", "chose to", "will use"]
  const PivotPatterns: seq<string> := ["actually", "wait,", "but actually", "turns out", "however,", "on second thought"]

  /** The regular expression `\?[\s]*$`: a question mark followed only by
      white space up to the end of the text. */
  predicate EndsInQuestion(text: string) {
    exists i :: 0 <= i < |text| && text[i] == '?' && forall j :: i < j < |text| ==> IsRegexSpace(text[j])
  }

  predicate ContainsAny(s: string, patterns: seq<string>) {
    exists p :: p in patterns && Contains(s, p)
  }

  /** `detectInsightType`: question, then decision, pivot and discovery
      phrases (matched in lower case), and hypothesis otherwise. */
  function DetectInsightType(text: string): (r: string)
    ensures IsValidType(r) && r != Feedback
  {
    var lower := Lower(text);
    if EndsInQuestion(text) then Question
    else if ContainsAny(lower, DecisionPatterns) then Decision
    else if ContainsAny(lower, PivotPatterns) then Pivot
    else if ContainsAny(lower, DiscoveryPatterns) then Discovery
    else Hypothesis
  }

  /** The precedence of the rules: each type is chosen exactly when its own
      test holds and no earlier one does. */
  lemma DetectPrecedence(text: string)
    ensures DetectInsightType(text) == Question <==> EndsInQuestion(text)
    ensures DetectInsightType(text) == Decision <==> !EndsInQuestion(text) && ContainsAny(Lower(text), DecisionPatterns)
    ensures DetectInsightType(text) == Pivot <==>
      !EndsInQuestion(text) && !ContainsAny(Lower(text), DecisionPatterns) && ContainsAny(Lower(text), PivotPatterns)
    ensures DetectInsightType(text) == Discovery <==>
      !EndsInQuestion(text) && !ContainsAny(Lower(text), DecisionPatterns) && !ContainsAny(Lower(text), PivotPatterns) &&
      ContainsAny(Lower(text), DiscoveryPatterns)
    ensures DetectInsightType(text) == Hypothesis <==>
      !EndsInQuestion(text) && !ContainsAny(Lower(text), DecisionPatterns) && !ContainsAny(Lower(text), PivotPatterns) &&
      !ContainsAny(Lower(text), DiscoveryPatterns)
  {
  }

  /** Trailing white space after the question mark does not change the
      type, and a question mark wins over every phrase before it. */
  lemma QuestionWins(text: string, tail: string)
    requires forall j :: 0 <= j < |tail| ==> IsRegexSpace(tail[j])
    ensures DetectInsightType(text + "?" + tail) == Question
  {
    var s := text + "?" + tail;
    assert s[|text|] == '?';
    assert forall j :: |text| < j < |s| ==> s[j] == tail[j - |text| - 1];
  }

  // ----- the insights both parsers make

  /** The moment the insights happened: the base timestamp, or now when it
      is the zero time. */
  function BaseOrNow(base: Time, now: Time): (r: Time)
    ensures base != ZeroTime ==> r == base
    ensures base == ZeroTime ==> r == now
  {
    if base == ZeroTime then now else base
  }

  /** An extracted insight: 0.7 confidence, an `ai-session` source, the
      text as content and its first 80 bytes as summary. */
  function ExtractedInsight(text: string, ts: Time, now: Time, w: RandomWord, participants: seq<string>): Insight {
    Insight(GenerateID("ins", w), ts, text, Truncate(text, 80), DetectInsightType(text), ConfidenceAiSession,
            Source("ai-session", "", participants), "", "", [], [], "", now)
  }

  /** An extracted insight of trimmed text keeps the text as its content,
      with the summary, type, confidence, source, times and `ins-`
      identifier an extracted insight gets. */
  lemma ExtractedInsightFields(text: string, ts: Time, now: Time, w: RandomWord, participants: seq<string>)
    requires |text| >= 10 && Trimmed(text)
    ensures var ins := ExtractedInsight(text, ts, now, w, participants);
      ins.content == text && |ins.content| >= 10 && Trimmed(ins.content) &&
      ins.summary == Truncate(ins.content, 80) && ins.kind == DetectInsightType(ins.content) &&
      ins.confidence == ConfidenceAiSession && ins.source == Source("ai-session", "", participants) &&
      ins.timestamp == ts && ins.createdAt == now && HasPrefix(ins.id, "ins-")
  {
  }

  // ----- ParseAISessionWithTimestamp

  /** Text that neither starts nor ends with white space. */
  predicate Trimmed(s: string) {
    s == [] || (!IsSpace(s[0]) && !IsSpace(s[|s| - 1]))
  }

  /** Trimmed text is exactly the text `strings.TrimSpace` leaves alone. */
  lemma TrimmedIsFixed(s: string)
    ensures Trimmed(s) <==> TrimSpace(s) == s
  {
    if Trimmed(s) {
      TrimSpaceKeeps(s);
    }
  }


  /** The trimmed lines at least ten bytes long, in order. */
  function SubstantiveLines(lines: seq<string>): seq<string> {
    if lines == [] then []
    else
      var line := TrimSpace(lines[|lines| - 1]);
      SubstantiveLines(lines[..|lines| - 1]) + (if |line| >= 10 then [line] else [])
  }

  /** Selection distributes over concatenation: it keeps the order of the
      lines. */
  lemma {:induction false} SubstantiveLinesAppend(a: seq<string>, b: seq<string>)
    ensures SubstantiveLines(a + b) == SubstantiveLines(a) + SubstantiveLines(b)
    decreases |b|
  {
    if b == [] {
      assert a + b == a;
    } else {
      var n := |b| - 1;
      assert (a + b)[..|a + b| - 1] == a + b[..n];
      assert (a + b)[|a + b| - 1] == b[n];
      SubstantiveLinesAppend(a, b[..n]);
    }
  }

  /** One line is kept, trimmed, exactly when its trimmed text has at least
      ten bytes. */
  lemma SubstantiveLine(line: string)
    ensures SubstantiveLines([line]) == if |TrimSpace(line)| >= 10 then [TrimSpace(line)] else []
  {
    assert [line][..0] == [];
  }

  /** One extracted insight per kept line, the `k`-th drawing the `k`-th
      random word. */
  function PlainInsights(kept: seq<string>, ts: Time, now: Time, rnd: RandomStream): (r: seq<Insight>)
    ensures |r| == |kept|
  {
    if kept == [] then []
    else PlainInsights(kept[..|kept| - 1], ts, now, rnd) + [ExtractedInsight(kept[|kept| - 1], ts, now, rnd(|kept| - 1), [])]
  }

  lemma {:induction false} PlainInsightAt(kept: seq<string>, ts: Time, now: Time, rnd: RandomStream, k: nat)
    requires k < |kept|
    ensures PlainInsights(kept, ts, now, rnd)[k] == ExtractedInsight(kept[k], ts, now, rnd(k), [])
  {
    if k < |kept| - 1 {
      PlainInsightAt(kept[..|kept| - 1], ts, now, rnd, k);
    }
  }

  lemma KeptStep(lines: seq<string>, i: nat)
    requires i < |lines|
    ensures SubstantiveLines(lines[..i + 1]) ==
      SubstantiveLines(lines[..i]) + (if |TrimSpace(lines[i])| >= 10 then [TrimSpace(lines[i])] else [])
  {
    assert lines[..i + 1][..i] == lines[..i];
  }

  lemma PlainInsightsStep(kept: seq<string>, line: string, ts: Time, now: Time, rnd: RandomStream)
    ensures PlainInsights(kept + [line], ts, now, rnd) ==
      PlainInsights(kept, ts, now, rnd) + [ExtractedInsight(line, ts, now, rnd(|kept|), [])]
  {
    assert (kept + [line])[..|kept|] == kept;
  }

  /** `ParseAISessionWithTimestamp` as a value. */
  function ParseAISessionOf(content: string, base: Time, now: Time, rnd: RandomStream): seq<Insight> {
    PlainInsights(SubstantiveLines(Split(content, '\n')), BaseOrNow(base, now), now, rnd)
  }

  /** `ParseAISessionWithTimestamp`: one insight per substantive line. */
  method ParseAISessionWithTimestamp(content: string, base: Time, now: Time, rnd: RandomStream) returns (insights: seq<Insight>)
    ensures insights == ParseAISessionOf(content, base, now, rnd)
  {
    var insightTimestamp := base;
    if insightTimestamp == ZeroTime {
      insightTimestamp := now;
    }
    var lines := Split(content, '\n');
    insights := ExtractLines(lines, insightTimestamp, now, rnd);
  }

  /** The loop of `ParseAISessionWithTimestamp` over the lines. */
  method ExtractLines(lines: seq<string>, ts: Time, now: Time, rnd: RandomStream) returns (insights: seq<Insight>)
    ensures insights == PlainInsights(SubstantiveLines(lines), ts, now, rnd)
  {
    insights := [];
    ghost var kept: seq<string> := [];
    var i := 0;
    while i < |lines|
      invariant 0 <= i <= |lines|
      invariant kept == SubstantiveLines(lines[..i])
      invariant insights == PlainInsights(kept, ts, now, rnd)
    {
      KeptStep(lines, i);
      var line := TrimSpace(lines[i]);
      i := i + 1;
      if line == "" {
        continue;
      }
      if |line| < 10 {
        continue;
      }
      PlainInsightsStep(kept, line, ts, now, rnd);
      insights := insights + [ExtractedInsight(line, ts, now, rnd(|insights|), [])];
      kept := kept + [line];
    }
    assert lines[..i] == lines;
  }

  /** The insights made of kept lines: each one's content is its line,
      trimmed and at least ten bytes long, with the type the text suggests,
      0.7 confidence, an `ai-session` source, the given time and a fresh
      `ins-` identifier. */
  lemma PlainInsightOfKept(kept: seq<string>, ts: Time, now: Time, rnd: RandomStream, k: nat)
    requires k < |kept|
    requires AllSubstantive(kept)
    ensures var ins := PlainInsights(kept, ts, now, rnd)[k];
      ins.content == kept[k] &&
      |ins.content| >= 10 && Trimmed(ins.content) &&
      ins.summary == Truncate(ins.content, 80) && ins.kind == DetectInsightType(ins.content) &&
      ins.confidence == ConfidenceAiSession && ins.source == Source("ai-session", "", []) &&
      ins.timestamp == ts && ins.createdAt == now && HasPrefix(ins.id, "ins-")
  {
    assert PlainInsights(kept, ts, now, rnd)[k] == ExtractedInsight(kept[k], ts, now, rnd(k), []) by {
      PlainInsightAt(kept, ts, now, rnd, k);
    }
    ExtractedInsightFields(kept[k], ts, now, rnd(k), []);
  }

  /** The plain parser's insights are the substantive lines in order, each
      trimmed and at least ten bytes long, stamped with the base time (or
      now) and recorded now. */
  lemma PlainInsightFields(content: string, base: Time, now: Time, rnd: RandomStream, k: nat)
    requires k < |ParseAISessionOf(content, base, now, rnd)|
    ensures var ins := ParseAISessionOf(content, base, now, rnd)[k];
      ins.content == SubstantiveLines(Split(content, '\n'))[k] &&
      |ins.content| >= 10 && Trimmed(ins.content) &&
      ins.summary == Truncate(ins.content, 80) && ins.kind == DetectInsightType(ins.content) &&
      ins.confidence == ConfidenceAiSession && ins.source == Source("ai-session", "", []) &&
      ins.timestamp == BaseOrNow(base, now) && ins.createdAt == now && HasPrefix(ins.id, "ins-")
  {
    SubstantiveTrimmed(Split(content, '\n'));
    PlainInsightOfKept(SubstantiveLines(Split(content, '\n')), BaseOrNow(base, now), now, rnd, k);
  }

  /** Lines that are all trimmed and at least ten bytes long. */
  predicate AllSubstantive(kept: seq<string>) {
    forall j :: 0 <= j < |kept| ==> |kept[j]| >= 10 && Trimmed(kept[j])
  }

  /** Every kept line is trimmed and at least ten bytes long. */
  lemma {:induction false} SubstantiveTrimmed(lines: seq<string>)
    ensures AllSubstantive(SubstantiveLines(lines))
  {
    if lines != [] {
      var n := |lines| - 1;
      SubstantiveTrimmed(lines[..n]);
      var line := TrimSpace(lines[n]);
      assert Trimmed(line);
    }
  }

  // ----- ParseConversationWithTimestamp

  const SpeakerNames: seq<string> := ["human", "user", "ai", "assistant", "claude", "gpt"]

  /** `(human|user|ai|assistant|claude|gpt)` under `(?i)`. */
  predicate IsSpeakerName(s: string) {
    Lower(s) in SpeakerNames
  }

  lemma NoEmptySpeaker()
    ensures !IsSpeakerName("")
  {
    assert Lower("") == "";
  }

  lemma ConcatAssociates(a: string, b: string, c: string, d: string)
    ensures a + b + c + d == a + (b + c + d)
  {
  }

  /** What `\s*(.+)` captures of the text after the colon: the greedy white
      space gives back one character when nothing else is left. */
  function TurnStart(rest: string): (r: string)
    requires rest != []
    ensures r != [] && |r| <= |rest| && r == rest[|rest| - |r|..]
    ensures |r| > 1 ==> !IsRegexSpace(r[0])
    ensures forall j :: 0 <= j < |rest| - |r| ==> IsRegexSpace(rest[j])
  {
    if |rest| > 1 && IsRegexSpace(rest[0]) then TurnStart(rest[1..]) else rest
  }

  /** `turnPattern.FindStringSubmatch`: the speaker as written and the
      captured start of the turn. The names hold no colon, so the speaker
      is all that precedes the first colon. */
  function SpeakerMatch(line: string): (r: Option<(string, string)>)
    ensures r.Some? ==> IsSpeakerName(r.value.0) && r.value.1 != []
  {
    match IndexOf(line, ':')
    case None => None
    case Some(i) =>
      if !IsSpeakerName(line[..i]) || i + 1 == |line| then None
      else Some((line[..i], TurnStart(line[i + 1..])))
  }

  /** A finished turn: who spoke and the trimmed text. */
  datatype Turn = Turn(speaker: string, text: string)

  /** The parser's state: `currentSpeaker`, the `currentTurn` builder and
      the turns already flushed. */
  datatype TurnState = TurnState(speaker: string, turn: string, turns: seq<Turn>)

  const Initial: TurnState := TurnState("", "", [])

  /** `flushTurn`: a turn with a speaker and text is closed; it counts only
      when its trimmed text has at least ten bytes. */
  function Flush(s: TurnState): TurnState {
    if |s.turn| > 0 && s.speaker != "" then
      var text := TrimSpace(s.turn);
      TurnState(s.speaker, "", s.turns + (if |text| >= 10 then [Turn(s.speaker, text)] else []))
    else s
  }

  /** One line: a speaker line closes the turn and opens the next; any
      other line continues the open turn, if there is one. */
  function Step(s: TurnState, line: string): TurnState {
    match SpeakerMatch(line)
    case Some((speaker, start)) =>
      var f := Flush(s);
      TurnState(speaker, f.turn + start, f.turns)
    case None =>
      if s.speaker != "" then s.(turn := s.turn + " " + TrimSpace(line)) else s
  }

  function RunFrom(s: TurnState, lines: seq<string>): TurnState {
    if lines == [] then s else Step(RunFrom(s, lines[..|lines| - 1]), lines[|lines| - 1])
  }

  lemma {:induction false} RunFromAppend(s: TurnState, a: seq<string>, b: seq<string>)
    ensures RunFrom(s, a + b) == RunFrom(RunFrom(s, a), b)
    decreases |b|
  {
    if b == [] {
      assert a + b == a;
    } else {
      var n := |b| - 1;
      assert (a + b)[..|a + b| - 1] == a + b[..n];
      assert (a + b)[|a + b| - 1] == b[n];
      RunFromAppend(s, a, b[..n]);
    }
  }

  /** The turns of the lines, the last one flushed. */
  function ConversationTurns(lines: seq<string>): seq<Turn> {
    Flush(RunFrom(Initial, lines)).turns
  }

  /** `participant`: human or user, in any case, is the human; every other
      speaker is the agent. */
  function Participant(speaker: string): (r: string)
    ensures r == "human" <==> EqualFold(speaker, "human") || EqualFold(speaker, "user")
    ensures r == "human" || r == "ai-agent"
  {
    if EqualFold(speaker, "human") || EqualFold(speaker, "user") then "human" else "ai-agent"
  }

  /** One extracted insight per turn, its speaker as the one participant. */
  function TurnInsights(turns: seq<Turn>, ts: Time, now: Time, rnd: RandomStream): (r: seq<Insight>)
    ensures |r| == |turns|
  {
    if turns == [] then []
    else
      var last := turns[|turns| - 1];
      TurnInsights(turns[..|turns| - 1], ts, now, rnd) + [ExtractedInsight(last.text, ts, now, rnd(|turns| - 1), [Participant(last.speaker)])]
  }

  lemma {:induction false} TurnInsightAt(turns: seq<Turn>, ts: Time, now: Time, rnd: RandomStream, k: nat)
    requires k < |turns|
    ensures TurnInsights(turns, ts, now, rnd)[k] == ExtractedInsight(turns[k].text, ts, now, rnd(k), [Participant(turns[k].speaker)])
  {
    if k < |turns| - 1 {
      TurnInsightAt(turns[..|turns| - 1], ts, now, rnd, k);
    }
  }

  lemma TurnInsightsStep(turns: seq<Turn>, turn: Turn, ts: Time, now: Time, rnd: RandomStream)
    ensures TurnInsights(turns + [turn], ts, now, rnd) ==
      TurnInsights(turns, ts, now, rnd) + [ExtractedInsight(turn.text, ts, now, rnd(|turns|), [Participant(turn.speaker)])]
  {
    assert (turns + [turn])[..|turns|] == turns;
  }

  lemma RunStep(lines: seq<string>, i: nat)
    requires i < |lines|
    ensures RunFrom(Initial, lines[..i + 1]) == Step(RunFrom(Initial, lines[..i]), lines[i])
  {
    assert lines[..i + 1][..i] == lines[..i];
  }

  /** `ParseConversationWithTimestamp` as a value. */
  function ParseConversationOf(content: string, base: Time, now: Time, rnd: RandomStream): seq<Insight> {
    TurnInsights(ConversationTurns(Split(content, '\n')), BaseOrNow(base, now), now, rnd)
  }

  /** The `flushTurn` closure, over the builder, the speaker and the
      insights made so far. */
  method FlushTurn(speaker: string, turn: string, insights: seq<Insight>, ghost turns: seq<Turn>,
                   ts: Time, now: Time, rnd: RandomStream)
    returns (turn': string, insights': seq<Insight>, ghost turns': seq<Turn>)
    requires insights == TurnInsights(turns, ts, now, rnd)
    ensures Flush(TurnState(speaker, turn, turns)) == TurnState(speaker, turn', turns')
    ensures insights' == TurnInsights(turns', ts, now, rnd)
  {
    turn', insights', turns' := turn, insights, turns;
    if |turn| > 0 && speaker != "" {
      var text := TrimSpace(turn);
      if |text| >= 10 {
        var participant := Participant(speaker);
        insights' := insights + [ExtractedInsight(text, ts, now, rnd(|insights|), [participant])];
        turns' := turns + [Turn(speaker, text)];
        TurnInsightsStep(turns, Turn(speaker, text), ts, now, rnd);
      } else {
        assert turns + [] == turns;
      }
      turn' := "";
    }
  }

  /** `ParseConversationWithTimestamp`: the turn state machine over the
      lines, then a last flush. */
  method ParseConversationWithTimestamp(content: string, base: Time, now: Time, rnd: RandomStream) returns (insights: seq<Insight>)
    ensures insights == ParseConversationOf(content, base, now, rnd)
  {
    var insightTimestamp := base;
    if insightTimestamp == ZeroTime {
      insightTimestamp := now;
    }
    var lines := Split(content, '\n');
    var currentTurn := "";
    var currentSpeaker := "";
    ghost var turns: seq<Turn> := [];
    insights := [];
    var i := 0;
    while i < |lines|
      invariant 0 <= i <= |lines|
      invariant RunFrom(Initial, lines[..i]) == TurnState(currentSpeaker, currentTurn, turns)
      invariant insights == TurnInsights(turns, insightTimestamp, now, rnd)
    {
      RunStep(lines, i);
      var line := lines[i];
      var matches := SpeakerMatch(line);
      if matches.Some? {
        currentTurn, insights, turns := FlushTurn(currentSpeaker, currentTurn, insights, turns, insightTimestamp, now, rnd);
        currentSpeaker := matches.value.0;
        currentTurn := currentTurn + matches.value.1;
      } else if currentSpeaker != "" {
        currentTurn := currentTurn + " ";
        currentTurn := currentTurn + TrimSpace(line);
      }
      i := i + 1;
    }
    assert lines[..i] == lines;
    currentTurn, insights, turns := FlushTurn(currentSpeaker, currentTurn, insights, turns, insightTimestamp, now, rnd);
  }

  /** Lines none of which opens a turn. */
  predicate NoSpeakerLines(lines: seq<string>) {
    forall k :: 0 <= k < |lines| ==> SpeakerMatch(lines[k]).None?
  }

  /** Lines before the first speaker line are ignored. */
  lemma ConversationPreambleIgnored(pre: seq<string>, rest: seq<string>)
    requires NoSpeakerLines(pre)
    ensures ConversationTurns(pre + rest) == ConversationTurns(rest)
  {
    PreambleKeepsInitial(pre);
    RunFromAppend(Initial, pre, rest);
  }

  lemma {:induction false} PreambleKeepsInitial(pre: seq<string>)
    requires NoSpeakerLines(pre)
    ensures RunFrom(Initial, pre) == Initial
  {
    if pre != [] {
      PreambleKeepsInitial(pre[..|pre| - 1]);
    }
  }

  /** The lines a turn is made of: `" "` and the trimmed line for each
      continuation line. */
  function Continued(lines: seq<string>): string {
    if lines == [] then "" else Continued(lines[..|lines| - 1]) + " " + TrimSpace(lines[|lines| - 1])
  }

  /** A speaker line closes the open turn and opens its own. */
  lemma TurnOpens(s: TurnState, head: string)
    requires SpeakerMatch(head).Some?
    ensures var (speaker, start) := SpeakerMatch(head).value;
      RunFrom(s, [head]) == TurnState(speaker, Flush(s).turn + start, Flush(s).turns)
  {
    assert [head][..0] == [];
  }

  /** A line that is not a speaker line continues the open turn. */
  lemma ContinuationStep(s: TurnState, line: string)
    requires s.speaker != "" && SpeakerMatch(line).None?
    ensures Step(s, line) == s.(turn := s.turn + " " + TrimSpace(line))
  {
  }

  /** Non-speaker lines extend an open turn, each with a space and its
      trimmed text. */
  lemma {:induction false} ContinuationsExtend(st: TurnState, conts: seq<string>)
    requires st.speaker != "" && NoSpeakerLines(conts)
    ensures RunFrom(st, conts) == st.(turn := st.turn + Continued(conts))
  {
    if conts == [] {
      assert st.turn + Continued(conts) == st.turn;
    } else {
      var n := |conts| - 1;
      assert NoSpeakerLines(conts[..n]) && SpeakerMatch(conts[n]).None?;
      ContinuationsExtend(st, conts[..n]);
      var before := st.(turn := st.turn + Continued(conts[..n]));
      ContinuationStep(before, conts[n]);
      ConcatAssociates(st.turn, Continued(conts[..n]), " ", TrimSpace(conts[n]));
    }
  }

  /** A speaker line and the non-speaker lines after it make one turn: the
      earlier turns are closed first, and the text of the new turn is the
      captured start followed by the continuation lines. */
  lemma TurnCollects(s: TurnState, head: string, conts: seq<string>)
    requires SpeakerMatch(head).Some?
    requires NoSpeakerLines(conts)
    ensures var (speaker, start) := SpeakerMatch(head).value;
      RunFrom(s, [head] + conts) == TurnState(speaker, Flush(s).turn + start + Continued(conts), Flush(s).turns)
  {
    TurnOpens(s, head);
    RunFromAppend(s, [head], conts);
    NoEmptySpeaker();
    ContinuationsExtend(RunFrom(s, [head]), conts);
  }

  predicate WellFormedTurn(turn: Turn) {
    |turn.text| >= 10 && Trimmed(turn.text) && IsSpeakerName(turn.speaker)
  }

  /** The state's speaker, if any, is one of the six, and every closed turn
      is trimmed, at least ten bytes long and has such a speaker. */
  predicate WellFormedTurns(turns: seq<Turn>) {
    forall k :: 0 <= k < |turns| ==> WellFormedTurn(turns[k])
  }

  predicate WellFormedState(s: TurnState) {
    (s.speaker == "" || IsSpeakerName(s.speaker)) && WellFormedTurns(s.turns)
  }

  lemma FlushWellFormed(s: TurnState)
    requires WellFormedState(s)
    ensures WellFormedState(Flush(s)) && Flush(s).speaker == s.speaker
  {
    FlushCloses(s);
    if Flush(s).turns != s.turns {
      ClosedTurnWellFormed(s);
    }
  }

  /** The turn a flush closes is well formed. */
  lemma ClosedTurnWellFormed(s: TurnState)
    requires WellFormedState(s) && s.speaker != "" && |TrimSpace(s.turn)| >= 10
    ensures WellFormedTurns(s.turns + [Turn(s.speaker, TrimSpace(s.turn))])
  {
    var turn := Turn(s.speaker, TrimSpace(s.turn));
    assert WellFormedTurn(turn) by {
      assert Trimmed(turn.text);
    }
    TurnsAppend(s.turns, turn);
  }

  /** A flush keeps the speaker and either keeps the turns or closes the
      open one, trimmed and at least ten bytes long. */
  lemma FlushCloses(s: TurnState)
    ensures Flush(s).speaker == s.speaker
    ensures Flush(s).turns == s.turns ||
      (s.speaker != "" && |TrimSpace(s.turn)| >= 10 && Flush(s).turns == s.turns + [Turn(s.speaker, TrimSpace(s.turn))])
  {
    if |s.turn| > 0 && s.speaker != "" && |TrimSpace(s.turn)| < 10 {
      assert s.turns + [] == s.turns;
    }
  }

  /** A well-formed turn appended to well-formed turns keeps them so. */
  lemma TurnsAppend(turns: seq<Turn>, turn: Turn)
    requires WellFormedTurns(turns) && WellFormedTurn(turn)
    ensures WellFormedTurns(turns + [turn])
  {
    var all := turns + [turn];
    assert forall k :: 0 <= k < |all| ==> all[k] == if k < |turns| then turns[k] else turn;
  }

  lemma StepWellFormed(s: TurnState, line: string)
    requires WellFormedState(s)
    ensures WellFormedState(Step(s, line))
  {
    FlushWellFormed(s);
  }

  /** The state stays well formed along the lines and through the last
      flush: every turn is trimmed, at least ten bytes long and spoken by
      one of the six speakers. */
  lemma {:induction false} TurnsWellFormed(s: TurnState, lines: seq<string>)
    requires WellFormedState(s)
    ensures WellFormedState(RunFrom(s, lines))
    ensures WellFormedState(Flush(RunFrom(s, lines)))
  {
    if lines != [] {
      TurnsWellFormed(s, lines[..|lines| - 1]);
      StepWellFormed(RunFrom(s, lines[..|lines| - 1]), lines[|lines| - 1]);
    }
    FlushWellFormed(RunFrom(s, lines));
  }

  /** The insights made of well-formed turns: each one's content is its
      turn's text, trimmed and at least ten bytes long, and its one
      participant stands for the turn's speaker. */
  lemma TurnInsightOfWellFormed(turns: seq<Turn>, ts: Time, now: Time, rnd: RandomStream, k: nat)
    requires k < |turns| && WellFormedTurns(turns)
    ensures var ins := TurnInsights(turns, ts, now, rnd)[k];
      ins.content == turns[k].text && |ins.content| >= 10 && Trimmed(ins.content) &&
      IsSpeakerName(turns[k].speaker) &&
      ins.source == Source("ai-session", "", [Participant(turns[k].speaker)]) &&
      ins.summary == Truncate(ins.content, 80) && ins.kind == DetectInsightType(ins.content) &&
      ins.confidence == ConfidenceAiSession && ins.timestamp == ts && ins.createdAt == now && HasPrefix(ins.id, "ins-")
  {
    var turn := turns[k];
    assert WellFormedTurn(turn);
    assert TurnInsights(turns, ts, now, rnd)[k] == ExtractedInsight(turn.text, ts, now, rnd(k), [Participant(turn.speaker)]) by {
      TurnInsightAt(turns, ts, now, rnd, k);
    }
    ExtractedInsightFields(turn.text, ts, now, rnd(k), [Participant(turn.speaker)]);
  }

  /** Each conversation insight is a turn of the lines: its content is
      the turn's trimmed text of at least ten bytes, its one participant is
      "human" for a human or user speaker and "ai-agent" otherwise. */
  lemma ConversationInsightFields(lines: seq<string>, ts: Time, now: Time, rnd: RandomStream, k: nat)
    requires k < |ConversationTurns(lines)|
    ensures var turn := ConversationTurns(lines)[k];
      var ins := TurnInsights(ConversationTurns(lines), ts, now, rnd)[k];
      ins.content == turn.text && |ins.content| >= 10 && Trimmed(ins.content) &&
      IsSpeakerName(turn.speaker) &&
      ins.source == Source("ai-session", "", [Participant(turn.speaker)]) &&
      ins.summary == Truncate(ins.content, 80) && ins.kind == DetectInsightType(ins.content) &&
      ins.confidence == ConfidenceAiSession && ins.timestamp == ts && ins.createdAt == now
  {
    ConversationTurnsWellFormed(lines);
    TurnInsightOfWellFormed(ConversationTurns(lines), ts, now, rnd, k);
  }

  lemma ConversationTurnsWellFormed(lines: seq<string>)
    ensures WellFormedTurns(ConversationTurns(lines))
  {
    TurnsWellFormed(Initial, lines);
  }
}
