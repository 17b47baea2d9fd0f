/** `bdc timeline`: a thread's insights (or all of them) oldest first, one
    line per insight with a symbol for its type and its outgoing edges
    underneath. The time format of the printed line is not modelled; a
    line keeps the timestamp itself. */
module Timeline {
  import opened Wrappers
  import opened Text
  import opened Types
  import opened Storage
  import opened Root
  import opened Sequences

  // ----- reversing

  function Reversed<T>(s: seq<T>): (r: seq<T>)
    ensures |r| == |s|
    ensures forall k :: 0 <= k < |s| ==> r[k] == s[|s| - 1 - k]
  {
    if s == [] then [] else Reversed(s[1..]) + [s[0]]
  }

  /** Reversing twice gives the original back. */
  lemma ReversedTwice<T>(s: seq<T>)
    ensures Reversed(Reversed(s)) == s
  {
    var r := Reversed(Reversed(s));
    assert forall k :: 0 <= k < |s| ==> r[k] == s[k];
  }

  /** Reversing only reorders. */
  lemma {:induction false} ReversedPermutes<T>(s: seq<T>)
    ensures multiset(Reversed(s)) == multiset(s)
  {
    if s != [] {
      ReversedPermutes(s[1..]);
      assert s == [s[0]] + s[1..];
    }
  }

  /** `reverseInsights`: swaps from both ends towards the middle. */
  method ReverseInsights<T>(a: array<T>)
    modifies a
    ensures a[..] == Reversed(old(a[..]))
  {
    var i, j := 0, a.Length - 1;
    while i < j
      invariant 0 <= i && j == a.Length - 1 - i && i <= j + 1
      invariant forall k :: 0 <= k < i ==> a[k] == old(a[a.Length - 1 - k]) && a[a.Length - 1 - k] == old(a[k])
      invariant forall k :: i <= k <= j ==> a[k] == old(a[k])
    {
      a[i], a[j] := a[j], a[i];
      i, j := i + 1, j - 1;
    }
  }

  /** The slice `reverseInsights` works on: the listed insights, reversed
      in place in a fresh array. */
  method ReverseSlice(insights: seq<Insight>) returns (r: seq<Insight>)
    ensures r == Reversed(insights)
  {
    var a := new Insight[|insights|](k requires 0 <= k < |insights| => insights[k]);
    assert a[..] == insights;
    ReverseInsights(a);
    r := a[..];
  }

  // ----- one line per insight

  /** `getInsightSymbol`. */
  function InsightSymbol(kind: string): (r: string)
  {
    if kind == Question then "?"
    else if kind == Feedback then "»"
    else if kind == Pivot then "●"
    else if kind == Decision then "◆"
    else "○"
  }

  /** Question, feedback, pivot and decision each have a symbol of their
      own; every other type shares the hollow circle. */
  lemma SymbolIdentifiesType(a: string, b: string)
    ensures InsightSymbol(a) == InsightSymbol(b) <==>
      a == b || (a !in [Question, Feedback, Pivot, Decision] && b !in [Question, Feedback, Pivot, Decision])
  {
  }

  /** The type as shown: pivots and decisions in capitals. */
  function TypeLabel(kind: string): (r: string)
    ensures kind == Pivot || kind == Decision ==> r == Upper(kind)
    ensures kind != Pivot && kind != Decision ==> r == kind
  {
    if kind == Pivot || kind == Decision then Upper(kind) else kind
  }

  /** Only the two emphasised types change when shown. */
  lemma TypeLabelShown()
    ensures TypeLabel(Pivot) == "PIVOT" && TypeLabel(Decision) == "DECISION"
    ensures forall k :: k in ValidInsightTypes() && k != Pivot && k != Decision ==> TypeLabel(k) == k
  {
    UpperPivot();
    UpperDecision();
  }

  lemma UpperPivot()
    ensures Upper(Pivot) == "PIVOT"
  {
    assert Upper(Pivot) == "PIVOT";
  }

  lemma UpperDecision()
    ensures Upper(Decision) == "DECISION"
  {
    assert Upper(Decision) == "DECISION";
  }

  /** The text `printInsightLine` shows: the summary, or else the content
      cut to 60 bytes. */
  function DisplayText(ins: Insight): (r: string)
    ensures ins.summary != "" ==> r == ins.summary
    ensures ins.summary == "" ==> |r| <= 60
    ensures ins.summary == "" && |ins.content| <= 60 ==> r == ins.content
    ensures ins.summary == "" && |ins.content| > 60 ==> r == ins.content[..57] + "..."
  {
    if ins.summary != "" then ins.summary
    else if |ins.content| > 60 then ins.content[..57] + "..."
    else ins.content
  }

  /** What `printInsightLine` prints for one insight. */
  datatype InsightLine = InsightLine(
    timestamp: Time,
    symbol: string,
    text: string,
    typeLabel: string,
    deps: seq<Dependency>)

  /** A failed dependency lookup prints the line without edges. */
  function LineOf(ins: Insight, deps: Result<seq<Dependency>>): (r: InsightLine)
    ensures deps.Err? ==> r.deps == []
    ensures deps.Ok? ==> r.deps == deps.value
    ensures r.timestamp == ins.timestamp && r.text == DisplayText(ins) && r.typeLabel == TypeLabel(ins.kind)
  {
    InsightLine(ins.timestamp, InsightSymbol(ins.kind), DisplayText(ins), TypeLabel(ins.kind), if deps.Ok? then deps.value else [])
  }

  /** The line of an insight, with the edges stored for it. */
  function LinePart(t: Tables): (Insight, nat) -> InsightLine {
    (ins: Insight, k: nat) => LineOf(ins, Ok(DependenciesIn(t, ins.id)))
  }

  function LinesOf(t: Tables, insights: seq<Insight>): (r: seq<InsightLine>)
    ensures |r| == |insights|
  {
    MapIndexed(insights, LinePart(t))
  }

  /** The `k`-th line is the `k`-th insight's, with the edges stored for it. */
  lemma LineAt(t: Tables, insights: seq<Insight>, k: nat)
    requires k < |insights|
    ensures LinesOf(t, insights)[k] == LineOf(insights[k], Ok(DependenciesIn(t, insights[k].id)))
  {
    MapIndexedAt(insights, LinePart(t), k);
  }

  /** One more insight adds its line at the end. */
  lemma LinesStep(t: Tables, insights: seq<Insight>, k: nat)
    requires k < |insights|
    ensures LinesOf(t, insights[..k + 1]) == LinesOf(t, insights[..k]) + [LineOf(insights[k], Ok(DependenciesIn(t, insights[k].id)))]
  {
    assert insights[..k + 1] == insights[..k] + [insights[k]];
    MapIndexedStep(insights[..k], insights[k], LinePart(t));
  }

  /** Prints the insights in order, each with the edges leaving it. */
  method PrintLines(st: Store, insights: seq<Insight>) returns (lines: seq<InsightLine>)
    ensures lines == LinesOf(st.Snapshot(), insights)
  {
    lines := [];
    var k := 0;
    while k < |insights|
      invariant 0 <= k <= |insights|
      invariant lines == LinesOf(st.Snapshot(), insights[..k])
    {
      var deps := st.GetDependencies(insights[k].id);
      LinesStep(st.Snapshot(), insights, k);
      lines := lines + [LineOf(insights[k], Ok(deps))];
      k := k + 1;
    }
    assert insights[..k] == insights;
  }

  // ----- the command

  /** The header names the thread when a thread was asked for, it has
      insights and it can be read; no lines means "No insights found". */
  datatype TimelineView = TimelineView(header: Option<string>, lines: seq<InsightLine>)

  function TimelineOf(t: Tables, threadId: string): TimelineView
    requires WellFormed(t)
  {
    var found := ListInsightsIn(t, threadId, "", ZeroTime);
    var header :=
      if found != [] && threadId != "" && ThreadIn(t, threadId).Ok? then Some(ThreadIn(t, threadId).value.title) else None;
    TimelineView(header, LinesOf(t, Reversed(found)))
  }

  /** The timeline runs oldest first and shows exactly the insights of the
      thread (all insights when no thread is given). */
  lemma TimelineOldestFirst(t: Tables, threadId: string)
    requires WellFormed(t)
    ensures var v := TimelineOf(t, threadId);
      forall i, j :: 0 <= i < j < |v.lines| ==> v.lines[i].timestamp <= v.lines[j].timestamp
  {
    var found := ListInsightsIn(t, threadId, "", ZeroTime);
    assert forall i, j :: 0 <= i < j < |found| ==> found[i].timestamp >= found[j].timestamp by {
      ListInsightsNewestFirst(t, threadId, "", ZeroTime);
    }
    ReversedLinesAscend(t, found);
    assert TimelineOf(t, threadId).lines == LinesOf(t, Reversed(found));
  }

  lemma ReversedLinesAscend(t: Tables, found: seq<Insight>)
    requires forall i, j :: 0 <= i < j < |found| ==> found[i].timestamp >= found[j].timestamp
    ensures var lines := LinesOf(t, Reversed(found));
      forall i, j :: 0 <= i < j < |lines| ==> lines[i].timestamp <= lines[j].timestamp
  {
    var shown := Reversed(found);
    var lines := LinesOf(t, shown);
    forall i, j | 0 <= i < j < |lines|
      ensures lines[i].timestamp <= lines[j].timestamp
    {
      LineAt(t, shown, i);
      LineAt(t, shown, j);
      assert lines[i].timestamp == shown[i].timestamp == found[|found| - 1 - i].timestamp;
      assert lines[j].timestamp == shown[j].timestamp == found[|found| - 1 - j].timestamp;
    }
  }

  /** One line per insight of the thread (of all insights when no thread
      is given). */
  lemma TimelineShowsThread(t: Tables, threadId: string, x: Insight)
    requires WellFormed(t)
    ensures var found := ListInsightsIn(t, threadId, "", ZeroTime);
      |TimelineOf(t, threadId).lines| == |found| &&
      (x in found <==> x in Insights(t) && (threadId == "" || x.threadId == threadId))
  {
    ListInsightsMembers(t, threadId, "", ZeroTime, x);
  }

  /** `runTimeline`. */
  method RunTimeline(session: Session, threadId: string) returns (r: Result<TimelineView>)
    requires session.Valid()
    modifies session, session.db, session.Held()
    ensures session.Finished(old(session.Current()), old(session.SchemaAfterOpen()))
    ensures old(session.OpenError()).Some? ==> r == Err(old(session.OpenError()).value)
    ensures old(session.OpenError()).None? ==> r == Ok(TimelineOf(old(session.Current()), threadId))
  {
    ghost var t := session.Current();
    var s := session.GetStore();
    if s.Err? {
      return Err(s.error);
    }
    var st := s.value;
    assert st.Snapshot() == t && WellFormed(t);
    var insights := st.ListInsights(threadId, "", ZeroTime);
    if insights == [] {
      session.CloseStore();
      return Ok(TimelineView(None, []));
    }
    var header := None;
    if threadId != "" {
      var th := st.GetThread(threadId);
      if th.Ok? {
        header := Some(th.value.title);
      }
    }
    assert header == TimelineOf(t, threadId).header;
    var oldestFirst := ReverseSlice(insights);
    var lines := PrintLines(st, oldestFirst);
    assert lines == TimelineOf(t, threadId).lines;
    session.CloseStore();
    return Ok(TimelineView(header, lines));
  }
}
