/** `bdc questions`: the question insights of a thread (or of all threads),
    oldest first, optionally only those no insight supersedes. */
module Questions {
  import opened Wrappers
  import opened Types
  import opened Storage
  import opened Root
  import opened Timeline
  import opened Trace

  // ----- filterUnresolved

  /** Some dependent supersedes the insight. */
  predicate Superseded(deps: seq<Dependency>) {
    exists d :: d in deps && d.kind == Supersedes
  }

  /** The insights, in order, that no dependent supersedes; the first failed
      query aborts the filter with its error. */
  function Unresolved(insights: seq<Insight>, lookup: Lookup): Result<seq<Insight>> {
    if insights == [] then Ok([])
    else
      var last := insights[|insights| - 1];
      match Unresolved(insights[..|insights| - 1], lookup)
      case Err(e) => Err(e)
      case Ok(kept) =>
        match lookup(last.id)
        case Err(e) => Err(e)
        case Ok(deps) => Ok(kept + if Superseded(deps) then [] else [last])
  }

  /** Once a prefix fails, the whole filter fails with the same error. */
  lemma {:induction false} UnresolvedErrorStays(insights: seq<Insight>, lookup: Lookup, j: nat)
    requires j <= |insights| && Unresolved(insights[..j], lookup).Err?
    ensures Unresolved(insights, lookup) == Unresolved(insights[..j], lookup)
    decreases |insights| - j
  {
    if j < |insights| {
      var n := |insights| - 1;
      assert insights[..n][..j] == insights[..j];
      UnresolvedErrorStays(insights[..n], lookup, j);
    } else {
      assert insights[..j] == insights;
    }
  }

  /** `filterUnresolved`: a loop over the insights with an inner search for
      a supersedes edge. */
  method FilterUnresolved(insights: seq<Insight>, lookup: Lookup) returns (r: Result<seq<Insight>>)
    ensures r == Unresolved(insights, lookup)
  {
    var kept: seq<Insight> := [];
    var i := 0;
    while i < |insights|
      invariant 0 <= i <= |insights|
      invariant Unresolved(insights[..i], lookup) == Ok(kept)
    {
      assert insights[..i + 1][..i] == insights[..i] && insights[..i + 1][i] == insights[i];
      var deps := lookup(insights[i].id);
      if deps.Err? {
        UnresolvedErrorStays(insights, lookup, i + 1);
        return Err(deps.error);
      }
      var isSuperseded := false;
      var k := 0;
      while k < |deps.value|
        invariant 0 <= k <= |deps.value|
        invariant isSuperseded <==> Superseded(deps.value[..k])
      {
        assert deps.value[..k + 1] == deps.value[..k] + [deps.value[k]];
        if deps.value[k].kind == Supersedes {
          isSuperseded := true;
          assert deps.value[k] in deps.value[..k + 1];
          assert Superseded(deps.value);
          break;
        }
        k := k + 1;
      }
      assert k == |deps.value| ==> deps.value[..k] == deps.value;
      assert isSuperseded <==> Superseded(deps.value);
      assert kept + [] == kept;
      if !isSuperseded {
        kept := kept + [insights[i]];
      }
      i := i + 1;
    }
    assert insights[..i] == insights;
    r := Ok(kept);
  }

  lemma {:induction false} UnresolvedErrors(insights: seq<Insight>, lookup: Lookup)
    ensures Unresolved(insights, lookup).Ok? <==> forall k :: 0 <= k < |insights| ==> lookup(insights[k].id).Ok?
    ensures Unresolved(insights, lookup).Err? ==>
      exists k :: 0 <= k < |insights| && lookup(insights[k].id) == Err(Unresolved(insights, lookup).error) &&
        forall j :: 0 <= j < k ==> lookup(insights[j].id).Ok?
  {
    if insights != [] {
      var n := |insights| - 1;
      UnresolvedErrors(insights[..n], lookup);
      assert forall k :: 0 <= k < n ==> insights[..n][k] == insights[k];
    }
  }

  /** The filter keeps exactly the insights whose query succeeds and shows
      no supersedes edge. */
  lemma {:induction false} UnresolvedMembers(insights: seq<Insight>, lookup: Lookup, x: Insight)
    requires Unresolved(insights, lookup).Ok?
    ensures x in Unresolved(insights, lookup).value <==>
      x in insights && lookup(x.id).Ok? && !Superseded(lookup(x.id).value)
  {
    if insights != [] {
      var n := |insights| - 1;
      UnresolvedMembers(insights[..n], lookup, x);
      assert insights == insights[..n] + [insights[n]];
      UnresolvedErrors(insights, lookup);
      if x in insights[..n] {
        var k :| 0 <= k < n && insights[..n][k] == x;
        assert insights[k] == x;
      }
    }
  }

  /** The filter keeps the newest-first order of the listing. */
  lemma {:induction false} UnresolvedNewestFirst(insights: seq<Insight>, lookup: Lookup)
    requires Unresolved(insights, lookup).Ok?
    requires forall i, j :: 0 <= i < j < |insights| ==> insights[i].timestamp >= insights[j].timestamp
    ensures var r := Unresolved(insights, lookup).value;
      forall i, j :: 0 <= i < j < |r| ==> r[i].timestamp >= r[j].timestamp
  {
    if insights != [] {
      var n := |insights| - 1;
      var last := insights[n];
      var kept := Unresolved(insights[..n], lookup).value;
      UnresolvedNewestFirst(insights[..n], lookup);
      forall i | 0 <= i < |kept|
        ensures kept[i].timestamp >= last.timestamp
      {
        UnresolvedMembers(insights[..n], lookup, kept[i]);
        var k :| 0 <= k < n && insights[..n][k] == kept[i];
        assert insights[k] == kept[i];
      }
    }
  }

  // ----- the command

  /** Over a store, the filter cannot fail. */
  lemma StoreUnresolvedOk(t: Tables, insights: seq<Insight>)
    ensures Unresolved(insights, DependentsLookup(t)).Ok?
  {
    UnresolvedErrors(insights, DependentsLookup(t));
  }

  /** The header above the list: the thread's title (with a note when only
      unresolved questions show) when the thread can be read, a heading
      when all threads' unresolved questions show, otherwise none. */
  datatype QuestionsHeader = NoHeader | ThreadHeader(title: string, unresolvedNote: bool) | UnresolvedHeading

  /** Nothing to show: the message names the thread and the filter given. */
  datatype QuestionsView =
    | NoQuestions(threadId: string, unresolvedOnly: bool)
    | QuestionList(header: QuestionsHeader, lines: seq<InsightLine>)

  ghost function Shown(t: Tables, threadId: string, unresolvedOnly: bool): seq<Insight>
    requires WellFormed(t)
  {
    var listed := ListInsightsIn(t, threadId, Question, ZeroTime);
    StoreUnresolvedOk(t, listed);
    if unresolvedOnly then Unresolved(listed, DependentsLookup(t)).value else listed
  }

  ghost function QuestionsOf(t: Tables, threadId: string, unresolvedOnly: bool): QuestionsView
    requires WellFormed(t)
  {
    var shown := Shown(t, threadId, unresolvedOnly);
    if shown == [] then NoQuestions(threadId, unresolvedOnly)
    else
      var header :=
        if threadId != "" then
          (if ThreadIn(t, threadId).Ok? then ThreadHeader(ThreadIn(t, threadId).value.title, unresolvedOnly) else NoHeader)
        else if unresolvedOnly then UnresolvedHeading
        else NoHeader;
      QuestionList(header, LinesOf(t, Reversed(shown)))
  }

  /** The questions shown are the stored questions of the thread (of all
      threads when none is given), with `--unresolved` exactly those that
      no stored edge supersedes. */
  lemma QuestionsShown(t: Tables, threadId: string, unresolvedOnly: bool, x: Insight)
    requires WellFormed(t)
    ensures x in Shown(t, threadId, unresolvedOnly) <==>
      x in Insights(t) && x.kind == Question && (threadId == "" || x.threadId == threadId) &&
      (unresolvedOnly ==> forall d :: d in t.deps && d.to == x.id ==> d.kind != Supersedes)
  {
    var listed := ListInsightsIn(t, threadId, Question, ZeroTime);
    ListInsightsMembers(t, threadId, Question, ZeroTime, x);
    if unresolvedOnly {
      StoreUnresolvedOk(t, listed);
      UnresolvedMembers(listed, DependentsLookup(t), x);
      var deps := DependentsIn(t, x.id);
      assert DependentsLookup(t)(x.id) == Ok(deps);
      assert Superseded(deps) <==> exists d :: d in t.deps && d.to == x.id && d.kind == Supersedes;
    }
  }

  /** The questions shown run newest first, as listed. */
  lemma ShownNewestFirst(t: Tables, threadId: string, unresolvedOnly: bool)
    requires WellFormed(t)
    ensures var shown := Shown(t, threadId, unresolvedOnly);
      forall i, j :: 0 <= i < j < |shown| ==> shown[i].timestamp >= shown[j].timestamp
  {
    var listed := ListInsightsIn(t, threadId, Question, ZeroTime);
    ListInsightsNewestFirst(t, threadId, Question, ZeroTime);
    StoreUnresolvedOk(t, listed);
    if unresolvedOnly {
      UnresolvedNewestFirst(listed, DependentsLookup(t));
    }
  }

  /** The questions run oldest first. */
  lemma QuestionsOldestFirst(t: Tables, threadId: string, unresolvedOnly: bool)
    requires WellFormed(t)
    ensures var v := QuestionsOf(t, threadId, unresolvedOnly);
      v.QuestionList? ==> forall i, j :: 0 <= i < j < |v.lines| ==> v.lines[i].timestamp <= v.lines[j].timestamp
  {
    var shown := Shown(t, threadId, unresolvedOnly);
    ShownNewestFirst(t, threadId, unresolvedOnly);
    ReversedLinesAscend(t, shown);
    var v := QuestionsOf(t, threadId, unresolvedOnly);
    if v.QuestionList? {
      assert v.lines == LinesOf(t, Reversed(shown));
    }
  }

  /** `runQuestions`. */
  method RunQuestions(session: Session, threadId: string, unresolvedOnly: bool) returns (r: Result<QuestionsView>)
    requires session.Valid()
    modifies session, session.db, session.Held()
    ensures session.Finished(old(session.Current()), old(session.SchemaAfterOpen()))
    ensures old(session.OpenError()).Some? ==> r == Err(old(session.OpenError()).value)
    ensures old(session.OpenError()).None? ==> r == Ok(QuestionsOf(old(session.Current()), threadId, unresolvedOnly))
  {
    var s := session.GetStore();
    if s.Err? {
      return Err(s.error);
    }
    var view := ShowQuestions(s.value, threadId, unresolvedOnly);
    session.CloseStore();
    return Ok(view);
  }

  /** The queries and the printing of `questions` on an open store. */
  method ShowQuestions(st: Store, threadId: string, unresolvedOnly: bool) returns (v: QuestionsView)
    requires st.Valid()
    ensures v == QuestionsOf(st.Snapshot(), threadId, unresolvedOnly)
  {
    var t := st.Snapshot();
    var insights := st.ListInsights(threadId, Question, ZeroTime);
    if unresolvedOnly {
      StoreUnresolvedOk(t, insights);
      var filtered := FilterUnresolved(insights, DependentsLookup(t));
      insights := filtered.value;
    }
    assert insights == Shown(t, threadId, unresolvedOnly);
    if insights == [] {
      return NoQuestions(threadId, unresolvedOnly);
    }
    var header := NoHeader;
    if threadId != "" {
      var th := st.GetThread(threadId);
      if th.Ok? {
        header := ThreadHeader(th.value.title, unresolvedOnly);
      }
    } else if unresolvedOnly {
      header := UnresolvedHeading;
    }
    var oldestFirst := ReverseSlice(insights);
    var lines := PrintLines(st, oldestFirst);
    return QuestionList(header, lines);
  }
}
