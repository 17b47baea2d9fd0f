/** `bdc show`: the details of an insight or of a thread, chosen by the
    identifier's prefix. */
module Show {
  import opened Wrappers
  import opened Text
  import opened Types
  import opened Storage
  import opened Root
  import opened Threads

  /** An insight with the edges that leave it and the edges that reach it,
      each list oldest first. */
  datatype InsightDetails = InsightDetails(insight: Insight, dependencies: seq<Dependency>, dependents: seq<Dependency>)

  datatype ShowView = InsightShown(details: InsightDetails) | ThreadShown(thread: ThreadDetails)

  ghost function InsightShowOf(t: Tables, id: string): Result<InsightDetails> {
    match InsightIn(t, id)
    case Err(e) => Err(Wrapped("failed to get insight", e))
    case Ok(ins) => Ok(InsightDetails(ins, DependenciesIn(t, id), DependentsIn(t, id)))
  }

  /** `showInsight`: the edge queries' failures are not reported. */
  method ShowInsight(st: Store, id: string) returns (r: Result<InsightDetails>)
    requires st.Valid()
    ensures r == InsightShowOf(st.Snapshot(), id)
  {
    var insight := st.GetInsight(id);
    if insight.Err? {
      return Err(Wrapped("failed to get insight", insight.error));
    }
    var depsFrom := st.GetDependencies(id);
    var depsTo := st.GetDependents(id);
    return Ok(InsightDetails(insight.value, depsFrom, depsTo));
  }

  /** Showing an insight fails exactly for an unknown one; otherwise it
      shows the stored insight with exactly the stored edges that leave it
      and exactly those that reach it. */
  lemma InsightShowEdges(t: Tables, id: string, d: Dependency)
    requires WellFormed(t)
    ensures InsightShowOf(t, id).Err? <==> id !in t.insights
    ensures InsightShowOf(t, id).Ok? ==>
      var v := InsightShowOf(t, id).value;
      v.insight.id == id && v.insight in Insights(t) &&
      (d in v.dependencies <==> d in t.deps && d.from == id) &&
      (d in v.dependents <==> d in t.deps && d.to == id)
  {
    if id in t.insights {
      StoredInsightListed(t, id);
    }
  }

  ghost function ShowOf(t: Tables, id: string): Result<ShowView>
    requires WellFormed(t)
  {
    if HasPrefix(id, "ins-") then
      match InsightShowOf(t, id)
      case Err(e) => Err(e)
      case Ok(v) => Ok(InsightShown(v))
    else if HasPrefix(id, "thr-") then
      match ThreadShowOf(t, id)
      case Err(e) => Err(e)
      case Ok(v) => Ok(ThreadShown(v))
    else Err(InvalidIdFormat(id))
  }

  /** The prefix picks the kind of record: an `ins-` identifier is only
      ever shown as an insight, a `thr-` one only as a thread, and any other
      is refused. */
  lemma ShowDispatch(t: Tables, id: string)
    requires WellFormed(t)
    ensures ShowOf(t, id).Ok? && ShowOf(t, id).value.InsightShown? ==> HasPrefix(id, "ins-") && id in t.insights
    ensures ShowOf(t, id).Ok? && ShowOf(t, id).value.ThreadShown? ==> HasPrefix(id, "thr-") && id in t.threads
    ensures !HasPrefix(id, "ins-") && !HasPrefix(id, "thr-") ==> ShowOf(t, id) == Err(InvalidIdFormat(id))
  {
    ThreadShowFound(t, id);
    if HasPrefix(id, "ins-") {
      InsightShowEdges(t, id, Dependency("", "", "", 0));
    }
  }

  /** `show`: the store is opened before the identifier is examined. */
  method RunShow(session: Session, id: string) returns (r: Result<ShowView>)
    requires session.Valid()
    modifies session, session.db, session.Held()
    ensures session.Finished(old(session.Current()), old(session.SchemaAfterOpen()))
    ensures old(session.OpenError()).Some? ==> r == Err(old(session.OpenError()).value)
    ensures old(session.OpenError()).None? ==> r == ShowOf(old(session.Current()), id)
  {
    ghost var t0 := session.Current();
    var s := session.GetStore();
    if s.Err? {
      return Err(s.error);
    }
    var st := s.value;
    assert st.Snapshot() == t0 && WellFormed(t0);
    if HasPrefix(id, "ins-") {
      var v := ShowInsight(st, id);
      r := if v.Ok? then Ok(InsightShown(v.value)) else Err(v.error);
    } else if HasPrefix(id, "thr-") {
      var v := ShowThread(st, id);
      r := if v.Ok? then Ok(ThreadShown(v.value)) else Err(v.error);
    } else {
      r := Err(InvalidIdFormat(id));
    }
    session.CloseStore();
  }
}
