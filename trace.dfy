/** `bdc trace`: the insights that spawn a bead, each followed backwards
    through builds-on and supersedes edges to where its line of thought
    began. */
module Trace {
  import opened Wrappers
  import opened Text
  import opened Types
  import opened Storage
  import opened Root
  import opened Beads
  import opened Timeline

  /** A store query that may fail: the dependency edges of one id. */
  type Lookup = string -> Result<seq<Dependency>>

  /** `GetDependents` of a store holding `t`. */
  function DependentsLookup(t: Tables): Lookup {
    (x: string) => Ok(DependentsIn(t, x))
  }

  /** `GetDependencies` of a store holding `t`. */
  function DependenciesLookup(t: Tables): Lookup {
    (x: string) => Ok(DependenciesIn(t, x))
  }

  // ----- traceChain

  /** `chainItem`. */
  datatype ChainItem = ChainItem(insightId: string, relation: string)

  predicate IsLinkKind(kind: string) {
    kind == BuildsOn || kind == Supersedes
  }

  /** The position of the edge the walk follows: the first builds-on or
      supersedes edge, in query order. */
  function FirstLink(deps: seq<Dependency>): (r: Option<nat>)
    ensures r.Some? ==> r.value < |deps| && IsLinkKind(deps[r.value].kind)
    ensures r.Some? ==> forall j :: 0 <= j < r.value ==> !IsLinkKind(deps[j].kind)
    ensures r.None? ==> forall j :: 0 <= j < |deps| ==> !IsLinkKind(deps[j].kind)
  {
    if deps == [] then None
    else if IsLinkKind(deps[0].kind) then Some(0)
    else
      match FirstLink(deps[1..])
      case None => None
      case Some(k) => Some(k + 1)
  }

  /** The node the walk moves to and the relation recorded for the current
      node; ("", "") when no edge qualifies. */
  function Step(deps: seq<Dependency>): (r: (string, string))
    ensures r.1 == "" || IsLinkKind(r.1)
    ensures r.0 != "" ==> IsLinkKind(r.1)
  {
    match FirstLink(deps)
    case None => ("", "")
    case Some(k) => (deps[k].from, deps[k].kind)
  }

  /** Every node the query can lead to lies in `universe`. */
  ghost predicate Closed(lookup: Lookup, universe: set<string>) {
    forall x: string, d: Dependency :: lookup(x).Ok? && d in lookup(x).value ==> d.from in universe
  }

  /** The walk of `traceChain` from `current`, having visited `visited`
      and built `chain` so far. */
  ghost function Walk(lookup: Lookup, universe: set<string>, current: string, visited: set<string>, chain: seq<ChainItem>): seq<ChainItem>
    requires Closed(lookup, universe) && (current == "" || current in universe)
    decreases |universe - visited|
  {
    if current == "" || current in visited || lookup(current).Err? then chain
    else
      var deps := lookup(current).value;
      var next := Step(deps);
      assert next.0 == "" || next.0 in universe by {
        if next.0 != "" {
          assert deps[FirstLink(deps).value] in deps;
        }
      }
      assert universe - visited == (universe - (visited + {current})) + {current};
      Walk(lookup, universe, next.0, visited + {current}, [ChainItem(current, next.1)] + chain)
  }

  /** One step of the walk from a node whose query succeeds. */
  lemma WalkStep(lookup: Lookup, universe: set<string>, current: string, visited: set<string>, chain: seq<ChainItem>)
    requires Closed(lookup, universe) && current != "" && current in universe && current !in visited && lookup(current).Ok?
    ensures var next := Step(lookup(current).value);
      (next.0 == "" || next.0 in universe) &&
      |universe - (visited + {current})| < |universe - visited| &&
      Walk(lookup, universe, current, visited, chain) ==
        Walk(lookup, universe, next.0, visited + {current}, [ChainItem(current, next.1)] + chain)
  {
    var deps := lookup(current).value;
    var next := Step(deps);
    if next.0 != "" {
      assert deps[FirstLink(deps).value] in deps;
    }
    assert universe - visited == (universe - (visited + {current})) + {current};
  }

  /** `traceChain`: prepends each visited node and moves to the node its
      first builds-on or supersedes dependent comes from; it stops at ""
      or at a node seen before, so it ends on every graph, cycles
      included, and a failed query ends it without adding the node. */
  method TraceChain(start: string, lookup: Lookup, ghost universe: set<string>) returns (chain: seq<ChainItem>)
    requires Closed(lookup, universe) && (start == "" || start in universe)
    ensures chain == Walk(lookup, universe, start, {}, [])
    ensures lookup(start).Err? ==> chain == []
  {
    chain := [];
    var visited: set<string> := {};
    var current := start;
    while current != "" && current !in visited
      invariant current == "" || current in universe
      invariant Walk(lookup, universe, current, visited, chain) == Walk(lookup, universe, start, {}, [])
      decreases |universe - visited|
    {
      ghost var seen := visited;
      visited := visited + {current};
      var found := lookup(current);
      if found.Err? {
        assert chain == Walk(lookup, universe, current, seen, chain);
        break;
      }
      var prevId, relation := FindLink(found.value);
      WalkStep(lookup, universe, current, seen, chain);
      chain := [ChainItem(current, relation)] + chain;
      current := prevId;
    }
  }

  /** The inner loop of `traceChain`: the first builds-on or supersedes
      edge, as the node it comes from and its kind. */
  method FindLink(deps: seq<Dependency>) returns (prevId: string, relation: string)
    ensures (prevId, relation) == Step(deps)
  {
    prevId, relation := "", "";
    var k := 0;
    while k < |deps|
      invariant 0 <= k <= |deps|
      invariant forall j :: 0 <= j < k ==> !IsLinkKind(deps[j].kind)
      invariant prevId == "" && relation == ""
    {
      if deps[k].kind == BuildsOn || deps[k].kind == Supersedes {
        prevId, relation := deps[k].from, deps[k].kind;
        break;
      }
      k := k + 1;
    }
  }

  predicate DistinctIds(chain: seq<ChainItem>) {
    forall i, j :: 0 <= i < j < |chain| ==> chain[i].insightId != chain[j].insightId
  }

  lemma {:induction false} WalkDistinct(lookup: Lookup, universe: set<string>, current: string, visited: set<string>, chain: seq<ChainItem>)
    requires Closed(lookup, universe) && (current == "" || current in universe)
    requires DistinctIds(chain) && forall i :: 0 <= i < |chain| ==> chain[i].insightId in visited
    ensures DistinctIds(Walk(lookup, universe, current, visited, chain))
    decreases |universe - visited|
  {
    if current != "" && current !in visited && lookup(current).Ok? {
      var next := Step(lookup(current).value);
      WalkStep(lookup, universe, current, visited, chain);
      var chain' := [ChainItem(current, next.1)] + chain;
      assert forall i :: 1 <= i < |chain'| ==> chain'[i] == chain[i - 1];
      WalkDistinct(lookup, universe, next.0, visited + {current}, chain');
    }
  }

  /** No insight appears twice in a traced chain. */
  lemma TraceChainDistinct(lookup: Lookup, universe: set<string>, start: string)
    requires Closed(lookup, universe) && (start == "" || start in universe)
    ensures DistinctIds(Walk(lookup, universe, start, {}, []))
  {
    WalkDistinct(lookup, universe, start, {}, []);
  }

  lemma {:induction false} WalkExtends(lookup: Lookup, universe: set<string>, current: string, visited: set<string>, chain: seq<ChainItem>)
    requires Closed(lookup, universe) && (current == "" || current in universe)
    ensures var r := Walk(lookup, universe, current, visited, chain);
      |chain| <= |r| && r[|r| - |chain|..] == chain
    decreases |universe - visited|
  {
    if current != "" && current !in visited && lookup(current).Ok? {
      var next := Step(lookup(current).value);
      WalkStep(lookup, universe, current, visited, chain);
      var chain' := [ChainItem(current, next.1)] + chain;
      WalkExtends(lookup, universe, next.0, visited + {current}, chain');
      SuffixOfSuffix(Walk(lookup, universe, current, visited, chain), ChainItem(current, next.1), chain);
    }
  }

  /** Ending with `[x] + chain` is ending with `chain`. */
  lemma SuffixOfSuffix<T>(r: seq<T>, x: T, chain: seq<T>)
    requires |[x] + chain| <= |r| && r[|r| - |[x] + chain|..] == [x] + chain
    ensures |chain| <= |r| && r[|r| - |chain|..] == chain
  {
    assert r[|r| - |chain|..] == r[|r| - |[x] + chain|..][1..];
  }

  /** When the first query succeeds, the chain ends at the start node. */
  lemma TraceEndsAtStart(lookup: Lookup, universe: set<string>, start: string)
    requires Closed(lookup, universe) && start in universe && start != ""
    requires lookup(start).Ok?
    ensures var r := Walk(lookup, universe, start, {}, []);
      r != [] && r[|r| - 1].insightId == start
  {
    var next := Step(lookup(start).value);
    var none: set<string> := {};
    var empty: seq<ChainItem> := [];
    WalkStep(lookup, universe, start, none, empty);
    WalkExtends(lookup, universe, next.0, none + {start}, [ChainItem(start, next.1)] + empty);
    var r := Walk(lookup, universe, start, none, empty);
    assert r[|r| - 1] == r[|r| - 1..][0];
  }

  /** `item`'s node was queried and its walk step leads to `prev`. */
  ghost predicate LinksTo(lookup: Lookup, item: ChainItem, prev: string) {
    lookup(item.insightId).Ok? && Step(lookup(item.insightId).value) == (prev, item.relation)
  }

  /** Each node after the first is reached over a builds-on or supersedes
      edge from the node before it, the first such edge of its query. */
  ghost predicate Linked(lookup: Lookup, chain: seq<ChainItem>) {
    (forall i :: 0 <= i < |chain| ==> chain[i].insightId != "" && lookup(chain[i].insightId).Ok?)
    && (forall i :: 1 <= i < |chain| ==> LinksTo(lookup, chain[i], chain[i - 1].insightId) && IsLinkKind(chain[i].relation))
  }

  lemma {:induction false} WalkLinked(lookup: Lookup, universe: set<string>, current: string, visited: set<string>, chain: seq<ChainItem>)
    requires Closed(lookup, universe) && (current == "" || current in universe)
    requires Linked(lookup, chain) && (chain != [] ==> LinksTo(lookup, chain[0], current))
    ensures Linked(lookup, Walk(lookup, universe, current, visited, chain))
    decreases |universe - visited|
  {
    if current != "" && current !in visited && lookup(current).Ok? {
      var next := Step(lookup(current).value);
      WalkStep(lookup, universe, current, visited, chain);
      var chain' := [ChainItem(current, next.1)] + chain;
      assert forall i :: 1 <= i < |chain'| ==> chain'[i] == chain[i - 1];
      if chain != [] {
        assert LinksTo(lookup, chain'[1], chain'[0].insightId);
        assert IsLinkKind(chain'[1].relation);
      }
      assert Linked(lookup, chain');
      WalkLinked(lookup, universe, next.0, visited + {current}, chain');
    }
  }

  /** Every node of a traced chain was queried successfully, and each
      node after the first is linked to its predecessor. */
  lemma TraceChainLinked(lookup: Lookup, universe: set<string>, start: string)
    requires Closed(lookup, universe) && (start == "" || start in universe)
    ensures Linked(lookup, Walk(lookup, universe, start, {}, []))
  {
    WalkLinked(lookup, universe, start, {}, []);
  }

  // ----- the spawning insights

  /** Some edge of `deps` is a spawns edge to the bead. */
  predicate HasSpawnEdge(deps: seq<Dependency>, beadId: string) {
    exists d :: d in deps && d.to == beadId && d.kind == Spawns
  }

  /** Some insight of `insights` has id `x`. */
  predicate Listed(insights: seq<Insight>, x: string) {
    exists k :: 0 <= k < |insights| && insights[k].id == x
  }

  /** One copy of `id` per spawns edge to the bead. */
  function SpawnsFrom(id: string, deps: seq<Dependency>, beadId: string): (r: seq<string>)
    ensures forall x :: x in r <==> x == id && HasSpawnEdge(deps, beadId)
  {
    if deps == [] then []
    else
      var last := deps[|deps| - 1];
      assert forall d :: d in deps <==> d in deps[..|deps| - 1] || d == last;
      SpawnsFrom(id, deps[..|deps| - 1], beadId) + (if last.to == beadId && last.kind == Spawns then [id] else [])
  }

  /** The insights, in list order, with a spawns edge to the bead; an
      insight whose query fails is skipped. */
  function SpawningIds(insights: seq<Insight>, lookup: Lookup, beadId: string): seq<string>
  {
    if insights == [] then []
    else
      var last := insights[|insights| - 1];
      SpawningIds(insights[..|insights| - 1], lookup, beadId)
        + (if lookup(last.id).Ok? then SpawnsFrom(last.id, lookup(last.id).value, beadId) else [])
  }

  lemma ListedSnoc(insights: seq<Insight>, x: string)
    requires insights != []
    ensures Listed(insights, x) <==> Listed(insights[..|insights| - 1], x) || insights[|insights| - 1].id == x
  {
    var n := |insights| - 1;
    if Listed(insights, x) {
      var k :| 0 <= k < |insights| && insights[k].id == x;
      if k < n {
        assert insights[..n][k] == insights[k];
      }
    }
    if Listed(insights[..n], x) {
      var k :| 0 <= k < n && insights[..n][k].id == x;
      assert insights[k] == insights[..n][k];
    }
  }

  /** The search finds exactly the listed insights whose query succeeds
      and holds a spawns edge to the bead. */
  lemma {:induction false} SpawningMembers(insights: seq<Insight>, lookup: Lookup, beadId: string, x: string)
    ensures x in SpawningIds(insights, lookup, beadId) <==>
      Listed(insights, x) && lookup(x).Ok? && HasSpawnEdge(lookup(x).value, beadId)
  {
    if insights != [] {
      SpawningMembers(insights[..|insights| - 1], lookup, beadId, x);
      ListedSnoc(insights, x);
    }
  }

  /** The nested search loop of `runTrace`. */
  method FindSpawning(insights: seq<Insight>, lookup: Lookup, beadId: string) returns (found: seq<string>)
    ensures found == SpawningIds(insights, lookup, beadId)
  {
    found := [];
    var i := 0;
    while i < |insights|
      invariant 0 <= i <= |insights|
      invariant found == SpawningIds(insights[..i], lookup, beadId)
    {
      var id := insights[i].id;
      assert insights[..i + 1][..i] == insights[..i];
      var deps := lookup(id);
      if deps.Ok? {
        var k := 0;
        ghost var before := found;
        while k < |deps.value|
          invariant 0 <= k <= |deps.value|
          invariant found == before + SpawnsFrom(id, deps.value[..k], beadId)
        {
          var d := deps.value[k];
          assert deps.value[..k + 1][..k] == deps.value[..k];
          if d.to == beadId && d.kind == Spawns {
            found := found + [id];
          }
          k := k + 1;
        }
        assert deps.value[..k] == deps.value;
      }
      i := i + 1;
    }
    assert insights[..i] == insights;
  }

  // ----- printing a chain

  /** `truncateForTrace`: newlines become spaces, then the keep-or-cut
      rule. */
  function TruncateForTrace(s: string, maxLen: int): (r: string)
    requires |s| <= maxLen || 3 <= maxLen
    ensures '\n' !in r
    ensures |s| <= maxLen ==> r == ReplaceChar(s, '\n', ' ')
    ensures |s| > maxLen ==> |r| == maxLen && HasSuffix(r, "...")
  {
    Truncate(ReplaceChar(s, '\n', ' '), maxLen)
  }

  /** The insights by id; a later insight with the same id wins. */
  function ById(insights: seq<Insight>): (m: map<string, Insight>)
    ensures forall id :: id in m <==> exists k :: 0 <= k < |insights| && insights[k].id == id
    ensures forall id :: id in m ==> m[id] in insights && m[id].id == id
  {
    if insights == [] then map[]
    else
      var last := insights[|insights| - 1];
      ById(insights[..|insights| - 1])[last.id := last]
  }

  /** What follows a line of the trace: the relation to the next node,
      or, after the last node, the bead it spawns. */
  datatype Trailer = Relation(kind: string) | SpawnsBead(beadId: string)

  datatype TraceLine = TraceLine(symbol: string, text: string, typeLabel: string, trailer: Trailer)

  function LineAt(chain: seq<ChainItem>, ins: Insight, beadId: string, i: nat): TraceLine
    requires i < |chain|
  {
    TraceLine(InsightSymbol(ins.kind), TruncateForTrace(ins.content, 50), TypeLabel(ins.kind),
      if i < |chain| - 1 then Relation(chain[i + 1].relation) else SpawnsBead(beadId))
  }

  /** The printed lines of the first `n` chain items; an item whose
      insight is not listed is skipped. */
  function ChainLinesUpTo(chain: seq<ChainItem>, byId: map<string, Insight>, beadId: string, n: nat): (r: seq<TraceLine>)
    requires n <= |chain|
    ensures |r| <= n
    ensures (forall i :: 0 <= i < n ==> chain[i].insightId in byId) ==>
      |r| == n && forall i :: 0 <= i < n ==> r[i] == LineAt(chain, byId[chain[i].insightId], beadId, i)
  {
    if n == 0 then []
    else
      var id := chain[n - 1].insightId;
      ChainLinesUpTo(chain, byId, beadId, n - 1) + (if id in byId then [LineAt(chain, byId[id], beadId, n - 1)] else [])
  }

  function ChainLines(chain: seq<ChainItem>, byId: map<string, Insight>, beadId: string): seq<TraceLine> {
    ChainLinesUpTo(chain, byId, beadId, |chain|)
  }

  /** With every insight listed, the trace prints one line per chain node;
      each but the last names the relation by which the next node was
      reached, and the last names the bead. */
  lemma ChainLinesTrailers(chain: seq<ChainItem>, byId: map<string, Insight>, beadId: string)
    requires chain != [] && forall i :: 0 <= i < |chain| ==> chain[i].insightId in byId
    ensures var r := ChainLines(chain, byId, beadId);
      |r| == |chain| && r[|r| - 1].trailer == SpawnsBead(beadId) &&
      forall i :: 0 <= i < |r| - 1 ==> r[i].trailer == Relation(chain[i + 1].relation)
  {
  }

  // ----- the command

  /** No spawning insight: the message, with the note about a missing
      `.beads/` directory when beads is absent. Otherwise one printed
      chain per spawning insight. */
  datatype TraceView = NoSpawners(noBeadsNote: bool) | Traces(chains: seq<seq<TraceLine>>)

  /** The nodes a walk over `t` can reach from `start`. */
  ghost function Universe(t: Tables, start: string): set<string> {
    {start} + set d | d in t.deps :: d.from
  }

  lemma DependentsClosed(t: Tables, start: string)
    ensures Closed(DependentsLookup(t), Universe(t, start))
  {
    forall x: string, d: Dependency | DependentsLookup(t)(x).Ok? && d in DependentsLookup(t)(x).value
      ensures d.from in Universe(t, start)
    {
      assert d in DependentsIn(t, x);
    }
  }

  /** The printed chain that ends at `start`. */
  ghost function ChainOf(t: Tables, start: string, byId: map<string, Insight>, beadId: string): seq<TraceLine> {
    DependentsClosed(t, start);
    ChainLines(Walk(DependentsLookup(t), Universe(t, start), start, {}, []), byId, beadId)
  }

  ghost function ChainsOf(t: Tables, starts: seq<string>, byId: map<string, Insight>, beadId: string): (r: seq<seq<TraceLine>>)
    ensures |r| == |starts|
  {
    if starts == [] then []
    else
      ChainsOf(t, starts[..|starts| - 1], byId, beadId) + [ChainOf(t, starts[|starts| - 1], byId, beadId)]
  }

  ghost function TraceOf(t: Tables, beadId: string, beadsPresent: bool): TraceView
    requires WellFormed(t)
  {
    var all := ListInsightsIn(t, "", "", ZeroTime);
    var spawning := SpawningIds(all, DependenciesLookup(t), beadId);
    if spawning == [] then NoSpawners(!beadsPresent)
    else Traces(ChainsOf(t, spawning, ById(all), beadId))
  }

  lemma ListedSame(a: seq<Insight>, b: seq<Insight>, x: string)
    requires forall ins :: ins in a <==> ins in b
    ensures Listed(a, x) <==> exists ins :: ins in b && ins.id == x
  {
    if Listed(a, x) {
      var k :| 0 <= k < |a| && a[k].id == x;
      assert a[k] in b;
    }
    if exists ins :: ins in b && ins.id == x {
      var ins :| ins in b && ins.id == x;
      var k :| 0 <= k < |a| && a[k] == ins;
    }
  }

  lemma ListedAll(t: Tables, x: string)
    requires WellFormed(t)
    ensures Listed(ListInsightsIn(t, "", "", ZeroTime), x) <==> exists ins :: ins in Insights(t) && ins.id == x
  {
    forall ins
      ensures ins in ListInsightsIn(t, "", "", ZeroTime) <==> ins in Insights(t)
    {
      ListInsightsMembers(t, "", "", ZeroTime, ins);
    }
    ListedSame(ListInsightsIn(t, "", "", ZeroTime), Insights(t), x);
  }

  lemma SpawnEdgeStored(t: Tables, beadId: string, x: string)
    ensures HasSpawnEdge(DependenciesIn(t, x), beadId) <==>
      exists d :: d in t.deps && d.from == x && d.to == beadId && d.kind == Spawns
  {
    if exists d :: d in t.deps && d.from == x && d.to == beadId && d.kind == Spawns {
      var d :| d in t.deps && d.from == x && d.to == beadId && d.kind == Spawns;
      assert d in DependenciesIn(t, x);
    }
  }

  /** The insights the trace starts from are exactly the stored insights
      with a spawns edge to the bead. */
  lemma TraceStartsAtSpawners(t: Tables, beadId: string, x: string)
    requires WellFormed(t)
    ensures x in SpawningIds(ListInsightsIn(t, "", "", ZeroTime), DependenciesLookup(t), beadId) <==>
      (exists ins :: ins in Insights(t) && ins.id == x) &&
      exists d :: d in t.deps && d.from == x && d.to == beadId && d.kind == Spawns
  {
    assert DependenciesLookup(t)(x) == Ok(DependenciesIn(t, x));
    SpawningMembers(ListInsightsIn(t, "", "", ZeroTime), DependenciesLookup(t), beadId, x);
    ListedAll(t, x);
    SpawnEdgeStored(t, beadId, x);
  }

  /** The printing loop of `runTrace`: one chain per spawning insight. */
  method TraceAll(t: Tables, spawning: seq<string>, byId: map<string, Insight>, beadId: string) returns (chains: seq<seq<TraceLine>>)
    ensures chains == ChainsOf(t, spawning, byId, beadId)
  {
    chains := [];
    var i := 0;
    while i < |spawning|
      invariant 0 <= i <= |spawning|
      invariant chains == ChainsOf(t, spawning[..i], byId, beadId)
    {
      var start := spawning[i];
      DependentsClosed(t, start);
      var chain := TraceChain(start, DependentsLookup(t), Universe(t, start));
      var lines := ChainLines(chain, byId, beadId);
      assert lines == ChainOf(t, start, byId, beadId);
      assert spawning[..i + 1][..i] == spawning[..i] && spawning[..i + 1][i] == start;
      assert ChainsOf(t, spawning[..i + 1], byId, beadId) == ChainsOf(t, spawning[..i], byId, beadId) + [ChainOf(t, start, byId, beadId)];
      chains := chains + [lines];
      i := i + 1;
    }
    assert spawning[..i] == spawning;
  }

  /** `runTrace`: a non-bead id is refused before the store is opened. */
  method RunTrace(session: Session, beadId: string, beadsPresent: bool) returns (r: Result<TraceView>)
    requires session.Valid()
    modifies session, session.db, session.Held()
    ensures !IsBeadID(beadId) ==>
      r == Err(InvalidBeadId(beadId)) && unchanged(session, session.db) && unchanged(session.Held()) && session.Valid()
    ensures IsBeadID(beadId) ==> session.Finished(old(session.Current()), old(session.SchemaAfterOpen()))
    ensures IsBeadID(beadId) && old(session.OpenError()).Some? ==> r == Err(old(session.OpenError()).value)
    ensures IsBeadID(beadId) && old(session.OpenError()).None? ==> r == Ok(TraceOf(old(session.Current()), beadId, beadsPresent))
  {
    if !IsBeadID(beadId) {
      return Err(InvalidBeadId(beadId));
    }
    ghost var t0 := session.Current();
    var s := session.GetStore();
    if s.Err? {
      return Err(s.error);
    }
    var st := s.value;
    var t := st.Snapshot();
    assert t == t0 && WellFormed(t);
    var all := st.ListInsights("", "", ZeroTime);
    var byId := BuildInsightMap(all);
    var spawning := FindSpawning(all, DependenciesLookup(t), beadId);
    if spawning == [] {
      session.CloseStore();
      return Ok(NoSpawners(!beadsPresent));
    }
    var chains := TraceAll(t, spawning, byId, beadId);
    session.CloseStore();
    return Ok(Traces(chains));
  }

  /** The loop of `runTrace` that fills `insightMap`. */
  method BuildInsightMap(insights: seq<Insight>) returns (m: map<string, Insight>)
    ensures m == ById(insights)
  {
    m := map[];
    var i := 0;
    while i < |insights|
      invariant 0 <= i <= |insights|
      invariant m == ById(insights[..i])
    {
      assert insights[..i + 1][..i] == insights[..i];
      m := m[insights[i].id := insights[i]];
      i := i + 1;
    }
    assert insights[..i] == insights;
  }
}
