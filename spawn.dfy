/** `bdc spawn`: turns an insight into a task (a bead), either by printing
    the commands to run when beads is present or by recording a `spawns`
    edge to a placeholder bead. */
module Spawn {
  import opened Wrappers
  import opened Text
  import opened Types
  import opened Storage
  import opened Root
  import opened Beads
  import opened Trace

  // ----- the placeholder bead identifier

  /** The placeholder as written: `"bead-" + GenerateID("")[4:]`. With the
      empty prefix the identifier is a dash and four hex digits, so the cut
      at 4 keeps only the last digit. */
  function PlaceholderAsWritten(rnd: RandomWord): string {
    "bead-" + GenerateID("", rnd)[4..]
  }

  /** As written, the placeholder carries one hex digit, the low half of
      the second random byte: two spawns whose random words differ only
      above it get the same bead. */
  lemma PlaceholderAsWrittenCollides()
    ensures forall rnd :: |PlaceholderAsWritten(rnd)| == 6
    ensures PlaceholderAsWritten(RandomWord(0, 0, 0, 0)) == PlaceholderAsWritten(RandomWord(0, 16, 0, 0))
    ensures GenerateID("", RandomWord(0, 0, 0, 0)) != GenerateID("", RandomWord(0, 16, 0, 0))
  {
    GenerateIDInjective("", RandomWord(0, 0, 0, 0), RandomWord(0, 16, 0, 0));
  }

  /** The placeholder with the four hex digits that follow the dash, as
      `GenerateID` gives them to every other identifier. */
  function PlaceholderBeadId(rnd: RandomWord): (r: string)
    ensures |r| == 9 && HasPrefix(r, "bead-") && IsBeadID(r)
  {
    var id := GenerateID("", rnd);
    assert HasPrefix(id, "-");
    "bead-" + id[1..]
  }

  /** Distinct random words (in the bytes `GenerateID` uses) give distinct
      placeholders, as they give distinct insight and thread
      identifiers. */
  lemma PlaceholderDistinct(r1: RandomWord, r2: RandomWord)
    ensures PlaceholderBeadId(r1) == PlaceholderBeadId(r2) <==> r1.b0 == r2.b0 && r1.b1 == r2.b1
  {
    var a := GenerateID("", r1);
    var b := GenerateID("", r2);
    if PlaceholderBeadId(r1) == PlaceholderBeadId(r2) {
      assert a[1..] == PlaceholderBeadId(r1)[5..] == PlaceholderBeadId(r2)[5..] == b[1..];
      assert a == [a[0]] + a[1..] && b == [b[0]] + b[1..];
    }
    GenerateIDInjective("", r1, r2);
  }

  // ----- the command

  /** What `spawn` shows: the insight (its content cut to 60 bytes) and
      either the instructions for beads or the placeholder it linked. */
  datatype SpawnView =
    | SpawnInstructions(insightId: string, content: string, title: string)
    | PlaceholderLinked(insightId: string, content: string, beadId: string)

  /** `spawn` on tables `t` once the identifier is accepted: the result and
      the tables afterwards. */
  function SpawnIn(t: Tables, insightId: string, title: string, beadsPresent: bool, now: Time, rnd: RandomWord): (Result<SpawnView>, Tables) {
    match InsightIn(t, insightId)
    case Err(e) => (Err(Wrapped("insight not found", e)), t)
    case Ok(ins) =>
      if beadsPresent then (Ok(SpawnInstructions(insightId, Truncate(ins.content, 60), title)), t)
      else
        var beadId := PlaceholderBeadId(rnd);
        match AddDependencyIn(t, NewDependency(insightId, beadId, Spawns, now))
        case Err(e) => (Err(Wrapped("failed to create dependency", e)), t)
        case Ok(after) => (Ok(PlaceholderLinked(insightId, Truncate(ins.content, 60), beadId)), after)
  }

  /** A placeholder spawn of a stored insight records exactly one new edge,
      a `spawns` edge to a bead identifier, after which `trace` of that bead
      starts at the insight; only the edges change. */
  lemma SpawnThenTrace(t: Tables, insightId: string, title: string, now: Time, rnd: RandomWord)
    requires WellFormed(t)
    ensures var (r, after) := SpawnIn(t, insightId, title, false, now, rnd);
      r.Ok? ==>
        r.value.PlaceholderLinked? && IsBeadID(r.value.beadId) &&
        after == t.(deps := t.deps + [Dependency(insightId, r.value.beadId, Spawns, now)]) &&
        WellFormed(after) &&
        insightId in SpawningIds(ListInsightsIn(after, "", "", ZeroTime), DependenciesLookup(after), r.value.beadId)
  {
    var (r, after) := SpawnIn(t, insightId, title, false, now, rnd);
    if r.Ok? {
      var beadId := PlaceholderBeadId(rnd);
      var d := NewDependency(insightId, beadId, Spawns, now);
      AddDependencyKeepsWellFormed(t, d);
      StoredInsightListed(t, insightId);
      assert d in after.deps;
      TraceStartsAtSpawners(after, beadId, insightId);
    }
  }

  /** With beads present, or when the insight is unknown, nothing is
      written; an unknown insight is the only way to fail with beads
      present. */
  lemma SpawnWritesOnlyPlaceholder(t: Tables, insightId: string, title: string, now: Time, rnd: RandomWord)
    ensures SpawnIn(t, insightId, title, true, now, rnd).1 == t
    ensures SpawnIn(t, insightId, title, true, now, rnd).0.Err? <==> insightId !in t.insights
    ensures SpawnIn(t, insightId, title, false, now, rnd).0.Err? ==> SpawnIn(t, insightId, title, false, now, rnd).1 == t
  {
  }

  /** The store half of `runSpawn`. */
  method SpawnStored(session: Session, insightId: string, title: string, beadsPresent: bool, now: Time, rnd: RandomWord)
    returns (r: Result<SpawnView>)
    requires session.Valid()
    modifies session, session.db, session.Held()
    ensures old(session.OpenError()).Some? ==>
      r == Err(old(session.OpenError()).value) && session.Finished(old(session.Current()), old(session.SchemaAfterOpen()))
    ensures old(session.OpenError()).None? ==>
      var (result, after) := SpawnIn(old(session.Current()), insightId, title, beadsPresent, now, rnd);
      r == result && session.Finished(after, old(session.SchemaAfterOpen()))
  {
    ghost var t := session.Current();
    var s := session.GetStore();
    if s.Err? {
      return Err(s.error);
    }
    var st := s.value;
    assert st.Snapshot() == t;
    var insight := st.GetInsight(insightId);
    if insight.Err? {
      session.CloseStore();
      return Err(Wrapped("insight not found", insight.error));
    }
    var content := Truncate(insight.value.content, 60);
    if beadsPresent {
      session.CloseStore();
      return Ok(SpawnInstructions(insight.value.id, content, title));
    }
    var placeholderId := PlaceholderBeadId(rnd);
    var dep := NewDependency(insightId, placeholderId, Spawns, now);
    var err := st.AddDependency(dep);
    session.CloseStore();
    if err.Some? {
      return Err(Wrapped("failed to create dependency", err.value));
    }
    return Ok(PlaceholderLinked(insightId, content, placeholderId));
  }

  /** `runSpawn`: the identifier must look like an insight's before the
      store is opened. */
  method RunSpawn(session: Session, insightId: string, title: string, beadsPresent: bool, now: Time, rnd: RandomWord)
    returns (r: Result<SpawnView>)
    requires session.Valid()
    modifies session, session.db, session.Held()
    ensures !IsInsightID(insightId) ==>
      r == Err(InvalidInsightId(insightId)) && unchanged(session, session.db) && unchanged(session.Held()) && session.Valid()
    ensures IsInsightID(insightId) && old(session.OpenError()).Some? ==>
      r == Err(old(session.OpenError()).value) && session.Finished(old(session.Current()), old(session.SchemaAfterOpen()))
    ensures IsInsightID(insightId) && old(session.OpenError()).None? ==>
      var (result, after) := SpawnIn(old(session.Current()), insightId, title, beadsPresent, now, rnd);
      r == result && session.Finished(after, old(session.SchemaAfterOpen()))
  {
    if !IsInsightID(insightId) {
      return Err(InvalidInsightId(insightId));
    }
    r := SpawnStored(session, insightId, title, beadsPresent, now, rnd);
  }
}
