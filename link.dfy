/** `bdc link`: one dependency from an insight, its type and target chosen
    by exactly one of four flags. */
module Link {
  import opened Wrappers
  import opened Types
  import opened Storage
  import opened Root

  /** The four target flags; "" means not given. */
  datatype LinkFlags = LinkFlags(buildsOn: string, supersedes: string, contradicts: string, spawns: string)

  /** How many target flags are given. */
  function LinkCount(f: LinkFlags): (r: nat)
    ensures r <= 4
  {
    (if f.buildsOn != "" then 1 else 0) + (if f.supersedes != "" then 1 else 0)
      + (if f.contradicts != "" then 1 else 0) + (if f.spawns != "" then 1 else 0)
  }

  /** The target and type of the last flag given, in flag order. */
  function LastLink(f: LinkFlags): (string, string) {
    if f.spawns != "" then (f.spawns, Spawns)
    else if f.contradicts != "" then (f.contradicts, Contradicts)
    else if f.supersedes != "" then (f.supersedes, Supersedes)
    else if f.buildsOn != "" then (f.buildsOn, BuildsOn)
    else ("", "")
  }

  /** The flag rule: none is an error, more than one is an error, one names
      the target and the type. */
  function LinkTarget(f: LinkFlags): Result<(string, string)> {
    if LinkCount(f) == 0 then Err(NoDependencyType)
    else if LinkCount(f) > 1 then Err(MultipleDependencyTypes)
    else Ok(LastLink(f))
  }

  /** The counting of the command's flags. */
  method ChooseLink(f: LinkFlags) returns (r: Result<(string, string)>)
    ensures r == LinkTarget(f)
  {
    var count := 0;
    var toId := "";
    var depType := "";
    if f.buildsOn != "" {
      count := count + 1;
      toId, depType := f.buildsOn, BuildsOn;
    }
    if f.supersedes != "" {
      count := count + 1;
      toId, depType := f.supersedes, Supersedes;
    }
    if f.contradicts != "" {
      count := count + 1;
      toId, depType := f.contradicts, Contradicts;
    }
    if f.spawns != "" {
      count := count + 1;
      toId, depType := f.spawns, Spawns;
    }
    if count == 0 {
      return Err(NoDependencyType);
    }
    if count > 1 {
      return Err(MultipleDependencyTypes);
    }
    return Ok((toId, depType));
  }

  /** A link is accepted exactly when one flag is given; it then goes to
      that flag's value with that flag's type. */
  lemma LinkTargetChosen(f: LinkFlags)
    ensures LinkTarget(f).Ok? <==> LinkCount(f) == 1
    ensures LinkTarget(f) == Ok((f.buildsOn, BuildsOn)) <==> f.buildsOn != "" && LinkCount(f) == 1
    ensures LinkTarget(f) == Ok((f.supersedes, Supersedes)) <==> f.supersedes != "" && LinkCount(f) == 1
    ensures LinkTarget(f) == Ok((f.contradicts, Contradicts)) <==> f.contradicts != "" && LinkCount(f) == 1
    ensures LinkTarget(f) == Ok((f.spawns, Spawns)) <==> f.spawns != "" && LinkCount(f) == 1
  {
  }

  /** An edge the store accepts is then found from both of its ends; one it
      refuses was already there. */
  lemma LinkedBothWays(t: Tables, d: Dependency)
    ensures AddDependencyIn(t, d).Ok? ==>
      d in DependenciesIn(AddDependencyIn(t, d).value, d.from) && d in DependentsIn(AddDependencyIn(t, d).value, d.to)
    ensures AddDependencyIn(t, d).Err? <==> HasEdge(t.deps, d)
  {
    if AddDependencyIn(t, d).Ok? {
      var after := AddDependencyIn(t, d).value;
      assert d in after.deps;
    }
  }

  /** The saving half of `link`. */
  method SaveLink(session: Session, d: Dependency) returns (r: Result<Dependency>)
    requires session.Valid()
    modifies session, session.db, session.Held()
    ensures old(session.OpenError()).Some? ==>
      r == Err(old(session.OpenError()).value) && session.Finished(old(session.Current()), old(session.SchemaAfterOpen()))
    ensures old(session.OpenError()).None? ==>
      match AddDependencyIn(old(session.Current()), d)
      case Ok(after) => r == Ok(d) && session.Finished(after, old(session.SchemaAfterOpen()))
      case Err(e) => r == Err(Wrapped("failed to add dependency", e)) && session.Finished(old(session.Current()), old(session.SchemaAfterOpen()))
  {
    ghost var t := session.Current();
    var s := session.GetStore();
    if s.Err? {
      return Err(s.error);
    }
    var st := s.value;
    assert st.Snapshot() == t;
    var err := st.AddDependency(d);
    session.CloseStore();
    if err.Some? {
      return Err(Wrapped("failed to add dependency", err.value));
    }
    return Ok(d);
  }

  /** `link`'s run. */
  method RunLink(session: Session, fromId: string, f: LinkFlags, now: Time) returns (r: Result<Dependency>)
    requires session.Valid()
    modifies session, session.db, session.Held()
    ensures LinkTarget(f).Err? ==>
      r == Err(LinkTarget(f).error) && unchanged(session, session.db) && unchanged(session.Held()) && session.Valid()
    ensures LinkTarget(f).Ok? && old(session.OpenError()).Some? ==>
      r == Err(old(session.OpenError()).value) && session.Finished(old(session.Current()), old(session.SchemaAfterOpen()))
    ensures LinkTarget(f).Ok? && old(session.OpenError()).None? ==>
      var d := NewDependency(fromId, LinkTarget(f).value.0, LinkTarget(f).value.1, now);
      match AddDependencyIn(old(session.Current()), d)
      case Ok(after) => r == Ok(d) && session.Finished(after, old(session.SchemaAfterOpen()))
      case Err(e) => r == Err(Wrapped("failed to add dependency", e)) && session.Finished(old(session.Current()), old(session.SchemaAfterOpen()))
  {
    var target := ChooseLink(f);
    if target.Err? {
      return Err(target.error);
    }
    var (toId, depType) := target.value;
    var dep := NewDependency(fromId, toId, depType, now);
    r := SaveLink(session, dep);
  }
}
