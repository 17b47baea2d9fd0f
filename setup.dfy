/** `bdc setup claude`: registers, checks and removes the `bdc prime`
    hooks in an editor settings document. */
module Setup {
  import opened Wrappers
  import opened Text
  import opened Sequences

  /** A decoded JSON value; numbers keep their literal text. */
  datatype Json =
    | JNull
    | JBool(b: bool)
    | JNumber(literal: string)
    | JString(s: string)
    | JArray(items: seq<Json>)
    | JObject(fields: map<string, Json>)

  const SessionStart := "SessionStart"
  const PreCompact := "PreCompact"
  const PrimeCommands: set<string> := {"bdc prime", "bdc prime --stealth"}

  /** A command entry `{"command": c, ...}` whose command is one of `commands`. */
  predicate Runs(entry: Json, commands: set<string>) {
    entry.JObject? && "command" in entry.fields && entry.fields["command"].JString? &&
    entry.fields["command"].s in commands
  }

  /** The command entries of a hook group `{"hooks": [...], ...}`; a value
      of any other shape has none. */
  function GroupCommands(group: Json): seq<Json> {
    if group.JObject? && "hooks" in group.fields && group.fields["hooks"].JArray? then group.fields["hooks"].items
    else []
  }

  predicate GroupRuns(group: Json, commands: set<string>) {
    exists k :: 0 <= k < |GroupCommands(group)| && Runs(GroupCommands(group)[k], commands)
  }

  predicate AnyGroupRuns(groups: seq<Json>, commands: set<string>) {
    exists g :: 0 <= g < |groups| && GroupRuns(groups[g], commands)
  }

  /** The groups of an event; a missing event or one that is not a list
      has none. */
  function EventGroups(hooks: map<string, Json>, event: string): seq<Json> {
    if event in hooks && hooks[event].JArray? then hooks[event].items else []
  }

  /** The group `addHookCommand` appends. */
  function NewGroup(command: string): Json {
    JObject(map["matcher" := JString(""),
                "hooks" := JArray([JObject(map["type" := JString("command"), "command" := JString(command)])])])
  }

  /** The hooks after `addHookCommand`. */
  function HooksAfterAdd(hooks: map<string, Json>, event: string, command: string): map<string, Json> {
    if AnyGroupRuns(EventGroups(hooks, event), {command}) then hooks
    else hooks[event := JArray(EventGroups(hooks, event) + [NewGroup(command)])]
  }

  /** Whether `removeHookCommand` keeps a group. */
  function Keeps(command: string): Json -> bool {
    g => !GroupRuns(g, {command})
  }

  /** The hooks after `removeHookCommand`. */
  function HooksAfterRemove(hooks: map<string, Json>, event: string, command: string): map<string, Json> {
    if event !in hooks || !hooks[event].JArray? then hooks
    else
      var kept := Filter(hooks[event].items, Keeps(command));
      if |kept| == 0 then hooks - {event} else hooks[event := JArray(kept)]
  }

  /** The hooks without their null-valued keys. */
  function WithoutNulls(hooks: map<string, Json>): map<string, Json> {
    map k | k in hooks && hooks[k] != JNull :: hooks[k]
  }

  /** The scan of one group's command entries. */
  method GroupRunsScan(group: Json, commands: set<string>) returns (found: bool)
    ensures found <==> GroupRuns(group, commands)
  {
    if !group.JObject? || "hooks" !in group.fields || !group.fields["hooks"].JArray? {
      return false;
    }
    var entries := group.fields["hooks"].items;
    assert GroupCommands(group) == entries;
    var k := 0;
    while k < |entries|
      invariant 0 <= k <= |entries|
      invariant forall j :: 0 <= j < k ==> !Runs(entries[j], commands)
    {
      var entry := entries[k];
      if entry.JObject? && "command" in entry.fields && entry.fields["command"].JString? &&
         entry.fields["command"].s in commands {
        assert Runs(entries[k], commands);
        return true;
      }
      k := k + 1;
    }
    return false;
  }

  /** The scan of an event's groups. */
  method AnyGroupRunsScan(groups: seq<Json>, commands: set<string>) returns (found: bool)
    ensures found <==> AnyGroupRuns(groups, commands)
  {
    var g := 0;
    while g < |groups|
      invariant 0 <= g <= |groups|
      invariant forall j :: 0 <= j < g ==> !GroupRuns(groups[j], commands)
    {
      found := GroupRunsScan(groups[g], commands);
      if found {
        return;
      }
      g := g + 1;
    }
    return false;
  }

  /** The `hooks` object of a settings document, edited in place. */
  class HookTable {
    var hooks: map<string, Json>

    constructor (hooks: map<string, Json>)
      ensures this.hooks == hooks
    {
      this.hooks := hooks;
    }

    /** The null cleanup before installing. */
    method CleanNulls()
      modifies this
      ensures hooks == WithoutNulls(old(hooks))
    {
      ghost var original := hooks;
      var keys := hooks.Keys;
      while keys != {}
        invariant keys <= original.Keys
        invariant forall k :: k in hooks <==> k in original && (k in keys || original[k] != JNull)
        invariant forall k :: k in hooks ==> hooks[k] == original[k]
        decreases |keys|
      {
        var key :| key in keys;
        if hooks[key] == JNull {
          hooks := hooks - {key};
        }
        keys := keys - {key};
      }
      assert hooks == WithoutNulls(original);
    }

    /** `addHookCommand`: true when the group was appended, false when some
        group of the event already runs the command. */
    method AddHookCommand(event: string, command: string) returns (added: bool)
      modifies this
      ensures added <==> !AnyGroupRuns(EventGroups(old(hooks), event), {command})
      ensures hooks == HooksAfterAdd(old(hooks), event, command)
    {
      var eventHooks: seq<Json> := [];
      if event in hooks && hooks[event].JArray? {
        eventHooks := hooks[event].items;
      }
      var present := AnyGroupRunsScan(eventHooks, {command});
      if present {
        return false;
      }
      hooks := hooks[event := JArray(eventHooks + [NewGroup(command)])];
      return true;
    }

    /** `removeHookCommand`. */
    method RemoveHookCommand(event: string, command: string)
      modifies this
      ensures hooks == HooksAfterRemove(old(hooks), event, command)
    {
      if event !in hooks || !hooks[event].JArray? {
        return;
      }
      var eventHooks := hooks[event].items;
      var filtered: seq<Json> := [];
      var i := 0;
      while i < |eventHooks|
        invariant 0 <= i <= |eventHooks|
        invariant filtered == Filter(eventHooks[..i], Keeps(command))
        invariant hooks == old(hooks)
      {
        FilterStep(eventHooks, i, Keeps(command));
        var hit := GroupRunsScan(eventHooks[i], {command});
        if !hit {
          filtered := filtered + [eventHooks[i]];
        }
        i := i + 1;
      }
      assert eventHooks[..i] == eventHooks;
      if |filtered| == 0 {
        hooks := hooks - {event};
      } else {
        hooks := hooks[event := JArray(filtered)];
      }
    }
  }

  // ----- properties of add and remove

  /** After an add the event runs the command, so a second add reports
      false and changes nothing. */
  lemma AddIdempotent(hooks: map<string, Json>, event: string, command: string)
    ensures AnyGroupRuns(EventGroups(HooksAfterAdd(hooks, event, command), event), {command})
    ensures HooksAfterAdd(HooksAfterAdd(hooks, event, command), event, command) == HooksAfterAdd(hooks, event, command)
  {
    if !AnyGroupRuns(EventGroups(hooks, event), {command}) {
      var groups := EventGroups(hooks, event) + [NewGroup(command)];
      assert EventGroups(HooksAfterAdd(hooks, event, command), event) == groups;
      assert Runs(GroupCommands(NewGroup(command))[0], {command});
      assert GroupRuns(groups[|groups| - 1], {command});
    }
  }

  /** Adding touches only its event. */
  lemma AddKeepsOtherEvents(hooks: map<string, Json>, event: string, command: string, other: string)
    requires other != event
    ensures EventGroups(HooksAfterAdd(hooks, event, command), other) == EventGroups(hooks, other)
  {
  }

  /** Removing touches only its event. */
  lemma RemoveKeepsOtherEvents(hooks: map<string, Json>, event: string, command: string, other: string)
    requires other != event
    ensures EventGroups(HooksAfterRemove(hooks, event, command), other) == EventGroups(hooks, other)
  {
  }

  /** The groups left under the event are exactly the old ones that do not
      run the command, malformed ones included, in their order. */
  lemma RemoveKeepsTheRest(hooks: map<string, Json>, event: string, command: string, group: Json)
    requires event in hooks && hooks[event].JArray?
    ensures group in EventGroups(HooksAfterRemove(hooks, event, command), event) <==>
      group in hooks[event].items && !GroupRuns(group, {command})
  {
    FilterMembers(hooks[event].items, Keeps(command), group);
  }

  /** After a remove no group of the event runs the command. */
  lemma RemoveClears(hooks: map<string, Json>, event: string, command: string)
    ensures !AnyGroupRuns(EventGroups(HooksAfterRemove(hooks, event, command), event), {command})
  {
    var groups := EventGroups(HooksAfterRemove(hooks, event, command), event);
    if event in hooks && hooks[event].JArray? {
      forall g | 0 <= g < |groups|
        ensures !GroupRuns(groups[g], {command})
      {
        FilterAccepted(hooks[event].items, Keeps(command), g);
      }
    }
  }

  /** A remove never brings a command back to any event. */
  lemma RemoveKeepsClear(hooks: map<string, Json>, event: string, command: string, removedEvent: string, removed: string)
    requires !AnyGroupRuns(EventGroups(hooks, event), {command})
    ensures !AnyGroupRuns(EventGroups(HooksAfterRemove(hooks, removedEvent, removed), event), {command})
  {
    if event == removedEvent && event in hooks && hooks[event].JArray? {
      var groups := hooks[event].items;
      var after := EventGroups(HooksAfterRemove(hooks, removedEvent, removed), event);
      forall g | 0 <= g < |after|
        ensures !GroupRuns(after[g], {command})
      {
        FilterMembers(groups, Keeps(removed), after[g]);
      }
    }
  }

  /** Removing twice is removing once. */
  lemma RemoveIdempotent(hooks: map<string, Json>, event: string, command: string)
    ensures HooksAfterRemove(HooksAfterRemove(hooks, event, command), event, command) == HooksAfterRemove(hooks, event, command)
  {
    if event in hooks && hooks[event].JArray? {
      FilterIdempotent(hooks[event].items, Keeps(command));
    }
  }

  /** Removing a command just added from a missing event or a list leaves
      what removing it alone leaves. */
  lemma RemoveUndoesAdd(hooks: map<string, Json>, event: string, command: string)
    requires event !in hooks || hooks[event].JArray?
    ensures HooksAfterRemove(HooksAfterAdd(hooks, event, command), event, command) == HooksAfterRemove(hooks, event, command)
  {
    if !AnyGroupRuns(EventGroups(hooks, event), {command}) {
      var groups := EventGroups(hooks, event);
      var added := NewGroup(command);
      assert Runs(GroupCommands(added)[0], {command});
      assert [added][..0] == [];
      assert Filter([added], Keeps(command)) == [];
      FilterAppend(groups, [added], Keeps(command));
      var after := HooksAfterAdd(hooks, event, command);
      assert after == hooks[event := JArray(groups + [added])];
      assert Filter(groups + [added], Keeps(command)) == Filter(groups, Keeps(command));
      if event !in hooks {
        assert groups == [];
        assert Filter(groups, Keeps(command)) == [];
        assert HooksAfterRemove(after, event, command) == after - {event};
        assert after - {event} == hooks;
      }
    }
  }

  // ----- hasBeadcrumbsHooks

  /** The settings file: absent or unreadable, not a JSON object, or
      decoded. */
  datatype SettingsFile = NoFile | Unparsable | Parsed(settings: map<string, Json>)

  /** The `hooks` object of the settings, or none. */
  function HooksOf(settings: map<string, Json>): map<string, Json> {
    if "hooks" in settings && settings["hooks"].JObject? then settings["hooks"].fields else map[]
  }

  /** Some SessionStart or PreCompact group runs `bdc prime` or
      `bdc prime --stealth`. */
  predicate Installed(file: SettingsFile) {
    file.Parsed? && "hooks" in file.settings && file.settings["hooks"].JObject? &&
    (AnyGroupRuns(EventGroups(HooksOf(file.settings), SessionStart), PrimeCommands) ||
     AnyGroupRuns(EventGroups(HooksOf(file.settings), PreCompact), PrimeCommands))
  }

  /** `hasBeadcrumbsHooks`. */
  method HasBeadcrumbsHooks(file: SettingsFile) returns (found: bool)
    ensures found <==> Installed(file)
  {
    if !file.Parsed? || "hooks" !in file.settings || !file.settings["hooks"].JObject? {
      return false;
    }
    var hooks := file.settings["hooks"].fields;
    var events := [SessionStart, PreCompact];
    var i := 0;
    while i < |events|
      invariant 0 <= i <= |events|
      invariant forall j :: 0 <= j < i ==> !AnyGroupRuns(EventGroups(hooks, events[j]), PrimeCommands)
    {
      var groups: seq<Json> := [];
      if events[i] in hooks && hooks[events[i]].JArray? {
        groups := hooks[events[i]].items;
      }
      found := AnyGroupRunsScan(groups, PrimeCommands);
      if found {
        return;
      }
      i := i + 1;
    }
    assert events[0] == SessionStart && events[1] == PreCompact;
    return false;
  }

  lemma RunsOneOfTwo(groups: seq<Json>, a: string, b: string)
    requires AnyGroupRuns(groups, {a, b})
    ensures AnyGroupRuns(groups, {a}) || AnyGroupRuns(groups, {b})
  {
    var g :| 0 <= g < |groups| && GroupRuns(groups[g], {a, b});
    var k :| 0 <= k < |GroupCommands(groups[g])| && Runs(GroupCommands(groups[g])[k], {a, b});
    if Runs(GroupCommands(groups[g])[k], {a}) {
      assert GroupRuns(groups[g], {a});
    } else {
      assert Runs(GroupCommands(groups[g])[k], {b});
      assert GroupRuns(groups[g], {b});
    }
  }

  lemma RunsWider(groups: seq<Json>, fewer: set<string>, more: set<string>)
    requires fewer <= more && AnyGroupRuns(groups, fewer)
    ensures AnyGroupRuns(groups, more)
  {
    var g :| 0 <= g < |groups| && GroupRuns(groups[g], fewer);
    var k :| 0 <= k < |GroupCommands(groups[g])| && Runs(GroupCommands(groups[g])[k], fewer);
    assert Runs(GroupCommands(groups[g])[k], more);
  }

  // ----- installClaudeHooks and removeClaudeHooks

  /** `bdc prime --stealth` with `--stealth`, else `bdc prime`. */
  function PrimeCommand(stealth: bool): string {
    if stealth then "bdc prime --stealth" else "bdc prime"
  }

  /** The hooks after the install's edits. */
  function InstalledHooks(settings: map<string, Json>, stealth: bool): map<string, Json> {
    var command := PrimeCommand(stealth);
    HooksAfterAdd(HooksAfterAdd(WithoutNulls(HooksOf(settings)), SessionStart, command), PreCompact, command)
  }

  /** The document the install writes back. */
  function InstalledSettings(settings: map<string, Json>, stealth: bool): map<string, Json> {
    settings["hooks" := JObject(InstalledHooks(settings, stealth))]
  }

  /** What the install writes: a missing file starts from an empty
      document, an undecodable one is refused. */
  function InstallResult(file: SettingsFile, stealth: bool): Result<map<string, Json>> {
    match file
    case NoFile => Ok(InstalledSettings(map[], stealth))
    case Unparsable => Err(SettingsParseFailed)
    case Parsed(settings) => Ok(InstalledSettings(settings, stealth))
  }

  /** `installClaudeHooks` after the settings file is read. */
  method InstallClaudeHooks(file: SettingsFile, stealth: bool) returns (r: Result<map<string, Json>>)
    ensures r == InstallResult(file, stealth)
  {
    if file.Unparsable? {
      return Err(SettingsParseFailed);
    }
    var settings: map<string, Json> := if file.Parsed? then file.settings else map[];
    var table := new HookTable(HooksOf(settings));
    table.CleanNulls();
    var command := "bdc prime";
    if stealth {
      command := "bdc prime --stealth";
    }
    var _ := table.AddHookCommand(SessionStart, command);
    var _ := table.AddHookCommand(PreCompact, command);
    return Ok(settings["hooks" := JObject(table.hooks)]);
  }

  /** The install leaves both events running the chosen command. */
  lemma InstalledHooksRun(settings: map<string, Json>, stealth: bool)
    ensures AnyGroupRuns(EventGroups(InstalledHooks(settings, stealth), SessionStart), {PrimeCommand(stealth)})
    ensures AnyGroupRuns(EventGroups(InstalledHooks(settings, stealth), PreCompact), {PrimeCommand(stealth)})
  {
    var command := PrimeCommand(stealth);
    var clean := WithoutNulls(HooksOf(settings));
    var first := HooksAfterAdd(clean, SessionStart, command);
    AddIdempotent(clean, SessionStart, command);
    AddIdempotent(first, PreCompact, command);
    AddKeepsOtherEvents(first, PreCompact, command, SessionStart);
  }

  /** Adding never stores a null. */
  lemma AddKeepsNoNulls(hooks: map<string, Json>, event: string, command: string)
    requires forall key :: key in hooks ==> hooks[key] != JNull
    ensures forall key :: key in HooksAfterAdd(hooks, event, command) ==> HooksAfterAdd(hooks, event, command)[key] != JNull
  {
  }

  /** The install leaves no null-valued hook. */
  lemma InstalledHooksNoNulls(settings: map<string, Json>, stealth: bool)
    ensures forall key :: key in InstalledHooks(settings, stealth) ==> InstalledHooks(settings, stealth)[key] != JNull
  {
    var command := PrimeCommand(stealth);
    var clean := WithoutNulls(HooksOf(settings));
    AddKeepsNoNulls(clean, SessionStart, command);
    AddKeepsNoNulls(HooksAfterAdd(clean, SessionStart, command), PreCompact, command);
  }

  /** An install leaves no null-valued hook and both events running the
      chosen command, so the hooks then count as installed. */
  lemma InstallInstalls(file: SettingsFile, stealth: bool)
    requires InstallResult(file, stealth).Ok?
    ensures var settings := InstallResult(file, stealth).value;
      var hooks := HooksOf(settings);
      Installed(Parsed(settings)) &&
      (forall key :: key in hooks ==> hooks[key] != JNull) &&
      AnyGroupRuns(EventGroups(hooks, SessionStart), {PrimeCommand(stealth)}) &&
      AnyGroupRuns(EventGroups(hooks, PreCompact), {PrimeCommand(stealth)})
  {
    var original := if file.Parsed? then file.settings else map[];
    var hooks := InstalledHooks(original, stealth);
    assert HooksOf(InstallResult(file, stealth).value) == hooks;
    InstalledHooksRun(original, stealth);
    InstalledHooksNoNulls(original, stealth);
    RunsWider(EventGroups(hooks, SessionStart), {PrimeCommand(stealth)}, PrimeCommands);
  }

  /** Installing twice writes what installing once wrote. */
  lemma InstallIdempotent(settings: map<string, Json>, stealth: bool)
    ensures InstalledSettings(InstalledSettings(settings, stealth), stealth) == InstalledSettings(settings, stealth)
  {
    var once := InstalledSettings(settings, stealth);
    var hooks := InstalledHooks(settings, stealth);
    InstalledHooksRun(settings, stealth);
    InstalledHooksNoNulls(settings, stealth);
    assert HooksOf(once) == hooks;
    assert WithoutNulls(hooks) == hooks;
    var command := PrimeCommand(stealth);
    assert HooksAfterAdd(hooks, SessionStart, command) == hooks;
    assert HooksAfterAdd(hooks, PreCompact, command) == hooks;
  }

  /** The hooks after the four removes of `removeClaudeHooks`. */
  function RemovedHooks(hooks: map<string, Json>): map<string, Json> {
    var h1 := HooksAfterRemove(hooks, SessionStart, "bdc prime");
    var h2 := HooksAfterRemove(h1, PreCompact, "bdc prime");
    var h3 := HooksAfterRemove(h2, SessionStart, "bdc prime --stealth");
    HooksAfterRemove(h3, PreCompact, "bdc prime --stealth")
  }

  /** What the removal writes: nothing without a file or without a hooks
      object, an undecodable file is refused. */
  function RemoveResult(file: SettingsFile): Result<Option<map<string, Json>>> {
    match file
    case NoFile => Ok(None)
    case Unparsable => Err(SettingsParseFailed)
    case Parsed(settings) =>
      if "hooks" in settings && settings["hooks"].JObject? then
        Ok(Some(settings["hooks" := JObject(RemovedHooks(settings["hooks"].fields))]))
      else Ok(None)
  }

  /** `removeClaudeHooks` after the settings file is read. */
  method RemoveClaudeHooks(file: SettingsFile) returns (r: Result<Option<map<string, Json>>>)
    ensures r == RemoveResult(file)
  {
    if file.NoFile? {
      return Ok(None);
    }
    if file.Unparsable? {
      return Err(SettingsParseFailed);
    }
    var settings := file.settings;
    if "hooks" !in settings || !settings["hooks"].JObject? {
      return Ok(None);
    }
    var table := new HookTable(settings["hooks"].fields);
    table.RemoveHookCommand(SessionStart, "bdc prime");
    table.RemoveHookCommand(PreCompact, "bdc prime");
    table.RemoveHookCommand(SessionStart, "bdc prime --stealth");
    table.RemoveHookCommand(PreCompact, "bdc prime --stealth");
    return Ok(Some(settings["hooks" := JObject(table.hooks)]));
  }

  lemma RemovedEventClear(hooks: map<string, Json>, event: string)
    requires event == SessionStart || event == PreCompact
    ensures !AnyGroupRuns(EventGroups(RemovedHooks(hooks), event), {"bdc prime"})
    ensures !AnyGroupRuns(EventGroups(RemovedHooks(hooks), event), {"bdc prime --stealth"})
  {
    var h1 := HooksAfterRemove(hooks, SessionStart, "bdc prime");
    var h2 := HooksAfterRemove(h1, PreCompact, "bdc prime");
    var h3 := HooksAfterRemove(h2, SessionStart, "bdc prime --stealth");
    var h4 := HooksAfterRemove(h3, PreCompact, "bdc prime --stealth");
    if event == SessionStart {
      RemoveClears(hooks, SessionStart, "bdc prime");
      RemoveKeepsClear(h1, SessionStart, "bdc prime", PreCompact, "bdc prime");
      RemoveKeepsClear(h2, SessionStart, "bdc prime", SessionStart, "bdc prime --stealth");
      RemoveClears(h2, SessionStart, "bdc prime --stealth");
    } else {
      RemoveKeepsOtherEvents(hooks, SessionStart, "bdc prime", PreCompact);
      RemoveClears(h1, PreCompact, "bdc prime");
      RemoveKeepsClear(h2, PreCompact, "bdc prime", SessionStart, "bdc prime --stealth");
      RemoveKeepsOtherEvents(h2, SessionStart, "bdc prime --stealth", PreCompact);
      assert !AnyGroupRuns(EventGroups(h3, PreCompact), {"bdc prime"});
    }
    RemoveKeepsClear(h3, event, "bdc prime", PreCompact, "bdc prime --stealth");
    if event == SessionStart {
      RemoveKeepsClear(h3, event, "bdc prime --stealth", PreCompact, "bdc prime --stealth");
    } else {
      RemoveClears(h3, PreCompact, "bdc prime --stealth");
    }
  }

  /** After a removal that writes, the hooks no longer count as installed. */
  lemma RemoveUninstalls(file: SettingsFile)
    requires RemoveResult(file).Ok? && RemoveResult(file).value.Some?
    ensures !Installed(Parsed(RemoveResult(file).value.value))
  {
    var settings := RemoveResult(file).value.value;
    var hooks := RemovedHooks(file.settings["hooks"].fields);
    assert HooksOf(settings) == hooks;
    RemovedEventClear(file.settings["hooks"].fields, SessionStart);
    RemovedEventClear(file.settings["hooks"].fields, PreCompact);
    if AnyGroupRuns(EventGroups(hooks, SessionStart), {"bdc prime", "bdc prime --stealth"}) {
      RunsOneOfTwo(EventGroups(hooks, SessionStart), "bdc prime", "bdc prime --stealth");
    }
    if AnyGroupRuns(EventGroups(hooks, PreCompact), {"bdc prime", "bdc prime --stealth"}) {
      RunsOneOfTwo(EventGroups(hooks, PreCompact), "bdc prime", "bdc prime --stealth");
    }
  }

  // ----- runSetup

  datatype Scope = Global | Project

  /** How `bdc setup` ends when it does not fail. */
  datatype SetupOutcome =
    | HooksFound(scope: Scope)
    | Removed(scope: Scope, written: Option<map<string, Json>>)
    | InstalledInto(scope: Scope, settings: map<string, Json>)

  /** `runSetup`: only the `claude` editor, in any case; `--check` looks
      at the global file, then the project one; `--remove`, else install,
      edits the file `--project` selects. */
  function SetupResult(editor: string, check: bool, remove: bool, project: bool, stealth: bool,
                       globalFile: SettingsFile, projectFile: SettingsFile): Result<SetupOutcome>
  {
    if Lower(editor) != "claude" then Err(UnsupportedEditor(Lower(editor)))
    else if check then
      if Installed(globalFile) then Ok(HooksFound(Global))
      else if Installed(projectFile) then Ok(HooksFound(Project))
      else Err(HooksNotInstalled)
    else
      var scope := if project then Project else Global;
      var file := if project then projectFile else globalFile;
      if remove then
        match RemoveResult(file)
        case Err(e) => Err(e)
        case Ok(written) => Ok(Removed(scope, written))
      else
        match InstallResult(file, stealth)
        case Err(e) => Err(e)
        case Ok(settings) => Ok(InstalledInto(scope, settings))
  }

  /** `runSetup` after the two settings files are read. */
  method RunSetup(editor: string, check: bool, remove: bool, project: bool, stealth: bool,
                  globalFile: SettingsFile, projectFile: SettingsFile) returns (r: Result<SetupOutcome>)
    ensures r == SetupResult(editor, check, remove, project, stealth, globalFile, projectFile)
  {
    var name := Lower(editor);
    if name != "claude" {
      return Err(UnsupportedEditor(name));
    }
    if check {
      var inGlobal := HasBeadcrumbsHooks(globalFile);
      if inGlobal {
        return Ok(HooksFound(Global));
      }
      var inProject := HasBeadcrumbsHooks(projectFile);
      if inProject {
        return Ok(HooksFound(Project));
      }
      return Err(HooksNotInstalled);
    }
    var scope := if project then Project else Global;
    var file := if project then projectFile else globalFile;
    if remove {
      var removed := RemoveClaudeHooks(file);
      if removed.Err? {
        return Err(removed.error);
      }
      return Ok(Removed(scope, removed.value));
    }
    var installed := InstallClaudeHooks(file, stealth);
    if installed.Err? {
      return Err(installed.error);
    }
    return Ok(InstalledInto(scope, installed.value));
  }

  /** Any other editor is refused whatever the flags; `--check` wins over
      `--remove`, which wins over install, and only an install looks at
      `--stealth`. */
  lemma SetupPrecedence(editor: string, remove: bool, project: bool, stealth: bool,
                        globalFile: SettingsFile, projectFile: SettingsFile)
    ensures Lower(editor) != "claude" ==>
      SetupResult(editor, true, remove, project, stealth, globalFile, projectFile).Err? &&
      SetupResult(editor, false, remove, project, stealth, globalFile, projectFile) == Err(UnsupportedEditor(Lower(editor)))
    ensures SetupResult(editor, true, remove, project, stealth, globalFile, projectFile) ==
      SetupResult(editor, true, false, false, false, globalFile, projectFile)
    ensures SetupResult(editor, false, true, project, stealth, globalFile, projectFile) ==
      SetupResult(editor, false, true, project, false, globalFile, projectFile)
  {
  }
}
