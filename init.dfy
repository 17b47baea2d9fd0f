/** `bdc init`: creates the database and the empty JSON Lines files, and
    either hides the data directory from git (stealth) or installs the
    git hooks that export and import on commit, merge and checkout. */
module Init {
  import opened Wrappers
  import opened Text
  import opened Files
  import opened Migrations
  import opened Storage

  // ----- containsExactPattern

  /** Some line the scanner yields equals `pattern` once trimmed. */
  predicate HasExactLine(content: string, pattern: string) {
    exists i :: 0 <= i < |ScanLines(content)| && TrimSpace(ScanLines(content)[i]) == pattern
  }

  /** `containsExactPattern`. */
  method ContainsExactPattern(content: string, pattern: string) returns (found: bool)
    ensures found <==> HasExactLine(content, pattern)
  {
    var lines := ScanLines(content);
    var i := 0;
    while i < |lines|
      invariant 0 <= i <= |lines|
      invariant forall j :: 0 <= j < i ==> TrimSpace(lines[j]) != pattern
    {
      if TrimSpace(lines[i]) == pattern {
        return true;
      }
      i := i + 1;
    }
    return false;
  }

  // ----- setupStealthMode

  const BeadcrumbsPattern := ".beadcrumbs/"
  /** The comment line above the pattern (written in two parts). */
  const StealthComment := StealthCommentHead + StealthCommentTail
  const StealthCommentHead := "# beadcrumbs stealth mode (added by"
  const StealthCommentTail := " bdc init --stealth)"

  /** The newline written first when the file does not end a line. */
  function Separator(existing: string): string {
    if |existing| > 0 && !HasSuffix(existing, "\n") then "\n" else ""
  }

  /** The three writes of the append: the separator, the comment line
      after a blank line, and the pattern line. */
  function AppendExclude(existing: string, comment: string, pattern: string): string {
    existing + Separator(existing) + ("\n" + comment + "\n") + (pattern + "\n")
  }

  /** The exclude file after stealth setup: unchanged when it already has
      the pattern line, else with the lines appended. */
  function StealthExclude(existing: string): string {
    if HasExactLine(existing, BeadcrumbsPattern) then existing
    else AppendExclude(existing, StealthComment, BeadcrumbsPattern)
  }

  /** A last line without its newline scans the same with one. */
  lemma {:induction false} ScanLinesNewline(e: string)
    requires e != [] && e[|e| - 1] != '\n'
    ensures ScanLines(e + "\n") == ScanLines(e)
    decreases |e|
  {
    var s := e + "\n";
    match IndexOf(e, '\n')
    case None =>
      IndexOfUnique(s, '\n', |e|);
      assert s[..|e|] == e;
      assert s[|e| + 1..] == [];
    case Some(i) =>
      IndexOfAppend(e, "\n", '\n');
      assert s[..i] == e[..i];
      assert s[i + 1..] == e[i + 1..] + "\n";
      ScanLinesNewline(e[i + 1..]);
  }

  /** The separator keeps the old lines and leaves the text ending a line. */
  lemma SeparatorKeepsLines(existing: string)
    ensures var separated := existing + Separator(existing);
      (separated == [] || separated[|separated| - 1] == '\n') && ScanLines(separated) == ScanLines(existing)
  {
    if |existing| > 0 && !HasSuffix(existing, "\n") {
      assert existing[|existing| - 1] != '\n' by {
        assert existing[|existing| - 1..] == [existing[|existing| - 1]];
      }
      ScanLinesNewline(existing);
    } else if |existing| > 0 {
      assert existing[|existing| - 1..] == "\n";
      assert existing + Separator(existing) == existing;
    } else {
      assert existing + Separator(existing) == existing;
    }
  }

  /** One-line texts without a trailing carriage return. */
  predicate OneLine(s: string) {
    '\n' !in s && (s == [] || s[|s| - 1] != '\r')
  }

  /** The three appended lines scan as a blank line, the comment and the
      pattern. */
  lemma TailLines(comment: string, pattern: string)
    requires OneLine(comment) && OneLine(pattern)
    ensures ScanLines("\n" + comment + "\n" + (pattern + "\n")) == ["", comment, pattern]
  {
    var middle := comment + "\n" + (pattern + "\n");
    assert "\n" + comment + "\n" + (pattern + "\n") == "\n" + middle;
    ScanLinesBlank(middle);
    LastTwoLines(comment, pattern);
  }

  lemma ScanLinesBlank(rest: string)
    ensures ScanLines("\n" + rest) == [""] + ScanLines(rest)
  {
    ScanLinesLine("", rest);
    assert "" + "\n" + rest == "\n" + rest;
  }

  lemma LastTwoLines(comment: string, pattern: string)
    requires OneLine(comment) && OneLine(pattern)
    ensures ScanLines(comment + "\n" + (pattern + "\n")) == [comment, pattern]
  {
    ScanLinesLine(pattern, "");
    assert pattern + "\n" + "" == pattern + "\n";
    ScanLinesLine(comment, pattern + "\n");
  }

  /** The appended text scans as a blank line, the comment and the pattern,
      after the old lines. */
  lemma AppendExcludeLines(existing: string, comment: string, pattern: string)
    requires OneLine(comment) && OneLine(pattern)
    ensures ScanLines(AppendExclude(existing, comment, pattern)) == ScanLines(existing) + ["", comment, pattern]
  {
    var separated := existing + Separator(existing);
    SeparatorKeepsLines(existing);
    var tail := "\n" + comment + "\n" + (pattern + "\n");
    assert AppendExclude(existing, comment, pattern) == separated + tail;
    ScanLinesAppend(separated, tail);
    TailLines(comment, pattern);
  }

  lemma StealthTexts()
    ensures OneLine(StealthComment) && OneLine(BeadcrumbsPattern) && TrimSpace(BeadcrumbsPattern) == BeadcrumbsPattern
  {
    StealthCommentLine();
    TrimSpaceKeeps(BeadcrumbsPattern);
  }

  lemma StealthCommentLine()
    ensures OneLine(StealthComment)
  {
    var head, tail := StealthCommentHead, StealthCommentTail;
    assert '\n' !in head && '\n' !in tail;
    assert tail[|tail| - 1] == ')';
    assert StealthComment == head + tail;
  }

  /** Without the pattern, the file keeps every line it had, its last one
      not joined to what follows, and gains the blank line, the comment
      and the pattern, in that order. */
  lemma StealthAppendsLines(existing: string)
    requires !HasExactLine(existing, BeadcrumbsPattern)
    ensures ScanLines(StealthExclude(existing)) == ScanLines(existing) + ["", StealthComment, BeadcrumbsPattern]
  {
    StealthTexts();
    AppendExcludeLines(existing, StealthComment, BeadcrumbsPattern);
  }

  /** After stealth setup the pattern line is present. */
  lemma StealthPresent(existing: string)
    ensures HasExactLine(StealthExclude(existing), BeadcrumbsPattern)
  {
    if !HasExactLine(existing, BeadcrumbsPattern) {
      StealthAppendsLines(existing);
      StealthTexts();
      var lines := ScanLines(StealthExclude(existing));
      assert lines[|lines| - 1] == BeadcrumbsPattern;
      assert TrimSpace(lines[|lines| - 1]) == BeadcrumbsPattern;
    }
  }

  /** The append keeps the old text as a prefix. */
  lemma AppendKeepsText(existing: string, comment: string, pattern: string)
    ensures HasPrefix(AppendExclude(existing, comment, pattern), existing)
  {
    var rest := Separator(existing) + ("\n" + comment + "\n") + (pattern + "\n");
    assert AppendExclude(existing, comment, pattern) == existing + rest;
    assert (existing + rest)[..|existing|] == existing;
  }

  /** Stealth setup keeps the old text as a prefix. */
  lemma StealthKeepsText(existing: string)
    ensures HasPrefix(StealthExclude(existing), existing)
  {
    if !HasExactLine(existing, BeadcrumbsPattern) {
      AppendKeepsText(existing, StealthComment, BeadcrumbsPattern);
    }
  }

  /** A second stealth setup changes nothing. */
  lemma StealthIdempotent(existing: string)
    ensures StealthExclude(StealthExclude(existing)) == StealthExclude(existing)
  {
    StealthPresent(existing);
  }

  // ----- writing files

  /** `os.MkdirAll` of one directory: nothing to do when it exists, a
      failure when it cannot be created. */
  function MkdirAll(dirs: set<string>, readOnly: set<string>, path: string): Option<set<string>> {
    if path in dirs then Some(dirs) else if path in readOnly then None else Some(dirs + {path})
  }

  /** Writing files one after the other, stopping at the first that cannot
      be written: the new contents and the path that failed, if any. */
  function WriteInOrder(files: map<string, string>, readOnly: set<string>, writes: seq<(string, string)>)
    : (map<string, string>, Option<string>)
  {
    if writes == [] then (files, None)
    else
      var (before, failed) := WriteInOrder(files, readOnly, writes[..|writes| - 1]);
      var (path, content) := writes[|writes| - 1];
      if failed.Some? then (before, failed)
      else if path in readOnly then (before, Some(path))
      else (before[path := content], None)
  }

  lemma WriteInOrderStep(files: map<string, string>, readOnly: set<string>, writes: seq<(string, string)>, i: nat)
    requires i < |writes| && WriteInOrder(files, readOnly, writes[..i]).1.None?
    ensures WriteInOrder(files, readOnly, writes[..i + 1]) ==
      var before := WriteInOrder(files, readOnly, writes[..i]).0;
      if writes[i].0 in readOnly then (before, Some(writes[i].0)) else (before[writes[i].0 := writes[i].1], None)
  {
    assert writes[..i + 1][..i] == writes[..i];
  }

  /** Once a write has failed, the later ones are not attempted. */
  lemma {:induction false} WriteInOrderStops(files: map<string, string>, readOnly: set<string>, writes: seq<(string, string)>, i: nat)
    requires i <= |writes| && WriteInOrder(files, readOnly, writes[..i]).1.Some?
    ensures WriteInOrder(files, readOnly, writes) == WriteInOrder(files, readOnly, writes[..i])
    decreases |writes|
  {
    if i < |writes| {
      var n := |writes| - 1;
      assert writes[..n][..i] == writes[..i];
      WriteInOrderStops(files, readOnly, writes[..n], i);
    } else {
      assert writes[..i] == writes;
    }
  }

  /** The `k`-th write is the last one to its path. */
  ghost predicate LastWriteAt(writes: seq<(string, string)>, k: nat)
    requires k < |writes|
  {
    forall j :: k < j < |writes| ==> writes[j].0 != writes[k].0
  }

  /** Each path written ends with the last content written to it. */
  ghost predicate LastWritesIn(after: map<string, string>, writes: seq<(string, string)>) {
    forall k :: 0 <= k < |writes| && LastWriteAt(writes, k) ==>
      writes[k].0 in after && after[writes[k].0] == writes[k].1
  }

  /** Every file not written is as it was. */
  ghost predicate OthersUnchanged(files: map<string, string>, after: map<string, string>, writes: seq<(string, string)>) {
    forall p :: (forall k :: 0 <= k < |writes| ==> writes[k].0 != p) ==>
      (p in after <==> p in files) && (p in files ==> after[p] == files[p])
  }

  /** None of the paths written is read-only. */
  predicate Writable(readOnly: set<string>, writes: seq<(string, string)>) {
    forall k :: 0 <= k < |writes| ==> writes[k].0 !in readOnly
  }

  /** When none of the paths is read-only, every write happens, each path
      ends with the last content written to it, and no other file changes. */
  lemma {:induction false} WriteInOrderAll(files: map<string, string>, readOnly: set<string>, writes: seq<(string, string)>)
    requires Writable(readOnly, writes)
    ensures var (after, failed) := WriteInOrder(files, readOnly, writes);
      failed.None? && LastWritesIn(after, writes) && OthersUnchanged(files, after, writes)
  {
    if writes != [] {
      var n := |writes| - 1;
      var init := writes[..n];
      var before := WriteInOrder(files, readOnly, init).0;
      assert WriteInOrder(files, readOnly, init).1.None? && LastWritesIn(before, init) && OthersUnchanged(files, before, init) by {
        assert forall k :: 0 <= k < n ==> init[k] == writes[k];
        WriteInOrderAll(files, readOnly, init);
      }
      assert WriteInOrder(files, readOnly, writes) == (before[writes[n].0 := writes[n].1], None);
      LastWritesStep(before, writes);
      OthersUnchangedStep(files, before, writes);
    }
  }

  /** One more write keeps `LastWritesIn`. */
  lemma LastWritesStep(before: map<string, string>, writes: seq<(string, string)>)
    requires writes != [] && LastWritesIn(before, writes[..|writes| - 1])
    ensures LastWritesIn(before[writes[|writes| - 1].0 := writes[|writes| - 1].1], writes)
  {
    var n := |writes| - 1;
    var init := writes[..n];
    var after := before[writes[n].0 := writes[n].1];
    forall k | 0 <= k < |writes| && LastWriteAt(writes, k)
      ensures writes[k].0 in after && after[writes[k].0] == writes[k].1
    {
      if k < n {
        assert writes[n].0 != writes[k].0;
        LastWriteInInit(writes, k);
      }
    }
  }

  lemma LastWriteInInit(writes: seq<(string, string)>, k: nat)
    requires k < |writes| - 1 && LastWriteAt(writes, k)
    ensures writes[..|writes| - 1][k] == writes[k] && LastWriteAt(writes[..|writes| - 1], k)
  {
    var init := writes[..|writes| - 1];
    forall j | k < j < |init| ensures init[j].0 != init[k].0 {
      assert init[j] == writes[j];
    }
  }

  /** One more write keeps `OthersUnchanged`. */
  lemma OthersUnchangedStep(files: map<string, string>, before: map<string, string>, writes: seq<(string, string)>)
    requires writes != [] && OthersUnchanged(files, before, writes[..|writes| - 1])
    ensures OthersUnchanged(files, before[writes[|writes| - 1].0 := writes[|writes| - 1].1], writes)
  {
    var n := |writes| - 1;
    var init := writes[..n];
    var after := before[writes[n].0 := writes[n].1];
    forall q | forall k :: 0 <= k < |writes| ==> writes[k].0 != q
      ensures (q in after <==> q in files) && (q in files ==> after[q] == files[q])
    {
      assert writes[n].0 != q;
      forall k | 0 <= k < n ensures init[k].0 != q {
        assert init[k] == writes[k];
      }
    }
  }

  /** A write fails only at a read-only path it was asked to write. */
  lemma {:induction false} WriteInOrderFails(files: map<string, string>, readOnly: set<string>, writes: seq<(string, string)>)
    requires WriteInOrder(files, readOnly, writes).1.Some?
    ensures var p := WriteInOrder(files, readOnly, writes).1.value;
      p in readOnly && exists k :: 0 <= k < |writes| && writes[k].0 == p
  {
    var n := |writes| - 1;
    if WriteInOrder(files, readOnly, writes[..n]).1.Some? {
      WriteInOrderFails(files, readOnly, writes[..n]);
      var p := WriteInOrder(files, readOnly, writes[..n]).1.value;
      var k :| 0 <= k < n && writes[..n][k].0 == p;
      assert writes[k].0 == p;
    }
  }

  /** The loop that writes the files. */
  method WriteFiles(fs: FileSystem, writes: seq<(string, string)>) returns (failed: Option<string>)
    modifies fs
    ensures (fs.files, failed) == WriteInOrder(old(fs.files), fs.readOnly, writes)
    ensures fs.dirs == old(fs.dirs)
  {
    ghost var files := fs.files;
    var i := 0;
    while i < |writes|
      invariant 0 <= i <= |writes|
      invariant fs.dirs == old(fs.dirs)
      invariant (fs.files, None) == WriteInOrder(files, fs.readOnly, writes[..i])
    {
      WriteInOrderStep(files, fs.readOnly, writes, i);
      var (path, content) := writes[i];
      if path in fs.readOnly {
        WriteInOrderStops(files, fs.readOnly, writes, i + 1);
        return Some(path);
      }
      fs.files := fs.files[path := content];
      i := i + 1;
    }
    assert writes[..i] == writes;
    return None;
  }

  /** `os.MkdirAll` on the modelled file system. */
  method MakeDir(fs: FileSystem, path: string) returns (ok: bool)
    modifies fs
    ensures ok <==> MkdirAll(old(fs.dirs), fs.readOnly, path).Some?
    ensures ok ==> fs.dirs == MkdirAll(old(fs.dirs), fs.readOnly, path).value
    ensures !ok ==> fs.dirs == old(fs.dirs)
    ensures fs.files == old(fs.files)
  {
    if path in fs.dirs {
      return true;
    }
    if path in fs.readOnly {
      return false;
    }
    fs.dirs := fs.dirs + {path};
    return true;
  }

  /** The exclude file under the git directory. */
  function ExcludePath(gitDir: string): string {
    gitDir + "/info/exclude"
  }

  /** What `setupStealthMode` does given the git directory (none outside
      a repository): its error and the new files and directories. */
  function StealthSpec(files: map<string, string>, dirs: set<string>, readOnly: set<string>, gitDir: Option<string>)
    : (Option<Error>, map<string, string>, set<string>)
  {
    match gitDir
    case None => (Some(Wrapped("not a git repository", GitFailed)), files, dirs)
    case Some(g) =>
      match MkdirAll(dirs, readOnly, g + "/info")
      case None => (Some(Wrapped("failed to create .git/info directory", CreateFailed(g + "/info"))), files, dirs)
      case Some(withInfo) =>
        var path := ExcludePath(g);
        var existing := if path in files then files[path] else "";
        if HasExactLine(existing, BeadcrumbsPattern) then (None, files, withInfo)
        else if path in readOnly then (Some(Wrapped("failed to open exclude file", OpenFailed(path))), files, withInfo)
        else (None, files[path := StealthExclude(existing)], withInfo)
  }

  /** `setupStealthMode`. */
  method SetupStealthMode(fs: FileSystem, gitDir: Option<string>) returns (err: Option<Error>)
    modifies fs
    ensures (err, fs.files, fs.dirs) == StealthSpec(old(fs.files), old(fs.dirs), fs.readOnly, gitDir)
  {
    if gitDir.None? {
      return Some(Wrapped("not a git repository", GitFailed));
    }
    var g := gitDir.value;
    var infoMade := MakeDir(fs, g + "/info");
    if !infoMade {
      return Some(Wrapped("failed to create .git/info directory", CreateFailed(g + "/info")));
    }
    var path := g + "/info/exclude";
    var existing := "";
    if path in fs.files {
      existing := fs.files[path];
    }
    var present := ContainsExactPattern(existing, BeadcrumbsPattern);
    if present {
      return None;
    }
    if path in fs.readOnly {
      return Some(Wrapped("failed to open exclude file", OpenFailed(path)));
    }
    var appended := existing;
    if |existing| > 0 && !HasSuffix(existing, "\n") {
      appended := appended + "\n";
    }
    assert appended == existing + Separator(existing);
    appended := appended + ("\n" + StealthComment + "\n");
    appended := appended + (BeadcrumbsPattern + "\n");
    fs.files := fs.files[path := appended];
    return None;
  }

  // ----- installGitHooks

  /** A hook script: the shell line, then a comment that starts with
      the word the merge rule looks for. */
  function HookScript(body: string): string {
    "#!/bin/sh\n# " + "beadcrumbs" + body
  }

  const PostCommitBody :=
    ": Export insights after commit\n# This hook exports local insights to JSONL for version control\n" +
    "if command -v bdc >/dev/null 2>&1; then\n    bdc export --quiet 2>/dev/null || true\nfi\n"
  const PostMergeBody :=
    ": Import insights after merge/pull\n# This hook imports JSONL changes from other collaborators\n" +
    "if command -v bdc >/dev/null 2>&1; then\n    bdc import --auto --quiet 2>/dev/null || true\nfi\n"
  const PostCheckoutBody :=
    ": Import insights after checkout\n# This hook imports JSONL changes when switching branches\n" +
    "if command -v bdc >/dev/null 2>&1; then\n    bdc import --auto --quiet 2>/dev/null || true\nfi\n"

  const PostCommitHook := HookScript(PostCommitBody)
  const PostMergeHook := HookScript(PostMergeBody)
  const PostCheckoutHook := HookScript(PostCheckoutBody)

  /** The hooks by name, in the order this model installs them. */
  const GitHooks: seq<(string, string)> :=
    [("post-commit", PostCommitHook), ("post-merge", PostMergeHook), ("post-checkout", PostCheckoutHook)]

  /** The merge rule: a new hook is the script; an existing one that
      mentions beadcrumbs is left alone (`None`); any other gets the
      script after a newline. */
  function MergedHook(existing: Option<string>, script: string): Option<string> {
    match existing
    case None => Some(script)
    case Some(e) => if Contains(e, "beadcrumbs") then None else Some(e + "\n" + script)
  }

  /** The hook file after the merge rule. */
  function HookAfter(existing: Option<string>, script: string): string {
    match MergedHook(existing, script)
    case None => existing.value
    case Some(merged) => merged
  }

  /** The hook file then mentions beadcrumbs, keeps the old hook as its
      start, and merging again leaves it alone. */
  lemma HookMergeKeeps(existing: Option<string>, script: string)
    requires Contains(script, "beadcrumbs")
    ensures Contains(HookAfter(existing, script), "beadcrumbs")
    ensures existing.Some? ==> HasPrefix(HookAfter(existing, script), existing.value)
    ensures MergedHook(Some(HookAfter(existing, script)), script) == None
  {
    if existing.Some? && !Contains(existing.value, "beadcrumbs") {
      ContainsInSuffix(existing.value + "\n", script, "beadcrumbs");
    }
  }

  lemma ScriptMentionsBeadcrumbs(body: string)
    ensures Contains(HookScript(body), "beadcrumbs")
  {
    var word := "beadcrumbs" + body;
    assert word[..10] == "beadcrumbs";
    assert Contains(word, "beadcrumbs");
    ContainsInSuffix("#!/bin/sh\n# ", word, "beadcrumbs");
    assert HookScript(body) == "#!/bin/sh\n# " + word;
  }

  lemma ScriptsMentionBeadcrumbs()
    ensures forall k :: 0 <= k < |GitHooks| ==> Contains(GitHooks[k].1, "beadcrumbs")
  {
    ScriptMentionsBeadcrumbs(PostCommitBody);
    ScriptMentionsBeadcrumbs(PostMergeBody);
    ScriptMentionsBeadcrumbs(PostCheckoutBody);
  }

  /** The writes the hook loop makes, in order. */
  function HookWrites(files: map<string, string>, hooksDir: string, hooks: seq<(string, string)>): seq<(string, string)> {
    if hooks == [] then []
    else
      var (name, script) := hooks[|hooks| - 1];
      var path := hooksDir + "/" + name;
      var merged := MergedHook(if path in files then Some(files[path]) else None, script);
      HookWrites(files, hooksDir, hooks[..|hooks| - 1]) + (if merged.Some? then [(path, merged.value)] else [])
  }

  /** What `installGitHooks` leaves: outside a repository, or when the
      hooks directory cannot be made, nothing changes. */
  function GitHooksSpec(files: map<string, string>, dirs: set<string>, readOnly: set<string>, gitDir: Option<string>)
    : (map<string, string>, set<string>)
  {
    match gitDir
    case None => (files, dirs)
    case Some(g) =>
      match MkdirAll(dirs, readOnly, g + "/hooks")
      case None => (files, dirs)
      case Some(withHooks) => (WriteInOrder(files, readOnly, HookWrites(files, g + "/hooks", GitHooks)).0, withHooks)
  }

  /** `installGitHooks`; its error is only reported as a warning. */
  method InstallGitHooks(fs: FileSystem, gitDir: Option<string>)
    modifies fs
    ensures (fs.files, fs.dirs) == GitHooksSpec(old(fs.files), old(fs.dirs), fs.readOnly, gitDir)
  {
    if gitDir.None? {
      return;
    }
    var hooksDir := gitDir.value + "/hooks";
    var made := MakeDir(fs, hooksDir);
    if !made {
      return;
    }
    var _ := WriteFiles(fs, HookWrites(fs.files, hooksDir, GitHooks));
  }

  /** Different names in one directory are different paths. */
  lemma PathsDiffer(dir: string, a: string, b: string)
    requires a != b
    ensures dir + "/" + a != dir + "/" + b
  {
    assert (dir + "/" + a)[|dir| + 1..] == a;
    assert (dir + "/" + b)[|dir| + 1..] == b;
  }

  /** Each write of the hook loop is to one of the hooks' paths, with the
      merged hook. */
  lemma {:induction false} HookWritesAre(files: map<string, string>, hooksDir: string, hooks: seq<(string, string)>, k: nat)
    requires k < |HookWrites(files, hooksDir, hooks)|
    ensures exists h :: 0 <= h < |hooks| && HookWrites(files, hooksDir, hooks)[k].0 == hooksDir + "/" + hooks[h].0
  {
    var n := |hooks| - 1;
    var front := HookWrites(files, hooksDir, hooks[..n]);
    if k < |front| {
      HookWritesAre(files, hooksDir, hooks[..n], k);
      var h :| 0 <= h < n && front[k].0 == hooksDir + "/" + hooks[..n][h].0;
      assert hooks[h] == hooks[..n][h];
    }
  }

  /** A hook whose path can be written ends up merged. */
  lemma {:induction false} HookWritesCover(files: map<string, string>, hooksDir: string, hooks: seq<(string, string)>, h: nat)
    requires h < |hooks|
    requires forall i, j :: 0 <= i < j < |hooks| ==> hooks[i].0 != hooks[j].0
    ensures var path := hooksDir + "/" + hooks[h].0;
      var merged := MergedHook(if path in files then Some(files[path]) else None, hooks[h].1);
      merged.Some? ==> exists k :: (0 <= k < |HookWrites(files, hooksDir, hooks)| &&
        HookWrites(files, hooksDir, hooks)[k] == (path, merged.value) &&
        forall j :: k < j < |HookWrites(files, hooksDir, hooks)| ==> HookWrites(files, hooksDir, hooks)[j].0 != path)
  {
    var n := |hooks| - 1;
    var path := hooksDir + "/" + hooks[h].0;
    var merged := MergedHook(if path in files then Some(files[path]) else None, hooks[h].1);
    var front := HookWrites(files, hooksDir, hooks[..n]);
    var all := HookWrites(files, hooksDir, hooks);
    if merged.Some? {
      if h == n {
        assert all[|all| - 1] == (path, merged.value);
      } else {
        assert hooks[..n][h] == hooks[h];
        HookWritesCover(files, hooksDir, hooks[..n], h);
        var k :| 0 <= k < |front| && front[k] == (path, merged.value) &&
          forall j :: k < j < |front| ==> front[j].0 != path;
        assert all[k] == front[k];
        forall j | k < j < |all|
          ensures all[j].0 != path
        {
          if j >= |front| {
            assert all[j].0 == hooksDir + "/" + hooks[n].0;
            PathsDiffer(hooksDir, hooks[n].0, hooks[h].0);
          }
        }
      }
    }
  }

  // ----- init

  const EmptyTables := Tables(map[], [], map[], [], [], map[])

  /** The rows of a stealth database: the one config entry. */
  const StealthTables := EmptyTables.(config := map["stealth_mode" := "true"])

  /** The empty JSON Lines files created in the data directory. */
  function JsonlWrites(dir: string): seq<(string, string)> {
    [(dir + "/insights.jsonl", ""), (dir + "/threads.jsonl", ""), (dir + "/deps.jsonl", "")]
  }

  /** How `bdc init` ends: its error, the files and directories, and the
      rows the new database holds. */
  datatype InitEnd = InitEnd(err: Option<Error>, files: map<string, string>, dirs: set<string>, stored: Tables)

  /** The steps after the store is closed: the JSON Lines files, then,
      outside stealth mode, the git hooks. */
  function AfterStore(files: map<string, string>, dirs: set<string>, readOnly: set<string>, dir: string,
                      gitDir: Option<string>, stealth: bool, stored: Tables): InitEnd
  {
    var (created, failed) := WriteInOrder(files, readOnly, JsonlWrites(dir));
    if failed.Some? then InitEnd(Some(Wrapped("failed to create " + failed.value, CreateFailed(failed.value))), created, dirs, stored)
    else if stealth then InitEnd(None, created, dirs, stored)
    else
      var (hooked, withHooks) := GitHooksSpec(created, dirs, readOnly, gitDir);
      InitEnd(None, hooked, withHooks, stored)
  }

  /** `bdc init`, given the migrations' outcome on the new database. */
  function InitSpec(files: map<string, string>, dirs: set<string>, readOnly: set<string>, dbPath: string, dir: string,
                    gitDir: Option<string>, stealth: bool, migrationErr: Option<Error>): InitEnd
  {
    match MkdirAll(dirs, readOnly, dir)
    case None => InitEnd(Some(Wrapped("failed to create directory " + dir, CreateFailed(dir))), files, dirs, EmptyTables)
    case Some(withDir) =>
      if dbPath in files || dbPath in withDir then InitEnd(Some(DatabaseExists(dbPath)), files, withDir, EmptyTables)
      else if migrationErr.Some? then
        InitEnd(Some(Wrapped("failed to initialize database", Wrapped("failed to run migrations", migrationErr.value))),
                files, withDir, EmptyTables)
      else WithStore(files[dbPath := ""], withDir, readOnly, dir, gitDir, stealth)
  }

  /** The steps once the database is created: stealth mode and its
      configuration entry, then the steps after the store is closed. */
  function WithStore(files: map<string, string>, dirs: set<string>, readOnly: set<string>, dir: string,
                     gitDir: Option<string>, stealth: bool): InitEnd
  {
    if stealth then
      var (err, excluded, withInfo) := StealthSpec(files, dirs, readOnly, gitDir);
      if err.Some? then InitEnd(Some(Wrapped("failed to set up stealth mode", err.value)), excluded, withInfo, EmptyTables)
      else AfterStore(excluded, withInfo, readOnly, dir, gitDir, stealth, StealthTables)
    else AfterStore(files, dirs, readOnly, dir, gitDir, stealth, EmptyTables)
  }

  /** `bdc init`'s run. The caller passes as `dir` the directory part of
      `dbPath`, as `filepath.Dir` computes it. */
  method RunInit(fs: FileSystem, db: Database, dbPath: string, dir: string, gitDir: Option<string>, stealth: bool)
    returns (err: Option<Error>, stored: Tables)
    modifies fs, db
    ensures InitEnd(err, fs.files, fs.dirs, stored) ==
      InitSpec(old(fs.files), old(fs.dirs), fs.readOnly, dbPath, dir, gitDir, stealth,
               RunAll(old(db.schema), MigrationsList, db.failing).err)
  {
    stored := EmptyTables;
    var dirMade := MakeDir(fs, dir);
    if !dirMade {
      return Some(Wrapped("failed to create directory " + dir, CreateFailed(dir))), stored;
    }
    if fs.Exists(dbPath) {
      return Some(DatabaseExists(dbPath)), stored;
    }
    var newStore := NewStore(db, EmptyTables);
    if newStore.Err? {
      return Some(Wrapped("failed to initialize database", newStore.error)), stored;
    }
    fs.files := fs.files[dbPath := ""];
    err, stored := InitWithStore(fs, newStore.value, dir, gitDir, stealth);
  }

  /** The steps of `bdc init` once the database is created. */
  method InitWithStore(fs: FileSystem, st: Store, dir: string, gitDir: Option<string>, stealth: bool)
    returns (err: Option<Error>, stored: Tables)
    requires st.Valid() && st.Snapshot() == EmptyTables
    modifies fs, st
    ensures InitEnd(err, fs.files, fs.dirs, stored) == WithStore(old(fs.files), old(fs.dirs), fs.readOnly, dir, gitDir, stealth)
  {
    stored := EmptyTables;
    if stealth {
      var stealthErr := SetupStealthMode(fs, gitDir);
      if stealthErr.Some? {
        st.Close();
        return Some(Wrapped("failed to set up stealth mode", stealthErr.value)), stored;
      }
      st.SetConfig("stealth_mode", "true");
    }
    st.Close();
    stored := st.Snapshot();
    err := FinishInit(fs, dir, gitDir, stealth, stored);
  }

  /** The steps of `bdc init` after the store is closed. */
  method FinishInit(fs: FileSystem, dir: string, gitDir: Option<string>, stealth: bool, ghost stored: Tables)
    returns (err: Option<Error>)
    modifies fs
    ensures InitEnd(err, fs.files, fs.dirs, stored) ==
      AfterStore(old(fs.files), old(fs.dirs), fs.readOnly, dir, gitDir, stealth, stored)
  {
    var failed := WriteFiles(fs, JsonlWrites(dir));
    if failed.Some? {
      return Some(Wrapped("failed to create " + failed.value, CreateFailed(failed.value)));
    }
    if !stealth {
      InstallGitHooks(fs, gitDir);
    }
    return None;
  }

  // ----- properties of init

  /** Init refuses an existing database and then writes no file. */
  lemma InitRefusesExisting(files: map<string, string>, dirs: set<string>, readOnly: set<string>, dbPath: string, dir: string,
                            gitDir: Option<string>, stealth: bool, migrationErr: Option<Error>)
    requires dbPath in files || dbPath in dirs
    requires dir in dirs || dir !in readOnly
    ensures var end := InitSpec(files, dirs, readOnly, dbPath, dir, gitDir, stealth, migrationErr);
      end.err == Some(DatabaseExists(dbPath)) && end.files == files
  {
  }

  lemma JsonlPathsEndInL(dir: string, k: nat)
    requires k < 3
    ensures var p := JsonlWrites(dir)[k].0; p != [] && p[|p| - 1] == 'l'
  {
  }

  /** The JSON Lines paths are three different files. */
  lemma JsonlPathsDistinct(dir: string)
    ensures forall i, j :: 0 <= i < j < 3 ==> JsonlWrites(dir)[i].0 != JsonlWrites(dir)[j].0
  {
    var w := JsonlWrites(dir);
    assert |w[0].0| == |dir| + 15 && |w[1].0| == |dir| + 14 && |w[2].0| == |dir| + 11;
  }

  /** A JSON Lines file is never the exclude file. */
  lemma JsonlNotExclude(dir: string, gitDir: string)
    ensures forall k :: 0 <= k < 3 ==> JsonlWrites(dir)[k].0 != ExcludePath(gitDir)
  {
    forall k | 0 <= k < 3
      ensures JsonlWrites(dir)[k].0 != ExcludePath(gitDir)
    {
      JsonlPathsEndInL(dir, k);
      var e := ExcludePath(gitDir);
      assert e[|e| - 1] == 'e';
    }
  }

  /** A successful init, in stealth mode or not, has the directory, the
      database file and the three empty JSON Lines files. */
  lemma InitCreatesFiles(files: map<string, string>, dirs: set<string>, readOnly: set<string>, dbPath: string, dir: string,
                         gitDir: Option<string>, stealth: bool, migrationErr: Option<Error>)
    requires InitSpec(files, dirs, readOnly, dbPath, dir, gitDir, stealth, migrationErr).err.None?
    ensures var end := InitSpec(files, dirs, readOnly, dbPath, dir, gitDir, stealth, migrationErr);
      dir in end.dirs && dbPath in end.files &&
      (forall k :: 0 <= k < 3 ==> JsonlWrites(dir)[k].0 in end.files && end.files[JsonlWrites(dir)[k].0] == "")
  {
    if stealth {
      StealthInitCreatesFiles(files, dirs, readOnly, dbPath, dir, gitDir, migrationErr);
    } else {
      PlainInitCreatesFiles(files, dirs, readOnly, dbPath, dir, gitDir, migrationErr);
    }
  }

  lemma StealthInitCreatesFiles(files: map<string, string>, dirs: set<string>, readOnly: set<string>, dbPath: string, dir: string,
                                gitDir: Option<string>, migrationErr: Option<Error>)
    requires InitSpec(files, dirs, readOnly, dbPath, dir, gitDir, true, migrationErr).err.None?
    ensures var end := InitSpec(files, dirs, readOnly, dbPath, dir, gitDir, true, migrationErr);
      dir in end.dirs && dbPath in end.files &&
      (forall k :: 0 <= k < 3 ==> JsonlWrites(dir)[k].0 in end.files && end.files[JsonlWrites(dir)[k].0] == "")
  {
    var withDir := MkdirAll(dirs, readOnly, dir).value;
    var withDb := files[dbPath := ""];
    var (err, excluded, withInfo) := StealthSpec(withDb, withDir, readOnly, gitDir);
    var end := InitSpec(files, dirs, readOnly, dbPath, dir, gitDir, true, migrationErr);
    assert dir in withDir;
    assert err.None? && end == AfterStore(excluded, withInfo, readOnly, dir, gitDir, true, StealthTables);
    assert dbPath in excluded && withDir <= withInfo;
    assert WriteInOrder(excluded, readOnly, JsonlWrites(dir)).1.None?;
    JsonlFilesCreated(excluded, readOnly, dir, dbPath);
  }

  /** Outside stealth mode the git hooks are installed after the JSON Lines
      files are created, and they never overwrite one. */
  lemma PlainInitCreatesFiles(files: map<string, string>, dirs: set<string>, readOnly: set<string>, dbPath: string, dir: string,
                              gitDir: Option<string>, migrationErr: Option<Error>)
    requires InitSpec(files, dirs, readOnly, dbPath, dir, gitDir, false, migrationErr).err.None?
    ensures var end := InitSpec(files, dirs, readOnly, dbPath, dir, gitDir, false, migrationErr);
      dir in end.dirs && dbPath in end.files &&
      (forall k :: 0 <= k < 3 ==> JsonlWrites(dir)[k].0 in end.files && end.files[JsonlWrites(dir)[k].0] == "")
  {
    var withDir := MkdirAll(dirs, readOnly, dir).value;
    var withDb := files[dbPath := ""];
    var end := InitSpec(files, dirs, readOnly, dbPath, dir, gitDir, false, migrationErr);
    var created := WriteInOrder(withDb, readOnly, JsonlWrites(dir)).0;
    assert dir in withDir;
    assert end == AfterStore(withDb, withDir, readOnly, dir, gitDir, false, EmptyTables);
    assert WriteInOrder(withDb, readOnly, JsonlWrites(dir)).1.None?;
    JsonlFilesCreated(withDb, readOnly, dir, dbPath);
    assert (end.files, end.dirs) == GitHooksSpec(created, withDir, readOnly, gitDir);
    forall k | 0 <= k < 3
      ensures JsonlWrites(dir)[k].0 in end.files && end.files[JsonlWrites(dir)[k].0] == ""
    {
      JsonlPathsEndInL(dir, k);
      HooksSpare(created, withDir, readOnly, gitDir, JsonlWrites(dir)[k].0);
    }
    HooksSpare(created, withDir, readOnly, gitDir, dir + "/insights.jsonl");
  }

  /** Installing the git hooks removes no file and no directory, and leaves
      alone every file whose name ends in `l`: the hook names end in `t` or
      `e`. */
  lemma HooksSpare(files: map<string, string>, dirs: set<string>, readOnly: set<string>, gitDir: Option<string>, p: string)
    requires p != [] && p[|p| - 1] == 'l'
    ensures var (after, withHooks) := GitHooksSpec(files, dirs, readOnly, gitDir);
      files.Keys <= after.Keys && dirs <= withHooks &&
      (p in after <==> p in files) && (p in files ==> after[p] == files[p])
  {
    if gitDir.Some? && MkdirAll(dirs, readOnly, gitDir.value + "/hooks").Some? {
      var hooksDir := gitDir.value + "/hooks";
      var writes := HookWrites(files, hooksDir, GitHooks);
      forall k | 0 <= k < |writes|
        ensures writes[k].0 != p
      {
        HookWritesAre(files, hooksDir, GitHooks, k);
        var h :| 0 <= h < |GitHooks| && writes[k].0 == hooksDir + "/" + GitHooks[h].0;
        var name := GitHooks[h].0;
        assert name[|name| - 1] == 't' || name[|name| - 1] == 'e';
        assert writes[k].0[|writes[k].0| - 1] == name[|name| - 1];
      }
      WriteInOrderOthers(files, readOnly, writes, p);
    }
  }

  /** Writing in order removes no file, and a path that is not written
      keeps its content, whether or not a write fails. */
  lemma {:induction false} WriteInOrderOthers(files: map<string, string>, readOnly: set<string>, writes: seq<(string, string)>, p: string)
    ensures files.Keys <= WriteInOrder(files, readOnly, writes).0.Keys
    ensures (forall k :: 0 <= k < |writes| ==> writes[k].0 != p) ==>
      var after := WriteInOrder(files, readOnly, writes).0;
      (p in after <==> p in files) && (p in files ==> after[p] == files[p])
  {
    if writes != [] {
      var n := |writes| - 1;
      WriteInOrderOthers(files, readOnly, writes[..n], p);
      if forall k :: 0 <= k < |writes| ==> writes[k].0 != p {
        assert forall k :: 0 <= k < n ==> writes[..n][k].0 != p;
      }
    }
  }

  /** When no write fails, the JSON Lines files exist and are empty and an
      existing file is still there. */
  lemma JsonlFilesCreated(files: map<string, string>, readOnly: set<string>, dir: string, kept: string)
    requires WriteInOrder(files, readOnly, JsonlWrites(dir)).1.None? && kept in files
    ensures var created := WriteInOrder(files, readOnly, JsonlWrites(dir)).0;
      kept in created && forall k :: 0 <= k < 3 ==> JsonlWrites(dir)[k].0 in created && created[JsonlWrites(dir)[k].0] == ""
  {
    var writes := JsonlWrites(dir);
    WriteInOrderNoneWritable(files, readOnly, writes);
    WriteInOrderAll(files, readOnly, writes);
    JsonlPathsDistinct(dir);
    var created := WriteInOrder(files, readOnly, writes).0;
    forall k | 0 <= k < 3
      ensures writes[k].0 in created && created[writes[k].0] == ""
    {
      assert LastWriteAt(writes, k);
    }
    if forall k :: 0 <= k < 3 ==> writes[k].0 != kept {
      assert kept in created;
    }
  }

  /** A run that fails no write had no read-only path to write. */
  lemma WriteInOrderNoneWritable(files: map<string, string>, readOnly: set<string>, writes: seq<(string, string)>)
    requires WriteInOrder(files, readOnly, writes).1.None?
    ensures forall k :: 0 <= k < |writes| ==> writes[k].0 !in readOnly
  {
    forall k | 0 <= k < |writes|
      ensures writes[k].0 !in readOnly
    {
      WriteInOrderNoneBefore(files, readOnly, writes, k);
    }
  }

  lemma {:induction false} WriteInOrderNoneBefore(files: map<string, string>, readOnly: set<string>, writes: seq<(string, string)>, k: nat)
    requires k < |writes| && WriteInOrder(files, readOnly, writes).1.None?
    ensures writes[k].0 !in readOnly
  {
    var n := |writes| - 1;
    if k < n {
      assert writes[..n][k] == writes[k];
      WriteInOrderNoneBefore(files, readOnly, writes[..n], k);
    }
  }

  /** A stealth setup that succeeds leaves the pattern in the exclude file. */
  lemma StealthSpecHides(files: map<string, string>, dirs: set<string>, readOnly: set<string>, gitDir: Option<string>)
    requires StealthSpec(files, dirs, readOnly, gitDir).0.None?
    ensures gitDir.Some? && ExcludePath(gitDir.value) in StealthSpec(files, dirs, readOnly, gitDir).1 &&
      HasExactLine(StealthSpec(files, dirs, readOnly, gitDir).1[ExcludePath(gitDir.value)], BeadcrumbsPattern)
  {
    var g := gitDir.value;
    var path := ExcludePath(g);
    var existing := if path in files then files[path] else "";
    var after := StealthSpec(files, dirs, readOnly, gitDir).1;
    assert MkdirAll(dirs, readOnly, g + "/info").Some?;
    if HasExactLine(existing, BeadcrumbsPattern) {
      assert after == files;
      assert !HasExactLine("", BeadcrumbsPattern) by {
        assert ScanLines("") == [];
      }
    } else {
      assert after == files[path := StealthExclude(existing)];
      StealthPresent(existing);
    }
  }

  /** A successful stealth init leaves the pattern in the exclude file and
      the stealth flag in the database's config. */
  lemma InitStealthHides(files: map<string, string>, dirs: set<string>, readOnly: set<string>, dbPath: string, dir: string,
                         gitDir: Option<string>, migrationErr: Option<Error>)
    requires InitSpec(files, dirs, readOnly, dbPath, dir, gitDir, true, migrationErr).err.None?
    ensures var end := InitSpec(files, dirs, readOnly, dbPath, dir, gitDir, true, migrationErr);
      gitDir.Some? && ExcludePath(gitDir.value) in end.files &&
      HasExactLine(end.files[ExcludePath(gitDir.value)], BeadcrumbsPattern) &&
      end.stored.config["stealth_mode"] == "true"
  {
    var withDir := MkdirAll(dirs, readOnly, dir).value;
    var withDb := files[dbPath := ""];
    var (err, excluded, withInfo) := StealthSpec(withDb, withDir, readOnly, gitDir);
    StealthSpecHides(withDb, withDir, readOnly, gitDir);
    var path := ExcludePath(gitDir.value);
    WriteInOrderNoneWritable(excluded, readOnly, JsonlWrites(dir));
    WriteInOrderAll(excluded, readOnly, JsonlWrites(dir));
    JsonlNotExclude(dir, gitDir.value);
    var end := InitSpec(files, dirs, readOnly, dbPath, dir, gitDir, true, migrationErr);
    assert end.files == WriteInOrder(excluded, readOnly, JsonlWrites(dir)).0;
  }

  /** The hook paths are three different files. */
  lemma HookNamesDistinct()
    ensures forall i, j :: 0 <= i < j < |GitHooks| ==> GitHooks[i].0 != GitHooks[j].0
  {
    assert |GitHooks[0].0| == 11 && |GitHooks[1].0| == 10 && |GitHooks[2].0| == 13;
  }

  /** Where the hooks directory exists or can be made and no hook file is
      read-only, every hook mentions beadcrumbs afterwards and keeps the
      hook that was there as its start. */
  lemma HooksInstalled(files: map<string, string>, dirs: set<string>, readOnly: set<string>, g: string, h: nat)
    requires h < |GitHooks|
    requires MkdirAll(dirs, readOnly, g + "/hooks").Some?
    requires forall i :: 0 <= i < |GitHooks| ==> g + "/hooks/" + GitHooks[i].0 !in readOnly
    ensures var path := g + "/hooks/" + GitHooks[h].0;
      var after := GitHooksSpec(files, dirs, readOnly, Some(g)).0;
      path in after && Contains(after[path], "beadcrumbs") &&
      (path in files ==> HasPrefix(after[path], files[path]))
  {
    var hooksDir := g + "/hooks";
    var path := hooksDir + "/" + GitHooks[h].0;
    assert path == g + "/hooks/" + GitHooks[h].0;
    var existing := if path in files then Some(files[path]) else None;
    var writes := HookWrites(files, hooksDir, GitHooks);
    var after := WriteInOrder(files, readOnly, writes).0;
    assert GitHooksSpec(files, dirs, readOnly, Some(g)).0 == after;
    HookWritesWritable(files, readOnly, g);
    assert path in after && after[path] == HookAfter(existing, GitHooks[h].1) by {
      if MergedHook(existing, GitHooks[h].1).Some? {
        HookLandsMerged(files, readOnly, hooksDir, h);
      } else {
        HookLeftAlone(files, readOnly, hooksDir, h);
      }
    }
    ScriptsMentionBeadcrumbs();
    HookMergeKeeps(existing, GitHooks[h].1);
  }

  /** No write of the hook loop is to a read-only file when no hook file is. */
  lemma HookWritesWritable(files: map<string, string>, readOnly: set<string>, g: string)
    requires forall i :: 0 <= i < |GitHooks| ==> g + "/hooks/" + GitHooks[i].0 !in readOnly
    ensures Writable(readOnly, HookWrites(files, g + "/hooks", GitHooks))
  {
    var hooksDir := g + "/hooks";
    var writes := HookWrites(files, hooksDir, GitHooks);
    forall k | 0 <= k < |writes|
      ensures writes[k].0 !in readOnly
    {
      HookWritesAre(files, hooksDir, GitHooks, k);
      var i :| 0 <= i < |GitHooks| && writes[k].0 == hooksDir + "/" + GitHooks[i].0;
      assert hooksDir + "/" + GitHooks[i].0 == g + "/hooks/" + GitHooks[i].0;
    }
  }

  /** A hook that gets merged ends with its merge. */
  lemma HookLandsMerged(files: map<string, string>, readOnly: set<string>, hooksDir: string, h: nat)
    requires h < |GitHooks|
    requires Writable(readOnly, HookWrites(files, hooksDir, GitHooks))
    requires var path := hooksDir + "/" + GitHooks[h].0;
      MergedHook(if path in files then Some(files[path]) else None, GitHooks[h].1).Some?
    ensures var path := hooksDir + "/" + GitHooks[h].0;
      var after := WriteInOrder(files, readOnly, HookWrites(files, hooksDir, GitHooks)).0;
      path in after && after[path] == MergedHook(if path in files then Some(files[path]) else None, GitHooks[h].1).value
  {
    var path := hooksDir + "/" + GitHooks[h].0;
    var merged := MergedHook(if path in files then Some(files[path]) else None, GitHooks[h].1);
    var writes := HookWrites(files, hooksDir, GitHooks);
    HookNamesDistinct();
    HookWritesCover(files, hooksDir, GitHooks, h);
    var k :| 0 <= k < |writes| && writes[k] == (path, merged.value) &&
      forall j :: k < j < |writes| ==> writes[j].0 != path;
    assert LastWriteAt(writes, k);
    WriteInOrderAll(files, readOnly, writes);
  }

  /** A hook that already mentions beadcrumbs is not written. */
  lemma HookLeftAlone(files: map<string, string>, readOnly: set<string>, hooksDir: string, h: nat)
    requires h < |GitHooks|
    requires Writable(readOnly, HookWrites(files, hooksDir, GitHooks))
    requires var path := hooksDir + "/" + GitHooks[h].0;
      MergedHook(if path in files then Some(files[path]) else None, GitHooks[h].1).None?
    ensures var path := hooksDir + "/" + GitHooks[h].0;
      var after := WriteInOrder(files, readOnly, HookWrites(files, hooksDir, GitHooks)).0;
      path in files && path in after && after[path] == files[path]
  {
    var path := hooksDir + "/" + GitHooks[h].0;
    var writes := HookWrites(files, hooksDir, GitHooks);
    forall k | 0 <= k < |writes|
      ensures writes[k].0 != path
    {
      HookWritesAre(files, hooksDir, GitHooks, k);
      var i :| 0 <= i < |GitHooks| && writes[k].0 == hooksDir + "/" + GitHooks[i].0;
      if i != h {
        assert GitHooks[i].0 != GitHooks[h].0 by {
          HookNamesDistinct();
        }
        PathsDiffer(hooksDir, GitHooks[i].0, GitHooks[h].0);
      } else {
        HookWriteMerged(files, hooksDir, GitHooks, k);
      }
    }
    WriteInOrderAll(files, readOnly, writes);
  }

  /** Each write holds the merge of the hook at its path. */
  lemma {:induction false} HookWriteMerged(files: map<string, string>, hooksDir: string, hooks: seq<(string, string)>, k: nat)
    requires k < |HookWrites(files, hooksDir, hooks)|
    ensures exists h :: (0 <= h < |hooks| && HookWrites(files, hooksDir, hooks)[k].0 == hooksDir + "/" + hooks[h].0 &&
      var path := hooksDir + "/" + hooks[h].0;
      MergedHook(if path in files then Some(files[path]) else None, hooks[h].1).Some?)
  {
    var n := |hooks| - 1;
    var front := HookWrites(files, hooksDir, hooks[..n]);
    if k < |front| {
      HookWriteMerged(files, hooksDir, hooks[..n], k);
      var h :| 0 <= h < n && front[k].0 == hooksDir + "/" + hooks[..n][h].0 &&
        var path := hooksDir + "/" + hooks[..n][h].0;
        MergedHook(if path in files then Some(files[path]) else None, hooks[..n][h].1).Some?;
      assert hooks[h] == hooks[..n][h];
    }
  }
}
