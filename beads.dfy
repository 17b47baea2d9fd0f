/** The beads integration: identifier prefixes and external references
    such as `linear:TASK-123` or `gh:owner/repo#42`. Each regular
    expression of the Go code is written out as a predicate over the text
    after its fixed prefix; all of them are anchored at both ends. */
module Beads {
  import opened Wrappers
  import opened Text
  import opened Types

  /** `IsBeadID`: longer than five bytes and starting "bead-" or "bd-". */
  predicate IsBeadID(id: string) {
    |id| > 5 && (id[..5] == "bead-" || id[..3] == "bd-")
  }

  /** `IsInsightID`. */
  predicate IsInsightID(id: string) {
    |id| > 4 && id[..4] == "ins-"
  }

  /** `IsThreadID`. */
  predicate IsThreadID(id: string) {
    |id| > 4 && id[..4] == "thr-"
  }

  /** The three prefixes exclude each other, and every identifier that
      `GenerateID` makes for insights and threads is recognised as such. */
  lemma IdKinds(id: string, rnd: RandomWord)
    ensures !(IsBeadID(id) && IsInsightID(id))
    ensures !(IsBeadID(id) && IsThreadID(id))
    ensures !(IsInsightID(id) && IsThreadID(id))
    ensures IsInsightID(GenerateID("ins", rnd)) && !IsBeadID(GenerateID("ins", rnd))
    ensures IsThreadID(GenerateID("thr", rnd)) && !IsBeadID(GenerateID("thr", rnd))
  {
    if IsBeadID(id) && (IsInsightID(id) || IsThreadID(id)) {
      assert id[0] == id[..5][0] == id[..4][0];
    }
    var i := GenerateID("ins", rnd);
    PrefixChar(i, "ins-", 0);
    assert i[..4] == "ins-";
    var t := GenerateID("thr", rnd);
    PrefixChar(t, "thr-", 0);
    assert t[..4] == "thr-";
  }

  /** `ExternalRef`. */
  datatype ExternalRef = ExternalRef(system: string, id: string, raw: string)

  predicate AllDigits(s: string) {
    forall i :: 0 <= i < |s| ==> IsDigit(s[i])
  }

  /** `[A-Z]+-\d+` matching all of `s`. */
  predicate IsKeyNumber(s: string) {
    match IndexOf(s, '-')
    case None => false
    case Some(i) =>
      0 < i && i + 1 < |s| && (forall k :: 0 <= k < i ==> IsUpper(s[k])) && AllDigits(s[i + 1..])
  }

  /** `[a-f0-9-]+` matching all of `s`. */
  predicate IsNotionId(s: string) {
    s != [] && forall k :: 0 <= k < |s| ==> IsHexDigit(s[k]) || s[k] == '-'
  }

  /** `([^#]+)#(\d+)` matching all of `s`: the repository and the number.
      The repository cannot hold a '#', so the split is at the first one. */
  function RepoNumber(s: string): (r: Option<(string, string)>)
    ensures r.Some? ==> r.value.0 != [] && '#' !in r.value.0 && r.value.1 != [] && AllDigits(r.value.1)
    ensures r.Some? ==> s == r.value.0 + "#" + r.value.1
  {
    match IndexOf(s, '#')
    case None => None
    case Some(i) =>
      if 0 < i && i + 1 < |s| && AllDigits(s[i + 1..]) then Some((s[..i], s[i + 1..])) else None
  }

  /** `githubPattern`: "github:" or "gh:" followed by a repository match. */
  function GithubMatch(t: string): Option<(string, string)> {
    if HasPrefix(t, "github:") then RepoNumber(t[7..])
    else if HasPrefix(t, "gh:") then RepoNumber(t[3..])
    else None
  }

  /** `strings.SplitN(t, ":", 2)` when it yields two parts: the text before
      the first ':' and the text after it. */
  function SplitColon(t: string): (r: Option<(string, string)>)
    ensures r.None? <==> ':' !in t
    ensures r.Some? ==> ':' !in r.value.0 && t == r.value.0 + ":" + r.value.1
  {
    match IndexOf(t, ':')
    case None => None
    case Some(i) => Some((t[..i], t[i + 1..]))
  }

  /** The four known-system patterns, tried in the order linear, github,
      jira, notion. */
  function KnownMatch(t: string): (r: Option<ExternalRef>)
    ensures r.Some? ==> r.value.raw == t
  {
    if HasPrefix(t, "linear:") && IsKeyNumber(t[7..]) then Some(ExternalRef("linear", t[7..], t))
    else if GithubMatch(t).Some? then
      Some(ExternalRef("github", GithubMatch(t).value.0 + "#" + GithubMatch(t).value.1, t))
    else if HasPrefix(t, "jira:") && IsKeyNumber(t[5..]) then Some(ExternalRef("jira", t[5..], t))
    else if HasPrefix(t, "notion:") && IsNotionId(t[7..]) then Some(ExternalRef("notion", t[7..], t))
    else None
  }

  /** The generic fallback: non-empty text on both sides of the first ':'. */
  function GenericMatch(t: string): (r: Option<ExternalRef>)
    ensures r.Some? <==> SplitColon(t).Some? && SplitColon(t).value.0 != "" && SplitColon(t).value.1 != ""
    ensures r.Some? ==> r.value == ExternalRef(SplitColon(t).value.0, SplitColon(t).value.1, t)
  {
    match SplitColon(t)
    case Some((system, id)) => if system != "" && id != "" then Some(ExternalRef(system, id, t)) else None
    case None => None
  }

  /** `ParseExternalRef` after trimming. */
  function ParseTrimmed(t: string): (r: Result<ExternalRef>)
    ensures r.Ok? ==> r.value.raw == t
    ensures r.Err? ==> r.error == InvalidExternalRef(t)
  {
    match KnownMatch(t)
    case Some(x) => Ok(x)
    case None =>
      match GenericMatch(t)
      case Some(x) => Ok(x)
      case None => Err(InvalidExternalRef(t))
  }

  /** `ParseExternalRef`: white space around the reference is ignored. */
  function ParseExternalRef(ref: string): (r: Result<ExternalRef>)
    ensures r.Ok? ==> r.value.raw == TrimSpace(ref)
    ensures r.Err? ==> r.error == InvalidExternalRef(TrimSpace(ref))
  {
    ParseTrimmed(TrimSpace(ref))
  }

  /** When `t` starts with `name` and a colon, and `name` has no colon, the
      split is right after `name`. */
  lemma SplitAfterName(t: string, name: string)
    requires ':' !in name && HasPrefix(t, name + ":")
    ensures SplitColon(t) == Some((name, t[|name| + 1..]))
  {
    PrefixChar(t, name + ":", |name|);
    assert t[..|name|] == (name + ":")[..|name|] == name;
    IndexOfUnique(t, ':', |name|);
  }

  /** The fixed prefixes of the four known systems exclude each other. */
  lemma KnownPrefixes(t: string)
    ensures HasPrefix(t, "linear:") ==>
      !HasPrefix(t, "github:") && !HasPrefix(t, "gh:") && !HasPrefix(t, "jira:") && !HasPrefix(t, "notion:")
    ensures HasPrefix(t, "github:") ==> !HasPrefix(t, "gh:") && !HasPrefix(t, "jira:") && !HasPrefix(t, "notion:")
    ensures HasPrefix(t, "gh:") ==> !HasPrefix(t, "jira:") && !HasPrefix(t, "notion:")
    ensures HasPrefix(t, "jira:") ==> !HasPrefix(t, "notion:")
  {
    if HasPrefix(t, "linear:") { PrefixChar(t, "linear:", 0); }
    if HasPrefix(t, "github:") { PrefixChar(t, "github:", 0); PrefixChar(t, "github:", 1); }
    if HasPrefix(t, "gh:") { PrefixChar(t, "gh:", 0); PrefixChar(t, "gh:", 1); }
    if HasPrefix(t, "jira:") { PrefixChar(t, "jira:", 0); }
    if HasPrefix(t, "notion:") { PrefixChar(t, "notion:", 0); }
  }

  /** Every known-system match is also a generic match with the same
      identifier; the system differs only for "gh", which becomes
      "github". */
  lemma KnownIsGeneric(t: string)
    requires KnownMatch(t).Some?
    ensures GenericMatch(t).Some? && KnownMatch(t).value.id == GenericMatch(t).value.id
    ensures KnownMatch(t).value.system == (if GithubMatch(t).Some? then "github" else GenericMatch(t).value.system)
  {
    KnownPrefixes(t);
    var x := KnownMatch(t).value;
    if HasPrefix(t, "linear:") && IsKeyNumber(t[7..]) {
      assert GithubMatch(t).None? && x == ExternalRef("linear", t[7..], t);
      GenericAfterName(t, "linear");
    } else if GithubMatch(t).Some? {
      GithubIsGeneric(t);
    } else if HasPrefix(t, "jira:") && IsKeyNumber(t[5..]) {
      assert x == ExternalRef("jira", t[5..], t);
      GenericAfterName(t, "jira");
    } else {
      assert x == ExternalRef("notion", t[7..], t);
      GenericAfterName(t, "notion");
    }
  }

  /** A GitHub match is a generic match whose identifier is the
      repository, '#' and the number. */
  lemma GithubIsGeneric(t: string)
    requires GithubMatch(t).Some?
    ensures GenericMatch(t).Some? && GenericMatch(t).value.id == GithubMatch(t).value.0 + "#" + GithubMatch(t).value.1
  {
    var (repo, number) := GithubMatch(t).value;
    if HasPrefix(t, "github:") {
      assert repo + "#" + number == t[7..];
      GenericAfterName(t, "github");
    } else {
      assert repo + "#" + number == t[3..];
      GenericAfterName(t, "gh");
    }
  }

  /** Text after `name` and a colon is a generic match with `name` as its
      system. */
  lemma GenericAfterName(t: string, name: string)
    requires ':' !in name && name != "" && HasPrefix(t, name + ":") && |t| > |name| + 1
    ensures GenericMatch(t) == Some(ExternalRef(name, t[|name| + 1..], t))
  {
    SplitAfterName(t, name);
  }

  /** Parsing succeeds exactly when the trimmed reference has text on
      both sides of its first ':'; the identifier is always the text after
      that colon, and the system is the text before it except that "gh"
      becomes "github". */
  lemma ParseTrimmedShape(t: string)
    ensures ParseTrimmed(t).Ok? <==> (SplitColon(t).Some? && SplitColon(t).value.0 != "" && SplitColon(t).value.1 != "")
    ensures ParseTrimmed(t).Ok? ==>
      ParseTrimmed(t).value.id == SplitColon(t).value.1 &&
      ParseTrimmed(t).value.system == (if GithubMatch(t).Some? then "github" else SplitColon(t).value.0)
  {
    if KnownMatch(t).Some? {
      KnownIsGeneric(t);
    } else if GenericMatch(t).Some? {
      assert GithubMatch(t).None?;
    }
  }

  /** `ParseTrimmedShape` for an untrimmed reference. */
  lemma ParseExternalRefShape(ref: string)
    ensures var t := TrimSpace(ref);
      ParseExternalRef(ref).Ok? <==> (SplitColon(t).Some? && SplitColon(t).value.0 != "" && SplitColon(t).value.1 != "")
    ensures var t := TrimSpace(ref);
      ParseExternalRef(ref).Ok? ==>
        ParseExternalRef(ref).value.id == SplitColon(t).value.1 &&
        ParseExternalRef(ref).value.system == (if GithubMatch(t).Some? then "github" else SplitColon(t).value.0)
  {
    ParseTrimmedShape(TrimSpace(ref));
  }

  /** An upper-case key, a dash and digits match `[A-Z]+-\d+`. */
  lemma KeyNumberOf(key: string, num: string)
    requires key != [] && (forall k :: 0 <= k < |key| ==> IsUpper(key[k]))
    requires num != [] && AllDigits(num)
    ensures IsKeyNumber(key + "-" + num)
  {
    var s := key + "-" + num;
    assert s[|key|] == '-' && s[..|key|] == key;
    IndexOfUnique(s, '-', |key|);
    assert s[|key| + 1..] == num;
  }

  /** A whole reference whose text needs no trimming parses as its
      known-system or generic match. */
  lemma ParseUntrimmed(t: string)
    requires t == [] || (!IsSpace(t[0]) && !IsSpace(t[|t| - 1]))
    ensures ParseExternalRef(t) == ParseTrimmed(t)
  {
    TrimSpaceKeeps(t);
  }

  lemma KnownKeyNumber(t: string, system: string)
    requires system == "linear" || system == "jira"
    requires HasPrefix(t, system + ":") && IsKeyNumber(t[|system| + 1..])
    ensures KnownMatch(t) == Some(ExternalRef(system, t[|system| + 1..], t))
  {
    KnownPrefixes(t);
  }

  /** A linear or jira key: the system is named and the key is the
      identifier. */
  lemma ParseKeyNumberRef(system: string, key: string, num: string)
    requires system == "linear" || system == "jira"
    requires key != [] && (forall k :: 0 <= k < |key| ==> IsUpper(key[k]))
    requires num != [] && AllDigits(num)
    ensures ParseExternalRef(system + ":" + key + "-" + num) ==
      Ok(ExternalRef(system, key + "-" + num, system + ":" + key + "-" + num))
  {
    var t := system + ":" + key + "-" + num;
    KnownKeyRef(system, key, num);
    var head := system + ":" + key + "-";
    assert head[0] == system[0] && IsDigit(num[|num| - 1]);
    JoinedUntrimmed(t, head, num);
  }

  /** The key pattern of `system` matches `system:KEY-N`. */
  lemma KnownKeyRef(system: string, key: string, num: string)
    requires system == "linear" || system == "jira"
    requires key != [] && (forall k :: 0 <= k < |key| ==> IsUpper(key[k]))
    requires num != [] && AllDigits(num)
    ensures KnownMatch(system + ":" + key + "-" + num) ==
      Some(ExternalRef(system, key + "-" + num, system + ":" + key + "-" + num))
  {
    var s := key + "-" + num;
    var t := system + ":" + s;
    assert t == system + ":" + key + "-" + num;
    assert HasPrefix(t, system + ":") && t[|system| + 1..] == s by {
      ConcatPrefix(system + ":", s);
    }
    KeyNumberOf(key, num);
    KnownKeyNumber(t, system);
  }

  /** A reference whose first and last characters are not white space is
      parsed as it is. */
  lemma JoinedUntrimmed(t: string, head: string, tail: string)
    requires t == head + tail && head != [] && tail != []
    requires !IsSpace(head[0]) && !IsSpace(tail[|tail| - 1])
    ensures ParseExternalRef(t) == ParseTrimmed(t)
  {
    assert t[0] == head[0] && t[|t| - 1] == tail[|tail| - 1];
    ParseUntrimmed(t);
  }

  /** `github:owner/repo#N` and `gh:owner/repo#N` both give system
      "github" and identifier `owner/repo#N`. */
  lemma ParseGithubRef(short: bool, repo: string, num: string)
    requires repo != [] && '#' !in repo
    requires num != [] && AllDigits(num)
    ensures var t := (if short then "gh:" else "github:") + repo + "#" + num;
      ParseExternalRef(t) == Ok(ExternalRef("github", repo + "#" + num, t))
  {
    var p := if short then "gh:" else "github:";
    var s := repo + "#" + num;
    var t := p + s;
    assert t == p + repo + "#" + num;
    assert t[0] == 'g';
    assert t[|t| - 1] == num[|num| - 1];
    ParseUntrimmed(t);
    RepoNumberOf(repo, num);
    ConcatPrefix(p, s);
    assert t[|p|..] == s;
    KnownGithub(t, p);
  }

  lemma RepoNumberOf(repo: string, num: string)
    requires repo != [] && '#' !in repo
    requires num != [] && AllDigits(num)
    ensures RepoNumber(repo + "#" + num) == Some((repo, num))
  {
    var s := repo + "#" + num;
    assert s[|repo|] == '#' && s[..|repo|] == repo;
    IndexOfUnique(s, '#', |repo|);
    assert s[|repo| + 1..] == num;
  }

  lemma KnownGithub(t: string, p: string)
    requires p == "gh:" || p == "github:"
    requires HasPrefix(t, p) && RepoNumber(t[|p|..]).Some?
    ensures KnownMatch(t) == Some(ExternalRef("github", t[|p|..], t))
  {
    assert !HasPrefix(t, "linear:") by {
      PrefixChar(t, p, 0);
      if HasPrefix(t, "linear:") { PrefixChar(t, "linear:", 0); }
    }
    if p == "gh:" {
      assert !HasPrefix(t, "github:") by {
        PrefixChar(t, p, 1);
        if HasPrefix(t, "github:") { PrefixChar(t, "github:", 1); }
      }
    }
  }

  /** `IsExternalRef`. */
  predicate IsExternalRef(ref: string) {
    Contains(ref, ":") && ParseExternalRef(ref).Ok?
  }

  /** The `strings.Contains` guard of `IsExternalRef` never changes its
      answer: a successful parse already needs a ':'. */
  lemma IsExternalRefIsParse(ref: string)
    ensures IsExternalRef(ref) <==> ParseExternalRef(ref).Ok?
  {
    if ParseExternalRef(ref).Ok? {
      ParseExternalRefShape(ref);
      TrimSpaceIn(ref, ':');
      ContainsChar(ref, ':');
      assert ":" == [':'];
    }
  }

  /** The name `FormatExternalRef` shows for a system. */
  function SystemLabel(system: string): string {
    match system
    case "github" => "GitHub"
    case "linear" => "Linear"
    case "jira" => "Jira"
    case "notion" => "Notion"
    case _ => system
  }

  lemma LabelNoColon(system: string)
    requires system == "github" || ':' !in system
    ensures ':' !in SystemLabel(system)
  {
  }

  /** `FormatExternalRef`: the system's name, a colon and a space, then
      the identifier. */
  function FormatExternalRef(ref: ExternalRef): (s: string)
    ensures HasSuffix(s, ": " + ref.id)
    ensures ref.system !in {"github", "linear", "jira", "notion"} ==> HasPrefix(s, ref.system + ": ")
  {
    SystemLabel(ref.system) + ": " + ref.id
  }

  /** The display text splits at its first ':' into the system's name
      and the identifier (after one space) whenever the name has no ':'. */
  lemma FormatSplits(x: ExternalRef)
    requires ':' !in SystemLabel(x.system)
    ensures SplitColon(FormatExternalRef(x)) == Some((SystemLabel(x.system), " " + x.id))
  {
    var name := SystemLabel(x.system);
    var s := FormatExternalRef(x);
    assert s == name + ":" + (" " + x.id);
    ConcatPrefix(name + ":", " " + x.id);
    SplitAfterName(s, name);
    assert s[|name| + 1..] == " " + x.id;
  }

  /** A parsed reference's system never holds a ':', so its display text
      splits back into the system's name and the identifier. */
  lemma FormatParsedRef(ref: string)
    requires ParseExternalRef(ref).Ok?
    ensures var x := ParseExternalRef(ref).value;
      SplitColon(FormatExternalRef(x)) == Some((SystemLabel(x.system), " " + x.id))
  {
    var x := ParseExternalRef(ref).value;
    ParseExternalRefShape(ref);
    LabelNoColon(x.system);
    FormatSplits(x);
  }

  /** `ResolveRefType`: thread before bead before external. */
  function ResolveRefType(ref: string): (r: string)
    ensures r == "thread" <==> IsThreadID(ref)
    ensures r == "bead" <==> IsBeadID(ref)
    ensures r == "external" <==> !IsThreadID(ref) && !IsBeadID(ref) && ParseExternalRef(ref).Ok?
    ensures r == "unknown" <==> !IsThreadID(ref) && !IsBeadID(ref) && !ParseExternalRef(ref).Ok?
  {
    IdKinds(ref, RandomWord(0, 0, 0, 0));
    IsExternalRefIsParse(ref);
    if IsThreadID(ref) then "thread"
    else if IsBeadID(ref) then "bead"
    else if IsExternalRef(ref) then "external"
    else "unknown"
  }
}
