/**
 * Subagents and agent skills (src-tauri/src/commands/extensions.rs): the description read from a
 * markdown file's front matter or first plain line, and the directory scans that turn `*.md`
 * files into agents and `*SKILL.md` files into skills. The directory walk itself is a parameter:
 * each scan receives the entries the walk produced, in walk order, with the outcome of reading
 * each file.
 */
module Extensions {
  import opened Base
  import opened Text

  // ---------------------------------------------------------------------------------------------
  // Descriptions

  /** Rust `trim_start_matches(pat)`: every leading repetition of `pat` goes. */
  function TrimStartMatches(s: string, pat: string): (r: string)
    requires pat != []
    ensures |r| <= |s| && r == s[|s| - |r|..]
    ensures !StartsWith(r, pat)
    decreases |s|
  {
    if StartsWith(s, pat) then TrimStartMatches(s[|pat|..], pat) else s
  }

  /** Rust `trim_end_matches(pat)`: every trailing repetition of `pat` goes. */
  function TrimEndMatches(s: string, pat: string): (r: string)
    requires pat != []
    ensures |r| <= |s| && r == s[..|r|]
    ensures !EndsWith(r, pat)
    decreases |s|
  {
    if EndsWith(s, pat) then TrimEndMatches(s[..|s| - |pat|], pat) else s
  }

  const DescriptionKey: string := "description:"

  /** The front-matter value of a `description:` line. */
  function DescriptionValue(line: string): string {
    RustTrim(TrimStartMatches(line, DescriptionKey))
  }

  /**
   * The front-matter scan from line `i`: the line of the first `description:` before the closing
   * "---", if any.
   */
  function FrontmatterFrom(lines: seq<string>, i: nat): (r: Option<nat>)
    requires i <= |lines|
    ensures r.Some? ==> i <= r.value < |lines|
    decreases |lines| - i
  {
    if i == |lines| || lines[i] == "---" then None
    else if StartsWith(lines[i], DescriptionKey) then Some(i)
    else FrontmatterFrom(lines, i + 1)
  }

  /** The line found starts with `description:`, and no line before it closes or starts one. */
  lemma {:induction false} FrontmatterFromSpec(lines: seq<string>, i: nat)
    requires i <= |lines|
    ensures var r := FrontmatterFrom(lines, i);
      r.Some? ==> (StartsWith(lines[r.value], DescriptionKey)
        && forall j :: i <= j < r.value ==> lines[j] != "---" && !StartsWith(lines[j], DescriptionKey))
    decreases |lines| - i
  {
    if i < |lines| && lines[i] != "---" && !StartsWith(lines[i], DescriptionKey) {
      FrontmatterFromSpec(lines, i + 1);
    }
  }

  /** A line the fallback accepts: not blank, and not a markdown heading. */
  predicate PlainLine(line: string) {
    !AllSpace(line, IsRustSpace) && !StartsWith(line, "#")
  }

  /** The fallback scan from line `i`: the first plain line. */
  function FirstPlainFrom(lines: seq<string>, i: nat): (r: Option<nat>)
    requires i <= |lines|
    ensures r.Some? ==> i <= r.value < |lines|
    decreases |lines| - i
  {
    if i == |lines| then None
    else if PlainLine(lines[i]) then Some(i)
    else FirstPlainFrom(lines, i + 1)
  }

  /** The line found is the first plain one from `i`; none is found exactly when none is plain. */
  lemma {:induction false} FirstPlainFromSpec(lines: seq<string>, i: nat)
    requires i <= |lines|
    ensures var r := FirstPlainFrom(lines, i);
      (r.None? <==> forall k :: i <= k < |lines| ==> !PlainLine(lines[k]))
      && (r.Some? ==> PlainLine(lines[r.value]) && forall j :: i <= j < r.value ==> !PlainLine(lines[j]))
    decreases |lines| - i
  {
    if i < |lines| && !PlainLine(lines[i]) {
      FirstPlainFromSpec(lines, i + 1);
    }
  }

  /** `parse_description_from_content`. */
  function Description(content: string): Option<string> {
    var lines := Lines(content);
    if |lines| > 2 && lines[0] == "---" && FrontmatterFrom(lines, 1).Some? then
      Some(DescriptionValue(lines[FrontmatterFrom(lines, 1).value]))
    else if FirstPlainFrom(lines, 0).Some? then Some(RustTrim(lines[FirstPlainFrom(lines, 0).value]))
    else None
  }

  /** A line that trims to something and is not a heading is where the fallback scan stops. */
  lemma FallbackFinds(lines: seq<string>, j: nat)
    requires j < |lines| && RustTrim(lines[j]) != "" && !StartsWith(lines[j], "#")
    ensures FirstPlainFrom(lines, j) == Some(j)
  {
    TrimEmptyIff(lines[j], IsRustSpace);
  }

  /** Any other line is passed over. */
  lemma FallbackSkips(lines: seq<string>, j: nat)
    requires j < |lines| && !(RustTrim(lines[j]) != "" && !StartsWith(lines[j], "#"))
    ensures FirstPlainFrom(lines, j) == FirstPlainFrom(lines, j + 1)
  {
    TrimEmptyIff(lines[j], IsRustSpace);
  }

  /**
   * The front-matter loop of `parse_description_from_content`: stops at the closing "---" and
   * returns the value of a `description:` line met before it.
   */
  method ScanFrontmatter(lines: seq<string>) returns (r: Option<string>)
    requires |lines| > 0
    ensures r.Some? <==> FrontmatterFrom(lines, 1).Some?
    ensures r.Some? ==> r.value == DescriptionValue(lines[FrontmatterFrom(lines, 1).value])
  {
    var i := 1;
    while i < |lines|
      invariant 1 <= i <= |lines|
      invariant FrontmatterFrom(lines, 1) == FrontmatterFrom(lines, i)
    {
      if lines[i] == "---" {
        break;
      }
      if StartsWith(lines[i], DescriptionKey) {
        return Some(RustTrim(TrimStartMatches(lines[i], DescriptionKey)));
      }
      i := i + 1;
    }
    return None;
  }

  /** The fallback loop of `parse_description_from_content`: the first plain line, trimmed. */
  method ScanFallback(lines: seq<string>) returns (r: Option<string>)
    ensures r.Some? <==> FirstPlainFrom(lines, 0).Some?
    ensures r.Some? ==> r.value == RustTrim(lines[FirstPlainFrom(lines, 0).value])
  {
    var j := 0;
    while j < |lines|
      invariant 0 <= j <= |lines|
      invariant FirstPlainFrom(lines, 0) == FirstPlainFrom(lines, j)
    {
      var line := lines[j];
      if RustTrim(line) != "" && !StartsWith(line, "#") {
        FallbackFinds(lines, j);
        return Some(RustTrim(line));
      }
      FallbackSkips(lines, j);
      j := j + 1;
    }
    return None;
  }

  /** `parse_description_from_content`: the front-matter value when there is one, else the fallback line. */
  method ParseDescriptionFromContent(content: string) returns (r: Option<string>)
    ensures r == Description(content)
  {
    var lines := Lines(content);
    if |lines| > 2 && lines[0] == "---" {
      r := ScanFrontmatter(lines);
      if r.Some? {
        return r;
      }
    }
    r := ScanFallback(lines);
  }

  /** The scan from `i` reaches line `k` when nothing between ends it. */
  lemma {:induction false} FrontmatterReaches(lines: seq<string>, i: nat, k: nat)
    requires 1 <= i <= k < |lines|
    requires forall j :: i <= j < k ==> lines[j] != "---" && !StartsWith(lines[j], DescriptionKey)
    ensures FrontmatterFrom(lines, i) == FrontmatterFrom(lines, k)
    decreases k - i
  {
    if i < k {
      FrontmatterReaches(lines, i + 1, k);
    }
  }

  /**
   * With more than two lines and an opening "---", the first `description:` line before the
   * closing "---" gives the description: its value with the key stripped, trimmed.
   */
  lemma FrontmatterDescription(content: string, k: nat)
    requires var lines := Lines(content);
      |lines| > 2 && lines[0] == "---" && 1 <= k < |lines| && StartsWith(lines[k], DescriptionKey)
      && forall j :: 1 <= j < k ==> lines[j] != "---" && !StartsWith(lines[j], DescriptionKey)
    ensures Description(content) == Some(DescriptionValue(Lines(content)[k]))
  {
    var lines := Lines(content);
    FrontmatterReaches(lines, 1, k);
    assert lines[k] != "---" by {
      assert lines[k][..|DescriptionKey|] == DescriptionKey;
    }
  }

  /** Without front matter the description is the first plain line, trimmed, and None when there is none. */
  lemma FallbackDescription(content: string)
    requires var lines := Lines(content); !(|lines| > 2 && lines[0] == "---")
    ensures Description(content).None? <==> forall k :: 0 <= k < |Lines(content)| ==> !PlainLine(Lines(content)[k])
    ensures Description(content).Some? ==> exists k :: (0 <= k < |Lines(content)| && PlainLine(Lines(content)[k])
      && Description(content).value == RustTrim(Lines(content)[k])
      && forall j :: 0 <= j < k ==> !PlainLine(Lines(content)[j]))
  {
    var lines := Lines(content);
    FirstPlainFromSpec(lines, 0);
    if FirstPlainFrom(lines, 0).Some? {
      var k := FirstPlainFrom(lines, 0).value;
      assert PlainLine(lines[k]);
    }
  }

  /**
   * Front matter that has no `description:` line yields "---": the opening delimiter is itself
   * the first plain line.
   */
  lemma FrontmatterWithoutDescription(content: string)
    requires var lines := Lines(content);
      |lines| > 2 && lines[0] == "---" && FrontmatterFrom(lines, 1).None?
    ensures Description(content) == Some("---")
  {
    var lines := Lines(content);
    assert PlainLine(lines[0]) by {
      assert !IsRustSpace(lines[0][0]);
    }
    assert TrimStart("---", IsRustSpace) == "---";
    assert TrimEnd("---", IsRustSpace) == "---";
  }

  // ---------------------------------------------------------------------------------------------
  // Agent and skill names

  /** The position of the last '.' in a file name. */
  function LastDot(name: string): (r: Option<nat>)
    ensures r.Some? ==> r.value < |name|
  {
    if name == [] then None
    else if Last(name) == '.' then Some(|name| - 1)
    else LastDot(name[..|name| - 1])
  }

  /** The found position holds a '.', and no '.' follows it; without one, the name has no '.'. */
  lemma {:induction false} LastDotSpec(name: string)
    ensures LastDot(name).Some? ==> (name[LastDot(name).value] == '.'
      && forall j :: LastDot(name).value < j < |name| ==> name[j] != '.')
    ensures LastDot(name).None? ==> forall j :: 0 <= j < |name| ==> name[j] != '.'
  {
    if name != [] && Last(name) != '.' {
      var front := name[..|name| - 1];
      LastDotSpec(front);
      assert forall j :: 0 <= j < |front| ==> name[j] == front[j];
    }
  }

  /**
   * Rust `Path::extension` and `Path::file_stem` on a file name: split at the last '.', unless
   * that '.' is the first character (a hidden file has no extension).
   */
  function Extension(name: string): Option<string> {
    match LastDot(name)
    case None => None
    case Some(d) => if d == 0 then None else Some(name[d + 1..])
  }

  function FileStem(name: string): string {
    match LastDot(name)
    case None => name
    case Some(d) => if d == 0 then name else name[..d]
  }

  /** A walked entry: its file name, full path, whether it is a regular file, and what reading it gave. */
  datatype Entry = Entry(fileName: string, path: string, isFile: bool, content: Option<string>)

  /** A `SubagentFile` or `AgentSkillFile`: the two records have the same fields. */
  datatype ExtensionFile = ExtensionFile(name: string, path: string, scope: string, description: Option<string>, content: string)

  /**
   * An entry that becomes an agent: a regular file whose extension is "md", which `MdExtensionIff`
   * shows is a name ending in ".md" with something before the dot.
   */
  predicate IsAgentFile(e: Entry) {
    e.isFile && EndsWith(e.fileName, ".md") && |e.fileName| > 3
  }

  /** A name has the extension "md" exactly when it ends in ".md" and the dot is not its first character. */
  lemma MdExtensionIff(name: string)
    ensures Extension(name) == Some("md") <==> EndsWith(name, ".md") && |name| > 3
  {
    var n := |name|;
    if Extension(name) == Some("md") {
      LastDotSpec(name);
      var d := LastDot(name).value;
      assert name[d + 1..] == "md";
      assert name[n - 3..] == [name[d]] + name[d + 1..];
    }
    if EndsWith(name, ".md") && n > 3 {
      assert name[n - 3..] == ".md";
      assert name[n - 1] == 'd' && name[n - 2] == 'm' && name[n - 3] == '.';
      var a, b := name[..n - 1], name[..n - 2];
      assert a[..|a| - 1] == b && Last(a) == 'm' && Last(b) == '.';
      assert LastDot(name) == LastDot(a) == LastDot(b) == Some(n - 3);
      assert name[n - 2..] == "md";
    }
  }

  /** An agent is named by its file's stem: the name plus ".md" is the file name. */
  lemma AgentNameIsStem(fileName: string)
    requires Extension(fileName) == Some("md")
    ensures FileStem(fileName) + ".md" == fileName
    ensures FileStem(fileName) != []
  {
    LastDotSpec(fileName);
    var d := LastDot(fileName).value;
    assert fileName == fileName[..d] + "." + fileName[d + 1..];
  }

  /** `x.md` is the agent `x`, `a.b.md` the agent `a.b`; `.md` and `notes.MD` are not agents. */
  lemma AgentNameExamples()
    ensures Extension("x.md") == Some("md") && FileStem("x.md") == "x"
    ensures Extension("a.b.md") == Some("md") && FileStem("a.b.md") == "a.b"
    ensures Extension(".md").None?
    ensures Extension("notes.MD") != Some("md")
  {
    assert LastDot("x.md") == Some(1);
    assert LastDot("a.b.md") == Some(3);
    assert LastDot(".md") == Some(0) by {
      assert ".md"[..2] == ".m" && ".md"[..1] == ".";
      assert LastDot(".m") == LastDot(".");
    }
    assert LastDot("notes.MD") == Some(5);
  }

  const SkillSuffix: string := "SKILL.md"

  /** An entry that becomes a skill: a regular file whose name ends in "SKILL.md". */
  predicate IsSkillFile(e: Entry) {
    e.isFile && EndsWith(e.fileName, SkillSuffix)
  }

  /** The skill name: every trailing "SKILL.md", then every trailing '.', removed. */
  function SkillName(fileName: string): (r: string)
    ensures !EndsWith(r, ".")
  {
    TrimEndMatches(TrimEndMatches(fileName, SkillSuffix), ".")
  }

  /** `my-tool.SKILL.md` is the skill `my-tool`, and a bare `SKILL.md` has the empty name. */
  lemma SkillNameExamples()
    ensures SkillName("my-tool.SKILL.md") == "my-tool"
    ensures SkillName("SKILL.md") == ""
  {
    var a := "my-tool.SKILL.md";
    assert EndsWith(a, SkillSuffix) && a[..|a| - 8] == "my-tool.";
    assert !EndsWith("my-tool.", SkillSuffix);
    assert EndsWith("my-tool.", ".") && "my-tool."[..7] == "my-tool";
    assert !EndsWith("my-tool", ".");
    assert EndsWith("SKILL.md", SkillSuffix) && "SKILL.md"[..0] == "";
  }

  /** The skill name is a prefix of the file name and never ends in '.'. */
  lemma SkillNamePrefix(fileName: string)
    ensures StartsWith(fileName, SkillName(fileName)) && !EndsWith(SkillName(fileName), ".")
  {
    var a := TrimEndMatches(fileName, SkillSuffix);
    var b := TrimEndMatches(a, ".");
    assert a == fileName[..|a|];
    assert b == a[..|b|];
    assert b == fileName[..|b|];
  }

  function AgentOf(e: Entry, scope: string): ExtensionFile
    requires e.content.Some?
  {
    ExtensionFile(FileStem(e.fileName), e.path, scope, Description(e.content.value), e.content.value)
  }

  function SkillOf(e: Entry, scope: string): ExtensionFile
    requires e.content.Some?
  {
    ExtensionFile(SkillName(e.fileName), e.path, scope, Description(e.content.value), e.content.value)
  }

  /** The agents of a walk, in walk order: readable `.md` files; unreadable ones are skipped. */
  function Agents(entries: seq<Entry>, scope: string): (r: seq<ExtensionFile>)
    ensures |r| <= |entries|
    ensures forall k :: 0 <= k < |r| ==> r[k].scope == scope
  {
    if entries == [] then []
    else
      var e := Last(entries);
      Agents(entries[..|entries| - 1], scope) + (if IsAgentFile(e) && e.content.Some? then [AgentOf(e, scope)] else [])
  }

  /** The skills of a walk, in walk order: readable `*SKILL.md` files. */
  function Skills(entries: seq<Entry>, scope: string): (r: seq<ExtensionFile>)
    ensures |r| <= |entries|
    ensures forall k :: 0 <= k < |r| ==> r[k].scope == scope
  {
    if entries == [] then []
    else
      var e := Last(entries);
      Skills(entries[..|entries| - 1], scope) + (if IsSkillFile(e) && e.content.Some? then [SkillOf(e, scope)] else [])
  }

  /** The agents of the first n entries, counted by n (the scanning loop's progress). */
  function AgentsOfFirst(entries: seq<Entry>, n: nat, scope: string): seq<ExtensionFile>
    requires n <= |entries|
  {
    if n == 0 then []
    else if IsAgentFile(entries[n - 1]) && entries[n - 1].content.Some? then
      AgentsOfFirst(entries, n - 1, scope) + [AgentOf(entries[n - 1], scope)]
    else AgentsOfFirst(entries, n - 1, scope)
  }

  /** The skills of the first n entries, counted by n (the scanning loop's progress). */
  function SkillsOfFirst(entries: seq<Entry>, n: nat, scope: string): seq<ExtensionFile>
    requires n <= |entries|
  {
    if n == 0 then []
    else if IsSkillFile(entries[n - 1]) && entries[n - 1].content.Some? then
      SkillsOfFirst(entries, n - 1, scope) + [SkillOf(entries[n - 1], scope)]
    else SkillsOfFirst(entries, n - 1, scope)
  }

  lemma {:induction false} AgentsOfFirstIs(entries: seq<Entry>, n: nat, scope: string)
    requires n <= |entries|
    ensures AgentsOfFirst(entries, n, scope) == Agents(entries[..n], scope)
  {
    if n > 0 {
      AgentsOfFirstIs(entries, n - 1, scope);
      assert entries[..n][..n - 1] == entries[..n - 1];
    }
  }

  lemma AgentsOfAll(entries: seq<Entry>, scope: string)
    ensures AgentsOfFirst(entries, |entries|, scope) == Agents(entries, scope)
  {
    AgentsOfFirstIs(entries, |entries|, scope);
    assert entries[..|entries|] == entries;
  }

  lemma {:induction false} SkillsOfFirstIs(entries: seq<Entry>, n: nat, scope: string)
    requires n <= |entries|
    ensures SkillsOfFirst(entries, n, scope) == Skills(entries[..n], scope)
  {
    if n > 0 {
      SkillsOfFirstIs(entries, n - 1, scope);
      assert entries[..n][..n - 1] == entries[..n - 1];
    }
  }

  lemma SkillsOfAll(entries: seq<Entry>, scope: string)
    ensures SkillsOfFirst(entries, |entries|, scope) == Skills(entries, scope)
  {
    SkillsOfFirstIs(entries, |entries|, scope);
    assert entries[..|entries|] == entries;
  }

  /** Every agent comes from a readable `.md` entry of the walk and carries that entry's stem and description. */
  lemma {:induction false} AgentsComeFromMdFiles(entries: seq<Entry>, scope: string, k: nat)
    requires k < |Agents(entries, scope)|
    ensures exists i :: (0 <= i < |entries| && IsAgentFile(entries[i]) && entries[i].content.Some?
      && Agents(entries, scope)[k] == AgentOf(entries[i], scope))
  {
    var front := entries[..|entries| - 1];
    if k < |Agents(front, scope)| {
      AgentsComeFromMdFiles(front, scope, k);
      var i :| 0 <= i < |front| && IsAgentFile(front[i]) && front[i].content.Some?
        && Agents(front, scope)[k] == AgentOf(front[i], scope);
      assert entries[i] == front[i];
    } else {
      assert Agents(entries, scope)[k] == AgentOf(entries[|entries| - 1], scope);
    }
  }

  /** The agents of a walk without its last entry come first in the agents of the whole walk. */
  lemma AgentsOfFront(entries: seq<Entry>, scope: string)
    requires entries != []
    ensures Agents(entries[..|entries| - 1], scope) <= Agents(entries, scope)
  {
  }

  /** A readable `.md` last entry yields the last agent. */
  lemma LastMdFileBecomesAgent(entries: seq<Entry>, scope: string, i: nat)
    requires i == |entries| - 1 && IsAgentFile(entries[i]) && entries[i].content.Some?
    ensures Agents(entries, scope) == Agents(entries[..i], scope) + [AgentOf(entries[i], scope)]
  {
  }

  /** Every readable `.md` entry of the walk yields an agent. */
  lemma {:induction false} MdFilesBecomeAgents(entries: seq<Entry>, scope: string, i: nat)
    requires i < |entries| && IsAgentFile(entries[i]) && entries[i].content.Some?
    ensures AgentOf(entries[i], scope) in Agents(entries, scope)
  {
    var n, a := |entries| - 1, AgentOf(entries[i], scope);
    if i < n {
      assert entries[i] == entries[..n][i];
      MdFilesBecomeAgents(entries[..n], scope, i);
      AgentsOfFront(entries, scope);
      InPrefix(a, Agents(entries[..n], scope), Agents(entries, scope));
    } else {
      LastMdFileBecomesAgent(entries, scope, i);
      assert Agents(entries, scope)[|Agents(entries, scope)| - 1] == a;
    }
  }

  /** One walked entry of `scan_agents_directory`: the agent it pushes, if any. */
  method ScanAgentEntry(e: Entry, scope: string) returns (agent: Option<ExtensionFile>)
    ensures agent.Some? <==> IsAgentFile(e) && e.content.Some?
    ensures agent.Some? ==> e.content.Some? && agent.value == AgentOf(e, scope)
  {
    agent := None;
    MdExtensionIff(e.fileName);
    if e.isFile && Extension(e.fileName) == Some("md") {
      var name := FileStem(e.fileName);
      match e.content {
        case Some(content) =>
          var description := ParseDescriptionFromContent(content);
          agent := Some(ExtensionFile(name, e.path, scope, description, content));
        case None =>
      }
    }
  }

  /** `scan_agents_directory`: pushes an agent for each readable `.md` file the walk yields. */
  method ScanAgentsDirectory(entries: seq<Entry>, scope: string) returns (agents: seq<ExtensionFile>)
    ensures agents == Agents(entries, scope)
  {
    agents := [];
    var i := 0;
    while i < |entries|
      invariant 0 <= i <= |entries|
      invariant agents == AgentsOfFirst(entries, i, scope)
    {
      var found := ScanAgentEntry(entries[i], scope);
      match found {
        case Some(agent) => agents := agents + [agent];
        case None =>
      }
      i := i + 1;
    }
    AgentsOfAll(entries, scope);
  }

  /** One walked entry of `scan_skills_directory`: the skill it pushes, if any. */
  method ScanSkillEntry(e: Entry, scope: string) returns (skill: Option<ExtensionFile>)
    ensures skill.Some? <==> IsSkillFile(e) && e.content.Some?
    ensures skill.Some? ==> e.content.Some? && skill.value == SkillOf(e, scope)
  {
    skill := None;
    if e.isFile && EndsWith(e.fileName, SkillSuffix) {
      var name := TrimEndMatches(TrimEndMatches(e.fileName, SkillSuffix), ".");
      match e.content {
        case Some(content) =>
          var description := ParseDescriptionFromContent(content);
          skill := Some(ExtensionFile(name, e.path, scope, description, content));
        case None =>
      }
    }
  }

  /** `scan_skills_directory`: pushes a skill for each readable file whose name ends in "SKILL.md". */
  method ScanSkillsDirectory(entries: seq<Entry>, scope: string) returns (skills: seq<ExtensionFile>)
    ensures skills == Skills(entries, scope)
  {
    skills := [];
    var i := 0;
    while i < |entries|
      invariant 0 <= i <= |entries|
      invariant skills == SkillsOfFirst(entries, i, scope)
    {
      var found := ScanSkillEntry(entries[i], scope);
      match found {
        case Some(skill) => skills := skills + [skill];
        case None =>
      }
      i := i + 1;
    }
    SkillsOfAll(entries, scope);
  }

  /** The user list followed by the project list keeps each scope together, the user one first. */
  lemma ScopedConcat(u: seq<ExtensionFile>, p: seq<ExtensionFile>)
    requires forall k :: 0 <= k < |u| ==> u[k].scope == "user"
    requires forall k :: 0 <= k < |p| ==> p[k].scope == "project"
    ensures forall k :: 0 <= k < |u + p| ==> (u + p)[k].scope == "user" || (u + p)[k].scope == "project"
    ensures forall i, j :: 0 <= i < j < |u + p| && (u + p)[i].scope == "project" ==> (u + p)[j].scope == "project"
    ensures (u + p)[..|u|] == u && (u + p)[|u|..] == p
    ensures u == [] ==> forall k :: 0 <= k < |u + p| ==> (u + p)[k].scope == "project"
    ensures p == [] ==> forall k :: 0 <= k < |u + p| ==> (u + p)[k].scope == "user"
  {
    assert "user" != "project" by { assert "user"[0] != "project"[0]; }
  }

  /**
   * `list_subagents`: the agents of the user directory (when it exists) come first, then those of
   * the project directory.
   */
  function ListAgents(user: Option<seq<Entry>>, project: Option<seq<Entry>>): (r: seq<ExtensionFile>)
    ensures user.None? && project.None? ==> r == []
    ensures var u := if user.Some? then Agents(user.value, "user") else [];
      |u| <= |r| && r[..|u|] == u
      && r[|u|..] == (if project.Some? then Agents(project.value, "project") else [])
    ensures forall k :: 0 <= k < |r| ==> r[k].scope == "user" || r[k].scope == "project"
    ensures user.None? ==> forall k :: 0 <= k < |r| ==> r[k].scope == "project"
    ensures project.None? ==> forall k :: 0 <= k < |r| ==> r[k].scope == "user"
    ensures forall i, j :: 0 <= i < j < |r| && r[i].scope == "project" ==> r[j].scope == "project"
  {
    var u := if user.Some? then Agents(user.value, "user") else [];
    var p := if project.Some? then Agents(project.value, "project") else [];
    ScopedConcat(u, p);
    u + p
  }

  /**
   * `list_agent_skills`: the skills of the user directory (when it exists) come first, then those
   * of the project directory.
   */
  function ListSkills(user: Option<seq<Entry>>, project: Option<seq<Entry>>): (r: seq<ExtensionFile>)
    ensures user.None? && project.None? ==> r == []
    ensures var u := if user.Some? then Skills(user.value, "user") else [];
      |u| <= |r| && r[..|u|] == u
      && r[|u|..] == (if project.Some? then Skills(project.value, "project") else [])
    ensures forall k :: 0 <= k < |r| ==> r[k].scope == "user" || r[k].scope == "project"
    ensures user.None? ==> forall k :: 0 <= k < |r| ==> r[k].scope == "project"
    ensures project.None? ==> forall k :: 0 <= k < |r| ==> r[k].scope == "user"
    ensures forall i, j :: 0 <= i < j < |r| && r[i].scope == "project" ==> r[j].scope == "project"
  {
    var u := if user.Some? then Skills(user.value, "user") else [];
    var p := if project.Some? then Skills(project.value, "project") else [];
    ScopedConcat(u, p);
    u + p
  }
}
