/**
 * The prompt-revert engine (src-tauri/src/commands/prompt_tracker.rs). Each session keeps a list of
 * prompt records, identified by position, in `<session>.prompts.json`; its transcript is the
 * line-delimited JSON file `<session>.jsonl` in the same project directory. Reverting to prompt k
 * stashes the working copy, resets it to the commit recorded before prompt k, cuts the transcript
 * just before the k-th real user prompt and keeps the first k records.
 */
module PromptTracker {
  import opened Base
  import opened Text
  import opened Messages
  import opened SimpleGit

  datatype PromptRecord = PromptRecord(
    index: nat,
    text: string,
    gitCommitBefore: string,
    gitCommitAfter: Option<string>,
    timestamp: int)

  /** A session's prompts file when it exists: unreadable, not a JSON record list, or a record list. */
  datatype PromptsFile = Unreadable | Malformed | Stored(records: seq<PromptRecord>)

  /** `load_prompts`: a missing file is an empty list; a file that cannot be read or parsed is an error. */
  function LoadPrompts(f: Option<PromptsFile>): (r: Result<seq<PromptRecord>, string>)
    ensures f.None? ==> r == Ok([])
    ensures r.Err? <==> f.Some? && !f.value.Stored?
    ensures f.Some? && f.value.Stored? ==> r == Ok(f.value.records)
  {
    match f
    case None => Ok([])
    case Some(Unreadable) => Err("Failed to read prompts file")
    case Some(Malformed) => Err("Failed to parse prompts file")
    case Some(Stored(records)) => Ok(records)
  }

  /** A transcript line: JSON that did not parse, or an entry. */
  datatype Line = Unparsable | Json(entry: Message)

  /** What the scan collects from a user entry's content. */
  datatype Extracted = Extracted(text: string, hasText: bool, hasToolResult: bool)

  /** A `text` segment whose `text` field is a string. */
  predicate IsTextWithString(seg: Segment) {
    IsText(seg) && seg.text.Some?
  }

  /** The concatenated strings of the `text` segments, in order. */
  function SegmentsText(items: seq<Segment>): string {
    if items == [] then ""
    else
      var last := items[|items| - 1];
      SegmentsText(items[..|items| - 1]) + (if IsTextWithString(last) then last.text.value else "")
  }

  predicate HasTextSegment(items: seq<Segment>) {
    exists i :: 0 <= i < |items| && IsTextWithString(items[i])
  }

  predicate HasToolResultSegment(items: seq<Segment>) {
    exists i :: 0 <= i < |items| && IsToolResult(items[i])
  }

  /**
   * The text of a user entry and the two flags: string content is its own text, and has text when
   * it is not blank; array content contributes its `text` segments, and has text as soon as one
   * `text` segment carries a string, even an empty one.
   */
  function Extract(c: Content): Extracted {
    match c
    case Text(s) => Extracted(s, RustTrim(s) != [], false)
    case Parts(items) => Extracted(SegmentsText(items), HasTextSegment(items), HasToolResultSegment(items))
    case _ => Extracted("", false, false)
  }

  /** One more segment: its string is appended when it is `text`, and it may set either flag. */
  lemma ExtractStep(items: seq<Segment>, i: nat)
    requires i < |items|
    ensures SegmentsText(items[..i + 1]) ==
              SegmentsText(items[..i]) + (if IsTextWithString(items[i]) then items[i].text.value else "")
    ensures HasTextSegment(items[..i + 1]) == (HasTextSegment(items[..i]) || IsTextWithString(items[i]))
    ensures HasToolResultSegment(items[..i + 1]) == (HasToolResultSegment(items[..i]) || IsToolResult(items[i]))
  {
    assert items[..i + 1][..i] == items[..i];
    assert items[..i + 1][i] == items[i];
    if HasTextSegment(items[..i + 1]) && !IsTextWithString(items[i]) {
      var j :| 0 <= j < i + 1 && IsTextWithString(items[..i + 1][j]);
      assert items[..i][j] == items[j];
    }
    if HasToolResultSegment(items[..i + 1]) && !IsToolResult(items[i]) {
      var j :| 0 <= j < i + 1 && IsToolResult(items[..i + 1][j]);
      assert items[..i][j] == items[j];
    }
  }

  /** The scan's per-entry content walk, which appends text and sets the two flags as it goes. */
  method ExtractContent(c: Content) returns (e: Extracted)
    ensures e == Extract(c)
  {
    if c.Text? {
      return Extracted(c.s, RustTrim(c.s) != [], false);
    }
    if !c.Parts? {
      return Extracted("", false, false);
    }
    var text, hasText, hasToolResult := "", false, false;
    var i := 0;
    while i < |c.items|
      invariant 0 <= i <= |c.items|
      invariant text == SegmentsText(c.items[..i])
      invariant hasText == HasTextSegment(c.items[..i])
      invariant hasToolResult == HasToolResultSegment(c.items[..i])
    {
      var item := c.items[i];
      ExtractStep(c.items, i);
      if item.Item? {
        if item.kind == "text" {
          if item.text.Some? {
            text := text + item.text.value;
            hasText := true;
          }
        } else if item.kind == "tool_result" {
          hasToolResult := true;
        }
      }
      i := i + 1;
    }
    assert c.items[..i] == c.items;
    e := Extracted(text, hasText, hasToolResult);
  }

  /** Text the client sends on its own when a skill starts. */
  predicate IsSkillBanner(text: string) {
    Contains(text, "<command-name>") || Contains(text, "Launching skill:") || Contains(text, "skill is running")
  }

  /**
   * A real user prompt: a parsed `user` entry that is not on a side chain and not a sub-agent
   * message, whose content yields text and is not a bare tool result, and whose text is neither
   * the automatic warm-up nor a skill banner.
   */
  predicate Qualifies(line: Line) {
    line.Json? && line.entry.kind == "user" && !line.entry.isSidechain && !line.entry.hasParentToolUse
    && var e := Extract(Body(line.entry));
       !(e.hasToolResult && !e.hasText) && e.hasText
       && !Contains(e.text, "Warmup") && !IsSkillBanner(e.text)
  }

  /** Number of real user prompts among the lines. */
  function PromptCount(lines: seq<string>, parse: string -> Line): nat {
    if lines == [] then 0
    else PromptCount(lines[..|lines| - 1], parse) + (if Qualifies(parse(lines[|lines| - 1])) then 1 else 0)
  }

  /** The first line at or after `i` that is a real prompt preceded by exactly `k` real prompts. */
  function CutFrom(lines: seq<string>, parse: string -> Line, k: nat, i: nat): (r: Option<nat>)
    requires i <= |lines|
    ensures r.Some? ==> i <= r.value < |lines|
    decreases |lines| - i
  {
    if i == |lines| then None
    else if Qualifies(parse(lines[i])) && PromptCount(lines[..i], parse) == k then Some(i)
    else CutFrom(lines, parse, k, i + 1)
  }

  /** The line of the k-th (0-based) real prompt, where the transcript is cut. */
  function Cut(lines: seq<string>, parse: string -> Line, k: nat): (r: Option<nat>)
    ensures r.Some? ==> r.value < |lines|
  {
    CutFrom(lines, parse, k, 0)
  }

  lemma PromptCountStep(lines: seq<string>, parse: string -> Line, i: nat)
    requires i < |lines|
    ensures PromptCount(lines[..i + 1], parse)
         == PromptCount(lines[..i], parse) + (if Qualifies(parse(lines[i])) then 1 else 0)
  {
    assert lines[..i + 1][..i] == lines[..i];
  }

  /** Counting a longer prefix never gives less. */
  lemma {:induction false} PromptCountMonotone(lines: seq<string>, parse: string -> Line, i: nat, j: nat)
    requires i <= j <= |lines|
    ensures PromptCount(lines[..i], parse) <= PromptCount(lines[..j], parse)
    decreases j - i
  {
    if i < j {
      PromptCountStep(lines, parse, j - 1);
      PromptCountMonotone(lines, parse, i, j - 1);
    }
  }

  /** A prefix ending just after a real prompt holds more prompts than the prefix before it. */
  lemma PromptCountPast(lines: seq<string>, parse: string -> Line, i: nat, j: nat)
    requires i < j <= |lines| && Qualifies(parse(lines[i]))
    ensures PromptCount(lines[..j], parse) > PromptCount(lines[..i], parse)
  {
    PromptCountStep(lines, parse, i);
    PromptCountMonotone(lines, parse, i + 1, j);
  }

  /** The search from `i` finds nothing exactly when the prefix up to `i` already holds more than k prompts or the whole file holds at most k. */
  lemma {:induction false} CutFromNone(lines: seq<string>, parse: string -> Line, k: nat, i: nat)
    requires i <= |lines| && PromptCount(lines[..i], parse) <= k
    ensures CutFrom(lines, parse, k, i).None? <==> PromptCount(lines, parse) <= k
    decreases |lines| - i
  {
    if i == |lines| {
      assert lines[..i] == lines;
    } else {
      PromptCountStep(lines, parse, i);
      if !(Qualifies(parse(lines[i])) && PromptCount(lines[..i], parse) == k) {
        CutFromNone(lines, parse, k, i + 1);
      } else {
        PromptCountMonotone(lines, parse, i + 1, |lines|);
        assert lines[..|lines|] == lines;
      }
    }
  }

  /** Cutting at k finds a line exactly when the transcript holds more than k real prompts. */
  lemma CutExists(lines: seq<string>, parse: string -> Line, k: nat)
    ensures Cut(lines, parse, k).Some? <==> PromptCount(lines, parse) > k
  {
    assert lines[..0] == [];
    CutFromNone(lines, parse, k, 0);
  }

  /** A search that started before a cut point reaches it. */
  lemma {:induction false} CutFromFinds(lines: seq<string>, parse: string -> Line, k: nat, i: nat, cut: nat)
    requires i <= cut < |lines| && Qualifies(parse(lines[cut])) && PromptCount(lines[..cut], parse) == k
    ensures CutFrom(lines, parse, k, i) == Some(cut)
    decreases cut - i
  {
    if i < cut {
      if Qualifies(parse(lines[i])) && PromptCount(lines[..i], parse) == k {
        PromptCountPast(lines, parse, i, cut);
        assert false;
      }
      CutFromFinds(lines, parse, k, i + 1, cut);
    }
  }

  /** What a found cut point is. */
  lemma {:induction false} CutFromSound(lines: seq<string>, parse: string -> Line, k: nat, i: nat)
    requires i <= |lines| && CutFrom(lines, parse, k, i).Some?
    ensures var cut := CutFrom(lines, parse, k, i).value;
      cut < |lines| && Qualifies(parse(lines[cut])) && PromptCount(lines[..cut], parse) == k
    decreases |lines| - i
  {
    if !(Qualifies(parse(lines[i])) && PromptCount(lines[..i], parse) == k) {
      CutFromSound(lines, parse, k, i + 1);
    }
  }

  /**
   * The cut line is exactly the real prompt preceded by k real prompts: the kept lines
   * `lines[..cut]` hold exactly k prompts and the cut line is itself a prompt.
   */
  lemma CutIff(lines: seq<string>, parse: string -> Line, k: nat, cut: nat)
    ensures Cut(lines, parse, k) == Some(cut) <==>
      cut < |lines| && Qualifies(parse(lines[cut])) && PromptCount(lines[..cut], parse) == k
  {
    if Cut(lines, parse, k) == Some(cut) {
      CutFromSound(lines, parse, k, 0);
    }
    if cut < |lines| && Qualifies(parse(lines[cut])) && PromptCount(lines[..cut], parse) == k {
      CutFromFinds(lines, parse, k, 0, cut);
    }
  }

  /** Side files of sub-agents that a revert to the first prompt removes. */
  predicate IsAgentFile(name: string) {
    StartsWith(name, "agent-") && EndsWith(name, ".jsonl")
  }

  function TranscriptName(session: string): string {
    session + ".jsonl"
  }

  /** The directory with every agent file removed, except those whose removal fails, and everything else as it was. */
  function WithoutAgentFiles(files: map<string, string>, undeletable: set<string>): (r: map<string, string>)
    ensures forall n :: n in r <==> n in files && (!IsAgentFile(n) || n in undeletable)
    ensures forall n :: n in r ==> r[n] == files[n]
  {
    map n | n in files && (!IsAgentFile(n) || n in undeletable) :: files[n]
  }

  /** The directory after a successful truncation to prompt k. */
  function Truncated(files: map<string, string>, session: string, kept: seq<string>, k: nat,
                     undeletable: set<string>): map<string, string> {
    var written := files[TranscriptName(session) := JoinLines(kept)];
    if k == 0 then WithoutAgentFiles(written, undeletable) else written
  }

  function NotFoundMessage(k: nat, found: nat): string {
    if found == 0 then "Prompt #" + NatToString(k) + " not found in session (no user messages found)"
    else "Prompt #" + NatToString(k) + " not found in session (only " + NatToString(found) + " user messages found)"
  }

  /**
   * The scan of `truncate_session_to_prompt` over the transcript lines: it stops at the k-th real
   * prompt, and otherwise reports how many real prompts it counted.
   */
  method FindCut(lines: seq<string>, parse: string -> Line, k: nat) returns (found: bool, cutAt: nat, count: nat)
    ensures found <==> Cut(lines, parse, k).Some?
    ensures found ==> Cut(lines, parse, k) == Some(cutAt) && cutAt < |lines|
    ensures !found ==> count == PromptCount(lines, parse)
  {
    count, cutAt, found := 0, 0, false;
    var i := 0;
    while i < |lines|
      invariant 0 <= i <= |lines|
      invariant count == PromptCount(lines[..i], parse) && count <= k
      invariant Cut(lines, parse, k) == CutFrom(lines, parse, k, i)
    {
      PromptCountStep(lines, parse, i);
      var line := parse(lines[i]);
      if line.Unparsable? || line.entry.kind != "user" {
        i := i + 1;
        continue;
      }
      if line.entry.isSidechain || line.entry.hasParentToolUse {
        i := i + 1;
        continue;
      }
      var e := ExtractContent(Body(line.entry));
      if e.hasToolResult && !e.hasText {
        i := i + 1;
        continue;
      }
      if !e.hasText {
        i := i + 1;
        continue;
      }
      var isWarmup := Contains(e.text, "Warmup");
      var isSkill := IsSkillBanner(e.text);
      if !isWarmup && !isSkill {
        if count == k {
          return true, i, count;
        }
        count := count + 1;
      }
      i := i + 1;
    }
    assert lines[..i] == lines;
  }

  /** One session's prompt files and the project directory holding its transcript and agent files. */
  class ProjectDir {
    /** Rewriting a transcript succeeds. */
    const transcriptWritable: bool
    /** Writing a `.prompts.json` file succeeds; independent of the transcript, so a revert can fail between the two writes. */
    const promptsWritable: bool
    /** Files whose reading fails. */
    const unreadable: set<string>
    /** Files whose removal fails; the walk that removes agent files only logs such a failure. */
    const undeletable: set<string>
    /** Transcripts and agent files, by file name. */
    var files: map<string, string>
    /** The `.prompts.json` file of each session that has one, by session id. */
    var promptFiles: map<string, PromptsFile>

    constructor (transcriptWritable: bool, promptsWritable: bool, unreadable: set<string>, undeletable: set<string>,
                 files: map<string, string>, promptFiles: map<string, PromptsFile>)
      ensures this.transcriptWritable == transcriptWritable && this.promptsWritable == promptsWritable
      ensures this.unreadable == unreadable && this.undeletable == undeletable
      ensures this.files == files && this.promptFiles == promptFiles
    {
      this.transcriptWritable := transcriptWritable;
      this.promptsWritable := promptsWritable;
      this.unreadable := unreadable;
      this.undeletable := undeletable;
      this.files := files;
      this.promptFiles := promptFiles;
    }

    function PromptsOf(session: string): Option<PromptsFile>
      reads this
    {
      if session in promptFiles then Some(promptFiles[session]) else None
    }

    /** Truncating the session's transcript to prompt k would succeed. */
    predicate CanTruncate(session: string, k: nat, parse: string -> Line)
      reads this
    {
      var name := TranscriptName(session);
      name !in files || (name !in unreadable && Cut(Lines(files[name]), parse, k).Some? && transcriptWritable)
    }

    /** `save_prompts`: replaces the whole file; on failure nothing changes. */
    method SavePrompts(session: string, records: seq<PromptRecord>) returns (r: Result<(), string>)
      modifies this`promptFiles
      ensures r.Ok? <==> promptsWritable
      ensures r.Ok? ==> promptFiles == old(promptFiles)[session := Stored(records)]
      ensures r.Ok? ==> LoadPrompts(PromptsOf(session)) == Ok(records)
      ensures r.Err? ==> promptFiles == old(promptFiles)
    {
      if !promptsWritable {
        return Err("Failed to write prompts file");
      }
      promptFiles := promptFiles[session := Stored(records)];
      r := Ok(());
    }

    /**
     * Removes the agent files, the directory walk of a revert to the first prompt; a file whose
     * removal fails stays, and the walk goes on.
     */
    method RemoveAgentFiles()
      modifies this`files
      ensures files == WithoutAgentFiles(old(files), undeletable)
    {
      var pending := files.Keys;
      ghost var before := files;
      while pending != {}
        invariant pending <= before.Keys
        invariant forall n :: n in files <==> n in before && (n in pending || !IsAgentFile(n) || n in undeletable)
        invariant forall n :: n in files ==> files[n] == before[n]
        decreases |pending|
      {
        var name :| name in pending;
        if IsAgentFile(name) && name !in undeletable {
          files := files - {name};
        }
        pending := pending - {name};
      }
      assert files == WithoutAgentFiles(before, undeletable);
    }

    /**
     * `truncate_session_to_prompt`: scans the transcript for the k-th real user prompt, rewrites the
     * file with the lines before it, and for k = 0 removes the agent files. A missing transcript is
     * a successful no-op; an unreadable one, or a prompt that is not there, is an error that writes
     * nothing.
     */
    method TruncateSession(session: string, k: nat, parse: string -> Line) returns (r: Result<(), string>)
      modifies this`files
      ensures r.Ok? <==> old(CanTruncate(session, k, parse))
      ensures r.Err? ==> files == old(files)
      ensures TranscriptName(session) !in old(files) ==> files == old(files)
      ensures TranscriptName(session) in old(files) && TranscriptName(session) in unreadable ==>
        r == Err("Failed to read session file")
      ensures TranscriptName(session) in old(files) && TranscriptName(session) !in unreadable ==>
        var lines := Lines(old(files)[TranscriptName(session)]);
        match Cut(lines, parse, k)
        case None =>
          r == Err(NotFoundMessage(k, PromptCount(lines, parse)))
        case Some(cut) =>
          r.Ok? ==> files == Truncated(old(files), session, lines[..cut], k, undeletable)
    {
      var name := TranscriptName(session);
      if name !in files {
        return Ok(());
      }
      if name in unreadable {
        return Err("Failed to read session file");
      }
      var lines := Lines(files[name]);
      var found, cutAt, count := FindCut(lines, parse, k);
      if !found {
        return Err(NotFoundMessage(k, count));
      }
      var kept := lines[..cutAt];
      if !transcriptWritable {
        return Err("Failed to write truncated session");
      }
      files := files[name := JoinLines(kept)];
      if k == 0 {
        RemoveAgentFiles();
      }
      r := Ok(());
    }
  }

  /** No session's prompts file or transcript is ever taken for an agent file unless the session id itself looks like one. */
  lemma PromptsFileIsNotAgentFile(session: string)
    ensures !IsAgentFile(session + ".prompts.json")
  {
    var n := session + ".prompts.json";
    assert n[|n| - 1] == 'n' && n[|n| - 2] == 'o';
    assert ".jsonl"[5] == 'l';
  }

  /** The rewritten transcript reads back as the kept lines when none of them ends in a carriage return. */
  lemma RewrittenTranscriptReadsBack(lines: seq<string>, cut: nat)
    requires cut <= |lines|
    requires forall j :: 0 <= j < |lines| ==> forall i :: 0 <= i < |lines[j]| ==> lines[j][i] != '\n'
    requires forall j :: 0 <= j < cut ==> !(lines[j] != [] && Last(lines[j]) == '\r')
    ensures Lines(JoinLines(lines[..cut])) == lines[..cut]
  {
    LinesJoinLines(lines[..cut]);
  }

  /**
   * `record_prompt_sent`: makes sure the repository has a commit, reads HEAD, and appends a record
   * whose index is the old length and whose after-commit is unset. Git failures end the call
   * before anything is written.
   */
  method RecordPromptSent(repo: Repo, dir: ProjectDir, session: string, text: string, now: int)
    returns (r: Result<nat, string>)
    requires repo.Valid()
    modifies repo, dir
    ensures repo.Valid()
    ensures dir.files == old(dir.files)
    ensures r.Ok? <==>
      (old(repo.hasGitDir && repo.HeadResolves()) || (repo.canSpawn && repo.writable))
      && LoadPrompts(old(dir.PromptsOf(session))).Ok? && dir.promptsWritable
    ensures r.Ok? ==>
      var before := LoadPrompts(old(dir.PromptsOf(session)));
      before.Ok? && r.value == |before.value|
      && repo.head.Some?
      && dir.promptFiles == old(dir.promptFiles)[session :=
           Stored(before.value + [PromptRecord(r.value, text, repo.head.value, None, now)])]
    ensures old(repo.hasGitDir && repo.HeadResolves()) ==> repo.head == old(repo.head)
    ensures r.Err? ==> dir.promptFiles == old(dir.promptFiles)
  {
    var ensured := repo.EnsureGitRepo();
    if ensured.Err? {
      return Err("Failed to ensure Git repo: " + ensured.error);
    }
    var before := repo.CurrentCommit();
    // A successful `EnsureGitRepo` leaves HEAD resolvable, so this read cannot fail here.
    assert before.Ok?;
    var loaded := LoadPrompts(dir.PromptsOf(session));
    if loaded.Err? {
      return Err("Failed to load prompts: " + loaded.error);
    }
    var prompts := loaded.value;
    var index := |prompts|;
    prompts := prompts + [PromptRecord(index, text, before.value, None, now)];
    var saved := dir.SavePrompts(session, prompts);
    if saved.Err? {
      return Err("Failed to save prompts: " + saved.error);
    }
    r := Ok(index);
  }

  /**
   * `mark_prompt_completed`: auto-commits (ignoring any failure), reads HEAD, and stores it as the
   * after-commit of record k, leaving every other record and field as it was.
   */
  method MarkPromptCompleted(repo: Repo, dir: ProjectDir, session: string, k: nat)
    returns (r: Result<(), string>)
    requires repo.Valid()
    modifies repo, dir
    ensures repo.Valid()
    ensures dir.files == old(dir.files)
    ensures |repo.log| > |old(repo.log)| && repo.log[|old(repo.log)|] == CommitChanges(AfterPromptMessage(k))
    ensures repo.canSpawn && repo.writable && old(repo.HasChanges()) ==>
      repo.head == Some(NewCommitId(old(repo.created)))
    ensures !(repo.canSpawn && repo.writable && old(repo.HasChanges())) ==> repo.head == old(repo.head)
    ensures r.Ok? <==>
      var before := LoadPrompts(old(dir.PromptsOf(session)));
      repo.canSpawn && (old(repo.head).Some? || (repo.writable && old(repo.HasChanges())))
      && before.Ok? && k < |before.value| && dir.promptsWritable
    ensures r.Ok? ==>
      var before := LoadPrompts(old(dir.PromptsOf(session)));
      before.Ok? && k < |before.value| && repo.head.Some?
      && dir.promptFiles == old(dir.promptFiles)[session :=
           Stored(before.value[k := before.value[k].(gitCommitAfter := Some(repo.head.value))])]
    ensures r.Err? ==> dir.promptFiles == old(dir.promptFiles)
  {
    var committed := repo.CommitChangesNow(AfterPromptMessage(k));
    var after := repo.CurrentCommit();
    if after.Err? {
      return Err("Failed to get current commit: " + after.error);
    }
    var loaded := LoadPrompts(dir.PromptsOf(session));
    if loaded.Err? {
      return Err("Failed to load prompts: " + loaded.error);
    }
    var prompts := loaded.value;
    if k >= |prompts| {
      return Err("Prompt #" + NatToString(k) + " not found");
    }
    prompts := prompts[k := prompts[k].(gitCommitAfter := Some(after.value))];
    var saved := dir.SavePrompts(session, prompts);
    if saved.Err? {
      return Err("Failed to save prompts: " + saved.error);
    }
    r := Ok(());
  }

  function AfterPromptMessage(k: nat): string {
    "[Claude Code] After prompt #" + NatToString(k)
  }

  function StashMessage(k: nat): string {
    "Auto-stash before revert to prompt #" + NatToString(k)
  }

  /** A revert to prompt k gets as far as a truncated transcript: record k exists, its commit can be reset to, and the transcript can be truncated. */
  predicate TruncationReached(repo: Repo, dir: ProjectDir, session: string, k: nat, parse: string -> Line)
    reads repo, dir
  {
    var loaded := LoadPrompts(dir.PromptsOf(session));
    loaded.Ok? && k < |loaded.value| && repo.CanReset(loaded.value[k].gitCommitBefore)
    && dir.CanTruncate(session, k, parse)
  }

  /** Every step of a revert to prompt k would succeed: it reaches the truncation and the records can be saved. */
  predicate RevertPossible(repo: Repo, dir: ProjectDir, session: string, k: nat, parse: string -> Line)
    reads repo, dir
  {
    TruncationReached(repo, dir, session, k, parse) && dir.promptsWritable
  }

  /**
   * `revert_to_prompt`: with record k present, stashes, resets to record k's before-commit,
   * truncates the transcript and keeps the first k records, in that order, stopping at the first
   * failure; returns record k's text. The writes are not atomic: a save that fails after the
   * truncation leaves the transcript truncated and the records as they were.
   */
  method RevertToPrompt(repo: Repo, dir: ProjectDir, session: string, k: nat, parse: string -> Line)
    returns (r: Result<string, string>)
    requires repo.Valid()
    modifies repo, dir
    ensures repo.Valid()
    ensures r.Ok? <==> old(RevertPossible(repo, dir, session, k, parse))
    ensures r.Err? ==> dir.promptFiles == old(dir.promptFiles)
    ensures !old(TruncationReached(repo, dir, session, k, parse)) ==> dir.files == old(dir.files)
    ensures old(TruncationReached(repo, dir, session, k, parse)) ==>
      (TranscriptName(session) in old(dir.files) ==>
         var lines := Lines(old(dir.files)[TranscriptName(session)]);
         Cut(lines, parse, k).Some?
         && dir.files == Truncated(old(dir.files), session, lines[..Cut(lines, parse, k).value], k, dir.undeletable))
      && (TranscriptName(session) !in old(dir.files) ==> dir.files == old(dir.files))
    ensures var loaded := LoadPrompts(old(dir.PromptsOf(session)));
      (loaded.Err? || k >= |loaded.value|) ==>
        r.Err? && repo.log == old(repo.log) && repo.head == old(repo.head)
    ensures var loaded := LoadPrompts(old(dir.PromptsOf(session)));
      loaded.Ok? && k < |loaded.value| ==>
        |repo.log| > |old(repo.log)| && repo.log[|old(repo.log)|] == Status
        && (!old(repo.CanReset(loaded.value[k].gitCommitBefore)) ==> repo.head == old(repo.head))
        && (repo.canSpawn ==> repo.log[|repo.log| - 1] == ResetHard(loaded.value[k].gitCommitBefore))
    ensures r.Ok? ==>
      var records := LoadPrompts(old(dir.PromptsOf(session))).value;
      k < |records| && r.value == records[k].text
      && repo.head == Some(records[k].gitCommitBefore) && !repo.modified
      && repo.untracked == (old(repo.untracked) && !repo.stashWorks)
      && repo.stash == (if old(repo.HasChanges()) && repo.stashWorks then [StashMessage(k)] + old(repo.stash)
                        else old(repo.stash))
      && dir.promptFiles == old(dir.promptFiles)[session := Stored(records[..k])]
  {
    var loaded := LoadPrompts(dir.PromptsOf(session));
    if loaded.Err? {
      return Err("Failed to load prompts: " + loaded.error);
    }
    var prompts := loaded.value;
    if k >= |prompts| {
      return Err("Prompt #" + NatToString(k) + " not found");
    }
    var prompt := prompts[k];
    var stashed := repo.StashSaveChanges(StashMessage(k));
    if stashed.Err? {
      return Err("Failed to stash changes: " + stashed.error);
    }
    var reset := repo.ResetHardTo(prompt.gitCommitBefore);
    if reset.Err? {
      return Err("Failed to reset code: " + reset.error);
    }
    var truncated := dir.TruncateSession(session, k, parse);
    if truncated.Err? {
      return Err("Failed to truncate session: " + truncated.error);
    }
    var saved := dir.SavePrompts(session, prompts[..k]);
    if saved.Err? {
      return Err("Failed to save truncated prompts: " + saved.error);
    }
    r := Ok(prompt.text);
  }

  /** `get_prompt_list`: the stored records, with the same missing-file and error rules as loading. */
  function GetPromptList(f: Option<PromptsFile>): (r: Result<seq<PromptRecord>, string>)
    ensures r.Ok? ==> (f.None? && r.value == []) || (f == Some(Stored(r.value)))
    ensures r.Err? ==> LoadPrompts(f).Err? && r.error == "Failed to load prompts: " + LoadPrompts(f).error
  {
    match LoadPrompts(f)
    case Ok(records) => Ok(records)
    case Err(e) => Err("Failed to load prompts: " + e)
  }
}
