/**
 * Usage tracking (src-tauri/src/commands/usage.rs): reading usage records out of transcript files,
 * with de-duplication shared across files, the price tier of a model, the earliest timestamp of a
 * file, and the integer side of the statistics (token totals, per-model, per-day and per-project
 * tables). Costs are floating point and not modelled.
 */
module Usage {
  import opened Base
  import opened Text
  import Seqs
  import opened Sorting

  // ---------------------------------------------------------------------------------------------
  // Price tier

  /** The four price tables `calculate_cost` chooses from; `Unpriced` is the all-zero table. */
  datatype PriceTier = Opus4 | Sonnet4 | Sonnet35 | Unpriced

  /** The longer names `calculate_cost` also tests contain the shorter ones. */
  lemma LongNamesContainShortOnes(model: string)
    ensures Contains(model, "claude-opus-4") ==> Contains(model, "opus-4")
    ensures Contains(model, "claude-sonnet-4") ==> Contains(model, "sonnet-4")
  {
    if Contains(model, "claude-opus-4") {
      assert "claude-opus-4" == "claude-" + "opus-4";
      ContainsTail(model, "claude-", "opus-4");
    }
    if Contains(model, "claude-sonnet-4") {
      assert "claude-sonnet-4" == "claude-" + "sonnet-4";
      ContainsTail(model, "claude-", "sonnet-4");
    }
  }

  /**
   * The tier of `calculate_cost`, tested in order: Opus 4, Sonnet 4, then any other Sonnet or
   * "3.5"/"35" name, and zero prices for everything else.
   */
  function CostTier(model: string): (t: PriceTier)
    ensures t == Opus4 <==> Contains(model, "opus-4")
    ensures t == Sonnet4 <==> !Contains(model, "opus-4") && Contains(model, "sonnet-4")
    ensures t == Sonnet35 <==> (!Contains(model, "opus-4") && !Contains(model, "sonnet-4")
                                && (Contains(model, "3.5") || Contains(model, "35") || Contains(model, "sonnet")))
  {
    LongNamesContainShortOnes(model);
    if Contains(model, "opus-4") || Contains(model, "claude-opus-4") then Opus4
    else if Contains(model, "sonnet-4") || Contains(model, "claude-sonnet-4") then Sonnet4
    else if Contains(model, "3.5") || Contains(model, "35") || Contains(model, "sonnet") then Sonnet35
    else Unpriced
  }

  // ---------------------------------------------------------------------------------------------
  // Transcript lines

  /** The `usage` object of a message; each count may be absent. */
  datatype RawUsage = RawUsage(input: Option<nat>, output: Option<nat>, cacheCreation: Option<nat>, cacheRead: Option<nat>)

  datatype MessageData = MessageData(id: Option<string>, model: Option<string>, usage: Option<RawUsage>)

  /** A line that deserializes as a `JsonlEntry` (it has a string `timestamp`). */
  datatype JsonlEntry = JsonlEntry(timestamp: string, message: Option<MessageData>, sessionId: Option<string>,
                                   requestId: Option<string>)

  /**
   * A transcript line after JSON parsing: not JSON at all, or a JSON value with its string `cwd`
   * (if any) and its reading as a `JsonlEntry` (if it has one).
   */
  datatype ParsedLine = NotJson | Json(cwd: Option<string>, entry: Option<JsonlEntry>)

  /** One usage record; the cost is left out. */
  datatype UsageEntry = UsageEntry(timestamp: string, model: string, inputTokens: nat, outputTokens: nat,
                                   cacheCreationTokens: nat, cacheReadTokens: nat, sessionId: string,
                                   projectPath: string)

  /** A transcript file: its text (None when it cannot be read), its directory name, its project. */
  datatype TranscriptFile = TranscriptFile(content: Option<string>, directory: Option<string>, projectName: string)

  function OrZero(n: Option<nat>): nat {
    if n.Some? then n.value else 0
  }

  predicate ZeroUsage(u: RawUsage) {
    OrZero(u.input) == 0 && OrZero(u.output) == 0 && OrZero(u.cacheCreation) == 0 && OrZero(u.cacheRead) == 0
  }

  predicate NonZero(e: UsageEntry) {
    e.inputTokens > 0 || e.outputTokens > 0 || e.cacheCreationTokens > 0 || e.cacheReadTokens > 0
  }

  /** `"{msg_id}:{req_id}"`, present only when the message id and the request id both are. */
  function DedupKey(e: JsonlEntry): Option<string> {
    if e.message.Some? && e.message.value.id.Some? && e.requestId.Some? then
      Some(e.message.value.id.value + ":" + e.requestId.value)
    else None
  }

  /** The key of a line that holds an entry with a message, if that entry has one. */
  function LineKey(p: ParsedLine): Option<string> {
    if p.Json? && p.entry.Some? && p.entry.value.message.Some? then DedupKey(p.entry.value) else None
  }

  /** What the loop of `parse_jsonl_file` carries: the project path found, the keys seen, the records. */
  datatype ParseState = ParseState(projectPath: Option<string>, processed: set<string>, entries: seq<UsageEntry>)

  /** The record a line with non-zero usage produces. */
  function Record(e: JsonlEntry, u: RawUsage, directory: Option<string>, projectPath: string): UsageEntry
    requires e.message.Some?
  {
    var model := e.message.value.model;
    UsageEntry(e.timestamp, if model.Some? then model.value else "unknown",
               OrZero(u.input), OrZero(u.output), OrZero(u.cacheCreation), OrZero(u.cacheRead),
               if e.sessionId.Some? then e.sessionId.value else if directory.Some? then directory.value else "unknown",
               projectPath)
  }

  /** A line adds at most one record, with some non-zero count, and the set of seen keys only grows. */
  ghost predicate Grows(st: ParseState, r: ParseState) {
    st.processed <= r.processed
    && (r.entries == st.entries
        || (|r.entries| == |st.entries| + 1 && r.entries[..|st.entries|] == st.entries
            && NonZero(r.entries[|st.entries|])))
  }

  /** An entry with a message, once the project path is settled: de-duplication, then the zero skip. */
  function StepEntry(st: ParseState, e: JsonlEntry, f: TranscriptFile): (r: ParseState)
    requires e.message.Some?
    ensures Grows(st, r) && r.projectPath == st.projectPath
  {
    var key := DedupKey(e);
    if key.Some? && key.value in st.processed then st
    else
      var st2 := if key.Some? then st.(processed := st.processed + {key.value}) else st;
      var usage := e.message.value.usage;
      if usage.None? || ZeroUsage(usage.value) then st2
      else
        var projectPath := if st.projectPath.Some? then st.projectPath.value else f.projectName;
        st2.(entries := st2.entries + [Record(e, usage.value, f.directory, projectPath)])
  }

  /** A parsed line: the first `cwd` fixes the project path, then an entry with a message is taken. */
  function StepParsed(st: ParseState, p: ParsedLine, f: TranscriptFile): (r: ParseState)
    ensures Grows(st, r)
  {
    match p
    case NotJson => st
    case Json(cwd, entry) =>
      var st1 := st.(projectPath := if st.projectPath.None? && cwd.Some? then cwd else st.projectPath);
      if entry.None? || entry.value.message.None? then st1
      else StepEntry(st1, entry.value, f)
  }

  /** A line that trims to nothing. */
  predicate Blank(line: string) {
    AllSpace(line, IsRustSpace)
  }

  lemma BlankIsTrimEmpty(line: string)
    ensures Blank(line) <==> RustTrim(line) == ""
  {
    TrimEmptyIff(line, IsRustSpace);
  }

  /** One line of `parse_jsonl_file`; blank lines are skipped. */
  function Step(st: ParseState, line: string, parse: string -> ParsedLine, f: TranscriptFile): (r: ParseState)
    ensures Grows(st, r)
  {
    if Blank(line) then st else StepParsed(st, parse(line), f)
  }

  /**
   * The lines of a file, in order. Records are only appended, each one has some non-zero count, at
   * most one comes from each line, and the set of seen keys only grows.
   */
  function ParseLines(lines: seq<string>, parse: string -> ParsedLine, f: TranscriptFile, st: ParseState): (r: ParseState)
    ensures st.processed <= r.processed
    ensures |st.entries| <= |r.entries| <= |st.entries| + |lines|
    ensures r.entries[..|st.entries|] == st.entries
    ensures forall k :: |st.entries| <= k < |r.entries| ==> NonZero(r.entries[k])
    decreases |lines|
  {
    if lines == [] then st
    else
      var next := Step(st, lines[0], parse, f);
      var r := ParseLines(lines[1..], parse, f, next);
      assert r.entries[..|next.entries|] == next.entries;
      assert r.entries[..|st.entries|] == next.entries[..|st.entries|];
      r
  }

  /** `parse_jsonl_file` as a function: no records from an unreadable file. */
  function ParseFile(f: TranscriptFile, parse: string -> ParsedLine, processed: set<string>): ParseState {
    if f.content.None? then ParseState(None, processed, [])
    else ParseLines(Lines(f.content.value), parse, f, ParseState(None, processed, []))
  }

  lemma {:induction false} ParseLinesAppend(a: seq<string>, b: seq<string>, parse: string -> ParsedLine,
                                            f: TranscriptFile, st: ParseState)
    ensures ParseLines(a + b, parse, f, st) == ParseLines(b, parse, f, ParseLines(a, parse, f, st))
    decreases |a|
  {
    if a == [] {
      assert a + b == b;
    } else {
      var next := Step(st, a[0], parse, f);
      assert (a + b)[0] == a[0] && (a + b)[1..] == a[1..] + b;
      ParseLinesAppend(a[1..], b, parse, f, next);
    }
  }

  /** A line whose key was seen before produces nothing and records no key. */
  lemma SeenKeyIsSkipped(st: ParseState, line: string, parse: string -> ParsedLine, f: TranscriptFile)
    requires LineKey(parse(line)).Some? && LineKey(parse(line)).value in st.processed
    ensures Step(st, line, parse, f).entries == st.entries
    ensures Step(st, line, parse, f).processed == st.processed
  {
  }

  /**
   * A non-blank line with a keyed message records its key, also when its usage is missing or zero
   * and the line produces nothing.
   */
  lemma KeyIsRecorded(st: ParseState, line: string, parse: string -> ParsedLine, f: TranscriptFile)
    requires !Blank(line) && LineKey(parse(line)).Some?
    ensures LineKey(parse(line)).value in Step(st, line, parse, f).processed
  {
  }

  /** A line whose usage is missing or zero produces no record. */
  lemma ZeroUsageIsSkipped(st: ParseState, line: string, parse: string -> ParsedLine, f: TranscriptFile)
    requires parse(line).Json? && parse(line).entry.Some? && parse(line).entry.value.message.Some?
    requires var u := parse(line).entry.value.message.value.usage; u.None? || ZeroUsage(u.value)
    ensures Step(st, line, parse, f).entries == st.entries
  {
  }

  /** Line `j` produces nothing when its key was seen before the file's loop reached it. */
  lemma SeenKeyEmitsNothing(lines: seq<string>, j: nat, parse: string -> ParsedLine, f: TranscriptFile, st: ParseState)
    requires j < |lines| && LineKey(parse(lines[j])).Some? && LineKey(parse(lines[j])).value in st.processed
    ensures var before := ParseLines(lines[..j], parse, f, st);
      ParseLines(lines[..j + 1], parse, f, st).entries == before.entries
  {
    var before := ParseLines(lines[..j], parse, f, st);
    assert lines[..j + 1] == lines[..j] + [lines[j]];
    ParseLinesAppend(lines[..j], [lines[j]], parse, f, st);
    SeenKeyIsSkipped(before, lines[j], parse, f);
  }

  /** Of two non-blank lines of one file with the same key, the later one produces nothing. */
  lemma RepeatedKeyInFile(lines: seq<string>, i: nat, j: nat, parse: string -> ParsedLine, f: TranscriptFile,
                          st: ParseState)
    requires i < j < |lines| && !Blank(lines[i])
    requires LineKey(parse(lines[i])).Some? && LineKey(parse(lines[j])) == LineKey(parse(lines[i]))
    ensures ParseLines(lines[..j + 1], parse, f, st).entries == ParseLines(lines[..j], parse, f, st).entries
  {
    var key := LineKey(parse(lines[i])).value;
    var upto := ParseLines(lines[..i + 1], parse, f, st);
    assert key in upto.processed by {
      Seqs.PrefixSnoc(lines, i);
      ParseLinesAppend(lines[..i], [lines[i]], parse, f, st);
      KeyIsRecorded(ParseLines(lines[..i], parse, f, st), lines[i], parse, f);
    }
    var rest := lines[i + 1..];
    assert rest[j - (i + 1)] == lines[j];
    var k := j - (i + 1);
    ParsePrefixFrom(lines, i + 1, j, parse, f, st);
    ParsePrefixFrom(lines, i + 1, j + 1, parse, f, st);
    SeenKeyEmitsNothing(rest, k, parse, f, upto);
  }

  /** Parsing the first n lines is parsing lines a to n from the state the first a hand on. */
  lemma ParsePrefixFrom(lines: seq<string>, a: nat, n: nat, parse: string -> ParsedLine, f: TranscriptFile,
                        st: ParseState)
    requires a <= n <= |lines|
    ensures ParseLines(lines[..n], parse, f, st)
         == ParseLines(lines[a..][..n - a], parse, f, ParseLines(lines[..a], parse, f, st))
  {
    Seqs.PrefixOfRest(lines, a, n - a);
    ParseLinesAppend(lines[..a], lines[a..][..n - a], parse, f, st);
  }

  /** Every keyed, non-blank line of a file has its key in the set the file hands on. */
  lemma {:induction false} FileRecordsKeys(lines: seq<string>, i: nat, parse: string -> ParsedLine, f: TranscriptFile,
                                           st: ParseState)
    requires i < |lines| && !Blank(lines[i]) && LineKey(parse(lines[i])).Some?
    ensures LineKey(parse(lines[i])).value in ParseLines(lines, parse, f, st).processed
  {
    assert lines == lines[..i] + [lines[i]] + lines[i + 1..];
    ParseLinesAppend(lines[..i] + [lines[i]], lines[i + 1..], parse, f, st);
    ParseLinesAppend(lines[..i], [lines[i]], parse, f, st);
    KeyIsRecorded(ParseLines(lines[..i], parse, f, st), lines[i], parse, f);
  }

  /**
   * A line of a later file whose key occurred in an earlier file produces nothing, because the set
   * of seen keys is handed from file to file.
   */
  lemma KeyOfEarlierFileIsSkipped(f1: TranscriptFile, i: nat, f2: TranscriptFile, j: nat,
                                  parse: string -> ParsedLine, processed: set<string>)
    requires f1.content.Some? && f2.content.Some?
    requires i < |Lines(f1.content.value)| && j < |Lines(f2.content.value)|
    requires var l1 := Lines(f1.content.value)[i];
      !Blank(l1) && LineKey(parse(l1)).Some? && LineKey(parse(Lines(f2.content.value)[j])) == LineKey(parse(l1))
    ensures var lines := Lines(f2.content.value);
      var start := ParseState(None, ParseFile(f1, parse, processed).processed, []);
      ParseLines(lines[..j + 1], parse, f2, start).entries == ParseLines(lines[..j], parse, f2, start).entries
  {
    var lines := Lines(f2.content.value);
    FileRecordsKeys(Lines(f1.content.value), i, parse, f1, ParseState(None, processed, []));
    var start := ParseState(None, ParseFile(f1, parse, processed).processed, []);
    SeenKeyEmitsNothing(lines, j, parse, f2, start);
  }

  /** `parse_jsonl_file`: the loop over the lines of one file, sharing the set of seen keys. */
  method ParseJsonlFile(f: TranscriptFile, parse: string -> ParsedLine, processed: set<string>)
    returns (entries: seq<UsageEntry>, processed': set<string>)
    ensures entries == ParseFile(f, parse, processed).entries
    ensures processed' == ParseFile(f, parse, processed).processed
  {
    entries := [];
    processed' := processed;
    if f.content.None? {
      return;
    }
    var lines := Lines(f.content.value);
    var projectPath: Option<string> := None;
    var i := 0;
    while i < |lines|
      invariant 0 <= i <= |lines|
      invariant ParseLines(lines[i..], parse, f, ParseState(projectPath, processed', entries))
             == ParseFile(f, parse, processed)
    {
      assert lines[i..][1..] == lines[i + 1..];
      var line := lines[i];
      i := i + 1;
      BlankIsTrimEmpty(line);
      if RustTrim(line) == "" {
        continue;
      }
      var json := parse(line);
      if json.NotJson? {
        continue;
      }
      if projectPath.None? && json.cwd.Some? {
        projectPath := json.cwd;
      }
      if json.entry.None? || json.entry.value.message.None? {
        continue;
      }
      var entry := json.entry.value;
      var message := entry.message.value;
      if message.id.Some? && entry.requestId.Some? {
        var uniqueHash := message.id.value + ":" + entry.requestId.value;
        if uniqueHash in processed' {
          continue;
        }
        processed' := processed' + {uniqueHash};
      }
      if message.usage.Some? {
        var usage := message.usage.value;
        if ZeroUsage(usage) {
          continue;
        }
        var path := if projectPath.Some? then projectPath.value else f.projectName;
        entries := entries + [Record(entry, usage, f.directory, path)];
      }
    }
  }

  /** The files in order, each starting from the keys the earlier ones saw. */
  function CollectFrom(files: seq<TranscriptFile>, parse: string -> ParsedLine, processed: set<string>)
    : (r: (seq<UsageEntry>, set<string>))
    ensures processed <= r.1
    ensures forall k :: 0 <= k < |r.0| ==> NonZero(r.0[k])
  {
    if files == [] then ([], processed)
    else
      var first := ParseFile(files[0], parse, processed);
      var rest := CollectFrom(files[1..], parse, first.processed);
      (first.entries + rest.0, rest.1)
  }

  /**
   * `get_all_usage_entries` up to its final sort of the entries: the walked files are ordered by
   * their earliest timestamp, each key computed once, and then read in that order with one set of
   * seen keys for all of them, so the order decides which of two duplicate records is kept.
   */
  method CollectUsageEntries(files: seq<TranscriptFile>, parse: string -> ParsedLine,
                             timestampOf: string -> Option<string>) returns (all: seq<UsageEntry>)
    ensures all == CollectFrom(ProcessingOrder(files, timestampOf), parse, {}).0
    ensures forall k :: 0 <= k < |all| ==> NonZero(all[k])
  {
    var keyed := CachedKeys(files, timestampOf);
    var order := Files(SortBy(keyed, KeyRank(keyed)));
    all := ReadFiles(order, parse);
  }

  /** The loop over the ordered files, with one set of seen keys for all of them. */
  method ReadFiles(order: seq<TranscriptFile>, parse: string -> ParsedLine) returns (all: seq<UsageEntry>)
    ensures all == CollectFrom(order, parse, {}).0
  {
    all := [];
    var processed: set<string> := {};
    var i := 0;
    while i < |order|
      invariant 0 <= i <= |order|
      invariant all + CollectFrom(order[i..], parse, processed).0 == CollectFrom(order, parse, {}).0
    {
      assert order[i..][1..] == order[i + 1..];
      var entries, processed' := ParseJsonlFile(order[i], parse, processed);
      all := all + entries;
      processed := processed';
      i := i + 1;
    }
  }

  // ---------------------------------------------------------------------------------------------
  // Order of the files

  /** `get_earliest_timestamp` of a file: None for an unreadable file. */
  function FileKey(f: TranscriptFile, timestampOf: string -> Option<string>): Option<string> {
    if f.content.None? then None else Earliest(Lines(f.content.value), timestampOf)
  }

  /** The order of `Option<String>`: None before every string, strings in Rust's order. */
  predicate KeyLess(a: Option<string>, b: Option<string>) {
    b.Some? && (a.None? || LexLess(a.value, b.value))
  }

  lemma KeyLessTransitive(a: Option<string>, b: Option<string>, c: Option<string>)
    requires KeyLess(a, b) && KeyLess(b, c)
    ensures KeyLess(a, c)
  {
    if a.Some? {
      LexLessTransitive(a.value, b.value, c.value);
    }
  }

  /** A walked file with the key `sort_by_cached_key` computes for it. */
  datatype KeyedFile = KeyedFile(file: TranscriptFile, key: Option<string>)

  /** Each file paired with its key, in walk order. */
  function KeyedFiles(files: seq<TranscriptFile>, timestampOf: string -> Option<string>): (r: seq<KeyedFile>)
    ensures |r| == |files|
  {
    seq(|files|, i requires 0 <= i < |files| => KeyedFile(files[i], FileKey(files[i], timestampOf)))
  }

  function Files(keyed: seq<KeyedFile>): (r: seq<TranscriptFile>)
    ensures |r| == |keyed|
  {
    seq(|keyed|, i requires 0 <= i < |keyed| => keyed[i].file)
  }

  /** How many of the walked files have a key below `k`. */
  function LessCount(keyed: seq<KeyedFile>, k: Option<string>): nat {
    if keyed == [] then 0
    else LessCount(keyed[..|keyed| - 1], k) + (if KeyLess(keyed[|keyed| - 1].key, k) then 1 else 0)
  }

  /** The key as an integer rank over the walked files: the number of files with a smaller key. */
  function KeyRank(keyed: seq<KeyedFile>): KeyedFile -> int {
    (p: KeyedFile) => LessCount(keyed, p.key)
  }

  /** The order in which the files are read: a stable sort of the walk by earliest timestamp. */
  function ProcessingOrder(files: seq<TranscriptFile>, timestampOf: string -> Option<string>): seq<TranscriptFile> {
    var keyed := KeyedFiles(files, timestampOf);
    Files(SortBy(keyed, KeyRank(keyed)))
  }

  /** A smaller key counts no more files below it. */
  lemma {:induction false} LessCountMonotone(keyed: seq<KeyedFile>, a: Option<string>, b: Option<string>)
    requires KeyLess(a, b)
    ensures LessCount(keyed, a) <= LessCount(keyed, b)
  {
    if keyed != [] {
      var x := keyed[|keyed| - 1];
      LessCountMonotone(keyed[..|keyed| - 1], a, b);
      if KeyLess(x.key, a) {
        KeyLessTransitive(x.key, a, b);
      }
    }
  }

  /** A smaller key held by a walked file counts strictly fewer files below it. */
  lemma {:induction false} LessCountStrict(keyed: seq<KeyedFile>, a: Option<string>, b: Option<string>, i: nat)
    requires i < |keyed| && keyed[i].key == a
    ensures KeyLess(a, b) ==> LessCount(keyed, a) < LessCount(keyed, b)
  {
    if KeyLess(a, b) {
      var n := |keyed| - 1;
      var x := keyed[n];
      if i == n {
        LessCountMonotone(keyed[..n], a, b);
        if a.Some? {
          LexLessIrreflexive(a.value);
        }
      } else {
        assert keyed[..n][i] == keyed[i];
        LessCountStrict(keyed[..n], a, b, i);
        if KeyLess(x.key, a) {
          KeyLessTransitive(x.key, a, b);
        }
      }
    }
  }

  /**
   * The files are read in the order of their earliest timestamps, files without one first: the order
   * is a rearrangement of the walk (as pairs of a file and its key), and no file is read before a
   * file with a smaller key. Files with equal keys keep their walk order, because `SortBy` is stable.
   */
  lemma ProcessingOrderFacts(files: seq<TranscriptFile>, timestampOf: string -> Option<string>)
    ensures var keyed := KeyedFiles(files, timestampOf);
      multiset(SortBy(keyed, KeyRank(keyed))) == multiset(keyed)
    ensures var order := ProcessingOrder(files, timestampOf);
      |order| == |files|
      && forall i, j :: 0 <= i < j < |order| ==>
           !KeyLess(FileKey(order[j], timestampOf), FileKey(order[i], timestampOf))
  {
    var keyed := KeyedFiles(files, timestampOf);
    var rank := KeyRank(keyed);
    var sorted := SortBy(keyed, rank);
    SortBySorts(keyed, rank);
    var order := Files(sorted);
    forall i, j | 0 <= i < j < |order|
      ensures !KeyLess(FileKey(order[j], timestampOf), FileKey(order[i], timestampOf))
    {
      assert sorted[i] in multiset(keyed) && sorted[j] in multiset(keyed);
      var a :| 0 <= a < |keyed| && keyed[a] == sorted[i];
      var b :| 0 <= b < |keyed| && keyed[b] == sorted[j];
      assert order[i] == sorted[i].file && order[j] == sorted[j].file;
      assert sorted[i].key == FileKey(order[i], timestampOf) && sorted[j].key == FileKey(order[j], timestampOf);
      assert rank(sorted[i]) <= rank(sorted[j]);
      LessCountStrict(keyed, sorted[j].key, sorted[i].key, b);
    }
  }

  /** The cached keys: `get_earliest_timestamp` run once per walked file. */
  method CachedKeys(files: seq<TranscriptFile>, timestampOf: string -> Option<string>) returns (keyed: seq<KeyedFile>)
    ensures keyed == KeyedFiles(files, timestampOf)
  {
    keyed := [];
    var i := 0;
    while i < |files|
      invariant 0 <= i <= |files| && |keyed| == i
      invariant forall j :: 0 <= j < i ==> keyed[j] == KeyedFile(files[j], FileKey(files[j], timestampOf))
    {
      var key := GetEarliestTimestamp(files[i].content, timestampOf);
      keyed := keyed + [KeyedFile(files[i], key)];
      i := i + 1;
    }
  }

  // ---------------------------------------------------------------------------------------------
  // Earliest timestamp

  /** The least `timestamp` string among the lines, in Rust's string order, or None. */
  function Earliest(lines: seq<string>, timestampOf: string -> Option<string>): (r: Option<string>)
    ensures r.None? <==> forall i :: 0 <= i < |lines| ==> timestampOf(lines[i]).None?
    ensures r.Some? ==> exists i :: 0 <= i < |lines| && timestampOf(lines[i]) == r
    ensures r.Some? ==> forall i :: 0 <= i < |lines| && timestampOf(lines[i]).Some? ==>
      !LexLess(timestampOf(lines[i]).value, r.value)
  {
    if lines == [] then None
    else
      var n := |lines| - 1;
      var front := Earliest(lines[..n], timestampOf);
      assert forall i :: 0 <= i < n ==> lines[..n][i] == lines[i];
      LexLessIrreflexive(if timestampOf(lines[n]).Some? then timestampOf(lines[n]).value else "");
      match timestampOf(lines[n])
      case None => front
      case Some(t) =>
        if front.None? then Some(t)
        else if LexLess(t, front.value) then
          assert forall i :: 0 <= i < n && timestampOf(lines[i]).Some? ==> !LexLess(timestampOf(lines[i]).value, t) by {
            forall i | 0 <= i < n && timestampOf(lines[i]).Some?
              ensures !LexLess(timestampOf(lines[i]).value, t)
            {
              if LexLess(timestampOf(lines[i]).value, t) {
                LexLessTransitive(timestampOf(lines[i]).value, t, front.value);
              }
            }
          }
          Some(t)
        else front
  }

  /** One more line replaces the earliest so far when its timestamp is smaller, or when there was none. */
  lemma EarliestStep(lines: seq<string>, timestampOf: string -> Option<string>, i: nat)
    requires i < |lines|
    ensures var prev, ts := Earliest(lines[..i], timestampOf), timestampOf(lines[i]);
      Earliest(lines[..i + 1], timestampOf)
        == if ts.None? then prev else if prev.None? || LexLess(ts.value, prev.value) then ts else prev
  {
    assert lines[..i + 1][..i] == lines[..i];
    assert lines[..i + 1][i] == lines[i];
  }

  /** `get_earliest_timestamp`: None for an unreadable file. */
  method GetEarliestTimestamp(content: Option<string>, timestampOf: string -> Option<string>) returns (r: Option<string>)
    ensures content.None? ==> r.None?
    ensures content.Some? ==> r == Earliest(Lines(content.value), timestampOf)
  {
    if content.None? {
      return None;
    }
    var lines := Lines(content.value);
    var earliest: Option<string> := None;
    var i := 0;
    while i < |lines|
      invariant 0 <= i <= |lines|
      invariant earliest == Earliest(lines[..i], timestampOf)
    {
      EarliestStep(lines, timestampOf, i);
      var ts := timestampOf(lines[i]);
      if ts.Some? {
        if earliest.Some? {
          if LexLess(ts.value, earliest.value) {
            earliest := ts;
          }
        } else {
          earliest := ts;
        }
      }
      i := i + 1;
    }
    assert lines[..i] == lines;
    return earliest;
  }

  // ---------------------------------------------------------------------------------------------
  // Statistics (integer part)

  function InputOf(e: UsageEntry): nat { e.inputTokens }
  function OutputOf(e: UsageEntry): nat { e.outputTokens }
  function CacheCreationOf(e: UsageEntry): nat { e.cacheCreationTokens }
  function CacheReadOf(e: UsageEntry): nat { e.cacheReadTokens }

  /** All four counts of a record. */
  function AllTokens(e: UsageEntry): nat {
    e.inputTokens + e.outputTokens + e.cacheCreationTokens + e.cacheReadTokens
  }

  function ModelKey(e: UsageEntry): string { e.model }
  function ProjectKey(e: UsageEntry): string { e.projectPath }

  /** Sum of `f` over the records. */
  function Sum(es: seq<UsageEntry>, f: UsageEntry -> nat): nat {
    if es == [] then 0 else Sum(es[..|es| - 1], f) + f(es[|es| - 1])
  }

  /** Sum of `f` over the records whose `key` is `k`. */
  function SumWhere(es: seq<UsageEntry>, f: UsageEntry -> nat, key: UsageEntry -> string, k: string): nat {
    if es == [] then 0
    else SumWhere(es[..|es| - 1], f, key, k) + (if key(es[|es| - 1]) == k then f(es[|es| - 1]) else 0)
  }

  /** Number of records whose `key` is `k`. */
  function CountWhere(es: seq<UsageEntry>, key: UsageEntry -> string, k: string): nat {
    if es == [] then 0
    else CountWhere(es[..|es| - 1], key, k) + (if key(es[|es| - 1]) == k then 1 else 0)
  }

  /** With no record under `k`, the sums and the count under `k` are zero. */
  lemma {:induction false} NothingUnder(es: seq<UsageEntry>, f: UsageEntry -> nat, key: UsageEntry -> string, k: string)
    requires forall i :: 0 <= i < |es| ==> key(es[i]) != k
    ensures SumWhere(es, f, key, k) == 0 && CountWhere(es, key, k) == 0
  {
    if es != [] {
      NothingUnder(es[..|es| - 1], f, key, k);
    }
  }

  /** The sums under one key never exceed the sum over all records. */
  lemma {:induction false} SumWhereAtMostSum(es: seq<UsageEntry>, f: UsageEntry -> nat, key: UsageEntry -> string, k: string)
    ensures SumWhere(es, f, key, k) <= Sum(es, f)
  {
    if es != [] {
      SumWhereAtMostSum(es[..|es| - 1], f, key, k);
    }
  }

  predicate NoDuplicates(s: seq<string>) {
    forall i, j :: 0 <= i < j < |s| ==> s[i] != s[j]
  }

  /** The date of a record: the local calendar date of an RFC 3339 timestamp, else the text before 'T'. */
  function DateOf(localDate: string -> Option<string>, timestamp: string): string {
    match localDate(timestamp)
    case Some(d) => d
    case None => Split(timestamp, c => c == 'T')[0]
  }

  function DayKey(localDate: string -> Option<string>): UsageEntry -> string {
    (e: UsageEntry) => DateOf(localDate, e.timestamp)
  }

  /**
   * `split('/').last()`: the longest suffix of the path without a '/', which is the whole path or
   * follows its last '/'.
   */
  function ProjectName(path: string): (name: string)
    ensures EndsWith(path, name)
    ensures forall i :: 0 <= i < |name| ==> name[i] != '/'
    ensures |name| == |path| || path[|path| - |name| - 1] == '/'
  {
    if path == [] then ""
    else if Last(path) == '/' then ""
    else
      var front := ProjectName(path[..|path| - 1]);
      Seqs.ExtendSuffix(path, front);
      front + [Last(path)]
  }

  datatype ModelUsage = ModelUsage(model: string, totalTokens: nat, inputTokens: nat, outputTokens: nat,
                                   cacheCreationTokens: nat, cacheReadTokens: nat, sessionCount: nat)

  datatype DailyUsage = DailyUsage(date: string, totalTokens: nat, modelsUsed: seq<string>)

  datatype ProjectUsage = ProjectUsage(projectPath: string, projectName: string, totalTokens: nat,
                                       sessionCount: nat, lastUsed: string)

  /** The statistics without costs; the three tables are keyed by model, date and project path. */
  datatype UsageStats = UsageStats(totalTokens: nat, totalInputTokens: nat, totalOutputTokens: nat,
                                   totalCacheCreationTokens: nat, totalCacheReadTokens: nat, totalSessions: nat,
                                   byModel: map<string, ModelUsage>, byDate: map<string, DailyUsage>,
                                   byProject: map<string, ProjectUsage>)

  /** One record added to its model's row; the row's total counts input and output only. */
  function AddToModel(u: ModelUsage, e: UsageEntry): ModelUsage {
    var input := u.inputTokens + e.inputTokens;
    var output := u.outputTokens + e.outputTokens;
    u.(inputTokens := input, outputTokens := output,
       cacheCreationTokens := u.cacheCreationTokens + e.cacheCreationTokens,
       cacheReadTokens := u.cacheReadTokens + e.cacheReadTokens,
       totalTokens := input + output, sessionCount := u.sessionCount + 1)
  }

  /** One record added to its day's row; its model is appended when the day has not seen it. */
  function AddToDay(d: DailyUsage, e: UsageEntry): DailyUsage {
    d.(totalTokens := d.totalTokens + AllTokens(e),
       modelsUsed := if e.model in d.modelsUsed then d.modelsUsed else d.modelsUsed + [e.model])
  }

  /** One record added to its project's row; a later timestamp string becomes the last use. */
  function AddToProject(p: ProjectUsage, e: UsageEntry): ProjectUsage {
    p.(totalTokens := p.totalTokens + AllTokens(e), sessionCount := p.sessionCount + 1,
       lastUsed := if LexLess(p.lastUsed, e.timestamp) then e.timestamp else p.lastUsed)
  }

  function ModelRow(t: map<string, ModelUsage>, e: UsageEntry): ModelUsage {
    if e.model in t then t[e.model] else ModelUsage(e.model, 0, 0, 0, 0, 0, 0)
  }

  function DayRow(t: map<string, DailyUsage>, date: string): DailyUsage {
    if date in t then t[date] else DailyUsage(date, 0, [])
  }

  function ProjectRow(t: map<string, ProjectUsage>, e: UsageEntry): ProjectUsage {
    if e.projectPath in t then t[e.projectPath]
    else ProjectUsage(e.projectPath, ProjectName(e.projectPath), 0, 0, e.timestamp)
  }

  /** The per-model table after the records, keyed by every model that occurs. */
  function ModelTable(es: seq<UsageEntry>): (t: map<string, ModelUsage>)
    ensures forall m :: m in t <==> exists i :: 0 <= i < |es| && es[i].model == m
  {
    if es == [] then map[]
    else
      var n := |es| - 1;
      var t := ModelTable(es[..n]);
      assert forall i :: 0 <= i < n ==> es[..n][i] == es[i];
      t[es[n].model := AddToModel(ModelRow(t, es[n]), es[n])]
  }

  /** The per-day table after the records, keyed by every date that occurs. */
  function DayTable(es: seq<UsageEntry>, localDate: string -> Option<string>): map<string, DailyUsage> {
    if es == [] then map[]
    else
      var n := |es| - 1;
      var t := DayTable(es[..n], localDate);
      var date := DateOf(localDate, es[n].timestamp);
      t[date := AddToDay(DayRow(t, date), es[n])]
  }

  /** The per-day table is keyed by exactly the dates that occur. */
  lemma {:induction false} DayTableKeys(es: seq<UsageEntry>, localDate: string -> Option<string>)
    ensures forall d :: d in DayTable(es, localDate) <==> exists i :: 0 <= i < |es| && DateOf(localDate, es[i].timestamp) == d
  {
    if es != [] {
      var n := |es| - 1;
      DayTableKeys(es[..n], localDate);
      assert forall i :: 0 <= i < n ==> es[..n][i] == es[i];
    }
  }

  /** The per-project table after the records, keyed by every project path that occurs. */
  function ProjectTable(es: seq<UsageEntry>): (t: map<string, ProjectUsage>)
    ensures forall p :: p in t <==> exists i :: 0 <= i < |es| && es[i].projectPath == p
  {
    if es == [] then map[]
    else
      var n := |es| - 1;
      var t := ProjectTable(es[..n]);
      assert forall i :: 0 <= i < n ==> es[..n][i] == es[i];
      t[es[n].projectPath := AddToProject(ProjectRow(t, es[n]), es[n])]
  }

  /** One more record adds its project row to the project table. */
  lemma ProjectTableStep(es: seq<UsageEntry>, i: nat)
    requires i < |es|
    ensures var t := ProjectTable(es[..i]);
      ProjectTable(es[..i + 1]) == t[es[i].projectPath := AddToProject(ProjectRow(t, es[i]), es[i])]
  {
    assert es[..i + 1][..i] == es[..i];
  }

  /** One more record adds its model row to the model table. */
  lemma ModelTableStep(es: seq<UsageEntry>, i: nat)
    requires i < |es|
    ensures var t := ModelTable(es[..i]);
      ModelTable(es[..i + 1]) == t[es[i].model := AddToModel(ModelRow(t, es[i]), es[i])]
  {
    assert es[..i + 1][..i] == es[..i];
  }

  /** One more record adds its day row to the day table. */
  lemma DayTableStep(es: seq<UsageEntry>, localDate: string -> Option<string>, i: nat)
    requires i < |es|
    ensures var t, date := DayTable(es[..i], localDate), DateOf(localDate, es[i].timestamp);
      DayTable(es[..i + 1], localDate) == t[date := AddToDay(DayRow(t, date), es[i])]
  {
    assert es[..i + 1][..i] == es[..i];
  }

  /** One more record adds its count to a sum. */
  lemma SumStep(es: seq<UsageEntry>, f: UsageEntry -> nat, i: nat)
    requires i < |es|
    ensures Sum(es[..i + 1], f) == Sum(es[..i], f) + f(es[i])
  {
    assert es[..i + 1][..i] == es[..i];
  }

  /**
   * A model's row sums that model's records; its total is input plus output only, and its session
   * count is its number of records.
   */
  lemma {:induction false} ModelRowSums(es: seq<UsageEntry>, m: string)
    requires m in ModelTable(es)
    ensures var u := ModelTable(es)[m];
      u.model == m
      && u.inputTokens == SumWhere(es, InputOf, ModelKey, m)
      && u.outputTokens == SumWhere(es, OutputOf, ModelKey, m)
      && u.cacheCreationTokens == SumWhere(es, CacheCreationOf, ModelKey, m)
      && u.cacheReadTokens == SumWhere(es, CacheReadOf, ModelKey, m)
      && u.totalTokens == u.inputTokens + u.outputTokens
      && u.sessionCount == CountWhere(es, ModelKey, m)
  {
    var n := |es| - 1;
    var front := es[..n];
    if m in ModelTable(front) {
      ModelRowSums(front, m);
    } else if es[n].model == m {
      assert forall i :: 0 <= i < n ==> front[i].model != m;
      NothingUnder(front, InputOf, ModelKey, m);
      NothingUnder(front, OutputOf, ModelKey, m);
      NothingUnder(front, CacheCreationOf, ModelKey, m);
      NothingUnder(front, CacheReadOf, ModelKey, m);
    }
  }

  /** A day's row sums all four counts of that day's records. */
  lemma {:induction false} DayRowSums(es: seq<UsageEntry>, localDate: string -> Option<string>, d: string)
    requires d in DayTable(es, localDate)
    ensures DayTable(es, localDate)[d].date == d
    ensures DayTable(es, localDate)[d].totalTokens == SumWhere(es, AllTokens, DayKey(localDate), d)
  {
    var n := |es| - 1;
    var front := es[..n];
    var key := DayKey(localDate);
    assert key(es[n]) == DateOf(localDate, es[n].timestamp);
    if d in DayTable(front, localDate) {
      DayRowSums(front, localDate, d);
    } else if DateOf(localDate, es[n].timestamp) == d {
      DayTableKeys(front, localDate);
      forall i | 0 <= i < n ensures key(front[i]) != d {
        assert front[i] == es[i];
      }
      NothingUnder(front, AllTokens, key, d);
    }
  }

  /** The models of the records dated `d`. */
  ghost predicate UsedOn(es: seq<UsageEntry>, localDate: string -> Option<string>, d: string, m: string) {
    exists i :: 0 <= i < |es| && DateOf(localDate, es[i].timestamp) == d && es[i].model == m
  }

  /** A day's row lists no model twice. */
  lemma {:induction false} DayRowDistinct(es: seq<UsageEntry>, localDate: string -> Option<string>, d: string)
    requires d in DayTable(es, localDate)
    ensures NoDuplicates(DayTable(es, localDate)[d].modelsUsed)
  {
    var front := es[..|es| - 1];
    if d in DayTable(front, localDate) {
      DayRowDistinct(front, localDate, d);
    }
  }

  /** A day's row lists only models of records dated that day. */
  lemma {:induction false} DayRowSound(es: seq<UsageEntry>, localDate: string -> Option<string>, d: string, m: string)
    requires d in DayTable(es, localDate) && m in DayTable(es, localDate)[d].modelsUsed
    ensures UsedOn(es, localDate, d, m)
  {
    var n := |es| - 1;
    var front := es[..n];
    if !(DateOf(localDate, es[n].timestamp) == d && es[n].model == m) {
      DayRowSound(front, localDate, d, m);
      var i :| 0 <= i < n && DateOf(localDate, front[i].timestamp) == d && front[i].model == m;
      assert es[i] == front[i];
    }
  }

  /** A day's row lists every model of the records dated that day. */
  lemma {:induction false} DayRowComplete(es: seq<UsageEntry>, localDate: string -> Option<string>, i: nat)
    requires i < |es|
    ensures var d := DateOf(localDate, es[i].timestamp);
      d in DayTable(es, localDate) && es[i].model in DayTable(es, localDate)[d].modelsUsed
  {
    var n := |es| - 1;
    var front := es[..n];
    var before := DayTable(front, localDate);
    var date := DateOf(localDate, es[n].timestamp);
    var row := AddToDay(DayRow(before, date), es[n]);
    assert DayTable(es, localDate) == before[date := row];
    var d, m := DateOf(localDate, es[i].timestamp), es[i].model;
    if i == n {
      assert m in row.modelsUsed;
    } else {
      assert front[i] == es[i];
      DayRowComplete(front, localDate, i);
      if d == date {
        InPrefix(m, before[d].modelsUsed, row.modelsUsed);
      }
    }
  }

  /** A day's row lists each model used that day, each exactly once. */
  lemma DayRowModels(es: seq<UsageEntry>, localDate: string -> Option<string>, d: string)
    requires d in DayTable(es, localDate)
    ensures NoDuplicates(DayTable(es, localDate)[d].modelsUsed)
    ensures forall m :: m in DayTable(es, localDate)[d].modelsUsed <==> UsedOn(es, localDate, d, m)
  {
    DayRowDistinct(es, localDate, d);
    forall m ensures m in DayTable(es, localDate)[d].modelsUsed <==> UsedOn(es, localDate, d, m) {
      if m in DayTable(es, localDate)[d].modelsUsed {
        DayRowSound(es, localDate, d, m);
      }
      if UsedOn(es, localDate, d, m) {
        var i :| 0 <= i < |es| && DateOf(localDate, es[i].timestamp) == d && es[i].model == m;
        DayRowComplete(es, localDate, i);
      }
    }
  }

  /** A project's row sums all four counts of its records, counts them and is named after its last segment. */
  lemma {:induction false} ProjectRowSums(es: seq<UsageEntry>, p: string)
    requires p in ProjectTable(es)
    ensures var u := ProjectTable(es)[p];
      u.projectPath == p && u.projectName == ProjectName(p)
      && u.totalTokens == SumWhere(es, AllTokens, ProjectKey, p)
      && u.sessionCount == CountWhere(es, ProjectKey, p)
  {
    var n := |es| - 1;
    var front := es[..n];
    if p in ProjectTable(front) {
      ProjectRowSums(front, p);
    } else if es[n].projectPath == p {
      forall i | 0 <= i < n ensures front[i].projectPath != p {
        assert front[i] == es[i];
      }
      NothingUnder(front, AllTokens, ProjectKey, p);
    }
  }

  /** `last` is the timestamp of one of the project's records and no record of it has a greater one. */
  predicate GreatestTimestamp(es: seq<UsageEntry>, p: string, last: string) {
    (exists i :: 0 <= i < |es| && es[i].projectPath == p && es[i].timestamp == last)
    && forall i :: 0 <= i < |es| && es[i].projectPath == p ==> !LexLess(last, es[i].timestamp)
  }

  /** A project's first record sets its last use. */
  lemma FirstRecordOfProject(front: seq<UsageEntry>, e: UsageEntry)
    requires forall i :: 0 <= i < |front| ==> front[i].projectPath != e.projectPath
    ensures GreatestTimestamp(front + [e], e.projectPath, e.timestamp)
  {
    var es := front + [e];
    LexLessIrreflexive(e.timestamp);
    assert es[|front|] == e;
    assert forall i :: 0 <= i < |front| ==> es[i] == front[i];
  }

  /** A later record keeps the greatest timestamp, or replaces it with its own greater one. */
  lemma LaterRecordOfProject(front: seq<UsageEntry>, e: UsageEntry, p: string, before: string)
    requires GreatestTimestamp(front, p, before)
    ensures GreatestTimestamp(front + [e], p,
      if e.projectPath == p && LexLess(before, e.timestamp) then e.timestamp else before)
  {
    var es := front + [e];
    var last := if e.projectPath == p && LexLess(before, e.timestamp) then e.timestamp else before;
    var j :| 0 <= j < |front| && front[j].projectPath == p && front[j].timestamp == before;
    assert es[j] == front[j] && es[|front|] == e;
    LexLessIrreflexive(e.timestamp);
    forall i | 0 <= i < |es| && es[i].projectPath == p
      ensures !LexLess(last, es[i].timestamp)
    {
      if i < |front| {
        assert es[i] == front[i];
        if last != before && LexLess(last, es[i].timestamp) {
          LexLessTransitive(before, last, es[i].timestamp);
        }
      }
    }
  }

  /** A project's last use is the greatest timestamp string among its records. */
  lemma {:induction false} ProjectLastUsed(es: seq<UsageEntry>, p: string)
    requires p in ProjectTable(es)
    ensures GreatestTimestamp(es, p, ProjectTable(es)[p].lastUsed)
  {
    var n := |es| - 1;
    var front := es[..n];
    var e := es[n];
    assert es == front + [e];
    if p in ProjectTable(front) {
      ProjectLastUsed(front, p);
      LaterRecordOfProject(front, e, p, ProjectTable(front)[p].lastUsed);
    } else {
      FirstRecordOfProject(front, e);
    }
  }

  /** The distinct session ids of the records. */
  function SessionIds(es: seq<UsageEntry>): set<string> {
    set i | 0 <= i < |es| :: es[i].sessionId
  }

  /** There are never more distinct sessions than records. */
  lemma {:induction false} SessionsAtMostRecords(es: seq<UsageEntry>)
    ensures |SessionIds(es)| <= |es|
  {
    if es != [] {
      var n := |es| - 1;
      SessionsAtMostRecords(es[..n]);
      assert SessionIds(es) == SessionIds(es[..n]) + {es[n].sessionId} by {
        forall x | x in SessionIds(es) ensures x in SessionIds(es[..n]) + {es[n].sessionId} {
          var i :| 0 <= i < |es| && es[i].sessionId == x;
          if i < n {
            assert es[..n][i] == es[i];
          }
        }
        forall x | x in SessionIds(es[..n]) ensures x in SessionIds(es) {
          var i :| 0 <= i < n && es[..n][i].sessionId == x;
          assert es[i] == es[..n][i];
        }
      }
    }
  }

  /** The sum of the four category totals is the sum of every record's four counts. */
  lemma {:induction false} CategoryTotalsAddUp(es: seq<UsageEntry>)
    ensures Sum(es, InputOf) + Sum(es, OutputOf) + Sum(es, CacheCreationOf) + Sum(es, CacheReadOf)
         == Sum(es, AllTokens)
  {
    if es != [] {
      CategoryTotalsAddUp(es[..|es| - 1]);
    }
  }

  /** The statistics with no records. */
  const EmptyStats := UsageStats(0, 0, 0, 0, 0, 0, map[], map[], map[])

  /**
   * The statistics of the records: each category total is its sum over the records and the overall
   * total adds the four; `sessions` is the session total the caller reports.
   */
  function Summary(es: seq<UsageEntry>, localDate: string -> Option<string>, sessions: nat): UsageStats {
    var input := Sum(es, InputOf);
    var output := Sum(es, OutputOf);
    var cacheCreation := Sum(es, CacheCreationOf);
    var cacheRead := Sum(es, CacheReadOf);
    UsageStats(input + output + cacheCreation + cacheRead, input, output, cacheCreation, cacheRead, sessions,
               ModelTable(es), DayTable(es, localDate), ProjectTable(es))
  }

  /** The aggregation loop shared by the statistics commands, with the record count as session total. */
  method AggregateUsage(es: seq<UsageEntry>, localDate: string -> Option<string>) returns (stats: UsageStats)
    ensures stats == Summary(es, localDate, |es|)
  {
    var totalInput, totalOutput, totalCacheCreation, totalCacheRead := 0, 0, 0, 0;
    var modelStats: map<string, ModelUsage> := map[];
    var dailyStats: map<string, DailyUsage> := map[];
    var projectStats: map<string, ProjectUsage> := map[];
    for i := 0 to |es|
      invariant totalInput == Sum(es[..i], InputOf) && totalOutput == Sum(es[..i], OutputOf)
      invariant totalCacheCreation == Sum(es[..i], CacheCreationOf) && totalCacheRead == Sum(es[..i], CacheReadOf)
      invariant modelStats == ModelTable(es[..i])
      invariant dailyStats == DayTable(es[..i], localDate)
      invariant projectStats == ProjectTable(es[..i])
    {
      SumStep(es, InputOf, i);
      SumStep(es, OutputOf, i);
      SumStep(es, CacheCreationOf, i);
      SumStep(es, CacheReadOf, i);
      ModelTableStep(es, i);
      DayTableStep(es, localDate, i);
      ProjectTableStep(es, i);
      var entry := es[i];
      totalInput := totalInput + entry.inputTokens;
      totalOutput := totalOutput + entry.outputTokens;
      totalCacheCreation := totalCacheCreation + entry.cacheCreationTokens;
      totalCacheRead := totalCacheRead + entry.cacheReadTokens;
      modelStats := modelStats[entry.model := AddToModel(ModelRow(modelStats, entry), entry)];
      var date := DateOf(localDate, entry.timestamp);
      dailyStats := dailyStats[date := AddToDay(DayRow(dailyStats, date), entry)];
      projectStats := projectStats[entry.projectPath := AddToProject(ProjectRow(projectStats, entry), entry)];
    }
    assert es[..|es|] == es;
    stats := UsageStats(totalInput + totalOutput + totalCacheCreation + totalCacheRead, totalInput, totalOutput,
                        totalCacheCreation, totalCacheRead, |es|, modelStats, dailyStats, projectStats);
  }

  /**
   * `get_usage_stats`: zero statistics when there are no records at all, otherwise the statistics
   * of the records the optional day window keeps, counting every record as a session.
   */
  method GetUsageStats(all: seq<UsageEntry>, window: Option<UsageEntry -> bool>, localDate: string -> Option<string>)
    returns (stats: UsageStats)
    ensures all == [] ==> stats == EmptyStats
    ensures all != [] && window.None? ==> stats == Summary(all, localDate, |all|)
    ensures all != [] && window.Some? ==>
      var kept := Seqs.Filter(all, window.value); stats == Summary(kept, localDate, |kept|)
  {
    if all == [] {
      return EmptyStats;
    }
    var filtered := if window.Some? then Seqs.Filter(all, window.value) else all;
    stats := AggregateUsage(filtered, localDate);
  }

  /**
   * `get_usage_by_date_range`: the error of an unreadable bound, zero statistics when no record is
   * in range, otherwise the statistics of the records in range, counting distinct session ids.
   */
  method GetUsageByDateRange(all: seq<UsageEntry>, range: Result<UsageEntry -> bool, string>,
                             localDate: string -> Option<string>)
    returns (r: Result<UsageStats, string>)
    ensures range.Err? ==> r == Err(range.error)
    ensures range.Ok? ==> r.Ok?
    ensures range.Ok? && Seqs.Filter(all, range.value) == [] ==> r.value == EmptyStats
    ensures range.Ok? && Seqs.Filter(all, range.value) != [] ==>
      var kept := Seqs.Filter(all, range.value);
      r.value == Summary(kept, localDate, |SessionIds(kept)|)
  {
    if range.Err? {
      return Err(range.error);
    }
    var filtered := Seqs.Filter(all, range.value);
    if filtered == [] {
      return Ok(EmptyStats);
    }
    var stats := AggregateUsage(filtered, localDate);
    return Ok(stats.(totalSessions := |SessionIds(filtered)|));
  }

  /** `get_session_stats` without the cost ordering: the project table of the records the filter keeps. */
  method GetSessionStats(all: seq<UsageEntry>, keep: UsageEntry -> bool) returns (byProject: map<string, ProjectUsage>)
    ensures byProject == ProjectTable(Seqs.Filter(all, keep))
  {
    var es := Seqs.Filter(all, keep);
    byProject := map[];
    for i := 0 to |es|
      invariant byProject == ProjectTable(es[..i])
    {
      ProjectTableStep(es, i);
      byProject := byProject[es[i].projectPath := AddToProject(ProjectRow(byProject, es[i]), es[i])];
    }
    assert es[..|es|] == es;
  }
}
