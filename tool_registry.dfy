/**
 * The helpers the built-in tool renderers share (src/lib/toolRegistryInit.tsx): turning an
 * arbitrary tool input or result into display text, pulling the text out of a `<tag>…</tag>`
 * pair, the message of the system-reminder widget, and the name patterns that route tool names to
 * the MCP, system-reminder, command-output and system-initialized widgets.
 */
module ToolRegistry {
  import opened Base
  import opened Text

  /** A JavaScript value as it reaches a renderer: JSON-shaped, plus `undefined`. */
  datatype Value =
    | Undefined
    | Null
    | Bool(b: bool)
    | Number(n: int)
    | Str(s: string)
    | Array(items: seq<Value>)
    | Object(fields: map<string, Value>)

  /** `String(value)` for booleans and integral numbers. */
  function Show(v: Value): string
    requires v.Bool? || v.Number?
  {
    if v.Bool? then (if v.b then "true" else "false") else IntToString(v.n)
  }

  /** `typeof record[key] === 'string'`. */
  predicate HasString(fields: map<string, Value>, key: string) {
    key in fields && fields[key].Str?
  }

  /** The non-empty strings, in order (`.filter(Boolean)` on strings). */
  function NonEmpty(parts: seq<string>): (r: seq<string>)
    ensures forall k :: 0 <= k < |r| ==> r[k] != ""
    ensures forall x :: x in r <==> x in parts && x != ""
  {
    if parts == [] then []
    else NonEmpty(parts[..|parts| - 1]) + (if Last(parts) == "" then [] else [Last(parts)])
  }

  /**
   * `extractStringContent`. `stringify` is `JSON.stringify(record, null, 2)`, which this model
   * takes as given.
   */
  function ExtractStringContent(v: Value, stringify: Value -> string): (r: string)
    ensures v.Str? ==> r == v.s
    ensures v.Null? || v.Undefined? ==> r == ""
    ensures v.Object? && HasString(v.fields, "text") ==> r == v.fields["text"].s
    decreases v
  {
    match v
    case Str(s) => s
    case Null => ""
    case Undefined => ""
    case Array(items) =>
      Join(NonEmpty(seq(|items|, i requires 0 <= i < |items| => ExtractStringContent(items[i], stringify))), "\n")
    case Object(fields) =>
      if HasString(fields, "text") then fields["text"].s
      else if HasString(fields, "message") then fields["message"].s
      else if HasString(fields, "content") then fields["content"].s
      else stringify(v)
    case _ => Show(v)
  }

  /**
   * For an object the first string among `text`, `message` and `content` wins, whatever the
   * other fields hold; without one the object is rendered as JSON.
   */
  lemma ObjectFieldPriority(fields: map<string, Value>, stringify: Value -> string)
    ensures var r := ExtractStringContent(Object(fields), stringify);
      (HasString(fields, "text") ==> r == fields["text"].s)
      && (!HasString(fields, "text") && HasString(fields, "message") ==> r == fields["message"].s)
      && (!HasString(fields, "text") && !HasString(fields, "message") && HasString(fields, "content")
          ==> r == fields["content"].s)
      && (!HasString(fields, "text") && !HasString(fields, "message") && !HasString(fields, "content")
          ==> r == stringify(Object(fields)))
  {
  }

  /** Splitting `a + sep + b` at `sep`, where `a` has no separator, gives `a` and then the pieces of `b`. */
  lemma {:induction false} SplitAfterPiece(a: string, c: char, b: string)
    requires forall i :: 0 <= i < |a| ==> a[i] != c
    ensures Split(a + [c] + b, x => x == c) == [a] + Split(b, x => x == c)
  {
    if a == [] {
      assert a + [c] + b == [c] + b;
      assert ([c] + b)[1..] == b;
    } else {
      SplitAfterPiece(a[1..], c, b);
      assert (a + [c] + b)[1..] == a[1..] + [c] + b;
      assert [a[0]] + a[1..] == a;
    }
  }

  lemma NoSepSplit(a: string, c: char)
    requires forall i :: 0 <= i < |a| ==> a[i] != c
    ensures Split(a, x => x == c) == [a]
  {
    if a != [] {
      NoSepSplit(a[1..], c);
      assert [a[0]] + a[1..] == a;
    }
  }

  /** Splitting a join at a separator no part contains gives the parts back. */
  lemma {:induction false} SplitJoinParts(parts: seq<string>, c: char)
    requires |parts| >= 1
    requires forall k, i :: 0 <= k < |parts| && 0 <= i < |parts[k]| ==> parts[k][i] != c
    ensures Split(Join(parts, [c]), x => x == c) == parts
  {
    if |parts| == 1 {
      NoSepSplit(parts[0], c);
    } else {
      SplitJoinParts(parts[1..], c);
      SplitAfterPiece(parts[0], c, Join(parts[1..], [c]));
      assert parts == [parts[0]] + parts[1..];
    }
  }

  /**
   * An array of one-line strings, at least one of them non-empty, becomes its non-empty strings
   * one per line: splitting the result at '\n' gives exactly those strings, in order.
   */
  lemma ArrayOfLines(items: seq<Value>, stringify: Value -> string)
    requires forall i :: 0 <= i < |items| ==> items[i].Str? && forall j :: 0 <= j < |items[i].s| ==> items[i].s[j] != '\n'
    requires exists i :: 0 <= i < |items| && items[i].s != ""
    ensures var strings := seq(|items|, i requires 0 <= i < |items| => items[i].s);
      Split(ExtractStringContent(Array(items), stringify), x => x == '\n') == NonEmpty(strings)
  {
    var strings := seq(|items|, i requires 0 <= i < |items| => items[i].s);
    var mapped := seq(|items|, i requires 0 <= i < |items| => ExtractStringContent(items[i], stringify));
    assert mapped == strings;
    var i :| 0 <= i < |items| && items[i].s != "";
    assert strings[i] in NonEmpty(strings);
    forall k, j | 0 <= k < |NonEmpty(strings)| && 0 <= j < |NonEmpty(strings)[k]|
      ensures NonEmpty(strings)[k][j] != '\n'
    {
      var x := NonEmpty(strings)[k];
      assert x in strings;
    }
    SplitJoinParts(NonEmpty(strings), '\n');
  }

  /** Empty and missing elements leave no blank line behind. */
  lemma ArrayOfEmpties(items: seq<Value>, stringify: Value -> string)
    requires forall i :: 0 <= i < |items| ==> items[i] == Str("") || items[i].Null? || items[i].Undefined?
    ensures ExtractStringContent(Array(items), stringify) == ""
  {
    var mapped := seq(|items|, i requires 0 <= i < |items| => ExtractStringContent(items[i], stringify));
    NonEmptyOfEmpties(mapped);
  }

  lemma {:induction false} NonEmptyOfEmpties(parts: seq<string>)
    requires forall k :: 0 <= k < |parts| ==> parts[k] == ""
    ensures NonEmpty(parts) == []
  {
    if parts != [] {
      NonEmptyOfEmpties(parts[..|parts| - 1]);
    }
  }

  // ---------------------------------------------------------------------------------------------
  // Tagged values

  /** `sub` occurs at `i`, compared the way the case-insensitive regular expression compares (ASCII). */
  predicate AtIgnoringCase(s: string, sub: string, i: int) {
    0 <= i && i + |sub| <= |s| && forall k :: 0 <= k < |sub| ==> LowerChar(s[i + k]) == LowerChar(sub[k])
  }

  function OpenTag(tag: string): string {
    "<" + tag + ">"
  }

  function CloseTag(tag: string): string {
    "</" + tag + ">"
  }

  /** The first occurrence of `pat`, ignoring case, at or after `from`. */
  function FindFrom(s: string, pat: string, from: nat): (r: Option<nat>)
    ensures r.Some? ==> from <= r.value && AtIgnoringCase(s, pat, r.value)
    ensures r.Some? ==> forall j :: from <= j < r.value ==> !AtIgnoringCase(s, pat, j)
    ensures r.None? ==> forall j :: from <= j ==> !AtIgnoringCase(s, pat, j)
    decreases |s| - from
  {
    if from + |pat| > |s| then None
    else if AtIgnoringCase(s, pat, from) then Some(from)
    else FindFrom(s, pat, from + 1)
  }

  /** An opening tag at `j` that some closing tag follows. */
  predicate OpensAt(s: string, open: string, close: string, j: int) {
    AtIgnoringCase(s, open, j) && FindFrom(s, close, j + |open|).Some?
  }

  /**
   * The first match of `<tag>([\s\S]*?)</tag>` at or after position `from`, with `open` and
   * `close` the two tags, as the bounds of the captured text: the leftmost opening tag that some
   * closing tag follows, up to the nearest closing tag after it.
   */
  function MatchFrom(s: string, open: string, close: string, from: nat): (r: Option<(nat, nat)>)
    ensures r.Some? ==> r.value.0 <= r.value.1 <= |s|
    decreases |s| - from
  {
    if from + |open| > |s| then None
    else if OpensAt(s, open, close, from) then Some((from + |open|, FindFrom(s, close, from + |open|).value))
    else MatchFrom(s, open, close, from + 1)
  }

  /** A match captures the text between an opening tag and the nearest closing tag after it. */
  lemma {:induction false} MatchIsTagPair(s: string, open: string, close: string, from: nat)
    requires MatchFrom(s, open, close, from).Some?
    ensures var (a, b) := MatchFrom(s, open, close, from).value;
      a >= from + |open| && AtIgnoringCase(s, open, a - |open|) && FindFrom(s, close, a) == Some(b)
    decreases |s| - from
  {
    if !OpensAt(s, open, close, from) {
      MatchIsTagPair(s, open, close, from + 1);
    }
  }

  /** The match starts at the leftmost opening tag that a closing tag follows. */
  lemma {:induction false} MatchIsLeftmost(s: string, open: string, close: string, from: nat)
    ensures MatchFrom(s, open, close, from).Some? ==>
      forall j :: from <= j < MatchFrom(s, open, close, from).value.0 - |open| ==> !OpensAt(s, open, close, j)
    ensures MatchFrom(s, open, close, from).None? ==> forall j :: from <= j ==> !OpensAt(s, open, close, j)
    decreases |s| - from
  {
    if from + |open| > |s| {
      assert forall j :: from <= j ==> !AtIgnoringCase(s, open, j);
    } else if !OpensAt(s, open, close, from) {
      MatchIsLeftmost(s, open, close, from + 1);
    }
  }

  /** The match of the tag pair for `tag`. */
  function TagMatch(content: string, tag: string): (r: Option<(nat, nat)>)
    ensures r.Some? ==> r.value.0 <= r.value.1 <= |content|
  {
    MatchFrom(content, OpenTag(tag), CloseTag(tag), 0)
  }

  /** `extractTaggedValue`: the trimmed text of the first tag pair, unless it is blank. */
  function ExtractTaggedValue(content: string, tag: string): (r: Option<string>)
    ensures content == "" ==> r.None?
    ensures r.Some? ==> r.value != "" && JsTrim(r.value) == r.value
    ensures r.Some? ==> (TagMatch(content, tag).Some?
      && r.value == JsTrim(content[TagMatch(content, tag).value.0..TagMatch(content, tag).value.1]))
  {
    if content == "" then None
    else match TagMatch(content, tag)
      case None => None
      case Some((a, b)) =>
        var inner := JsTrim(content[a..b]);
        TrimIdempotent(content[a..b], IsJsSpace);
        if inner == "" then None else Some(inner)
  }

  /** The captured text never holds a closing tag: the match is the shortest one. */
  lemma ShortestMatch(content: string, tag: string, a: nat, b: nat)
    requires TagMatch(content, tag) == Some((a, b))
    ensures forall j :: a <= j < b ==> !AtIgnoringCase(content, CloseTag(tag), j)
    ensures AtIgnoringCase(content, CloseTag(tag), b)
  {
    MatchIsTagPair(content, OpenTag(tag), CloseTag(tag), 0);
  }

  /** Content without an opening tag has no tagged value. */
  lemma NoOpenTagNoValue(content: string, tag: string)
    requires forall j :: 0 <= j ==> !AtIgnoringCase(content, OpenTag(tag), j)
    ensures ExtractTaggedValue(content, tag).None?
  {
    if TagMatch(content, tag).Some? {
      MatchIsTagPair(content, OpenTag(tag), CloseTag(tag), 0);
    }
  }

  /** The tag is found whatever its case: `<SYSTEM-REMINDER>` matches the tag `system-reminder`. */
  lemma TagIgnoresCase(s: string, tag: string, i: int)
    requires AtIgnoringCase(s, OpenTag(ToLower(tag)), i)
    ensures AtIgnoringCase(s, OpenTag(tag), i)
  {
    var t := OpenTag(tag);
    var lt := OpenTag(ToLower(tag));
    forall k | 0 <= k < |t| ensures LowerChar(s[i + k]) == LowerChar(t[k]) {
      assert LowerChar(s[i + k]) == LowerChar(lt[k]);
      if 1 <= k < |t| - 1 {
        assert t[k] == tag[k - 1] && lt[k] == ToLower(tag)[k - 1];
        LowerCharIdempotent(tag[k - 1]);
      }
    }
  }

  lemma LowerCharIdempotent(c: char)
    ensures LowerChar(LowerChar(c)) == LowerChar(c)
  {
  }

  // ---------------------------------------------------------------------------------------------
  // The system-reminder widget

  /** `a ?? b`. */
  function Coalesce(a: Value, b: Value): (r: Value)
    ensures a.Null? || a.Undefined? ==> r == b
    ensures !(a.Null? || a.Undefined?) ==> r == a
  {
    if a.Null? || a.Undefined? then b else a
  }

  const DefaultReminder: string := "系统提醒"

  /** The widget's message for the raw text: the tagged value, else the trimmed text, else the default. */
  function ReminderMessage(raw: string): (r: string)
    ensures r != ""
    ensures ExtractTaggedValue(raw, "system-reminder").Some? ==> r == ExtractTaggedValue(raw, "system-reminder").value
    ensures ExtractTaggedValue(raw, "system-reminder").None? && JsTrim(raw) != "" ==> r == JsTrim(raw)
    ensures ExtractTaggedValue(raw, "system-reminder").None? && AllSpace(raw, IsJsSpace) ==> r == DefaultReminder
  {
    TrimEmptyIff(raw, IsJsSpace);
    match ExtractTaggedValue(raw, "system-reminder")
    case Some(v) => v
    case None => if JsTrim(raw) == "" then DefaultReminder else JsTrim(raw)
  }

  /** The raw reminder text: the input's message, else the result's content, else "". */
  function ReminderText(inputMessage: Value, resultContent: Value, stringify: Value -> string): (raw: string)
    ensures inputMessage.Str? ==> raw == inputMessage.s
  {
    ExtractStringContent(Coalesce(Coalesce(inputMessage, resultContent), Str("")), stringify)
  }

  /** The system-reminder renderer: the raw text comes from the input's message, else the result's content. */
  function SystemReminderProps(inputMessage: Value, resultContent: Value, stringify: Value -> string): (r: string)
    ensures r != ""
    ensures inputMessage.Str? ==> r == ReminderMessage(inputMessage.s)
  {
    ReminderMessage(ReminderText(inputMessage, resultContent, stringify))
  }

  // ---------------------------------------------------------------------------------------------
  // Tool name patterns

  /** `/^mcp__/`. */
  predicate IsMcpTool(name: string) {
    StartsWith(name, "mcp__")
  }

  /** Drops one leading character that `sep` accepts (an optional `[-_]`). */
  function SkipOptional(s: string, sep: char -> bool): string {
    if s != [] && sep(s[0]) then s[1..] else s
  }

  predicate IsDashOrUnderscore(c: char) {
    c == '-' || c == '_'
  }

  /** `/^system[-_]reminder$/`. */
  predicate IsSystemReminderTool(name: string) {
    StartsWith(name, "system") && |name| == 15 && IsDashOrUnderscore(name[6]) && name[7..] == "reminder"
  }

  /** `/^command[-_]?(output|result)$/`. */
  predicate IsCommandOutputTool(name: string) {
    StartsWith(name, "command")
    && var rest := SkipOptional(name[7..], IsDashOrUnderscore);
    rest == "output" || rest == "result"
  }

  /** `/^system[_-]?init(?:ialized)?$/`. */
  predicate IsSystemInitializedTool(name: string) {
    StartsWith(name, "system")
    && var rest := SkipOptional(name[6..], IsDashOrUnderscore);
    rest == "init" || rest == "initialized"
  }

  /** The names the system-reminder pattern accepts, listed. */
  lemma SystemReminderNames(name: string)
    ensures IsSystemReminderTool(name) <==> (name == "system-reminder" || name == "system_reminder")
  {
    if IsSystemReminderTool(name) {
      assert name == name[..6] + [name[6]] + name[7..];
      assert name[..6] == "system";
    }
    if name == "system-reminder" || name == "system_reminder" {
      assert name[..6] == "system" && name[7..] == "reminder";
    }
  }

  /** The six names the command-output pattern accepts, listed. */
  lemma CommandOutputNames(name: string)
    ensures IsCommandOutputTool(name) <==> (name == "commandoutput" || name == "command-output"
      || name == "command_output" || name == "commandresult" || name == "command-result" || name == "command_result")
  {
    if IsCommandOutputTool(name) {
      CommandOutputShape(name);
    }
    if name == "commandoutput" || name == "command-output" || name == "command_output"
      || name == "commandresult" || name == "command-result" || name == "command_result"
    {
      CommandOutputListed(name);
    }
  }

  /** An accepted command-output name is "command", an optional separator and the word. */
  lemma CommandOutputParts(name: string) returns (sep: string, word: string)
    requires IsCommandOutputTool(name)
    ensures sep in {"", "-", "_"} && word in {"output", "result"} && name == "command" + sep + word
  {
    var tail := name[7..];
    word := SkipOptional(tail, IsDashOrUnderscore);
    sep := if tail != [] && IsDashOrUnderscore(tail[0]) then [tail[0]] else "";
    assert tail == sep + word;
    assert name == "command" + sep + word;
  }

  /** The six spellings of "command", a separator and a word. */
  lemma CommandOutputSpelled(sep: string, word: string)
    requires sep in {"", "-", "_"} && word in {"output", "result"}
    ensures var name := "command" + sep + word;
      name == "commandoutput" || name == "command-output" || name == "command_output"
      || name == "commandresult" || name == "command-result" || name == "command_result"
  {
    if word == "output" {
      CommandOutputSpelledWord(sep, "output");
    } else {
      CommandOutputSpelledWord(sep, "result");
    }
  }

  lemma CommandOutputSpelledWord(sep: string, word: string)
    requires sep in {"", "-", "_"}
    ensures "command" + sep + word in {"command" + word, "command-" + word, "command_" + word}
  {
    if sep == "" {
      assert "command" + sep + word == "command" + word;
    } else if sep == "-" {
      assert "command" + sep + word == "command-" + word;
    } else {
      assert "command" + sep + word == "command_" + word;
    }
  }

  lemma CommandOutputShape(name: string)
    requires IsCommandOutputTool(name)
    ensures name == "commandoutput" || name == "command-output" || name == "command_output"
      || name == "commandresult" || name == "command-result" || name == "command_result"
  {
    var sep, word := CommandOutputParts(name);
    CommandOutputSpelled(sep, word);
  }

  /** Each of the six names is accepted. */
  lemma CommandOutputListed(name: string)
    requires name == "commandoutput" || name == "command-output" || name == "command_output"
      || name == "commandresult" || name == "command-result" || name == "command_result"
    ensures IsCommandOutputTool(name)
  {
    if name == "commandoutput" || name == "command-output" || name == "command_output" {
      CommandOutputListedWord(name);
    } else {
      CommandResultListed(name);
    }
  }

  lemma CommandOutputListedWord(name: string)
    requires name == "commandoutput" || name == "command-output" || name == "command_output"
    ensures IsCommandOutputTool(name)
  {
  }

  lemma CommandResultListed(name: string)
    requires name == "commandresult" || name == "command-result" || name == "command_result"
    ensures IsCommandOutputTool(name)
  {
  }

  /** The six names the system-initialized pattern accepts, listed. */
  lemma SystemInitializedNames(name: string)
    ensures IsSystemInitializedTool(name) <==> (name == "systeminit" || name == "system-init"
      || name == "system_init" || name == "systeminitialized" || name == "system-initialized" || name == "system_initialized")
  {
    if IsSystemInitializedTool(name) {
      SystemInitializedShape(name);
    }
    if name == "systeminit" || name == "system-init" || name == "system_init"
      || name == "systeminitialized" || name == "system-initialized" || name == "system_initialized"
    {
      SystemInitializedListed(name);
    }
  }

  /** An accepted system-initialized name is "system", an optional separator and the word. */
  lemma SystemInitializedParts(name: string) returns (sep: string, word: string)
    requires IsSystemInitializedTool(name)
    ensures sep in {"", "-", "_"} && word in {"init", "initialized"} && name == "system" + sep + word
  {
    var tail := name[6..];
    word := SkipOptional(tail, IsDashOrUnderscore);
    sep := if tail != [] && IsDashOrUnderscore(tail[0]) then [tail[0]] else "";
    assert tail == sep + word;
    assert name == "system" + sep + word;
  }

  /** The six spellings of "system", a separator and a word. */
  lemma SystemInitializedSpelled(sep: string, word: string)
    requires sep in {"", "-", "_"} && word in {"init", "initialized"}
    ensures var name := "system" + sep + word;
      name == "systeminit" || name == "system-init" || name == "system_init"
      || name == "systeminitialized" || name == "system-initialized" || name == "system_initialized"
  {
    if word == "init" {
      SystemInitializedSpelledWord(sep, "init");
    } else {
      SystemInitializedSpelledWord(sep, "initialized");
    }
  }

  lemma SystemInitializedSpelledWord(sep: string, word: string)
    requires sep in {"", "-", "_"}
    ensures "system" + sep + word in {"system" + word, "system-" + word, "system_" + word}
  {
    if sep == "" {
      assert "system" + sep + word == "system" + word;
    } else if sep == "-" {
      assert "system" + sep + word == "system-" + word;
    } else {
      assert "system" + sep + word == "system_" + word;
    }
  }

  lemma SystemInitializedShape(name: string)
    requires IsSystemInitializedTool(name)
    ensures name == "systeminit" || name == "system-init" || name == "system_init"
      || name == "systeminitialized" || name == "system-initialized" || name == "system_initialized"
  {
    var sep, word := SystemInitializedParts(name);
    SystemInitializedSpelled(sep, word);
  }

  /** Each of the six names is accepted. */
  lemma SystemInitializedListed(name: string)
    requires name == "systeminit" || name == "system-init" || name == "system_init"
      || name == "systeminitialized" || name == "system-initialized" || name == "system_initialized"
    ensures IsSystemInitializedTool(name)
  {
    if name == "systeminit" || name == "system-init" || name == "system_init" {
      SystemInitListed(name);
    } else {
      SystemInitializedListedLong(name);
    }
  }

  lemma SystemInitListed(name: string)
    requires name == "systeminit" || name == "system-init" || name == "system_init"
    ensures IsSystemInitializedTool(name)
  {
  }

  lemma SystemInitializedListedLong(name: string)
    requires name == "systeminitialized" || name == "system-initialized" || name == "system_initialized"
    ensures IsSystemInitializedTool(name)
  {
  }

  /** No name is claimed by two of the patterns. */
  lemma PatternsDisjoint(name: string)
    ensures !(IsSystemReminderTool(name) && IsSystemInitializedTool(name))
    ensures !(IsSystemReminderTool(name) && IsCommandOutputTool(name))
    ensures !(IsCommandOutputTool(name) && IsSystemInitializedTool(name))
    ensures !(IsMcpTool(name) && (IsSystemReminderTool(name) || IsCommandOutputTool(name) || IsSystemInitializedTool(name)))
  {
    SystemReminderNames(name);
    CommandOutputNames(name);
    SystemInitializedNames(name);
    if IsMcpTool(name) {
      assert name[0] == 'm';
    }
  }
}
