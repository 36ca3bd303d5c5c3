/**
 * What the session lists of the front end share: the `Session` and `Project` records the back end
 * returns, the entries of a loaded session history, JavaScript truthiness of their optional
 * strings, the project name shown for a path, the case-insensitive search of a field, the summary
 * taken from a history, and the activity key the recent-session views sort by.
 */
module Sessions {
  import opened Base
  import opened Text
  import opened Messages
  import opened Seqs
  import opened Sorting

  /**
   * A session. Optional strings are `None` when absent; `createdAt` is in seconds. Timestamps are
   * ISO strings, turned into milliseconds by `new Date(t).getTime()`, which the functions below
   * take as a parameter `dateMs`.
   */
  datatype Session = Session(
    id: string,
    projectId: string,
    projectPath: string,
    firstMessage: Option<string>,
    messageTimestamp: Option<string>,
    lastMessageTimestamp: Option<string>,
    createdAt: int)

  /** A project: its directory, its sessions and its creation time in seconds. */
  datatype Project = Project(id: string, path: string, sessions: seq<Session>, createdAt: int)

  /**
   * An entry of a loaded session history: the transcript entry and its `timestamp`, `sentAt` and
   * `receivedAt` fields.
   */
  datatype Entry = Entry(message: Message, timestamp: Option<string>, sentAt: Option<string>, receivedAt: Option<string>)

  /** An optional string is truthy when it is present and not empty. */
  predicate Present(s: Option<string>) {
    s.Some? && s.value != ""
  }

  /** `field?.toLowerCase().includes(query)` for a query that is already lower-cased. */
  predicate FieldMatches(field: Option<string>, query: string) {
    field.Some? && Contains(ToLower(field.value), query)
  }

  /** `s.substring(0, n)`. */
  function Prefix(s: string, n: nat): (r: string)
    ensures |r| <= n && r <= s
    ensures |s| <= n ==> r == s
  {
    if |s| <= n then s else s[..n]
  }

  /** The position of the first entry of type "assistant" (`history.find(h => h.type === "assistant")`). */
  function FirstAssistant(history: seq<Entry>): (r: Option<nat>)
    ensures r.Some? ==> r.value < |history| && history[r.value].message.kind == "assistant"
    ensures r.Some? ==> forall j :: 0 <= j < r.value ==> history[j].message.kind != "assistant"
    ensures r.None? ==> forall j :: 0 <= j < |history| ==> history[j].message.kind != "assistant"
  {
    if history == [] then None
    else if history[0].message.kind == "assistant" then Some(0)
    else
      match FirstAssistant(history[1..])
      case None => None
      case Some(k) => Some(k + 1)
  }

  /** The text of the first "text" item of some segments, when it has one. */
  function FirstText(items: seq<Segment>): (r: Option<string>)
    ensures r.Some? ==> exists k :: 0 <= k < |items| && IsText(items[k]) && items[k].text == r
    ensures (forall k :: 0 <= k < |items| ==> !IsText(items[k])) ==> r.None?
  {
    if items == [] then None
    else if IsText(items[0]) then items[0].text
    else
      var r := FirstText(items[1..]);
      assert forall k :: 1 <= k < |items| ==> items[k] == items[1..][k - 1];
      r
  }

  /** `find` stops at the first "text" item: the text is that item's, even when it carries none. */
  lemma {:induction false} FirstTextIsFirst(items: seq<Segment>, k: nat)
    requires k < |items| && IsText(items[k])
    requires forall j :: 0 <= j < k ==> !IsText(items[j])
    ensures FirstText(items) == items[k].text
  {
    if k > 0 {
      assert forall j :: 0 <= j < k - 1 ==> items[1..][j] == items[j + 1];
      FirstTextIsFirst(items[1..], k - 1);
    }
  }

  /**
   * The summary of a history: the first `limit` characters of the text of the first "text" item
   * of the first assistant entry, or "". When `fromString` holds, a string content counts as well.
   */
  function Summary(history: seq<Entry>, limit: nat, fromString: bool): (summary: string)
    ensures |summary| <= limit
    ensures FirstAssistant(history).None? ==> summary == ""
  {
    match FirstAssistant(history)
    case None => ""
    case Some(k) =>
      var content := Body(history[k].message);
      if !Truthy(content) then ""
      else if content.Parts? then
        match FirstText(content.items)
        case Some(t) => Prefix(t, limit)
        case None => ""
      else if content.Text? && fromString then Prefix(content.s, limit)
      else ""
  }

  /** `sessions.find(s => s.id === id)`. */
  function FindById(sessions: seq<Session>, id: string): (r: Option<Session>)
    ensures r.Some? ==> r.value in sessions && r.value.id == id
    ensures r.None? <==> forall k :: 0 <= k < |sessions| ==> sessions[k].id != id
  {
    if sessions == [] then None
    else if sessions[0].id == id then Some(sessions[0])
    else
      var r := FindById(sessions[1..], id);
      assert forall k :: 1 <= k < |sessions| ==> sessions[k] == sessions[1..][k - 1];
      r
  }

  /** `find` returns the first session with the id, whatever sessions with the same id follow it. */
  lemma {:induction false} FindByIdIsFirst(sessions: seq<Session>, id: string, k: nat)
    requires k < |sessions| && sessions[k].id == id
    requires forall j :: 0 <= j < k ==> sessions[j].id != id
    ensures FindById(sessions, id) == Some(sessions[k])
  {
    if k > 0 {
      assert forall j :: 0 <= j < k - 1 ==> sessions[1..][j] == sessions[j + 1];
      FindByIdIsFirst(sessions[1..], id, k - 1);
    }
  }

  predicate IsPathSeparator(c: char) {
    c == '/' || c == '\\'
  }

  /** `last` is the longest suffix of `s` without a separator. */
  predicate IsLastPiece(s: string, last: string) {
    && EndsWith(s, last)
    && (forall i :: 0 <= i < |last| ==> !IsPathSeparator(last[i]))
    && (|last| == |s| || IsPathSeparator(s[|s| - |last| - 1]))
  }

  /** The last piece of a split is the longest suffix without a separator. */
  lemma {:induction false} LastPieceOfSplit(s: string)
    ensures IsLastPiece(s, Last(Split(s, IsPathSeparator)))
  {
    if s != [] {
      LastPieceOfSplit(s[1..]);
      var rest := Split(s[1..], IsPathSeparator);
      if IsPathSeparator(s[0]) || |rest| > 1 {
        LastPieceAfterSeparator(s);
      } else {
        LastPieceOfOnePiece(s);
      }
    }
  }

  /** When the split of `s` ends with the last piece of the split of its tail. */
  lemma LastPieceAfterSeparator(s: string)
    requires s != [] && IsLastPiece(s[1..], Last(Split(s[1..], IsPathSeparator)))
    requires IsPathSeparator(s[0]) || |Split(s[1..], IsPathSeparator)| > 1
    ensures IsLastPiece(s, Last(Split(s, IsPathSeparator)))
  {
    var tail := Last(Split(s[1..], IsPathSeparator));
    SplitKeepsLastPiece(s);
    LongerSuffix(s, tail);
    if |tail| == |s| - 1 && !IsPathSeparator(s[0]) {
      SinglePieceHasNoSeparator(s[1..]);
      assert false;
    }
  }

  /** A leading separator, or a tail of several pieces, leaves the last piece where it was. */
  lemma SplitKeepsLastPiece(s: string)
    requires s != [] && (IsPathSeparator(s[0]) || |Split(s[1..], IsPathSeparator)| > 1)
    ensures Last(Split(s, IsPathSeparator)) == Last(Split(s[1..], IsPathSeparator))
  {
    var rest := Split(s[1..], IsPathSeparator);
    if !IsPathSeparator(s[0]) {
      assert Split(s, IsPathSeparator) == [[s[0]] + rest[0]] + rest[1..];
    }
  }

  /** A suffix of the tail of `s` is a suffix of `s`, preceded by the same character. */
  lemma LongerSuffix(s: string, tail: string)
    requires s != [] && EndsWith(s[1..], tail)
    ensures EndsWith(s, tail)
    ensures |tail| < |s| - 1 ==> s[|s| - |tail| - 1] == s[1..][|s| - 1 - |tail| - 1]
    ensures |tail| == |s| - 1 ==> tail == s[1..]
  {
    assert s[|s| - |tail|..] == s[1..][|s| - 1 - |tail|..];
  }

  /** When the tail of `s` is one piece that the first character of `s` joins. */
  lemma LastPieceOfOnePiece(s: string)
    requires s != [] && IsLastPiece(s[1..], Last(Split(s[1..], IsPathSeparator)))
    requires !IsPathSeparator(s[0]) && |Split(s[1..], IsPathSeparator)| == 1
    ensures IsLastPiece(s, Last(Split(s, IsPathSeparator)))
  {
    var rest := Split(s[1..], IsPathSeparator);
    var tail := rest[0];
    assert rest == [tail];
    assert Split(s, IsPathSeparator) == [[s[0]] + tail];
    OnePieceIsWhole(s[1..]);
    assert tail == s[1..];
    assert [s[0]] + tail == s;
  }

  /** A split into one piece leaves the string whole. */
  lemma {:induction false} OnePieceIsWhole(s: string)
    requires |Split(s, IsPathSeparator)| == 1
    ensures Split(s, IsPathSeparator)[0] == s
  {
    if s != [] {
      var rest := Split(s[1..], IsPathSeparator);
      assert !IsPathSeparator(s[0]) && |rest| == 1;
      OnePieceIsWhole(s[1..]);
      assert Split(s, IsPathSeparator) == [[s[0]] + rest[0]];
      assert [s[0]] + s[1..] == s;
    }
  }

  /** Splitting a string without a separator gives one piece. */
  lemma {:induction false} SinglePieceHasNoSeparator(s: string)
    requires forall i :: 0 <= i < |s| ==> !IsPathSeparator(s[i])
    ensures |Split(s, IsPathSeparator)| == 1
  {
    if s != [] {
      SinglePieceHasNoSeparator(s[1..]);
    }
  }

  /**
   * `getProjectName`: the part of the path after its last '/' or '\', or the whole path when that
   * part is empty (a path ending in a separator, or the empty path).
   */
  function ProjectName(path: string): (name: string)
    ensures name == path || (name != "" && EndsWith(path, name) && |name| < |path| && IsPathSeparator(path[|path| - |name| - 1]))
    ensures name != path ==> forall i :: 0 <= i < |name| ==> !IsPathSeparator(name[i])
  {
    LastPieceOfSplit(path);
    var last := Last(Split(path, IsPathSeparator));
    if last == "" then path else last
  }

  /** A path with no separator is its own project name; a trailing separator also gives the whole path. */
  lemma ProjectNameCases(path: string)
    ensures (forall i :: 0 <= i < |path| ==> !IsPathSeparator(path[i])) ==> ProjectName(path) == path
    ensures |path| > 0 && IsPathSeparator(Last(path)) ==> ProjectName(path) == path
  {
    var name := ProjectName(path);
    if name != path {
      assert name == path[|path| - |name|..];
      assert Last(path) == name[|name| - 1];
    }
  }

  /** The first `perProject` sessions of each project, project after project (the views' nested scan). */
  function FirstSessions(projects: seq<Project>, perProject: nat): seq<Session> {
    if projects == [] then []
    else FirstSessions(projects[..|projects| - 1], perProject) + Take(Last(projects).sessions, perProject)
  }

  /** The scan yields at most `perProject` sessions per project. */
  lemma {:induction false} FirstSessionsLength(projects: seq<Project>, perProject: nat)
    ensures |FirstSessions(projects, perProject)| <= perProject * |projects|
  {
    if projects != [] {
      var front := projects[..|projects| - 1];
      FirstSessionsLength(front, perProject);
      Distribute(perProject, |front|);
    }
  }

  lemma Distribute(a: nat, b: nat)
    ensures a * (b + 1) == a * b + a
  {
  }

  /** Each session the scan yields is among the first `perProject` of some project, and each of those is yielded. */
  lemma {:induction false} FirstSessionsMembers(projects: seq<Project>, perProject: nat)
    ensures forall x :: x in FirstSessions(projects, perProject) <==>
              exists k :: 0 <= k < |projects| && x in Take(projects[k].sessions, perProject)
  {
    if projects != [] {
      var front := projects[..|projects| - 1];
      FirstSessionsMembers(front, perProject);
      assert forall k :: 0 <= k < |front| ==> front[k] == projects[k];
      forall x | x in FirstSessions(projects, perProject)
        ensures exists k :: 0 <= k < |projects| && x in Take(projects[k].sessions, perProject)
      {
        if x !in FirstSessions(front, perProject) {
          assert x in Take(projects[|projects| - 1].sessions, perProject);
        }
      }
    }
  }

  /** One more project adds its first sessions at the end. */
  lemma FirstSessionsStep(projects: seq<Project>, perProject: nat, i: nat)
    requires i < |projects|
    ensures FirstSessions(projects[..i + 1], perProject) == FirstSessions(projects[..i], perProject) + Take(projects[i].sessions, perProject)
  {
    assert projects[..i + 1][..i] == projects[..i];
  }

  /**
   * The activity key the recent-session views sort by, as written: the last activity in
   * milliseconds when it is known, else the creation time, which is in seconds.
   */
  function ActivityKeyAsWritten(lastActivity: Option<string>, createdAt: int, dateMs: string -> int): (key: int)
    ensures Present(lastActivity) ==> key == dateMs(lastActivity.value)
    ensures !Present(lastActivity) ==> key == createdAt
  {
    if Present(lastActivity) then dateMs(lastActivity.value) else createdAt
  }

  /** The activity key in milliseconds throughout: the creation time is scaled like the session list does. */
  function ActivityKeyMs(lastActivity: Option<string>, createdAt: int, dateMs: string -> int): (key: int)
    ensures Present(lastActivity) ==> key == dateMs(lastActivity.value)
    ensures !Present(lastActivity) ==> key == createdAt * 1000
  {
    if Present(lastActivity) then dateMs(lastActivity.value) else createdAt * 1000
  }

  /** The rank that sorts newest first by the key in milliseconds throughout. */
  function NewestFirstMs<T>(activity: T -> Option<string>, created: T -> int, dateMs: string -> int): T -> int {
    x => -ActivityKeyMs(activity(x), created(x), dateMs)
  }

  /**
   * With milliseconds throughout the sort follows the real instant of each session's latest
   * activity: when `instant` is that instant (the parsed last activity when there is one, else the
   * creation time, given in seconds), the sorted list runs from the most recently active session
   * down, and its first session is active no earlier than any other.
   */
  lemma ActivityKeyMsNewestFirst<T>(xs: seq<T>, activity: T -> Option<string>, created: T -> int,
                                    dateMs: string -> int, instant: T -> int)
    requires forall x :: x in xs && Present(activity(x)) ==> dateMs(activity(x).value) == instant(x)
    requires forall x :: x in xs && !Present(activity(x)) ==> created(x) * 1000 == instant(x)
    ensures var sorted := SortBy(xs, NewestFirstMs(activity, created, dateMs));
      (forall i, j :: 0 <= i < j < |sorted| ==> instant(sorted[i]) >= instant(sorted[j]))
      && (xs != [] ==> forall x :: x in xs ==> instant(x) <= instant(sorted[0]))
  {
    var rank := NewestFirstMs(activity, created, dateMs);
    var sorted := SortBy(xs, rank);
    SortBySorts(xs, rank);
    assert forall x :: x in sorted ==> x in multiset(xs);
    forall i, j | 0 <= i < j < |sorted|
      ensures instant(sorted[i]) >= instant(sorted[j])
    {
      assert sorted[i] in multiset(xs) && sorted[j] in multiset(xs);
      assert rank(sorted[i]) <= rank(sorted[j]);
    }
    if xs != [] {
      forall x | x in xs
        ensures instant(x) <= instant(sorted[0])
      {
        assert x in multiset(sorted);
        var k :| 0 <= k < |sorted| && sorted[k] == x;
        assert sorted[0] in multiset(xs);
        if k > 0 {
          assert rank(sorted[0]) <= rank(sorted[k]);
        }
      }
    }
  }

  /** As written, it does not, and a newer session without activity ranks below an older one with activity. */
  lemma {:induction false} ActivityKeyMixesUnits()
    ensures var dateMs := (t: string) => if t == "2020-01-01T00:00:00Z" then 1577836800000 else 0;
      && ActivityKeyAsWritten(Some("2020-01-01T00:00:00Z"), 1577836800, dateMs) != ActivityKeyAsWritten(None, 1577836800, dateMs)
      && ActivityKeyAsWritten(Some("2020-01-01T00:00:00Z"), 1577836800, dateMs) > ActivityKeyAsWritten(None, 1704067200, dateMs)
      && ActivityKeyMs(Some("2020-01-01T00:00:00Z"), 1577836800, dateMs) < ActivityKeyMs(None, 1704067200, dateMs)
  {
  }
}
