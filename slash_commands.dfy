/**
 * The slash-command picker of the floating prompt input
 * (src/components/FloatingPromptInput/hooks/useSlashCommands.ts). Typing "/" at the start of a
 * word opens the picker, the text typed after it is the query, and choosing a command replaces
 * the "/" and the query by the command. The hook's state (`show`, `query`) and the parent's
 * prompt and cursor that its callbacks update are the fields of one class.
 */
module SlashCommands {
  import opened Base
  import opened Text

  /** The two fields of a slash command the picker reads. */
  datatype SlashCommand = SlashCommand(fullCommand: string, acceptsArguments: bool)

  function Min(a: int, b: int): int {
    if a <= b then a else b
  }

  /** `s.substring(i)` for a non-negative `i`: empty past the end. */
  function Rest(s: string, i: nat): (r: string)
    ensures i <= |s| ==> r == s[i..]
    ensures i > |s| ==> r == ""
  {
    s[Min(i, |s|)..]
  }

  /** `s[i]` in JavaScript: undefined outside the string. */
  function CharAt(s: string, i: int): (r: Option<char>)
    ensures r.Some? <==> 0 <= i < |s|
    ensures r.Some? ==> r.value == s[i]
  {
    if 0 <= i < |s| then Some(s[i]) else None
  }

  /**
   * The picker opens when the text grew, the character before the new cursor is "/", and that
   * "/" is the first character or follows whitespace.
   */
  predicate Opens(prompt: string, newValue: string, newCursor: nat) {
    |newValue| > |prompt| && CharAt(newValue, newCursor - 1) == Some('/')
    && (newCursor == 1 || (newCursor > 1 && IsJsSpace(newValue[newCursor - 2])))
  }

  /** Characters that may appear in a query: anything but "/", space and line feed. */
  predicate WordChar(c: char) {
    c != '/' && c != ' ' && c != '\n'
  }

  /** `k` is a "/" left of `e` with only query characters between it and `e`. */
  predicate WordSlash(s: string, e: int, k: int) {
    0 <= k < e && k < |s| && s[k] == '/'
    && forall j :: k < j < e && j < |s| ==> WordChar(s[j])
  }

  /** The query scan: walking left from just before `e`, the "/" met before any space or line feed. */
  function QueryScan(s: string, e: int): (r: Option<nat>)
    ensures r.Some? ==> WordSlash(s, e, r.value)
    ensures r.None? ==> forall k :: !WordSlash(s, e, k)
    decreases e
  {
    if e <= 0 then None
    else if e - 1 < |s| && s[e - 1] == '/' then Some(e - 1)
    else if e - 1 < |s| && (s[e - 1] == ' ' || s[e - 1] == '\n') then
      assert forall k :: WordSlash(s, e, k) ==> k == e - 1;
      None
    else
      assert forall k :: WordSlash(s, e, k) ==> WordSlash(s, e - 1, k);
      QueryScan(s, e - 1)
  }

  /**
   * The query for text `s` with the cursor at `c`: the text strictly between the "/" and the
   * cursor, or None when no "/" starts the word under the cursor (the picker then hides).
   */
  function QueryOf(s: string, c: nat): (r: Option<string>)
    ensures r.Some? ==> forall j :: 0 <= j < |r.value| ==> WordChar(r.value[j])
    ensures r.Some? && c <= |s| ==> EndsWith(s[..c], "/" + r.value)
    ensures r.None? <==> forall k :: !WordSlash(s, c, k)
  {
    match QueryScan(s, c)
    case None => None
    case Some(k) =>
      var q := s[k + 1..Min(c, |s|)];
      assert forall j :: 0 <= j < |q| ==> WordChar(q[j]) by {
        forall j | 0 <= j < |q|
          ensures WordChar(q[j])
        {
          assert q[j] == s[k + 1 + j];
        }
      }
      if c <= |s| then
        assert s[..c][c - |q| - 1..] == "/" + q;
        Some(q)
      else
        Some(q)
  }

  /** The select scan: the last "/" left of `e`, whatever lies between. */
  function LastSlash(s: string, e: int): (r: Option<nat>)
    ensures r.Some? ==> r.value < e && r.value < |s| && s[r.value] == '/'
    ensures r.Some? ==> forall j :: r.value < j < e && j < |s| ==> s[j] != '/'
    ensures r.None? ==> forall j :: 0 <= j < e && j < |s| ==> s[j] != '/'
    decreases e
  {
    if e <= 0 then None
    else if e - 1 < |s| && s[e - 1] == '/' then Some(e - 1)
    else LastSlash(s, e - 1)
  }

  /**
   * Choosing `cmd` with the cursor at `c`: the new prompt and cursor, or None when no "/" lies
   * before the cursor. The "/" and everything up to the cursor become the command and a space;
   * a command that takes arguments also drops the text after the cursor.
   */
  function Selected(prompt: string, c: nat, cmd: SlashCommand): (r: Option<(string, nat)>)
    ensures r.None? <==> LastSlash(prompt, c).None?
    ensures r.Some? ==> var k := LastSlash(prompt, c).value;
      r.value.1 == k + |cmd.fullCommand| + 1
      && r.value.0 == prompt[..k] + cmd.fullCommand + " " + (if cmd.acceptsArguments then "" else Rest(prompt, c))
  {
    match LastSlash(prompt, c)
    case None => None
    case Some(k) =>
      var before := prompt[..k];
      if cmd.acceptsArguments then
        var p := before + cmd.fullCommand + " ";
        Some((p, |p|))
      else
        Some((before + cmd.fullCommand + " " + Rest(prompt, c), |before| + |cmd.fullCommand| + 1))
  }

  /** Right after the picker opens, the query of the same text and cursor is empty. */
  lemma OpenedQueryIsEmpty(prompt: string, newValue: string, newCursor: nat)
    requires Opens(prompt, newValue, newCursor)
    ensures QueryOf(newValue, newCursor) == Some("")
  {
    assert QueryScan(newValue, newCursor) == Some(newCursor - 1);
  }

  /**
   * After a selection the cursor stands right after the inserted command and its space; without
   * arguments the text that followed the old cursor follows the new one unchanged.
   */
  lemma SelectedCursorAfterCommand(prompt: string, c: nat, cmd: SlashCommand)
    requires Selected(prompt, c, cmd).Some?
    ensures var (p, pos) := Selected(prompt, c, cmd).value;
      pos <= |p| && p[..pos] == prompt[..LastSlash(prompt, c).value] + cmd.fullCommand + " "
      && (!cmd.acceptsArguments ==> p[pos..] == Rest(prompt, c))
  {
    var (p, pos) := Selected(prompt, c, cmd).value;
    var k := LastSlash(prompt, c).value;
    assert p == (prompt[..k] + cmd.fullCommand + " ") + p[pos..];
  }

  /**
   * A selection made while the query is `q` replaces exactly "/" + `q`, the text just before the
   * cursor, by the command and a space.
   */
  lemma {:induction false} SelectReplacesQuery(prompt: string, c: nat, q: string, cmd: SlashCommand)
    requires c <= |prompt| && QueryOf(prompt, c) == Some(q)
    requires !cmd.acceptsArguments
    ensures c >= |q| + 1 && prompt[c - |q| - 1..c] == "/" + q
    ensures Selected(prompt, c, cmd).Some?
    ensures Selected(prompt, c, cmd).value.0 == prompt[..c - |q| - 1] + cmd.fullCommand + " " + prompt[c..]
  {
    var k := QueryScan(prompt, c).value;
    assert WordSlash(prompt, c, k);
    assert |q| == c - k - 1;
    assert prompt[..c][k..] == prompt[k..c];
    LastSlashOfWord(prompt, c, k);
  }

  /** The select scan stops at the same "/" as the query scan when one starts the word. */
  lemma {:induction false} LastSlashOfWord(s: string, e: int, k: int)
    requires WordSlash(s, e, k)
    ensures LastSlash(s, e) == Some(k)
    decreases e
  {
    if e - 1 != k {
      assert e - 1 >= |s| || WordChar(s[e - 1]);
      LastSlashOfWord(s, e - 1, k);
    }
  }

  class SlashPicker {
    /** The parent's prompt text. */
    var prompt: string
    /** The parent's cursor position. */
    var cursor: nat
    /** Whether the picker is shown. */
    var show: bool
    /** The text typed after the "/". */
    var query: string

    constructor(prompt: string, cursor: nat)
      ensures this.prompt == prompt && this.cursor == cursor
      ensures !show && query == ""
    {
      this.prompt := prompt;
      this.cursor := cursor;
      show := false;
      query := "";
    }

    /** Called with the new text and cursor before the parent stores them. */
    method DetectSlashSymbol(newValue: string, newCursor: nat)
      modifies this
      ensures prompt == old(prompt)
      ensures Opens(old(prompt), newValue, newCursor) ==> show && query == "" && cursor == newCursor
      ensures !Opens(old(prompt), newValue, newCursor) ==>
                show == old(show) && query == old(query) && cursor == old(cursor)
    {
      if |newValue| > |prompt| && CharAt(newValue, newCursor - 1) == Some('/') {
        var isStartOfCommand := newCursor == 1 || (newCursor > 1 && IsJsSpace(newValue[newCursor - 2]));
        if isStartOfCommand {
          show := true;
          query := "";
          cursor := newCursor;
        }
      }
    }

    /** Follows the typing after "/": refreshes the query, or hides the picker when the "/" is gone. */
    method UpdateSlashCommandQuery(newValue: string, newCursor: nat)
      modifies this
      ensures prompt == old(prompt) && cursor == old(cursor)
      ensures !old(show) || newCursor < old(cursor) ==> show == old(show) && query == old(query)
      ensures old(show) && newCursor >= old(cursor) ==>
                match QueryOf(newValue, newCursor)
                case Some(q) => show && query == q
                case None => !show && query == ""
    {
      if !show || newCursor < cursor {
        return;
      }
      var slash: Option<nat> := None;
      var i: int := newCursor - 1;
      while i >= 0
        invariant i < newCursor
        invariant QueryScan(newValue, i + 1) == QueryScan(newValue, newCursor)
        invariant slash.None?
        decreases i
      {
        if CharAt(newValue, i) == Some('/') {
          slash := Some(i);
          break;
        }
        if CharAt(newValue, i) == Some(' ') || CharAt(newValue, i) == Some('\n') {
          break;
        }
        i := i - 1;
      }
      assert slash == QueryScan(newValue, newCursor);
      match slash {
        case Some(k) =>
          query := newValue[k + 1..Min(newCursor, |newValue|)];
        case None =>
          show := false;
          query := "";
      }
    }

    /**
     * Chooses `cmd` from the picker. `hasTextarea` says whether the text area is mounted; the
     * cursor placement the source defers to the next tick is applied here at once.
     */
    method HandleSlashCommandSelect(cmd: SlashCommand, hasTextarea: bool)
      modifies this
      ensures !hasTextarea ==>
                prompt == old(prompt) && cursor == old(cursor) && show == old(show) && query == old(query)
      ensures hasTextarea ==> !show && query == ""
      ensures hasTextarea ==>
                match Selected(old(prompt), old(cursor), cmd)
                case None => prompt == old(prompt) && cursor == old(cursor)
                case Some((p, pos)) => prompt == p && cursor == pos
    {
      if !hasTextarea {
        return;
      }
      var slash: Option<nat> := None;
      var i: int := cursor - 1;
      while i >= 0
        invariant i < cursor
        invariant LastSlash(prompt, i + 1) == LastSlash(prompt, cursor)
        invariant slash.None?
        decreases i
      {
        if CharAt(prompt, i) == Some('/') {
          slash := Some(i);
          break;
        }
        i := i - 1;
      }
      assert slash == LastSlash(prompt, cursor);
      if slash.None? {
        show := false;
        query := "";
        return;
      }
      var beforeSlash := prompt[..slash.value];
      var afterCursor := Rest(prompt, cursor);
      if cmd.acceptsArguments {
        var newPrompt := beforeSlash + cmd.fullCommand + " ";
        prompt := newPrompt;
        show := false;
        query := "";
        cursor := |newPrompt|;
      } else {
        var newPrompt := beforeSlash + cmd.fullCommand + " " + afterCursor;
        prompt := newPrompt;
        show := false;
        query := "";
        cursor := |beforeSlash| + |cmd.fullCommand| + 1;
      }
    }

    /** Closes the picker; focus returns to the text area. */
    method HandleSlashCommandPickerClose()
      modifies this
      ensures !show && query == ""
      ensures prompt == old(prompt) && cursor == old(cursor)
    {
      show := false;
      query := "";
    }
  }
}
