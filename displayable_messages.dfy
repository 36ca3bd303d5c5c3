/**
 * The session screen's display filter (src/hooks/useDisplayableMessages.ts): which transcript
 * entries are rendered. Bare meta entries are dropped; a user message is dropped when it is meta,
 * has empty content, or holds only tool results whose tool already shows them in a widget. The
 * widget check scans back to the nearest assistant message that used the tool.
 */
module DisplayableMessages {
  import opened Base
  import opened Text
  import opened Messages
  import opened Seqs
  import MessageFilter

  /** Tools that render their own result; their `tool_result` entries need no separate display. */
  const WidgetTools: seq<string> :=
    ["task", "edit", "multiedit", "todowrite", "ls", "read", "glob", "bash", "write", "grep"]

  /** `content.find(c => c.type === 'tool_use' && c.id === id)`, as a position. */
  function FindToolUse(items: seq<Segment>, id: string): (r: Option<nat>)
    ensures r.Some? ==> r.value < |items| && IsToolUse(items[r.value]) && items[r.value].id == id
    ensures r.Some? ==> forall j :: 0 <= j < r.value ==> !(IsToolUse(items[j]) && items[j].id == id)
    ensures r.None? ==> forall j :: 0 <= j < |items| ==> !(IsToolUse(items[j]) && items[j].id == id)
  {
    if items == [] then None
    else if IsToolUse(items[0]) && items[0].id == id then Some(0)
    else match FindToolUse(items[1..], id)
      case None =>
        assert forall j :: 1 <= j < |items| ==> items[j] == items[1..][j - 1];
        None
      case Some(q) =>
        assert items[q + 1] == items[1..][q];
        assert forall j :: 1 <= j < q + 1 ==> items[j] == items[1..][j - 1];
        Some(q + 1)
  }

  /** An assistant message with array content that used a tool under `id`. */
  predicate UsedTool(m: Message, id: string) {
    m.kind == "assistant" && Body(m).Parts? && FindToolUse(Body(m).items, id).Some?
  }

  /** The nearest message before position `i` that used a tool under `id`. */
  function ProducerBefore(ms: seq<Message>, i: nat, id: string): (r: Option<nat>)
    requires i <= |ms|
    ensures r.Some? ==> r.value < i && UsedTool(ms[r.value], id)
    ensures r.Some? ==> forall q :: r.value < q < i ==> !UsedTool(ms[q], id)
    ensures r.None? ==> forall q :: 0 <= q < i ==> !UsedTool(ms[q], id)
  {
    if i == 0 then None
    else if UsedTool(ms[i - 1], id) then Some(i - 1)
    else ProducerBefore(ms, i - 1, id)
  }

  /** The tool name of the `tool_use` item that message `p` holds under `id`. */
  function ToolName(m: Message, id: string): Option<string>
    requires UsedTool(m, id)
  {
    Body(m).items[FindToolUse(Body(m).items, id).value].name
  }

  /** A tool with its own widget: one of the ten, compared lower-cased, or any `mcp__` tool. */
  predicate HasWidget(name: Option<string>) {
    name.Some? && (ToLower(name.value) in WidgetTools || StartsWith(name.value, "mcp__"))
  }

  /** A tool result at message `index` whose tool, found by the nearest earlier use, has a widget. */
  predicate WillBeSkipped(ms: seq<Message>, index: nat, seg: Segment)
    requires index < |ms| && seg.Item?
  {
    seg.toolUseId != ""
    && match ProducerBefore(ms, index, seg.toolUseId)
       case None => false
       case Some(p) => HasWidget(ToolName(ms[p], seg.toolUseId))
  }

  /** An element the user would see: a `text` item, or a tool result not shown by a widget. */
  predicate Visible(ms: seq<Message>, index: nat, seg: Segment)
    requires index < |ms|
  {
    IsText(seg) || (IsToolResult(seg) && !WillBeSkipped(ms, index, seg))
  }

  /** Whether the hook keeps message `index`. */
  predicate KeepAt(ms: seq<Message>, index: nat)
    requires index < |ms|
  {
    var m := ms[index];
    if m.isMeta && !m.hasLeafUuid && !m.hasSummary then false
    else if m.kind == "user" && m.hasBody then
      if m.isMeta then false
      else if !Truthy(m.content) || m.content == Parts([]) then false
      else if m.content.Parts? then exists j :: 0 <= j < |m.content.items| && Visible(ms, index, m.content.items[j])
      else true
    else true
  }

  /** `KeepAt` as a test of positions, false past the end. */
  function KeepFn(ms: seq<Message>): nat -> bool {
    (i: nat) => i < |ms| && KeepAt(ms, i)
  }

  /** The kept messages among the first `n`, in order. */
  function DisplayablePrefix(ms: seq<Message>, n: nat): (r: seq<Message>)
    requires n <= |ms|
    ensures |r| <= n
  {
    Select(ms, KeepFn(ms), n)
  }

  function Displayable(ms: seq<Message>): seq<Message> {
    DisplayablePrefix(ms, |ms|)
  }

  /**
   * The displayed list is an order-preserving subsequence of the messages, made of exactly the
   * kept positions.
   */
  lemma DisplayablePositions(ms: seq<Message>, n: nat) returns (idx: seq<nat>)
    requires n <= |ms|
    ensures Embeds(idx, DisplayablePrefix(ms, n), ms)
    ensures forall k :: 0 <= k < |idx| ==> idx[k] < n && KeepAt(ms, idx[k])
    ensures forall i :: 0 <= i < n && KeepAt(ms, i) ==> i in idx
  {
    idx := SelectPositions(ms, KeepFn(ms), n);
  }

  lemma DisplayableIsSubsequence(ms: seq<Message>)
    ensures IsSubsequence(Displayable(ms), ms)
  {
    var idx := DisplayablePositions(ms, |ms|);
  }

  /** The backward scan of the hook: is this tool result shown by a widget? */
  method ScanWillBeSkipped(ms: seq<Message>, index: nat, seg: Segment) returns (skip: bool)
    requires index < |ms| && seg.Item?
    ensures skip == WillBeSkipped(ms, index, seg)
  {
    skip := false;
    if seg.toolUseId == "" {
      return;
    }
    var id := seg.toolUseId;
    var i := index;
    while i > 0
      invariant 0 <= i <= index
      invariant ProducerBefore(ms, index, id) == ProducerBefore(ms, i, id)
      invariant !skip
    {
      var prev := ms[i - 1];
      if prev.kind == "assistant" && Body(prev).Parts? {
        var found := FindToolUse(Body(prev).items, id);
        if found.Some? {
          var name := Body(prev).items[found.value].name;
          skip := name.Some? && (ToLower(name.value) in WidgetTools || StartsWith(name.value, "mcp__"));
          return;
        }
      }
      i := i - 1;
    }
  }

  /** The hook's test for one message, with its item loop and early exits. */
  method KeepMessage(ms: seq<Message>, index: nat) returns (keep: bool)
    requires index < |ms|
    ensures keep == KeepAt(ms, index)
  {
    var m := ms[index];
    if m.isMeta && !m.hasLeafUuid && !m.hasSummary {
      return false;
    }
    if m.kind == "user" && m.hasBody {
      if m.isMeta {
        return false;
      }
      if !Truthy(m.content) || m.content == Parts([]) {
        return false;
      }
      if m.content.Parts? {
        var items := m.content.items;
        var hasVisibleContent := false;
        var j := 0;
        while j < |items|
          invariant 0 <= j <= |items|
          invariant !hasVisibleContent
          invariant forall q :: 0 <= q < j ==> !Visible(ms, index, items[q])
        {
          var item := items[j];
          if item.Item? && item.kind == "text" {
            hasVisibleContent := true;
            break;
          }
          if item.Item? && item.kind == "tool_result" {
            var willBeSkipped := ScanWillBeSkipped(ms, index, item);
            if !willBeSkipped {
              hasVisibleContent := true;
              break;
            }
          }
          j := j + 1;
        }
        return hasVisibleContent;
      }
    }
    keep := true;
  }

  /** `useDisplayableMessages`: the kept messages in order. */
  method DisplayableMessagesOf(ms: seq<Message>) returns (r: seq<Message>)
    ensures r == Displayable(ms)
  {
    r := [];
    var i := 0;
    while i < |ms|
      invariant 0 <= i <= |ms|
      invariant r == DisplayablePrefix(ms, i)
    {
      var keep := KeepMessage(ms, i);
      if keep {
        r := r + [ms[i]];
      }
      i := i + 1;
    }
  }

  /**
   * Of the user messages the configurable filter calls empty, the hook keeps only whitespace-only
   * strings: it tests content for truthiness, not for blankness.
   */
  lemma KeptEmptyIsBlankString(ms: seq<Message>, index: nat)
    requires index < |ms| && KeepAt(ms, index)
    requires ms[index].kind == "user" && ms[index].hasBody && MessageFilter.IsEmptyUserMessage(ms[index])
    ensures Body(ms[index]).Text? && Body(ms[index]).s != "" && AllSpace(Body(ms[index]).s, IsJsSpace)
  {
  }

  /** A whitespace-only prompt is displayed by the hook but hidden by the default configurable filter. */
  lemma BlankStringDiverges()
    ensures var m := Message(0, "user", false, false, false, false, false, true, Text(" "), None);
      KeepAt([m], 0) && !MessageFilter.Keep(m, MessageFilter.DefaultOptions)
  {
    var m := Message(0, "user", false, false, false, false, false, true, Text(" "), None);
    assert AllSpace(Body(m).s, IsJsSpace);
  }
}
