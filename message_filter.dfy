/**
 * The configurable message filter (src/lib/messageFilter.ts): the rules that hide meta entries,
 * empty user messages and tool results already shown by a widget, the filter pipeline built from
 * them, the collection of tool ids that have widgets, and the statistics of what was hidden and why.
 */
module MessageFilter {
  import opened Base
  import opened Text
  import opened Messages
  import opened Seqs

  /** An entry flagged `isMeta` that has neither a `leafUuid` nor a `summary`. */
  predicate IsBareMeta(m: Message) {
    m.isMeta && !m.hasLeafUuid && !m.hasSummary
  }

  /**
   * `isEmptyUserMessage`: never for other kinds; for a user message, content that is falsy (absent,
   * "", 0, false or null), an empty array, or a string that trims to nothing.
   */
  function IsEmptyUserMessage(m: Message): (empty: bool)
    ensures m.kind != "user" ==> !empty
    ensures m.kind == "user" && Body(m).Text? ==> (empty <==> AllSpace(Body(m).s, IsJsSpace))
    ensures m.kind == "user" && Body(m).Parts? ==> (empty <==> Body(m).items == [])
    ensures m.kind == "user" && Body(m).NoContent? ==> empty
    ensures m.kind == "user" && Body(m).OtherValue? ==> (empty <==> !Body(m).truthy)
  {
    if m.kind != "user" then false
    else
      var c := Body(m);
      if !Truthy(c) then true
      else if c.Parts? && |c.items| == 0 then true
      else if c.Text? then TrimEmptyIff(c.s, IsJsSpace); JsTrim(c.s) == ""
      else false
  }

  /** `isToolResultMessage`: a user message whose array content holds a `tool_result` item. */
  predicate IsToolResultMessage(m: Message) {
    m.kind == "user" && Body(m).Parts? && exists j :: 0 <= j < |Body(m).items| && IsToolResult(Body(m).items[j])
  }

  /** A `tool_result` item that names the tool use it answers. */
  predicate AnswersToolUse(seg: Segment) {
    IsToolResult(seg) && seg.toolUseId != ""
  }

  /** The `tool_use_id`s of the `tool_result` items that carry one, in order. */
  function ToolResultIds(items: seq<Segment>): (ids: seq<string>)
    ensures forall id :: id in ids <==> exists j :: 0 <= j < |items| && AnswersToolUse(items[j]) && items[j].toolUseId == id
  {
    if items == [] then []
    else
      var n := |items| - 1;
      var front := ToolResultIds(items[..n]);
      assert forall j :: 0 <= j < n ==> items[..n][j] == items[j];
      front + (if AnswersToolUse(items[n]) then [items[n].toolUseId] else [])
  }

  /** `extractToolUseIds`: none unless the message is a tool result, then the ids its results answer. */
  function ExtractToolUseIds(m: Message): (ids: seq<string>)
    ensures !IsToolResultMessage(m) ==> ids == []
    ensures IsToolResultMessage(m) ==> forall id :: id in ids <==>
      exists j :: 0 <= j < |Body(m).items| && AnswersToolUse(Body(m).items[j]) && Body(m).items[j].toolUseId == id
  {
    if !IsToolResultMessage(m) then [] else ToolResultIds(Body(m).items)
  }

  /**
   * `shouldDeduplicateToolResult`: a tool-result message that answers at least one tool use, every
   * one of them a tool whose widget already shows the result.
   */
  function ShouldDeduplicateToolResult(m: Message, toolsWithWidgets: seq<string>): (dedup: bool)
    ensures dedup <==> (IsToolResultMessage(m)
                        && (exists j :: 0 <= j < |Body(m).items| && AnswersToolUse(Body(m).items[j]))
                        && (forall j :: 0 <= j < |Body(m).items| && AnswersToolUse(Body(m).items[j]) ==>
                              Body(m).items[j].toolUseId in toolsWithWidgets))
  {
    if !IsToolResultMessage(m) then false
    else
      var ids := ExtractToolUseIds(m);
      assert forall j :: 0 <= j < |Body(m).items| && AnswersToolUse(Body(m).items[j]) ==>
        Body(m).items[j].toolUseId in ids;
      if |ids| > 0 then
        assert ids[0] in ids;
        assert forall k :: 0 <= k < |ids| ==> ids[k] in ids;
        forall k :: 0 <= k < |ids| ==> ids[k] in toolsWithWidgets
      else
        false
  }

  /** The filter's switches; `customFilter` is an optional extra test. */
  datatype FilterOptions = FilterOptions(
    hideMeta: bool,
    hideEmptyUser: bool,
    deduplicateToolResults: bool,
    toolsWithWidgets: seq<string>,
    customFilter: Option<Message -> bool>)

  /** What an empty options object means. */
  const DefaultOptions := FilterOptions(true, true, true, [], None)

  /** A message passes every rule the options enable. */
  predicate Keep(m: Message, opts: FilterOptions) {
    !(opts.hideMeta && IsBareMeta(m))
    && !(opts.hideEmptyUser && IsEmptyUserMessage(m))
    && !(opts.deduplicateToolResults && ShouldDeduplicateToolResult(m, opts.toolsWithWidgets))
    && !(opts.customFilter.Some? && !opts.customFilter.value(m))
  }

  function KeepFn(opts: FilterOptions): Message -> bool {
    (m: Message) => Keep(m, opts)
  }

  function RejectFn(opts: FilterOptions): Message -> bool {
    (m: Message) => !Keep(m, opts)
  }

  /** `filterDisplayableMessages`: the messages that pass, in their order. */
  function FilterDisplayableMessages(ms: seq<Message>, opts: FilterOptions): (r: seq<Message>)
    ensures forall k :: 0 <= k < |r| ==> Keep(r[k], opts)
    ensures forall m :: m in r <==> m in ms && Keep(m, opts)
  {
    Filter(ms, KeepFn(opts))
  }

  /** The filter keeps the order of the messages it keeps. */
  lemma FilterDisplayableIsSubsequence(ms: seq<Message>, opts: FilterOptions)
    ensures IsSubsequence(FilterDisplayableMessages(ms, opts), ms)
  {
    FilterIsSubsequence(ms, KeepFn(opts));
  }

  /** With every rule off and no custom test, the filter returns the messages unchanged. */
  lemma AllRulesOffKeepsAll(ms: seq<Message>, opts: FilterOptions)
    requires !opts.hideMeta && !opts.hideEmptyUser && !opts.deduplicateToolResults
    requires opts.customFilter.None?
    ensures FilterDisplayableMessages(ms, opts) == ms
  {
    FilterAll(ms, KeepFn(opts));
  }

  /** A `tool_use` item that names itself. */
  predicate IsNamedToolUse(seg: Segment) {
    IsToolUse(seg) && seg.id != ""
  }

  /** The ids of the `tool_use` items that carry one, in order. */
  function ToolUseIds(items: seq<Segment>): (ids: seq<string>)
    ensures forall id :: id in ids <==> exists j :: 0 <= j < |items| && IsNamedToolUse(items[j]) && items[j].id == id
  {
    if items == [] then []
    else
      var n := |items| - 1;
      var front := ToolUseIds(items[..n]);
      assert forall j :: 0 <= j < n ==> items[..n][j] == items[j];
      front + (if IsNamedToolUse(items[n]) then [items[n].id] else [])
  }

  /** An assistant message whose array content uses a tool under `id`. */
  predicate UsesTool(m: Message, id: string) {
    m.kind == "assistant" && Body(m).Parts?
    && exists j :: 0 <= j < |Body(m).items| && IsNamedToolUse(Body(m).items[j]) && Body(m).items[j].id == id
  }

  /** The ids of the tools the assistant used, in message and content order. */
  function WidgetToolIds(ms: seq<Message>): (ids: seq<string>)
    ensures forall id :: id in ids <==> exists i :: 0 <= i < |ms| && UsesTool(ms[i], id)
  {
    if ms == [] then []
    else
      var n := |ms| - 1;
      var m := ms[n];
      assert forall i :: 0 <= i < n ==> ms[..n][i] == ms[i];
      WidgetToolIds(ms[..n]) + (if m.kind == "assistant" && Body(m).Parts? then ToolUseIds(Body(m).items) else [])
  }

  /** `extractToolsWithWidgets`: walks the messages and their items, collecting tool-use ids. */
  method ExtractToolsWithWidgets(ms: seq<Message>) returns (toolIds: seq<string>)
    ensures toolIds == WidgetToolIds(ms)
  {
    toolIds := [];
    var i := 0;
    while i < |ms|
      invariant 0 <= i <= |ms|
      invariant toolIds == WidgetToolIds(ms[..i])
    {
      assert ms[..i + 1][..i] == ms[..i];
      var m := ms[i];
      if m.kind == "assistant" && Body(m).Parts? {
        var items := Body(m).items;
        var j := 0;
        while j < |items|
          invariant 0 <= j <= |items|
          invariant toolIds == WidgetToolIds(ms[..i]) + ToolUseIds(items[..j])
        {
          assert items[..j + 1][..j] == items[..j];
          if items[j].Item? && items[j].kind == "tool_use" && items[j].id != "" {
            toolIds := toolIds + [items[j].id];
          }
          j := j + 1;
        }
        assert items[..j] == items;
      }
      i := i + 1;
    }
    assert ms[..i] == ms;
  }

  /** `smartFilterMessages`: the filter with the widget ids taken from the messages themselves. */
  function SmartFilterMessages(ms: seq<Message>, opts: FilterOptions): seq<Message> {
    FilterDisplayableMessages(ms, opts.(toolsWithWidgets := WidgetToolIds(ms)))
  }

  /**
   * With deduplication on, the smart filter hides a tool-result message when every tool use it
   * answers appears in the same message list.
   */
  lemma SmartFilterHidesAnsweredResults(ms: seq<Message>, opts: FilterOptions, m: Message)
    requires opts.deduplicateToolResults && IsToolResultMessage(m)
    requires exists j :: 0 <= j < |Body(m).items| && AnswersToolUse(Body(m).items[j])
    requires forall j :: 0 <= j < |Body(m).items| && AnswersToolUse(Body(m).items[j]) ==>
      exists i :: 0 <= i < |ms| && UsesTool(ms[i], Body(m).items[j].toolUseId)
    ensures m !in SmartFilterMessages(ms, opts)
  {
    var widgets := WidgetToolIds(ms);
    assert ShouldDeduplicateToolResult(m, widgets);
  }

  /** Why the statistics count a hidden message, checked in the filter's order. */
  datatype FilterReason = MetaReason | EmptyUserReason | DuplicateReason | CustomReason

  /** The first rule a message fails, if any. */
  function Reason(m: Message, opts: FilterOptions): (r: Option<FilterReason>)
    ensures r.None? <==> Keep(m, opts)
  {
    if opts.hideMeta && IsBareMeta(m) then Some(MetaReason)
    else if opts.hideEmptyUser && IsEmptyUserMessage(m) then Some(EmptyUserReason)
    else if opts.deduplicateToolResults && ShouldDeduplicateToolResult(m, opts.toolsWithWidgets) then Some(DuplicateReason)
    else if opts.customFilter.Some? && !opts.customFilter.value(m) then Some(CustomReason)
    else None
  }

  /** A message missing from the displayed list (by identity) and hidden for `reason`. */
  function BucketFn(displayed: seq<Message>, opts: FilterOptions, reason: FilterReason): Message -> bool {
    (m: Message) => !HasRef(displayed, m.ref) && Reason(m, opts) == Some(reason)
  }

  datatype FilterStats = FilterStats(
    total: nat,
    displayed: nat,
    filtered: int,
    meta: nat,
    emptyUser: nat,
    duplicateToolResult: nat,
    custom: nat)

  /** `getFilterStats`: the sizes, and one pass counting each missing message under its first failed rule. */
  method GetFilterStats(ms: seq<Message>, displayed: seq<Message>, opts: FilterOptions) returns (stats: FilterStats)
    ensures stats.total == |ms| && stats.displayed == |displayed| && stats.filtered == |ms| - |displayed|
    ensures stats.meta == Count(ms, BucketFn(displayed, opts, MetaReason))
    ensures stats.emptyUser == Count(ms, BucketFn(displayed, opts, EmptyUserReason))
    ensures stats.duplicateToolResult == Count(ms, BucketFn(displayed, opts, DuplicateReason))
    ensures stats.custom == Count(ms, BucketFn(displayed, opts, CustomReason))
  {
    var meta, emptyUser, duplicate, custom := 0, 0, 0, 0;
    var i := 0;
    while i < |ms|
      invariant 0 <= i <= |ms|
      invariant meta == Count(ms[..i], BucketFn(displayed, opts, MetaReason))
      invariant emptyUser == Count(ms[..i], BucketFn(displayed, opts, EmptyUserReason))
      invariant duplicate == Count(ms[..i], BucketFn(displayed, opts, DuplicateReason))
      invariant custom == Count(ms[..i], BucketFn(displayed, opts, CustomReason))
    {
      assert ms[..i + 1][..i] == ms[..i];
      var m := ms[i];
      var isDisplayed := exists k :: 0 <= k < |displayed| && displayed[k].ref == m.ref;
      if !isDisplayed {
        if opts.hideMeta && IsBareMeta(m) {
          meta := meta + 1;
        } else if opts.hideEmptyUser && IsEmptyUserMessage(m) {
          emptyUser := emptyUser + 1;
        } else if opts.deduplicateToolResults && ShouldDeduplicateToolResult(m, opts.toolsWithWidgets) {
          duplicate := duplicate + 1;
        } else if opts.customFilter.Some? && !opts.customFilter.value(m) {
          custom := custom + 1;
        }
      }
      i := i + 1;
    }
    assert ms[..i] == ms;
    stats := FilterStats(|ms|, |displayed|, |ms| - |displayed|, meta, emptyUser, duplicate, custom);
  }

  /** When no two messages are the same object, a message is displayed exactly when it passes. */
  lemma ShownIffKept(ms: seq<Message>, opts: FilterOptions, j: nat)
    requires DistinctRefs(ms) && j < |ms|
    ensures HasRef(FilterDisplayableMessages(ms, opts), ms[j].ref) <==> Keep(ms[j], opts)
  {
    var d := FilterDisplayableMessages(ms, opts);
    if Keep(ms[j], opts) {
      assert ms[j] in d;
      var i :| 0 <= i < |d| && d[i] == ms[j];
    }
    if HasRef(d, ms[j].ref) {
      var i :| 0 <= i < |d| && d[i].ref == ms[j].ref;
      assert d[i] in d;
      var q :| 0 <= q < |ms| && ms[q] == d[i];
    }
  }

  /** Over messages whose display matches the rules, the four buckets count exactly the rejected ones. */
  lemma {:induction false} BucketsCountRejected(t: seq<Message>, displayed: seq<Message>, opts: FilterOptions)
    requires forall j :: 0 <= j < |t| ==> (HasRef(displayed, t[j].ref) <==> Keep(t[j], opts))
    ensures Count(t, BucketFn(displayed, opts, MetaReason)) + Count(t, BucketFn(displayed, opts, EmptyUserReason))
      + Count(t, BucketFn(displayed, opts, DuplicateReason)) + Count(t, BucketFn(displayed, opts, CustomReason))
      == Count(t, RejectFn(opts))
  {
    if t != [] {
      BucketsCountRejected(t[..|t| - 1], displayed, opts);
    }
  }

  /**
   * Statistics of the filter's own output: each hidden message is counted under exactly one
   * reason, so the four buckets add up to the number filtered out.
   */
  lemma StatsBucketsAddUp(ms: seq<Message>, opts: FilterOptions)
    requires DistinctRefs(ms)
    ensures var d := FilterDisplayableMessages(ms, opts);
      Count(ms, BucketFn(d, opts, MetaReason)) + Count(ms, BucketFn(d, opts, EmptyUserReason))
      + Count(ms, BucketFn(d, opts, DuplicateReason)) + Count(ms, BucketFn(d, opts, CustomReason))
      == |ms| - |d|
  {
    var d := FilterDisplayableMessages(ms, opts);
    forall j | 0 <= j < |ms| ensures HasRef(d, ms[j].ref) <==> Keep(ms[j], opts) {
      ShownIffKept(ms, opts, j);
    }
    BucketsCountRejected(ms, d, opts);
    FilterLength(ms, KeepFn(opts));
    CountSplit(ms, KeepFn(opts), RejectFn(opts));
  }
}
