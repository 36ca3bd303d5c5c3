/**
 * The group of tool calls one assistant message makes (src/components/message/ToolCallsGroup.tsx):
 * which items of the message are tool calls, whether the group starts collapsed, the tally of
 * their statuses shown as badges, the summary of the tool names, and the collapsed summary.
 */
module ToolCallsGroup {
  import opened Base
  import opened Text
  import opened Messages
  import opened Seqs

  /** What the tool-result store reports for a call. */
  datatype ToolStatus = Pending | Success | Error

  /** The `id` of a call (an item without one has the id ""). */
  function CallId(c: Segment): string {
    if c.Item? then c.id else ""
  }

  /** The `name` of a call; `None` stands for a missing name (`undefined`). */
  function CallName(c: Segment): Option<string> {
    if c.Item? then c.name else None
  }

  /**
   * The tool calls of a message: the `tool_use` items of an array-valued content, in order, and
   * none when the content is absent or not an array.
   */
  function ToolCalls(m: Message): (calls: seq<Segment>)
    ensures forall k :: 0 <= k < |calls| ==> IsToolUse(calls[k])
    ensures Body(m).Parts? ==> forall x :: x in calls <==> x in Body(m).items && IsToolUse(x)
    ensures Body(m).Parts? ==> IsSubsequence(calls, Body(m).items)
    ensures !Body(m).Parts? ==> calls == []
  {
    match Body(m)
    case Parts(items) =>
      FilterIsSubsequence(items, IsToolUse);
      Filter(items, IsToolUse)
    case _ => []
  }

  /** The threshold used when the caller gives none. */
  const DefaultCollapseThreshold: int := 3

  /** `defaultCollapsed ?? toolCalls.length >= collapseThreshold`: an explicit choice wins. */
  function InitiallyCollapsed(defaultCollapsed: Option<bool>, count: nat, collapseThreshold: int): (collapsed: bool)
    ensures defaultCollapsed.Some? ==> collapsed == defaultCollapsed.value
    ensures defaultCollapsed.None? ==> (collapsed <==> count >= collapseThreshold)
  {
    match defaultCollapsed
    case Some(b) => b
    case None => count >= collapseThreshold
  }

  /** The counts behind the status badges. */
  datatype Stats = Stats(successCount: nat, errorCount: nat, pendingCount: nat, total: nat)

  /** The count a badge of the given status shows. */
  function CountOf(stats: Stats, s: ToolStatus): nat {
    match s
    case Pending => stats.pendingCount
    case Error => stats.errorCount
    case Success => stats.successCount
  }

  /** The tally of the calls' statuses, one call at a time. */
  function Tally(calls: seq<Segment>, status: string -> ToolStatus): (stats: Stats)
    ensures stats.total == |calls|
  {
    if calls == [] then Stats(0, 0, 0, 0)
    else
      var t := Tally(calls[..|calls| - 1], status);
      match status(CallId(calls[|calls| - 1]))
      case Pending => t.(pendingCount := t.pendingCount + 1, total := t.total + 1)
      case Error => t.(errorCount := t.errorCount + 1, total := t.total + 1)
      case Success => t.(successCount := t.successCount + 1, total := t.total + 1)
  }

  /** Every call is counted exactly once. */
  lemma {:induction false} TallyAddsUp(calls: seq<Segment>, status: string -> ToolStatus)
    ensures var t := Tally(calls, status); t.successCount + t.errorCount + t.pendingCount == t.total
  {
    if calls != [] {
      TallyAddsUp(calls[..|calls| - 1], status);
    }
  }

  /** A badge shows (its count is positive) exactly when some call has its status. */
  lemma {:induction false} TallyBadge(calls: seq<Segment>, status: string -> ToolStatus, s: ToolStatus)
    ensures CountOf(Tally(calls, status), s) > 0 <==> exists k :: 0 <= k < |calls| && status(CallId(calls[k])) == s
  {
    if calls != [] {
      var front := calls[..|calls| - 1];
      TallyBadge(front, status, s);
      if exists k :: 0 <= k < |front| && status(CallId(front[k])) == s {
        var k :| 0 <= k < |front| && status(CallId(front[k])) == s;
        assert calls[k] == front[k];
      }
      if exists k :: 0 <= k < |calls| && status(CallId(calls[k])) == s {
        var k :| 0 <= k < |calls| && status(CallId(calls[k])) == s;
        if k < |front| {
          assert front[k] == calls[k];
        }
      }
    }
  }

  /** The `forEach` loop that counts the statuses. */
  method ComputeStats(calls: seq<Segment>, status: string -> ToolStatus) returns (stats: Stats)
    ensures stats == Tally(calls, status)
    ensures stats.successCount + stats.errorCount + stats.pendingCount == stats.total == |calls|
  {
    var successCount, errorCount, pendingCount := 0, 0, 0;
    for i := 0 to |calls|
      invariant Stats(successCount, errorCount, pendingCount, i) == Tally(calls[..i], status)
    {
      assert calls[..i + 1][..i] == calls[..i];
      var st := status(CallId(calls[i]));
      if st == Pending {
        pendingCount := pendingCount + 1;
      } else if st == Error {
        errorCount := errorCount + 1;
      } else {
        successCount := successCount + 1;
      }
    }
    assert calls[..|calls|] == calls;
    stats := Stats(successCount, errorCount, pendingCount, |calls|);
    TallyAddsUp(calls, status);
  }

  /** How a name shows in `join`: `undefined` becomes the empty string. */
  function Shown(name: Option<string>): string {
    match name
    case Some(s) => s
    case None => ""
  }

  /** The tool names in the summary (at most three) and how many more distinct names there are. */
  function SummaryParts(calls: seq<Segment>): (parts: (seq<Option<string>>, nat))
    ensures var names := Distinct(seq(|calls|, k requires 0 <= k < |calls| => CallName(calls[k])));
      && |parts.0| == (if |names| <= 3 then |names| else 3)
      && parts.0 == names[..|parts.0|]
      && |parts.0| + parts.1 == |names|
  {
    var names := Distinct(seq(|calls|, k requires 0 <= k < |calls| => CallName(calls[k])));
    if |names| <= 3 then (names, 0) else (names[..3], |names| - 3)
  }

  /** The names as `join` writes them. */
  function ShownNames(names: seq<Option<string>>): (r: seq<string>)
    ensures |r| == |names| && forall k :: 0 <= k < |names| ==> r[k] == Shown(names[k])
  {
    seq(|names|, k requires 0 <= k < |names| => Shown(names[k]))
  }

  /** `toolTypesSummary`: up to three names joined with ", ", then " +n" for the `n` names left out. */
  function ToolTypesSummary(calls: seq<Segment>): (summary: string)
    ensures StartsWith(summary, Join(ShownNames(SummaryParts(calls).0), ", "))
    ensures SummaryParts(calls).1 == 0 ==> summary == Join(ShownNames(SummaryParts(calls).0), ", ")
    ensures SummaryParts(calls).1 > 0 ==> EndsWith(summary, " +" + NatToString(SummaryParts(calls).1))
  {
    var parts := SummaryParts(calls);
    var joined := Join(ShownNames(parts.0), ", ");
    if parts.1 == 0 then
      assert joined[..|joined|] == joined;
      joined
    else
      var tail := " +" + NatToString(parts.1);
      assert (joined + tail)[|joined|..] == tail;
      assert (joined + tail)[..|joined|] == joined;
      joined + tail
  }

  /** What the component renders: nothing, the one call on its own, or the collapsible group. */
  datatype Layout = Hidden | Single(call: Segment) | Group

  function LayoutOf(calls: seq<Segment>): (l: Layout)
    ensures l == Hidden <==> calls == []
    ensures l.Single? <==> |calls| == 1
    ensures l.Single? ==> l.call == calls[0]
    ensures l == Group <==> |calls| >= 2
  {
    if |calls| == 0 then Hidden
    else if |calls| == 1 then Single(calls[0])
    else Group
  }

  /** The status icon of a line of the collapsed summary. */
  datatype Icon = Spinner | AlertIcon | CheckIcon

  /** A call without a result spins; one with a result shows an alert if it failed and a check otherwise. */
  function IconOf(status: ToolStatus): (icon: Icon)
    ensures icon == Spinner <==> status == Pending
    ensures icon == AlertIcon <==> status == Error
    ensures icon == CheckIcon <==> status == Success
  {
    var hasResult := status != Pending;
    var isError := status == Error;
    if hasResult then (if isError then AlertIcon else CheckIcon) else Spinner
  }

  /**
   * The collapsed summary: a line (name and icon) for each of the first three calls, and the
   * number of calls beyond those when there are more than three.
   */
  function CollapsedSummary(calls: seq<Segment>, status: string -> ToolStatus): (s: (seq<(Option<string>, Icon)>, Option<nat>))
    ensures |s.0| == (if |calls| <= 3 then |calls| else 3)
    ensures forall k :: 0 <= k < |s.0| ==> s.0[k] == (CallName(calls[k]), IconOf(status(CallId(calls[k]))))
    ensures s.1.Some? <==> |calls| > 3
    ensures s.1.Some? ==> |s.0| + s.1.value == |calls|
  {
    var shown := if |calls| <= 3 then calls else calls[..3];
    var lines := seq(|shown|, k requires 0 <= k < |shown| => (CallName(shown[k]), IconOf(status(CallId(shown[k])))));
    (lines, if |calls| > 3 then Some(|calls| - 3) else None)
  }

  /** The component's own state: the calls it shows and whether the group is collapsed. */
  class ToolCallsGroupView {
    const toolCalls: seq<Segment>
    var isCollapsed: bool
    /** The values handed to `onToggle`, in order. */
    var toggles: seq<bool>

    constructor(message: Message, defaultCollapsed: Option<bool>, collapseThreshold: int)
      ensures toolCalls == ToolCalls(message)
      ensures isCollapsed == InitiallyCollapsed(defaultCollapsed, |toolCalls|, collapseThreshold)
      ensures toggles == []
    {
      toolCalls := ToolCalls(message);
      isCollapsed := InitiallyCollapsed(defaultCollapsed, |ToolCalls(message)|, collapseThreshold);
      toggles := [];
    }

    /** `toggleCollapse`: flips the state and reports the new one. */
    method ToggleCollapse()
      modifies this
      ensures isCollapsed == !old(isCollapsed)
      ensures toggles == old(toggles) + [isCollapsed]
    {
      var newState := !isCollapsed;
      isCollapsed := newState;
      toggles := toggles + [newState];
    }
  }
}
