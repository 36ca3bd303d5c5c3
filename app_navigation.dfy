/**
 * The app shell's navigation (src/App.tsx): the current view, the view before it, a history
 * stack used by the "back" buttons, and the confirmation step that guards leaving a Claude
 * session while it is streaming. The component's state is a class; the pure functions below
 * specify its handlers.
 */
module AppNavigation {
  import opened Base
  import opened Text

  datatype View =
    | Projects | Editor | ClaudeFileEditor | ClaudeCodeSession | ClaudeTabManager
    | Settings | Mcp | UsageDashboard | ProjectSettings | EnhancedHooksManager

  /** The navigation state: view, previous view, history stack, pending view and whether the confirm dialog shows. */
  datatype Nav = Nav(view: View, previousView: View, history: seq<View>, pendingView: Option<View>, showConfirm: bool)

  /** The state at start-up. */
  const Initial: Nav := Nav(Projects, Projects, [Projects], None, false)

  /** The history stack is never empty, starts with the projects view, and never repeats an entry twice in a row. */
  predicate WellFormed(h: seq<View>) {
    |h| >= 1 && h[0] == Projects && forall i :: 0 < i < |h| ==> h[i - 1] != h[i]
  }

  /** Leaving the session view while Claude streams into an active session must be confirmed. */
  predicate Guarded(view: View, streaming: bool, activeSessionId: Option<string>) {
    view == ClaudeCodeSession && streaming && activeSessionId.Some? && activeSessionId.value != ""
  }

  /** `handleViewChange`. */
  function ViewChange(n: Nav, newView: View, streaming: bool, activeSessionId: Option<string>): (r: Nav)
    ensures Guarded(n.view, streaming, activeSessionId) ==>
              r == n.(pendingView := Some(newView), showConfirm := true)
    ensures !Guarded(n.view, streaming, activeSessionId) ==>
              r.view == newView && r.previousView == n.view
              && r.pendingView == n.pendingView && r.showConfirm == n.showConfirm
              && r.history != [] && Last(r.history) == n.view
              && (r.history == n.history || r.history == n.history + [n.view])
  {
    if Guarded(n.view, streaming, activeSessionId) then
      n.(pendingView := Some(newView), showConfirm := true)
    else
      var h := if n.history == [] || Last(n.history) != n.view then n.history + [n.view] else n.history;
      n.(history := h, previousView := n.view, view := newView)
  }

  /** `handleSmartBack` as written: it drops the top of the history and shows the entry below it. */
  function SmartBack(n: Nav): (r: Nav)
    ensures |n.history| > 1 ==> r.history + [Last(n.history)] == n.history && r.view == Last(r.history)
    ensures |n.history| <= 1 ==> r.history == n.history && r.view == Projects
    ensures r.previousView == n.previousView && r.pendingView == n.pendingView && r.showConfirm == n.showConfirm
  {
    if |n.history| > 1 then
      var h := n.history[..|n.history| - 1];
      assert h + [Last(n.history)] == n.history;
      n.(history := h, view := Last(h))
    else n.(view := Projects)
  }

  /**
   * `handleSmartBack` as its comments describe it: the top of the history is the view to return
   * to. With only the start entry left, it returns to the projects view.
   */
  function SmartBackIntended(n: Nav): (r: Nav)
    ensures |n.history| > 1 ==> r.history + [r.view] == n.history
    ensures |n.history| <= 1 ==> r.history == n.history && r.view == Projects
  {
    if |n.history| > 1 then
      var h := n.history[..|n.history| - 1];
      assert h + [Last(n.history)] == n.history;
      n.(history := h, view := Last(n.history))
    else n.(view := Projects)
  }

  /** `handleNavigationConfirm`: switches to the pending view, if any, without touching the history. */
  function Confirm(n: Nav): (r: Nav)
    ensures r.pendingView == None && !r.showConfirm
    ensures r.view == (if n.pendingView.Some? then n.pendingView.value else n.view)
    ensures r.history == n.history && r.previousView == n.previousView
  {
    match n.pendingView
    case Some(v) => n.(view := v, pendingView := None, showConfirm := false)
    case None => n.(showConfirm := false)
  }

  /** `handleNavigationCancel`: stays where it is. */
  function Cancel(n: Nav): (r: Nav)
    ensures r.pendingView == None && !r.showConfirm
    ensures r.view == n.view && r.history == n.history && r.previousView == n.previousView
  {
    n.(pendingView := None, showConfirm := false)
  }

  /** Leaving a view keeps the history well formed. */
  lemma ViewChangeKeepsHistory(n: Nav, v: View, streaming: bool, activeSessionId: Option<string>)
    requires WellFormed(n.history)
    ensures WellFormed(ViewChange(n, v, streaming, activeSessionId).history)
  {
    var r := ViewChange(n, v, streaming, activeSessionId);
    if r.history != n.history {
      assert r.history == n.history + [n.view];
      forall i | 0 < i < |r.history|
        ensures r.history[i - 1] != r.history[i]
      {
        if i == |n.history| {
          assert r.history[i - 1] == Last(n.history);
        } else {
          assert r.history[i - 1] == n.history[i - 1] && r.history[i] == n.history[i];
        }
      }
    }
  }

  /** Dropping the top of a history with more than one entry keeps it well formed. */
  lemma PopKeepsHistory(h: seq<View>)
    requires WellFormed(h) && |h| > 1
    ensures WellFormed(h[..|h| - 1])
  {
    var g := h[..|h| - 1];
    assert forall i :: 0 <= i < |g| ==> g[i] == h[i];
  }

  /** Every handler keeps the history well formed. */
  lemma HandlersKeepHistory(n: Nav, v: View, streaming: bool, activeSessionId: Option<string>)
    requires WellFormed(n.history)
    ensures WellFormed(ViewChange(n, v, streaming, activeSessionId).history)
    ensures WellFormed(SmartBack(n).history) && WellFormed(SmartBackIntended(n).history)
    ensures WellFormed(Confirm(n).history) && WellFormed(Cancel(n).history)
  {
    ViewChangeKeepsHistory(n, v, streaming, activeSessionId);
    if |n.history| > 1 {
      PopKeepsHistory(n.history);
    }
  }

  /** The view the as-written back button shows after `view` was left for `v`: the one before `view`. */
  lemma {:induction false} SmartBackSkipsAView(n: Nav, v: View)
    requires WellFormed(n.history) && Last(n.history) != n.view
    ensures SmartBack(ViewChange(n, v, false, None)).view == Last(n.history) != n.view
  {
    var r := ViewChange(n, v, false, None);
    assert r.history == n.history + [n.view];
    assert r.history[..|r.history| - 1] == n.history;
  }

  /** projects, then settings, then MCP: the back button of the MCP view leads to the projects view, not settings. */
  lemma SmartBackFromMcp()
    ensures var n := ViewChange(ViewChange(Initial, Settings, false, None), Mcp, false, None);
      n.view == Mcp && n.previousView == Settings && SmartBack(n).view == Projects
  {
    var n1 := ViewChange(Initial, Settings, false, None);
    assert n1.history == [Projects] && n1.view == Settings;
    SmartBackSkipsAView(n1, Mcp);
  }

  /** With the intended reading, "back" right after leaving a view returns to it. */
  lemma {:induction false} BackUndoesViewChange(n: Nav, v: View, streaming: bool, activeSessionId: Option<string>)
    requires WellFormed(n.history) && !Guarded(n.view, streaming, activeSessionId)
    ensures SmartBackIntended(ViewChange(n, v, streaming, activeSessionId)).view == n.view
  {
    var r := ViewChange(n, v, streaming, activeSessionId);
    if r.history == n.history && |n.history| <= 1 {
      assert n.history == [Projects];
    }
  }

  predicate IsAsciiAlnum(c: char) {
    ('a' <= c <= 'z') || ('A' <= c <= 'Z') || ('0' <= c <= '9')
  }

  /** `path.replace(/[^a-zA-Z0-9]/g, '-')`, the id given to a project opened by its path. */
  function ProjectId(path: string): (id: string)
    ensures |id| == |path|
    ensures forall i :: 0 <= i < |path| ==> id[i] == (if IsAsciiAlnum(path[i]) then path[i] else '-')
  {
    seq(|path|, i requires 0 <= i < |path| => if IsAsciiAlnum(path[i]) then path[i] else '-')
  }

  /** A project id consists of ASCII letters, digits and dashes, and is its own project id. */
  lemma ProjectIdIsNormal(path: string)
    ensures forall i :: 0 <= i < |path| ==> IsAsciiAlnum(ProjectId(path)[i]) || ProjectId(path)[i] == '-'
    ensures ProjectId(ProjectId(path)) == ProjectId(path)
  {
    var id := ProjectId(path);
    assert forall i :: 0 <= i < |id| ==> ProjectId(id)[i] == id[i];
  }

  /** Paths that differ only in their separators and punctuation get the same id. */
  lemma {:induction false} ProjectIdCollides()
    ensures ProjectId("/a/b") == ProjectId("-a.b") == "-a-b"
  {
    assert ProjectId("/a/b") == "-a-b";
    assert ProjectId("-a.b") == "-a-b";
  }

  class App {
    var view: View
    var previousView: View
    var navigationHistory: seq<View>
    var pendingView: Option<View>
    var showNavigationConfirm: bool
    /** Set by the session view: whether Claude is streaming, and into which session. */
    var isClaudeStreaming: bool
    var activeClaudeSessionId: Option<string>

    function State(): Nav
      reads this
    {
      Nav(view, previousView, navigationHistory, pendingView, showNavigationConfirm)
    }

    ghost predicate Valid()
      reads this
    {
      WellFormed(navigationHistory)
    }

    constructor()
      ensures Valid() && State() == Initial
      ensures !isClaudeStreaming && activeClaudeSessionId == None
    {
      view := Projects;
      previousView := Projects;
      navigationHistory := [Projects];
      pendingView := None;
      showNavigationConfirm := false;
      isClaudeStreaming := false;
      activeClaudeSessionId := None;
    }

    method HandleViewChange(newView: View)
      requires Valid()
      modifies this
      ensures Valid()
      ensures State() == ViewChange(old(State()), newView, isClaudeStreaming, activeClaudeSessionId)
      ensures isClaudeStreaming == old(isClaudeStreaming) && activeClaudeSessionId == old(activeClaudeSessionId)
    {
      ViewChangeKeepsHistory(State(), newView, isClaudeStreaming, activeClaudeSessionId);
      if view == ClaudeCodeSession && isClaudeStreaming && activeClaudeSessionId.Some? && activeClaudeSessionId.value != "" {
        pendingView := Some(newView);
        showNavigationConfirm := true;
        return;
      }
      if navigationHistory == [] || navigationHistory[|navigationHistory| - 1] != view {
        navigationHistory := navigationHistory + [view];
      }
      previousView := view;
      view := newView;
    }

    method HandleSmartBack() returns (shown: View)
      requires Valid()
      modifies this
      ensures Valid()
      ensures State() == SmartBack(old(State())) && shown == view
      ensures isClaudeStreaming == old(isClaudeStreaming) && activeClaudeSessionId == old(activeClaudeSessionId)
    {
      if |navigationHistory| > 1 {
        PopKeepsHistory(navigationHistory);
        var newHistory := navigationHistory;
        newHistory := newHistory[..|newHistory| - 1];
        var previous := newHistory[|newHistory| - 1];
        navigationHistory := newHistory;
        view := previous;
        return previous;
      }
      view := Projects;
      return Projects;
    }

    method HandleNavigationConfirm()
      requires Valid()
      modifies this
      ensures Valid()
      ensures State() == Confirm(old(State()))
      ensures isClaudeStreaming == old(isClaudeStreaming) && activeClaudeSessionId == old(activeClaudeSessionId)
    {
      if pendingView.Some? {
        view := pendingView.value;
        pendingView := None;
      }
      showNavigationConfirm := false;
    }

    method HandleNavigationCancel()
      requires Valid()
      modifies this
      ensures Valid()
      ensures State() == Cancel(old(State()))
      ensures isClaudeStreaming == old(isClaudeStreaming) && activeClaudeSessionId == old(activeClaudeSessionId)
    {
      pendingView := None;
      showNavigationConfirm := false;
    }
  }
}
