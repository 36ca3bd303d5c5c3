/**
 * The recent-sessions panel (src/components/RecentSessions.tsx): the scan of the first sessions
 * of the first projects, each extended with what its history yields, the newest twenty of them,
 * the search over them, the collapsed view of six, and the favourites.
 */
module RecentSessions {
  import opened Base
  import opened Text
  import opened Seqs
  import opened Messages
  import opened Sorting
  import opened Sessions
  import E = EnhancedSessionList

  /** How many projects the scan visits, how many sessions of each, and how many results it keeps. */
  const ProjectsScanned: nat := 10
  const SessionsPerProject: nat := 5
  const MaxRecent: nat := 20
  /** How many sessions the collapsed panel shows. */
  const CollapsedCount: nat := 6

  /** A session with what its history yields; the optional fields are absent when the history did not load. */
  datatype ExtendedSession = ExtendedSession(
    session: Session,
    isFavorite: Option<bool>,
    messageCount: Option<nat>,
    lastActivity: Option<string>,
    summary: Option<string>)

  /** A session whose history could not be loaded. */
  function Plain(s: Session): ExtendedSession {
    ExtendedSession(s, None, None, None, None)
  }

  /**
   * A session extended with its loaded history: the number of user and assistant entries, the
   * `timestamp` (else `receivedAt`) of the last entry of the whole history, and a summary of at
   * most 100 characters.
   */
  function Extend(s: Session, history: seq<Entry>): (e: ExtendedSession)
    ensures e.session == s && e.isFavorite.None?
    ensures e.messageCount == Some(Count(history, E.IsConversational))
    ensures history == [] ==> e.lastActivity.None?
    ensures history != [] && Present(Last(history).timestamp) ==> e.lastActivity == Last(history).timestamp
    ensures history != [] && !Present(Last(history).timestamp) ==> e.lastActivity == Last(history).receivedAt
    ensures e.summary.Some? && |e.summary.value| <= 100
  {
    FilterLength(history, E.IsConversational);
    ExtendedSession(s, None, Some(|Filter(history, E.IsConversational)|), E.LastActivity(history), Some(Summary(history, 100, true)))
  }

  /** The entry the scan pushes for a session: extended when `load` gives its history, plain when loading fails. */
  function Loaded(s: Session, load: Session -> Option<seq<Entry>>): (e: ExtendedSession)
    ensures e.session == s && e.isFavorite.None?
    ensures e.messageCount.Some? <==> load(s).Some?
    ensures load(s).Some? ==> e.messageCount == Some(Count(load(s).value, E.IsConversational))
    ensures load(s).None? ==> e == Plain(s)
  {
    match load(s)
    case Some(history) => Extend(s, history)
    case None => Plain(s)
  }

  /** The sessions visited: the first five of each of the first ten projects. */
  function Scanned(projects: seq<Project>): seq<Session> {
    FirstSessions(Take(projects, ProjectsScanned), SessionsPerProject)
  }

  /** The scan visits at most fifty sessions, each among the first five of one of the first ten projects. */
  lemma ScannedBound(projects: seq<Project>)
    ensures |Scanned(projects)| <= ProjectsScanned * SessionsPerProject
    ensures forall x :: x in Scanned(projects) <==>
              exists k :: 0 <= k < |projects| && k < ProjectsScanned && x in Take(projects[k].sessions, SessionsPerProject)
  {
    var ps := Take(projects, ProjectsScanned);
    FirstSessionsLength(ps, SessionsPerProject);
    FirstSessionsMembers(ps, SessionsPerProject);
    assert forall k :: 0 <= k < |ps| ==> ps[k] == projects[k];
  }

  /** The entries pushed for some sessions, in the same order. */
  function LoadAll(sessions: seq<Session>, load: Session -> Option<seq<Entry>>): (r: seq<ExtendedSession>)
    ensures |r| == |sessions|
    ensures forall k :: 0 <= k < |r| ==> r[k] == Loaded(sessions[k], load)
  {
    if sessions == [] then []
    else LoadAll(sessions[..|sessions| - 1], load) + [Loaded(Last(sessions), load)]
  }

  /** Visiting one more session pushes one more entry. */
  lemma LoadAllAppend(sessions: seq<Session>, s: Session, load: Session -> Option<seq<Entry>>)
    ensures LoadAll(sessions + [s], load) == LoadAll(sessions, load) + [Loaded(s, load)]
  {
    assert (sessions + [s])[..|sessions|] == sessions;
  }

  /** Visiting two runs of sessions pushes the entries of one, then of the other. */
  lemma LoadAllConcat(a: seq<Session>, b: seq<Session>, load: Session -> Option<seq<Entry>>)
    ensures LoadAll(a + b, load) == LoadAll(a, load) + LoadAll(b, load)
  {
    var l, r := LoadAll(a + b, load), LoadAll(a, load) + LoadAll(b, load);
    assert forall k :: 0 <= k < |l| ==> l[k] == r[k];
  }

  /** The comparator's time: the last activity in milliseconds, else the creation time (in seconds). */
  function Key(e: ExtendedSession, dateMs: string -> int): int {
    ActivityKeyAsWritten(e.lastActivity, e.session.createdAt, dateMs)
  }

  /** `timeB - timeA` as a rank: the newest first. */
  function NewestFirst(dateMs: string -> int): ExtendedSession -> int {
    e => -Key(e, dateMs)
  }

  /** What the load keeps: the twenty newest of the scanned sessions. */
  function RecentFrom(projects: seq<Project>, load: Session -> Option<seq<Entry>>, dateMs: string -> int): seq<ExtendedSession> {
    Take(SortBy(LoadAll(Scanned(projects), load), NewestFirst(dateMs)), MaxRecent)
  }

  /** The scan appends one entry per visited session, then sorts by activity and keeps twenty. */
  method LoadRecentSessions(projects: seq<Project>, load: Session -> Option<seq<Entry>>, dateMs: string -> int)
    returns (recent: seq<ExtendedSession>)
    ensures recent == RecentFrom(projects, load, dateMs)
  {
    var ps := Take(projects, ProjectsScanned);
    var allSessions: seq<ExtendedSession> := [];
    for i := 0 to |ps|
      invariant allSessions == LoadAll(FirstSessions(ps[..i], SessionsPerProject), load)
    {
      var ss := Take(ps[i].sessions, SessionsPerProject);
      allSessions := PushSessions(allSessions, ss, load);
      LoadAllConcat(FirstSessions(ps[..i], SessionsPerProject), ss, load);
      FirstSessionsStep(ps, SessionsPerProject, i);
    }
    assert ps[..|ps|] == ps;
    var sorted := SortBy(allSessions, NewestFirst(dateMs));
    recent := Take(sorted, MaxRecent);
  }

  /** The inner loop of the scan: one entry pushed per session of a project, loaded or plain. */
  method PushSessions(allSessions: seq<ExtendedSession>, ss: seq<Session>, load: Session -> Option<seq<Entry>>)
    returns (r: seq<ExtendedSession>)
    ensures r == allSessions + LoadAll(ss, load)
  {
    r := allSessions;
    for j := 0 to |ss|
      invariant r == allSessions + LoadAll(ss[..j], load)
    {
      var session := ss[j];
      var pushed: ExtendedSession;
      match load(session) {
        case Some(history) => pushed := Extend(session, history);
        case None => pushed := Plain(session);
      }
      LoadAllAppend(ss[..j], session, load);
      PrefixSnoc(ss, j);
      r := r + [pushed];
    }
    assert ss[..|ss|] == ss;
  }

  /** The load keeps at most twenty entries, newest first, taken from the scanned sessions' entries. */
  lemma RecentOrder(projects: seq<Project>, load: Session -> Option<seq<Entry>>, dateMs: string -> int)
    ensures var recent := RecentFrom(projects, load, dateMs);
      var all := LoadAll(Scanned(projects), load);
      && |recent| <= MaxRecent
      && multiset(recent) <= multiset(all)
      && (|all| <= MaxRecent ==> multiset(recent) == multiset(all))
      && (forall i, j :: 0 <= i < j < |recent| ==> Key(recent[i], dateMs) >= Key(recent[j], dateMs))
  {
    var all := LoadAll(Scanned(projects), load);
    var rank := NewestFirst(dateMs);
    var sorted := SortBy(all, rank);
    var recent := RecentFrom(projects, load, dateMs);
    SortBySorts(all, rank);
    assert forall i, j :: 0 <= i < j < |recent| ==> rank(recent[i]) <= rank(recent[j]);
    assert sorted == recent + sorted[|recent|..];
    assert multiset(sorted) == multiset(recent) + multiset(sorted[|recent|..]);
  }

  /** None of the entries the load drops is newer than one it keeps. */
  lemma RecentAreNewest(projects: seq<Project>, load: Session -> Option<seq<Entry>>, dateMs: string -> int)
    ensures var recent := RecentFrom(projects, load, dateMs);
      var all := LoadAll(Scanned(projects), load);
      forall x, y :: x in recent && y in multiset(all) - multiset(recent) ==> Key(y, dateMs) <= Key(x, dateMs)
  {
    var all := LoadAll(Scanned(projects), load);
    var rank := NewestFirst(dateMs);
    var sorted := SortBy(all, rank);
    SortBySorts(all, rank);
    PrefixHoldsLowestRanks(sorted, rank, |RecentFrom(projects, load, dateMs)|);
  }

  /** Every entry the load keeps is for a session among the first five of one of the first ten projects. */
  lemma RecentAreScanned(projects: seq<Project>, load: Session -> Option<seq<Entry>>, dateMs: string -> int)
    ensures forall e :: e in RecentFrom(projects, load, dateMs) ==>
              exists k :: 0 <= k < |projects| && k < ProjectsScanned && e.session in Take(projects[k].sessions, SessionsPerProject)
  {
    var all := LoadAll(Scanned(projects), load);
    var sorted := SortBy(all, NewestFirst(dateMs));
    ScannedBound(projects);
    forall e | e in RecentFrom(projects, load, dateMs)
      ensures e.session in Scanned(projects)
    {
      assert e in multiset(sorted);
      assert e in all;
      var k :| 0 <= k < |all| && all[k] == e;
    }
  }

  /** The search: the first message, the project path or the summary contains the lower-cased query. */
  predicate Matches(e: ExtendedSession, query: string) {
    || FieldMatches(e.session.firstMessage, query)
    || Contains(ToLower(e.session.projectPath), query)
    || FieldMatches(e.summary, query)
  }

  /** `filteredSessions`: every session for an empty query, else those the search matches, in order. */
  function Search(sessions: seq<ExtendedSession>, searchQuery: string): (r: seq<ExtendedSession>)
    ensures searchQuery == "" ==> r == sessions
    ensures searchQuery != "" ==> forall x :: x in r <==> x in sessions && Matches(x, ToLower(searchQuery))
    ensures IsSubsequence(r, sessions)
  {
    if searchQuery == "" then
      assert Embeds(seq(|sessions|, k requires 0 <= k < |sessions| => k), sessions, sessions);
      sessions
    else
      var query := ToLower(searchQuery);
      FilterIsSubsequence(sessions, e => Matches(e, query));
      Filter(sessions, e => Matches(e, query))
  }

  /** `displayedSessions`: all of the filtered sessions when expanded, else the first six. */
  function Displayed(filtered: seq<ExtendedSession>, showAll: bool): (r: seq<ExtendedSession>)
    ensures showAll ==> r == filtered
    ensures !showAll ==> |r| <= CollapsedCount && r <= filtered
  {
    if showAll then filtered else Take(filtered, CollapsedCount)
  }

  /** The expand button appears exactly when collapsing hides some sessions. */
  lemma CollapsedHidesOnlyPastSix(filtered: seq<ExtendedSession>)
    ensures Displayed(filtered, false) == filtered <==> |filtered| <= CollapsedCount
    ensures |filtered| > CollapsedCount ==> Displayed(filtered, false) == filtered[..CollapsedCount]
  {
    if |filtered| > CollapsedCount {
      assert |Displayed(filtered, false)| < |filtered|;
    }
  }

  /** The favourites after a toggle: the id is removed when present, added when absent. */
  function ToggledFavorites(favorites: set<string>, id: string): (r: set<string>)
    ensures id in r <==> id !in favorites
    ensures forall other :: other != id ==> (other in r <==> other in favorites)
  {
    if id in favorites then favorites - {id} else favorites + {id}
  }

  /** Toggling twice gives the favourites back. */
  lemma ToggleFavoriteTwice(favorites: set<string>, id: string)
    ensures ToggledFavorites(ToggledFavorites(favorites, id), id) == favorites
  {
    var once := ToggledFavorites(favorites, id);
    var twice := ToggledFavorites(once, id);
    assert forall x :: x in twice <==> x in favorites;
  }

  /** Every session marked with whether it is a favourite; nothing else changes. */
  function MarkFavorites(sessions: seq<ExtendedSession>, favorites: set<string>): (r: seq<ExtendedSession>)
    ensures |r| == |sessions|
    ensures forall k :: 0 <= k < |r| ==> r[k] == sessions[k].(isFavorite := Some(sessions[k].session.id in favorites))
  {
    if sessions == [] then []
    else MarkFavorites(sessions[..|sessions| - 1], favorites) + [Last(sessions).(isFavorite := Some(Last(sessions).session.id in favorites))]
  }

  /** After a toggle, exactly the toggled session's mark flips. */
  lemma ToggleMarksOneSession(sessions: seq<ExtendedSession>, favorites: set<string>, id: string)
    ensures var before := MarkFavorites(sessions, favorites);
      var after := MarkFavorites(sessions, ToggledFavorites(favorites, id));
      forall k :: 0 <= k < |sessions| ==>
        (after[k].isFavorite == before[k].isFavorite <==> sessions[k].session.id != id)
  {
  }

  /** The panel's state; `storedFavorites` is what local storage holds under "favorite-sessions". */
  class RecentSessionsView {
    var recentSessions: seq<ExtendedSession>
    var searchQuery: string
    var isLoading: bool
    var showAll: bool
    var favorites: set<string>
    var storedFavorites: Option<set<string>>

    /** The sessions the search keeps. */
    function FilteredSessions(): seq<ExtendedSession>
      reads this
    {
      Search(recentSessions, searchQuery)
    }

    /** The sessions on show. */
    function DisplayedSessions(): seq<ExtendedSession>
      reads this
    {
      Displayed(FilteredSessions(), showAll)
    }

    constructor(storedFavorites: Option<set<string>>)
      ensures recentSessions == [] && searchQuery == "" && isLoading && !showAll
      ensures favorites == {} && this.storedFavorites == storedFavorites
    {
      recentSessions := [];
      searchQuery := "";
      isLoading := true;
      showAll := false;
      favorites := {};
      this.storedFavorites := storedFavorites;
    }

    /**
     * `loadRecentSessions`: when the project list loads, the twenty newest scanned sessions; when
     * it fails, the list stays as it was. Loading ends either way.
     */
    method LoadRecent(projects: Option<seq<Project>>, load: Session -> Option<seq<Entry>>, dateMs: string -> int)
      modifies this
      ensures projects.Some? ==> recentSessions == RecentFrom(projects.value, load, dateMs)
      ensures projects.None? ==> recentSessions == old(recentSessions)
      ensures !isLoading
      ensures searchQuery == old(searchQuery) && showAll == old(showAll)
      ensures favorites == old(favorites) && storedFavorites == old(storedFavorites)
    {
      isLoading := true;
      if projects.Some? {
        recentSessions := LoadRecentSessions(projects.value, load, dateMs);
      }
      isLoading := false;
    }

    /** `loadFavorites`: the stored favourites, when there are any. */
    method LoadFavorites()
      modifies this
      ensures storedFavorites.Some? ==> favorites == storedFavorites.value
      ensures storedFavorites.None? ==> favorites == old(favorites)
      ensures recentSessions == old(recentSessions) && searchQuery == old(searchQuery)
      ensures isLoading == old(isLoading) && showAll == old(showAll) && storedFavorites == old(storedFavorites)
    {
      if storedFavorites.Some? {
        favorites := storedFavorites.value;
      }
    }

    /** `toggleFavorite`: flips the id, stores the new favourites and marks every session by them. */
    method ToggleFavorite(sessionId: string)
      modifies this
      ensures favorites == ToggledFavorites(old(favorites), sessionId)
      ensures storedFavorites == Some(favorites)
      ensures recentSessions == MarkFavorites(old(recentSessions), favorites)
      ensures searchQuery == old(searchQuery) && isLoading == old(isLoading) && showAll == old(showAll)
    {
      var newFavorites := ToggledFavorites(favorites, sessionId);
      favorites := newFavorites;
      storedFavorites := Some(newFavorites);
      recentSessions := MarkFavorites(recentSessions, newFavorites);
    }

    method SetSearchQuery(query: string)
      modifies this
      ensures searchQuery == query
      ensures recentSessions == old(recentSessions) && isLoading == old(isLoading) && showAll == old(showAll)
      ensures favorites == old(favorites) && storedFavorites == old(storedFavorites)
    {
      searchQuery := query;
    }

    /** The expand / collapse button. */
    method ToggleShowAll()
      modifies this
      ensures showAll == !old(showAll)
      ensures recentSessions == old(recentSessions) && searchQuery == old(searchQuery) && isLoading == old(isLoading)
      ensures favorites == old(favorites) && storedFavorites == old(storedFavorites)
    {
      showAll := !showAll;
    }
  }
}
