/**
 * The quick-session dialog (src/components/QuickSessionDialog.tsx): the ten newest projects and
 * the first sessions of the first five of them, the project search by name, favourite projects
 * listed first, the session templates, and creating or opening a session.
 */
module QuickSessionDialog {
  import opened Base
  import opened Text
  import opened Seqs
  import opened Sorting
  import opened Sessions
  import R = RecentSessions

  /** How many projects the dialog keeps, how many of them it scans for sessions, and how many sessions. */
  const MaxProjects: nat := 10
  const ProjectsForSessions: nat := 5
  const SessionsPerProject: nat := 3
  const MaxSessions: nat := 10

  /** A session template: its id and whether it comes with an initial prompt. */
  datatype SessionTemplate = SessionTemplate(id: string, hasInitialPrompt: bool)

  /** `SESSION_TEMPLATES`: the blank session first. */
  const Templates: seq<SessionTemplate> := [
    SessionTemplate("blank", false),
    SessionTemplate("code-review", true),
    SessionTemplate("bug-fix", true),
    SessionTemplate("feature", true)
  ]

  /** `b.created_at - a.created_at` as a rank: the newest project first. */
  function NewestProjectFirst(): Project -> int {
    (p: Project) => -p.createdAt
  }

  /** The projects the dialog keeps: the ten newest. */
  function RecentProjects(projects: seq<Project>): seq<Project> {
    Take(SortBy(projects, NewestProjectFirst()), MaxProjects)
  }

  /** The sessions the dialog keeps: the first three of each of the first five kept projects, at most ten. */
  function RecentSessionsOf(recentProjects: seq<Project>): seq<Session> {
    Take(FirstSessions(Take(recentProjects, ProjectsForSessions), SessionsPerProject), MaxSessions)
  }

  /** `loadRecentData`: sorts the projects, keeps ten, and collects sessions from the first five. */
  method LoadRecentData(projects: seq<Project>) returns (recentProjects: seq<Project>, recentSessions: seq<Session>)
    ensures recentProjects == RecentProjects(projects)
    ensures recentSessions == RecentSessionsOf(recentProjects)
  {
    recentProjects := Take(SortBy(projects, NewestProjectFirst()), MaxProjects);
    var ps := Take(recentProjects, ProjectsForSessions);
    var allSessions: seq<Session> := [];
    for i := 0 to |ps|
      invariant allSessions == FirstSessions(ps[..i], SessionsPerProject)
    {
      var ss := Take(ps[i].sessions, SessionsPerProject);
      var before := allSessions;
      for j := 0 to |ss|
        invariant allSessions == before + ss[..j]
      {
        assert ss[..j + 1] == ss[..j] + [ss[j]];
        allSessions := allSessions + [ss[j]];
      }
      assert ss[..|ss|] == ss;
      FirstSessionsStep(ps, SessionsPerProject, i);
    }
    assert ps[..|ps|] == ps;
    recentSessions := Take(allSessions, MaxSessions);
  }

  /** At most ten projects are kept, newest first, all of them when there are no more than ten. */
  lemma RecentProjectsOrder(projects: seq<Project>)
    ensures var kept := RecentProjects(projects);
      && |kept| <= MaxProjects
      && multiset(kept) <= multiset(projects)
      && (|projects| <= MaxProjects ==> multiset(kept) == multiset(projects))
      && (forall i, j :: 0 <= i < j < |kept| ==> kept[i].createdAt >= kept[j].createdAt)
  {
    var rank := NewestProjectFirst();
    var sorted := SortBy(projects, rank);
    var kept := RecentProjects(projects);
    SortBySorts(projects, rank);
    assert forall i, j :: 0 <= i < j < |kept| ==> rank(kept[i]) <= rank(kept[j]);
    assert sorted == kept + sorted[|kept|..];
    assert multiset(sorted) == multiset(kept) + multiset(sorted[|kept|..]);
  }

  /** No project left out is newer than one kept. */
  lemma RecentProjectsAreNewest(projects: seq<Project>)
    ensures var kept := RecentProjects(projects);
      forall x, y :: x in kept && y in multiset(projects) - multiset(kept) ==> y.createdAt <= x.createdAt
  {
    var rank := NewestProjectFirst();
    SortBySorts(projects, rank);
    PrefixHoldsLowestRanks(SortBy(projects, rank), rank, |RecentProjects(projects)|);
  }

  /** At most ten sessions are kept, each among the first three of one of the first five kept projects. */
  lemma RecentSessionsScanned(recentProjects: seq<Project>)
    ensures var sessions := RecentSessionsOf(recentProjects);
      && |sessions| <= MaxSessions
      && forall s :: s in sessions ==>
           exists k :: 0 <= k < |recentProjects| && k < ProjectsForSessions && s in Take(recentProjects[k].sessions, SessionsPerProject)
  {
    var ps := Take(recentProjects, ProjectsForSessions);
    var all := FirstSessions(ps, SessionsPerProject);
    FirstSessionsMembers(ps, SessionsPerProject);
    assert forall k :: 0 <= k < |ps| ==> ps[k] == recentProjects[k];
    forall s | s in RecentSessionsOf(recentProjects)
      ensures s in all
    {
      var k :| 0 <= k < |Take(all, MaxSessions)| && Take(all, MaxSessions)[k] == s;
      assert all[k] == s;
    }
  }

  /** A project matches when its name, lower-cased, contains the lower-cased query. */
  predicate ProjectMatches(p: Project, searchQuery: string) {
    Contains(ToLower(ProjectName(p.path)), ToLower(searchQuery))
  }

  /** `filteredProjects`: the kept projects whose name matches, in order. */
  function FilteredProjects(projects: seq<Project>, searchQuery: string): (r: seq<Project>)
    ensures forall p :: p in r <==> p in projects && ProjectMatches(p, searchQuery)
    ensures IsSubsequence(r, projects)
  {
    FilterIsSubsequence(projects, p => ProjectMatches(p, searchQuery));
    Filter(projects, p => ProjectMatches(p, searchQuery))
  }

  /** An empty query keeps every project. */
  lemma EmptyQueryKeepsAll(projects: seq<Project>)
    ensures FilteredProjects(projects, "") == projects
  {
    forall p | p in projects
      ensures ProjectMatches(p, "")
    {
      assert At(ToLower(ProjectName(p.path)), ToLower(""), 0);
    }
    FilterAll(projects, p => ProjectMatches(p, ""));
  }

  /** The comparator as a rank: favourites (by path) before the rest. */
  function FavoriteRank(favorites: set<string>): Project -> int {
    (p: Project) => if p.path in favorites then 0 else 1
  }

  /** `sortedProjects`: the filtered projects, favourites first. */
  function SortedProjects(filtered: seq<Project>, favorites: set<string>): seq<Project> {
    SortBy(filtered, FavoriteRank(favorites))
  }

  /**
   * The same projects, no favourite after a project that is not one, and the favourites and the
   * others each in the order they had.
   */
  lemma FavoritesFirst(filtered: seq<Project>, favorites: set<string>)
    ensures var r := SortedProjects(filtered, favorites);
      && multiset(r) == multiset(filtered)
      && (forall i, j :: 0 <= i < j < |r| && r[j].path in favorites ==> r[i].path in favorites)
      && WithRank(r, FavoriteRank(favorites), 0) == WithRank(filtered, FavoriteRank(favorites), 0)
      && WithRank(r, FavoriteRank(favorites), 1) == WithRank(filtered, FavoriteRank(favorites), 1)
  {
    var rank := FavoriteRank(favorites);
    var r := SortedProjects(filtered, favorites);
    SortBySorts(filtered, rank);
    assert forall i, j :: 0 <= i < j < |r| ==> rank(r[i]) <= rank(r[j]);
    SortByIsStable(filtered, rank, 0);
    SortByIsStable(filtered, rank, 1);
  }

  /**
   * What the name `open` denotes where `handleSelectPath` calls it: the component's destructured
   * `open: boolean` prop, or the directory picker of the dialog plugin imported under the same name.
   */
  datatype OpenBinding = OpenProp(isOpen: bool) | DirectoryPicker

  /**
   * As written, the prop is the innermost binding of `open`, so it shadows the import and the
   * handler calls a boolean.
   */
  function HandlerCallee(isOpen: bool): (b: OpenBinding)
    ensures b.OpenProp? && b.isOpen == isOpen
  {
    OpenProp(isOpen)
  }

  /**
   * `await open({ directory: true, ... })`: the picker's answer (none when cancelled) when `open`
   * is the picker; calling a boolean throws a TypeError.
   */
  function CallOpen(callee: OpenBinding, answer: Option<string>): (r: Result<Option<string>, string>)
    ensures r.Err? <==> callee.OpenProp?
    ensures r.Ok? ==> r.value == answer
  {
    match callee
    case OpenProp(_) => Err("TypeError: open is not a function")
    case DirectoryPicker => Ok(answer)
  }

  /** The path after `handleSelectPath`: a truthy answer is taken; a thrown error is caught and logged. */
  function PathAfterSelect(path: string, callee: OpenBinding, answer: Option<string>): string {
    match CallOpen(callee, answer)
    case Ok(selected) => if Present(selected) then selected.value else path
    case Err(_) => path
  }

  /** As written, choosing a directory never changes the path, whatever the picker would answer. */
  lemma SelectPathAsWrittenKeepsPath(path: string, isOpen: bool, answer: Option<string>)
    ensures PathAfterSelect(path, HandlerCallee(isOpen), answer) == path
  {
  }

  /** A directory chosen in the open dialog is lost as written, and taken with the picker bound. */
  lemma ShadowedOpenLosesChoice()
    ensures PathAfterSelect("", HandlerCallee(true), Some("/work/app")) == ""
    ensures PathAfterSelect("", DirectoryPicker, Some("/work/app")) == "/work/app"
  {
  }

  /** With the picker bound to `open`, a chosen directory becomes the path and a cancelled choice keeps it. */
  lemma PickerPathIntended(path: string, answer: Option<string>)
    ensures Present(answer) ==> PathAfterSelect(path, DirectoryPicker, answer) == answer.value
    ensures !Present(answer) ==> PathAfterSelect(path, DirectoryPicker, answer) == path
  {
  }

  /** The dialog's state; the calls it makes to its parent are recorded in order. */
  class QuickSessionDialogView {
    var projectPath: string
    var searchQuery: string
    var recentProjects: seq<Project>
    var recentSessions: seq<Session>
    var favorites: set<string>
    /** What local storage holds under "favorite-projects". */
    var storedFavorites: Option<set<string>>
    var selectedTemplate: SessionTemplate
    var isLoading: bool
    /** `onCreateSession(path, template)` calls. */
    var created: seq<(string, SessionTemplate)>
    /** `onOpenSession(session)` calls. */
    var openedSessions: seq<Session>
    /** `onOpenChange(open)` calls. */
    var openChanges: seq<bool>

    /** The projects listed, favourites first. */
    function ListedProjects(): seq<Project>
      reads this
    {
      SortedProjects(FilteredProjects(recentProjects, searchQuery), favorites)
    }

    /** The project list is shown while no path is entered and some project is listed. */
    predicate ProjectListShown()
      reads this
    {
      projectPath == "" && |ListedProjects()| > 0
    }

    constructor(storedFavorites: Option<set<string>>)
      ensures projectPath == "" && searchQuery == "" && recentProjects == [] && recentSessions == []
      ensures favorites == {} && this.storedFavorites == storedFavorites
      ensures selectedTemplate == Templates[0] && !isLoading
      ensures created == [] && openedSessions == [] && openChanges == []
    {
      projectPath := "";
      searchQuery := "";
      recentProjects := [];
      recentSessions := [];
      favorites := {};
      this.storedFavorites := storedFavorites;
      selectedTemplate := Templates[0];
      isLoading := false;
      created := [];
      openedSessions := [];
      openChanges := [];
    }

    /**
     * The dialog opens: the recent data is loaded (kept as it was when the project list fails to
     * load) and the stored favourites are read.
     */
    method Opened(projects: Option<seq<Project>>)
      modifies this
      ensures projects.Some? ==> recentProjects == RecentProjects(projects.value)
      ensures projects.Some? ==> recentSessions == RecentSessionsOf(recentProjects)
      ensures projects.None? ==> recentProjects == old(recentProjects) && recentSessions == old(recentSessions)
      ensures storedFavorites.Some? ==> favorites == storedFavorites.value
      ensures storedFavorites.None? ==> favorites == old(favorites)
      ensures !isLoading
      ensures projectPath == old(projectPath) && searchQuery == old(searchQuery) && selectedTemplate == old(selectedTemplate)
      ensures storedFavorites == old(storedFavorites)
      ensures created == old(created) && openedSessions == old(openedSessions) && openChanges == old(openChanges)
    {
      isLoading := true;
      if projects.Some? {
        recentProjects, recentSessions := LoadRecentData(projects.value);
      }
      isLoading := false;
      if storedFavorites.Some? {
        favorites := storedFavorites.value;
      }
    }

    /** `toggleFavorite`: flips the path and stores the new favourites. */
    method ToggleFavorite(path: string)
      modifies this
      ensures favorites == R.ToggledFavorites(old(favorites), path)
      ensures storedFavorites == Some(favorites)
      ensures projectPath == old(projectPath) && searchQuery == old(searchQuery) && selectedTemplate == old(selectedTemplate)
      ensures recentProjects == old(recentProjects) && recentSessions == old(recentSessions) && isLoading == old(isLoading)
      ensures created == old(created) && openedSessions == old(openedSessions) && openChanges == old(openChanges)
    {
      favorites := R.ToggledFavorites(favorites, path);
      storedFavorites := Some(favorites);
    }

    /**
     * `handleSelectPath` as written: `open` is the dialog's own `open` prop (true while it is
     * shown), so the call throws before any picker appears, the error is logged, and the path
     * stays; `answer` is what the picker would have returned.
     */
    method SelectPath(answer: Option<string>)
      modifies this
      ensures projectPath == old(projectPath)
      ensures searchQuery == old(searchQuery) && selectedTemplate == old(selectedTemplate) && favorites == old(favorites)
      ensures storedFavorites == old(storedFavorites)
      ensures recentProjects == old(recentProjects) && recentSessions == old(recentSessions) && isLoading == old(isLoading)
      ensures created == old(created) && openedSessions == old(openedSessions) && openChanges == old(openChanges)
    {
      SelectPathAsWrittenKeepsPath(projectPath, true, answer);
      projectPath := PathAfterSelect(projectPath, HandlerCallee(true), answer);
    }

    /** `handleSelectPath` with the plugin's `open` in scope: the picker's answer, taken when it is a non-empty path. */
    method SelectPathIntended(selected: Option<string>)
      modifies this
      ensures projectPath == (if Present(selected) then selected.value else old(projectPath))
      ensures searchQuery == old(searchQuery) && selectedTemplate == old(selectedTemplate) && favorites == old(favorites)
      ensures storedFavorites == old(storedFavorites)
      ensures recentProjects == old(recentProjects) && recentSessions == old(recentSessions) && isLoading == old(isLoading)
      ensures created == old(created) && openedSessions == old(openedSessions) && openChanges == old(openChanges)
    {
      PickerPathIntended(projectPath, selected);
      projectPath := PathAfterSelect(projectPath, DirectoryPicker, selected);
    }

    /** Typing a path, or choosing a listed project, sets the path. */
    method SetProjectPath(path: string)
      modifies this
      ensures projectPath == path
      ensures searchQuery == old(searchQuery) && selectedTemplate == old(selectedTemplate) && favorites == old(favorites)
      ensures storedFavorites == old(storedFavorites)
      ensures recentProjects == old(recentProjects) && recentSessions == old(recentSessions) && isLoading == old(isLoading)
      ensures created == old(created) && openedSessions == old(openedSessions) && openChanges == old(openChanges)
    {
      projectPath := path;
    }

    method SetSearchQuery(query: string)
      modifies this
      ensures searchQuery == query
      ensures projectPath == old(projectPath) && selectedTemplate == old(selectedTemplate) && favorites == old(favorites)
      ensures storedFavorites == old(storedFavorites)
      ensures recentProjects == old(recentProjects) && recentSessions == old(recentSessions) && isLoading == old(isLoading)
      ensures created == old(created) && openedSessions == old(openedSessions) && openChanges == old(openChanges)
    {
      searchQuery := query;
    }

    /** Choosing one of the templates. */
    method SelectTemplate(template: SessionTemplate)
      requires template in Templates
      modifies this
      ensures selectedTemplate == template
      ensures projectPath == old(projectPath) && searchQuery == old(searchQuery) && favorites == old(favorites)
      ensures storedFavorites == old(storedFavorites)
      ensures recentProjects == old(recentProjects) && recentSessions == old(recentSessions) && isLoading == old(isLoading)
      ensures created == old(created) && openedSessions == old(openedSessions) && openChanges == old(openChanges)
    {
      selectedTemplate := template;
    }

    /**
     * `handleCreateSession` (the create button, or Enter in the path field): nothing without a
     * path; otherwise the parent is asked to create the session and to close the dialog, and the
     * path and template are reset.
     */
    method CreateSession()
      modifies this
      ensures old(projectPath) == "" ==> projectPath == "" && selectedTemplate == old(selectedTemplate)
                                         && created == old(created) && openChanges == old(openChanges)
      ensures old(projectPath) != "" ==> created == old(created) + [(old(projectPath), old(selectedTemplate))]
                                         && openChanges == old(openChanges) + [false]
                                         && projectPath == "" && selectedTemplate == Templates[0]
      ensures searchQuery == old(searchQuery) && favorites == old(favorites) && storedFavorites == old(storedFavorites)
      ensures recentProjects == old(recentProjects) && recentSessions == old(recentSessions) && isLoading == old(isLoading)
      ensures openedSessions == old(openedSessions)
    {
      if projectPath != "" {
        created := created + [(projectPath, selectedTemplate)];
        openChanges := openChanges + [false];
        projectPath := "";
        selectedTemplate := Templates[0];
      }
    }

    /** Clicking a recent session: the parent opens it and closes the dialog. */
    method OpenSession(session: Session)
      modifies this
      ensures openedSessions == old(openedSessions) + [session] && openChanges == old(openChanges) + [false]
      ensures projectPath == old(projectPath) && searchQuery == old(searchQuery) && selectedTemplate == old(selectedTemplate)
      ensures favorites == old(favorites) && storedFavorites == old(storedFavorites)
      ensures recentProjects == old(recentProjects) && recentSessions == old(recentSessions) && isLoading == old(isLoading)
      ensures created == old(created)
    {
      openedSessions := openedSessions + [session];
      openChanges := openChanges + [false];
    }
  }
}
