/**
 * The paginated session list of one project (src/components/SessionList.tsx): the sessions worth
 * listing, their order by latest activity, pages of twenty, the multi-selection used for batch
 * deletion, and the single-delete confirmation.
 */
module SessionList {
  import opened Base
  import opened Text
  import opened Seqs
  import opened Sorting
  import opened Pagination
  import opened Sessions

  const ItemsPerPage: nat := 20

  /** A session is listed when its id and its first message are both non-blank. */
  predicate IsValid(s: Session) {
    s.id != "" && JsTrim(s.id) != "" && Present(s.firstMessage) && JsTrim(s.firstMessage.value) != ""
  }

  /** A session the list leaves out. */
  predicate IsHidden(s: Session) {
    !IsValid(s)
  }

  /** `validSessions`: the listed sessions, in their original order. */
  function ValidSessions(sessions: seq<Session>): (r: seq<Session>)
    ensures forall x :: x in r <==> x in sessions && IsValid(x)
    ensures IsSubsequence(r, sessions)
  {
    FilterIsSubsequence(sessions, IsValid);
    Filter(sessions, IsValid)
  }

  /** The number shown as "(n hidden)": the sessions left out. */
  function HiddenCount(sessions: seq<Session>): (n: nat)
    ensures n == Count(sessions, IsHidden)
    ensures n + |ValidSessions(sessions)| == |sessions|
  {
    FilterLength(sessions, IsValid);
    CountSplit(sessions, IsValid, IsHidden);
    |sessions| - |ValidSessions(sessions)|
  }

  /** When a session was last active, in milliseconds: its last message, else its first message, else its creation. */
  function ActivityMs(s: Session, dateMs: string -> int): int {
    if Present(s.lastMessageTimestamp) then dateMs(s.lastMessageTimestamp.value)
    else if Present(s.messageTimestamp) then dateMs(s.messageTimestamp.value)
    else s.createdAt * 1000
  }

  /** The comparator `timeB - timeA` as a rank: the most recent session first. */
  function NewestFirst(dateMs: string -> int): Session -> int {
    s => -ActivityMs(s, dateMs)
  }

  /** `sortedSessions`: the listed sessions, most recently active first. */
  function SortedSessions(sessions: seq<Session>, dateMs: string -> int): seq<Session> {
    SortBy(ValidSessions(sessions), NewestFirst(dateMs))
  }

  /** The sorted list holds the listed sessions, most recently active first. */
  lemma SortedSessionsOrder(sessions: seq<Session>, dateMs: string -> int)
    ensures multiset(SortedSessions(sessions, dateMs)) == multiset(ValidSessions(sessions))
    ensures var r := SortedSessions(sessions, dateMs);
      forall i, j :: 0 <= i < j < |r| ==> ActivityMs(r[i], dateMs) >= ActivityMs(r[j], dateMs)
  {
    var r := SortedSessions(sessions, dateMs);
    var rank := NewestFirst(dateMs);
    SortBySorts(ValidSessions(sessions), rank);
    assert forall i, j :: 0 <= i < j < |r| ==> rank(r[i]) <= rank(r[j]);
  }

  /** Sessions equally recent stay in the order the back end gave them. */
  lemma SortedSessionsKeepTies(sessions: seq<Session>, dateMs: string -> int)
    ensures forall v :: WithRank(SortedSessions(sessions, dateMs), NewestFirst(dateMs), v)
                     == WithRank(ValidSessions(sessions), NewestFirst(dateMs), v)
  {
    var valid := ValidSessions(sessions);
    var rank := NewestFirst(dateMs);
    forall v
      ensures WithRank(SortBy(valid, rank), rank, v) == WithRank(valid, rank, v)
    {
      SortByIsStable(valid, rank, v);
    }
  }

  /** The ids of some sessions, in order. */
  function Ids(sessions: seq<Session>): (ids: seq<string>)
    ensures |ids| == |sessions| && forall k :: 0 <= k < |sessions| ==> ids[k] == sessions[k].id
  {
    seq(|sessions|, k requires 0 <= k < |sessions| => sessions[k].id)
  }

  /** `ids` without `id`, in order. */
  function Without(ids: seq<string>, id: string): (r: seq<string>)
    ensures forall x :: x in r <==> x in ids && x != id
    ensures NoDuplicates(ids) ==> NoDuplicates(r)
    ensures id !in ids ==> r == ids
  {
    if ids == [] then []
    else
      var rest := Without(ids[1..], id);
      assert forall x :: x in ids <==> x == ids[0] || x in ids[1..];
      if ids[0] == id then rest
      else
        assert NoDuplicates(ids) ==> ids[0] !in ids[1..] && NoDuplicates(ids[1..]);
        [ids[0]] + rest
  }

  /**
   * `toggleSessionSelection` on a JavaScript set, which remembers the order ids went in: an id
   * already there is deleted, a new one goes at the end.
   */
  function ToggledSelection(selected: seq<string>, id: string): (r: seq<string>)
    ensures forall x :: x in r <==> (if x == id then x !in selected else x in selected)
    ensures NoDuplicates(selected) ==> NoDuplicates(r)
  {
    if id in selected then Without(selected, id) else selected + [id]
  }

  /** Toggling an id twice gives back the same ids; for an id not yet selected, in the same order. */
  lemma ToggleTwice(selected: seq<string>, id: string)
    ensures forall x :: x in ToggledSelection(ToggledSelection(selected, id), id) <==> x in selected
    ensures id !in selected ==> ToggledSelection(ToggledSelection(selected, id), id) == selected
  {
    if id !in selected {
      var once := selected + [id];
      assert forall k :: 0 <= k < |selected| ==> once[k] != id;
      WithoutLast(selected, id);
    }
  }

  /** Removing an id that was just appended gives the sequence back. */
  lemma {:induction false} WithoutLast(ids: seq<string>, id: string)
    requires id !in ids
    ensures Without(ids + [id], id) == ids
  {
    if ids != [] {
      assert (ids + [id])[1..] == ids[1..] + [id];
      WithoutLast(ids[1..], id);
    } else {
      assert Without([id], id) == Without([], id);
    }
  }

  /**
   * `selectAllOnPage`: when as many ids are selected as there are sessions on the page, the
   * selection is cleared; otherwise it becomes the ids on the page.
   */
  function SelectAll(selected: seq<string>, page: seq<Session>): (r: seq<string>)
    ensures |selected| == |page| ==> r == []
    ensures |selected| != |page| ==> (forall x :: x in r <==> exists k :: 0 <= k < |page| && page[k].id == x) && NoDuplicates(r)
  {
    if |selected| == |page| then []
    else
      var ids := Ids(page);
      assert forall x :: x in ids <==> exists k :: 0 <= k < |page| && page[k].id == x;
      Distinct(ids)
  }

  /** Only the sizes are compared: a selection from another page of the same size is cleared instead of replaced. */
  lemma {:induction false} SelectAllComparesSizesOnly()
    ensures var page := [Session("b", "p", "/p", Some("hi"), None, None, 0)];
      SelectAll(["a"], page) == [] && "b" !in ["a"]
  {
  }

  /** The component's state; `sessions` is the property it is given. */
  class SessionListView {
    var sessions: seq<Session>
    /** `new Date(t).getTime()`. */
    const dateMs: string -> int
    /** Whether the `onSessionDelete` and `onSessionsBatchDelete` callbacks were given. */
    const canDelete: bool
    const canBatchDelete: bool
    var currentPage: int
    var deleteDialogOpen: bool
    var sessionToDelete: Option<Session>
    var isDeleting: bool
    var isSelectionMode: bool
    /** The selected ids as a JavaScript set: no repeats, in the order they were added. */
    var selectedSessions: seq<string>
    /** The calls made to `onSessionDelete` (session id, project id) and `onSessionsBatchDelete` (ids, project id). */
    var deleteRequests: seq<(string, string)>
    var batchDeleteRequests: seq<(seq<string>, string)>

    ghost predicate Valid()
      reads this
    {
      NoDuplicates(selectedSessions)
    }

    /** The sessions on the current page. */
    function CurrentSessions(): seq<Session>
      reads this
    {
      Page(SortedSessions(sessions, dateMs), currentPage, ItemsPerPage)
    }

    constructor(sessions: seq<Session>, dateMs: string -> int, canDelete: bool, canBatchDelete: bool)
      ensures Valid()
      ensures this.sessions == sessions && this.dateMs == dateMs
      ensures this.canDelete == canDelete && this.canBatchDelete == canBatchDelete
      ensures currentPage == 1 && !deleteDialogOpen && sessionToDelete == None && !isDeleting
      ensures !isSelectionMode && selectedSessions == []
      ensures deleteRequests == [] && batchDeleteRequests == []
    {
      this.sessions := sessions;
      this.dateMs := dateMs;
      this.canDelete := canDelete;
      this.canBatchDelete := canBatchDelete;
      currentPage := 1;
      deleteDialogOpen := false;
      sessionToDelete := None;
      isDeleting := false;
      isSelectionMode := false;
      selectedSessions := [];
      deleteRequests := [];
      batchDeleteRequests := [];
    }

    /** New sessions from the parent; the page goes back to 1 when the number of listed sessions changes. */
    method SetSessions(newSessions: seq<Session>)
      modifies this
      ensures sessions == newSessions
      ensures currentPage == (if |ValidSessions(newSessions)| != |ValidSessions(old(sessions))| then 1 else old(currentPage))
      ensures selectedSessions == old(selectedSessions) && isSelectionMode == old(isSelectionMode)
      ensures deleteRequests == old(deleteRequests) && batchDeleteRequests == old(batchDeleteRequests)
      ensures sessionToDelete == old(sessionToDelete) && deleteDialogOpen == old(deleteDialogOpen)
      ensures isDeleting == old(isDeleting)
    {
      var changed := |ValidSessions(newSessions)| != |ValidSessions(sessions)|;
      sessions := newSessions;
      if changed {
        currentPage := 1;
      }
    }

    /** The page the pagination control moves to. */
    method SetCurrentPage(page: int)
      modifies this
      ensures currentPage == page
      ensures sessions == old(sessions) && selectedSessions == old(selectedSessions)
      ensures isSelectionMode == old(isSelectionMode) && sessionToDelete == old(sessionToDelete)
      ensures deleteDialogOpen == old(deleteDialogOpen) && isDeleting == old(isDeleting)
      ensures deleteRequests == old(deleteRequests) && batchDeleteRequests == old(batchDeleteRequests)
    {
      currentPage := page;
    }

    /** `handleDeleteClick`: remembers the session and opens the confirmation. */
    method HandleDeleteClick(session: Session)
      modifies this
      ensures sessionToDelete == Some(session) && deleteDialogOpen
      ensures sessions == old(sessions) && currentPage == old(currentPage) && isDeleting == old(isDeleting)
      ensures selectedSessions == old(selectedSessions) && isSelectionMode == old(isSelectionMode)
      ensures deleteRequests == old(deleteRequests) && batchDeleteRequests == old(batchDeleteRequests)
    {
      sessionToDelete := Some(session);
      deleteDialogOpen := true;
    }

    /**
     * `confirmDelete`: without a session or a callback nothing happens. Otherwise the callback is
     * called; when it succeeds the dialog closes, and when it fails the dialog stays open.
     */
    method ConfirmDelete(succeeds: bool)
      modifies this
      ensures old(sessionToDelete).None? || !canDelete ==>
                deleteRequests == old(deleteRequests) && deleteDialogOpen == old(deleteDialogOpen)
                && sessionToDelete == old(sessionToDelete) && isDeleting == old(isDeleting)
      ensures old(sessionToDelete).Some? && canDelete ==>
                var s := old(sessionToDelete).value;
                && deleteRequests == old(deleteRequests) + [(s.id, s.projectId)]
                && !isDeleting
                && (succeeds ==> !deleteDialogOpen && sessionToDelete == None)
                && (!succeeds ==> deleteDialogOpen == old(deleteDialogOpen) && sessionToDelete == old(sessionToDelete))
      ensures sessions == old(sessions) && currentPage == old(currentPage)
      ensures selectedSessions == old(selectedSessions) && isSelectionMode == old(isSelectionMode)
      ensures batchDeleteRequests == old(batchDeleteRequests)
    {
      if sessionToDelete.None? || !canDelete {
        return;
      }
      isDeleting := true;
      var s := sessionToDelete.value;
      deleteRequests := deleteRequests + [(s.id, s.projectId)];
      if succeeds {
        deleteDialogOpen := false;
        sessionToDelete := None;
      }
      isDeleting := false;
    }

    /** `cancelDelete`. */
    method CancelDelete()
      modifies this
      ensures !deleteDialogOpen && sessionToDelete == None
      ensures sessions == old(sessions) && currentPage == old(currentPage) && isDeleting == old(isDeleting)
      ensures selectedSessions == old(selectedSessions) && isSelectionMode == old(isSelectionMode)
      ensures deleteRequests == old(deleteRequests) && batchDeleteRequests == old(batchDeleteRequests)
    {
      deleteDialogOpen := false;
      sessionToDelete := None;
    }

    /** `toggleSelectionMode`: entering or leaving the mode always empties the selection. */
    method ToggleSelectionMode()
      modifies this
      ensures Valid()
      ensures isSelectionMode == !old(isSelectionMode) && selectedSessions == []
      ensures sessions == old(sessions) && currentPage == old(currentPage)
      ensures sessionToDelete == old(sessionToDelete) && deleteDialogOpen == old(deleteDialogOpen)
      ensures isDeleting == old(isDeleting)
      ensures deleteRequests == old(deleteRequests) && batchDeleteRequests == old(batchDeleteRequests)
    {
      isSelectionMode := !isSelectionMode;
      selectedSessions := [];
    }

    /** `toggleSessionSelection`. */
    method ToggleSessionSelection(sessionId: string)
      requires Valid()
      modifies this
      ensures Valid()
      ensures selectedSessions == ToggledSelection(old(selectedSessions), sessionId)
      ensures sessions == old(sessions) && currentPage == old(currentPage) && isSelectionMode == old(isSelectionMode)
      ensures sessionToDelete == old(sessionToDelete) && deleteDialogOpen == old(deleteDialogOpen)
      ensures isDeleting == old(isDeleting)
      ensures deleteRequests == old(deleteRequests) && batchDeleteRequests == old(batchDeleteRequests)
    {
      var newSelected := selectedSessions;
      if sessionId in newSelected {
        newSelected := Without(newSelected, sessionId);
      } else {
        newSelected := newSelected + [sessionId];
      }
      selectedSessions := newSelected;
    }

    /** `selectAllOnPage`, given the sessions on the current page. */
    method SelectAllOnPage(page: seq<Session>)
      requires page == CurrentSessions()
      modifies this
      ensures Valid()
      ensures selectedSessions == SelectAll(old(selectedSessions), page)
      ensures sessions == old(sessions) && currentPage == old(currentPage) && isSelectionMode == old(isSelectionMode)
      ensures sessionToDelete == old(sessionToDelete) && deleteDialogOpen == old(deleteDialogOpen)
      ensures isDeleting == old(isDeleting)
      ensures deleteRequests == old(deleteRequests) && batchDeleteRequests == old(batchDeleteRequests)
    {
      selectedSessions := SelectAll(selectedSessions, page);
    }

    /**
     * `handleBatchDelete`: nothing happens without a selection or a callback. Otherwise the
     * selected ids go to the callback with the project id of the session holding the first of
     * them; when no session holds it, no call is made. A successful call ends the selection mode.
     */
    method HandleBatchDelete(succeeds: bool)
      requires Valid()
      modifies this
      ensures Valid()
      ensures |old(selectedSessions)| == 0 || !canBatchDelete ==>
                batchDeleteRequests == old(batchDeleteRequests)
                && selectedSessions == old(selectedSessions) && isSelectionMode == old(isSelectionMode)
                && isDeleting == old(isDeleting)
      ensures |old(selectedSessions)| > 0 && canBatchDelete ==>
                var first := FindById(sessions, old(selectedSessions)[0]);
                && !isDeleting
                && (first.None? ==> batchDeleteRequests == old(batchDeleteRequests)
                                    && selectedSessions == old(selectedSessions) && isSelectionMode == old(isSelectionMode))
                && (first.Some? ==> batchDeleteRequests == old(batchDeleteRequests) + [(old(selectedSessions), first.value.projectId)])
                && (first.Some? && succeeds ==> selectedSessions == [] && !isSelectionMode)
                && (first.Some? && !succeeds ==> selectedSessions == old(selectedSessions) && isSelectionMode == old(isSelectionMode))
      ensures sessions == old(sessions) && currentPage == old(currentPage)
      ensures sessionToDelete == old(sessionToDelete) && deleteDialogOpen == old(deleteDialogOpen)
      ensures deleteRequests == old(deleteRequests)
    {
      if |selectedSessions| == 0 || !canBatchDelete {
        return;
      }
      isDeleting := true;
      var sessionIds := selectedSessions;
      var firstSession := FindById(sessions, sessionIds[0]);
      if firstSession.Some? {
        batchDeleteRequests := batchDeleteRequests + [(sessionIds, firstSession.value.projectId)];
        if succeeds {
          selectedSessions := [];
          isSelectionMode := false;
        }
      }
      isDeleting := false;
    }
  }
}
