/**
 * The enhanced session list (src/components/EnhancedSessionList.tsx): per-session statistics
 * derived from the loaded history, the search over sessions, the sort by message count, token
 * count or date in either direction, and pages of eight.
 */
module EnhancedSessionList {
  import opened Base
  import opened Text
  import opened Seqs
  import opened Messages
  import opened Sorting
  import opened Pagination
  import opened Sessions

  const ItemsPerPage: nat := 8

  /** What is derived from a session's history. */
  datatype SessionInfo = SessionInfo(messageCount: nat, totalTokens: nat, duration: string, summary: string, lastActivity: Option<string>)

  /** An entry written by the user or the assistant. */
  predicate IsConversational(e: Entry) {
    e.message.kind == "user" || e.message.kind == "assistant"
  }

  /** Input plus output tokens of an entry whose message carries a usage, else 0. */
  function EntryTokens(e: Entry): nat {
    if e.message.hasBody && e.message.usage.Some? then e.message.usage.value.inputTokens + e.message.usage.value.outputTokens
    else 0
  }

  /** The tokens of some entries, added up. */
  function TokenSum(es: seq<Entry>): nat {
    if es == [] then 0 else TokenSum(es[..|es| - 1]) + EntryTokens(es[|es| - 1])
  }

  /** The tokens of the conversational entries of a history, wherever they stand. */
  function ConversationTokens(history: seq<Entry>): nat {
    if history == [] then 0
    else ConversationTokens(history[..|history| - 1])
         + (if IsConversational(history[|history| - 1]) then EntryTokens(history[|history| - 1]) else 0)
  }

  /** Filtering first and then adding up counts exactly the conversational entries' tokens. */
  lemma {:induction false} TokenSumOfConversation(history: seq<Entry>)
    ensures TokenSum(Filter(history, IsConversational)) == ConversationTokens(history)
  {
    if history != [] {
      var front := history[..|history| - 1];
      var e := history[|history| - 1];
      TokenSumOfConversation(front);
      var f := Filter(front, IsConversational);
      if IsConversational(e) {
        assert Filter(history, IsConversational) == f + [e];
        assert (f + [e])[..|f + [e]| - 1] == f;
      } else {
        assert Filter(history, IsConversational) == f;
      }
    }
  }

  /**
   * The statistics loop: `messageCount` is the number of user and assistant entries and
   * `totalTokens` adds up their input and output tokens.
   */
  method ComputeStats(history: seq<Entry>) returns (messageCount: nat, totalTokens: nat)
    ensures messageCount == Count(history, IsConversational)
    ensures totalTokens == ConversationTokens(history)
  {
    var messages := Filter(history, IsConversational);
    messageCount := |messages|;
    FilterLength(history, IsConversational);
    totalTokens := 0;
    for i := 0 to |messages|
      invariant totalTokens == TokenSum(messages[..i])
    {
      assert messages[..i + 1][..i] == messages[..i];
      totalTokens := totalTokens + EntryTokens(messages[i]);
    }
    assert messages[..|messages|] == messages;
    TokenSumOfConversation(history);
  }

  /** Start of the first message: its `timestamp`, else `sentAt`, else the session's creation. */
  function StartMs(first: Entry, createdAt: int, dateMs: string -> int): int {
    if Present(first.timestamp) then dateMs(first.timestamp.value)
    else if Present(first.sentAt) then dateMs(first.sentAt.value)
    else createdAt * 1000
  }

  /** End of the last message: its `timestamp`, else `receivedAt`, else the session's creation. */
  function EndMs(last: Entry, createdAt: int, dateMs: string -> int): int {
    if Present(last.timestamp) then dateMs(last.timestamp.value)
    else if Present(last.receivedAt) then dateMs(last.receivedAt.value)
    else createdAt * 1000
  }

  /**
   * A duration in milliseconds as text: `minutes = Math.floor(ms / 60000)` and
   * `hours = Math.floor(minutes / 60)`; "Hh Mm" when there are hours, else "Mm".
   */
  function FormatDuration(durationMs: int): (text: string)
    ensures EndsWith(text, "m")
  {
    var minutes := durationMs / 60000;
    var hours := minutes / 60;
    var text := if hours > 0 then NatToString(hours) + "h " + NatToString(minutes % 60) + "m"
                else IntToString(minutes) + "m";
    assert text[|text| - 1..] == "m";
    text
  }

  /**
   * From an hour on, the text gives whole hours and the minutes left over: `h` hours and `m` minutes
   * with `m < 60` and `h * 3600000 + m * 60000 <= ms < h * 3600000 + (m + 1) * 60000`.
   */
  lemma FormatDurationHours(durationMs: int)
    requires durationMs >= 3600000
    ensures var h, m := durationMs / 3600000, (durationMs % 3600000) / 60000;
      && m < 60
      && h * 3600000 + m * 60000 <= durationMs < h * 3600000 + (m + 1) * 60000
      && FormatDuration(durationMs) == NatToString(h) + "h " + NatToString(m) + "m"
  {
    var h, rest := durationMs / 3600000, durationMs % 3600000;
    var m, sec := rest / 60000, rest % 60000;
    assert durationMs == 3600000 * h + 60000 * m + sec;
    var minutes := durationMs / 60000;
    assert minutes == 60 * h + m;
    assert minutes / 60 == h && minutes % 60 == m;
  }

  /** Under an hour, the text is the whole minutes alone. */
  lemma FormatDurationMinutes(durationMs: int)
    requires 0 <= durationMs < 3600000
    ensures FormatDuration(durationMs) == NatToString(durationMs / 60000) + "m"
  {
    assert durationMs / 60000 < 60;
  }

  /** The duration of a history: from the first to the last conversational entry, or "" without any. */
  function Duration(messages: seq<Entry>, createdAt: int, dateMs: string -> int): (d: string)
    ensures messages == [] <==> d == ""
  {
    if messages == [] then ""
    else FormatDuration(EndMs(messages[|messages| - 1], createdAt, dateMs) - StartMs(messages[0], createdAt, dateMs))
  }

  /** The last activity: the last conversational entry's `timestamp`, else its `receivedAt`. */
  function LastActivity(messages: seq<Entry>): Option<string> {
    if messages == [] then None
    else
      var last := messages[|messages| - 1];
      if Present(last.timestamp) then last.timestamp else last.receivedAt
  }

  /** The information derived from a loaded history (the cost estimate is not modelled). */
  function InfoOf(history: seq<Entry>, createdAt: int, dateMs: string -> int): (info: SessionInfo)
    ensures info.messageCount == Count(history, IsConversational)
    ensures info.totalTokens == ConversationTokens(history)
    ensures |info.summary| <= 200
    ensures info.duration == "" <==> info.messageCount == 0
  {
    var messages := Filter(history, IsConversational);
    FilterLength(history, IsConversational);
    TokenSumOfConversation(history);
    SessionInfo(|messages|, TokenSum(messages), Duration(messages, createdAt, dateMs),
                Summary(history, 200, false), LastActivity(messages))
  }

  /** The search: the id, the first message or the loaded summary contains the lower-cased query. */
  predicate Matches(s: Session, infos: map<string, SessionInfo>, query: string) {
    || Contains(ToLower(s.id), query)
    || FieldMatches(s.firstMessage, query)
    || (s.id in infos && Contains(ToLower(infos[s.id].summary), query))
  }

  /** The sessions the search keeps, in order; an empty query keeps them all. */
  function Search(sessions: seq<Session>, infos: map<string, SessionInfo>, searchQuery: string): (r: seq<Session>)
    ensures searchQuery == "" ==> r == sessions
    ensures searchQuery != "" ==> forall x :: x in r <==> x in sessions && Matches(x, infos, ToLower(searchQuery))
    ensures IsSubsequence(r, sessions)
  {
    if searchQuery == "" then
      assert Embeds(seq(|sessions|, k requires 0 <= k < |sessions| => k), sessions, sessions);
      sessions
    else
      var query := ToLower(searchQuery);
      FilterIsSubsequence(sessions, s => Matches(s, infos, query));
      Filter(sessions, s => Matches(s, infos, query))
  }

  datatype SortKey = ByDate | ByMessages | ByTokens
  datatype SortOrder = Asc | Desc

  /**
   * The number the comparator compares: the message or token count (0 until loaded), or for the
   * date the last activity in milliseconds, falling back to the creation time in seconds.
   */
  function Key(s: Session, infos: map<string, SessionInfo>, sortBy: SortKey, dateMs: string -> int): int {
    var info := if s.id in infos then Some(infos[s.id]) else None;
    match sortBy
    case ByMessages => if info.Some? then info.value.messageCount else 0
    case ByTokens => if info.Some? then info.value.totalTokens else 0
    case ByDate => ActivityKeyAsWritten(if info.Some? then info.value.lastActivity else None, s.createdAt, dateMs)
  }

  /** The comparator as a rank: the key ascending, or negated for a descending order. */
  function Rank(infos: map<string, SessionInfo>, sortBy: SortKey, sortOrder: SortOrder, dateMs: string -> int): Session -> int {
    s => if sortOrder == Asc then Key(s, infos, sortBy, dateMs) else -Key(s, infos, sortBy, dateMs)
  }

  /** `filteredAndSortedSessions`. */
  function FilteredAndSorted(sessions: seq<Session>, infos: map<string, SessionInfo>, searchQuery: string,
                             sortBy: SortKey, sortOrder: SortOrder, dateMs: string -> int): seq<Session>
  {
    SortBy(Search(sessions, infos, searchQuery), Rank(infos, sortBy, sortOrder, dateMs))
  }

  /** The list holds what the search keeps, by key ascending or descending as chosen. */
  lemma FilteredAndSortedOrder(sessions: seq<Session>, infos: map<string, SessionInfo>, searchQuery: string,
                               sortBy: SortKey, sortOrder: SortOrder, dateMs: string -> int)
    ensures var r := FilteredAndSorted(sessions, infos, searchQuery, sortBy, sortOrder, dateMs);
      && multiset(r) == multiset(Search(sessions, infos, searchQuery))
      && (sortOrder == Asc ==> forall i, j :: 0 <= i < j < |r| ==> Key(r[i], infos, sortBy, dateMs) <= Key(r[j], infos, sortBy, dateMs))
      && (sortOrder == Desc ==> forall i, j :: 0 <= i < j < |r| ==> Key(r[i], infos, sortBy, dateMs) >= Key(r[j], infos, sortBy, dateMs))
  {
    var rank := Rank(infos, sortBy, sortOrder, dateMs);
    var r := FilteredAndSorted(sessions, infos, searchQuery, sortBy, sortOrder, dateMs);
    SortBySorts(Search(sessions, infos, searchQuery), rank);
    assert forall i, j :: 0 <= i < j < |r| ==> rank(r[i]) <= rank(r[j]);
  }

  /** Sessions with equal keys keep the order the back end gave them, whichever the direction. */
  lemma FilteredAndSortedKeepsTies(sessions: seq<Session>, infos: map<string, SessionInfo>, searchQuery: string,
                                   sortBy: SortKey, sortOrder: SortOrder, dateMs: string -> int)
    ensures var rank := Rank(infos, sortBy, sortOrder, dateMs);
      forall v :: WithRank(FilteredAndSorted(sessions, infos, searchQuery, sortBy, sortOrder, dateMs), rank, v)
               == WithRank(Search(sessions, infos, searchQuery), rank, v)
  {
    var rank := Rank(infos, sortBy, sortOrder, dateMs);
    var found := Search(sessions, infos, searchQuery);
    forall v
      ensures WithRank(SortBy(found, rank), rank, v) == WithRank(found, rank, v)
    {
      SortByIsStable(found, rank, v);
    }
  }

  /** The component's state; `sessions` is the property it is given. */
  class EnhancedSessionListView {
    const sessions: seq<Session>
    /** `new Date(t).getTime()`. */
    const dateMs: string -> int
    var currentPage: int
    var searchQuery: string
    var sortBy: SortKey
    var sortOrder: SortOrder
    var sessionsInfo: map<string, SessionInfo>
    var loadingInfo: bool

    /** The sessions on the current page. */
    function CurrentSessions(): seq<Session>
      reads this
    {
      Page(FilteredAndSorted(sessions, sessionsInfo, searchQuery, sortBy, sortOrder, dateMs), currentPage, ItemsPerPage)
    }

    constructor(sessions: seq<Session>, dateMs: string -> int)
      ensures this.sessions == sessions && this.dateMs == dateMs
      ensures currentPage == 1 && searchQuery == "" && sortBy == ByDate && sortOrder == Desc
      ensures sessionsInfo == map[] && loadingInfo
    {
      this.sessions := sessions;
      this.dateMs := dateMs;
      currentPage := 1;
      searchQuery := "";
      sortBy := ByDate;
      sortOrder := Desc;
      sessionsInfo := map[];
      loadingInfo := true;
    }

    /** The loaded information arrives (one entry per session whose history loaded). */
    method InfoLoaded(infoMap: map<string, SessionInfo>)
      modifies this
      ensures sessionsInfo == infoMap && !loadingInfo
      ensures currentPage == old(currentPage) && searchQuery == old(searchQuery)
      ensures sortBy == old(sortBy) && sortOrder == old(sortOrder)
    {
      sessionsInfo := infoMap;
      loadingInfo := false;
    }

    /** A new query; a changed query sends the list back to page 1. */
    method SetSearchQuery(query: string)
      modifies this
      ensures searchQuery == query
      ensures currentPage == (if query != old(searchQuery) then 1 else old(currentPage))
      ensures sortBy == old(sortBy) && sortOrder == old(sortOrder)
      ensures sessionsInfo == old(sessionsInfo) && loadingInfo == old(loadingInfo)
    {
      if query != searchQuery {
        searchQuery := query;
        currentPage := 1;
      }
    }

    /** A new sort key; a changed key sends the list back to page 1. */
    method SetSortBy(key: SortKey)
      modifies this
      ensures sortBy == key
      ensures currentPage == (if key != old(sortBy) then 1 else old(currentPage))
      ensures searchQuery == old(searchQuery) && sortOrder == old(sortOrder)
      ensures sessionsInfo == old(sessionsInfo) && loadingInfo == old(loadingInfo)
    {
      if key != sortBy {
        sortBy := key;
        currentPage := 1;
      }
    }

    /** A new direction; a changed direction sends the list back to page 1. */
    method SetSortOrder(order: SortOrder)
      modifies this
      ensures sortOrder == order
      ensures currentPage == (if order != old(sortOrder) then 1 else old(currentPage))
      ensures searchQuery == old(searchQuery) && sortBy == old(sortBy)
      ensures sessionsInfo == old(sessionsInfo) && loadingInfo == old(loadingInfo)
    {
      if order != sortOrder {
        sortOrder := order;
        currentPage := 1;
      }
    }

    /** The page the pagination control moves to. */
    method SetCurrentPage(page: int)
      modifies this
      ensures currentPage == page
      ensures searchQuery == old(searchQuery) && sortBy == old(sortBy) && sortOrder == old(sortOrder)
      ensures sessionsInfo == old(sessionsInfo) && loadingInfo == old(loadingInfo)
    {
      currentPage := page;
    }
  }
}
