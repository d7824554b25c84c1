/**
 * The search modal (components/search-modal.tsx): a title-only filter that is skipped for a
 * blank query, and a grouping by raw timestamp against thresholds counted back from today's
 * midnight. Times are milliseconds; `todayStart` is the timestamp of today's local midnight.
 */
module SearchModal {
  import opened Text
  import opened Wire
  import opened ConversationLists
  import Sidebar

  /** The title test: the lower-cased query, as typed and not trimmed, occurs in the lower-cased title. */
  function TitleMatches(query: string): ConversationEntry -> bool {
    (c: ConversationEntry) => Includes(Lower(c.title), Lower(query))
  }

  /** `filteredConversations`: every conversation while the trimmed query is empty, else those whose title matches. */
  function SearchFilter(convs: seq<ConversationEntry>, query: string): seq<ConversationEntry> {
    if Trim(query) != "" then Where(convs, TitleMatches(query)) else convs
  }

  /** A conversation is a result iff the query is blank or occurs, ignoring case, in its title. */
  lemma SearchFilterMembers(convs: seq<ConversationEntry>, query: string)
    ensures forall c :: c in SearchFilter(convs, query) <==>
              c in convs && (AllSpace(query) || Includes(Lower(c.title), Lower(query)))
  {
    WhereMembers(convs, TitleMatches(query));
  }

  /** A query of spaces only lists every conversation, in order. */
  lemma BlankQueryKeepsAll(convs: seq<ConversationEntry>, query: string)
    requires AllSpace(query)
    ensures SearchFilter(convs, query) == convs
  {
  }

  /**
   * "No chats found" is shown exactly when there are no conversations, or the query is not
   * blank and no title contains it.
   */
  lemma NoChatsFound(convs: seq<ConversationEntry>, query: string)
    ensures SearchFilter(convs, query) == [] <==>
              |convs| == 0 || (!AllSpace(query) && forall i :: 0 <= i < |convs| ==> !Includes(Lower(convs[i].title), Lower(query)))
  {
    SearchFilterMembers(convs, query);
    if SearchFilter(convs, query) == [] && !AllSpace(query) {
      forall i | 0 <= i < |convs| ensures !Includes(Lower(convs[i].title), Lower(query)) {
        assert convs[i] in convs;
      }
    }
    if SearchFilter(convs, query) != [] {
      assert SearchFilter(convs, query)[0] in SearchFilter(convs, query);
    }
  }

  /**
   * The blank test trims the query but the match does not: a title equal to the trimmed query
   * is missed once the query carries surrounding spaces (the title "hello" and the query "hello ").
   */
  lemma PaddedQueryMissesTitle(convs: seq<ConversationEntry>, query: string, c: ConversationEntry)
    requires c.title != "" && Trim(query) == c.title && |query| > |c.title|
    ensures c !in SearchFilter(convs, query)
  {
    SearchFilterMembers(convs, query);
    assert |Lower(query)| > |Lower(c.title)|;
  }

  /**
   * `groupConversations`' test: at or after today's midnight, at or after yesterday's, at or
   * after the midnight 7 days back, at or after the one 30 days back, or older.
   */
  function SearchBucket(todayStart: int, timestamp: int): (b: Bucket)
    ensures b == Today <==> timestamp >= todayStart
    ensures b == Yesterday <==> todayStart - Sidebar.DayMs <= timestamp < todayStart
    ensures b == Week <==> todayStart - 7 * Sidebar.DayMs <= timestamp < todayStart - Sidebar.DayMs
    ensures b == Month <==> todayStart - 30 * Sidebar.DayMs <= timestamp < todayStart - 7 * Sidebar.DayMs
    ensures b == Older <==> timestamp < todayStart - 30 * Sidebar.DayMs
  {
    if timestamp >= todayStart then Today
    else if timestamp >= todayStart - Sidebar.DayMs then Yesterday
    else if timestamp >= todayStart - 7 * Sidebar.DayMs then Week
    else if timestamp >= todayStart - 30 * Sidebar.DayMs then Month
    else Older
  }

  /** A later conversation never lands in an older group than an earlier one. */
  lemma SearchBucketsOrdered(todayStart: int, t1: int, t2: int)
    requires t1 <= t2
    ensures Rank(SearchBucket(todayStart, t2)) <= Rank(SearchBucket(todayStart, t1))
  {
  }

  function SearchClass(todayStart: int): ConversationEntry -> Bucket {
    (c: ConversationEntry) => SearchBucket(todayStart, c.timestamp)
  }

  /** `groupConversations(convs)` with today's midnight at `todayStart`. */
  method GroupConversations(convs: seq<ConversationEntry>, todayStart: int) returns (g: Groups)
    ensures forall b :: Get(g, b) == InBucket(convs, SearchClass(todayStart), b)
  {
    g := GroupBy(convs, SearchClass(todayStart));
  }

  /**
   * The modal and the sidebar file a past conversation under the same group except on two days:
   * the day 7 days back, which the modal counts in the last week and the sidebar in the last month,
   * and the day 30 days back, which the modal counts in the last month and the sidebar as older.
   */
  lemma SidebarAgreesOffBoundaries(today: int, timestamp: int)
    requires Sidebar.DayOf(timestamp) <= today
    ensures var d := Sidebar.DayOf(timestamp);
            var s := SearchBucket(today * Sidebar.DayMs, timestamp);
            var b := Sidebar.DayBucket(today, timestamp);
            (d == today - 7 ==> s == Week && b == Month) &&
            (d == today - 30 ==> s == Month && b == Older) &&
            (d != today - 7 && d != today - 30 ==> s == b)
  {
    var d := Sidebar.DayOf(timestamp);
    assert d * Sidebar.DayMs <= timestamp < (d + 1) * Sidebar.DayMs;
  }

  /** A conversation dated after today is "Today" in the modal but "Last 7 days" in the sidebar. */
  lemma FutureDatesDisagree(today: int, timestamp: int)
    requires Sidebar.DayOf(timestamp) > today
    ensures SearchBucket(today * Sidebar.DayMs, timestamp) == Today
    ensures Sidebar.DayBucket(today, timestamp) == Week
  {
    var d := Sidebar.DayOf(timestamp);
    assert d * Sidebar.DayMs <= timestamp;
    assert (today + 1) * Sidebar.DayMs <= d * Sidebar.DayMs;
  }
}
