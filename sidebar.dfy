/**
 * The sidebar (components/sidebar.tsx): the search filter over titles and previews, the
 * grouping of conversations by calendar day, the account name and initials, and the inline
 * rename editor. Dates are day numbers (`DayOf` of a millisecond timestamp); the local time
 * zone is not modelled.
 */
module Sidebar {
  import opened Wrappers
  import opened Text
  import opened Wire
  import opened ConversationLists

  const DayMs: int := 86400000

  /** The day a millisecond timestamp falls on: the date with its time of day dropped. */
  function DayOf(ms: int): int {
    ms / DayMs
  }

  /**
   * `groupConversationsByDate`'s test for one conversation: the same day as today, the day
   * before, a day after the one 7 days back, a day after the one 30 days back, or older.
   */
  function DayBucket(today: int, timestamp: int): (b: Bucket)
    ensures b == Today <==> DayOf(timestamp) == today
    ensures b == Yesterday <==> DayOf(timestamp) == today - 1
    ensures b == Week <==> DayOf(timestamp) != today && DayOf(timestamp) != today - 1 && DayOf(timestamp) > today - 7
    ensures b == Month <==> today - 30 < DayOf(timestamp) <= today - 7
    ensures b == Older <==> DayOf(timestamp) <= today - 30
  {
    var d := DayOf(timestamp);
    if d == today then Today
    else if d == today - 1 then Yesterday
    else if d > today - 7 then Week
    else if d > today - 30 then Month
    else Older
  }

  /** A conversation dated after today is not "Today": it falls in the last 7 days. */
  lemma FutureDaysInLastWeek(today: int, timestamp: int)
    requires DayOf(timestamp) > today
    ensures DayBucket(today, timestamp) == Week
  {
  }

  /** Up to today, a later day never lands in an older group than an earlier one. */
  lemma DayBucketsOrdered(today: int, t1: int, t2: int)
    requires t1 <= t2 && DayOf(t2) <= today
    ensures Rank(DayBucket(today, t2)) <= Rank(DayBucket(today, t1))
  {
    assert DayOf(t1) <= DayOf(t2) by {
      DivMonotone(t1, t2);
    }
  }

  lemma DivMonotone(a: int, b: int)
    requires a <= b
    ensures a / DayMs <= b / DayMs
  {
  }

  function DayClass(today: int): ConversationEntry -> Bucket {
    (c: ConversationEntry) => DayBucket(today, c.timestamp)
  }

  /** `groupConversationsByDate(convs)` for the day `today`. */
  method GroupByDate(convs: seq<ConversationEntry>, today: int) returns (g: Groups)
    ensures forall b :: Get(g, b) == InBucket(convs, DayClass(today), b)
  {
    g := GroupBy(convs, DayClass(today));
  }

  /** The sidebar's search: the lower-cased query occurs in the lower-cased title or preview. */
  function MatchesQuery(query: string): ConversationEntry -> bool {
    (c: ConversationEntry) => Includes(Lower(c.title), Lower(query)) || Includes(Lower(c.preview), Lower(query))
  }

  function FilterConversations(convs: seq<ConversationEntry>, query: string): seq<ConversationEntry> {
    Where(convs, MatchesQuery(query))
  }

  /** A conversation is listed iff the query occurs, ignoring case, in its title or its preview. */
  lemma FilterKeepsMatches(convs: seq<ConversationEntry>, query: string)
    ensures forall c :: c in FilterConversations(convs, query) <==>
              c in convs && (Includes(Lower(c.title), Lower(query)) || Includes(Lower(c.preview), Lower(query)))
  {
    WhereMembers(convs, MatchesQuery(query));
  }

  /** The empty query lists every conversation, in order. */
  lemma EmptyQueryKeepsAll(convs: seq<ConversationEntry>)
    ensures FilterConversations(convs, "") == convs
  {
    forall i | 0 <= i < |convs| ensures MatchesQuery("")(convs[i]) {
      assert OccursAt(Lower(convs[i].title), Lower(""), 0);
    }
    WhereAll(convs, MatchesQuery(""));
  }

  /** The signed-in account as the sidebar reads it; every field may be missing. */
  datatype Account = Account(firstName: Option<string>, lastName: Option<string>, emailAddress: Option<string>)

  /** The account has an email whose part before '@' is not empty. */
  predicate HasEmailName(user: Option<Account>) {
    user.Some? && user.value.emailAddress.Some? && BeforeFirst(user.value.emailAddress.value, '@') != ""
  }

  /**
   * `userName`: "first last" with both names, else the first name, else the part of the email
   * before '@', else "User"; a missing account reads like one with every field missing.
   */
  function UserName(user: Option<Account>): (r: string)
    ensures r != ""
    ensures user.Some? && Truthy(user.value.firstName) && Truthy(user.value.lastName) ==>
              r == user.value.firstName.value + " " + user.value.lastName.value
    ensures user.Some? && Truthy(user.value.firstName) && !Truthy(user.value.lastName) ==> r == user.value.firstName.value
    ensures (user.None? || !Truthy(user.value.firstName)) && HasEmailName(user) ==>
              r == BeforeFirst(user.value.emailAddress.value, '@')
    ensures (user.None? || !Truthy(user.value.firstName)) && !HasEmailName(user) ==> r == "User"
    ensures '@' in r ==> user.Some? && Truthy(user.value.firstName)
  {
    var first := if user.Some? then user.value.firstName else None;
    var last := if user.Some? then user.value.lastName else None;
    var email := if user.Some? then user.value.emailAddress else None;
    if Truthy(first) && Truthy(last) then first.value + " " + last.value
    else if Truthy(first) then first.value
    else if email.Some? && BeforeFirst(email.value, '@') != "" then BeforeFirst(email.value, '@')
    else "User"
  }

  /**
   * `userInitials`: the first letters of both names; else the first letter of the first name;
   * else the upper-cased first letter of the email; else "U".
   */
  function UserInitials(user: Option<Account>): (r: string)
    ensures 1 <= |r| <= 2
    ensures |r| == 2 <==> user.Some? && Truthy(user.value.firstName) && Truthy(user.value.lastName)
    ensures |r| == 2 ==> r == [user.value.firstName.value[0], user.value.lastName.value[0]]
    ensures user.Some? && Truthy(user.value.firstName) ==> r[0] == user.value.firstName.value[0]
    ensures (user.None? || !Truthy(user.value.firstName)) && user.Some? && Truthy(user.value.emailAddress) ==>
              r == [UpperChar(user.value.emailAddress.value[0])] && !('a' <= r[0] <= 'z')
    ensures (user.None? || !Truthy(user.value.firstName)) && !(user.Some? && Truthy(user.value.emailAddress)) ==> r == "U"
  {
    var first := if user.Some? then user.value.firstName else None;
    var last := if user.Some? then user.value.lastName else None;
    var email := if user.Some? then user.value.emailAddress else None;
    if Truthy(first) && Truthy(last) then [first.value[0], last.value[0]]
    else if Truthy(first) then [first.value[0]]
    else if Truthy(email) then [UpperChar(email.value[0])]
    else "U"
  }

  /**
   * What `handleRenameSave` sends: the trimmed title, when it is not blank and the title as
   * typed differs from the conversation's current one (any title differs when the id is unknown).
   */
  function RenameRequest(convs: seq<ConversationEntry>, convId: string, editingTitle: string): (r: Option<(string, string)>)
    ensures r.Some? <==> Trim(editingTitle) != "" &&
                         (IndexOfId(convs, convId) == -1 || convs[IndexOfId(convs, convId)].title != editingTitle)
    ensures r.Some? ==> r.value.0 == convId && r.value.1 == Trim(editingTitle)
  {
    var i := IndexOfId(convs, convId);
    if Trim(editingTitle) != "" && (i == -1 || convs[i].title != editingTitle) then Some((convId, Trim(editingTitle)))
    else None
  }

  /** A rename never sends a blank title or one with surrounding whitespace, and retyping the current title sends nothing. */
  lemma RenameSendsCleanTitle(convs: seq<ConversationEntry>, convId: string, editingTitle: string)
    ensures var r := RenameRequest(convs, convId, editingTitle);
            r.Some? ==> r.value.1 != "" && !IsSpace(r.value.1[0]) && !IsSpace(r.value.1[|r.value.1| - 1])
    ensures var i := IndexOfId(convs, convId);
            i >= 0 && convs[i].title == editingTitle ==> RenameRequest(convs, convId, editingTitle).None?
    ensures AllSpace(editingTitle) ==> RenameRequest(convs, convId, editingTitle).None?
  {
  }

  /** The inline title editor: the id being renamed and the text typed so far. */
  class RenameEditor {
    var editingId: Option<string>
    var editingTitle: string

    constructor()
      ensures editingId == None && editingTitle == ""
    {
      editingId := None;
      editingTitle := "";
    }

    /** `handleRenameStart(conv)`. */
    method Start(conv: ConversationEntry)
      modifies this
      ensures editingId == Some(conv.id) && editingTitle == conv.title
    {
      editingId := Some(conv.id);
      editingTitle := conv.title;
    }

    /** Typing into the field. */
    method Type(text: string)
      modifies this
      ensures editingTitle == text && editingId == old(editingId)
    {
      editingTitle := text;
    }

    /** `handleRenameSave(convId)`: the rename to issue, if any; the editor is closed either way. */
    method Save(convs: seq<ConversationEntry>, convId: string) returns (rename: Option<(string, string)>)
      modifies this
      ensures rename == RenameRequest(convs, convId, old(editingTitle))
      ensures editingId == None && editingTitle == ""
    {
      rename := RenameRequest(convs, convId, editingTitle);
      editingId := None;
      editingTitle := "";
    }

    /** `handleRenameCancel`. */
    method Cancel()
      modifies this
      ensures editingId == None && editingTitle == ""
    {
      editingId := None;
      editingTitle := "";
    }
  }
}
