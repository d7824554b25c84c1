/**
 * The client-side store of the conversation list (lib/redux/slices/conversationsSlice.ts): its
 * three reducers, the state changes for the fetch, rename and delete requests, and the mapping
 * of fetched rows into list entries. Timestamps are milliseconds, standing for the ISO strings
 * the store keeps.
 */
module ConversationsSlice {
  import opened Wrappers
  import opened Text
  import opened Wire
  import opened ConversationLists

  /** The fields an `updateConversation` payload sets; a missing field is left as it was. */
  datatype EntryUpdate = EntryUpdate(id: Option<string>, title: Option<string>, preview: Option<string>,
                                     timestamp: Option<int>, messages: Option<seq<UiMessage>>)

  /** `{ ...c, ...u }`. */
  function Merge(c: ConversationEntry, u: EntryUpdate): ConversationEntry {
    ConversationEntry(u.id.GetOr(c.id), u.title.GetOr(c.title), u.preview.GetOr(c.preview),
                      u.timestamp.GetOr(c.timestamp), u.messages.GetOr(c.messages))
  }

  /** An update that sets nothing leaves an entry as it is. */
  lemma EmptyUpdateKeepsEntry(c: ConversationEntry)
    ensures Merge(c, EntryUpdate(None, None, None, None, None)) == c
  {
  }

  /** Applying the same update twice is applying it once. */
  lemma MergeIdempotent(c: ConversationEntry, u: EntryUpdate)
    ensures Merge(Merge(c, u), u) == Merge(c, u)
  {
  }

  /** `c => c.id !== id`: the entries a delete keeps. */
  function OtherThan(id: string): ConversationEntry -> bool {
    (c: ConversationEntry) => c.id != id
  }

  /** A delete keeps exactly the entries with another id. */
  lemma DeleteKeepsOthers(s: seq<ConversationEntry>, id: string)
    ensures forall c :: c in Where(s, OtherThan(id)) <==> c in s && c.id != id
  {
    WhereMembers(s, OtherThan(id));
  }

  /** Deleting an id that is not listed changes nothing. */
  lemma DeleteAbsentIsNoop(s: seq<ConversationEntry>, id: string)
    requires IndexOfId(s, id) == -1
    ensures Where(s, OtherThan(id)) == s
  {
    WhereAll(s, OtherThan(id));
  }

  /** Deleting the id of a conversation just added in front, and listed nowhere else, gives back the list before it. */
  lemma AddThenDeleteRestores(s: seq<ConversationEntry>, c: ConversationEntry)
    requires IndexOfId(s, c.id) == -1
    ensures Where([c] + s, OtherThan(c.id)) == s
  {
    WhereConcat([c], s, OtherThan(c.id));
    assert Where([c], OtherThan(c.id)) == [] by {
      assert [c][..0] == [];
    }
    DeleteAbsentIsNoop(s, c.id);
  }

  /** Renaming is an update that sets the title alone. */
  lemma RenameIsTitleUpdate(c: ConversationEntry, title: string)
    ensures c.(title := title) == Merge(c, EntryUpdate(None, Some(title), None, None, None))
  {
  }

  /** A conversation row as the list endpoint returns it; a missing or unreadable date is None. */
  datatype ApiConversation = ApiConversation(id: string, title: string, preview: Option<string>, lastMessageAt: Option<int>)

  const DefaultPreview: string := "Click to view conversation"

  /**
   * The fetch thunk's result for an OK response: each row as a list entry, with the default
   * preview when it has none and no messages; a row without a date makes `toISOString` throw,
   * which fails the whole fetch.
   */
  function FetchedEntries(rows: seq<ApiConversation>): (r: Result<seq<ConversationEntry>, string>)
    ensures r.Failure? <==> exists k :: 0 <= k < |rows| && rows[k].lastMessageAt.None?
    ensures r.Failure? ==> r.error == "Invalid time value"
    ensures r.Success? ==> |r.value| == |rows|
    ensures r.Success? ==> forall k :: 0 <= k < |rows| ==>
              && r.value[k].id == rows[k].id && r.value[k].title == rows[k].title
              && r.value[k].preview == (if Truthy(rows[k].preview) then rows[k].preview.value else DefaultPreview)
              && Some(r.value[k].timestamp) == rows[k].lastMessageAt
              && r.value[k].messages == []
  {
    if rows == [] then Success([])
    else
      match rows[0].lastMessageAt
      case None => Failure("Invalid time value")
      case Some(at) =>
        var preview := if Truthy(rows[0].preview) then rows[0].preview.value else DefaultPreview;
        var head := ConversationEntry(rows[0].id, rows[0].title, preview, at, []);
        match FetchedEntries(rows[1..])
        case Failure(e) => Failure(e)
        case Success(rest) => Success([head] + rest)
  }

  /** Every fetched conversation shows some preview. */
  lemma FetchedPreviewsNonEmpty(rows: seq<ApiConversation>)
    requires FetchedEntries(rows).Success?
    ensures forall k :: 0 <= k < |FetchedEntries(rows).value| ==> FetchedEntries(rows).value[k].preview != ""
  {
  }

  /** What the fetch thunk settles with: the mapped rows, or the message of the error it caught. */
  function FetchOutcome(rows: Option<seq<ApiConversation>>): (r: Result<seq<ConversationEntry>, string>)
    ensures rows.None? ==> r == Failure("Failed to fetch conversations")
    ensures rows.Some? ==> r == FetchedEntries(rows.value)
  {
    match rows
    case None => Failure("Failed to fetch conversations")
    case Some(v) => FetchedEntries(v)
  }

  /** The store: the list, the fetch flag, the last fetch error and the time of the last successful fetch. */
  class ConversationsState {
    var conversations: seq<ConversationEntry>
    var isLoading: bool
    var error: Option<string>
    var lastFetched: Option<int>

    /** `initialState`. */
    constructor()
      ensures conversations == [] && !isLoading && error == None && lastFetched == None
    {
      conversations := [];
      isLoading := false;
      error := None;
      lastFetched := None;
    }

    /** `addConversation`: the new entry goes first and the others keep their order. */
    method AddConversation(c: ConversationEntry)
      modifies this
      ensures conversations == [c] + old(conversations)
      ensures isLoading == old(isLoading) && error == old(error) && lastFetched == old(lastFetched)
    {
      conversations := [c] + conversations;
    }

    /** `updateConversation`: the first entry with the id takes the update; no entry with it, no change. */
    method UpdateConversation(id: string, u: EntryUpdate)
      modifies this
      ensures var i := IndexOfId(old(conversations), id);
              conversations == if i == -1 then old(conversations) else old(conversations)[i := Merge(old(conversations)[i], u)]
      ensures isLoading == old(isLoading) && error == old(error) && lastFetched == old(lastFetched)
    {
      var i := IndexOfId(conversations, id);
      if i != -1 {
        conversations := conversations[i := Merge(conversations[i], u)];
      }
    }

    /** `clearConversations`: the list and the fetch time are reset; the flag and the error stay. */
    method ClearConversations()
      modifies this
      ensures conversations == [] && lastFetched == None
      ensures isLoading == old(isLoading) && error == old(error)
    {
      conversations := [];
      lastFetched := None;
    }

    /** `fetchConversations.pending`. */
    method FetchPending()
      modifies this
      ensures isLoading && error == None
      ensures conversations == old(conversations) && lastFetched == old(lastFetched)
    {
      isLoading := true;
      error := None;
    }

    /**
     * `fetchConversations.fulfilled` or `.rejected`, for the thunk's outcome at time `now`: the
     * list is replaced and the time stamped, or the error is kept and the list left as it was.
     */
    method FetchSettled(outcome: Result<seq<ConversationEntry>, string>, now: int)
      modifies this
      ensures !isLoading
      ensures outcome.Success? ==> conversations == outcome.value && lastFetched == Some(now) && error == old(error)
      ensures outcome.Failure? ==> conversations == old(conversations) && lastFetched == old(lastFetched) && error == Some(outcome.error)
    {
      isLoading := false;
      match outcome {
        case Success(list) =>
          conversations := list;
          lastFetched := Some(now);
        case Failure(message) =>
          error := Some(message);
      }
    }

    /** `renameConversation.fulfilled`: only the title of the first entry with the id changes. */
    method RenameFulfilled(id: string, newTitle: string)
      modifies this
      ensures var i := IndexOfId(old(conversations), id);
              conversations == if i == -1 then old(conversations) else old(conversations)[i := old(conversations)[i].(title := newTitle)]
      ensures isLoading == old(isLoading) && error == old(error) && lastFetched == old(lastFetched)
    {
      var i := IndexOfId(conversations, id);
      if i != -1 {
        conversations := conversations[i := conversations[i].(title := newTitle)];
      }
    }

    /** `deleteConversation.fulfilled`: every entry with the id goes; the rest keep their order. */
    method DeleteFulfilled(id: string)
      modifies this
      ensures conversations == Where(old(conversations), OtherThan(id))
      ensures isLoading == old(isLoading) && error == old(error) && lastFetched == old(lastFetched)
    {
      conversations := Where(conversations, OtherThan(id));
    }
  }
}
