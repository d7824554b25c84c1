/**
 * The chat view's session state (app/page.tsx): the open conversation, the displayed transcript
 * and the map from pair id to selected branch index. Loading a conversation rebuilds the
 * transcript from the flattened records; the branch buttons move an index; editing and
 * regenerating cut the transcript and build the request that creates a new branch.
 */
module ChatSession {
  import opened Wrappers
  import opened Text
  import opened Wire
  import opened ConversationTree

  /** `messages.findIndex(m => m.id === id)`: the first position holding `id`, or -1. */
  function FindIndex(messages: seq<UiMessage>, id: string): (i: int)
    ensures -1 <= i < |messages|
    ensures i >= 0 ==> messages[i].id == Some(id) && forall k :: 0 <= k < i ==> messages[k].id != Some(id)
    ensures i == -1 ==> forall k :: 0 <= k < |messages| ==> messages[k].id != Some(id)
  {
    if messages == [] then -1
    else if messages[0].id == Some(id) then 0
    else
      var r := FindIndex(messages[1..], id);
      if r == -1 then -1 else r + 1
  }

  /**
   * The request `handleEditMessage` sends: the messages strictly before the edited one and the
   * new text as a user turn, with the edited pair's own id as the parent, so the new pair
   * becomes a child of the edited one. Nothing is sent without an open conversation or for an
   * unknown message id.
   */
  function EditRequest(conversationId: Option<string>, messages: seq<UiMessage>, messageId: string, newContent: string)
    : (r: Option<ChatRequest>)
    ensures r.Some? <==> Truthy(conversationId) && exists k :: 0 <= k < |messages| && messages[k].id == Some(messageId)
    ensures r.Some? ==>
      var sent := r.value.messages;
      var i := |sent| - 1;
      && 0 <= i < |messages|
      && messages[i].id == Some(messageId)
      && (forall k :: 0 <= k < i ==> messages[k].id != Some(messageId) && sent[k] == AsChat(messages[k]))
      && sent[i] == ChatMessage(User, newContent, None)
      && r.value.conversationId == conversationId.value
      && r.value.parentMessageId == ParentKey(messages[i].pairId)
  {
    var i := FindIndex(messages, messageId);
    if !Truthy(conversationId) || i == -1 then None
    else Some(ChatRequest(AsChatAll(messages[..i]) + [ChatMessage(User, newContent, None)],
                          conversationId.value, ParentKey(messages[i].pairId)))
  }

  /**
   * The request `handleRegenerateResponse` sends for the message at position `i`: everything
   * before it, with the id of the user message just before it as the parent. It gives up when
   * the message is unknown or first, or when the message before it is not a user message.
   */
  function RegenerateRequest(conversationId: Option<string>, messages: seq<UiMessage>, messageId: string)
    : (r: Option<ChatRequest>)
    ensures var i := FindIndex(messages, messageId);
            r.Some? <==> Truthy(conversationId) && i > 0 && messages[i - 1].role == User
    ensures r.Some? ==>
      var sent := r.value.messages;
      var i := |sent|;
      && 0 < i < |messages|
      && messages[i].id == Some(messageId)
      && (forall k :: 0 <= k < i ==> messages[k].id != Some(messageId) && sent[k] == AsChat(messages[k]))
      && messages[i - 1].role == User
      && r.value.conversationId == conversationId.value
      && r.value.parentMessageId == ParentKey(messages[i - 1].pairId)
  {
    var i := FindIndex(messages, messageId);
    if !Truthy(conversationId) || i == -1 || i == 0 then None
    else if messages[i - 1].role != User then None
    else Some(ChatRequest(AsChatAll(messages[..i]), conversationId.value, ParentKey(messages[i - 1].pairId)))
  }

  /** `handlePreviousBranch`: the entry for `pairId` goes down by one when it is above 0. */
  function PreviousIndices(indices: map<string, int>, pairId: string): (r: map<string, int>)
    ensures var cur := Lookup(indices, pairId, 0);
            && (cur > 0 ==> pairId in r && r[pairId] == cur - 1)
            && (cur <= 0 ==> r == indices)
            && (forall k :: k != pairId ==> (k in r <==> k in indices) && (k in r ==> r[k] == indices[k]))
  {
    var cur := Lookup(indices, pairId, 0);
    if cur > 0 then indices[pairId := cur - 1] else indices
  }

  /** `handleNextBranch`: the entry for `pairId` goes up by one while it is below `total - 1`. */
  function NextIndices(indices: map<string, int>, pairId: string, total: int): (r: map<string, int>)
    ensures var cur := Lookup(indices, pairId, 0);
            && (cur < total - 1 ==> pairId in r && r[pairId] == cur + 1)
            && (cur >= total - 1 ==> r == indices)
            && (forall k :: k != pairId ==> (k in r <==> k in indices) && (k in r ==> r[k] == indices[k]))
  {
    var cur := Lookup(indices, pairId, 0);
    if cur < total - 1 then indices[pairId := cur + 1] else indices
  }

  /** The buttons never wrap around: an index within `0..total-1` stays there. */
  lemma NavigationStaysInRange(indices: map<string, int>, pairId: string, total: int)
    requires 0 <= Lookup(indices, pairId, 0) <= total - 1
    ensures 0 <= Lookup(PreviousIndices(indices, pairId), pairId, 0) <= total - 1
    ensures 0 <= Lookup(NextIndices(indices, pairId, total), pairId, 0) <= total - 1
    ensures Lookup(indices, pairId, 0) == 0 ==> PreviousIndices(indices, pairId) == indices
    ensures Lookup(indices, pairId, 0) == total - 1 ==> NextIndices(indices, pairId, total) == indices
  {
  }

  /** Previous then next, away from the lower boundary, restores the map. */
  lemma PreviousThenNext(indices: map<string, int>, pairId: string, total: int)
    requires 0 < Lookup(indices, pairId, 0) < total
    ensures NextIndices(PreviousIndices(indices, pairId), pairId, total) == indices
  {
    var cur := Lookup(indices, pairId, 0);
    assert indices[pairId := cur - 1][pairId := cur] == indices;
  }

  /** Next then previous, away from the upper boundary, selects as before. */
  lemma NextThenPrevious(indices: map<string, int>, pairId: string, total: int)
    requires 0 <= Lookup(indices, pairId, 0) < total - 1
    ensures SameSelections(PreviousIndices(NextIndices(indices, pairId, total), pairId), indices)
    ensures pairId in indices ==> PreviousIndices(NextIndices(indices, pairId, total), pairId) == indices
  {
    var cur := Lookup(indices, pairId, 0);
    if pairId in indices {
      assert indices[pairId := cur + 1][pairId := cur] == indices;
    }
  }

  /**
   * The key whose index selects among the siblings of pair `pairId`: the parent id of its user
   * record. Root pairs have none, as every root is always displayed.
   */
  function SiblingKey(records: seq<ApiRecord>, pairId: string): (r: Option<string>)
    ensures r.Some? ==> exists u :: 0 <= u < |records| && records[u].role == User && records[u].pairId == pairId
                                     && ParentKey(records[u].parentMessageId) == r
  {
    match LatestUser(records, pairId, |records|)
    case None => None
    case Some(u) => ParentKey(records[u].parentMessageId)
  }

  /** Moving to the next sibling of pair `pairId`: the index under its parent id goes up by one. */
  function NextSiblingIndices(records: seq<ApiRecord>, indices: map<string, int>, pairId: string, total: int)
    : map<string, int>
  {
    match SiblingKey(records, pairId)
    case None => indices
    case Some(x) => NextIndices(indices, x, total)
  }

  /** Moving to the previous sibling of pair `pairId`: the index under its parent id goes down by one. */
  function PreviousSiblingIndices(records: seq<ApiRecord>, indices: map<string, int>, pairId: string)
    : map<string, int>
  {
    match SiblingKey(records, pairId)
    case None => indices
    case Some(x) => PreviousIndices(indices, x)
  }

  /**
   * As written, the branch buttons of a displayed pair pass that pair's own id, while the walk
   * reads the index of a group under the parent's id: a click leaves the walk at the parent
   * selecting the child it selected before.
   */
  lemma OwnIdNextKeepsSelection(records: seq<ApiRecord>, indices: map<string, int>, pairId: string, total: int,
                                x: string, visited: set<string>)
    requires SiblingKey(records, pairId) == Some(x) && x != pairId
    requires x in AllPairIds(records) && x !in visited
    requires Children(records, Some(x)) != [] && Lookup(indices, x, 0) >= 0
    ensures var children := Children(records, Some(x));
            var sel := Lookup(indices, x, 0);
            var after := NextIndices(indices, pairId, total);
            Chain(records, after, x, visited) ==
              WalkSelected(records, after, x, visited, children[Min(sel, |children| - 1)], |children|, sel)
  {
    var after := NextIndices(indices, pairId, total);
    assert Lookup(after, x, 0) == Lookup(indices, x, 0);
    ChainOpens(records, after, x, visited);
  }

  /**
   * Corrected, a click on "next" of a displayed child moves the walk at its parent to the next
   * sibling, annotated with the new index.
   */
  lemma NextSiblingAdvances(records: seq<ApiRecord>, indices: map<string, int>, pairId: string, x: string,
                            visited: set<string>)
    requires SiblingKey(records, pairId) == Some(x)
    requires x in AllPairIds(records) && x !in visited
    requires 0 <= Lookup(indices, x, 0) < |Children(records, Some(x))| - 1
    ensures var children := Children(records, Some(x));
            var sel := Lookup(indices, x, 0);
            var after := NextSiblingIndices(records, indices, pairId, |children|);
            Chain(records, after, x, visited) ==
              WalkSelected(records, after, x, visited, children[sel + 1], |children|, sel + 1)
  {
    var n := |Children(records, Some(x))|;
    var sel := Lookup(indices, x, 0);
    var after := NextSiblingIndices(records, indices, pairId, n);
    assert after == indices[x := sel + 1];
    assert Lookup(after, x, 0) == sel + 1 && Min(sel + 1, n - 1) == sel + 1;
    ChainOpens(records, after, x, visited);
  }

  /** Corrected, a click on "previous" moves the walk at the parent to the previous sibling. */
  lemma PreviousSiblingRetreats(records: seq<ApiRecord>, indices: map<string, int>, pairId: string, x: string,
                                visited: set<string>)
    requires SiblingKey(records, pairId) == Some(x)
    requires x in AllPairIds(records) && x !in visited
    requires 0 < Lookup(indices, x, 0) < |Children(records, Some(x))|
    ensures var children := Children(records, Some(x));
            var sel := Lookup(indices, x, 0);
            var after := PreviousSiblingIndices(records, indices, pairId);
            Chain(records, after, x, visited) ==
              WalkSelected(records, after, x, visited, children[sel - 1], |children|, sel - 1)
  {
    var n := |Children(records, Some(x))|;
    var sel := Lookup(indices, x, 0);
    var after := PreviousSiblingIndices(records, indices, pairId);
    assert after == indices[x := sel - 1];
    assert Lookup(after, x, 0) == sel - 1 && Min(sel - 1, n - 1) == sel - 1;
    ChainOpens(records, after, x, visited);
  }

  /** The user message an edit puts on screen at once, before the reply streams in. */
  function TempUserMessage(content: string, now: nat): UiMessage {
    UiMessage(Some("temp-" + Decimal(now)), User, content, now, None, [], None, None, None, None)
  }

  class Session {
    var conversationId: Option<string>
    var temporary: bool
    var messages: seq<UiMessage>
    var branchIndices: map<string, int>

    constructor()
      ensures conversationId == None && !temporary && messages == [] && branchIndices == map[]
    {
      conversationId := None;
      temporary := false;
      messages := [];
      branchIndices := map[];
    }

    /**
     * `handleSelectConversation`: the conversation becomes current and temporary chat is off;
     * with the records loaded (`None` when the fetch failed) the transcript is rebuilt with the
     * indices held so far, and only when that succeeds are the initialised indices and the new
     * transcript stored.
     */
    method SelectConversation(id: string, loaded: Option<seq<ApiRecord>>)
      modifies this
      ensures conversationId == Some(id) && !temporary
      ensures loaded.None? ==> messages == old(messages) && branchIndices == old(branchIndices)
      ensures loaded.Some? ==>
        var path := DisplayPath(loaded.value, old(branchIndices));
        && (path.Failure? ==> messages == old(messages) && branchIndices == old(branchIndices))
        && (path.Success? ==> messages == path.value && IndicesInitialized(loaded.value, old(branchIndices), branchIndices))
    {
      conversationId := Some(id);
      temporary := false;
      if loaded.None? {
        return;
      }
      var records := loaded.value;
      var g := GroupRecords(records);
      var path := BuildPath(records, g, branchIndices);
      if path.Failure? {
        return;
      }
      var indices := InitBranchIndices(records, g, branchIndices);
      branchIndices := indices;
      messages := path.value;
    }

    /** `handlePreviousBranch(pairId)`; the reload that follows is a separate `SelectConversation`. */
    method PreviousBranch(pairId: string)
      modifies this
      ensures branchIndices == if Truthy(old(conversationId)) then PreviousIndices(old(branchIndices), pairId)
                               else old(branchIndices)
      ensures conversationId == old(conversationId) && temporary == old(temporary) && messages == old(messages)
    {
      if !Truthy(conversationId) {
        return;
      }
      var cur := Lookup(branchIndices, pairId, 0);
      if cur > 0 {
        branchIndices := branchIndices[pairId := cur - 1];
      }
    }

    /** `handleNextBranch(pairId, totalBranches)`. */
    method NextBranch(pairId: string, total: int)
      modifies this
      ensures branchIndices == if Truthy(old(conversationId)) then NextIndices(old(branchIndices), pairId, total)
                               else old(branchIndices)
      ensures conversationId == old(conversationId) && temporary == old(temporary) && messages == old(messages)
    {
      if !Truthy(conversationId) {
        return;
      }
      var cur := Lookup(branchIndices, pairId, 0);
      if cur < total - 1 {
        branchIndices := branchIndices[pairId := cur + 1];
      }
    }

    /** The corrected "next" button: it advances the index under the pair's parent id. */
    method NextSibling(records: seq<ApiRecord>, pairId: string, total: int)
      modifies this
      ensures branchIndices == if Truthy(old(conversationId)) then NextSiblingIndices(records, old(branchIndices), pairId, total)
                               else old(branchIndices)
      ensures conversationId == old(conversationId) && temporary == old(temporary) && messages == old(messages)
    {
      var key := SiblingKey(records, pairId);
      if key.Some? {
        NextBranch(key.value, total);
      }
    }

    /** The corrected "previous" button. */
    method PreviousSibling(records: seq<ApiRecord>, pairId: string)
      modifies this
      ensures branchIndices == if Truthy(old(conversationId)) then PreviousSiblingIndices(records, old(branchIndices), pairId)
                               else old(branchIndices)
      ensures conversationId == old(conversationId) && temporary == old(temporary) && messages == old(messages)
    {
      var key := SiblingKey(records, pairId);
      if key.Some? {
        PreviousBranch(key.value);
      }
    }

    /**
     * The synchronous part of `handleEditMessage`: the transcript is cut before the edited
     * message and the new text is shown as a temporary user message; the request is returned.
     */
    method EditMessage(messageId: string, newContent: string, now: nat) returns (req: Option<ChatRequest>)
      modifies this
      ensures req == EditRequest(old(conversationId), old(messages), messageId, newContent)
      ensures req.None? ==> messages == old(messages)
      ensures req.Some? ==> messages == old(messages)[..|req.value.messages| - 1] + [TempUserMessage(newContent, now)]
      ensures conversationId == old(conversationId) && temporary == old(temporary) && branchIndices == old(branchIndices)
    {
      req := EditRequest(conversationId, messages, messageId, newContent);
      if req.Some? {
        var i := FindIndex(messages, messageId);
        messages := messages[..i] + [TempUserMessage(newContent, now)];
      }
    }

    /** The synchronous part of `handleRegenerateResponse`: the reply and everything after it go. */
    method RegenerateResponse(messageId: string) returns (req: Option<ChatRequest>)
      modifies this
      ensures req == RegenerateRequest(old(conversationId), old(messages), messageId)
      ensures req.None? ==> messages == old(messages)
      ensures req.Some? ==> messages == old(messages)[..|req.value.messages|]
      ensures conversationId == old(conversationId) && temporary == old(temporary) && branchIndices == old(branchIndices)
    {
      req := RegenerateRequest(conversationId, messages, messageId);
      if req.Some? {
        messages := messages[..FindIndex(messages, messageId)];
      }
    }
  }

  /** After a successful load, reloading with the stored indices shows the same transcript. */
  lemma ReloadIsStable(records: seq<ApiRecord>, indices: map<string, int>, stored: map<string, int>)
    requires DisplayPath(records, indices).Success?
    requires IndicesInitialized(records, indices, stored)
    ensures DisplayPath(records, stored) == DisplayPath(records, indices)
    ensures WellPaired(DisplayPath(records, stored).value)
  {
    InitKeepsPath(records, indices, stored);
    DisplayPathWellPaired(records, indices);
  }
}
