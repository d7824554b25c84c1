/**
 * The messages endpoint (app/api/messages/route.ts): `GET` lists a conversation's pairs as
 * alternating user and assistant records, `PATCH` edits one stored message in place and keeps
 * the text it had before its first edit. Authentication is not part of this model.
 */
module MessagesApi {
  import opened Wrappers
  import opened Text
  import opened Records
  import opened Wire
  import Sorting

  /** The first record of a pair: the user's query. */
  function UserRecord(p: MessagePair): ApiRecord {
    ApiRecord(p.id + "-user", User, p.query, p.createdAt, p.id, p.parentMessageId, p.branches, p.depth, Some(p.files))
  }

  /** The second record of a pair: the response; it carries no files. */
  function AssistantRecord(p: MessagePair): ApiRecord {
    ApiRecord(p.id + "-assistant", Assistant, p.response, p.createdAt, p.id, p.parentMessageId, p.branches, p.depth, None)
  }

  function CreatedAt(p: MessagePair): int { p.createdAt }

  /** The pairs of `stored` that belong to the conversation. */
  function OfConversation(stored: seq<MessagePair>, conversationId: string): (r: seq<MessagePair>)
    ensures forall p :: p in r <==> p in stored && p.conversationId == conversationId
    ensures forall p :: multiset(r)[p] == if p.conversationId == conversationId then multiset(stored)[p] else 0
  {
    if stored == [] then []
    else
      assert stored == [stored[0]] + stored[1..];
      (if stored[0].conversationId == conversationId then [stored[0]] else [])
      + OfConversation(stored[1..], conversationId)
  }

  /** `Message.find({ conversationId }).sort({ createdAt: 1 })`. */
  function Query(stored: seq<MessagePair>, conversationId: string): (r: seq<MessagePair>)
    ensures Sorting.SortedBy(r, CreatedAt)
    ensures forall p :: p in r <==> p in stored && p.conversationId == conversationId
    ensures multiset(r) == multiset(OfConversation(stored, conversationId))
  {
    var r := Sorting.SortBy(OfConversation(stored, conversationId), CreatedAt);
    assert forall p :: p in r <==> p in multiset(r);
    r
  }

  /** The `forEach` that pushes, for every pair in order, its user record and then its assistant record. */
  method Flatten(pairs: seq<MessagePair>) returns (records: seq<ApiRecord>)
    ensures |records| == 2 * |pairs|
    ensures forall k :: 0 <= k < |pairs| ==> records[2 * k] == UserRecord(pairs[k])
    ensures forall k :: 0 <= k < |pairs| ==> records[2 * k + 1] == AssistantRecord(pairs[k])
  {
    records := [];
    var n := 0;
    while n < |pairs|
      invariant 0 <= n <= |pairs|
      invariant |records| == 2 * n
      invariant forall k :: 0 <= k < n ==> records[2 * k] == UserRecord(pairs[k])
      invariant forall k :: 0 <= k < n ==> records[2 * k + 1] == AssistantRecord(pairs[k])
    {
      records := records + [UserRecord(pairs[n])];
      records := records + [AssistantRecord(pairs[n])];
      n := n + 1;
    }
  }

  /**
   * `GET /api/messages?conversationId=..`: 400 without an id; otherwise two records per pair of
   * the conversation, user first, pairs in ascending creation order.
   */
  method GetMessages(stored: seq<MessagePair>, conversationId: Option<string>)
    returns (r: Result<seq<ApiRecord>, int>)
    ensures r.Failure? <==> !Truthy(conversationId)
    ensures r.Failure? ==> r.error == 400
    ensures r.Success? ==>
      var pairs := Query(stored, conversationId.value);
      && |r.value| == 2 * |pairs|
      && (forall k :: 0 <= k < |pairs| ==> r.value[2 * k] == UserRecord(pairs[k]) && r.value[2 * k + 1] == AssistantRecord(pairs[k]))
      && (forall j, k :: 0 <= j < k < |pairs| ==> r.value[2 * j].createdAt <= r.value[2 * k].createdAt)
  {
    if !Truthy(conversationId) {
      return Failure(400);
    }
    var pairs := Query(stored, conversationId.value);
    var records := Flatten(pairs);
    r := Success(records);
  }

  /** A stored message as the edit handler reads and writes it. */
  class EditableMessage {
    var content: Option<string>
    var isEdited: bool
    var originalContent: Option<string>
    var tokenCount: int

    constructor (content: Option<string>, tokenCount: int)
      ensures this.content == content && this.tokenCount == tokenCount
      ensures !isEdited && originalContent == None
    {
      this.content := content;
      this.tokenCount := tokenCount;
      isEdited := false;
      originalContent := None;
    }

    /** The field writes of a successful edit: the text before the first edit is kept. */
    method ApplyEdit(newContent: string)
      modifies this
      ensures content == Some(newContent)
      ensures tokenCount == (|newContent| + 3) / 4
      ensures isEdited
      ensures originalContent == if old(isEdited) then old(originalContent) else old(content)
    {
      if !isEdited {
        originalContent := content;
        isEdited := true;
      }
      content := Some(newContent);
      tokenCount := (|newContent| + 3) / 4;
    }
  }

  /** `PATCH /api/messages`: 400 without an id or text, 404 for an unknown id, else the edit. */
  method PatchMessage(store: map<string, EditableMessage>, messageId: Option<string>, content: Option<string>)
    returns (status: int)
    modifies store.Values
    ensures status == 400 <==> !Truthy(messageId) || !Truthy(content)
    ensures status == 404 <==> Truthy(messageId) && Truthy(content) && messageId.value !in store
    ensures status == 200 <==> Truthy(messageId) && Truthy(content) && messageId.value in store
    ensures status == 200 ==>
      var m := store[messageId.value];
      && m.content == content && m.isEdited && m.tokenCount == (|content.value| + 3) / 4
      && m.originalContent == if old(m.isEdited) then old(m.originalContent) else old(m.content)
    ensures forall m :: m in store.Values && (status != 200 || m != store[messageId.value]) ==>
      m.content == old(m.content) && m.isEdited == old(m.isEdited)
      && m.originalContent == old(m.originalContent) && m.tokenCount == old(m.tokenCount)
  {
    if !Truthy(messageId) || !Truthy(content) {
      return 400;
    }
    if messageId.value !in store {
      return 404;
    }
    var m := store[messageId.value];
    m.ApplyEdit(content.value);
    status := 200;
  }
}
