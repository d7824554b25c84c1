/**
 * The two stored record kinds (lib/db/models.ts): a query/response pair and a conversation,
 * with the defaults and the `required` checks the schema applies when a record is created.
 * Dates are integers (milliseconds); `timestamps: true` becomes `createdAt`/`updatedAt`.
 */
module Records {
  import opened Wrappers
  import opened Text

  /** One attached file as it is stored with a pair. */
  datatype FileRef = FileRef(url: string, fileType: string, name: string, size: int)

  /** One entry of a pair's `branches` list: the id of another pair, or the `null` placeholder. */
  type BranchRef = Option<string>

  /** A stored query/response pair. `parentMessageId == None` marks a root turn. */
  datatype MessagePair = MessagePair(
    id: string,
    conversationId: string,
    query: string,
    response: string,
    files: seq<FileRef>,
    tokenCount: int,
    parentMessageId: Option<string>,
    branches: seq<BranchRef>,
    depth: int,
    createdAt: int,
    updatedAt: int)

  /** The fields a caller hands to `Message.create`; `None` is a field left out. */
  datatype MessageDraft = MessageDraft(
    conversationId: string,
    query: Option<string>,
    response: Option<string>,
    files: Option<seq<FileRef>>,
    tokenCount: Option<int>,
    parentMessageId: Option<string>,
    branches: Option<seq<BranchRef>>,
    depth: Option<int>)

  datatype ValidationError = QueryRequired | ResponseRequired

  /**
   * `Message.create(draft)`: a string field marked `required` rejects a missing or empty value;
   * every other field left out takes its schema default.
   */
  function CreateMessage(d: MessageDraft, id: string, now: int): (r: Result<MessagePair, ValidationError>)
    ensures r.Success? <==> Truthy(d.query) && Truthy(d.response)
    ensures r.Failure? ==> r.error == (if Truthy(d.query) then ResponseRequired else QueryRequired)
    ensures r.Success? ==> && r.value.id == id && r.value.conversationId == d.conversationId
                           && r.value.query == d.query.value && r.value.response == d.response.value
                           && r.value.createdAt == now && r.value.updatedAt == now
    ensures r.Success? ==> && r.value.files == d.files.GetOr([]) && r.value.tokenCount == d.tokenCount.GetOr(0)
                           && r.value.parentMessageId == d.parentMessageId && r.value.branches == d.branches.GetOr([])
                           && r.value.depth == d.depth.GetOr(0)
  {
    if !Truthy(d.query) then Failure(QueryRequired)
    else if !Truthy(d.response) then Failure(ResponseRequired)
    else Success(MessagePair(
      id, d.conversationId, d.query.value, d.response.value,
      d.files.GetOr([]),
      d.tokenCount.GetOr(0),
      d.parentMessageId,
      d.branches.GetOr([]),
      d.depth.GetOr(0),
      now, now))
  }

  /** A stored conversation. */
  datatype Conversation = Conversation(
    id: string,
    userId: string,
    title: string,
    model: string,
    totalTokens: int,
    lastMessageAt: int,
    archived: bool,
    createdAt: int,
    updatedAt: int)

  const DefaultTitle: string := "New Chat"
  const DefaultModel: string := "gemini-2.5-flash"

  /** `Conversation.create({ userId, title, model })`; the user id is required. */
  function CreateConversation(userId: string, title: Option<string>, model: Option<string>, id: string, now: int)
    : (r: Option<Conversation>)
    ensures r.Some? <==> userId != ""
    ensures r.Some? ==> && r.value.id == id && r.value.userId == userId
                        && r.value.lastMessageAt == now && r.value.createdAt == now
  {
    if userId == "" then None
    else Some(Conversation(id, userId, title.GetOr(DefaultTitle), model.GetOr(DefaultModel), 0, now, false, now, now))
  }

  /** Every field a pair may leave out gets its schema default. */
  lemma MessageDefaults(conversationId: string, query: string, response: string, id: string, now: int)
    requires query != "" && response != ""
    ensures var r := CreateMessage(MessageDraft(conversationId, Some(query), Some(response), None, None, None, None, None), id, now);
            && r.Success?
            && r.value.parentMessageId == None && r.value.depth == 0 && r.value.tokenCount == 0
            && r.value.files == [] && r.value.branches == []
  {
  }

  /** A conversation created with only its owner gets the default title, model, token total and flag. */
  lemma ConversationDefaults(userId: string, id: string, now: int)
    requires userId != ""
    ensures var r := CreateConversation(userId, None, None, id, now);
            && r.Some? && r.value.title == "New Chat" && r.value.model == "gemini-2.5-flash"
            && r.value.totalTokens == 0 && !r.value.archived
  {
  }
}
