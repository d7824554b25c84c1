/**
 * The message shapes that travel between the server routes and the client: the flattened
 * records of the messages endpoint, the messages the chat view displays, the turns a chat
 * request carries, and the conversation summaries the client keeps.
 */
module Wire {
  import opened Wrappers
  import opened Records

  datatype Role = User | Assistant | System

  /** One record of `GET /api/messages`: half of a stored pair. */
  datatype ApiRecord = ApiRecord(
    id: string,
    role: Role,
    content: string,
    createdAt: int,
    pairId: string,
    parentMessageId: Option<string>,
    branches: seq<BranchRef>,
    depth: int,
    files: Option<seq<FileRef>>)

  /** A file attached to a chat turn (`experimental_attachments`, or the body's `files`). */
  datatype Attachment = Attachment(
    url: string,
    contentType: Option<string>,
    attachmentType: Option<string>,
    name: string,
    size: Option<int>)

  /** A message as the chat view holds and displays it; the branch fields are optional. */
  datatype UiMessage = UiMessage(
    id: Option<string>,
    role: Role,
    content: string,
    createdAt: int,
    pairId: Option<string>,
    branches: seq<BranchRef>,
    branchCount: Option<int>,
    branchIndex: Option<int>,
    files: Option<seq<FileRef>>,
    attachments: Option<seq<Attachment>>)

  /** The part of a message the chat endpoint reads: role, text and attachments. */
  datatype ChatMessage = ChatMessage(role: Role, content: string, attachments: Option<seq<Attachment>>)

  function AsChat(m: UiMessage): ChatMessage {
    ChatMessage(m.role, m.content, m.attachments)
  }

  function AsChatAll(ms: seq<UiMessage>): (r: seq<ChatMessage>)
    ensures |r| == |ms| && forall i :: 0 <= i < |ms| ==> r[i] == AsChat(ms[i])
  {
    if ms == [] then [] else [AsChat(ms[0])] + AsChatAll(ms[1..])
  }

  /** The body of a `POST /api/chat` sent by the edit and regenerate handlers. */
  datatype ChatRequest = ChatRequest(messages: seq<ChatMessage>, conversationId: string, parentMessageId: Option<string>)

  /** A conversation as the client lists it (`timestamp` in milliseconds). */
  datatype ConversationEntry = ConversationEntry(
    id: string,
    title: string,
    preview: string,
    timestamp: int,
    messages: seq<UiMessage>)
}
