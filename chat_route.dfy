/**
 * The server side of one chat turn (app/api/chat/route.ts): choosing the attachments and the
 * model, the depth of the new pair and its registration in the parent's `branches` list,
 * trimming the history to the context budget, injecting the memory context, and saving the
 * query/response pair once generation finishes.
 *
 * The store of pairs and the store of conversations are maps from id to record; the generated
 * text, the usage count, the memories found, fresh ids and the clock are inputs.
 */
module ChatRoute {
  import opened Wrappers
  import opened Text
  import opened Records
  import opened Wire
  import opened TokenBudget

  /* ---------------- token estimate and trimming ---------------- */

  /** The route's own `estimateTokens`: `ceil(len / 4)`, which is zero for empty text. */
  function EstimateTokens(text: string): (n: nat)
    ensures 4 * n >= |text|
    ensures n == 0 || 4 * (n - 1) < |text|
  {
    (|text| + 3) / 4
  }

  function Cost(m: ChatMessage): nat {
    EstimateTokens(m.content)
  }

  /** The budget the route passes to its trimmer. */
  const ContextBudget: int := 120000

  /** The specification of the route's trimmer: the kept newest history, then the system messages. */
  function Trimmed(messages: seq<ChatMessage>, maxTokens: int): seq<ChatMessage> {
    var systems := Systems(messages);
    Kept(NonSystem(messages), Total(systems, Cost), maxTokens, Cost) + systems
  }

  /**
   * `trimMessagesForContext` of the route: push every system message, then `unshift` history
   * from the newest until one message does not fit. There is no early exit, and because the
   * history is unshifted in front of the system messages, they end up last.
   */
  method TrimForContext(messages: seq<ChatMessage>, maxTokens: int) returns (trimmed: seq<ChatMessage>)
    ensures trimmed == Trimmed(messages, maxTokens)
  {
    var systems := Systems(messages);
    var others := NonSystem(messages);
    var total;
    trimmed, total := PushSystems(systems, Cost);
    trimmed := UnshiftNewest(others, trimmed, total, maxTokens, Cost);
  }

  /** The system messages are always all kept, in order, at the end; the history before them is a newest run. */
  lemma HistoryThenSystems(messages: seq<ChatMessage>, maxTokens: int)
    ensures var r := Trimmed(messages, maxTokens);
            var systems := Systems(messages);
            var others := NonSystem(messages);
            var n := |r| - |systems|;
            && 0 <= n <= |others|
            && r[n..] == systems
            && r[..n] == others[|others| - n..]
  {
    var systems := Systems(messages);
    var kept := Kept(NonSystem(messages), Total(systems, Cost), maxTokens, Cost);
    assert Trimmed(messages, maxTokens) == kept + systems;
  }

  /** When the system messages fit, so does the whole result. */
  lemma {:induction false} TrimmedFits(messages: seq<ChatMessage>, maxTokens: int)
    requires Total(Systems(messages), Cost) <= maxTokens
    ensures Total(Trimmed(messages, maxTokens), Cost) <= maxTokens
  {
    var systems := Systems(messages);
    var kept := Kept(NonSystem(messages), Total(systems, Cost), maxTokens, Cost);
    KeptFits(NonSystem(messages), Total(systems, Cost), maxTokens, Cost);
    TotalConcat(kept, systems, Cost);
  }

  /** When the system messages alone exceed the budget, no history is kept. */
  lemma SystemsOverBudget(messages: seq<ChatMessage>, maxTokens: int)
    requires Total(Systems(messages), Cost) > maxTokens
    ensures Trimmed(messages, maxTokens) == Systems(messages)
  {
    OverBudgetKeepsNothing(NonSystem(messages), Total(Systems(messages), Cost), maxTokens, Cost);
  }

  /**
   * The scan stops at the first history message that does not fit, even when older, smaller
   * ones would have fitted.
   */
  lemma {:induction false} StopsAtFirstMisfit(messages: seq<ChatMessage>, maxTokens: int)
    requires |Trimmed(messages, maxTokens)| < |messages|
    ensures var others := NonSystem(messages);
            var n := |Trimmed(messages, maxTokens)| - |Systems(messages)|;
            n < |others| && Total(Trimmed(messages, maxTokens), Cost) + Cost(others[|others| - n - 1]) > maxTokens
  {
    var systems := Systems(messages);
    var others := NonSystem(messages);
    FiltersPartition(messages);
    assert |multiset(messages)| == |multiset(systems)| + |multiset(others)|;
    KeptMaximal(others, Total(systems, Cost), maxTokens, Cost);
    var kept := Kept(others, Total(systems, Cost), maxTokens, Cost);
    TotalConcat(kept, systems, Cost);
  }

  /* ---------------- attachments and model ---------------- */

  /** `att.contentType || att.type`. */
  function MimeOf(a: Attachment): Option<string> {
    if Truthy(a.contentType) then a.contentType else a.attachmentType
  }

  predicate IsImage(a: Attachment) {
    MimeOf(a).Some? && StartsWith(MimeOf(a).value, "image/")
  }

  /** `allAttachments.some(...)`. */
  function HasImages(atts: seq<Attachment>): (r: bool)
    ensures r <==> exists i :: 0 <= i < |atts| && IsImage(atts[i])
  {
    if atts == [] then false
    else
      assert forall i :: 1 <= i < |atts| ==> atts[i] == atts[1..][i - 1];
      IsImage(atts[0]) || HasImages(atts[1..])
  }

  /** The attachments of the last message when it has any, otherwise the body's `files`. */
  function SelectAttachments(messages: seq<ChatMessage>, files: seq<Attachment>): (r: seq<Attachment>)
    ensures r == files || (messages != [] && messages[|messages| - 1].attachments == Some(r))
    ensures r != files ==> |r| > 0
    ensures (messages == [] || messages[|messages| - 1].attachments.GetOr([]) == []) ==> r == files
    ensures messages != [] && messages[|messages| - 1].attachments.Some? && |messages[|messages| - 1].attachments.value| > 0 ==>
              r == messages[|messages| - 1].attachments.value
  {
    var fromMessage := if messages == [] then [] else messages[|messages| - 1].attachments.GetOr([]);
    if |fromMessage| > 0 then fromMessage else files
  }

  const VisionModel: string := "gemini-2.5-flash"

  /** Any image attachment forces the vision model; otherwise the requested model is used. */
  function SelectModel(requested: string, atts: seq<Attachment>): (r: string)
    ensures r == VisionModel || r == requested
    ensures (exists i :: 0 <= i < |atts| && IsImage(atts[i])) ==> r == VisionModel
    ensures r != requested ==> exists i :: 0 <= i < |atts| && IsImage(atts[i])
  {
    if HasImages(atts) then VisionModel else requested
  }

  /**
   * `userFiles` turned into `filesToSave`: the type is `contentType || type` passed through
   * `String(...)`, so a missing type is stored as the text "undefined"; the size defaults to 0.
   */
  function SavedFile(a: Attachment): (f: FileRef)
    ensures f.url == a.url && f.name == a.name
    ensures MimeOf(a).Some? ==> f.fileType == MimeOf(a).value
    ensures MimeOf(a).None? ==> f.fileType == "undefined"
    ensures a.size.None? ==> f.size == 0
    ensures a.size.Some? ==> f.size == a.size.value
  {
    FileRef(a.url, MimeOf(a).GetOr("undefined"), a.name, a.size.GetOr(0))
  }

  function SavedFiles(atts: seq<Attachment>): (r: seq<FileRef>)
    ensures |r| == |atts| && forall i :: 0 <= i < |atts| ==> r[i] == SavedFile(atts[i])
  {
    if atts == [] then [] else [SavedFile(atts[0])] + SavedFiles(atts[1..])
  }

  /* ---------------- branch registration ---------------- */

  predicate NoDuplicates<T(==)>(s: seq<T>) {
    forall i, j :: 0 <= i < j < |s| ==> s[i] != s[j]
  }

  /**
   * `findByIdAndUpdate(id, { $addToSet: { branches: v } })`: append `v` to the pair's list
   * unless it is there already; an unknown id changes nothing. The schema's `timestamps` make
   * every update of a stored pair refresh its `updatedAt`, even one that adds nothing.
   */
  function AddToSet(store: map<string, MessagePair>, id: string, v: BranchRef, now: int): (r: map<string, MessagePair>)
    ensures r.Keys == store.Keys
    ensures forall k :: k in store && k != id ==> r[k] == store[k]
    ensures id in store ==>
      var before := store[id].branches;
      && r[id] == store[id].(branches := r[id].branches, updatedAt := now)
      && (forall x :: x in r[id].branches <==> x in before || x == v)
      && |before| <= |r[id].branches| <= |before| + 1
      && r[id].branches[..|before|] == before
    ensures id !in store ==> r == store
    ensures id in store && v in store[id].branches ==> r == store[id := store[id].(updatedAt := now)]
    ensures id in store && v !in store[id].branches ==> r[id].branches == store[id].branches + [v]
  {
    if id !in store then store
    else
      var p := store[id];
      store[id := p.(branches := if v in p.branches then p.branches else p.branches + [v], updatedAt := now)]
  }

  /** Adding the same value twice is the same as adding it once. */
  lemma AddToSetIdempotent(store: map<string, MessagePair>, id: string, v: BranchRef, now: int)
    ensures AddToSet(AddToSet(store, id, v, now), id, v, now) == AddToSet(store, id, v, now)
  {
  }

  /** A list without duplicates keeps none after an add. */
  lemma AddToSetKeepsNoDuplicates(store: map<string, MessagePair>, id: string, v: BranchRef, now: int)
    requires id in store && NoDuplicates(store[id].branches)
    ensures NoDuplicates(AddToSet(store, id, v, now)[id].branches)
  {
  }

  /** Two adds of different values, in either order, leave both in the list, each once. */
  lemma {:induction false} TwoAddsBothPresent(store: map<string, MessagePair>, id: string, a: BranchRef, b: BranchRef,
                                              first: int, second: int)
    requires id in store && NoDuplicates(store[id].branches)
    ensures var r := AddToSet(AddToSet(store, id, a, first), id, b, second);
            a in r[id].branches && b in r[id].branches && NoDuplicates(r[id].branches) && r[id].updatedAt == second
  {
    AddToSetKeepsNoDuplicates(store, id, a, first);
    AddToSetKeepsNoDuplicates(AddToSet(store, id, a, first), id, b, second);
  }

  /**
   * Before generation: an existing parent gives the new pair its depth plus one and receives the
   * `null` placeholder in its `branches`; without a (stored) parent the depth is 0. The result is
   * the depth and the store afterwards.
   */
  function RegisterWithParent(pairs: map<string, MessagePair>, parentMessageId: Option<string>, now: int)
    : (r: (int, map<string, MessagePair>))
    ensures Truthy(parentMessageId) && parentMessageId.value in pairs ==>
      r.0 == pairs[parentMessageId.value].depth + 1 && r.1 == AddToSet(pairs, parentMessageId.value, None, now)
    ensures !(Truthy(parentMessageId) && parentMessageId.value in pairs) ==> r.0 == 0 && r.1 == pairs
    ensures r.1.Keys == pairs.Keys
  {
    if Truthy(parentMessageId) && parentMessageId.value in pairs then
      (pairs[parentMessageId.value].depth + 1, AddToSet(pairs, parentMessageId.value, None, now))
    else (0, pairs)
  }

  /* ---------------- memory context ---------------- */

  /** The `map` of the memories to bullets: one line "- memory" per memory, in order. */
  function BulletLines(memories: seq<string>): (r: seq<string>)
    ensures |r| == |memories| && forall i :: 0 <= i < |memories| ==> r[i] == "- " + memories[i]
  {
    seq(|memories|, i requires 0 <= i < |memories| => "- " + memories[i])
  }

  /** The bullet lines joined by "\n". */
  function Bullets(memories: seq<string>): (r: string)
    ensures memories != [] ==> |r| >= 2 && r[..2] == "- "
  {
    if memories == [] then ""
    else if |memories| == 1 then "- " + memories[0]
    else "- " + memories[0] + "\n" + Bullets(memories[1..])
  }

  predicate NoNewlines(memories: seq<string>) {
    forall i :: 0 <= i < |memories| ==> '\n' !in memories[i]
  }

  /** When no memory spans lines, the bullets split on "\n" back into one bullet line per memory. */
  lemma {:induction false} BulletsSplitIntoLines(memories: seq<string>)
    requires memories != [] && NoNewlines(memories)
    ensures Split(Bullets(memories), '\n') == BulletLines(memories)
  {
    var head := "- " + memories[0];
    assert '\n' !in memories[0];
    assert '\n' !in head;
    if |memories| == 1 {
      SplitPiece(head, '\n');
    } else {
      var rest := memories[1..];
      assert NoNewlines(rest) by {
        forall i | 0 <= i < |rest| ensures '\n' !in rest[i] {
          assert rest[i] == memories[i + 1];
        }
      }
      BulletsSplitIntoLines(rest);
      assert Bullets(memories) == head + ['\n'] + Bullets(rest);
      SplitJoined(head, Bullets(rest), '\n');
      assert BulletLines(memories) == [head] + BulletLines(rest);
    }
  }

  const MemoryHeader: string := "\n\n[Context from memory]:\n"

  /**
   * `contextFromMemory`: empty without memories, else the header followed by the bullets, which
   * split back into one `- ` line per memory when no memory spans lines.
   */
  function MemoryContext(memories: seq<string>): (r: string)
    ensures r == "" <==> memories == []
    ensures memories != [] ==> |r| > |MemoryHeader| && r[..|MemoryHeader|] == MemoryHeader
    ensures memories != [] && NoNewlines(memories) ==> Split(r[|MemoryHeader|..], '\n') == BulletLines(memories)
  {
    if memories == [] then "" else
      var r := MemoryHeader + Bullets(memories);
      assert r[..|MemoryHeader|] == MemoryHeader;
      assert r[|MemoryHeader|..] == Bullets(memories);
      if NoNewlines(memories) then
        BulletsSplitIntoLines(memories);
        r
      else r
  }

  const PromptHead: string :=
    "You are a helpful AI assistant. Use the following context from previous conversations to provide more personalized and contextual responses:"
  const PromptTail: string :=
    "\n\nProvide helpful, accurate responses based on the user's query and the context provided."

  /** The system message created when the history has none. */
  function MemoryPrompt(context: string): ChatMessage {
    ChatMessage(System, PromptHead + context + PromptTail, None)
  }

  predicate FirstSystemAt(ms: seq<ChatMessage>, i: int) {
    0 <= i < |ms| && ms[i].role == System && forall j :: 0 <= j < i ==> ms[j].role != System
  }

  /** `findIndex(m => m.role === "system")`: the first system message's position, or -1. */
  function FirstSystem(ms: seq<ChatMessage>): (i: int)
    ensures i == -1 <==> forall m :: m in ms ==> m.role != System
    ensures i != -1 ==> FirstSystemAt(ms, i)
  {
    if ms == [] then -1
    else if ms[0].role == System then 0
    else
      var j := FirstSystem(ms[1..]);
      assert forall m :: m in ms[1..] ==> m in ms;
      assert forall k :: 1 <= k < |ms| ==> ms[k] == ms[1..][k - 1];
      if j == -1 then -1 else j + 1
  }

  /**
   * Memory injection: without context nothing changes; without a system message a new one is put
   * in front; otherwise the context is appended to the first system message's text.
   */
  function Injected(trimmed: seq<ChatMessage>, context: string): (r: seq<ChatMessage>)
    ensures context == "" ==> r == trimmed
    ensures context != "" && (forall m :: m in trimmed ==> m.role != System) ==> r == [MemoryPrompt(context)] + trimmed
    ensures context != "" && (exists m :: m in trimmed && m.role == System) ==>
      exists i :: FirstSystemAt(trimmed, i) && r == trimmed[i := trimmed[i].(content := trimmed[i].content + context)]
  {
    if context == "" then trimmed
    else
      var i := FirstSystem(trimmed);
      if i == -1 then [MemoryPrompt(context)] + trimmed
      else trimmed[i := trimmed[i].(content := trimmed[i].content + context)]
  }

  /** The route's `some` test followed by its `findIndex` scan. */
  method InjectMemory(trimmed: seq<ChatMessage>, context: string) returns (r: seq<ChatMessage>)
    ensures r == Injected(trimmed, context)
  {
    if context == "" {
      return trimmed;
    }
    var idx := 0;
    while idx < |trimmed| && trimmed[idx].role != System
      invariant 0 <= idx <= |trimmed|
      invariant forall j :: 0 <= j < idx ==> trimmed[j].role != System
    {
      idx := idx + 1;
    }
    if idx == |trimmed| {
      r := [MemoryPrompt(context)] + trimmed;
    } else {
      assert FirstSystemAt(trimmed, idx);
      r := trimmed[idx := trimmed[idx].(content := trimmed[idx].content + context)];
    }
  }

  /** After injection the model always sees the memory context at the end of a system message. */
  lemma MemoryReachesModel(trimmed: seq<ChatMessage>, context: string)
    requires context != ""
    ensures var r := Injected(trimmed, context);
            exists i :: 0 <= i < |r| && r[i].role == System && Includes(r[i].content, context)
  {
    var r := Injected(trimmed, context);
    var i := FirstSystem(trimmed);
    if i == -1 {
      assert OccursAt(r[0].content, context, |PromptHead|);
    } else {
      assert OccursAt(r[i].content, context, |trimmed[i].content|);
    }
  }

  /* ---------------- saving the pair ---------------- */

  /** `usage?.totalTokens || estimateTokens(query + text)`. */
  function PairTokens(query: string, text: string, usage: Option<int>): (n: int)
    ensures usage.Some? && usage.value != 0 ==> n == usage.value
    ensures !(usage.Some? && usage.value != 0) ==> n >= 0 && 4 * n >= |query| + |text| && (n == 0 || 4 * (n - 1) < |query| + |text|)
  {
    if usage.Some? && usage.value != 0 then usage.value else EstimateTokens(query + text)
  }

  /** `messageData`: the fields are set, and `files` is added only when there are any. */
  method MessageData(conversationId: string, query: string, text: string, usage: Option<int>,
                     parentMessageId: Option<string>, depth: int, files: seq<FileRef>) returns (d: MessageDraft)
    ensures d.conversationId == conversationId && d.query == Some(query) && d.response == Some(text)
    ensures d.tokenCount == Some(PairTokens(query, text, usage))
    ensures d.parentMessageId == (if Truthy(parentMessageId) then parentMessageId else None)
    ensures d.depth == Some(depth) && d.branches == Some([])
    ensures d.files.Some? <==> |files| > 0
    ensures d.files.Some? ==> d.files.value == files
  {
    d := MessageDraft(conversationId, Some(query), Some(text), None, Some(PairTokens(query, text, usage)),
                      if Truthy(parentMessageId) then parentMessageId else None, Some([]), Some(depth));
    if |files| > 0 {
      d := d.(files := Some(files));
    }
  }

  /** The pair `onFinish` means to store: `messageData` completed by the schema's defaults. */
  function SavedPair(conversationId: string, query: string, text: string, usage: Option<int>,
                     parentMessageId: Option<string>, depth: int, files: seq<FileRef>, id: string, now: int): MessagePair {
    MessagePair(id, conversationId, query, text, files, PairTokens(query, text, usage),
                if Truthy(parentMessageId) then parentMessageId else None, [], depth, now, now)
  }

  /** Whether or not the `files` key was set, the schema stores exactly `SavedPair`. */
  lemma SavedPairShape(conversationId: string, query: string, text: string, usage: Option<int>,
                       parentMessageId: Option<string>, depth: int, files: seq<FileRef>, d: MessageDraft, id: string, now: int)
    requires d.conversationId == conversationId && d.query == Some(query) && d.response == Some(text)
    requires d.tokenCount == Some(PairTokens(query, text, usage))
    requires d.parentMessageId == (if Truthy(parentMessageId) then parentMessageId else None)
    requires d.depth == Some(depth) && d.branches == Some([])
    requires (d.files.Some? <==> |files| > 0) && (d.files.Some? ==> d.files.value == files)
    requires query != "" && text != ""
    ensures var r := CreateMessage(d, id, now);
            && r.Success?
            && r.value.files == files && r.value.branches == [] && r.value.depth == depth
            && r.value.parentMessageId == (if Truthy(parentMessageId) then parentMessageId else None)
            && r.value.tokenCount == PairTokens(query, text, usage)
            && r.value == SavedPair(conversationId, query, text, usage, parentMessageId, depth, files, id, now)
  {
  }

  /**
   * `conversation.totalTokens + (usage?.totalTokens || 0)`, with `lastMessageAt` set to now; the
   * update refreshes `updatedAt` as well.
   */
  function Touched(c: Conversation, conversation: Conversation, usage: Option<int>, now: int): Conversation {
    c.(lastMessageAt := now, updatedAt := now,
       totalTokens := conversation.totalTokens + (if usage.Some? then usage.value else 0))
  }

  /** The stores after `onFinish`, as the pair of the pair store and the conversation store. */
  function Finished(pairs: map<string, MessagePair>, convs: map<string, Conversation>, isTemporaryChat: bool,
                    conversation: Conversation, query: string, text: string, usage: Option<int>,
                    parentMessageId: Option<string>, depth: int, files: seq<FileRef>, newId: string, now: int)
    : (map<string, MessagePair>, map<string, Conversation>)
  {
    if isTemporaryChat || query == "" || text == "" then (pairs, convs)
    else
      var stored := pairs[newId := SavedPair(conversation.id, query, text, usage, parentMessageId, depth, files, newId, now)];
      var pairs' := if Truthy(parentMessageId) then AddToSet(stored, parentMessageId.value, Some(newId), now) else stored;
      var convs' := if conversation.id in convs then convs[conversation.id := Touched(convs[conversation.id], conversation, usage, now)]
                    else convs;
      (pairs', convs')
  }

  /**
   * `onFinish` changes nothing for a temporary chat or a pair the schema rejects. Otherwise it adds
   * the saved pair under its new id, the new id joins the parent's `branches`, and the
   * conversation is touched. No other pair and no other conversation changes.
   */
  lemma FinishedEffect(pairs: map<string, MessagePair>, convs: map<string, Conversation>, isTemporaryChat: bool,
                       conversation: Conversation, query: string, text: string, usage: Option<int>,
                       parentMessageId: Option<string>, depth: int, files: seq<FileRef>, newId: string, now: int)
    ensures var r := Finished(pairs, convs, isTemporaryChat, conversation, query, text, usage, parentMessageId, depth, files, newId, now);
            isTemporaryChat || query == "" || text == "" ==> r == (pairs, convs)
    ensures var r := Finished(pairs, convs, isTemporaryChat, conversation, query, text, usage, parentMessageId, depth, files, newId, now);
            var saved := SavedPair(conversation.id, query, text, usage, parentMessageId, depth, files, newId, now);
            !isTemporaryChat && query != "" && text != "" ==>
      && r.0.Keys == pairs.Keys + {newId}
      && (forall k :: k in pairs && k != newId && !(Truthy(parentMessageId) && k == parentMessageId.value) ==> r.0[k] == pairs[k])
      && r.0[newId] == saved.(branches := r.0[newId].branches)
      && (!(Truthy(parentMessageId) && parentMessageId.value == newId) ==> r.0[newId] == saved)
      && (Truthy(parentMessageId) && parentMessageId.value in pairs && parentMessageId.value != newId ==>
            r.0[parentMessageId.value] == AddToSet(pairs, parentMessageId.value, Some(newId), now)[parentMessageId.value])
      && r.1.Keys == convs.Keys
      && (conversation.id in convs ==> r.1[conversation.id] == Touched(convs[conversation.id], conversation, usage, now))
    ensures var r := Finished(pairs, convs, isTemporaryChat, conversation, query, text, usage, parentMessageId, depth, files, newId, now);
            forall k :: k in convs && k != conversation.id ==> k in r.1 && r.1[k] == convs[k]
  {
  }

  /**
   * `onFinish`: nothing for a temporary chat; otherwise build `messageData`, create the pair (a
   * schema rejection, such as an empty response, is caught and saves nothing), add its id to the
   * parent's `branches`, and update the conversation's `lastMessageAt` and `totalTokens`
   * (counted from the value read when the request began).
   */
  method OnFinish(pairs: map<string, MessagePair>, convs: map<string, Conversation>, isTemporaryChat: bool,
                  conversation: Conversation, query: string, text: string, usage: Option<int>,
                  parentMessageId: Option<string>, depth: int, files: seq<FileRef>, newId: string, now: int)
    returns (pairs': map<string, MessagePair>, convs': map<string, Conversation>)
    ensures (pairs', convs') == Finished(pairs, convs, isTemporaryChat, conversation, query, text, usage,
                                         parentMessageId, depth, files, newId, now)
  {
    pairs', convs' := pairs, convs;
    if isTemporaryChat {
      return;
    }
    var draft := MessageData(conversation.id, query, text, usage, parentMessageId, depth, files);
    var created := CreateMessage(draft, newId, now);
    if created.Failure? {
      return;
    }
    SavedPairShape(conversation.id, query, text, usage, parentMessageId, depth, files, draft, newId, now);
    pairs' := pairs'[newId := created.value];
    if Truthy(parentMessageId) {
      pairs' := AddToSet(pairs', parentMessageId.value, Some(newId), now);
    }
    if conversation.id in convs' {
      convs' := convs'[conversation.id := Touched(convs'[conversation.id], conversation, usage, now)];
    }
  }

  /**
   * A finished turn with a parent leaves both the `null` placeholder and the new id in the
   * parent's `branches`: the placeholder is never replaced.
   */
  lemma {:induction false} PlaceholderRemains(pairs: map<string, MessagePair>, parentId: string, newId: string, saved: MessagePair,
                                             now: int)
    requires parentId in pairs && parentId != newId
    ensures var afterRegister := AddToSet(pairs, parentId, None, now);
            var afterSave := AddToSet(afterRegister[newId := saved], parentId, Some(newId), now);
            None in afterSave[parentId].branches && Some(newId) in afterSave[parentId].branches
  {
    var afterRegister := AddToSet(pairs, parentId, None, now);
    assert None in afterRegister[parentId].branches;
    assert afterRegister[newId := saved][parentId] == afterRegister[parentId];
  }

  /* ---------------- the whole request ---------------- */

  /** The JSON body; `messages == None` stands for a value that is not an array. */
  datatype ChatBody = ChatBody(
    messages: Option<seq<ChatMessage>>,
    conversationId: Option<string>,
    model: Option<string>,
    parentMessageId: Option<string>,
    files: seq<Attachment>,
    isTemporaryChat: bool)

  /** What the model produced once the stream finished, when it did. */
  datatype Generation = Generation(text: string, usage: Option<int>)

  datatype ChatOutcome = ChatOutcome(
    status: int,
    pairs: map<string, MessagePair>,
    convs: map<string, Conversation>,
    sent: seq<ChatMessage>,
    model: string)

  /** The title of a conversation the request creates. */
  function NewTitle(messages: seq<ChatMessage>): (t: string)
    ensures |t| <= 50 || t == DefaultTitle
    ensures messages == [] || messages[0].content == [] ==> t == DefaultTitle
    ensures messages != [] && messages[0].content != [] ==>
              |t| <= |messages[0].content| && t == messages[0].content[..|t|]
    ensures messages != [] && messages[0].content != [] ==> t == messages[0].content[..Min(50, |messages[0].content|)]
  {
    var p := if messages == [] then "" else Prefix(messages[0].content, 50);
    if p == "" then DefaultTitle else p
  }

  /** The conversation a request without an id creates, titled from its first message. */
  function NewConversation(userId: string, messages: seq<ChatMessage>, model: Option<string>, id: string, now: int): (c: Conversation)
    requires userId != ""
    ensures c.id == id && c.userId == userId && c.title == NewTitle(messages) && c.model == model.GetOr(DefaultModel)
  {
    CreateConversation(userId, Some(NewTitle(messages)), Some(model.GetOr(DefaultModel)), id, now).value
  }

  /**
   * A 200 answer to a turn: the model chosen, the trimmed history with the memory context
   * injected as what is sent, and the stores as registration and then `onFinish` leave them.
   */
  predicate Served(o: ChatOutcome, messages: seq<ChatMessage>, attachments: seq<Attachment>, parentMessageId: Option<string>,
                   isTemporaryChat: bool, memories: seq<string>, generation: Option<Generation>,
                   pairs: map<string, MessagePair>, convs: map<string, Conversation>, conversation: Conversation,
                   selectedModel: string, newPairId: string, now: int)
    requires messages != []
  {
    var registered := RegisterWithParent(pairs, parentMessageId, now);
    && o.status == 200 && o.model == selectedModel
    && o.sent == Injected(Trimmed(messages, ContextBudget), if isTemporaryChat then "" else MemoryContext(memories))
    && (generation.None? || isTemporaryChat ==> o.pairs == registered.1 && o.convs == convs)
    && (generation.Some? ==>
          (o.pairs, o.convs) == Finished(registered.1, convs, isTemporaryChat, conversation, messages[|messages| - 1].content,
                                         generation.value.text, generation.value.usage, parentMessageId,
                                         registered.0, SavedFiles(attachments), newPairId, now))
  }

  /** In a chat that is not temporary, the memories found reach the model inside a system message. */
  lemma ServedSendsMemories(o: ChatOutcome, messages: seq<ChatMessage>, attachments: seq<Attachment>, parentMessageId: Option<string>,
                            memories: seq<string>, generation: Option<Generation>,
                            pairs: map<string, MessagePair>, convs: map<string, Conversation>, conversation: Conversation,
                            selectedModel: string, newPairId: string, now: int)
    requires messages != [] && memories != []
    requires Served(o, messages, attachments, parentMessageId, false, memories, generation, pairs, convs, conversation,
                    selectedModel, newPairId, now)
    ensures exists i :: 0 <= i < |o.sent| && o.sent[i].role == System && Includes(o.sent[i].content, MemoryContext(memories))
  {
    MemoryReachesModel(Trimmed(messages, ContextBudget), MemoryContext(memories));
  }

  /**
   * When generation finished in a chat that is not temporary and both texts are non-empty, the
   * stored pair under the new id is `SavedPair`, and every pair other than the new one and the
   * parent is as it was.
   */
  lemma ServedSavesPair(o: ChatOutcome, messages: seq<ChatMessage>, attachments: seq<Attachment>, parentMessageId: Option<string>,
                        memories: seq<string>, generation: Option<Generation>,
                        pairs: map<string, MessagePair>, convs: map<string, Conversation>, conversation: Conversation,
                        selectedModel: string, newPairId: string, now: int)
    requires messages != [] && generation.Some?
    requires messages[|messages| - 1].content != "" && generation.value.text != ""
    requires !(Truthy(parentMessageId) && parentMessageId.value == newPairId)
    requires Served(o, messages, attachments, parentMessageId, false, memories, generation, pairs, convs, conversation,
                    selectedModel, newPairId, now)
    ensures newPairId in o.pairs
    ensures o.pairs[newPairId] == SavedPair(conversation.id, messages[|messages| - 1].content, generation.value.text,
                                            generation.value.usage, parentMessageId, RegisterWithParent(pairs, parentMessageId, now).0,
                                            SavedFiles(attachments), newPairId, now)
    ensures forall k :: k in pairs && k != newPairId && !(Truthy(parentMessageId) && k == parentMessageId.value) ==>
              k in o.pairs && o.pairs[k] == pairs[k]
  {
    var registered := RegisterWithParent(pairs, parentMessageId, now);
    FinishedEffect(registered.1, convs, false, conversation, messages[|messages| - 1].content,
                   generation.value.text, generation.value.usage, parentMessageId,
                   registered.0, SavedFiles(attachments), newPairId, now);
  }

  /**
   * The turn once its conversation is settled and the message list is known to be non-empty:
   * register with the parent, trim, inject the memory, and save when generation finished.
   */
  method Turn(messages: seq<ChatMessage>, attachments: seq<Attachment>, parentMessageId: Option<string>,
              isTemporaryChat: bool, memories: seq<string>, generation: Option<Generation>,
              pairs: map<string, MessagePair>, convs: map<string, Conversation>, conversation: Conversation,
              selectedModel: string, newPairId: string, now: int) returns (o: ChatOutcome)
    requires messages != []
    ensures Served(o, messages, attachments, parentMessageId, isTemporaryChat, memories, generation,
                   pairs, convs, conversation, selectedModel, newPairId, now)
    ensures conversation.id in convs ==> conversation.id in o.convs && o.convs[conversation.id].title == convs[conversation.id].title
                                         && o.convs[conversation.id].userId == convs[conversation.id].userId
  {
    var query := messages[|messages| - 1].content;
    var files := SavedFiles(attachments);
    var context := if isTemporaryChat then "" else MemoryContext(memories);

    var registered := RegisterWithParent(pairs, parentMessageId, now);
    var pairs', convs' := registered.1, convs;
    var trimmed := TrimForContext(messages, ContextBudget);
    var sent := InjectMemory(trimmed, context);

    if generation.Some? {
      pairs', convs' := OnFinish(pairs', convs', isTemporaryChat, conversation, query,
                                 generation.value.text, generation.value.usage, parentMessageId,
                                 registered.0, files, newPairId, now);
      FinishedEffect(registered.1, convs, isTemporaryChat, conversation, query,
                     generation.value.text, generation.value.usage, parentMessageId,
                     registered.0, files, newPairId, now);
    }
    o := ChatOutcome(200, pairs', convs', sent, selectedModel);
  }

  /** The conversation a turn belongs to, with the conversation store once it is settled. */
  datatype Opening = NotFound | Opened(conversation: Conversation, convs: map<string, Conversation>)

  /** The record a temporary chat runs with; it is never stored. */
  const NoConversation: Conversation := Conversation("", "", "", "", 0, 0, false, 0, 0)

  /**
   * Getting or creating the conversation: a temporary chat has none; a given id must name a
   * conversation of the same user (404 otherwise); without an id a conversation is created.
   */
  function OpenConversation(isTemporaryChat: bool, conversationId: Option<string>, userId: string,
                            convs: map<string, Conversation>, messages: seq<ChatMessage>, model: Option<string>,
                            newConvId: string, now: int): (r: Opening)
    requires userId != ""
    ensures r.NotFound? <==> !isTemporaryChat && Truthy(conversationId) &&
                             (conversationId.value !in convs || convs[conversationId.value].userId != userId)
    ensures isTemporaryChat ==> r == Opened(NoConversation, convs)
    ensures !isTemporaryChat && Truthy(conversationId) && r.Opened? ==>
              r.conversation == convs[conversationId.value] && r.convs == convs
    ensures !isTemporaryChat && !Truthy(conversationId) ==>
              && r.Opened? && r.conversation.id == newConvId && r.convs == convs[newConvId := r.conversation]
              && r.conversation.title == NewTitle(messages) && r.conversation.userId == userId
  {
    if isTemporaryChat then Opened(NoConversation, convs)
    else if Truthy(conversationId) then
      var id := conversationId.value;
      if id !in convs || convs[id].userId != userId then NotFound else Opened(convs[id], convs)
    else
      var c := NewConversation(userId, messages, model, newConvId, now);
      Opened(c, convs[newConvId := c])
  }

  /**
   * `POST /api/chat`: authentication (401), configuration (500) and body checks (400) come
   * first; then the conversation is looked up (404 when missing or someone else's) or created;
   * an empty message list fails (500) only after that; the parent is registered, the history
   * trimmed and the memory injected; when generation finishes the pair is saved, except in a
   * temporary chat.
   */
  method HandleChat(body: ChatBody, userId: Option<string>, apiKeyConfigured: bool,
                    pairs: map<string, MessagePair>, convs: map<string, Conversation>,
                    memories: seq<string>, generation: Option<Generation>,
                    newConvId: string, newPairId: string, now: int) returns (o: ChatOutcome)
    ensures !Truthy(userId) ==> o.status == 401
    ensures o.status in {200, 400, 401, 404, 500}
    ensures o.status in {400, 401, 404} || (o.status == 500 && !apiKeyConfigured) ==> o.pairs == pairs && o.convs == convs
    ensures Truthy(userId) && apiKeyConfigured ==> (o.status == 400 <==> body.messages.None?)
    ensures Truthy(userId) && apiKeyConfigured && body.messages.Some? ==>
      var opening := OpenConversation(body.isTemporaryChat, body.conversationId, userId.value, convs,
                                      body.messages.value, body.model, newConvId, now);
      && (o.status == 404 <==> opening.NotFound?)
      && (o.status == 200 <==> opening.Opened? && body.messages.value != [])
      // an empty message list fails only after a new conversation has been stored
      && (opening.Opened? && body.messages.value == [] ==> o.status == 500 && o.pairs == pairs && o.convs == opening.convs)
      // a conversation the request creates keeps its title and owner whatever the turn saves
      && (opening.Opened? && !body.isTemporaryChat && !Truthy(body.conversationId) ==>
            newConvId in o.convs && o.convs[newConvId].title == NewTitle(body.messages.value)
            && o.convs[newConvId].userId == userId.value)
      // what a turn sends and saves
      && (o.status == 200 ==>
            && opening.Opened? && body.messages.value != []
            && Served(o, body.messages.value, SelectAttachments(body.messages.value, body.files), body.parentMessageId,
                      body.isTemporaryChat, memories, generation, pairs, opening.convs, opening.conversation,
                      SelectModel(body.model.GetOr(DefaultModel), SelectAttachments(body.messages.value, body.files)),
                      newPairId, now))
    ensures o.status == 200 ==> Truthy(userId) && apiKeyConfigured && body.messages.Some?
    ensures body.isTemporaryChat ==> o.convs == convs
  {
    o := ChatOutcome(500, pairs, convs, [], "");
    if !Truthy(userId) {
      return o.(status := 401);
    }
    if !apiKeyConfigured {
      return o;
    }
    if body.messages.None? {
      return o.(status := 400);
    }
    var messages := body.messages.value;
    var model := body.model.GetOr(DefaultModel);
    var attachments := SelectAttachments(messages, body.files);
    var selectedModel := SelectModel(model, attachments);

    var opening := OpenConversation(body.isTemporaryChat, body.conversationId, userId.value, convs,
                                    messages, body.model, newConvId, now);
    if opening.NotFound? {
      return o.(status := 404);
    }
    if messages == [] {
      return o.(convs := opening.convs);
    }
    o := Turn(messages, attachments, body.parentMessageId, body.isTemporaryChat, memories, generation,
              pairs, opening.convs, opening.conversation, selectedModel, newPairId, now);
  }
}
