# Conversation branching in a ChatGPT-style chat app, modelled in Dafny

This project models the deterministic core of a Next.js chat application whose conversations
can branch. In that application a user query and the model's answer are stored together as one
query/response *pair*. A pair points at the pair it follows (`parentMessageId`) and lists the
pairs that were created from it (`branches`). Editing a message or regenerating an answer
sends the id of the pair being edited or regenerated as the parent, so the new pair becomes a
child of that pair: a new fork below it, listed in its `branches` and shown after it
(app/page.tsx:645, 668, 753, 768). The chat view rebuilds one linear transcript from the tree,
and a session map from pair id to branch index chooses which sibling is shown at each fork.

The model covers:

- **The records** (`Records`): the stored pairs and conversations, with their schema defaults
  and the required checks on a pair's query and response and a conversation's owner.
- **The server routes**:
  - `MessagesApi`: the messages endpoint, which flattens each pair into a user record and an
    assistant record, and edits a stored message in place.
  - `BranchesApi`: the branch listing endpoint.
  - `ChatRoute`: one chat turn on the server. It chooses the attachments and the model,
    computes the depth, registers the new pair with its parent, trims the history to a token
    budget, injects the memory context, and builds and saves the stored pair.
- **Context trimming** (`ContextWindow`): the shared context utility, with its token estimate,
  its table of model window sizes and its budget trimmer. Both trimmers are proved against one
  shared specification of the newest-first budget scan (`TokenBudget`).
- **The chat view** (`ConversationTree`, `ChatSession`): grouping the records into a tree,
  `buildPath`, the branch-index initialisation, the previous/next buttons, and the requests that
  edit and regenerate send.
- **The client stores** (`ConversationsSlice`, `UserSlice`): the conversation list and the
  signed-in account.
- **The UI helpers**:
  - `ChatArea`: the last-message flags and the branch navigator.
  - `Sidebar`, `SearchModal`, `ConversationLists`: the date groups, the search filters, the
    account name and initials, and the rename editor.
  - `Clock12`, `ImageActions`, `LibraryPage`: the download file names, and the library page's
    start-a-chat and image loading.

Parts of the source that change state step by step are modelled as methods with loop
invariants, or as classes whose methods state the whole new state. Each such method is proved
against a reference function, and the source's promises are proved as lemmas about that
function. The methods are:

- the grouping `forEach`, the recursive `buildPath` and the branch-index initialisation;
- the two trimmers and the memory-injection search;
- the record flattening of the messages endpoint and its in-place edit;
- the two five-group splits.

The store reducers, the chat session, the rename editor and the image list are classes.

**Conventions.** Dates are integers (milliseconds, or day numbers). Strings are `seq<char>`. The
store of pairs is a map from id to record. A JavaScript value that is absent or empty is
`Option` together with `Truthy`. The generated text, the token usage, the memories found, fresh
ids and the clock are all parameters. One clock reading `now` stands for every moment of a
request, so the pair registered with its parent and the pair saved after generation get the same
time.

## Model

| member | source | states |
|---|---|---|
| Records.CreateMessage | lib/db/models.ts:9-54 | A pair is created exactly when its query and its response are both non-empty. A missing query is reported before a missing response. A created pair carries the given id, conversation, query and response, and the creation time as both timestamps. Every optional field the caller supplies (files, token count, parent, branches, depth) is kept, and a missing one takes its schema default. |
| Records.MessageDefaults | lib/db/models.ts:27-49 | A pair given only its conversation, query and response has no parent, depth 0, token count 0, no files and an empty `branches` list. |
| Records.CreateConversation | lib/db/models.ts:60-91 | A conversation is created exactly when the owner id is non-empty. It carries that owner, and the creation time as `lastMessageAt` and `createdAt`. |
| Records.ConversationDefaults | lib/db/models.ts:67-86 | A conversation created with only its owner is titled "New Chat", uses the model "gemini-2.5-flash", has 0 total tokens and is not archived. |
| Sorting.SortBy | app/api/messages/route.ts:28-30 | The result is ascending by the key and is a permutation of the input. |
| Sorting.SortSortedIsIdentity | app/page.tsx:539-541 | Input already in key order comes back unchanged. |
| Sorting.SortByStable | app/page.tsx:539-541 | The sort is stable: for every key, the elements with that key come out in their input order. |
| MessagesApi.OfConversation | app/api/messages/route.ts:28 | The result holds each stored pair of the conversation exactly as many times as the store does, and nothing else. |
| MessagesApi.Query | app/api/messages/route.ts:28-30 | The result is ascending by creation time and, as a multiset, equals the stored pairs of the conversation: none is repeated or lost. |
| MessagesApi.Flatten | app/api/messages/route.ts:33-58 | Two records per pair. Position 2k holds the user record of pair k: id `<id>-user`, the query, and the pair's files. Position 2k+1 holds the assistant record: id `<id>-assistant`, the response, and no files. |
| MessagesApi.GetMessages | app/api/messages/route.ts:18-60 | The answer is 400 exactly when the conversation id is missing or empty. Otherwise it is two records per stored pair of the conversation (each pair once, as `Query` states), user first, with the pairs' creation times ascending. |
| MessagesApi.EditableMessage.ApplyEdit | app/api/messages/route.ts:95-102 | After an edit the content is the new text, the token count is ceil(len/4), and the message is flagged as edited. `originalContent` takes the old text on the first edit only; later edits keep it. |
| MessagesApi.PatchMessage | app/api/messages/route.ts:81-105 | The answer is 400 exactly when the id or the text is missing or empty, and 404 exactly when the id is unknown; otherwise it is 200. On 200 that message is edited as `ApplyEdit` states. Every other message is left unchanged. |
| BranchesApi.Format | app/api/branches/route.ts:42-58 | Each entry carries the pair id on itself and on both messages. The user message has the query and the `-user` id; the assistant message has the response and the `-assistant` id. |
| BranchesApi.MatchedIds | app/api/branches/route.ts:34-36 | The ids matched are exactly those in `branches` that name a stored pair, each listed once. A null entry matches nothing. |
| BranchesApi.ListBranches | app/api/branches/route.ts:17-60 | The answer is 400 without a pair id and 404 for an unknown pair. Otherwise it is the parent's own entry first. After it come exactly the entries of the stored pairs its `branches` name, one per matched id, ascending by creation time. |
| BranchesApi.UnmatchedRefsAddNothing | app/api/branches/route.ts:34-36 | Appending null, or an id that names no stored pair, to `branches` leaves the listing unchanged. |
| TokenBudget.KeptFits | lib/utils/context.ts:78-86 | If the scan starts within the budget, the tokens already used plus the kept messages stay within it. |
| TokenBudget.KeptMaximal | lib/utils/context.ts:78-86 | The scan is greedy: adding the newest message it left out would overflow the budget. |
| TokenBudget.PushSystems | lib/utils/context.ts:68-72 | The first loop keeps every system message in order, and the running total is their summed cost. |
| TokenBudget.UnshiftNewest | lib/utils/context.ts:78-86 | The second loop puts the specified newest-first run in front of what was already chosen. |
| TokenBudget.Systems | lib/utils/context.ts:61 | The result holds exactly the system messages. |
| TokenBudget.NonSystem | lib/utils/context.ts:62 | The result holds exactly the non-system messages. |
| TokenBudget.FiltersPartition | lib/utils/context.ts:61-62 | The two filters split the messages: together they hold each message exactly as often as the input does. |
| ContextWindow.EstimateTokens | lib/utils/context.ts:17-20 | The estimate is at least 1 and is the least such count with 4·n ≥ the length. |
| ContextWindow.CountTokens | lib/utils/context.ts:33-44 | The count is the encoder's when an encoder is available, and otherwise the estimate. |
| ContextWindow.ModelContextSize | lib/utils/context.ts:46-49 | A known model gets its table entry. The size is 8192 exactly for "gpt-4", and 32768 for every other model, including an unknown or missing one. Names inherited from `Object.prototype` are not modelled. |
| ContextWindow.Allowed | lib/utils/context.ts:57-59 | The reserve is at least 64. The budget is 0 exactly when the window is no larger than the reserve, and otherwise the window less the reserve. |
| ContextWindow.TrimForContext | lib/utils/context.ts:56-91 | The trimmer returns the specification `Trimmed`: every system message, then the newest non-system run the budget admits. |
| ContextWindow.SystemsAlwaysFirst | lib/utils/context.ts:61-90 | Whatever the budget, the result begins with all system messages in their original order. |
| ContextWindow.KeptIsNewestSuffix | lib/utils/context.ts:78-90 | After the system messages comes a contiguous newest suffix of the other messages, oldest first. |
| ContextWindow.TrimmedFits | lib/utils/context.ts:75-86 | When the system messages fit the budget, so does the whole result. |
| ContextWindow.TrimmedStopsAtFirstMisfit | lib/utils/context.ts:78-83 | When something is dropped, adding the newest dropped non-system message would overflow the budget. |
| ContextWindow.SystemsOverBudget | lib/utils/context.ts:74-75 | When the system messages alone use the budget up, they are the whole result. |
| ChatRoute.EstimateTokens | app/api/chat/route.ts:347-349 | The estimate is the least n with 4·n ≥ the length, so it is 0 for empty text. |
| ChatRoute.TrimForContext | app/api/chat/route.ts:355-383 | The route's trimmer returns the specification: the kept newest history, followed by the system messages. |
| ChatRoute.HistoryThenSystems | app/api/chat/route.ts:359-382 | The result ends with all system messages in order. Before them is a contiguous newest run of the history. |
| ChatRoute.TrimmedFits | app/api/chat/route.ts:359-380 | When the system messages fit the budget, so does the whole result. |
| ChatRoute.SystemsOverBudget | app/api/chat/route.ts:359-380 | When the system messages alone exceed the budget, no history is kept. |
| ChatRoute.StopsAtFirstMisfit | app/api/chat/route.ts:370-380 | When something is dropped, adding the newest dropped history message would overflow, even if older, smaller ones would fit. |
| ChatRoute.HasImages | app/api/chat/route.ts:65-67 | True exactly when some attachment's content type or type starts with "image/". |
| ChatRoute.SelectAttachments | app/api/chat/route.ts:61-63 | The attachments are exactly the last message's when it has a non-empty list, and otherwise the body's `files`. |
| ChatRoute.SelectModel | app/api/chat/route.ts:65-68 | Any image attachment forces "gemini-2.5-flash". The requested model is replaced only when there is one. |
| ChatRoute.SavedFile | app/api/chat/route.ts:239-247 | The url and the name are kept. The type is the content type or type, or the text "undefined" when both are missing. A present size is stored as given and a missing one as 0. |
| ChatRoute.SavedFiles | app/api/chat/route.ts:239-247 | One stored file per attachment, in order. |
| ChatRoute.AddToSet | app/api/chat/route.ts:178-180 | No other pair changes and an unknown id changes nothing. A value the list already holds leaves the list as it is; any other value is appended at the end, the old entries keeping their order. A stored pair's `updatedAt` becomes the update's time either way (the schema's `timestamps`), and no other field changes. |
| ChatRoute.AddToSetIdempotent | app/api/chat/route.ts:276-279 | Adding the same value twice is the same as adding it once. |
| ChatRoute.AddToSetKeepsNoDuplicates | app/api/chat/route.ts:276-279 | A `branches` list without duplicates keeps none after an add. |
| ChatRoute.TwoAddsBothPresent | app/api/chat/route.ts:276-279 | Two adds leave both values in the list, with no duplicates, and the time of the second as `updatedAt`. |
| ChatRoute.RegisterWithParent | app/api/chat/route.ts:172-182 | A stored parent gives depth parent + 1 and receives the null placeholder in `branches`. The parent's `updatedAt` is refreshed. Otherwise the depth is 0 and the store is unchanged. No pair is added. |
| ChatRoute.Bullets | app/api/chat/route.ts:115-117 | With memories, the text opens with the bullet "- ". |
| ChatRoute.BulletsSplitIntoLines | app/api/chat/route.ts:115-117 | When no memory spans lines, the bullets split on "\n" into exactly one "- memory" line per memory, in order. |
| ChatRoute.MemoryContext | app/api/chat/route.ts:108-119 | The context is empty exactly when there are no memories. Otherwise it is the memory header followed by text that splits on "\n" into one "- memory" line per memory, in order, when no memory spans lines. |
| ChatRoute.FirstSystem | app/api/chat/route.ts:196-201 | The result is -1 exactly when no message is a system message, and otherwise the position of the first one. |
| ChatRoute.Injected | app/api/chat/route.ts:186-204 | Without context nothing changes. With no system message, a memory prompt is put in front. Otherwise the context is appended to the first system message and nothing else changes. |
| ChatRoute.InjectMemory | app/api/chat/route.ts:196-203 | The `some` test and the `findIndex` loop compute exactly `Injected`. |
| ChatRoute.MemoryReachesModel | app/api/chat/route.ts:188-204 | After injecting non-empty context, some system message contains it. |
| ChatRoute.PairTokens | app/api/chat/route.ts:259 | The count is the usage total when non-zero, and otherwise ceil(len(query + text)/4). |
| ChatRoute.MessageData | app/api/chat/route.ts:255-268 | The draft carries the conversation, query, response, token count, parent (or null), depth and an empty `branches`. It has a `files` key exactly when there are files. |
| ChatRoute.SavedPairShape | app/api/chat/route.ts:255-270 | With or without a `files` key, the schema stores exactly `SavedPair`: the turn's files, the given parent (or null), depth and token count, an empty `branches`, and the time as both timestamps. |
| ChatRoute.FinishedEffect | app/api/chat/route.ts:225-292 | A temporary chat, or a pair the schema rejects, changes nothing. Otherwise the pair store gains exactly the new id, holding the saved pair (with empty `branches` unless the parent is that id). The parent's entry is the add of the new id to its `branches`. Every other pair is unchanged. The conversation gets the time as `lastMessageAt` and `updatedAt`, and the token total; no other conversation changes and none is added. |
| ChatRoute.OnFinish | app/api/chat/route.ts:225-292 | The callback (build `messageData`, create the pair, add its id to the parent, update the conversation) leaves exactly the stores `Finished` describes. |
| ChatRoute.PlaceholderRemains | app/api/chat/route.ts:172-281 | After a finished turn with a parent, the parent's `branches` holds both the null placeholder and the new id. |
| ChatRoute.NewTitle | app/api/chat/route.ts:85-89 | The title is exactly the first min(50, length) characters of the first message, or "New Chat" when that text is empty or there are no messages. |
| ChatRoute.NewConversation | app/api/chat/route.ts:84-90 | A created conversation has the fresh id, the user, the title `NewTitle` and the requested model ("gemini-2.5-flash" by default). |
| ChatRoute.OpenConversation | app/api/chat/route.ts:75-92 | A temporary chat opens none and stores none. A given id is not found exactly when no conversation of this user has it, and otherwise opens that conversation. Without an id a conversation is created and stored under the fresh id. |
| ChatRoute.Turn | app/api/chat/route.ts:171-292 | A turn is `Served`: status 200, the chosen model, the trimmed history with the memory context injected as what is sent, and the stores that registration and then `onFinish` leave. The turn's conversation keeps its title and owner. |
| ChatRoute.ServedSendsMemories | app/api/chat/route.ts:106-119 | In a chat that is not temporary, a 200 answer sends the memory context inside a system message. |
| ChatRoute.ServedSavesPair | app/api/chat/route.ts:225-281 | When generation finished with non-empty texts, a 200 answer stores `SavedPair` under the new id, and no pair other than the new one and the parent changes. |
| ChatRoute.HandleChat | app/api/chat/route.ts:23-341 | The status is 401 without a user and 500 without the API key. Then it is 400 exactly for a non-array message list, and 404 exactly when `OpenConversation` finds nothing. An empty list is 500 after a new conversation has been stored. Otherwise it is 200. 400, 401 and 404 write nothing. A 200 is `Served`. A created conversation keeps the title `NewTitle` and its owner. A temporary chat writes no conversation. |
| ChatSession.FindIndex | app/page.tsx:640-641 | The result is the first position holding the id, or -1 when no position holds it. |
| ChatSession.EditRequest | app/page.tsx:629-669 | A request is sent exactly when a conversation is open and the id is displayed. It carries the messages strictly before the first such message, then the new text as a user turn. Its parent is the edited message's own pair id, or null. |
| ChatSession.RegenerateRequest | app/page.tsx:735-769 | A request is sent exactly when a conversation is open, the message is found at a position above 0, and the message before it is a user message. It carries everything before the message, with that user message's pair id as the parent. |
| ChatSession.PreviousIndices | app/page.tsx:837-849 | The entry for the id drops by one when it is above 0, and otherwise nothing changes. No other key changes. |
| ChatSession.NextIndices | app/page.tsx:852-866 | The entry for the id rises by one while it is below total − 1, and otherwise nothing changes. No other key changes. |
| ChatSession.NavigationStaysInRange | app/page.tsx:837-866 | An index within 0..total−1 stays in range, and both buttons are no-ops at their boundary (no wrap-around). |
| ChatSession.PreviousThenNext | app/page.tsx:837-866 | Away from the lower boundary, previous then next restores the map. |
| ChatSession.NextThenPrevious | app/page.tsx:837-866 | Away from the upper boundary, next then previous selects as before. |
| ChatSession.SiblingKey | app/page.tsx:516-523 | A key is found only for a pair whose user record lists it as parent. |
| ChatSession.OwnIdNextKeepsSelection | app/page.tsx:852-866 | As written, "next" under a non-root pair leaves the walk at its parent selecting the same child as before. |
| ChatSession.NextSiblingAdvances | app/page.tsx:576-606 | Corrected, "next" makes the walk at the parent emit the next sibling, annotated with the new index. |
| ChatSession.PreviousSiblingRetreats | app/page.tsx:576-606 | Corrected, "previous" makes the walk at the parent emit the previous sibling. |
| ChatSession.Session.constructor | app/page.tsx:51-56 | Initially no conversation is open, the chat is not temporary, nothing is displayed and there are no branch indices. |
| ChatSession.Session.SelectConversation | app/page.tsx:487-627 | The conversation becomes current and temporary chat is switched off. A failed fetch or a failed walk keeps the transcript and the indices. A successful walk shows the transcript built with the old indices and stores the initialised indices. |
| ChatSession.Session.PreviousBranch | app/page.tsx:837-850 | With a conversation open, the index map becomes `PreviousIndices`; without one, nothing changes. Nothing else changes. |
| ChatSession.Session.NextBranch | app/page.tsx:852-866 | With a conversation open, the index map becomes `NextIndices`; without one, nothing changes. Nothing else changes. |
| ChatSession.Session.NextSibling | app/page.tsx:852-866 | The corrected button: the index under the pair's parent id advances. Nothing else changes. |
| ChatSession.Session.PreviousSibling | app/page.tsx:837-850 | The corrected button: the index under the pair's parent id goes back. Nothing else changes. |
| ChatSession.Session.EditMessage | app/page.tsx:629-670 | It returns the edit request. When one is sent, the transcript becomes the messages before the edited one followed by the temporary user message. Otherwise nothing changes. |
| ChatSession.Session.RegenerateResponse | app/page.tsx:735-770 | It returns the regenerate request. When one is sent, the transcript becomes everything before the answer. Otherwise nothing changes. |
| ChatSession.ReloadIsStable | app/page.tsx:613-622 | After a successful load, reloading with the stored indices shows the same transcript, and that transcript alternates user and assistant by pair. |
| ConversationTree.ParentKey | app/page.tsx:519 | The group key is the parent id when that is non-empty, and null otherwise. |
| ConversationTree.UsersUnder | app/page.tsx:519-523 | A group holds only user records whose parent key is the group's, in record order. |
| ConversationTree.UsersUnderComplete | app/page.tsx:519-523 | Every user record with the group's key is in the group. |
| ConversationTree.LatestUser | app/page.tsx:516 | The id map names a user record with that pair id. |
| ConversationTree.GroupedMeetsSpec | app/page.tsx:506-530 | Reading the records in order builds exactly the maps the reference functions describe. |
| ConversationTree.GroupRecords | app/page.tsx:506-530 | After the loop, each id names its latest user record and each group lists its user records in order. An assistant record is attached only to a pair already grouped under its pair id; any other is dropped. |
| ConversationTree.UserInExactlyOneGroup | app/page.tsx:506-530 | Every user record is in exactly one group, the one its parent key names, and only once there. |
| ConversationTree.Children | app/page.tsx:535-541 | The children are ascending by creation time, and are exactly the group's user records. |
| ConversationTree.SortedGroup | app/page.tsx:535-541 | The in-place sort of a group yields `Children`. |
| ConversationTree.ExtendPath | app/page.tsx:576-607 | The recursive walk from a pair id appends exactly what the specification `Chain` emits, or fails as it does. |
| ConversationTree.EmitRoot | app/page.tsx:546-575 | The root step pushes the root pair and then its walk, as `RootsFrom` specifies. |
| ConversationTree.BuildPath | app/page.tsx:533-611 | `buildPath(null)` produces the specification `DisplayPath`. |
| ConversationTree.EmptyGroupEmitsNothing | app/page.tsx:535-536 | An absent or empty group emits nothing, and so does a negative stored index. |
| ConversationTree.ChainSelects | app/page.tsx:576-603 | A non-root group of n children emits first the child at min(sel, n − 1), annotated with n and the unclamped stored sel, then its assistant. |
| ConversationTree.RootsAllEmitted | app/page.tsx:544-575 | Every root pair is emitted, annotated with the number of roots and its own position. |
| ConversationTree.FirstRootFirst | app/page.tsx:539-575 | A transcript starts with the oldest root pair, annotated as the first of all roots. |
| ConversationTree.DisplayPathWellPaired | app/page.tsx:551-603 | Each emitted pair is a user message directly followed by an assistant message with the same pair id. |
| ConversationTree.ChainSameSelections | app/page.tsx:578 | Two index maps that read the same under `get(id) \|\| 0` give the same walk. |
| ConversationTree.InitKeepsPath | app/page.tsx:613-619 | The 0 entries initialisation adds do not change the transcript. |
| ConversationTree.InitBranchIndices | app/page.tsx:613-619 | Existing entries are kept. A pair with a non-empty `branches` list and no entry gets 0, and nothing else is added. |
| ConversationLists.Where | components/sidebar.tsx:135-139 | A filter never lengthens the list. |
| ConversationLists.WhereMembers | components/sidebar.tsx:135-139 | A filter keeps exactly the elements that pass. |
| ConversationLists.WhereAll | components/search-modal.tsx:43-48 | When every element passes, the list is unchanged. |
| ConversationLists.WhereConcat | lib/redux/slices/conversationsSlice.ts:128 | A filter keeps the relative order: filtering a concatenation filters each part. |
| ConversationLists.IndexOfId | lib/redux/slices/conversationsSlice.ts:93 | The result is the first position with the id, or -1 when there is none. |
| ConversationLists.InBucketMembers | components/sidebar.tsx:109-130 | A group holds exactly the conversations classified into it. |
| ConversationLists.Push | components/sidebar.tsx:118-129 | A push extends one group and leaves the other four unchanged. |
| ConversationLists.GroupBy | components/sidebar.tsx:109-130 | Each of the five groups is the conversations classified into it, in input order. |
| ConversationLists.InBucketSnoc | components/sidebar.tsx:109-130 | One more conversation extends only the group of its class. |
| ConversationLists.GroupsPartition | components/sidebar.tsx:109-130 | The five groups together hold as many conversations as the input, so each lands in exactly one. |
| Sidebar.DayBucket | components/sidebar.tsx:118-129 | Today exactly for today's day, and Yesterday for the day before. "Last 7 days" covers the other days after today − 7, future days included. "Last 30 days" covers today − 30 < d ≤ today − 7. Everything else is Older. |
| Sidebar.FutureDaysInLastWeek | components/sidebar.tsx:118-129 | A conversation dated after today falls in "Last 7 days". |
| Sidebar.DayBucketsOrdered | components/sidebar.tsx:118-129 | Up to today, a later conversation never lands in an older group than an earlier one. |
| Sidebar.GroupByDate | components/sidebar.tsx:99-133 | Each group is the conversations of its day class, in input order. |
| Sidebar.FilterKeepsMatches | components/sidebar.tsx:135-139 | A conversation is listed exactly when the lower-cased query occurs in its lower-cased title or preview. |
| Sidebar.EmptyQueryKeepsAll | components/sidebar.tsx:135-139 | The empty query lists every conversation, in order. |
| Sidebar.UserName | components/sidebar.tsx:59-61 | The name is "first last" with both names, else the first name. Without a first name it is exactly the email text before '@' when that text is non-empty, and "User" otherwise. It is never empty. |
| Sidebar.UserInitials | components/sidebar.tsx:64-66 | Two letters exactly when both names are present: their first letters. Otherwise the first name's first letter. Without a first name it is the upper-cased first letter of a non-empty email, and "U" when there is no email. |
| Sidebar.RenameRequest | components/sidebar.tsx:73-79 | A rename is issued exactly when the trimmed title is non-blank and the title as typed differs from the current one. It sends the trimmed title. |
| Sidebar.RenameSendsCleanTitle | components/sidebar.tsx:73-79 | A sent title is non-empty, with no surrounding whitespace. Retyping the current title or typing only spaces sends nothing. |
| Sidebar.RenameEditor.constructor | components/sidebar.tsx:68-84 | The editor starts closed, with no id and empty text. |
| Sidebar.RenameEditor.Start | components/sidebar.tsx:68-71 | The editor opens on the conversation with its current title. |
| Sidebar.RenameEditor.Type | components/sidebar.tsx:68-84 | Typing replaces the text and keeps the id. |
| Sidebar.RenameEditor.Save | components/sidebar.tsx:73-79 | Save returns `RenameRequest` for the typed text, and the editor is cleared either way. |
| Sidebar.RenameEditor.Cancel | components/sidebar.tsx:81-84 | The editor is cleared. |
| SearchModal.SearchFilterMembers | components/search-modal.tsx:43-48 | A conversation is a result exactly when the query is blank, or the query as typed occurs, ignoring case, in its title. |
| SearchModal.BlankQueryKeepsAll | components/search-modal.tsx:43-48 | A query of spaces lists every conversation, in order. |
| SearchModal.NoChatsFound | components/search-modal.tsx:178-182 | "No chats found" is shown exactly when there are no conversations, or the query is non-blank and no title contains it. |
| SearchModal.PaddedQueryMissesTitle | components/search-modal.tsx:43-48 | A title equal to the trimmed query is missed when the query carries surrounding spaces, because the blank test trims and the match does not. |
| SearchModal.SearchBucket | components/search-modal.tsx:70-81 | Each group is a half-open time interval: at or after today's midnight; yesterday's; the midnight 7 days back; the one 30 days back. Anything earlier is Older. |
| SearchModal.SearchBucketsOrdered | components/search-modal.tsx:70-81 | A later conversation never lands in an older group than an earlier one. |
| SearchModal.GroupConversations | components/search-modal.tsx:51-84 | Each group is the conversations of its time class, in input order. |
| SearchModal.SidebarAgreesOffBoundaries | components/search-modal.tsx:70-81 | For past dates the modal and the sidebar agree, except on two days. The day 7 days back is "Last 7 days" in the modal and "Last 30 days" in the sidebar. The day 30 days back is "Last 30 days" in the modal and Older in the sidebar. |
| SearchModal.FutureDatesDisagree | components/search-modal.tsx:70-81 | A future date is Today in the modal but "Last 7 days" in the sidebar. |
| ChatArea.WithRole | components/chat-area.tsx:48 | The filter keeps only messages of the role. |
| ChatArea.LastIndexOf | components/chat-area.tsx:48-57 | The result is the position of the last message of the role, or -1 when there is none. |
| ChatArea.FilterEndsWithLast | components/chat-area.tsx:48-57 | The filtered list is empty exactly when the role is absent. Otherwise it ends with the last message of the role. |
| ChatArea.LastFlagMarksFinal | components/chat-area.tsx:48-57 | With unique ids, a message is flagged as last of its role exactly when no later message has that role. |
| ChatArea.SharedIdFlagsBoth | components/chat-area.tsx:48-57 | The flag compares ids only: an earlier message repeating the last one's id is flagged too. |
| ChatArea.BranchInfoOf | components/chat-area.tsx:61-69 | The navigator is shown exactly when `branchCount \|\| 0` exceeds 1, with current = `branchIndex \|\| 0`. Both callbacks exist exactly when the pair id is set, and both target that id; next also passes the count. |
| ChatArea.NavigatorTargetsChild | components/chat-area.tsx:61-69 | Under the first message of a walk from pair `key` with siblings, the navigator shows the stored index and the group size. Its callbacks target the displayed child's own id, never `key`, which is the id the walk reads. |
| Clock12.Field2 | components/image-actions.tsx:23-27 | A two-digit field has length 2 for numbers below 100, and holds digits only. |
| Clock12.Field2RoundTrip | components/image-actions.tsx:23-27 | A padded field reads back as its number. |
| Clock12.DisplayHour | components/image-actions.tsx:28-30 | The dial hour is in 1..12 and agrees with the hour modulo 12. |
| Clock12.Meridiem | components/image-actions.tsx:29 | "PM" exactly when the hour is 12 or later, and "AM" otherwise. |
| Clock12.TwelveHourRoundTrip | components/image-actions.tsx:28-30 | The dial hour and the suffix give back the hour of the day. |
| Clock12.DatePartReadsBack | components/image-actions.tsx:22-32 | The stamp's front is `MM-DD-`, whose month (counted from 1) and day read back. |
| Clock12.TimePartReadsBack | components/image-actions.tsx:22-32 | The stamp's back is `mm-ss AM\|PM`, whose minutes, seconds and suffix read back. |
| Clock12.StampLayout | components/image-actions.tsx:22-32 | A stamp opens with its date part and closes with its time part. |
| ImageActions.ExtensionAsWritten | components/image-actions.tsx:31 | As written, the extension is non-empty and holds no '.'. Without a file name it is "image". |
| ImageActions.ExtensionAsWrittenIsName | components/image-actions.tsx:31 | As written, without a name or with a name that has no '.', the extension is that name ("image" when there is none). |
| ImageActions.Extension | components/image-actions.tsx:31 | Corrected, the extension is the text after the name's last '.' when there is one and it is non-empty; otherwise it is "png". |
| ImageActions.ExtensionsAgreeWithSeparator | components/image-actions.tsx:31 | Both extensions agree on every name containing a '.'. |
| ImageActions.AfterLastOfJoin | components/image-actions.tsx:31-32 | What follows the last '.' of `p.e` is `e`, when `e` holds no '.'. |
| ImageActions.NameEndsWithExtension | components/image-actions.tsx:32 | The download name opens with the file name (or "ChatGPT Image") and a space. Its text after the last '.' is the extension. |
| ImageActions.UnnamedImageSavedAsImage | components/image-actions.tsx:31-32 | As written, an image without a file name is saved with the extension "image". |
| ImageActions.DownloadNameEndsWithExtension | components/image-actions.tsx:31-32 | Corrected, the name ends with the intended extension, and with "png" for an unnamed image. |
| LibraryPage.LibraryNameIsIntendedDefault | app/library/page.tsx:132-142 | The library's download name is the toolbar's corrected name for an unnamed image. It ends in ".png", and differs from the toolbar's name as written. |
| LibraryPage.ConversationIdOf | app/library/page.tsx:109-110 | The id is `conversation._id`, else `conversationId`, else `id`, the first that is non-empty. Without any, the error is "Invalid conversation id". |
| LibraryPage.SendMessage | app/library/page.tsx:95-122 | A blank message is ignored, and only a blank one. Otherwise the title sent is the first 50 characters. A failed create gives "Failed to create conversation"; an answer gives the id or its error. |
| LibraryPage.FallbackTitleUnused | app/library/page.tsx:103 | The "New Chat" fallback is never used: a non-blank message has a non-empty 50-character prefix. |
| LibraryPage.LoadedImages | app/library/page.tsx:37-47 | The list is the array of an OK response, and empty for a failed request, a non-OK status or a non-array body. |
| LibraryPage.Library.constructor | app/library/page.tsx:31-53 | The page starts loading, with no images. |
| LibraryPage.Library.Load | app/library/page.tsx:31-53 | On another tab nothing changes. On the images tab (the default for a missing or empty tab), the images become `LoadedImages` and loading ends. |
| LibraryPage.Present | app/library/page.tsx:186-191 | `value \|\| undefined`: an empty string reads as missing, and any other value is kept. |
| LibraryPage.ClearedStoreShowsDefaults | app/library/page.tsx:186-191 | With the account store cleared, the sidebar shows "User" and "U". |
| LibraryPage.SetUserShowsFullName | app/library/page.tsx:186-191 | After `setUser` with both names, the sidebar shows "first last" and both initials. |
| ConversationsSlice.EmptyUpdateKeepsEntry | lib/redux/slices/conversationsSlice.ts:95 | An update that sets nothing leaves an entry unchanged. |
| ConversationsSlice.MergeIdempotent | lib/redux/slices/conversationsSlice.ts:95 | Applying the same update twice is applying it once. |
| ConversationsSlice.DeleteKeepsOthers | lib/redux/slices/conversationsSlice.ts:127-129 | A delete keeps exactly the entries with another id. |
| ConversationsSlice.DeleteAbsentIsNoop | lib/redux/slices/conversationsSlice.ts:127-129 | Deleting an id that is not listed changes nothing. |
| ConversationsSlice.AddThenDeleteRestores | lib/redux/slices/conversationsSlice.ts:89-129 | Adding a new conversation and then deleting its id gives back the list. |
| ConversationsSlice.RenameIsTitleUpdate | lib/redux/slices/conversationsSlice.ts:92-125 | A rename is an update that sets the title alone. |
| ConversationsSlice.FetchedEntries | lib/redux/slices/conversationsSlice.ts:36-42 | The fetch fails with "Invalid time value" exactly when some row has no date. Otherwise each row maps to an entry, index by index: id, title, preview (or the default), timestamp, and no messages. |
| ConversationsSlice.FetchedPreviewsNonEmpty | lib/redux/slices/conversationsSlice.ts:39 | Every fetched entry shows a non-empty preview. |
| ConversationsSlice.FetchOutcome | lib/redux/slices/conversationsSlice.ts:30-46 | A response that is not OK gives "Failed to fetch conversations". Otherwise the outcome is the mapping. |
| ConversationsSlice.ConversationsState.constructor | lib/redux/slices/conversationsSlice.ts:19-24 | The store starts with an empty list, not loading, no error and no fetch time. |
| ConversationsSlice.ConversationsState.AddConversation | lib/redux/slices/conversationsSlice.ts:89-91 | The new entry goes first, and the others keep their order. Nothing else changes. |
| ConversationsSlice.ConversationsState.UpdateConversation | lib/redux/slices/conversationsSlice.ts:92-97 | Only the first entry with the id takes the update; an absent id changes nothing. Nothing else changes. |
| ConversationsSlice.ConversationsState.ClearConversations | lib/redux/slices/conversationsSlice.ts:98-101 | The list is emptied and the fetch time cleared. The flag and the error stay. |
| ConversationsSlice.ConversationsState.FetchPending | lib/redux/slices/conversationsSlice.ts:106-109 | Loading starts and the error is cleared. The list and the fetch time stay. |
| ConversationsSlice.ConversationsState.FetchSettled | lib/redux/slices/conversationsSlice.ts:110-118 | Loading ends. A success replaces the list and stamps the time. A failure keeps the list and records the error. |
| ConversationsSlice.ConversationsState.RenameFulfilled | lib/redux/slices/conversationsSlice.ts:120-125 | Only the title of the first entry with the id changes. Nothing else changes. |
| ConversationsSlice.ConversationsState.DeleteFulfilled | lib/redux/slices/conversationsSlice.ts:127-129 | Every entry with the id goes, and the rest keep their order. |
| UserSlice.UserStore.constructor | lib/redux/slices/userSlice.ts:12-19 | The store starts in the initial state. |
| UserSlice.UserStore.SetUser | lib/redux/slices/userSlice.ts:25-32 | Whatever the prior state, the store holds the payload's five fields and is loaded. |
| UserSlice.UserStore.ClearUser | lib/redux/slices/userSlice.ts:33-40 | From any state, the store is back in the initial state, so clearing twice is clearing once. |

## Left out

- Authentication (the 401 answers of the messages and branches endpoints), database connections, and exceptions thrown by the store (the 500 answers). A store call is an operation on a map.
- Generating the reply (`streamText`, `toDataStreamResponse`) and the memory service. The generated text, the usage count and the memories found are inputs. Storing memories after a turn is not part of this model.
- Downloading attachments and converting them to data URLs in the chat route (app/api/chat/route.ts:130-169). This is network I/O with concurrent fetches. The trimmer works on the messages as received.
- The js-tiktoken path of `countTokens`. This is a foreign library; its count is an optional input.
- The client stream readers in app/page.tsx. They decode chunks of a response stream. The asynchronous parts of edit and regenerate after the request is built are not modelled either: the streamed answer, the reload that follows, and the `isEditingResponse` flag.
- The `setTimeout` reloads after the branch buttons, URL updates (`router.push`), toasts, and the random welcome message. In the source the delayed reload (app/page.tsx:848 and 864) calls the `handleSelectConversation` of the render in which the button was pressed. That function reads the branch indices of that render, from before the click (app/page.tsx:578 and 614), and stores a map rebuilt from them (app/page.tsx:620), so the reload undoes the click. The model has no stale closures: `ChatSession.Session.SelectConversation` reads the session's current indices.
- The DOM download in the image toolbar and on the library page: fetch, blob, link and click. So is the `encodeURIComponent` preload redirect after the library creates a conversation.
- Time zones and calendars. A date is a millisecond count and a day is that count divided by 86 400 000. `new Date(...)` on an absent date is modelled as the error `toISOString` raises; the epoch reading of `new Date(null)` is not modelled.
- `Sidebar.DayOf`: the local day of a timestamp is not modelled; the model uses the UTC day number.
- Unicode case folding and whitespace: `Lower`, `Trim` and `Includes` work on ASCII letters and ASCII whitespace only.
- String lengths: JavaScript's `length`, `slice` and `substring` count UTF-16 code units, and the model counts characters. A character outside the Basic Multilingual Plane, such as an emoji, counts 2 there and 1 here. This affects the token estimates (`ContextWindow.EstimateTokens`, `ChatRoute.EstimateTokens`, `ChatRoute.PairTokens`, the token count of `MessagesApi.EditableMessage.ApplyEdit`) and the 50-character titles (`ChatRoute.NewTitle`, `LibraryPage.SendMessage`).
- `ContextWindow.ModelContextSize`: a model name that is a key of `Object.prototype` ("toString", "constructor", "__proto__" and the like) makes the table lookup return an inherited member instead of a number. The budget then becomes NaN and the trimmer keeps every message. The model treats every name outside the table as unknown, with the size 32768.
- `Sorting.SortBy`: the model breaks ties between equal keys by input order (`Sorting.SortByStable`), as `Array.prototype.sort` does. MongoDB's `.sort({ createdAt: 1 })` does not promise any order for equal keys.
- `Records.CreateMessage`: the schema also requires `conversationId` and casts it to an ObjectId. Ids are opaque strings in the model, so an empty or malformed conversation id is accepted.
- JSX rendering, message bubbles, the input area and the other presentational components.
- `MessagesApi.GetMessages`: the `|| []` and `|| 0` fallbacks for `branches` and `depth` are not modelled, because a stored pair always carries both (`Records.CreateMessage` sets them).
- `MessagesApi.PatchMessage`: the handler writes `content`, `isEdited` and `originalContent`, which the schema in lib/db/models.ts does not declare. The model edits an abstract record holding those fields, and does not model the database dropping undeclared fields.
- `ChatRoute.HandleChat`: the 500 answer for a failed stream or a thrown error is not modelled beyond the missing-key and empty-message cases.
- `LibraryPage.ImageRecord`: its fields are taken from the image type declaration in types/index.ts, which is not part of this model.
- `LibraryPage.SendMessage`: the attached `files` argument, which the handler ignores, is left out.

## Findings

| source | as written | input that shows it | evidently intended | confidence | as-written member | corrected member |
|---|---|---|---|---|---|---|
| app/page.tsx:852-866 | The branch buttons write the index under the displayed pair's own id (components/chat-area.tsx:67-68, app/page.tsx:844 and 860). `buildPath` reads the selection of a group under the parent's id (app/page.tsx:578). | Root pair A with children B and C. B is displayed; pressing "next" on B stores B ↦ 1. The walk at A still reads A ↦ 0 and shows B again. | Moving to a sibling changes the index the walk reads, which is the one under the parent's id. Fixing the key alone would not repair navigation in the source: the delayed reload runs with the indices from before the click (app/page.tsx:848 and 864, then 614 and 620). | not executed | ChatSession.OwnIdNextKeepsSelection | ChatSession.NextSiblingAdvances |
| components/image-actions.tsx:31 | The extension is the text after the last '.' of `filename \|\| 'image'`, so an unnamed image gets the extension "image". A name without a '.' becomes its own extension. | `filename` undefined gives "ChatGPT Image 01-02-2025 3-04-05 PM.image". | "png" unless the file name carries an extension, as the library page's name (app/library/page.tsx:142) uses. | not executed | ImageActions.UnnamedImageSavedAsImage | ImageActions.DownloadNameEndsWithExtension |
