/**
 * The per-message annotations of the transcript view (components/chat-area.tsx): which message
 * is the last one of its role, and the branch navigator shown under a message that has
 * siblings, with the callbacks it is wired to.
 */
module ChatArea {
  import opened Wrappers
  import opened Text
  import opened Wire
  import opened ConversationTree

  /** `messages.filter(m => m.role === role)`. */
  function WithRole(ms: seq<UiMessage>, role: Role): (r: seq<UiMessage>)
    ensures |r| <= |ms|
    ensures forall k :: 0 <= k < |r| ==> r[k].role == role
  {
    if ms == [] then []
    else
      var rest := WithRole(ms[..|ms| - 1], role);
      if ms[|ms| - 1].role == role then rest + [ms[|ms| - 1]] else rest
  }

  /** The position of the last message of `role`, or -1 when there is none. */
  function LastIndexOf(ms: seq<UiMessage>, role: Role): (i: int)
    ensures -1 <= i < |ms|
    ensures i >= 0 ==> ms[i].role == role && forall k :: i < k < |ms| ==> ms[k].role != role
    ensures i == -1 ==> forall k :: 0 <= k < |ms| ==> ms[k].role != role
  {
    if ms == [] then -1
    else if ms[|ms| - 1].role == role then |ms| - 1
    else LastIndexOf(ms[..|ms| - 1], role)
  }

  /** The filtered list ends with the last message of the role, and is empty exactly when there is none. */
  lemma {:induction false} FilterEndsWithLast(ms: seq<UiMessage>, role: Role)
    ensures WithRole(ms, role) == [] <==> LastIndexOf(ms, role) == -1
    ensures WithRole(ms, role) != [] ==> WithRole(ms, role)[|WithRole(ms, role)| - 1] == ms[LastIndexOf(ms, role)]
  {
    if ms != [] && ms[|ms| - 1].role != role {
      FilterEndsWithLast(ms[..|ms| - 1], role);
    }
  }

  /**
   * `isLastUserMessage` (role User) and `isLastAssistantMessage` (role Assistant): the message has
   * the role, and its id is the id of the last message of that role.
   */
  predicate IsLastOf(ms: seq<UiMessage>, m: UiMessage, role: Role) {
    var w := WithRole(ms, role);
    m.role == role && |w| > 0 && w[|w| - 1].id == m.id
  }

  /** Message ids are unique among the messages of a role. */
  predicate DistinctIds(ms: seq<UiMessage>, role: Role) {
    forall i, j :: 0 <= i < j < |ms| && ms[i].role == role && ms[j].role == role ==> ms[i].id != ms[j].id
  }

  /**
   * With unique ids, the flag is set on exactly one message of the role: the one no later message
   * of the role follows.
   */
  lemma LastFlagMarksFinal(ms: seq<UiMessage>, role: Role, k: nat)
    requires k < |ms| && DistinctIds(ms, role)
    ensures IsLastOf(ms, ms[k], role) <==> ms[k].role == role && forall j :: k < j < |ms| ==> ms[j].role != role
  {
    FilterEndsWithLast(ms, role);
  }

  /** The flag only says the id matches: a second message of the role that repeats the last one's id is flagged too. */
  lemma SharedIdFlagsBoth(ms: seq<UiMessage>, role: Role, k: nat)
    requires k < |ms| && ms[k].role == role && LastIndexOf(ms, role) != k
    requires LastIndexOf(ms, role) >= 0 && ms[LastIndexOf(ms, role)].id == ms[k].id
    ensures IsLastOf(ms, ms[k], role) && IsLastOf(ms, ms[LastIndexOf(ms, role)], role)
  {
    FilterEndsWithLast(ms, role);
  }

  /**
   * The navigator under a message: the position shown, the number of versions, and the targets of
   * the previous and next callbacks (the pair id, and for next also the count), absent without a pair id.
   */
  datatype BranchInfo = BranchInfo(current: int, total: int, previous: Option<string>, next: Option<(string, int)>)

  /** `branchInfo` for one message. */
  function BranchInfoOf(m: UiMessage): (r: Option<BranchInfo>)
    ensures r.Some? <==> m.branchCount.GetOr(0) > 1
    ensures r.Some? ==> r.value.total == m.branchCount.value && r.value.total > 1
    ensures r.Some? ==> r.value.current == m.branchIndex.GetOr(0)
    ensures r.Some? ==> (r.value.previous.Some? <==> Truthy(m.pairId)) && (r.value.next.Some? <==> Truthy(m.pairId))
    ensures r.Some? && Truthy(m.pairId) ==>
              r.value.previous == m.pairId && r.value.next == Some((m.pairId.value, r.value.total))
  {
    var count := m.branchCount.GetOr(0);
    var index := m.branchIndex.GetOr(0);
    if count > 1 then
      Some(BranchInfo(index, count, if Truthy(m.pairId) then m.pairId else None,
                      if Truthy(m.pairId) then Some((m.pairId.value, count)) else None))
    else None
  }

  /**
   * Under the first user message of a walk from pair `key` whose group has siblings, the navigator
   * shows the stored selection and the group size, and both callbacks target the displayed child's
   * own (non-empty) pair id, which is never `key`, the id the walk reads its selection under.
   */
  lemma NavigatorTargetsChild(records: seq<ApiRecord>, indices: map<string, int>, key: string, visited: set<string>)
    requires key in AllPairIds(records) && key !in visited
    requires Chain(records, indices, key, visited).Success?
    requires |Children(records, Some(key))| > 1 && Lookup(indices, key, 0) >= 0
    ensures var children := Children(records, Some(key));
            var u := children[Min(Lookup(indices, key, 0), |children| - 1)];
            var ms := Chain(records, indices, key, visited).value;
            && |ms| >= 2
            && var info := BranchInfoOf(ms[0]);
            && info.Some?
            && info.value.current == Lookup(indices, key, 0) && info.value.total == |children|
            && (records[u].pairId != "" ==>
                  info.value.previous == Some(records[u].pairId) && info.value.next == Some((records[u].pairId, |children|)))
            && records[u].pairId != key
  {
    ChainSelects(records, indices, key, visited);
    var children := Children(records, Some(key));
    var u := children[Min(Lookup(indices, key, 0), |children| - 1)];
    ChainOpens(records, indices, key, visited);
  }
}
