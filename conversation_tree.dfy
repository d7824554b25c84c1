/**
 * Rebuilding the displayed transcript from the flattened records of a conversation
 * (`handleSelectConversation` in app/page.tsx): user records become pairs grouped under their
 * parent id, assistant records attach to the pair with their id, and `buildPath` walks the tree
 * from the roots, emitting every root pair but only the selected child of every other group.
 *
 * A pair is identified by the index of the user record that created it: two user records with
 * the same `pairId` make two pair objects in the source, of which the id map keeps the latter.
 */
module ConversationTree {
  import opened Wrappers
  import opened Text
  import opened Records
  import opened Wire
  import Sorting

  /** `msg.parentMessageId || null`: the key of the group a user record joins. */
  function ParentKey(p: Option<string>): (k: Option<string>)
    ensures k.Some? <==> Truthy(p)
    ensures k.Some? ==> k == p
  {
    if Truthy(p) then p else None
  }

  /** The user records among the first `n` that belong to the group `key`, in record order. */
  function UsersUnder(records: seq<ApiRecord>, key: Option<string>, n: nat): (r: seq<nat>)
    requires n <= |records|
    ensures forall k :: 0 <= k < |r| ==>
              r[k] < n && records[r[k]].role == User && ParentKey(records[r[k]].parentMessageId) == key
    ensures forall a, b :: 0 <= a < b < |r| ==> r[a] < r[b]
  {
    if n == 0 then []
    else
      var r := UsersUnder(records, key, n - 1);
      if records[n - 1].role == User && ParentKey(records[n - 1].parentMessageId) == key then r + [n - 1] else r
  }

  /** Every user record of the group among the first `n` is listed. */
  lemma {:induction false} UsersUnderComplete(records: seq<ApiRecord>, key: Option<string>, n: nat, i: nat)
    requires i < n <= |records|
    requires records[i].role == User && ParentKey(records[i].parentMessageId) == key
    ensures i in UsersUnder(records, key, n)
  {
    if i < n - 1 {
      UsersUnderComplete(records, key, n - 1, i);
    }
  }

  /** The user record that the id map holds for `pid` after the first `n` records: the latest one. */
  function LatestUser(records: seq<ApiRecord>, pid: string, n: nat): (r: Option<nat>)
    requires n <= |records|
    ensures r.Some? ==> r.value < n && records[r.value].role == User && records[r.value].pairId == pid
  {
    if n == 0 then None
    else if records[n - 1].role == User && records[n - 1].pairId == pid then Some(n - 1)
    else LatestUser(records, pid, n - 1)
  }

  /**
   * The assistant record attached to pair `u` after the first `n` records: the latest assistant
   * record whose id, when it was read, named pair `u`.
   */
  function AttachedAssistant(records: seq<ApiRecord>, u: nat, n: nat): (r: Option<ApiRecord>)
    requires n <= |records|
  {
    if n == 0 then None
    else if records[n - 1].role == Assistant && LatestUser(records, records[n - 1].pairId, n - 1) == Some(u)
    then Some(records[n - 1])
    else AttachedAssistant(records, u, n - 1)
  }

  /** The three maps the grouping loop fills: id to pair, parent key to pairs, pair to assistant. */
  datatype Groups = Groups(
    byId: map<string, nat>,
    byParent: map<Option<string>, seq<nat>>,
    assistants: map<nat, ApiRecord>)

  /** The id map after the first `n` records: each id names the latest user record with it. */
  ghost predicate IdsAfter(records: seq<ApiRecord>, byId: map<string, nat>, n: nat)
    requires n <= |records|
  {
    && (forall pid :: pid in byId <==> LatestUser(records, pid, n).Some?)
    && (forall pid :: pid in byId ==> LatestUser(records, pid, n) == Some(byId[pid]))
  }

  /** The parent map after the first `n` records: each key holds its group's user records in order. */
  ghost predicate ParentsAfter(records: seq<ApiRecord>, byParent: map<Option<string>, seq<nat>>, n: nat)
    requires n <= |records|
  {
    && (forall key :: key in byParent ==> byParent[key] == UsersUnder(records, key, n))
    && (forall key :: key !in byParent ==> UsersUnder(records, key, n) == [])
  }

  /** The assistants after the first `n` records. */
  ghost predicate AssistantsAfter(records: seq<ApiRecord>, assistants: map<nat, ApiRecord>, n: nat)
    requires n <= |records|
  {
    && (forall u :: u in assistants <==> AttachedAssistant(records, u, n).Some?)
    && (forall u :: u in assistants ==> AttachedAssistant(records, u, n) == Some(assistants[u]))
  }

  /** `g` is what the grouping loop holds after the first `n` records. */
  ghost predicate GroupsAfter(records: seq<ApiRecord>, g: Groups, n: nat)
    requires n <= |records|
  {
    IdsAfter(records, g.byId, n) && ParentsAfter(records, g.byParent, n) && AssistantsAfter(records, g.assistants, n)
  }

  ghost predicate GroupsOf(records: seq<ApiRecord>, g: Groups) {
    GroupsAfter(records, g, |records|)
  }

  /** The id map after reading `rec` as record `n`: a user record names its pair. */
  function IdsAdd(byId: map<string, nat>, rec: ApiRecord, n: nat): map<string, nat> {
    if rec.role == User then byId[rec.pairId := n] else byId
  }

  /** The parent map after reading `rec` as record `n`: a user record joins the group of its parent key. */
  function ParentsAdd(byParent: map<Option<string>, seq<nat>>, rec: ApiRecord, n: nat): map<Option<string>, seq<nat>> {
    var key := ParentKey(rec.parentMessageId);
    if rec.role == User then byParent[key := (if key in byParent then byParent[key] else []) + [n]] else byParent
  }

  /** The assistants after reading `rec`: an assistant record attaches to the pair its id names, if any. */
  function AssistantsAdd(byId: map<string, nat>, assistants: map<nat, ApiRecord>, rec: ApiRecord): map<nat, ApiRecord> {
    if rec.role == Assistant && rec.pairId in byId then assistants[byId[rec.pairId] := rec] else assistants
  }

  /** The maps after reading the first `n` records in order; a system record changes nothing. */
  function Grouped(records: seq<ApiRecord>, n: nat): Groups
    requires n <= |records|
  {
    if n == 0 then Groups(map[], map[], map[])
    else
      var g := Grouped(records, n - 1);
      var rec := records[n - 1];
      Groups(IdsAdd(g.byId, rec, n - 1), ParentsAdd(g.byParent, rec, n - 1), AssistantsAdd(g.byId, g.assistants, rec))
  }

  lemma IdsStep(records: seq<ApiRecord>, byId: map<string, nat>, n: nat)
    requires n < |records| && IdsAfter(records, byId, n)
    ensures IdsAfter(records, IdsAdd(byId, records[n], n), n + 1)
  {
  }

  lemma ParentsStep(records: seq<ApiRecord>, byParent: map<Option<string>, seq<nat>>, n: nat)
    requires n < |records| && ParentsAfter(records, byParent, n)
    ensures ParentsAfter(records, ParentsAdd(byParent, records[n], n), n + 1)
  {
    var k0 := ParentKey(records[n].parentMessageId);
    forall key
      ensures UsersUnder(records, key, n + 1) ==
              UsersUnder(records, key, n) + (if records[n].role == User && key == k0 then [n] else [])
    {
    }
  }

  lemma AssistantsStep(records: seq<ApiRecord>, byId: map<string, nat>, assistants: map<nat, ApiRecord>, n: nat)
    requires n < |records| && IdsAfter(records, byId, n) && AssistantsAfter(records, assistants, n)
    ensures AssistantsAfter(records, AssistantsAdd(byId, assistants, records[n]), n + 1)
  {
    var a' := AssistantsAdd(byId, assistants, records[n]);
    forall u
      ensures (u in a' <==> AttachedAssistant(records, u, n + 1).Some?)
      ensures u in a' ==> AttachedAssistant(records, u, n + 1) == Some(a'[u])
    {
    }
  }

  lemma {:induction false} GroupedIds(records: seq<ApiRecord>, n: nat)
    requires n <= |records|
    ensures IdsAfter(records, Grouped(records, n).byId, n)
  {
    if n > 0 {
      GroupedIds(records, n - 1);
      IdsStep(records, Grouped(records, n - 1).byId, n - 1);
    }
  }

  lemma {:induction false} GroupedParents(records: seq<ApiRecord>, n: nat)
    requires n <= |records|
    ensures ParentsAfter(records, Grouped(records, n).byParent, n)
  {
    if n > 0 {
      GroupedParents(records, n - 1);
      ParentsStep(records, Grouped(records, n - 1).byParent, n - 1);
    }
  }

  lemma {:induction false} GroupedAssistants(records: seq<ApiRecord>, n: nat)
    requires n <= |records|
    ensures AssistantsAfter(records, Grouped(records, n).assistants, n)
  {
    if n > 0 {
      GroupedAssistants(records, n - 1);
      GroupedIds(records, n - 1);
      var g := Grouped(records, n - 1);
      AssistantsStep(records, g.byId, g.assistants, n - 1);
    }
  }

  /** Reading the records in order builds exactly the maps the reference functions describe. */
  lemma GroupedMeetsSpec(records: seq<ApiRecord>, n: nat)
    requires n <= |records|
    ensures GroupsAfter(records, Grouped(records, n), n)
  {
    GroupedIds(records, n);
    GroupedParents(records, n);
    GroupedAssistants(records, n);
  }

  /** The `forEach` over the records that fills `pairsById`, `pairsByParent` and the assistants. */
  method GroupRecords(records: seq<ApiRecord>) returns (g: Groups)
    ensures g == Grouped(records, |records|)
    ensures GroupsOf(records, g)
  {
    g := Groups(map[], map[], map[]);
    var n := 0;
    while n < |records|
      invariant 0 <= n <= |records|
      invariant g == Grouped(records, n)
    {
      var rec := records[n];
      if rec.role == User {
        var key := ParentKey(rec.parentMessageId);
        var group := if key in g.byParent then g.byParent[key] else [];
        g := g.(byId := g.byId[rec.pairId := n], byParent := g.byParent[key := group + [n]]);
      } else if rec.role == Assistant {
        if rec.pairId in g.byId {
          g := g.(assistants := g.assistants[g.byId[rec.pairId] := rec]);
        }
      }
      n := n + 1;
    }
    GroupedMeetsSpec(records, |records|);
  }

  /** A strictly increasing sequence holds each value at most once. */
  lemma {:induction false} IncreasingHoldsOnce(s: seq<nat>, x: nat)
    requires forall a, b :: 0 <= a < b < |s| ==> s[a] < s[b]
    ensures multiset(s)[x] <= 1
  {
    if s != [] {
      IncreasingHoldsOnce(s[1..], x);
      assert s == [s[0]] + s[1..];
      assert s[0] !in s[1..];
    }
  }

  /** Every user record is in exactly one group, the one its parent id names, and only once there. */
  lemma {:induction false} UserInExactlyOneGroup(records: seq<ApiRecord>, g: Groups, i: nat)
    requires GroupsOf(records, g)
    requires i < |records| && records[i].role == User
    ensures var key := ParentKey(records[i].parentMessageId);
            key in g.byParent && multiset(g.byParent[key])[i] == 1
    ensures forall k :: k in g.byParent && k != ParentKey(records[i].parentMessageId) ==> i !in g.byParent[k]
  {
    var key := ParentKey(records[i].parentMessageId);
    UsersUnderComplete(records, key, |records|, i);
    IncreasingHoldsOnce(UsersUnder(records, key, |records|), i);
  }

  /** The sort key of `children.sort`: the user record's creation time. */
  function CreatedAtOf(records: seq<ApiRecord>): nat -> int {
    (i: nat) => if i < |records| then records[i].createdAt else 0
  }

  lemma SameMembers(r: seq<nat>, s: seq<nat>)
    requires multiset(r) == multiset(s)
    ensures forall x :: x in r <==> x in s
  {
    forall x ensures x in r <==> x in s {
      assert x in r <==> x in multiset(r);
      assert x in s <==> x in multiset(s);
    }
  }

  /** The children of a group after `children.sort`: ascending creation time, ties in record order. */
  function Children(records: seq<ApiRecord>, key: Option<string>): (r: seq<nat>)
    ensures Sorting.SortedBy(r, CreatedAtOf(records))
    ensures multiset(r) == multiset(UsersUnder(records, key, |records|))
    ensures forall k :: 0 <= k < |r| ==>
              r[k] < |records| && records[r[k]].role == User && ParentKey(records[r[k]].parentMessageId) == key
  {
    var users := UsersUnder(records, key, |records|);
    var r := Sorting.SortBy(users, CreatedAtOf(records));
    SameMembers(r, users);
    assert forall k :: 0 <= k < |r| ==> r[k] in users;
    r
  }

  /** The ids of all pairs: the keys `buildPath` can recurse on. */
  function AllPairIds(records: seq<ApiRecord>): set<string> {
    set i | 0 <= i < |records| && records[i].role == User :: records[i].pairId
  }

  /** The displayed user message of pair `u`, annotated with a sibling count and an index. */
  function UserEntry(records: seq<ApiRecord>, u: nat, count: int, index: int): UiMessage
    requires u < |records|
  {
    var m := records[u];
    UiMessage(Some(m.id), User, m.content, m.createdAt, Some(m.pairId), m.branches,
              Some(count), Some(index), Some(m.files.GetOr([])), None)
  }

  /** The displayed assistant message of pair `u`; it carries the pair's id and no files. */
  function AssistantEntry(records: seq<ApiRecord>, u: nat, a: ApiRecord, count: int, index: int): UiMessage
    requires u < |records|
  {
    UiMessage(Some(a.id), Assistant, a.content, a.createdAt, Some(records[u].pairId), records[u].branches,
              Some(count), Some(index), None, None)
  }

  function Entries(records: seq<ApiRecord>, u: nat, a: ApiRecord, count: int, index: int): seq<UiMessage>
    requires u < |records|
  {
    [UserEntry(records, u, count, index), AssistantEntry(records, u, a, count, index)]
  }

  /** Displayed messages come in pairs: a user message, then an assistant message with the same pair id. */
  predicate WellPaired(ms: seq<UiMessage>) {
    ms == [] ||
    (&& |ms| >= 2
     && ms[0].role == User && ms[0].pairId.Some?
     && ms[1].role == Assistant && ms[1].pairId == ms[0].pairId
     && WellPaired(ms[2..]))
  }

  lemma {:induction false} WellPairedConcat(a: seq<UiMessage>, b: seq<UiMessage>)
    requires WellPaired(a) && WellPaired(b)
    ensures WellPaired(a + b)
  {
    if a == [] {
      assert a + b == b;
    } else {
      WellPairedConcat(a[2..], b);
      assert (a + b)[2..] == a[2..] + b;
    }
  }

  /** Why `buildPath` fails: a pair without its assistant (a TypeError), or endless recursion. */
  datatype PathError = MissingAssistant | EndlessRecursion

  /** `displayed` followed by what a successful walk emits; a failure passes through. */
  function Prepend(displayed: seq<UiMessage>, r: Result<seq<UiMessage>, PathError>): Result<seq<UiMessage>, PathError> {
    match r
    case Success(v) => Success(displayed + v)
    case Failure(e) => Failure(e)
  }

  /**
   * `buildPath(key)` for a pair id: the children of `key`, and of them the one at
   * `min(sel, n - 1)` where `sel` is the stored index (0 when none); nothing when there is no
   * child or that position is negative. `visited` holds the keys of the calls still running.
   */
  function Chain(records: seq<ApiRecord>, indices: map<string, int>, key: string, visited: set<string>)
    : Result<seq<UiMessage>, PathError>
    requires key in AllPairIds(records) && key !in visited
    decreases AllPairIds(records) - visited, 1
  {
    var children := Children(records, Some(key));
    var sel := Lookup(indices, key, 0);
    if |children| == 0 || Min(sel, |children| - 1) < 0 then Success([])
    else WalkSelected(records, indices, key, visited, children[Min(sel, |children| - 1)], |children|, sel)
  }

  /**
   * The selected child `u` of a group of `n`: its user and assistant messages, annotated with `n`
   * and the unclamped `sel`, then the walk from it. A missing assistant is the TypeError the
   * source catches; reaching a key whose call is still running would recurse forever.
   */
  function WalkSelected(records: seq<ApiRecord>, indices: map<string, int>, key: string, visited: set<string>,
                        u: nat, n: int, sel: int): Result<seq<UiMessage>, PathError>
    requires key in AllPairIds(records) && key !in visited
    requires u < |records| && records[u].role == User
    decreases AllPairIds(records) - visited, 0
  {
    match AttachedAssistant(records, u, |records|)
    case None => Failure(MissingAssistant)
    case Some(a) =>
      var next := records[u].pairId;
      if next in visited || next == key then Failure(EndlessRecursion)
      else
        assert next in AllPairIds(records);
        Prepend(Entries(records, u, a, n, sel), Chain(records, indices, next, visited + {key}))
  }

  /** The root level from the `j`-th root on: each root pair, annotated with the number of roots and its position, then its walk. */
  function RootsFrom(records: seq<ApiRecord>, indices: map<string, int>, roots: seq<nat>, j: nat)
    : (r: Result<seq<UiMessage>, PathError>)
    requires j <= |roots|
    requires forall k :: 0 <= k < |roots| ==> roots[k] < |records| && records[roots[k]].role == User
    decreases |roots| - j
  {
    if j == |roots| then Success([])
    else
      var u := roots[j];
      match AttachedAssistant(records, u, |records|)
      case None => Failure(MissingAssistant)
      case Some(a) =>
        assert records[u].pairId in AllPairIds(records);
        match Chain(records, indices, records[u].pairId, {})
        case Failure(e) => Failure(e)
        case Success(walk) => Prepend(Entries(records, u, a, |roots|, j) + walk, RootsFrom(records, indices, roots, j + 1))
  }

  /** `buildPath(null)`: the transcript displayed for the records and the stored branch indices. */
  function DisplayPath(records: seq<ApiRecord>, indices: map<string, int>): Result<seq<UiMessage>, PathError> {
    RootsFrom(records, indices, Children(records, None), 0)
  }

  /** What the grouping maps hold for a key, read through the reference functions. */
  lemma GroupChildren(records: seq<ApiRecord>, g: Groups, key: Option<string>)
    requires g == Grouped(records, |records|)
    ensures Sorting.SortBy(if key in g.byParent then g.byParent[key] else [], CreatedAtOf(records)) == Children(records, key)
  {
    GroupedMeetsSpec(records, |records|);
  }

  lemma GroupAssistant(records: seq<ApiRecord>, g: Groups, u: nat)
    requires g == Grouped(records, |records|)
    ensures u in g.assistants <==> AttachedAssistant(records, u, |records|).Some?
    ensures u in g.assistants ==> AttachedAssistant(records, u, |records|) == Some(g.assistants[u])
  {
    GroupedMeetsSpec(records, |records|);
  }

  lemma PushTwo<T>(s: seq<T>, x: T, y: T, rest: seq<T>)
    ensures s + [x] + [y] == s + [x, y]
    ensures s + [x] + [y] + rest == s + ([x, y] + rest)
  {
  }

  /** `pairsByParent.get(parentId) || []`, sorted in place by the user records' creation times. */
  method SortedGroup(records: seq<ApiRecord>, g: Groups, key: Option<string>) returns (children: seq<nat>)
    requires g == Grouped(records, |records|)
    ensures children == Children(records, key)
  {
    children := if key in g.byParent then g.byParent[key] else [];
    children := Sorting.SortBy(children, CreatedAtOf(records));
    GroupChildren(records, g, key);
  }

  /** How a walk begins: with nothing, or with the selected child of the group. */
  lemma ChainOpens(records: seq<ApiRecord>, indices: map<string, int>, key: string, visited: set<string>)
    requires key in AllPairIds(records) && key !in visited
    ensures var children := Children(records, Some(key));
            var sel := Lookup(indices, key, 0);
            if |children| == 0 || Min(sel, |children| - 1) < 0 then Chain(records, indices, key, visited) == Success([])
            else
              var u := children[Min(sel, |children| - 1)];
              && u < |records| && records[u].role == User
              && Chain(records, indices, key, visited) == WalkSelected(records, indices, key, visited, u, |children|, sel)
  {
  }

  /** The recursive `buildPath(parentId)` for a pair id, pushing onto `displayed`. */
  method ExtendPath(records: seq<ApiRecord>, g: Groups, indices: map<string, int>, key: string,
                    visited: set<string>, displayed: seq<UiMessage>)
    returns (r: Result<seq<UiMessage>, PathError>)
    requires g == Grouped(records, |records|)
    requires key in AllPairIds(records) && key !in visited
    ensures r == Prepend(displayed, Chain(records, indices, key, visited))
    decreases AllPairIds(records) - visited, 1
  {
    var children := SortedGroup(records, g, Some(key));
    var sel := Lookup(indices, key, 0);
    ChainOpens(records, indices, key, visited);
    if |children| == 0 || Min(sel, |children| - 1) < 0 {
      assert displayed + [] == displayed;
      return Success(displayed);
    }
    var u := children[Min(sel, |children| - 1)];
    r := ExtendWithSelected(records, g, indices, key, visited, displayed, u, |children|, sel);
  }

  /** Pushing the selected pair `u` and walking on from it. */
  method ExtendWithSelected(records: seq<ApiRecord>, g: Groups, indices: map<string, int>, key: string,
                            visited: set<string>, displayed: seq<UiMessage>, u: nat, n: int, sel: int)
    returns (r: Result<seq<UiMessage>, PathError>)
    requires g == Grouped(records, |records|)
    requires key in AllPairIds(records) && key !in visited
    requires u < |records| && records[u].role == User
    ensures r == Prepend(displayed, WalkSelected(records, indices, key, visited, u, n, sel))
    decreases AllPairIds(records) - visited, 0
  {
    var user := UserEntry(records, u, n, sel);
    var out := displayed + [user];
    assert && (u in g.assistants <==> AttachedAssistant(records, u, |records|).Some?)
           && (u in g.assistants ==> AttachedAssistant(records, u, |records|) == Some(g.assistants[u]))
      by { GroupAssistant(records, g, u); }
    if u !in g.assistants {
      return Failure(MissingAssistant);
    }
    var a := g.assistants[u];
    var assistant := AssistantEntry(records, u, a, n, sel);
    out := out + [assistant];
    var next := records[u].pairId;
    if next in visited || next == key {
      return Failure(EndlessRecursion);
    }
    assert next in AllPairIds(records);
    r := ExtendPath(records, g, indices, next, visited + {key}, out);
    PushTwo(displayed, user, assistant, []);
    PrependAssoc(displayed, Entries(records, u, a, n, sel), Chain(records, indices, next, visited + {key}));
  }

  /** One step of the root level, read through the root pair it reaches. */
  lemma RootsStep(records: seq<ApiRecord>, indices: map<string, int>, roots: seq<nat>, j: nat)
    requires j < |roots|
    requires forall k :: 0 <= k < |roots| ==> roots[k] < |records| && records[roots[k]].role == User
    ensures roots[j] < |records| && records[roots[j]].pairId in AllPairIds(records)
    ensures var u := roots[j];
            AttachedAssistant(records, u, |records|).None? ==> RootsFrom(records, indices, roots, j) == Failure(MissingAssistant)
    ensures var u := roots[j];
            var walk := Chain(records, indices, records[u].pairId, {});
            AttachedAssistant(records, u, |records|).Some? && walk.Failure? ==>
              RootsFrom(records, indices, roots, j) == Failure(walk.error)
    ensures var u := roots[j];
            var walk := Chain(records, indices, records[u].pairId, {});
            AttachedAssistant(records, u, |records|).Some? && walk.Success? ==>
              RootsFrom(records, indices, roots, j) ==
                Prepend(Entries(records, u, AttachedAssistant(records, u, |records|).value, |roots|, j) + walk.value,
                        RootsFrom(records, indices, roots, j + 1))
  {
    assert roots[j] in roots;
  }

  lemma PrependAssoc(a: seq<UiMessage>, b: seq<UiMessage>, r: Result<seq<UiMessage>, PathError>)
    ensures Prepend(a, Prepend(b, r)) == Prepend(a + b, r)
  {
    if r.Success? {
      assert a + (b + r.value) == a + b + r.value;
    }
  }

  lemma PrependNothing(r: Result<seq<UiMessage>, PathError>)
    ensures Prepend([], r) == r
  {
    if r.Success? {
      assert [] + r.value == r.value;
    }
  }

  /** `buildPath(null)`: every root pair in order, each followed by its own walk. */
  method BuildPath(records: seq<ApiRecord>, g: Groups, indices: map<string, int>)
    returns (r: Result<seq<UiMessage>, PathError>)
    requires g == Grouped(records, |records|)
    ensures r == DisplayPath(records, indices)
  {
    var roots := SortedGroup(records, g, None);
    var displayed: seq<UiMessage> := [];
    var j := 0;
    PrependNothing(RootsFrom(records, indices, roots, 0));
    while j < |roots|
      invariant 0 <= j <= |roots|
      invariant Prepend(displayed, RootsFrom(records, indices, roots, j)) == DisplayPath(records, indices)
    {
      var step := EmitRoot(records, g, indices, roots, j, displayed);
      if step.Failure? {
        return step;
      }
      displayed := step.value;
      j := j + 1;
    }
    assert displayed + [] == displayed;
    r := Success(displayed);
  }

  /** The body of the root-level `forEach`: push root `j` and its assistant, then walk from it. */
  method EmitRoot(records: seq<ApiRecord>, g: Groups, indices: map<string, int>, roots: seq<nat>, j: nat,
                  displayed: seq<UiMessage>)
    returns (r: Result<seq<UiMessage>, PathError>)
    requires g == Grouped(records, |records|)
    requires j < |roots| && roots == Children(records, None)
    ensures r.Failure? ==> r == Prepend(displayed, RootsFrom(records, indices, roots, j))
    ensures r.Success? ==>
              Prepend(displayed, RootsFrom(records, indices, roots, j)) == Prepend(r.value, RootsFrom(records, indices, roots, j + 1))
  {
    var u := roots[j];
    RootsStep(records, indices, roots, j);
    var user := UserEntry(records, u, |roots|, j);
    var out := displayed + [user];
    assert && (u in g.assistants <==> AttachedAssistant(records, u, |records|).Some?)
           && (u in g.assistants ==> AttachedAssistant(records, u, |records|) == Some(g.assistants[u]))
      by { GroupAssistant(records, g, u); }
    if u !in g.assistants {
      return Failure(MissingAssistant);
    }
    var a := g.assistants[u];
    out := out + [AssistantEntry(records, u, a, |roots|, j)];
    r := ExtendPath(records, g, indices, records[u].pairId, {}, out);
    if r.Success? {
      var walk := Chain(records, indices, records[u].pairId, {}).value;
      PushTwo(displayed, user, AssistantEntry(records, u, a, |roots|, j), walk);
      PrependAssoc(displayed, Entries(records, u, a, |roots|, j) + walk, RootsFrom(records, indices, roots, j + 1));
    }
  }

  /** An empty group, or a stored index below zero, emits nothing for that walk. */
  lemma EmptyGroupEmitsNothing(records: seq<ApiRecord>, indices: map<string, int>, key: string, visited: set<string>)
    requires key in AllPairIds(records) && key !in visited
    requires Children(records, Some(key)) == [] || Lookup(indices, key, 0) < 0
    ensures Chain(records, indices, key, visited) == Success([])
  {
  }

  /**
   * For a non-root group of `n` children exactly one child is emitted first: the one at
   * `min(sel, n - 1)`, annotated with `n` and the unclamped stored `sel`.
   */
  lemma {:induction false} ChainSelects(records: seq<ApiRecord>, indices: map<string, int>, key: string, visited: set<string>)
    requires key in AllPairIds(records) && key !in visited
    requires Chain(records, indices, key, visited).Success?
    requires Children(records, Some(key)) != [] && Lookup(indices, key, 0) >= 0
    ensures var children := Children(records, Some(key));
            var n := |children|;
            var sel := Lookup(indices, key, 0);
            var u := children[Min(sel, n - 1)];
            var ms := Chain(records, indices, key, visited).value;
            && |ms| >= 2
            && ms[0] == UserEntry(records, u, n, sel)
            && ms[1].role == Assistant && ms[1].pairId == Some(records[u].pairId)
            && ms[0].branchIndex == Some(sel) && ms[0].branchCount == Some(n)
  {
    var children := Children(records, Some(key));
    var u := children[Min(Lookup(indices, key, 0), |children| - 1)];
    assert u in children;
  }

  /** Every root pair is emitted, annotated with the number of roots and its own position. */
  lemma {:induction false} RootsAllEmitted(records: seq<ApiRecord>, indices: map<string, int>, roots: seq<nat>, j: nat)
    requires j <= |roots|
    requires forall k :: 0 <= k < |roots| ==> roots[k] < |records| && records[roots[k]].role == User
    requires RootsFrom(records, indices, roots, j).Success?
    ensures forall k :: j <= k < |roots| ==>
      UserEntry(records, roots[k], |roots|, k) in RootsFrom(records, indices, roots, j).value
    decreases |roots| - j
  {
    if j < |roots| {
      var u := roots[j];
      assert u in roots;
      var a := AttachedAssistant(records, u, |records|).value;
      assert records[u].pairId in AllPairIds(records);
      var walk := Chain(records, indices, records[u].pairId, {}).value;
      RootsAllEmitted(records, indices, roots, j + 1);
      var rest := RootsFrom(records, indices, roots, j + 1).value;
      var all := Entries(records, u, a, |roots|, j) + walk + rest;
      assert RootsFrom(records, indices, roots, j).value == all;
      forall k | j <= k < |roots| ensures UserEntry(records, roots[k], |roots|, k) in all {
        if k == j {
          assert all[0] == UserEntry(records, u, |roots|, j);
        } else {
          var p :| 0 <= p < |rest| && rest[p] == UserEntry(records, roots[k], |roots|, k);
          assert all[|all| - |rest| + p] == rest[p];
        }
      }
    }
  }

  /** A successful transcript starts with the oldest root pair, annotated as the first of all roots. */
  lemma FirstRootFirst(records: seq<ApiRecord>, indices: map<string, int>)
    requires DisplayPath(records, indices).Success?
    requires Children(records, None) != []
    ensures var roots := Children(records, None);
            var ms := DisplayPath(records, indices).value;
            |ms| >= 2 && ms[0] == UserEntry(records, roots[0], |roots|, 0)
  {
    var roots := Children(records, None);
    assert roots[0] in roots;
    assert records[roots[0]].pairId in AllPairIds(records);
  }

  lemma EntriesWellPaired(records: seq<ApiRecord>, u: nat, a: ApiRecord, count: int, index: int)
    requires u < |records|
    ensures WellPaired(Entries(records, u, a, count, index))
  {
    assert Entries(records, u, a, count, index)[2..] == [];
  }

  /** A walk that succeeds emits whole pairs: each user message followed by its own assistant message. */
  lemma {:induction false} ChainWellPaired(records: seq<ApiRecord>, indices: map<string, int>, key: string, visited: set<string>)
    requires key in AllPairIds(records) && key !in visited
    requires Chain(records, indices, key, visited).Success?
    ensures WellPaired(Chain(records, indices, key, visited).value)
    decreases AllPairIds(records) - visited, 1
  {
    ChainOpens(records, indices, key, visited);
    var children := Children(records, Some(key));
    var sel := Lookup(indices, key, 0);
    if !(|children| == 0 || Min(sel, |children| - 1) < 0) {
      WalkWellPaired(records, indices, key, visited, children[Min(sel, |children| - 1)], |children|, sel);
    }
  }

  lemma {:induction false} WalkWellPaired(records: seq<ApiRecord>, indices: map<string, int>, key: string, visited: set<string>,
                                          u: nat, n: int, sel: int)
    requires key in AllPairIds(records) && key !in visited
    requires u < |records| && records[u].role == User
    requires WalkSelected(records, indices, key, visited, u, n, sel).Success?
    ensures WellPaired(WalkSelected(records, indices, key, visited, u, n, sel).value)
    decreases AllPairIds(records) - visited, 0
  {
    var a := AttachedAssistant(records, u, |records|).value;
    var next := records[u].pairId;
    assert next in AllPairIds(records);
    ChainWellPaired(records, indices, next, visited + {key});
    EntriesWellPaired(records, u, a, n, sel);
    WellPairedConcat(Entries(records, u, a, n, sel), Chain(records, indices, next, visited + {key}).value);
  }

  lemma {:induction false} RootsWellPaired(records: seq<ApiRecord>, indices: map<string, int>, roots: seq<nat>, j: nat)
    requires j <= |roots|
    requires forall k :: 0 <= k < |roots| ==> roots[k] < |records| && records[roots[k]].role == User
    requires RootsFrom(records, indices, roots, j).Success?
    ensures WellPaired(RootsFrom(records, indices, roots, j).value)
    decreases |roots| - j
  {
    if j < |roots| {
      var u := roots[j];
      var a := AttachedAssistant(records, u, |records|).value;
      assert records[u].pairId in AllPairIds(records);
      var walk := Chain(records, indices, records[u].pairId, {}).value;
      ChainWellPaired(records, indices, records[u].pairId, {});
      RootsWellPaired(records, indices, roots, j + 1);
      EntriesWellPaired(records, u, a, |roots|, j);
      WellPairedConcat(Entries(records, u, a, |roots|, j), walk);
      WellPairedConcat(Entries(records, u, a, |roots|, j) + walk, RootsFrom(records, indices, roots, j + 1).value);
    }
  }

  /** The displayed transcript alternates user and assistant messages, pair by pair. */
  lemma DisplayPathWellPaired(records: seq<ApiRecord>, indices: map<string, int>)
    requires DisplayPath(records, indices).Success?
    ensures WellPaired(DisplayPath(records, indices).value)
  {
    RootsWellPaired(records, indices, Children(records, None), 0);
  }

  /** Two index maps that read the same under `get(id) || 0` select the same children everywhere. */
  ghost predicate SameSelections(i1: map<string, int>, i2: map<string, int>) {
    forall k :: Lookup(i1, k, 0) == Lookup(i2, k, 0)
  }

  lemma {:induction false} ChainSameSelections(records: seq<ApiRecord>, i1: map<string, int>, i2: map<string, int>,
                                               key: string, visited: set<string>)
    requires SameSelections(i1, i2)
    requires key in AllPairIds(records) && key !in visited
    ensures Chain(records, i1, key, visited) == Chain(records, i2, key, visited)
    decreases AllPairIds(records) - visited, 1
  {
    ChainOpens(records, i1, key, visited);
    ChainOpens(records, i2, key, visited);
    var children := Children(records, Some(key));
    var sel := Lookup(i1, key, 0);
    assert sel == Lookup(i2, key, 0);
    if !(|children| == 0 || Min(sel, |children| - 1) < 0) {
      WalkSameSelections(records, i1, i2, key, visited, children[Min(sel, |children| - 1)], |children|, sel);
    }
  }

  lemma {:induction false} WalkSameSelections(records: seq<ApiRecord>, i1: map<string, int>, i2: map<string, int>,
                                              key: string, visited: set<string>, u: nat, n: int, sel: int)
    requires SameSelections(i1, i2)
    requires key in AllPairIds(records) && key !in visited
    requires u < |records| && records[u].role == User
    ensures WalkSelected(records, i1, key, visited, u, n, sel) == WalkSelected(records, i2, key, visited, u, n, sel)
    decreases AllPairIds(records) - visited, 0
  {
    var next := records[u].pairId;
    assert next in AllPairIds(records);
    if AttachedAssistant(records, u, |records|).Some? && next !in visited && next != key {
      ChainSameSelections(records, i1, i2, next, visited + {key});
    }
  }

  lemma {:induction false} RootsSameSelections(records: seq<ApiRecord>, i1: map<string, int>, i2: map<string, int>,
                                               roots: seq<nat>, j: nat)
    requires SameSelections(i1, i2)
    requires j <= |roots|
    requires forall k :: 0 <= k < |roots| ==> roots[k] < |records| && records[roots[k]].role == User
    ensures RootsFrom(records, i1, roots, j) == RootsFrom(records, i2, roots, j)
    decreases |roots| - j
  {
    if j < |roots| {
      var u := roots[j];
      assert records[u].pairId in AllPairIds(records);
      ChainSameSelections(records, i1, i2, records[u].pairId, {});
      RootsSameSelections(records, i1, i2, roots, j + 1);
    }
  }

  /** The pair `pid` names (its latest user record) has a non-empty `branches` list. */
  predicate HasBranches(records: seq<ApiRecord>, pid: string) {
    var u := LatestUser(records, pid, |records|);
    u.Some? && |records[u.value].branches| > 0
  }

  /**
   * What branch-index initialisation produces from `indices`: stored entries are kept, a pair
   * with a non-empty `branches` list and no entry gets 0, and nothing else is added.
   */
  ghost predicate IndicesInitialized(records: seq<ApiRecord>, indices: map<string, int>, r: map<string, int>) {
    && (forall k :: k in indices ==> k in r && r[k] == indices[k])
    && (forall k :: k in r && k !in indices ==> r[k] == 0 && HasBranches(records, k))
    && (forall k :: HasBranches(records, k) ==> k in r)
  }

  /**
   * The entries initialisation adds are 0, which `get(id) || 0` reads anyway: the transcript
   * built before the indices were initialised is the one the initialised indices select.
   */
  lemma InitKeepsPath(records: seq<ApiRecord>, indices: map<string, int>, r: map<string, int>)
    requires IndicesInitialized(records, indices, r)
    ensures DisplayPath(records, r) == DisplayPath(records, indices)
  {
    assert SameSelections(r, indices) by {
      forall k ensures Lookup(r, k, 0) == Lookup(indices, k, 0) {
      }
    }
    RootsSameSelections(records, r, indices, Children(records, None), 0);
  }

  /** The `forEach` over `pairsById` that adds index 0 for every pair with branches and no entry yet. */
  method InitBranchIndices(records: seq<ApiRecord>, g: Groups, indices: map<string, int>) returns (r: map<string, int>)
    requires g == Grouped(records, |records|)
    ensures IndicesInitialized(records, indices, r)
  {
    assert IdsAfter(records, g.byId, |records|) by {
      GroupedIds(records, |records|);
    }
    r := indices;
    var todo := g.byId.Keys;
    while todo != {}
      invariant todo <= g.byId.Keys
      invariant forall k :: k in indices ==> k in r && r[k] == indices[k]
      invariant forall k :: k in r && k !in indices ==> r[k] == 0 && HasBranches(records, k)
      invariant forall k :: HasBranches(records, k) && k !in todo ==> k in r
      decreases todo
    {
      var k :| k in todo;
      var u := g.byId[k];
      if |records[u].branches| > 0 && k !in r {
        r := r[k := 0];
      }
      todo := todo - {k};
    }
  }
}
