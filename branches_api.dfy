/**
 * The branch listing endpoint (app/api/branches/route.ts): a pair followed by the stored pairs
 * its `branches` list refers to, oldest first, each formatted as a user/assistant couple.
 * The store is a map from pair id to pair. Authentication is not part of this model.
 */
module BranchesApi {
  import opened Wrappers
  import opened Text
  import opened Records
  import opened Wire
  import Sorting

  datatype BranchMessage = BranchMessage(id: string, role: Role, content: string, createdAt: int, pairId: string)
  datatype BranchEntry = BranchEntry(pairId: string, user: BranchMessage, assistant: BranchMessage)

  /** The `map` over the listed pairs. */
  function Format(p: MessagePair): (e: BranchEntry)
    ensures e.pairId == p.id && e.user.pairId == p.id && e.assistant.pairId == p.id
    ensures e.user.id == p.id + "-user" && e.assistant.id == p.id + "-assistant"
    ensures e.user.content == p.query && e.assistant.content == p.response
    ensures e.user.role == User && e.assistant.role == Assistant
  {
    BranchEntry(p.id,
      BranchMessage(p.id + "-user", User, p.query, p.createdAt, p.id),
      BranchMessage(p.id + "-assistant", Assistant, p.response, p.createdAt, p.id))
  }

  function FormatAll(ps: seq<MessagePair>): (r: seq<BranchEntry>)
    ensures |r| == |ps| && forall i :: 0 <= i < |ps| ==> r[i] == Format(ps[i])
  {
    if ps == [] then [] else [Format(ps[0])] + FormatAll(ps[1..])
  }

  /**
   * The ids `{ _id: { $in: branches } }` matches: those that name a stored pair, each once,
   * in the order of their first mention. A `null` entry matches nothing.
   */
  function MatchedIds(branches: seq<BranchRef>, store: map<string, MessagePair>): (r: seq<string>)
    ensures forall id :: id in r <==> Some(id) in branches && id in store
    ensures forall i, j :: 0 <= i < j < |r| ==> r[i] != r[j]
  {
    if branches == [] then []
    else
      var r := MatchedIds(branches[..|branches| - 1], store);
      var last := branches[|branches| - 1];
      assert branches == branches[..|branches| - 1] + [last];
      if last.Some? && last.value in store && last.value !in r then r + [last.value] else r
  }

  function Pairs(ids: seq<string>, store: map<string, MessagePair>): (r: seq<MessagePair>)
    requires forall id :: id in ids ==> id in store
    ensures |r| == |ids| && forall i :: 0 <= i < |ids| ==> r[i] == store[ids[i]]
  {
    if ids == [] then [] else [store[ids[0]]] + Pairs(ids[1..], store)
  }

  function CreatedAt(p: MessagePair): int { p.createdAt }

  /**
   * `GET /api/branches?pairId=..`: 400 without an id, 404 for an unknown pair, otherwise the pair
   * itself followed by the pairs its `branches` refer to, ascending by creation time.
   */
  function ListBranches(store: map<string, MessagePair>, pairId: Option<string>): (r: Result<seq<BranchEntry>, int>)
    ensures r.Failure? <==> !Truthy(pairId) || pairId.value !in store
    ensures r.Failure? ==> r.error == if !Truthy(pairId) then 400 else 404
    ensures r.Success? ==>
      var parent := store[pairId.value];
      && |r.value| == 1 + |MatchedIds(parent.branches, store)|
      && r.value[0] == Format(parent)
      && (forall i, j :: 1 <= i < j < |r.value| ==> r.value[i].user.createdAt <= r.value[j].user.createdAt)
      && (forall e :: e in r.value[1..] <==>
            exists id :: Some(id) in parent.branches && id in store && e == Format(store[id]))
  {
    if !Truthy(pairId) then Failure(400)
    else if pairId.value !in store then Failure(404)
    else
      var parent := store[pairId.value];
      var ids := MatchedIds(parent.branches, store);
      var found := Pairs(ids, store);
      var sorted := Sorting.SortBy(found, CreatedAt);
      var entries := [Format(parent)] + FormatAll(sorted);
      assert entries[1..] == FormatAll(sorted);
      ListedAreReferenced(parent.branches, store, ids, found, sorted, entries[1..]);
      Success(entries)
  }

  lemma ListedAreReferenced(branches: seq<BranchRef>, store: map<string, MessagePair>, ids: seq<string>,
                            found: seq<MessagePair>, sorted: seq<MessagePair>, rest: seq<BranchEntry>)
    requires ids == MatchedIds(branches, store)
    requires |found| == |ids| && forall i :: 0 <= i < |ids| ==> ids[i] in store && found[i] == store[ids[i]]
    requires multiset(sorted) == multiset(found)
    requires |rest| == |sorted| && forall i :: 0 <= i < |sorted| ==> rest[i] == Format(sorted[i])
    ensures forall e :: e in rest <==> exists id :: Some(id) in branches && id in store && e == Format(store[id])
  {
    forall e | e in rest ensures exists id :: Some(id) in branches && id in store && e == Format(store[id]) {
      var i :| 0 <= i < |rest| && rest[i] == e;
      assert sorted[i] in multiset(found);
      var j :| 0 <= j < |found| && found[j] == sorted[i];
      assert ids[j] in ids;
    }
    forall e | exists id :: Some(id) in branches && id in store && e == Format(store[id]) ensures e in rest {
      var id :| Some(id) in branches && id in store && e == Format(store[id]);
      var j :| 0 <= j < |ids| && ids[j] == id;
      assert found[j] in multiset(sorted);
      var i :| 0 <= i < |sorted| && sorted[i] == found[j];
      assert rest[i] == e;
    }
  }

  /** An id in `branches` that names no stored pair, and the `null` placeholder, add no entry. */
  lemma {:induction false} UnmatchedRefsAddNothing(branches: seq<BranchRef>, extra: BranchRef, store: map<string, MessagePair>)
    requires extra.None? || extra.value !in store
    ensures MatchedIds(branches + [extra], store) == MatchedIds(branches, store)
  {
    assert (branches + [extra])[..|branches|] == branches;
  }
}
