/**
 * Operations on the client's list of conversations that several components share: `filter`,
 * `findIndex` by id, and the five-group split that both the sidebar and the search dialog use
 * (a `forEach` that pushes each conversation onto the list of the group its date falls in; the
 * two differ only in how a date is classified).
 */
module ConversationLists {
  import opened Wire

  /** `s.filter(keep)`. */
  function Where(s: seq<ConversationEntry>, keep: ConversationEntry -> bool): (r: seq<ConversationEntry>)
    ensures |r| <= |s|
  {
    if s == [] then [] else Where(s[..|s| - 1], keep) + (if keep(s[|s| - 1]) then [s[|s| - 1]] else [])
  }

  /** `filter` keeps exactly the elements that pass. */
  lemma {:induction false} WhereMembers(s: seq<ConversationEntry>, keep: ConversationEntry -> bool)
    ensures forall x :: x in Where(s, keep) <==> x in s && keep(x)
  {
    if s != [] {
      WhereMembers(s[..|s| - 1], keep);
      assert s == s[..|s| - 1] + [s[|s| - 1]];
    }
  }

  /** When every element passes, `filter` returns the list unchanged. */
  lemma {:induction false} WhereAll(s: seq<ConversationEntry>, keep: ConversationEntry -> bool)
    requires forall i :: 0 <= i < |s| ==> keep(s[i])
    ensures Where(s, keep) == s
  {
    if s != [] {
      WhereAll(s[..|s| - 1], keep);
      assert s == s[..|s| - 1] + [s[|s| - 1]];
    }
  }

  /** `filter` keeps the relative order: filtering a concatenation filters each part. */
  lemma {:induction false} WhereConcat(a: seq<ConversationEntry>, b: seq<ConversationEntry>, keep: ConversationEntry -> bool)
    ensures Where(a + b, keep) == Where(a, keep) + Where(b, keep)
  {
    if b == [] {
      assert a + b == a;
    } else {
      var init := b[..|b| - 1];
      assert (a + b)[..|a + b| - 1] == a + init;
      WhereConcat(a, init, keep);
    }
  }

  /** `s.findIndex(c => c.id === id)`: the first position with that id, or -1. */
  function IndexOfId(s: seq<ConversationEntry>, id: string): (i: int)
    ensures -1 <= i < |s|
    ensures i >= 0 ==> s[i].id == id && forall k :: 0 <= k < i ==> s[k].id != id
    ensures i == -1 ==> forall k :: 0 <= k < |s| ==> s[k].id != id
  {
    if s == [] then -1
    else if s[0].id == id then 0
    else
      var r := IndexOfId(s[1..], id);
      if r == -1 then -1 else r + 1
  }

  /** Today, Yesterday, the last 7 days, the last 30 days, and everything older, newest first. */
  datatype Bucket = Today | Yesterday | Week | Month | Older

  /** The position of a group in the list, newest first. */
  function Rank(b: Bucket): nat {
    match b
    case Today => 0
    case Yesterday => 1
    case Week => 2
    case Month => 3
    case Older => 4
  }

  /** The test for group `b`. */
  function InGroup(classify: ConversationEntry -> Bucket, b: Bucket): ConversationEntry -> bool {
    (c: ConversationEntry) => classify(c) == b
  }

  /** The elements of `s` that `classify` puts in group `b`, in their original order. */
  function InBucket(s: seq<ConversationEntry>, classify: ConversationEntry -> Bucket, b: Bucket): seq<ConversationEntry> {
    Where(s, InGroup(classify, b))
  }

  /** A group holds exactly the elements classified into it. */
  lemma InBucketMembers(s: seq<ConversationEntry>, classify: ConversationEntry -> Bucket, b: Bucket)
    ensures forall x :: x in InBucket(s, classify, b) <==> x in s && classify(x) == b
  {
    WhereMembers(s, InGroup(classify, b));
  }

  /** The five lists `groupConversations` returns. */
  datatype Groups = Groups(today: seq<ConversationEntry>, yesterday: seq<ConversationEntry>, week: seq<ConversationEntry>, month: seq<ConversationEntry>, older: seq<ConversationEntry>)

  function Get(g: Groups, b: Bucket): seq<ConversationEntry> {
    match b
    case Today => g.today
    case Yesterday => g.yesterday
    case Week => g.week
    case Month => g.month
    case Older => g.older
  }

  function Push(g: Groups, b: Bucket, x: ConversationEntry): (r: Groups)
    ensures Get(r, b) == Get(g, b) + [x]
    ensures forall c :: c != b ==> Get(r, c) == Get(g, c)
  {
    match b
    case Today => g.(today := g.today + [x])
    case Yesterday => g.(yesterday := g.yesterday + [x])
    case Week => g.(week := g.week + [x])
    case Month => g.(month := g.month + [x])
    case Older => g.(older := g.older + [x])
  }

  /** The `forEach` that pushes each element onto the list of its group. */
  method GroupBy(s: seq<ConversationEntry>, classify: ConversationEntry -> Bucket) returns (g: Groups)
    ensures forall b :: Get(g, b) == InBucket(s, classify, b)
  {
    g := Groups([], [], [], [], []);
    var i := 0;
    while i < |s|
      invariant 0 <= i <= |s|
      invariant forall b :: Get(g, b) == InBucket(s[..i], classify, b)
    {
      assert s[..i + 1][..i] == s[..i];
      g := Push(g, classify(s[i]), s[i]);
      i := i + 1;
    }
    assert s[..i] == s;
  }

  /** Appending one element extends its own group only. */
  lemma InBucketSnoc(s: seq<ConversationEntry>, x: ConversationEntry, classify: ConversationEntry -> Bucket, k: Bucket)
    ensures InBucket(s + [x], classify, k) == InBucket(s, classify, k) + (if classify(x) == k then [x] else [])
  {
    assert (s + [x])[..|s + [x]| - 1] == s;
  }

  /** The sizes of the five groups together. */
  function GroupedCount(s: seq<ConversationEntry>, classify: ConversationEntry -> Bucket): nat {
    |InBucket(s, classify, Today)| + |InBucket(s, classify, Yesterday)| + |InBucket(s, classify, Week)|
    + |InBucket(s, classify, Month)| + |InBucket(s, classify, Older)|
  }

  /**
   * No element is lost or repeated: the five groups hold as many elements as the input, and
   * (`InBucketMembers`) each element sits in the group of its own class only.
   */
  lemma {:induction false} GroupsPartition(s: seq<ConversationEntry>, classify: ConversationEntry -> Bucket)
    ensures GroupedCount(s, classify) == |s|
  {
    if s != [] {
      var init := s[..|s| - 1];
      GroupsPartition(init, classify);
      assert s == init + [s[|s| - 1]];
      InBucketSnoc(init, s[|s| - 1], classify, Today);
      InBucketSnoc(init, s[|s| - 1], classify, Yesterday);
      InBucketSnoc(init, s[|s| - 1], classify, Week);
      InBucketSnoc(init, s[|s| - 1], classify, Month);
      InBucketSnoc(init, s[|s| - 1], classify, Older);
    }
  }
}
