/**
 * The newest-first budget scan that both context trimmers share: walk the non-system messages
 * from the newest backwards, keep each one whose cost still fits in what is left of the budget,
 * and stop at the first one that does not. `KeepCount` is the specification the two trimming
 * loops are proved against.
 */
module TokenBudget {
  import opened Wire

  /** Sum of the costs of a sequence of messages. */
  function Total<T>(s: seq<T>, cost: T -> nat): nat {
    if s == [] then 0 else cost(s[0]) + Total(s[1..], cost)
  }

  lemma {:induction false} TotalConcat<T>(a: seq<T>, b: seq<T>, cost: T -> nat)
    ensures Total(a + b, cost) == Total(a, cost) + Total(b, cost)
  {
    if a != [] {
      assert (a + b)[0] == a[0] && (a + b)[1..] == a[1..] + b;
      TotalConcat(a[1..], b, cost);
    } else {
      assert a + b == b;
    }
  }

  /**
   * How many of the newest elements of `s` the scan keeps when `used` tokens are already spent
   * and at most `budget` may be: it stops at the first element that would overflow.
   */
  function KeepCount<T>(s: seq<T>, used: int, budget: int, cost: T -> nat): (k: nat)
    ensures k <= |s|
  {
    if s == [] then 0
    else
      var t := cost(s[|s| - 1]);
      if used + t > budget then 0 else 1 + KeepCount(s[..|s| - 1], used + t, budget, cost)
  }

  /** The kept elements, oldest first: a suffix of `s`. */
  function Kept<T>(s: seq<T>, used: int, budget: int, cost: T -> nat): seq<T> {
    s[|s| - KeepCount(s, used, budget, cost)..]
  }

  /** Starting within budget, what is kept still fits. */
  lemma {:induction false} KeptFits<T>(s: seq<T>, used: int, budget: int, cost: T -> nat)
    requires used <= budget
    ensures used + Total(Kept(s, used, budget, cost), cost) <= budget
  {
    var k := KeepCount(s, used, budget, cost);
    if s != [] && k > 0 {
      var init := s[..|s| - 1];
      var t := cost(s[|s| - 1]);
      KeptFits(init, used + t, budget, cost);
      var rest := Kept(init, used + t, budget, cost);
      assert Kept(s, used, budget, cost) == rest + [s[|s| - 1]];
      TotalConcat(rest, [s[|s| - 1]], cost);
    }
  }

  /** The scan is greedy: the newest element it leaves out would have overflowed the budget. */
  lemma {:induction false} KeptMaximal<T>(s: seq<T>, used: int, budget: int, cost: T -> nat)
    requires KeepCount(s, used, budget, cost) < |s|
    ensures var k := KeepCount(s, used, budget, cost);
            used + Total(Kept(s, used, budget, cost), cost) + cost(s[|s| - k - 1]) > budget
  {
    var k := KeepCount(s, used, budget, cost);
    var t := cost(s[|s| - 1]);
    var init := s[..|s| - 1];
    if k > 0 {
      KeptMaximal(init, used + t, budget, cost);
      var rest := Kept(init, used + t, budget, cost);
      assert Kept(s, used, budget, cost) == rest + [s[|s| - 1]];
      TotalConcat(rest, [s[|s| - 1]], cost);
      assert init[|init| - (k - 1) - 1] == s[|s| - k - 1];
    } else {
      assert Kept(s, used, budget, cost) == [];
    }
  }

  /** Once `used` alone exceeds the budget nothing is kept. */
  lemma OverBudgetKeepsNothing<T>(s: seq<T>, used: int, budget: int, cost: T -> nat)
    requires used > budget
    ensures KeepCount(s, used, budget, cost) == 0
  {
  }

  /** With costs of at least one token, a budget already used up keeps nothing either. */
  lemma SpentBudgetKeepsNothing<T>(s: seq<T>, used: int, budget: int, cost: T -> nat)
    requires used >= budget
    requires forall x :: cost(x) >= 1
    ensures KeepCount(s, used, budget, cost) == 0
  {
  }

  /** One step of the scan, read from its newest end. */
  lemma KeepCountStep<T>(s: seq<T>, i: nat, used: int, budget: int, cost: T -> nat)
    requires 0 < i <= |s|
    ensures KeepCount(s[..i], used, budget, cost) ==
      if used + cost(s[i - 1]) > budget then 0 else 1 + KeepCount(s[..i - 1], used + cost(s[i - 1]), budget, cost)
  {
    assert s[..i][..i - 1] == s[..i - 1];
  }

  /** The first loop of both trimmers: push every system message, counting its tokens. */
  method PushSystems<T>(systems: seq<T>, cost: T -> nat) returns (chosen: seq<T>, total: nat)
    ensures chosen == systems && total == Total(systems, cost)
  {
    total := 0;
    chosen := [];
    var j := 0;
    while j < |systems|
      invariant 0 <= j <= |systems|
      invariant chosen == systems[..j]
      invariant total == Total(systems[..j], cost)
    {
      assert systems[..j + 1] == systems[..j] + [systems[j]];
      TotalConcat(systems[..j], [systems[j]], cost);
      total := total + cost(systems[j]);
      chosen := chosen + [systems[j]];
      j := j + 1;
    }
    assert systems[..j] == systems;
  }

  /**
   * The second loop of both trimmers: from the newest non-system message backwards, `unshift` each one that
   * still fits onto `chosen`, and stop at the first that does not.
   */
  method UnshiftNewest<T>(others: seq<T>, chosen0: seq<T>, used: nat, allowed: int, cost: T -> nat)
    returns (chosen: seq<T>)
    ensures chosen == Kept(others, used, allowed, cost) + chosen0
  {
    chosen := chosen0;
    var total := used;
    var i := |others|;
    assert others[..i] == others;
    while i > 0
      invariant 0 <= i <= |others|
      invariant chosen == others[i..] + chosen0
      invariant KeepCount(others, used, allowed, cost) == (|others| - i) + KeepCount(others[..i], total, allowed, cost)
    {
      var msg := others[i - 1];
      var t := cost(msg);
      KeepCountStep(others, i, total, allowed, cost);
      if total + t > allowed {
        break;
      }
      assert others[i - 1..] == [msg] + others[i..];
      total := total + t;
      chosen := [msg] + chosen;
      i := i - 1;
    }
  }

  /** The system messages, in their original order. */
  function Systems(ms: seq<ChatMessage>): (r: seq<ChatMessage>)
    ensures forall m :: m in r <==> m in ms && m.role == System
  {
    if ms == [] then [] else (if ms[0].role == System then [ms[0]] else []) + Systems(ms[1..])
  }

  /** The other messages, in their original order. */
  function NonSystem(ms: seq<ChatMessage>): (r: seq<ChatMessage>)
    ensures forall m :: m in r <==> m in ms && m.role != System
  {
    if ms == [] then [] else (if ms[0].role != System then [ms[0]] else []) + NonSystem(ms[1..])
  }

  /** The two filters split the messages: none is lost or duplicated. */
  lemma {:induction false} FiltersPartition(ms: seq<ChatMessage>)
    ensures multiset(Systems(ms)) + multiset(NonSystem(ms)) == multiset(ms)
  {
    if ms != [] {
      FiltersPartition(ms[1..]);
      assert ms == [ms[0]] + ms[1..];
    }
  }
}
