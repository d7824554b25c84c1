/**
 * The context-window utility (lib/utils/context.ts): a token estimate, the per-model window
 * sizes, and a trimmer that keeps every system message first and then as many of the newest
 * other messages as the budget left after a response reserve allows.
 */
module ContextWindow {
  import opened Wrappers
  import opened Text
  import opened Wire
  import opened TokenBudget

  /** `estimateTokens`: about four characters per token, and never less than one. */
  function EstimateTokens(text: string): (n: nat)
    ensures n >= 1
    ensures 4 * n >= |text|
    ensures n == 1 || 4 * (n - 1) < |text|
  {
    if |text| <= 4 then 1 else (|text| + 3) / 4
  }

  /**
   * `countTokens`: the encoder's count when an encoder could be loaded (`encoderCount`, a
   * foreign library's answer), and otherwise the estimate.
   */
  function CountTokens(text: string, encoderCount: Option<nat>): (n: nat)
    ensures encoderCount.Some? ==> n == encoderCount.value
    ensures encoderCount.None? ==> n >= 1 && 4 * n >= |text| && (n == 1 || 4 * (n - 1) < |text|)
  {
    if encoderCount.Some? then encoderCount.value else EstimateTokens(text)
  }

  const DefaultContextSize: nat := 32768

  const ModelContextSizes: map<string, nat> := map[
    "gemini-2.5-flash" := 32768,
    "gemini-2.1" := 32768,
    "gpt-4o" := 32768,
    "gpt-4" := 8192,
    "gpt-4-32k" := 32768]

  /** `getModelContextSize`: the table entry, or 32768 for a missing or unknown model. */
  function ModelContextSize(model: Option<string>): (n: nat)
    ensures Truthy(model) && model.value in ModelContextSizes ==> n == ModelContextSizes[model.value]
    ensures n == 8192 <==> model == Some("gpt-4")
    ensures n == 8192 || n == 32768
  {
    if !Truthy(model) then DefaultContextSize
    else if model.value in ModelContextSizes && ModelContextSizes[model.value] != 0 then ModelContextSizes[model.value]
    else DefaultContextSize
  }

  /**
   * The budget of `trimMessagesForContext`: the window (`modelMaxTokens || size`) less a reserve
   * of at least 64 tokens (`tokensForResponse`, 1024 when left out), never below zero.
   */
  function Allowed(modelMaxTokens: Option<int>, tokensForResponse: Option<int>, model: Option<string>): (a: nat)
    ensures var window := if modelMaxTokens.Some? && modelMaxTokens.value != 0 then modelMaxTokens.value
                          else ModelContextSize(model);
            var reserve := Max(64, tokensForResponse.GetOr(1024));
            && reserve >= 64
            && (a == 0 <==> window <= reserve)
            && (a > 0 ==> a + reserve == window)
  {
    var window := if modelMaxTokens.Some? && modelMaxTokens.value != 0 then modelMaxTokens.value
                  else ModelContextSize(model);
    var reserve := Max(64, tokensForResponse.GetOr(1024));
    if window - reserve <= 0 then 0 else window - reserve
  }

  /** What one message costs the budget (the `countTokens` fallback on its text). */
  function Cost(m: ChatMessage): nat {
    EstimateTokens(m.content)
  }

  /** The specification of the trimmer: all system messages, then the newest non-system suffix that fits. */
  function Trimmed(messages: seq<ChatMessage>, allowed: int): seq<ChatMessage> {
    var systems := Systems(messages);
    systems + Kept(NonSystem(messages), Total(systems, Cost), allowed, Cost)
  }

  lemma {:induction false} NonSystemConcat(a: seq<ChatMessage>, b: seq<ChatMessage>)
    ensures NonSystem(a + b) == NonSystem(a) + NonSystem(b)
  {
    if a != [] {
      assert (a + b)[0] == a[0] && (a + b)[1..] == a[1..] + b;
      NonSystemConcat(a[1..], b);
    } else {
      assert a + b == b;
    }
  }

  lemma {:induction false} NonSystemOfNone(s: seq<ChatMessage>)
    requires forall m :: m in s ==> m.role == System
    ensures NonSystem(s) == []
  {
    if s != [] {
      NonSystemOfNone(s[1..]);
    }
  }

  lemma {:induction false} NonSystemOfAll(s: seq<ChatMessage>)
    requires forall m :: m in s ==> m.role != System
    ensures NonSystem(s) == s
  {
    if s != [] {
      NonSystemOfAll(s[1..]);
      assert s == [s[0]] + s[1..];
    }
  }

  /**
   * `trimMessagesForContext`: the system messages are pushed and counted, returned alone when
   * they already use the budget up, and otherwise followed by the non-system part of what the
   * newest-first scan `unshift`ed.
   */
  method TrimForContext(messages: seq<ChatMessage>, modelMaxTokens: Option<int>, tokensForResponse: Option<int>,
                        model: Option<string>) returns (result: seq<ChatMessage>)
    ensures result == Trimmed(messages, Allowed(modelMaxTokens, tokensForResponse, model))
  {
    var allowed := Allowed(modelMaxTokens, tokensForResponse, model);
    var systems := Systems(messages);
    var others := NonSystem(messages);

    var chosen, total := PushSystems(systems, Cost);
    if total >= allowed {
      SpentBudgetKeepsNothing(others, total, allowed, Cost);
      return chosen;
    }

    chosen := UnshiftNewest(others, chosen, total, allowed, Cost);
    var kept := Kept(others, total, allowed, Cost);
    assert forall m :: m in kept ==> m in others;
    NonSystemConcat(kept, systems);
    NonSystemOfAll(kept);
    NonSystemOfNone(systems);
    result := systems + NonSystem(chosen);
  }

  /** Every system message is kept, first and in its original order, whatever the budget. */
  lemma SystemsAlwaysFirst(messages: seq<ChatMessage>, allowed: int)
    ensures var r := Trimmed(messages, allowed);
            |r| >= |Systems(messages)| && r[..|Systems(messages)|] == Systems(messages)
  {
  }

  /** After the system messages comes a contiguous newest run of the other messages, oldest first. */
  lemma KeptIsNewestSuffix(messages: seq<ChatMessage>, allowed: int)
    ensures var r := Trimmed(messages, allowed);
            var others := NonSystem(messages);
            var rest := r[|Systems(messages)|..];
            |rest| <= |others| && rest == others[|others| - |rest|..]
  {
    var systems := Systems(messages);
    var others := NonSystem(messages);
    var kept := Kept(others, Total(systems, Cost), allowed, Cost);
    assert Trimmed(messages, allowed) == systems + kept;
    assert (systems + kept)[|systems|..] == kept;
    assert kept == others[|others| - |kept|..];
  }

  /** When the system messages leave room, the whole result fits in the budget. */
  lemma {:induction false} TrimmedFits(messages: seq<ChatMessage>, allowed: int)
    requires Total(Systems(messages), Cost) <= allowed
    ensures Total(Trimmed(messages, allowed), Cost) <= allowed
  {
    var systems := Systems(messages);
    KeptFits(NonSystem(messages), Total(systems, Cost), allowed, Cost);
    TotalConcat(systems, Kept(NonSystem(messages), Total(systems, Cost), allowed, Cost), Cost);
  }

  /** The scan stops at the first message that does not fit: the newest one left out would overflow. */
  lemma {:induction false} TrimmedStopsAtFirstMisfit(messages: seq<ChatMessage>, allowed: int)
    requires |Trimmed(messages, allowed)| < |messages|
    ensures var others := NonSystem(messages);
            var n := |Trimmed(messages, allowed)| - |Systems(messages)|;
            n < |others| && Total(Trimmed(messages, allowed), Cost) + Cost(others[|others| - n - 1]) > allowed
  {
    var systems := Systems(messages);
    var others := NonSystem(messages);
    FiltersPartition(messages);
    assert |multiset(messages)| == |multiset(systems)| + |multiset(others)|;
    KeptMaximal(others, Total(systems, Cost), allowed, Cost);
    TotalConcat(systems, Kept(others, Total(systems, Cost), allowed, Cost), Cost);
  }

  /** When the system messages alone use the budget up, they are the whole result. */
  lemma SystemsOverBudget(messages: seq<ChatMessage>, allowed: int)
    requires Total(Systems(messages), Cost) >= allowed
    ensures Trimmed(messages, allowed) == Systems(messages)
  {
    SpentBudgetKeepsNothing(NonSystem(messages), Total(Systems(messages), Cost), allowed, Cost);
  }
}
