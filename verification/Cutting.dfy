/** Where a conversation is cut (agent/src/compact.rs). */
module Cutting {
  import opened Conversation
  import opened Rewriting
  import opened Sizes

  /** What a stretch of messages costs: each one's tokens, rounded up on its own. */
  function Cost(messages: seq<Message>, rate: Rate): nat {
    if messages == [] then 0
    else Tokens(MessageBytes(messages[0]), rate) + Cost(messages[1..], rate)
  }

  /** The end, or an index of at least 1 that does not begin with tool results. */
  predicate Allowed(messages: seq<Message>, c: nat) {
    c == |messages| || (1 <= c < |messages| && !IsResults(messages[c]))
  }

  /** `c` is the earliest allowed index whose suffix still fits. */
  predicate EarliestCut(messages: seq<Message>, keep: nat, rate: Rate, c: nat) {
    Allowed(messages, c) && Cost(messages[c..], rate) <= keep &&
    forall i :: 1 <= i < c && Allowed(messages, i) ==> Cost(messages[i..], rate) > keep
  }

  predicate Worked(messages: seq<Message>) {
    exists i :: 0 <= i < |messages| && messages[i].role == Assistant && messages[i].blocks != []
  }

  /** The cut, if any work was done before it. */
  function CutOrNone(messages: seq<Message>, c: nat): Option<nat> {
    if c <= |messages| && Worked(messages[..c]) then Some(c) else None
  }

  lemma {:induction false} CostOrder(messages: seq<Message>, i: nat, j: nat, rate: Rate)
    requires i <= j <= |messages|
    ensures Cost(messages[j..], rate) <= Cost(messages[i..], rate)
    decreases j - i
  {
    if i < j {
      CostOrder(messages, i + 1, j, rate);
      assert messages[i..][1..] == messages[i + 1..];
    }
  }

  /** There is one earliest cut, so "none" is said exactly when nothing was done before it. */
  lemma EarliestCutIsUnique(messages: seq<Message>, keep: nat, rate: Rate, c: nat, d: nat)
    requires EarliestCut(messages, keep, rate, c) && EarliestCut(messages, keep, rate, d)
    ensures c == d
  {
  }

  /** The walk from the end that finds it. */
  method Cut(messages: seq<Message>, keep: nat, rate: Rate) returns (r: Option<nat>)
    ensures exists c :: EarliestCut(messages, keep, rate, c) && r == CutOrNone(messages, c)
    ensures r.Some? ==> Boundary(messages, r.value)
  {
    var kept, cut, i := 0, |messages|, |messages|;
    ghost var n := |messages|;
    while i >= 1
      invariant 0 <= i <= cut <= n && (i < cut || i == n)
      invariant kept == Cost(messages[if i < n then i + 1 else n..], rate) <= keep
      invariant Allowed(messages, cut) && Cost(messages[cut..], rate) <= keep
      invariant forall j :: i < j < cut ==> !Allowed(messages, j)
    {
      if i < |messages| {
        kept := kept + Tokens(MessageBytes(messages[i]), rate);
        assert messages[i..][1..] == messages[i + 1..];
        if kept > keep {
          forall j | 1 <= j <= i
            ensures Cost(messages[j..], rate) > keep
          {
            CostOrder(messages, j, i, rate);
          }
          break;
        }
      }
      if i == |messages| || !IsResults(messages[i]) {
        cut := i;
      }
      i := i - 1;
    }
    assert EarliestCut(messages, keep, rate, cut);
    var worked := exists k :: 0 <= k < |messages[..cut]| && messages[..cut][k].role == Assistant && messages[..cut][k].blocks != [];
    r := if worked then Some(cut) else None;
  }
}
