/** Tokens counted per request and answered per turn (agent/src/agent.rs,
    agent/src/server.rs). */
module Usage {
  import opened Sizes

  /** What one model request used; `cacheRead` is part of `input` where the upstream
      counts as it should. */
  datatype Usage = Usage(input: nat, output: nat, cacheRead: nat)

  const NONE := Usage(0, 0, 0)

  function Plus(a: Usage, b: Usage): Usage {
    Usage(a.input + b.input, a.output + b.output, a.cacheRead + b.cacheRead)
  }

  function Sum(counted: seq<Usage>): Usage {
    if counted == [] then NONE else Plus(Sum(counted[..|counted| - 1]), counted[|counted| - 1])
  }

  /** A usage as it is sent on: fresh prompt tokens, answer tokens, and those from a cache. */
  datatype Told = Told(uncached: nat, output: nat, cached: nat)

  function Update(u: Usage): Told {
    var cached := Min(u.cacheRead, u.input);
    Told(u.input - cached, u.output, cached)
  }

  function Updates(counted: seq<Usage>): (told: seq<Told>)
    ensures |told| == |counted|
    ensures forall i :: 0 <= i < |told| ==> told[i] == Update(counted[i])
  {
    seq(|counted|, i requires 0 <= i < |counted| => Update(counted[i]))
  }

  function SumTold(told: seq<Told>): Told {
    if told == [] then Told(0, 0, 0)
    else
      var before, last := SumTold(told[..|told| - 1]), told[|told| - 1];
      Told(before.uncached + last.uncached, before.output + last.output, before.cached + last.cached)
  }

  /** The turn's usage in the answer, from the totals around it. */
  function TurnUsage(before: Usage, after: Usage): Told
    requires before.input <= after.input && before.output <= after.output && before.cacheRead <= after.cacheRead
  {
    Update(Usage(after.input - before.input, after.output - before.output, after.cacheRead - before.cacheRead))
  }

  lemma {:induction false} SumConcat(a: seq<Usage>, b: seq<Usage>)
    ensures Sum(a + b) == Plus(Sum(a), Sum(b))
  {
    if b == [] {
      assert a + b == a;
    } else {
      var n := |b| - 1;
      var both := a + b;
      SumConcat(a, b[..n]);
      assert both[..|both| - 1] == a + b[..n] && both[|both| - 1] == b[n];
    }
  }

  lemma {:induction false} UpdatesConcat(a: seq<Usage>, b: seq<Usage>)
    ensures Updates(a + b) == Updates(a) + Updates(b)
  {
  }

  /** Prompt and answer tokens are conserved update by update, and no more can be said of
      the cached part than that it stays within both sums. */
  lemma {:induction false} UpdatesSum(counted: seq<Usage>)
    ensures var sum, told := Sum(counted), SumTold(Updates(counted));
      told.uncached + told.cached == sum.input && told.output == sum.output &&
      told.cached <= sum.cacheRead && told.cached <= sum.input
  {
    if counted != [] {
      var n := |counted| - 1;
      UpdatesSum(counted[..n]);
      assert Updates(counted)[..n] == Updates(counted[..n]);
    }
  }

  /** Prompt tokens, cached and fresh together, and answer tokens are the same, and no fewer
      are called cached. */
  predicate SaysAsMuch(answer: Told, told: Told) {
    answer.uncached + answer.cached == told.uncached + told.cached && answer.output == told.output &&
    told.cached <= answer.cached
  }

  /** The totals around a turn differ by what it used. */
  lemma {:induction false} DifferenceIsTurn(b: Usage, t: Usage)
    ensures var a := Plus(b, t);
      b.input <= a.input && b.output <= a.output && b.cacheRead <= a.cacheRead && TurnUsage(b, a) == Update(t)
  {
  }

  lemma {:induction false} UpdateSaysAsMuch(t: Usage, told: Told)
    requires told.uncached + told.cached == t.input && told.output == t.output && told.cached <= t.cacheRead
    ensures SaysAsMuch(Update(t), told)
  {
  }

  /** What a turn answers is what its updates said: cached and fresh prompt tokens
      together, and answer tokens. */
  lemma {:induction false} AnswerConserves(before: seq<Usage>, turn: seq<Usage>)
    ensures var b, a := Sum(before), Sum(before + turn);
      b.input <= a.input && b.output <= a.output && b.cacheRead <= a.cacheRead &&
      SaysAsMuch(TurnUsage(b, a), SumTold(Updates(turn)))
  {
    var b, t, told := Sum(before), Sum(turn), SumTold(Updates(turn));
    assert Sum(before + turn) == Plus(b, t) by {
      SumConcat(before, turn);
    }
    assert SaysAsMuch(Update(t), told) by {
      UpdatesSum(turn);
      UpdateSaysAsMuch(t, told);
    }
    DifferenceIsTurn(b, t);
  }

  // --------------------------------------------------------------- the cached part

  predicate CacheWithin(u: Usage) { u.cacheRead <= u.input }
  predicate CacheBeyond(u: Usage) { u.cacheRead >= u.input }

  lemma {:induction false} WithinSums(counted: seq<Usage>)
    ensures SumTold(Updates(counted)).cached == Sum(counted).cacheRead <==>
      forall i :: 0 <= i < |counted| ==> CacheWithin(counted[i])
    ensures SumTold(Updates(counted)).cached == Sum(counted).input <==>
      forall i :: 0 <= i < |counted| ==> CacheBeyond(counted[i])
  {
    if counted != [] {
      var n := |counted| - 1;
      WithinSums(counted[..n]);
      UpdatesSum(counted[..n]);
      assert Updates(counted)[..n] == Updates(counted[..n]);
    }
  }

  /** The answer splits the prompt into cached and fresh as its updates did, exactly when
      no two requests fall on opposite sides: all read no more from a cache than they
      were sent, or all read no less. */
  lemma {:induction false} SplitAgreesIff(before: seq<Usage>, turn: seq<Usage>)
    ensures var b, a := Sum(before), Sum(before + turn);
      b.input <= a.input && b.output <= a.output && b.cacheRead <= a.cacheRead
    ensures TurnUsage(Sum(before), Sum(before + turn)) == SumTold(Updates(turn)) <==>
      ((forall i :: 0 <= i < |turn| ==> CacheWithin(turn[i])) || (forall i :: 0 <= i < |turn| ==> CacheBeyond(turn[i])))
  {
    var b, t, told := Sum(before), Sum(turn), SumTold(Updates(turn));
    assert Sum(before + turn) == Plus(b, t) by {
      SumConcat(before, turn);
    }
    DifferenceIsTurn(b, t);
    UpdatesSum(turn);
    WithinSums(turn);
  }
}
