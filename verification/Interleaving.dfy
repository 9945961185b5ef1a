/** Subagents that run at once reach the upstream in whatever order they come
    (agent/src/agent.rs). What is counted of their requests does not depend on it. */
module Interleaving {
  import opened Usage
  import opened Requests

  // --------------------------------------------------------------- order

  /** Two orders of the same requests: the last of one stands somewhere in the other, and
      without it they are two orders of the rest. */
  lemma {:induction false} LastStandsSomewhere(a: seq<Asking>, b: seq<Asking>)
    returns (before: seq<Asking>, r: Asking, first: seq<Asking>, last: seq<Asking>)
    requires a != [] && multiset(a) == multiset(b)
    ensures a == before + [r] && b == first + [r] + last && multiset(before) == multiset(first + last)
  {
    before, r := a[..|a| - 1], a[|a| - 1];
    assert a == before + [r] && r in multiset(b);
    var i :| 0 <= i < |b| && b[i] == r;
    first, last := b[..i], b[i + 1..];
    assert b == first + [r] + last;
    WithoutOne(before, r, first, last);
  }

  lemma {:induction false} WithoutOne(a: seq<Asking>, r: Asking, first: seq<Asking>, last: seq<Asking>)
    requires multiset(a + [r]) == multiset(first + [r] + last)
    ensures multiset(a) == multiset(first + last)
  {
    assert multiset(a + [r]) == multiset(a) + multiset{r};
    assert multiset(first + [r] + last) == multiset(first + last) + multiset{r};
    assert multiset(a) == multiset(a + [r]) - multiset{r};
    assert multiset(first + last) == multiset(first + [r] + last) - multiset{r};
  }

  lemma {:induction false} NoneInNoOrder(b: seq<Asking>)
    requires multiset(b) == multiset([])
    ensures b == []
  {
    assert |b| == |multiset(b)|;
  }

  // --------------------------------------------------------------- usage

  lemma {:induction false} UsageConcat(a: seq<Asking>, b: seq<Asking>)
    ensures Sum(Owed(a + b)) == Plus(Sum(Owed(a)), Sum(Owed(b)))
  {
    OwedConcat(a, b);
    SumConcat(Owed(a), Owed(b));
  }

  lemma {:induction false} UsageOfThree(a: seq<Asking>, b: seq<Asking>, c: seq<Asking>)
    ensures Sum(Owed(a + b + c)) == Plus(Plus(Sum(Owed(a)), Sum(Owed(b))), Sum(Owed(c)))
  {
    UsageConcat(a + b, c);
    UsageConcat(a, b);
  }

  /** As much usage is owed for the same requests in any order. */
  lemma {:induction false} OrderKeepsUsage(a: seq<Asking>, b: seq<Asking>)
    requires multiset(a) == multiset(b)
    ensures Sum(Owed(a)) == Sum(Owed(b))
    decreases |a|
  {
    if a == [] {
      NoneInNoOrder(b);
    } else {
      var before, r, first, last := LastStandsSomewhere(a, b);
      OrderKeepsUsage(before, first + last);
      UsageMoved(before, r, first, last);
    }
  }

  lemma {:induction false} PlusSwap(x: Usage, y: Usage, z: Usage)
    ensures Plus(Plus(x, y), z) == Plus(Plus(x, z), y)
  {
  }

  lemma {:induction false} UsageMoved(before: seq<Asking>, r: Asking, first: seq<Asking>, last: seq<Asking>)
    requires Sum(Owed(before)) == Sum(Owed(first + last))
    ensures Sum(Owed(before + [r])) == Sum(Owed(first + [r] + last))
  {
    var x, y, z := Sum(Owed(first)), Sum(Owed([r])), Sum(Owed(last));
    assert Sum(Owed(before + [r])) == Plus(Plus(x, z), y) by {
      UsageConcat(before, [r]);
      UsageConcat(first, last);
    }
    assert Sum(Owed(first + [r] + last)) == Plus(Plus(x, y), z) by {
      UsageOfThree(first, [r], last);
    }
    PlusSwap(x, y, z);
  }

  // --------------------------------------------------------------- updates

  function PlusTold(a: Told, b: Told): Told {
    Told(a.uncached + b.uncached, a.output + b.output, a.cached + b.cached)
  }

  lemma {:induction false} SumToldConcat(a: seq<Told>, b: seq<Told>)
    ensures SumTold(a + b) == PlusTold(SumTold(a), SumTold(b))
  {
    if b == [] {
      assert a + b == a;
    } else {
      var all, n := a + b, |b| - 1;
      SumToldConcat(a, b[..n]);
      assert all[..|all| - 1] == a + b[..n] && all[|all| - 1] == b[n];
    }
  }

  /** What the updates sent for requests come to. */
  function ToldOf(requests: seq<Asking>): Told {
    SumTold(Updates(Owed(requests)))
  }

  lemma {:induction false} ToldConcat(a: seq<Asking>, b: seq<Asking>)
    ensures ToldOf(a + b) == PlusTold(ToldOf(a), ToldOf(b))
  {
    OwedConcat(a, b);
    UpdatesConcat(Owed(a), Owed(b));
    SumToldConcat(Updates(Owed(a)), Updates(Owed(b)));
  }

  lemma {:induction false} ToldOfThree(a: seq<Asking>, b: seq<Asking>, c: seq<Asking>)
    ensures ToldOf(a + b + c) == PlusTold(PlusTold(ToldOf(a), ToldOf(b)), ToldOf(c))
  {
    ToldConcat(a + b, c);
    ToldConcat(a, b);
  }

  /** And the updates sent for them come to the same. */
  lemma {:induction false} OrderKeepsUpdates(a: seq<Asking>, b: seq<Asking>)
    requires multiset(a) == multiset(b)
    ensures ToldOf(a) == ToldOf(b)
    decreases |a|
  {
    if a == [] {
      NoneInNoOrder(b);
    } else {
      var before, r, first, last := LastStandsSomewhere(a, b);
      OrderKeepsUpdates(before, first + last);
      ToldMoved(before, r, first, last);
    }
  }

  lemma {:induction false} ToldSwap(x: Told, y: Told, z: Told)
    ensures PlusTold(PlusTold(x, y), z) == PlusTold(PlusTold(x, z), y)
  {
  }

  lemma {:induction false} ToldMoved(before: seq<Asking>, r: Asking, first: seq<Asking>, last: seq<Asking>)
    requires ToldOf(before) == ToldOf(first + last)
    ensures ToldOf(before + [r]) == ToldOf(first + [r] + last)
  {
    var x, y, z := ToldOf(first), ToldOf([r]), ToldOf(last);
    assert ToldOf(before + [r]) == PlusTold(PlusTold(x, z), y) by {
      ToldConcat(before, [r]);
      ToldConcat(first, last);
    }
    assert ToldOf(first + [r] + last) == PlusTold(PlusTold(x, y), z) by {
      ToldOfThree(first, [r], last);
    }
    ToldSwap(x, y, z);
  }

  // --------------------------------------------------------------- attempts

  /** As many attempts were made at them, at each depth. */
  lemma {:induction false} OrderKeepsAttempts(a: seq<Asking>, b: seq<Asking>, depth: nat)
    requires multiset(a) == multiset(b)
    ensures AttemptsAt(a, depth) == AttemptsAt(b, depth) && AttemptsElsewhere(a, depth) == AttemptsElsewhere(b, depth)
    decreases |a|
  {
    if a == [] {
      NoneInNoOrder(b);
    } else {
      var before, r, first, last := LastStandsSomewhere(a, b);
      OrderKeepsAttempts(before, first + last, depth);
      AttemptsConcat(before, [r], depth);
      AttemptsConcat(first + [r], last, depth);
      AttemptsConcat(first, [r], depth);
      AttemptsConcat(first, last, depth);
    }
  }

  /** And each was tried as it should be. */
  lemma {:induction false} OrderKeepsTries(trimmed: string -> string, a: seq<Asking>, b: seq<Asking>)
    requires multiset(a) == multiset(b) && AllWellTried(trimmed, a)
    ensures AllWellTried(trimmed, b)
  {
    forall i | 0 <= i < |b|
      ensures WellTried(trimmed, b[i])
    {
      assert b[i] in multiset(a);
    }
  }
}
