/** Over any run, the operator's words survive compaction. */
module OperatorMemory {
  import opened Conversation
  import opened Bytes
  import opened Markers
  import opened Rewriting
  import opened Summary
  import opened Remembering

  /** The operator's own texts among what a user message says. */
  function Spoken(blocks: seq<Block>): seq<string> {
    if blocks == [] then []
    else
      (if blocks[0].Text? && !("[harness]" <= blocks[0].text) then [blocks[0].text] else []) +
      Spoken(blocks[1..])
  }

  lemma {:induction false} SaidFirst(w: Wording, messages: seq<Message>)
    requires messages != []
    ensures OperatorMessages(w, messages) == SaidBy(w, messages[0]) + OperatorMessages(w, messages[1..])
  {
  }

  lemma {:induction false} SaidConcat(w: Wording, a: seq<Message>, b: seq<Message>)
    ensures OperatorMessages(w, a + b) == OperatorMessages(w, a) + OperatorMessages(w, b)
  {
    if a == [] {
      assert a + b == b;
    } else {
      var all := a + b;
      assert all[1..] == a[1..] + b && all[0] == a[0];
      SaidConcat(w, a[1..], b);
      SaidFirst(w, all);
      SaidFirst(w, a);
      Assoc(SaidBy(w, a[0]), OperatorMessages(w, a[1..]), OperatorMessages(w, b));
    }
  }

  lemma {:induction false} SaidOne(w: Wording, m: Message)
    ensures OperatorMessages(w, [m]) == SaidBy(w, m)
  {
    assert [m][1..] == [];
  }

  lemma {:induction false} SaidIsSpoken(w: Wording, blocks: seq<Block>)
    requires "[harness]" <= w.header
    requires forall i :: 0 <= i < |blocks| && blocks[i].Text? ==> !(w.header <= blocks[i].text)
    ensures SaidInBlocks(w, blocks) == Spoken(blocks)
  {
    if blocks != [] {
      SaidIsSpoken(w, blocks[1..]);
    }
  }

  lemma {:induction false} ResultsSayNothing(w: Wording, blocks: seq<Block>)
    requires forall i :: 0 <= i < |blocks| ==> blocks[i].ToolResult?
    ensures SaidInBlocks(w, blocks) == []
  {
    if blocks != [] {
      ResultsSayNothing(w, blocks[1..]);
    }
  }

  lemma {:induction false} PruneBlocksSays(w: Wording, blocks: seq<Block>, plan: seq<Pruned>)
    ensures SaidInBlocks(w, PruneBlocks(blocks, plan)) == SaidInBlocks(w, blocks)
  {
    if blocks != [] {
      PruneBlocksSays(w, blocks[1..], plan);
      assert PruneBlocks(blocks, plan)[1..] == PruneBlocks(blocks[1..], plan);
    }
  }

  /** Pruning touches no word of the operator's. */
  lemma {:induction false} PruneSays(w: Wording, messages: seq<Message>, plan: seq<Pruned>)
    ensures OperatorMessages(w, PruneMessages(messages, plan)) == OperatorMessages(w, messages)
  {
    if messages != [] {
      PruneBlocksSays(w, messages[0].blocks, plan);
      PruneSays(w, messages[1..], plan);
      assert PruneMessages(messages, plan)[1..] == PruneMessages(messages[1..], plan);
    }
  }

  /** What a message that begins with a summary says. */
  lemma {:induction false} FrontSays(w: Wording, summary: string, blocks: seq<Block>)
    requires w.header <= summary
    ensures SaidBy(w, Message(User, [Text(summary)] + blocks)) == RestatedIn(w, summary) + SaidInBlocks(w, blocks)
  {
    var all := [Text(summary)] + blocks;
    assert all[0] == Text(summary) && all[1..] == blocks;
  }

  lemma {:induction false} FrontThenRest(w: Wording, summary: string, blocks: seq<Block>, rest: seq<Message>)
    requires w.header <= summary
    ensures OperatorMessages(w, [Message(User, [Text(summary)] + blocks)] + rest) ==
            RestatedIn(w, summary) + (SaidInBlocks(w, blocks) + OperatorMessages(w, rest))
  {
    var m := Message(User, [Text(summary)] + blocks);
    FrontSays(w, summary, blocks);
    SaidConcat(w, [m], rest);
    SaidOne(w, m);
    Assoc(RestatedIn(w, summary), SaidInBlocks(w, blocks), OperatorMessages(w, rest));
  }

  lemma {:induction false} SummaryLeads(messages: seq<Message>, summary: string, upto: nat, blocks: seq<Block>, rest: seq<Message>)
    requires 1 <= upto <= |messages|
    requires var kept := messages[upto..];
      if kept != [] && kept[0].role == User then blocks == kept[0].blocks && rest == kept[1..] else blocks == [] && rest == kept
    ensures Summarise(messages, summary, |messages| - upto) == [Message(User, [Text(summary)] + blocks)] + rest
  {
    assert messages[|messages| - (|messages| - upto)..] == messages[upto..];
    assert [Text(summary)] + [] == [Text(summary)];
  }

  lemma {:induction false} KeptSays(w: Wording, kept: seq<Message>, blocks: seq<Block>, rest: seq<Message>)
    requires if kept != [] && kept[0].role == User then blocks == kept[0].blocks && rest == kept[1..] else blocks == [] && rest == kept
    ensures SaidInBlocks(w, blocks) + OperatorMessages(w, rest) == OperatorMessages(w, kept)
  {
    if kept != [] && kept[0].role == User {
      SaidFirst(w, kept);
    } else {
      assert SaidInBlocks(w, blocks) == [];
    }
  }

  /** After a compaction: what the summary restates, then what the kept part says. */
  lemma {:induction false} SummariseSays(w: Wording, messages: seq<Message>, summary: string, upto: nat)
    requires 1 <= upto <= |messages| && w.header <= summary
    ensures OperatorMessages(w, Summarise(messages, summary, |messages| - upto)) ==
            RestatedIn(w, summary) + OperatorMessages(w, messages[upto..])
  {
    var kept := messages[upto..];
    var merged := kept != [] && kept[0].role == User;
    var blocks, rest := if merged then kept[0].blocks else [], if merged then kept[1..] else kept;
    SummaryLeads(messages, summary, upto, blocks, rest);
    FrontThenRest(w, summary, blocks, rest);
    KeptSays(w, kept, blocks, rest);
  }

  // ---------------------------------------------------- what is kept of them

  function Last<T>(s: seq<T>): T
    requires s != []
  {
    s[|s| - 1]
  }

  lemma {:induction false} FitKeeps(said: seq<string>, dropped: nat)
    ensures var (kept, d) := Fit(said, dropped);
      |kept| <= |said| && d - dropped == |said| - |kept| &&
      (forall m :: m in kept ==> m in said) &&
      (said != [] ==> kept != [] && kept[0] == said[0] && Last(kept) == Last(said)) &&
      (|said| >= 2 ==> |kept| >= 2)
    decreases |said|
  {
    if Total(said) > MAX_OPERATOR_BYTES && |said| > 2 {
      FitKeeps([said[0]] + said[2..], dropped + 1);
    }
  }

  /** The number of digits of a count that fits a machine word. */
  function Pow10(d: nat): nat { if d == 0 then 1 else 10 * Pow10(d - 1) }

  lemma {:induction false} DecimalLength(n: nat, d: nat)
    requires d >= 1 && n < Pow10(d)
    ensures |Decimal(n)| <= d
  {
    assert Pow10(1) == 10;
    if n >= 10 {
      DecimalLength(n / 10, d - 1);
    }
  }

  const USIZE := 0x1_0000_0000_0000_0000

  lemma {:induction false} WordFits()
    ensures USIZE <= Pow10(20)
  {
    assert Pow10(4) == 10_000;
    assert Pow10(8) == 100_000_000 by {
      assert Pow10(6) == 1_000_000;
    }
    assert Pow10(12) == 1_000_000_000_000 by {
      assert Pow10(10) == 10_000_000_000;
    }
    assert Pow10(16) == 10_000_000_000_000_000 by {
      assert Pow10(14) == 100_000_000_000_000;
    }
    assert Pow10(20) == 100_000_000_000_000_000_000 by {
      assert Pow10(18) == 1_000_000_000_000_000_000;
    }
  }

  lemma {:induction false} LeftOutIsOneLine(n: nat)
    ensures '\n' !in LeftOut(n)
  {
    var m, d, end := LeftOut(n), Decimal(n), " earlier messages left out)";
    assert forall i :: 0 <= i < |end| ==> end[i] != '\n';
    forall i | 0 <= i < |m| ensures m[i] != '\n' {
      if 1 <= i < 1 + |d| {
        assert m[i] == d[i - 1] && IsDigit(d[i - 1]);
      } else if 1 + |d| <= i {
        assert m[i] == end[i - 1 - |d|];
      }
    }
  }

  lemma {:induction false} LeftOutIsClean(w: Wording, n: nat)
    requires WellWorded(w) && n < USIZE
    ensures CleanSaid(w, LeftOut(n)) && |LeftOut(n)| <= SUMMARY_RESULT_BYTES
  {
    WordFits();
    DecimalLength(n, 20);
    var m := LeftOut(n);
    LeftOutIsOneLine(n);
    OneLine(m);
    NoBlankLine("\n" + m, w.calls);
    NoBlankLine("\n" + m, w.carryOn);
    NoBlankLine("\n" + m, w.headingStart);
  }

  /** Messages the next compaction can restate whole and read back. */
  predicate Keepable(w: Wording, said: seq<string>) {
    forall i :: 0 <= i < |said| ==> CleanSaid(w, said[i]) && |said[i]| <= SUMMARY_RESULT_BYTES
  }

  lemma {:induction false} CutKeeps(w: Wording, said: seq<string>)
    requires Keepable(w, said)
    ensures Cut(said) == said
  {
  }

  /** The first and the newest message are restated as they are, and all of them while
      they fit together. */
  lemma {:induction false} RestatedKeeps(w: Wording, said: seq<string>)
    requires WellWorded(w) && Keepable(w, said) && |said| < USIZE
    ensures var r := Restated(said);
      Keepable(w, r) && |r| <= |said| && (|said| >= 2 ==> |r| >= 2) &&
      (said != [] ==> r != [] && r[0] == said[0] && Last(r) == Last(said)) &&
      (Total(said) <= MAX_OPERATOR_BYTES ==> r == said)
  {
    FitKeeps(said, 0);
    var (kept, dropped) := Fit(said, 0);
    KeepableAmong(w, said, kept);
    if dropped > 0 && |kept| > 0 {
      LeftOutIsClean(w, dropped);
      assert |said| > 2 && |kept| >= 2;
      KeepableWith(w, kept, LeftOut(dropped));
    }
  }

  lemma {:induction false} KeepableAmong(w: Wording, said: seq<string>, kept: seq<string>)
    requires Keepable(w, said) && forall m :: m in kept ==> m in said
    ensures Keepable(w, kept)
  {
    forall i | 0 <= i < |kept|
      ensures CleanSaid(w, kept[i]) && |kept[i]| <= SUMMARY_RESULT_BYTES
    {
      assert kept[i] in said;
    }
  }

  lemma {:induction false} KeepableWith(w: Wording, kept: seq<string>, note: string)
    requires Keepable(w, kept) && |kept| >= 2 && CleanSaid(w, note) && |note| <= SUMMARY_RESULT_BYTES
    ensures var r := [kept[0], note] + kept[1..];
      Keepable(w, r) && |r| == |kept| + 1 && r[0] == kept[0] && Last(r) == Last(kept)
  {
    var r := [kept[0], note] + kept[1..];
    assert forall i :: 2 <= i < |r| ==> r[i] == kept[i - 1];
  }

  lemma {:induction false} TotalConcat(a: seq<string>, b: seq<string>)
    ensures Total(a + b) == Total(a) + Total(b)
  {
    if a == [] {
      assert a + b == b;
    } else {
      TotalConcat(a[1..], b);
      assert (a + b)[1..] == a[1..] + b;
    }
  }

  // ------------------------------------------------------------ the invariant

  /** What `said` still is of `prompts`: the first, the newest, and all while they fit. */
  predicate Stands(w: Wording, said: seq<string>, prompts: seq<string>) {
    Keepable(w, said) && |said| <= |prompts| && (|prompts| >= 2 ==> |said| >= 2) &&
    (prompts != [] ==> said != [] && said[0] == prompts[0] && Last(said) == Last(prompts)) &&
    (Total(prompts) <= MAX_OPERATOR_BYTES ==> said == prompts)
  }

  /** What a conversation still holds of everything the operator said. */
  predicate SaidHolds(w: Wording, messages: seq<Message>, prompts: seq<string>) {
    Stands(w, OperatorMessages(w, messages), prompts)
  }

  lemma {:induction false} SayHolds(w: Wording, messages: seq<Message>, m: Message, prompts: seq<string>, more: seq<string>)
    requires SaidHolds(w, messages, prompts) && SaidBy(w, m) == more && Keepable(w, more)
    ensures SaidHolds(w, messages + [m], prompts + more)
  {
    SaidConcat(w, messages, [m]);
    SaidOne(w, m);
    MoreSaid(w, OperatorMessages(w, messages), prompts, more);
  }

  lemma {:induction false} MoreSaid(w: Wording, said: seq<string>, prompts: seq<string>, more: seq<string>)
    requires Stands(w, said, prompts) && Keepable(w, more)
    ensures Stands(w, said + more, prompts + more)
  {
    TotalConcat(prompts, more);
  }

  lemma {:induction false} CompactHolds(w: Wording, messages: seq<Message>, summary: string, upto: nat, prompts: seq<string>)
    requires WellWorded(w) && SaidHolds(w, messages, prompts) && |prompts| < USIZE
    requires 1 <= upto <= |messages| && w.header <= summary
    requires RestatedIn(w, summary) == Restated(Cut(OperatorMessages(w, messages[..upto])))
    ensures SaidHolds(w, Summarise(messages, summary, |messages| - upto), prompts)
  {
    var a, b := OperatorMessages(w, messages[..upto]), OperatorMessages(w, messages[upto..]);
    SplitSays(w, messages, upto);
    SummariseSays(w, messages, summary, upto);
    StandsRestated(w, a, b, prompts);
  }

  lemma {:induction false} SplitSays(w: Wording, messages: seq<Message>, upto: nat)
    requires upto <= |messages|
    ensures OperatorMessages(w, messages) == OperatorMessages(w, messages[..upto]) + OperatorMessages(w, messages[upto..])
  {
    assert messages == messages[..upto] + messages[upto..];
    SaidConcat(w, messages[..upto], messages[upto..]);
  }

  lemma {:induction false} StandsRestated(w: Wording, a: seq<string>, b: seq<string>, prompts: seq<string>)
    requires WellWorded(w) && Stands(w, a + b, prompts) && |prompts| < USIZE
    ensures Stands(w, Restated(Cut(a)) + b, prompts)
  {
    SliceKeepable(w, a, b);
    CutKeeps(w, a);
    RestatedKeeps(w, a);
    RestatedJoins(w, a, Restated(a), b, prompts);
  }

  lemma {:induction false} SliceKeepable(w: Wording, a: seq<string>, b: seq<string>)
    requires Keepable(w, a + b)
    ensures Keepable(w, a) && Keepable(w, b)
  {
    assert forall i :: 0 <= i < |a| ==> a[i] == (a + b)[i];
    assert forall i :: 0 <= i < |b| ==> b[i] == (a + b)[|a| + i];
  }

  lemma {:induction false} RestatedJoins(w: Wording, a: seq<string>, r: seq<string>, b: seq<string>, prompts: seq<string>)
    requires Stands(w, a + b, prompts) && Keepable(w, r) && Keepable(w, b)
    requires |r| <= |a| && (|a| >= 2 ==> |r| >= 2)
    requires a != [] ==> r != [] && r[0] == a[0] && Last(r) == Last(a)
    requires Total(a) <= MAX_OPERATOR_BYTES ==> r == a
    ensures Stands(w, r + b, prompts)
  {
    TotalConcat(a, b);
  }
}
