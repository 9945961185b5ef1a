/** What survives any number of compactions, over every run of a session. */
module Memory {
  import opened Conversation
  import opened Rewriting
  import opened Pruning
  import opened Markers
  import opened Summary
  import opened Remembering
  import opened Journal
  import opened Protocol
  import opened Pairing
  import opened CallMemory
  import opened OperatorMemory
  import opened SafeWords

  /** Everything the operator said in a run, in order. */
  function Prompts(steps: seq<Step>): seq<string> {
    if steps == [] then []
    else
      var step := steps[|steps| - 1];
      Prompts(steps[..|steps| - 1]) + (if step.Say? && step.role == User then Spoken(step.blocks) else [])
  }

  lemma {:induction false} SummaryStarts(w: Wording, messages: seq<Message>, upto: nat, notes: string)
    requires WellWorded(w) && upto <= |messages|
    ensures w.header <= SummaryMessage(w, messages, upto, notes)
  {
    var text := SummaryMessage(w, messages, upto, notes);
    assert w.intro <= text;
  }

  // ------------------------------------------------------------ the record

  /** What a run keeps: the record at the front, and words that can be restated. */
  predicate Remembers(w: Wording, s: State, full: seq<string>)
    requires WellWorded(w)
  {
    RecordHolds(w, s, full) && AllSafe(w, OperatorMessages(w, s.messages))
  }

  lemma {:induction false} SpokenIsSafe(w: Wording, blocks: seq<Block>)
    requires WellWorded(w)
    requires forall i :: 0 <= i < |blocks| && blocks[i].Text? ==> PlainText(w, User, blocks[i].text)
    ensures AllSafe(w, Spoken(blocks))
  {
    if blocks != [] {
      SpokenIsSafe(w, blocks[1..]);
    }
  }

  lemma {:induction false} SaysMore(w: Wording, messages: seq<Message>, m: Message)
    ensures OperatorMessages(w, messages + [m]) == OperatorMessages(w, messages) + SaidBy(w, m)
  {
    SaidConcat(w, messages, [m]);
    SaidOne(w, m);
  }

  lemma {:induction false} SayRemembers(w: Wording, s: State, step: Step, full: seq<string>)
    requires WellWorded(w) && step.Say? && Enabled(s, step) && Faithful(w, s, step) && Remembers(w, s, full)
    ensures Remembers(w, Next(s, step), full)
    ensures SaidBy(w, Message(step.role, step.blocks)) == if step.role == User then Spoken(step.blocks) else []
  {
    var m := Message(step.role, step.blocks);
    AppendKeepsFront(w, s.messages, m);
    SaysMore(w, s.messages, m);
    if step.role == User {
      SaidIsSpoken(w, step.blocks);
      SpokenIsSafe(w, step.blocks);
    }
    AllSafeConcat(w, OperatorMessages(w, s.messages), SaidBy(w, m));
  }

  lemma {:induction false} ResultsRemember(w: Wording, messages: seq<Message>, results: seq<Block>)
    requires OnlyAtFront(w, messages) && forall i :: 0 <= i < |results| ==> results[i].ToolResult?
    ensures var more := messages + [Message(User, results)];
      OnlyAtFront(w, more) && Listed(w, more) == Listed(w, messages) &&
      OperatorMessages(w, more) == OperatorMessages(w, messages)
  {
    AppendKeepsFront(w, messages, Message(User, results));
    ResultsSayNothing(w, results);
    SaysMore(w, messages, Message(User, results));
  }

  /** Read back, a summary gives the record `full` and the words it was to restate. */
  predicate ReadsBack(w: Wording, messages: seq<Message>, summary: string, upto: nat, full: seq<string>)
    requires upto <= |messages|
  {
    w.header <= summary && ListedIn(w, summary) == Shown(0, full) && AllArrowed(full) && SingleLines(full) &&
    RestatedIn(w, summary) == Restated(Cut(OperatorMessages(w, messages[..upto])))
  }

  lemma {:induction false} SliceIsSafe(w: Wording, messages: seq<Message>, upto: nat)
    requires WellWorded(w) && upto <= |messages| && AllSafe(w, OperatorMessages(w, messages))
    ensures AllSafe(w, OperatorMessages(w, messages[..upto])) && AllSafe(w, OperatorMessages(w, messages[upto..]))
  {
    SplitSays(w, messages, upto);
    AllSafeConcat(w, OperatorMessages(w, messages[..upto]), OperatorMessages(w, messages[upto..]));
  }

  lemma {:induction false} SummaryReadsBack(w: Wording, messages: seq<Message>, upto: nat, notes: string, full: seq<string>)
    requires WellWorded(w) && 1 <= upto <= |messages| && CleanNotes(w, notes)
    requires OnlyAtFront(w, messages) && Listed(w, messages) == Shown(0, full) && AllArrowed(full)
    requires SingleLines(full) && SingleLines(Adds(messages, upto)) && AllSafe(w, OperatorMessages(w, messages))
    ensures ReadsBack(w, messages, SummaryMessage(w, messages, upto, notes), upto, AsRead(full + Adds(messages, upto)))
  {
    var calls, said := CallRecord(w, messages[..upto]), Restated(Cut(OperatorMessages(w, messages[..upto])));
    SliceKeepsFront(w, messages, upto);
    RecordContinues(w, messages[..upto], full);
    ReadShown(full + Adds(messages, upto));
    ReadIsArrowed(full + Adds(messages, upto));
    SliceIsSafe(w, messages, upto);
    RestatedIsSafe(w, OperatorMessages(w, messages[..upto]));
    CallsReadAs(w, notes, calls, said, upto == |messages|);
    SaidReadsBack(w, notes, calls, said, upto == |messages|);
    SummaryStarts(w, messages, upto, notes);
  }

  lemma {:induction false} GenuineReadsBack(w: Wording, messages: seq<Message>, summary: string, upto: nat, full: seq<string>)
    requires WellWorded(w) && 1 <= upto <= |messages| && exists notes :: Genuine(w, messages, summary, upto, notes)
    requires OnlyAtFront(w, messages) && Listed(w, messages) == Shown(0, full) && AllArrowed(full)
    requires SingleLines(full) && SingleLines(Adds(messages, upto)) && AllSafe(w, OperatorMessages(w, messages))
    ensures ReadsBack(w, messages, summary, upto, AsRead(full + Adds(messages, upto)))
  {
    var notes :| Genuine(w, messages, summary, upto, notes);
    SummaryReadsBack(w, messages, upto, notes, full);
  }

  /** A compaction with a summary that reads back so keeps what is remembered. */
  lemma {:induction false} CompactRemembers(w: Wording, s: State, summary: string, upto: nat, full: seq<string>)
    requires WellWorded(w) && Enabled(s, Compact(summary, upto)) && OnlyAtFront(w, s.messages)
    requires ReadsBack(w, s.messages, summary, upto, full) && AllSafe(w, OperatorMessages(w, s.messages))
    ensures Remembers(w, Next(s, Compact(summary, upto)), full)
  {
    CompactKeepsFront(w, s.messages, summary, upto);
    SummariseSays(w, s.messages, summary, upto);
    SliceIsSafe(w, s.messages, upto);
    RestatedIsSafe(w, OperatorMessages(w, s.messages[..upto]));
    AllSafeConcat(w, RestatedIn(w, summary), OperatorMessages(w, s.messages[upto..]));
  }

  lemma {:induction false} CompactedRemembers(w: Wording, s: State, step: Step, full: seq<string>)
    requires WellWorded(w) && step.Compact? && Enabled(s, step) && Faithful(w, s, step) && Remembers(w, s, full)
    ensures Remembers(w, Next(s, step), Carried(full, s, step))
  {
    GenuineReadsBack(w, s.messages, step.summary, step.upto, full);
    CompactRemembers(w, s, step.summary, step.upto, AsRead(full + Adds(s.messages, step.upto)));
  }

  lemma {:induction false} CrashRemembers(w: Wording, s: State, full: seq<string>)
    requires WellWorded(w) && Refines(Fold(s.log), s) && Remembers(w, s, full)
    ensures Remembers(w, Next(s, Crash), full)
    ensures OperatorMessages(w, Next(s, Crash).messages) == OperatorMessages(w, s.messages)
  {
    var after := Rebuilt(s.log).messages;
    assert Next(s, Crash).messages == after;
    assert after == s.messages || exists results :: AllResults(results) && after == s.messages + [Message(User, results)] by {
      CrashAdds(s);
    }
    if after != s.messages {
      var results :| AllResults(results) && after == s.messages + [Message(User, results)];
      ResultsRemember(w, s.messages, results);
    }
  }

  lemma {:induction false} StepRemembers(w: Wording, s: State, step: Step, full: seq<string>)
    requires WellWorded(w) && Enabled(s, step) && Faithful(w, s, step) && Refines(Fold(s.log), s) && PairedSo(s)
    requires Remembers(w, s, full)
    ensures Remembers(w, Next(s, step), Carried(full, s, step))
  {
    match step
    case Say(_, _) => SayRemembers(w, s, step, full);
    case Deliver => ResultsRemember(w, s.messages, s.phase.done);
    case Prune(plan) =>
      PruneKeepsFront(w, s.messages, plan);
      PruneSays(w, s.messages, plan);
    case Compact(_, _) => CompactedRemembers(w, s, step, full);
    case Crash => CrashRemembers(w, s, full);
    case _ =>
  }

  lemma {:induction false} RunRemembers(w: Wording, id: string, cwd: string, steps: seq<Step>)
    requires WellWorded(w) && Legal(Init(id, cwd), steps) && FaithfulRun(w, Init(id, cwd), steps)
    ensures Remembers(w, Exec(Init(id, cwd), steps), CarriedSoFar(Init(id, cwd), steps))
  {
    if steps == [] {
      assert Shown(0, []) == [];
    } else {
      var before := steps[..|steps| - 1];
      RunRemembers(w, id, cwd, before);
      RunRefines(id, cwd, before);
      RunsStayPaired(id, cwd, before);
      StepRemembers(w, Exec(Init(id, cwd), before), steps[|steps| - 1], CarriedSoFar(Init(id, cwd), before));
    }
  }

  // ------------------------------------------------------------ the words

  /** Short enough never to be cut. */
  predicate AllShort(said: seq<string>) {
    forall i :: 0 <= i < |said| ==> |said[i]| <= SUMMARY_RESULT_BYTES
  }

  lemma {:induction false} SafeAndShort(w: Wording, said: seq<string>)
    requires WellWorded(w) && AllSafe(w, said) && AllShort(said)
    ensures Keepable(w, said)
  {
  }

  lemma {:induction false} StepKeepsWords(w: Wording, s: State, step: Step, full: seq<string>, prompts: seq<string>)
    requires WellWorded(w) && Enabled(s, step) && Faithful(w, s, step) && Refines(Fold(s.log), s) && PairedSo(s)
    requires Remembers(w, s, full) && SaidHolds(w, s.messages, prompts) && |prompts| < USIZE
    requires step.Say? && step.role == User ==> AllShort(Spoken(step.blocks))
    ensures SaidHolds(w, Next(s, step).messages,
      prompts + if step.Say? && step.role == User then Spoken(step.blocks) else [])
  {
    assert prompts + [] == prompts;
    match step
    case Say(role, blocks) => SayKeepsWords(w, s, step, full, prompts);
    case Deliver => ResultsRemember(w, s.messages, s.phase.done);
    case Prune(plan) => PruneSays(w, s.messages, plan);
    case Compact(_, _) => CompactKeepsWords(w, s, step, full, prompts);
    case Crash => CrashRemembers(w, s, full);
    case _ =>
  }

  lemma {:induction false} CompactKeepsWords(w: Wording, s: State, step: Step, full: seq<string>, prompts: seq<string>)
    requires WellWorded(w) && step.Compact? && Enabled(s, step) && Faithful(w, s, step)
    requires Remembers(w, s, full) && SaidHolds(w, s.messages, prompts) && |prompts| < USIZE
    ensures SaidHolds(w, Next(s, step).messages, prompts)
  {
    GenuineReadsBack(w, s.messages, step.summary, step.upto, full);
    CompactHolds(w, s.messages, step.summary, step.upto, prompts);
  }

  lemma {:induction false} SayKeepsWords(w: Wording, s: State, step: Step, full: seq<string>, prompts: seq<string>)
    requires WellWorded(w) && step.Say? && Enabled(s, step) && Faithful(w, s, step)
    requires Remembers(w, s, full) && SaidHolds(w, s.messages, prompts)
    requires step.role == User ==> AllShort(Spoken(step.blocks))
    ensures SaidHolds(w, Next(s, step).messages, prompts + if step.role == User then Spoken(step.blocks) else [])
  {
    var more := if step.role == User then Spoken(step.blocks) else [];
    SayRemembers(w, s, step, full);
    if step.role == User {
      SpokenIsSafe(w, step.blocks);
      SafeAndShort(w, more);
    }
    SayHolds(w, s.messages, Message(step.role, step.blocks), prompts, more);
  }

  lemma {:induction false} PromptsGrow(steps: seq<Step>)
    requires steps != [] && AllShort(Prompts(steps))
    ensures var step := steps[|steps| - 1];
      |Prompts(steps[..|steps| - 1])| <= |Prompts(steps)| && AllShort(Prompts(steps[..|steps| - 1])) &&
      (step.Say? && step.role == User ==> AllShort(Spoken(step.blocks)))
  {
    var before, step := Prompts(steps[..|steps| - 1]), steps[|steps| - 1];
    var more := if step.Say? && step.role == User then Spoken(step.blocks) else [];
    assert Prompts(steps) == before + more;
    assert forall i :: 0 <= i < |before| ==> before[i] == Prompts(steps)[i];
    assert forall i :: 0 <= i < |more| ==> more[i] == Prompts(steps)[|before| + i];
  }

  lemma {:induction false} RunKeepsWords(w: Wording, id: string, cwd: string, steps: seq<Step>)
    requires WellWorded(w) && Legal(Init(id, cwd), steps) && FaithfulRun(w, Init(id, cwd), steps)
    requires AllShort(Prompts(steps)) && |Prompts(steps)| < USIZE
    ensures SaidHolds(w, Exec(Init(id, cwd), steps).messages, Prompts(steps))
  {
    if steps != [] {
      var before := steps[..|steps| - 1];
      PromptsGrow(steps);
      RunKeepsWords(w, id, cwd, before);
      RunRemembers(w, id, cwd, before);
      RunRefines(id, cwd, before);
      RunsStayPaired(id, cwd, before);
      StepKeepsWords(w, Exec(Init(id, cwd), before), steps[|steps| - 1], CarriedSoFar(Init(id, cwd), before), Prompts(before));
    }
  }

  /** All of what was said while it fits in 16 KiB, and past that the first and the newest. */
  predicate WordsSurvive(said: seq<string>, prompts: seq<string>) {
    (Total(prompts) <= MAX_OPERATOR_BYTES ==> said == prompts) &&
    (prompts != [] ==> said != [] && said[0] == prompts[0] && said[|said| - 1] == prompts[|prompts| - 1])
  }

  lemma {:induction false} StandsMeans(w: Wording, messages: seq<Message>, prompts: seq<string>)
    requires SaidHolds(w, messages, prompts)
    ensures WordsSurvive(OperatorMessages(w, messages), prompts)
  {
  }

  /** While none is longer than 8000 bytes, the operator's messages survive any number of
      compactions, word for word and in order as long as they total at most 16 KiB; past
      that the first and the newest still do. */
  lemma {:induction false} OperatorWordsSurvive(w: Wording, id: string, cwd: string, steps: seq<Step>)
    requires WellWorded(w) && Legal(Init(id, cwd), steps) && FaithfulRun(w, Init(id, cwd), steps)
    requires AllShort(Prompts(steps)) && |Prompts(steps)| < USIZE
    ensures WordsSurvive(OperatorMessages(w, Exec(Init(id, cwd), steps).messages), Prompts(steps))
  {
    RunKeepsWords(w, id, cwd, steps);
    StandsMeans(w, Exec(Init(id, cwd), steps).messages, Prompts(steps));
  }

  // --------------------------------------------------------- counting the calls

  lemma {:induction false} CallCountConcat(a: seq<Message>, b: seq<Message>)
    ensures CallCount(a + b) == CallCount(a) + CallCount(b)
  {
    if a == [] {
      assert a + b == b;
    } else {
      CallCountConcat(a[1..], b);
      assert (a + b)[1..] == a[1..] + b;
    }
  }

  lemma {:induction false} CallCountOne(m: Message)
    ensures CallCount([m]) == |CallsOf(m.blocks)|
  {
    assert [m][1..] == [];
  }

  lemma {:induction false} LinePerCall(blocks: seq<Block>, ended: map<string, (string, bool)>)
    ensures |CallLinesOf(blocks, ended)| == |CallsOf(blocks)|
  {
    if blocks != [] {
      LinePerCall(blocks[1..], ended);
    }
  }

  lemma {:induction false} LinesPerCalls(messages: seq<Message>, ended: map<string, (string, bool)>)
    ensures |CallLines(messages, ended)| == CallCount(messages)
  {
    if messages != [] {
      LinePerCall(messages[0].blocks, ended);
      LinesPerCalls(messages[1..], ended);
    }
  }

  lemma {:induction false} PruneKeepsCalls(messages: seq<Message>, plan: seq<Pruned>)
    ensures CallCount(PruneMessages(messages, plan)) == CallCount(messages)
  {
    if messages != [] {
      PruneKeepsShape(messages[0].blocks, plan);
      PruneKeepsCalls(messages[1..], plan);
      assert PruneMessages(messages, plan)[1..] == PruneMessages(messages[1..], plan);
    }
  }

  lemma {:induction false} CompactMovesCalls(messages: seq<Message>, summary: string, upto: nat)
    requires 1 <= upto <= |messages|
    ensures CallCount(Summarise(messages, summary, |messages| - upto)) + |Adds(messages, upto)| == CallCount(messages)
  {
    var kept := messages[upto..];
    assert messages == messages[..upto] + kept && messages[|messages| - (|messages| - upto)..] == kept;
    CallCountConcat(messages[..upto], kept);
    LinesPerCalls(messages[..upto], OutcomesIn(messages[..upto]));
    assert CallsOf([Text(summary)]) == [];
    if kept != [] && kept[0].role == User {
      CallsOfConcat([Text(summary)], kept[0].blocks);
      CallCountConcat([Message(User, [Text(summary)] + kept[0].blocks)], kept[1..]);
      CallCountOne(Message(User, [Text(summary)] + kept[0].blocks));
    } else {
      CallCountConcat([Message(User, [Text(summary)])], kept);
      CallCountOne(Message(User, [Text(summary)]));
    }
  }

  lemma {:induction false} ResultsMakeNoCalls(messages: seq<Message>, results: seq<Block>)
    requires forall i :: 0 <= i < |results| ==> results[i].ToolResult?
    ensures CallCount(messages + [Message(User, results)]) == CallCount(messages)
  {
    NoCallsOf(results);
    CallCountConcat(messages, [Message(User, results)]);
    CallCountOne(Message(User, results));
  }

  lemma {:induction false} StepCounts(s: State, step: Step)
    requires Enabled(s, step) && Refines(Fold(s.log), s) && PairedSo(s)
    ensures CallCount(Next(s, step).messages) + |Moved(s, step)| ==
      CallCount(s.messages) + (if step.Say? then |CallsIn(Message(step.role, step.blocks))| else 0)
  {
    match step
    case Say(role, blocks) =>
      CallCountConcat(s.messages, [Message(role, blocks)]);
      CallCountOne(Message(role, blocks));
      if role == User {
        NoCallsOf(blocks);
      }
    case Deliver => ResultsMakeNoCalls(s.messages, s.phase.done);
    case Prune(plan) => PruneKeepsCalls(s.messages, plan);
    case Compact(summary, upto) => CompactMovesCalls(s.messages, summary, upto);
    case Crash => CrashMakesNoCalls(s);
    case _ =>
  }

  lemma {:induction false} CrashMakesNoCalls(s: State)
    requires Refines(Fold(s.log), s)
    ensures CallCount(Rebuilt(s.log).messages) == CallCount(s.messages)
  {
    var after := Rebuilt(s.log).messages;
    CrashAdds(s);
    if after != s.messages {
      var results :| AllResults(results) && after == s.messages + [Message(User, results)];
      ResultsMakeNoCalls(s.messages, results);
    }
  }

  lemma {:induction false} NoCallIsLost(id: string, cwd: string, steps: seq<Step>)
    requires Legal(Init(id, cwd), steps)
    ensures |Summarised(Init(id, cwd), steps)| + CallCount(Exec(Init(id, cwd), steps).messages) == CallsMade(steps)
  {
    if steps != [] {
      var before := steps[..|steps| - 1];
      NoCallIsLost(id, cwd, before);
      RunRefines(id, cwd, before);
      RunsStayPaired(id, cwd, before);
      StepCounts(Exec(Init(id, cwd), before), steps[|steps| - 1]);
    }
  }

  /** The record a conversation carries is exact at every point of every run: the count
      and the listed lines are all the calls summarised so far, the list is the
      newest 60 in order, and with the calls still in the conversation they are
      all the calls ever made. */
  lemma {:induction false} CallRecordIsExact(w: Wording, id: string, cwd: string, steps: seq<Step>)
    requires WellWorded(w) && Legal(Init(id, cwd), steps) && FaithfulRun(w, Init(id, cwd), steps)
    ensures ExactRecord(w, Exec(Init(id, cwd), steps).messages, Summarised(Init(id, cwd), steps), CallsMade(steps))
  {
    var init, s := Init(id, cwd), Exec(Init(id, cwd), steps);
    var carried, full := CarriedSoFar(init, steps), Summarised(init, steps);
    assert RecordHolds(w, s, carried) by {
      RunRemembers(w, id, cwd, steps);
    }
    assert |full| + CallCount(s.messages) == CallsMade(steps) by {
      NoCallIsLost(id, cwd, steps);
    }
    assert SameLines(carried, full) && (Unreturning(full) ==> carried == full) by {
      CarriedAsSummarised(init, steps);
    }
    RecordSays(w, s, carried, full, CallsMade(steps));
  }

  /** The record at the front of a conversation accounts for the calls summarised so far,
      `full`, and for all `made`: the carried count and the listed lines are all of `full`,
      the list is its newest 60 in order, and with the calls still in the conversation they
      are all the calls ever made. Only carriage returns at the ends of lines may be lost. */
  predicate ExactRecord(w: Wording, messages: seq<Message>, full: seq<string>, made: nat) {
    var listed := Listed(w, messages);
    var shown := if |full| > MAX_CALLS then MAX_CALLS else |full|;
    SameLines(Kept(listed), full[|full| - shown..]) &&
    (Unreturning(full) ==> Kept(listed) == full[|full| - shown..]) &&
    Dropped(listed) + |Kept(listed)| == |full| &&
    |full| + CallCount(messages) == made
  }

  lemma {:induction false} RecordSays(w: Wording, s: State, carried: seq<string>, full: seq<string>, made: nat)
    requires RecordHolds(w, s, carried) && SameLines(carried, full) && (Unreturning(full) ==> carried == full)
    requires |full| + CallCount(s.messages) == made
    ensures ExactRecord(w, s.messages, full, made)
  {
    ShownRecordSays(Listed(w, s.messages), carried, full);
  }

  lemma {:induction false} ShownRecordSays(listed: seq<string>, carried: seq<string>, full: seq<string>)
    requires listed == Shown(0, carried) && AllArrowed(carried)
    requires SameLines(carried, full) && (Unreturning(full) ==> carried == full)
    ensures var shown := if |full| > MAX_CALLS then MAX_CALLS else |full|;
      SameLines(Kept(listed), full[|full| - shown..]) &&
      (Unreturning(full) ==> Kept(listed) == full[|full| - shown..]) &&
      Dropped(listed) + |Kept(listed)| == |full|
  {
    var n := |full| - if |full| > MAX_CALLS then MAX_CALLS else |full|;
    assert Kept(listed) == carried[n..] && Dropped(listed) + |Kept(listed)| == |full| by {
      ArrowedIsNoCount(carried);
      ShownSays(carried);
    }
    assert SameLines(carried[n..], full[n..]) by {
      NewestAreSame(carried, full, n);
    }
  }

  lemma {:induction false} NewestAreSame(a: seq<string>, b: seq<string>, n: nat)
    requires SameLines(a, b) && n <= |a|
    ensures SameLines(a[n..], b[n..])
  {
  }

  // ------------------------------------------------------ every line's outcome

  lemma {:induction false} OutcomesHave(rs: seq<Block>, k: nat)
    requires AllResults(rs) && k < |rs|
    ensures rs[k].id in Outcomes(rs)
    ensures DistinctResults(rs) ==> Outcomes(rs)[rs[k].id] == (rs[k].content, rs[k].isError)
  {
    var n := |rs| - 1;
    if k < n {
      OutcomesHave(rs[..n], k);
      assert DistinctResults(rs) ==> DistinctResults(rs[..n]);
    }
  }

  lemma {:induction false} ResultIdFound(blocks: seq<Block>, id: string)
    requires id in ResultIds(blocks)
    ensures exists b :: b in ResultsOf(blocks) && b.ToolResult? && b.id == id
  {
    var n := |blocks| - 1;
    ResultIdsConcat(blocks[..n], [blocks[n]]);
    assert blocks == blocks[..n] + [blocks[n]];
    assert [blocks[n]][1..] == [];
    if id in ResultIds(blocks[..n]) {
      ResultIdFound(blocks[..n], id);
      var b :| b in ResultsOf(blocks[..n]) && b.ToolResult? && b.id == id;
      assert b in ResultsOf(blocks);
    } else {
      assert blocks[n] in ResultsOf(blocks);
    }
  }

  lemma {:induction false} ResultsInclude(messages: seq<Message>, k: nat, b: Block)
    requires k < |messages| && b in ResultsOf(messages[k].blocks)
    ensures b in Results(messages)
  {
    var n := |messages| - 1;
    if k < n {
      ResultsInclude(messages[..n], k, b);
    }
  }

  lemma {:induction false} CallIdFound(blocks: seq<Block>, j: nat)
    requires j < |blocks| && blocks[j].ToolUse?
    ensures blocks[j].id in CallIds(CallsOf(blocks)) && CallsOf(blocks) != []
  {
    var here, rest := CallsOf([blocks[0]]), CallsOf(blocks[1..]);
    assert blocks == [blocks[0]] + blocks[1..];
    CallsOfConcat([blocks[0]], blocks[1..]);
    assert CallIds(here + rest) == CallIds(here) + CallIds(rest);
    if j > 0 {
      CallIdFound(blocks[1..], j - 1);
    } else {
      assert here == [Call(blocks[0].id, blocks[0].name, blocks[0].input)];
      assert CallIds(here)[0] == blocks[0].id;
    }
  }

  /** No line of the record says "no result": a call cut off is cut off with its answer. */
  lemma {:induction false} EveryLineHasAnOutcome(messages: seq<Message>, upto: nat, i: nat, j: nat)
    requires WellPaired(messages) && Boundary(messages, upto)
    requires i < upto && j < |messages[i].blocks| && messages[i].blocks[j].ToolUse?
    ensures messages[i].blocks[j].id in OutcomesIn(messages[..upto])
  {
    var id, slice := messages[i].blocks[j].id, messages[..upto];
    assert PairedAt(messages, i);
    CallIdFound(messages[i].blocks, j);
    assert AnsweredBy(messages[i], messages[i + 1]);
    ResultIdsNone(messages[i + 1].blocks);
    assert IsResults(messages[i + 1]) && i + 1 < upto;
    assert slice[i + 1] == messages[i + 1];
    OutcomeIn(slice, i + 1, id);
  }

  lemma {:induction false} OutcomeIn(messages: seq<Message>, k: nat, id: string)
    requires k < |messages| && id in ResultIds(messages[k].blocks)
    ensures id in OutcomesIn(messages)
  {
    ResultIdFound(messages[k].blocks, id);
    var b :| b in ResultsOf(messages[k].blocks) && b.ToolResult? && b.id == id;
    ResultsInclude(messages, k, b);
    ResultsAreResults(messages);
    var n :| 0 <= n < |Results(messages)| && Results(messages)[n] == b;
    OutcomesHave(Results(messages), n);
  }

  /** Wherever in a run a compaction cuts, every call it records has its outcome. */
  lemma {:induction false} RecordedCallsHaveOutcomes(id: string, cwd: string, steps: seq<Step>, upto: nat, i: nat, j: nat)
    requires Legal(Init(id, cwd), steps)
    requires var s := Exec(Init(id, cwd), steps);
      s.phase.Idle? && Boundary(s.messages, upto) && i < upto && j < |s.messages[i].blocks| && s.messages[i].blocks[j].ToolUse?
    ensures var s := Exec(Init(id, cwd), steps); s.messages[i].blocks[j].id in OutcomesIn(s.messages[..upto])
  {
    RunsStayPaired(id, cwd, steps);
    EveryLineHasAnOutcome(Exec(Init(id, cwd), steps).messages, upto, i, j);
  }

  /** With ids distinct across a session, each line gives its own call's outcome. */
  lemma {:induction false} OutcomeIsItsOwn(messages: seq<Message>, b: Block)
    requires AllResults(Results(messages)) && DistinctResults(Results(messages)) && b in Results(messages)
    ensures b.id in OutcomesIn(messages) && OutcomesIn(messages)[b.id] == (b.content, b.isError)
  {
    var k :| 0 <= k < |Results(messages)| && Results(messages)[k] == b;
    OutcomesHave(Results(messages), k);
  }
}
