/** In every conversation a session can reach, calls and results are paired. */
module Pairing {
  import opened Conversation
  import opened Rewriting
  import opened Journal
  import opened Protocol

  /** `r` answers exactly the calls of `a`, in order. */
  predicate AnsweredBy(a: Message, r: Message) {
    CallsIn(a) != [] && r.role == User && ResultIds(r.blocks) == CallIds(CallsIn(a))
  }

  /** Calls stand only in the model's messages, results only in the others. */
  predicate Placed(m: Message) {
    if m.role == User then CallsOf(m.blocks) == [] else ResultIds(m.blocks) == []
  }

  /** Message `i` with calls is answered by the next, and with results answers the one before. */
  predicate PairedAt(messages: seq<Message>, i: nat)
    requires i < |messages|
  {
    Placed(messages[i]) &&
    (CallsIn(messages[i]) != [] ==> i + 1 < |messages| && AnsweredBy(messages[i], messages[i + 1])) &&
    (ResultIds(messages[i].blocks) != [] ==> 0 < i && AnsweredBy(messages[i - 1], messages[i]))
  }

  predicate WellPaired(messages: seq<Message>) {
    forall i :: 0 <= i < |messages| ==> PairedAt(messages, i)
  }

  /** While a response is being answered, only its own results are missing. */
  predicate PairedSo(s: State) {
    match s.phase
    case Answering(done) =>
      s.messages != [] &&
      var n := |s.messages| - 1;
      WellPaired(s.messages[..n]) && Placed(s.messages[n]) &&
      s.messages[n].role == Assistant && s.calls == CallsIn(s.messages[n]) && s.calls != [] &&
      |done| <= |s.calls| &&
      forall i :: 0 <= i < |done| ==> done[i].ToolResult? && done[i].id == s.calls[i].id
    case _ => WellPaired(s.messages)
  }

  lemma {:induction false} ResultIdsOf(blocks: seq<Block>, ids: seq<string>)
    requires |blocks| == |ids|
    requires forall i :: 0 <= i < |ids| ==> blocks[i].ToolResult? && blocks[i].id == ids[i]
    ensures ResultIds(blocks) == ids && CallsOf(blocks) == []
  {
    if blocks != [] {
      ResultIdsOf(blocks[1..], ids[1..]);
      assert ids == [ids[0]] + ids[1..];
    }
  }

  lemma {:induction false} ResultIdsNone(blocks: seq<Block>)
    ensures ResultIds(blocks) == [] <==> forall i :: 0 <= i < |blocks| ==> !blocks[i].ToolResult?
  {
    if blocks != [] {
      ResultIdsNone(blocks[1..]);
      assert forall i :: 0 < i < |blocks| ==> blocks[i] == blocks[1..][i - 1];
    }
  }

  /** A message that neither calls nor answers may join anywhere. */
  lemma PairedJoin(messages: seq<Message>, m: Message)
    requires WellPaired(messages) && Placed(m) && CallsIn(m) == [] && ResultIds(m.blocks) == []
    ensures WellPaired(messages + [m])
  {
    forall i | 0 <= i < |messages + [m]| ensures PairedAt(messages + [m], i) {
      assert i < |messages| ==> PairedAt(messages, i);
    }
  }

  /** The results complete the response before them. */
  lemma PairedDeliver(messages: seq<Message>, asked: Message, results: Message)
    requires WellPaired(messages) && Placed(asked) && asked.role == Assistant
    requires Placed(results) && AnsweredBy(asked, results)
    ensures WellPaired(messages + [asked] + [results])
  {
    var all := messages + [asked] + [results];
    forall i | 0 <= i < |all| ensures PairedAt(all, i) {
      assert i < |messages| ==> PairedAt(messages, i);
    }
  }

  lemma PairedPrune(messages: seq<Message>, plan: seq<Pruned>)
    requires WellPaired(messages)
    ensures WellPaired(PruneMessages(messages, plan))
  {
    var pruned := PruneMessages(messages, plan);
    forall i | 0 <= i < |messages|
      ensures pruned[i].role == messages[i].role
      ensures CallsOf(pruned[i].blocks) == CallsOf(messages[i].blocks)
      ensures ResultIds(pruned[i].blocks) == ResultIds(messages[i].blocks)
    {
      PruneKeepsShape(messages[i].blocks, plan);
    }
    forall i | 0 <= i < |pruned| ensures PairedAt(pruned, i) {
      assert PairedAt(messages, i);
    }
  }

  lemma {:induction false} PairedSuffix(messages: seq<Message>, upto: nat)
    requires WellPaired(messages) && Boundary(messages, upto)
    ensures WellPaired(messages[upto..])
  {
    var kept := messages[upto..];
    forall i | 0 <= i < |kept| ensures PairedAt(kept, i) {
      assert PairedAt(messages, upto + i);
      if i == 0 {
        ResultIdsNone(kept[0].blocks);
      }
    }
  }

  /** Only a message that neither calls nor answers is changed at the front. */
  lemma {:induction false} PairedFront(front: Message, messages: seq<Message>)
    requires WellPaired(messages) && Placed(front) && CallsIn(front) == [] && ResultIds(front.blocks) == []
    ensures WellPaired([front] + messages)
  {
    var all := [front] + messages;
    forall i | 0 <= i < |all| ensures PairedAt(all, i) {
      if i > 0 {
        assert PairedAt(messages, i - 1) && all[i] == messages[i - 1];
      }
    }
  }

  lemma {:induction false} PairedRefront(front: Message, messages: seq<Message>)
    requires WellPaired(messages) && Placed(front) && CallsIn(front) == [] && ResultIds(front.blocks) == []
    requires messages != [] && messages[0].role == User && ResultIds(messages[0].blocks) == []
    ensures WellPaired([front] + messages[1..])
  {
    var all := [front] + messages[1..];
    assert PairedAt(messages, 0);
    forall i | 0 <= i < |all| ensures PairedAt(all, i) {
      if i > 0 {
        assert PairedAt(messages, i) && all[i] == messages[i];
      }
    }
  }

  /** Cutting at a boundary parts no call from its results. */
  lemma {:induction false} PairedCompact(messages: seq<Message>, summary: string, upto: nat)
    requires WellPaired(messages) && Boundary(messages, upto)
    ensures WellPaired(Summarise(messages, summary, |messages| - upto))
  {
    var kept := messages[upto..];
    assert messages[|messages| - (|messages| - upto)..] == kept;
    PairedSuffix(messages, upto);
    assert CallsOf([Text(summary)]) == [] && ResultIds([Text(summary)]) == [];
    if kept != [] && kept[0].role == User {
      assert PairedAt(kept, 0);
      ResultIdsNone(kept[0].blocks);
      ResultIdsConcat([Text(summary)], kept[0].blocks);
      CallsOfConcat([Text(summary)], kept[0].blocks);
      PairedRefront(Message(User, [Text(summary)] + kept[0].blocks), kept);
    } else {
      PairedFront(Message(User, [Text(summary)]), kept);
    }
  }

  lemma StepKeepsPairing(s: State, step: Step)
    requires Refines(Fold(s.log), s) && PairedSo(s) && Enabled(s, step)
    ensures PairedSo(Next(s, step))
  {
    match step
    case Say(role, blocks) => SayKeepsPairing(s, role, blocks);
    case Deliver =>
      DeliveredIsPaired(s, s.phase.done);
    case Prune(plan) => PairedPrune(s.messages, plan);
    case Compact(summary, upto) => PairedCompact(s.messages, summary, upto);
    case Crash => CrashIsPaired(s);
    case _ =>
  }

  lemma SayKeepsPairing(s: State, role: Role, blocks: seq<Block>)
    requires PairedSo(s) && Enabled(s, Say(role, blocks))
    ensures PairedSo(Next(s, Say(role, blocks)))
  {
    var m := Message(role, blocks);
    NoResultIds(blocks);
    if role == User {
      NoCallsOf(blocks);
    }
    if CallsIn(m) == [] {
      PairedJoin(s.messages, m);
    } else {
      assert (s.messages + [m])[..|s.messages|] == s.messages;
    }
  }

  /** One result per call, in order, completes the response being answered. */
  lemma DeliveredIsPaired(s: State, results: seq<Block>)
    requires PairedSo(s) && s.phase.Answering? && |results| == |s.calls|
    requires forall i :: 0 <= i < |results| ==> results[i].ToolResult? && results[i].id == s.calls[i].id
    ensures WellPaired(s.messages + [Message(User, results)])
  {
    var n := |s.messages| - 1;
    assert s.messages == s.messages[..n] + [s.messages[n]];
    ResultIdsOf(results, CallIds(s.calls));
    PairedDeliver(s.messages[..n], s.messages[n], Message(User, results));
  }

  lemma CrashIsPaired(s: State)
    requires Refines(Fold(s.log), s) && PairedSo(s)
    ensures WellPaired(Rebuilt(s.log).messages)
  {
    if s.phase.Answering? {
      var open := Fold(s.log).open.value;
      CloseAnswersEachCall(open);
      var results := Answers(s.calls, open);
      assert forall i :: 0 <= i < |results| ==> results[i] == Answer(open, s.calls[i]);
      DeliveredIsPaired(s, results);
    }
  }

  /** Every reachable conversation is well paired, through prompts, responses,
      prunes, summaries, crashes and restarts. */
  lemma {:induction false} RunsStayPaired(id: string, cwd: string, steps: seq<Step>)
    requires Legal(Init(id, cwd), steps)
    ensures PairedSo(Exec(Init(id, cwd), steps))
  {
    if steps != [] {
      var before := steps[..|steps| - 1];
      RunsStayPaired(id, cwd, before);
      RunRefines(id, cwd, before);
      StepKeepsPairing(Exec(Init(id, cwd), before), steps[|steps| - 1]);
    }
  }

  /** What a restart rebuilds from the journal of any instant is well paired. */
  lemma RestoredIsPaired(id: string, cwd: string, steps: seq<Step>)
    requires Legal(Init(id, cwd), steps)
    ensures WellPaired(Rebuilt(Exec(Init(id, cwd), steps).log).messages)
  {
    RunsStayPaired(id, cwd, steps);
    RunRefines(id, cwd, steps);
    CrashIsPaired(Exec(Init(id, cwd), steps));
  }
}
