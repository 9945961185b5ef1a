/** A session as a state machine: the live conversation, the journal beside it,
    the latest response's calls, and which of them really began. One step per
    thing the harness does that a crash could fall after (agent/src/agent.rs,
    agent/src/server.rs), and the crash itself. */
module Protocol {
  import opened Conversation
  import opened Rewriting
  import opened Journal

  datatype Phase =
    | Idle
    | Answering(done: seq<Block>)          // the last response's calls, answered so far
    | Recovering(todo: seq<Interrupted>)   // results a restart still has to write

  datatype State = State(
    messages: seq<Message>,
    log: seq<Record>,
    phase: Phase,
    calls: seq<Call>,       // of the last response
    started: set<string>,   // of those, recorded as started
    begun: set<string>)     // of those, really handed to their tool

  datatype Step =
    | Say(role: Role, blocks: seq<Block>)          // a prompt, a note or a response
    | Ask(id: string)
    | Start(id: string)                            // recorded as started
    | Begin(id: string)                            // handed to the tool
    | End(content: string, isError: bool)          // the next call's result
    | Deliver                                      // the results join the conversation
    | Prune(plan: seq<Pruned>)
    | Compact(summary: string, upto: nat)
    | Crash                                        // the process dies; the next one restores
    | WriteBack                                    // the next one journals one interrupted call

  function Init(id: string, cwd: string): State {
    State([], [Session(id, cwd)], Idle, [], {}, {})
  }

  /** What each side may put in a message. */
  predicate SpokenBy(role: Role, blocks: seq<Block>) {
    match role
    case User => forall i :: 0 <= i < |blocks| ==> blocks[i].Text?
    case Assistant => forall i :: 0 <= i < |blocks| ==> !blocks[i].ToolResult?
  }

  predicate Enabled(s: State, step: Step) {
    match step
    case Say(role, blocks) =>
      s.phase.Idle? && SpokenBy(role, blocks) && Distinct(CallIds(CallsOf(blocks)))
    case Ask(_) => s.phase.Answering?
    case Start(_) => s.phase.Answering?
    case Begin(id) => s.phase.Answering? && id in s.started
    case End(_, _) => s.phase.Answering? && |s.phase.done| < |s.calls|
    case Deliver => s.phase.Answering? && |s.phase.done| == |s.calls|
    case Prune(_) => s.phase.Idle?
    case Compact(_, upto) => s.phase.Idle? && Boundary(s.messages, upto)
    case Crash => true
    case WriteBack => s.phase.Recovering? && s.phase.todo != []
  }

  function Recover(todo: seq<Interrupted>): Phase {
    if todo == [] then Idle else Recovering(todo)
  }

  function Next(s: State, step: Step): State
    requires Enabled(s, step)
  {
    match step
    case Say(role, blocks) =>
      var calls := CallsIn(Message(role, blocks));
      State(s.messages + [Message(role, blocks)], s.log + [Said(role, blocks)],
            if calls == [] then Idle else Answering([]), calls, {}, {})
    case Ask(id) => s.(log := s.log + [ToolAsked(id)])
    case Start(id) => s.(log := s.log + [ToolStarted(id)], started := s.started + {id})
    case Begin(id) => s.(begun := s.begun + {id})
    case End(content, isError) =>
      var id := s.calls[|s.phase.done|].id;
      s.(log := s.log + [ToolEnded(id, content, isError)],
         phase := Answering(s.phase.done + [ToolResult(id, content, isError)]))
    case Deliver => s.(messages := s.messages + [Message(User, s.phase.done)], phase := Idle)
    case Prune(plan) =>
      s.(messages := PruneMessages(s.messages, plan), log := s.log + [PrunedResults(plan)],
         calls := [], started := {}, begun := {})
    case Compact(summary, upto) =>
      var keep := |s.messages| - upto;
      s.(messages := Summarise(s.messages, summary, keep), log := s.log + [Compacted(summary, keep)],
         calls := [], started := {}, begun := {})
    case Crash =>
      var r := Rebuilt(s.log);
      s.(messages := r.messages, phase := Recover(r.interrupted))
    case WriteBack =>
      var next := s.phase.todo[0];
      s.(log := s.log + [ToolEnded(next.call.id, next.content, true)], phase := Recover(s.phase.todo[1..]))
  }

  /** A run: the states reached from `init` by `steps`, each step allowed where it was taken. */
  predicate Legal(init: State, steps: seq<Step>)
    decreases |steps|, 0
  {
    steps == [] ||
    (Legal(init, steps[..|steps| - 1]) &&
     Enabled(Exec(init, steps[..|steps| - 1]), steps[|steps| - 1]))
  }

  function Exec(init: State, steps: seq<Step>): State
    requires Legal(init, steps)
    decreases |steps|, 1
  {
    if steps == [] then init
    else Next(Exec(init, steps[..|steps| - 1]), steps[|steps| - 1])
  }

  // ------------------------------------------------------- replay refinement

  /** The journal's view of the last response agrees with the process's. */
  predicate Tracks(open: OpenCalls, s: State) {
    open.calls == s.calls && Distinct(CallIds(open.calls)) &&
    open.started == s.started && s.begun <= s.started
  }

  /** Exactly the first calls are answered, as `done` says. */
  predicate AnsweredSoFar(open: OpenCalls, done: seq<Block>) {
    |done| <= |open.calls| &&
    (forall i :: 0 <= i < |done| ==>
      open.calls[i].id in open.results && done[i] == Answer(open, open.calls[i])) &&
    (forall i :: |done| <= i < |open.calls| ==> open.calls[i].id !in open.results)
  }

  predicate Refines(f: Replay, s: State) {
    f.restored.interrupted == [] &&
    (f.open.Some? ==> Tracks(f.open.value, s)) &&
    match s.phase
    case Idle => Closed(f).messages == s.messages && Closed(f).interrupted == []
    case Answering(done) =>
      f.restored.messages == s.messages && f.open.Some? && AnsweredSoFar(f.open.value, done)
    case Recovering(todo) =>
      Closed(f).messages == s.messages && Closed(f).interrupted == todo && todo != []
  }

  lemma {:induction false} PendingNone(calls: seq<Call>, open: OpenCalls)
    requires forall i :: 0 <= i < |calls| ==> calls[i].id in open.results
    ensures Pending(calls, open) == []
  {
    if calls != [] {
      PendingNone(calls[1..], open);
    }
  }

  /** Recording the first pending call as it was answered changes no answer and
      leaves exactly the other pending calls. */
  lemma {:induction false} RecordingPending(calls: seq<Call>, open: OpenCalls, recorded: OpenCalls)
    requires Distinct(CallIds(calls))
    requires Pending(calls, open) != []
    requires var first := Pending(calls, open)[0];
      recorded == open.(results := open.results[first.call.id := (first.content, true)])
    ensures Pending(calls, recorded) == Pending(calls, open)[1..]
    ensures Answers(calls, recorded) == Answers(calls, open)
  {
    var first := Pending(calls, open)[0];
    var ids := CallIds(calls);
    if calls[0].id in open.results {
      assert CallIds(calls[1..]) == ids[1..];
      RecordingPending(calls[1..], open, recorded);
      PendingIsOpen(calls[1..], open);
      assert Answers(calls, recorded) == [Answer(recorded, calls[0])] + Answers(calls[1..], recorded);
      assert Answers(calls, open) == [Answer(open, calls[0])] + Answers(calls[1..], open);
    } else {
      assert first.call == calls[0];
      assert forall i :: 0 <= i < |calls[1..]| ==> calls[1..][i].id == ids[i + 1] != ids[0];
      SamePending(calls[1..], open, recorded);
    }
  }

  lemma {:induction false} PendingIsOpen(calls: seq<Call>, open: OpenCalls)
    ensures forall p :: p in Pending(calls, open) ==>
      p.call in calls && p.call.id !in open.results && p.content == Verdict(open, p.call.id) &&
      p.asked == (p.call.id in open.asked)
  {
    if calls != [] {
      PendingIsOpen(calls[1..], open);
    }
  }

  lemma {:induction false} SamePending(calls: seq<Call>, a: OpenCalls, b: OpenCalls)
    requires a.asked == b.asked && a.started == b.started
    requires forall i :: 0 <= i < |calls| ==> (calls[i].id in a.results <==> calls[i].id in b.results)
    ensures Pending(calls, a) == Pending(calls, b)
  {
    if calls != [] {
      SamePending(calls[1..], a, b);
    }
  }

  lemma RefinesDeliver(f: Replay, s: State)
    requires Refines(f, s) && Enabled(s, Deliver)
    ensures Refines(f, Next(s, Deliver))
  {
    var open := f.open.value;
    CloseAnswersEachCall(open);
    PendingNone(open.calls, open);
    assert Answers(open.calls, open) == s.phase.done;
  }

  lemma RefinesEnd(f: Replay, s: State, content: string, isError: bool)
    requires Refines(f, s) && Enabled(s, End(content, isError))
    ensures Refines(Apply(f, ToolEnded(s.calls[|s.phase.done|].id, content, isError)),
                    Next(s, End(content, isError)))
  {
    var open, n := f.open.value, |s.phase.done|;
    var ids := CallIds(open.calls);
    assert forall i :: 0 <= i < |ids| && i != n ==> ids[i] != ids[n];
  }

  lemma RefinesWriteBack(f: Replay, s: State)
    requires Refines(f, s) && Enabled(s, WriteBack)
    ensures var next := s.phase.todo[0];
      Refines(Apply(f, ToolEnded(next.call.id, next.content, true)), Next(s, WriteBack))
  {
    var next := s.phase.todo[0];
    var open := f.open.value;
    var recorded := open.(results := open.results[next.call.id := (next.content, true)]);
    CloseAnswersEachCall(open);
    CloseAnswersEachCall(recorded);
    assert Closed(f).interrupted == Pending(open.calls, open);
    RecordingPending(open.calls, open, recorded);
  }

  /** Every step keeps the journal a record of the live conversation. */
  lemma {:induction false} StepRefines(s: State, step: Step)
    requires Refines(Fold(s.log), s) && Enabled(s, step)
    ensures Refines(Fold(Next(s, step).log), Next(s, step))
  {
    var f, t := Fold(s.log), Next(s, step);
    if step.Begin? || step.Crash? || step.Deliver? {
      StillRefines(f, s, step);
    } else {
      var record := t.log[|s.log|];
      assert t.log == s.log + [record];
      FoldAppend(s.log, record);
      RecordRefines(f, s, step, record);
    }
  }

  /** A step that writes nothing. */
  lemma {:induction false} StillRefines(f: Replay, s: State, step: Step)
    requires f == Fold(s.log) && Refines(f, s) && Enabled(s, step) && (step.Begin? || step.Crash? || step.Deliver?)
    ensures Refines(f, Next(s, step))
  {
    if step.Deliver? {
      RefinesDeliver(f, s);
    }
  }

  /** A step that writes a record. */
  lemma {:induction false} RecordRefines(f: Replay, s: State, step: Step, record: Record)
    requires Refines(f, s) && Enabled(s, step) && Next(s, step).log == s.log + [record]
    ensures Refines(Apply(f, record), Next(s, step))
  {
    assert Next(s, step).log[|s.log|] == record;
    match step
    case End(content, isError) => RefinesEnd(f, s, content, isError);
    case WriteBack => RefinesWriteBack(f, s);
    case _ =>
  }

  lemma StepKeepsCwd(s: State, step: Step)
    requires Enabled(s, step)
    ensures Fold(Next(s, step).log).restored.cwd == Fold(s.log).restored.cwd
  {
    var t := Next(s, step);
    if |t.log| > |s.log| {
      FoldAppend(s.log, t.log[|s.log|]);
      assert t.log == s.log + [t.log[|s.log|]];
    }
  }

  lemma {:induction false} RunRefines(id: string, cwd: string, steps: seq<Step>)
    requires Legal(Init(id, cwd), steps)
    ensures var s := Exec(Init(id, cwd), steps);
      Refines(Fold(s.log), s) && Fold(s.log).restored.cwd == Some(cwd)
  {
    if steps == [] {
      FoldAppend([], Session(id, cwd));
      assert Init(id, cwd).log == [] + [Session(id, cwd)];
    } else {
      var before, step := steps[..|steps| - 1], steps[|steps| - 1];
      RunRefines(id, cwd, before);
      var s := Exec(Init(id, cwd), before);
      StepRefines(s, step);
      StepKeepsCwd(s, step);
    }
  }

  /** Replay refines the live run: whenever no response is half answered, the
      journal alone gives back the live conversation. */
  lemma ReplayRefinesLiveRun(id: string, cwd: string, steps: seq<Step>)
    requires Legal(Init(id, cwd), steps)
    ensures var s := Exec(Init(id, cwd), steps);
      s.phase.Idle? ==> Rebuilt(s.log) == Restored(Some(cwd), s.messages, [])
  {
    RunRefines(id, cwd, steps);
  }

  // ------------------------------------------------------------ crash safety

  /** Where the records about the last response start: after the last record that
      closes an earlier one. */
  function TailFrom(log: seq<Record>): (n: nat)
    ensures n <= |log|
  {
    if log == [] then 0
    else
      var last := log[|log| - 1];
      if last.Said? || last.PrunedResults? || last.Compacted? then |log|
      else TailFrom(log[..|log| - 1])
  }

  predicate Ended(log: seq<Record>, id: string) {
    exists r :: r in log && r.ToolEnded? && r.id == id
  }

  /** The replay's open calls are exactly what the tail of the journal records. */
  lemma {:induction false} OpenReadsTail(log: seq<Record>)
    ensures var open := Fold(log).open; var tail := log[TailFrom(log)..];
      open.Some? ==>
        forall id ::
          (id in open.value.asked <==> ToolAsked(id) in tail) &&
          (id in open.value.started <==> ToolStarted(id) in tail) &&
          (id in open.value.results <==> Ended(tail, id))
  {
    if log != [] {
      var before, last := log[..|log| - 1], log[|log| - 1];
      OpenReadsTail(before);
      var n := TailFrom(log);
      if n < |log| {
        assert log[n..] == before[n..] + [last];
        assert forall id :: Ended(log[n..], id) <==>
          Ended(before[n..], id) || (last.ToolEnded? && last.id == id);
      } else {
        assert log[n..] == [];
      }
    }
  }

  /** What a restart decides, at any instant of any run: only calls of the last
      response with no recorded result are decided, "outcome unknown" is said of
      exactly those recorded as started, and "not run" of none that began. */
  lemma CrashSafety(id: string, cwd: string, steps: seq<Step>)
    requires Legal(Init(id, cwd), steps)
    ensures var s := Exec(Init(id, cwd), steps); var tail := s.log[TailFrom(s.log)..];
      forall p :: p in Rebuilt(s.log).interrupted ==>
        p.call in s.calls && !Ended(tail, p.call.id) &&
        (p.asked <==> ToolAsked(p.call.id) in tail) &&
        (p.content == NOT_RUN || p.content == OUTCOME_UNKNOWN) &&
        (p.content == OUTCOME_UNKNOWN <==> ToolStarted(p.call.id) in tail) &&
        (p.content == NOT_RUN ==> p.call.id !in s.begun)
  {
    RunRefines(id, cwd, steps);
    var s := Exec(Init(id, cwd), steps);
    OpenReadsTail(s.log);
    var f := Fold(s.log);
    assert NOT_RUN[0] == 'n' && OUTCOME_UNKNOWN[0] == 'o';
    if f.open.Some? {
      CloseAnswersEachCall(f.open.value);
      PendingIsOpen(f.open.value.calls, f.open.value);
    }
  }

  /** Each call of a response a crash fell in comes back with exactly one result, in
      call order: the recorded one, or the decided one. */
  lemma CrashAnswersInOrder(id: string, cwd: string, steps: seq<Step>)
    requires Legal(Init(id, cwd), steps)
    requires Exec(Init(id, cwd), steps).phase.Answering?
    ensures var s := Exec(Init(id, cwd), steps); var messages := Rebuilt(s.log).messages;
      var n := |s.phase.done|;
      |messages| == |s.messages| + 1 && messages[..|s.messages|] == s.messages &&
      var results := messages[|s.messages|];
      results.role == User && |results.blocks| == |s.calls| &&
      (forall i :: 0 <= i < |s.calls| ==> results.blocks[i].ToolResult? && results.blocks[i].id == s.calls[i].id) &&
      n <= |s.calls| && results.blocks[..n] == s.phase.done &&
      (forall i :: n <= i < |s.calls| ==>
        results.blocks[i].content == (if s.calls[i].id in s.started then OUTCOME_UNKNOWN else NOT_RUN))
  {
    RunRefines(id, cwd, steps);
    CloseAnswersEachCall(Fold(Exec(Init(id, cwd), steps).log).open.value);
  }

  /** A step writes at most one record, so every prefix of a journal was the whole
      journal at some instant of the run that wrote it. */
  lemma {:induction false} EveryPrefixWasReached(init: State, steps: seq<Step>, n: nat) returns (k: nat)
    requires Legal(init, steps)
    requires |init.log| <= n <= |Exec(init, steps).log|
    ensures k <= |steps| && Legal(init, steps[..k])
    ensures Exec(init, steps[..k]).log == Exec(init, steps).log[..n]
  {
    if n == |Exec(init, steps).log| {
      k := |steps|;
      assert steps[..k] == steps;
    } else {
      var before := steps[..|steps| - 1];
      k := EveryPrefixWasReached(init, before, n);
      assert before[..k] == steps[..k];
    }
  }

  // ------------------------------------------------ crashes during recovery

  /** The records a restart writes for the calls it decided. */
  function Written(todo: seq<Interrupted>): seq<Record> {
    seq(|todo|, i requires 0 <= i < |todo| => ToolEnded(todo[i].call.id, todo[i].content, true))
  }

  /** A restart that dies after writing any part of what it decided changes
      nothing: the next one rebuilds the same messages and decides exactly the
      rest. */
  lemma RecoverySurvivesCrashes(id: string, cwd: string, steps: seq<Step>, n: nat)
    requires Legal(Init(id, cwd), steps)
    requires n <= |Rebuilt(Exec(Init(id, cwd), steps).log).interrupted|
    ensures var log := Exec(Init(id, cwd), steps).log; var r := Rebuilt(log);
      Rebuilt(log + Written(r.interrupted[..n])) == r.(interrupted := r.interrupted[n..])
  {
    RunRefines(id, cwd, steps);
    var s := Exec(Init(id, cwd), steps);
    StepRefines(s, Crash);
    var _ := WritingBack(Next(s, Crash), Rebuilt(s.log), n);
  }

  lemma {:induction false} WrittenMore(log: seq<Record>, todo: seq<Interrupted>, n: nat)
    requires 0 < n <= |todo|
    ensures log + Written(todo[..n]) ==
      log + Written(todo[..n - 1]) + [ToolEnded(todo[n - 1].call.id, todo[n - 1].content, true)]
  {
    assert Written(todo[..n]) ==
      Written(todo[..n - 1]) + [ToolEnded(todo[n - 1].call.id, todo[n - 1].content, true)];
  }

  /** One decided call journaled: the messages stand, and one less is to be decided. */
  lemma {:induction false} OneWrittenBack(s: State)
    requires Refines(Fold(s.log), s) && Enabled(s, WriteBack)
    ensures var t := Next(s, WriteBack);
      Refines(Fold(t.log), t) && Rebuilt(s.log).interrupted == s.phase.todo &&
      Rebuilt(t.log) == Rebuilt(s.log).(interrupted := s.phase.todo[1..]) &&
      t.log == s.log + [ToolEnded(s.phase.todo[0].call.id, s.phase.todo[0].content, true)] &&
      t.phase == Recover(s.phase.todo[1..])
  {
    var t := Next(s, WriteBack);
    StepRefines(s, WriteBack);
    StepKeepsCwd(s, WriteBack);
  }

  lemma {:induction false} WritingBack(s: State, r: Restored, n: nat) returns (t: State)
    requires Refines(Fold(s.log), s) && r == Rebuilt(s.log)
    requires s.phase == Recover(r.interrupted) && n <= |r.interrupted|
    ensures t.log == s.log + Written(r.interrupted[..n]) && t.phase == Recover(r.interrupted[n..])
    ensures Refines(Fold(t.log), t) && Rebuilt(t.log) == r.(interrupted := r.interrupted[n..])
  {
    if n == 0 {
      t := s;
      assert s.log + Written(r.interrupted[..0]) == s.log;
    } else {
      var u := WritingBack(s, r, n - 1);
      t := Next(u, WriteBack);
      OneWrittenBack(u);
      assert r.interrupted[n - 1..][1..] == r.interrupted[n..];
      WrittenMore(s.log, r.interrupted, n);
    }
  }
}
