/** A conversation that one plan does not finish (agent/src/compact.rs): the note on a read
    that is superseded names its path, and with a long path is larger than what was read. */
module LongPath {
  import opened Conversation
  import opened Bytes
  import opened Rewriting
  import opened Sizes
  import opened Pruning

  function Filler(n: nat): (s: string)
    ensures |s| == n && (n > 0 ==> s[0] == 'x')
  {
    seq(n, _ => 'x')
  }

  const PATH := Filler(500)
  const FILE := Input(Obj(map["path" := Str(PATH)]), "")

  /** Three calls of one response: a search, a read of a file, and a change to it. */
  const CALLS := [ToolUse("a", "grep", Input(Obj(map[]), "")), ToolUse("b", "read", FILE), ToolUse("c", "edit", FILE)]
  const RESULTS := [ToolResult("a", Filler(300), false), ToolResult("b", Filler(60), false), ToolResult("c", "ok", false)]
  const MESSAGES := [Message(Assistant, CALLS), Message(User, RESULTS)]

  const RATE: Rate := 1.0
  const LIMITS := Limits(200, 400, 200)

  /** The limits of a window of a thousand tokens. */
  lemma {:induction false} LimitsAreOfAWindow()
    ensures LIMITS == LimitsFor(Some(1000))
  {
  }

  lemma {:induction false} OneByteATime(n: nat)
    ensures Tokens(n, RATE) == n
  {
  }

  lemma {:induction false} ResultsAmong(blocks: seq<Block>)
    ensures AllResults(blocks) ==> ResultsOf(blocks) == blocks
    ensures (forall i :: 0 <= i < |blocks| ==> !blocks[i].ToolResult?) ==> ResultsOf(blocks) == []
  {
    if blocks != [] {
      ResultsAmong(blocks[..|blocks| - 1]);
    }
  }

  lemma {:induction false} TheResults()
    ensures Results(MESSAGES) == RESULTS
  {
    ResultsAmong(CALLS);
    ResultsAmong(RESULTS);
    assert MESSAGES[..1] == [MESSAGES[0]] && MESSAGES[..1][..0] == [];
    assert Results(MESSAGES[..1]) == [];
  }

  lemma {:induction false} TheSuperseded()
    ensures Superseded(MESSAGES) == map["b" := PATH]
  {
    TheResults();
    assert Failed(MESSAGES) == {};
    assert PlainPath(PATH) == PATH;
    TheFileCalls();
    var none := (Json.Null, Json.Null);
    var calls := [FileCall("b", "read", PATH, none), FileCall("c", "edit", PATH, none)];
    assert FileCalls(MESSAGES, {}) == calls;
    assert Overtakes(calls[1], calls[0]) && IsStale(calls, 0) && !IsStale(calls, 1);
    assert StaleAmong(calls, 1) == StaleAmong(calls, 0)["b" := PATH];
  }

  lemma {:induction false} TheFileCalls()
    ensures FileCalls(MESSAGES, {}) ==
      [FileCall("b", "read", PlainPath(PATH), (Json.Null, Json.Null)), FileCall("c", "edit", PlainPath(PATH), (Json.Null, Json.Null))]
  {
    var b, c := FileCallOf(CALLS[1], {}), FileCallOf(CALLS[2], {});
    assert Get(FILE.json, "path") == Str(PATH) && Get(FILE.json, "offset") == Null && Get(FILE.json, "limit") == Null;
    assert CALLS[1..] == [CALLS[1], CALLS[2]] && CALLS[1..][1..] == [CALLS[2]] && CALLS[1..][1..][1..] == [];
    assert FileCallsOf(CALLS[1..][1..], {}) == [c.value] && FileCallsOf(CALLS[1..], {}) == [b.value, c.value];
    assert FileCallOf(CALLS[0], {}) == None && FileCallsOf(CALLS, {}) == [b.value, c.value];
    assert RESULTS[1..][1..][1..] == [];
    assert FileCallsOf(RESULTS[1..][1..], {}) == [] && FileCallsOf(RESULTS[1..], {}) == [] && FileCallsOf(RESULTS, {}) == [];
    assert MESSAGES[1..] == [MESSAGES[1]] && MESSAGES[1..][1..] == [];
    assert FileCalls(MESSAGES[1..], {}) == [];
  }

  const STALE := map["b" := PATH]

  lemma {:induction false} FirstPlan()
    ensures PlanFor(RESULTS, STALE, RATE, LIMITS) == [ElidedNote(RESULTS[1], PATH, RATE)]
  {
    OneByteATime(300);
    OneByteATime(60);
    OneByteATime(2);
    assert SizeFrom(RESULTS, RATE, 3) == 0 && SizeFrom(RESULTS, RATE, 2) == 2 && SizeFrom(RESULTS, RATE, 1) == 62;
    assert !IsNote(RESULTS[1].content);
    assert Elides(RESULTS, STALE, RATE, 1) && !Elides(RESULTS, STALE, RATE, 0) && !Elides(RESULTS, STALE, RATE, 2);
    assert Elided(RESULTS, STALE, RATE, 3) == [] && Elided(RESULTS, STALE, RATE, 2) == [];
    assert Elided(RESULTS, STALE, RATE, 1) == [ElidedNote(RESULTS[1], PATH, RATE)];
    assert forall k :: 0 <= k < |RESULTS| ==> !Truncates(RESULTS, STALE, RATE, 400, k);
    assert Saved(RESULTS, STALE, RATE, 400, 3) == 0 && Saved(RESULTS, STALE, RATE, 400, 2) == 0;
    assert Saved(RESULTS, STALE, RATE, 400, 1) == 0 && Saved(RESULTS, STALE, RATE, 400, 0) == 0;
  }

  /** What the first plan leaves, and what it then pays to truncate. */
  lemma {:induction false} SecondPlan(after: seq<Block>, note: string)
    requires after == [RESULTS[0], RESULTS[1].(content := note), RESULTS[2]] && |note| >= 400
    ensures AllResults(after) && PlanFor(after, STALE, RATE, LIMITS) != []
  {
    OneByteATime(300);
    OneByteATime(|note|);
    OneByteATime(2);
    OneByteATime(|TruncationNote(300)|);
    assert SizeFrom(after, RATE, 3) == 0 && SizeFrom(after, RATE, 2) == 2 && SizeFrom(after, RATE, 1) >= 400;
    assert !IsNote(after[0].content) && Truncates(after, STALE, RATE, 400, 0);
    assert |Decimal(300)| <= 31 && Saving(after[0], RATE) >= 200;
    assert Saved(after, STALE, RATE, 400, 0) >= 200;
    TruncatedHas(after, STALE, RATE, 400, 0, 0);
  }

  lemma {:induction false} AfterOne(note: Pruned)
    requires note.id == "b"
    ensures PruneBlocks(RESULTS, [note]) == [RESULTS[0], RESULTS[1].(content := note.content), RESULTS[2]]
  {
    var plan := [note];
    assert plan[1..] == [];
    assert Replacement(plan, "a") == None && Replacement(plan, "b") == Some(note.content) && Replacement(plan, "c") == None;
  }

  lemma {:induction false} PlanOnce(messages: seq<Message>) returns (note: Pruned)
    requires Results(messages) == RESULTS && Superseded(messages) == STALE
    ensures PrunePlan(messages, RATE, LIMITS) == [note] && note.id == "b" && |note.content| >= 400
  {
    FirstPlan();
    note := ElidedNote(RESULTS[1], PATH, RATE);
  }

  lemma {:induction false} ReplannedFrom(messages: seq<Message>, plan: seq<Pruned>, after: seq<Block>)
    requires Results(messages) == RESULTS && Superseded(messages) == STALE && PruneBlocks(RESULTS, plan) == after && AllResults(after)
    ensures PrunePlan(PruneMessages(messages, plan), RATE, LIMITS) == PlanFor(after, STALE, RATE, LIMITS)
  {
    ResultsPruned(messages, plan);
    SupersededPruned(messages, plan);
  }

  lemma {:induction false} SecondIsNotEmpty(messages: seq<Message>, note: Pruned)
    requires Results(messages) == RESULTS && Superseded(messages) == STALE && note.id == "b" && |note.content| >= 400
    ensures PrunePlan(PruneMessages(messages, [note]), RATE, LIMITS) != []
  {
    var after := PruneBlocks(RESULTS, [note]);
    AfterOne(note);
    SecondPlan(after, note.content);
    ReplannedFrom(messages, [note], after);
  }

  lemma {:induction false} Example() returns (messages: seq<Message>)
    ensures Results(messages) == RESULTS && Superseded(messages) == STALE
    ensures AllResults(Results(messages)) && DistinctResults(Results(messages))
  {
    messages := MESSAGES;
    TheResults();
    TheSuperseded();
  }

  /** So one plan is not always the last: the second truncates the search. */
  lemma {:induction false} OnePlanIsNotEnough() returns (messages: seq<Message>)
    ensures AllResults(Results(messages)) && DistinctResults(Results(messages))
    ensures PrunePlan(PruneMessages(messages, PrunePlan(messages, RATE, LIMITS)), RATE, LIMITS) != []
  {
    messages := Example();
    var note := PlanOnce(messages);
    SecondIsNotEmpty(messages, note);
  }
}
