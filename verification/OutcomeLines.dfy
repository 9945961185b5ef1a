/** What the record of calls says of each: the call, and how the result that answers it says
    it went (agent/src/compact.rs). */
module OutcomeLines {
  import opened Conversation
  import opened Markers
  import opened Rewriting
  import opened Pruning
  import opened Remembering
  import opened CallMemory
  import opened Protocol
  import opened Pairing
  import opened Memory

  // --------------------------------------------------------------- what a line tells

  /** A text up to its first line end. */
  function FirstLine(text: string): string {
    var i := IndexOf(text, '\n');
    if i == |text| then text else Unreturned(text[..i])
  }

  /** The line tells the call, and whether its result was an error, and if so how that
      begins. */
  predicate Tells(line: string, use: Block, result: Block)
    requires use.ToolUse? && result.ToolResult?
  {
    line == use.name + " " + Shorten(use.input.printed) + " \U{E2}\U{86}\U{92} " +
      (if result.isError then "error: " + Shorten(FirstLine(result.content)) else "ok")
  }

  lemma {:induction false} FirstLineIs(text: string)
    ensures FirstLine(text) == if Lines(text) == [] then "" else Lines(text)[0]
  {
  }

  lemma {:induction false} LineTells(use: Block, result: Block, ended: map<string, (string, bool)>)
    requires use.ToolUse? && result.ToolResult? && use.id in ended && ended[use.id] == (result.content, result.isError)
    ensures Tells(CallLine(use, ended), use, result)
  {
    FirstLineIs(result.content);
  }

  // --------------------------------------------------------------- each call's own result

  /** The last result recorded under an id is what is known of it. */
  lemma {:induction false} OutcomeIsOfOne(rs: seq<Block>, id: string) returns (k: nat)
    requires AllResults(rs) && id in Outcomes(rs)
    ensures k < |rs| && rs[k].id == id && Outcomes(rs)[id] == (rs[k].content, rs[k].isError)
  {
    var n := |rs| - 1;
    if rs[n].id == id {
      k := n;
    } else {
      k := OutcomeIsOfOne(rs[..n], id);
    }
  }

  /** The calls among the blocks, and of a conversation, in order. */
  function UsesOf(blocks: seq<Block>): seq<Block> {
    if blocks == [] then [] else (if blocks[0].ToolUse? then [blocks[0]] else []) + UsesOf(blocks[1..])
  }

  function Uses(messages: seq<Message>): seq<Block> {
    if messages == [] then [] else UsesOf(messages[0].blocks) + Uses(messages[1..])
  }

  /** One line is of one call. */
  predicate LineFor(line: string, use: Block, ended: map<string, (string, bool)>) {
    use.ToolUse? && line == CallLine(use, ended)
  }

  lemma {:induction false} LinesOfUses(blocks: seq<Block>, ended: map<string, (string, bool)>)
    ensures |CallLinesOf(blocks, ended)| == |UsesOf(blocks)|
    ensures forall k :: 0 <= k < |UsesOf(blocks)| ==> LineFor(CallLinesOf(blocks, ended)[k], UsesOf(blocks)[k], ended)
  {
    if blocks != [] {
      LinesOfUses(blocks[1..], ended);
      var lines, uses := CallLinesOf(blocks[1..], ended), UsesOf(blocks[1..]);
      var first, use := if blocks[0].ToolUse? then [CallLine(blocks[0], ended)] else [], if blocks[0].ToolUse? then [blocks[0]] else [];
      LinesJoin(first, use, lines, uses, ended);
    }
  }

  lemma {:induction false} LinesJoin(a: seq<string>, ua: seq<Block>, b: seq<string>, ub: seq<Block>, ended: map<string, (string, bool)>)
    requires |a| == |ua| && (forall k :: 0 <= k < |ua| ==> LineFor(a[k], ua[k], ended))
    requires |b| == |ub| && (forall k :: 0 <= k < |ub| ==> LineFor(b[k], ub[k], ended))
    ensures |a + b| == |ua + ub| && forall k :: 0 <= k < |ua + ub| ==> LineFor((a + b)[k], (ua + ub)[k], ended)
  {
  }

  lemma {:induction false} LinesOfCalls(messages: seq<Message>, ended: map<string, (string, bool)>)
    ensures |CallLines(messages, ended)| == |Uses(messages)|
    ensures forall k :: 0 <= k < |Uses(messages)| ==> LineFor(CallLines(messages, ended)[k], Uses(messages)[k], ended)
  {
    if messages != [] {
      LinesOfUses(messages[0].blocks, ended);
      LinesOfCalls(messages[1..], ended);
      LinesJoin(CallLinesOf(messages[0].blocks, ended), UsesOf(messages[0].blocks), CallLines(messages[1..], ended), Uses(messages[1..]), ended);
    }
  }

  lemma {:induction false} UseStandsIn(blocks: seq<Block>, k: nat) returns (j: nat)
    requires k < |UsesOf(blocks)|
    ensures j < |blocks| && blocks[j] == UsesOf(blocks)[k]
  {
    var first := if blocks[0].ToolUse? then [blocks[0]] else [];
    if k < |first| {
      j := 0;
    } else {
      j := UseStandsIn(blocks[1..], k - |first|);
      j := j + 1;
    }
  }

  lemma {:induction false} UseStands(messages: seq<Message>, k: nat) returns (i: nat, j: nat)
    requires k < |Uses(messages)|
    ensures i < |messages| && j < |messages[i].blocks| && messages[i].blocks[j] == Uses(messages)[k]
  {
    var first := UsesOf(messages[0].blocks);
    if k < |first| {
      i := 0;
      j := UseStandsIn(messages[0].blocks, k);
    } else {
      i, j := UseStands(messages[1..], k - |first|);
      i := i + 1;
    }
  }

  /** Some result of the call is what its line tells. */
  predicate ToldBy(line: string, use: Block, results: seq<Block>) {
    use.ToolUse? && exists r :: 0 <= r < |results| && results[r].ToolResult? && results[r].id == use.id && Tells(line, use, results[r])
  }

  /** Where a paired conversation is cut, each call before the cut has its line, in order,
      and each line tells a result that answers its call. */
  lemma {:induction false} CutLinesTell(messages: seq<Message>, upto: nat)
    requires WellPaired(messages) && Boundary(messages, upto)
    ensures var lines, uses, results := Adds(messages, upto), Uses(messages[..upto]), Results(messages[..upto]);
      |lines| == |uses| && forall k :: 0 <= k < |uses| ==> ToldBy(lines[k], uses[k], results)
  {
    var slice := messages[..upto];
    var lines, uses, results, ended := Adds(messages, upto), Uses(slice), Results(slice), OutcomesIn(slice);
    LinesOfCalls(slice, ended);
    ResultsAreResults(slice);
    forall k | 0 <= k < |uses|
      ensures ToldBy(lines[k], uses[k], results)
    {
      assert LineFor(lines[k], uses[k], ended);
      var i, j := UseStands(slice, k);
      assert slice[i] == messages[i];
      EveryLineHasAnOutcome(messages, upto, i, j);
      var r := OutcomeIsOfOne(results, uses[k].id);
      LineTells(uses[k], results[r], ended);
    }
  }

  /** Over every run, wherever a compaction cuts. */
  lemma {:induction false} RecordTellsOutcomes(id: string, cwd: string, steps: seq<Step>, upto: nat)
    requires Legal(Init(id, cwd), steps)
    requires var s := Exec(Init(id, cwd), steps); s.phase.Idle? && Boundary(s.messages, upto)
    ensures var s := Exec(Init(id, cwd), steps);
      var lines, uses, results := Adds(s.messages, upto), Uses(s.messages[..upto]), Results(s.messages[..upto]);
      |lines| == |uses| && forall k :: 0 <= k < |uses| ==> ToldBy(lines[k], uses[k], results)
  {
    RunsStayPaired(id, cwd, steps);
    CutLinesTell(Exec(Init(id, cwd), steps).messages, upto);
  }

  /** With ids distinct that is the one result the call has, so an error is never told as a
      success, nor a success as anything but `ok`. */
  lemma {:induction false} LineTellsItsOwn(line: string, use: Block, results: seq<Block>, r: nat)
    requires ToldBy(line, use, results) && AllResults(results) && DistinctResults(results)
    requires r < |results| && results[r].id == use.id
    ensures Tells(line, use, results[r])
  {
    var k :| 0 <= k < |results| && results[k].ToolResult? && results[k].id == use.id && Tells(line, use, results[k]);
    assert k == r;
  }
}
