/** A call record that is not read back as it was written (agent/src/compact.rs). */
module LostReturn {
  import opened Conversation
  import opened Markers
  import opened Pruning
  import opened Summary
  import opened Remembering
  import opened CallMemory
  import opened OperatorMemory

  /** An error's text that ends in a carriage return ends its call's line in one. */
  lemma {:induction false} ReturnEndsLine(b: Block, ended: map<string, (string, bool)>, text: string)
    requires b.ToolUse? && '\n' !in text && |text| < CALL_DETAIL_BYTES && b.id in ended && ended[b.id] == (text + "\r", true)
    ensures EndsIn(CallLine(b, ended), '\r')
    ensures '\n' !in b.name && '\n' !in Shorten(b.input.printed) ==> '\n' !in CallLine(b, ended)
  {
    var content := text + "\r";
    LineThenRest(content, "");
    assert Lines(content)[0] == content;
    var head := b.name + " " + Shorten(b.input.printed) + ARROW;
    assert CallLine(b, ended) == head + ("error: " + content);
    assert CallLine(b, ended)[|CallLine(b, ended)| - 1] == '\r';
  }

  lemma {:induction false} OkLine(b: Block, ended: map<string, (string, bool)>)
    requires b.ToolUse? && b.id in ended && !ended[b.id].1 && '\n' !in b.name && '\n' !in Shorten(b.input.printed)
    ensures '\n' !in CallLine(b, ended)
  {
  }

  const FAILED := ToolUse("a", "t", Input(Obj(map[]), "{}"))
  const PASSED := ToolUse("b", "t", Input(Obj(map[]), "{}"))

  /** A response of two calls, the first of which failed saying `boom` and a carriage return. */
  const BOOM := [
    Message(Assistant, [FAILED, PASSED]),
    Message(User, [ToolResult("a", "boom\r", true), ToolResult("b", "", false)])]

  lemma {:induction false} ResultsOfTwo(x: Block, y: Block)
    ensures ResultsOf([x, y]) == (if x.ToolResult? then [x] else []) + (if y.ToolResult? then [y] else [])
  {
    assert [x, y][..1] == [x] && [x][..0] == [];
    assert ResultsOf([x]) == ResultsOf([]) + (if x.ToolResult? then [x] else []);
  }

  lemma {:induction false} ResultsInTwo(m: Message, n: Message)
    ensures Results([m, n]) == ResultsOf(m.blocks) + ResultsOf(n.blocks)
  {
    assert [m, n][..1] == [m] && [m][..0] == [];
    assert Results([m]) == Results([]) + ResultsOf(m.blocks);
  }

  lemma {:induction false} OutcomesOfTwo(x: Block, y: Block)
    requires x.ToolResult? && y.ToolResult?
    ensures Outcomes([x, y]) == map[x.id := (x.content, x.isError)][y.id := (y.content, y.isError)]
  {
    assert [x, y][..1] == [x] && [x][..0] == [];
    assert Outcomes([x]) == Outcomes([])[x.id := (x.content, x.isError)];
  }

  lemma {:induction false} BoomOutcomes()
    ensures OutcomesIn(BOOM) == map["a" := ("boom\r", true), "b" := ("", false)]
  {
    var failed, passed := ToolResult("a", "boom\r", true), ToolResult("b", "", false);
    ResultsOfTwo(FAILED, PASSED);
    ResultsOfTwo(failed, passed);
    ResultsInTwo(BOOM[0], BOOM[1]);
    assert Results(BOOM) == [failed, passed];
    OutcomesOfTwo(failed, passed);
  }

  lemma {:induction false} BoomLines(w: Wording, ended: map<string, (string, bool)>)
    ensures AllLines(w, BOOM, ended) == [CallLine(FAILED, ended), CallLine(PASSED, ended)]
  {
    AllLinesWithoutSummary(w, BOOM, ended);
    var calls, results := BOOM[0].blocks, BOOM[1].blocks;
    assert calls[1..] == [PASSED] && [PASSED][1..] == [];
    assert results[1..] == [results[1]] && [results[1]][1..] == [];
    assert BOOM[1..] == [BOOM[1]] && [BOOM[1]][1..] == [];
    assert CallLinesOf([PASSED], ended) == [CallLine(PASSED, ended)];
    assert CallLinesOf(calls, ended) == [CallLine(FAILED, ended)] + [CallLine(PASSED, ended)];
    assert CallLinesOf(results, ended) == [];
    assert CallLines([BOOM[1]], ended) == [];
  }

  lemma {:induction false} BoomRecord(w: Wording)
    ensures var ended := OutcomesIn(BOOM); CallRecord(w, BOOM) == [CallLine(FAILED, ended), CallLine(PASSED, ended)]
  {
    var ended := OutcomesIn(BOOM);
    var lines := [CallLine(FAILED, ended), CallLine(PASSED, ended)];
    BoomLines(w, ended);
    CallLineIsArrowed(FAILED, ended);
    CallLineIsArrowed(PASSED, ended);
    NothingDropped(lines);
    assert lines[0..] == lines;
  }

  lemma {:induction false} BoomSaysNothing(w: Wording)
    ensures OperatorMessages(w, BOOM) == []
  {
    ResultsSayNothing(w, BOOM[1].blocks);
    assert BOOM[1..] == [BOOM[1]];
    SaidFirst(w, BOOM);
    SaidOne(w, BOOM[1]);
  }

  lemma {:induction false} BoomSummary(w: Wording)
    ensures SummaryMessage(w, BOOM, 2, "") == Printed(w, "", CallRecord(w, BOOM), [], true)
  {
    BoomSaysNothing(w);
    assert BOOM[..2] == BOOM;
    assert Cut([]) == [];
  }

  /** Its record is not read back as it was written: the first line has lost its end. */
  lemma {:induction false} CarriageReturnIsLost(w: Wording)
    requires WellWorded(w)
    ensures ListedIn(w, SummaryMessage(w, BOOM, 2, "")) != CallRecord(w, BOOM)
  {
    assert |"\n\n" + ""| == 2 && CleanNotes(w, "");
    BoomSummary(w);
    BoomRecord(w);
    BoomLinesEnd();
    CallsReadBackIff(w, "", CallRecord(w, BOOM), [], true);
  }

  lemma {:induction false} BoomLinesEnd()
    ensures var ended := OutcomesIn(BOOM);
      EndsIn(CallLine(FAILED, ended), '\r') && '\n' !in CallLine(FAILED, ended) && '\n' !in CallLine(PASSED, ended)
  {
    BoomOutcomes();
    assert "boom" + "\r" == "boom\r";
    ReturnEndsLine(FAILED, OutcomesIn(BOOM), "boom");
    OkLine(PASSED, OutcomesIn(BOOM));
  }
}
