/** The write-ahead journal of a session and how a session is rebuilt from it
    (agent/src/journal.rs). */
module Journal {
  import opened Conversation
  import opened Rewriting

  /** The result of a call that no process got round to. */
  const NOT_RUN :=
    "not run: the harness restarted before " + "this call ran. Call it again if it is " + "still needed."
  /** And of one that was under way when its process ended. */
  const OUTCOME_UNKNOWN :=
    "outcome unknown: the harness stopped " + "while this call ran, so whether it " +
    "finished, and what it changed, is not " + "known. Check its effects before running " + "it again."

  datatype Record =
    | Session(id: string, cwd: string)
    | Said(role: Role, blocks: seq<Block>)
    | ToolAsked(id: string)
    | ToolStarted(id: string)
    | ToolEnded(id: string, content: string, isError: bool)
    | PrunedResults(results: seq<Pruned>)
    | Compacted(summary: string, keep: nat)

  /** An open call, with the text that is to close it. */
  datatype Interrupted = Interrupted(call: Call, asked: bool, content: string)

  datatype Restored = Restored(
    cwd: Option<string>,
    messages: seq<Message>,
    interrupted: seq<Interrupted>)

  /** What has been read so far about a response's calls. */
  datatype OpenCalls = OpenCalls(
    calls: seq<Call>,
    asked: set<string>,
    started: set<string>,
    results: map<string, (string, bool)>)

  /** What a call without a recorded result is answered with. */
  function Verdict(open: OpenCalls, id: string): string {
    if id in open.started then OUTCOME_UNKNOWN else NOT_RUN
  }

  // ------------------------------------------------------------ closing calls

  /** The answers and the interrupted calls, as the journal closes a response: each
      call takes its result out of the map. */
  function Close(open: OpenCalls): (seq<Block>, seq<Interrupted>)
    decreases |open.calls|
  {
    if open.calls == [] then ([], [])
    else
      var c := open.calls[0];
      var rest := Close(open.(calls := open.calls[1..], results := open.results - {c.id}));
      if c.id in open.results then
        var (content, isError) := open.results[c.id];
        ([ToolResult(c.id, content, isError)] + rest.0, rest.1)
      else
        var verdict := Verdict(open, c.id);
        ([ToolResult(c.id, verdict, true)] + rest.0,
         [Interrupted(c, c.id in open.asked, verdict)] + rest.1)
  }

  /** The same, call by call, with no map being emptied. */
  function Answer(open: OpenCalls, c: Call): Block {
    if c.id in open.results
    then ToolResult(c.id, open.results[c.id].0, open.results[c.id].1)
    else ToolResult(c.id, Verdict(open, c.id), true)
  }

  function Answers(calls: seq<Call>, open: OpenCalls): seq<Block> {
    seq(|calls|, i requires 0 <= i < |calls| => Answer(open, calls[i]))
  }

  function Pending(calls: seq<Call>, open: OpenCalls): seq<Interrupted> {
    if calls == [] then []
    else
      (if calls[0].id in open.results then []
       else [Interrupted(calls[0], calls[0].id in open.asked, Verdict(open, calls[0].id))])
      + Pending(calls[1..], open)
  }

  /** With distinct ids, closing answers every call once, in order, from its own
      record. */
  lemma {:induction false} CloseAnswersEachCall(open: OpenCalls)
    requires Distinct(CallIds(open.calls))
    ensures Close(open) == (Answers(open.calls, open), Pending(open.calls, open))
  {
    CloseAgrees(open, open);
  }

  lemma {:induction false} CloseAgrees(open: OpenCalls, whole: OpenCalls)
    requires Distinct(CallIds(open.calls))
    requires open.asked == whole.asked && open.started == whole.started
    requires forall i :: 0 <= i < |open.calls| ==>
      var id := open.calls[i].id;
      (id in open.results <==> id in whole.results) &&
      (id in open.results ==> open.results[id] == whole.results[id])
    ensures Close(open) == (Answers(open.calls, whole), Pending(open.calls, whole))
    decreases |open.calls|
  {
    if open.calls != [] {
      var c := open.calls[0];
      var rest := open.(calls := open.calls[1..], results := open.results - {c.id});
      var ids := CallIds(open.calls);
      assert forall i :: 0 <= i < |rest.calls| ==> rest.calls[i].id == ids[i + 1] != ids[0];
      CloseAgrees(rest, whole);
      assert Answers(open.calls, whole) == [Answer(whole, c)] + Answers(open.calls[1..], whole);
      assert Close(open).0 == [Answer(whole, c)] + Close(rest).0 == Answers(open.calls, whole);
      assert Close(open).1 == Pending(open.calls, whole);
    } else {
      assert Answers(open.calls, whole) == [];
    }
  }

  // ------------------------------------------------------------------ replay

  datatype Replay = Replay(restored: Restored, open: Option<OpenCalls>)

  const START := Replay(Restored(None, [], []), None)

  function Closed(r: Replay): Restored {
    if r.open.None? then r.restored
    else
      var (blocks, interrupted) := Close(r.open.value);
      r.restored.(messages := r.restored.messages + [Message(User, blocks)],
                  interrupted := r.restored.interrupted + interrupted)
  }

  function Opened(role: Role, blocks: seq<Block>): Option<OpenCalls> {
    if role == Assistant && CallsOf(blocks) != []
    then Some(OpenCalls(CallsOf(blocks), {}, {}, map[]))
    else None
  }

  function Apply(r: Replay, record: Record): Replay {
    match record
    case Session(_, cwd) => r.(restored := r.restored.(cwd := Some(cwd)))
    case Said(role, blocks) =>
      var before := Closed(r);
      Replay(before.(messages := before.messages + [Message(role, blocks)]), Opened(role, blocks))
    case ToolAsked(id) =>
      if r.open.None? then r
      else r.(open := Some(r.open.value.(asked := r.open.value.asked + {id})))
    case ToolStarted(id) =>
      if r.open.None? then r
      else r.(open := Some(r.open.value.(started := r.open.value.started + {id})))
    case ToolEnded(id, content, isError) =>
      if r.open.None? then r
      else r.(open := Some(r.open.value.(results := r.open.value.results[id := (content, isError)])))
    case PrunedResults(results) =>
      var before := Closed(r);
      Replay(before.(messages := PruneMessages(before.messages, results)), None)
    case Compacted(summary, keep) =>
      var before := Closed(r);
      Replay(before.(messages := Summarise(before.messages, summary, keep)), None)
  }

  function Fold(log: seq<Record>): Replay {
    if log == [] then START else Apply(Fold(log[..|log| - 1]), log[|log| - 1])
  }

  /** What a journal stands for. */
  function Rebuilt(log: seq<Record>): Restored {
    Closed(Fold(log))
  }

  lemma FoldAppend(log: seq<Record>, record: Record)
    ensures Fold(log + [record]) == Apply(Fold(log), record)
  {
    assert (log + [record])[..|log|] == log;
  }

  /** The records among the lines read: a line that does not decode is skipped. */
  function Decoded(lines: seq<Option<Record>>): seq<Record> {
    if lines == [] then []
    else
      var last := lines[|lines| - 1];
      Decoded(lines[..|lines| - 1]) + (if last.Some? then [last.value] else [])
  }

  /** The first open call's part of a closing already under way. */
  lemma {:induction false} CloseFirst(open: OpenCalls, blocks: seq<Block>, decided: seq<Interrupted>,
                                      allBlocks: seq<Block>, allDecided: seq<Interrupted>)
    requires open.calls != [] && allBlocks == blocks + Close(open).0 && allDecided == decided + Close(open).1
    ensures var c := open.calls[0];
      var rest := Close(open.(calls := open.calls[1..], results := open.results - {c.id}));
      allBlocks == blocks + [Answer(open, c)] + rest.0 &&
      allDecided == (if c.id in open.results then decided
                     else decided + [Interrupted(c, c.id in open.asked, Verdict(open, c.id))]) + rest.1
  {
  }

  /** Closes the calls of a response, taking each result out of the map. */
  method CloseCalls(open: OpenCalls, out: Restored) returns (closed: Restored)
    ensures closed == Closed(Replay(out, Some(open)))
  {
    var blocks, interrupted, results := [], out.interrupted, open.results;
    ghost var decided := [];
    assert open.(calls := open.calls[0..], results := results) == open;
    for i := 0 to |open.calls|
      invariant Close(open).0 == blocks + Close(open.(calls := open.calls[i..], results := results)).0
      invariant Close(open).1 == decided + Close(open.(calls := open.calls[i..], results := results)).1
      invariant interrupted == out.interrupted + decided
    {
      var c := open.calls[i];
      ghost var before := open.(calls := open.calls[i..], results := results);
      assert before.calls[0] == c && before.calls[1..] == open.calls[i + 1..];
      CloseFirst(before, blocks, decided, Close(open).0, Close(open).1);
      if c.id in results {
        var (content, isError) := results[c.id];
        blocks := blocks + [ToolResult(c.id, content, isError)];
      } else {
        var verdict := if c.id in open.started then OUTCOME_UNKNOWN else NOT_RUN;
        decided := decided + [Interrupted(c, c.id in open.asked, verdict)];
        interrupted := interrupted + [Interrupted(c, c.id in open.asked, verdict)];
        blocks := blocks + [ToolResult(c.id, verdict, true)];
      }
      results := results - {c.id};
    }
    assert open.calls[|open.calls|..] == [];
    assert Close(open).0 == blocks && Close(open).1 == decided;
    closed := out.(messages := out.messages + [Message(User, blocks)], interrupted := interrupted);
  }

  /** A record that ends what came before it: the response still open, if any, is closed. */
  method CloseOpen(out: Restored, open: Option<OpenCalls>) returns (closed: Restored)
    ensures closed == Closed(Replay(out, open))
  {
    closed := out;
    if open.Some? {
      closed := CloseCalls(open.value, out);
    }
  }

  /** A message read back, and the calls it opens. */
  method ReadSaid(out: Restored, open: Option<OpenCalls>, role: Role, blocks: seq<Block>)
    returns (read: Restored, calling: Option<OpenCalls>)
    ensures Replay(read, calling) == Apply(Replay(out, open), Said(role, blocks))
  {
    read := CloseOpen(out, open);
    read := read.(messages := read.messages + [Message(role, blocks)]);
    var calls := CallsOf(blocks);
    calling := if role == Assistant && calls != [] then Some(OpenCalls(calls, {}, {}, map[])) else None;
  }

  /** One record read back. */
  method ReadRecord(out: Restored, open: Option<OpenCalls>, record: Record)
    returns (read: Restored, calling: Option<OpenCalls>)
    ensures Replay(read, calling) == Apply(Replay(out, open), record)
  {
    read, calling := out, open;
    match record {
      case Session(_, cwd) =>
        read := out.(cwd := Some(cwd));
      case Said(role, blocks) =>
        read, calling := ReadSaid(out, open, role, blocks);
      case ToolAsked(id) =>
        if open.Some? {
          calling := Some(open.value.(asked := open.value.asked + {id}));
        }
      case ToolStarted(id) =>
        if open.Some? {
          calling := Some(open.value.(started := open.value.started + {id}));
        }
      case ToolEnded(id, content, isError) =>
        if open.Some? {
          calling := Some(open.value.(results := open.value.results[id := (content, isError)]));
        }
      case PrunedResults(results) =>
        read := CloseOpen(out, open);
        read, calling := read.(messages := PruneMessages(read.messages, results)), None;
      case Compacted(summary, keep) =>
        read := CloseOpen(out, open);
        read, calling := read.(messages := Summarise(read.messages, summary, keep)), None;
    }
  }

  lemma {:induction false} DecodedMore(lines: seq<Option<Record>>, i: nat)
    requires i < |lines|
    ensures Decoded(lines[..i + 1]) == Decoded(lines[..i]) + (if lines[i].Some? then [lines[i].value] else [])
  {
    assert lines[..i + 1][..i] == lines[..i];
  }

  /** Rebuilds a session from the lines of its journal. */
  method Restore(lines: seq<Option<Record>>) returns (out: Restored)
    ensures out == Rebuilt(Decoded(lines))
  {
    out := Restored(None, [], []);
    var open: Option<OpenCalls> := None;
    for i := 0 to |lines|
      invariant Replay(out, open) == Fold(Decoded(lines[..i]))
    {
      DecodedMore(lines, i);
      if lines[i].Some? {
        FoldAppend(Decoded(lines[..i]), lines[i].value);
        out, open := ReadRecord(out, open, lines[i].value);
      } else {
        assert Decoded(lines[..i]) + [] == Decoded(lines[..i]);
      }
    }
    assert lines[..|lines|] == lines;
    out := CloseOpen(out, open);
  }

  // ------------------------------------- why ids within a response are distinct

  /** The results a process keeps in memory, one per call. */
  function LiveResults(calls: seq<Call>, outs: seq<(string, bool)>): seq<Block>
    requires |outs| == |calls|
  {
    seq(|calls|, i requires 0 <= i < |calls| => ToolResult(calls[i].id, outs[i].0, outs[i].1))
  }

  /** What the journal is written as a response's calls are asked about, started and end. */
  function CallRecords(calls: seq<Call>, outs: seq<(string, bool)>): seq<Record>
    requires |outs| == |calls|
  {
    if calls == [] then []
    else
      var n := |calls| - 1;
      CallRecords(calls[..n], outs[..n]) +
      [ToolAsked(calls[n].id), ToolStarted(calls[n].id), ToolEnded(calls[n].id, outs[n].0, outs[n].1)]
  }

  /** The journal of a session that was given a response and answered all its calls. */
  function AnsweredLog(log: seq<Record>, blocks: seq<Block>, outs: seq<(string, bool)>): seq<Record>
    requires |outs| == |CallsOf(blocks)|
  {
    log + [Said(Assistant, blocks)] + CallRecords(CallsOf(blocks), outs)
  }

  /** The same results once journaled: a map by id. */
  function RecordedResults(calls: seq<Call>, outs: seq<(string, bool)>): map<string, (string, bool)>
    requires |outs| == |calls|
  {
    if calls == [] then map[]
    else
      var n := |calls| - 1;
      RecordedResults(calls[..n], outs[..n])[calls[n].id := outs[n]]
  }

  function IdsOf(calls: seq<Call>): set<string> {
    set c | c in calls :: c.id
  }

  /** What the replay holds of the first `n` calls once they have ended. */
  function Recorded(calls: seq<Call>, outs: seq<(string, bool)>, n: nat): OpenCalls
    requires n <= |calls| == |outs|
  {
    OpenCalls(calls, IdsOf(calls[..n]), IdsOf(calls[..n]), RecordedResults(calls[..n], outs[..n]))
  }

  lemma {:induction false} IdsOfMore(calls: seq<Call>, n: nat)
    requires n < |calls|
    ensures IdsOf(calls[..n + 1]) == IdsOf(calls[..n]) + {calls[n].id}
  {
    assert calls[..n + 1] == calls[..n] + [calls[n]];
  }

  lemma {:induction false} FoldThree(log: seq<Record>, a: Record, b: Record, c: Record)
    ensures Fold(log + [a, b, c]) == Apply(Apply(Apply(Fold(log), a), b), c)
  {
    FoldAppend(log, a);
    FoldAppend(log + [a], b);
    FoldAppend(log + [a] + [b], c);
    assert log + [a, b, c] == log + [a] + [b] + [c];
  }

  lemma {:induction false} FoldCallRecords(log: seq<Record>, calls: seq<Call>, outs: seq<(string, bool)>, n: nat)
    requires n <= |calls| == |outs| && Fold(log).open == Some(OpenCalls(calls, {}, {}, map[]))
    ensures Fold(log + CallRecords(calls[..n], outs[..n])) == Fold(log).(open := Some(Recorded(calls, outs, n)))
  {
    if n == 0 {
      assert log + [] == log && IdsOf(calls[..0]) == {};
    } else {
      var m := n - 1;
      FoldCallRecords(log, calls, outs, m);
      var some := log + CallRecords(calls[..m], outs[..m]);
      var a, b := ToolAsked(calls[m].id), ToolStarted(calls[m].id);
      var c := ToolEnded(calls[m].id, outs[m].0, outs[m].1);
      assert calls[..n][..m] == calls[..m] && outs[..n][..m] == outs[..m];
      assert log + CallRecords(calls[..n], outs[..n]) == some + [a, b, c];
      FoldThree(some, a, b, c);
      IdsOfMore(calls, m);
    }
  }

  /** What that journal stands for: the response, and the results its closing gives. */
  lemma {:induction false} RebuiltAnswered(log: seq<Record>, blocks: seq<Block>, outs: seq<(string, bool)>)
    requires |outs| == |CallsOf(blocks)| > 0
    ensures var calls := CallsOf(blocks);
      Rebuilt(AnsweredLog(log, blocks, outs)).messages ==
        Rebuilt(log).messages + [Message(Assistant, blocks)] + [Message(User, Close(Recorded(calls, outs, |calls|)).0)]
  {
    var calls, said := CallsOf(blocks), log + [Said(Assistant, blocks)];
    FoldAppend(log, Said(Assistant, blocks));
    FoldCallRecords(said, calls, outs, |calls|);
    assert calls[..|calls|] == calls && outs[..|outs|] == outs;
  }

  lemma {:induction false} RecordedByOwnId(calls: seq<Call>, outs: seq<(string, bool)>, i: nat)
    requires |outs| == |calls| && i < |calls| && Distinct(CallIds(calls))
    ensures calls[i].id in RecordedResults(calls, outs)
    ensures RecordedResults(calls, outs)[calls[i].id] == outs[i]
  {
    var n := |calls| - 1;
    assert CallIds(calls)[i] == calls[i].id && CallIds(calls)[n] == calls[n].id;
    if i < n {
      assert CallIds(calls[..n]) == CallIds(calls)[..n];
      RecordedByOwnId(calls[..n], outs[..n], i);
    }
  }

  lemma {:induction false} CloseDecides(open: OpenCalls, j: nat)
    requires j < |open.calls|
    requires open.calls[j].id !in open.results || exists i :: 0 <= i < j && open.calls[i].id == open.calls[j].id
    ensures |Close(open).0| == |open.calls|
    ensures Close(open).0[j] == ToolResult(open.calls[j].id, Verdict(open, open.calls[j].id), true)
    decreases |open.calls|
  {
    var c := open.calls[0];
    var rest := open.(calls := open.calls[1..], results := open.results - {c.id});
    if j > 0 {
      if open.calls[j].id in rest.results {
        var i :| 0 <= i < j && open.calls[i].id == open.calls[j].id;
        assert rest.calls[i - 1].id == rest.calls[j - 1].id;
      }
      CloseDecides(rest, j - 1);
    } else if rest.calls != [] {
      CloseLength(rest);
    }
  }

  lemma {:induction false} CloseLength(open: OpenCalls)
    ensures |Close(open).0| == |open.calls|
    decreases |open.calls|
  {
    if open.calls != [] {
      var c := open.calls[0];
      CloseLength(open.(calls := open.calls[1..], results := open.results - {c.id}));
    }
  }

  /** A response and its results come back from the journal as they were lived. */
  ghost predicate ComesBack(log: seq<Record>, blocks: seq<Block>, outs: seq<(string, bool)>)
    requires |outs| == |CallsOf(blocks)|
  {
    Rebuilt(AnsweredLog(log, blocks, outs)).messages ==
      Rebuilt(log).messages + [Message(Assistant, blocks)] + [Message(User, LiveResults(CallsOf(blocks), outs))]
  }

  lemma {:induction false} RestoredAsLived(log: seq<Record>, blocks: seq<Block>, outs: seq<(string, bool)>)
    requires |outs| == |CallsOf(blocks)| > 0 && Distinct(CallIds(CallsOf(blocks)))
    ensures ComesBack(log, blocks, outs)
  {
    RebuiltAnswered(log, blocks, outs);
    ClosedAsLived(CallsOf(blocks), outs);
  }

  lemma {:induction false} ClosedAsLived(calls: seq<Call>, outs: seq<(string, bool)>)
    requires |outs| == |calls| && Distinct(CallIds(calls))
    ensures Close(Recorded(calls, outs, |calls|)).0 == LiveResults(calls, outs)
  {
    var open := Recorded(calls, outs, |calls|);
    CloseAnswersEachCall(open);
    assert calls[..|calls|] == calls && outs[..|outs|] == outs;
    forall i | 0 <= i < |calls|
      ensures Answer(open, calls[i]) == ToolResult(calls[i].id, outs[i].0, outs[i].1)
    {
      RecordedByOwnId(calls, outs, i);
    }
    assert Answers(calls, open) == LiveResults(calls, outs);
  }

  lemma {:induction false} SharedIdLosesResult(log: seq<Record>, blocks: seq<Block>, outs: seq<(string, bool)>, i: nat, j: nat)
    requires |outs| == |CallsOf(blocks)| && i < j < |outs| && CallsOf(blocks)[i].id == CallsOf(blocks)[j].id && !outs[j].1
    ensures !ComesBack(log, blocks, outs)
  {
    var calls := CallsOf(blocks);
    var open, before := Recorded(calls, outs, |calls|), Rebuilt(log).messages;
    RebuiltAnswered(log, blocks, outs);
    CloseDecides(open, j);
    assert Close(open).0[j].isError && !LiveResults(calls, outs)[j].isError;
    var said := before + [Message(Assistant, blocks)];
    assert (said + [Message(User, Close(open).0)])[|said|].blocks == Close(open).0;
    assert (said + [Message(User, LiveResults(calls, outs))])[|said|].blocks == LiveResults(calls, outs);
  }

  /** Whatever the journal held before, a response whose calls were all answered is restored
      as it was lived, whatever they returned, exactly when no two of them share an id. */
  lemma {:induction false} RestoredAsLivedIffDistinct(log: seq<Record>, blocks: seq<Block>)
    requires CallsOf(blocks) != []
    ensures Distinct(CallIds(CallsOf(blocks))) <==>
      forall outs: seq<(string, bool)> | |outs| == |CallsOf(blocks)| :: ComesBack(log, blocks, outs)
  {
    if Distinct(CallIds(CallsOf(blocks))) {
      forall outs: seq<(string, bool)> | |outs| == |CallsOf(blocks)| ensures ComesBack(log, blocks, outs) {
        RestoredAsLived(log, blocks, outs);
      }
    } else {
      var outs := SharedIdFound(log, blocks);
    }
  }

  lemma {:induction false} SharedIdFound(log: seq<Record>, blocks: seq<Block>) returns (outs: seq<(string, bool)>)
    requires !Distinct(CallIds(CallsOf(blocks)))
    ensures |outs| == |CallsOf(blocks)| && !ComesBack(log, blocks, outs)
  {
    var ids := CallIds(CallsOf(blocks));
    var i, j :| 0 <= i < j < |ids| && ids[i] == ids[j];
    outs := seq(|ids|, k => ("", false));
    SharedIdLosesResult(log, blocks, outs, i, j);
  }
}
