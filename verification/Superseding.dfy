/** Which outputs are out of date, said of the conversation's own blocks
    (agent/src/compact.rs). */
module Superseding {
  import opened Conversation
  import opened Pruning

  /** Every block of the conversation, in order. */
  function BlocksOf(messages: seq<Message>): seq<Block> {
    if messages == [] then [] else messages[0].blocks + BlocksOf(messages[1..])
  }

  // --------------------------------------------------------------- what is meant

  /** A path is what is left of it once the `./`s it starts with are gone. */
  ghost predicate SamePlace(path: string, plain: string) {
    !("./" <= plain) && exists n: nat :: path == Dots(n) + plain
  }

  function Dots(n: nat): string {
    if n == 0 then "" else "./" + Dots(n - 1)
  }

  lemma {:induction false} PlainPathIs(path: string)
    ensures SamePlace(path, PlainPath(path))
  {
    if "./" <= path {
      PlainPathIs(path[2..]);
      var n: nat :| path[2..] == Dots(n) + PlainPath(path[2..]);
      assert path == "./" + path[2..] == Dots(n + 1) + PlainPath(path);
    } else {
      assert path == Dots(0) + path;
    }
  }

  /** No result among the blocks says that the call failed. */
  predicate Succeeded(blocks: seq<Block>, id: string) {
    forall k :: 0 <= k < |blocks| ==> !(blocks[k].ToolResult? && blocks[k].id == id && blocks[k].isError)
  }

  /** A call of one of these tools on the file, which did not fail. */
  predicate Works(blocks: seq<Block>, p: nat, tools: set<string>, path: string)
    requires p < |blocks|
  {
    blocks[p].ToolUse? && blocks[p].name in tools && Succeeded(blocks, blocks[p].id) &&
    Get(blocks[p].input.json, "path").Str? && PlainPath(Get(blocks[p].input.json, "path").text) == path
  }

  /** The two calls ask for the same lines. */
  predicate SameRange(a: Block, b: Block)
    requires a.ToolUse? && b.ToolUse?
  {
    Get(a.input.json, "offset") == Get(b.input.json, "offset") && Get(a.input.json, "limit") == Get(b.input.json, "limit")
  }

  /** The call's output is out of date: it read or edited a file that was edited or written
      later, or read lines that were read again later. */
  predicate OutOfDate(blocks: seq<Block>, p: nat, path: string)
    requires p < |blocks|
  {
    Works(blocks, p, {"read", "edit"}, path) &&
    exists q :: p < q < |blocks| && Replaces(blocks, p, q, path)
  }

  predicate Replaces(blocks: seq<Block>, p: nat, q: nat, path: string)
    requires p < q < |blocks| && blocks[p].ToolUse?
  {
    Works(blocks, q, {"edit", "write"}, path) ||
    (blocks[p].name == "read" && Works(blocks, q, {"read"}, path) && SameRange(blocks[p], blocks[q]))
  }

  // --------------------------------------------------------------- the calls, block by block

  lemma {:induction false} FileCallsConcat(a: seq<Block>, b: seq<Block>, failed: set<string>)
    ensures FileCallsOf(a + b, failed) == FileCallsOf(a, failed) + FileCallsOf(b, failed)
  {
    if a == [] {
      assert a + b == b;
    } else {
      FileCallsConcat(a[1..], b, failed);
      assert (a + b)[1..] == a[1..] + b;
      var c := FileCallOf(a[0], failed);
      Assoc(if c.Some? then [c.value] else [], FileCallsOf(a[1..], failed), FileCallsOf(b, failed));
    }
  }

  lemma {:induction false} FileCallsAreOfBlocks(messages: seq<Message>, failed: set<string>)
    ensures FileCalls(messages, failed) == FileCallsOf(BlocksOf(messages), failed)
  {
    if messages != [] {
      FileCallsAreOfBlocks(messages[1..], failed);
      FileCallsConcat(messages[0].blocks, BlocksOf(messages[1..]), failed);
    }
  }

  /** How many file calls stand before a block. */
  function Before(blocks: seq<Block>, p: nat, failed: set<string>): nat
    requires p <= |blocks|
  {
    |FileCallsOf(blocks[..p], failed)|
  }

  lemma {:induction false} BeforeGrows(blocks: seq<Block>, p: nat, failed: set<string>)
    requires p < |blocks|
    ensures FileCallsOf(blocks[..p + 1], failed) ==
      FileCallsOf(blocks[..p], failed) + (var c := FileCallOf(blocks[p], failed); if c.Some? then [c.value] else [])
  {
    assert blocks[..p + 1] == blocks[..p] + [blocks[p]] && [blocks[p]][1..] == [];
    FileCallsConcat(blocks[..p], [blocks[p]], failed);
  }

  lemma {:induction false} BeforeOrder(blocks: seq<Block>, p: nat, q: nat, failed: set<string>)
    requires p <= q <= |blocks|
    ensures FileCallsOf(blocks[..p], failed) <= FileCallsOf(blocks[..q], failed)
    decreases q - p
  {
    if p < q {
      BeforeOrder(blocks, p, q - 1, failed);
      BeforeGrows(blocks, q - 1, failed);
    }
  }

  /** A file call stands in the list where the ones before it end. */
  lemma {:induction false} CallAt(blocks: seq<Block>, p: nat, failed: set<string>)
    requires p < |blocks| && FileCallOf(blocks[p], failed).Some?
    ensures Before(blocks, p, failed) < |FileCallsOf(blocks, failed)|
    ensures FileCallsOf(blocks, failed)[Before(blocks, p, failed)] == FileCallOf(blocks[p], failed).value
  {
    BeforeGrows(blocks, p, failed);
    BeforeOrder(blocks, p + 1, |blocks|, failed);
    assert blocks[..|blocks|] == blocks;
    assert FileCallsOf(blocks[..p + 1], failed)[Before(blocks, p, failed)] == FileCallOf(blocks[p], failed).value;
  }

  /** And every place in the list is some block's. */
  lemma {:induction false} BlockAt(blocks: seq<Block>, k: nat, failed: set<string>) returns (p: nat)
    requires k < |FileCallsOf(blocks, failed)|
    ensures p < |blocks| && FileCallOf(blocks[p], failed).Some? && Before(blocks, p, failed) == k
    decreases |blocks|
  {
    var n := |blocks| - 1;
    BeforeGrows(blocks, n, failed);
    assert blocks[..n + 1] == blocks;
    if k < Before(blocks, n, failed) {
      p := BlockAt(blocks[..n], k, failed);
      assert blocks[..n][..p] == blocks[..p];
    } else {
      p := n;
    }
  }

  // --------------------------------------------------------------- failures

  lemma {:induction false} BlocksConcat(a: seq<Message>, b: seq<Message>)
    ensures BlocksOf(a + b) == BlocksOf(a) + BlocksOf(b)
  {
    if a == [] {
      assert a + b == b;
    } else {
      BlocksConcat(a[1..], b);
      assert (a + b)[1..] == a[1..] + b && (a + b)[0] == a[0];
      Assoc(a[0].blocks, BlocksOf(a[1..]), BlocksOf(b));
    }
  }

  lemma {:induction false} ResultAmong(blocks: seq<Block>, b: Block)
    ensures b in ResultsOf(blocks) <==> b in blocks && b.ToolResult?
  {
    if blocks != [] {
      var n := |blocks| - 1;
      ResultAmong(blocks[..n], b);
      assert blocks == blocks[..n] + [blocks[n]];
    }
  }

  lemma {:induction false} ResultInBlocks(messages: seq<Message>, b: Block)
    ensures b in Results(messages) <==> b in BlocksOf(messages) && b.ToolResult?
  {
    if messages != [] {
      var n := |messages| - 1;
      ResultInBlocks(messages[..n], b);
      ResultAmong(messages[n].blocks, b);
      assert messages == messages[..n] + [messages[n]];
      BlocksConcat(messages[..n], [messages[n]]);
      assert [messages[n]][1..] == [] && BlocksOf([messages[n]]) == messages[n].blocks + [] == messages[n].blocks;
    }
  }

  lemma {:induction false} FailedIs(messages: seq<Message>, id: string)
    ensures id in Failed(messages) <==> !Succeeded(BlocksOf(messages), id)
  {
    var blocks := BlocksOf(messages);
    if id in Failed(messages) {
      var b :| b in Results(messages) && b.ToolResult? && b.isError && b.id == id;
      ResultInBlocks(messages, b);
      var k :| 0 <= k < |blocks| && blocks[k] == b;
    }
    if !Succeeded(blocks, id) {
      var k :| 0 <= k < |blocks| && blocks[k].ToolResult? && blocks[k].id == id && blocks[k].isError;
      ResultInBlocks(messages, blocks[k]);
    }
  }

  // --------------------------------------------------------------- which are superseded

  function PathIn(b: Block): string
    requires b.ToolUse?
  {
    var path := Get(b.input.json, "path");
    if path.Str? then PlainPath(path.text) else ""
  }

  function RangeOf(b: Block): (Json, Json)
    requires b.ToolUse?
  {
    (Get(b.input.json, "offset"), Get(b.input.json, "limit"))
  }

  /** The call with this id is out of date. */
  predicate CallOutOfDate(blocks: seq<Block>, p: nat, id: string)
    requires p < |blocks|
  {
    blocks[p].ToolUse? && blocks[p].id == id && OutOfDate(blocks, p, PathIn(blocks[p]))
  }

  lemma {:induction false} FileCallIs(messages: seq<Message>, p: nat)
    requires p < |BlocksOf(messages)|
    ensures var blocks := BlocksOf(messages); var c := FileCallOf(blocks[p], Failed(messages));
      (c.Some? <==> blocks[p].ToolUse? && Works(blocks, p, {"read", "edit", "write"}, PathIn(blocks[p]))) &&
      (c.Some? ==> c.value == FileCall(blocks[p].id, blocks[p].name, PathIn(blocks[p]), RangeOf(blocks[p])))
  {
    var b := BlocksOf(messages)[p];
    if b.ToolUse? {
      FailedIs(messages, b.id);
    }
  }

  /** One block's call overtakes another's exactly when it replaces its output. */
  lemma {:induction false} OvertakesIs(messages: seq<Message>, p: nat, q: nat)
    requires p < q < |BlocksOf(messages)|
    requires FileCallOf(BlocksOf(messages)[p], Failed(messages)).Some? && FileCallOf(BlocksOf(messages)[q], Failed(messages)).Some?
    ensures var blocks := BlocksOf(messages);
      var c, d := FileCallOf(blocks[p], Failed(messages)).value, FileCallOf(blocks[q], Failed(messages)).value;
      blocks[p].ToolUse? && (Overtakes(d, c) <==> Replaces(blocks, p, q, PathIn(blocks[p])))
  {
    FileCallIs(messages, p);
    FileCallIs(messages, q);
  }

  lemma {:induction false} InOrder(blocks: seq<Block>, p: nat, q: nat, failed: set<string>)
    requires p < |blocks| && q < |blocks| && FileCallOf(blocks[p], failed).Some? && FileCallOf(blocks[q], failed).Some?
    ensures p < q <==> Before(blocks, p, failed) < Before(blocks, q, failed)
  {
    BeforeGrows(blocks, p, failed);
    if p < q {
      BeforeOrder(blocks, p + 1, q, failed);
    } else {
      BeforeOrder(blocks, q, p, failed);
    }
  }

  lemma {:induction false} OutOfDateIsStale(messages: seq<Message>, p: nat)
    requires p < |BlocksOf(messages)| && FileCallOf(BlocksOf(messages)[p], Failed(messages)).Some?
    ensures var blocks, calls := BlocksOf(messages), FileCalls(messages, Failed(messages));
      var i := Before(blocks, p, Failed(messages));
      i < |calls| && calls[i] == FileCallOf(blocks[p], Failed(messages)).value &&
      blocks[p].ToolUse? && (IsStale(calls, i) <==> OutOfDate(blocks, p, PathIn(blocks[p])))
  {
    var blocks, failed := BlocksOf(messages), Failed(messages);
    var calls := FileCalls(messages, failed);
    FileCallsAreOfBlocks(messages, failed);
    var i := Before(blocks, p, failed);
    CallAt(blocks, p, failed);
    FileCallIs(messages, p);
    if IsStale(calls, i) {
      var j :| i < j < |calls| && Overtakes(calls[j], calls[i]);
      var q := BlockAt(blocks, j, failed);
      CallAt(blocks, q, failed);
      InOrder(blocks, p, q, failed);
      OvertakesIs(messages, p, q);
    }
    if OutOfDate(blocks, p, PathIn(blocks[p])) {
      var q :| p < q < |blocks| && Replaces(blocks, p, q, PathIn(blocks[p]));
      FileCallIs(messages, q);
      CallAt(blocks, q, failed);
      InOrder(blocks, p, q, failed);
      OvertakesIs(messages, p, q);
    }
  }

  /** A call is superseded exactly when it is one, with that id, whose output is out of date:
      a read or edit that did not fail, of a file that was later edited or written without
      failing, or a read of the lines a later read that did not fail asked for too. */
  lemma {:induction false} SupersededIff(messages: seq<Message>, id: string)
    ensures var blocks := BlocksOf(messages);
      id in Superseded(messages) <==> exists p :: 0 <= p < |blocks| && CallOutOfDate(blocks, p, id)
  {
    var blocks, failed := BlocksOf(messages), Failed(messages);
    var calls := FileCalls(messages, failed);
    StaleIds(calls, |calls|, id);
    if id in Superseded(messages) {
      var i :| 0 <= i < |calls| && calls[i].id == id && IsStale(calls, i);
      FileCallsAreOfBlocks(messages, failed);
      var p := BlockAt(blocks, i, failed);
      OutOfDateIsStale(messages, p);
      FileCallIs(messages, p);
      assert CallOutOfDate(blocks, p, id);
    }
    if p :| 0 <= p < |blocks| && CallOutOfDate(blocks, p, id) {
      FileCallIs(messages, p);
      OutOfDateIsStale(messages, p);
    }
  }

  lemma {:induction false} StalePath(calls: seq<FileCall>, n: nat, i: nat)
    requires i < n <= |calls| && IsStale(calls, i) && forall j :: 0 <= j < |calls| && j != i ==> calls[j].id != calls[i].id
    ensures calls[i].id in StaleAmong(calls, n) && StaleAmong(calls, n)[calls[i].id] == calls[i].path
    decreases n
  {
    if i < n - 1 {
      StalePath(calls, n - 1, i);
    }
  }

  /** And what its note names is its own path, when no other call has its id. */
  lemma {:induction false} SupersededByPath(messages: seq<Message>, p: nat)
    requires p < |BlocksOf(messages)| && BlocksOf(messages)[p].ToolUse? && CallOutOfDate(BlocksOf(messages), p, BlocksOf(messages)[p].id)
    requires forall q :: 0 <= q < |BlocksOf(messages)| && q != p && BlocksOf(messages)[q].ToolUse? ==>
      BlocksOf(messages)[q].id != BlocksOf(messages)[p].id
    ensures var b := BlocksOf(messages)[p]; b.id in Superseded(messages) && Superseded(messages)[b.id] == PathIn(b)
  {
    var blocks, failed := BlocksOf(messages), Failed(messages);
    var calls, i := FileCalls(messages, failed), Before(blocks, p, failed);
    FileCallIs(messages, p);
    OutOfDateIsStale(messages, p);
    FileCallsAreOfBlocks(messages, failed);
    forall j | 0 <= j < |calls| && j != i
      ensures calls[j].id != calls[i].id
    {
      var q := BlockAt(blocks, j, failed);
      CallAt(blocks, q, failed);
      FileCallIs(messages, q);
    }
    StalePath(calls, |calls|, i);
  }
}
