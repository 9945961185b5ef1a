/** Which tool outputs are pruned (agent/src/compact.rs). */
module Pruning {
  import opened Conversation
  import opened Bytes
  import opened Rewriting
  import opened Sizes

  // -------------------------------------------------------------- superseded

  /** A successful read, edit or write of a file: its call, path and the lines asked for. */
  datatype FileCall = FileCall(id: string, tool: string, path: string, lines: (Json, Json))

  /** The calls whose result was an error. */
  function Failed(messages: seq<Message>): set<string> {
    set b | b in Results(messages) && b.ToolResult? && b.isError :: b.id
  }

  /** A path without the `./`s it starts with. */
  function PlainPath(path: string): string {
    if "./" <= path then PlainPath(path[2..]) else path
  }

  function FileCallOf(b: Block, failed: set<string>): Option<FileCall> {
    if b.ToolUse? && b.name in {"read", "edit", "write"} && b.id !in failed
       && Get(b.input.json, "path").Str? then
      Some(FileCall(b.id, b.name, PlainPath(Get(b.input.json, "path").text),
                    (Get(b.input.json, "offset"), Get(b.input.json, "limit"))))
    else None
  }

  function FileCallsOf(blocks: seq<Block>, failed: set<string>): seq<FileCall> {
    if blocks == [] then []
    else
      var c := FileCallOf(blocks[0], failed);
      (if c.Some? then [c.value] else []) + FileCallsOf(blocks[1..], failed)
  }

  function FileCalls(messages: seq<Message>, failed: set<string>): seq<FileCall> {
    if messages == [] then []
    else FileCallsOf(messages[0].blocks, failed) + FileCalls(messages[1..], failed)
  }

  /** A later call that makes this one's output useless. */
  predicate Overtakes(later: FileCall, c: FileCall) {
    later.path == c.path &&
    (later.tool in {"edit", "write"} || (c.tool == "read" && later.tool == "read" && later.lines == c.lines))
  }

  predicate IsStale(calls: seq<FileCall>, i: nat)
    requires i < |calls|
  {
    calls[i].tool != "write" && exists j :: i < j < |calls| && Overtakes(calls[j], calls[i])
  }

  /** The stale calls among the first `n`, mapped to their paths. */
  function StaleAmong(calls: seq<FileCall>, n: nat): map<string, string>
    requires n <= |calls|
  {
    if n == 0 then map[]
    else if IsStale(calls, n - 1) then StaleAmong(calls, n - 1)[calls[n - 1].id := calls[n - 1].path]
    else StaleAmong(calls, n - 1)
  }

  function Superseded(messages: seq<Message>): map<string, string> {
    var calls := FileCalls(messages, Failed(messages));
    StaleAmong(calls, |calls|)
  }

  method FindSuperseded(messages: seq<Message>) returns (out: map<string, string>)
    ensures out == Superseded(messages)
  {
    var calls := FileCalls(messages, Failed(messages));
    out := map[];
    for i := 0 to |calls|
      invariant out == StaleAmong(calls, i)
    {
      var c := calls[i];
      if c.tool == "write" {
        continue;
      }
      var later := false;
      for j := i + 1 to |calls|
        invariant later <==> exists k :: i < k < j && Overtakes(calls[k], c)
      {
        later := later || Overtakes(calls[j], c);
      }
      if later {
        out := out[c.id := c.path];
      }
    }
  }

  lemma {:induction false} StaleIds(calls: seq<FileCall>, n: nat, id: string)
    requires n <= |calls|
    ensures id in StaleAmong(calls, n) <==> exists i :: 0 <= i < n && calls[i].id == id && IsStale(calls, i)
  {
    if n > 0 {
      StaleIds(calls, n - 1, id);
    }
  }

  /** The newest successful read, edit or write of a path is never superseded. */
  lemma NewestIsKept(messages: seq<Message>, i: nat)
    requires var calls := FileCalls(messages, Failed(messages));
      i < |calls| &&
      (forall j :: i < j < |calls| ==> calls[j].path != calls[i].path) &&
      (forall j :: 0 <= j < |calls| && j != i ==> calls[j].id != calls[i].id)
    ensures FileCalls(messages, Failed(messages))[i].id !in Superseded(messages)
  {
    var calls := FileCalls(messages, Failed(messages));
    StaleIds(calls, |calls|, calls[i].id);
  }

  // ---------------------------------------------------------------- the plan

  function ResultsOf(blocks: seq<Block>): seq<Block> {
    if blocks == [] then []
    else
      var n := |blocks| - 1;
      ResultsOf(blocks[..n]) + (if blocks[n].ToolResult? then [blocks[n]] else [])
  }

  /** Every tool result, oldest first. */
  function Results(messages: seq<Message>): seq<Block> {
    if messages == [] then []
    else
      var n := |messages| - 1;
      Results(messages[..n]) + ResultsOf(messages[n].blocks)
  }

  function TruncationNote(size: nat): string {
    "[Output truncated - " + Decimal(size) + " tokens]"
  }

  function SupersededNote(path: string, size: nat): string {
    "[Superseded by a later read or change " + "of " + path + " - " + Decimal(size) + " tokens]"
  }

  function SizeOf(b: Block, rate: Rate): nat
    requires b.ToolResult?
  {
    Tokens(|b.content|, rate)
  }

  /** Already a note, as far as the plan looks. */
  predicate IsNote(content: string) {
    "[" <= content && Contains(content, " tokens]")
  }

  /** Too small to be worth a note, or already one. */
  predicate Skipped(b: Block, rate: Rate)
    requires b.ToolResult?
  {
    SizeOf(b, rate) < MIN_PRUNE_RESULT || IsNote(b.content)
  }

  predicate AllResults(rs: seq<Block>) {
    forall i :: 0 <= i < |rs| ==> rs[i].ToolResult?
  }

  /** The tokens of the results from `i` on. */
  function SizeFrom(rs: seq<Block>, rate: Rate, i: nat): nat
    requires AllResults(rs) && i <= |rs|
    decreases |rs| - i
  {
    if i == |rs| then 0 else SizeOf(rs[i], rate) + SizeFrom(rs, rate, i + 1)
  }

  predicate Elides(rs: seq<Block>, stale: map<string, string>, rate: Rate, i: nat)
    requires AllResults(rs) && i < |rs|
  {
    !Skipped(rs[i], rate) && rs[i].id in stale
  }

  predicate Truncates(rs: seq<Block>, stale: map<string, string>, rate: Rate, protect: nat, i: nat)
    requires AllResults(rs) && i < |rs|
  {
    !Skipped(rs[i], rate) && rs[i].id !in stale && SizeFrom(rs, rate, i + 1) >= protect
  }

  function ElidedNote(b: Block, path: string, rate: Rate): Pruned
    requires b.ToolResult?
  {
    Pruned(b.id, SupersededNote(path, SizeOf(b, rate)))
  }

  function TruncatedNote(b: Block, rate: Rate): Pruned
    requires b.ToolResult?
  {
    Pruned(b.id, TruncationNote(SizeOf(b, rate)))
  }

  function Saving(b: Block, rate: Rate): nat
    requires b.ToolResult?
  {
    var size := SizeOf(b, rate);
    size - Min(Tokens(|TruncationNote(size)|, rate), size)
  }

  /** The superseded results from `i` on, newest first. */
  function Elided(rs: seq<Block>, stale: map<string, string>, rate: Rate, i: nat): seq<Pruned>
    requires AllResults(rs) && i <= |rs|
    decreases |rs| - i
  {
    if i == |rs| then []
    else if Elides(rs, stale, rate, i)
    then Elided(rs, stale, rate, i + 1) + [ElidedNote(rs[i], stale[rs[i].id], rate)]
    else Elided(rs, stale, rate, i + 1)
  }

  /** The unprotected results from `i` on, newest first. */
  function Truncated(rs: seq<Block>, stale: map<string, string>, rate: Rate, protect: nat, i: nat): seq<Pruned>
    requires AllResults(rs) && i <= |rs|
    decreases |rs| - i
  {
    if i == |rs| then []
    else if Truncates(rs, stale, rate, protect, i)
    then Truncated(rs, stale, rate, protect, i + 1) + [TruncatedNote(rs[i], rate)]
    else Truncated(rs, stale, rate, protect, i + 1)
  }

  function Saved(rs: seq<Block>, stale: map<string, string>, rate: Rate, protect: nat, i: nat): nat
    requires AllResults(rs) && i <= |rs|
    decreases |rs| - i
  {
    if i == |rs| then 0
    else
      Saved(rs, stale, rate, protect, i + 1) +
      (if Truncates(rs, stale, rate, protect, i) then Saving(rs[i], rate) else 0)
  }

  /** Truncation together saves enough to lose the outputs for. */
  predicate WorthTruncating(rs: seq<Block>, stale: map<string, string>, rate: Rate, limits: Limits)
    requires AllResults(rs)
  {
    Saved(rs, stale, rate, limits.protectOutput, 0) >= limits.minPruneSaving
  }

  function PlanFor(rs: seq<Block>, stale: map<string, string>, rate: Rate, limits: Limits): seq<Pruned>
    requires AllResults(rs)
  {
    Elided(rs, stale, rate, 0) +
    (if WorthTruncating(rs, stale, rate, limits) then Truncated(rs, stale, rate, limits.protectOutput, 0) else [])
  }

  /** The tool outputs to replace. */
  function PrunePlan(messages: seq<Message>, rate: Rate, limits: Limits): seq<Pruned> {
    ResultsAreResults(messages);
    PlanFor(Results(messages), Superseded(messages), rate, limits)
  }

  lemma {:induction false} ResultsOfAreResults(blocks: seq<Block>)
    ensures AllResults(ResultsOf(blocks))
  {
    if blocks != [] {
      ResultsOfAreResults(blocks[..|blocks| - 1]);
    }
  }

  lemma {:induction false} ResultsAreResults(messages: seq<Message>)
    ensures AllResults(Results(messages))
  {
    if messages != [] {
      ResultsAreResults(messages[..|messages| - 1]);
      ResultsOfAreResults(messages[|messages| - 1].blocks);
    }
  }

  /** The running totals of the plan: the output seen, what pruning saves, and the
      two lists of notes. */
  datatype Tally = Tally(newer: nat, saved: nat, planned: seq<Pruned>, elided: seq<Pruned>)

  /** The totals over the results from `i` on. */
  function TallyFrom(rs: seq<Block>, stale: map<string, string>, rate: Rate, protect: nat, i: nat): Tally
    requires AllResults(rs) && i <= |rs|
  {
    Tally(SizeFrom(rs, rate, i), Saved(rs, stale, rate, protect, i),
          Truncated(rs, stale, rate, protect, i), Elided(rs, stale, rate, i))
  }

  /** One more result, an older one. */
  method Count(b: Block, t: Tally, stale: map<string, string>, rate: Rate, protect: nat,
               ghost rs: seq<Block>, ghost i: nat) returns (r: Tally)
    requires AllResults(rs) && i < |rs| && rs[i] == b
    requires t == TallyFrom(rs, stale, rate, protect, i + 1)
    ensures r == TallyFrom(rs, stale, rate, protect, i)
  {
    var size := Tokens(|b.content|, rate);
    var protected := t.newer < protect;
    r := t.(newer := t.newer + size);
    if size < MIN_PRUNE_RESULT || IsNote(b.content) {
      return;
    }
    if b.id in stale {
      r := r.(elided := r.elided + [Pruned(b.id, SupersededNote(stale[b.id], size))]);
      return;
    }
    if protected {
      return;
    }
    var note := TruncationNote(size);
    r := r.(saved := r.saved + (size - Min(Tokens(|note|, rate), size)), planned := r.planned + [Pruned(b.id, note)]);
  }

  /** The results of one message, newest first. */
  method CountMessage(blocks: seq<Block>, t: Tally, stale: map<string, string>, rate: Rate, protect: nat,
                      ghost rs: seq<Block>, ghost older: seq<Block>) returns (r: Tally)
    requires AllResults(rs) && older + ResultsOf(blocks) <= rs
    requires t == TallyFrom(rs, stale, rate, protect, |older| + |ResultsOf(blocks)|)
    ensures r == TallyFrom(rs, stale, rate, protect, |older|)
  {
    r := t;
    var k := |blocks|;
    assert blocks[..k] == blocks;
    while k > 0
      invariant 0 <= k <= |blocks| && older + ResultsOf(blocks[..k]) <= rs
      invariant r == TallyFrom(rs, stale, rate, protect, |older| + |ResultsOf(blocks[..k])|)
    {
      k := k - 1;
      assert blocks[..k + 1][..k] == blocks[..k];
      if blocks[k].ToolResult? {
        r := Count(blocks[k], r, stale, rate, protect, rs, |older| + |ResultsOf(blocks[..k])|);
      }
    }
  }

  /** Newest first, with running totals of the output seen and of what pruning saves. */
  method PlanPrune(messages: seq<Message>, rate: Rate, limits: Limits) returns (plan: seq<Pruned>)
    ensures plan == PrunePlan(messages, rate, limits)
  {
    ResultsAreResults(messages);
    ghost var rs := Results(messages);
    var stale := FindSuperseded(messages);
    var t := Tally(0, 0, [], []);
    var m := |messages|;
    assert messages[..m] == messages;
    while m > 0
      invariant 0 <= m <= |messages| && Results(messages[..m]) <= rs
      invariant t == TallyFrom(rs, stale, rate, limits.protectOutput, |Results(messages[..m])|)
    {
      m := m - 1;
      assert messages[..m + 1][..m] == messages[..m];
      t := CountMessage(messages[m].blocks, t, stale, rate, limits.protectOutput, rs, Results(messages[..m]));
    }
    plan := t.elided + if t.saved < limits.minPruneSaving then [] else t.planned;
  }

  // ------------------------------------------------------------ the fixpoint

  lemma NotesAreNotes(path: string, size: nat)
    ensures IsNote(TruncationNote(size)) && IsNote(SupersededNote(path, size))
  {
    var t, s := TruncationNote(size), SupersededNote(path, size);
    assert OccursAt(t, " tokens]", |t| - 8);
    assert OccursAt(s, " tokens]", |s| - 8);
  }

  /** A truncation note is strictly shorter than the output it replaces. */
  lemma TruncationShortens(b: Block, rate: Rate)
    requires b.ToolResult? && !Skipped(b, rate)
    ensures |TruncationNote(SizeOf(b, rate))| < |b.content|
  {
  }

  predicate DistinctResults(rs: seq<Block>)
    requires AllResults(rs)
  {
    forall i, j :: 0 <= i < j < |rs| ==> rs[i].id != rs[j].id
  }

  /** A superseded result is in the plan, under its own note. */
  lemma {:induction false} ElidedHas(rs: seq<Block>, stale: map<string, string>, rate: Rate, i: nat, k: nat)
    requires AllResults(rs) && i <= k < |rs| && Elides(rs, stale, rate, k)
    ensures ElidedNote(rs[k], stale[rs[k].id], rate) in Elided(rs, stale, rate, i)
    decreases k - i
  {
    if i < k {
      ElidedHas(rs, stale, rate, i + 1, k);
    }
  }

  lemma {:induction false} ElidedOnly(rs: seq<Block>, stale: map<string, string>, rate: Rate, i: nat, p: Pruned)
    returns (k: nat)
    requires AllResults(rs) && i <= |rs| && p in Elided(rs, stale, rate, i)
    ensures i <= k < |rs| && Elides(rs, stale, rate, k) && p == ElidedNote(rs[k], stale[rs[k].id], rate)
    decreases |rs| - i
  {
    if Elides(rs, stale, rate, i) && p == ElidedNote(rs[i], stale[rs[i].id], rate) {
      k := i;
    } else {
      k := ElidedOnly(rs, stale, rate, i + 1, p);
    }
  }

  lemma {:induction false} TruncatedHas(rs: seq<Block>, stale: map<string, string>, rate: Rate, protect: nat, i: nat, k: nat)
    requires AllResults(rs) && i <= k < |rs| && Truncates(rs, stale, rate, protect, k)
    ensures TruncatedNote(rs[k], rate) in Truncated(rs, stale, rate, protect, i)
    decreases k - i
  {
    if i < k {
      TruncatedHas(rs, stale, rate, protect, i + 1, k);
    }
  }

  lemma {:induction false} TruncatedOnly(rs: seq<Block>, stale: map<string, string>, rate: Rate, protect: nat, i: nat, p: Pruned)
    returns (k: nat)
    requires AllResults(rs) && i <= |rs| && p in Truncated(rs, stale, rate, protect, i)
    ensures i <= k < |rs| && Truncates(rs, stale, rate, protect, k) && p == TruncatedNote(rs[k], rate)
    decreases |rs| - i
  {
    if Truncates(rs, stale, rate, protect, i) && p == TruncatedNote(rs[i], rate) {
      k := i;
    } else {
      k := TruncatedOnly(rs, stale, rate, protect, i + 1, p);
    }
  }

  /** No superseded note is larger than the output it replaces. */
  predicate NotesNoLarger(rs: seq<Block>, stale: map<string, string>, rate: Rate)
    requires AllResults(rs)
  {
    forall k :: 0 <= k < |rs| && Elides(rs, stale, rate, k) ==>
      |ElidedNote(rs[k], stale[rs[k].id], rate).content| <= |rs[k].content|
  }

  /** What the plan does to each result: it is left alone, or becomes a note, no larger
      than it was if superseded notes are not. */
  lemma {:induction false} PlannedAt(rs: seq<Block>, stale: map<string, string>, rate: Rate, limits: Limits, k: nat)
    requires AllResults(rs) && DistinctResults(rs) && k < |rs|
    ensures var plan := PlanFor(rs, stale, rate, limits); var b := PruneBlock(rs[k], plan);
      b.ToolResult? && b.id == rs[k].id && b.isError == rs[k].isError &&
      (NotesNoLarger(rs, stale, rate) ==> |b.content| <= |rs[k].content|) && (b == rs[k] || IsNote(b.content)) &&
      (Elides(rs, stale, rate, k) ==> IsNote(b.content)) &&
      ((Truncates(rs, stale, rate, limits.protectOutput, k) && WorthTruncating(rs, stale, rate, limits)) ==>
        IsNote(b.content))
  {
    var plan, protect := PlanFor(rs, stale, rate, limits), limits.protectOutput;
    var elided, truncated := Elided(rs, stale, rate, 0), Truncated(rs, stale, rate, protect, 0);
    if Elides(rs, stale, rate, k) {
      ElidedHas(rs, stale, rate, 0, k);
      assert ElidedNote(rs[k], stale[rs[k].id], rate) in plan;
    }
    if Truncates(rs, stale, rate, protect, k) && Saved(rs, stale, rate, protect, 0) >= limits.minPruneSaving {
      TruncatedHas(rs, stale, rate, protect, 0, k);
      assert TruncatedNote(rs[k], rate) in plan;
    }
    var found := Replacement(plan, rs[k].id);
    if found.Some? {
      var p := Pruned(rs[k].id, found.value);
      assert p in plan;
      if p in elided {
        var j := ElidedOnly(rs, stale, rate, 0, p);
        assert j == k;
        NotesAreNotes(stale[rs[k].id], SizeOf(rs[k], rate));
      } else {
        var j := TruncatedOnly(rs, stale, rate, protect, 0, p);
        assert j == k;
        NotesAreNotes("", SizeOf(rs[k], rate));
        TruncationShortens(rs[k], rate);
      }
    }
  }

  /** `after` is `before` with some results turned into notes no larger than they were. */
  predicate Noted(before: seq<Block>, after: seq<Block>)
  {
    AllResults(before) && AllResults(after) && |before| == |after| &&
    forall k :: 0 <= k < |before| ==>
      after[k].id == before[k].id && |after[k].content| <= |before[k].content| &&
      (after[k] == before[k] || IsNote(after[k].content))
  }

  lemma {:induction false} NotedSize(before: seq<Block>, after: seq<Block>, rate: Rate, i: nat)
    requires Noted(before, after) && i <= |before|
    ensures SizeFrom(after, rate, i) <= SizeFrom(before, rate, i)
    decreases |before| - i
  {
    if i < |before| {
      NotedSize(before, after, rate, i + 1);
      TokensMonotone(|after[i].content|, |before[i].content|, rate);
    }
  }

  /** Nothing becomes prunable by being next to notes. */
  lemma NotedTruncates(before: seq<Block>, after: seq<Block>, stale: map<string, string>, rate: Rate, protect: nat, k: nat)
    requires Noted(before, after) && k < |before| && Truncates(after, stale, rate, protect, k)
    ensures after[k] == before[k] && Truncates(before, stale, rate, protect, k)
  {
    NotedSize(before, after, rate, k + 1);
  }

  lemma {:induction false} NotedSaved(before: seq<Block>, after: seq<Block>, stale: map<string, string>, rate: Rate, protect: nat, i: nat)
    requires Noted(before, after) && i <= |before|
    ensures Saved(after, stale, rate, protect, i) <= Saved(before, stale, rate, protect, i)
    decreases |before| - i
  {
    if i < |before| {
      NotedSaved(before, after, stale, rate, protect, i + 1);
      if Truncates(after, stale, rate, protect, i) {
        NotedTruncates(before, after, stale, rate, protect, i);
      }
    }
  }

  lemma {:induction false} NothingElided(rs: seq<Block>, stale: map<string, string>, rate: Rate, i: nat)
    requires AllResults(rs) && i <= |rs|
    requires forall k :: 0 <= k < |rs| ==> !Elides(rs, stale, rate, k)
    ensures Elided(rs, stale, rate, i) == []
    decreases |rs| - i
  {
    if i < |rs| {
      NothingElided(rs, stale, rate, i + 1);
    }
  }

  lemma {:induction false} NothingTruncated(rs: seq<Block>, stale: map<string, string>, rate: Rate, protect: nat, i: nat)
    requires AllResults(rs) && i <= |rs|
    requires forall k :: 0 <= k < |rs| ==> !Truncates(rs, stale, rate, protect, k)
    ensures Truncated(rs, stale, rate, protect, i) == []
    decreases |rs| - i
  {
    if i < |rs| {
      NothingTruncated(rs, stale, rate, protect, i + 1);
    }
  }

  lemma {:induction false} PlanIsFinal(rs: seq<Block>, stale: map<string, string>, rate: Rate, limits: Limits)
    requires AllResults(rs) && DistinctResults(rs) && NotesNoLarger(rs, stale, rate)
    ensures var after := PruneBlocks(rs, PlanFor(rs, stale, rate, limits));
      AllResults(after) && PlanFor(after, stale, rate, limits) == []
  {
    var plan, protect := PlanFor(rs, stale, rate, limits), limits.protectOutput;
    var after := PruneBlocks(rs, plan);
    forall k | 0 <= k < |rs|
      ensures after[k].ToolResult? && after[k].id == rs[k].id && |after[k].content| <= |rs[k].content|
      ensures after[k] == rs[k] || IsNote(after[k].content)
      ensures Elides(rs, stale, rate, k) ==> IsNote(after[k].content)
      ensures (Truncates(rs, stale, rate, protect, k) && WorthTruncating(rs, stale, rate, limits)) ==>
        IsNote(after[k].content)
    {
      PlannedAt(rs, stale, rate, limits, k);
    }
    assert Noted(rs, after);
    NothingElided(after, stale, rate, 0);
    if Saved(rs, stale, rate, protect, 0) < limits.minPruneSaving {
      NotedSaved(rs, after, stale, rate, protect, 0);
    } else {
      forall k | 0 <= k < |after| ensures !Truncates(after, stale, rate, protect, k) {
        if Truncates(after, stale, rate, protect, k) {
          NotedTruncates(rs, after, stale, rate, protect, k);
        }
      }
      NothingTruncated(after, stale, rate, protect, 0);
    }
  }

  lemma {:induction false} ResultsOfPruned(blocks: seq<Block>, plan: seq<Pruned>)
    ensures ResultsOf(PruneBlocks(blocks, plan)) == PruneBlocks(ResultsOf(blocks), plan)
  {
    if blocks != [] {
      var n := |blocks| - 1;
      ResultsOfPruned(blocks[..n], plan);
      assert PruneBlocks(blocks, plan)[..n] == PruneBlocks(blocks[..n], plan);
    }
  }

  lemma {:induction false} ResultsPruned(messages: seq<Message>, plan: seq<Pruned>)
    ensures Results(PruneMessages(messages, plan)) == PruneBlocks(Results(messages), plan)
  {
    if messages != [] {
      var n := |messages| - 1;
      ResultsPruned(messages[..n], plan);
      ResultsOfPruned(messages[n].blocks, plan);
      assert PruneMessages(messages, plan)[..n] == PruneMessages(messages[..n], plan);
    }
  }

  lemma {:induction false} FileCallsOfPruned(blocks: seq<Block>, plan: seq<Pruned>, failed: set<string>)
    ensures FileCallsOf(PruneBlocks(blocks, plan), failed) == FileCallsOf(blocks, failed)
  {
    if blocks != [] {
      FileCallsOfPruned(blocks[1..], plan, failed);
      assert PruneBlocks(blocks, plan)[1..] == PruneBlocks(blocks[1..], plan);
    }
  }

  lemma {:induction false} FileCallsPruned(messages: seq<Message>, plan: seq<Pruned>, failed: set<string>)
    ensures FileCalls(PruneMessages(messages, plan), failed) == FileCalls(messages, failed)
  {
    if messages != [] {
      FileCallsPruned(messages[1..], plan, failed);
      FileCallsOfPruned(messages[0].blocks, plan, failed);
      assert PruneMessages(messages, plan)[1..] == PruneMessages(messages[1..], plan);
    }
  }

  /** Pruning changes nothing about what is superseded. */
  lemma SupersededPruned(messages: seq<Message>, plan: seq<Pruned>)
    ensures Superseded(PruneMessages(messages, plan)) == Superseded(messages)
  {
    var rs, pruned := Results(messages), PruneMessages(messages, plan);
    ResultsPruned(messages, plan);
    ResultsAreResults(messages);
    forall id ensures id in Failed(pruned) <==> id in Failed(messages) {
      if id in Failed(messages) {
        var k :| 0 <= k < |rs| && rs[k].isError && rs[k].id == id;
        assert PruneBlocks(rs, plan)[k] in Results(pruned);
      }
      if id in Failed(pruned) {
        var k :| 0 <= k < |rs| && PruneBlock(rs[k], plan).isError && PruneBlock(rs[k], plan).id == id;
        assert rs[k] in rs;
      }
    }
    assert Failed(pruned) == Failed(messages);
    FileCallsPruned(messages, plan, Failed(messages));
  }

  /** Pruning reaches its fixpoint at once: planned again at the same rate and limits,
      nothing more is replaced. */
  lemma PruningIsFinal(messages: seq<Message>, rate: Rate, limits: Limits)
    requires AllResults(Results(messages)) && DistinctResults(Results(messages))
    requires NotesNoLarger(Results(messages), Superseded(messages), rate)
    ensures PrunePlan(PruneMessages(messages, PrunePlan(messages, rate, limits)), rate, limits) == []
  {
    var plan := PrunePlan(messages, rate, limits);
    ResultsPruned(messages, plan);
    SupersededPruned(messages, plan);
    PlanIsFinal(Results(messages), Superseded(messages), rate, limits);
  }

  /** A superseded result is superseded once: after a plan none is left to be. */
  lemma {:induction false} NoneLeftToElide(rs: seq<Block>, stale: map<string, string>, rate: Rate, limits: Limits)
    requires AllResults(rs) && DistinctResults(rs)
    ensures var after := PruneBlocks(rs, PlanFor(rs, stale, rate, limits));
      AllResults(after) && DistinctResults(after) && NotesNoLarger(after, stale, rate)
  {
    var after := PruneBlocks(rs, PlanFor(rs, stale, rate, limits));
    forall k | 0 <= k < |rs|
      ensures after[k].ToolResult? && after[k].id == rs[k].id && (after[k] == rs[k] || IsNote(after[k].content))
      ensures Elides(rs, stale, rate, k) ==> IsNote(after[k].content)
    {
      PlannedAt(rs, stale, rate, limits, k);
    }
    assert AllResults(after);
    assert forall k :: 0 <= k < |after| ==> !Elides(after, stale, rate, k);
  }

  /** Whatever the notes come to, two plans are always enough: at the same rate and limits
      a third replaces nothing. */
  lemma {:induction false} TwoPlansAreEnough(messages: seq<Message>, rate: Rate, limits: Limits)
    requires AllResults(Results(messages)) && DistinctResults(Results(messages))
    ensures var once := PruneMessages(messages, PrunePlan(messages, rate, limits));
      var twice := PruneMessages(once, PrunePlan(once, rate, limits));
      PrunePlan(twice, rate, limits) == []
  {
    var plan := PrunePlan(messages, rate, limits);
    ResultsPruned(messages, plan);
    SupersededPruned(messages, plan);
    NoneLeftToElide(Results(messages), Superseded(messages), rate, limits);
    PruningIsFinal(PruneMessages(messages, plan), rate, limits);
  }
}
