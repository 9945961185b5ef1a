/** Over any run, the record of calls a summary carries is exact. */
module CallMemory {
  import opened Conversation
  import opened Bytes
  import opened Markers
  import opened Rewriting
  import opened Pruning
  import opened Summary
  import opened Remembering
  import opened Journal
  import opened Protocol

  // ---------------------------------------------------- counts carried along

  predicate NoCounts(lines: seq<string>) {
    forall i :: 0 <= i < |lines| ==> CarriedBy(lines[i]).None?
  }

  lemma {:induction false} NotListedCarries(n: nat)
    ensures CarriedBy(NotListed(n)) == Some(n)
  {
    var l := NotListed(n);
    assert l[1..] == Decimal(n) + NOTE_END;
    assert StripSuffix(l[1..], NOTE_END) == Some(Decimal(n));
    DecimalReadsBack(n);
  }

  lemma {:induction false} NotListedIsClean(n: nat)
    ensures CleanLine(NotListed(n))
  {
    var l, d := NotListed(n), Decimal(n);
    assert forall i :: 0 <= i < |NOTE_END| ==> NOTE_END[i] != '\n';
    forall i | 0 <= i < |l| ensures l[i] != '\n' {
      if 1 <= i < 1 + |d| {
        assert l[i] == d[i - 1] && IsDigit(d[i - 1]);
      } else if 1 + |d| <= i {
        assert l[i] == NOTE_END[i - 1 - |d|];
      }
    }
    assert l[|l| - 1] == NOTE_END[|NOTE_END| - 1] == ')';
  }

  lemma {:induction false} BeforeNoteEnd(count: string, k: nat)
    requires k < |count + NOTE_END| && (count + NOTE_END)[k] == '\U{E2}'
    ensures k < |count| && count[k] == '\U{E2}'
  {
    var s := count + NOTE_END;
    assert forall i :: 0 <= i < |NOTE_END| ==> NOTE_END[i] != '\U{E2}';
    assert forall i :: |count| <= i < |s| ==> s[i] == NOTE_END[i - |count|];
  }

  lemma {:induction false} NoNumber(count: string, k: nat)
    requires 1 <= k < |count| && !IsDigit(count[k])
    ensures ParseDecimal(count).None?
  {
    if count[0] == '+' {
      NotADecimal(count[1..], k - 1);
    } else {
      NotADecimal(count, k);
    }
  }

  lemma {:induction false} Stripped(s: string, p: string)
    ensures StripPrefix(s, p).Some? ==> s == p + StripPrefix(s, p).value
    ensures StripSuffix(s, p).Some? ==> s == StripSuffix(s, p).value + p
  {
  }

  /** Text holding anything but digits before the note's end is no count. */
  lemma {:induction false} NoCount(l: string, q: nat)
    requires 2 <= q < |l| && l[q] == '\U{E2}'
    ensures CarriedBy(l).None?
  {
    var rest := StripPrefix(l, "(");
    if rest.Some? {
      var inside := rest.value;
      Stripped(l, "(");
      assert inside[q - 1] == l[q];
      NoCountIn(inside, q - 1);
    }
  }

  lemma {:induction false} NoCountIn(s: string, k: nat)
    requires 1 <= k < |s| && s[k] == '\U{E2}'
    ensures StripSuffix(s, NOTE_END).Some? ==> ParseDecimal(StripSuffix(s, NOTE_END).value).None?
  {
    var count := StripSuffix(s, NOTE_END);
    if count.Some? {
      Stripped(s, NOTE_END);
      BeforeNoteEnd(count.value, k);
      NoNumber(count.value, k);
    }
  }

  /** A line with the arrow that stands between a call and its outcome. */
  predicate Arrowed(l: string) {
    exists q :: 2 <= q < |l| && l[q] == '\U{E2}'
  }

  predicate AllArrowed(lines: seq<string>) {
    forall i :: 0 <= i < |lines| ==> Arrowed(lines[i])
  }

  lemma {:induction false} ArrowedIsNoCount(lines: seq<string>)
    requires AllArrowed(lines)
    ensures NoCounts(lines)
  {
    forall i | 0 <= i < |lines|
      ensures CarriedBy(lines[i]).None?
    {
      var q :| 2 <= q < |lines[i]| && lines[i][q] == '\U{E2}';
      NoCount(lines[i], q);
    }
  }

  lemma {:induction false} CallLineIsArrowed(b: Block, ended: map<string, (string, bool)>)
    requires b.ToolUse?
    ensures Arrowed(CallLine(b, ended)) && CarriedBy(CallLine(b, ended)).None?
  {
    var l, head := CallLine(b, ended), b.name + " " + Shorten(b.input.printed);
    assert l == head + ARROW + How(ended, b.id);
    assert l[|head| + 1] == ARROW[1] == '\U{E2}';
    NoCount(l, |head| + 1);
  }

  lemma {:induction false} DroppedAndKept(a: seq<string>, b: seq<string>)
    ensures Dropped(a + b) == Dropped(a) + Dropped(b) && Kept(a + b) == Kept(a) + Kept(b)
  {
    if a == [] {
      assert a + b == b;
    } else {
      DroppedAndKept(a[1..], b);
      var all := a + b;
      assert all[1..] == a[1..] + b && all[0] == a[0];
      OneFirst(all);
      OneFirst(a);
      Assoc(if CarriedBy(a[0]).None? then [a[0]] else [], Kept(a[1..]), Kept(b));
    }
  }

  lemma {:induction false} OneFirst(lines: seq<string>)
    requires lines != []
    ensures Dropped(lines) == (if CarriedBy(lines[0]).Some? then CarriedBy(lines[0]).value else 0) + Dropped(lines[1..])
    ensures Kept(lines) == (if CarriedBy(lines[0]).None? then [lines[0]] else []) + Kept(lines[1..])
  {
  }

  lemma {:induction false} NothingDropped(lines: seq<string>)
    requires NoCounts(lines)
    ensures Dropped(lines) == 0 && Kept(lines) == lines
  {
    if lines != [] {
      NothingDropped(lines[1..]);
    }
  }

  /** What a shown record says: how many lines there were, and which are newest. */
  lemma {:induction false} ShownSays(full: seq<string>)
    requires NoCounts(full)
    ensures var shown := Shown(0, full); var listed := if |full| > MAX_CALLS then MAX_CALLS else |full|;
      Kept(shown) == full[|full| - listed..] && Dropped(shown) + |Kept(shown)| == |full|
  {
    var extra := if |full| > MAX_CALLS then |full| - MAX_CALLS else 0;
    NothingDropped(full[extra..]);
    if extra > 0 {
      NotListedCarries(extra);
      DroppedAndKept([NotListed(extra)], full[extra..]);
      assert Kept([NotListed(extra)]) == [] && Dropped([NotListed(extra)]) == extra;
    } else {
      assert Shown(0, full) == full[0..];
    }
  }

  /** A record shown, read back and continued is the record of everything. */
  lemma {:induction false} ShownThenMore(full: seq<string>, more: seq<string>)
    requires NoCounts(full) && NoCounts(more)
    ensures var all := Shown(0, full) + more; Shown(Dropped(all), Kept(all)) == Shown(0, full + more)
  {
    ShownSays(full);
    NothingDropped(more);
    DroppedAndKept(Shown(0, full), more);
    ShownAgain(full, more, Dropped(Shown(0, full)), Kept(Shown(0, full)));
  }

  /** The newest of the newest and more are the newest of all. */
  lemma {:induction false} ShownAgain(full: seq<string>, more: seq<string>, dropped: nat, kept: seq<string>)
    requires var listed := if |full| > MAX_CALLS then MAX_CALLS else |full|;
      kept == full[|full| - listed..] && dropped + |kept| == |full|
    ensures Shown(dropped, kept + more) == Shown(0, full + more)
  {
    var some, all := kept + more, full + more;
    var extra := if |some| > MAX_CALLS then |some| - MAX_CALLS else 0;
    var whole := if |all| > MAX_CALLS then |all| - MAX_CALLS else 0;
    assert some == all[|all| - |some|..];
    assert some[extra..] == all[whole..];
  }

  // ------------------------------------------------ one summary, at the front

  predicate NoSummary(w: Wording, blocks: seq<Block>) {
    forall i :: 0 <= i < |blocks| ==> !(blocks[i].Text? && w.header <= blocks[i].text)
  }

  predicate HasSummary(w: Wording, messages: seq<Message>) {
    messages != [] && messages[0].role == User && messages[0].blocks != [] &&
    messages[0].blocks[0].Text? && w.header <= messages[0].blocks[0].text
  }

  predicate OnlyAtFront(w: Wording, messages: seq<Message>) {
    (forall i :: 1 <= i < |messages| ==> NoSummary(w, messages[i].blocks)) &&
    (messages != [] ==>
      if HasSummary(w, messages) then NoSummary(w, messages[0].blocks[1..]) else NoSummary(w, messages[0].blocks))
  }

  /** The call lines the summary at the front lists. */
  function Listed(w: Wording, messages: seq<Message>): seq<string> {
    if HasSummary(w, messages) then ListedIn(w, messages[0].blocks[0].text) else []
  }

  function CallLinesOf(blocks: seq<Block>, ended: map<string, (string, bool)>): seq<string> {
    if blocks == [] then []
    else (if blocks[0].ToolUse? then [CallLine(blocks[0], ended)] else []) + CallLinesOf(blocks[1..], ended)
  }

  /** A line for each call still in the conversation. */
  function CallLines(messages: seq<Message>, ended: map<string, (string, bool)>): seq<string> {
    if messages == [] then [] else CallLinesOf(messages[0].blocks, ended) + CallLines(messages[1..], ended)
  }

  lemma {:induction false} LinesWithoutSummary(w: Wording, blocks: seq<Block>, ended: map<string, (string, bool)>)
    requires NoSummary(w, blocks)
    ensures LinesOfBlocks(w, blocks, ended) == CallLinesOf(blocks, ended)
  {
    if blocks != [] {
      LinesWithoutSummary(w, blocks[1..], ended);
    }
  }

  lemma {:induction false} AllLinesWithoutSummary(w: Wording, messages: seq<Message>, ended: map<string, (string, bool)>)
    requires forall i :: 0 <= i < |messages| ==> NoSummary(w, messages[i].blocks)
    ensures AllLines(w, messages, ended) == CallLines(messages, ended)
  {
    if messages != [] {
      LinesWithoutSummary(w, messages[0].blocks, ended);
      AllLinesWithoutSummary(w, messages[1..], ended);
    }
  }

  lemma {:induction false} SummaryBlockFirst(w: Wording, blocks: seq<Block>, ended: map<string, (string, bool)>)
    requires blocks != [] && blocks[0].Text? && w.header <= blocks[0].text
    requires LinesOfBlocks(w, blocks[1..], ended) == CallLinesOf(blocks[1..], ended)
    ensures LinesOfBlocks(w, blocks, ended) == ListedIn(w, blocks[0].text) + CallLinesOf(blocks, ended)
  {
    assert CallLinesOf(blocks, ended) == CallLinesOf(blocks[1..], ended);
  }

  lemma {:induction false} AllLinesSplit(w: Wording, messages: seq<Message>, ended: map<string, (string, bool)>)
    requires OnlyAtFront(w, messages)
    ensures AllLines(w, messages, ended) == Listed(w, messages) + CallLines(messages, ended)
  {
    if HasSummary(w, messages) {
      var blocks := messages[0].blocks;
      AllLinesWithoutSummary(w, messages[1..], ended);
      LinesWithoutSummary(w, blocks[1..], ended);
      SummaryBlockFirst(w, blocks, ended);
      Assoc(Listed(w, messages), CallLinesOf(blocks, ended), CallLines(messages[1..], ended));
    } else {
      AllLinesWithoutSummary(w, messages, ended);
      assert Listed(w, messages) == [];
    }
  }

  lemma {:induction false} CallLinesAreArrowed(messages: seq<Message>, ended: map<string, (string, bool)>)
    ensures AllArrowed(CallLines(messages, ended))
  {
    if messages != [] {
      CallLinesOfAreArrowed(messages[0].blocks, ended);
      CallLinesAreArrowed(messages[1..], ended);
    }
  }

  lemma {:induction false} CallLinesOfAreArrowed(blocks: seq<Block>, ended: map<string, (string, bool)>)
    ensures AllArrowed(CallLinesOf(blocks, ended))
  {
    if blocks != [] {
      CallLinesOfAreArrowed(blocks[1..], ended);
      if blocks[0].ToolUse? {
        CallLineIsArrowed(blocks[0], ended);
      }
    }
  }

  /** The record a summary is given is the record of everything summarised so far. */
  lemma {:induction false} RecordContinues(w: Wording, slice: seq<Message>, full: seq<string>)
    requires OnlyAtFront(w, slice) && Listed(w, slice) == Shown(0, full) && AllArrowed(full)
    ensures CallRecord(w, slice) == Shown(0, full + CallLines(slice, OutcomesIn(slice)))
    ensures AllArrowed(full + CallLines(slice, OutcomesIn(slice)))
  {
    var ended := OutcomesIn(slice);
    AllLinesSplit(w, slice, ended);
    CallLinesAreArrowed(slice, ended);
    ArrowedIsNoCount(full);
    ArrowedIsNoCount(CallLines(slice, ended));
    ShownThenMore(full, CallLines(slice, ended));
  }

  // ------------------------------------------------ printed and read back

  lemma {:induction false} UnreturnedIsArrowed(l: string)
    requires Arrowed(l) && '\n' !in l
    ensures Arrowed(Unreturned(l)) && '\n' !in Unreturned(l)
  {
    var q :| 2 <= q < |l| && l[q] == '\U{E2}';
    assert Unreturned(l)[q] == l[q];
  }

  lemma {:induction false} ReadIsArrowed(full: seq<string>)
    requires SingleLines(full) && AllArrowed(full)
    ensures SingleLines(AsRead(full)) && AllArrowed(AsRead(full))
  {
    forall i | 0 <= i < |full|
      ensures Arrowed(AsRead(full)[i]) && '\n' !in AsRead(full)[i]
    {
      UnreturnedIsArrowed(full[i]);
    }
  }

  /** What is read of a record shown is what would be shown of the record as read. */
  lemma {:induction false} ReadShown(full: seq<string>)
    requires SingleLines(full)
    ensures SingleLines(Shown(0, full)) && AsRead(Shown(0, full)) == Shown(0, AsRead(full))
  {
    var extra := if |full| > MAX_CALLS then |full| - MAX_CALLS else 0;
    var note := if extra > 0 then [NotListed(extra)] else [];
    NotListedIsClean(extra);
    assert Shown(0, full) == note + full[extra..] && Shown(0, AsRead(full)) == note + AsRead(full)[extra..];
    ReadAfter(note, full, extra);
  }

  lemma {:induction false} ReadAfter(note: seq<string>, full: seq<string>, extra: nat)
    requires extra <= |full| && (forall i :: 0 <= i < |note| ==> CleanLine(note[i]))
    ensures AsRead(note + full[extra..]) == note + AsRead(full)[extra..]
  {
    var a, b := AsRead(note + full[extra..]), note + AsRead(full)[extra..];
    forall i | 0 <= i < |a|
      ensures a[i] == b[i]
    {
      assert i >= |note| ==> (note + full[extra..])[i] == full[extra + i - |note|];
    }
  }

  // -------------------------------------------------------------- whole runs

  /** A text that can be restated in a summary and read back: it holds no section marker,
      and if it is long enough to be cut, no heading's words that a cut could expose. */
  predicate Safe(w: Wording, t: string)
    requires WellWorded(w)
  {
    CleanSaid(w, t) && (|t| <= SUMMARY_RESULT_BYTES || WordsFree(w, t))
  }

  /** Text the harness can tell from its own: no message but a summary starts as one,
      and the operator's are safe to restate. */
  predicate PlainText(w: Wording, role: Role, t: string)
    requires WellWorded(w)
  {
    !(w.header <= t) && (role == User && !("[harness]" <= t) ==> Safe(w, t))
  }

  /** The lines a compaction at `upto` adds to the record. */
  function Adds(messages: seq<Message>, upto: nat): seq<string>
    requires upto <= |messages|
  {
    CallLines(messages[..upto], OutcomesIn(messages[..upto]))
  }

  predicate Genuine(w: Wording, messages: seq<Message>, summary: string, upto: nat, notes: string)
    requires upto <= |messages|
  {
    CleanNotes(w, notes) && summary == SummaryMessage(w, messages, upto, notes)
  }

  /** A step as the harness takes it: summaries are the ones it writes, from clean notes,
      and call lines are single lines. */
  ghost predicate Faithful(w: Wording, s: State, step: Step)
    requires WellWorded(w) && Enabled(s, step)
  {
    match step
    case Say(role, blocks) =>
      forall i :: 0 <= i < |blocks| && blocks[i].Text? ==> PlainText(w, role, blocks[i].text)
    case Compact(summary, upto) =>
      SingleLines(Adds(s.messages, upto)) &&
      exists notes :: Genuine(w, s.messages, summary, upto, notes)
    case _ => true
  }

  ghost predicate FaithfulRun(w: Wording, init: State, steps: seq<Step>)
    requires WellWorded(w) && Legal(init, steps)
    decreases |steps|
  {
    steps == [] ||
    var before := steps[..|steps| - 1];
    FaithfulRun(w, init, before) && Faithful(w, Exec(init, before), steps[|steps| - 1])
  }

  /** The lines a step moves from the conversation to the record. */
  function Moved(s: State, step: Step): seq<string>
    requires Enabled(s, step)
  {
    if step.Compact? then Adds(s.messages, step.upto) else []
  }

  /** Every line summarised so far in a run, oldest first. */
  function Summarised(init: State, steps: seq<Step>): seq<string>
    requires Legal(init, steps)
    decreases |steps|
  {
    if steps == [] then []
    else
      var before, step := steps[..|steps| - 1], steps[|steps| - 1];
      Summarised(init, before) + Moved(Exec(init, before), step)
  }

  /** The same, as the summaries carry it: each time it is printed and read back. */
  function Carried(full: seq<string>, s: State, step: Step): seq<string>
    requires Enabled(s, step)
  {
    if step.Compact? then AsRead(full + Moved(s, step)) else full
  }

  function CarriedSoFar(init: State, steps: seq<Step>): seq<string>
    requires Legal(init, steps)
    decreases |steps|
  {
    if steps == [] then []
    else
      var before := steps[..|steps| - 1];
      Carried(CarriedSoFar(init, before), Exec(init, before), steps[|steps| - 1])
  }

  /** A line without the carriage returns it ends in. */
  function Bare(l: string): string
    decreases |l|
  {
    if EndsIn(l, '\r') then Bare(l[..|l| - 1]) else l
  }

  /** The same lines, but for carriage returns at their ends. */
  predicate SameLines(a: seq<string>, b: seq<string>) {
    |a| == |b| && forall i :: 0 <= i < |a| ==> Bare(a[i]) == Bare(b[i])
  }

  predicate Unreturning(lines: seq<string>) {
    forall i :: 0 <= i < |lines| ==> !EndsIn(lines[i], '\r')
  }

  lemma {:induction false} CarriedIsSame(full: seq<string>, all: seq<string>, s: State, step: Step)
    requires Enabled(s, step) && SameLines(full, all) && (Unreturning(all) ==> full == all)
    ensures SameLines(Carried(full, s, step), all + Moved(s, step))
    ensures Unreturning(all + Moved(s, step)) ==> Carried(full, s, step) == all + Moved(s, step)
  {
    var moved := Moved(s, step);
    if step.Compact? {
      MoreIsSame(full, all, moved);
      ReadIsSame(full + moved, all + moved);
    } else {
      assert all + moved == all;
    }
  }

  lemma {:induction false} MoreIsSame(full: seq<string>, all: seq<string>, more: seq<string>)
    requires SameLines(full, all) && (Unreturning(all) ==> full == all)
    ensures SameLines(full + more, all + more) && (Unreturning(all + more) ==> full + more == all + more)
  {
    var whole := all + more;
    assert forall i :: 0 <= i < |all| ==> whole[i] == all[i];
    if Unreturning(whole) {
      forall i | 0 <= i < |all|
        ensures !EndsIn(all[i], '\r')
      {
        assert !EndsIn(whole[i], '\r');
      }
    }
  }

  lemma {:induction false} ReadIsSame(more: seq<string>, whole: seq<string>)
    requires SameLines(more, whole)
    ensures SameLines(AsRead(more), whole) && (more == whole && Unreturning(whole) ==> AsRead(more) == whole)
  {
    var read := AsRead(more);
    assert forall i :: 0 <= i < |more| ==> Bare(Unreturned(more[i])) == Bare(more[i]);
    if more == whole && Unreturning(whole) {
      assert forall i :: 0 <= i < |more| ==> Unreturned(more[i]) == more[i];
      assert read == more;
    }
  }

  /** What the summaries carry is what was summarised, but for carriage returns at the ends
      of lines, and the very same if no line ends in one. */
  lemma {:induction false} CarriedAsSummarised(init: State, steps: seq<Step>)
    requires Legal(init, steps)
    ensures SameLines(CarriedSoFar(init, steps), Summarised(init, steps))
    ensures Unreturning(Summarised(init, steps)) ==> CarriedSoFar(init, steps) == Summarised(init, steps)
    decreases |steps|
  {
    if steps != [] {
      var before := steps[..|steps| - 1];
      CarriedAsSummarised(init, before);
      CarriedIsSame(CarriedSoFar(init, before), Summarised(init, before), Exec(init, before), steps[|steps| - 1]);
    }
  }

  /** The calls the model made in a run. */
  function CallsMade(steps: seq<Step>): nat {
    if steps == [] then 0
    else
      var step := steps[|steps| - 1];
      CallsMade(steps[..|steps| - 1]) + (if step.Say? then |CallsIn(Message(step.role, step.blocks))| else 0)
  }

  function CallCount(messages: seq<Message>): nat {
    if messages == [] then 0 else |CallsOf(messages[0].blocks)| + CallCount(messages[1..])
  }

  predicate RecordHolds(w: Wording, s: State, full: seq<string>) {
    OnlyAtFront(w, s.messages) && Listed(w, s.messages) == Shown(0, full) &&
    AllArrowed(full) && SingleLines(full)
  }

  lemma {:induction false} AppendKeepsFront(w: Wording, messages: seq<Message>, m: Message)
    requires OnlyAtFront(w, messages) && NoSummary(w, m.blocks)
    ensures OnlyAtFront(w, messages + [m]) && Listed(w, messages + [m]) == Listed(w, messages)
  {
    if messages != [] {
      assert (messages + [m])[0] == messages[0];
    }
  }

  lemma {:induction false} PruneKeepsFront(w: Wording, messages: seq<Message>, plan: seq<Pruned>)
    requires OnlyAtFront(w, messages)
    ensures OnlyAtFront(w, PruneMessages(messages, plan))
    ensures Listed(w, PruneMessages(messages, plan)) == Listed(w, messages)
  {
    var pruned := PruneMessages(messages, plan);
    assert forall i :: 0 <= i < |messages| ==> pruned[i].blocks == PruneBlocks(messages[i].blocks, plan);
    forall i | 0 <= i < |messages| && NoSummary(w, messages[i].blocks)
      ensures NoSummary(w, pruned[i].blocks)
    {
      assert forall j :: 0 <= j < |pruned[i].blocks| && pruned[i].blocks[j].Text? ==>
        pruned[i].blocks[j] == messages[i].blocks[j];
    }
    if HasSummary(w, messages) {
      assert pruned[0].blocks[0] == messages[0].blocks[0];
      var rest := pruned[0].blocks[1..];
      assert forall j :: 0 <= j < |rest| && rest[j].Text? ==> rest[j] == messages[0].blocks[1..][j];
    }
  }

  /** A crash adds at most a message of results. */
  lemma {:induction false} CrashAdds(s: State)
    requires Refines(Fold(s.log), s)
    ensures var messages := Rebuilt(s.log).messages;
      messages == s.messages ||
      exists results :: AllResults(results) && messages == s.messages + [Message(User, results)]
  {
    if s.phase.Answering? {
      var open := Fold(s.log).open.value;
      CloseAnswersEachCall(open);
      var results := Answers(open.calls, open);
      assert AllResults(results) && Rebuilt(s.log).messages == s.messages + [Message(User, results)];
    }
  }

  /** The summary's own place: the front of what is kept. */
  lemma {:induction false} CompactKeepsFront(w: Wording, messages: seq<Message>, summary: string, upto: nat)
    requires OnlyAtFront(w, messages) && Boundary(messages, upto) && w.header <= summary
    ensures var after := Summarise(messages, summary, |messages| - upto);
      OnlyAtFront(w, after) && Listed(w, after) == ListedIn(w, summary)
  {
    var after, kept := Summarise(messages, summary, |messages| - upto), messages[upto..];
    assert messages[|messages| - (|messages| - upto)..] == kept;
    assert after[0].blocks[0] == Text(summary);
    if kept != [] && kept[0].role == User {
      assert after[0].blocks[1..] == kept[0].blocks;
      assert forall i :: 1 <= i < |after| ==> after[i] == messages[upto + i];
    } else {
      assert after[0].blocks[1..] == [];
      assert forall i :: 1 <= i < |after| ==> after[i] == messages[upto + i - 1];
    }
  }

  lemma {:induction false} SliceKeepsFront(w: Wording, messages: seq<Message>, upto: nat)
    requires OnlyAtFront(w, messages) && 1 <= upto <= |messages|
    ensures OnlyAtFront(w, messages[..upto]) && Listed(w, messages[..upto]) == Listed(w, messages)
  {
    assert messages[..upto][0] == messages[0];
  }
}
