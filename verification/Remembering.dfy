/** What a compaction carries over: which calls there were, and what the operator had
    to say (agent/src/compact.rs). */
module Remembering {
  import opened Conversation
  import opened Bytes
  import opened Markers
  import opened Pruning
  import opened Summary

  const MAX_CALLS := 60
  const CALL_DETAIL_BYTES := 160
  const SUMMARY_RESULT_BYTES := 8000
  const MAX_OPERATOR_BYTES := 16 * 1024

  // ------------------------------------------------------------ cutting text

  /** A byte that does not begin a character. */
  predicate Continues(c: char) { '\U{80}' <= c <= '\U{BF}' }

  /** Not inside a multi-byte character. */
  predicate IsCharBoundary(s: string, i: nat)
    requires i <= |s|
  {
    i == 0 || i == |s| || !Continues(s[i])
  }

  function FloorBoundary(s: string, i: nat): (r: nat)
    requires i <= |s|
    ensures r <= i && IsCharBoundary(s, r)
  {
    if IsCharBoundary(s, i) then i else FloorBoundary(s, i - 1)
  }

  function CeilBoundary(s: string, i: nat): (r: nat)
    requires i <= |s|
    ensures i <= r <= |s| && IsCharBoundary(s, r)
    decreases |s| - i
  {
    if IsCharBoundary(s, i) then i else CeilBoundary(s, i + 1)
  }

  function Shorten(s: string): string {
    if |s| <= CALL_DETAIL_BYTES then s
    else s[..FloorBoundary(s, CALL_DETAIL_BYTES)] + "\U{E2}\U{80}\U{A6}"
  }

  /** A long text cut in the middle, where a note counts the bytes gone. */
  function HeadAndTail(s: string): string {
    if |s| <= SUMMARY_RESULT_BYTES then s
    else CutBetween(s, SUMMARY_RESULT_BYTES * 3 / 4, |s| - SUMMARY_RESULT_BYTES / 4)
  }

  /** Cut from one place to another, or as far apart as leaves whole characters. */
  function CutBetween(s: string, from: nat, to: nat): string
    requires from <= to <= |s|
  {
    CutOut(s, FloorBoundary(s, from), CeilBoundary(s, to))
  }

  function CutOut(s: string, head: nat, tail: nat): string
    requires head <= tail <= |s|
  {
    s[..head] + CutNote(tail - head) + s[tail..]
  }

  function CutNote(n: nat): string {
    "\n" + CutLine(n) + "\n"
  }

  function CutLine(n: nat): string {
    "[... " + Decimal(n) + " bytes left out ...]"
  }

  // ---------------------------------------------------------- the call record

  /** How each call ended: the last result recorded for its id. */
  function Outcomes(rs: seq<Block>): map<string, (string, bool)> {
    if rs == [] then map[]
    else
      var n := |rs| - 1;
      if rs[n].ToolResult? then Outcomes(rs[..n])[rs[n].id := (rs[n].content, rs[n].isError)]
      else Outcomes(rs[..n])
  }

  function OutcomesIn(messages: seq<Message>): map<string, (string, bool)> {
    Outcomes(Results(messages))
  }

  function How(ended: map<string, (string, bool)>, id: string): string {
    if id !in ended then "no result"
    else if ended[id].1 then
      var lines := Lines(ended[id].0);
      "error: " + Shorten(if lines == [] then "" else lines[0])
    else "ok"
  }

  const ARROW := " \U{E2}\U{86}\U{92} "

  function CallLine(b: Block, ended: map<string, (string, bool)>): string
    requires b.ToolUse?
  {
    b.name + " " + Shorten(b.input.printed) + ARROW + How(ended, b.id)
  }

  /** The lines one block adds: those an earlier summary listed, or its own. */
  function LinesOf(w: Wording, b: Block, ended: map<string, (string, bool)>): seq<string> {
    if b.Text? && w.header <= b.text then ListedIn(w, b.text)
    else if b.ToolUse? then [CallLine(b, ended)]
    else []
  }

  function LinesOfBlocks(w: Wording, blocks: seq<Block>, ended: map<string, (string, bool)>): seq<string> {
    if blocks == [] then [] else LinesOf(w, blocks[0], ended) + LinesOfBlocks(w, blocks[1..], ended)
  }

  function AllLines(w: Wording, messages: seq<Message>, ended: map<string, (string, bool)>): seq<string> {
    if messages == [] then []
    else LinesOfBlocks(w, messages[0].blocks, ended) + AllLines(w, messages[1..], ended)
  }

  const NOTE_END := " earlier calls not listed)"

  /** The line that stands for `n` calls no longer listed. */
  function NotListed(n: nat): string {
    "(" + Decimal(n) + NOTE_END
  }

  /** The count such a line carries. */
  function CarriedBy(l: string): Option<nat> {
    var open := StripPrefix(l, "(");
    if open.None? then None
    else
      var count := StripSuffix(open.value, NOTE_END);
      if count.None? then None else ParseDecimal(count.value)
  }

  function Dropped(lines: seq<string>): nat {
    if lines == [] then 0
    else
      var c := CarriedBy(lines[0]);
      (if c.Some? then c.value else 0) + Dropped(lines[1..])
  }

  function Kept(lines: seq<string>): seq<string> {
    if lines == [] then []
    else (if CarriedBy(lines[0]).None? then [lines[0]] else []) + Kept(lines[1..])
  }

  /** At most the newest 60 lines, with a count of the rest before them. */
  function Shown(dropped: nat, lines: seq<string>): seq<string> {
    var extra := if |lines| > MAX_CALLS then |lines| - MAX_CALLS else 0;
    (if dropped + extra > 0 then [NotListed(dropped + extra)] else []) + lines[extra..]
  }

  /** A line for each call, in order, beginning with the lines of the summary before. */
  function CallRecord(w: Wording, messages: seq<Message>): seq<string> {
    var all := AllLines(w, messages, OutcomesIn(messages));
    Shown(Dropped(all), Kept(all))
  }

  /** The lines that are not counts, and the sum of those that are. */
  method SetAside(lines: seq<string>) returns (out: seq<string>, dropped: nat)
    ensures out == Kept(lines) && dropped == Dropped(lines)
  {
    out, dropped := [], 0;
    for i := 0 to |lines|
      invariant Kept(lines) == out + Kept(lines[i..])
      invariant Dropped(lines) == dropped + Dropped(lines[i..])
    {
      assert lines[i..][0] == lines[i] && lines[i..][1..] == lines[i + 1..];
      var carried := CarriedBy(lines[i]);
      if carried.Some? {
        dropped := dropped + carried.value;
      } else {
        out := out + [lines[i]];
      }
    }
  }

  method GatherLines(w: Wording, messages: seq<Message>, ended: map<string, (string, bool)>) returns (lines: seq<string>)
    ensures lines == AllLines(w, messages, ended)
  {
    lines := [];
    for i := 0 to |messages|
      invariant AllLines(w, messages, ended) == lines + AllLines(w, messages[i..], ended)
    {
      AllLinesFrom(w, messages, ended, i);
      Assoc(lines, LinesOfBlocks(w, messages[i].blocks, ended), AllLines(w, messages[i + 1..], ended));
      lines := lines + LinesOfBlocks(w, messages[i].blocks, ended);
    }
  }

  lemma {:induction false} AllLinesFrom(w: Wording, messages: seq<Message>, ended: map<string, (string, bool)>, i: nat)
    requires i < |messages|
    ensures AllLines(w, messages[i..], ended) ==
      LinesOfBlocks(w, messages[i].blocks, ended) + AllLines(w, messages[i + 1..], ended)
  {
    assert messages[i..][1..] == messages[i + 1..];
  }

  /** The newest lines, and a count of the others. */
  method Capped(lines: seq<string>, carried: nat) returns (out: seq<string>)
    ensures out == Shown(carried, lines)
  {
    out := lines;
    var dropped := carried;
    if |out| > MAX_CALLS {
      dropped := dropped + (|out| - MAX_CALLS);
      out := out[|out| - MAX_CALLS..];
    }
    if dropped > 0 {
      out := [NotListed(dropped)] + out;
    }
  }

  method RecordCalls(w: Wording, messages: seq<Message>) returns (out: seq<string>)
    ensures out == CallRecord(w, messages)
  {
    var lines := GatherLines(w, messages, OutcomesIn(messages));
    var kept, dropped := SetAside(lines);
    out := Capped(kept, dropped);
  }

  // -------------------------------------------------------- the operator's words

  /** What one block says of the operator's words: its own, or those a summary restates. */
  function SaidIn(w: Wording, b: Block): seq<string> {
    if !b.Text? then []
    else if w.header <= b.text then RestatedIn(w, b.text)
    else if "[harness]" <= b.text then []
    else [b.text]
  }

  function SaidInBlocks(w: Wording, blocks: seq<Block>): seq<string> {
    if blocks == [] then [] else SaidIn(w, blocks[0]) + SaidInBlocks(w, blocks[1..])
  }

  function SaidBy(w: Wording, m: Message): seq<string> {
    if m.role == User then SaidInBlocks(w, m.blocks) else []
  }

  function OperatorMessages(w: Wording, messages: seq<Message>): seq<string> {
    if messages == [] then []
    else SaidBy(w, messages[0]) + OperatorMessages(w, messages[1..])
  }

  function Total(said: seq<string>): nat {
    if said == [] then 0 else |said[0]| + Total(said[1..])
  }

  /** The first and the newest kept, those between dropped first. */
  function Fit(said: seq<string>, dropped: nat): (seq<string>, nat)
    decreases |said|
  {
    if Total(said) > MAX_OPERATOR_BYTES && |said| > 2
    then Fit([said[0]] + said[2..], dropped + 1)
    else (said, dropped)
  }

  function LeftOut(n: nat): string {
    "(" + Decimal(n) + " earlier messages left out)"
  }

  function Restated(said: seq<string>): seq<string> {
    var (kept, dropped) := Fit(said, 0);
    if dropped > 0 && |kept| > 0 then [kept[0], LeftOut(dropped)] + kept[1..] else kept
  }

  function Cut(said: seq<string>): seq<string> {
    seq(|said|, i requires 0 <= i < |said| => HeadAndTail(said[i]))
  }

  /** What is put in place of the messages before `upto`. */
  function SummaryMessage(w: Wording, messages: seq<Message>, upto: nat, notes: string): string
    requires upto <= |messages|
  {
    Printed(w, notes, CallRecord(w, messages[..upto]),
            Restated(Cut(OperatorMessages(w, messages[..upto]))), upto == |messages|)
  }

  /** Drops messages after the first until the rest fit or two remain. */
  method FitOperator(said: seq<string>) returns (out: seq<string>)
    ensures out == Restated(said)
  {
    out := said;
    var dropped := 0;
    while Total(out) > MAX_OPERATOR_BYTES && |out| > 2
      invariant Fit(said, 0) == Fit(out, dropped)
      invariant said != [] ==> out != []
      decreases |out|
    {
      out := [out[0]] + out[2..];
      dropped := dropped + 1;
    }
    if dropped > 0 && |out| > 0 {
      out := [out[0], LeftOut(dropped)] + out[1..];
    }
  }

  method WriteSummary(w: Wording, messages: seq<Message>, upto: nat, notes: string) returns (text: string)
    requires upto <= |messages|
    ensures text == SummaryMessage(w, messages, upto, notes)
  {
    var calls := RecordCalls(w, messages[..upto]);
    var said := FitOperator(Cut(OperatorMessages(w, messages[..upto])));
    var listed, restated, end := "", "", "";
    if calls != [] {
      listed := w.calls + ("\n" + Bullets(calls));
    }
    if said != [] {
      restated := w.operator + Headed(w, said, 1);
    }
    if upto == |messages| {
      end := w.carryOn;
    }
    text := w.intro + notes + listed + restated + end;
  }
}
