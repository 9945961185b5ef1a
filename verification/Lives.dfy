/** A session's life: the steps it has taken, and what each of its summaries was written
    from (agent/src/agent.rs, agent/src/compact.rs). */
module Lives {
  import opened Conversation
  import opened Protocol
  import opened Summary
  import opened Remembering
  import opened CallMemory
  import opened OperatorMemory
  import opened Memory

  /** How a summary is written of the messages before an index, from notes. */
  type Writer = (seq<Message>, nat, string) -> string

  datatype Steps = Steps(id: string, cwd: string, write: Writer, trace: seq<Step>, notes: seq<string>, state: State)

  /** Every summary in the trace was written so, from the notes in their order. */
  ghost predicate Authentic(write: Writer, init: State, trace: seq<Step>, notes: seq<string>)
    requires Legal(init, trace)
    decreases |trace|
  {
    if trace == [] then notes == []
    else
      var before, step := trace[..|trace| - 1], trace[|trace| - 1];
      if step.Compact? then
        notes != [] && step.summary == write(Exec(init, before).messages, step.upto, notes[|notes| - 1]) &&
        Authentic(write, init, before, notes[..|notes| - 1])
      else Authentic(write, init, before, notes)
  }

  /** From there the steps lead to its state, each allowed where it was taken. */
  ghost predicate LeadsFrom(init: State, r: Steps) {
    Legal(init, r.trace) && Exec(init, r.trace) == r.state && Authentic(r.write, init, r.trace, r.notes)
  }

  ghost predicate IsRun(r: Steps) {
    forall init :: Begins(init, r) ==> LeadsFrom(init, r)
  }

  predicate Begins(init: State, r: Steps) { init == Init(r.id, r.cwd) }

  /** A life: steps each allowed where it was taken, and only the summaries it wrote. */
  type Run = r: Steps | IsRun(r) ghost witness Steps("", "", (_, _, _) => "", [], [], Init("", ""))

  lemma {:induction false} RunLeads(r: Run)
    ensures LeadsFrom(Init(r.id, r.cwd), r)
  {
    assert Begins(Init(r.id, r.cwd), r);
  }

  ghost function Begun(id: string, cwd: string, write: Writer): (r: Run)
    ensures r.id == id && r.cwd == cwd && r.write == write && r.state == Init(id, cwd) && r.trace == []
  {
    Steps(id, cwd, write, [], [], Init(id, cwd))
  }

  /** A life and one more step it allows, other than a compaction. */
  ghost function Extended(r: Run, step: Step): (next: Run)
    requires Enabled(r.state, step) && !step.Compact?
    ensures next.id == r.id && next.cwd == r.cwd && next.write == r.write && next.notes == r.notes
    ensures next.state == Next(r.state, step) && next.trace == r.trace + [step]
  {
    RunLeads(r);
    assert (r.trace + [step])[..|r.trace|] == r.trace;
    Steps(r.id, r.cwd, r.write, r.trace + [step], r.notes, Next(r.state, step))
  }

  /** A life and a compaction to a summary written from these notes. */
  ghost function Shortened(r: Run, upto: nat, notes: string): (next: Run)
    requires Enabled(r.state, Compact(r.write(r.state.messages, upto, notes), upto))
    ensures var step := Compact(r.write(r.state.messages, upto, notes), upto);
      next.id == r.id && next.cwd == r.cwd && next.write == r.write && next.notes == r.notes + [notes] &&
      next.state == Next(r.state, step) && next.trace == r.trace + [step]
  {
    var step := Compact(r.write(r.state.messages, upto, notes), upto);
    RunLeads(r);
    assert (r.trace + [step])[..|r.trace|] == r.trace;
    assert (r.notes + [notes])[..|r.notes|] == r.notes;
    Steps(r.id, r.cwd, r.write, r.trace + [step], r.notes + [notes], Next(r.state, step))
  }

  // --------------------------------------------------------------- what such a life keeps

  /** The writer prints a summary as `Remembering` has it. */
  ghost predicate Writes(write: Writer, w: Wording) {
    forall messages: seq<Message>, upto: nat, notes: string :: WritesIt(write, w, messages, upto, notes)
  }

  ghost predicate WritesIt(write: Writer, w: Wording, messages: seq<Message>, upto: nat, notes: string) {
    upto <= |messages| ==> write(messages, upto, notes) == SummaryMessage(w, messages, upto, notes)
  }

  /** What was said and what was called can be told from the summary's own words, so far. */
  ghost predicate Plain(w: Wording, init: State, trace: seq<Step>)
    requires WellWorded(w) && Legal(init, trace)
    decreases |trace|
  {
    trace == [] ||
    var before, step := trace[..|trace| - 1], trace[|trace| - 1];
    Plain(w, init, before) &&
    (step.Say? ==>
      forall i :: 0 <= i < |step.blocks| && step.blocks[i].Text? ==> PlainText(w, step.role, step.blocks[i].text)) &&
    (step.Compact? ==> SingleLines(Adds(Exec(init, before).messages, step.upto)))
  }

  predicate AllCleanNotes(w: Wording, notes: seq<string>) {
    forall i :: 0 <= i < |notes| ==> CleanNotes(w, notes[i])
  }

  lemma {:induction false} WrittenIsGenuine(w: Wording, write: Writer, messages: seq<Message>, upto: nat, notes: string)
    requires Writes(write, w) && upto <= |messages| && CleanNotes(w, notes)
    ensures Genuine(w, messages, write(messages, upto, notes), upto, notes)
  {
    assert WritesIt(write, w, messages, upto, notes);
  }

  lemma {:induction false} AuthenticIsFaithful(w: Wording, write: Writer, init: State, trace: seq<Step>, notes: seq<string>)
    requires WellWorded(w) && Legal(init, trace) && Writes(write, w) && Authentic(write, init, trace, notes)
    requires Plain(w, init, trace) && AllCleanNotes(w, notes)
    ensures FaithfulRun(w, init, trace)
    decreases |trace|
  {
    if trace != [] {
      var before, step := trace[..|trace| - 1], trace[|trace| - 1];
      if step.Compact? {
        var n := |notes| - 1;
        AuthenticIsFaithful(w, write, init, before, notes[..n]);
        WrittenIsGenuine(w, write, Exec(init, before).messages, step.upto, notes[n]);
      } else {
        AuthenticIsFaithful(w, write, init, before, notes);
      }
    }
  }

  /** What was said in a life, called in it and noted by its summaries can all be told from
      the summaries' own words. */
  ghost predicate PlainLife(w: Wording, r: Run)
    requires WellWorded(w)
  {
    RunLeads(r);
    Plain(w, Init(r.id, r.cwd), r.trace) && AllCleanNotes(w, r.notes)
  }

  /** Every call its summaries stand for, as lines. */
  ghost function Forgotten(r: Run): seq<string> {
    RunLeads(r);
    Summarised(Init(r.id, r.cwd), r.trace)
  }

  /** So what survives any number of compactions survives in it: the exact record of its
      calls, and the operator's words. */
  lemma {:induction false} LifeRemembers(w: Wording, r: Run)
    requires WellWorded(w) && Writes(r.write, w) && PlainLife(w, r)
    ensures ExactRecord(w, r.state.messages, Forgotten(r), CallsMade(r.trace))
    ensures AllShort(Prompts(r.trace)) && |Prompts(r.trace)| < USIZE ==>
      WordsSurvive(OperatorMessages(w, r.state.messages), Prompts(r.trace))
  {
    RunLeads(r);
    AuthenticIsFaithful(w, r.write, Init(r.id, r.cwd), r.trace, r.notes);
    CallRecordIsExact(w, r.id, r.cwd, r.trace);
    if AllShort(Prompts(r.trace)) && |Prompts(r.trace)| < USIZE {
      OperatorWordsSurvive(w, r.id, r.cwd, r.trace);
    }
  }
}
