/** The loop that runs a turn (agent/src/agent.rs): ask the model, record its response, ask
    about and run its calls, hand back the results; compact on the way; and hand tasks to
    subagents. Every change to the conversation or the journal is a step of `Protocol`, so
    what is proved of its runs holds of the agent's. The upstream, the operator and the tools
    are `Outside`, and what the agent is held to is stated on their records, not its own. */
module Turns {
  import opened Conversation
  import opened Rewriting
  import opened Journal
  import opened Protocol
  import opened Sizes
  import opened Usage
  import opened Requests
  import opened Outside
  import opened Lives
  import opened Bytes
  import opened Pairing
  import Cutting
  import Pruning
  import Schema

  const SPAWN := "spawn"
  const FINISH := "finish"
  const CHILD_MAX_TURNS := 60
  /** What one request can come to: every wait, and a last attempt. */
  const ATTEMPTS_A_REQUEST := 5
  /** Attempts one pass of the loop can make: two compactions and the request itself. */
  const ATTEMPTS_A_PASS := 15
  /** And so a subagent, over its whole life. */
  const CHILD_ATTEMPTS := 900

  const FABRICATED := ["<tool_response>", "<tool_result>", "<|im_start|>tool", "<function_results>"]
  const UNPARSED_CALL := "<tool_call>"

  datatype Outcome =
    | Returned(value: Json)
    | Finished(text: string)
    | MaxTurns
    | ContextOverflow(message: string)
    | Cancelled
    | Stopped(reason: string)
    | Running                  // not an ending: where a run is looked at while it goes on

  datatype Ending = Ended(outcome: Outcome) | Errored(error: WireError)

  datatype Trigger = Threshold | Overflow | Manual

  datatype Compacting = Done | Nothing | Abandoned

  /** What a compaction made: the outputs it pruned, where it was to cut, and how its request
      for a summary went, if it was to. */
  datatype Made = Made(plan: seq<Pruned>, upto: Option<nat>, fate: Option<Asked>)

  datatype Totals = Totals(turns: nat, usage: Usage, toolCalls: nat, toolErrors: nat)

  const NO_TOTALS := Totals(0, NONE, 0, 0)

  /** What the harness says to the model in place of a result, by occasion. */
  datatype Notice =
    | CutOff | NoTool | UnknownTool(name: string) | BadJson(name: string, raw: string) | NotAnObject(name: string)
    | OtherMalformed | WrittenAsText | FinishNeeded | TwoMalformed(last: string) | Invented(marker: string)
    | TurnStopped | TurnCancelled | CallCancelled | NotReturned | EmptyTask | SchemaNotObject | NotOffered(model: string)
    | ChildEnded(ending: Ending)

  datatype Spawner = Spawner(model: string, window: Option<nat>, siblings: seq<(string, Option<nat>)>) {
    /** A model's window, when a subagent may run on it. */
    function Allows(name: string): Option<Option<nat>> {
      if name == model then Some(window) else Among(siblings, name)
    }
  }

  function Among(siblings: seq<(string, Option<nat>)>, name: string): Option<Option<nat>> {
    if siblings == [] then None
    else if siblings[0].0 == name then Some(siblings[0].1)
    else Among(siblings[1..], name)
  }

  const DEFAULT_SCHEMA := Obj(map[
    "type" := Str("object"),
    "properties" := Obj(map["summary" := Obj(map["type" := Str("string")])]),
    "required" := Arr([Str("summary")])])

  datatype Task = Refusal(notice: Notice) | Task(text: string, schema: Json, window: Option<nat>)

  /** A response's text blocks, joined by newlines. */
  function TextOf(blocks: seq<Block>): string {
    if blocks == [] then ""
    else if !blocks[0].Text? then TextOf(blocks[1..])
    else if HasText(blocks[1..]) then blocks[0].text + "\n" + TextOf(blocks[1..])
    else blocks[0].text
  }

  predicate HasText(blocks: seq<Block>) {
    exists i :: 0 <= i < |blocks| && blocks[i].Text?
  }

  function FirstMarker(markers: seq<string>, text: string): Option<string> {
    if markers == [] then None
    else if Contains(text, markers[0]) then Some(markers[0])
    else FirstMarker(markers[1..], text)
  }

  /** The same response, answered as far as before: only what is recorded or begun of its
      calls may differ. */
  predicate SameResponse(a: State, b: State) {
    a.messages == b.messages && a.phase == b.phase && a.calls == b.calls && a.started <= b.started && a.begun <= b.begun
  }

  predicate LeadsWithSpawns(calls: seq<Call>, n: nat) {
    n <= |calls| && forall i :: 0 <= i < n ==> calls[i].name == SPAWN
  }

  /** How many of the calls are spawns. */
  function Spawns(calls: seq<Call>): nat {
    if calls == [] then 0 else Spawns(calls[..|calls| - 1]) + (if calls[|calls| - 1].name == SPAWN then 1 else 0)
  }

  lemma {:induction false} SpawnsMore(calls: seq<Call>, i: nat, n: nat)
    requires i + n <= |calls| && LeadsWithSpawns(calls[i..], n)
    ensures Spawns(calls[..i + n]) == Spawns(calls[..i]) + n
  {
    if n > 0 {
      SpawnsMore(calls, i, n - 1);
      var m := i + n - 1;
      assert calls[..m + 1][..m] == calls[..m] && calls[m] == calls[i..][n - 1];
    }
  }

  lemma {:induction false} SpawnsGrow(calls: seq<Call>, i: nat)
    requires i < |calls|
    ensures Spawns(calls[..i]) <= Spawns(calls[..i + 1])
  {
    assert calls[..i + 1][..i] == calls[..i];
  }

  /** What calls that will not run are answered with. */
  function Unrun(calls: seq<Call>, texts: seq<string>): seq<Block>
    requires |texts| == |calls|
  {
    seq(|calls|, i requires 0 <= i < |calls| => ToolResult(calls[i].id, texts[i], true))
  }

  /** What an agent is run with. */
  datatype Fields = Fields(
    tools: set<string>,
    maxTurns: Option<nat>,
    window: Option<nat>,
    spawner: Option<Spawner>,        // with one, the model may hand tasks to subagents
    finish: Option<Json>,            // a subagent's: the shape of the result it returns
    overhead: nat,                   // the bytes of the tools in every request
    orientation: string,             // what a subagent is told before all else
    wording: Summary.Wording,
    write: Writer,                   // how a summary is written
    says: Notice -> string,
    trimmed: string -> string,       // text without the white space around it
    printed: Json -> string)

  ghost predicate Proper(f: Fields) {
    Writes(f.write, f.wording) && (f.finish.Some? ==> f.spawner.None?)
  }

  const NO_WORDS := Summary.Wording("", "", "", "", "", "")

  /** Summaries are written as `Remembering` has it, and a subagent has no spawner. */
  type Setup = f: Fields | Proper(f) ghost witness Fields({}, None, None, None, None, 0, "", NO_WORDS,
    (m: seq<Message>, u: nat, n: string) => if u <= |m| then Remembering.SummaryMessage(NO_WORDS, m, u, n) else "",
    _ => "", t => t, _ => "")

  /** The total is the sum of what was counted, and what was sent says so. */
  ghost predicate Balanced(total: Usage, sent: seq<Told>, counted: seq<Usage>) {
    total == Sum(counted) && sent == Updates(counted)
  }

  lemma {:induction false} BalancedPlus(total: Usage, sent: seq<Told>, counted: seq<Usage>,
                                        more: Usage, moreSent: seq<Told>, counts: seq<Usage>)
    requires Balanced(total, sent, counted) && Balanced(more, moreSent, counts)
    ensures Balanced(Plus(total, more), sent + moreSent, counted + counts)
  {
    SumConcat(counted, counts);
    UpdatesConcat(counted, counts);
  }

  /** How a pass leaves the turn: it has not asked in vain, and either it goes on, with the
      counts the loop keeps right, or it has ended, as it must after a second overflow or
      a second malformed response. */
  predicate GoesOnOrEnds(kinds: seq<Kind>, ending: Option<Ending>, malformed: nat, overflowed: bool) {
    StoppedInTime(kinds) &&
    (ending.None? ==> malformed == MalformedSince(kinds) <= 1 && OverflowsSince(kinds) == if overflowed then 1 else 0) &&
    (MalformedSince(kinds) >= 2 ==> ending.Some? && ending.value.Ended? && ending.value.outcome.Stopped?) &&
    (OverflowsSince(kinds) >= 2 ==> ending.Some? && ending.value.Ended? && ending.value.outcome.ContextOverflow?) &&
    (ending.Some? && ending.value.Ended? ==> !ending.value.outcome.Running?)
  }

  /** What a stretch of a turn came to upstream: how each of its own requests came back, the
      spawns those asked for, and bounds on the attempts it and its subagents made. */
  datatype Bill = Bill(fates: seq<Asked>, spawns: nat, own: nat, others: nat)

  const FREE := Bill([], 0, 0, 0)

  /** Where an agent has got to. */
  datatype Mark = Mark(trace: seq<Step>, counts: seq<Usage>, dealings: seq<Dealing>, cancels: nat)

  /** How a call was dealt with: not asked about once the turn was cancelled, denied, asked
      about in vain, run by its tool or by a subagent, or a subagent's result that it kept.
      `stopped` is a cancel that was seen then. */
  datatype Deal =
    | Unasked
    | Denied(why: string, stopped: bool)
    | Retracted
    | Ran(out: Output, stopped: bool)
    | Tasked(out: Output, ending: Option<Ending>, stopped: bool)
    | Kept

  predicate Cancelling(d: Deal) {
    d.Retracted? || ((d.Denied? || d.Ran? || d.Tasked?) && d.stopped)
  }

  /** Whether the turn was cancelled by then. */
  predicate CancelledBy(deals: seq<Deal>) {
    exists i :: 0 <= i < |deals| && Cancelling(deals[i])
  }

  function Together(a: Bill, b: Bill): Bill {
    Bill(a.fates + b.fates, a.spawns + b.spawns, a.own + b.own, a.others + b.others)
  }

  class Agent {
    const given: Setup
    const world: World
    /** 0 for a session's own agent, 1 for its subagents. */
    const depth: nat

    var conv: Conv
    var journal: Option<seq<Record>>
    var totals: Totals
    /** Usage as sent to the node, request by request. */
    var updates: seq<Told>

    /** The session's own, which its journal begins with. */
    ghost const id: string
    ghost const cwd: string
    ghost var counted: seq<Usage>
    ghost var life: Run
    ghost var s: State
    /** What the upstream had answered before there was this agent. */
    ghost const earlier: seq<Usage>

    /** The conversation and the journal are where the steps taken lead. A subagent, and
        only a subagent, has no journal and may return. */
    ghost predicate Live()
      reads this`conv, this`journal, this`life, this`s
    {
      life.id == id && life.cwd == cwd && life.write == given.write && life.state == s &&
      conv.messages == s.messages && (journal.Some? ==> journal.value == s.log) && (given.finish.Some? ==> journal.None?)
    }

    /** The totals are the sum of the usage sent. */
    ghost predicate Books()
      reads this`totals, this`updates, this`counted
    {
      forall counts :: IsCounted(counts) ==> Balanced(totals.usage, updates, counts)
    }

    ghost predicate IsCounted(counts: seq<Usage>)
      reads this`counted
    {
      counts == counted
    }

    /** What the upstream has answered since there is this agent: those, and more. */
    ghost predicate Owing(counts: seq<Usage>, more: seq<Usage>)
      reads world`requests
    {
      forall owed :: IsOwed(owed) ==> owed == earlier + counts + more
    }

    ghost predicate IsOwed(owed: seq<Usage>)
      reads world`requests
    {
      owed == Owed(world.requests)
    }

    /** Every answer of the upstream's is counted, once and in order. */
    ghost predicate AllCounted()
      reads this`counted, world`requests
    {
      Owing(counted, [])
    }

    /** Every request the upstream has seen was tried as it should be. */
    ghost predicate Tried()
      reads world`requests
    {
      forall requests :: AreAsked(requests) ==> AllWellTried(given.trimmed, requests)
    }

    ghost predicate AreAsked(requests: seq<Asking>)
      reads world`requests
    {
      requests == world.requests
    }

    lemma {:induction false} BooksAre()
      requires Books()
      ensures Balanced(totals.usage, updates, counted)
    {
      assert IsCounted(counted);
    }

    lemma {:induction false} OwedIs(counts: seq<Usage>, more: seq<Usage>)
      requires Owing(counts, more)
      ensures Owed(world.requests) == earlier + counts + more
    {
      assert IsOwed(Owed(world.requests));
    }

    lemma {:induction false} TriedAre()
      requires Tried()
      ensures AllWellTried(given.trimmed, world.requests)
    {
      assert AreAsked(world.requests);
    }

    /** All of that, and nothing was begun that the operator had not allowed. */
    ghost predicate Healthy()
      reads this`conv, this`journal, this`life, this`s, this`totals, this`updates, this`counted, world
    {
      Live() && Books() && AllCounted() && Tried() && world.Permitted()
    }

    ghost function Here(): Mark
      reads this`life, this`counted, world`dealings, world`cancels
    {
      Mark(life.trace, counted, world.dealings, world.cancels)
    }

    /** What was taken, counted or dealt with by then stays so, and nothing was dealt with
        for an agent above this one. */
    ghost predicate Onward(m: Mark)
      reads this`life, this`counted, world`dealings, world`cancels
    {
      m.trace <= life.trace && m.counts <= counted && m.dealings <= world.dealings && m.cancels <= world.cancels &&
      Shallow(world.dealings, depth) == Shallow(m.dealings, depth)
    }

    /** 1 for an agent that may spawn, 0 for one that may not. */
    function Rank(): nat {
      if given.spawner.Some? then 1 else 0
    }

    predicate Blank(text: string) { given.trimmed(text) == "" }

    /** A session begun, or carried on where the steps of earlier processes left it. */
    constructor (given: Setup, system: string, messages: seq<Message>, journal: Option<seq<Record>>,
                 world: World, depth: nat, ghost life: Run)
      requires life.write == given.write && messages == life.state.messages
      requires journal.Some? ==> journal.value == life.state.log
      requires given.finish.Some? ==> journal.None?
      requires AllWellTried(given.trimmed, world.requests) && world.Permitted()
      ensures Healthy()
      ensures this.id == life.id && this.cwd == life.cwd && this.given == given && this.world == world && this.depth == depth
      ensures s == life.state && this.life == life && this.journal == journal && conv == Conv(system, messages, None)
      ensures totals == NO_TOTALS && updates == [] && counted == [] && earlier == Owed(world.requests)
    {
      this.id, this.cwd, this.given, this.world, this.depth := life.id, life.cwd, given, world, depth;
      this.conv, this.journal := Conv(system, messages, None), journal;
      this.totals, this.updates, this.counted := NO_TOTALS, [], [];
      this.life, this.s := life, life.state;
      this.earlier := Owed(world.requests);
      new;
      assert earlier + [] + [] == earlier;
    }

    // ------------------------------------------------------------- what it asked upstream

    /** A response there is nothing sound to do with. */
    predicate IllFormed(c: Completion) {
      var calls, text := CallsOf(c.blocks), TextOf(c.blocks);
      FirstMarker(FABRICATED, text).None? &&
      if calls == [] then Contains(text, UNPARSED_CALL) || given.finish.Some?
      else FirstProblem(calls, c.finishReason).Some?
    }

    function KindFor(fate: Asked): Kind {
      match fate
      case Answered(c) => if IllFormed(c) then Malformed else Sound
      case Withdrawn => Kind.Dropped
      case Failed(error, _) => if error.ContextTooLong? then TooLong else Broken
    }

    function KindsFor(fates: seq<Asked>): seq<Kind> {
      seq(|fates|, i requires 0 <= i < |fates| => KindFor(fates[i]))
    }

    lemma {:induction false} KindsMore(fates: seq<Asked>, fate: Asked)
      ensures KindsFor(fates + [fate]) == KindsFor(fates) + [KindFor(fate)]
    {
    }

    function FateOfOne(r: Asking): Asked
      requires r.attempts != []
    {
      FateOf(given.trimmed, r)
    }

    /** Its turns' own requests, not those for summaries nor its subagents'. */
    predicate Own(r: Asking) { r.main && r.depth == depth && r.attempts != [] }

    function FatesOf(requests: seq<Asking>): seq<Asked> {
      if requests == [] then []
      else
        var last := requests[|requests| - 1];
        FatesOf(requests[..|requests| - 1]) + (if Own(last) then [FateOfOne(last)] else [])
    }

    /** The spawns its responses asked for. */
    function SpawnsIn(requests: seq<Asking>): nat {
      if requests == [] then 0
      else
        var last := requests[|requests| - 1];
        SpawnsIn(requests[..|requests| - 1]) + (if Own(last) then SpawnsOf(last) else 0)
    }

    function SpawnsFor(fate: Asked): nat {
      if fate.Answered? then Spawns(CallsOf(fate.completion.blocks)) else 0
    }

    function SpawnsOf(r: Asking): nat
      requires r.attempts != []
    {
      SpawnsFor(FateOf(given.trimmed, r))
    }

    /** What that many spawns may come to. */
    function Beyond(spawns: nat): nat {
      if given.spawner.None? then 0 else CHILD_ATTEMPTS * spawns
    }

    lemma {:induction false} OwnConcat(a: seq<Asking>, b: seq<Asking>)
      ensures FatesOf(a + b) == FatesOf(a) + FatesOf(b) && SpawnsIn(a + b) == SpawnsIn(a) + SpawnsIn(b)
    {
      if b == [] {
        assert a + b == a;
      } else {
        var n := |b| - 1;
        var before, r := b[..n], b[n];
        OwnConcat(a, before);
        assert a + b == a + before + [r] && b == before + [r];
        OwnAfter(a, before, r);
      }
    }

    lemma {:induction false} OwnAfter(a: seq<Asking>, before: seq<Asking>, r: Asking)
      requires FatesOf(a + before) == FatesOf(a) + FatesOf(before) && SpawnsIn(a + before) == SpawnsIn(a) + SpawnsIn(before)
      ensures FatesOf(a + before + [r]) == FatesOf(a) + FatesOf(before + [r])
      ensures SpawnsIn(a + before + [r]) == SpawnsIn(a) + SpawnsIn(before + [r])
    {
      OwnMore(a + before, r);
      OwnMore(before, r);
      Assoc(FatesOf(a), FatesOf(before), if Own(r) then [FateOfOne(r)] else []);
    }

    lemma {:induction false} OwnMore(before: seq<Asking>, r: Asking)
      ensures FatesOf(before + [r]) == FatesOf(before) + (if Own(r) then [FateOfOne(r)] else [])
      ensures SpawnsIn(before + [r]) == SpawnsIn(before) + (if Own(r) then SpawnsOf(r) else 0)
    {
      assert (before + [r])[..|before|] == before;
    }

    /** The upstream's record since: as the bill says, and no more attempts than it says. */
    ghost predicate Spent(before: seq<Asking>, after: seq<Asking>, bill: Bill) {
      before <= after && forall since :: AskedSince(before, after, since) ==> Billed(since, bill)
    }

    ghost predicate AskedSince(before: seq<Asking>, after: seq<Asking>, since: seq<Asking>) { after == before + since }

    ghost predicate Billed(since: seq<Asking>, bill: Bill) {
      FatesOf(since) == bill.fates && SpawnsIn(since) == bill.spawns &&
      AttemptsAt(since, depth) <= bill.own && AttemptsElsewhere(since, depth) <= bill.others
    }

    lemma {:induction false} SpentSince(before: seq<Asking>, after: seq<Asking>, bill: Bill)
      requires Spent(before, after, bill)
      ensures Billed(after[|before|..], bill)
    {
      assert AskedSince(before, after, after[|before|..]);
    }

    lemma {:induction false} SpentIs(before: seq<Asking>, since: seq<Asking>, bill: Bill)
      requires Billed(since, bill)
      ensures Spent(before, before + since, bill)
    {
      forall more | AskedSince(before, before + since, more)
        ensures Billed(more, bill)
      {
        assert more == (before + since)[|before|..] == since;
      }
    }

    lemma {:induction false} SpentNothing(requests: seq<Asking>, own: nat, others: nat)
      ensures Spent(requests, requests, Bill([], 0, own, others))
    {
      assert requests + [] == requests;
      SpentIs(requests, [], Bill([], 0, own, others));
    }

    lemma {:induction false} SpentAtMost(before: seq<Asking>, after: seq<Asking>, one: Bill, two: Bill)
      requires Spent(before, after, one) && one.fates == two.fates && one.spawns == two.spawns && one.own <= two.own && one.others <= two.others
      ensures Spent(before, after, two)
    {
      var since := after[|before|..];
      SpentSince(before, after, one);
      assert after == before + since;
      SpentIs(before, since, two);
    }

    lemma {:induction false} SpentMore(a: seq<Asking>, b: seq<Asking>, c: seq<Asking>, one: Bill, two: Bill)
      requires Spent(a, b, one) && Spent(b, c, two)
      ensures Spent(a, c, Together(one, two))
    {
      var x, y := b[|a|..], c[|b|..];
      SpentSince(a, b, one);
      SpentSince(b, c, two);
      OwnConcat(x, y);
      AttemptsConcat(x, y, depth);
      assert c == a + (x + y);
      SpentIs(a, x + y, Together(one, two));
    }

    lemma {:induction false} SpentOnOne(before: seq<Asking>, r: Asking)
      requires WellTried(given.trimmed, r) && r.depth == depth
      ensures Spent(before, before + [r], Bill(if r.main then [FateOfOne(r)] else [], if r.main then SpawnsOf(r) else 0, ATTEMPTS_A_REQUEST, 0))
    {
      assert [r][..0] == [];
      assert FatesOf([r]) == FatesOf([]) + (if Own(r) then [FateOfOne(r)] else []);
      assert AttemptsAt([r], depth) == AttemptsAt([], depth) + |r.attempts|;
      assert AttemptsElsewhere([r], depth) == AttemptsElsewhere([], depth);
      SpentIs(before, [r], Bill(if r.main then [FateOfOne(r)] else [], if r.main then SpawnsOf(r) else 0, ATTEMPTS_A_REQUEST, 0));
    }

    /** Requests all made one deeper are none of its own. */
    lemma {:induction false} DeeperIsNotOwn(requests: seq<Asking>)
      requires AllWellTried(given.trimmed, requests) && AttemptsElsewhere(requests, depth + 1) == 0
      ensures FatesOf(requests) == [] && SpawnsIn(requests) == 0 && AttemptsAt(requests, depth) == 0
    {
      if requests != [] {
        var n := |requests| - 1;
        assert WellTried(given.trimmed, requests[n]);
        DeeperIsNotOwn(requests[..n]);
      }
    }

    /** What a subagent spent, on its parent's bill. */
    lemma {:induction false} SpentBelow(before: seq<Asking>, after: seq<Asking>, most: nat)
      requires before <= after && AllWellTried(given.trimmed, after)
      requires AttemptsAt(after[|before|..], depth + 1) <= most && AttemptsElsewhere(after[|before|..], depth + 1) == 0
      ensures Spent(before, after, Bill([], 0, 0, most))
    {
      var since := after[|before|..];
      assert forall i :: 0 <= i < |since| ==> since[i] == after[|before| + i];
      DeeperIsNotOwn(since);
      DeeperIsElsewhere(since, depth);
      assert after == before + since;
      SpentIs(before, since, Bill([], 0, 0, most));
    }

    /** What is owed for one more request. */
    lemma {:induction false} OwedMore(before: seq<Asking>, r: Asking)
      requires WellTried(given.trimmed, r)
      ensures Owed(before + [r]) == Owed(before) + UsageOwed(FateOf(given.trimmed, r))
    {
      OwedConcat(before, [r]);
      OwedForOne(given.trimmed, r);
    }

    lemma {:induction false} CountedAll(before: seq<Usage>, more: seq<Usage>)
      requires Owing(before, more) && counted == before + more
      ensures AllCounted()
    {
      OwedIs(before, more);
      Assoc(earlier, before, more);
      assert earlier + counted + [] == earlier + counted;
    }

    /** One more request, and what is owing. */
    lemma {:induction false} OwingMore(before: seq<Asking>, r: Asking)
      requires WellTried(given.trimmed, r) && world.requests == before + [r] && Owed(before) == earlier + counted
      ensures Owing(counted, UsageOwed(FateOf(given.trimmed, r)))
    {
      OwedMore(before, r);
    }

    lemma {:induction false} AllOwed()
      requires AllCounted()
      ensures Owed(world.requests) == earlier + counted
    {
      OwedIs(counted, []);
    }

    // ------------------------------------------------------------- what was dealt with

    function OutputFor(deal: Deal): Output {
      match deal
      case Unasked => Output(given.says(TurnCancelled), true)
      case Denied(why, _) => Output(why, true)
      case Retracted => Output(given.says(TurnCancelled), true)
      case Ran(out, stopped) => if stopped then Output(given.says(CallCancelled), true) else out
      case Tasked(out, _, _) => out
      case Kept => Output(given.says(NotReturned), true)
    }

    /** The result a call is answered with. */
    function BlockFor(call: Call, deal: Deal): Block {
      ToolResult(call.id, OutputFor(deal).content, OutputFor(deal).isError)
    }

    /** What the operator and the tools have on record of it. */
    function RecordFor(call: Call, deal: Deal): seq<Dealing> {
      match deal
      case Unasked => []
      case Denied(why, _) => [Ruled(depth, call.id, Deny(why))]
      case Retracted => [Ruled(depth, call.id, Retract)]
      case Ran(out, _) => [Ruled(depth, call.id, Allow), Gave(depth, call.id, out)]
      case Tasked(_, _, _) => [Ruled(depth, call.id, Allow)]
      case Kept => []
    }

    function RecordOf(calls: seq<Call>, deals: seq<Deal>): seq<Dealing>
      requires |calls| == |deals|
    {
      Flat(RecordsFor(calls, deals))
    }

    function RecordsFor(calls: seq<Call>, deals: seq<Deal>): (records: seq<seq<Dealing>>)
      requires |calls| == |deals|
      ensures |records| == |calls| && forall i :: 0 <= i < |calls| ==> records[i] == RecordFor(calls[i], deals[i])
    {
      seq(|calls|, i requires 0 <= i < |calls| => RecordFor(calls[i], deals[i]))
    }

    /** A call dealt with as it should be, the turn cancelled before it or not. */
    ghost predicate Right(call: Call, deal: Deal, cancelled: bool) {
      if call.name == FINISH && given.finish.Some? then
        deal.Kept? && !Schema.Check(given.finish.value, Schema.Settle(given.finish.value, call.input.json))
      else
        (deal.Unasked? <==> cancelled) && !deal.Kept? &&
        if call.name == SPAWN && given.spawner.Some?
        then !deal.Ran? && (deal.Tasked? ==> ChildSaid(TaskOf(call.input.json), deal.out, deal.ending))
        else !deal.Tasked?
    }

    /** So each of these calls, in order, and these are their results. */
    ghost predicate Dealt(calls: seq<Call>, deals: seq<Deal>, results: seq<Block>, cancelled: bool) {
      |deals| == |calls| == |results| &&
      forall i :: 0 <= i < |calls| ==> DealtAt(calls, deals, results, cancelled, i)
    }

    ghost predicate DealtAt(calls: seq<Call>, deals: seq<Deal>, results: seq<Block>, cancelled: bool, i: nat)
      requires i < |calls| == |deals| == |results|
    {
      Right(calls[i], deals[i], cancelled || CancelledBy(deals[..i])) && results[i] == BlockFor(calls[i], deals[i])
    }

    lemma {:induction false} CancelledConcat(a: seq<Deal>, b: seq<Deal>)
      ensures CancelledBy(a + b) <==> CancelledBy(a) || CancelledBy(b)
    {
      var all := a + b;
      if CancelledBy(a) {
        var i :| 0 <= i < |a| && Cancelling(a[i]);
        assert Cancelling(all[i]);
      }
      if CancelledBy(b) {
        var i :| 0 <= i < |b| && Cancelling(b[i]);
        assert Cancelling(all[|a| + i]);
      }
      if CancelledBy(all) {
        var i :| 0 <= i < |all| && Cancelling(all[i]);
        assert if i < |a| then Cancelling(a[i]) else Cancelling(b[i - |a|]);
      }
    }

    lemma {:induction false} DealtConcat(a: seq<Call>, b: seq<Call>, da: seq<Deal>, db: seq<Deal>, ra: seq<Block>, rb: seq<Block>, cancelled: bool)
      requires Dealt(a, da, ra, cancelled) && Dealt(b, db, rb, cancelled || CancelledBy(da))
      ensures Dealt(a + b, da + db, ra + rb, cancelled)
    {
      forall i | 0 <= i < |a + b|
        ensures DealtAt(a + b, da + db, ra + rb, cancelled, i)
      {
        if i < |a| {
          assert DealtAt(a, da, ra, cancelled, i);
          assert (da + db)[..i] == da[..i];
        } else {
          var j := i - |a|;
          assert DealtAt(b, db, rb, cancelled || CancelledBy(da), j);
          assert (da + db)[..i] == da + db[..j];
          CancelledConcat(da, db[..j]);
        }
      }
    }

    lemma {:induction false} DealtOne(call: Call, deal: Deal, cancelled: bool)
      requires Right(call, deal, cancelled)
      ensures Dealt([call], [deal], [BlockFor(call, deal)], cancelled)
    {
      assert [deal][..0] == [];
      assert DealtAt([call], [deal], [BlockFor(call, deal)], cancelled, 0);
    }

    lemma {:induction false} RecordConcat(a: seq<Call>, b: seq<Call>, da: seq<Deal>, db: seq<Deal>)
      requires |a| == |da| && |b| == |db|
      ensures RecordOf(a + b, da + db) == RecordOf(a, da) + RecordOf(b, db)
    {
      assert RecordsFor(a + b, da + db) == RecordsFor(a, da) + RecordsFor(b, db);
      FlatConcat(RecordsFor(a, da), RecordsFor(b, db));
    }

    lemma {:induction false} RecordOfOne(call: Call, deal: Deal)
      ensures RecordOf([call], [deal]) == RecordFor(call, deal)
    {
      assert RecordsFor([call], [deal]) == [RecordFor(call, deal)];
      FlatOne(RecordFor(call, deal));
    }

    lemma {:induction false} RecordSnoc(calls: seq<Call>, deals: seq<Deal>, call: Call, deal: Deal)
      requires |calls| == |deals|
      ensures RecordOf(calls + [call], deals + [deal]) == RecordOf(calls, deals) + RecordFor(call, deal)
    {
      RecordConcat(calls, [call], deals, [deal]);
      RecordOfOne(call, deal);
    }

    /** What was put on record of this depth since is exactly that. */
    ghost predicate OnRecord(before: seq<Dealing>, after: seq<Dealing>, entries: seq<Dealing>) {
      before <= after && forall more :: Later(before, after, more) ==> Entered(more, entries)
    }

    ghost predicate Later(before: seq<Dealing>, after: seq<Dealing>, more: seq<Dealing>) { after == before + more }

    ghost predicate Entered(more: seq<Dealing>, entries: seq<Dealing>) { At(more, depth) == entries }

    lemma {:induction false} RecordedSince(before: seq<Dealing>, after: seq<Dealing>, entries: seq<Dealing>)
      requires OnRecord(before, after, entries)
      ensures At(after[|before|..], depth) == entries
    {
      assert Later(before, after, after[|before|..]);
      assert Entered(after[|before|..], entries);
    }

    lemma {:induction false} RecordIs(before: seq<Dealing>, more: seq<Dealing>, entries: seq<Dealing>)
      requires At(more, depth) == entries
      ensures OnRecord(before, before + more, entries)
    {
      forall m | Later(before, before + more, m)
        ensures Entered(m, entries)
      {
        assert m == (before + more)[|before|..] == more;
      }
    }

    lemma {:induction false} NothingRecorded(dealings: seq<Dealing>)
      ensures OnRecord(dealings, dealings, [])
    {
      assert dealings + [] == dealings;
      RecordIs(dealings, [], []);
    }

    lemma {:induction false} RecordedOn(a: seq<Dealing>, b: seq<Dealing>, c: seq<Dealing>, x: seq<Dealing>, y: seq<Dealing>)
      requires OnRecord(a, b, x) && OnRecord(b, c, y)
      ensures OnRecord(a, c, x + y)
    {
      var one, two := b[|a|..], c[|b|..];
      RecordedSince(a, b, x);
      RecordedSince(b, c, y);
      AtConcat(one, two, depth);
      assert a + (one + two) == c;
      RecordIs(a, one + two, x + y);
    }

    /** And that is what there is of these calls, dealt with so. */
    ghost predicate Recorded(before: seq<Dealing>, after: seq<Dealing>, calls: seq<Call>, deals: seq<Deal>) {
      |calls| == |deals| && forall entries :: AreEntries(calls, deals, entries) ==> OnRecord(before, after, entries)
    }

    ghost predicate AreEntries(calls: seq<Call>, deals: seq<Deal>, entries: seq<Dealing>)
      requires |calls| == |deals|
    {
      entries == RecordOf(calls, deals)
    }

    lemma {:induction false} RecordedIs(before: seq<Dealing>, after: seq<Dealing>, calls: seq<Call>, deals: seq<Deal>)
      requires Recorded(before, after, calls, deals)
      ensures OnRecord(before, after, RecordOf(calls, deals))
    {
      assert AreEntries(calls, deals, RecordOf(calls, deals));
    }

    lemma {:induction false} NoneRecorded(dealings: seq<Dealing>)
      ensures Recorded(dealings, dealings, [], [])
    {
      NothingRecorded(dealings);
      assert RecordsFor([], []) == [];
    }

    lemma {:induction false} OneCallRecorded(before: seq<Dealing>, after: seq<Dealing>, call: Call, deal: Deal)
      requires OnRecord(before, after, RecordFor(call, deal))
      ensures Recorded(before, after, [call], [deal])
    {
      RecordOfOne(call, deal);
    }

    lemma {:induction false} RecordedFurther(a: seq<Dealing>, b: seq<Dealing>, c: seq<Dealing>, x: seq<Call>, dx: seq<Deal>, y: seq<Call>, dy: seq<Deal>)
      requires Recorded(a, b, x, dx) && Recorded(b, c, y, dy)
      ensures Recorded(a, c, x + y, dx + dy)
    {
      RecordedIs(a, b, x, dx);
      RecordedIs(b, c, y, dy);
      RecordedOn(a, b, c, RecordOf(x, dx), RecordOf(y, dy));
      RecordConcat(x, y, dx, dy);
    }

    /** What was recorded of calls stands while others put nothing on record, and their deals
        may be known better then. */
    lemma {:induction false} RecordedStill(a: seq<Dealing>, b: seq<Dealing>, c: seq<Dealing>, calls: seq<Call>, deals: seq<Deal>, done: seq<Deal>)
      requires Recorded(a, b, calls, deals) && OnRecord(b, c, []) && |done| == |calls| && RecordOf(calls, done) == RecordOf(calls, deals)
      ensures Recorded(a, c, calls, done)
    {
      RecordedIs(a, b, calls, deals);
      RecordedOn(a, b, c, RecordOf(calls, deals), []);
      assert RecordOf(calls, deals) + [] == RecordOf(calls, deals);
    }

    /** An entry of its own depth is none for an agent above. */
    lemma {:induction false} OneRecorded(before: seq<Dealing>, d: Dealing)
      requires d.depth == depth
      ensures OnRecord(before, before + [d], [d]) && Shallow(before + [d], depth) == Shallow(before, depth)
    {
      assert [d][..0] == [] && At([d], depth) == At([], depth) + [d];
      RecordIs(before, [d], [d]);
      ShallowConcat(before, [d], depth);
      assert Shallow([d], depth) == Shallow([], depth);
    }

    /** What a subagent put on record is nothing here. */
    lemma {:induction false} RecordedBelow(before: seq<Dealing>, after: seq<Dealing>)
      requires before <= after && Shallow(after, depth + 1) == Shallow(before, depth + 1)
      ensures OnRecord(before, after, []) && Shallow(after, depth) == Shallow(before, depth)
    {
      var more := after[|before|..];
      assert after == before + more;
      ShallowConcat(before, more, depth + 1);
      ShallowConcat(before, more, depth);
      DeeperIsNone(more, depth);
      RecordIs(before, more, []);
    }

    // ------------------------------------------------------------- single actions

    ghost method Take(step: Step)
      requires life.state == s && Enabled(s, step) && !step.Compact?
      modifies this`life, this`s
      ensures life.id == old(life).id && life.cwd == old(life).cwd && life.write == old(life).write
      ensures life.state == s && s == Next(old(s), step)
      ensures life.trace == old(life).trace + [step] && life.notes == old(life).notes
    {
      life := Extended(life, step);
      s := Next(s, step);
    }

    method Write(record: Record)
      modifies this`journal
      ensures journal == if old(journal).Some? then Some(old(journal).value + [record]) else None
    {
      if journal.Some? {
        journal := Some(journal.value + [record]);
      }
    }

    method Push(role: Role, blocks: seq<Block>)
      requires Live() && Enabled(s, Say(role, blocks))
      modifies this`conv, this`journal, this`life, this`s
      ensures Live() && s == Next(old(s), Say(role, blocks)) && life.trace == old(life).trace + [Say(role, blocks)]
      ensures conv == old(conv).(messages := old(conv).messages + [Message(role, blocks)])
    {
      Write(Said(role, blocks));
      conv := conv.(messages := conv.messages + [Message(role, blocks)]);
      Take(Say(role, blocks));
    }

    /** The journal has that a call will be asked about. */
    method Announce(call: Call)
      requires Live() && s.phase.Answering?
      modifies this`journal, this`life, this`s
      ensures Live() && s == Next(old(s), Ask(call.id)) && old(life).trace <= life.trace
    {
      Write(ToolAsked(call.id));
      Take(Ask(call.id));
    }

    /** The journal has that a call will start. */
    method MarkStarted(call: Call)
      requires Live() && s.phase.Answering?
      modifies this`journal, this`life, this`s
      ensures Live() && s == Next(old(s), Start(call.id)) && old(life).trace <= life.trace
    {
      Write(ToolStarted(call.id));
      Take(Start(call.id));
    }

    /** A tool given a call, which must be on record as started. */
    method RunTool(call: Call) returns (out: Output)
      requires Live() && s.phase.Answering? && call.id in s.started
      requires world.Permitted() && Allowed(world.dealings, call.id)
      modifies this`life, this`s, world`ran, world`dealings
      ensures Live() && s == Next(old(s), Begin(call.id)) && old(life).trace <= life.trace
      ensures world.Permitted() && world.ran == old(world.ran) + [call.id]
      ensures world.dealings == old(world.dealings) + [Gave(depth, call.id, out)]
    {
      Take(Begin(call.id));
      out := world.Run(call.id, depth);
    }

    /** A call is put to the operator: what is on record then. */
    method AskAbout(call: Call) returns (permit: Permit)
      requires world.Permitted()
      modifies world`dealings, world`cancels
      ensures world.Permitted() && Onward(old(Here())) && (permit == Allow ==> Allowed(world.dealings, call.id))
      ensures OnRecord(old(world.dealings), world.dealings, [Ruled(depth, call.id, permit)])
      ensures permit.Retract? ==> old(world.cancels) < world.cancels
    {
      permit := world.Ask(call.id, depth);
      OneRecorded(old(world.dealings), Ruled(depth, call.id, permit));
    }

    /** An allowed call, on record as started before it begins. */
    method Perform(call: Call) returns (out: Output)
      requires Live() && s.phase.Answering? && world.Permitted() && Allowed(world.dealings, call.id)
      modifies this`journal, this`life, this`s, world`ran, world`dealings
      ensures Live() && world.Permitted() && Onward(old(Here()))
      ensures s == Next(Next(old(s), Start(call.id)), Begin(call.id)) && world.ran == old(world.ran) + [call.id]
      ensures OnRecord(old(world.dealings), world.dealings, [Gave(depth, call.id, out)])
    {
      MarkStarted(call);
      out := RunTool(call);
      OneRecorded(old(world.dealings), Gave(depth, call.id, out));
    }

    /** A call goes to the operator first, and only one allowed is run, on record as started
        before. Once the turn is cancelled none is asked about. Each call gets an output. */
    method RunCall(call: Call, cancelled: bool) returns (out: Output, cancelledNow: bool, ghost deal: Deal)
      requires Live() && s.phase.Answering? && world.Permitted()
      modifies this`journal, this`life, this`s, world`dealings, world`ran, world`cancels
      ensures Live() && SameResponse(old(s), s) && world.Permitted() && Onward(old(Here()))
      ensures (deal.Unasked? <==> cancelled) && !deal.Kept? && !deal.Tasked? && out == OutputFor(deal)
      ensures cancelledNow == (cancelled || Cancelling(deal)) && (Cancelling(deal) ==> old(world.cancels) < world.cancels)
      ensures OnRecord(old(world.dealings), world.dealings, RecordFor(call, deal))
      ensures if deal.Ran?
        then s == Next(Next(old(s), Start(call.id)), Begin(call.id)) && world.ran == old(world.ran) + [call.id]
        else s == old(s) && world.ran == old(world.ran)
    {
      if cancelled {
        NothingRecorded(world.dealings);
        return Output(given.says(TurnCancelled), true), true, Unasked;
      }
      var permit := AskAbout(call);
      match permit {
        case Allow =>
          ghost var asked := world.dealings;
          var given := Perform(call);
          RecordedOn(old(world.dealings), asked, world.dealings, [Ruled(depth, call.id, Allow)], [Gave(depth, call.id, given)]);
          var stopped := world.Stopped();
          deal := Ran(given, stopped);
          out := if stopped then Output(this.given.says(CallCancelled), true) else given;
          cancelledNow := stopped;
        case Deny(why) =>
          return Output(why, true), false, Denied(why, false);
        case Retract =>
          return Output(given.says(TurnCancelled), true), true, Retracted;
      }
    }

    /** Journals the result of the next call still open. */
    method End(call: Call, out: Output) returns (block: Block)
      requires Live() && s.phase.Answering? && |s.phase.done| < |s.calls| && s.calls[|s.phase.done|] == call
      modifies this`journal, this`life, this`s
      ensures Live() && old(life).trace <= life.trace && block == ToolResult(call.id, out.content, out.isError)
      ensures s == old(s).(log := old(s).log + [ToolEnded(call.id, out.content, out.isError)], phase := Answering(old(s).phase.done + [block]))
    {
      Write(ToolEnded(call.id, out.content, out.isError));
      Take(Step.End(out.content, out.isError));
      block := ToolResult(call.id, out.content, out.isError);
    }

    /** And counts the call. */
    method FinishCall(call: Call, out: Output) returns (block: Block)
      requires Live() && s.phase.Answering? && |s.phase.done| < |s.calls| && s.calls[|s.phase.done|] == call
      modifies this`journal, this`life, this`s, this`totals
      ensures Live() && old(life).trace <= life.trace && block == ToolResult(call.id, out.content, out.isError)
      ensures s == old(s).(log := old(s).log + [ToolEnded(call.id, out.content, out.isError)], phase := Answering(old(s).phase.done + [block]))
      ensures totals.usage == old(totals).usage && totals.turns == old(totals).turns
      ensures totals.toolCalls == old(totals).toolCalls + 1
      ensures totals.toolErrors == old(totals).toolErrors + (if out.isError then 1 else 0)
    {
      block := End(call, out);
      totals := totals.(toolCalls := totals.toolCalls + 1);
      if out.isError {
        totals := totals.(toolErrors := totals.toolErrors + 1);
      }
    }

    /** All calls answered, the results join the conversation. */
    method HandBack(results: seq<Block>)
      requires Live() && s.phase == Answering(results) && |results| == |s.calls|
      modifies this`conv, this`life, this`s
      ensures Live() && s.phase.Idle? && conv == old(conv).(messages := old(conv).messages + [Message(User, results)])
      ensures old(life).trace <= life.trace
    {
      conv := conv.(messages := conv.messages + [Message(User, results)]);
      Take(Deliver);
    }

    /** Counts a request's usage, and sends it. */
    method Count(u: Usage)
      requires Books()
      modifies this`totals, this`updates, this`counted
      ensures Books() && counted == old(counted) + [u]
    {
      assert Sum([u]) == Plus(Sum([u][..0]), u) && Updates([u]) == [Update(u)];
      BooksAre();
      BalancedPlus(totals.usage, updates, counted, u, [Update(u)], [u]);
      totals := totals.(usage := Plus(totals.usage, u));
      updates := updates + [Update(u)];
      counted := counted + [u];
    }

    method CountIn(usage: Option<Usage>)
      requires Books()
      modifies this`totals, this`updates, this`counted
      ensures Books() && counted == old(counted) + Given(usage)
    {
      if usage.Some? {
        Count(usage.value);
      }
    }

    // ------------------------------------------------------------- requests

    /** A request as the upstream has it so far. */
    function SoFar(base: seq<Asking>, main: bool, tries: seq<Reply>): seq<Asking> {
      if tries == [] then base else base + [Asking(main, depth, tries)]
    }

    lemma {:induction false} TriedAgain(base: seq<Asking>, main: bool, tries: seq<Reply>, reply: Reply)
      ensures SoFar(base, main, tries + [reply]) ==
        if tries == [] then base + [Asking(main, depth, [reply])] else Again(SoFar(base, main, tries), reply)
    {
      if tries == [] {
        assert tries + [reply] == [reply];
      } else {
        var all := base + [Asking(main, depth, tries)];
        assert all[..|base|] == base;
      }
    }

    /** One model request, tried again as long as `WellTried` lets it be, and what became of
        it. */
    method Request(main: bool) returns (r: Asked, ghost asking: Asking)
      requires Tried()
      modifies world`requests, world`cancels
      ensures Tried() && world.requests == old(world.requests) + [asking]
      ensures WellTried(given.trimmed, asking) && asking.main == main && asking.depth == depth
      ensures r == FateOf(given.trimmed, asking) && (r.Answered? ==> Plausible(r.completion))
      ensures old(world.cancels) <= world.cancels && (r.Withdrawn? ==> old(world.cancels) < world.cancels)
    {
      TriedAre();
      ghost var base := world.requests;
      ghost var tries: seq<Reply> := [];
      var attempt := 0;
      while true
        invariant |tries| == attempt <= |BACKOFF|
        invariant forall k :: 0 <= k < |tries| ==> WorthAnother(given.trimmed, main, tries[k])
        invariant world.requests == SoFar(base, main, tries) && old(world.cancels) <= world.cancels
        decreases |BACKOFF| - attempt
      {
        var reply := world.Complete(attempt == 0, main, depth);
        TriedAgain(base, main, tries, reply);
        tries := tries + [reply];
        if !reply.Failure? {
          r := if reply.Answer? then Answered(reply.completion) else Withdrawn;
          break;
        }
        var shown := if main then reply.shown else "";
        var wait := Wait(attempt, reply.error, main && !Blank(shown));
        if wait.None? {
          r := Failed(reply.error, shown);
          break;
        }
        attempt := attempt + 1;
        var cancelled := world.Stopped();
        if cancelled {
          r := Withdrawn;
          break;
        }
      }
      asking := Asking(main, depth, tries);
      assert WellTried(given.trimmed, asking);
    }

    // ------------------------------------------------------------- compaction

    predicate Fits(c: Conv) {
      given.window.Some? && Estimate(c, given.overhead) < Sizes.Threshold(given.window.value)
    }

    /** How much a compaction leaves as it is. After a refusal the estimate is no guide, and
        the operator's wish is to be made smaller: a quarter at most. */
    function Keep(trigger: Trigger, c: Conv): nat {
      var most := LimitsFor(given.window).keepRaw;
      if trigger == Threshold then most else Min(most, MessagesTokens(c) / 4)
    }

    /** Where a conversation is to be cut: nowhere when it has come to fit, else at the earliest
        boundary after which what is kept fits, if any work was done before that. */
    ghost predicate CutAt(trigger: Trigger, c: Conv, upto: Option<nat>) {
      if trigger == Threshold && Fits(c) then upto == None
      else exists k :: Cutting.EarliestCut(c.messages, Keep(trigger, c), RateOf(c), k) && upto == Cutting.CutOrNone(c.messages, k)
    }

    method CutFor(trigger: Trigger) returns (upto: Option<nat>)
      ensures CutAt(trigger, conv, upto)
      ensures upto.Some? ==> Boundary(conv.messages, upto.value)
    {
      if trigger == Threshold && Fits(conv) {
        return None;
      }
      upto := Cutting.Cut(conv.messages, Keep(trigger, conv), RateOf(conv));
    }

    /** The messages rewritten, and what they come to estimated anew. */
    function Rewritten(c: Conv, messages: seq<Message>): (r: Conv)
      ensures r.messages == messages
    {
      Remeasure(c.(messages := messages), given.overhead)
    }

    function AfterPrune(c: Conv, plan: seq<Pruned>): Conv {
      if plan == [] then c else Rewritten(c, PruneMessages(c.messages, plan))
    }

    method Prune(plan: seq<Pruned>)
      requires Live() && s.phase.Idle?
      modifies this`conv, this`journal, this`life, this`s
      ensures Live() && s == Next(old(s), Step.Prune(plan)) && conv == Rewritten(old(conv), PruneMessages(old(conv).messages, plan))
      ensures life.trace == old(life).trace + [Step.Prune(plan)] && life.notes == old(life).notes
    {
      Write(PrunedResults(plan));
      conv := Rewritten(conv, PruneMessages(conv.messages, plan));
      Take(Step.Prune(plan));
    }

    ghost method TakeCompact(message: string, upto: nat, notes: string)
      requires life.state == s && Enabled(s, Step.Compact(message, upto)) && message == life.write(s.messages, upto, notes)
      modifies this`life, this`s
      ensures life.id == old(life).id && life.cwd == old(life).cwd && life.write == old(life).write
      ensures life.state == s && s.phase.Idle? && s.messages == Summarise(old(s).messages, message, |old(s).messages| - upto)
      ensures s.log == old(s).log + [Compacted(message, |old(s).messages| - upto)]
      ensures life.trace == old(life).trace + [Step.Compact(message, upto)] && life.notes == old(life).notes + [notes]
    {
      CompactIs(s, message, upto);
      life := Shortened(life, upto, notes);
      s := life.state;
    }

    lemma {:induction false} CompactIs(s: State, message: string, upto: nat)
      requires Enabled(s, Step.Compact(message, upto))
      ensures var next, keep := Next(s, Step.Compact(message, upto)), |s.messages| - upto;
        next.phase.Idle? && next.messages == Summarise(s.messages, message, keep) && next.log == s.log + [Compacted(message, keep)]
    {
    }

    /** All before an index replaced by a message written from these notes. */
    method Substitute(message: string, upto: nat, ghost notes: string)
      requires Live() && s.phase.Idle? && Boundary(conv.messages, upto) && message == given.write(conv.messages, upto, notes)
      modifies this`conv, this`journal, this`life, this`s
      ensures Live() && s.phase.Idle? && conv == Rewritten(old(conv), s.messages)
      ensures life.trace == old(life).trace + [Step.Compact(message, upto)] && life.notes == old(life).notes + [notes]
    {
      var keep := |conv.messages| - upto;
      Write(Compacted(message, keep));
      TakeCompact(message, upto, notes);
      conv := Rewritten(conv, Summarise(conv.messages, message, keep));
    }

    method WriteFor(messages: seq<Message>, upto: nat, notes: string) returns (message: string)
      requires upto <= |messages|
      ensures message == given.write(messages, upto, notes)
    {
      message := Remembering.WriteSummary(given.wording, messages, upto, notes);
      assert Proper(given) && WritesIt(given.write, given.wording, messages, upto, notes);
    }

    /** What the message is written from, if the summary says anything. */
    function NotesIn(completion: Completion): Option<string> {
      var text := TextOf(completion.blocks);
      if Blank(text) then None else Some(given.trimmed(text))
    }

    function NotesOf(fate: Option<Asked>): Option<string> {
      if fate.Some? && fate.value.Answered? then NotesIn(fate.value.completion) else None
    }

    /** All before the index replaced by the message of these notes, if there are any. */
    ghost predicate Noted(before: Run, messages: seq<Message>, after: Run, upto: nat, notes: Option<string>) {
      after.trace == before.trace +
        (if notes.Some? then [Step.Compact(given.write(messages, upto, notes.value), upto)] else []) &&
      after.notes == before.notes + (if notes.Some? then [notes.value] else [])
    }

    /** Puts a summary in place, if there is one. */
    method UseNotes(upto: nat, notes: Option<string>)
      requires Live() && s.phase.Idle? && Boundary(conv.messages, upto)
      modifies this`conv, this`journal, this`life, this`s
      ensures Live() && s.phase.Idle? && Noted(old(life), old(conv).messages, life, upto, notes)
      ensures notes.None? ==> conv == old(conv) && s == old(s)
    {
      if notes.Some? {
        var message := WriteFor(conv.messages, upto, notes.value);
        Substitute(message, upto, notes.value);
      }
    }

    /** Whether a summary was asked for, in one request and no other, and how that went. */
    ghost predicate AskedFor(before: seq<Asking>, after: seq<Asking>, fate: Option<Asked>) {
      if fate.None? then after == before
      else
        |after| == |before| + 1 && before <= after &&
        var r := after[|before|];
        !r.main && r.depth == depth && WellTried(given.trimmed, r) && fate.value == FateOf(given.trimmed, r)
    }

    lemma {:induction false} AskedIsSpent(before: seq<Asking>, after: seq<Asking>, fate: Option<Asked>)
      requires AskedFor(before, after, fate)
      ensures Spent(before, after, Bill([], 0, ATTEMPTS_A_REQUEST, 0))
    {
      if fate.Some? {
        SpentOnOne(before, after[|before|]);
        assert after == before + [after[|before|]];
      } else {
        SpentNothing(before, ATTEMPTS_A_REQUEST, 0);
      }
    }

    method RequestSummary() returns (fate: Asked)
      requires Healthy()
      modifies world`requests, world`cancels
      ensures Live() && Books() && Tried() && world.Permitted() && AskedFor(old(world.requests), world.requests, Some(fate))
      ensures Owing(counted, UsageOwed(fate))
      ensures old(world.cancels) <= world.cancels && (fate.Withdrawn? ==> old(world.cancels) < world.cancels)
    {
      AllOwed();
      ghost var asking;
      fate, asking := Request(false);
      OwingMore(old(world.requests), asking);
    }

    /** Asks the model for a summary, puts it in place if it says anything, and counts it
        either way. */
    method AskSummary(upto: nat) returns (fate: Asked)
      requires Healthy() && s.phase.Idle? && Boundary(conv.messages, upto)
      modifies this`conv, this`journal, this`life, this`s, this`totals, this`updates, this`counted, world`requests, world`cancels
      ensures Healthy() && s.phase.Idle? && old(counted) <= counted
      ensures AskedFor(old(world.requests), world.requests, Some(fate))
      ensures Noted(old(life), old(conv).messages, life, upto, NotesOf(Some(fate)))
      ensures NotesOf(Some(fate)).None? ==> conv == old(conv) && s == old(s)
      ensures old(world.cancels) <= world.cancels && (fate.Withdrawn? ==> old(world.cancels) < world.cancels)
    {
      fate := RequestSummary();
      UseNotes(upto, NotesOf(Some(fate)));
      CountIn(if fate.Answered? then fate.completion.usage else None);
      CountedAll(old(counted), UsageOwed(fate));
    }

    /** The old outputs worth replacing. */
    method PlanFor() returns (plan: seq<Pruned>)
      ensures Plans(plan, conv)
    {
      plan := Pruning.PlanPrune(conv.messages, RateOf(conv), LimitsFor(given.window));
    }

    ghost predicate Plans(plan: seq<Pruned>, c: Conv) {
      plan == Pruning.PrunePlan(c.messages, RateOf(c), LimitsFor(given.window))
    }

    /** Replaces the old outputs worth replacing, if any. */
    method PruneOld() returns (plan: seq<Pruned>)
      requires Live() && s.phase.Idle?
      modifies this`conv, this`journal, this`life, this`s
      ensures Live() && s.phase.Idle? && Plans(plan, old(conv)) && conv == AfterPrune(old(conv), plan)
      ensures s == if plan == [] then old(s) else Next(old(s), Step.Prune(plan))
      ensures life.trace == old(life).trace + (if plan == [] then [] else [Step.Prune(plan)]) && life.notes == old(life).notes
    {
      plan := PlanFor();
      if plan != [] {
        Prune(plan);
      }
    }

    /** How a compaction went, by what it made. */
    function Verdict(made: Made): Compacting {
      if made.fate == Some(Withdrawn) then Abandoned
      else if made.plan == [] && NotesOf(made.fate).None? then Nothing
      else Done
    }

    /** It pruned as planned and cut where it should, and those are its steps. */
    ghost predicate CameTo(trigger: Trigger, c: Conv, before: Run, after: Run, made: Made) {
      var pruned := AfterPrune(c, made.plan);
      Plans(made.plan, c) && CutAt(trigger, pruned, made.upto) && (made.fate.Some? <==> made.upto.Some?) &&
      after.trace == before.trace + (if made.plan == [] then [] else [Step.Prune(made.plan)]) +
        (if NotesOf(made.fate).Some? then [Step.Compact(given.write(pruned.messages, made.upto.value, NotesOf(made.fate).value), made.upto.value)] else []) &&
      after.notes == before.notes + (if NotesOf(made.fate).Some? then [NotesOf(made.fate).value] else [])
    }

    /** Shortens the conversation. Old outputs are replaced; then, if what is left is
        too much or that was not the reason, the model is asked to sum up all but the end
        of it. The journal has each step first. */
    method Compact(trigger: Trigger) returns (r: Compacting, ghost made: Made)
      requires Healthy() && s.phase.Idle?
      modifies this`conv, this`journal, this`life, this`s, this`totals, this`updates, this`counted, world`requests, world`cancels
      ensures Healthy() && s.phase.Idle? && old(counted) <= counted
      ensures AskedFor(old(world.requests), world.requests, made.fate)
      ensures CameTo(trigger, old(conv), old(life), life, made) && r == Verdict(made)
      ensures NotesOf(made.fate).None? ==> conv == AfterPrune(old(conv), made.plan)
      ensures r.Nothing? ==> conv == old(conv) && s == old(s)
      ensures old(world.cancels) <= world.cancels && (r.Abandoned? ==> old(world.cancels) < world.cancels)
    {
      var plan := PruneOld();
      var upto := CutFor(trigger);
      var fate: Option<Asked> := None;
      if upto.Some? {
        var asked := AskSummary(upto.value);
        fate := Some(asked);
      }
      made := Made(plan, upto, fate);
      r := if fate == Some(Withdrawn) then Abandoned
           else if plan == [] && NotesOf(fate).None? then Nothing
           else Done;
    }

    // ------------------------------------------------------------- calls

    /** What is wrong with a call as the model wrote it, if anything. */
    function Problem(call: Call, finishReason: Option<string>): Option<string> {
      if finishReason == Some("length") then Some(given.says(CutOff))
      else if Blank(call.name) then Some(given.says(NoTool))
      else if call.name !in given.tools && !(call.name == SPAWN && given.spawner.Some?) &&
              !(call.name == FINISH && given.finish.Some?)
      then Some(given.says(UnknownTool(call.name)))
      else
        match call.input.json
        case Obj(_) => None
        case Str(raw) => Some(given.says(BadJson(call.name, raw)))
        case _ => Some(given.says(NotAnObject(call.name)))
    }

    function FirstProblem(calls: seq<Call>, finishReason: Option<string>): Option<string> {
      if calls == [] then None
      else if Problem(calls[0], finishReason).Some? then Problem(calls[0], finishReason)
      else FirstProblem(calls[1..], finishReason)
    }

    /** What each call of a malformed response is answered with. */
    function Complaints(calls: seq<Call>, finishReason: Option<string>): (texts: seq<string>)
      ensures |texts| == |calls|
    {
      seq(|calls|, i requires 0 <= i < |calls| =>
        var problem := Problem(calls[i], finishReason);
        if problem.Some? then problem.value else given.says(OtherMalformed))
    }

    /** Every call is answered with its text, as an error. */
    method EndUnrun(calls: seq<Call>, texts: seq<string>) returns (results: seq<Block>)
      requires Live() && s.phase == Answering([]) && s.calls == calls && |texts| == |calls|
      modifies this`journal, this`life, this`s
      ensures Live() && s.phase == Answering(results) && s.calls == calls && s.messages == old(s).messages
      ensures results == Unrun(calls, texts) && old(life).trace <= life.trace
    {
      results := [];
      for i := 0 to |calls|
        invariant Live() && s.phase == Answering(results) && s.calls == calls && s.messages == old(s).messages
        invariant |results| == i && old(life).trace <= life.trace
        invariant forall j :: 0 <= j < i ==> results[j] == ToolResult(calls[j].id, texts[j], true)
      {
        var block := End(calls[i], Output(texts[i], true));
        results := results + [block];
      }
    }

    /** Calls that are not to run get these texts as errors, in the journal and in the
        conversation, so that none is left open. */
    method CloseUnrun(calls: seq<Call>, texts: seq<string>)
      requires Live() && s.phase == Answering([]) && s.calls == calls && |texts| == |calls|
      modifies this`conv, this`journal, this`life, this`s
      ensures Live() && s.phase.Idle? && old(life).trace <= life.trace
      ensures conv == old(conv).(messages := old(conv).messages + [Message(User, Unrun(calls, texts))])
    {
      var results := EndUnrun(calls, texts);
      HandBack(results);
    }

    // ------------------------------------------------------------- subagents

    /** What a spawn call asks for, or why it cannot be run. */
    function TaskOf(input: Json): Task
      requires given.spawner.Some?
    {
      var task, shape, model := Get(input, "task"), Get(input, "result_schema"), Get(input, "model");
      if !task.Str? || Blank(task.text) then Refusal(EmptyTask)
      else if !shape.Null? && Get(shape, "type") != Str("object") then Refusal(SchemaNotObject)
      else
        var schema := if shape.Null? then DEFAULT_SCHEMA else shape;
        if !model.Str? || model.text == "" then Task(task.text, schema, given.window)
        else
          var allowed := given.spawner.value.Allows(model.text);
          if allowed.None? then Refusal(NotOffered(model.text)) else Task(task.text, schema, allowed.value)
    }

    /** What a subagent is run with. */
    function ChildSetup(task: Task, extra: nat): (setup: Setup)
      requires task.Task?
      ensures setup.maxTurns == Some(CHILD_MAX_TURNS) && setup.spawner.None? && setup.finish == Some(task.schema)
      ensures setup.trimmed == given.trimmed && setup.write == given.write
    {
      assert Proper(given);
      given.(maxTurns := Some(CHILD_MAX_TURNS), window := task.window, spawner := None,
             finish := Some(task.schema), overhead := extra)
    }

    /** What a spawn call is answered with: why it was not run, a result of the shape it asked
        for, or how else its subagent ended. */
    ghost predicate ChildSaid(task: Task, out: Output, ending: Option<Ending>) {
      match task
      case Refusal(notice) => ending.None? && out == Output(given.says(notice), true)
      case Task(_, schema, _) =>
        ending.Some? &&
        if ending.value.Ended? && ending.value.outcome.Returned?
        then out == Output(given.printed(ending.value.outcome.value), false) && Schema.Check(schema, ending.value.outcome.value)
        else out == Output(given.says(ChildEnded(ending.value)), true)
    }

    /** A subagent, run for one call in the same world. What it used is what the upstream
        answered meanwhile, and it made no more attempts there than its turns allow. */
    method RunChild(call: Call) returns (out: Output, used: Totals, sent: seq<Told>, ghost counts: seq<Usage>, ghost ending: Option<Ending>)
      requires given.spawner.Some? && Tried() && world.Permitted()
      modifies world`requests, world`dealings, world`ran, world`cancels
      ensures Tried() && world.Permitted() && Onward(old(Here())) && OnRecord(old(world.dealings), world.dealings, [])
      ensures Balanced(used.usage, sent, counts) && Owed(world.requests) == old(Owed(world.requests)) + counts
      ensures Spent(old(world.requests), world.requests, Bill([], 0, 0, CHILD_ATTEMPTS))
      ensures ChildSaid(TaskOf(call.input.json), out, ending)
      ensures ending.None? ==> world.requests == old(world.requests)
      decreases Rank(), 0
    {
      used, sent, counts, ending := NO_TOTALS, [], [], None;
      var task := TaskOf(call.input.json);
      if task.Refusal? {
        NothingRecorded(world.dealings);
        SpentNothing(world.requests, 0, CHILD_ATTEMPTS);
        return Output(given.says(task.notice), true), used, sent, counts, ending;
      }
      var extra: nat := *;
      var setup := ChildSetup(task, extra);
      var child := new Agent(setup, given.orientation + "\n\n" + conv.system, [], None, world, depth + 1,
                             Begun(call.id, cwd, given.write));
      NoCallsOf([Text(task.text)]);
      child.Push(User, [Text(task.text)]);
      var end;
      ghost var bill, served;
      end, bill, served := child.RunTurn(CHILD_MAX_TURNS + 1);
      child.SpentSince(old(world.requests), world.requests, bill);
      child.BooksAre();
      child.AllOwed();
      child.TriedAre();
      SpentBelow(old(world.requests), world.requests, CHILD_ATTEMPTS);
      RecordedBelow(old(world.dealings), world.dealings);
      used, sent, counts, ending := child.totals, child.updates, child.counted, Some(end);
      out := if end.Ended? && end.outcome.Returned?
             then Output(given.printed(end.outcome.value), false)
             else Output(given.says(ChildEnded(end)), true);
    }

    /** A subagent's usage is its parent's. */
    method AddUsage(used: Totals, sent: seq<Told>, ghost counts: seq<Usage>)
      requires Books() && Balanced(used.usage, sent, counts)
      modifies this`totals, this`updates, this`counted
      ensures Books() && counted == old(counted) + counts
    {
      var usage, told := Plus(totals.usage, used.usage), updates + sent;
      ghost var all := counted + counts;
      assert Balanced(usage, told, all) by {
        BooksAre();
        BalancedPlus(totals.usage, updates, counted, used.usage, sent, counts);
      }
      totals := Totals(totals.turns + used.turns, usage, totals.toolCalls + used.toolCalls,
                       totals.toolErrors + used.toolErrors);
      updates, counted := told, all;
    }

    /** A group of spawn calls is asked about, one after another, and those allowed are on
        record as started. */
    method DecideGroup(group: seq<Call>, cancelled: bool)
      returns (refused: seq<Option<Output>>, cancelledNow: bool, ghost deals: seq<Deal>)
      requires Live() && s.phase.Answering? && world.Permitted()
      modifies this`journal, this`life, this`s, world`dealings, world`cancels
      ensures Live() && SameResponse(old(s), s) && world.Permitted() && Onward(old(Here()))
      ensures |refused| == |group| && Decided(group, refused, deals, cancelled)
      ensures cancelledNow == (cancelled || CancelledBy(deals)) && (CancelledBy(deals) ==> old(world.cancels) < world.cancels)
      ensures |deals| == |group| && Recorded(old(world.dealings), world.dealings, group, deals)
    {
      refused, cancelledNow, deals := [], cancelled, [];
      NoneRecorded(world.dealings);
      for i := 0 to |group|
        invariant Live() && SameResponse(old(s), s) && world.Permitted() && Onward(old(Here()))
        invariant i == |refused| && Decided(group, refused, deals, cancelled)
        invariant cancelledNow == (cancelled || CancelledBy(deals)) && (CancelledBy(deals) ==> old(world.cancels) < world.cancels)
        invariant |deals| == i && Recorded(old(world.dealings), world.dealings, group[..i], deals)
      {
        refused, cancelledNow, deals := DecideMore(group, refused, cancelledNow, deals, cancelled, old(Here()));
      }
      assert group[..|group|] == group;
    }

    /** One turn of that loop. */
    method DecideMore(group: seq<Call>, refused: seq<Option<Output>>, cancelledBefore: bool, ghost deals: seq<Deal>, ghost cancelled: bool, ghost m: Mark)
      returns (refusedNow: seq<Option<Output>>, cancelledNow: bool, ghost dealt: seq<Deal>)
      requires Live() && s.phase.Answering? && world.Permitted() && Onward(m)
      requires |refused| < |group| && Decided(group, refused, deals, cancelled) && Recorded(m.dealings, world.dealings, group[..|refused|], deals)
      requires cancelledBefore == (cancelled || CancelledBy(deals)) && (CancelledBy(deals) ==> m.cancels < world.cancels)
      modifies this`journal, this`life, this`s, world`dealings, world`cancels
      ensures Live() && SameResponse(old(s), s) && world.Permitted() && Onward(m)
      ensures |refusedNow| == |refused| + 1 && Decided(group, refusedNow, dealt, cancelled)
      ensures Recorded(m.dealings, world.dealings, group[..|refusedNow|], dealt)
      ensures cancelledNow == (cancelled || CancelledBy(dealt)) && (CancelledBy(dealt) ==> m.cancels < world.cancels)
    {
      var i := |refused|;
      ghost var started, dealings := s.started, world.dealings;
      var out;
      ghost var deal;
      out, cancelledNow, deal := Decide(group[i], cancelledBefore);
      StillDecided(group, refused, deals, cancelled, started, dealings);
      DecidedMore(group, refused, deals, cancelled, out, deal);
      OneCallRecorded(dealings, world.dealings, group[i], deal);
      RecordedFurther(m.dealings, dealings, world.dealings, group[..i], deals, [group[i]], [deal]);
      assert group[..i + 1] == group[..i] + [group[i]];
      CancelledMore(deals, deal);
      refusedNow, dealt := refused + [out], deals + [deal];
    }

    lemma {:induction false} CancelledMore(deals: seq<Deal>, deal: Deal)
      ensures CancelledBy(deals + [deal]) <==> CancelledBy(deals) || Cancelling(deal)
    {
      CancelledConcat(deals, [deal]);
      assert CancelledBy([deal]) <==> Cancelling(deal) by {
        assert [deal][0] == deal;
      }
    }

    /** A call left to run is on record as started, and allowed. */
    ghost predicate Ready(call: Call)
      reads this`s, world`dealings
    {
      call.id in s.started && Allowed(world.dealings, call.id)
    }

    /** A spawn that was decided: left to run, which it is ready for, or refused with what its
        deal says; and asked about unless the turn was cancelled. */
    ghost predicate DecidedAs(call: Call, refused: Option<Output>, deal: Deal, cancelled: bool) {
      (deal.Unasked? <==> cancelled) && !deal.Kept? && !deal.Ran? && (refused.None? <==> deal.Tasked?) &&
      (refused.Some? ==> refused.value == OutputFor(deal)) && !((deal.Denied? || deal.Tasked?) && deal.stopped)
    }

    ghost predicate Decided(group: seq<Call>, refused: seq<Option<Output>>, deals: seq<Deal>, cancelled: bool)
      reads this`s, world`dealings
    {
      |deals| == |refused| <= |group| &&
      (forall i :: 0 <= i < |refused| ==> DecidedAt(group, refused, deals, cancelled, i)) &&
      forall i :: 0 <= i < |refused| && refused[i].None? ==> Ready(group[i])
    }

    ghost predicate DecidedAt(group: seq<Call>, refused: seq<Option<Output>>, deals: seq<Deal>, cancelled: bool, i: nat)
      requires i < |refused| == |deals| <= |group|
    {
      DecidedAs(group[i], refused[i], deals[i], cancelled || CancelledBy(deals[..i]))
    }

    lemma {:induction false} DecidedMore(group: seq<Call>, refused: seq<Option<Output>>, deals: seq<Deal>, cancelled: bool, out: Option<Output>, deal: Deal)
      requires |refused| < |group| && Decided(group, refused, deals, cancelled)
      requires DecidedAs(group[|refused|], out, deal, cancelled || CancelledBy(deals)) && (out.None? ==> Ready(group[|refused|]))
      ensures Decided(group, refused + [out], deals + [deal], cancelled)
    {
      var n := |refused|;
      forall i | 0 <= i <= n
        ensures DecidedAt(group, refused + [out], deals + [deal], cancelled, i)
      {
        if i < n {
          assert DecidedAt(group, refused, deals, cancelled, i);
        }
        assert (deals + [deal])[..i] == deals[..i] && deals[..n] == deals;
      }
    }

    /** One spawn call announced and asked about: what it is refused with, if it is. */
    method Decide(call: Call, cancelled: bool) returns (refused: Option<Output>, cancelledNow: bool, ghost deal: Deal)
      requires Live() && s.phase.Answering? && world.Permitted()
      modifies this`journal, this`life, this`s, world`dealings, world`cancels
      ensures Live() && SameResponse(old(s), s) && world.Permitted() && Onward(old(Here()))
      ensures DecidedAs(call, refused, deal, cancelled) && (refused.None? ==> Ready(call))
      ensures cancelledNow == (cancelled || Cancelling(deal)) && (Cancelling(deal) ==> old(world.cancels) < world.cancels)
      ensures OnRecord(old(world.dealings), world.dealings, RecordFor(call, deal))
    {
      Announce(call);
      if cancelled {
        NothingRecorded(world.dealings);
        return Some(Output(given.says(TurnCancelled), true)), true, Unasked;
      }
      var permit := AskAbout(call);
      match permit {
        case Allow =>
          MarkStarted(call);
          return None, false, Tasked(Output("", false), None, false);
        case Deny(why) =>
          return Some(Output(why, true)), false, Denied(why, false);
        case Retract =>
          return Some(Output(given.says(TurnCancelled), true)), true, Retracted;
      }
    }

    /** One subagent run for its call. */
    method SpawnOne(call: Call) returns (out: Output, ghost ending: Option<Ending>)
      requires given.spawner.Some? && Healthy() && s.phase.Answering? && Ready(call)
      modifies this`life, this`s, this`totals, this`updates, this`counted, world`requests, world`dealings, world`ran, world`cancels
      ensures Healthy() && s == Next(old(s), Begin(call.id)) && Onward(old(Here()))
      ensures ChildSaid(TaskOf(call.input.json), out, ending) && OnRecord(old(world.dealings), world.dealings, [])
      ensures Spent(old(world.requests), world.requests, Bill([], 0, 0, CHILD_ATTEMPTS))
      decreases Rank(), 1
    {
      AllOwed();
      Take(Begin(call.id));
      world.Begin(call.id);
      var used, sent;
      ghost var counts;
      out, used, sent, counts, ending := RunChild(call);
      AddUsage(used, sent, counts);
      assert Owing(old(counted), counts);
      CountedAll(old(counted), counts);
    }

    /** Decided calls stay so while others are. */
    lemma {:induction false} StillDecided(group: seq<Call>, refused: seq<Option<Output>>, deals: seq<Deal>, cancelled: bool,
                                          started: set<string>, dealings: seq<Dealing>)
      requires |deals| == |refused| <= |group| && started <= s.started && dealings <= world.dealings
      requires forall i :: 0 <= i < |refused| ==> DecidedAt(group, refused, deals, cancelled, i)
      requires forall i :: 0 <= i < |refused| && refused[i].None? ==> group[i].id in started && Allowed(dealings, group[i].id)
      ensures Decided(group, refused, deals, cancelled)
    {
      forall i | 0 <= i < |refused| && refused[i].None?
        ensures Ready(group[i])
      {
        var k :| 0 <= k < |dealings| && Allows(dealings[k], group[i].id);
        assert world.dealings[k] == dealings[k];
      }
    }

    /** What a group's deals become once those left to run have run. */
    ghost predicate Filled(call: Call, deal: Deal, done: Deal, out: Output)
      requires given.spawner.Some?
    {
      out == OutputFor(done) &&
      if deal.Tasked? then done.Tasked? && !done.stopped && ChildSaid(TaskOf(call.input.json), done.out, done.ending)
      else done == deal
    }

    /** Those of a group that are left to run are run, and what the others were refused with
        stands. */
    method RunDecided(group: seq<Call>, refused: seq<Option<Output>>, ghost deals: seq<Deal>, ghost cancelled: bool)
      returns (outs: seq<Output>, ghost done: seq<Deal>)
      requires given.spawner.Some? && Healthy() && s.phase.Answering? && |refused| == |group| && Decided(group, refused, deals, cancelled)
      modifies this`life, this`s, this`totals, this`updates, this`counted, world`requests, world`dealings, world`ran, world`cancels
      ensures Healthy() && SameResponse(old(s), s) && Onward(old(Here())) && OnRecord(old(world.dealings), world.dealings, [])
      ensures |outs| == |group| == |done| && forall i :: 0 <= i < |group| ==> Filled(group[i], deals[i], done[i], outs[i])
      ensures Spent(old(world.requests), world.requests, Bill([], 0, 0, CHILD_ATTEMPTS * |group|))
      decreases Rank(), 2
    {
      outs, done := [], [];
      SpentNothing(world.requests, 0, 0);
      NothingRecorded(world.dealings);
      for i := 0 to |group|
        invariant Healthy() && SameResponse(old(s), s) && Onward(old(Here())) && OnRecord(old(world.dealings), world.dealings, [])
        invariant |outs| == i == |done| && forall j :: 0 <= j < i ==> Filled(group[j], deals[j], done[j], outs[j])
        invariant Decided(group, refused, deals, cancelled)
        invariant Spent(old(world.requests), world.requests, Bill([], 0, 0, CHILD_ATTEMPTS * i))
      {
        var out;
        ghost var deal;
        out, deal := FillNext(group, refused, deals, cancelled, i, old(world.requests), old(world.dealings));
        outs, done := outs + [out], done + [deal];
      }
    }

    /** One of a group: what it was refused with, or what came of running it. */
    method FillNext(group: seq<Call>, refused: seq<Option<Output>>, ghost deals: seq<Deal>, ghost cancelled: bool, i: nat,
                    ghost base: seq<Asking>, ghost dealings: seq<Dealing>)
      returns (out: Output, ghost deal: Deal)
      requires given.spawner.Some? && Healthy() && s.phase.Answering? && Decided(group, refused, deals, cancelled)
      requires i < |refused| && OnRecord(dealings, world.dealings, [])
      requires Spent(base, world.requests, Bill([], 0, 0, CHILD_ATTEMPTS * i))
      modifies this`life, this`s, this`totals, this`updates, this`counted, world`requests, world`dealings, world`ran, world`cancels
      ensures Healthy() && SameResponse(old(s), s) && Onward(old(Here())) && OnRecord(dealings, world.dealings, [])
      ensures Decided(group, refused, deals, cancelled) && Filled(group[i], deals[i], deal, out)
      ensures Spent(base, world.requests, Bill([], 0, 0, CHILD_ATTEMPTS * (i + 1)))
      decreases Rank(), 2, 1
    {
      assert DecidedAt(group, refused, deals, cancelled, i);
      if refused[i].Some? {
        out, deal := refused[i].value, deals[i];
        SpentAtMost(base, world.requests, Bill([], 0, 0, CHILD_ATTEMPTS * i), Bill([], 0, 0, CHILD_ATTEMPTS * (i + 1)));
      } else {
        out, deal := SpawnNext(group, refused, deals, cancelled, i, base, dealings);
      }
    }

    /** The next of them. */
    method SpawnNext(group: seq<Call>, refused: seq<Option<Output>>, ghost deals: seq<Deal>, ghost cancelled: bool, i: nat,
                     ghost base: seq<Asking>, ghost dealings: seq<Dealing>)
      returns (out: Output, ghost deal: Deal)
      requires given.spawner.Some? && Healthy() && s.phase.Answering? && Decided(group, refused, deals, cancelled)
      requires i < |refused| && refused[i].None? && OnRecord(dealings, world.dealings, [])
      requires Spent(base, world.requests, Bill([], 0, 0, CHILD_ATTEMPTS * i))
      modifies this`life, this`s, this`totals, this`updates, this`counted, world`requests, world`dealings, world`ran, world`cancels
      ensures Healthy() && SameResponse(old(s), s) && Onward(old(Here())) && OnRecord(dealings, world.dealings, [])
      ensures Decided(group, refused, deals, cancelled)
      ensures deal.Tasked? && !deal.stopped && deal.out == out && ChildSaid(TaskOf(group[i].input.json), deal.out, deal.ending)
      ensures Spent(base, world.requests, Bill([], 0, 0, CHILD_ATTEMPTS * (i + 1)))
      decreases Rank(), 2, 0
    {
      ghost var started, before, requests := s.started, world.dealings, world.requests;
      ghost var ending;
      out, ending := SpawnOne(group[i]);
      StillDecided(group, refused, deals, cancelled, started, before);
      RecordedOn(dealings, before, world.dealings, [], []);
      SpentMore(base, requests, world.requests, Bill([], 0, 0, CHILD_ATTEMPTS * i), Bill([], 0, 0, CHILD_ATTEMPTS));
      deal := Tasked(out, ending, false);
    }

    /** A cancel seen after a group is seen with its last call. */
    function Seeing(deal: Deal, stopped: bool): Deal {
      match deal
      case Denied(why, _) => Denied(why, stopped)
      case Tasked(out, ending, _) => Tasked(out, ending, stopped)
      case _ => deal
    }

    function SeeingLast(done: seq<Deal>, stopped: bool): seq<Deal>
      requires done != []
    {
      done[..|done| - 1] + [Seeing(done[|done| - 1], stopped)]
    }

    function BlocksOf(group: seq<Call>, outs: seq<Output>): seq<Block>
      requires |group| == |outs|
    {
      seq(|group|, i requires 0 <= i < |group| => ToolResult(group[i].id, outs[i].content, outs[i].isError))
    }

    /** A spawn decided and then run, or not, is dealt with as it should be. */
    lemma {:induction false} FilledIsRight(call: Call, refused: Option<Output>, deal: Deal, done: Deal, out: Output, cancelled: bool, stopped: bool)
      requires given.spawner.Some? && call.name == SPAWN
      requires DecidedAs(call, refused, deal, cancelled) && Filled(call, deal, done, out)
      ensures Right(call, Seeing(done, stopped), cancelled) && OutputFor(Seeing(done, stopped)) == out
      ensures RecordFor(call, Seeing(done, stopped)) == RecordFor(call, deal) && Seeing(done, false) == done
      ensures Cancelling(done) == Cancelling(deal) && (Cancelling(Seeing(done, stopped)) ==> Cancelling(deal) || stopped)
      ensures stopped && !cancelled ==> Cancelling(Seeing(done, stopped))
      ensures Cancelling(deal) ==> Cancelling(Seeing(done, stopped))
    {
      assert call.name != FINISH;
    }

    /** Decided, run and looked at once more, a group is dealt with as it should be. */
    lemma {:induction false} GroupDealt(group: seq<Call>, refused: seq<Option<Output>>, deals: seq<Deal>, done: seq<Deal>, outs: seq<Output>,
                                        cancelled: bool, stopped: bool)
      requires given.spawner.Some? && group != [] && AllSpawns(group) && |refused| == |group| == |deals| == |done| == |outs|
      requires forall i :: 0 <= i < |group| ==> DecidedAt(group, refused, deals, cancelled, i)
      requires forall i :: 0 <= i < |group| ==> Filled(group[i], deals[i], done[i], outs[i])
      ensures var last := SeeingLast(done, stopped);
        Dealt(group, last, BlocksOf(group, outs), cancelled) && RecordOf(group, last) == RecordOf(group, deals) &&
        (cancelled || CancelledBy(last) <==> cancelled || CancelledBy(deals) || stopped) &&
        (CancelledBy(last) ==> CancelledBy(deals) || stopped)
    {
      var last, n := SeeingLast(done, stopped), |group| - 1;
      forall i | 0 <= i < |group|
        ensures RecordFor(group[i], last[i]) == RecordFor(group[i], deals[i]) && (i < n ==> Cancelling(last[i]) == Cancelling(deals[i]))
        ensures Right(group[i], last[i], cancelled || CancelledBy(deals[..i])) && OutputFor(last[i]) == outs[i]
      {
        assert DecidedAt(group, refused, deals, cancelled, i);
        FilledIsRight(group[i], refused[i], deals[i], done[i], outs[i], cancelled || CancelledBy(deals[..i]), i == n && stopped);
      }
      SameRecords(group, last, deals);
      RightIsDealt(group, deals, last, outs, cancelled);
      GroupCancelled(group, refused, deals, done, outs, cancelled, stopped);
    }

    lemma {:induction false} RightIsDealt(group: seq<Call>, deals: seq<Deal>, last: seq<Deal>, outs: seq<Output>, cancelled: bool)
      requires |group| == |deals| == |last| == |outs|
      requires forall i :: 0 <= i < |group| - 1 ==> Cancelling(last[i]) == Cancelling(deals[i])
      requires forall i :: 0 <= i < |group| ==> Right(group[i], last[i], cancelled || CancelledBy(deals[..i])) && OutputFor(last[i]) == outs[i]
      ensures Dealt(group, last, BlocksOf(group, outs), cancelled)
    {
      forall i | 0 <= i < |group|
        ensures DealtAt(group, last, BlocksOf(group, outs), cancelled, i)
      {
        CancelledAlike(deals[..i], last[..i]);
      }
    }

    lemma {:induction false} GroupCancelled(group: seq<Call>, refused: seq<Option<Output>>, deals: seq<Deal>, done: seq<Deal>, outs: seq<Output>,
                                            cancelled: bool, stopped: bool)
      requires given.spawner.Some? && group != [] && AllSpawns(group) && |refused| == |group| == |deals| == |done| == |outs|
      requires forall i :: 0 <= i < |group| ==> DecidedAt(group, refused, deals, cancelled, i)
      requires forall i :: 0 <= i < |group| ==> Filled(group[i], deals[i], done[i], outs[i])
      ensures var last := SeeingLast(done, stopped);
        (cancelled || CancelledBy(last) <==> cancelled || CancelledBy(deals) || stopped) &&
        (CancelledBy(last) ==> CancelledBy(deals) || stopped)
    {
      var last, n := SeeingLast(done, stopped), |group| - 1;
      forall i | 0 <= i < n
        ensures Cancelling(last[i]) == Cancelling(deals[i])
      {
        assert DecidedAt(group, refused, deals, cancelled, i);
        FilledIsRight(group[i], refused[i], deals[i], done[i], outs[i], cancelled || CancelledBy(deals[..i]), false);
      }
      assert DecidedAt(group, refused, deals, cancelled, n);
      FilledIsRight(group[n], refused[n], deals[n], done[n], outs[n], cancelled || CancelledBy(deals[..n]), stopped);
      CancelledAlike(deals[..n], last[..n]);
      assert deals == deals[..n] + [deals[n]] && last == last[..n] + [last[n]];
      CancelledMore(deals[..n], deals[n]);
      CancelledMore(last[..n], last[n]);
    }

    predicate AllSpawns(group: seq<Call>) {
      forall i :: 0 <= i < |group| ==> group[i].name == SPAWN
    }

    lemma {:induction false} SameRecords(group: seq<Call>, a: seq<Deal>, b: seq<Deal>)
      requires |group| == |a| == |b| && forall i :: 0 <= i < |group| ==> RecordFor(group[i], a[i]) == RecordFor(group[i], b[i])
      ensures RecordOf(group, a) == RecordOf(group, b)
    {
      assert RecordsFor(group, a) == RecordsFor(group, b);
    }

    lemma {:induction false} CancelledAlike(a: seq<Deal>, b: seq<Deal>)
      requires |a| == |b| && forall i :: 0 <= i < |a| ==> Cancelling(a[i]) == Cancelling(b[i])
      ensures CancelledBy(a) == CancelledBy(b)
    {
    }

    /** The spawn calls that stand together: all asked about, then those allowed run. */
    method SpawnGroup(group: seq<Call>, cancelled: bool) returns (outs: seq<Output>, cancelledNow: bool, ghost deals: seq<Deal>)
      requires given.spawner.Some? && Healthy() && s.phase.Answering? && group != [] && AllSpawns(group)
      modifies this`journal, this`life, this`s, this`totals, this`updates, this`counted, world`requests, world`dealings, world`ran, world`cancels
      ensures Healthy() && SameResponse(old(s), s) && Onward(old(Here())) && |outs| == |group| == |deals|
      ensures Dealt(group, deals, BlocksOf(group, outs), cancelled) && Recorded(old(world.dealings), world.dealings, group, deals)
      ensures cancelledNow == (cancelled || CancelledBy(deals)) && (CancelledBy(deals) ==> old(world.cancels) < world.cancels)
      ensures Spent(old(world.requests), world.requests, Bill([], 0, 0, CHILD_ATTEMPTS * |group|))
      decreases Rank(), 3
    {
      var refused;
      ghost var decided;
      refused, cancelledNow, decided := DecideGroup(group, cancelled);
      ghost var asked := world.dealings;
      ghost var done;
      outs, done := RunDecided(group, refused, decided, cancelled);
      var stopped := world.Stopped();
      deals := SeeingLast(done, stopped);
      cancelledNow := cancelledNow || stopped;
      GroupDealt(group, refused, decided, done, outs, cancelled, stopped);
      RecordedStill(old(world.dealings), asked, world.dealings, group, decided, deals);
    }

    /** The spawn calls a list begins with. */
    method LeadingSpawns(calls: seq<Call>) returns (n: nat)
      ensures LeadsWithSpawns(calls, n) && (n < |calls| ==> calls[n].name != SPAWN)
    {
      n := 0;
      while n < |calls| && calls[n].name == SPAWN
        invariant LeadsWithSpawns(calls, n)
      {
        n := n + 1;
      }
    }

    /** Results of a group of calls, journaled in order. */
    method FinishGroup(group: seq<Call>, outs: seq<Output>, before: seq<Block>) returns (results: seq<Block>)
      requires Live() && Books() && |outs| == |group| && s.phase == Answering(before)
      requires |before| + |group| <= |s.calls| && s.calls[|before|..|before| + |group|] == group
      modifies this`journal, this`life, this`s, this`totals
      ensures Live() && Books() && s.phase == Answering(results) && old(life).trace <= life.trace
      ensures results == before + BlocksOf(group, outs) && s.calls == old(s).calls && s.messages == old(s).messages
    {
      results := before;
      for i := 0 to |group|
        invariant Live() && Books() && s.phase == Answering(results) && old(life).trace <= life.trace
        invariant results == before + BlocksOf(group, outs)[..i] && s.calls == old(s).calls && s.messages == old(s).messages
      {
        assert s.calls[|results|] == group[i];
        var block := FinishCall(group[i], outs[i]);
        results := results + [block];
      }
    }

    /** A subagent's `finish`: the result its schema allows, or what is wrong with it. A
        subagent has no journal to write the refusal to. */
    method Finish(call: Call) returns (value: Option<Json>, block: Block)
      requires given.finish.Some? && Live() && s.phase.Answering?
      requires |s.phase.done| < |s.calls| && s.calls[|s.phase.done|] == call
      modifies this`life, this`s
      ensures Live() && block == BlockFor(call, Kept) && old(life).trace <= life.trace
      ensures value.Some? <==> Schema.Check(given.finish.value, Schema.Settle(given.finish.value, call.input.json))
      ensures value.Some? ==> value.value == Schema.Settle(given.finish.value, call.input.json) && s == old(s)
      ensures value.None? ==> s == Next(old(s), Step.End(block.content, true))
    {
      var settled := Schema.Settle(given.finish.value, call.input.json);
      block := ToolResult(call.id, given.says(NotReturned), true);
      if Schema.Check(given.finish.value, settled) {
        value := Some(settled);
      } else {
        value := None;
        Take(Step.End(block.content, true));
      }
    }

    method AnswerFinish(call: Call, before: seq<Block>) returns (results: seq<Block>, returned: Option<Json>)
      requires given.finish.Some? && Live() && s.phase == Answering(before) && |before| < |s.calls| && s.calls[|before|] == call
      modifies this`life, this`s
      ensures Live() && s.calls == old(s).calls && s.messages == old(s).messages && old(life).trace <= life.trace
      ensures if returned.None?
        then s.phase == Answering(results) && results == before + [BlockFor(call, Kept)] &&
          !Schema.Check(given.finish.value, Schema.Settle(given.finish.value, call.input.json))
        else results == before && Schema.Check(given.finish.value, returned.value)
    {
      var block;
      returned, block := Finish(call);
      results := if returned.None? then before + [block] else before;
    }

    /** One call, from announcing it to its result. */
    method AnswerOne(call: Call, before: seq<Block>, cancelled: bool)
      returns (results: seq<Block>, cancelledNow: bool, ghost deal: Deal)
      requires Healthy() && s.phase == Answering(before) && |before| < |s.calls| && s.calls[|before|] == call
      modifies this`journal, this`life, this`s, this`totals, world`dealings, world`ran, world`cancels
      ensures Healthy() && s.phase == Answering(results) && results == before + [BlockFor(call, deal)]
      ensures (deal.Unasked? <==> cancelled) && !deal.Kept? && !deal.Tasked?
      ensures cancelledNow == (cancelled || Cancelling(deal)) && (Cancelling(deal) ==> old(world.cancels) < world.cancels)
      ensures OnRecord(old(world.dealings), world.dealings, RecordFor(call, deal))
      ensures world.ran == old(world.ran) + (if deal.Ran? then [call.id] else [])
      ensures s.calls == old(s).calls && s.messages == old(s).messages && Onward(old(Here()))
    {
      Announce(call);
      var out;
      out, cancelledNow, deal := RunCall(call, cancelled);
      var block := FinishCall(call, out);
      results := before + [block];
    }

    /** The spawn calls that stand together, from announcing them to their results. */
    method AnswerGroup(group: seq<Call>, before: seq<Block>, cancelled: bool)
      returns (results: seq<Block>, cancelledNow: bool, ghost deals: seq<Deal>)
      requires given.spawner.Some? && Healthy() && s.phase == Answering(before) && group != [] && AllSpawns(group)
      requires |before| + |group| <= |s.calls| && s.calls[|before|..|before| + |group|] == group
      modifies this`journal, this`life, this`s, this`totals, this`updates, this`counted, world`requests, world`dealings, world`ran, world`cancels
      ensures Healthy() && Onward(old(Here())) && |deals| == |group| == |results| - |before| && before <= results
      ensures s.phase == Answering(results) && s.calls == old(s).calls && s.messages == old(s).messages
      ensures Dealt(group, deals, results[|before|..], cancelled) && Recorded(old(world.dealings), world.dealings, group, deals)
      ensures cancelledNow == (cancelled || CancelledBy(deals)) && (CancelledBy(deals) ==> old(world.cancels) < world.cancels)
      ensures Spent(old(world.requests), world.requests, Bill([], 0, 0, CHILD_ATTEMPTS * |group|))
      decreases Rank(), 4
    {
      var outs;
      outs, cancelledNow, deals := SpawnGroup(group, cancelled);
      results := FinishGroup(group, outs, before);
      assert results[|before|..] == BlocksOf(group, outs);
    }

    /** Where answering the calls has come to: so many are answered, or a subagent has
        returned a result of the shape asked of it. */
    ghost predicate AnsweredTo(calls: seq<Call>, results: seq<Block>, returned: Option<Json>)
      reads this`s
    {
      if returned.None? then s.phase == Answering(results) && s.calls == calls && |results| <= |calls|
      else given.finish.Some? && Schema.Check(given.finish.value, returned.value)
    }

    /** The spawn calls that come next, as a group. */
    method AnswerSpawns(calls: seq<Call>, before: seq<Block>, cancelled: bool)
      returns (results: seq<Block>, cancelledNow: bool, ghost others: nat, ghost deals: seq<Deal>)
      requires given.spawner.Some? && Healthy() && s.phase == Answering(before) && s.calls == calls
      requires |before| < |calls| && calls[|before|].name == SPAWN
      modifies this`journal, this`life, this`s, this`totals, this`updates, this`counted, world`requests, world`dealings, world`ran, world`cancels
      ensures Healthy() && Onward(old(Here())) && s.messages == old(s).messages
      ensures s.phase == Answering(results) && s.calls == calls && |before| < |results| <= |calls|
      ensures NextDealt(calls, before, results, deals, cancelled, cancelledNow, old(Here()))
      ensures Spent(old(world.requests), world.requests, Bill([], 0, 0, others))
      ensures Beyond(Spawns(calls[..|before|])) + others <= Beyond(Spawns(calls[..|results|]))
      decreases Rank(), 5
    {
      var group := NextGroup(calls, |before|);
      others := CHILD_ATTEMPTS * |group|;
      results, cancelledNow, deals := AnswerGroup(group, before, cancelled);
      assert calls[|before|..|results|] == group;
    }

    /** The calls answered since were dealt with as they should be, and that is on record. */
    ghost predicate NextDealt(calls: seq<Call>, before: seq<Block>, results: seq<Block>, deals: seq<Deal>,
                              cancelled: bool, cancelledNow: bool, m: Mark)
      reads world`dealings, world`cancels
    {
      before <= results && |results| <= |calls| && |deals| == |results| - |before| &&
      Dealt(calls[|before|..|results|], deals, results[|before|..], cancelled) &&
      Recorded(m.dealings, world.dealings, calls[|before|..|results|], deals) &&
      cancelledNow == (cancelled || CancelledBy(deals)) && (CancelledBy(deals) ==> m.cancels < world.cancels)
    }

    method NextGroup(calls: seq<Call>, i: nat) returns (group: seq<Call>)
      requires given.spawner.Some? && i < |calls| && calls[i].name == SPAWN
      ensures 0 < |group| <= |calls| - i && group == calls[i..i + |group|] && AllSpawns(group)
      ensures Beyond(Spawns(calls[..i])) + CHILD_ATTEMPTS * |group| <= Beyond(Spawns(calls[..i + |group|]))
    {
      var n := LeadingSpawns(calls[i..]);
      SpawnsMore(calls, i, n);
      group := calls[i..i + n];
    }

    /** The next call still open that is neither a spawn nor a finish; or one or the other
        where they are nothing special. */
    method AnswerPlain(calls: seq<Call>, before: seq<Block>, cancelled: bool)
      returns (results: seq<Block>, cancelledNow: bool, ghost deals: seq<Deal>)
      requires Healthy() && s.phase == Answering(before) && s.calls == calls && |before| < |calls|
      requires !(calls[|before|].name == SPAWN && given.spawner.Some?) && !(calls[|before|].name == FINISH && given.finish.Some?)
      modifies this`journal, this`life, this`s, this`totals, world`dealings, world`ran, world`cancels
      ensures Healthy() && Onward(old(Here())) && s.messages == old(s).messages
      ensures s.phase == Answering(results) && s.calls == calls && |results| == |before| + 1
      ensures NextDealt(calls, before, results, deals, cancelled, cancelledNow, old(Here()))
    {
      var call := calls[|before|];
      ghost var deal;
      results, cancelledNow, deal := AnswerOne(call, before, cancelled);
      deals := [deal];
      DealtOne(call, deal, cancelled);
      OneCallRecorded(old(world.dealings), world.dealings, call, deal);
      JustOne(calls, before, BlockFor(call, deal));
      assert CancelledBy(deals) <==> Cancelling(deal) by {
        assert deals[0] == deal;
      }
    }

    lemma {:induction false} JustOne(calls: seq<Call>, before: seq<Block>, block: Block)
      requires |before| < |calls|
      ensures var results := before + [block];
        calls[|before|..|results|] == [calls[|before|]] && results[|before|..] == [block] && before <= results
    {
    }

    /** A `finish`, which returns or is kept. */
    method AnswerFinishing(calls: seq<Call>, before: seq<Block>, ghost cancelled: bool)
      returns (results: seq<Block>, returned: Option<Json>, ghost deals: seq<Deal>)
      requires given.finish.Some? && Healthy() && s.phase == Answering(before) && s.calls == calls && |before| < |calls|
      requires calls[|before|].name == FINISH
      modifies this`life, this`s
      ensures Healthy() && Onward(old(Here())) && s.messages == old(s).messages && AnsweredTo(calls, results, returned)
      ensures |results| == |before| + (if returned.None? then 1 else 0)
      ensures NextDealt(calls, before, results, deals, cancelled, cancelled, old(Here()))
    {
      var call := calls[|before|];
      results, returned := AnswerFinish(call, before);
      NothingRecorded(world.dealings);
      NoneRecorded(world.dealings);
      if returned.None? {
        deals := [Kept];
        DealtOne(call, Kept, cancelled);
        OneCallRecorded(world.dealings, world.dealings, call, Kept);
        JustOne(calls, before, BlockFor(call, Kept));
      } else {
        deals := [];
        assert calls[|before|..|results|] == [] && results[|before|..] == [];
      }
    }

    /** The next call still open, with the spawns that stand together as a group; or a
        subagent's result. */
    method AnswerNext(calls: seq<Call>, before: seq<Block>, cancelled: bool)
      returns (results: seq<Block>, cancelledNow: bool, returned: Option<Json>, ghost others: nat, ghost deals: seq<Deal>)
      requires Healthy() && s.phase == Answering(before) && s.calls == calls && |before| < |calls|
      modifies this`journal, this`life, this`s, this`totals, this`updates, this`counted, world`requests, world`dealings, world`ran, world`cancels
      ensures Healthy() && Onward(old(Here())) && s.messages == old(s).messages
      ensures AnsweredTo(calls, results, returned) && (returned.None? ==> |before| < |results|)
      ensures NextDealt(calls, before, results, deals, cancelled, cancelledNow, old(Here()))
      ensures |results| <= |calls| && Spent(old(world.requests), world.requests, Bill([], 0, 0, others))
      ensures Beyond(Spawns(calls[..|before|])) + others <= Beyond(Spawns(calls[..|results|]))
      decreases Rank(), 6, 0
    {
      cancelledNow, returned, others := cancelled, None, 0;
      var call := calls[|before|];
      if call.name == SPAWN && given.spawner.Some? {
        results, cancelledNow, others, deals := AnswerSpawns(calls, before, cancelled);
        return;
      }
      SpentNothing(world.requests, 0, 0);
      SpawnsGrow(calls, |before|);
      if call.name == FINISH && given.finish.Some? {
        results, returned, deals := AnswerFinishing(calls, before, cancelled);
      } else {
        results, cancelledNow, deals := AnswerPlain(calls, before, cancelled);
      }
    }

    lemma {:induction false} DealtOn(calls: seq<Call>, before: seq<Block>, results: seq<Block>, da: seq<Deal>, db: seq<Deal>)
      requires |before| == |da| <= |results| <= |calls| && before <= results && |db| == |results| - |before|
      requires Dealt(calls[..|before|], da, before, false) && Dealt(calls[|before|..|results|], db, results[|before|..], CancelledBy(da))
      ensures Dealt(calls[..|results|], da + db, results, false) && calls[..|results|] == calls[..|before|] + calls[|before|..|results|]
      ensures CancelledBy(da + db) <==> CancelledBy(da) || CancelledBy(db)
    {
      var a, b := calls[..|before|], calls[|before|..|results|];
      assert calls[..|results|] == a + b && results == before + results[|before|..];
      DealtConcat(a, b, da, db, before, results[|before|..], false);
      CancelledConcat(da, db);
    }

    /** Runs the calls of a response in order, until all are answered or a subagent's
        result is returned. */
    method AnswerCalls(calls: seq<Call>)
      returns (results: seq<Block>, cancelled: bool, returned: Option<Json>, ghost deals: seq<Deal>)
      requires Healthy() && s.phase == Answering([]) && s.calls == calls
      modifies this`journal, this`life, this`s, this`totals, this`updates, this`counted, world`requests, world`dealings, world`ran, world`cancels
      ensures Healthy() && Onward(old(Here())) && s.messages == old(s).messages
      ensures AnsweredTo(calls, results, returned) && (returned.None? ==> |results| == |calls|)
      ensures CallsDealt(calls, results, deals, cancelled, old(Here()))
      ensures Spent(old(world.requests), world.requests, Bill([], 0, 0, Beyond(Spawns(calls))))
      decreases Rank(), 7
    {
      results, cancelled, returned, deals := [], false, None, [];
      SpentNothing(world.requests, 0, 0);
      NoneRecorded(world.dealings);
      while |results| < |calls|
        invariant Healthy() && Onward(old(Here())) && s.messages == old(s).messages
        invariant AnsweredTo(calls, results, None) && returned == None
        invariant CallsDealt(calls, results, deals, cancelled, old(Here()))
        invariant Spent(old(world.requests), world.requests, Bill([], 0, 0, Beyond(Spawns(calls[..|results|]))))
        decreases |calls| - |results|
      {
        results, cancelled, returned, deals := AnswerMore(calls, results, cancelled, deals, old(world.requests), old(Here()));
        if returned.Some? {
          assert Proper(given);
          return;
        }
      }
      assert calls[..|results|] == calls;
    }

    ghost predicate CallsDealt(calls: seq<Call>, results: seq<Block>, deals: seq<Deal>, cancelled: bool, m: Mark)
      reads world`dealings, world`cancels
    {
      |deals| == |results| <= |calls| && Dealt(calls[..|results|], deals, results, false) &&
      Recorded(m.dealings, world.dealings, calls[..|results|], deals) &&
      cancelled == CancelledBy(deals) && (cancelled ==> m.cancels < world.cancels)
    }

    /** One turn of that loop. */
    method AnswerMore(calls: seq<Call>, before: seq<Block>, cancelled: bool, ghost deals: seq<Deal>, ghost base: seq<Asking>, ghost m: Mark)
      returns (results: seq<Block>, cancelledNow: bool, returned: Option<Json>, ghost dealt: seq<Deal>)
      requires Healthy() && AnsweredTo(calls, before, None) && |before| < |calls| && Onward(m)
      requires CallsDealt(calls, before, deals, cancelled, m)
      requires Spent(base, world.requests, Bill([], 0, 0, Beyond(Spawns(calls[..|before|]))))
      modifies this`journal, this`life, this`s, this`totals, this`updates, this`counted, world`requests, world`dealings, world`ran, world`cancels
      ensures Healthy() && Onward(m) && s.messages == old(s).messages
      ensures AnsweredTo(calls, results, returned) && (returned.None? ==> |before| < |results|)
      ensures CallsDealt(calls, results, dealt, cancelledNow, m)
      ensures |results| <= |calls| && Spent(base, world.requests, Bill([], 0, 0, Beyond(Spawns(calls[..|results|]))))
      decreases Rank(), 6, 1
    {
      ghost var requests, dealings, most := world.requests, world.dealings, Beyond(Spawns(calls[..|before|]));
      ghost var others, more;
      results, cancelledNow, returned, others, more := AnswerNext(calls, before, cancelled);
      SpentMore(base, requests, world.requests, Bill([], 0, 0, most), Bill([], 0, 0, others));
      SpentAtMost(base, world.requests, Bill([], 0, 0, most + others), Bill([], 0, 0, Beyond(Spawns(calls[..|results|]))));
      DealtOn(calls, before, results, deals, more);
      RecordedFurther(m.dealings, dealings, world.dealings, calls[..|before|], deals, calls[|before|..|results|], more);
      dealt := deals + more;
    }

    // ------------------------------------------------------------- the loop

    /** A response is said before anything it calls for is done, and its usage measures the
        request. */
    method Speak(c: Completion)
      requires Live() && s.phase.Idle? && Plausible(c)
      modifies this`conv, this`journal, this`life, this`s
      ensures Live() && s == if c.blocks == [] then old(s) else Next(old(s), Say(Assistant, c.blocks))
      ensures old(life).trace <= life.trace && conv == Spoken(old(conv), c)
    {
      var before := conv;
      if c.blocks != [] {
        Push(Assistant, c.blocks);
      }
      if c.usage.Some? {
        MeasureBy(before, c.usage.value);
      }
    }

    /** The conversation with the response in it, measured if it says how much was used. */
    function Spoken(before: Conv, c: Completion): Conv {
      var said := if c.blocks == [] then before else before.(messages := before.messages + [Message(Assistant, c.blocks)]);
      if c.usage.None? then said
      else Measure(said, RequestBytes(before, given.overhead), c.usage.value.input, c.usage.value.output)
    }

    method MeasureBy(before: Conv, u: Usage)
      modifies this`conv
      ensures conv.messages == old(conv).messages && conv == Measure(old(conv), RequestBytes(before, given.overhead), u.input, u.output)
    {
      conv := Measure(conv, RequestBytes(before, given.overhead), u.input, u.output);
    }

    /** A response is counted and written. */
    method Absorb(c: Completion)
      requires Live() && s.phase.Idle? && Books() && Plausible(c)
      modifies this`conv, this`journal, this`life, this`s, this`totals, this`updates, this`counted
      ensures Live() && Books() && counted == old(counted) + UsageOf(c) && old(life).trace <= life.trace
      ensures s == if c.blocks == [] then old(s) else Next(old(s), Say(Assistant, c.blocks))
    {
      CountIn(c.usage);
      Speak(c);
    }

    /** A response without a call that could be run, which is said to the model once. */
    method Reproach(c: Completion, malformed: nat) returns (outcome: Option<Outcome>)
      requires Live() && s.phase.Idle? && CallsOf(c.blocks) == []
      modifies this`conv, this`journal, this`life, this`s
      ensures Live() && s.phase.Idle? && old(life).trace <= life.trace
      ensures if malformed >= 1 then outcome == Some(Stopped(given.says(TwoMalformed(Reproof(c))))) && s == old(s)
        else outcome == None && s.messages == old(s).messages + [Message(User, [Text(Reproof(c))])]
    {
      if malformed >= 1 {
        return Some(Stopped(given.says(TwoMalformed(Reproof(c)))));
      }
      NoCallsOf([Text(Reproof(c))]);
      Push(User, [Text(Reproof(c))]);
      outcome := None;
    }

    function Reproof(c: Completion): string {
      given.says(if Contains(TextOf(c.blocks), UNPARSED_CALL) then WrittenAsText else FinishNeeded)
    }

    /** What is wrong with a malformed response, in one text. */
    function Complaint(c: Completion): string {
      var problem := FirstProblem(CallsOf(c.blocks), c.finishReason);
      if problem.Some? then problem.value else Reproof(c)
    }

    /** Sound calls answered, and what that comes to: the model is asked again with their
        results, unless the turn was cancelled or a subagent has returned. */
    method Carry(calls: seq<Call>) returns (outcome: Option<Outcome>, ghost deals: seq<Deal>, ghost results: seq<Block>)
      requires Healthy() && s.phase == Answering([]) && s.calls == calls
      modifies this`conv, this`journal, this`life, this`s, this`totals, this`updates, this`counted, world`requests, world`dealings, world`ran, world`cancels
      ensures Healthy() && Onward(old(Here()))
      ensures Concluded(outcome) && (outcome.Some? ==> outcome.value.Returned? || outcome.value == Outcome.Cancelled)
      ensures outcome == Some(Outcome.Cancelled) ==> old(world.cancels) < world.cancels
      ensures CallsDealt(calls, results, deals, CancelledBy(deals), old(Here()))
      ensures (outcome.Some? && outcome.value.Returned?) ||
        (|results| == |calls| && s.messages == old(s).messages + [Message(User, results)] &&
         (CancelledBy(deals) ==> outcome == Some(Outcome.Cancelled)))
      ensures Spent(old(world.requests), world.requests, Bill([], 0, 0, Beyond(Spawns(calls))))
      decreases Rank(), 8
    {
      var blocks, cancelled, returned;
      blocks, cancelled, returned, deals := AnswerCalls(calls);
      results := blocks;
      if returned.Some? {
        outcome := Some(Returned(returned.value));
        return;
      }
      HandBack(blocks);
      var stopped := world.Stopped();
      outcome := if cancelled || stopped then Some(Outcome.Cancelled) else None;
    }

    /** No call is left open, unless a subagent has returned a result its schema allows. */
    ghost predicate Concluded(outcome: Option<Outcome>)
      reads this`s
    {
      if outcome.Some? && outcome.value.Returned?
      then given.finish.Some? && Schema.Check(given.finish.value, outcome.value.value)
      else s.phase.Idle?
    }

    /** How a response is to be taken: the turn is stopped over invented results, ends with
        an answer, and is stopped once two responses running were malformed. */
    ghost predicate TakenAs(c: Completion, malformed: nat, outcome: Option<Outcome>, malformedNow: nat) {
      var marker := FirstMarker(FABRICATED, TextOf(c.blocks));
      if marker.Some? then outcome == Some(Stopped(given.says(Invented(marker.value))))
      else if IllFormed(c) then
        malformedNow == malformed + 1 &&
        outcome == if malformed >= 1 then Some(Stopped(given.says(TwoMalformed(Complaint(c))))) else None
      else if CallsOf(c.blocks) == [] then outcome == Some(Finished(TextOf(c.blocks)))
      else malformedNow == 0 && (outcome.Some? ==> outcome.value.Returned? || outcome.value == Outcome.Cancelled)
    }

    /** The calls of a response that are to be dealt with, if it is sound. */
    function SoundCalls(c: Completion): seq<Call> {
      if FirstMarker(FABRICATED, TextOf(c.blocks)).Some? || IllFormed(c) then [] else CallsOf(c.blocks)
    }

    /** What the model is told of a response: that its calls will not run and why, what is
        wrong with it, or the results of its calls. */
    ghost predicate ToldOf(c: Completion, malformed: nat, before: seq<Message>, after: seq<Message>, results: seq<Block>) {
      var calls := CallsOf(c.blocks);
      if FirstMarker(FABRICATED, TextOf(c.blocks)).Some? then
        after == if calls == [] then before
          else before + [Message(User, Unrun(calls, seq(|calls|, _ => given.says(TurnStopped))))]
      else if IllFormed(c) then
        after == if calls != [] then before + [Message(User, Unrun(calls, Complaints(calls, c.finishReason)))]
          else if malformed >= 1 then before else before + [Message(User, [Text(Reproof(c))])]
      else after == if calls == [] then before else before + [Message(User, results)]
    }

    /** What follows a response: the turn ends, or its calls are answered and the model
        is asked again. */
    method Respond(c: Completion, malformed: nat)
      returns (outcome: Option<Outcome>, malformedNow: nat, ghost deals: seq<Deal>, ghost results: seq<Block>)
      requires Healthy()
      requires if CallsOf(c.blocks) == [] then s.phase.Idle? else s.phase == Answering([]) && s.calls == CallsOf(c.blocks)
      modifies this`conv, this`journal, this`life, this`s, this`totals, this`updates, this`counted, world`requests, world`dealings, world`ran, world`cancels
      ensures Healthy() && Onward(old(Here())) && Concluded(outcome)
      ensures TakenAs(c, malformed, outcome, malformedNow)
      ensures outcome == Some(Outcome.Cancelled) ==> old(world.cancels) < world.cancels
      ensures CallsDealt(SoundCalls(c), results, deals, CancelledBy(deals), old(Here()))
      ensures (outcome.Some? && outcome.value.Returned?) ||
        (|results| == |SoundCalls(c)| && ToldOf(c, malformed, old(s).messages, s.messages, results))
      ensures Spent(old(world.requests), world.requests, Bill([], 0, 0, Beyond(Spawns(CallsOf(c.blocks)))))
      decreases Rank(), 9
    {
      var calls := CallsOf(c.blocks);
      var marker := FirstMarker(FABRICATED, TextOf(c.blocks));
      if marker.None? && !IllFormed(c) && calls != [] {
        malformedNow := 0;
        outcome, deals, results := Carry(calls);
        return;
      }
      SpentNothing(world.requests, 0, Beyond(Spawns(CallsOf(c.blocks))));
      NoneDealt(c);
      deals, results := [], [];
      outcome, malformedNow := Refuse(c, malformed);
    }

    lemma {:induction false} NoneDealt(c: Completion)
      requires SoundCalls(c) == []
      ensures CallsDealt(SoundCalls(c), [], [], CancelledBy([]), Here())
    {
      NoneRecorded(world.dealings);
    }

    /** A response with no sound calls: what is wrong with it is said, or it is the answer. */
    method Refuse(c: Completion, malformed: nat) returns (outcome: Option<Outcome>, malformedNow: nat)
      requires Live() && SoundCalls(c) == []
      requires if CallsOf(c.blocks) == [] then s.phase.Idle? else s.phase == Answering([]) && s.calls == CallsOf(c.blocks)
      modifies this`conv, this`journal, this`life, this`s
      ensures Live() && s.phase.Idle? && old(life).trace <= life.trace
      ensures TakenAs(c, malformed, outcome, malformedNow) && ToldOf(c, malformed, old(s).messages, s.messages, [])
      ensures outcome.Some? ==> outcome.value.Stopped? || outcome.value.Finished?
    {
      var calls := CallsOf(c.blocks);
      malformedNow := malformed;
      var marker := FirstMarker(FABRICATED, TextOf(c.blocks));
      if marker.Some? {
        if calls != [] {
          CloseUnrun(calls, seq(|calls|, _ => given.says(TurnStopped)));
        }
        return Some(Stopped(given.says(Invented(marker.value)))), malformedNow;
      }
      if calls == [] {
        if !Contains(TextOf(c.blocks), UNPARSED_CALL) && given.finish.None? {
          return Some(Finished(TextOf(c.blocks))), malformedNow;
        }
        malformedNow := malformed + 1;
        outcome := Reproach(c, malformed);
        return;
      }
      var problem := FirstProblem(calls, c.finishReason);
      malformedNow := malformed + 1;
      CloseUnrun(calls, Complaints(calls, c.finishReason));
      outcome := if malformedNow >= 2 then Some(Stopped(given.says(TwoMalformed(problem.value)))) else None;
    }

    /** Whether the next request would come too near the window, and if the last compaction
        could not help that, whether enough was said since for another to. */
    predicate Due(c: Conv, stuckAt: Option<nat>) {
      given.window.Some? &&
      var size := Estimate(c, given.overhead);
      size >= Sizes.Threshold(given.window.value) &&
      (stuckAt.None? || size >= stuckAt.value + LimitsFor(given.window).keepRaw / 2)
    }

    /** Compacts when that is due, and remembers how much was left if it was too much. */
    method MakeRoom(stuckAt: Option<nat>) returns (cancelled: bool, stuckNow: Option<nat>, ghost made: Option<Made>)
      requires Healthy() && s.phase.Idle?
      modifies this`conv, this`journal, this`life, this`s, this`totals, this`updates, this`counted, world`requests, world`cancels
      ensures Healthy() && s.phase.Idle? && Onward(old(Here()))
      ensures Spent(old(world.requests), world.requests, Bill([], 0, ATTEMPTS_A_REQUEST, 0))
      ensures made.Some? <==> Due(old(conv), stuckAt)
      ensures made.None? ==> !cancelled && stuckNow == stuckAt && conv == old(conv) && s == old(s) && world.requests == old(world.requests)
      ensures made.Some? ==> CameTo(Threshold, old(conv), old(life), life, made.value) && cancelled == (Verdict(made.value) == Abandoned)
      ensures made.Some? && !cancelled ==> stuckNow == if Fits(conv) then None else Some(Estimate(conv, given.overhead))
      ensures cancelled ==> old(world.cancels) < world.cancels
    {
      cancelled, stuckNow, made := false, stuckAt, None;
      SpentNothing(world.requests, ATTEMPTS_A_REQUEST, 0);
      if Due(conv, stuckAt) {
        var r;
        ghost var m;
        r, m := Compact(Threshold);
        made := Some(m);
        AskedIsSpent(old(world.requests), world.requests, m.fate);
        if r.Abandoned? {
          return true, stuckNow, made;
        }
        stuckNow := if Fits(conv) then None else Some(Estimate(conv, given.overhead));
      }
    }

    /** After a refusal for length, the conversation is made smaller, once, for another go. If
        that was done or does nothing, the turn ends. */
    method Retreat(message: string, overflowed: bool) returns (outcome: Option<Outcome>, ghost made: Option<Made>)
      requires Healthy() && s.phase.Idle?
      modifies this`conv, this`journal, this`life, this`s, this`totals, this`updates, this`counted, world`requests, world`cancels
      ensures Healthy() && s.phase.Idle? && Onward(old(Here()))
      ensures Spent(old(world.requests), world.requests, Bill([], 0, ATTEMPTS_A_REQUEST, 0))
      ensures made.None? <==> overflowed
      ensures made.None? ==> outcome == Some(ContextOverflow(message)) && conv == old(conv) && s == old(s)
      ensures made.Some? ==>
        (CameTo(Overflow, old(conv), old(life), life, made.value) &&
         match Verdict(made.value)
         case Done => outcome == None
         case Abandoned => outcome == Some(Outcome.Cancelled)
         case Nothing => outcome == Some(ContextOverflow(message)) && conv == old(conv) && s == old(s))
      ensures outcome == Some(Outcome.Cancelled) ==> old(world.cancels) < world.cancels
    {
      outcome, made := Some(ContextOverflow(message)), None;
      SpentNothing(world.requests, ATTEMPTS_A_REQUEST, 0);
      if !overflowed {
        var r;
        ghost var m;
        r, m := Compact(Overflow);
        made := Some(m);
        AskedIsSpent(old(world.requests), world.requests, m.fate);
        if r.Done? {
          outcome := None;
        }
        if r.Abandoned? {
          outcome := Some(Outcome.Cancelled);
        }
      }
    }

    /** Whatever the operator has read of an answer becomes one. */
    method GiveUp(shown: string)
      requires Live() && s.phase.Idle?
      modifies this`conv, this`journal, this`life, this`s
      ensures Live() && s.phase.Idle? && old(life).trace <= life.trace
      ensures s.messages == old(s).messages + (if Blank(shown) then [] else [Message(Assistant, [Text(shown)])])
    {
      if !Blank(shown) {
        NoCallsOf([Text(shown)]);
        Push(Assistant, [Text(shown)]);
      }
    }

    function EndingOf(outcome: Option<Outcome>): Option<Ending> {
      if outcome.Some? then Some(Ended(outcome.value)) else None
    }

    /** What a turn may come to when its last own request has come back so: which endings,
        or that it goes on. A sound response's calls are answered, and then it goes on unless
        it was cancelled or has returned; a first overflow is retreated from. */
    ghost predicate Led(fates: seq<Asked>, ending: Option<Ending>) {
      forall fate :: IsLast(fates, fate) ==> LedBy(fates, fate, ending)
    }

    ghost predicate IsLast(fates: seq<Asked>, fate: Asked) { fates != [] && fates[|fates| - 1] == fate }

    ghost predicate LedBy(fates: seq<Asked>, fate: Asked, ending: Option<Ending>) {
      match fate
      case Withdrawn => ending == Some(Ended(Outcome.Cancelled))
      case Failed(error, _) =>
        if !error.ContextTooLong? then ending == Some(Errored(error))
        else
          ending == Some(Ended(ContextOverflow(error.message))) ||
          (OverflowsSince(KindsFor(fates)) <= 1 && (ending == None || ending == Some(Ended(Outcome.Cancelled))))
      case Answered(c) => TakenTo(c, MalformedSince(KindsFor(fates)) >= 2, ending)
    }

    lemma {:induction false} LedByLast(fates: seq<Asked>, fate: Asked, ending: Option<Ending>)
      requires LedBy(fates + [fate], fate, ending)
      ensures Led(fates + [fate], ending)
    {
      assert (fates + [fate])[|fates|] == fate;
    }

    ghost predicate TakenTo(c: Completion, twice: bool, ending: Option<Ending>) {
      var marker := FirstMarker(FABRICATED, TextOf(c.blocks));
      if marker.Some? then ending == Some(Ended(Stopped(given.says(Invented(marker.value)))))
      else if IllFormed(c) then
        ending == if twice then Some(Ended(Stopped(given.says(TwoMalformed(Complaint(c)))))) else None
      else if CallsOf(c.blocks) == [] then ending == Some(Ended(Finished(TextOf(c.blocks))))
      else ending == None || ending == Some(Ended(Outcome.Cancelled)) || (ending.value.Ended? && ending.value.outcome.Returned?)
    }

    /** The sound calls of a response were dealt with as they should be, all of them unless a
        subagent has returned; of any other fate there are none. */
    ghost predicate Served(fate: Asked, deals: seq<Deal>) {
      var calls := if fate.Answered? then SoundCalls(fate.completion) else [];
      |deals| <= |calls| && (|deals| == |calls| || given.finish.Some?) &&
      forall i :: 0 <= i < |deals| ==> RightAt(calls, deals, i)
    }

    ghost predicate RightAt(calls: seq<Call>, deals: seq<Deal>, i: nat)
      requires i < |deals| <= |calls|
    {
      Right(calls[i], deals[i], CancelledBy(deals[..i]))
    }

    function ServedRecord(fate: Asked, deals: seq<Deal>): seq<Dealing> {
      var calls := if fate.Answered? then SoundCalls(fate.completion) else [];
      if |deals| <= |calls| then RecordOf(calls[..|deals|], deals) else []
    }

    lemma {:induction false} DealtIsServed(fate: Asked, results: seq<Block>, deals: seq<Deal>)
      requires fate.Answered? && |deals| == |results| <= |SoundCalls(fate.completion)|
      requires Dealt(SoundCalls(fate.completion)[..|results|], deals, results, false)
      requires |deals| == |SoundCalls(fate.completion)| || given.finish.Some?
      ensures Served(fate, deals)
    {
      var calls := SoundCalls(fate.completion);
      forall i | 0 <= i < |deals|
        ensures RightAt(calls, deals, i)
      {
        assert DealtAt(calls[..|results|], deals, results, false, i);
      }
    }

    /** Each of the turn's own requests was served so, and what the operator and the tools
        have on record of this agent since is of that, and of nothing else. */
    ghost predicate AllServed(fates: seq<Asked>, served: seq<seq<Deal>>, before: seq<Dealing>, after: seq<Dealing>) {
      |served| == |fates| && (forall k :: 0 <= k < |fates| ==> Served(fates[k], served[k])) &&
      OnRecord(before, after, RecordsOf(fates, served))
    }

    function RecordsOf(fates: seq<Asked>, served: seq<seq<Deal>>): seq<Dealing>
      requires |fates| == |served|
    {
      if fates == [] then []
      else
        var n := |fates| - 1;
        RecordsOf(fates[..n], served[..n]) + ServedRecord(fates[n], served[n])
    }

    lemma {:induction false} ServedMore(fates: seq<Asked>, served: seq<seq<Deal>>, fate: Asked, deals: seq<Deal>,
                                        a: seq<Dealing>, b: seq<Dealing>, c: seq<Dealing>)
      requires AllServed(fates, served, a, b) && Served(fate, deals) && OnRecord(b, c, ServedRecord(fate, deals))
      ensures AllServed(fates + [fate], served + [deals], a, c)
    {
      var n := |fates|;
      assert (fates + [fate])[..n] == fates && (served + [deals])[..n] == served;
      RecordedOn(a, b, c, RecordsOf(fates, served), ServedRecord(fate, deals));
      forall k | 0 <= k <= n
        ensures Served((fates + [fate])[k], (served + [deals])[k])
      {
        assert k < n ==> Served(fates[k], served[k]);
      }
    }

    lemma {:induction false} ServedStill(fates: seq<Asked>, served: seq<seq<Deal>>, a: seq<Dealing>, b: seq<Dealing>, c: seq<Dealing>)
      requires AllServed(fates, served, a, b) && OnRecord(b, c, [])
      ensures AllServed(fates, served, a, c)
    {
      RecordedOn(a, b, c, RecordsOf(fates, served), []);
      assert RecordsOf(fates, served) + [] == RecordsOf(fates, served);
    }

    /** A completed response: counted, written, and answered. */
    method AfterAnswer(c: Completion, malformed: nat, ghost overflowed: bool, ghost fates: seq<Asked>)
      returns (ending: Option<Ending>, malformedNow: nat, ghost deals: seq<Deal>)
      requires Live() && s.phase.Idle? && Books() && Tried() && world.Permitted() && Plausible(c)
      requires Owing(counted, UsageOf(c))
      requires InTime(fates, malformed, overflowed)
      modifies this`conv, this`journal, this`life, this`s, this`totals, this`updates, this`counted, world`requests, world`dealings, world`ran, world`cancels
      ensures Healthy() && Onward(old(Here())) && Settled(ending)
      ensures LeavesOff(fates + [Answered(c)], ending, malformedNow, false) && Led(fates + [Answered(c)], ending)
      ensures ending == Some(Ended(Outcome.Cancelled)) ==> old(world.cancels) < world.cancels
      ensures Served(Answered(c), deals) && OnRecord(old(world.dealings), world.dealings, ServedRecord(Answered(c), deals))
      ensures Spent(old(world.requests), world.requests, Bill([], 0, 0, Beyond(Spawns(CallsOf(c.blocks)))))
      decreases Rank(), 10
    {
      Absorb(c);
      CountedAll(old(counted), UsageOf(c));
      var outcome;
      ghost var results;
      outcome, malformedNow, deals, results := Respond(c, malformed);
      TakenInTime(c, malformed, overflowed, outcome, malformedNow, fates);
      DealtIsServed(Answered(c), results, deals);
      RecordedIs(old(world.dealings), world.dealings, SoundCalls(c)[..|results|], deals);
      ending := EndingOf(outcome);
    }

    /** Where the loop's counts stand, by how its requests came back. */
    ghost predicate InTime(fates: seq<Asked>, malformed: nat, overflowed: bool) {
      forall kinds :: AreKinds(fates, kinds) ==> KindsInTime(kinds, malformed, overflowed)
    }

    ghost predicate AreKinds(fates: seq<Asked>, kinds: seq<Kind>) { kinds == KindsFor(fates) }

    ghost predicate KindsInTime(kinds: seq<Kind>, malformed: nat, overflowed: bool) {
      StoppedInTime(kinds) && malformed == MalformedSince(kinds) <= 1 && OverflowsSince(kinds) == if overflowed then 1 else 0
    }

    /** And after one more. */
    ghost predicate LeavesOff(fates: seq<Asked>, ending: Option<Ending>, malformed: nat, overflowed: bool) {
      forall kinds :: AreKinds(fates, kinds) ==> GoesOnOrEnds(kinds, ending, malformed, overflowed)
    }

    /** Nothing was asked in vain. */
    ghost predicate Timely(fates: seq<Asked>) {
      forall kinds :: AreKinds(fates, kinds) ==> StoppedInTime(kinds)
    }

    lemma {:induction false} TimeIs(fates: seq<Asked>, malformed: nat, overflowed: bool)
      requires InTime(fates, malformed, overflowed)
      ensures KindsInTime(KindsFor(fates), malformed, overflowed)
    {
      assert AreKinds(fates, KindsFor(fates));
    }

    /** A turn that goes on is in time, and one that ends was. */
    lemma {:induction false} StillInTime(fates: seq<Asked>, ending: Option<Ending>, malformed: nat, overflowed: bool)
      requires LeavesOff(fates, ending, malformed, overflowed)
      ensures Timely(fates) && (ending.None? ==> InTime(fates, malformed, overflowed))
    {
      assert AreKinds(fates, KindsFor(fates));
    }

    lemma {:induction false} InTimeIsTimely(fates: seq<Asked>, malformed: nat, overflowed: bool)
      requires InTime(fates, malformed, overflowed)
      ensures Timely(fates) && LeavesOff(fates, Some(Ended(Outcome.Cancelled)), malformed, overflowed)
    {
      TimeIs(fates, malformed, overflowed);
    }

    lemma {:induction false} TakenInTime(c: Completion, malformed: nat, overflowed: bool, outcome: Option<Outcome>, malformedNow: nat, fates: seq<Asked>)
      requires TakenAs(c, malformed, outcome, malformedNow) && InTime(fates, malformed, overflowed)
      ensures LeavesOff(fates + [Answered(c)], EndingOf(outcome), malformedNow, false)
      ensures Led(fates + [Answered(c)], EndingOf(outcome))
    {
      TimeIs(fates, malformed, overflowed);
      KindsMore(fates, Answered(c));
      OneMoreKind(KindsFor(fates), KindFor(Answered(c)));
      LedByLast(fates, Answered(c), EndingOf(outcome));
    }

    /** What follows a failure: for length a retreat, and otherwise what was shown is said and
        the turn ends. */
    method AfterFailure(error: WireError, shown: string, malformed: nat, overflowed: bool, ghost fates: seq<Asked>)
      returns (ending: Option<Ending>, ghost made: Option<Made>)
      requires Healthy() && s.phase.Idle? && InTime(fates, malformed, overflowed)
      modifies this`conv, this`journal, this`life, this`s, this`totals, this`updates, this`counted, world`requests, world`cancels
      ensures Healthy() && s.phase.Idle? && Onward(old(Here())) && Settled(ending)
      ensures LeavesOff(fates + [Failed(error, shown)], ending, malformed, true) && Led(fates + [Failed(error, shown)], ending)
      ensures ending == Some(Ended(Outcome.Cancelled)) ==> old(world.cancels) < world.cancels
      ensures Spent(old(world.requests), world.requests, Bill([], 0, ATTEMPTS_A_REQUEST, 0))
      ensures !error.ContextTooLong? ==>
        made.None? && s.messages == old(s).messages + (if Blank(shown) then [] else [Message(Assistant, [Text(shown)])])
      ensures error.ContextTooLong? ==> (made.None? <==> overflowed)
      ensures made.Some? ==>
        (CameTo(Overflow, old(conv), old(life), life, made.value) && (ending.None? <==> Verdict(made.value) == Done))
    {
      made := None;
      if error.ContextTooLong? {
        var outcome;
        outcome, made := Retreat(error.message, overflowed);
        ending := EndingOf(outcome);
      } else {
        SpentNothing(world.requests, ATTEMPTS_A_REQUEST, 0);
        GiveUp(shown);
        ending := Some(Errored(error));
      }
      FailedInTime(error, shown, malformed, overflowed, fates, ending);
    }

    lemma {:induction false} FailedInTime(error: WireError, shown: string, malformed: nat, overflowed: bool, fates: seq<Asked>, ending: Option<Ending>)
      requires InTime(fates, malformed, overflowed)
      requires !error.ContextTooLong? ==> ending == Some(Errored(error))
      requires error.ContextTooLong? ==>
        ending == Some(Ended(ContextOverflow(error.message))) ||
        (!overflowed && (ending == None || ending == Some(Ended(Outcome.Cancelled))))
      ensures LeavesOff(fates + [Failed(error, shown)], ending, malformed, true) && Led(fates + [Failed(error, shown)], ending)
    {
      var fate := Failed(error, shown);
      TimeIs(fates, malformed, overflowed);
      KindsMore(fates, fate);
      OneMoreKind(KindsFor(fates), KindFor(fate));
      LedByLast(fates, fate, ending);
    }

    ghost predicate Settled(ending: Option<Ending>)
      reads this`s
    {
      if ending.Some? && ending.value.Ended? then Concluded(Some(ending.value.outcome)) else s.phase.Idle?
    }

    /** A request of the turn's own. */
    method AskModel() returns (fate: Asked)
      requires Healthy()
      modifies world`requests, world`cancels
      ensures Live() && Books() && Tried() && world.Permitted() && (fate.Answered? ==> Plausible(fate.completion))
      ensures Owing(counted, UsageOwed(fate))
      ensures old(world.cancels) <= world.cancels && (fate.Withdrawn? ==> old(world.cancels) < world.cancels)
      ensures Spent(old(world.requests), world.requests, Bill([fate], SpawnsFor(fate), ATTEMPTS_A_REQUEST, 0))
    {
      AllOwed();
      ghost var asking;
      fate, asking := Request(true);
      OwingMore(old(world.requests), asking);
      SpentOnOne(old(world.requests), asking);
    }

    /** What follows from how it came back. */
    method Follow(fate: Asked, malformed: nat, overflowed: bool, ghost fates: seq<Asked>, ghost cancels: nat)
      returns (ending: Option<Ending>, malformedNow: nat, overflowedNow: bool, ghost deals: seq<Deal>)
      requires Live() && s.phase.Idle? && Books() && Tried() && world.Permitted() && (fate.Answered? ==> Plausible(fate.completion))
      requires Owing(counted, UsageOwed(fate)) && InTime(fates, malformed, overflowed)
      requires cancels <= world.cancels && (fate.Withdrawn? ==> cancels < world.cancels)
      modifies this`conv, this`journal, this`life, this`s, this`totals, this`updates, this`counted, world`requests, world`dealings, world`ran, world`cancels
      ensures Healthy() && Onward(old(Here())) && Settled(ending)
      ensures Spent(old(world.requests), world.requests, Bill([], 0, ATTEMPTS_A_REQUEST, Beyond(SpawnsFor(fate))))
      ensures LeavesOff(fates + [fate], ending, malformedNow, overflowedNow) && Led(fates + [fate], ending)
      ensures ending == Some(Ended(Outcome.Cancelled)) ==> cancels < world.cancels
      ensures Served(fate, deals) && OnRecord(old(world.dealings), world.dealings, ServedRecord(fate, deals))
      decreases Rank(), 11
    {
      malformedNow, overflowedNow, deals := malformed, overflowed, [];
      match fate {
        case Withdrawn =>
          SpentNothing(world.requests, ATTEMPTS_A_REQUEST, 0);
          CountedAll(counted, []);
          NothingRecorded(world.dealings);
          Withdrew(fates, malformed, overflowed);
          ending := Some(Ended(Outcome.Cancelled));
        case Failed(error, shown) =>
          overflowedNow := true;
          CountedAll(counted, []);
          NothingRecorded(world.dealings);
          ghost var made;
          ending, made := AfterFailure(error, shown, malformed, overflowed, fates);
        case Answered(completion) =>
          overflowedNow := false;
          ending, malformedNow, deals := AfterAnswer(completion, malformed, overflowed, fates);
          SpentAtMost(old(world.requests), world.requests, Bill([], 0, 0, Beyond(SpawnsFor(fate))),
            Bill([], 0, ATTEMPTS_A_REQUEST, Beyond(SpawnsFor(fate))));
      }
    }

    lemma {:induction false} Withdrew(fates: seq<Asked>, malformed: nat, overflowed: bool)
      requires InTime(fates, malformed, overflowed)
      ensures Led(fates + [Withdrawn], Some(Ended(Outcome.Cancelled)))
      ensures LeavesOff(fates + [Withdrawn], Some(Ended(Outcome.Cancelled)), malformed, overflowed)
    {
      TimeIs(fates, malformed, overflowed);
      KindsMore(fates, Withdrawn);
      OneMoreKind(KindsFor(fates), Kind.Dropped);
      LedByLast(fates, Withdrawn, Some(Ended(Outcome.Cancelled)));
    }

    /** One request of the turn and all that follows. */
    method Pass(malformed: nat, overflowed: bool, ghost fates: seq<Asked>)
      returns (ending: Option<Ending>, malformedNow: nat, overflowedNow: bool, ghost bill: Bill, ghost deals: seq<Deal>)
      requires Healthy() && s.phase.Idle? && InTime(fates, malformed, overflowed)
      modifies this`conv, this`journal, this`life, this`s, this`totals, this`updates, this`counted, world`requests, world`dealings, world`ran, world`cancels
      ensures Healthy() && Onward(old(Here())) && Settled(ending)
      ensures Spent(old(world.requests), world.requests, bill)
      ensures |bill.fates| == 1 && bill.own == 2 * ATTEMPTS_A_REQUEST && bill.others == Beyond(bill.spawns)
      ensures LeavesOff(fates + bill.fates, ending, malformedNow, overflowedNow) && Led(fates + bill.fates, ending)
      ensures ending == Some(Ended(Outcome.Cancelled)) ==> old(world.cancels) < world.cancels
      ensures Served(bill.fates[0], deals) && OnRecord(old(world.dealings), world.dealings, ServedRecord(bill.fates[0], deals))
      decreases Rank(), 12
    {
      totals := totals.(turns := totals.turns + 1);
      var fate := AskModel();
      ghost var requests := world.requests;
      ending, malformedNow, overflowedNow, deals := Follow(fate, malformed, overflowed, fates, old(world.cancels));
      ghost var one := Bill([fate], SpawnsFor(fate), ATTEMPTS_A_REQUEST, 0);
      ghost var two := Bill([], 0, ATTEMPTS_A_REQUEST, Beyond(SpawnsFor(fate)));
      SpentMore(old(world.requests), requests, world.requests, one, two);
      bill := Together(one, two);
      assert bill.fates == [fate];
    }

    /** Once around the loop: room is made if it is due, and the model is asked. */
    method Around(malformed: nat, overflowed: bool, stuckAt: Option<nat>, ghost fates: seq<Asked>)
      returns (ending: Option<Ending>, malformedNow: nat, overflowedNow: bool, stuckNow: Option<nat>,
               ghost bill: Bill, ghost deals: seq<Deal>, ghost made: Option<Made>)
      requires Healthy() && s.phase.Idle? && InTime(fates, malformed, overflowed)
      modifies this`conv, this`journal, this`life, this`s, this`totals, this`updates, this`counted, world`requests, world`dealings, world`ran, world`cancels
      ensures Healthy() && Onward(old(Here())) && Settled(ending)
      ensures Spent(old(world.requests), world.requests, bill) && bill.others == Beyond(bill.spawns)
      ensures bill.fates == [] ==> bill.own == ATTEMPTS_A_REQUEST && ending == Some(Ended(Outcome.Cancelled))
      ensures bill.fates != [] ==> |bill.fates| == 1 && bill.own == ATTEMPTS_A_PASS && Led(fates + bill.fates, ending)
      ensures LeavesOff(fates + bill.fates, ending, malformedNow, overflowedNow)
      ensures ending == Some(Ended(Outcome.Cancelled)) ==> old(world.cancels) < world.cancels
      ensures if bill.fates == [] then OnRecord(old(world.dealings), world.dealings, [])
        else Served(bill.fates[0], deals) && OnRecord(old(world.dealings), world.dealings, ServedRecord(bill.fates[0], deals))
      ensures MadeFirst(old(conv), stuckAt, old(life).trace, life.trace, made)
      decreases Rank(), 13
    {
      malformedNow, overflowedNow := malformed, overflowed;
      ghost var room := Bill([], 0, ATTEMPTS_A_REQUEST, 0);
      var cancelled;
      cancelled, stuckNow, made := RoomFirst(stuckAt);
      if cancelled {
        assert fates + [] == fates;
        InTimeIsTimely(fates, malformed, overflowed);
        NothingRecorded(world.dealings);
        return Some(Ended(Outcome.Cancelled)), malformed, overflowed, stuckNow, room, [], made;
      }
      ghost var requests, pass, steps := world.requests, room, life.trace;
      ending, malformedNow, overflowedNow, pass, deals := Pass(malformed, overflowed, fates);
      SpentMore(old(world.requests), requests, world.requests, room, pass);
      bill := Together(room, pass);
      assert bill.fates == pass.fates;
    }

    /** The steps a compaction takes. */
    function StepsOf(c: Conv, made: Made): seq<Step> {
      (if made.plan == [] then [] else [Step.Prune(made.plan)]) +
      (if NotesOf(made.fate).Some? && made.upto.Some?
       then [Step.Compact(given.write(AfterPrune(c, made.plan).messages, made.upto.value, NotesOf(made.fate).value), made.upto.value)]
       else [])
    }

    /** When it was due, a compaction came first, as planned, and its steps are the first
        taken since. */
    ghost predicate MadeFirst(c: Conv, stuckAt: Option<nat>, before: seq<Step>, after: seq<Step>, made: Option<Made>) {
      (made.Some? <==> Due(c, stuckAt)) &&
      (made.Some? ==> Plans(made.value.plan, c) && before + StepsOf(c, made.value) <= after)
    }

    method RoomFirst(stuckAt: Option<nat>) returns (cancelled: bool, stuckNow: Option<nat>, ghost made: Option<Made>)
      requires Healthy() && s.phase.Idle?
      modifies this`conv, this`journal, this`life, this`s, this`totals, this`updates, this`counted, world`requests, world`cancels
      ensures Healthy() && s.phase.Idle? && Onward(old(Here()))
      ensures Spent(old(world.requests), world.requests, Bill([], 0, ATTEMPTS_A_REQUEST, 0))
      ensures cancelled ==> old(world.cancels) < world.cancels
      ensures MadeFirst(old(conv), stuckAt, old(life).trace, life.trace, made)
    {
      cancelled, stuckNow, made := MakeRoom(stuckAt);
      if made.Some? {
        FirstSteps(old(conv), old(life), life, made.value);
      }
    }

    lemma {:induction false} FirstSteps(c: Conv, before: Run, after: Run, made: Made)
      requires CameTo(Threshold, c, before, after, made)
      ensures before.trace + StepsOf(c, made) == after.trace && Plans(made.plan, c)
    {
      Assoc(before.trace, if made.plan == [] then [] else [Step.Prune(made.plan)],
        if NotesOf(made.fate).Some? && made.upto.Some?
        then [Step.Compact(given.write(AfterPrune(c, made.plan).messages, made.upto.value, NotesOf(made.fate).value), made.upto.value)]
        else []);
    }

    /** How a turn ends: as its last own request has it; or, having been let go on, at its
        cap, with a cancel, or where it is no longer followed. Each before the last let it
        go on. */
    ghost predicate EndsSo(fates: seq<Asked>, ending: Ending, patience: nat) {
      WentOn(fates, |fates| - 1) &&
      ((fates != [] && Led(fates, Some(ending))) ||
       ((fates != [] ==> Led(fates, None)) &&
        match ending
        case Ended(MaxTurns) => given.maxTurns == Some(|fates|)
        case Ended(Running) => |fates| == patience
        case Ended(Cancelled) => true
        case _ => false))
    }

    /** Each of the first n let the turn go on. */
    ghost predicate WentOn(fates: seq<Asked>, n: int) {
      forall k :: 0 < k <= n && k <= |fates| ==> LedOn(fates[..k])
    }

    ghost predicate LedOn(fates: seq<Asked>) { fates != [] && Led(fates, None) }

    lemma {:induction false} WentOnMore(fates: seq<Asked>, fate: Asked)
      requires WentOn(fates, |fates|)
      ensures WentOn(fates + [fate], |fates|)
    {
      forall k | 0 < k <= |fates|
        ensures LedOn((fates + [fate])[..k])
      {
        assert (fates + [fate])[..k] == fates[..k] && LedOn(fates[..k]);
      }
    }

    lemma {:induction false} WentOnAll(fates: seq<Asked>)
      requires fates != [] && WentOn(fates, |fates| - 1) && Led(fates, None)
      ensures WentOn(fates, |fates|)
    {
      assert fates[..|fates|] == fates;
    }

    /** The loop: asks the model until it answers without a call, or is stopped. `patience`
        is how many requests the run is followed for. By the upstream's own record, a turn
        with a cap of m makes at most m requests of its own and 15m attempts at them and its
        summaries, and its subagents 900 for each spawn asked for; it asks nothing after a
        second overflow or a second malformed response; all it was answered is counted; and
        how it ends is what its requests came back with. By the operator's and the tools',
        each call of its sound responses was dealt with in its turn, and no other. It ends
        with no call left open, unless a subagent returned. */
    method RunTurn(patience: nat) returns (ending: Ending, ghost bill: Bill, ghost served: seq<seq<Deal>>)
      requires Healthy() && s.phase.Idle?
      modifies this`conv, this`journal, this`life, this`s, this`totals, this`updates, this`counted, world`requests, world`dealings, world`ran, world`cancels
      ensures Healthy() && Onward(old(Here())) && Settled(Some(ending))
      ensures TurnEnds(ending, bill, served, patience, old(world.requests), old(Here()))
      decreases Rank(), 15
    {
      var requests, malformed, overflowed := 0, 0, false;
      var stuckAt: Option<nat> := None;
      bill, served := FREE, [];
      SpentNothing(world.requests, 0, 0);
      InTimeAtFirst();
      NothingRecorded(world.dealings);
      while requests < patience
        invariant requests == |bill.fates| <= patience && Healthy() && s.phase.Idle?
        invariant Onward(old(Here())) && Going(bill, served, malformed, overflowed, old(world.requests), old(world.dealings))
        invariant given.maxTurns.Some? ==> requests <= given.maxTurns.value
      {
        if given.maxTurns.Some? && requests >= given.maxTurns.value {
          GoingEnds(bill, served, malformed, overflowed, Ended(MaxTurns), patience, old(world.requests), old(Here()));
          return Ended(MaxTurns), bill, served;
        }
        requests := requests + 1;
        var end;
        end, malformed, overflowed, stuckAt, bill, served :=
          GoRound(malformed, overflowed, stuckAt, bill, served, old(world.requests), old(Here()), patience);
        if end.Some? {
          return end.value, bill, served;
        }
      }
      ending := Ended(Running);
      GoingEnds(bill, served, malformed, overflowed, ending, patience, old(world.requests), old(Here()));
    }

    /** What a turn came to. */
    ghost predicate TurnEnds(ending: Ending, bill: Bill, served: seq<seq<Deal>>, patience: nat, base: seq<Asking>, m: Mark)
      reads world`requests, world`dealings, world`cancels
    {
      Spent(base, world.requests, bill) && AllServed(bill.fates, served, m.dealings, world.dealings) &&
      EndsSo(bill.fates, ending, patience) && (ending == Ended(Outcome.Cancelled) ==> m.cancels < world.cancels) &&
      |bill.fates| <= patience && Timely(bill.fates) && bill.others == Beyond(bill.spawns) &&
      bill.own <= ATTEMPTS_A_PASS * |bill.fates| + ATTEMPTS_A_REQUEST &&
      (given.maxTurns.Some? ==>
        |bill.fates| <= given.maxTurns.value && bill.own <= ATTEMPTS_A_PASS * given.maxTurns.value)
    }

    lemma {:induction false} GoingEnds(bill: Bill, served: seq<seq<Deal>>, malformed: nat, overflowed: bool, ending: Ending, patience: nat,
                                       base: seq<Asking>, m: Mark)
      requires Going(bill, served, malformed, overflowed, base, m.dealings) && |bill.fates| <= patience
      requires given.maxTurns.Some? ==> |bill.fates| <= given.maxTurns.value
      requires (ending == Ended(MaxTurns) && given.maxTurns == Some(|bill.fates|)) || (ending == Ended(Running) && |bill.fates| == patience)
      ensures TurnEnds(ending, bill, served, patience, base, m)
    {
      LeftOff(bill.fates, ending, patience);
      InTimeIsTimely(bill.fates, malformed, overflowed);
    }

    lemma {:induction false} InTimeAtFirst()
      ensures InTime([], 0, false)
    {
      assert KindsFor([]) == [];
    }

    /** Where a turn that goes on has come to. */
    ghost predicate Going(bill: Bill, served: seq<seq<Deal>>, malformed: nat, overflowed: bool, base: seq<Asking>, dealings: seq<Dealing>)
      reads world`requests, world`dealings
    {
      Spent(base, world.requests, bill) && bill.own <= ATTEMPTS_A_PASS * |bill.fates| && bill.others == Beyond(bill.spawns) &&
      InTime(bill.fates, malformed, overflowed) && WentOn(bill.fates, |bill.fates|) &&
      AllServed(bill.fates, served, dealings, world.dealings)
    }

    /** One turn of that loop, on the bill of those before. */
    method GoRound(malformed: nat, overflowed: bool, stuckAt: Option<nat>, ghost bill: Bill, ghost served: seq<seq<Deal>>,
                   ghost base: seq<Asking>, ghost m: Mark, ghost patience: nat)
      returns (end: Option<Ending>, malformedNow: nat, overflowedNow: bool, stuckNow: Option<nat>, ghost now: Bill, ghost servedNow: seq<seq<Deal>>)
      requires Healthy() && s.phase.Idle? && Onward(m) && |bill.fates| < patience
      requires Going(bill, served, malformed, overflowed, base, m.dealings)
      requires given.maxTurns.Some? ==> |bill.fates| < given.maxTurns.value
      modifies this`conv, this`journal, this`life, this`s, this`totals, this`updates, this`counted, world`requests, world`dealings, world`ran, world`cancels
      ensures Healthy() && Onward(m) && Settled(end)
      ensures end.None? ==> |now.fates| == |bill.fates| + 1 && Going(now, servedNow, malformedNow, overflowedNow, base, m.dealings)
      ensures end.Some? ==> TurnEnds(end.value, now, servedNow, patience, base, m)
      decreases Rank(), 14
    {
      ghost var requests, dealings, more, deals, made := world.requests, world.dealings, FREE, [], None;
      InTimeIsTimely(bill.fates, malformed, overflowed);
      end, malformedNow, overflowedNow, stuckNow, more, deals, made := Around(malformed, overflowed, stuckAt, bill.fates);
      now := Together(bill, more);
      servedNow := if more.fates == [] then served else served + [deals];
      if more.fates == [] {
        RoundCancelled(bill, more, served, base, requests, dealings, m, patience);
      } else {
        RoundMade(bill, more, served, deals, end, malformedNow, overflowedNow, base, requests, dealings, m, patience);
      }
    }

    /** A round that was cancelled before it asked ends the turn. */
    lemma {:induction false} RoundCancelled(bill: Bill, more: Bill, served: seq<seq<Deal>>, base: seq<Asking>, requests: seq<Asking>,
                                            dealings: seq<Dealing>, m: Mark, patience: nat)
      requires more.fates == [] && more.own == ATTEMPTS_A_REQUEST && more.others == Beyond(more.spawns) && |bill.fates| < patience
      requires given.maxTurns.Some? ==> |bill.fates| < given.maxTurns.value
      requires Spent(base, requests, bill) && Spent(requests, world.requests, more) && m.cancels < world.cancels
      requires bill.own <= ATTEMPTS_A_PASS * |bill.fates| && bill.others == Beyond(bill.spawns)
      requires WentOn(bill.fates, |bill.fates|) && Timely(bill.fates)
      requires AllServed(bill.fates, served, m.dealings, dealings) && OnRecord(dealings, world.dealings, [])
      ensures TurnEnds(Ended(Outcome.Cancelled), Together(bill, more), served, patience, base, m)
    {
      SpentMore(base, requests, world.requests, bill, more);
      assert Together(bill, more).fates == bill.fates;
      ServedStill(bill.fates, served, m.dealings, dealings, world.dealings);
      LeftOff(bill.fates, Ended(Outcome.Cancelled), patience);
    }

    /** One that asked lets it go on, or ends it. */
    lemma {:induction false} RoundMade(bill: Bill, more: Bill, served: seq<seq<Deal>>, deals: seq<Deal>, end: Option<Ending>,
                                       malformed: nat, overflowed: bool, base: seq<Asking>, requests: seq<Asking>,
                                       dealings: seq<Dealing>, m: Mark, patience: nat)
      requires |more.fates| == 1 && more.own == ATTEMPTS_A_PASS && more.others == Beyond(more.spawns) && |bill.fates| < patience
      requires given.maxTurns.Some? ==> |bill.fates| < given.maxTurns.value
      requires Spent(base, requests, bill) && Spent(requests, world.requests, more)
      requires bill.own <= ATTEMPTS_A_PASS * |bill.fates| && bill.others == Beyond(bill.spawns) && WentOn(bill.fates, |bill.fates|)
      requires Led(bill.fates + more.fates, end) && LeavesOff(bill.fates + more.fates, end, malformed, overflowed)
      requires end == Some(Ended(Outcome.Cancelled)) ==> m.cancels < world.cancels
      requires AllServed(bill.fates, served, m.dealings, dealings) && Served(more.fates[0], deals)
      requires OnRecord(dealings, world.dealings, ServedRecord(more.fates[0], deals))
      ensures end.None? ==> Going(Together(bill, more), served + [deals], malformed, overflowed, base, m.dealings)
      ensures end.Some? ==> TurnEnds(end.value, Together(bill, more), served + [deals], patience, base, m)
    {
      var fate, now := more.fates[0], Together(bill, more);
      assert more.fates == [fate] && now.fates == bill.fates + [fate];
      SpentMore(base, requests, world.requests, bill, more);
      StillInTime(now.fates, end, malformed, overflowed);
      ServedMore(bill.fates, served, fate, deals, m.dealings, dealings, world.dealings);
      WentOnMore(bill.fates, fate);
      if end.None? {
        WentOnAll(now.fates);
      }
    }

    lemma {:induction false} LeftOff(fates: seq<Asked>, ending: Ending, patience: nat)
      requires WentOn(fates, |fates|)
      requires (ending == Ended(MaxTurns) && given.maxTurns == Some(|fates|)) || (ending == Ended(Running) && |fates| == patience) ||
        ending == Ended(Outcome.Cancelled)
      ensures EndsSo(fates, ending, patience)
    {
      if fates != [] {
        assert LedOn(fates[..|fates|]) && fates[..|fates|] == fates;
      }
    }

    // ------------------------------------------------------------- a session's turns

    /** At rest, the journal alone gives back the conversation, and every call in it has
        its result. */
    ghost predicate AtRest()
      reads this`conv, this`journal, this`life, this`s
    {
      Live() && s.phase.Idle? && WellPaired(conv.messages) &&
      (journal.Some? ==> Rebuilt(journal.value) == Restored(Some(cwd), conv.messages, []))
    }

    lemma {:induction false} IdleIsAtRest()
      requires Live() && s.phase.Idle?
      ensures AtRest()
    {
      RunLeads(life);
      RunsStayPaired(id, cwd, life.trace);
      ReplayRefinesLiveRun(id, cwd, life.trace);
    }

    /** Whatever an agent has been through, its summaries still hold the exact record of its
        calls and the operator's words, where those could be told from the summary's own. */
    lemma {:induction false} Remembers()
      requires Live() && Summary.WellWorded(given.wording) && PlainLife(given.wording, life)
      ensures Memory.ExactRecord(given.wording, conv.messages, Forgotten(life), CallMemory.CallsMade(life.trace))
      ensures Memory.AllShort(Memory.Prompts(life.trace)) && |Memory.Prompts(life.trace)| < OperatorMemory.USIZE ==>
        Memory.WordsSurvive(Remembering.OperatorMessages(given.wording, conv.messages), Memory.Prompts(life.trace))
    {
      assert Proper(given);
      LifeRemembers(given.wording, life);
    }

    /** What is answered says no more and no less than what the upstream said meanwhile. */
    ghost predicate Accounts(answer: Told, before: seq<Usage>, after: seq<Usage>) {
      before <= after && SaysAsMuch(answer, SumTold(Updates(after[|before|..])))
    }

    lemma {:induction false} TurnAccounts(before: seq<Usage>, after: seq<Usage>)
      requires before <= after
      ensures var b, a := Sum(before), Sum(after);
        b.input <= a.input && b.output <= a.output && b.cacheRead <= a.cacheRead &&
        Accounts(TurnUsage(b, a), earlier + before, earlier + after)
      ensures Updates(after) == Updates(before) + Updates((earlier + after)[|earlier + before|..])
    {
      var turn := after[|before|..];
      assert after == before + turn && (earlier + after)[|earlier + before|..] == turn by {
        SinceEarlier(before, after);
      }
      AnswerConserves(before, turn);
      UpdatesConcat(before, turn);
    }

    lemma {:induction false} SinceEarlier(before: seq<Usage>, after: seq<Usage>)
      requires before <= after
      ensures after == before + after[|before|..] && earlier + before <= earlier + after
      ensures (earlier + after)[|earlier + before|..] == after[|before|..]
    {
    }

    /** The calls found open get their results in the journal, in order, and the session is
        at rest. */
    method FinishInterrupted(interrupted: seq<Interrupted>)
      requires Live() && s.phase == Recover(interrupted)
      modifies this`journal, this`life, this`s
      ensures AtRest() && s.messages == old(s).messages && old(life).trace <= life.trace
      ensures s.log == old(s).log + Written(interrupted) && (journal.Some? <==> old(journal).Some?)
    {
      for i := 0 to |interrupted|
        invariant Live() && s.phase == Recover(interrupted[i..]) && s.messages == old(s).messages && old(life).trace <= life.trace
        invariant s.log == old(s).log + Written(interrupted[..i]) && (journal.Some? <==> old(journal).Some?)
      {
        WrittenMore(old(s).log, interrupted, i + 1);
        WriteNext(interrupted, i);
      }
      assert interrupted[..|interrupted|] == interrupted;
      IdleIsAtRest();
    }

    method WriteNext(interrupted: seq<Interrupted>, i: nat)
      requires i < |interrupted| && Live() && s.phase == Recover(interrupted[i..])
      modifies this`journal, this`life, this`s
      ensures Live() && s.phase == Recover(interrupted[i + 1..]) && s.messages == old(s).messages && old(life).trace <= life.trace
      ensures s.log == old(s).log + [ToolEnded(interrupted[i].call.id, interrupted[i].content, true)]
      ensures journal.Some? <==> old(journal).Some?
    {
      assert interrupted[i..][1..] == interrupted[i + 1..];
      Write(ToolEnded(interrupted[i].call.id, interrupted[i].content, true));
      Take(WriteBack);
    }

    /** One prompt, answered with the turn's usage unless it failed or was stopped. */
    method Prompt(text: string, patience: nat)
      returns (ending: Ending, answer: Option<Told>, ghost bill: Bill, ghost served: seq<seq<Deal>>)
      requires given.finish.None? && Healthy() && s.phase.Idle?
      modifies this`conv, this`journal, this`life, this`s, this`totals, this`updates, this`counted, world`requests, world`dealings, world`ran, world`cancels
      ensures AtRest() && Healthy() && Onward(old(Here())) && old(life).trace + [Say(User, [Text(text)])] <= life.trace
      ensures answer.Some? <==>
        ending.Ended? && (ending.outcome.Finished? || ending.outcome.MaxTurns? || ending.outcome.Cancelled?)
      ensures answer.Some? ==> Accounts(answer.value, old(Owed(world.requests)), Owed(world.requests))
      ensures old(Owed(world.requests)) <= Owed(world.requests) &&
        updates == old(updates) + Updates(Owed(world.requests)[|old(Owed(world.requests))|..])
      ensures TurnEnds(ending, bill, served, patience, old(world.requests), old(Here()))
    {
      AllOwed();
      BooksAre();
      NoCallsOf([Text(text)]);
      Push(User, [Text(text)]);
      var before := totals.usage;
      ending, bill, served := RunTurn(patience);
      IdleIsAtRest();
      AllOwed();
      BooksAre();
      TurnAccounts(old(counted), counted);
      answer := if ending.Ended? && (ending.outcome.Finished? || ending.outcome.MaxTurns? || ending.outcome.Cancelled?)
                then Some(TurnUsage(before, totals.usage)) else None;
    }

    /** A compaction at the operator's wish. */
    method CompactOnRequest() returns (r: Compacting, answer: Told, ghost made: Made)
      requires Healthy() && s.phase.Idle?
      modifies this`conv, this`journal, this`life, this`s, this`totals, this`updates, this`counted, world`requests, world`cancels
      ensures AtRest() && Healthy() && Onward(old(Here()))
      ensures CameTo(Manual, old(conv), old(life), life, made) && r == Verdict(made)
      ensures r.Nothing? ==> conv == old(conv) && s == old(s)
      ensures AskedFor(old(world.requests), world.requests, made.fate)
      ensures Accounts(answer, old(Owed(world.requests)), Owed(world.requests))
    {
      AllOwed();
      BooksAre();
      var before := totals.usage;
      r, made := Compact(Manual);
      IdleIsAtRest();
      AllOwed();
      BooksAre();
      TurnAccounts(old(counted), counted);
      answer := TurnUsage(before, totals.usage);
    }
  }

  /** A session begun, or carried on from the lines of its journal: rebuilt from them, the
      calls the last process left open are answered, and it is at rest, its life going on. */
  method Start(given: Setup, system: string, id: string, cwd: string, world: World, keeps: bool,
               stored: Option<seq<Option<Record>>>, ghost past: Run)
    returns (agent: Agent)
    requires given.finish.None? && AllWellTried(given.trimmed, world.requests) && world.Permitted()
    requires stored.Some? ==> keeps && past.write == given.write && past.state.log == Decoded(stored.value)
    ensures fresh(agent) && agent.given == given && agent.world == world && agent.depth == 0
    ensures agent.Healthy() && agent.AtRest() && (agent.journal.Some? <==> keeps)
    ensures stored.None? ==> agent.s == Init(id, cwd) && agent.life == Begun(id, cwd, given.write)
    ensures stored.Some? ==>
      (var r := Rebuilt(past.state.log);
       agent.conv.messages == r.messages && agent.s.log == past.state.log + Written(r.interrupted) &&
       past.trace + [Crash] <= agent.life.trace && agent.id == past.id && agent.cwd == past.cwd)
  {
    if stored.None? {
      agent := new Agent(given, system, [], if keeps then Some([Session(id, cwd)]) else None, world, 0,
                         Begun(id, cwd, given.write));
      agent.IdleIsAtRest();
      return;
    }
    var restored := Restore(stored.value);
    agent := new Agent(given, system, restored.messages, Some(Decoded(stored.value)), world, 0, Extended(past, Crash));
    agent.FinishInterrupted(restored.interrupted);
  }
}
