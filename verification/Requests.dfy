/** What a model request can come back with, when it is tried again, and when a run of bad
    replies ends a turn (agent/src/agent.rs, agent/src/wire/mod.rs). */
module Requests {
  import opened Conversation
  import opened Sizes
  import opened Usage

  datatype WireError =
    | ContextTooLong(message: string)
    | Http(status: nat, retryAfter: Option<nat>)
    | Stream(message: string)
    | Refused(code: string)
    | Incomplete
    | Transport

  predicate Retryable(e: WireError) {
    match e
    case Http(status, _) => status in {408, 429, 500, 502, 503, 504, 529}
    case Refused(code) => code == "server_error" || code == "server_is_overloaded" || code == "rate_limit_exceeded"
    case Incomplete => true
    case Transport => true
    case _ => false
  }

  function RetryAfter(e: WireError): Option<nat> {
    if e.Http? then e.retryAfter else None
  }

  /** The waits, in seconds, between one request's attempts. */
  const BACKOFF: seq<nat> := [1, 2, 4, 8]
  const MAX_RETRY_AFTER := 60

  datatype Completion = Completion(blocks: seq<Block>, finishReason: Option<string>, usage: Option<Usage>)

  /** One attempt at the upstream: an answer, a failure with what was shown of one by then,
      or a cancel. */
  datatype Reply = Answer(completion: Completion) | Failure(error: WireError, shown: string) | Cancel

  /** A request as the upstream saw it: whether it was a turn's own or for a summary, how
      deep among agents, and every attempt at it. */
  datatype Asking = Asking(main: bool, depth: nat, attempts: seq<Reply>)

  /** Whether the operator had read any of an answer when the attempt failed. Text that
      `trimmed` leaves nothing of is no answer, and a summary's is never shown. */
  predicate Visible(trimmed: string -> string, main: bool, shown: string) {
    main && trimmed(shown) != ""
  }

  predicate WorthAnother(trimmed: string -> string, main: bool, reply: Reply) {
    reply.Failure? && Retryable(reply.error) && !Visible(trimmed, main, reply.shown) &&
    (RetryAfter(reply.error).Some? ==> RetryAfter(reply.error).value <= MAX_RETRY_AFTER)
  }

  /** How long until a request is made again, if it is. */
  function Wait(attempt: nat, e: WireError, visible: bool): (wait: Option<nat>)
    ensures wait.Some? <==>
      attempt < |BACKOFF| && Retryable(e) && !visible && (RetryAfter(e).Some? ==> RetryAfter(e).value <= MAX_RETRY_AFTER)
    ensures wait.Some? ==> wait.value >= BACKOFF[attempt] && (RetryAfter(e).Some? ==> wait.value >= RetryAfter(e).value)
  {
    if Retryable(e) && !visible && attempt < |BACKOFF| then
      if RetryAfter(e).Some? && RetryAfter(e).value > MAX_RETRY_AFTER then None
      else Some(if RetryAfter(e).Some? then Max(RetryAfter(e).value, BACKOFF[attempt]) else BACKOFF[attempt])
    else None
  }

  /** At most five attempts, none after visible text, nor after an error that another
      attempt could not fix, nor when it was told to wait for more than a minute. */
  predicate WellTried(trimmed: string -> string, r: Asking) {
    1 <= |r.attempts| <= |BACKOFF| + 1 &&
    forall k :: 0 <= k < |r.attempts| - 1 ==> WorthAnother(trimmed, r.main, r.attempts[k])
  }

  predicate AllWellTried(trimmed: string -> string, requests: seq<Asking>) {
    forall i :: 0 <= i < |requests| ==> WellTried(trimmed, requests[i])
  }

  /** How a request went, for the one who made it. */
  datatype Asked = Answered(completion: Completion) | Failed(error: WireError, shown: string) | Withdrawn

  /** Which is all in its attempts: a failure that could be tried again and was not, was
      cancelled while it waited. */
  function FateOf(trimmed: string -> string, r: Asking): Asked
    requires r.attempts != []
  {
    var last := r.attempts[|r.attempts| - 1];
    match last
    case Answer(completion) => Answered(completion)
    case Cancel => Withdrawn
    case Failure(error, shown) =>
      if |r.attempts| <= |BACKOFF| && WorthAnother(trimmed, r.main, last) then Withdrawn
      else Failed(error, if r.main then shown else "")
  }

  // --------------------------------------------------------------- what was answered

  function Given(usage: Option<Usage>): seq<Usage> {
    if usage.Some? then [usage.value] else []
  }

  function UsageOf(c: Completion): seq<Usage> { Given(c.usage) }

  function UsageOwed(fate: Asked): seq<Usage> {
    if fate.Answered? then UsageOf(fate.completion) else []
  }

  function UsageIn(attempts: seq<Reply>): seq<Usage> {
    if attempts == [] then []
    else
      var last := attempts[|attempts| - 1];
      UsageIn(attempts[..|attempts| - 1]) + (if last.Answer? then UsageOf(last.completion) else [])
  }

  /** The usage of every answer the upstream gave, in order. */
  function Owed(requests: seq<Asking>): seq<Usage> {
    if requests == [] then [] else Owed(requests[..|requests| - 1]) + UsageIn(requests[|requests| - 1].attempts)
  }

  lemma {:induction false} OwedConcat(a: seq<Asking>, b: seq<Asking>)
    ensures Owed(a + b) == Owed(a) + Owed(b)
  {
    if b == [] {
      assert a + b == a;
    } else {
      var all, n := a + b, |b| - 1;
      OwedConcat(a, b[..n]);
      assert all[..|all| - 1] == a + b[..n] && all[|all| - 1] == b[n];
      Assoc(Owed(a), Owed(b[..n]), UsageIn(b[n].attempts));
    }
  }

  lemma {:induction false} UsageOfFailures(attempts: seq<Reply>)
    requires forall k :: 0 <= k < |attempts| ==> !attempts[k].Answer?
    ensures UsageIn(attempts) == []
  {
    if attempts != [] {
      UsageOfFailures(attempts[..|attempts| - 1]);
    }
  }

  /** A request's answer, if it has one, is its last attempt, and all it is owed for. */
  lemma {:induction false} OwedForOne(trimmed: string -> string, r: Asking)
    requires WellTried(trimmed, r)
    ensures var last := r.attempts[|r.attempts| - 1];
      Owed([r]) == if last.Answer? then UsageOf(last.completion) else []
  {
    var n := |r.attempts| - 1;
    UsageOfFailures(r.attempts[..n]);
    assert [r][..0] == [] && Owed([r]) == Owed([]) + UsageIn(r.attempts);
  }

  // --------------------------------------------------------------- how often

  /** The attempts made at one depth. */
  function AttemptsAt(requests: seq<Asking>, depth: nat): nat {
    if requests == [] then 0
    else
      var last := requests[|requests| - 1];
      AttemptsAt(requests[..|requests| - 1], depth) + (if last.depth == depth then |last.attempts| else 0)
  }

  /** And at every other. */
  function AttemptsElsewhere(requests: seq<Asking>, depth: nat): nat {
    if requests == [] then 0
    else
      var last := requests[|requests| - 1];
      AttemptsElsewhere(requests[..|requests| - 1], depth) + (if last.depth != depth then |last.attempts| else 0)
  }

  lemma {:induction false} AttemptsConcat(a: seq<Asking>, b: seq<Asking>, depth: nat)
    ensures AttemptsAt(a + b, depth) == AttemptsAt(a, depth) + AttemptsAt(b, depth)
    ensures AttemptsElsewhere(a + b, depth) == AttemptsElsewhere(a, depth) + AttemptsElsewhere(b, depth)
  {
    if b == [] {
      assert a + b == a;
    } else {
      var all, n := a + b, |b| - 1;
      AttemptsConcat(a, b[..n], depth);
      assert all[..|all| - 1] == a + b[..n] && all[|all| - 1] == b[n];
    }
  }

  /** Seen from one depth, what another made is elsewhere. */
  lemma {:induction false} DeeperIsElsewhere(requests: seq<Asking>, depth: nat)
    ensures AttemptsElsewhere(requests, depth + 1) == 0 ==> AttemptsAt(requests, depth) == 0
    ensures AttemptsElsewhere(requests, depth) <= AttemptsAt(requests, depth + 1) + AttemptsElsewhere(requests, depth + 1)
  {
    if requests != [] {
      DeeperIsElsewhere(requests[..|requests| - 1], depth);
    }
  }

  // --------------------------------------------------------------- a turn's replies

  /** How a turn's own request came back. */
  datatype Kind = Sound | Malformed | TooLong | Broken | Dropped

  /** Refusals as too long since a response was last completed. */
  function OverflowsSince(kinds: seq<Kind>): nat {
    if kinds == [] then 0
    else
      match kinds[|kinds| - 1]
      case TooLong => 1 + OverflowsSince(kinds[..|kinds| - 1])
      case Sound => 0
      case Malformed => 0
      case _ => OverflowsSince(kinds[..|kinds| - 1])
  }

  /** Malformed responses in a row. */
  function MalformedSince(kinds: seq<Kind>): nat {
    if kinds == [] then 0
    else
      match kinds[|kinds| - 1]
      case Malformed => 1 + MalformedSince(kinds[..|kinds| - 1])
      case Sound => 0
      case _ => MalformedSince(kinds[..|kinds| - 1])
  }

  predicate MayGoOn(kinds: seq<Kind>) {
    OverflowsSince(kinds) <= 1 && MalformedSince(kinds) <= 1
  }

  /** Nothing was asked after a second overflow with no completed response between, nor
      after two malformed responses running. */
  predicate StoppedInTime(kinds: seq<Kind>) {
    forall k :: 0 <= k < |kinds| ==> MayGoOn(kinds[..k])
  }

  lemma {:induction false} OneMoreKind(kinds: seq<Kind>, kind: Kind)
    requires StoppedInTime(kinds) && MayGoOn(kinds)
    ensures StoppedInTime(kinds + [kind])
    ensures kind == TooLong ==> OverflowsSince(kinds + [kind]) == 1 + OverflowsSince(kinds)
    ensures kind == Malformed || kind == Sound ==> OverflowsSince(kinds + [kind]) == 0
    ensures kind == Malformed ==> MalformedSince(kinds + [kind]) == 1 + MalformedSince(kinds)
    ensures kind == Sound ==> MalformedSince(kinds + [kind]) == 0
    ensures kind == TooLong ==> MalformedSince(kinds + [kind]) == MalformedSince(kinds)
    ensures kind == Broken || kind == Dropped ==> MayGoOn(kinds + [kind])
  {
    var more := kinds + [kind];
    assert more[..|kinds|] == kinds;
    forall k | 0 <= k < |more|
      ensures MayGoOn(more[..k])
    {
      assert k < |kinds| ==> more[..k] == kinds[..k];
    }
  }
}
