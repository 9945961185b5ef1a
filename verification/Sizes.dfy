/** How big a conversation is, in estimated tokens, and how big it may be
    (agent/src/compact.rs). The measured rate is a real between 1 and 16. */
module Sizes {
  import opened Conversation

  type Rate = r: real | 1.0 <= r <= 16.0 witness 4.0

  /** What the first so many messages came to, as counted upstream. */
  datatype Measured = Measured(messages: nat, tokens: nat, rate: Rate)

  datatype Conv = Conv(system: string, messages: seq<Message>, measured: Option<Measured>)

  datatype Limits = Limits(keepRaw: nat, protectOutput: nat, minPruneSaving: nat)

  const KEEP_RAW := 20_000
  const PROTECT_OUTPUT := 40_000
  const MIN_PRUNE_SAVING := 20_000
  const MIN_PRUNE_RESULT := 50
  const SUMMARY_MAX_TOKENS := 4096
  const DEFAULT_RATE: Rate := 4.0

  function Min(a: nat, b: nat): nat { if a <= b then a else b }
  function Max(a: nat, b: nat): nat { if a <= b then b else a }
  function Minus(a: nat, b: nat): nat { if a <= b then 0 else a - b }

  /** Where a request gets too near the window to be made as it is. */
  function Threshold(window: nat): (t: nat)
    ensures window / 2 <= t <= window
    ensures var reserve := Max(window * 15 / 100, 16_384);
      t == if 2 * reserve <= window then window - reserve else window / 2
  {
    Max(Minus(window, Max(window * 15 / 100, 16_384)), window / 2)
  }

  function LimitsFor(window: Option<nat>): Limits {
    if window.None? then Limits(KEEP_RAW, PROTECT_OUTPUT, MIN_PRUNE_SAVING)
    else
      var t := Threshold(window.value);
      Limits(Min(KEEP_RAW, t * 2 / 5), Min(PROTECT_OUTPUT, t * 4 / 5), Min(MIN_PRUNE_SAVING, t * 2 / 5))
  }

  function BlockBytes(b: Block): nat {
    match b
    case Text(t) => |t|
    case ToolUse(_, name, input) => |name| + |input.printed|
    case ToolResult(_, content, _) => |content|
    case Opaque(v) => |v|
  }

  function BlocksBytes(blocks: seq<Block>): nat {
    if blocks == [] then 0 else BlockBytes(blocks[0]) + BlocksBytes(blocks[1..])
  }

  /** The size of a message, eight bytes of which stand for its framing. */
  function MessageBytes(m: Message): nat {
    8 + BlocksBytes(m.blocks)
  }

  function MessagesBytes(messages: seq<Message>): nat {
    if messages == [] then 0 else MessageBytes(messages[0]) + MessagesBytes(messages[1..])
  }

  function RequestBytes(conv: Conv, overhead: nat): nat {
    overhead + |conv.system| + MessagesBytes(conv.messages)
  }

  function RateOf(conv: Conv): Rate {
    if conv.measured.Some? then conv.measured.value.rate else DEFAULT_RATE
  }

  /** The ceiling of `bytes / rate`. */
  function Tokens(bytes: nat, rate: Rate): (n: nat)
    ensures bytes as real <= n as real * rate < bytes as real + rate
    ensures n <= bytes
  {
    var q := bytes as real / rate;
    var n := if q.Floor as real == q then q.Floor else q.Floor + 1;
    CeilingBounds(bytes as real, q, n as real, rate);
    n
  }

  lemma Scaled(a: real, b: real, rate: real)
    requires 0.0 < rate
    ensures a < b ==> a * rate < b * rate
    ensures a <= b ==> a * rate <= b * rate
  {
    var d := b - a;
    assert b * rate == a * rate + d * rate;
  }

  lemma NextMultiple(q: real, rate: real)
    ensures (q + 1.0) * rate == q * rate + rate
  {
  }

  lemma CeilingBounds(bytes: real, q: real, x: real, rate: real)
    requires 1.0 <= rate && 0.0 <= bytes && q * rate == bytes && q <= x < q + 1.0
    ensures 0.0 <= q <= bytes
    ensures bytes <= x * rate && x * rate < bytes + rate
  {
    var above := q + 1.0;
    var scaled := above * rate;
    Scaled(q, x, rate);
    Scaled(x, above, rate);
    assert x * rate < scaled;
    assert scaled == bytes + rate by {
      NextMultiple(q, rate);
    }
    if q < 0.0 {
      Scaled(q, 0.0, rate);
    }
    Scaled(1.0, rate, if q <= 0.0 then 1.0 else q);
  }

  lemma CeilingOrder(a: real, b: real, x: real, y: real, rate: real)
    requires 0.0 < rate && a <= b && x * rate < a + rate && b <= y * rate
    ensures x < y + 1.0
  {
    var above := y + 1.0;
    var scaled := above * rate;
    assert scaled == y * rate + rate by {
      NextMultiple(y, rate);
    }
    Scaled(above, x, rate);
  }

  lemma TokensMonotone(a: nat, b: nat, rate: Rate)
    requires a <= b
    ensures Tokens(a, rate) <= Tokens(b, rate)
  {
    CeilingOrder(a as real, b as real, Tokens(a, rate) as real, Tokens(b, rate) as real, rate);
  }

  /** The tokens a request is expected to hold. */
  function Estimate(conv: Conv, overhead: nat): nat {
    if conv.measured.Some? && conv.measured.value.messages <= |conv.messages| then
      var m := conv.measured.value;
      m.tokens + Tokens(MessagesBytes(conv.messages[m.messages..]), m.rate)
    else Tokens(RequestBytes(conv, overhead), RateOf(conv))
  }

  function MessagesTokens(conv: Conv): nat {
    Tokens(MessagesBytes(conv.messages), RateOf(conv))
  }

  function Clamp(r: real): Rate {
    if r < 1.0 then 1.0 else if r > 16.0 then 16.0 else r
  }

  /** A conversation as the last answer measured it. */
  function Measure(conv: Conv, sent: nat, prompt: nat, answer: nat): Conv {
    var rate := if prompt > 0 then Clamp(sent as real / prompt as real) else RateOf(conv);
    conv.(measured := Some(Measured(|conv.messages|, prompt + answer, rate)))
  }

  /** Rewritten messages are taken to hold what they are estimated at. */
  function Remeasure(conv: Conv, overhead: nat): Conv {
    conv.(measured := Some(
      Measured(|conv.messages|, Tokens(RequestBytes(conv, overhead), RateOf(conv)), RateOf(conv))))
  }

  // --------------------------------------------------------------- what they mean

  /** The largest whole number within both a cap and a share of the threshold. */
  predicate LargestWithin(n: nat, cap: nat, fifths: nat, t: nat) {
    n <= cap && 5 * n <= fifths * t && (n == cap || 5 * (n + 1) > fifths * t)
  }

  /** For a window, what is kept as it is and what a pruning must save are two fifths of the
      threshold at most, and what is protected from it four. */
  lemma {:induction false} LimitsScale(window: nat)
    ensures var limits, t := LimitsFor(Some(window)), Threshold(window);
      LargestWithin(limits.keepRaw, KEEP_RAW, 2, t) && LargestWithin(limits.protectOutput, PROTECT_OUTPUT, 4, t) &&
      LargestWithin(limits.minPruneSaving, MIN_PRUNE_SAVING, 2, t)
  {
  }

  lemma {:induction false} BytesConcat(a: seq<Message>, b: seq<Message>)
    ensures MessagesBytes(a + b) == MessagesBytes(a) + MessagesBytes(b)
  {
    if a == [] {
      assert a + b == b;
    } else {
      BytesConcat(a[1..], b);
      assert (a + b)[1..] == a[1..] + b;
    }
  }

  /** A measured conversation is expected to hold what was counted, and what was added since
      at the rate of that count. */
  lemma {:induction false} MeasuredThenAdded(conv: Conv, sent: nat, prompt: nat, answer: nat, more: seq<Message>, overhead: nat)
    ensures var measured := Measure(conv, sent, prompt, answer);
      Estimate(measured.(messages := conv.messages + more), overhead) ==
        prompt + answer + Tokens(MessagesBytes(more), RateOf(measured))
  {
    assert (conv.messages + more)[|conv.messages|..] == more;
  }

  /** At that rate the bytes that were sent come to the prompt's own count, if there were
      between one and sixteen to a token. */
  lemma {:induction false} RateIsTheRequest(conv: Conv, sent: nat, prompt: nat, answer: nat)
    requires 1 <= prompt <= sent <= 16 * prompt
    ensures Tokens(sent, RateOf(Measure(conv, sent, prompt, answer))) == prompt
  {
    var rate := sent as real / prompt as real;
    QuotientWithin(sent as real, prompt as real, rate);
    assert RateOf(Measure(conv, sent, prompt, answer)) == rate;
    WholeCeiling(sent, prompt, rate);
  }

  lemma {:induction false} QuotientWithin(a: real, b: real, q: real)
    requires 0.0 < b && q * b == a && b <= a <= 16.0 * b
    ensures 1.0 <= q <= 16.0
  {
    if q < 1.0 {
      Scaled(q, 1.0, b);
    }
    if q > 16.0 {
      Scaled(16.0, q, b);
    }
  }

  lemma {:induction false} WholeCeiling(bytes: nat, n: nat, rate: Rate)
    requires bytes as real == n as real * rate
    ensures Tokens(bytes, rate) == n
  {
    var m := Tokens(bytes, rate);
    BetweenMultiples(n as real, m as real, rate, bytes as real, m as real * rate);
  }

  lemma {:induction false} BetweenMultiples(x: real, y: real, rate: real, px: real, py: real)
    requires 0.0 < rate && px == x * rate && py == y * rate && px <= py < px + rate
    ensures x <= y < x + 1.0
  {
    var above := x + 1.0;
    assert above * rate == px + rate by {
      NextMultiple(x, rate);
    }
    Scaled(y, x, rate);
    Scaled(above, y, rate);
  }

  /** Rewritten, it is expected to hold what its bytes come to at the rate it had. */
  lemma {:induction false} RemeasuredIsEstimate(conv: Conv, overhead: nat)
    ensures Estimate(Remeasure(conv, overhead), overhead) == Tokens(RequestBytes(conv, overhead), RateOf(conv))
    ensures RateOf(Remeasure(conv, overhead)) == RateOf(conv)
  {
    assert conv.messages[|conv.messages|..] == [];
    TokensOfNone(RateOf(conv));
  }

  lemma {:induction false} TokensOfNone(rate: Rate)
    ensures Tokens(0, rate) == 0
  {
  }
}
