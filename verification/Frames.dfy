/** The hub's per-channel log of frames: what one channel holds, what a page of it
    shows, and which frames retention drops (hub/src/store.rs). An envelope is text,
    one character a byte; times are milliseconds. */
module Frames {

  datatype Frame = Frame(number: nat, envelope: string, ms: int)

  /** One channel: what is retained, and the number the next frame takes. */
  datatype Log = Log(frames: seq<Frame>, next: nat)

  const NEVER := Log([], 1)

  datatype Page = Page(frames: seq<(nat, string)>, oldest: nat, latest: nat)

  /** What is retained is the whole of the range that ends at the last number assigned. */
  predicate Contiguous(log: Log) {
    |log.frames| < log.next &&
    forall i :: 0 <= i < |log.frames| ==> log.frames[i].number == log.next - |log.frames| + i
  }

  function Oldest(log: Log): nat
    requires Contiguous(log)
  {
    if log.frames == [] && log.next == 1 then 0 else log.next - |log.frames|
  }

  function Appended(log: Log, envelope: string, ms: int): Log {
    Log(log.frames + [Frame(log.next, envelope, ms)], log.next + 1)
  }

  function Shown(frames: seq<Frame>): (shown: seq<(nat, string)>)
    ensures |shown| == |frames|
    ensures forall i :: 0 <= i < |frames| ==> shown[i] == (frames[i].number, frames[i].envelope)
  {
    if frames == [] then [] else [(frames[0].number, frames[0].envelope)] + Shown(frames[1..])
  }

  /** How many of the retained frames are numbered `after` or less. */
  function Behind(log: Log, after: nat): (n: nat)
    requires Contiguous(log)
    ensures n <= |log.frames|
    ensures forall i :: 0 <= i < |log.frames| ==> (i < n <==> log.frames[i].number <= after)
  {
    var first := log.next - |log.frames|;
    if after < first then 0 else if after + 1 >= log.next then |log.frames| else after + 1 - first
  }

  function PageOf(log: Log, after: nat, limit: nat): Page
    requires Contiguous(log)
  {
    var from := Behind(log, after);
    var to := if |log.frames| - from <= limit then |log.frames| else from + limit;
    Page(Shown(log.frames[from..to]), Oldest(log), log.next - 1)
  }

  // --------------------------------------------------------------- retention

  function Size(frames: seq<Frame>): nat {
    if frames == [] then 0 else |frames[0].envelope| + Size(frames[1..])
  }

  function LeadingOld(frames: seq<Frame>, olderThan: int): (n: nat)
    ensures n <= |frames|
  {
    if frames == [] || frames[0].ms >= olderThan then 0 else 1 + LeadingOld(frames[1..], olderThan)
  }

  function LeadingExcess(frames: seq<Frame>, most: nat): (n: nat)
    ensures n <= |frames|
  {
    if Size(frames) <= most then 0 else 1 + LeadingExcess(frames[1..], most)
  }

  /** The two stores drop by differently shaped loops: in memory the old frames first and
      then the excess, on disk whatever is old or in excess until a frame is neither. */
  datatype Rule = AgeThenSize | AgeOrSize

  function LeadingEither(frames: seq<Frame>, olderThan: int, most: nat): (n: nat)
    ensures n <= |frames|
  {
    if frames == [] || (frames[0].ms >= olderThan && Size(frames) <= most) then 0
    else 1 + LeadingEither(frames[1..], olderThan, most)
  }

  function Dropped(rule: Rule, frames: seq<Frame>, olderThan: int, most: nat): (n: nat)
    ensures n <= |frames|
  {
    match rule
    case AgeThenSize =>
      var stale := LeadingOld(frames, olderThan);
      stale + LeadingExcess(frames[stale..], most)
    case AgeOrSize => LeadingEither(frames, olderThan, most)
  }

  function Retained(rule: Rule, log: Log, olderThan: int, most: nat): Log {
    Log(log.frames[Dropped(rule, log.frames, olderThan, most)..], log.next)
  }

  /** Times do not go back along the log. */
  predicate InOrder(frames: seq<Frame>) {
    forall i, j :: 0 <= i < j < |frames| ==> frames[i].ms <= frames[j].ms
  }

  /** Nothing past `k` is too old, and it all fits. */
  predicate Fits(frames: seq<Frame>, k: nat, olderThan: int, most: nat)
    requires k <= |frames|
  {
    Size(frames[k..]) <= most && forall i :: k <= i < |frames| ==> frames[i].ms >= olderThan
  }

  lemma {:induction false} SizeFalls(frames: seq<Frame>, j: nat, k: nat)
    requires j <= k <= |frames|
    ensures Size(frames[k..]) <= Size(frames[j..])
    decreases k - j
  {
    if j < k {
      assert frames[j..][1..] == frames[j + 1..];
      SizeFalls(frames, j + 1, k);
    }
  }

  lemma {:induction false} OldAreLeading(frames: seq<Frame>, olderThan: int)
    ensures var n := LeadingOld(frames, olderThan);
      (forall i :: 0 <= i < n ==> frames[i].ms < olderThan) && (n < |frames| ==> frames[n].ms >= olderThan)
  {
    if frames != [] && frames[0].ms < olderThan {
      OldAreLeading(frames[1..], olderThan);
      assert forall i :: 0 < i < |frames| ==> frames[i] == frames[1..][i - 1];
    }
  }

  lemma {:induction false} ExcessIsLeast(frames: seq<Frame>, most: nat)
    ensures var n := LeadingExcess(frames, most);
      Size(frames[n..]) <= most && (n > 0 ==> Size(frames[n - 1..]) > most)
  {
    assert frames[0..] == frames;
    if Size(frames) > most {
      ExcessIsLeast(frames[1..], most);
      var n := LeadingExcess(frames[1..], most);
      assert frames[1..][n..] == frames[n + 1..];
      if n > 0 {
        assert frames[1..][n - 1..] == frames[n..];
      }
    }
  }

  lemma {:induction false} EitherIsLeast(frames: seq<Frame>, olderThan: int, most: nat)
    ensures var n := LeadingEither(frames, olderThan, most);
      (n < |frames| ==> frames[n].ms >= olderThan && Size(frames[n..]) <= most) &&
      (n > 0 ==> frames[n - 1].ms < olderThan || Size(frames[n - 1..]) > most)
  {
    assert frames[0..] == frames;
    var n := LeadingEither(frames, olderThan, most);
    if n > 0 {
      EitherIsLeast(frames[1..], olderThan, most);
      OneFurther(frames, n);
      if n > 1 {
        OneFurther(frames, n - 1);
      }
    }
  }

  lemma {:induction false} OneFurther(frames: seq<Frame>, n: nat)
    requires 1 <= n <= |frames|
    ensures Size(frames[1..][n - 1..]) == Size(frames[n..]) && (n < |frames| ==> frames[1..][n - 1] == frames[n])
  {
    assert frames[1..][n - 1..] == frames[n..];
  }

  /** Nothing at `n` is in excess or too old, and something just before it is. */
  predicate StopsAt(frames: seq<Frame>, n: nat, olderThan: int, most: nat)
    requires n <= |frames|
  {
    Size(frames[n..]) <= most && (n < |frames| ==> frames[n].ms >= olderThan) &&
    (n > 0 ==> frames[n - 1].ms < olderThan || Size(frames[n - 1..]) > most)
  }

  lemma {:induction false} AgeThenSizeStops(frames: seq<Frame>, olderThan: int, most: nat)
    requires InOrder(frames)
    ensures StopsAt(frames, Dropped(AgeThenSize, frames, olderThan, most), olderThan, most)
  {
    var stale := LeadingOld(frames, olderThan);
    OldAreLeading(frames, olderThan);
    var rest := frames[stale..];
    ExcessIsLeast(rest, most);
    var n := stale + LeadingExcess(rest, most);
    assert rest[n - stale..] == frames[n..];
    if n > stale {
      assert rest[n - stale - 1..] == frames[n - 1..];
      assert n < |frames| ==> frames[stale].ms <= frames[n].ms;
    }
  }

  lemma {:induction false} AgeOrSizeStops(frames: seq<Frame>, olderThan: int, most: nat)
    ensures StopsAt(frames, Dropped(AgeOrSize, frames, olderThan, most), olderThan, most)
  {
    EitherIsLeast(frames, olderThan, most);
    assert frames[|frames|..] == [];
  }

  /** With times in order either loop keeps the most it may: the longest tail in which
      nothing is too old and which fits. */
  lemma {:induction false} RetentionKeepsTheMost(rule: Rule, frames: seq<Frame>, olderThan: int, most: nat)
    requires InOrder(frames)
    ensures var n := Dropped(rule, frames, olderThan, most);
      Fits(frames, n, olderThan, most) && forall j :: 0 <= j < n ==> !Fits(frames, j, olderThan, most)
  {
    match rule {
      case AgeThenSize => AgeThenSizeStops(frames, olderThan, most);
      case AgeOrSize => AgeOrSizeStops(frames, olderThan, most);
    }
    StopsIsMost(frames, Dropped(rule, frames, olderThan, most), olderThan, most);
  }

  lemma {:induction false} StopsIsMost(frames: seq<Frame>, n: nat, olderThan: int, most: nat)
    requires InOrder(frames) && n <= |frames| && StopsAt(frames, n, olderThan, most)
    ensures Fits(frames, n, olderThan, most) && forall j :: 0 <= j < n ==> !Fits(frames, j, olderThan, most)
  {
    forall i | n <= i < |frames|
      ensures frames[i].ms >= olderThan
    {
      assert n < i ==> frames[n].ms <= frames[i].ms;
    }
    forall j | 0 <= j < n
      ensures !Fits(frames, j, olderThan, most)
    {
      SizeFalls(frames, j, n - 1);
    }
  }

  predicate DropAlike(frames: seq<Frame>, olderThan: int, most: nat) {
    Dropped(AgeThenSize, frames, olderThan, most) == Dropped(AgeOrSize, frames, olderThan, most)
  }

  lemma {:induction false} OrderedDropAlike(frames: seq<Frame>, olderThan: int, most: nat)
    requires InOrder(frames)
    ensures DropAlike(frames, olderThan, most)
  {
    RetentionKeepsTheMost(AgeThenSize, frames, olderThan, most);
    RetentionKeepsTheMost(AgeOrSize, frames, olderThan, most);
  }

  /** Where the excess ends, when what follows a frame is exactly what fits. */
  lemma {:induction false} ExcessEndsAfter(frames: seq<Frame>, i: nat)
    requires i < |frames| && frames[i].envelope != ""
    ensures LeadingExcess(frames, Size(frames[i + 1..])) == i + 1
  {
    var most := Size(frames[i + 1..]);
    var n := LeadingExcess(frames, most);
    ExcessIsLeast(frames, most);
    assert frames[i..][1..] == frames[i + 1..];
    if n <= i {
      SizeFalls(frames, n, i);
    }
    if n > i + 1 {
      SizeFalls(frames, i + 1, n - 1);
    }
  }

  /** A frame older than the one before it is where the loops part: memory stops at it
      once the rest fits, disk goes on to drop it. */
  lemma {:induction false} DisorderParts(frames: seq<Frame>, i: nat)
    requires i + 1 < |frames| && frames[i].ms > frames[i + 1].ms && frames[i].envelope != ""
    ensures !DropAlike(frames, frames[i].ms, Size(frames[i + 1..]))
  {
    var olderThan, most := frames[i].ms, Size(frames[i + 1..]);
    var stale := LeadingOld(frames, olderThan);
    OldAreLeading(frames, olderThan);
    var rest := frames[stale..];
    assert rest[i - stale + 1..] == frames[i + 1..] && rest[i - stale] == frames[i];
    ExcessEndsAfter(rest, i - stale);
    EitherIsLeast(frames, olderThan, most);
  }

  lemma {:induction false} DisorderIsAdjacent(frames: seq<Frame>, i: nat, j: nat) returns (k: nat)
    requires i < j < |frames| && frames[i].ms > frames[j].ms
    ensures i <= k < j && frames[k].ms > frames[k + 1].ms
    decreases j - i
  {
    if frames[i].ms > frames[i + 1].ms {
      k := i;
    } else {
      k := DisorderIsAdjacent(frames, i + 1, j);
    }
  }

  /** The two loops drop the same frames, whatever the limits, exactly when times do not
      go back along the log. No envelope is empty: each is a signed object. */
  lemma {:induction false} DropAlikeIffInOrder(frames: seq<Frame>)
    requires forall i :: 0 <= i < |frames| ==> frames[i].envelope != ""
    ensures InOrder(frames) <==> forall olderThan: int, most: nat :: DropAlike(frames, olderThan, most)
  {
    if InOrder(frames) {
      forall olderThan: int, most: nat
        ensures DropAlike(frames, olderThan, most)
      {
        OrderedDropAlike(frames, olderThan, most);
      }
    } else {
      var i, j :| 0 <= i < j < |frames| && frames[i].ms > frames[j].ms;
      var k := DisorderIsAdjacent(frames, i, j);
      DisorderParts(frames, k);
    }
  }

  lemma {:induction false} RetentionKeepsRange(rule: Rule, log: Log, olderThan: int, most: nat)
    requires Contiguous(log)
    ensures Contiguous(Retained(rule, log, olderThan, most))
    ensures InOrder(log.frames) ==> InOrder(Retained(rule, log, olderThan, most).frames)
  {
  }

  // --------------------------------------------------------------- whole stores

  datatype Operation =
    | Append(channel: string, envelope: string, ms: int)
    | Read(channel: string, after: nat, limit: nat)
    | Prune(channel: string, olderThan: int, most: nat)

  datatype Answer = Assigned(number: nat) | Served(page: Page) | Dropping(count: nat)

  function LogOf(logs: map<string, Log>, channel: string): Log {
    if channel in logs then logs[channel] else NEVER
  }

  ghost predicate AllContiguous(logs: map<string, Log>) {
    forall c :: c in logs ==> Contiguous(logs[c])
  }

  function Perform(rule: Rule, logs: map<string, Log>, op: Operation): (map<string, Log>, Answer)
    requires AllContiguous(logs)
  {
    var log := LogOf(logs, op.channel);
    match op
    case Append(channel, envelope, ms) => (logs[channel := Appended(log, envelope, ms)], Assigned(log.next))
    case Read(_, after, limit) => (logs, Served(PageOf(log, after, limit)))
    case Prune(channel, olderThan, most) =>
      if channel in logs
      then (logs[channel := Retained(rule, log, olderThan, most)],
            Dropping(Dropped(rule, log.frames, olderThan, most)))
      else (logs, Dropping(0))
  }

  lemma {:induction false} PerformKeepsRanges(rule: Rule, logs: map<string, Log>, op: Operation)
    requires AllContiguous(logs)
    ensures AllContiguous(Perform(rule, logs, op).0)
  {
    if op.Prune? {
      RetentionKeepsRange(rule, LogOf(logs, op.channel), op.olderThan, op.most);
    }
  }

  /** The logs and answers after a run of operations. */
  function Run(rule: Rule, ops: seq<Operation>): (r: (map<string, Log>, seq<Answer>))
    ensures AllContiguous(r.0)
  {
    if ops == [] then (map[], [])
    else
      var n := |ops| - 1;
      var (logs, answers) := Run(rule, ops[..n]);
      PerformKeepsRanges(rule, logs, ops[n]);
      var (after, answer) := Perform(rule, logs, ops[n]);
      (after, answers + [answer])
  }

  /** On each channel, times of appends do not go back. */
  predicate Timely(ops: seq<Operation>) {
    forall i, j :: 0 <= i < j < |ops| && ops[i].Append? && ops[j].Append? && ops[i].channel == ops[j].channel ==>
      ops[i].ms <= ops[j].ms
  }

  predicate StampedBy(ops: seq<Operation>, channel: string, ms: int) {
    exists j :: 0 <= j < |ops| && ops[j].Append? && ops[j].channel == channel && ops[j].ms == ms
  }

  /** Every retained time is that of an append to its channel. */
  ghost predicate Stamped(logs: map<string, Log>, ops: seq<Operation>) {
    forall c, i :: c in logs && 0 <= i < |logs[c].frames| ==> StampedBy(ops, c, logs[c].frames[i].ms)
  }

  ghost predicate AllInOrder(logs: map<string, Log>) {
    forall c :: c in logs ==> InOrder(logs[c].frames)
  }

  lemma {:induction false} StampedStep(rule: Rule, logs: map<string, Log>, ops: seq<Operation>, op: Operation)
    requires AllContiguous(logs) && Stamped(logs, ops)
    ensures Stamped(Perform(rule, logs, op).0, ops + [op])
  {
    var after, all := Perform(rule, logs, op).0, ops + [op];
    forall c, i | c in after && 0 <= i < |after[c].frames|
      ensures StampedBy(all, c, after[c].frames[i].ms)
    {
      var log := LogOf(logs, c);
      if op.Append? && c == op.channel && i == |log.frames| {
        assert all[|ops|] == op;
      } else {
        var at := if op.Prune? && c == op.channel then i + Dropped(rule, log.frames, op.olderThan, op.most) else i;
        assert after[c].frames[i] == logs[c].frames[at];
        assert StampedBy(ops, c, logs[c].frames[at].ms);
        var j :| 0 <= j < |ops| && ops[j].Append? && ops[j].channel == c && ops[j].ms == logs[c].frames[at].ms;
        assert all[j] == ops[j];
      }
    }
  }

  lemma {:induction false} OrderStep(rule: Rule, logs: map<string, Log>, ops: seq<Operation>, op: Operation)
    requires AllContiguous(logs) && AllInOrder(logs) && Stamped(logs, ops) && Timely(ops + [op])
    ensures AllInOrder(Perform(rule, logs, op).0)
  {
    var log := LogOf(logs, op.channel);
    if op.Prune? {
      RetentionKeepsRange(rule, log, op.olderThan, op.most);
    } else if op.Append? {
      forall i | 0 <= i < |log.frames|
        ensures log.frames[i].ms <= op.ms
      {
        assert StampedBy(ops, op.channel, log.frames[i].ms);
        var j :| 0 <= j < |ops| && ops[j].Append? && ops[j].channel == op.channel && ops[j].ms == log.frames[i].ms;
        var all := ops + [op];
        assert all[j] == ops[j] && all[|ops|] == op;
      }
    }
  }

  lemma {:induction false} RunInOrder(rule: Rule, ops: seq<Operation>)
    requires Timely(ops)
    ensures AllInOrder(Run(rule, ops).0) && Stamped(Run(rule, ops).0, ops)
  {
    if ops != [] {
      var n := |ops| - 1;
      RunInOrder(rule, ops[..n]);
      assert ops[..n] + [ops[n]] == ops;
      StampedStep(rule, Run(rule, ops[..n]).0, ops[..n], ops[n]);
      OrderStep(rule, Run(rule, ops[..n]).0, ops[..n], ops[n]);
    }
  }

  /** Whatever is asked of them, the two stores assign the same numbers, drop the same
      frames and show the same pages. */
  lemma {:induction false} StoresAgree(ops: seq<Operation>)
    requires Timely(ops)
    ensures Run(AgeThenSize, ops) == Run(AgeOrSize, ops)
  {
    if ops != [] {
      var n := |ops| - 1;
      StoresAgree(ops[..n]);
      RunInOrder(AgeThenSize, ops[..n]);
      if ops[n].Prune? {
        OrderedDropAlike(LogOf(Run(AgeThenSize, ops[..n]).0, ops[n].channel).frames, ops[n].olderThan, ops[n].most);
      }
    }
  }

  // --------------------------------------------------------------- numbers

  /** An operation touches its own channel only. */
  lemma {:induction false} OthersUntouched(rule: Rule, logs: map<string, Log>, op: Operation, c: string)
    requires AllContiguous(logs) && c != op.channel
    ensures LogOf(Perform(rule, logs, op).0, c) == LogOf(logs, c)
  {
  }

  /** The number an append answers with is the one its frame is shown under. */
  lemma {:induction false} AppendedIsShown(rule: Rule, logs: map<string, Log>, channel: string, envelope: string, ms: int, limit: nat)
    requires AllContiguous(logs) && limit >= 1
    ensures var (after, answer) := Perform(rule, logs, Append(channel, envelope, ms));
      answer.Assigned? && answer.number >= 1 && AllContiguous(after) &&
      Perform(rule, after, Read(channel, answer.number - 1, limit)).1.page.frames == [(answer.number, envelope)]
  {
    var log := LogOf(logs, channel);
    var more, n := Appended(log, envelope, ms), |log.frames|;
    PerformKeepsRanges(rule, logs, Append(channel, envelope, ms));
    assert Behind(more, log.next - 1) == n;
    assert more.frames[n..n + 1] == [Frame(log.next, envelope, ms)];
  }

  /** The log has had a frame of this number, and if it is retained it is this one. */
  predicate Holds(log: Log, number: nat, envelope: string)
    requires Contiguous(log)
  {
    number < log.next &&
    (log.next - |log.frames| <= number ==> log.frames[number - (log.next - |log.frames|)].envelope == envelope)
  }

  lemma {:induction false} PerformHolds(rule: Rule, logs: map<string, Log>, op: Operation, c: string, number: nat, envelope: string)
    requires AllContiguous(logs) && Holds(LogOf(logs, c), number, envelope)
    ensures AllContiguous(Perform(rule, logs, op).0) && Holds(LogOf(Perform(rule, logs, op).0, c), number, envelope)
  {
    PerformKeepsRanges(rule, logs, op);
    if c != op.channel {
      OthersUntouched(rule, logs, op, c);
    }
  }

  /** Over any run of operations the number an append was answered with stays its frame's:
      as long as it is retained, that is what is found under it. */
  lemma {:induction false} NumbersStay(rule: Rule, ops: seq<Operation>, i: nat)
    requires i < |ops| && ops[i].Append?
    ensures |Run(rule, ops).1| == |ops| && Run(rule, ops).1[i].Assigned?
    ensures Holds(LogOf(Run(rule, ops).0, ops[i].channel), Run(rule, ops).1[i].number, ops[i].envelope)
    decreases |ops|
  {
    var n := |ops| - 1;
    var (logs, answers) := Run(rule, ops[..n]);
    AnswersEach(rule, ops[..n]);
    if i < n {
      NumbersStay(rule, ops[..n], i);
      PerformHolds(rule, logs, ops[n], ops[i].channel, answers[i].number, ops[i].envelope);
    }
  }

  lemma {:induction false} AnswersEach(rule: Rule, ops: seq<Operation>)
    ensures |Run(rule, ops).1| == |ops|
  {
    if ops != [] {
      AnswersEach(rule, ops[..|ops| - 1]);
    }
  }
}
