/** A member reading a channel by its cursor (hub/src/routes.rs), over every interleaving
    of appends, retention and polls. */
module Readers {
  import opened Conversation
  import opened Frames

  datatype Response =
    | Gone(oldest: nat, latest: nat)
    | Ok(frames: seq<(nat, string)>, next: Option<nat>, oldest: nat, latest: nat)

  function Limit(asked: Option<nat>): (limit: nat)
    ensures 1 <= limit <= 1000
    ensures asked.None? ==> limit == 200
    ensures asked.Some? && 1 <= asked.value <= 1000 ==> limit == asked.value
  {
    var limit := if asked.Some? then asked.value else 200;
    if limit < 1 then 1 else if limit > 1000 then 1000 else limit
  }

  function GetFrames(log: Log, after: nat, asked: Option<nat>): Response
    requires Contiguous(log)
  {
    var limit := Limit(asked);
    var page := PageOf(log, after, limit);
    if page.oldest > 0 && after + 1 < page.oldest then Gone(page.oldest, page.latest)
    else
      var next := if |page.frames| == limit then Some(page.frames[limit - 1].0) else None;
      Ok(page.frames, next, page.oldest, page.latest)
  }

  /** What happens on one channel. */
  datatype Event =
    | Publish(envelope: string, ms: int)
    | Retain(rule: Rule, olderThan: int, most: nat)
    | Poll(asked: Option<nat>)

  /** The channel's log, every envelope ever published on it, and a reader: where it
      last began, what it has been given since, and how often it was told it lost some. */
  datatype Scene = Scene(log: Log, published: seq<string>, start: nat, received: seq<(nat, string)>, told: nat) {
    function Cursor(): nat { start + |received| }
  }

  /** A reader told that it is behind begins again at the oldest frame there is. */
  function Happen(s: Scene, e: Event): Scene
    requires Contiguous(s.log)
  {
    match e
    case Publish(envelope, ms) => s.(log := Appended(s.log, envelope, ms), published := s.published + [envelope])
    case Retain(rule, olderThan, most) => s.(log := Retained(rule, s.log, olderThan, most))
    case Poll(asked) =>
      match GetFrames(s.log, s.Cursor(), asked)
      case Gone(oldest, _) => s.(start := oldest - 1, received := [], told := s.told + 1)
      case Ok(frames, _, _, _) => s.(received := s.received + frames)
  }

  /** The log is the tail of what was published, and the reader has an unbroken run of it. */
  predicate Unbroken(s: Scene) {
    Contiguous(s.log) && s.log.next == |s.published| + 1 &&
    (forall i :: 0 <= i < |s.log.frames| ==> s.log.frames[i].envelope == s.published[s.log.frames[i].number - 1]) &&
    (s.received != [] ==> s.Cursor() <= |s.published|) &&
    forall i :: 0 <= i < |s.received| ==> s.received[i] == (s.start + 1 + i, s.published[s.start + i])
  }

  /** A page holds the frames right after the cursor. */
  lemma {:induction false} PageFollowsCursor(s: Scene, asked: Option<nat>)
    requires Unbroken(s) && GetFrames(s.log, s.Cursor(), asked).Ok?
    ensures var r := GetFrames(s.log, s.Cursor(), asked);
      (r.frames != [] ==> s.Cursor() + |r.frames| <= |s.published|) &&
      forall i :: 0 <= i < |r.frames| ==> r.frames[i] == (s.Cursor() + 1 + i, s.published[s.Cursor() + i])
  {
  }

  lemma {:induction false} PublishUnbroken(s: Scene, envelope: string, ms: int)
    requires Unbroken(s)
    ensures Unbroken(Happen(s, Publish(envelope, ms)))
  {
  }

  lemma {:induction false} MoreUnbroken(s: Scene, frames: seq<(nat, string)>)
    requires Unbroken(s) && (frames != [] ==> s.Cursor() + |frames| <= |s.published|)
    requires forall i :: 0 <= i < |frames| ==> frames[i] == (s.Cursor() + 1 + i, s.published[s.Cursor() + i])
    ensures Unbroken(s.(received := s.received + frames))
  {
    var more := s.received + frames;
    forall i | 0 <= i < |more|
      ensures s.start + i < |s.published| && more[i] == (s.start + 1 + i, s.published[s.start + i])
    {
      if i >= |s.received| {
        assert more[i] == frames[i - |s.received|];
      }
    }
  }

  lemma {:induction false} PollUnbroken(s: Scene, asked: Option<nat>)
    requires Unbroken(s)
    ensures Unbroken(Happen(s, Poll(asked)))
  {
    if GetFrames(s.log, s.Cursor(), asked).Ok? {
      PageFollowsCursor(s, asked);
      MoreUnbroken(s, GetFrames(s.log, s.Cursor(), asked).frames);
    }
  }

  function Opened(at: nat): Scene { Scene(NEVER, [], at, [], 0) }

  function Ran(at: nat, events: seq<Event>): (s: Scene)
    ensures Unbroken(s)
  {
    if events == [] then Opened(at)
    else
      var before := Ran(at, events[..|events| - 1]);
      HappenUnbroken(before, events[|events| - 1]);
      Happen(before, events[|events| - 1])
  }

  lemma {:induction false} RetainUnbroken(s: Scene, rule: Rule, olderThan: int, most: nat)
    requires Unbroken(s)
    ensures Unbroken(Happen(s, Retain(rule, olderThan, most)))
  {
    RetentionKeepsRange(rule, s.log, olderThan, most);
    var n := Dropped(rule, s.log.frames, olderThan, most);
    assert forall i :: 0 <= i < |s.log.frames| - n ==> s.log.frames[n..][i] == s.log.frames[n + i];
  }

  lemma {:induction false} HappenUnbroken(s: Scene, e: Event)
    requires Unbroken(s)
    ensures Unbroken(Happen(s, e))
  {
    match e {
      case Publish(envelope, ms) => PublishUnbroken(s, envelope, ms);
      case Retain(rule, olderThan, most) => RetainUnbroken(s, rule, olderThan, most);
      case Poll(asked) => PollUnbroken(s, asked);
    }
  }

  /** Frames the reader has not been given are no longer there for it. */
  predicate Lost(s: Scene) {
    s.Cursor() < |s.published| && s.Cursor() + 1 < s.log.next - |s.log.frames|
  }

  /** From wherever a reader begins, after any interleaving: what is retained is the tail
      of what was published; what the reader has been given since it began, or was last
      told, is published[start..cursor], numbered consecutively; the next poll says Gone
      exactly when a frame it still wants was dropped; otherwise the poll continues the
      run, and leaves the reader wanting nothing unless its page was full. */
  lemma {:induction false} NoSilentGap(at: nat, events: seq<Event>, asked: Option<nat>)
    ensures var s := Ran(at, events); TailIsKept(s) && RunIsReceived(s) && PollIsHonest(s, asked)
  {
    var s := Ran(at, events);
    KeepsTail(s);
    GoneIsLost(s, asked);
    FullOrCaughtUp(s, asked);
  }

  /** What is retained is the tail of what was published, numbered as it was assigned. */
  predicate TailIsKept(s: Scene) {
    |s.log.frames| <= |s.published| &&
    forall i :: 0 <= i < |s.log.frames| ==>
      var first := |s.published| - |s.log.frames|;
      s.log.frames[i].number == first + i + 1 && s.log.frames[i].envelope == s.published[first + i]
  }

  /** What the reader was given since it began is published[start..cursor]. */
  predicate RunIsReceived(s: Scene) {
    forall i :: 0 <= i < |s.received| ==>
      s.start + i < |s.published| && s.received[i] == (s.start + 1 + i, s.published[s.start + i])
  }

  /** What a poll says: Gone exactly when frames were lost, and then what is left; and
      otherwise that there may be more exactly when the page is full. */
  predicate PollIsHonest(s: Scene, asked: Option<nat>)
    requires Contiguous(s.log)
  {
    var r := GetFrames(s.log, s.Cursor(), asked);
    (r.Gone? <==> Lost(s)) &&
    (r.Gone? ==> r.oldest == |s.published| - |s.log.frames| + 1 && r.latest == |s.published|) &&
    (r.Ok? ==> PageIsHonest(s, r, asked))
  }

  predicate PageIsHonest(s: Scene, r: Response, asked: Option<nat>)
    requires r.Ok?
  {
    (r.next.None? <==> |r.frames| < Limit(asked)) &&
    (r.next.None? ==> s.Cursor() + |r.frames| >= |s.published|) &&
    (r.next.Some? ==> r.next == Some(s.Cursor() + |r.frames|))
  }

  lemma {:induction false} KeepsTail(s: Scene)
    requires Unbroken(s)
    ensures TailIsKept(s) && RunIsReceived(s)
  {
  }

  lemma {:induction false} GoneIsLost(s: Scene, asked: Option<nat>)
    requires Unbroken(s)
    ensures var r := GetFrames(s.log, s.Cursor(), asked);
      (r.Gone? <==> Lost(s)) &&
      (r.Gone? ==> r.oldest == |s.published| - |s.log.frames| + 1 && r.latest == |s.published|)
  {
  }

  lemma {:induction false} FullOrCaughtUp(s: Scene, asked: Option<nat>)
    requires Unbroken(s)
    ensures var r := GetFrames(s.log, s.Cursor(), asked); r.Ok? ==> PageIsHonest(s, r, asked)
  {
    if GetFrames(s.log, s.Cursor(), asked).Ok? {
      PageFollowsCursor(s, asked);
    }
  }

  /** A reader is told only when something was lost to it. */
  lemma {:induction false} ToldOnlyOfLoss(at: nat, events: seq<Event>, e: Event)
    ensures var s := Ran(at, events);
      var after := Ran(at, events + [e]);
      (after.told > s.told <==> e.Poll? && Lost(s)) &&
      (after.told == s.told ==> after.start == s.start && s.received <= after.received)
  {
    assert (events + [e])[..|events|] == events;
    if e.Poll? {
      NoSilentGap(at, events, e.asked);
    }
  }
}
