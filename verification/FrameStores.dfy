/** The hub's two frame stores, each proved to perform the operations of `Frames` on the
    logs it stands for: deques in memory, and a directory of numbered files with a `.seq`
    file beside them (hub/src/store.rs). */
module FrameStores {
  import opened Conversation
  import opened Frames

  lemma {:induction false} ShownMore(frames: seq<Frame>, from: nat, to: nat)
    requires from <= to < |frames|
    ensures Shown(frames[from..to + 1]) == Shown(frames[from..to]) + [(frames[to].number, frames[to].envelope)]
  {
  }

  /** The frames past `after`, at most `limit` of them. */
  method Taken(log: Log, after: nat, limit: nat) returns (frames: seq<(nat, string)>)
    requires Contiguous(log)
    ensures frames == PageOf(log, after, limit).frames
  {
    frames := [];
    ghost var from := Behind(log, after);
    ghost var to := from;
    for i := 0 to |log.frames|
      invariant from <= to <= |log.frames| && |frames| == to - from <= limit
      invariant frames == Shown(log.frames[from..to])
      invariant to == i || (to == from && i <= from) || (to < i && to - from == limit)
    {
      if log.frames[i].number > after && |frames| < limit {
        ShownMore(log.frames, from, i);
        frames := frames + [(log.frames[i].number, log.frames[i].envelope)];
        to := i + 1;
      }
    }
  }

  /** Drops the old frames from the front, and then those in excess. */
  method Shed(all: seq<Frame>, olderThan: int, most: nat) returns (frames: seq<Frame>, dropped: nat)
    ensures dropped == Dropped(AgeThenSize, all, olderThan, most) && frames == all[dropped..]
  {
    frames, dropped := all, 0;
    while |frames| > 0 && frames[0].ms < olderThan
      invariant dropped <= |all| && frames == all[dropped..]
      invariant dropped + LeadingOld(frames, olderThan) == LeadingOld(all, olderThan)
    {
      frames := frames[1..];
      dropped := dropped + 1;
    }
    var excess;
    frames, excess := ShedExcess(frames, most);
    dropped := dropped + excess;
  }

  method ShedExcess(all: seq<Frame>, most: nat) returns (frames: seq<Frame>, dropped: nat)
    ensures dropped == LeadingExcess(all, most) && frames == all[dropped..]
  {
    var total := 0;
    for i := 0 to |all|
      invariant total + Size(all[i..]) == Size(all)
    {
      assert all[i..][1..] == all[i + 1..];
      total := total + |all[i].envelope|;
    }
    frames, dropped := all, 0;
    while total > most && |frames| > 0
      invariant dropped <= |all| && frames == all[dropped..] && total == Size(frames)
      invariant dropped + LeadingExcess(frames, most) == LeadingExcess(all, most)
      decreases |frames|
    {
      total := total - |frames[0].envelope|;
      frames := frames[1..];
      dropped := dropped + 1;
    }
  }

  class MemoryFrames {
    var channels: map<string, Log>

    constructor ()
      ensures channels == map[]
    {
      channels := map[];
    }

    method Append(channel: string, envelope: string, nowMs: int) returns (number: nat)
      requires AllContiguous(channels)
      modifies this
      ensures (channels, Assigned(number)) == Perform(AgeThenSize, old(channels), Operation.Append(channel, envelope, nowMs))
      ensures AllContiguous(channels)
    {
      var c := if channel in channels then channels[channel] else Log([], 1);
      number := c.next;
      c := c.(next := c.next + 1);
      c := c.(frames := c.frames + [Frame(number, envelope, nowMs)]);
      channels := channels[channel := c];
    }

    method Read(channel: string, after: nat, limit: nat) returns (page: Page)
      requires AllContiguous(channels)
      ensures (channels, Served(page)) == Perform(AgeThenSize, channels, Operation.Read(channel, after, limit))
    {
      if channel !in channels {
        return Page([], 0, 0);
      }
      var c := channels[channel];
      var frames := Taken(c, after, limit);
      page := Page(frames,
                   if |c.frames| > 0 then c.frames[0].number else c.next - 1 + (if c.next > 1 then 1 else 0),
                   c.next - 1);
    }

    method Prune(channel: string, olderThan: int, most: nat) returns (dropped: nat)
      requires AllContiguous(channels)
      modifies this
      ensures (channels, Dropping(dropped)) == Perform(AgeThenSize, old(channels), Operation.Prune(channel, olderThan, most))
      ensures AllContiguous(channels)
    {
      if channel !in channels {
        return 0;
      }
      var frames;
      frames, dropped := Shed(channels[channel].frames, olderThan, most);
      channels := channels[channel := Log(frames, channels[channel].next)];
    }
  }

  // --------------------------------------------------------------- on disk

  datatype File = File(bytes: string, mtime: int)

  /** A channel's directory: its numbered files, and what its `.seq` file says when it
      has one that parses. */
  datatype Dir = Dir(files: map<nat, File>, next: Option<nat>)

  const MISSING := Dir(map[], None)

  ghost predicate IsLeast(k: nat, keys: set<nat>) {
    k in keys && forall j :: j in keys ==> k <= j
  }

  lemma {:induction false} SomeLeast(keys: set<nat>) returns (k: nat)
    requires keys != {}
    ensures IsLeast(k, keys)
    decreases |keys|
  {
    k :| k in keys;
    var rest := keys - {k};
    assert forall j :: j in keys ==> j == k || j in rest;
    if rest != {} {
      var m := SomeLeast(rest);
      if m < k {
        k := m;
      }
    }
  }

  function Least(keys: set<nat>): (k: nat)
    requires keys != {}
    ensures IsLeast(k, keys)
  {
    assert exists k :: IsLeast(k, keys) by { var k := SomeLeast(keys); }
    var k :| k in keys && forall j :: j in keys ==> k <= j;
    k
  }

  /** A sorted map's keys in the order it yields them. */
  function Ascending(keys: set<nat>): seq<nat>
    decreases |keys|
  {
    if keys == {} then [] else
      var k := Least(keys);
      [k] + Ascending(keys - {k})
  }

  lemma {:induction false} AscendingRange(keys: set<nat>, lo: nat, hi: nat)
    requires lo <= hi && forall k :: k in keys <==> lo <= k < hi
    ensures |Ascending(keys)| == hi - lo && forall i :: 0 <= i < hi - lo ==> Ascending(keys)[i] == lo + i
    decreases hi - lo
  {
    if lo < hi {
      assert lo in keys;
      var rest := keys - {lo};
      assert Least(keys) == lo && Ascending(keys) == [lo] + Ascending(rest);
      AscendingRange(rest, lo + 1, hi);
    } else {
      assert keys == {};
    }
  }

  function Numbered(dir: Dir): (numbers: seq<nat>) {
    Ascending(dir.files.Keys)
  }

  /** The number a rebuilt or cached `.seq` gives the next frame. */
  function NextOf(dir: Dir): nat {
    if dir.next.Some? then dir.next.value
    else
      var numbers := Numbered(dir);
      if numbers == [] then 1 else numbers[|numbers| - 1] + 1
  }

  ghost predicate HoldsFrames(dir: Dir, log: Log) {
    Contiguous(log) &&
    (forall k :: k in dir.files <==> log.next - |log.frames| <= k < log.next) &&
    forall i :: 0 <= i < |log.frames| ==>
      dir.files[log.next - |log.frames| + i] == File(log.frames[i].envelope, log.frames[i].ms)
  }

  /** The directory stands for the log: its files, and its `.seq`, or no directory at all
      for a log that never had a frame. */
  ghost predicate StandsFor(dir: Dir, log: Log) {
    HoldsFrames(dir, log) &&
    (dir.next == Some(log.next) || (dir == MISSING && log == NEVER))
  }

  lemma {:induction false} NumbersOf(dir: Dir, log: Log)
    requires HoldsFrames(dir, log)
    ensures |Numbered(dir)| == |log.frames|
    ensures forall i :: 0 <= i < |log.frames| ==> Numbered(dir)[i] == log.next - |log.frames| + i
  {
    AscendingRange(dir.files.Keys, log.next - |log.frames|, log.next);
  }

  lemma {:induction false} FileOf(dir: Dir, log: Log, i: nat)
    requires HoldsFrames(dir, log) && i < |log.frames|
    ensures log.frames[i].number in dir.files
    ensures dir.files[log.frames[i].number] == File(log.frames[i].envelope, log.frames[i].ms)
  {
  }

  lemma {:induction false} NextIsRight(dir: Dir, log: Log)
    requires StandsFor(dir, log)
    ensures NextOf(dir) == log.next
  {
    NumbersOf(dir, log);
  }

  /** A lost `.seq` is rebuilt to the right number exactly when a frame is still there to
      show it, or none ever was. */
  lemma {:induction false} LostNumberIsRebuiltIff(dir: Dir, log: Log)
    requires HoldsFrames(dir, log) && dir.next == None
    ensures NextOf(dir) == log.next <==> log.frames != [] || log.next == 1
  {
    NumbersOf(dir, log);
  }

  /** A frame's file is written first, and this is all there is if the process dies then. */
  function HalfAppended(dir: Dir, envelope: string, mtime: int): Dir {
    dir.(files := dir.files[NextOf(dir) := File(envelope, mtime)])
  }

  function AppendedFiles(dir: Dir, envelope: string, mtime: int): Dir {
    HalfAppended(dir, envelope, mtime).(next := Some(NextOf(dir) + 1))
  }

  /** The frame is there to be read, and its number is given again unless it was the first
      the channel ever had. */
  lemma {:induction false} HalfAppendIff(dir: Dir, log: Log, envelope: string, mtime: int)
    requires StandsFor(dir, log)
    ensures var half := HalfAppended(dir, envelope, mtime);
      HoldsFrames(half, Appended(log, envelope, mtime)) && (NextOf(half) == log.next + 1 <==> dir == MISSING)
  {
    var half, more := HalfAppended(dir, envelope, mtime), Appended(log, envelope, mtime);
    NextIsRight(dir, log);
    assert HoldsFrames(half, more);
    NumbersOf(half, more);
  }

  /** Given again, the next frame takes its place, and the store is as if it never was. */
  lemma {:induction false} HalfAppendIsReplaced(dir: Dir, log: Log, lost: string, at: int, envelope: string, mtime: int)
    requires StandsFor(dir, log) && dir != MISSING
    ensures var half := HalfAppended(dir, lost, at);
      AppendedFiles(half, envelope, mtime) == AppendedFiles(dir, envelope, mtime) &&
      StandsFor(AppendedFiles(half, envelope, mtime), Appended(log, envelope, mtime))
  {
    NextIsRight(dir, log);
    var n := log.next;
    var half := HalfAppended(dir, lost, at);
    assert half.files[n := File(envelope, mtime)] == dir.files[n := File(envelope, mtime)];
  }

  /** A reader that polled between has the frame, and is not shown the one in its place. */
  lemma {:induction false} ReplacementIsMissed(log: Log, lost: string, at: int, envelope: string, mtime: int, limit: nat)
    requires Contiguous(log) && limit >= 1
    ensures PageOf(Appended(log, lost, at), log.next - 1, limit).frames == [(log.next, lost)]
    ensures PageOf(Appended(log, envelope, mtime), log.next, limit).frames == []
  {
    var n := |log.frames|;
    var one, two := Appended(log, lost, at), Appended(log, envelope, mtime);
    assert Behind(one, log.next - 1) == n && Behind(two, log.next) == n + 1;
    assert one.frames[n..n + 1] == [Frame(log.next, lost, at)] && two.frames[n + 1..n + 1] == [];
  }

  /** The files numbered past `after`, at most `limit` of them. */
  method Collect(dir: Dir, after: nat, limit: nat, ghost log: Log) returns (frames: seq<(nat, string)>)
    requires HoldsFrames(dir, log)
    ensures frames == PageOf(log, after, limit).frames
  {
    NumbersOf(dir, log);
    var numbers: seq<nat> := Numbered(dir);
    frames := [];
    ghost var from := Behind(log, after);
    ghost var to := from;
    var i := 0;
    assert forall j :: 0 <= j < |numbers| ==> numbers[j] == log.frames[j].number;
    while i < |numbers| && !(numbers[i] > after && |frames| >= limit)
      invariant i <= to <= |numbers| == |log.frames| && from <= to && (to == i || to == from)
      invariant |frames| == to - from <= limit
      invariant frames == Shown(log.frames[from..to])
    {
      if numbers[i] > after {
        ShownMore(log.frames, from, i);
        FileOf(dir, log, i);
        frames := frames + [(numbers[i], dir.files[numbers[i]].bytes)];
        to := i + 1;
      }
      i := i + 1;
    }
  }

  /** Each file with its size and time, oldest first, and the sizes' sum. */
  method Weigh(dir: Dir, ghost log: Log) returns (sized: seq<(nat, nat, int)>, total: nat)
    requires HoldsFrames(dir, log)
    ensures |sized| == |log.frames| && total == Size(log.frames)
    ensures forall i :: 0 <= i < |sized| ==>
      sized[i] == (log.next - |log.frames| + i, |log.frames[i].envelope|, log.frames[i].ms)
  {
    NumbersOf(dir, log);
    var numbers: seq<nat> := Numbered(dir);
    sized, total := [], 0;
    for i := 0 to |numbers|
      invariant |sized| == i && total + Size(log.frames[i..]) == Size(log.frames)
      invariant forall j :: 0 <= j < i ==> sized[j] == (numbers[j], |log.frames[j].envelope|, log.frames[j].ms)
    {
      FileOf(dir, log, i);
      var file := dir.files[numbers[i]];
      assert log.frames[i..][1..] == log.frames[i + 1..];
      sized := sized + [(numbers[i], |file.bytes|, file.mtime)];
      total := total + |file.bytes|;
    }
  }

  lemma {:induction false} RemoveOldest(dir: Dir, log: Log)
    requires HoldsFrames(dir, log) && log.frames != []
    ensures HoldsFrames(dir.(files := dir.files - {log.next - |log.frames|}), Log(log.frames[1..], log.next))
  {
  }

  /** Removes the oldest file while it is too old or the rest too big. */
  method Expire(from: Dir, olderThan: int, most: nat, ghost log: Log) returns (dir: Dir, dropped: nat)
    requires HoldsFrames(from, log)
    ensures dropped == Dropped(AgeOrSize, log.frames, olderThan, most)
    ensures HoldsFrames(dir, Retained(AgeOrSize, log, olderThan, most)) && dir.next == from.next
  {
    var sized, total := Weigh(from, log);
    dir, dropped := from, 0;
    ghost var left := log;
    while dropped < |sized| && (sized[dropped].2 < olderThan || total > most)
      invariant dropped <= |sized| && left == Log(log.frames[dropped..], log.next) && total == Size(left.frames)
      invariant HoldsFrames(dir, left) && dir.next == from.next
      invariant dropped + LeadingEither(left.frames, olderThan, most) == LeadingEither(log.frames, olderThan, most)
    {
      RemoveOldest(dir, left);
      left := Log(left.frames[1..], left.next);
      dir := dir.(files := dir.files - {sized[dropped].0});
      total := total - sized[dropped].1;
      dropped := dropped + 1;
    }
  }

  class FsFrames {
    var dirs: map<string, Dir>
    /** What the directories stand for. */
    ghost var logs: map<string, Log>

    ghost predicate Valid()
      reads this
    {
      dirs.Keys == logs.Keys && AllContiguous(logs) && forall c :: c in dirs ==> StandsFor(dirs[c], logs[c])
    }

    constructor ()
      ensures Valid() && logs == map[]
    {
      dirs, logs := map[], map[];
    }

    function DirOf(channel: string): (dir: Dir)
      requires Valid()
      reads this
      ensures StandsFor(dir, LogOf(logs, channel))
    {
      if channel in dirs then dirs[channel] else MISSING
    }

    /** The cached number, or one past the last file. */
    method NextSeq(channel: string) returns (n: nat)
      requires Valid()
      ensures n == LogOf(logs, channel).next
    {
      NextIsRight(DirOf(channel), LogOf(logs, channel));
      n := NextOf(DirOf(channel));
    }

    method Append(channel: string, envelope: string, mtime: int) returns (number: nat)
      requires Valid()
      modifies this
      ensures Valid()
      ensures (logs, Assigned(number)) == Perform(AgeOrSize, old(logs), Operation.Append(channel, envelope, mtime))
    {
      number := NextSeq(channel);
      var dir := DirOf(channel);
      ghost var log := LogOf(logs, channel);
      dir := dir.(files := dir.files[number := File(envelope, mtime)]);
      dir := dir.(next := Some(number + 1));
      logs := logs[channel := Appended(log, envelope, mtime)];
      dirs := dirs[channel := dir];
      assert dir == AppendedFiles(old(DirOf(channel)), envelope, mtime);
      assert StandsFor(dir, Appended(log, envelope, mtime));
    }

    method Read(channel: string, after: nat, limit: nat) returns (page: Page)
      requires Valid()
      ensures (logs, Served(page)) == Perform(AgeOrSize, logs, Operation.Read(channel, after, limit))
    {
      var dir := DirOf(channel);
      ghost var log := LogOf(logs, channel);
      NumbersOf(dir, log);
      var numbers: seq<nat> := Numbered(dir);
      var next := NextSeq(channel);
      var latest := next - 1;
      var frames := Collect(dir, after, limit, log);
      page := Page(frames,
                   if |numbers| > 0 then numbers[0] else latest + (if latest > 0 then 1 else 0),
                   latest);
    }

    method Prune(channel: string, olderThan: int, most: nat) returns (dropped: nat)
      requires Valid()
      modifies this
      ensures Valid()
      ensures (logs, Dropping(dropped)) == Perform(AgeOrSize, old(logs), Operation.Prune(channel, olderThan, most))
    {
      if channel !in dirs {
        return 0;
      }
      ghost var log := logs[channel];
      var dir;
      dir, dropped := Expire(dirs[channel], olderThan, most, log);
      ghost var left := Retained(AgeOrSize, log, olderThan, most);
      assert StandsFor(dir, left);
      dirs := dirs[channel := dir];
      logs := logs[channel := left];
    }
  }
}
