/** The hub as a reader of its own log (hub/src/replica.rs): it drains every channel it is
    a member of from a cursor, and a handoff of keys sends cursors back to the start. What
    an envelope says once verified and opened is a parameter; keys are known by the epochs
    they open. */
module Replica {
  import opened Conversation
  import opened Frames

  const PAGE := 200
  const MESH_CHANNEL := "@mesh"

  datatype Handoff = Handoff(name: string, epochs: set<string>)

  datatype Payload =
    | KeyHandoff(channels: seq<Handoff>)
    | ChangesRequest
    | Rollup(channel: string, node: string, number: nat, valid: bool, body: string)
    | Changes(channel: string)
    | Unknown

  /** A frame whose signature holds. A direct one can be opened or not; one on a channel
      opens under its epoch's key. */
  datatype Envelope =
    | Direct(sender: string, recipient: string, inside: Option<Payload>)
    | OnChannel(sender: string, epoch: string, payload: Payload)

  // --------------------------------------------------------------- rollups

  datatype Row = Row(number: nat, body: string)

  const I64_MAX: nat := 0x7fff_ffff_ffff_ffff

  /** What is kept when a rollup arrives: only a strictly newer one takes the place. */
  function Keep(row: Option<Row>, arrival: Row): Option<Row> {
    if arrival.number > I64_MAX then row
    else if row.None? || arrival.number > row.value.number then Some(arrival)
    else row
  }

  function KeepAll(row: Option<Row>, arrivals: seq<Row>): Option<Row> {
    if arrivals == [] then row else Keep(KeepAll(row, arrivals[..|arrivals| - 1]), arrivals[|arrivals| - 1])
  }

  /** A number always comes with the same body. */
  predicate OneBodyEach(rows: set<Row>) {
    forall a, b :: a in rows && b in rows && a.number == b.number ==> a == b
  }

  function Elements<T>(s: seq<T>): set<T> { set x | x in s }

  predicate Storable(r: Row) { r.number <= I64_MAX }

  /** The row kept is the newest storable one that ever arrived. */
  lemma {:induction false} NewestIsKept(arrivals: seq<Row>)
    ensures var kept := KeepAll(None, arrivals);
      (kept.None? <==> forall r :: r in arrivals ==> !Storable(r)) &&
      (kept.Some? ==> kept.value in arrivals && Storable(kept.value)) &&
      (forall r :: r in arrivals && Storable(r) ==> kept.Some? && r.number <= kept.value.number)
  {
    if arrivals != [] {
      var n := |arrivals| - 1;
      NewestIsKept(arrivals[..n]);
      assert arrivals == arrivals[..n] + [arrivals[n]];
      assert forall r :: r in arrivals <==> r in arrivals[..n] || r == arrivals[n];
    }
  }

  /** Replayed, repeated or reordered, the same rollups leave the same row. */
  lemma {:induction false} OrderDoesNotMatter(one: seq<Row>, other: seq<Row>)
    requires Elements(one) == Elements(other) && OneBodyEach(Elements(one))
    ensures KeepAll(None, one) == KeepAll(None, other)
  {
    NewestIsKept(one);
    NewestIsKept(other);
    assert forall r :: r in one <==> r in Elements(one);
    assert forall r :: r in other <==> r in Elements(other);
  }

  /** A kept row's number never falls. */
  lemma {:induction false} RowsNeverFallBack(row: Option<Row>, arrivals: seq<Row>)
    requires row.Some?
    ensures KeepAll(row, arrivals).Some? && row.value.number <= KeepAll(row, arrivals).value.number
    ensures KeepAll(row, arrivals).value.number == row.value.number ==> KeepAll(row, arrivals) == row
  {
    if arrivals != [] {
      RowsNeverFallBack(row, arrivals[..|arrivals| - 1]);
    }
  }

  function RowAt(rows: map<(string, string), Row>, key: (string, string)): Option<Row> {
    if key in rows then Some(rows[key]) else None
  }

  /** No row is lost, none goes back, and none changes without moving on. */
  predicate RowsAdvance(before: map<(string, string), Row>, after: map<(string, string), Row>) {
    forall k :: k in before ==>
      (k in after && before[k].number <= after[k].number && (before[k].number == after[k].number ==> before[k] == after[k]))
  }

  // --------------------------------------------------------------- keys and cursors

  function At(cursors: map<string, nat>, channel: string): nat {
    if channel in cursors then cursors[channel] else 0
  }

  function RingOf(rings: map<string, set<string>>, channel: string): set<string> {
    if channel in rings then rings[channel] else {}
  }

  function Merge(rings: map<string, set<string>>, h: Handoff): map<string, set<string>> {
    rings[h.name := RingOf(rings, h.name) + h.epochs]
  }

  function MergeAll(rings: map<string, set<string>>, hs: seq<Handoff>): map<string, set<string>> {
    if hs == [] then rings else Merge(MergeAll(rings, hs[..|hs| - 1]), hs[|hs| - 1])
  }

  /** Keys are only ever added. */
  predicate Grown(before: map<string, set<string>>, after: map<string, set<string>>) {
    forall c :: c in before ==> c in after && before[c] <= after[c]
  }

  lemma {:induction false} MergeGrows(rings: map<string, set<string>>, hs: seq<Handoff>)
    ensures Grown(rings, MergeAll(rings, hs))
    ensures forall h :: h in hs ==> h.name in MergeAll(rings, hs) && h.epochs <= MergeAll(rings, hs)[h.name]
  {
    if hs != [] {
      var n := |hs| - 1;
      MergeGrows(rings, hs[..n]);
      assert hs == hs[..n] + [hs[n]];
      assert forall h :: h in hs ==> h in hs[..n] || h == hs[n];
    }
  }

  /** A frame put to the replica, with the keys it then held for its channel. */
  datatype Offer = Offer(channel: string, number: nat, json: string, ring: set<string>)

  /** Where a drain of the channel begins, past what it has read or can no longer read. */
  function From(log: Log, cursor: nat): nat
    requires Contiguous(log)
  {
    var lost := log.next - |log.frames| - 1;
    if cursor < lost then lost else cursor
  }

  /** The offers are the frames numbered from+1 .. to of one channel, each once, in
      order, every one with at least these keys in hand. */
  predicate OffersOf(offers: seq<Offer>, channel: string, log: Log, from: nat, to: nat, ring: set<string>) {
    |offers| == (if from <= to then to - from else 0) &&
    forall i :: 0 <= i < |offers| ==>
      offers[i].channel == channel && offers[i].number == from + 1 + i && ring <= offers[i].ring && IsFrame(log, offers[i])
  }

  /** The offer is of a frame the log has under its number. */
  predicate IsFrame(log: Log, o: Offer) {
    log.next - |log.frames| <= o.number < log.next && o.json == log.frames[o.number - (log.next - |log.frames|)].envelope
  }

  /** Every retained frame of the channel is among the offers, with these keys in hand. */
  predicate AllOffered(offers: seq<Offer>, log: Log, channel: string, ring: set<string>) {
    forall i :: 0 <= i < |log.frames| ==> OfferedWith(offers, channel, log.frames[i].number, ring)
  }

  predicate OfferedWith(offers: seq<Offer>, channel: string, number: nat, ring: set<string>) {
    exists k :: 0 <= k < |offers| && offers[k].channel == channel && offers[k].number == number && ring <= offers[k].ring
  }

  lemma {:induction false} RunOffersAll(offers: seq<Offer>, log: Log, channel: string, ring: set<string>)
    requires Contiguous(log) && OffersOf(offers, channel, log, From(log, 0), log.next - 1, ring)
    ensures AllOffered(offers, log, channel, ring)
  {
    forall i | 0 <= i < |log.frames|
      ensures OfferedWith(offers, channel, log.frames[i].number, ring)
    {
      assert offers[i].number == log.frames[i].number;
    }
  }

  lemma {:induction false} OffersLast(before: seq<Offer>, more: seq<Offer>, log: Log, channel: string, ring: set<string>)
    requires AllOffered(before, log, channel, ring) || AllOffered(more, log, channel, ring)
    ensures AllOffered(before + more, log, channel, ring)
  {
    var both := before + more;
    forall i | 0 <= i < |log.frames|
      ensures OfferedWith(both, channel, log.frames[i].number, ring)
    {
      if OfferedWith(before, channel, log.frames[i].number, ring) {
        var k :| 0 <= k < |before| && before[k].channel == channel && before[k].number == log.frames[i].number &&
          ring <= before[k].ring;
        assert both[k] == before[k];
      } else {
        var k :| 0 <= k < |more| && more[k].channel == channel && more[k].number == log.frames[i].number &&
          ring <= more[k].ring;
        assert both[|before| + k] == more[k];
      }
    }
  }

  /** Where a channel first stands in a list, or the list's length. */
  function PlaceIn(list: seq<string>, c: string): (i: nat)
    ensures i <= |list| && (i < |list| ==> list[i] == c) && forall k :: 0 <= k < i ==> list[k] != c
  {
    if list == [] || list[0] == c then 0 else 1 + PlaceIn(list[1..], c)
  }

  lemma {:induction false} PlaceFound(list: seq<string>, c: string, n: nat)
    requires n <= |list|
    ensures c in list[..n] <==> PlaceIn(list, c) < n
  {
    var at := PlaceIn(list, c);
    assert forall k :: 0 <= k < n ==> list[..n][k] == list[k];
    assert at < n ==> list[at] in list[..n];
  }

  /** The hub's channels once it has admitted itself: the mesh, then the others it had, each
      once, in the order it had them. */
  method AdmitSelf(existing: seq<string>) returns (channels: seq<string>)
    ensures |channels| > 0 && channels[0] == MESH_CHANNEL
    ensures forall c :: c in channels <==> c == MESH_CHANNEL || c in existing
    ensures Distinct(channels)
    ensures forall i, j :: 1 <= i < j < |channels| ==> PlaceIn(existing, channels[i]) < PlaceIn(existing, channels[j])
  {
    channels := [MESH_CHANNEL];
    for n := 0 to |existing|
      invariant |channels| > 0 && channels[0] == MESH_CHANNEL && Distinct(channels)
      invariant forall c :: c in channels <==> c == MESH_CHANNEL || c in existing[..n]
      invariant forall i :: 1 <= i < |channels| ==> PlaceIn(existing, channels[i]) < n
      invariant forall i, j :: 1 <= i < j < |channels| ==> PlaceIn(existing, channels[i]) < PlaceIn(existing, channels[j])
    {
      assert existing[..n + 1] == existing[..n] + [existing[n]];
      PlaceFound(existing, existing[n], n);
      PlaceFound(existing, existing[n], n + 1);
      if existing[n] !in channels {
        channels := channels + [existing[n]];
      }
    }
    assert existing[..|existing|] == existing;
  }

  /** What the replica has in its tables, and what it has been offered. */
  datatype Tables = Tables(cursors: map<string, nat>, rings: map<string, set<string>>,
                           rows: map<(string, string), Row>, undecryptable: nat, offered: seq<Offer>)

  predicate Named(hs: seq<Handoff>, channel: string) {
    exists k :: 0 <= k < |hs| && hs[k].name == channel
  }

  /** The keys handed over are held, and every other channel that could be read once they
      were, and that is the hub's own, is to be read from the start. */
  predicate Rewound(hs: seq<Handoff>, before: map<string, set<string>>, t: Tables, mine: seq<string>, channel: string) {
    (forall h :: h in hs ==> h.name in t.rings && h.epochs <= t.rings[h.name]) &&
    forall c :: c in mine && c != channel && (c in before || Named(hs, c)) ==> At(t.cursors, c) == 0
  }

  class Hub {
    const me: string
    /** Each member's channels, this hub's among them. */
    const members: map<string, seq<string>>
    /** The log, fixed while it is drained. */
    const logs: map<string, Log>
    /** What an envelope's text says, when it parses and its signature holds. */
    const decode: string -> Option<Envelope>

    var cursors: map<string, nat>
    var rings: map<string, set<string>>
    var rows: map<(string, string), Row>
    var undecryptable: nat
    ghost var offered: seq<Offer>

    constructor (me: string, members: map<string, seq<string>>, logs: map<string, Log>, decode: string -> Option<Envelope>)
      ensures cursors == map[] && rings == map[] && rows == map[] && offered == []
      ensures this.me == me && this.members == members && this.logs == logs && this.decode == decode
    {
      this.me, this.members, this.logs, this.decode := me, members, logs, decode;
      cursors, rings, rows, undecryptable, offered := map[], map[], map[], 0, [];
    }

    function ChannelsOf(node: string): seq<string> {
      if node in members then members[node] else []
    }

    /** The keys a text hands this hub, if that is what it does. */
    function HandedBy(json: string): (hs: Option<seq<Handoff>>) {
      match decode(json)
      case Some(Direct(sender, recipient, Some(KeyHandoff(hs)))) =>
        if sender != me && recipient == me then Some(hs) else None
      case _ => None
    }

    predicate Readable(channel: string)
      reads this
    {
      channel in rings && channel in ChannelsOf(me)
    }

    method StoreRollup(channel: string, sender: string, number: nat, body: string) returns (stored: bool)
      modifies this`rows
      ensures var key := (channel, sender);
        var row := if key in old(rows) then Some(old(rows)[key]) else None;
        var kept := Keep(row, Row(number, body));
        stored == (kept != row) &&
        rows == (if kept.Some? then old(rows)[key := kept.value] else old(rows))
      ensures RowsAdvance(old(rows), rows)
    {
      if number > I64_MAX {
        var key := (channel, sender);
        assert key in rows ==> rows == rows[key := rows[key]];
        return false;
      }
      var key := (channel, sender);
      if key !in rows || number > rows[key].number {
        rows := rows[key := Row(number, body)];
        return true;
      }
      assert rows == rows[key := rows[key]];
      return false;
    }

    /** Merges the keys and sends every readable channel's cursor back to the start. */
    method HandOff(hs: seq<Handoff>) returns (applied: bool)
      modifies this`rings, this`cursors
      ensures rings == MergeAll(old(rings), hs)
      ensures forall c :: At(cursors, c) == if Readable(c) then 0 else At(old(cursors), c)
      ensures applied == (hs != [])
    {
      var n := 0;
      for i := 0 to |hs|
        invariant n == i && rings == MergeAll(old(rings), hs[..i]) && cursors == old(cursors)
      {
        assert hs[..i + 1][..i] == hs[..i];
        rings := Merge(rings, hs[i]);
        n := n + 1;
      }
      assert hs[..|hs|] == hs;
      var names := set c | c in rings && c in ChannelsOf(me);
      ghost var all := names;
      while names != {}
        invariant names <= all && rings == MergeAll(old(rings), hs)
        invariant forall c :: At(cursors, c) == if c in all && c !in names then 0 else At(old(cursors), c)
        decreases names
      {
        var c :| c in names;
        cursors := cursors[c := 0];
        names := names - {c};
      }
      applied := n > 0;
    }

    /** A frame of a member's, sealed to the channel it stands on: one the hub may open. */
    predicate ForMembers(channel: string, json: string) {
      match decode(json)
      case Some(OnChannel(sender, _, _)) => sender != me && channel != MESH_CHANNEL && channel in ChannelsOf(sender)
      case _ => false
    }

    /** And has the key to. */
    predicate Openable(channel: string, json: string, ring: set<string>) {
      ForMembers(channel, json) && decode(json).value.epoch in ring
    }

    /** The rollup such a frame carries, if it is a valid one of its sender's for its channel. */
    function RollupIn(channel: string, json: string, ring: set<string>): Option<Row> {
      if !Openable(channel, json, ring) then None
      else
        match decode(json).value.payload
        case Rollup(claimed, node, number, valid, body) =>
          if claimed == channel && node == decode(json).value.sender && valid then Some(Row(number, body)) else None
        case _ => None
    }

    /** The rows once a rollup of the sender's has arrived. */
    function RowsWith(before: map<(string, string), Row>, key: (string, string), arrival: Row): map<(string, string), Row> {
      var kept := Keep(RowAt(before, key), arrival);
      if kept.Some? then before[key := kept.value] else before
    }

    /** The rows once a frame was put to the replica with these keys for its channel. */
    function RowsGiven(before: map<(string, string), Row>, channel: string, json: string, ring: set<string>): map<(string, string), Row> {
      var arrival := RollupIn(channel, json, ring);
      if arrival.None? then before else RowsWith(before, (channel, decode(json).value.sender), arrival.value)
    }

    /** One for a frame it should have been able to open and was not. */
    function Unopened(channel: string, json: string, ring: set<string>): nat {
      if ForMembers(channel, json) && !Openable(channel, json, ring) then 1 else 0
    }

    method IngestOne(channel: string, json: string) returns (applied: bool)
      modifies this`rings, this`cursors, this`rows, this`undecryptable
      ensures rows == RowsGiven(old(rows), channel, json, RingOf(old(rings), channel))
      ensures undecryptable == old(undecryptable) + Unopened(channel, json, RingOf(old(rings), channel))
      ensures HandedBy(json).Some? ==>
        rings == MergeAll(old(rings), HandedBy(json).value) &&
        forall c :: At(cursors, c) == if Readable(c) then 0 else At(old(cursors), c)
      ensures HandedBy(json).None? ==> rings == old(rings) && cursors == old(cursors)
      ensures RowsAdvance(old(rows), rows)
    {
      var decoded := decode(json);
      if decoded.None? {
        return false;
      }
      var env := decoded.value;
      if env.sender == me {
        return false;
      }
      if env.Direct? {
        if env.recipient != me || env.inside.None? {
          return false;
        }
        match env.inside.value {
          case KeyHandoff(hs) => applied := HandOff(hs);
          case ChangesRequest => applied := true;
          case _ => applied := false;
        }
        return;
      }
      if channel == MESH_CHANNEL || channel !in ChannelsOf(env.sender) {
        return false;
      }
      if channel !in rings || env.epoch !in rings[channel] {
        undecryptable := undecryptable + 1;
        return false;
      }
      match env.payload {
        case Rollup(claimed, node, number, valid, body) =>
          if claimed == channel && node == env.sender && valid {
            applied := StoreRollup(channel, env.sender, number, body);
          } else {
            applied := false;
          }
        case Changes(c) =>
          // Whether the change applies is for the sync code to say.
          var stored: bool := *;
          applied := c == channel && stored;
        case _ => applied := false;
      }
    }

    ghost function Now(): Tables
      reads this
    {
      Tables(cursors, rings, rows, undecryptable, offered)
    }

    /** The rows once these were offered, one after another. */
    function RowsAfter(rows: map<(string, string), Row>, offers: seq<Offer>): map<(string, string), Row> {
      if offers == [] then rows
      else
        var last := offers[|offers| - 1];
        RowsGiven(RowsAfter(rows, offers[..|offers| - 1]), last.channel, last.json, last.ring)
    }

    /** How many of them could not be opened. */
    function UnopenedOf(offers: seq<Offer>): nat {
      if offers == [] then 0
      else
        var last := offers[|offers| - 1];
        UnopenedOf(offers[..|offers| - 1]) + Unopened(last.channel, last.json, last.ring)
    }

    /** What was offered meanwhile was taken in, all of it and nothing else. */
    ghost predicate Ingested(before: Tables, after: Tables) {
      before.offered <= after.offered && forall more :: Since(before, after, more) ==> TookIn(before, after, more)
    }

    ghost predicate Since(before: Tables, after: Tables, more: seq<Offer>) {
      after.offered == before.offered + more
    }

    ghost predicate TookIn(before: Tables, after: Tables, more: seq<Offer>) {
      after.rows == RowsAfter(before.rows, more) && after.undecryptable == before.undecryptable + UnopenedOf(more)
    }

    lemma {:induction false} IngestedSince(before: Tables, after: Tables)
      requires Ingested(before, after)
      ensures TookIn(before, after, after.offered[|before.offered|..])
    {
      assert Since(before, after, after.offered[|before.offered|..]);
    }

    lemma {:induction false} IngestedConcat(rows: map<(string, string), Row>, a: seq<Offer>, b: seq<Offer>)
      ensures RowsAfter(rows, a + b) == RowsAfter(RowsAfter(rows, a), b) && UnopenedOf(a + b) == UnopenedOf(a) + UnopenedOf(b)
    {
      if b == [] {
        assert a + b == a;
      } else {
        var all, n := a + b, |b| - 1;
        IngestedConcat(rows, a, b[..n]);
        assert all[..|all| - 1] == a + b[..n] && all[|all| - 1] == b[n];
      }
    }

    lemma {:induction false} IngestedOn(s: Tables, t: Tables, u: Tables)
      requires Ingested(s, t) && Ingested(t, u)
      ensures Ingested(s, u)
    {
      var one, two := t.offered[|s.offered|..], u.offered[|t.offered|..];
      IngestedSince(s, t);
      IngestedSince(t, u);
      IngestedConcat(s.rows, one, two);
      forall more | Since(s, u, more)
        ensures TookIn(s, u, more)
      {
        assert more == u.offered[|s.offered|..] == one + two;
      }
    }

    lemma {:induction false} IngestedOne(s: Tables, t: Tables, o: Offer)
      requires t.offered == s.offered + [o] && t.rows == RowsGiven(s.rows, o.channel, o.json, o.ring)
      requires t.undecryptable == s.undecryptable + Unopened(o.channel, o.json, o.ring)
      ensures Ingested(s, t)
    {
      forall more | Since(s, t, more)
        ensures TookIn(s, t, more)
      {
        assert more == t.offered[|s.offered|..] == [o] && [o][..0] == [];
        assert RowsAfter(s.rows, [o]) == RowsGiven(RowsAfter(s.rows, []), o.channel, o.json, o.ring);
        assert UnopenedOf([o]) == UnopenedOf([]) + Unopened(o.channel, o.json, o.ring);
      }
    }

    lemma {:induction false} IngestedNothing(t: Tables)
      ensures Ingested(t, t)
    {
      forall more | Since(t, t, more)
        ensures TookIn(t, t, more)
      {
        assert more == t.offered[|t.offered|..] == [];
      }
    }

    /** From one state of the tables to a later one, reading one channel: the frames
        from+1 .. to were offered, each once and in order, and taken in; keys and rows only
        grew; no other cursor moved but to the start; and each handoff among the frames was
        taken up, and without one no other cursor moved. */
    ghost predicate Read(before: Tables, after: Tables, channel: string, log: Log, from: nat, to: nat) {
      from <= to && Grown(before.rings, after.rings) && RowsAdvance(before.rows, after.rows) &&
      Ingested(before, after) &&
      OffersOf(after.offered[|before.offered|..], channel, log, from, to, RingOf(before.rings, channel)) &&
      Others(before, after, channel) &&
      (Quiet(log, from, to) ==> SameOthers(before, after, channel)) &&
      forall i :: 0 <= i < |log.frames| && from < log.frames[i].number <= to ==>
        TakenUp(log.frames[i].envelope, before, after, channel)
    }

    ghost predicate Others(before: Tables, after: Tables, channel: string) {
      forall c :: c != channel ==> At(after.cursors, c) == At(before.cursors, c) || At(after.cursors, c) == 0
    }

    /** No other cursor moved at all. */
    ghost predicate SameOthers(before: Tables, after: Tables, channel: string) {
      forall c :: c != channel ==> At(after.cursors, c) == At(before.cursors, c)
    }

    /** No handoff is among the frames from+1 .. to. */
    ghost predicate Quiet(log: Log, from: nat, to: nat) {
      forall i :: 0 <= i < |log.frames| && from < log.frames[i].number <= to ==> HandedBy(log.frames[i].envelope).None?
    }

    predicate TakenUp(json: string, before: Tables, after: Tables, channel: string) {
      var handed := HandedBy(json);
      handed.Some? ==> Rewound(handed.value, before.rings, after, ChannelsOf(me), channel)
    }

    lemma {:induction false} ReadNothing(t: Tables, channel: string, log: Log, at: nat)
      ensures Read(t, t, channel, log, at, at)
    {
      IngestedNothing(t);
    }

    lemma {:induction false} OffersJoin(one: seq<Offer>, two: seq<Offer>, channel: string, log: Log, from: nat, mid: nat, to: nat,
                                        ring: set<string>, later: set<string>)
      requires from <= mid <= to && ring <= later
      requires OffersOf(one, channel, log, from, mid, ring) && OffersOf(two, channel, log, mid, to, later)
      ensures OffersOf(one + two, channel, log, from, to, ring)
    {
    }

    lemma {:induction false} TakenUpLasts(json: string, s: Tables, t: Tables, u: Tables, channel: string)
      requires TakenUp(json, s, t, channel) && Grown(t.rings, u.rings) && Others(t, u, channel)
      ensures TakenUp(json, s, u, channel)
    {
    }

    lemma {:induction false} TakenUpSince(json: string, s: Tables, t: Tables, u: Tables, channel: string)
      requires TakenUp(json, t, u, channel) && Grown(s.rings, t.rings)
      ensures TakenUp(json, s, u, channel)
    {
    }

    lemma {:induction false} ReadOn(s: Tables, t: Tables, u: Tables, channel: string, log: Log, from: nat, mid: nat, to: nat)
      requires Read(s, t, channel, log, from, mid) && Read(t, u, channel, log, mid, to)
      ensures Read(s, u, channel, log, from, to)
    {
      var one, two := t.offered[|s.offered|..], u.offered[|t.offered|..];
      IngestedOn(s, t, u);
      OffersJoin(one, two, channel, log, from, mid, to, RingOf(s.rings, channel), RingOf(t.rings, channel));
      assert u.offered[|s.offered|..] == one + two;
      forall i | 0 <= i < |log.frames| && from < log.frames[i].number <= to
        ensures TakenUp(log.frames[i].envelope, s, u, channel)
      {
        if log.frames[i].number <= mid {
          TakenUpLasts(log.frames[i].envelope, s, t, u, channel);
        } else {
          TakenUpSince(log.frames[i].envelope, s, t, u, channel);
        }
      }
    }

    lemma {:induction false} HandoffTakenUp(hs: seq<Handoff>, s: Tables, t: Tables, channel: string)
      requires t.rings == MergeAll(s.rings, hs)
      requires forall c :: c != channel && c in t.rings && c in ChannelsOf(me) ==> At(t.cursors, c) == 0
      ensures Grown(s.rings, t.rings) && Rewound(hs, s.rings, t, ChannelsOf(me), channel)
    {
      MergeGrows(s.rings, hs);
      assert forall k :: 0 <= k < |hs| ==> hs[k] in hs;
    }

    lemma {:induction false} FrameRead(s: Tables, t: Tables, channel: string, log: Log, number: nat, json: string)
      requires Contiguous(log) && log.next - |log.frames| <= number < log.next
      requires log.frames[number - (log.next - |log.frames|)].envelope == json
      requires Grown(s.rings, t.rings) && RowsAdvance(s.rows, t.rows) && Others(s, t, channel) && Ingested(s, t)
      requires t.offered == s.offered + [Offer(channel, number, json, RingOf(s.rings, channel))]
      requires TakenUp(json, s, t, channel) && (HandedBy(json).None? ==> SameOthers(s, t, channel))
      ensures Read(s, t, channel, log, number - 1, number)
    {
      var at := number - (log.next - |log.frames|);
      assert Quiet(log, number - 1, number) ==> HandedBy(log.frames[at].envelope).None?;
    }

    /** One frame of a page: put to the replica, and then the cursor is past it. */
    method OfferFrame(channel: string, number: nat, json: string, ghost log: Log) returns (applied: bool)
      requires Contiguous(log) && log.next - |log.frames| <= number < log.next
      requires log.frames[number - (log.next - |log.frames|)].envelope == json
      modifies this
      ensures Read(old(Now()), Now(), channel, log, number - 1, number)
      ensures At(cursors, channel) == number
    {
      offered := offered + [Offer(channel, number, json, RingOf(rings, channel))];
      applied := IngestOne(channel, json);
      ghost var read := cursors;
      assert HandedBy(json).Some? ==> forall c :: c in rings && c in ChannelsOf(me) ==> Readable(c) && At(read, c) == 0;
      cursors := cursors[channel := number];
      assert forall c :: c != channel ==> At(cursors, c) == At(read, c);
      if HandedBy(json).Some? {
        HandoffTakenUp(HandedBy(json).value, old(Now()), Now(), channel);
      }
      IngestedOne(old(Now()), Now(), offered[|offered| - 1]);
      FrameRead(old(Now()), Now(), channel, log, number, json);
    }

    /** A page read from a cursor that is not behind holds the frames right after it. */
    lemma {:induction false} PageIs(log: Log, after: nat)
      requires Contiguous(log) && log.next - |log.frames| <= after + 1
      ensures var frames := PageOf(log, after, PAGE).frames;
        (frames != [] ==> after + |frames| < log.next) && (|frames| < PAGE ==> log.next <= after + |frames| + 1) &&
        forall k :: 0 <= k < |frames| ==> FrameIs(log, after + 1 + k, frames[k])
    {
    }

    ghost predicate FrameIs(log: Log, number: nat, frame: (nat, string)) {
      log.next - |log.frames| <= number < log.next &&
      frame == (number, log.frames[number - (log.next - |log.frames|)].envelope)
    }

    /** One more frame, of a page read so far from `after`. */
    method OfferNext(channel: string, ghost log: Log, number: nat, json: string, ghost start: Tables, ghost after: nat)
      returns (applied: bool)
      requires Contiguous(log) && FrameIs(log, number, (number, json)) && Read(start, Now(), channel, log, after, number - 1)
      modifies this
      ensures At(cursors, channel) == number && Read(start, Now(), channel, log, after, number)
    {
      ghost var before := Now();
      applied := OfferFrame(channel, number, json, log);
      ReadOn(start, before, Now(), channel, log, after, number - 1, number);
    }

    method OfferPage(channel: string, ghost log: Log, after: nat, frames: seq<(nat, string)>) returns (applied: nat)
      requires Contiguous(log) && forall k :: 0 <= k < |frames| ==> FrameIs(log, after + 1 + k, frames[k])
      requires At(cursors, channel) == after
      modifies this
      ensures At(cursors, channel) == after + |frames|
      ensures Read(old(Now()), Now(), channel, log, after, after + |frames|)
    {
      applied := 0;
      ghost var start := Now();
      ReadNothing(start, channel, log, after);
      for i := 0 to |frames|
        invariant At(cursors, channel) == after + i
        invariant Read(start, Now(), channel, log, after, after + i)
      {
        assert FrameIs(log, after + 1 + i, frames[i]);
        var done := OfferNext(channel, log, frames[i].0, frames[i].1, start, after);
        if done {
          applied := applied + 1;
        }
      }
    }

    /** Where its own cursor stands is no part of what a channel's reading says. */
    lemma {:induction false} OwnCursorMoves(s: Tables, t: Tables, channel: string, log: Log, from: nat, to: nat, cursor: nat)
      requires Read(s, t, channel, log, from, to)
      ensures Read(s, t.(cursors := t.cursors[channel := cursor]), channel, log, from, to)
    {
      var u := t.(cursors := t.cursors[channel := cursor]);
      assert forall c :: c != channel ==> At(u.cursors, c) == At(t.cursors, c);
      SameIngested(s, t, u);
    }

    lemma {:induction false} SameIngested(s: Tables, t: Tables, u: Tables)
      requires Ingested(s, t) && u.rows == t.rows && u.undecryptable == t.undecryptable && u.offered == t.offered
      ensures Ingested(s, u)
    {
      forall more | Since(s, u, more)
        ensures TookIn(s, u, more)
      {
        assert Since(s, t, more);
      }
    }

    /** One more page, of a channel read so far from `from`. */
    method OfferMore(channel: string, ghost log: Log, after: nat, frames: seq<(nat, string)>, ghost start: Tables, ghost from: nat)
      returns (applied: nat)
      requires Contiguous(log) && forall k :: 0 <= k < |frames| ==> FrameIs(log, after + 1 + k, frames[k])
      requires At(cursors, channel) == after && Read(start, Now(), channel, log, from, after)
      modifies this
      ensures At(cursors, channel) == after + |frames|
      ensures Read(start, Now(), channel, log, from, after + |frames|)
    {
      ghost var before := Now();
      applied := OfferPage(channel, log, after, frames);
      ReadOn(start, before, Now(), channel, log, from, after, after + |frames|);
    }

    /** How far a channel has been read in a drain that began at `start`. */
    ghost predicate Draining(start: Tables, t: Tables, channel: string)
      requires AllContiguous(logs)
    {
      var log := LogOf(logs, channel);
      var from, at := From(log, At(start.cursors, channel)), From(log, At(t.cursors, channel));
      if from < log.next then from <= at < log.next && Read(start, t, channel, log, from, at) else t == start
    }

    lemma {:induction false} SkipsLost(start: Tables, t: Tables, channel: string)
      requires AllContiguous(logs) && Draining(start, t, channel) && At(t.cursors, channel) + 1 < Oldest(LogOf(logs, channel))
      ensures Draining(start, t.(cursors := t.cursors[channel := Oldest(LogOf(logs, channel)) - 1]), channel)
    {
      var log := LogOf(logs, channel);
      var from, at := From(log, At(start.cursors, channel)), From(log, At(t.cursors, channel));
      OwnCursorMoves(start, t, channel, log, from, at, Oldest(log) - 1);
    }

    /** Reads one channel from its cursor to the end of its log. Every frame still
        retained and not read before is offered, once and in order, even when one of
        them sends this very channel's cursor back. */
    method Drain(channel: string) returns (applied: nat)
      requires AllContiguous(logs)
      modifies this
      ensures Drained(old(Now()), Now(), channel)
    {
      ghost var log, start := LogOf(logs, channel), Now();
      ghost var from := From(log, At(cursors, channel));
      applied := 0;
      ReadNothing(start, channel, log, from);
      var more := true;
      while more
        invariant Draining(start, Now(), channel) && (!more ==> Drained(start, Now(), channel))
        decreases more, log.next - At(cursors, channel)
      {
        var done;
        more, done := DrainOnce(channel, start);
        applied := applied + done;
      }
    }

    /** A page of the log: whether the cursor is behind, and otherwise the frames after it. */
    method ReadPage(channel: string, after: nat) returns (page: Page)
      requires AllContiguous(logs)
      ensures page == PageOf(LogOf(logs, channel), after, PAGE)
      ensures var log := LogOf(logs, channel);
        page.oldest == Oldest(log) && |page.frames| <= PAGE &&
        (Oldest(log) <= after + 1 ==>
          (page.frames != [] ==> after + |page.frames| < log.next) &&
          (|page.frames| < PAGE ==> log.next <= after + |page.frames| + 1) &&
          forall k :: 0 <= k < |page.frames| ==> FrameIs(log, after + 1 + k, page.frames[k]))
    {
      page := PageOf(LogOf(logs, channel), after, PAGE);
      if Oldest(LogOf(logs, channel)) <= after + 1 {
        PageIs(LogOf(logs, channel), after);
      }
    }

    lemma {:induction false} DrainGoesOn(start: Tables, t: Tables, channel: string, at: nat)
      requires AllContiguous(logs) && at == At(t.cursors, channel)
      requires var log := LogOf(logs, channel);
        log.next - |log.frames| <= at + 1 && at < log.next && From(log, At(start.cursors, channel)) <= at &&
        Read(start, t, channel, log, From(log, At(start.cursors, channel)), at)
      ensures Draining(start, t, channel) && (at == LogOf(logs, channel).next - 1 ==> Drained(start, t, channel))
    {
    }

    lemma {:induction false} DrainEnds(start: Tables, t: Tables, channel: string)
      requires AllContiguous(logs) && Draining(start, t, channel)
      requires var log := LogOf(logs, channel); Oldest(log) <= At(t.cursors, channel) + 1 && log.next <= At(t.cursors, channel) + 1
      ensures Drained(start, t, channel)
    {
    }

    /** One turn of that loop: past what is lost, or a page on, or done. */
    method DrainOnce(channel: string, ghost start: Tables) returns (more: bool, applied: nat)
      requires AllContiguous(logs) && Draining(start, Now(), channel)
      modifies this
      ensures Draining(start, Now(), channel) && (!more ==> Drained(start, Now(), channel))
      ensures more ==> At(old(cursors), channel) < At(cursors, channel) < LogOf(logs, channel).next
    {
      ghost var log := LogOf(logs, channel);
      var after := At(cursors, channel);
      var page := ReadPage(channel, after);
      if page.oldest > 0 && after + 1 < page.oldest {
        SkipsLost(start, Now(), channel);
        cursors := cursors[channel := page.oldest - 1];
        return true, 0;
      }
      if |page.frames| == 0 {
        DrainEnds(start, Now(), channel);
        return false, 0;
      }
      applied := OfferMore(channel, log, after, page.frames, start, From(log, At(start.cursors, channel)));
      more := |page.frames| == PAGE;
      DrainGoesOn(start, Now(), channel, after + |page.frames|);
    }

    /** The keys a handoff holds for a channel. */
    predicate Hands(hs: seq<Handoff>, channel: string, ring: set<string>) {
      exists k :: 0 <= k < |hs| && hs[k].name == channel && hs[k].epochs == ring
    }

    /** The keys a handoff leaves the hub with for a channel: those it hands over, or those
        held before. */
    predicate Brings(hs: seq<Handoff>, before: map<string, set<string>>, channel: string, ring: set<string>) {
      Hands(hs, channel, ring) || (channel in before && ring <= before[channel])
    }

    /** A channel drained, from one state of the tables to the next. */
    ghost predicate Drained(t: Tables, u: Tables, channel: string)
      requires AllContiguous(logs)
    {
      var log := LogOf(logs, channel);
      var from := From(log, At(t.cursors, channel));
      if from < log.next then Read(t, u, channel, log, from, log.next - 1) && At(u.cursors, channel) == log.next - 1
      else u == t
    }

    /** Draining the channel from here reads a handoff, its frame `k`, that leaves the hub
        with these keys for that channel of its own. */
    ghost predicate Arrives(t: Tables, channel: string, k: nat, c: string, ring: set<string>) {
      var log := LogOf(logs, channel);
      k < |log.frames| && log.frames[k].number > At(t.cursors, channel) && c in ChannelsOf(me) &&
      HandedBy(log.frames[k].envelope).Some? && Brings(HandedBy(log.frames[k].envelope).value, t.rings, c, ring)
    }

    ghost predicate OfferedSince(start: Tables, t: Tables, c: string, ring: set<string>) {
      start.offered <= t.offered && AllOffered(t.offered[|start.offered|..], LogOf(logs, c), c, ring)
    }

    lemma {:induction false} DrainTakesUp(t: Tables, u: Tables, channel: string, k: nat, c: string, ring: set<string>)
      requires AllContiguous(logs) && Drained(t, u, channel) && Arrives(t, channel, k, c, ring) && c != channel
      ensures ring <= RingOf(u.rings, c) && At(u.cursors, c) == 0
    {
      var log := LogOf(logs, channel);
      var hs := HandedBy(log.frames[k].envelope).value;
      assert TakenUp(log.frames[k].envelope, t, u, channel);
      if Hands(hs, c, ring) {
        var h :| 0 <= h < |hs| && hs[h].name == c && hs[h].epochs == ring;
        assert hs[h] in hs && Named(hs, c);
      }
    }

    /** One more channel drained, for a channel whose cursor was sent back: either it was
        this one, and all of it was offered with the keys then held, or it still waits. */
    lemma {:induction false} OfferedOrWaiting(s: Tables, t: Tables, u: Tables, drained: string, c: string, ring: set<string>)
      requires AllContiguous(logs) && s.offered <= t.offered && Drained(t, u, drained)
      requires ring <= RingOf(t.rings, c) && (OfferedSince(s, t, c, ring) || At(t.cursors, c) == 0)
      ensures s.offered <= u.offered && ring <= RingOf(u.rings, c)
      ensures OfferedSince(s, u, c, ring) || (c != drained && At(u.cursors, c) == 0)
    {
      var one, two := t.offered[|s.offered|..], u.offered[|t.offered|..];
      assert u.offered[|s.offered|..] == one + two;
      var log := LogOf(logs, c);
      if OfferedSince(s, t, c, ring) {
        OffersLast(one, two, log, c, ring);
      } else if c == drained {
        var from := From(log, 0);
        assert OffersOf(two, c, log, from, log.next - 1, ring);
        RunOffersAll(two, log, c, ring);
        OffersLast(one, two, log, c, ring);
      }
    }

    // ------------------------------------------------------------- what is stored

    /** The rollups offered for a row, in order: valid ones of its own sender's, on their own
        channel, under a key then held. */
    function ArrivalsFor(offers: seq<Offer>, key: (string, string)): seq<Row> {
      if offers == [] then []
      else
        var last := offers[|offers| - 1];
        ArrivalsFor(offers[..|offers| - 1], key) + (if Brought(last, key) then [RollupIn(last.channel, last.json, last.ring).value] else [])
    }

    /** The offer brings a rollup for the row. */
    predicate Brought(o: Offer, key: (string, string)) {
      RollupIn(o.channel, o.json, o.ring).Some? && o.channel == key.0 && decode(o.json).value.sender == key.1
    }

    /** Each row is what it was, or the newest storable rollup that was offered for it. */
    lemma {:induction false} RowIsKept(rows: map<(string, string), Row>, offers: seq<Offer>, key: (string, string))
      ensures RowAt(RowsAfter(rows, offers), key) == KeepAll(RowAt(rows, key), ArrivalsFor(offers, key))
    {
      if offers != [] {
        var n := |offers| - 1;
        RowIsKept(rows, offers[..n], key);
        GivenKeeps(RowsAfter(rows, offers[..n]), offers[n], key);
        var before := ArrivalsFor(offers[..n], key);
        if Brought(offers[n], key) {
          var arrival := RollupIn(offers[n].channel, offers[n].json, offers[n].ring).value;
          assert (before + [arrival])[..|before|] == before;
        } else {
          assert before + [] == before;
        }
      }
    }

    /** One more offer changes the row it brings a rollup for, and no other. */
    lemma {:induction false} GivenKeeps(rows: map<(string, string), Row>, o: Offer, key: (string, string))
      ensures RowAt(RowsGiven(rows, o.channel, o.json, o.ring), key) ==
        if Brought(o, key) then Keep(RowAt(rows, key), RollupIn(o.channel, o.json, o.ring).value) else RowAt(rows, key)
    {
      var arrival := RollupIn(o.channel, o.json, o.ring);
      if arrival.Some? {
        var own := (o.channel, decode(o.json).value.sender);
        assert own == key <==> Brought(o, key);
      }
    }

    lemma {:induction false} ArrivalHas(offers: seq<Offer>, key: (string, string), k: nat)
      requires k < |offers| && Brought(offers[k], key)
      ensures RollupIn(offers[k].channel, offers[k].json, offers[k].ring).value in ArrivalsFor(offers, key)
    {
      if k < |offers| - 1 {
        ArrivalHas(offers[..|offers| - 1], key, k);
      }
    }

    lemma {:induction false} KeptIsAsNew(row: Option<Row>, arrivals: seq<Row>, r: Row)
      requires r in arrivals && Storable(r)
      ensures KeepAll(row, arrivals).Some? && r.number <= KeepAll(row, arrivals).value.number
    {
      var n := |arrivals| - 1;
      if r in arrivals[..n] {
        KeptIsAsNew(row, arrivals[..n], r);
      }
    }

    /** A storable rollup that was offered under a key then held is in its row, or a newer
        one is. */
    lemma {:induction false} OfferedIsStored(rows: map<(string, string), Row>, offers: seq<Offer>, key: (string, string), k: nat)
      requires k < |offers| && Brought(offers[k], key)
      requires Storable(RollupIn(offers[k].channel, offers[k].json, offers[k].ring).value)
      ensures key in RowsAfter(rows, offers)
      ensures RollupIn(offers[k].channel, offers[k].json, offers[k].ring).value.number <= RowsAfter(rows, offers)[key].number
    {
      RowIsKept(rows, offers, key);
      ArrivalHas(offers, key, k);
      KeptIsAsNew(RowAt(rows, key), ArrivalsFor(offers, key), RollupIn(offers[k].channel, offers[k].json, offers[k].ring).value);
    }

    lemma {:induction false} DrainIngests(t: Tables, u: Tables, channel: string)
      requires AllContiguous(logs) && Drained(t, u, channel)
      ensures Ingested(t, u)
    {
      IngestedNothing(t);
    }

    /** So at every point of a pass the rows and the count are those of what was offered in
        it: each row the newest of what it was and what arrived for it. */
    lemma {:induction false} PassIngests(states: seq<Tables>, m: nat, key: (string, string))
      requires AllContiguous(logs) && Pass(states) && m < |states|
      ensures Ingested(states[0], states[m])
      ensures var more := states[m].offered[|states[0].offered|..];
        RowAt(states[m].rows, key) == KeepAll(RowAt(states[0].rows, key), ArrivalsFor(more, key)) &&
        states[m].undecryptable == states[0].undecryptable + UnopenedOf(more)
      decreases m
    {
      if m == 0 {
        IngestedNothing(states[0]);
      } else {
        PassIngests(states, m - 1, key);
        assert Drained(states[m - 1], states[m - 1 + 1], ChannelsOf(me)[m - 1]);
        DrainIngests(states[m - 1], states[m], ChannelsOf(me)[m - 1]);
        IngestedOn(states[0], states[m - 1], states[m]);
      }
      IngestedSince(states[0], states[m]);
      RowIsKept(states[0].rows, states[m].offered[|states[0].offered|..], key);
    }

    // ------------------------------------------------------------- one pass

    /** A pass over the hub's channels, each drained in its turn. */
    ghost predicate Pass(states: seq<Tables>)
      requires AllContiguous(logs)
    {
      |states| == |ChannelsOf(me)| + 1 &&
      forall i :: 0 <= i < |ChannelsOf(me)| ==> Drained(states[i], states[i + 1], ChannelsOf(me)[i])
    }

    /** Whether what a handoff brought for a channel has been offered, or its channel
        waits, not having come up among the first n. */
    ghost predicate OnCourse(start: Tables, t: Tables, c: string, ring: set<string>, passed: seq<string>) {
      ring <= RingOf(t.rings, c) && start.offered <= t.offered &&
      (OfferedSince(start, t, c, ring) || (At(t.cursors, c) == 0 && c !in passed))
    }

    lemma {:induction false} StaysOnCourse(start: Tables, t: Tables, u: Tables, drained: string, c: string, ring: set<string>, passed: seq<string>)
      requires AllContiguous(logs) && Drained(t, u, drained) && OnCourse(start, t, c, ring, passed)
      ensures OnCourse(start, u, c, ring, passed + [drained])
    {
      OfferedOrWaiting(start, t, u, drained, c, ring);
    }

    /** A channel at its start stays so until its turn comes, and is then offered whole. */
    lemma {:induction false} WaitingSoFar(states: seq<Tables>, n: nat, c: string, ring: set<string>, m: nat)
      requires AllContiguous(logs) && Pass(states) && n <= m < |states|
      requires ring <= RingOf(states[n].rings, c) && At(states[n].cursors, c) == 0
      ensures OnCourse(states[n], states[m], c, ring, ChannelsOf(me)[n..m])
      decreases m
    {
      if m > n {
        var last := ChannelsOf(me)[m - 1];
        WaitingSoFar(states, n, c, ring, m - 1);
        assert Drained(states[m - 1], states[m - 1 + 1], last);
        StaysOnCourse(states[n], states[m - 1], states[m], last, c, ring, ChannelsOf(me)[n..m - 1]);
        assert ChannelsOf(me)[n..m] == ChannelsOf(me)[n..m - 1] + [last];
      }
    }

    /** A pass that finds a channel at its start offers every retained frame of it, with the
        keys held when the pass began. */
    lemma {:induction false} WaitingChannelsAreRead(states: seq<Tables>, j: nat, ring: set<string>)
      requires AllContiguous(logs) && Pass(states) && j < |ChannelsOf(me)|
      requires At(states[0].cursors, ChannelsOf(me)[j]) == 0 && ring <= RingOf(states[0].rings, ChannelsOf(me)[j])
      ensures OfferedSince(states[0], states[|ChannelsOf(me)|], ChannelsOf(me)[j], ring)
    {
      var mine := ChannelsOf(me);
      WaitingSoFar(states, 0, mine[j], ring, |mine|);
      assert mine[0..|mine|][j] == mine[j];
    }

    /** A handoff read on one channel has every retained frame of every later channel it
        opens offered in the same pass, with its keys in hand, however far that channel
        had been read before. */
    lemma {:induction false} LaterChannelsAreReadAgain(states: seq<Tables>, i: nat, j: nat, k: nat, ring: set<string>)
      requires AllContiguous(logs) && Pass(states) && i < j < |ChannelsOf(me)| && ChannelsOf(me)[j] != ChannelsOf(me)[i]
      requires Arrives(states[i], ChannelsOf(me)[i], k, ChannelsOf(me)[j], ring)
      ensures OfferedSince(states[i + 1], states[|ChannelsOf(me)|], ChannelsOf(me)[j], ring)
    {
      var mine := ChannelsOf(me);
      assert Drained(states[i], states[i + 1], mine[i]);
      DrainTakesUp(states[i], states[i + 1], mine[i], k, mine[j], ring);
      WaitingSoFar(states, i + 1, mine[j], ring, |mine|);
      assert mine[i + 1..|mine|][j - i - 1] == mine[j];
    }

    lemma {:induction false} EarlierSoFar(states: seq<Tables>, i: nat, k: nat, c: string, ring: set<string>, m: nat)
      requires AllContiguous(logs) && Pass(states) && i < m < |states| && c !in ChannelsOf(me)[i..]
      requires Arrives(states[i], ChannelsOf(me)[i], k, c, ring)
      ensures At(states[m].cursors, c) == 0 && ring <= RingOf(states[m].rings, c)
      decreases m
    {
      var mine := ChannelsOf(me);
      assert mine[i..][0] == mine[i] && mine[i..][m - 1 - i] == mine[m - 1];
      assert Drained(states[m - 1], states[m], mine[m - 1]);
      if m == i + 1 {
        DrainTakesUp(states[i], states[m], mine[i], k, c, ring);
      } else {
        EarlierSoFar(states, i, k, c, ring, m - 1);
        OfferedOrWaiting(states[m - 1], states[m - 1], states[m], mine[m - 1], c, ring);
      }
    }

    /** An earlier channel the handoff opens is not read again in this pass, but left at its
        start, with the keys, for the next. */
    lemma {:induction false} EarlierChannelsWait(states: seq<Tables>, i: nat, c: string, k: nat, ring: set<string>)
      requires AllContiguous(logs) && Pass(states) && i < |ChannelsOf(me)| && c !in ChannelsOf(me)[i..]
      requires Arrives(states[i], ChannelsOf(me)[i], k, c, ring)
      ensures var last := states[|ChannelsOf(me)|]; At(last.cursors, c) == 0 && ring <= RingOf(last.rings, c)
    {
      EarlierSoFar(states, i, k, c, ring, |ChannelsOf(me)|);
    }

    /** A drain adds offers of its own channel only. */
    lemma {:induction false} DrainOffersOwn(t: Tables, u: Tables, channel: string)
      requires AllContiguous(logs) && Drained(t, u, channel)
      ensures t.offered <= u.offered
      ensures forall q :: |t.offered| <= q < |u.offered| ==> u.offered[q].channel == channel
    {
      var more := u.offered[|t.offered|..];
      assert forall q :: |t.offered| <= q < |u.offered| ==> u.offered[q] == more[q - |t.offered|];
    }

    lemma {:induction false} OffersAfter(states: seq<Tables>, i: nat, m: nat)
      requires AllContiguous(logs) && Pass(states) && i <= m < |states|
      ensures states[i].offered <= states[m].offered
      ensures forall q :: |states[i].offered| <= q < |states[m].offered| ==> states[m].offered[q].channel in ChannelsOf(me)[i..m]
      decreases m
    {
      if i < m {
        var mine, t, u := ChannelsOf(me), states[m - 1].offered, states[m].offered;
        OffersAfter(states, i, m - 1);
        assert Drained(states[m - 1], states[m - 1 + 1], mine[m - 1]);
        DrainOffersOwn(states[m - 1], states[m], mine[m - 1]);
        assert mine[i..m] == mine[i..m - 1] + [mine[m - 1]];
        assert u[..|t|] == t && forall q :: 0 <= q < |t| ==> u[q] == u[..|t|][q];
      }
    }

    /** The channel a handoff comes on is not read again for it, though the handoff opens
        it: past its own place in the pass, no frame at or before it is offered. */
    lemma {:induction false} OwnChannelIsNotReadAgain(states: seq<Tables>, i: nat, n: nat, q: nat)
      requires AllContiguous(logs) && Pass(states) && i < |ChannelsOf(me)| && ChannelsOf(me)[i] !in ChannelsOf(me)[i + 1..]
      requires var log := LogOf(logs, ChannelsOf(me)[i]); From(log, At(states[i].cursors, ChannelsOf(me)[i])) < n < log.next
      requires var last := states[|ChannelsOf(me)|].offered;
        var from := From(LogOf(logs, ChannelsOf(me)[i]), At(states[i].cursors, ChannelsOf(me)[i]));
        |states[i].offered| + (n - from) <= q < |last| && last[q].channel == ChannelsOf(me)[i]
      ensures states[|ChannelsOf(me)|].offered[q].number > n
    {
      var mine := ChannelsOf(me);
      var last := states[|mine|].offered;
      assert Drained(states[i], states[i + 1], mine[i]);
      OffersAfter(states, i + 1, |mine|);
      assert mine[i + 1..|mine|] == mine[i + 1..];
      var here := states[i + 1].offered;
      var run := here[|states[i].offered|..];
      if q < |here| {
        assert last[..|here|] == here && last[q] == last[..|here|][q];
        assert here[q] == run[q - |states[i].offered|];
      }
    }

    /** Nor does its cursor wait for the next pass, unless a later channel brings a handoff
        of its own. */
    lemma {:induction false} OwnCursorStaysPast(states: seq<Tables>, i: nat, m: nat)
      requires AllContiguous(logs) && Pass(states) && i < m < |states| && ChannelsOf(me)[i] !in ChannelsOf(me)[i + 1..]
      requires From(LogOf(logs, ChannelsOf(me)[i]), At(states[i].cursors, ChannelsOf(me)[i])) < LogOf(logs, ChannelsOf(me)[i]).next
      requires forall j :: i < j < |ChannelsOf(me)| ==> NoHandoffs(LogOf(logs, ChannelsOf(me)[j]))
      ensures At(states[m].cursors, ChannelsOf(me)[i]) == LogOf(logs, ChannelsOf(me)[i]).next - 1
      decreases m
    {
      var mine := ChannelsOf(me);
      assert Drained(states[m - 1], states[m], mine[m - 1]);
      if m > i + 1 {
        OwnCursorStaysPast(states, i, m - 1);
        assert mine[i + 1..][m - 1 - i - 1] == mine[m - 1];
      }
    }

    ghost predicate NoHandoffs(log: Log) {
      forall k :: 0 <= k < |log.frames| ==> HandedBy(log.frames[k].envelope).None?
    }

    /** One pass: each of the hub's channels drained in its turn. */
    method IngestPending() returns (applied: nat, ghost states: seq<Tables>)
      requires AllContiguous(logs)
      modifies this
      ensures Pass(states) && states[0] == old(Now()) && states[|ChannelsOf(me)|] == Now()
      ensures Grown(old(rings), rings) && RowsAdvance(old(rows), rows) && Ingested(old(Now()), Now())
    {
      var channels := ChannelsOf(me);
      applied := 0;
      ghost var start := Now();
      states := [start];
      for i := 0 to |channels|
        invariant |states| == i + 1 && states[0] == start && states[i] == Now()
        invariant forall m :: 0 <= m < i ==> Drained(states[m], states[m + 1], channels[m])
        invariant Grown(start.rings, rings) && RowsAdvance(start.rows, rows)
      {
        var done := Drain(channels[i]);
        applied := applied + done;
        states := states + [Now()];
      }
      PassIngests(states, |channels|, ("", ""));
    }
  }
}
