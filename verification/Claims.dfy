/** The hub's claims: one member acts on one version of a thing at a time
    (hub/src/store.rs, hub/src/routes.rs). Times are in seconds. */
module Claims {
  import opened Conversation

  datatype Claim = Claim(version: nat, holder: string, expiresAt: nat)

  datatype Outcome =
    | Granted(expiresAt: nat)
    | Held(holder: string, version: nat)
    | Stale(version: nat)

  /** A lapsed claim is remembered for a day. */
  const MEMORY_SECS := 24 * 60 * 60
  /** No grant lasts longer, in seconds. */
  const MAX_CLAIM_SECS := 600

  function Remembered(claims: map<string, Claim>, now: nat): map<string, Claim> {
    map k | k in claims && claims[k].expiresAt + MEMORY_SECS > now :: claims[k]
  }

  function Decide(claims: map<string, Claim>, key: string, version: nat, holder: string,
                  expiresAt: nat, now: nat): (map<string, Claim>, Outcome)
  {
    var kept := Remembered(claims, now);
    if key in kept && kept[key].version > version then (kept, Stale(kept[key].version))
    else if key in kept && kept[key].version == version && kept[key].holder != holder && kept[key].expiresAt > now
    then (kept, Held(kept[key].holder, kept[key].version))
    else (kept[key := Claim(version, holder, expiresAt)], Granted(expiresAt))
  }

  // --------------------------------------------------------------- the route

  datatype Request = Request(key: string, version: nat, holder: string, ttl: Option<nat>, now: nat)

  /** What a member asks for, within bounds; two minutes when it does not say. */
  function Ttl(ttl: Option<nat>, most: nat): (secs: nat)
    requires 1 <= most
    ensures 1 <= secs <= most
    ensures ttl.Some? && 1 <= ttl.value <= most ==> secs == ttl.value
    ensures ttl.None? && 120 <= most ==> secs == 120
  {
    var asked := if ttl.Some? then ttl.value else 120;
    if asked < 1 then 1 else if asked > most then most else asked
  }

  datatype Grant = Grant(key: string, version: nat, holder: string, expiresAt: nat, at: nat)

  /** The table, the grants it made and the time, after a run of requests whose
      time-to-live the route clamps to 1..`most`. */
  datatype History = History(claims: map<string, Claim>, grants: seq<Grant>, now: nat)

  function Serve(h: History, r: Request, most: nat): History
    requires 1 <= most
  {
    var expiresAt := r.now + Ttl(r.ttl, most);
    var (claims, outcome) := Decide(h.claims, r.key, r.version, r.holder, expiresAt, r.now);
    History(claims,
            if outcome.Granted? then h.grants + [Grant(r.key, r.version, r.holder, expiresAt, r.now)] else h.grants,
            r.now)
  }

  function Served(requests: seq<Request>, most: nat): History
    requires 1 <= most
  {
    if requests == [] then History(map[], [], 0)
    else
      var n := |requests| - 1;
      Serve(Served(requests[..n], most), requests[n], most)
  }

  predicate InTimeOrder(requests: seq<Request>) {
    forall i, j :: 0 <= i < j < |requests| ==> requests[i].now <= requests[j].now
  }

  /** Grant `i` is its member's most recent for that key and version. */
  predicate IsLatest(grants: seq<Grant>, i: nat)
    requires i < |grants|
  {
    forall j :: i < j < |grants| ==>
      !(grants[j].key == grants[i].key && grants[j].version == grants[i].version && grants[j].holder == grants[i].holder)
  }

  /** No two members' most recent grants of one version are both unexpired. */
  predicate Exclusive(grants: seq<Grant>, now: nat) {
    forall i, j :: 0 <= i < |grants| && 0 <= j < |grants| && Acts(grants, i, now) && Acts(grants, j, now) ==>
      (grants[i].key == grants[j].key && grants[i].version == grants[j].version ==>
        grants[i].holder == grants[j].holder)
  }

  /** Grant `i` is its member's most recent and has not expired. */
  predicate Acts(grants: seq<Grant>, i: nat, now: nat)
    requires i < |grants|
  {
    IsLatest(grants, i) && grants[i].expiresAt > now
  }

  /** A most recent, unexpired grant is in the table, or the table has moved past it. */
  predicate Backed(h: History, i: nat)
    requires i < |h.grants|
  {
    var g := h.grants[i];
    g.key in h.claims &&
    (h.claims[g.key].version > g.version || h.claims[g.key] == Claim(g.version, g.holder, g.expiresAt))
  }

  predicate Holds(h: History) {
    Exclusive(h.grants, h.now) &&
    forall i :: 0 <= i < |h.grants| ==>
      var g := h.grants[i];
      g.at <= h.now &&
      (if g.key in h.claims then g.expiresAt <= h.claims[g.key].expiresAt + MEMORY_SECS else g.expiresAt <= h.now) &&
      (Acts(h.grants, i, h.now) ==> Backed(h, i))
  }

  /** An old grant that acts after a request acted before it. */
  lemma {:induction false} ActedBefore(h: History, r: Request, most: nat, i: nat)
    requires 1 <= most && h.now <= r.now && i < |h.grants|
    ensures var after := Serve(h, r, most);
      i < |after.grants| && after.grants[i] == h.grants[i] &&
      (Acts(after.grants, i, r.now) ==> Acts(h.grants, i, h.now))
  {
    var after := Serve(h, r, most);
    assert forall j :: 0 <= j < |h.grants| ==> after.grants[j] == h.grants[j];
  }

  /** A new grant meets no other member's. */
  lemma {:induction false} GrantMeetsNone(h: History, r: Request, most: nat, i: nat)
    requires 1 <= most && Holds(h) && h.now <= r.now && i < |h.grants| && |Serve(h, r, most).grants| > |h.grants|
    requires Acts(h.grants, i, h.now) && h.grants[i].expiresAt > r.now
    requires h.grants[i].key == r.key && h.grants[i].version == r.version
    ensures h.grants[i].holder == r.holder
  {
    assert Backed(h, i);
  }

  lemma {:induction false} ServeExcludes(h: History, r: Request, most: nat)
    requires 1 <= most && Holds(h) && h.now <= r.now
    ensures Exclusive(Serve(h, r, most).grants, r.now)
  {
    var after := Serve(h, r, most);
    forall i, j | 0 <= i < |after.grants| && 0 <= j < |after.grants| && Acts(after.grants, i, r.now) && Acts(after.grants, j, r.now)
      ensures after.grants[i].key == after.grants[j].key && after.grants[i].version == after.grants[j].version ==>
        after.grants[i].holder == after.grants[j].holder
    {
      if i < |h.grants| {
        ActedBefore(h, r, most, i);
      }
      if j < |h.grants| {
        ActedBefore(h, r, most, j);
      }
      if after.grants[i].key == after.grants[j].key && after.grants[i].version == after.grants[j].version {
        if i < |h.grants| <= j {
          GrantMeetsNone(h, r, most, i);
        }
        if j < |h.grants| <= i {
          GrantMeetsNone(h, r, most, j);
        }
      }
    }
  }

  lemma {:induction false} ServeHolds(h: History, r: Request, most: nat)
    requires 1 <= most <= MEMORY_SECS + 1 && Holds(h) && h.now <= r.now
    requires forall i :: 0 <= i < |h.grants| ==> h.grants[i].expiresAt <= h.grants[i].at + most
    ensures Holds(Serve(h, r, most))
    ensures var after := Serve(h, r, most);
      forall i :: 0 <= i < |after.grants| ==> after.grants[i].expiresAt <= after.grants[i].at + most
  {
    var after := Serve(h, r, most);
    ServeExcludes(h, r, most);
    forall i | 0 <= i < |after.grants|
      ensures var g := after.grants[i];
        g.at <= after.now &&
        (if g.key in after.claims then g.expiresAt <= after.claims[g.key].expiresAt + MEMORY_SECS else g.expiresAt <= after.now) &&
        (Acts(after.grants, i, after.now) ==> Backed(after, i))
    {
      if i < |h.grants| {
        ActedBefore(h, r, most, i);
        if |after.grants| > |h.grants| {
          assert after.grants[|h.grants|].key == r.key;
        }
      }
    }
  }

  lemma {:induction false} ServedHolds(requests: seq<Request>, most: nat)
    requires 1 <= most <= MEMORY_SECS + 1 && InTimeOrder(requests)
    ensures var h := Served(requests, most);
      Holds(h) && (forall i :: 0 <= i < |h.grants| ==> h.grants[i].expiresAt <= h.grants[i].at + most) &&
      (requests != [] ==> h.now == requests[|requests| - 1].now) && (requests == [] ==> h.now == 0)
  {
    if requests != [] {
      var n := |requests| - 1;
      ServedHolds(requests[..n], most);
      if n > 0 {
        assert requests[n - 1].now <= requests[n].now;
      }
      ServeHolds(Served(requests[..n], most), requests[n], most);
    }
  }

  /** A grant still unexpired later was unexpired when last looked at. */
  lemma {:induction false} HeldByOne(requests: seq<Request>, most: nat, now: nat)
    requires 1 <= most <= MEMORY_SECS + 1 && InTimeOrder(requests)
    requires Served(requests, most).now <= now
    ensures Exclusive(Served(requests, most).grants, now)
  {
    ServedHolds(requests, most);
    var h := Served(requests, most);
    assert forall i :: 0 <= i < |h.grants| && Acts(h.grants, i, now) ==> Acts(h.grants, i, h.now);
  }

  /** The run in which a clamp that is too long lets two members act on one version:
      the first is granted version 1 for all of it, version 2 comes and goes and is
      forgotten, and version 1 is granted again. */
  function Forgetful(most: nat): seq<Request> {
    [Request("k", 1, "a", Some(most), 0), Request("k", 2, "b", Some(1), 0),
     Request("k", 1, "c", Some(most), MEMORY_SECS + 1)]
  }

  lemma {:induction false} ForgetfulRun(most: nat)
    requires most > MEMORY_SECS + 1
    ensures InTimeOrder(Forgetful(most))
    ensures Served(Forgetful(most), most).grants ==
      [Grant("k", 1, "a", most, 0), Grant("k", 2, "b", 1, 0), Grant("k", 1, "c", MEMORY_SECS + 1 + most, MEMORY_SECS + 1)]
  {
    var rs := Forgetful(most);
    var one, two := rs[..2][..1], rs[..2];
    assert rs[..2] == [rs[0], rs[1]] && one == [rs[0]] && one[..0] == [];
    assert Served(one, most) == History(map["k" := Claim(1, "a", most)], [Grant("k", 1, "a", most, 0)], 0);
    assert Served(two, most) == History(map["k" := Claim(2, "b", 1)],
      [Grant("k", 1, "a", most, 0), Grant("k", 2, "b", 1, 0)], 0);
  }

  /** After this run of requests, and at every later time, claims exclude each other. */
  ghost predicate ExcludesIn(requests: seq<Request>, most: nat)
    requires 1 <= most
  {
    InTimeOrder(requests) ==>
      forall now: nat :: Served(requests, most).now <= now ==> Exclusive(Served(requests, most).grants, now)
  }

  lemma {:induction false} ForgetfulShares(most: nat)
    requires most > MEMORY_SECS + 1
    ensures !ExcludesIn(Forgetful(most), most)
  {
    ForgetfulRun(most);
    var h := Served(Forgetful(most), most);
    assert h.now == MEMORY_SECS + 1;
    assert Acts(h.grants, 0, h.now) && Acts(h.grants, 2, h.now);
    assert h.grants[0].holder[0] != h.grants[2].holder[0];
    assert !Exclusive(h.grants, h.now);
  }

  /** Claims exclude each other over every run and at every later time exactly when no
      claim may be held longer than a lapsed one is remembered, plus a second. */
  lemma {:induction false} ExclusionIffClamped(most: nat)
    requires 1 <= most
    ensures most <= MEMORY_SECS + 1 <==> forall requests: seq<Request> :: ExcludesIn(requests, most)
  {
    if most <= MEMORY_SECS + 1 {
      forall requests: seq<Request>
        ensures ExcludesIn(requests, most)
      {
        if InTimeOrder(requests) {
          forall now: nat | Served(requests, most).now <= now
            ensures Exclusive(Served(requests, most).grants, now)
          {
            HeldByOne(requests, most, now);
          }
        }
      }
    } else {
      ForgetfulShares(most);
    }
  }

  /** The hub's own clamp is well within that. */
  lemma {:induction false} LeasesExclude(requests: seq<Request>, now: nat)
    requires InTimeOrder(requests) && Served(requests, MAX_CLAIM_SECS).now <= now
    ensures Exclusive(Served(requests, MAX_CLAIM_SECS).grants, now)
  {
    HeldByOne(requests, MAX_CLAIM_SECS, now);
  }

  // ------------------------------------------------------------- versions

  /** The table still knows of grant `i`'s version or a later one, unless a day has
      gone by since it was made. */
  predicate Known(h: History, i: nat)
    requires i < |h.grants|
  {
    var g := h.grants[i];
    (g.key in h.claims && g.version <= h.claims[g.key].version && g.at < h.claims[g.key].expiresAt) ||
    g.at + MEMORY_SECS < h.now
  }

  lemma {:induction false} StaysKnown(h: History, r: Request, most: nat, i: nat)
    requires 1 <= most && i < |h.grants| && Known(h, i) && h.grants[i].at <= h.now <= r.now
    ensures var after := Serve(h, r, most);
      after.grants[i] == h.grants[i] && Known(after, i) && after.grants[i].at <= after.now
  {
  }

  lemma {:induction false} ServedKnown(requests: seq<Request>, most: nat)
    requires 1 <= most && InTimeOrder(requests)
    ensures var h := Served(requests, most);
      (forall i :: 0 <= i < |h.grants| ==> Known(h, i) && h.grants[i].at <= h.now) &&
      h.now == (if requests == [] then 0 else requests[|requests| - 1].now)
  {
    if requests != [] {
      var n := |requests| - 1;
      ServedKnown(requests[..n], most);
      if n > 0 {
        assert requests[n - 1].now <= requests[n].now;
      }
      var h, after := Served(requests[..n], most), Served(requests, most);
      forall i | 0 <= i < |after.grants|
        ensures Known(after, i) && after.grants[i].at <= after.now
      {
        if i < |h.grants| {
          StaysKnown(h, requests[n], most, i);
        }
      }
    }
  }

  /** No older version of a key is granted after a newer one, not even to its own
      holder, unless the newer grant is more than a day old. */
  lemma {:induction false} VersionsOnlyAdvance(requests: seq<Request>, most: nat, i: nat, j: nat)
    requires 1 <= most && InTimeOrder(requests) && i < j < |Served(requests, most).grants|
    ensures var grants := Served(requests, most).grants;
      grants[i].key == grants[j].key && grants[j].version < grants[i].version ==>
        grants[i].at + MEMORY_SECS < grants[j].at
  {
    var n := |requests| - 1;
    var h := Served(requests[..n], most);
    if j < |h.grants| {
      VersionsOnlyAdvance(requests[..n], most, i, j);
    } else {
      ServedKnown(requests[..n], most);
      ServedKnown(requests, most);
      assert Known(h, i);
    }
  }

  // ------------------------------------------------------------- the table itself

  /** The claims table, with the history of what the route asked of it: the requests it has
      served, the grants it made, and the time. */
  class Table {
    var claims: map<string, Claim>
    ghost var requests: seq<Request>

    /** The table is where its requests lead, and no two members hold one version. */
    ghost predicate Valid()
      reads this
    {
      Sound(requests, claims)
    }

    ghost function History(): History
      reads this
    {
      Served(requests, MAX_CLAIM_SECS)
    }

    constructor ()
      ensures Valid() && requests == []
    {
      claims, requests := map[], [];
      new;
      ServedHolds(requests, MAX_CLAIM_SECS);
    }

    /** The decision, on what is remembered of the key. */
    method Consider(key: string, version: nat, holder: string, expiresAt: nat, now: nat) returns (outcome: Outcome)
      modifies this`claims
      ensures (claims, outcome) == Decide(old(claims), key, version, holder, expiresAt, now)
    {
      claims := map k | k in claims && claims[k].expiresAt + MEMORY_SECS > now :: claims[k];
      if key in claims && claims[key].version > version {
        return Stale(claims[key].version);
      }
      if key in claims && claims[key].version == version && claims[key].holder != holder && claims[key].expiresAt > now {
        return Held(claims[key].holder, claims[key].version);
      }
      claims := claims[key := Claim(version, holder, expiresAt)];
      return Granted(expiresAt);
    }

    /** One member's request. Whatever was asked before, after it no two members' most recent
        grants of one version are both unexpired, now or later; who is told that it is held
        is told of a live grant of that version to another; who is told that it is stale
        asked for less than a version granted before; and a grant lasts as long as asked,
        within the bounds. */
    method Ask(r: Request) returns (outcome: Outcome)
      requires Valid() && History().now <= r.now
      modifies this
      ensures Valid() && requests == old(requests) + [r]
      ensures ExclusiveFrom(History().grants, r.now)
      ensures FairlyTold(old(History().grants), History().grants, r, outcome)
    {
      ghost var before := claims;
      outcome := Consider(r.key, r.version, r.holder, r.now + Ttl(r.ttl, MAX_CLAIM_SECS), r.now);
      Asked(requests, before, r, claims, outcome);
      requests := requests + [r];
    }
  }

  function GrantFor(r: Request): Grant {
    Grant(r.key, r.version, r.holder, r.now + Ttl(r.ttl, MAX_CLAIM_SECS), r.now)
  }

  /** Another member was granted this version, and that grant has not expired. */
  predicate HeldFrom(grants: seq<Grant>, r: Request, holder: string) {
    holder != r.holder &&
    exists i :: 0 <= i < |grants| && grants[i].key == r.key && grants[i].version == r.version &&
      grants[i].holder == holder && grants[i].expiresAt > r.now
  }

  /** A later version of the key was granted. */
  predicate GrantedAhead(grants: seq<Grant>, r: Request) {
    exists i :: 0 <= i < |grants| && grants[i].key == r.key && grants[i].version > r.version
  }

  /** A granted claim lasts the time asked for, brought within the bounds; one told
      that it is held is told of a live grant of that version to another; and one told that
      it is stale asked for less than a version granted before. */
  predicate FairlyTold(before: seq<Grant>, after: seq<Grant>, r: Request, outcome: Outcome) {
    match outcome
    case Granted(expiresAt) => after == before + [GrantFor(r)] && expiresAt == GrantFor(r).expiresAt
    case Held(holder, version) => after == before && version == r.version && HeldFrom(before, r, holder)
    case Stale(version) => after == before && version > r.version && GrantedAhead(before, r)
  }

  lemma {:induction false} ToldFairly(before: seq<Request>, r: Request, outcome: Outcome)
    requires var h := Served(before, MAX_CLAIM_SECS);
      outcome == Decide(h.claims, r.key, r.version, r.holder, r.now + Ttl(r.ttl, MAX_CLAIM_SECS), r.now).1
    ensures FairlyTold(Served(before, MAX_CLAIM_SECS).grants, Serve(Served(before, MAX_CLAIM_SECS), r, MAX_CLAIM_SECS).grants, r, outcome)
  {
    BackedByGrants(before);
    var h := Served(before, MAX_CLAIM_SECS);
    assert Based(h, r.key);
  }

  /** Everything in the table was granted. */
  predicate Based(h: History, key: string) {
    key in h.claims ==>
      exists i :: 0 <= i < |h.grants| && h.grants[i].key == key && h.grants[i].version == h.claims[key].version &&
        h.grants[i].holder == h.claims[key].holder && h.grants[i].expiresAt == h.claims[key].expiresAt
  }

  lemma {:induction false} ServeIsBased(h: History, r: Request, key: string)
    requires Based(h, key)
    ensures Based(Serve(h, r, MAX_CLAIM_SECS), key)
  {
    var after := Serve(h, r, MAX_CLAIM_SECS);
    if key in after.claims {
      if |after.grants| > |h.grants| && key == r.key {
        assert after.grants[|h.grants|] == GrantFor(r);
      } else {
        var i :| 0 <= i < |h.grants| && h.grants[i].key == key && h.grants[i].version == h.claims[key].version &&
          h.grants[i].holder == h.claims[key].holder && h.grants[i].expiresAt == h.claims[key].expiresAt;
        assert after.grants[i] == h.grants[i];
      }
    }
  }

  lemma {:induction false} BackedByGrants(requests: seq<Request>)
    ensures forall key :: Based(Served(requests, MAX_CLAIM_SECS), key)
  {
    if requests != [] {
      var n := |requests| - 1;
      BackedByGrants(requests[..n]);
      forall key ensures Based(Served(requests, MAX_CLAIM_SECS), key) {
        ServeIsBased(Served(requests[..n], MAX_CLAIM_SECS), requests[n], key);
      }
    }
  }

  /** The requests are in order of time, and the table is where they lead. */
  ghost predicate Sound(requests: seq<Request>, claims: map<string, Claim>) {
    InTimeOrder(requests) && Served(requests, MAX_CLAIM_SECS).claims == claims && Holds(Served(requests, MAX_CLAIM_SECS))
  }

  /** Exclusive now and at every later time. */
  ghost predicate ExclusiveFrom(grants: seq<Grant>, from: nat) {
    forall now: nat :: from <= now ==> Exclusive(grants, now)
  }

  /** One more request keeps all that, and what it is told is fair. */
  lemma {:induction false} Asked(before: seq<Request>, table: map<string, Claim>, r: Request, claims: map<string, Claim>, outcome: Outcome)
    requires Sound(before, table) && Served(before, MAX_CLAIM_SECS).now <= r.now
    requires (claims, outcome) == Decide(table, r.key, r.version, r.holder, r.now + Ttl(r.ttl, MAX_CLAIM_SECS), r.now)
    ensures Sound(before + [r], claims) && ExclusiveFrom(Served(before + [r], MAX_CLAIM_SECS).grants, r.now)
    ensures FairlyTold(Served(before, MAX_CLAIM_SECS).grants, Served(before + [r], MAX_CLAIM_SECS).grants, r, outcome)
  {
    OneMoreInOrder(before, r);
    ToldFairly(before, r, outcome);
    var after := before + [r];
    ServedHolds(after, MAX_CLAIM_SECS);
    forall now: nat | r.now <= now
      ensures Exclusive(Served(after, MAX_CLAIM_SECS).grants, now)
    {
      HeldByOne(after, MAX_CLAIM_SECS, now);
    }
  }

  lemma {:induction false} OneMoreInOrder(before: seq<Request>, r: Request)
    requires InTimeOrder(before) && Served(before, MAX_CLAIM_SECS).now <= r.now
    ensures InTimeOrder(before + [r])
    ensures Served(before + [r], MAX_CLAIM_SECS) == Serve(Served(before, MAX_CLAIM_SECS), r, MAX_CLAIM_SECS)
  {
    assert (before + [r])[..|before|] == before;
    LastIsLatest(before, r);
  }

  lemma {:induction false} LastIsLatest(before: seq<Request>, r: Request)
    requires InTimeOrder(before) && Served(before, MAX_CLAIM_SECS).now <= r.now
    ensures forall i :: 0 <= i < |before| ==> before[i].now <= r.now
  {
    ServedHolds(before, MAX_CLAIM_SECS);
  }
}
