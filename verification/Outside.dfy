/** What an agent deals with and cannot foresee: the upstream, the operator and the tools
    (agent/src/wire/mod.rs, agent/src/agent.rs). Each does as it likes, and each has a
    ledger that only dealing with it adds to. */
module Outside {
  import opened Conversation
  import opened Protocol
  import opened Requests

  datatype Permit = Allow | Deny(why: string) | Retract

  datatype Output = Output(content: string, isError: bool)

  /** A response the model is taken to give: no results among its blocks, and no two calls
      under one id. */
  predicate Plausible(c: Completion) {
    SpokenBy(Assistant, c.blocks) && Distinct(CallIds(CallsOf(c.blocks)))
  }

  function Again(requests: seq<Asking>, reply: Reply): seq<Asking>
    requires requests != []
  {
    var n := |requests| - 1;
    requests[..n] + [requests[n].(attempts := requests[n].attempts + [reply])]
  }

  /** What passes between an agent, at its depth among agents, and the operator and the tools
      about a call: what the operator ruled, and what a tool it was given to gave back. */
  datatype Dealing = Ruled(depth: nat, id: string, permit: Permit) | Gave(depth: nat, id: string, out: Output)

  predicate Allowed(dealings: seq<Dealing>, id: string) {
    exists k :: 0 <= k < |dealings| && Allows(dealings[k], id)
  }

  predicate Allows(d: Dealing, id: string) { d.Ruled? && d.id == id && d.permit == Allow }

  /** The dealings of one depth. */
  function At(dealings: seq<Dealing>, depth: nat): seq<Dealing> {
    if dealings == [] then []
    else
      var last := dealings[|dealings| - 1];
      At(dealings[..|dealings| - 1], depth) + (if last.depth == depth then [last] else [])
  }

  /** How many are of lesser depths. */
  function Shallow(dealings: seq<Dealing>, depth: nat): nat {
    if dealings == [] then 0
    else
      var last := dealings[|dealings| - 1];
      Shallow(dealings[..|dealings| - 1], depth) + (if last.depth < depth then 1 else 0)
  }

  lemma {:induction false} AtConcat(a: seq<Dealing>, b: seq<Dealing>, depth: nat)
    ensures At(a + b, depth) == At(a, depth) + At(b, depth)
  {
    if b == [] {
      assert a + b == a;
    } else {
      var before, d := b[..|b| - 1], b[|b| - 1];
      AtConcat(a, before, depth);
      assert a + b == (a + before) + [d] && b == before + [d];
      AtSnoc(a + before, d, depth);
      AtSnoc(before, d, depth);
      Assoc(At(a, depth), At(before, depth), if d.depth == depth then [d] else []);
    }
  }

  lemma {:induction false} AtSnoc(before: seq<Dealing>, d: Dealing, depth: nat)
    ensures At(before + [d], depth) == At(before, depth) + (if d.depth == depth then [d] else [])
  {
    assert (before + [d])[..|before|] == before;
  }

  lemma {:induction false} ShallowConcat(a: seq<Dealing>, b: seq<Dealing>, depth: nat)
    ensures Shallow(a + b, depth) == Shallow(a, depth) + Shallow(b, depth)
  {
    if b == [] {
      assert a + b == a;
    } else {
      var all, n := a + b, |b| - 1;
      ShallowConcat(a, b[..n], depth);
      assert all[..|all| - 1] == a + b[..n] && all[|all| - 1] == b[n];
    }
  }

  function Flat(lists: seq<seq<Dealing>>): seq<Dealing> {
    if lists == [] then [] else Flat(lists[..|lists| - 1]) + lists[|lists| - 1]
  }

  lemma {:induction false} FlatConcat(a: seq<seq<Dealing>>, b: seq<seq<Dealing>>)
    ensures Flat(a + b) == Flat(a) + Flat(b)
  {
    if b == [] {
      assert a + b == a;
    } else {
      var all, n := a + b, |b| - 1;
      FlatConcat(a, b[..n]);
      assert all[..|all| - 1] == a + b[..n] && all[|all| - 1] == b[n];
      Assoc(Flat(a), Flat(b[..n]), b[n]);
    }
  }

  lemma {:induction false} FlatOne(list: seq<Dealing>)
    ensures Flat([list]) == list
  {
    assert [list][..0] == [];
  }

  /** Dealings that are all deeper are none of a depth's own. */
  lemma {:induction false} DeeperIsNone(dealings: seq<Dealing>, depth: nat)
    requires Shallow(dealings, depth + 1) == 0
    ensures At(dealings, depth) == [] && Shallow(dealings, depth) == 0
  {
    if dealings != [] {
      DeeperIsNone(dealings[..|dealings| - 1], depth);
    }
  }

  /** One agent's world, which its subagents share. */
  class World {
    /** Every request the upstream saw, with every attempt at it. */
    ghost var requests: seq<Asking>
    ghost var dealings: seq<Dealing>
    /** The calls begun, whether given to a tool or to a subagent. */
    ghost var ran: seq<string>
    /** How often a cancel was seen, whoever looked. */
    ghost var cancels: nat

    constructor ()
      ensures requests == [] && dealings == [] && ran == [] && cancels == 0
    {
      requests, dealings, ran, cancels := [], [], [], 0;
    }

    /** One attempt at the upstream, the first of a new request or one more at the last. */
    method Complete(ghost first: bool, ghost main: bool, ghost depth: nat) returns (reply: Reply)
      requires !first ==> requests != []
      modifies this`requests, this`cancels
      ensures reply.Answer? ==> Plausible(reply.completion)
      ensures requests == if first then old(requests) + [Asking(main, depth, [reply])] else Again(old(requests), reply)
      ensures cancels == old(cancels) + (if reply.Cancel? then 1 else 0)
    {
      reply := *;
      if reply.Answer? && !Plausible(reply.completion) {
        reply := Cancel;
      }
      requests := if first then requests + [Asking(main, depth, [reply])] else Again(requests, reply);
      cancels := cancels + if reply.Cancel? then 1 else 0;
    }

    /** Whether the turn has been cancelled, for one who looks. */
    method Stopped() returns (stop: bool)
      modifies this`cancels
      ensures cancels == old(cancels) + (if stop then 1 else 0)
    {
      stop := *;
      cancels := cancels + if stop then 1 else 0;
    }

    /** Nothing was begun that the operator had not allowed. */
    ghost predicate Permitted()
      reads this`dealings, this`ran
    {
      forall i :: 0 <= i < |ran| ==> Allowed(dealings, ran[i])
    }

    lemma {:induction false} AllowedStays(more: seq<Dealing>)
      requires dealings <= more
      ensures forall id :: Allowed(dealings, id) ==> Allowed(more, id)
    {
      forall id | Allowed(dealings, id)
        ensures Allowed(more, id)
      {
        var k :| 0 <= k < |dealings| && Allows(dealings[k], id);
        assert more[k] == dealings[k];
      }
    }

    /** The operator asked about a call. */
    method Ask(id: string, ghost depth: nat) returns (permit: Permit)
      requires Permitted()
      modifies this`dealings, this`cancels
      ensures Permitted() && dealings == old(dealings) + [Ruled(depth, id, permit)]
      ensures permit == Allow ==> Allowed(dealings, id)
      ensures cancels == old(cancels) + (if permit.Retract? then 1 else 0)
    {
      permit := *;
      AllowedStays(dealings + [Ruled(depth, id, permit)]);
      dealings := dealings + [Ruled(depth, id, permit)];
      assert permit == Allow ==> Allows(dealings[|dealings| - 1], id);
      cancels := cancels + if permit.Retract? then 1 else 0;
    }

    /** A call begun. */
    ghost method Begin(id: string)
      requires Permitted() && Allowed(dealings, id)
      modifies this`ran
      ensures Permitted() && ran == old(ran) + [id]
    {
      ran := ran + [id];
    }

    /** A call given to its tool. */
    method Run(id: string, ghost depth: nat) returns (out: Output)
      requires Permitted() && Allowed(dealings, id)
      modifies this`ran, this`dealings
      ensures Permitted() && ran == old(ran) + [id] && dealings == old(dealings) + [Gave(depth, id, out)]
    {
      out := *;
      Begin(id);
      AllowedStays(dealings + [Gave(depth, id, out)]);
      dealings := dealings + [Gave(depth, id, out)];
    }
  }
}
