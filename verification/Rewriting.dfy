/** The two ways history is rewritten: tool results replaced by notes, and a
    prefix replaced by a summary (agent/src/compact.rs). */
module Rewriting {
  import opened Conversation

  /** What a result's text is to be replaced with. */
  datatype Pruned = Pruned(id: string, content: string)

  /** The first replacement planned for a result, if there is one. */
  function Replacement(plan: seq<Pruned>, id: string): (r: Option<string>)
    ensures r.None? <==> forall i :: 0 <= i < |plan| ==> plan[i].id != id
    ensures r.Some? ==> exists i :: 0 <= i < |plan| && plan[i] == Pruned(id, r.value)
  {
    if plan == [] then None
    else if plan[0].id == id then Some(plan[0].content)
    else
      var r := Replacement(plan[1..], id);
      assert r.Some? ==> exists i :: 0 <= i < |plan[1..]| && plan[1..][i] == Pruned(id, r.value);
      assert forall i :: 0 <= i < |plan[1..]| ==> plan[i + 1] == plan[1..][i];
      r
  }

  /** Whether it failed is kept, and only its text is not. */
  function PruneBlock(b: Block, plan: seq<Pruned>): Block {
    if b.ToolResult? && Replacement(plan, b.id).Some?
    then b.(content := Replacement(plan, b.id).value)
    else b
  }

  function PruneBlocks(blocks: seq<Block>, plan: seq<Pruned>): seq<Block> {
    seq(|blocks|, i requires 0 <= i < |blocks| => PruneBlock(blocks[i], plan))
  }

  function PruneMessages(messages: seq<Message>, plan: seq<Pruned>): seq<Message> {
    seq(|messages|, i requires 0 <= i < |messages| =>
      messages[i].(blocks := PruneBlocks(messages[i].blocks, plan)))
  }

  /** Replaces the named results of every message, in place. */
  method ApplyPrune(messages: array<Message>, plan: seq<Pruned>)
    modifies messages
    ensures messages[..] == PruneMessages(old(messages[..]), plan)
  {
    for n := 0 to messages.Length
      invariant forall k :: 0 <= k < n ==>
        messages[k] == old(messages[k]).(blocks := PruneBlocks(old(messages[k]).blocks, plan))
      invariant forall k :: n <= k < messages.Length ==> messages[k] == old(messages[k])
    {
      var blocks := messages[n].blocks;
      for i := 0 to |blocks|
        invariant |blocks| == |old(messages[n]).blocks|
        invariant forall k :: 0 <= k < i ==> blocks[k] == PruneBlock(old(messages[n]).blocks[k], plan)
        invariant forall k :: i <= k < |blocks| ==> blocks[k] == old(messages[n]).blocks[k]
      {
        if blocks[i].ToolResult? {
          var found := Replacement(plan, blocks[i].id);
          if found.Some? {
            blocks := blocks[i := blocks[i].(content := found.value)];
          }
        }
      }
      assert blocks == PruneBlocks(old(messages[n]).blocks, plan);
      messages[n] := messages[n].(blocks := blocks);
    }
  }

  /** The last `keep` messages after a message of the summary, which joins the first of
      them if that is a user's. */
  function Summarise(messages: seq<Message>, summary: string, keep: nat): seq<Message> {
    var kept := if keep <= |messages| then messages[|messages| - keep..] else messages;
    if kept != [] && kept[0].role == User
    then [Message(User, [Text(summary)] + kept[0].blocks)] + kept[1..]
    else [Message(User, [Text(summary)])] + kept
  }

  /** A user's message that holds results. */
  predicate IsResults(m: Message) {
    m.role == User && exists i :: 0 <= i < |m.blocks| && m.blocks[i].ToolResult?
  }

  /** Where a conversation may be cut: never just before tool results. */
  predicate Boundary(messages: seq<Message>, upto: nat) {
    1 <= upto <= |messages| && (upto < |messages| ==> !IsResults(messages[upto]))
  }

  /** Pruning changes no role, call or answered id. */
  lemma {:induction false} PruneKeepsShape(blocks: seq<Block>, plan: seq<Pruned>)
    ensures CallsOf(PruneBlocks(blocks, plan)) == CallsOf(blocks)
    ensures ResultIds(PruneBlocks(blocks, plan)) == ResultIds(blocks)
  {
    if blocks != [] {
      PruneKeepsShape(blocks[1..], plan);
      assert PruneBlocks(blocks, plan)[1..] == PruneBlocks(blocks[1..], plan);
    }
  }
}
