/** The neutral conversation the loop reads and writes (agent/src/conversation.rs).

    Text is a byte string: one `char` of a Dafny `string` stands for one byte of
    the UTF-8 text, so `|s|` is the length the harness measures. */
module Conversation {

  datatype Option<+T> = None | Some(value: T)

  /** A parsed JSON value. A number keeps its printed form and whether it is an integer. */
  datatype Json =
    | Null
    | Bool(flag: bool)
    | Number(repr: string, integral: bool)
    | Str(text: string)
    | Arr(items: seq<Json>)
    | Obj(members: map<string, Json>)

  /** Indexing as the harness does it: anything absent reads as null. */
  function Get(j: Json, key: string): Json {
    if j.Obj? && key in j.members then j.members[key] else Null
  }

  /** A tool call's arguments: the value, and the compact text it prints as. */
  datatype Input = Input(json: Json, printed: string)

  datatype Role = User | Assistant

  datatype Block =
    | Text(text: string)
    | ToolUse(id: string, name: string, input: Input)
    | ToolResult(id: string, content: string, isError: bool)
    | Opaque(state: string)

  datatype Message = Message(role: Role, blocks: seq<Block>)

  datatype Call = Call(id: string, name: string, input: Input)

  /** The tool calls among `blocks`, in order. */
  function CallsOf(blocks: seq<Block>): seq<Call> {
    if blocks == [] then []
    else
      (match blocks[0]
       case ToolUse(id, name, input) => [Call(id, name, input)]
       case _ => []) + CallsOf(blocks[1..])
  }

  /** The ids the tool results among `blocks` answer, in order. */
  function ResultIds(blocks: seq<Block>): seq<string> {
    if blocks == [] then []
    else (if blocks[0].ToolResult? then [blocks[0].id] else []) + ResultIds(blocks[1..])
  }

  function CallIds(calls: seq<Call>): (ids: seq<string>)
    ensures |ids| == |calls|
    ensures forall i :: 0 <= i < |ids| ==> ids[i] == calls[i].id
  {
    seq(|calls|, i requires 0 <= i < |calls| => calls[i].id)
  }

  predicate Distinct<T(==)>(s: seq<T>) {
    forall i, j :: 0 <= i < j < |s| ==> s[i] != s[j]
  }

  /** The calls a message makes: only the model's own messages make calls. */
  function CallsIn(m: Message): seq<Call> {
    if m.role == Assistant then CallsOf(m.blocks) else []
  }

  lemma {:induction false} CallsOfFirst(b: Block, rest: seq<Block>)
    ensures CallsOf([b] + rest) == CallsOf([b]) + CallsOf(rest)
  {
    assert ([b] + rest)[1..] == rest && [b][1..] == [];
  }

  lemma {:induction false} ResultIdsFirst(b: Block, rest: seq<Block>)
    ensures ResultIds([b] + rest) == ResultIds([b]) + ResultIds(rest)
  {
    assert ([b] + rest)[1..] == rest && [b][1..] == [];
  }

  lemma {:induction false} ResultIdsConcat(a: seq<Block>, b: seq<Block>)
    ensures ResultIds(a + b) == ResultIds(a) + ResultIds(b)
  {
    if a == [] {
      assert a + b == b;
    } else {
      ResultIdsConcat(a[1..], b);
      ResultIdsFirst(a[0], a[1..] + b);
      ResultIdsFirst(a[0], a[1..]);
      assert a + b == [a[0]] + (a[1..] + b) && a == [a[0]] + a[1..];
      Assoc(ResultIds([a[0]]), ResultIds(a[1..]), ResultIds(b));
    }
  }

  lemma {:induction false} CallsOfConcat(a: seq<Block>, b: seq<Block>)
    ensures CallsOf(a + b) == CallsOf(a) + CallsOf(b)
  {
    if a == [] {
      assert a + b == b;
    } else {
      CallsOfConcat(a[1..], b);
      CallsOfFirst(a[0], a[1..] + b);
      CallsOfFirst(a[0], a[1..]);
      assert a + b == [a[0]] + (a[1..] + b) && a == [a[0]] + a[1..];
      Assoc(CallsOf([a[0]]), CallsOf(a[1..]), CallsOf(b));
    }
  }

  lemma {:induction false} NoResultIds(blocks: seq<Block>)
    requires forall i :: 0 <= i < |blocks| ==> !blocks[i].ToolResult?
    ensures ResultIds(blocks) == []
  {
    if blocks != [] {
      NoResultIds(blocks[1..]);
    }
  }

  lemma {:induction false} NoCallsOf(blocks: seq<Block>)
    requires forall i :: 0 <= i < |blocks| ==> !blocks[i].ToolUse?
    ensures CallsOf(blocks) == []
  {
    if blocks != [] {
      NoCallsOf(blocks[1..]);
    }
  }

  /** However they are put together, three stretches make one. */
  lemma {:induction false} Assoc<T>(x: seq<T>, y: seq<T>, z: seq<T>)
    ensures x + (y + z) == x + y + z
  {
  }
}
