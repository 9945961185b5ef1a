/** Server-sent events decoded as their bytes arrive (agent/src/sse.rs; event streams as in
    section 9.2.6 of the WHATWG HTML Standard, as far as this decoder reads them). Bytes are
    characters, and the replacement of malformed UTF-8 within a line is a parameter. */
module Sse {
  import opened Conversation
  import opened Bytes

  datatype Frame = Data(text: string) | Done

  /** What the decoder holds between chunks, and the frames it has given so far. */
  datatype Progress = Progress(buffer: string, pending: Option<string>, frames: seq<Frame>)

  const START := Progress("", None, [])

  function Trimmed(line: string): string
    decreases |line|
  {
    if line != "" && (line[|line| - 1] == '\r' || line[|line| - 1] == '\n') then Trimmed(line[..|line| - 1]) else line
  }

  /** What one complete line does: hold more data, or give what is held. */
  function TakeLine(p: Progress, line: string): Progress {
    var data := StripPrefix(line, "data:");
    if data.Some? then
      var text := if StripPrefix(data.value, " ").Some? then data.value[1..] else data.value;
      p.(pending := Some(if p.pending.Some? then p.pending.value + "\n" + text else text))
    else if line == "" && p.pending.Some? then
      p.(pending := None, frames := p.frames + [if p.pending.value == "[DONE]" then Done else Data(p.pending.value)])
    else p
  }

  /** One byte: a line ends, or grows. */
  function TakeByte(lossy: string -> string, p: Progress, b: char): Progress {
    if b == '\n' then TakeLine(p.(buffer := ""), Trimmed(lossy(p.buffer + [b])))
    else p.(buffer := p.buffer + [b])
  }

  function Take(lossy: string -> string, p: Progress, bytes: string): Progress {
    if bytes == "" then p else TakeByte(lossy, Take(lossy, p, bytes[..|bytes| - 1]), bytes[|bytes| - 1])
  }

  lemma {:induction false} TakeConcat(lossy: string -> string, p: Progress, one: string, two: string)
    ensures Take(lossy, p, one + two) == Take(lossy, Take(lossy, p, one), two)
  {
    if two == "" {
      assert one + two == one;
    } else {
      var n := |two| - 1;
      assert (one + two)[..|one + two| - 1] == one + two[..n];
      TakeConcat(lossy, p, one, two[..n]);
    }
  }

  lemma {:induction false} TakeUnended(lossy: string -> string, p: Progress, bytes: string)
    requires '\n' !in bytes
    ensures Take(lossy, p, bytes) == p.(buffer := p.buffer + bytes)
  {
    if bytes == "" {
      assert p.buffer + bytes == p.buffer;
    } else {
      var n := |bytes| - 1;
      TakeUnended(lossy, p, bytes[..n]);
      assert p.buffer + bytes == p.buffer + bytes[..n] + [bytes[n]];
    }
  }

  /** A whole line at once does what its bytes do one at a time. */
  lemma {:induction false} TakeWholeLine(lossy: string -> string, p: Progress, line: string, rest: string)
    requires '\n' !in line && p.buffer == ""
    ensures Take(lossy, p, line + "\n" + rest) == Take(lossy, TakeLine(p, Trimmed(lossy(line + "\n"))), rest)
  {
    TakeConcat(lossy, p, line + "\n", rest);
    TakeConcat(lossy, p, line, "\n");
    TakeUnended(lossy, p, line);
    assert "" + line == line;
    var q := p.(buffer := line);
    assert "\n"[..0] == "";
    assert Take(lossy, q, "\n") == TakeByte(lossy, q, '\n');
    assert q.(buffer := "") == p;
  }

  /** What was waiting for its line's end could as well come with the rest. */
  lemma {:induction false} TakeResumes(lossy: string -> string, p: Progress, chunk: string)
    requires '\n' !in p.buffer
    ensures Take(lossy, p.(buffer := ""), p.buffer + chunk) == Take(lossy, p, chunk)
  {
    TakeUnended(lossy, p.(buffer := ""), p.buffer);
    assert "" + p.buffer == p.buffer;
    TakeConcat(lossy, p.(buffer := ""), p.buffer, chunk);
  }

  lemma {:induction false} TakeFirstLine(lossy: string -> string, p: Progress, bytes: string, at: nat)
    requires p.buffer == "" && at < |bytes| && bytes[at] == '\n' && '\n' !in bytes[..at]
    ensures Take(lossy, p, bytes) == Take(lossy, TakeLine(p, Trimmed(lossy(bytes[..at + 1]))), bytes[at + 1..])
  {
    assert bytes == bytes[..at] + "\n" + bytes[at + 1..] && bytes[..at + 1] == bytes[..at] + "\n";
    TakeWholeLine(lossy, p, bytes[..at], bytes[at + 1..]);
  }

  class Decoder {
    const lossy: string -> string
    var buffer: string
    var pending: Option<string>

    constructor (lossy: string -> string)
      ensures this.lossy == lossy && buffer == "" && pending == None
    {
      this.lossy, buffer, pending := lossy, "", None;
    }

    /** Gives every frame the chunk completes. What waits for the next chunk is what the
        bytes themselves leave, wherever they are cut. */
    method Push(chunk: string) returns (out: seq<Frame>)
      requires '\n' !in buffer
      modifies this
      ensures '\n' !in buffer
      ensures Progress(buffer, pending, out) == Take(lossy, Progress(old(buffer), old(pending), []), chunk)
    {
      ghost var start := Progress(buffer, pending, []);
      buffer := buffer + chunk;
      out := [];
      TakeResumes(lossy, start, chunk);
      while '\n' in buffer
        invariant Take(lossy, Progress("", pending, out), buffer) == Take(lossy, start, chunk)
        decreases |buffer|
      {
        var at := Position(buffer);
        ghost var p := Progress("", pending, out);
        TakeFirstLine(lossy, p, buffer, at);
        var line := Trimmed(lossy(buffer[..at + 1]));
        buffer := buffer[at + 1..];
        var data := StripPrefix(line, "data:");
        if data.Some? {
          var text := if StripPrefix(data.value, " ").Some? then data.value[1..] else data.value;
          match pending {
            case Some(held) => pending := Some(held + "\n" + text);
            case None => pending := Some(text);
          }
        } else if line == "" {
          if pending.Some? {
            var held := pending.value;
            pending := None;
            out := out + [if held == "[DONE]" then Done else Data(held)];
          }
        }
        assert Progress("", pending, out) == TakeLine(p, line);
      }
      TakeUnended(lossy, Progress("", pending, out), buffer);
      assert "" + buffer == buffer;
    }
  }

  method Position(buffer: string) returns (at: nat)
    requires '\n' in buffer
    ensures at < |buffer| && buffer[at] == '\n' && '\n' !in buffer[..at]
  {
    at := 0;
    while buffer[at] != '\n'
      invariant at < |buffer| && '\n' !in buffer[..at]
      invariant '\n' in buffer[at..]
      decreases |buffer| - at
    {
      assert buffer[at..] == [buffer[at]] + buffer[at + 1..];
      assert buffer[..at + 1] == buffer[..at] + [buffer[at]];
      at := at + 1;
    }
  }

  // --------------------------------------------------------------- chunks

  function Concat(chunks: seq<string>): string {
    if chunks == [] then "" else Concat(chunks[..|chunks| - 1]) + chunks[|chunks| - 1]
  }

  /** A decoder that has given some frames and is pushed one more chunk: its next state
      and all the frames so far. */
  function Pushed(lossy: string -> string, p: Progress, chunk: string): Progress {
    var q := Take(lossy, p.(frames := []), chunk);
    q.(frames := p.frames + q.frames)
  }

  function PushedAll(lossy: string -> string, chunks: seq<string>): Progress {
    if chunks == [] then START
    else Pushed(lossy, PushedAll(lossy, chunks[..|chunks| - 1]), chunks[|chunks| - 1])
  }

  /** Frames already given do not change what comes. */
  lemma {:induction false} FramesOnlyAppend(lossy: string -> string, p: Progress, chunk: string)
    ensures Pushed(lossy, p, chunk) == Take(lossy, p, chunk)
  {
    if chunk == "" {
      assert p.frames + [] == p.frames;
    } else {
      var n := |chunk| - 1;
      FramesOnlyAppend(lossy, p, chunk[..n]);
      var q := Take(lossy, p.(frames := []), chunk[..n]);
      var r := TakeByte(lossy, q, chunk[n]);
      assert Take(lossy, p.(frames := []), chunk) == r;
      if |r.frames| > |q.frames| {
        assert p.frames + r.frames == p.frames + q.frames + [r.frames[|q.frames|]];
      }
    }
  }

  /** However a stream is cut into chunks, the frames and the decoder's state are those
      of the whole stream pushed at once. */
  lemma {:induction false} ChunkingDoesNotMatter(lossy: string -> string, chunks: seq<string>)
    ensures PushedAll(lossy, chunks) == Pushed(lossy, START, Concat(chunks)) == Take(lossy, START, Concat(chunks))
  {
    FramesOnlyAppend(lossy, START, Concat(chunks));
    if chunks != [] {
      var n := |chunks| - 1;
      ChunkingDoesNotMatter(lossy, chunks[..n]);
      FramesOnlyAppend(lossy, PushedAll(lossy, chunks[..n]), chunks[n]);
      TakeConcat(lossy, START, Concat(chunks[..n]), chunks[n]);
    }
  }

  // --------------------------------------------------------------- meaning

  /** A line of an event as a server may send it: data, with a space after the colon or
      without, or a comment or another field; and ended by a line feed, with a carriage
      return before it or without. */
  datatype Line = Line(kind: Kind, text: string, returned: bool)
  datatype Kind = Spaced | Unspaced | Other

  predicate Valid(l: Line) {
    '\n' !in l.text && (l.text != "" ==> l.text[|l.text| - 1] != '\r') &&
    match l.kind
    case Spaced => true
    case Unspaced => l.text == "" || l.text[0] != ' '
    case Other => l.text != "" && StripPrefix(l.text, "data:").None?
  }

  function Start(l: Line): string {
    match l.kind
    case Spaced => "data: " + l.text
    case Unspaced => "data:" + l.text
    case Other => l.text
  }

  function End(returned: bool): string {
    if returned then "\r" else ""
  }

  function Sent(lines: seq<Line>): string {
    if lines == [] then ""
    else
      var last := lines[|lines| - 1];
      Sent(lines[..|lines| - 1]) + (Start(last) + End(last.returned) + "\n")
  }

  /** The text of its data lines, line by line. */
  function DataOf(lines: seq<Line>): seq<string> {
    if lines == [] then []
    else
      var last := lines[|lines| - 1];
      DataOf(lines[..|lines| - 1]) + (if last.kind.Other? then [] else [last.text])
  }

  function Joined(lines: seq<string>): string
    requires lines != []
  {
    if |lines| == 1 then lines[0] else Joined(lines[..|lines| - 1]) + "\n" + lines[|lines| - 1]
  }

  /** What is held once these lines of data have come. */
  function Holding(lines: seq<string>): Option<string> {
    if lines == [] then None else Some(Joined(lines))
  }

  /** And once one more line has. */
  function Held(pending: Option<string>, l: Line): Option<string> {
    if l.kind.Other? then pending
    else Some(if pending.Some? then pending.value + "\n" + l.text else l.text)
  }

  lemma {:induction false} HoldingMore(lines: seq<Line>)
    requires lines != []
    ensures Holding(DataOf(lines)) == Held(Holding(DataOf(lines[..|lines| - 1])), lines[|lines| - 1])
  {
    var before, l := DataOf(lines[..|lines| - 1]), lines[|lines| - 1];
    if l.kind.Other? {
      assert before + [] == before;
    } else {
      assert DataOf(lines) == before + [l.text] && (before + [l.text])[..|before|] == before;
    }
  }

  lemma {:induction false} TrimmedIs(line: string, returned: bool)
    requires line == "" || (line[|line| - 1] != '\r' && line[|line| - 1] != '\n')
    ensures Trimmed(line + End(returned) + "\n") == line
  {
    var whole, cut := line + End(returned) + "\n", line + End(returned);
    assert whole[..|whole| - 1] == cut && whole[|whole| - 1] == '\n';
    assert Trimmed(whole) == Trimmed(cut) && Trimmed(line) == line;
    if returned {
      assert cut[..|cut| - 1] == line && cut[|cut| - 1] == '\r';
    } else {
      assert cut == line;
    }
  }

  lemma {:induction false} StartIs(l: Line)
    requires Valid(l)
    ensures '\n' !in Start(l) && (Start(l) == "" || (Start(l)[|Start(l)| - 1] != '\r' && Start(l)[|Start(l)| - 1] != '\n'))
  {
    var s := Start(l);
    assert s != "" && l.text != "" ==> s[|s| - 1] == l.text[|l.text| - 1];
  }

  lemma {:induction false} LineHolds(p: Progress, l: Line)
    requires Valid(l)
    ensures TakeLine(p, Start(l)) ==
      p.(pending := Held(p.pending, l))
  {
    var s := Start(l);
    match l.kind {
      case Spaced => assert s[..5] == "data:" && s[5..] == " " + l.text && (" " + l.text)[1..] == l.text;
      case Unspaced => assert s[..5] == "data:" && s[5..] == l.text;
      case Other =>
    }
  }

  lemma {:induction false} LineIsTaken(lossy: string -> string, p: Progress, l: Line)
    requires p.buffer == "" && Valid(l) && forall s: string :: lossy(s) == s
    ensures Take(lossy, p, Start(l) + End(l.returned) + "\n") ==
      p.(pending := Held(p.pending, l))
  {
    var start := Start(l);
    var sent := start + End(l.returned);
    assert '\n' !in sent && Trimmed(sent + "\n") == start by {
      StartIs(l);
      TrimmedIs(start, l.returned);
    }
    OneLineIsTaken(lossy, p, sent);
    LineHolds(p, l);
  }

  lemma {:induction false} OneLineIsTaken(lossy: string -> string, p: Progress, sent: string)
    requires p.buffer == "" && '\n' !in sent && lossy(sent + "\n") == sent + "\n"
    ensures Take(lossy, p, sent + "\n") == TakeLine(p, Trimmed(sent + "\n"))
  {
    assert sent + "\n" + "" == sent + "\n";
    TakeWholeLine(lossy, p, sent, "");
  }

  lemma {:induction false} LinesAreHeld(lossy: string -> string, p: Progress, lines: seq<Line>)
    requires p.buffer == "" && p.pending == None
    requires forall s: string :: lossy(s) == s
    requires forall i :: 0 <= i < |lines| ==> Valid(lines[i])
    ensures Take(lossy, p, Sent(lines)) == p.(pending := Holding(DataOf(lines)))
    decreases |lines|
  {
    if lines != [] {
      var n := |lines| - 1;
      var l, q := lines[n], p.(pending := Holding(DataOf(lines[..n])));
      var one, two := Sent(lines[..n]), Start(l) + End(l.returned) + "\n";
      assert Take(lossy, p, one) == q by {
        LinesAreHeld(lossy, p, lines[..n]);
      }
      assert Take(lossy, q, two) == q.(pending := Held(q.pending, l)) by {
        LineIsTaken(lossy, q, l);
      }
      assert Sent(lines) == one + two;
      TakeConcat(lossy, p, one, two);
      HoldingMore(lines);
    }
  }

  /** An empty line gives what is held, if anything is. */
  lemma {:induction false} BlankLineGives(lossy: string -> string, p: Progress, returned: bool)
    requires p.buffer == "" && forall s: string :: lossy(s) == s
    ensures Take(lossy, p, End(returned) + "\n") ==
      if p.pending.None? then p
      else p.(pending := None, frames := p.frames + [if p.pending.value == "[DONE]" then Done else Data(p.pending.value)])
  {
    assert End(returned) + "\n" + "" == End(returned) + "\n";
    TakeWholeLine(lossy, p, End(returned), "");
    TrimmedIs("", returned);
    assert "" + End(returned) + "\n" == End(returned) + "\n";
    assert StripPrefix("", "data:") == None;
  }

  /** An event reads back as the text of its data lines, or as the end of the stream, however
      its lines end and whatever else stands among them; without data it is nothing. */
  lemma {:induction false} EventsReadBack(lossy: string -> string, p: Progress, lines: seq<Line>, returned: bool)
    requires p.buffer == "" && p.pending == None
    requires forall s: string :: lossy(s) == s
    requires forall i :: 0 <= i < |lines| ==> Valid(lines[i])
    ensures var data := DataOf(lines);
      Take(lossy, p, Sent(lines) + (End(returned) + "\n")) ==
        if data == [] then p
        else p.(frames := p.frames + [if Joined(data) == "[DONE]" then Done else Data(Joined(data))])
  {
    LinesAreHeld(lossy, p, lines);
    TakeConcat(lossy, p, Sent(lines), End(returned) + "\n");
    BlankLineGives(lossy, p.(pending := Holding(DataOf(lines))), returned);
  }
}
