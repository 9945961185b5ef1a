/** The journal as a file (agent/src/journal.rs): each record printed on a line of its own,
    appended to whatever is there, and read back line by line. What a process that dies in
    the middle of a write leaves, and what becomes of what the next one appends to it. */
module JournalFile {
  import opened Conversation
  import opened Markers
  import opened Remembering
  import opened Journal
  import opened Protocol

  // --------------------------------------------------------------- objects

  /** How far into a JSON object a text has come, as far as its brackets and strings tell. */
  datatype Scan = Before | Inside(depth: nat) | Quoted(depth: nat) | Escaped(depth: nat) | After | Dead

  predicate Space(c: char) { c == ' ' || c == '\t' || c == '\n' || c == '\r' }

  function Advance(at: Scan, c: char): Scan {
    match at
    case Before => if Space(c) then Before else if c == '{' then Inside(1) else Dead
    case Inside(depth) =>
      if c == '{' || c == '[' then Inside(depth + 1)
      else if c == '}' || c == ']' then (if depth <= 1 then After else Inside(depth - 1))
      else if c == '"' then Quoted(depth)
      else if c == '\\' then Dead
      else at
    case Quoted(depth) => if c == '"' then Inside(depth) else if c == '\\' then Escaped(depth) else at
    case Escaped(depth) => Quoted(depth)
    case After => if Space(c) then After else Dead
    case Dead => Dead
  }

  function Scanned(at: Scan, s: string): Scan {
    if s == "" then at else Advance(Scanned(at, s[..|s| - 1]), s[|s| - 1])
  }

  /** Brackets and strings make one whole object of the text. */
  predicate OneObject(s: string) { Scanned(Before, s) == After }

  lemma {:induction false} ScanConcat(at: Scan, a: string, b: string)
    ensures Scanned(at, a + b) == Scanned(Scanned(at, a), b)
  {
    if b == "" {
      assert a + b == a;
    } else {
      var all, n := a + b, |b| - 1;
      ScanConcat(at, a, b[..n]);
      assert all[..|all| - 1] == a + b[..n] && all[|all| - 1] == b[n];
    }
  }

  lemma {:induction false} ScanFirst(at: Scan, s: string)
    requires s != ""
    ensures Scanned(at, s) == Scanned(Advance(at, s[0]), s[1..])
  {
    assert s == s[..1] + s[1..] && s[..1][..0] == "";
    assert Scanned(at, s[..1]) == Advance(Scanned(at, ""), s[0]);
    ScanConcat(at, s[..1], s[1..]);
  }

  lemma {:induction false} DeadStays(s: string)
    ensures Scanned(Dead, s) == Dead
  {
    if s != "" {
      DeadStays(s[..|s| - 1]);
    }
  }

  lemma {:induction false} NothingAfter(s: string)
    requires s != "" && !Space(s[|s| - 1])
    ensures Scanned(After, s) == Dead
  {
    OnlySpaceAfter(s[..|s| - 1]);
  }

  lemma {:induction false} OnlySpaceAfter(s: string)
    ensures Scanned(After, s) == After || Scanned(After, s) == Dead
  {
    if s != "" {
      OnlySpaceAfter(s[..|s| - 1]);
    }
  }

  predicate Deep(at: Scan) { at.Inside? || at.Quoted? || at.Escaped? }

  function Deeper(at: Scan, more: nat): Scan
    requires Deep(at)
  {
    match at
    case Inside(depth) => Inside(depth + more)
    case Quoted(depth) => Quoted(depth + more)
    case Escaped(depth) => Escaped(depth + more)
  }

  /** Begun within another object, an object ends within it. */
  lemma {:induction false} ScanWithin(s: string, more: nat)
    requires more >= 1
    ensures var r := Scanned(Inside(1), s);
      (Deep(r) ==> r.depth >= 1 && Scanned(Inside(1 + more), s) == Deeper(r, more)) &&
      (r.After? && !Space(s[|s| - 1]) ==> Scanned(Inside(1 + more), s) == Inside(more)) &&
      !r.Before? && (r.After? ==> s != "")
  {
    if s != "" {
      ScanWithin(s[..|s| - 1], more);
    }
  }

  /** Begun within a string, an object's strings are outside and the rest within. */
  lemma {:induction false} ScanSwapped(s: string, depth: nat)
    ensures var r, w := Scanned(Inside(1), s), Scanned(Quoted(depth), s);
      r.Dead? || w.Dead? || ((r.Inside? || r.After?) && w.Quoted?) || (r.Quoted? && (w.Inside? || w.After?))
  {
    if s != "" {
      ScanSwapped(s[..|s| - 1], depth);
    }
  }

  /** A text that begins as an object does has left the beginning. */
  lemma {:induction false} ScanBegun(s: string)
    requires s != "" && s[0] == '{'
    ensures var r := Scanned(Before, s); !r.Before? && (Deep(r) ==> r.depth >= 1)
  {
    if |s| > 1 {
      ScanBegun(s[..|s| - 1]);
    } else {
      assert s[..0] == "";
    }
  }

  predicate ObjectLine(s: string) {
    OneObject(s) && |s| >= 2 && s[0] == '{' && s[|s| - 1] == '}' && '\n' !in s
  }

  /** No part of an object is one. */
  lemma {:induction false} PartIsNone(s: string, n: nat)
    requires ObjectLine(s) && n < |s|
    ensures !OneObject(s[..n])
  {
    assert s == s[..n] + s[n..];
    ScanConcat(Before, s[..n], s[n..]);
    if OneObject(s[..n]) {
      NothingAfter(s[n..]);
    }
  }

  /** And no object follows on the start of another, nor on the whole of it, to make one. */
  lemma {:induction false} GluedIsNone(t: string, u: string)
    requires t != "" && t[0] == '{' && ObjectLine(u)
    ensures !OneObject(t + u)
  {
    var at, v := Scanned(Before, t), u[1..];
    ScanConcat(Before, t, u);
    ScanBegun(t);
    ScanFirst(Before, u);
    ScanFirst(at, u);
    DeadStays(v);
    match at {
      case Inside(depth) => ScanWithin(v, depth);
      case Quoted(depth) => ScanSwapped(v, depth);
      case Escaped(depth) => ScanSwapped(v, depth);
      case After =>
      case Dead =>
    }
  }

  // --------------------------------------------------------------- characters

  /** How many bytes a character takes, by its first. */
  function Width(c: char): nat {
    if c < '\U{80}' then 1
    else if '\U{C2}' <= c <= '\U{DF}' then 2
    else if '\U{E0}' <= c <= '\U{EF}' then 3
    else if '\U{F0}' <= c <= '\U{F4}' then 4
    else 0
  }

  predicate Continued(s: string, n: nat)
    requires n <= |s|
  {
    forall i :: 1 <= i < n ==> Continues(s[i])
  }

  /** Whole characters, one after another. */
  predicate Utf8(s: string)
    decreases |s|
  {
    s == "" || (1 <= Width(s[0]) <= |s| && Continued(s, Width(s[0])) && Utf8(s[Width(s[0])..]))
  }

  /** Cut anywhere, a text is still one exactly if no character was cut. */
  lemma {:induction false} Utf8CutIff(s: string, n: nat)
    requires Utf8(s) && n <= |s|
    ensures Utf8(s[..n]) <==> n == |s| || !Continues(s[n])
    decreases |s|
  {
    if n == 0 {
      assert s[..0] == "";
    } else if n == |s| {
      assert s[..n] == s;
    } else {
      var w := Width(s[0]);
      if n >= w {
        Utf8CutIff(s[w..], n - w);
        assert s[w..][..n - w] == s[..n][w..];
        assert Continued(s[..n], w);
      }
    }
  }

  lemma {:induction false} Utf8Concat(a: string, b: string)
    requires Utf8(a) && Utf8(b)
    ensures Utf8(a + b)
    decreases |a|
  {
    if a == "" {
      assert a + b == b;
    } else {
      var w := Width(a[0]);
      Utf8Concat(a[w..], b);
      CharacterThen(a[..w], a[w..] + b);
      Assoc(a[..w], a[w..], b);
      assert a[..w] + a[w..] == a;
    }
  }

  lemma {:induction false} CharacterThen(first: string, rest: string)
    requires first != "" && |first| == Width(first[0]) && Continued(first, |first|) && Utf8(rest)
    ensures Utf8(first + rest)
  {
    var s, w := first + rest, |first|;
    assert s[w..] == rest;
    assert forall i :: 1 <= i < w ==> s[i] == first[i];
  }

  // --------------------------------------------------------------- the file

  /** How records are printed and read. */
  datatype Codec = Codec(show: Record -> string, parse: string -> Option<Record>)

  /** Each record is printed as an object on one line, of whole characters, that reads back
      as the record, and of what begins as an object only a whole one reads as one. */
  ghost predicate Sound(c: Codec) {
    (forall r :: Printable(c, r)) && (forall s :: Parsable(c, s))
  }

  ghost predicate Printable(c: Codec, r: Record) {
    ObjectLine(c.show(r)) && Utf8(c.show(r)) && c.parse(c.show(r)) == Some(r)
  }

  ghost predicate Parsable(c: Codec, s: string) {
    s != "" && s[0] == '{' && c.parse(s).Some? ==> OneObject(s)
  }

  function File(c: Codec, records: seq<Record>): string {
    if records == [] then "" else c.show(records[0]) + "\n" + File(c, records[1..])
  }

  function Parsed(c: Codec, lines: seq<string>): seq<Option<Record>> {
    seq(|lines|, i requires 0 <= i < |lines| => c.parse(lines[i]))
  }

  predicate AllUtf8(lines: seq<string>) {
    forall i :: 0 <= i < |lines| ==> Utf8(lines[i])
  }

  /** The records of the lines: one that does not parse is passed over, and one that is not
      text ends the reading in an error. */
  function ReadLines(c: Codec, lines: seq<string>): Option<seq<Record>> {
    if AllUtf8(lines) then Some(Decoded(Parsed(c, lines))) else None
  }

  function Load(c: Codec, bytes: string): Option<seq<Record>> {
    ReadLines(c, Lines(bytes))
  }

  function Plus(first: seq<Record>, rest: Option<seq<Record>>): Option<seq<Record>> {
    if rest.None? then None else Some(first + rest.value)
  }

  function Given(r: Option<Record>): seq<Record> {
    if r.Some? then [r.value] else []
  }

  lemma {:induction false} DecodedFirst(first: Option<Record>, rest: seq<Option<Record>>)
    ensures Decoded([first] + rest) == Given(first) + Decoded(rest)
  {
    var all := [first] + rest;
    if rest == [] {
      assert all[..0] == [];
      assert Decoded(all) == Decoded([]) + Given(first);
    } else {
      var n := |rest| - 1;
      DecodedFirst(first, rest[..n]);
      assert all[..|all| - 1] == [first] + rest[..n] && all[|all| - 1] == rest[n];
      Assoc(Given(first), Decoded(rest[..n]), Given(rest[n]));
    }
  }

  lemma {:induction false} AllUtf8First(line: string, more: seq<string>)
    ensures AllUtf8([line] + more) <==> Utf8(line) && AllUtf8(more)
  {
    var lines := [line] + more;
    assert forall i :: 0 <= i < |more| ==> lines[i + 1] == more[i];
    if AllUtf8(lines) {
      assert Utf8(lines[0]);
      forall i | 0 <= i < |more|
        ensures Utf8(more[i])
      {
        assert Utf8(lines[i + 1]);
      }
    }
  }

  lemma {:induction false} ReadFirst(c: Codec, line: string, more: seq<string>)
    ensures ReadLines(c, [line] + more) == if Utf8(line) then Plus(Given(c.parse(line)), ReadLines(c, more)) else None
  {
    AllUtf8First(line, more);
    assert Parsed(c, [line] + more) == [c.parse(line)] + Parsed(c, more);
    DecodedFirst(c.parse(line), Parsed(c, more));
  }

  lemma {:induction false} LoadFirst(c: Codec, line: string, rest: string)
    requires '\n' !in line && !EndsIn(line, '\r')
    ensures Load(c, line + "\n" + rest) == if Utf8(line) then Plus(Given(c.parse(line)), Load(c, rest)) else None
  {
    LineThenRest(line, rest);
    ReadFirst(c, line, Lines(rest));
  }

  lemma {:induction false} LoadNothing(c: Codec)
    ensures Load(c, "") == Some([])
  {
    assert Lines("") == [] && Parsed(c, []) == [];
  }

  lemma {:induction false} LoadLast(c: Codec, line: string)
    requires line != "" && '\n' !in line
    ensures Load(c, line) == if Utf8(line) then Some(Given(c.parse(line))) else None
  {
    LineThenRest(line, "");
    LoadNothing(c);
    ReadFirst(c, line, []);
    assert [line] + [] == [line] && Given(c.parse(line)) + [] == Given(c.parse(line));
  }

  // --------------------------------------------------------------- torn

  /** How many records have their line's end within the first `n` bytes. */
  function Fits(c: Codec, records: seq<Record>, n: nat): (k: nat)
    ensures k <= |records|
  {
    if records == [] || n <= |c.show(records[0])| then 0
    else 1 + Fits(c, records[1..], n - |c.show(records[0])| - 1)
  }

  lemma {:induction false} FitsIsMost(c: Codec, records: seq<Record>, n: nat)
    ensures var k := Fits(c, records, n);
      |File(c, records[..k])| <= n && (k < |records| ==> |File(c, records[..k + 1])| > n)
  {
    var k := Fits(c, records, n);
    if records != [] && n > |c.show(records[0])| {
      FitsIsMost(c, records[1..], n - |c.show(records[0])| - 1);
      assert records[..k][1..] == records[1..][..k - 1];
      assert k < |records| ==> records[..k + 1][1..] == records[1..][..k];
    } else if records != [] {
      assert records[..1][1..] == [];
    }
  }

  lemma {:induction false} FirstLine(c: Codec, records: seq<Record>)
    requires Sound(c) && records != []
    ensures var line := c.show(records[0]);
      ObjectLine(line) && Utf8(line) && c.parse(line) == Some(records[0]) && !EndsIn(line, '\r') &&
      File(c, records) == line + "\n" + File(c, records[1..])
  {
    assert Printable(c, records[0]);
  }

  /** A write cut short within a line. */
  lemma {:induction false} TornLine(c: Codec, record: Record, n: nat)
    requires Sound(c) && n <= |c.show(record)|
    ensures var line := c.show(record);
      Load(c, line[..n]) ==
        if n == |line| then Some([record]) else if Continues(line[n]) then None else Some([])
  {
    assert Printable(c, record);
    var line := c.show(record);
    if n == 0 {
      assert line[..0] == "";
      LoadNothing(c);
    } else {
      LoadLast(c, line[..n]);
      Utf8CutIff(line, n);
      assert Parsable(c, line[..n]);
      if n < |line| {
        PartIsNone(line, n);
      } else {
        assert line[..n] == line;
      }
    }
  }

  /** What is read of a file cut after `n` bytes. */
  function LeftOf(c: Codec, records: seq<Record>, n: nat): Option<seq<Record>>
    requires n <= |File(c, records)|
  {
    var file := File(c, records);
    if n < |file| && Continues(file[n]) then None else Some(records[..Fits(c, records, n + 1)])
  }

  lemma {:induction false} TornFirst(c: Codec, records: seq<Record>, n: nat)
    requires Sound(c) && records != [] && n <= |c.show(records[0])|
    ensures n <= |File(c, records)| && Load(c, File(c, records)[..n]) == LeftOf(c, records, n)
  {
    FirstLine(c, records);
    var line := c.show(records[0]);
    WithinFirst(line, File(c, records[1..]), n);
    TornLine(c, records[0], n);
    assert n == |line| ==> Fits(c, records[1..], 0) == 0 && records[..1] == [records[0]];
  }

  lemma {:induction false} LeftPast(c: Codec, records: seq<Record>, m: nat)
    requires Sound(c) && records != [] && m <= |File(c, records[1..])|
    ensures var n := |c.show(records[0])| + 1 + m;
      n <= |File(c, records)| && LeftOf(c, records, n) == Plus([records[0]], LeftOf(c, records[1..], m))
  {
    FirstLine(c, records);
    PastFirst(c.show(records[0]), File(c, records[1..]), m);
    var k := Fits(c, records[1..], m + 1);
    assert records[..k + 1] == [records[0]] + records[1..][..k];
  }

  lemma {:induction false} PastFirst(line: string, rest: string, m: nat)
    requires m <= |rest|
    ensures var file, n := line + "\n" + rest, |line| + 1 + m;
      file[..n] == line + "\n" + rest[..m] && |file| == |line| + 1 + |rest| && (m < |rest| ==> file[n] == rest[m]) &&
      (AtLineStart(file[..n]) <==> AtLineStart(rest[..m]))
  {
    var file, n := line + "\n" + rest, |line| + 1 + m;
    assert file[..n] == line + "\n" + rest[..m];
  }

  /** A process that dies at any byte of what it writes leaves exactly the records it had
      written whole, unless it dies within a character: then the file is not read at all. */
  lemma {:induction false} TornFile(c: Codec, records: seq<Record>, n: nat)
    requires Sound(c) && n <= |File(c, records)|
    ensures Load(c, File(c, records)[..n]) == LeftOf(c, records, n)
    decreases |records|
  {
    if records == [] {
      assert File(c, records)[..n] == "";
      LoadNothing(c);
    } else if n <= |c.show(records[0])| {
      TornFirst(c, records, n);
    } else {
      FirstLine(c, records);
      var m := n - |c.show(records[0])| - 1;
      TornFile(c, records[1..], m);
      AppendedPast(c, records, m, "");
      assert File(c, records)[..n] + "" == File(c, records)[..n];
      assert File(c, records[1..])[..m] + "" == File(c, records[1..])[..m];
      LeftPast(c, records, m);
    }
  }

  /** Nothing is left of a line that was not finished. */
  predicate AtLineStart(bytes: string) { bytes == "" || EndsIn(bytes, '\n') }

  lemma {:induction false} WithinFirst(line: string, rest: string, n: nat)
    requires n <= |line| && '\n' !in line
    ensures var file := line + "\n" + rest;
      file[..n] == line[..n] && file[n] == (if n < |line| then line[n] else '\n') && (AtLineStart(file[..n]) ==> n == 0)
  {
    var file := line + "\n" + rest;
    assert file[..n] == line[..n];
  }

  // --------------------------------------------------------------- and appended to

  /** What is appended within a line makes one line with it, which no record is read from. */
  lemma {:induction false} GluedLine(c: Codec, record: Record, n: nat, more: seq<Record>)
    requires Sound(c) && 0 < n <= |c.show(record)| && more != []
    ensures var line := c.show(record);
      Load(c, line[..n] + File(c, more)) ==
        if n < |line| && Continues(line[n]) then None else Some(more[1..])
  {
    assert Printable(c, record);
    FirstLine(c, more);
    var line := c.show(record);
    var t, u, rest := line[..n], c.show(more[0]), File(c, more[1..]);
    assert t + File(c, more) == (t + u) + "\n" + rest;
    GluedText(line, n, u);
    LoadFirst(c, t + u, rest);
    GluedIsNone(t, u);
    assert Parsable(c, t + u);
    FileReadsBack(c, more[1..]);
    assert [] + more[1..] == more[1..];
  }

  lemma {:induction false} GluedText(line: string, n: nat, u: string)
    requires Utf8(line) && 0 < n <= |line| && '\n' !in line && ObjectLine(u) && Utf8(u)
    ensures Utf8(line[..n] + u) <==> n == |line| || !Continues(line[n])
    ensures '\n' !in line[..n] + u && !EndsIn(line[..n] + u, '\r')
  {
    Utf8CutIff(line, n);
    Utf8JoinIff(line[..n], u);
  }

  lemma {:induction false} Utf8JoinIff(t: string, u: string)
    requires u != "" && u[0] == '{' && Utf8(u)
    ensures Utf8(t + u) <==> Utf8(t)
  {
    assert (t + u)[..|t|] == t && (t + u)[|t|] == u[0];
    if Utf8(t) {
      Utf8Concat(t, u);
    } else if Utf8(t + u) {
      Utf8CutIff(t + u, |t|);
    }
  }

  /** Nothing torn, every record comes back. */
  lemma {:induction false} FileReadsBack(c: Codec, records: seq<Record>)
    requires Sound(c)
    ensures Load(c, File(c, records)) == Some(records)
  {
    if records == [] {
      LoadNothing(c);
    } else {
      FirstLine(c, records);
      LoadFirst(c, c.show(records[0]), File(c, records[1..]));
      FileReadsBack(c, records[1..]);
      assert [records[0]] + records[1..] == records;
    }
  }

  /** What is read once more is appended to that: if no line was left unfinished, all of it;
      else its first record is lost, and with it the record of the unfinished line, even one
      that was read before. */
  function LeftWith(c: Codec, records: seq<Record>, n: nat, more: seq<Record>): Option<seq<Record>>
    requires n <= |File(c, records)| && more != []
  {
    var file := File(c, records);
    if n < |file| && Continues(file[n]) then None
    else Some(records[..Fits(c, records, n)] + (if AtLineStart(file[..n]) then more else more[1..]))
  }

  lemma {:induction false} AppendedFirst(c: Codec, records: seq<Record>, n: nat, more: seq<Record>)
    requires Sound(c) && records != [] && 0 < n <= |c.show(records[0])| && more != []
    ensures n <= |File(c, records)| && Load(c, File(c, records)[..n] + File(c, more)) == LeftWith(c, records, n, more)
  {
    FirstLine(c, records);
    WithinFirst(c.show(records[0]), File(c, records[1..]), n);
    GluedLine(c, records[0], n, more);
    assert records[..0] + more[1..] == more[1..];
  }

  lemma {:induction false} LeftWithPast(c: Codec, records: seq<Record>, m: nat, more: seq<Record>)
    requires Sound(c) && records != [] && m <= |File(c, records[1..])| && more != []
    ensures var n := |c.show(records[0])| + 1 + m;
      n <= |File(c, records)| && LeftWith(c, records, n, more) == Plus([records[0]], LeftWith(c, records[1..], m, more))
  {
    FirstLine(c, records);
    var rest, k := File(c, records[1..]), Fits(c, records[1..], m);
    PastFirst(c.show(records[0]), rest, m);
    assert records[..k + 1] == [records[0]] + records[1..][..k];
    Assoc([records[0]], records[1..][..k], if AtLineStart(rest[..m]) then more else more[1..]);
  }

  lemma {:induction false} AppendedPast(c: Codec, records: seq<Record>, m: nat, more: string)
    requires Sound(c) && records != [] && m <= |File(c, records[1..])|
    ensures var n := |c.show(records[0])| + 1 + m;
      n <= |File(c, records)| &&
      Load(c, File(c, records)[..n] + more) == Plus([records[0]], Load(c, File(c, records[1..])[..m] + more))
  {
    FirstLine(c, records);
    var line, rest := c.show(records[0]), File(c, records[1..]);
    PastFirst(line, rest, m);
    Assoc(line + "\n", rest[..m], more);
    LoadFirst(c, line, rest[..m] + more);
  }

  lemma {:induction false} AppendedToTorn(c: Codec, records: seq<Record>, n: nat, more: seq<Record>)
    requires Sound(c) && n <= |File(c, records)| && more != []
    ensures Load(c, File(c, records)[..n] + File(c, more)) == LeftWith(c, records, n, more)
    decreases |records|
  {
    if n == 0 {
      AppendedAtStart(c, records, more);
    } else if n <= |c.show(records[0])| {
      AppendedFirst(c, records, n, more);
    } else {
      FirstLine(c, records);
      var m := n - |c.show(records[0])| - 1;
      AppendedToTorn(c, records[1..], m, more);
      AppendedPast(c, records, m, File(c, more));
      LeftWithPast(c, records, m, more);
    }
  }

  lemma {:induction false} AppendedAtStart(c: Codec, records: seq<Record>, more: seq<Record>)
    requires Sound(c) && more != []
    ensures Load(c, File(c, records)[..0] + File(c, more)) == LeftWith(c, records, 0, more)
  {
    assert File(c, records)[..0] + File(c, more) == File(c, more) && records[..0] + more == more;
    FileReadsBack(c, more);
    if records != [] {
      FirstLine(c, records);
    }
  }

  /** So an unfinished line is the last one only until more is written: what was read and
      what is appended both come back exactly when the file was left at the start of a line. */
  lemma {:induction false} AppendedComesBackIff(c: Codec, records: seq<Record>, n: nat, more: seq<Record>)
    requires Sound(c) && n <= |File(c, records)| && more != []
    ensures var torn := File(c, records)[..n];
      Load(c, torn).Some? ==> (Load(c, torn + File(c, more)) == Plus(Load(c, torn).value, Some(more)) <==> AtLineStart(torn))
  {
    TornFile(c, records, n);
    AppendedToTorn(c, records, n, more);
    FitsOneMore(c, records, n);
    var torn, k := File(c, records)[..n], Fits(c, records, n);
    var read := records[..Fits(c, records, n + 1)];
    if Load(c, torn).Some? && !AtLineStart(torn) {
      assert |records[..k] + more[1..]| < |read + more|;
    }
  }

  lemma {:induction false} FitsOneMore(c: Codec, records: seq<Record>, n: nat)
    requires Sound(c) && n <= |File(c, records)|
    ensures Fits(c, records, n) <= Fits(c, records, n + 1)
    ensures AtLineStart(File(c, records)[..n]) ==> Fits(c, records, n) == Fits(c, records, n + 1)
    decreases |records|
  {
    if records != [] {
      FirstLine(c, records);
      var file, line, rest := File(c, records), c.show(records[0]), File(c, records[1..]);
      if n > |line| {
        var m := n - |line| - 1;
        assert file[..n] == line + "\n" + rest[..m];
        FitsOneMore(c, records[1..], m);
      } else if n > 0 {
        assert file[..n][n - 1] == line[n - 1];
      }
    }
  }

  /** A line whose end alone is missing is read as it stands, and lost with the next. */
  lemma {:induction false} LostLineEnd(c: Codec, record: Record, next: Record)
    requires Sound(c)
    ensures var torn := c.show(record);
      Load(c, torn) == Some([record]) && Load(c, torn + File(c, [next])) == Some([])
  {
    var torn := c.show(record);
    assert Printable(c, record);
    assert torn[..|torn|] == torn;
    TornLine(c, record, |torn|);
    GluedLine(c, record, |torn|, [next]);
  }

  lemma {:induction false} BeginsWithSession(id: string, cwd: string, trace: seq<Step>)
    requires Legal(Init(id, cwd), trace)
    ensures var log := Exec(Init(id, cwd), trace).log; log != [] && log[0] == Session(id, cwd)
    decreases |trace|
  {
    if trace != [] {
      BeginsWithSession(id, cwd, trace[..|trace| - 1]);
    }
  }

  /** So of a journal no restart has written to, cut at any byte, what is read is the journal
      of some instant of the session, and all that is proved of a crash then holds of it. */
  lemma {:induction false} TornAtAnInstant(c: Codec, id: string, cwd: string, trace: seq<Step>, n: nat) returns (k: nat)
    requires Sound(c) && Legal(Init(id, cwd), trace)
    requires var log := Exec(Init(id, cwd), trace).log;
      |c.show(Session(id, cwd))| <= n <= |File(c, log)| && Load(c, File(c, log)[..n]).Some?
    ensures k <= |trace| && Legal(Init(id, cwd), trace[..k])
    ensures Load(c, File(c, Exec(Init(id, cwd), trace).log)[..n]) == Some(Exec(Init(id, cwd), trace[..k]).log)
  {
    var log := Exec(Init(id, cwd), trace).log;
    TornFile(c, log, n);
    BeginsWithSession(id, cwd, trace);
    var m := Fits(c, log, n + 1);
    k := EveryPrefixWasReached(Init(id, cwd), trace, m);
  }
}
