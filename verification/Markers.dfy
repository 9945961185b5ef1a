/** Section markers in a text that is written once and parsed later: when is the
    first occurrence of a marker the one that was written? */
module Markers {
  import opened Conversation
  import opened Bytes

  /** A blank line, then text on one line. */
  predicate Marker(p: string) {
    |p| > 2 && p[0] == '\n' && p[1] == '\n' && forall i :: 2 <= i < |p| ==> p[i] != '\n'
  }

  predicate Differ(p: string, q: string) {
    exists k :: 0 <= k < |p| && k < |q| && p[k] != q[k]
  }

  /** `q` continues `a` on a new line, so that no blank line starts inside `a` and ends in `q`. */
  predicate Breaks(a: string, q: string) {
    q == "" || (q[0] == '\n' && ((|q| > 1 && q[1] == '\n') || a == "" || a[|a| - 1] != '\n'))
  }

  lemma OccursChar(s: string, p: string, i: nat, k: int)
    ensures OccursAt(s, p, i) && 0 <= k < |p| ==> i + k < |s| && s[i + k] == p[k]
  {
  }

  /** An occurrence in `a + q` that starts in `a` lies in `a`. */
  lemma StartsInside(a: string, q: string, p: string, i: nat)
    requires Marker(p) && Breaks(a, q) && i < |a|
    ensures OccursAt(a + q, p, i) ==> OccursAt(a, p, i)
  {
    var s := a + q;
    assert q != "" ==> s[|a|] == q[0];
    assert |q| > 1 ==> s[|a| + 1] == q[1];
    OccursChar(s, p, i, |a| - i);
    OccursChar(s, p, i, 0);
    OccursChar(s, p, i, 2);
    assert forall k :: 0 <= k < |a| ==> s[k] == a[k];
  }

  /** Texts free of a marker, joined at a line break, are free of it. */
  lemma Joined(a: string, q: string, p: string)
    requires Marker(p) && Breaks(a, q) && !Contains(a, p) && !Contains(q, p)
    ensures !Contains(a + q, p)
  {
    var s := a + q;
    forall i | 0 <= i <= |s| ensures !OccursAt(s, p, i) {
      if i < |a| {
        StartsInside(a, q, p, i);
      } else {
        assert forall k :: |a| <= k < |s| ==> s[k] == q[k - |a|];
        var at: nat := i - |a|;
        assert OccursAt(s, p, i) ==> OccursAt(q, p, at);
      }
    }
  }

  predicate BlankLineFree(s: string) {
    forall i :: 0 <= i < |s| - 1 ==> !(s[i] == '\n' && s[i + 1] == '\n')
  }

  /** A text with no blank line holds no marker. */
  lemma NoBlankLine(s: string, p: string)
    requires Marker(p) && BlankLineFree(s)
    ensures !Contains(s, p)
  {
    forall i | 0 <= i <= |s| ensures !OccursAt(s, p, i) {
      OccursChar(s, p, i, 0);
      OccursChar(s, p, i, 1);
    }
  }

  /** A text that is one marker-like line holds only the markers it starts with. */
  lemma OtherMarker(s: string, p: string)
    requires Marker(p) && Marker(s) && Differ(s, p)
    ensures !Contains(s, p)
  {
    var d :| 0 <= d < |s| && d < |p| && s[d] != p[d];
    forall i | 0 <= i <= |s| ensures !OccursAt(s, p, i) {
      OccursChar(s, p, i, 0);
      OccursChar(s, p, i, 1);
      OccursChar(s, p, i, d);
    }
  }

  /** The first occurrence of `p` is where it was written. */
  lemma SplitsThere(a: string, p: string, b: string)
    requires Marker(p) && !Contains(a, p)
    ensures SplitOnce(a + p + b, p) == Some((a, b))
  {
    var s := a + p + b;
    assert s == a + (p + b);
    assert OccursAt(s, p, |a|);
    forall k | 0 <= k < |a| ensures !OccursAt(s, p, k) {
      StartsInside(a, p + b, p, k);
    }
    SplitFromAt(s, p, 0, |a|);
    assert s[..|a|] == a && s[|a| + |p|..] == b;
  }

  lemma NoSplit(s: string, p: string)
    requires !Contains(s, p)
    ensures SplitOnce(s, p) == None
  {
    SplitFromNone(s, p, 0);
  }

  lemma StemOccurs(s: string, stem: string, i: nat)
    ensures OccursAt(s, stem + "\n", i) ==> OccursAt(s, stem, i)
  {
    var p := stem + "\n";
    assert forall k :: 0 <= k < |stem| ==> p[k] == stem[k];
  }

  /** The same for a marker that ends its line. */
  lemma LineSplitsThere(a: string, stem: string, b: string)
    requires Marker(stem) && !Contains(a, stem)
    ensures SplitOnce(a + (stem + "\n") + b, stem + "\n") == Some((a, b))
  {
    var p := stem + "\n";
    var s := a + p + b;
    assert s == a + (stem + ("\n" + b));
    assert OccursAt(s, p, |a|);
    forall k | 0 <= k < |a| ensures !OccursAt(s, p, k) {
      StemOccurs(s, stem, k);
      StartsInside(a, stem + ("\n" + b), stem, k);
    }
    SplitFromAt(s, p, 0, |a|);
    assert s[..|a|] == a && s[|a| + |p|..] == b;
  }

  lemma NoLineSplit(s: string, stem: string)
    requires !Contains(s, stem)
    ensures SplitOnce(s, stem + "\n") == None
  {
    forall k | 0 <= k <= |s| ensures !OccursAt(s, stem + "\n", k) {
      StemOccurs(s, stem, k);
    }
    SplitFromNone(s, stem + "\n", 0);
  }

  // ------------------------------------------------------------------- lines

  function IndexOf(s: string, c: char): (i: nat)
    ensures i <= |s| && (i < |s| ==> s[i] == c) && forall k :: 0 <= k < i ==> s[k] != c
  {
    if s == "" || s[0] == c then 0 else 1 + IndexOf(s[1..], c)
  }

  predicate EndsIn(s: string, c: char) {
    s != "" && s[|s| - 1] == c
  }

  /** The lines of a text: a line end may be `\n` or `\r\n`, and the last line needs none. */
  function Lines(s: string): seq<string> {
    if s == "" then []
    else
      var i := IndexOf(s, '\n');
      if i == |s| then [s]
      else
        var line := s[..i];
        [if EndsIn(line, '\r') then line[..|line| - 1] else line] + Lines(s[i + 1..])
  }

  /** The lines that start with `- `, without it. */
  function Bulleted(lines: seq<string>): seq<string> {
    if lines == [] then []
    else (if "- " <= lines[0] then [lines[0][2..]] else []) + Bulleted(lines[1..])
  }

  /** `- a`, `- b`, ... joined by line ends. */
  function Bullets(items: seq<string>): string {
    if items == [] then ""
    else if |items| == 1 then "- " + items[0]
    else "- " + items[0] + "\n" + Bullets(items[1..])
  }

  /** A line that comes back from a list as it went in, wherever it stands. */
  predicate CleanLine(l: string) {
    '\n' !in l && !EndsIn(l, '\r')
  }

  lemma FirstIndex(a: string, b: string, c: char)
    requires c !in a
    ensures IndexOf(a + [c] + b, c) == |a|
    ensures IndexOf(a, c) == |a|
  {
    var s := a + [c] + b;
    assert s[|a|] == c;
    assert forall k :: 0 <= k < |a| ==> s[k] == a[k];
  }

  /** A line without the carriage return that a line end after it would take along. */
  function Unreturned(l: string): string {
    if EndsIn(l, '\r') then l[..|l| - 1] else l
  }

  /** What comes back of a list: every line but the last has a line end after it. */
  function AsRead(items: seq<string>): (read: seq<string>)
    ensures |read| == |items|
    ensures forall i :: 0 <= i < |items| ==> read[i] == if i < |items| - 1 then Unreturned(items[i]) else items[i]
  {
    if |items| <= 1 then items else [Unreturned(items[0])] + AsRead(items[1..])
  }

  lemma {:induction false} LineThenRest(line: string, rest: string)
    requires '\n' !in line
    ensures Lines(line + "\n" + rest) == [Unreturned(line)] + Lines(rest)
    ensures line != "" ==> Lines(line) == [line]
  {
    var s := line + "\n" + rest;
    FirstIndex(line, rest, '\n');
    assert s[..|line|] == line && s[|line| + 1..] == rest;
  }

  lemma {:induction false} BulletUnreturned(item: string)
    ensures Unreturned("- " + item) == "- " + Unreturned(item)
    ensures '\n' !in item ==> '\n' !in "- " + item
  {
    var b := "- " + item;
    assert item != "" ==> b[|b| - 1] == item[|item| - 1];
    assert EndsIn(item, '\r') ==> b[..|b| - 1] == "- " + item[..|item| - 1];
  }

  lemma {:induction false} BulletsComeBackAsRead(items: seq<string>)
    requires forall i :: 0 <= i < |items| ==> '\n' !in items[i]
    ensures Bulleted(Lines(Bullets(items))) == AsRead(items)
  {
    if items != [] {
      var first := "- " + items[0];
      BulletUnreturned(items[0]);
      if |items| == 1 {
        LineThenRest(first, "");
        assert [first] == [first] + [];
        BulletedFirst(items[0], []);
      } else {
        var rest := Bullets(items[1..]);
        BulletsComeBackAsRead(items[1..]);
        LineThenRest(first, rest);
        assert Bullets(items) == first + "\n" + rest;
        BulletedFirst(Unreturned(items[0]), Lines(rest));
      }
    }
  }

  lemma {:induction false} LinesHaveNoEnds(s: string)
    ensures forall l :: l in Lines(s) ==> '\n' !in l
  {
    if s != "" && IndexOf(s, '\n') < |s| {
      LinesHaveNoEnds(s[IndexOf(s, '\n') + 1..]);
    }
  }

  lemma {:induction false} BulletedHaveNoEnds(lines: seq<string>)
    requires forall l :: l in lines ==> '\n' !in l
    ensures forall l :: l in Bulleted(lines) ==> '\n' !in l
  {
    if lines != [] {
      BulletedHaveNoEnds(lines[1..]);
      assert lines[0] in lines;
      assert "- " <= lines[0] ==> forall c :: c in lines[0][2..] ==> c in lines[0];
    }
  }

  /** A list comes back as it went in exactly when none of its lines holds a line end and
      none but the last ends in a carriage return. */
  lemma {:induction false} BulletsReadBackIff(items: seq<string>)
    ensures Bulleted(Lines(Bullets(items))) == items <==>
      (forall i :: 0 <= i < |items| ==> '\n' !in items[i]) &&
      (forall i :: 0 <= i < |items| - 1 ==> !EndsIn(items[i], '\r'))
  {
    if forall i :: 0 <= i < |items| ==> '\n' !in items[i] {
      BulletsComeBackAsRead(items);
      assert forall i :: 0 <= i < |items| - 1 && EndsIn(items[i], '\r') ==> |Unreturned(items[i])| < |items[i]|;
    } else {
      LinesHaveNoEnds(Bullets(items));
      BulletedHaveNoEnds(Lines(Bullets(items)));
      var i :| 0 <= i < |items| && '\n' in items[i];
      assert items[i] in items;
    }
  }

  lemma BulletedFirst(item: string, rest: seq<string>)
    ensures Bulleted(["- " + item] + rest) == [item] + Bulleted(rest)
  {
    var b := "- " + item;
    assert b[2..] == item && "- " <= b;
    assert ([b] + rest)[1..] == rest;
  }

  lemma BlankLineFreeJoin(a: string, b: string)
    requires BlankLineFree(a) && BlankLineFree(b) && !EndsIn(a, '\n')
    ensures BlankLineFree(a + b)
  {
    var s := a + b;
    forall i | 0 <= i < |s| - 1 ensures !(s[i] == '\n' && s[i + 1] == '\n') {
      if i >= |a| {
        assert s[i] == b[i - |a|] && s[i + 1] == b[i - |a| + 1];
      }
    }
  }

  lemma OneLine(line: string)
    requires '\n' !in line
    ensures BlankLineFree("\n" + line) && (line != "" ==> !EndsIn("\n" + line, '\n'))
  {
    var s := "\n" + line;
    assert forall k :: 1 <= k < |s| ==> s[k] == line[k - 1];
  }

  lemma {:induction false} Regrouped(line: string, rest: string)
    ensures "\n" + (line + "\n" + rest) == ("\n" + line) + ("\n" + rest)
  {
  }

  lemma {:induction false} BulletsHaveNoBlankLine(items: seq<string>)
    requires forall i :: 0 <= i < |items| ==> '\n' !in items[i]
    ensures BlankLineFree("\n" + Bullets(items))
  {
    if items == [] {
      OneLine("");
    } else {
      var line := "- " + items[0];
      BulletUnreturned(items[0]);
      OneLine(line);
      if |items| > 1 {
        BulletsHaveNoBlankLine(items[1..]);
        var rest := Bullets(items[1..]);
        BlankLineFreeJoin("\n" + line, "\n" + rest);
        assert Bullets(items) == line + "\n" + rest;
        Regrouped(line, rest);
      }
    }
  }
}
