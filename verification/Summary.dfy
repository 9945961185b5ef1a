/** The text put in place of messages that are summed up: how it is printed, and how a
    later compaction reads it back (agent/src/compact.rs). */
module Summary {
  import opened Conversation
  import opened Bytes
  import opened Markers

  /** The fixed texts of a summary. `calls` is the call section's heading without
      the line end it finishes with; an operator heading is `headingStart`, a number,
      ` ---` and a line end. */
  datatype Wording = Wording(
    header: string,
    intro: string,
    calls: string,
    operator: string,
    carryOn: string,
    headingStart: string)

  /** What the parser relies on: each section starts with a blank line and a heading of
      one line, no two headings begin alike, and the introduction ends in a blank
      line after one that starts no section. */
  predicate WellWorded(w: Wording) {
    Marker(w.calls) && Marker(w.operator) && Marker(w.carryOn) && Marker(w.headingStart) &&
    Differ(w.calls, w.operator) && Differ(w.operator, w.calls) &&
    w.carryOn[2] !in {w.calls[2], w.operator[2]} &&
    w.headingStart[2] !in {w.calls[2], w.operator[2], w.carryOn[2]} &&
    !IsDigit(w.headingStart[|w.headingStart| - 1]) &&
    !InNotes(w.calls[2]) && !InNotes(w.carryOn[2]) && !InNotes(w.headingStart[2]) &&
    w.header <= w.intro && "[harness]" <= w.header &&
    |w.intro| > 2 && w.intro[|w.intro| - 2..] == "\n\n" &&
    IntroFree(w.intro, w.calls[2]) && IntroFree(w.intro, w.operator[2])
  }

  /** The introduction nowhere has a blank line and then a section's first character. */
  predicate IntroFree(intro: string, c: char) {
    !Contains(intro, "\n\n" + [c])
  }

  /** The characters of the harness's notes on what it left out. */
  const NOTE_CHARS := "[. bytes left out]" + "(earlier messages)"

  predicate InNotes(c: char) {
    IsDigit(c) || c in NOTE_CHARS
  }

  const HEADING_END := " ---\n"

  // ---------------------------------------------------------------- printing

  function Heading(w: Wording, n: nat): string {
    w.headingStart + Decimal(n) + HEADING_END
  }

  /** The operator's messages, each under a numbered heading. */
  function Headed(w: Wording, said: seq<string>, n: nat): string {
    if said == [] then "" else Heading(w, n) + said[0] + Headed(w, said[1..], n + 1)
  }

  function CallSection(w: Wording, calls: seq<string>): string {
    if calls == [] then "" else w.calls + ("\n" + Bullets(calls))
  }

  function OperatorSection(w: Wording, said: seq<string>): string {
    if said == [] then "" else w.operator + Headed(w, said, 1)
  }

  /** The whole message: notes, calls, the operator's words, and whether anything follows. */
  function Printed(w: Wording, notes: string, calls: seq<string>, said: seq<string>, atEnd: bool): string {
    w.intro + notes + CallSection(w, calls) + OperatorSection(w, said) + (if atEnd then w.carryOn else "")
  }

  // ----------------------------------------------------------------- parsing

  /** The call lines a summary lists. */
  function ListedIn(w: Wording, text: string): seq<string> {
    var at := SplitOnce(text, w.calls + "\n");
    if at.None? then []
    else
      var listed := at.value.1;
      var byOperator := SplitOnce(listed, w.operator);
      var byEnd := SplitOnce(listed, w.carryOn);
      Bulleted(Lines(
        if byOperator.Some? then byOperator.value.0
        else if byEnd.Some? then byEnd.value.0
        else listed))
  }

  /** How many digits stand at `i`. */
  function DigitsAt(s: string, i: nat): (n: nat)
    requires i <= |s|
    ensures i + n <= |s| && (forall k :: i <= k < i + n ==> IsDigit(s[k]))
    ensures i + n < |s| ==> !IsDigit(s[i + n])
    decreases |s| - i
  {
    if i < |s| && IsDigit(s[i]) then 1 + DigitsAt(s, i + 1) else 0
  }

  /** The end of an operator heading standing at `i`, if one does. */
  function HeadingEnd(w: Wording, s: string, i: nat): (r: Option<nat>)
    ensures r.Some? ==> i < r.value <= |s|
  {
    if !OccursAt(s, w.headingStart, i) then None
    else
      var from := i + |w.headingStart|;
      var digits := DigitsAt(s, from);
      if digits > 0 && OccursAt(s, HEADING_END, from + digits)
      then Some(from + digits + |HEADING_END|)
      else None
  }

  /** The pieces between operator headings, from the first one on, leftmost first. */
  function Pieces(w: Wording, s: string, start: nat, i: nat): seq<string>
    requires start <= i <= |s|
    decreases |s| - i
  {
    var end := HeadingEnd(w, s, i);
    if end.Some? then [s[start..i]] + Pieces(w, s, end.value, end.value)
    else if i == |s| then [s[start..]]
    else Pieces(w, s, start, i + 1)
  }

  /** What a summary quotes of the operator. */
  function RestatedIn(w: Wording, text: string): seq<string> {
    var at := SplitOnce(text, w.operator);
    if at.None? then []
    else
      var body := StripSuffix(at.value.1, w.carryOn);
      var restated := if body.Some? then body.value else at.value.1;
      var pieces := Pieces(w, restated, 0, 0);
      if pieces == [] then [] else pieces[1..]
  }

  // ------------------------------------------------------------ what is safe

  /** Notes that open no section of their own. */
  predicate CleanNotes(w: Wording, notes: string) {
    !Contains("\n\n" + notes, w.calls) && !Contains("\n\n" + notes, w.operator)
  }

  /** An operator's message that holds no section marker, even put on a new line. */
  predicate CleanSaid(w: Wording, m: string) {
    !Contains("\n" + m, w.calls) && !Contains("\n" + m, w.carryOn) && !Contains("\n" + m, w.headingStart)
  }

  /** A text that nowhere holds the words of a heading, so that no part of it can come to
      stand as one. */
  predicate WordsFree(w: Wording, m: string)
    requires WellWorded(w)
  {
    !Contains(m, w.calls[2..]) && !Contains(m, w.carryOn[2..]) && !Contains(m, w.headingStart[2..])
  }

  /** Lines that are one line each. */
  predicate SingleLines(calls: seq<string>) {
    forall i :: 0 <= i < |calls| ==> '\n' !in calls[i]
  }

  predicate AllCleanSaid(w: Wording, said: seq<string>) {
    forall i :: 0 <= i < |said| ==> CleanSaid(w, said[i])
  }

  // ----------------------------------------------------- markers in the parts

  lemma {:induction false} IntroAt(intro: string, c: char, i: nat)
    requires IntroFree(intro, c) && i + 2 < |intro|
    ensures !(intro[i] == '\n' && intro[i + 1] == '\n' && intro[i + 2] == c)
  {
    assert intro[i..i + 3] == [intro[i], intro[i + 1], intro[i + 2]];
    assert !OccursAt(intro, "\n\n" + [c], i);
  }

  lemma {:induction false} IntroIsFree(w: Wording, notes: string, p: string)
    requires WellWorded(w) && p in {w.calls, w.operator} && !Contains("\n\n" + notes, p)
    ensures !Contains(w.intro + notes, p)
  {
    var s, n, tail := w.intro + notes, |w.intro| - 2, "\n\n" + notes;
    assert s == w.intro[..n] + tail;
    forall i | 0 <= i <= |s| ensures !OccursAt(s, p, i) {
      OccursChar(s, p, i, 0);
      OccursChar(s, p, i, 1);
      OccursChar(s, p, i, 2);
      if i >= n {
        assert forall k :: n <= k < |s| ==> s[k] == tail[k - n];
        var at: nat := i - n;
        assert OccursAt(s, p, i) ==> OccursAt(tail, p, at);
      } else {
        IntroAt(w.intro, p[2], i);
      }
    }
  }

  /** A heading line is a marker of its own kind. */
  lemma {:induction false} HeadingLine(w: Wording, n: nat)
    requires WellWorded(w)
    ensures var line := w.headingStart + Decimal(n) + " ---";
      Marker(line) && line[2] == w.headingStart[2] && Heading(w, n) == line + "\n" && !EndsIn(line, '\n')
  {
    var line := w.headingStart + Decimal(n) + " ---";
    assert forall i :: 0 <= i < |w.headingStart| ==> line[i] == w.headingStart[i];
    assert forall i :: 0 <= i < |Decimal(n)| ==> line[|w.headingStart| + i] == Decimal(n)[i];
    var d := |w.headingStart| + |Decimal(n)|;
    assert line[d..] == " ---";
    forall i | 2 <= i < |line| ensures line[i] != '\n' {
      if |w.headingStart| <= i < d {
        assert IsDigit(Decimal(n)[i - |w.headingStart|]);
      } else if d <= i {
        assert line[i] == " ---"[i - d];
      }
    }
  }

  lemma {:induction false} OneHeadedIsFree(w: Wording, m: string, n: nat, p: string)
    requires WellWorded(w) && p in {w.calls, w.carryOn} && CleanSaid(w, m)
    ensures var first := Heading(w, n) + m; !Contains(first, p) && |first| > 2 && first[..2] == "\n\n"
  {
    var line := w.headingStart + Decimal(n) + " ---";
    HeadingLine(w, n);
    assert line[2] != p[2];
    OtherMarker(line, p);
    Joined(line, "\n" + m, p);
    assert Heading(w, n) + m == line + ("\n" + m);
  }

  lemma {:induction false} HeadedIsFree(w: Wording, said: seq<string>, n: nat, p: string)
    requires WellWorded(w) && p in {w.calls, w.carryOn} && AllCleanSaid(w, said)
    ensures !Contains(Headed(w, said, n), p)
    ensures said != [] ==> |Headed(w, said, n)| > 2 && Headed(w, said, n)[..2] == "\n\n"
  {
    if said == [] {
      NoBlankLine("", p);
    } else {
      var first := Heading(w, n) + said[0];
      OneHeadedIsFree(w, said[0], n, p);
      HeadedIsFree(w, said[1..], n + 1, p);
      Joined(first, Headed(w, said[1..], n + 1), p);
    }
  }

  lemma {:induction false} CallsAreFree(w: Wording, calls: seq<string>, p: string)
    requires WellWorded(w) && p == w.operator && SingleLines(calls)
    ensures !Contains(CallSection(w, calls), p)
  {
    if calls == [] {
      NoBlankLine("", p);
    } else {
      BulletsHaveNoBlankLine(calls);
      NoBlankLine("\n" + Bullets(calls), p);
      OtherMarker(w.calls, p);
      Joined(w.calls, "\n" + Bullets(calls), p);
    }
  }

  // ----------------------------------------------------------- round trips

  /** The end of the text after the call section. */
  function Tail(w: Wording, said: seq<string>, atEnd: bool): string {
    OperatorSection(w, said) + (if atEnd then w.carryOn else "")
  }

  lemma {:induction false} EndIsFree(w: Wording, atEnd: bool, p: string)
    requires WellWorded(w) && p in {w.calls, w.operator}
    ensures !Contains(if atEnd then w.carryOn else "", p)
  {
    if atEnd {
      assert w.carryOn[2] != p[2];
      OtherMarker(w.carryOn, p);
    } else {
      NoBlankLine("", p);
    }
  }

  lemma {:induction false} TailHasNoCalls(w: Wording, said: seq<string>, atEnd: bool)
    requires WellWorded(w) && AllCleanSaid(w, said)
    ensures !Contains(Tail(w, said, atEnd), w.calls)
    ensures var tail := Tail(w, said, atEnd); tail == "" || (|tail| > 1 && tail[0] == '\n' && tail[1] == '\n')
  {
    var end := if atEnd then w.carryOn else "";
    EndIsFree(w, atEnd, w.calls);
    if said != [] {
      OtherMarker(w.operator, w.calls);
      HeadedIsFree(w, said, 1, w.calls);
      var headed := Headed(w, said, 1);
      assert headed[0] == headed[..2][0] && headed[1] == headed[..2][1];
      Joined(w.operator, headed, w.calls);
      Joined(w.operator + headed, end, w.calls);
    } else {
      assert Tail(w, said, atEnd) == end;
    }
  }

  /** The list ends where it was ended. */
  lemma {:induction false} ListEnds(w: Wording, bullets: string, said: seq<string>, atEnd: bool)
    requires WellWorded(w) && !Contains(bullets, w.operator) && !Contains(bullets, w.carryOn)
    ensures var listed := bullets + Tail(w, said, atEnd);
      var byOperator, byEnd := SplitOnce(listed, w.operator), SplitOnce(listed, w.carryOn);
      bullets == if byOperator.Some? then byOperator.value.0 else if byEnd.Some? then byEnd.value.0 else listed
  {
    var end := if atEnd then w.carryOn else "";
    var listed := bullets + Tail(w, said, atEnd);
    if said != [] {
      assert listed == bullets + w.operator + (Headed(w, said, 1) + end);
      SplitsThere(bullets, w.operator, Headed(w, said, 1) + end);
    } else {
      assert listed == bullets + end;
      EndIsFree(w, atEnd, w.operator);
      Joined(bullets, end, w.operator);
      NoSplit(listed, w.operator);
      if atEnd {
        assert listed == bullets + w.carryOn + "";
        SplitsThere(bullets, w.carryOn, "");
      } else {
        assert listed == bullets;
        NoSplit(listed, w.carryOn);
      }
    }
  }

  lemma {:induction false} NoCallsReadBack(w: Wording, notes: string, said: seq<string>, atEnd: bool)
    requires WellWorded(w) && CleanNotes(w, notes) && AllCleanSaid(w, said)
    ensures ListedIn(w, w.intro + notes + Tail(w, said, atEnd)) == []
  {
    IntroIsFree(w, notes, w.calls);
    TailHasNoCalls(w, said, atEnd);
    Joined(w.intro + notes, Tail(w, said, atEnd), w.calls);
    NoLineSplit(w.intro + notes + Tail(w, said, atEnd), w.calls);
  }

  lemma {:induction false} SomeCallsReadBack(w: Wording, notes: string, calls: seq<string>, said: seq<string>, atEnd: bool)
    requires WellWorded(w) && CleanNotes(w, notes) && SingleLines(calls)
    ensures ListedIn(w, w.intro + notes + (w.calls + "\n") + (Bullets(calls) + Tail(w, said, atEnd))) == AsRead(calls)
  {
    var bullets := Bullets(calls);
    IntroIsFree(w, notes, w.calls);
    LineSplitsThere(w.intro + notes, w.calls, bullets + Tail(w, said, atEnd));
    BulletsHaveNoBlankLine(calls);
    assert forall i :: 0 <= i < |bullets| ==> bullets[i] == ("\n" + bullets)[i + 1];
    NoBlankLine(bullets, w.operator);
    NoBlankLine(bullets, w.carryOn);
    ListEnds(w, bullets, said, atEnd);
    BulletsComeBackAsRead(calls);
  }

  lemma {:induction false} Regroup(a: string, c: string, n: string, b: string, o: string, e: string)
    ensures a + (c + (n + b)) + o + e == a + (c + n) + (b + (o + e))
    ensures a + "" + o + e == a + (o + e)
    ensures a + (c + n) + e == a + c + (n + e)
  {
  }

  /** The calls read out of a summary are those it was printed with, exactly when none of
      them but the last ends in a carriage return. */
  lemma {:induction false} CallsReadBackIff(w: Wording, notes: string, calls: seq<string>, said: seq<string>, atEnd: bool)
    requires WellWorded(w) && CleanNotes(w, notes) && SingleLines(calls) && AllCleanSaid(w, said)
    ensures ListedIn(w, Printed(w, notes, calls, said, atEnd)) == calls <==>
      forall i :: 0 <= i < |calls| - 1 ==> !EndsIn(calls[i], '\r')
  {
    CallsReadAs(w, notes, calls, said, atEnd);
    assert forall i :: 0 <= i < |calls| - 1 && EndsIn(calls[i], '\r') ==> |AsRead(calls)[i]| < |calls[i]|;
  }

  lemma {:induction false} CallsReadAs(w: Wording, notes: string, calls: seq<string>, said: seq<string>, atEnd: bool)
    requires WellWorded(w) && CleanNotes(w, notes) && SingleLines(calls) && AllCleanSaid(w, said)
    ensures ListedIn(w, Printed(w, notes, calls, said, atEnd)) == AsRead(calls)
  {
    Regroup(w.intro + notes, w.calls, "\n", Bullets(calls), OperatorSection(w, said), if atEnd then w.carryOn else "");
    if calls == [] {
      NoCallsReadBack(w, notes, said, atEnd);
    } else {
      SomeCallsReadBack(w, notes, calls, said, atEnd);
    }
  }

  /** Where no heading stands, reading on finds the same pieces. */
  lemma {:induction false} SkipTo(w: Wording, s: string, start: nat, i: nat, j: nat)
    requires start <= i <= j <= |s|
    requires HeadingFree(w, s, i, j)
    ensures Pieces(w, s, start, i) == Pieces(w, s, start, j)
    decreases j - i
  {
    if i < j {
      SkipTo(w, s, start, i + 1, j);
    }
  }

  lemma {:induction false} DigitsThere(s: string, i: nat, n: nat)
    requires i + n < |s| && !IsDigit(s[i + n]) && forall k :: i <= k < i + n ==> IsDigit(s[k])
    ensures DigitsAt(s, i) == n
    decreases n
  {
    if n > 0 {
      DigitsThere(s, i + 1, n - 1);
    }
  }

  lemma {:induction false} OccursThere(a: string, p: string, b: string)
    ensures OccursAt(a + p + b, p, |a|)
  {
  }

  lemma {:induction false} HeadingParts(a: string, x: string, d: string, z: string, b: string)
    requires z != ""
    ensures var s := a + (x + d + z) + b; var from := |a| + |x|;
      OccursAt(s, x, |a|) && OccursAt(s, z, from + |d|) && s[from + |d|] == z[0] &&
      forall k :: from <= k < from + |d| ==> s[k] == d[k - from]
  {
    var s := a + (x + d + z) + b;
    OccursThere(a, x, d + z + b);
    assert s == a + x + (d + z + b);
    OccursThere(a + x + d, z, b);
    assert s == a + x + d + z + b;
    OccursThere(a + x, d, z + b);
    assert s == a + x + d + (z + b);
  }

  lemma {:induction false} NoHeadingInside(w: Wording, pre: string, m: string, rest: string, i: nat)
    requires WellWorded(w) && CleanSaid(w, m) && (rest == "" || (|rest| > 1 && rest[..2] == "\n\n"))
    requires |pre| <= i < |pre| + |m|
    ensures HeadingEnd(w, pre + m + rest, i).None?
  {
    var p, at: nat := w.headingStart, i - |pre|;
    assert rest != "" ==> rest[0] == rest[..2][0] && rest[1] == rest[..2][1];
    StartsInside(m, rest, p, at);
    assert pre + m + rest == pre + (m + rest);
    OccursFurtherOn(pre, m + rest, p, at);
    OccursFurtherOn("\n", m, p, at);
  }

  lemma {:induction false} OccursFurtherOn(pre: string, s: string, p: string, at: nat)
    ensures OccursAt(pre + s, p, |pre| + at) <==> OccursAt(s, p, at)
  {
    var all := pre + s;
    if |pre| + at + |p| <= |all| {
      assert all[|pre| + at..|pre| + at + |p|] == s[at..at + |p|];
    }
  }

  predicate HeadingFree(w: Wording, s: string, i: nat, j: nat) {
    forall k :: i <= k < j ==> HeadingEnd(w, s, k).None?
  }

  lemma {:induction false} MessageIsHeadingFree(w: Wording, pre: string, m: string, rest: string)
    requires WellWorded(w) && CleanSaid(w, m) && (rest == "" || (|rest| > 1 && rest[..2] == "\n\n"))
    ensures HeadingFree(w, pre + m + rest, |pre|, |pre| + |m|)
  {
    forall k | |pre| <= k < |pre| + |m| ensures HeadingEnd(w, pre + m + rest, k).None? {
      NoHeadingInside(w, pre, m, rest, k);
    }
  }

  lemma {:induction false} PieceBefore(w: Wording, s: string, start: nat, at: nat, end: nat)
    requires start <= at <= |s| && HeadingFree(w, s, start, at) && HeadingEnd(w, s, at) == Some(end)
    ensures end <= |s| && Pieces(w, s, start, start) == [s[start..at]] + Pieces(w, s, end, end)
  {
    SkipTo(w, s, start, start, at);
  }

  lemma {:induction false} Middle(pre: string, m: string, h: string, rest: string)
    ensures pre + m + (h + rest) == pre + m + h + rest
    ensures (pre + m + (h + rest))[|pre|..|pre| + |m|] == m
  {
  }

  /** A message followed by a heading is one piece. */
  lemma {:induction false} OnePiece(w: Wording, s: string, pre: string, m: string, tail: string, end: nat)
    requires s == pre + m + tail && HeadingFree(w, s, |pre|, |pre| + |m|)
    requires HeadingEnd(w, s, |pre| + |m|) == Some(end)
    ensures end <= |s| && Pieces(w, s, |pre|, |pre|) == [m] + Pieces(w, s, end, end)
  {
    assert s[|pre|..|pre| + |m|] == m;
    PieceBefore(w, s, |pre|, |pre| + |m|, end);
  }

  lemma {:induction false} HeadingOpens(w: Wording, n: nat, rest: string)
    requires WellWorded(w)
    ensures var h := Heading(w, n) + rest; |h| > 1 && h[..2] == "\n\n"
  {
    var h := Heading(w, n) + rest;
    assert h[0] == w.headingStart[0] && h[1] == w.headingStart[1];
  }

  lemma {:induction false} HeadingPartsAfter(pre: string, m: string, x: string, d: string, z: string, b: string)
    requires z != ""
    ensures var s := pre + m + (x + d + z + b); var from := |pre| + |m| + |x|;
      OccursAt(s, x, |pre| + |m|) && OccursAt(s, z, from + |d|) && s[from + |d|] == z[0] &&
      forall k :: from <= k < from + |d| ==> s[k] == d[k - from]
  {
    HeadingParts(pre + m, x, d, z, b);
    Middle(pre, m, x + d + z, b);
  }

  lemma {:induction false} HeadingFoundAfter(w: Wording, pre: string, m: string, h: string, rest: string, n: nat)
    requires WellWorded(w) && h == Heading(w, n)
    ensures HeadingEnd(w, pre + m + (h + rest), |pre| + |m|) == Some(|pre| + |m| + |h|)
  {
    HeadingPartsAfter(pre, m, w.headingStart, Decimal(n), HEADING_END, rest);
    DigitsThere(pre + m + (h + rest), |pre| + |m| + |w.headingStart|, |Decimal(n)|);
  }

  lemma {:induction false} MessageBeforeHeading(w: Wording, pre: string, m: string, h: string, rest: string, n: nat)
    requires WellWorded(w) && CleanSaid(w, m) && h == Heading(w, n)
    ensures HeadingFree(w, pre + m + (h + rest), |pre|, |pre| + |m|)
  {
    HeadingOpens(w, n, rest);
    MessageIsHeadingFree(w, pre, m, h + rest);
  }

  lemma {:induction false} Chain(pre: string, m: string, h: string, first: string, later: string)
    ensures pre + m + (h + (first + later)) == pre + m + h + first + later
    ensures |pre + m + h| == |pre| + |m| + |h|
  {
  }

  /** One heading read, the rest is read as if it stood alone. */
  lemma {:induction false} PiecesStep(w: Wording, s: string, pre: string, m: string, tail: string, end: nat, said: seq<string>)
    requires s == pre + m + tail && HeadingFree(w, s, |pre|, |pre| + |m|)
    requires HeadingEnd(w, s, |pre| + |m|) == Some(end) && end <= |s| && Pieces(w, s, end, end) == said
    ensures Pieces(w, s, |pre|, |pre|) == [m] + said
  {
    OnePiece(w, s, pre, m, tail, end);
  }

  lemma {:induction false} PiecesMore(w: Wording, pre: string, m: string, h: string, first: string, later: string, said: seq<string>)
    requires var s := pre + m + (h + (first + later));
      HeadingFree(w, s, |pre|, |pre| + |m|) && HeadingEnd(w, s, |pre| + |m|) == Some(|pre| + |m| + |h|)
    requires Pieces(w, pre + m + h + first + later, |pre + m + h|, |pre + m + h|) == said
    ensures Pieces(w, pre + m + (h + (first + later)), |pre|, |pre|) == [m] + said
  {
    Chain(pre, m, h, first, later);
    PiecesStep(w, pre + m + (h + (first + later)), pre, m, h + (first + later), |pre| + |m| + |h|, said);
  }

  lemma {:induction false} PiecesEnd(w: Wording, pre: string, m: string)
    requires WellWorded(w) && CleanSaid(w, m)
    ensures Pieces(w, pre + m + "", |pre|, |pre|) == [m] + []
  {
    MessageIsHeadingFree(w, pre, m, "");
    SkipTo(w, pre + m + "", |pre|, |pre|, |pre| + |m|);
    LastPiece(w, pre, m);
  }

  lemma {:induction false} PiecesFirst(w: Wording, pre: string, m: string, h: string, first: string, later: string,
                                       said: seq<string>, n: nat)
    requires WellWorded(w) && CleanSaid(w, m) && h == Heading(w, n)
    requires Pieces(w, pre + m + h + first + later, |pre + m + h|, |pre + m + h|) == said
    ensures Pieces(w, pre + m + (h + (first + later)), |pre|, |pre|) == [m] + said
  {
    MessageBeforeHeading(w, pre, m, h, first + later, n);
    HeadingFoundAfter(w, pre, m, h, first + later, n);
    PiecesMore(w, pre, m, h, first, later, said);
  }

  lemma {:induction false} PiecesReadBack(w: Wording, pre: string, m: string, said: seq<string>, n: nat)
    requires WellWorded(w) && CleanSaid(w, m) && AllCleanSaid(w, said)
    ensures Pieces(w, pre + m + Headed(w, said, n), |pre|, |pre|) == [m] + said
    decreases |said|
  {
    if said == [] {
      PiecesEnd(w, pre, m);
    } else {
      HeadedFirst(w, said, n);
      PiecesReadBack(w, pre + m + Heading(w, n), said[0], said[1..], n + 1);
      assert [said[0]] + said[1..] == said;
      PiecesFirst(w, pre, m, Heading(w, n), said[0], Headed(w, said[1..], n + 1), said, n);
    }
  }

  lemma {:induction false} HeadedFirst(w: Wording, said: seq<string>, n: nat)
    requires said != []
    ensures Headed(w, said, n) == Heading(w, n) + (said[0] + Headed(w, said[1..], n + 1))
  {
  }

  lemma {:induction false} LastPiece(w: Wording, pre: string, m: string)
    requires WellWorded(w)
    ensures Pieces(w, pre + m + "", |pre|, |pre| + |m|) == [m] + []
  {
    var s := pre + m + "";
    assert s[|pre|..] == m;
    assert HeadingEnd(w, s, |s|).None?;
  }

  lemma {:induction false} EmptyIsClean(w: Wording)
    requires WellWorded(w)
    ensures CleanSaid(w, "")
  {
    assert "\n" + "" == "\n";
    NoBlankLine("\n", w.calls);
    NoBlankLine("\n", w.carryOn);
    NoBlankLine("\n", w.headingStart);
  }

  lemma {:induction false} HeadedReadsBack(w: Wording, said: seq<string>)
    requires WellWorded(w) && AllCleanSaid(w, said)
    ensures Pieces(w, Headed(w, said, 1), 0, 0) == [""] + said
  {
    EmptyIsClean(w);
    PiecesReadBack(w, "", "", said, 1);
    assert "" + "" + Headed(w, said, 1) == Headed(w, said, 1);
  }

  lemma {:induction false} BodyReadsBack(w: Wording, said: seq<string>, atEnd: bool)
    requires WellWorded(w) && AllCleanSaid(w, said)
    ensures var rest := Headed(w, said, 1) + (if atEnd then w.carryOn else "");
      var body := StripSuffix(rest, w.carryOn);
      (if body.Some? then body.value else rest) == Headed(w, said, 1)
  {
    var headed := Headed(w, said, 1);
    if atEnd {
      var rest := headed + w.carryOn;
      assert rest[|rest| - |w.carryOn|..] == w.carryOn && rest[..|headed|] == headed;
    } else {
      assert headed + "" == headed;
      HeadedIsFree(w, said, 1, w.carryOn);
      if EndsWith(headed, w.carryOn) {
        var at := |headed| - |w.carryOn|;
        assert forall k :: 0 <= k < |w.carryOn| ==> headed[at + k] == headed[at..][k];
        assert OccursAt(headed, w.carryOn, at);
      }
    }
  }

  /** Nothing before the operator section looks like one. */
  lemma {:induction false} FrontIsFree(w: Wording, notes: string, calls: seq<string>)
    requires WellWorded(w) && CleanNotes(w, notes) && SingleLines(calls)
    ensures !Contains(w.intro + notes + CallSection(w, calls), w.operator)
  {
    IntroIsFree(w, notes, w.operator);
    CallsAreFree(w, calls, w.operator);
    Joined(w.intro + notes, CallSection(w, calls), w.operator);
  }

  /** The operator's messages a summary was printed with are those read out of it. */
  lemma {:induction false} SaidReadsBack(w: Wording, notes: string, calls: seq<string>, said: seq<string>, atEnd: bool)
    requires WellWorded(w) && CleanNotes(w, notes) && SingleLines(calls) && AllCleanSaid(w, said)
    ensures RestatedIn(w, Printed(w, notes, calls, said, atEnd)) == said
  {
    var end := if atEnd then w.carryOn else "";
    var front := w.intro + notes + CallSection(w, calls);
    FrontIsFree(w, notes, calls);
    if said == [] {
      EndIsFree(w, atEnd, w.operator);
      Joined(front, end, w.operator);
      NoSplit(front + end, w.operator);
      assert front + "" == front;
    } else {
      var headed := Headed(w, said, 1);
      Regroup(front, w.operator, headed, "", "", end);
      SplitsThere(front, w.operator, headed + end);
      BodyReadsBack(w, said, atEnd);
      HeadedReadsBack(w, said);
      assert ([""] + said)[1..] == said;
    }
  }
}
