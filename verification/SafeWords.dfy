/** Cutting an operator's long message never makes a section marker of it, however often
    it is cut (agent/src/compact.rs). */
module SafeWords {
  import opened Bytes
  import opened Markers
  import opened Summary
  import opened Remembering
  import opened CallMemory

  /** Words on one line that occur neither in a text nor in the next do not occur where the
      two meet at a line end. */
  lemma {:induction false} NotAcrossLines(a: string, b: string, p: string)
    requires p != "" && '\n' !in p && !Contains(a, p) && !Contains(b, p)
    ensures !Contains(a + "\n" + b, p)
  {
    var s := a + "\n" + b;
    forall i | 0 <= i <= |s|
      ensures !OccursAt(s, p, i)
    {
      if i + |p| <= |a| {
        var at: nat := i;
        assert OccursAt(s, p, at) ==> OccursAt(a, p, at);
      } else if i <= |a| {
        OccursChar(s, p, i, |a| - i);
      } else {
        assert forall k :: |a| < k < |s| ==> s[k] == b[k - |a| - 1];
        var at: nat := i - |a| - 1;
        assert OccursAt(s, p, i) ==> OccursAt(b, p, at);
      }
    }
  }

  lemma {:induction false} NotInPart(s: string, from: nat, to: nat, p: string)
    requires from <= to <= |s| && !Contains(s, p)
    ensures !Contains(s[from..to], p)
  {
    forall i | 0 <= i <= to - from
      ensures !OccursAt(s[from..to], p, i)
    {
      var at: nat := from + i;
      assert OccursAt(s[from..to], p, i) ==> OccursAt(s, p, at);
    }
  }

  /** Words whose first character is in none of the notes are in none of the notes. */
  lemma {:induction false} NotInNote(note: string, p: string)
    requires p != "" && !InNotes(p[0]) && forall i :: 0 <= i < |note| ==> InNotes(note[i])
    ensures !Contains(note, p)
  {
    forall i | 0 <= i <= |note|
      ensures !OccursAt(note, p, i)
    {
      OccursChar(note, p, i, 0);
    }
  }

  lemma {:induction false} AllIn(a: string, d: string, b: string)
    requires forall i :: 0 <= i < |a| ==> InNotes(a[i])
    requires forall i :: 0 <= i < |d| ==> InNotes(d[i])
    requires forall i :: 0 <= i < |b| ==> InNotes(b[i])
    ensures forall i :: 0 <= i < |a + d + b| ==> InNotes((a + d + b)[i])
  {
  }

  lemma {:induction false} NotesAreNoteChars(n: nat)
    ensures forall i :: 0 <= i < |CutLine(n)| ==> InNotes(CutLine(n)[i])
    ensures forall i :: 0 <= i < |LeftOut(n)| ==> InNotes(LeftOut(n)[i])
  {
    var head, tail := "[... ", " bytes left out ...]";
    var open, close := "(", " earlier messages left out)";
    assert forall i :: 0 <= i < |head| ==> InNotes(head[i]);
    assert forall i :: 0 <= i < |tail| ==> InNotes(tail[i]);
    assert forall i :: 0 <= i < |open| ==> InNotes(open[i]);
    assert forall i :: 0 <= i < |close| ==> InNotes(close[i]);
    AllIn(head, Decimal(n), tail);
    AllIn(open, Decimal(n), close);
  }

  lemma {:induction false} HeadAndTailKeepsOut(s: string, p: string)
    requires p != "" && '\n' !in p && !InNotes(p[0]) && !Contains(s, p)
    ensures !Contains(HeadAndTail(s), p)
  {
    if |s| > SUMMARY_RESULT_BYTES {
      var head := FloorBoundary(s, SUMMARY_RESULT_BYTES * 3 / 4);
      var tail := CeilBoundary(s, |s| - SUMMARY_RESULT_BYTES / 4);
      CutKeepsOut(s, head, tail, tail - head, p);
    }
  }

  lemma {:induction false} CutKeepsOut(s: string, head: nat, tail: nat, n: nat, p: string)
    requires head <= |s| && tail <= |s| && p != "" && '\n' !in p && !InNotes(p[0]) && !Contains(s, p)
    ensures !Contains(s[..head] + CutNote(n) + s[tail..], p)
  {
    NotInPart(s, 0, head, p);
    NotInPart(s, tail, |s|, p);
    NotesAreNoteChars(n);
    NotInNote(CutLine(n), p);
    var a, m, b := s[..head], CutLine(n), s[tail..];
    assert s[0..head] == a && s[tail..|s|] == b;
    NotAcrossLines(m, b, p);
    NotAcrossLines(a, m + "\n" + b, p);
    Rejoined(a, m, b);
  }

  lemma {:induction false} Rejoined(a: string, m: string, b: string)
    ensures a + "\n" + (m + "\n" + b) == a + ("\n" + m + "\n") + b
  {
  }

  /** A heading's words: one line, and no note's. */
  lemma {:induction false} WordsOf(w: Wording, p: string)
    requires WellWorded(w) && p in {w.calls, w.carryOn, w.headingStart}
    ensures p[2..] != "" && '\n' !in p[2..] && !InNotes(p[2..][0])
  {
    assert p[2..][0] == p[2];
  }

  /** Without the words there is no marker. */
  lemma {:induction false} NoWordsNoMarker(m: string, p: string)
    requires |p| > 2 && !Contains(m, p[2..])
    ensures !Contains("\n" + m, p)
  {
    var s, q := "\n" + m, p[2..];
    forall i | 0 <= i <= |s|
      ensures !OccursAt(s, p, i)
    {
      if OccursAt(s, p, i) {
        assert forall k :: 0 <= k < |q| ==> s[i + (k + 2)] == p[k + 2] && m[i + 1 + k] == q[k];
        assert OccursAt(m, q, i + 1);
      }
    }
  }

  lemma {:induction false} FreeIsClean(w: Wording, m: string)
    requires WellWorded(w) && WordsFree(w, m)
    ensures CleanSaid(w, m)
  {
    NoWordsNoMarker(m, w.calls);
    NoWordsNoMarker(m, w.carryOn);
    NoWordsNoMarker(m, w.headingStart);
  }

  /** A message safe to restate stays so when it is cut. */
  lemma {:induction false} CutIsSafe(w: Wording, m: string)
    requires WellWorded(w) && Safe(w, m)
    ensures Safe(w, HeadAndTail(m))
  {
    if |m| > SUMMARY_RESULT_BYTES {
      WordsOf(w, w.calls);
      WordsOf(w, w.carryOn);
      WordsOf(w, w.headingStart);
      HeadAndTailKeepsOut(m, w.calls[2..]);
      HeadAndTailKeepsOut(m, w.carryOn[2..]);
      HeadAndTailKeepsOut(m, w.headingStart[2..]);
      FreeIsClean(w, HeadAndTail(m));
    }
  }

  lemma {:induction false} LeftOutIsSafe(w: Wording, n: nat)
    requires WellWorded(w)
    ensures Safe(w, LeftOut(n))
  {
    NotesAreNoteChars(n);
    WordsOf(w, w.calls);
    WordsOf(w, w.carryOn);
    WordsOf(w, w.headingStart);
    NotInNote(LeftOut(n), w.calls[2..]);
    NotInNote(LeftOut(n), w.carryOn[2..]);
    NotInNote(LeftOut(n), w.headingStart[2..]);
    FreeIsClean(w, LeftOut(n));
  }

  predicate AllSafe(w: Wording, said: seq<string>)
    requires WellWorded(w)
  {
    forall i :: 0 <= i < |said| ==> Safe(w, said[i])
  }

  lemma {:induction false} AllSafeConcat(w: Wording, a: seq<string>, b: seq<string>)
    requires WellWorded(w)
    ensures AllSafe(w, a + b) <==> AllSafe(w, a) && AllSafe(w, b)
  {
    assert forall i :: 0 <= i < |a| ==> a[i] == (a + b)[i];
    assert forall i :: 0 <= i < |b| ==> b[i] == (a + b)[|a| + i];
  }

  lemma {:induction false} FitIsSafe(w: Wording, said: seq<string>, dropped: nat)
    requires WellWorded(w) && AllSafe(w, said)
    ensures AllSafe(w, Fit(said, dropped).0)
    decreases |said|
  {
    if Total(said) > MAX_OPERATOR_BYTES && |said| > 2 {
      var rest := [said[0]] + said[2..];
      assert forall i :: 1 <= i < |rest| ==> rest[i] == said[i + 1];
      FitIsSafe(w, rest, dropped + 1);
    }
  }

  /** What a summary restates of safe messages is safe: cut, or left out with a note. */
  lemma {:induction false} RestatedIsSafe(w: Wording, said: seq<string>)
    requires WellWorded(w) && AllSafe(w, said)
    ensures AllSafe(w, Restated(Cut(said)))
  {
    forall i | 0 <= i < |said|
      ensures Safe(w, Cut(said)[i])
    {
      CutIsSafe(w, said[i]);
    }
    FitIsSafe(w, Cut(said), 0);
    var (kept, dropped) := Fit(Cut(said), 0);
    LeftOutIsSafe(w, dropped);
    if dropped > 0 && |kept| > 0 {
      SafeWith(w, kept, LeftOut(dropped));
    }
  }

  lemma {:induction false} SafeWith(w: Wording, kept: seq<string>, note: string)
    requires WellWorded(w) && AllSafe(w, kept) && kept != [] && Safe(w, note)
    ensures AllSafe(w, [kept[0], note] + kept[1..])
  {
    var r := [kept[0], note] + kept[1..];
    assert forall i :: 2 <= i < |r| ==> r[i] == kept[i - 1];
  }
}
