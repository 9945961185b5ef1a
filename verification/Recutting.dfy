/** An operator's long message is cut each time it is restated: what cutting leaves as it is,
    and what is left of a note once the message it stands in is cut again
    (agent/src/compact.rs). */
module Recutting {
  import opened Bytes
  import opened Remembering

  /** At most three bytes of a character follow its first. */
  predicate Characters(s: string) {
    forall i :: 0 <= i < |s| - 3 ==> !FourContinue(s, i)
  }

  predicate FourContinue(s: string, i: nat)
    requires i + 3 < |s|
  {
    Continues(s[i]) && Continues(s[i + 1]) && Continues(s[i + 2]) && Continues(s[i + 3])
  }

  lemma {:induction false} FloorReaches(s: string, i: nat, j: nat)
    requires j <= i <= |s| && IsCharBoundary(s, j)
    ensures FloorBoundary(s, i) >= j
  {
    if !IsCharBoundary(s, i) {
      FloorReaches(s, i - 1, j);
    }
  }

  /** A line's detail stands whole up to 160 bytes, and past that is cut at the last whole
      character of those, with an ellipsis. */
  lemma {:induction false} ShortenedIs(s: string)
    ensures |s| <= CALL_DETAIL_BYTES ==> Shorten(s) == s
    ensures |s| > CALL_DETAIL_BYTES ==>
      var n := |Shorten(s)| - 3;
      0 <= n <= CALL_DETAIL_BYTES && IsCharBoundary(s, n) && Shorten(s) == s[..n] + "\U{E2}\U{80}\U{A6}" &&
      forall j :: n < j <= CALL_DETAIL_BYTES ==> !IsCharBoundary(s, j)
  {
    if |s| > CALL_DETAIL_BYTES {
      forall j | FloorBoundary(s, CALL_DETAIL_BYTES) < j <= CALL_DETAIL_BYTES
        ensures !IsCharBoundary(s, j)
      {
        if IsCharBoundary(s, j) {
          FloorReaches(s, CALL_DETAIL_BYTES, j);
        }
      }
    }
  }

  lemma {:induction false} CeilReaches(s: string, i: nat, j: nat)
    requires i <= j <= |s| && IsCharBoundary(s, j)
    ensures CeilBoundary(s, i) <= j
    decreases j - i
  {
    if !IsCharBoundary(s, i) {
      CeilReaches(s, i + 1, j);
    }
  }

  /** Some boundary is at or up to three bytes after any index. */
  lemma {:induction false} BoundaryNear(s: string, i: nat) returns (j: nat)
    requires Characters(s) && i <= |s|
    ensures i <= j <= i + 3 && j <= |s| && IsCharBoundary(s, j)
  {
    j := i;
    if j < |s| && Continues(s[j]) {
      j := j + 1;
      if j < |s| && Continues(s[j]) {
        j := j + 1;
        if j < |s| && Continues(s[j]) {
          j := j + 1;
          assert j < |s| ==> !FourContinue(s, i);
        }
      }
    }
  }

  lemma {:induction false} FloorIsNear(s: string, i: nat)
    requires Characters(s) && i <= |s|
    ensures FloorBoundary(s, i) + 3 >= i
  {
    var j := BoundaryNear(s, if i < 3 then 0 else i - 3);
    if j <= i {
      FloorReaches(s, i, j);
    }
  }

  lemma {:induction false} CeilIsNear(s: string, i: nat)
    requires Characters(s) && i <= |s|
    ensures CeilBoundary(s, i) <= i + 3
  {
    var j := BoundaryNear(s, i);
    CeilReaches(s, i, j);
  }

  lemma {:induction false} CutOutIsLong(s: string, head: nat, tail: nat)
    requires head <= tail <= |s|
    ensures |CutOut(s, head, tail)| > head + 20 + |s| - tail
  {
    var count := Decimal(tail - head);
    assert |CutNote(tail - head)| == 1 + (5 + |count| + 20) + 1;
  }

  lemma {:induction false} NearCutIsLong(s: string, from: nat, to: nat)
    requires Characters(s) && from <= to <= |s|
    ensures |CutBetween(s, from, to)| > from + |s| - to
  {
    FloorIsNear(s, from);
    CeilIsNear(s, to);
    CutOutIsLong(s, FloorBoundary(s, from), CeilBoundary(s, to));
  }

  /** A message over the limit is still over it once cut, so it is cut again. */
  lemma {:induction false} CutIsStillLong(s: string)
    requires Characters(s) && |s| > SUMMARY_RESULT_BYTES
    ensures |HeadAndTail(s)| > SUMMARY_RESULT_BYTES
  {
    CutAtIsLong(s, SUMMARY_RESULT_BYTES * 3 / 4, |s| - SUMMARY_RESULT_BYTES / 4);
  }

  lemma {:induction false} CutAtIsLong(s: string, from: nat, to: nat)
    requires Characters(s) && |s| > SUMMARY_RESULT_BYTES
    requires from == SUMMARY_RESULT_BYTES * 3 / 4 && to == |s| - SUMMARY_RESULT_BYTES / 4
    ensures |HeadAndTail(s)| > SUMMARY_RESULT_BYTES
  {
    CutSomewhere(s, from, to);
    NearCutIsLong(s, from, to);
  }

  lemma {:induction false} CutSomewhere(s: string, from: nat, to: nat)
    requires |s| > SUMMARY_RESULT_BYTES && from == SUMMARY_RESULT_BYTES * 3 / 4 && to == |s| - SUMMARY_RESULT_BYTES / 4
    ensures HeadAndTail(s) == CutBetween(s, from, to)
  {
  }

  // --------------------------------------------------------------- the note

  lemma {:induction false} NoteLength(n: nat)
    ensures |CutNote(n)| == 27 + |Decimal(n)|
  {
  }

  /** One note says how long it is itself. */
  lemma {:induction false} NoteOfItsOwnLengthIff(n: nat)
    ensures |CutNote(n)| == n <==> n == 29
  {
    NoteLength(n);
    if 10 <= n < 100 {
      assert Decimal(n) == Decimal(n / 10) + [Digit(n % 10)] && |Decimal(n / 10)| == 1;
    }
  }

  /** Notes of different counts differ. */
  lemma {:induction false} NoteTellsCount(a: nat, b: nat)
    requires CutNote(a) == CutNote(b)
    ensures a == b
  {
    NoteLength(a);
    NoteLength(b);
    var da, db := Decimal(a), Decimal(b);
    assert CutNote(a)[6..6 + |da|] == da && CutNote(b)[6..6 + |db|] == db;
    DecimalReadsBack(a);
    DecimalReadsBack(b);
  }

  // --------------------------------------------------------------- once

  lemma {:induction false} CutOutIsSameIff(s: string, head: nat, tail: nat)
    requires head <= tail <= |s|
    ensures CutOut(s, head, tail) == s <==> s[head..tail] == CutNote(tail - head)
  {
    var note, r := CutNote(tail - head), CutOut(s, head, tail);
    assert s == s[..head] + s[head..tail] + s[tail..];
    if r == s {
      assert |note| == tail - head && r[head..tail] == note;
    }
  }

  /** Between the characters that stand at two places, a text reads as a note of that many
      bytes left out. */
  predicate ReadsAsNote(s: string, from: nat, to: nat)
    requires from <= to <= |s|
  {
    var head, tail := FloorBoundary(s, from), CeilBoundary(s, to);
    s[head..tail] == CutNote(tail - head)
  }

  lemma {:induction false} LongLeftIff(s: string, from: nat, to: nat)
    requires |s| > SUMMARY_RESULT_BYTES && from == SUMMARY_RESULT_BYTES * 3 / 4 && to == |s| - SUMMARY_RESULT_BYTES / 4
    ensures HeadAndTail(s) == s <==> ReadsAsNote(s, from, to)
  {
    CutSomewhere(s, from, to);
    CutBetweenIsSameIff(s, from, to);
  }

  lemma {:induction false} CutBetweenIsSameIff(s: string, from: nat, to: nat)
    requires from <= to <= |s|
    ensures CutBetween(s, from, to) == s <==> ReadsAsNote(s, from, to)
  {
    CutOutIsSameIff(s, FloorBoundary(s, from), CeilBoundary(s, to));
  }

  lemma {:induction false} ShortIsLeft(s: string)
    requires |s| <= SUMMARY_RESULT_BYTES
    ensures HeadAndTail(s) == s
  {
  }

  /** A message is left as it is exactly when it is within the limit, or what would be cut
      out of it reads as the note that would be put there. */
  lemma {:induction false} LeftAsItIsIff(s: string)
    ensures HeadAndTail(s) == s <==>
      |s| <= SUMMARY_RESULT_BYTES || ReadsAsNote(s, SUMMARY_RESULT_BYTES * 3 / 4, |s| - SUMMARY_RESULT_BYTES / 4)
  {
    if |s| <= SUMMARY_RESULT_BYTES {
      ShortIsLeft(s);
    } else {
      LongLeftIff(s, SUMMARY_RESULT_BYTES * 3 / 4, |s| - SUMMARY_RESULT_BYTES / 4);
    }
  }

  lemma {:induction false} FloorThere(s: string, i: nat)
    requires i <= |s| && (i < |s| ==> !Continues(s[i]))
    ensures FloorBoundary(s, i) == i && CeilBoundary(s, i) == i
  {
  }

  /** Where a long message is cut, when no character stands across either place. */
  lemma {:induction false} CutThere(s: string, head: nat, tail: nat)
    requires |s| > SUMMARY_RESULT_BYTES && head == SUMMARY_RESULT_BYTES * 3 / 4 && tail == |s| - SUMMARY_RESULT_BYTES / 4
    requires !Continues(s[head]) && !Continues(s[tail])
    ensures HeadAndTail(s) == CutOut(s, head, tail)
  {
    FloorThere(s, head);
    FloorThere(s, tail);
    CutSomewhere(s, head, tail);
  }

  lemma {:induction false} CutParts(head: string, note: string, tail: string)
    requires |head| == SUMMARY_RESULT_BYTES * 3 / 4 && |tail| == SUMMARY_RESULT_BYTES / 4 && |note| > 0
    requires !Continues(note[0]) && !Continues(tail[0])
    ensures HeadAndTail(head + note + tail) == head + CutNote(|note|) + tail
  {
    var s, from, to := head + note + tail, |head|, |head| + |note|;
    PartsOf(head, note, tail);
    CutThere(s, from, to);
  }

  lemma {:induction false} PartsOf(head: string, note: string, tail: string)
    requires note != "" && tail != ""
    ensures var s, from, to := head + note + tail, |head|, |head| + |note|;
      |s| == to + |tail| && s[from] == note[0] && s[to] == tail[0] && CutOut(s, from, to) == head + CutNote(|note|) + tail
  {
    var s, from, to := head + note + tail, |head|, |head| + |note|;
    assert s[..from] == head && s[to..] == tail;
  }

  /** Such a message, longer than the limit. */
  lemma {:induction false} LongMessageStands(head: string, tail: string)
    requires |head| == SUMMARY_RESULT_BYTES * 3 / 4 && |tail| == SUMMARY_RESULT_BYTES / 4 && !Continues(tail[0])
    ensures var s := head + CutNote(29) + tail; |s| > SUMMARY_RESULT_BYTES && HeadAndTail(s) == s
  {
    NoteOfItsOwnLengthIff(29);
    assert CutNote(29)[0] == '\n';
    CutParts(head, CutNote(29), tail);
  }

  // --------------------------------------------------------------- twice

  lemma {:induction false} NoteEnds(n: nat, k: nat)
    requires k <= 3
    ensures var note := CutNote(n);
      |note| > 6 && !Continues(note[k]) && !Continues(note[|note| - 1 - k]) &&
      (note[k] == '\n' <==> k == 0) && (note[|note| - 1 - k] == '\n' <==> k == 0)
  {
    NoteLength(n);
    var note, end := CutNote(n), " bytes left out ...]\n";
    assert note == "\n[... " + Decimal(n) + end;
    assert note[k] == "\n[... "[k] && note[|note| - 1 - k] == end[|end| - 1 - k];
  }

  /** The two places a message that was cut is cut at next: they are the same two, or as far
      within the note as a whole character had been kept out. */
  lemma {:induction false} NextCut(t: string, first: string, note: string, last: string, d: nat, e: nat)
    requires t == first + note + last && d <= 3 && e <= 3 && |note| > 6
    requires !Continues(note[d]) && (e > 0 ==> !Continues(note[|note| - e])) && last != "" && !Continues(last[0])
    ensures var from, to := |first| + d, |first| + |note| - e;
      |t| == to + e + |last| && FloorBoundary(t, from) == from && CeilBoundary(t, to) == to &&
      t[from..to] == note[d..|note| - e]
  {
    var from, to := |first| + d, |first| + |note| - e;
    assert t[from] == note[d] && t[to] == (if e == 0 then last[0] else note[|note| - e]);
    FloorThere(t, from);
    FloorThere(t, to);
    assert t[from..to] == note[d..|note| - e];
  }

  lemma {:induction false} PartOfNoteIff(n: nat, d: nat, e: nat)
    requires d <= 3 && e <= 3
    ensures var note := CutNote(n);
      |note| > 6 && (note[d..|note| - e] == CutNote(|note| - d - e) <==> d == 0 && e == 0 && n == 29)
  {
    var note := CutNote(n);
    NoteEnds(n, d);
    NoteEnds(n, e);
    var part, other := note[d..|note| - e], CutNote(|note| - d - e);
    NoteEnds(|note| - d - e, 0);
    NoteOfItsOwnLengthIff(n);
    if part == other {
      assert part[0] == note[d] && part[|part| - 1] == note[|note| - e - 1];
      assert d == 0 && e == 0 && part == note;
      NoteTellsCount(n, |note|);
    }
  }

  /** Where a long message is cut first. */
  lemma {:induction false} FirstCut(s: string)
    requires Characters(s) && |s| > SUMMARY_RESULT_BYTES
    ensures var from, to := SUMMARY_RESULT_BYTES * 3 / 4, |s| - SUMMARY_RESULT_BYTES / 4;
      var head, tail := FloorBoundary(s, from), CeilBoundary(s, to);
      from <= head + 3 && tail <= to + 3 && tail < |s| && !Continues(s[tail]) &&
      (head == from <==> !Continues(s[from])) && (tail == to <==> !Continues(s[to]))
  {
    FloorIsNear(s, SUMMARY_RESULT_BYTES * 3 / 4);
    CeilIsNear(s, |s| - SUMMARY_RESULT_BYTES / 4);
  }

  lemma {:induction false} LeftThereIff(t: string, from: nat, to: nat)
    requires |t| > SUMMARY_RESULT_BYTES && from == SUMMARY_RESULT_BYTES * 3 / 4 && to == |t| - SUMMARY_RESULT_BYTES / 4
    requires FloorBoundary(t, from) == from && CeilBoundary(t, to) == to
    ensures HeadAndTail(t) == t <==> t[from..to] == CutNote(to - from)
  {
    LongLeftIff(t, from, to);
    assert ReadsAsNote(t, from, to) <==> t[from..to] == CutNote(to - from);
  }

  lemma {:induction false} NoteStandsIff(t: string, note: string, n: nat, d: nat, e: nat, from: nat, to: nat)
    requires d <= 3 && e <= 3 && note == CutNote(n) && from <= to <= |t|
    requires d + e <= |note| && t[from..to] == note[d..|note| - e]
    ensures t[from..to] == CutNote(to - from) <==> d == 0 && e == 0 && n == 29
  {
    assert to - from == |t[from..to]| == |note| - d - e;
    PartOfNoteIff(n, d, e);
  }

  lemma {:induction false} CutTwiceIff(t: string, first: string, last: string, n: nat, d: nat, e: nat)
    requires d <= 3 && e <= 3 && t == first + CutNote(n) + last
    requires |first| + d == SUMMARY_RESULT_BYTES * 3 / 4 && |last| + e == SUMMARY_RESULT_BYTES / 4 && !Continues(last[0])
    ensures HeadAndTail(t) == t <==> d == 0 && e == 0 && n == 29
  {
    var note := CutNote(n);
    var from, to := |first| + d, |first| + |note| - e;
    NoteIsPlain(n, d, e);
    NextCut(t, first, note, last, d, e);
    assert t[from..to] == CutNote(to - from) <==> d == 0 && e == 0 && n == 29 by {
      NoteStandsIff(t, note, n, d, e, from, to);
    }
    assert |t| > SUMMARY_RESULT_BYTES by {
      NoteLength(n);
    }
    LeftThereIff(t, from, to);
  }

  lemma {:induction false} NoteIsPlain(n: nat, d: nat, e: nat)
    requires d <= 3 && e <= 3
    ensures var note := CutNote(n);
      |note| > 6 && !Continues(note[d]) && (e > 0 ==> !Continues(note[|note| - e]))
  {
    NoteEnds(n, d);
    if e > 0 {
      NoteEnds(n, e - 1);
    }
  }

  lemma {:induction false} CutLongTwiceIff(s: string, head: nat, tail: nat)
    requires |s| > SUMMARY_RESULT_BYTES && head <= tail < |s| && !Continues(s[tail]) && HeadAndTail(s) == CutOut(s, head, tail)
    requires head <= SUMMARY_RESULT_BYTES * 3 / 4 <= head + 3
    requires |s| - SUMMARY_RESULT_BYTES / 4 <= tail <= |s| - SUMMARY_RESULT_BYTES / 4 + 3
    ensures HeadAndTail(HeadAndTail(s)) == HeadAndTail(s) <==>
      head == SUMMARY_RESULT_BYTES * 3 / 4 && tail == |s| - SUMMARY_RESULT_BYTES / 4 && tail - head == 29
  {
    var d, e := SUMMARY_RESULT_BYTES * 3 / 4 - head, tail - (|s| - SUMMARY_RESULT_BYTES / 4);
    CutTwiceIff(HeadAndTail(s), s[..head], s[tail..], tail - head, d, e);
  }

  /** Cut again, a message is the same as cut once exactly when it was within the limit, or
      was 29 bytes over and no character stood across either cut. */
  lemma {:induction false} SecondCutIsSameIff(s: string)
    requires Characters(s)
    ensures HeadAndTail(HeadAndTail(s)) == HeadAndTail(s) <==>
      |s| <= SUMMARY_RESULT_BYTES ||
      (|s| == SUMMARY_RESULT_BYTES + 29 && !Continues(s[SUMMARY_RESULT_BYTES * 3 / 4]) &&
       !Continues(s[|s| - SUMMARY_RESULT_BYTES / 4]))
  {
    if |s| > SUMMARY_RESULT_BYTES {
      var head, tail := FloorBoundary(s, SUMMARY_RESULT_BYTES * 3 / 4), CeilBoundary(s, |s| - SUMMARY_RESULT_BYTES / 4);
      FirstCut(s);
      CutLongTwiceIff(s, head, tail);
    }
  }

  /** With no character across either cut, the second note counts only the first note's own
      bytes, so that how much was left out is lost, unless that was 29 bytes. */
  lemma {:induction false} SecondCutForgetsCount(head: string, middle: string, tail: string)
    requires |head| == SUMMARY_RESULT_BYTES * 3 / 4 && |tail| == SUMMARY_RESULT_BYTES / 4 && |middle| > 0
    requires !Continues(middle[0]) && !Continues(tail[0])
    ensures HeadAndTail(head + middle + tail) == head + CutNote(|middle|) + tail
    ensures HeadAndTail(HeadAndTail(head + middle + tail)) == head + CutNote(|CutNote(|middle|)|) + tail
    ensures |CutNote(|middle|)| == |middle| <==> |middle| == 29
  {
    CutParts(head, middle, tail);
    assert CutNote(|middle|)[0] == '\n';
    CutParts(head, CutNote(|middle|), tail);
    NoteOfItsOwnLengthIff(|middle|);
  }
}
