/** The words a summary is written in (agent/src/compact.rs), and that they can be
    parsed back. Long texts are written in short pieces. */
module English {
  import opened Bytes
  import opened Markers
  import opened Summary

  const HEADER := "[harness] The earlier part of this " + "session was summarised to fit the " + "model's context window."

  const CAUTION :=
    " The notes below were written by the " + "model and may be wrong; the record of " +
    "tool calls and the operator's messages " + "after them are exact. Where they " +
    "disagree, trust the record and the " + "files. Files may have changed since " +
    "anything shown; read a file again before " + "editing it."

  const NOTES := "Notes on the work so far:"
  const CALLS := "The tool calls made before this point, " + "from the record, oldest first:"
  const OPERATOR := "The operator's messages, word for word, " + "oldest first:"
  const CARRY_ON := "Carry on with the work from here."
  const OPERATOR_HEADING := "--- operator message "

  const WORDING := Wording(
    HEADER,
    (HEADER + CAUTION) + "\n\n" + NOTES + "\n\n",
    "\n\n" + CALLS,
    "\n\n" + OPERATOR,
    "\n\n" + CARRY_ON,
    "\n\n" + OPERATOR_HEADING)

  predicate OneLiner(s: string) {
    forall i :: 0 <= i < |s| ==> s[i] != '\n'
  }

  lemma Both(a: string, b: string)
    requires OneLiner(a) && OneLiner(b)
    ensures OneLiner(a + b)
  {
  }

  lemma HeaderIsOneLine()
    ensures OneLiner(HEADER) && |HEADER| > 9 && "[harness]" <= HEADER
  {
    var a, b, c := "[harness] The earlier part of this ", "session was summarised to fit the ", "model's context window.";
    assert OneLiner(a);
    assert OneLiner(b);
    assert OneLiner(c);
    Both(a, b);
    Both(a + b, c);
    assert "[harness]" <= a;
  }

  lemma CautionStart()
    ensures OneLiner(" The notes below were written by the " + "model and may be wrong; the record of " +
                     "tool calls and the operator's messages " + "after them are exact. Where they ")
  {
    var a, b := " The notes below were written by the ", "model and may be wrong; the record of ";
    var c, d := "tool calls and the operator's messages ", "after them are exact. Where they ";
    assert OneLiner(a);
    assert OneLiner(b);
    assert OneLiner(c);
    assert OneLiner(d);
    Both(a, b);
    Both(a + b, c);
    Both(a + b + c, d);
  }

  lemma CautionIsOneLine(start: string)
    requires OneLiner(start)
    ensures OneLiner(start + "disagree, trust the record and the " + "files. Files may have changed since " +
                     "anything shown; read a file again before " + "editing it.")
  {
    var a, b := "disagree, trust the record and the ", "files. Files may have changed since ";
    var c, d := "anything shown; read a file again before ", "editing it.";
    assert OneLiner(a);
    assert OneLiner(b);
    assert OneLiner(c);
    assert OneLiner(d);
    Both(start, a);
    Both(start + a, b);
    Both(start + a + b, c);
    Both(start + a + b + c, d);
  }

  lemma HeadingsAreOneLine()
    ensures OneLiner(CALLS) && OneLiner(OPERATOR) && OneLiner(CARRY_ON) && OneLiner(OPERATOR_HEADING) && OneLiner(NOTES)
  {
    var a, b := "The tool calls made before this point, ", "from the record, oldest first:";
    assert OneLiner(a);
    assert OneLiner(b);
    Both(a, b);
    OperatorIsOneLine();
    assert OneLiner(CARRY_ON);
    assert OneLiner(OPERATOR_HEADING);
    assert OneLiner(NOTES);
  }

  lemma OperatorIsOneLine()
    ensures OneLiner(OPERATOR)
  {
    var a, b := "The operator's messages, word for word, ", "oldest first:";
    assert OneLiner(a);
    assert OneLiner(b);
    Both(a, b);
  }

  lemma HeadingIsMarker(body: string)
    requires OneLiner(body) && body != ""
    ensures Marker("\n\n" + body) && ("\n\n" + body)[2] == body[0]
  {
  }

  /** Only the last blank line of such an introduction can start a section. */
  lemma IntroShape(first: string, second: string, i: nat)
    requires OneLiner(first) && OneLiner(second) && second != ""
    ensures var s := first + "\n\n" + second + "\n\n";
      |s| > 2 && s[|s| - 2..] == "\n\n" &&
      (i < |s| - 2 && s[i] == '\n' && s[i + 1] == '\n' ==> s[i + 2] == second[0])
  {
    var s := first + "\n\n" + second + "\n\n";
    assert s[|first|] == '\n' && s[|first| + 1] == '\n' && s[|first| + 2] == second[0];
  }

  lemma IntroIsFreeOf(first: string, second: string, c: char)
    requires OneLiner(first) && OneLiner(second) && second != "" && c != second[0] && c != '\n'
    ensures IntroFree(first + "\n\n" + second + "\n\n", c)
  {
    var s, p := first + "\n\n" + second + "\n\n", "\n\n" + [c];
    forall i | 0 <= i <= |s|
      ensures !OccursAt(s, p, i)
    {
      OccursChar(s, p, i, 0);
      OccursChar(s, p, i, 1);
      OccursChar(s, p, i, 2);
      IntroShape(first, second, i);
    }
  }

  lemma FirstLetters()
    ensures CALLS != "" && OPERATOR != "" && CALLS[0] == 'T' && OPERATOR[0] == 'T' && CARRY_ON[0] == 'C'
    ensures OPERATOR_HEADING[0] == '-' && NOTES[0] == 'N'
    ensures |CALLS| > 4 && |OPERATOR| > 4 && CALLS[4] == 't' && OPERATOR[4] == 'o'
    ensures |OPERATOR_HEADING| == 21 && OPERATOR_HEADING[20] == ' '
  {
  }

  lemma InitialsAreInNoNote()
    ensures !InNotes('T') && !InNotes('C') && !InNotes('-')
  {
    var a, b := "[. bytes left out]", "(earlier messages)";
    assert forall i :: 0 <= i < |a| ==> a[i] !in {'T', 'C', '-'};
    assert forall i :: 0 <= i < |b| ==> b[i] !in {'T', 'C', '-'};
    assert NOTE_CHARS == a + b;
  }

  lemma WordingReadsBack()
    ensures WellWorded(WORDING)
  {
    HeaderIsOneLine();
    CautionStart();
    CautionIsOneLine(" The notes below were written by the " + "model and may be wrong; the record of " +
                     "tool calls and the operator's messages " + "after them are exact. Where they ");
    WordingFrom(HEADER, CAUTION, NOTES, CALLS, OPERATOR, CARRY_ON, OPERATOR_HEADING) by {
      HeadingsAreOneLine();
      FirstLetters();
      InitialsAreInNoNote();
    }
  }

  lemma WordingFrom(header: string, caution: string, notes: string, calls: string, operator: string,
                    carryOn: string, heading: string)
    requires OneLiner(header) && "[harness]" <= header && OneLiner(caution) && OneLiner(notes)
    requires OneLiner(calls) && OneLiner(operator) && OneLiner(carryOn) && OneLiner(heading)
    requires notes != "" && |calls| > 4 && |operator| > 4 && carryOn != "" && heading != ""
    requires calls[0] == operator[0] && calls[4] != operator[4]
    requires notes[0] != calls[0] && carryOn[0] != calls[0] && heading[0] !in {calls[0], carryOn[0]}
    requires !IsDigit(heading[|heading| - 1]) && !InNotes(calls[0]) && !InNotes(carryOn[0]) && !InNotes(heading[0])
    ensures WellWorded(Wording(header, (header + caution) + "\n\n" + notes + "\n\n", "\n\n" + calls,
      "\n\n" + operator, "\n\n" + carryOn, "\n\n" + heading))
  {
    HeadingIsMarker(calls);
    HeadingIsMarker(operator);
    HeadingIsMarker(carryOn);
    HeadingIsMarker(heading);
    assert ("\n\n" + calls)[6] == calls[4] && ("\n\n" + operator)[6] == operator[4];
    Both(header, caution);
    var intro := (header + caution) + "\n\n" + notes + "\n\n";
    assert header <= intro;
    IntroIsFreeOf(header + caution, notes, calls[0]);
    IntroShape(header + caution, notes, 0);
    assert ("\n\n" + heading)[|heading| + 1] == heading[|heading| - 1];
  }
}
