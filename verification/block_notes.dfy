/**
 * The four block notes of `formatText`. An opener or closer is not emitted: the stage that
 * finds it does `i++` inside the iteration, and the next line goes through the stages after
 * that one only. It gets no ten-dash test and no page-break marks, the stages before the
 * move never look at it, and the notes of the block line read before the move still apply.
 */
module BlockNotes {
  import opened Results
  import opened Text
  import opened Bytes
  import opened Markers
  import opened GlyphNotes
  import opened Formatter
  import opened FormatterProps

  /** A line that opens or closes no raise block. */
  predicate NoRaiseBlockNote(line: Bytes) {
    !(HasPrefix(line, BlockOpen) && Contains(line, RaiseWord)) && !HasPrefix(line, RaiseEnd)
  }

  /**
   * The state the raise-side notes of `l` set for their own line, with `d` its first
   * full-width digit: the notes a line reached by a block-raise note is still read for.
   */
  function RaiseNoteState(st: FormatState, l: Bytes, d: nat): FormatState {
    st.(lineRaise := if Contains(l, RaiseNote) then Spaces(d) else [],
        lineAlign := if Contains(l, GroundNote) then AlignRight else [],
        trim := if Contains(l, FromGroundNote) && Contains(l, RaiseNote) then ZenkakuByte * d else 0)
  }

  /** The composed line with `trim` bytes dropped from its front (main.go:421-422). */
  function Emitted(text: Bytes, e: FormatState): Bytes
    requires e.trim <= |e.lineRaise|
  {
    Compose(text, e)[e.trim..]
  }

  /**
   * `［＃ここから…字下げ］` is not emitted. The line after it is, with d full-width spaces
   * in front, the notes of its own line and its headings and glyph notes, but without the
   * sentinels of its page-break notes; a colophon there ends the loop. The block indent stays
   * set for the lines after it. A second `［＃ここから…字下げ］` there is not tested again:
   * it is emitted as text, indented by its own width for that line only.
   */
  lemma IndentBlockBegins(lines: seq<Bytes>, i: nat, st: FormatState, d: nat, d2: nat)
    requires i + 1 < |lines| && Fresh(st)
    requires HasPrefix(lines[i], BlockOpen) && Contains(lines[i], IndentWord)
    requires NoBreakNotes(lines[i]) && NoteWidth(lines[i]) == Ok(d)
    requires NoRaiseBlockNote(lines[i + 1]) && !HasPrefix(lines[i + 1], IndentEnd)
    requires Contains(lines[i + 1], IndentNote) || Contains(lines[i + 1], RaiseNote) ==>
      NoteWidth(lines[i + 1]) == Ok(d2)
    ensures IsColophon(lines[i + 1]) ==> Step(lines, i, st) == Ok(Stop)
    ensures !IsColophon(lines[i + 1]) ==>
      Step(lines, i, st)
      == Ok(Emit(Emitted(HeadingMarks(lines[i + 1]) + ReplaceGlyphNotes(lines[i + 1]),
                         LineNoteState(st.(blockIndent := Spaces(d)), lines[i + 1], d2)),
                 i + 2,
                 st.(blockIndent := Spaces(d), blockAlign := AlignAfter(st.blockAlign, lines[i + 1]))))
  {
    var l, m := lines[i], lines[i + 1];
    var c := Cursor(i, l, st);
    var n := Cursor(i + 1, m, st.(blockIndent := Spaces(d)));
    BracketIsNoRule(l, BlockOpen);
    assert c.(line := MarkBreaks(c.line)) == c;
    assert BeginIndent(lines, c) == Ok(n);
    assert EndIndent(lines, n) == Ok(n);
    var c4, c8 := MovedStages(lines, n, d2);
    assert IndentNotes(lines, c) == Ok(c4);
    BodyChain(lines, c, c4, c8);
    FinishMoved(i + 1, m, LineNoteState(n.st, m, d2));
    StepIsBody(lines, i, i, st, Body(lines, c));
  }

  /**
   * `［＃ここで字下げ終わり］` is not emitted, whatever else it holds. The line after it is,
   * with no block indent, the notes of its own line and its headings and glyph notes, but
   * without the sentinels of its page-break notes; a colophon there ends the loop. A
   * `［＃ここから…字下げ］` or second `［＃ここで字下げ終わり］` there is not tested:
   * it is emitted as text and the block indent stays cleared.
   */
  lemma IndentBlockEnds(lines: seq<Bytes>, i: nat, st: FormatState, d2: nat)
    requires i + 1 < |lines| && Fresh(st)
    requires HasPrefix(lines[i], IndentEnd) && NoBreakNotes(lines[i])
    requires NoRaiseBlockNote(lines[i + 1])
    requires Contains(lines[i + 1], IndentNote) || Contains(lines[i + 1], RaiseNote) ==>
      NoteWidth(lines[i + 1]) == Ok(d2)
    ensures IsColophon(lines[i + 1]) ==> Step(lines, i, st) == Ok(Stop)
    ensures !IsColophon(lines[i + 1]) ==>
      Step(lines, i, st)
      == Ok(Emit(Emitted(HeadingMarks(lines[i + 1]) + ReplaceGlyphNotes(lines[i + 1]),
                         LineNoteState(st.(blockIndent := []), lines[i + 1], d2)),
                 i + 2,
                 st.(blockIndent := [], blockAlign := AlignAfter(st.blockAlign, lines[i + 1]))))
  {
    var l, m := lines[i], lines[i + 1];
    var c := Cursor(i, l, st);
    var n := Cursor(i + 1, m, st.(blockIndent := []));
    BracketIsNoRule(l, IndentEnd);
    IndentEndExcludes(l);
    assert c.(line := MarkBreaks(c.line)) == c;
    assert EndIndent(lines, c) == Ok(n);
    var c4, c8 := MovedStages(lines, n, d2);
    assert IndentNotes(lines, c) == Ok(c4);
    BodyChain(lines, c, c4, c8);
    FinishMoved(i + 1, m, LineNoteState(n.st, m, d2));
    StepIsBody(lines, i, i, st, Body(lines, c));
  }

  /**
   * `［＃ここから…字上げ］` without `字下げ` is not emitted; its alignment notes still set
   * the block alignment. The line after it is emitted with d full-width spaces after it and
   * the raise, `［＃地付き］` and `地から` notes of its own line; its indent and block-alignment
   * notes are never read and its page-break notes get no sentinels. A colophon there ends the
   * loop. The block raise stays set for the lines after it.
   */
  lemma RaiseBlockBegins(lines: seq<Bytes>, i: nat, st: FormatState, d: nat, d2: nat)
    requires i + 1 < |lines| && Fresh(st)
    requires HasPrefix(lines[i], BlockOpen) && Contains(lines[i], RaiseWord)
    requires !Contains(lines[i], IndentWord) && NoBreakNotes(lines[i])
    requires NoteWidth(lines[i]) == Ok(d)
    requires !HasPrefix(lines[i + 1], RaiseEnd)
    requires Contains(lines[i + 1], RaiseNote) ==> NoteWidth(lines[i + 1]) == Ok(d2)
    ensures IsColophon(lines[i + 1]) ==> Step(lines, i, st) == Ok(Stop)
    ensures !IsColophon(lines[i + 1]) ==>
      Step(lines, i, st)
      == Ok(Emit(Emitted(HeadingMarks(lines[i + 1]) + ReplaceGlyphNotes(lines[i + 1]),
                         RaiseNoteState(st.(blockAlign := AlignAfter(st.blockAlign, lines[i]),
                                            blockRaise := Spaces(d)), lines[i + 1], d2)),
                 i + 2,
                 st.(blockAlign := AlignAfter(st.blockAlign, lines[i]), blockRaise := Spaces(d))))
  {
    var l, m := lines[i], lines[i + 1];
    var c := Cursor(i, l, st);
    BracketIsNoRule(l, BlockOpen);
    assert c.(line := MarkBreaks(c.line)) == c;
    RaiseOpenerNotIndented(lines, c);
    var a := AlignStays(c);
    var n := Cursor(i + 1, m, a.st.(blockRaise := Spaces(d)));
    assert BeginRaise(lines, a) == Ok(n);
    assert EndRaise(lines, n) == Ok(n);
    var c8 := RaiseTail(n, d2);
    assert RaiseNotes(lines, BlockAlign(c)) == Ok(c8);
    BodyChain(lines, c, c, c8);
    FinishMoved(i + 1, m, RaiseNoteState(n.st, m, d2));
    StepIsBody(lines, i, i, st, Body(lines, c));
  }

  /**
   * `［＃ここで字上げ終わり］` is not emitted; its `字下げ］` and alignment notes still apply.
   * The line after it, whatever it is, is emitted with no block raise, the single-line indent
   * of the end note's line, and the raise, `［＃地付き］` and `地から` notes of its own line;
   * its other notes are never read and its page-break notes get no sentinels. A colophon
   * there ends the loop.
   */
  lemma RaiseBlockEnds(lines: seq<Bytes>, i: nat, st: FormatState, d1: nat, d2: nat)
    requires i + 1 < |lines| && Fresh(st)
    requires HasPrefix(lines[i], RaiseEnd) && NoBreakNotes(lines[i])
    requires Contains(lines[i], IndentNote) ==> NoteWidth(lines[i]) == Ok(d1)
    requires Contains(lines[i + 1], RaiseNote) ==> NoteWidth(lines[i + 1]) == Ok(d2)
    ensures IsColophon(lines[i + 1]) ==> Step(lines, i, st) == Ok(Stop)
    ensures !IsColophon(lines[i + 1]) ==>
      Step(lines, i, st)
      == Ok(Emit(Emitted(HeadingMarks(lines[i + 1]) + ReplaceGlyphNotes(lines[i + 1]),
                         RaiseNoteState(st.(blockAlign := AlignAfter(st.blockAlign, lines[i]),
                                            lineIndent :=
                                              if Contains(lines[i], IndentNote) then Spaces(d1) else [],
                                            blockRaise := []), lines[i + 1], d2)),
                 i + 2,
                 st.(blockAlign := AlignAfter(st.blockAlign, lines[i]), blockRaise := [])))
  {
    var l, m := lines[i], lines[i + 1];
    var c := Cursor(i, l, st);
    BracketIsNoRule(l, RaiseEnd);
    RaiseEndExcludes(l);
    assert c.(line := MarkBreaks(c.line)) == c;
    assert BeginIndent(lines, c) == Ok(c);
    assert EndIndent(lines, c) == Ok(c);
    var c4 := Cursor(i, l, st.(lineIndent := if Contains(l, IndentNote) then Spaces(d1) else []));
    assert LineIndent(c) == Ok(c4);
    var a := AlignStays(c4);
    var n := Cursor(i + 1, m, a.st.(blockRaise := []));
    assert BeginRaise(lines, a) == Ok(a);
    assert EndRaise(lines, a) == Ok(n);
    var c8 := RaiseTail(n, d2);
    assert RaiseNotes(lines, BlockAlign(c4)) == Ok(c8);
    BodyChain(lines, c, c4, c8);
    FinishMoved(i + 1, m, RaiseNoteState(n.st, m, d2));
    StepIsBody(lines, i, i, st, Body(lines, c));
  }

  /** The block-alignment stage sets what `AlignAfter` says and nothing else. */
  lemma AlignStays(c: Cursor) returns (a: Cursor)
    ensures a == BlockAlign(c)
    ensures a == Cursor(c.i, c.line, c.st.(blockAlign := AlignAfter(c.st.blockAlign, c.line)))
  {
    a := BlockAlign(c);
  }

  /** The stages after the indent-block stages on the line they moved to. */
  lemma MovedStages(lines: seq<Bytes>, n: Cursor, d2: nat) returns (c4: Cursor, c8: Cursor)
    requires n.i < |lines| && Fresh(n.st) && NoRaiseBlockNote(n.line)
    requires Contains(n.line, IndentNote) || Contains(n.line, RaiseNote) ==>
      NoteWidth(n.line) == Ok(d2)
    ensures LineIndent(n) == Ok(c4)
    ensures RaiseNotes(lines, BlockAlign(c4)) == Ok(c8)
    ensures RaiseFromGround(LineAlign(c8)) == n.(st := LineNoteState(n.st, n.line, d2))
  {
    c4 := LineIndent(n).value;
    var a := BlockAlign(c4);
    assert BeginRaise(lines, a) == Ok(a);
    assert EndRaise(lines, a) == Ok(a);
    c8 := LineRaise(a).value;
  }

  /** The stages after the raise-block stages on the line they moved to. */
  lemma RaiseTail(n: Cursor, d2: nat) returns (c8: Cursor)
    requires n.st.lineRaise == [] && n.st.lineAlign == [] && n.st.trim == 0
    requires Contains(n.line, RaiseNote) ==> NoteWidth(n.line) == Ok(d2)
    ensures LineRaise(n) == Ok(c8)
    ensures RaiseFromGround(LineAlign(c8)) == n.(st := RaiseNoteState(n.st, n.line, d2))
  {
    c8 := LineRaise(n).value;
  }

  /** The end of the iteration on the line a block note moved to. */
  lemma FinishMoved(j: nat, m: Bytes, e: FormatState)
    requires e.trim <= |e.lineRaise|
    ensures IsColophon(m) ==> Finish(Cursor(j, m, e)) == Ok(Stop)
    ensures !IsColophon(m) ==>
      Finish(Cursor(j, m, e))
      == Ok(Emit(Emitted(HeadingMarks(m) + ReplaceGlyphNotes(m), e), j + 1, Reset(e)))
  {
    if !IsColophon(m) {
      DecorateMarks(m);
      FinishAt(j, m, e, Decorate(m));
    }
  }
}
