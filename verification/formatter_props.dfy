/**
 * What the formatting loop of `formatText` promises: plain lines pass through verbatim, the
 * indent and raise blocks take effect between their begin and end notes, which are not
 * emitted, ten-dash header blocks vanish, nothing after the colophon matters, and the
 * digit table matches the UTF-8 of `０`..`９`.
 */
module FormatterProps {
  import opened Results
  import opened Text
  import opened Bytes
  import opened Markers
  import opened GlyphNotes
  import opened Formatter

  /** A line with no annotation note at all: no full-width bracket and no colophon. */
  predicate Bare(line: Bytes) {
    !Contains(line, OpenBracket) && !Contains(line, CloseBracket) && !IsColophon(line)
  }

  /** A bare line that does not open a ten-dash block either. */
  predicate Plain(line: Bytes) {
    Bare(line) && !IsRule(line)
  }

  /** A bracketed note cannot occur in a line without brackets. */
  lemma Unbracketed(line: Bytes, note: Bytes)
    requires Bracketed(note)
    requires !Contains(line, OpenBracket) && !Contains(line, CloseBracket)
    ensures !Contains(line, note) && !HasPrefix(line, note)
  {
    if Contains(line, note) {
      if Contains(note, OpenBracket) {
        ContainsTrans(line, note, OpenBracket);
      } else {
        ContainsTrans(line, note, CloseBracket);
      }
    }
    if HasPrefix(line, note) {
      PrefixContains(line, note);
    }
  }

  /** No stage of the loop body reacts to a line without brackets. */
  lemma NoNotes(line: Bytes)
    requires !Contains(line, OpenBracket) && !Contains(line, CloseBracket)
    ensures !Contains(line, SheetBreakNote) && !Contains(line, PageBreakNote)
    ensures !Contains(line, ColumnBreakNote) && !HasPrefix(line, BlockOpen)
    ensures !HasPrefix(line, IndentEnd) && !Contains(line, IndentNote)
    ensures !Contains(line, AlignOpenNote) && !Contains(line, AlignCloseNote)
    ensures !HasPrefix(line, RaiseEnd) && !Contains(line, RaiseNote)
    ensures !Contains(line, GroundNote) && !Contains(line, FromGroundNote)
    ensures !Contains(line, CenterNote) && !Contains(line, MajorHeadingNote)
    ensures !Contains(line, MinorHeadingNote) && !Contains(line, GlyphNoteOpen)
  {
    OpeningNotesAreBracketed();
    IndentNotesAreBracketed();
    HeadingNotesAreBracketed();
    GlyphNoteIsBracketed();
    Unbracketed(line, SheetBreakNote);
    Unbracketed(line, PageBreakNote);
    Unbracketed(line, ColumnBreakNote);
    Unbracketed(line, BlockOpen);
    Unbracketed(line, IndentEnd);
    Unbracketed(line, IndentNote);
    Unbracketed(line, AlignOpenNote);
    Unbracketed(line, AlignCloseNote);
    Unbracketed(line, RaiseEnd);
    Unbracketed(line, RaiseNote);
    Unbracketed(line, GroundNote);
    Unbracketed(line, FromGroundNote);
    Unbracketed(line, CenterNote);
    Unbracketed(line, MajorHeadingNote);
    Unbracketed(line, MinorHeadingNote);
    Unbracketed(line, GlyphNoteOpen);
  }

  /** The block prefixes and suffix around a line, with no single-line state. */
  function Framed(st: FormatState, line: Bytes): Bytes {
    st.blockAlign + st.blockIndent + line + st.blockRaise + [LF]
  }

  /** With no single-line state, composing adds only the block prefixes and suffix. */
  lemma ComposeFresh(line: Bytes, st: FormatState)
    requires Fresh(st)
    ensures Compose(line, st)[st.trim..] == Framed(st, line)
    ensures Reset(st) == st
  {
    assert Compose(line, st) == Framed(st, line);
  }

  /** A line without brackets passes every stage of the loop body unchanged. */
  lemma QuietStages(lines: seq<Bytes>, c: Cursor)
    requires c.i < |lines|
    requires !Contains(c.line, OpenBracket) && !Contains(c.line, CloseBracket)
    ensures MarkBreaks(c.line) == c.line && Decorate(c.line) == c.line
    ensures BeginIndent(lines, c) == Ok(c) && EndIndent(lines, c) == Ok(c)
    ensures LineIndent(c) == Ok(c) && IndentNotes(lines, c) == Ok(c) && BlockAlign(c) == c
    ensures BeginRaise(lines, c) == Ok(c) && EndRaise(lines, c) == Ok(c)
    ensures LineRaise(c) == Ok(c) && RaiseNotes(lines, c) == Ok(c)
    ensures LineAlign(c) == c && RaiseFromGround(c) == c
  {
    NoNotes(c.line);
  }

  /** `Body` is the end of the iteration applied to what the note stages leave. */
  lemma BodyChain(lines: seq<Bytes>, c: Cursor, c4: Cursor, c8: Cursor)
    requires c.i < |lines|
    requires IndentNotes(lines, c.(line := MarkBreaks(c.line))) == Ok(c4)
    requires RaiseNotes(lines, BlockAlign(c4)) == Ok(c8)
    ensures Body(lines, c) == Finish(RaiseFromGround(LineAlign(c8)))
  {
  }

  /** With no single-line state, a line that is no colophon is emitted inside the block frame. */
  lemma FinishFresh(c: Cursor)
    requires Fresh(c.st) && !IsColophon(c.line) && Decorate(c.line) == c.line
    ensures Finish(c) == Ok(Emit(Framed(c.st, c.line), c.i + 1, c.st))
  {
    ComposeFresh(c.line, c.st);
  }

  /** `Step` is `Body` on the line where the ten-dash skip lands. */
  lemma StepIsBody(lines: seq<Bytes>, i: nat, j: nat, st: FormatState, x: Result<Outcome, Crash>)
    requires i < |lines| && j < |lines| && SkipRuledBlock(lines, i) == Ok(j)
    requires Body(lines, Cursor(j, lines[j], st)) == x
    ensures Step(lines, i, st) == x
  {
  }

  /**
   * A bare line goes through the loop body untouched: it is emitted with the block state
   * around it, and the state carries over unchanged.
   */
  lemma BareBody(lines: seq<Bytes>, i: nat, st: FormatState)
    requires i < |lines| && Bare(lines[i]) && Fresh(st)
    ensures Body(lines, Cursor(i, lines[i], st)) == Ok(Emit(Framed(st, lines[i]), i + 1, st))
  {
    var c := Cursor(i, lines[i], st);
    QuietStages(lines, c);
    assert c.(line := MarkBreaks(c.line)) == c;
    BodyChain(lines, c, c, c);
    FinishFresh(c);
  }

  /** A plain line is emitted verbatim inside the block prefixes and suffix. */
  lemma PlainLineStep(lines: seq<Bytes>, i: nat, st: FormatState)
    requires i < |lines| && Plain(lines[i]) && Fresh(st)
    ensures Step(lines, i, st) == Ok(Emit(Framed(st, lines[i]), i + 1, st))
  {
    BareStep(lines, i, i, st);
  }

  /** With no block state, a run of plain lines comes out as the lines, each with its "\n". */
  lemma {:induction false} PlainLoop(lines: seq<Bytes>, i: nat)
    requires i <= |lines|
    requires forall k :: i <= k < |lines| ==> Plain(lines[k])
    ensures Loop(lines, i, Initial) == Ok(Run(Unlines(lines[i..]), false))
    decreases |lines| - i
  {
    if i < |lines| {
      PlainLineStep(lines, i, Initial);
      assert Framed(Initial, lines[i]) == lines[i] + [LF];
      PlainLoop(lines, i + 1);
      assert lines[i..][1..] == lines[i + 1..];
    }
  }

  /** A text without any note comes out unchanged, plus one final "\n". */
  lemma PlainTextUnchanged(book: Bytes)
    requires forall k :: 0 <= k < |Split(book)| ==> Plain(Split(book)[k])
    ensures FormatLines(book) == Ok(book + [LF])
  {
    var lines := Split(book);
    PlainLoop(lines, 0);
    assert lines[0..] == lines;
    UnlinesJoin(lines);
    JoinSplit(book);
  }

  /** The line carries no page-break note, which would put a sentinel in front of it. */
  predicate NoBreakNotes(line: Bytes) {
    !Contains(line, SheetBreakNote) && !Contains(line, PageBreakNote)
    && !Contains(line, ColumnBreakNote)
  }

  /** A line that starts with a full-width bracket is no ten-dash line and no colophon. */
  lemma BracketIsNoRule(line: Bytes, note: Bytes)
    requires HasPrefix(line, note) && |note| > 0 && note[0] == OpenBracket[0]
    ensures !IsRule(line) && !IsColophon(line)
  {
    assert line[0] == note[0];
  }

  /** A line that starts with `［＃ここで字下げ終わり］` starts with no other block note. */
  lemma IndentEndExcludes(line: Bytes)
    requires HasPrefix(line, IndentEnd)
    ensures !HasPrefix(line, BlockOpen) && !HasPrefix(line, RaiseEnd)
  {
    assert line[14] == IndentEnd[14];
    assert line[20] == IndentEnd[20];
  }

  /** A line that starts with `［＃ここで字上げ終わり］` starts with no other block note. */
  lemma RaiseEndExcludes(line: Bytes)
    requires HasPrefix(line, RaiseEnd)
    ensures !HasPrefix(line, BlockOpen) && !HasPrefix(line, IndentEnd)
  {
    assert line[14] == RaiseEnd[14];
    assert line[20] == RaiseEnd[20];
  }

  /** A line that opens a raise block passes the indent stages. */
  lemma RaiseOpenerNotIndented(lines: seq<Bytes>, c: Cursor)
    requires c.i < |lines|
    requires HasPrefix(c.line, BlockOpen) && !Contains(c.line, IndentWord)
    ensures IndentNotes(lines, c) == Ok(c)
  {
    assert BeginIndent(lines, c) == Ok(c);
    assert c.line[14] == BlockOpen[14] != IndentEnd[14];
    assert EndIndent(lines, c) == Ok(c);
    if Contains(c.line, IndentNote) {
      assert HasPrefix(IndentNote, IndentWord);
      PrefixContains(IndentNote, IndentWord);
      ContainsTrans(c.line, IndentNote, IndentWord);
    }
    assert LineIndent(c) == Ok(c);
  }

  // ---------------------------------------------------------------------------------
  // Markup in front of a line (main.go:314-320, 397-412)

  /** The sentinel pairs the page-break notes of `line` call for, outermost first. */
  function BreakMarks(line: Bytes): Bytes {
    (if Contains(line, PageBreakNote) || Contains(line, ColumnBreakNote) then PageSentinel else [])
    + (if Contains(line, SheetBreakNote) then SheetSentinel else [])
  }

  /** The sentinel pairs the heading notes of `line` call for, outermost first. */
  function HeadingMarks(line: Bytes): Bytes {
    (if Contains(line, MinorHeadingNote) then SubheadSentinel else [])
    + (if Contains(line, MajorHeadingNote) then HeadSentinel else [])
    + (if Contains(line, CenterNote) then HeadSentinel else [])
  }

  /**
   * `MarkBreaks` looks for `［＃改ページ］` and `［＃改段］` in the line it has already
   * marked for `［＃改丁］`; the sentinel pair hides no note, so each break note of the
   * original line puts its own pair in front of it, and nothing else changes.
   */
  lemma MarkBreaksMarks(line: Bytes)
    ensures MarkBreaks(line) == BreakMarks(line) + line
  {
    var page := Contains(line, PageBreakNote) || Contains(line, ColumnBreakNote);
    if Contains(line, SheetBreakNote) {
      SentinelsInert();
      InertBehind(SheetSentinel, line, PageBreakNote);
      InertBehind(SheetSentinel, line, ColumnBreakNote);
      if page {
        assert PageSentinel + (SheetSentinel + line) == PageSentinel + SheetSentinel + line;
      } else {
        assert BreakMarks(line) == SheetSentinel;
      }
    } else if page {
      assert BreakMarks(line) == PageSentinel;
    } else {
      assert BreakMarks(line) == [];
    }
  }

  /** The notes `Decorate` tests for are found behind inert markup exactly when they are in the rest. */
  lemma DecorateBehind(p: Bytes, s: Bytes)
    requires Inert(p)
    ensures Contains(p + s, CenterNote) == Contains(s, CenterNote)
    ensures Contains(p + s, MajorHeadingNote) == Contains(s, MajorHeadingNote)
    ensures Contains(p + s, MinorHeadingNote) == Contains(s, MinorHeadingNote)
    ensures HeadingMarks(p + s) == HeadingMarks(s)
    ensures Contains(p + s, GlyphNoteOpen) <==> Contains(s, GlyphNoteOpen)
    ensures ReplaceGlyphNotes(p + s) == p + ReplaceGlyphNotes(s)
  {
    InertBehind(p, s, CenterNote);
    InertBehind(p, s, MajorHeadingNote);
    InertBehind(p, s, MinorHeadingNote);
    ContainsBehind(p, s, GlyphNoteOpen);
    ReplaceBehind(p, s);
  }

  /**
   * `Decorate` tests each heading note on the line it has already marked; the sentinel
   * pairs hide no note, so the line gets one pair per heading note of its own, and every
   * glyph note of the line, and only those, becomes `□`.
   */
  lemma DecorateMarks(line: Bytes)
    ensures Decorate(line) == HeadingMarks(line) + ReplaceGlyphNotes(line)
  {
    SentinelsInert();
    var a: Bytes := if Contains(line, CenterNote) then HeadSentinel else [];
    DecorateBehind(a, line);
    var b: Bytes := if Contains(line, MajorHeadingNote) then HeadSentinel else [];
    DecorateBehind(b, a + line);
    var c: Bytes := if Contains(line, MinorHeadingNote) then SubheadSentinel else [];
    DecorateBehind(c, b + (a + line));
    DecorateStages(line, a, b, c);
    Regroup(c, b, a, line);
    if !Contains(line, GlyphNoteOpen) {
      NoOpenerUnchanged(line);
    }
    Regroup(c, b, a, ReplaceGlyphNotes(line));
  }

  /** `Decorate` with the markup of each stage named. */
  lemma DecorateStages(line: Bytes, a: Bytes, b: Bytes, c: Bytes)
    requires a == if Contains(line, CenterNote) then HeadSentinel else []
    requires b == if Contains(a + line, MajorHeadingNote) then HeadSentinel else []
    requires c == if Contains(b + (a + line), MinorHeadingNote) then SubheadSentinel else []
    ensures Decorate(line) == if Contains(c + (b + (a + line)), GlyphNoteOpen)
      then ReplaceGlyphNotes(c + (b + (a + line))) else c + (b + (a + line))
  {
    assert [] + line == line;
    assert [] + (a + line) == a + line;
    assert [] + (b + (a + line)) == b + (a + line);
  }

  /** The first full-width digit behind bytes without EF is the first digit of the rest. */
  lemma NoteWidthBehind(p: Bytes, s: Bytes)
    requires 0xEF !in p
    ensures NoteWidth(p + s) == NoteWidth(s)
  {
    forall k | 0 <= k
      ensures WidthDigitAt(p + s, k) <==> k >= |p| && WidthDigitAt(s, k - |p|)
    {
      if k < |p| {
        assert (p + s)[k] == p[k] && p[k] in p;
      } else if k + 3 <= |p + s| {
        assert (p + s)[k..k + 3] == s[k - |p|..k - |p| + 3];
      }
    }
    match FirstWidthDigit(s, 0)
    case None =>
    case Some(j) =>
      assert WidthDigitAt(p + s, |p| + j);
      assert (p + s)[|p| + j + 2] == s[j + 2];
  }

  /** `m` holds the notes the note stages test for exactly when `l` does, and the same first digit. */
  predicate SameNotes(m: Bytes, l: Bytes) {
    && Contains(m, IndentWord) == Contains(l, IndentWord)
    && Contains(m, RaiseWord) == Contains(l, RaiseWord)
    && Contains(m, IndentNote) == Contains(l, IndentNote)
    && Contains(m, RaiseNote) == Contains(l, RaiseNote)
    && Contains(m, AlignOpenNote) == Contains(l, AlignOpenNote)
    && Contains(m, AlignCloseNote) == Contains(l, AlignCloseNote)
    && Contains(m, GroundNote) == Contains(l, GroundNote)
    && Contains(m, FromGroundNote) == Contains(l, FromGroundNote)
    && NoteWidth(m) == NoteWidth(l)
  }

  lemma SameNotesTrans(a: Bytes, b: Bytes, c: Bytes)
    requires SameNotes(a, b) && SameNotes(b, c)
    ensures SameNotes(a, c)
  {
  }

  /** The line behind inert markup holds the same notes, and begins with no note unless the markup is empty. */
  lemma NotesBehind(p: Bytes, s: Bytes)
    requires Inert(p)
    ensures SameNotes(p + s, s)
    ensures HasPrefix(p + s, BlockOpen) ==> p == [] && HasPrefix(s, BlockOpen)
    ensures HasPrefix(p + s, IndentEnd) ==> p == [] && HasPrefix(s, IndentEnd)
    ensures HasPrefix(p + s, RaiseEnd) ==> p == [] && HasPrefix(s, RaiseEnd)
    ensures IsColophon(p + s) ==> p == [] && IsColophon(s)
  {
    InertBehind(p, s, IndentWord);
    InertBehind(p, s, RaiseWord);
    InertBehind(p, s, IndentNote);
    InertBehind(p, s, RaiseNote);
    InertBehind(p, s, AlignOpenNote);
    InertBehind(p, s, AlignCloseNote);
    InertBehind(p, s, GroundNote);
    InertBehind(p, s, FromGroundNote);
    InertBehind(p, s, BlockOpen);
    InertBehind(p, s, IndentEnd);
    InertBehind(p, s, RaiseEnd);
    InertBehind(p, s, Colophon);
    NoteWidthBehind(p, s);
    assert p == [] ==> p + s == s;
  }

  /** `MarkBreaks` with the sentinel pair of each note named. */
  lemma MarkedPieces(l: Bytes, p: Bytes, s: Bytes)
    requires p == if Contains(l, PageBreakNote) || Contains(l, ColumnBreakNote) then PageSentinel else []
    requires s == if Contains(l, SheetBreakNote) then SheetSentinel else []
    ensures MarkBreaks(l) == p + (s + l) && BreakMarks(l) == p + s
    ensures Inert(p) && Inert(s)
    ensures p == [] && s == [] <==> NoBreakNotes(l)
  {
    MarkBreaksMarks(l);
    SentinelsInert();
    Regroup([], p, s, l);
    assert [] + p + s == p + s;
  }

  /**
   * The page-break marks change none of the notes the later stages test for, but a
   * marked line no longer starts with a block note or with `底本：`.
   */
  lemma MarkedNotes(l: Bytes)
    ensures SameNotes(MarkBreaks(l), l)
    ensures HasPrefix(MarkBreaks(l), BlockOpen) ==> NoBreakNotes(l) && HasPrefix(l, BlockOpen)
    ensures HasPrefix(MarkBreaks(l), IndentEnd) ==> NoBreakNotes(l) && HasPrefix(l, IndentEnd)
    ensures HasPrefix(MarkBreaks(l), RaiseEnd) ==> NoBreakNotes(l) && HasPrefix(l, RaiseEnd)
    ensures IsColophon(MarkBreaks(l)) <==> IsColophon(l) && NoBreakNotes(l)
  {
    var p: Bytes := if Contains(l, PageBreakNote) || Contains(l, ColumnBreakNote) then PageSentinel else [];
    var s: Bytes := if Contains(l, SheetBreakNote) then SheetSentinel else [];
    MarkedPieces(l, p, s);
    NotesBehind(s, l);
    NotesBehind(p, s + l);
    SameNotesTrans(MarkBreaks(l), s + l, l);
    if NoBreakNotes(l) {
      assert p + (s + l) == l;
    }
  }

  /** A marked line is decorated as the line itself, with the break marks behind the heading marks. */
  lemma MarkedDecoration(l: Bytes)
    ensures Decorate(MarkBreaks(l)) == Decorated(l)
  {
    var p: Bytes := if Contains(l, PageBreakNote) || Contains(l, ColumnBreakNote) then PageSentinel else [];
    var s: Bytes := if Contains(l, SheetBreakNote) then SheetSentinel else [];
    MarkedPieces(l, p, s);
    DecorateMarks(p + (s + l));
    DecorateBehind(s, l);
    DecorateBehind(p, s + l);
    Nest(HeadingMarks(l), p, s, ReplaceGlyphNotes(l));
  }

  // ---------------------------------------------------------------------------------
  // Lines the loop body does not move past (main.go:314-426)

  /**
   * The loop body emits this line itself: it is no ten-dash line, and unless a page-break
   * note puts a sentinel pair in front of it, it is no block-indent or block-raise opener
   * or closer and no colophon.
   */
  predicate StaysOnLine(line: Bytes) {
    && !IsRule(line)
    && (NoBreakNotes(line) ==>
          && !IsColophon(line)
          && !(HasPrefix(line, BlockOpen) && (Contains(line, IndentWord) || Contains(line, RaiseWord)))
          && !HasPrefix(line, IndentEnd) && !HasPrefix(line, RaiseEnd))
  }

  /** The block alignment after a line: `［＃ここで地付き終わり］` wins over `［＃ここから地付き］`. */
  function AlignAfter(align: Bytes, line: Bytes): Bytes {
    if Contains(line, AlignCloseNote) then AlignLeft
    else if Contains(line, AlignOpenNote) then AlignRight
    else align
  }

  /** The state the notes of `l` set for their own line, with `d` its first full-width digit. */
  function LineNoteState(st: FormatState, l: Bytes, d: nat): FormatState {
    st.(blockAlign := AlignAfter(st.blockAlign, l),
        lineIndent := if Contains(l, IndentNote) then Spaces(d) else [],
        lineRaise := if Contains(l, RaiseNote) then Spaces(d) else [],
        lineAlign := if Contains(l, GroundNote) then AlignRight else [],
        trim := if Contains(l, FromGroundNote) && Contains(l, RaiseNote) then ZenkakuByte * d else 0)
  }

  /**
   * The text that stands for a line in the output: one sentinel pair per heading note,
   * then one per page-break note, then the line with each glyph note replaced by `□`.
   */
  function Decorated(line: Bytes): Bytes {
    HeadingMarks(line) + BreakMarks(line) + ReplaceGlyphNotes(line)
  }

  /**
   * One line the loop body does not move past: it is emitted, decorated, with the
   * alignment, indent and raise its single-line notes call for and 3·d leading bytes dropped
   * for `地から`; the block alignment becomes what its alignment notes say, and every
   * other variable is what it was before.
   */
  lemma LineStep(lines: seq<Bytes>, i: nat, st: FormatState, d: nat)
    requires i < |lines| && Fresh(st) && StaysOnLine(lines[i])
    requires Contains(lines[i], IndentNote) || Contains(lines[i], RaiseNote) ==>
      NoteWidth(lines[i]) == Ok(d)
    ensures LineNoteState(st, lines[i], d).trim
         <= |Compose(Decorated(lines[i]), LineNoteState(st, lines[i], d))|
    ensures Step(lines, i, st)
         == Ok(Emit(Compose(Decorated(lines[i]), LineNoteState(st, lines[i], d))[LineNoteState(st, lines[i], d).trim..],
                    i + 1, st.(blockAlign := AlignAfter(st.blockAlign, lines[i]))))
  {
    LineBody(lines, i, st, d);
    var e := LineNoteState(st, lines[i], d);
    StepIsBody(lines, i, i, st, Ok(Emit(Compose(Decorated(lines[i]), e)[e.trim..], i + 1, Reset(e))));
  }

  /** The loop body on a line it does not move past. */
  lemma LineBody(lines: seq<Bytes>, i: nat, st: FormatState, d: nat)
    requires i < |lines| && Fresh(st) && StaysOnLine(lines[i])
    requires Contains(lines[i], IndentNote) || Contains(lines[i], RaiseNote) ==>
      NoteWidth(lines[i]) == Ok(d)
    ensures LineNoteState(st, lines[i], d).trim
         <= |Compose(Decorated(lines[i]), LineNoteState(st, lines[i], d))|
    ensures Body(lines, Cursor(i, lines[i], st))
         == Ok(Emit(Compose(Decorated(lines[i]), LineNoteState(st, lines[i], d))[LineNoteState(st, lines[i], d).trim..],
                    i + 1, Reset(LineNoteState(st, lines[i], d))))
  {
    var l := lines[i];
    var e := LineNoteState(st, l, d);
    var c4, c8 := MarkedStages(lines, i, st, d);
    MarkedDecoration(l);
    LineTrimBound(st, l, d, Decorated(l));
    calc {
      Body(lines, Cursor(i, l, st));
      { BodyChain(lines, Cursor(i, l, st), c4, c8); }
      Finish(RaiseFromGround(LineAlign(c8)));
      Finish(Cursor(i, MarkBreaks(l), e));
      { FinishAt(i, MarkBreaks(l), e, Decorated(l)); }
      Ok(Emit(Compose(Decorated(l), e)[e.trim..], i + 1, Reset(e)));
    }
  }

  /** The note stages on the marked line set the state the notes of the line itself call for. */
  lemma MarkedStages(lines: seq<Bytes>, i: nat, st: FormatState, d: nat) returns (c4: Cursor, c8: Cursor)
    requires i < |lines| && Fresh(st) && StaysOnLine(lines[i])
    requires Contains(lines[i], IndentNote) || Contains(lines[i], RaiseNote) ==>
      NoteWidth(lines[i]) == Ok(d)
    ensures IndentNotes(lines, Cursor(i, MarkBreaks(lines[i]), st)) == Ok(c4)
    ensures RaiseNotes(lines, BlockAlign(c4)) == Ok(c8)
    ensures RaiseFromGround(LineAlign(c8)) == Cursor(i, MarkBreaks(lines[i]), LineNoteState(st, lines[i], d))
    ensures !IsColophon(MarkBreaks(lines[i]))
  {
    var l := lines[i];
    var m := MarkBreaks(l);
    MarkedNotes(l);
    c4, c8 := LineStages(lines, Cursor(i, m, st), d);
    assert LineNoteState(st, m, d) == LineNoteState(st, l, d);
  }

  /** The bytes `地から` drops are the single-line raise the same line's `字上げ］` adds. */
  lemma LineTrimBound(st: FormatState, l: Bytes, d: nat, line: Bytes)
    ensures LineNoteState(st, l, d).trim <= |Compose(line, LineNoteState(st, l, d))|
  {
  }

  /** The end of the iteration on a line that is no colophon, with its decoration named. */
  lemma FinishAt(i: nat, line: Bytes, st: FormatState, decorated: Bytes)
    requires !IsColophon(line) && Decorate(line) == decorated
    requires st.trim <= |Compose(decorated, st)|
    ensures Finish(Cursor(i, line, st)) == Ok(Emit(Compose(decorated, st)[st.trim..], i + 1, Reset(st)))
  {
  }

  /** The note stages on a line they do not move past stay on it and set `LineNoteState`. */
  lemma LineStages(lines: seq<Bytes>, c: Cursor, d: nat) returns (c4: Cursor, c8: Cursor)
    requires c.i < |lines| && Fresh(c.st)
    requires !(HasPrefix(c.line, BlockOpen) && (Contains(c.line, IndentWord) || Contains(c.line, RaiseWord)))
    requires !HasPrefix(c.line, IndentEnd) && !HasPrefix(c.line, RaiseEnd)
    requires Contains(c.line, IndentNote) || Contains(c.line, RaiseNote) ==> NoteWidth(c.line) == Ok(d)
    ensures IndentNotes(lines, c) == Ok(c4)
    ensures RaiseNotes(lines, BlockAlign(c4)) == Ok(c8)
    ensures RaiseFromGround(LineAlign(c8)) == c.(st := LineNoteState(c.st, c.line, d))
  {
    assert BeginIndent(lines, c) == Ok(c);
    assert EndIndent(lines, c) == Ok(c);
    c4 := LineIndent(c).value;
    var a := BlockAlign(c4);
    assert BeginRaise(lines, a) == Ok(a);
    assert EndRaise(lines, a) == Ok(a);
    c8 := LineRaise(a).value;
  }

  /**
   * A single-line or block width note without a full-width digit: Go slices
   * `lines[i][-1:2]` and panics.
   */
  lemma LineWidthMissing(lines: seq<Bytes>, i: nat, st: FormatState)
    requires i < |lines| && StaysOnLine(lines[i])
    requires Contains(lines[i], IndentNote) || Contains(lines[i], RaiseNote)
    requires NoteWidth(lines[i]).Err?
    ensures Step(lines, i, st) == Err(NoWidthDigit)
  {
    var l := lines[i];
    var m := MarkBreaks(l);
    MarkedNotes(l);
    var c := Cursor(i, m, st);
    assert BeginIndent(lines, c) == Ok(c);
    assert EndIndent(lines, c) == Ok(c);
  }

  /**
   * `［＃ここから地付き］` is emitted itself, already aligned right, and the plain line
   * after it comes out with `\f[align,right]` in front (main.go:347-349).
   */
  lemma AlignBlockBegins(lines: seq<Bytes>, i: nat, st: FormatState, d: nat)
    requires i + 1 < |lines| && Fresh(st) && StaysOnLine(lines[i])
    requires Contains(lines[i], AlignOpenNote) && !Contains(lines[i], AlignCloseNote)
    requires Contains(lines[i], IndentNote) || Contains(lines[i], RaiseNote) ==>
      NoteWidth(lines[i]) == Ok(d)
    requires Plain(lines[i + 1])
    ensures LineNoteState(st, lines[i], d).blockAlign == AlignRight
    ensures Step(lines, i, st)
         == Ok(Emit(Compose(Decorated(lines[i]), LineNoteState(st, lines[i], d))[LineNoteState(st, lines[i], d).trim..],
                    i + 1, st.(blockAlign := AlignRight)))
    ensures Step(lines, i + 1, st.(blockAlign := AlignRight))
         == Ok(Emit(AlignRight + st.blockIndent + lines[i + 1] + st.blockRaise + [LF], i + 2,
                    st.(blockAlign := AlignRight)))
  {
    LineStep(lines, i, st, d);
    PlainLineStep(lines, i + 1, st.(blockAlign := AlignRight));
  }

  /**
   * `［＃ここで地付き終わり］` is emitted itself, aligned left, and the plain line after it
   * comes out with `\f[align,left]` in front: the close note sets an explicit left
   * alignment rather than none (main.go:351-353).
   */
  lemma AlignBlockEnds(lines: seq<Bytes>, i: nat, st: FormatState, d: nat)
    requires i + 1 < |lines| && Fresh(st) && StaysOnLine(lines[i])
    requires Contains(lines[i], AlignCloseNote)
    requires Contains(lines[i], IndentNote) || Contains(lines[i], RaiseNote) ==>
      NoteWidth(lines[i]) == Ok(d)
    requires Plain(lines[i + 1])
    ensures LineNoteState(st, lines[i], d).blockAlign == AlignLeft
    ensures Step(lines, i, st)
         == Ok(Emit(Compose(Decorated(lines[i]), LineNoteState(st, lines[i], d))[LineNoteState(st, lines[i], d).trim..],
                    i + 1, st.(blockAlign := AlignLeft)))
    ensures Step(lines, i + 1, st.(blockAlign := AlignLeft))
         == Ok(Emit(AlignLeft + st.blockIndent + lines[i + 1] + st.blockRaise + [LF], i + 2,
                    st.(blockAlign := AlignLeft)))
  {
    LineStep(lines, i, st, d);
    PlainLineStep(lines, i + 1, st.(blockAlign := AlignLeft));
  }

  // ---------------------------------------------------------------------------------
  // Ten-dash header blocks (main.go:306-312)

  /**
   * A ten-dash block from line `i` through its closing line `k` is not emitted: the
   * iteration goes on as if it had started at line `k + 1`, provided that line does not
   * open another block (Go does not check it again).
   */
  lemma RuledBlockSkipped(lines: seq<Bytes>, i: nat, k: nat, st: FormatState)
    requires i < k && k + 1 < |lines|
    requires IsRule(lines[i]) && IsRule(lines[k])
    requires forall j :: i < j < k ==> !IsRule(lines[j])
    requires !IsRule(lines[k + 1])
    ensures Step(lines, i, st) == Step(lines, k + 1, st)
  {
    assert SkipRuledBlock(lines, i) == Ok(k + 1);
    assert SkipRuledBlock(lines, k + 1) == Ok(k + 1);
  }

  /** A ten-dash block that closes on the last line leaves `lines[i]` out of range. */
  lemma RuledBlockAtEnd(lines: seq<Bytes>, i: nat, st: FormatState)
    requires i < |lines| - 1
    requires IsRule(lines[i]) && IsRule(lines[|lines| - 1])
    requires forall j :: i < j < |lines| - 1 ==> !IsRule(lines[j])
    ensures Step(lines, i, st) == Err(PastLastLine)
  {
    assert SkipRuledBlock(lines, i) == Ok(|lines|);
  }

  /** A ten-dash line with no closing one makes Go's inner loop run off the text. */
  lemma RuledBlockUnclosed(lines: seq<Bytes>, i: nat, st: FormatState)
    requires i < |lines| && IsRule(lines[i])
    requires forall j :: i < j < |lines| ==> !IsRule(lines[j])
    ensures Step(lines, i, st) == Err(UnterminatedRule)
  {
  }

  /**
   * Two blocks back to back: the line after the first block is not checked for dashes
   * again, so a bare ten-dash line there is emitted like any other line.
   */
  lemma BackToBackRuleEmitted(lines: seq<Bytes>, i: nat, k: nat, st: FormatState)
    requires i < k && k + 1 < |lines| && Fresh(st)
    requires IsRule(lines[i]) && IsRule(lines[k])
    requires forall j :: i < j < k ==> !IsRule(lines[j])
    requires IsRule(lines[k + 1]) && Bare(lines[k + 1])
    ensures Step(lines, i, st) == Ok(Emit(Framed(st, lines[k + 1]), k + 2, st))
  {
    RuleAfter(lines, i, k);
    SkippedBareStep(lines, i, k, st);
  }

  /** The bare line after a block that closes at `lines[k]` is the one the step emits. */
  lemma SkippedBareStep(lines: seq<Bytes>, i: nat, k: nat, st: FormatState)
    requires i < |lines| && k + 1 < |lines| && SkipRuledBlock(lines, i) == Ok(k + 1)
    requires Bare(lines[k + 1]) && Fresh(st)
    ensures Step(lines, i, st) == Ok(Emit(Framed(st, lines[k + 1]), k + 2, st))
  {
    BareStep(lines, i, k + 1, st);
  }

  /** The block that `lines[i]` opens closes at the first ten-dash line after it. */
  lemma RuleAfter(lines: seq<Bytes>, i: nat, k: nat)
    requires i < k < |lines| && IsRule(lines[i]) && IsRule(lines[k])
    requires forall j :: i < j < k ==> !IsRule(lines[j])
    ensures SkipRuledBlock(lines, i) == Ok(k + 1)
  {
    assert NextRule(lines, i + 1) == Some(k);
  }

  /** The line the step lands on after the ruled-block skip is bare: it is emitted as it is. */
  lemma BareStep(lines: seq<Bytes>, i: nat, j: nat, st: FormatState)
    requires i < |lines| && j < |lines| && SkipRuledBlock(lines, i) == Ok(j)
    requires Bare(lines[j]) && Fresh(st)
    ensures Step(lines, i, st) == Ok(Emit(Framed(st, lines[j]), j + 1, st))
  {
    BareBody(lines, j, st);
    StepIsBody(lines, i, j, st, Ok(Emit(Framed(st, lines[j]), j + 1, st)));
  }

  // ---------------------------------------------------------------------------------
  // The colophon (main.go:393-395)

  /** A single-line width note without a full-width digit, which makes Go panic. */
  predicate WidthMissing(line: Bytes) {
    (Contains(line, IndentNote) || Contains(line, RaiseNote)) && NoteWidth(line).Err?
  }

  /** A line that starts with `底本：` starts with no ten-dash line and no block note. */
  lemma ColophonIsNoBlock(line: Bytes)
    requires IsColophon(line)
    ensures !IsRule(line) && !HasPrefix(line, BlockOpen)
    ensures !HasPrefix(line, IndentEnd) && !HasPrefix(line, RaiseEnd)
  {
    PrefixesClash(line, Colophon, RuleLine);
    PrefixesClash(line, Colophon, BlockOpen);
    PrefixesClash(line, Colophon, IndentEnd);
    PrefixesClash(line, Colophon, RaiseEnd);
  }

  /**
   * A colophon line without page-break notes ends the loop and nothing more is emitted;
   * only a width note on it without a digit panics first.
   */
  lemma ColophonStops(lines: seq<Bytes>, i: nat, st: FormatState)
    requires i < |lines| && IsColophon(lines[i]) && NoBreakNotes(lines[i])
    ensures Step(lines, i, st) == if WidthMissing(lines[i]) then Err(NoWidthDigit) else Ok(Stop)
    ensures Loop(lines, i, st) == if WidthMissing(lines[i]) then Err(NoWidthDigit) else Ok(Run([], true))
  {
    ColophonIsNoBlock(lines[i]);
    ColophonBody(lines, i, st);
    StepIsBody(lines, i, i, st, if WidthMissing(lines[i]) then Err(NoWidthDigit) else Ok(Stop));
  }

  /** The loop body on a colophon line without page-break notes. */
  lemma ColophonBody(lines: seq<Bytes>, i: nat, st: FormatState)
    requires i < |lines| && IsColophon(lines[i]) && NoBreakNotes(lines[i])
    ensures Body(lines, Cursor(i, lines[i], st))
         == if WidthMissing(lines[i]) then Err(NoWidthDigit) else Ok(Stop)
  {
    var l := lines[i];
    var c := Cursor(i, l, st);
    MarkBreaksMarks(l);
    assert MarkBreaks(l) == l by {
      assert [] + l == l;
    }
    assert c.(line := MarkBreaks(c.line)) == c;
    ColophonIsNoBlock(l);
    assert BeginIndent(lines, c) == Ok(c);
    assert EndIndent(lines, c) == Ok(c);
    if !WidthMissing(l) {
      var c4 := LineIndent(c).value;
      var a := BlockAlign(c4);
      assert BeginRaise(lines, a) == Ok(a);
      assert EndRaise(lines, a) == Ok(a);
      var c8 := LineRaise(a).value;
      BodyChain(lines, c, c4, c8);
    } else if !Contains(l, IndentNote) {
      var a := BlockAlign(c);
      assert BeginRaise(lines, a) == Ok(a);
      assert EndRaise(lines, a) == Ok(a);
    }
  }

  /**
   * A page-break note defeats the colophon: the sentinel pair goes in front of the line
   * before `底本：` is looked for, so the line is emitted like any other and the loop
   * goes on.
   */
  lemma BrokenColophonEmitted(lines: seq<Bytes>, i: nat, st: FormatState, d: nat)
    requires i < |lines| && Fresh(st) && IsColophon(lines[i]) && !NoBreakNotes(lines[i])
    requires Contains(lines[i], IndentNote) || Contains(lines[i], RaiseNote) ==>
      NoteWidth(lines[i]) == Ok(d)
    ensures !IsColophon(MarkBreaks(lines[i]))
    ensures Step(lines, i, st)
         == Ok(Emit(Compose(Decorated(lines[i]), LineNoteState(st, lines[i], d))[LineNoteState(st, lines[i], d).trim..],
                    i + 1, st.(blockAlign := AlignAfter(st.blockAlign, lines[i]))))
  {
    MarkedNotes(lines[i]);
    ColophonIsNoBlock(lines[i]);
    LineStep(lines, i, st, d);
  }

  lemma {:induction false} NextRuleExtends(lines: seq<Bytes>, more: seq<Bytes>, from: nat)
    requires NextRule(lines, from).Some?
    ensures NextRule(lines + more, from) == NextRule(lines, from)
    decreases |lines| - from
  {
    assert (lines + more)[from] == lines[from];
    if !IsRule(lines[from]) {
      NextRuleExtends(lines, more, from + 1);
    }
  }

  /** The indent stages read no line past the one they move to. */
  lemma IndentNotesExtends(lines: seq<Bytes>, more: seq<Bytes>, c: Cursor)
    requires c.i < |lines| && IndentNotes(lines, c).Ok?
    ensures IndentNotes(lines + more, c) == IndentNotes(lines, c)
  {
    var all := lines + more;
    var c2 := BeginIndent(lines, c).value;
    assert all[c2.i] == lines[c2.i];
    assert BeginIndent(all, c) == Ok(c2);
    var c3 := EndIndent(lines, c2).value;
    assert all[c3.i] == lines[c3.i];
    assert EndIndent(all, c2) == Ok(c3);
  }

  /** The raise stages read no line past the one they move to. */
  lemma RaiseNotesExtends(lines: seq<Bytes>, more: seq<Bytes>, c: Cursor)
    requires c.i < |lines| && RaiseNotes(lines, c).Ok?
    ensures RaiseNotes(lines + more, c) == RaiseNotes(lines, c)
  {
    var all := lines + more;
    var c6 := BeginRaise(lines, c).value;
    assert all[c6.i] == lines[c6.i];
    assert BeginRaise(all, c) == Ok(c6);
    var c7 := EndRaise(lines, c6).value;
    assert all[c7.i] == lines[c7.i];
    assert EndRaise(all, c6) == Ok(c7);
  }

  /** A loop body that succeeds reads no line past the ones it was given. */
  lemma BodyExtends(lines: seq<Bytes>, more: seq<Bytes>, c: Cursor)
    requires c.i < |lines| && Body(lines, c).Ok?
    ensures Body(lines + more, c) == Body(lines, c)
  {
    var c1 := c.(line := MarkBreaks(c.line));
    var c4 := IndentNotes(lines, c1).value;
    IndentNotesExtends(lines, more, c1);
    RaiseNotesExtends(lines, more, BlockAlign(c4));
    var c8 := RaiseNotes(lines, BlockAlign(c4)).value;
    BodyChain(lines, c, c4, c8);
    BodyChain(lines + more, c, c4, c8);
  }

  /** The ten-dash skip reads no line past the one it lands on. */
  lemma SkipExtends(lines: seq<Bytes>, more: seq<Bytes>, i: nat)
    requires i < |lines| && SkipRuledBlock(lines, i).Ok? && SkipRuledBlock(lines, i).value < |lines|
    ensures SkipRuledBlock(lines + more, i) == SkipRuledBlock(lines, i)
  {
    assert (lines + more)[i] == lines[i];
    if IsRule(lines[i]) {
      NextRuleExtends(lines, more, i + 1);
    }
  }

  /** An iteration that succeeds reads no line past the ones it was given. */
  lemma StepExtends(lines: seq<Bytes>, more: seq<Bytes>, i: nat, st: FormatState)
    requires i < |lines| && Step(lines, i, st).Ok?
    ensures Step(lines + more, i, st) == Step(lines, i, st)
  {
    var j := SkipRuledBlock(lines, i).value;
    assert j < |lines|;
    SkipExtends(lines, more, i);
    assert (lines + more)[j] == lines[j];
    BodyExtends(lines, more, Cursor(j, lines[j], st));
    var x := Body(lines, Cursor(j, lines[j], st));
    StepIsBody(lines, i, j, st, x);
    StepIsBody(lines + more, i, j, st, x);
  }

  /** Once the loop has stopped at the colophon, lines after it change nothing. */
  lemma {:induction false} StoppedLoopIgnoresTail(
    lines: seq<Bytes>, more: seq<Bytes>, i: nat, st: FormatState, text: Bytes)
    requires i <= |lines| && Loop(lines, i, st) == Ok(Run(text, true))
    ensures Loop(lines + more, i, st) == Ok(Run(text, true))
    decreases |lines| - i
  {
    StepExtends(lines, more, i, st);
    match Step(lines, i, st).value
    case Stop =>
    case Emit(out, next, st') =>
      var rest := Loop(lines, next, st').value;
      StoppedLoopIgnoresTail(lines, more, next, st', rest.text);
  }

  /** Nothing after the colophon line affects the formatted text. */
  lemma ColophonCutsTail(lines: seq<Bytes>, more: seq<Bytes>, text: Bytes)
    requires Loop(lines, 0, Initial) == Ok(Run(text, true))
    ensures Loop(lines + more, 0, Initial) == Ok(Run(text, true))
  {
    StoppedLoopIgnoresTail(lines, more, 0, Initial, text);
  }

  // ---------------------------------------------------------------------------------
  // The width digits (NFKC of `０`..`９`)

  /** The full-width digit with value `d`. */
  function FullWidthDigit(d: nat): (r: char)
    requires d <= 9
    ensures 0xFF10 <= r as int <= 0xFF19
  {
    (0xFF10 + d) as char
  }

  /** The bytes `WidthDigitAt` looks for are exactly the UTF-8 of `０`..`９`. */
  lemma WidthDigitBytes(d: nat)
    requires d <= 9
    ensures Utf8Char(FullWidthDigit(d)) == [0xEF, 0xBC, (0x90 + d) as byte]
  {
  }

  /** The width of a note is the value of its first full-width digit. */
  lemma NoteWidthReadsFirstDigit(pre: Bytes, d: nat, post: Bytes)
    requires d <= 9
    requires forall k :: 0 <= k < |pre| ==> !WidthDigitAt(pre + Utf8Char(FullWidthDigit(d)) + post, k)
    ensures NoteWidth(pre + Utf8Char(FullWidthDigit(d)) + post) == Ok(d)
  {
    WidthDigitBytes(d);
    var s := pre + Utf8Char(FullWidthDigit(d)) + post;
    assert WidthDigitAt(s, |pre|);
    assert FirstWidthDigit(s, 0) == Some(|pre|);
  }
}
