/**
 * The line-state formatter of `formatText` (main.go:294-428): a scan over the lines of the
 * book that carries block state (indent, raise, alignment) across lines and single-line
 * state within one line, skips ten-dash header blocks, stops at the colophon, marks page
 * breaks and headings with sentinel pairs, and emits every other line as
 * prefix + line + suffix + "\n" with a number of leading bytes dropped.
 *
 * Each `if` of the Go loop body is one stage below, in the same order. A Go panic
 * (a slice or index out of range) is the error `Err(Crash)`.
 */
module Formatter {
  import opened Results
  import opened Text
  import opened Bytes
  import opened Markers
  import opened GlyphNotes

  /** Why the Go loop would panic. */
  datatype Crash =
    | UnterminatedRule   // no closing ten-dash line (main.go:308)
    | PastLastLine       // `lines[i]` after an `i++` that left the text
    | NoWidthDigit       // a width note without a full-width digit: `lines[i][-1:2]`
    | TrimOverrun        // `line[jiageCount:]` past the end of the composed line (main.go:422)

  /**
   * The formatter's variables. `blockIndent`, `blockRaise` and `blockAlign` are Go's
   * `jisage`, `jiage` and `align`; `lineIndent`, `lineRaise`, `lineAlign` and `trim` are
   * `singleJisage`, `singleJiage`, `singleAlign` and `jiageCount`.
   */
  datatype FormatState = FormatState(
    blockIndent: Bytes,
    blockRaise: Bytes,
    blockAlign: Bytes,
    lineIndent: Bytes,
    lineRaise: Bytes,
    lineAlign: Bytes,
    trim: nat)

  /** Go's `zenkakuByte`: the UTF-8 width of a full-width character. */
  const ZenkakuByte: nat := 3

  const Initial := FormatState([], [], [], [], [], [], 0)

  /** No single-line state is pending. */
  predicate Fresh(st: FormatState) {
    st.lineIndent == [] && st.lineRaise == [] && st.lineAlign == [] && st.trim == 0
  }

  /** The single-line variables cleared, as at the end of every emitted line (main.go:423-426). */
  function Reset(st: FormatState): (r: FormatState)
    ensures Fresh(r)
    ensures r.blockIndent == st.blockIndent && r.blockRaise == st.blockRaise
    ensures r.blockAlign == st.blockAlign
  {
    st.(lineIndent := [], lineRaise := [], lineAlign := [], trim := 0)
  }

  /** `strings.Repeat("　", d)`. */
  function Spaces(d: nat): (r: Bytes)
    ensures |r| == ZenkakuByte * d
  {
    Repeat(IdeographicSpace, d)
  }

  // ---------------------------------------------------------------------------------
  // Width notes: the first full-width digit of a line

  /** A full-width digit `０`..`９` (U+FF10..U+FF19, bytes EF BC 90..99) starts at `k`. */
  predicate WidthDigitAt(s: Bytes, k: int) {
    0 <= k && k + 3 <= |s| && s[k] == 0xEF && s[k + 1] == 0xBC && 0x90 <= s[k + 2] <= 0x99
  }

  /** The first full-width digit at or after `from`: Go's `strings.IndexAny(line, "０１…９")`. */
  function FirstWidthDigit(s: Bytes, from: nat): (r: Option<nat>)
    ensures r.Some? ==> from <= r.value && WidthDigitAt(s, r.value)
    ensures r.Some? ==> forall k :: from <= k < r.value ==> !WidthDigitAt(s, k)
    ensures r.None? ==> forall k :: from <= k ==> !WidthDigitAt(s, k)
    decreases |s| - from
  {
    if from + 3 > |s| then None
    else if WidthDigitAt(s, from) then Some(from)
    else FirstWidthDigit(s, from + 1)
  }

  /**
   * The count a width note gives: NFKC maps the first full-width digit to its ASCII digit
   * and `strconv.Atoi` reads it, so only one digit is ever read. With no digit, Go slices
   * `lines[i][-1:2]` and panics.
   */
  function NoteWidth(s: Bytes): (r: Result<nat, Crash>)
    ensures r.Err? <==> forall k :: 0 <= k ==> !WidthDigitAt(s, k)
    ensures r.Err? ==> r.error == NoWidthDigit
    ensures r.Ok? ==> r.value <= 9
    ensures r.Ok? ==> exists k :: WidthDigitAt(s, k) && s[k + 2] as int - 0x90 == r.value
                                   && forall j :: 0 <= j < k ==> !WidthDigitAt(s, j)
  {
    match FirstWidthDigit(s, 0)
    case None => Err(NoWidthDigit)
    case Some(k) => Ok(s[k + 2] as int - 0x90)
  }

  // ---------------------------------------------------------------------------------
  // The stages of one iteration of the loop

  /** Where the loop body stands: the index `i`, the (possibly rewritten) `lines[i]`, the state. */
  datatype Cursor = Cursor(i: nat, line: Bytes, st: FormatState)

  /** `lines[i]`, which panics once `i` has left the text. */
  function Load(lines: seq<Bytes>, i: nat, st: FormatState): (r: Result<Cursor, Crash>)
    ensures r.Ok? <==> i < |lines|
    ensures r.Err? ==> r.error == PastLastLine
    ensures r.Ok? ==> r.value.i == i && r.value.line == lines[i] && r.value.st == st
  {
    if i < |lines| then Ok(Cursor(i, lines[i], st)) else Err(PastLastLine)
  }

  predicate IsRule(line: Bytes) {
    HasPrefix(line, RuleLine)
  }

  /** The first ten-dash line at or after `from`. */
  function NextRule(lines: seq<Bytes>, from: nat): (r: Option<nat>)
    ensures r.Some? ==> from <= r.value < |lines| && IsRule(lines[r.value])
    ensures r.Some? ==> forall k :: from <= k < r.value ==> !IsRule(lines[k])
    ensures r.None? ==> forall k :: from <= k < |lines| ==> !IsRule(lines[k])
    decreases |lines| - from
  {
    if from >= |lines| then None
    else if IsRule(lines[from]) then Some(from)
    else NextRule(lines, from + 1)
  }

  /**
   * A ten-dash line opens a block that runs through the next ten-dash line; the loop
   * continues at the line after it without checking it again (main.go:306-312).
   */
  function SkipRuledBlock(lines: seq<Bytes>, i: nat): (r: Result<nat, Crash>)
    requires i < |lines|
    ensures !IsRule(lines[i]) ==> r == Ok(i)
    ensures IsRule(lines[i]) && r.Ok? ==>
      i + 1 < r.value <= |lines| && IsRule(lines[r.value - 1])
      && forall k :: i < k < r.value - 1 ==> !IsRule(lines[k])
    ensures IsRule(lines[i]) ==>
      (r.Err? <==> forall k :: i < k < |lines| ==> !IsRule(lines[k]))
    ensures r.Err? ==> r.error == UnterminatedRule
  {
    if !IsRule(lines[i]) then Ok(i)
    else
      match NextRule(lines, i + 1)
      case None => Err(UnterminatedRule)
      case Some(k) => Ok(k + 1)
  }

  /** Page-break notes get a sentinel pair in front (main.go:314-320). */
  function MarkBreaks(line: Bytes): Bytes {
    var l := if Contains(line, SheetBreakNote) then SheetSentinel + line else line;
    if Contains(l, PageBreakNote) || Contains(l, ColumnBreakNote) then PageSentinel + l else l
  }

  /** `［＃ここから…字下げ］` sets the block indent and moves to the next line (main.go:323-331). */
  function BeginIndent(lines: seq<Bytes>, c: Cursor): (r: Result<Cursor, Crash>)
    requires c.i < |lines|
    ensures r.Ok? ==> c.i <= r.value.i < |lines|
    ensures r.Ok? ==> r.value.st.(blockIndent := c.st.blockIndent) == c.st
    ensures !(HasPrefix(c.line, BlockOpen) && Contains(c.line, IndentWord)) ==> r == Ok(c)
    ensures HasPrefix(c.line, BlockOpen) && Contains(c.line, IndentWord) ==>
      (r.Ok? <==> NoteWidth(c.line).Ok? && c.i + 1 < |lines|)
    ensures HasPrefix(c.line, BlockOpen) && Contains(c.line, IndentWord) && r.Err? ==>
      r.error == (if NoteWidth(c.line).Err? then NoWidthDigit else PastLastLine)
    ensures HasPrefix(c.line, BlockOpen) && Contains(c.line, IndentWord) && r.Ok? ==>
      r.value == Cursor(c.i + 1, lines[c.i + 1],
                        c.st.(blockIndent := Spaces(NoteWidth(c.line).value)))
  {
    if HasPrefix(c.line, BlockOpen) && Contains(c.line, IndentWord) then
      var d :- NoteWidth(c.line);
      Load(lines, c.i + 1, c.st.(blockIndent := Spaces(d)))
    else Ok(c)
  }

  /** `［＃ここで字下げ終わり］` clears the block indent and moves on (main.go:333-336). */
  function EndIndent(lines: seq<Bytes>, c: Cursor): (r: Result<Cursor, Crash>)
    requires c.i < |lines|
    ensures r.Ok? ==> c.i <= r.value.i < |lines|
    ensures r.Ok? ==> r.value.st.(blockIndent := c.st.blockIndent) == c.st
    ensures !HasPrefix(c.line, IndentEnd) ==> r == Ok(c)
    ensures HasPrefix(c.line, IndentEnd) ==> (r.Ok? <==> c.i + 1 < |lines|)
    ensures HasPrefix(c.line, IndentEnd) && r.Err? ==> r.error == PastLastLine
    ensures HasPrefix(c.line, IndentEnd) && r.Ok? ==>
      r.value == Cursor(c.i + 1, lines[c.i + 1], c.st.(blockIndent := []))
  {
    if HasPrefix(c.line, IndentEnd) then Load(lines, c.i + 1, c.st.(blockIndent := []))
    else Ok(c)
  }

  /** `…字下げ］` indents this line only (main.go:338-345). */
  function LineIndent(c: Cursor): (r: Result<Cursor, Crash>)
    ensures r.Ok? ==> r.value.i == c.i && r.value.line == c.line
    ensures r.Ok? ==> r.value.st.(lineIndent := c.st.lineIndent) == c.st
    ensures r.Ok? && Contains(c.line, IndentNote) ==>
      NoteWidth(c.line).Ok? && r.value.st.lineIndent == Spaces(NoteWidth(c.line).value)
  {
    if Contains(c.line, IndentNote) then
      var d :- NoteWidth(c.line);
      Ok(c.(st := c.st.(lineIndent := Spaces(d))))
    else Ok(c)
  }

  /**
   * `［＃ここから地付き］` aligns right from here on, `［＃ここで地付き終わり］` left
   * (main.go:347-353); the close note is looked for second, so it wins on a line with both.
   */
  function BlockAlign(c: Cursor): (r: Cursor)
    ensures r.i == c.i && r.line == c.line && r.st.(blockAlign := c.st.blockAlign) == c.st
    ensures Contains(c.line, AlignCloseNote) ==> r.st.blockAlign == AlignLeft
    ensures Contains(c.line, AlignOpenNote) && !Contains(c.line, AlignCloseNote) ==>
      r.st.blockAlign == AlignRight
    ensures !Contains(c.line, AlignOpenNote) && !Contains(c.line, AlignCloseNote) ==> r == c
  {
    var a := if Contains(c.line, AlignOpenNote) then AlignRight else c.st.blockAlign;
    var b := if Contains(c.line, AlignCloseNote) then AlignLeft else a;
    c.(st := c.st.(blockAlign := b))
  }

  /** `［＃ここから…字上げ］` sets the block raise and moves to the next line (main.go:355-363). */
  function BeginRaise(lines: seq<Bytes>, c: Cursor): (r: Result<Cursor, Crash>)
    requires c.i < |lines|
    ensures r.Ok? ==> c.i <= r.value.i < |lines|
    ensures r.Ok? ==> r.value.st.(blockRaise := c.st.blockRaise) == c.st
    ensures !(HasPrefix(c.line, BlockOpen) && Contains(c.line, RaiseWord)) ==> r == Ok(c)
    ensures HasPrefix(c.line, BlockOpen) && Contains(c.line, RaiseWord) ==>
      (r.Ok? <==> NoteWidth(c.line).Ok? && c.i + 1 < |lines|)
    ensures HasPrefix(c.line, BlockOpen) && Contains(c.line, RaiseWord) && r.Err? ==>
      r.error == (if NoteWidth(c.line).Err? then NoWidthDigit else PastLastLine)
    ensures HasPrefix(c.line, BlockOpen) && Contains(c.line, RaiseWord) && r.Ok? ==>
      r.value == Cursor(c.i + 1, lines[c.i + 1],
                        c.st.(blockRaise := Spaces(NoteWidth(c.line).value)))
  {
    if HasPrefix(c.line, BlockOpen) && Contains(c.line, RaiseWord) then
      var d :- NoteWidth(c.line);
      Load(lines, c.i + 1, c.st.(blockRaise := Spaces(d)))
    else Ok(c)
  }

  /** `［＃ここで字上げ終わり］` clears the block raise and moves on (main.go:365-368). */
  function EndRaise(lines: seq<Bytes>, c: Cursor): (r: Result<Cursor, Crash>)
    requires c.i < |lines|
    ensures r.Ok? ==> c.i <= r.value.i < |lines|
    ensures r.Ok? ==> r.value.st.(blockRaise := c.st.blockRaise) == c.st
    ensures !HasPrefix(c.line, RaiseEnd) ==> r == Ok(c)
    ensures HasPrefix(c.line, RaiseEnd) ==> (r.Ok? <==> c.i + 1 < |lines|)
    ensures HasPrefix(c.line, RaiseEnd) && r.Err? ==> r.error == PastLastLine
    ensures HasPrefix(c.line, RaiseEnd) && r.Ok? ==>
      r.value == Cursor(c.i + 1, lines[c.i + 1], c.st.(blockRaise := []))
  {
    if HasPrefix(c.line, RaiseEnd) then Load(lines, c.i + 1, c.st.(blockRaise := []))
    else Ok(c)
  }

  /** `…字上げ］` raises this line only (main.go:370-377). */
  function LineRaise(c: Cursor): (r: Result<Cursor, Crash>)
    ensures r.Ok? ==> r.value.i == c.i && r.value.line == c.line
    ensures r.Ok? ==> r.value.st.(lineRaise := c.st.lineRaise) == c.st
    ensures r.Ok? && Contains(c.line, RaiseNote) ==>
      NoteWidth(c.line).Ok? && r.value.st.lineRaise == Spaces(NoteWidth(c.line).value)
  {
    if Contains(c.line, RaiseNote) then
      var d :- NoteWidth(c.line);
      Ok(c.(st := c.st.(lineRaise := Spaces(d))))
    else Ok(c)
  }

  /** `［＃地付き］` aligns this line right (main.go:379-381). */
  function LineAlign(c: Cursor): (r: Cursor)
    ensures r.i == c.i && r.line == c.line && r.st.(lineAlign := c.st.lineAlign) == c.st
  {
    if Contains(c.line, GroundNote) then c.(st := c.st.(lineAlign := AlignRight)) else c
  }

  /**
   * `［＃地から…字上げ］` drops 3·d bytes from the front of the composed line (main.go:383-391).
   * The other width notes declare a fresh `jiageCount` with `:=` inside their `if`, so this
   * is the only stage that sets the outer one. Such a line also holds `字上げ］`, so the
   * digit was already found by `LineRaise` on this same line and Go's check here never fails.
   */
  function RaiseFromGround(c: Cursor): (r: Cursor)
    requires Contains(c.line, RaiseNote) ==> NoteWidth(c.line).Ok?
    ensures r.i == c.i && r.line == c.line && r.st.(trim := c.st.trim) == c.st
    ensures Contains(c.line, FromGroundNote) && Contains(c.line, RaiseNote) ==>
      r.st.trim == ZenkakuByte * NoteWidth(c.line).value
    ensures !(Contains(c.line, FromGroundNote) && Contains(c.line, RaiseNote)) ==> r == c
  {
    if Contains(c.line, FromGroundNote) && Contains(c.line, RaiseNote) then
      c.(st := c.st.(trim := ZenkakuByte * NoteWidth(c.line).value))
    else c
  }

  /** A line that starts with `底本：` ends the text (main.go:393-395). */
  predicate IsColophon(line: Bytes) {
    HasPrefix(line, Colophon)
  }

  /** Headings get sentinel pairs and glyph notes become `□` (main.go:397-412). */
  function Decorate(line: Bytes): Bytes {
    var a := if Contains(line, CenterNote) then HeadSentinel + line else line;
    var b := if Contains(a, MajorHeadingNote) then HeadSentinel + a else a;
    var c := if Contains(b, MinorHeadingNote) then SubheadSentinel + b else b;
    if Contains(c, GlyphNoteOpen) then ReplaceGlyphNotes(c) else c
  }

  /** The line with every prefix and suffix of the state around it (main.go:421). */
  function Compose(line: Bytes, st: FormatState): Bytes {
    st.lineAlign + st.blockAlign + st.lineIndent + st.blockIndent + line
    + st.lineRaise + st.blockRaise + [LF]
  }

  /** What one iteration of the loop does. */
  datatype Outcome =
    | Stop                                        // the colophon: `break`
    | Emit(out: Bytes, next: nat, st: FormatState) // `result += …; i++`

  /** The indent stages, `BeginIndent` to `LineIndent` (main.go:323-345). */
  function IndentNotes(lines: seq<Bytes>, c: Cursor): (r: Result<Cursor, Crash>)
    requires c.i < |lines|
    ensures r.Ok? ==> c.i <= r.value.i < |lines|
    ensures r.Ok? ==>
      r.value.st.(blockIndent := c.st.blockIndent, lineIndent := c.st.lineIndent) == c.st
    ensures r.Ok? ==> r.value.st.trim == c.st.trim && r.value.st.lineRaise == c.st.lineRaise
  {
    var c2 :- BeginIndent(lines, c);
    var c3 :- EndIndent(lines, c2);
    LineIndent(c3)
  }

  /** The raise stages, `BeginRaise` to `LineRaise` (main.go:355-377). */
  function RaiseNotes(lines: seq<Bytes>, c: Cursor): (r: Result<Cursor, Crash>)
    requires c.i < |lines|
    ensures r.Ok? ==> c.i <= r.value.i < |lines|
    ensures r.Ok? ==>
      r.value.st.(blockRaise := c.st.blockRaise, lineRaise := c.st.lineRaise) == c.st
    ensures r.Ok? ==> r.value.st.trim == c.st.trim
    ensures r.Ok? && Contains(r.value.line, RaiseNote) ==>
      NoteWidth(r.value.line).Ok? && r.value.st.lineRaise == Spaces(NoteWidth(r.value.line).value)
  {
    var c6 :- BeginRaise(lines, c);
    var c7 :- EndRaise(lines, c6);
    LineRaise(c7)
  }

  /**
   * The end of the loop body (main.go:393-427): stop at the colophon, or emit the composed
   * line with `trim` bytes dropped and clear the single-line state.
   */
  function Finish(c: Cursor): (r: Result<Outcome, Crash>)
    ensures IsColophon(c.line) ==> r == Ok(Stop)
    ensures r.Ok? && r.value.Emit? ==> r.value.next == c.i + 1 && r.value.st == Reset(c.st)
    ensures r.Err? ==> r.error == TrimOverrun
    ensures c.st.trim <= |c.st.lineRaise| ==> r.Ok?
    ensures c.st.trim <= |c.st.lineRaise| && r.Ok? && r.value.Emit? ==>
      |r.value.out| > 0 && r.value.out[|r.value.out| - 1] == LF
  {
    if IsColophon(c.line) then Ok(Stop)
    else
      var composed := Compose(Decorate(c.line), c.st);
      if c.st.trim > |composed| then Err(TrimOverrun)
      else Ok(Emit(composed[c.st.trim..], c.i + 1, Reset(c.st)))
  }

  /**
   * The loop body once `lines[i]` has been loaded into `c`: from the page-break marks
   * (main.go:314) to the `i++` that ends the iteration (main.go:427).
   */
  function Body(lines: seq<Bytes>, c: Cursor): (r: Result<Outcome, Crash>)
    requires c.i < |lines|
    ensures r.Ok? && r.value.Emit? ==> c.i < r.value.next <= |lines|
    ensures r.Ok? && r.value.Emit? ==> Fresh(r.value.st)
    ensures Fresh(c.st) ==> r != Err(TrimOverrun)
    ensures Fresh(c.st) && r.Ok? && r.value.Emit? ==>
      |r.value.out| > 0 && r.value.out[|r.value.out| - 1] == LF
  {
    var c4 :- IndentNotes(lines, c.(line := MarkBreaks(c.line)));
    var c8 :- RaiseNotes(lines, BlockAlign(c4));
    var c10 := RaiseFromGround(LineAlign(c8));
    RaiseTrimBound(c8);
    Finish(c10)
  }

  /**
   * Go's `line[jiageCount:]` stays in range: a raise from the ground drops 3·d bytes, and
   * the same line's `字上げ］` has put d full-width spaces (3·d bytes) into the line.
   */
  lemma RaiseTrimBound(c: Cursor)
    requires Contains(c.line, RaiseNote) ==>
      NoteWidth(c.line).Ok? && c.st.lineRaise == Spaces(NoteWidth(c.line).value)
    ensures c.st.trim == 0 ==>
      RaiseFromGround(LineAlign(c)).st.trim <= |RaiseFromGround(LineAlign(c)).st.lineRaise|
  {
  }

  /**
   * One iteration of the loop from index `i`: everything between `for i < len(lines)`
   * and the next test of that condition.
   */
  function Step(lines: seq<Bytes>, i: nat, st: FormatState): (r: Result<Outcome, Crash>)
    requires i < |lines|
    ensures r.Ok? && r.value.Emit? ==> i < r.value.next <= |lines|
    ensures r.Ok? && r.value.Emit? ==> Fresh(r.value.st)
    ensures Fresh(st) ==> r != Err(TrimOverrun)
    ensures Fresh(st) && r.Ok? && r.value.Emit? ==>
      |r.value.out| > 0 && r.value.out[|r.value.out| - 1] == LF
  {
    var j :- SkipRuledBlock(lines, i);
    var c :- Load(lines, j, st);
    Body(lines, c)
  }

  /** What the loop leaves: the emitted text, and whether it ended at the colophon. */
  datatype Run = Run(text: Bytes, stopped: bool)

  /** The loop from index `i` on. */
  function Loop(lines: seq<Bytes>, i: nat, st: FormatState): (r: Result<Run, Crash>)
    requires i <= |lines|
    ensures Fresh(st) ==> r != Err(TrimOverrun)
    ensures Fresh(st) && r.Ok? && r.value.text != [] ==> r.value.text[|r.value.text| - 1] == LF
    ensures r.Ok? && !r.value.stopped && i == |lines| ==> r.value.text == []
    decreases |lines| - i
  {
    if i == |lines| then Ok(Run([], false))
    else
      var o :- Step(lines, i, st);
      match o
      case Stop => Ok(Run([], true))
      case Emit(out, next, st') =>
        var rest :- Loop(lines, next, st');
        Ok(Run(out + rest.text, rest.stopped))
  }

  /** The formatting loop over `strings.Split(book, "\n")`, before the ruby pass. */
  function FormatLines(book: Bytes): (r: Result<Bytes, Crash>)
    ensures r != Err(TrimOverrun)
    ensures r.Ok? && r.value != [] ==> r.value[|r.value| - 1] == LF
  {
    var lines := Split(book);
    assert Fresh(Initial);
    var run :- Loop(lines, 0, Initial);
    Ok(run.text)
  }
}
