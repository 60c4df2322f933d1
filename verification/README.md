# aozoragetter in Dafny

A model of `main.go` of aozoragetter, a command-line tool that finds a work of the
Aozora Bunko library by title or author words, downloads its plain text and rewrites the
text's bracketed typesetting notes (`［＃…］`) and ruby glosses (`《…》`) into the markup of
a typesetting program. The model covers the program's logic, not its I/O:

- **Formatter** (`formatter.dfy`, `formatter_props.dfy`, `block_notes.dfy`, with
  `glyph_notes.dfy`, `markers.dfy`, `marker_encoding.dfy`): the line loop of `formatText`. It works on the
  UTF-8 bytes of each line, as Go's string slicing does. The loop skips ten-dash blocks and
  marks sheet and page breaks. It keeps the block state (indent, raise, alignment) across
  lines and the single-line state for one line. It reads width digits, rewrites headings,
  centring and glyph notes, and composes each line. It trims the bytes asked for by
  `地から…字上げ`, clears the single-line state, and stops at the colophon `底本：`.
  Every Go panic on this path is an `Err` value naming its cause:
  - an unclosed ten-dash block;
  - a ten-dash block closing on the last line;
  - a block-indent or block-raise note on the last line (`lines[i]` after the `i++`);
  - a width note without a full-width digit;
  - the trim slice.
- **Ruby pass** (`ruby.dfy`): `processRuby` on the word tokens. An explicit `｜base《` and
  an implicit `Han-run《` both become `《base,`. The tokens are then joined.
- **Search** (`search.dfy`): `getBookURL`, `getInfoSummury` and `searchBook`. `NarrowAll`
  models the loop in `main` that narrows the candidates one query word at a time.
- **Top level** (`aozora.dfy`): `formatText` as the two passes in sequence. `main`'s choice
  between listing candidates, reporting no match and downloading, with the exit code of
  each outcome.

Shared pieces are `results.dfy` (`Option`, `Result`), `text.dfy` (`strings.Index`,
`strings.LastIndex`, `strings.Contains` and `strings.HasPrefix` as occurrence predicates)
and `bytes.dfy` (UTF-8 encoding, `strings.Split`, `strings.Join`, `strings.Repeat`).

### Where the code behaves unexpectedly

- An invalid URL for the first match does not end the search. `searchBook`
  (main.go:209-216) empties only the candidates gathered so far and keeps scanning, so a
  later match becomes the first candidate and decides the URL. `Search.FirstValid` and
  `Search.FirstValidSkips` state this behaviour.
- main.go:422 slices `line[jiageCount:]` without a bounds check. `Formatter.RaiseTrimBound`
  shows that this slice is always in range: the same line's `字上げ］` note has put the
  bytes there.
- A reading with no ideographic base is not given an empty base. A `《` preceded only by
  Han tokens makes the backward walk (main.go:261-265) run off the front of the slice and
  panic (`Ruby.BaseAtStartFails`). A `｜` with no later `《` panics (main.go:253-255,
  `Ruby.UnclosedBaseFails`), and so does an implicit gloss with no later `》`
  (main.go:278-280, `Ruby.UnclosedReadingFails`). An empty base does occur, when the token
  just before `《` is not Han, and gives `《 ,` (`Ruby.ImplicitGloss`).
- A width is the first full-width digit of the line and nothing more. The code
  (main.go:324-328 and 371-375) normalises the three bytes of that one digit, so a width
  note is 0..9 and `１０` reads as 1 (`FormatterProps.NoteWidthReadsFirstDigit`).
- The ten-dash skip (main.go:306-312) moves past the closing line without checking the
  following line again. A ten-dash line right after a ruled block is emitted as text
  (`FormatterProps.BackToBackRuleEmitted`).
- A `底本：` line does not always end the text. The code marks page breaks
  (main.go:314-320) before it tests for `底本：` (main.go:393). A `底本：` line that also
  carries `［＃改丁］`, `［＃改ページ］` or `［＃改段］` therefore starts with a sentinel pair,
  is emitted like any other line, and the loop goes on (`FormatterProps.BrokenColophonEmitted`).
- `［＃ここで地付き終わり］` sets the block alignment to `\f[align,left]` rather than
  clearing it (main.go:351-353). The plain line after it comes out with that prefix
  (`FormatterProps.AlignBlockEnds`), and the state keeps it for the lines after that
  (`FormatterProps.LineStep`).
- A block opener or closer moves the loop to the next line in the middle of an iteration
  (the `i++` at main.go:330, 335, 362 and 367). The ten-dash test and the page-break marks
  (main.go:306-320) run only at the top of an iteration, so that next line gets neither:
  its break notes get no sentinel pair, and a `底本：` there ends the text even with a break
  note. The stages before the move never look at it. After a raise-block note its
  `字下げ］` and block-alignment notes are ignored, while those of the raise-block line
  itself apply. The lemmas `BlockNotes.IndentBlockBegins`, `BlockNotes.IndentBlockEnds`,
  `BlockNotes.RaiseBlockBegins` and `BlockNotes.RaiseBlockEnds` state the emitted line.
- For the same reason a block-indent note on the line right after another one is not
  recognised: the opener test (main.go:323) and the closer test (main.go:333) run once per
  iteration. A block closed and reopened on the next line never starts again. The opener is
  printed as text, indented by its own `字下げ］` for that line only, and the block indent
  stays cleared (`BlockNotes.IndentBlockEnds`). An opener right after an opener is printed
  the same way, under the first one's block indent (`BlockNotes.IndentBlockBegins`).

## Model

| member | source | states |
|---|---|---|
| Text.IndexFrom | main.go:185 | `strings.Index` from a position: the result is an occurrence, no earlier one exists, and `None` means there is none at all |
| Text.LastIndex | main.go:186 | `strings.LastIndex`: the result is an occurrence and no later one exists; `None` means the pattern does not occur |
| Text.ContainsIff | main.go:207 | `strings.Contains` holds exactly when `strings.Index` finds something |
| Text.ContainsTrans | main.go:338 | a line that contains a note contains every part of it (`［＃地から…字上げ］` holds `字上げ］`) |
| Bytes.Split | main.go:295 | `strings.Split(book, "\n")` yields at least one line |
| Bytes.SplitHasNoLF | main.go:295 | no line of the split holds a line break |
| Bytes.JoinSplit | main.go:295 | joining the lines with `\n` gives back the book |
| Bytes.SplitJoin | main.go:295 | splitting a join of break-free lines gives back the lines |
| Bytes.UnlinesJoin | main.go:421 | emitting each line followed by `\n` is the joined text plus one final `\n` |
| Bytes.Repeat | main.go:329 | `strings.Repeat` of a unit n times has n times its length |
| Bytes.Utf8Char | main.go:29 | a character of the Basic Multilingual Plane from U+0800 on takes exactly `zenkakuByte` = 3 bytes |
| MarkerEncoding.RuleLineIsUtf8 | main.go:306 | the bytes compared against are the UTF-8 of `----------`, the ten-dash line |
| MarkerEncoding.SheetBreakNoteIsUtf8 | main.go:314 | the bytes compared against are the UTF-8 of `［＃改丁］` |
| MarkerEncoding.PageBreakNoteIsUtf8 | main.go:318 | the bytes compared against are the UTF-8 of `［＃改ページ］` |
| MarkerEncoding.ColumnBreakNoteIsUtf8 | main.go:318 | the bytes compared against are the UTF-8 of `［＃改段］` |
| MarkerEncoding.BlockOpenIsUtf8 | main.go:323 | the bytes compared against are the UTF-8 of `［＃ここから` |
| MarkerEncoding.IndentWordIsUtf8 | main.go:323 | the bytes compared against are the UTF-8 of `字下げ` |
| MarkerEncoding.IndentEndIsUtf8 | main.go:333 | the bytes compared against are the UTF-8 of `［＃ここで字下げ終わり］` |
| MarkerEncoding.IndentNoteIsUtf8 | main.go:338 | the bytes compared against are the UTF-8 of `字下げ］` |
| MarkerEncoding.AlignOpenNoteIsUtf8 | main.go:347 | the bytes compared against are the UTF-8 of `［＃ここから地付き］` |
| MarkerEncoding.AlignCloseNoteIsUtf8 | main.go:351 | the bytes compared against are the UTF-8 of `［＃ここで地付き終わり］` |
| MarkerEncoding.RaiseWordIsUtf8 | main.go:355 | the bytes compared against are the UTF-8 of `字上げ` |
| MarkerEncoding.RaiseEndIsUtf8 | main.go:365 | the bytes compared against are the UTF-8 of `［＃ここで字上げ終わり］` |
| MarkerEncoding.RaiseNoteIsUtf8 | main.go:370 | the bytes compared against are the UTF-8 of `字上げ］` |
| MarkerEncoding.GroundNoteIsUtf8 | main.go:379 | the bytes compared against are the UTF-8 of `［＃地付き］` |
| MarkerEncoding.FromGroundNoteIsUtf8 | main.go:383 | the bytes compared against are the UTF-8 of `［＃地から` |
| MarkerEncoding.ColophonIsUtf8 | main.go:393 | the bytes compared against are the UTF-8 of `底本：` |
| MarkerEncoding.CenterNoteIsUtf8 | main.go:397 | the bytes compared against are the UTF-8 of `［＃ページの左右中央］` |
| MarkerEncoding.MajorHeadingNoteIsUtf8 | main.go:401 | the bytes compared against are the UTF-8 of `は大見出し］` |
| MarkerEncoding.MinorHeadingNoteIsUtf8 | main.go:405 | the bytes compared against are the UTF-8 of `は中見出し］` |
| MarkerEncoding.GlyphNoteOpenIsUtf8 | main.go:409 | the bytes compared against are the UTF-8 of `※［` |
| MarkerEncoding.OpenBracketIsUtf8 | main.go:410 | the bytes compared against are the UTF-8 of `［` of the glyph-note pattern |
| MarkerEncoding.CloseBracketIsUtf8 | main.go:410 | the bytes compared against are the UTF-8 of `］` of the glyph-note pattern |
| MarkerEncoding.AlignRightIsUtf8 | main.go:348 | the bytes compared against are the UTF-8 of `\f[align,right]` |
| MarkerEncoding.AlignLeftIsUtf8 | main.go:352 | the bytes compared against are the UTF-8 of `\f[align,left]` |
| MarkerEncoding.IdeographicSpaceIsUtf8 | main.go:329 | the bytes compared against are the UTF-8 of the full-width space `　` that indents |
| MarkerEncoding.SheetSentinelIsUtf8 | main.go:315 | the bytes compared against are the UTF-8 of the sentinel `■□` |
| MarkerEncoding.PageSentinelIsUtf8 | main.go:319 | the bytes compared against are the UTF-8 of the sentinel `□■` |
| MarkerEncoding.HeadSentinelIsUtf8 | main.go:398 | the bytes compared against are the UTF-8 of the sentinel `◆◇` |
| MarkerEncoding.SubheadSentinelIsUtf8 | main.go:406 | the bytes compared against are the UTF-8 of the sentinel `◇◆` |
| MarkerEncoding.PlaceholderIsUtf8 | main.go:411 | the bytes compared against are the UTF-8 of the placeholder `□` |
| Markers.OpeningNotesAreBracketed | main.go:314-397 | every block, break, alignment and centring note mentions a full-width bracket |
| Markers.IndentNotesAreBracketed | main.go:338-370 | `字下げ］` and `字上げ］` end in a full-width bracket |
| Markers.HeadingNotesAreBracketed | main.go:401-405 | the heading notes end in a full-width bracket |
| Markers.GlyphNoteIsBracketed | main.go:409 | `※［` holds a full-width bracket |
| Markers.SentinelsInert | main.go:315-406 | the sentinel pairs `■□`, `□■`, `◆◇`, `◇◆` hold no lead byte of any note and start no `※［` |
| Markers.InertBehind | main.go:314-412 | a note is found behind such inert text exactly when it is in the rest, and a non-empty inert text in front hides every note prefix |
| GlyphNotes.FirstNote | main.go:410-411 | the leftmost match of `※［[^］]*］`: the first `※［`, and the first `］` after it |
| GlyphNotes.FirstNoteFindsNote | main.go:410-411 | the match search finds a glyph note exactly when the line has one |
| GlyphNotes.ReplaceGlyphNotes | main.go:409-411 | the rewritten line is never longer than the original |
| GlyphNotes.NoNoteUnchanged | main.go:409-411 | a line with no glyph note is left as it is |
| GlyphNotes.ReplaceLeavesNoNote | main.go:410-411 | after `ReplaceAllString` no glyph note is left in the line |
| GlyphNotes.ReplaceIdempotent | main.go:410-411 | rewriting a rewritten line changes nothing |
| GlyphNotes.ReplaceKeepsNoLF | main.go:410-411 | the rewrite introduces no line break |
| GlyphNotes.NoteBehind | main.go:410-411 | behind text that starts no `※［`, the leftmost match is the rest's leftmost match, shifted by the text's length |
| GlyphNotes.ReplaceBehind | main.go:410-411 | text in front that starts no `※［` is kept as it is and the rest of the line is rewritten on its own |
| GlyphNotes.ExampleOneNote | main.go:410-411 | `A※［B］C` becomes `A□C` |
| Formatter.Reset | main.go:423-426 | clearing the single-line variables leaves no single-line state and keeps the block indent, raise and alignment |
| Formatter.Spaces | main.go:329 | `strings.Repeat("　", d)` is 3·d bytes long |
| Formatter.FirstWidthDigit | main.go:324 | `strings.IndexAny` over `０`..`９`: the first full-width digit at or after a position, none before it |
| Formatter.NoteWidth | main.go:324-328 | a width note panics exactly when it has no full-width digit; otherwise the count is the value 0..9 of a full-width digit in it |
| Formatter.Load | main.go:304-308 | `lines[i]` succeeds exactly when i is inside the text and panics otherwise |
| Formatter.NextRule | main.go:308-310 | the first ten-dash line at or after a position, with no ten-dash line before it; `None` when there is none |
| Formatter.SkipRuledBlock | main.go:306-312 | a ten-dash line skips through the next ten-dash line to the line after it; without a closing line the inner loop panics; any other line stays |
| Formatter.BeginIndent | main.go:323-331 | a line starting `［＃ここから` that holds `字下げ` sets the block indent to d full-width spaces, d its first full-width digit, and moves to the next line; without a digit it panics, on the last line `lines[i]` panics; any other line passes unchanged |
| Formatter.EndIndent | main.go:333-336 | a line starting `［＃ここで字下げ終わり］` clears the block indent and moves to the next line, and panics on the last line; any other line passes unchanged |
| Formatter.LineIndent | main.go:338-345 | when it succeeds, `字下げ］` sets the single-line indent to d full-width spaces, d its first full-width digit, changes nothing else and stays on the line |
| Formatter.BlockAlign | main.go:347-353 | the block alignment notes change only the block alignment: `［＃ここで地付き終わり］` sets `\f[align,left]` and wins on a line with both notes, `［＃ここから地付き］` alone sets `\f[align,right]`, and a line with neither keeps it |
| Formatter.BeginRaise | main.go:355-363 | a line starting `［＃ここから` that holds `字上げ` sets the block raise to d full-width spaces, d its first full-width digit, and moves to the next line; without a digit it panics, on the last line `lines[i]` panics; any other line passes unchanged |
| Formatter.EndRaise | main.go:365-368 | a line starting `［＃ここで字上げ終わり］` clears the block raise and moves to the next line, and panics on the last line; any other line passes unchanged |
| Formatter.LineRaise | main.go:370-377 | `字上げ］` changes only the single-line raise, to d full-width spaces for the note's digit d |
| Formatter.LineAlign | main.go:379-381 | `［＃地付き］` changes only the single-line alignment |
| Formatter.RaiseFromGround | main.go:383-391 | `［＃地から…字上げ］` changes only `jiageCount`, to 3·d; any other line is untouched |
| Formatter.IndentNotes | main.go:323-345 | the indent stages move forward within the text and touch neither the raise state nor the trim |
| Formatter.RaiseNotes | main.go:355-377 | the raise stages move forward within the text, keep the trim, and set the single-line raise from the line's digit |
| Formatter.Finish | main.go:393-427 | a colophon stops the loop; otherwise the line is emitted with the single-line state cleared; the trim never overruns when it is at most the single-line raise |
| Formatter.Body | main.go:314-427 | an emitted line advances within the text and leaves no single-line state; starting fresh, `line[jiageCount:]` never panics |
| Formatter.RaiseTrimBound | main.go:383-422 | 3·d dropped bytes never exceed the d full-width spaces the same line's `字上げ］` put in |
| Formatter.Step | main.go:304-428 | one iteration advances within the text, ends with no single-line state, and from a fresh state never overruns the trim |
| Formatter.Loop | main.go:304-428 | from a fresh state the trim never panics and the emitted text ends with `\n`; a loop at the end emits nothing |
| Formatter.FormatLines | main.go:294-428 | the line loop never panics on the trim, and its output, when not empty, ends with `\n` |
| FormatterProps.Unbracketed | main.go:314-412 | a line without full-width brackets contains no bracketed note, neither as a substring nor as a prefix |
| FormatterProps.NoNotes | main.go:314-412 | no note the loop body looks for occurs in a line without full-width brackets |
| FormatterProps.ComposeFresh | main.go:421-426 | with no single-line state the composed line is the block alignment and indent, the line, the block raise and `\n`, and the reset changes nothing |
| FormatterProps.QuietStages | main.go:314-391 | every note stage leaves a line without brackets, and its cursor, unchanged |
| FormatterProps.FinishFresh | main.go:393-427 | with no single-line state a line that is not the colophon is emitted inside the block frame and the state carries over |
| FormatterProps.BareBody | main.go:314-427 | a line without notes goes through the body unchanged and is emitted inside the block frame |
| FormatterProps.PlainLineStep | main.go:304-427 | a line without notes or dashes is emitted verbatim inside the block prefixes and suffix, and the state carries over |
| FormatterProps.PlainLoop | main.go:304-428 | with no block state, a run of plain lines comes out as the lines, each followed by `\n` |
| FormatterProps.PlainTextUnchanged | main.go:294-428 | a book without any note comes out unchanged plus one final `\n` |
| FormatterProps.BracketIsNoRule | main.go:306-393 | a line that starts with a full-width bracket is neither a ten-dash line nor the colophon |
| FormatterProps.MarkBreaksMarks | main.go:314-320 | `［＃改丁］` puts `■□` in front of the line and `［＃改ページ］` or `［＃改段］` puts `□■` in front of that; the line itself follows unchanged |
| FormatterProps.DecorateBehind | main.go:397-412 | behind sentinel pairs the centring, heading and glyph notes are found exactly when they are in the rest, and the glyph rewrite keeps the pairs |
| FormatterProps.DecorateMarks | main.go:397-412 | the decorated line is `◇◆` for `は中見出し］`, then `◆◇` for `は大見出し］` and `◆◇` for `［＃ページの左右中央］`, in front of the line with every glyph note replaced by `□` |
| FormatterProps.NoteWidthBehind | main.go:324-375 | the width digit is read the same past sentinel pairs in front of the line |
| FormatterProps.NotesBehind | main.go:314-393 | behind sentinel pairs a line holds the same notes, and starts with a block note or `底本：` only when nothing is in front |
| FormatterProps.MarkedNotes | main.go:314-393 | the break marks change no note the later stages test for; the marked line is a colophon exactly when the original is one and has no break note |
| FormatterProps.MarkedDecoration | main.go:314-412 | a line comes out as its heading sentinels, then its break sentinels, then the line with glyph notes replaced |
| FormatterProps.LineStep | main.go:314-426 | a line the body does not move past is emitted decorated, with the alignment, indent and raise its notes call for and 3·d bytes dropped for `地から`; afterwards only the block alignment has changed, to what its alignment notes say |
| FormatterProps.LineBody | main.go:314-426 | the loop body on such a line emits it decorated inside the state its notes set and clears the single-line state |
| FormatterProps.MarkedStages | main.go:323-391 | the note stages on the marked line set exactly the state the original line's notes call for, and the marked line is no colophon |
| FormatterProps.LineWidthMissing | main.go:324-377 | a `字下げ］` or `字上げ］` note without a full-width digit panics |
| FormatterProps.AlignBlockBegins | main.go:347-349 | `［＃ここから地付き］` is emitted aligned right, and the plain line after it comes out with `\f[align,right]` in front |
| FormatterProps.AlignBlockEnds | main.go:351-353 | `［＃ここで地付き終わり］` is emitted aligned left, and the plain line after it comes out with `\f[align,left]` in front |
| FormatterProps.IndentEndExcludes | main.go:333 | a line that starts with `［＃ここで字下げ終わり］` starts with no other block note |
| FormatterProps.RaiseEndExcludes | main.go:365 | a line that starts with `［＃ここで字上げ終わり］` starts with no other block note |
| FormatterProps.RaiseOpenerNotIndented | main.go:323-345 | a raise-block opener without `字下げ` passes the indent stages unchanged |
| BlockNotes.IndentBlockBegins | main.go:323-427 | `［＃ここから…字下げ］` is not emitted; the next line, unless it closes the indent block or opens or closes a raise block, is emitted with d full-width spaces in front, its own single-line notes, headings and glyph notes, and no page-break sentinels, or ends the loop if it is `底本：`; the block indent stays set |
| BlockNotes.IndentBlockEnds | main.go:333-427 | `［＃ここで字下げ終わり］` is not emitted, whatever else it holds; the next line, unless it opens or closes a raise block, is emitted with no block indent, its own single-line notes, headings and glyph notes, and no page-break sentinels, or ends the loop if it is `底本：` |
| BlockNotes.RaiseBlockBegins | main.go:338-427 | `［＃ここから…字上げ］` is not emitted but its alignment notes apply; the next line is emitted with d full-width spaces after it, only its raise, `［＃地付き］` and `地から` notes read, and no page-break sentinels, or ends the loop if it is `底本：`; the block raise stays set |
| BlockNotes.RaiseBlockEnds | main.go:338-427 | `［＃ここで字上げ終わり］` is not emitted but its `字下げ］` and alignment notes apply to the next line, whatever that line is; that line is emitted with no block raise, only its raise, `［＃地付き］` and `地から` notes read, and no page-break sentinels, or ends the loop if it is `底本：` |
| FormatterProps.LineStages | main.go:338-391 | the note stages on a line with only single-line notes stay on it and set exactly the single-line state its notes call for |
| FormatterProps.RuledBlockSkipped | main.go:306-312 | a ten-dash block through its closing line is not emitted; the iteration is the one that starts after it |
| FormatterProps.RuledBlockAtEnd | main.go:306-312 | a ten-dash block that closes on the last line panics on `lines[i]` |
| FormatterProps.RuledBlockUnclosed | main.go:306-310 | a ten-dash line with no closing one panics in the inner loop |
| FormatterProps.BackToBackRuleEmitted | main.go:306-312 | the line after a ten-dash block is not checked again, so a ten-dash line there is emitted |
| FormatterProps.ColophonStops | main.go:393-395 | a `底本：` line without page-break notes ends the loop and nothing more is emitted; only a width note on it without a digit panics first |
| FormatterProps.ColophonBody | main.go:314-395 | the body on a `底本：` line without page-break notes is the `break`, or the width-digit panic |
| FormatterProps.BrokenColophonEmitted | main.go:314-395 | a page-break note on the `底本：` line puts its sentinel pair in front before the colophon test, so the line is emitted like any other and the loop goes on |
| FormatterProps.NextRuleExtends | main.go:308-310 | finding the closing ten-dash line reads no line after it |
| FormatterProps.IndentNotesExtends | main.go:323-345 | the indent stages read no line past the one they move to |
| FormatterProps.RaiseNotesExtends | main.go:355-377 | the raise stages read no line past the one they move to |
| FormatterProps.BodyExtends | main.go:314-427 | a body that succeeds reads no line past the ones it was given |
| FormatterProps.SkipExtends | main.go:306-312 | the ten-dash skip reads no line past the one it lands on |
| FormatterProps.StepExtends | main.go:304-428 | an iteration that succeeds reads no line past the ones it was given |
| FormatterProps.StoppedLoopIgnoresTail | main.go:393-395 | once the loop has stopped at the colophon, lines after the text read so far change nothing |
| FormatterProps.ColophonCutsTail | main.go:393-395 | nothing after the colophon line affects the formatted text |
| FormatterProps.FullWidthDigit | main.go:324 | the digits `０`..`９` are U+FF10..U+FF19 |
| FormatterProps.WidthDigitBytes | main.go:324-325 | the three bytes sliced by `lines[i][pos:pos+3]` are the UTF-8 of one full-width digit |
| FormatterProps.NoteWidthReadsFirstDigit | main.go:324-325 | the width of a note is the value of its first full-width digit, so `１０` reads as 1 |
| Ruby.Seek | main.go:253-255 | the walk `for seg[j] != t { j++ }` stops at the first t from its start; `None` when there is none, where Go panics |
| Ruby.HanRun | main.go:261-265 | the backward walk covers exactly the trailing all-Han tokens and stops at the first non-Han one |
| Ruby.Advance | main.go:249-283 | one pass of the loop body consumes at least one token and adds a token exactly when it meets a `《` |
| Ruby.ConcatAppend | main.go:286-289 | joining distributes over concatenation of token lists |
| Ruby.ScanSkips | main.go:248-284 | unmarked tokens are only carried to the output |
| Ruby.UnmarkedUnchanged | main.go:248-284 | tokens without `｜` and `《` pass the scan unchanged |
| Ruby.NoGlossJoins | main.go:245-289 | a text without glosses comes out as its tokens joined |
| Ruby.ScanAppend | main.go:248-284 | unmarked text in front is carried to the output before the scan goes on |
| Ruby.ExplicitAdvance | main.go:250-257 | the pass on `｜ base 《` rewrites it to `《 base ,` in place |
| Ruby.ExplicitGloss | main.go:250-257 | the explicit form `｜ base 《` becomes `《 base ,`, and the reading is scanned as usual |
| Ruby.UnclosedBaseFails | main.go:253-255 | a `｜` with no later `《` makes the walk panic |
| Ruby.UnclosedReadingFails | main.go:267-280 | an implicit gloss after a non-Han token with no later `》` makes the walk for `》` panic |
| Ruby.HanRunOf | main.go:261-265 | the backward walk over `head + run` stops exactly at the end of `head` |
| Ruby.ImplicitAdvance | main.go:259-281 | the pass on `head run 《 reading 》` puts `《` before the Han run and `,` after it and skips to the `》` |
| Ruby.ImplicitGloss | main.go:259-281 | the implicit form: the longest all-Han run before `《` gets `《` in front and `,` behind; an empty run gives `《 ,` |
| Ruby.BaseAtStartFails | main.go:261-265 | a `《` preceded only by Han tokens makes the walk index `seg[-1]` and panic |
| Ruby.ExplicitCounts | main.go:250-257 | the explicit rewrite trades one `｜` for one `,` |
| Ruby.AdvanceCounts | main.go:249-283 | a pass trades a `｜` for a `,`, adds one `,` at a `《`, and otherwise moves tokens without change |
| Ruby.BarCounts | main.go:250-257 | the pass on `｜` trades it for a `,` |
| Ruby.OpenCounts | main.go:259-281 | the pass on `《` adds exactly one `,` |
| Ruby.OpenMoves | main.go:259-281 | the pass on `《` needs a non-Han token before the run and inserts `《` before the run and `,` after it |
| Ruby.OpenSeekMoves | main.go:267-280 | a pass on `《` that walks to the first `》` leaves the tokens as the run framed by `《` and `,` |
| Ruby.ScanCounts | main.go:245-284 | only `｜` and `,` change in number; commas grow at least as much as bars shrink; the length grows by one per implicit gloss |
| Ruby.ExplicitText | main.go:245-284 | a text with one explicit gloss changes only in its `｜` and the `《` after the base |
| Ruby.ImplicitText | main.go:245-284 | a text with one implicit gloss changes only by the `《` moved before the Han run and the `,` after it |
| Ruby.ExampleExplicit | main.go:245-246 | the comment's example: `｜ 1 2 3 《 a o g 》` becomes `《 1 2 3 , a o g 》` |
| Ruby.ExampleBarLimitsBase | main.go:250-257 | `蝴 蝶 ｜ 々 《 ちょうちょう 》`: the explicit bar limits the base to `々` |
| Ruby.ExampleImplicitBase | main.go:259-281 | `美しい 蝴蝶 《 ちょう 》`: the base is the Han word `蝴蝶` alone |
| Ruby.ExampleOpenFirst | main.go:261-265 | a `《` at the very start has no base and panics |
| Search.BookURL | main.go:183-192 | the field is not a book exactly when it lacks `/card` or `.zip`; otherwise the URL starts with the aozorahack text base |
| Search.LastIndexIff | main.go:186 | `strings.LastIndex` finds something exactly when the pattern occurs |
| Search.BookURLParts | main.go:183-192 | the URL is the base, the text from the first `/card` up to the last `.zip`, `/`, the name between the last `/` and that `.zip`, and `.txt` |
| Search.SlashAfterZipPanics | main.go:190 | a `/` after the last `.zip` makes the file-name slice panic |
| Search.ExampleBookURL | main.go:183-192 | `/cards/a.zip` becomes `…/aozorabunko_text/cards/a/a.txt` |
| Search.Filter | main.go:202-208 | the matches keep only rows that contain the query in the title or in the joined author names |
| Search.FilterMembers | main.go:202-208 | the matches are rows of the input, and every matching row is among them |
| Search.FilterSubseq | main.go:202-208 | the matches keep the input order |
| Search.FilterAppend | main.go:206-208 | filtering distributes over concatenation of row lists |
| Search.FilterSnoc | main.go:206-208 | a row appended at the end is kept exactly when it matches |
| Search.FirstValid | main.go:209-216 | the URL is empty exactly when no candidate is left |
| Search.FirstValidSkips | main.go:209-216 | the dropped matches all have invalid URLs, and the URL is `getBookURL` of the first candidate |
| Search.FirstValidHead | main.go:209-216 | the URL returned is `getBookURL` of the first remaining candidate |
| Search.FirstValidDropped | main.go:209-216 | every match dropped before the candidates has an invalid URL |
| Search.FirstValidSuffix | main.go:209-216 | the candidates are the matches from some point on |
| Search.FirstValidSnoc | main.go:209-216 | a further match becomes the first candidate only when there is none yet; otherwise it is appended |
| Search.FirstValidErr | main.go:209-216 | a panic on an earlier match is the result of the whole search |
| Search.Visit | main.go:207-218 | one pass of the loop: a non-match changes nothing, a match is appended, and a match on an empty list decides the URL |
| Search.SearchBook | main.go:202-222 | on an index with all fields the loop computes the filter-then-drop-invalid result; a short row panics; the URL is empty exactly when the list is |
| Search.StepInvariant | main.go:206-219 | one row of the loop matches the functional search over the rows read so far |
| Search.CrashExtends | main.go:206-219 | a panic on a prefix of the index is the result for the whole index |
| Search.SubseqTrans | main.go:479-481 | a subsequence of a subsequence is a subsequence, so narrowing is monotone |
| Search.SuffixSubseq | main.go:209-216 | a suffix of the matches is a subsequence of them |
| Search.NarrowKeepsOrder | main.go:202-222 | the candidates are matching rows of the input, in input order |
| Search.EmptyIndex | main.go:202-222 | an empty index yields no URL and no candidate |
| Search.NarrowAll | main.go:477-481 | after at least one query word, an index row with fewer than 28 fields panics, and on success the URL is empty exactly when no candidate is left |
| Search.NarrowAllMatchesAll | main.go:477-481 | the final candidates are rows of the index in index order and match every query word: the words combine as a logical AND |
| Search.NarrowAllFirstURL | main.go:477-481 | the final URL is `getBookURL` of the first remaining candidate |
| Aozora.UnmarkedTextJoins | main.go:286-289 | formatted text whose words carry no gloss mark comes out as those words joined |
| Aozora.ExitCode | main.go:434-445 | the exit code is 0 exactly when the book is fetched, and otherwise 101, 400 or 401 |
| Aozora.DecideCases | main.go:477-495 | several candidates give the listing, none gives "not found", exactly one gives a download of that row's URL, a row of the index that matches every word |

## Left out

- HTTP downloads, zip extraction, CSV parsing, the cached index file, Shift_JIS decoding and
  printing (main.go:33-181, 433-512 apart from the decisions above) are I/O. The index
  is a parameter `seq<seq<string>>`. Exit codes 101, 201, 301 and 501 come from I/O
  failures and are not modelled; `Aozora.ExitCode` covers 0, 400 and 401, and 101 for a
  missing argument. Exit code 200 is not modelled either: after a fresh download of the
  index, `getIndexFile` returns a non-nil `*Error` carrying its success code 200
  (main.go:108, 131), and `main` prints it and stops on any non-nil result (main.go:459-461),
  so that run does no search.
- The word tokenizer (`Wakati`, main.go:243) is a parameter `Bytes -> seq<Token>`. Go's
  `unicode.Han` table (`isKanji`, main.go:229-237) is a parameter `char -> bool`, with
  `Ruby.IsKanji` requiring every character of the token to be Han.
- NFKC normalisation (main.go:325, 372) is modelled only on what it is applied to here:
  the three bytes of one full-width digit, mapped to its value by a table.
- The tokenizer's own failure (`panic(err)` at main.go:239-242) is not modelled, because the tokenizer is a parameter.
- The commented-out bracket remover (main.go:414-419) is not part of the program's behaviour.
- Formatter.MarkBreaks, Formatter.Decorate and Formatter.Compose carry no ensures of their
  own. `FormatterProps.MarkBreaksMarks` states the break sentinels MarkBreaks puts in front.
  `FormatterProps.DecorateMarks` states the heading sentinels and the glyph-note rewrite of
  Decorate. Compose is stated through `FormatterProps.ComposeFresh` and
  `FormatterProps.LineStep`.
- Formatter.Finish and Formatter.Body state only how an iteration moves on, the cleared
  single-line state and the trim bound. The emitted text is stated by
  `FormatterProps.LineStep` and `FormatterProps.LineBody` for a line that opens or closes no
  indent or raise block. For the four block notes it is stated by the lemmas of
  `BlockNotes`, whatever the next line holds, within the limits listed below.
- Formatter.IndentNotes and Formatter.RaiseNotes state the frame of the stages they chain:
  where the cursor may go and which variables may change. The values are stated by the
  stage functions `BeginIndent`, `EndIndent`, `LineIndent`, `BeginRaise`, `EndRaise` and
  `LineRaise`, and end to end by `FormatterProps.LineStages` and the `BlockNotes` lemmas.
- BlockNotes.IndentBlockBegins does not cover an indent opener followed directly by
  `［＃ここで字下げ終わり］` or by a raise-block note. The closer test (main.go:333) and the
  raise-block tests (main.go:355, 365) come later in the same iteration, so they would find
  that note and move the loop on once more.
- BlockNotes.IndentBlockEnds does not cover `［＃ここで字下げ終わり］` followed directly by
  a raise-block note, for the same reason. An indent opener or closer there is covered: it
  is printed as text.
- BlockNotes.RaiseBlockBegins does not cover a raise opener followed directly by
  `［＃ここで字上げ終わり］`, which would move the loop on once more.
- BlockNotes.IndentBlockBegins, BlockNotes.IndentBlockEnds, BlockNotes.RaiseBlockBegins and
  BlockNotes.RaiseBlockEnds take a block line without page-break notes. With such a note
  the line starts with a sentinel pair, is no block note, and `FormatterProps.LineStep`
  covers it.
- Search and Ruby model Go strings as Dafny strings, that is sequences of Unicode scalar
  values. Go's `strings` functions and slices there work on UTF-8 bytes (main.go:185-191,
  207, 253-280). The two agree on valid UTF-8 only: offsets count characters rather than
  bytes, and invalid UTF-8 cannot be represented.
- Ruby.ProcessRuby carries no ensures of its own: its behaviour is stated by
  `Ruby.ExplicitText`, `Ruby.ImplicitText`, `Ruby.ScanCounts` and the example lemmas.
- Aozora.Decide carries no ensures of its own: `Aozora.DecideCases` states every outcome.
- Aozora.FormatText states on its own only that a panic of the formatter or the ruby pass is
  passed on: `Aozora.UnmarkedTextJoins` states its result on a text whose words carry no
  ruby mark.
- Ruby.Scan carries no ensures of its own: its behaviour is stated by `Ruby.ExplicitText`,
  `Ruby.ImplicitText` and `Ruby.ScanCounts`.
- Search.Matches carries no ensures of its own: it is the filter test of
  `Search.FilterMembers`, which states which rows pass it, and of `Search.SearchBook`.
- Search.Narrow carries no ensures of its own: its result is stated by
  `Search.FilterMembers` and `Search.SearchBook`.
- Search.SearchBook: on an index with a row shorter than 28 fields it states only that the
  search panics (`Err`), not which panic comes first. On a complete index it states the
  exact result.
- Search.NarrowAll: an index with a short row is reported as `Err(ShortRow)`, even when
  Go would first panic on a crossed URL slice of an earlier row. Both are panics; only the
  panic message differs.
- Heading and centring notes are modelled as the rewrites main.go:397-412 perform (sentinel
  marks in the line). The typesetting program that later reads those marks is not modelled.
