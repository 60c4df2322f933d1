/**
 * The annotation notes of the Aozora Bunko input manual that the formatter recognises,
 * and the markup it writes, as the UTF-8 bytes Go compares against. `MarkerEncoding`
 * ties every byte display to the text it spells.
 */
module Markers {
  import opened Text
  import opened Bytes

  // Notes recognised in the input.
  const RuleLine: Bytes := [0x2D, 0x2D, 0x2D, 0x2D, 0x2D, 0x2D, 0x2D, 0x2D, 0x2D, 0x2D]  // "----------"
  const SheetBreakNote: Bytes := [0xEF, 0xBC, 0xBB, 0xEF, 0xBC, 0x83, 0xE6, 0x94, 0xB9, 0xE4, 0xB8, 0x81, 0xEF, 0xBC, 0xBD]  // "［＃改丁］"
  const PageBreakNote: Bytes := [0xEF, 0xBC, 0xBB, 0xEF, 0xBC, 0x83, 0xE6, 0x94, 0xB9, 0xE3, 0x83, 0x9A, 0xE3, 0x83, 0xBC, 0xE3, 0x82, 0xB8, 0xEF, 0xBC, 0xBD]  // "［＃改ページ］"
  const ColumnBreakNote: Bytes := [0xEF, 0xBC, 0xBB, 0xEF, 0xBC, 0x83, 0xE6, 0x94, 0xB9, 0xE6, 0xAE, 0xB5, 0xEF, 0xBC, 0xBD]  // "［＃改段］"
  const BlockOpen: Bytes := [0xEF, 0xBC, 0xBB, 0xEF, 0xBC, 0x83, 0xE3, 0x81, 0x93, 0xE3, 0x81, 0x93, 0xE3, 0x81, 0x8B, 0xE3, 0x82, 0x89]  // "［＃ここから"
  const IndentWord: Bytes := [0xE5, 0xAD, 0x97, 0xE4, 0xB8, 0x8B, 0xE3, 0x81, 0x92]  // "字下げ"
  const IndentEnd: Bytes := [0xEF, 0xBC, 0xBB, 0xEF, 0xBC, 0x83, 0xE3, 0x81, 0x93, 0xE3, 0x81, 0x93, 0xE3, 0x81, 0xA7, 0xE5, 0xAD, 0x97, 0xE4, 0xB8, 0x8B, 0xE3, 0x81, 0x92, 0xE7, 0xB5, 0x82, 0xE3, 0x82, 0x8F, 0xE3, 0x82, 0x8A, 0xEF, 0xBC, 0xBD]  // "［＃ここで字下げ終わり］"
  const IndentNote: Bytes := [0xE5, 0xAD, 0x97, 0xE4, 0xB8, 0x8B, 0xE3, 0x81, 0x92, 0xEF, 0xBC, 0xBD]  // "字下げ］"
  const AlignOpenNote: Bytes := [0xEF, 0xBC, 0xBB, 0xEF, 0xBC, 0x83, 0xE3, 0x81, 0x93, 0xE3, 0x81, 0x93, 0xE3, 0x81, 0x8B, 0xE3, 0x82, 0x89, 0xE5, 0x9C, 0xB0, 0xE4, 0xBB, 0x98, 0xE3, 0x81, 0x8D, 0xEF, 0xBC, 0xBD]  // "［＃ここから地付き］"
  const AlignCloseNote: Bytes := [0xEF, 0xBC, 0xBB, 0xEF, 0xBC, 0x83, 0xE3, 0x81, 0x93, 0xE3, 0x81, 0x93, 0xE3, 0x81, 0xA7, 0xE5, 0x9C, 0xB0, 0xE4, 0xBB, 0x98, 0xE3, 0x81, 0x8D, 0xE7, 0xB5, 0x82, 0xE3, 0x82, 0x8F, 0xE3, 0x82, 0x8A, 0xEF, 0xBC, 0xBD]  // "［＃ここで地付き終わり］"
  const RaiseWord: Bytes := [0xE5, 0xAD, 0x97, 0xE4, 0xB8, 0x8A, 0xE3, 0x81, 0x92]  // "字上げ"
  const RaiseEnd: Bytes := [0xEF, 0xBC, 0xBB, 0xEF, 0xBC, 0x83, 0xE3, 0x81, 0x93, 0xE3, 0x81, 0x93, 0xE3, 0x81, 0xA7, 0xE5, 0xAD, 0x97, 0xE4, 0xB8, 0x8A, 0xE3, 0x81, 0x92, 0xE7, 0xB5, 0x82, 0xE3, 0x82, 0x8F, 0xE3, 0x82, 0x8A, 0xEF, 0xBC, 0xBD]  // "［＃ここで字上げ終わり］"
  const RaiseNote: Bytes := [0xE5, 0xAD, 0x97, 0xE4, 0xB8, 0x8A, 0xE3, 0x81, 0x92, 0xEF, 0xBC, 0xBD]  // "字上げ］"
  const GroundNote: Bytes := [0xEF, 0xBC, 0xBB, 0xEF, 0xBC, 0x83, 0xE5, 0x9C, 0xB0, 0xE4, 0xBB, 0x98, 0xE3, 0x81, 0x8D, 0xEF, 0xBC, 0xBD]  // "［＃地付き］"
  const FromGroundNote: Bytes := [0xEF, 0xBC, 0xBB, 0xEF, 0xBC, 0x83, 0xE5, 0x9C, 0xB0, 0xE3, 0x81, 0x8B, 0xE3, 0x82, 0x89]  // "［＃地から"
  const Colophon: Bytes := [0xE5, 0xBA, 0x95, 0xE6, 0x9C, 0xAC, 0xEF, 0xBC, 0x9A]  // "底本："
  const CenterNote: Bytes := [0xEF, 0xBC, 0xBB, 0xEF, 0xBC, 0x83, 0xE3, 0x83, 0x9A, 0xE3, 0x83, 0xBC, 0xE3, 0x82, 0xB8, 0xE3, 0x81, 0xAE, 0xE5, 0xB7, 0xA6, 0xE5, 0x8F, 0xB3, 0xE4, 0xB8, 0xAD, 0xE5, 0xA4, 0xAE, 0xEF, 0xBC, 0xBD]  // "［＃ページの左右中央］"
  const MajorHeadingNote: Bytes := [0xE3, 0x81, 0xAF, 0xE5, 0xA4, 0xA7, 0xE8, 0xA6, 0x8B, 0xE5, 0x87, 0xBA, 0xE3, 0x81, 0x97, 0xEF, 0xBC, 0xBD]  // "は大見出し］"
  const MinorHeadingNote: Bytes := [0xE3, 0x81, 0xAF, 0xE4, 0xB8, 0xAD, 0xE8, 0xA6, 0x8B, 0xE5, 0x87, 0xBA, 0xE3, 0x81, 0x97, 0xEF, 0xBC, 0xBD]  // "は中見出し］"
  const GlyphNoteOpen: Bytes := [0xE2, 0x80, 0xBB, 0xEF, 0xBC, 0xBB]  // "※［"
  const OpenBracket: Bytes := [0xEF, 0xBC, 0xBB]  // "［"
  const CloseBracket: Bytes := [0xEF, 0xBC, 0xBD]  // "］"

  // Markup written to the output.
  const AlignRight: Bytes := [0x5C, 0x66, 0x5B, 0x61, 0x6C, 0x69, 0x67, 0x6E, 0x2C, 0x72, 0x69, 0x67, 0x68, 0x74, 0x5D]  // "\f[align,right]"
  const AlignLeft: Bytes := [0x5C, 0x66, 0x5B, 0x61, 0x6C, 0x69, 0x67, 0x6E, 0x2C, 0x6C, 0x65, 0x66, 0x74, 0x5D]  // "\f[align,left]"
  const IdeographicSpace: Bytes := [0xE3, 0x80, 0x80]  // "　"
  const SheetSentinel: Bytes := [0xE2, 0x96, 0xA0, 0xE2, 0x96, 0xA1]  // "■□"
  const PageSentinel: Bytes := [0xE2, 0x96, 0xA1, 0xE2, 0x96, 0xA0]  // "□■"
  const HeadSentinel: Bytes := [0xE2, 0x97, 0x86, 0xE2, 0x97, 0x87]  // "◆◇"
  const SubheadSentinel: Bytes := [0xE2, 0x97, 0x87, 0xE2, 0x97, 0x86]  // "◇◆"
  const Placeholder: Bytes := [0xE2, 0x96, 0xA1]  // "□"

  /** A note that mentions a full-width bracket `［` or `］`. */
  predicate Bracketed(m: Bytes) {
    Contains(m, OpenBracket) || Contains(m, CloseBracket)
  }

  /** Every note except the rule line and the colophon is bracketed. */
  lemma OpeningNotesAreBracketed()
    ensures Bracketed(SheetBreakNote) && Bracketed(PageBreakNote) && Bracketed(ColumnBreakNote)
    ensures Bracketed(BlockOpen) && Bracketed(IndentEnd) && Bracketed(RaiseEnd)
    ensures Bracketed(AlignOpenNote) && Bracketed(AlignCloseNote)
    ensures Bracketed(GroundNote) && Bracketed(FromGroundNote) && Bracketed(CenterNote)
  {
    PrefixContains(SheetBreakNote, OpenBracket);
    PrefixContains(PageBreakNote, OpenBracket);
    PrefixContains(ColumnBreakNote, OpenBracket);
    PrefixContains(BlockOpen, OpenBracket);
    PrefixContains(IndentEnd, OpenBracket);
    PrefixContains(RaiseEnd, OpenBracket);
    PrefixContains(AlignOpenNote, OpenBracket);
    PrefixContains(AlignCloseNote, OpenBracket);
    PrefixContains(GroundNote, OpenBracket);
    PrefixContains(FromGroundNote, OpenBracket);
    PrefixContains(CenterNote, OpenBracket);
  }

  lemma IndentNotesAreBracketed()
    ensures Bracketed(IndentNote) && Bracketed(RaiseNote)
  {
    assert OccursAt(IndentNote, CloseBracket, 9);
    OccursContains(IndentNote, CloseBracket, 9);
    assert OccursAt(RaiseNote, CloseBracket, 9);
    OccursContains(RaiseNote, CloseBracket, 9);
  }

  lemma HeadingNotesAreBracketed()
    ensures Bracketed(MajorHeadingNote) && Bracketed(MinorHeadingNote)
  {
    assert OccursAt(MajorHeadingNote, CloseBracket, 15);
    OccursContains(MajorHeadingNote, CloseBracket, 15);
    assert OccursAt(MinorHeadingNote, CloseBracket, 15);
    OccursContains(MinorHeadingNote, CloseBracket, 15);
  }

  lemma GlyphNoteIsBracketed()
    ensures Bracketed(GlyphNoteOpen)
  {
    assert OccursAt(GlyphNoteOpen, OpenBracket, 3);
    OccursContains(GlyphNoteOpen, OpenBracket, 3);
  }

  /**
   * Markup the formatter puts in front of a line that no note of the input can start
   * inside of: it holds none of the lead bytes E3, E5 and EF that the notes begin with,
   * and no `※［`. The notes found in the marked line are then those of the line itself.
   */
  predicate Inert(p: Bytes) {
    0xE3 !in p && 0xE5 !in p && 0xEF !in p && StartsNowhereIn(p, GlyphNoteOpen)
  }

  /** A six-byte pair of three-byte characters whose second bytes are not `※`'s. */
  lemma PairStartsNoGlyphNote(p: Bytes)
    requires |p| == 6 && p[0] == 0xE2 && p[3] == 0xE2
    requires p[1] != 0x80 && p[4] != 0x80
    requires p[1] != 0xE2 && p[2] != 0xE2 && p[4] != 0xE2 && p[5] != 0xE2
    ensures StartsNowhereIn(p, GlyphNoteOpen)
  {
    forall k | 0 <= k < |p|
      ensures !Overlaps(p[k..], GlyphNoteOpen)
    {
      if k == 0 || k == 3 {
        assert p[k..][1] != GlyphNoteOpen[1];
      } else {
        assert p[k..][0] != GlyphNoteOpen[0];
      }
    }
  }

  /** The sentinel pairs, and nothing at all, are inert. */
  lemma SentinelsInert()
    ensures Inert([]) && Inert(SheetSentinel) && Inert(PageSentinel)
    ensures Inert(HeadSentinel) && Inert(SubheadSentinel)
  {
    PairStartsNoGlyphNote(SheetSentinel);
    PairStartsNoGlyphNote(PageSentinel);
    PairStartsNoGlyphNote(HeadSentinel);
    PairStartsNoGlyphNote(SubheadSentinel);
  }

  /**
   * Behind inert markup a note that begins with E3, E5 or EF is found exactly when it is
   * in the rest, and the marked line begins with no such note.
   */
  lemma InertBehind(p: Bytes, s: Bytes, n: Bytes)
    requires Inert(p) && |n| > 0 && (n[0] == 0xE3 || n[0] == 0xE5 || n[0] == 0xEF)
    ensures Contains(p + s, n) <==> Contains(s, n)
    ensures |p| > 0 ==> !HasPrefix(p + s, n)
  {
    AbsentGuard(p, n);
    ContainsBehind(p, s, n);
    if |p| > 0 {
      assert p[0] in p;
      PrefixBehind(p, s, n);
    }
  }
}
