/**
 * Every byte display of `Markers` is the UTF-8 encoding of the text beside it. Long texts
 * are checked in short pieces and glued with `Utf8Append`, which keeps each step small.
 */
module MarkerEncoding {
  import opened Bytes
  import opened Markers

  lemma Glue(a: string, b: string, x: Bytes, y: Bytes)
    requires Utf8(a) == x && Utf8(b) == y
    ensures Utf8(a + b) == x + y
  {
    Utf8Append(a, b);
  }

  lemma RuleLinePiece0()
    ensures Utf8("---") == [0x2D, 0x2D, 0x2D]
  {
  }

  lemma RuleLinePiece1()
    ensures Utf8("---") == [0x2D, 0x2D, 0x2D]
  {
  }

  lemma RuleLinePiece2()
    ensures Utf8("---") == [0x2D, 0x2D, 0x2D]
  {
  }

  lemma RuleLinePiece3()
    ensures Utf8("-") == [0x2D]
  {
  }

  lemma RuleLineText0()
    ensures "---" + "---" == "------"
  {
  }

  lemma RuleLineJoin0()
    ensures [0x2D, 0x2D, 0x2D] + [0x2D, 0x2D, 0x2D] == [0x2D, 0x2D, 0x2D, 0x2D, 0x2D, 0x2D]
  {
  }

  lemma RuleLinePrefix0()
    ensures Utf8("------") == [0x2D, 0x2D, 0x2D, 0x2D, 0x2D, 0x2D]
  {
    RuleLinePiece0();
    RuleLinePiece1();
    RuleLineText0();
    RuleLineJoin0();
    Glue("---", "---", [0x2D, 0x2D, 0x2D], [0x2D, 0x2D, 0x2D]);
  }

  lemma RuleLineText1()
    ensures "------" + "---" == "---------"
  {
  }

  lemma RuleLineJoin1()
    ensures [0x2D, 0x2D, 0x2D, 0x2D, 0x2D, 0x2D] + [0x2D, 0x2D, 0x2D] == [0x2D, 0x2D, 0x2D, 0x2D, 0x2D, 0x2D, 0x2D, 0x2D, 0x2D]
  {
  }

  lemma RuleLinePrefix1()
    ensures Utf8("---------") == [0x2D, 0x2D, 0x2D, 0x2D, 0x2D, 0x2D, 0x2D, 0x2D, 0x2D]
  {
    RuleLinePrefix0();
    RuleLinePiece2();
    RuleLineText1();
    RuleLineJoin1();
    Glue("------", "---", [0x2D, 0x2D, 0x2D, 0x2D, 0x2D, 0x2D], [0x2D, 0x2D, 0x2D]);
  }

  lemma RuleLineText2()
    ensures "---------" + "-" == "----------"
  {
  }

  lemma RuleLineJoin2()
    ensures [0x2D, 0x2D, 0x2D, 0x2D, 0x2D, 0x2D, 0x2D, 0x2D, 0x2D] + [0x2D] == [0x2D, 0x2D, 0x2D, 0x2D, 0x2D, 0x2D, 0x2D, 0x2D, 0x2D, 0x2D]
  {
  }

  lemma RuleLineIsUtf8()
    ensures RuleLine == Utf8("----------")
  {
    RuleLinePrefix1();
    RuleLinePiece3();
    RuleLineText2();
    RuleLineJoin2();
    Glue("---------", "-", [0x2D, 0x2D, 0x2D, 0x2D, 0x2D, 0x2D, 0x2D, 0x2D, 0x2D], [0x2D]);
  }

  lemma SheetBreakNotePiece0()
    ensures Utf8("［＃改") == [0xEF, 0xBC, 0xBB, 0xEF, 0xBC, 0x83, 0xE6, 0x94, 0xB9]
  {
  }

  lemma SheetBreakNotePiece1()
    ensures Utf8("丁］") == [0xE4, 0xB8, 0x81, 0xEF, 0xBC, 0xBD]
  {
  }

  lemma SheetBreakNoteText0()
    ensures "［＃改" + "丁］" == "［＃改丁］"
  {
  }

  lemma SheetBreakNoteJoin0()
    ensures [0xEF, 0xBC, 0xBB, 0xEF, 0xBC, 0x83, 0xE6, 0x94, 0xB9] + [0xE4, 0xB8, 0x81, 0xEF, 0xBC, 0xBD] == [0xEF, 0xBC, 0xBB, 0xEF, 0xBC, 0x83, 0xE6, 0x94, 0xB9, 0xE4, 0xB8, 0x81, 0xEF, 0xBC, 0xBD]
  {
  }

  lemma SheetBreakNoteIsUtf8()
    ensures SheetBreakNote == Utf8("［＃改丁］")
  {
    SheetBreakNotePiece0();
    SheetBreakNotePiece1();
    SheetBreakNoteText0();
    SheetBreakNoteJoin0();
    Glue("［＃改", "丁］", [0xEF, 0xBC, 0xBB, 0xEF, 0xBC, 0x83, 0xE6, 0x94, 0xB9], [0xE4, 0xB8, 0x81, 0xEF, 0xBC, 0xBD]);
  }

  lemma PageBreakNotePiece0()
    ensures Utf8("［＃改") == [0xEF, 0xBC, 0xBB, 0xEF, 0xBC, 0x83, 0xE6, 0x94, 0xB9]
  {
  }

  lemma PageBreakNotePiece1()
    ensures Utf8("ページ") == [0xE3, 0x83, 0x9A, 0xE3, 0x83, 0xBC, 0xE3, 0x82, 0xB8]
  {
  }

  lemma PageBreakNotePiece2()
    ensures Utf8("］") == [0xEF, 0xBC, 0xBD]
  {
  }

  lemma PageBreakNoteText0()
    ensures "［＃改" + "ページ" == "［＃改ページ"
  {
  }

  lemma PageBreakNoteJoin0()
    ensures [0xEF, 0xBC, 0xBB, 0xEF, 0xBC, 0x83, 0xE6, 0x94, 0xB9] + [0xE3, 0x83, 0x9A, 0xE3, 0x83, 0xBC, 0xE3, 0x82, 0xB8] == [0xEF, 0xBC, 0xBB, 0xEF, 0xBC, 0x83, 0xE6, 0x94, 0xB9, 0xE3, 0x83, 0x9A, 0xE3, 0x83, 0xBC, 0xE3, 0x82, 0xB8]
  {
  }

  lemma PageBreakNotePrefix0()
    ensures Utf8("［＃改ページ") == [0xEF, 0xBC, 0xBB, 0xEF, 0xBC, 0x83, 0xE6, 0x94, 0xB9, 0xE3, 0x83, 0x9A, 0xE3, 0x83, 0xBC, 0xE3, 0x82, 0xB8]
  {
    PageBreakNotePiece0();
    PageBreakNotePiece1();
    PageBreakNoteText0();
    PageBreakNoteJoin0();
    Glue("［＃改", "ページ", [0xEF, 0xBC, 0xBB, 0xEF, 0xBC, 0x83, 0xE6, 0x94, 0xB9], [0xE3, 0x83, 0x9A, 0xE3, 0x83, 0xBC, 0xE3, 0x82, 0xB8]);
  }

  lemma PageBreakNoteText1()
    ensures "［＃改ページ" + "］" == "［＃改ページ］"
  {
  }

  lemma PageBreakNoteJoin1()
    ensures [0xEF, 0xBC, 0xBB, 0xEF, 0xBC, 0x83, 0xE6, 0x94, 0xB9, 0xE3, 0x83, 0x9A, 0xE3, 0x83, 0xBC, 0xE3, 0x82, 0xB8] + [0xEF, 0xBC, 0xBD] == [0xEF, 0xBC, 0xBB, 0xEF, 0xBC, 0x83, 0xE6, 0x94, 0xB9, 0xE3, 0x83, 0x9A, 0xE3, 0x83, 0xBC, 0xE3, 0x82, 0xB8, 0xEF, 0xBC, 0xBD]
  {
  }

  lemma PageBreakNoteIsUtf8()
    ensures PageBreakNote == Utf8("［＃改ページ］")
  {
    PageBreakNotePrefix0();
    PageBreakNotePiece2();
    PageBreakNoteText1();
    PageBreakNoteJoin1();
    Glue("［＃改ページ", "］", [0xEF, 0xBC, 0xBB, 0xEF, 0xBC, 0x83, 0xE6, 0x94, 0xB9, 0xE3, 0x83, 0x9A, 0xE3, 0x83, 0xBC, 0xE3, 0x82, 0xB8], [0xEF, 0xBC, 0xBD]);
  }

  lemma ColumnBreakNotePiece0()
    ensures Utf8("［＃改") == [0xEF, 0xBC, 0xBB, 0xEF, 0xBC, 0x83, 0xE6, 0x94, 0xB9]
  {
  }

  lemma ColumnBreakNotePiece1()
    ensures Utf8("段］") == [0xE6, 0xAE, 0xB5, 0xEF, 0xBC, 0xBD]
  {
  }

  lemma ColumnBreakNoteText0()
    ensures "［＃改" + "段］" == "［＃改段］"
  {
  }

  lemma ColumnBreakNoteJoin0()
    ensures [0xEF, 0xBC, 0xBB, 0xEF, 0xBC, 0x83, 0xE6, 0x94, 0xB9] + [0xE6, 0xAE, 0xB5, 0xEF, 0xBC, 0xBD] == [0xEF, 0xBC, 0xBB, 0xEF, 0xBC, 0x83, 0xE6, 0x94, 0xB9, 0xE6, 0xAE, 0xB5, 0xEF, 0xBC, 0xBD]
  {
  }

  lemma ColumnBreakNoteIsUtf8()
    ensures ColumnBreakNote == Utf8("［＃改段］")
  {
    ColumnBreakNotePiece0();
    ColumnBreakNotePiece1();
    ColumnBreakNoteText0();
    ColumnBreakNoteJoin0();
    Glue("［＃改", "段］", [0xEF, 0xBC, 0xBB, 0xEF, 0xBC, 0x83, 0xE6, 0x94, 0xB9], [0xE6, 0xAE, 0xB5, 0xEF, 0xBC, 0xBD]);
  }

  lemma BlockOpenPiece0()
    ensures Utf8("［＃こ") == [0xEF, 0xBC, 0xBB, 0xEF, 0xBC, 0x83, 0xE3, 0x81, 0x93]
  {
  }

  lemma BlockOpenPiece1()
    ensures Utf8("こから") == [0xE3, 0x81, 0x93, 0xE3, 0x81, 0x8B, 0xE3, 0x82, 0x89]
  {
  }

  lemma BlockOpenText0()
    ensures "［＃こ" + "こから" == "［＃ここから"
  {
  }

  lemma BlockOpenJoin0()
    ensures [0xEF, 0xBC, 0xBB, 0xEF, 0xBC, 0x83, 0xE3, 0x81, 0x93] + [0xE3, 0x81, 0x93, 0xE3, 0x81, 0x8B, 0xE3, 0x82, 0x89] == [0xEF, 0xBC, 0xBB, 0xEF, 0xBC, 0x83, 0xE3, 0x81, 0x93, 0xE3, 0x81, 0x93, 0xE3, 0x81, 0x8B, 0xE3, 0x82, 0x89]
  {
  }

  lemma BlockOpenIsUtf8()
    ensures BlockOpen == Utf8("［＃ここから")
  {
    BlockOpenPiece0();
    BlockOpenPiece1();
    BlockOpenText0();
    BlockOpenJoin0();
    Glue("［＃こ", "こから", [0xEF, 0xBC, 0xBB, 0xEF, 0xBC, 0x83, 0xE3, 0x81, 0x93], [0xE3, 0x81, 0x93, 0xE3, 0x81, 0x8B, 0xE3, 0x82, 0x89]);
  }

  lemma IndentWordIsUtf8()
    ensures IndentWord == Utf8("字下げ")
  {
  }

  lemma IndentEndPiece0()
    ensures Utf8("［＃こ") == [0xEF, 0xBC, 0xBB, 0xEF, 0xBC, 0x83, 0xE3, 0x81, 0x93]
  {
  }

  lemma IndentEndPiece1()
    ensures Utf8("こで字") == [0xE3, 0x81, 0x93, 0xE3, 0x81, 0xA7, 0xE5, 0xAD, 0x97]
  {
  }

  lemma IndentEndPiece2()
    ensures Utf8("下げ終") == [0xE4, 0xB8, 0x8B, 0xE3, 0x81, 0x92, 0xE7, 0xB5, 0x82]
  {
  }

  lemma IndentEndPiece3()
    ensures Utf8("わり］") == [0xE3, 0x82, 0x8F, 0xE3, 0x82, 0x8A, 0xEF, 0xBC, 0xBD]
  {
  }

  lemma IndentEndText0()
    ensures "［＃こ" + "こで字" == "［＃ここで字"
  {
  }

  lemma IndentEndJoin0()
    ensures [0xEF, 0xBC, 0xBB, 0xEF, 0xBC, 0x83, 0xE3, 0x81, 0x93] + [0xE3, 0x81, 0x93, 0xE3, 0x81, 0xA7, 0xE5, 0xAD, 0x97] == [0xEF, 0xBC, 0xBB, 0xEF, 0xBC, 0x83, 0xE3, 0x81, 0x93, 0xE3, 0x81, 0x93, 0xE3, 0x81, 0xA7, 0xE5, 0xAD, 0x97]
  {
  }

  lemma IndentEndPrefix0()
    ensures Utf8("［＃ここで字") == [0xEF, 0xBC, 0xBB, 0xEF, 0xBC, 0x83, 0xE3, 0x81, 0x93, 0xE3, 0x81, 0x93, 0xE3, 0x81, 0xA7, 0xE5, 0xAD, 0x97]
  {
    IndentEndPiece0();
    IndentEndPiece1();
    IndentEndText0();
    IndentEndJoin0();
    Glue("［＃こ", "こで字", [0xEF, 0xBC, 0xBB, 0xEF, 0xBC, 0x83, 0xE3, 0x81, 0x93], [0xE3, 0x81, 0x93, 0xE3, 0x81, 0xA7, 0xE5, 0xAD, 0x97]);
  }

  lemma IndentEndText1()
    ensures "［＃ここで字" + "下げ終" == "［＃ここで字下げ終"
  {
  }

  lemma IndentEndJoin1()
    ensures [0xEF, 0xBC, 0xBB, 0xEF, 0xBC, 0x83, 0xE3, 0x81, 0x93, 0xE3, 0x81, 0x93, 0xE3, 0x81, 0xA7, 0xE5, 0xAD, 0x97] + [0xE4, 0xB8, 0x8B, 0xE3, 0x81, 0x92, 0xE7, 0xB5, 0x82] == [0xEF, 0xBC, 0xBB, 0xEF, 0xBC, 0x83, 0xE3, 0x81, 0x93, 0xE3, 0x81, 0x93, 0xE3, 0x81, 0xA7, 0xE5, 0xAD, 0x97, 0xE4, 0xB8, 0x8B, 0xE3, 0x81, 0x92, 0xE7, 0xB5, 0x82]
  {
  }

  lemma IndentEndPrefix1()
    ensures Utf8("［＃ここで字下げ終") == [0xEF, 0xBC, 0xBB, 0xEF, 0xBC, 0x83, 0xE3, 0x81, 0x93, 0xE3, 0x81, 0x93, 0xE3, 0x81, 0xA7, 0xE5, 0xAD, 0x97, 0xE4, 0xB8, 0x8B, 0xE3, 0x81, 0x92, 0xE7, 0xB5, 0x82]
  {
    IndentEndPrefix0();
    IndentEndPiece2();
    IndentEndText1();
    IndentEndJoin1();
    Glue("［＃ここで字", "下げ終", [0xEF, 0xBC, 0xBB, 0xEF, 0xBC, 0x83, 0xE3, 0x81, 0x93, 0xE3, 0x81, 0x93, 0xE3, 0x81, 0xA7, 0xE5, 0xAD, 0x97], [0xE4, 0xB8, 0x8B, 0xE3, 0x81, 0x92, 0xE7, 0xB5, 0x82]);
  }

  lemma IndentEndText2()
    ensures "［＃ここで字下げ終" + "わり］" == "［＃ここで字下げ終わり］"
  {
  }

  lemma IndentEndJoin2()
    ensures [0xEF, 0xBC, 0xBB, 0xEF, 0xBC, 0x83, 0xE3, 0x81, 0x93, 0xE3, 0x81, 0x93, 0xE3, 0x81, 0xA7, 0xE5, 0xAD, 0x97, 0xE4, 0xB8, 0x8B, 0xE3, 0x81, 0x92, 0xE7, 0xB5, 0x82] + [0xE3, 0x82, 0x8F, 0xE3, 0x82, 0x8A, 0xEF, 0xBC, 0xBD] == [0xEF, 0xBC, 0xBB, 0xEF, 0xBC, 0x83, 0xE3, 0x81, 0x93, 0xE3, 0x81, 0x93, 0xE3, 0x81, 0xA7, 0xE5, 0xAD, 0x97, 0xE4, 0xB8, 0x8B, 0xE3, 0x81, 0x92, 0xE7, 0xB5, 0x82, 0xE3, 0x82, 0x8F, 0xE3, 0x82, 0x8A, 0xEF, 0xBC, 0xBD]
  {
  }

  lemma IndentEndIsUtf8()
    ensures IndentEnd == Utf8("［＃ここで字下げ終わり］")
  {
    IndentEndPrefix1();
    IndentEndPiece3();
    IndentEndText2();
    IndentEndJoin2();
    Glue("［＃ここで字下げ終", "わり］", [0xEF, 0xBC, 0xBB, 0xEF, 0xBC, 0x83, 0xE3, 0x81, 0x93, 0xE3, 0x81, 0x93, 0xE3, 0x81, 0xA7, 0xE5, 0xAD, 0x97, 0xE4, 0xB8, 0x8B, 0xE3, 0x81, 0x92, 0xE7, 0xB5, 0x82], [0xE3, 0x82, 0x8F, 0xE3, 0x82, 0x8A, 0xEF, 0xBC, 0xBD]);
  }

  lemma IndentNotePiece0()
    ensures Utf8("字下") == [0xE5, 0xAD, 0x97, 0xE4, 0xB8, 0x8B]
  {
  }

  lemma IndentNotePiece1()
    ensures Utf8("げ］") == [0xE3, 0x81, 0x92, 0xEF, 0xBC, 0xBD]
  {
  }

  lemma IndentNoteText0()
    ensures "字下" + "げ］" == "字下げ］"
  {
  }

  lemma IndentNoteJoin0()
    ensures [0xE5, 0xAD, 0x97, 0xE4, 0xB8, 0x8B] + [0xE3, 0x81, 0x92, 0xEF, 0xBC, 0xBD] == [0xE5, 0xAD, 0x97, 0xE4, 0xB8, 0x8B, 0xE3, 0x81, 0x92, 0xEF, 0xBC, 0xBD]
  {
  }

  lemma IndentNoteIsUtf8()
    ensures IndentNote == Utf8("字下げ］")
  {
    IndentNotePiece0();
    IndentNotePiece1();
    IndentNoteText0();
    IndentNoteJoin0();
    Glue("字下", "げ］", [0xE5, 0xAD, 0x97, 0xE4, 0xB8, 0x8B], [0xE3, 0x81, 0x92, 0xEF, 0xBC, 0xBD]);
  }

  lemma AlignOpenNotePiece0()
    ensures Utf8("［＃こ") == [0xEF, 0xBC, 0xBB, 0xEF, 0xBC, 0x83, 0xE3, 0x81, 0x93]
  {
  }

  lemma AlignOpenNotePiece1()
    ensures Utf8("こから") == [0xE3, 0x81, 0x93, 0xE3, 0x81, 0x8B, 0xE3, 0x82, 0x89]
  {
  }

  lemma AlignOpenNotePiece2()
    ensures Utf8("地付き") == [0xE5, 0x9C, 0xB0, 0xE4, 0xBB, 0x98, 0xE3, 0x81, 0x8D]
  {
  }

  lemma AlignOpenNotePiece3()
    ensures Utf8("］") == [0xEF, 0xBC, 0xBD]
  {
  }

  lemma AlignOpenNoteText0()
    ensures "［＃こ" + "こから" == "［＃ここから"
  {
  }

  lemma AlignOpenNoteJoin0()
    ensures [0xEF, 0xBC, 0xBB, 0xEF, 0xBC, 0x83, 0xE3, 0x81, 0x93] + [0xE3, 0x81, 0x93, 0xE3, 0x81, 0x8B, 0xE3, 0x82, 0x89] == [0xEF, 0xBC, 0xBB, 0xEF, 0xBC, 0x83, 0xE3, 0x81, 0x93, 0xE3, 0x81, 0x93, 0xE3, 0x81, 0x8B, 0xE3, 0x82, 0x89]
  {
  }

  lemma AlignOpenNotePrefix0()
    ensures Utf8("［＃ここから") == [0xEF, 0xBC, 0xBB, 0xEF, 0xBC, 0x83, 0xE3, 0x81, 0x93, 0xE3, 0x81, 0x93, 0xE3, 0x81, 0x8B, 0xE3, 0x82, 0x89]
  {
    AlignOpenNotePiece0();
    AlignOpenNotePiece1();
    AlignOpenNoteText0();
    AlignOpenNoteJoin0();
    Glue("［＃こ", "こから", [0xEF, 0xBC, 0xBB, 0xEF, 0xBC, 0x83, 0xE3, 0x81, 0x93], [0xE3, 0x81, 0x93, 0xE3, 0x81, 0x8B, 0xE3, 0x82, 0x89]);
  }

  lemma AlignOpenNoteText1()
    ensures "［＃ここから" + "地付き" == "［＃ここから地付き"
  {
  }

  lemma AlignOpenNoteJoin1()
    ensures [0xEF, 0xBC, 0xBB, 0xEF, 0xBC, 0x83, 0xE3, 0x81, 0x93, 0xE3, 0x81, 0x93, 0xE3, 0x81, 0x8B, 0xE3, 0x82, 0x89] + [0xE5, 0x9C, 0xB0, 0xE4, 0xBB, 0x98, 0xE3, 0x81, 0x8D] == [0xEF, 0xBC, 0xBB, 0xEF, 0xBC, 0x83, 0xE3, 0x81, 0x93, 0xE3, 0x81, 0x93, 0xE3, 0x81, 0x8B, 0xE3, 0x82, 0x89, 0xE5, 0x9C, 0xB0, 0xE4, 0xBB, 0x98, 0xE3, 0x81, 0x8D]
  {
  }

  lemma AlignOpenNotePrefix1()
    ensures Utf8("［＃ここから地付き") == [0xEF, 0xBC, 0xBB, 0xEF, 0xBC, 0x83, 0xE3, 0x81, 0x93, 0xE3, 0x81, 0x93, 0xE3, 0x81, 0x8B, 0xE3, 0x82, 0x89, 0xE5, 0x9C, 0xB0, 0xE4, 0xBB, 0x98, 0xE3, 0x81, 0x8D]
  {
    AlignOpenNotePrefix0();
    AlignOpenNotePiece2();
    AlignOpenNoteText1();
    AlignOpenNoteJoin1();
    Glue("［＃ここから", "地付き", [0xEF, 0xBC, 0xBB, 0xEF, 0xBC, 0x83, 0xE3, 0x81, 0x93, 0xE3, 0x81, 0x93, 0xE3, 0x81, 0x8B, 0xE3, 0x82, 0x89], [0xE5, 0x9C, 0xB0, 0xE4, 0xBB, 0x98, 0xE3, 0x81, 0x8D]);
  }

  lemma AlignOpenNoteText2()
    ensures "［＃ここから地付き" + "］" == "［＃ここから地付き］"
  {
  }

  lemma AlignOpenNoteJoin2()
    ensures [0xEF, 0xBC, 0xBB, 0xEF, 0xBC, 0x83, 0xE3, 0x81, 0x93, 0xE3, 0x81, 0x93, 0xE3, 0x81, 0x8B, 0xE3, 0x82, 0x89, 0xE5, 0x9C, 0xB0, 0xE4, 0xBB, 0x98, 0xE3, 0x81, 0x8D] + [0xEF, 0xBC, 0xBD] == [0xEF, 0xBC, 0xBB, 0xEF, 0xBC, 0x83, 0xE3, 0x81, 0x93, 0xE3, 0x81, 0x93, 0xE3, 0x81, 0x8B, 0xE3, 0x82, 0x89, 0xE5, 0x9C, 0xB0, 0xE4, 0xBB, 0x98, 0xE3, 0x81, 0x8D, 0xEF, 0xBC, 0xBD]
  {
  }

  lemma AlignOpenNoteIsUtf8()
    ensures AlignOpenNote == Utf8("［＃ここから地付き］")
  {
    AlignOpenNotePrefix1();
    AlignOpenNotePiece3();
    AlignOpenNoteText2();
    AlignOpenNoteJoin2();
    Glue("［＃ここから地付き", "］", [0xEF, 0xBC, 0xBB, 0xEF, 0xBC, 0x83, 0xE3, 0x81, 0x93, 0xE3, 0x81, 0x93, 0xE3, 0x81, 0x8B, 0xE3, 0x82, 0x89, 0xE5, 0x9C, 0xB0, 0xE4, 0xBB, 0x98, 0xE3, 0x81, 0x8D], [0xEF, 0xBC, 0xBD]);
  }

  lemma AlignCloseNotePiece0()
    ensures Utf8("［＃こ") == [0xEF, 0xBC, 0xBB, 0xEF, 0xBC, 0x83, 0xE3, 0x81, 0x93]
  {
  }

  lemma AlignCloseNotePiece1()
    ensures Utf8("こで地") == [0xE3, 0x81, 0x93, 0xE3, 0x81, 0xA7, 0xE5, 0x9C, 0xB0]
  {
  }

  lemma AlignCloseNotePiece2()
    ensures Utf8("付き終") == [0xE4, 0xBB, 0x98, 0xE3, 0x81, 0x8D, 0xE7, 0xB5, 0x82]
  {
  }

  lemma AlignCloseNotePiece3()
    ensures Utf8("わり］") == [0xE3, 0x82, 0x8F, 0xE3, 0x82, 0x8A, 0xEF, 0xBC, 0xBD]
  {
  }

  lemma AlignCloseNoteText0()
    ensures "［＃こ" + "こで地" == "［＃ここで地"
  {
  }

  lemma AlignCloseNoteJoin0()
    ensures [0xEF, 0xBC, 0xBB, 0xEF, 0xBC, 0x83, 0xE3, 0x81, 0x93] + [0xE3, 0x81, 0x93, 0xE3, 0x81, 0xA7, 0xE5, 0x9C, 0xB0] == [0xEF, 0xBC, 0xBB, 0xEF, 0xBC, 0x83, 0xE3, 0x81, 0x93, 0xE3, 0x81, 0x93, 0xE3, 0x81, 0xA7, 0xE5, 0x9C, 0xB0]
  {
  }

  lemma AlignCloseNotePrefix0()
    ensures Utf8("［＃ここで地") == [0xEF, 0xBC, 0xBB, 0xEF, 0xBC, 0x83, 0xE3, 0x81, 0x93, 0xE3, 0x81, 0x93, 0xE3, 0x81, 0xA7, 0xE5, 0x9C, 0xB0]
  {
    AlignCloseNotePiece0();
    AlignCloseNotePiece1();
    AlignCloseNoteText0();
    AlignCloseNoteJoin0();
    Glue("［＃こ", "こで地", [0xEF, 0xBC, 0xBB, 0xEF, 0xBC, 0x83, 0xE3, 0x81, 0x93], [0xE3, 0x81, 0x93, 0xE3, 0x81, 0xA7, 0xE5, 0x9C, 0xB0]);
  }

  lemma AlignCloseNoteText1()
    ensures "［＃ここで地" + "付き終" == "［＃ここで地付き終"
  {
  }

  lemma AlignCloseNoteJoin1()
    ensures [0xEF, 0xBC, 0xBB, 0xEF, 0xBC, 0x83, 0xE3, 0x81, 0x93, 0xE3, 0x81, 0x93, 0xE3, 0x81, 0xA7, 0xE5, 0x9C, 0xB0] + [0xE4, 0xBB, 0x98, 0xE3, 0x81, 0x8D, 0xE7, 0xB5, 0x82] == [0xEF, 0xBC, 0xBB, 0xEF, 0xBC, 0x83, 0xE3, 0x81, 0x93, 0xE3, 0x81, 0x93, 0xE3, 0x81, 0xA7, 0xE5, 0x9C, 0xB0, 0xE4, 0xBB, 0x98, 0xE3, 0x81, 0x8D, 0xE7, 0xB5, 0x82]
  {
  }

  lemma AlignCloseNotePrefix1()
    ensures Utf8("［＃ここで地付き終") == [0xEF, 0xBC, 0xBB, 0xEF, 0xBC, 0x83, 0xE3, 0x81, 0x93, 0xE3, 0x81, 0x93, 0xE3, 0x81, 0xA7, 0xE5, 0x9C, 0xB0, 0xE4, 0xBB, 0x98, 0xE3, 0x81, 0x8D, 0xE7, 0xB5, 0x82]
  {
    AlignCloseNotePrefix0();
    AlignCloseNotePiece2();
    AlignCloseNoteText1();
    AlignCloseNoteJoin1();
    Glue("［＃ここで地", "付き終", [0xEF, 0xBC, 0xBB, 0xEF, 0xBC, 0x83, 0xE3, 0x81, 0x93, 0xE3, 0x81, 0x93, 0xE3, 0x81, 0xA7, 0xE5, 0x9C, 0xB0], [0xE4, 0xBB, 0x98, 0xE3, 0x81, 0x8D, 0xE7, 0xB5, 0x82]);
  }

  lemma AlignCloseNoteText2()
    ensures "［＃ここで地付き終" + "わり］" == "［＃ここで地付き終わり］"
  {
  }

  lemma AlignCloseNoteJoin2()
    ensures [0xEF, 0xBC, 0xBB, 0xEF, 0xBC, 0x83, 0xE3, 0x81, 0x93, 0xE3, 0x81, 0x93, 0xE3, 0x81, 0xA7, 0xE5, 0x9C, 0xB0, 0xE4, 0xBB, 0x98, 0xE3, 0x81, 0x8D, 0xE7, 0xB5, 0x82] + [0xE3, 0x82, 0x8F, 0xE3, 0x82, 0x8A, 0xEF, 0xBC, 0xBD] == [0xEF, 0xBC, 0xBB, 0xEF, 0xBC, 0x83, 0xE3, 0x81, 0x93, 0xE3, 0x81, 0x93, 0xE3, 0x81, 0xA7, 0xE5, 0x9C, 0xB0, 0xE4, 0xBB, 0x98, 0xE3, 0x81, 0x8D, 0xE7, 0xB5, 0x82, 0xE3, 0x82, 0x8F, 0xE3, 0x82, 0x8A, 0xEF, 0xBC, 0xBD]
  {
  }

  lemma AlignCloseNoteIsUtf8()
    ensures AlignCloseNote == Utf8("［＃ここで地付き終わり］")
  {
    AlignCloseNotePrefix1();
    AlignCloseNotePiece3();
    AlignCloseNoteText2();
    AlignCloseNoteJoin2();
    Glue("［＃ここで地付き終", "わり］", [0xEF, 0xBC, 0xBB, 0xEF, 0xBC, 0x83, 0xE3, 0x81, 0x93, 0xE3, 0x81, 0x93, 0xE3, 0x81, 0xA7, 0xE5, 0x9C, 0xB0, 0xE4, 0xBB, 0x98, 0xE3, 0x81, 0x8D, 0xE7, 0xB5, 0x82], [0xE3, 0x82, 0x8F, 0xE3, 0x82, 0x8A, 0xEF, 0xBC, 0xBD]);
  }

  lemma RaiseWordIsUtf8()
    ensures RaiseWord == Utf8("字上げ")
  {
  }

  lemma RaiseEndPiece0()
    ensures Utf8("［＃こ") == [0xEF, 0xBC, 0xBB, 0xEF, 0xBC, 0x83, 0xE3, 0x81, 0x93]
  {
  }

  lemma RaiseEndPiece1()
    ensures Utf8("こで字") == [0xE3, 0x81, 0x93, 0xE3, 0x81, 0xA7, 0xE5, 0xAD, 0x97]
  {
  }

  lemma RaiseEndPiece2()
    ensures Utf8("上げ終") == [0xE4, 0xB8, 0x8A, 0xE3, 0x81, 0x92, 0xE7, 0xB5, 0x82]
  {
  }

  lemma RaiseEndPiece3()
    ensures Utf8("わり］") == [0xE3, 0x82, 0x8F, 0xE3, 0x82, 0x8A, 0xEF, 0xBC, 0xBD]
  {
  }

  lemma RaiseEndText0()
    ensures "［＃こ" + "こで字" == "［＃ここで字"
  {
  }

  lemma RaiseEndJoin0()
    ensures [0xEF, 0xBC, 0xBB, 0xEF, 0xBC, 0x83, 0xE3, 0x81, 0x93] + [0xE3, 0x81, 0x93, 0xE3, 0x81, 0xA7, 0xE5, 0xAD, 0x97] == [0xEF, 0xBC, 0xBB, 0xEF, 0xBC, 0x83, 0xE3, 0x81, 0x93, 0xE3, 0x81, 0x93, 0xE3, 0x81, 0xA7, 0xE5, 0xAD, 0x97]
  {
  }

  lemma RaiseEndPrefix0()
    ensures Utf8("［＃ここで字") == [0xEF, 0xBC, 0xBB, 0xEF, 0xBC, 0x83, 0xE3, 0x81, 0x93, 0xE3, 0x81, 0x93, 0xE3, 0x81, 0xA7, 0xE5, 0xAD, 0x97]
  {
    RaiseEndPiece0();
    RaiseEndPiece1();
    RaiseEndText0();
    RaiseEndJoin0();
    Glue("［＃こ", "こで字", [0xEF, 0xBC, 0xBB, 0xEF, 0xBC, 0x83, 0xE3, 0x81, 0x93], [0xE3, 0x81, 0x93, 0xE3, 0x81, 0xA7, 0xE5, 0xAD, 0x97]);
  }

  lemma RaiseEndText1()
    ensures "［＃ここで字" + "上げ終" == "［＃ここで字上げ終"
  {
  }

  lemma RaiseEndJoin1()
    ensures [0xEF, 0xBC, 0xBB, 0xEF, 0xBC, 0x83, 0xE3, 0x81, 0x93, 0xE3, 0x81, 0x93, 0xE3, 0x81, 0xA7, 0xE5, 0xAD, 0x97] + [0xE4, 0xB8, 0x8A, 0xE3, 0x81, 0x92, 0xE7, 0xB5, 0x82] == [0xEF, 0xBC, 0xBB, 0xEF, 0xBC, 0x83, 0xE3, 0x81, 0x93, 0xE3, 0x81, 0x93, 0xE3, 0x81, 0xA7, 0xE5, 0xAD, 0x97, 0xE4, 0xB8, 0x8A, 0xE3, 0x81, 0x92, 0xE7, 0xB5, 0x82]
  {
  }

  lemma RaiseEndPrefix1()
    ensures Utf8("［＃ここで字上げ終") == [0xEF, 0xBC, 0xBB, 0xEF, 0xBC, 0x83, 0xE3, 0x81, 0x93, 0xE3, 0x81, 0x93, 0xE3, 0x81, 0xA7, 0xE5, 0xAD, 0x97, 0xE4, 0xB8, 0x8A, 0xE3, 0x81, 0x92, 0xE7, 0xB5, 0x82]
  {
    RaiseEndPrefix0();
    RaiseEndPiece2();
    RaiseEndText1();
    RaiseEndJoin1();
    Glue("［＃ここで字", "上げ終", [0xEF, 0xBC, 0xBB, 0xEF, 0xBC, 0x83, 0xE3, 0x81, 0x93, 0xE3, 0x81, 0x93, 0xE3, 0x81, 0xA7, 0xE5, 0xAD, 0x97], [0xE4, 0xB8, 0x8A, 0xE3, 0x81, 0x92, 0xE7, 0xB5, 0x82]);
  }

  lemma RaiseEndText2()
    ensures "［＃ここで字上げ終" + "わり］" == "［＃ここで字上げ終わり］"
  {
  }

  lemma RaiseEndJoin2()
    ensures [0xEF, 0xBC, 0xBB, 0xEF, 0xBC, 0x83, 0xE3, 0x81, 0x93, 0xE3, 0x81, 0x93, 0xE3, 0x81, 0xA7, 0xE5, 0xAD, 0x97, 0xE4, 0xB8, 0x8A, 0xE3, 0x81, 0x92, 0xE7, 0xB5, 0x82] + [0xE3, 0x82, 0x8F, 0xE3, 0x82, 0x8A, 0xEF, 0xBC, 0xBD] == [0xEF, 0xBC, 0xBB, 0xEF, 0xBC, 0x83, 0xE3, 0x81, 0x93, 0xE3, 0x81, 0x93, 0xE3, 0x81, 0xA7, 0xE5, 0xAD, 0x97, 0xE4, 0xB8, 0x8A, 0xE3, 0x81, 0x92, 0xE7, 0xB5, 0x82, 0xE3, 0x82, 0x8F, 0xE3, 0x82, 0x8A, 0xEF, 0xBC, 0xBD]
  {
  }

  lemma RaiseEndIsUtf8()
    ensures RaiseEnd == Utf8("［＃ここで字上げ終わり］")
  {
    RaiseEndPrefix1();
    RaiseEndPiece3();
    RaiseEndText2();
    RaiseEndJoin2();
    Glue("［＃ここで字上げ終", "わり］", [0xEF, 0xBC, 0xBB, 0xEF, 0xBC, 0x83, 0xE3, 0x81, 0x93, 0xE3, 0x81, 0x93, 0xE3, 0x81, 0xA7, 0xE5, 0xAD, 0x97, 0xE4, 0xB8, 0x8A, 0xE3, 0x81, 0x92, 0xE7, 0xB5, 0x82], [0xE3, 0x82, 0x8F, 0xE3, 0x82, 0x8A, 0xEF, 0xBC, 0xBD]);
  }

  lemma RaiseNotePiece0()
    ensures Utf8("字上") == [0xE5, 0xAD, 0x97, 0xE4, 0xB8, 0x8A]
  {
  }

  lemma RaiseNotePiece1()
    ensures Utf8("げ］") == [0xE3, 0x81, 0x92, 0xEF, 0xBC, 0xBD]
  {
  }

  lemma RaiseNoteText0()
    ensures "字上" + "げ］" == "字上げ］"
  {
  }

  lemma RaiseNoteJoin0()
    ensures [0xE5, 0xAD, 0x97, 0xE4, 0xB8, 0x8A] + [0xE3, 0x81, 0x92, 0xEF, 0xBC, 0xBD] == [0xE5, 0xAD, 0x97, 0xE4, 0xB8, 0x8A, 0xE3, 0x81, 0x92, 0xEF, 0xBC, 0xBD]
  {
  }

  lemma RaiseNoteIsUtf8()
    ensures RaiseNote == Utf8("字上げ］")
  {
    RaiseNotePiece0();
    RaiseNotePiece1();
    RaiseNoteText0();
    RaiseNoteJoin0();
    Glue("字上", "げ］", [0xE5, 0xAD, 0x97, 0xE4, 0xB8, 0x8A], [0xE3, 0x81, 0x92, 0xEF, 0xBC, 0xBD]);
  }

  lemma GroundNotePiece0()
    ensures Utf8("［＃地") == [0xEF, 0xBC, 0xBB, 0xEF, 0xBC, 0x83, 0xE5, 0x9C, 0xB0]
  {
  }

  lemma GroundNotePiece1()
    ensures Utf8("付き］") == [0xE4, 0xBB, 0x98, 0xE3, 0x81, 0x8D, 0xEF, 0xBC, 0xBD]
  {
  }

  lemma GroundNoteText0()
    ensures "［＃地" + "付き］" == "［＃地付き］"
  {
  }

  lemma GroundNoteJoin0()
    ensures [0xEF, 0xBC, 0xBB, 0xEF, 0xBC, 0x83, 0xE5, 0x9C, 0xB0] + [0xE4, 0xBB, 0x98, 0xE3, 0x81, 0x8D, 0xEF, 0xBC, 0xBD] == [0xEF, 0xBC, 0xBB, 0xEF, 0xBC, 0x83, 0xE5, 0x9C, 0xB0, 0xE4, 0xBB, 0x98, 0xE3, 0x81, 0x8D, 0xEF, 0xBC, 0xBD]
  {
  }

  lemma GroundNoteIsUtf8()
    ensures GroundNote == Utf8("［＃地付き］")
  {
    GroundNotePiece0();
    GroundNotePiece1();
    GroundNoteText0();
    GroundNoteJoin0();
    Glue("［＃地", "付き］", [0xEF, 0xBC, 0xBB, 0xEF, 0xBC, 0x83, 0xE5, 0x9C, 0xB0], [0xE4, 0xBB, 0x98, 0xE3, 0x81, 0x8D, 0xEF, 0xBC, 0xBD]);
  }

  lemma FromGroundNotePiece0()
    ensures Utf8("［＃地") == [0xEF, 0xBC, 0xBB, 0xEF, 0xBC, 0x83, 0xE5, 0x9C, 0xB0]
  {
  }

  lemma FromGroundNotePiece1()
    ensures Utf8("から") == [0xE3, 0x81, 0x8B, 0xE3, 0x82, 0x89]
  {
  }

  lemma FromGroundNoteText0()
    ensures "［＃地" + "から" == "［＃地から"
  {
  }

  lemma FromGroundNoteJoin0()
    ensures [0xEF, 0xBC, 0xBB, 0xEF, 0xBC, 0x83, 0xE5, 0x9C, 0xB0] + [0xE3, 0x81, 0x8B, 0xE3, 0x82, 0x89] == [0xEF, 0xBC, 0xBB, 0xEF, 0xBC, 0x83, 0xE5, 0x9C, 0xB0, 0xE3, 0x81, 0x8B, 0xE3, 0x82, 0x89]
  {
  }

  lemma FromGroundNoteIsUtf8()
    ensures FromGroundNote == Utf8("［＃地から")
  {
    FromGroundNotePiece0();
    FromGroundNotePiece1();
    FromGroundNoteText0();
    FromGroundNoteJoin0();
    Glue("［＃地", "から", [0xEF, 0xBC, 0xBB, 0xEF, 0xBC, 0x83, 0xE5, 0x9C, 0xB0], [0xE3, 0x81, 0x8B, 0xE3, 0x82, 0x89]);
  }

  lemma ColophonIsUtf8()
    ensures Colophon == Utf8("底本：")
  {
  }

  lemma CenterNotePiece0()
    ensures Utf8("［＃ペ") == [0xEF, 0xBC, 0xBB, 0xEF, 0xBC, 0x83, 0xE3, 0x83, 0x9A]
  {
  }

  lemma CenterNotePiece1()
    ensures Utf8("ージの") == [0xE3, 0x83, 0xBC, 0xE3, 0x82, 0xB8, 0xE3, 0x81, 0xAE]
  {
  }

  lemma CenterNotePiece2()
    ensures Utf8("左右中") == [0xE5, 0xB7, 0xA6, 0xE5, 0x8F, 0xB3, 0xE4, 0xB8, 0xAD]
  {
  }

  lemma CenterNotePiece3()
    ensures Utf8("央］") == [0xE5, 0xA4, 0xAE, 0xEF, 0xBC, 0xBD]
  {
  }

  lemma CenterNoteText0()
    ensures "［＃ペ" + "ージの" == "［＃ページの"
  {
  }

  lemma CenterNoteJoin0()
    ensures [0xEF, 0xBC, 0xBB, 0xEF, 0xBC, 0x83, 0xE3, 0x83, 0x9A] + [0xE3, 0x83, 0xBC, 0xE3, 0x82, 0xB8, 0xE3, 0x81, 0xAE] == [0xEF, 0xBC, 0xBB, 0xEF, 0xBC, 0x83, 0xE3, 0x83, 0x9A, 0xE3, 0x83, 0xBC, 0xE3, 0x82, 0xB8, 0xE3, 0x81, 0xAE]
  {
  }

  lemma CenterNotePrefix0()
    ensures Utf8("［＃ページの") == [0xEF, 0xBC, 0xBB, 0xEF, 0xBC, 0x83, 0xE3, 0x83, 0x9A, 0xE3, 0x83, 0xBC, 0xE3, 0x82, 0xB8, 0xE3, 0x81, 0xAE]
  {
    CenterNotePiece0();
    CenterNotePiece1();
    CenterNoteText0();
    CenterNoteJoin0();
    Glue("［＃ペ", "ージの", [0xEF, 0xBC, 0xBB, 0xEF, 0xBC, 0x83, 0xE3, 0x83, 0x9A], [0xE3, 0x83, 0xBC, 0xE3, 0x82, 0xB8, 0xE3, 0x81, 0xAE]);
  }

  lemma CenterNoteText1()
    ensures "［＃ページの" + "左右中" == "［＃ページの左右中"
  {
  }

  lemma CenterNoteJoin1()
    ensures [0xEF, 0xBC, 0xBB, 0xEF, 0xBC, 0x83, 0xE3, 0x83, 0x9A, 0xE3, 0x83, 0xBC, 0xE3, 0x82, 0xB8, 0xE3, 0x81, 0xAE] + [0xE5, 0xB7, 0xA6, 0xE5, 0x8F, 0xB3, 0xE4, 0xB8, 0xAD] == [0xEF, 0xBC, 0xBB, 0xEF, 0xBC, 0x83, 0xE3, 0x83, 0x9A, 0xE3, 0x83, 0xBC, 0xE3, 0x82, 0xB8, 0xE3, 0x81, 0xAE, 0xE5, 0xB7, 0xA6, 0xE5, 0x8F, 0xB3, 0xE4, 0xB8, 0xAD]
  {
  }

  lemma CenterNotePrefix1()
    ensures Utf8("［＃ページの左右中") == [0xEF, 0xBC, 0xBB, 0xEF, 0xBC, 0x83, 0xE3, 0x83, 0x9A, 0xE3, 0x83, 0xBC, 0xE3, 0x82, 0xB8, 0xE3, 0x81, 0xAE, 0xE5, 0xB7, 0xA6, 0xE5, 0x8F, 0xB3, 0xE4, 0xB8, 0xAD]
  {
    CenterNotePrefix0();
    CenterNotePiece2();
    CenterNoteText1();
    CenterNoteJoin1();
    Glue("［＃ページの", "左右中", [0xEF, 0xBC, 0xBB, 0xEF, 0xBC, 0x83, 0xE3, 0x83, 0x9A, 0xE3, 0x83, 0xBC, 0xE3, 0x82, 0xB8, 0xE3, 0x81, 0xAE], [0xE5, 0xB7, 0xA6, 0xE5, 0x8F, 0xB3, 0xE4, 0xB8, 0xAD]);
  }

  lemma CenterNoteText2()
    ensures "［＃ページの左右中" + "央］" == "［＃ページの左右中央］"
  {
  }

  lemma CenterNoteJoin2()
    ensures [0xEF, 0xBC, 0xBB, 0xEF, 0xBC, 0x83, 0xE3, 0x83, 0x9A, 0xE3, 0x83, 0xBC, 0xE3, 0x82, 0xB8, 0xE3, 0x81, 0xAE, 0xE5, 0xB7, 0xA6, 0xE5, 0x8F, 0xB3, 0xE4, 0xB8, 0xAD] + [0xE5, 0xA4, 0xAE, 0xEF, 0xBC, 0xBD] == [0xEF, 0xBC, 0xBB, 0xEF, 0xBC, 0x83, 0xE3, 0x83, 0x9A, 0xE3, 0x83, 0xBC, 0xE3, 0x82, 0xB8, 0xE3, 0x81, 0xAE, 0xE5, 0xB7, 0xA6, 0xE5, 0x8F, 0xB3, 0xE4, 0xB8, 0xAD, 0xE5, 0xA4, 0xAE, 0xEF, 0xBC, 0xBD]
  {
  }

  lemma CenterNoteIsUtf8()
    ensures CenterNote == Utf8("［＃ページの左右中央］")
  {
    CenterNotePrefix1();
    CenterNotePiece3();
    CenterNoteText2();
    CenterNoteJoin2();
    Glue("［＃ページの左右中", "央］", [0xEF, 0xBC, 0xBB, 0xEF, 0xBC, 0x83, 0xE3, 0x83, 0x9A, 0xE3, 0x83, 0xBC, 0xE3, 0x82, 0xB8, 0xE3, 0x81, 0xAE, 0xE5, 0xB7, 0xA6, 0xE5, 0x8F, 0xB3, 0xE4, 0xB8, 0xAD], [0xE5, 0xA4, 0xAE, 0xEF, 0xBC, 0xBD]);
  }

  lemma MajorHeadingNotePiece0()
    ensures Utf8("は大見") == [0xE3, 0x81, 0xAF, 0xE5, 0xA4, 0xA7, 0xE8, 0xA6, 0x8B]
  {
  }

  lemma MajorHeadingNotePiece1()
    ensures Utf8("出し］") == [0xE5, 0x87, 0xBA, 0xE3, 0x81, 0x97, 0xEF, 0xBC, 0xBD]
  {
  }

  lemma MajorHeadingNoteText0()
    ensures "は大見" + "出し］" == "は大見出し］"
  {
  }

  lemma MajorHeadingNoteJoin0()
    ensures [0xE3, 0x81, 0xAF, 0xE5, 0xA4, 0xA7, 0xE8, 0xA6, 0x8B] + [0xE5, 0x87, 0xBA, 0xE3, 0x81, 0x97, 0xEF, 0xBC, 0xBD] == [0xE3, 0x81, 0xAF, 0xE5, 0xA4, 0xA7, 0xE8, 0xA6, 0x8B, 0xE5, 0x87, 0xBA, 0xE3, 0x81, 0x97, 0xEF, 0xBC, 0xBD]
  {
  }

  lemma MajorHeadingNoteIsUtf8()
    ensures MajorHeadingNote == Utf8("は大見出し］")
  {
    MajorHeadingNotePiece0();
    MajorHeadingNotePiece1();
    MajorHeadingNoteText0();
    MajorHeadingNoteJoin0();
    Glue("は大見", "出し］", [0xE3, 0x81, 0xAF, 0xE5, 0xA4, 0xA7, 0xE8, 0xA6, 0x8B], [0xE5, 0x87, 0xBA, 0xE3, 0x81, 0x97, 0xEF, 0xBC, 0xBD]);
  }

  lemma MinorHeadingNotePiece0()
    ensures Utf8("は中見") == [0xE3, 0x81, 0xAF, 0xE4, 0xB8, 0xAD, 0xE8, 0xA6, 0x8B]
  {
  }

  lemma MinorHeadingNotePiece1()
    ensures Utf8("出し］") == [0xE5, 0x87, 0xBA, 0xE3, 0x81, 0x97, 0xEF, 0xBC, 0xBD]
  {
  }

  lemma MinorHeadingNoteText0()
    ensures "は中見" + "出し］" == "は中見出し］"
  {
  }

  lemma MinorHeadingNoteJoin0()
    ensures [0xE3, 0x81, 0xAF, 0xE4, 0xB8, 0xAD, 0xE8, 0xA6, 0x8B] + [0xE5, 0x87, 0xBA, 0xE3, 0x81, 0x97, 0xEF, 0xBC, 0xBD] == [0xE3, 0x81, 0xAF, 0xE4, 0xB8, 0xAD, 0xE8, 0xA6, 0x8B, 0xE5, 0x87, 0xBA, 0xE3, 0x81, 0x97, 0xEF, 0xBC, 0xBD]
  {
  }

  lemma MinorHeadingNoteIsUtf8()
    ensures MinorHeadingNote == Utf8("は中見出し］")
  {
    MinorHeadingNotePiece0();
    MinorHeadingNotePiece1();
    MinorHeadingNoteText0();
    MinorHeadingNoteJoin0();
    Glue("は中見", "出し］", [0xE3, 0x81, 0xAF, 0xE4, 0xB8, 0xAD, 0xE8, 0xA6, 0x8B], [0xE5, 0x87, 0xBA, 0xE3, 0x81, 0x97, 0xEF, 0xBC, 0xBD]);
  }

  lemma GlyphNoteOpenIsUtf8()
    ensures GlyphNoteOpen == Utf8("※［")
  {
  }

  lemma OpenBracketIsUtf8()
    ensures OpenBracket == Utf8("［")
  {
  }

  lemma CloseBracketIsUtf8()
    ensures CloseBracket == Utf8("］")
  {
  }

  lemma AlignRightPiece0()
    ensures Utf8("\\f[") == [0x5C, 0x66, 0x5B]
  {
  }

  lemma AlignRightPiece1()
    ensures Utf8("ali") == [0x61, 0x6C, 0x69]
  {
  }

  lemma AlignRightPiece2()
    ensures Utf8("gn,") == [0x67, 0x6E, 0x2C]
  {
  }

  lemma AlignRightPiece3()
    ensures Utf8("rig") == [0x72, 0x69, 0x67]
  {
  }

  lemma AlignRightPiece4()
    ensures Utf8("ht]") == [0x68, 0x74, 0x5D]
  {
  }

  lemma AlignRightText0()
    ensures "\\f[" + "ali" == "\\f[ali"
  {
  }

  lemma AlignRightJoin0()
    ensures [0x5C, 0x66, 0x5B] + [0x61, 0x6C, 0x69] == [0x5C, 0x66, 0x5B, 0x61, 0x6C, 0x69]
  {
  }

  lemma AlignRightPrefix0()
    ensures Utf8("\\f[ali") == [0x5C, 0x66, 0x5B, 0x61, 0x6C, 0x69]
  {
    AlignRightPiece0();
    AlignRightPiece1();
    AlignRightText0();
    AlignRightJoin0();
    Glue("\\f[", "ali", [0x5C, 0x66, 0x5B], [0x61, 0x6C, 0x69]);
  }

  lemma AlignRightText1()
    ensures "\\f[ali" + "gn," == "\\f[align,"
  {
  }

  lemma AlignRightJoin1()
    ensures [0x5C, 0x66, 0x5B, 0x61, 0x6C, 0x69] + [0x67, 0x6E, 0x2C] == [0x5C, 0x66, 0x5B, 0x61, 0x6C, 0x69, 0x67, 0x6E, 0x2C]
  {
  }

  lemma AlignRightPrefix1()
    ensures Utf8("\\f[align,") == [0x5C, 0x66, 0x5B, 0x61, 0x6C, 0x69, 0x67, 0x6E, 0x2C]
  {
    AlignRightPrefix0();
    AlignRightPiece2();
    AlignRightText1();
    AlignRightJoin1();
    Glue("\\f[ali", "gn,", [0x5C, 0x66, 0x5B, 0x61, 0x6C, 0x69], [0x67, 0x6E, 0x2C]);
  }

  lemma AlignRightText2()
    ensures "\\f[align," + "rig" == "\\f[align,rig"
  {
  }

  lemma AlignRightJoin2()
    ensures [0x5C, 0x66, 0x5B, 0x61, 0x6C, 0x69, 0x67, 0x6E, 0x2C] + [0x72, 0x69, 0x67] == [0x5C, 0x66, 0x5B, 0x61, 0x6C, 0x69, 0x67, 0x6E, 0x2C, 0x72, 0x69, 0x67]
  {
  }

  lemma AlignRightPrefix2()
    ensures Utf8("\\f[align,rig") == [0x5C, 0x66, 0x5B, 0x61, 0x6C, 0x69, 0x67, 0x6E, 0x2C, 0x72, 0x69, 0x67]
  {
    AlignRightPrefix1();
    AlignRightPiece3();
    AlignRightText2();
    AlignRightJoin2();
    Glue("\\f[align,", "rig", [0x5C, 0x66, 0x5B, 0x61, 0x6C, 0x69, 0x67, 0x6E, 0x2C], [0x72, 0x69, 0x67]);
  }

  lemma AlignRightText3()
    ensures "\\f[align,rig" + "ht]" == "\\f[align,right]"
  {
  }

  lemma AlignRightJoin3()
    ensures [0x5C, 0x66, 0x5B, 0x61, 0x6C, 0x69, 0x67, 0x6E, 0x2C, 0x72, 0x69, 0x67] + [0x68, 0x74, 0x5D] == [0x5C, 0x66, 0x5B, 0x61, 0x6C, 0x69, 0x67, 0x6E, 0x2C, 0x72, 0x69, 0x67, 0x68, 0x74, 0x5D]
  {
  }

  lemma AlignRightIsUtf8()
    ensures AlignRight == Utf8("\\f[align,right]")
  {
    AlignRightPrefix2();
    AlignRightPiece4();
    AlignRightText3();
    AlignRightJoin3();
    Glue("\\f[align,rig", "ht]", [0x5C, 0x66, 0x5B, 0x61, 0x6C, 0x69, 0x67, 0x6E, 0x2C, 0x72, 0x69, 0x67], [0x68, 0x74, 0x5D]);
  }

  lemma AlignLeftPiece0()
    ensures Utf8("\\f[") == [0x5C, 0x66, 0x5B]
  {
  }

  lemma AlignLeftPiece1()
    ensures Utf8("ali") == [0x61, 0x6C, 0x69]
  {
  }

  lemma AlignLeftPiece2()
    ensures Utf8("gn,") == [0x67, 0x6E, 0x2C]
  {
  }

  lemma AlignLeftPiece3()
    ensures Utf8("lef") == [0x6C, 0x65, 0x66]
  {
  }

  lemma AlignLeftPiece4()
    ensures Utf8("t]") == [0x74, 0x5D]
  {
  }

  lemma AlignLeftText0()
    ensures "\\f[" + "ali" == "\\f[ali"
  {
  }

  lemma AlignLeftJoin0()
    ensures [0x5C, 0x66, 0x5B] + [0x61, 0x6C, 0x69] == [0x5C, 0x66, 0x5B, 0x61, 0x6C, 0x69]
  {
  }

  lemma AlignLeftPrefix0()
    ensures Utf8("\\f[ali") == [0x5C, 0x66, 0x5B, 0x61, 0x6C, 0x69]
  {
    AlignLeftPiece0();
    AlignLeftPiece1();
    AlignLeftText0();
    AlignLeftJoin0();
    Glue("\\f[", "ali", [0x5C, 0x66, 0x5B], [0x61, 0x6C, 0x69]);
  }

  lemma AlignLeftText1()
    ensures "\\f[ali" + "gn," == "\\f[align,"
  {
  }

  lemma AlignLeftJoin1()
    ensures [0x5C, 0x66, 0x5B, 0x61, 0x6C, 0x69] + [0x67, 0x6E, 0x2C] == [0x5C, 0x66, 0x5B, 0x61, 0x6C, 0x69, 0x67, 0x6E, 0x2C]
  {
  }

  lemma AlignLeftPrefix1()
    ensures Utf8("\\f[align,") == [0x5C, 0x66, 0x5B, 0x61, 0x6C, 0x69, 0x67, 0x6E, 0x2C]
  {
    AlignLeftPrefix0();
    AlignLeftPiece2();
    AlignLeftText1();
    AlignLeftJoin1();
    Glue("\\f[ali", "gn,", [0x5C, 0x66, 0x5B, 0x61, 0x6C, 0x69], [0x67, 0x6E, 0x2C]);
  }

  lemma AlignLeftText2()
    ensures "\\f[align," + "lef" == "\\f[align,lef"
  {
  }

  lemma AlignLeftJoin2()
    ensures [0x5C, 0x66, 0x5B, 0x61, 0x6C, 0x69, 0x67, 0x6E, 0x2C] + [0x6C, 0x65, 0x66] == [0x5C, 0x66, 0x5B, 0x61, 0x6C, 0x69, 0x67, 0x6E, 0x2C, 0x6C, 0x65, 0x66]
  {
  }

  lemma AlignLeftPrefix2()
    ensures Utf8("\\f[align,lef") == [0x5C, 0x66, 0x5B, 0x61, 0x6C, 0x69, 0x67, 0x6E, 0x2C, 0x6C, 0x65, 0x66]
  {
    AlignLeftPrefix1();
    AlignLeftPiece3();
    AlignLeftText2();
    AlignLeftJoin2();
    Glue("\\f[align,", "lef", [0x5C, 0x66, 0x5B, 0x61, 0x6C, 0x69, 0x67, 0x6E, 0x2C], [0x6C, 0x65, 0x66]);
  }

  lemma AlignLeftText3()
    ensures "\\f[align,lef" + "t]" == "\\f[align,left]"
  {
  }

  lemma AlignLeftJoin3()
    ensures [0x5C, 0x66, 0x5B, 0x61, 0x6C, 0x69, 0x67, 0x6E, 0x2C, 0x6C, 0x65, 0x66] + [0x74, 0x5D] == [0x5C, 0x66, 0x5B, 0x61, 0x6C, 0x69, 0x67, 0x6E, 0x2C, 0x6C, 0x65, 0x66, 0x74, 0x5D]
  {
  }

  lemma AlignLeftIsUtf8()
    ensures AlignLeft == Utf8("\\f[align,left]")
  {
    AlignLeftPrefix2();
    AlignLeftPiece4();
    AlignLeftText3();
    AlignLeftJoin3();
    Glue("\\f[align,lef", "t]", [0x5C, 0x66, 0x5B, 0x61, 0x6C, 0x69, 0x67, 0x6E, 0x2C, 0x6C, 0x65, 0x66], [0x74, 0x5D]);
  }

  lemma IdeographicSpaceIsUtf8()
    ensures IdeographicSpace == Utf8("　")
  {
  }

  lemma SheetSentinelIsUtf8()
    ensures SheetSentinel == Utf8("■□")
  {
  }

  lemma PageSentinelIsUtf8()
    ensures PageSentinel == Utf8("□■")
  {
  }

  lemma HeadSentinelIsUtf8()
    ensures HeadSentinel == Utf8("◆◇")
  {
  }

  lemma SubheadSentinelIsUtf8()
    ensures SubheadSentinel == Utf8("◇◆")
  {
  }

  lemma PlaceholderIsUtf8()
    ensures Placeholder == Utf8("□")
  {
  }
}
