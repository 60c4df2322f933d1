/**
 * The one regular-expression rewrite of the formatter: every glyph note `※［…］` (a `※［`
 * followed by anything up to the first `］`) becomes the placeholder `□`, as Go's
 * `regexp.MustCompile("※［[^］]*］").ReplaceAllString(line, "□")` does. On the UTF-8 bytes
 * of a line, the leftmost match starts at the first `※［` and ends at the first `］` after it.
 */
module GlyphNotes {
  import opened Results
  import opened Text
  import opened Bytes
  import opened Markers

  /** A complete glyph note starts at `p`: an opener there and a closing bracket after it. */
  predicate NoteAt(s: Bytes, p: int) {
    OccursAt(s, GlyphNoteOpen, p)
    && exists q :: p + |GlyphNoteOpen| <= q <= |s| && OccursAt(s, CloseBracket, q)
  }

  /** The pattern `※［[^］]*］` has no match in `s`. */
  predicate NoGlyphNote(s: Bytes) {
    forall p :: 0 <= p <= |s| ==> !NoteAt(s, p)
  }

  /**
   * The leftmost match: the first opener `p`, and the first closing bracket `q` after it.
   * `None` when there is no opener, or no closing bracket after the first one.
   */
  function FirstNote(s: Bytes): (r: Option<(nat, nat)>)
    ensures r.Some? ==> OccursAt(s, GlyphNoteOpen, r.value.0) && OccursAt(s, CloseBracket, r.value.1)
    ensures r.Some? ==> r.value.0 + |GlyphNoteOpen| <= r.value.1
    ensures r.Some? ==> forall k :: 0 <= k < r.value.0 ==> !OccursAt(s, GlyphNoteOpen, k)
    ensures r.Some? ==> forall k :: r.value.0 + |GlyphNoteOpen| <= k < r.value.1 ==> !OccursAt(s, CloseBracket, k)
  {
    match IndexFrom(s, GlyphNoteOpen, 0)
    case None => None
    case Some(p) =>
      match IndexFrom(s, CloseBracket, p + |GlyphNoteOpen|)
      case None => None
      case Some(q) => Some((p, q))
  }

  /** Replaces every glyph note, left to right, by `□`. */
  function ReplaceGlyphNotes(s: Bytes): (r: Bytes)
    ensures |r| <= |s|
    decreases |s|
  {
    match FirstNote(s)
    case None => s
    case Some((p, q)) => s[..p] + Placeholder + ReplaceGlyphNotes(s[q + |CloseBracket|..])
  }

  /** The match search finds a note exactly when there is one. */
  lemma FirstNoteFindsNote(s: Bytes)
    ensures FirstNote(s).Some? ==> NoteAt(s, FirstNote(s).value.0)
    ensures FirstNote(s).None? ==> NoGlyphNote(s)
  {
    var open := IndexFrom(s, GlyphNoteOpen, 0);
    if open.None? {
      NoOpenerNoNote(s);
    } else if IndexFrom(s, CloseBracket, open.value + |GlyphNoteOpen|).None? {
      UnclosedNoNote(s, open.value);
    } else {
      var q := FirstNote(s).value.1;
      assert FirstNote(s).value.0 + |GlyphNoteOpen| <= q <= |s|;
    }
  }

  /** A line without a glyph note is left as it is. */
  lemma NoNoteUnchanged(s: Bytes)
    requires NoGlyphNote(s)
    ensures ReplaceGlyphNotes(s) == s
  {
    FirstNoteFindsNote(s);
  }

  /** The bytes of an occurrence, one at a time. */
  lemma ElementOfOccurrence(s: Bytes, p: Bytes, k: int, m: int)
    ensures OccursAt(s, p, k) && 0 <= m < |p| ==> s[k + m] == p[m]
  {
    if OccursAt(s, p, k) && 0 <= m < |p| {
      assert s[k..k + |p|][m] == s[k + m];
    }
  }

  /** An occurrence that ends inside the left part of a concatenation is one of that part. */
  lemma OccursInLeft(a: Bytes, b: Bytes, p: Bytes, j: int)
    ensures OccursAt(a + b, p, j) && j + |p| <= |a| ==> OccursAt(a, p, j)
  {
    if OccursAt(a + b, p, j) && j + |p| <= |a| {
      assert (a + b)[j..j + |p|] == a[j..j + |p|];
    }
  }

  /** An occurrence that starts in the right part of a concatenation is one of that part. */
  lemma OccursInRight(a: Bytes, b: Bytes, p: Bytes, j: int)
    ensures OccursAt(a + b, p, j) && |a| <= j ==> OccursAt(b, p, j - |a|)
  {
    if OccursAt(a + b, p, j) && |a| <= j {
      assert (a + b)[j..j + |p|] == b[j - |a|..j - |a| + |p|];
    }
  }

  /** A glyph note that starts in the right part of a concatenation is one of that part. */
  lemma NoteInRight(a: Bytes, b: Bytes, j: int)
    ensures NoteAt(a + b, j) && |a| <= j ==> NoteAt(b, j - |a|)
  {
    if NoteAt(a + b, j) && |a| <= j {
      var e :| j + |GlyphNoteOpen| <= e <= |a + b| && OccursAt(a + b, CloseBracket, e);
      OccursInRight(a, b, GlyphNoteOpen, j);
      OccursInRight(a, b, CloseBracket, e);
    }
  }

  /** The placeholder's bytes inside `a + □ + b`. */
  lemma PlaceholderBytes(a: Bytes, b: Bytes)
    ensures (a + Placeholder + b)[|a|] == 0xE2
    ensures (a + Placeholder + b)[|a| + 1] == 0x96
    ensures (a + Placeholder + b)[|a| + 2] == 0xA1
  {
  }

  /** No opener can start inside a placeholder or straddle its left edge. */
  lemma PlaceholderSeparates(a: Bytes, b: Bytes, j: int)
    requires forall k :: 0 <= k ==> !OccursAt(a, GlyphNoteOpen, k)
    requires OccursAt(a + Placeholder + b, GlyphNoteOpen, j)
    ensures j >= |a| + |Placeholder|
  {
    var t := a + Placeholder + b;
    PlaceholderBytes(a, b);
    if j + |GlyphNoteOpen| <= |a| {
      OccursInLeft(a + Placeholder, b, GlyphNoteOpen, j);
      OccursInLeft(a, Placeholder, GlyphNoteOpen, j);
      assert false;
    } else if j < |a| {
      ElementOfOccurrence(t, GlyphNoteOpen, j, |a| - j);
      assert false;
    } else if j == |a| {
      ElementOfOccurrence(t, GlyphNoteOpen, j, 1);
      assert false;
    } else if j < |a| + |Placeholder| {
      ElementOfOccurrence(t, GlyphNoteOpen, j, 0);
      assert false;
    }
  }

  /** A line with no opener has no glyph note. */
  lemma NoOpenerNoNote(s: Bytes)
    requires forall k :: 0 <= k ==> !OccursAt(s, GlyphNoteOpen, k)
    ensures NoGlyphNote(s)
  {
  }

  /** When the first opener has no closing bracket after it, no later opener has one either. */
  lemma UnclosedNoNote(s: Bytes, p: nat)
    requires forall k :: 0 <= k < p ==> !OccursAt(s, GlyphNoteOpen, k)
    requires forall k :: p + |GlyphNoteOpen| <= k ==> !OccursAt(s, CloseBracket, k)
    ensures NoGlyphNote(s)
  {
    forall j | 0 <= j <= |s|
      ensures !NoteAt(s, j)
    {
      if OccursAt(s, GlyphNoteOpen, j) {
        assert p <= j;
      }
    }
  }

  /** The text before the first opener has no opener. */
  lemma BeforeFirstOpener(s: Bytes, p: nat)
    requires p <= |s|
    requires forall k :: 0 <= k < p ==> !OccursAt(s, GlyphNoteOpen, k)
    ensures forall k :: 0 <= k ==> !OccursAt(s[..p], GlyphNoteOpen, k)
  {
    forall k | 0 <= k
      ensures !OccursAt(s[..p], GlyphNoteOpen, k)
    {
      if OccursAt(s[..p], GlyphNoteOpen, k) {
        assert s[k..k + |GlyphNoteOpen|] == s[..p][k..k + |GlyphNoteOpen|];
        assert OccursAt(s, GlyphNoteOpen, k);
      }
    }
  }

  /** A note-free text after a placeholder, behind opener-free text, leaves the whole note-free. */
  lemma PlaceholderKeepsNoNote(a: Bytes, tail: Bytes)
    requires forall k :: 0 <= k ==> !OccursAt(a, GlyphNoteOpen, k)
    requires NoGlyphNote(tail)
    ensures NoGlyphNote(a + Placeholder + tail)
  {
    var r := a + Placeholder + tail;
    forall j | 0 <= j <= |r|
      ensures !NoteAt(r, j)
    {
      if NoteAt(r, j) {
        PlaceholderSeparates(a, tail, j);
        NoteInRight(a + Placeholder, tail, j);
        assert false;
      }
    }
  }

  /** The first note replaced, the rest of the line is rewritten on its own. */
  lemma ReplaceFirstNote(s: Bytes, p: nat, q: nat)
    requires FirstNote(s) == Some((p, q))
    ensures ReplaceGlyphNotes(s) == s[..p] + Placeholder + ReplaceGlyphNotes(s[q + |CloseBracket|..])
  {
  }

  /** After the rewrite the pattern matches nowhere: Go's single pass leaves no glyph note. */
  lemma {:induction false} ReplaceLeavesNoNote(s: Bytes)
    ensures NoGlyphNote(ReplaceGlyphNotes(s))
    decreases |s|
  {
    match FirstNote(s)
    case None =>
      FirstNoteFindsNote(s);
    case Some((p, q)) =>
      var rest := s[q + |CloseBracket|..];
      ReplaceLeavesNoNote(rest);
      BeforeFirstOpener(s, p);
      PlaceholderKeepsNoNote(s[..p], ReplaceGlyphNotes(rest));
      ReplaceFirstNote(s, p, q);
  }

  /** The rewrite has nothing left to do on its own output. */
  lemma ReplaceIdempotent(s: Bytes)
    ensures ReplaceGlyphNotes(ReplaceGlyphNotes(s)) == ReplaceGlyphNotes(s)
  {
    ReplaceLeavesNoNote(s);
    NoNoteUnchanged(ReplaceGlyphNotes(s));
  }

  /** The rewrite never introduces a line break. */
  lemma {:induction false} ReplaceKeepsNoLF(s: Bytes)
    requires NoLF(s)
    ensures NoLF(ReplaceGlyphNotes(s))
    decreases |s|
  {
    match FirstNote(s)
    case None =>
    case Some((p, q)) =>
      var rest := s[q + |CloseBracket|..];
      NoLFSlice(s, q + |CloseBracket|, |s|);
      assert s[q + |CloseBracket|..|s|] == rest;
      ReplaceKeepsNoLF(rest);
      NoLFSlice(s, 0, p);
      assert NoLF(Placeholder);
      NoLFAppend(s[..p], Placeholder);
      NoLFAppend(s[..p] + Placeholder, ReplaceGlyphNotes(rest));
      ReplaceFirstNote(s, p, q);
  }

  /** One replaced note: `A※［B］C` becomes `A□C`. */
  lemma ExampleOneNote()
    ensures ReplaceGlyphNotes([0x41] + GlyphNoteOpen + [0x42] + CloseBracket + [0x43])
         == [0x41] + Placeholder + [0x43]
  {
    var s := [0x41] + GlyphNoteOpen + [0x42] + CloseBracket + [0x43];
    assert OccursAt(s, GlyphNoteOpen, 1);
    assert s[0] != GlyphNoteOpen[0];
    assert IndexFrom(s, GlyphNoteOpen, 0) == Some(1);
    assert OccursAt(s, CloseBracket, 8);
    assert s[7] != CloseBracket[0];
    assert IndexFrom(s, CloseBracket, 7) == Some(8);
    var tail: Bytes := [0x43];
    assert s[11..] == tail;
    assert IndexFrom(tail, GlyphNoteOpen, 0).None?;
  }

  /** No opener in the rest: no match behind the prefix either. */
  lemma NoOpenerBehind(p: Bytes, s: Bytes)
    requires StartsNowhereIn(p, GlyphNoteOpen) && IndexFrom(s, GlyphNoteOpen, 0).None?
    ensures FirstNote(s).None? && FirstNote(p + s).None?
  {
    NoneBehind(p, s, GlyphNoteOpen);
  }

  /** An opener without a closing bracket after it: no match behind the prefix either. */
  lemma UnclosedBehind(p: Bytes, s: Bytes, a: nat)
    requires StartsNowhereIn(p, GlyphNoteOpen) && IndexFrom(s, GlyphNoteOpen, 0) == Some(a)
    requires IndexFrom(s, CloseBracket, a + |GlyphNoteOpen|).None?
    ensures FirstNote(s).None? && FirstNote(p + s).None?
  {
    var f := a + |GlyphNoteOpen|;
    FoundBehind(p, s, GlyphNoteOpen, a);
    MissingBehind(p, s, CloseBracket, f);
    FirstNoteFrom(s, a, f, None);
    FirstNoteFrom(p + s, |p| + a, |p| + f, None);
  }

  /** A note from `a` to `b` in the rest is the match behind the prefix, shifted. */
  lemma NoteBehind(p: Bytes, s: Bytes, a: nat, b: nat)
    requires StartsNowhereIn(p, GlyphNoteOpen) && IndexFrom(s, GlyphNoteOpen, 0) == Some(a)
    requires IndexFrom(s, CloseBracket, a + |GlyphNoteOpen|) == Some(b)
    ensures FirstNote(s) == Some((a, b)) && FirstNote(p + s) == Some((|p| + a, |p| + b))
  {
    var f := a + |GlyphNoteOpen|;
    FoundBehind(p, s, GlyphNoteOpen, a);
    FoundFromBehind(p, s, CloseBracket, f, b);
    FirstNoteFrom(s, a, f, Some(b));
    FirstNoteFrom(p + s, |p| + a, |p| + f, Some(|p| + b));
  }

  /** The match from the first opener and the search for the closing bracket after it. */
  lemma FirstNoteFrom(t: Bytes, a: nat, f: nat, close: Option<nat>)
    requires IndexFrom(t, GlyphNoteOpen, 0) == Some(a)
    requires f == a + |GlyphNoteOpen| && IndexFrom(t, CloseBracket, f) == close
    ensures FirstNote(t) == if close.Some? then Some((a, close.value)) else None
  {
  }

  /**
   * Text in front that starts no glyph note is kept as it is, and the rest of the line is
   * rewritten on its own: the sentinel pairs put in front of a line do not change the match.
   */
  lemma ReplaceBehind(p: Bytes, s: Bytes)
    requires StartsNowhereIn(p, GlyphNoteOpen)
    ensures ReplaceGlyphNotes(p + s) == p + ReplaceGlyphNotes(s)
  {
    match IndexFrom(s, GlyphNoteOpen, 0)
    case None =>
      NoOpenerBehind(p, s);
    case Some(a) =>
      match IndexFrom(s, CloseBracket, a + |GlyphNoteOpen|)
      case None =>
        UnclosedBehind(p, s, a);
      case Some(b) =>
        ReplaceSplit(p, s, a, b);
        Lead(p, s[..a], Placeholder, ReplaceGlyphNotes(s[b + |CloseBracket|..]));
  }

  /** Both lines rewritten around the same note: the one in `s`, and the one behind `p`. */
  lemma ReplaceSplit(p: Bytes, s: Bytes, a: nat, b: nat)
    requires StartsNowhereIn(p, GlyphNoteOpen) && IndexFrom(s, GlyphNoteOpen, 0) == Some(a)
    requires IndexFrom(s, CloseBracket, a + |GlyphNoteOpen|) == Some(b)
    ensures b + |CloseBracket| <= |s|
    ensures ReplaceGlyphNotes(s) == s[..a] + Placeholder + ReplaceGlyphNotes(s[b + |CloseBracket|..])
    ensures ReplaceGlyphNotes(p + s) == p + s[..a] + Placeholder + ReplaceGlyphNotes(s[b + |CloseBracket|..])
  {
    NoteBehind(p, s, a, b);
    ReplaceFirstNote(s, a, b);
    ReplaceShiftedNote(p, s, a, b);
  }

  /** The rewrite of `p + s` around a note that starts at `|p| + a`. */
  lemma ReplaceShiftedNote(p: Bytes, s: Bytes, a: nat, b: nat)
    requires FirstNote(p + s) == Some((|p| + a, |p| + b)) && a <= b + |CloseBracket| <= |s|
    ensures ReplaceGlyphNotes(p + s) == p + s[..a] + Placeholder + ReplaceGlyphNotes(s[b + |CloseBracket|..])
  {
    var i, j := |p| + a, |p| + b;
    ReplaceFirstNote(p + s, i, j);
    assert (p + s)[..i] == p + s[..a];
    assert (p + s)[j + |CloseBracket|..] == s[b + |CloseBracket|..];
  }

  /** A line without an opener is left as it is: Go's `strings.Contains(lines[i], "※［")` guard. */
  lemma NoOpenerUnchanged(s: Bytes)
    requires !Contains(s, GlyphNoteOpen)
    ensures ReplaceGlyphNotes(s) == s
  {
    forall k | 0 <= k
      ensures !OccursAt(s, GlyphNoteOpen, k)
    {
      if OccursAt(s, GlyphNoteOpen, k) {
        OccursContains(s, GlyphNoteOpen, k);
      }
    }
    NoOpenerNoNote(s);
    NoNoteUnchanged(s);
  }
}
