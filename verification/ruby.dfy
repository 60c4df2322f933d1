/**
 * The ruby pass of `formatText` (`processRuby`, main.go:227-292). The formatted text is cut
 * into words by a morphological tokenizer, and every gloss is rewritten into the form
 * `《 base , reading 》`:
 *
 *  - explicit form `｜ base 《 reading 》`: the `｜` becomes `《` and the first later `《`
 *    becomes `,`;
 *  - implicit form `base 《 reading 》`: the base is the longest run of all-Han tokens right
 *    before the `《`; a `《` is put in front of that run and a `,` after it.
 *
 * The tokenizer is not modelled: its output is the input here. Whether a character belongs
 * to the Han script is the parameter `isHan`. The index walks that panic in Go
 * (`seg[j]` out of range) are the `Err` results.
 */
module Ruby {
  import opened Results

  /** A token of the tokenizer's output. */
  type Token = string

  const Bar: Token := "｜"
  const Open: Token := "《"
  const Close: Token := "》"
  const Comma: Token := ","

  /** Why Go's index walks would panic. */
  datatype RubyCrash =
    | UnclosedBase     // a `｜` with no `《` after it (main.go:253-255)
    | BaseAtStart      // the backward Han walk runs off the first token (main.go:262-265)
    | UnclosedReading  // an implicit gloss with no `》` after it (main.go:278-280)

  /** `isKanji`: every character of the token is Han, so the empty token is one too. */
  predicate IsKanji(isHan: char -> bool, s: Token) {
    forall i :: 0 <= i < |s| ==> isHan(s[i])
  }

  /** The first index from `from` on whose token is `t`, as the loops `for seg[j] != t { j++ }`. */
  function Seek(s: seq<Token>, t: Token, from: nat): (r: Option<nat>)
    ensures r.Some? ==> from <= r.value < |s| && s[r.value] == t
    ensures r.Some? ==> forall k :: from <= k < r.value ==> s[k] != t
    ensures r.None? ==> forall k :: from <= k < |s| ==> s[k] != t
    decreases |s| - from
  {
    if from >= |s| then None
    else if s[from] == t then Some(from)
    else Seek(s, t, from + 1)
  }

  /** The number of all-Han tokens at the end of `out`: how far the backward walk goes. */
  function HanRun(isHan: char -> bool, out: seq<Token>): (k: nat)
    ensures k <= |out|
    ensures forall i :: |out| - k <= i < |out| ==> IsKanji(isHan, out[i])
    ensures k < |out| ==> !IsKanji(isHan, out[|out| - k - 1])
  {
    if out == [] || !IsKanji(isHan, out[|out| - 1]) then 0
    else 1 + HanRun(isHan, out[..|out| - 1])
  }

  /** Where the scan stands: `out` lies before Go's `j` (already rewritten), `rest` from `j` on. */
  datatype Pos = Pos(out: seq<Token>, rest: seq<Token>)

  /**
   * One pass of the `for j < len(seg)` loop body, from the token at `j`. Tokens skipped by an
   * inner walk are moved to `out` unexamined, as Go's `j` jumps over them.
   */
  function Advance(isHan: char -> bool, out: seq<Token>, rest: seq<Token>): (r: Result<Pos, RubyCrash>)
    requires rest != []
    ensures r.Ok? ==> |r.value.rest| < |rest|
    ensures r.Ok? ==> |r.value.out| + |r.value.rest| == |out| + |rest| + (if rest[0] == Open then 1 else 0)
  {
    if rest[0] == Bar then
      match Seek(rest, Open, 1)
      case None => Err(UnclosedBase)
      case Some(m) =>
        assert |rest[1..m]| + |rest[m + 1..]| == |rest| - 2;
        Ok(Pos(out + [Open] + rest[1..m] + [Comma], rest[m + 1..]))
    else if rest[0] == Open then
      var k := HanRun(isHan, out);
      if k == |out| then Err(BaseAtStart)
      else
        var base := out[..|out| - k];
        var run := out[|out| - k..];
        assert |base| + |run| == |out|;
        if k > 0 && out[|out| - 1] == Close then
          // the walk for `》` stops on the moved run itself; the `,` after it is scanned next
          Ok(Pos(base + [Open] + run + [Comma], rest[1..]))
        else
          match Seek(rest, Close, 1)
          case None => Err(UnclosedReading)
          case Some(m) =>
            assert |rest[1..m + 1]| + |rest[m + 1..]| == |rest| - 1;
            Ok(Pos(base + [Open] + run + [Comma] + rest[1..m + 1], rest[m + 1..]))
    else Ok(Pos(out + [rest[0]], rest[1..]))
  }

  /** The scan loop from `Pos(out, rest)` to the end of the tokens. */
  function Scan(isHan: char -> bool, out: seq<Token>, rest: seq<Token>): (r: Result<seq<Token>, RubyCrash>)
    decreases |rest|
  {
    if rest == [] then Ok(out)
    else
      var p :- Advance(isHan, out, rest);
      Scan(isHan, p.out, p.rest)
  }

  /** `book += s` over the rewritten tokens. */
  function Concat(seg: seq<Token>): (r: string)
    ensures seg == [] ==> r == []
  {
    if seg == [] then [] else seg[0] + Concat(seg[1..])
  }

  /** `processRuby` after the tokenizer: rewrite the tokens, then join them without separator. */
  function ProcessRuby(isHan: char -> bool, tokens: seq<Token>): (r: Result<string, RubyCrash>)
  {
    var seg :- Scan(isHan, [], tokens);
    Ok(Concat(seg))
  }

  /** No token is a gloss marker that the scan rewrites. */
  predicate Unmarked(s: seq<Token>) {
    forall i :: 0 <= i < |s| ==> s[i] != Bar && s[i] != Open
  }

  /** Joining distributes over concatenation of token sequences. */
  lemma {:induction false} ConcatAppend(a: seq<Token>, b: seq<Token>)
    ensures Concat(a + b) == Concat(a) + Concat(b)
    decreases |a|
  {
    if a == [] {
      assert a + b == b;
    } else {
      assert (a + b)[1..] == a[1..] + b;
      ConcatAppend(a[1..], b);
    }
  }

  /** The scan goes on from wherever one pass of the loop body leaves it. */
  lemma ScanStep(isHan: char -> bool, out: seq<Token>, rest: seq<Token>, p: Pos)
    requires rest != [] && Advance(isHan, out, rest) == Ok(p)
    ensures Scan(isHan, out, rest) == Scan(isHan, p.out, p.rest)
  {
  }

  /** A token that is neither `｜` nor `《` is passed over as it is. */
  lemma PlainAdvance(isHan: char -> bool, out: seq<Token>, rest: seq<Token>)
    requires rest != [] && rest[0] != Bar && rest[0] != Open
    ensures Advance(isHan, out, rest) == Ok(Pos(out + [rest[0]], rest[1..]))
  {
  }

  /** Scanning unmarked tokens only moves them to the output. */
  lemma {:induction false} ScanSkips(isHan: char -> bool, out: seq<Token>, head: seq<Token>, rest: seq<Token>)
    requires Unmarked(head)
    ensures Scan(isHan, out, head + rest) == Scan(isHan, out + head, rest)
    decreases |head|
  {
    if head == [] {
      assert head + rest == rest && out + head == out;
    } else {
      var s := head + rest;
      assert s[0] == head[0] && s[0] != Bar && s[0] != Open;
      assert s[1..] == head[1..] + rest;
      PlainAdvance(isHan, out, s);
      ScanStep(isHan, out, s, Pos(out + [s[0]], s[1..]));
      ScanSkips(isHan, out + [head[0]], head[1..], rest);
      assert out + [head[0]] + head[1..] == out + head;
    }
  }

  /** Text without `｜` and `《` tokens passes through unchanged. */
  lemma UnmarkedUnchanged(isHan: char -> bool, out: seq<Token>, rest: seq<Token>)
    requires Unmarked(rest)
    ensures Scan(isHan, out, rest) == Ok(out + rest)
  {
    ScanSkips(isHan, out, rest, []);
    assert rest + [] == rest;
  }

  /** So `processRuby` just joins the tokens of a text without glosses. */
  lemma NoGlossJoins(isHan: char -> bool, tokens: seq<Token>)
    requires Unmarked(tokens)
    ensures ProcessRuby(isHan, tokens) == Ok(Concat(tokens))
  {
    UnmarkedUnchanged(isHan, [], tokens);
    assert [] + tokens == tokens;
  }

  /** Unmarked text in front is simply carried to the output before the scan goes on. */
  lemma ScanAppend(isHan: char -> bool, head: seq<Token>, rest: seq<Token>)
    requires Unmarked(head)
    ensures Scan(isHan, [], head + rest) == Scan(isHan, head, rest)
  {
    ScanSkips(isHan, [], head, rest);
    assert [] + head == head;
  }

  /** The loop body on `｜ base 《`: it rewrites them to `《 base ,` in place. */
  lemma ExplicitAdvance(isHan: char -> bool, out: seq<Token>, base: seq<Token>, rest: seq<Token>)
    requires forall i :: 0 <= i < |base| ==> base[i] != Open
    ensures Advance(isHan, out, [Bar] + base + [Open] + rest)
         == Ok(Pos(out + [Open] + base + [Comma], rest))
  {
    var s := [Bar] + base + [Open] + rest;
    var m := |base| + 1;
    assert s[m] == Open;
    assert forall k :: 1 <= k < m ==> s[k] == base[k - 1];
    assert Seek(s, Open, 1) == Some(m);
    assert s[1..m] == base;
    assert s[m + 1..] == rest;
  }

  /**
   * Explicit form: `｜ base 《` becomes `《 base ,` in place; the reading after it is scanned
   * as usual.
   */
  lemma ExplicitGloss(isHan: char -> bool, out: seq<Token>, base: seq<Token>, rest: seq<Token>)
    requires forall i :: 0 <= i < |base| ==> base[i] != Open
    ensures Scan(isHan, out, [Bar] + base + [Open] + rest)
         == Scan(isHan, out + [Open] + base + [Comma], rest)
  {
    ExplicitAdvance(isHan, out, base, rest);
    ScanStep(isHan, out, [Bar] + base + [Open] + rest, Pos(out + [Open] + base + [Comma], rest));
  }

  /** An explicit base that is never closed by `《` makes Go's walk run off the end. */
  lemma UnclosedBaseFails(isHan: char -> bool, out: seq<Token>, base: seq<Token>)
    requires forall i :: 0 <= i < |base| ==> base[i] != Open
    ensures Scan(isHan, out, [Bar] + base) == Err(UnclosedBase)
  {
    var s := [Bar] + base;
    assert forall k :: 1 <= k < |s| ==> s[k] == base[k - 1];
    assert Seek(s, Open, 1).None?;
    assert Advance(isHan, out, s) == Err(UnclosedBase);
  }

  /**
   * An implicit gloss whose reading is never closed: the walk for `》` runs off the end of the
   * tokens and Go panics on `seg[j]` (main.go:278-280).
   */
  lemma UnclosedReadingFails(isHan: char -> bool, head: seq<Token>, run: seq<Token>, reading: seq<Token>)
    requires head != [] && !IsKanji(isHan, head[|head| - 1])
    requires forall i :: 0 <= i < |run| ==> IsKanji(isHan, run[i])
    requires run == [] || run[|run| - 1] != Close
    requires forall i :: 0 <= i < |reading| ==> reading[i] != Close
    ensures Scan(isHan, head + run, [Open] + reading) == Err(UnclosedReading)
  {
    var out := head + run;
    HanRunOf(isHan, head, run);
    var s := [Open] + reading;
    assert forall k :: 1 <= k < |s| ==> s[k] == reading[k - 1];
    assert Seek(s, Close, 1).None?;
    assert Advance(isHan, out, s) == Err(UnclosedReading);
  }

  /** The backward walk over `head + run` stops exactly at the end of `head`. */
  lemma {:induction false} HanRunOf(isHan: char -> bool, head: seq<Token>, run: seq<Token>)
    requires head != [] && !IsKanji(isHan, head[|head| - 1])
    requires forall i :: 0 <= i < |run| ==> IsKanji(isHan, run[i])
    ensures HanRun(isHan, head + run) == |run|
    decreases |run|
  {
    var out := head + run;
    if run == [] {
      assert out == head;
    } else {
      assert out[|out| - 1] == run[|run| - 1];
      assert out[..|out| - 1] == head + run[..|run| - 1];
      HanRunOf(isHan, head, run[..|run| - 1]);
    }
  }

  /** The loop body on an implicit gloss `head run 《 reading 》`. */
  lemma ImplicitAdvance(isHan: char -> bool, head: seq<Token>, run: seq<Token>,
                        reading: seq<Token>, rest: seq<Token>)
    requires head != [] && !IsKanji(isHan, head[|head| - 1])
    requires forall i :: 0 <= i < |run| ==> IsKanji(isHan, run[i])
    requires run == [] || run[|run| - 1] != Close
    requires forall i :: 0 <= i < |reading| ==> reading[i] != Close
    ensures Advance(isHan, head + run, [Open] + reading + [Close] + rest)
         == Ok(Pos(head + [Open] + run + [Comma] + reading + [Close], rest))
  {
    var out := head + run;
    HanRunOf(isHan, head, run);
    assert out[..|out| - |run|] == head && out[|out| - |run|..] == run;
    var s := [Open] + reading + [Close] + rest;
    var m := |reading| + 1;
    assert s[m] == Close;
    assert forall k :: 1 <= k < m ==> s[k] == reading[k - 1];
    assert Seek(s, Close, 1) == Some(m);
    assert s[1..m + 1] == reading + [Close];
    assert s[m + 1..] == rest;
    assert head + [Open] + run + [Comma] + s[1..m + 1] == head + [Open] + run + [Comma] + reading + [Close];
  }

  /**
   * Implicit form: before a `《`, the longest all-Han run `run` of the text so far gets a `《`
   * in front and a `,` behind; the reading up to the first `》` is then skipped.
   */
  lemma ImplicitGloss(isHan: char -> bool, head: seq<Token>, run: seq<Token>,
                      reading: seq<Token>, rest: seq<Token>)
    requires head != [] && !IsKanji(isHan, head[|head| - 1])
    requires forall i :: 0 <= i < |run| ==> IsKanji(isHan, run[i])
    requires run == [] || run[|run| - 1] != Close
    requires forall i :: 0 <= i < |reading| ==> reading[i] != Close
    ensures Scan(isHan, head + run, [Open] + reading + [Close] + rest)
         == Scan(isHan, head + [Open] + run + [Comma] + reading + [Close], rest)
  {
    ImplicitAdvance(isHan, head, run, reading, rest);
    ScanStep(isHan, head + run, [Open] + reading + [Close] + rest,
             Pos(head + [Open] + run + [Comma] + reading + [Close], rest));
  }

  /** A `《` with nothing but Han before it has no base start: Go indexes `seg[-1]`. */
  lemma BaseAtStartFails(isHan: char -> bool, out: seq<Token>, rest: seq<Token>)
    requires forall i :: 0 <= i < |out| ==> IsKanji(isHan, out[i])
    ensures Scan(isHan, out, [Open] + rest) == Err(BaseAtStart)
  {
    if HanRun(isHan, out) < |out| {
      assert false;
    }
    assert Advance(isHan, out, [Open] + rest) == Err(BaseAtStart);
  }

  /** How many tokens of `s` equal `t`. */
  function Count(s: seq<Token>, t: Token): (n: nat)
    ensures n <= |s|
  {
    multiset(s)[t]
  }

  /** The explicit rewrite in token counts: one `｜` becomes a `,`. */
  lemma ExplicitCounts(out: seq<Token>, base: seq<Token>, rest: seq<Token>)
    ensures multiset(out + [Open] + base + [Comma] + rest)
         == multiset(out + [Bar] + base + [Open] + rest) - multiset{Bar} + multiset{Comma}
  {
    assert multiset(out + [Open] + base + [Comma] + rest)
        == multiset(out) + multiset{Open} + multiset(base) + multiset{Comma} + multiset(rest);
    assert multiset(out + [Bar] + base + [Open] + rest)
        == multiset(out) + multiset{Bar} + multiset(base) + multiset{Open} + multiset(rest);
  }

  /**
   * One loop pass in token counts: an explicit gloss trades a `｜` for a `,`, an implicit
   * gloss adds a `,`, any other token changes nothing.
   */
  lemma AdvanceCounts(isHan: char -> bool, out: seq<Token>, rest: seq<Token>, p: Pos)
    requires rest != [] && Advance(isHan, out, rest) == Ok(p)
    ensures rest[0] == Bar ==>
      multiset(p.out + p.rest) == multiset(out + rest) - multiset{Bar} + multiset{Comma}
    ensures rest[0] == Open ==> multiset(p.out + p.rest) == multiset(out + rest) + multiset{Comma}
    ensures rest[0] != Bar && rest[0] != Open ==> p.out + p.rest == out + rest
  {
    if rest[0] == Bar {
      BarCounts(isHan, out, rest, p);
    } else if rest[0] == Open {
      OpenCounts(isHan, out, rest, p);
    } else {
      assert out + [rest[0]] + rest[1..] == out + rest;
    }
  }

  /** The pass on a `｜` in token counts. */
  lemma BarCounts(isHan: char -> bool, out: seq<Token>, rest: seq<Token>, p: Pos)
    requires rest != [] && rest[0] == Bar && Advance(isHan, out, rest) == Ok(p)
    ensures multiset(p.out + p.rest) == multiset(out + rest) - multiset{Bar} + multiset{Comma}
  {
    var m := Seek(rest, Open, 1).value;
    var b := rest[1..m];
    var c := rest[m + 1..];
    assert p == Pos(out + [Open] + b + [Comma], c);
    assert rest == [Bar] + b + [Open] + c;
    assert out + rest == out + [Bar] + b + [Open] + c;
    assert p.out + p.rest == out + [Open] + b + [Comma] + c;
    ExplicitCounts(out, b, c);
  }

  /** The pass on a `《` in token counts. */
  lemma OpenCounts(isHan: char -> bool, out: seq<Token>, rest: seq<Token>, p: Pos)
    requires rest != [] && rest[0] == Open && Advance(isHan, out, rest) == Ok(p)
    ensures multiset(p.out + p.rest) == multiset(out + rest) + multiset{Comma}
  {
    var k := HanRun(isHan, out);
    OpenMoves(isHan, out, rest, p);
    var base := out[..|out| - k];
    var run := out[|out| - k..];
    assert out == base + run;
    assert rest == [Open] + rest[1..];
    calc {
      multiset(out + rest);
      multiset(out) + multiset(rest);
      multiset(base) + multiset(run) + multiset{Open} + multiset(rest[1..]);
    }
    calc {
      multiset(p.out + p.rest);
      multiset(base + [Open] + run + [Comma] + rest[1..]);
      multiset(base) + multiset{Open} + multiset(run) + multiset{Comma} + multiset(rest[1..]);
    }
  }

  /** The pass on a `《`, read as a whole: the Han run gets `《` in front and `,` behind. */
  lemma OpenMoves(isHan: char -> bool, out: seq<Token>, rest: seq<Token>, p: Pos)
    requires rest != [] && rest[0] == Open && Advance(isHan, out, rest) == Ok(p)
    ensures HanRun(isHan, out) < |out|
    ensures p.out + p.rest
         == out[..|out| - HanRun(isHan, out)] + [Open] + out[|out| - HanRun(isHan, out)..] + [Comma] + rest[1..]
  {
    var k := HanRun(isHan, out);
    assert k < |out|;
    if k > 0 && out[|out| - 1] == Close {
      OpenCloseAdvance(isHan, out, rest);
    } else {
      var m := Seek(rest, Close, 1).value;
      OpenSeekMoves(isHan, out, rest, p, m);
    }
  }

  /** The pass on a `《` after a Han run ending in `》`: the walk for `》` stops at once. */
  lemma OpenCloseAdvance(isHan: char -> bool, out: seq<Token>, rest: seq<Token>)
    requires rest != [] && rest[0] == Open && HanRun(isHan, out) < |out|
    requires HanRun(isHan, out) > 0 && out[|out| - 1] == Close
    ensures Advance(isHan, out, rest)
         == Ok(Pos(out[..|out| - HanRun(isHan, out)] + [Open] + out[|out| - HanRun(isHan, out)..] + [Comma],
                   rest[1..]))
  {
  }

  /** The pass on a `《` that goes on to the first `》`, read as a whole. */
  lemma OpenSeekMoves(isHan: char -> bool, out: seq<Token>, rest: seq<Token>, p: Pos, m: nat)
    requires rest != [] && rest[0] == Open && Advance(isHan, out, rest) == Ok(p)
    requires HanRun(isHan, out) < |out| && !(HanRun(isHan, out) > 0 && out[|out| - 1] == Close)
    requires Seek(rest, Close, 1) == Some(m)
    ensures p.out + p.rest
         == out[..|out| - HanRun(isHan, out)] + [Open] + out[|out| - HanRun(isHan, out)..] + [Comma] + rest[1..]
  {
    var k := HanRun(isHan, out);
    OpenSeekAdvance(isHan, out, rest, m);
    Regroup(out[..|out| - k] + [Open] + out[|out| - k..] + [Comma], rest, m);
  }

  /** Cutting the tail of `s` after index `m` and gluing it back. */
  lemma Regroup(x: seq<Token>, s: seq<Token>, m: nat)
    requires m < |s|
    ensures x + s[1..m + 1] + s[m + 1..] == x + s[1..]
  {
    assert s[1..] == s[1..m + 1] + s[m + 1..];
  }

  /** The pass on a `《` whose reading ends at the first `》`, index `m`. */
  lemma OpenSeekAdvance(isHan: char -> bool, out: seq<Token>, rest: seq<Token>, m: nat)
    requires rest != [] && rest[0] == Open && HanRun(isHan, out) < |out|
    requires !(HanRun(isHan, out) > 0 && out[|out| - 1] == Close)
    requires Seek(rest, Close, 1) == Some(m)
    ensures Advance(isHan, out, rest)
         == Ok(Pos(out[..|out| - HanRun(isHan, out)] + [Open] + out[|out| - HanRun(isHan, out)..] + [Comma]
                   + rest[1..m + 1], rest[m + 1..]))
  {
  }

  /**
   * Token accounting: only `｜` and `,` change in number. Each explicit gloss turns a `｜`
   * into `《` and a `《` into `,`; each implicit gloss adds one `,`. So the sequence grows by
   * exactly the number of commas that did not replace a `｜`: one per implicit gloss.
   */
  lemma {:induction false} ScanCounts(isHan: char -> bool, out: seq<Token>, rest: seq<Token>, r: seq<Token>)
    requires Scan(isHan, out, rest) == Ok(r)
    ensures forall t :: t != Bar && t != Comma ==> Count(r, t) == Count(out + rest, t)
    ensures Count(r, Bar) <= Count(out + rest, Bar)
    ensures Count(r, Comma) - Count(out + rest, Comma) >= Count(out + rest, Bar) - Count(r, Bar)
    ensures |r| - |out + rest|
         == (Count(r, Comma) - Count(out + rest, Comma)) - (Count(out + rest, Bar) - Count(r, Bar))
    decreases |rest|
  {
    if rest == [] {
    } else {
      var p := Advance(isHan, out, rest).value;
      ScanStep(isHan, out, rest, p);
      ScanCounts(isHan, p.out, p.rest, r);
      AdvanceCounts(isHan, out, rest, p);
      var before := multiset(out + rest);
      var after := multiset(p.out + p.rest);
      if rest[0] == Bar {
        assert (out + rest)[|out|] == Bar;
        assert Bar in before;
        assert after[Bar] == before[Bar] - 1 && after[Comma] == before[Comma] + 1;
      } else if rest[0] == Open {
        assert after[Bar] == before[Bar] && after[Comma] == before[Comma] + 1;
      }
      assert forall t :: t != Bar && t != Comma ==> after[t] == before[t];
    }
  }

  /** A whole text with one explicit gloss: only `｜` and the `《` after the base change. */
  lemma ExplicitText(isHan: char -> bool, head: seq<Token>, base: seq<Token>, reading: seq<Token>)
    requires Unmarked(head) && Unmarked(reading)
    requires forall i :: 0 <= i < |base| ==> base[i] != Open
    ensures Scan(isHan, [], head + [Bar] + base + [Open] + reading)
         == Ok(head + [Open] + base + [Comma] + reading)
  {
    assert head + [Bar] + base + [Open] + reading == head + ([Bar] + base + [Open] + reading);
    ScanAppend(isHan, head, [Bar] + base + [Open] + reading);
    ExplicitGloss(isHan, head, base, reading);
    UnmarkedUnchanged(isHan, head + [Open] + base + [Comma], reading);
  }

  /**
   * A whole text with one implicit gloss: `《` moves before the Han run and `,` follows it;
   * everything else stays.
   */
  lemma ImplicitText(isHan: char -> bool, head: seq<Token>, run: seq<Token>,
                     reading: seq<Token>, tail: seq<Token>)
    requires Unmarked(head) && Unmarked(run) && Unmarked(tail)
    requires head != [] && !IsKanji(isHan, head[|head| - 1])
    requires forall i :: 0 <= i < |run| ==> IsKanji(isHan, run[i])
    requires run == [] || run[|run| - 1] != Close
    requires forall i :: 0 <= i < |reading| ==> reading[i] != Close
    ensures Scan(isHan, [], head + run + [Open] + reading + [Close] + tail)
         == Ok(head + [Open] + run + [Comma] + reading + [Close] + tail)
  {
    assert Unmarked(head + run);
    assert head + run + [Open] + reading + [Close] + tail
        == (head + run) + ([Open] + reading + [Close] + tail);
    ScanAppend(isHan, head + run, [Open] + reading + [Close] + tail);
    ImplicitGloss(isHan, head, run, reading, tail);
    UnmarkedUnchanged(isHan, head + [Open] + run + [Comma] + reading + [Close], tail);
  }

  /** The source's own comment: `｜ 1 2 3 《 a o g 》` becomes `《 1 2 3 , a o g 》`. */
  lemma ExampleExplicit(isHan: char -> bool)
    ensures Scan(isHan, [], [Bar, "1", "2", "3", Open, "a", "o", "g", Close])
         == Ok([Open, "1", "2", "3", Comma, "a", "o", "g", Close])
  {
    var base: seq<Token> := ["1", "2", "3"];
    var reading: seq<Token> := ["a", "o", "g", Close];
    assert Unmarked(reading);
    ExplicitText(isHan, [], base, reading);
    ExplicitPieces(base, reading);
  }

  /** The two token lists of `ExampleExplicit`, put together from their pieces. */
  lemma ExplicitPieces(base: seq<Token>, reading: seq<Token>)
    requires base == ["1", "2", "3"] && reading == ["a", "o", "g", Close]
    ensures [] + [Bar] + base + [Open] + reading == [Bar, "1", "2", "3", Open, "a", "o", "g", Close]
    ensures [] + [Open] + base + [Comma] + reading == [Open, "1", "2", "3", Comma, "a", "o", "g", Close]
  {
  }

  /** `蝴 蝶 ｜ 々 《 ちょうちょう 》`: the explicit bar limits the base to `々`. */
  lemma ExampleBarLimitsBase(isHan: char -> bool)
    ensures Scan(isHan, [], ["蝴", "蝶", Bar, "々", Open, "ちょうちょう", Close])
         == Ok(["蝴", "蝶", Open, "々", Comma, "ちょうちょう", Close])
  {
    var head: seq<Token> := ["蝴", "蝶"];
    var reading: seq<Token> := ["ちょうちょう", Close];
    assert Unmarked(head) && Unmarked(reading);
    ExplicitText(isHan, head, ["々"], reading);
    assert head + [Bar] + ["々"] + [Open] + reading == ["蝴", "蝶", Bar, "々", Open, "ちょうちょう", Close];
    assert head + [Open] + ["々"] + [Comma] + reading == ["蝴", "蝶", Open, "々", Comma, "ちょうちょう", Close];
  }

  /** `美しい 蝴蝶 《 ちょう 》`: the implicit base is the Han word `蝴蝶` alone. */
  lemma ExampleImplicitBase(isHan: char -> bool)
    requires isHan('蝴') && isHan('蝶') && !isHan('い')
    ensures Scan(isHan, [], ["美しい", "蝴蝶", Open, "ちょう", Close])
         == Ok(["美しい", Open, "蝴蝶", Comma, "ちょう", Close])
  {
    var head: seq<Token> := ["美しい"];
    var run: seq<Token> := ["蝴蝶"];
    assert "美しい"[2] == 'い';
    assert !IsKanji(isHan, head[0]);
    assert IsKanji(isHan, "蝴蝶");
    assert Unmarked(head) && Unmarked(run);
    ImplicitText(isHan, head, run, ["ちょう"], []);
    assert head + run + [Open] + ["ちょう"] + [Close] + [] == ["美しい", "蝴蝶", Open, "ちょう", Close];
    assert head + [Open] + run + [Comma] + ["ちょう"] + [Close] + [] == ["美しい", Open, "蝴蝶", Comma, "ちょう", Close];
  }

  /** A `《` right at the start of the text has no base: Go indexes `seg[-1]`. */
  lemma ExampleOpenFirst(isHan: char -> bool)
    ensures ProcessRuby(isHan, [Open, "よみ", Close]) == Err(BaseAtStart)
  {
    BaseAtStartFails(isHan, [], ["よみ", Close]);
    assert [Open] + ["よみ", Close] == [Open, "よみ", Close];
  }
}
