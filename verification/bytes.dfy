/**
 * Go strings are byte sequences: the formatter slices them at byte offsets, so its text is
 * modelled as `Bytes`, with UTF-8 spelled out where a character's width matters.
 */
module Bytes {

  newtype byte = b: int | 0 <= b < 0x100

  type Bytes = seq<byte>

  /** The line separator `"\n"`. */
  const LF: byte := 0x0A

  /** UTF-8 encoding of one Unicode scalar value. */
  function Utf8Char(c: char): (r: Bytes)
    ensures 1 <= |r| <= 4
    ensures 0x800 <= c as int < 0x10000 <==> |r| == 3
  {
    var n := c as int;
    if n < 0x80 then [n as byte]
    else if n < 0x800 then [(0xC0 + n / 64) as byte, (0x80 + n % 64) as byte]
    else if n < 0x10000 then
      [(0xE0 + n / 4096) as byte, (0x80 + (n / 64) % 64) as byte, (0x80 + n % 64) as byte]
    else
      [(0xF0 + n / 262144) as byte, (0x80 + (n / 4096) % 64) as byte,
       (0x80 + (n / 64) % 64) as byte, (0x80 + n % 64) as byte]
  }

  /** UTF-8 encoding of the suffix `s[i..]`. */
  function Utf8From(s: string, i: nat): Bytes
    requires i <= |s|
    decreases |s| - i
  {
    if i == |s| then [] else Utf8Char(s[i]) + Utf8From(s, i + 1)
  }

  /** UTF-8 encoding of a string, the byte layout Go gives a string literal. */
  function Utf8(s: string): Bytes
  {
    Utf8From(s, 0)
  }

  lemma {:induction false} Utf8FromShift(a: string, b: string, j: nat)
    requires j <= |b|
    ensures Utf8From(a + b, |a| + j) == Utf8From(b, j)
    decreases |b| - j
  {
    if j < |b| {
      Utf8FromShift(a, b, j + 1);
      assert (a + b)[|a| + j] == b[j];
    }
  }

  lemma {:induction false} Utf8FromAppend(a: string, b: string, i: nat)
    requires i <= |a|
    ensures Utf8From(a + b, i) == Utf8From(a, i) + Utf8(b)
    decreases |a| - i
  {
    if i == |a| {
      Utf8FromShift(a, b, 0);
    } else {
      Utf8FromAppend(a, b, i + 1);
      assert (a + b)[i] == a[i];
    }
  }

  /** Encoding distributes over concatenation. */
  lemma Utf8Append(a: string, b: string)
    ensures Utf8(a + b) == Utf8(a) + Utf8(b)
  {
    Utf8FromAppend(a, b, 0);
  }

  /** Go's `strings.Repeat(unit, n)`. */
  function Repeat(unit: Bytes, n: nat): (r: Bytes)
    ensures |r| == n * |unit|
  {
    if n == 0 then [] else unit + Repeat(unit, n - 1)
  }

  /** Go's `strings.Split(s, "\n")`: the pieces between separators, always at least one. */
  function Split(s: Bytes): (r: seq<Bytes>)
    ensures |r| >= 1
  {
    if s == [] then [[]]
    else
      var rest := Split(s[1..]);
      if s[0] == LF then [[]] + rest else [[s[0]] + rest[0]] + rest[1..]
  }

  /** Go's `strings.Join(ls, "\n")`. */
  function Join(ls: seq<Bytes>): Bytes
    requires |ls| >= 1
  {
    if |ls| == 1 then ls[0] else ls[0] + [LF] + Join(ls[1..])
  }

  /** Every line followed by its own separator. */
  function Unlines(ls: seq<Bytes>): Bytes
  {
    if ls == [] then [] else ls[0] + [LF] + Unlines(ls[1..])
  }

  predicate NoLF(s: Bytes) {
    forall k :: 0 <= k < |s| ==> s[k] != LF
  }

  lemma NoLFAppend(a: Bytes, b: Bytes)
    requires NoLF(a) && NoLF(b)
    ensures NoLF(a + b)
  {
    forall k | 0 <= k < |a + b|
      ensures (a + b)[k] != LF
    {
      if k < |a| {
        assert (a + b)[k] == a[k];
      } else {
        assert (a + b)[k] == b[k - |a|];
      }
    }
  }

  lemma NoLFSlice(s: Bytes, i: nat, j: nat)
    requires NoLF(s) && i <= j <= |s|
    ensures NoLF(s[i..j])
  {
    forall k | 0 <= k < j - i
      ensures s[i..j][k] != LF
    {
      assert s[i..j][k] == s[i + k];
    }
  }

  lemma {:induction false} SplitHasNoLF(s: Bytes)
    ensures forall k :: 0 <= k < |Split(s)| ==> NoLF(Split(s)[k])
  {
    if s != [] {
      SplitHasNoLF(s[1..]);
    }
  }

  /** Joining the pieces of a split gives back the text. */
  lemma {:induction false} JoinSplit(s: Bytes)
    ensures Join(Split(s)) == s
  {
    if s != [] {
      var rest := Split(s[1..]);
      JoinSplit(s[1..]);
      if s[0] == LF {
        assert Split(s) == [[]] + rest;
        assert Join(Split(s)) == [] + [LF] + Join(rest);
      } else {
        var head := [s[0]] + rest[0];
        assert Split(s) == [head] + rest[1..];
        if |rest| == 1 {
          assert Join(Split(s)) == head;
        } else {
          assert Join(rest) == rest[0] + [LF] + Join(rest[1..]);
          assert Join(Split(s)) == head + [LF] + Join(rest[1..]);
        }
        assert s == [s[0]] + s[1..];
      }
    }
  }

  /** Splitting a join of separator-free lines gives back the lines. */
  lemma {:induction false} SplitJoin(ls: seq<Bytes>)
    requires |ls| >= 1
    requires forall k :: 0 <= k < |ls| ==> NoLF(ls[k])
    ensures Split(Join(ls)) == ls
  {
    if |ls| == 1 {
      SplitLine(ls[0]);
    } else {
      SplitJoin(ls[1..]);
      SplitAfterLine(ls[0], Join(ls[1..]));
      assert [ls[0]] + ls[1..] == ls;
    }
  }

  lemma {:induction false} SplitLine(l: Bytes)
    requires NoLF(l)
    ensures Split(l) == [l]
  {
    if l != [] {
      SplitLine(l[1..]);
      assert [l[0]] + l[1..] == l;
    }
  }

  lemma {:induction false} SplitAfterLine(l: Bytes, rest: Bytes)
    requires NoLF(l)
    ensures Split(l + [LF] + rest) == [l] + Split(rest)
  {
    if l == [] {
      assert ([] + [LF] + rest)[1..] == rest;
    } else {
      SplitAfterLine(l[1..], rest);
      assert (l + [LF] + rest)[1..] == l[1..] + [LF] + rest;
      assert [l[0]] + l[1..] == l;
    }
  }

  /** Emitting every piece of a split followed by a separator adds one trailing separator. */
  lemma {:induction false} UnlinesJoin(ls: seq<Bytes>)
    requires |ls| >= 1
    ensures Unlines(ls) == Join(ls) + [LF]
  {
    if |ls| > 1 {
      UnlinesJoin(ls[1..]);
    }
  }

  lemma {:induction false} UnlinesAppend(a: seq<Bytes>, b: seq<Bytes>)
    ensures Unlines(a + b) == Unlines(a) + Unlines(b)
  {
    if a == [] {
      assert a + b == b;
    } else {
      UnlinesAppend(a[1..], b);
      assert (a + b)[1..] == a[1..] + b;
    }
  }
}
