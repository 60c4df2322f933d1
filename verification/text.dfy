/**
 * Substring search over arbitrary sequences, as Go's `strings` package does it on
 * byte strings: `HasPrefix`, `Index`, `LastIndex` and `Contains`.
 */
module Text {
  import opened Results

  /** `p` occurs in `s` starting at index `k`. */
  predicate OccursAt<T(==)>(s: seq<T>, p: seq<T>, k: int) {
    0 <= k && k + |p| <= |s| && s[k..k + |p|] == p
  }

  /** Go's `strings.HasPrefix(s, p)`. */
  predicate HasPrefix<T(==)>(s: seq<T>, p: seq<T>) {
    |p| <= |s| && s[..|p|] == p
  }

  /** The first occurrence of `p` in `s` at or after `from`. */
  function IndexFrom<T(==)>(s: seq<T>, p: seq<T>, from: nat): (r: Option<nat>)
    ensures r.Some? ==> from <= r.value && OccursAt(s, p, r.value)
    ensures r.Some? ==> forall k :: from <= k < r.value ==> !OccursAt(s, p, k)
    ensures r.None? ==> forall k :: from <= k ==> !OccursAt(s, p, k)
    decreases |s| - from
  {
    if from + |p| > |s| then None
    else if s[from..from + |p|] == p then Some(from)
    else IndexFrom(s, p, from + 1)
  }

  /** Go's `strings.Index(s, p)`, with `None` for `-1`. */
  function Index<T(==)>(s: seq<T>, p: seq<T>): Option<nat> {
    IndexFrom(s, p, 0)
  }

  /** Go's `strings.Contains(s, p)`. */
  predicate Contains<T(==)>(s: seq<T>, p: seq<T>) {
    exists k :: 0 <= k <= |s| && OccursAt(s, p, k)
  }

  /** The last occurrence of `p` in `s` that starts at or before `k`. */
  function LastAtOrBefore<T(==)>(s: seq<T>, p: seq<T>, k: nat): (r: Option<nat>)
    requires k + |p| <= |s|
    ensures r.Some? ==> r.value <= k && OccursAt(s, p, r.value)
    ensures r.Some? ==> forall j :: r.value < j <= k ==> !OccursAt(s, p, j)
    ensures r.None? ==> forall j :: 0 <= j <= k ==> !OccursAt(s, p, j)
    decreases k
  {
    if s[k..k + |p|] == p then Some(k)
    else if k == 0 then None
    else LastAtOrBefore(s, p, k - 1)
  }

  /** Go's `strings.LastIndex(s, p)`, with `None` for `-1`. */
  function LastIndex<T(==)>(s: seq<T>, p: seq<T>): (r: Option<nat>)
    ensures r.Some? ==> OccursAt(s, p, r.value)
    ensures r.Some? ==> forall j :: r.value < j ==> !OccursAt(s, p, j)
    ensures r.None? ==> forall j :: !OccursAt(s, p, j)
  {
    if |p| > |s| then None else LastAtOrBefore(s, p, |s| - |p|)
  }

  /** `Contains` is `Index(s, p) >= 0`, as Go defines it. */
  lemma ContainsIff<T>(s: seq<T>, p: seq<T>)
    ensures Contains(s, p) <==> Index(s, p).Some?
  {
    if Index(s, p).Some? {
      assert OccursAt(s, p, Index(s, p).value);
    }
  }

  lemma OccursContains<T>(s: seq<T>, p: seq<T>, k: int)
    requires OccursAt(s, p, k)
    ensures Contains(s, p)
  {
    assert k <= |s|;
  }

  lemma PrefixContains<T>(s: seq<T>, p: seq<T>)
    requires HasPrefix(s, p)
    ensures Contains(s, p)
  {
    OccursContains(s, p, 0);
  }

  /** Containment is transitive: whatever `a` contains, every `s` that contains `a` contains too. */
  lemma ContainsTrans<T>(s: seq<T>, a: seq<T>, b: seq<T>)
    requires Contains(s, a) && Contains(a, b)
    ensures Contains(s, b)
  {
    var i :| 0 <= i <= |s| && OccursAt(s, a, i);
    var j :| 0 <= j <= |a| && OccursAt(a, b, j);
    forall m | 0 <= m < |b|
      ensures s[i + j + m] == b[m]
    {
      assert s[i..i + |a|][j + m] == s[i + j + m];
      assert a[j..j + |b|][m] == a[j + m];
    }
    assert s[i + j..i + j + |b|] == b;
    OccursContains(s, b, i + j);
  }

  lemma PrefixTrans<T>(s: seq<T>, a: seq<T>, b: seq<T>)
    requires HasPrefix(s, a) && Contains(a, b)
    ensures Contains(s, b)
  {
    PrefixContains(s, a);
    ContainsTrans(s, a, b);
  }

  /** Three pieces put in front of a sequence one by one are one piece in front of it. */
  lemma Regroup<T>(c: seq<T>, b: seq<T>, a: seq<T>, s: seq<T>)
    ensures c + (b + (a + s)) == (c + b + a) + s
  {
  }

  /** A piece put in front of three joined pieces joins the first of them. */
  lemma Lead<T>(c: seq<T>, b: seq<T>, a: seq<T>, s: seq<T>)
    ensures c + (b + a + s) == c + b + a + s
  {
  }

  /** The same, with the inner two pieces taken as one. */
  lemma Nest<T>(c: seq<T>, b: seq<T>, a: seq<T>, s: seq<T>)
    ensures c + (b + (a + s)) == c + (b + a) + s
  {
  }

  /** One of `a` and `n` is a prefix of the other. */
  predicate Overlaps<T(==)>(a: seq<T>, n: seq<T>) {
    (|a| <= |n| && n[..|a|] == a) || (|n| <= |a| && a[..|n|] == n)
  }

  /** No occurrence of `n` can start inside `p`, whatever follows it. */
  predicate StartsNowhereIn<T(==)>(p: seq<T>, n: seq<T>) {
    forall k :: 0 <= k < |p| ==> !Overlaps(p[k..], n)
  }

  /** A prefix without the first element of `n` starts no `n`. */
  lemma AbsentGuard<T>(p: seq<T>, n: seq<T>)
    requires |n| > 0 && n[0] !in p
    ensures StartsNowhereIn(p, n)
  {
    forall k | 0 <= k < |p|
      ensures !Overlaps(p[k..], n)
    {
      assert p[k..][0] == p[k] && p[k] in p;
    }
  }

  /** Occurrences that start behind a prefix are the occurrences in the rest, shifted. */
  lemma OccursBehind<T>(p: seq<T>, s: seq<T>, n: seq<T>, k: int)
    requires |p| <= k
    ensures OccursAt(p + s, n, k) <==> OccursAt(s, n, k - |p|)
  {
    if 0 <= k && k + |n| <= |p + s| {
      assert (p + s)[k..k + |n|] == s[k - |p|..k - |p| + |n|];
    }
  }

  /** No occurrence starts inside a prefix that starts nothing. */
  lemma NoneInGuard<T>(p: seq<T>, s: seq<T>, n: seq<T>, k: int)
    requires StartsNowhereIn(p, n) && k < |p|
    ensures !OccursAt(p + s, n, k)
  {
    if 0 <= k && k + |n| <= |p + s| {
      assert !Overlaps(p[k..], n);
      if |p| - k <= |n| {
        assert (p + s)[k..k + |n|][..|p| - k] == p[k..];
      } else {
        assert (p + s)[k..k + |n|] == p[k..][..|n|];
      }
    }
  }

  /** A prefix that starts nothing neither adds nor hides an occurrence. */
  lemma ContainsBehind<T>(p: seq<T>, s: seq<T>, n: seq<T>)
    requires StartsNowhereIn(p, n)
    ensures Contains(p + s, n) <==> Contains(s, n)
  {
    if Contains(p + s, n) {
      var k :| 0 <= k <= |p + s| && OccursAt(p + s, n, k);
      if k < |p| {
        NoneInGuard(p, s, n, k);
      }
      OccursBehind(p, s, n, k);
      OccursContains(s, n, k - |p|);
    }
    if Contains(s, n) {
      var k :| 0 <= k <= |s| && OccursAt(s, n, k);
      OccursBehind(p, s, n, k + |p|);
      OccursContains(p + s, n, k + |p|);
    }
  }

  /** A prefix whose first element differs from the first of `n` cannot begin an `n`. */
  lemma PrefixBehind<T>(p: seq<T>, s: seq<T>, n: seq<T>)
    requires |p| > 0 && |n| > 0 && p[0] != n[0]
    ensures !HasPrefix(p + s, n)
  {
    if |n| <= |p + s| {
      assert (p + s)[..|n|][0] == p[0];
    }
  }

  /** A sequence cannot begin with two patterns whose first elements differ. */
  lemma PrefixesClash<T>(s: seq<T>, a: seq<T>, b: seq<T>)
    requires HasPrefix(s, a) && |a| > 0 && |b| > 0 && a[0] != b[0]
    ensures !HasPrefix(s, b)
  {
    assert s[..|a|][0] == s[0];
    if |b| <= |s| {
      assert s[..|b|][0] == s[0];
    }
  }

  /** The search from a position behind a prefix is the search in the rest, shifted. */
  lemma IndexFromBehind<T>(p: seq<T>, s: seq<T>, n: seq<T>, f: nat)
    ensures IndexFrom(s, n, f).None? ==> IndexFrom(p + s, n, |p| + f).None?
    ensures IndexFrom(s, n, f).Some? ==> IndexFrom(p + s, n, |p| + f) == Some(|p| + IndexFrom(s, n, f).value)
  {
    match IndexFrom(s, n, f)
    case None => MissingBehind(p, s, n, f);
    case Some(j) => FoundFromBehind(p, s, n, f, j);
  }

  /** Nothing found from `f` on: nothing found behind a prefix either. */
  lemma MissingBehind<T>(p: seq<T>, s: seq<T>, n: seq<T>, f: nat)
    requires IndexFrom(s, n, f).None?
    ensures IndexFrom(p + s, n, |p| + f).None?
  {
    forall k | |p| + f <= k
      ensures !OccursAt(p + s, n, k)
    {
      OccursBehind(p, s, n, k);
    }
    IndexFromNone(p + s, n, |p| + f);
  }

  /** Found at `j`: found at `|p| + j` behind a prefix. */
  lemma FoundFromBehind<T>(p: seq<T>, s: seq<T>, n: seq<T>, f: nat, j: nat)
    requires IndexFrom(s, n, f) == Some(j)
    ensures IndexFrom(p + s, n, |p| + f) == Some(|p| + j)
  {
    var from, at := |p| + f, |p| + j;
    OccursBehind(p, s, n, at);
    forall k | from <= k < at
      ensures !OccursAt(p + s, n, k)
    {
      OccursBehind(p, s, n, k);
    }
    IndexFromIs(p + s, n, from, at);
  }

  /** The search finds the first occurrence at or after `from`, whichever way it is known. */
  lemma IndexFromIs<T>(s: seq<T>, n: seq<T>, from: nat, j: nat)
    requires from <= j && OccursAt(s, n, j)
    requires forall k :: from <= k < j ==> !OccursAt(s, n, k)
    ensures IndexFrom(s, n, from) == Some(j)
  {
  }

  /** With no occurrence at or after `from`, the search finds nothing. */
  lemma IndexFromNone<T>(s: seq<T>, n: seq<T>, from: nat)
    requires forall k :: from <= k ==> !OccursAt(s, n, k)
    ensures IndexFrom(s, n, from).None?
  {
  }

  /** Behind a prefix that starts nothing, the search from the start skips the prefix. */
  lemma IndexBehind<T>(p: seq<T>, s: seq<T>, n: seq<T>)
    requires StartsNowhereIn(p, n)
    ensures IndexFrom(p + s, n, 0) == IndexFrom(p + s, n, |p|)
  {
    var r := IndexFrom(p + s, n, 0);
    var q := IndexFrom(p + s, n, |p|);
    if r.Some? && r.value < |p| {
      NoneInGuard(p, s, n, r.value);
    }
    if q.Some? && r.Some? {
      assert r.value <= q.value;
    }
  }
  /** The first opener behind a prefix that starts none is the first one in the rest, shifted. */
  lemma FoundBehind<T>(p: seq<T>, s: seq<T>, o: seq<T>, a: nat)
    requires StartsNowhereIn(p, o) && IndexFrom(s, o, 0) == Some(a)
    ensures IndexFrom(p + s, o, 0) == Some(|p| + a)
  {
    IndexBehind(p, s, o);
    IndexFromBehind(p, s, o, 0);
  }

  /** No opener in the rest: none behind a prefix that starts none either. */
  lemma NoneBehind<T>(p: seq<T>, s: seq<T>, o: seq<T>)
    requires StartsNowhereIn(p, o) && IndexFrom(s, o, 0).None?
    ensures IndexFrom(p + s, o, 0).None?
  {
    IndexBehind(p, s, o);
    IndexFromBehind(p, s, o, 0);
  }
}
