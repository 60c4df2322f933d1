/**
 * Candidate search over the Aozora Bunko index (`searchBook`, `getInfoSummury` and
 * `getBookURL`, main.go:183-222), and the narrowing of `main` that applies it once per query
 * word (main.go:477-482). The index is the list of CSV rows, each a list of fields; only the
 * title (field 1), the two author-name fields (15 and 16), the edition field (27) and the
 * download URL (45) are read. Go panics on a row that is too short or on a URL whose slice
 * bounds cross; those are the `Err` results.
 */
module Search {
  import opened Results
  import opened Text

  /** One row of the index CSV. */
  type Row = seq<string>

  const UrlBase: string := "https://aozorahack.org/aozorabunko_text"
  const CardMark: string := "/card"
  const ZipMark: string := ".zip"
  const Slash: string := "/"
  const TxtSuffix: string := ".txt"

  /** How `getBookURL` fails: its error value, or a slice-bounds panic. */
  datatype UrlError = NotValidBook | SliceOutOfRange

  /** Why the search would panic. */
  datatype SearchCrash =
    | ShortRow   // a field index past the end of a row
    | BadSlice   // `rawURL[a:b]` with `a > b`

  /** What `searchBook` returns: the first candidate's URL and the candidates. */
  datatype Found = Found(url: string, candidates: seq<Row>)

  /** `getBookURL`, given field 45 of a row. */
  function BookURL(raw: string): (r: Result<string, UrlError>)
    ensures r == Err(NotValidBook) <==> !Contains(raw, CardMark) || !Contains(raw, ZipMark)
    ensures r.Ok? ==> HasPrefix(r.value, UrlBase)
  {
    var pre := Index(raw, CardMark);
    var suf := LastIndex(raw, ZipMark);
    ContainsIff(raw, CardMark);
    LastIndexIff(raw, ZipMark);
    if pre.None? || suf.None? then Err(NotValidBook)
    else
      var from := match LastIndex(raw, Slash) case None => 0 case Some(s) => s + 1;
      if from > suf.value || pre.value > suf.value then Err(SliceOutOfRange)
      else
        var url := UrlBase + raw[pre.value..suf.value] + Slash + raw[from..suf.value] + TxtSuffix;
        assert url[..|UrlBase|] == UrlBase;
        Ok(url)
  }

  /** `LastIndex` finds something exactly when the pattern occurs. */
  lemma LastIndexIff<T>(s: seq<T>, p: seq<T>)
    ensures Contains(s, p) <==> LastIndex(s, p).Some?
  {
    if LastIndex(s, p).Some? {
      OccursContains(s, p, LastIndex(s, p).value);
    }
  }

  /**
   * The URL in terms of the raw field: the text from the first `/card` up to the last `.zip`,
   * then `/`, then the file name between the last `/` and that `.zip`, then `.txt`.
   */
  lemma BookURLParts(raw: string, p: nat, z: nat, from: nat)
    requires OccursAt(raw, CardMark, p) && forall k :: 0 <= k < p ==> !OccursAt(raw, CardMark, k)
    requires OccursAt(raw, ZipMark, z) && forall k :: z < k ==> !OccursAt(raw, ZipMark, k)
    requires from == 0 ==> forall k :: !OccursAt(raw, Slash, k)
    requires from > 0 ==> OccursAt(raw, Slash, from - 1) && forall k :: from - 1 < k ==> !OccursAt(raw, Slash, k)
    requires p <= z && from <= z
    ensures BookURL(raw) == Ok(UrlBase + raw[p..z] + Slash + raw[from..z] + TxtSuffix)
  {
    assert Index(raw, CardMark) == Some(p);
    assert LastIndex(raw, ZipMark) == Some(z);
    if from == 0 {
      assert LastIndex(raw, Slash).None?;
    } else {
      assert LastIndex(raw, Slash) == Some(from - 1);
    }
  }

  /** A URL field with a `/` after its last `.zip` makes Go's slice panic. */
  lemma SlashAfterZipPanics(raw: string, z: nat, s: nat)
    requires Contains(raw, CardMark)
    requires OccursAt(raw, ZipMark, z) && forall k :: z < k ==> !OccursAt(raw, ZipMark, k)
    requires z < s && OccursAt(raw, Slash, s)
    ensures BookURL(raw) == Err(SliceOutOfRange)
  {
    ContainsIff(raw, CardMark);
    assert LastIndex(raw, ZipMark) == Some(z);
    assert LastIndex(raw, Slash).Some? && LastIndex(raw, Slash).value >= s;
  }

  /** A URL field whose file name follows the last `/`. */
  lemma ExampleBookURL()
    ensures BookURL("/cards/a.zip") == Ok("https://aozorahack.org/aozorabunko_text/cards/a/a.txt")
  {
    var raw := "/cards/a.zip";
    assert OccursAt(raw, CardMark, 0);
    assert OccursAt(raw, ZipMark, 8);
    assert OccursAt(raw, Slash, 6);
    forall k | 6 < k
      ensures !OccursAt(raw, Slash, k)
    {
      if 6 < k < |raw| {
        assert raw[k..k + 1][0] == raw[k] != '/';
      }
    }
    BookURLParts(raw, 0, 8, 7);
    assert raw[0..8] == "/cards/a";
    assert raw[7..8] == "a";
    assert UrlBase + raw[0..8] + Slash + raw[7..8] + TxtSuffix
        == "https://aozorahack.org/aozorabunko_text/cards/a/a.txt";
  }

  /** `getInfoSummury` reads field 27, so every row of the index needs 28 fields. */
  predicate RowsComplete(rows: seq<Row>) {
    forall i :: 0 <= i < |rows| ==> |rows[i]| >= 28
  }

  /** The query is in the title or in the joined author names. */
  predicate Matches(q: string, row: Row)
    requires |row| >= 17
  {
    Contains(row[1], q) || Contains(row[15] + row[16], q)
  }

  /** The matching rows, in index order. */
  function Filter(q: string, rows: seq<Row>): (r: seq<Row>)
    requires RowsComplete(rows)
    ensures |r| <= |rows|
    ensures forall i :: 0 <= i < |r| ==> |r[i]| >= 28 && Matches(q, r[i])
  {
    if rows == [] then []
    else (if Matches(q, rows[0]) then [rows[0]] else []) + Filter(q, rows[1..])
  }

  /** The matches are rows of the input, and every matching row is among them. */
  lemma {:induction false} FilterMembers(q: string, rows: seq<Row>)
    requires RowsComplete(rows)
    ensures forall x :: x in Filter(q, rows) ==> x in rows
    ensures forall i :: 0 <= i < |rows| && Matches(q, rows[i]) ==> rows[i] in Filter(q, rows)
    decreases |rows|
  {
    if rows != [] {
      var tail := rows[1..];
      assert RowsComplete(tail) by {
        forall i | 0 <= i < |tail|
          ensures |tail[i]| >= 28
        {
          assert tail[i] == rows[i + 1];
        }
      }
      FilterMembers(q, tail);
      forall i | 0 <= i < |rows| && Matches(q, rows[i])
        ensures rows[i] in Filter(q, rows)
      {
        if i > 0 {
          assert rows[i] == tail[i - 1];
        }
      }
    }
  }

  /**
   * The candidates `searchBook` keeps from the matches `ms`: every leading match whose URL
   * field is not a book URL is dropped; the first one that is gives the URL.
   */
  function FirstValid(ms: seq<Row>): (r: Result<Found, SearchCrash>)
    ensures r.Ok? ==> |r.value.candidates| <= |ms|
    ensures r.Ok? ==> (r.value.url == [] <==> r.value.candidates == [])
  {
    if ms == [] then Ok(Found([], []))
    else if |ms[0]| < 46 then Err(ShortRow)
    else
      match BookURL(ms[0][45])
      case Ok(u) =>
        assert |u| >= |UrlBase|;
        Ok(Found(u, ms))
      case Err(NotValidBook) => FirstValid(ms[1..])
      case Err(SliceOutOfRange) => Err(BadSlice)
  }

  /**
   * The rows `searchBook` drops are matches whose URL field is not a book URL, and the URL it
   * returns is the first kept row's.
   */
  lemma FirstValidSkips(ms: seq<Row>)
    requires FirstValid(ms).Ok?
    ensures var f := FirstValid(ms).value;
      f.candidates != [] ==> |f.candidates[0]| >= 46 && BookURL(f.candidates[0][45]) == Ok(f.url)
    ensures var f := FirstValid(ms).value;
      forall i :: 0 <= i < |ms| - |f.candidates| ==> |ms[i]| >= 46 && BookURL(ms[i][45]) == Err(NotValidBook)
  {
    FirstValidHead(ms);
    FirstValidDropped(ms);
  }

  /** The first kept row is the one whose URL field gave the URL. */
  lemma {:induction false} FirstValidHead(ms: seq<Row>)
    requires FirstValid(ms).Ok?
    ensures var f := FirstValid(ms).value;
      f.candidates != [] ==> |f.candidates[0]| >= 46 && BookURL(f.candidates[0][45]) == Ok(f.url)
    decreases |ms|
  {
    if ms != [] && BookURL(ms[0][45]) == Err(NotValidBook) {
      FirstValidHead(ms[1..]);
    }
  }

  /** Every dropped row has a URL field that is not a book URL. */
  lemma {:induction false} FirstValidDropped(ms: seq<Row>)
    requires FirstValid(ms).Ok?
    ensures var f := FirstValid(ms).value;
      forall i :: 0 <= i < |ms| - |f.candidates| ==> |ms[i]| >= 46 && BookURL(ms[i][45]) == Err(NotValidBook)
    decreases |ms|
  {
    if ms != [] && BookURL(ms[0][45]) == Err(NotValidBook) {
      var rest := ms[1..];
      FirstValidDropped(rest);
      var f := FirstValid(ms).value;
      forall i | 0 <= i < |ms| - |f.candidates|
        ensures |ms[i]| >= 46 && BookURL(ms[i][45]) == Err(NotValidBook)
      {
        if i > 0 {
          assert ms[i] == rest[i - 1];
        }
      }
    }
  }

  /** The candidates are the matches from some point on. */
  lemma {:induction false} FirstValidSuffix(ms: seq<Row>)
    requires FirstValid(ms).Ok?
    ensures var f := FirstValid(ms).value; f.candidates == ms[|ms| - |f.candidates|..]
    decreases |ms|
  {
    if ms != [] && BookURL(ms[0][45]) == Err(NotValidBook) {
      FirstValidSuffix(ms[1..]);
    }
  }

  /** `searchBook` as a function: filter, then drop leading matches without a book URL. */
  function Narrow(q: string, rows: seq<Row>): (r: Result<Found, SearchCrash>)
    requires RowsComplete(rows)
  {
    FirstValid(Filter(q, rows))
  }

  /**
   * One pass of the loop of `searchBook` (main.go:207-218) on a row with all the fields
   * `getInfoSummury` reads. A match is appended; when it is the only candidate its URL is
   * fetched, and an invalid one empties the candidate list again.
   */
  method Visit(q: string, row: Row, url: string, candidates: seq<Row>) returns (r: Result<Found, SearchCrash>)
    requires |row| >= 28
    ensures !Matches(q, row) ==> r == Ok(Found(url, candidates))
    ensures Matches(q, row) && candidates != [] ==> r == Ok(Found(url, candidates + [row]))
    ensures Matches(q, row) && candidates == [] ==> r == FirstValid([row])
  {
    var url, candidates := url, candidates;
    if Contains(row[1], q) || Contains(row[15] + row[16], q) {
      ghost var before := candidates;
      candidates := candidates + [row];
      if |candidates| == 1 {
        assert before == [] && candidates == [row];
        FirstValidSingle(row);
        if |row| < 46 {
          return Err(ShortRow);
        }
        var u := BookURL(row[45]);
        if u.Ok? {
          url := u.value;
        } else if u.error == NotValidBook {
          url := [];
          candidates := [];
        } else {
          return Err(BadSlice);
        }
      }
    }
    return Ok(Found(url, candidates));
  }

  /**
   * `searchBook`: the loop of main.go:206-219 over the whole index. A row becomes the first
   * candidate when the candidate list is empty; if its URL is invalid only the list is
   * emptied, and the scan goes on, so a later match can become the first candidate again.
   */
  method SearchBook(q: string, index: seq<Row>) returns (r: Result<Found, SearchCrash>)
    ensures RowsComplete(index) ==> r == Narrow(q, index)
    ensures !RowsComplete(index) ==> r.Err?
    ensures r.Ok? ==> (r.value.url == [] <==> r.value.candidates == [])
  {
    var found := Found([], []);
    var i := 0;
    assert index[..0] == [];
    while i < |index|
      invariant 0 <= i <= |index|
      invariant RowsComplete(index[..i])
      invariant FirstValid(Filter(q, index[..i])) == Ok(found)
    {
      if |index[i]| < 28 {
        NotCompleteAt(index, i);
        return Err(ShortRow);
      }
      StepInvariant(q, index, i, found.url, found.candidates);
      var next := Visit(q, index[i], found.url, found.candidates);
      if next.Err? {
        CrashExtends(q, index, i + 1);
        return next;
      }
      found := next.value;
      i := i + 1;
    }
    assert index[..i] == index;
    r := Ok(found);
  }

  /** One row of the loop, in terms of the functional search over the rows read so far. */
  lemma StepInvariant(q: string, index: seq<Row>, i: nat, url: string, cands: seq<Row>)
    requires i < |index| && |index[i]| >= 28 && RowsComplete(index[..i])
    requires FirstValid(Filter(q, index[..i])) == Ok(Found(url, cands))
    ensures RowsComplete(index[..i + 1])
    ensures !Matches(q, index[i]) ==> FirstValid(Filter(q, index[..i + 1])) == Ok(Found(url, cands))
    ensures Matches(q, index[i]) && cands != [] ==>
      FirstValid(Filter(q, index[..i + 1])) == Ok(Found(url, cands + [index[i]]))
    ensures Matches(q, index[i]) && cands == [] ==>
      FirstValid(Filter(q, index[..i + 1])) == FirstValid([index[i]])
  {
    var before, row := index[..i], index[i];
    assert index[..i + 1] == before + [row];
    FilterSnoc(q, before, row);
    if Matches(q, row) {
      FirstValidSnoc(Filter(q, before), row);
    } else {
      assert Filter(q, before) + [] == Filter(q, before);
    }
  }

  /** The search over a single match. */
  lemma FirstValidSingle(row: Row)
    ensures |row| < 46 ==> FirstValid([row]) == Err(ShortRow)
    ensures |row| >= 46 && BookURL(row[45]).Ok? ==> FirstValid([row]) == Ok(Found(BookURL(row[45]).value, [row]))
    ensures |row| >= 46 && BookURL(row[45]) == Err(NotValidBook) ==> FirstValid([row]) == Ok(Found([], []))
    ensures |row| >= 46 && BookURL(row[45]) == Err(SliceOutOfRange) ==> FirstValid([row]) == Err(BadSlice)
  {
    assert [row][1..] == [];
  }

  /** A row shorter than 28 fields means the index is not complete. */
  lemma NotCompleteAt(index: seq<Row>, i: nat)
    requires i < |index| && |index[i]| < 28
    ensures !RowsComplete(index)
  {
  }

  /** Filtering a row appended at the end. */
  lemma FilterSnoc(q: string, rows: seq<Row>, row: Row)
    requires RowsComplete(rows) && |row| >= 28
    ensures RowsComplete(rows + [row])
    ensures Filter(q, rows + [row]) == Filter(q, rows) + (if Matches(q, row) then [row] else [])
  {
    FilterAppend(q, rows, [row]);
    assert Filter(q, [row]) == (if Matches(q, row) then [row] else []) + Filter(q, []);
  }

  /** Filtering distributes over concatenation. */
  lemma {:induction false} FilterAppend(q: string, a: seq<Row>, b: seq<Row>)
    requires RowsComplete(a) && RowsComplete(b)
    ensures RowsComplete(a + b)
    ensures Filter(q, a + b) == Filter(q, a) + Filter(q, b)
    decreases |a|
  {
    assert RowsComplete(a + b) by {
      forall i | 0 <= i < |a + b|
        ensures |(a + b)[i]| >= 28
      {
        if i >= |a| {
          assert (a + b)[i] == b[i - |a|];
        }
      }
    }
    if a == [] {
      assert a + b == b;
    } else {
      assert (a + b)[1..] == a[1..] + b;
      FilterAppend(q, a[1..], b);
    }
  }

  /** One more match: it becomes the first candidate only when there is none yet. */
  lemma FirstValidSnoc(ms: seq<Row>, row: Row)
    requires FirstValid(ms).Ok?
    ensures FirstValid(ms).value.candidates == [] ==> FirstValid(ms + [row]) == FirstValid([row])
    ensures FirstValid(ms).value.candidates != [] ==>
      FirstValid(ms + [row]) == Ok(Found(FirstValid(ms).value.url, FirstValid(ms).value.candidates + [row]))
    decreases |ms|
  {
    if ms == [] {
      assert ms + [row] == [row];
    } else {
      assert (ms + [row])[0] == ms[0];
      assert (ms + [row])[1..] == ms[1..] + [row];
      if FirstValid(ms).value.candidates == [] {
        FirstValidSnoc(ms[1..], row);
      } else if |ms[0]| >= 46 && BookURL(ms[0][45]) == Err(NotValidBook) {
        FirstValidSnoc(ms[1..], row);
      }
    }
  }

  /** A panic on the first candidate is a panic of the whole search. */
  lemma {:induction false} FirstValidErr(ms: seq<Row>, more: seq<Row>)
    requires FirstValid(ms).Err?
    ensures FirstValid(ms + more) == FirstValid(ms)
    decreases |ms|
  {
    assert (ms + more)[0] == ms[0];
    if |ms[0]| >= 46 && BookURL(ms[0][45]) == Err(NotValidBook) {
      assert (ms + more)[1..] == ms[1..] + more;
      FirstValidErr(ms[1..], more);
    }
  }

  /** A panic on the prefix `index[..n]` is the result for the whole index. */
  lemma CrashExtends(q: string, index: seq<Row>, n: nat)
    requires n <= |index| && RowsComplete(index[..n])
    requires FirstValid(Filter(q, index[..n])).Err?
    ensures RowsComplete(index) ==> Narrow(q, index) == FirstValid(Filter(q, index[..n]))
  {
    if RowsComplete(index) {
      assert index == index[..n] + index[n..];
      assert RowsComplete(index[n..]) by {
        forall i | 0 <= i < |index[n..]|
          ensures |index[n..][i]| >= 28
        {
          assert index[n..][i] == index[n + i];
        }
      }
      FilterAppend(q, index[..n], index[n..]);
      FirstValidErr(Filter(q, index[..n]), Filter(q, index[n..]));
    }
  }

  /** `a` is `b` with some rows left out, order kept. */
  predicate Subseq(a: seq<Row>, b: seq<Row>)
    decreases |b|
  {
    if a == [] then true
    else if b == [] then false
    else (a[0] == b[0] && Subseq(a[1..], b[1..])) || Subseq(a, b[1..])
  }

  /** Every sequence is a subsequence of itself. */
  lemma {:induction false} SubseqRefl(a: seq<Row>)
    ensures Subseq(a, a)
    decreases |a|
  {
    if a != [] {
      SubseqRefl(a[1..]);
    }
  }

  /** A subsequence of a subsequence is a subsequence. */
  lemma {:induction false} SubseqTrans(a: seq<Row>, b: seq<Row>, c: seq<Row>)
    requires Subseq(a, b) && Subseq(b, c)
    ensures Subseq(a, c)
    decreases |c|
  {
    if a == [] {
    } else if b[0] == c[0] && Subseq(b[1..], c[1..]) {
      if a[0] == b[0] && Subseq(a[1..], b[1..]) {
        SubseqTrans(a[1..], b[1..], c[1..]);
      } else {
        SubseqTrans(a, b[1..], c[1..]);
      }
    } else {
      SubseqTrans(a, b, c[1..]);
    }
  }

  /** A suffix is a subsequence. */
  lemma {:induction false} SuffixSubseq(a: seq<Row>, k: nat)
    requires k <= |a|
    ensures Subseq(a[k..], a)
    decreases k
  {
    if k == 0 {
      SubseqRefl(a);
    } else {
      SuffixSubseq(a[1..], k - 1);
      assert a[1..][k - 1..] == a[k..];
      if a[k..] != [] {
        assert Subseq(a[k..], a[1..]);
      }
    }
  }

  /** The matches keep the index order. */
  lemma {:induction false} FilterSubseq(q: string, rows: seq<Row>)
    requires RowsComplete(rows)
    ensures Subseq(Filter(q, rows), rows)
    decreases |rows|
  {
    if rows != [] {
      assert RowsComplete(rows[1..]) by {
        forall i | 0 <= i < |rows[1..]|
          ensures |rows[1..][i]| >= 28
        {
          assert rows[1..][i] == rows[i + 1];
        }
      }
      FilterSubseq(q, rows[1..]);
      var r := Filter(q, rows);
      if Matches(q, rows[0]) {
        assert r[0] == rows[0] && r[1..] == Filter(q, rows[1..]);
      } else {
        assert r == Filter(q, rows[1..]);
        if r != [] {
          assert Subseq(r, rows[1..]);
        }
      }
    }
  }

  /** `searchBook`'s candidates are matching rows of its input, in input order. */
  lemma NarrowKeepsOrder(q: string, rows: seq<Row>)
    requires RowsComplete(rows) && Narrow(q, rows).Ok?
    ensures Subseq(Narrow(q, rows).value.candidates, rows)
    ensures forall i :: 0 <= i < |Narrow(q, rows).value.candidates| ==>
      Narrow(q, rows).value.candidates[i] in rows && Matches(q, Narrow(q, rows).value.candidates[i])
  {
    var ms := Filter(q, rows);
    var c := Narrow(q, rows).value.candidates;
    FilterSubseq(q, rows);
    FilterMembers(q, rows);
    FirstValidSuffix(ms);
    SuffixSubseq(ms, |ms| - |c|);
    SubseqTrans(c, ms, rows);
    forall i | 0 <= i < |c|
      ensures c[i] in rows && Matches(q, c[i])
    {
      assert c[i] == ms[|ms| - |c| + i];
    }
  }

  /** An empty index gives no URL and no candidate. */
  lemma EmptyIndex(q: string)
    ensures Narrow(q, []) == Ok(Found([], []))
  {
  }

  /**
   * The narrowing of `main`: `searchBook` once per query word, each on the previous
   * candidates, starting from the whole index with no URL. The first call reads fields 1,
   * 15, 16 and 27 of every row, so a row with fewer than 28 fields makes it panic.
   */
  function NarrowAll(queries: seq<string>, f: Found): (r: Result<Found, SearchCrash>)
    ensures queries != [] && !RowsComplete(f.candidates) ==> r == Err(ShortRow)
    ensures queries != [] && r.Ok? ==> RowsComplete(f.candidates)
    ensures queries != [] && r.Ok? ==> (r.value.url == [] <==> r.value.candidates == [])
    decreases |queries|
  {
    if queries == [] then Ok(f)
    else if !RowsComplete(f.candidates) then Err(ShortRow)
    else
      var g :- Narrow(queries[0], f.candidates);
      NarrowAll(queries[1..], g)
  }

  /**
   * After the narrowing, every candidate matches every query word and the candidates are
   * rows of the index in index order: the queries combine as a logical AND.
   */
  lemma {:induction false} NarrowAllMatchesAll(queries: seq<string>, f: Found)
    requires RowsComplete(f.candidates) && NarrowAll(queries, f).Ok?
    ensures Subseq(NarrowAll(queries, f).value.candidates, f.candidates)
    ensures forall c :: c in NarrowAll(queries, f).value.candidates ==> c in f.candidates && |c| >= 28
    ensures forall c, q :: c in NarrowAll(queries, f).value.candidates && q in queries ==> Matches(q, c)
    decreases |queries|
  {
    var r := NarrowAll(queries, f).value;
    if queries == [] {
      SubseqRefl(f.candidates);
    } else {
      NarrowKeepsOrder(queries[0], f.candidates);
      var g := Narrow(queries[0], f.candidates).value;
      assert RowsComplete(g.candidates) by {
        forall i | 0 <= i < |g.candidates|
          ensures |g.candidates[i]| >= 28
        {
          assert g.candidates[i] in f.candidates;
        }
      }
      assert NarrowAll(queries, f) == NarrowAll(queries[1..], g);
      NarrowAllMatchesAll(queries[1..], g);
      SubseqTrans(r.candidates, g.candidates, f.candidates);
      forall c, q | c in r.candidates && q in queries
        ensures Matches(q, c)
      {
        if q != queries[0] {
          assert q in queries[1..];
        }
      }
    }
  }

  /**
   * After at least one query word the URL is the one of the first remaining candidate, and
   * every remaining candidate is a row of the starting list.
   */
  lemma {:induction false} NarrowAllFirstURL(queries: seq<string>, f: Found)
    requires NarrowAll(queries, f).Ok? && queries != []
    ensures var g := NarrowAll(queries, f).value;
      g.candidates != [] ==> |g.candidates[0]| >= 46 && BookURL(g.candidates[0][45]) == Ok(g.url)
    decreases |queries|
  {
    NarrowKeepsOrder(queries[0], f.candidates);
    var g := Narrow(queries[0], f.candidates).value;
    assert RowsComplete(g.candidates) by {
      forall i | 0 <= i < |g.candidates|
        ensures |g.candidates[i]| >= 28
      {
        assert g.candidates[i] in f.candidates;
      }
    }
    assert NarrowAll(queries, f) == NarrowAll(queries[1..], g);
    if queries[1..] == [] {
      FirstValidSkips(Filter(queries[0], f.candidates));
    } else {
      NarrowAllFirstURL(queries[1..], g);
    }
  }
}
