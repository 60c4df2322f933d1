/**
 * The program as a whole, without its I/O: `formatText` (main.go:225-431) is the line
 * formatter followed by the ruby pass over the tokenizer's word list, and `main`
 * (main.go:433-512) narrows the index by every query word and decides between listing the
 * candidates, reporting that nothing was found, and fetching the one book. The tokenizer
 * (`Wakati` of a Japanese morphological analyser) and Unicode's Han table are parameters.
 */
module Aozora {
  import opened Results
  import opened Bytes
  import Formatter
  import Ruby
  import Search

  /** A panic of `formatText`: one of the line formatter or one of the ruby pass. */
  datatype TextCrash =
    | InFormatter(f: Formatter.Crash)
    | InRuby(r: Ruby.RubyCrash)

  /**
   * `formatText`: the formatted lines, split into words by `wakati`, then rewritten by the
   * ruby pass. `wakati` stands for the tokenizer, `isHan` for `unicode.In(r, unicode.Han)`.
   */
  function FormatText(book: Bytes, wakati: Bytes -> seq<Ruby.Token>, isHan: char -> bool)
    : (r: Result<string, TextCrash>)
    ensures Formatter.FormatLines(book).Err? ==> r == Err(InFormatter(Formatter.FormatLines(book).error))
    ensures Formatter.FormatLines(book).Ok? && r.Err? ==>
      r.error.InRuby? && Ruby.ProcessRuby(isHan, wakati(Formatter.FormatLines(book).value)) == Err(r.error.r)
  {
    match Formatter.FormatLines(book)
    case Err(e) => Err(InFormatter(e))
    case Ok(text) =>
      match Ruby.ProcessRuby(isHan, wakati(text))
      case Err(e) => Err(InRuby(e))
      case Ok(s) => Ok(s)
  }

  /** A text whose words carry no ruby mark comes out as the formatted words joined. */
  lemma UnmarkedTextJoins(book: Bytes, wakati: Bytes -> seq<Ruby.Token>, isHan: char -> bool)
    requires Formatter.FormatLines(book).Ok?
    requires Ruby.Unmarked(wakati(Formatter.FormatLines(book).value))
    ensures FormatText(book, wakati, isHan) == Ok(Ruby.Concat(wakati(Formatter.FormatLines(book).value)))
  {
    Ruby.NoGlossJoins(isHan, wakati(Formatter.FormatLines(book).value));
  }

  /** What `main` does once the index is loaded. */
  datatype Decision =
    | NoQuery                                 // fewer than two arguments: exit code 101
    | Ambiguous(candidates: seq<Search.Row>)  // more than one candidate: 400 and the list
    | NotFound                                // no candidate: 401
    | Fetch(url: string)                      // exactly one: download and format it

  /** The exit code `main` prints first (a successful fetch prints 0). */
  function ExitCode(d: Decision): (c: nat)
    ensures c == 0 <==> d.Fetch?
    ensures c in {0, 101, 400, 401}
  {
    match d
    case NoQuery => 101
    case Ambiguous(_) => 400
    case NotFound => 401
    case Fetch(_) => 0
  }

  /** The narrowing loop and the decision after it (main.go:464-495). */
  function Decide(queries: seq<string>, index: seq<Search.Row>): (r: Result<Decision, Search.SearchCrash>)
  {
    if queries == [] then Ok(NoQuery)
    else
      var f :- Search.NarrowAll(queries, Search.Found([], index));
      if |f.candidates| > 1 then Ok(Ambiguous(f.candidates))
      else if f.url == [] then Ok(NotFound)
      else Ok(Fetch(f.url))
  }

  /**
   * The three answers of `main` split the outcomes of the narrowing exactly: a listing for
   * several candidates, "not found" for none, and a download for exactly one, whose URL is
   * that row's book URL and which matches every query word.
   */
  lemma DecideCases(queries: seq<string>, index: seq<Search.Row>)
    requires queries != []
    requires Search.NarrowAll(queries, Search.Found([], index)).Ok?
    ensures var f := Search.NarrowAll(queries, Search.Found([], index)).value;
      (Decide(queries, index) == Ok(NotFound) <==> f.candidates == [])
      && (Decide(queries, index).value.Ambiguous? <==> |f.candidates| > 1)
      && (Decide(queries, index).value.Fetch? <==> |f.candidates| == 1)
    ensures var f := Search.NarrowAll(queries, Search.Found([], index)).value;
      Decide(queries, index).value.Fetch? ==>
        |f.candidates[0]| >= 46
        && Search.BookURL(f.candidates[0][45]) == Ok(Decide(queries, index).value.url)
        && f.candidates[0] in index
        && forall q :: q in queries ==> Search.Matches(q, f.candidates[0])
  {
    var f := Search.NarrowAll(queries, Search.Found([], index)).value;
    Search.NarrowAllFirstURL(queries, Search.Found([], index));
    Search.NarrowAllMatchesAll(queries, Search.Found([], index));
  }

  /** A search that panics makes `main` panic too. */
  lemma DecideCrash(queries: seq<string>, index: seq<Search.Row>)
    requires queries != []
    requires Search.NarrowAll(queries, Search.Found([], index)).Err?
    ensures Decide(queries, index) == Err(Search.NarrowAll(queries, Search.Found([], index)).error)
  {
  }
}
