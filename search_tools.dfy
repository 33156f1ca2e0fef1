/** The document search tool: which directories a search looks in, the type
    label a result gets from its directory, the snippet shown around the
    first match, and the ranking of results by relevance. Reading the files
    and scoring them are not part of this model; scores are given values. */
module DocumentSearch {
  import opened Wrappers
  import opened Text
  import opened Sorting

  const REPORTS := "reports"
  const SPECIFICATIONS := "specifications"
  const POLICIES := "policies"

  /** The directories searched when no known type is asked for, in order. */
  const ALL_DIRECTORIES := [REPORTS, SPECIFICATIONS, POLICIES]

  /** The type mapping: the directory of a lower-cased document type. */
  function TypeDirectory(documentType: string): Option<string> {
    if documentType == "report" then Some(REPORTS)
    else if documentType == "specification" || documentType == "spec" then Some(SPECIFICATIONS)
    else if documentType == "policy" then Some(POLICIES)
    else None
  }

  /** The directories `_search_files` looks in, under the documents root:
      the one its document type maps to, matched case-insensitively, or all
      three when the type is absent, empty or unknown. */
  function SearchDirectories(documentType: Option<string>): (r: seq<string>)
    ensures |r| == 1 || r == ALL_DIRECTORIES
    ensures forall d :: d in r ==> d in ALL_DIRECTORIES
  {
    if documentType.Some? && documentType.value != "" && TypeDirectory(Lower(documentType.value)).Some? then
      [TypeDirectory(Lower(documentType.value)).value]
    else ALL_DIRECTORIES
  }

  /** A single directory is searched exactly when the lower-cased type is
      one of the four the mapping knows, and then it is that type's
      directory. */
  lemma SingleDirectoryIffKnownType(documentType: Option<string>)
    ensures var known := documentType.Some? && Lower(documentType.value) in ["report", "specification", "spec", "policy"];
            && (known <==> |SearchDirectories(documentType)| == 1)
            && (known ==> SearchDirectories(documentType) == [TypeDirectory(Lower(documentType.value)).value])
  {
    if documentType.Some? && documentType.value == "" {
      assert Lower(documentType.value) == "";
    }
  }

  /** The choice ignores the case of the type. */
  lemma SearchDirectoriesIgnoreCase(t: string)
    ensures SearchDirectories(Some(t)) == SearchDirectories(Some(Lower(t)))
  {
    LowerIdempotent(t);
    assert |Lower(t)| == |t|;
  }

  /** `s.rstrip(c)`: `s` without the copies of `c` at its end. */
  function RStripChar(s: string, c: char): (r: string)
    ensures |r| <= |s| && r == s[..|r|]
    ensures r == [] || r[|r| - 1] != c
    ensures forall i :: |r| <= i < |s| ==> s[i] == c
  {
    if |s| > 0 && s[|s| - 1] == c then RStripChar(s[..|s| - 1], c) else s
  }

  /** The type label of a result: its directory's name without trailing
      's' characters. */
  function TypeLabel(directory: string): string {
    RStripChar(directory, 's')
  }

  /** The labels of the three directories; `policies` loses only its last
      letter. */
  lemma TypeLabels()
    ensures TypeLabel(REPORTS) == "report"
    ensures TypeLabel(SPECIFICATIONS) == "specification"
    ensures TypeLabel(POLICIES) == "policie"
  {
    assert REPORTS == "report" + "s";
    assert SPECIFICATIONS == "specification" + "s";
    assert POLICIES == "policie" + "s";
  }

  /** `s.find(t)` for each term folded into the smallest index found, as the
      `best_pos` loop keeps it: -1 while nothing has been found. */
  function FirstMatch(s: string, terms: seq<string>): (r: int)
    ensures -1 <= r <= |s|
    decreases |terms|
  {
    if |terms| == 0 then -1
    else
      var best := FirstMatch(s, terms[..|terms| - 1]);
      var pos := Find(s, terms[|terms| - 1]);
      if pos != -1 && (best == -1 || pos < best) then pos else best
  }

  /** The fold finds the earliest position at which any term occurs, and -1
      exactly when no term occurs. */
  lemma {:induction false} FirstMatchIsEarliest(s: string, terms: seq<string>)
    ensures var b := FirstMatch(s, terms);
            && (b == -1 <==> forall t :: t in terms ==> Find(s, t) == -1)
            && (b != -1 ==> exists t :: t in terms && Find(s, t) == b)
            && (forall t :: t in terms && Find(s, t) != -1 ==> b != -1 && b <= Find(s, t))
    decreases |terms|
  {
    if |terms| > 0 {
      var init := terms[..|terms| - 1];
      var last := terms[|terms| - 1];
      FirstMatchIsEarliest(s, init);
      assert forall t :: t in terms <==> t in init || t == last;
      var b := FirstMatch(s, terms);
      if b != -1 {
        if b == Find(s, last) {
          assert last in terms && Find(s, last) == b;
        } else {
          var t :| t in init && Find(s, t) == b;
          assert t in terms && Find(s, t) == b;
        }
      }
    }
  }

  /** The window `[start, end)` taken around position `best`. */
  function Window(best: nat, length: nat, snippetLength: nat): (w: (nat, nat))
    requires best <= length
    ensures w.0 <= best && w.0 <= w.1 <= length
    ensures w.1 - w.0 <= snippetLength
    ensures w.0 > 0 ==> best - w.0 == snippetLength / 2
    ensures w.0 == 0 ==> best <= snippetLength / 2
    ensures w.1 < length ==> w.1 - w.0 == snippetLength
    ensures w.1 == length ==> length <= w.0 + snippetLength
  {
    var start := if best < snippetLength / 2 then 0 else best - snippetLength / 2;
    var end := if length < start + snippetLength then length else start + snippetLength;
    (start, end)
  }

  /** `body` with an ellipsis before it when `lead` and after it when
      `trail`. */
  function Framed(lead: bool, body: string, trail: bool): (r: string)
    ensures |r| == (if lead then 3 else 0) + |body| + (if trail then 3 else 0)
    ensures lead ==> StartsWith(r, "...")
    ensures r[(if lead then 3 else 0)..(if lead then 3 else 0) + |body|] == body
    ensures trail ==> EndsWith(r, "...")
  {
    var r := (if lead then "..." else "") + body + (if trail then "..." else "");
    var off := if lead then 3 else 0;
    assert r[off..off + |body|] == body;
    r
  }

  /** The length, the position of `body` and the two optional ellipses
      determine the framed text: nothing else is added. */
  lemma FramedDetermined(lead: bool, body: string, trail: bool, t: string)
    requires |t| == (if lead then 3 else 0) + |body| + (if trail then 3 else 0)
    requires lead ==> StartsWith(t, "...")
    requires t[(if lead then 3 else 0)..(if lead then 3 else 0) + |body|] == body
    requires trail ==> EndsWith(t, "...")
    ensures t == Framed(lead, body, trail)
  {
    var r := Framed(lead, body, trail);
    var off := if lead then 3 else 0;
    forall i | 0 <= i < |t| ensures t[i] == r[i] {
      if i < off {
        assert t[i] == t[..3][i] == "..."[i];
        assert r[i] == r[..3][i] == "..."[i];
      } else if i < off + |body| {
        assert t[i] == t[off..off + |body|][i - off];
        assert r[i] == r[off..off + |body|][i - off];
      } else {
        var j := i - (|t| - 3);
        assert t[i] == t[|t| - 3..][j] == "..."[j];
        assert r[i] == r[|r| - 3..][j] == "..."[j];
      }
    }
  }

  /** `_extract_snippet` as a value. */
  function Snippet(content: string, terms: seq<string>, snippetLength: nat): string {
    var best := FirstMatch(Lower(content), terms);
    if best == -1 then
      if |content| > snippetLength then Strip(content[..snippetLength]) + "..." else Strip(content)
    else
      var w := Window(best, |content|, snippetLength);
      Framed(w.0 > 0, Strip(content[w.0..w.1]), w.1 < |content|)
  }

  /** Without a match the snippet is the stripped content, cut to the
      snippet length and marked with a trailing ellipsis when longer. */
  lemma SnippetWithoutMatch(content: string, terms: seq<string>, snippetLength: nat)
    requires FirstMatch(Lower(content), terms) == -1
    ensures var r := Snippet(content, terms, snippetLength);
            && (|content| <= snippetLength ==> r == Strip(content))
            && (|content| > snippetLength ==> r == Strip(content[..snippetLength]) + "...")
            && |r| <= snippetLength + 3
  {
  }

  /** Around a match the snippet is the stripped window, with a leading
      ellipsis exactly when the window starts after the beginning and a
      trailing one exactly when it stops before the end; it is at most
      six characters longer than the snippet length. The window starts
      half a snippet before the match, or at the beginning when the match
      is nearer to it, and is one snippet long unless the content ends
      first. */
  lemma SnippetAroundMatch(content: string, terms: seq<string>, snippetLength: nat)
    requires FirstMatch(Lower(content), terms) != -1
    ensures var r := Snippet(content, terms, snippetLength);
            var w := Window(FirstMatch(Lower(content), terms), |content|, snippetLength);
            var best := FirstMatch(Lower(content), terms);
            var body := Strip(content[w.0..w.1]);
            && (w.0 == 0 <==> best <= snippetLength / 2)
            && (w.0 > 0 ==> w.0 == best - snippetLength / 2)
            && (w.1 < |content| <==> w.0 + snippetLength < |content|)
            && (w.1 < |content| ==> w.1 == w.0 + snippetLength)
            && r == (if w.0 > 0 then "..." else "") + body + (if w.1 < |content| then "..." else "")
            && |r| <= snippetLength + 6
  {
    var w := Window(FirstMatch(Lower(content), terms), |content|, snippetLength);
    assert |Strip(content[w.0..w.1])| <= w.1 - w.0;
  }

  /** The `best_pos` loop of `_extract_snippet`: the earliest match of any
      term in `s`, or -1. */
  method FindFirstMatch(s: string, terms: seq<string>) returns (best: int)
    ensures best == FirstMatch(s, terms)
  {
    best := -1;
    for i := 0 to |terms|
      invariant best == FirstMatch(s, terms[..i])
    {
      assert terms[..i + 1][..i] == terms[..i];
      var pos := Find(s, terms[i]);
      if pos != -1 && (best == -1 || pos < best) {
        best := pos;
      }
    }
    assert terms[..|terms|] == terms;
  }

  /** `_extract_snippet`: the first match over all terms, then the window
      around it. */
  method ExtractSnippet(content: string, terms: seq<string>, snippetLength: nat) returns (snippet: string)
    ensures snippet == Snippet(content, terms, snippetLength)
  {
    var best := FindFirstMatch(Lower(content), terms);
    if best == -1 {
      if |content| > snippetLength {
        return Strip(content[..snippetLength]) + "...";
      }
      return Strip(content);
    }
    var start := if best < snippetLength / 2 then 0 else best - snippetLength / 2;
    var end := if |content| < start + snippetLength then |content| else start + snippetLength;
    assert (start, end) == Window(best, |content|, snippetLength);
    snippet := Strip(content[start..end]);
    if start > 0 {
      snippet := "..." + snippet;
    }
    if end < |content| {
      snippet := snippet + "...";
    }
  }

  /** A search result. Its relevance is a given value; its title, file size
      and modification date are not modelled. */
  datatype Hit = Hit(filePath: string, kind: string, content: string, relevanceScore: real)

  /** The order of `sort(key=relevance_score, reverse=True)`. */
  predicate ScoreAtLeast(a: Hit, b: Hit) {
    a.relevanceScore >= b.relevanceScore
  }

  lemma ScoreAtLeastTotalPreorder()
    ensures TotalPreorder(ScoreAtLeast)
  {
  }

  /** `len(results[:max_results])`: a negative bound drops that many results
      from the end. */
  function KeptCount(n: nat, maxResults: int): (k: nat)
    ensures k <= n
    ensures maxResults >= 0 ==> k == if maxResults < n then maxResults else n
    ensures maxResults < 0 && -maxResults <= n ==> k == n - (-maxResults)
    ensures maxResults < 0 && -maxResults > n ==> k == 0
  {
    if maxResults >= 0 then (if maxResults < n then maxResults else n)
    else if n + maxResults < 0 then 0 else n + maxResults
  }

  /** Cutting a list sorted by decreasing relevance keeps a prefix that
      scores at least as high as everything it drops. */
  lemma SortedPrefixDominates(sorted: seq<Hit>, k: nat)
    requires SortedBy(sorted, ScoreAtLeast) && k <= |sorted|
    ensures SortedBy(sorted[..k], ScoreAtLeast)
    ensures multiset(sorted[..k]) <= multiset(sorted)
    ensures forall x, y :: x in sorted[..k] && y in multiset(sorted) - multiset(sorted[..k]) ==> y.relevanceScore <= x.relevanceScore
  {
    assert sorted == sorted[..k] + sorted[k..];
    assert multiset(sorted) == multiset(sorted[..k]) + multiset(sorted[k..]);
    forall x, y | x in sorted[..k] && y in multiset(sorted) - multiset(sorted[..k])
      ensures y.relevanceScore <= x.relevanceScore
    {
      var i :| 0 <= i < k && sorted[i] == x;
      assert y in sorted[k..];
      var j :| 0 <= j < |sorted| - k && sorted[k..][j] == y;
      assert ScoreAtLeast(sorted[i], sorted[k + j]);
    }
  }

  /** The sort and the cut of `_search_files`: the results ordered by
      decreasing relevance and cut to `max_results`. None of the results
      left out scores above a result kept. */
  method TopResults(hits: seq<Hit>, maxResults: int) returns (r: seq<Hit>)
    ensures |r| == KeptCount(|hits|, maxResults)
    ensures SortedBy(r, ScoreAtLeast)
    ensures multiset(r) <= multiset(hits)
    ensures forall x, y :: x in r && y in multiset(hits) - multiset(r) ==> y.relevanceScore <= x.relevanceScore
  {
    ScoreAtLeastTotalPreorder();
    var sorted := SortBy(hits, ScoreAtLeast);
    var k := KeptCount(|hits|, maxResults);
    assert |sorted| == |hits| by {
      assert |multiset(sorted)| == |multiset(hits)|;
    }
    SortedPrefixDominates(sorted, k);
    r := sorted[..k];
  }
}
