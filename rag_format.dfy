/**
 * `format_web_results_for_llm` of backend/rag_core.py: the web search results laid out as text for
 * the language model, within a character budget (WEB_SEARCH_RESULT_MAX_CHARS by default).
 */
module RagFormat {
  import opened Wrappers
  import opened Text

  /** One web search result; `None` is a key missing from the result dictionary. */
  datatype WebResult = WebResult(title: Option<string>, url: Option<string>, content: Option<string>)

  const Separator: string := "\n\n---\n\n"
  const NoResults: string := "No web search results found."
  const Dots: string := "..."

  /** `f"Result {i+1}:\nSource: {url}\nTitle: {title}"`, the short entry. */
  function WebShort(i: int, r: WebResult): string {
    "Result " + IntToString(i + 1) + ":\nSource: " + r.url.GetOr("N/A") + "\nTitle: " + r.title.GetOr("N/A")
  }

  /** The short entry followed by `"\nContent: "`. */
  function WebHeader(i: int, r: WebResult): string {
    WebShort(i, r) + "\nContent: "
  }

  /** `res.get('content', '').strip()`. */
  function WebContent(r: WebResult): string {
    Strip(r.content.GetOr(""))
  }

  /** The full entry of result i. */
  function WebEntry(i: int, r: WebResult): (e: string)
    ensures |e| > |WebShort(i, r)|
  {
    WebHeader(i, r) + WebContent(r)
  }

  function Entries(results: seq<WebResult>): (es: seq<string>)
    ensures |es| == |results|
  {
    seq(|results|, i requires 0 <= i < |results| => WebEntry(i, results[i]))
  }

  /** Python's `s[:n]` for `n >= 0`. */
  function Take(s: string, n: nat): (r: string)
    ensures |r| == if n < |s| then n else |s|
  {
    if n < |s| then s[..n] else s
  }

  /** The first result cut to the budget, as written: the header, then the content cut to the room left plus "...". */
  function TruncatedFirst(r: WebResult, maxChars: int): string {
    var available := maxChars - |WebHeader(0, r)|;
    WebHeader(0, r) + (if available > 3 then Take(WebContent(r), available) + Dots else "")
  }

  /** The largest k <= n whose first k entries, joined, fit the budget (0 when none does). */
  function LargestFit(es: seq<string>, maxChars: int, n: nat): (k: nat)
    requires n <= |es|
    ensures k <= n
  {
    if n == 0 then 0
    else if |Join(Separator, es[..n])| <= maxChars then n
    else LargestFit(es, maxChars, n - 1)
  }

  /** The short entry of result k when it still fits after the first k full entries. */
  function ShortTail(results: seq<WebResult>, maxChars: int, k: nat): seq<string>
    requires k <= |results|
  {
    var es := Entries(results);
    if k < |results| && |Join(Separator, es[..k])| + |Separator| + |WebShort(k, results[k])| <= maxChars
    then [WebShort(k, results[k])]
    else []
  }

  /**
   * The text `format_web_results_for_llm` returns: the fixed message for no results; the first result
   * truncated when it alone is over the budget; otherwise the longest run of full entries that fits,
   * followed by the next result's short entry when that still fits.
   */
  function WebLayout(results: seq<WebResult>, maxChars: int): string {
    if results == [] then NoResults
    else
      var es := Entries(results);
      if |es[0]| > maxChars then TruncatedFirst(results[0], maxChars)
      else
        var k := LargestFit(es, maxChars, |es|);
        Join(Separator, es[..k] + ShortTail(results, maxChars, k))
  }

  // ---------------------------------------------------------------- lengths of joined prefixes

  /** Joining one more entry adds the separator and that entry. */
  lemma JoinPrefixStep(es: seq<string>, k: nat)
    requires 1 <= k < |es|
    ensures Join(Separator, es[..k + 1]) == Join(Separator, es[..k]) + Separator + es[k]
  {
    assert es[..k + 1][..k] == es[..k];
  }

  /** Longer prefixes join to strictly longer text. */
  lemma {:induction false} JoinPrefixGrows(es: seq<string>, j: nat, k: nat)
    requires 1 <= j < k <= |es|
    ensures |Join(Separator, es[..j])| < |Join(Separator, es[..k])|
    decreases k
  {
    JoinPrefixStep(es, k - 1);
    if j < k - 1 {
      JoinPrefixGrows(es, j, k - 1);
    }
  }

  /** The downward search finds a prefix that fits, and no longer prefix up to n fits. */
  lemma {:induction false} LargestFitSpec(es: seq<string>, maxChars: int, n: nat)
    requires n <= |es|
    ensures LargestFit(es, maxChars, n) <= n
    ensures LargestFit(es, maxChars, n) > 0 ==> |Join(Separator, es[..LargestFit(es, maxChars, n)])| <= maxChars
    ensures forall j :: LargestFit(es, maxChars, n) < j <= n ==> |Join(Separator, es[..j])| > maxChars
  {
    if n > 0 && |Join(Separator, es[..n])| > maxChars {
      LargestFitSpec(es, maxChars, n - 1);
    }
  }

  /** When the first k entries fit and the first k + 1 do not (or there is no k + 1st), the search stops at k. */
  lemma LargestFitAt(es: seq<string>, maxChars: int, k: nat)
    requires 1 <= k <= |es| && |Join(Separator, es[..k])| <= maxChars
    requires k < |es| ==> |Join(Separator, es[..k + 1])| > maxChars
    ensures LargestFit(es, maxChars, |es|) == k
  {
    LargestFitSpec(es, maxChars, |es|);
    var r := LargestFit(es, maxChars, |es|);
    if r > k {
      JoinPrefixGrows(es, k + 1, r);
      assert false;
    }
  }

  // ---------------------------------------------------------------- the loop

  /** Join of a single part is that part. */
  lemma JoinOne(x: string)
    ensures Join(Separator, [x]) == x
  {
  }

  /** The layout when the first result alone is over the budget. */
  lemma LayoutTruncated(results: seq<WebResult>, maxChars: int)
    requires results != [] && |WebEntry(0, results[0])| > maxChars
    ensures WebLayout(results, maxChars) == Join(Separator, [TruncatedFirst(results[0], maxChars)])
  {
    JoinOne(TruncatedFirst(results[0], maxChars));
  }

  /** The layout when exactly the first k full entries fit. */
  lemma LayoutAt(results: seq<WebResult>, maxChars: int, k: nat)
    requires 1 <= k <= |results| && |WebEntry(0, results[0])| <= maxChars
    requires |Join(Separator, Entries(results)[..k])| <= maxChars
    requires k < |results| ==> |Join(Separator, Entries(results)[..k + 1])| > maxChars
    ensures WebLayout(results, maxChars) == Join(Separator, Entries(results)[..k] + ShortTail(results, maxChars, k))
  {
    LargestFitAt(Entries(results), maxChars, k);
  }

  /** The loop's exit at the first result when its entry alone is over the budget: keep one truncated entry. */
  method TruncateFirst(searchResults: seq<WebResult>, maxChars: int) returns (text: string)
    requires searchResults != [] && |WebEntry(0, searchResults[0])| > maxChars
    ensures text == WebLayout(searchResults, maxChars)
  {
    var res := searchResults[0];
    var content := WebContent(res);
    var availableChars := maxChars - |WebHeader(0, res)|;
    var truncatedContent := if availableChars > 3 then Take(content, availableChars) + Dots else "";
    var formatted := [WebHeader(0, res) + truncatedContent];
    LayoutTruncated(searchResults, maxChars);
    text := Join(Separator, formatted);
  }

  /** The loop's exit at result i >= 1, whose full entry no longer fits: add its short entry if that fits, then join. */
  method StopAfter(searchResults: seq<WebResult>, maxChars: int, i: nat, formatted: seq<string>, totalChars: int)
    returns (text: string)
    requires 1 <= i < |searchResults| && |WebEntry(0, searchResults[0])| <= maxChars
    requires formatted == Entries(searchResults)[..i]
    requires totalChars == |Join(Separator, Entries(searchResults)[..i])| <= maxChars
    requires totalChars + |Separator| + |WebEntry(i, searchResults[i])| > maxChars
    ensures text == WebLayout(searchResults, maxChars)
  {
    JoinPrefixStep(Entries(searchResults), i);
    LayoutAt(searchResults, maxChars, i);
    var res := searchResults[i];
    var shortEntry := WebShort(i, res);
    var shortLen := |shortEntry|;
    var result := formatted;
    if totalChars + |Separator| + shortLen <= maxChars {
      result := result + [shortEntry];
    }
    assert result == Entries(searchResults)[..i] + ShortTail(searchResults, maxChars, i);
    text := Join(Separator, result);
  }

  /** The loop's state after i results: their full entries kept, and `total_chars` the length of their join. */
  ghost predicate Kept(searchResults: seq<WebResult>, maxChars: int, i: nat, formatted: seq<string>, totalChars: int) {
    && i <= |searchResults|
    && formatted == Entries(searchResults)[..i]
    && (i == 0 ==> totalChars == 0)
    && (i > 0 ==> totalChars == |Join(Separator, formatted)| && |WebEntry(0, searchResults[0])| <= totalChars <= maxChars)
  }

  /** One more result adds its entry to the prefix of entries, and the separator and that entry to their join. */
  lemma EntriesStep(results: seq<WebResult>, i: nat)
    requires 1 <= i < |results|
    ensures Entries(results)[..i + 1] == Entries(results)[..i] + [WebEntry(i, results[i])]
    ensures |Join(Separator, Entries(results)[..i + 1])| == |Join(Separator, Entries(results)[..i])| + |Separator| + |WebEntry(i, results[i])|
  {
    var es := Entries(results);
    JoinPrefixStep(es, i);
    assert es[..i + 1] == es[..i] + [es[i]];
  }

  /** The loop's step at result i >= 1 when its full entry still fits: append it and add its length and the separator's. */
  method KeepNext(searchResults: seq<WebResult>, maxChars: int, i: nat, formatted: seq<string>, totalChars: int)
    returns (formatted': seq<string>, totalChars': int)
    requires 1 <= i < |searchResults| && Kept(searchResults, maxChars, i, formatted, totalChars)
    requires totalChars + |Separator| + |WebEntry(i, searchResults[i])| <= maxChars
    ensures Kept(searchResults, maxChars, i + 1, formatted', totalChars')
  {
    EntriesStep(searchResults, i);
    var entry := WebEntry(i, searchResults[i]);
    formatted' := formatted + [entry];
    totalChars' := totalChars + |Separator| + |entry|;
  }

  /** `format_web_results_for_llm`: the loop over the results with its running `total_chars`. */
  method FormatWebResultsForLlm(searchResults: seq<WebResult>, maxChars: int) returns (text: string)
    ensures text == WebLayout(searchResults, maxChars)
  {
    if searchResults == [] {
      return NoResults;
    }
    var formatted: seq<string> := [];
    var totalChars := 0;
    var separator := Separator;
    var sepLen := |separator|;
    var i := 0;
    while i < |searchResults|
      invariant Kept(searchResults, maxChars, i, formatted, totalChars)
    {
      var res := searchResults[i];
      var entry := WebEntry(i, res);
      var entryLen := |entry|;
      if totalChars == 0 {
        if entryLen <= maxChars {
          formatted := formatted + [entry];
          totalChars := totalChars + entryLen;
          JoinOne(entry);
          assert formatted == Entries(searchResults)[..1];
        } else {
          text := TruncateFirst(searchResults, maxChars);
          return;
        }
      } else if totalChars + sepLen + entryLen <= maxChars {
        formatted, totalChars := KeepNext(searchResults, maxChars, i, formatted, totalChars);
      } else {
        text := StopAfter(searchResults, maxChars, i, formatted, totalChars);
        return;
      }
      i := i + 1;
    }
    LayoutAt(searchResults, maxChars, i);
    assert formatted == Entries(searchResults)[..i] + ShortTail(searchResults, maxChars, i);
    text := Join(separator, formatted);
  }

  // ---------------------------------------------------------------- properties

  /** When the first result fits in full, the search stops at the longest run of full entries that fits. */
  lemma LayoutPrefix(results: seq<WebResult>, maxChars: int)
    requires results != [] && |WebEntry(0, results[0])| <= maxChars
    ensures var es, k := Entries(results), LargestFit(Entries(results), maxChars, |results|);
      && 1 <= k <= |results|
      && |Join(Separator, es[..k])| <= maxChars
      && (k < |results| ==> |Join(Separator, es[..k + 1])| > maxChars)
      && WebLayout(results, maxChars) == Join(Separator, es[..k] + ShortTail(results, maxChars, k))
  {
    var es := Entries(results);
    LargestFitSpec(es, maxChars, |es|);
    JoinOne(es[0]);
    assert es[..1] == [es[0]];
  }

  /**
   * When the first result fits in full, the text is the first k full entries for some k >= 1, in order,
   * where the first k + 1 would not fit, optionally followed by result k's short entry.
   */
  lemma WebLayoutShape(results: seq<WebResult>, maxChars: int)
    requires results != [] && |WebEntry(0, results[0])| <= maxChars
    ensures exists k, tail ::
      && 1 <= k <= |results|
      && WebLayout(results, maxChars) == Join(Separator, Entries(results)[..k] + tail)
      && (k < |results| ==> |Join(Separator, Entries(results)[..k + 1])| > maxChars)
      && (tail == [] || (k < |results| && tail == [WebShort(k, results[k])]))
  {
    LayoutPrefix(results, maxChars);
    var k := LargestFit(Entries(results), maxChars, |results|);
    var tail := ShortTail(results, maxChars, k);
    assert tail == [] || (k < |results| && tail == [WebShort(k, results[k])]);
  }

  /** When the first result fits in full, the whole text is within the budget. */
  lemma WebLayoutWithinBudget(results: seq<WebResult>, maxChars: int)
    requires results != [] && |WebEntry(0, results[0])| <= maxChars
    ensures |WebLayout(results, maxChars)| <= maxChars
  {
    LayoutPrefix(results, maxChars);
    var es := Entries(results);
    var k := LargestFit(es, maxChars, |results|);
    var tail := ShortTail(results, maxChars, k);
    if tail != [] {
      JoinSnoc(Separator, es[..k], tail[0]);
      assert es[..k] + tail == es[..k] + [tail[0]];
    } else {
      assert es[..k] + tail == es[..k];
    }
  }

  /** The empty result list gives the fixed message. */
  lemma WebLayoutEmpty(maxChars: int)
    ensures WebLayout([], maxChars) == "No web search results found."
    ensures |WebLayout([], maxChars)| == 28
  {
  }

  /**
   * As written, a first result over the budget whose header leaves more than 3 characters of room comes
   * out 3 characters OVER the budget: the content is cut to the room left and "..." is added after it.
   */
  lemma TruncationOverrun(results: seq<WebResult>, maxChars: int)
    requires results != [] && |WebEntry(0, results[0])| > maxChars
    requires maxChars - |WebHeader(0, results[0])| > 3
    ensures |WebLayout(results, maxChars)| == maxChars + 3
  {
  }

  /** An instance: one result whose 38-character header and 20-character content meet a budget of 45. */
  lemma TruncationOverrunExample()
    ensures var r := WebResult(Some("T"), Some("u"), Some("abcdefghijklmnopqrst"));
      |WebLayout([r], 45)| == 48
  {
    var r := WebResult(Some("T"), Some("u"), Some("abcdefghijklmnopqrst"));
    assert IntToString(0 + 1) == "1";
    assert |WebHeader(0, r)| == 38;
    assert WebContent(r) == "abcdefghijklmnopqrst" by {
      assert StripLeft("abcdefghijklmnopqrst") == "abcdefghijklmnopqrst";
      assert StripRight("abcdefghijklmnopqrst") == "abcdefghijklmnopqrst";
    }
    TruncationOverrun([r], 45);
  }

  /** The first result cut so that the content plus "..." takes exactly the room left. */
  function TruncatedFirstCorrected(r: WebResult, maxChars: int): (t: string)
    ensures var available := maxChars - |WebHeader(0, r)|;
      && (available > 3 && |WebEntry(0, r)| > maxChars ==> |t| == maxChars)
      && (available >= 0 ==> |t| <= maxChars)
  {
    var available := maxChars - |WebHeader(0, r)|;
    WebHeader(0, r) + (if available > 3 then Take(WebContent(r), available - 3) + Dots else "")
  }

  /** `WebLayout` with the corrected truncation. */
  function WebLayoutCorrected(results: seq<WebResult>, maxChars: int): string {
    if results == [] then NoResults
    else if |WebEntry(0, results[0])| > maxChars then TruncatedFirstCorrected(results[0], maxChars)
    else WebLayout(results, maxChars)
  }

  /** With the corrected truncation, any result list whose first header fits yields text within the budget. */
  lemma WebLayoutCorrectedWithinBudget(results: seq<WebResult>, maxChars: int)
    requires results != [] && |WebHeader(0, results[0])| <= maxChars
    ensures |WebLayoutCorrected(results, maxChars)| <= maxChars
  {
    if |WebEntry(0, results[0])| <= maxChars {
      WebLayoutWithinBudget(results, maxChars);
    }
  }
}
