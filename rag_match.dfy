/**
 * `detect_problem` and `check_rag_relevance` of backend/rag_core.py: matching a user's text against
 * the problem keys of the lookup table, and judging retrieved documents by shared keywords.
 * The table is iterated in its insertion order, `Dict.keys`.
 */
module RagMatch {
  import opened Wrappers
  import opened Text
  import opened Dicts
  import opened RagCsv

  // ---------------------------------------------------------------- first-best selection

  /**
   * The `(best, max)` pair a left-to-right scan leaves when it starts from `(None, 0)` and takes
   * position j whenever `scores[j] > max`.
   */
  function BestOf(scores: seq<int>): (r: (int, Option<nat>))
    ensures r.1.Some? ==> r.1.value < |scores|
    decreases |scores|
  {
    if scores == [] then (0, None)
    else
      var p := BestOf(scores[..|scores| - 1]);
      var last := |scores| - 1;
      if scores[last] > p.0 then (scores[last], Some(last)) else p
  }

  /** The scan picks the first position of the largest positive score, and nothing when no score is positive. */
  lemma {:induction false} BestOfSpec(scores: seq<int>)
    ensures BestOf(scores).0 >= 0
    ensures BestOf(scores).1.None? ==> BestOf(scores).0 == 0 && forall j :: 0 <= j < |scores| ==> scores[j] <= 0
    ensures BestOf(scores).1.Some? ==>
      var b := BestOf(scores).1.value;
      && b < |scores| && scores[b] == BestOf(scores).0 > 0
      && (forall j :: 0 <= j < |scores| ==> scores[j] <= scores[b])
      && (forall j :: 0 <= j < b ==> scores[j] < scores[b])
    decreases |scores|
  {
    if scores != [] {
      var n := |scores| - 1;
      var prefix := scores[..n];
      BestOfSpec(prefix);
      assert forall j :: 0 <= j < n ==> prefix[j] == scores[j];
    }
  }

  /** One more step of the scan. */
  lemma BestOfStep(scores: seq<int>, k: int)
    requires 0 <= k < |scores|
    ensures BestOf(scores[..k + 1])
      == if scores[k] > BestOf(scores[..k]).0 then (scores[k], Some(k)) else BestOf(scores[..k])
  {
    assert scores[..k + 1][..k] == scores[..k];
  }

  // ---------------------------------------------------------------- detect_problem

  /** The first position from `i` on whose key, lowered, equals `t`. */
  function FirstExact(keys: seq<string>, t: string, i: nat): Option<nat>
    decreases |keys| - i
  {
    if i >= |keys| then None
    else if Lower(keys[i]) == t then Some(i)
    else FirstExact(keys, t, i + 1)
  }

  lemma {:induction false} FirstExactSpec(keys: seq<string>, t: string, i: nat)
    ensures FirstExact(keys, t, i).Some? ==>
      var b := FirstExact(keys, t, i).value;
      i <= b < |keys| && Lower(keys[b]) == t && forall j :: i <= j < b ==> Lower(keys[j]) != t
    ensures FirstExact(keys, t, i).None? ==> forall j :: i <= j < |keys| ==> Lower(keys[j]) != t
    decreases |keys| - i
  {
    if i < |keys| && Lower(keys[i]) != t {
      FirstExactSpec(keys, t, i + 1);
    }
  }

  /** Score of a key in the substring tier: its length when it occurs, lowered, in `t`. */
  function ContainedScores(keys: seq<string>, t: string): (r: seq<int>)
    ensures |r| == |keys|
  {
    seq(|keys|, j requires 0 <= j < |keys| => if Contains(t, Lower(keys[j])) then |keys[j]| else 0)
  }

  /** Number of keywords a key shares with the text's keyword set `tk`. */
  function Common(tk: set<string>, key: string): nat {
    |tk * Keywords(Lower(key))|
  }

  /** Score of a key in the keyword tier: the shared-keyword count when it is at least 2. */
  function OverlapScores(keys: seq<string>, tk: set<string>): (r: seq<int>)
    ensures |r| == |keys|
  {
    seq(|keys|, j requires 0 <= j < |keys| => if Common(tk, keys[j]) >= 2 then Common(tk, keys[j]) else 0)
  }

  function KeyAt(keys: seq<string>, b: Option<nat>): Option<string> {
    if b.Some? && b.value < |keys| then Some(keys[b.value]) else None
  }

  /** What `detect_problem(text, table)` returns. */
  function DetectSpec(table: Dict<Entry>, text: string): Option<string> {
    if table.IsEmpty() || text == "" then None
    else
      var t := Normalize(text);
      var exact := FirstExact(table.keys, t, 0);
      if exact.Some? then KeyAt(table.keys, exact) else ApproximateMatch(table.keys, t)
  }

  /** The second and third tiers: the longest contained key, else the largest keyword overlap when the text has two keywords. */
  function ApproximateMatch(keys: seq<string>, t: string): Option<string> {
    var contained := BestOf(ContainedScores(keys, t)).1;
    if contained.Some? then KeyAt(keys, contained)
    else if |Keywords(t)| < 2 then None
    else KeyAt(keys, BestOf(OverlapScores(keys, Keywords(t))).1)
  }

  /** The first loop of `detect_problem`: the first key equal to the normalised text once lowered. */
  method ExactMatch(keys: seq<string>, textLower: string) returns (r: Option<string>)
    ensures r == KeyAt(keys, FirstExact(keys, textLower, 0))
  {
    var i := 0;
    while i < |keys|
      invariant 0 <= i <= |keys|
      invariant FirstExact(keys, textLower, 0) == FirstExact(keys, textLower, i)
    {
      if Lower(keys[i]) == textLower {
        return Some(keys[i]);
      }
      i := i + 1;
    }
    return None;
  }

  /** The second loop: the longest key contained in the text, the first one on ties, with its length. */
  method LongestContained(keys: seq<string>, textLower: string) returns (bestMatch: Option<string>, maxOverlap: int)
    ensures maxOverlap == BestOf(ContainedScores(keys, textLower)).0
    ensures bestMatch == KeyAt(keys, BestOf(ContainedScores(keys, textLower)).1)
  {
    bestMatch, maxOverlap := None, 0;
    ghost var scores := ContainedScores(keys, textLower);
    var i := 0;
    while i < |keys|
      invariant 0 <= i <= |keys|
      invariant (maxOverlap, bestMatch) == (BestOf(scores[..i]).0, KeyAt(keys, BestOf(scores[..i]).1))
    {
      BestOfStep(scores, i);
      BestOfSpec(scores[..i]);
      var problemKey := keys[i];
      if Contains(textLower, Lower(problemKey)) {
        if |problemKey| > maxOverlap {
          maxOverlap := |problemKey|;
          bestMatch := Some(problemKey);
        }
      }
      i := i + 1;
    }
    assert scores[..|keys|] == scores;
  }

  /** The third loop: the key sharing the most keywords (at least 2) with the text, the first one on ties. */
  method LargestOverlap(keys: seq<string>, textKeywords: set<string>) returns (bestMatch: Option<string>)
    ensures bestMatch == KeyAt(keys, BestOf(OverlapScores(keys, textKeywords)).1)
  {
    var maxOverlap := 0;
    bestMatch := None;
    ghost var overlaps := OverlapScores(keys, textKeywords);
    var i := 0;
    while i < |keys|
      invariant 0 <= i <= |keys|
      invariant (maxOverlap, bestMatch) == (BestOf(overlaps[..i]).0, KeyAt(keys, BestOf(overlaps[..i]).1))
    {
      BestOfStep(overlaps, i);
      var problemKeywords := Keywords(Lower(keys[i]));
      var commonKeywords := textKeywords * problemKeywords;
      if |commonKeywords| >= 2 && |commonKeywords| > maxOverlap {
        maxOverlap := |commonKeywords|;
        bestMatch := Some(keys[i]);
      }
      i := i + 1;
    }
    assert overlaps[..|keys|] == overlaps;
  }

  /** The second and third loops of `detect_problem`, run once the exact search has found nothing. */
  method Approximate(keys: seq<string>, textLower: string) returns (bestMatch: Option<string>)
    ensures bestMatch == ApproximateMatch(keys, textLower)
  {
    var maxOverlap;
    bestMatch, maxOverlap := LongestContained(keys, textLower);
    if bestMatch.None? {
      var textKeywords := Keywords(textLower);
      if |textKeywords| < 2 {
        return None;
      }
      bestMatch := LargestOverlap(keys, textKeywords);
    }
  }

  /** `detect_problem`: exact match, else longest contained key, else largest keyword overlap (at least 2). */
  method DetectProblem(text: string, problems: Dict<Entry>) returns (r: Option<string>)
    ensures r == DetectSpec(problems, text)
  {
    if problems.IsEmpty() || text == "" {
      return None;
    }
    var textLower := Strip(Lower(text));
    var keys := problems.keys;
    r := ExactMatch(keys, textLower);
    if r.Some? {
      return r;
    }
    assert FirstExact(keys, textLower, 0).None? by {
      if FirstExact(keys, textLower, 0).Some? {
        FirstExactSpec(keys, textLower, 0);
      }
    }
    r := Approximate(keys, textLower);
  }

  /** No table or no text: no match. */
  lemma DetectNone(table: Dict<Entry>, text: string)
    requires table.IsEmpty() || text == ""
    ensures DetectSpec(table, text) == None
  {
  }

  /** A match is always a key of the table. */
  lemma DetectIsKey(table: Dict<Entry>, text: string)
    requires table.Valid()
    ensures DetectSpec(table, text).Some? ==> DetectSpec(table, text).value in table.m
  {
    if DetectSpec(table, text).Some? {
      assert DetectSpec(table, text).value in table.keys;
    }
  }

  /** An exact case-insensitive match wins over every other tier, and the first such key in table order is taken. */
  lemma DetectExactFirst(table: Dict<Entry>, text: string, i: int)
    requires !table.IsEmpty() && text != ""
    requires 0 <= i < |table.keys| && Lower(table.keys[i]) == Normalize(text)
    requires forall j :: 0 <= j < i ==> Lower(table.keys[j]) != Normalize(text)
    ensures DetectSpec(table, text) == Some(table.keys[i])
  {
    FirstExactSpec(table.keys, Normalize(text), 0);
  }

  /**
   * Without an exact match, a contained key is chosen when one exists: it is among the longest keys contained
   * in the normalised text, and no earlier key contained in the text is as long.
   */
  lemma DetectLongestContained(table: Dict<Entry>, text: string)
    requires !table.IsEmpty() && text != ""
    requires forall j :: 0 <= j < |table.keys| ==> Lower(table.keys[j]) != Normalize(text)
    requires exists j :: 0 <= j < |table.keys| && table.keys[j] != "" && Contains(Normalize(text), Lower(table.keys[j]))
    ensures DetectSpec(table, text).Some?
    ensures var t, keys := Normalize(text), table.keys;
      exists b :: 0 <= b < |keys| && DetectSpec(table, text) == Some(keys[b])
        && Contains(t, Lower(keys[b]))
        && (forall j :: 0 <= j < |keys| && Contains(t, Lower(keys[j])) ==> |keys[j]| <= |keys[b]|)
        && (forall j :: 0 <= j < b && Contains(t, Lower(keys[j])) ==> |keys[j]| < |keys[b]|)
  {
    var t, keys := Normalize(text), table.keys;
    FirstExactSpec(keys, t, 0);
    var scores := ContainedScores(keys, t);
    BestOfSpec(scores);
    var j :| 0 <= j < |keys| && keys[j] != "" && Contains(t, Lower(keys[j]));
    assert scores[j] > 0;
    var b := BestOf(scores).1.value;
    assert DetectSpec(table, text) == Some(keys[b]);
    assert scores[b] > 0;
    forall j | 0 <= j < |keys| && Contains(t, Lower(keys[j]))
      ensures |keys[j]| <= |keys[b]|
    {
      assert scores[j] == |keys[j]|;
    }
    forall j | 0 <= j < b && Contains(t, Lower(keys[j]))
      ensures |keys[j]| < |keys[b]|
    {
      assert scores[j] == |keys[j]|;
    }
  }

  /**
   * A keyword-tier match shares at least two keywords with a text that has at least two, and no key
   * shares more; keys seen earlier share fewer.
   */
  lemma DetectByOverlap(table: Dict<Entry>, text: string)
    requires !table.IsEmpty() && text != ""
    requires forall j :: 0 <= j < |table.keys| ==> Lower(table.keys[j]) != Normalize(text)
    requires forall j :: 0 <= j < |table.keys| ==> table.keys[j] == "" || !Contains(Normalize(text), Lower(table.keys[j]))
    ensures var tk, keys := Keywords(Normalize(text)), table.keys;
      DetectSpec(table, text).Some? <==> |tk| >= 2 && exists j :: 0 <= j < |keys| && Common(tk, keys[j]) >= 2
    ensures var tk, keys := Keywords(Normalize(text)), table.keys;
      DetectSpec(table, text).Some? ==>
      exists b :: 0 <= b < |keys| && DetectSpec(table, text) == Some(keys[b])
        && Common(tk, keys[b]) >= 2
        && (forall j :: 0 <= j < |keys| ==> Common(tk, keys[j]) <= Common(tk, keys[b]))
        && (forall j :: 0 <= j < b ==> Common(tk, keys[j]) < Common(tk, keys[b]))
  {
    var t, keys := Normalize(text), table.keys;
    OverlapTier(table, text);
    LargestOverlapSpec(keys, Keywords(t));
    OverlapFound(keys, Keywords(t));
  }

  /** With no exact and no contained key, the result is the keyword tier's. */
  lemma OverlapTier(table: Dict<Entry>, text: string)
    requires !table.IsEmpty() && text != ""
    requires forall j :: 0 <= j < |table.keys| ==> Lower(table.keys[j]) != Normalize(text)
    requires forall j :: 0 <= j < |table.keys| ==> table.keys[j] == "" || !Contains(Normalize(text), Lower(table.keys[j]))
    ensures var t := Normalize(text);
      DetectSpec(table, text) == if |Keywords(t)| < 2 then None else KeyAt(table.keys, BestOf(OverlapScores(table.keys, Keywords(t))).1)
  {
    FirstExactSpec(table.keys, Normalize(text), 0);
    NothingContained(table.keys, Normalize(text));
  }

  /** The keyword tier finds a key exactly when some key shares at least two keywords. */
  lemma OverlapFound(keys: seq<string>, tk: set<string>)
    ensures BestOf(OverlapScores(keys, tk)).1.Some? <==> exists j :: 0 <= j < |keys| && Common(tk, keys[j]) >= 2
  {
    var overlaps := OverlapScores(keys, tk);
    BestOfSpec(overlaps);
    if exists j :: 0 <= j < |keys| && Common(tk, keys[j]) >= 2 {
      var j :| 0 <= j < |keys| && Common(tk, keys[j]) >= 2;
      assert overlaps[j] > 0;
    }
    if BestOf(overlaps).1.Some? {
      assert overlaps[BestOf(overlaps).1.value] > 0;
    }
  }

  lemma NothingContained(keys: seq<string>, t: string)
    requires forall j :: 0 <= j < |keys| ==> keys[j] == "" || !Contains(t, Lower(keys[j]))
    ensures BestOf(ContainedScores(keys, t)).1.None?
  {
    var scores := ContainedScores(keys, t);
    BestOfSpec(scores);
    assert forall j :: 0 <= j < |keys| ==> scores[j] == 0;
  }

  lemma LargestOverlapSpec(keys: seq<string>, tk: set<string>)
    ensures var b := BestOf(OverlapScores(keys, tk)).1;
      b.Some? ==>
        && Common(tk, keys[b.value]) >= 2
        && (forall j :: 0 <= j < |keys| ==> Common(tk, keys[j]) <= Common(tk, keys[b.value]))
        && (forall j :: 0 <= j < b.value ==> Common(tk, keys[j]) < Common(tk, keys[b.value]))
  {
    var overlaps := OverlapScores(keys, tk);
    BestOfSpec(overlaps);
    if BestOf(overlaps).1.Some? {
      var b := BestOf(overlaps).1.value;
      assert overlaps[b] > 0;
      forall j | 0 <= j < |keys|
        ensures Common(tk, keys[j]) <= Common(tk, keys[b])
      {
        assert overlaps[j] <= overlaps[b];
      }
      forall j | 0 <= j < b
        ensures Common(tk, keys[j]) < Common(tk, keys[b])
      {
        assert overlaps[j] < overlaps[b];
      }
    }
  }

  // ---------------------------------------------------------------- check_rag_relevance

  /** A retrieved document counts as relevant by keyword overlap (at least 2) or by its problem occurring in the query. */
  predicate RelevantDoc(doc: Document, queryKeywords: set<string>, queryLower: string) {
    || |queryKeywords * Keywords(Lower(doc.pageContent))| >= 2
    || (Lower(doc.metadata.problem) != "" && Contains(queryLower, Lower(doc.metadata.problem)))
  }

  /** What `check_rag_relevance(docs, query)` decides. */
  predicate RagRelevant(docs: seq<Document>, query: string) {
    && docs != []
    && (Keywords(Lower(query)) == {}
        || exists i :: 0 <= i < |docs| && RelevantDoc(docs[i], Keywords(Lower(query)), Lower(query)))
  }

  /** `check_rag_relevance`: counts the relevant documents and reports whether there was any. */
  method CheckRagRelevance(sourceDocuments: seq<Document>, query: string) returns (isRelevant: bool)
    ensures isRelevant == RagRelevant(sourceDocuments, query)
  {
    if sourceDocuments == [] {
      return false;
    }
    var queryLower := Lower(query);
    var queryKeywords := Keywords(queryLower);
    if queryKeywords == {} {
      return true;
    }
    var relevantDocsCount := 0;
    var minKeywordOverlap := 2;
    var i := 0;
    while i < |sourceDocuments|
      invariant 0 <= i <= |sourceDocuments|
      invariant relevantDocsCount >= 0
      invariant relevantDocsCount > 0 <==> exists j :: 0 <= j < i && RelevantDoc(sourceDocuments[j], queryKeywords, queryLower)
    {
      var doc := sourceDocuments[i];
      ghost var before := relevantDocsCount;
      ghost var relevant := RelevantDoc(doc, queryKeywords, queryLower);
      var docKeywords := Keywords(Lower(doc.pageContent));
      var overlap := |queryKeywords * docKeywords|;
      if overlap >= minKeywordOverlap {
        relevantDocsCount := relevantDocsCount + 1;
      } else {
        var docProblem := Lower(doc.metadata.problem);
        if docProblem != "" && Contains(queryLower, docProblem) {
          relevantDocsCount := relevantDocsCount + 1;
        }
      }
      assert relevantDocsCount == before + (if relevant then 1 else 0);
      RelevanceStep(sourceDocuments, queryKeywords, queryLower, i, relevant);
      i := i + 1;
    }
    isRelevant := relevantDocsCount > 0;
  }

  lemma RelevanceStep(docs: seq<Document>, qk: set<string>, ql: string, i: int, relevant: bool)
    requires 0 <= i < |docs| && relevant == RelevantDoc(docs[i], qk, ql)
    ensures (exists j :: 0 <= j < i + 1 && RelevantDoc(docs[j], qk, ql))
      <==> (relevant || exists j :: 0 <= j < i && RelevantDoc(docs[j], qk, ql))
  {
  }

  /** A document whose problem text occurs in the query makes the retrieval relevant. */
  lemma RelevanceByProblem(docs: seq<Document>, query: string, i: int)
    requires 0 <= i < |docs| && docs[i].metadata.problem != ""
    requires Contains(Lower(query), Lower(docs[i].metadata.problem))
    ensures RagRelevant(docs, query)
  {
    assert Lower(docs[i].metadata.problem) != "";
    assert RelevantDoc(docs[i], Keywords(Lower(query)), Lower(query));
  }
}
