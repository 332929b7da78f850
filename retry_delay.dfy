/**
 * The retry hint of backend/main.py's rate-limit handlers: `re.search(r"retry_delay {\s*seconds: (\d+)\s*}", text)`
 * and the sentence built from its group. In this pattern `{` is a literal brace, `\s` a whitespace
 * character and `\d` a decimal digit (ASCII).
 */
module RetryDelay {
  import opened Wrappers
  import opened Text

  const Opening: string := "retry_delay {"
  const SecondsLabel: string := "seconds: "
  const BusyMessage: string := "The AI service is temporarily busy due to high demand."
  const LaterHint: string := " Please try again later."

  /** Number of whitespace characters at the front of `s`. */
  function SpaceRun(s: string): (n: nat)
    ensures n <= |s|
    decreases |s|
  {
    if s != "" && IsSpace(s[0]) then 1 + SpaceRun(s[1..]) else 0
  }

  /** Number of digits at the front of `s`. */
  function DigitRun(s: string): (n: nat)
    ensures n <= |s|
    decreases |s|
  {
    if s != "" && IsDigit(s[0]) then 1 + DigitRun(s[1..]) else 0
  }

  /** The whitespace run is the longest whitespace prefix. */
  lemma {:induction false} SpaceRunSpec(s: string)
    ensures forall i :: 0 <= i < SpaceRun(s) ==> IsSpace(s[i])
    ensures SpaceRun(s) < |s| ==> !IsSpace(s[SpaceRun(s)])
    decreases |s|
  {
    if s != "" && IsSpace(s[0]) {
      SpaceRunSpec(s[1..]);
    }
  }

  /** The digit run is the longest digit prefix. */
  lemma {:induction false} DigitRunSpec(s: string)
    ensures forall i :: 0 <= i < DigitRun(s) ==> IsDigit(s[i])
    ensures DigitRun(s) < |s| ==> !IsDigit(s[DigitRun(s)])
    decreases |s|
  {
    if s != "" && IsDigit(s[0]) {
      DigitRunSpec(s[1..]);
    }
  }

  /**
   * The pattern matched at position i, with its digit group. Every repetition is followed by a character it
   * cannot consume (`s`, a non-digit, `}`), so the greedy runs are the only way to match.
   */
  function MatchAt(s: string, i: nat): Option<string> {
    if !(i + |Opening| <= |s| && s[i..i + |Opening|] == Opening) then None
    else SecondsAt(s, i + |Opening| + SpaceRun(s[i + |Opening|..]))
  }

  /** The rest of the pattern from `seconds: ` at position j. */
  function SecondsAt(s: string, j: nat): Option<string> {
    if !(j + |SecondsLabel| <= |s| && s[j..j + |SecondsLabel|] == SecondsLabel) then None
    else DigitsAt(s, j + |SecondsLabel|)
  }

  /** The rest of the pattern from the digit group at position k: digits, whitespace, `}`. */
  function DigitsAt(s: string, k: nat): Option<string> {
    if k > |s| then None
    else
      var d := DigitRun(s[k..]);
      if d == 0 then None
      else
        var m := k + d + SpaceRun(s[k + d..]);
        if m < |s| && s[m] == '}' then Some(s[k..k + d]) else None
  }

  /** The match at the first position from `i` up to `|s|` where the pattern matches: `re.search`'s leftmost match. */
  function FirstMatch(s: string, i: nat): Option<string>
    decreases |s| - i
  {
    if i > |s| then None
    else if MatchAt(s, i).Some? then MatchAt(s, i)
    else FirstMatch(s, i + 1)
  }

  /** `retry_match.group(1)`, when there is a match; the pattern is tried at every position 0 .. |s|. */
  function RetryDelaySeconds(s: string): Option<string> {
    FirstMatch(s, 0)
  }

  /** The sentence the rate-limit handlers answer with for the error text `s`. */
  function RateLimitMessage(s: string): string {
    match RetryDelaySeconds(s)
    case Some(n) => BusyMessage + " Please try again in about " + n + " seconds."
    case None => BusyMessage + LaterHint
  }

  /** A match always starts with the opening `retry_delay {` and yields a non-empty run of digits. */
  lemma MatchAtSpec(s: string, i: nat)
    ensures MatchAt(s, i).Some? ==>
      && OccursAt(s, Opening, i)
      && |MatchAt(s, i).value| > 0
      && forall c :: 0 <= c < |MatchAt(s, i).value| ==> IsDigit(MatchAt(s, i).value[c])
  {
    if MatchAt(s, i).Some? {
      var k := i + |Opening| + SpaceRun(s[i + |Opening|..]) + |SecondsLabel|;
      DigitRunSpec(s[k..]);
      assert MatchAt(s, i).value == s[k..k + DigitRun(s[k..])];
    }
  }

  /** The search finds the leftmost matching position, or reports none when no position matches. */
  lemma {:induction false} FirstMatchSpec(s: string, i: nat)
    ensures FirstMatch(s, i).Some? ==>
      exists p :: i <= p <= |s| && FirstMatch(s, i) == MatchAt(s, p) && forall q :: i <= q < p ==> MatchAt(s, q).None?
    ensures FirstMatch(s, i).None? ==> forall p :: i <= p <= |s| ==> MatchAt(s, p).None?
    decreases |s| - i
  {
    if i <= |s| {
      if MatchAt(s, i).Some? {
        assert FirstMatch(s, i) == MatchAt(s, i);
      } else {
        FirstMatchSpec(s, i + 1);
        if FirstMatch(s, i + 1).Some? {
          var p :| i + 1 <= p <= |s| && FirstMatch(s, i + 1) == MatchAt(s, p)
            && forall q :: i + 1 <= q < p ==> MatchAt(s, q).None?;
          assert forall q :: i <= q < p ==> MatchAt(s, q).None?;
        }
      }
    }
  }

  /** Without `retry_delay {` anywhere in the text, the hint is to try again later. */
  lemma NoOpeningMeansLater(s: string)
    requires !Contains(s, Opening)
    ensures RateLimitMessage(s) == BusyMessage + LaterHint
  {
    FirstMatchSpec(s, 0);
    if RetryDelaySeconds(s).Some? {
      var p :| 0 <= p <= |s| && FirstMatch(s, 0) == MatchAt(s, p);
      MatchAtSpec(s, p);
      assert false;
    }
  }

  /** A digit run followed by a non-digit is counted in full. */
  lemma {:induction false} DigitRunOfDigits(ds: string, rest: string)
    requires forall c :: 0 <= c < |ds| ==> IsDigit(ds[c])
    requires rest != [] && !IsDigit(rest[0])
    ensures DigitRun(ds + rest) == |ds|
    decreases |ds|
  {
    if ds != [] {
      assert (ds + rest)[1..] == ds[1..] + rest;
      DigitRunOfDigits(ds[1..], rest);
    }
  }

  /** Cutting a concatenation at the length of its first part gives back both parts. */
  lemma Cut(a: string, b: string)
    ensures (a + b)[..|a|] == a && (a + b)[|a|..] == b
  {
  }

  /** Slices of a suffix are slices of the whole. */
  lemma SuffixSlices(s: string, j: nat, k: nat)
    requires j + k <= |s|
    ensures s[j..][..k] == s[j..j + k] && s[j..][k..] == s[j + k..]
  {
  }

  /** A run of whitespace before a non-space character is counted in full. */
  lemma {:induction false} SpaceRunOfSpaces(ws: string, x: string)
    requires forall c :: 0 <= c < |ws| ==> IsSpace(ws[c])
    requires x != [] && !IsSpace(x[0])
    ensures SpaceRun(ws + x) == |ws|
    decreases |ws|
  {
    if ws != [] {
      assert (ws + x)[1..] == ws[1..] + x;
      SpaceRunOfSpaces(ws[1..], x);
    }
  }

  /** Whitespace and then `}` at position m. */
  lemma ClosingOfHint(s: string, m: nat, ws: string, close: string)
    requires forall c :: 0 <= c < |ws| ==> IsSpace(ws[c])
    requires close != [] && close[0] == '}'
    requires m <= |s| && s[m..] == ws + close
    ensures SpaceRun(s[m..]) == |ws| && m + |ws| < |s| && s[m + |ws|] == '}'
  {
    SpaceRunOfSpaces(ws, close);
    assert s[m + |ws|] == s[m..][|ws|];
  }

  /** The digit group, whitespace and `}` at position k. */
  lemma DigitsOfHint(s: string, k: nat, digits: string, ws: string, close: string)
    requires |digits| > 0 && forall c :: 0 <= c < |digits| ==> IsDigit(digits[c])
    requires forall c :: 0 <= c < |ws| ==> IsSpace(ws[c])
    requires close != [] && close[0] == '}'
    requires k <= |s| && s[k..] == digits + (ws + close)
    ensures DigitsAt(s, k) == Some(digits)
  {
    var d := |digits|;
    assert (ws + close)[0] == if ws == [] then '}' else ws[0];
    DigitRunOfDigits(digits, ws + close);
    SuffixSlices(s, k, d);
    Cut(digits, ws + close);
    ClosingOfHint(s, k + d, ws, close);
    DigitsAtUnfold(s, k, d, |ws|);
  }

  /** The digit stage accepts d digits at k followed by w whitespace characters and `}`. */
  lemma DigitsAtUnfold(s: string, k: nat, d: nat, w: nat)
    requires k <= |s| && d > 0 && DigitRun(s[k..]) == d
    requires SpaceRun(s[k + d..]) == w && k + d + w < |s| && s[k + d + w] == '}'
    ensures DigitsAt(s, k) == Some(s[k..k + d])
  {
  }

  /** `seconds: ` followed by the digit group, whitespace and `}` at position j. */
  lemma SecondsOfHint(s: string, j: nat, digits: string, ws: string, close: string)
    requires |digits| > 0 && forall c :: 0 <= c < |digits| ==> IsDigit(digits[c])
    requires forall c :: 0 <= c < |ws| ==> IsSpace(ws[c])
    requires close != [] && close[0] == '}'
    requires j <= |s| && s[j..] == SecondsLabel + (digits + (ws + close))
    ensures SecondsAt(s, j) == Some(digits)
  {
    SuffixSlices(s, j, |SecondsLabel|);
    Cut(SecondsLabel, digits + (ws + close));
    DigitsOfHint(s, j + |SecondsLabel|, digits, ws, close);
  }

  /** An opening and whitespace at i, then the text `u`. */
  lemma OpeningOfHint(s: string, i: nat, ws1: string, u: string)
    requires forall c :: 0 <= c < |ws1| ==> IsSpace(ws1[c])
    requires u != [] && u[0] == 's'
    requires i <= |s| && s[i..] == Opening + (ws1 + u)
    ensures i + |Opening| + |ws1| <= |s|
    ensures s[i..i + |Opening|] == Opening && SpaceRun(s[i + |Opening|..]) == |ws1|
    ensures s[i + |Opening| + |ws1|..] == u
  {
    var o := i + |Opening|;
    SuffixSlices(s, i, |Opening|);
    Cut(Opening, ws1 + u);
    SpaceRunOfSpaces(ws1, u);
    SuffixSlices(s, o, |ws1|);
    Cut(ws1, u);
  }

  /** The parts of the hint after `pre`, as the three stages of the match see them. */
  lemma HintFacts(s: string, pre: string, ws1: string, digits: string, ws2: string, rest: string)
    requires s == pre + Opening + ws1 + SecondsLabel + digits + ws2 + "}" + rest
    requires |digits| > 0 && forall c :: 0 <= c < |digits| ==> IsDigit(digits[c])
    requires forall c :: 0 <= c < |ws1| ==> IsSpace(ws1[c])
    requires forall c :: 0 <= c < |ws2| ==> IsSpace(ws2[c])
    ensures |pre| + |Opening| + |ws1| <= |s|
    ensures s[|pre|..|pre| + |Opening|] == Opening && SpaceRun(s[|pre| + |Opening|..]) == |ws1|
    ensures SecondsAt(s, |pre| + |Opening| + |ws1|) == Some(digits)
  {
    HintShape(pre, ws1, digits, ws2, rest);
    var u := SecondsLabel + (digits + (ws2 + ("}" + rest)));
    OpeningOfHint(s, |pre|, ws1, u);
    SecondsOfHint(s, |pre| + |Opening| + |ws1|, digits, ws2, "}" + rest);
  }

  /** Past an opening at i and n whitespace characters, the match continues with `seconds: `. */
  lemma MatchAtOpening(s: string, i: nat, n: nat)
    requires i + |Opening| <= |s| && s[i..i + |Opening|] == Opening
    requires SpaceRun(s[i + |Opening|..]) == n
    ensures MatchAt(s, i) == SecondsAt(s, i + |Opening| + n)
  {
  }

  /** The search stops at the first matching position. */
  lemma {:induction false} FirstMatchAt(s: string, i: nat, p: nat)
    requires i <= p <= |s| && MatchAt(s, p).Some?
    requires forall q :: i <= q < p ==> MatchAt(s, q).None?
    ensures FirstMatch(s, i) == MatchAt(s, p)
    decreases p - i
  {
    if i < p {
      FirstMatchAt(s, i + 1, p);
    }
  }

  /** The hint text, regrouped from the right after `pre`. */
  lemma HintShape(pre: string, ws1: string, digits: string, ws2: string, rest: string)
    ensures var s := pre + Opening + ws1 + SecondsLabel + digits + ws2 + "}" + rest;
      |pre| <= |s| && s[|pre|..] == Opening + (ws1 + (SecondsLabel + (digits + (ws2 + ("}" + rest)))))
  {
    var s := pre + Opening + ws1 + SecondsLabel + digits + ws2 + "}" + rest;
    assert s == pre + (Opening + (ws1 + (SecondsLabel + (digits + (ws2 + ("}" + rest))))));
  }

  /**
   * A text `s` containing `retry_delay {`, whitespace, `seconds: N`, whitespace and `}` after `pre`, with no
   * match starting inside `pre`, yields N seconds, whatever follows.
   */
  lemma RetryDelayOfHint(s: string, pre: string, ws1: string, n: nat, ws2: string, rest: string)
    requires s == pre + Opening + ws1 + SecondsLabel + NatToString(n) + ws2 + "}" + rest
    requires forall c :: 0 <= c < |ws1| ==> IsSpace(ws1[c])
    requires forall c :: 0 <= c < |ws2| ==> IsSpace(ws2[c])
    requires forall p :: 0 <= p < |pre| ==> MatchAt(s, p).None?
    ensures RetryDelaySeconds(s) == Some(NatToString(n))
    ensures RateLimitMessage(s) == BusyMessage + " Please try again in about " + NatToString(n) + " seconds."
  {
    HintFacts(s, pre, ws1, NatToString(n), ws2, rest);
    MatchAtOpening(s, |pre|, |ws1|);
    FirstMatchAt(s, 0, |pre|);
  }
}
