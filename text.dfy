/**
 * The string primitives the backend applies with Python's `str` methods and the `re` module,
 * restricted to ASCII: `lower()`, `strip()`, `in`, `str(int)`, `sep.join(parts)` and the
 * keyword tokeniser `re.findall(r'\b\w{3,}\b', s)`.
 */
module Text {

  /** `str.isspace()` on ASCII: space, `\t \n \v \f \r` and the separators 0x1C..0x1F. */
  predicate IsSpace(c: char) {
    c == ' ' || (9 <= c as int <= 13) || (28 <= c as int <= 31)
  }

  /** `\w` on ASCII. */
  predicate IsWordChar(c: char) {
    ('a' <= c <= 'z') || ('A' <= c <= 'Z') || ('0' <= c <= '9') || c == '_'
  }

  predicate IsDigit(c: char) {
    '0' <= c <= '9'
  }

  function LowerChar(c: char): char {
    if 'A' <= c <= 'Z' then (c as int + 32) as char else c
  }

  /** `s.lower()`: ASCII capitals become small letters, every other character is kept. */
  function Lower(s: string): (r: string)
    ensures |r| == |s|
    ensures forall i :: 0 <= i < |s| ==> r[i] == LowerChar(s[i])
  {
    seq(|s|, i requires 0 <= i < |s| => LowerChar(s[i]))
  }

  lemma LowerIdempotent(s: string)
    ensures Lower(Lower(s)) == Lower(s)
  {
    assert forall i :: 0 <= i < |s| ==> Lower(Lower(s))[i] == Lower(s)[i];
  }

  lemma LowerAppend(a: string, b: string)
    ensures Lower(a + b) == Lower(a) + Lower(b)
  {
    assert forall i :: 0 <= i < |a + b| ==> Lower(a + b)[i] == (Lower(a) + Lower(b))[i];
  }

  function StripLeft(s: string): string
    decreases |s|
  {
    if s != "" && IsSpace(s[0]) then StripLeft(s[1..]) else s
  }

  function StripRight(s: string): string
    decreases |s|
  {
    if s != "" && IsSpace(s[|s| - 1]) then StripRight(s[..|s| - 1]) else s
  }

  /** `s.strip()`: the input without its leading and trailing whitespace. */
  function Strip(s: string): string {
    StripRight(StripLeft(s))
  }

  /** `lstrip()` removes exactly the leading whitespace: what remains is a suffix that starts with a non-space. */
  lemma {:induction false} StripLeftSpec(s: string)
    ensures |StripLeft(s)| <= |s| && StripLeft(s) == s[|s| - |StripLeft(s)|..]
    ensures StripLeft(s) == "" || !IsSpace(StripLeft(s)[0])
    ensures forall i :: 0 <= i < |s| - |StripLeft(s)| ==> IsSpace(s[i])
    decreases |s|
  {
    if s != "" && IsSpace(s[0]) {
      StripLeftSpec(s[1..]);
      assert forall i :: 1 <= i < |s| ==> s[1..][i - 1] == s[i];
    }
  }

  /** `rstrip()` removes exactly the trailing whitespace: what remains is a prefix that ends with a non-space. */
  lemma {:induction false} StripRightSpec(s: string)
    ensures |StripRight(s)| <= |s| && StripRight(s) == s[..|StripRight(s)|]
    ensures StripRight(s) == "" || !IsSpace(StripRight(s)[|StripRight(s)| - 1])
    ensures forall i :: |StripRight(s)| <= i < |s| ==> IsSpace(s[i])
    decreases |s|
  {
    if s != "" && IsSpace(s[|s| - 1]) {
      StripRightSpec(s[..|s| - 1]);
    }
  }

  /** `strip()` keeps a contiguous part of the input, drops only whitespace around it, and leaves none at either end. */
  lemma StripSpec(s: string)
    ensures var a := |s| - |StripLeft(s)|;
      && 0 <= a && a + |Strip(s)| <= |s| && Strip(s) == s[a..a + |Strip(s)|]
      && (forall i :: 0 <= i < a ==> IsSpace(s[i]))
      && (forall i :: a + |Strip(s)| <= i < |s| ==> IsSpace(s[i]))
    ensures Strip(s) == "" || (!IsSpace(Strip(s)[0]) && !IsSpace(Strip(s)[|Strip(s)| - 1]))
  {
    var l := StripLeft(s);
    StripLeftSpec(s);
    StripRightSpec(l);
    var a := |s| - |l|;
    assert Strip(s) == s[a..a + |Strip(s)|];
    forall i | a + |Strip(s)| <= i < |s|
      ensures IsSpace(s[i])
    {
      assert s[i] == l[i - a];
    }
  }

  lemma StripIdempotent(s: string)
    ensures Strip(Strip(s)) == Strip(s)
  {
    var v := Strip(s);
    StripSpec(s);
    assert StripLeft(v) == v;
    StripLeftSpec(v);
    assert StripRight(v) == v;
  }

  lemma {:induction false} LowerStripLeft(s: string)
    ensures Lower(StripLeft(s)) == StripLeft(Lower(s))
    decreases |s|
  {
    if s != "" {
      assert Lower(s)[0] == LowerChar(s[0]);
      if IsSpace(s[0]) {
        assert Lower(s)[1..] == Lower(s[1..]);
        LowerStripLeft(s[1..]);
      }
    }
  }

  lemma {:induction false} LowerStripRight(s: string)
    ensures Lower(StripRight(s)) == StripRight(Lower(s))
    decreases |s|
  {
    if s != "" {
      assert Lower(s)[|s| - 1] == LowerChar(s[|s| - 1]);
      if IsSpace(s[|s| - 1]) {
        assert Lower(s)[..|s| - 1] == Lower(s[..|s| - 1]);
        LowerStripRight(s[..|s| - 1]);
      }
    }
  }

  /** `s.lower().strip()`, the normal form the intent helpers compare against. */
  function Normalize(s: string): string {
    Strip(Lower(s))
  }

  /** Lowering and stripping again changes nothing: `Normalize(Normalize(s)) == Normalize(s)`. */
  lemma NormalizeIdempotent(s: string)
    ensures Normalize(Normalize(s)) == Normalize(s)
  {
    var l := Lower(s);
    LowerStripLeft(l);
    LowerStripRight(StripLeft(l));
    LowerIdempotent(s);
    StripIdempotent(l);
  }

  /** `t` occurs in `s` starting at index `i`. */
  predicate OccursAt(s: string, t: string, i: int) {
    0 <= i && i + |t| <= |s| && s[i..i + |t|] == t
  }

  /** Python's `t in s` for two strings. */
  function Contains(s: string, t: string): (r: bool)
    ensures r <==> exists i :: OccursAt(s, t, i)
    decreases |s|
  {
    if |t| > |s| then
      false
    else if s[..|t|] == t then
      assert OccursAt(s, t, 0);
      true
    else if s == "" then
      false
    else
      assert forall i :: OccursAt(s[1..], t, i) ==> OccursAt(s, t, i + 1);
      assert forall i :: OccursAt(s, t, i) ==> i >= 1 && OccursAt(s[1..], t, i - 1);
      Contains(s[1..], t)
  }

  /** A string occurs in any string that ends with it. */
  lemma ContainsSuffix(s: string, t: string)
    ensures Contains(s + t, t)
  {
    assert OccursAt(s + t, t, |s|);
  }

  function DigitChar(d: nat): char
    requires d < 10
  {
    ('0' as int + d) as char
  }

  /** Decimal digits of `n` without leading zeros. */
  function NatToString(n: nat): (r: string)
    ensures |r| >= 1
    ensures n >= 10 ==> |r| >= 2
    ensures forall i :: 0 <= i < |r| ==> IsDigit(r[i])
  {
    if n < 10 then [DigitChar(n)] else NatToString(n / 10) + [DigitChar(n % 10)]
  }

  /** `str(n)` for a Python int: a minus sign exactly for negative numbers. */
  function IntToString(n: int): (r: string)
    ensures |r| >= 1
    ensures n < 0 <==> r[0] == '-'
    ensures n == 0 ==> r == "0"
  {
    if n < 0 then "-" + NatToString(-n) else NatToString(n)
  }

  lemma {:induction false} NatToStringInjective(a: nat, b: nat)
    requires NatToString(a) == NatToString(b)
    ensures a == b
  {
    var sa, sb := NatToString(a), NatToString(b);
    if a >= 10 && b >= 10 {
      assert sa[..|sa| - 1] == NatToString(a / 10);
      assert sb[..|sb| - 1] == NatToString(b / 10);
      assert DigitChar(a % 10) == sa[|sa| - 1] == sb[|sb| - 1] == DigitChar(b % 10);
      NatToStringInjective(a / 10, b / 10);
    } else if a < 10 && b < 10 {
      assert DigitChar(a) == sa[0] == sb[0] == DigitChar(b);
    }
  }

  /** Different numbers print differently. */
  lemma IntToStringInjective(a: int, b: int)
    requires IntToString(a) == IntToString(b)
    ensures a == b
  {
    if a < 0 && b < 0 {
      assert IntToString(a)[1..] == NatToString(-a);
      assert IntToString(b)[1..] == NatToString(-b);
      NatToStringInjective(-a, -b);
    } else if a >= 0 && b >= 0 {
      NatToStringInjective(a, b);
    }
  }

  /** `sep.join(parts)`. */
  function Join(sep: string, parts: seq<string>): string
    decreases |parts|
  {
    if |parts| == 0 then ""
    else if |parts| == 1 then parts[0]
    else Join(sep, parts[..|parts| - 1]) + sep + parts[|parts| - 1]
  }

  lemma JoinSnoc(sep: string, parts: seq<string>, x: string)
    requires parts != []
    ensures Join(sep, parts + [x]) == Join(sep, parts) + sep + x
  {
    assert (parts + [x])[..|parts|] == parts;
  }

  /** Number of word characters at the front of `s`. */
  function RunLength(s: string): (n: nat)
    ensures n <= |s|
    ensures forall i :: 0 <= i < n ==> IsWordChar(s[i])
    ensures n < |s| ==> !IsWordChar(s[n])
    decreases |s|
  {
    if s != "" && IsWordChar(s[0]) then 1 + RunLength(s[1..]) else 0
  }

  /** The maximal runs of word characters of `s`, left to right. */
  function WordRuns(s: string): (r: seq<string>)
    ensures forall j :: 0 <= j < |r| ==> |r[j]| > 0
    ensures forall j, i :: 0 <= j < |r| && 0 <= i < |r[j]| ==> IsWordChar(r[j][i])
    decreases |s|
  {
    if s == "" then []
    else if !IsWordChar(s[0]) then WordRuns(s[1..])
    else
      var n := RunLength(s);
      [s[..n]] + WordRuns(s[n..])
  }

  /**
   * `set(re.findall(r'\b\w{3,}\b', s))`: a word boundary on both sides of at least three word
   * characters matches exactly the maximal runs of three or more word characters.
   */
  function Keywords(s: string): (r: set<string>)
    ensures forall w :: w in r ==> |w| >= 3
  {
    set w | w in WordRuns(s) && |w| >= 3
  }

  /** `w` occurs at position i of `s` as word characters with a word boundary (`\b`) on both sides. */
  predicate RunAt(s: string, w: string, i: nat) {
    && w != "" && i + |w| <= |s| && s[i..i + |w|] == w
    && (forall c :: 0 <= c < |w| ==> IsWordChar(w[c]))
    && (i == 0 || !IsWordChar(s[i - 1]))
    && (i + |w| == |s| || !IsWordChar(s[i + |w|]))
  }

  /** Past a cut at k before i, a bounded run at i is the same run at i - k of the rest. */
  lemma RunShift(s: string, w: string, k: nat, i: nat)
    requires 1 <= k < i && k <= |s|
    ensures RunAt(s, w, i) <==> RunAt(s[k..], w, i - k)
  {
    var t := s[k..];
    if i + |w| <= |s| {
      assert t[i - k..i - k + |w|] == s[i..i + |w|];
      assert t[i - k - 1] == s[i - 1];
      if i + |w| < |s| {
        assert t[i - k + |w|] == s[i + |w|];
      }
    }
  }

  /** A run at position 1 of `s` is a run at the start of `s[1..]`, when `s[0]` is no word character. */
  lemma RunAfterSkip(s: string, w: string)
    requires s != "" && !IsWordChar(s[0])
    ensures RunAt(s, w, 1) <==> RunAt(s[1..], w, 0)
  {
    if 1 + |w| <= |s| {
      assert s[1..][..|w|] == s[1..1 + |w|];
      if 1 + |w| < |s| {
        assert s[1..][|w|] == s[1 + |w|];
      }
    }
  }

  /** Skipping a leading non-word character keeps the bounded runs. */
  lemma RunsSkip(s: string, w: string)
    requires s != "" && !IsWordChar(s[0])
    ensures (exists i: nat :: RunAt(s, w, i)) <==> exists i: nat :: RunAt(s[1..], w, i)
  {
    if exists i: nat :: RunAt(s[1..], w, i) {
      var i: nat :| RunAt(s[1..], w, i);
      if i == 0 {
        RunAfterSkip(s, w);
      } else {
        RunShift(s, w, 1, i + 1);
      }
    }
    if exists i: nat :: RunAt(s, w, i) {
      var i: nat :| RunAt(s, w, i);
      if i == 0 {
        assert false;
      } else if i == 1 {
        RunAfterSkip(s, w);
      } else {
        RunShift(s, w, 1, i);
      }
    }
  }

  /** The only bounded run at position 0 is the leading run. */
  lemma RunAtStart(s: string, w: string)
    requires s != "" && IsWordChar(s[0])
    ensures RunAt(s, w, 0) <==> w == s[..RunLength(s)]
  {
    var n := RunLength(s);
    if RunAt(s, w, 0) {
      if |w| < n {
        assert false;
      } else if |w| > n {
        assert false;
      }
    }
  }

  /** Past a leading run, the bounded runs are that run and the bounded runs of the rest. */
  lemma RunsFirst(s: string, w: string)
    requires s != "" && IsWordChar(s[0])
    ensures var n := RunLength(s);
      (exists i: nat :: RunAt(s, w, i)) <==> w == s[..n] || exists i: nat :: RunAt(s[n..], w, i)
  {
    var n := RunLength(s);
    RunAtStart(s, w);
    if exists i: nat :: RunAt(s[n..], w, i) {
      var i: nat :| RunAt(s[n..], w, i);
      RunAfterFirst(s, w, i);
    }
    if exists i: nat :: RunAt(s, w, i) {
      var i: nat :| RunAt(s, w, i);
      RunBeforeFirst(s, w, i);
    }
  }

  /** A run after the leading run is a run of the whole text, n positions further on. */
  lemma RunAfterFirst(s: string, w: string, i: nat)
    requires s != "" && IsWordChar(s[0]) && RunAt(s[RunLength(s)..], w, i)
    ensures RunAt(s, w, i + RunLength(s))
  {
    var n := RunLength(s);
    if i == 0 {
      assert false;
    }
    RunShift(s, w, n, i + n);
  }

  /** A run of the whole text is the leading run or lies after it. */
  lemma RunBeforeFirst(s: string, w: string, i: nat)
    requires s != "" && IsWordChar(s[0]) && RunAt(s, w, i)
    ensures i == 0 || (i > RunLength(s) && RunAt(s[RunLength(s)..], w, i - RunLength(s)))
  {
    var n := RunLength(s);
    if 0 < i <= n {
      assert false;
    } else if i > n {
      RunShift(s, w, n, i);
    }
  }

  /** The runs are exactly the bounded runs of `s`. */
  lemma {:induction false} WordRunsSpec(s: string, w: string)
    ensures w in WordRuns(s) <==> exists i: nat :: RunAt(s, w, i)
    decreases |s|
  {
    if s == "" {
      assert forall i: nat :: !RunAt(s, w, i);
    } else if !IsWordChar(s[0]) {
      WordRunsSpec(s[1..], w);
      RunsSkip(s, w);
    } else {
      var n := RunLength(s);
      WordRunsSpec(s[n..], w);
      RunsFirst(s, w);
    }
  }

  /** The keywords of `s` are exactly its words of three or more characters between word boundaries. */
  lemma KeywordsSpec(s: string, w: string)
    ensures w in Keywords(s) <==> |w| >= 3 && exists i: nat :: RunAt(s, w, i)
  {
    WordRunsSpec(s, w);
  }
}
