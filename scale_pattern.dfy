/**
 * The case-insensitive regular expression `scale[:\s]*([^\n]+)` that the drawing
 * analyser searches for on every page, and Python's `str.strip()`, written out by hand.
 *
 * The matcher follows Python's `re.search`: the leftmost starting position wins;
 * at that position the greedy `[:\s]*` first takes every separator it can and
 * gives them back one at a time until `([^\n]+)` can start, and `([^\n]+)` then
 * takes the rest of the line.
 */
module ScalePattern {
  import opened Wrappers

  /** Python's whitespace for `str` (the `\s` class of a `str` pattern and `str.strip()`). */
  predicate IsSpace(c: char) {
    var n := c as int;
    (0x09 <= n <= 0x0D) || (0x1C <= n <= 0x20) || n == 0x85 || n == 0xA0 || n == 0x1680
    || (0x2000 <= n <= 0x200A) || n == 0x2028 || n == 0x2029 || n == 0x202F
    || n == 0x205F || n == 0x3000
  }

  /** The class `[:\s]`. */
  predicate IsSeparator(c: char) {
    c == ':' || IsSpace(c)
  }

  /** The literal `scale` under `re.IGNORECASE`: the `s` also matches U+017F, the long s. */
  predicate KeywordAt(t: string, i: nat) {
    i + KeywordLength <= |t|
    && t[i] in {'s', 'S', '\U{017F}'}
    && t[i + 1] in {'c', 'C'}
    && t[i + 2] in {'a', 'A'}
    && t[i + 3] in {'l', 'L'}
    && t[i + 4] in {'e', 'E'}
  }

  /** Length of the keyword `scale`. */
  const KeywordLength: nat := 5

  /**
   * Python's whitespace includes the ASCII controls U+001C..U+001F, NEL, NO-BREAK SPACE
   * and the ideographic space, but not ZERO WIDTH SPACE or the byte order mark;
   * `[:\s]` adds the colon and nothing else.
   */
  lemma CharacterClasses()
    ensures IsSpace(' ') && IsSpace('\t') && IsSpace('\n') && IsSpace('\r')
      && IsSpace('\U{000B}') && IsSpace('\U{000C}') && IsSpace('\U{001C}') && IsSpace('\U{001F}')
      && IsSpace('\U{0085}') && IsSpace('\U{00A0}') && IsSpace('\U{2007}') && IsSpace('\U{3000}')
    ensures !IsSpace('\U{200B}') && !IsSpace('\U{FEFF}') && !IsSpace('\U{0000}') && !IsSpace(':')
    ensures IsSeparator(':') && IsSeparator('\n') && IsSeparator('\U{00A0}')
      && !IsSeparator('=') && !IsSeparator('/') && !IsSeparator(';')
    ensures forall c: char :: '0' <= c <= '9' ==> !IsSeparator(c)
  {
  }

  /** `scale` in any mix of cases, and with a long s, is the keyword; a near miss is not. */
  lemma KeywordCases()
    ensures KeywordAt("scale", 0) && KeywordAt("SCALE", 0) && KeywordAt("ScAlE", 0)
      && KeywordAt("\U{017F}cale", 0) && KeywordAt("GRAYSCALE", 4)
    ensures !KeywordAt("scal", 0) && !KeywordAt("sca1e", 0) && !KeywordAt("scale", 1)
      && !KeywordAt("GRAYSCALE", 3)
  {
  }

  // ---------------------------------------------------------------------------
  // Reference semantics: which spans the pattern matches and which one Python picks.

  ghost predicate AllSeparators(t: string, a: nat, b: nat)
    requires a <= b <= |t|
  {
    forall x :: a <= x < b ==> IsSeparator(t[x])
  }

  ghost predicate NoNewline(t: string, a: nat, b: nat)
    requires a <= b <= |t|
  {
    forall x :: a <= x < b ==> t[x] != '\n'
  }

  /**
   * The pattern matches `t[i..q]` with `[:\s]*` taking `k` characters, so that the
   * group `([^\n]+)` is `t[i + 5 + k..q]`.
   */
  ghost predicate IsMatch(t: string, i: nat, k: nat, q: nat) {
    KeywordAt(t, i)
    && i + KeywordLength + k < q <= |t|
    && AllSeparators(t, i + KeywordLength, i + KeywordLength + k)
    && NoNewline(t, i + KeywordLength + k, q)
  }

  ghost predicate NoMatchAt(t: string, i: nat) {
    forall k: nat, q: nat :: !IsMatch(t, i, k, q)
  }

  ghost predicate NoMatch(t: string) {
    forall i: nat, k: nat, q: nat :: !IsMatch(t, i, k, q)
  }

  /**
   * The match backtracking reaches first at `i`: the greedy `[:\s]*` tries longer
   * runs before shorter ones, and for each run the greedy `[^\n]+` tries longer
   * captures before shorter ones.
   */
  ghost predicate IsPreferred(t: string, i: nat, k: nat, q: nat) {
    IsMatch(t, i, k, q)
    && forall k': nat, q': nat :: IsMatch(t, i, k', q') ==> k' < k || (k' == k && q' <= q)
  }

  /** A match found by the search: where `scale` starts, how many separators follow, where the group ends. */
  datatype Match = Match(start: nat, sepLen: nat, end: nat)

  /** `m` is what `re.search` returns: the preferred match at the leftmost position that has one. */
  ghost predicate IsSearchResult(t: string, m: Match) {
    IsPreferred(t, m.start, m.sepLen, m.end)
    && forall i :: 0 <= i < m.start ==> NoMatchAt(t, i)
  }

  // ---------------------------------------------------------------------------
  // The matcher.

  /** End of the longest run of `[:\s]` starting at `j`. */
  function SeparatorRunEnd(t: string, j: nat): (e: nat)
    requires j <= |t|
    ensures j <= e <= |t|
    ensures forall x :: j <= x < e ==> IsSeparator(t[x])
    ensures e < |t| ==> !IsSeparator(t[e])
    decreases |t| - j
  {
    if j < |t| && IsSeparator(t[j]) then SeparatorRunEnd(t, j + 1) else j
  }

  /** End of the longest run of `[^\n]` starting at `p`. */
  function LineEnd(t: string, p: nat): (q: nat)
    requires p <= |t|
    ensures p <= q <= |t|
    ensures forall x :: p <= x < q ==> t[x] != '\n'
    ensures q < |t| ==> t[q] == '\n'
    decreases |t| - p
  {
    if p < |t| && t[p] != '\n' then LineEnd(t, p + 1) else p
  }

  /**
   * `[:\s]*` has taken `t[j..p]`; give characters back, one at a time, until
   * `[^\n]+` can start at the current position, or until nothing is left to give.
   */
  function Backtrack(t: string, j: nat, p: nat): (r: Option<nat>)
    requires j <= p <= |t|
    ensures r.Some? ==> j <= r.value <= p && r.value < |t| && t[r.value] != '\n'
    ensures r.Some? ==> forall x :: r.value < x <= p && x < |t| ==> t[x] == '\n'
    ensures r.None? ==> forall x :: j <= x <= p && x < |t| ==> t[x] == '\n'
    decreases p
  {
    if p < |t| && t[p] != '\n' then Some(p)
    else if p == j then None
    else Backtrack(t, j, p - 1)
  }

  /** The pattern anchored at `i`, as Python's backtracking matcher runs it. */
  function MatchAt(t: string, i: nat): (r: Option<Match>)
    ensures r.Some? ==> r.value.start == i && KeywordAt(t, i)
    ensures r.Some? ==> i + KeywordLength + r.value.sepLen < r.value.end <= |t|
    ensures r.Some? ==> forall x :: i + KeywordLength + r.value.sepLen <= x < r.value.end ==> t[x] != '\n'
  {
    if !KeywordAt(t, i) then None
    else
      var j := i + KeywordLength;
      match Backtrack(t, j, SeparatorRunEnd(t, j))
      case None => None
      case Some(p) => Some(Match(i, p - j, LineEnd(t, p)))
  }

  /** Every separator run of a match at `i` ends at or before the longest one. */
  lemma SeparatorRunBound(t: string, i: nat, k: nat, q: nat)
    requires IsMatch(t, i, k, q)
    ensures i + KeywordLength + k <= SeparatorRunEnd(t, i + KeywordLength)
    ensures t[i + KeywordLength + k] != '\n'
  {
    var j, e := i + KeywordLength, SeparatorRunEnd(t, i + KeywordLength);
    assert t[j + k] != '\n';
  }

  /**
   * The backtracking matcher finds the match that the reference semantics
   * prefers at `i`, and finds none exactly when there is none.
   */
  lemma MatchAtSpec(t: string, i: nat)
    ensures MatchAt(t, i).Some? ==> IsPreferred(t, i, MatchAt(t, i).value.sepLen, MatchAt(t, i).value.end)
    ensures MatchAt(t, i).None? <==> NoMatchAt(t, i)
  {
    if KeywordAt(t, i) {
      var j := i + KeywordLength;
      var e := SeparatorRunEnd(t, j);
      match Backtrack(t, j, e)
      case None =>
        forall k: nat, q: nat | IsMatch(t, i, k, q)
          ensures false
        {
          SeparatorRunBound(t, i, k, q);
        }
      case Some(p) =>
        var q := LineEnd(t, p);
        assert IsMatch(t, i, p - j, q);
        forall k': nat, q': nat | IsMatch(t, i, k', q')
          ensures k' < p - j || (k' == p - j && q' <= q)
        {
          SeparatorRunBound(t, i, k', q');
        }
    }
  }

  /** `re.search` from position `i` on: the match at the first position that has one. */
  function SearchFrom(t: string, i: nat): (r: Option<Match>)
    ensures r.Some? ==> i <= r.value.start && MatchAt(t, r.value.start) == r
    ensures r.Some? ==> forall i' :: i <= i' < r.value.start ==> MatchAt(t, i').None?
    ensures r.None? ==> forall i' :: i <= i' ==> MatchAt(t, i').None?
    decreases |t| - i
  {
    if |t| < i + KeywordLength then None
    else
      match MatchAt(t, i)
      case Some(m) => Some(m)
      case None => SearchFrom(t, i + 1)
  }

  /** The search passes over positions where `scale` does not start and stops at the first match. */
  lemma {:induction false} SearchFromSkips(t: string, from: nat, i: nat)
    requires from <= i && MatchAt(t, i).Some?
    requires forall i' :: from <= i' < i ==> !KeywordAt(t, i')
    ensures SearchFrom(t, from) == MatchAt(t, i)
    decreases i - from
  {
    if from < i {
      SearchFromSkips(t, from + 1, i);
    }
  }

  /** `re.search` over a whole page text: the match at the leftmost position that has one. */
  function Search(t: string): (r: Option<Match>)
    ensures r.Some? ==> MatchAt(t, r.value.start) == r
    ensures r.Some? ==> forall i': nat :: i' < r.value.start ==> MatchAt(t, i').None?
    ensures r.None? ==> forall i': nat :: MatchAt(t, i').None?
  {
    SearchFrom(t, 0)
  }

  /**
   * The search returns the reference result: the preferred match at the leftmost
   * position that has a match, and nothing exactly when nothing matches.
   */
  lemma SearchSpec(t: string)
    ensures Search(t).Some? ==> IsSearchResult(t, Search(t).value)
    ensures Search(t).None? <==> NoMatch(t)
  {
    var r := Search(t);
    if r.Some? {
      var m := r.value;
      MatchAtSpec(t, m.start);
      forall i | 0 <= i < m.start
        ensures NoMatchAt(t, i)
      {
        MatchAtSpec(t, i);
      }
      assert IsMatch(t, m.start, m.sepLen, m.end);
    } else {
      forall i: nat, k: nat, q: nat
        ensures !IsMatch(t, i, k, q)
      {
        MatchAtSpec(t, i);
      }
    }
  }

  /** `match.group(1)` of the search, or `None` when `re.search` finds nothing. */
  function ScaleCapture(t: string): (r: Option<string>)
    ensures r.Some? <==> Search(t).Some?
    ensures r.Some? ==> r.value != [] && '\n' !in r.value
  {
    match Search(t)
    case None => None
    case Some(m) => Some(t[m.start + KeywordLength + m.sepLen..m.end])
  }

  /**
   * A `scale` with no match is followed by nothing but line breaks up to the end
   * of the text, so no later `scale` exists: the first `scale` of a text is the
   * first one that can match, whenever any can.
   */
  lemma UnmatchedKeywordIsLast(t: string, i': nat, i: nat)
    requires KeywordAt(t, i') && MatchAt(t, i').None? && i' < i
    ensures !KeywordAt(t, i)
  {
    var j := i' + KeywordLength;
    var e := SeparatorRunEnd(t, j);
    assert Backtrack(t, j, e).None?;
    assert e == |t|;
    assert i + 4 < |t| ==> t[i + 4] == '\n';
  }

  /** The group of a page whose first `scale` starts at `i`, where it matches. */
  lemma FirstMatchCapture(t: string, i: nat, m: Match)
    requires MatchAt(t, i) == Some(m)
    requires forall i' :: 0 <= i' < i ==> !KeywordAt(t, i')
    ensures ScaleCapture(t) == Some(t[m.start + KeywordLength + m.sepLen..m.end])
  {
    SearchFromSkips(t, 0, i);
  }

  /** The search result is the only match satisfying the reference semantics. */
  lemma SearchResultUnique(t: string, m1: Match, m2: Match)
    requires IsSearchResult(t, m1) && IsSearchResult(t, m2)
    ensures m1 == m2
  {
    assert IsMatch(t, m1.start, m1.sepLen, m1.end) && IsMatch(t, m2.start, m2.sepLen, m2.end);
    assert !NoMatchAt(t, m1.start) && !NoMatchAt(t, m2.start);
    assert m1.start == m2.start;
    assert IsMatch(t, m1.start, m2.sepLen, m2.end) && IsMatch(t, m2.start, m1.sepLen, m1.end);
  }

  /**
   * The captured group is exactly the reference one: the text after the
   * separators of the search result, a non-empty piece of one line.
   */
  lemma ScaleCaptureSpec(t: string, m: Match)
    requires IsSearchResult(t, m)
    ensures ScaleCapture(t) == Some(t[m.start + KeywordLength + m.sepLen..m.end])
    ensures '\n' !in ScaleCapture(t).value && ScaleCapture(t).value != ""
  {
    SearchSpec(t);
    SearchResultUnique(t, Search(t).value, m);
  }

  /** `re.search` finds nothing exactly when no position of the page matches. */
  lemma ScaleCaptureNone(t: string)
    ensures ScaleCapture(t).None? <==> NoMatch(t)
  {
    SearchSpec(t);
  }

  // ---------------------------------------------------------------------------
  // str.strip()

  /** The first index at or after `i` that does not hold whitespace, or `|s|`. */
  function SkipSpaces(s: string, i: nat): (a: nat)
    requires i <= |s|
    ensures i <= a <= |s|
    ensures forall x :: i <= x < a ==> IsSpace(s[x])
    ensures a < |s| ==> !IsSpace(s[a])
    decreases |s| - i
  {
    if i < |s| && IsSpace(s[i]) then SkipSpaces(s, i + 1) else i
  }

  /** The end of `s[a..j]` once its trailing whitespace is dropped. */
  function TrimEnd(s: string, a: nat, j: nat): (b: nat)
    requires a <= j <= |s|
    ensures a <= b <= j
    ensures forall x :: b <= x < j ==> IsSpace(s[x])
    ensures a < b ==> !IsSpace(s[b - 1])
    decreases j
  {
    if a < j && IsSpace(s[j - 1]) then TrimEnd(s, a, j - 1) else j
  }

  /** `s.strip()`: leading whitespace skipped first, then trailing whitespace dropped. */
  function Strip(s: string): (r: string)
    ensures |r| <= |s|
    ensures r != [] ==> !IsSpace(r[0]) && !IsSpace(r[|r| - 1])
  {
    var a := SkipSpaces(s, 0);
    s[a..TrimEnd(s, a, |s|)]
  }

  /**
   * `Strip(s)` is the slice `s[a..a + |Strip(s)|]` where everything before and after
   * the slice is whitespace and the slice neither starts nor ends with whitespace.
   */
  lemma StripSpec(s: string)
    ensures var r, a := Strip(s), SkipSpaces(s, 0);
      a + |r| <= |s| && r == s[a..a + |r|]
      && (forall x :: 0 <= x < a ==> IsSpace(s[x]))
      && (forall x :: a + |r| <= x < |s| ==> IsSpace(s[x]))
      && (r != [] ==> !IsSpace(r[0]) && !IsSpace(r[|r| - 1]))
  {
    var a := SkipSpaces(s, 0);
    var b := TrimEnd(s, a, |s|);
    if a < b {
      assert Strip(s)[0] == s[a];
    }
  }

  /** Stripping only removes characters, so it cannot introduce a newline. */
  lemma StripKeepsNoNewline(s: string)
    requires '\n' !in s
    ensures '\n' !in Strip(s)
  {
    StripSpec(s);
    var a, r := SkipSpaces(s, 0), Strip(s);
    forall x | 0 <= x < |r|
      ensures r[x] != '\n'
    {
      assert r[x] == s[a + x];
    }
  }
}
