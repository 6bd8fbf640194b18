/**
 * Per-page scale extraction: for every page text of a drawing, the first scale
 * annotation found by `ScalePattern`, trimmed, or the literal "Not found".
 * The PDF library that turns a document into page texts is not part of this
 * model; the page texts are the input.
 */
module ScaleExtraction {
  import opened Wrappers
  import opened ScalePattern

  const NotFound: string := "Not found"

  /** One entry of `sheetScales`: the 1-based page number and the scale found on it. */
  datatype PageScaleResult = PageScaleResult(page: nat, scale: string)

  /**
   * The `scale` value reported for one page text: always a single line with no
   * whitespace at either end, and "Not found" when the search finds nothing.
   */
  function PageScale(text: string): (r: string)
    ensures Search(text).None? ==> r == NotFound
    ensures '\n' !in r
    ensures r != [] ==> !IsSpace(r[0]) && !IsSpace(r[|r| - 1])
  {
    match ScaleCapture(text)
    case None => NotFound
    case Some(group) => StripKeepsNoNewline(group); Strip(group)
  }

  /** `results` holds one entry per page, in page order, numbered from 1. */
  ghost predicate IsSheetScales(pages: seq<string>, results: seq<PageScaleResult>) {
    |results| == |pages|
    && forall k :: 0 <= k < |pages| ==> results[k] == PageScaleResult(k + 1, PageScale(pages[k]))
  }

  /** The loop of the extractor: one result appended per page. */
  method ExtractScales(pages: seq<string>) returns (results: seq<PageScaleResult>)
    ensures IsSheetScales(pages, results)
  {
    results := [];
    for pageNumber := 0 to |pages|
      invariant |results| == pageNumber
      invariant forall k :: 0 <= k < pageNumber ==> results[k] == PageScaleResult(k + 1, PageScale(pages[k]))
    {
      var scaleValue: string;
      match ScaleCapture(pages[pageNumber]) {
        case Some(group) =>
          scaleValue := Strip(group);
        case None =>
          scaleValue := NotFound;
      }
      results := results + [PageScaleResult(pageNumber + 1, scaleValue)];
    }
  }

  /** A page on which the pattern matches nowhere is reported as "Not found". */
  lemma NoMatchIsNotFound(text: string)
    requires NoMatch(text)
    ensures PageScale(text) == NotFound
  {
    ScaleCaptureNone(text);
  }

  /**
   * A page on which the pattern matches is reported with the trimmed group of the
   * leftmost, greedy match: a value that lies within one line of the page and has
   * no leading or trailing whitespace.
   */
  lemma FoundScaleSpec(text: string, m: Match)
    requires IsSearchResult(text, m)
    ensures var group := text[m.start + KeywordLength + m.sepLen..m.end];
      PageScale(text) == Strip(group)
    ensures '\n' !in PageScale(text)
    ensures PageScale(text) != [] ==> !IsSpace(PageScale(text)[0]) && !IsSpace(PageScale(text)[|PageScale(text)| - 1])
  {
    var group := text[m.start + KeywordLength + m.sepLen..m.end];
    ScaleCaptureSpec(text, m);
    StripSpec(group);
    StripKeepsNoNewline(group);
  }

  /**
   * "Not found" does not prove that the page has no annotation: a page that
   * literally reads "Scale: Not found" matches and reports the same value.
   */
  lemma NotFoundIsAmbiguous()
    ensures !NoMatch("Scale: Not found") && PageScale("Scale: Not found") == NotFound
  {
    var text := "Scale: Not found";
    NotFoundTextMatch(text);
    NotFoundTextGroup(text);
    FirstMatchScale(text, 0, Match(0, 2, 16));
  }

  /** Trimming the group of "Scale: Not found" leaves "Not found". */
  lemma NotFoundTextGroup(text: string)
    requires text == "Scale: Not found"
    ensures Strip(text[7..16]) == NotFound
  {
    var group := text[7..16];
    assert SkipSpaces(group, 0) == 0 && TrimEnd(group, 0, 9) == 9;
    assert group == NotFound;
  }

  /** The match at the start of "Scale: Not found", unfolded one step of the matcher at a time. */
  lemma NotFoundTextMatch(text: string)
    requires text == "Scale: Not found"
    ensures MatchAt(text, 0) == Some(Match(0, 2, 16))
    ensures !NoMatch(text)
  {
    assert KeywordAt(text, 0);
    assert SeparatorRunEnd(text, 7) == 7;
    assert SeparatorRunEnd(text, 5) == 7;
    assert LineEnd(text, 16) == 16;
    assert LineEnd(text, 14) == 16;
    assert LineEnd(text, 12) == 16;
    assert LineEnd(text, 10) == 16;
    assert LineEnd(text, 8) == 16;
    assert LineEnd(text, 7) == 16;
    assert IsMatch(text, 0, 2, 16);
  }

  /**
   * The value reported for a page whose first `scale` that can match starts at `i`:
   * the trimmed group of the match there.
   */
  lemma FirstMatchScale(text: string, i: nat, m: Match)
    requires MatchAt(text, i) == Some(m)
    requires forall i' :: 0 <= i' < i ==> !KeywordAt(text, i')
    ensures PageScale(text) == Strip(text[m.start + KeywordLength + m.sepLen..m.end])
  {
    FirstMatchCapture(text, i, m);
  }

  /** The annotation of a drawing sheet. */
  lemma SheetAnnotationExample()
    ensures PageScale("Scale: 1/4\" = 1'-0\"") == "1/4\" = 1'-0\""
  {
    var text := "Scale: 1/4\" = 1'-0\"";
    SheetAnnotationMatch(text);
    SheetAnnotationGroup(text);
    FirstMatchScale(text, 0, Match(0, 2, 19));
  }

  /** The match at the start of the sheet annotation, unfolded one step of the matcher at a time. */
  lemma SheetAnnotationMatch(text: string)
    requires text == "Scale: 1/4\" = 1'-0\""
    ensures MatchAt(text, 0) == Some(Match(0, 2, 19))
  {
    assert KeywordAt(text, 0);
    assert SeparatorRunEnd(text, 7) == 7;
    assert SeparatorRunEnd(text, 5) == 7;
    assert LineEnd(text, 19) == 19;
    assert LineEnd(text, 17) == 19;
    assert LineEnd(text, 15) == 19;
    assert LineEnd(text, 13) == 19;
    assert LineEnd(text, 11) == 19;
    assert LineEnd(text, 9) == 19;
    assert LineEnd(text, 7) == 19;
  }

  /** Trimming the group of the sheet annotation leaves it unchanged. */
  lemma SheetAnnotationGroup(text: string)
    requires text == "Scale: 1/4\" = 1'-0\""
    ensures Strip(text[7..19]) == "1/4\" = 1'-0\""
  {
    var group := text[7..19];
    assert SkipSpaces(group, 0) == 0 && TrimEnd(group, 0, 12) == 12;
    assert group == "1/4\" = 1'-0\"";
  }

  /** `scale` inside a word matches too. */
  lemma InsideWordExample()
    ensures PageScale("GRAYSCALE 1:2") == "1:2"
  {
    var text := "GRAYSCALE 1:2";
    InsideWordMatch(text);
    InsideWordGroup(text);
    FirstMatchScale(text, 4, Match(4, 1, 13));
  }

  /** No `scale` before position 4 of "GRAYSCALE 1:2", and the match at 4. */
  lemma InsideWordMatch(text: string)
    requires text == "GRAYSCALE 1:2"
    ensures forall i' :: 0 <= i' < 4 ==> !KeywordAt(text, i')
    ensures MatchAt(text, 4) == Some(Match(4, 1, 13))
  {
    forall i' | 0 <= i' < 4
      ensures !KeywordAt(text, i')
    {
    }
    assert KeywordAt(text, 4);
    assert SeparatorRunEnd(text, 10) == 10;
    assert SeparatorRunEnd(text, 9) == 10;
    assert LineEnd(text, 11) == 13;
    assert LineEnd(text, 10) == 13;
  }

  /** Trimming the group of "GRAYSCALE 1:2" leaves it unchanged. */
  lemma InsideWordGroup(text: string)
    requires text == "GRAYSCALE 1:2"
    ensures Strip(text[10..13]) == "1:2"
  {
    var group := text[10..13];
    assert SkipSpaces(group, 0) == 0 && TrimEnd(group, 0, 3) == 3;
    assert group == "1:2";
  }

  /** `[:\s]*` crosses a line break. */
  lemma AcrossLinesExample()
    ensures PageScale("Scale:\n1:5") == "1:5"
  {
    var text := "Scale:\n1:5";
    AcrossLinesMatch(text);
    AcrossLinesGroup(text);
    FirstMatchScale(text, 0, Match(0, 2, 10));
  }

  /** The match at the start of "Scale:\n1:5": the separators are the colon and the line break. */
  lemma AcrossLinesMatch(text: string)
    requires text == "Scale:\n1:5"
    ensures MatchAt(text, 0) == Some(Match(0, 2, 10))
  {
    assert KeywordAt(text, 0);
    assert SeparatorRunEnd(text, 7) == 7;
    assert SeparatorRunEnd(text, 5) == 7;
    assert LineEnd(text, 8) == 10;
    assert LineEnd(text, 7) == 10;
  }

  /** Trimming the group of "Scale:\n1:5" leaves it unchanged. */
  lemma AcrossLinesGroup(text: string)
    requires text == "Scale:\n1:5"
    ensures Strip(text[7..10]) == "1:5"
  {
    var group := text[7..10];
    assert SkipSpaces(group, 0) == 0 && TrimEnd(group, 0, 3) == 3;
    assert group == "1:5";
  }

  /**
   * Backtracking: on a page that ends in `Scale:` and a line break, with no `scale`
   * before it, the colon gives itself back to become the group.
   */
  lemma BacktrackColonAtEnd(prefix: string)
    requires forall i' :: 0 <= i' < |prefix| ==> !KeywordAt(prefix + "Scale:\n", i')
    ensures PageScale(prefix + "Scale:\n") == ":"
  {
    var text, n := prefix + "Scale:\n", |prefix|;
    assert text[n..] == "Scale:\n";
    assert KeywordAt(text, n);
    assert SeparatorRunEnd(text, n + 6) == n + 7;
    assert SeparatorRunEnd(text, n + 5) == n + 7;
    assert Backtrack(text, n + 5, n + 6) == Some(n + 5);
    assert LineEnd(text, n + 6) == n + 6;
    FirstMatchScale(text, n, Match(n, 0, n + 6));
    var group := text[n + 5..n + 6];
    assert SkipSpaces(group, 0) == 0 && TrimEnd(group, 0, 1) == 1;
    assert group == ":";
  }

  /**
   * Backtracking onto a space: on a page that ends in `Scale: ` and a line break,
   * with no `scale` before it, the group is " ", so the reported scale is empty.
   */
  lemma BacktrackSpaceAtEnd(prefix: string)
    requires forall i' :: 0 <= i' < |prefix| ==> !KeywordAt(prefix + "Scale: \n", i')
    ensures PageScale(prefix + "Scale: \n") == ""
  {
    var text, n := prefix + "Scale: \n", |prefix|;
    assert text[n..] == "Scale: \n";
    assert KeywordAt(text, n);
    assert SeparatorRunEnd(text, n + 7) == n + 8;
    assert SeparatorRunEnd(text, n + 5) == n + 8;
    assert Backtrack(text, n + 5, n + 7) == Some(n + 6);
    assert LineEnd(text, n + 7) == n + 7;
    FirstMatchScale(text, n, Match(n, 1, n + 7));
    var group := text[n + 6..n + 7];
    assert SkipSpaces(group, 0) == 1;
  }

  /**
   * The group needs at least one character: a page whose only `scale`, in any
   * case, closes the text is reported as "Not found".
   */
  lemma KeywordAtEnd(text: string)
    requires |text| >= KeywordLength && KeywordAt(text, |text| - KeywordLength)
    requires forall i' :: 0 <= i' < |text| - KeywordLength ==> !KeywordAt(text, i')
    ensures PageScale(text) == NotFound
  {
    forall i: nat, k: nat, q: nat | IsMatch(text, i, k, q)
      ensures false
    {
    }
    NoMatchIsNotFound(text);
  }

  /** A "not to scale" note is no scale annotation. */
  lemma NotToScaleExample()
    ensures PageScale("NOT TO SCALE") == NotFound
  {
    var text := "NOT TO SCALE";
    assert KeywordAt(text, 7);
    forall i' | 0 <= i' < 7
      ensures !KeywordAt(text, i')
    {
    }
    KeywordAtEnd(text);
  }
}
