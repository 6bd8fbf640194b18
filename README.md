# Construction estimator API — verified model

This project models the two pieces of logic in the estimator service
(`estimator_app.py`) that have exact semantics once HTTP and PDF handling are
removed, and proves properties about them in Dafny:

- **The estimate calculator** (`POST /generate-estimate`). It reads six numeric
  fields from the request body (an absent field counts as 0). It returns a
  six-line bill of materials in a fixed order, the labor hours, and a fixed
  assumptions string. Module `Estimator` (`estimator.dfy`).
- **The drawing scale extractor** (`POST /analyze-drawing`). For every page text
  of the uploaded PDF, it searches case-insensitively for the regular expression
  `scale[:\s]*([^\n]+)`. It reports the stripped group, or `"Not found"`, tagged
  with the 1-based page number.
  - Module `ScalePattern` (`scale_pattern.dfy`) writes the regular expression
    and Python's `str.strip()` out by hand, following the semantics of
    `re.search`: the leftmost start wins, and the greedy `[:\s]*` backtracks.
    It also gives a separate reference semantics (`IsMatch`, `IsPreferred`,
    `IsSearchResult`) that the matcher is proved to agree with.
  - Module `ScaleExtraction` (`scale_extraction.dfy`) holds the per-page loop.
  - Module `DrawingUpload` (`drawing_upload.dfy`) holds the two upload checks,
    in their fixed order, and the response.
- `Wrappers` (`wrappers.dfy`) holds the `Option` type.

Behaviour of the pattern worth knowing, each proved as an example lemma:

- `[:\s]*` crosses line breaks.
- `scale` inside a word (`GRAYSCALE`) matches.
- A page that ends in `Scale:\n`, with no `scale` before it, reports `":"`: the
  separator run gives back its colon so that `[^\n]+` can match one character.
- A page that ends in `Scale: \n`, with no `scale` before it, reports the empty string.
- A page whose only `scale`, in any case, closes the text (`NOT TO SCALE`) reports `"Not found"`.
- `"Not found"` is also what a page that literally reads `Scale: Not found`
  reports. So the value alone does not tell whether a page matched
  (`NotFoundIsAmbiguous`).

Character classes follow Python's `str` semantics:

- `\s` and `strip()` use Python's whitespace set (U+0009–U+000D, U+001C–U+0020,
  U+0085, U+00A0, U+1680, U+2000–U+200A, U+2028, U+2029, U+202F, U+205F, U+3000).
- Under `re.IGNORECASE` the `s` of `scale` also matches U+017F (long s).

Request quantities are exact reals. Labor hours are therefore stated exactly:
`20 × laborHours = 10·outlets + 15·fixtures + 6·switches + 160·panels + conduitFeet`.

## Model

| member | source | states |
|---|---|---|
| `ScalePattern.CharacterClasses` | estimator_app.py:57 | `\s` is Python's whitespace set: it includes tab, line break, U+000B, U+000C, U+001C–U+001F, NEL, NO-BREAK SPACE, U+2007 and U+3000, and excludes ZERO WIDTH SPACE, the byte order mark and NUL; `[:\s]` adds the colon, and excludes every digit as well as, for example, `=`, `/` and `;` |
| `ScalePattern.KeywordCases` | estimator_app.py:57 | under `re.IGNORECASE` `scale` matches in mixed case and with a long s (U+017F), also inside a word, and a near miss does not; for example `scale`, `SCALE`, `ScAlE`, `ſcale` and `GRAYSCALE` at 4 match, while `scal`, `sca1e` and `GRAYSCALE` at 3 do not |
| `ScalePattern.SeparatorRunEnd` | estimator_app.py:57 | the greedy `[:\s]*` run from a position: every character in it is `:` or whitespace, and the character after it (if any) is not |
| `ScalePattern.LineEnd` | estimator_app.py:57 | the greedy `[^\n]+` run from a position: it contains no newline and stops at a newline or at the end of the text |
| `ScalePattern.Backtrack` | estimator_app.py:57 | giving back separators one at a time, the group starts at the last position of the run that is not a newline; none exists exactly when the whole run, up to the end of the text, is newlines |
| `ScalePattern.MatchAt` | estimator_app.py:57 | a match at `i` starts with `scale` (case-insensitive) at `i` and has a non-empty group, without a line break, inside the text |
| `ScalePattern.MatchAtSpec` | estimator_app.py:57 | the backtracking matcher returns the match the reference semantics prefers at `i` (longest separator run, then longest group), and returns nothing exactly when no match starts at `i` |
| `ScalePattern.SearchFrom` | estimator_app.py:62 | `re.search` from position `i`: the result is the matcher's match at the first position that has one; no result means no position from `i` on has one |
| `ScalePattern.Search` | estimator_app.py:62 | `re.search` over the page: a result is the matcher's match at its start, and no earlier position has one; no result means no position has one |
| `ScalePattern.SearchFromSkips` | estimator_app.py:62 | the search passes over positions where `scale` does not start and returns the first match |
| `ScalePattern.SearchSpec` | estimator_app.py:62 | the search result is the preferred match at the leftmost matching position; the search finds nothing exactly when the pattern matches nowhere in the page |
| `ScalePattern.SearchResultUnique` | estimator_app.py:62 | the reference semantics determines one search result at most |
| `ScalePattern.UnmatchedKeywordIsLast` | estimator_app.py:57-62 | a `scale` that has no match is followed only by line breaks, so no later `scale` exists: the first `scale` of a page is the first one that can match, whenever any can |
| `ScalePattern.FirstMatchCapture` | estimator_app.py:62-64 | when the first `scale` of the page starts at `i` and matches there, the group is the text after the separators of that match |
| `ScalePattern.ScaleCapture` | estimator_app.py:62-64 | `match.group(1)` exists exactly when `re.search` finds a match, and is then non-empty and without a line break |
| `ScalePattern.ScaleCaptureSpec` | estimator_app.py:62-64 | `match.group(1)` is the text between the separators and the end of the search result: non-empty and without a newline |
| `ScalePattern.ScaleCaptureNone` | estimator_app.py:62-63 | `re.search` returns no match exactly when the pattern matches nowhere in the page |
| `ScalePattern.SkipSpaces` | estimator_app.py:64 | the leading whitespace that `strip()` removes: all of it is whitespace and it stops at a non-whitespace character or the end |
| `ScalePattern.TrimEnd` | estimator_app.py:64 | the trailing whitespace that `strip()` removes: all of it is whitespace and what is left does not end in whitespace |
| `ScalePattern.Strip` | estimator_app.py:64 | `str.strip()` never lengthens its input, and a non-empty result neither starts nor ends with whitespace |
| `ScalePattern.StripSpec` | estimator_app.py:64 | `strip()` returns a slice of its input: everything before and after the slice is whitespace, and the slice neither starts nor ends with whitespace |
| `ScalePattern.StripKeepsNoNewline` | estimator_app.py:64 | stripping a text without newlines gives a text without newlines |
| `ScaleExtraction.PageScale` | estimator_app.py:62-66 | the value reported for one page is `"Not found"` when the search finds nothing, and is always a single line with no whitespace at either end |
| `ScaleExtraction.ExtractScales` | estimator_app.py:53-73 | the result has exactly one entry per page, in page order; entry `k` has page number `k + 1` and that page's scale |
| `ScaleExtraction.NoMatchIsNotFound` | estimator_app.py:62-66 | a page on which the pattern matches nowhere is reported as `"Not found"` |
| `ScaleExtraction.FoundScaleSpec` | estimator_app.py:57-66 | a page with a match is reported with the stripped group of the leftmost preferred match; that value contains no newline and has no leading or trailing whitespace |
| `ScaleExtraction.NotFoundIsAmbiguous` | estimator_app.py:62-66 | a page that matches can also be reported as `"Not found"` (`Scale: Not found`), so that value does not imply no match |
| `ScaleExtraction.FirstMatchScale` | estimator_app.py:62-64 | when the first `scale` of the page starts at `i` and matches there, the page's scale is the stripped group of that match |
| `ScaleExtraction.SheetAnnotationExample` | estimator_app.py:57-64 | `Scale: 1/4" = 1'-0"` is reported as `1/4" = 1'-0"` |
| `ScaleExtraction.InsideWordExample` | estimator_app.py:57-64 | `scale` inside the word `GRAYSCALE` matches |
| `ScaleExtraction.AcrossLinesExample` | estimator_app.py:57-64 | the separators may include a line break: `Scale:\n1:5` is reported as `1:5` |
| `ScaleExtraction.BacktrackColonAtEnd` | estimator_app.py:57-64 | a page that ends in `Scale:\n`, with no `scale` before it, is reported as `:`, not as `"Not found"` |
| `ScaleExtraction.BacktrackSpaceAtEnd` | estimator_app.py:57-64 | a page that ends in `Scale: \n`, with no `scale` before it, is reported as the empty string |
| `ScaleExtraction.KeywordAtEnd` | estimator_app.py:57-66 | a page whose only `scale`, in any case, closes the text is reported as `"Not found"`: the group needs at least one character |
| `ScaleExtraction.NotToScaleExample` | estimator_app.py:57-66 | the note `NOT TO SCALE` is reported as `"Not found"` |
| `Estimator.OrZero` | estimator_app.py:19-24 | `data.get(key, 0)`: the field's value when present, 0 when absent |
| `Estimator.ReadRequest` | estimator_app.py:19-24 | each of the six quantities is its field of the body, or 0 when the field is absent |
| `Estimator.Materials` | estimator_app.py:26-33 | six lines whose first five quantities are outlets, fixtures, switches, panels and conduit feet, in that order, and whose sixth is 50 feet of wire per outlet |
| `Estimator.LaborHours` | estimator_app.py:35-41 | twenty times the labor hours is `10·outlets + 15·fixtures + 6·switches + 160·panels + conduitFeet` |
| `Estimator.GenerateEstimate` | estimator_app.py:19-47 | six material lines; the wire line is 50 × the outlet count; the labor hours are as in `LaborHours` for the fields read with default 0; the assumptions string is fixed |
| `Estimator.MaterialsLayout` | estimator_app.py:26-33 | the materials are Duplex outlet, Lighting fixture, Single pole switch, Electrical panel, EMT conduit and 12AWG THHN wire, in that order; the first four are in units of "each" and the last two in "feet"; each of the first five quantities is its input field |
| `Estimator.WireDependsOnlyOnOutlets` | estimator_app.py:32 | two requests with the same outlet count get the same wire line, whatever their other fields |
| `Estimator.SquareFeetHasNoEffect` | estimator_app.py:19 | changing or removing `squareFeet` leaves the whole estimate unchanged |
| `Estimator.EmptyRequestIsZero` | estimator_app.py:19-41 | a request with every field absent gets zero for every material quantity and zero labor hours |
| `Estimator.WorkedEstimate` | estimator_app.py:26-41 | 10 outlets, 5 fixtures, 8 switches, 1 panel and 100 feet of conduit give exactly 24.15 labor hours and 500 feet of wire |
| `DrawingUpload.CheckUpload` | estimator_app.py:78-83 | "No file uploaded" exactly when there is no `file` part; "No selected file" exactly when the part has an empty filename; otherwise the request proceeds with that part |
| `DrawingUpload.CheckOrder` | estimator_app.py:78-83 | a missing `file` part is reported before the filename is looked at; adding a part removes that error, and the filename check then decides |
| `DrawingUpload.AnalyzeDrawing` | estimator_app.py:77-94 | a failed check gives status 400 with that check's error; otherwise status 200 with one scale per page, in page order, and the fixed completion message |

## Left out

- Flask routing, `request.get_json`, `jsonify` and `app.run` are HTTP plumbing. The model takes the request body and the uploaded file parts as values and returns response values.
- PyMuPDF (`fitz.open`, `page.get_text()`) is a foreign library. The page texts of the document are an input of `ExtractScales` and `AnalyzeDrawing`.
- The server error (status 500) that passes an extraction failure's message through is not modelled. Every document is assumed to open.
- Filesystem effects are not modelled: creating the upload directory, `secure_filename`, joining the path and saving the file. A filename that sanitises to nothing, and concurrent uploads with colliding names, are therefore not covered.
- Estimator.GenerateEstimate: laborHours is the exact, unrounded sum. `round(labor_hours, 1)` on binary floats is not modelled, because its result at the .x5 boundaries depends on float representation. Float arithmetic in general (0.3 is not exact in binary) is not modelled either.
- Estimator.GenerateEstimate: the model does not distinguish Python ints from floats. For example, 500 and 500.0 serialise differently in the JSON output.
- Field values that are not numbers are not modelled, and neither is a body that is not a JSON object. The handler does not coerce such values to 0:
  - A JSON boolean is a Python `bool`, which is an `int`, so the handler computes with it as 1 or 0 but echoes `true`/`false` as the quantity (`{"outletCount": true}` gives 50 feet of wire and 0.5 labor hours). The model has no booleans.
  - `squareFeet` is never used in arithmetic, so any value there, number or not, is accepted and has no effect.
  - A string, array, object or `null` in any of the other five fields makes the arithmetic fail inside the handler, which is a server error.
- `request.files` can hold several parts under one name. The model keeps only the first, which is the one `request.files['file']` returns.
- Page texts are sequences of Unicode scalar values. Python strings holding lone surrogates are not covered.
