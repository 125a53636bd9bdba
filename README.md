# Finance report renderer — a Dafny model

This project models the report renderer of the DailyFinanceReportAgent
repository (`scripts/render_report.py`). The renderer takes the JSON
payload a collection run produces: a time window, an overview of totals,
and one record per account with metrics, an AI-written summary and top
tweets. It turns that payload into HTML fragments and a plain-text report.
The model covers:

- **`parse_ai_summary`** (`Summary`): the summary text is split into lines.
  Blank lines are dropped and the rest are stripped. Each line then becomes
  either a bullet (`- x`, `* x`, or two digits followed by `.` or `)`, with
  the marker removed) or a paragraph. The method `ParseAiSummary` grows the
  two lists in a loop, as the source does. It is proved against the
  functions `BulletsOf` and `ParagraphsOf`.
- **`fmt_number`** (`Numbers`): an integer gets thousands separators.
  Anything else comes back as its `str`. In `render_text`, an overview
  total formatted with `{:,}` raises when it is not a number.
- **`html.escape`** (`HtmlEscape`): the five characters `& < > " '` become
  entities. `Unescape` is its left inverse: decoding escaped text gives the text back.
- **`build_account_html` / `build_overview_html`** (`ReportHtml`): the
  summary parts list (a `<ul>` of bullets, one `<p>` per paragraph, or the
  placeholder), the top-tweet list or its placeholder, the metrics table
  and the overview rows.
- **`render_text`** (`ReportText`): the header lines, then per account
  its lines, its highlight lines and its top tweets numbered from 1.
  The final text is stripped and ends with one newline. The methods grow
  the line list in loops and are proved against the matching spec functions.

The Python string primitives the renderer depends on are modelled in
`PyText`. `str.strip` uses Python's exact set of whitespace code points.
`str.splitlines` uses Python's line-break set, counts `\r\n` as one break,
does not start an empty line after a final break, and gives no lines for "".

The date formatting inside `fmt_window` and textwrap's wrapping are passed
in as function parameters: `clock: int -> string`, and `wrapIndent` (which
stands for `indent('\n'.join(wrap(x, width=90)), '  ')`). The `None` branch
of `fmt_window` ("N/A") is modelled. So is the fallback for a blank
summary line: `'' or item`, then `indent` of whitespace-only text, which
leaves the line unchanged.

The renderer only formats an existing payload; collecting the posts is
not part of this model.

## Model

| member | source | states |
|---|---|---|
| `PyText.Strip` | scripts/render_report.py:28 | The result has no leading or trailing whitespace. It is empty exactly when the input is all whitespace. A string already stripped is returned unchanged. |
| `PyText.StripIsSlice` | scripts/render_report.py:28 | `Strip(s)` is a slice `s[i..j]`, and everything cut off on either side is whitespace. |
| `PyText.SplitLines` | scripts/render_report.py:28 | `splitlines` gives no lines exactly when the text is empty. |
| `PyText.SplitLinesJoin` | scripts/render_report.py:28 | Joining the lines with `\n`, plus a `\n` when the text ends in a break, gives the text with every break written as `\n`, where `\r\n` counts as one break. With `SplitLinesHaveNoBreaks`, this fixes where every line starts and ends. |
| `PyText.SplitLinesExamples` | scripts/render_report.py:288 | `"a\r\nb"` is `["a", "b"]`, `"a\n"` is `["a"]`, and `"a\n\r\nb"` is `["a", "", "b"]`. |
| `PyText.SplitLinesLosesOnlyBreaks` | scripts/render_report.py:28 | The lines joined back together equal the text with its line breaks removed. Nothing else is lost or reordered. |
| `PyText.SplitLinesHaveNoBreaks` | scripts/render_report.py:288 | No line produced by `splitlines` contains a line-break character. |
| `PyText.StripKeepsPrefix` | scripts/render_report.py:313 | A non-empty stripped prefix of a string survives `strip()`. |
| `Summary.ParseAiSummary` | scripts/render_report.py:25-38 | The loop's two lists equal `BulletsOf`/`ParagraphsOf` of the non-blank stripped lines. Their lengths add up to the number of those lines. |
| `Summary.ParseEmpty` | scripts/render_report.py:26-27 | A `None` or empty summary yields two empty lists. |
| `Summary.ParseEmptyIff` | scripts/render_report.py:26-38 | Both lists are empty exactly when the summary has no non-blank line. |
| `Summary.NonBlankClean` | scripts/render_report.py:28 | Every line handed to the classifier is non-empty and stripped. The stripped form of every non-blank source line appears among them. There are no more of them than source lines. |
| `Summary.NonBlankAddsNothing` | scripts/render_report.py:28 | Every line handed to the classifier is the stripped form of some non-blank source line. |
| `Summary.NonBlankAppend` | scripts/render_report.py:28 | Filtering `a + b` gives the filtered `a` followed by the filtered `b`, so the kept lines stay in source order. |
| `Summary.PartitionCount` | scripts/render_report.py:31-37 | Every line lands in exactly one list: `|bullets| + |paragraphs| == |lines|`. |
| `Summary.BulletsAppend` | scripts/render_report.py:31-35 | Bullets of `a + b` are bullets of `a` followed by bullets of `b`, so source-line order is kept. |
| `Summary.ParagraphsAppend` | scripts/render_report.py:31-37 | Paragraphs of `a + b` are paragraphs of `a` followed by paragraphs of `b`, so source-line order is kept. |
| `Summary.ParagraphsAreNonBulletLines` | scripts/render_report.py:36-37 | A string is a paragraph exactly when it is one of the lines and not a bullet line. Paragraphs are the stripped lines unchanged. |
| `Summary.BulletsComeFromBulletLines` | scripts/render_report.py:32-35 | Every bullet is the marker-stripped text of some bullet line. Every bullet line contributes its text. |
| `Summary.DashBullet` | scripts/render_report.py:32-33 | A stripped line starting `- ` or `* ` is a bullet equal to `line[2:].strip()`, and that text is never empty. |
| `Summary.NumberedBulletIff` | scripts/render_report.py:34-35 | `line[:2].isdigit() and line[2:3] in {'.', ')'}` holds exactly when the line has two leading digits and then `.` or `)`. Such a bullet's text is `line[3:].strip()`. |
| `Summary.OneDigitIsParagraph` | scripts/render_report.py:34 | `1. foo` and a lone `7` are not bullets. |
| `Summary.TwoDigitBullets` | scripts/render_report.py:34-35 | `12) x` is the bullet `x`. `12.` is a bullet with empty text. |
| `Summary.Slice` | scripts/render_report.py:34 | Python slicing clamps to the string, so the length of `s[i:j]` is fixed by `i`, `j` and `|s|`. |
| `Numbers.NatStr` | scripts/render_report.py:14 | The decimal string is non-empty, all digits, and starts with `0` only for zero. |
| `Numbers.NatStrValue` | scripts/render_report.py:14 | The decimal digits denote the number again. |
| `Numbers.GroupWellGrouped` | scripts/render_report.py:14 | Digits with separators form a 1–3 digit leading group followed by `,`-prefixed groups of exactly three. |
| `Numbers.GroupRemoveCommas` | scripts/render_report.py:14 | Grouping inserts commas and nothing else. |
| `Numbers.FmtIntCorrect` | scripts/render_report.py:12-14 | For an int, removing the commas gives `str(i)`. A negative number starts with `-`. The groups are well formed, and the digits denote `|i|`. |
| `Numbers.FmtNumberFallback` | scripts/render_report.py:15 | A value that is not a number is formatted as `str(value)`. |
| `Numbers.FmtNumberExamples` | scripts/render_report.py:12-15 | `-1000` gives `-1,000` and `999` gives `999`. `True` formats as `1`. |
| `Numbers.FmtNumberChars` | scripts/render_report.py:12-14 | A formatted number contains only digits, `,` and `-`. |
| `Numbers.CommaFormat` | scripts/render_report.py:261-262 | `{v:,}` succeeds exactly for ints and bools, and then agrees with `fmt_number`. |
| `HtmlEscape.UnescapeEscape` | scripts/render_report.py:74 | Escaping loses nothing: decoding the five entities gives back the original text. |
| `HtmlEscape.EscapeIsSafe` | scripts/render_report.py:101 | Escaped text contains none of `< > " '`. |
| `ReportHtml.SummaryParts` | scripts/render_report.py:71-79 | The loop builds exactly the summary parts `SummaryPartsOf(bullets, paragraphs)`. |
| `ReportHtml.SummaryPartsShape` | scripts/render_report.py:71-79 | With no bullets and no paragraphs, the only part is `<p>No highlights available.</p>`. Otherwise there is one `<ul>` part first when there are bullets, then one escaped `<p>` per paragraph, in order. |
| `ReportHtml.BuildAccountHtml` | scripts/render_report.py:69-130 | The assembled card equals `AccountHtml`: header, metrics table, highlights block, top-tweets block. |
| `ReportHtml.NoHighlightsPlaceholder` | scripts/render_report.py:78-79 | A summary without a non-blank line renders its highlights block as the placeholder paragraph alone. |
| `ReportHtml.NoTopTweetsPlaceholder` | scripts/render_report.py:113-114 | An account without top tweets gets the "No top tweets in this window." paragraph. |
| `ReportHtml.OverviewWindowRow` | scripts/render_report.py:42-55 | The overview always has its five total rows. A sixth "Overall window" row appears exactly when both bounds are truthy. |
| `ReportHtml.NumberEscapesToItself` | scripts/render_report.py:56-59 | `html.escape` leaves a formatted number unchanged, because digits, `,` and `-` are not special. |
| `ReportHtml.OverviewTotalsVerbatim` | scripts/render_report.py:42-59 | For each of the first five overview rows whose total is a number, the `<tr>` cell holds exactly that total formatted with `{v:,}`. Escaping does not alter it. |
| `ReportText.HighlightText` | scripts/render_report.py:288-294 | The loop yields one line per raw summary line, or the "No highlights available." line. |
| `ReportText.HighlightPlaceholder` | scripts/render_report.py:288-294 | The text placeholder appears exactly for a missing or empty summary. Otherwise there is one line per raw line, and blank lines are reproduced verbatim. |
| `ReportText.WrapAllAt` | scripts/render_report.py:290-292 | Line `k` of the highlights is the wrapped form of raw summary line `k`. |
| `ReportText.TweetText` | scripts/render_report.py:299-308 | One tweet's lines: header, engagement, and a link line only when the URL is truthy. |
| `ReportText.TopTweetText` | scripts/render_report.py:296-310 | The loop's lines equal `TopTweetLines`: "Top tweets:" then the numbered tweets, or the "none in this window" line. |
| `ReportText.TweetNumbering` | scripts/render_report.py:298-299 | The tweet at position `k` starts its block with the header numbered `k + 1`, right after the lines of the tweets before it. |
| `ReportText.UndatedTweetHeader` | scripts/render_report.py:299 | `fmt_window` maps `None` to `N/A`, so a tweet without a timestamp gets the header `  <k+1>. [N/A] <text>` at its `TweetNumbering` position, whatever the clock. |
| `ReportText.NumberedTweetsLength` | scripts/render_report.py:298-308 | The tweets take `2 * n` lines, plus one per tweet with a URL. |
| `ReportText.AccountText` | scripts/render_report.py:271-311 | One account's lines equal `AccountLines`. |
| `ReportText.AllAccountsText` | scripts/render_report.py:271-311 | The outer loop's lines are every account's lines in order. |
| `ReportText.RenderText` | scripts/render_report.py:250-313 | `render_text` equals `RenderTextSpec`: the joined, stripped lines plus `\n`. It returns the error of the first overview total that `{:,}` rejects. |
| `ReportText.FinishShape` | scripts/render_report.py:313 | The finished text ends in `\n`, and what precedes it has no leading or trailing whitespace. |
| `ReportText.RenderTextOpens` | scripts/render_report.py:251-263 | Rendering fails exactly when one of the three engagement totals (`totalLikes`, `totalRetweets`, `totalReplies`) is not a number. `accounts` and `totalTweets` go through a plain f-string and never cause a failure. Otherwise the text starts with "Finance Twitter report covering the last". |

## Left out

- `scripts/ai_summary.py`: environment lookup, file I/O and an HTTPS call to a foreign service. It has no renderer logic.
- `main()` (argument parsing, JSON decoding, file reads and writes, the exit status on error): I/O.
- `fmt_window` for a present timestamp: local-time conversion and `strftime`. It is the `clock` parameter.
- `fmt_number` for floats, and floats anywhere in the payload: the model has no floating point. JSON lists and objects as field values are not modelled either. `Value` covers ints, bools, strings and null.
- `textwrap.wrap` and `indent` for non-blank summary lines: library line wrapping. It is the `wrapIndent` parameter.
- `render_html`: a static CSS/HTML template around the overview and account fragments. Apart from joining the account cards with `\n` (line 135), it has no logic.
- `Summary.PyIsDigit`: only ASCII `0`–`9` count as digits. Python's `str.isdigit` also accepts other Unicode digits such as `²` or `٣`, so a line like `²³. x` is a bullet in the source but a paragraph here.
- `ReportHtml.BuildAccountHtml`: `username`, tweet `text` and `url` are typed as strings, and `topTweets` as a list. The source would raise inside `html.escape` if the JSON held another type in a string field. It would treat a null `topTweets` like an empty one.
- `ReportText.TopTweetText`: each tweet's two or three lines are built as one block, then appended. The source appends them one by one, which gives the same list.
