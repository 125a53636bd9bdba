/** The HTML fragments of the report: `build_overview_html` and `build_account_html`. */
module ReportHtml {
  import opened PyText
  import opened Numbers
  import opened HtmlEscape
  import opened Payload
  import Summary

  const NoHighlightsHtml := "<p>No highlights available.</p>"
  const NoTopTweetsHtml := "<p class=\"empty\">No top tweets in this window.</p>"
  const HighlightsOpen := "<div class=\"section-block\"><h3>AI Highlights</h3>"
  const TweetsOpen := "<div class=\"section-block\"><h3>Top Tweets</h3>"

  /** One table row: the heading escaped, the cell as given. */
  function RowHtml(heading: string, cell: string): string {
    "<tr><th>" + Escape(heading) + "</th><td>" + cell + "</td></tr>"
  }

  /** `''.join(f"<li>{html.escape(item)}</li>" for item in items)`. */
  function ListItems(items: seq<string>): string {
    if items == [] then [] else "<li>" + Escape(items[0]) + "</li>" + ListItems(items[1..])
  }

  function BulletListHtml(bullets: seq<string>): string {
    "<ul>" + ListItems(bullets) + "</ul>"
  }

  function ParagraphHtml(p: string): string {
    "<p>" + Escape(p) + "</p>"
  }

  function ParagraphParts(ps: seq<string>): seq<string> {
    seq(|ps|, k requires 0 <= k < |ps| => ParagraphHtml(ps[k]))
  }

  lemma ParagraphPartsSnoc(ps: seq<string>, i: nat)
    requires i < |ps|
    ensures ParagraphParts(ps[..i + 1]) == ParagraphParts(ps[..i]) + [ParagraphHtml(ps[i])]
  {
    var l, r := ParagraphParts(ps[..i + 1]), ParagraphParts(ps[..i]) + [ParagraphHtml(ps[i])];
    assert |l| == |r|;
    forall k | 0 <= k < |l| ensures l[k] == r[k] {
      assert ps[..i + 1][k] == ps[k];
    }
  }

  /** The `summary_parts` list built from a parsed summary. */
  function SummaryPartsOf(bullets: seq<string>, paragraphs: seq<string>): seq<string> {
    var parts := (if bullets != [] then [BulletListHtml(bullets)] else []) + ParagraphParts(paragraphs);
    if parts == [] then [NoHighlightsHtml] else parts
  }

  /**
   * Lines 71-79 of the renderer: one `<ul>` part for all bullets (when
   * there are any), one `<p>` part per paragraph, and the placeholder when
   * nothing was appended.
   */
  method SummaryParts(bullets: seq<string>, paragraphs: seq<string>) returns (parts: seq<string>)
    ensures parts == SummaryPartsOf(bullets, paragraphs)
  {
    parts := [];
    if bullets != [] {
      parts := parts + [BulletListHtml(bullets)];
    }
    ghost var head := parts;
    var i := 0;
    while i < |paragraphs|
      invariant 0 <= i <= |paragraphs|
      invariant parts == head + ParagraphParts(paragraphs[..i])
    {
      ParagraphPartsSnoc(paragraphs, i);
      parts := parts + [ParagraphHtml(paragraphs[i])];
      i := i + 1;
    }
    assert paragraphs[..i] == paragraphs;
    assert parts == (if bullets != [] then [BulletListHtml(bullets)] else []) + ParagraphParts(paragraphs);
    if parts == [] {
      parts := parts + [NoHighlightsHtml];
    }
  }

  /** The placeholder appears alone when there is nothing else; otherwise the parts follow the summary. */
  lemma SummaryPartsShape(bullets: seq<string>, paragraphs: seq<string>)
    ensures bullets == [] && paragraphs == [] ==> SummaryPartsOf(bullets, paragraphs) == [NoHighlightsHtml]
    ensures var off := if bullets != [] then 1 else 0;
      (bullets != [] || paragraphs != []) ==>
        |SummaryPartsOf(bullets, paragraphs)| == off + |paragraphs|
        && (bullets != [] ==> SummaryPartsOf(bullets, paragraphs)[0] == BulletListHtml(bullets))
        && forall k :: 0 <= k < |paragraphs| ==>
             SummaryPartsOf(bullets, paragraphs)[off + k] == ParagraphHtml(paragraphs[k])
  {
    var parts := SummaryPartsOf(bullets, paragraphs);
    var pre := if bullets != [] then [BulletListHtml(bullets)] else [];
    var all := pre + ParagraphParts(paragraphs);
    assert |all| == |pre| + |paragraphs|;
    if bullets != [] || paragraphs != [] {
      assert all != [] by {
        if bullets == [] { assert all[0] == ParagraphParts(paragraphs)[0]; }
      }
      assert parts == all;
      forall k | 0 <= k < |paragraphs| ensures parts[|pre| + k] == ParagraphHtml(paragraphs[k]) {
        assert all[|pre| + k] == ParagraphParts(paragraphs)[k];
      }
    }
  }

  function TweetHtml(t: Tweet, clock: int -> string): string {
    "<li>"
    + "<div class=\"tweet-meta\">" + Escape(FmtWindow(t.timestamp, clock)) + "</div>"
    + "<div class=\"tweet-text\">" + Escape(t.text) + "</div>"
    + "<div class=\"tweet-engagement\">likes " + FmtNumber(t.likes) + " &middot; "
    + "retweets " + FmtNumber(t.retweets) + " &middot; "
    + "replies " + FmtNumber(t.replies) + "</div>"
    + (if TruthyText(t.url) then "<div class=\"tweet-link\"><a href=\"" + Escape(t.url.value) + "\">Open</a></div>" else "")
    + "</li>"
  }

  /** The top-tweets block: an ordered list, or the placeholder paragraph when there are none. */
  function TopTweetsHtml(tweets: seq<Tweet>, clock: int -> string): string {
    if tweets != [] then
      "<ol class=\"tweet-list\">" + Concat(seq(|tweets|, k requires 0 <= k < |tweets| => TweetHtml(tweets[k], clock))) + "</ol>"
    else NoTopTweetsHtml
  }

  function MetricsRows(m: Metrics): seq<(string, Value)> {
    [("Total tweets", m.total), ("Originals", m.originals), ("Replies", m.replies),
     ("Retweets", m.retweets), ("Likes", m.likes),
     ("Retweets (engagement)", m.engagementRetweets), ("Replies (engagement)", m.engagementReplies)]
  }

  /** The metrics table body; the numbers are formatted but, as in the source, not escaped. */
  function MetricsTable(m: Metrics): string {
    var rows := MetricsRows(m);
    Join(seq(|rows|, k requires 0 <= k < |rows| => RowHtml(rows[k].0, FmtNumber(rows[k].1))), "\n")
  }

  function AccountHead(a: Account, clock: int -> string): string {
    "<section class=\"card account\">"
    + "<h2>@" + Escape(a.username) + "</h2>"
    + "<p class=\"meta\">" + FmtWindow(a.windowStart, clock) + " to " + FmtWindow(a.windowEnd, clock) + "</p>"
    + "<table>" + MetricsTable(a.metrics) + "</table>"
  }

  function HighlightsBlock(parts: seq<string>): string {
    HighlightsOpen + Concat(parts) + "</div>"
  }

  function TweetsBlock(tweets: seq<Tweet>, clock: int -> string): string {
    TweetsOpen + TopTweetsHtml(tweets, clock) + "</div>"
  }

  /** What `build_account_html(account)` returns. */
  function AccountHtml(a: Account, clock: int -> string): string {
    var parsed := Summary.Parse(a.aiSummary);
    AccountHead(a, clock) + HighlightsBlock(SummaryPartsOf(parsed.0, parsed.1))
    + TweetsBlock(a.topTweets, clock) + "</section>"
  }

  /** `build_account_html`: parses the summary, builds the summary parts, then assembles the card. */
  method BuildAccountHtml(a: Account, clock: int -> string) returns (h: string)
    ensures h == AccountHtml(a, clock)
  {
    var bullets, paragraphs := Summary.ParseAiSummary(a.aiSummary);
    var parts := SummaryParts(bullets, paragraphs);
    h := AccountHead(a, clock) + HighlightsBlock(parts) + TweetsBlock(a.topTweets, clock) + "</section>";
  }

  /** A summary without a non-blank line renders as the "No highlights available." paragraph alone. */
  lemma NoHighlightsPlaceholder(a: Account, clock: int -> string)
    requires Summary.SummaryLines(a.aiSummary) == []
    ensures AccountHtml(a, clock) ==
      AccountHead(a, clock) + HighlightsBlock([NoHighlightsHtml]) + TweetsBlock(a.topTweets, clock) + "</section>"
  {
    Summary.ParseEmptyIff(a.aiSummary);
  }

  /** An account without top tweets renders the "No top tweets in this window." paragraph. */
  lemma NoTopTweetsPlaceholder(a: Account, clock: int -> string)
    requires a.topTweets == []
    ensures TweetsBlock(a.topTweets, clock) == TweetsOpen + NoTopTweetsHtml + "</div>"
  {
  }

  /** The rows of `build_overview_html`'s table. */
  function OverviewRows(o: Overview, clock: int -> string): seq<(string, string)> {
    [("Accounts", FmtNumber(o.accounts)), ("Total tweets", FmtNumber(o.totalTweets)),
     ("Total likes", FmtNumber(o.totalLikes)), ("Total retweets", FmtNumber(o.totalRetweets)),
     ("Total replies", FmtNumber(o.totalReplies))]
    + (if TruthyTime(o.earliestStart) && TruthyTime(o.latestEnd)
       then [("Overall window", FmtWindow(o.earliestStart, clock) + " to " + FmtWindow(o.latestEnd, clock))]
       else [])
  }

  /** The `<tr>` elements of the overview table, one per row. */
  function OverviewTableRows(rows: seq<(string, string)>): seq<string> {
    seq(|rows|, k requires 0 <= k < |rows| => RowHtml(rows[k].0, Escape(rows[k].1)))
  }

  /** The card's opening, its heading and the coverage line. */
  function OverviewHead(windowHours: Value): string {
    "<section class=\"card overview\">"
    + "<h2>Run Overview</h2>"
    + "<p class=\"meta\">Coverage window: last " + PyStr(windowHours) + " hours</p>"
  }

  /**
   * The definition of `build_overview_html(overview, window_hours)`: the
   * heading, then the table of `OverviewTableRows` joined by `\n`, with both
   * labels and values escaped.
   */
  function OverviewHtml(o: Overview, windowHours: Value, clock: int -> string): string {
    var rows := OverviewRows(o, clock);
    OverviewHead(windowHours)
    + "<table>" + Join(OverviewTableRows(rows), "\n") + "</table>"
    + "</section>"
  }

  /** The overview has its five total rows, and a sixth window row exactly when both bounds are set and non-zero. */
  lemma OverviewWindowRow(o: Overview, clock: int -> string)
    ensures var rows := OverviewRows(o, clock);
      |rows| == (if TruthyTime(o.earliestStart) && TruthyTime(o.latestEnd) then 6 else 5)
      && (|rows| == 6 ==> rows[5].0 == "Overall window")
      && forall k :: 0 <= k < 5 ==> rows[k].0 != "Overall window"
  {
  }

  /** The five totals of the overview, in the order of its first five rows. */
  function OverviewTotals(o: Overview): seq<Value> {
    [o.accounts, o.totalTweets, o.totalLikes, o.totalRetweets, o.totalReplies]
  }

  /** Escaping a formatted number changes nothing: digits, `,` and `-` are not special. */
  lemma NumberEscapesToItself(v: Value)
    requires v.Int? || v.Bool?
    ensures Escape(FmtNumber(v)) == FmtNumber(v)
  {
    FmtNumberChars(v);
    var s := FmtNumber(v);
    assert forall k :: 0 <= k < |s| ==> !IsSpecial(s[k]) by {
      forall k | 0 <= k < |s| ensures !IsSpecial(s[k]) {
        assert NumberChar(s[k]);
      }
    }
    EscapeNoSpecial(s);
  }

  /** The first five overview rows carry the five totals as `fmt_number` formats them. */
  lemma OverviewRowsTotals(o: Overview, clock: int -> string)
    ensures var rows := OverviewRows(o, clock); var totals := OverviewTotals(o);
      |rows| >= 5 && forall k :: 0 <= k < 5 ==> rows[k].1 == FmtNumber(totals[k])
  {
  }

  /**
   * Row k of the overview table, for k < 5, shows total k; when that total
   * is a number, `html.escape` leaves the formatted text as it is, so the
   * cell holds exactly `{v:,}`.
   */
  lemma OverviewTotalsVerbatim(o: Overview, clock: int -> string)
    ensures var rows := OverviewRows(o, clock); var totals := OverviewTotals(o);
      |rows| >= 5 && forall k :: 0 <= k < 5 && (totals[k].Int? || totals[k].Bool?) ==>
        OverviewTableRows(rows)[k] == RowHtml(rows[k].0, FmtNumber(totals[k]))
  {
    var rows := OverviewRows(o, clock);
    var totals := OverviewTotals(o);
    OverviewRowsTotals(o, clock);
    forall k | 0 <= k < 5 && (totals[k].Int? || totals[k].Bool?)
      ensures OverviewTableRows(rows)[k] == RowHtml(rows[k].0, FmtNumber(totals[k]))
    {
      NumberEscapesToItself(totals[k]);
    }
  }
}
