/** The plain-text report: `render_text(payload)`. */
module ReportText {
  import opened Wrappers
  import opened PyText
  import opened Numbers
  import opened Payload

  /** `format(v, ',')` raised for this overview total (a string or None). */
  datatype RenderError = CommaFormatError(value: Value)

  const Title := "Finance Twitter report covering the last"
  const NoHighlightsLine := "  No highlights available."
  const NoTopTweetsLine := "Top tweets: none in this window."
  const TopTweetsLine := "Top tweets:"

  /**
   * The line written for one raw summary line. A blank line wraps to
   * nothing, so the source falls back to the line itself, which `indent`
   * leaves as it is. A non-blank line is stripped and handed to
   * `wrapIndent`, which stands for `indent('\n'.join(wrap(x, width=90)), '  ')`.
   */
  function HighlightLine(item: string, wrapIndent: string -> string): string {
    if AllSpace(item) then item else wrapIndent(Strip(item))
  }

  /** The raw summary lines `render_text` walks over. */
  function RawSummaryLines(summary: Option<string>): seq<string> {
    if TruthyText(summary) then SplitLines(summary.value) else []
  }

  /** One output line per raw summary line, in order. */
  function WrapAll(items: seq<string>, wrapIndent: string -> string): seq<string> {
    if items == [] then []
    else WrapAll(items[..|items| - 1], wrapIndent) + [HighlightLine(items[|items| - 1], wrapIndent)]
  }

  function HighlightLines(summary: Option<string>, wrapIndent: string -> string): seq<string> {
    var items := RawSummaryLines(summary);
    if items != [] then WrapAll(items, wrapIndent) else [NoHighlightsLine]
  }

  /** The header line of the top tweet numbered `idx`. */
  function TweetHeader(idx: nat, t: Tweet, clock: int -> string): string {
    "  " + NatStr(idx) + ". [" + FmtWindow(t.timestamp, clock) + "] " + t.text
  }

  function EngagementLine(t: Tweet): string {
    "    likes " + FmtNumber(t.likes) + " | retweets " + FmtNumber(t.retweets) + " | replies " + FmtNumber(t.replies)
  }

  function LinkLine(url: string): string {
    "    link: " + url
  }

  /** The lines of the top tweet numbered `idx`: header, engagement, and the link when it has one. */
  function TweetLines(idx: nat, t: Tweet, clock: int -> string): seq<string> {
    [TweetHeader(idx, t, clock), EngagementLine(t)] + (if TruthyText(t.url) then [LinkLine(t.url.value)] else [])
  }

  /** The lines of `tweets`, the tweet at position k numbered k + 1. */
  function NumberedTweets(tweets: seq<Tweet>, clock: int -> string): seq<string> {
    if tweets == [] then []
    else NumberedTweets(tweets[..|tweets| - 1], clock) + TweetLines(|tweets|, tweets[|tweets| - 1], clock)
  }

  function TopTweetLines(tweets: seq<Tweet>, clock: int -> string): seq<string> {
    if tweets != [] then [TopTweetsLine] + NumberedTweets(tweets, clock) else [NoTopTweetsLine]
  }

  function AccountIntro(a: Account, clock: int -> string): seq<string> {
    var m := a.metrics;
    ["=== @" + a.username + " ===",
     "Window: " + FmtWindow(a.windowStart, clock) + " to " + FmtWindow(a.windowEnd, clock),
     "Tweets collected: " + PyStr(m.total) + " (originals: " + PyStr(m.originals)
       + ", replies: " + PyStr(m.replies) + ", retweets: " + PyStr(m.retweets) + ")",
     "Engagement totals - likes: " + FmtNumber(m.likes) + ", retweets: " + FmtNumber(m.engagementRetweets)
       + ", replies: " + FmtNumber(m.engagementReplies),
     "AI Highlights:"]
  }

  /** The lines one account contributes. */
  function AccountLines(a: Account, clock: int -> string, wrapIndent: string -> string): seq<string> {
    AccountIntro(a, clock) + HighlightLines(a.aiSummary, wrapIndent) + TopTweetLines(a.topTweets, clock) + [""]
  }

  function AccountsLines(accounts: seq<Account>, clock: int -> string, wrapIndent: string -> string): seq<string> {
    if accounts == [] then []
    else AccountsLines(accounts[..|accounts| - 1], clock, wrapIndent) + AccountLines(accounts[|accounts| - 1], clock, wrapIndent)
  }

  /** The title and overview lines, or the first overview total that `{:,}` cannot format. */
  function HeaderLines(r: Report, clock: int -> string): Result<seq<string>, RenderError> {
    var o := r.overview;
    var likes, retweets, replies := CommaFormat(o.totalLikes), CommaFormat(o.totalRetweets), CommaFormat(o.totalReplies);
    if likes.None? then Err(CommaFormatError(o.totalLikes))
    else if retweets.None? then Err(CommaFormatError(o.totalRetweets))
    else if replies.None? then Err(CommaFormatError(o.totalReplies))
    else
      Ok([Title + " " + PyStr(r.windowHours) + " hours", "",
          "=== Run Overview ===",
          "Accounts: " + PyStr(o.accounts),
          "Total tweets: " + PyStr(o.totalTweets),
          "Engagement totals - likes: " + likes.value + ", retweets: " + retweets.value + "," + " replies: " + replies.value]
         + (if TruthyTime(o.earliestStart) && TruthyTime(o.latestEnd)
            then ["Overall window: " + FmtWindow(o.earliestStart, clock) + " to " + FmtWindow(o.latestEnd, clock)]
            else [])
         + [""])
  }

  /** `'\n'.join(lines).strip() + '\n'`. */
  function Finish(lines: seq<string>): string {
    Strip(Join(lines, "\n")) + "\n"
  }

  /** What `render_text(payload)` returns, or the error it raises. */
  function RenderTextSpec(r: Report, clock: int -> string, wrapIndent: string -> string): Result<string, RenderError> {
    match HeaderLines(r, clock)
    case Err(e) => Err(e)
    case Ok(head) => Ok(Finish(head + AccountsLines(r.accounts, clock, wrapIndent)))
  }

  /** The "AI Highlights" lines of one account, one `append` per raw summary line. */
  method HighlightText(summary: Option<string>, wrapIndent: string -> string) returns (lines: seq<string>)
    ensures lines == HighlightLines(summary, wrapIndent)
  {
    var items := if TruthyText(summary) then SplitLines(summary.value) else [];
    if items == [] {
      return [NoHighlightsLine];
    }
    lines := [];
    var i := 0;
    while i < |items|
      invariant 0 <= i <= |items|
      invariant lines == WrapAll(items[..i], wrapIndent)
    {
      var item := items[i];
      assert items[..i + 1][..i] == items[..i];
      var wrapped := if AllSpace(item) then item else wrapIndent(Strip(item));
      lines := lines + [wrapped];
      i := i + 1;
    }
    assert items[..i] == items;
  }

  /** The lines of the top tweet numbered `idx`, appended one by one. */
  method TweetText(idx: nat, tweet: Tweet, clock: int -> string) returns (block: seq<string>)
    ensures block == TweetLines(idx, tweet, clock)
  {
    block := [TweetHeader(idx, tweet, clock)];
    block := block + [EngagementLine(tweet)];
    if TruthyText(tweet.url) {
      block := block + [LinkLine(tweet.url.value)];
    }
  }

  /** The "Top tweets" lines of one account, numbering the tweets from 1 as `enumerate(..., 1)` does. */
  method TopTweetText(tweets: seq<Tweet>, clock: int -> string) returns (lines: seq<string>)
    ensures lines == TopTweetLines(tweets, clock)
  {
    if tweets == [] {
      return [NoTopTweetsLine];
    }
    lines := [TopTweetsLine];
    var i := 0;
    while i < |tweets|
      invariant 0 <= i <= |tweets|
      invariant lines == [TopTweetsLine] + NumberedTweets(tweets[..i], clock)
    {
      var block := TweetText(i + 1, tweets[i], clock);
      NumberedTweetsSnoc(tweets, i, clock);
      lines := lines + block;
      i := i + 1;
    }
    assert tweets[..i] == tweets;
  }

  /** The lines of one account, in the order the source appends them. */
  method AccountText(a: Account, clock: int -> string, wrapIndent: string -> string) returns (lines: seq<string>)
    ensures lines == AccountLines(a, clock, wrapIndent)
  {
    lines := AccountIntro(a, clock);
    var highlights := HighlightText(a.aiSummary, wrapIndent);
    lines := lines + highlights;
    var top := TopTweetText(a.topTweets, clock);
    lines := lines + top;
    lines := lines + [""];
  }

  /** The lines of all accounts, one account after another. */
  method AllAccountsText(accounts: seq<Account>, clock: int -> string, wrapIndent: string -> string) returns (lines: seq<string>)
    ensures lines == AccountsLines(accounts, clock, wrapIndent)
  {
    lines := [];
    var i := 0;
    while i < |accounts|
      invariant 0 <= i <= |accounts|
      invariant lines == AccountsLines(accounts[..i], clock, wrapIndent)
    {
      var more := AccountText(accounts[i], clock, wrapIndent);
      assert accounts[..i + 1][..i] == accounts[..i];
      lines := lines + more;
      i := i + 1;
    }
    assert accounts[..i] == accounts;
  }

  /** `render_text`: the header, then every account's lines, then the final strip and newline. */
  method RenderText(r: Report, clock: int -> string, wrapIndent: string -> string) returns (out: Result<string, RenderError>)
    ensures out == RenderTextSpec(r, clock, wrapIndent)
  {
    var head := HeaderLines(r, clock);
    if head.Err? {
      return Err(head.error);
    }
    var body := AllAccountsText(r.accounts, clock, wrapIndent);
    out := Ok(Finish(head.value + body));
  }

  /** The finished text carries no surrounding whitespace except one final newline. */
  lemma FinishShape(lines: seq<string>)
    ensures var t := Finish(lines);
      |t| >= 1 && t[|t| - 1] == '\n' && IsStripped(t[..|t| - 1])
  {
    var t := Finish(lines);
    assert t[..|t| - 1] == Strip(Join(lines, "\n"));
  }

  /** The text always opens with the title line, and the overview totals decide whether it fails. */
  lemma RenderTextOpens(r: Report, clock: int -> string, wrapIndent: string -> string)
    ensures RenderTextSpec(r, clock, wrapIndent).Ok? <==>
      CommaFormat(r.overview.totalLikes).Some? && CommaFormat(r.overview.totalRetweets).Some?
      && CommaFormat(r.overview.totalReplies).Some?
    ensures RenderTextSpec(r, clock, wrapIndent).Ok? ==> Title <= RenderTextSpec(r, clock, wrapIndent).value
  {
    var head := HeaderLines(r, clock);
    if head.Ok? {
      var lines := head.value + AccountsLines(r.accounts, clock, wrapIndent);
      var first := lines[0];
      assert Title <= first;
      assert first <= Join(lines, "\n");
      assert IsStripped(Title);
      StripKeepsPrefix(Title, Join(lines, "\n"));
    }
  }

  lemma NumberedTweetsSnoc(tweets: seq<Tweet>, i: nat, clock: int -> string)
    requires i < |tweets|
    ensures NumberedTweets(tweets[..i + 1], clock) == NumberedTweets(tweets[..i], clock) + TweetLines(i + 1, tweets[i], clock)
  {
    assert tweets[..i + 1][..i] == tweets[..i];
  }

  /** `NumberedTweets` of a prefix is a prefix. */
  lemma {:induction false} NumberedTweetsPrefix(tweets: seq<Tweet>, m: nat, clock: int -> string)
    requires m <= |tweets|
    ensures NumberedTweets(tweets[..m], clock) <= NumberedTweets(tweets, clock)
    decreases |tweets|
  {
    if m < |tweets| {
      var init := tweets[..|tweets| - 1];
      assert init[..m] == tweets[..m];
      NumberedTweetsPrefix(init, m, clock);
    } else {
      assert tweets[..m] == tweets;
    }
  }

  /**
   * Top tweets are numbered consecutively from 1: the lines of the tweet at
   * position k start, right after those of the tweets before it, with the
   * header numbered k + 1.
   */
  lemma TweetNumbering(tweets: seq<Tweet>, k: nat, clock: int -> string)
    requires k < |tweets|
    ensures var off := |NumberedTweets(tweets[..k], clock)|;
      off < |NumberedTweets(tweets, clock)|
      && NumberedTweets(tweets, clock)[off] == TweetHeader(k + 1, tweets[k], clock)
  {
    assert tweets[..k + 1][..k] == tweets[..k];
    NumberedTweetsPrefix(tweets, k + 1, clock);
  }

  /**
   * A tweet without a timestamp is listed as `[N/A]`, whatever the clock:
   * its header line, at the place `TweetNumbering` gives, is its number,
   * `[N/A]` and its text.
   */
  lemma UndatedTweetHeader(tweets: seq<Tweet>, k: nat, clock: int -> string)
    requires k < |tweets| && tweets[k].timestamp.None?
    ensures var off := |NumberedTweets(tweets[..k], clock)|;
      off < |NumberedTweets(tweets, clock)|
      && NumberedTweets(tweets, clock)[off] == "  " + NatStr(k + 1) + ". [" + "N/A" + "] " + tweets[k].text
  {
    TweetNumbering(tweets, k, clock);
  }

  /** Every tweet contributes two lines, plus a link line when it has a URL. */
  lemma {:induction false} NumberedTweetsLength(tweets: seq<Tweet>, clock: int -> string)
    ensures |NumberedTweets(tweets, clock)| == 2 * |tweets| + |UrlTweets(tweets)|
  {
    if tweets != [] {
      NumberedTweetsLength(tweets[..|tweets| - 1], clock);
    }
  }

  /** The tweets that have a URL. */
  function UrlTweets(tweets: seq<Tweet>): seq<Tweet> {
    if tweets == [] then []
    else UrlTweets(tweets[..|tweets| - 1]) + (if TruthyText(tweets[|tweets| - 1].url) then [tweets[|tweets| - 1]] else [])
  }

  /**
   * The text placeholder depends only on whether the summary is missing or
   * empty: a summary with text keeps one line per raw line, blank ones
   * verbatim.
   */
  lemma HighlightPlaceholder(summary: Option<string>, wrapIndent: string -> string)
    ensures !TruthyText(summary) ==> HighlightLines(summary, wrapIndent) == [NoHighlightsLine]
    ensures TruthyText(summary) ==>
      var items := SplitLines(summary.value);
      |HighlightLines(summary, wrapIndent)| == |items| >= 1
      && forall k :: 0 <= k < |items| && AllSpace(items[k]) ==> HighlightLines(summary, wrapIndent)[k] == items[k]
  {
    if TruthyText(summary) {
      WrapAllAt(SplitLines(summary.value), wrapIndent);
    }
  }

  lemma {:induction false} WrapAllAt(items: seq<string>, wrapIndent: string -> string)
    ensures |WrapAll(items, wrapIndent)| == |items|
    ensures forall k :: 0 <= k < |items| ==> WrapAll(items, wrapIndent)[k] == HighlightLine(items[k], wrapIndent)
  {
    if items != [] {
      var init := items[..|items| - 1];
      WrapAllAt(init, wrapIndent);
      var w := WrapAll(items, wrapIndent);
      assert w == WrapAll(init, wrapIndent) + [HighlightLine(items[|items| - 1], wrapIndent)];
      forall k | 0 <= k < |items| ensures w[k] == HighlightLine(items[k], wrapIndent) {
        if k < |init| { assert init[k] == items[k]; }
      }
    }
  }
}
