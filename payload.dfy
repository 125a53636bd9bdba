/** The report payload the renderer reads (the JSON document `main` loads). */
module Payload {
  import opened Wrappers
  import opened Numbers

  /** One entry of an account's `topTweets`. */
  datatype Tweet = Tweet(
    timestamp: Option<int>,
    text: string,
    likes: Value,
    retweets: Value,
    replies: Value,
    url: Option<string>)

  /** An account's `metrics` object. */
  datatype Metrics = Metrics(
    total: Value,
    originals: Value,
    replies: Value,
    retweets: Value,
    likes: Value,
    engagementRetweets: Value,
    engagementReplies: Value)

  /** One element of `accounts`. */
  datatype Account = Account(
    username: string,
    aiSummary: Option<string>,
    windowStart: Option<int>,
    windowEnd: Option<int>,
    metrics: Metrics,
    topTweets: seq<Tweet>)

  /** The `overview` object. */
  datatype Overview = Overview(
    accounts: Value,
    totalTweets: Value,
    totalLikes: Value,
    totalRetweets: Value,
    totalReplies: Value,
    earliestStart: Option<int>,
    latestEnd: Option<int>)

  datatype Report = Report(windowHours: Value, overview: Overview, accounts: seq<Account>)

  /** Python truthiness of an optional timestamp: `None` and `0` are false. */
  predicate TruthyTime(t: Option<int>) {
    t.Some? && t.value != 0
  }

  /** Python truthiness of an optional string: `None` and `""` are false. */
  predicate TruthyText(s: Option<string>) {
    s.Some? && s.value != []
  }

  /**
   * `fmt_window(ts)`: "N/A" for a missing timestamp; otherwise the local
   * date and time that `clock` renders it as.
   */
  function FmtWindow(ts: Option<int>, clock: int -> string): string {
    match ts
    case None => "N/A"
    case Some(t) => clock(t)
  }
}
