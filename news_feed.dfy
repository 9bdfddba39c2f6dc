/** The news feed: a fixed load of eight stories, a backup set of three
    installed after repeated failed loads, a live tick that may prepend one
    random headline while keeping at most 20 items, the category tabs, and
    the "m/h/d ago" labels. Times are milliseconds; the load's success and
    every random draw are parameters. */
module NewsFeed {
  import opened Options
  import opened Numbers
  import opened Text
  import Seqs

  datatype Sentiment = Positive | Negative | Neutral
  datatype Category = Market | Stocks | Crypto | Economy

  datatype NewsItem = NewsItem(
    id: string, title: string, source: string, url: string, timestamp: int,
    sentiment: Sentiment, category: Category, aiInsight: Option<string>)

  const HourMs := 3600000
  const MaxItems: nat := 20

  function CategoryName(c: Category): string {
    match c
    case Market => "market"
    case Stocks => "stocks"
    case Crypto => "crypto"
    case Economy => "economy"
  }

  /** A fixed story: its text, and how many hours before the base date it is dated. */
  datatype Story = Story(id: string, title: string, source: string, hoursAgo: nat,
                         sentiment: Sentiment, category: Category, aiInsight: Option<string>)

  /** The story dated `hoursAgo` hours before `base`. Both fixed tables are
      dated from the same fixed local date, 2025-03-27T21:11:23, not from the
      clock; `base` is its millisecond time, a parameter only because that
      value depends on the time zone. */
  function Dated(st: Story, base: int): (n: NewsItem)
    ensures n.id == st.id && n.title == st.title && n.category == st.category
    ensures n.timestamp == base - st.hoursAgo * HourMs
  {
    NewsItem(st.id, st.title, st.source, "#", base - st.hoursAgo * HourMs, st.sentiment, st.category, st.aiInsight)
  }

  const MockStories: seq<Story> := [
    Story("1", "Federal Reserve signals potential rate cuts in coming months", "Financial Times", 2, Positive, Economy,
      Some("This could positively impact growth stocks and reduce borrowing costs for companies.")),
    Story("2", "Tech stocks rally as AI investments continue to drive market gains", "Wall Street Journal", 5, Positive, Stocks,
      Some("AI-focused companies are showing strong momentum with potential for continued growth.")),
    Story("3", "Bitcoin faces resistance at $65,000 as market sentiment shifts", "CoinDesk", 8, Negative, Crypto,
      Some("Technical indicators suggest a potential short-term correction before resuming uptrend.")),
    Story("4", "Inflation data shows cooling consumer prices, boosting market outlook", "Bloomberg", 12, Positive, Economy,
      Some("Lower inflation could reduce pressure on the Fed to maintain high interest rates.")),
    Story("5", "Oil prices drop amid concerns over global demand slowdown", "Reuters", 16, Negative, Market,
      Some("Energy sector may face headwinds, but could benefit transportation and consumer discretionary stocks.")),
    Story("6", "Major retailer exceeds earnings expectations, shares surge 8%", "CNBC", 20, Positive, Stocks,
      Some("Consumer spending remains resilient despite economic concerns, positive for retail sector.")),
    Story("7", "Ethereum upgrade scheduled for next quarter, promising improved scalability", "CryptoNews", 24, Positive, Crypto,
      Some("Technical improvements could drive increased adoption and transaction volume.")),
    Story("8", "Housing market shows signs of cooling as mortgage rates remain elevated", "Housing Wire", 36, Negative, Economy,
      Some("Real estate sector may face challenges, but potential rate cuts could provide relief."))
  ]

  const BackupStories: seq<Story> := [
    Story("backup-1", "Markets continue to show volatility amid economic uncertainty", "Market Watch", 1, Neutral, Market, None),
    Story("backup-2", "Tech sector leads gains in today's trading session", "Financial News", 3, Positive, Stocks, None),
    Story("backup-3", "Cryptocurrency markets show signs of recovery", "Crypto Daily", 6, Positive, Crypto, None)
  ]

  /** The stories of a table, dated back from `base`, in table order. */
  function DatedStories(sts: seq<Story>, base: int): (ns: seq<NewsItem>)
    ensures |ns| == |sts|
    ensures forall i :: 0 <= i < |sts| ==> ns[i] == Dated(sts[i], base)
  {
    seq(|sts|, i requires 0 <= i < |sts| => Dated(sts[i], base))
  }

  /** The eight stories of a successful load. */
  function MockNews(base: int): (ns: seq<NewsItem>)
    ensures |ns| == |MockStories|
  {
    DatedStories(MockStories, base)
  }

  /** generateBackupNews: three stories. */
  function BackupNews(base: int): (ns: seq<NewsItem>)
    ensures |ns| == |BackupStories|
  {
    DatedStories(BackupStories, base)
  }

  /** Both fixed sets fit the feed, the backup stories carry no AI insight,
      and the stories are listed newest first. */
  lemma FixedStoriesShape()
    ensures |MockStories| == 8 && |BackupStories| == 3
    ensures forall i :: 0 <= i < |BackupStories| ==> BackupStories[i].aiInsight == None
    ensures forall i :: 0 <= i < |MockStories| - 1 ==> MockStories[i].hoursAgo < MockStories[i + 1].hoursAgo
  {
  }

  // ---------------------------------------------------------------------
  // The live tick
  // ---------------------------------------------------------------------

  const Categories: seq<Category> := [Market, Stocks, Crypto, Economy]
  const Sentiments: seq<Sentiment> := [Positive, Negative, Neutral]
  const Sources: seq<string> := ["Bloomberg", "CNBC", "Reuters", "Wall Street Journal", "Financial Times"]

  const MarketHeadlines: seq<string> := ["Markets react to latest economic indicators", "Global markets show mixed signals",
    "Trading volume increases amid market uncertainty", "Market volatility reaches new highs"]
  const StocksHeadlines: seq<string> := ["Tech stocks continue upward trend", "Retail sector shows signs of recovery",
    "Energy stocks face pressure from policy changes", "Financial stocks rally on interest rate news"]
  const CryptoHeadlines: seq<string> := ["Bitcoin tests new resistance levels", "Ethereum upgrade sparks investor interest",
    "Cryptocurrency adoption increases among institutions", "Regulatory clarity boosts crypto market sentiment"]
  const EconomyHeadlines: seq<string> := ["Inflation data surprises economists", "Job market shows resilience despite challenges",
    "Consumer spending trends indicate economic strength", "Supply chain improvements boost economic outlook"]

  /** The four headlines a live story of this category can carry. */
  function Headlines(c: Category): (hs: seq<string>)
    ensures |hs| == 4
  {
    match c
    case Market => MarketHeadlines
    case Stocks => StocksHeadlines
    case Crypto => CryptoHeadlines
    case Economy => EconomyHeadlines
  }

  const DynamicInsight := "Our AI analysis suggests this could impact market sentiment in the short term."

  /** The six Math.random() values of one tick, in the order they are drawn. */
  datatype TickDraws = TickDraws(chance: real, category: real, sentiment: real, source: real, headline: real, insight: real)

  predicate IsTickDraws(d: TickDraws) {
    IsDraw(d.chance) && IsDraw(d.category) && IsDraw(d.sentiment)
    && IsDraw(d.source) && IsDraw(d.headline) && IsDraw(d.insight)
  }

  /** The story a tick adds at time `now`. */
  function DynamicItem(d: TickDraws, now: int): (n: NewsItem)
    requires IsTickDraws(d)
    ensures n.category in Categories && n.sentiment in Sentiments && n.source in Sources
    ensures n.title in Headlines(n.category)
    ensures n.timestamp == now && n.id == "dynamic-" + IntToString(now)
    ensures n.aiInsight == Some(DynamicInsight) <==> d.insight > 0.5
  {
    var c := Categories[RandomIndex(d.category, |Categories|)];
    NewsItem(
      "dynamic-" + IntToString(now),
      Headlines(c)[RandomIndex(d.headline, 4)],
      Sources[RandomIndex(d.source, |Sources|)],
      "#", now,
      Sentiments[RandomIndex(d.sentiment, |Sentiments|)],
      c,
      if d.insight > 0.5 then Some(DynamicInsight) else None)
  }

  /** `[newItem, ...prev.slice(0, 19)]`. */
  function Prepend(item: NewsItem, news: seq<NewsItem>): (r: seq<NewsItem>)
    ensures |r| == 1 + Min(|news|, MaxItems - 1)
    ensures r[0] == item
    ensures forall i :: 0 <= i < |r| - 1 ==> r[i + 1] == news[i]
  {
    [item] + Seqs.Take(news, MaxItems - 1)
  }

  /** A feed of at most 20 items stays at most 20 items long, and the newest
      story comes first. */
  lemma PrependBounded(item: NewsItem, news: seq<NewsItem>)
    ensures |Prepend(item, news)| <= MaxItems
    ensures |news| < MaxItems ==> Prepend(item, news) == [item] + news
  {
  }

  // ---------------------------------------------------------------------
  // Category tabs and relative time
  // ---------------------------------------------------------------------

  /** filteredNews for the active tab. */
  function FilteredNews(news: seq<NewsItem>, activeCategory: string): (r: seq<NewsItem>)
    ensures |r| <= |news|
    ensures activeCategory == "all" ==> r == news
    ensures activeCategory != "all" ==>
      forall n :: n in r <==> n in news && CategoryName(n.category) == activeCategory
  {
    if activeCategory == "all" then news
    else Seqs.Filter(news, (n: NewsItem) => CategoryName(n.category) == activeCategory)
  }

  /** A category tab keeps its stories in their feed order. */
  lemma FilteredNewsInOrder(news: seq<NewsItem>, activeCategory: string)
    ensures Seqs.SubsequenceOf(FilteredNews(news, activeCategory), news)
  {
    if activeCategory == "all" {
      var idx := seq(|news|, i requires 0 <= i < |news| => i as nat);
      assert Seqs.IndexedBy(news, news, idx);
    } else {
      Seqs.FilterIsSubsequence(news, (n: NewsItem) => CategoryName(n.category) == activeCategory);
    }
  }

  /** Whole minutes between the story and now, rounded down (Math.floor;
      a future timestamp gives a negative count). */
  function MinutesAgo(now: int, timestamp: int): int {
    (now - timestamp) / 60000
  }

  /** formatRelativeTime. */
  function FormatRelativeTime(now: int, timestamp: int): (s: string)
  {
    var m := MinutesAgo(now, timestamp);
    if m < 60 then IntToString(m) + "m ago"
    else if m < 24 * 60 then IntToString(m / 60) + "h ago"
    else IntToString(m / (60 * 24)) + "d ago"
  }

  /** The count in a label and its unit: the number reads back as the
      minutes, whole hours or whole days elapsed, by bucket. */
  lemma RelativeTimeReadsBack(now: int, timestamp: int)
    ensures |FormatRelativeTime(now, timestamp)| > 5
    ensures var s := FormatRelativeTime(now, timestamp);
            var m := MinutesAgo(now, timestamp);
            var unit := s[|s| - 5..];
            var count := ParseInt(s[..|s| - 5]);
            && (m < 60 ==> unit == "m ago" && count == m)
            && (60 <= m < 1440 ==> unit == "h ago" && count == m / 60 && 1 <= count < 24)
            && (1440 <= m ==> unit == "d ago" && count == m / 1440 && count >= 1)
  {
    var m := MinutesAgo(now, timestamp);
    var n := if m < 60 then m else if m < 1440 then m / 60 else m / 1440;
    var u := if m < 60 then "m ago" else if m < 1440 then "h ago" else "d ago";
    var s := FormatRelativeTime(now, timestamp);
    assert s == IntToString(n) + u;
    assert s[..|s| - 5] == IntToString(n);
    assert s[|s| - 5..] == u;
    IntToStringRoundTrip(n);
  }

  /** Labels of the minutes bucket tell every count apart. */
  lemma MinuteLabelsDistinct(now: int, t1: int, t2: int)
    requires MinutesAgo(now, t1) < 60 && MinutesAgo(now, t2) < 60
    requires FormatRelativeTime(now, t1) == FormatRelativeTime(now, t2)
    ensures MinutesAgo(now, t1) == MinutesAgo(now, t2)
  {
    RelativeTimeReadsBack(now, t1);
    RelativeTimeReadsBack(now, t2);
  }

  /** The bucket edges: 59 minutes, one hour, one day. */
  lemma RelativeTimeBoundaries(now: int)
    ensures FormatRelativeTime(now, now - 59 * 60000) == "59m ago"
    ensures FormatRelativeTime(now, now - 60 * 60000) == "1h ago"
    ensures FormatRelativeTime(now, now - 1440 * 60000) == "1d ago"
  {
    assert MinutesAgo(now, now - 59 * 60000) == 59;
    assert MinutesAgo(now, now - 60 * 60000) == 60;
    assert MinutesAgo(now, now - 1440 * 60000) == 1440;
    assert NatToString(5) == "5";
    assert NatToString(59) == NatToString(5) + [DigitChar(9)];
    assert IntToString(59) == "59";
    assert IntToString(1) == "1";
  }

  // ---------------------------------------------------------------------
  // The feed state
  // ---------------------------------------------------------------------

  class Feed {
    var news: seq<NewsItem>
    var isLoading: bool
    var activeCategory: string
    var isInitialLoad: bool
    var failedUpdates: nat

    constructor ()
      ensures news == [] && isLoading && activeCategory == "all" && isInitialLoad && failedUpdates == 0
    {
      news := [];
      isLoading := true;
      activeCategory := "all";
      isInitialLoad := true;
      failedUpdates := 0;
    }

    /** The feed never holds more than 20 stories. */
    ghost predicate Valid()
      reads this
    {
      |news| <= MaxItems
    }

    /** fetchNews (`base` being the fixed base date of the tables): a
        success installs the eight stories and clears the
        failure counter; a failure counts, and the third failure in a row
        (and every later one) installs the backup stories. */
    method FetchNews(succeeded: bool, base: int)
      requires Valid()
      modifies this`news, this`isLoading, this`isInitialLoad, this`failedUpdates
      ensures Valid() && !isLoading
      ensures succeeded ==> news == MockNews(base) && failedUpdates == 0 && !isInitialLoad
      ensures !succeeded ==> failedUpdates == old(failedUpdates) + 1
      ensures !succeeded && failedUpdates > 2 ==> news == BackupNews(base) && !isInitialLoad
      ensures !succeeded && failedUpdates <= 2 ==> news == old(news) && isInitialLoad == old(isInitialLoad)
    {
      isLoading := true;
      if succeeded {
        news := MockNews(base);
        failedUpdates := 0;
        isInitialLoad := false;
      } else {
        failedUpdates := failedUpdates + 1;
        if failedUpdates > 2 {
          news := BackupNews(base);
          isInitialLoad := false;
        }
      }
      isLoading := false;
    }

    /** One minute of the live update: nothing while the feed is empty; with
        chance 0.2 a random story goes on top, the oldest beyond 20 dropping off. */
    method LiveTick(d: TickDraws, now: int)
      requires Valid() && IsTickDraws(d)
      modifies this`news
      ensures Valid()
      ensures old(news) != [] && d.chance < 0.2 ==> news == Prepend(DynamicItem(d, now), old(news))
      ensures !(old(news) != [] && d.chance < 0.2) ==> news == old(news)
    {
      if |news| != 0 && d.chance < 0.2 {
        news := Prepend(DynamicItem(d, now), news);
      }
    }

    /** The refresh button, first step: only the loading flag is raised;
        the stories are not fetched again. */
    method StartRefresh()
      modifies this`isLoading
      ensures isLoading
    {
      isLoading := true;
    }

    /** The refresh button, one second later: the loading flag drops. */
    method FinishRefresh()
      modifies this`isLoading
      ensures !isLoading
    {
      isLoading := false;
    }

    method SetActiveCategory(c: string)
      modifies this`activeCategory
      ensures activeCategory == c
    {
      activeCategory := c;
    }

    /** The stories the active tab shows. */
    function Shown(): (r: seq<NewsItem>)
      reads this
      ensures |r| <= |news|
      ensures activeCategory == "all" ==> r == news
      ensures forall n :: n in r ==> n in news && (activeCategory == "all" || CategoryName(n.category) == activeCategory)
    {
      FilteredNews(news, activeCategory)
    }
  }
}
