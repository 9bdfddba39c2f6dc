/** The analysis panel: a stock picker over seven fixed stocks filtered by a
    search box, and for the chosen stock a mock technical chart (31 days of
    price and two moving averages that fan out from today's price), price
    bands, a P/E valuation sentence and sentiment wording. Math.random()
    values are parameters; dates are days before today. */
module AnalysisPanel {
  import opened Numbers
  import opened Text
  import opened Options
  import Seqs

  datatype StockOption = StockOption(symbol: string, name: string, price: real, change: real)

  const StockOptions: seq<StockOption> := [
    StockOption("AAPL", "Apple Inc.", 182.52, 1.25),
    StockOption("MSFT", "Microsoft Corp.", 337.18, 2.34),
    StockOption("GOOGL", "Alphabet Inc.", 131.86, -0.75),
    StockOption("AMZN", "Amazon.com Inc.", 127.74, 1.05),
    StockOption("NVDA", "NVIDIA Corp.", 416.1, 5.23),
    StockOption("META", "Meta Platforms Inc.", 297.74, -1.32),
    StockOption("TSLA", "Tesla Inc.", 237.49, -3.21)
  ]

  // ---------------------------------------------------------------------
  // The stock picker
  // ---------------------------------------------------------------------

  /** The symbol or the name contains the query, ignoring case. */
  predicate Matches(s: StockOption, query: string) {
    Contains(Lower(s.symbol), Lower(query)) || Contains(Lower(s.name), Lower(query))
  }

  /** filteredStocks: every stock for an empty query, otherwise the matching
      ones in their listed order. A query of spaces is not empty. */
  function FilteredStocks(query: string): (r: seq<StockOption>)
    ensures query == "" ==> r == StockOptions
    ensures query != "" ==> forall s :: s in r <==> s in StockOptions && Matches(s, query)
    ensures |r| <= |StockOptions|
  {
    if query == "" then StockOptions
    else Seqs.Filter(StockOptions, (s: StockOption) => Matches(s, query))
  }

  /** Filtering never reorders the list. */
  lemma FilteredStocksInOrder(query: string)
    ensures Seqs.SubsequenceOf(FilteredStocks(query), StockOptions)
  {
    if query == "" {
      var idx := seq(|StockOptions|, k requires 0 <= k < |StockOptions| => k as nat);
      assert Seqs.IndexedBy(StockOptions, StockOptions, idx);
    } else {
      Seqs.FilterIsSubsequence(StockOptions, (s: StockOption) => Matches(s, query));
    }
  }

  /** Any query finds the stocks it names: a symbol, in any case, keeps its stock. */
  lemma SymbolQueryFindsStock(s: StockOption, query: string)
    requires s in StockOptions && query != ""
    requires Lower(query) == Lower(s.symbol)
    ensures s in FilteredStocks(query)
  {
    ContainsSelf(Lower(s.symbol));
  }

  // ---------------------------------------------------------------------
  // The technical chart
  // ---------------------------------------------------------------------

  const ChartDays: nat := 30

  /** One chart day: days before today, the price, the 20- and 50-day
      averages in cents, and the volume. */
  datatype TechnicalPoint = TechnicalPoint(daysAgo: nat, price: real, sma20: real, sma50: real, volume: int)

  /** The two draws of one chart day, in call order. */
  datatype DayDraws = DayDraws(change: real, volume: real)

  predicate IsDayDraws(d: DayDraws) {
    IsDraw(d.change) && IsDraw(d.volume)
  }

  /** `selectedStock?.price || 100`: a zero price falls back to 100. */
  function BaseValue(s: StockOption): (b: real)
    ensures s.price != 0.0 ==> b == s.price
    ensures s.price == 0.0 ==> b == 100.0
  {
    if s.price != 0.0 then s.price else 100.0
  }

  /** The day's random change: up to 2% either way. */
  function RandomChange(r: real): (c: real)
    requires IsDraw(r)
    ensures -0.02 <= c < 0.02
  {
    (r * 2.0 - 1.0) * 0.02
  }

  /** baseValue · (1 + change · i / d): the deviation grows with the
      distance from today and shrinks with the divisor. */
  function Level(base: real, change: real, i: nat, d: real): real
    requires d > 0.0
  {
    base * (1.0 + change * i as real / d)
  }

  /** Math.round(1000000 + Math.random() * 5000000). */
  function Volume(r: real): (v: int)
    requires IsDraw(r)
    ensures 1000000 <= v <= 6000000
  {
    RoundWithin(1000000.0 + r * 5000000.0, 1000000, 6000000);
    Round(1000000.0 + r * 5000000.0)
  }

  /** The chart day i days before today. */
  function Point(base: real, i: nat, d: DayDraws): TechnicalPoint
    requires IsDayDraws(d)
  {
    var c := RandomChange(d.change);
    TechnicalPoint(i, Round2(Level(base, c, i, 10.0)), Round2(Level(base, c, i, 15.0)),
      Round2(Level(base, c, i, 20.0)), Volume(d.volume))
  }

  /** The chart: 31 days, the oldest (30 days ago) first. */
  function TechnicalSeries(base: real, draws: seq<DayDraws>): (ps: seq<TechnicalPoint>)
    requires |draws| == ChartDays + 1
    requires forall k :: 0 <= k < |draws| ==> IsDayDraws(draws[k])
    ensures |ps| == ChartDays + 1
  {
    seq(ChartDays + 1, k requires 0 <= k <= ChartDays => Point(base, ChartDays - k, draws[k]))
  }

  /** generateTechnicalData's loop: i counts down from 30 to 0. */
  method GenerateTechnicalData(s: StockOption, draws: seq<DayDraws>) returns (data: seq<TechnicalPoint>)
    requires |draws| == ChartDays + 1
    requires forall k :: 0 <= k < |draws| ==> IsDayDraws(draws[k])
    ensures data == TechnicalSeries(BaseValue(s), draws)
  {
    var base := BaseValue(s);
    data := [];
    var i: int := ChartDays;
    while i >= 0
      invariant -1 <= i <= ChartDays
      invariant |data| == ChartDays - i
      invariant forall k :: 0 <= k < |data| ==> data[k] == Point(base, ChartDays - k, draws[k])
    {
      var c := RandomChange(draws[ChartDays - i].change);
      var value := Level(base, c, i, 10.0);
      var sma20 := Level(base, c, i, 15.0);
      var sma50 := Level(base, c, i, 20.0);
      var volume := Volume(draws[ChartDays - i].volume);
      data := data + [TechnicalPoint(i, Round2(value), Round2(sma20), Round2(sma50), volume)];
      i := i - 1;
    }
    assert forall k :: 0 <= k <= ChartDays ==> data[k] == TechnicalSeries(base, draws)[k];
  }

  /** For a positive base, the three lines fan out in the direction of the
      day's change: the price furthest from the base, the 50-day average
      nearest to it. */
  lemma LevelsFanOut(base: real, c: real, i: nat)
    requires base > 0.0
    ensures c >= 0.0 ==> base <= Level(base, c, i, 20.0) <= Level(base, c, i, 15.0) <= Level(base, c, i, 10.0)
    ensures c <= 0.0 ==> Level(base, c, i, 10.0) <= Level(base, c, i, 15.0) <= Level(base, c, i, 20.0) <= base
  {
    var m := c * i as real;
    assert Level(base, c, i, 10.0) == base + base * m / 10.0;
    assert Level(base, c, i, 15.0) == base + base * m / 15.0;
    assert Level(base, c, i, 20.0) == base + base * m / 20.0;
    if c >= 0.0 {
      MulNonNegative(c, i as real);
      MulNonNegative(base, m);
    } else {
      MulNonNegative(-c, i as real);
      MulNonNegative(base, -m);
    }
  }

  /** Four values in order, one way or the other. */
  predicate Monotone4(a: real, b: real, c: real, d: real) {
    (a <= b <= c <= d) || (d <= c <= b <= a)
  }

  /** Rounded to cents, a chart day still fans out from the base. */
  lemma PointFansOut(base: real, i: nat, d: DayDraws)
    requires base > 0.0 && IsDayDraws(d)
    ensures Monotone4(Round2(base), Point(base, i, d).sma50, Point(base, i, d).sma20, Point(base, i, d).price)
  {
    var c := RandomChange(d.change);
    LevelsFanOut(base, c, i);
    var l10, l15, l20 := Level(base, c, i, 10.0), Level(base, c, i, 15.0), Level(base, c, i, 20.0);
    if c >= 0.0 {
      Round2Monotone(base, l20);
      Round2Monotone(l20, l15);
      Round2Monotone(l15, l10);
    } else {
      Round2Monotone(l20, base);
      Round2Monotone(l15, l20);
      Round2Monotone(l10, l15);
    }
  }

  /** Every chart day fans out from the base after rounding, its volume lies
      in [1000000, 6000000], and today's three values are the base itself. */
  lemma ChartShape(base: real, draws: seq<DayDraws>, k: nat)
    requires base > 0.0
    requires |draws| == ChartDays + 1
    requires forall j :: 0 <= j < |draws| ==> IsDayDraws(draws[j])
    requires k <= ChartDays
    ensures TechnicalSeries(base, draws)[k].daysAgo == ChartDays - k
    ensures 1000000 <= TechnicalSeries(base, draws)[k].volume <= 6000000
    ensures Monotone4(Round2(base), TechnicalSeries(base, draws)[k].sma50,
      TechnicalSeries(base, draws)[k].sma20, TechnicalSeries(base, draws)[k].price)
    ensures TechnicalSeries(base, draws)[ChartDays].price == Round2(base)
    ensures TechnicalSeries(base, draws)[ChartDays].sma20 == Round2(base)
    ensures TechnicalSeries(base, draws)[ChartDays].sma50 == Round2(base)
  {
    assert TechnicalSeries(base, draws)[k] == Point(base, ChartDays - k, draws[k]);
    PointFansOut(base, ChartDays - k, draws[k]);
    assert TechnicalSeries(base, draws)[ChartDays] == Point(base, 0, draws[ChartDays]);
  }

  // ---------------------------------------------------------------------
  // Price bands, valuation and sentiment wording
  // ---------------------------------------------------------------------

  /** The Bollinger band shown: 95% to 105% of the price. */
  function BollingerBand(price: real): (band: (real, real))
    ensures price > 0.0 ==> band.0 < price < band.1
    ensures band.1 - band.0 == price * 0.1
  {
    (price * 0.95, price * 1.05)
  }

  /** Support at 90% and resistance at 110% of the price. */
  function SupportResistance(price: real): (levels: (real, real))
    ensures price > 0.0 ==> levels.0 < BollingerBand(price).0 && BollingerBand(price).1 < levels.1
    ensures levels.1 - levels.0 == price * 0.2
  {
    (price * 0.9, price * 1.1)
  }

  /** (15 + Math.random() * 25).toFixed(2), read back as a number. */
  function PeRatio(r: real): (pe: real)
    requires IsDraw(r)
    ensures 15.0 <= pe <= 40.0
  {
    RoundWithin((15.0 + r * 25.0) * 100.0, 1500, 4000);
    Round2(15.0 + r * 25.0)
  }

  /** The valuation sentence: "above … potentially overvalued" exactly when
      the P/E exceeds 20, "below … potentially undervalued" otherwise. */
  function Valuation(pe: real): (words: (string, string))
    ensures pe > 20.0 <==> words == ("above", "potentially overvalued")
    ensures pe <= 20.0 <==> words == ("below", "potentially undervalued")
  {
    if pe > 20.0 then ("above", "potentially overvalued") else ("below", "potentially undervalued")
  }

  /** Both sentences occur: a low draw gives a P/E of 15, a middle one 27.5. */
  lemma BothValuationsOccur()
    ensures Valuation(PeRatio(0.0)) == ("below", "potentially undervalued")
    ensures Valuation(PeRatio(0.5)) == ("above", "potentially overvalued")
  {
    RoundOfInt(1500);
    RoundOfInt(2750);
    assert PeRatio(0.0) == 15.0;
    assert PeRatio(0.5) == 27.5;
  }

  /** (Math.random() * 100).toFixed(0), read back as a number. */
  function SentimentScore(r: real): (s: int)
    requires IsDraw(r)
    ensures 0 <= s <= 100
  {
    RoundWithin(r * 100.0, 0, 100);
    Round(r * 100.0)
  }

  datatype SentimentWords = SentimentWords(mood: string, institutions: string, coverage: string)

  /** The sentiment paragraph: overall above 50, institutional above 60 and
      news above 50 choose the positive phrases. */
  function SentimentWording(overall: int, institutional: int, news: int): (w: SentimentWords)
    ensures w.mood == "positive" <==> overall > 50
    ensures w.mood != "positive" ==> w.mood == "mixed"
    ensures w.institutions == "strong interest" <==> institutional > 60
    ensures w.institutions != "strong interest" ==> w.institutions == "cautious positioning"
    ensures w.coverage == "favorable" <==> news > 50
    ensures w.coverage != "favorable" ==> w.coverage == "neutral to negative"
  {
    SentimentWords(
      if overall > 50 then "positive" else "mixed",
      if institutional > 60 then "strong interest" else "cautious positioning",
      if news > 50 then "favorable" else "neutral to negative")
  }

  // ---------------------------------------------------------------------
  // The panel
  // ---------------------------------------------------------------------

  class Panel {
    var searchQuery: string
    var isAnalyzing: bool
    var activeTab: string
    var selectedStock: Option<StockOption>

    constructor ()
      ensures searchQuery == "" && !isAnalyzing && activeTab == "technical" && selectedStock == None
    {
      searchQuery := "";
      isAnalyzing := false;
      activeTab := "technical";
      selectedStock := None;
    }

    /** The picker's buttons. */
    function Listed(): seq<StockOption>
      reads this
    {
      FilteredStocks(searchQuery)
    }

    method SetQuery(q: string)
      modifies this
      ensures searchQuery == q && isAnalyzing == old(isAnalyzing)
      ensures activeTab == old(activeTab) && selectedStock == old(selectedStock)
    {
      searchQuery := q;
    }

    /** handleSelectStock: the stock is chosen and the analysis starts. */
    method SelectStock(s: StockOption)
      modifies this
      ensures selectedStock == Some(s) && isAnalyzing
      ensures searchQuery == old(searchQuery) && activeTab == old(activeTab)
    {
      isAnalyzing := true;
      selectedStock := Some(s);
    }

    /** The timeout 1.5 s later: the analysis is shown. */
    method AnalysisDone()
      modifies this
      ensures !isAnalyzing
      ensures selectedStock == old(selectedStock) && searchQuery == old(searchQuery) && activeTab == old(activeTab)
    {
      isAnalyzing := false;
    }

    method SetActiveTab(tab: string)
      modifies this
      ensures activeTab == tab
      ensures selectedStock == old(selectedStock) && searchQuery == old(searchQuery) && isAnalyzing == old(isAnalyzing)
    {
      activeTab := tab;
    }
  }
}
