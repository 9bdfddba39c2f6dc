/** The market search card. A non-blank query yields three made-up results
    whose symbols derive from the query, and choosing a result draws a
    30-day random-walk price history ending today, shown as bars capped at
    80% of the chart height. Math.random() values are parameters; dates are
    represented by how many days before today they lie. */
module MarketSearch {
  import opened Numbers
  import opened Text
  import opened Options

  /** A search result; `change` is the percent change, rounded to cents. */
  datatype StockResult = StockResult(symbol: string, name: string, price: int, change: real)

  /** One day of the history: its distance from today and the price in cents. */
  datatype Day = Day(daysAgo: nat, price: real)

  /** The six draws of one search, in call order. */
  datatype SearchDraws = SearchDraws(price1: real, change1: real, price2: real, change2: real, price3: real, change3: real)

  predicate IsSearchDraws(d: SearchDraws) {
    IsDraw(d.price1) && IsDraw(d.change1) && IsDraw(d.price2)
    && IsDraw(d.change2) && IsDraw(d.price3) && IsDraw(d.change3)
  }

  const HistoryDays: nat := 30
  const MaxBarHeight: real := 80.0

  // ---------------------------------------------------------------------
  // The mock search
  // ---------------------------------------------------------------------

  /** query.substring(0, n): the first n characters, or all of a shorter query. */
  function Prefix(q: string, n: nat): (p: string)
    ensures |p| == Min(n, |q|)
    ensures p <= q
  {
    q[..Min(n, |q|)]
  }

  function FirstSymbol(q: string): string {
    Upper(q)
  }

  function SecondSymbol(q: string): string {
    Upper(Prefix(q, 1)) + "LTX"
  }

  function ThirdSymbol(q: string): string {
    Upper(Prefix(q, 2)) + "RK"
  }

  /** Math.round(Math.random() * span + low). */
  function RandomPrice(r: real, span: int, low: int): (p: int)
    requires IsDraw(r) && span >= 0
    ensures low <= p <= low + span
  {
    MulNonNegative(r, span as real);
    MulNonNegative(1.0 - r, span as real);
    RoundWithin(r * span as real + low as real, low, low + span);
    Round(r * span as real + low as real)
  }

  /** (Math.random() * 6 - 3).toFixed(2), read back as a number. */
  function RandomChange(r: real): (c: real)
    requires IsDraw(r)
    ensures -3.005 < c <= 3.005
  {
    Round2(r * 6.0 - 3.0)
  }

  /** mockMarketSearch: three results for the query. */
  function MockSearch(q: string, d: SearchDraws): (rs: seq<StockResult>)
    requires IsSearchDraws(d)
    ensures |rs| == 3
    ensures rs[0].symbol == FirstSymbol(q) && rs[0].name == FirstSymbol(q) + " Corporation"
    ensures rs[1].symbol == SecondSymbol(q) && rs[1].name == SecondSymbol(q) + " Industries Ltd."
    ensures rs[2].symbol == ThirdSymbol(q) && rs[2].name == ThirdSymbol(q) + " Group Inc."
    ensures 10 <= rs[0].price <= 510 && 20 <= rs[1].price <= 220 && 15 <= rs[2].price <= 315
  {
    [ StockResult(FirstSymbol(q), FirstSymbol(q) + " Corporation", RandomPrice(d.price1, 500, 10), RandomChange(d.change1)),
      StockResult(SecondSymbol(q), SecondSymbol(q) + " Industries Ltd.", RandomPrice(d.price2, 200, 20), RandomChange(d.change2)),
      StockResult(ThirdSymbol(q), ThirdSymbol(q) + " Group Inc.", RandomPrice(d.price3, 300, 15), RandomChange(d.change3)) ]
  }

  /** The derived symbols agree with the full one: the second and third
      begin with the query's first one and two characters, upper-cased, as
      does the first, and carry their fixed suffix. */
  lemma SymbolsSharePrefix(q: string)
    ensures |SecondSymbol(q)| == Min(1, |q|) + 3 && |ThirdSymbol(q)| == Min(2, |q|) + 2
    ensures SecondSymbol(q)[..Min(1, |q|)] <= FirstSymbol(q)
    ensures ThirdSymbol(q)[..Min(2, |q|)] <= FirstSymbol(q)
    ensures SecondSymbol(q)[Min(1, |q|)..] == "LTX" && ThirdSymbol(q)[Min(2, |q|)..] == "RK"
  {
    var p1 := Prefix(q, 1);
    var p2 := Prefix(q, 2);
    assert q == p1 + q[|p1|..];
    assert q == p2 + q[|p2|..];
    UpperAppend(p1, q[|p1|..]);
    UpperAppend(p2, q[|p2|..]);
    assert SecondSymbol(q)[..|p1|] == Upper(p1);
    assert ThirdSymbol(q)[..|p2|] == Upper(p2);
  }

  /** Every price in the stated range is produced by some draw. */
  lemma EveryFirstPriceReachable(p: int)
    requires 10 <= p < 510
    ensures IsDraw((p - 10) as real / 500.0)
    ensures RandomPrice((p - 10) as real / 500.0, 500, 10) == p
  {
    var r := (p - 10) as real / 500.0;
    assert r * 500.0 == (p - 10) as real;
    RoundOfInt(p);
  }

  // ---------------------------------------------------------------------
  // The price history
  // ---------------------------------------------------------------------

  /** The daily swing: 1.5% for a rising stock, 0.8% otherwise. */
  function Amplitude(change: real): (a: real)
    ensures a == 1.5 || a == 0.8
    ensures a == 1.5 <==> change > 0.0
  {
    if change > 0.0 then 1.5 else 0.8
  }

  /** One day's move: price + price·change/100, change in [-a, a). */
  function Move(price: real, r: real, a: real): real {
    price + price * ((r * 2.0 - 1.0) * a) / 100.0
  }

  /** The running price after the moves of `draws` in turn. */
  function Walk(start: real, draws: seq<real>, a: real): real
    decreases |draws|
  {
    if draws == [] then start
    else Move(Walk(start, draws[..|draws| - 1], a), draws[|draws| - 1], a)
  }

  /** The history loadStockData builds: day 30 ago first, today last, each
      price the walk so far in cents. */
  function History(start: real, change: real, draws: seq<real>): (h: seq<Day>)
    requires |draws| == HistoryDays + 1
    ensures |h| == HistoryDays + 1
    ensures h[0].daysAgo == HistoryDays && h[HistoryDays].daysAgo == 0
  {
    seq(HistoryDays + 1, k requires 0 <= k <= HistoryDays =>
      Day(HistoryDays - k, Round2(Walk(start, draws[..k + 1], Amplitude(change)))))
  }

  /** A move scales a positive price by a factor above 0.98. */
  lemma MoveKeepsPositive(price: real, r: real, a: real)
    requires price > 0.0 && IsDraw(r) && 0.0 <= a <= 1.5
    ensures Move(price, r, a) > 0.0
  {
    var t := r * 2.0 - 1.0;
    var c := t * a;
    MulNonNegative(1.0 - t, a);
    MulNonNegative(1.0 + t, a);
    assert -1.5 <= c <= 1.5;
    var f := 1.0 + c / 100.0 - 0.985;
    MulNonNegative(price, f);
    assert Move(price, r, a) == price * f + price * 0.985;
  }

  /** A walk from a positive price stays positive. */
  lemma {:induction false} WalkPositive(start: real, draws: seq<real>, a: real)
    requires start > 0.0 && 0.0 <= a <= 1.5
    requires forall k :: 0 <= k < |draws| ==> IsDraw(draws[k])
    ensures Walk(start, draws, a) > 0.0
    decreases |draws|
  {
    if draws != [] {
      WalkPositive(start, draws[..|draws| - 1], a);
      MoveKeepsPositive(Walk(start, draws[..|draws| - 1], a), draws[|draws| - 1], a);
    }
  }

  /** loadStockData's loop: i counts down from 30, so the oldest day comes first. */
  method GenerateHistory(stock: StockResult, draws: seq<real>) returns (data: seq<Day>)
    requires |draws| == HistoryDays + 1
    ensures data == History(stock.price as real, stock.change, draws)
  {
    var a := Amplitude(stock.change);
    var price := stock.price as real;
    data := [];
    var i: int := HistoryDays;
    while i >= 0
      invariant -1 <= i <= HistoryDays
      invariant |data| == HistoryDays - i
      invariant price == Walk(stock.price as real, draws[..HistoryDays - i], a)
      invariant forall k :: 0 <= k < |data| ==>
        data[k] == Day(HistoryDays - k, Round2(Walk(stock.price as real, draws[..k + 1], a)))
    {
      assert draws[..HistoryDays - i + 1][..HistoryDays - i] == draws[..HistoryDays - i];
      price := Move(price, draws[HistoryDays - i], a);
      data := data + [Day(i, Round2(price))];
      i := i - 1;
    }
    assert forall k :: 0 <= k <= HistoryDays ==> data[k] == History(stock.price as real, stock.change, draws)[k];
  }

  /** A bar's height in percent: the day's price against 1.2 times the
      stock's price, capped at 80. */
  function BarHeight(dayPrice: real, stockPrice: real): (h: real)
    requires stockPrice > 0.0
    ensures h <= MaxBarHeight
    ensures dayPrice / (stockPrice * 1.2) * 100.0 <= MaxBarHeight ==> h == dayPrice / (stockPrice * 1.2) * 100.0
    ensures dayPrice >= 0.0 ==> h >= 0.0
  {
    var height := dayPrice / (stockPrice * 1.2) * 100.0;
    if height < MaxBarHeight then height else MaxBarHeight
  }

  // ---------------------------------------------------------------------
  // The card
  // ---------------------------------------------------------------------

  class SearchCard {
    var searchQuery: string
    var searchResults: seq<StockResult>
    var isSearching: bool
    var selectedStock: Option<StockResult>
    var historicalData: seq<Day>

    constructor ()
      ensures searchQuery == "" && searchResults == [] && !isSearching
      ensures selectedStock == None && historicalData == []
    {
      searchQuery := "";
      searchResults := [];
      isSearching := false;
      selectedStock := None;
      historicalData := [];
    }

    method SetQuery(q: string)
      modifies this
      ensures searchQuery == q && searchResults == old(searchResults)
      ensures isSearching == old(isSearching)
      ensures selectedStock == old(selectedStock) && historicalData == old(historicalData)
    {
      searchQuery := q;
    }

    /** handleSearch: a blank query does nothing; otherwise the three mock
        results replace the old ones and the card stops searching. */
    method HandleSearch(d: SearchDraws)
      requires IsSearchDraws(d)
      modifies this
      ensures IsBlank(old(searchQuery)) ==>
        searchResults == old(searchResults) && isSearching == old(isSearching)
      ensures !IsBlank(old(searchQuery)) ==>
        searchResults == MockSearch(old(searchQuery), d) && !isSearching
      ensures searchQuery == old(searchQuery)
      ensures selectedStock == old(selectedStock) && historicalData == old(historicalData)
    {
      if IsBlank(searchQuery) {
        return;
      }
      isSearching := true;
      searchResults := MockSearch(searchQuery, d);
      isSearching := false;
    }

    /** loadStockData: select the stock and draw its 31-day history. */
    method LoadStockData(stock: StockResult, draws: seq<real>)
      requires |draws| == HistoryDays + 1
      modifies this
      ensures selectedStock == Some(stock)
      ensures historicalData == History(stock.price as real, stock.change, draws)
      ensures searchQuery == old(searchQuery) && searchResults == old(searchResults)
      ensures isSearching == old(isSearching)
    {
      selectedStock := Some(stock);
      historicalData := GenerateHistory(stock, draws);
    }

    /** The "Search Another Stock" button: the selection and its history are
        dropped, so the card shows the results list again. */
    method ClearSelection()
      modifies this`selectedStock, this`historicalData
      ensures selectedStock == None && historicalData == []
    {
      selectedStock := None;
      historicalData := [];
    }
  }

  /** The history of a searched stock keeps positive prices (before cents
      rounding) and its bars stay within 0 to 80 percent. */
  lemma SearchedHistoryBars(q: string, d: SearchDraws, i: nat, draws: seq<real>, k: nat)
    requires IsSearchDraws(d) && i < 3
    requires |draws| == HistoryDays + 1
    requires forall j :: 0 <= j < |draws| ==> IsDraw(draws[j])
    requires k <= HistoryDays
    ensures MockSearch(q, d)[i].price > 0
    ensures Walk(MockSearch(q, d)[i].price as real, draws[..k + 1], Amplitude(MockSearch(q, d)[i].change)) > 0.0
    ensures 0.0 <= BarHeight(History(MockSearch(q, d)[i].price as real, MockSearch(q, d)[i].change, draws)[k].price,
                      MockSearch(q, d)[i].price as real) <= MaxBarHeight
  {
    var s := MockSearch(q, d)[i];
    var a := Amplitude(s.change);
    WalkPositive(s.price as real, draws[..k + 1], a);
    var w := Walk(s.price as real, draws[..k + 1], a);
    assert Round2(w) >= 0.0 by {
      RoundMonotone(0.0, w * 100.0);
    }
  }
}
