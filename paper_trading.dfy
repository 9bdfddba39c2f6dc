/** The paper-trading account: a cash balance and a table of positions keyed
    by ticker symbol, changed only by the guarded buy/sell step executeTrade,
    plus the portfolio value and profit/loss reductions shown beside it. */
module PaperTrading {
  import opened Options
  import opened Text
  import opened Numbers
  import Seqs

  /** One holding: `shares` bought at the weighted-average price `avgPrice`,
      now quoted at `currentPrice`; `change` is the displayed day change (%). */
  datatype Position = Position(
    symbol: string, name: string, shares: real,
    avgPrice: real, currentPrice: real, change: real)

  /** A search result the user can trade. */
  datatype Stock = Stock(symbol: string, name: string, price: real, change: real)

  datatype TradeType = Buy | Sell

  /** The text in the Shares box, as Number() reads it: the empty box reads as 0,
      text that is not a number reads as NaN. */
  datatype SharesInput = Empty | Typed(value: real) | NotANumber

  function SharesValue(input: SharesInput): (n: Option<real>)
    ensures n.None? <==> input.NotANumber?
  {
    match input
    case Empty => Some(0.0)
    case Typed(v) => Some(v)
    case NotANumber => None
  }

  const InitialBalance: real := 5000.0

  const InitialPositions: seq<Position> := [
    Position("AAPL", "Apple Inc.", 5.0, 182.52, 187.3, 2.62),
    Position("MSFT", "Microsoft Corp.", 2.0, 337.18, 345.24, 2.39),
    Position("GOOGL", "Alphabet Inc.", 3.0, 131.86, 129.82, -1.55)
  ]

  const SearchResults: seq<Stock> := [
    Stock("TSLA", "Tesla Inc.", 237.49, -1.21),
    Stock("META", "Meta Platforms Inc.", 297.74, 1.32),
    Stock("JPM", "JPMorgan Chase & Co.", 146.77, 0.87),
    Stock("V", "Visa Inc.", 235.44, 0.54),
    Stock("WMT", "Walmart Inc.", 157.82, 1.23),
    Stock("AMZN", "Amazon.com Inc.", 127.74, 2.76),
    Stock("NVDA", "NVIDIA Corp.", 416.1, 5.15),
    Stock("PYPL", "PayPal Holdings Inc.", 67.42, -0.89),
    Stock("NFLX", "Netflix Inc.", 632.15, 1.54),
    Stock("DIS", "Walt Disney Co.", 105.18, 0.32)
  ]

  // ---------------------------------------------------------------------
  // Reductions over the positions (Array.prototype.reduce, left to right)
  // ---------------------------------------------------------------------

  function MarketValue(p: Position): real { p.shares * p.currentPrice }
  function Basis(p: Position): real { p.shares * p.avgPrice }
  function Profit(p: Position): real { MarketValue(p) - Basis(p) }

  /** positions.reduce((total, p) => total + f(p), 0). */
  function SumOf(ps: seq<Position>, f: Position -> real): real
    decreases |ps|
  {
    if ps == [] then 0.0 else SumOf(ps[..|ps| - 1], f) + f(ps[|ps| - 1])
  }

  function PositionsValue(ps: seq<Position>): real { SumOf(ps, MarketValue) }
  function CostBasis(ps: seq<Position>): real { SumOf(ps, Basis) }

  /** calculateTotalPL. */
  function TotalPL(ps: seq<Position>): real { SumOf(ps, Profit) }

  /** calculatePortfolioValue: cash plus the market value of every position. */
  function PortfolioValue(ps: seq<Position>, balance: real): real {
    PositionsValue(ps) + balance
  }

  lemma {:induction false} SumAppend(ps: seq<Position>, q: Position, f: Position -> real)
    ensures SumOf(ps + [q], f) == SumOf(ps, f) + f(q)
  {
    assert (ps + [q])[..|ps|] == ps;
  }

  /** Replacing one entry changes a sum by the difference of the two terms. */
  lemma {:induction false} SumUpdate(ps: seq<Position>, i: nat, q: Position, f: Position -> real)
    requires i < |ps|
    ensures SumOf(ps[i := q], f) == SumOf(ps, f) - f(ps[i]) + f(q)
    decreases |ps|
  {
    var n := |ps|;
    if i == n - 1 {
      assert ps[i := q][..n - 1] == ps[..n - 1];
    } else {
      assert ps[i := q][..n - 1] == ps[..n - 1][i := q];
      SumUpdate(ps[..n - 1], i, q, f);
    }
  }

  /** Deleting one entry takes its term out of a sum. */
  lemma {:induction false} SumRemove(ps: seq<Position>, i: nat, f: Position -> real)
    requires i < |ps|
    ensures SumOf(ps[..i] + ps[i + 1..], f) == SumOf(ps, f) - f(ps[i])
    decreases |ps|
  {
    var n := |ps|;
    if i == n - 1 {
      assert ps[..i] + ps[i + 1..] == ps[..n - 1];
    } else {
      var front := ps[..n - 1];
      assert (ps[..i] + ps[i + 1..])[..n - 2] == front[..i] + front[i + 1..];
      assert (ps[..i] + ps[i + 1..])[n - 2] == ps[n - 1];
      SumRemove(front, i, f);
    }
  }

  /** Sums over two lists whose terms agree position by position are equal. */
  lemma {:induction false} SumCongruent(ps: seq<Position>, qs: seq<Position>, f: Position -> real)
    requires |ps| == |qs|
    requires forall i :: 0 <= i < |ps| ==> f(ps[i]) == f(qs[i])
    ensures SumOf(ps, f) == SumOf(qs, f)
    decreases |ps|
  {
    if ps != [] {
      SumCongruent(ps[..|ps| - 1], qs[..|qs| - 1], f);
    }
  }

  /** The total P/L is the market value minus the cost basis. */
  lemma {:induction false} TotalPLIsValueMinusCost(ps: seq<Position>)
    ensures TotalPL(ps) == PositionsValue(ps) - CostBasis(ps)
    decreases |ps|
  {
    if ps != [] {
      TotalPLIsValueMinusCost(ps[..|ps| - 1]);
    }
  }

  /** totalPLPercent = totalPL / (portfolioValue - totalPL - balance) * 100.
      The division is unguarded: a zero denominator gives NaN or an infinity
      in the source, modelled as None. */
  function TotalPLPercent(ps: seq<Position>, balance: real): (r: Option<real>)
    ensures r.None? <==> CostBasis(ps) == 0.0
    ensures r.Some? ==> r.value == TotalPL(ps) / CostBasis(ps) * 100.0
  {
    var denominator := PortfolioValue(ps, balance) - TotalPL(ps) - balance;
    TotalPLIsValueMinusCost(ps);
    assert denominator == CostBasis(ps);
    if denominator == 0.0 then None else Some(TotalPL(ps) / denominator * 100.0)
  }

  /** With no positions the percentage divides 0 by 0. */
  lemma EmptyPortfolioPercentIsNaN(balance: real)
    ensures TotalPLPercent([], balance).None?
  {
  }

  // ---------------------------------------------------------------------
  // The ledger invariant and the lookups executeTrade uses
  // ---------------------------------------------------------------------

  predicate UniqueSymbols(ps: seq<Position>) {
    forall i, j :: 0 <= i < j < |ps| ==> ps[i].symbol != ps[j].symbol
  }

  predicate PositiveShares(ps: seq<Position>) {
    forall i :: 0 <= i < |ps| ==> ps[i].shares > 0.0
  }

  /** What paper trading keeps true of its state. */
  predicate ValidLedger(ps: seq<Position>, balance: real) {
    balance >= 0.0 && UniqueSymbols(ps) && PositiveShares(ps)
  }

  lemma InitialLedgerValid()
    ensures ValidLedger(InitialPositions, InitialBalance)
  {
  }

  /** positions.find(p => p.symbol === symbol), as the index of the first match. */
  function Find(ps: seq<Position>, symbol: string): (r: Option<nat>)
    ensures r.Some? ==> r.value < |ps| && ps[r.value].symbol == symbol
    ensures r.Some? ==> forall j :: 0 <= j < r.value ==> ps[j].symbol != symbol
    ensures r.None? ==> forall j :: 0 <= j < |ps| ==> ps[j].symbol != symbol
    decreases |ps|
  {
    if ps == [] then None
    else if ps[0].symbol == symbol then Some(0)
    else match Find(ps[1..], symbol)
      case None => None
      case Some(k) => Some(k + 1)
  }

  lemma FindUnique(ps: seq<Position>, symbol: string, i: nat)
    requires UniqueSymbols(ps) && i < |ps| && ps[i].symbol == symbol
    ensures Find(ps, symbol) == Some(i)
  {
  }

  /** The position after buying `shares` more at `price`. */
  function BuyInto(p: Position, shares: real, price: real): Position
    requires p.shares + shares != 0.0
  {
    var totalShares := p.shares + shares;
    var totalCost := p.shares * p.avgPrice + shares * price;
    p.(shares := totalShares, avgPrice := totalCost / totalShares)
  }

  /** The positions.map of a buy into a held symbol. */
  function MapBuy(ps: seq<Position>, symbol: string, shares: real, price: real): (r: seq<Position>)
    requires PositiveShares(ps) && shares > 0.0
    ensures |r| == |ps|
    ensures forall i :: 0 <= i < |ps| ==>
      r[i] == if ps[i].symbol == symbol then BuyInto(ps[i], shares, price) else ps[i]
  {
    seq(|ps|, i requires 0 <= i < |ps| =>
      if ps[i].symbol == symbol then BuyInto(ps[i], shares, price) else ps[i])
  }

  /** The positions.map of a partial sell. */
  function MapSell(ps: seq<Position>, symbol: string, shares: real): (r: seq<Position>)
    ensures |r| == |ps|
    ensures forall i :: 0 <= i < |ps| ==>
      r[i] == if ps[i].symbol == symbol then ps[i].(shares := ps[i].shares - shares) else ps[i]
  {
    seq(|ps|, i requires 0 <= i < |ps| =>
      if ps[i].symbol == symbol then ps[i].(shares := ps[i].shares - shares) else ps[i])
  }

  /** The positions.filter of a full sell. */
  function RemoveSymbol(ps: seq<Position>, symbol: string): seq<Position> {
    Seqs.Filter(ps, (p: Position) => p.symbol != symbol)
  }

  // ---------------------------------------------------------------------
  // executeTrade
  // ---------------------------------------------------------------------

  datatype Rejection = NoStockSelected | InvalidShares | InsufficientFunds | NotEnoughShares

  /** What one press of the trade button does to (positions, balance). */
  datatype TradeOutcome =
    | Rejected(reason: Rejection)
    | Done(positions: seq<Position>, balance: real)

  /** executeTrade as a function of the state it reads. */
  function Trade(ps: seq<Position>, balance: real, selected: Option<Stock>,
                 input: SharesInput, kind: TradeType): TradeOutcome
    requires PositiveShares(ps)
  {
    if selected.None? then Rejected(NoStockSelected)
    else
      var n := SharesValue(input);
      if n.None? || n.value <= 0.0 then Rejected(InvalidShares)
      else
        match kind
        case Buy => BuyStep(ps, balance, selected.value, n.value)
        case Sell => SellStep(ps, balance, selected.value, n.value)
  }

  /** The buy branch of executeTrade, once the count is known to be positive. */
  function BuyStep(ps: seq<Position>, balance: real, stock: Stock, shares: real): (r: TradeOutcome)
    requires PositiveShares(ps) && shares > 0.0
    ensures r.Rejected? <==> shares * stock.price > balance
    ensures r.Rejected? ==> r.reason == InsufficientFunds
    ensures r.Done? ==> r.balance == balance - shares * stock.price
  {
    var cost := shares * stock.price;
    if cost > balance then Rejected(InsufficientFunds)
    else if Find(ps, stock.symbol).Some? then
      Done(MapBuy(ps, stock.symbol, shares, stock.price), balance - cost)
    else
      Done(ps + [Position(stock.symbol, stock.name, shares, stock.price, stock.price, stock.change)],
           balance - cost)
  }

  /** The sell branch of executeTrade, once the count is known to be positive. */
  function SellStep(ps: seq<Position>, balance: real, stock: Stock, shares: real): (r: TradeOutcome)
    ensures r.Rejected? <==>
      Find(ps, stock.symbol).None? || ps[Find(ps, stock.symbol).value].shares < shares
    ensures r.Rejected? ==> r.reason == NotEnoughShares
    ensures r.Done? ==> r.balance == balance + shares * stock.price
  {
    var existing := Find(ps, stock.symbol);
    if existing.None? || ps[existing.value].shares < shares then Rejected(NotEnoughShares)
    else
      var proceeds := shares * stock.price;
      if ps[existing.value].shares == shares then
        Done(RemoveSymbol(ps, stock.symbol), balance + proceeds)
      else
        Done(MapSell(ps, stock.symbol, shares), balance + proceeds)
  }

  /** With a stock selected and a positive count typed, a trade is its
      buy or sell step. */
  lemma TradeOfPositive(ps: seq<Position>, balance: real, stock: Stock, shares: real, kind: TradeType)
    requires PositiveShares(ps) && shares > 0.0
    ensures Trade(ps, balance, Some(stock), Typed(shares), kind)
         == if kind == Buy then BuyStep(ps, balance, stock, shares) else SellStep(ps, balance, stock, shares)
  {
    assert SharesValue(Typed(shares)) == Some(shares);
  }

  /** Why a trade is refused: no selection exactly when nothing is selected,
      an invalid count exactly when the box is not a positive number, too
      little cash only for a buy costing more than the balance, too few
      shares only for a sell of an unheld symbol or of more than is held. */
  lemma TradeRejections(ps: seq<Position>, balance: real, selected: Option<Stock>,
                        input: SharesInput, kind: TradeType)
    requires PositiveShares(ps)
    ensures var r := Trade(ps, balance, selected, input, kind);
      && (r == Rejected(NoStockSelected) <==> selected.None?)
      && (r == Rejected(InvalidShares) <==>
            selected.Some? && (SharesValue(input).None? || SharesValue(input).value <= 0.0))
      && (r == Rejected(InsufficientFunds) ==>
            kind == Buy && SharesValue(input).value * selected.value.price > balance)
      && (r == Rejected(NotEnoughShares) ==>
            kind == Sell && (Find(ps, selected.value.symbol).None? ||
                             ps[Find(ps, selected.value.symbol).value].shares < SharesValue(input).value))
  {
  }

  /** An accepted buy takes shares * price from the balance; an accepted
      sell adds it. */
  lemma TradeBalance(ps: seq<Position>, balance: real, selected: Option<Stock>,
                     input: SharesInput, kind: TradeType)
    requires PositiveShares(ps)
    ensures var r := Trade(ps, balance, selected, input, kind);
      && (r.Done? && kind == Buy ==>
            r.balance == balance - SharesValue(input).value * selected.value.price)
      && (r.Done? && kind == Sell ==>
            r.balance == balance + SharesValue(input).value * selected.value.price)
  {
    if selected.Some? && SharesValue(input).Some? && SharesValue(input).value > 0.0 {
      assert input.Typed?;
      TradeOfPositive(ps, balance, selected.value, SharesValue(input).value, kind);
    }
  }

  /** A buy costing more than the cash balance is refused. */
  lemma BuyBeyondBalanceRejected(ps: seq<Position>, balance: real, stock: Stock, shares: real)
    requires PositiveShares(ps) && shares > 0.0 && shares * stock.price > balance
    ensures Trade(ps, balance, Some(stock), Typed(shares), Buy) == Rejected(InsufficientFunds)
  {
  }

  /** Selling an unheld symbol, or more shares than are held, is refused. */
  lemma OversellRejected(ps: seq<Position>, balance: real, stock: Stock, shares: real)
    requires PositiveShares(ps) && UniqueSymbols(ps) && shares > 0.0
    requires forall i :: 0 <= i < |ps| && ps[i].symbol == stock.symbol ==> ps[i].shares < shares
    ensures Trade(ps, balance, Some(stock), Typed(shares), Sell) == Rejected(NotEnoughShares)
  {
  }

  /** An empty Shares box reads as 0 shares and is refused. */
  lemma EmptySharesRejected(ps: seq<Position>, balance: real, stock: Stock, kind: TradeType)
    requires PositiveShares(ps)
    ensures Trade(ps, balance, Some(stock), Empty, kind) == Rejected(InvalidShares)
  {
  }

  /** Buying a held symbol rewrites that one entry with BuyInto (shares old +
      new, average price the share-weighted mean), keeps every other entry
      and the number of positions, and takes the cost from the balance. */
  lemma BuyHeld(ps: seq<Position>, balance: real, stock: Stock, shares: real, i: nat)
    requires ValidLedger(ps, balance) && shares > 0.0 && shares * stock.price <= balance
    requires i < |ps| && ps[i].symbol == stock.symbol
    ensures Trade(ps, balance, Some(stock), Typed(shares), Buy)
         == Done(ps[i := BuyInto(ps[i], shares, stock.price)], balance - shares * stock.price)
  {
    FindUnique(ps, stock.symbol, i);
    MapBuyAt(ps, i, shares, stock.price);
    BuyHeldOutcome(ps, balance, stock, shares);
  }

  /** ... and the cost basis grows by exactly the trade cost. */
  lemma BuyHeldCost(ps: seq<Position>, shares: real, price: real, i: nat)
    requires PositiveShares(ps) && shares > 0.0 && i < |ps|
    ensures CostBasis(ps[i := BuyInto(ps[i], shares, price)]) == CostBasis(ps) + shares * price
  {
    BuyIntoBasis(ps[i], shares, price);
    SumUpdate(ps, i, BuyInto(ps[i], shares, price), Basis);
  }

  lemma BuyHeldOutcome(ps: seq<Position>, balance: real, stock: Stock, shares: real)
    requires PositiveShares(ps) && shares > 0.0 && shares * stock.price <= balance
    requires Find(ps, stock.symbol).Some?
    ensures Trade(ps, balance, Some(stock), Typed(shares), Buy)
         == Done(MapBuy(ps, stock.symbol, shares, stock.price), balance - shares * stock.price)
  {
    TradeOfPositive(ps, balance, stock, shares, Buy);
    BuyStepHeld(ps, balance, stock, shares);
  }

  lemma BuyStepHeld(ps: seq<Position>, balance: real, stock: Stock, shares: real)
    requires PositiveShares(ps) && shares > 0.0 && shares * stock.price <= balance
    requires Find(ps, stock.symbol).Some?
    ensures BuyStep(ps, balance, stock, shares)
         == Done(MapBuy(ps, stock.symbol, shares, stock.price), balance - shares * stock.price)
  {
    var cost := shares * stock.price;
    assert !(cost > balance);
  }

  /** Under unique symbols the buy map rewrites exactly one entry. */
  lemma MapBuyAt(ps: seq<Position>, i: nat, shares: real, price: real)
    requires UniqueSymbols(ps) && PositiveShares(ps) && shares > 0.0 && i < |ps|
    ensures MapBuy(ps, ps[i].symbol, shares, price) == ps[i := BuyInto(ps[i], shares, price)]
  {
  }

  /** The weighted average keeps the total cost: (old + new) * avg == old cost + new cost. */
  lemma BuyIntoBasis(p: Position, shares: real, price: real)
    requires p.shares > 0.0 && shares > 0.0
    ensures Basis(BuyInto(p, shares, price)) == Basis(p) + shares * price
  {
    var t := p.shares + shares;
    var c := p.shares * p.avgPrice + shares * price;
    assert t * (c / t) == c;
  }

  /** Buying an unheld symbol appends one position priced at the trade price,
      leaves the earlier entries as they were, and grows the cost basis by
      exactly the trade cost. */
  lemma BuyNew(ps: seq<Position>, balance: real, stock: Stock, shares: real)
    requires ValidLedger(ps, balance) && shares > 0.0 && shares * stock.price <= balance
    requires forall j :: 0 <= j < |ps| ==> ps[j].symbol != stock.symbol
    ensures Trade(ps, balance, Some(stock), Typed(shares), Buy)
         == Done(ps + [NewPosition(stock, shares)], balance - shares * stock.price)
    ensures CostBasis(ps + [NewPosition(stock, shares)]) == CostBasis(ps) + shares * stock.price
  {
    TradeOfPositive(ps, balance, stock, shares, Buy);
    BuyStepNew(ps, balance, stock, shares);
    SumAppend(ps, NewPosition(stock, shares), Basis);
  }

  /** The entry a first buy creates: bought and quoted at the trade price. */
  function NewPosition(stock: Stock, shares: real): (p: Position)
    ensures p.symbol == stock.symbol && p.shares == shares
    ensures p.avgPrice == stock.price && p.currentPrice == stock.price
  {
    Position(stock.symbol, stock.name, shares, stock.price, stock.price, stock.change)
  }

  lemma BuyStepNew(ps: seq<Position>, balance: real, stock: Stock, shares: real)
    requires PositiveShares(ps) && shares > 0.0 && shares * stock.price <= balance
    requires Find(ps, stock.symbol).None?
    ensures BuyStep(ps, balance, stock, shares)
         == Done(ps + [NewPosition(stock, shares)], balance - shares * stock.price)
  {
  }

  /** Filtering out a symbol held once deletes exactly that entry. */
  lemma {:induction false} RemoveSymbolAt(ps: seq<Position>, i: nat)
    requires UniqueSymbols(ps) && i < |ps|
    ensures RemoveSymbol(ps, ps[i].symbol) == ps[..i] + ps[i + 1..]
  {
    var sym := ps[i].symbol;
    var keep := (p: Position) => p.symbol != sym;
    var front, back := ps[..i], ps[i + 1..];
    assert ps == front + ([ps[i]] + back);
    Seqs.FilterAppend(front, [ps[i]] + back, keep);
    Seqs.FilterAppend([ps[i]], back, keep);
    forall k | 0 <= k < |front| ensures keep(front[k]) {
      assert front[k] == ps[k];
    }
    Seqs.FilterAll(front, keep);
    forall k | 0 <= k < |back| ensures keep(back[k]) {
      assert back[k] == ps[i + 1 + k];
    }
    Seqs.FilterAll(back, keep);
    assert Seqs.Filter([ps[i]], keep) == [];
  }

  /** Selling every share of a position removes its entry and adds the
      proceeds to the balance. */
  lemma FullSell(ps: seq<Position>, balance: real, stock: Stock, i: nat)
    requires ValidLedger(ps, balance) && i < |ps| && ps[i].symbol == stock.symbol
    ensures Trade(ps, balance, Some(stock), Typed(ps[i].shares), Sell)
         == Done(ps[..i] + ps[i + 1..], balance + ps[i].shares * stock.price)
    ensures CostBasis(ps[..i] + ps[i + 1..]) == CostBasis(ps) - Basis(ps[i])
  {
    FindUnique(ps, stock.symbol, i);
    TradeOfPositive(ps, balance, stock, ps[i].shares, Sell);
    SellStepAll(ps, balance, stock, i);
    RemoveSymbolAt(ps, i);
    SumRemove(ps, i, Basis);
  }

  /** The sell step on all the shares of the entry at i. */
  lemma SellStepAll(ps: seq<Position>, balance: real, stock: Stock, i: nat)
    requires i < |ps| && Find(ps, stock.symbol) == Some(i)
    ensures SellStep(ps, balance, stock, ps[i].shares)
         == Done(RemoveSymbol(ps, stock.symbol), balance + ps[i].shares * stock.price)
  {
  }

  /** The sell step on fewer than all the shares of the entry at i. */
  lemma SellStepSome(ps: seq<Position>, balance: real, stock: Stock, shares: real, i: nat)
    requires i < |ps| && Find(ps, stock.symbol) == Some(i) && shares < ps[i].shares
    ensures SellStep(ps, balance, stock, shares)
         == Done(MapSell(ps, stock.symbol, shares), balance + shares * stock.price)
  {
  }

  /** Under unique symbols the partial-sell map rewrites exactly one entry. */
  lemma MapSellAt(ps: seq<Position>, i: nat, shares: real)
    requires UniqueSymbols(ps) && i < |ps|
    ensures MapSell(ps, ps[i].symbol, shares) == ps[i := ps[i].(shares := ps[i].shares - shares)]
  {
  }

  /** Selling part of a position lowers only its share count (its average
      price stays) and adds the proceeds to the balance. */
  lemma PartialSell(ps: seq<Position>, balance: real, stock: Stock, shares: real, i: nat)
    requires ValidLedger(ps, balance) && i < |ps| && ps[i].symbol == stock.symbol
    requires 0.0 < shares < ps[i].shares
    ensures Trade(ps, balance, Some(stock), Typed(shares), Sell)
         == Done(ps[i := ps[i].(shares := ps[i].shares - shares)], balance + shares * stock.price)
  {
    FindUnique(ps, stock.symbol, i);
    TradeOfPositive(ps, balance, stock, shares, Sell);
    SellStepSome(ps, balance, stock, shares, i);
    MapSellAt(ps, i, shares);
  }

  /** Filtering keeps symbols unique and shares positive. */
  lemma RemoveSymbolValid(ps: seq<Position>, symbol: string)
    requires UniqueSymbols(ps) && PositiveShares(ps)
    ensures UniqueSymbols(RemoveSymbol(ps, symbol)) && PositiveShares(RemoveSymbol(ps, symbol))
  {
    var idx := Seqs.FilterIndices(ps, (p: Position) => p.symbol != symbol);
  }

  /** A buy keeps the ledger valid. */
  lemma BuyStepValid(ps: seq<Position>, balance: real, stock: Stock, shares: real)
    requires ValidLedger(ps, balance) && shares > 0.0
    ensures var r := BuyStep(ps, balance, stock, shares);
      r.Done? ==> ValidLedger(r.positions, r.balance)
  {
    var r := BuyStep(ps, balance, stock, shares);
    if r.Done? {
      if Find(ps, stock.symbol).Some? {
        var m := MapBuy(ps, stock.symbol, shares, stock.price);
        assert r.positions == m;
        assert forall j :: 0 <= j < |ps| ==> m[j].symbol == ps[j].symbol && m[j].shares > 0.0;
      } else {
        var q := NewPosition(stock, shares);
        assert r.positions == ps + [q];
        assert forall j :: 0 <= j < |ps| ==> r.positions[j] == ps[j];
      }
    }
  }

  /** A sell keeps the ledger valid when the price is not negative. */
  lemma SellStepValid(ps: seq<Position>, balance: real, stock: Stock, shares: real)
    requires ValidLedger(ps, balance) && shares > 0.0 && stock.price >= 0.0
    ensures var r := SellStep(ps, balance, stock, shares);
      r.Done? ==> ValidLedger(r.positions, r.balance)
  {
    var r := SellStep(ps, balance, stock, shares);
    if r.Done? {
      var i := Find(ps, stock.symbol).value;
      MulNonNegative(shares, stock.price);
      if ps[i].shares == shares {
        SellStepAll(ps, balance, stock, i);
        RemoveSymbolValid(ps, stock.symbol);
      } else {
        SellStepSome(ps, balance, stock, shares, i);
        var m := MapSell(ps, stock.symbol, shares);
        assert forall j :: 0 <= j < |ps| ==> m[j].symbol == ps[j].symbol && m[j].shares > 0.0;
      }
    }
  }

  /** Every accepted trade keeps the ledger invariant: the balance stays
      non-negative, symbols stay unique and every position keeps a positive
      share count (the traded stock has a non-negative price). */
  lemma TradePreservesValid(ps: seq<Position>, balance: real, selected: Option<Stock>,
                            input: SharesInput, kind: TradeType)
    requires ValidLedger(ps, balance)
    requires selected.Some? ==> selected.value.price >= 0.0
    ensures var r := Trade(ps, balance, selected, input, kind);
      r.Done? ==> ValidLedger(r.positions, r.balance)
  {
    if selected.Some? && SharesValue(input).Some? && SharesValue(input).value > 0.0 {
      var stock, shares := selected.value, SharesValue(input).value;
      assert input == Typed(shares);
      TradeOfPositive(ps, balance, stock, shares, kind);
      if kind == Buy {
        BuyStepValid(ps, balance, stock, shares);
      } else {
        SellStepValid(ps, balance, stock, shares);
      }
    }
  }

  /** The quoted prices of the search results are all positive. */
  lemma SearchPricesPositive()
    ensures forall i :: 0 <= i < |SearchResults| ==> SearchResults[i].price > 0.0
  {
  }

  // ---------------------------------------------------------------------
  // Search
  // ---------------------------------------------------------------------

  /** A stock matches a query when its symbol or name contains it, ignoring case. */
  predicate Matches(stock: Stock, query: string) {
    Contains(Lower(stock.symbol), Lower(query)) || Contains(Lower(stock.name), Lower(query))
  }

  /** filteredResults: the empty query (falsy in JavaScript) shows every result. */
  function FilteredResults(query: string): seq<Stock> {
    if query == "" then SearchResults
    else Seqs.Filter(SearchResults, (s: Stock) => Matches(s, query))
  }

  /** The search keeps exactly the matching results, in their original order. */
  lemma FilteredResultsSpec(query: string)
    ensures query == "" ==> FilteredResults(query) == SearchResults
    ensures query != "" ==>
      (forall s :: s in FilteredResults(query) <==> s in SearchResults && Matches(s, query))
    ensures Seqs.SubsequenceOf(FilteredResults(query), SearchResults)
  {
    if query == "" {
      var idx := seq(|SearchResults|, k requires 0 <= k < |SearchResults| => k);
      assert Seqs.IndexedBy(SearchResults, SearchResults, idx);
    } else {
      Seqs.FilterIsSubsequence(SearchResults, (s: Stock) => Matches(s, query));
    }
  }

  // ---------------------------------------------------------------------
  // The component's state
  // ---------------------------------------------------------------------

  class Account {
    var positions: seq<Position>
    var balance: real
    var searchQuery: string
    var selectedStock: Option<Stock>
    var tradeShares: SharesInput
    var tradeType: TradeType

    /** The ledger invariant, and a selected stock always comes from the search list. */
    predicate Valid()
      reads this
    {
      ValidLedger(positions, balance) && (selectedStock.Some? ==> selectedStock.value in SearchResults)
    }

    constructor ()
      ensures Valid()
      ensures positions == InitialPositions && balance == InitialBalance
      ensures searchQuery == "" && selectedStock == None && tradeShares == Empty && tradeType == Buy
    {
      positions := InitialPositions;
      balance := InitialBalance;
      searchQuery := "";
      selectedStock := None;
      tradeShares := Empty;
      tradeType := Buy;
    }

    /** Clicking a search result. */
    method SelectStock(stock: Stock)
      requires Valid() && stock in SearchResults
      modifies this
      ensures Valid() && selectedStock == Some(stock)
      ensures positions == old(positions) && balance == old(balance)
      ensures tradeShares == old(tradeShares) && tradeType == old(tradeType) && searchQuery == old(searchQuery)
    {
      selectedStock := Some(stock);
    }

    /** Typing in the Shares box. */
    method EnterShares(input: SharesInput)
      requires Valid()
      modifies this`tradeShares
      ensures Valid() && tradeShares == input
    {
      tradeShares := input;
    }

    /** The Buy / Sell toggle. */
    method ChooseTradeType(kind: TradeType)
      requires Valid()
      modifies this`tradeType
      ensures Valid() && tradeType == kind
    {
      tradeType := kind;
    }

    /** Typing in the search box. */
    method EnterQuery(query: string)
      requires Valid()
      modifies this`searchQuery
      ensures Valid() && searchQuery == query
    {
      searchQuery := query;
    }

    /** executeTrade: a rejected trade changes nothing; an accepted one installs
        the new positions and balance and clears the form. */
    method ExecuteTrade()
      requires Valid()
      modifies this
      ensures Valid()
      ensures tradeType == old(tradeType) && searchQuery == old(searchQuery)
      ensures match Trade(old(positions), old(balance), old(selectedStock), old(tradeShares), old(tradeType))
        case Rejected(_) =>
          positions == old(positions) && balance == old(balance)
          && selectedStock == old(selectedStock) && tradeShares == old(tradeShares)
        case Done(ps, b) =>
          positions == ps && balance == b && selectedStock == None && tradeShares == Empty
    {
      SearchPricesPositive();
      TradePreservesValid(positions, balance, selectedStock, tradeShares, tradeType);
      var outcome := Trade(positions, balance, selectedStock, tradeShares, tradeType);
      match outcome {
        case Rejected(_) =>
        case Done(ps, b) =>
          positions := ps;
          balance := b;
          selectedStock := None;
          tradeShares := Empty;
      }
    }

    function Value(): real
      reads this
    {
      PortfolioValue(positions, balance)
    }

    function ProfitAndLoss(): real
      reads this
    {
      TotalPL(positions)
    }

    function ProfitAndLossPercent(): Option<real>
      reads this
    {
      TotalPLPercent(positions, balance)
    }

    function Results(): seq<Stock>
      reads this
    {
      FilteredResults(searchQuery)
    }
  }
}
