/** The dashboard's portfolio page: the metrics recomputed whenever the
    positions or the balance change (value, P/L, guarded P/L percent, the
    allocation pie), the 31-day history chart, and the live price ticks. */
module Portfolio {
  import opened Numbers
  import opened PaperTrading

  // ---------------------------------------------------------------------
  // Metrics
  // ---------------------------------------------------------------------

  /** The P/L percentage shown under the total P/L: guarded, so a zero (or
      negative) cost basis shows 0 rather than NaN. */
  function PLPercent(ps: seq<Position>): (r: real)
    ensures CostBasis(ps) > 0.0 ==> r == TotalPL(ps) / CostBasis(ps) * 100.0
    ensures CostBasis(ps) <= 0.0 ==> r == 0.0
  {
    var costBasis := CostBasis(ps);
    if costBasis > 0.0 then TotalPL(ps) / costBasis * 100.0 else 0.0
  }

  /** Over a positive cost basis, the percentage is positive exactly when the
      positions are worth more than they cost, and zero exactly when they are
      worth what they cost. */
  lemma PLPercentSign(ps: seq<Position>)
    requires CostBasis(ps) > 0.0
    ensures PLPercent(ps) > 0.0 <==> PositionsValue(ps) > CostBasis(ps)
    ensures PLPercent(ps) == 0.0 <==> PositionsValue(ps) == CostBasis(ps)
  {
    TotalPLIsValueMinusCost(ps);
    var c := CostBasis(ps);
    var t := TotalPL(ps);
    assert PLPercent(ps) == t / c * 100.0;
    assert t / c > 0.0 <==> t > 0.0;
    assert t / c == 0.0 <==> t == 0.0;
  }

  /** With no positions the percentage is 0. */
  lemma NoPositionsPercentIsZero()
    ensures PLPercent([]) == 0.0
  {
  }

  /** One slice of the allocation pie. */
  datatype Allocation = Allocation(name: string, value: real)

  /** positions.map(p => ({ name: p.symbol, value: p.shares * p.currentPrice })). */
  function PositionAllocations(ps: seq<Position>): (r: seq<Allocation>)
    ensures |r| == |ps|
    ensures forall i :: 0 <= i < |ps| ==> r[i].name == ps[i].symbol
    decreases |ps|
  {
    if ps == [] then []
    else
      var last := ps[|ps| - 1];
      PositionAllocations(ps[..|ps| - 1]) + [Allocation(last.symbol, MarketValue(last))]
  }

  /** The pie: one slice per position, in order, then the cash balance. */
  function Allocations(ps: seq<Position>, balance: real): (r: seq<Allocation>)
    ensures |r| == |ps| + 1
    ensures r[..|ps|] == PositionAllocations(ps)
    ensures r[|ps|] == Allocation("Cash", balance)
  {
    PositionAllocations(ps) + [Allocation("Cash", balance)]
  }

  function AllocationTotal(a: seq<Allocation>): real
    decreases |a|
  {
    if a == [] then 0.0 else AllocationTotal(a[..|a| - 1]) + a[|a| - 1].value
  }

  /** Each position's slice is its market value. */
  lemma {:induction false} PositionAllocationValues(ps: seq<Position>)
    ensures forall i :: 0 <= i < |ps| ==> PositionAllocations(ps)[i].value == MarketValue(ps[i])
    decreases |ps|
  {
    if ps != [] {
      PositionAllocationValues(ps[..|ps| - 1]);
    }
  }

  lemma {:induction false} PositionAllocationsTotal(ps: seq<Position>)
    ensures AllocationTotal(PositionAllocations(ps)) == PositionsValue(ps)
    decreases |ps|
  {
    if ps != [] {
      var front := PositionAllocations(ps[..|ps| - 1]);
      var a := PositionAllocations(ps);
      assert a[..|a| - 1] == front;
      PositionAllocationsTotal(ps[..|ps| - 1]);
    }
  }

  /** The slices of the pie add up to the portfolio value. */
  lemma AllocationsSumToValue(ps: seq<Position>, balance: real)
    ensures AllocationTotal(Allocations(ps, balance)) == PortfolioValue(ps, balance)
  {
    var a := Allocations(ps, balance);
    assert a[..|a| - 1] == PositionAllocations(ps);
    PositionAllocationsTotal(ps);
  }

  // ---------------------------------------------------------------------
  // generateHistoricalData
  // ---------------------------------------------------------------------

  /** One point of the history chart; the date label is replaced by the
      number of days before the reference date. */
  datatype HistoryPoint = HistoryPoint(daysAgo: int, value: real)

  /** 1 + dailyChange for a draw r: a daily move between -0.5% and +1.5%. */
  function DailyFactor(r: real): real {
    1.0 + (r * 2.0 - 0.5) / 100.0
  }

  lemma DailyFactorRange(r: real)
    requires IsDraw(r)
    ensures 0.995 <= DailyFactor(r) < 1.015
  {
  }

  /** The running value after compounding the daily moves of `draws` in turn. */
  function Compound(start: real, draws: seq<real>): real
    decreases |draws|
  {
    if draws == [] then start
    else Compound(start, draws[..|draws| - 1]) * DailyFactor(draws[|draws| - 1])
  }

  /** A non-negative start value stays non-negative under any moves. */
  lemma {:induction false} CompoundNonNegative(start: real, draws: seq<real>)
    requires start >= 0.0
    requires forall k :: 0 <= k < |draws| ==> IsDraw(draws[k])
    ensures Compound(start, draws) >= 0.0
    decreases |draws|
  {
    if draws != [] {
      CompoundNonNegative(start, draws[..|draws| - 1]);
      DailyFactorRange(draws[|draws| - 1]);
      var v := Compound(start, draws[..|draws| - 1]);
      assert v * DailyFactor(draws[|draws| - 1]) >= 0.0;
    }
  }

  /** The chart the generator promises: 31 days, oldest first, compounding
      from 90% of the portfolio value, each point rounded to cents, and the
      last point the portfolio value itself. */
  ghost predicate IsHistory(data: seq<HistoryPoint>, portfolioValue: real, draws: seq<real>)
    requires |draws| == 31
  {
    && |data| == 31
    && (forall k :: 0 <= k < 31 ==> data[k].daysAgo == 30 - k)
    && (forall k :: 0 <= k < 30 ==>
          data[k].value == Round2(Compound(portfolioValue * 0.9, draws[..k + 1])))
    && data[30].value == portfolioValue
  }

  /** generateHistoricalData, with one draw per day, oldest day first. */
  method GenerateHistoricalData(portfolioValue: real, draws: seq<real>) returns (data: seq<HistoryPoint>)
    requires |draws| == 31
    ensures IsHistory(data, portfolioValue, draws)
  {
    var start := portfolioValue * 0.9;
    var currentValue := start;
    data := [];
    var i := 30;
    while i >= 0
      invariant -1 <= i <= 30
      invariant |data| == 30 - i
      invariant currentValue == Compound(start, draws[..30 - i])
      invariant forall k :: 0 <= k < |data| ==>
        data[k] == HistoryPoint(30 - k, Round2(Compound(start, draws[..k + 1])))
    {
      assert draws[..31 - i][..30 - i] == draws[..30 - i];
      currentValue := currentValue * DailyFactor(draws[30 - i]);
      data := data + [HistoryPoint(i, Round2(currentValue))];
      i := i - 1;
    }
    if |data| > 0 {
      data := data[|data| - 1 := data[|data| - 1].(value := portfolioValue)];
    }
  }

  /** The history lists the days in strictly increasing date order and never
      goes negative for a non-negative portfolio value. */
  lemma HistoryShape(data: seq<HistoryPoint>, portfolioValue: real, draws: seq<real>)
    requires |draws| == 31 && IsHistory(data, portfolioValue, draws)
    requires portfolioValue >= 0.0
    requires forall k :: 0 <= k < 31 ==> IsDraw(draws[k])
    ensures forall j, k :: 0 <= j < k < 31 ==> data[j].daysAgo > data[k].daysAgo
    ensures forall k :: 0 <= k < 31 ==> data[k].value >= 0.0
  {
    forall k | 0 <= k < 30 ensures data[k].value >= 0.0 {
      CompoundNonNegative(portfolioValue * 0.9, draws[..k + 1]);
      RoundNonNegative(Compound(portfolioValue * 0.9, draws[..k + 1]));
    }
  }

  /** Rounding a non-negative value to cents keeps it non-negative. */
  lemma RoundNonNegative(x: real)
    requires x >= 0.0
    ensures Round2(x) >= 0.0
  {
    RoundWithin(x * 100.0, 0, (x * 100.0).Floor + 1);
  }

  // ---------------------------------------------------------------------
  // Live updates
  // ---------------------------------------------------------------------

  /** The two draws one position uses in a tick: price move, then change move. */
  datatype PriceDraw = PriceDraw(price: real, change: real)

  predicate IsPriceDraw(d: PriceDraw) {
    IsDraw(d.price) && IsDraw(d.change)
  }

  /** One position after a tick: price moved by -0.5%..+0.5%, day change
      nudged by -0.1..+0.1 and rounded to cents. */
  function Tick(p: Position, d: PriceDraw): Position {
    var priceChange := p.currentPrice * (d.price * 0.01 - 0.005);
    p.(currentPrice := p.currentPrice + priceChange,
       change := Round2(p.change + (d.change * 0.2 - 0.1)))
  }

  /** positions.map(tick), one pair of draws per position. */
  function LiveUpdate(ps: seq<Position>, draws: seq<PriceDraw>): (r: seq<Position>)
    requires |draws| == |ps|
    ensures |r| == |ps|
    ensures forall i :: 0 <= i < |ps| ==> r[i] == Tick(ps[i], draws[i])
  {
    seq(|ps|, i requires 0 <= i < |ps| => Tick(ps[i], draws[i]))
  }

  /** A tick keeps what the position is (symbol, name, shares, average
      price), moves a positive price into [0.995, 1.005) of itself and moves
      the day change by at least -0.105 and less than 0.105. */
  lemma TickBounds(p: Position, d: PriceDraw)
    requires IsPriceDraw(d) && p.currentPrice > 0.0
    ensures var q := Tick(p, d);
      && q.symbol == p.symbol && q.name == p.name
      && q.shares == p.shares && q.avgPrice == p.avgPrice
      && 0.995 * p.currentPrice <= q.currentPrice < 1.005 * p.currentPrice
      && -0.105 <= q.change - p.change < 0.105
  {
    var q := Tick(p, d);
    assert q.currentPrice == p.currentPrice * (0.995 + d.price * 0.01);
    assert p.currentPrice * (d.price * 0.01) < p.currentPrice * 0.01;
  }

  /** The lower change bound is reached: a day change of -0.025 and a
      change draw of 0 give -0.125, which toFixed(2) rounds to -0.13. */
  lemma TickReachesLowerBound(p: Position, d: PriceDraw)
    requires p.change == -0.025 && d.change == 0.0
    ensures Tick(p, d).change - p.change == -0.105
  {
    Round2Ties();
  }

  /** A tick keeps the order and identity of the positions and leaves the
      cost basis exactly as it was. */
  lemma LiveUpdateKeepsHoldings(ps: seq<Position>, draws: seq<PriceDraw>)
    requires |draws| == |ps|
    ensures var r := LiveUpdate(ps, draws);
      && (forall i :: 0 <= i < |ps| ==>
            r[i].symbol == ps[i].symbol && r[i].shares == ps[i].shares && r[i].avgPrice == ps[i].avgPrice)
      && CostBasis(r) == CostBasis(ps)
  {
    SumCongruent(LiveUpdate(ps, draws), ps, Basis);
  }

  // ---------------------------------------------------------------------
  // The page's state
  // ---------------------------------------------------------------------

  class Dashboard {
    var positions: seq<Position>
    var balance: real
    var isLoading: bool
    var portfolioValue: real
    var totalPL: real
    var totalPLPercent: real
    var historicalData: seq<HistoryPoint>
    var allocationData: seq<Allocation>

    constructor ()
      ensures positions == InitialPositions && balance == InitialBalance && isLoading
      ensures portfolioValue == 0.0 && totalPL == 0.0 && totalPLPercent == 0.0
      ensures historicalData == [] && allocationData == []
    {
      positions := InitialPositions;
      balance := InitialBalance;
      isLoading := true;
      portfolioValue := 0.0;
      totalPL := 0.0;
      totalPLPercent := 0.0;
      historicalData := [];
      allocationData := [];
    }

    /** The metrics effect. The history generator reads the portfolioValue
        state as it stood before this step: the new value is only visible on
        the next render. */
    method RefreshMetrics(draws: seq<real>)
      requires |draws| == 31
      modifies this
      ensures positions == old(positions) && balance == old(balance) && !isLoading
      ensures portfolioValue == PortfolioValue(positions, balance)
      ensures totalPL == TotalPL(positions)
      ensures totalPLPercent == PLPercent(positions)
      ensures IsHistory(historicalData, old(portfolioValue), draws)
      ensures allocationData == Allocations(positions, balance)
    {
      var ps, b := positions, balance;
      var history := GenerateHistoricalData(portfolioValue, draws);
      portfolioValue := PositionsValue(ps) + b;
      totalPL := TotalPL(ps);
      totalPLPercent := PLPercent(ps);
      historicalData := history;
      allocationData := Allocations(ps, b);
      isLoading := false;
    }

    /** One 5-second tick: skipped while loading, otherwise every position's
        price and day change move. */
    method LiveTick(draws: seq<PriceDraw>)
      requires |draws| == |positions|
      modifies this`positions
      ensures isLoading ==> positions == old(positions)
      ensures !isLoading ==> positions == LiveUpdate(old(positions), draws)
    {
      if !isLoading {
        positions := LiveUpdate(positions, draws);
      }
    }
  }
}
