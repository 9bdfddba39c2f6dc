/** The portfolio-predictions card: a 31-day compounding history, a 7-day
    forecast, the combined chart rows, live updates that rewrite only the
    last entry of each series, the clamped integer confidence, a fixed
    backup data set after repeated failed loads, and the gain figures.
    Locale dates are parameters, as is every random draw and whether a load
    throws. */
module PortfolioPredictions {
  import opened Options
  import opened Numbers
  import Portfolio

  datatype HistoryEntry = HistoryEntry(date: string, value: real)
  datatype PredictionEntry = PredictionEntry(date: string, prediction: real)
  /** A chart row: a history row has no prediction, a forecast row no value. */
  datatype ChartRow = ChartRow(date: string, value: Option<real>, prediction: Option<real>)

  const HistoryDays: nat := 31
  const ForecastDays: nat := 7

  // ---------------------------------------------------------------------
  // The generators
  // ---------------------------------------------------------------------

  /** The history of generatePortfolioData: entry k is 30 - k days old and
      holds the start value compounded by the first k + 1 daily moves,
      rounded to cents. */
  function PortfolioSeries(start: real, draws: seq<real>, dates: seq<string>): (data: seq<HistoryEntry>)
    requires |draws| == HistoryDays && |dates| == HistoryDays
    ensures |data| == HistoryDays
    ensures forall k :: 0 <= k < HistoryDays ==> data[k].date == dates[k]
  {
    seq(HistoryDays, k requires 0 <= k < HistoryDays =>
      HistoryEntry(dates[k], Round2(Portfolio.Compound(start, draws[..k + 1]))))
  }

  /** generatePortfolioData, with start value 10000 + 2000 r. */
  method GeneratePortfolioData(r: real, draws: seq<real>, dates: seq<string>) returns (data: seq<HistoryEntry>)
    requires |draws| == HistoryDays && |dates| == HistoryDays
    ensures data == PortfolioSeries(10000.0 + r * 2000.0, draws, dates)
  {
    var start := 10000.0 + r * 2000.0;
    var currentValue := start;
    data := [];
    var i := 30;
    while i >= 0
      invariant -1 <= i <= 30
      invariant |data| == 30 - i
      invariant currentValue == Portfolio.Compound(start, draws[..30 - i])
      invariant forall k :: 0 <= k < |data| ==>
        data[k] == HistoryEntry(dates[k], Round2(Portfolio.Compound(start, draws[..k + 1])))
    {
      var k := 30 - i;
      assert draws[..k + 1][..k] == draws[..k];
      currentValue := currentValue * Portfolio.DailyFactor(draws[k]);
      data := data + [HistoryEntry(dates[k], Round2(currentValue))];
      i := i - 1;
    }
    assert forall k :: 0 <= k < HistoryDays ==> data[k] == PortfolioSeries(start, draws, dates)[k];
  }

  function Pow(x: real, n: nat): real
    decreases n
  {
    if n == 0 then 1.0 else x * Pow(x, n - 1)
  }

  /** A factor at least 1 raised to any power is at least 1; a non-negative
      one stays non-negative. */
  lemma {:induction false} PowBounds(x: real, n: nat)
    requires x >= 0.0
    ensures Pow(x, n) >= 0.0
    ensures x >= 1.0 ==> Pow(x, n) >= 1.0
    decreases n
  {
    if n > 0 {
      PowBounds(x, n - 1);
      MulNonNegative(x, Pow(x, n - 1));
      if x >= 1.0 {
        assert x * Pow(x, n - 1) >= 1.0 * Pow(x, n - 1);
      }
    }
  }

  /** 1 + (Math.random() * 2 - 0.3) / 100: a daily move between -0.3% and 1.7%. */
  function ForecastFactor(r: real): real {
    1.0 + (r * 2.0 - 0.3) / 100.0
  }

  /** `lastValue * Math.pow(1 + dailyChange, n)`. */
  function ForecastValue(lastValue: real, r: real, n: nat): real {
    lastValue * Pow(ForecastFactor(r), n)
  }

  /** The forecast of generatePredictionData: day k + 1 after the last
      history value, compounding that day's own move k + 1 times. */
  function ForecastSeries(lastValue: real, draws: seq<real>, dates: seq<string>): (ps: seq<PredictionEntry>)
    requires |draws| == ForecastDays && |dates| == ForecastDays
    ensures |ps| == ForecastDays
    ensures forall k :: 0 <= k < ForecastDays ==> ps[k].date == dates[k]
  {
    seq(ForecastDays, k requires 0 <= k < ForecastDays =>
      PredictionEntry(dates[k], Round2(ForecastValue(lastValue, draws[k], k + 1))))
  }

  /** generatePredictionData. */
  method GeneratePredictionData(lastValue: real, draws: seq<real>, dates: seq<string>) returns (ps: seq<PredictionEntry>)
    requires |draws| == ForecastDays && |dates| == ForecastDays
    ensures ps == ForecastSeries(lastValue, draws, dates)
  {
    ps := [];
    var i := 1;
    while i <= ForecastDays
      invariant 1 <= i <= ForecastDays + 1
      invariant |ps| == i - 1
      invariant forall k :: 0 <= k < |ps| ==>
        ps[k] == PredictionEntry(dates[k], Round2(ForecastValue(lastValue, draws[k], k + 1)))
    {
      var predictedValue := ForecastValue(lastValue, draws[i - 1], i);
      ps := ps + [PredictionEntry(dates[i - 1], Round2(predictedValue))];
      i := i + 1;
    }
    assert forall k :: 0 <= k < ForecastDays ==> ps[k] == ForecastSeries(lastValue, draws, dates)[k];
  }

  /** A non-negative last value gives a non-negative forecast, and a draw of
      at least 0.15 gives a day no lower than the last value before cents. */
  lemma ForecastNonNegative(lastValue: real, r: real, n: nat)
    requires lastValue >= 0.0 && IsDraw(r)
    ensures ForecastValue(lastValue, r, n) >= 0.0
    ensures r >= 0.15 ==> ForecastValue(lastValue, r, n) >= lastValue
  {
    PowBounds(ForecastFactor(r), n);
    MulNonNegative(lastValue, Pow(ForecastFactor(r), n));
    if r >= 0.15 {
      assert lastValue * Pow(ForecastFactor(r), n) >= lastValue * 1.0;
    }
  }

  // ---------------------------------------------------------------------
  // Chart rows, confidence, backup, gains
  // ---------------------------------------------------------------------

  /** combinedData. */
  function Combined(history: seq<HistoryEntry>, forecast: seq<PredictionEntry>): (rows: seq<ChartRow>)
    ensures |rows| == |history| + |forecast|
    ensures forall k :: 0 <= k < |history| ==>
      rows[k] == ChartRow(history[k].date, Some(history[k].value), None)
    ensures forall k :: 0 <= k < |forecast| ==>
      rows[|history| + k] == ChartRow(forecast[k].date, None, Some(forecast[k].prediction))
  {
    seq(|history|, k requires 0 <= k < |history| => ChartRow(history[k].date, Some(history[k].value), None))
    + seq(|forecast|, k requires 0 <= k < |forecast| => ChartRow(forecast[k].date, None, Some(forecast[k].prediction)))
  }

  /** Exactly the history rows carry a value and exactly the forecast rows a
      prediction. */
  lemma CombinedSplits(history: seq<HistoryEntry>, forecast: seq<PredictionEntry>)
    ensures forall k :: 0 <= k < |Combined(history, forecast)| ==>
      (Combined(history, forecast)[k].value.Some? <==> k < |history|) &&
      (Combined(history, forecast)[k].prediction.Some? <==> k >= |history|)
  {
    var rows := Combined(history, forecast);
    forall k | 0 <= k < |rows|
      ensures (rows[k].value.Some? <==> k < |history|) && (rows[k].prediction.Some? <==> k >= |history|)
    {
      if k >= |history| {
        assert rows[|history| + (k - |history|)] == rows[k];
      }
    }
  }

  /** Math.round(75 + Math.random() * 20). */
  function InitialConfidence(r: real): (c: int)
    requires IsDraw(r)
    ensures 75 <= c <= 95
  {
    RoundWithin(75.0 + r * 20.0, 75, 95);
    Round(75.0 + r * 20.0)
  }

  /** Math.min(95, Math.max(75, Math.round(c + (Math.random() * 2 - 1)))). */
  function NudgedConfidence(c: real, r: real): (n: int)
    ensures 75 <= n <= 95
  {
    Clamp(Round(c + (r * 2.0 - 1.0)), 75, 95)
  }

  /** A nudge moves a whole-number confidence within the clamp by at most
      one point. */
  lemma NudgeMovesAtMostOne(c: int, r: real)
    requires IsDraw(r) && 75 <= c <= 95
    ensures c - 1 <= NudgedConfidence(c as real, r) <= c + 1
  {
    RoundWithin(c as real + (r * 2.0 - 1.0), c - 1, c + 1);
  }

  /** The refresh button's 75 + Math.random() * 20, stored without
      Math.round: it lies in [75, 95) and rounds to the confidence a load
      draws from the same number. */
  function RefreshConfidence(r: real): (c: real)
    requires IsDraw(r)
    ensures 75.0 <= c < 95.0
    ensures Round(c) == InitialConfidence(r)
  {
    75.0 + r * 20.0
  }

  /** The refresh can show a fractional confidence: the draw 0.01 gives
      75.2 after a refresh but 75 after a load. */
  lemma RefreshConfidenceUnrounded()
    ensures RefreshConfidence(0.01) == 75.2 && InitialConfidence(0.01) == 75
    ensures RefreshConfidence(0.01) != InitialConfidence(0.01) as real
  {
    assert 75.0 + 0.01 * 20.0 == 75.2;
  }

  const BackupHistory: seq<HistoryEntry> := [
    HistoryEntry("2/26/2025", 9500.0), HistoryEntry("3/5/2025", 9800.0), HistoryEntry("3/12/2025", 10100.0),
    HistoryEntry("3/19/2025", 10300.0), HistoryEntry("3/27/2025", 10500.0)
  ]

  const BackupForecast: seq<PredictionEntry> := [
    PredictionEntry("3/28/2025", 10550.0), PredictionEntry("3/29/2025", 10600.0), PredictionEntry("3/30/2025", 10650.0),
    PredictionEntry("3/31/2025", 10700.0), PredictionEntry("4/1/2025", 10750.0), PredictionEntry("4/2/2025", 10800.0),
    PredictionEntry("4/3/2025", 10850.0)
  ]

  const BackupConfidence := 85

  /** The figures the backup data set shows: current 10500, start 9500,
      a 7-day prediction of 10850, confidence 85 (within the live clamp). */
  lemma BackupFigures()
    ensures |BackupHistory| == 5 && |BackupForecast| == ForecastDays
    ensures BackupHistory[|BackupHistory| - 1].value == 10500.0 && BackupHistory[0].value == 9500.0
    ensures BackupForecast[|BackupForecast| - 1].prediction == 10850.0
    ensures 75 <= BackupConfidence <= 95
  {
  }

  /** totalGain and its percentage; the percentage is None (NaN or an
      infinity) while the start value is 0. */
  function TotalGain(current: real, start: real): (g: real)
    ensures start + g == current
  {
    current - start
  }

  function GainPercent(gain: real, base: real): (p: Option<real>)
    ensures p.None? <==> base == 0.0
    ensures p.Some? ==> p.value * base == gain * 100.0
  {
    if base == 0.0 then None else Some(gain / base * 100.0)
  }

  /** predictedGain. */
  function PredictedGain(prediction: real, current: real): (g: real)
    ensures current + g == prediction
  {
    prediction - current
  }

  /** The gain from start to now and the predicted gain from now add up to
      the gain from start to the prediction. */
  lemma GainsCompose(start: real, current: real, prediction: real)
    ensures TotalGain(current, start) + PredictedGain(prediction, current) == TotalGain(prediction, start)
  {
  }

  // ---------------------------------------------------------------------
  // The card state
  // ---------------------------------------------------------------------

  /** The draws of one live update. */
  datatype LiveDraws = LiveDraws(value: real, prediction: real, confidence: real)

  class Card {
    var portfolioData: seq<HistoryEntry>
    var predictionData: seq<PredictionEntry>
    var isLoading: bool
    var currentValue: real
    var startValue: real
    var predictionValue: real
    var confidenceScore: real
    var isInitialLoad: bool
    var failedUpdates: nat
    var backupActive: bool

    constructor ()
      ensures portfolioData == [] && predictionData == [] && isLoading
      ensures currentValue == 0.0 && startValue == 0.0 && predictionValue == 0.0 && confidenceScore == 0.0
      ensures isInitialLoad && failedUpdates == 0 && !backupActive
    {
      portfolioData := [];
      predictionData := [];
      isLoading := true;
      currentValue := 0.0;
      startValue := 0.0;
      predictionValue := 0.0;
      confidenceScore := 0.0;
      isInitialLoad := true;
      failedUpdates := 0;
      backupActive := false;
    }

    /** Once data is installed the confidence lies within 75..95. It is a
        whole number after a load or a live update, but the refresh button
        stores an unrounded one. */
    ghost predicate Valid()
      reads this
    {
      !isInitialLoad ==> 75.0 <= confidenceScore <= 95.0
    }

    /** A successful loadData: 31 history days, the 7-day forecast from the
        last one, current and start from the ends of the history, the
        prediction from the end of the forecast, a fresh confidence. */
    method LoadGenerated(r: real, draws: seq<real>, dates: seq<string>,
                         forecastDraws: seq<real>, forecastDates: seq<string>, rConfidence: real)
      requires |draws| == HistoryDays && |dates| == HistoryDays
      requires |forecastDraws| == ForecastDays && |forecastDates| == ForecastDays && IsDraw(rConfidence)
      modifies this`portfolioData, this`predictionData, this`currentValue, this`startValue,
               this`predictionValue, this`confidenceScore
      ensures portfolioData == PortfolioSeries(10000.0 + r * 2000.0, draws, dates)
      ensures currentValue == portfolioData[HistoryDays - 1].value && startValue == portfolioData[0].value
      ensures predictionData == ForecastSeries(currentValue, forecastDraws, forecastDates)
      ensures predictionValue == predictionData[ForecastDays - 1].prediction
      ensures confidenceScore == InitialConfidence(rConfidence) as real
    {
      var historical := GeneratePortfolioData(r, draws, dates);
      portfolioData := historical;
      currentValue := historical[HistoryDays - 1].value;
      startValue := historical[0].value;
      var predictions := GeneratePredictionData(historical[HistoryDays - 1].value, forecastDraws, forecastDates);
      predictionData := predictions;
      predictionValue := predictions[ForecastDays - 1].prediction;
      confidenceScore := InitialConfidence(rConfidence) as real;
    }

    /** activateBackupSystem: the fixed data set, loading finished. */
    method ActivateBackup()
      modifies this`portfolioData, this`predictionData, this`currentValue, this`startValue,
               this`predictionValue, this`confidenceScore, this`isLoading, this`isInitialLoad, this`backupActive
      ensures portfolioData == BackupHistory && predictionData == BackupForecast
      ensures currentValue == 10500.0 && startValue == 9500.0 && predictionValue == 10850.0
      ensures confidenceScore == BackupConfidence as real && !isLoading && !isInitialLoad && backupActive
    {
      portfolioData := BackupHistory;
      predictionData := BackupForecast;
      currentValue := BackupHistory[|BackupHistory| - 1].value;
      startValue := BackupHistory[0].value;
      predictionValue := BackupForecast[|BackupForecast| - 1].prediction;
      confidenceScore := BackupConfidence as real;
      isLoading := false;
      isInitialLoad := false;
      backupActive := true;
    }

    /** loadData. A load that does not throw installs generated data, ends
        loading and clears the failure counter. One that throws counts the
        failure and leaves loading on, so live updates stay off, until the
        third failure in a row installs the backup data. */
    method LoadData(succeeded: bool, r: real, draws: seq<real>, dates: seq<string>,
                    forecastDraws: seq<real>, forecastDates: seq<string>, rConfidence: real)
      requires Valid()
      requires |draws| == HistoryDays && |dates| == HistoryDays
      requires |forecastDraws| == ForecastDays && |forecastDates| == ForecastDays && IsDraw(rConfidence)
      modifies this
      ensures Valid()
      ensures succeeded ==> !isLoading && !isInitialLoad && failedUpdates == 0 && backupActive == old(backupActive)
      ensures succeeded ==> portfolioData == PortfolioSeries(10000.0 + r * 2000.0, draws, dates)
      ensures succeeded ==>
        currentValue == portfolioData[HistoryDays - 1].value && startValue == portfolioData[0].value
      ensures succeeded ==> predictionData == ForecastSeries(currentValue, forecastDraws, forecastDates)
      ensures succeeded ==>
        predictionValue == predictionData[ForecastDays - 1].prediction
        && confidenceScore == InitialConfidence(rConfidence) as real
      ensures !succeeded ==> failedUpdates == old(failedUpdates) + 1
      ensures !succeeded && failedUpdates > 2 ==>
        && portfolioData == BackupHistory && predictionData == BackupForecast && !isLoading
        && currentValue == 10500.0 && startValue == 9500.0 && predictionValue == 10850.0
        && confidenceScore == BackupConfidence as real && !isInitialLoad && backupActive
      ensures !succeeded && failedUpdates <= 2 ==>
        && isLoading && portfolioData == old(portfolioData) && predictionData == old(predictionData)
        && currentValue == old(currentValue) && startValue == old(startValue)
        && predictionValue == old(predictionValue) && confidenceScore == old(confidenceScore)
        && isInitialLoad == old(isInitialLoad) && backupActive == old(backupActive)
    {
      isLoading := true;
      if succeeded {
        LoadGenerated(r, draws, dates, forecastDraws, forecastDates, rConfidence);
        isLoading := false;
        isInitialLoad := false;
        failedUpdates := 0;
      } else {
        failedUpdates := failedUpdates + 1;
        if failedUpdates > 2 {
          ActivateBackup();
        }
      }
    }

    /** The Refresh Data button, first step: loading starts at once, which
        also pauses the live updates. */
    method StartRefresh()
      modifies this`isLoading
      ensures isLoading
    {
      isLoading := true;
    }

    /** The Refresh Data button, one second later: fresh generated series
        and figures as a load installs, but with the unrounded confidence,
        and without touching the failure counter, the backup flag or the
        initial-load flag. */
    method FinishRefresh(r: real, draws: seq<real>, dates: seq<string>,
                         forecastDraws: seq<real>, forecastDates: seq<string>, rConfidence: real)
      requires Valid()
      requires |draws| == HistoryDays && |dates| == HistoryDays
      requires |forecastDraws| == ForecastDays && |forecastDates| == ForecastDays && IsDraw(rConfidence)
      modifies this`portfolioData, this`predictionData, this`currentValue, this`startValue,
               this`predictionValue, this`confidenceScore, this`isLoading
      ensures Valid() && !isLoading
      ensures portfolioData == PortfolioSeries(10000.0 + r * 2000.0, draws, dates)
      ensures currentValue == portfolioData[HistoryDays - 1].value && startValue == portfolioData[0].value
      ensures predictionData == ForecastSeries(currentValue, forecastDraws, forecastDates)
      ensures predictionValue == predictionData[ForecastDays - 1].prediction
      ensures confidenceScore == RefreshConfidence(rConfidence)
    {
      LoadGenerated(r, draws, dates, forecastDraws, forecastDates, rConfidence);
      confidenceScore := RefreshConfidence(rConfidence);
      isLoading := false;
    }

    /** One live update: nothing while loading; otherwise the value and the
        prediction move, each series has only its last entry rewritten to
        them, and the confidence is nudged within 75..95. */
    method LiveUpdate(d: LiveDraws)
      requires Valid()
      modifies this`currentValue, this`predictionValue, this`portfolioData, this`predictionData, this`confidenceScore
      ensures Valid()
      ensures |portfolioData| == old(|portfolioData|) && |predictionData| == old(|predictionData|)
      ensures old(isLoading) ==>
        currentValue == old(currentValue) && predictionValue == old(predictionValue)
        && portfolioData == old(portfolioData) && predictionData == old(predictionData)
        && confidenceScore == old(confidenceScore)
      ensures !old(isLoading) ==>
        && currentValue == old(currentValue) + old(currentValue) * (d.value * 0.01 - 0.003)
        && predictionValue == old(predictionValue) + old(predictionValue) * (d.prediction * 0.008 - 0.003)
        && (forall k :: 0 <= k < |portfolioData| - 1 ==> portfolioData[k] == old(portfolioData)[k])
        && (forall k :: 0 <= k < |predictionData| - 1 ==> predictionData[k] == old(predictionData)[k])
        && (|portfolioData| > 0 ==> portfolioData[|portfolioData| - 1] == old(portfolioData)[|portfolioData| - 1].(value := currentValue))
        && (|predictionData| > 0 ==> predictionData[|predictionData| - 1] == old(predictionData)[|predictionData| - 1].(prediction := predictionValue))
        && confidenceScore == NudgedConfidence(old(confidenceScore), d.confidence) as real
    {
      if !isLoading {
        var newValue := currentValue + currentValue * (d.value * 0.01 - 0.003);
        currentValue := newValue;
        if |portfolioData| > 0 {
          var last := |portfolioData| - 1;
          portfolioData := portfolioData[last := portfolioData[last].(value := newValue)];
        }
        var newPrediction := predictionValue + predictionValue * (d.prediction * 0.008 - 0.003);
        predictionValue := newPrediction;
        if |predictionData| > 0 {
          var last := |predictionData| - 1;
          predictionData := predictionData[last := predictionData[last].(prediction := newPrediction)];
        }
        confidenceScore := NudgedConfidence(confidenceScore, d.confidence) as real;
      }
    }

    /** The backup interval: value and prediction each move by at most 0.2%;
        the series are left alone. */
    method BackupTick(rValue: real, rPrediction: real)
      requires backupActive
      modifies this`currentValue, this`predictionValue
      ensures currentValue == old(currentValue) * (1.0 + (rValue * 0.004 - 0.002))
      ensures predictionValue == old(predictionValue) * (1.0 + (rPrediction * 0.004 - 0.002))
    {
      currentValue := currentValue * (1.0 + (rValue * 0.004 - 0.002));
      predictionValue := predictionValue * (1.0 + (rPrediction * 0.004 - 0.002));
    }

    /** The chart rows: the history rows carry the values, the forecast rows
        after them the predictions. */
    function Chart(): (rows: seq<ChartRow>)
      reads this
      ensures |rows| == |portfolioData| + |predictionData|
      ensures forall k :: 0 <= k < |rows| ==>
        (rows[k].value.Some? <==> k < |portfolioData|) && (rows[k].prediction.Some? <==> k >= |portfolioData|)
    {
      CombinedSplits(portfolioData, predictionData);
      Combined(portfolioData, predictionData)
    }
  }
}
