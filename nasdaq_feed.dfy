/** The NASDAQ feed: 21 mock quotes at 15-minute steps, a prediction with a
    five-point hourly segment that interpolates linearly from the last quote
    to the predicted value, micro-updates that rewrite only the last quote,
    integer confidence clamps, and the failure counter behind the backup
    switch. Time labels of the quotes come from the locale and are
    parameters, as is the hour read back from the last label; every random
    draw is a parameter. */
module NasdaqFeed {
  import opened Options
  import opened Numbers
  import opened Text

  /** One chart point: its time label, value, and whether it is predicted. */
  datatype Point = Point(time: string, value: real, isPrediction: bool)

  const HistoryLength: nat := 21
  const PredictionHours: nat := 5
  const SimulatedMessage := "Using simulated NASDAQ data"

  // ---------------------------------------------------------------------
  // generateMockData
  // ---------------------------------------------------------------------

  /** The quote i steps of 15 minutes before the base time: the base moved by
      a random change of at most 0.3% and a trend of 0.05% per step. */
  function MockValue(baseValue: real, r: real, i: nat): real {
    Round2(baseValue * (1.0 + (r * 2.0 - 1.0) * 0.003 + 0.0005 * i as real))
  }

  /** The quotes of generateMockData: the loop runs i = 20 down to 0, so
      entry k is the quote 20 - k steps old. `labels` are the locale times of
      the steps, `base` the draw behind the base value 16000 + 1000 r. */
  function MockQuotes(base: real, draws: seq<real>, labels: seq<string>): (data: seq<Point>)
    requires |draws| == HistoryLength && |labels| == HistoryLength
    ensures |data| == HistoryLength
    ensures forall k :: 0 <= k < HistoryLength ==> !data[k].isPrediction && data[k].time == labels[k]
  {
    seq(HistoryLength, k requires 0 <= k < HistoryLength =>
      Point(labels[k], MockValue(16000.0 + base * 1000.0, draws[k], 20 - k), false))
  }

  /** generateMockData. */
  method GenerateMockData(base: real, draws: seq<real>, labels: seq<string>) returns (data: seq<Point>)
    requires |draws| == HistoryLength && |labels| == HistoryLength
    ensures data == MockQuotes(base, draws, labels)
  {
    var baseValue := 16000.0 + base * 1000.0;
    data := [];
    var i := 20;
    while i >= 0
      invariant -1 <= i <= 20
      invariant |data| == 20 - i
      invariant forall k :: 0 <= k < |data| ==>
        data[k] == Point(labels[k], MockValue(baseValue, draws[k], 20 - k), false)
    {
      var k := 20 - i;
      data := data + [Point(labels[k], MockValue(baseValue, draws[k], i), false)];
      i := i - 1;
    }
    assert forall k :: 0 <= k < HistoryLength ==> data[k] == MockQuotes(base, draws, labels)[k];
  }

  // ---------------------------------------------------------------------
  // The prediction
  // ---------------------------------------------------------------------

  /** `${h.toString().padStart(2, "0")}:00`. */
  function HourLabel(h: nat): (s: string)
    requires h < 24
    ensures |s| == 5 && s[2..] == ":00" && s[..2] == Pad2(h)
  {
    Pad2(h) + ":00"
  }

  /** The predicted value: the last quote moved by a change between -0.5% and 1.5%. */
  function PredictedValue(last: real, r: real): real {
    last * (1.0 + (r * 0.02 - 0.005))
  }

  /** The i-th point of the segment from `last` towards `predicted`. */
  function SegmentValue(last: real, predicted: real, i: nat): real {
    last + (predicted - last) / PredictionHours as real * i as real
  }

  /** generatePredictionDataPoints for the last quote, the hour read from its
      label, and the predicted value. */
  method GeneratePredictionDataPoints(last: real, hour: nat, predicted: real) returns (points: seq<Point>)
    ensures |points| == PredictionHours
    ensures forall k :: 0 <= k < PredictionHours ==>
      points[k] == Point(HourLabel((hour + k + 1) % 24), SegmentValue(last, predicted, k + 1), true)
  {
    var increment := (predicted - last) / PredictionHours as real;
    points := [];
    var i := 1;
    while i <= PredictionHours
      invariant 1 <= i <= PredictionHours + 1
      invariant |points| == i - 1
      invariant forall k :: 0 <= k < |points| ==>
        points[k] == Point(HourLabel((hour + k + 1) % 24), SegmentValue(last, predicted, k + 1), true)
    {
      var nextHour := (hour + i) % 24;
      points := points + [Point(HourLabel(nextHour), last + increment * i as real, true)];
      i := i + 1;
    }
  }

  /** The segment ends exactly at the prediction, and lies between the last
      quote and the prediction, moving steadily towards it. */
  lemma SegmentReachesPrediction(last: real, predicted: real)
    ensures SegmentValue(last, predicted, PredictionHours) == predicted
    ensures forall i: nat, j: nat :: 0 <= i <= j <= PredictionHours && last <= predicted ==>
      last <= SegmentValue(last, predicted, i) <= SegmentValue(last, predicted, j) <= predicted
    ensures forall i: nat, j: nat :: 0 <= i <= j <= PredictionHours && predicted <= last ==>
      predicted <= SegmentValue(last, predicted, j) <= SegmentValue(last, predicted, i) <= last
  {
    assert (predicted - last) / 5.0 * 5.0 == predicted - last;
    forall i: nat, j: nat | 0 <= i <= j <= PredictionHours
      ensures last <= predicted ==> last <= SegmentValue(last, predicted, i) <= SegmentValue(last, predicted, j) <= predicted
      ensures predicted <= last ==> predicted <= SegmentValue(last, predicted, j) <= SegmentValue(last, predicted, i) <= last
    {
      SegmentBetween(last, predicted, i, j);
    }
  }

  /** Two points of the segment, the earlier one nearer the last quote. */
  lemma SegmentBetween(last: real, predicted: real, i: nat, j: nat)
    requires i <= j <= PredictionHours
    ensures last <= predicted ==> last <= SegmentValue(last, predicted, i) <= SegmentValue(last, predicted, j) <= predicted
    ensures predicted <= last ==> predicted <= SegmentValue(last, predicted, j) <= SegmentValue(last, predicted, i) <= last
  {
    var step := (predicted - last) / 5.0;
    assert last + step * 5.0 == predicted;
    assert SegmentValue(last, predicted, i) == last + step * i as real;
    assert SegmentValue(last, predicted, j) == last + step * j as real;
    StepBetween(step, i, j);
    if last <= predicted {
      assert step >= 0.0;
    } else {
      assert step <= 0.0;
    }
  }

  lemma StepBetween(step: real, i: nat, j: nat)
    requires i <= j <= 5
    ensures step >= 0.0 ==> 0.0 <= step * i as real <= step * j as real <= step * 5.0
    ensures step <= 0.0 ==> step * 5.0 <= step * j as real <= step * i as real <= 0.0
  {
    assert step * j as real - step * i as real == step * (j - i) as real;
    assert step * 5.0 - step * j as real == step * (5 - j) as real;
  }

  /** Every label is a two-digit hour on the 24-hour clock followed by ":00". */
  lemma LabelsAreHours(hour: nat, k: nat)
    requires k < PredictionHours
    ensures var s := HourLabel((hour + k + 1) % 24);
      |s| == 5 && DigitValue(s[0]) * 10 + DigitValue(s[1]) == (hour + k + 1) % 24 && s[2..] == ":00"
  {
    var s := HourLabel((hour + k + 1) % 24);
    assert s[..2] == Pad2((hour + k + 1) % 24);
    assert s[0] == s[..2][0] && s[1] == s[..2][1];
  }

  /** Math.round(70 + Math.random() * 25). */
  function InitialConfidence(r: real): (c: int)
    requires IsDraw(r)
    ensures 70 <= c <= 95
  {
    RoundWithin(70.0 + r * 25.0, 70, 95);
    Round(70.0 + r * 25.0)
  }

  /** Math.min(99, Math.max(65, Math.round(c + (Math.random() * 0.5 - 0.25)))). */
  function NudgedConfidence(c: int, r: real): (n: int)
    ensures 65 <= n <= 99
  {
    Clamp(Round(c as real + (r * 0.5 - 0.25)), 65, 99)
  }

  /** The nudge is less than half a point, so an integer confidence within
      the clamp never moves. */
  lemma NudgeKeepsConfidence(c: int, r: real)
    requires IsDraw(r) && 65 <= c <= 99
    ensures NudgedConfidence(c, r) == c
  {
    assert c as real - 0.5 < c as real + (r * 0.5 - 0.25) <= c as real + 0.5;
    assert Round(c as real + (r * 0.5 - 0.25)) == c;
  }

  // ---------------------------------------------------------------------
  // Chart data
  // ---------------------------------------------------------------------

  /** `[...data, ...predictionData]`. */
  function ChartData(data: seq<Point>, prediction: seq<Point>): (r: seq<Point>)
    ensures |r| == |data| + |prediction|
    ensures r[..|data|] == data && r[|data|..] == prediction
  {
    data + prediction
  }

  /** The quote micro-updated by a random change of at most 0.05%. */
  function NudgedQuote(value: real, r: real): real {
    value * (1.0 + (r * 2.0 - 1.0) * 0.0005)
  }

  /** The prediction micro-updated by a change between -0.03% and 0.05%. */
  function NudgedPrediction(value: real, r: real): real {
    value + value * (r * 0.0008 - 0.0003)
  }

  /** The three draws of one micro-update. */
  datatype MicroDraws = MicroDraws(quote: real, prediction: real, confidence: real)

  class Feed {
    var data: seq<Point>
    var predictionData: seq<Point>
    var isLoading: bool
    var isPredicting: bool
    var error: Option<string>
    var currentValue: real
    var previousValue: real
    var predictionValue: Option<real>
    var confidenceScore: int
    var isInitialLoad: bool
    var failedUpdates: nat
    var backupActive: bool

    constructor ()
      ensures data == [] && predictionData == [] && isLoading && !isPredicting && error == None
      ensures currentValue == 0.0 && previousValue == 0.0 && predictionValue == None && confidenceScore == 0
      ensures isInitialLoad && failedUpdates == 0 && !backupActive
    {
      data := [];
      predictionData := [];
      isLoading := true;
      isPredicting := false;
      error := None;
      currentValue := 0.0;
      previousValue := 0.0;
      predictionValue := None;
      confidenceScore := 0;
      isInitialLoad := true;
      failedUpdates := 0;
      backupActive := false;
    }

    /** The chart holds the 21 quotes (or none before the first load) and the
        prediction segment (five points, or none), and the confidence is an
        integer percentage within 65..99 once a prediction is made. */
    ghost predicate Valid()
      reads this
    {
      && (|data| == 0 || |data| == HistoryLength)
      && (|predictionData| == 0 || |predictionData| == PredictionHours)
      && (predictionValue.Some? ==> 65 <= confidenceScore <= 99)
    }

    /** generatePrediction for the freshly loaded quotes. */
    method GeneratePrediction(hour: nat, rChange: real, rConfidence: real)
      requires |data| == HistoryLength && IsDraw(rConfidence)
      modifies this`isPredicting, this`predictionValue, this`confidenceScore, this`predictionData
      ensures !isPredicting
      ensures predictionValue == Some(PredictedValue(data[HistoryLength - 1].value, rChange))
      ensures confidenceScore == InitialConfidence(rConfidence)
      ensures |predictionData| == PredictionHours
      ensures forall k :: 0 <= k < PredictionHours ==>
        predictionData[k] == Point(HourLabel((hour + k + 1) % 24),
          SegmentValue(data[HistoryLength - 1].value, predictionValue.value, k + 1), true)
      ensures predictionData[PredictionHours - 1].value == predictionValue.value
    {
      isPredicting := true;
      var last := data[HistoryLength - 1].value;
      var predicted := PredictedValue(last, rChange);
      predictionValue := Some(predicted);
      confidenceScore := InitialConfidence(rConfidence);
      predictionData := GeneratePredictionDataPoints(last, hour, predicted);
      SegmentReachesPrediction(last, predicted);
      isPredicting := false;
    }

    /** Installs freshly generated quotes; current and previous become the
        last two quotes. */
    method LoadQuotes(base: real, draws: seq<real>, labels: seq<string>)
      requires |draws| == HistoryLength && |labels| == HistoryLength
      modifies this`data, this`currentValue, this`previousValue
      ensures data == MockQuotes(base, draws, labels)
      ensures currentValue == data[HistoryLength - 1].value && previousValue == data[HistoryLength - 2].value
    {
      var quotes := GenerateMockData(base, draws, labels);
      data := quotes;
      currentValue := quotes[HistoryLength - 1].value;
      previousValue := quotes[HistoryLength - 2].value;
    }

    /** getNasdaqData. A load installs fresh quotes, sets current and previous
        to the last two, and predicts. A failed load counts the failure,
        installs fallback quotes, and switches the backup system on after
        the third failure in a row; it makes no prediction. */
    method GetNasdaqData(succeeded: bool, base: real, draws: seq<real>, labels: seq<string>,
                         hour: nat, rChange: real, rConfidence: real)
      requires Valid() && |draws| == HistoryLength && |labels| == HistoryLength && IsDraw(rConfidence)
      modifies this
      ensures Valid() && !isLoading && data == MockQuotes(base, draws, labels)
      ensures currentValue == data[HistoryLength - 1].value && previousValue == data[HistoryLength - 2].value
      ensures succeeded ==>
        && !isInitialLoad && !isPredicting
        && failedUpdates == old(failedUpdates) && error == old(error) && backupActive == old(backupActive)
      ensures succeeded ==>
        && predictionValue == Some(PredictedValue(currentValue, rChange))
        && confidenceScore == InitialConfidence(rConfidence)
        && |predictionData| == PredictionHours
        && (forall k :: 0 <= k < PredictionHours ==>
              predictionData[k] == Point(HourLabel((hour + k + 1) % 24),
                SegmentValue(currentValue, predictionValue.value, k + 1), true))
        && predictionData[PredictionHours - 1].value == predictionValue.value
      ensures !succeeded ==> failedUpdates == old(failedUpdates) + 1 && error == Some(SimulatedMessage)
      ensures !succeeded ==> backupActive == (old(backupActive) || failedUpdates > 2)
      ensures !succeeded ==>
        && isInitialLoad == old(isInitialLoad) && isPredicting == old(isPredicting)
        && predictionValue == old(predictionValue) && predictionData == old(predictionData)
        && confidenceScore == old(confidenceScore)
    {
      isLoading := true;
      LoadQuotes(base, draws, labels);
      if succeeded {
        isInitialLoad := false;
        GeneratePrediction(hour, rChange, rConfidence);
        assert 65 <= confidenceScore <= 99;
      } else {
        RecordFailure();
      }
      isLoading := false;
    }

    /** The catch branch: the error banner, one more failure, and the backup
        system once three loads in a row have failed. */
    method RecordFailure()
      modifies this`error, this`failedUpdates, this`backupActive
      ensures error == Some(SimulatedMessage) && failedUpdates == old(failedUpdates) + 1
      ensures backupActive == (old(backupActive) || failedUpdates > 2)
    {
      error := Some(SimulatedMessage);
      failedUpdates := failedUpdates + 1;
      if failedUpdates > 2 {
        backupActive := true;
      }
    }

    /** One micro-update: skipped before any data, while loading and while
        predicting; otherwise the last quote is moved, previous becomes the
        old current, the prediction and its confidence are nudged, and the
        failure counter is cleared. The number of quotes never changes. */
    method MicroUpdate(d: MicroDraws)
      requires Valid()
      modifies this`data, this`currentValue, this`previousValue, this`predictionValue,
               this`confidenceScore, this`failedUpdates
      ensures Valid() && |data| == old(|data|)
      ensures old(data == [] || isLoading || isPredicting) ==>
        data == old(data) && currentValue == old(currentValue) && previousValue == old(previousValue)
        && predictionValue == old(predictionValue) && confidenceScore == old(confidenceScore)
        && failedUpdates == old(failedUpdates)
      ensures !old(data == [] || isLoading || isPredicting) ==>
        && data == old(data)[|data| - 1 := old(data)[|data| - 1].(value := NudgedQuote(old(data)[|data| - 1].value, d.quote))]
        && currentValue == data[|data| - 1].value && previousValue == old(currentValue)
        && failedUpdates == 0
        && (old(predictionValue).Some? ==>
             predictionValue == Some(NudgedPrediction(old(predictionValue).value, d.prediction))
             && confidenceScore == NudgedConfidence(old(confidenceScore), d.confidence))
        && (old(predictionValue).None? ==> predictionValue == None && confidenceScore == old(confidenceScore))
    {
      if |data| != 0 && !isLoading && !isPredicting {
        var last := |data| - 1;
        var newValue := NudgedQuote(data[last].value, d.quote);
        previousValue := currentValue;
        currentValue := newValue;
        data := data[last := data[last].(value := newValue)];
        if predictionValue.Some? {
          predictionValue := Some(NudgedPrediction(predictionValue.value, d.prediction));
          confidenceScore := NudgedConfidence(confidenceScore, d.confidence);
        }
        failedUpdates := 0;
      }
    }

    /** The chart: the quotes, then the prediction segment. */
    function Chart(): (r: seq<Point>)
      reads this
      ensures |r| == |data| + |predictionData|
      ensures r[..|data|] == data && r[|data|..] == predictionData
    {
      ChartData(data, predictionData)
    }

    /** The quote arrow points up exactly when the quote rose. */
    function IsUp(): bool
      reads this
    {
      currentValue > previousValue
    }
  }
}
