/** The prediction-history dialog: thirty days of mock predictions for one
    market, the accuracy and direction statistics over the verified ones,
    the accuracy chart and the ten-row log. */
module PredictionHistory {
  import opened Numbers
  import opened Options
  import opened Text
  import Seqs

  datatype PredictionType = NASDAQ | Bitcoin | Portfolio

  function TypeName(t: PredictionType): string {
    match t
    case NASDAQ => "NASDAQ"
    case Bitcoin => "Bitcoin"
    case Portfolio => "Portfolio"
  }

  /** One prediction. `timestamp` is the instant in milliseconds; the actual
      value and the accuracy are absent until the prediction is verified. */
  datatype Prediction = Prediction(
    id: string, kind: PredictionType, timestamp: int,
    currentValue: real, predictedValue: real, confidenceScore: real,
    timeframe: string, actualValue: Option<real>, accuracy: Option<real>)

  // ---------------------------------------------------------------------
  // generateMockPredictions
  // ---------------------------------------------------------------------

  /** The draws one record consumes, in the order the generator makes them
      (the actual-change draw only for records that get an actual value). */
  datatype RecordDraws = RecordDraws(base: real, predicted: real, actual: real, confidence: real)

  predicate IsRecordDraws(d: RecordDraws) {
    IsDraw(d.base) && IsDraw(d.predicted) && IsDraw(d.actual) && IsDraw(d.confidence)
  }

  /** The market's base value: NASDAQ 16000..17000, Bitcoin 60000..65000,
      Portfolio 10000..12000. */
  function BaseValue(t: PredictionType, r: real): real {
    match t
    case NASDAQ => 16000.0 + r * 1000.0
    case Bitcoin => 60000.0 + r * 5000.0
    case Portfolio => 10000.0 + r * 2000.0
  }

  /** 1 + change for a change drawn between -1% and +3%. */
  function ChangeFactor(r: real): real {
    1.0 + (r * 0.04 - 0.01)
  }

  lemma ChangeFactorRange(r: real)
    requires IsDraw(r)
    ensures 0.99 <= ChangeFactor(r) < 1.03
  {
  }

  /** 100 - |relative error in percent| of a prediction against the outcome. */
  function Accuracy(actual: real, predicted: real): (a: real)
    requires predicted != 0.0
    ensures a <= 100.0
  {
    100.0 - Abs((actual - predicted) / predicted * 100.0)
  }

  /** The k-th record pushed by generateMockPredictions(t, count): it is
      i = count - 1 - k days old, and only records with i < count - 1 get an
      actual value. `now` is not the clock: it is the millisecond time of the
      fixed local date 2025-03-27T21:11:23 the component dates every record
      from, kept a parameter because that value depends on the time zone. */
  function MockRecord(t: PredictionType, count: nat, now: int, k: nat, d: RecordDraws): (p: Prediction)
    requires k < count && IsRecordDraws(d)
  {
    var i := count - 1 - k;
    // each record is one day (86400000 ms) older than the next
    var timestamp := now - i * 86400000;
    Prediction(
      RecordId(t, timestamp), t, timestamp,
      BaseValue(t, d.base), MockPredicted(t, d), 65.0 + d.confidence * 30.0, "24h",
      if i < count - 1 then Some(MockActual(t, d)) else None,
      if i < count - 1 then Some(MockAccuracy(t, d)) else None)
  }

  /** `${type.toLowerCase()}-${date.getTime()}`. */
  function RecordId(t: PredictionType, timestamp: int): string {
    Lower(TypeName(t)) + "-" + IntToString(timestamp)
  }

  /** The predicted value: the base moved by the first change draw. */
  function MockPredicted(t: PredictionType, d: RecordDraws): (v: real)
    requires IsRecordDraws(d)
    ensures v > 0.0
  {
    ChangeFactorRange(d.predicted);
    ProductPositive(BaseValue(t, d.base), ChangeFactor(d.predicted));
    BaseValue(t, d.base) * ChangeFactor(d.predicted)
  }

  /** The actual value: the base moved by the second change draw. */
  function MockActual(t: PredictionType, d: RecordDraws): real {
    BaseValue(t, d.base) * ChangeFactor(d.actual)
  }

  function MockAccuracy(t: PredictionType, d: RecordDraws): real
    requires IsRecordDraws(d)
  {
    Accuracy(MockActual(t, d), MockPredicted(t, d))
  }

  lemma ProductPositive(x: real, y: real)
    requires x > 0.0 && y > 0.0
    ensures x * y > 0.0
  {
  }

  /** generateMockPredictions(t, count), with one set of draws per record,
      oldest record first; `now` is the fixed base date, as in MockRecord. */
  method GenerateMockPredictions(t: PredictionType, count: nat, now: int, draws: seq<RecordDraws>)
    returns (ps: seq<Prediction>)
    requires |draws| == count
    requires forall k :: 0 <= k < count ==> IsRecordDraws(draws[k])
    ensures |ps| == count
    ensures forall k :: 0 <= k < count ==> ps[k] == MockRecord(t, count, now, k, draws[k])
  {
    ps := [];
    var i := count - 1;
    while i >= 0
      invariant -1 <= i <= count - 1
      invariant |ps| == count - 1 - i
      invariant forall k :: 0 <= k < |ps| ==> ps[k] == MockRecord(t, count, now, k, draws[k])
    {
      // base, predicted move, actual move (not for the oldest), confidence
      var k := count - 1 - i;
      ps := ps + [MockRecord(t, count, now, k, draws[k])];
      i := i - 1;
    }
  }

  /** What every generated record looks like: only the oldest (index 0) is
      still unverified, a record has an accuracy exactly when it has an
      actual value, the confidence lies in [65, 95), and ids are per day. */
  lemma MockRecordShape(t: PredictionType, count: nat, now: int, k: nat, d: RecordDraws)
    requires k < count && IsRecordDraws(d)
    ensures var p := MockRecord(t, count, now, k, d);
      && (k == 0 ==> p.actualValue.None? && p.accuracy.None?)
      && (k > 0 ==> p.actualValue == Some(MockActual(t, d)) && p.accuracy == Some(MockAccuracy(t, d)))
      && p.timestamp == now - (count - 1 - k) * 86400000
      && p.currentValue > 0.0
      && 65.0 <= p.confidenceScore < 95.0
      && p.timeframe == "24h"
  {
  }

  /** Records of one run have pairwise different ids. */
  lemma MockRecordIdsDistinct(t: PredictionType, count: nat, now: int,
                              j: nat, k: nat, dj: RecordDraws, dk: RecordDraws)
    requires j < k < count && IsRecordDraws(dj) && IsRecordDraws(dk)
    ensures MockRecord(t, count, now, j, dj).id != MockRecord(t, count, now, k, dk).id
  {
    var pj := MockRecord(t, count, now, j, dj);
    var pk := MockRecord(t, count, now, k, dk);
    if pj.id == pk.id {
      PrefixCancel(Lower(TypeName(t)) + "-", IntToString(pj.timestamp), IntToString(pk.timestamp));
      IntToStringInjective(pj.timestamp, pk.timestamp);
    }
  }

  /** |x| < 0.04 and y >= 0.99 give |x / y| < 0.05. */
  lemma RatioBound(x: real, y: real)
    requires -0.04 < x < 0.04 && y >= 0.99
    ensures -0.05 < x / y < 0.05
  {
    assert x / y * y == x;
  }

  /** Two moves of one base value less than 4 points apart predict each
      other with accuracy above 95. */
  lemma AccuracyOfMoves(base: real, pf: real, af: real, predicted: real, actual: real)
    requires base > 0.0 && pf >= 0.99 && -0.04 < af - pf < 0.04
    requires predicted == base * pf && actual == base * af
    ensures predicted != 0.0
    ensures 95.0 < Accuracy(actual, predicted)
  {
    ProductPositive(base, pf);
    assert actual - predicted == base * (af - pf);
    assert (actual - predicted) / predicted == (af - pf) / pf by {
      assert base * (af - pf) / (base * pf) == (af - pf) / pf;
    }
    RatioBound(af - pf, pf);
    var ratio := (actual - predicted) / predicted;
    assert -5.0 < ratio * 100.0 < 5.0;
  }

  /** The generated accuracy is above 95: the actual and the predicted moves
      both lie in [-1%, 3%), so they are less than 4 points apart. */
  lemma MockAccuracyAbove95(t: PredictionType, d: RecordDraws)
    requires IsRecordDraws(d)
    ensures 95.0 < MockAccuracy(t, d) <= 100.0
  {
    ChangeFactorRange(d.predicted);
    ChangeFactorRange(d.actual);
    AccuracyOfMoves(BaseValue(t, d.base), ChangeFactor(d.predicted), ChangeFactor(d.actual),
                    MockPredicted(t, d), MockActual(t, d));
  }

  // ---------------------------------------------------------------------
  // Statistics
  // ---------------------------------------------------------------------

  /** The statistics card: mean accuracy, correct ups, correct downs, total. */
  datatype AccuracyStats = AccuracyStats(avg: real, positive: nat, negative: nat, total: nat)

  function HasAccuracy(p: Prediction): bool { p.accuracy.Some? }
  function ActualUp(p: Prediction): bool { p.actualValue.GetOr(0.0) >= p.currentValue }
  function ActualDown(p: Prediction): bool { p.actualValue.GetOr(0.0) < p.currentValue }

  function AccuracySum(ps: seq<Prediction>): real
    decreases |ps|
  {
    if ps == [] then 0.0 else AccuracySum(ps[..|ps| - 1]) + ps[|ps| - 1].accuracy.GetOr(0.0)
  }

  /** calculateAccuracy. */
  function CalculateAccuracy(ps: seq<Prediction>): (s: AccuracyStats)
    ensures s.total == |Seqs.Filter(ps, HasAccuracy)|
    ensures s.total == 0 ==> s == AccuracyStats(0.0, 0, 0, 0)
    ensures s.total > 0 ==> s.avg * s.total as real == AccuracySum(Seqs.Filter(ps, HasAccuracy))
    ensures s.positive == |Seqs.Filter(Seqs.Filter(ps, HasAccuracy), ActualUp)|
    ensures s.negative == |Seqs.Filter(Seqs.Filter(ps, HasAccuracy), ActualDown)|
  {
    if |ps| == 0 then AccuracyStats(0.0, 0, 0, 0)
    else
      var withAccuracy := Seqs.Filter(ps, HasAccuracy);
      if |withAccuracy| == 0 then AccuracyStats(0.0, 0, 0, 0)
      else
        AccuracyStats(
          AccuracySum(withAccuracy) / |withAccuracy| as real,
          |Seqs.Filter(withAccuracy, ActualUp)|,
          |Seqs.Filter(withAccuracy, ActualDown)|,
          |withAccuracy|)
  }

  /** Every verified record goes up or down, never both: positive + negative
      == total. */
  lemma UpPlusDownIsTotal(ps: seq<Prediction>)
    ensures var s := CalculateAccuracy(ps); s.positive + s.negative == s.total
  {
    var w := Seqs.Filter(ps, HasAccuracy);
    if |ps| != 0 && |w| != 0 {
      Seqs.FilterSplit(w, ActualUp, ActualDown);
    }
  }

  /** The displayed direction rate: (positive + negative) / total * 100, or 0. */
  function DirectionRate(s: AccuracyStats): (rate: real)
    ensures s.total == 0 ==> rate == 0.0
  {
    if s.total > 0 then (s.positive + s.negative) as real / s.total as real * 100.0 else 0.0
  }

  lemma DirectionRateOfSplit(s: AccuracyStats)
    requires s.positive + s.negative == s.total > 0
    ensures DirectionRate(s) == 100.0
  {
    var n := s.total as real;
    assert (s.positive + s.negative) as real == n;
    assert n / n == 1.0;
  }

  /** So the direction rate is 100% whenever anything is verified. */
  lemma DirectionRateIsFull(ps: seq<Prediction>)
    requires CalculateAccuracy(ps).total > 0
    ensures DirectionRate(CalculateAccuracy(ps)) == 100.0
  {
    UpPlusDownIsTotal(ps);
    DirectionRateOfSplit(CalculateAccuracy(ps));
  }

  lemma DivideBound(a: real, n: real, c: real)
    requires n > 0.0 && a <= c * n
    ensures a / n <= c
  {
    assert a / n * n == a;
  }

  /** On records whose accuracies are at most 100, so is the mean. */
  lemma AverageAtMost100(ps: seq<Prediction>)
    requires forall p :: p in ps && p.accuracy.Some? ==> p.accuracy.value <= 100.0
    ensures CalculateAccuracy(ps).avg <= 100.0
  {
    var w := Seqs.Filter(ps, HasAccuracy);
    if |ps| != 0 && |w| != 0 {
      assert forall p :: p in w ==> p.accuracy.Some? && p.accuracy.value <= 100.0;
      AccuracySumAtMost(w, 100.0);
      DivideBound(AccuracySum(w), |w| as real, 100.0);
    }
  }

  lemma {:induction false} AccuracySumAbove(ps: seq<Prediction>, lo: real)
    requires forall p :: p in ps ==> p.accuracy.Some? && lo < p.accuracy.value
    ensures ps != [] ==> lo * |ps| as real < AccuracySum(ps)
    decreases |ps|
  {
    if ps != [] {
      var init := ps[..|ps| - 1];
      assert forall p :: p in init ==> p in ps;
      AccuracySumAbove(init, lo);
      assert ps[|ps| - 1] in ps;
      assert lo * |ps| as real == lo * |init| as real + lo;
    }
  }

  /** Dividing by a positive count keeps a strict lower and a weak upper
      bound: lo·n < a·n <= hi·n gives lo < a <= hi. */
  lemma CancelCount(a: real, n: real, lo: real, hi: real)
    requires n > 0.0 && lo * n < a * n <= hi * n
    ensures lo < a <= hi
  {
    assert (a - lo) * n > 0.0;
    assert (hi - a) * n >= 0.0;
  }

  /** The mean accuracy lies between the smallest and the largest accuracy
      of the verified records. */
  lemma AverageBetween(ps: seq<Prediction>, lo: real, hi: real)
    requires forall p :: p in ps && p.accuracy.Some? ==> lo < p.accuracy.value <= hi
    ensures CalculateAccuracy(ps).total > 0 ==> lo < CalculateAccuracy(ps).avg <= hi
  {
    var w := Seqs.Filter(ps, HasAccuracy);
    if CalculateAccuracy(ps).total > 0 {
      assert CalculateAccuracy(ps).avg == AccuracySum(w) / |w| as real;
      MeanBetween(w, lo, hi);
    }
  }

  /** The mean of a non-empty list of accuracies in (lo, hi] lies in (lo, hi]. */
  lemma MeanBetween(w: seq<Prediction>, lo: real, hi: real)
    requires w != []
    requires forall p :: p in w ==> p.accuracy.Some? && lo < p.accuracy.value <= hi
    ensures lo < AccuracySum(w) / |w| as real <= hi
  {
    AccuracySumAbove(w, lo);
    AccuracySumAtMost(w, hi);
    DivideBetween(AccuracySum(w), |w| as real, lo, hi);
  }

  lemma DivideBetween(sum: real, n: real, lo: real, hi: real)
    requires n > 0.0 && lo * n < sum <= hi * n
    ensures lo < sum / n <= hi
  {
    var a := sum / n;
    assert a * n == sum;
    CancelCount(a, n, lo, hi);
  }

  lemma {:induction false} AccuracySumAtMost(ps: seq<Prediction>, hi: real)
    requires forall p :: p in ps ==> p.accuracy.Some? && p.accuracy.value <= hi
    ensures AccuracySum(ps) <= hi * |ps| as real
    decreases |ps|
  {
    if ps != [] {
      var init := ps[..|ps| - 1];
      assert forall p :: p in init ==> p in ps;
      AccuracySumAtMost(init, hi);
      assert ps[|ps| - 1] in ps;
      assert hi * |ps| as real == hi * |init| as real + hi;
    }
  }

  /** On a generated list the verified records are all but the oldest. */
  lemma MockVerifiedAreTail(t: PredictionType, count: nat, now: int, draws: seq<RecordDraws>, ps: seq<Prediction>)
    requires |draws| == count && |ps| == count
    requires forall k :: 0 <= k < count ==> IsRecordDraws(draws[k])
    requires forall k :: 0 <= k < count ==> ps[k] == MockRecord(t, count, now, k, draws[k])
    ensures count > 0 ==> Seqs.Filter(ps, HasAccuracy) == ps[1..]
  {
    if count > 0 {
      MockRecordShape(t, count, now, 0, draws[0]);
      forall i | 1 <= i < |ps| ensures HasAccuracy(ps[i]) {
        MockRecordShape(t, count, now, i, draws[i]);
      }
      VerifiedTail(ps);
    }
  }

  /** A list whose first record alone is unverified keeps all the others. */
  lemma VerifiedTail(ps: seq<Prediction>)
    requires ps != [] && !HasAccuracy(ps[0])
    requires forall i :: 1 <= i < |ps| ==> HasAccuracy(ps[i])
    ensures Seqs.Filter(ps, HasAccuracy) == ps[1..]
  {
    var rest := ps[1..];
    assert forall i :: 0 <= i < |rest| ==> HasAccuracy(rest[i]) by {
      forall i | 0 <= i < |rest| ensures HasAccuracy(rest[i]) {
        assert rest[i] == ps[i + 1];
      }
    }
    Seqs.FilterAll(rest, HasAccuracy);
  }

  /** Every generated accuracy lies in (95, 100]. */
  lemma MockAccuraciesAbove95(t: PredictionType, count: nat, now: int, draws: seq<RecordDraws>, ps: seq<Prediction>)
    requires |draws| == count && |ps| == count
    requires forall k :: 0 <= k < count ==> IsRecordDraws(draws[k])
    requires forall k :: 0 <= k < count ==> ps[k] == MockRecord(t, count, now, k, draws[k])
    ensures forall p :: p in ps && p.accuracy.Some? ==> 95.0 < p.accuracy.value <= 100.0
  {
    forall p | p in ps && p.accuracy.Some?
      ensures 95.0 < p.accuracy.value <= 100.0
    {
      var k :| 0 <= k < |ps| && ps[k] == p;
      MockRecordShape(t, count, now, k, draws[k]);
      MockAccuracyAbove95(t, draws[k]);
    }
  }

  /** On a generated list every record but the oldest is verified, and the
      mean accuracy of those lies in (95, 100]. */
  lemma MockStats(t: PredictionType, count: nat, now: int, draws: seq<RecordDraws>, ps: seq<Prediction>)
    requires |draws| == count && |ps| == count
    requires forall k :: 0 <= k < count ==> IsRecordDraws(draws[k])
    requires forall k :: 0 <= k < count ==> ps[k] == MockRecord(t, count, now, k, draws[k])
    ensures count > 0 ==> CalculateAccuracy(ps).total == count - 1
    ensures count > 1 ==> 95.0 < CalculateAccuracy(ps).avg <= 100.0
  {
    MockVerifiedAreTail(t, count, now, draws, ps);
    MockAccuraciesAbove95(t, count, now, draws, ps);
    AverageBetween(ps, 95.0, 100.0);
  }

  /** One point of the accuracy chart (the date label is the timestamp). */
  datatype ChartPoint = ChartPoint(timestamp: int, actual: Option<real>, predicted: real, accuracy: Option<real>)

  function ToChartPoint(p: Prediction): ChartPoint {
    ChartPoint(p.timestamp, p.actualValue, p.predictedValue, p.accuracy)
  }

  /** chartData: the verified records as chart points, in reverse order. */
  function ChartData(ps: seq<Prediction>): (c: seq<ChartPoint>)
    ensures var w := Seqs.Filter(ps, HasAccuracy);
      |c| == |w| && forall j :: 0 <= j < |c| ==> c[j] == ToChartPoint(w[|w| - 1 - j])
  {
    var w := Seqs.Filter(ps, HasAccuracy);
    Seqs.Reverse(seq(|w|, i requires 0 <= i < |w| => ToChartPoint(w[i])))
  }

  /** The chart has one point per verified record, so as many as the total. */
  lemma ChartMatchesTotal(ps: seq<Prediction>)
    ensures |ChartData(ps)| == CalculateAccuracy(ps).total
    ensures forall j :: 0 <= j < |ChartData(ps)| ==> ChartData(ps)[j].accuracy.Some?
  {
    var w := Seqs.Filter(ps, HasAccuracy);
    var c := ChartData(ps);
    forall j | 0 <= j < |c| ensures c[j].accuracy.Some? {
      assert w[|w| - 1 - j] in w;
    }
  }

  /** The log's check mark: the actual value exists and moved the same way
      as the prediction (both up, or both not up). */
  function IsDirectionCorrect(p: Prediction): (b: bool)
    ensures b <==> (p.actualValue.Some? &&
      ((p.predictedValue > p.currentValue) <==> (p.actualValue.value > p.currentValue)))
  {
    var isPredictionUp := p.predictedValue > p.currentValue;
    var isActualUp := p.actualValue.Some? && p.actualValue.value > p.currentValue;
    p.actualValue.Some? && ((isPredictionUp && isActualUp) || (!isPredictionUp && !isActualUp))
  }

  /** The log shows the first ten records. */
  function LogRows(ps: seq<Prediction>): (rows: seq<Prediction>)
    ensures |rows| <= 10 && |rows| <= |ps|
    ensures forall i :: 0 <= i < |rows| ==> rows[i] == ps[i]
    ensures |ps| <= 10 ==> rows == ps
  {
    Seqs.Take(ps, 10)
  }

  // ---------------------------------------------------------------------
  // The dialog's state
  // ---------------------------------------------------------------------

  class Dialog {
    var predictions: seq<Prediction>
    var predictionType: PredictionType
    var isLoading: bool
    var open: bool

    constructor ()
      ensures predictions == [] && predictionType == NASDAQ && !isLoading && !open
    {
      predictions := [];
      predictionType := NASDAQ;
      isLoading := false;
      open := false;
    }

    /** loadPredictions: thirty days of records for type t, dated back from
        the fixed base date `now`. */
    method LoadPredictions(t: PredictionType, now: int, draws: seq<RecordDraws>)
      requires |draws| == 30 && forall k :: 0 <= k < 30 ==> IsRecordDraws(draws[k])
      modifies this`predictions, this`isLoading
      ensures |predictions| == 30 && !isLoading
      ensures forall k :: 0 <= k < 30 ==> predictions[k] == MockRecord(t, 30, now, k, draws[k])
    {
      isLoading := true;
      predictions := GenerateMockPredictions(t, 30, now, draws);
      isLoading := false;
    }

    /** Switching the market tab reloads for the new market. */
    method HandleTypeChange(t: PredictionType, now: int, draws: seq<RecordDraws>)
      requires |draws| == 30 && forall k :: 0 <= k < 30 ==> IsRecordDraws(draws[k])
      modifies this`predictionType, this`predictions, this`isLoading
      ensures predictionType == t && |predictions| == 30 && !isLoading
      ensures forall k :: 0 <= k < 30 ==> predictions[k] == MockRecord(t, 30, now, k, draws[k])
    {
      predictionType := t;
      LoadPredictions(t, now, draws);
    }

    /** handleOpen: opening loads data only when nothing is loaded yet;
        closing, or reopening with data, keeps the records. */
    method HandleOpen(isOpen: bool, now: int, draws: seq<RecordDraws>)
      requires |draws| == 30 && forall k :: 0 <= k < 30 ==> IsRecordDraws(draws[k])
      modifies this`open, this`predictions, this`isLoading
      ensures open == isOpen
      ensures isOpen && old(predictions) == [] ==>
        |predictions| == 30 &&
        forall k :: 0 <= k < 30 ==> predictions[k] == MockRecord(predictionType, 30, now, k, draws[k])
      ensures !(isOpen && old(predictions) == []) ==>
        predictions == old(predictions) && isLoading == old(isLoading)
    {
      open := isOpen;
      if isOpen && |predictions| == 0 {
        LoadPredictions(predictionType, now, draws);
      }
    }

    function Stats(): AccuracyStats
      reads this
    {
      CalculateAccuracy(predictions)
    }
  }
}
