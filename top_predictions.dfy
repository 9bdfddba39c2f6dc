/** The "top predictions" card: five assets with a price, a daily change and
    a prediction, all nudged by a small random amount every five seconds.
    The update is one `map` over the list; each of its four Math.random()
    calls per asset is a parameter. */
module TopPredictions {
  import opened Numbers

  datatype Direction = Up | Down

  datatype Prediction = Prediction(direction: Direction, target: real, confidence: int, timeframe: string)

  datatype Asset = Asset(symbol: string, name: string, price: real, change: real, prediction: Prediction)

  /** The four draws one asset consumes on a tick, in call order. */
  datatype Draws = Draws(price: real, change: real, target: real, confidence: real)

  predicate IsDraws(d: Draws) {
    IsDraw(d.price) && IsDraw(d.change) && IsDraw(d.target) && IsDraw(d.confidence)
  }

  const MinConfidence: int := 60
  const MaxConfidence: int := 99

  /** The list the card starts from. */
  const InitialAssets: seq<Asset> := [
    Asset("NVDA", "NVIDIA Corp.", 437.53, 5.15, Prediction(Up, 480.0, 92, "1 month")),
    Asset("MSFT", "Microsoft Corp.", 345.24, 2.39, Prediction(Up, 370.0, 87, "2 months")),
    Asset("AAPL", "Apple Inc.", 187.3, 2.62, Prediction(Up, 200.0, 78, "3 months")),
    Asset("TSLA", "Tesla Inc.", 237.49, -1.21, Prediction(Down, 210.0, 65, "1 month")),
    Asset("AMZN", "Amazon.com Inc.", 131.27, 2.76, Prediction(Up, 145.0, 83, "2 months"))
  ]

  /** What the card keeps true of each asset: a confidence in [60, 99] and
      positive prices. */
  predicate ValidAsset(a: Asset) {
    MinConfidence <= a.prediction.confidence <= MaxConfidence
    && a.price > 0.0 && a.prediction.target > 0.0
  }

  predicate ValidAssets(assets: seq<Asset>) {
    forall i :: 0 <= i < |assets| ==> ValidAsset(assets[i])
  }

  // ---------------------------------------------------------------------
  // One asset's update
  // ---------------------------------------------------------------------

  /** The relative price move: -0.5% up to (not including) +0.5%. */
  function PriceMove(r: real): (m: real)
    requires IsDraw(r)
    ensures -0.005 <= m < 0.005
  {
    r * 0.01 - 0.005
  }

  /** The relative target move: -0.2% up to (not including) +0.2%. */
  function TargetMove(r: real): (m: real)
    requires IsDraw(r)
    ensures -0.002 <= m < 0.002
  {
    r * 0.004 - 0.002
  }

  /** The next price: the old one plus the move applied to it. */
  function NextPrice(price: real, r: real): real
    requires IsDraw(r)
  {
    price + price * PriceMove(r)
  }

  /** The next target: the old one scaled by one plus the move. */
  function NextTarget(target: real, r: real): real
    requires IsDraw(r)
  {
    target * (1.0 + TargetMove(r))
  }

  /** The next change percentage, rounded to cents. */
  function NextChange(change: real, r: real): (c: real)
    requires IsDraw(r)
    ensures change - 0.105 <= c < change + 0.105
  {
    Round2(change + (r * 0.2 - 0.1))
  }

  /** The lower bound is reached: from -0.025 the draw 0 gives -0.125,
      which toFixed(2) rounds down to -0.13, exactly 0.105 lower. */
  lemma NextChangeReachesLowerBound()
    ensures NextChange(-0.025, 0.0) == -0.025 - 0.105
  {
    Round2Ties();
  }

  /** The next confidence: rounded after a move in [-1, 1), then clamped. */
  function NextConfidence(confidence: int, r: real): (c: int)
    requires IsDraw(r)
    ensures MinConfidence <= c <= MaxConfidence
    ensures MinConfidence <= confidence <= MaxConfidence ==> confidence - 1 <= c <= confidence + 1
  {
    var n := Round(confidence as real + (r * 2.0 - 1.0));
    RoundWithin(confidence as real + (r * 2.0 - 1.0), confidence - 1, confidence + 1);
    Min(MaxConfidence, Max(MinConfidence, n))
  }

  function UpdateAsset(a: Asset, d: Draws): (b: Asset)
    requires IsDraws(d)
    ensures b.symbol == a.symbol && b.name == a.name
    ensures b.prediction.direction == a.prediction.direction
    ensures b.prediction.timeframe == a.prediction.timeframe
    ensures MinConfidence <= b.prediction.confidence <= MaxConfidence
  {
    Asset(a.symbol, a.name, NextPrice(a.price, d.price), NextChange(a.change, d.change),
      Prediction(a.prediction.direction, NextTarget(a.prediction.target, d.target),
        NextConfidence(a.prediction.confidence, d.confidence), a.prediction.timeframe))
  }

  /** x scaled by a factor in [lo, hi) lies in [lo·x, hi·x) for positive x. */
  lemma ScaleBetween(x: real, f: real, lo: real, hi: real)
    requires x > 0.0 && lo <= f < hi
    ensures lo * x <= x * f < hi * x
  {
    assert x * (f - lo) >= 0.0;
    assert x * (hi - f) > 0.0;
  }

  /** The price moves by less than half a percent either way. */
  lemma NextPriceBounds(price: real, r: real)
    requires price > 0.0 && IsDraw(r)
    ensures 0.995 * price <= NextPrice(price, r) < 1.005 * price
  {
    var m := PriceMove(r);
    assert NextPrice(price, r) == price * (1.0 + m);
    ScaleBetween(price, 1.0 + m, 0.995, 1.005);
  }

  /** The target moves by less than a fifth of a percent either way. */
  lemma NextTargetBounds(target: real, r: real)
    requires target > 0.0 && IsDraw(r)
    ensures 0.998 * target <= NextTarget(target, r) < 1.002 * target
  {
    ScaleBetween(target, 1.0 + TargetMove(r), 0.998, 1.002);
  }

  /** A valid asset stays valid, with its price and target in their bands. */
  lemma UpdateAssetBounds(a: Asset, d: Draws)
    requires ValidAsset(a) && IsDraws(d)
    ensures ValidAsset(UpdateAsset(a, d))
    ensures 0.995 * a.price <= UpdateAsset(a, d).price < 1.005 * a.price
    ensures 0.998 * a.prediction.target <= UpdateAsset(a, d).prediction.target < 1.002 * a.prediction.target
  {
    NextPriceBounds(a.price, d.price);
    NextTargetBounds(a.prediction.target, d.target);
  }

  // ---------------------------------------------------------------------
  // The interval tick
  // ---------------------------------------------------------------------

  /** The list after one tick: every asset updated with its own draws. */
  function Update(assets: seq<Asset>, draws: seq<Draws>): (r: seq<Asset>)
    requires |draws| == |assets|
    requires forall i :: 0 <= i < |draws| ==> IsDraws(draws[i])
    ensures |r| == |assets|
    ensures forall i :: 0 <= i < |r| ==> r[i].symbol == assets[i].symbol && r[i].name == assets[i].name
    ensures forall i :: 0 <= i < |r| ==>
      r[i].prediction.direction == assets[i].prediction.direction
      && r[i].prediction.timeframe == assets[i].prediction.timeframe
    ensures forall i :: 0 <= i < |r| ==> MinConfidence <= r[i].prediction.confidence <= MaxConfidence
  {
    seq(|assets|, i requires 0 <= i < |assets| => UpdateAsset(assets[i], draws[i]))
  }

  /** The starting list already satisfies the invariant. */
  lemma InitialValid()
    ensures ValidAssets(InitialAssets)
    ensures |InitialAssets| == 5
  {
    assert ValidAsset(InitialAssets[0]);
    assert ValidAsset(InitialAssets[1]);
    assert ValidAsset(InitialAssets[2]);
    assert ValidAsset(InitialAssets[3]);
    assert ValidAsset(InitialAssets[4]);
  }

  /** A tick keeps the invariant and moves each price and target by less
      than its band. */
  lemma UpdatePreservesValid(assets: seq<Asset>, draws: seq<Draws>)
    requires ValidAssets(assets)
    requires |draws| == |assets|
    requires forall i :: 0 <= i < |draws| ==> IsDraws(draws[i])
    ensures ValidAssets(Update(assets, draws))
    ensures forall i :: 0 <= i < |assets| ==>
      0.995 * assets[i].price <= Update(assets, draws)[i].price < 1.005 * assets[i].price
    ensures forall i :: 0 <= i < |assets| ==>
      0.998 * assets[i].prediction.target <= Update(assets, draws)[i].prediction.target < 1.002 * assets[i].prediction.target
  {
    var r := Update(assets, draws);
    forall i | 0 <= i < |assets|
      ensures ValidAsset(r[i])
      ensures 0.995 * assets[i].price <= r[i].price < 1.005 * assets[i].price
      ensures 0.998 * assets[i].prediction.target <= r[i].prediction.target < 1.002 * assets[i].prediction.target
    {
      assert r[i] == UpdateAsset(assets[i], draws[i]);
      UpdateAssetBounds(assets[i], draws[i]);
    }
  }

  /** The list after n ticks, each with its own draws. */
  function Ticks(assets: seq<Asset>, rounds: seq<seq<Draws>>): (r: seq<Asset>)
    requires forall k :: 0 <= k < |rounds| ==> |rounds[k]| == |assets|
    requires forall k, i :: 0 <= k < |rounds| && 0 <= i < |rounds[k]| ==> IsDraws(rounds[k][i])
    ensures |r| == |assets|
    decreases |rounds|
  {
    if rounds == [] then assets
    else Ticks(Update(assets, rounds[0]), rounds[1..])
  }

  /** However many ticks have run, every card shows a confidence in [60, 99]. */
  lemma {:induction false} TicksKeepValid(assets: seq<Asset>, rounds: seq<seq<Draws>>)
    requires ValidAssets(assets)
    requires forall k :: 0 <= k < |rounds| ==> |rounds[k]| == |assets|
    requires forall k, i :: 0 <= k < |rounds| && 0 <= i < |rounds[k]| ==> IsDraws(rounds[k][i])
    ensures ValidAssets(Ticks(assets, rounds))
    decreases |rounds|
  {
    if rounds != [] {
      assert forall i :: 0 <= i < |rounds[0]| ==> IsDraws(rounds[0][i]);
      UpdatePreservesValid(assets, rounds[0]);
      var next := Update(assets, rounds[0]);
      var rest := rounds[1..];
      assert forall k :: 0 <= k < |rest| ==> |rest[k]| == |next| by {
        forall k | 0 <= k < |rest| ensures |rest[k]| == |next| {
          assert rest[k] == rounds[k + 1];
        }
      }
      assert forall k, i :: 0 <= k < |rest| && 0 <= i < |rest[k]| ==> IsDraws(rest[k][i]) by {
        forall k, i | 0 <= k < |rest| && 0 <= i < |rest[k]| ensures IsDraws(rest[k][i]) {
          assert rest[k] == rounds[k + 1];
        }
      }
      TicksKeepValid(next, rest);
    }
  }

  /** Starting from the initial list, the invariant holds after every tick. */
  lemma AlwaysValid(rounds: seq<seq<Draws>>)
    requires forall k :: 0 <= k < |rounds| ==> |rounds[k]| == |InitialAssets|
    requires forall k, i :: 0 <= k < |rounds| && 0 <= i < |rounds[k]| ==> IsDraws(rounds[k][i])
    ensures ValidAssets(Ticks(InitialAssets, rounds))
  {
    InitialValid();
    TicksKeepValid(InitialAssets, rounds);
  }
}
