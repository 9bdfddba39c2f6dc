/** The proof page: it fetches the API's predictions, checks the reply
    (HTTP status, JSON content type, `success` flag, a predictions list),
    computes the total / correct / pending counts and the accuracy rate,
    falls back to three sample predictions when anything fails, and shows
    the list through outcome tabs. The network is a parameter: the reply of
    one fetch, or None when the request itself failed. */
module ProofPage {
  import opened Options
  import opened Numbers
  import opened Text
  import Seqs
  import opened ProofApi

  /** An accuracy rate as JavaScript computes it: a rounded percentage, or
      NaN / Infinity when the division by the number of verified predictions
      divides by zero. */
  datatype Rate = Percent(value: int) | NaN | Infinite

  datatype Metrics = Metrics(total: nat, correct: nat, accuracy: Rate, pending: nat)

  /** The parsed JSON body the page reads. */
  datatype Body = Body(success: bool, predictions: Option<seq<Formatted>>, error: Option<string>)

  /** An HTTP reply; `body` is None when it does not parse as JSON. */
  datatype Reply = Reply(ok: bool, status: int, contentType: Option<string>, body: Option<Body>)

  const FallbackMessage := "Failed to load predictions. Using sample data instead."

  // ---------------------------------------------------------------------
  // Outcomes and counts
  // ---------------------------------------------------------------------

  function IsPending(p: Formatted): bool { p.outcome == Some("pending") }
  function IsCorrect(p: Formatted): bool { p.outcome == Some("correct") }
  function IsIncorrect(p: Formatted): bool { p.outcome == Some("incorrect") }
  /** Anything not pending is verified, including a null outcome. */
  function IsVerified(p: Formatted): bool { !IsPending(p) }

  /** `Math.round((correct / (total - pending)) * 100)`, or 0 for an empty list. */
  function AccuracyRate(total: nat, correct: nat, pending: nat): (r: Rate)
    requires pending <= total
    ensures total == 0 ==> r == Percent(0)
    ensures total > 0 && total == pending ==> (r == NaN <==> correct == 0) && (r == Infinite <==> correct > 0)
    ensures total > pending ==> r.Percent?
  {
    if total == 0 then Percent(0)
    else if total == pending then (if correct == 0 then NaN else Infinite)
    else Percent(Round(correct as real / (total - pending) as real * 100.0))
  }

  /** The metrics card for a list of predictions. */
  function ComputeMetrics(ps: seq<Formatted>): (m: Metrics)
    ensures m.total == |ps|
    ensures m.correct == |Seqs.Filter(ps, IsCorrect)| && m.pending == |Seqs.Filter(ps, IsPending)|
    ensures m.correct + m.pending <= m.total
  {
    var correct := |Seqs.Filter(ps, IsCorrect)|;
    var pending := |Seqs.Filter(ps, IsPending)|;
    Seqs.FilterSplit(ps, IsPending, IsVerified);
    Seqs.FilterImplies(ps, IsCorrect, IsVerified);
    Metrics(|ps|, correct, AccuracyRate(|ps|, correct, pending), pending)
  }

  /** A rate of c out of d verified predictions, for c <= d, is within 0..100. */
  lemma PercentBound(c: nat, d: nat)
    requires 0 < d && c <= d
    ensures 0 <= Round(c as real / d as real * 100.0) <= 100
  {
    var q := c as real / d as real;
    assert q * d as real == c as real;
    assert 0.0 <= q <= 1.0;
    RoundWithin(q * 100.0, 0, 100);
  }

  /** The displayed accuracy is a percentage between 0 and 100 whenever some
      prediction is verified, and is never Infinity. */
  lemma AccuracyWithinBounds(ps: seq<Formatted>)
    ensures ComputeMetrics(ps).accuracy != Infinite
    ensures ComputeMetrics(ps).total > ComputeMetrics(ps).pending ==>
      ComputeMetrics(ps).accuracy.Percent? && 0 <= ComputeMetrics(ps).accuracy.value <= 100
  {
    var m := ComputeMetrics(ps);
    if m.total > m.pending {
      PercentBound(m.correct, m.total - m.pending);
    }
  }

  /** A non-empty list with every prediction pending shows NaN. */
  lemma AllPendingIsNaN(ps: seq<Formatted>)
    requires ps != [] && forall i :: 0 <= i < |ps| ==> IsPending(ps[i])
    ensures ComputeMetrics(ps).accuracy == NaN
  {
    Seqs.FilterAll(ps, IsPending);
  }

  // ---------------------------------------------------------------------
  // The fetch and its fallback
  // ---------------------------------------------------------------------

  /** The predictions of a reply the page accepts, or None when one of its
      checks throws: a failed request, a non-OK status, a content type that
      is missing or not JSON, a body that does not parse, `success` false, or
      no predictions list to count. */
  function Accepted(reply: Option<Reply>): (r: Option<seq<Formatted>>)
    ensures r.Some? <==>
      reply.Some? && reply.value.ok && reply.value.contentType.Some?
      && Contains(reply.value.contentType.value, "application/json")
      && reply.value.body.Some? && reply.value.body.value.success
      && reply.value.body.value.predictions.Some?
    ensures r.Some? ==> r.value == reply.value.body.value.predictions.value
  {
    if reply.None? then None
    else
      var rp := reply.value;
      if !rp.ok then None
      else if rp.contentType.None? || !Contains(rp.contentType.value, "application/json") then None
      else if rp.body.None? || !rp.body.value.success then None
      else rp.body.value.predictions
  }

  /** The three sample predictions, stamped one, two and three hours before
      `loadTime`. The list is a module-level constant, so `loadTime` is the
      clock reading when the module was loaded, not when a fetch fails: every
      failed fetch shows the same timestamps. */
  function Fallback(loadTime: int): (ps: seq<Formatted>)
    ensures |ps| == 3
  {
    [
      Formatted("1", "1", "Bitcoin", "BTC", "price_up", "$68,500", 85,
                loadTime - 3600000, Some("correct"), Some("$68,750"), Some(loadTime)),
      Formatted("2", "2", "Ethereum", "ETH", "price_down", "$3,200", 72,
                loadTime - 7200000, Some("pending"), None, None),
      Formatted("3", "3", "Apple Inc.", "AAPL", "price_up", "$182.50", 68,
                loadTime - 10800000, Some("incorrect"), Some("$180.25"), Some(loadTime))
    ]
  }

  /** The sample data shows 3 predictions, 1 correct, 1 pending, 50% accuracy. */
  lemma FallbackMetrics(loadTime: int)
    ensures ComputeMetrics(Fallback(loadTime)) == Metrics(3, 1, Percent(50), 1)
  {
    var ps := Fallback(loadTime);
    assert ps[1..] == [ps[1], ps[2]];
    assert ps[2..] == [ps[2]];
    assert Seqs.Filter(ps[2..], IsCorrect) == [];
    assert Seqs.Filter(ps[1..], IsCorrect) == [];
    assert Seqs.Filter(ps, IsCorrect) == [ps[0]];
    assert Seqs.Filter(ps[2..], IsPending) == [];
    assert Seqs.Filter(ps[1..], IsPending) == [ps[1]];
    assert Seqs.Filter(ps, IsPending) == [ps[1]];
    assert 1 as real / 2 as real * 100.0 == 50.0;
    RoundOfInt(50);
  }

  // ---------------------------------------------------------------------
  // Tabs and labels
  // ---------------------------------------------------------------------

  /** Whether the active tab shows a prediction; an unknown tab shows all. */
  function OnTab(tab: string, p: Formatted): bool {
    if tab == "all" then true
    else if tab == "pending" then IsPending(p)
    else if tab == "verified" then IsVerified(p)
    else if tab == "correct" then IsCorrect(p)
    else if tab == "incorrect" then IsIncorrect(p)
    else true
  }

  /** filteredPredictions. */
  function TabFilter(ps: seq<Formatted>, tab: string): (r: seq<Formatted>)
    ensures forall p :: p in r <==> p in ps && OnTab(tab, p)
  {
    Seqs.Filter(ps, p => OnTab(tab, p))
  }

  /** "pending" and "verified" split the list: every prediction is on exactly
      one of them, so their sizes add up to the whole. */
  lemma PendingVerifiedPartition(ps: seq<Formatted>)
    ensures |TabFilter(ps, "pending")| + |TabFilter(ps, "verified")| == |ps|
    ensures forall p :: p in ps ==> (p in TabFilter(ps, "pending") <==> p !in TabFilter(ps, "verified"))
  {
    Seqs.FilterSplit(ps, p => OnTab("pending", p), p => OnTab("verified", p));
  }

  /** The "all" tab, and any tab the page does not know, show the whole list. */
  lemma AllTabShowsEverything(ps: seq<Formatted>, tab: string)
    requires tab !in {"pending", "verified", "correct", "incorrect"}
    ensures TabFilter(ps, tab) == ps
  {
    Seqs.FilterAll(ps, p => OnTab(tab, p));
  }

  /** The status badge. */
  function StatusLabel(p: Formatted): (s: string)
    ensures s == "Verified" <==> OnTab("verified", p)
    ensures s == "Pending" <==> OnTab("pending", p)
  {
    if IsPending(p) then "Pending" else "Verified"
  }

  /** The outcome cell: anything neither pending nor correct, a null outcome
      included, reads "Incorrect". */
  function OutcomeLabel(p: Formatted): (s: string)
    ensures s == "Pending" <==> IsPending(p)
    ensures s == "Correct" <==> IsCorrect(p)
    ensures s == "Incorrect" <==> !IsPending(p) && !IsCorrect(p)
  {
    if IsPending(p) then "Pending" else if IsCorrect(p) then "Correct" else "Incorrect"
  }

  /** A prediction with a null outcome is verified and shown as "Incorrect",
      but the "incorrect" tab does not list it. */
  lemma NullOutcomeShownIncorrect(p: Formatted)
    requires p.outcome == None
    ensures OutcomeLabel(p) == "Incorrect" && StatusLabel(p) == "Verified"
    ensures !OnTab("incorrect", p)
  {
  }

  // ---------------------------------------------------------------------
  // The page state
  // ---------------------------------------------------------------------

  class Page {
    var predictions: seq<Formatted>
    var loading: bool
    var error: Option<string>
    var activeTab: string
    var metrics: Metrics

    constructor ()
      ensures predictions == [] && loading && error == None && activeTab == "all"
      ensures metrics == Metrics(0, 0, Percent(0), 0)
    {
      predictions := [];
      loading := true;
      error := None;
      activeTab := "all";
      metrics := Metrics(0, 0, Percent(0), 0);
    }

    /** fetchPredictions with the reply of one request: the accepted list and
        its metrics, or the fallback list, its metrics and the error banner.
        Loading ends either way. `loadTime` is the module-load time the
        fallback list was stamped with. */
    method FetchPredictions(reply: Option<Reply>, loadTime: int)
      modifies this`predictions, this`loading, this`error, this`metrics
      ensures !loading
      ensures Accepted(reply).Some? ==>
        predictions == Accepted(reply).value && error == None && metrics == ComputeMetrics(predictions)
      ensures Accepted(reply).None? ==>
        predictions == Fallback(loadTime) && error == Some(FallbackMessage) && metrics == ComputeMetrics(predictions)
    {
      loading := true;
      error := None;
      var accepted := Accepted(reply);
      if accepted.Some? {
        predictions := accepted.value;
        metrics := ComputeMetrics(accepted.value);
      } else {
        error := Some(FallbackMessage);
        predictions := Fallback(loadTime);
        metrics := ComputeMetrics(predictions);
      }
      loading := false;
    }

    method SetActiveTab(tab: string)
      modifies this`activeTab
      ensures activeTab == tab
    {
      activeTab := tab;
    }

    /** The rows the table shows. */
    function Shown(): (r: seq<Formatted>)
      reads this
      ensures forall p :: p in r <==> p in predictions && OnTab(activeTab, p)
    {
      TabFilter(predictions, activeTab)
    }
  }
}
