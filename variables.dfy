/** The prediction-variables panel: a list of weighted market factors the
    user switches on and off, an "all"/category filter, the averaged net
    impact of the enabled factors, and the unsaved-changes flag. The state
    is replaced wholesale by each handler, so every handler is a function
    from panel to panel. */
module Variables {
  import opened Numbers
  import Seqs

  /** One factor: `impact` from -10 (strongly negative) to 10, `weight` the
      0..100 share of the impact that counts. */
  datatype Variable = Variable(
    id: string, name: string, category: string,
    enabled: bool, impact: int, weight: int)

  /** The panel's state: the factors, the category filter, the unsaved-changes
      flag and whether a save is under way. */
  datatype Panel = Panel(variables: seq<Variable>, filter: string, changesMade: bool, isSaving: bool)

  const InitialVariables: seq<Variable> := [
    Variable("interest_rate", "Interest Rate", "economic", true, -7, 85),
    Variable("inflation", "Inflation", "economic", true, -8, 80),
    Variable("gdp_growth", "GDP Growth", "economic", true, 6, 75),
    Variable("unemployment", "Unemployment", "economic", true, -5, 70),
    Variable("consumer_sentiment", "Consumer Sentiment", "sentiment", true, 7, 65),
    Variable("market_volatility", "Market Volatility", "market", true, -6, 75),
    Variable("oil_price", "Oil Price", "commodity", false, -4, 60),
    Variable("housing_market", "Housing Market", "sector", false, 3, 55),
    Variable("global_trade", "Global Trade", "global", false, 5, 65),
    Variable("weather", "Weather Patterns", "environmental", false, -2, 30),
    Variable("seasonal", "Seasonal Factors", "temporal", true, 4, 40),
    Variable("political", "Political Stability", "geopolitical", false, -3, 50)
  ]

  /** The panel once the initial list has loaded. */
  const InitialPanel: Panel := Panel(InitialVariables, "all", false, false)

  /** The documented ranges of impact and weight. */
  predicate InRange(vs: seq<Variable>) {
    forall v :: v in vs ==> -10 <= v.impact <= 10 && 0 <= v.weight <= 100
  }

  lemma InitialInRange()
    ensures InRange(InitialVariables)
  {
    var vs := InitialVariables;
    assert forall i :: 0 <= i < |vs| ==> -10 <= vs[i].impact <= 10 && 0 <= vs[i].weight <= 100;
  }

  // ---------------------------------------------------------------------
  // Handlers
  // ---------------------------------------------------------------------

  /** toggleVariable: flip `enabled` of the factor with this id; mark the
      panel changed. */
  function Toggle(p: Panel, id: string): (r: Panel)
    ensures |r.variables| == |p.variables|
    ensures forall i :: 0 <= i < |p.variables| ==>
      r.variables[i] == if p.variables[i].id == id
                        then p.variables[i].(enabled := !p.variables[i].enabled)
                        else p.variables[i]
    ensures r.filter == p.filter && r.isSaving == p.isSaving && r.changesMade
  {
    var vs := p.variables;
    p.(variables := seq(|vs|, i requires 0 <= i < |vs| =>
                        if vs[i].id == id then vs[i].(enabled := !vs[i].enabled) else vs[i]),
       changesMade := true)
  }

  /** Toggling the same factor twice restores the list. */
  lemma {:induction false} ToggleTwice(p: Panel, id: string)
    ensures Toggle(Toggle(p, id), id).variables == p.variables
  {
    var once := Toggle(p, id);
    var twice := Toggle(once, id);
    forall i | 0 <= i < |p.variables| ensures twice.variables[i] == p.variables[i] {
      assert once.variables[i].id == p.variables[i].id;
    }
  }

  /** updateVariableWeight: set the weight of the factor with this id; mark
      the panel changed. */
  function SetWeight(p: Panel, id: string, weight: int): (r: Panel)
    ensures |r.variables| == |p.variables|
    ensures forall i :: 0 <= i < |p.variables| ==>
      r.variables[i] == if p.variables[i].id == id
                        then p.variables[i].(weight := weight)
                        else p.variables[i]
    ensures r.filter == p.filter && r.isSaving == p.isSaving && r.changesMade
  {
    var vs := p.variables;
    p.(variables := seq(|vs|, i requires 0 <= i < |vs| =>
                        if vs[i].id == id then vs[i].(weight := weight) else vs[i]),
       changesMade := true)
  }

  /** A slider value in 0..100 keeps every factor in range. */
  lemma SetWeightInRange(p: Panel, id: string, weight: int)
    requires InRange(p.variables) && 0 <= weight <= 100
    ensures InRange(SetWeight(p, id, weight).variables)
  {
  }

  /** Reset All: every factor disabled, nothing else about it changed. */
  function ResetAll(p: Panel): (r: Panel)
    ensures |r.variables| == |p.variables|
    ensures forall i :: 0 <= i < |p.variables| ==> r.variables[i] == p.variables[i].(enabled := false)
    ensures r.filter == p.filter && r.isSaving == p.isSaving && r.changesMade
  {
    var vs := p.variables;
    p.(variables := seq(|vs|, i requires 0 <= i < |vs| => vs[i].(enabled := false)),
       changesMade := true)
  }

  /** Enable All: every factor enabled, nothing else about it changed. */
  function EnableAll(p: Panel): (r: Panel)
    ensures |r.variables| == |p.variables|
    ensures forall i :: 0 <= i < |p.variables| ==> r.variables[i] == p.variables[i].(enabled := true)
    ensures r.filter == p.filter && r.isSaving == p.isSaving && r.changesMade
  {
    var vs := p.variables;
    p.(variables := seq(|vs|, i requires 0 <= i < |vs| => vs[i].(enabled := true)),
       changesMade := true)
  }

  /** A filter button. */
  function SetFilter(p: Panel, filter: string): (r: Panel)
    ensures r == p.(filter := filter)
  {
    p.(filter := filter)
  }

  /** Pressing Apply Changes: a save is under way, nothing else changes yet. */
  function StartSave(p: Panel): (r: Panel)
    ensures r.isSaving && r.variables == p.variables && r.changesMade == p.changesMade
  {
    p.(isSaving := true)
  }

  /** The save completing: the unsaved-changes flag is cleared. */
  function FinishSave(p: Panel): (r: Panel)
    ensures !r.isSaving && !r.changesMade && r.variables == p.variables && r.filter == p.filter
  {
    p.(isSaving := false, changesMade := false)
  }

  /** Every edit raises the unsaved-changes flag and a completed save lowers
      it, whatever happened before. */
  lemma EditThenSave(p: Panel, id: string, weight: int)
    ensures Toggle(p, id).changesMade && SetWeight(p, id, weight).changesMade
    ensures ResetAll(p).changesMade && EnableAll(p).changesMade
    ensures !FinishSave(StartSave(Toggle(p, id))).changesMade
  {
  }

  // ---------------------------------------------------------------------
  // Queries
  // ---------------------------------------------------------------------

  /** getFilteredVariables. */
  function Filtered(p: Panel): seq<Variable> {
    if p.filter == "all" then p.variables
    else Seqs.Filter(p.variables, (v: Variable) => v.category == p.filter)
  }

  /** "all" shows every factor; any other filter shows exactly the factors of
      that category, in their original order. */
  lemma FilteredSpec(p: Panel)
    ensures p.filter == "all" ==> Filtered(p) == p.variables
    ensures p.filter != "all" ==>
      forall v :: v in Filtered(p) <==> v in p.variables && v.category == p.filter
    ensures Seqs.SubsequenceOf(Filtered(p), p.variables)
  {
    if p.filter == "all" {
      var idx := seq(|p.variables|, k requires 0 <= k < |p.variables| => k);
      assert Seqs.IndexedBy(p.variables, p.variables, idx);
    } else {
      Seqs.FilterIsSubsequence(p.variables, (v: Variable) => v.category == p.filter);
    }
  }

  function IsEnabled(v: Variable): bool { v.enabled }

  /** The weighted impact of one factor: impact * (weight / 100). */
  function Contribution(v: Variable): real {
    v.impact as real * (v.weight as real / 100.0)
  }

  /** enabled.reduce((sum, v) => sum + impact * (weight / 100), 0). */
  function TotalImpact(vs: seq<Variable>): real
    decreases |vs|
  {
    if vs == [] then 0.0 else TotalImpact(vs[..|vs| - 1]) + Contribution(vs[|vs| - 1])
  }

  /** getNetImpact: 0 when nothing is enabled, otherwise the mean weighted
      impact of the enabled factors. */
  function NetImpact(vs: seq<Variable>): (r: real)
    ensures Seqs.Filter(vs, IsEnabled) == [] ==> r == 0.0
    ensures Seqs.Filter(vs, IsEnabled) != [] ==>
      r == TotalImpact(Seqs.Filter(vs, IsEnabled)) / |Seqs.Filter(vs, IsEnabled)| as real
  {
    var enabled := Seqs.Filter(vs, IsEnabled);
    if |enabled| == 0 then 0.0 else TotalImpact(enabled) / |enabled| as real
  }

  lemma ScaleBound(x: real, w: real)
    requires -10.0 <= x <= 10.0 && 0.0 <= w <= 1.0
    ensures -10.0 <= x * w <= 10.0
  {
    assert x * (1.0 - w) == x - x * w;
    if x >= 0.0 {
      MulNonNegative(x, 1.0 - w);
      MulNonNegative(x, w);
    } else {
      MulNonNegative(-x, 1.0 - w);
      MulNonNegative(-x, w);
    }
  }

  /** One contribution lies in [-10, 10]. */
  lemma ContributionBound(v: Variable)
    requires -10 <= v.impact <= 10 && 0 <= v.weight <= 100
    ensures -10.0 <= Contribution(v) <= 10.0
  {
    ScaleBound(v.impact as real, v.weight as real / 100.0);
  }

  lemma {:induction false} TotalImpactBound(vs: seq<Variable>)
    requires InRange(vs)
    ensures -10.0 * |vs| as real <= TotalImpact(vs) <= 10.0 * |vs| as real
    decreases |vs|
  {
    if vs != [] {
      TotalImpactBound(vs[..|vs| - 1]);
      ContributionBound(vs[|vs| - 1]);
    }
  }

  /** With impacts in -10..10 and weights in 0..100 the net impact lies in
      [-10, 10]. */
  lemma NetImpactBound(vs: seq<Variable>)
    requires InRange(vs)
    ensures -10.0 <= NetImpact(vs) <= 10.0
  {
    var enabled := Seqs.Filter(vs, IsEnabled);
    if enabled != [] {
      assert InRange(enabled);
      TotalImpactBound(enabled);
      var n := |enabled| as real;
      var t := TotalImpact(enabled);
      assert NetImpact(vs) == t / n;
      assert -10.0 <= t / n <= 10.0;
    }
  }

  /** After Reset All nothing is enabled, so the net impact is 0. */
  lemma ResetAllNetImpact(p: Panel)
    ensures NetImpact(ResetAll(p).variables) == 0.0
  {
    Seqs.FilterNone(ResetAll(p).variables, IsEnabled);
  }

  /** After Enable All the net impact is the mean over every factor. */
  lemma EnableAllNetImpact(p: Panel)
    requires p.variables != []
    ensures NetImpact(EnableAll(p).variables)
         == TotalImpact(EnableAll(p).variables) / |p.variables| as real
  {
    var ws := EnableAll(p).variables;
    assert forall i :: 0 <= i < |ws| ==> IsEnabled(ws[i]);
    Seqs.FilterAll(ws, IsEnabled);
    assert Seqs.Filter(ws, IsEnabled) == ws;
  }

  /** Array.from(new Set(categories)): each category once, in order of first
      appearance. */
  function Categories(vs: seq<Variable>): (r: seq<string>)
    ensures forall i, j :: 0 <= i < j < |r| ==> r[i] != r[j]
    ensures forall c :: c in r <==> exists v :: v in vs && v.category == c
    decreases |vs|
  {
    if vs == [] then []
    else
      var front := Categories(vs[..|vs| - 1]);
      var c := vs[|vs| - 1].category;
      if c in front then front else front + [c]
  }
}
