/**
 * The sensitivity sweep: the NPV recomputed over a seven-point grid of
 * relative changes, once changing the discount rate and once changing every
 * cash flow.
 */
module Sensitivity {
  import opened Discounting
  import MonteCarlo

  /** The relative changes swept, in report order. */
  const Grid: seq<real> := [-0.3, -0.2, -0.1, 0.0, 0.1, 0.2, 0.3]

  /** The index of the unchanged (0%) entry. */
  const Baseline: nat := 3

  /** The floor the rate report puts under every changed rate before discounting. */
  const RateFloor: real := 0.01

  const RateVariable: string := "Taux d'actualisation"
  const CashflowVariable: string := "Flux de trésorerie"

  /**
   * One grid point: the relative change, the value the report records for
   * it and the NPV obtained. The change's display label is not modelled.
   */
  datatype Variation = Variation(change: real, value: real, npv: real)

  datatype SensitivityAnalysis = SensitivityAnalysis(variable: string, variations: seq<Variation>)

  /** The grid runs from -30% to +30% in steps of 10%. */
  lemma GridSteps()
    ensures |Grid| == 7
    ensures forall i :: 0 <= i < |Grid| ==> Grid[i] == (i - 3) as real / 10.0
  {
    forall i | 0 <= i < |Grid| ensures Grid[i] == (i - 3) as real / 10.0 {
      assert i == 0 || i == 1 || i == 2 || i == 3 || i == 4 || i == 5 || i == 6;
    }
  }

  /** The grid is strictly ascending and its baseline entry is 0. */
  lemma GridAscending()
    ensures Grid[Baseline] == 0.0
    ensures forall i, j :: 0 <= i < j < |Grid| ==> Grid[i] < Grid[j]
    ensures forall i :: 0 <= i < |Grid| ==> -1.0 < Grid[i]
  {
    GridSteps();
  }

  /**
   * The rate report's entry for `change`: the changed rate is recorded as
   * is, but the NPV is taken at that rate floored at 1%.
   */
  function RateVariation(cashflows: seq<real>, baseRate: real, change: real): Variation
  {
    var newRate := baseRate * (1.0 + change);
    Variation(change, newRate, Npv(cashflows, MonteCarlo.Max(RateFloor, newRate)))
  }

  /**
   * The cash-flow report's entry for `change`: every flow scaled by
   * 1 + change and discounted at the unchanged base rate, which is not
   * floored here. Scaling the flows scales the NPV.
   */
  function CashflowVariation(cashflows: seq<real>, baseRate: real, change: real): (v: Variation)
    requires 1.0 + baseRate > 0.0
    ensures v.change == change && v.value == change
    ensures v.npv == (1.0 + change) * Npv(cashflows, baseRate)
  {
    var newCashflows := Scale(cashflows, 1.0 + change);
    NpvScale(cashflows, newCashflows, 1.0 + change, baseRate);
    Variation(change, change, Npv(newCashflows, baseRate))
  }

  /**
   * The two reports, rate first and cash flows second, each with one entry
   * per grid point in grid order. The base NPV is accepted and ignored, as
   * in the source.
   */
  method RunSensitivityAnalysis(baseNpv: real, baseRate: real, cashflows: seq<real>)
    returns (results: seq<SensitivityAnalysis>)
    requires 1.0 + baseRate > 0.0
    ensures |results| == 2
    ensures results[0].variable == RateVariable && results[1].variable == CashflowVariable
    ensures |results[0].variations| == |Grid| && |results[1].variations| == |Grid|
    ensures forall i :: 0 <= i < |Grid| ==>
      var v := results[0].variations[i];
      && v.change == Grid[i] && v.value == baseRate * (1.0 + Grid[i])
      && v.npv == Npv(cashflows, MonteCarlo.Max(RateFloor, v.value))
    ensures forall i :: 0 <= i < |Grid| ==>
      var v := results[1].variations[i];
      && v.change == Grid[i] && v.value == Grid[i]
      && v.npv == (1.0 + Grid[i]) * Npv(cashflows, baseRate)
  {
    results := [];
    var rateVariations := seq(|Grid|, i requires 0 <= i < |Grid| => RateVariation(cashflows, baseRate, Grid[i]));
    results := results + [SensitivityAnalysis(RateVariable, rateVariations)];
    var cashflowVariations := seq(|Grid|, i requires 0 <= i < |Grid| => CashflowVariation(cashflows, baseRate, Grid[i]));
    results := results + [SensitivityAnalysis(CashflowVariable, cashflowVariations)];
  }

  /** A non-negative factor keeps the order of 1 + g. */
  lemma ScaledOrder(base: real, g: real, h: real, vg: real, vh: real)
    requires base >= 0.0 && g <= h && vg == base * (1.0 + g) && vh == base * (1.0 + h)
    ensures vg <= vh
  {
    assert vh - vg == base * (h - g);
  }

  /** Multiplying by 1 + g keeps the order of g for a non-negative x and reverses it for a non-positive one. */
  lemma FactorOrder(x: real, g: real, h: real, vg: real, vh: real)
    requires g <= h && vg == (1.0 + g) * x && vh == (1.0 + h) * x
    ensures x >= 0.0 ==> vg <= vh
    ensures x <= 0.0 ==> vg >= vh
  {
    assert vh - vg == (h - g) * x;
  }

  /** The 0% entries reproduce the base case; the rate one only when the base rate is at least 1%. */
  lemma BaselineEntries(cashflows: seq<real>, baseRate: real)
    requires 1.0 + baseRate > 0.0
    ensures RateVariation(cashflows, baseRate, Grid[Baseline]).value == baseRate
    ensures baseRate >= RateFloor ==>
      RateVariation(cashflows, baseRate, Grid[Baseline]).npv == Npv(cashflows, baseRate)
    ensures CashflowVariation(cashflows, baseRate, Grid[Baseline]).npv == Npv(cashflows, baseRate)
  {
    GridAscending();
  }

  /**
   * Below 1% the rate report's 0% entry is not the base NPV: one flow of 1
   * at a base rate of 0 is worth 1, but the entry discounts it at 1%.
   */
  lemma BaselineClampedBelowFloor()
    ensures RateVariation([1.0], 0.0, Grid[Baseline]).npv == 1.0 / 1.01
    ensures Npv([1.0], 0.0) == 1.0
  {
    GridAscending();
    NpvShortSeries(1.0, 0.01);
    NpvShortSeries(1.0, 0.0);
  }

  /**
   * With a non-negative base rate and non-negative flows, the rate report's
   * values rise and its NPVs fall along the grid.
   */
  lemma RateReportOrdered(cashflows: seq<real>, baseRate: real, i: nat, j: nat)
    requires baseRate >= 0.0 && i <= j < |Grid|
    ensures RateVariation(cashflows, baseRate, Grid[i]).value <= RateVariation(cashflows, baseRate, Grid[j]).value
    ensures AllNonNegative(cashflows) ==>
      RateVariation(cashflows, baseRate, Grid[i]).npv >= RateVariation(cashflows, baseRate, Grid[j]).npv
  {
    GridAscending();
    var vi := baseRate * (1.0 + Grid[i]);
    var vj := baseRate * (1.0 + Grid[j]);
    ScaledOrder(baseRate, Grid[i], Grid[j], vi, vj);
    if AllNonNegative(cashflows) {
      NpvAntitone(cashflows, MonteCarlo.Max(RateFloor, vi), MonteCarlo.Max(RateFloor, vj));
    }
  }

  /**
   * The cash-flow report's NPVs, (1 + change) times the base NPV, follow the
   * sign of the base NPV: they rise along the grid when it is non-negative
   * and fall when it is not positive.
   */
  lemma CashflowReportOrdered(cashflows: seq<real>, baseRate: real, i: nat, j: nat)
    requires 1.0 + baseRate > 0.0 && i <= j < |Grid|
    ensures Npv(cashflows, baseRate) >= 0.0 ==>
      (1.0 + Grid[i]) * Npv(cashflows, baseRate) <= (1.0 + Grid[j]) * Npv(cashflows, baseRate)
    ensures Npv(cashflows, baseRate) <= 0.0 ==>
      (1.0 + Grid[i]) * Npv(cashflows, baseRate) >= (1.0 + Grid[j]) * Npv(cashflows, baseRate)
  {
    GridOrdered(i, j);
    FactorOrder(Npv(cashflows, baseRate), Grid[i], Grid[j],
      (1.0 + Grid[i]) * Npv(cashflows, baseRate), (1.0 + Grid[j]) * Npv(cashflows, baseRate));
  }

  /** Entries further along the grid come from larger changes. */
  lemma GridOrdered(i: nat, j: nat)
    requires i <= j < |Grid|
    ensures Grid[i] <= Grid[j]
  {
    GridAscending();
  }
}
