/**
 * The development-scoring feasibility model: the dwelling-yield estimate
 * from land area and zone, and the back-of-napkin dual-occupancy or
 * single-dwelling feasibility.
 */
module FeasibilityModel {
  import opened Wrappers
  import opened Numeric
  import opened ScannerConfig

  // ---------------------------------------------------------------------
  // Yield.
  // ---------------------------------------------------------------------

  /** (low, base, high, confidence). */
  datatype YieldEstimate = YieldEstimate(low: int, base: int, high: int, confidence: real)

  /** Python truthiness of an optional number. */
  predicate TruthyInt(x: Option<int>) { x.Some? && x.value != 0 }
  predicate TruthyReal(x: Option<real>) { x.Some? && x.value != 0.0 }

  /** estimate_yield.  `zoneCode` None or empty falls back to GRZ1. */
  function EstimateYield(c: Config, landAreaM2: Option<real>, zoneCode: Option<string>): YieldEstimate
  {
    if !TruthyReal(landAreaM2) || landAreaM2.value < 300.0 then YieldEstimate(1, 1, 1, 0.5)
    else
      var land := landAreaM2.value;
      var zone := if zoneCode.Some? && zoneCode.value != "" then zoneCode.value else "GRZ1";
      var params := GetZoneParams(c, zone);
      var maxDwellings := params.maxDwellings;
      var baseYield0 := Max(1.0, land * params.yieldFactor);
      var baseYield := if TruthyInt(maxDwellings) then Min(baseYield0, maxDwellings.value as real) else baseYield0;
      var low := if 1 >= TruncToZero(baseYield * 0.8) then 1 else TruncToZero(baseYield * 0.8);
      var base := if 1 >= TruncToZero(baseYield) then 1 else TruncToZero(baseYield);
      var high0 := TruncToZero(baseYield * 1.2);
      var high := if TruthyInt(maxDwellings) && maxDwellings.value < high0 then maxDwellings.value else high0;
      YieldEstimate(low, base, high, if land > 400.0 then 0.7 else 0.5)
  }

  /**
   * Missing or small land (under 300) gives (1, 1, 1, 0.5); otherwise low
   * and base are at least 1, and with a positive dwelling cap neither base
   * nor high exceeds it; without a cap, or with a positive one,
   * low <= base <= high.
   */
  lemma YieldBounds(c: Config, landAreaM2: Option<real>, zoneCode: Option<string>)
    ensures var y := EstimateYield(c, landAreaM2, zoneCode);
      && (!TruthyReal(landAreaM2) || landAreaM2.value < 300.0 ==> y == YieldEstimate(1, 1, 1, 0.5))
      && y.low >= 1 && y.base >= 1
      && (y.confidence == 0.7 || y.confidence == 0.5)
      && (TruthyReal(landAreaM2) && landAreaM2.value >= 300.0 ==>
            var md := GetZoneParams(c, if zoneCode.Some? && zoneCode.value != "" then zoneCode.value else "GRZ1").maxDwellings;
            && (TruthyInt(md) && md.value >= 1 ==> y.base <= md.value && y.high <= md.value)
            && (!TruthyInt(md) || md.value >= 1 ==> y.low <= y.base <= y.high))
  {
    if TruthyReal(landAreaM2) && landAreaM2.value >= 300.0 {
      var land := landAreaM2.value;
      var zone := if zoneCode.Some? && zoneCode.value != "" then zoneCode.value else "GRZ1";
      var params := GetZoneParams(c, zone);
      var md := params.maxDwellings;
      var b0 := Max(1.0, land * params.yieldFactor);
      var b := if TruthyInt(md) then Min(b0, md.value as real) else b0;
      if !TruthyInt(md) || md.value >= 1 {
        assert b >= 1.0;
        TruncMonotone(b * 0.8, b);
        TruncMonotone(b, b * 1.2);
      }
    }
  }

  // ---------------------------------------------------------------------
  // Simple feasibility.
  // ---------------------------------------------------------------------

  /** The Napier & Blakeley rates; the build cost per sqm is the one looked up for the building type and quality. */
  datatype SimpleFeasibilityConfig = SimpleFeasibilityConfig(
    buildCostPerSqm: real, profFeesPercent: real, contingencyPercent: real, interestRate: real,
    holdingPeriodMonths: int, sellingCostsPercent: real)

  datatype Strategy = DualOcc | Single | OtherStrategy(name: string)

  datatype Note = Downgraded(maxDwellings: int) | SizeConstrained(dwellingSizeSqm: real)
                | StrategyNote(strategy: Strategy) | MarginNote(marginPercent: real)

  datatype FeasibilityResult = FeasibilityResult(strategy: Strategy, gdv: real, tdc: real, marginDollars: real,
                                                 marginPercent: real, rlv: real, isViable: bool, notes: seq<Note>)

  /**
   * The DualOcc yield: the dwelling size and whether the zone's footprint
   * constrained it.  The size is 220 sqm or 0.9 times the ground floor (the
   * footprint limit, else 60% of the land), whichever is smaller.  The
   * footprint test compares the limit with the very ground floor the size
   * was cut to, so in exact arithmetic it never fires.
   */
  function DualOccSize(landAreaSqm: real, maxFootprintSqm: Option<real>): (r: (real, bool))
    ensures var groundFloor := if TruthyReal(maxFootprintSqm) then maxFootprintSqm.value else landAreaSqm * 0.6;
      r.0 == if groundFloor * 0.9 < 220.0 then groundFloor * 0.9 else 220.0
    ensures !r.1
  {
    var maxGroundFloor := if TruthyReal(maxFootprintSqm) then maxFootprintSqm.value else landAreaSqm * 0.6;
    var maxDwellingSize := maxGroundFloor * 1.8 / 2.0;
    var size := Min(220.0, maxDwellingSize);
    (size, TruthyReal(maxFootprintSqm) && size * 2.0 / 1.8 > maxFootprintSqm.value)
  }

  /** calculate_simple_feasibility. */
  function CalculateSimpleFeasibility(landPrice: real, landAreaSqm: real, strategy: Strategy, config: SimpleFeasibilityConfig,
                                      maxFootprintSqm: Option<real>, maxDwellings: Option<int>): FeasibilityResult
  {
    var downgrade := TruthyInt(maxDwellings) && maxDwellings.value < 2 && strategy == DualOcc;
    var strat := if downgrade then Single else strategy;
    var notes1 := if downgrade then [Downgraded(maxDwellings.value)] else [];
    var (size, constrained) := if strat == DualOcc then DualOccSize(landAreaSqm, maxFootprintSqm) else (0.0, false);
    var totalBuildAreaSqm := size * 2.0;
    var notes2 := if constrained then notes1 + [SizeConstrained(size)] else notes1;
    var gdv := if strat == DualOcc then 1200000.0 * 2.0 else landPrice * 1.2;
    var constructionCost := totalBuildAreaSqm * config.buildCostPerSqm;
    var profFees := constructionCost * config.profFeesPercent;
    var contingency := constructionCost * config.contingencyPercent;
    var statutoryCosts := 0.05 * landPrice;
    var financeCost := (landPrice + constructionCost) * config.interestRate * (config.holdingPeriodMonths as real / 12.0) * 0.6;
    var sellingCosts := gdv * config.sellingCostsPercent;
    var tdc := landPrice + statutoryCosts + constructionCost + profFees + contingency + financeCost + sellingCosts;
    var gstPayable := (gdv - landPrice) / 11.0;
    var netProfit := gdv - tdc - gstPayable;
    var marginPercent := if tdc > 0.0 then netProfit / tdc * 100.0 else 0.0;
    FeasibilityResult(strat, gdv, tdc, netProfit, marginPercent, 0.0, marginPercent >= 20.0,
                      notes2 + [StrategyNote(strat), MarginNote(marginPercent)])
  }

  /**
   * DualOcc is downgraded to Single exactly when a non-zero dwelling cap is
   * under 2; a dual occupancy sells two dwellings at 1.2M; any other
   * strategy sells at 1.2 times the land price; the margin is 0 without positive costs; viability is a
   * margin of at least 20%; the last two notes name the strategy and margin.
   */
  lemma SimpleFeasibilityFacts(landPrice: real, landAreaSqm: real, strategy: Strategy, config: SimpleFeasibilityConfig,
                               maxFootprintSqm: Option<real>, maxDwellings: Option<int>)
    ensures var f := CalculateSimpleFeasibility(landPrice, landAreaSqm, strategy, config, maxFootprintSqm, maxDwellings);
      && (strategy == DualOcc && TruthyInt(maxDwellings) && maxDwellings.value < 2 <==> strategy == DualOcc && f.strategy == Single)
      && (strategy != DualOcc ==> f.strategy == strategy)
      && (f.strategy == DualOcc ==> f.gdv == 2400000.0)
      && (f.strategy != DualOcc ==> f.gdv == landPrice * 1.2)
      && (f.tdc <= 0.0 ==> f.marginPercent == 0.0)
      && (f.tdc > 0.0 ==> f.marginPercent * f.tdc == f.marginDollars * 100.0)
      && f.marginDollars == f.gdv - f.tdc - (f.gdv - landPrice) / 11.0
      && (f.isViable <==> f.marginPercent >= 20.0)
      && |f.notes| >= 2
      && f.notes[|f.notes| - 2] == StrategyNote(f.strategy)
      && f.notes[|f.notes| - 1] == MarginNote(f.marginPercent)
      && (Downgraded(if maxDwellings.Some? then maxDwellings.value else 0) in f.notes <==>
            strategy == DualOcc && TruthyInt(maxDwellings) && maxDwellings.value < 2)
  {
    var f := CalculateSimpleFeasibility(landPrice, landAreaSqm, strategy, config, maxFootprintSqm, maxDwellings);
    if f.tdc > 0.0 {
      PercentTimesBase(f.marginDollars, f.tdc);
    }
  }
}
