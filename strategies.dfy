/**
 * The multi-strategy feasibility calculator: which development strategies
 * a site admits, the yield and Napier & Blakeley costing of each, and the
 * viable and best strategies of a site.  The construction-cost table read
 * from YAML is a parameter.
 */
module Strategies {
  import opened Wrappers
  import opened Text
  import opened Numeric

  datatype Strategy =
    | LandBank | CosmeticReno | MajorReno | KnockdownRebuild | Extension
    | DualOcc | Townhouse3 | Townhouse4Plus | SubdivideRetain | SubdivideSellLots
    | Apartment3Storey | Apartment4Plus | RoomingHouse | StudentAccommodation | NdisSda | Childcare

  /** The strategies in declaration order, the order evaluate_all_strategies visits them. */
  const AllStrategies: seq<Strategy> := [
    LandBank, CosmeticReno, MajorReno, KnockdownRebuild, Extension,
    DualOcc, Townhouse3, Townhouse4Plus, SubdivideRetain, SubdivideSellLots,
    Apartment3Storey, Apartment4Plus, RoomingHouse, StudentAccommodation, NdisSda, Childcare
  ]

  // ---------------------------------------------------------------------
  // Applicability.
  // ---------------------------------------------------------------------

  /** Why a strategy does not apply: the rule's own text, or a slope too steep for multi-dwelling. */
  datatype Exclusion = RuleText(text: string) | SlopeTooSteep(slopePercent: real)

  predicate IsMultiDwelling(s: Strategy)
  {
    s in {Townhouse3, Townhouse4Plus, Apartment3Storey, Apartment4Plus}
  }

  /** The rule for one strategy: (holds, its text). */
  function Rule(strategy: Strategy, land: real, frontage: real, baseZone: string, hasExisting: bool, slope: real): (bool, string)
  {
    var isNrz := baseZone == "NRZ";
    match strategy
    case LandBank => (true, "")
    case CosmeticReno => (hasExisting, "No existing dwelling to renovate")
    case MajorReno => (hasExisting && land >= 300.0, "Need existing dwelling >= 300sqm land")
    case KnockdownRebuild => (land >= 400.0 && frontage >= 10.0, "Need >= 400sqm and 10m frontage")
    case Extension => (hasExisting && land >= 400.0, "Need existing dwelling and space")
    case DualOcc =>
      (land >= 500.0 && frontage >= 15.0 && !isNrz,
       if isNrz then "Need >= 500sqm, 15m frontage, not NRZ" else "Need >= 500sqm and 15m frontage")
    case Townhouse3 => (land >= 700.0 && frontage >= 18.0 && !isNrz, "Need >= 700sqm, 18m frontage, not NRZ")
    case Townhouse4Plus => (land >= 1000.0 && frontage >= 20.0 && !isNrz, "Need >= 1000sqm, 20m frontage, not NRZ")
    case SubdivideRetain => (land >= 800.0 && frontage >= 15.0, "Need >= 800sqm and 15m frontage")
    case SubdivideSellLots => (land >= 1200.0 && frontage >= 20.0, "Need >= 1200sqm and 20m frontage for 3+ lots")
    case Apartment3Storey =>
      (land >= 800.0 && frontage >= 20.0 && baseZone in ["GRZ", "RGZ", "MUZ"], "Need >= 800sqm, 20m frontage, GRZ/RGZ/MUZ zone")
    case Apartment4Plus =>
      (land >= 1500.0 && frontage >= 25.0 && baseZone in ["RGZ", "MUZ", "TZ"], "Need >= 1500sqm, 25m frontage, RGZ/MUZ/TZ zone")
    case RoomingHouse => (land >= 400.0 && baseZone in ["GRZ", "RGZ", "MUZ"], "Need >= 400sqm in GRZ/RGZ/MUZ")
    case StudentAccommodation => (land >= 600.0, "Need >= 600sqm (proximity to university not checked)")
    case NdisSda => (land >= 500.0 && slope < 5.0, "Need >= 500sqm, flat site (<5% slope)")
    case Childcare =>
      (land >= 1500.0 && frontage >= 25.0 && baseZone in ["GRZ", "MUZ", "C1Z", "C2Z"], "Need >= 1500sqm, 25m frontage, appropriate zone")
  }

  /**
   * check_strategy_applicability: the strategy's rule on the digit-free
   * zone, except that a multi-dwelling strategy on a slope over 12% is
   * refused.  The text of the rule comes back even when it holds.
   */
  function CheckStrategyApplicability(strategy: Strategy, land: real, frontage: real, zoneCode: string,
                                      hasExisting: bool, slope: real): (bool, Exclusion)
  {
    var (ok, text) := Rule(strategy, land, frontage, DropDigits(zoneCode), hasExisting, slope);
    if ok && slope > 12.0 && IsMultiDwelling(strategy) then (false, SlopeTooSteep(slope))
    else (ok, RuleText(text))
  }

  /**
   * Land banking always applies; a dual occupancy needs 500 sqm, 15 m of
   * frontage and a zone other than NRZ; a multi-dwelling strategy never
   * applies on a slope over 12%, and one its rule admits there is refused
   * for the slope; no other strategy depends on the slope except the flat
   * site NDIS housing needs.
   */
  lemma ApplicabilityRules(land: real, frontage: real, zoneCode: string, hasExisting: bool, slope: real)
    ensures CheckStrategyApplicability(LandBank, land, frontage, zoneCode, hasExisting, slope) == (true, RuleText(""))
    ensures CheckStrategyApplicability(DualOcc, land, frontage, zoneCode, hasExisting, slope).0 <==>
      land >= 500.0 && frontage >= 15.0 && DropDigits(zoneCode) != "NRZ"
    ensures forall s | IsMultiDwelling(s) && slope > 12.0 ::
      && !CheckStrategyApplicability(s, land, frontage, zoneCode, hasExisting, slope).0
      && (Rule(s, land, frontage, DropDigits(zoneCode), hasExisting, slope).0 ==>
            CheckStrategyApplicability(s, land, frontage, zoneCode, hasExisting, slope).1 == SlopeTooSteep(slope))
    ensures forall s, slope2 | !IsMultiDwelling(s) && s != NdisSda ::
      CheckStrategyApplicability(s, land, frontage, zoneCode, hasExisting, slope) ==
      CheckStrategyApplicability(s, land, frontage, zoneCode, hasExisting, slope2)
  {
    SteepSlopeRefused(land, frontage, zoneCode, hasExisting, slope);
    forall s, slope2 | !IsMultiDwelling(s) && s != NdisSda
      ensures CheckStrategyApplicability(s, land, frontage, zoneCode, hasExisting, slope) ==
              CheckStrategyApplicability(s, land, frontage, zoneCode, hasExisting, slope2)
    {
      SlopeIgnored(s, land, frontage, zoneCode, hasExisting, slope, slope2);
    }
  }

  lemma SteepSlopeRefused(land: real, frontage: real, zoneCode: string, hasExisting: bool, slope: real)
    ensures forall s | IsMultiDwelling(s) && slope > 12.0 ::
      && !CheckStrategyApplicability(s, land, frontage, zoneCode, hasExisting, slope).0
      && (Rule(s, land, frontage, DropDigits(zoneCode), hasExisting, slope).0 ==>
            CheckStrategyApplicability(s, land, frontage, zoneCode, hasExisting, slope).1 == SlopeTooSteep(slope))
  {
  }

  lemma SlopeIgnored(s: Strategy, land: real, frontage: real, zoneCode: string, hasExisting: bool, slope: real, slope2: real)
    requires !IsMultiDwelling(s) && s != NdisSda
    ensures CheckStrategyApplicability(s, land, frontage, zoneCode, hasExisting, slope) ==
            CheckStrategyApplicability(s, land, frontage, zoneCode, hasExisting, slope2)
  {
    var z := DropDigits(zoneCode);
    assert Rule(s, land, frontage, z, hasExisting, slope) == Rule(s, land, frontage, z, hasExisting, slope2);
  }

  // ---------------------------------------------------------------------
  // Costing.
  // ---------------------------------------------------------------------

  /** The construction-cost table: rate per sqm by building type, then quality. */
  type CostTable = map<string, map<string, real>>

  /** get_nb_rate: the table's rate, 2525 when the type or quality is missing. */
  function NbRate(costs: CostTable, category: string, level: string): (r: real)
    ensures category in costs && level in costs[category] ==> r == costs[category][level]
    ensures !(category in costs && level in costs[category]) ==> r == 2525.0
  {
    if category in costs && level in costs[category] then costs[category][level] else 2525.0
  }

  /** Sale prices per dwelling, per sqm of land and per room per week. */
  datatype Prices = Prices(house: real, townhouse: real, apartment: real, landPerSqm: real, roomWeekly: real)

  const DefaultPrices: Prices := Prices(1200000.0, 950000.0, 650000.0, 1500.0, 250.0)
  const DonvalePrices: Prices := Prices(1400000.0, 1100000.0, 750000.0, 1800.0, 280.0)

  function PricesFor(suburb: string): Prices
  {
    if Lower(suburb) == "donvale" then DonvalePrices else DefaultPrices
  }

  datatype Note = Lots(count: int) | Rooms(count: int, weeklyRent: real) | SdaHighPhysicalSupport | Places(count: int)

  /** The strategy-specific yield and costs, before the costs common to all strategies. */
  datatype Works = Works(dwellings: int, gfaSqm: real, salePricePerUnit: real, gdv: real, demolition: real,
                         siteWorks: real, construction: real, professionalFees: real, contingency: real,
                         statutoryCosts: real, notes: seq<Note>)

  const NoWorks: Works := Works(0, 0.0, 0.0, 0.0, 0.0, 0.0, 0.0, 0.0, 0.0, 0.0, [])

  function SiteWorksRate(slope: real): real
  {
    if slope < 5.0 then 0.08 else 0.15
  }

  /** The townhouse family's dwelling count: 2, 3, or land / 250 capped at 6 for four or more. */
  function TownhouseDwellings(strategy: Strategy, land: real): int
    requires strategy in {DualOcc, Townhouse3, Townhouse4Plus}
  {
    match strategy
    case DualOcc => 2
    case Townhouse3 => 3
    case Townhouse4Plus =>
      var byLand := TruncToZero(land / 250.0);
      if byLand <= 6 then byLand else 6
  }

  /** The strategy-specific branch of calculate_strategy. */
  function StrategyWorks(strategy: Strategy, landPrice: real, land: real, slope: real, existingValue: real,
                         prices: Prices, costs: CostTable): Works
  {
    match strategy
    case LandBank =>
      NoWorks.(gdv := landPrice * (1.0 + 0.05 * 24.0 / 12.0))
    case CosmeticReno =>
      var c := 150.0 * NbRate(costs, "RENOVATION", "cosmetic");
      var existing := if existingValue != 0.0 then existingValue else landPrice * 0.7;
      NoWorks.(construction := c, professionalFees := c * 0.05, contingency := c * 0.10,
               gdv := existing * 1.15 + landPrice * 0.3, gfaSqm := 150.0, dwellings := 1)
    case MajorReno =>
      var c := 180.0 * NbRate(costs, "RENOVATION", "major");
      var existing := if existingValue != 0.0 then existingValue else landPrice * 0.7;
      NoWorks.(construction := c, professionalFees := c * 0.05, contingency := c * 0.10,
               gdv := existing * 1.30 + landPrice * 0.3, gfaSqm := 180.0, dwellings := 1)
    case KnockdownRebuild =>
      var c := 250.0 * NbRate(costs, "SINGLE_DWELLING", "medium");
      NoWorks.(dwellings := 1, gfaSqm := 250.0, construction := c, demolition := 120.0 * 150.0,
               siteWorks := c * SiteWorksRate(slope), gdv := prices.house, salePricePerUnit := prices.house)
    case DualOcc | Townhouse3 | Townhouse4Plus =>
      var d := TownhouseDwellings(strategy, land);
      var gfaPer := if strategy == DualOcc then 180.0 else if strategy == Townhouse3 then 160.0 else 140.0;
      var gfa := d as real * gfaPer;
      var c := gfa * NbRate(costs, "TOWNHOUSE", "medium");
      NoWorks.(dwellings := d, gfaSqm := gfa, construction := c, demolition := 120.0 * 150.0,
               siteWorks := c * SiteWorksRate(slope), salePricePerUnit := prices.townhouse,
               gdv := d as real * prices.townhouse)
    case SubdivideRetain =>
      NoWorks.(gdv := prices.landPerSqm * (land * 0.4) + existingValue, dwellings := 1,
               statutoryCosts := 2.0 * 35000.0, notes := [Lots(2)])
    case SubdivideSellLots =>
      var lots := TruncToZero(land / 400.0);
      NoWorks.(gdv := lots as real * prices.landPerSqm * 400.0, demolition := 120.0 * 150.0, dwellings := 0,
               statutoryCosts := lots as real * 35000.0, notes := [Lots(lots)])
    case Apartment3Storey | Apartment4Plus =>
      var perThousand := if strategy == Apartment3Storey then 12.0 else 20.0;
      var d := TruncToZero(land * perThousand / 1000.0);
      var gfa := d as real * (if strategy == Apartment3Storey then 75.0 else 70.0);
      var c := gfa * NbRate(costs, "APARTMENT", if strategy == Apartment3Storey then "medium" else "high");
      NoWorks.(dwellings := d, gfaSqm := gfa, construction := c, demolition := 120.0 * 200.0,
               siteWorks := c * 0.12, salePricePerUnit := prices.apartment, gdv := d as real * prices.apartment)
    case RoomingHouse =>
      var rooms := TruncToZero(land * 3.0 / 100.0);
      var gfa := rooms as real * 20.0 * 3.0;
      var c := gfa * NbRate(costs, "TOWNHOUSE", "budget");
      NoWorks.(dwellings := rooms, gfaSqm := gfa, construction := c, demolition := 120.0 * 150.0,
               gdv := rooms as real * prices.roomWeekly * 52.0 / 0.07, notes := [Rooms(rooms, prices.roomWeekly)])
    case NdisSda =>
      var c := 200.0 * NbRate(costs, "SINGLE_DWELLING", "high") * 1.3;
      NoWorks.(dwellings := 1, gfaSqm := 200.0, construction := c, demolition := 120.0 * 150.0,
               gdv := 150000.0 / 0.08, notes := [SdaHighPhysicalSupport])
    case Childcare =>
      var c := 600.0 * NbRate(costs, "APARTMENT", "high") * 1.2;
      NoWorks.(gfaSqm := 600.0, construction := c, demolition := 120.0 * 200.0, siteWorks := c * 0.15,
               gdv := 75.0 * 350.0 * 52.0 * 0.15 / 0.055, notes := [Places(75)])
    case Extension | StudentAccommodation => NoWorks
  }

  datatype StrategyResult = StrategyResult(
    strategy: Strategy, isApplicable: bool, exclusionReason: Exclusion,
    dwellings: int, gfaSqm: real, salePricePerUnit: real, gdv: real,
    landCost: real, demolition: real, siteWorks: real, construction: real, professionalFees: real,
    contingency: real, statutoryCosts: real, financeCost: real, sellingCosts: real, tdc: real,
    profit: real, marginPercent: real, marginOnCost: real, rlv: real,
    costPerSqmGfa: real, profitPerDwelling: real, notes: seq<Note>)

  /** The GST payable under the margin scheme: an eleventh of the GDV's excess over the land cost. */
  function MarginSchemeGst(gdv: real, landCost: real): (g: real)
    ensures g >= 0.0
    ensures g == 0.0 <==> gdv <= landCost
    ensures g * 11.0 == Max(0.0, gdv - landCost)
  {
    if gdv > landCost then (gdv - landCost) / 11.0 else 0.0
  }

  /** The costs common to every applicable strategy, and the profit metrics. */
  function Finish(strategy: Strategy, exclusion: Exclusion, landPrice: real, w: Works): StrategyResult
  {
    var fees := if w.construction > 0.0 then w.construction * 0.10 else w.professionalFees;
    var contingency := if w.construction > 0.0 then w.construction * 0.075 else w.contingency;
    var statutory := w.statutoryCosts + (w.construction + w.demolition) * 0.02;
    var finance := (landPrice + w.demolition + w.construction) * 0.07 * (14.0 / 12.0) * 0.6;
    var selling := w.gdv * 0.015;
    var tdc := landPrice + w.demolition + w.siteWorks + w.construction + fees + contingency + statutory + finance + selling;
    var gst := MarginSchemeGst(w.gdv, landPrice);
    var profit := w.gdv - tdc - gst;
    var other := tdc - landPrice;
    StrategyResult(
      strategy, true, exclusion, w.dwellings, w.gfaSqm, w.salePricePerUnit, w.gdv,
      landPrice, w.demolition, w.siteWorks, w.construction, fees, contingency, statutory, finance, selling, tdc,
      profit,
      if tdc > 0.0 then profit / tdc * 100.0 else 0.0,
      if other > 0.0 then profit / other * 100.0 else 0.0,
      if w.gdv > 0.0 && other > 0.0 then w.gdv / (1.0 + 0.20) - other else 0.0,
      if w.gfaSqm > 0.0 then other / w.gfaSqm else 0.0,
      if w.dwellings > 0 then profit / w.dwellings as real else 0.0,
      w.notes)
  }

  /** The result of a strategy that does not apply: no works, and the land is the whole cost. */
  function NotApplicable(strategy: Strategy, exclusion: Exclusion, landPrice: real): StrategyResult
  {
    StrategyResult(strategy, false, exclusion, 0, 0.0, 0.0, 0.0, landPrice, 0.0, 0.0, 0.0, 0.0, 0.0, 0.0, 0.0, 0.0,
                   landPrice, 0.0, 0.0, 0.0, 0.0, 0.0, 0.0, [])
  }

  /** What calculate_strategy is told about a site. */
  datatype Site = Site(landPrice: real, landAreaSqm: real, frontageM: real, zoneCode: string, suburb: string,
                       hasExistingDwelling: bool, existingValue: real, slopePercent: real)

  function Applicability(strategy: Strategy, site: Site): (bool, Exclusion)
  {
    CheckStrategyApplicability(strategy, site.landAreaSqm, site.frontageM, site.zoneCode, site.hasExistingDwelling,
                               site.slopePercent)
  }

  function SiteWorks(strategy: Strategy, site: Site, costs: CostTable): Works
  {
    StrategyWorks(strategy, site.landPrice, site.landAreaSqm, site.slopePercent, site.existingValue,
                  PricesFor(site.suburb), costs)
  }

  /** calculate_strategy.  The display name derived from the strategy's value is left out. */
  function CalculateStrategy(strategy: Strategy, site: Site, costs: CostTable): StrategyResult
  {
    var (applicable, exclusion) := Applicability(strategy, site);
    if !applicable then NotApplicable(strategy, exclusion, site.landPrice)
    else Finish(strategy, exclusion, site.landPrice, SiteWorks(strategy, site, costs))
  }

  /**
   * A strategy that does not apply costs the land and nothing else: zero
   * yield, revenue, works and profit, total development cost equal to the
   * land price, and its exclusion reason kept.
   */
  lemma NotApplicableIsZero(strategy: Strategy, site: Site, costs: CostTable)
    ensures var r := CalculateStrategy(strategy, site, costs);
      && r.isApplicable == Applicability(strategy, site).0
      && r.exclusionReason == Applicability(strategy, site).1
      && r.strategy == strategy
      && (!r.isApplicable ==>
            && r.tdc == site.landPrice && r.landCost == site.landPrice
            && r.dwellings == 0 && r.gdv == 0.0 && r.profit == 0.0 && r.marginPercent == 0.0
            && r.construction == 0.0 && r.demolition == 0.0 && r.siteWorks == 0.0 && r.professionalFees == 0.0
            && r.contingency == 0.0 && r.statutoryCosts == 0.0 && r.financeCost == 0.0 && r.sellingCosts == 0.0
            && r.notes == [])
  {
  }

  /**
   * The money identities of an applicable strategy: the development cost is
   * the land plus every cost line; GST is charged only on a GDV above the
   * land cost; profit is the GDV less the cost and GST; the margin is
   * profit as a percentage of the cost; and a non-zero residual land value
   * plus the non-land costs, with a 20% margin on top, is the GDV.
   */
  lemma FinishIdentities(strategy: Strategy, exclusion: Exclusion, landPrice: real, w: Works)
    ensures var r := Finish(strategy, exclusion, landPrice, w);
      && r.isApplicable
      && r.tdc == r.landCost + r.demolition + r.siteWorks + r.construction + r.professionalFees + r.contingency
                  + r.statutoryCosts + r.financeCost + r.sellingCosts
      && r.landCost == landPrice
      && r.profit == r.gdv - r.tdc - MarginSchemeGst(r.gdv, r.landCost)
      && (r.gdv <= r.landCost ==> r.profit == r.gdv - r.tdc)
      && (r.tdc > 0.0 ==> r.marginPercent * r.tdc == r.profit * 100.0)
      && (r.tdc <= 0.0 ==> r.marginPercent == 0.0)
      && (r.rlv != 0.0 ==> (r.rlv + (r.tdc - r.landCost)) * 1.2 == r.gdv)
      && (r.construction > 0.0 ==> r.professionalFees == r.construction * 0.10 && r.contingency == r.construction * 0.075)
      && r.sellingCosts == r.gdv * 0.015
  {
    var r := Finish(strategy, exclusion, landPrice, w);
    if r.tdc > 0.0 {
      PercentTimesBase(r.profit, r.tdc);
    }
  }

  /** An applicable strategy's yield and notes are those of its own works. */
  lemma ApplicableKeepsWorks(strategy: Strategy, site: Site, costs: CostTable)
    requires Applicability(strategy, site).0
    ensures CalculateStrategy(strategy, site, costs).dwellings == SiteWorks(strategy, site, costs).dwellings
    ensures CalculateStrategy(strategy, site, costs).notes == SiteWorks(strategy, site, costs).notes
    ensures CalculateStrategy(strategy, site, costs).isApplicable
  {
  }

  /** Four or more townhouses, where they apply, are 4 to 6 dwellings. */
  lemma Townhouse4PlusYield(site: Site, costs: CostTable)
    ensures var r := CalculateStrategy(Townhouse4Plus, site, costs);
      r.isApplicable ==> 4 <= r.dwellings <= 6
  {
    if Applicability(Townhouse4Plus, site).0 {
      ApplicableKeepsWorks(Townhouse4Plus, site, costs);
      assert TruncToZero(1000.0 / 250.0) == 4;
      TruncMonotone(1000.0 / 250.0, site.landAreaSqm / 250.0);
    }
  }

  /** Selling lots, where it applies, makes at least 3 lots. */
  lemma SellLotsYield(site: Site, costs: CostTable)
    ensures var r := CalculateStrategy(SubdivideSellLots, site, costs);
      r.isApplicable ==> |r.notes| == 1 && r.notes[0].Lots? && r.notes[0].count >= 3
  {
    if Applicability(SubdivideSellLots, site).0 {
      ApplicableKeepsWorks(SubdivideSellLots, site, costs);
      assert TruncToZero(1200.0 / 400.0) == 3;
      TruncMonotone(1200.0 / 400.0, site.landAreaSqm / 400.0);
    }
  }

  /** A 3-storey walk-up, where it applies, holds at least 9 apartments; a 4+ storey building at least 30. */
  lemma ApartmentYield(site: Site, costs: CostTable)
    ensures var r := CalculateStrategy(Apartment3Storey, site, costs);
      r.isApplicable ==> r.dwellings >= 9
    ensures var r := CalculateStrategy(Apartment4Plus, site, costs);
      r.isApplicable ==> r.dwellings >= 30
  {
    WalkUpYield(site, costs);
    TowerYield(site, costs);
  }

  lemma WalkUpYield(site: Site, costs: CostTable)
    ensures var r := CalculateStrategy(Apartment3Storey, site, costs);
      r.isApplicable ==> r.dwellings >= 9
  {
    if Applicability(Apartment3Storey, site).0 {
      ApplicableKeepsWorks(Apartment3Storey, site, costs);
      assert TruncToZero(800.0 * 12.0 / 1000.0) == 9;
      TruncMonotone(800.0 * 12.0 / 1000.0, site.landAreaSqm * 12.0 / 1000.0);
    }
  }

  lemma TowerYield(site: Site, costs: CostTable)
    ensures var r := CalculateStrategy(Apartment4Plus, site, costs);
      r.isApplicable ==> r.dwellings >= 30
  {
    if Applicability(Apartment4Plus, site).0 {
      ApplicableKeepsWorks(Apartment4Plus, site, costs);
      assert TruncToZero(1500.0 * 20.0 / 1000.0) == 30;
      TruncMonotone(1500.0 * 20.0 / 1000.0, site.landAreaSqm * 20.0 / 1000.0);
    }
  }

  /** A rooming house, where it applies, has at least 12 rooms. */
  lemma RoomingHouseYield(site: Site, costs: CostTable)
    ensures var r := CalculateStrategy(RoomingHouse, site, costs);
      r.isApplicable ==> r.dwellings >= 12
  {
    if Applicability(RoomingHouse, site).0 {
      ApplicableKeepsWorks(RoomingHouse, site, costs);
      assert TruncToZero(400.0 * 3.0 / 100.0) == 12;
      TruncMonotone(400.0 * 3.0 / 100.0, site.landAreaSqm * 3.0 / 100.0);
    }
  }

  // ---------------------------------------------------------------------
  // All strategies.
  // ---------------------------------------------------------------------

  /** get_viable_strategies: the applicable strategies with at least the minimum margin, in order. */
  function ViableStrategies(strategies: seq<StrategyResult>, minMargin: real): (r: seq<StrategyResult>)
    ensures forall s | s in r :: s in strategies && s.isApplicable && s.marginPercent >= minMargin
    ensures forall s | s in strategies && s.isApplicable && s.marginPercent >= minMargin :: s in r
    ensures |r| <= |strategies|
  {
    if strategies == [] then []
    else
      var rest := ViableStrategies(strategies[1..], minMargin);
      var s := strategies[0];
      if s.isApplicable && s.marginPercent >= minMargin then [s] + rest else rest
  }

  datatype Key = ByProfit | ByMargin | ByRlv

  function KeyOf(s: StrategyResult, k: Key): real
  {
    match k
    case ByProfit => s.profit
    case ByMargin => s.marginPercent
    case ByRlv => s.rlv
  }

  /** Python max with a key: the first element whose key is largest. */
  function BestBy(xs: seq<StrategyResult>, k: Key): (i: nat)
    requires xs != []
    ensures i < |xs|
    ensures forall j | 0 <= j < |xs| :: KeyOf(xs[j], k) <= KeyOf(xs[i], k)
    ensures forall j | 0 <= j < i :: KeyOf(xs[j], k) < KeyOf(xs[i], k)
  {
    if |xs| == 1 then 0
    else
      var j := BestBy(xs[..|xs| - 1], k);
      if KeyOf(xs[|xs| - 1], k) > KeyOf(xs[j], k) then |xs| - 1 else j
  }

  /** The strategies with a positive profit that apply, in order. */
  function Profitable(strategies: seq<StrategyResult>): (r: seq<StrategyResult>)
    ensures forall s | s in r :: s in strategies && s.isApplicable && s.profit > 0.0
    ensures forall s | s in strategies && s.isApplicable && s.profit > 0.0 :: s in r
  {
    if strategies == [] then []
    else
      var rest := Profitable(strategies[1..]);
      if strategies[0].isApplicable && strategies[0].profit > 0.0 then [strategies[0]] + rest else rest
  }

  function BestOf(viable: seq<StrategyResult>, k: Key): Option<StrategyResult>
  {
    if viable == [] then None else Some(viable[BestBy(viable, k)])
  }

  /** The best of a non-empty list is in it and no key in the list exceeds its key. */
  lemma BestIsMax(xs: seq<StrategyResult>, k: Key)
    requires xs != []
    ensures BestOf(xs, k).Some? && BestOf(xs, k).value in xs
    ensures forall s | s in xs :: KeyOf(s, k) <= KeyOf(BestOf(xs, k).value, k)
  {
    var i := BestBy(xs, k);
    forall s | s in xs
      ensures KeyOf(s, k) <= KeyOf(xs[i], k)
    {
      var j :| 0 <= j < |xs| && xs[j] == s;
    }
  }

  datatype MultiStrategyResult = MultiStrategyResult(
    siteAddress: string, landAreaSqm: real, frontageM: real, zoneCode: string,
    strategies: seq<StrategyResult>,
    bestByProfit: Option<StrategyResult>, bestByMargin: Option<StrategyResult>, bestByRlv: Option<StrategyResult>)

  /** One result per strategy, in order. */
  function CalculateAll(strategies: seq<Strategy>, site: Site, costs: CostTable): (r: seq<StrategyResult>)
    ensures |r| == |strategies|
  {
    if strategies == [] then []
    else CalculateAll(strategies[..|strategies| - 1], site, costs)
         + [CalculateStrategy(strategies[|strategies| - 1], site, costs)]
  }

  /** The i-th result is the i-th strategy's calculation. */
  lemma {:induction false} CalculateAllPointwise(strategies: seq<Strategy>, site: Site, costs: CostTable)
    ensures forall i | 0 <= i < |strategies| ::
      CalculateAll(strategies, site, costs)[i] == CalculateStrategy(strategies[i], site, costs)
  {
    if strategies != [] {
      var prefix := strategies[..|strategies| - 1];
      CalculateAllPointwise(prefix, site, costs);
      var all := CalculateAll(strategies, site, costs);
      var before := CalculateAll(prefix, site, costs);
      assert all == before + [CalculateStrategy(strategies[|prefix|], site, costs)];
      forall i | 0 <= i < |strategies| ensures all[i] == CalculateStrategy(strategies[i], site, costs) {
        if i < |prefix| {
          assert all[i] == before[i] && prefix[i] == strategies[i];
        }
      }
    }
  }

  /** The loop of evaluate_all_strategies: one result per strategy, in order. */
  method CalculateEach(strategies: seq<Strategy>, site: Site, costs: CostTable) returns (results: seq<StrategyResult>)
    ensures results == CalculateAll(strategies, site, costs)
  {
    results := [];
    var i := 0;
    while i < |strategies|
      invariant 0 <= i <= |strategies|
      invariant results == CalculateAll(strategies[..i], site, costs)
    {
      var r := CalculateStrategy(strategies[i], site, costs);
      assert strategies[..i + 1][..i] == strategies[..i];
      results := results + [r];
      i := i + 1;
    }
    assert strategies[..i] == strategies;
  }

  /**
   * evaluate_all_strategies: one result per strategy, in declaration order,
   * and, exactly when some applicable strategy makes a profit, the best of
   * those by profit, by margin and by residual land value.
   */
  method EvaluateAllStrategies(site: Site, address: string, costs: CostTable) returns (m: MultiStrategyResult)
    ensures |m.strategies| == |AllStrategies|
    ensures forall i | 0 <= i < |AllStrategies| :: m.strategies[i] == CalculateStrategy(AllStrategies[i], site, costs)
    ensures m.siteAddress == address && m.landAreaSqm == site.landAreaSqm && m.zoneCode == site.zoneCode
    ensures var viable := Profitable(m.strategies);
      && (m.bestByProfit.Some? <==> viable != [])
      && (m.bestByMargin.Some? <==> viable != [])
      && (m.bestByRlv.Some? <==> viable != [])
      && (viable != [] ==>
            && m.bestByProfit.value in viable && m.bestByMargin.value in viable && m.bestByRlv.value in viable
            && (forall s | s in viable :: s.profit <= m.bestByProfit.value.profit)
            && (forall s | s in viable :: s.marginPercent <= m.bestByMargin.value.marginPercent)
            && (forall s | s in viable :: s.rlv <= m.bestByRlv.value.rlv))
  {
    var results := CalculateEach(AllStrategies, site, costs);
    CalculateAllPointwise(AllStrategies, site, costs);
    var viable := Profitable(results);
    m := MultiStrategyResult(address, site.landAreaSqm, site.frontageM, site.zoneCode, results,
                             BestOf(viable, ByProfit), BestOf(viable, ByMargin), BestOf(viable, ByRlv));
    BestOfEach(viable);
  }

  /** The three bests exist exactly when the list is non-empty, and each is the largest by its own key. */
  lemma BestOfEach(viable: seq<StrategyResult>)
    ensures BestOf(viable, ByProfit).Some? <==> viable != []
    ensures BestOf(viable, ByMargin).Some? <==> viable != []
    ensures BestOf(viable, ByRlv).Some? <==> viable != []
    ensures viable != [] ==>
      && BestOf(viable, ByProfit).value in viable && BestOf(viable, ByMargin).value in viable
      && BestOf(viable, ByRlv).value in viable
      && (forall s | s in viable :: s.profit <= BestOf(viable, ByProfit).value.profit)
      && (forall s | s in viable :: s.marginPercent <= BestOf(viable, ByMargin).value.marginPercent)
      && (forall s | s in viable :: s.rlv <= BestOf(viable, ByRlv).value.rlv)
  {
    if viable != [] {
      BestIsMax(viable, ByProfit);
      BestIsMax(viable, ByMargin);
      BestIsMax(viable, ByRlv);
    }
  }
}
