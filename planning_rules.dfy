/** Planning rules: the maximum building footprint and the dwelling cap of a zone. */
module PlanningRules {
  import opened Wrappers
  import opened Numeric
  import opened Text
  import opened ScannerConfig

  datatype Constraint = Coverage(percent: real, maxSqm: real) | GardenLimit(percent: real, maxSqm: real)

  /**
   * calculate_max_footprint: the smaller of the site-coverage limit and,
   * when the zone sets a non-zero minimum garden area, the land outside it.
   */
  function CalculateMaxFootprint(c: Config, landArea: real, zoneCode: string): (r: (real, seq<Constraint>))
    ensures var rules := GetZoneParams(c, zoneCode);
      var coverage := landArea * rules.siteCoverageMax;
      var hasGarden := rules.gardenAreaMin.Some? && rules.gardenAreaMin.value != 0.0;
      var other := if hasGarden then landArea * (1.0 - rules.gardenAreaMin.value) else landArea;
      && r.0 <= coverage && r.0 <= other
      && (r.0 == coverage || r.0 == other)
      && |r.1| == (if hasGarden then 2 else 1)
      && r.1[0] == Coverage(rules.siteCoverageMax * 100.0, coverage)
      && (hasGarden ==> r.1[1] == GardenLimit(rules.gardenAreaMin.value * 100.0, other))
  {
    var rules := GetZoneParams(c, zoneCode);
    var maxCoverage := landArea * rules.siteCoverageMax;
    var constraints := [Coverage(rules.siteCoverageMax * 100.0, maxCoverage)];
    if rules.gardenAreaMin.Some? && rules.gardenAreaMin.value != 0.0 then
      var maxGarden := landArea * (1.0 - rules.gardenAreaMin.value);
      (Min(maxCoverage, maxGarden), constraints + [GardenLimit(rules.gardenAreaMin.value * 100.0, maxGarden)])
    else
      (Min(maxCoverage, landArea), constraints)
  }

  /**
   * check_yield_limits: the dwelling cap of the zone configured under the
   * code itself, else of the first zone named with its base code, else the
   * default (no cap).
   */
  function CheckYieldLimits(c: Config, zoneCode: string): (r: Option<int>)
    ensures forall i | 0 <= i < |c.zones| && c.zones[i].0 == zoneCode && (forall j | 0 <= j < i :: c.zones[j].0 != zoneCode) ::
      r == c.zones[i].1.maxDwellings
    ensures (forall i | 0 <= i < |c.zones| :: c.zones[i].0 != zoneCode) ==>
      forall i | 0 <= i < |c.zones| && StartsWith(c.zones[i].0, BaseZone(zoneCode))
        && (forall j | 0 <= j < i :: !StartsWith(c.zones[j].0, BaseZone(zoneCode))) ::
        r == c.zones[i].1.maxDwellings
    ensures (forall i | 0 <= i < |c.zones| :: c.zones[i].0 != zoneCode && !StartsWith(c.zones[i].0, BaseZone(zoneCode))) ==>
      r == DefaultZoneParams.maxDwellings
  {
    ZoneParamsFallback(c, zoneCode);
    GetZoneParams(c, zoneCode).maxDwellings
  }
}
