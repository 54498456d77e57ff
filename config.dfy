/**
 * The scanner configuration's lookups: zone parameters with an exact, then
 * a base-zone prefix, then a default fallback, and overlay constraint
 * severities with an exact, then a base-code, then a zero fallback.  The
 * YAML file is read elsewhere; its parsed tables are the configuration.
 */
module ScannerConfig {
  import opened Wrappers
  import opened Text

  /** Zone-specific development parameters. */
  datatype ZoneParams = ZoneParams(siteCoverageMax: real, gardenAreaMin: Option<real>, heightLimitM: Option<real>,
                                   maxDwellings: Option<int>, yieldFactor: real)

  const DefaultZoneParams: ZoneParams := ZoneParams(0.60, None, None, None, 0.002)

  /** The parsed configuration: zones in file order, and severities by overlay code. */
  datatype Config = Config(zones: seq<(string, ZoneParams)>, constraints: map<string, int>)

  /** The zone code without its digits ("GRZ1" gives "GRZ"). */
  function BaseZone(zoneCode: string): string
  {
    DropDigits(zoneCode)
  }

  /** The index of the first zone whose key satisfies the test, or |zones|. */
  function FirstKeyEqual(zones: seq<(string, ZoneParams)>, code: string): (k: nat)
    ensures k <= |zones|
    ensures k < |zones| ==> zones[k].0 == code
    ensures forall i | 0 <= i < k :: zones[i].0 != code
  {
    if zones == [] then 0
    else if zones[0].0 == code then 0
    else FirstKeyEqual(zones[1..], code) + 1
  }

  function FirstKeyPrefixed(zones: seq<(string, ZoneParams)>, prefix: string): (k: nat)
    ensures k <= |zones|
    ensures k < |zones| ==> StartsWith(zones[k].0, prefix)
    ensures forall i | 0 <= i < k :: !StartsWith(zones[i].0, prefix)
  {
    if zones == [] then 0
    else if StartsWith(zones[0].0, prefix) then 0
    else FirstKeyPrefixed(zones[1..], prefix) + 1
  }

  /** get_zone_params. */
  function GetZoneParams(c: Config, zoneCode: string): ZoneParams
  {
    var exact := FirstKeyEqual(c.zones, zoneCode);
    if exact < |c.zones| then c.zones[exact].1
    else
      var k := FirstKeyPrefixed(c.zones, BaseZone(zoneCode));
      if k < |c.zones| then c.zones[k].1 else DefaultZoneParams
  }

  /**
   * The three tiers of get_zone_params: an exact key wins; otherwise the
   * first key, in file order, that starts with the digit-free zone code;
   * otherwise the defaults.  A zone code made only of digits matches the
   * first zone.
   */
  lemma ZoneParamsFallback(c: Config, zoneCode: string)
    ensures forall i | 0 <= i < |c.zones| && c.zones[i].0 == zoneCode && (forall j | 0 <= j < i :: c.zones[j].0 != zoneCode) ::
      GetZoneParams(c, zoneCode) == c.zones[i].1
    ensures (forall i | 0 <= i < |c.zones| :: c.zones[i].0 != zoneCode) ==>
      forall i | 0 <= i < |c.zones| && StartsWith(c.zones[i].0, BaseZone(zoneCode))
                 && (forall j | 0 <= j < i :: !StartsWith(c.zones[j].0, BaseZone(zoneCode))) ::
        GetZoneParams(c, zoneCode) == c.zones[i].1
    ensures (forall i | 0 <= i < |c.zones| :: c.zones[i].0 != zoneCode && !StartsWith(c.zones[i].0, BaseZone(zoneCode))) ==>
      GetZoneParams(c, zoneCode) == DefaultZoneParams
    ensures BaseZone(zoneCode) == "" && c.zones != [] && (forall i | 0 <= i < |c.zones| :: c.zones[i].0 != zoneCode) ==>
      GetZoneParams(c, zoneCode) == c.zones[0].1
  {
    var exact := FirstKeyEqual(c.zones, zoneCode);
    var k := FirstKeyPrefixed(c.zones, BaseZone(zoneCode));
    if BaseZone(zoneCode) == "" && c.zones != [] {
      assert StartsWith(c.zones[0].0, "");
    }
  }

  /**
   * get_constraint_severity: an exact code wins, then the digit-free code
   * ("HO123" gives "HO"), otherwise severity 0.
   */
  function GetConstraintSeverity(c: Config, overlayCode: string): (r: int)
    ensures overlayCode in c.constraints ==> r == c.constraints[overlayCode]
    ensures overlayCode !in c.constraints && DropDigits(overlayCode) in c.constraints ==> r == c.constraints[DropDigits(overlayCode)]
    ensures r != 0 ==> overlayCode in c.constraints || DropDigits(overlayCode) in c.constraints
  {
    if overlayCode in c.constraints then c.constraints[overlayCode]
    else
      var base := BaseZone(overlayCode);
      if base in c.constraints then c.constraints[base] else 0
  }
}
