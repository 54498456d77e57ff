/**
 * Low Density Residential Zone subdivision checks: zone detection, minimum
 * lot size, overlay risk buckets, the suburb sewerage heuristic, the
 * transmission setback tiers and impact, and the combined assessment.  The
 * zone and overlay lookups at the point are inputs.
 */
module LdrzChecks {
  import opened Wrappers
  import opened Text
  import opened GisClients

  // ---------------------------------------------------------------------
  // Zone detection and minimum lot size.
  // ---------------------------------------------------------------------

  const LdrzPrefixes: seq<string> := ["LDRZ", "LDRZ1", "LDRZ2", "LDRZ-", "LOW DENSITY RESIDENTIAL"]

  function AnyPrefix(s: string, prefixes: seq<string>): (b: bool)
    ensures b <==> exists i | 0 <= i < |prefixes| :: StartsWith(s, prefixes[i])
  {
    if prefixes == [] then false
    else StartsWith(s, prefixes[0]) || AnyPrefix(s, prefixes[1..])
  }

  /** is_ldrz_zone: an empty code is not LDRZ; otherwise the upper-cased, stripped code must start with an LDRZ prefix. */
  function IsLdrzZone(zoneCode: string): bool
  {
    if zoneCode == "" then false else AnyPrefix(Strip(Upper(zoneCode)), LdrzPrefixes)
  }

  /** The longer prefixes add nothing: a code is LDRZ exactly when it starts with "LDRZ" or "LOW DENSITY RESIDENTIAL". */
  lemma IsLdrzZoneTwoPrefixes(zoneCode: string)
    ensures IsLdrzZone(zoneCode) <==>
      zoneCode != "" && (StartsWith(Strip(Upper(zoneCode)), "LDRZ") || StartsWith(Strip(Upper(zoneCode)), "LOW DENSITY RESIDENTIAL"))
  {
    var s := Strip(Upper(zoneCode));
    if zoneCode != "" {
      if AnyPrefix(s, LdrzPrefixes) {
        var i :| 0 <= i < |LdrzPrefixes| && StartsWith(s, LdrzPrefixes[i]);
        var p := LdrzPrefixes[i];
        if 0 < i < 4 {
          assert p[..4] == "LDRZ";
          assert s[..4] == s[..|p|][..4] == p[..4];
        }
      }
      if StartsWith(s, "LDRZ") {
        assert StartsWith(s, LdrzPrefixes[0]);
      }
      if StartsWith(s, "LOW DENSITY RESIDENTIAL") {
        assert StartsWith(s, LdrzPrefixes[4]);
      }
    }
  }

  /** get_ldrz_min_lot_size. */
  function MinLotSize(hasSewerage: bool): (m: nat)
    ensures m == 2000 || m == 4000
    ensures hasSewerage <==> m == 2000
  {
    if hasSewerage then 2000 else 4000
  }

  // ---------------------------------------------------------------------
  // Overlay restrictions.
  // ---------------------------------------------------------------------

  datatype Risk = High | Medium | Low

  const RestrictiveOverlays: seq<(string, string, Risk)> := [
    ("ESO", "Environmental Significance Overlay", High),
    ("SLO", "Significant Landscape Overlay", High),
    ("VPO", "Vegetation Protection Overlay", High),
    ("BMO", "Bushfire Management Overlay", High),
    ("LSIO", "Land Subject to Inundation Overlay", High),
    ("FO", "Floodway Overlay", High),
    ("NCO", "Neighbourhood Character Overlay", Medium),
    ("DDO", "Design and Development Overlay", Medium),
    ("DPO", "Development Plan Overlay", Medium),
    ("HO", "Heritage Overlay", Medium),
    ("EAO", "Environmental Audit Overlay", Low)
  ]

  /** The table entry for a base code, if any. */
  function LookupOverlay(base: string, table: seq<(string, string, Risk)>): (r: Option<(string, Risk)>)
    ensures r.Some? <==> exists i | 0 <= i < |table| :: table[i].0 == base
    ensures r.Some? ==> exists i | 0 <= i < |table| :: table[i] == (base, r.value.0, r.value.1)
  {
    if table == [] then None
    else if table[0].0 == base then Some((table[0].1, table[0].2))
    else LookupOverlay(base, table[1..])
  }

  /** The base code: the code without its digits, upper-cased ("ESO1" gives "ESO"). */
  function BaseCode(code: string): string
  {
    Upper(DropDigits(code))
  }

  /** The risk an overlay code carries, if it is restrictive at all. */
  function RiskOf(code: string): Option<(string, Risk)>
  {
    if code == "" then None else LookupOverlay(BaseCode(code), RestrictiveOverlays)
  }

  datatype RiskEntry = RiskEntry(code: string, name: string)
  datatype OverlayNote = MayRestrict(code: string) | NeedsApprovals(code: string)

  datatype OverlayAssessment = OverlayAssessment(hasRestrictions: bool, high: seq<RiskEntry>, medium: seq<RiskEntry>,
                                                 low: seq<RiskEntry>, notes: seq<OverlayNote>, canSubdivide: bool)

  /** The buckets and notes after the first |overlays| overlays. */
  datatype Buckets = Buckets(high: seq<RiskEntry>, medium: seq<RiskEntry>, low: seq<RiskEntry>, notes: seq<OverlayNote>)

  function BucketStep(b: Buckets, code: string): Buckets
  {
    match RiskOf(code)
    case None => b
    case Some((name, risk)) =>
      match risk
      case High => Buckets(b.high + [RiskEntry(code, name)], b.medium, b.low, b.notes + [MayRestrict(code)])
      case Medium => Buckets(b.high, b.medium + [RiskEntry(code, name)], b.low, b.notes + [NeedsApprovals(code)])
      case Low => Buckets(b.high, b.medium, b.low + [RiskEntry(code, name)], b.notes)
  }

  function BucketAll(overlays: seq<Overlay>): Buckets
  {
    if overlays == [] then Buckets([], [], [], [])
    else BucketStep(BucketAll(overlays[..|overlays| - 1]), overlays[|overlays| - 1].code)
  }

  function Assessment(b: Buckets): OverlayAssessment
  {
    OverlayAssessment(b.high != [] || b.medium != [] || b.low != [], b.high, b.medium, b.low, b.notes, b.high == [])
  }

  /** How many of the overlays carry the given risk. */
  function CountRisk(overlays: seq<Overlay>, risk: Risk): nat
  {
    if overlays == [] then 0
    else
      var r := RiskOf(overlays[|overlays| - 1].code);
      CountRisk(overlays[..|overlays| - 1], risk) + (if r.Some? && r.value.1 == risk then 1 else 0)
  }

  /**
   * Each bucket receives exactly the overlays of its risk, with one note per
   * high or medium overlay; subdivision stays possible exactly when no
   * overlay is high-risk, and there are restrictions exactly when some
   * overlay is restrictive.
   */
  lemma BucketCounts(overlays: seq<Overlay>)
    ensures var b := BucketAll(overlays);
      && |b.high| == CountRisk(overlays, High)
      && |b.medium| == CountRisk(overlays, Medium)
      && |b.low| == CountRisk(overlays, Low)
      && |b.notes| == |b.high| + |b.medium|
      && forall e | e in b.high :: RiskOf(e.code).Some? && RiskOf(e.code).value.1 == High
  {
    BucketRiskCount(overlays, High);
    BucketRiskCount(overlays, Medium);
    BucketRiskCount(overlays, Low);
    BucketNotesCount(overlays);
    BucketHighEntries(overlays);
  }

  /** The bucket that receives the overlays of the given risk. */
  function Bucket(b: Buckets, risk: Risk): seq<RiskEntry>
  {
    match risk
    case High => b.high
    case Medium => b.medium
    case Low => b.low
  }

  lemma {:induction false} BucketRiskCount(overlays: seq<Overlay>, risk: Risk)
    ensures |Bucket(BucketAll(overlays), risk)| == CountRisk(overlays, risk)
  {
    if overlays != [] {
      BucketRiskCount(overlays[..|overlays| - 1], risk);
    }
  }

  lemma {:induction false} BucketNotesCount(overlays: seq<Overlay>)
    ensures var b := BucketAll(overlays); |b.notes| == |b.high| + |b.medium|
  {
    if overlays != [] {
      BucketNotesCount(overlays[..|overlays| - 1]);
    }
  }

  lemma {:induction false} BucketHighEntries(overlays: seq<Overlay>)
    ensures forall e | e in BucketAll(overlays).high :: RiskOf(e.code).Some? && RiskOf(e.code).value.1 == High
  {
    if overlays != [] {
      BucketHighEntries(overlays[..|overlays| - 1]);
    }
  }

  lemma AssessmentFlags(overlays: seq<Overlay>)
    ensures var a := Assessment(BucketAll(overlays));
      && (a.canSubdivide <==> CountRisk(overlays, High) == 0)
      && (a.hasRestrictions <==> CountRisk(overlays, High) + CountRisk(overlays, Medium) + CountRisk(overlays, Low) > 0)
  {
    BucketCounts(overlays);
  }

  /** The loop of assess_overlays_for_subdivision over the overlays found at the point. */
  method AssessOverlaysForSubdivision(overlays: seq<Overlay>) returns (a: OverlayAssessment)
    ensures a == Assessment(BucketAll(overlays))
  {
    var high: seq<RiskEntry> := [];
    var medium: seq<RiskEntry> := [];
    var low: seq<RiskEntry> := [];
    var notes: seq<OverlayNote> := [];
    var i := 0;
    while i < |overlays|
      invariant 0 <= i <= |overlays|
      invariant BucketAll(overlays[..i]) == Buckets(high, medium, low, notes)
    {
      assert overlays[..i + 1][..i] == overlays[..i];
      var code := overlays[i].code;
      var entry := RiskOf(code);
      if entry.Some? {
        var name := entry.value.0;
        if entry.value.1 == High {
          high := high + [RiskEntry(code, name)];
          notes := notes + [MayRestrict(code)];
        } else if entry.value.1 == Medium {
          medium := medium + [RiskEntry(code, name)];
          notes := notes + [NeedsApprovals(code)];
        } else {
          low := low + [RiskEntry(code, name)];
        }
      }
      i := i + 1;
    }
    assert overlays[..i] == overlays;
    a := OverlayAssessment(high != [] || medium != [] || low != [], high, medium, low, notes, high == []);
  }

  // ---------------------------------------------------------------------
  // Sewerage heuristic.
  // ---------------------------------------------------------------------

  datatype SewerStatus = Sewered | Unsewered | Partial

  const SeweredSuburbs: seq<(string, SewerStatus)> := [
    ("donvale", Sewered), ("templestowe", Sewered), ("templestowe lower", Sewered), ("bulleen", Sewered),
    ("doncaster", Sewered), ("doncaster east", Sewered), ("park orchards", Partial), ("warrandyte", Partial),
    ("wonga park", Partial), ("eltham", Sewered), ("eltham north", Partial), ("research", Unsewered),
    ("kangaroo ground", Unsewered), ("hurstbridge", Unsewered), ("diamond creek", Sewered),
    ("chirnside park", Sewered), ("mooroolbark", Sewered), ("lilydale", Sewered), ("mount evelyn", Partial),
    ("montrose", Partial), ("kilsyth", Sewered)
  ]

  function LookupSuburb(key: string, table: seq<(string, SewerStatus)>): Option<SewerStatus>
  {
    if table == [] then None
    else if table[0].0 == key then Some(table[0].1)
    else LookupSuburb(key, table[1..])
  }

  datatype Confidence = HighConfidence | MediumConfidence | LowConfidence

  datatype SewerNote = MostlySewered(suburb: string) | TypicallyUnsewered(suburb: string)
                     | PartialCoverage(suburb: string) | UnknownStatus

  datatype SewerageAssessment = SewerageAssessment(likelySewered: Option<bool>, confidence: Confidence,
                                                   minLotSize: nat, note: SewerNote, verificationRequired: bool)

  /** estimate_sewerage_availability: the suburb table, keyed by the lower-cased, stripped name. */
  function EstimateSewerage(suburb: Option<string>): (a: SewerageAssessment)
    ensures a.verificationRequired
    ensures a.minLotSize == MinLotSize(a.likelySewered == Some(true))
    ensures a.likelySewered.None? ==> a.confidence == LowConfidence && a.minLotSize == 4000
    ensures a.likelySewered.Some? <==>
      suburb.Some? && suburb.value != ""
      && LookupSuburb(Strip(Lower(suburb.value)), SeweredSuburbs) in {Some(Sewered), Some(Unsewered)}
  {
    var status := if suburb.Some? && suburb.value != "" then LookupSuburb(Strip(Lower(suburb.value)), SeweredSuburbs) else None;
    match status
    case Some(Sewered) => SewerageAssessment(Some(true), MediumConfidence, 2000, MostlySewered(suburb.value), true)
    case Some(Unsewered) => SewerageAssessment(Some(false), MediumConfidence, 4000, TypicallyUnsewered(suburb.value), true)
    case Some(Partial) => SewerageAssessment(None, LowConfidence, 4000, PartialCoverage(suburb.value), true)
    case None => SewerageAssessment(None, LowConfidence, 4000, UnknownStatus, true)
  }

  // ---------------------------------------------------------------------
  // Transmission setbacks and impact.
  // ---------------------------------------------------------------------

  datatype ImpactRisk = LowRisk | MediumRisk | HighRisk | CriticalRisk

  datatype Setback = Setback(easementWidth: nat, buildingSetback: nat, risk: ImpactRisk)

  /** The setback tiers in ascending voltage order. */
  const SetbackTiers: seq<(int, Setback)> := [
    (22, Setback(12, 5, LowRisk)),
    (66, Setback(25, 10, MediumRisk)),
    (132, Setback(35, 15, HighRisk)),
    (220, Setback(45, 20, HighRisk)),
    (330, Setback(55, 25, HighRisk)),
    (500, Setback(70, 30, CriticalRisk))
  ]

  function FirstTierAtLeast(voltageKv: int, tiers: seq<(int, Setback)>): Option<Setback>
  {
    if tiers == [] then None
    else if voltageKv <= tiers[0].0 then Some(tiers[0].1)
    else FirstTierAtLeast(voltageKv, tiers[1..])
  }

  /** get_transmission_setback: the smallest tier at or above the voltage, else the 500 kV tier. */
  function TransmissionSetback(voltageKv: int): Setback
  {
    var t := FirstTierAtLeast(voltageKv, SetbackTiers);
    if t.Some? then t.value else SetbackTiers[5].1
  }

  /** The tier a voltage falls in, written out as ranges. */
  lemma SetbackRanges(voltageKv: int)
    ensures TransmissionSetback(voltageKv) ==
      if voltageKv <= 22 then Setback(12, 5, LowRisk)
      else if voltageKv <= 66 then Setback(25, 10, MediumRisk)
      else if voltageKv <= 132 then Setback(35, 15, HighRisk)
      else if voltageKv <= 220 then Setback(45, 20, HighRisk)
      else if voltageKv <= 330 then Setback(55, 25, HighRisk)
      else Setback(70, 30, CriticalRisk)
  {
    var v := voltageKv;
    var t0 := SetbackTiers;
    var t1 := t0[1..];
    var t2 := t1[1..];
    var t3 := t2[1..];
    var t4 := t3[1..];
    var t5 := t4[1..];
    var t6 := t5[1..];
    assert t6 == [];
    assert FirstTierAtLeast(v, t5) == if v <= 500 then Some(Setback(70, 30, CriticalRisk)) else None;
    assert FirstTierAtLeast(v, t4) == if v <= 330 then Some(Setback(55, 25, HighRisk)) else FirstTierAtLeast(v, t5);
    assert FirstTierAtLeast(v, t3) == if v <= 220 then Some(Setback(45, 20, HighRisk)) else FirstTierAtLeast(v, t4);
    assert FirstTierAtLeast(v, t2) == if v <= 132 then Some(Setback(35, 15, HighRisk)) else FirstTierAtLeast(v, t3);
    assert FirstTierAtLeast(v, t1) == if v <= 66 then Some(Setback(25, 10, MediumRisk)) else FirstTierAtLeast(v, t2);
    assert FirstTierAtLeast(v, t0) == if v <= 22 then Some(Setback(12, 5, LowRisk)) else FirstTierAtLeast(v, t1);
  }

  /** A higher voltage never needs a narrower easement or a smaller building setback. */
  lemma SetbackMonotone(v1: int, v2: int)
    requires v1 <= v2
    ensures TransmissionSetback(v1).easementWidth <= TransmissionSetback(v2).easementWidth
    ensures TransmissionSetback(v1).buildingSetback <= TransmissionSetback(v2).buildingSetback
  {
    SetbackRanges(v1);
    SetbackRanges(v2);
  }

  datatype ImpactLevel = CriticalImpact | HighImpact | LowImpact | NoImpact
  datatype ImpactReason = CrossesProperty(voltageKv: int) | EasementAtEdge(voltageKv: int)
                        | NearbyOutside(voltageKv: int) | NoNearbyLines

  datatype TransmissionImpact = TransmissionImpact(impact: ImpactLevel, reason: ImpactReason,
                                                   unusableSqm: Option<real>, usableSqm: Option<real>,
                                                   mayPreventSubdivision: bool)

  /** assess_transmission_impact. */
  function AssessTransmissionImpact(voltageKv: int, distanceM: real, landSizeSqm: real): TransmissionImpact
  {
    var width := TransmissionSetback(voltageKv).easementWidth as real;
    if distanceM <= width / 2.0 then
      var unusable := width * 100.0;
      var usable := if 0.0 >= landSizeSqm - unusable then 0.0 else landSizeSqm - unusable;
      TransmissionImpact(CriticalImpact, CrossesProperty(voltageKv), Some(unusable), Some(usable), usable < 4000.0)
    else if distanceM <= width then
      TransmissionImpact(HighImpact, EasementAtEdge(voltageKv), None, None, false)
    else if distanceM <= 100.0 then
      TransmissionImpact(LowImpact, NearbyOutside(voltageKv), None, None, false)
    else
      TransmissionImpact(NoImpact, NoNearbyLines, None, None, false)
  }

  /**
   * Only a line inside half the easement width is critical; then the usable
   * area is the land less 100 m of easement, never negative, and it may
   * prevent subdivision exactly when under 4000 sqm.  Farther lines never
   * prevent subdivision, and beyond 100 m (and the easement) there is no impact.
   */
  lemma TransmissionImpactCases(voltageKv: int, distanceM: real, landSizeSqm: real)
    ensures var t := AssessTransmissionImpact(voltageKv, distanceM, landSizeSqm);
      var w := TransmissionSetback(voltageKv).easementWidth as real;
      && (t.impact == CriticalImpact <==> distanceM <= w / 2.0)
      && (t.impact == CriticalImpact ==>
            && t.unusableSqm == Some(w * 100.0)
            && t.usableSqm.value >= 0.0
            && t.usableSqm.value >= landSizeSqm - w * 100.0
            && (t.usableSqm.value == 0.0 || t.usableSqm.value == landSizeSqm - w * 100.0)
            && (t.mayPreventSubdivision <==> t.usableSqm.value < 4000.0))
      && (t.mayPreventSubdivision ==> t.impact == CriticalImpact)
      && (t.impact == NoImpact <==> distanceM > w && distanceM > 100.0)
  {
  }

  // ---------------------------------------------------------------------
  // The combined assessment.
  // ---------------------------------------------------------------------

  /** The transmission check's result as passed in: None stands for None or an empty dictionary. */
  datatype TransmissionInfo = TransmissionInfo(voltageKv: Option<int>, distanceM: Option<real>)

  datatype Reason = NotLdrz(zoneCode: Option<string>) | CanSubdivide(lots: nat, minLot: nat)
                  | BelowThreshold(landSizeSqm: real) | TooSmall(landSizeSqm: real, minLot: nat)

  datatype Warning = IfUnsewered(lots: nat) | OverlayNoteWarning(note: OverlayNote)
                   | TransmissionMayPrevent(reason: ImpactReason)

  datatype NextStep = VerifySewerage | PreApplicationMeeting | TitleSearch | ConfirmFrontage | PreApplicationCouncil

  datatype LdrzAssessment = LdrzAssessment(isLdrz: bool, zoneCode: Option<string>, landSizeSqm: real,
                                           sewerage: SewerageAssessment, minLotSize: nat, maxLots: nat,
                                           subdividable: bool, overlays: OverlayAssessment,
                                           transmission: Option<TransmissionImpact>, feasible: bool,
                                           reasons: seq<Reason>, warnings: seq<Warning>, nextSteps: seq<NextStep>)

  /** The lot potential: max lots and whether the land can be subdivided. */
  function LotPotential(landSizeSqm: real, minLot: nat): (r: (nat, bool))
    requires minLot > 0
    ensures r.1 <==> landSizeSqm >= 2.0 * minLot as real
    ensures r.1 ==> r.0 >= 2 && r.0 as real * minLot as real <= landSizeSqm < (r.0 + 1) as real * minLot as real
    ensures !r.1 ==> r.0 == 1
  {
    if landSizeSqm >= (minLot * 2) as real then
      var lots := (landSizeSqm / minLot as real).Floor;
      FloorLots(landSizeSqm, minLot as real, lots);
      (lots, true)
    else (1, false)
  }

  lemma FloorLots(land: real, m: real, lots: int)
    requires m > 0.0 && land >= 2.0 * m && lots == (land / m).Floor
    ensures lots >= 2
    ensures lots as real * m <= land
    ensures land < (lots as real + 1.0) * m
  {
    var q := land / m;
    assert q * m == land;
    assert q >= 2.0 by {
      if q < 2.0 {
        MulStrict(q, 2.0, m);
      }
    }
    assert lots as real <= q < lots as real + 1.0;
    assert lots >= 2;
    ScaledFloorBounds(land, m, q, lots as real);
  }

  /** A value f at most land / m and within 1 of it gives f * m <= land < (f + 1) * m. */
  lemma ScaledFloorBounds(land: real, m: real, q: real, f: real)
    requires m > 0.0 && q == land / m && f <= q < f + 1.0
    ensures f * m <= land < (f + 1.0) * m
  {
    assert q * m == land;
    MulMono(f, q, m);
    MulStrict(q, f + 1.0, m);
  }

  lemma MulMono(a: real, b: real, m: real)
    requires a <= b && m > 0.0
    ensures a * m <= b * m
  {
  }

  lemma MulStrict(a: real, b: real, m: real)
    requires a < b && m > 0.0
    ensures a * m < b * m
  {
  }

  function OverlayWarnings(notes: seq<OverlayNote>): (r: seq<Warning>)
    ensures |r| == |notes|
    ensures forall i | 0 <= i < |notes| :: r[i] == OverlayNoteWarning(notes[i])
  {
    seq(|notes|, i requires 0 <= i < |notes| => OverlayNoteWarning(notes[i]))
  }

  /**
   * assess_ldrz_subdivision.  `zones` and `overlays` are the planning
   * lookups at the point.
   */
  function AssessLdrzSubdivision(zones: seq<Zone>, overlays: seq<Overlay>, landSizeSqm: real,
                                 suburb: Option<string>, transmissionInfo: Option<TransmissionInfo>): LdrzAssessment
  {
    var zoneCode := if zones != [] then Some(zones[0].code) else None;
    var isLdrz := zoneCode.Some? && zoneCode.value != "" && IsLdrzZone(zoneCode.value);
    var reasons1: seq<Reason> := if !isLdrz then [NotLdrz(zoneCode)] else [];

    var sewerage := EstimateSewerage(suburb);
    var minLot := sewerage.minLotSize;
    var steps1: seq<NextStep> := if sewerage.verificationRequired then [VerifySewerage] else [];

    var (maxLots, subdividable) := LotPotential(landSizeSqm, minLot);
    var reasons2 :=
      if subdividable then (if sewerage.likelySewered == Some(true) then reasons1 + [CanSubdivide(maxLots, minLot)] else reasons1)
      else if landSizeSqm >= minLot as real then reasons1 + [BelowThreshold(landSizeSqm)]
      else reasons1 + [TooSmall(landSizeSqm, minLot)];
    var warnings1: seq<Warning> :=
      if subdividable && sewerage.likelySewered != Some(true) then [IfUnsewered((landSizeSqm / 4000.0).Floor as nat)] else [];

    var oa := Assessment(BucketAll(overlays));
    var warnings2 := if oa.high != [] then warnings1 + OverlayWarnings(oa.notes) else warnings1;
    var steps2 := if oa.high != [] then steps1 + [PreApplicationMeeting] else steps1;

    var impact :=
      if transmissionInfo.Some? then
        var info := transmissionInfo.value;
        Some(AssessTransmissionImpact(if info.voltageKv.Some? then info.voltageKv.value else 0,
                                      if info.distanceM.Some? then info.distanceM.value else 1000.0, landSizeSqm))
      else None;
    var warnings3 := if impact.Some? && impact.value.mayPreventSubdivision
      then warnings2 + [TransmissionMayPrevent(impact.value.reason)] else warnings2;

    var feasible := isLdrz && subdividable && oa.canSubdivide && !(impact.Some? && impact.value.mayPreventSubdivision);
    var steps3 := if feasible then steps2 + [TitleSearch, ConfirmFrontage, PreApplicationCouncil] else steps2;

    LdrzAssessment(isLdrz, zoneCode, landSizeSqm, sewerage, minLot, maxLots, subdividable, oa, impact, feasible,
                   reasons2, warnings3, steps3)
  }

  /**
   * The overall verdict: feasible exactly when the zone is LDRZ, the land
   * holds two minimum lots, no overlay is high-risk and no transmission
   * line may prevent subdivision.
   */
  lemma LdrzFeasibleIff(zones: seq<Zone>, overlays: seq<Overlay>, landSizeSqm: real,
                        suburb: Option<string>, transmissionInfo: Option<TransmissionInfo>)
    ensures var a := AssessLdrzSubdivision(zones, overlays, landSizeSqm, suburb, transmissionInfo);
      a.feasible <==>
        && zones != [] && IsLdrzZone(zones[0].code)
        && landSizeSqm >= 2.0 * a.minLotSize as real
        && CountRisk(overlays, High) == 0
        && !(a.transmission.Some? && a.transmission.value.mayPreventSubdivision)
  {
    AssessmentFlags(overlays);
  }

  /**
   * A feasible site can be cut into at least two lots of the minimum size
   * (2000 sqm when likely sewered, otherwise 4000), and no more.
   */
  lemma LdrzFeasibleLots(zones: seq<Zone>, overlays: seq<Overlay>, landSizeSqm: real,
                         suburb: Option<string>, transmissionInfo: Option<TransmissionInfo>)
    ensures var a := AssessLdrzSubdivision(zones, overlays, landSizeSqm, suburb, transmissionInfo);
      && a.minLotSize == MinLotSize(a.sewerage.likelySewered == Some(true))
      && (a.feasible ==> a.subdividable)
      && (a.subdividable ==>
            a.maxLots >= 2 && a.maxLots as real * a.minLotSize as real <= landSizeSqm < (a.maxLots + 1) as real * a.minLotSize as real)
      && (!a.subdividable ==> a.maxLots == 1)
  {
    LdrzMinLot(zones, overlays, landSizeSqm, suburb, transmissionInfo);
    LdrzLots(zones, overlays, landSizeSqm, suburb, transmissionInfo);
  }

  lemma LdrzMinLot(zones: seq<Zone>, overlays: seq<Overlay>, landSizeSqm: real,
                   suburb: Option<string>, transmissionInfo: Option<TransmissionInfo>)
    ensures var a := AssessLdrzSubdivision(zones, overlays, landSizeSqm, suburb, transmissionInfo);
      && a.minLotSize == MinLotSize(a.sewerage.likelySewered == Some(true))
      && (a.feasible ==> a.subdividable)
  {
  }

  lemma LdrzLots(zones: seq<Zone>, overlays: seq<Overlay>, landSizeSqm: real,
                 suburb: Option<string>, transmissionInfo: Option<TransmissionInfo>)
    ensures var a := AssessLdrzSubdivision(zones, overlays, landSizeSqm, suburb, transmissionInfo);
      && (a.subdividable ==>
            a.maxLots >= 2 && a.maxLots as real * a.minLotSize as real <= landSizeSqm < (a.maxLots + 1) as real * a.minLotSize as real)
      && (!a.subdividable ==> a.maxLots == 1)
  {
  }

  /**
   * A zone other than LDRZ is always the first reason, and sewerage
   * verification is always the first next step; the three closing steps
   * are added exactly when the site is feasible.
   */
  lemma LdrzFirstEntries(zones: seq<Zone>, overlays: seq<Overlay>, landSizeSqm: real,
                         suburb: Option<string>, transmissionInfo: Option<TransmissionInfo>)
    ensures var a := AssessLdrzSubdivision(zones, overlays, landSizeSqm, suburb, transmissionInfo);
      && (!a.isLdrz <==> a.reasons != [] && a.reasons[0].NotLdrz?)
      && a.nextSteps != [] && a.nextSteps[0] == VerifySewerage
      && (a.feasible <==> a.nextSteps[|a.nextSteps| - 1] == PreApplicationCouncil)
  {
  }
}
