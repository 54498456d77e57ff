/**
 * Quick-kill screening: the verdict accumulator (reasons reject, warnings do
 * not), the nine independent checks of evaluate_quick_kill, and the counters
 * of a screening run.  Every spatial lookup is an input; `None` stands for a
 * lookup that raised, which the source catches so that only that check is
 * lost.
 */
module QuickKill {
  import opened Wrappers
  import opened Text
  import opened GisClients

  /** What a reason or warning says; the source renders these as text. */
  datatype Message =
    | NearTransmissionLine(distance: real, voltageKv: Option<nat>)
    | BlockerOverlay(code: string, description: string)
    | HeritageListing(vhrNumber: string, name: string)
    | MajorEasement(types: set<string>)
    | AccessEasement(description: string)
    | MinorEasement(description: string)
    | NearSubstationZone
    | NearWaterReservoir
    | NearRoadJunction
    | BushfireProneArea
    | NearEpaPrioritySite(distance: real)
    | NearSubstation(shown: Option<real>)
    | NearPowerStation(shown: Option<real>)
    | NearEnviroAuditSite(distance: real)

  /** The value stored under a detail key. */
  datatype Detail =
    | LineDetail(distance: real, voltageKv: Option<nat>, owner: Option<string>)
    | OverlayDetail(overlay: Overlay)
    | HeritageDetail(item: HeritageItem)
    | EasementsDetail(easements: seq<Easement>)
    | EasementDetail(easement: Easement)
    | FeatureDetail(featureId: string)
    | SiteDetail(distance: real)
    | InfrastructureDetail(reported: Option<real>)
    | AreaDetail

  /** The observable state of a QuickKillResult. */
  datatype Verdict = Verdict(shouldReject: bool, reasons: seq<Message>, warnings: seq<Message>, details: map<string, Detail>)

  /** One call of add_reason or add_warning; an empty key is a falsy detail_key. */
  datatype Event =
    | Reason(msg: Message, key: string, detail: Detail)
    | Warning(msg: Message, key: string, detail: Detail)

  function Record(details: map<string, Detail>, key: string, detail: Detail): map<string, Detail>
  {
    if key != "" then details[key := detail] else details
  }

  /** The effect of one add_reason / add_warning call on the verdict. */
  function Apply(v: Verdict, e: Event): Verdict
  {
    match e
    case Reason(m, k, d) => Verdict(true, v.reasons + [m], v.warnings, Record(v.details, k, d))
    case Warning(m, k, d) => Verdict(v.shouldReject, v.reasons, v.warnings + [m], Record(v.details, k, d))
  }

  function ApplyAll(v: Verdict, es: seq<Event>): Verdict
    decreases |es|
  {
    if es == [] then v else ApplyAll(Apply(v, es[0]), es[1..])
  }

  function ReasonsOf(es: seq<Event>): seq<Message>
  {
    if es == [] then [] else (if es[0].Reason? then [es[0].msg] else []) + ReasonsOf(es[1..])
  }

  function WarningsOf(es: seq<Event>): seq<Message>
  {
    if es == [] then [] else (if es[0].Warning? then [es[0].msg] else []) + WarningsOf(es[1..])
  }

  function KeysOf(es: seq<Event>): set<string>
  {
    if es == [] then {} else (if es[0].key != "" then {es[0].key} else {}) + KeysOf(es[1..])
  }

  /** A fresh result: not rejected, no reasons, no warnings, no details. */
  const Fresh: Verdict := Verdict(false, [], [], map[])

  /**
   * Replaying add_reason / add_warning calls appends exactly their reasons and
   * their warnings in order, writes details only under the non-empty keys,
   * and rejects iff it rejected before or some call was add_reason.
   */
  lemma ApplyAllSpec(v: Verdict, es: seq<Event>)
    ensures ApplyAll(v, es).reasons == v.reasons + ReasonsOf(es)
    ensures ApplyAll(v, es).warnings == v.warnings + WarningsOf(es)
    ensures ApplyAll(v, es).details.Keys == v.details.Keys + KeysOf(es)
    ensures ApplyAll(v, es).shouldReject == (v.shouldReject || ReasonsOf(es) != [])
  {
    ApplyAllReasons(v, es);
    ApplyAllWarnings(v, es);
    ApplyAllKeys(v, es);
    ApplyAllRejects(v, es);
  }

  lemma {:induction false} ApplyAllReasons(v: Verdict, es: seq<Event>)
    ensures ApplyAll(v, es).reasons == v.reasons + ReasonsOf(es)
    decreases |es|
  {
    if es != [] {
      ApplyAllReasons(Apply(v, es[0]), es[1..]);
      assert v.reasons + ReasonsOf(es) == Apply(v, es[0]).reasons + ReasonsOf(es[1..]);
    }
  }

  lemma {:induction false} ApplyAllWarnings(v: Verdict, es: seq<Event>)
    ensures ApplyAll(v, es).warnings == v.warnings + WarningsOf(es)
    decreases |es|
  {
    if es != [] {
      ApplyAllWarnings(Apply(v, es[0]), es[1..]);
      assert v.warnings + WarningsOf(es) == Apply(v, es[0]).warnings + WarningsOf(es[1..]);
    }
  }

  lemma {:induction false} ApplyAllKeys(v: Verdict, es: seq<Event>)
    ensures ApplyAll(v, es).details.Keys == v.details.Keys + KeysOf(es)
    decreases |es|
  {
    if es != [] {
      ApplyAllKeys(Apply(v, es[0]), es[1..]);
    }
  }

  lemma {:induction false} ApplyAllRejects(v: Verdict, es: seq<Event>)
    ensures ApplyAll(v, es).shouldReject == (v.shouldReject || ReasonsOf(es) != [])
    decreases |es|
  {
    if es != [] {
      ApplyAllRejects(Apply(v, es[0]), es[1..]);
    }
  }

  /** Once rejected, a verdict stays rejected whatever is added after. */
  lemma RejectIsSticky(v: Verdict, es: seq<Event>)
    requires v.shouldReject
    ensures ApplyAll(v, es).shouldReject
  {
    ApplyAllSpec(v, es);
  }

  /** The mutable QuickKillResult dataclass. */
  class QuickKillResult {
    var shouldReject: bool
    var reasons: seq<Message>
    var warnings: seq<Message>
    var details: map<string, Detail>

    ghost function State(): Verdict
      reads this
    {
      Verdict(shouldReject, reasons, warnings, details)
    }

    /** Rejection and the presence of reasons go together. */
    ghost predicate Valid()
      reads this
    {
      shouldReject <==> reasons != []
    }

    constructor()
      ensures Valid() && State() == Fresh
    {
      shouldReject, reasons, warnings, details := false, [], [], map[];
    }

    /** add_warning: one more warning; should_reject and the reasons are untouched. */
    method AddWarning(warning: Message, key: string, detail: Detail)
      requires Valid()
      modifies this
      ensures Valid()
      ensures State() == Apply(old(State()), Warning(warning, key, detail))
      ensures shouldReject == old(shouldReject) && reasons == old(reasons)
      ensures warnings == old(warnings) + [warning]
    {
      warnings := warnings + [warning];
      if key != "" {
        details := details[key := detail];
      }
    }

    /** add_reason: rejects and records one more reason. */
    method AddReason(reason: Message, key: string, detail: Detail)
      requires Valid()
      modifies this
      ensures Valid()
      ensures State() == Apply(old(State()), Reason(reason, key, detail))
      ensures shouldReject && reasons == old(reasons) + [reason] && warnings == old(warnings)
    {
      shouldReject := true;
      reasons := reasons + [reason];
      if key != "" {
        details := details[key := detail];
      }
    }

    /** Apply a list of calls in order (used to run one check's contribution). */
    method AddAll(es: seq<Event>)
      requires Valid()
      modifies this
      ensures Valid()
      ensures State() == ApplyAll(old(State()), es)
    {
      var i := 0;
      while i < |es|
        invariant 0 <= i <= |es|
        invariant Valid()
        invariant ApplyAll(old(State()), es) == ApplyAll(State(), es[i..])
      {
        assert es[i..][1..] == es[i + 1..];
        match es[i] {
          case Reason(m, k, d) => AddReason(m, k, d);
          case Warning(m, k, d) => AddWarning(m, k, d);
        }
        i := i + 1;
      }
    }
  }

  // ---------------------------------------------------------------------------
  // The nine checks
  // ---------------------------------------------------------------------------

  /** The result of a "found / distance" infrastructure lookup. */
  datatype InfrastructureHit = InfrastructureHit(found: bool, distance: Option<real>)

  /**
   * What each lookup of evaluate_quick_kill returned; `None` means it raised.
   * A feng-shui lookup returns the id of the feature it matched, if any; the
   * EPA and environmental-audit lookups return the distances of the sites found.
   */
  datatype Lookups = Lookups(
    transmissionCached: Option<Proximity>,
    transmissionWfs: Option<Proximity>,
    overlayCacheHasData: Option<bool>,
    cachedOverlays: Option<seq<Overlay>>,
    wfsOverlays: Option<seq<Overlay>>,
    heritage: Option<seq<HeritageItem>>,
    easements: Option<EasementCheck>,
    substationZone: Option<Option<string>>,
    waterReservoir: Option<Option<string>>,
    roadNode: Option<Option<string>>,
    bushfireProne: Option<bool>,
    epaSites: Option<seq<real>>,
    substation: Option<InfrastructureHit>,
    powerStation: Option<InfrastructureHit>,
    auditSites: Option<seq<real>>)

  /** Check 1: the cached transmission check, falling back to WFS when it found no distance. */
  function TransmissionEvents(l: Lookups): seq<Event>
  {
    match l.transmissionCached
    case None => []
    case Some(cached) =>
      var p := if cached.distance.None? then l.transmissionWfs else Some(cached);
      match p
      case None => []
      case Some(prox) =>
        if prox.near && prox.distance.Some? then
          var voltage := if prox.line.Some? then Some(prox.line.value.voltageKv) else None;
          var owner := if prox.line.Some? then prox.line.value.owner else None;
          [Reason(NearTransmissionLine(prox.distance.value, voltage), "transmission_line",
                  LineDetail(prox.distance.value, voltage, owner))]
        else []
  }

  /** The human-readable description of each blocker overlay type. */
  function OverlayDescription(overlayType: string): string
  {
    if overlayType == "HO" then "Heritage Overlay - development restrictions apply"
    else if overlayType == "VHR" then "Victorian Heritage Register listing"
    else if overlayType == "BMO" then "Bushfire Management Overlay - BAL assessment + design constraints"
    else if overlayType == "PAO" then "Public Acquisition Overlay - land may be acquired"
    else if overlayType == "EAO" then "Environmental Audit Overlay - contamination assessment required"
    else overlayType + " overlay applies"
  }

  function OverlayReasons(blockers: seq<Overlay>): (es: seq<Event>)
    requires forall o | o in blockers :: o.overlayType.Some?
    ensures |es| == |blockers|
    ensures forall e | e in es :: e.Reason?
  {
    if blockers == [] then []
    else
      var o := blockers[0];
      var t := o.overlayType.value;
      [Reason(BlockerOverlay(o.code, OverlayDescription(t)), "overlay_" + Lower(t), OverlayDetail(o))]
      + OverlayReasons(blockers[1..])
  }

  /** Check 2: cached overlays when the cache has data, else the WFS blocker query. */
  function OverlayEvents(l: Lookups, blockerTypes: seq<string>): seq<Event>
  {
    match l.overlayCacheHasData
    case None => []
    case Some(hasData) =>
      var found := if hasData then l.cachedOverlays else l.wfsOverlays;
      match found
      case None => []
      case Some(overlays) => OverlayReasons(FilterBlockers(overlays, blockerTypes))
  }

  function HeritageReasons(items: seq<HeritageItem>): (es: seq<Event>)
    ensures |es| == |items|
    ensures forall e | e in es :: e.Reason?
  {
    if items == [] then []
    else
      var it := items[0];
      var number := if it.vhrNumber.Some? then it.vhrNumber.value else "Unknown";
      var name := if it.name.Some? then it.name.value else "Heritage item";
      [Reason(HeritageListing(number, name), "heritage_register", HeritageDetail(it))] + HeritageReasons(items[1..])
  }

  /** Check 3: one reason per heritage register item. */
  function HeritageEvents(l: Lookups): seq<Event>
  {
    match l.heritage
    case None => []
    case Some(items) => HeritageReasons(items)
  }

  /** The blocking easements (severity 3 and up), in their original order. */
  function SevereEasements(es: seq<Easement>): (r: seq<Easement>)
    ensures forall e | e in r :: e in es && e.severity >= 3
    ensures forall e | e in es && e.severity >= 3 :: e in r
  {
    if es == [] then [] else (if es[0].severity >= 3 then [es[0]] else []) + SevereEasements(es[1..])
  }

  /** The filter keeps order: filtering a concatenation concatenates the filtered parts. */
  lemma {:induction false} SevereEasementsAppend(a: seq<Easement>, b: seq<Easement>)
    ensures SevereEasements(a + b) == SevereEasements(a) + SevereEasements(b)
  {
    if a == [] {
      assert a + b == b;
    } else {
      var head := if a[0].severity >= 3 then [a[0]] else [];
      assert a + b == [a[0]] + (a[1..] + b);
      SevereEasementsCons(a[0], a[1..] + b);
      SevereEasementsAppend(a[1..], b);
      assert a == [a[0]] + a[1..];
      SevereEasementsCons(a[0], a[1..]);
      assert head + (SevereEasements(a[1..]) + SevereEasements(b)) == (head + SevereEasements(a[1..])) + SevereEasements(b);
    }
  }

  lemma SevereEasementsCons(e: Easement, rest: seq<Easement>)
    ensures SevereEasements([e] + rest) == (if e.severity >= 3 then [e] else []) + SevereEasements(rest)
  {
    assert ([e] + rest)[1..] == rest;
  }

  function TypesOf(es: seq<Easement>): set<string>
  {
    set e | e in es :: e.easementType
  }

  /** The warning for one easement when there is no blocker: severity 2 and 1 warn, others are silent. */
  function EasementWarning(e: Easement): (r: seq<Event>)
    ensures |r| == (if e.severity == 1 || e.severity == 2 then 1 else 0)
    ensures ReasonsOf(r) == []
  {
    if e.severity == 2 then [Warning(AccessEasement(e.description), "easement_warning", EasementDetail(e))]
    else if e.severity == 1 then [Warning(MinorEasement(e.description), "easement_info", EasementDetail(e))]
    else []
  }

  function EasementWarnings(es: seq<Easement>): (r: seq<Event>)
  {
    if es == [] then [] else EasementWarning(es[0]) + EasementWarnings(es[1..])
  }

  /** Check 4: one reason for all major easements, or else one warning per minor one. */
  function EasementEvents(l: Lookups): seq<Event>
  {
    match l.easements
    case None => []
    case Some(check) =>
      if check.hasBlockers then
        var severe := SevereEasements(check.easements);
        [Reason(MajorEasement(TypesOf(severe)), "easement_blocker", EasementsDetail(severe))]
      else if check.hasAny then EasementWarnings(check.easements)
      else []
  }

  function CountSeverity12(es: seq<Easement>): nat
  {
    if es == [] then 0 else (if es[0].severity == 1 || es[0].severity == 2 then 1 else 0) + CountSeverity12(es[1..])
  }

  lemma {:induction false} EasementWarningsCount(es: seq<Easement>)
    ensures |EasementWarnings(es)| == CountSeverity12(es)
    ensures ReasonsOf(EasementWarnings(es)) == []
  {
    if es != [] {
      EasementWarningsCount(es[1..]);
      ReasonsOfAppend(EasementWarning(es[0]), EasementWarnings(es[1..]));
    }
  }

  lemma {:induction false} ReasonsOfAppend(a: seq<Event>, b: seq<Event>)
    ensures ReasonsOf(a + b) == ReasonsOf(a) + ReasonsOf(b)
    ensures WarningsOf(a + b) == WarningsOf(a) + WarningsOf(b)
  {
    if a != [] {
      assert (a + b)[0] == a[0];
      assert (a + b)[1..] == a[1..] + b;
      ReasonsOfAppend(a[1..], b);
    } else {
      assert a + b == b;
    }
  }

  /**
   * A severity-3 easement gives exactly one reason and suppresses every
   * easement warning; otherwise there is one warning per severity-1/2
   * easement and no reason.
   */
  lemma EasementVerdict(check: EasementCheck, l: Lookups)
    requires l.easements == Some(check)
    requires check == CheckPropertyEasements(check.easements)
    ensures check.hasBlockers ==> |ReasonsOf(EasementEvents(l))| == 1 && WarningsOf(EasementEvents(l)) == []
    ensures !check.hasBlockers ==>
      ReasonsOf(EasementEvents(l)) == [] && |EasementEvents(l)| == CountSeverity12(check.easements)
  {
    EasementWarningsCount(check.easements);
    if !check.hasBlockers && !check.hasAny {
      assert check.easements == [];
    }
  }

  /** Check 5: substation zone (reason), water (warning), road node (warning); a raise stops the rest. */
  function FengShuiEvents(l: Lookups): seq<Event>
  {
    match l.substationZone
    case None => []
    case Some(zone) =>
      var e1 := if zone.Some? then [Reason(NearSubstationZone, "substation_proxy", FeatureDetail(zone.value))] else [];
      match l.waterReservoir
      case None => e1
      case Some(water) =>
        var e2 := if water.Some? then [Warning(NearWaterReservoir, "water_proximity", FeatureDetail(water.value))] else [];
        match l.roadNode
        case None => e1 + e2
        case Some(node) =>
          e1 + e2 + (if node.Some? then [Warning(NearRoadJunction, "t_junction_proxy", FeatureDetail(node.value))] else [])
  }

  /** Check 6: a bushfire prone area only warns. */
  function BushfireEvents(l: Lookups): seq<Event>
  {
    if l.bushfireProne == Some(true) then [Warning(BushfireProneArea, "bushfire_prone_area", AreaDetail)] else []
  }

  /** The distance of the closest site (Python's first minimum). */
  function Closest(ds: seq<real>): (d: real)
    requires ds != []
    ensures d in ds && forall x | x in ds :: d <= x
  {
    if |ds| == 1 then ds[0]
    else
      var rest := Closest(ds[1..]);
      assert forall x | x in ds :: x == ds[0] || x in ds[1..];
      if ds[0] <= rest then ds[0] else rest
  }

  /** Check 7: any EPA priority site within 500 m rejects, citing the closest. */
  function EpaEvents(l: Lookups): seq<Event>
  {
    match l.epaSites
    case None => []
    case Some(ds) =>
      if ds == [] then []
      else [Reason(NearEpaPrioritySite(Closest(ds)), "epa_priority_sites", SiteDetail(Closest(ds)))]
  }

  /** A zero or missing distance is reported as "under the radius". */
  function ShownDistance(d: Option<real>): Option<real>
  {
    if d.Some? && d.value != 0.0 then d else None
  }

  /** Check 8: a substation within 200 m, then a power station within 1000 m; a raise stops the rest. */
  function InfrastructureEvents(l: Lookups): seq<Event>
  {
    match l.substation
    case None => []
    case Some(s) =>
      var e1 := if s.found then [Reason(NearSubstation(ShownDistance(s.distance)), "substation_infrastructure",
                                        InfrastructureDetail(s.distance))] else [];
      match l.powerStation
      case None => e1
      case Some(p) =>
        e1 + (if p.found then [Reason(NearPowerStation(ShownDistance(p.distance)), "power_station",
                                      InfrastructureDetail(p.distance))] else [])
  }

  /** Check 9: an environmental audit site within 1000 m only warns. */
  function AuditEvents(l: Lookups): seq<Event>
  {
    match l.auditSites
    case None => []
    case Some(ds) =>
      if ds == [] then []
      else [Warning(NearEnviroAuditSite(Closest(ds)), "enviro_audit_site", SiteDetail(Closest(ds)))]
  }

  /** The blocker types used: the configured list, or HO, VHR, PAO, EAO, BMO when none is given. */
  function BlockerTypesOrDefault(types: Option<seq<string>>): (r: seq<string>)
    ensures types.None? ==> r == ["HO", "VHR", "PAO", "EAO", "BMO"]
    ensures types.Some? ==> r == types.value
  {
    if types.None? then DefaultBlockerTypes else types.value
  }

  /** Every call evaluate_quick_kill makes, check after check. */
  function Events(l: Lookups, blockerTypes: Option<seq<string>>): seq<Event>
  {
    TransmissionEvents(l) + OverlayEvents(l, BlockerTypesOrDefault(blockerTypes)) + HeritageEvents(l)
    + EasementEvents(l) + FengShuiEvents(l) + BushfireEvents(l) + EpaEvents(l)
    + InfrastructureEvents(l) + AuditEvents(l)
  }

  /** evaluate_quick_kill: run the nine checks in order on a fresh result. */
  method EvaluateQuickKill(l: Lookups, blockerTypes: Option<seq<string>>) returns (result: QuickKillResult)
    ensures fresh(result) && result.Valid()
    ensures result.State() == ApplyAll(Fresh, Events(l, blockerTypes))
  {
    var types := BlockerTypesOrDefault(blockerTypes);
    result := new QuickKillResult();
    result.AddAll(TransmissionEvents(l));
    ghost var done := TransmissionEvents(l);
    assert ApplyAll(Fresh, done) == result.State();
    var part := OverlayEvents(l, types);
    ApplyAllAppend(Fresh, done, part); result.AddAll(part); done := done + part;
    part := HeritageEvents(l);
    ApplyAllAppend(Fresh, done, part); result.AddAll(part); done := done + part;
    part := EasementEvents(l);
    ApplyAllAppend(Fresh, done, part); result.AddAll(part); done := done + part;
    part := FengShuiEvents(l);
    ApplyAllAppend(Fresh, done, part); result.AddAll(part); done := done + part;
    part := BushfireEvents(l);
    ApplyAllAppend(Fresh, done, part); result.AddAll(part); done := done + part;
    part := EpaEvents(l);
    ApplyAllAppend(Fresh, done, part); result.AddAll(part); done := done + part;
    part := InfrastructureEvents(l);
    ApplyAllAppend(Fresh, done, part); result.AddAll(part); done := done + part;
    part := AuditEvents(l);
    ApplyAllAppend(Fresh, done, part); result.AddAll(part); done := done + part;
    assert done == Events(l, blockerTypes);
  }

  lemma {:induction false} ApplyAllAppend(v: Verdict, a: seq<Event>, b: seq<Event>)
    ensures ApplyAll(v, a + b) == ApplyAll(ApplyAll(v, a), b)
    decreases |a|
  {
    if a != [] {
      assert (a + b)[0] == a[0];
      assert (a + b)[1..] == a[1..] + b;
      ApplyAllAppend(Apply(v, a[0]), a[1..], b);
    } else {
      assert a + b == b;
    }
  }

  /**
   * A check that raised contributes nothing and leaves the other checks'
   * calls as they were: knocking out the heritage lookup removes exactly the
   * heritage reasons.
   */
  lemma HeritageFailureIsolated(l: Lookups, blockerTypes: Option<seq<string>>)
    ensures Events(l.(heritage := None), blockerTypes) ==
      TransmissionEvents(l) + OverlayEvents(l, BlockerTypesOrDefault(blockerTypes))
      + EasementEvents(l) + FengShuiEvents(l) + BushfireEvents(l) + EpaEvents(l)
      + InfrastructureEvents(l) + AuditEvents(l)
  {
    var l' := l.(heritage := None);
    var types := BlockerTypesOrDefault(blockerTypes);
    assert TransmissionEvents(l') == TransmissionEvents(l);
    assert OverlayEvents(l', types) == OverlayEvents(l, types);
    assert HeritageEvents(l') == [];
    var a := TransmissionEvents(l) + OverlayEvents(l, types);
    assert TransmissionEvents(l') + OverlayEvents(l', types) + HeritageEvents(l') == a;
    LaterChecksIgnoreHeritage(l);
  }

  /** The checks after the heritage lookup do not read its result. */
  lemma LaterChecksIgnoreHeritage(l: Lookups)
    ensures EasementEvents(l.(heritage := None)) == EasementEvents(l)
    ensures FengShuiEvents(l.(heritage := None)) == FengShuiEvents(l)
    ensures BushfireEvents(l.(heritage := None)) == BushfireEvents(l)
    ensures EpaEvents(l.(heritage := None)) == EpaEvents(l)
    ensures InfrastructureEvents(l.(heritage := None)) == InfrastructureEvents(l)
    ensures AuditEvents(l.(heritage := None)) == AuditEvents(l)
  {
    var l' := l.(heritage := None);
    assert EasementEvents(l') == EasementEvents(l);
    assert FengShuiEvents(l') == FengShuiEvents(l);
    assert InfrastructureEvents(l') == InfrastructureEvents(l);
  }

  // ---------------------------------------------------------------------------
  // run_quick_kill_screen
  // ---------------------------------------------------------------------------

  datatype ScreenCounts = ScreenCounts(screened: nat, rejected: nat, passed: nat, failed: nat)

  /** How many sites had `outcome`: Some(true) rejected, Some(false) passed, None raised. */
  function CountOutcome(outcomes: seq<Option<bool>>, outcome: Option<bool>): nat
  {
    if outcomes == [] then 0
    else CountOutcome(outcomes[..|outcomes| - 1], outcome) + (if outcomes[|outcomes| - 1] == outcome then 1 else 0)
  }

  /** Every site is screened and lands in exactly one of rejected, passed and failed. */
  lemma {:induction false} OutcomesPartition(outcomes: seq<Option<bool>>)
    ensures |outcomes| == CountOutcome(outcomes, Some(true)) + CountOutcome(outcomes, Some(false)) + CountOutcome(outcomes, None)
  {
    if outcomes != [] {
      OutcomesPartition(outcomes[..|outcomes| - 1]);
      var last := outcomes[|outcomes| - 1];
      if last.Some? {
        if last.value { assert last == Some(true); } else { assert last == Some(false); }
      }
    }
  }

  /**
   * The counting loop of run_quick_kill_screen over the screened sites'
   * outcomes: `Some(should_reject)` when the site was processed, `None` when
   * processing raised.  No sites gives all-zero counts.
   */
  method RunQuickKillScreen(outcomes: seq<Option<bool>>) returns (c: ScreenCounts)
    ensures c.screened == |outcomes|
    ensures c.rejected == CountOutcome(outcomes, Some(true))
    ensures c.passed == CountOutcome(outcomes, Some(false))
    ensures c.failed == CountOutcome(outcomes, None)
    ensures c.screened == c.rejected + c.passed + c.failed
  {
    c := ScreenCounts(0, 0, 0, 0);
    if outcomes == [] {
      return;
    }
    var i := 0;
    while i < |outcomes|
      invariant 0 <= i <= |outcomes|
      invariant c.screened == i
      invariant c.rejected == CountOutcome(outcomes[..i], Some(true))
      invariant c.passed == CountOutcome(outcomes[..i], Some(false))
      invariant c.failed == CountOutcome(outcomes[..i], None)
    {
      assert outcomes[..i + 1][..i] == outcomes[..i];
      c := c.(screened := c.screened + 1);
      match outcomes[i] {
        case Some(reject) =>
          if reject {
            c := c.(rejected := c.rejected + 1);
          } else {
            c := c.(passed := c.passed + 1);
          }
        case None =>
          c := c.(failed := c.failed + 1);
      }
      i := i + 1;
    }
    assert outcomes[..|outcomes|] == outcomes;
    OutcomesPartition(outcomes);
  }
}
