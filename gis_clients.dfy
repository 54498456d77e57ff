/**
 * The decision logic of the GIS client layer: property-alias fallbacks for
 * overlay, zone and heritage features, voltage parsing, the easement keyword
 * classifier, and the transmission / overlay / easement checks used by the
 * quick-kill screen.  The WFS queries themselves are inputs: a feature is its
 * property bag (and, for lines, a distance already computed).
 */
module GisClients {
  import opened Wrappers
  import opened Text

  /** One entry of a feature's property dictionary, as text. */
  datatype Field = Field(key: string, value: string)

  /** A property dictionary in insertion order; a falsy value is the empty string. */
  type Props = seq<Field>

  /** `props.get(key)`, with "" for a missing key. */
  function Get(props: Props, key: string): string
  {
    if props == [] then "" else if props[0].key == key then props[0].value else Get(props[1..], key)
  }

  /** `props.get(k1) or props.get(k2) or ...`: the value of the first truthy alias. */
  function FirstTruthy(props: Props, keys: seq<string>): (r: string)
    ensures r == "" <==> forall i | 0 <= i < |keys| :: Get(props, keys[i]) == ""
    ensures keys != [] && Get(props, keys[0]) != "" ==> r == Get(props, keys[0])
    ensures r != "" ==> exists i | 0 <= i < |keys| :: Get(props, keys[i]) == r
  {
    if keys == [] then ""
    else if Get(props, keys[0]) != "" then Get(props, keys[0])
    else
      var r := FirstTruthy(props, keys[1..]);
      assert forall i | 1 <= i < |keys| :: keys[i] == keys[1..][i - 1];
      r
  }

  function OptionOf(s: string): (r: Option<string>)
    ensures r.None? <==> s == ""
  {
    if s == "" then None else Some(s)
  }

  // ---------------------------------------------------------------------------
  // Overlays, zones and heritage items
  // ---------------------------------------------------------------------------

  const OverlayCodeKeys: seq<string> := ["ZONE_CODE", "ZONE", "LABEL", "MAP_LAB", "zone_code", "zone", "label"]
  const OverlayTypeKeys: seq<string> := ["ZONE_DESC", "TYPE", "zone_desc", "type"]
  const OverlayLgaKeys: seq<string> := ["LGA_NAME", "lga_name"]
  const ZoneCodeKeys: seq<string> := ["ZONE_CODE", "ZONE", "LABEL", "zone_code", "zone", "label"]
  const ZoneLgaKeys: seq<string> := ["LGA", "LGA_NAME", "SCHEME", "lga_name", "scheme"]

  datatype Overlay = Overlay(code: string, overlayType: Option<string>, lga: Option<string>)
  datatype Zone = Zone(code: string, lga: Option<string>)

  /** The overlay record built from one feature, or None when it has no code alias. */
  function OverlayOf(props: Props): (r: Option<Overlay>)
    ensures r.None? <==> forall i | 0 <= i < |OverlayCodeKeys| :: Get(props, OverlayCodeKeys[i]) == ""
    ensures r.Some? ==> r.value.code != ""
  {
    var code := FirstTruthy(props, OverlayCodeKeys);
    if code == "" then None
    else Some(Overlay(code, OptionOf(FirstTruthy(props, OverlayTypeKeys)), OptionOf(FirstTruthy(props, OverlayLgaKeys))))
  }

  /** The records a WFS query returned, in feature order: `f` gives each feature's record, or none. */
  function Collect<T>(f: Props -> seq<T>, features: seq<Props>): seq<T>
  {
    if features == [] then [] else f(features[0]) + Collect(f, features[1..])
  }

  /** Collecting distributes over concatenation, so order is kept. */
  lemma {:induction false} CollectAppend<T>(f: Props -> seq<T>, a: seq<Props>, b: seq<Props>)
    ensures Collect(f, a + b) == Collect(f, a) + Collect(f, b)
  {
    if a != [] {
      assert (a + b)[0] == a[0];
      assert (a + b)[1..] == a[1..] + b;
      CollectAppend(f, a[1..], b);
    } else {
      assert a + b == b;
    }
  }

  /** At most one record per feature gives at most one record per feature in all. */
  lemma {:induction false} CollectBound<T>(f: Props -> seq<T>, features: seq<Props>)
    requires forall x :: |f(x)| <= 1
    ensures |Collect(f, features)| <= |features|
  {
    if features != [] {
      CollectBound(f, features[1..]);
    }
  }

  /** A property every record of every feature has, every collected record has. */
  lemma {:induction false} CollectKeeps<T>(f: Props -> seq<T>, features: seq<Props>, ok: T -> bool)
    requires forall x, y | y in f(x) :: ok(y)
    ensures forall y | y in Collect(f, features) :: ok(y)
  {
    if features != [] {
      CollectKeeps(f, features[1..], ok);
    }
  }

  /** The overlays a WFS query returned, features without a code alias dropped. */
  function OverlaysAtPoint(features: seq<Props>): (r: seq<Overlay>)
    ensures |r| <= |features|
    ensures forall o | o in r :: o.code != ""
  {
    CollectBound(OverlayList, features);
    CollectKeeps(OverlayList, features, (o: Overlay) => o.code != "");
    Collect(OverlayList, features)
  }

  function OverlayList(props: Props): (r: seq<Overlay>)
    ensures |r| <= 1 && forall o | o in r :: o.code != ""
  {
    match OverlayOf(props) case None => [] case Some(o) => [o]
  }

  /** Building overlays is a filter-map: it distributes over concatenation, so order is kept. */
  lemma OverlaysAtPointAppend(a: seq<Props>, b: seq<Props>)
    ensures OverlaysAtPoint(a + b) == OverlaysAtPoint(a) + OverlaysAtPoint(b)
  {
    CollectAppend(OverlayList, a, b);
  }

  function ZoneOf(props: Props): (r: Option<Zone>)
    ensures r.None? <==> forall i | 0 <= i < |ZoneCodeKeys| :: Get(props, ZoneCodeKeys[i]) == ""
    ensures r.Some? ==> r.value.code != ""
  {
    var code := FirstTruthy(props, ZoneCodeKeys);
    if code == "" then None else Some(Zone(code, OptionOf(FirstTruthy(props, ZoneLgaKeys))))
  }

  /** The zones a WFS query returned, features without a code alias dropped. */
  function ZonesAtPoint(features: seq<Props>): (r: seq<Zone>)
    ensures |r| <= |features|
    ensures forall z | z in r :: z.code != ""
  {
    CollectBound(ZoneList, features);
    CollectKeeps(ZoneList, features, (z: Zone) => z.code != "");
    Collect(ZoneList, features)
  }

  function ZoneList(props: Props): (r: seq<Zone>)
    ensures |r| <= 1 && forall z | z in r :: z.code != ""
  {
    match ZoneOf(props) case None => [] case Some(z) => [z]
  }

  /** Building zones is a filter-map: it distributes over concatenation, so order is kept. */
  lemma ZonesAtPointAppend(a: seq<Props>, b: seq<Props>)
    ensures ZonesAtPoint(a + b) == ZonesAtPoint(a) + ZonesAtPoint(b)
  {
    CollectAppend(ZoneList, a, b);
  }

  datatype HeritageItem = HeritageItem(vhrNumber: Option<string>, name: Option<string>)

  /** Heritage features are never dropped; each keeps its first truthy number and name alias. */
  function HeritageAtPoint(features: seq<Props>): (r: seq<HeritageItem>)
    ensures |r| == |features|
    ensures forall i | 0 <= i < |r| ::
      r[i].vhrNumber == OptionOf(FirstTruthy(features[i], ["VHR_NUMBER", "VHR_NO", "VHR"]))
  {
    seq(|features|, i requires 0 <= i < |features| =>
      HeritageItem(OptionOf(FirstTruthy(features[i], ["VHR_NUMBER", "VHR_NO", "VHR"])),
                   OptionOf(FirstTruthy(features[i], ["NAME", "VHR_NAME"]))))
  }

  // ---------------------------------------------------------------------------
  // Transmission lines
  // ---------------------------------------------------------------------------

  /** A transmission line near the query point; `distance` is its computed minimum distance in metres. */
  datatype Line = Line(voltageKv: nat, owner: Option<string>, distance: real)

  /** The digits of the voltage text kept and read as an integer; no digits reads as 0. */
  function VoltageKv(props: Props): (r: nat)
    ensures (forall c | c in FirstTruthy(props, ["OPERATINGVOLTAGE", "VOLTAGE"]) :: !IsDigit(c)) ==> r == 0
  {
    var raw := FirstTruthy(props, ["OPERATINGVOLTAGE", "VOLTAGE"]);
    var text := if raw == "" then "0" else raw;
    NoDigitsKeepsNothing(text);
    assert KeepDigits("0") == "0" && DigitsValue("0") == 0;
    DigitsValue(KeepDigits(text))
  }

  lemma {:induction false} NoDigitsKeepsNothing(s: string)
    ensures (forall c | c in s :: !IsDigit(c)) ==> KeepDigits(s) == []
  {
    if s != [] {
      assert s[0] in s;
      assert forall c | c in s[1..] :: c in s;
      NoDigitsKeepsNothing(s[1..]);
    }
  }

  /** Keeping digits distributes over concatenation. */
  lemma {:induction false} KeepDigitsAppend(a: string, b: string)
    ensures KeepDigits(a + b) == KeepDigits(a) + KeepDigits(b)
  {
    if a != [] {
      assert (a + b)[0] == a[0] && (a + b)[1..] == a[1..] + b;
      KeepDigitsAppend(a[1..], b);
    } else {
      assert a + b == b;
    }
  }

  /** Text of digits alone is kept whole. */
  lemma {:induction false} KeepDigitsOfDigits(s: string)
    requires forall c | c in s :: IsDigit(c)
    ensures KeepDigits(s) == s
  {
    if s != [] {
      assert s[0] in s;
      assert forall c | c in s[1..] :: c in s;
      KeepDigitsOfDigits(s[1..]);
      assert s == [s[0]] + s[1..];
    }
  }

  /**
   * A voltage text of digits between two digit-free parts ("220 kV",
   * "66kV") reads as the value of those digits; with no digits at all it
   * reads as 0.
   */
  lemma VoltageDigits(props: Props, pre: string, d: string, post: string)
    requires FirstTruthy(props, ["OPERATINGVOLTAGE", "VOLTAGE"]) == pre + d + post
    requires (forall c | c in pre :: !IsDigit(c)) && (forall c | c in post :: !IsDigit(c))
    requires forall c | c in d :: IsDigit(c)
    ensures VoltageKv(props) == DigitsValue(d)
  {
    var raw := pre + d + post;
    if raw == "" {
      assert d == [];
      assert KeepDigits("0") == "0" && DigitsValue("0") == 0;
    } else {
      KeepDigitsAppend(pre + d, post);
      KeepDigitsAppend(pre, d);
      NoDigitsKeepsNothing(pre);
      NoDigitsKeepsNothing(post);
      KeepDigitsOfDigits(d);
      assert KeepDigits(raw) == d;
    }
  }

  /** A line feature: its property bag and the distance computed from its geometry. */
  datatype LineFeature = LineFeature(props: Props, distance: real)

  /** The line a feature becomes. */
  function LineFor(f: LineFeature): Line
  {
    Line(VoltageKv(f.props), OptionOf(FirstTruthy(f.props, ["OWNER", "OPERATOR", "NETWORK"])), f.distance)
  }

  /**
   * get_transmission_lines_near over the features the query returned: one
   * line per feature, with its parsed voltage, its first truthy owner alias
   * and its distance.
   */
  function TransmissionLinesNear(features: seq<LineFeature>): (r: seq<Line>)
    ensures |r| == |features|
    ensures forall i | 0 <= i < |r| ::
      && r[i].distance == features[i].distance
      && r[i].voltageKv == VoltageKv(features[i].props)
      && r[i].owner == OptionOf(FirstTruthy(features[i].props, ["OWNER", "OPERATOR", "NETWORK"]))
  {
    seq(|features|, i requires 0 <= i < |features| => LineFor(features[i]))
  }

  /** The lines of 66 kV or more, in input order. */
  function HighVoltage(lines: seq<Line>): (r: seq<Line>)
    ensures forall l | l in r :: l in lines && l.voltageKv >= 66
    ensures forall l | l in lines && l.voltageKv >= 66 :: l in r
  {
    if lines == [] then []
    else (if lines[0].voltageKv >= 66 then [lines[0]] else []) + HighVoltage(lines[1..])
  }

  /** Python `min(lines, key=distance)`: the index of the first line at the least distance. */
  function NearestIndex(lines: seq<Line>): (k: nat)
    requires lines != []
    ensures k < |lines|
    ensures forall j | 0 <= j < |lines| :: lines[k].distance <= lines[j].distance
    ensures forall j | 0 <= j < k :: lines[j].distance > lines[k].distance
  {
    if |lines| == 1 then 0
    else
      var k' := NearestIndex(lines[1..]) + 1;
      if lines[0].distance <= lines[k'].distance then 0 else k'
  }

  /** `(is_within_threshold, closest_distance_m, closest_line_info)`. */
  datatype Proximity = Proximity(near: bool, distance: Option<real>, line: Option<Line>)

  /** check_transmission_proximity over the lines found within threshold + 200 m. */
  function CheckTransmissionProximity(lines: seq<Line>, threshold: real): (r: Proximity)
    ensures r.line.None? <==> forall l | l in lines :: l.voltageKv < 66
    ensures r.line.None? ==> r == Proximity(false, None, None)
    ensures r.line.Some? ==>
      && r.line.value in lines && r.line.value.voltageKv >= 66
      && r.distance == Some(r.line.value.distance)
      && r.near == (r.line.value.distance <= threshold)
      && forall l | l in lines && l.voltageKv >= 66 :: r.line.value.distance <= l.distance
  {
    if lines == [] then Proximity(false, None, None)
    else
      var hv := HighVoltage(lines);
      if hv == [] then Proximity(false, None, None)
      else
        var closest := hv[NearestIndex(hv)];
        Proximity(closest.distance <= threshold, Some(closest.distance), Some(closest))
  }

  /** The search radius is threshold + 200 m, so a line at or under the threshold is always seen. */
  function TransmissionSearchRadius(threshold: real): (r: real)
    ensures r > threshold
  {
    threshold + 200.0
  }

  /**
   * Searching threshold + 200 m around the point loses nothing: whatever
   * extra features the query box returns, the site is within the threshold
   * of a 66 kV+ line iff some such line of the whole network is, and the
   * distance then reported is the least of all 66 kV+ lines.
   */
  lemma SearchRadiusSuffices(network: seq<LineFeature>, found: seq<LineFeature>, threshold: real)
    requires forall f | f in found :: f in network
    requires forall f | f in network && f.distance <= TransmissionSearchRadius(threshold) :: f in found
    ensures var r := CheckTransmissionProximity(TransmissionLinesNear(found), threshold);
      r.near <==> exists f | f in network :: VoltageKv(f.props) >= 66 && f.distance <= threshold
    ensures var r := CheckTransmissionProximity(TransmissionLinesNear(found), threshold);
      r.near ==> forall f | f in network && VoltageKv(f.props) >= 66 :: r.distance.value <= f.distance
  {
    NearHasWitness(network, found, threshold);
    NearIsLeast(network, found, threshold);
  }

  /** A line reported near comes from a 66 kV+ feature of the network within the threshold. */
  lemma NearHasWitness(network: seq<LineFeature>, found: seq<LineFeature>, threshold: real)
    requires forall f | f in found :: f in network
    ensures CheckTransmissionProximity(TransmissionLinesNear(found), threshold).near ==>
      exists f | f in network :: VoltageKv(f.props) >= 66 && f.distance <= threshold
  {
    var lines := TransmissionLinesNear(found);
    var r := CheckTransmissionProximity(lines, threshold);
    if r.near {
      var i :| 0 <= i < |lines| && lines[i] == r.line.value;
      assert found[i] in found;
    }
  }

  /**
   * Every 66 kV+ feature of the network is at least as far as the line
   * reported, when the site is near, and beyond the threshold otherwise.
   */
  lemma NearIsLeast(network: seq<LineFeature>, found: seq<LineFeature>, threshold: real)
    requires forall f | f in network && f.distance <= TransmissionSearchRadius(threshold) :: f in found
    ensures var r := CheckTransmissionProximity(TransmissionLinesNear(found), threshold);
      forall f | f in network && VoltageKv(f.props) >= 66 ::
        && (r.near ==> r.distance.value <= f.distance)
        && (!r.near ==> f.distance > threshold)
  {
    var lines := TransmissionLinesNear(found);
    forall f | f in network && VoltageKv(f.props) >= 66
      ensures var r := CheckTransmissionProximity(lines, threshold);
        (r.near ==> r.distance.value <= f.distance) && (!r.near ==> f.distance > threshold)
    {
      if f.distance <= TransmissionSearchRadius(threshold) {
        LineOfFeature(found, f);
        ReportedAtMost(lines, threshold, LineFor(f));
      }
    }
  }

  lemma LineOfFeature(found: seq<LineFeature>, f: LineFeature)
    requires f in found
    ensures LineFor(f) in TransmissionLinesNear(found)
  {
    var j :| 0 <= j < |found| && found[j] == f;
    assert TransmissionLinesNear(found)[j] == LineFor(f);
  }

  /** Any 66 kV+ line among those searched makes a line reported, no farther than it. */
  lemma ReportedAtMost(lines: seq<Line>, threshold: real, l: Line)
    requires l in lines && l.voltageKv >= 66
    ensures var r := CheckTransmissionProximity(lines, threshold);
      r.line.Some? && r.distance.value <= l.distance && r.near == (r.distance.value <= threshold)
  {
  }

  // ---------------------------------------------------------------------------
  // Blocker overlays
  // ---------------------------------------------------------------------------

  const DefaultBlockerTypes: seq<string> := ["HO", "VHR", "PAO", "EAO", "BMO"]

  predicate IsBlocker(o: Overlay, types: seq<string>)
  {
    o.overlayType.Some? && o.overlayType.value in types
  }

  /** check_blocker_overlays: the overlays whose type is one of the blocker types, in input order. */
  function BlockerOverlays(overlays: seq<Overlay>, types: Option<seq<string>>): (r: seq<Overlay>)
    ensures forall o | o in r :: o in overlays
    ensures var ts := if types.None? then DefaultBlockerTypes else types.value;
      (forall o | o in r :: IsBlocker(o, ts)) && (forall o | o in overlays && IsBlocker(o, ts) :: o in r)
  {
    FilterBlockers(overlays, if types.None? then DefaultBlockerTypes else types.value)
  }

  function FilterBlockers(overlays: seq<Overlay>, types: seq<string>): (r: seq<Overlay>)
    ensures forall o | o in r :: o in overlays && IsBlocker(o, types)
    ensures forall o | o in overlays && IsBlocker(o, types) :: o in r
  {
    if overlays == [] then []
    else (if IsBlocker(overlays[0], types) then [overlays[0]] else []) + FilterBlockers(overlays[1..], types)
  }

  lemma {:induction false} FilterBlockersAppend(a: seq<Overlay>, b: seq<Overlay>, types: seq<string>)
    ensures FilterBlockers(a + b, types) == FilterBlockers(a, types) + FilterBlockers(b, types)
  {
    if a != [] {
      assert (a + b)[0] == a[0];
      assert (a + b)[1..] == a[1..] + b;
      FilterBlockersAppend(a[1..], b, types);
    } else {
      assert a + b == b;
    }
  }

  // ---------------------------------------------------------------------------
  // Easements
  // ---------------------------------------------------------------------------

  /** The property fields read, in this order, for the easement's type text. */
  const TypeFields: seq<string> :=
    ["EASEMENT_TYPE", "EASEMENT_PURPOSE", "TYPE", "PURPOSE", "DESCRIPTION", "DESC", "LABEL", "NAME"]

  /** Keyword table in the source's insertion order; the first keyword found wins. */
  const EasementTable: seq<(string, nat)> := [
    ("drainage", 3), ("sewer", 3), ("sewerage", 3), ("stormwater", 3), ("electricity", 3),
    ("power", 3), ("powerline", 3), ("gas", 3), ("water main", 3), ("watermain", 3),
    ("high voltage", 3), ("transmission", 3), ("pipeline", 3),
    ("water", 2), ("carriageway", 2), ("right of way", 2), ("row", 2), ("access", 2),
    ("road", 2), ("telecommunications", 2), ("telecom", 2), ("nbn", 2),
    ("fencing", 1), ("fence", 1), ("party wall", 1), ("light", 1), ("air", 1),
    ("support", 1), ("encroachment", 1)
  ]

  /** Entries 0..12 of the table are the severity-3 (blocker) keywords. */
  const BlockerKeywordCount: nat := 13

  /** The truthy values of a property bag, in order. */
  function TruthyValues(props: Props): (r: seq<string>)
    ensures forall v | v in r :: v != ""
  {
    if props == [] then []
    else (if props[0].value != "" then [props[0].value] else []) + TruthyValues(props[1..])
  }

  function LowerAll(vs: seq<string>): (r: seq<string>)
    ensures |r| == |vs|
  {
    seq(|vs|, i requires 0 <= i < |vs| => Lower(vs[i]))
  }

  /** The text searched for keywords: the first truthy type field, else every truthy value joined. */
  function EasementText(props: Props): string
  {
    var first := FirstTruthy(props, TypeFields);
    if first != "" then Lower(first) else JoinSpace(LowerAll(TruthyValues(props)))
  }

  /** The index of the first table keyword occurring in `text`, or |table| when none does. */
  function FirstKeywordIndex(text: string, table: seq<(string, nat)>): (k: nat)
    ensures k <= |table|
    ensures k < |table| ==> Contains(text, table[k].0)
    ensures forall j | 0 <= j < k :: !Contains(text, table[j].0)
  {
    if table == [] then 0
    else if Contains(text, table[0].0) then 0
    else FirstKeywordIndex(text, table[1..]) + 1
  }

  datatype Classification = Classification(kind: string, severity: nat, description: string)

  function SeverityLabel(severity: nat): string
  {
    if severity == 3 then "Major infrastructure easement ("
    else if severity == 2 then "Access/utility easement ("
    else "Minor easement ("
  }

  /** classify_easement: the first matching keyword with its severity, else ("unknown", 2). */
  function Classify(props: Props): (c: Classification)
  {
    ClassifyText(EasementText(props))
  }

  /** The keyword match on the easement's lower-cased text. */
  function ClassifyText(text: string): (c: Classification)
  {
    ClassifyWith(text, EasementTable)
  }

  /** The keyword match against a given keyword table. */
  function ClassifyWith(text: string, table: seq<(string, nat)>): (c: Classification)
  {
    var k := FirstKeywordIndex(text, table);
    if k < |table| then
      var (kw, sev) := table[k];
      Classification(kw, sev, SeverityLabel(sev) + kw + ")")
    else
      Classification("unknown", 2, "Unclassified easement: " + Take(text, 50))
  }

  lemma TableFacts()
    ensures |EasementTable| == 29
    ensures forall j | 0 <= j < |EasementTable| :: EasementTable[j].0 != "unknown" && 1 <= EasementTable[j].1 <= 3
    ensures forall j | 0 <= j < BlockerKeywordCount :: EasementTable[j].1 == 3
  {
  }

  /** Every classification has severity 1, 2 or 3; a match is a table keyword found in the text. */
  lemma ClassifyBounds(text: string)
    ensures 1 <= ClassifyText(text).severity <= 3
    ensures ClassifyText(text).kind == "unknown" <==>
      forall j | 0 <= j < |EasementTable| :: !Contains(text, EasementTable[j].0)
    ensures ClassifyText(text).kind != "unknown" ==>
      (ClassifyText(text).kind, ClassifyText(text).severity) in EasementTable
      && Contains(text, ClassifyText(text).kind)
  {
    TableFacts();
    var k := FirstKeywordIndex(text, EasementTable);
    if k < |EasementTable| {
      assert EasementTable[k] in EasementTable;
    }
  }

  /** Any severity-3 keyword in the text makes the easement a blocker, since they all precede the others. */
  lemma BlockerKeywordWins(text: string, i: nat)
    requires i < BlockerKeywordCount
    requires Contains(text, EasementTable[i].0)
    ensures ClassifyText(text).severity == 3
  {
    TableFacts();
    var k := FirstKeywordIndex(text, EasementTable);
    assert k <= i;
  }

  /** "water main" is found before the severity-2 keyword "water". */
  lemma WaterMainIsBlocker(text: string)
    requires Contains(text, "water main")
    ensures ClassifyText(text).severity == 3
  {
    BlockerKeywordWins(text, 8);
  }

  /** The loop form of classify_easement: read the type text, then scan the keyword table. */
  method ClassifyEasement(props: Props) returns (c: Classification)
    ensures c == Classify(props)
  {
    var text := ReadEasementText(props);
    c := MatchEasementKeyword(text, EasementTable);
  }

  /** The first loop of classify_easement, which breaks at the first truthy type field. */
  method ReadEasementText(props: Props) returns (text: string)
    ensures text == EasementText(props)
  {
    text := "";
    var i := 0;
    while i < |TypeFields|
      invariant 0 <= i <= |TypeFields|
      invariant text == "" ==> forall j | 0 <= j < i :: Get(props, TypeFields[j]) == ""
      invariant text != "" ==> text == Lower(FirstTruthy(props, TypeFields))
    {
      var v := Get(props, TypeFields[i]);
      if v != "" {
        FirstTruthyAt(props, TypeFields, i);
        text := Lower(v);
        break;
      }
      i := i + 1;
    }
    if text == "" {
      text := JoinSpace(LowerAll(TruthyValues(props)));
    }
  }

  /** The second loop of classify_easement, which returns at the first keyword found. */
  method MatchEasementKeyword(text: string, table: seq<(string, nat)>) returns (c: Classification)
    ensures c == ClassifyWith(text, table)
  {
    var k := 0;
    while k < |table|
      invariant 0 <= k <= |table|
      invariant forall j | 0 <= j < k :: !Contains(text, table[j].0)
    {
      var (kw, sev) := table[k];
      if Contains(text, kw) {
        FirstKeywordIndexIs(text, table, k);
        return Classification(kw, sev, SeverityLabel(sev) + kw + ")");
      }
      k := k + 1;
    }
    FirstKeywordIndexIs(text, table, k);
    c := Classification("unknown", 2, "Unclassified easement: " + Take(text, 50));
  }

  /** FirstTruthy returns the value at the first truthy alias. */
  lemma {:induction false} FirstTruthyAt(props: Props, keys: seq<string>, i: nat)
    requires i < |keys| && Get(props, keys[i]) != ""
    requires forall j | 0 <= j < i :: Get(props, keys[j]) == ""
    ensures FirstTruthy(props, keys) == Get(props, keys[i])
  {
    if i > 0 {
      FirstTruthyAt(props, keys[1..], i - 1);
    }
  }

  /** The first keyword index is unique: any k with a match at k and none before is it. */
  lemma FirstKeywordIndexIs(text: string, table: seq<(string, nat)>, k: nat)
    requires k <= |table|
    requires k < |table| ==> Contains(text, table[k].0)
    requires forall j | 0 <= j < k :: !Contains(text, table[j].0)
    ensures FirstKeywordIndex(text, table) == k
  {
  }

  /** One classified easement as get_easements_near_point reports it. */
  datatype Easement = Easement(featureId: Option<string>, easementType: string, severity: nat, description: string)

  datatype Feature = Feature(id: Option<string>, props: Props)

  /** get_easements_near_point: every feature classified; a failed query (None) gives []. */
  function EasementsNear(features: Option<seq<Feature>>): (r: seq<Easement>)
    ensures features.None? ==> r == []
    ensures features.Some? ==> |r| == |features.value|
    ensures features.Some? ==> forall i | 0 <= i < |r| ::
      var c := Classify(features.value[i].props);
      r[i] == Easement(features.value[i].id, c.kind, c.severity, c.description)
    ensures forall e | e in r :: 1 <= e.severity <= 3
  {
    match features
    case None => []
    case Some(fs) =>
      var r := seq(|fs|, i requires 0 <= i < |fs| =>
        var c := Classify(fs[i].props);
        Easement(fs[i].id, c.kind, c.severity, c.description));
      assert forall i | 0 <= i < |fs| :: 1 <= r[i].severity <= 3 by {
        forall i | 0 <= i < |fs| ensures 1 <= r[i].severity <= 3 { ClassifyBounds(EasementText(fs[i].props)); }
      }
      r
  }

  /** `(has_blockers, has_any_easement, easements_found)`. */
  datatype EasementCheck = EasementCheck(hasBlockers: bool, hasAny: bool, easements: seq<Easement>)

  function AnyBlocker(es: seq<Easement>): (b: bool)
    ensures b <==> exists e | e in es :: e.severity >= 3
  {
    if es == [] then false
    else es[0].severity >= 3 || AnyBlocker(es[1..])
  }

  function CheckPropertyEasements(easements: seq<Easement>): (r: EasementCheck)
    ensures r.easements == easements
    ensures r.hasBlockers <==> exists e | e in easements :: e.severity >= 3
    ensures r.hasAny <==> |easements| > 0
    ensures r.hasBlockers ==> r.hasAny
  {
    EasementCheck(AnyBlocker(easements), |easements| > 0, easements)
  }
}
