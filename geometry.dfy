/**
 * Parcel geometry rules: choosing the frontage edge, the frontage length,
 * the slope and elevation guards and the compass label of the rear bearing.
 * Edge lengths and midpoint-to-road distances (in metres), contour
 * altitudes, the run length and the inward normal's angle are inputs; the
 * WFS queries and shapely's measurements that produce them are not modelled.
 */
module Geometry {
  import opened Wrappers

  // ---------------------------------------------------------------------
  // The frontage edge.
  // ---------------------------------------------------------------------

  /** An edge of the parcel's exterior ring: its length and its midpoint's distance to each road. */
  datatype Edge = Edge(lengthM: real, roadDistancesM: seq<real>)

  const FrontageMaxDistM: real := 20.0
  const NoDistanceM: real := 999.0

  /** The distance from the edge's midpoint to the nearest road; None stands for infinity (no roads). */
  function NearestRoad(ds: seq<real>): (r: Option<real>)
    ensures r.None? <==> ds == []
    ensures r.Some? ==> r.value in ds && forall i | 0 <= i < |ds| :: r.value <= ds[i]
  {
    if ds == [] then None
    else
      var rest := NearestRoad(ds[..|ds| - 1]);
      var d := ds[|ds| - 1];
      if rest.None? || d < rest.value then Some(d) else rest
  }

  /** An edge is near a road when some road is strictly closer than 20 m to its midpoint. */
  predicate NearRoad(e: Edge)
  {
    var d := NearestRoad(e.roadDistancesM);
    d.Some? && d.value < FrontageMaxDistM
  }

  /** The frontage edge: its index (-1 when none), its length and its midpoint's road distance. */
  datatype Frontage = Frontage(index: int, lengthM: real, distM: real)

  /**
   * The loop of _find_frontage_edge over the first |edges| edges: the
   * strictly longest edge near a road wins, the first one on ties; an edge
   * must also be longer than 0 m to beat the starting length.
   */
  function BestEdge(edges: seq<Edge>): (r: Frontage)
    ensures -1 <= r.index < |edges|
  {
    if edges == [] then Frontage(-1, 0.0, NoDistanceM)
    else
      var n := |edges| - 1;
      var best := BestEdge(edges[..n]);
      var e := edges[n];
      if NearRoad(e) && e.lengthM > best.lengthM then Frontage(n, e.lengthM, NearestRoad(e.roadDistancesM).value)
      else best
  }

  /** A qualifying edge: near a road and longer than the starting length 0.0. */
  predicate Qualifies(e: Edge)
  {
    NearRoad(e) && e.lengthM > 0.0
  }

  /**
   * The strictly longest qualifying edge wins, the first one on ties, and
   * -1 with length 0.0 means no edge qualifies.
   */
  lemma BestEdgeSpec(edges: seq<Edge>)
    ensures var r := BestEdge(edges);
      && (r.index == -1 <==> forall i | 0 <= i < |edges| :: !Qualifies(edges[i]))
      && (r.index == -1 ==> r == Frontage(-1, 0.0, NoDistanceM))
      && (r.index >= 0 ==>
            && Qualifies(edges[r.index]) && r.lengthM == edges[r.index].lengthM
            && r.distM == NearestRoad(edges[r.index].roadDistancesM).value
            && (forall i | 0 <= i < |edges| && Qualifies(edges[i]) :: edges[i].lengthM <= r.lengthM)
            && (forall i | 0 <= i < r.index && Qualifies(edges[i]) :: edges[i].lengthM < r.lengthM))
  {
    BestEdgeFound(edges);
    BestEdgeLongest(edges);
  }

  /** The winner is a qualifying edge with its own length and distance, or the starting frontage. */
  lemma {:induction false} BestEdgeFound(edges: seq<Edge>)
    ensures var r := BestEdge(edges);
      && r.lengthM >= 0.0
      && (r.index == -1 ==> r == Frontage(-1, 0.0, NoDistanceM))
      && (r.index >= 0 ==>
            && Qualifies(edges[r.index]) && r.lengthM == edges[r.index].lengthM
            && r.distM == NearestRoad(edges[r.index].roadDistancesM).value)
  {
    if edges != [] {
      var n := |edges| - 1;
      var prefix := edges[..n];
      BestEdgeFound(prefix);
      var best := BestEdge(prefix);
      if best.index >= 0 {
        assert prefix[best.index] == edges[best.index];
      }
    }
  }

  /** No qualifying edge is longer than the winner, and every one before it is strictly shorter. */
  lemma {:induction false} BestEdgeLongest(edges: seq<Edge>)
    ensures var r := BestEdge(edges);
      && (forall i | 0 <= i < |edges| && Qualifies(edges[i]) :: edges[i].lengthM <= r.lengthM)
      && (forall i | 0 <= i < r.index && Qualifies(edges[i]) :: edges[i].lengthM < r.lengthM)
  {
    if edges != [] {
      var n := |edges| - 1;
      var prefix := edges[..n];
      BestEdgeLongest(prefix);
      BestEdgeFound(prefix);
      var best := BestEdge(prefix);
      assert forall i | 0 <= i < n :: prefix[i] == edges[i];
    }
  }

  /** A parcel as the frontage rules see it: absent, empty, or its exterior ring's edges. */
  datatype Parcel = NoParcel | EmptyParcel | Ring(edges: seq<Edge>)

  /** _find_frontage_edge; `roadCount` is the number of road lines the WFS returned (0 when it failed). */
  function FindFrontage(p: Parcel, roadCount: nat): Frontage
  {
    if !p.Ring? then Frontage(-1, 0.0, 0.0)
    else if roadCount == 0 then Frontage(-1, 0.0, 0.0)
    else BestEdge(p.edges)
  }

  /** The loop form of _find_frontage_edge. */
  method FindFrontageEdge(p: Parcel, roadCount: nat) returns (f: Frontage)
    ensures f == FindFrontage(p, roadCount)
  {
    if !p.Ring? || roadCount == 0 {
      return Frontage(-1, 0.0, 0.0);
    }
    var edges := p.edges;
    var bestIdx := -1;
    var maxLen := 0.0;
    var minDistOfBest := NoDistanceM;
    var i := 0;
    while i < |edges|
      invariant 0 <= i <= |edges|
      invariant BestEdge(edges[..i]) == Frontage(bestIdx, maxLen, minDistOfBest)
    {
      assert edges[..i + 1][..i] == edges[..i];
      var minDist := NearestDistance(edges[i].roadDistancesM);
      if minDist.Some? && minDist.value < FrontageMaxDistM {
        if edges[i].lengthM > maxLen {
          maxLen := edges[i].lengthM;
          bestIdx := i;
          minDistOfBest := minDist.value;
        }
      }
      i := i + 1;
    }
    assert edges[..i] == edges;
    f := Frontage(bestIdx, maxLen, minDistOfBest);
  }

  /** The inner loop over the roads, keeping the strictly smaller distance. */
  method NearestDistance(ds: seq<real>) returns (m: Option<real>)
    ensures m == NearestRoad(ds)
  {
    m := None;
    var j := 0;
    while j < |ds|
      invariant 0 <= j <= |ds|
      invariant m == NearestRoad(ds[..j])
    {
      assert ds[..j + 1][..j] == ds[..j];
      if m.None? || ds[j] < m.value {
        m := Some(ds[j]);
      }
      j := j + 1;
    }
    assert ds[..j] == ds;
  }

  datatype FrontageNote = EdgeNote(index: nat, lengthM: real, distM: real) | NoFrontageFound

  /** calculate_frontage: the frontage edge's length with a note, or 0.0 when there is none. */
  function CalculateFrontage(p: Parcel, roadCount: nat): (r: (real, FrontageNote))
  {
    var f := FindFrontage(p, roadCount);
    if f.index != -1 then (f.lengthM, EdgeNote(f.index, f.lengthM, f.distM)) else (0.0, NoFrontageFound)
  }

  /** The frontage is 0.0 exactly when no edge was found, and otherwise the longest near-road edge. */
  lemma FrontageZeroIffNone(p: Parcel, roadCount: nat)
    ensures var (len, note) := CalculateFrontage(p, roadCount);
      && (len == 0.0 <==> note == NoFrontageFound)
      && (note == NoFrontageFound <==>
            !p.Ring? || roadCount == 0 || forall i | 0 <= i < |p.edges| :: !Qualifies(p.edges[i]))
      && (len > 0.0 ==> p.Ring? && forall i | 0 <= i < |p.edges| && Qualifies(p.edges[i]) :: p.edges[i].lengthM <= len)
  {
    if p.Ring? {
      BestEdgeSpec(p.edges);
    }
  }

  // ---------------------------------------------------------------------
  // Slope and elevation.
  // ---------------------------------------------------------------------

  /** A JSON property value: missing, a number, or text with the float it parses to (None when float() raises). */
  datatype JsonValue = Missing | Number(x: real) | Text(s: string, parsed: Option<real>)

  predicate Truthy(v: JsonValue)
  {
    match v
    case Missing => false
    case Number(x) => x != 0.0
    case Text(s, _) => s != ""
  }

  /** A contour near the parcel, with its ALTITUDE, altitude and ELEVATION properties. */
  datatype Contour = Contour(intersects: bool, upper: JsonValue, lower: JsonValue, elevation: JsonValue)

  /** The elevation a contour contributes: the first truthy property, as a float. */
  function ElevationOf(c: Contour): (r: Option<real>)
  {
    var v := if Truthy(c.upper) then c.upper else if Truthy(c.lower) then c.lower else c.elevation;
    if !c.intersects || !Truthy(v) then None
    else match v
      case Number(x) => Some(x)
      case Text(_, parsed) => parsed
      case Missing => None
  }

  function Elevations(cs: seq<Contour>): seq<real>
  {
    if cs == [] then []
    else
      var e := ElevationOf(cs[|cs| - 1]);
      Elevations(cs[..|cs| - 1]) + (if e.Some? then [e.value] else [])
  }

  function MinOf(xs: seq<real>): (m: real)
    requires xs != []
    ensures m in xs && forall i | 0 <= i < |xs| :: m <= xs[i]
  {
    if |xs| == 1 then xs[0]
    else
      var m := MinOf(xs[1..]);
      assert forall i | 1 <= i < |xs| :: xs[i] == xs[1..][i - 1];
      if xs[0] <= m then xs[0] else m
  }

  function MaxOf(xs: seq<real>): (m: real)
    requires xs != []
    ensures m in xs && forall i | 0 <= i < |xs| :: xs[i] <= m
  {
    if |xs| == 1 then xs[0]
    else
      var m := MaxOf(xs[1..]);
      assert forall i | 1 <= i < |xs| :: xs[i] == xs[1..][i - 1];
      if xs[0] >= m then xs[0] else m
  }

  function Sum(xs: seq<real>): real
  {
    if xs == [] then 0.0 else xs[0] + Sum(xs[1..])
  }

  /** The sum is at least |xs| times a lower bound of the elements. */
  lemma {:induction false} SumAtLeast(xs: seq<real>, lo: real)
    requires forall i | 0 <= i < |xs| :: lo <= xs[i]
    ensures |xs| as real * lo <= Sum(xs)
  {
    if xs != [] {
      assert forall i | 1 <= i < |xs| :: xs[i] == xs[1..][i - 1];
      SumAtLeast(xs[1..], lo);
      var n := |xs[1..]| as real;
      assert |xs| as real * lo == n * lo + lo;
    }
  }

  /** The sum is at most |xs| times an upper bound of the elements. */
  lemma {:induction false} SumAtMost(xs: seq<real>, hi: real)
    requires forall i | 0 <= i < |xs| :: xs[i] <= hi
    ensures Sum(xs) <= |xs| as real * hi
  {
    if xs != [] {
      assert forall i | 1 <= i < |xs| :: xs[i] == xs[1..][i - 1];
      SumAtMost(xs[1..], hi);
      var n := |xs[1..]| as real;
      assert |xs| as real * hi == n * hi + hi;
    }
  }

  /** The mean of a non-empty list lies between its minimum and its maximum. */
  lemma AverageWithinExtremes(els: seq<real>)
    requires els != []
    ensures MinOf(els) <= Sum(els) / |els| as real <= MaxOf(els)
  {
    AverageAtLeastMin(els);
    AverageAtMostMax(els);
  }

  lemma AverageAtLeastMin(els: seq<real>)
    requires els != []
    ensures MinOf(els) <= Sum(els) / |els| as real
  {
    BoundedMeanAtLeast(els, |els| as real, MinOf(els));
  }

  lemma BoundedMeanAtLeast(els: seq<real>, n: real, lo: real)
    requires els != [] && n == |els| as real
    requires forall i | 0 <= i < |els| :: lo <= els[i]
    ensures lo <= Sum(els) / n
  {
    SumAtLeast(els, lo);
    MeanAtLeast(Sum(els), n, lo);
  }

  lemma AverageAtMostMax(els: seq<real>)
    requires els != []
    ensures Sum(els) / |els| as real <= MaxOf(els)
  {
    BoundedMeanAtMost(els, |els| as real, MaxOf(els));
  }

  lemma BoundedMeanAtMost(els: seq<real>, n: real, hi: real)
    requires els != [] && n == |els| as real
    requires forall i | 0 <= i < |els| :: els[i] <= hi
    ensures Sum(els) / n <= hi
  {
    SumAtMost(els, hi);
    MeanAtMost(Sum(els), n, hi);
  }

  lemma MeanAtLeast(total: real, n: real, lo: real)
    requires n > 0.0 && n * lo <= total
    ensures lo <= total / n
  {
    assert total / n * n == total;
  }

  lemma MeanAtMost(total: real, n: real, hi: real)
    requires n > 0.0 && total <= n * hi
    ensures total / n <= hi
  {
    assert total / n * n == total;
  }

  datatype SlopeNote = InvalidGeometry | FetchError | NoContourData | ZeroArea | Range(minEl: real, maxEl: real, rise: real)

  datatype Slope = Slope(slopePct: real, avgElevation: real, note: SlopeNote)

  /**
   * calculate_slope_and_elevation.  `contours` is None when the contour
   * query raised; `run` is the parcel's diagonal proxy in metres.
   */
  function SlopeAndElevation(hasParcel: bool, contours: Option<seq<Contour>>, run: real): Slope
  {
    if !hasParcel then Slope(0.0, 0.0, InvalidGeometry)
    else if contours.None? then Slope(0.0, 0.0, FetchError)
    else
      var els := Elevations(contours.value);
      if els == [] then Slope(0.0, 0.0, NoContourData)
      else
        var lo := MinOf(els);
        var hi := MaxOf(els);
        var avg := Sum(els) / |els| as real;
        var rise := hi - lo;
        if run <= 0.0 then Slope(0.0, avg, ZeroArea)
        else Slope(rise / run * 100.0, avg, Range(lo, hi, rise))
  }

  /**
   * The guards of the slope calculation: without elevations the slope and
   * elevation are zero; otherwise the rise is max - min, the slope is never
   * negative, and the average elevation lies between the extremes.
   */
  lemma SlopeBounds(hasParcel: bool, contours: Option<seq<Contour>>, run: real)
    ensures var s := SlopeAndElevation(hasParcel, contours, run);
      && s.slopePct >= 0.0
      && (hasParcel && contours.Some? && Elevations(contours.value) == [] ==> s == Slope(0.0, 0.0, NoContourData))
      && (s.note.Range? ==>
            var els := Elevations(contours.value);
            && s.note.rise == s.note.maxEl - s.note.minEl >= 0.0
            && s.note.minEl in els && s.note.maxEl in els
            && s.note.minEl <= s.avgElevation <= s.note.maxEl)
  {
    if hasParcel && contours.Some? && Elevations(contours.value) != [] {
      var els := Elevations(contours.value);
      var lo := MinOf(els);
      var hi := MaxOf(els);
      assert lo <= els[0] <= hi;
      AverageWithinExtremes(els);
      if run > 0.0 {
        SlopeNonNegative(hi - lo, run);
      }
    }
  }

  lemma SlopeNonNegative(rise: real, run: real)
    requires rise >= 0.0 && run > 0.0
    ensures rise / run * 100.0 >= 0.0
  {
  }

  // ---------------------------------------------------------------------
  // Orientation.
  // ---------------------------------------------------------------------

  /** Python `x % 360.0` on a float: the remainder takes the divisor's sign, so it lies in [0, 360). */
  function Mod360(x: real): (r: real)
    ensures 0.0 <= r < 360.0
    ensures ((x - r) / 360.0).Floor as real == (x - r) / 360.0
  {
    var k := (x / 360.0).Floor;
    assert x == k as real * 360.0 + (x - k as real * 360.0);
    x - k as real * 360.0
  }

  /** The quarter label the first pass assigns. */
  function QuarterLabel(bearing: real): string
  {
    var d := "North";
    var d := if 45.0 <= bearing < 135.0 then "East" else d;
    var d := if 135.0 <= bearing < 225.0 then "South" else d;
    if 225.0 <= bearing < 315.0 then "West" else d
  }

  /** calculate_orientation's label: the quarter label, refined by eight 45-degree sectors centred on the compass points. */
  function CompassLabel(bearing: real): string
  {
    var quarter := QuarterLabel(bearing);
    if 337.5 <= bearing || bearing < 22.5 then "North"
    else if 22.5 <= bearing < 67.5 then "North-East"
    else if 67.5 <= bearing < 112.5 then "East"
    else if 112.5 <= bearing < 157.5 then "South-East"
    else if 157.5 <= bearing < 202.5 then "South"
    else if 202.5 <= bearing < 247.5 then "South-West"
    else if 247.5 <= bearing < 292.5 then "West"
    else if 292.5 <= bearing < 337.5 then "North-West"
    else quarter
  }

  const CompassPoints: seq<string> :=
    ["North", "North-East", "East", "South-East", "South", "South-West", "West", "North-West"]

  /**
   * Every bearing in [0, 360) gets exactly one of the eight labels, the one
   * whose 45-degree sector (centred on k * 45 degrees) holds it; the quarter
   * pass never decides the result.
   */
  lemma CompassLabelSector(bearing: real)
    requires 0.0 <= bearing < 360.0
    ensures CompassLabel(bearing) in CompassPoints
    ensures forall k | 1 <= k < 8 ::
      (k as real * 45.0 - 22.5 <= bearing < k as real * 45.0 + 22.5 <==> CompassLabel(bearing) == CompassPoints[k])
    ensures CompassLabel(bearing) == "North" <==> bearing < 22.5 || 337.5 <= bearing
  {
  }

  datatype Orientation = Orientation(bearing: real, compass: string)

  /**
   * calculate_orientation.  `frontageIndex` is the caller's index (-1 to
   * search), `found` what the search returns, and `inwardAngle` the angle in
   * degrees of the normal that points into the parcel.
   */
  function CalculateOrientation(hasParcel: bool, frontageIndex: int, found: int, inwardAngle: real): (o: Orientation)
  {
    if !hasParcel then Orientation(0.0, "Invalid Geom")
    else
      var idx := if frontageIndex == -1 then found else frontageIndex;
      if idx == -1 then Orientation(0.0, "No Frontage Found")
      else
        var bearing := Mod360(inwardAngle);
        Orientation(bearing, CompassLabel(bearing))
  }

  /** With a frontage edge, the bearing lies in [0, 360) and carries its compass label. */
  lemma OrientationBounds(hasParcel: bool, frontageIndex: int, found: int, inwardAngle: real)
    ensures var o := CalculateOrientation(hasParcel, frontageIndex, found, inwardAngle);
      && 0.0 <= o.bearing < 360.0
      && (hasParcel && (frontageIndex != -1 || found != -1) ==>
            o.compass in CompassPoints && o.bearing == Mod360(inwardAngle))
  {
    var o := CalculateOrientation(hasParcel, frontageIndex, found, inwardAngle);
    if hasParcel && (frontageIndex != -1 || found != -1) {
      CompassLabelSector(o.bearing);
    }
  }
}
