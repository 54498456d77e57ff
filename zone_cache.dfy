/**
 * The cached zone lookup: a point cache keyed by coordinates rounded to five
 * decimals, then the local planning-zone polygons, then the remote WFS query
 * whose answer, or a "no zone" sentinel, is written back to the point cache.
 * Times are in days on one clock; polygon containment is an input.
 */
module ZoneCache {
  import opened Wrappers
  import opened Numeric
  import opened GisClients

  /** What a point-cache row stores under `properties`. */
  datatype Stored =
    | RemoteZone(zone: Zone)          // the WFS zone record
    | PolygonAttributes(attrs: Props) // the matching polygon's attributes
    | NoZoneSentinel                  // {"status": "none"}: the WFS found nothing

  /** A CachedZone row. */
  datatype PointEntry = PointEntry(latRound: real, lonRound: real, zoneCode: Option<string>,
                                   lga: Option<string>, properties: Stored, fetchedAt: real)

  /** A PlanningZone candidate whose bounding box holds the point; `contains` is None when its WKT fails to load. */
  datatype Candidate = Candidate(zoneCode: Option<string>, lga: Option<string>, attributes: Props, contains: Option<bool>)

  /** The dictionary get_zone_at_point_cached returns. */
  datatype ZoneInfo = ZoneInfo(code: Option<string>, lga: Option<string>, properties: Stored,
                               cached: bool, source: Option<string>)

  predicate SameKey(e: PointEntry, latRound: real, lonRound: real)
  {
    e.latRound == latRound && e.lonRound == lonRound
  }

  /** The index of the newest row for the key (the later row on equal times), or |rows| when there is none. */
  function LatestFor(rows: seq<PointEntry>, latRound: real, lonRound: real): (k: nat)
    ensures k <= |rows|
    ensures k == |rows| <==> forall i | 0 <= i < |rows| :: !SameKey(rows[i], latRound, lonRound)
    ensures k < |rows| ==> SameKey(rows[k], latRound, lonRound)
    ensures k < |rows| ==>
      forall i | 0 <= i < |rows| && SameKey(rows[i], latRound, lonRound) :: rows[i].fetchedAt <= rows[k].fetchedAt
    ensures k < |rows| ==>
      forall i | k < i < |rows| && SameKey(rows[i], latRound, lonRound) :: rows[i].fetchedAt < rows[k].fetchedAt
  {
    if rows == [] then 0
    else
      var n := |rows| - 1;
      var last := rows[n];
      var k := LatestFor(rows[..n], latRound, lonRound);
      if SameKey(last, latRound, lonRound) && (k == n || rows[k].fetchedAt <= last.fetchedAt) then n
      else if k == n then |rows|
      else k
  }

  /** The index of the first candidate whose polygon loads and contains the point, or |cands|. */
  function FirstContaining(cands: seq<Candidate>): (k: nat)
    ensures k <= |cands|
    ensures k < |cands| ==> cands[k].contains == Some(true)
    ensures forall i | 0 <= i < k :: cands[i].contains != Some(true)
  {
    if cands == [] then 0
    else if cands[0].contains == Some(true) then 0
    else FirstContaining(cands[1..]) + 1
  }

  /** Which tier answered. */
  datatype Tier = NoCoordinates | PointCache | LocalPolygon | Remote

  /** The answer, the point-cache rows afterwards, and the tier that answered. */
  datatype Outcome = Outcome(info: Option<ZoneInfo>, rows: seq<PointEntry>, tier: Tier)

  /**
   * get_zone_at_point_cached.  `polygons` is the bounding-box query of the
   * polygon cache (None when it raised); `remote` is the WFS answer.
   */
  function Lookup(rows: seq<PointEntry>, lat: Option<real>, lon: Option<real>, now: real, maxAgeDays: real,
                  polygons: Option<seq<Candidate>>, remote: seq<Zone>): Outcome
  {
    if lat.None? || lon.None? then Outcome(None, rows, NoCoordinates)
    else
      var latRound := Round5(lat.value);
      var lonRound := Round5(lon.value);
      var cutoff := now - maxAgeDays;
      var k := LatestFor(rows, latRound, lonRound);
      if k < |rows| && rows[k].fetchedAt >= cutoff then
        Outcome(Some(ZoneInfo(rows[k].zoneCode, rows[k].lga, rows[k].properties, true, None)), rows, PointCache)
      else
        var cands := if polygons.Some? then polygons.value else [];
        var j := FirstContaining(cands);
        if j < |cands| then
          var c := cands[j];
          var entry := PointEntry(latRound, lonRound, c.zoneCode, c.lga, PolygonAttributes(c.attributes), now);
          Outcome(Some(ZoneInfo(c.zoneCode, c.lga, PolygonAttributes(c.attributes), true, Some("local_polygon"))),
                  rows + [entry], LocalPolygon)
        else if remote == [] then
          Outcome(None, rows + [PointEntry(latRound, lonRound, None, None, NoZoneSentinel, now)], Remote)
        else
          var z := remote[0];
          Outcome(Some(ZoneInfo(Some(z.code), z.lga, RemoteZone(z), false, None)),
                  rows + [PointEntry(latRound, lonRound, Some(z.code), z.lga, RemoteZone(z), now)], Remote)
  }

  /**
   * What each tier promises: missing coordinates answer None and write
   * nothing; a fresh point-cache row answers as cached, even a sentinel whose
   * code is None, and writes nothing; a polygon hit and the remote query
   * each write exactly one row; a remote miss answers None and writes the
   * sentinel; a remote hit is not cached.
   */
  lemma LookupTiers(rows: seq<PointEntry>, lat: Option<real>, lon: Option<real>, now: real, maxAgeDays: real,
                    polygons: Option<seq<Candidate>>, remote: seq<Zone>)
    ensures var o := Lookup(rows, lat, lon, now, maxAgeDays, polygons, remote);
      && (o.tier == NoCoordinates <==> lat.None? || lon.None?)
      && (o.tier == NoCoordinates ==> o.info.None? && o.rows == rows)
      && (o.tier == PointCache ==> o.rows == rows && o.info.Some? && o.info.value.cached && o.info.value.source.None?)
      && (o.tier == LocalPolygon ==>
            && |o.rows| == |rows| + 1 && o.rows[..|rows|] == rows && o.info.Some?
            && o.info.value.cached && o.info.value.source == Some("local_polygon"))
      && (o.tier == Remote ==>
            && |o.rows| == |rows| + 1 && o.rows[..|rows|] == rows
            && (o.info.None? <==> remote == [])
            && (remote == [] ==> o.rows[|rows|].properties == NoZoneSentinel && o.rows[|rows|].zoneCode.None?)
            && (remote != [] ==> !o.info.value.cached && o.info.value.code == Some(remote[0].code)))
  {
    var o := Lookup(rows, lat, lon, now, maxAgeDays, polygons, remote);
    if o.tier == LocalPolygon || o.tier == Remote {
      assert o.rows[..|rows|] == rows;
    }
  }

  /**
   * Writing back makes the next lookup a point-cache hit: when the clock has
   * not gone backwards, a lookup that went past the point cache, repeated at
   * the same time and place, is answered from the row it wrote, with the
   * same code (None for the sentinel).
   */
  lemma WriteBackHits(rows: seq<PointEntry>, lat: real, lon: real, now: real, maxAgeDays: real,
                      polygons: Option<seq<Candidate>>, remote: seq<Zone>,
                      polygons2: Option<seq<Candidate>>, remote2: seq<Zone>)
    requires maxAgeDays >= 0.0
    requires forall i | 0 <= i < |rows| :: rows[i].fetchedAt <= now
    requires Lookup(rows, Some(lat), Some(lon), now, maxAgeDays, polygons, remote).tier != PointCache
    ensures var o := Lookup(rows, Some(lat), Some(lon), now, maxAgeDays, polygons, remote);
      var o2 := Lookup(o.rows, Some(lat), Some(lon), now, maxAgeDays, polygons2, remote2);
      && o2.tier == PointCache
      && o2.rows == o.rows
      && o2.info.value.code == (if o.info.Some? then o.info.value.code else None)
  {
    var o := Lookup(rows, Some(lat), Some(lon), now, maxAgeDays, polygons, remote);
    var k := LatestFor(o.rows, Round5(lat), Round5(lon));
    var n := |rows|;
    assert o.rows[..n] == rows;
    assert SameKey(o.rows[n], Round5(lat), Round5(lon));
    assert k == n;
  }

  /** The CachedZone table. */
  class ZoneCacheTable {
    var rows: seq<PointEntry>

    constructor()
      ensures rows == []
    {
      rows := [];
    }

    /** get_zone_at_point_cached, reading and writing this table. */
    method GetZoneAtPointCached(lat: Option<real>, lon: Option<real>, now: real, maxAgeDays: real,
                                polygons: Option<seq<Candidate>>, remote: seq<Zone>) returns (info: Option<ZoneInfo>)
      modifies this
      ensures var o := Lookup(old(rows), lat, lon, now, maxAgeDays, polygons, remote);
        info == o.info && rows == o.rows
    {
      if lat.None? || lon.None? {
        return None;
      }
      var latRound := Round5(lat.value);
      var lonRound := Round5(lon.value);
      var cutoff := now - maxAgeDays;

      // 1. The point cache.
      var k := LatestFor(rows, latRound, lonRound);
      if k < |rows| && rows[k].fetchedAt >= cutoff {
        return Some(ZoneInfo(rows[k].zoneCode, rows[k].lga, rows[k].properties, true, None));
      }

      // 2. The polygon cache: the first candidate that loads and contains the point.
      if polygons.Some? {
        var cands := polygons.value;
        var j := 0;
        while j < |cands|
          invariant 0 <= j <= |cands|
          invariant forall i | 0 <= i < j :: cands[i].contains != Some(true)
          invariant rows == old(rows)
        {
          var c := cands[j];
          if c.contains == Some(true) {
            FirstContainingIs(cands, j);
            rows := rows + [PointEntry(latRound, lonRound, c.zoneCode, c.lga, PolygonAttributes(c.attributes), now)];
            return Some(ZoneInfo(c.zoneCode, c.lga, PolygonAttributes(c.attributes), true, Some("local_polygon")));
          }
          j := j + 1;
        }
        FirstContainingIs(cands, j);
      }

      // 3. The remote query, always written back.
      if remote == [] {
        rows := rows + [PointEntry(latRound, lonRound, None, None, NoZoneSentinel, now)];
        return None;
      }
      var z := remote[0];
      rows := rows + [PointEntry(latRound, lonRound, Some(z.code), z.lga, RemoteZone(z), now)];
      info := Some(ZoneInfo(Some(z.code), z.lga, RemoteZone(z), false, None));
    }
  }

  lemma FirstContainingIs(cands: seq<Candidate>, j: nat)
    requires j <= |cands|
    requires j < |cands| ==> cands[j].contains == Some(true)
    requires forall i | 0 <= i < j :: cands[i].contains != Some(true)
    ensures FirstContaining(cands) == j
  {
  }
}
