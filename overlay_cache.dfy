/**
 * The local planning-overlay cache: a table of overlay polygons downloaded
 * page by page from the WFS, and an in-memory index over the rows whose
 * geometry text loads.  Whether a geometry text loads and whether a polygon
 * intersects the query point are inputs (`loads`, `intersects`).
 */
module OverlayCache {
  import opened Wrappers
  import opened Text
  import opened GisClients

  /** A CachedOverlay row as save_feature means to write it. */
  datatype OverlayRow = OverlayRow(featureId: string, overlayType: string, overlayCode: string,
                                   lga: Option<string>, geomWkt: string, attributes: Props, fetchedAt: real)

  /** The GeoJSON geometry of a downloaded feature: absent, rejected by shape(), or its WKT. */
  datatype Geometry = NoGeometry | BadShape | Shape(wkt: string)

  datatype RawFeature = RawFeature(props: Props, geometry: Geometry, id: Option<string>)

  /** One WFS page request: it raised, or it answered these features. */
  datatype Response = Failed | Page(features: seq<RawFeature>)

  const PageSize: nat := 1000
  const MaxAgeDays: real := 30.0
  const CachedTypes: seq<string> := ["HO", "BMO", "PAO", "EAO"]

  /** The overlay type a code maps to; None is the "OTHER" type, which is never saved. */
  function OverlayTypeOf(code: string): (t: Option<string>)
    ensures t.Some? ==> t.value in CachedTypes
  {
    if StartsWith(code, "HO") then Some("HO")
    else if StartsWith(code, "BMO") || StartsWith(code, "WMO") then Some("BMO")
    else if StartsWith(code, "PAO") then Some("PAO")
    else if StartsWith(code, "EAO") then Some("EAO")
    else None
  }

  /** A type is chosen exactly when the code starts with a cached prefix (WMO being the older name of BMO). */
  lemma OverlayTypePrefix(code: string)
    ensures OverlayTypeOf(code).None? <==>
      !StartsWith(code, "HO") && !StartsWith(code, "BMO") && !StartsWith(code, "WMO")
      && !StartsWith(code, "PAO") && !StartsWith(code, "EAO")
    ensures OverlayTypeOf(code) == Some("BMO") ==> StartsWith(code, "BMO") || StartsWith(code, "WMO")
    ensures forall t | t in ["HO", "PAO", "EAO"] :: OverlayTypeOf(code) == Some(t) ==> StartsWith(code, t)
  {
  }

  /**
   * str(pfi or PFI or feature id).  Python's `or` yields its last operand
   * even when that is falsy, so an empty feature id is kept as "" and a
   * missing one becomes "None".
   */
  function FeatureIdOf(f: RawFeature): (r: string)
    ensures r == "" <==> FirstTruthy(f.props, ["pfi", "PFI"]) == "" && f.id == Some("")
    ensures f.id.None? && FirstTruthy(f.props, ["pfi", "PFI"]) == "" ==> r == "None"
  {
    var pfi := FirstTruthy(f.props, ["pfi", "PFI"]);
    if pfi != "" then pfi
    else if f.id.Some? then f.id.value
    else "None"
  }

  /** The row save_feature means to write for a feature, or None when it writes nothing. */
  function RowOf(f: RawFeature, now: real): (r: Option<OverlayRow>)
    ensures r.Some? ==>
      && f.geometry.Shape? && r.value.overlayType in CachedTypes
      && Some(r.value.overlayType) == OverlayTypeOf(r.value.overlayCode) && r.value.fetchedAt == now
    ensures f.geometry.Shape? && OverlayTypeOf(FirstTruthy(f.props, ["ZONE_CODE", "LZONE_CODE"])).Some? ==> r.Some?
  {
    if !f.geometry.Shape? then None
    else
      var code := FirstTruthy(f.props, ["ZONE_CODE", "LZONE_CODE"]);
      match OverlayTypeOf(code)
      case None => None
      case Some(t) =>
        Some(OverlayRow(FeatureIdOf(f), t, code, OptionOf(FirstTruthy(f.props, ["LGA_NAME", "LGA_CODE"])),
                        f.geometry.wkt, f.props, now))
  }

  /**
   * The intended upsert by feature_id: replace the row with that id in
   * place, else append.  The merge in save_feature is meant to do this; as
   * written its row has no primary key, so the merge inserts (see README).
   */
  function Upsert(rows: seq<OverlayRow>, row: OverlayRow): (r: seq<OverlayRow>)
    ensures row in r
    ensures forall x | x in r :: x == row || x in rows
    ensures forall x | x in rows && x.featureId != row.featureId :: x in r
  {
    if rows == [] then [row]
    else if rows[0].featureId == row.featureId then [row] + rows[1..]
    else [rows[0]] + Upsert(rows[1..], row)
  }

  function SaveFeature(rows: seq<OverlayRow>, f: RawFeature, now: real): seq<OverlayRow>
  {
    match RowOf(f, now)
    case None => rows
    case Some(row) => Upsert(rows, row)
  }

  /** Saving features one after the other. */
  function SaveAll(rows: seq<OverlayRow>, fs: seq<RawFeature>, now: real): seq<OverlayRow>
  {
    if fs == [] then rows else SaveFeature(SaveAll(rows, fs[..|fs| - 1], now), fs[|fs| - 1], now)
  }

  /** Every row in the table has one of the four cached types. */
  predicate CachedTypesOnly(rows: seq<OverlayRow>)
  {
    forall i | 0 <= i < |rows| :: rows[i].overlayType in CachedTypes
  }

  predicate UniqueIds(rows: seq<OverlayRow>)
  {
    forall i, j | 0 <= i < j < |rows| :: rows[i].featureId != rows[j].featureId
  }

  lemma {:induction false} UpsertUnique(rows: seq<OverlayRow>, row: OverlayRow)
    requires UniqueIds(rows)
    ensures UniqueIds(Upsert(rows, row))
    ensures forall x | x in Upsert(rows, row) :: x.featureId == row.featureId || exists y | y in rows :: y.featureId == x.featureId
  {
    if rows != [] && rows[0].featureId != row.featureId {
      UpsertUnique(rows[1..], row);
      var tail := Upsert(rows[1..], row);
      forall x | x in tail ensures x.featureId != rows[0].featureId {
        if x != row {
          assert x in rows[1..];
        }
      }
    } else if rows != [] {
      forall x | x in rows[1..] ensures x.featureId != row.featureId {
        var j :| 0 <= j < |rows[1..]| && rows[1..][j] == x;
        assert rows[j + 1] == x;
      }
    }
  }

  /** Whatever is downloaded, the table holds only the four cached types, one row per feature id. */
  lemma {:induction false} SaveAllKeepsTable(rows: seq<OverlayRow>, fs: seq<RawFeature>, now: real)
    requires CachedTypesOnly(rows) && UniqueIds(rows)
    ensures CachedTypesOnly(SaveAll(rows, fs, now)) && UniqueIds(SaveAll(rows, fs, now))
  {
    if fs != [] {
      var before := SaveAll(rows, fs[..|fs| - 1], now);
      SaveAllKeepsTable(rows, fs[..|fs| - 1], now);
      var r := RowOf(fs[|fs| - 1], now);
      if r.Some? {
        UpsertUnique(before, r.value);
        var after := Upsert(before, r.value);
        forall i | 0 <= i < |after| ensures after[i].overlayType in CachedTypes {
          assert after[i] in after;
        }
      }
    }
  }

  /** A page ends the download when the request raised, came back empty, or came back short. */
  predicate Stops(r: Response)
  {
    r.Failed? || |r.features| < PageSize
  }

  predicate HasStop(responses: seq<Response>)
  {
    exists k | 0 <= k < |responses| :: Stops(responses[k])
  }

  /** The page at which the download stops. */
  function FirstStop(responses: seq<Response>): (k: nat)
    requires HasStop(responses)
    ensures k < |responses| && Stops(responses[k])
    ensures forall i | 0 <= i < k :: !Stops(responses[i])
  {
    if Stops(responses[0]) then 0
    else
      assert HasStop(responses[1..]) by {
        var k :| 0 <= k < |responses| && Stops(responses[k]);
        assert responses[1..][k - 1] == responses[k];
      }
      FirstStop(responses[1..]) + 1
  }

  function PageFeatures(r: Response): seq<RawFeature>
  {
    if r.Failed? then [] else r.features
  }

  /** The features of the given pages, in download order. */
  function Downloaded(pages: seq<Response>): seq<RawFeature>
  {
    if pages == [] then [] else Downloaded(pages[..|pages| - 1]) + PageFeatures(pages[|pages| - 1])
  }

  /** The start indices requested for the first n pages: 0, 1000, 2000, ... (multiples of PageSize). */
  function Offsets(n: nat): (r: seq<nat>)
    ensures |r| == n
    ensures forall k | 0 <= k < n :: r[k] == k * 1000
  {
    seq(n, k => k * 1000)
  }

  /** The newest fetch time in a non-empty table. */
  function Newest(rows: seq<OverlayRow>): (t: real)
    requires rows != []
    ensures forall i | 0 <= i < |rows| :: rows[i].fetchedAt <= t
    ensures exists i | 0 <= i < |rows| :: rows[i].fetchedAt == t
  {
    if |rows| == 1 then rows[0].fetchedAt
    else
      var t := Newest(rows[1..]);
      assert forall i | 1 <= i < |rows| :: rows[i] == rows[1..][i - 1];
      if rows[0].fetchedAt >= t then rows[0].fetchedAt else t
  }

  /** populate leaves the table alone when it is non-empty, not forced, and its newest row is under 30 days old. */
  predicate SkipsRefresh(rows: seq<OverlayRow>, force: bool, now: real)
  {
    |rows| > 0 && !force && now - Newest(rows) < MaxAgeDays
  }

  /** The skip rule holds exactly when some row was fetched less than 30 days ago. */
  lemma SkipsIffRecentRow(rows: seq<OverlayRow>, force: bool, now: real)
    ensures SkipsRefresh(rows, force, now) <==>
      !force && exists i | 0 <= i < |rows| :: now - rows[i].fetchedAt < MaxAgeDays
  {
    if !force && exists i | 0 <= i < |rows| :: now - rows[i].fetchedAt < MaxAgeDays {
      var i :| 0 <= i < |rows| && now - rows[i].fetchedAt < MaxAgeDays;
      assert rows[i].fetchedAt <= Newest(rows);
    }
  }

  /** The rows kept by ensure_loaded: those with a non-empty geometry text that loads, in table order. */
  function Loadable(rows: seq<OverlayRow>, loads: string -> bool): (r: seq<OverlayRow>)
    ensures |r| <= |rows|
    ensures forall x | x in r :: x in rows && x.geomWkt != "" && loads(x.geomWkt)
    ensures forall x | x in rows && x.geomWkt != "" && loads(x.geomWkt) :: x in r
  {
    if rows == [] then []
    else
      var rest := Loadable(rows[..|rows| - 1], loads);
      var last := rows[|rows| - 1];
      assert forall x | x in rows :: x in rows[..|rows| - 1] || x == last;
      if last.geomWkt != "" && loads(last.geomWkt) then rest + [last] else rest
  }

  function WktOf(rows: seq<OverlayRow>): (r: seq<string>)
    ensures |r| == |rows|
    ensures forall i | 0 <= i < |rows| :: r[i] == rows[i].geomWkt
  {
    seq(|rows|, i requires 0 <= i < |rows| => rows[i].geomWkt)
  }

  lemma LoadableSnoc(rows: seq<OverlayRow>, x: OverlayRow, loads: string -> bool)
    ensures Loadable(rows + [x], loads) ==
      if x.geomWkt != "" && loads(x.geomWkt) then Loadable(rows, loads) + [x] else Loadable(rows, loads)
  {
    assert (rows + [x])[..|rows|] == rows;
  }

  lemma WktOfSnoc(rows: seq<OverlayRow>, x: OverlayRow)
    ensures WktOf(rows + [x]) == WktOf(rows) + [x.geomWkt]
  {
  }

  /** The loop of ensure_loaded: keep the rows whose geometry loads, with their geometries. */
  method LoadRows(rows: seq<OverlayRow>, loads: string -> bool) returns (valid: seq<OverlayRow>, geoms: seq<string>)
    ensures valid == Loadable(rows, loads) && geoms == WktOf(valid)
  {
    geoms := [];
    valid := [];
    var i := 0;
    while i < |rows|
      invariant 0 <= i <= |rows|
      invariant valid == Loadable(rows[..i], loads) && geoms == WktOf(valid)
    {
      var ov := rows[i];
      assert rows[..i + 1] == rows[..i] + [ov];
      LoadableSnoc(rows[..i], ov, loads);
      ghost var next := Loadable(rows[..i + 1], loads);
      if ov.geomWkt != "" && loads(ov.geomWkt) {
        assert next == valid + [ov];
        WktOfSnoc(valid, ov);
        geoms := geoms + [ov.geomWkt];
        valid := valid + [ov];
      } else {
        assert next == valid;
      }
      assert valid == next;
      i := i + 1;
    }
    assert rows[..i] == rows;
  }

  /** The in-memory part of the manager: whether the index exists, the indexed rows and their geometries. */
  datatype Memory = Memory(tree: bool, overlays: seq<OverlayRow>, geometries: seq<string>)

  /** The index always covers exactly its rows' geometries, index-aligned. */
  predicate Aligned(m: Memory)
  {
    m.tree ==> m.geometries == WktOf(m.overlays) && m.geometries != []
  }

  /** ensure_loaded on memory m over the table rows. */
  function Load(m: Memory, rows: seq<OverlayRow>, loads: string -> bool): Memory
  {
    if m.tree then m
    else if rows == [] then Memory(false, [], m.geometries)
    else
      var kept := Loadable(rows, loads);
      Memory(kept != [], kept, WktOf(kept))
  }

  /** Loading once is enough, the index stays aligned, and an empty table leaves it unset. */
  lemma LoadIdempotent(m: Memory, rows: seq<OverlayRow>, loads: string -> bool)
    requires Aligned(m)
    ensures Load(Load(m, rows, loads), rows, loads) == Load(m, rows, loads)
    ensures Aligned(Load(m, rows, loads))
    ensures rows == [] ==> Load(m, rows, loads).tree == m.tree
    ensures !m.tree ==> (Load(m, rows, loads).tree <==> exists x | x in rows :: x.geomWkt != "" && loads(x.geomWkt))
  {
    if !m.tree && rows != [] {
      var kept := Loadable(rows, loads);
      if exists x | x in rows :: x.geomWkt != "" && loads(x.geomWkt) {
        var x :| x in rows && x.geomWkt != "" && loads(x.geomWkt);
        assert x in kept;
      }
      if kept != [] {
        assert kept[0] in kept;
      }
    }
  }

  datatype OverlayHit = OverlayHit(overlayType: string, code: string, lga: Option<string>, source: string)

  function HitOf(row: OverlayRow): OverlayHit
  {
    OverlayHit(row.overlayType, row.overlayCode, row.lga, "cache")
  }

  /** The rows whose geometry intersects the point, as result dictionaries in index order. */
  function Hits(overlays: seq<OverlayRow>, geometries: seq<string>, intersects: string -> bool): (r: seq<OverlayHit>)
    requires |overlays| == |geometries|
    ensures |r| <= |overlays|
    ensures forall h | h in r ::
      && h.source == "cache"
      && exists i | 0 <= i < |overlays| :: intersects(geometries[i]) && h == HitOf(overlays[i])
    ensures forall i | 0 <= i < |overlays| && intersects(geometries[i]) :: HitOf(overlays[i]) in r
  {
    if overlays == [] then []
    else
      var n := |overlays| - 1;
      var rest := Hits(overlays[..n], geometries[..n], intersects);
      if intersects(geometries[n]) then rest + [HitOf(overlays[n])] else rest
  }

  /** get_overlays_at_point after loading: nothing without an index. */
  function HitsAt(m: Memory, intersects: string -> bool): seq<OverlayHit>
    requires Aligned(m)
  {
    if !m.tree then [] else Hits(m.overlays, m.geometries, intersects)
  }

  /** A cached hit is always one of the four cached overlay types. */
  lemma HitsAreCachedTypes(m: Memory, rows: seq<OverlayRow>, loads: string -> bool, intersects: string -> bool)
    requires Aligned(m) && CachedTypesOnly(rows)
    requires CachedTypesOnly(m.overlays)
    ensures Aligned(Load(m, rows, loads))
    ensures forall h | h in HitsAt(Load(m, rows, loads), intersects) :: h.overlayType in CachedTypes
  {
    LoadIdempotent(m, rows, loads);
    var l := Load(m, rows, loads);
    if l.tree && !m.tree {
      forall i | 0 <= i < |l.overlays| ensures l.overlays[i].overlayType in CachedTypes {
        assert l.overlays[i] in rows;
      }
    }
  }

  /** The manager, with the cached_overlays table it reads and writes. */
  class OverlayCacheManager {
    var tree: bool
    var overlays: seq<OverlayRow>
    var geometries: seq<string>
    var table: seq<OverlayRow>

    ghost function Mem(): Memory
      reads this
    {
      Memory(tree, overlays, geometries)
    }

    ghost predicate Valid()
      reads this
    {
      Aligned(Mem())
    }

    constructor(table: seq<OverlayRow>)
      ensures Valid() && !tree && overlays == [] && geometries == [] && this.table == table
    {
      this.tree := false;
      this.overlays := [];
      this.geometries := [];
      this.table := table;
    }

    /** ensure_loaded. */
    method EnsureLoaded(loads: string -> bool)
      requires Valid()
      modifies this
      ensures Valid() && table == old(table)
      ensures Mem() == Load(old(Mem()), table, loads)
    {
      if tree {
        return;
      }
      overlays := table;
      if overlays == [] {
        return;
      }
      var valid, geoms := LoadRows(table, loads);
      ghost var loaded := Memory(valid != [], valid, geoms);
      assert loaded == Load(old(Mem()), table, loads);
      geometries := geoms;
      overlays := valid;
      tree := valid != [];
      assert Mem() == loaded;
    }

    /** get_overlays_at_point. */
    method GetOverlaysAtPoint(loads: string -> bool, intersects: string -> bool) returns (results: seq<OverlayHit>)
      requires Valid()
      modifies this
      ensures Valid() && table == old(table)
      ensures Mem() == Load(old(Mem()), table, loads)
      ensures results == HitsAt(Mem(), intersects)
    {
      EnsureLoaded(loads);
      if !tree {
        return [];
      }
      results := [];
      var i := 0;
      while i < |overlays|
        invariant 0 <= i <= |overlays|
        invariant results == Hits(overlays[..i], geometries[..i], intersects)
      {
        if intersects(geometries[i]) {
          results := results + [HitOf(overlays[i])];
        }
        assert overlays[..i + 1][..i] == overlays[..i];
        assert geometries[..i + 1][..i] == geometries[..i];
        i := i + 1;
      }
      assert overlays[..i] == overlays && geometries[..i] == geometries;
    }

    /**
     * populate: unless the skip rule holds, clear the table, download every
     * page, then drop the index and rebuild it from the new table.
     */
    method Populate(force: bool, now: real, responses: seq<Response>, loads: string -> bool)
      returns (requested: seq<nat>)
      requires Valid() && HasStop(responses)
      modifies this
      ensures Valid()
      ensures SkipsRefresh(old(table), force, now) ==> requested == [] && table == old(table) && Mem() == old(Mem())
      ensures !SkipsRefresh(old(table), force, now) ==>
        && requested == Offsets(FirstStop(responses) + 1)
        && table == SaveAll([], Downloaded(responses[..FirstStop(responses) + 1]), now)
        && Mem() == Load(Memory(false, old(overlays), old(geometries)), table, loads)
    {
      if |table| > 0 && !force && now - Newest(table) < MaxAgeDays {
        return [];
      }
      table := [];
      table, requested := Download(table, now, responses);
      tree := false;
      EnsureLoaded(loads);
    }
  }

  /** SaveAll over two batches is SaveAll over the second, from where the first left the table. */
  lemma {:induction false} SaveAllAppend(rows: seq<OverlayRow>, a: seq<RawFeature>, b: seq<RawFeature>, now: real)
    ensures SaveAll(rows, a + b, now) == SaveAll(SaveAll(rows, a, now), b, now)
  {
    if b == [] {
      assert a + b == a;
    } else {
      assert (a + b)[..|a + b| - 1] == a + b[..|b| - 1];
      SaveAllAppend(rows, a, b[..|b| - 1], now);
    }
  }

  lemma OffsetsStep(n: nat)
    ensures Offsets(n + 1) == Offsets(n) + [n * 1000]
  {
  }

  /** Saving one more page continues the table saved from the pages before it. */
  lemma SavePageStep(rows: seq<OverlayRow>, responses: seq<Response>, page: nat, now: real)
    requires page < |responses|
    ensures SaveAll(SaveAll(rows, Downloaded(responses[..page]), now), PageFeatures(responses[page]), now)
            == SaveAll(rows, Downloaded(responses[..page + 1]), now)
  {
    DownloadedStep(responses, page);
    SaveAllAppend(rows, Downloaded(responses[..page]), PageFeatures(responses[page]), now);
  }

  lemma DownloadedStep(responses: seq<Response>, page: nat)
    requires page < |responses|
    ensures Downloaded(responses[..page + 1]) == Downloaded(responses[..page]) + PageFeatures(responses[page])
  {
    assert responses[..page + 1][..page] == responses[..page];
  }

  /** The save loop of one page. */
  method SavePage(rows: seq<OverlayRow>, features: seq<RawFeature>, now: real) returns (r: seq<OverlayRow>)
    ensures r == SaveAll(rows, features, now)
  {
    r := rows;
    var j := 0;
    while j < |features|
      invariant 0 <= j <= |features|
      invariant r == SaveAll(rows, features[..j], now)
    {
      assert features[..j + 1][..j] == features[..j];
      r := SaveFeature(r, features[j], now);
      j := j + 1;
    }
    assert features[..j] == features;
  }

  /**
   * The paging loop of populate: request start indices 0, 1000, 2000, ...
   * until a page raises, comes back empty or comes back short, saving every
   * feature of every page.  `responses[k]` answers the k-th request, and the
   * server is assumed to end the download at some page.
   */
  method Download(rows: seq<OverlayRow>, now: real, responses: seq<Response>)
    returns (r: seq<OverlayRow>, requested: seq<nat>)
    requires HasStop(responses)
    ensures requested == Offsets(FirstStop(responses) + 1)
    ensures r == SaveAll(rows, Downloaded(responses[..FirstStop(responses) + 1]), now)
  {
    r := rows;
    requested := [];
    var stop := FirstStop(responses);
    var page := 0;
    while true
      invariant 0 <= page <= stop
      invariant requested == Offsets(page)
      invariant r == SaveAll(rows, Downloaded(responses[..page]), now)
      decreases stop - page
    {
      OffsetsStep(page);
      requested := requested + [page * 1000];
      // A page that raised or came back empty contributes no features.
      var features := PageFeatures(responses[page]);
      SavePageStep(rows, responses, page, now);
      r := SavePage(r, features, now);
      if Stops(responses[page]) {
        assert page == stop;
        break;
      }
      assert page != stop;
      page := page + 1;
    }
  }

  // ---------------------------------------------------------------------
  // The code as written, against the CachedOverlay schema it runs on.
  // ---------------------------------------------------------------------

  /**
   * save_feature as written: the CachedOverlay constructor is given `lga`,
   * `min_lon`, `min_lat`, `max_lon` and `max_lat`, none of which the model
   * declares, so it raises; the broad except swallows the error and no
   * feature is ever saved.
   */
  function SaveFeatureAsWritten(rows: seq<OverlayRow>, f: RawFeature, now: real): seq<OverlayRow>
  {
    if !f.geometry.Shape? then rows
    else if OverlayTypeOf(FirstTruthy(f.props, ["ZONE_CODE", "LZONE_CODE"])).None? then rows
    else rows // the constructor raises before session.merge
  }

  /** A heritage overlay with a geometry is lost as written and saved by the corrected SaveFeature. */
  lemma SaveFeatureAsWrittenLosesOverlays()
    ensures var f := RawFeature([Field("ZONE_CODE", "HO12"), Field("pfi", "7")], Shape("POLYGON"), None);
      SaveFeatureAsWritten([], f, 0.0) == [] && |SaveFeature([], f, 0.0)| == 1
  {
    var f := RawFeature([Field("ZONE_CODE", "HO12"), Field("pfi", "7")], Shape("POLYGON"), None);
    assert StartsWith("HO12", "HO");
    assert FirstTruthy(f.props, ["ZONE_CODE", "LZONE_CODE"]) == "HO12";
  }

  /**
   * The skip test of populate as written: on a non-empty table that is not
   * forced it reads CachedOverlay.fetched_at, which the model does not
   * declare, and the AttributeError escapes populate.
   */
  function SkipTestAsWritten(rows: seq<OverlayRow>, force: bool, now: real): Result<bool>
  {
    if |rows| > 0 && !force then Err("AttributeError: CachedOverlay has no fetched_at")
    else Ok(false)
  }

  /** A table refreshed yesterday makes populate raise as written, where the intended rule skips the refresh. */
  lemma SkipTestAsWrittenRaises()
    ensures var rows := [OverlayRow("7", "HO", "HO12", None, "POLYGON", [], 9.0)];
      SkipTestAsWritten(rows, false, 10.0).Err? && SkipsRefresh(rows, false, 10.0)
  {
  }
}
