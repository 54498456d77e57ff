/**
 * The feng-shui feature cache: substation zones (PUZ1), water bodies and
 * road end points stored in the cached_feng_shui table, and an in-memory
 * index over the rows whose geometry text loads.  Whether a geometry text
 * loads, whether an indexed geometry falls inside the query buffer, and the
 * distance in metres from the query point to a geometry are inputs.
 */
module FengShuiCache {
  import opened Wrappers
  import opened GisClients

  /** A cached_feng_shui row; `rowId` is the autoincrement primary key. */
  datatype Row = Row(rowId: nat, featureId: string, featureType: string, attributes: Props, geomWkt: string)

  /** An indexed item: the row's primary key, type and attributes, and its geometry. */
  datatype Item = Item(id: nat, itemType: string, attributes: Props, geometry: string)

  const SubstationRadius: real := 50.0
  const WaterRadius: real := 50.0
  const RoadNodeRadius: real := 20.0

  // ---------------------------------------------------------------------
  // The in-memory index.
  // ---------------------------------------------------------------------

  /** The items load_cache builds: one per row whose geometry loads, in table order. */
  function Items(rows: seq<Row>, loads: string -> bool): (r: seq<Item>)
    ensures |r| <= |rows|
    ensures forall i | 0 <= i < |r| ::
      && loads(r[i].geometry)
      && exists j | 0 <= j < |rows| :: r[i] == ItemOf(rows[j])
  {
    if rows == [] then []
    else
      var n := |rows| - 1;
      var rest := Items(rows[..n], loads);
      if loads(rows[n].geomWkt) then rest + [ItemOf(rows[n])] else rest
  }

  function ItemOf(row: Row): Item
  {
    Item(row.rowId, row.featureType, row.attributes, row.geomWkt)
  }

  /** The index state: whether the tree exists, and the items. */
  datatype Index = Index(tree: bool, items: seq<Item>)

  /** load_cache: an empty table changes nothing; otherwise the items are rebuilt and the tree is built when any loaded. */
  function LoadedIndex(ix: Index, rows: seq<Row>, loads: string -> bool): (r: Index)
    ensures rows == [] ==> r == ix
    ensures rows != [] ==> r.items == Items(rows, loads) && (r.tree <==> ix.tree || r.items != [])
  {
    if rows == [] then ix
    else
      var items := Items(rows, loads);
      Index(ix.tree || items != [], items)
  }

  /** The index of the first item of the type within the radius, among those in the query buffer, or |items|. */
  function FirstWithin(items: seq<Item>, featureType: string, radius: real,
                       inBuffer: string -> bool, distanceM: string -> real): (k: nat)
    ensures k <= |items|
    ensures k < |items| ==> Within(items[k], featureType, radius, inBuffer, distanceM)
    ensures forall i | 0 <= i < k :: !Within(items[i], featureType, radius, inBuffer, distanceM)
  {
    if items == [] then 0
    else if Within(items[0], featureType, radius, inBuffer, distanceM) then 0
    else FirstWithin(items[1..], featureType, radius, inBuffer, distanceM) + 1
  }

  predicate Within(item: Item, featureType: string, radius: real, inBuffer: string -> bool, distanceM: string -> real)
  {
    inBuffer(item.geometry) && item.itemType == featureType && distanceM(item.geometry) <= radius
  }

  /** check_proximity on an index that is already loaded. */
  function ProximityHit(ix: Index, featureType: string, radius: real,
                     inBuffer: string -> bool, distanceM: string -> real): (r: Option<Item>)
    ensures r.Some? ==> ix.tree && r.value in ix.items && Within(r.value, featureType, radius, inBuffer, distanceM)
    ensures ix.tree && (exists i | 0 <= i < |ix.items| :: Within(ix.items[i], featureType, radius, inBuffer, distanceM))
      ==> r.Some?
  {
    if !ix.tree then None
    else
      var k := FirstWithin(ix.items, featureType, radius, inBuffer, distanceM);
      if k < |ix.items| then Some(ix.items[k]) else None
  }

  /** After loading, no tree means no hit, and a hit is a loaded row of the requested type. */
  lemma ProximityAfterLoad(ix: Index, rows: seq<Row>, loads: string -> bool, featureType: string, radius: real,
                           inBuffer: string -> bool, distanceM: string -> real)
    requires !ix.tree
    ensures var l := LoadedIndex(ix, rows, loads);
      var r := ProximityHit(l, featureType, radius, inBuffer, distanceM);
      && (!l.tree ==> r.None?)
      && (r.Some? ==>
            && r.value.itemType == featureType && loads(r.value.geometry)
            && exists j | 0 <= j < |rows| :: rows[j].rowId == r.value.id && rows[j].featureType == featureType)
  {
    var l := LoadedIndex(ix, rows, loads);
    var r := ProximityHit(l, featureType, radius, inBuffer, distanceM);
    if r.Some? {
      var i :| 0 <= i < |l.items| && l.items[i] == r.value;
      var j :| 0 <= j < |rows| && l.items[i] == ItemOf(rows[j]);
    }
  }

  class FengShuiIndex {
    var tree: bool
    var items: seq<Item>

    ghost function State(): Index
      reads this
    {
      Index(tree, items)
    }

    constructor()
      ensures !tree && items == []
    {
      tree := false;
      items := [];
    }

    /** load_cache, reading the table rows. */
    method LoadCache(rows: seq<Row>, loads: string -> bool)
      modifies this
      ensures State() == LoadedIndex(old(State()), rows, loads)
    {
      if rows == [] {
        return;
      }
      var built: seq<Item> := [];
      var i := 0;
      while i < |rows|
        invariant 0 <= i <= |rows|
        invariant built == Items(rows[..i], loads)
      {
        if loads(rows[i].geomWkt) {
          built := built + [ItemOf(rows[i])];
        }
        assert rows[..i + 1][..i] == rows[..i];
        i := i + 1;
      }
      assert rows[..i] == rows;
      items := built;
      if built != [] {
        tree := true;
      }
    }

    /** check_proximity: load lazily, then the first indexed item of the type within the radius. */
    method CheckProximity(rows: seq<Row>, loads: string -> bool, featureType: string, radius: real,
                          inBuffer: string -> bool, distanceM: string -> real)
      returns (near: bool, item: Option<Item>)
      modifies this
      ensures old(tree) ==> State() == old(State())
      ensures !old(tree) ==> State() == LoadedIndex(old(State()), rows, loads)
      ensures item == ProximityHit(State(), featureType, radius, inBuffer, distanceM)
      ensures near <==> item.Some?
    {
      if !tree {
        LoadCache(rows, loads);
      }
      if !tree {
        return false, None;
      }
      var i := 0;
      while i < |items|
        invariant 0 <= i <= |items|
        invariant forall j | 0 <= j < i :: !Within(items[j], featureType, radius, inBuffer, distanceM)
      {
        var it := items[i];
        if inBuffer(it.geometry) && it.itemType == featureType {
          if distanceM(it.geometry) <= radius {
            FirstWithinIs(items, featureType, radius, inBuffer, distanceM, i);
            return true, Some(it);
          }
        }
        i := i + 1;
      }
      FirstWithinIs(items, featureType, radius, inBuffer, distanceM, i);
      return false, None;
    }
  }

  lemma FirstWithinIs(items: seq<Item>, featureType: string, radius: real,
                      inBuffer: string -> bool, distanceM: string -> real, k: nat)
    requires k <= |items|
    requires k < |items| ==> Within(items[k], featureType, radius, inBuffer, distanceM)
    requires forall i | 0 <= i < k :: !Within(items[i], featureType, radius, inBuffer, distanceM)
    ensures FirstWithin(items, featureType, radius, inBuffer, distanceM) == k
  {
  }

  // ---------------------------------------------------------------------
  // Populating the table.  The session does not autoflush, so the "already
  // cached?" query sees only the committed table, never the rows added in
  // the same run; a run whose new rows repeat a feature id fails on the
  // unique constraint at commit and is rolled back whole.
  // ---------------------------------------------------------------------

  function IdsOf(rows: seq<Row>): (r: seq<string>)
    ensures |r| == |rows|
    ensures forall i | 0 <= i < |rows| :: r[i] == rows[i].featureId
  {
    seq(|rows|, i requires 0 <= i < |rows| => rows[i].featureId)
  }

  predicate UniqueIds(rows: seq<Row>)
  {
    forall i, j | 0 <= i < j < |rows| :: rows[i].featureId != rows[j].featureId
  }

  /** The next autoincrement key: one more than the largest key in use. */
  function NextRowId(rows: seq<Row>): (n: nat)
    ensures n > 0
    ensures forall i | 0 <= i < |rows| :: rows[i].rowId < n
  {
    if rows == [] then 1
    else
      var n := NextRowId(rows[..|rows| - 1]);
      if rows[|rows| - 1].rowId >= n then rows[|rows| - 1].rowId + 1 else n
  }

  /** The geometry of a PUZ1 or water feature: shape() raises on it, or its WKT. */
  datatype AreaGeometry = BadAreaShape | AreaShape(wkt: string)

  datatype AreaFeature = AreaFeature(id: string, props: Props, geometry: AreaGeometry)

  /**
   * One feature of populate_puz1 / populate_water: the shape is built before
   * the existence check, so a bad shape aborts the run even for a known id.
   * `pending` is None once the run has aborted.
   */
  function AreaStep(table: seq<Row>, pending: Option<seq<Row>>, f: AreaFeature, featureType: string): Option<seq<Row>>
  {
    if pending.None? then None
    else if f.geometry.BadAreaShape? then None
    else if f.id in IdsOf(table) then pending
    else Some(pending.value + [Row(NextRowId(table + pending.value), f.id, featureType, f.props, f.geometry.wkt)])
  }

  function AreaRun(table: seq<Row>, fs: seq<AreaFeature>, featureType: string): Option<seq<Row>>
  {
    if fs == [] then Some([])
    else AreaStep(table, AreaRun(table, fs[..|fs| - 1], featureType), fs[|fs| - 1], featureType)
  }

  /** The commit at the end of the run: the new rows land unless the run aborted or they repeat an id. */
  function Commit(table: seq<Row>, pending: Option<seq<Row>>): seq<Row>
  {
    if pending.Some? && UniqueIds(pending.value) then table + pending.value else table
  }

  /** populate_puz1 / populate_water.  `features` is None when the request failed or did not answer 200. */
  function PopulateAreas(table: seq<Row>, features: Option<seq<AreaFeature>>, featureType: string): seq<Row>
  {
    if features.None? then table else Commit(table, AreaRun(table, features.value, featureType))
  }

  /** Every row an area run adds is of the requested type and carries an id the table did not hold. */
  predicate NewRowsOf(table: seq<Row>, pending: seq<Row>, featureType: string)
  {
    forall i | 0 <= i < |pending| :: pending[i].featureType == featureType && pending[i].featureId !in IdsOf(table)
  }

  lemma {:induction false} AreaRunNew(table: seq<Row>, fs: seq<AreaFeature>, featureType: string)
    ensures AreaRun(table, fs, featureType).Some? ==> NewRowsOf(table, AreaRun(table, fs, featureType).value, featureType)
  {
    if fs != [] {
      AreaRunNew(table, fs[..|fs| - 1], featureType);
    }
  }

  /** Committing new rows with fresh, distinct ids keeps the table's ids unique. */
  lemma CommitUnique(table: seq<Row>, pending: Option<seq<Row>>, featureType: string)
    requires UniqueIds(table)
    requires pending.Some? ==> NewRowsOf(table, pending.value, featureType)
    ensures UniqueIds(Commit(table, pending))
    ensures |table| <= |Commit(table, pending)| && Commit(table, pending)[..|table|] == table
  {
    var r := Commit(table, pending);
    assert r[..|table|] == table;
    if pending.Some? && UniqueIds(pending.value) {
      var p := pending.value;
      forall i, j | 0 <= i < j < |r| ensures r[i].featureId != r[j].featureId {
        if j >= |table| && i < |table| {
          assert r[j] == p[j - |table|];
          assert IdsOf(table)[i] == r[i].featureId;
        } else if i >= |table| {
          assert r[i] == p[i - |table|] && r[j] == p[j - |table|];
        }
      }
    }
  }

  /**
   * populate_puz1 and populate_water never insert a feature id already in
   * the table, keep every existing row, and add only rows of their type.
   */
  lemma PopulateAreasKeepsTable(table: seq<Row>, features: Option<seq<AreaFeature>>, featureType: string)
    requires UniqueIds(table)
    ensures var r := PopulateAreas(table, features, featureType);
      && UniqueIds(r) && |table| <= |r| && r[..|table|] == table
      && forall i | |table| <= i < |r| :: r[i].featureType == featureType && r[i].featureId !in IdsOf(table)
  {
    if features.Some? {
      var p := AreaRun(table, features.value, featureType);
      AreaRunNew(table, features.value, featureType);
      CommitUnique(table, p, featureType);
      var r := Commit(table, p);
      forall i | |table| <= i < |r| ensures r[i].featureType == featureType && r[i].featureId !in IdsOf(table) {
        assert r[i] == p.value[i - |table|];
      }
    } else {
      assert table[..|table|] == table;
    }
  }

  /** The insert loop of populate_puz1 / populate_water, returning the table after the commit and the rows added. */
  method PopulateAreasRun(table: seq<Row>, features: Option<seq<AreaFeature>>, featureType: string)
    returns (r: seq<Row>, count: nat)
    ensures r == PopulateAreas(table, features, featureType)
    ensures count == |r| - |table|
  {
    if features.None? {
      return table, 0;
    }
    var fs := features.value;
    var added: seq<Row> := [];
    var i := 0;
    while i < |fs|
      invariant 0 <= i <= |fs|
      invariant AreaRun(table, fs[..i], featureType) == Some(added)
    {
      assert fs[..i + 1][..i] == fs[..i];
      var f := fs[i];
      if f.geometry.BadAreaShape? {
        // shape() raised: the session rolls back and the error is reported.
        AbortedStaysAborted(table, fs, featureType, i + 1);
        assert fs[..|fs|] == fs;
        return table, 0;
      }
      if f.id !in IdsOf(table) {
        added := added + [Row(NextRowId(table + added), f.id, featureType, f.props, f.geometry.wkt)];
      }
      i := i + 1;
    }
    assert fs[..i] == fs;
    if UniqueIds(added) {
      r := table + added;
      count := |added|;
    } else {
      r := table;
      count := 0;
    }
  }

  lemma {:induction false} AbortedStaysAborted(table: seq<Row>, fs: seq<AreaFeature>, featureType: string, k: nat)
    requires k <= |fs|
    requires AreaRun(table, fs[..k], featureType).None?
    ensures AreaRun(table, fs, featureType).None?
    decreases |fs| - k
  {
    if k < |fs| {
      assert fs[..k + 1][..k] == fs[..k];
      AbortedStaysAborted(table, fs, featureType, k + 1);
    } else {
      assert fs[..k] == fs;
    }
  }

  /** A road segment's geometry: shape() raises, it is a LineString with these end points, or another type. */
  datatype RoadGeometry = BadRoadShape | LineString(startWkt: string, endWkt: string) | OtherShape

  datatype RoadFeature = RoadFeature(id: string, geometry: RoadGeometry)

  function StartId(id: string): string { id + "_start" }
  function EndId(id: string): string { id + "_end" }

  /**
   * One segment of populate_road_endpoints: the existence check, on the
   * start id only, comes before the shape; a LineString adds its start and
   * end nodes, any other geometry type is skipped.
   */
  function RoadStep(table: seq<Row>, pending: Option<seq<Row>>, f: RoadFeature): Option<seq<Row>>
  {
    if pending.None? then None
    else if StartId(f.id) in IdsOf(table) then pending
    else match f.geometry
      case BadRoadShape => None
      case OtherShape => pending
      case LineString(s, e) =>
        var n := NextRowId(table + pending.value);
        var attrs := [Field("original_id", f.id)];
        Some(pending.value + [Row(n, StartId(f.id), "ROAD_NODE", attrs, s), Row(n + 1, EndId(f.id), "ROAD_NODE", attrs, e)])
  }

  function RoadRun(table: seq<Row>, fs: seq<RoadFeature>): Option<seq<Row>>
  {
    if fs == [] then Some([]) else RoadStep(table, RoadRun(table, fs[..|fs| - 1]), fs[|fs| - 1])
  }

  /** populate_road_endpoints; `features` is None when the request failed. */
  function PopulateRoads(table: seq<Row>, features: Option<seq<RoadFeature>>): seq<Row>
  {
    if features.None? then table else Commit(table, RoadRun(table, features.value))
  }

  /** The segments that add nodes: LineStrings whose start id is not cached yet. */
  function CountNewRoads(table: seq<Row>, fs: seq<RoadFeature>): nat
  {
    if fs == [] then 0
    else
      var f := fs[|fs| - 1];
      CountNewRoads(table, fs[..|fs| - 1]) + (if StartId(f.id) !in IdsOf(table) && f.geometry.LineString? then 1 else 0)
  }

  /** A road run that does not abort adds exactly two ROAD_NODE rows, a start and an end, per new LineString segment. */
  lemma {:induction false} RoadRunPairs(table: seq<Row>, fs: seq<RoadFeature>)
    ensures var p := RoadRun(table, fs);
      p.Some? ==>
        && |p.value| == 2 * CountNewRoads(table, fs)
        && forall i | 0 <= i < |p.value| :: p.value[i].featureType == "ROAD_NODE"
  {
    if fs != [] {
      RoadRunPairs(table, fs[..|fs| - 1]);
    }
  }

  /** The insert loop of populate_road_endpoints, returning the table after the commit and the rows added. */
  method PopulateRoadsRun(table: seq<Row>, features: Option<seq<RoadFeature>>) returns (r: seq<Row>, count: nat)
    ensures r == PopulateRoads(table, features)
    ensures count == |r| - |table|
  {
    if features.None? {
      return table, 0;
    }
    var fs := features.value;
    var added: seq<Row> := [];
    var i := 0;
    while i < |fs|
      invariant 0 <= i <= |fs|
      invariant RoadRun(table, fs[..i]) == Some(added)
    {
      assert fs[..i + 1][..i] == fs[..i];
      var f := fs[i];
      if StartId(f.id) !in IdsOf(table) {
        match f.geometry {
          case BadRoadShape =>
            RoadAbortedStaysAborted(table, fs, i + 1);
            assert fs[..|fs|] == fs;
            return table, 0;
          case OtherShape =>
          case LineString(s, e) =>
            var n := NextRowId(table + added);
            var attrs := [Field("original_id", f.id)];
            added := added + [Row(n, StartId(f.id), "ROAD_NODE", attrs, s), Row(n + 1, EndId(f.id), "ROAD_NODE", attrs, e)];
        }
      }
      i := i + 1;
    }
    assert fs[..i] == fs;
    if UniqueIds(added) {
      r := table + added;
      count := |added|;
    } else {
      r := table;
      count := 0;
    }
  }

  lemma {:induction false} RoadAbortedStaysAborted(table: seq<Row>, fs: seq<RoadFeature>, k: nat)
    requires k <= |fs|
    requires RoadRun(table, fs[..k]).None?
    ensures RoadRun(table, fs).None?
    decreases |fs| - k
  {
    if k < |fs| {
      assert fs[..k + 1][..k] == fs[..k];
      RoadAbortedStaysAborted(table, fs, k + 1);
    } else {
      assert fs[..k] == fs;
    }
  }
}
