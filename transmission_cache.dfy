/**
 * The local transmission-line cache: caching WFS features as rows (only
 * lines of 66 kV or more), the near-lines query sorted by distance, the
 * cached proximity check, and the freshness test that decides whether the
 * cache is refreshed.  Geometry parsing and distances are inputs.
 */
module TransmissionCache {
  import opened Wrappers
  import opened Text
  import opened GisClients
  import opened Sorting

  /** A row of the transmission_lines table; `fetchedAt` is in days on a common clock. */
  datatype CachedLine = CachedLine(featureId: string, voltageKv: nat, owner: Option<string>, fetchedAt: real)

  /** Whether a feature's geometry is missing, fails to parse, or parses. */
  datatype Geometry = NoGeometry | Unparseable | Shape

  datatype RawLine = RawLine(props: Props, geometry: Geometry)

  // ---------------------------------------------------------------------------
  // Voltage and feature id of a raw feature
  // ---------------------------------------------------------------------------

  /** A property key whose lower-cased name mentions "voltage" or "kv". */
  predicate IsVoltageKey(key: string)
  {
    Contains(Lower(key), "voltage") || Contains(Lower(key), "kv")
  }

  /** The digits of one property value read as kV; a falsy value reads as "0". */
  function FieldVoltage(f: Field): nat
  {
    DigitsValue(KeepDigits(if f.value == "" then "0" else f.value))
  }

  /** The voltage the key scan settles on: the first positive reading of a voltage key, else 0. */
  function ScanVoltage(props: Props): nat
  {
    if props == [] then 0
    else if IsVoltageKey(props[0].key) && FieldVoltage(props[0]) > 0 then FieldVoltage(props[0])
    else ScanVoltage(props[1..])
  }

  /**
   * A positive voltage is the reading of some voltage/kv-named field, and the
   * scan reads 0 exactly when every such field reads 0.
   */
  lemma {:induction false} ScanVoltageSpec(props: Props)
    ensures var v := ScanVoltage(props);
      && (v > 0 ==> exists i | 0 <= i < |props| :: IsVoltageKey(props[i].key) && FieldVoltage(props[i]) == v)
      && (v == 0 <==> forall i | 0 <= i < |props| && IsVoltageKey(props[i].key) :: FieldVoltage(props[i]) == 0)
  {
    if props != [] && !(IsVoltageKey(props[0].key) && FieldVoltage(props[0]) > 0) {
      ScanVoltageSpec(props[1..]);
      assert forall i | 1 <= i < |props| :: props[i] == props[1..][i - 1];
      var v := ScanVoltage(props);
      if v > 0 {
        var j :| 0 <= j < |props[1..]| && IsVoltageKey(props[1..][j].key) && FieldVoltage(props[1..][j]) == v;
        assert props[j + 1] == props[1..][j];
      }
    }
  }

  /** The loop over the property keys, which breaks at the first positive reading. */
  method ParseVoltage(props: Props) returns (v: nat)
    ensures v == ScanVoltage(props)
  {
    v := 0;
    var i := 0;
    while i < |props|
      invariant 0 <= i <= |props|
      invariant v == 0
      invariant ScanVoltage(props) == ScanVoltage(props[i..])
    {
      assert props[i..][1..] == props[i + 1..];
      if IsVoltageKey(props[i].key) {
        var reading := FieldVoltage(props[i]);
        if reading > 0 {
          v := reading;
          return;
        }
      }
      i := i + 1;
    }
  }

  /** OBJECTID, FID or objectid, else the running count as text. */
  function FeatureIdOf(props: Props, count: nat): (id: string)
    ensures id != ""
  {
    var id := FirstTruthy(props, ["OBJECTID", "FID", "objectid"]);
    if id == "" then NatToString(count) else id
  }

  // ---------------------------------------------------------------------------
  // The table and its merge
  // ---------------------------------------------------------------------------

  /** No two rows share a feature id. */
  predicate UniqueIds(rows: seq<CachedLine>)
  {
    forall i, j | 0 <= i < j < |rows| :: rows[i].featureId != rows[j].featureId
  }

  /** The table invariant: unique feature ids and only high-voltage lines. */
  predicate ValidRows(rows: seq<CachedLine>)
  {
    UniqueIds(rows) && forall i | 0 <= i < |rows| :: rows[i].voltageKv >= 66
  }

  /**
   * The intended upsert by feature_id: replace the row with that id, else
   * append.  This is what the merge in cache_transmission_lines is meant
   * to do; the code as written inserts instead (CacheAsWritten).
   */
  function Upsert(rows: seq<CachedLine>, line: CachedLine): seq<CachedLine>
  {
    if rows == [] then [line]
    else if rows[0].featureId == line.featureId then [line] + rows[1..]
    else [rows[0]] + Upsert(rows[1..], line)
  }

  /** The upsert stores the line, keeps every row with another id and adds nothing else. */
  lemma {:induction false} UpsertMembers(rows: seq<CachedLine>, line: CachedLine)
    ensures var r := Upsert(rows, line);
      && line in r
      && (forall x | x in r :: x == line || x in rows)
      && (forall x | x in rows && x.featureId != line.featureId :: x in r)
      && (|r| == |rows| || |r| == |rows| + 1)
  {
    if rows != [] && rows[0].featureId != line.featureId {
      UpsertMembers(rows[1..], line);
      assert rows == [rows[0]] + rows[1..];
    } else if rows != [] {
      assert rows == [rows[0]] + rows[1..];
    }
  }

  lemma {:induction false} UpsertIds(rows: seq<CachedLine>, line: CachedLine)
    requires UniqueIds(rows)
    ensures UniqueIds(Upsert(rows, line))
    ensures forall x | x in Upsert(rows, line) :: x.featureId == line.featureId || exists y | y in rows :: y.featureId == x.featureId
  {
    if rows != [] && rows[0].featureId != line.featureId {
      UpsertIds(rows[1..], line);
      UpsertMembers(rows[1..], line);
      var tail := Upsert(rows[1..], line);
      forall x | x in tail ensures x.featureId != rows[0].featureId {
        if x != line {
          assert x in rows[1..];
        }
      }
    } else if rows != [] {
      forall x | x in rows[1..] ensures x.featureId != line.featureId {
        var j :| 0 <= j < |rows[1..]| && rows[1..][j] == x;
        assert rows[j + 1] == x;
      }
    }
  }

  /** Upsert keeps the table invariant when the new line is high-voltage. */
  lemma UpsertValid(rows: seq<CachedLine>, line: CachedLine)
    requires ValidRows(rows) && line.voltageKv >= 66
    ensures ValidRows(Upsert(rows, line))
  {
    UpsertIds(rows, line);
    UpsertMembers(rows, line);
    var r := Upsert(rows, line);
    forall i | 0 <= i < |r| ensures r[i].voltageKv >= 66 {
      assert r[i] in r;
      if r[i] != line {
        var j :| 0 <= j < |rows| && rows[j] == r[i];
      }
    }
  }

  // ---------------------------------------------------------------------------
  // cache_transmission_lines
  // ---------------------------------------------------------------------------

  /** The rows after a caching run, with the run's `count` and `skipped_low_voltage` counters. */
  datatype CacheRun = CacheRun(rows: seq<CachedLine>, count: nat, skippedLowVoltage: nat)

  /** The row a cacheable feature becomes when `count` lines were cached before it. */
  function LineAt(f: RawLine, count: nat, now: real): CachedLine
  {
    CachedLine(FeatureIdOf(f.props, count), ScanVoltage(f.props),
               OptionOf(FirstTruthy(f.props, ["OWNER", "OPERATOR", "NETWORK"])), now)
  }

  /** One iteration of the caching loop. */
  function CacheStep(run: CacheRun, f: RawLine, now: real): CacheRun
  {
    match f.geometry
    case NoGeometry => run
    case Unparseable => run
    case Shape =>
      var v := ScanVoltage(f.props);
      if v < 66 then run.(skippedLowVoltage := run.skippedLowVoltage + 1)
      else run.(rows := Upsert(run.rows, LineAt(f, run.count, now)), count := run.count + 1)
  }

  /** The whole caching loop over `features`, starting from table `rows`. */
  function CacheAll(rows: seq<CachedLine>, features: seq<RawLine>, now: real): CacheRun
  {
    if features == [] then CacheRun(rows, 0, 0)
    else CacheStep(CacheAll(rows, features[..|features| - 1], now), features[|features| - 1], now)
  }

  /** A feature that gets cached: it has a parsable geometry and 66 kV or more. */
  predicate Cacheable(f: RawLine)
  {
    f.geometry.Shape? && ScanVoltage(f.props) >= 66
  }

  function CountWhere(features: seq<RawLine>, low: bool): nat
  {
    if features == [] then 0
    else
      var f := features[|features| - 1];
      var hit := f.geometry.Shape? && (if low then ScanVoltage(f.props) < 66 else ScanVoltage(f.props) >= 66);
      CountWhere(features[..|features| - 1], low) + (if hit then 1 else 0)
  }

  /**
   * Caching keeps the table invariant (no line under 66 kV, unique ids), and
   * the counters count exactly the cached and the low-voltage features.
   */
  lemma CacheAllSpec(rows: seq<CachedLine>, features: seq<RawLine>, now: real)
    requires ValidRows(rows)
    ensures ValidRows(CacheAll(rows, features, now).rows)
    ensures CacheAll(rows, features, now).count == CountWhere(features, false)
    ensures CacheAll(rows, features, now).skippedLowVoltage == CountWhere(features, true)
  {
    CacheAllValid(rows, features, now);
    CacheAllCounts(rows, features, now);
  }

  lemma {:induction false} CacheAllValid(rows: seq<CachedLine>, features: seq<RawLine>, now: real)
    requires ValidRows(rows)
    ensures ValidRows(CacheAll(rows, features, now).rows)
  {
    if features != [] {
      var prev := CacheAll(rows, features[..|features| - 1], now);
      CacheAllValid(rows, features[..|features| - 1], now);
      var f := features[|features| - 1];
      if Cacheable(f) {
        UpsertValid(prev.rows, LineAt(f, prev.count, now));
      }
    }
  }

  lemma {:induction false} CacheAllCounts(rows: seq<CachedLine>, features: seq<RawLine>, now: real)
    ensures CacheAll(rows, features, now).count == CountWhere(features, false)
    ensures CacheAll(rows, features, now).skippedLowVoltage == CountWhere(features, true)
  {
    if features != [] {
      CacheAllCounts(rows, features[..|features| - 1], now);
    }
  }

  /** A feature without a parsable geometry, or under 66 kV, leaves the table as it was. */
  lemma NotCacheableIgnored(rows: seq<CachedLine>, features: seq<RawLine>, f: RawLine, now: real)
    requires !Cacheable(f)
    ensures CacheAll(rows, features + [f], now).rows == CacheAll(rows, features, now).rows
    ensures CacheAll(rows, features + [f], now).count == CacheAll(rows, features, now).count
  {
    assert (features + [f])[..|features + [f]| - 1] == features;
  }

  // ---------------------------------------------------------------------------
  // cache_transmission_lines as written: merge inserts, commits every 100 lines
  // ---------------------------------------------------------------------------

  /**
   * The session during the run: committed rows, rows inserted since the
   * last commit, the two counters, and whether a commit has failed.
   */
  datatype Session = Session(rows: seq<CachedLine>, pending: seq<CachedLine>, count: nat, skippedLowVoltage: nat,
                             failed: bool)

  /**
   * `session.commit()`.  It lands every pending row when the table keeps its
   * unique feature ids; otherwise the flush raises and the batch rolls back.
   * A session whose flush failed is unusable until `rollback()`, which the
   * loop never calls, so every later commit raises too and lands nothing.
   */
  function Commit(s: Session): Session
  {
    if !s.failed && UniqueIds(s.rows + s.pending) then s.(rows := s.rows + s.pending, pending := [])
    else s.(pending := [], failed := true)
  }

  /**
   * One iteration as written.  `session.merge` matches on the primary key,
   * which a new line leaves unset, so every cached line is a pending insert;
   * every hundredth line commits the batch.  A failed commit is caught and
   * printed, and the loop goes on with the failed session.
   */
  function InsertStep(s: Session, f: RawLine, now: real): Session
  {
    if !f.geometry.Shape? then s
    else if ScanVoltage(f.props) < 66 then s.(skippedLowVoltage := s.skippedLowVoltage + 1)
    else MergeLine(s, LineAt(f, s.count, now))
  }

  /** `session.merge(line)`, the count, and the commit on every hundredth line. */
  function MergeLine(s: Session, line: CachedLine): Session
  {
    var t := s.(pending := s.pending + [line], count := s.count + 1);
    if t.count % 100 == 0 then Commit(t) else t
  }

  /** The merge appends the line and counts it; the hundredth line also commits the batch. */
  lemma MergeLineCases(s: Session, line: CachedLine)
    ensures var t := s.(pending := s.pending + [line], count := s.count + 1);
      MergeLine(s, line) == if (s.count + 1) % 100 == 0 then Commit(t) else t
  {
  }

  function InsertAll(rows: seq<CachedLine>, features: seq<RawLine>, now: real): Session
  {
    if features == [] then Session(rows, [], 0, 0, false)
    else InsertStep(InsertAll(rows, features[..|features| - 1], now), features[|features| - 1], now)
  }

  /**
   * cache_transmission_lines as written: the final commit outside the loop
   * raises when a commit in the loop failed or the last batch repeats a
   * feature id, and the error leaves the function; otherwise it returns the
   * count.  The table after the run comes second.
   */
  function CacheAsWritten(rows: seq<CachedLine>, features: seq<RawLine>, now: real): (Result<nat>, seq<CachedLine>)
  {
    var e := Commit(InsertAll(rows, features, now));
    if e.failed then (Err("IntegrityError"), e.rows) else (Ok(e.count), e.rows)
  }

  /** A commit keeps the table invariant and the committed rows as a prefix, and a failed one changes no row. */
  lemma CommitValid(s: Session)
    requires ValidRows(s.rows) && forall i | 0 <= i < |s.pending| :: s.pending[i].voltageKv >= 66
    ensures ValidRows(Commit(s).rows)
    ensures |s.rows| <= |Commit(s).rows| && Commit(s).rows[..|s.rows|] == s.rows
    ensures Commit(s).failed <==> s.failed || !UniqueIds(s.rows + s.pending)
    ensures Commit(s).failed ==> Commit(s).rows == s.rows
    ensures Commit(s).pending == [] && Commit(s).count == s.count
  {
    var r := Commit(s).rows;
    assert r[..|s.rows|] == s.rows;
    if !Commit(s).failed {
      forall i | 0 <= i < |r| ensures r[i].voltageKv >= 66 {
        if i >= |s.rows| {
          assert r[i] == s.pending[i - |s.rows|];
        }
      }
    }
  }

  /** Once a commit has failed, no later step commits a row. */
  lemma StepKeepsFailure(s: Session, f: RawLine, now: real)
    requires s.failed
    ensures InsertStep(s, f, now).failed && InsertStep(s, f, now).rows == s.rows
  {
  }

  /** A failure in the loop lasts to its end: the rows stay those committed before it. */
  lemma {:induction false} FailureSticks(rows: seq<CachedLine>, features: seq<RawLine>, now: real, n: nat)
    requires n <= |features| && InsertAll(rows, features[..n], now).failed
    ensures InsertAll(rows, features, now).failed
    ensures InsertAll(rows, features, now).rows == InsertAll(rows, features[..n], now).rows
    decreases |features|
  {
    if n < |features| {
      var init := features[..|features| - 1];
      assert init[..n] == features[..n];
      FailureSticks(rows, init, now, n);
      StepKeepsFailure(InsertAll(rows, init, now), features[|features| - 1], now);
    } else {
      assert features[..n] == features;
    }
  }

  /**
   * As written, a commit that fails anywhere in the loop makes the whole run
   * raise, and the table keeps only the rows committed before that failure:
   * later batches never land.
   */
  lemma FailureIsFinal(rows: seq<CachedLine>, features: seq<RawLine>, now: real, n: nat)
    requires n <= |features| && InsertAll(rows, features[..n], now).failed
    ensures CacheAsWritten(rows, features, now) == (Err("IntegrityError"), InsertAll(rows, features[..n], now).rows)
  {
    FailureSticks(rows, features, now, n);
  }

  /** The run never removes or rewrites a committed row, and inserts only lines of 66 kV or more. */
  lemma {:induction false} InsertAllValid(rows: seq<CachedLine>, features: seq<RawLine>, now: real)
    requires ValidRows(rows)
    ensures var s := InsertAll(rows, features, now);
      && ValidRows(s.rows) && |rows| <= |s.rows| && s.rows[..|rows|] == rows
      && forall i | 0 <= i < |s.pending| :: s.pending[i].voltageKv >= 66
  {
    if features != [] {
      var prev := InsertAll(rows, features[..|features| - 1], now);
      InsertAllValid(rows, features[..|features| - 1], now);
      StepValid(prev, features[|features| - 1], now);
      var c := InsertAll(rows, features, now).rows;
      assert c[..|rows|] == c[..|prev.rows|][..|rows|];
    }
  }

  /** One step keeps the committed rows valid and in place, and the pending rows 66 kV+. */
  lemma StepValid(s: Session, f: RawLine, now: real)
    requires ValidRows(s.rows) && forall i | 0 <= i < |s.pending| :: s.pending[i].voltageKv >= 66
    ensures var t := InsertStep(s, f, now);
      && ValidRows(t.rows) && |s.rows| <= |t.rows| && t.rows[..|s.rows|] == s.rows
      && forall i | 0 <= i < |t.pending| :: t.pending[i].voltageKv >= 66
  {
    if Cacheable(f) {
      MergeValid(s, LineAt(f, s.count, now));
    }
  }

  lemma MergeValid(s: Session, line: CachedLine)
    requires ValidRows(s.rows) && forall i | 0 <= i < |s.pending| :: s.pending[i].voltageKv >= 66
    requires line.voltageKv >= 66
    ensures var t := MergeLine(s, line);
      && ValidRows(t.rows) && |s.rows| <= |t.rows| && t.rows[..|s.rows|] == s.rows
      && forall i | 0 <= i < |t.pending| :: t.pending[i].voltageKv >= 66
  {
    var t := s.(pending := s.pending + [line], count := s.count + 1);
    assert forall i | 0 <= i < |t.pending| :: t.pending[i].voltageKv >= 66;
    CommitValid(t);
  }

  lemma {:induction false} InsertAllCounts(rows: seq<CachedLine>, features: seq<RawLine>, now: real)
    ensures InsertAll(rows, features, now).count == CountWhere(features, false)
    ensures InsertAll(rows, features, now).skippedLowVoltage == CountWhere(features, true)
  {
    if features != [] {
      InsertAllCounts(rows, features[..|features| - 1], now);
    }
  }

  /**
   * As written, the run keeps the table invariant (the unique constraint
   * refuses a repeated id) and keeps every existing row unchanged.  It
   * succeeds exactly when no commit of the loop failed and the last batch
   * adds no repeated id, and then reports the count of cacheable features.
   */
  lemma CacheAsWrittenSpec(rows: seq<CachedLine>, features: seq<RawLine>, now: real)
    requires ValidRows(rows)
    ensures var (r, after) := CacheAsWritten(rows, features, now);
      && ValidRows(after) && |rows| <= |after| && after[..|rows|] == rows
      && (r.Ok? <==> !InsertAll(rows, features, now).failed
                     && UniqueIds(InsertAll(rows, features, now).rows + InsertAll(rows, features, now).pending))
      && (r.Ok? ==> r.value == CountWhere(features, false))
  {
    var s := InsertAll(rows, features, now);
    InsertAllValid(rows, features, now);
    InsertAllCounts(rows, features, now);
    CommitValid(s);
    var after := CacheAsWritten(rows, features, now).1;
    assert after[..|rows|] == after[..|s.rows|][..|rows|];
  }

  /**
   * Refreshing a table that already holds a line's feature id: as written
   * the final commit raises and the table is unchanged, while the intended
   * upsert replaces that row with the newly fetched line.
   */
  lemma KnownIdRefreshFails(rows: seq<CachedLine>, f: RawLine, now: real, k: nat)
    requires ValidRows(rows) && Cacheable(f)
    requires k < |rows| && rows[k].featureId == FeatureIdOf(f.props, 0)
    ensures CacheAsWritten(rows, [f], now) == (Err("IntegrityError"), rows)
    ensures CacheAll(rows, [f], now).rows == rows[..k] + [LineAt(f, 0, now)] + rows[k + 1..]
  {
    var line := LineAt(f, 0, now);
    InsertOne(rows, f, now);
    var t := rows + [line];
    assert t[k].featureId == t[|rows|].featureId;
    CacheOne(rows, f, now);
    UpsertAt(rows, line, k);
  }

  lemma InsertOne(rows: seq<CachedLine>, f: RawLine, now: real)
    requires Cacheable(f)
    ensures InsertAll(rows, [f], now).rows == rows
    ensures InsertAll(rows, [f], now).pending == [LineAt(f, 0, now)]
    ensures InsertAll(rows, [f], now).count == 1
  {
    assert [f][..0] == [];
    var s0 := InsertAll(rows, [], now);
    assert InsertAll(rows, [f], now) == InsertStep(s0, f, now);
    InsertCacheable(s0, f, now);
  }

  /** A cacheable feature that does not reach a hundred lines joins the pending batch. */
  lemma InsertCacheable(s: Session, f: RawLine, now: real)
    requires Cacheable(f) && (s.count + 1) % 100 != 0
    ensures InsertStep(s, f, now).rows == s.rows
    ensures InsertStep(s, f, now).pending == s.pending + [LineAt(f, s.count, now)]
    ensures InsertStep(s, f, now).count == s.count + 1
  {
    assert ScanVoltage(f.props) >= 66;
    MergeLineCases(s, LineAt(f, s.count, now));
  }

  lemma CacheOne(rows: seq<CachedLine>, f: RawLine, now: real)
    requires Cacheable(f)
    ensures CacheAll(rows, [f], now).rows == Upsert(rows, LineAt(f, 0, now))
  {
    assert [f][..0] == [];
  }

  /** With unique ids, the upsert of a line whose id is at position k replaces that row. */
  lemma UpsertAt(rows: seq<CachedLine>, line: CachedLine, k: nat)
    requires UniqueIds(rows) && k < |rows| && rows[k].featureId == line.featureId
    ensures Upsert(rows, line) == rows[..k] + [line] + rows[k + 1..]
  {
    forall j | 0 <= j < k ensures rows[j].featureId != line.featureId {
      assert rows[j].featureId != rows[k].featureId;
    }
    UpsertAtFirst(rows, line, k);
  }

  /** The upsert replaces the first row carrying the line's id. */
  lemma {:induction false} UpsertAtFirst(rows: seq<CachedLine>, line: CachedLine, k: nat)
    requires k < |rows| && rows[k].featureId == line.featureId
    requires forall j | 0 <= j < k :: rows[j].featureId != line.featureId
    ensures Upsert(rows, line) == rows[..k] + [line] + rows[k + 1..]
  {
    if k > 0 {
      var tail := rows[1..];
      assert tail[k - 1] == rows[k];
      assert forall j | 0 <= j < k - 1 :: tail[j] == rows[j + 1];
      UpsertAtFirst(tail, line, k - 1);
      assert rows[..k] == [rows[0]] + tail[..k - 1];
      assert tail[k..] == rows[k + 1..];
    }
  }

  /**
   * One turn of the insert loop: skip a feature without a shape, count a
   * line under 66 kV, otherwise add its row to the session and commit every
   * hundredth row.
   */
  method InsertFeature(committed: seq<CachedLine>, pending: seq<CachedLine>, count: nat, skippedLowVoltage: nat,
                       failed: bool, f: RawLine, now: real)
    returns (committed': seq<CachedLine>, pending': seq<CachedLine>, count': nat, skippedLowVoltage': nat, failed': bool)
    ensures Session(committed', pending', count', skippedLowVoltage', failed')
         == InsertStep(Session(committed, pending, count, skippedLowVoltage, failed), f, now)
  {
    ghost var s := Session(committed, pending, count, skippedLowVoltage, failed);
    committed', pending', count', skippedLowVoltage', failed' := committed, pending, count, skippedLowVoltage, failed;
    if f.geometry.Shape? {
      var v := ParseVoltage(f.props);
      if v < 66 {
        skippedLowVoltage' := skippedLowVoltage + 1;
      } else {
        var owner := OptionOf(FirstTruthy(f.props, ["OWNER", "OPERATOR", "NETWORK"]));
        var line := CachedLine(FeatureIdOf(f.props, count), v, owner, now);
        assert line == LineAt(f, count, now);
        assert InsertStep(s, f, now) == MergeLine(s, line);
        MergeLineCases(s, line);
        pending' := pending + [line];
        count' := count + 1;
        if count' % 100 == 0 {
          if !failed && UniqueIds(committed + pending') {
            committed' := committed + pending';
          } else {
            failed' := true;
          }
          pending' := [];
        }
      }
    }
  }

  class TransmissionTable {
    var rows: seq<CachedLine>

    ghost predicate Valid()
      reads this
    {
      ValidRows(rows)
    }

    constructor()
      ensures Valid() && rows == []
    {
      rows := [];
    }

    /**
     * cache_transmission_lines as written: Ok with the number of lines cached,
     * or Err when the final commit raises; `rows` is the table afterwards.
     */
    method CacheLines(features: seq<RawLine>, now: real) returns (r: Result<nat>)
      requires Valid()
      modifies this
      ensures Valid()
      ensures (r, rows) == CacheAsWritten(old(rows), features, now)
    {
      var committed := rows;
      var pending: seq<CachedLine> := [];
      var count := 0;
      var skippedLowVoltage := 0;
      var failed := false;
      var i := 0;
      while i < |features|
        invariant 0 <= i <= |features|
        invariant rows == old(rows)
        invariant Session(committed, pending, count, skippedLowVoltage, failed) == InsertAll(old(rows), features[..i], now)
      {
        assert features[..i + 1][..i] == features[..i];
        committed, pending, count, skippedLowVoltage, failed :=
          InsertFeature(committed, pending, count, skippedLowVoltage, failed, features[i], now);
        i := i + 1;
      }
      assert features[..|features|] == features;
      if !failed && UniqueIds(committed + pending) {
        committed := committed + pending;
        r := Ok(count);
      } else {
        r := Err("IntegrityError");
      }
      rows := committed;
      CacheAsWrittenSpec(old(rows), features, now);
    }

    /**
     * ensure_transmission_cache: keep a non-empty cache whose oldest row is
     * younger than `maxAgeDays`; otherwise refresh from `loaded` (the CDN/WFS
     * load, None when it raised).  Ready when features came back and caching
     * them did not raise.
     */
    method EnsureFresh(now: real, maxAgeDays: real, loaded: Option<seq<RawLine>>) returns (ready: bool)
      requires Valid()
      modifies this
      ensures Valid()
      ensures IsFresh(old(rows), now, maxAgeDays) ==> ready && rows == old(rows)
      ensures !IsFresh(old(rows), now, maxAgeDays) ==>
        if loaded.Some? && loaded.value != [] then
          var (r, after) := CacheAsWritten(old(rows), loaded.value, now);
          ready == r.Ok? && rows == after
        else !ready && rows == old(rows)
    {
      if |rows| > 0 && now - Oldest(rows) < maxAgeDays {
        return true;
      }
      if loaded.Some? && loaded.value != [] {
        var r := CacheLines(loaded.value, now);
        return r.Ok?;
      }
      return false;
    }
  }

  /** The fetched_at of the oldest row. */
  function Oldest(rows: seq<CachedLine>): (t: real)
    requires rows != []
    ensures forall i | 0 <= i < |rows| :: t <= rows[i].fetchedAt
    ensures exists i | 0 <= i < |rows| :: t == rows[i].fetchedAt
  {
    if |rows| == 1 then rows[0].fetchedAt
    else
      var t := Oldest(rows[1..]);
      assert forall i | 1 <= i < |rows| :: rows[i] == rows[1..][i - 1];
      if rows[0].fetchedAt <= t then rows[0].fetchedAt else t
  }

  /** The cache is kept exactly when it is non-empty and its oldest row is younger than the limit. */
  predicate IsFresh(rows: seq<CachedLine>, now: real, maxAgeDays: real)
  {
    |rows| > 0 && now - Oldest(rows) < maxAgeDays
  }

  /** Checking the oldest row is the same as checking that every row is young enough. */
  lemma FreshIffAllYoung(rows: seq<CachedLine>, now: real, maxAgeDays: real)
    ensures IsFresh(rows, now, maxAgeDays) <==>
      |rows| > 0 && forall i | 0 <= i < |rows| :: now - rows[i].fetchedAt < maxAgeDays
  {
    if |rows| > 0 {
      var t := Oldest(rows);
      var k :| 0 <= k < |rows| && t == rows[k].fetchedAt;
    }
  }

  // ---------------------------------------------------------------------------
  // get_cached_lines_near and the cached proximity check
  // ---------------------------------------------------------------------------

  /** A cached line near the query point with its computed distance in metres. */
  datatype NearLine = NearLine(featureId: string, voltageKv: nat, owner: Option<string>, distance: real)

  function Distance(l: NearLine): real { l.distance }

  /**
   * The rows the query keeps, in table order: 66 kV or more, a readable
   * geometry (`dists[i]` is None when it is not, or when it is neither a
   * LineString nor a MultiLineString), and a distance within `radius`.
   */
  function Candidates(rows: seq<CachedLine>, dists: seq<Option<real>>, radius: real): (r: seq<NearLine>)
    requires |dists| == |rows|
    ensures forall l | l in r :: l.distance <= radius && l.voltageKv >= 66
  {
    if rows == [] then []
    else
      var hit := rows[0].voltageKv >= 66 && dists[0].Some? && dists[0].value <= radius;
      (if hit then [NearLine(rows[0].featureId, rows[0].voltageKv, rows[0].owner, dists[0].value)] else [])
      + Candidates(rows[1..], dists[1..], radius)
  }

  lemma {:induction false} CandidatesHas(rows: seq<CachedLine>, dists: seq<Option<real>>, radius: real, i: nat)
    requires |dists| == |rows| && i < |rows|
    requires rows[i].voltageKv >= 66 && dists[i].Some? && dists[i].value <= radius
    ensures NearLine(rows[i].featureId, rows[i].voltageKv, rows[i].owner, dists[i].value) in Candidates(rows, dists, radius)
  {
    if i > 0 {
      CandidatesHas(rows[1..], dists[1..], radius, i - 1);
    }
  }

  lemma {:induction false} CandidatesFrom(rows: seq<CachedLine>, dists: seq<Option<real>>, radius: real, l: NearLine)
    requires |dists| == |rows|
    requires l in Candidates(rows, dists, radius)
    ensures exists i | 0 <= i < |rows| ::
      rows[i].voltageKv >= 66 && dists[i] == Some(l.distance) &&
      l == NearLine(rows[i].featureId, rows[i].voltageKv, rows[i].owner, dists[i].value)
  {
    var hit := rows[0].voltageKv >= 66 && dists[0].Some? && dists[0].value <= radius;
    if !(hit && l == NearLine(rows[0].featureId, rows[0].voltageKv, rows[0].owner, dists[0].value)) {
      CandidatesFrom(rows[1..], dists[1..], radius, l);
      var i :| 0 <= i < |rows[1..]| && rows[1..][i].voltageKv >= 66 && dists[1..][i] == Some(l.distance)
        && l == NearLine(rows[1..][i].featureId, rows[1..][i].voltageKv, rows[1..][i].owner, dists[1..][i].value);
      assert rows[i + 1] == rows[1..][i] && dists[i + 1] == dists[1..][i];
    }
  }

  /** get_cached_lines_near: the kept rows sorted by ascending distance. */
  function CachedLinesNear(rows: seq<CachedLine>, dists: seq<Option<real>>, radius: real): (r: seq<NearLine>)
    requires |dists| == |rows|
    ensures SortedBy(r, Distance)
    ensures multiset(r) == multiset(Candidates(rows, dists, radius))
    ensures forall l | l in r :: l.distance <= radius && l.voltageKv >= 66
  {
    var c := Candidates(rows, dists, radius);
    SortBySorted(c, Distance);
    var r := SortBy(c, Distance);
    assert forall l | l in r :: l in multiset(c);
    r
  }

  /** check_transmission_proximity_cached: the nearest cached line within threshold + 100 m. */
  function CheckProximityCached(rows: seq<CachedLine>, dists: seq<Option<real>>, threshold: real): (p: Proximity)
    requires |dists| == |rows|
    ensures p.line.None? ==> p == Proximity(false, None, None)
    ensures p.line.Some? ==>
      && p.distance == Some(p.line.value.distance)
      && p.near == (p.line.value.distance <= threshold)
      && p.line.value.voltageKv >= 66
      && p.line.value.distance <= threshold + 100.0
  {
    var lines := CachedLinesNear(rows, dists, threshold + 100.0);
    if lines == [] then Proximity(false, None, None)
    else
      assert lines[0] in lines;
      var c := lines[0];
      Proximity(c.distance <= threshold, Some(c.distance), Some(Line(c.voltageKv, c.owner, c.distance)))
  }

  /**
   * The cached check reports "near" exactly when some cached line of 66 kV or
   * more lies within the threshold: the threshold + 100 m search never misses one.
   */
  lemma CachedNearIff(rows: seq<CachedLine>, dists: seq<Option<real>>, threshold: real)
    requires |dists| == |rows|
    ensures CheckProximityCached(rows, dists, threshold).near <==>
      exists i | 0 <= i < |rows| :: rows[i].voltageKv >= 66 && dists[i].Some? && dists[i].value <= threshold
  {
    var radius := threshold + 100.0;
    var c := Candidates(rows, dists, radius);
    var lines := CachedLinesNear(rows, dists, radius);
    if i :| 0 <= i < |rows| && rows[i].voltageKv >= 66 && dists[i].Some? && dists[i].value <= threshold {
      CandidatesHas(rows, dists, radius, i);
      var l := NearLine(rows[i].featureId, rows[i].voltageKv, rows[i].owner, dists[i].value);
      SortedHeadIsLeast(c, Distance, l);
    }
    if CheckProximityCached(rows, dists, threshold).near {
      assert lines[0] in multiset(c);
      CandidatesFrom(rows, dists, radius, lines[0]);
    }
  }

  /**
   * The cached check finds no line exactly when no cached line of 66 kV or
   * more lies within threshold + 100 m, and otherwise reports the nearest
   * such line, with the voltage and owner of its row.
   */
  lemma CachedNearest(rows: seq<CachedLine>, dists: seq<Option<real>>, threshold: real)
    requires |dists| == |rows|
    ensures var p := CheckProximityCached(rows, dists, threshold);
      p.line.None? <==> forall i | 0 <= i < |rows| ::
        !(rows[i].voltageKv >= 66 && dists[i].Some? && dists[i].value <= threshold + 100.0)
    ensures var p := CheckProximityCached(rows, dists, threshold);
      p.line.Some? ==> forall i | 0 <= i < |rows| && rows[i].voltageKv >= 66 && dists[i].Some? && dists[i].value <= threshold + 100.0 ::
        p.line.value.distance <= dists[i].value
    ensures var p := CheckProximityCached(rows, dists, threshold);
      p.line.Some? ==> exists i | 0 <= i < |rows| ::
        dists[i] == Some(p.line.value.distance) &&
        rows[i].voltageKv == p.line.value.voltageKv && rows[i].owner == p.line.value.owner
  {
    var radius := threshold + 100.0;
    var c := Candidates(rows, dists, radius);
    var lines := CachedLinesNear(rows, dists, radius);
    forall i | 0 <= i < |rows| && rows[i].voltageKv >= 66 && dists[i].Some? && dists[i].value <= radius
      ensures |lines| > 0 && lines[0].distance <= dists[i].value
    {
      CandidatesHas(rows, dists, radius, i);
      var l := NearLine(rows[i].featureId, rows[i].voltageKv, rows[i].owner, dists[i].value);
      SortedHeadIsLeast(c, Distance, l);
    }
    if lines != [] {
      assert lines[0] in multiset(c);
      CandidatesFrom(rows, dists, radius, lines[0]);
    }
  }
}
