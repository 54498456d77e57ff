# Site-screening core of the feasibility dashboard, in Dafny

This project models the decision logic of the feasibility dashboard, which screens
residential sites in Victoria for development. The logic turns spatial findings
(zones, overlays, easements, transmission lines, contours, comparable sales) into
verdicts and numbers. It covers:

- the quick-kill verdict accumulator and screen;
- the easement keyword classifier and the transmission, overlay and easement checks;
- the transmission, zone, overlay and feng-shui caches (freshness, lazy loading,
  skip-existing inserts, clear-then-repopulate, paging);
- frontage-edge selection, the slope guards and the compass label;
- the Low Density Residential Zone (LDRZ) subdivision checks;
- progressive stamp duty and the LDRZ feasibility arithmetic;
- strategy applicability and the yield and feasibility arithmetic;
- the property, quality, depreciation and renovation classifiers, and residual land value;
- comparable-sale adjustment with the adjusted-median estimate;
- the config fallbacks and planning rules;
- the weekly suburb rotation;
- the price-text parsers.

Each source file has one Dafny module: `QuickKill`, `GisClients`, `TransmissionCache`,
`ZoneCache`, `OverlayCache`, `FengShuiCache`, `Geometry`, `LdrzChecks`, `LdrzStrategy`,
`Strategies`, `FeasibilityModel`, `Classifiers`, `Intel`, `ScannerConfig`, `PlanningRules`,
`WeeklyRefresh`, `BrowserAgent` and `MarketUtils`. Shared helpers live in `Wrappers`
(Option, Result), `Text` (ASCII string functions), `Numeric` (Python `round` and `int`),
`Sorting` (`list.sort` as an insertion sort) and `PriceScan` (the regular expressions of the
price parsers and Python `float`).

Where the source changes state, the model does too. The quick-kill result, the cache tables,
the overlay index, the feng-shui index and the refresh state are classes whose methods are
proved against specification functions. Loops over lists are methods with invariants, proved
equal to a fold. Pure rules are functions with lemmas.

Remote queries (WFS, HTTP, the database) are inputs. A lookup that raised is `None`, where
the source catches the error. Distances, containment tests, areas and geometry measurements
are given values. Times are reals, in days, on one clock. Money and metres are reals.

Python's regular expressions are modelled by explicit scanners. Each pattern used is a greedy
run of one character class followed by classes that cannot extend it, so backtracking never
changes the groups found. A search returns the leftmost match (`PriceScan.SearchIsFirstMatch`).

In two places the code does not match the database schema it runs against: `CachedOverlay`
has no `fetched_at`, `lga` or bounding-box columns. The model follows the evident intent,
and the code as written is logged under "## Findings".

## Model

| member | source | states |
|---|---|---|
| QuickKill.ApplyAllSpec | src/scanner/constraints/quick_kill.py:41-62 | replaying add_reason/add_warning calls appends exactly their reasons and warnings in order, records details only under non-empty keys, and rejects iff already rejected or some call was a reason |
| QuickKill.RejectIsSticky | src/scanner/constraints/quick_kill.py:57-62 | once should_reject is set no later call clears it |
| QuickKill.QuickKillResult.AddWarning | src/scanner/constraints/quick_kill.py:49-55 | a warning is appended and leaves should_reject and the reasons untouched |
| QuickKill.QuickKillResult.AddReason | src/scanner/constraints/quick_kill.py:57-62 | a reason is appended and sets should_reject; the warnings are untouched |
| QuickKill.QuickKillResult.AddAll | src/scanner/constraints/quick_kill.py:41-62 | a run of calls leaves the result in the replayed verdict |
| QuickKill.OverlayReasons | src/scanner/constraints/quick_kill.py:139-159 | one rejection reason per blocker overlay found |
| QuickKill.HeritageReasons | src/scanner/constraints/quick_kill.py:164-173 | one rejection reason per heritage listing |
| QuickKill.SevereEasements | src/scanner/constraints/quick_kill.py:183 | the easements named in the rejection are exactly those of severity 3 or more |
| QuickKill.SevereEasementsAppend | src/scanner/constraints/quick_kill.py:183 | the filter keeps the input order: filtering a concatenation concatenates the filtered parts |
| QuickKill.EasementWarning | src/scanner/constraints/quick_kill.py:191-206 | an easement of severity 1 or 2 gives exactly one warning, any other none, and never a reason |
| QuickKill.EasementWarningsCount | src/scanner/constraints/quick_kill.py:191-206 | without blockers there is one warning per easement of severity 1 or 2 and no reason |
| QuickKill.ReasonsOfAppend | src/scanner/constraints/quick_kill.py:41-62 | the reasons and warnings of consecutive checks are those of each check in turn |
| QuickKill.EasementVerdict | src/scanner/constraints/quick_kill.py:178-209 | blocking easements give exactly one reason and no warning; otherwise no reason and one warning per severity-1/2 easement |
| QuickKill.Closest | src/scanner/constraints/quick_kill.py:269-275 | the EPA site reported is one of those found and none is nearer |
| QuickKill.BlockerTypesOrDefault | src/scanner/constraints/quick_kill.py:85-87 | without a list the blocker overlay types are HO, VHR, PAO, EAO and BMO |
| QuickKill.EvaluateQuickKill | src/scanner/constraints/quick_kill.py:65-331 | the fresh result holds exactly the verdict of the nine checks' events in source order |
| QuickKill.ApplyAllAppend | src/scanner/constraints/quick_kill.py:65-331 | running the checks one after another is running their concatenated events |
| QuickKill.HeritageFailureIsolated | src/scanner/constraints/quick_kill.py:164-173 | shown for the heritage lookup only: when it raises, exactly its events drop out and every other check contributes as before |
| QuickKill.OutcomesPartition | src/scanner/constraints/quick_kill.py:352-416 | every screened parcel is counted as exactly one of rejected, passed or failed |
| QuickKill.RunQuickKillScreen | src/scanner/constraints/quick_kill.py:334-431 | screened, rejected, passed and failed count the parcels by outcome and add up |
| GisClients.FirstTruthy | src/scanner/spatial/gis_clients.py:299-307 | the value read is empty iff every alias is missing or empty; the first alias wins when set; any value read is one of the aliases' values |
| GisClients.OptionOf | src/scanner/spatial/gis_clients.py:402-404 | an empty value is reported as missing, and only an empty one |
| GisClients.OverlayOf | src/scanner/spatial/gis_clients.py:299-310 | a feature yields an overlay iff one of its code aliases is set, and the overlay always carries a code |
| GisClients.OverlaysAtPoint | src/scanner/spatial/gis_clients.py:295-323 | at most one overlay per feature, each with a code |
| GisClients.OverlayList | src/scanner/spatial/gis_clients.py:310-320 | one feature contributes at most one overlay, with a code |
| GisClients.OverlaysAtPointAppend | src/scanner/spatial/gis_clients.py:295-323 | the overlays are collected feature by feature in order |
| GisClients.ZoneOf | src/scanner/spatial/gis_clients.py:349-359 | a feature yields a zone iff one of its code aliases is set, and the zone always carries a code |
| GisClients.ZonesAtPoint | src/scanner/spatial/gis_clients.py:346-372 | at most one zone per feature, each with a code |
| GisClients.ZoneList | src/scanner/spatial/gis_clients.py:359-370 | one feature contributes at most one zone, with a code |
| GisClients.ZonesAtPointAppend | src/scanner/spatial/gis_clients.py:346-372 | the zones are collected feature by feature in order |
| GisClients.HeritageAtPoint | src/scanner/spatial/gis_clients.py:398-414 | one heritage item per feature, its VHR number the first set of VHR_NUMBER, VHR_NO, VHR |
| GisClients.VoltageKv | src/scanner/spatial/gis_clients.py:450-454 | the digits of the first truthy voltage alias read as an integer, 0 when there are none; VoltageDigits states the value |
| GisClients.KeepDigitsAppend | src/scanner/spatial/gis_clients.py:452 | keeping the digits of a text distributes over concatenation |
| GisClients.KeepDigitsOfDigits | src/scanner/spatial/gis_clients.py:452 | a text of digits alone keeps all of them |
| GisClients.VoltageDigits | src/scanner/spatial/gis_clients.py:450-454 | a voltage text of digits between digit-free parts ("220 kV") reads as the value of those digits, and one without digits as 0 |
| GisClients.TransmissionLinesNear | src/scanner/spatial/gis_clients.py:441-468 | one line per feature, in order, with the feature's parsed voltage, its first truthy OWNER, OPERATOR or NETWORK value, and its distance |
| GisClients.HighVoltage | src/scanner/spatial/gis_clients.py:707 | exactly the lines of 66 kV or more are kept |
| GisClients.NearestIndex | src/scanner/spatial/gis_clients.py:712 | the first line of least distance, as min does |
| GisClients.CheckTransmissionProximity | src/scanner/spatial/gis_clients.py:701-715 | no high-voltage line gives (False, None, None); otherwise the nearest 66 kV+ line, its distance, and whether it is within the threshold |
| GisClients.TransmissionSearchRadius | src/scanner/spatial/gis_clients.py:701 | lines are searched for beyond the threshold itself; SearchRadiusSuffices shows the radius loses nothing |
| GisClients.SearchRadiusSuffices | src/scanner/spatial/gis_clients.py:701-715 | with the query returning every feature within threshold + 200 m (and perhaps more), the site is near iff some 66 kV+ line of the whole network is within the threshold, and the distance reported is then the least over all 66 kV+ lines |
| GisClients.NearHasWitness | src/scanner/spatial/gis_clients.py:704-715 | a near verdict comes from a 66 kV+ feature within the threshold |
| GisClients.NearIsLeast | src/scanner/spatial/gis_clients.py:701-715 | every 66 kV+ feature of the network is at least as far as the reported line when near, and beyond the threshold otherwise |
| GisClients.BlockerOverlays | src/scanner/spatial/gis_clients.py:733-744 | exactly the overlays whose type is a blocker type (HO, VHR, PAO, EAO, BMO by default) |
| GisClients.FilterBlockers | src/scanner/spatial/gis_clients.py:739-742 | exactly the overlays whose type is in the list are kept |
| GisClients.FilterBlockersAppend | src/scanner/spatial/gis_clients.py:739-742 | the blockers are kept in input order |
| GisClients.TruthyValues | src/scanner/spatial/gis_clients.py:597 | only set values are joined for the fallback text |
| GisClients.FirstKeywordIndex | src/scanner/spatial/gis_clients.py:600-608 | the first keyword of the table the text contains, in table order |
| GisClients.TableFacts | src/scanner/spatial/gis_clients.py:529-562 | the table has 29 keywords, severities 1 to 3, and its first entries are the severity-3 blockers |
| GisClients.ClassifyBounds | src/scanner/spatial/gis_clients.py:600-611 | severity is 1 to 3; "unknown" iff no keyword occurs; otherwise a table entry whose keyword occurs |
| GisClients.BlockerKeywordWins | src/scanner/spatial/gis_clients.py:600-608 | text mentioning any severity-3 keyword is classified as a blocker |
| GisClients.WaterMainIsBlocker | src/scanner/spatial/gis_clients.py:600-608 | a "water main" easement is a blocker whatever else the text says |
| GisClients.ClassifyEasement | src/scanner/spatial/gis_clients.py:565-611 | the loop classifies as the first-match specification does |
| GisClients.ReadEasementText | src/scanner/spatial/gis_clients.py:588-597 | the first truthy named field, lower-cased, else all set values lower-cased and joined |
| GisClients.MatchEasementKeyword | src/scanner/spatial/gis_clients.py:600-611 | the keyword loop returns the first matching entry, else unknown with severity 2 |
| GisClients.FirstTruthyAt | src/scanner/spatial/gis_clients.py:588-593 | the first set field in order is the one read |
| GisClients.FirstKeywordIndexIs | src/scanner/spatial/gis_clients.py:600-608 | the first keyword found is characterised by its position alone |
| GisClients.EasementsNear | src/scanner/spatial/gis_clients.py:614-658 | a failed query gives no easements; otherwise the i-th easement carries the i-th feature's id and the type, severity and description that classify_easement gives its properties; every severity is 1 to 3 |
| GisClients.AnyBlocker | src/scanner/spatial/gis_clients.py:679 | true iff some easement has severity 3 or more |
| GisClients.CheckPropertyEasements | src/scanner/spatial/gis_clients.py:661-682 | has_blockers iff some easement has severity 3 or more, has_any iff any easement; blockers imply any |
| TransmissionCache.ScanVoltageSpec | src/scanner/spatial/transmission_cache.py:192-209 | a positive voltage comes from some voltage/kv-named field; 0 iff every such field reads 0 |
| TransmissionCache.ParseVoltage | src/scanner/spatial/transmission_cache.py:193-209 | the key loop stops at the first field with a positive reading, as the scan specification says |
| TransmissionCache.FeatureIdOf | src/scanner/spatial/transmission_cache.py:185-190 | a cached line always has a non-empty feature id (falling back to the running count) |
| TransmissionCache.UpsertMembers | src/scanner/spatial/transmission_cache.py:235-236 | the intended upsert by feature id stores the line, keeps every row with another id and adds nothing else |
| TransmissionCache.UpsertAt | src/scanner/spatial/transmission_cache.py:235-236 | with unique ids, the intended upsert of a line whose id is held at position k replaces exactly that row |
| TransmissionCache.UpsertIds | src/scanner/spatial/transmission_cache.py:235-236 | the intended upsert keeps feature ids unique and introduces no id but the merged line's |
| TransmissionCache.UpsertValid | src/scanner/spatial/transmission_cache.py:211-236 | the intended upsert of a 66 kV+ line keeps the table valid (unique ids, all 66 kV+) |
| TransmissionCache.CacheAllSpec | src/scanner/spatial/transmission_cache.py:156-253 | the corrected caching run, upserting by feature id, keeps the table valid; the count is the cacheable 66 kV+ features and the skipped count the low-voltage ones |
| TransmissionCache.CommitValid | src/scanner/spatial/transmission_cache.py:239-246 | a commit lands the pending batch iff the session has not failed and the ids stay unique; otherwise it marks the session failed and lands nothing; either way the table stays valid, the earlier rows stay in place and the batch is emptied |
| TransmissionCache.StepValid | src/scanner/spatial/transmission_cache.py:170-244 | one loop turn keeps the committed rows valid and in place, and only 66 kV+ lines wait in the batch |
| TransmissionCache.MergeValid | src/scanner/spatial/transmission_cache.py:235-241 | merging a 66 kV+ line, with its commit on every hundredth line, keeps the committed rows valid and in place |
| TransmissionCache.StepKeepsFailure | src/scanner/spatial/transmission_cache.py:235-244 | once a commit has failed the session stays failed and later turns land no rows, since nothing rolls the session back |
| TransmissionCache.FailureSticks | src/scanner/spatial/transmission_cache.py:170-244 | a session failed after the first n features is still failed after all of them, with the same committed rows |
| TransmissionCache.FailureIsFinal | src/scanner/spatial/transmission_cache.py:170-246 | once any batch commit has failed, the final commit raises as well: the run is the integrity error and the table keeps the rows committed before the failure |
| TransmissionCache.InsertAllValid | src/scanner/spatial/transmission_cache.py:170-244 | the insert loop as written keeps the committed rows valid and in place, and only 66 kV+ lines wait in the pending batch |
| TransmissionCache.InsertAllCounts | src/scanner/spatial/transmission_cache.py:170-244 | the insert loop counts the cacheable 66 kV+ features and skips the low-voltage ones |
| TransmissionCache.CacheAsWrittenSpec | src/scanner/spatial/transmission_cache.py:156-253 | as written the run keeps the table valid and its earlier rows in place; it succeeds iff no batch commit failed and the final commit keeps the ids unique, and then returns the count of cacheable features |
| TransmissionCache.KnownIdRefreshFails | src/scanner/spatial/transmission_cache.py:235-246 | as written, refreshing with a line whose feature id is already held fails the final commit and leaves the table unchanged, where the intended upsert replaces that row |
| TransmissionCache.InsertCacheable | src/scanner/spatial/transmission_cache.py:211-241 | a 66 kV+ line that does not complete a hundred joins the pending batch and raises the count by one |
| TransmissionCache.InsertFeature | src/scanner/spatial/transmission_cache.py:170-244 | one turn of the loop body, with its local session, is one step of the as-written run (InsertStep) |
| TransmissionCache.NotCacheableIgnored | src/scanner/spatial/transmission_cache.py:174-175 | a feature without geometry changes neither the rows nor the count |
| TransmissionCache.TransmissionTable.constructor | src/scanner/spatial/transmission_cache.py:156-165 | an empty, valid cache |
| TransmissionCache.TransmissionTable.CacheLines | src/scanner/spatial/transmission_cache.py:156-253 | the loop inserts, commits every hundred lines (a failed commit leaves the session failed, so every later commit fails) and commits at the end, leaving the rows and the outcome (the count, or the integrity error) of the as-written run |
| TransmissionCache.TransmissionTable.EnsureFresh | src/scanner/spatial/transmission_cache.py:363-404 | a fresh cache is kept and ready; otherwise, when lines were loaded, they are cached as written and ready iff the run committed; with nothing loaded the table is kept and not ready |
| TransmissionCache.Oldest | src/scanner/spatial/transmission_cache.py:377-383 | the oldest fetch time is one of the rows' and no row is older |
| TransmissionCache.FreshIffAllYoung | src/scanner/spatial/transmission_cache.py:373-390 | the cache is fresh iff it is non-empty and every row is younger than the maximum age |
| TransmissionCache.Candidates | src/scanner/spatial/transmission_cache.py:283-310 | every candidate is a 66 kV+ line within the radius |
| TransmissionCache.CandidatesHas | src/scanner/spatial/transmission_cache.py:283-310 | every 66 kV+ line within the radius is a candidate |
| TransmissionCache.CandidatesFrom | src/scanner/spatial/transmission_cache.py:283-310 | every candidate is a 66 kV+ row with its feature id, voltage and owner, at that row's distance |
| TransmissionCache.CachedLinesNear | src/scanner/spatial/transmission_cache.py:256-313 | the candidates, sorted by distance, as a permutation |
| TransmissionCache.CheckProximityCached | src/scanner/spatial/transmission_cache.py:337-360 | no line gives (False, None, None); otherwise the nearest line, its distance, and whether it is within the threshold |
| TransmissionCache.CachedNearIff | src/scanner/spatial/transmission_cache.py:337-360 | near iff some 66 kV+ cached line is within the threshold |
| TransmissionCache.CachedNearest | src/scanner/spatial/transmission_cache.py:337-360 | no line is reported iff no 66 kV+ cached line lies within threshold + 100 m; otherwise the reported line is no farther than any such line and carries the voltage, owner and distance of one of the rows |
| ZoneCache.LatestFor | src/scanner/spatial/zone_cache.py:36-44 | the newest point-cache row for the rounded coordinates, the last of them in table order on a tie (every later row with the key is strictly older); none iff no row has that key |
| ZoneCache.FirstContaining | src/scanner/spatial/zone_cache.py:72-97 | the first candidate polygon that contains the point; candidates that fail to load are skipped |
| ZoneCache.LookupTiers | src/scanner/spatial/zone_cache.py:21-123 | missing coordinates give None; a fresh point-cache row answers without writing; a local polygon answers and appends one row; otherwise the remote answer (first zone, or None) is appended, a "none" sentinel when empty |
| ZoneCache.Lookup | src/scanner/spatial/zone_cache.py:21-123 | the tiered lookup: point cache, local polygons, remote service; LookupTiers states each tier's answer and write |
| ZoneCache.WriteBackHits | src/scanner/spatial/zone_cache.py:78-116 | after any lookup that missed, the same point is answered from the point cache with the same code |
| ZoneCache.ZoneCacheTable.constructor | src/scanner/spatial/zone_cache.py:21-34 | an empty point cache |
| ZoneCache.ZoneCacheTable.GetZoneAtPointCached | src/scanner/spatial/zone_cache.py:21-123 | the answer and the new point cache are those of the tiered lookup specification |
| ZoneCache.FirstContainingIs | src/scanner/spatial/zone_cache.py:72-97 | the first containing polygon is characterised by its position alone |
| OverlayCache.OverlayTypeOf | src/scanner/spatial/overlay_cache.py:245-258 | a code is cached only under one of the types HO, BMO, PAO, EAO |
| OverlayCache.OverlayTypePrefix | src/scanner/spatial/overlay_cache.py:247-254 | a code is skipped iff it starts with none of HO, BMO, WMO, PAO, EAO; BMO covers the old WMO codes; every other type is its own prefix |
| OverlayCache.FeatureIdOf | src/scanner/spatial/overlay_cache.py:264 | pfi, then PFI, then the feature id as text: the id is empty exactly when pfi and PFI are empty and the feature id is the empty string, and is "None" when the feature has no id |
| OverlayCache.RowOf | src/scanner/spatial/overlay_cache.py:235-275 | a row is made only from a feature with a geometry and a cached type, typed by its code and stamped now; every such feature gives one |
| OverlayCache.Upsert | src/scanner/spatial/overlay_cache.py:275 | the intended upsert by feature id stores the row, replaces only the row with its id and keeps every other row |
| OverlayCache.UpsertUnique | src/scanner/spatial/overlay_cache.py:275 | the intended upsert keeps feature ids unique and introduces no id but the merged row's |
| OverlayCache.SaveAllKeepsTable | src/scanner/spatial/overlay_cache.py:195-196 | saving a run of features keeps ids unique and only cached types in the table |
| OverlayCache.FirstStop | src/scanner/spatial/overlay_cache.py:187-211 | the download stops at the first page that failed, was empty or was short of 1000 |
| OverlayCache.Offsets | src/scanner/spatial/overlay_cache.py:186-206 | the k-th page is requested at start index 1000 k |
| OverlayCache.Newest | src/scanner/spatial/overlay_cache.py:114-118 | the last fetch time is one of the rows' and no row is newer |
| OverlayCache.SkipsIffRecentRow | src/scanner/spatial/overlay_cache.py:111-125 | the refresh is skipped iff not forced and some row is under 30 days old |
| OverlayCache.Loadable | src/scanner/spatial/overlay_cache.py:63-72 | exactly the rows with a geometry text that loads are kept, in table order |
| OverlayCache.WktOf | src/scanner/spatial/overlay_cache.py:60-67 | the geometry list lines up with the kept rows |
| OverlayCache.LoadIdempotent | src/scanner/spatial/overlay_cache.py:46-78 | loading again changes nothing, keeps overlays and geometries aligned, an empty table leaves the index unbuilt, and the index is built iff some geometry loads |
| OverlayCache.Hits | src/scanner/spatial/overlay_cache.py:90-104 | exactly the overlays whose geometry the point intersects are reported, each marked source "cache" |
| OverlayCache.HitsAreCachedTypes | src/scanner/spatial/overlay_cache.py:80-104 | every cached hit has one of the cached overlay types |
| OverlayCache.OverlayCacheManager.constructor | src/scanner/spatial/overlay_cache.py:32-44 | no index, no overlays and no geometries in memory |
| OverlayCache.LoadRows | src/scanner/spatial/overlay_cache.py:60-71 | the loop keeps exactly the rows whose geometry text is non-empty and loads, in order, with their geometries index-aligned |
| OverlayCache.OverlayCacheManager.EnsureLoaded | src/scanner/spatial/overlay_cache.py:46-78 | the memory becomes that of the load specification; the table is untouched |
| OverlayCache.OverlayCacheManager.GetOverlaysAtPoint | src/scanner/spatial/overlay_cache.py:80-104 | loads first, then reports the hits of the loaded index |
| OverlayCache.OverlayCacheManager.Populate | src/scanner/spatial/overlay_cache.py:106-218 | a recent, unforced table is left alone; otherwise the table is cleared, the pages up to the first stop are requested and saved, and the index is rebuilt |
| OverlayCache.SaveAllAppend | src/scanner/spatial/overlay_cache.py:195-196 | saving page after page is saving their features in order |
| OverlayCache.OffsetsStep | src/scanner/spatial/overlay_cache.py:206 | each further page starts 1000 after the last |
| OverlayCache.DownloadedStep | src/scanner/spatial/overlay_cache.py:191-198 | each page's features follow those of the pages before |
| OverlayCache.SavePage | src/scanner/spatial/overlay_cache.py:195-196 | the per-feature loop saves as the specification does |
| OverlayCache.Download | src/scanner/spatial/overlay_cache.py:186-211 | the paging loop requests 0, 1000, ... up to the stopping page and saves their features |
| OverlayCache.SaveFeatureAsWrittenLosesOverlays | src/scanner/spatial/overlay_cache.py:263-278 | as written a heritage overlay with a geometry is not saved; the corrected save stores it |
| OverlayCache.SkipTestAsWrittenRaises | src/scanner/spatial/overlay_cache.py:114-118 | as written the age check on a non-empty table raises where the intended rule skips the refresh |
| FengShuiCache.Items | src/scanner/spatial/feng_shui_cache.py:33-48 | only rows whose geometry loads become items, each taken from a row |
| FengShuiCache.LoadedIndex | src/scanner/spatial/feng_shui_cache.py:26-51 | an empty table leaves the index alone; otherwise the items are rebuilt and the tree exists iff it did or some item loaded |
| FengShuiCache.FirstWithin | src/scanner/spatial/feng_shui_cache.py:67-73 | the first item of the requested type within the radius |
| FengShuiCache.ProximityHit | src/scanner/spatial/feng_shui_cache.py:55-75 | a hit is an item of the index of the requested type within the radius, and there is one whenever such an item exists |
| FengShuiCache.ProximityAfterLoad | src/scanner/spatial/feng_shui_cache.py:53-75 | after a lazy load, no tree means no hit, and a hit is a cached row of the requested type whose geometry loaded |
| FengShuiCache.FengShuiIndex.constructor | src/scanner/spatial/feng_shui_cache.py:22-24 | no tree and no items |
| FengShuiCache.FengShuiIndex.LoadCache | src/scanner/spatial/feng_shui_cache.py:26-51 | the index becomes the loaded index of the specification |
| FengShuiCache.FengShuiIndex.CheckProximity | src/scanner/spatial/feng_shui_cache.py:53-75 | loads only when there is no tree, then reports (True, item) exactly for the first hit of the specification |
| FengShuiCache.FirstWithinIs | src/scanner/spatial/feng_shui_cache.py:67-73 | the first item within the radius is characterised by its position alone |
| FengShuiCache.IdsOf | src/scanner/spatial/feng_shui_cache.py:148 | the feature ids of the table, in order |
| FengShuiCache.NextRowId | src/scanner/spatial/feng_shui_cache.py:161 | each added row gets an id larger than any in the table |
| FengShuiCache.AreaRunNew | src/scanner/spatial/feng_shui_cache.py:142-162 | a completed area run adds only rows of its type whose feature ids are new and distinct |
| FengShuiCache.CommitUnique | src/scanner/spatial/feng_shui_cache.py:163 | committing new rows keeps feature ids unique and keeps the existing rows as a prefix |
| FengShuiCache.PopulateAreasKeepsTable | src/scanner/spatial/feng_shui_cache.py:108-171 | populating PUZ1 or water keeps the existing rows, keeps ids unique and adds only rows of that type with new ids |
| FengShuiCache.PopulateAreasRun | src/scanner/spatial/feng_shui_cache.py:140-164 | the loop's table and count are those of the specification; the count is the rows added |
| FengShuiCache.AbortedStaysAborted | src/scanner/spatial/feng_shui_cache.py:140-171 | once a feature raises, the whole session is rolled back whatever follows |
| FengShuiCache.RoadRunPairs | src/scanner/spatial/feng_shui_cache.py:200-242 | every new line-string road adds two ROAD_NODE rows, its start and its end |
| FengShuiCache.PopulateRoadsRun | src/scanner/spatial/feng_shui_cache.py:198-248 | the loop's table and count are those of the specification; the count is the rows added |
| FengShuiCache.RoadAbortedStaysAborted | src/scanner/spatial/feng_shui_cache.py:198-251 | once a road raises, the run adds nothing whatever follows |
| Geometry.NearestRoad | src/scanner/spatial/geometry.py:184-188 | the distance from an edge's midpoint to the nearest road, none without roads |
| Geometry.BestEdge | src/scanner/spatial/geometry.py:173-197 | the frontage index is -1 or an edge of the ring |
| Geometry.BestEdgeSpec | src/scanner/spatial/geometry.py:173-197 | -1 (with length 0 and distance 999) iff no edge is within 20 m of a road; otherwise the first longest such edge, its length and its road distance |
| Geometry.FindFrontageEdge | src/scanner/spatial/geometry.py:128-197 | the edge loop returns the frontage of the specification |
| Geometry.NearestDistance | src/scanner/spatial/geometry.py:184-188 | the road loop returns the nearest distance of the specification |
| Geometry.FrontageZeroIffNone | src/scanner/spatial/geometry.py:200-207 | the length is 0 iff the note says no frontage, which happens iff no polygon, no roads or no edge within 20 m; a positive length is the longest qualifying edge |
| Geometry.CalculateFrontage | src/scanner/spatial/geometry.py:200-207 | calculate_frontage: the length of the frontage edge and its note; FrontageZeroIffNone characterises both |
| Geometry.MinOf | src/scanner/spatial/geometry.py:262 | the lowest contour elevation, one of them |
| Geometry.MaxOf | src/scanner/spatial/geometry.py:263 | the highest contour elevation, one of them |
| Geometry.AverageWithinExtremes | src/scanner/spatial/geometry.py:264 | the average elevation lies between the lowest and the highest |
| Geometry.SlopeBounds | src/scanner/spatial/geometry.py:210-285 | the slope is never negative; no elevations gives (0, 0, "No contour data found"); a range note has rise = max - min with both among the elevations and the average between them |
| Geometry.SlopeAndElevation | src/scanner/spatial/geometry.py:210-285 | calculate_slope_and_elevation from the contour elevations; SlopeBounds states its cases |
| Geometry.SlopeNonNegative | src/scanner/spatial/geometry.py:283 | a non-negative rise over a positive run gives a non-negative slope |
| Geometry.Mod360 | src/scanner/spatial/geometry.py:348 | Python's angle % 360: in [0, 360) and differing from the angle by whole turns |
| Geometry.CompassLabelSector | src/scanner/spatial/geometry.py:350-374 | each of the eight labels covers exactly its 45-degree sector centred on its bearing, North wrapping round 0 |
| Geometry.OrientationBounds | src/scanner/spatial/geometry.py:288-376 | the bearing is in [0, 360); with a parcel and a frontage it is the inward angle mod 360 and the label one of the eight points |
| Geometry.CalculateOrientation | src/scanner/spatial/geometry.py:288-376 | calculate_orientation, the inward bearing and its compass label; OrientationBounds and CompassLabelSector state them |
| LdrzChecks.AnyPrefix | src/scanner/spatial/ldrz_checks.py:45 | true iff the code starts with one of the listed prefixes |
| LdrzChecks.IsLdrzZoneTwoPrefixes | src/scanner/spatial/ldrz_checks.py:24-45 | a zone is LDRZ iff its code is non-empty and, upper-cased and stripped, starts with LDRZ or LOW DENSITY RESIDENTIAL (the other three prefixes add nothing) |
| LdrzChecks.MinLotSize | src/scanner/spatial/ldrz_checks.py:48-60 | 2000 m2 iff sewered, else 4000 m2 |
| LdrzChecks.LookupOverlay | src/scanner/spatial/ldrz_checks.py:68-83 | a base code is restrictive iff it is a key of the table, and then gives that entry's name and risk |
| LdrzChecks.BucketCounts | src/scanner/spatial/ldrz_checks.py:118-136 | each risk list holds one entry per overlay of that risk, notes are written for high and medium only, and high entries are high-risk codes |
| LdrzChecks.AssessmentFlags | src/scanner/spatial/ldrz_checks.py:138-139 | subdivision is possible iff no high-risk overlay; restrictions iff any restrictive overlay |
| LdrzChecks.AssessOverlaysForSubdivision | src/scanner/spatial/ldrz_checks.py:98-148 | the overlay loop produces the bucketed assessment of the specification |
| LdrzChecks.EstimateSewerage | src/scanner/spatial/ldrz_checks.py:196-252 | verification is always required; the minimum lot follows the sewer estimate; an unknown estimate is low confidence with 4000 m2; an estimate exists iff the suburb is known as sewered or unsewered |
| LdrzChecks.SetbackRanges | src/scanner/spatial/ldrz_checks.py:260-285 | the setback tier is the first voltage tier at or above the voltage, the 500 kV tier beyond it |
| LdrzChecks.SetbackMonotone | src/scanner/spatial/ldrz_checks.py:260-285 | a higher voltage never has a narrower easement or a smaller setback |
| LdrzChecks.TransmissionImpactCases | src/scanner/spatial/ldrz_checks.py:288-340 | critical iff within half the easement width, with 100 m of easement unusable, usable area clamped at 0 and blocking iff under 4000 m2; only a critical impact can block; none iff beyond the easement and 100 m |
| LdrzChecks.LotPotential | src/scanner/spatial/ldrz_checks.py:416-438 | subdividable iff the land is at least twice the minimum lot; then the floor of land over lot size, at least 2; otherwise 1 |
| LdrzChecks.FloorLots | src/scanner/spatial/ldrz_checks.py:417 | the floor division gives at least two lots that fit, and one more would not |
| LdrzChecks.OverlayWarnings | src/scanner/spatial/ldrz_checks.py:443-444 | one warning per overlay note, in order |
| LdrzChecks.LdrzFeasibleIff | src/scanner/spatial/ldrz_checks.py:463-471 | feasible iff the first zone is LDRZ, the land is twice the minimum lot, no high-risk overlay and no blocking transmission line |
| LdrzChecks.LdrzFeasibleLots | src/scanner/spatial/ldrz_checks.py:409-438 | the minimum lot follows the sewerage estimate; feasible implies subdividable; the lot count fits the land |
| LdrzChecks.LdrzFirstEntries | src/scanner/spatial/ldrz_checks.py:400-480 | not LDRZ iff the first reason says so; the first next step is the sewerage check; the last is the council pre-application iff feasible |
| LdrzChecks.IsLdrzZone | src/scanner/spatial/ldrz_checks.py:33-45 | is_ldrz_zone, prefix test on the upper-cased, stripped code; IsLdrzZoneTwoPrefixes characterises it |
| LdrzChecks.AssessTransmissionImpact | src/scanner/spatial/ldrz_checks.py:288-340 | assess_transmission_impact; TransmissionImpactCases states its severity, usable area and blocking |
| LdrzChecks.AssessLdrzSubdivision | src/scanner/spatial/ldrz_checks.py:377-496 | assess_ldrz_subdivision; LdrzFeasibleIff, LdrzFeasibleLots and LdrzFirstEntries state its verdict, lots and messages |
| LdrzStrategy.Slice | src/scanner/feasibility/ldrz_strategy.py:44 | the taxable part of a bracket is never negative nor wider than the bracket |
| LdrzStrategy.StampDutyRatesAscending | src/scanner/feasibility/ldrz_strategy.py:19-25 | the bracket thresholds rise strictly and only the last bracket is open-ended |
| LdrzStrategy.DutyOverZero | src/scanner/feasibility/ldrz_strategy.py:41-47 | brackets above the price add no duty |
| LdrzStrategy.DutyOverMonotone | src/scanner/feasibility/ldrz_strategy.py:41-47 | the duty over brackets is non-negative and never falls as the price rises |
| LdrzStrategy.SliceMonotone | src/scanner/feasibility/ldrz_strategy.py:44 | a higher price never has a smaller taxable part of a bracket |
| LdrzStrategy.StampDutyMonotone | src/scanner/feasibility/ldrz_strategy.py:28-49 | no duty on a zero price; duty is non-negative and monotone in the price |
| LdrzStrategy.StampDutyMiddleBracket | src/scanner/feasibility/ldrz_strategy.py:19-49 | between 130,000 and 960,000 the duty is 350 + 2,520 + 5% of the excess over 130,000 |
| LdrzStrategy.CalculateStampDuty | src/scanner/feasibility/ldrz_strategy.py:28-49 | the bracket loop computes the marginal duty of the specification |
| LdrzStrategy.DutyLoop | src/scanner/feasibility/ldrz_strategy.py:37-49 | the loop over ascending brackets, stopping when nothing remains, sums the duty of every bracket |
| LdrzStrategy.DutyStep | src/scanner/feasibility/ldrz_strategy.py:42-47 | one iteration taxes the bracket's slice and moves the threshold on, keeping the rest of the sum |
| LdrzStrategy.LookupRate | src/scanner/feasibility/ldrz_strategy.py:133-150 | a rate found is the one listed for the suburb; none iff the suburb is not listed |
| LdrzStrategy.LotRatePrecedence | src/scanner/feasibility/ldrz_strategy.py:147-156 | a listed suburb's rate wins; otherwise 1.25 times a truthy original land rate, else 500 |
| LdrzStrategy.LookupFirst | src/scanner/feasibility/ldrz_strategy.py:133-150 | with distinct keys, a listed suburb gets exactly its rate |
| LdrzStrategy.NumLots | src/scanner/feasibility/ldrz_strategy.py:187-192 | at least one lot; two or more iff the land holds two minimum lots, and then as many whole lots as fit |
| LdrzStrategy.FloorBounds | src/scanner/feasibility/ldrz_strategy.py:188 | the floor division fits that many lots and not one more |
| LdrzStrategy.ViabilityNotesAsWrittenSilent | src/scanner/feasibility/ldrz_strategy.py:267-273 | as written a 20% margin with exactly 100,000 profit is not viable yet gets no note saying why |
| LdrzStrategy.ViabilityNotes | src/scanner/feasibility/ldrz_strategy.py:267-273 | no note iff viable; a margin note iff the margin is under 15%; a profit note iff the profit is at most 100,000 |
| LdrzStrategy.AssembleFacts | src/scanner/feasibility/ldrz_strategy.py:194-303 | GST is non-negative and zero iff no gain over the price; GDV is price per lot times lots; net profit is GDV less total costs; the margin is net over total; viable iff margin >= 15% and profit > 100,000, and a non-viable result carries a note saying why |
| LdrzStrategy.LdrzFeasibilityLots | src/scanner/feasibility/ldrz_strategy.py:161-303 | zero land or a zero holding period raises (division by zero); otherwise 2000 or 4000 m2 lots by sewerage, the lot count of NumLots, a "cannot subdivide" note iff one lot, and the stamp duty of the bracket rule |
| LdrzStrategy.CalculateLdrzFeasibility | src/scanner/feasibility/ldrz_strategy.py:161-303 | calculate_ldrz_feasibility: division by zero on zero land or holding period, else the assembled result; LdrzFeasibilityLots and AssembleFacts state its fields |
| LdrzStrategy.StampDuty | src/scanner/feasibility/ldrz_strategy.py:28-49 | the marginal stamp duty over the bracket table; StampDutyMonotone and StampDutyMiddleBracket state its value, CalculateStampDuty computes it by the loop |
| LdrzStrategy.EstimateLotValue | src/scanner/feasibility/ldrz_strategy.py:115-158 | estimate_lot_value: lot size times the rate of LotRatePrecedence (listed suburb, else 1.25 times the original land rate, else 500) |
| Strategies.ApplicabilityRules | src/scanner/feasibility/strategies.py:127-252 | land banking is always applicable; dual occupancy iff >= 500 m2, >= 15 m frontage and not NRZ; multi-dwelling strategies are refused on slopes over 12%, with the slope reason when the base rule held; the slope matters to no other strategy but NDIS SDA |
| Strategies.CheckStrategyApplicability | src/scanner/feasibility/strategies.py:127-247 | check_strategy_applicability: the strategy's rule on the digit-free zone, overridden by the slope rule for multi-dwelling strategies; ApplicabilityRules states the rules |
| Strategies.CalculateStrategy | src/scanner/feasibility/strategies.py:403-632 | calculate_strategy: an inapplicable strategy gives the zeroed result, an applicable one its works finished into the profit metrics; NotApplicableIsZero, ApplicableKeepsWorks and FinishIdentities state its result |
| Strategies.Finish | src/scanner/feasibility/strategies.py:581-632 | the common costs and profit metrics of an applicable strategy; FinishIdentities states the identities they satisfy |
| Strategies.NbRate | src/scanner/feasibility/strategies.py:277-280 | the table's rate for the category and level, else 2525 |
| Strategies.MarginSchemeGst | src/scanner/feasibility/strategies.py:608 | GST is an eleventh of the gain over the land cost, zero iff there is no gain |
| Strategies.NotApplicableIsZero | src/scanner/feasibility/strategies.py:421-459 | the applicability verdict and reason are reported; an inapplicable strategy keeps the zeroed result with the land price as cost and TDC |
| Strategies.FinishIdentities | src/scanner/feasibility/strategies.py:581-632 | TDC is the sum of the nine cost lines; profit is GDV less TDC less margin-scheme GST; margin is profit over TDC; RLV is GDV/1.2 less the non-land costs; fees and contingency are 10% and 7.5% of construction; selling is 1.5% of GDV |
| Strategies.ApplicableKeepsWorks | src/scanner/feasibility/strategies.py:462-578 | an applicable strategy keeps the dwellings and notes of its own branch |
| Strategies.Townhouse4PlusYield | src/scanner/feasibility/strategies.py:501-503 | 4+ townhouses yield between 4 and 6 dwellings |
| Strategies.SellLotsYield | src/scanner/feasibility/strategies.py:516-529 | selling lots notes one lot count, at least 3 |
| Strategies.ApartmentYield | src/scanner/feasibility/strategies.py:532-533 | a 3-storey block yields at least 9 apartments, a 4+ storey block at least 30 |
| Strategies.RoomingHouseYield | src/scanner/feasibility/strategies.py:543-545 | a rooming house yields at least 12 rooms |
| Strategies.ViableStrategies | src/scanner/feasibility/strategies.py:113-119 | exactly the applicable strategies whose margin meets the minimum |
| Strategies.BestBy | src/scanner/feasibility/strategies.py:674-676 | the first strategy of greatest key, as max does |
| Strategies.Profitable | src/scanner/feasibility/strategies.py:671 | exactly the applicable strategies with a positive profit |
| Strategies.BestIsMax | src/scanner/feasibility/strategies.py:674-676 | the best of a non-empty list is in it and no member has a greater key |
| Strategies.CalculateEach | src/scanner/feasibility/strategies.py:656-668 | the loop's results are the strategies' calculations, one per strategy, in order |
| Strategies.CalculateAllPointwise | src/scanner/feasibility/strategies.py:656-668 | the i-th result is calculate_strategy of the i-th strategy |
| Strategies.EvaluateAllStrategies | src/scanner/feasibility/strategies.py:635-678 | every strategy is evaluated in order; each best is set iff some strategy is profitable, and is then a profitable one with the greatest profit, margin or RLV |
| ScannerConfig.FirstKeyEqual | src/scanner/config.py:109-110 | the zone configured under exactly this code, if any |
| ScannerConfig.FirstKeyPrefixed | src/scanner/config.py:113-116 | the first configured zone, in file order, whose code starts with the base code |
| ScannerConfig.ZoneParamsFallback | src/scanner/config.py:106-119 | an exact match wins; else the first zone starting with the digit-free base code; else the defaults; an all-digit code takes the first zone |
| ScannerConfig.GetZoneParams | src/scanner/config.py:106-119 | get_zone_params: exact code, then first prefix match, then defaults; ZoneParamsFallback states the order |
| ScannerConfig.GetConstraintSeverity | src/scanner/config.py:121-129 | the severity of the exact overlay code, else of its digit-free base code, else 0 |
| PlanningRules.CalculateMaxFootprint | src/scanner/planning/rules.py:12-38 | the footprint is the smaller of the coverage limit and the land outside a non-zero garden minimum, with one constraint line per limit applied |
| PlanningRules.CheckYieldLimits | src/scanner/planning/rules.py:41-44 | the dwelling cap of the exact zone, else of the first base-code zone, else none |
| FeasibilityModel.YieldBounds | src/scanner/feasibility/model.py:213-250 | no or under-300 m2 land gives (1, 1, 1, 0.5); low and base are at least 1; confidence is 0.7 or 0.5; a zone cap bounds base and high, and low <= base <= high whenever the cap is absent or at least 1 |
| FeasibilityModel.EstimateYield | src/scanner/feasibility/model.py:213-250 | estimate_yield; YieldBounds states its bounds |
| FeasibilityModel.DualOccSize | src/scanner/feasibility/model.py:120-139 | each dwelling is the smaller of 220 m2 and 0.9 times the ground floor (the footprint limit, or 60% of the land without one); the size-constrained note is never produced |
| FeasibilityModel.SimpleFeasibilityFacts | src/scanner/feasibility/model.py:101-187 | dual occupancy is downgraded to single iff the zone caps dwellings below 2, with a note saying so; dual occupancy sells for 2.4M, single for 1.2 x land; margin is net profit over TDC, with GST an eleventh of the gain; viable iff the margin is at least 20%; the last two notes name the strategy and the margin |
| FeasibilityModel.CalculateSimpleFeasibility | src/scanner/feasibility/model.py:101-187 | calculate_simple_feasibility; SimpleFeasibilityFacts states its downgrade, revenue, margin and verdict |
| Classifiers.LeadingDigits | src/scanner/market/classifiers.py:46-48 | the digits `\d+` matches after an address prefix: a maximal run of digits at the start of the text |
| Classifiers.PropertyTypeRules | src/scanner/market/classifiers.py:15-62 | a listed type naming a townhouse is a Townhouse and one naming a unit (and no townhouse word) a Unit; without a listed-type or address class, land over 2000 sqm is Acreage and under 150 sqm a Unit; Unknown only when the land is not over 200 sqm and the listed type does not mention a house |
| Classifiers.ClassifyPropertyType | src/scanner/market/classifiers.py:15-62 | classify_property_type: listed type, then address, then land area; PropertyTypeRules states its rules |
| Classifiers.TierIndex | src/scanner/market/classifiers.py:191-193 | the position of a tier in the order Basic, Standard, Premium, Luxury, at most 3 |
| Classifiers.TierAt | src/scanner/market/classifiers.py:191-196 | the tier at an index of that order, inverse to TierIndex |
| Classifiers.CountIn | src/scanner/market/classifiers.py:164-167 | the number of a tier's keywords found in the description: at most the number of keywords, and zero exactly when none is found |
| Classifiers.ScoresOf | src/scanner/market/classifiers.py:159-167 | one keyword count per quality tier, in table order |
| Classifiers.ScoreKeywords | src/scanner/market/classifiers.py:159-167 | the keyword loop computes exactly ScoresOf |
| Classifiers.FirstMax | src/scanner/market/classifiers.py:184-185 | `max` with a key: an index of the largest score, and the first such (every earlier score is smaller) |
| Classifiers.PriceQuality | src/scanner/market/classifiers.py:169-180 | a price tier exists exactly with a non-zero price and a building area over 50 sqm; by price per sqm it is Luxury exactly at 8000 or more, Premium exactly from 5500 to under 8000, Standard exactly from 3500 to under 5500, and Basic exactly under 3500 |
| Classifiers.Blend | src/scanner/market/classifiers.py:189-196 | the half-even rounded average of two tiers lies between them, and is the tier itself when both agree |
| Classifiers.QualityRules | src/scanner/market/classifiers.py:182-202 | with i the top-scoring tier (the first in table order on a tie): three or more hits give tier i; one or two hits with a price tier give the tier whose index is the half-to-even rounded average of the two indices; one or two hits without a price tier give tier i; no hit gives the price tier, else Standard |
| Classifiers.QualityBlendBetween | src/scanner/market/classifiers.py:186-196 | the blend of one or two hits with a price tier lies between the top hit tier and the price tier |
| Classifiers.PriceOnlyQuality | src/scanner/market/classifiers.py:169-202 | the finish quality when there is no description equals the general decision with all scores zero |
| Classifiers.ClassifyFinishQuality | src/scanner/market/classifiers.py:150-202 | classify_finish_quality scores the lower-cased description only when it is non-empty and then decides by the rules of QualityRules |
| Classifiers.FirstYear | src/scanner/market/classifiers.py:285 | `re.search(r"\d{4}")`: the value read is at most 9999, and text shorter than four characters has none; FirstYearSpec states which run it reads |
| Classifiers.FirstYearSpec | src/scanner/market/classifiers.py:285 | the search finds nothing exactly when no four digits stand together; otherwise it reads the leftmost such run |
| Classifiers.AgeFactor | src/scanner/market/classifiers.py:286-297 | the age bands (counted from 2026) give a factor between 0.3 and 1.0 |
| Classifiers.AgeFactorMonotone | src/scanner/market/classifiers.py:275-297 | newer buildings retain more value: a later year never gets a smaller factor |
| Classifiers.LookupEra | src/scanner/market/classifiers.py:302-311 | a dictionary `get`: a value found belongs to the entry with that era, and none is found only when no entry has it |
| Classifiers.EraTableUnreachable | src/scanner/market/classifiers.py:284-311 | as written, every era key holds four digits so the year path answers first: "1970-1990" gives 0.3 where the era table says 0.55 |
| Classifiers.DepreciationFactorAsWritten | src/scanner/market/classifiers.py:274-311 | get_era_depreciation_factor as written, year search first; EraTableUnreachable shows the era table is never reached |
| Classifiers.DepreciationFactor | src/scanner/market/classifiers.py:274-311 | corrected: 0.6 without a value; an era key takes its table factor; otherwise a year gives its age factor and anything else 0.5; always between 0.25 and 1.0 |
| Classifiers.RenovationStatusIff | src/scanner/market/classifiers.py:343-361 | Renovated exactly when renovated keywords outnumber unrenovated ones, Unrenovated exactly for the converse, Unknown exactly for no description or a tie (so with no keyword at all) |
| Classifiers.ClassifyRenovationStatus | src/scanner/market/classifiers.py:343-361 | classify_renovation_status by keyword counts; RenovationStatusIff states each outcome |
| Classifiers.ConstructionRate | src/scanner/market/classifiers.py:369-458 | the building rate per sqm is 5500 for Luxury, 3800 for Premium, 2000 for Basic, and 2800 for Standard or any other tier name |
| Classifiers.DepreciatedValue | src/scanner/market/classifiers.py:455-470 | the depreciated, optionally renovated, rounded value lies between a quarter of the replacement cost and the cost (times 1.2 when renovated), within rounding |
| Classifiers.EstimateImprovementValue | src/scanner/market/classifiers.py:439-470 | a value exists exactly for a building area of 50 sqm or more, and lies between a quarter of area times rate and area times rate (times 1.2 when renovated), within rounding |
| Classifiers.ResidualSplit | src/scanner/market/classifiers.py:499-506 | land is at least 30% of the price and at least price less improvements; land and improvements add up to the price; improvements are never raised; with enough residual the split is price less improvements; under 30% residual the land is exactly 30% of the price and the improvements the other 70% |
| Classifiers.EstimateLandValue | src/scanner/market/classifiers.py:473-513 | insufficient data exactly when there is no improvement value; a zero price with one divides by zero; otherwise land and improvements are the rounded residual split |
| Intel.QualityValue | src/scanner/market/intel.py:137-139 | the tier number of a quality name, from 0 to 3, with an unknown name counted as Standard (1) |
| Intel.LandFactor | src/scanner/market/intel.py:93-95 | the factor lies between 0.7 and 1.3: it is the land-size ratio itself when that lies in the range, 0.7 below it and 1.3 above it |
| Intel.LandAdjustmentRule | src/scanner/market/intel.py:92-105 | at most one land adjustment, with a factor in [0.7, 1.3] more than 2% away from 1; the clamped ratio is applied exactly when a positive comparable land area gives a ratio over 1.02 or under 0.98, and nothing without one |
| Intel.TypeAdjustmentRule | src/scanner/market/intel.py:107-129 | a type adjustment happens exactly for the four unequal pairs of the table, with their factors 0.85, 1.15, 1.15 and 0.90; equal types and pairs not in the table leave the price alone |
| Intel.QualityAdjustmentRule | src/scanner/market/intel.py:131-153 | no quality adjustment exactly when the tier numbers are equal; otherwise one factor of 1 plus 10% per tier of difference, between 0.7 and 1.3 |
| Intel.Apply | src/scanner/market/intel.py:98-105 | appending an adjustment keeps the multiplier equal to the product of the adjustments' factors |
| Intel.AdjustForLand | src/scanner/market/intel.py:91-105 | the land step appends LandAdjustment and keeps the multiplier the product of the factors |
| Intel.AdjustForType | src/scanner/market/intel.py:107-129 | the type step appends TypeAdjustment and keeps the multiplier the product of the factors |
| Intel.AdjustForQuality | src/scanner/market/intel.py:131-153 | the quality step appends QualityAdjustment and keeps the multiplier the product of the factors |
| Intel.AdjustPrice | src/scanner/market/intel.py:88-160 | the adjustments are land, type then quality; the multiplier is their product and the adjusted price is the rounded sold price times it |
| Intel.CalculateAdjustedPrice | src/scanner/market/intel.py:73-160 | calculate_adjusted_price classifies the comparable's type, takes its stored quality or the price-only tier, and adjusts as AdjustPrice |
| Intel.SelectComps | src/scanner/market/intel.py:188-222 | the search falls back from land-matched to type-only to suburb-only: each method is reported exactly when the searches before it found nothing and its own found sales, and no data exactly when none did |
| Intel.ConfidenceOf | src/scanner/market/intel.py:249-256 | high exactly for land-matched with 8 or more sales; medium exactly for land-matched with 4 to 7, or any other method with 10 or more; otherwise low |
| Intel.AdjustAll | src/scanner/market/intel.py:224-239 | the loop computes the adjusted price of every comparable, in order |
| Intel.EstimatePurchasePriceAdvanced | src/scanner/market/intel.py:165-303 | no estimate exactly when every search is empty; otherwise the estimate is the adjusted prices' sorted[n // 2], the raw estimate the same of the sold prices, with the count, method, confidence and range of the chosen sales |
| Intel.RangeOrdered | src/scanner/market/intel.py:239-303 | the median is sorted[n // 2] and one of the prices; the range is ordered min <= p25 <= median <= p75 <= max and holds every adjusted price; p25 and p75 are sorted[n // 4] and sorted[int(0.75 n)] from four prices up, and fall back to min and max below |
| WeeklyRefresh.LoadFoldDistinct | scripts/weekly_refresh_ldrz.py:31-43 | the keys seen are exactly the kept suburbs' lower-cased names, and no two kept suburbs share one: each suburb is listed once, ignoring case |
| WeeklyRefresh.LoadFoldCovers | scripts/weekly_refresh_ldrz.py:33-41 | every non-blank, non-comment line's suburb is among those kept, ignoring case |
| WeeklyRefresh.LoadFoldFirstSpelling | scripts/weekly_refresh_ldrz.py:33-41 | every kept suburb is a stripped wanted line, and no earlier wanted line has its key: the first spelling wins |
| WeeklyRefresh.LoadSuburbs | scripts/weekly_refresh_ldrz.py:27-43 | load_suburbs gives nothing for a missing file, and otherwise the suburb list of LoadFold |
| WeeklyRefresh.BatchWraps | scripts/weekly_refresh_ldrz.py:60-73 | up to a whole lap the batch is exactly batch-size suburbs read cyclically from index mod n, and the saved index is where it stops, mod n |
| WeeklyRefresh.RefreshState.SelectBatch | scripts/weekly_refresh_ldrz.py:60-73 | select_batch leaves the state alone for an empty list; otherwise it returns the batch from the saved index (0 when absent) and saves the index after it |
| WeeklyRefresh.PriceEstimate | scripts/weekly_refresh_ldrz.py:102-107 | the price guide when it is non-zero, else the midpoint of a non-zero low and high, else nothing, and nothing exactly when neither is available |
| WeeklyRefresh.SewerStatusCases | scripts/weekly_refresh_ldrz.py:110-117 | a sewer estimate decides when present; only without one does a note mentioning "partial" in any case give the partial label, and otherwise the label is unknown |
| WeeklyRefresh.SewerStatus | scripts/weekly_refresh_ldrz.py:110-117 | _sewer_status; SewerStatusCases states its labels |
| PriceScan.RunEnd | src/scanner/ingest/browser_agent.py:215 | a greedy character-class run: every character up to the end is in the class and the one at the end is not |
| PriceScan.MatchAt | src/scanner/ingest/browser_agent.py:215-232 | a match of a price pattern at a position starts with a digit or dot and captures non-empty digit-and-dot groups, as many as the pattern has |
| PriceScan.Search | src/scanner/ingest/browser_agent.py:215-232 | `re.search` captures groups of the pattern's shape |
| PriceScan.FirstHit | src/scanner/ingest/browser_agent.py:215-232 | the first position in a range where a test holds: it holds there and at no earlier position, and none is returned only when it holds nowhere |
| PriceScan.SearchIsFirstMatch | src/scanner/ingest/browser_agent.py:215-232 | `re.search` returns the match at the first position where the pattern matches, and nothing when it matches nowhere |
| PriceScan.SearchFindsMatch | src/scanner/ingest/browser_agent.py:215-232 | the search finds nothing exactly when the pattern matches at no position |
| PriceScan.NoNumberNoMatch | src/scanner/ingest/browser_agent.py:215-232 | text without a digit or a dot holds no match of any price pattern |
| PriceScan.CleanMembers | src/scanner/ingest/browser_agent.py:212 | the cleaned text has no "," and no "$", and holds exactly the other characters of the lower-cased text |
| PriceScan.WithoutMembers | src/scanner/ingest/browser_agent.py:212 | `replace(c, "")` keeps exactly the characters other than c and never lengthens the text |
| PriceScan.CleanKeepsNumbers | src/scanner/ingest/browser_agent.py:212 | cleaning creates no digit or dot |
| PriceScan.ParseDecimal | src/scanner/ingest/browser_agent.py:217-218 | `float` on a digit-and-dot string succeeds exactly when it has a digit and at most one dot, and gives a value that is never negative |
| PriceScan.WholeNumber | src/scanner/ingest/browser_agent.py:234 | `float` on a run of digits is the digits' whole-number value |
| BrowserAgent.ScaleMillions | src/scanner/ingest/browser_agent.py:219-222 | scaling a range bound never lowers it, and the result reaches 100 exactly from 0.0001 up |
| BrowserAgent.ParsePrice | src/scanner/ingest/browser_agent.py:207-237 | parse_price: empty text has no price; otherwise the cleaned text's first matching pattern decides (range, number then "m", six or more digits, none); its values are stated by RangeValue, MillionsValue, DigitsValuePrice and ParsePriceFacts |
| BrowserAgent.RangeValue | src/scanner/ingest/browser_agent.py:212-223 | "a m - b m" gives low a and high b, each times 1,000,000 when under 100, and the guide is their midpoint |
| BrowserAgent.RangeGuideValue | src/scanner/ingest/browser_agent.py:216-223 | two readable captured bounds give the scaled low and high and their midpoint |
| BrowserAgent.MillionsValue | src/scanner/ingest/browser_agent.py:212-229 | a number followed by "m" is low, high and guide, all that number times 1,000,000 |
| BrowserAgent.SingleGuideValue | src/scanner/ingest/browser_agent.py:225-235 | one readable captured number is low, high and guide, scaled to millions on the "m" path only |
| BrowserAgent.DigitsValuePrice | src/scanner/ingest/browser_agent.py:212-235 | six or more plain digits are low, high and guide, all the digits' decimal value |
| BrowserAgent.ParsePriceFacts | src/scanner/ingest/browser_agent.py:207-237 | empty or number-free text has no price; a price found has non-negative low and high with the guide their midpoint between them; without a range low, high and guide agree |
| BrowserAgent.ArrayText | src/scanner/ingest/browser_agent.py:149 | `\[[\s\S]*\]` finds text from a "[" to a "]" exactly when a "]" follows a "[" |
| BrowserAgent.FirstIndex | src/scanner/ingest/browser_agent.py:149 | the first occurrence of a character |
| BrowserAgent.LastIndex | src/scanner/ingest/browser_agent.py:149 | the last occurrence of a character, none exactly when it is absent |
| BrowserAgent.ListingIdAt | src/scanner/ingest/browser_agent.py:181-183 | a listing id found is a non-empty run of digits |
| BrowserAgent.FirstIdMatch | src/scanner/ingest/browser_agent.py:181-183 | the leftmost position where `/(\d+)(?:\?\|$)` matches: a "/", digits, then a "?", the end or a final newline; no earlier position matches |
| BrowserAgent.ListingIdNone | src/scanner/ingest/browser_agent.py:181-183 | no id exactly when the pattern matches nowhere in the URL |
| BrowserAgent.ListingIdLeftmost | src/scanner/ingest/browser_agent.py:181-183 | the id is the digit run of the leftmost match, and there is none without a match |
| BrowserAgent.Normalise | src/scanner/ingest/browser_agent.py:178-197 | a normalised listing carries the suburb, the source tag and the scrape time given, and an id of digits only |
| BrowserAgent.KeptFieldsMembers | src/scanner/ingest/browser_agent.py:172-176 | the entries kept are exactly the objects with an address or a URL, never more than the entries |
| BrowserAgent.ParseBrowserAgentResponse | src/scanner/ingest/browser_agent.py:136-204 | the loop builds exactly the normalised kept entries of the reply, in order |
| BrowserAgent.ListingsFacts | src/scanner/ingest/browser_agent.py:148-200 | every listing carries the suburb and source; no array text, or one that does not decode to a list, gives no listings |
| BrowserAgent.NullUrlRaises | src/scanner/ingest/browser_agent.py:175-183 | as written, an entry with an address and `"url": null` makes the listings raise, while the corrected reading keeps it with an empty URL |
| BrowserAgent.AsWrittenAgrees | src/scanner/ingest/browser_agent.py:170-200 | where every URL present is text, the listings as written never raise and equal the corrected ones |
| BrowserAgent.ListingsAsWritten | src/scanner/ingest/browser_agent.py:170-200 | the listing loop as written, raising TypeError at a kept entry whose "url" is not text; NullUrlRaises and AsWrittenAgrees state when it raises and when it agrees with the corrected loop |
| MarketUtils.Price | src/scanner/market/utils.py:17-24 | a price exists exactly when the pattern matches, and a price read is present and never negative |
| MarketUtils.ParseSoldPriceFacts | src/scanner/market/utils.py:5-26 | empty or number-free text has no price; a price is never negative; without an "m" the corrected reading equals the one written |
| MarketUtils.NoMNoMillions | src/scanner/market/utils.py:15-19 | without an "m" no number is followed by "m", so the millions path is never taken |
| MarketUtils.MonthInflatesPrice | src/scanner/market/utils.py:16-24 | as written, five or more digits followed by words with an "m" (a month) are read as millions; corrected, they are the digits' value |
| MarketUtils.ParseSoldPriceAsWritten | src/scanner/market/utils.py:5-26 | parse_sold_price as written: any "m" in the cleaned text reads the first number as millions, else a run of five or more digits; MonthInflatesPrice exhibits the inflated price |
| MarketUtils.ParseSoldPrice | src/scanner/market/utils.py:5-26 | the corrected parse_sold_price, millions only for a number followed by "m"; ParseSoldPriceFacts states no price for empty or number-free text, a non-negative price, and agreement with the written reading without an "m" |
| Numeric.RoundHalfEven | src/scanner/market/classifiers.py:470 | Python `round`: the nearest integer, and the even one on a tie |
| Numeric.TruncToZero | src/scanner/feasibility/model.py:240-242 | Python `int` on a float: truncation toward zero |
| Sorting.SortBy | src/scanner/market/intel.py:240-241 | `list.sort`: a permutation of the list |
| Sorting.SortBySorted | src/scanner/market/intel.py:240-241 | the sorted list is in ascending order of the key |
| Sorting.SortByStable | src/scanner/market/intel.py:240-241 | the sort is stable: the elements of any one key come out in their input order |
| Sorting.InsertByPermutes | src/scanner/market/intel.py:240-241 | one insertion step adds exactly the element inserted |
| Sorting.InsertByWithKey | src/scanner/market/intel.py:240-241 | inserting into a sorted list places the element after every element of equal key |
| Sorting.SortedHeadIsLeast | src/scanner/market/intel.py:240-242 | the first sorted element has the least key of all elements |

## Left out

- HTTP, WFS and XML queries, scraping, geocoding and the database session are not modelled. Their answers are parameters: feature lists, comparable lists, cache rows, or `None` for a failure the source catches.
- Haversine distances, metre-per-degree conversion, shapely containment, distance, area and buffers, and WKT parsing are inputs. Where a geometry must load, whether it loads is an input.
- Floating point is modelled by exact reals. Python `round` is modelled as half-even rounding of the exact value (`Numeric.RoundHalfEven`). `round(x, 1)` and `round(x, 5)` round `x` times 10 or 100000.
- Text is ASCII: `lower()`, `upper()`, `strip()`, `\s` and `\d` are modelled on ASCII characters only.
- Message text (f-strings, number formatting in reasons, warnings, notes and adjustment labels) is a datatype, not text.
- Logging and console output are left out.
- YAML configuration loading is left out. The zone table, constraint severities, the suburb lot-value table and the construction-cost table are parameters.
- The annualised return of the LDRZ feasibility is left out, because it is a fractional power. Its division of 12 by the holding period is kept as an error for a zero period. The power raises too when the total return is exactly -100% and the period is negative, and that error is not modelled.
- `calculate_feasibility` and `run_feasibility` of the feasibility model are left out, because they only read and write database rows around the modelled calculation. The display name of a strategy and the unused overlays parameter are also left out.
- `infer_year_built` and `estimate_construction_cost` of the classifiers are not part of this model.
- FeasibilityModel.DualOccSize: in exact reals the "Size Constrained by Zone Coverage" note never fires (model.py:136-139). The size is at most 0.9 times the footprint, so twice the size over 1.8 never exceeds the footprint. Floating-point rounding might make the source fire it for a few footprints; that is not modelled.
- `get_property_polygon`, `calculate_approx_area_sqm` and the geometry queries behind frontage, slope and orientation are left out. Their measurements are inputs.
- The result order of the spatial index (STRtree) is modelled as table order.
- GisClients.EasementsNear: the raw property bag each easement also carries is not kept, because nothing downstream reads it.
- GisClients.TransmissionLinesNear: the line name and the raw property bag that the source also returns are not kept, because nothing downstream reads them. The query box is modelled by its one promise, that it returns every feature within the radius (SearchRadiusSuffices).
- TransmissionCache.CacheAsWrittenSpec: the count of a run in which a commit failed is not stated, because the final commit raises and the count is never returned. The model goes on counting, as the loop does.
- ZoneCache.LatestFor: SQL leaves the order of rows with equal fetch times open; the model takes the last such row in table order.
- OverlayCache.Upsert: the merge in save_feature is modelled as the intended upsert by feature id. As written the row's primary key is unset, so the merge would insert, and a page that repeats a pfi would fail its commit and end the download. The constructor already raises before the merge (see Findings), so no row reaches it.
- OverlayCache.LoadRows: the kept rows and their geometries are built in locals and stored in the manager after the loop, where the source appends to its own list as it goes. The final state is the same.
- populate_road_endpoints commits every 1000 rows. The model aborts the whole run on a malformed shape and does not model the partial commits.
- WeeklyRefresh.RefreshState.SelectBatch: a negative batch size is not modelled (the size is a `nat`), and neither is a saved index that is not an integer.
- Reading and writing the refresh state file and the suburb file are left out. The suburb file arrives as its lines, or `None` when it does not exist.
- JSON decoding of the browser agent's reply is a parameter, and so is the scrape time. The error-reply branch only prints, so it is modelled as returning no listings.
- Classifiers.EstimateImprovementValue: states when a value exists and bounds it by the replacement cost. It does not state the exact product, which `Classifiers.DepreciatedValue` computes.
- Intel: the comparable summary (the first ten sales and their display fields) and the data-source text are left out.

## Findings

| source | as written | input that shows it | evidently intended | confidence | as-written member | corrected member |
|---|---|---|---|---|---|---|
| src/scanner/spatial/transmission_cache.py:235-246 | `session.merge` gets a `TransmissionLine` whose primary key `id` is unset, so it inserts. `feature_id` is unique, so a refetched line whose id is already cached makes the commit raise. The session is then unusable, because nothing rolls it back, so every later commit raises too and the final one escapes; `ensure_transmission_cache` catches that and reports failure, and the table keeps only the batches committed before the clash | a stale table holding feature id "5", refreshed with a 220 kV line whose `OBJECTID` is "5" | the merge replaces the row with that feature id ("Use merge to handle duplicates") | not executed | TransmissionCache.KnownIdRefreshFails | TransmissionCache.CacheAllSpec |
| src/scanner/spatial/overlay_cache.py:263-278 | save_feature passes `lga`, `min_lon`, `min_lat`, `max_lon` and `max_lat` to `CachedOverlay`, which has none of them. The constructor raises, the error is swallowed, and nothing is saved | a feature with `ZONE_CODE` "HO12" and a polygon | the overlay row is saved | not executed | OverlayCache.SaveFeatureAsWrittenLosesOverlays | OverlayCache.RowOf |
| src/scanner/spatial/overlay_cache.py:114-118 | the skip test of populate reads `CachedOverlay.fetched_at`, which does not exist, and the AttributeError escapes | a non-empty table and `force` false | skip the refresh when the newest row is younger than 30 days | not executed | OverlayCache.SkipTestAsWrittenRaises | OverlayCache.SkipsIffRecentRow |
| src/scanner/feasibility/ldrz_strategy.py:267-273 | the profit note tests `net_profit < 100000`, while viability needs `net_profit > 100000` | margin 20%, net profit exactly 100000 | a non-viable result always says why | not executed | LdrzStrategy.ViabilityNotesAsWrittenSilent | LdrzStrategy.ViabilityNotes |
| src/scanner/market/classifiers.py:284-311 | the four-digit year search runs before the era table, and every era key holds four digits, so the table is never reached | "1970-1990" gives 0.3 | the era table's factor, 0.55 | not executed | Classifiers.EraTableUnreachable | Classifiers.DepreciationFactor |
| src/scanner/ingest/browser_agent.py:175-183 | an entry whose `url` is JSON null passes the address test, then `re.search` on None raises a TypeError that nothing catches | `{"address": "1 Smith St", "url": null}` | the listing is kept with an empty URL and no id | not executed | BrowserAgent.NullUrlRaises | BrowserAgent.ParseBrowserAgentResponse |
| src/scanner/market/utils.py:16-19 | any "m" anywhere in the cleaned text makes the first number millions | "950000 sold in march" gives 950000000000 | only a number followed by "m" is in millions | not executed | MarketUtils.MonthInflatesPrice | MarketUtils.ParseSoldPriceFacts |
