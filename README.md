# AirTraffic Command Center — a Dafny model of its bookkeeping

The AirTraffic Command Center is a small web dashboard for an ADS-B flight
feeder. A Python server polls the feeder, normalises its aircraft records and
caches the result for five seconds. A browser page draws the aircraft on a
Leaflet map, lists them in a sidebar, shows one aircraft in a detail panel and
keeps a few summary statistics. This project models the three pieces of
bookkeeping under that glue and proves what they promise:

- `FlightMap.dfy` models the map's state (`AircraftMap` in `static/js/map.js`) as a class:
  - four tables keyed by the aircraft's hex code: aircraft, markers, last marker positions and flight paths;
  - the altitude filter;
  - the zoom debounce.
  `updateAircraftData`, `updateMap`, `updateFlightPath`, `setFilters`, `updateIconSize` and the zoom handlers are methods, and those whose JavaScript loops keep their loops. Each method is proved against a pure function: `updateMap` and `setFilters` against the reconciliation function `Reconcile`, `updateAircraftData` against `Table`, `ExtendPaths` and `Reconcile`, `updateFlightPath` against `PathStep`, and `updateIconSize` against `Resized`. The zoom handlers state their new state directly. The properties of these functions are proved as lemmas. Highlights:
  - the marker keys lie between the shown and the filtered aircraft;
  - removing a marker cleans up its position and its path;
  - a path is a 100-point FIFO;
  - a second `updateMap` changes nothing;
  - the colour band and the icon-size formula are pure functions.
- `Dashboard.dfy` models the page controller (`static/js/dashboard.js`) as a class `DashboardState` over the map. It holds the selection, the statistics, the sidebar list (a sequence of entries with `hex`, `active` and `visible`), the detail panel and the filter controls. The list rebuild, the search loop, the statistics fold, the detail fallbacks, the click handler, the filter handlers and one refresh are methods. Each is proved against a pure function:
  - `SortByKey` is a stable insertion sort, proved a sorted permutation;
  - `ListFor`, `SearchedUpTo`, `PanelAfterDetail`, `StatsOf` and `Highlight` are the others.
- `Processor.dfy` models `DataProcessor` (`data_processor.py`):
  - the loop of `_process_data`, with its filter on key presence, its defaults, the derived `altitude_difference` and `count`;
  - the five-second cache of `get_aircraft_data`.
- `Wire.dfy` joins the two halves. It models what `/api/aircraft` (`server.py`) serves, as the browser sees it, and proves what that means for the page. For example, the detail panel never fails on data from this server, and an aircraft exactly on the equator or the prime meridian is never drawn.
- `Snapshot.dfy` holds the browser's aircraft record and JavaScript truthiness made explicit:
  - a coordinate is truthy when present and non-zero;
  - a number when non-zero;
  - a string when non-empty.
  `Strings.dfy` holds `trim`, `toLowerCase`/`toUpperCase`, `includes` and the string order used for sorting. `Wrappers.dfy` holds `Option`.

External inputs are parameters:
- the map's current zoom level;
- the "moved more than 0.001 km" test, as the predicate `moved`;
- the server's current time and the feeder's answer;
- the time stamp.

Exceptions the page code can raise are modelled as an `ok` or `threw` result:
- `showAircraftDetail` formats `aircraft.lat.toFixed(4)`, which throws when the stored aircraft has no `lat` or no `lon` (a missing `altitude` would make `toLocaleString()` throw too, but modelled records always carry one; see "## Left out");
- the callers then stop where the JavaScript would stop.

Behaviours of the code that are easy to misread, which the model keeps:
- After a list rebuild with an empty snapshot the selection is left as it was (`UpdateAircraftList`, `ListRebuild`).
- The automatic selection takes the first aircraft of the *whole* sorted snapshot, which may be an aircraft without a position. That aircraft has no list entry, and when it has no `lat` its detail throws. The refresh then stops before the statistics (`UpdateAircraftList`, `OnRefreshData`).
- When an aircraft leaves the filtered set, its path is removed only if it also had a marker. A path of an aircraft that never had a marker stays (`ReconcileCleanup`).
- Changing a filter re-layers every path, and the forced `updateMap` that follows then drops the markers, positions and paths of the aircraft outside the new filter (`SetFilters`, `ReconcileCleanup`).

Behaviours of the code as written that the model proves:
- `needsIconUpdate` is called with the stored record itself, so it is always false there. An existing marker's icon is rebuilt only by a forced update (`IconNeedsUpdateAgainstItself`, `ReconcileIconsOnlyWhenForced`).
- The zoom timer first resizes the icons and then runs a forced `updateMap`. That rebuilds every shown marker's icon at the base size of 24 (`OnZoomTimer`).

## Model

| member | source | states |
|---|---|---|
| Strings.Trim | static/js/dashboard.js:304 | the result of `trim()` is no longer than the input, starts and ends with a non-space, and is empty exactly when the input is all whitespace |
| Strings.TrimCutsWhitespace | static/js/dashboard.js:304 | `trim()` removes leading and trailing whitespace only: the result is a contiguous piece of the input with only whitespace before and after it |
| Strings.ToLower | static/js/dashboard.js:202 | `toLowerCase()` keeps the length and lower-cases every character |
| Strings.ToUpper | static/js/dashboard.js:143 | `toUpperCase()` keeps the length and upper-cases every character |
| Strings.Contains | static/js/dashboard.js:217 | `includes(t)`: `t` occurs at some index as a contiguous piece |
| Strings.ContainsEverySlice | static/js/dashboard.js:217 | a string `includes` every contiguous piece of itself, the empty string and itself among them |
| Strings.StrLe | static/js/dashboard.js:306 | `localeCompare(...) <= 0` as lexicographic code-point order |
| Strings.StrLeTotal | static/js/dashboard.js:306 | the order used for the callsign comparison relates any two strings |
| Strings.StrLeTransitive | static/js/dashboard.js:306 | that order is transitive |
| Strings.StrLeAntisymmetric | static/js/dashboard.js:306 | two strings ordered both ways are equal |
| FlightMap.AltitudeColor | static/js/map.js:394-404 | red exactly below 10000 ft, orange exactly from 10000 to 19999, yellow exactly from 20000 to 29999, green exactly from 30000 up |
| FlightMap.IconColor | static/js/map.js:7-17 | the icon colour is never the default blue and agrees with `getAltitudeColor` for every altitude |
| FlightMap.BandMonotone | static/js/map.js:9-17 | the colour band never decreases with altitude, and equal bands give equal colours |
| FlightMap.CreateIcon | static/js/map.js:5-38 | an icon has the altitude's colour and the base size 24 |
| FlightMap.IconSize | static/js/map.js:170-172 | the zoomed size is never below 24, is 24 at or below the minimum zoom, and grows by 2.4 per zoom level above it |
| FlightMap.IconSizeMonotone | static/js/map.js:170-172 | zooming in never shrinks the icons |
| FlightMap.TrackOrHeading | static/js/map.js:244 | the drawn direction is the track if truthy, else the heading if truthy, else 0 |
| FlightMap.IconNeedsUpdate | static/js/map.js:319-335 | true when no marker position is stored; otherwise true exactly when altitude moved by more than 1000 ft or the direction by more than 10 degrees, measured from the stored aircraft, or from 0 when none is stored |
| FlightMap.IconNeedsUpdateAgainstItself | static/js/map.js:251 | at its call site the current record is the stored record, so an icon update is never needed there |
| FlightMap.AppendBounded | static/js/map.js:383-389 | a short path gets the new point appended; a full path loses its oldest point first; a path of at most 100 points stays at most 100 |
| FlightMap.AppendBoundedKeepsNewest | static/js/map.js:383-389 | one bounded append on a path of at most 100 points keeps exactly the newest 100 points of the path and the new one |
| FlightMap.AppendAllKeepsNewest | static/js/map.js:383-391 | any run of updates on a path of at most 100 points leaves exactly the newest 100 points of its whole history |
| FlightMap.MergeFilters | static/js/map.js:407 | every filter field named in the update takes the new value, every other one keeps its old value |
| FlightMap.WithDefaults | static/js/map.js:45-51 | each configuration field is the caller's value when given, else centre (14.5, 74.0), zoom 7, max zoom 12, min zoom 5, interval 5 |
| FlightMap.WithInitialPath | static/js/map.js:208-210 | a stored record gets a one-point `path` only when it had none and has a truthy position; no other field changes |
| FlightMap.Table | static/js/map.js:204-212 | each stored record sits under its own hex |
| FlightMap.TableStep | static/js/map.js:206-212 | one iteration stores the record under its hex, with its initial path |
| FlightMap.TableKeys | static/js/map.js:204-212 | the table's keys are exactly the snapshot's hex codes |
| FlightMap.TableLastWins | static/js/map.js:212 | of duplicate hex codes the last record wins |
| FlightMap.PreviousPositions | static/js/map.js:193-201 | exactly the stored aircraft with a truthy position are remembered, at that position |
| FlightMap.ExtendPaths | static/js/map.js:214-220 | the paths after the loop of `updateAircraftData` has gone through the records in order, extending those whose aircraft had and has a position while paths are shown |
| FlightMap.PathStep | static/js/map.js:371-392 | a new path is `[prev, new]` in the altitude's colour and on the map; an existing one gets the new point through the bounded append |
| FlightMap.ExtendPathsStep | static/js/map.js:214-220 | one record extends its path exactly when paths are shown and it had and still has a truthy position |
| FlightMap.ExtendPathsOnlyQualifying | static/js/map.js:214-220 | an aircraft none of whose records qualifies keeps its path, or its lack of one, unchanged |
| FlightMap.ExtendPathsHidden | static/js/map.js:214 | with paths hidden no path changes |
| FlightMap.InAltitudeBand | static/js/map.js:235-236 | an aircraft passes the filter when its altitude is within the minimum and maximum, both inclusive |
| FlightMap.Filtered | static/js/map.js:234-237 | the hexes of the stored aircraft that pass the altitude filter |
| FlightMap.Shown | static/js/map.js:234-241 | the aircraft that get a marker are among the altitude-filtered ones |
| FlightMap.NewMarker | static/js/map.js:262-290 | a new marker sits at the aircraft's position with the icon of its altitude |
| FlightMap.PopupFor | static/js/map.js:274-281 | the popup shows the trimmed callsign or "N/A", the hex, altitude, speed and the drawn direction |
| FlightMap.MovedPosition | static/js/map.js:338-357 | the stored position becomes the new one when there is none or the aircraft moved; otherwise it stays the old one |
| FlightMap.RefreshedMarker | static/js/map.js:246-259 | an existing marker moves when its position is refreshed, and gets a new icon when the threshold test or `force` asks for one |
| FlightMap.Reconcile | static/js/map.js:229-316 | one `updateMap(force)` pass as a function of the layers: drawn aircraft get a new or refreshed marker, markers outside the filter are dropped with their positions and paths |
| FlightMap.ReconcileMarkerKeys | static/js/map.js:234-315 | after `updateMap` every filtered aircraft with a position has a marker, every marker belongs to a filtered aircraft, and a filtered aircraft without a position keeps a marker exactly when it had one, and that marker unchanged |
| FlightMap.ReconcileCleanup | static/js/map.js:303-315 | a removed marker takes its position and its path with it; a filtered aircraft's marker is never removed; paths are never changed, only removed with their marker |
| FlightMap.Visited | static/js/map.js:240-300 | part-way through the first loop the paths are untouched and exactly the shown aircraft visited so far have gained markers and positions |
| FlightMap.VisitedThenRemoved | static/js/map.js:302-315 | the removal loop after the drawing loop gives exactly the reconciled state |
| FlightMap.ReconcileConsistent | static/js/map.js:288-315 | markers and stored positions keep the same keys |
| FlightMap.ReconcileIconsOnlyWhenForced | static/js/map.js:250-259 | without a forced update an existing marker's icon is never replaced |
| FlightMap.ReconcileForcedIcons | static/js/map.js:252-258 | with a forced update every shown aircraft's icon is rebuilt from its altitude |
| FlightMap.ReconcileShownEntry | static/js/map.js:240-291 | each shown aircraft's marker sits at its stored position, and that position is the current one or one it has not moved away from |
| FlightMap.ReconcileIdempotent | static/js/map.js:229-316 | a second `updateMap` on the same data changes nothing |
| FlightMap.Resized | static/js/map.js:175-185 | every marker gets an icon of the new size, with nothing else changed |
| FlightMap.WithVisibility | static/js/map.js:410-422 | every path is put on or taken off the map, with nothing else changed |
| FlightMap.AircraftMap.constructor | static/js/map.js:43-67 | merged configuration, empty tables, filters 0 to 50000 ft without paths, not zooming, no timer |
| FlightMap.AircraftMap.OnZoomStart | static/js/map.js:140-144 | zooming starts and any pending timer is cancelled; nothing drawn changes |
| FlightMap.AircraftMap.OnZoomEnd | static/js/map.js:146-154 | the single pending timer is replaced by a fresh one |
| FlightMap.AircraftMap.OnZoomTimer | static/js/map.js:149-153 | zooming ends, the icons are resized, and one forced `updateMap` follows; shown markers end at size 24 and others at the zoomed size |
| FlightMap.AircraftMap.UpdateIconSize | static/js/map.js:167-186 | every marker gets the zoomed icon size; nothing else changes |
| FlightMap.AircraftMap.UpdateAircraftData | static/js/map.js:188-227 | while zooming nothing changes; otherwise the table is the snapshot keyed by hex, paths are extended, and `updateMap` reconciles |
| FlightMap.AircraftMap.LoadSnapshot | static/js/map.js:203-222 | the loop stores every record and extends paths, keeping every path between 2 and 100 points |
| FlightMap.AircraftMap.LoadRow | static/js/map.js:206-220 | one record is stored under its hex and its path is extended, the paths keep between 2 and 100 points, and their visibility still follows `showPaths` |
| FlightMap.AircraftMap.UpdateFlightPath | static/js/map.js:371-392 | the path gains one point through the bounded FIFO; no other path changes |
| FlightMap.AircraftMap.UpdateMarkerPosition | static/js/map.js:338-357 | the marker moves only when there was no stored position or it moved far enough, and the stored position follows it |
| FlightMap.AircraftMap.DrawAircraft | static/js/map.js:240-300 | an existing marker is refreshed and a missing one created, with its position stored |
| FlightMap.AircraftMap.RemoveUnfiltered | static/js/map.js:302-315 | markers outside the filtered set are deleted together with their positions and paths |
| FlightMap.AircraftMap.UpdateMap | static/js/map.js:229-316 | while zooming and not forced nothing changes; otherwise the drawn state is the reconciled one, which satisfies the marker-key bounds |
| FlightMap.AircraftMap.SetFilters | static/js/map.js:406-426 | the filters are merged and the paths re-layered to follow `showPaths`; the forced update then reconciles, which drops the markers, positions and paths of the aircraft outside the new filter; the stored snapshot is kept |
| FlightMap.AircraftMap.SetPathLayers | static/js/map.js:409-422 | every path is put on the map exactly when paths are shown |
| FlightMap.AircraftMap.ZoomToAircraftTarget | static/js/map.js:434-446 | nothing happens for an unknown aircraft or one without a position; otherwise the view centres on it at zoom min(current + 2, max zoom) and opens its popup exactly when it has a marker |
| FlightMap.AircraftMap.AllPositions | static/js/map.js:450-452 | exactly the positions of the stored aircraft with a truthy position |
| FlightMap.AircraftMap.ZoomToAllTarget | static/js/map.js:448-467 | the view fits all positions when there is one, otherwise it returns to the configured centre and zoom |
| Dashboard.DisplayKey | static/js/dashboard.js:304-305 | the sort key is the trimmed callsign when there is one, else the hex |
| Dashboard.Insert | static/js/dashboard.js:303-307 | inserting adds exactly the one record, and it goes in front unless the first key is strictly smaller |
| Dashboard.InsertSorted | static/js/dashboard.js:303-307 | inserting into a list ordered by display key keeps it ordered |
| Dashboard.SortByKey | static/js/dashboard.js:303-307 | the sorted copy is a permutation of the snapshot |
| Dashboard.SortByKeySorted | static/js/dashboard.js:303-307 | the copy is ordered by display key |
| Dashboard.FirstMinimal | static/js/dashboard.js:303-307 | an index whose key is minimal, with no strictly smaller key before it |
| Dashboard.SortedHead | static/js/dashboard.js:338-340 | the first sorted aircraft is the earliest one with the smallest key, because the sort is stable |
| Dashboard.ShownCallsign | static/js/dashboard.js:313 | the trimmed callsign when there is one, else "Unknown" |
| Dashboard.Positioned | static/js/dashboard.js:311 | only aircraft with a truthy position are kept, never more than the input |
| Dashboard.PositionedCounts | static/js/dashboard.js:310-311 | each aircraft with a position is kept exactly as often as it occurs, and each without one is dropped |
| Dashboard.EntryFor | static/js/dashboard.js:313-326 | an entry shows the hex, callsign and altitude, is visible, and is active exactly when its hex is the selection |
| Dashboard.Entries | static/js/dashboard.js:310-333 | one entry per aircraft, in order |
| Dashboard.FirstIndexOf | static/js/dashboard.js:191 | the first entry with the hex, or none exactly when no entry has it |
| Dashboard.MaxAltitude | static/js/dashboard.js:350-357 | never negative, at least every altitude, and either 0 or some aircraft's altitude |
| Dashboard.MaxSpeed | static/js/dashboard.js:351-357 | never negative, at least every speed, and either 0 or some aircraft's speed |
| Dashboard.StatsOf | static/js/dashboard.js:345-364 | the total counts the whole snapshot, positions or not, next to the two maxima |
| Dashboard.DetailHeading | static/js/dashboard.js:163 | the panel's heading is the heading if truthy, else the track if truthy, else 0 |
| Dashboard.DetailHeadingAgreesWithMap | static/js/dashboard.js:163 | the panel's and the map's direction differ exactly when heading and track are both truthy and different |
| Dashboard.DetailOf | static/js/dashboard.js:141-170 | callsign fallback, upper-cased hex, position, altitude, speed, heading fallback, squawk else "N/A", and the hex the centre button uses |
| Dashboard.DetailThrows | static/js/dashboard.js:151 | the detail template throws exactly for a stored aircraft without `lat` or without `lon` |
| Dashboard.SearchTerm | static/js/dashboard.js:202 | the lower-cased, trimmed term, empty exactly when the term is all whitespace |
| Dashboard.BlankTermMatchesAll | static/js/dashboard.js:202-217 | a whitespace-only term matches every aircraft |
| Dashboard.MatchesOwnHex | static/js/dashboard.js:215-217 | an aircraft always matches its own lower-cased hex |
| Dashboard.Matches | static/js/dashboard.js:214-217 | an aircraft matches when its lower-cased trimmed callsign, or its lower-cased hex, includes the term |
| Dashboard.SearchedEntry | static/js/dashboard.js:209-229 | an entry of a stored aircraft becomes visible exactly when it matches; an entry of an unknown hex is left as it is |
| Dashboard.FirstMatch | static/js/dashboard.js:208-225 | the first entry in list order that matches, or none exactly when none does |
| Dashboard.FirstMatchAt | static/js/dashboard.js:209-225 | an entry that matches with no match before it is the first match |
| Dashboard.HighlightSearched | static/js/dashboard.js:208-225 | highlighting during the search leaves the visibility the search set and marks the same entry as highlighting afterwards would |
| Dashboard.PanelAfterDetail | static/js/dashboard.js:132-180 | an unknown hex leaves the panel alone; otherwise the panel is shown, and it shows the details unless formatting the position throws |
| Dashboard.Highlight | static/js/dashboard.js:183-196 | only the first entry with the hex becomes active, all others inactive |
| Dashboard.HighlightUnique | static/js/dashboard.js:183-196 | at most one entry is active, and one is exactly when some entry has the hex |
| Dashboard.ListFor | static/js/dashboard.js:303-333 | the rebuilt list is never longer than the snapshot, every entry is visible, and exactly the entries of the selection are active |
| Dashboard.PositionedMember | static/js/dashboard.js:310-311 | every listed record comes from the snapshot |
| Dashboard.PositionedKeepsSorted | static/js/dashboard.js:303-311 | skipping the records without a position keeps the others in order, so the list of a sorted snapshot is sorted |
| Dashboard.ListForSpec | static/js/dashboard.js:303-333 | the rebuilt list shows exactly the records that have a position, each as often as the snapshot holds it, ordered by display key, one entry per record |
| Dashboard.SearchedUpTo | static/js/dashboard.js:208-230 | the entries visited so far have their search visibility, the rest keep theirs, and nothing else changes except the highlight |
| Dashboard.FirstMatchHex | static/js/dashboard.js:221-225 | the hex selected by a search is the first match's, and it is a stored aircraft |
| Dashboard.BlankSearchSelectsFirstStored | static/js/dashboard.js:202-225 | a whitespace-only term shows every stored entry and finds a match exactly when some entry is stored |
| Dashboard.PageDefaultsAreMapDefaults | static/js/dashboard.js:21-26 | the page's fallback configuration gives exactly the map's defaults |
| Dashboard.ListRebuild | static/js/dashboard.js:295-342 | the selection rule of `updateAircraftList`: a stored selection is kept and re-shown; else a non-empty snapshot selects its first sorted aircraft and highlights it unless its detail throws; else the selection stays and the list is empty |
| Dashboard.RebuildActiveIsSelected | static/js/dashboard.js:295-342 | after a rebuild that did not throw every active entry belongs to the selected aircraft, and an automatic selection of a stored aircraft opens the panel |
| Dashboard.DashboardState.constructor | static/js/dashboard.js:17-39 | a new map on the page configuration, no selection, zero statistics, an empty list and a hidden panel |
| Dashboard.DashboardState.HighlightAircraftInList | static/js/dashboard.js:183-196 | the list is re-highlighted for the hex; nothing else changes |
| Dashboard.DashboardState.ShowAircraftDetail | static/js/dashboard.js:132-180 | the panel after the detail, and which calls throw |
| Dashboard.DashboardState.HandleAircraftClick | static/js/dashboard.js:118-129 | the hex becomes the selection, the detail is shown, and the list is highlighted unless the detail threw |
| Dashboard.DashboardState.CenterMapTarget | static/js/dashboard.js:174-179 | the centre button zooms to the aircraft the panel shows, and there is none without details |
| Dashboard.DashboardState.UpdateStatistics | static/js/dashboard.js:345-374 | the statistics fold of the snapshot, or unchanged without one |
| Dashboard.DashboardState.BuildList | static/js/dashboard.js:309-333 | the loop appends exactly the entries of the positioned aircraft, in the order given |
| Dashboard.DashboardState.UpdateAircraftList | static/js/dashboard.js:295-342 | without data nothing changes; otherwise the new selection, list, panel and the throw outcome are exactly those of `ListRebuild` |
| Dashboard.DashboardState.VisitForSearch | static/js/dashboard.js:208-230 | one iteration of the search loop: the entry's visibility, and the selection at the first match |
| Dashboard.DashboardState.PerformSearch | static/js/dashboard.js:199-236 | an empty term does nothing; otherwise non-matches are hidden, the first match is selected, and with no match the selection stays and "no results" is shown |
| Dashboard.DashboardState.SearchEntries | static/js/dashboard.js:204-230 | the loop over the entries, stopping where a match's detail throws |
| Dashboard.DashboardState.OnAltitudeInput | static/js/dashboard.js:46-50 | the slider's value becomes the minimum altitude and the label; the map keeps its snapshot and zoom state and is redrawn by the forced reconciliation under the new filter |
| Dashboard.DashboardState.OnShowPathsChange | static/js/dashboard.js:56-58 | the checkbox sets `showPaths` and every path's visibility; the map keeps its snapshot and zoom state and is redrawn by the forced reconciliation |
| Dashboard.DashboardState.ResetAllFilters | static/js/dashboard.js:89-107 | minimum altitude 0 and paths off, with the maximum altitude as it was; the map keeps its snapshot and zoom state and is redrawn by the forced reconciliation under the reset filter |
| Dashboard.DashboardState.OnRefreshData | static/js/dashboard.js:268-292 | a failed fetch changes nothing; otherwise the map stores the snapshot and draws it by the unforced reconciliation (unless zooming), the selection, list and panel follow `ListRebuild`, and the statistics change exactly when no detail threw |
| Processor.Kept | data_processor.py:90-91 | a feeder record is kept exactly when it has both a `lat` and a `lon` key |
| Processor.Normalize | data_processor.py:92-107 | the dashboard record built from one kept feeder record |
| Processor.NormalizeFields | data_processor.py:92-107 | each field takes the feeder's value or its default; heading is `mag_heading`, else `track`, else 0; `altitude_difference` is present exactly when both altitudes are, and is their difference |
| Processor.Step | data_processor.py:91-109 | a feeder record contributes one normalised record when it has both `lat` and `lon`, and nothing otherwise |
| Processor.ProcessedList | data_processor.py:88-110 | the output is never longer than the input |
| Processor.ProcessedListAppend | data_processor.py:89-109 | processing keeps the input order |
| Processor.ProcessedListSound | data_processor.py:89-109 | every output record normalises some input record with both keys |
| Processor.ProcessedListComplete | data_processor.py:89-109 | every input record with both keys reaches the output, normalised |
| Processor.ProcessedListMembers | data_processor.py:89-109 | a record is output exactly when it normalises an input record with both `lat` and `lon` |
| Processor.ProcessedListSingle | data_processor.py:91-109 | a record with both keys is kept and one without is dropped |
| Processor.ProcessOf | data_processor.py:82-114 | a falsy input or one without `aircraft` gives an empty list and no `count`; otherwise the records are the processed list of the feeder records and `count` is its length |
| Processor.ProcessData | data_processor.py:77-114 | the loop builds exactly that result |
| Processor.Stale | data_processor.py:22 | the cache is consulted again when it is empty or strictly more than `cache_duration` seconds old |
| Processor.DataProcessor.constructor | data_processor.py:8-12 | an empty cache, last update 0, a five-second window |
| Processor.DataProcessor.GetAircraftData | data_processor.py:14-34 | the cache is refreshed only when empty or older than five seconds and the fetch is truthy, and then it becomes the processed result at time `now`; the cache is returned |
| Wire.ToClient | server.py:26-27 | every served record has a position to format and no path yet |
| Wire.Served | server.py:26-27 | an empty cache is served as `null`; otherwise one record per cached one |
| Wire.ServedPositionShown | static/js/map.js:241 | a served aircraft is drawn and listed exactly when neither coordinate is zero |
| Wire.ServedDirectionsDiffer | data_processor.py:99-102 | map and panel directions of a served aircraft differ exactly when its heading and track are non-zero and different |
| Wire.NoMagneticHeadingAgrees | data_processor.py:102 | without `mag_heading` the map and the panel show the same direction |
| Wire.TableRenders | static/js/map.js:204-212 | storing records whose details format leaves only such records |
| Wire.ServedNeverThrows | static/js/dashboard.js:151 | on served data the detail template never throws, whichever aircraft is selected |

## Left out

- Leaflet itself (`L.map`, tiles, `L.icon`, `L.marker`, popups, `setLatLng`, `setView`, `fitBounds`, layers). Markers, paths and view changes are plain records, and a path's `onMap` flag stands for `hasLayer`.
- The SVG text and the `btoa` data URL of the icon. Only the colour and the size are kept.
- The haversine distance in `calculateDistance`, and the range rings' pixel maths. Both are floating-point trigonometry; "moved more than 0.001 km" is the parameter `moved`.
- The rotation string appended to the marker's CSS transform, and the `willChange` toggling on `movestart`/`moveend`. These are presentation only, and the rotation angle does not affect the icon.
- `innerHTML`, `classList`, `scrollIntoView`, `toLocaleString`, `toFixed` and `toLocaleTimeString` formatting. The panel and the list entries hold the values they would show. Every page element is assumed present.
- Real timers:
  - the 300 ms zoom timeout is an explicit event, `OnZoomTimer`, and a cleared timer never fires;
  - `setInterval`, `startDataRefresh` and `refreshInterval` are not modelled;
  - two overlapping fetches are not modelled; `OnRefreshData` is one completed refresh.
- `updateLastRefreshTime`, the map's default `onAircraftClick` logging, and `console` output.
- Strings.StrLeTotal: `localeCompare` is modelled as lexicographic order of Unicode code points (not UTF-16 code units), one total order, and not the browser's locale collation.
- Strings.Trim: trimming and case mapping cover ASCII only. Unicode whitespace and non-ASCII case mapping are left out.
- The marker-click and list-click callbacks. They are `HandleAircraftClick`.
- `"ground"` altitudes, non-numeric values, and fractional speeds and tracks. Altitudes, speeds, tracks and headings are integers; coordinates are reals.
- Dashboard.DetailThrows: `aircraft.altitude.toLocaleString()` in the detail template would also throw on a record without `altitude`. Every modelled record has an integer altitude, so only a missing `lat` or `lon` throws.
- Aliasing: `updateAircraftData` stores the received objects and writes their `path` in place. The model stores values.
- Iteration order over the JavaScript objects. The map's loops are proved for any order of the keys.
- Processor.Normalize: Python's `str.strip()` also removes the ASCII separators U+001C to U+001F (and Unicode whitespace), which JavaScript's `trim()` keeps. One ASCII `Trim` serves both sides, so a feeder callsign that starts or ends with such a separator keeps it in the model's record, while the server would strip it.
- Processor.NormalizeFields: feeder keys present with a JSON `null` value (for which `.strip()` would raise) are not modelled; a present key always carries a value of its field's type.
- `_fetch_from_feeder` (HTTP probing), `_load_sample_data` and `_save_raw_data` (file I/O). The feeder's answer is the parameter `fetched`.
- `time.time()` and `datetime.now()`. They are the parameters `now` and `timestamp`.
- `calculate_distance` in the processor, which the two operations modelled here do not use.
- Flask routing, the index page, the configuration file read, and the error-500 path of `server.py`.
