/** The map renderer of static/js/map.js: the `AircraftMap` object keeps the
    latest snapshot keyed by hex, one Leaflet marker per displayed aircraft,
    the last drawn position of each marker, and a bounded flight path per
    aircraft, and reconciles them against every new snapshot. Leaflet objects
    are plain records here. */
module FlightMap {
  import opened Wrappers
  import opened Strings
  import opened Snapshot

  // ---------------------------------------------------------------------
  // Colour bands and icon size (pure)
  // ---------------------------------------------------------------------

  const Red := "#ff4444"
  const Orange := "#ff8800"
  const Yellow := "#ffcc00"
  const Green := "#44ff44"
  /** The value `createIcon` starts from before the band overwrites it. */
  const DefaultBlue := "#3388ff"

  const BaseIconSize: real := 24.0
  const MaxPathPoints := 100

  /** `getAltitudeColor`: the colour of a new flight path. */
  function AltitudeColor(altitude: int): (c: string)
    ensures c == Red <==> altitude < 10000
    ensures c == Orange <==> 10000 <= altitude < 20000
    ensures c == Yellow <==> 20000 <= altitude < 30000
    ensures c == Green <==> 30000 <= altitude
  {
    if altitude < 10000 then Red
    else if altitude < 20000 then Orange
    else if altitude < 30000 then Yellow
    else Green
  }

  /** The colour chosen by `createIcon`: it never keeps the default blue and
      always agrees with the path colour. */
  function IconColor(altitude: int): (c: string)
    ensures c != DefaultBlue
    ensures c == AltitudeColor(altitude)
  {
    if altitude < 10000 then Red
    else if altitude < 20000 then Orange
    else if altitude < 30000 then Yellow
    else Green
  }

  /** The index of an altitude's colour band, low to high. */
  function Band(altitude: int): nat
  {
    if altitude < 10000 then 0 else if altitude < 20000 then 1 else if altitude < 30000 then 2 else 3
  }

  /** Climbing never moves an aircraft to a lower colour band, and the band
      alone decides the colour. */
  lemma BandMonotone(a: int, b: int)
    requires a <= b
    ensures Band(a) <= Band(b)
    ensures Band(a) == Band(b) ==> IconColor(a) == IconColor(b)
  {
  }

  /** A Leaflet icon: the SVG data URL depends only on the colour. */
  datatype Icon = Icon(color: string, size: real)

  /** `aircraftIcons.createIcon`: the heading and category arguments do not
      influence the icon, which always has the base size. */
  function CreateIcon(altitude: int): (i: Icon)
    ensures i.color == AltitudeColor(altitude) && i.size == BaseIconSize
  {
    Icon(IconColor(altitude), BaseIconSize)
  }

  /** The size formula of `updateIconSize`: 24 scaled by 1 + 0.1 per zoom level
      above the minimum, never below 24. */
  function IconSize(zoom: real, minZoom: real): (size: real)
    ensures size >= BaseIconSize
    ensures zoom <= minZoom ==> size == BaseIconSize
    ensures zoom >= minZoom ==> size == BaseIconSize + (zoom - minZoom) * 2.4
  {
    var scaled := BaseIconSize * (1.0 + (zoom - minZoom) * 0.1);
    if scaled > BaseIconSize then scaled else BaseIconSize
  }

  /** Zooming in never shrinks the icons. */
  lemma IconSizeMonotone(z1: real, z2: real, minZoom: real)
    requires z1 <= z2
    ensures IconSize(z1, minZoom) <= IconSize(z2, minZoom)
  {
  }

  // ---------------------------------------------------------------------
  // Direction and the icon-update threshold (pure)
  // ---------------------------------------------------------------------

  /** `aircraft.track || aircraft.heading || 0`: the rotation angle. */
  function TrackOrHeading(a: Aircraft): (d: int)
    ensures TruthyInt(a.track) ==> d == a.track.value
    ensures !TruthyInt(a.track) && TruthyInt(a.heading) ==> d == a.heading.value
    ensures !TruthyInt(a.track) && !TruthyInt(a.heading) ==> d == 0
  {
    if TruthyInt(a.track) then a.track.value
    else if TruthyInt(a.heading) then a.heading.value
    else 0
  }

  function Abs(x: int): nat
  {
    if x < 0 then -x else x
  }

  /** `needsIconUpdate(hex, currentData)`, over the two tables it reads. */
  function IconNeedsUpdate(markerPositions: map<string, Position>, aircraftData: map<string, Aircraft>,
                           hex: string, current: Aircraft): (r: bool)
    ensures hex !in markerPositions ==> r
    ensures hex in markerPositions && hex in aircraftData ==>
      (r <==> Abs(current.altitude - aircraftData[hex].altitude) > 1000
              || Abs(TrackOrHeading(current) - TrackOrHeading(aircraftData[hex])) > 10)
    ensures hex in markerPositions && hex !in aircraftData ==>
      (r <==> Abs(current.altitude) > 1000 || Abs(TrackOrHeading(current)) > 10)
  {
    if hex !in markerPositions then true
    else
      var prevAltitude := if hex in aircraftData then aircraftData[hex].altitude else 0;
      if Abs(current.altitude - prevAltitude) > 1000 then true
      else
        var prevDirection := if hex in aircraftData then TrackOrHeading(aircraftData[hex]) else 0;
        Abs(TrackOrHeading(current) - prevDirection) > 10
  }

  /** At its only call site the current record is the stored record itself,
      so once the hex has a drawn position the threshold test is always false. */
  lemma IconNeedsUpdateAgainstItself(markerPositions: map<string, Position>, aircraftData: map<string, Aircraft>, hex: string)
    requires hex in markerPositions && hex in aircraftData
    ensures !IconNeedsUpdate(markerPositions, aircraftData, hex, aircraftData[hex])
  {
  }

  // ---------------------------------------------------------------------
  // Flight path buffer (pure)
  // ---------------------------------------------------------------------

  /** The last `n` elements of `s` (all of `s` when it is shorter). */
  function LastN<T>(s: seq<T>, n: nat): (r: seq<T>)
    ensures |r| == if |s| <= n then |s| else n
  {
    if |s| <= n then s else s[|s| - n..]
  }

  /** `currentPath.push(p)` then `shift()` when the length exceeds 100. */
  function AppendBounded(points: seq<Position>, p: Position): (r: seq<Position>)
    ensures |points| < MaxPathPoints ==> r == points + [p]
    ensures |points| >= MaxPathPoints ==> r == points[1..] + [p]
    ensures |points| <= MaxPathPoints ==> |r| <= MaxPathPoints
  {
    var pushed := points + [p];
    if |pushed| > MaxPathPoints then pushed[1..] else pushed
  }

  /** Appending one point at a time, in order. */
  function AppendAll(points: seq<Position>, ps: seq<Position>): seq<Position>
    decreases |ps|
  {
    if ps == [] then points else AppendAll(AppendBounded(points, ps[0]), ps[1..])
  }

  lemma LastNOfLastN<T>(a: seq<T>, b: seq<T>, n: nat)
    ensures LastN(LastN(a, n) + b, n) == LastN(a + b, n)
  {
    if |a| > n {
      var a' := a[|a| - n..];
      if |a' + b| > n {
        assert (a' + b)[|a' + b| - n..] == (a + b)[|a + b| - n..];
      } else {
        assert b == [];
        assert a + b == a;
      }
    }
  }

  /** One bounded append keeps the newest 100 points. */
  lemma AppendBoundedKeepsNewest(points: seq<Position>, p: Position)
    requires |points| <= MaxPathPoints
    ensures AppendBounded(points, p) == LastN(points + [p], MaxPathPoints)
  {
    if |points| == MaxPathPoints {
      assert (points + [p])[1..] == points[1..] + [p];
    }
  }

  /** Keeping the newest points after the first append and again after the
      rest is keeping the newest points of the whole run. */
  lemma NewestOfRest(points: seq<Position>, ps: seq<Position>)
    requires ps != []
    ensures LastN(LastN(points + [ps[0]], MaxPathPoints) + ps[1..], MaxPathPoints) == LastN(points + ps, MaxPathPoints)
  {
    LastNOfLastN(points + [ps[0]], ps[1..], MaxPathPoints);
    assert points + [ps[0]] + ps[1..] == points + ps by {
      assert ps == [ps[0]] + ps[1..];
    }
  }

  /** The buffer is a FIFO of capacity 100: however many points are
      appended, it holds exactly the 100 most recent ones, oldest first. */
  lemma {:induction false} AppendAllKeepsNewest(points: seq<Position>, ps: seq<Position>)
    requires |points| <= MaxPathPoints
    ensures AppendAll(points, ps) == LastN(points + ps, MaxPathPoints)
    decreases |ps|
  {
    if ps == [] {
      assert points + ps == points;
    } else {
      var next := AppendBounded(points, ps[0]);
      AppendBoundedKeepsNewest(points, ps[0]);
      AppendAllKeepsNewest(next, ps[1..]);
      NewestOfRest(points, ps);
    }
  }

  // ---------------------------------------------------------------------
  // Leaflet objects as records, filters, configuration
  // ---------------------------------------------------------------------

  /** The popup bound when a marker is created; it is never rebuilt. */
  datatype Popup = Popup(callsign: string, hex: string, altitude: int, speed: int, heading: int)

  /** A Leaflet marker: where it is drawn, its icon and its popup. */
  datatype Marker = Marker(position: Position, icon: Icon, popup: Popup)

  /** A Leaflet polyline: its points, its colour and whether it is a layer of the map. */
  datatype FlightPath = FlightPath(points: seq<Position>, color: string, onMap: bool)

  datatype Filters = Filters(minAltitude: int, maxAltitude: int, showPaths: bool)

  const DefaultFilters := Filters(0, 50000, false)

  /** The partial record given to `setFilters`: an absent field is not named. */
  datatype FilterUpdate = FilterUpdate(minAltitude: Option<int>, maxAltitude: Option<int>, showPaths: Option<bool>)

  /** `{...this.filters, ...filters}`: a named field takes the new value, every
      other field keeps its value. */
  function MergeFilters(f: Filters, u: FilterUpdate): (r: Filters)
    ensures u.minAltitude.Some? ==> r.minAltitude == u.minAltitude.value
    ensures u.minAltitude.None? ==> r.minAltitude == f.minAltitude
    ensures u.maxAltitude.Some? ==> r.maxAltitude == u.maxAltitude.value
    ensures u.maxAltitude.None? ==> r.maxAltitude == f.maxAltitude
    ensures u.showPaths.Some? ==> r.showPaths == u.showPaths.value
    ensures u.showPaths.None? ==> r.showPaths == f.showPaths
  {
    Filters(u.minAltitude.GetOr(f.minAltitude), u.maxAltitude.GetOr(f.maxAltitude), u.showPaths.GetOr(f.showPaths))
  }

  datatype MapConfig = MapConfig(center: Position, zoom: real, maxZoom: real, minZoom: real, updateInterval: int)

  const DefaultConfig := MapConfig(Position(14.5, 74.0), 7.0, 12.0, 5.0, 5)

  /** The options a caller passes to the constructor; a missing one keeps its default. */
  datatype ConfigOptions = ConfigOptions(center: Option<Position>, zoom: Option<real>, maxZoom: Option<real>,
                                         minZoom: Option<real>, updateInterval: Option<int>)

  /** `Object.assign(defaults, config)`: every given option overrides its default. */
  function WithDefaults(o: ConfigOptions): (c: MapConfig)
    ensures c.center == o.center.GetOr(DefaultConfig.center)
    ensures c.zoom == o.zoom.GetOr(DefaultConfig.zoom)
    ensures c.maxZoom == o.maxZoom.GetOr(DefaultConfig.maxZoom)
    ensures c.minZoom == o.minZoom.GetOr(DefaultConfig.minZoom)
    ensures c.updateInterval == o.updateInterval.GetOr(DefaultConfig.updateInterval)
  {
    MapConfig(o.center.GetOr(DefaultConfig.center), o.zoom.GetOr(DefaultConfig.zoom), o.maxZoom.GetOr(DefaultConfig.maxZoom),
              o.minZoom.GetOr(DefaultConfig.minZoom), o.updateInterval.GetOr(DefaultConfig.updateInterval))
  }

  /** A change of the Leaflet view requested by `zoomToAircraft` or `zoomToAllAircraft`. */
  datatype ViewChange = NoChange | SetView(center: Position, zoom: real, openPopup: bool) | FitBounds(points: set<Position>)

  // ---------------------------------------------------------------------
  // The stored snapshot and the flight paths it extends (pure)
  // ---------------------------------------------------------------------

  /** Every record is stored under its own hex. */
  ghost predicate KeyedByHex(data: map<string, Aircraft>)
  {
    forall h :: h in data ==> data[h].hex == h
  }

  /** `if (!aircraft.path && aircraft.lat && aircraft.lon) aircraft.path = [[lat, lon]]` */
  function WithInitialPath(a: Aircraft): (r: Aircraft)
    ensures r == a.(path := r.path)
    ensures a.path.None? && HasPosition(a) ==> r.path == Some([PositionOf(a)])
    ensures !(a.path.None? && HasPosition(a)) ==> r == a
  {
    if a.path.None? && HasPosition(a) then a.(path := Some([PositionOf(a)])) else a
  }

  /** The table `updateAircraftData` builds: each record in order, stored under
      its hex, a later record replacing an earlier one. */
  function Table(s: seq<Aircraft>): (t: map<string, Aircraft>)
    ensures KeyedByHex(t)
    decreases |s|
  {
    if s == [] then map[] else Table(s[..|s| - 1])[s[|s| - 1].hex := WithInitialPath(s[|s| - 1])]
  }

  /** One more record in `updateAircraftData`'s loop. */
  lemma TableStep(s: seq<Aircraft>, i: nat)
    requires i < |s|
    ensures Table(s[..i + 1]) == Table(s[..i])[s[i].hex := WithInitialPath(s[i])]
  {
    assert s[..i + 1][..i] == s[..i];
  }

  /** The table has exactly the hexes of the snapshot as keys. */
  lemma {:induction false} TableKeys(s: seq<Aircraft>)
    ensures Table(s).Keys == set i | 0 <= i < |s| :: s[i].hex
    decreases |s|
  {
    if s != [] {
      var init := s[..|s| - 1];
      TableKeys(init);
      assert forall i :: 0 <= i < |init| ==> init[i] == s[i];
      var lhs := Table(s).Keys;
      var rhs := set i | 0 <= i < |s| :: s[i].hex;
      forall h | h in rhs ensures h in lhs {
        var i :| 0 <= i < |s| && s[i].hex == h;
        if i < |s| - 1 {
          assert init[i].hex == h;
        }
      }
    }
  }

  /** The last record with a given hex is the one stored. */
  lemma {:induction false} TableLastWins(s: seq<Aircraft>, i: nat)
    requires i < |s|
    requires forall j :: i < j < |s| ==> s[j].hex != s[i].hex
    ensures s[i].hex in Table(s) && Table(s)[s[i].hex] == WithInitialPath(s[i])
    decreases |s|
  {
    if i < |s| - 1 {
      var init := s[..|s| - 1];
      assert init[i] == s[i];
      TableLastWins(init, i);
    }
  }

  /** `previousPositions`: the position of every stored aircraft that has one. */
  function PreviousPositions(data: map<string, Aircraft>): (prev: map<string, Position>)
    ensures forall h :: h in prev <==> h in data && HasPosition(data[h])
    ensures forall h :: h in prev ==> prev[h] == PositionOf(data[h])
  {
    map h | h in data && HasPosition(data[h]) :: PositionOf(data[h])
  }

  /** `updateFlightPath` on one path: a new path starts at the previous position
      and is drawn in the colour of the aircraft's altitude. */
  function PathStep(existing: Option<FlightPath>, prevPos: Position, newPos: Position, altitude: int): (fp: FlightPath)
    ensures existing.None? ==> fp == FlightPath([prevPos, newPos], AltitudeColor(altitude), true)
    ensures existing.Some? ==> fp == existing.value.(points := AppendBounded(existing.value.points, newPos))
  {
    match existing
    case None => FlightPath(AppendBounded([prevPos], newPos), AltitudeColor(altitude), true)
    case Some(fp) => fp.(points := AppendBounded(fp.points, newPos))
  }

  /** Whether `updateAircraftData` extends the path of this record. */
  predicate ExtendsPath(a: Aircraft, prev: map<string, Position>, showPaths: bool)
  {
    showPaths && a.hex in prev && HasPosition(a)
  }

  /** The flight paths after `updateAircraftData` has gone through `s` in order. */
  function ExtendPaths(paths: map<string, FlightPath>, prev: map<string, Position>, showPaths: bool,
                       s: seq<Aircraft>): map<string, FlightPath>
    decreases |s|
  {
    if s == [] then paths
    else
      var p := ExtendPaths(paths, prev, showPaths, s[..|s| - 1]);
      var a := s[|s| - 1];
      if ExtendsPath(a, prev, showPaths) then
        p[a.hex := PathStep(if a.hex in p then Some(p[a.hex]) else None, prev[a.hex], PositionOf(a), a.altitude)]
      else p
  }

  /** One more record in `updateAircraftData`'s loop. */
  lemma ExtendPathsStep(paths: map<string, FlightPath>, prev: map<string, Position>, showPaths: bool,
                        s: seq<Aircraft>, i: nat)
    requires i < |s|
    ensures var p := ExtendPaths(paths, prev, showPaths, s[..i]);
      ExtendPaths(paths, prev, showPaths, s[..i + 1]) ==
        if ExtendsPath(s[i], prev, showPaths) then
          p[s[i].hex := PathStep(if s[i].hex in p then Some(p[s[i].hex]) else None, prev[s[i].hex], PositionOf(s[i]), s[i].altitude)]
        else p
  {
    assert s[..i + 1][..i] == s[..i];
  }

  /** A path is created or changed only for a hex whose record had a position
      both in the old and in the new snapshot, and only while paths are shown. */
  lemma {:induction false} ExtendPathsOnlyQualifying(paths: map<string, FlightPath>, prev: map<string, Position>,
                                                     showPaths: bool, s: seq<Aircraft>, h: string)
    requires forall i :: 0 <= i < |s| && s[i].hex == h ==> !ExtendsPath(s[i], prev, showPaths)
    ensures h in ExtendPaths(paths, prev, showPaths, s) <==> h in paths
    ensures h in paths ==> ExtendPaths(paths, prev, showPaths, s)[h] == paths[h]
    decreases |s|
  {
    if s != [] {
      var init := s[..|s| - 1];
      assert forall i :: 0 <= i < |init| ==> init[i] == s[i];
      ExtendPathsOnlyQualifying(paths, prev, showPaths, init, h);
    }
  }

  /** With paths hidden, `updateAircraftData` leaves every path as it was. */
  lemma {:induction false} ExtendPathsHidden(paths: map<string, FlightPath>, prev: map<string, Position>, s: seq<Aircraft>)
    ensures ExtendPaths(paths, prev, false, s) == paths
    decreases |s|
  {
    if s != [] {
      ExtendPathsHidden(paths, prev, s[..|s| - 1]);
    }
  }

  // ---------------------------------------------------------------------
  // Reconciliation (pure specification of `updateMap`)
  // ---------------------------------------------------------------------

  /** The three tables of Leaflet layers: `aircraftMarkers`, `markerPositions`
      and `flightPaths`. */
  datatype Layers = Layers(markers: map<string, Marker>, positions: map<string, Position>, paths: map<string, FlightPath>)

  /** Every marker has exactly one stored position, which is where it is
      drawn, and every path holds between 2 and 100 points. */
  ghost predicate LayersConsistent(l: Layers)
  {
    && l.markers.Keys == l.positions.Keys
    && (forall h :: h in l.markers ==> l.markers[h].position == l.positions[h])
    && (forall h :: h in l.paths ==> 2 <= |l.paths[h].points| <= MaxPathPoints)
  }

  predicate InAltitudeBand(f: Filters, a: Aircraft)
  {
    a.altitude >= f.minAltitude && a.altitude <= f.maxAltitude
  }

  /** The hexes of `filteredAircraft`. */
  function Filtered(data: map<string, Aircraft>, f: Filters): set<string>
  {
    set h | h in data && InAltitudeBand(f, data[h])
  }

  /** The filtered aircraft that also have a position: those `updateMap` draws. */
  function Shown(data: map<string, Aircraft>, f: Filters): (r: set<string>)
    ensures r <= Filtered(data, f)
  {
    set h | h in data && InAltitudeBand(f, data[h]) && HasPosition(data[h])
  }

  function PopupFor(a: Aircraft): Popup
  {
    Popup(if TruthyStr(a.flight) then Trim(a.flight.value) else "N/A", a.hex, a.altitude, a.speed, TrackOrHeading(a))
  }

  function NewMarker(a: Aircraft): (m: Marker)
    requires HasPosition(a)
    ensures m.position == PositionOf(a) && m.icon == CreateIcon(a.altitude)
  {
    Marker(PositionOf(a), CreateIcon(a.altitude), PopupFor(a))
  }

  /** `updateMarkerPosition` on the stored position: moved only when there is no
      stored position or the aircraft moved significantly. */
  function MovedPosition(positions: map<string, Position>, h: string, pos: Position,
                         moved: (Position, Position) -> bool): (p: Position)
    ensures h !in positions || moved(positions[h], pos) ==> p == pos
    ensures h in positions && !moved(positions[h], pos) ==> p == positions[h]
  {
    if h !in positions || moved(positions[h], pos) then pos else positions[h]
  }

  /** An existing marker after `updateMap` has visited its aircraft. */
  function RefreshedMarker(m: Marker, positions: map<string, Position>, data: map<string, Aircraft>, h: string,
                           force: bool, moved: (Position, Position) -> bool): Marker
    requires h in data && HasPosition(data[h])
  {
    var a := data[h];
    var pos := PositionOf(a);
    var m1 := if h !in positions || moved(positions[h], pos) then m.(position := pos) else m;
    if IconNeedsUpdate(positions[h := MovedPosition(positions, h, pos, moved)], data, h, a) || force
    then m1.(icon := CreateIcon(a.altitude))
    else m1
  }

  /** The layers after one `updateMap(force)` pass over `data` under `f`. */
  function Reconcile(l: Layers, data: map<string, Aircraft>, f: Filters, force: bool,
                     moved: (Position, Position) -> bool): Layers
  {
    var shown := Shown(data, f);
    var removed := l.markers.Keys - Filtered(data, f);
    Layers(
      map h | h in (l.markers.Keys - removed) + shown ::
        if h in shown then
          (if h in l.markers then RefreshedMarker(l.markers[h], l.positions, data, h, force, moved) else NewMarker(data[h]))
        else l.markers[h],
      map h | h in (l.positions.Keys - removed) + shown ::
        if h in shown then
          (if h in l.markers then MovedPosition(l.positions, h, PositionOf(data[h]), moved) else PositionOf(data[h]))
        else l.positions[h],
      l.paths - removed)
  }

  /** After a pass, every filtered aircraft with a position has a marker and
      every marker belongs to a filtered aircraft; a filtered aircraft without
      a position keeps the marker it had. */
  lemma ReconcileMarkerKeys(l: Layers, data: map<string, Aircraft>, f: Filters, force: bool,
                            moved: (Position, Position) -> bool)
    ensures var r := Reconcile(l, data, f, force, moved);
      && Shown(data, f) <= r.markers.Keys <= Filtered(data, f)
      && r.markers.Keys == Shown(data, f) + (l.markers.Keys * (Filtered(data, f) - Shown(data, f)))
      && (forall h :: h in l.markers && h in Filtered(data, f) - Shown(data, f) ==> r.markers[h] == l.markers[h])
  {
  }

  /** A removed marker takes its stored position and its flight path with it;
      the marker of an aircraft still in the filtered set is never removed;
      paths are otherwise left alone. */
  lemma ReconcileCleanup(l: Layers, data: map<string, Aircraft>, f: Filters, force: bool,
                         moved: (Position, Position) -> bool, h: string)
    requires LayersConsistent(l)
    ensures var r := Reconcile(l, data, f, force, moved);
      && (h in l.markers && h !in r.markers ==> h !in r.positions && h !in r.paths)
      && (h in l.markers && h in Filtered(data, f) ==> h in r.markers)
      && (h in r.paths ==> h in l.paths && r.paths[h] == l.paths[h])
      && (h in l.paths && (h !in l.markers || h in Filtered(data, f)) ==> h in r.paths)
  {
  }

  /** Removing keys one at a time removes them all. */
  lemma RemoveOneMore<V>(m: map<string, V>, gone: set<string>, k: string)
    ensures (m - gone) - {k} == m - (gone + {k})
  {
  }

  /** The layers once the first loop of `updateMap` has visited the
      filtered aircraft in `done`: drawn ones are created or refreshed, the
      rest of the tables is as before. */
  function Visited(l: Layers, data: map<string, Aircraft>, f: Filters, force: bool,
                   moved: (Position, Position) -> bool, done: set<string>): (r: Layers)
    ensures r.paths == l.paths
    ensures r.markers.Keys == l.markers.Keys + Shown(data, f) * done
    ensures r.positions.Keys == l.positions.Keys + Shown(data, f) * done
  {
    var drawn := Shown(data, f) * done;
    Layers(
      map h | h in l.markers.Keys + drawn ::
        if h in drawn then
          (if h in l.markers then RefreshedMarker(l.markers[h], l.positions, data, h, force, moved) else NewMarker(data[h]))
        else l.markers[h],
      map h | h in l.positions.Keys + drawn ::
        if h in drawn then
          (if h in l.markers then MovedPosition(l.positions, h, PositionOf(data[h]), moved) else PositionOf(data[h]))
        else l.positions[h],
      l.paths)
  }

  /** `RefreshedMarker` looks at the stored positions only at its own hex. */
  lemma RefreshedMarkerLocal(m: Marker, p1: map<string, Position>, p2: map<string, Position>, data: map<string, Aircraft>,
                             h: string, force: bool, moved: (Position, Position) -> bool)
    requires h in data && HasPosition(data[h])
    requires h in p1 <==> h in p2
    requires h in p1 ==> p1[h] == p2[h]
    ensures RefreshedMarker(m, p1, data, h, force, moved) == RefreshedMarker(m, p2, data, h, force, moved)
  {
    var pos := PositionOf(data[h]);
    var q1 := p1[h := MovedPosition(p1, h, pos, moved)];
    var q2 := p2[h := MovedPosition(p2, h, pos, moved)];
    assert IconNeedsUpdate(q1, data, h, data[h]) == IconNeedsUpdate(q2, data, h, data[h]);
  }

  /** Visiting an aircraft drawn on the map (markers). */
  lemma VisitStepMarkers(l: Layers, data: map<string, Aircraft>, f: Filters, force: bool,
                         moved: (Position, Position) -> bool, done: set<string>, hex: string)
    requires l.markers.Keys == l.positions.Keys
    requires hex in Shown(data, f) && hex !in done
    ensures var cur := Visited(l, data, f, force, moved, done);
      Visited(l, data, f, force, moved, done + {hex}).markers == cur.markers[hex :=
        if hex in cur.markers then RefreshedMarker(cur.markers[hex], cur.positions, data, hex, force, moved)
        else NewMarker(data[hex])]
  {
    var cur := Visited(l, data, f, force, moved, done);
    var next := Visited(l, data, f, force, moved, done + {hex});
    assert hex !in Shown(data, f) * done;
    if hex in l.markers {
      assert cur.markers[hex] == l.markers[hex];
      assert cur.positions[hex] == l.positions[hex];
      RefreshedMarkerLocal(l.markers[hex], l.positions, cur.positions, data, hex, force, moved);
    }
    var want := cur.markers[hex :=
        if hex in cur.markers then RefreshedMarker(cur.markers[hex], cur.positions, data, hex, force, moved)
        else NewMarker(data[hex])];
    assert next.markers.Keys == want.Keys;
    forall h | h in want ensures next.markers[h] == want[h] {
      if h != hex {
        assert h in Shown(data, f) * done <==> h in Shown(data, f) * (done + {hex});
      }
    }
  }

  /** Visiting an aircraft drawn on the map (stored positions). */
  lemma VisitStepPositions(l: Layers, data: map<string, Aircraft>, f: Filters, force: bool,
                           moved: (Position, Position) -> bool, done: set<string>, hex: string)
    requires l.markers.Keys == l.positions.Keys
    requires hex in Shown(data, f) && hex !in done
    ensures var cur := Visited(l, data, f, force, moved, done);
      Visited(l, data, f, force, moved, done + {hex}).positions == cur.positions[hex :=
        if hex in cur.markers then MovedPosition(cur.positions, hex, PositionOf(data[hex]), moved)
        else PositionOf(data[hex])]
  {
    var cur := Visited(l, data, f, force, moved, done);
    var next := Visited(l, data, f, force, moved, done + {hex});
    assert hex !in Shown(data, f) * done;
    if hex in l.markers {
      assert cur.positions[hex] == l.positions[hex];
    }
    var want := cur.positions[hex :=
        if hex in cur.markers then MovedPosition(cur.positions, hex, PositionOf(data[hex]), moved)
        else PositionOf(data[hex])];
    assert next.positions.Keys == want.Keys;
    forall h | h in want ensures next.positions[h] == want[h] {
      if h != hex {
        assert h in Shown(data, f) * done <==> h in Shown(data, f) * (done + {hex});
      }
    }
  }

  /** Visiting an aircraft without a position changes nothing. */
  lemma VisitStepSkipped(l: Layers, data: map<string, Aircraft>, f: Filters, force: bool,
                         moved: (Position, Position) -> bool, done: set<string>, hex: string)
    requires hex !in Shown(data, f)
    ensures Visited(l, data, f, force, moved, done + {hex}) == Visited(l, data, f, force, moved, done)
  {
    assert Shown(data, f) * (done + {hex}) == Shown(data, f) * done;
  }

  /** Visiting every filtered aircraft and then dropping the markers of the
      aircraft outside the filter is one `Reconcile` pass. */
  lemma VisitedThenRemoved(l: Layers, data: map<string, Aircraft>, f: Filters, force: bool,
                           moved: (Position, Position) -> bool)
    requires l.markers.Keys == l.positions.Keys
    ensures var v := Visited(l, data, f, force, moved, Filtered(data, f));
      var gone := v.markers.Keys - Filtered(data, f);
      Layers(v.markers - gone, v.positions - gone, v.paths - gone) == Reconcile(l, data, f, force, moved)
  {
    var v := Visited(l, data, f, force, moved, Filtered(data, f));
    assert Shown(data, f) * Filtered(data, f) == Shown(data, f);
    var r := Reconcile(l, data, f, force, moved);
    var gone := v.markers.Keys - Filtered(data, f);
    assert gone == l.markers.Keys - Filtered(data, f);
    assert v.markers - gone == r.markers;
    assert v.positions - gone == r.positions;
    assert v.paths - gone == r.paths;
  }

  /** A pass keeps the layers consistent. */
  lemma ReconcileConsistent(l: Layers, data: map<string, Aircraft>, f: Filters, force: bool,
                            moved: (Position, Position) -> bool)
    requires LayersConsistent(l)
    ensures LayersConsistent(Reconcile(l, data, f, force, moved))
  {
    var r := Reconcile(l, data, f, force, moved);
    forall h | h in r.markers ensures r.markers[h].position == r.positions[h] {
      if h in Shown(data, f) && h in l.markers {
        var pos := PositionOf(data[h]);
        if !(h !in l.positions || moved(l.positions[h], pos)) {
          assert r.markers[h].position == l.markers[h].position;
        }
      }
    }
  }

  /** Rebuilding an icon happens only on a forced pass: the threshold test
      compares each aircraft with its own stored record. */
  lemma ReconcileIconsOnlyWhenForced(l: Layers, data: map<string, Aircraft>, f: Filters,
                                     moved: (Position, Position) -> bool, h: string)
    requires h in l.markers
    ensures var r := Reconcile(l, data, f, false, moved);
      h in r.markers ==> r.markers[h].icon == l.markers[h].icon
  {
  }

  /** A forced pass rebuilds the icon of every drawn aircraft at the base size. */
  lemma ReconcileForcedIcons(l: Layers, data: map<string, Aircraft>, f: Filters,
                             moved: (Position, Position) -> bool, h: string)
    requires h in Shown(data, f)
    ensures var r := Reconcile(l, data, f, true, moved);
      h in r.markers && r.markers[h].icon == CreateIcon(data[h].altitude)
  {
  }

  /** A marker that is already drawn where its aircraft is (or that did not
      move significantly), with a freshly built icon when `force` is set, is
      left exactly as it is by another visit. */
  lemma RefreshStable(m: Marker, positions: map<string, Position>, data: map<string, Aircraft>, h: string,
                      force: bool, moved: (Position, Position) -> bool)
    requires h in data && HasPosition(data[h]) && h in positions
    requires m.position == positions[h]
    requires positions[h] == PositionOf(data[h]) || !moved(positions[h], PositionOf(data[h]))
    requires force ==> m.icon == CreateIcon(data[h].altitude)
    ensures RefreshedMarker(m, positions, data, h, force, moved) == m
    ensures MovedPosition(positions, h, PositionOf(data[h]), moved) == positions[h]
  {
    var pos := PositionOf(data[h]);
    var np := MovedPosition(positions, h, pos, moved);
    assert !IconNeedsUpdate(positions[h := np], data, h, data[h]);
  }

  /** What a pass leaves for a drawn aircraft: its marker is where its stored
      position is, that position is the aircraft's or did not move
      significantly, and a forced pass has just rebuilt its icon. */
  lemma ReconcileShownEntry(l: Layers, data: map<string, Aircraft>, f: Filters, force: bool,
                            moved: (Position, Position) -> bool, h: string)
    requires LayersConsistent(l) && h in Shown(data, f)
    ensures var r := Reconcile(l, data, f, force, moved);
      var pos := PositionOf(data[h]);
      && h in r.markers && h in r.positions
      && r.markers[h].position == r.positions[h]
      && (r.positions[h] == pos || !moved(r.positions[h], pos))
      && (force ==> r.markers[h].icon == CreateIcon(data[h].altitude))
  {
    ReconcileConsistent(l, data, f, force, moved);
  }

  /** A second pass over layers that a first pass left in that state. */
  lemma SecondPass(r: Layers, data: map<string, Aircraft>, f: Filters, force: bool,
                   moved: (Position, Position) -> bool)
    requires LayersConsistent(r)
    requires Shown(data, f) <= r.markers.Keys <= Filtered(data, f)
    requires forall h | h in Shown(data, f) ::
      (r.positions[h] == PositionOf(data[h]) || !moved(r.positions[h], PositionOf(data[h])))
      && (force ==> r.markers[h].icon == CreateIcon(data[h].altitude))
    ensures Reconcile(r, data, f, force, moved) == r
  {
    var r2 := Reconcile(r, data, f, force, moved);
    forall h | h in Shown(data, f)
      ensures r2.positions[h] == r.positions[h] && r2.markers[h] == r.markers[h]
    {
      RefreshStable(r.markers[h], r.positions, data, h, force, moved);
    }
    assert r2.markers == r.markers;
    assert r2.positions == r.positions;
    assert r2.paths == r.paths;
  }

  /** Reconciling the same snapshot a second time under the same filters
      changes nothing: no marker is created, moved, redrawn or removed. */
  lemma ReconcileIdempotent(l: Layers, data: map<string, Aircraft>, f: Filters, force: bool,
                            moved: (Position, Position) -> bool)
    requires LayersConsistent(l)
    ensures var r := Reconcile(l, data, f, force, moved);
      Reconcile(r, data, f, force, moved) == r
  {
    var r := Reconcile(l, data, f, force, moved);
    ReconcileConsistent(l, data, f, force, moved);
    ReconcileMarkerKeys(l, data, f, force, moved);
    forall h | h in Shown(data, f)
      ensures (r.positions[h] == PositionOf(data[h]) || !moved(r.positions[h], PositionOf(data[h])))
      ensures (force ==> r.markers[h].icon == CreateIcon(data[h].altitude))
    {
      ReconcileShownEntry(l, data, f, force, moved, h);
    }
    SecondPass(r, data, f, force, moved);
  }

  /** Every icon resized to `size`, keeping its colour. */
  function Resized(markers: map<string, Marker>, size: real): (r: map<string, Marker>)
    ensures r.Keys == markers.Keys
    ensures forall h :: h in r ==> r[h] == markers[h].(icon := markers[h].icon.(size := size))
  {
    map h | h in markers :: markers[h].(icon := markers[h].icon.(size := size))
  }

  /** Every path attached to the map or detached from it, its points kept. */
  function WithVisibility(paths: map<string, FlightPath>, show: bool): (r: map<string, FlightPath>)
    ensures r.Keys == paths.Keys
    ensures forall h :: h in r ==> r[h] == paths[h].(onMap := show)
  {
    map h | h in paths :: paths[h].(onMap := show)
  }

  // ---------------------------------------------------------------------
  // The AircraftMap object
  // ---------------------------------------------------------------------

  class AircraftMap {
    const config: MapConfig
    /** Whether a marker moved more than 0.001 km: the haversine test of
        `updateMarkerPosition`, taken as given. */
    const moved: (Position, Position) -> bool

    var aircraftData: map<string, Aircraft>
    var aircraftMarkers: map<string, Marker>
    var markerPositions: map<string, Position>
    var flightPaths: map<string, FlightPath>
    var filters: Filters

    var isZooming: bool
    /** The id in `this.zoomTimeout`; 0 stands for `null`. */
    var zoomTimeout: nat
    /** The zoom timers set and not yet cleared or fired (the host's timer table). */
    var pendingTimers: set<nat>
    /** The id the host hands out for the next `setTimeout`. */
    var nextTimerId: nat

    function Drawn(): (l: Layers)
      reads this
    {
      Layers(aircraftMarkers, markerPositions, flightPaths)
    }

    ghost predicate TablesConsistent()
      reads this
    {
      KeyedByHex(aircraftData) && LayersConsistent(Drawn())
    }

    /** A path is a layer of the map exactly when paths are shown. */
    ghost predicate PathsFollowFilter()
      reads this
    {
      forall h :: h in flightPaths ==> flightPaths[h].onMap == filters.showPaths
    }

    /** The marker keys lie between the drawn and the filtered aircraft. */
    ghost predicate MarkersReconciled()
      reads this
    {
      Shown(aircraftData, filters) <= aircraftMarkers.Keys <= Filtered(aircraftData, filters)
    }

    /** At most one zoom timer is pending, and it is the one in `zoomTimeout`. */
    ghost predicate TimersValid()
      reads this
    {
      0 < nextTimerId && zoomTimeout < nextTimerId && pendingTimers <= {zoomTimeout} && 0 !in pendingTimers
    }

    ghost predicate Valid()
      reads this
    {
      TablesConsistent() && PathsFollowFilter() && MarkersReconciled() && TimersValid()
    }

    constructor (options: ConfigOptions, moved: (Position, Position) -> bool)
      ensures Valid()
      ensures config == WithDefaults(options) && this.moved == moved
      ensures aircraftData == map[] && aircraftMarkers == map[] && markerPositions == map[] && flightPaths == map[]
      ensures filters == DefaultFilters
      ensures !isZooming && zoomTimeout == 0 && pendingTimers == {}
    {
      config := WithDefaults(options);
      this.moved := moved;
      aircraftData := map[];
      aircraftMarkers := map[];
      markerPositions := map[];
      flightPaths := map[];
      filters := DefaultFilters;
      isZooming := false;
      zoomTimeout := 0;
      pendingTimers := {};
      nextTimerId := 1;
    }

    // --- zoom debounce ---------------------------------------------------

    /** The `zoomstart` handler: suspend updates and cancel the pending timer. */
    method OnZoomStart()
      requires Valid()
      modifies this
      ensures Valid()
      ensures isZooming && pendingTimers == {}
      ensures zoomTimeout == old(zoomTimeout) && nextTimerId == old(nextTimerId)
      ensures Drawn() == old(Drawn()) && aircraftData == old(aircraftData) && filters == old(filters)
    {
      isZooming := true;
      if zoomTimeout != 0 {
        pendingTimers := pendingTimers - {zoomTimeout};
      }
    }

    /** The `zoomend` handler: replace the pending timer by a new one. */
    method OnZoomEnd()
      requires Valid()
      modifies this
      ensures Valid()
      ensures zoomTimeout == old(nextTimerId) && pendingTimers == {zoomTimeout}
      ensures isZooming == old(isZooming)
      ensures Drawn() == old(Drawn()) && aircraftData == old(aircraftData) && filters == old(filters)
    {
      if zoomTimeout != 0 {
        pendingTimers := pendingTimers - {zoomTimeout};
      }
      var id := nextTimerId;
      nextTimerId := nextTimerId + 1;
      pendingTimers := pendingTimers + {id};
      zoomTimeout := id;
    }

    /** The zoom timer fires (after the 300 ms quiet period): resume updates,
        resize every icon to the zoom level, then run one forced `updateMap`. */
    method OnZoomTimer(timer: nat, zoomLevel: real)
      requires Valid() && timer in pendingTimers
      modifies this
      ensures Valid()
      ensures !isZooming && pendingTimers == {}
      ensures zoomTimeout == old(zoomTimeout) && nextTimerId == old(nextTimerId)
      ensures aircraftData == old(aircraftData) && filters == old(filters)
      ensures Drawn() == Reconcile(old(Drawn()).(markers := Resized(old(aircraftMarkers), IconSize(zoomLevel, config.minZoom))),
                                    aircraftData, filters, true, moved)
      ensures forall h :: h in Shown(aircraftData, filters) ==> aircraftMarkers[h].icon.size == BaseIconSize
      ensures forall h :: h in aircraftMarkers && h !in Shown(aircraftData, filters) ==>
        aircraftMarkers[h].icon.size == IconSize(zoomLevel, config.minZoom)
    {
      pendingTimers := pendingTimers - {timer};
      isZooming := false;
      UpdateIconSize(zoomLevel);
      ghost var resized := Drawn();
      UpdateMap(true);
      forall h | h in Shown(aircraftData, filters)
        ensures aircraftMarkers[h].icon.size == BaseIconSize
      {
        ReconcileForcedIcons(resized, aircraftData, filters, moved, h);
      }
    }

    /** `updateIconSize`: every marker gets an icon of the zoom-scaled size,
        keeping its colour. */
    method UpdateIconSize(zoomLevel: real)
      requires TablesConsistent()
      modifies this
      ensures TablesConsistent()
      ensures aircraftMarkers == Resized(old(aircraftMarkers), IconSize(zoomLevel, config.minZoom))
      ensures markerPositions == old(markerPositions) && flightPaths == old(flightPaths)
      ensures aircraftData == old(aircraftData) && filters == old(filters) && isZooming == old(isZooming)
      ensures zoomTimeout == old(zoomTimeout) && pendingTimers == old(pendingTimers) && nextTimerId == old(nextTimerId)
    {
      var newSize := IconSize(zoomLevel, config.minZoom);
      var todo := aircraftMarkers.Keys;
      while todo != {}
        invariant todo <= aircraftMarkers.Keys && aircraftMarkers.Keys == old(aircraftMarkers).Keys
        invariant forall h :: h in aircraftMarkers ==>
          aircraftMarkers[h] == if h in todo then old(aircraftMarkers)[h]
                                else old(aircraftMarkers)[h].(icon := old(aircraftMarkers)[h].icon.(size := newSize))
        invariant markerPositions == old(markerPositions) && flightPaths == old(flightPaths)
        invariant aircraftData == old(aircraftData) && filters == old(filters) && isZooming == old(isZooming)
        invariant zoomTimeout == old(zoomTimeout) && pendingTimers == old(pendingTimers) && nextTimerId == old(nextTimerId)
        decreases todo
      {
        var h :| h in todo;
        var icon := aircraftMarkers[h].icon;
        aircraftMarkers := aircraftMarkers[h := aircraftMarkers[h].(icon := Icon(icon.color, newSize))];
        todo := todo - {h};
      }
    }

    // --- snapshot and reconciliation --------------------------------------

    /** `updateAircraftData(data)`: ignored while zooming; otherwise the stored
        snapshot becomes exactly `data.aircraft` keyed by hex, the paths of
        aircraft that had a position before and now are extended, and a
        non-forced `updateMap` follows. */
    method UpdateAircraftData(data: Option<seq<Aircraft>>)
      requires Valid()
      modifies this
      ensures Valid()
      ensures old(isZooming) ==> unchanged(this)
      ensures !old(isZooming) ==> aircraftData == Table(data.GetOr([]))
      ensures !old(isZooming) ==>
        Drawn() == Reconcile(old(Drawn()).(paths := ExtendPaths(old(flightPaths), PreviousPositions(old(aircraftData)),
                                                                 filters.showPaths, data.GetOr([]))),
                              aircraftData, filters, false, moved)
      ensures filters == old(filters) && isZooming == old(isZooming)
      ensures zoomTimeout == old(zoomTimeout) && pendingTimers == old(pendingTimers) && nextTimerId == old(nextTimerId)
    {
      if isZooming {
        return;
      }
      var previous := PreviousPositions(aircraftData);
      LoadSnapshot(data.GetOr([]), previous);
      UpdateMap(false);
    }

    /** The loop of `updateAircraftData`: store every record of `rows` by hex
        (a later record replaces an earlier one) and extend the paths. */
    method LoadSnapshot(rows: seq<Aircraft>, previous: map<string, Position>)
      requires forall h :: h in flightPaths ==> 2 <= |flightPaths[h].points| <= MaxPathPoints
      modifies this
      ensures aircraftMarkers == old(aircraftMarkers) && markerPositions == old(markerPositions)
      ensures filters == old(filters) && isZooming == old(isZooming)
      ensures zoomTimeout == old(zoomTimeout) && pendingTimers == old(pendingTimers) && nextTimerId == old(nextTimerId)
      ensures aircraftData == Table(rows)
      ensures flightPaths == ExtendPaths(old(flightPaths), previous, filters.showPaths, rows)
      ensures forall h :: h in flightPaths ==> 2 <= |flightPaths[h].points| <= MaxPathPoints
      ensures (forall h :: h in old(flightPaths) ==> old(flightPaths)[h].onMap == filters.showPaths) ==>
        forall h :: h in flightPaths ==> flightPaths[h].onMap == filters.showPaths
    {
      ghost var allShown := forall h :: h in flightPaths ==> flightPaths[h].onMap == filters.showPaths;
      aircraftData := map[];
      var i := 0;
      while i < |rows|
        invariant aircraftMarkers == old(aircraftMarkers) && markerPositions == old(markerPositions)
        invariant filters == old(filters) && isZooming == old(isZooming)
        invariant zoomTimeout == old(zoomTimeout) && pendingTimers == old(pendingTimers) && nextTimerId == old(nextTimerId)
        invariant 0 <= i <= |rows|
        invariant aircraftData == Table(rows[..i])
        invariant flightPaths == ExtendPaths(old(flightPaths), previous, filters.showPaths, rows[..i])
        invariant forall h :: h in flightPaths ==> 2 <= |flightPaths[h].points| <= MaxPathPoints
        invariant allShown ==> forall h :: h in flightPaths ==> flightPaths[h].onMap == filters.showPaths
      {
        LoadRow(rows, i, previous, old(flightPaths));
        i := i + 1;
      }
      assert rows[..|rows|] == rows;
    }

    /** One iteration of `updateAircraftData`'s loop over the snapshot. */
    method LoadRow(rows: seq<Aircraft>, i: nat, previous: map<string, Position>, ghost paths0: map<string, FlightPath>)
      requires i < |rows|
      requires aircraftData == Table(rows[..i])
      requires flightPaths == ExtendPaths(paths0, previous, filters.showPaths, rows[..i])
      requires forall h :: h in flightPaths ==> 2 <= |flightPaths[h].points| <= MaxPathPoints
      modifies this
      ensures aircraftMarkers == old(aircraftMarkers) && markerPositions == old(markerPositions)
      ensures filters == old(filters) && isZooming == old(isZooming)
      ensures zoomTimeout == old(zoomTimeout) && pendingTimers == old(pendingTimers) && nextTimerId == old(nextTimerId)
      ensures aircraftData == Table(rows[..i + 1])
      ensures flightPaths == ExtendPaths(paths0, previous, filters.showPaths, rows[..i + 1])
      ensures forall h :: h in flightPaths ==> 2 <= |flightPaths[h].points| <= MaxPathPoints
      ensures (forall h :: h in old(flightPaths) ==> old(flightPaths)[h].onMap == filters.showPaths) ==>
        forall h :: h in flightPaths ==> flightPaths[h].onMap == filters.showPaths
    {
      var aircraft := WithInitialPath(rows[i]);
      TableStep(rows, i);
      ExtendPathsStep(paths0, previous, filters.showPaths, rows, i);
      aircraftData := aircraftData[aircraft.hex := aircraft];
      if filters.showPaths && aircraft.hex in previous && HasPosition(aircraft) {
        UpdateFlightPath(aircraft.hex, previous[aircraft.hex], PositionOf(aircraft));
      }
    }

    /** `updateFlightPath(hex, prevPos, newPos)`: start a path at the previous
        position if there is none, then append the new one, dropping the
        oldest point beyond 100. */
    method UpdateFlightPath(hex: string, prevPos: Position, newPos: Position)
      requires hex in aircraftData
      requires forall h :: h in flightPaths ==> 2 <= |flightPaths[h].points| <= MaxPathPoints
      modifies this
      ensures aircraftData == old(aircraftData) && aircraftMarkers == old(aircraftMarkers) && markerPositions == old(markerPositions)
      ensures flightPaths == old(flightPaths)[hex := PathStep(if hex in old(flightPaths) then Some(old(flightPaths)[hex]) else None,
                                                               prevPos, newPos, aircraftData[hex].altitude)]
      ensures forall h :: h in flightPaths ==> 2 <= |flightPaths[h].points| <= MaxPathPoints
      ensures filters == old(filters) && isZooming == old(isZooming)
      ensures zoomTimeout == old(zoomTimeout) && pendingTimers == old(pendingTimers) && nextTimerId == old(nextTimerId)
    {
      if hex !in flightPaths {
        flightPaths := flightPaths[hex := FlightPath([prevPos], AltitudeColor(aircraftData[hex].altitude), true)];
      }
      var currentPath := flightPaths[hex].points;
      currentPath := currentPath + [newPos];
      if |currentPath| > MaxPathPoints {
        currentPath := currentPath[1..];
      }
      flightPaths := flightPaths[hex := flightPaths[hex].(points := currentPath)];
    }

    /** `updateMarkerPosition(hex, newPosition)` for an aircraft that has a marker. */
    method UpdateMarkerPosition(hex: string, newPosition: Position)
      requires hex in aircraftMarkers
      modifies this
      ensures aircraftMarkers == old(aircraftMarkers)[hex :=
        if hex !in old(markerPositions) || moved(old(markerPositions)[hex], newPosition)
        then old(aircraftMarkers)[hex].(position := newPosition) else old(aircraftMarkers)[hex]]
      ensures markerPositions == old(markerPositions)[hex := MovedPosition(old(markerPositions), hex, newPosition, moved)]
      ensures aircraftData == old(aircraftData) && flightPaths == old(flightPaths)
      ensures filters == old(filters) && isZooming == old(isZooming)
      ensures zoomTimeout == old(zoomTimeout) && pendingTimers == old(pendingTimers) && nextTimerId == old(nextTimerId)
    {
      if hex !in markerPositions {
        markerPositions := markerPositions[hex := newPosition];
        aircraftMarkers := aircraftMarkers[hex := aircraftMarkers[hex].(position := newPosition)];
        return;
      }
      var lastPos := markerPositions[hex];
      if moved(lastPos, newPosition) {
        aircraftMarkers := aircraftMarkers[hex := aircraftMarkers[hex].(position := newPosition)];
        markerPositions := markerPositions[hex := newPosition];
      }
    }

    /** One visit of `updateMap`'s first loop to an aircraft with a position. */
    method DrawAircraft(hex: string, force: bool)
      requires hex in aircraftData && HasPosition(aircraftData[hex])
      modifies this
      ensures aircraftData == old(aircraftData) && flightPaths == old(flightPaths)
      ensures filters == old(filters) && isZooming == old(isZooming)
      ensures zoomTimeout == old(zoomTimeout) && pendingTimers == old(pendingTimers) && nextTimerId == old(nextTimerId)
      ensures aircraftMarkers == old(aircraftMarkers)[hex :=
        if hex in old(aircraftMarkers) then RefreshedMarker(old(aircraftMarkers)[hex], old(markerPositions), aircraftData, hex, force, moved)
        else NewMarker(aircraftData[hex])]
      ensures markerPositions == old(markerPositions)[hex :=
        if hex in old(aircraftMarkers) then MovedPosition(old(markerPositions), hex, PositionOf(aircraftData[hex]), moved)
        else PositionOf(aircraftData[hex])]
    {
      var aircraft := aircraftData[hex];
      var position := PositionOf(aircraft);
      if hex in aircraftMarkers {
        UpdateMarkerPosition(hex, position);
        var needsIconUpdate := IconNeedsUpdate(markerPositions, aircraftData, hex, aircraft);
        if needsIconUpdate || force {
          aircraftMarkers := aircraftMarkers[hex := aircraftMarkers[hex].(icon := CreateIcon(aircraft.altitude))];
        }
      } else {
        aircraftMarkers := aircraftMarkers[hex := NewMarker(aircraft)];
        markerPositions := markerPositions[hex := position];
      }
    }

    /** The second loop of `updateMap`: every marker whose aircraft is not in
        `filtered` goes, with its stored position and its flight path. */
    method RemoveUnfiltered(filtered: set<string>)
      modifies this
      ensures aircraftData == old(aircraftData) && filters == old(filters) && isZooming == old(isZooming)
      ensures zoomTimeout == old(zoomTimeout) && pendingTimers == old(pendingTimers) && nextTimerId == old(nextTimerId)
      ensures var gone := old(aircraftMarkers).Keys - filtered;
        && aircraftMarkers == old(aircraftMarkers) - gone
        && markerPositions == old(markerPositions) - gone
        && flightPaths == old(flightPaths) - gone
    {
      var keys := aircraftMarkers.Keys;
      var rest := keys;
      ghost var removed: set<string> := {};
      while rest != {}
        invariant aircraftData == old(aircraftData) && filters == old(filters) && isZooming == old(isZooming)
        invariant zoomTimeout == old(zoomTimeout) && pendingTimers == old(pendingTimers) && nextTimerId == old(nextTimerId)
        invariant rest <= keys
        invariant removed == (keys - rest) - filtered
        invariant aircraftMarkers == old(aircraftMarkers) - removed
        invariant markerPositions == old(markerPositions) - removed
        invariant flightPaths == old(flightPaths) - removed
        decreases rest
      {
        var hex :| hex in rest;
        if hex !in filtered {
          RemoveOneMore(old(aircraftMarkers), removed, hex);
          RemoveOneMore(old(markerPositions), removed, hex);
          RemoveOneMore(old(flightPaths), removed, hex);
          aircraftMarkers := aircraftMarkers - {hex};
          markerPositions := markerPositions - {hex};
          if hex in flightPaths {
            flightPaths := flightPaths - {hex};
          }
          removed := removed + {hex};
        }
        rest := rest - {hex};
      }
    }

    /** `updateMap(forceUpdate)`: skipped while zooming unless forced; otherwise
        create, move and redraw the markers of the filtered aircraft that have a
        position, and remove every other marker together with its stored
        position and flight path. */
    method UpdateMap(force: bool)
      requires TablesConsistent()
      modifies this
      ensures TablesConsistent()
      ensures old(isZooming) && !force ==> Drawn() == old(Drawn())
      ensures !(old(isZooming) && !force) ==>
        Drawn() == Reconcile(old(Drawn()), aircraftData, filters, force, moved) && MarkersReconciled()
      ensures old(PathsFollowFilter()) ==> PathsFollowFilter()
      ensures old(MarkersReconciled()) ==> MarkersReconciled()
      ensures aircraftData == old(aircraftData) && filters == old(filters) && isZooming == old(isZooming)
      ensures zoomTimeout == old(zoomTimeout) && pendingTimers == old(pendingTimers) && nextTimerId == old(nextTimerId)
    {
      if isZooming && !force {
        return;
      }
      ghost var l0 := Drawn();
      var filtered := Filtered(aircraftData, filters);
      var todo := filtered;
      while todo != {}
        invariant aircraftData == old(aircraftData) && filters == old(filters) && isZooming == old(isZooming)
        invariant zoomTimeout == old(zoomTimeout) && pendingTimers == old(pendingTimers) && nextTimerId == old(nextTimerId)
        invariant todo <= filtered
        invariant Drawn() == Visited(l0, aircraftData, filters, force, moved, filtered - todo)
        decreases todo
      {
        var hex :| hex in todo;
        assert (filtered - todo) + {hex} == filtered - (todo - {hex});
        var aircraft := aircraftData[hex];
        if HasPosition(aircraft) {
          VisitStepMarkers(l0, aircraftData, filters, force, moved, filtered - todo, hex);
          VisitStepPositions(l0, aircraftData, filters, force, moved, filtered - todo, hex);
          DrawAircraft(hex, force);
        } else {
          VisitStepSkipped(l0, aircraftData, filters, force, moved, filtered - todo, hex);
        }
        todo := todo - {hex};
      }
      assert filtered - todo == filtered;
      ghost var v := Drawn();
      assert v == Visited(l0, aircraftData, filters, force, moved, filtered);
      ghost var gone := v.markers.Keys - filtered;
      VisitedThenRemoved(l0, aircraftData, filters, force, moved);
      RemoveUnfiltered(filtered);
      assert Drawn() == Layers(v.markers - gone, v.positions - gone, v.paths - gone);
      ReconcileConsistent(l0, aircraftData, filters, force, moved);
      ReconcileMarkerKeys(l0, aircraftData, filters, force, moved);
    }
    /** `setFilters(filters)`: merge the given filters, attach or detach every
        flight path accordingly, then run a forced `updateMap`. */
    method SetFilters(u: FilterUpdate)
      requires Valid()
      modifies this
      ensures Valid()
      ensures filters == MergeFilters(old(filters), u)
      ensures aircraftData == old(aircraftData)
      ensures Drawn() == Reconcile(old(Drawn()).(paths := WithVisibility(old(flightPaths), filters.showPaths)),
                                   aircraftData, filters, true, moved)
      ensures isZooming == old(isZooming) && zoomTimeout == old(zoomTimeout)
      ensures pendingTimers == old(pendingTimers) && nextTimerId == old(nextTimerId)
    {
      filters := MergeFilters(filters, u);
      SetPathLayers(filters.showPaths);
      UpdateMap(true);
    }

    /** The two loops of `setFilters`: add every path to the map or remove every
        path from it. */
    method SetPathLayers(show: bool)
      modifies this
      ensures flightPaths == WithVisibility(old(flightPaths), show)
      ensures aircraftData == old(aircraftData) && aircraftMarkers == old(aircraftMarkers) && markerPositions == old(markerPositions)
      ensures filters == old(filters) && isZooming == old(isZooming)
      ensures zoomTimeout == old(zoomTimeout) && pendingTimers == old(pendingTimers) && nextTimerId == old(nextTimerId)
    {
      var todo := flightPaths.Keys;
      while todo != {}
        invariant aircraftData == old(aircraftData) && aircraftMarkers == old(aircraftMarkers) && markerPositions == old(markerPositions)
        invariant filters == old(filters) && isZooming == old(isZooming)
        invariant zoomTimeout == old(zoomTimeout) && pendingTimers == old(pendingTimers) && nextTimerId == old(nextTimerId)
        invariant todo <= flightPaths.Keys && flightPaths.Keys == old(flightPaths).Keys
        invariant forall h :: h in flightPaths ==>
          flightPaths[h] == if h in todo then old(flightPaths)[h] else old(flightPaths)[h].(onMap := show)
        decreases todo
      {
        var hex :| hex in todo;
        if flightPaths[hex].onMap != show {
          flightPaths := flightPaths[hex := flightPaths[hex].(onMap := show)];
        }
        todo := todo - {hex};
      }
    }

    /** `zoomToAircraft(hex)` with the current zoom level `currentZoom`: centre on
        the aircraft two levels closer, never beyond the maximum zoom, and open
        its popup if it has a marker; nothing for an unknown aircraft or one
        without a position. */
    function ZoomToAircraftTarget(hex: string, currentZoom: real): (v: ViewChange)
      reads this
      ensures v.NoChange? <==> !(hex in aircraftData && HasPosition(aircraftData[hex]))
      ensures !v.FitBounds?
      ensures v.SetView? ==> v.center == PositionOf(aircraftData[hex])
      ensures v.SetView? ==> v.zoom <= config.maxZoom && v.zoom <= currentZoom + 2.0
      ensures v.SetView? ==> (v.zoom == config.maxZoom || v.zoom == currentZoom + 2.0)
      ensures v.SetView? ==> (v.openPopup <==> hex in aircraftMarkers)
    {
      if hex in aircraftData && HasPosition(aircraftData[hex]) then
        SetView(PositionOf(aircraftData[hex]),
                if currentZoom + 2.0 <= config.maxZoom then currentZoom + 2.0 else config.maxZoom,
                hex in aircraftMarkers)
      else NoChange
    }

    /** The positions `zoomToAllAircraft` fits: those of every stored aircraft
        that has one, whatever the filters. */
    function AllPositions(): (ps: set<Position>)
      reads this
      ensures forall h :: h in aircraftData && HasPosition(aircraftData[h]) ==> PositionOf(aircraftData[h]) in ps
      ensures forall p :: p in ps ==> exists h :: h in aircraftData && HasPosition(aircraftData[h]) && p == PositionOf(aircraftData[h])
    {
      set h | h in aircraftData && HasPosition(aircraftData[h]) :: PositionOf(aircraftData[h])
    }

    /** `zoomToAllAircraft()`: fit every known position, or return to the
        configured view when there is none. */
    function ZoomToAllTarget(): (v: ViewChange)
      reads this
      ensures v.FitBounds? <==> exists h :: h in aircraftData && HasPosition(aircraftData[h])
      ensures v.FitBounds? ==> v.points == AllPositions() && v.points != {}
      ensures v.SetView? ==> v == SetView(config.center, config.zoom, false)
      ensures !v.NoChange?
    {
      var ps := AllPositions();
      if ps != {} then FitBounds(ps) else SetView(config.center, config.zoom, false)
    }
  }
}
