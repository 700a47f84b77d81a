/** The aircraft record the browser receives in a snapshot (`data.aircraft`),
    with JavaScript truthiness made explicit: an absent property, `0`, `0.0`
    and `""` are all falsy. */
module Snapshot {
  import opened Wrappers

  datatype Position = Position(lat: real, lon: real)

  datatype Aircraft = Aircraft(
    hex: string,
    flight: Option<string>,
    lat: Option<real>,
    lon: Option<real>,
    altitude: int,
    speed: int,
    track: Option<int>,
    heading: Option<int>,
    squawk: Option<string>,
    category: Option<string>,
    path: Option<seq<Position>>)

  predicate TruthyCoord(o: Option<real>)
  {
    o.Some? && o.value != 0.0
  }

  predicate TruthyInt(o: Option<int>)
  {
    o.Some? && o.value != 0
  }

  predicate TruthyStr(o: Option<string>)
  {
    o.Some? && o.value != ""
  }

  /** `aircraft.lat && aircraft.lon` */
  predicate HasPosition(a: Aircraft)
  {
    TruthyCoord(a.lat) && TruthyCoord(a.lon)
  }

  /** `[aircraft.lat, aircraft.lon]` */
  function PositionOf(a: Aircraft): Position
    requires HasPosition(a)
  {
    Position(a.lat.value, a.lon.value)
  }
}
