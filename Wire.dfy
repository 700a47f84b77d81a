// The hand-off between the two halves: the record `/api/aircraft` serves
// (server.py, the JSON of the processor's cache) as the browser sees it.

module Wire {
  import opened Wrappers
  import opened Snapshot
  import opened Processor
  import FlightMap
  import Dashboard

  /** A served record as a client aircraft: every key the processor writes
      arrives, and no record carries a `path` yet. */
  function ToClient(r: Record): (a: Aircraft)
    ensures Dashboard.DetailRenders(a)
    ensures a.path.None? && a.hex == r.hex
  {
    Aircraft(r.hex, Some(r.flight), Some(r.lat), Some(r.lon), r.altitude, r.speed, Some(r.track), Some(r.heading),
             Some(r.squawk), Some(r.category), None)
  }

  /** `data.aircraft` on the client: an empty cache is served as `null`. */
  function Served(cache: Option<Processed>): (d: Option<seq<Aircraft>>)
    ensures d.None? <==> cache.None?
    ensures cache.Some? ==> |d.value| == |cache.value.aircraft|
    ensures cache.Some? ==> forall i :: 0 <= i < |d.value| ==> d.value[i] == ToClient(cache.value.aircraft[i])
  {
    if cache.None? then None
    else
      var rows := cache.value.aircraft;
      Some(seq(|rows|, i requires 0 <= i < |rows| => ToClient(rows[i])))
  }

  /** An aircraft the server sends is drawn exactly when neither coordinate is
      zero: one on the equator or the prime meridian gets no marker and no
      list entry. */
  lemma ServedPositionShown(r: Record)
    ensures HasPosition(ToClient(r)) <==> r.lat != 0.0 && r.lon != 0.0
  {
  }

  /** The map's direction (`track || heading`) and the detail panel's
      (`heading || track`) differ on a served record exactly when both are
      non-zero and different. */
  lemma ServedDirectionsDiffer(r: Record)
    ensures Dashboard.DetailHeading(ToClient(r)) != FlightMap.TrackOrHeading(ToClient(r)) <==>
      r.heading != 0 && r.track != 0 && r.heading != r.track
  {
  }

  /** A feeder record without `mag_heading` gets its track as heading, so the
      map and the detail panel show the same direction for it. */
  lemma NoMagneticHeadingAgrees(f: FeederRecord)
    requires Kept(f) && f.magHeading.None?
    ensures Dashboard.DetailHeading(ToClient(Normalize(f))) == FlightMap.TrackOrHeading(ToClient(Normalize(f)))
  {
    NormalizeFields(f);
    ServedDirectionsDiffer(Normalize(f));
  }

  /** The table `updateAircraftData` stores for rows that all render their
      details holds only such rows. */
  lemma {:induction false} TableRenders(rows: seq<Aircraft>)
    requires forall i :: 0 <= i < |rows| ==> Dashboard.DetailRenders(rows[i])
    ensures forall h :: h in FlightMap.Table(rows) ==> Dashboard.DetailRenders(FlightMap.Table(rows)[h])
    decreases |rows|
  {
    if rows != [] {
      TableRenders(rows[..|rows| - 1]);
    }
  }

  /** On data from this server the detail template never throws, whichever
      aircraft is selected, so a refresh always reaches the statistics. */
  lemma ServedNeverThrows(cache: Option<Processed>, hex: string)
    requires cache.Some?
    ensures !Dashboard.DetailThrows(FlightMap.Table(Served(cache).value), hex)
  {
    TableRenders(Served(cache).value);
  }
}
