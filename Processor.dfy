// The server-side normaliser and cache (data_processor.py): feeder records
// in the dump1090 style are reduced to dashboard records, and the result is
// kept for five seconds.

module Processor {
  import opened Wrappers
  import opened Strings

  /** One feeder record; `None` stands for a key the record does not have. */
  datatype FeederRecord = FeederRecord(
    hex: Option<string>, flight: Option<string>, lat: Option<real>, lon: Option<real>,
    altBaro: Option<int>, altGeom: Option<int>, gs: Option<int>, track: Option<int>,
    category: Option<string>, squawk: Option<string>, magHeading: Option<int>)

  /** The feeder's JSON document: either a falsy value, or a truthy one that
      may or may not have an `"aircraft"` key. */
  datatype RawFeed = Falsy | Truthy(aircraft: Option<seq<FeederRecord>>)

  /** One dashboard record; `altitudeDifference` is `None` when the key is absent. */
  datatype Record = Record(
    hex: string, flight: string, lat: real, lon: real, altitude: int, speed: int, track: int,
    category: string, squawk: string, heading: int, altitudeDifference: Option<int>)

  /** The result of `_process_data`; `count` is `None` when the key is absent. */
  datatype Processed = Processed(timestamp: string, aircraft: seq<Record>, count: Option<nat>)

  /** Only records with both a `"lat"` and a `"lon"` key are kept. */
  predicate Kept(a: FeederRecord)
  {
    a.lat.Some? && a.lon.Some?
  }

  /** The dashboard record of one kept feeder record. */
  function Normalize(a: FeederRecord): Record
    requires Kept(a)
  {
    Record(a.hex.GetOr(""), Trim(a.flight.GetOr("")), a.lat.value, a.lon.value, a.altBaro.GetOr(0), a.gs.GetOr(0),
           a.track.GetOr(0), a.category.GetOr(""), a.squawk.GetOr(""), a.magHeading.GetOr(a.track.GetOr(0)),
           if a.altBaro.Some? && a.altGeom.Some? then Some(a.altGeom.value - a.altBaro.value) else None)
  }

  /** The defaults of `_process_data`: every field is the feeder's value when
      the key is there and a fixed default otherwise; the heading falls back to
      the track, and `altitude_difference` exists only when both altitudes do. */
  lemma NormalizeFields(a: FeederRecord)
    requires Kept(a)
    ensures var r := Normalize(a);
      && r.hex == a.hex.GetOr("") && r.flight == Trim(a.flight.GetOr(""))
      && r.lat == a.lat.value && r.lon == a.lon.value
      && r.altitude == a.altBaro.GetOr(0) && r.speed == a.gs.GetOr(0) && r.track == a.track.GetOr(0)
      && r.category == a.category.GetOr("") && r.squawk == a.squawk.GetOr("")
      && (a.magHeading.Some? ==> r.heading == a.magHeading.value)
      && (a.magHeading.None? ==> r.heading == r.track)
      && (r.altitudeDifference.Some? <==> a.altBaro.Some? && a.altGeom.Some?)
      && (r.altitudeDifference.Some? ==> r.altitudeDifference.value == a.altGeom.value - a.altBaro.value)
  {
  }

  /** What one feeder record contributes to `aircraft_list`. */
  function Step(a: FeederRecord): (r: seq<Record>)
    ensures |r| <= 1
    ensures r != [] <==> Kept(a)
    ensures r != [] ==> r[0] == Normalize(a)
  {
    if Kept(a) then [Normalize(a)] else []
  }

  /** The records of `aircraft_list`, in input order. */
  function ProcessedList(s: seq<FeederRecord>): (r: seq<Record>)
    ensures |r| <= |s|
    decreases |s|
  {
    if s == [] then [] else ProcessedList(s[..|s| - 1]) + Step(s[|s| - 1])
  }

  /** Processing a concatenation processes each part in turn: the output keeps
      the input order. */
  lemma {:induction false} ProcessedListAppend(s: seq<FeederRecord>, t: seq<FeederRecord>)
    ensures ProcessedList(s + t) == ProcessedList(s) + ProcessedList(t)
    decreases |t|
  {
    if t == [] {
      assert s + t == s;
    } else {
      var t' := t[..|t| - 1];
      var last := t[|t| - 1];
      assert (s + t)[..|s + t| - 1] == s + t';
      assert (s + t)[|s + t| - 1] == last;
      assert ProcessedList(s + t) == ProcessedList(s + t') + Step(last);
      ProcessedListAppend(s, t');
      assert ProcessedList(t) == ProcessedList(t') + Step(last);
    }
  }

  /** Every output record normalises some kept input record. */
  lemma {:induction false} ProcessedListSound(s: seq<FeederRecord>, r: Record)
    requires r in ProcessedList(s)
    ensures exists i :: 0 <= i < |s| && Kept(s[i]) && Normalize(s[i]) == r
    decreases |s|
  {
    var init := s[..|s| - 1];
    var last := s[|s| - 1];
    assert ProcessedList(s) == ProcessedList(init) + Step(last);
    if r in ProcessedList(init) {
      ProcessedListSound(init, r);
      var i :| 0 <= i < |init| && Kept(init[i]) && Normalize(init[i]) == r;
      assert s[i] == init[i];
    } else {
      assert r in Step(last);
      assert Kept(s[|s| - 1]) && Normalize(s[|s| - 1]) == r;
    }
  }

  /** Every kept input record reaches the output. */
  lemma {:induction false} ProcessedListComplete(s: seq<FeederRecord>, i: nat)
    requires i < |s| && Kept(s[i])
    ensures Normalize(s[i]) in ProcessedList(s)
    decreases |s|
  {
    var init := s[..|s| - 1];
    assert ProcessedList(s) == ProcessedList(init) + Step(s[|s| - 1]);
    if i < |init| {
      assert init[i] == s[i];
      ProcessedListComplete(init, i);
    } else {
      assert Step(s[i]) == [Normalize(s[i])];
    }
  }

  /** A record is in the output exactly when it normalises a kept input record. */
  lemma ProcessedListMembers(s: seq<FeederRecord>, r: Record)
    ensures r in ProcessedList(s) <==> exists i :: 0 <= i < |s| && Kept(s[i]) && Normalize(s[i]) == r
  {
    if r in ProcessedList(s) {
      ProcessedListSound(s, r);
    }
    if exists i :: 0 <= i < |s| && Kept(s[i]) && Normalize(s[i]) == r {
      var i :| 0 <= i < |s| && Kept(s[i]) && Normalize(s[i]) == r;
      ProcessedListComplete(s, i);
    }
  }

  /** Every kept record is processed, each dropped record contributes nothing. */
  lemma ProcessedListSingle(a: FeederRecord)
    ensures ProcessedList([a]) == if Kept(a) then [Normalize(a)] else []
  {
    assert [a][..0] == [];
  }

  /** `_process_data(raw_data)` with the timestamp it stamps. */
  function ProcessOf(raw: RawFeed, timestamp: string): (p: Processed)
    ensures p.timestamp == timestamp
    ensures raw.Falsy? || raw.aircraft.None? ==> p.aircraft == [] && p.count.None?
    ensures raw.Truthy? && raw.aircraft.Some? ==>
      p.aircraft == ProcessedList(raw.aircraft.value) && p.count == Some(|p.aircraft|)
  {
    if raw.Falsy? || raw.aircraft.None? then Processed(timestamp, [], None)
    else
      var list := ProcessedList(raw.aircraft.value);
      Processed(timestamp, list, Some(|list|))
  }

  /** `_process_data(raw_data)`: the loop building `aircraft_list`. */
  method ProcessData(raw: RawFeed, timestamp: string) returns (p: Processed)
    ensures p == ProcessOf(raw, timestamp)
  {
    if raw.Falsy? || raw.aircraft.None? {
      return Processed(timestamp, [], None);
    }
    var records := raw.aircraft.value;
    var aircraftList: seq<Record> := [];
    var i := 0;
    while i < |records|
      invariant 0 <= i <= |records|
      invariant aircraftList == ProcessedList(records[..i])
    {
      assert records[..i + 1][..i] == records[..i];
      assert ProcessedList(records[..i + 1]) == aircraftList + Step(records[i]);
      if records[i].lat.Some? && records[i].lon.Some? {
        var processed := Normalize(records[i]);
        aircraftList := aircraftList + [processed];
      }
      i := i + 1;
    }
    assert records[..|records|] == records;
    p := Processed(timestamp, aircraftList, Some(|aircraftList|));
  }

  /** The cache is consulted again only after strictly more than `duration`
      seconds, or when it is empty. */
  predicate Stale(cache: Option<Processed>, lastUpdate: real, duration: real, now: real)
  {
    cache.None? || now - lastUpdate > duration
  }

  class DataProcessor {
    var cache: Option<Processed>
    var lastUpdate: real
    const cacheDuration: real

    constructor ()
      ensures cache == None && lastUpdate == 0.0 && cacheDuration == 5.0
    {
      cache := None;
      lastUpdate := 0.0;
      cacheDuration := 5.0;
    }

    predicate NeedsRefresh(now: real)
      reads this
    {
      Stale(cache, lastUpdate, cacheDuration, now)
    }

    /** `get_aircraft_data` at time `now`; `fetched` is what the feeder (or
        the sample-data fallback) returns if it is consulted, and `timestamp`
        the time stamp `_process_data` would write. The cache and its time
        change only on a refresh with a truthy result. */
    method GetAircraftData(now: real, fetched: RawFeed, timestamp: string) returns (result: Option<Processed>)
      modifies this
      ensures result == cache
      ensures old(NeedsRefresh(now)) && fetched.Truthy? ==>
        cache == Some(ProcessOf(fetched, timestamp)) && lastUpdate == now
      ensures !(old(NeedsRefresh(now)) && fetched.Truthy?) ==> cache == old(cache) && lastUpdate == old(lastUpdate)
    {
      if cache.None? || now - lastUpdate > cacheDuration {
        var rawData := fetched;
        if rawData.Truthy? {
          var processedData := ProcessData(rawData, timestamp);
          cache := Some(processedData);
          lastUpdate := now;
        }
      }
      result := cache;
    }
  }
}
