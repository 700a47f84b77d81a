// The dashboard controller (static/js/dashboard.js): the sidebar list, the
// statistics, the detail panel, the search box and the filter controls, all
// driven by one `AircraftMap`.

module Dashboard {
  import opened Wrappers
  import opened Strings
  import opened Snapshot
  import opened FlightMap

  // ---------------------------------------------------------------------
  // Sorting the sidebar list
  // ---------------------------------------------------------------------

  /** The sort key of the list: the trimmed callsign, or the hex code when
      there is none. */
  function DisplayKey(a: Aircraft): (k: string)
    ensures TruthyStr(a.flight) ==> k == Trim(a.flight.value)
    ensures !TruthyStr(a.flight) ==> k == a.hex
  {
    if TruthyStr(a.flight) then Trim(a.flight.value) else a.hex
  }

  predicate KeyLe(a: Aircraft, b: Aircraft)
  {
    StrLe(DisplayKey(a), DisplayKey(b))
  }

  predicate SortedByKey(s: seq<Aircraft>)
  {
    forall i, j :: 0 <= i < j < |s| ==> KeyLe(s[i], s[j])
  }

  /** Place `x` before the first element whose key is not smaller. */
  function Insert(x: Aircraft, s: seq<Aircraft>): (r: seq<Aircraft>)
    ensures multiset(r) == multiset(s) + multiset{x}
    ensures |r| == |s| + 1
    ensures r[0] == if s != [] && !KeyLe(x, s[0]) then s[0] else x
  {
    if s == [] || KeyLe(x, s[0]) then [x] + s
    else
      assert s == [s[0]] + s[1..];
      [s[0]] + Insert(x, s[1..])
  }

  /** A record whose key bounds `x` and every element of `s` from below also
      bounds every element of `Insert(x, s)`. */
  lemma InsertBounded(b: Aircraft, x: Aircraft, s: seq<Aircraft>)
    requires KeyLe(b, x) && forall k :: 0 <= k < |s| ==> KeyLe(b, s[k])
    ensures forall j :: 0 <= j < |Insert(x, s)| ==> KeyLe(b, Insert(x, s)[j])
  {
    var r := Insert(x, s);
    forall j | 0 <= j < |r|
      ensures KeyLe(b, r[j])
    {
      assert r[j] in multiset(r);
      if r[j] != x {
        assert r[j] in multiset(s);
        var k :| 0 <= k < |s| && s[k] == r[j];
      }
    }
  }

  lemma {:induction false} InsertSorted(x: Aircraft, s: seq<Aircraft>)
    requires SortedByKey(s)
    ensures SortedByKey(Insert(x, s))
  {
    if s == [] || KeyLe(x, s[0]) {
      forall k | 0 < k < |s|
        ensures KeyLe(x, s[k])
      {
        StrLeTransitive(DisplayKey(x), DisplayKey(s[0]), DisplayKey(s[k]));
      }
    } else {
      StrLeTotal(DisplayKey(x), DisplayKey(s[0]));
      InsertSorted(x, s[1..]);
      InsertBounded(s[0], x, s[1..]);
      assert Insert(x, s) == [s[0]] + Insert(x, s[1..]);
    }
  }

  /** `[...data.aircraft].sort(...)`: a stable sort by `DisplayKey`. */
  function SortByKey(s: seq<Aircraft>): (r: seq<Aircraft>)
    ensures multiset(r) == multiset(s)
    ensures |r| == |s|
    decreases |s|
  {
    if s == [] then []
    else
      assert s == [s[0]] + s[1..];
      Insert(s[0], SortByKey(s[1..]))
  }

  lemma {:induction false} SortByKeySorted(s: seq<Aircraft>)
    ensures SortedByKey(SortByKey(s))
    decreases |s|
  {
    if s != [] {
      SortByKeySorted(s[1..]);
      InsertSorted(s[0], SortByKey(s[1..]));
    }
  }

  /** `m` is the position of the earliest smallest key of `s` from index `lo` on. */
  predicate MinimalFrom(s: seq<Aircraft>, lo: nat, m: nat)
  {
    lo <= m < |s|
    && (forall i :: lo <= i < |s| ==> KeyLe(s[m], s[i]))
    && (forall i :: lo <= i < m ==> !KeyLe(s[i], s[m]))
  }

  lemma MinimalOfTail(s: seq<Aircraft>, m: nat)
    requires |s| > 1 && MinimalFrom(s[1..], 0, m)
    ensures MinimalFrom(s, 1, m + 1)
  {
    assert forall i :: 1 <= i < |s| ==> s[i] == s[1..][i - 1];
  }

  lemma MinimalKeepsHead(s: seq<Aircraft>, j: nat)
    requires MinimalFrom(s, 1, j) && KeyLe(s[0], s[j])
    ensures MinimalFrom(s, 0, 0)
  {
    forall i | 0 <= i < |s| ensures KeyLe(s[0], s[i]) {
      if i == 0 {
        StrLeTotal(DisplayKey(s[0]), DisplayKey(s[0]));
      } else {
        StrLeTransitive(DisplayKey(s[0]), DisplayKey(s[j]), DisplayKey(s[i]));
      }
    }
  }

  lemma MinimalPassesHead(s: seq<Aircraft>, j: nat)
    requires MinimalFrom(s, 1, j) && !KeyLe(s[0], s[j])
    ensures MinimalFrom(s, 0, j)
  {
    StrLeTotal(DisplayKey(s[0]), DisplayKey(s[j]));
  }

  /** The index of the first record whose key is smallest. */
  function FirstMinimal(s: seq<Aircraft>): (m: nat)
    requires s != []
    ensures m < |s|
    ensures forall i :: 0 <= i < |s| ==> KeyLe(s[m], s[i])
    ensures forall i :: 0 <= i < m ==> !KeyLe(s[i], s[m])
    decreases |s|
  {
    if |s| == 1 then
      StrLeTotal(DisplayKey(s[0]), DisplayKey(s[0]));
      0
    else
      var j := 1 + FirstMinimal(s[1..]);
      MinimalOfTail(s, j - 1);
      if KeyLe(s[0], s[j]) then
        MinimalKeepsHead(s, j);
        0
      else
        MinimalPassesHead(s, j);
        j
  }

  /** The record the list puts first — the one auto-selected when nothing is
      selected — is the earliest record among those with the smallest key. */
  lemma {:induction false} SortedHead(s: seq<Aircraft>)
    requires s != []
    ensures SortByKey(s)[0] == s[FirstMinimal(s)]
    decreases |s|
  {
    if |s| > 1 {
      SortedHead(s[1..]);
      assert s[1 + FirstMinimal(s[1..])] == s[1..][FirstMinimal(s[1..])];
    }
  }

  // ---------------------------------------------------------------------
  // The sidebar list
  // ---------------------------------------------------------------------

  /** One `.aircraft-item` element: its `data-hex`, its label, whether it has
      the `active` class and whether it is displayed. */
  datatype ListEntry = ListEntry(hex: string, callsign: string, altitude: int, active: bool, visible: bool)

  /** The callsign the list and the detail panel show. */
  function ShownCallsign(a: Aircraft): (c: string)
    ensures TruthyStr(a.flight) ==> c == Trim(a.flight.value)
    ensures !TruthyStr(a.flight) ==> c == "Unknown"
  {
    if TruthyStr(a.flight) then Trim(a.flight.value) else "Unknown"
  }

  /** The records the list skips: those without a (truthy) position are left out. */
  function Positioned(s: seq<Aircraft>): (r: seq<Aircraft>)
    ensures |r| <= |s|
    ensures forall i :: 0 <= i < |r| ==> HasPosition(r[i])
    decreases |s|
  {
    if s == [] then []
    else if HasPosition(s[|s| - 1]) then Positioned(s[..|s| - 1]) + [s[|s| - 1]]
    else Positioned(s[..|s| - 1])
  }

  /** Exactly the records with a position are listed, each as often as it occurs. */
  lemma {:induction false} PositionedCounts(s: seq<Aircraft>, a: Aircraft)
    ensures multiset(Positioned(s))[a] == if HasPosition(a) then multiset(s)[a] else 0
    decreases |s|
  {
    if s != [] {
      PositionedCounts(s[..|s| - 1], a);
      assert s == s[..|s| - 1] + [s[|s| - 1]];
    }
  }

  /** Every record the list keeps comes from the input. */
  lemma PositionedMember(s: seq<Aircraft>, a: Aircraft)
    requires a in Positioned(s)
    ensures a in s
  {
    PositionedCounts(s, a);
    assert a in multiset(Positioned(s));
  }

  /** Leaving records out keeps the others in their order, so the list of a
      sorted snapshot is sorted. */
  lemma {:induction false} PositionedKeepsSorted(s: seq<Aircraft>)
    requires SortedByKey(s)
    ensures SortedByKey(Positioned(s))
    decreases |s|
  {
    if s != [] {
      var init := s[..|s| - 1];
      var last := s[|s| - 1];
      assert SortedByKey(init) by {
        forall i, j | 0 <= i < j < |init| ensures KeyLe(init[i], init[j]) {
          assert init[i] == s[i] && init[j] == s[j];
        }
      }
      PositionedKeepsSorted(init);
      if HasPosition(last) {
        var p := Positioned(init);
        forall i | 0 <= i < |p| ensures KeyLe(p[i], last) {
          PositionedMember(init, p[i]);
          var k :| 0 <= k < |init| && init[k] == p[i];
          assert s[k] == p[i];
        }
        assert Positioned(s) == p + [last];
      }
    }
  }

  function EntryFor(a: Aircraft, selected: Option<string>): (e: ListEntry)
    ensures e.hex == a.hex && e.callsign == ShownCallsign(a) && e.altitude == a.altitude && e.visible
    ensures e.active <==> selected == Some(a.hex)
  {
    ListEntry(a.hex, ShownCallsign(a), a.altitude, selected == Some(a.hex), true)
  }

  /** The list `updateAircraftList` builds from the sorted records. */
  function Entries(s: seq<Aircraft>, selected: Option<string>): (r: seq<ListEntry>)
    ensures |r| == |s|
    ensures forall i :: 0 <= i < |s| ==> r[i] == EntryFor(s[i], selected)
  {
    seq(|s|, i requires 0 <= i < |s| => EntryFor(s[i], selected))
  }

  /** The index `querySelector` finds: the first entry with this hex. */
  function FirstIndexOf(list: seq<ListEntry>, hex: string): (r: Option<nat>)
    ensures r.Some? ==> r.value < |list| && list[r.value].hex == hex
    ensures r.Some? ==> forall j :: 0 <= j < r.value ==> list[j].hex != hex
    ensures r.None? <==> forall j :: 0 <= j < |list| ==> list[j].hex != hex
    decreases |list|
  {
    if list == [] then None
    else if list[0].hex == hex then Some(0)
    else match FirstIndexOf(list[1..], hex)
      case None => None
      case Some(k) => Some(k + 1)
  }

  /** Two lists with the same hexes in the same places find the same entry. */
  lemma {:induction false} FirstIndexOfSameHexes(l1: seq<ListEntry>, l2: seq<ListEntry>, hex: string)
    requires |l1| == |l2|
    requires forall j :: 0 <= j < |l1| ==> l1[j].hex == l2[j].hex
    ensures FirstIndexOf(l1, hex) == FirstIndexOf(l2, hex)
    decreases |l1|
  {
    if l1 != [] {
      FirstIndexOfSameHexes(l1[1..], l2[1..], hex);
    }
  }

  /** `highlightAircraftInList(hex)`: only the first entry with this hex is active. */
  predicate IsHighlighted(list: seq<ListEntry>, j: int, hex: string)
    requires 0 <= j < |list|
  {
    FirstIndexOf(list, hex) == Some(j)
  }

  // ---------------------------------------------------------------------
  // Statistics
  // ---------------------------------------------------------------------

  datatype Stats = Stats(totalAircraft: nat, maxAltitude: int, maxSpeed: int)

  /** The largest altitude, starting from 0 as `updateStatistics` does. */
  function MaxAltitude(s: seq<Aircraft>): (m: int)
    ensures m >= 0
    ensures forall i :: 0 <= i < |s| ==> s[i].altitude <= m
    ensures m == 0 || exists i :: 0 <= i < |s| && s[i].altitude == m
    decreases |s|
  {
    if s == [] then 0
    else
      var m := MaxAltitude(s[..|s| - 1]);
      assert forall i :: 0 <= i < |s| - 1 ==> s[..|s| - 1][i] == s[i];
      if s[|s| - 1].altitude > m then s[|s| - 1].altitude else m
  }

  /** The largest ground speed, starting from 0. */
  function MaxSpeed(s: seq<Aircraft>): (m: int)
    ensures m >= 0
    ensures forall i :: 0 <= i < |s| ==> s[i].speed <= m
    ensures m == 0 || exists i :: 0 <= i < |s| && s[i].speed == m
    decreases |s|
  {
    if s == [] then 0
    else
      var m := MaxSpeed(s[..|s| - 1]);
      assert forall i :: 0 <= i < |s| - 1 ==> s[..|s| - 1][i] == s[i];
      if s[|s| - 1].speed > m then s[|s| - 1].speed else m
  }

  // ---------------------------------------------------------------------
  // The detail panel
  // ---------------------------------------------------------------------

  /** What `showAircraftDetail` writes into the panel; `centerHex` is the hex
      the "Center Map" button zooms to. */
  datatype Detail = Detail(callsign: string, hexCode: string, lat: real, lon: real, altitude: int,
                           speed: int, heading: int, squawk: string, centerHex: string)

  datatype PanelContent = Initial | Details(detail: Detail) | NoResults(term: string)

  datatype Panel = Panel(visible: bool, content: PanelContent)

  /** The heading the panel shows: magnetic heading first, then track. */
  function DetailHeading(a: Aircraft): (h: int)
    ensures TruthyInt(a.heading) ==> h == a.heading.value
    ensures !TruthyInt(a.heading) && TruthyInt(a.track) ==> h == a.track.value
    ensures !TruthyInt(a.heading) && !TruthyInt(a.track) ==> h == 0
  {
    if TruthyInt(a.heading) then a.heading.value else if TruthyInt(a.track) then a.track.value else 0
  }

  /** The panel reads the heading in the opposite priority from the map's
      icon and popup, so the two agree unless both values are non-zero and differ. */
  lemma DetailHeadingAgreesWithMap(a: Aircraft)
    ensures DetailHeading(a) != TrackOrHeading(a) <==>
      (TruthyInt(a.heading) && TruthyInt(a.track) && a.heading.value != a.track.value)
  {
  }

  /** Whether the panel template can be evaluated: `toFixed` on a missing
      latitude or longitude throws. */
  predicate DetailRenders(a: Aircraft)
  {
    a.lat.Some? && a.lon.Some?
  }

  function DetailOf(a: Aircraft, hex: string): (d: Detail)
    requires DetailRenders(a)
    ensures d.callsign == ShownCallsign(a) && d.hexCode == ToUpper(a.hex)
    ensures d.lat == a.lat.value && d.lon == a.lon.value && d.altitude == a.altitude && d.speed == a.speed
    ensures d.heading == DetailHeading(a)
    ensures d.squawk == if TruthyStr(a.squawk) then a.squawk.value else "N/A"
    ensures d.centerHex == hex
  {
    Detail(ShownCallsign(a), if a.hex != [] then ToUpper(a.hex) else [], a.lat.value, a.lon.value, a.altitude, a.speed,
           DetailHeading(a), if TruthyStr(a.squawk) then a.squawk.value else "N/A", hex)
  }

  // ---------------------------------------------------------------------
  // Search
  // ---------------------------------------------------------------------

  /** The normalised search term: lower case, then trimmed. */
  function SearchTerm(term: string): (t: string)
    ensures |t| <= |term|
    ensures t == [] <==> AllWhitespace(ToLower(term))
  {
    Trim(ToLower(term))
  }

  /** Whether an aircraft matches a normalised term, by callsign or by hex. */
  predicate Matches(a: Aircraft, t: string)
  {
    Contains(if TruthyStr(a.flight) then ToLower(Trim(a.flight.value)) else "", t) || Contains(ToLower(a.hex), t)
  }

  /** A term made only of spaces survives the empty-term check, trims to
      nothing and then matches every aircraft. */
  lemma BlankTermMatchesAll(term: string, a: Aircraft)
    requires AllWhitespace(ToLower(term))
    ensures Matches(a, SearchTerm(term))
  {
    ContainsEverySlice(ToLower(a.hex), 0, 0);
    assert ToLower(a.hex)[0..0] == "";
  }

  /** An aircraft always matches its own hex code, in any letter case. */
  lemma MatchesOwnHex(a: Aircraft)
    ensures Matches(a, ToLower(a.hex))
  {
    ContainsEverySlice(ToLower(a.hex), 0, |ToLower(a.hex)|);
    assert ToLower(a.hex)[0..|ToLower(a.hex)|] == ToLower(a.hex);
  }

  /** The display of one entry after the search: matching entries are shown,
      others hidden, and entries whose aircraft is not stored are skipped. */
  function SearchedEntry(e: ListEntry, data: map<string, Aircraft>, t: string): (r: ListEntry)
    ensures r == e.(visible := r.visible)
    ensures e.hex in data ==> (r.visible <==> Matches(data[e.hex], t))
    ensures e.hex !in data ==> r == e
  {
    if e.hex in data then e.(visible := Matches(data[e.hex], t)) else e
  }

  /** An entry the search loop treats as a hit: its aircraft is stored and matches. */
  predicate StoredMatch(e: ListEntry, data: map<string, Aircraft>, t: string)
  {
    e.hex in data && Matches(data[e.hex], t)
  }

  /** The first entry that matches: the one the search selects. */
  function FirstMatch(list: seq<ListEntry>, data: map<string, Aircraft>, t: string): (r: Option<nat>)
    ensures r.Some? ==> r.value < |list| && StoredMatch(list[r.value], data, t)
    ensures r.Some? ==> forall j :: 0 <= j < r.value ==> !StoredMatch(list[j], data, t)
    ensures r.None? <==> forall j :: 0 <= j < |list| ==> !StoredMatch(list[j], data, t)
    decreases |list|
  {
    if list == [] then None
    else if StoredMatch(list[0], data, t) then Some(0)
    else
      var rest := FirstMatch(list[1..], data, t);
      assert forall j :: 1 <= j < |list| ==> list[j] == list[1..][j - 1];
      if rest.None? then None else Some(rest.value + 1)
  }

  /** Whether `showAircraftDetail(hex)` throws: the aircraft is stored but
      has no latitude or longitude to format. */
  predicate DetailThrows(data: map<string, Aircraft>, hex: string)
  {
    hex in data && !DetailRenders(data[hex])
  }

  /** The panel after `showAircraftDetail(hex)`: unchanged for an unknown
      aircraft; otherwise displayed, with the details unless the template threw. */
  function PanelAfterDetail(p: Panel, data: map<string, Aircraft>, hex: string): (r: Panel)
    ensures hex !in data ==> r == p
    ensures hex in data ==> r.visible
    ensures DetailThrows(data, hex) ==> r.content == p.content
    ensures hex in data && !DetailThrows(data, hex) ==> r.content == Details(DetailOf(data[hex], hex))
  {
    if hex !in data then p
    else if !DetailRenders(data[hex]) then p.(visible := true)
    else Panel(true, Details(DetailOf(data[hex], hex)))
  }

  /** The list after `highlightAircraftInList(hex)`. */
  function Highlight(list: seq<ListEntry>, hex: string): (r: seq<ListEntry>)
    ensures |r| == |list|
    ensures forall j :: 0 <= j < |list| ==> r[j] == list[j].(active := IsHighlighted(list, j, hex))
  {
    seq(|list|, j requires 0 <= j < |list| => list[j].(active := IsHighlighted(list, j, hex)))
  }

  /** After a highlight at most one entry is active, and one is exactly when
      the hex is listed. */
  lemma HighlightUnique(list: seq<ListEntry>, hex: string, i: int, j: int)
    requires 0 <= i < |list| && 0 <= j < |list|
    ensures Highlight(list, hex)[i].active && Highlight(list, hex)[j].active ==> i == j
    ensures (exists k :: 0 <= k < |list| && Highlight(list, hex)[k].active) <==>
            (exists k :: 0 <= k < |list| && list[k].hex == hex)
  {
    if exists k :: 0 <= k < |list| && list[k].hex == hex {
      var k :| 0 <= k < |list| && list[k].hex == hex;
      var m := FirstIndexOf(list, hex).value;
      assert Highlight(list, hex)[m].active;
    }
  }

  /** The list `updateAircraftList` rebuilds: the sorted records that have a
      position, the selected one marked active. */
  function ListFor(rows: seq<Aircraft>, selected: Option<string>): (r: seq<ListEntry>)
    ensures |r| <= |rows|
    ensures forall j :: 0 <= j < |r| ==> r[j].visible && (r[j].active <==> selected == Some(r[j].hex))
  {
    Entries(Positioned(SortByKey(rows)), selected)
  }

  /** The rebuilt list shows exactly the records with a position, each as
      often as the snapshot holds it, in display-key order, one entry each. */
  lemma ListForSpec(rows: seq<Aircraft>, selected: Option<string>)
    ensures var p := Positioned(SortByKey(rows));
      && SortedByKey(p)
      && (forall a :: multiset(p)[a] == if HasPosition(a) then multiset(rows)[a] else 0)
      && |ListFor(rows, selected)| == |p|
      && (forall j :: 0 <= j < |p| ==> ListFor(rows, selected)[j] == EntryFor(p[j], selected))
  {
    var sorted := SortByKey(rows);
    SortByKeySorted(rows);
    PositionedKeepsSorted(sorted);
    forall a ensures multiset(Positioned(sorted))[a] == if HasPosition(a) then multiset(rows)[a] else 0 {
      PositionedCounts(sorted, a);
    }
  }

  /** The list after a search for term `t` over `list` (the list before the
      search) has visited its first `n` entries, the first match highlighted
      when `highlight` names it. */
  function SearchedUpTo(list: seq<ListEntry>, data: map<string, Aircraft>, t: string, n: int,
                        highlight: Option<string>): (r: seq<ListEntry>)
    ensures |r| == |list|
    ensures forall j :: 0 <= j < |list| ==> r[j].hex == list[j].hex && r[j].callsign == list[j].callsign
                                            && r[j].altitude == list[j].altitude
    ensures forall j :: 0 <= j < |list| && j < n ==> r[j].visible == SearchedEntry(list[j], data, t).visible
    ensures forall j :: 0 <= j < |list| && n <= j ==> r[j].visible == list[j].visible
    ensures forall j :: 0 <= j < |list| ==>
      r[j].active == if highlight.Some? then IsHighlighted(list, j, highlight.value) else list[j].active
  {
    seq(|list|, j requires 0 <= j < |list| =>
      list[j].(visible := if j < n then SearchedEntry(list[j], data, t).visible else list[j].visible,
               active := if highlight.Some? then IsHighlighted(list, j, highlight.value) else list[j].active))
  }

  /** Visiting entry `n` of the search. */
  lemma SearchedStep(list: seq<ListEntry>, data: map<string, Aircraft>, t: string, n: nat, highlight: Option<string>)
    requires n < |list|
    ensures var cur := SearchedUpTo(list, data, t, n, highlight);
      SearchedUpTo(list, data, t, n + 1, highlight) == cur[n := cur[n].(visible := SearchedEntry(list[n], data, t).visible)]
  {
  }

  /** Highlighting partway through the search is the same as searching with
      the highlight. */
  lemma HighlightSearched(list: seq<ListEntry>, data: map<string, Aircraft>, t: string, n: int, hex: string)
    ensures Highlight(SearchedUpTo(list, data, t, n, None), hex) == SearchedUpTo(list, data, t, n, Some(hex))
  {
    FirstIndexOfSameHexes(SearchedUpTo(list, data, t, n, None), list, hex);
  }

  /** The first entry that matches after `i` entries without one is entry `i`. */
  lemma FirstMatchAt(list: seq<ListEntry>, data: map<string, Aircraft>, t: string, i: nat)
    requires i < |list| && StoredMatch(list[i], data, t)
    requires !(FirstMatch(list, data, t).Some? && FirstMatch(list, data, t).value < i)
    ensures FirstMatch(list, data, t) == Some(i)
  {
  }

  /** The number of entries the search visits before selecting: up to and
      including the first match. */
  function MatchEnd(list: seq<ListEntry>, data: map<string, Aircraft>, t: string): (n: nat)
    ensures n <= |list|
    ensures FirstMatch(list, data, t).Some? ==> n == FirstMatch(list, data, t).value + 1
  {
    match FirstMatch(list, data, t)
    case None => |list|
    case Some(k) => k + 1
  }

  /** The hex the search selects, if any entry matches. */
  function FirstMatchHex(list: seq<ListEntry>, data: map<string, Aircraft>, t: string): (r: Option<string>)
    ensures r.Some? <==> FirstMatch(list, data, t).Some?
    ensures r.Some? ==> r.value == list[FirstMatch(list, data, t).value].hex && r.value in data
  {
    match FirstMatch(list, data, t)
    case None => None
    case Some(k) => Some(list[k].hex)
  }

  /** A blank search (spaces only) selects the first listed aircraft that is
      still stored, and shows every such entry. */
  lemma BlankSearchSelectsFirstStored(list: seq<ListEntry>, data: map<string, Aircraft>, term: string)
    requires AllWhitespace(ToLower(term))
    ensures forall j :: 0 <= j < |list| && list[j].hex in data ==> SearchedEntry(list[j], data, SearchTerm(term)).visible
    ensures FirstMatch(list, data, SearchTerm(term)).None? <==> forall j :: 0 <= j < |list| ==> list[j].hex !in data
  {
    forall j | 0 <= j < |list| && list[j].hex in data
      ensures Matches(data[list[j].hex], SearchTerm(term))
    {
      BlankTermMatchesAll(term, data[list[j].hex]);
    }
  }

  /** What `updateAircraftList` leaves behind: the selection, the list, the
      panel, and whether the details it showed formatted without throwing. */
  datatype ListOutcome = ListOutcome(selected: Option<string>, list: seq<ListEntry>, panel: Panel, ok: bool)

  /** The selection rule of `updateAircraftList` for the snapshot `rows`, the
      map's stored table, and the selection and panel before: a stored
      selection is kept and re-shown; else a non-empty snapshot selects its
      first sorted record; else the selection stays and the list is empty. */
  function ListRebuild(rows: seq<Aircraft>, stored: map<string, Aircraft>, selected: Option<string>, panel: Panel): ListOutcome
  {
    var list := ListFor(rows, selected);
    if TruthyStr(selected) && selected.value in stored then
      ListOutcome(selected, list, PanelAfterDetail(panel, stored, selected.value), !DetailThrows(stored, selected.value))
    else if rows != [] then
      var first := SortByKey(rows)[0].hex;
      var ok := !DetailThrows(stored, first);
      ListOutcome(Some(first), if ok then Highlight(list, first) else list, PanelAfterDetail(panel, stored, first), ok)
    else
      ListOutcome(selected, [], panel, true)
  }

  /** After a rebuild that did not throw, every active entry is an entry of
      the selected aircraft, and the panel is open whenever the selection is
      stored. */
  lemma RebuildActiveIsSelected(rows: seq<Aircraft>, stored: map<string, Aircraft>, selected: Option<string>, panel: Panel)
    ensures var o := ListRebuild(rows, stored, selected, panel);
      && (o.ok ==> forall j :: 0 <= j < |o.list| && o.list[j].active ==> o.selected == Some(o.list[j].hex))
      && (o.selected.Some? && o.selected.value in stored && o.selected != selected ==> o.panel.visible)
  {
  }

  datatype FetchResult = FetchFailed | Payload(data: Option<seq<Aircraft>>)

  /** The statistics of one payload. */
  function StatsOf(rows: seq<Aircraft>): (st: Stats)
    ensures st.totalAircraft == |rows|
    ensures st.maxAltitude == MaxAltitude(rows) && st.maxSpeed == MaxSpeed(rows)
  {
    Stats(|rows|, MaxAltitude(rows), MaxSpeed(rows))
  }

  /** The options `initDashboard` passes when the page sets no `mapConfig`. */
  const PageDefaults := ConfigOptions(Some(Position(14.5, 74.0)), Some(7.0), Some(12.0), Some(5.0), None)

  /** The page defaults agree with the map's own defaults. */
  lemma PageDefaultsAreMapDefaults()
    ensures WithDefaults(PageDefaults) == DefaultConfig
  {
  }

  // ---------------------------------------------------------------------
  // The dashboard state
  // ---------------------------------------------------------------------

  class DashboardState {
    const flightMap: AircraftMap
    var selectedAircraft: Option<string>
    var stats: Stats
    var aircraftList: seq<ListEntry>
    var panel: Panel
    /** The altitude slider, its label (`None` until first written) and the paths checkbox. */
    var sliderValue: int
    var altitudeLabel: Option<int>
    var pathsChecked: bool

    ghost predicate Valid()
      reads this, flightMap
    {
      flightMap.Valid()
    }

    /** `initDashboard`: build the map from the page's configuration, or from
        the built-in one when the page sets none. */
    constructor (pageConfig: Option<ConfigOptions>, moved: (Position, Position) -> bool, slider: int, checked: bool)
      ensures Valid() && fresh(flightMap)
      ensures flightMap.config == WithDefaults(pageConfig.GetOr(PageDefaults))
      ensures flightMap.aircraftData == map[] && flightMap.filters == DefaultFilters
      ensures selectedAircraft == None && stats == Stats(0, 0, 0) && aircraftList == []
      ensures panel == Panel(false, Initial)
      ensures sliderValue == slider && altitudeLabel == None && pathsChecked == checked
    {
      flightMap := new AircraftMap(pageConfig.GetOr(PageDefaults), moved);
      selectedAircraft := None;
      stats := Stats(0, 0, 0);
      aircraftList := [];
      panel := Panel(false, Initial);
      sliderValue := slider;
      altitudeLabel := None;
      pathsChecked := checked;
    }

    /** `highlightAircraftInList(hex)`: clear every `active` class, then set it
        on the first entry with this hex. */
    method HighlightAircraftInList(hex: string)
      modifies this
      ensures aircraftList == Highlight(old(aircraftList), hex)
      ensures selectedAircraft == old(selectedAircraft) && stats == old(stats) && panel == old(panel)
      ensures sliderValue == old(sliderValue) && altitudeLabel == old(altitudeLabel) && pathsChecked == old(pathsChecked)
    {
      var i := 0;
      while i < |aircraftList|
        invariant selectedAircraft == old(selectedAircraft) && stats == old(stats) && panel == old(panel)
        invariant sliderValue == old(sliderValue) && altitudeLabel == old(altitudeLabel) && pathsChecked == old(pathsChecked)
        invariant 0 <= i <= |aircraftList| == |old(aircraftList)|
        invariant forall j :: 0 <= j < |aircraftList| ==>
          aircraftList[j] == old(aircraftList)[j].(active := if j < i then false else old(aircraftList)[j].active)
      {
        aircraftList := aircraftList[i := aircraftList[i].(active := false)];
        i := i + 1;
      }
      FirstIndexOfSameHexes(aircraftList, old(aircraftList), hex);
      var selectedItem := FirstIndexOf(aircraftList, hex);
      if selectedItem.Some? {
        var k := selectedItem.value;
        aircraftList := aircraftList[k := aircraftList[k].(active := true)];
      }
    }

    /** `showAircraftDetail(hex)`; `ok` is false when the template threw. */
    method ShowAircraftDetail(hex: string) returns (ok: bool)
      modifies this
      ensures ok <==> !DetailThrows(flightMap.aircraftData, hex)
      ensures panel == PanelAfterDetail(old(panel), flightMap.aircraftData, hex)
      ensures selectedAircraft == old(selectedAircraft) && stats == old(stats) && aircraftList == old(aircraftList)
      ensures sliderValue == old(sliderValue) && altitudeLabel == old(altitudeLabel) && pathsChecked == old(pathsChecked)
    {
      if hex !in flightMap.aircraftData {
        return true;
      }
      var aircraft := flightMap.aircraftData[hex];
      panel := panel.(visible := true);
      if aircraft.lat.None? || aircraft.lon.None? {
        return false;
      }
      panel := panel.(content := Details(DetailOf(aircraft, hex)));
      ok := true;
    }

    /** `handleAircraftClick(hex)`, from a marker or a list entry: select,
        show the details, highlight; `ok` is false when the details threw,
        which also skips the highlight. */
    method HandleAircraftClick(hex: string) returns (ok: bool)
      modifies this
      ensures ok <==> !DetailThrows(flightMap.aircraftData, hex)
      ensures selectedAircraft == Some(hex)
      ensures panel == PanelAfterDetail(old(panel), flightMap.aircraftData, hex)
      ensures aircraftList == if ok then Highlight(old(aircraftList), hex) else old(aircraftList)
      ensures stats == old(stats)
      ensures sliderValue == old(sliderValue) && altitudeLabel == old(altitudeLabel) && pathsChecked == old(pathsChecked)
    {
      selectedAircraft := Some(hex);
      ok := ShowAircraftDetail(hex);
      if ok {
        HighlightAircraftInList(hex);
      }
    }

    /** The "Center Map" button of the detail panel. */
    function CenterMapTarget(currentZoom: real): (v: ViewChange)
      reads this, flightMap
      ensures !panel.content.Details? ==> v == NoChange
      ensures panel.content.Details? ==> v == flightMap.ZoomToAircraftTarget(panel.content.detail.centerHex, currentZoom)
    {
      if panel.content.Details? then flightMap.ZoomToAircraftTarget(panel.content.detail.centerHex, currentZoom)
      else NoChange
    }

    /** `updateStatistics(data)`. */
    method UpdateStatistics(data: Option<seq<Aircraft>>)
      modifies this
      ensures data.None? ==> stats == old(stats)
      ensures data.Some? ==> stats == StatsOf(data.value)
      ensures selectedAircraft == old(selectedAircraft) && aircraftList == old(aircraftList) && panel == old(panel)
      ensures sliderValue == old(sliderValue) && altitudeLabel == old(altitudeLabel) && pathsChecked == old(pathsChecked)
    {
      if data.None? {
        return;
      }
      var rows := data.value;
      var maxAltitude := 0;
      var maxSpeed := 0;
      var i := 0;
      while i < |rows|
        invariant 0 <= i <= |rows|
        invariant maxAltitude == MaxAltitude(rows[..i]) && maxSpeed == MaxSpeed(rows[..i])
      {
        assert rows[..i + 1][..i] == rows[..i];
        if rows[i].altitude > maxAltitude {
          maxAltitude := rows[i].altitude;
        }
        if rows[i].speed > maxSpeed {
          maxSpeed := rows[i].speed;
        }
        i := i + 1;
      }
      assert rows[..|rows|] == rows;
      stats := Stats(|rows|, maxAltitude, maxSpeed);
    }
    /** The loop of `updateAircraftList` that appends one entry per sorted
        record with a position. */
    method BuildList(sorted: seq<Aircraft>)
      modifies this
      ensures aircraftList == Entries(Positioned(sorted), selectedAircraft)
      ensures selectedAircraft == old(selectedAircraft) && stats == old(stats) && panel == old(panel)
      ensures sliderValue == old(sliderValue) && altitudeLabel == old(altitudeLabel) && pathsChecked == old(pathsChecked)
    {
      aircraftList := [];
      var i := 0;
      while i < |sorted|
        invariant selectedAircraft == old(selectedAircraft) && stats == old(stats) && panel == old(panel)
        invariant sliderValue == old(sliderValue) && altitudeLabel == old(altitudeLabel) && pathsChecked == old(pathsChecked)
        invariant 0 <= i <= |sorted|
        invariant aircraftList == Entries(Positioned(sorted[..i]), selectedAircraft)
      {
        assert sorted[..i + 1][..i] == sorted[..i];
        if HasPosition(sorted[i]) {
          aircraftList := aircraftList + [EntryFor(sorted[i], selectedAircraft)];
          assert aircraftList == Entries(Positioned(sorted[..i + 1]), selectedAircraft);
        }
        i := i + 1;
      }
      assert sorted[..|sorted|] == sorted;
    }

    /** `updateAircraftList(data)`: rebuild the list, then refresh the details
        of the selected aircraft if it is still stored by the map, or else
        select the first sorted record, with or without a position. `ok` is
        false when the details threw. */
    method UpdateAircraftList(data: Option<seq<Aircraft>>) returns (ok: bool)
      modifies this
      ensures data.None? ==> ok && unchanged(this)
      ensures data.Some? ==>
        ListOutcome(selectedAircraft, aircraftList, panel, ok) ==
          ListRebuild(data.value, flightMap.aircraftData, old(selectedAircraft), old(panel))
      ensures stats == old(stats)
      ensures sliderValue == old(sliderValue) && altitudeLabel == old(altitudeLabel) && pathsChecked == old(pathsChecked)
    {
      if data.None? {
        return true;
      }
      var sortedAircraft := SortByKey(data.value);
      BuildList(sortedAircraft);
      if TruthyStr(selectedAircraft) && selectedAircraft.value in flightMap.aircraftData {
        ok := ShowAircraftDetail(selectedAircraft.value);
      } else if |sortedAircraft| > 0 {
        ok := HandleAircraftClick(sortedAircraft[0].hex);
      } else {
        ok := true;
      }
    }

    /** One entry of the search loop. */
    method VisitForSearch(i: nat, t: string, foundMatch: bool, ghost list0: seq<ListEntry>, ghost hit: Option<string>)
      returns (found: bool, ok: bool)
      requires i < |aircraftList| == |list0|
      requires hit == FirstMatchHex(list0, flightMap.aircraftData, t)
      requires foundMatch <==> FirstMatch(list0, flightMap.aircraftData, t).Some? && FirstMatch(list0, flightMap.aircraftData, t).value < i
      requires foundMatch ==> !DetailThrows(flightMap.aircraftData, hit.value)
      requires aircraftList == SearchedUpTo(list0, flightMap.aircraftData, t, i, if foundMatch then hit else None)
      modifies this
      ensures found <==> FirstMatch(list0, flightMap.aircraftData, t).Some? && FirstMatch(list0, flightMap.aircraftData, t).value < i + 1
      ensures found ==> (ok <==> !DetailThrows(flightMap.aircraftData, hit.value))
      ensures !found ==> ok
      ensures !ok ==> i + 1 == MatchEnd(list0, flightMap.aircraftData, t)
      ensures aircraftList == SearchedUpTo(list0, flightMap.aircraftData, t, i + 1, if found && ok then hit else None)
      ensures found && !foundMatch ==> selectedAircraft == hit && panel == PanelAfterDetail(old(panel), flightMap.aircraftData, hit.value)
      ensures !(found && !foundMatch) ==> selectedAircraft == old(selectedAircraft) && panel == old(panel)
      ensures stats == old(stats)
      ensures sliderValue == old(sliderValue) && altitudeLabel == old(altitudeLabel) && pathsChecked == old(pathsChecked)
    {
      ghost var stored := flightMap.aircraftData;
      SearchedStep(list0, stored, t, i, if foundMatch then hit else None);
      found, ok := foundMatch, true;
      var hex := aircraftList[i].hex;
      if hex in flightMap.aircraftData {
        var aircraft := flightMap.aircraftData[hex];
        var callsign := if TruthyStr(aircraft.flight) then ToLower(Trim(aircraft.flight.value)) else "";
        var hexCode := ToLower(aircraft.hex);
        if Contains(callsign, t) || Contains(hexCode, t) {
          aircraftList := aircraftList[i := aircraftList[i].(visible := true)];
          if !foundMatch {
            FirstMatchAt(list0, stored, t, i);
            HighlightSearched(list0, stored, t, i + 1, hex);
            ok := HandleAircraftClick(hex);
            found := true;
          }
        } else {
          aircraftList := aircraftList[i := aircraftList[i].(visible := false)];
        }
      }
    }

    /** `performSearch(searchTerm)`: show the entries whose stored aircraft
        matches by callsign or hex and hide the others, select the first
        match, or report that nothing matched. `ok` is false when selecting
        the first match threw, which ends the loop there. */
    method PerformSearch(term: string) returns (ok: bool)
      modifies this
      ensures term == [] ==> ok && unchanged(this)
      ensures term != [] ==>
        var t := SearchTerm(term);
        var stored := flightMap.aircraftData;
        var hit := FirstMatchHex(old(aircraftList), stored, t);
        && (ok <==> !(hit.Some? && DetailThrows(stored, hit.value)))
        && aircraftList == (if ok then SearchedUpTo(old(aircraftList), stored, t, |old(aircraftList)|, hit)
                            else SearchedUpTo(old(aircraftList), stored, t, MatchEnd(old(aircraftList), stored, t), None))
        && (hit.None? ==> selectedAircraft == old(selectedAircraft) && panel == Panel(true, NoResults(t)))
        && (hit.Some? ==> selectedAircraft == hit && panel == PanelAfterDetail(old(panel), stored, hit.value))
      ensures stats == old(stats)
      ensures sliderValue == old(sliderValue) && altitudeLabel == old(altitudeLabel) && pathsChecked == old(pathsChecked)
    {
      if term == [] {
        return true;
      }
      var t := SearchTerm(term);
      var foundMatch;
      foundMatch, ok := SearchEntries(t);
      if ok && !foundMatch {
        panel := Panel(true, NoResults(t));
      }
    }

    /** The loop of `performSearch` over the list entries for the normalised term `t`. */
    method SearchEntries(t: string) returns (foundMatch: bool, ok: bool)
      modifies this
      ensures var stored := flightMap.aircraftData;
        var hit := FirstMatchHex(old(aircraftList), stored, t);
        && (foundMatch <==> hit.Some?)
        && (ok <==> !(hit.Some? && DetailThrows(stored, hit.value)))
        && aircraftList == (if ok then SearchedUpTo(old(aircraftList), stored, t, |old(aircraftList)|, hit)
                            else SearchedUpTo(old(aircraftList), stored, t, MatchEnd(old(aircraftList), stored, t), None))
        && (hit.None? ==> selectedAircraft == old(selectedAircraft) && panel == old(panel))
        && (hit.Some? ==> selectedAircraft == hit && panel == PanelAfterDetail(old(panel), stored, hit.value))
      ensures stats == old(stats)
      ensures sliderValue == old(sliderValue) && altitudeLabel == old(altitudeLabel) && pathsChecked == old(pathsChecked)
    {
      ghost var list0 := aircraftList;
      ghost var stored := flightMap.aircraftData;
      ghost var hit := FirstMatchHex(list0, stored, t);
      foundMatch := false;
      ok := true;
      var i := 0;
      while i < |aircraftList| && ok
        invariant flightMap.aircraftData == stored
        invariant stats == old(stats)
        invariant sliderValue == old(sliderValue) && altitudeLabel == old(altitudeLabel) && pathsChecked == old(pathsChecked)
        invariant 0 <= i <= |aircraftList| == |list0|
        invariant foundMatch <==> FirstMatch(list0, stored, t).Some? && FirstMatch(list0, stored, t).value < i
        invariant foundMatch ==> (ok <==> !DetailThrows(stored, hit.value))
        invariant !ok ==> foundMatch && i == MatchEnd(list0, stored, t)
        invariant aircraftList == SearchedUpTo(list0, stored, t, i, if foundMatch && ok then hit else None)
        invariant !foundMatch ==> selectedAircraft == old(selectedAircraft) && panel == old(panel)
        invariant foundMatch ==> selectedAircraft == hit && panel == PanelAfterDetail(old(panel), stored, hit.value)
      {
        foundMatch, ok := VisitForSearch(i, t, foundMatch, list0, hit);
        i := i + 1;
      }
    }

    /** The altitude slider's `input` event with its parsed value. */
    method OnAltitudeInput(minAltitude: int)
      requires Valid()
      modifies this, flightMap
      ensures Valid()
      ensures sliderValue == minAltitude && altitudeLabel == Some(minAltitude)
      ensures flightMap.filters == old(flightMap.filters).(minAltitude := minAltitude)
      ensures flightMap.aircraftData == old(flightMap.aircraftData)
      ensures flightMap.Drawn() ==
        Reconcile(old(flightMap.Drawn()).(paths := WithVisibility(old(flightMap.flightPaths), flightMap.filters.showPaths)),
                  flightMap.aircraftData, flightMap.filters, true, flightMap.moved)
      ensures flightMap.isZooming == old(flightMap.isZooming) && flightMap.zoomTimeout == old(flightMap.zoomTimeout)
      ensures flightMap.pendingTimers == old(flightMap.pendingTimers) && flightMap.nextTimerId == old(flightMap.nextTimerId)
      ensures selectedAircraft == old(selectedAircraft) && stats == old(stats) && aircraftList == old(aircraftList)
      ensures panel == old(panel) && pathsChecked == old(pathsChecked)
    {
      sliderValue := minAltitude;
      altitudeLabel := Some(minAltitude);
      flightMap.SetFilters(FilterUpdate(Some(minAltitude), None, None));
    }

    /** The paths checkbox's `change` event. */
    method OnShowPathsChange(checked: bool)
      requires Valid()
      modifies this, flightMap
      ensures Valid()
      ensures pathsChecked == checked
      ensures flightMap.filters == old(flightMap.filters).(showPaths := checked)
      ensures flightMap.aircraftData == old(flightMap.aircraftData)
      ensures flightMap.Drawn() ==
        Reconcile(old(flightMap.Drawn()).(paths := WithVisibility(old(flightMap.flightPaths), flightMap.filters.showPaths)),
                  flightMap.aircraftData, flightMap.filters, true, flightMap.moved)
      ensures flightMap.isZooming == old(flightMap.isZooming) && flightMap.zoomTimeout == old(flightMap.zoomTimeout)
      ensures flightMap.pendingTimers == old(flightMap.pendingTimers) && flightMap.nextTimerId == old(flightMap.nextTimerId)
      ensures forall h :: h in flightMap.flightPaths ==> flightMap.flightPaths[h].onMap == checked
      ensures selectedAircraft == old(selectedAircraft) && stats == old(stats) && aircraftList == old(aircraftList)
      ensures panel == old(panel) && sliderValue == old(sliderValue) && altitudeLabel == old(altitudeLabel)
    {
      pathsChecked := checked;
      flightMap.SetFilters(FilterUpdate(None, None, Some(checked)));
    }

    /** `resetAllFilters()`: slider back to 0, checkbox off, and the map's
        minimum altitude and paths reset (its maximum altitude is kept). */
    method ResetAllFilters()
      requires Valid()
      modifies this, flightMap
      ensures Valid()
      ensures sliderValue == 0 && altitudeLabel == Some(0) && !pathsChecked
      ensures flightMap.filters == Filters(0, old(flightMap.filters).maxAltitude, false)
      ensures flightMap.aircraftData == old(flightMap.aircraftData)
      ensures flightMap.Drawn() ==
        Reconcile(old(flightMap.Drawn()).(paths := WithVisibility(old(flightMap.flightPaths), flightMap.filters.showPaths)),
                  flightMap.aircraftData, flightMap.filters, true, flightMap.moved)
      ensures flightMap.isZooming == old(flightMap.isZooming) && flightMap.zoomTimeout == old(flightMap.zoomTimeout)
      ensures flightMap.pendingTimers == old(flightMap.pendingTimers) && flightMap.nextTimerId == old(flightMap.nextTimerId)
      ensures selectedAircraft == old(selectedAircraft) && stats == old(stats) && aircraftList == old(aircraftList)
      ensures panel == old(panel)
    {
      sliderValue := 0;
      altitudeLabel := Some(0);
      pathsChecked := false;
      flightMap.SetFilters(FilterUpdate(Some(0), None, Some(false)));
    }

    /** One completed `refreshData()`: hand the payload to the map, rebuild the
        list, then the statistics. `threw` reports the exception its `catch`
        logs: the details of the selected, or auto-selected, aircraft have no
        coordinates, and the statistics are then left as they were. */
    method OnRefreshData(fetch: FetchResult) returns (threw: bool)
      requires Valid()
      modifies this, flightMap
      ensures Valid()
      ensures fetch.FetchFailed? ==> !threw && unchanged(this) && unchanged(flightMap)
      ensures fetch.Payload? && !old(flightMap.isZooming) ==> flightMap.aircraftData == Table(fetch.data.GetOr([]))
      ensures fetch.Payload? && old(flightMap.isZooming) ==> unchanged(flightMap)
      ensures fetch.Payload? && !old(flightMap.isZooming) ==>
        flightMap.Drawn() ==
          Reconcile(old(flightMap.Drawn()).(paths := ExtendPaths(old(flightMap.flightPaths), PreviousPositions(old(flightMap.aircraftData)),
                                                                 flightMap.filters.showPaths, fetch.data.GetOr([]))),
                    flightMap.aircraftData, flightMap.filters, false, flightMap.moved)
      ensures fetch.Payload? && fetch.data.Some? ==>
        ListOutcome(selectedAircraft, aircraftList, panel, !threw) ==
          ListRebuild(fetch.data.value, flightMap.aircraftData, old(selectedAircraft), old(panel))
      ensures fetch.Payload? && fetch.data.None? ==>
        !threw && selectedAircraft == old(selectedAircraft) && aircraftList == old(aircraftList) && panel == old(panel)
      ensures fetch.Payload? ==>
        var stored := flightMap.aircraftData;
        var selected := old(selectedAircraft);
        threw <==>
          && fetch.data.Some?
          && if TruthyStr(selected) && selected.value in stored then DetailThrows(stored, selected.value)
             else fetch.data.value != [] && DetailThrows(stored, SortByKey(fetch.data.value)[0].hex)
      ensures stats == if fetch.Payload? && fetch.data.Some? && !threw then StatsOf(fetch.data.value) else old(stats)
      ensures sliderValue == old(sliderValue) && altitudeLabel == old(altitudeLabel) && pathsChecked == old(pathsChecked)
    {
      if fetch.FetchFailed? {
        return false;
      }
      flightMap.UpdateAircraftData(fetch.data);
      var ok := UpdateAircraftList(fetch.data);
      if ok {
        UpdateStatistics(fetch.data);
      }
      threw := !ok;
    }
  }
}
