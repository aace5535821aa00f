/** `aggregate` (bms1.py:207-274): per-venue parse results and venue metadata to a
    per-movie summary and a flat list of detailed records. */
module Aggregate {
  import opened Util
  import opened Dict
  import opened Payload

  /** City and state of a venue in the external catalogue (`venues1.json`). */
  datatype VenueMeta = VenueMeta(city: Option<string>, state: Option<string>)

  type VenueCatalog = map<string, VenueMeta>

  /** The run's store: venue code to its parse result, in insertion order. */
  type VenueData = Dict<string, MovieGroups>

  /** `venues_meta.get(vcode, {}).get("City", "Unknown")` (bms1.py:212-213). */
  function CityOf(meta: VenueCatalog, vcode: string): (r: string)
    ensures vcode !in meta ==> r == "Unknown"
    ensures vcode in meta ==> r == (if meta[vcode].city.Some? then meta[vcode].city.value else "Unknown")
  {
    if vcode in meta then meta[vcode].city.GetOr("Unknown") else "Unknown"
  }

  /** `venues_meta.get(vcode, {}).get("State", "Unknown")` (bms1.py:212, 214). */
  function StateOf(meta: VenueCatalog, vcode: string): (r: string)
    ensures vcode !in meta ==> r == "Unknown"
    ensures vcode in meta ==> r == (if meta[vcode].state.Some? then meta[vcode].state.value else "Unknown")
  {
    if vcode in meta then meta[vcode].state.GetOr("Unknown") else "Unknown"
  }

  /** Occupancy in percent, 0 for a show without seats (bms1.py:229). Exact: the
      source's floating point and rounding are not modelled. */
  function Occupancy(sold: int, total: int): (o: real)
    ensures total == 0 ==> o == 0.0
    ensures total != 0 ==> o * (total as real) == (100 * sold) as real
  {
    if total == 0 then 0.0 else (sold as real) / (total as real) * 100.0
  }

  /** Checked first: occupancy of at least 98 (bms1.py:236). */
  predicate IsHousefull(sold: int, total: int) {
    Occupancy(sold, total) >= 98.0
  }

  /** Checked second: not housefull and occupancy of at least 50 (bms1.py:238). */
  predicate IsFastfilling(sold: int, total: int) {
    !IsHousefull(sold, total) && Occupancy(sold, total) >= 50.0
  }

  /** A show of a movie at a venue, in the order the aggregation visits them. */
  datatype Entry = Entry(vcode: string, movie: string, rec: ShowRecord)

  /** A movie's group at a venue (one `for movie, shows` iteration). */
  datatype Slot = Slot(vcode: string, movie: string)

  function GroupEntries(vcode: string, movie: string, shows: seq<ShowRecord>): seq<Entry>
  {
    seq(|shows|, i requires 0 <= i < |shows| => Entry(vcode, movie, shows[i]))
  }

  function VenueEntries(vcode: string, groups: MovieGroups): seq<Entry> {
    if groups == [] then []
    else
      var g := groups[|groups| - 1];
      VenueEntries(vcode, groups[..|groups| - 1]) + GroupEntries(vcode, g.0, g.1)
  }

  /** All shows in venue, then movie, then show order. */
  function Entries(data: VenueData): seq<Entry> {
    if data == [] then []
    else
      var v := data[|data| - 1];
      Entries(data[..|data| - 1]) + VenueEntries(v.0, v.1)
  }

  function VenueSlots(vcode: string, groups: MovieGroups): seq<Slot>
  {
    seq(|groups|, i requires 0 <= i < |groups| => Slot(vcode, groups[i].0))
  }

  /** All (venue, movie) groups, in visiting order. */
  function Slots(data: VenueData): seq<Slot> {
    if data == [] then []
    else
      var v := data[|data| - 1];
      Slots(data[..|data| - 1]) + VenueSlots(v.0, v.1)
  }

  /** One element of the detailed output (bms1.py:241-257). */
  datatype DetailedRecord = DetailedRecord(
    movie: string,
    city: string,
    state: string,
    venue: string,
    address: string,
    time: Option<string>,
    audi: string,
    sessionId: Option<string>,
    totalSeats: int,
    available: int,
    sold: int,
    gross: int,
    occupancy: real,
    source: string,
    date: string)

  /** The fixed source tag of every detailed record. */
  const SourceTag := "BMS"

  /** The detailed record of one visited show: the show's fields, its venue's city and
      state, its own occupancy, the source tag and the target date. */
  function Detail(meta: VenueCatalog, target: string, e: Entry): (r: DetailedRecord)
    ensures r.movie == e.movie && r.city == CityOf(meta, e.vcode) && r.state == StateOf(meta, e.vcode)
    ensures r.venue == e.rec.venue && r.address == e.rec.address && r.time == e.rec.time
    ensures r.audi == e.rec.audi && r.sessionId == e.rec.sessionId
    ensures r.totalSeats == e.rec.total && r.available == e.rec.available
    ensures r.sold == e.rec.sold && r.gross == e.rec.gross
    ensures r.occupancy == Occupancy(r.sold, r.totalSeats)
    ensures r.source == "BMS" && r.date == target
  {
    DetailedRecord(e.movie, CityOf(meta, e.vcode), StateOf(meta, e.vcode), e.rec.venue,
                   e.rec.address, e.rec.time, e.rec.audi, e.rec.sessionId, e.rec.total,
                   e.rec.available, e.rec.sold, e.rec.gross, Occupancy(e.rec.sold, e.rec.total),
                   SourceTag, target)
  }

  function Rows(meta: VenueCatalog, target: string, es: seq<Entry>): (r: seq<DetailedRecord>)
    ensures |r| == |es|
    ensures forall i :: 0 <= i < |es| ==> r[i] == Detail(meta, target, es[i])
  {
    if es == [] then [] else Rows(meta, target, es[..|es| - 1]) + [Detail(meta, target, es[|es| - 1])]
  }

  /** The detailed output: one record per show, venue then movie then show. */
  function DetailedOf(data: VenueData, meta: VenueCatalog, target: string): seq<DetailedRecord> {
    Rows(meta, target, Entries(data))
  }

  /** The per-movie counters of the summary. */
  datatype Counters = Counters(shows: nat, gross: int, sold: int, totalSeats: int, fastfilling: nat, housefull: nat)

  const NoShows := Counters(0, 0, 0, 0, 0, 0)

  /** The per-show update (bms1.py:231-239). */
  function Bump(c: Counters, r: ShowRecord): Counters {
    Counters(c.shows + 1, c.gross + r.gross, c.sold + r.sold, c.totalSeats + r.total,
             c.fastfilling + (if IsFastfilling(r.sold, r.total) then 1 else 0),
             c.housefull + (if IsHousefull(r.sold, r.total) then 1 else 0))
  }

  /** Counters of movie `m` over the entries `es`. */
  function CountersOf(es: seq<Entry>, m: string): Counters {
    if es == [] then NoShows
    else
      var e := es[|es| - 1];
      var c := CountersOf(es[..|es| - 1], m);
      if e.movie == m then Bump(c, e.rec) else c
  }

  function MoviesOf(slots: seq<Slot>): set<string> {
    set s | s in slots :: s.movie
  }

  function VenuesOf(slots: seq<Slot>, m: string): set<string> {
    set s | s in slots && s.movie == m :: s.vcode
  }

  function CitiesOf(slots: seq<Slot>, meta: VenueCatalog, m: string): set<string> {
    set s | s in slots && s.movie == m :: CityOf(meta, s.vcode)
  }

  /** A summary entry while the aggregation runs (bms1.py:217-221). */
  datatype MovieAcc = MovieAcc(counters: Counters, venues: set<string>, cities: set<string>)

  const NewAcc := MovieAcc(NoShows, {}, {})

  /** The accumulating summary after visiting the groups `slots` and the shows `es`. */
  function AccTable(slots: seq<Slot>, es: seq<Entry>, meta: VenueCatalog): map<string, MovieAcc> {
    map m | m in MoviesOf(slots) :: MovieAcc(CountersOf(es, m), VenuesOf(slots, m), CitiesOf(slots, meta, m))
  }

  /** Every visited show belongs to a movie whose group has been visited. */
  predicate Covered(slots: seq<Slot>, es: seq<Entry>) {
    forall e :: e in es ==> e.movie in MoviesOf(slots)
  }

  /** One entry of the final summary (bms1.py:260-270). */
  datatype MovieSummary = MovieSummary(
    shows: nat,
    gross: int,
    sold: int,
    totalSeats: int,
    venues: nat,
    cities: nat,
    fastfilling: nat,
    housefull: nat,
    occupancy: real)

  /** Counters copied, venue and city sets replaced by their sizes, occupancy over the
      sums. */
  function Finalize(a: MovieAcc): (s: MovieSummary)
    ensures s.shows == a.counters.shows && s.gross == a.counters.gross
    ensures s.sold == a.counters.sold && s.totalSeats == a.counters.totalSeats
    ensures s.venues == |a.venues| && s.cities == |a.cities|
    ensures s.fastfilling == a.counters.fastfilling && s.housefull == a.counters.housefull
    ensures s.occupancy == Occupancy(s.sold, s.totalSeats)
  {
    MovieSummary(a.counters.shows, a.counters.gross, a.counters.sold, a.counters.totalSeats,
                 |a.venues|, |a.cities|, a.counters.fastfilling, a.counters.housefull,
                 Occupancy(a.counters.sold, a.counters.totalSeats))
  }

  /** The final dict comprehension (bms1.py:259-272). */
  function FinalizeAll(acc: map<string, MovieAcc>): map<string, MovieSummary> {
    map k | k in acc :: Finalize(acc[k])
  }

  /** The summary output. */
  function SummaryOf(data: VenueData, meta: VenueCatalog): map<string, MovieSummary> {
    FinalizeAll(AccTable(Slots(data), Entries(data), meta))
  }

  // ---------------------------------------------------------------------------
  // Step lemmas for the accumulating loops.

  lemma CountersOfSnoc(es: seq<Entry>, e: Entry, m: string)
    ensures CountersOf(es + [e], m) == if e.movie == m then Bump(CountersOf(es, m), e.rec) else CountersOf(es, m)
  {
    assert (es + [e])[..|es|] == es;
  }

  lemma RowsSnoc(meta: VenueCatalog, target: string, es: seq<Entry>, e: Entry)
    ensures Rows(meta, target, es + [e]) == Rows(meta, target, es) + [Detail(meta, target, e)]
  {
    assert (es + [e])[..|es|] == es;
  }

  /** A movie with no visited show has all counters at zero. */
  lemma {:induction false} CountersOfAbsent(es: seq<Entry>, m: string)
    requires forall e :: e in es ==> e.movie != m
    ensures CountersOf(es, m) == NoShows
  {
    if es != [] {
      CountersOfAbsent(es[..|es| - 1], m);
    }
  }

  lemma SlotSetsSnoc(slots: seq<Slot>, meta: VenueCatalog, s: Slot, m: string)
    ensures MoviesOf(slots + [s]) == MoviesOf(slots) + {s.movie}
    ensures VenuesOf(slots + [s], m) == VenuesOf(slots, m) + (if s.movie == m then {s.vcode} else {})
    ensures CitiesOf(slots + [s], meta, m) == CitiesOf(slots, meta, m) + (if s.movie == m then {CityOf(meta, s.vcode)} else {})
  {
  }

  lemma SlotSetsAbsent(slots: seq<Slot>, meta: VenueCatalog, m: string)
    requires m !in MoviesOf(slots)
    ensures VenuesOf(slots, m) == {} && CitiesOf(slots, meta, m) == {}
  {
  }

  /** Visiting a movie's group at a venue: `setdefault`, then adding the venue code and
      its city (bms1.py:217-224). */
  lemma AccTableSlot(slots: seq<Slot>, es: seq<Entry>, meta: VenueCatalog, s: Slot)
    requires Covered(slots, es)
    ensures Covered(slots + [s], es)
    ensures var t := AccTable(slots, es, meta);
            var a := if s.movie in t then t[s.movie] else NewAcc;
            AccTable(slots + [s], es, meta)
              == t[s.movie := a.(venues := a.venues + {s.vcode}, cities := a.cities + {CityOf(meta, s.vcode)})]
  {
    var t := AccTable(slots, es, meta);
    var a := if s.movie in t then t[s.movie] else NewAcc;
    var t' := AccTable(slots + [s], es, meta);
    var u := t[s.movie := a.(venues := a.venues + {s.vcode}, cities := a.cities + {CityOf(meta, s.vcode)})];
    forall m ensures (m in t' <==> m in u) && (m in t' ==> t'[m] == u[m]) {
      AccTableSlotAt(slots, es, meta, s, m);
    }
    assert t'.Keys == u.Keys;
  }

  /** `AccTableSlot` for one movie. */
  lemma AccTableSlotAt(slots: seq<Slot>, es: seq<Entry>, meta: VenueCatalog, s: Slot, m: string)
    requires Covered(slots, es)
    ensures var t := AccTable(slots, es, meta);
            var a := if s.movie in t then t[s.movie] else NewAcc;
            var t' := AccTable(slots + [s], es, meta);
            var u := t[s.movie := a.(venues := a.venues + {s.vcode}, cities := a.cities + {CityOf(meta, s.vcode)})];
            (m in t' <==> m in u) && (m in t' ==> t'[m] == u[m])
  {
    SlotSetsSnoc(slots, meta, s, m);
    if m == s.movie && s.movie !in MoviesOf(slots) {
      CountersOfAbsent(es, s.movie);
      SlotSetsAbsent(slots, meta, s.movie);
    }
  }

  /** Visiting one show of a movie whose group has been visited (bms1.py:226-257). */
  lemma AccTableEntry(slots: seq<Slot>, es: seq<Entry>, meta: VenueCatalog, e: Entry)
    requires Covered(slots, es) && e.movie in MoviesOf(slots)
    ensures Covered(slots, es + [e])
    ensures var t := AccTable(slots, es, meta);
            AccTable(slots, es + [e], meta)
              == t[e.movie := t[e.movie].(counters := Bump(t[e.movie].counters, e.rec))]
  {
    var t := AccTable(slots, es, meta);
    var t' := AccTable(slots, es + [e], meta);
    var u := t[e.movie := t[e.movie].(counters := Bump(t[e.movie].counters, e.rec))];
    forall m | m in t' ensures t'[m] == u[m] {
      CountersOfSnoc(es, e, m);
    }
  }

  lemma GroupEntriesSnoc(vcode: string, movie: string, shows: seq<ShowRecord>, k: nat)
    requires k < |shows|
    ensures GroupEntries(vcode, movie, shows[..k + 1])
         == GroupEntries(vcode, movie, shows[..k]) + [Entry(vcode, movie, shows[k])]
  {
  }

  lemma VenueSnoc(vcode: string, groups: MovieGroups, j: nat)
    requires j < |groups|
    ensures VenueEntries(vcode, groups[..j + 1])
         == VenueEntries(vcode, groups[..j]) + GroupEntries(vcode, groups[j].0, groups[j].1)
    ensures VenueSlots(vcode, groups[..j + 1]) == VenueSlots(vcode, groups[..j]) + [Slot(vcode, groups[j].0)]
  {
    assert groups[..j + 1][..j] == groups[..j];
  }

  lemma DataSnoc(data: VenueData, i: nat)
    requires i < |data|
    ensures Entries(data[..i + 1]) == Entries(data[..i]) + VenueEntries(data[i].0, data[i].1)
    ensures Slots(data[..i + 1]) == Slots(data[..i]) + VenueSlots(data[i].0, data[i].1)
  {
    assert data[..i + 1][..i] == data[..i];
  }

  // ---------------------------------------------------------------------------
  // The aggregation loops.

  /** One iteration of the show loop keeps the summary and the detailed list in step with
      the visited shows. */
  lemma ShowStep(meta: VenueCatalog, target: string, slots: seq<Slot>, visited: seq<Entry>, e: Entry,
                 acc: map<string, MovieAcc>, detailed: seq<DetailedRecord>, c: Counters, row: DetailedRecord)
    requires acc == AccTable(slots, visited, meta) && Covered(slots, visited) && e.movie in MoviesOf(slots)
    requires detailed == Rows(meta, target, visited)
    requires c == Bump(acc[e.movie].counters, e.rec) && row == Detail(meta, target, e)
    ensures acc[e.movie := acc[e.movie].(counters := c)] == AccTable(slots, visited + [e], meta)
    ensures Covered(slots, visited + [e])
    ensures detailed + [row] == Rows(meta, target, visited + [e])
  {
    AccTableEntry(slots, visited, meta, e);
    RowsSnoc(meta, target, visited, e);
  }

  /** The counter updates of one show (bms1.py:231-239): the show, its gross, sold and
      total seats are added, then at most one of housefull (checked first) and fastfilling
      is incremented. */
  method CountShow(c0: Counters, sold: int, total: int, gross: int) returns (c: Counters)
    ensures c.shows == c0.shows + 1 && c.gross == c0.gross + gross
    ensures c.sold == c0.sold + sold && c.totalSeats == c0.totalSeats + total
    ensures c.housefull == c0.housefull + (if IsHousefull(sold, total) then 1 else 0)
    ensures c.fastfilling == c0.fastfilling + (if IsFastfilling(sold, total) then 1 else 0)
    ensures forall r: ShowRecord :: r.sold == sold && r.total == total && r.gross == gross ==> c == Bump(c0, r)
  {
    var occ := Occupancy(sold, total);
    c := c0.(shows := c0.shows + 1, gross := c0.gross + gross, sold := c0.sold + sold,
             totalSeats := c0.totalSeats + total);
    if occ >= 98.0 {
      c := c.(housefull := c.housefull + 1);
    } else if occ >= 50.0 {
      c := c.(fastfilling := c.fastfilling + 1);
    }
  }

  /** The show loop of one movie at one venue: the counters and one detailed record per
      show (bms1.py:226-257). */
  method AddShows(meta: VenueCatalog, target: string, vcode: string, city: string, state: string,
                  movie: string, shows: seq<ShowRecord>,
                  acc0: map<string, MovieAcc>, detailed0: seq<DetailedRecord>,
                  ghost slots: seq<Slot>, ghost es: seq<Entry>)
    returns (acc: map<string, MovieAcc>, detailed: seq<DetailedRecord>)
    requires acc0 == AccTable(slots, es, meta) && detailed0 == Rows(meta, target, es) && Covered(slots, es)
    requires movie in MoviesOf(slots)
    requires city == CityOf(meta, vcode) && state == StateOf(meta, vcode)
    ensures acc == AccTable(slots, es + GroupEntries(vcode, movie, shows), meta)
    ensures detailed == Rows(meta, target, es + GroupEntries(vcode, movie, shows))
    ensures Covered(slots, es + GroupEntries(vcode, movie, shows))
  {
    acc, detailed := acc0, detailed0;
    ghost var visited := es;
    var k := 0;
    assert es + GroupEntries(vcode, movie, shows[..0]) == es;
    while k < |shows|
      invariant 0 <= k <= |shows|
      invariant visited == es + GroupEntries(vcode, movie, shows[..k])
      invariant acc == AccTable(slots, visited, meta) && Covered(slots, visited)
      invariant detailed == Rows(meta, target, visited)
    {
      var s := shows[k];
      var sold := s.sold;
      var total := s.total;
      var occ := Occupancy(sold, total);
      var c := CountShow(acc[movie].counters, sold, total, s.gross);
      var row := DetailedRecord(movie, city, state, s.venue, s.address, s.time, s.audi,
                                s.sessionId, total, s.available, sold, s.gross, occ, SourceTag, target);
      ShowStep(meta, target, slots, visited, Entry(vcode, movie, s), acc, detailed, c, row);
      acc := acc[movie := acc[movie].(counters := c)];
      detailed := detailed + [row];
      GroupEntriesSnoc(vcode, movie, shows, k);
      Associative(es, GroupEntries(vcode, movie, shows[..k]), [Entry(vcode, movie, s)]);
      visited := visited + [Entry(vcode, movie, s)];
      k := k + 1;
    }
    assert shows[..k] == shows;
  }

  /** One movie at one venue: `setdefault`, the venue and city sets, then the show loop
      (bms1.py:216-257). */
  method AddGroup(meta: VenueCatalog, target: string, vcode: string, city: string, state: string,
                  movie: string, shows: seq<ShowRecord>,
                  acc0: map<string, MovieAcc>, detailed0: seq<DetailedRecord>,
                  ghost slots: seq<Slot>, ghost es: seq<Entry>)
    returns (acc: map<string, MovieAcc>, detailed: seq<DetailedRecord>)
    requires acc0 == AccTable(slots, es, meta) && detailed0 == Rows(meta, target, es) && Covered(slots, es)
    requires city == CityOf(meta, vcode) && state == StateOf(meta, vcode)
    ensures acc == AccTable(slots + [Slot(vcode, movie)], es + GroupEntries(vcode, movie, shows), meta)
    ensures detailed == Rows(meta, target, es + GroupEntries(vcode, movie, shows))
    ensures Covered(slots + [Slot(vcode, movie)], es + GroupEntries(vcode, movie, shows))
  {
    var m := if movie in acc0 then acc0[movie] else NewAcc;
    m := m.(venues := m.venues + {vcode}, cities := m.cities + {city});
    acc := acc0[movie := m];
    AccTableSlot(slots, es, meta, Slot(vcode, movie));
    SlotSetsSnoc(slots, meta, Slot(vcode, movie), movie);
    acc, detailed := AddShows(meta, target, vcode, city, state, movie, shows, acc, detailed0,
                              slots + [Slot(vcode, movie)], es);
  }

  /** One venue: its city and state, then every movie of its parse result
      (bms1.py:211-257). */
  method AddVenue(meta: VenueCatalog, target: string, vcode: string, groups: MovieGroups,
                  acc0: map<string, MovieAcc>, detailed0: seq<DetailedRecord>,
                  ghost slots: seq<Slot>, ghost es: seq<Entry>)
    returns (acc: map<string, MovieAcc>, detailed: seq<DetailedRecord>)
    requires acc0 == AccTable(slots, es, meta) && detailed0 == Rows(meta, target, es) && Covered(slots, es)
    ensures acc == AccTable(slots + VenueSlots(vcode, groups), es + VenueEntries(vcode, groups), meta)
    ensures detailed == Rows(meta, target, es + VenueEntries(vcode, groups))
    ensures Covered(slots + VenueSlots(vcode, groups), es + VenueEntries(vcode, groups))
  {
    var city := CityOf(meta, vcode);
    var state := StateOf(meta, vcode);
    acc, detailed := acc0, detailed0;
    ghost var slotsSeen, visited := slots, es;
    var j := 0;
    assert slots + VenueSlots(vcode, groups[..0]) == slots;
    assert es + VenueEntries(vcode, groups[..0]) == es;
    while j < |groups|
      invariant 0 <= j <= |groups|
      invariant slotsSeen == slots + VenueSlots(vcode, groups[..j])
      invariant visited == es + VenueEntries(vcode, groups[..j])
      invariant acc == AccTable(slotsSeen, visited, meta) && Covered(slotsSeen, visited)
      invariant detailed == Rows(meta, target, visited)
    {
      var (movie, shows) := groups[j];
      acc, detailed := AddGroup(meta, target, vcode, city, state, movie, shows, acc, detailed, slotsSeen, visited);
      VenueSnoc(vcode, groups, j);
      Associative(slots, VenueSlots(vcode, groups[..j]), [Slot(vcode, movie)]);
      Associative(es, VenueEntries(vcode, groups[..j]), GroupEntries(vcode, movie, shows));
      slotsSeen := slotsSeen + [Slot(vcode, movie)];
      visited := visited + GroupEntries(vcode, movie, shows);
      j := j + 1;
    }
    assert groups[..j] == groups;
  }

  /** `aggregate(all_data, venues_meta)` (bms1.py:207-274): the detailed list in venue,
      then movie, then show order, and the summary whose counters are sums over it. */
  method Aggregate(data: VenueData, meta: VenueCatalog, target: string)
    returns (summary: map<string, MovieSummary>, detailed: seq<DetailedRecord>)
    ensures detailed == DetailedOf(data, meta, target)
    ensures summary == SummaryOf(data, meta)
  {
    var acc: map<string, MovieAcc> := map[];
    detailed := [];
    var i := 0;
    while i < |data|
      invariant 0 <= i <= |data|
      invariant acc == AccTable(Slots(data[..i]), Entries(data[..i]), meta)
      invariant Covered(Slots(data[..i]), Entries(data[..i]))
      invariant detailed == Rows(meta, target, Entries(data[..i]))
    {
      var (vcode, groups) := data[i];
      acc, detailed := AddVenue(meta, target, vcode, groups, acc, detailed, Slots(data[..i]), Entries(data[..i]));
      DataSnoc(data, i);
      i := i + 1;
    }
    assert data[..i] == data;
    summary := map k | k in acc :: Finalize(acc[k]);
  }

  // ---------------------------------------------------------------------------
  // What the outputs mean.

  /** Per-movie totals read back from the detailed output alone: the row count, the
      column sums, and the rows whose occupancy column falls in each band. */
  function RowTotals(rows: seq<DetailedRecord>, m: string): Counters {
    if rows == [] then NoShows
    else
      var r := rows[|rows| - 1];
      var c := RowTotals(rows[..|rows| - 1], m);
      if r.movie != m then c else AddRow(c, r)
  }

  /** One detailed row added to the totals, its band read off its occupancy column. */
  function AddRow(c: Counters, r: DetailedRecord): Counters {
    Counters(c.shows + 1, c.gross + r.gross, c.sold + r.sold, c.totalSeats + r.totalSeats,
             c.fastfilling + (if 50.0 <= r.occupancy < 98.0 then 1 else 0),
             c.housefull + (if r.occupancy >= 98.0 then 1 else 0))
  }

  /** A show's detailed row adds to the totals what the show adds to the counters. */
  lemma AddRowDetail(c: Counters, meta: VenueCatalog, target: string, e: Entry)
    ensures AddRow(c, Detail(meta, target, e)) == Bump(c, e.rec)
  {
  }

  lemma {:induction false} CountersAgreeWithRows(meta: VenueCatalog, target: string, es: seq<Entry>, m: string)
    ensures CountersOf(es, m) == RowTotals(Rows(meta, target, es), m)
  {
    if es != [] {
      var pre := es[..|es| - 1];
      CountersAgreeWithRows(meta, target, pre, m);
      CountersRowsStep(meta, target, es, m);
    }
  }

  lemma CountersRowsStep(meta: VenueCatalog, target: string, es: seq<Entry>, m: string)
    requires es != []
    requires CountersOf(es[..|es| - 1], m) == RowTotals(Rows(meta, target, es[..|es| - 1]), m)
    ensures CountersOf(es, m) == RowTotals(Rows(meta, target, es), m)
  {
    var pre := es[..|es| - 1];
    var rows := Rows(meta, target, es);
    assert rows[..|rows| - 1] == Rows(meta, target, pre);
    AddRowDetail(CountersOf(pre, m), meta, target, es[|es| - 1]);
  }

  /** The summary agrees with the detailed output: each movie's show count, gross, sold,
      seat total and band counts are those of its detailed rows, and its occupancy is the
      occupancy of those sums (bms1.py:226-270). */
  lemma SummaryMatchesDetailed(data: VenueData, meta: VenueCatalog, target: string, m: string)
    requires m in SummaryOf(data, meta)
    ensures var s := SummaryOf(data, meta)[m];
            var t := RowTotals(DetailedOf(data, meta, target), m);
            s.shows == t.shows && s.gross == t.gross && s.sold == t.sold && s.totalSeats == t.totalSeats
            && s.fastfilling == t.fastfilling && s.housefull == t.housefull
            && s.occupancy == Occupancy(t.sold, t.totalSeats)
  {
    CountersAgreeWithRows(meta, target, Entries(data), m);
  }

  /** At most one band per show: housefull is checked first, fastfilling only otherwise. */
  lemma {:induction false} BandsWithinShows(es: seq<Entry>, m: string)
    ensures CountersOf(es, m).housefull + CountersOf(es, m).fastfilling <= CountersOf(es, m).shows
  {
    if es != [] {
      BandsWithinShows(es[..|es| - 1], m);
    }
  }

  /** The occupancy bands in whole-number terms for a show with seats: housefull when at
      least 49/50 of the seats are sold, fastfilling from half up to that; a show without
      seats is in neither band (bms1.py:229, 236-239). */
  lemma Bands(sold: int, total: int)
    ensures total > 0 ==> (IsHousefull(sold, total) <==> 50 * sold >= 49 * total)
    ensures total > 0 ==> (IsFastfilling(sold, total) <==> 2 * sold >= total && 50 * sold < 49 * total)
    ensures total == 0 ==> !IsHousefull(sold, total) && !IsFastfilling(sold, total)
  {
    if total > 0 {
      AtLeast(sold, total, 98);
      AtLeast(sold, total, 50);
    }
  }

  /** For a show with seats, occupancy reaches `p` percent exactly when `100 * sold`
      reaches `p * total`. */
  lemma AtLeast(sold: int, total: int, p: int)
    requires total > 0
    ensures Occupancy(sold, total) >= p as real <==> 100 * sold >= p * total
  {
    var t := total as real;
    var o := Occupancy(sold, total);
    assert o * t == (100 * sold) as real by {
      assert o == (sold as real) / t * 100.0;
    }
    Scale(o, t, p as real);
    assert (p as real) * t == (p * total) as real;
  }

  lemma Scale(o: real, t: real, x: real)
    requires t > 0.0
    ensures o >= x <==> o * t >= x * t
  {
    if o >= x {
      assert o * t - x * t == (o - x) * t;
    } else {
      assert x * t - o * t == (x - o) * t;
    }
  }

  /** Where a (venue, movie) group sits in the run's store. */
  predicate SlotAt(data: VenueData, s: Slot, i: int, j: int) {
    0 <= i < |data| && 0 <= j < |data[i].1| && s == Slot(data[i].0, data[i].1[j].0)
  }

  /** Where a show sits in the run's store. */
  predicate EntryAt(data: VenueData, e: Entry, i: int, j: int, k: int) {
    0 <= i < |data| && 0 <= j < |data[i].1| && 0 <= k < |data[i].1[j].1|
    && e == Entry(data[i].0, data[i].1[j].0, data[i].1[j].1[k])
  }

  lemma {:induction false} SlotsMembers(data: VenueData, s: Slot)
    ensures s in Slots(data) <==> exists i, j :: SlotAt(data, s, i, j)
  {
    if data != [] {
      var n := |data| - 1;
      var pre := data[..n];
      SlotsMembers(pre, s);
      var vs := VenueSlots(data[n].0, data[n].1);
      assert Slots(data) == Slots(pre) + vs;
      if s in Slots(pre) {
        var i, j :| SlotAt(pre, s, i, j);
        assert SlotAt(data, s, i, j);
      } else if s in vs {
        var j :| 0 <= j < |vs| && vs[j] == s;
        assert SlotAt(data, s, n, j);
      }
      if exists i, j :: SlotAt(data, s, i, j) {
        var i, j :| SlotAt(data, s, i, j);
        if i < n {
          assert SlotAt(pre, s, i, j);
        } else {
          assert vs[j] == s;
        }
      }
    }
  }

  lemma {:induction false} EntriesMembers(data: VenueData, e: Entry)
    ensures e in Entries(data) <==> exists i, j, k :: EntryAt(data, e, i, j, k)
  {
    if exists i, j, k :: EntryAt(data, e, i, j, k) {
      var i, j, k :| EntryAt(data, e, i, j, k);
      EntriesHas(data, i, j, k);
    }
    if data != [] && e in Entries(data) {
      var n := |data| - 1;
      var pre := data[..n];
      assert Entries(data) == Entries(pre) + VenueEntries(data[n].0, data[n].1);
      if e in Entries(pre) {
        EntriesMembers(pre, e);
        var i, j, k :| EntryAt(pre, e, i, j, k);
        assert EntryAt(data, e, i, j, k);
      } else {
        var j, k := VenueEntriesMembers(data[n].0, data[n].1, e);
        assert EntryAt(data, e, n, j, k);
      }
    }
  }

  lemma {:induction false} VenueEntriesMembers(vcode: string, groups: MovieGroups, e: Entry) returns (j: nat, k: nat)
    requires e in VenueEntries(vcode, groups)
    ensures j < |groups| && k < |groups[j].1| && e == Entry(vcode, groups[j].0, groups[j].1[k])
  {
    var n := |groups| - 1;
    var pre := groups[..n];
    if e in VenueEntries(vcode, pre) {
      j, k := VenueEntriesMembers(vcode, pre, e);
    } else {
      var ge := GroupEntries(vcode, groups[n].0, groups[n].1);
      assert e in ge;
      var k' :| 0 <= k' < |ge| && ge[k'] == e;
      j, k := n, k';
    }
  }

  /** Every stored show is visited: it has an aggregation entry, and so a detailed row. */
  lemma {:induction false} EntriesHas(data: VenueData, i: nat, j: nat, k: nat)
    requires i < |data| && j < |data[i].1| && k < |data[i].1[j].1|
    ensures Entry(data[i].0, data[i].1[j].0, data[i].1[j].1[k]) in Entries(data)
  {
    var n := |data| - 1;
    var pre := data[..n];
    assert Entries(data) == Entries(pre) + VenueEntries(data[n].0, data[n].1);
    if i < n {
      assert pre[i] == data[i];
      EntriesHas(pre, i, j, k);
    } else {
      VenueEntriesHas(data[n].0, data[n].1, j, k);
    }
  }

  lemma {:induction false} VenueEntriesHas(vcode: string, groups: MovieGroups, j: nat, k: nat)
    requires j < |groups| && k < |groups[j].1|
    ensures Entry(vcode, groups[j].0, groups[j].1[k]) in VenueEntries(vcode, groups)
  {
    var n := |groups| - 1;
    var pre := groups[..n];
    var ge := GroupEntries(vcode, groups[n].0, groups[n].1);
    assert VenueEntries(vcode, groups) == VenueEntries(vcode, pre) + ge;
    if j < n {
      assert pre[j] == groups[j];
      VenueEntriesHas(vcode, pre, j, k);
    } else {
      assert ge[k] == Entry(vcode, groups[j].0, groups[j].1[k]);
    }
  }

  /** Every aggregated show belongs to a movie whose group was visited. */
  lemma CoveredAll(data: VenueData)
    ensures Covered(Slots(data), Entries(data))
  {
    forall e | e in Entries(data) ensures e.movie in MoviesOf(Slots(data)) {
      EntriesMembers(data, e);
      var i, j, k :| EntryAt(data, e, i, j, k);
      var s := Slot(data[i].0, data[i].1[j].0);
      assert SlotAt(data, s, i, j);
      SlotsMembers(data, s);
    }
  }

  /** The venue codes whose parse result has a group for movie `m`. */
  function VenuesShowing(data: VenueData, m: string): set<string> {
    set i | 0 <= i < |data| && m in Keys(data[i].1) :: data[i].0
  }

  /** The venues with a group for `m`, read off the visited groups. */
  lemma VenuesOfSlots(data: VenueData, m: string)
    ensures VenuesOf(Slots(data), m) == VenuesShowing(data, m)
  {
    var slots := Slots(data);
    forall v ensures v in VenuesOf(slots, m) <==> v in VenuesShowing(data, m) {
      if v in VenuesOf(slots, m) {
        var s :| s in slots && s.movie == m && s.vcode == v;
        SlotsMembers(data, s);
        var i, j :| SlotAt(data, s, i, j);
        assert Keys(data[i].1)[j] == m;
      }
      if v in VenuesShowing(data, m) {
        var i :| 0 <= i < |data| && m in Keys(data[i].1) && data[i].0 == v;
        var ks := Keys(data[i].1);
        var j :| 0 <= j < |ks| && ks[j] == m;
        SlotsMembers(data, Slot(v, m));
        assert SlotAt(data, Slot(v, m), i, j);
      }
    }
  }

  lemma MoviesOfVenues(slots: seq<Slot>, m: string)
    ensures m in MoviesOf(slots) <==> VenuesOf(slots, m) != {}
  {
    if m in MoviesOf(slots) {
      var s :| s in slots && s.movie == m;
      assert s.vcode in VenuesOf(slots, m);
    }
    if VenuesOf(slots, m) != {} {
      var v :| v in VenuesOf(slots, m);
      var s :| s in slots && s.movie == m && s.vcode == v;
      assert m in MoviesOf(slots);
    }
  }

  lemma CitiesOfVenues(slots: seq<Slot>, meta: VenueCatalog, m: string)
    ensures CitiesOf(slots, meta, m) == set v | v in VenuesOf(slots, m) :: CityOf(meta, v)
  {
    forall c ensures c in CitiesOf(slots, meta, m) <==> c in (set v | v in VenuesOf(slots, m) :: CityOf(meta, v)) {
      if c in CitiesOf(slots, meta, m) {
        var s :| s in slots && s.movie == m && CityOf(meta, s.vcode) == c;
        assert s.vcode in VenuesOf(slots, m);
      }
      if c in (set v | v in VenuesOf(slots, m) :: CityOf(meta, v)) {
        var v :| v in VenuesOf(slots, m) && CityOf(meta, v) == c;
        var s :| s in slots && s.movie == m && s.vcode == v;
      }
    }
  }

  /** The summary has exactly the movies that have a group at some venue, even a group
      without shows (`setdefault` runs before the show loop); `venues` counts the distinct
      venue codes with such a group and `cities` their distinct cities (bms1.py:216-224,
      264-265). A movie missing from the summary has no detailed row. */
  lemma SummaryKeysAndVenues(data: VenueData, meta: VenueCatalog, target: string, m: string)
    ensures m in SummaryOf(data, meta) <==> VenuesShowing(data, m) != {}
    ensures m in SummaryOf(data, meta) ==>
              SummaryOf(data, meta)[m].venues == |VenuesShowing(data, m)|
              && SummaryOf(data, meta)[m].cities == |set v | v in VenuesShowing(data, m) :: CityOf(meta, v)|
    ensures m !in SummaryOf(data, meta) ==> RowTotals(DetailedOf(data, meta, target), m) == NoShows
  {
    var slots := Slots(data);
    VenuesOfSlots(data, m);
    MoviesOfVenues(slots, m);
    CitiesOfVenues(slots, meta, m);
    if m !in SummaryOf(data, meta) {
      CoveredAll(data);
      CountersOfAbsent(Entries(data), m);
      CountersAgreeWithRows(meta, target, Entries(data), m);
    }
  }

  /** Every movie in the summary was shown at a venue, and no more of its shows are
      housefull or fastfilling than it has shows. */
  lemma SummaryBounds(data: VenueData, meta: VenueCatalog, m: string)
    requires m in SummaryOf(data, meta)
    ensures SummaryOf(data, meta)[m].venues >= 1 && SummaryOf(data, meta)[m].cities >= 1
    ensures SummaryOf(data, meta)[m].housefull + SummaryOf(data, meta)[m].fastfilling
            <= SummaryOf(data, meta)[m].shows
  {
    var slots := Slots(data);
    var s :| s in slots && s.movie == m;
    assert s.vcode in VenuesOf(slots, m);
    assert CityOf(meta, s.vcode) in CitiesOf(slots, meta, m);
    BandsWithinShows(Entries(data), m);
  }

  /** The visiting order for a single venue with a single movie of two shows. */
  lemma OneGroupShape(a: ShowRecord, b: ShowRecord)
    ensures Entries([("V1", [("M", [a, b])])]) == [Entry("V1", "M", a), Entry("V1", "M", b)]
    ensures Slots([("V1", [("M", [a, b])])]) == [Slot("V1", "M")]
  {
    var data: VenueData := [("V1", [("M", [a, b])])];
    var es := [Entry("V1", "M", a), Entry("V1", "M", b)];
    assert data[..0] == [];
    assert GroupEntries("V1", "M", [a, b]) == es;
    assert [("M", [a, b])][..0] == [];
    assert VenueEntries("V1", [("M", [a, b])]) == es;
  }

  lemma TwoShowCounters(a: ShowRecord, b: ShowRecord)
    requires a == ShowRecord("Hall", "Road", "Chain", None, None, "", 100, 98, 2, 400)
    requires b == ShowRecord("Hall", "Road", "Chain", None, None, "", 100, 1, 99, 19800)
    ensures CountersOf([Entry("V1", "M", a), Entry("V1", "M", b)], "M") == Counters(2, 20200, 101, 200, 0, 1)
  {
    var es := [Entry("V1", "M", a), Entry("V1", "M", b)];
    assert es[..1] == [Entry("V1", "M", a)];
    assert es[..1][..0] == [];
    Bands(2, 100);
    Bands(99, 100);
    assert CountersOf(es[..1], "M") == Bump(NoShows, a) == Counters(1, 400, 2, 100, 0, 0);
  }

  /** One venue, one movie, two shows of 100 seats each: 2 sold at 200 (2% occupancy) and
      99 sold at 200 (99%). The movie has 2 shows, 101 sold of 200 seats, a gross of 20200,
      one housefull show, no fastfilling show and 50.5% occupancy. */
  lemma TwoShowScenario()
    ensures var a := ShowRecord("Hall", "Road", "Chain", None, None, "", 100, 98, 2, 400);
            var b := ShowRecord("Hall", "Road", "Chain", None, None, "", 100, 1, 99, 19800);
            var s := SummaryOf([("V1", [("M", [a, b])])], map[]);
            "M" in s && s["M"] == MovieSummary(2, 20200, 101, 200, 1, 1, 0, 1, 50.5)
  {
    var a := ShowRecord("Hall", "Road", "Chain", None, None, "", 100, 98, 2, 400);
    var b := ShowRecord("Hall", "Road", "Chain", None, None, "", 100, 1, 99, 19800);
    OneGroupShape(a, b);
    TwoShowCounters(a, b);
    assert VenuesOf([Slot("V1", "M")], "M") == {"V1"};
    assert CitiesOf([Slot("V1", "M")], map[], "M") == {"Unknown"};
    assert Occupancy(101, 200) == 50.5;
  }
}
