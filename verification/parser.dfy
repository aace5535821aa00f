/** `parse_payload` (bms1.py:135-191): one showtime response to per-movie record lists,
    keeping only the shows of the target date. */
module Parser {
  import opened Util
  import opened Text
  import opened Dict
  import opened Payload

  /** Venue name, address and chain, read once from the first block (bms1.py:140-143). */
  datatype VenueStamp = VenueStamp(name: string, address: string, chain: string)

  /** Name and address default to "", the chain to "Unknown". */
  function StampOf(v: VenueInfo): (s: VenueStamp)
    ensures s.name == (if v.name.Some? then v.name.value else "")
    ensures s.address == (if v.address.Some? then v.address.value else "")
    ensures s.chain == (if v.compName.Some? then v.compName.value else "Unknown")
  {
    VenueStamp(v.name.GetOr(""), v.address.GetOr(""), v.compName.GetOr("Unknown"))
  }

  /** `EventTitle`, "Unknown" when absent. */
  function TitleOf(ev: Event): (title: string)
    ensures title == (if ev.title.Some? then ev.title.value else "Unknown")
  {
    ev.title.GetOr("Unknown")
  }

  /** The movie label: the title, followed by `[dimension | language]` when either of the
      stripped values is non-empty (bms1.py:152-155). */
  function MovieLabel(title: string, ch: ChildEvent): (movie: string)
    ensures |title| <= |movie| && movie[..|title|] == title
    ensures movie == title <==>
      Strip(ch.dimension.GetOr("")) == "" && Strip(ch.language.GetOr("")) == ""
    ensures var dim, lang := Strip(ch.dimension.GetOr("")), Strip(ch.language.GetOr(""));
            (dim != "" && lang != "" ==> movie == title + " [" + dim + " | " + lang + "]")
            && (dim != "" && lang == "" ==> movie == title + " [" + dim + "]")
            && (dim == "" && lang != "" ==> movie == title + " [" + lang + "]")
  {
    var dim := Strip(ch.dimension.GetOr(""));
    var lang := Strip(ch.language.GetOr(""));
    if dim != "" && lang != "" then Bracketed(title, dim + " | " + lang)
    else if dim != "" then Bracketed(title, dim)
    else if lang != "" then Bracketed(title, lang)
    else title
  }

  /** `f"{title} [{suffix}]"`. */
  function Bracketed(title: string, suffix: string): (movie: string)
    ensures |title| < |movie| && movie[..|title|] == title
  {
    var movie := title + " [" + suffix + "]";
    assert movie == title + (" [" + suffix + "]");
    movie
  }

  /** The date code of a show: `ShowDateCode` when present and non-empty, otherwise the
      first eight characters of `ShowDateTime` (bms1.py:158). */
  function DateCodeOf(sh: ShowTime): (d: string)
    ensures sh.showDateCode.Some? && sh.showDateCode.value != "" ==> d == sh.showDateCode.value
    ensures !(sh.showDateCode.Some? && sh.showDateCode.value != "") ==>
              var dt := sh.showDateTime.GetOr("");
              |d| <= |dt| && d == dt[..|d|] && (if |dt| <= 8 then d == dt else |d| == 8)
  {
    if sh.showDateCode.Some? && sh.showDateCode.value != "" then sh.showDateCode.value
    else Take(sh.showDateTime.GetOr(""), 8)
  }

  // Sums over the seating categories (bms1.py:162-171), each by its last element so that
  // they follow the accumulating loop.

  function TotalSeats(cs: seq<Category>): int {
    if cs == [] then 0 else TotalSeats(cs[..|cs| - 1]) + cs[|cs| - 1].maxSeats.GetOr(0)
  }

  function AvailableSeats(cs: seq<Category>): int {
    if cs == [] then 0 else AvailableSeats(cs[..|cs| - 1]) + cs[|cs| - 1].seatsAvail.GetOr(0)
  }

  function SoldSeats(cs: seq<Category>): int {
    if cs == [] then 0
    else
      var c := cs[|cs| - 1];
      SoldSeats(cs[..|cs| - 1]) + (c.maxSeats.GetOr(0) - c.seatsAvail.GetOr(0))
  }

  function Gross(cs: seq<Category>): int {
    if cs == [] then 0
    else
      var c := cs[|cs| - 1];
      Gross(cs[..|cs| - 1]) + (c.maxSeats.GetOr(0) - c.seatsAvail.GetOr(0)) * c.curPrice.GetOr(0)
  }

  /** Seats sold is always seats offered minus seats still available. */
  lemma {:induction false} SoldIsTotalMinusAvailable(cs: seq<Category>)
    ensures SoldSeats(cs) == TotalSeats(cs) - AvailableSeats(cs)
  {
    if cs != [] {
      SoldIsTotalMinusAvailable(cs[..|cs| - 1]);
    }
  }

  /** The category loop of one show (bms1.py:162-171). */
  method SumCategories(cs: seq<Category>) returns (total: int, avail: int, sold: int, gross: int)
    ensures total == TotalSeats(cs) && avail == AvailableSeats(cs)
    ensures sold == SoldSeats(cs) && gross == Gross(cs)
  {
    total, sold, avail, gross := 0, 0, 0, 0;
    var i := 0;
    while i < |cs|
      invariant 0 <= i <= |cs|
      invariant total == TotalSeats(cs[..i]) && avail == AvailableSeats(cs[..i])
      invariant sold == SoldSeats(cs[..i]) && gross == Gross(cs[..i])
    {
      var seats := cs[i].maxSeats.GetOr(0);
      var free := cs[i].seatsAvail.GetOr(0);
      var price := cs[i].curPrice.GetOr(0);
      total := total + seats;
      avail := avail + free;
      sold := sold + (seats - free);
      gross := gross + (seats - free) * price;
      assert cs[..i + 1][..i] == cs[..i];
      i := i + 1;
    }
    assert cs[..i] == cs;
  }

  /** The record emitted for a retained show (bms1.py:173-184). */
  function MakeRecord(stamp: VenueStamp, sh: ShowTime): (r: ShowRecord)
    ensures r.venue == stamp.name && r.address == stamp.address && r.chain == stamp.chain
    ensures r.time == sh.showTime && r.sessionId == sh.sessionId
    ensures r.audi == (if sh.attributes.Some? then sh.attributes.value else "")
    ensures r.total == TotalSeats(sh.categories) && r.available == AvailableSeats(sh.categories)
    ensures r.sold == r.total - r.available && r.gross == Gross(sh.categories)
  {
    SoldIsTotalMinusAvailable(sh.categories);
    ShowRecord(stamp.name, stamp.address, stamp.chain, sh.showTime, sh.sessionId,
               sh.attributes.GetOr(""), TotalSeats(sh.categories), AvailableSeats(sh.categories),
               SoldSeats(sh.categories), Gross(sh.categories))
  }

  /** A show time together with the label of the movie it belongs to. */
  datatype LabeledShow = LabeledShow(movie: string, show: ShowTime)

  // The shows of a payload in the order the parser visits them: event, then child
  // event, then show time.

  function ShowsOf(movie: string, shows: seq<ShowTime>): seq<LabeledShow>
  {
    seq(|shows|, i requires 0 <= i < |shows| => LabeledShow(movie, shows[i]))
  }

  function ChildrenShows(title: string, chs: seq<ChildEvent>): seq<LabeledShow> {
    if chs == [] then []
    else
      var ch := chs[|chs| - 1];
      ChildrenShows(title, chs[..|chs| - 1]) + ShowsOf(MovieLabel(title, ch), ch.showTimes)
  }

  function EventsShows(evs: seq<Event>): seq<LabeledShow> {
    if evs == [] then []
    else
      var ev := evs[|evs| - 1];
      EventsShows(evs[..|evs| - 1]) + ChildrenShows(TitleOf(ev), ev.childEvents)
  }

  /** Every show time of the payload; only the first `ShowDetails` block is read. */
  function AllShows(p: ShowtimesPayload): seq<LabeledShow> {
    if p.showDetails == [] then [] else EventsShows(p.showDetails[0].events)
  }

  /** Whether a show survives the date filter (bms1.py:159). */
  predicate OnDate(target: string, x: LabeledShow) {
    DateCodeOf(x.show) == target
  }

  /** Grouping of the retained shows, appended one at a time to their label's list. */
  function Collect(stamp: VenueStamp, target: string, xs: seq<LabeledShow>): (r: MovieGroups)
    ensures UniqueKeys(r)
  {
    if xs == [] then []
    else
      var x := xs[|xs| - 1];
      var prev := Collect(stamp, target, xs[..|xs| - 1]);
      if OnDate(target, x) then AppendTo(prev, x.movie, MakeRecord(stamp, x.show)) else prev
  }

  /** The result of `parse_payload(data)` for target date `target`. */
  function Parse(p: ShowtimesPayload, target: string): MovieGroups {
    if p.showDetails == [] then []
    else Collect(StampOf(p.showDetails[0].venues), target, AllShows(p))
  }

  /** The number of retained shows (the source's `valid` counter). */
  function CountOnDate(target: string, xs: seq<LabeledShow>): nat {
    if xs == [] then 0
    else CountOnDate(target, xs[..|xs| - 1]) + (if OnDate(target, xs[|xs| - 1]) then 1 else 0)
  }

  /** Reference definition: the records one label should receive, in visiting order. */
  function Kept(stamp: VenueStamp, target: string, xs: seq<LabeledShow>, movie: string): seq<ShowRecord> {
    if xs == [] then []
    else
      var x := xs[|xs| - 1];
      Kept(stamp, target, xs[..|xs| - 1], movie)
        + (if x.movie == movie && OnDate(target, x) then [MakeRecord(stamp, x.show)] else [])
  }

  lemma CollectSnoc(stamp: VenueStamp, target: string, xs: seq<LabeledShow>, x: LabeledShow)
    ensures Collect(stamp, target, xs + [x])
         == if OnDate(target, x) then AppendTo(Collect(stamp, target, xs), x.movie, MakeRecord(stamp, x.show))
            else Collect(stamp, target, xs)
    ensures CountOnDate(target, xs + [x]) == CountOnDate(target, xs) + (if OnDate(target, x) then 1 else 0)
  {
    assert (xs + [x])[..|xs|] == xs;
  }

  /** The group of a label holds exactly the records of that label's shows on the target
      date, in the order they occur; a label with no such show has no group. */
  lemma {:induction false} CollectGet(stamp: VenueStamp, target: string, xs: seq<LabeledShow>, movie: string)
    ensures Get(Collect(stamp, target, xs), movie)
         == if Kept(stamp, target, xs, movie) == [] then None else Some(Kept(stamp, target, xs, movie))
  {
    if xs != [] {
      var init, x := xs[..|xs| - 1], xs[|xs| - 1];
      CollectGet(stamp, target, init, movie);
      var prev := Collect(stamp, target, init);
      if OnDate(target, x) && x.movie == movie {
        var rec := MakeRecord(stamp, x.show);
        assert Collect(stamp, target, xs) == AppendTo(prev, movie, rec);
        assert Kept(stamp, target, xs, movie) == Kept(stamp, target, init, movie) + [rec];
      } else {
        assert Kept(stamp, target, xs, movie) == Kept(stamp, target, init, movie);
        assert Get(Collect(stamp, target, xs), movie) == Get(prev, movie) by {
          if OnDate(target, x) {
            assert Collect(stamp, target, xs) == AppendTo(prev, x.movie, MakeRecord(stamp, x.show));
          }
        }
      }
    }
  }

  /** A record belongs to the kept list of a label exactly when some show of that label on
      the target date produces it. */
  lemma {:induction false} KeptMembers(stamp: VenueStamp, target: string, xs: seq<LabeledShow>, movie: string, r: ShowRecord)
    ensures r in Kept(stamp, target, xs, movie) <==>
      exists x :: x in xs && x.movie == movie && OnDate(target, x) && r == MakeRecord(stamp, x.show)
  {
    if xs != [] {
      var init := xs[..|xs| - 1];
      KeptMembers(stamp, target, init, movie, r);
      assert xs == init + [xs[|xs| - 1]];
    }
  }

  /** The grouping is empty exactly when no show is on the target date. */
  lemma {:induction false} CollectEmptyIff(stamp: VenueStamp, target: string, xs: seq<LabeledShow>)
    ensures Collect(stamp, target, xs) == [] <==> CountOnDate(target, xs) == 0
    ensures CountOnDate(target, xs) == 0 <==> forall x :: x in xs ==> !OnDate(target, x)
  {
    if xs != [] {
      var init := xs[..|xs| - 1];
      var x := xs[|xs| - 1];
      assert xs == init + [x];
      CollectEmptyIff(stamp, target, init);
      if OnDate(target, x) {
        CollectGet(stamp, target, xs, x.movie);
        assert Kept(stamp, target, xs, x.movie) != [];
      }
    }
  }

  lemma ShowsOfSnoc(movie: string, shows: seq<ShowTime>, k: nat)
    requires k < |shows|
    ensures ShowsOf(movie, shows[..k + 1]) == ShowsOf(movie, shows[..k]) + [LabeledShow(movie, shows[k])]
  {
  }

  lemma ChildrenShowsSnoc(title: string, chs: seq<ChildEvent>, j: nat)
    requires j < |chs|
    ensures ChildrenShows(title, chs[..j + 1])
         == ChildrenShows(title, chs[..j]) + ShowsOf(MovieLabel(title, chs[j]), chs[j].showTimes)
  {
    assert chs[..j + 1][..j] == chs[..j];
  }

  lemma EventsShowsSnoc(evs: seq<Event>, i: nat)
    requires i < |evs|
    ensures EventsShows(evs[..i + 1]) == EventsShows(evs[..i]) + ChildrenShows(TitleOf(evs[i]), evs[i].childEvents)
  {
    assert evs[..i + 1][..i] == evs[..i];
  }

  /** The show-time loop of one child event (bms1.py:157-184), continuing from the
      grouping `out0` of the shows `seen` visited before. */
  method AddShowTimes(stamp: VenueStamp, target: string, movie: string, shows: seq<ShowTime>,
                      out0: MovieGroups, valid0: nat, ghost seen: seq<LabeledShow>)
    returns (out: MovieGroups, valid: nat)
    requires out0 == Collect(stamp, target, seen) && valid0 == CountOnDate(target, seen)
    ensures out == Collect(stamp, target, seen + ShowsOf(movie, shows))
    ensures valid == CountOnDate(target, seen + ShowsOf(movie, shows))
  {
    out, valid := out0, valid0;
    ghost var visited := seen;
    var k := 0;
    assert seen + ShowsOf(movie, shows[..0]) == seen;
    while k < |shows|
      invariant 0 <= k <= |shows|
      invariant visited == seen + ShowsOf(movie, shows[..k])
      invariant out == Collect(stamp, target, visited) && valid == CountOnDate(target, visited)
    {
      var sh := shows[k];
      CollectSnoc(stamp, target, visited, LabeledShow(movie, sh));
      if DateCodeOf(sh) == target {
        var total, avail, sold, gross := SumCategories(sh.categories);
        valid := valid + 1;
        out := AppendTo(out, movie, ShowRecord(stamp.name, stamp.address, stamp.chain,
                                               sh.showTime, sh.sessionId, sh.attributes.GetOr(""),
                                               total, avail, sold, gross));
      }
      ShowsOfSnoc(movie, shows, k);
      Associative(seen, ShowsOf(movie, shows[..k]), [LabeledShow(movie, sh)]);
      visited := visited + [LabeledShow(movie, sh)];
      k := k + 1;
    }
    assert shows[..k] == shows;
  }

  /** The child-event loop of one event (bms1.py:151-184). */
  method AddChildEvents(stamp: VenueStamp, target: string, title: string, chs: seq<ChildEvent>,
                        out0: MovieGroups, valid0: nat, ghost seen: seq<LabeledShow>)
    returns (out: MovieGroups, valid: nat)
    requires out0 == Collect(stamp, target, seen) && valid0 == CountOnDate(target, seen)
    ensures out == Collect(stamp, target, seen + ChildrenShows(title, chs))
    ensures valid == CountOnDate(target, seen + ChildrenShows(title, chs))
  {
    out, valid := out0, valid0;
    ghost var visited := seen;
    var j := 0;
    assert seen + ChildrenShows(title, chs[..0]) == seen;
    while j < |chs|
      invariant 0 <= j <= |chs|
      invariant visited == seen + ChildrenShows(title, chs[..j])
      invariant out == Collect(stamp, target, visited) && valid == CountOnDate(target, visited)
    {
      var movie := MovieLabel(title, chs[j]);
      out, valid := AddShowTimes(stamp, target, movie, chs[j].showTimes, out, valid, visited);
      ChildrenShowsSnoc(title, chs, j);
      Associative(seen, ChildrenShows(title, chs[..j]), ShowsOf(movie, chs[j].showTimes));
      visited := visited + ShowsOf(movie, chs[j].showTimes);
      j := j + 1;
    }
    assert chs[..j] == chs;
  }

  /** The `parse_payload` loops (bms1.py:135-191). `valid` is the number of retained
      shows, which the source reports; the result is empty exactly when it is zero. */
  method ParsePayload(p: ShowtimesPayload, target: string) returns (out: MovieGroups, valid: nat)
    ensures out == Parse(p, target)
    ensures valid == CountOnDate(target, AllShows(p))
    ensures out == [] <==> valid == 0
    ensures p.showDetails == [] ==> out == []
  {
    if p.showDetails == [] {
      return [], 0;
    }
    var sd := p.showDetails[0];
    var stamp := StampOf(sd.venues);
    out, valid := [], 0;
    var i := 0;
    while i < |sd.events|
      invariant 0 <= i <= |sd.events|
      invariant out == Collect(stamp, target, EventsShows(sd.events[..i]))
      invariant valid == CountOnDate(target, EventsShows(sd.events[..i]))
    {
      var ev := sd.events[i];
      out, valid := AddChildEvents(stamp, target, TitleOf(ev), ev.childEvents, out, valid, EventsShows(sd.events[..i]));
      EventsShowsSnoc(sd.events, i);
      i := i + 1;
    }
    assert sd.events[..i] == sd.events;
    CollectEmptyIff(stamp, target, AllShows(p));
  }

  /** The grouping holds one record per show on the target date, no more and no fewer. */
  lemma {:induction false} CollectSize(stamp: VenueStamp, target: string, xs: seq<LabeledShow>)
    ensures TotalLength(Collect(stamp, target, xs)) == CountOnDate(target, xs)
  {
    if xs != [] {
      var init, x := xs[..|xs| - 1], xs[|xs| - 1];
      CollectSize(stamp, target, init);
      if OnDate(target, x) {
        AppendToLength(Collect(stamp, target, init), x.movie, MakeRecord(stamp, x.show));
      }
    }
  }

  /** `parse_payload` yields one record per show whose date code is the target date. */
  lemma ParseSize(p: ShowtimesPayload, target: string)
    ensures TotalLength(Parse(p, target)) == CountOnDate(target, AllShows(p))
  {
    if p.showDetails != [] {
      CollectSize(StampOf(p.showDetails[0].venues), target, AllShows(p));
    }
  }

  /** Every record `parse_payload` emits under a label comes from a show of that label
      whose date code is the target date, stamped with the venue of the first block. */
  lemma ParsedRecordIsOnDate(p: ShowtimesPayload, target: string, movie: string, r: ShowRecord)
    requires Get(Parse(p, target), movie).Some? && r in Get(Parse(p, target), movie).value
    ensures p.showDetails != []
    ensures exists x :: x in AllShows(p) && x.movie == movie && OnDate(target, x)
                     && r == MakeRecord(StampOf(p.showDetails[0].venues), x.show)
  {
    var stamp := StampOf(p.showDetails[0].venues);
    CollectGet(stamp, target, AllShows(p), movie);
    KeptMembers(stamp, target, AllShows(p), movie, r);
  }

  /** Every show whose date code is the target date yields its record under its label,
      whatever its sibling shows are. */
  lemma OnDateShowIsParsed(p: ShowtimesPayload, target: string, x: LabeledShow)
    requires x in AllShows(p) && OnDate(target, x)
    ensures p.showDetails != []
    ensures Get(Parse(p, target), x.movie).Some?
    ensures MakeRecord(StampOf(p.showDetails[0].venues), x.show) in Get(Parse(p, target), x.movie).value
  {
    var stamp := StampOf(p.showDetails[0].venues);
    KeptMembers(stamp, target, AllShows(p), x.movie, MakeRecord(stamp, x.show));
    CollectGet(stamp, target, AllShows(p), x.movie);
  }

  /** All records of one payload carry the venue name, address and chain of its first
      block, the chain being "Unknown" when absent, and sell exactly the seats offered
      minus the seats still available. */
  lemma ParsedRecordFields(p: ShowtimesPayload, target: string, movie: string, r: ShowRecord)
    requires Get(Parse(p, target), movie).Some? && r in Get(Parse(p, target), movie).value
    ensures p.showDetails != []
    ensures r.venue == p.showDetails[0].venues.name.GetOr("")
    ensures r.address == p.showDetails[0].venues.address.GetOr("")
    ensures r.chain == p.showDetails[0].venues.compName.GetOr("Unknown")
    ensures r.sold == r.total - r.available
  {
    ParsedRecordIsOnDate(p, target, movie, r);
    var x :| x in AllShows(p) && x.movie == movie && OnDate(target, x)
          && r == MakeRecord(StampOf(p.showDetails[0].venues), x.show);
    SoldIsTotalMinusAvailable(x.show.categories);
  }
}
