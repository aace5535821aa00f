/** The three-pass retrieval over the venue codes (bms1.py:288-336): a direct pass, a retry
    of the codes still empty with a fresh identity each, and a browser fallback for the
    codes still empty after that. The service's replies are supplied by the caller, one
    per code and pass. */
module Retrieval {
  import opened Util
  import opened Dict
  import opened Payload
  import opened Identity
  import opened Fetch
  import opened Aggregate

  /** The attempts a code gets in the three passes; a later one is only made, and only
      matters, while the code is still empty. */
  datatype Trace = Trace(first: Attempt, retry: Attempt, browser: Attempt)

  /** `fetch_api` for every code, with the replies `r`. */
  function ApiFetch(r: string -> Reply, target: string): string -> Attempt {
    c => ApiAttempt(r(c), target)
  }

  /** `fetch_via_selenium_api` then `parse_payload` for every code, with the replies `r`. */
  function BrowserFetch(r: string -> Reply, target: string): string -> Attempt {
    c => BrowserAttempt(r(c), target)
  }

  /** The attempts code `c` gets when pass 1 sees the replies `r1`, pass 2 `r2` and pass 3 `r3`. */
  function TraceOf(r1: string -> Reply, r2: string -> Reply, r3: string -> Reply, target: string, c: string): Trace {
    Trace(ApiFetch(r1, target)(c), ApiFetch(r2, target)(c), BrowserFetch(r3, target)(c))
  }

  /** A code is left empty when none of its three attempts brings back a show. */
  predicate EndsEmpty(t: Trace) {
    !HasShows(t.first) && !HasShows(t.retry) && !HasShows(t.browser)
  }

  /** What the run keeps for a code: the first result with shows, else pass 1's empty
      result, else nothing (pass 1 raised and nothing was recovered). */
  function StoredFor(t: Trace): Option<MovieGroups> {
    if HasShows(t.first) then Some(t.first.groups)
    else if HasShows(t.retry) then Some(t.retry.groups)
    else if HasShows(t.browser) then Some(t.browser.groups)
    else if t.first.Fetched? then Some(t.first.groups)
    else None
  }

  /** What pass 1 stores: every code whose fetch did not raise, with its result. */
  function FetchedMap(cs: seq<string>, fetch: string -> Attempt): map<string, MovieGroups> {
    map c | c in cs && fetch(c).Fetched? :: fetch(c).groups
  }

  /** The codes of `cs` whose fetch found no show. */
  function NoShowCodes(cs: seq<string>, fetch: string -> Attempt): set<string> {
    set c | c in cs && !HasShows(fetch(c))
  }

  /** What a retry pass over `pending` stores: the codes whose fetch found shows. */
  function Hits(pending: set<string>, fetch: string -> Attempt): map<string, MovieGroups> {
    map c | c in pending && HasShows(fetch(c)) :: fetch(c).groups
  }

  lemma FirstPassStep(cs: seq<string>, c: string, fetch: string -> Attempt)
    ensures FetchedMap(cs + [c], fetch)
         == if fetch(c).Fetched? then FetchedMap(cs, fetch)[c := fetch(c).groups] else FetchedMap(cs, fetch)
    ensures NoShowCodes(cs + [c], fetch) == NoShowCodes(cs, fetch) + (if HasShows(fetch(c)) then {} else {c})
  {
  }

  /** The codes of `pending` whose fetch found no show. */
  function Misses(pending: set<string>, fetch: string -> Attempt): set<string> {
    set c | c in pending && !HasShows(fetch(c))
  }

  /** After `n` retries the worker has created `n` new browsers (pass 3) or `n` new
      sessions (pass 2), and nothing of the other kind. */
  predicate Created(sessions: nat, browsers: nat, sessions0: nat, browsers0: nat, n: nat, viaBrowser: bool) {
    if viaBrowser then browsers == browsers0 + n && sessions == sessions0
    else sessions == sessions0 + n && browsers == browsers0
  }

  /** Part way through a retry pass over the codes `start`, begun from the store `m0` and
      from `s0` sessions and `b0` browsers created: the codes in `done` have been retried,
      those in `pending` not yet. */
  ghost predicate Retrying(empty: set<string>, store: map<string, MovieGroups>, sessions: nat, browsers: nat,
                           m0: map<string, MovieGroups>, s0: nat, b0: nat, start: set<string>,
                           pending: set<string>, done: set<string>, fetch: string -> Attempt, viaBrowser: bool) {
    && pending !! done && pending + done == start
    && empty == pending + Misses(done, fetch)
    && store == m0 + Hits(done, fetch)
    && Created(sessions, browsers, s0, b0, |done|, viaBrowser)
  }

  /** Retrying one more code `c`, with one new identity, extends the hits and the misses
      by `c`'s outcome. */
  lemma RetryStep(empty: set<string>, store: map<string, MovieGroups>, sessions: nat, browsers: nat,
                  sessions': nat, browsers': nat,
                  m0: map<string, MovieGroups>, s0: nat, b0: nat, start: set<string>,
                  pending: set<string>, done: set<string>, c: string, fetch: string -> Attempt, viaBrowser: bool)
    requires Retrying(empty, store, sessions, browsers, m0, s0, b0, start, pending, done, fetch, viaBrowser)
    requires c in pending
    requires Created(sessions', browsers', sessions, browsers, 1, viaBrowser)
    ensures Retrying(empty - (if HasShows(fetch(c)) then {c} else {}),
                     if HasShows(fetch(c)) then store[c := fetch(c).groups] else store,
                     sessions', browsers', m0, s0, b0, start, pending - {c}, done + {c}, fetch, viaBrowser)
  {
    assert (pending - {c}) !! (done + {c}) && (pending - {c}) + (done + {c}) == start;
    MissStep(pending, done, c, fetch);
    HitStep(m0, done, c, fetch);
    assert |done + {c}| == |done| + 1;
  }

  lemma MissStep(pending: set<string>, done: set<string>, c: string, fetch: string -> Attempt)
    requires c in pending && c !in done
    ensures (pending + Misses(done, fetch)) - (if HasShows(fetch(c)) then {c} else {})
            == (pending - {c}) + Misses(done + {c}, fetch)
  {
  }

  lemma HitStep(m0: map<string, MovieGroups>, done: set<string>, c: string, fetch: string -> Attempt)
    requires c !in done
    ensures (if HasShows(fetch(c)) then (m0 + Hits(done, fetch))[c := fetch(c).groups] else m0 + Hits(done, fetch))
            == m0 + Hits(done + {c}, fetch)
  {
  }

  /** A retry pass before its first retry. */
  lemma RetryStart(empty: set<string>, store: map<string, MovieGroups>, sessions: nat, browsers: nat,
                   fetch: string -> Attempt, viaBrowser: bool)
    ensures Retrying(empty, store, sessions, browsers, store, sessions, browsers, empty, empty, {}, fetch, viaBrowser)
  {
    assert Hits({}, fetch) == map[];
  }

  /** A retry pass with nothing left to retry has retried every code of `start`. */
  lemma RetryDone(empty: set<string>, store: map<string, MovieGroups>, sessions: nat, browsers: nat,
                  m0: map<string, MovieGroups>, s0: nat, b0: nat, start: set<string>,
                  pending: set<string>, done: set<string>, fetch: string -> Attempt, viaBrowser: bool)
    requires Retrying(empty, store, sessions, browsers, m0, s0, b0, start, pending, done, fetch, viaBrowser)
    requires pending == {}
    ensures empty == Misses(start, fetch) && store == m0 + Hits(start, fetch)
    ensures Created(sessions, browsers, s0, b0, |start|, viaBrowser)
  {
    assert done == start;
  }

  /** The codes of `cs` whose fetch did not raise, each once, in the order they first
      occur: the keys pass 1 gives the store. */
  function FetchedCodes(cs: seq<string>, fetch: string -> Attempt): seq<string> {
    if cs == [] then []
    else
      var p := FetchedCodes(cs[..|cs| - 1], fetch);
      var c := cs[|cs| - 1];
      if fetch(c).Fetched? && c !in p then p + [c] else p
  }

  /** Pass 1 over the first `i + 1` codes: the `i`-th code's outcome extended the store, its
      keys and the empty set. */
  lemma FirstPassAt(cs: seq<string>, i: nat, fetch: string -> Attempt)
    requires i < |cs|
    ensures var c, pre := cs[i], cs[..i];
            && FetchedMap(cs[..i + 1], fetch)
               == (if fetch(c).Fetched? then FetchedMap(pre, fetch)[c := fetch(c).groups] else FetchedMap(pre, fetch))
            && NoShowCodes(cs[..i + 1], fetch) == NoShowCodes(pre, fetch) + (if HasShows(fetch(c)) then {} else {c})
            && FetchedCodes(cs[..i + 1], fetch)
               == (if fetch(c).Fetched? && c !in FetchedCodes(pre, fetch) then FetchedCodes(pre, fetch) + [c]
                   else FetchedCodes(pre, fetch))
  {
    assert cs[..i + 1] == cs[..i] + [cs[i]];
    assert cs[..i + 1][..i] == cs[..i];
    FirstPassStep(cs[..i], cs[i], fetch);
  }

  /** `x` occurs before `y` in `s`. */
  predicate Before(s: seq<string>, x: string, y: string) {
    exists i, j :: 0 <= i < j < |s| && s[i] == x && s[j] == y
  }

  /** Pass 1 stores each code whose fetch did not raise, once, and for distinct input codes
      in input order. */
  lemma {:induction false} FetchedCodesOrder(cs: seq<string>, fetch: string -> Attempt)
    ensures Distinct(FetchedCodes(cs, fetch))
    ensures forall c :: c in FetchedCodes(cs, fetch) <==> c in cs && fetch(c).Fetched?
    ensures Distinct(cs) ==>
              forall a, b :: 0 <= a < b < |cs| && fetch(cs[a]).Fetched? && fetch(cs[b]).Fetched? ==>
                Before(FetchedCodes(cs, fetch), cs[a], cs[b])
  {
    if cs != [] {
      var init, c := cs[..|cs| - 1], cs[|cs| - 1];
      var p := FetchedCodes(init, fetch);
      FetchedCodesOrder(init, fetch);
      var r := FetchedCodes(cs, fetch);
      assert cs == init + [c];
      if fetch(c).Fetched? && c !in p {
        forall a, b | 0 <= a < b < |r| ensures r[a] != r[b] {
          if b < |p| {
            assert r[a] == p[a] && r[b] == p[b];
          } else {
            assert r[a] == p[a];
          }
        }
      }
      if Distinct(cs) {
        assert Distinct(init) by {
          forall a, b | 0 <= a < b < |init| ensures init[a] != init[b] {
            assert init[a] == cs[a] && init[b] == cs[b];
          }
        }
        forall a, b | 0 <= a < b < |cs| && fetch(cs[a]).Fetched? && fetch(cs[b]).Fetched?
          ensures Before(r, cs[a], cs[b])
        {
          if b < |init| {
            assert init[a] == cs[a] && init[b] == cs[b];
            var i, j :| 0 <= i < j < |p| && p[i] == cs[a] && p[j] == cs[b];
            assert r[..|p|] == p;
            assert r[i] == cs[a] && r[j] == cs[b];
          } else {
            assert cs[a] in init && cs[a] in p;
            assert c !in init by {
              forall k | 0 <= k < |init| ensures init[k] != c {
                assert init[k] == cs[k];
              }
            }
            var i :| 0 <= i < |p| && p[i] == cs[a];
            assert r == p + [c];
            assert r[i] == cs[a] && r[|p|] == cs[b];
          }
        }
      }
    }
  }

  /** The keys of `d0` are, in order, the first keys of `d`: entries are only added at the
      end. */
  predicate KeysExtend(d0: VenueData, d: VenueData) {
    |d0| <= |d| && Keys(d)[..|d0|] == Keys(d0)
  }

  /** Storing the result of an input code in a store over input codes. */
  lemma StoreStep(codes: seq<string>, d: VenueData, c: string, g: MovieGroups)
    requires UniqueKeys(d) && (forall k :: k in Keys(d) ==> k in codes) && c in codes
    ensures UniqueKeys(Put(d, c, g)) && (forall k :: k in Keys(Put(d, c, g)) ==> k in codes)
    ensures AsMap(Put(d, c, g)) == AsMap(d)[c := g]
    ensures Keys(Put(d, c, g)) == if c in Keys(d) then Keys(d) else Keys(d) + [c]
    ensures KeysExtend(d, Put(d, c, g))
  {
    PutKeepsUniqueKeys(d, c, g);
    PutKeys(d, c, g);
    PutAsMap(d, c, g);
    PutExtends(d, c, g);
  }

  /** `d[k] = v` keeps every key where it was. */
  lemma PutExtends(d: VenueData, k: string, v: MovieGroups)
    ensures KeysExtend(d, Put(d, k, v))
  {
    PutKeys(d, k, v);
    assert (Keys(d) + [k])[..|d|] == Keys(d);
  }

  lemma KeysExtendTrans(d0: VenueData, d1: VenueData, d2: VenueData)
    requires KeysExtend(d0, d1) && KeysExtend(d1, d2)
    ensures KeysExtend(d0, d2)
  {
    assert Keys(d2)[..|d0|] == Keys(d2)[..|d1|][..|d0|];
  }

  /** The run's store and failure set (`all_data`, `empty_venues`, bms1.py:42-43). */
  class Run {
    const codes: seq<string>
    var allData: VenueData
    var emptyVenues: set<string>

    /** The store is a dict over input codes, and only input codes are ever empty. */
    predicate Valid()
      reads this
    {
      UniqueKeys(allData)
      && (forall c :: c in Keys(allData) ==> c in codes)
      && (forall c :: c in emptyVenues ==> c in codes)
    }

    constructor (codes: seq<string>)
      ensures Valid()
      ensures this.codes == codes && allData == [] && emptyVenues == {}
    {
      this.codes := codes;
      allData := [];
      emptyVenues := {};
    }

    /** The body of pass 1 for one code (bms1.py:294-300): a result is stored even when
        empty; an exception or an empty result marks the code empty. */
    method FirstResult(c: string, a: Attempt)
      requires Valid() && c in codes
      modifies this
      ensures Valid()
      ensures emptyVenues == old(emptyVenues) + (if HasShows(a) then {} else {c})
      ensures allData == if a.Fetched? then Put(old(allData), c, a.groups) else old(allData)
      ensures AsMap(allData) == if a.Fetched? then old(AsMap(allData))[c := a.groups] else old(AsMap(allData))
      ensures Keys(allData) == if a.Fetched? && c !in Keys(old(allData)) then Keys(old(allData)) + [c]
                               else Keys(old(allData))
    {
      match a {
        case Raised =>
          emptyVenues := emptyVenues + {c};
        case Fetched(groups) =>
          StoreStep(codes, allData, c, groups);
          allData := Put(allData, c, groups);
          if groups == [] {
            emptyVenues := emptyVenues + {c};
          }
      }
    }

    /** The body of passes 2 and 3 for one code (bms1.py:307-312, 321-327): only a result
        with shows is stored, and only then does the code leave the empty set. */
    method RetryResult(c: string, a: Attempt)
      requires Valid() && c in codes
      modifies this
      ensures Valid()
      ensures emptyVenues == old(emptyVenues) - (if HasShows(a) then {c} else {})
      ensures allData == if HasShows(a) then Put(old(allData), c, a.groups) else old(allData)
      ensures AsMap(allData) == if HasShows(a) then old(AsMap(allData))[c := a.groups] else old(AsMap(allData))
      ensures KeysExtend(old(allData), allData)
    {
      if !HasShows(a) {
        assert KeysExtend(allData, allData);
      } else {
        StoreStep(codes, allData, c, a.groups);
        allData := Put(allData, c, a.groups);
        emptyVenues := emptyVenues - {c};
      }
    }

    /** Pass 1 (bms1.py:292-300): every code is fetched once with the worker's cached
        session; the result is stored even when empty, and a code is marked empty when the
        fetch raised or found no show. */
    method PassOne(w: Worker, fetch: string -> Attempt)
      requires Valid() && allData == [] && emptyVenues == {}
      requires w.Valid()
      modifies this, w
      ensures Valid() && w.Valid()
      ensures emptyVenues == NoShowCodes(codes, fetch)
      ensures AsMap(allData) == FetchedMap(codes, fetch)
      ensures Keys(allData) == FetchedCodes(codes, fetch)
      ensures w.sessionsMade <= old(w.sessionsMade) + 1
      ensures w.browsersMade == old(w.browsersMade)
    {
      var i := 0;
      while i < |codes|
        invariant 0 <= i <= |codes|
        invariant Valid() && w.Valid()
        invariant emptyVenues == NoShowCodes(codes[..i], fetch)
        invariant AsMap(allData) == FetchedMap(codes[..i], fetch)
        invariant Keys(allData) == FetchedCodes(codes[..i], fetch)
        invariant w.sessionsMade <= old(w.sessionsMade) + 1
        invariant w.sessionsMade == old(w.sessionsMade) + 1 ==> w.scraper.Some?
        invariant w.browsersMade == old(w.browsersMade)
      {
        var c := codes[i];
        var _ := w.GetScraper();
        FirstResult(c, fetch(c));
        FirstPassAt(codes, i, fetch);
        i := i + 1;
      }
      assert codes[..i] == codes;
    }

    /** One iteration of pass 2 or 3 (bms1.py:305-312, 319-327): a fresh identity, then
        one fetch of `c`, which moves `c` from the codes still to retry to the retried ones. */
    method RetryCode(w: Worker, c: string, fetch: string -> Attempt, viaBrowser: bool, uaDraw: nat,
                     ghost m0: map<string, MovieGroups>, ghost s0: nat, ghost b0: nat, ghost start: set<string>,
                     ghost pending: set<string>, ghost done: set<string>)
      requires Valid() && w.Valid() && c in pending
      requires Retrying(emptyVenues, AsMap(allData), w.sessionsMade, w.browsersMade,
                        m0, s0, b0, start, pending, done, fetch, viaBrowser)
      modifies this, w
      ensures Valid() && w.Valid()
      ensures Retrying(emptyVenues, AsMap(allData), w.sessionsMade, w.browsersMade,
                       m0, s0, b0, start, pending - {c}, done + {c}, fetch, viaBrowser)
      ensures KeysExtend(old(allData), allData)
    {
      ghost var empty, store := emptyVenues, AsMap(allData);
      FreshIdentity(w, viaBrowser, uaDraw);
      RetryResult(c, fetch(c));
      RetryStep(empty, store, old(w.sessionsMade), old(w.browsersMade), w.sessionsMade, w.browsersMade,
                m0, s0, b0, start, pending, done, c, fetch, viaBrowser);
    }

    /** Passes 2 and 3 (bms1.py:304-328): each code that is empty when the pass starts is
        fetched once more after a reset of the worker's identity, with a new session (pass 2)
        or a new browser (pass 3); a result with shows replaces the stored one and takes
        the code out of the empty set, anything else changes nothing. */
    method RetryPass(w: Worker, fetch: string -> Attempt, viaBrowser: bool, uaDraws: string -> nat)
      requires Valid() && w.Valid()
      modifies this, w
      ensures Valid() && w.Valid()
      ensures emptyVenues == Misses(old(emptyVenues), fetch)
      ensures AsMap(allData) == old(AsMap(allData)) + Hits(old(emptyVenues), fetch)
      ensures Created(w.sessionsMade, w.browsersMade, old(w.sessionsMade), old(w.browsersMade),
                      |old(emptyVenues)|, viaBrowser)
      ensures KeysExtend(old(allData), allData)
    {
      var pending := emptyVenues;
      ghost var start, m0 := emptyVenues, AsMap(allData);
      ghost var s0, b0 := w.sessionsMade, w.browsersMade;
      ghost var done: set<string> := {};
      ghost var d0 := allData;
      assert KeysExtend(d0, d0);
      RetryStart(emptyVenues, AsMap(allData), w.sessionsMade, w.browsersMade, fetch, viaBrowser);
      while pending != {}
        invariant Valid() && w.Valid()
        invariant Retrying(emptyVenues, AsMap(allData), w.sessionsMade, w.browsersMade,
                           m0, s0, b0, start, pending, done, fetch, viaBrowser)
        invariant KeysExtend(d0, allData)
        decreases pending
      {
        var c :| c in pending;
        ghost var d1 := allData;
        RetryCode(w, c, fetch, viaBrowser, uaDraws(c), m0, s0, b0, start, pending, done);
        KeysExtendTrans(d0, d1, allData);
        pending := pending - {c};
        done := done + {c};
      }
      RetryDone(emptyVenues, AsMap(allData), w.sessionsMade, w.browsersMade,
                m0, s0, b0, start, pending, done, fetch, viaBrowser);
    }
  }

  /** What a retry does to the worker before its fetch (bms1.py:305, 319): reset the
      identity, then the fetch creates a new session (pass 2) or a new browser (pass 3). */
  method FreshIdentity(w: Worker, viaBrowser: bool, uaDraw: nat)
    requires w.Valid()
    modifies w
    ensures w.Valid()
    ensures viaBrowser ==> w.browsersMade == old(w.browsersMade) + 1 && w.sessionsMade == old(w.sessionsMade)
                           && w.driver == Some(Browser(old(w.browsersMade), ChooseAgent(uaDraw)))
    ensures !viaBrowser ==> w.sessionsMade == old(w.sessionsMade) + 1 && w.browsersMade == old(w.browsersMade)
                            && w.scraper == Some(Session(old(w.sessionsMade)))
  {
    w.ResetIdentity();
    if viaBrowser {
      var _ := w.GetDriver(uaDraw);
    } else {
      var _ := w.GetScraper();
    }
  }

  /** What the run keeps once all three passes are over, for the fetches `f1`, `f2`, `f3`. */
  function Stored(codes: seq<string>, f1: string -> Attempt, f2: string -> Attempt,
                  f3: string -> Attempt): map<string, MovieGroups> {
    map c | c in codes && StoredFor(Trace(f1(c), f2(c), f3(c))).Some? :: StoredFor(Trace(f1(c), f2(c), f3(c))).value
  }

  /** The codes the run leaves empty, for the fetches `f1`, `f2`, `f3`. */
  function StillEmpty(codes: seq<string>, f1: string -> Attempt, f2: string -> Attempt,
                      f3: string -> Attempt): set<string> {
    set c | c in codes && EndsEmpty(Trace(f1(c), f2(c), f3(c)))
  }

  /** What the run stores, for the replies of the three passes. */
  function StoredMap(codes: seq<string>, r1: string -> Reply, r2: string -> Reply, r3: string -> Reply,
                     target: string): map<string, MovieGroups> {
    Stored(codes, ApiFetch(r1, target), ApiFetch(r2, target), BrowserFetch(r3, target))
  }

  /** The codes the run leaves empty, for the replies of the three passes. */
  function EmptyCodes(codes: seq<string>, r1: string -> Reply, r2: string -> Reply, r3: string -> Reply,
                      target: string): set<string> {
    StillEmpty(codes, ApiFetch(r1, target), ApiFetch(r2, target), BrowserFetch(r3, target))
  }

  /** The store after the three passes: pass 1's store, overridden by pass 2's hits among
      pass 1's empty codes, overridden by pass 3's hits among the codes still empty. */
  function AfterPasses(codes: seq<string>, f1: string -> Attempt, f2: string -> Attempt,
                       f3: string -> Attempt): map<string, MovieGroups> {
    var e1 := NoShowCodes(codes, f1);
    FetchedMap(codes, f1) + Hits(e1, f2) + Hits(Misses(e1, f2), f3)
  }

  /** The composition of the passes, seen from one code. */
  lemma AfterPassesAt(codes: seq<string>, f1: string -> Attempt, f2: string -> Attempt, f3: string -> Attempt,
                      c: string)
    ensures var t := StoredFor(Trace(f1(c), f2(c), f3(c)));
            (c in AfterPasses(codes, f1, f2, f3) <==> c in codes && t.Some?)
            && (c in AfterPasses(codes, f1, f2, f3) ==> AfterPasses(codes, f1, f2, f3)[c] == t.value)
  {
  }

  /** The three passes one after the other store what `StoredFor` says for each code. */
  lemma PassesStore(codes: seq<string>, f1: string -> Attempt, f2: string -> Attempt, f3: string -> Attempt)
    ensures AfterPasses(codes, f1, f2, f3) == Stored(codes, f1, f2, f3)
  {
    var lhs := AfterPasses(codes, f1, f2, f3);
    var rhs := Stored(codes, f1, f2, f3);
    forall c ensures (c in lhs <==> c in rhs) && (c in lhs ==> lhs[c] == rhs[c]) {
      AfterPassesAt(codes, f1, f2, f3, c);
    }
    assert lhs.Keys == rhs.Keys;
  }

  /** The three passes one after the other leave empty exactly the codes none of whose
      attempts found a show. */
  lemma PassesLeaveEmpty(codes: seq<string>, f1: string -> Attempt, f2: string -> Attempt, f3: string -> Attempt)
    ensures Misses(Misses(NoShowCodes(codes, f1), f2), f3) == StillEmpty(codes, f1, f2, f3)
  {
  }

  /** The whole retrieval: pass 1 with the first replies, pass 2 with the second, pass 3
      through the browser with the third. A code ends empty exactly when none of its
      attempts found a show, and the store holds what `StoredFor` says for every code. */
  method Retrieve(codes: seq<string>, r1: string -> Reply, r2: string -> Reply, r3: string -> Reply,
                  target: string, uaDraws: string -> nat)
    returns (allData: VenueData, emptyVenues: set<string>)
    ensures UniqueKeys(allData)
    ensures emptyVenues == EmptyCodes(codes, r1, r2, r3, target)
    ensures AsMap(allData) == StoredMap(codes, r1, r2, r3, target)
    ensures var first := FetchedCodes(codes, ApiFetch(r1, target));
            |first| <= |allData| && Keys(allData)[..|first|] == first
  {
    var w := new Worker();
    var run := new Run(codes);
    var f1, f2, f3 := ApiFetch(r1, target), ApiFetch(r2, target), BrowserFetch(r3, target);
    run.PassOne(w, f1);
    ghost var d1 := run.allData;
    run.RetryPass(w, f2, false, uaDraws);
    ghost var d2 := run.allData;
    run.RetryPass(w, f3, true, uaDraws);
    KeysExtendTrans(d1, d2, run.allData);
    PassesStore(codes, f1, f2, f3);
    PassesLeaveEmpty(codes, f1, f2, f3);
    allData, emptyVenues := run.allData, run.emptyVenues;
  }

  // ---------------------------------------------------------------------------
  // The final status report (bms1.py:332-335).

  /** The codes with shows at the end of the run. */
  function RecoveredCodes(codes: seq<string>, r1: string -> Reply, r2: string -> Reply, r3: string -> Reply,
                          target: string): set<string> {
    set c | c in codes && !EndsEmpty(TraceOf(r1, r2, r3, target, c))
  }

  /** The "Recovered data" line as written: entries in the store minus empty codes. */
  function PrintedRecovered(allData: VenueData, emptyVenues: set<string>): int {
    |allData| - |emptyVenues|
  }

  /** The recovered count: input codes that are not left empty. */
  function Recovered(codes: seq<string>, emptyVenues: set<string>): int {
    |set c | c in codes| - |emptyVenues|
  }

  /** The recovered count is the number of codes whose stored result has shows, and the
      codes split into recovered and still empty. */
  lemma RecoveredCounts(codes: seq<string>, r1: string -> Reply, r2: string -> Reply, r3: string -> Reply,
                        target: string, allData: VenueData, emptyVenues: set<string>)
    requires emptyVenues == EmptyCodes(codes, r1, r2, r3, target)
    ensures Recovered(codes, emptyVenues) == |RecoveredCodes(codes, r1, r2, r3, target)|
    ensures Recovered(codes, emptyVenues) + |emptyVenues| == |set c | c in codes|
    ensures forall c :: c in RecoveredCodes(codes, r1, r2, r3, target) <==>
              c in codes && StoredFor(TraceOf(r1, r2, r3, target, c)).Some?
              && StoredFor(TraceOf(r1, r2, r3, target, c)).value != []
  {
    var all := set c | c in codes;
    var rec := RecoveredCodes(codes, r1, r2, r3, target);
    forall c ensures c in rec <==> c in codes && StoredFor(TraceOf(r1, r2, r3, target, c)).Some?
                                   && StoredFor(TraceOf(r1, r2, r3, target, c)).value != [] {
      StoredWithShows(TraceOf(r1, r2, r3, target, c));
    }
    assert all == rec + emptyVenues;
    assert rec !! emptyVenues;
  }

  /** A code is recovered exactly when what the run keeps for it has shows. */
  lemma StoredWithShows(t: Trace)
    ensures !EndsEmpty(t) <==> StoredFor(t).Some? && StoredFor(t).value != []
  {
  }

  /** The printed count falls short of the recovered count by the number of codes that
      pass 1 never stored and no later pass recovered. */
  lemma PrintedRecoveredShortfall(codes: seq<string>, r1: string -> Reply, r2: string -> Reply, r3: string -> Reply,
                                  target: string, allData: VenueData, emptyVenues: set<string>)
    requires UniqueKeys(allData)
    requires emptyVenues == EmptyCodes(codes, r1, r2, r3, target)
    requires AsMap(allData) == StoredMap(codes, r1, r2, r3, target)
    ensures PrintedRecovered(allData, emptyVenues)
            == Recovered(codes, emptyVenues) - |(set c | c in codes) - StoredMap(codes, r1, r2, r3, target).Keys|
  {
    var all := set c | c in codes;
    var stored := StoredMap(codes, r1, r2, r3, target).Keys;
    AsMapSize(allData);
    assert |stored| == |allData|;
    assert all == stored + (all - stored);
    assert stored !! (all - stored);
  }

  /** A service that never answers. */
  function Unreachable(c: string): Reply {
    NoReply
  }

  /** One code whose every fetch fails to connect: nothing is stored, the code stays empty,
      and the line as written reports -1 recovered venues where none was recovered. */
  lemma PrintedRecoveredNegative(allData: VenueData, emptyVenues: set<string>)
    requires UniqueKeys(allData)
    requires emptyVenues == EmptyCodes(["V1"], Unreachable, Unreachable, Unreachable, "20250101")
    requires AsMap(allData) == StoredMap(["V1"], Unreachable, Unreachable, Unreachable, "20250101")
    ensures PrintedRecovered(allData, emptyVenues) == -1
    ensures Recovered(["V1"], emptyVenues) == 0
  {
    var none := Unreachable;
    assert none("V1") == NoReply;
    assert ApiFetch(none, "20250101")("V1") == ApiAttempt(none("V1"), "20250101");
    assert ApiAttempt(NoReply, "20250101") == Raised;
    assert BrowserFetch(none, "20250101")("V1") == BrowserAttempt(none("V1"), "20250101");
    assert BrowserAttempt(NoReply, "20250101") == Raised;
    assert TraceOf(none, none, none, "20250101", "V1") == Trace(Raised, Raised, Raised);
    assert (set c | c in ["V1"]) == {"V1"};
    assert emptyVenues == {"V1"};
    assert AsMap(allData) == map[];
    AsMapSize(allData);
  }
}
