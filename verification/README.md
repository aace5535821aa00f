# bms1 — a Dafny model of the show-time scraper's core

`bms1.py` collects one day's cinema show times, venue by venue, from the BookMyShow
mobile API. It then turns them into a per-movie summary and a flat list of show records.
This project models the parts of it that decide *what* ends up in those files:

- **Parsing** (`Parser`): `parse_payload` turns one showtime response into per-movie
  lists of show records. It keeps only the shows of the target date and labels each
  movie from its title, dimension and language. It stamps every record with the venue
  of the first block and sums the seat categories.
- **Aggregation** (`Aggregate`): `aggregate` visits the store venue by venue, movie by
  movie and show by show. It builds the per-movie counters (shows, gross, sold, seats,
  housefull and fastfilling bands, distinct venues and cities) and the detailed rows,
  then finalises the summary with its occupancy.
- **Fetching** (`Fetch`): `fetch_cloud`, `fetch_via_selenium_api` and `fetch_api`.
  Each one applies the JSON-prefix sniff to the reply body. The service's reply is an
  input.
- **Identity** (`Identity`): `random_ip` and `headers`, plus the per-thread scraper and
  browser handles. `get_scraper` and `get_driver` create a handle only when none is
  cached, and `reset_identity` drops both (quitting the browser). In the model this is
  the `Worker` class.
- **Retrieval** (`Retrieval`): the three passes of the main program (direct API, API
  retry with a fresh identity, browser fallback) over the run's `all_data` store and
  `empty_venues` set, which is the `Run` class. It also models the final status line.

Python dicts keep insertion order, and the order of the detailed output follows it.
Parse results and `all_data` are therefore insertion-ordered association lists with
distinct keys (`Dict`). `AsMap` is their map view, for statements that do not depend on
order. Module `Util` holds `Option`; `Text` holds `str.strip` and slicing.

## Model

| member | source | states |
|---|---|---|
| Dict.Put | bms1.py:173 | after `d[k] = v`, `k` maps to `v` and every other key keeps its value |
| Dict.PutKeys | bms1.py:173 | an existing key keeps its position; a new key is appended last |
| Dict.PutKeepsUniqueKeys | bms1.py:173 | storing under a key never gives two entries the same key |
| Dict.AppendTo | bms1.py:145-173 | `defaultdict(list)` append: the list under `k` (empty when new) gains `v` at its end; other keys are untouched; key order as for `Put`; keys stay distinct |
| Dict.AppendToLength | bms1.py:173 | one append adds exactly one value across all lists |
| Dict.PutAsMap | bms1.py:295 | `d[k] = v` updates the map view at `k` and nowhere else |
| Text.StripLeading | bms1.py:93 | the result is a suffix of the input that does not start with whitespace; everything dropped is whitespace |
| Text.StripTrailing | bms1.py:93 | the result is a prefix of the input that does not end with whitespace; everything dropped is whitespace |
| Text.StripHead | bms1.py:93 | `strip()` is empty exactly when the input is all whitespace; otherwise its first character is the first non-whitespace character |
| Text.Take | bms1.py:158 | `s[:n]` has length `min(len(s), n)` and is a prefix of `s` |
| Parser.MovieLabel | bms1.py:152-155 | the label is the title when both stripped values are empty; otherwise `title [dim \| lang]`, `title [dim]` or `title [lang]` as the non-empty stripped values say |
| Parser.TitleOf | bms1.py:149 | the movie title is `EventTitle`, or "Unknown" when absent |
| Parser.StampOf | bms1.py:140-143 | venue name and address default to "", the chain to "Unknown" |
| Parser.DateCodeOf | bms1.py:158 | a non-empty `ShowDateCode` is the date code; otherwise the first eight characters of `ShowDateTime` (all of it when shorter, "" when absent) |
| Parser.SoldIsTotalMinusAvailable | bms1.py:162-171 | the summed sold seats are the summed seats minus the summed free seats |
| Parser.SumCategories | bms1.py:162-171 | the category loop yields the total, available, sold and gross sums over all categories |
| Parser.MakeRecord | bms1.py:173-184 | the record carries the venue stamp, the show's time, session id and attributes (default ""), the category sums, and sold = total - available |
| Parser.Collect | bms1.py:145-184 | grouping the on-date shows by label gives distinct labels |
| Parser.CollectGet | bms1.py:157-184 | the list under a label holds, in order, the records of that label's on-date shows, and only labels with such a show are present |
| Parser.KeptMembers | bms1.py:157-184 | a record is kept under a label exactly when it is made from an on-date show of that label |
| Parser.CollectEmptyIff | bms1.py:172-191 | the result is empty exactly when `valid` is 0, that is, when no show has the target date |
| Parser.AddShowTimes | bms1.py:157-184 | the show-time loop extends the grouping and the `valid` count by exactly the child's shows |
| Parser.AddChildEvents | bms1.py:151-184 | the child-event loop extends the grouping and the `valid` count by exactly the event's shows |
| Parser.ParsePayload | bms1.py:135-191 | `parse_payload` equals the grouping of all the response's shows; its `valid` counts the on-date shows; the result is empty iff `valid` is 0, and it is empty when `ShowDetails` is missing or empty |
| Parser.CollectSize | bms1.py:172 | the number of records emitted equals the number of on-date shows |
| Parser.ParseSize | bms1.py:172-184 | over a whole response, records emitted = `valid` |
| Parser.ParsedRecordIsOnDate | bms1.py:140-184 | every emitted record comes from a show of that label with the target date code, stamped with the first block's venue |
| Parser.OnDateShowIsParsed | bms1.py:140-184 | conversely, every on-date show yields its record under its label |
| Parser.ParsedRecordFields | bms1.py:140-184 | an emitted record carries the venue name, address and chain (default "Unknown"), and its sold count is total minus available |
| Aggregate.Rows | bms1.py:241-257 | one detailed row per visited show, row i being the detailed record of show i |
| Aggregate.CityOf | bms1.py:212-213 | a venue's city is its catalogue `City`, or "Unknown" when the field or the venue is missing |
| Aggregate.StateOf | bms1.py:212-214 | a venue's state is its catalogue `State`, or "Unknown" when the field or the venue is missing |
| Aggregate.Occupancy | bms1.py:229 | 0 for a show without seats; otherwise the percentage p with p · total = 100 · sold |
| Aggregate.Detail | bms1.py:241-257 | a detailed record holds the show's fields, its venue's city and state from the catalogue, its own occupancy, source "BMS" and the target date |
| Aggregate.CountShow | bms1.py:227-239 | one show adds 1 to the show count and its gross, sold and seats to the sums; the housefull band at ≥ 98 % occupancy, otherwise fastfilling at ≥ 50 % |
| Aggregate.AddShows | bms1.py:226-257 | the show loop brings the counters table and the detailed rows to their values over one more group's shows |
| Aggregate.AddGroup | bms1.py:216-257 | the movie loop body registers the movie's venue and city, then counts its shows |
| Aggregate.AddVenue | bms1.py:211-257 | the venue loop body processes every movie group of the venue, in order |
| Aggregate.Finalize | bms1.py:259-270 | a summary entry copies the counters, replaces the venue and city sets by their sizes, and computes occupancy over the sums |
| Aggregate.Aggregate | bms1.py:207-274 | `aggregate` returns exactly the detailed rows of all shows, in store order, and the summary of all venues' groups |
| Aggregate.CountersAgreeWithRows | bms1.py:226-257 | a movie's counters are the totals of its detailed rows |
| Aggregate.SummaryMatchesDetailed | bms1.py:226-270 | the summary's shows, gross, sold, seats and band counts equal the totals of the movie's detailed rows (bands read off the unrounded occupancy column), and its occupancy is that of their sums |
| Aggregate.BandsWithinShows | bms1.py:236-239 | a show falls in at most one band |
| Aggregate.Bands | bms1.py:229-239 | for a show with seats: housefull iff 50·sold ≥ 49·total, fastfilling iff half or more but less than that; a show without seats is in no band |
| Aggregate.AtLeast | bms1.py:229-239 | for a show with seats, occupancy reaches p % exactly when 100·sold ≥ p·total |
| Aggregate.SlotsMembers | bms1.py:211-216 | the visited (venue, movie) pairs are exactly the groups in the store |
| Aggregate.EntriesMembers | bms1.py:211-226 | a show is visited exactly when it sits in some group in the store |
| Aggregate.EntriesHas | bms1.py:211-226 | every show stored in `all_data` is visited, and so gets a detailed row |
| Aggregate.VenueEntriesMembers | bms1.py:216-226 | every visited show of a venue sits in one of its groups |
| Aggregate.CoveredAll | bms1.py:217-226 | every visited show's movie has a summary entry (`setdefault` precedes the shows) |
| Aggregate.VenuesOfSlots | bms1.py:223 | the venues collected for a movie are those of the store that hold a group for it |
| Aggregate.MoviesOfVenues | bms1.py:217-223 | a movie has a summary entry exactly when some venue was added to it |
| Aggregate.CitiesOfVenues | bms1.py:212-224 | a movie's cities are the catalogue cities (default "Unknown") of its venues |
| Aggregate.SummaryKeysAndVenues | bms1.py:216-265 | the summary has exactly the movies with a group at some venue, even a group without shows; `venues` and `cities` count the distinct venues and their cities; a movie absent from it has no detailed row |
| Aggregate.SummaryBounds | bms1.py:259-270 | every summarised movie has at least one venue and one city, and no more banded shows than shows |
| Aggregate.TwoShowScenario | bms1.py:207-274 | worked example: shows at 2 % and 99 % of 100 seats give 2 shows, 101 sold of 200, one housefull, none fastfilling, 50.5 % occupancy |
| Fetch.JsonPrefixedIff | bms1.py:93 | the sniff accepts a body exactly when its first non-whitespace character is `{` |
| Fetch.RawJson | bms1.py:96 | `json.loads` of the raw body equals that of the stripped body when `strip()` removed only space, tab, newline and carriage return, and fails otherwise |
| Fetch.FetchCloud | bms1.py:91-96 | success exactly for a reply that passes the sniff and whose raw text `r.json()` decodes, with the decoded value; a body failing the sniff raises "HTML response"; a JSON body framed by whitespace JSON does not skip fails to decode |
| Fetch.FetchViaBrowser | bms1.py:115-131 | a body failing the sniff gives `{}` instead of raising; a body passing it succeeds exactly when the stripped body decodes, and agrees with `fetch_cloud` when only JSON whitespace was stripped; no reply raises |
| Fetch.ApiAttempt | bms1.py:196-202 | `fetch_api` returns a parse result exactly when `fetch_cloud` succeeds, and then it is the parse of the decoded payload |
| Fetch.BrowserAttempt | bms1.py:321-322 | pass 3's fetch returns a parse result exactly when `fetch_via_selenium_api` succeeds, and then it is the parse of what that returned |
| Fetch.AttemptsAgree | bms1.py:196-202 | the browser path has data exactly when the stripped body decodes with a show on the target date; the API path has data exactly when the browser path does and only JSON whitespace was stripped; a non-JSON page raises in one path and gives an empty result in the other |
| Fetch.FormFeedBody | bms1.py:91-131 | a JSON body led by a form feed raises in the API path but is decoded by the browser path |
| Identity.RandInt | bms1.py:56 | `randint(lo, hi)` is within `[lo, hi]`, and a draw within range picks `lo + draw` |
| Identity.ChooseAgent | bms1.py:61 | `random.choice(USER_AGENTS)` picks one of the three agents |
| Identity.ChooseUserAgent | bms1.py:49-61 | the chosen agent string is in the pool |
| Identity.RandomOctets | bms1.py:55-56 | four octets, each between 10 and 240 |
| Identity.DecimalRoundTrip | bms1.py:56 | `str(n)` reads back as `n` and has no leading zero |
| Identity.SplitJoin | bms1.py:56 | splitting a dot-join of one or more dot-free parts at the dots gives the parts back |
| Identity.RandomIp | bms1.py:55-56 | `random_ip()` is a dotted quad that reads back as the four drawn octets, each in [10, 240] |
| Identity.MakeHeaders | bms1.py:58-67 | the headers carry a pool user agent, the fixed Accept/Origin/Referer values, and one random IP in both X-Forwarded-For and Client-IP |
| Identity.Worker.constructor | bms1.py:40 | a fresh thread has no cached scraper or browser |
| Identity.Worker.GetScraper | bms1.py:72-79 | returns the cached scraper when there is one; otherwise it creates, caches and returns a new one; the browser is untouched |
| Identity.Worker.GetDriver | bms1.py:98-113 | returns the cached browser when there is one; otherwise it creates a new one with a pool user agent and caches it; the scraper is untouched |
| Identity.Worker.ResetIdentity | bms1.py:81-89 | drops both handles; the browser, if any, is quit |
| Identity.ResetGivesFreshHandles | bms1.py:72-113 | after a reset, both getters return handles different from the ones cached before |
| Retrieval.FirstPassStep | bms1.py:292-299 | pass 1 over one more code adds its result when the fetch did not raise, and marks it empty when it found no show |
| Retrieval.FetchedCodesOrder | bms1.py:292-295 | pass 1's keys are distinct, are exactly the codes whose fetch did not raise, and (for distinct input codes) follow the input order |
| Retrieval.Run.constructor | bms1.py:42-43 | the run starts with an empty store and no empty codes |
| Retrieval.Run.FirstResult | bms1.py:293-299 | pass 1 on one code: any parse result is stored with `all_data[vcode] = data` (an existing key keeps its place, a new one goes last), and the code is marked empty unless it has shows |
| Retrieval.Run.RetryResult | bms1.py:306-328 | a retry on one code: a result with shows is stored with `all_data[vcode] = data` and the code leaves the empty set; otherwise nothing changes; existing keys keep their places |
| Retrieval.Run.PassOne | bms1.py:292-299 | after pass 1 the empty set is the codes without shows, the store maps every code whose fetch did not raise to its result, and its keys are those codes in input order |
| Retrieval.RetryStep | bms1.py:303-328 | the retry-loop invariant survives one more code |
| Retrieval.RetryDone | bms1.py:303-328 | at the end of a retry loop, the empty set is the misses and the store gained the hits |
| Retrieval.Run.RetryCode | bms1.py:304-328 | one retry iteration: reset identity, fresh handle, fetch, record |
| Retrieval.Run.RetryPass | bms1.py:303-328 | a retry pass leaves empty exactly the previously empty codes it could not recover, stores the recovered ones, keeps every existing key in its place, and creates one new scraper (pass 2) or browser (pass 3) per code |
| Retrieval.FreshIdentity | bms1.py:303-321 | the reset before each retry makes the next fetch use a newly created handle |
| Retrieval.PassesStore | bms1.py:292-328 | the three passes together store, per code, the first result with shows, else pass 1's empty result, else nothing |
| Retrieval.PassesLeaveEmpty | bms1.py:292-328 | the three passes together leave empty exactly the codes none of whose attempts found a show |
| Retrieval.Retrieve | bms1.py:292-328 | the whole retrieval: keys stay distinct, the empty set and the store are as the two lemmas above say, and pass 1's keys come first in input order |
| Retrieval.StoredWithShows | bms1.py:296-325 | a code is recovered exactly when its stored result has shows |
| Retrieval.RecoveredCounts | bms1.py:332-335 | the corrected count is the number of recovered codes, and recovered + still empty = input codes |
| Retrieval.PrintedRecoveredShortfall | bms1.py:334 | as written, the printed count falls short of the recovered count by the codes pass 1 never stored and nothing recovered |
| Retrieval.PrintedRecoveredNegative | bms1.py:334 | as written, one unreachable venue makes the line print -1 recovered |

## Left out

- Floating point: prices, gross and occupancy are exact. Prices are whole numbers of the
  smallest currency unit, occupancy is an exact `real`, and `round(…, 2)` is not applied.
- JSON values of the wrong type or `null` (which raise in `int()`/`float()`/`.strip()`)
  are not modelled. A missing key is modelled by `Option`, or by an empty list.
- The network, the Cloudflare scraper and the headless browser are not modelled.
  Each request's outcome is a caller-supplied `Reply`: no reply, or a body plus what
  `json.loads` makes of the stripped body. What it makes of the raw body is derived
  from the whitespace `strip()` removed. How `requests` picks the text encoding for
  `r.json()`, and what Chrome wraps around a JSON page in `page_source`, are not
  modelled; the reply is the body as text.
- Randomness is not modelled: `random.randint`/`random.choice` are explicit draws, and
  `time.sleep` with its random delays is left out.
- Identity.MakeHeaders: its headers are not tied to the request a fetch makes. The
  fetch outcome is an oracle, so what the headers change at the server is not captured.
- Threads and the lock are not modelled. `NUM_WORKERS` is 1; `thread_local` becomes
  one `Worker`.
- File I/O is left out: reading `venues1.json`, `dump_memory` and the JSON files it
  writes, and every `print`. The venue catalogue and the venue codes are parameters.
- `DATE_CODE` (tomorrow's date in IST, from the clock) is the `target` parameter.
- The order in which passes 2 and 3 visit `list(empty_venues)` is Python's set order.
  It is modelled as an arbitrary choice.
- Retrieval.Run.RetryPass: states that existing keys keep their places and new codes go
  after them. The order among the recovered codes appended in one pass follows Python's
  set order, so it is not stated.
- Identity.Worker.GetDriver: starting a browser cannot fail in the model. In the source,
  `webdriver.Chrome(...)` or the driver install can raise (bms1.py:108-111), and then
  nothing is cached.
- Retrieval.Run.RetryPass: for the same reason, the model always counts one new browser
  per pass-3 code. In the source, a failed browser start is swallowed by pass 3's
  `except` (bms1.py:327) and the code stays empty; the model leaves that outcome to the
  reply oracle.
- Identity.Worker.GetScraper: creating a scraper cannot fail in the model either.
- Aggregate.SummaryMatchesDetailed: the detailed rows hold the exact occupancy, and their
  bands are read off it. The source writes `round(occ, 2)` (bms1.py:254) but bands the
  summary on the unrounded value (bms1.py:236-239). So a band recomputed from the
  written column can differ: 440 sold of 449 seats is 97.9955…%, fastfilling in the
  summary, and the written column shows 98.0.
- Retrieval.Run.PassOne: states only that at most one scraper is created. That is the
  first call when none is cached; cached reuse after that is not counted exactly.
- The summary's JSON key order is not modelled: the summary is a map.
- `combine_shards.py` and `cleanup_shard_files.py` are not part of this model.

## Findings

| source | as written | input that shows it | evidently intended | confidence | as-written member | corrected member |
|---|---|---|---|---|---|---|
| bms1.py:334 | "Recovered data" prints `len(all_data) - len(empty_venues)`. `all_data` lacks every code whose pass-1 fetch raised, while `empty_venues` still counts such codes when nothing recovered them. | One venue code whose every request fails to connect: `all_data` is empty, `empty_venues` is that code, and the line prints -1. | The number of input codes that ended with shows: the venue count minus `len(empty_venues)`. | not executed | Retrieval.PrintedRecoveredNegative | Retrieval.RecoveredCounts |
