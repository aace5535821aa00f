/** The two ways of asking the remote service for a venue's show times, and the content
    sniff both apply to the body before trusting it (bms1.py:91-96, 115-131, 196-202).
    The network and the browser are not modelled: the service's answer is a `Reply`
    supplied by the caller. */
module Fetch {
  import opened Util
  import opened Text
  import opened Payload
  import opened Parser

  /** What one request got back: nothing (a timeout or a connection failure), or a body
      together with what `json.loads` makes of the stripped body `text.strip()` (`None`
      when that is not JSON). What the decoder makes of the raw body follows from it:
      see `RawJson`. */
  datatype Reply = NoReply | Reply(text: string, json: Option<ShowtimesPayload>)

  datatype FetchError = Transport | HtmlResponse | MalformedJson

  datatype Outcome<T> = Ok(value: T) | Err(error: FetchError)

  /** The content sniff: after stripping whitespace the body starts with `{`
      (bms1.py:94, 128-129). */
  predicate JsonPrefixed(body: string) {
    var t := Strip(body);
    t != [] && t[0] == '{'
  }

  /** The sniff accepts a body exactly when its first non-whitespace character is `{`. */
  lemma JsonPrefixedIff(body: string)
    ensures JsonPrefixed(body) <==>
              exists k :: 0 <= k < |body| && body[k] == '{' && forall i :: 0 <= i < k ==> IsSpace(body[i])
  {
    StripHead(body);
    var k0 := |body| - |StripLeading(body)|;
    if JsonPrefixed(body) {
      assert 0 <= k0 < |body| && body[k0] == '{' && forall i :: 0 <= i < k0 ==> IsSpace(body[i]);
    }
    if exists k :: 0 <= k < |body| && body[k] == '{' && forall i :: 0 <= i < k ==> IsSpace(body[i]) {
      var k :| 0 <= k < |body| && body[k] == '{' && forall i :: 0 <= i < k ==> IsSpace(body[i]);
      assert !IsSpace(body[k]);
      assert Strip(body) != [];
    }
  }

  /** The whitespace JSON's decoder skips around a value: space, tab, newline and
      carriage return. `str.strip()` removes more (form feed, `\x1c`-`\x1f`, no-break
      space, ...). */
  predicate IsJsonSpace(c: char) {
    c == ' ' || c == '\t' || c == '\n' || c == '\r'
  }

  /** Everything `strip()` removes from `body`, at either end, is whitespace the JSON
      decoder also skips. */
  predicate JsonFramed(body: string) {
    var l := StripLeading(body);
    (forall i :: 0 <= i < |body| - |l| ==> IsJsonSpace(body[i]))
    && (forall i :: |StripTrailing(l)| <= i < |l| ==> IsJsonSpace(l[i]))
  }

  /** What `json.loads` makes of the raw body. The decoder skips JSON whitespace, decodes
      one value and then demands the end of the text. So when `strip()` removed only JSON
      whitespace, the raw and the stripped body decode alike. Otherwise a stripped-off
      character that JSON does not skip is met before the value ("Expecting value") or
      after it ("Extra data"), and decoding fails. */
  function RawJson(reply: Reply): (j: Option<ShowtimesPayload>)
    requires reply.Reply?
    ensures j.Some? ==> j == reply.json
    ensures JsonFramed(reply.text) ==> j == reply.json
    ensures !JsonFramed(reply.text) ==> j.None?
  {
    if JsonFramed(reply.text) then reply.json else None
  }

  /** `fetch_cloud` (bms1.py:91-96): a failed request or a body that does not look like
      JSON raises, so does a raw body `r.json()` cannot decode; otherwise the decoded
      object. */
  function FetchCloud(reply: Reply): (r: Outcome<ShowtimesPayload>)
    ensures r.Ok? <==> reply.Reply? && JsonPrefixed(reply.text) && JsonFramed(reply.text) && reply.json.Some?
    ensures r.Ok? ==> r.value == reply.json.value
    ensures reply.Reply? && !JsonPrefixed(reply.text) ==> r == Err(HtmlResponse)
    ensures reply.Reply? && JsonPrefixed(reply.text) && !JsonFramed(reply.text) ==> r == Err(MalformedJson)
  {
    match reply
    case NoReply => Err(Transport)
    case Reply(text, _) =>
      if !JsonPrefixed(text) then Err(HtmlResponse)
      else match RawJson(reply)
        case None => Err(MalformedJson)
        case Some(p) => Ok(p)
  }

  /** `fetch_via_selenium_api` (bms1.py:115-131): the same endpoint loaded in the browser;
      a body that does not look like JSON gives an empty object instead of raising, and
      the decoder is given the stripped body. */
  function FetchViaBrowser(reply: Reply): (r: Outcome<ShowtimesPayload>)
    ensures reply.Reply? && !JsonPrefixed(reply.text) ==> r == Ok(EmptyPayload)
    ensures reply.Reply? && JsonPrefixed(reply.text) ==>
              (r.Ok? <==> reply.json.Some?) && (r.Ok? ==> r.value == reply.json.value)
    ensures reply.Reply? && JsonPrefixed(reply.text) && JsonFramed(reply.text) ==> r == FetchCloud(reply)
    ensures reply.NoReply? ==> r.Err?
  {
    match reply
    case NoReply => Err(Transport)
    case Reply(text, json) =>
      if !JsonPrefixed(text) then Ok(EmptyPayload)
      else if json.None? then Err(MalformedJson)
      else Ok(json.value)
  }

  /** One fetch of one venue code as the retrieval passes see it: it raised, or it came
      back with a parse result. */
  datatype Attempt = Raised | Fetched(groups: MovieGroups)

  /** A parse result with at least one movie: what the passes count as data. */
  predicate HasShows(a: Attempt) {
    a.Fetched? && a.groups != []
  }

  /** `fetch_api` (bms1.py:196-202): `fetch_cloud`, then `parse_payload`. */
  function ApiAttempt(reply: Reply, target: string): (a: Attempt)
    ensures a.Fetched? <==> FetchCloud(reply).Ok?
    ensures a.Fetched? ==> a.groups == Parse(FetchCloud(reply).value, target)
  {
    match FetchCloud(reply)
    case Err(_) => Raised
    case Ok(p) => Fetched(Parse(p, target))
  }

  /** Pass 3's fetch (bms1.py:322-323): `fetch_via_selenium_api`, then `parse_payload`. */
  function BrowserAttempt(reply: Reply, target: string): (a: Attempt)
    ensures a.Fetched? <==> FetchViaBrowser(reply).Ok?
    ensures a.Fetched? ==> a.groups == Parse(FetchViaBrowser(reply).value, target)
  {
    match FetchViaBrowser(reply)
    case Err(_) => Raised
    case Ok(p) => Fetched(Parse(p, target))
  }

  /** The browser path has data exactly when the stripped body decodes to a payload with a
      show on the target date; the API path needs, besides, that the raw body decodes. A
      non-JSON page raises in the API path and yields an empty result in the browser path;
      a JSON body framed by JSON whitespace only gives both paths the same outcome; one
      framed by other whitespace raises in the API path. */
  lemma AttemptsAgree(reply: Reply, target: string)
    ensures HasShows(BrowserAttempt(reply, target)) <==>
              reply.Reply? && JsonPrefixed(reply.text) && reply.json.Some?
              && exists x :: x in AllShows(reply.json.value) && OnDate(target, x)
    ensures HasShows(ApiAttempt(reply, target)) <==>
              HasShows(BrowserAttempt(reply, target)) && JsonFramed(reply.text)
    ensures reply.Reply? && !JsonPrefixed(reply.text) ==>
              ApiAttempt(reply, target) == Raised && BrowserAttempt(reply, target) == Fetched([])
    ensures reply.Reply? && JsonPrefixed(reply.text) && JsonFramed(reply.text) ==>
              BrowserAttempt(reply, target) == ApiAttempt(reply, target)
    ensures reply.Reply? && JsonPrefixed(reply.text) && !JsonFramed(reply.text) ==>
              ApiAttempt(reply, target) == Raised
  {
    if reply.Reply? && reply.json.Some? {
      var p := reply.json.value;
      if p.showDetails != [] {
        CollectEmptyIff(StampOf(p.showDetails[0].venues), target, AllShows(p));
      }
    }
  }

  /** A JSON body preceded by a form feed: `strip()` removes it, so the browser path
      decodes the object, while `r.json()` of the raw text fails and the API path raises. */
  lemma FormFeedBody(target: string)
    ensures var reply := Reply("\U{C}{}", Some(EmptyPayload));
            ApiAttempt(reply, target) == Raised && BrowserAttempt(reply, target) == Fetched([])
  {
    var body := "\U{C}{}";
    var reply := Reply(body, Some(EmptyPayload));
    assert IsSpace(body[0]) && !IsSpace(body[1]) && !IsSpace(body[2]);
    assert StripLeading(body) == body[1..] by {
      assert StripLeading(body[1..]) == body[1..];
    }
    assert Strip(body) == body[1..];
    assert JsonPrefixed(body);
    assert !JsonFramed(body) by {
      assert |body| - |StripLeading(body)| == 1 && !IsJsonSpace(body[0]);
    }
    assert FetchCloud(reply) == Err(MalformedJson);
    assert FetchViaBrowser(reply) == Ok(EmptyPayload);
    assert Parse(EmptyPayload, target) == [];
  }
}
