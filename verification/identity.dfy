/** The request identity (bms1.py:47-67) and the worker's cached handles
    (bms1.py:72-89, 98-113). Randomness is injected: every random choice is a `draw`,
    an arbitrary natural number supplied by the caller. */
module Identity {
  import opened Util

  /** The fixed pool of user agents (bms1.py:48-52). */
  const UserAgents: seq<string> := [
    "Mozilla/5.0 (Windows NT 10.0; Win64; x64) AppleWebKit/537.36 Chrome/120 Safari/537.36",
    "Mozilla/5.0 (Macintosh; Intel Mac OS X 10_15_7) AppleWebKit/537.36 Chrome/119 Safari/537.36",
    "Mozilla/5.0 (X11; Linux x86_64) AppleWebKit/537.36 Chrome/118 Safari/537.36"
  ]

  /** The size of the pool, as a literal so that index bounds need no unfolding of
      `UserAgents`; `PoolSize` ties the two together. */
  const AgentCount: nat := 3

  lemma PoolSize()
    ensures |UserAgents| == AgentCount
  {
  }

  /** `random.randint(lo, hi)`: the draw picks one of the `hi - lo + 1` values. */
  function RandInt(lo: int, hi: int, draw: nat): (r: int)
    requires lo <= hi
    ensures lo <= r <= hi
    ensures draw <= hi - lo ==> r == lo + draw
  {
    lo + draw % (hi - lo + 1)
  }

  /** The position `random.choice(USER_AGENTS)` picks. */
  function ChooseAgent(draw: nat): (i: nat)
    ensures i < AgentCount
    ensures draw < AgentCount ==> i == draw
  {
    RandInt(0, AgentCount - 1, draw)
  }

  /** `random.choice(USER_AGENTS)`. */
  function ChooseUserAgent(draw: nat): (ua: string)
    ensures ua in UserAgents
  {
    PoolSize();
    UserAgents[ChooseAgent(draw)]
  }

  /** The four octets of `random_ip()`, each `random.randint(10, 240)` (bms1.py:55-56). */
  function RandomOctets(draws: seq<nat>): (octets: seq<nat>)
    requires |draws| == 4
    ensures |octets| == 4
    ensures forall i :: 0 <= i < 4 ==> 10 <= octets[i] <= 240
  {
    seq(4, i requires 0 <= i < 4 => RandInt(10, 240, draws[i]))
  }

  // ---------------------------------------------------------------------------
  // Decimal text and dotted quads.

  predicate IsDigit(c: char) {
    '0' <= c <= '9'
  }

  predicate AllDigits(s: string) {
    forall i :: 0 <= i < |s| ==> IsDigit(s[i])
  }

  function DigitChar(d: int): (c: char)
    requires 0 <= d < 10
    ensures IsDigit(c)
  {
    ('0' as int + d) as char
  }

  /** `str(n)` for a natural number. */
  function Decimal(n: nat): (s: string)
    ensures s != [] && AllDigits(s)
  {
    if n < 10 then [DigitChar(n)] else Decimal(n / 10) + [DigitChar(n % 10)]
  }

  /** The value of a string of decimal digits, most significant first. */
  function DigitsValue(s: string): nat
    requires AllDigits(s)
  {
    if s == [] then 0
    else DigitsValue(s[..|s| - 1]) * 10 + (s[|s| - 1] as int - '0' as int)
  }

  /** Reading back the decimal text of a number gives the number, and the text has no
      leading zero unless it is "0". */
  lemma {:induction false} DecimalRoundTrip(n: nat)
    ensures DigitsValue(Decimal(n)) == n
    ensures Decimal(n)[0] != '0' || n == 0
  {
    if n >= 10 {
      DecimalRoundTrip(n / 10);
      var s := Decimal(n);
      assert s[..|s| - 1] == Decimal(n / 10);
    }
  }

  /** `".".join(parts)`. */
  function JoinDots(parts: seq<string>): string {
    if |parts| == 0 then ""
    else if |parts| == 1 then parts[0]
    else JoinDots(parts[..|parts| - 1]) + "." + parts[|parts| - 1]
  }

  /** `s.split(".")`: always at least one part. */
  function SplitDots(s: string): (parts: seq<string>)
    ensures |parts| >= 1
  {
    if s == [] then [""]
    else
      var p := SplitDots(s[..|s| - 1]);
      if s[|s| - 1] == '.' then p + [""]
      else p[..|p| - 1] + [p[|p| - 1] + [s[|s| - 1]]]
  }

  predicate NoDot(s: string) {
    forall i :: 0 <= i < |s| ==> s[i] != '.'
  }

  /** One more character that is not a dot extends the last part. */
  lemma SplitSnoc(s: string, c: char)
    requires c != '.'
    ensures var p := SplitDots(s);
            SplitDots(s + [c]) == p[..|p| - 1] + [p[|p| - 1] + [c]]
  {
    assert (s + [c])[..|s|] == s;
  }

  /** Appending dot-free text extends the last part. */
  lemma {:induction false} SplitAppend(s: string, t: string)
    requires NoDot(t)
    ensures var p := SplitDots(s);
            SplitDots(s + t) == p[..|p| - 1] + [p[|p| - 1] + t]
  {
    var p := SplitDots(s);
    if t == [] {
      assert s + t == s;
      ExtendLast(p, p, [], []);
    } else {
      var t', c := t[..|t| - 1], t[|t| - 1];
      assert t == t' + [c];
      SplitAppend(s, t');
      SplitAppendStep(s, t', c);
    }
  }

  /** The inductive step of `SplitAppend`: one more character that is not a dot. */
  lemma SplitAppendStep(s: string, t: string, c: char)
    requires c != '.'
    requires var p := SplitDots(s);
             SplitDots(s + t) == p[..|p| - 1] + [p[|p| - 1] + t]
    ensures var p := SplitDots(s);
            SplitDots(s + (t + [c])) == p[..|p| - 1] + [p[|p| - 1] + (t + [c])]
  {
    Associative(s, t, [c]);
    SplitSnoc(s + t, c);
    ExtendLast(SplitDots(s), SplitDots(s + t), t, [c]);
  }

  /** When `q` is `p` with `u` appended to its last part, appending `v` as well to `q`'s
      last part is appending `u + v` to `p`'s. */
  lemma ExtendLast(p: seq<string>, q: seq<string>, u: string, v: string)
    requires |p| >= 1 && |q| >= 1
    requires q[..|q| - 1] == p[..|p| - 1] && q[|q| - 1] == p[|p| - 1] + u
    ensures q[..|q| - 1] + [q[|q| - 1] + v] == p[..|p| - 1] + [p[|p| - 1] + (u + v)]
  {
    assert q[|q| - 1] + v == p[|p| - 1] + (u + v);
  }

  /** Splitting the joined parts gives the parts back when none of them holds a dot. */
  lemma {:induction false} SplitJoin(parts: seq<string>)
    requires |parts| >= 1
    requires forall i :: 0 <= i < |parts| ==> NoDot(parts[i])
    ensures SplitDots(JoinDots(parts)) == parts
  {
    if |parts| == 1 {
      SplitOne(parts[0]);
      assert parts == [parts[0]];
    } else {
      var pre, last := parts[..|parts| - 1], parts[|parts| - 1];
      assert parts == pre + [last];
      assert forall i :: 0 <= i < |pre| ==> NoDot(pre[i]) by {
        forall i | 0 <= i < |pre| ensures NoDot(pre[i]) {
          assert pre[i] == parts[i];
        }
      }
      SplitJoin(pre);
      SplitJoinStep(pre, last);
    }
  }

  /** Dot-free text splits into itself alone. */
  lemma SplitOne(part: string)
    requires NoDot(part)
    ensures SplitDots(part) == [part]
  {
    SplitAppend("", part);
    assert "" + part == part;
  }

  /** The inductive step of `SplitJoin`: one more dot-free part. */
  lemma SplitJoinStep(pre: seq<string>, last: string)
    requires |pre| >= 1 && NoDot(last)
    requires SplitDots(JoinDots(pre)) == pre
    ensures SplitDots(JoinDots(pre + [last])) == pre + [last]
  {
    var s := JoinDots(pre) + ".";
    assert (pre + [last])[..|pre|] == pre;
    assert JoinDots(pre + [last]) == s + last;
    assert s[..|s| - 1] == JoinDots(pre);
    assert SplitDots(s) == pre + [""];
    SplitAppend(s, last);
    assert "" + last == last;
  }

  /** Reads a dotted quad of decimal numbers. */
  function ParseIp(s: string): (r: Option<seq<nat>>)
    ensures r.Some? ==> |r.value| == 4
  {
    var parts := SplitDots(s);
    if |parts| == 4 && forall i :: 0 <= i < 4 ==> parts[i] != [] && AllDigits(parts[i])
    then Some(seq(4, i requires 0 <= i < 4 => DigitsValue(parts[i])))
    else None
  }

  /** The dotted quad of the decimal forms of `octets`. */
  function Quad(octets: seq<nat>): string
    requires |octets| == 4
  {
    JoinDots(seq(4, i requires 0 <= i < 4 => Decimal(octets[i])))
  }

  /** A dotted quad splits at its dots into the decimal forms. */
  lemma QuadParts(octets: seq<nat>)
    requires |octets| == 4
    ensures SplitDots(Quad(octets)) == seq(4, i requires 0 <= i < 4 => Decimal(octets[i]))
  {
    var parts := seq(4, i requires 0 <= i < 4 => Decimal(octets[i]));
    assert forall i :: 0 <= i < 4 ==> NoDot(parts[i]);
    SplitJoin(parts);
  }

  /** A dotted quad reads back as the numbers it was made from. */
  lemma QuadReadsBack(octets: seq<nat>)
    requires |octets| == 4
    ensures ParseIp(Quad(octets)) == Some(octets)
  {
    var parts := seq(4, i requires 0 <= i < 4 => Decimal(octets[i]));
    QuadParts(octets);
    forall i | 0 <= i < 4 ensures parts[i] != [] && AllDigits(parts[i]) && DigitsValue(parts[i]) == octets[i] {
      DecimalRoundTrip(octets[i]);
    }
    var values := seq(4, i requires 0 <= i < 4 => DigitsValue(parts[i]));
    assert values == octets;
  }

  /** `random_ip()` (bms1.py:55-56): a well-formed dotted quad that reads back as the four
      drawn octets, each within [10, 240]. */
  function RandomIp(draws: seq<nat>): (ip: string)
    requires |draws| == 4
    ensures ParseIp(ip) == Some(RandomOctets(draws))
    ensures forall i :: 0 <= i < 4 ==> 10 <= ParseIp(ip).value[i] <= 240
  {
    var octets := RandomOctets(draws);
    QuadReadsBack(octets);
    Quad(octets)
  }

  // ---------------------------------------------------------------------------
  // Request headers.

  datatype Headers = Headers(
    userAgent: string,
    accept: string,
    origin: string,
    referer: string,
    forwardedFor: string,
    clientIp: string)

  /** `headers()` (bms1.py:58-67): one fresh address sent as both X-Forwarded-For and
      Client-IP, and a user agent from the pool. */
  function MakeHeaders(ipDraws: seq<nat>, uaDraw: nat): (h: Headers)
    requires |ipDraws| == 4
    ensures h.userAgent in UserAgents
    ensures h.forwardedFor == h.clientIp == RandomIp(ipDraws)
    ensures h.accept == "application/json, text/plain, */*"
    ensures h.origin == "https://in.bookmyshow.com" && h.referer == "https://in.bookmyshow.com/"
  {
    var ip := RandomIp(ipDraws);
    Headers(ChooseUserAgent(uaDraw), "application/json, text/plain, */*",
            "https://in.bookmyshow.com", "https://in.bookmyshow.com/", ip, ip)
  }

  // ---------------------------------------------------------------------------
  // The worker's handles.

  /** A cloudscraper session; `serial` tells sessions apart. */
  datatype Session = Session(serial: nat)

  /** A headless browser, started with the user agent at position `agent` of the pool. */
  datatype Browser = Browser(serial: nat, agent: nat)

  /** The per-worker cache of `thread_local.scraper` and `thread_local.driver`. */
  class Worker {
    var scraper: Option<Session>
    var driver: Option<Browser>
    /** Sessions and browsers created so far: the next handle gets this serial. */
    var sessionsMade: nat
    var browsersMade: nat
    /** The browsers that have been asked to quit, in order. */
    var quits: seq<Browser>

    /** Every cached handle is one that was created earlier. */
    predicate Valid()
      reads this
    {
      (scraper.Some? ==> scraper.value.serial < sessionsMade)
      && (driver.Some? ==> driver.value.serial < browsersMade && driver.value.agent < AgentCount)
    }

    constructor ()
      ensures Valid()
      ensures scraper == None && driver == None
      ensures sessionsMade == 0 && browsersMade == 0 && quits == []
    {
      scraper, driver := None, None;
      sessionsMade, browsersMade := 0, 0;
      quits := [];
    }

    /** `get_scraper()` (bms1.py:72-79): the cached session, or a new one that is cached. */
    method GetScraper() returns (s: Session)
      requires Valid()
      modifies this
      ensures Valid()
      ensures old(scraper).Some? ==> s == old(scraper).value && sessionsMade == old(sessionsMade)
      ensures old(scraper).None? ==> s == Session(old(sessionsMade)) && sessionsMade == old(sessionsMade) + 1
      ensures scraper == Some(s)
      ensures driver == old(driver) && browsersMade == old(browsersMade) && quits == old(quits)
    {
      if scraper.Some? {
        s := scraper.value;
        return;
      }
      s := Session(sessionsMade);
      sessionsMade := sessionsMade + 1;
      scraper := Some(s);
    }

    /** `get_driver()` (bms1.py:98-113): the cached browser, or a new one started with a
        user agent from the pool, which is cached. */
    method GetDriver(uaDraw: nat) returns (d: Browser)
      requires Valid()
      modifies this
      ensures Valid()
      ensures old(driver).Some? ==> d == old(driver).value && browsersMade == old(browsersMade)
      ensures old(driver).None? ==> d == Browser(old(browsersMade), ChooseAgent(uaDraw))
                                    && browsersMade == old(browsersMade) + 1
      ensures driver == Some(d)
      ensures scraper == old(scraper) && sessionsMade == old(sessionsMade) && quits == old(quits)
    {
      if driver.Some? {
        d := driver.value;
        return;
      }
      d := Browser(browsersMade, ChooseAgent(uaDraw));
      browsersMade := browsersMade + 1;
      driver := Some(d);
    }

    /** `reset_identity()` (bms1.py:81-89): drops the session; asks a cached browser to
        quit, ignoring any failure to do so, and drops it. */
    method ResetIdentity()
      requires Valid()
      modifies this
      ensures Valid()
      ensures scraper == None && driver == None
      ensures quits == old(quits) + (if old(driver).Some? then [old(driver).value] else [])
      ensures sessionsMade == old(sessionsMade) && browsersMade == old(browsersMade)
    {
      scraper := None;
      if driver.Some? {
        quits := quits + [driver.value];
        driver := None;
      }
    }
  }

  /** After a reset, the next session and the next browser are new handles: their serials
      differ from every handle handed out before the reset. */
  method ResetGivesFreshHandles(w: Worker, uaDraw: nat) returns (s: Session, d: Browser)
    requires w.Valid()
    modifies w
    ensures s.serial == old(w.sessionsMade) && d.serial == old(w.browsersMade)
    ensures old(w.scraper).Some? ==> s != old(w.scraper).value
    ensures old(w.driver).Some? ==> d != old(w.driver).value
  {
    w.ResetIdentity();
    s := w.GetScraper();
    d := w.GetDriver(uaDraw);
  }
}
