/** backend/enhanced_scraper.py: the retrying request with its growing
    delay, and the Selenium visit that always releases its browser. */
module EnhancedScraping {
  import opened Common
  import opened Text
  import Scraping

  const MaxRetries: nat := 3

  /** The headers `setup_session` adds, with the agent `ua` picked. */
  function SetupHeaders(ua: string): map<string, string> {
    map["User-Agent" := ua,
        "Accept" := "text/html,application/xhtml+xml,application/xml;q=0.9,*/*;q=0.8",
        "Accept-Language" := "en-US,en;q=0.9",
        "Accept-Encoding" := "gzip, deflate, br",
        "DNT" := "1"]
  }

  /** The headers each attempt sets before its request. */
  function AttemptHeaders(ua: string): map<string, string> {
    map["User-Agent" := ua, "Referer" := "https://www.google.com/"]
  }

  /** One attempt as the world answers it: the agent `self.ua.random` gave
      and what `session.get` did. */
  datatype Try = Try(agent: string, fetch: Scraping.Fetch)

  /** The markers that turn a 200 into a failed attempt. */
  const AttemptMarkers: seq<string> := ["robot", "captcha", "verify"]

  /** The attempt returns its response: a 200 with no marker. */
  predicate Clean(f: Scraping.Fetch) {
    f.Got? && f.resp.status == 200 && !ContainsAny(Lower(f.resp.text), AttemptMarkers)
  }

  /** The attempt failed inside the `try`: the request raised, or the page
      held a marker and the scraper raised itself. */
  predicate Raises(f: Scraping.Fetch) {
    f.Raised? || (f.resp.status == 200 && ContainsAny(Lower(f.resp.text), AttemptMarkers))
  }

  /** The index of the first clean attempt at or after `from`. */
  function FirstClean(tries: seq<Try>, from: nat): (r: Option<nat>)
    ensures r.Some? ==> from <= r.value < |tries| && Clean(tries[r.value].fetch)
    decreases |tries| - from
  {
    if from >= |tries| then None
    else if Clean(tries[from].fetch) then Some(from)
    else FirstClean(tries, from + 1)
  }

  lemma {:induction false} FirstCleanIsFirst(tries: seq<Try>, from: nat)
    ensures FirstClean(tries, from).None? <==> forall j :: from <= j < |tries| ==> !Clean(tries[j].fetch)
    ensures FirstClean(tries, from).Some? ==>
      Clean(tries[FirstClean(tries, from).value].fetch)
      && forall j :: from <= j < FirstClean(tries, from).value ==> !Clean(tries[j].fetch)
    decreases |tries| - from
  {
    if from < |tries| && !Clean(tries[from].fetch) {
      FirstCleanIsFirst(tries, from + 1);
    }
  }

  /** What `scrape_with_anti_bot` returns. */
  function AntiBotResult(tries: seq<Try>): Option<Scraping.Response> {
    match FirstClean(tries, 0)
    case Some(i) => Some(tries[i].fetch.resp)
    case None => None
  }

  /** How many requests it makes. */
  function Attempted(tries: seq<Try>): nat {
    match FirstClean(tries, 0)
    case Some(i) => i + 1
    case None => |tries|
  }

  /** The delay after attempt `k`, one that did not succeed, has run. */
  function NextDelay(delay: real, f: Scraping.Fetch, k: nat): real {
    if Raises(f) then (if k == MaxRetries - 1 then delay else delay * 2.0)
    else if f.Got? && f.resp.status != 200 then delay * 1.5
    else delay
  }

  /** `delay` after the first `n` attempts. */
  function Delay(d0: real, tries: seq<Try>, n: nat): real
    requires n <= |tries|
  {
    if n == 0 then d0 else NextDelay(Delay(d0, tries, n - 1), tries[n - 1].fetch, n - 1)
  }

  /** The delay never shrinks, grows at most twofold per attempt, and so
      stays positive. */
  lemma {:induction false} DelayGrows(d0: real, tries: seq<Try>, n: nat)
    requires d0 > 0.0 && n <= |tries|
    ensures d0 <= Delay(d0, tries, n)
    ensures n > 0 ==> Delay(d0, tries, n - 1) <= Delay(d0, tries, n) <= 2.0 * Delay(d0, tries, n - 1)
  {
    if n > 0 {
      DelayGrows(d0, tries, n - 1);
    }
  }

  /** A 403 or any other non-200 grows the delay by half, a raised
      attempt doubles it unless it was the last. */
  lemma DelayFactors(d0: real, tries: seq<Try>, n: nat)
    requires 0 < n <= |tries|
    ensures var f := tries[n - 1].fetch; var d := Delay(d0, tries, n - 1);
      (f.Got? && f.resp.status != 200 ==> Delay(d0, tries, n) == d * 1.5)
      && (Raises(f) && n < MaxRetries ==> Delay(d0, tries, n) == d * 2.0)
      && (Raises(f) && n == MaxRetries ==> Delay(d0, tries, n) == d)
  {
  }

  /** The response comes back exactly when some attempt is clean, and it
      is the first clean one's, after that many requests. */
  lemma AntiBotFirstClean(tries: seq<Try>)
    ensures AntiBotResult(tries).None? <==> forall j :: 0 <= j < |tries| ==> !Clean(tries[j].fetch)
    ensures AntiBotResult(tries).Some? ==>
      exists i :: 0 <= i < |tries| && Attempted(tries) == i + 1
        && Clean(tries[i].fetch) && AntiBotResult(tries) == Some(tries[i].fetch.resp)
        && forall j :: 0 <= j < i ==> !Clean(tries[j].fetch)
    ensures Attempted(tries) <= |tries|
  {
    FirstCleanIsFirst(tries, 0);
  }

  /** The headers after `n` attempts: each sets the agent and the referer. */
  function HeadersAfter(h: map<string, string>, tries: seq<Try>, n: nat): map<string, string>
    requires n <= |tries|
  {
    if n == 0 then h else h + AttemptHeaders(tries[n - 1].agent)
  }

  /** One more attempt overwrites what the previous one set. */
  lemma HeadersStep(h: map<string, string>, tries: seq<Try>, n: nat)
    requires n < |tries|
    ensures HeadersAfter(h, tries, n + 1) == HeadersAfter(h, tries, n) + AttemptHeaders(tries[n].agent)
  {
    if n > 0 {
      var a := AttemptHeaders(tries[n - 1].agent);
      var b := AttemptHeaders(tries[n].agent);
      assert a.Keys == b.Keys;
      assert (h + a) + b == h + b;
    }
  }

  /** What attempt `n` does to the first clean index and to the delay. */
  lemma AttemptStep(d0: real, tries: seq<Try>, n: nat)
    requires n < |tries|
    ensures Clean(tries[n].fetch) ==> FirstClean(tries, n) == Some(n) && Delay(d0, tries, n + 1) == Delay(d0, tries, n)
    ensures !Clean(tries[n].fetch) ==> FirstClean(tries, n) == FirstClean(tries, n + 1)
    ensures Delay(d0, tries, n + 1) == NextDelay(Delay(d0, tries, n), tries[n].fetch, n)
  {
  }

  /** The page `scrape_with_selenium` returns from a browser that shows
      `page` (`None` when no browser could be started). */
  function SeleniumSource(page: Option<Scraping.Page>): (r: Option<string>)
    ensures r.Some? <==> page.Some? && page.value.loads && !ContainsAny(Lower(page.value.source), SeleniumMarkers)
    ensures r.Some? ==> r.value == page.value.source
  {
    match page
    case None => None
    case Some(pg) => if !pg.loads || ContainsAny(Lower(pg.source), SeleniumMarkers) then None else Some(pg.source)
  }

  const SeleniumMarkers: seq<string> := ["robot", "captcha"]

  /** A page the request attempts accept, the browser accepts as well. */
  lemma SeleniumLaxer(pg: Scraping.Page)
    requires pg.loads && !ContainsAny(Lower(pg.source), AttemptMarkers)
    ensures SeleniumSource(Some(pg)) == Some(pg.source)
  {
    assert forall k :: 0 <= k < |SeleniumMarkers| ==> SeleniumMarkers[k] == AttemptMarkers[k];
  }

  /** `EnhancedScraper`, seen through its session headers. */
  class EnhancedScraper {
    var headers: map<string, string>

    /** `__init__` on a session whose own headers are `base`. */
    constructor(base: map<string, string>, ua: string)
      ensures headers == base + SetupHeaders(ua)
    {
      headers := base + SetupHeaders(ua);
    }

    /** `scrape_with_anti_bot(url)`: `d0` is the drawn starting delay and
        `tries` what each of the attempts meets; the second result is
        the delay the loop ends with. */
    method ScrapeWithAntiBot(d0: real, tries: seq<Try>) returns (r: Option<Scraping.Response>, delay: real)
      requires 2.0 <= d0 <= 4.0 && |tries| == MaxRetries
      modifies this
      ensures r == AntiBotResult(tries)
      ensures delay == Delay(d0, tries, Attempted(tries))
      ensures headers == HeadersAfter(old(headers), tries, Attempted(tries))
    {
      delay := d0;
      var attempt := 0;
      while attempt < MaxRetries
        invariant 0 <= attempt <= MaxRetries
        invariant FirstClean(tries, 0) == FirstClean(tries, attempt)
        invariant delay == Delay(d0, tries, attempt)
        invariant headers == HeadersAfter(old(headers), tries, attempt)
      {
        HeadersStep(old(headers), tries, attempt);
        AttemptStep(d0, tries, attempt);
        headers := headers + AttemptHeaders(tries[attempt].agent);
        var f := tries[attempt].fetch;
        if f.Raised? || (f.resp.status == 200 && ContainsAny(Lower(f.resp.text), AttemptMarkers)) {
          // the `except` block
          if attempt == MaxRetries - 1 {
            assert FirstClean(tries, attempt + 1) == None;
            attempt := attempt + 1;
            break;
          }
          delay := delay * 2.0;
        } else if f.resp.status == 200 {
          return Some(f.resp), delay;
        } else {
          delay := delay * 1.5;
        }
        attempt := attempt + 1;
      }
      r := None;
    }

    /** `scrape_with_selenium(url)` on the browser `driver` (`null` when
        `get_selenium_driver` raised); a started browser is always quit. */
    method ScrapeWithSelenium(driver: Scraping.Driver?) returns (source: Option<string>)
      modifies driver
      ensures driver != null ==> driver.quitted
      ensures source == SeleniumSource(if driver == null then None else Some(driver.page))
    {
      if driver == null {
        return None;
      }
      var pg := driver.page;
      if !pg.loads {
        source := None;
      } else if ContainsAny(Lower(pg.source), SeleniumMarkers) {
        source := None;
      } else {
        source := Some(pg.source);
      }
      driver.Quit();
    }
  }
}
