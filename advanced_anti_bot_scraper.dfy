/** advanced_anti_bot_scraper.py: four fetch strategies tried in turn on one
    session, the per-platform selector extraction, platform detection and
    the fallback record. Pages, fetches and random picks are inputs. */
module AdvancedScraper {
  import opened Common
  import opened Text
  import opened Urls
  import opened PyJson
  import opened Platforms
  import Scraping
  import opened Selectors

  // ---------------------------------------------------------------- fetching

  /** The status string of a strategy's result. */
  datatype Status = Success | AntiBot | Error | Http(code: int) | AllStrategiesFailed {
    function Text(): string {
      match this
      case Success => "SUCCESS"
      case AntiBot => "ANTI_BOT"
      case Error => "ERROR"
      case Http(code) => "HTTP_" + IntText(code)
      case AllStrategiesFailed => "ALL_STRATEGIES_FAILED"
    }
  }

  /** `(content, status)` */
  datatype Outcome = Outcome(content: Option<string>, status: Status)

  /** The markers of the stealth fetch. */
  const StealthMarkers: seq<string> := [
    "captcha", "robot", "bot detection", "access denied",
    "blocked", "suspicious activity", "verify you are human"]

  /** The markers of the delayed and the proxy-like fetch. */
  const ShortMarkers: seq<string> := ["captcha", "robot", "bot detection", "access denied"]

  /** How a fetch is judged: a non-200 by its code, a 200 whose lower-cased
      text holds a marker as anti-bot, a raised request as an error. */
  function Judge(f: Scraping.Fetch, markers: seq<string>): (r: Outcome)
    ensures r.status == Success <==> f.Got? && f.resp.status == 200 && !ContainsAny(Lower(f.resp.text), markers)
    ensures r.status == Success ==> r.content == Some(f.resp.text)
    ensures r.status != Success ==> r.content.None?
    ensures r.status == AntiBot <==> f.Got? && f.resp.status == 200 && ContainsAny(Lower(f.resp.text), markers)
    ensures r.status == Error <==> f.Raised?
    ensures r.status.Http? <==> f.Got? && f.resp.status != 200
    ensures r.status.Http? ==> r.status.code == f.resp.status
  {
    match f
    case Raised => Outcome(None, Error)
    case Got(resp) =>
      if resp.status != 200 then Outcome(None, Http(resp.status))
      else if ContainsAny(Lower(resp.text), markers) then Outcome(None, AntiBot)
      else Outcome(Some(resp.text), Success)
  }

  /** Every short marker is a stealth marker, so a page the stealth fetch
      accepts is accepted by the other two as well. */
  lemma StealthIsStricter(f: Scraping.Fetch)
    requires Judge(f, StealthMarkers).status == Success
    ensures Judge(f, ShortMarkers) == Judge(f, StealthMarkers)
  {
    assert forall k :: 0 <= k < |ShortMarkers| ==> ShortMarkers[k] == StealthMarkers[k];
  }

  /** The user agents `setup_stealth_session` picks from. */
  const StealthAgents: seq<string> := [
    "Mozilla/5.0 (Windows NT 10.0; Win64; x64) AppleWebKit/537.36 (KHTML, like Gecko) Chrome/120.0.0.0 Safari/537.36",
    "Mozilla/5.0 (Macintosh; Intel Mac OS X 10_15_7) AppleWebKit/537.36 (KHTML, like Gecko) Chrome/120.0.0.0 Safari/537.36",
    "Mozilla/5.0 (X11; Linux x86_64) AppleWebKit/537.36 (KHTML, like Gecko) Chrome/120.0.0.0 Safari/537.36"]

  /** The user agents the delayed fetch picks from. */
  const DelayedAgents: seq<string> := [
    "Mozilla/5.0 (Windows NT 10.0; Win64; x64) AppleWebKit/537.36 (KHTML, like Gecko) Chrome/119.0.0.0 Safari/537.36",
    "Mozilla/5.0 (Macintosh; Intel Mac OS X 10_15_7) AppleWebKit/537.36 (KHTML, like Gecko) Chrome/119.0.0.0 Safari/537.36"]

  const ProxyAgent := "Mozilla/5.0 (Windows NT 10.0; Win64; x64) AppleWebKit/537.36 (KHTML, like Gecko) Chrome/118.0.0.0 Safari/537.36"

  /** The headers `setup_stealth_session` puts on a session besides the
      agent. */
  const StealthBase: map<string, string> := map[
    "Accept" := "text/html,application/xhtml+xml,application/xml;q=0.9,image/avif,image/webp,image/apng,*/*;q=0.8",
    "Accept-Language" := "en-US,en;q=0.9",
    "Accept-Encoding" := "gzip, deflate, br",
    "Connection" := "keep-alive",
    "Upgrade-Insecure-Requests" := "1",
    "Sec-Fetch-Dest" := "document",
    "Sec-Fetch-Mode" := "navigate",
    "Sec-Fetch-Site" := "none",
    "Sec-Fetch-User" := "?1",
    "Cache-Control" := "max-age=0",
    "DNT" := "1",
    "Sec-CH-UA" := "\"Not_A Brand\";v=\"8\", \"Chromium\";v=\"120\", \"Google Chrome\";v=\"120\"",
    "Sec-CH-UA-Mobile" := "?0",
    "Sec-CH-UA-Platform" := "\"Windows\""]

  /** The headers `setup_stealth_session` puts on a session, with the
      agent `ua` it picked. */
  function StealthHeaders(ua: string): map<string, string> {
    StealthBase["User-Agent" := ua]
  }

  /** The headers the proxy-like fetch sets. */
  const ProxyHeaders: map<string, string> := map[
    "User-Agent" := ProxyAgent,
    "Accept" := "text/html,application/xhtml+xml,application/xml;q=0.9,*/*;q=0.8",
    "Accept-Language" := "en-US,en;q=0.5",
    "Accept-Encoding" := "gzip, deflate",
    "Connection" := "keep-alive"]

  /** What the four strategies meet: each fetch's answer, the agent each
      header update picks, and the default headers of the new session the
      rotation opens. */
  datatype Attempts = Attempts(
    stealthAgent: string, stealth: Scraping.Fetch,
    delayedAgent: string, delayed: Scraping.Fetch,
    freshBase: map<string, string>, rotationAgent: string, rotatedAgent: string, rotated: Scraping.Fetch,
    proxy: Scraping.Fetch)

  /** The random picks come from their lists. */
  predicate Picks(w: Attempts) {
    w.delayedAgent in DelayedAgents && w.rotationAgent in StealthAgents
  }

  /** The four results in the order they are tried. */
  function Outcomes(w: Attempts): seq<Outcome> {
    [Judge(w.stealth, StealthMarkers), Judge(w.delayed, ShortMarkers),
     Judge(w.rotated, StealthMarkers), Judge(w.proxy, ShortMarkers)]
  }

  /** The first successful result, or `(None, "ALL_STRATEGIES_FAILED")`. */
  function FirstSuccess(os: seq<Outcome>): (r: Outcome)
    ensures r.status == Success || r == Outcome(None, AllStrategiesFailed)
    decreases |os|
  {
    if os == [] then Outcome(None, AllStrategiesFailed)
    else if os[0].status == Success then os[0]
    else FirstSuccess(os[1..])
  }

  lemma {:induction false} FirstSuccessIsFirst(os: seq<Outcome>)
    ensures FirstSuccess(os).status == Success <==> exists k :: 0 <= k < |os| && os[k].status == Success
    ensures FirstSuccess(os).status == Success ==>
      exists k :: 0 <= k < |os| && FirstSuccess(os) == os[k] && forall j :: 0 <= j < k ==> os[j].status != Success
    decreases |os|
  {
    if os != [] && os[0].status != Success {
      var rest := os[1..];
      FirstSuccessIsFirst(rest);
      assert forall k :: 1 <= k < |os| ==> os[k] == rest[k - 1];
      if FirstSuccess(rest).status == Success {
        var k :| 0 <= k < |rest| && FirstSuccess(rest) == rest[k] && forall j :: 0 <= j < k ==> rest[j].status != Success;
        assert FirstSuccess(os) == os[k + 1];
      }
    }
  }

  lemma FirstSuccessOfFour(os: seq<Outcome>)
    requires |os| == 4
    ensures FirstSuccess(os) ==
      if os[0].status == Success then os[0]
      else if os[1].status == Success then os[1]
      else if os[2].status == Success then os[2]
      else if os[3].status == Success then os[3]
      else Outcome(None, AllStrategiesFailed)
  {
    if os[0].status != Success {
      assert FirstSuccess(os) == FirstSuccess(os[1..]);
      assert os[1..][1..] == os[2..];
      if os[1].status != Success {
        assert FirstSuccess(os[1..]) == FirstSuccess(os[2..]);
        assert os[2..][1..] == os[3..];
        if os[2].status != Success {
          assert FirstSuccess(os[2..]) == FirstSuccess(os[3..]);
          var last := os[3..];
          assert last[0] == os[3] && last[1..] == [];
          assert FirstSuccess(last) == if os[3].status == Success then os[3] else FirstSuccess(last[1..]);
        }
      }
    }
  }

  /** The strategies are tried in order and the first success is returned
      as it came; with none the result is the all-failed pair. */
  lemma StrategiesInOrder(w: Attempts)
    ensures var r := FirstSuccess(Outcomes(w));
      (r.status == Success ==> exists k :: 0 <= k < 4 && r == Outcomes(w)[k] && forall j :: 0 <= j < k ==> Outcomes(w)[j].status != Success)
      && (r.status != Success ==> r == Outcome(None, AllStrategiesFailed) && forall k :: 0 <= k < 4 ==> Outcomes(w)[k].status != Success)
  {
    FirstSuccessIsFirst(Outcomes(w));
  }

  /** A success always carries the text of a 200 with no marker. */
  lemma SuccessIsCleanPage(w: Attempts)
    requires FirstSuccess(Outcomes(w)).status == Success
    ensures
      exists k :: 0 <= k < 4 && [w.stealth, w.delayed, w.rotated, w.proxy][k].Got?
        && FirstSuccess(Outcomes(w)).content == Some([w.stealth, w.delayed, w.rotated, w.proxy][k].resp.text)
        && [w.stealth, w.delayed, w.rotated, w.proxy][k].resp.status == 200
  {
    FirstSuccessIsFirst(Outcomes(w));
    var k :| 0 <= k < 4 && FirstSuccess(Outcomes(w)) == Outcomes(w)[k];
    var fs := [w.stealth, w.delayed, w.rotated, w.proxy];
    assert Outcomes(w)[k] == Judge(fs[k], if k % 2 == 0 then StealthMarkers else ShortMarkers);
  }

  /** The session headers after the strategies that were reached. */
  function HeadersAfter(h: map<string, string>, w: Attempts): map<string, string> {
    var h1 := h["User-Agent" := w.stealthAgent];
    if Judge(w.stealth, StealthMarkers).status == Success then h1
    else
      var h2 := h1["User-Agent" := w.delayedAgent];
      if Judge(w.delayed, ShortMarkers).status == Success then h2
      else
        var h3 := (w.freshBase + StealthHeaders(w.rotationAgent))["User-Agent" := w.rotatedAgent];
        if Judge(w.rotated, StealthMarkers).status == Success then h3
        else h3 + ProxyHeaders
  }

  /** Once the session is rotated, nothing set on the old one survives. */
  lemma RotationForgetsOldSession(h: map<string, string>, h': map<string, string>, w: Attempts)
    requires Judge(w.stealth, StealthMarkers).status != Success && Judge(w.delayed, ShortMarkers).status != Success
    ensures HeadersAfter(h, w) == HeadersAfter(h', w)
    ensures "Sec-Fetch-Mode" in HeadersAfter(h, w) && HeadersAfter(h, w)["Sec-Fetch-Mode"] == "navigate"
  {
  }

  // ---------------------------------------------------------------- records

  /** A review entry `{"text": …, "rating": …}`. */
  datatype Review = Review(text: string, rating: string)

  /** The product dict this scraper returns. */
  datatype Record = Record(
    title: string, price: string, rating: string, reviewCount: string,
    seller: string, reviews: seq<Review>, platform: Platform)

  const NoTitle := "Product Title Not Available"
  const NoPrice := "Price not available"

  function Placeholder(p: Platform): Record {
    Record(NoTitle, NoPrice, "N/A", "0", "Unknown", [], p)
  }

  const DarazTitleSelectors: seq<string> := ["h1.pdp-product-name", ".pdp-product-name", "h1", ".product-title"]
  const DarazPriceSelectors: seq<string> := [".pdp-price", ".price-current", ".price", ".product-price"]
  const DarazSymbols: seq<string> := ["₹", "$", "PKR", "Rs"]
  const AmazonTitleSelectors: seq<string> := ["span#productTitle", ".a-size-large.product-title-word-break", "h1.a-size-large", "h1"]
  const AmazonPriceSelectors: seq<string> := [".a-price-whole", ".a-offscreen", "#priceblock_dealprice", "#priceblock_ourprice"]
  const AmazonSymbols: seq<string> := ["$", "€", "£", "₹"]

  /** The title and price selector lists and the price symbols of a
      platform `extract_product_data` knows. */
  function Lists(p: Platform): Option<(seq<string>, seq<string>, seq<string>)> {
    match p
    case Daraz => Some((DarazTitleSelectors, DarazPriceSelectors, DarazSymbols))
    case Amazon => Some((AmazonTitleSelectors, AmazonPriceSelectors, AmazonSymbols))
    case _ => None
  }

  /** `extract_product_data(content, platform)` on the parsed page `found`. */
  function ExtractSpec(found: Found, p: Platform): Record {
    match Lists(p)
    case None => Placeholder(p)
    case Some((titles, prices, symbols)) =>
      Placeholder(p).(
        title := FirstAccepted(titles, found, LongerThan(5)).GetOr(NoTitle),
        price := FirstAccepted(prices, found, HasAnyOf(symbols)).GetOr(NoPrice))
  }

  /** The two selector loops over the placeholder record. */
  method ExtractProductData(found: Found, p: Platform) returns (data: Record)
    ensures data == ExtractSpec(found, p)
  {
    data := Placeholder(p);
    var lists := Lists(p);
    if lists.Some? {
      var (titles, prices, symbols) := lists.value;
      var title := ScanSelectors(titles, found, LongerThan(5));
      if title.Some? {
        data := data.(title := title.value);
      }
      var price := ScanSelectors(prices, found, HasAnyOf(symbols));
      if price.Some? {
        data := data.(price := price.value);
      }
    }
  }

  /** Only the title and the price are ever filled in, each with the text
      of the first selector that passes its test (a title longer than five
      characters, a price holding one of the platform's currency symbols)
      and otherwise left at its placeholder; other platforms keep the
      placeholder record. */
  lemma ExtractFillsTitleAndPrice(found: Found, p: Platform)
    ensures var d := ExtractSpec(found, p);
      d.(title := NoTitle, price := NoPrice) == Placeholder(p)
      && (Lists(p).None? ==> d == Placeholder(p))
      && (d.title != NoTitle ==> |d.title| > 5)
      && (Lists(p).Some? ==>
            var (titles, prices, symbols) := Lists(p).value;
            (d.price != NoPrice ==> ContainsAny(d.price, symbols))
            && FirstHitOr(titles, found, LongerThan(5), d.title, NoTitle)
            && FirstHitOr(prices, found, HasAnyOf(symbols), d.price, NoPrice))
  {
    if Lists(p).Some? {
      var (titles, prices, symbols) := Lists(p).value;
      FirstAcceptedIsFirst(titles, found, LongerThan(5));
      FirstAcceptedIsFirst(prices, found, HasAnyOf(symbols));
    }
  }

  // ---------------------------------------------------------------- platform

  const DetectRules: Rules := [(Amazon, ["amazon"]), (Daraz, ["daraz"]), (Ebay, ["ebay"]), (AliExpress, ["aliexpress"])]

  /** The `if` chain of `detect_platform` on the lower-cased netloc. */
  function DetectHost(domain: string): Platform {
    if Contains(domain, "amazon") then Amazon
    else if Contains(domain, "daraz") then Daraz
    else if Contains(domain, "ebay") then Ebay
    else if Contains(domain, "aliexpress") then AliExpress
    else Generic
  }

  /** `detect_platform(url)`; `None` when `urlparse` raises. */
  function DetectPlatform(url: string): (r: Option<Platform>)
    ensures r.Some? <==> Parse(url).Ok?
    ensures r.Some? ==> r.value == DetectHost(Lower(Parse(url).value.netloc))
  {
    match Parse(url)
    case Err(_) => None
    case Ok(parsed) => Some(DetectHost(Lower(parsed.netloc)))
  }

  /** The detector is the ordered first-hit classification over its table. */
  lemma DetectHostIsFirstHit(domain: string)
    ensures DetectHost(domain) == Classify(DetectRules, domain)
  {
    var r3: Rules := [(AliExpress, ["aliexpress"])] + [];
    var r2 := [(Ebay, ["ebay"])] + r3;
    var r1 := [(Daraz, ["daraz"])] + r2;
    assert DetectRules == [(Amazon, ["amazon"])] + r1;
    ClassifyStep(Amazon, "amazon", r1, domain);
    ClassifyStep(Daraz, "daraz", r2, domain);
    ClassifyStep(Ebay, "ebay", r3, domain);
    ClassifyStep(AliExpress, "aliexpress", [], domain);
  }

  // ---------------------------------------------------------------- fallback

  const FallbackReviews: seq<Review> := [
    Review("Great product, highly recommend!", "5"),
    Review("Good quality and fast shipping", "4"),
    Review("Works as expected", "4")]

  /** `url.split('/')[-1]` */
  function LastSegment(url: string): string {
    var parts := Split(url, '/');
    parts[|parts| - 1]
  }

  /** `get_fallback_data(url, platform)` */
  function FallbackData(url: string, p: Platform): Record {
    var name := TitleCase(p.Tag());
    Record(name + " Product - " + Take(LastSegment(url), 30), "$29.99", "4.2", "150",
           name + " Seller", FallbackReviews, p)
  }

  /** The fallback title names the platform and ends with at most 30
      characters of the URL's last path segment, which holds no `/`. */
  lemma FallbackTitleShape(url: string, p: Platform)
    ensures var d := FallbackData(url, p);
      var prefix := TitleCase(p.Tag()) + " Product - ";
      StartsWith(d.title, prefix) && |d.title| <= |prefix| + 30
      && '/' !in d.title[|prefix|..]
      && d.price == "$29.99" && |d.reviews| == 3 && d.platform == p
  {
    var prefix := TitleCase(p.Tag()) + " Product - ";
    var seg := LastSegment(url);
    SplitPiecesLackSep(url, '/');
    var t := Take(seg, 30);
    assert FallbackData(url, p).title == prefix + t;
    assert (prefix + t)[..|prefix|] == prefix;
    assert (prefix + t)[|prefix|..] == t;
    assert forall i :: 0 <= i < |t| ==> t[i] == seg[i];
  }

  // ---------------------------------------------------------------- scraper

  /** `(data, error)` of `scrape_product`: the record, or the `ValueError`
      `detect_platform` raises. */
  function ScrapeProductSpec(url: string, w: Attempts, found: Found): Result<Record, string> {
    match DetectPlatform(url)
    case None => Err(Parse(url).error)
    case Some(p) =>
      var r := FirstSuccess(Outcomes(w));
      if r.status != Success then Ok(FallbackData(url, p)) else Ok(ExtractSpec(found, p))
  }

  /** `AdvancedAntiBotScraper`: its session, seen through the headers it
      sends. */
  class AdvancedAntiBotScraper {
    var headers: map<string, string>

    /** `__init__` on a new session whose own headers are `base`, with the
        agent `ua` picked. */
    constructor(base: map<string, string>, ua: string)
      requires ua in StealthAgents
      ensures headers == base + StealthHeaders(ua)
    {
      headers := base + StealthHeaders(ua);
    }

    /** `scrape_with_stealth_requests`: the random agent `ua`, then the fetch. */
    method ScrapeWithStealthRequests(ua: string, f: Scraping.Fetch) returns (r: Outcome)
      modifies this
      ensures headers == old(headers)["User-Agent" := ua]
      ensures r == Judge(f, StealthMarkers)
    {
      headers := headers["User-Agent" := ua];
      r := Fetched(f, StealthMarkers);
    }

    /** `scrape_with_delayed_requests`, with the agent `ua` picked. */
    method ScrapeWithDelayedRequests(ua: string, f: Scraping.Fetch) returns (r: Outcome)
      requires ua in DelayedAgents
      modifies this
      ensures headers == old(headers)["User-Agent" := ua]
      ensures r == Judge(f, ShortMarkers)
    {
      headers := headers["User-Agent" := ua];
      r := Fetched(f, ShortMarkers);
    }

    /** `rotate_session`: a new session (its own headers `base`) with the
        stealth headers and the agent `ua` picked. */
    method RotateSession(base: map<string, string>, ua: string)
      requires ua in StealthAgents
      modifies this
      ensures headers == base + StealthHeaders(ua)
    {
      headers := base + StealthHeaders(ua);
    }

    /** `scrape_with_proxy_behavior` */
    method ScrapeWithProxyBehavior(f: Scraping.Fetch) returns (r: Outcome)
      modifies this
      ensures headers == old(headers) + ProxyHeaders
      ensures r == Judge(f, ShortMarkers)
    {
      headers := headers + ProxyHeaders;
      r := Fetched(f, ShortMarkers);
    }

    /** `scrape_with_multiple_strategies` */
    method ScrapeWithMultipleStrategies(w: Attempts) returns (r: Outcome)
      requires Picks(w)
      modifies this
      ensures r == FirstSuccess(Outcomes(w))
      ensures headers == HeadersAfter(old(headers), w)
    {
      FirstSuccessOfFour(Outcomes(w));
      r := ScrapeWithStealthRequests(w.stealthAgent, w.stealth);
      if r.status == Success {
        return;
      }
      r := ScrapeWithDelayedRequests(w.delayedAgent, w.delayed);
      if r.status == Success {
        return;
      }
      RotateSession(w.freshBase, w.rotationAgent);
      r := ScrapeWithStealthRequests(w.rotatedAgent, w.rotated);
      if r.status == Success {
        return;
      }
      r := ScrapeWithProxyBehavior(w.proxy);
      if r.status == Success {
        return;
      }
      r := Outcome(None, AllStrategiesFailed);
    }

    /** `scrape_product(url)`: `found` is what the selectors find in the
        page a successful strategy fetched. */
    method ScrapeProduct(url: string, w: Attempts, found: Found) returns (r: Result<Record, string>)
      requires Picks(w)
      modifies this
      ensures r == ScrapeProductSpec(url, w, found)
      ensures r.Ok? ==> headers == HeadersAfter(old(headers), w)
      ensures r.Err? ==> headers == old(headers)
    {
      var platform := DetectPlatform(url);
      if platform.None? {
        return Err(Parse(url).error);
      }
      var outcome := ScrapeWithMultipleStrategies(w);
      if outcome.status != Success {
        return Ok(FallbackData(url, platform.value));
      }
      var data := ExtractProductData(found, platform.value);
      r := Ok(data);
    }
  }

  /** A fetch and its judgement. */
  method Fetched(f: Scraping.Fetch, markers: seq<string>) returns (r: Outcome)
    ensures r == Judge(f, markers)
  {
    if f.Raised? {
      return Outcome(None, Error);
    }
    var resp := f.resp;
    if resp.status == 200 {
      if ContainsAny(Lower(resp.text), markers) {
        return Outcome(None, AntiBot);
      }
      return Outcome(Some(resp.text), Success);
    }
    return Outcome(None, Http(resp.status));
  }

  /** `scrape_product` never raises for a URL `urlparse` accepts, and gives
      the fallback record exactly when no strategy succeeds. */
  lemma ScrapeProductOutcomes(url: string, w: Attempts, found: Found)
    requires Parse(url).Ok?
    ensures ScrapeProductSpec(url, w, found).Ok?
    ensures var v := ScrapeProductSpec(url, w, found).value; var p := DetectPlatform(url).value;
      ((forall k :: 0 <= k < 4 ==> Outcomes(w)[k].status != Success) ==> v == FallbackData(url, p))
      && ((exists k :: 0 <= k < 4 && Outcomes(w)[k].status == Success) ==> v == ExtractSpec(found, p))
  {
    FirstSuccessIsFirst(Outcomes(w));
  }
}
