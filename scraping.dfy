/** The controller of `backend/scraper.py`: the `ProductScraper` object with
    its session headers, fallback table and fallback switch, the Selenium
    pass over a driven browser, the plain request with its anti-bot check,
    and `scrape_product`, which tries them in turn and falls back. */
module Scraping {
  import opened Common
  import opened Text
  import opened Urls
  import opened PyJson
  import opened Platforms
  import opened ScraperCore
  import opened Extraction

  /** The exceptions `scrape_product` lets escape. */
  datatype PyError =
    | PyValueError(msg: string)
    | PyRuntimeError(msg: string)
    | PyKeyError(key: string)
    /** `None.copy()` when the fallback table has no `generic` record. */
    | PyAttributeError

  function OfExtract(e: ExtractError): PyError {
    match e
    case ValueError(m) => PyValueError(m)
    case RuntimeError(m) => PyRuntimeError(m)
  }

  /** A response of `session.get`: its status code and its text. */
  datatype Response = Response(status: int, text: string)

  /** What `session.get(url, timeout=30)` does: it raises, or it answers. */
  datatype Fetch = Raised | Got(resp: Response)

  const AntiBotMarkers: seq<string> := ["robot", "captcha", "verify"]

  /** `scrape_with_anti_bot` after its request: the response, when it is a
      200 whose lower-cased text holds none of the markers. */
  function AntiBotVerdict(f: Fetch): (r: Option<Response>)
    ensures r.Some? <==> f.Got? && f.resp.status == 200 && !ContainsAny(Lower(f.resp.text), AntiBotMarkers)
    ensures r.Some? ==> r.value == f.resp
  {
    match f
    case Raised => None
    case Got(resp) => if resp.status == 200 && !ContainsAny(Lower(resp.text), AntiBotMarkers) then Some(resp) else None
  }

  /** The headers `scrape_with_anti_bot` sets before each request. */
  function RequestHeaders(ua: string): map<string, string> {
    map["User-Agent" := ua, "Referer" := "https://www.google.com"]
  }

  /** The headers `setup_session` adds to a fresh session. */
  function SessionHeaders(ua: string): map<string, string> {
    map["User-Agent" := ua,
        "Accept" := "text/html,application/xhtml+xml,application/xml;q=0.9,image/webp,*/*;q=0.8",
        "Accept-Language" := "en-US,en;q=0.5",
        "Accept-Encoding" := "gzip, deflate, br",
        "DNT" := "1",
        "Connection" := "keep-alive",
        "Upgrade-Insecure-Requests" := "1",
        "Cache-Control" := "max-age=0",
        "TE" := "Trailers",
        "Cookie" := ""]
  }

  /** An element `find_element` returns: `.text` and the `innerText` and
      `innerHTML` attributes (`None` when the attribute is missing). */
  datatype DriverElem = DriverElem(text: string, innerText: Option<string>, innerHTML: Option<string>)

  /** What the browser shows for the URL.
      `loads`: `driver.get(url)` returns;
      `source`: `driver.page_source`, and `doc` that source parsed;
      `waitFound`: the awaited element appears within the wait;
      `find`: the element the first match of each selector list gives
      (a list without a match raises `NoSuchElementException`). */
  datatype Page = Page(loads: bool, source: string, doc: Doc, waitFound: bool, find: map<string, DriverElem>)

  /** The first selector pass: title, price, rating (`innerText`, else the
      text) and review count (commas dropped). */
  function SelectorPass(d: Product, find: map<string, DriverElem>, c: Config): (r: Product)
    ensures r.seller == d.seller && r.reviews == d.reviews && r.platform == d.platform && r.url == d.url
  {
    var d1 := if c.title in find then d.(title := Strip(find[c.title].text)) else d;
    var d2 := if c.price in find then d1.(price := Some(ExtractPrice(find[c.price].text))) else d1;
    var d3 :=
      if c.rating in find then
        var e := find[c.rating];
        WithFirstRating(d2, if e.innerText.Some? && e.innerText.value != "" then e.innerText.value else e.text)
      else d2;
    if c.reviewCount in find then WithFirstCount(d3, RemoveChar(find[c.reviewCount].text, ',')) else d3
  }

  /** `data.update({k: v for k, v in fallback.items() if v})`: every truthy
      field of `fb` replaces the field of `d`. */
  function MergeTruthy(d: Product, fb: Product): Product {
    Product(
      if fb.title != "" then fb.title else d.title,
      if fb.price.Some? && fb.price.value != "" then fb.price else d.price,
      if fb.rating.Some? && fb.rating.value != 0.0 then fb.rating else d.rating,
      if fb.reviewCount.Some? && fb.reviewCount.value != 0 then fb.reviewCount else d.reviewCount,
      if fb.seller.Some? && fb.seller.value != "" then fb.seller else d.seller,
      if fb.reviews != [] then fb.reviews else d.reviews,
      if fb.platform.Some? then fb.platform else d.platform,
      if fb.url.Some? && fb.url.value != "" then fb.url else d.url)
  }

  /** `fb` has no truthy field: every key the comprehension keeps is missing. */
  predicate AllFalsy(fb: Product) {
    fb.title == "" && (fb.price.None? || fb.price.value == "") &&
    (fb.rating.None? || fb.rating.value == 0.0) && (fb.reviewCount.None? || fb.reviewCount.value == 0) &&
    (fb.seller.None? || fb.seller.value == "") && fb.reviews == [] && fb.platform.None? &&
    (fb.url.None? || fb.url.value == "")
  }

  /** When the selectors left a placeholder, the page source is read by
      `extract_data` and what it finds is merged in; its errors are
      swallowed. */
  function MergeStep(d: Product, pg: Page, platform: Platform, url: string, strOf: StrOf): Product {
    if d.title == "Unknown Product" || d.price == Some("$0.00") then
      match ExtractDataSpec(pg.source, pg.doc, platform, Some(url), strOf)
      case Ok(fb) => MergeTruthy(d, fb)
      case Err(_) => d
    else d
  }

  /** The second selector pass: the price again, the rating from
      `innerHTML` (a missing attribute makes `re.search` raise), the count
      with its commas kept. */
  function RereadPass(d: Product, find: map<string, DriverElem>, c: Config): (r: Product)
    ensures r.title == d.title && r.seller == d.seller && r.reviews == d.reviews && r.platform == d.platform && r.url == d.url
  {
    var d1 := if c.price in find then d.(price := Some(ExtractPrice(find[c.price].text))) else d;
    var d2 :=
      if c.rating in find && find[c.rating].innerHTML.Some? then WithFirstRating(d1, find[c.rating].innerHTML.value)
      else d1;
    if c.reviewCount in find then WithFirstCount(d2, find[c.reviewCount].text) else d2
  }

  /** The record the three passes build once the browser is past its checks. */
  function SeleniumRecord(pg: Page, c: Config, platform: Platform, url: string, strOf: StrOf): Product {
    RereadPass(MergeStep(SelectorPass(Defaults, pg.find, c), pg, platform, url, strOf), pg.find, c)
  }

  /** `data if data.get('title') and data.get('title') != 'Unknown Product' else None` */
  function TitledOrNone(d: Product): (r: Option<Product>)
    ensures r.Some? <==> d.title != "" && d.title != "Unknown Product"
    ensures r.Some? ==> r.value == d
  {
    if d.title != "" && d.title != "Unknown Product" then Some(d) else None
  }

  /** `scrape_with_selenium(url, platform)`; `page` is `None` when the
      driver cannot be created. */
  function SeleniumSpec(page: Option<Page>, platform: Platform, url: string, strOf: StrOf): (r: Option<Product>)
    ensures r.Some? ==> r.value.title != "" && r.value.title != "Unknown Product"
    ensures r.Some? ==> page.Some? && page.value.loads && page.value.waitFound
    ensures PlatformConfig(platform).None? ==> r.None?
    ensures page.Some? && ContainsAny(Lower(page.value.source), AntiBotMarkers) ==> r.None?
  {
    match page
    case None => None
    case Some(pg) =>
      match SeleniumGate(pg, platform)
      case None => None
      case Some(c) => TitledOrNone(SeleniumRecord(pg, c, platform, url, strOf))
  }

  /** The checks before the selector passes: the page loads, holds no
      marker, the platform has a config and its awaited element appears. */
  function SeleniumGate(pg: Page, platform: Platform): (r: Option<Config>)
    ensures r.Some? <==> pg.loads && !ContainsAny(Lower(pg.source), AntiBotMarkers) && PlatformConfig(platform).Some? && pg.waitFound
    ensures r.Some? ==> r == PlatformConfig(platform)
  {
    if !pg.loads || ContainsAny(Lower(pg.source), AntiBotMarkers) then None
    else
      match PlatformConfig(platform)
      case None => None
      case Some(c) => if !pg.waitFound then None else Some(c)
  }

  /** The record `scrape_product` returns, tagged with its platform and url. */
  function Tagged(d: Product, p: Platform, url: string): (r: Product)
    ensures r.platform == Some(p) && r.url == Some(url)
  {
    d.(platform := Some(p), url := Some(url))
  }

  /** The last resort of the `try` block: a copy of the platform's record
      (the generic one when the platform has none), or the `RuntimeError`
      when fallback is off. The default `self.fallback_data['generic']` is
      evaluated first, so a table without it raises `KeyError`. */
  function FallbackPath(allow: bool, fb: map<string, Product>, url: string, p: Platform): (r: Result<Product, PyError>)
    ensures r.Ok? <==> allow && "generic" in fb
    ensures r.Ok? ==> r.value.platform == Some(p) && r.value.url == Some(url)
  {
    if !allow then Err(PyRuntimeError("Scraping failed for platform: " + p.Tag()))
    else if "generic" !in fb then Err(PyKeyError("generic"))
    else Ok(Tagged(if p.Tag() in fb then fb[p.Tag()] else fb["generic"], p, url))
  }

  /** The plain request: a 200 the anti-bot check let through is read by
      `extract_data`, whose exceptions leave the `try` block; its data is
      kept only with a real price and when it validates. */
  function RequestPath(allow: bool, fb: map<string, Product>, url: string, p: Platform,
                       resp: Option<Response>, doc: Doc, strOf: StrOf): (r: Result<Product, PyError>)
    ensures r.Ok? ==> r.value.platform == Some(p) && r.value.url == Some(url)
  {
    if resp.Some? && resp.value.status == 200 then
      match ExtractDataSpec(resp.value.text, doc, p, Some(url), strOf)
      case Err(e) => Err(OfExtract(e))
      case Ok(d) =>
        if d.price != Some("$0.00") && ValidateExtractedData(url, d) then Ok(Tagged(d, p, url))
        else FallbackPath(allow, fb, url, p)
    else FallbackPath(allow, fb, url, p)
  }

  /** After the URL checks: Selenium first, then the request. */
  function AfterChecks(allow: bool, fb: map<string, Product>, url: string, p: Platform,
                       page: Option<Page>, f: Fetch, doc: Doc, strOf: StrOf): (r: Result<Product, PyError>)
    ensures r.Ok? ==> r.value.platform == Some(p) && r.value.url == Some(url)
  {
    var sel := SeleniumSpec(page, p, url, strOf);
    if sel.Some? && ValidateExtractedData(url, sel.value) then Ok(Tagged(sel.value, p, url))
    else RequestPath(allow, fb, url, p, AntiBotVerdict(f), doc, strOf)
  }

  /** The URL checks at the top of `scrape_product`; the platform of the
      netloc when they pass. */
  function UrlChecks(url: string): (r: Result<Platform, PyError>)
    ensures r.Ok? ==> Parse(url).Ok? && r.value == DetectPlatform(Parse(url).value.netloc)
  {
    match Parse(url)
    case Err(m) => Err(PyValueError(m))
    case Ok(pu) =>
      if pu.scheme == "" || pu.netloc == "" || pu.scheme !in ["http", "https"] then Err(PyValueError("Invalid URL format"))
      else if |Split(pu.netloc, '.')| < 2 then Err(PyValueError("Invalid domain format"))
      else Ok(DetectPlatform(pu.netloc))
  }

  /** The request of `scrape_with_anti_bot` is made: the URL checks pass
      and the browser gives no record that validates. */
  predicate RequestMade(url: string, page: Option<Page>, strOf: StrOf) {
    UrlChecks(url).Ok? &&
    var sel := SeleniumSpec(page, UrlChecks(url).value, url, strOf);
    !(sel.Some? && ValidateExtractedData(url, sel.value))
  }

  /** Everything inside the `try` block of `scrape_product`. */
  function TryBlock(allow: bool, fb: map<string, Product>, url: string,
                    page: Option<Page>, f: Fetch, doc: Doc, strOf: StrOf): (r: Result<Product, PyError>)
    ensures r.Ok? ==> r.value.platform.Some? && r.value.url == Some(url)
  {
    match UrlChecks(url)
    case Err(e) => Err(e)
    case Ok(p) => AfterChecks(allow, fb, url, p, page, f, doc, strOf)
  }

  /** The platform the `except` block tags its record with, as the code
      computes it: `urlparse` runs again, and the `ValueError` it raises
      escapes the handler. */
  function ExceptPlatformAsWritten(url: string): Result<Platform, PyError> {
    if url == "" then Ok(Generic)
    else
      match Parse(url)
      case Err(m) => Err(PyValueError(m))
      case Ok(pu) => Ok(DetectPlatform(pu.netloc))
  }

  /** The same with the evident intent, no exception out of the handler: a
      URL `urlparse` rejects is tagged `generic`. */
  function ExceptPlatform(url: string): Platform {
    if url == "" then Generic
    else
      match Parse(url)
      case Err(_) => Generic
      case Ok(pu) => DetectPlatform(pu.netloc)
  }

  /** The `except` block as written. */
  function ExceptPathAsWritten(allow: bool, fb: map<string, Product>, url: string, e: PyError): Result<Product, PyError> {
    if !allow then Err(e)
    else if "generic" !in fb then Err(PyAttributeError)
    else
      match ExceptPlatformAsWritten(url)
      case Err(e2) => Err(e2)
      case Ok(p) => Ok(Tagged(fb["generic"], p, url))
  }

  /** The `except` block with the platform computed by `ExceptPlatform`. */
  function ExceptPath(allow: bool, fb: map<string, Product>, url: string, e: PyError): Result<Product, PyError> {
    if !allow then Err(e)
    else if "generic" !in fb then Err(PyAttributeError)
    else Ok(Tagged(fb["generic"], ExceptPlatform(url), url))
  }

  /** `scrape_product(url)` as written. */
  function ScrapeProductAsWritten(allow: bool, fb: map<string, Product>, url: string,
                                  page: Option<Page>, f: Fetch, doc: Doc, strOf: StrOf): Result<Product, PyError> {
    match TryBlock(allow, fb, url, page, f, doc, strOf)
    case Ok(d) => Ok(d)
    case Err(e) => ExceptPathAsWritten(allow, fb, url, e)
  }

  /** `scrape_product(url)` with the `except` block that cannot raise
      while fallback is on: the definition the class follows. */
  function ScrapeProductSpec(allow: bool, fb: map<string, Product>, url: string,
                             page: Option<Page>, f: Fetch, doc: Doc, strOf: StrOf): Result<Product, PyError> {
    match TryBlock(allow, fb, url, page, f, doc, strOf)
    case Ok(d) => Ok(d)
    case Err(e) => ExceptPath(allow, fb, url, e)
  }

  /** The first selector pass of `scrape_with_selenium`, on a fresh record. */
  method SelectorStage(find: map<string, DriverElem>, c: Config) returns (d: Product)
    ensures d == SelectorPass(Defaults, find, c)
  {
    d := Defaults;
    if c.title in find {
      d := d.(title := Strip(find[c.title].text));
    }
    if c.price in find {
      d := d.(price := Some(ExtractPrice(find[c.price].text)));
    }
    if c.rating in find {
      var e := find[c.rating];
      var ratingText := if e.innerText.Some? && e.innerText.value != "" then e.innerText.value else e.text;
      d := WithFirstRating(d, ratingText);
    }
    if c.reviewCount in find {
      d := WithFirstCount(d, RemoveChar(find[c.reviewCount].text, ','));
    }
  }

  /** The `extract_data` pass over the page source and the merge. */
  method MergeStage(d0: Product, pg: Page, platform: Platform, url: string, strOf: StrOf) returns (d: Product)
    ensures d == MergeStep(d0, pg, platform, url, strOf)
  {
    d := d0;
    if d.title == "Unknown Product" || d.price == Some("$0.00") {
      var fallback := ExtractData(pg.source, pg.doc, platform, Some(url), strOf);
      if fallback.Ok? {
        d := MergeTruthy(d, fallback.value);
      }
    }
  }

  /** The second selector pass. */
  method RereadStage(d0: Product, find: map<string, DriverElem>, c: Config) returns (d: Product)
    ensures d == RereadPass(d0, find, c)
  {
    d := d0;
    if c.price in find {
      d := d.(price := Some(ExtractPrice(find[c.price].text)));
    }
    if c.rating in find && find[c.rating].innerHTML.Some? {
      d := WithFirstRating(d, find[c.rating].innerHTML.value);
    }
    if c.reviewCount in find {
      d := WithFirstCount(d, find[c.reviewCount].text);
    }
  }

  /** What `scrape_with_selenium` does with a page the browser opened. */
  method SeleniumVisit(pg: Page, platform: Platform, url: string, strOf: StrOf) returns (data: Option<Product>)
    ensures data == SeleniumSpec(Some(pg), platform, url, strOf)
  {
    var gate := SeleniumGate(pg, platform);
    if gate.None? {
      return None;
    }
    var d := SeleniumPasses(pg, gate.value, platform, url, strOf);
    data := TitledOrNone(d);
  }

  /** The three passes in turn. */
  method SeleniumPasses(pg: Page, c: Config, platform: Platform, url: string, strOf: StrOf) returns (d: Product)
    ensures d == SeleniumRecord(pg, c, platform, url, strOf)
  {
    d := SelectorStage(pg.find, c);
    d := MergeStage(d, pg, platform, url, strOf);
    d := RereadStage(d, pg.find, c);
  }

  /** A browser started by `get_selenium_driver`, showing `page`. */
  class Driver {
    const page: Page
    var quitted: bool

    constructor(page: Page)
      ensures this.page == page && !quitted
    {
      this.page := page;
      quitted := false;
    }

    /** `driver.quit()` */
    method Quit()
      modifies this
      ensures quitted
    {
      quitted := true;
    }
  }

  /** `ProductScraper`: the session headers, the fallback table and the
      fallback switch. Its platform configs are the constant
      `PlatformConfig`. */
  class ProductScraper {
    var headers: map<string, string>
    var fallbackData: map<string, Product>
    var allowFallback: bool

    /** `__init__` on a session whose own headers are `base`. */
    constructor(base: map<string, string>, ua: string)
      ensures headers == base + SessionHeaders(ua)
      ensures fallbackData == FallbackData && allowFallback
    {
      headers := base + SessionHeaders(ua);
      fallbackData := FallbackData;
      allowFallback := true;
    }

    /** `scrape_with_anti_bot(url)`: the headers are updated, then the
        request is made; `f` is what it does. */
    method ScrapeWithAntiBot(ua: string, f: Fetch) returns (r: Option<Response>)
      modifies this
      ensures headers == old(headers) + RequestHeaders(ua)
      ensures fallbackData == old(fallbackData) && allowFallback == old(allowFallback)
      ensures r == AntiBotVerdict(f)
    {
      headers := headers + RequestHeaders(ua);
      if f.Raised? {
        return None;
      }
      var resp := f.resp;
      if resp.status == 200 {
        if ContainsAny(Lower(resp.text), AntiBotMarkers) {
          return None;
        }
        return Some(resp);
      }
      return None;
    }

    /** `scrape_with_selenium(url, platform)` on the browser `driver` (`null`
        when it cannot be created); a created browser is always quit. */
    method ScrapeWithSelenium(url: string, platform: Platform, driver: Driver?, strOf: StrOf) returns (data: Option<Product>)
      modifies driver
      ensures driver != null ==> driver.quitted
      ensures data == SeleniumSpec(if driver == null then None else Some(driver.page), platform, url, strOf)
    {
      if driver == null {
        return None;
      }
      data := SeleniumVisit(driver.page, platform, url, strOf);
      driver.Quit();
    }

    /** `scrape_product(url)`. The browser is `driver`, the request does
        `f`, and `doc` is the parse of the response text. */
    method ScrapeProduct(url: string, driver: Driver?, ua: string, f: Fetch, doc: Doc, strOf: StrOf)
      returns (r: Result<Product, PyError>)
      modifies this, driver
      ensures r == ScrapeProductSpec(old(allowFallback), old(fallbackData), url,
                                     if driver == null then None else Some(driver.page), f, doc, strOf)
      ensures fallbackData == old(fallbackData) && allowFallback == old(allowFallback)
      ensures headers == if RequestMade(url, if driver == null then None else Some(driver.page), strOf)
                         then old(headers) + RequestHeaders(ua) else old(headers)
      ensures driver != null ==> driver.quitted == (old(driver.quitted) || UrlChecks(url).Ok?)
    {
      var page := if driver == null then None else Some(driver.page);
      var attempt := TryScrape(url, driver, ua, f, doc, strOf);
      assert attempt == TryBlock(allowFallback, fallbackData, url, page, f, doc, strOf);
      if attempt.Ok? {
        return attempt;
      }
      // the `except` block
      if !allowFallback {
        return attempt;
      }
      if "generic" !in fallbackData {
        return Err(PyAttributeError);
      }
      r := Ok(Tagged(fallbackData["generic"], ExceptPlatform(url), url));
    }

    /** The `try` block of `scrape_product`. */
    method TryScrape(url: string, driver: Driver?, ua: string, f: Fetch, doc: Doc, strOf: StrOf)
      returns (r: Result<Product, PyError>)
      modifies this, driver
      ensures r == TryBlock(old(allowFallback), old(fallbackData), url,
                            if driver == null then None else Some(driver.page), f, doc, strOf)
      ensures fallbackData == old(fallbackData) && allowFallback == old(allowFallback)
      ensures headers == if RequestMade(url, if driver == null then None else Some(driver.page), strOf)
                         then old(headers) + RequestHeaders(ua) else old(headers)
      ensures driver != null ==> driver.quitted == (old(driver.quitted) || UrlChecks(url).Ok?)
    {
      var checked := UrlChecks(url);
      if checked.Err? {
        return Err(checked.error);
      }
      var platform := checked.value;
      var data := ScrapeWithSelenium(url, platform, driver, strOf);
      assert headers == old(headers) && fallbackData == old(fallbackData) && allowFallback == old(allowFallback);
      if data.Some? && ValidateExtractedData(url, data.value) {
        return Ok(Tagged(data.value, platform, url));
      }
      var response := ScrapeWithAntiBot(ua, f);
      r := RequestStage(url, platform, response, doc, strOf);
    }

    /** From the request's response on. */
    method RequestStage(url: string, platform: Platform, response: Option<Response>, doc: Doc, strOf: StrOf)
      returns (r: Result<Product, PyError>)
      ensures r == RequestPath(allowFallback, fallbackData, url, platform, response, doc, strOf)
    {
      if response.Some? && response.value.status == 200 {
        var extracted := ExtractData(response.value.text, doc, platform, Some(url), strOf);
        if extracted.Err? {
          return Err(OfExtract(extracted.error));
        }
        var data := extracted.value;
        if data.price != Some("$0.00") && ValidateExtractedData(url, data) {
          return Ok(Tagged(data, platform, url));
        }
      }
      r := Fallback(url, platform);
    }

    /** The fallback at the end of the `try` block. */
    method Fallback(url: string, platform: Platform) returns (r: Result<Product, PyError>)
      ensures r == FallbackPath(allowFallback, fallbackData, url, platform)
    {
      if !allowFallback {
        return Err(PyRuntimeError("Scraping failed for platform: " + platform.Tag()));
      }
      if "generic" !in fallbackData {
        return Err(PyKeyError("generic"));
      }
      var record := if platform.Tag() in fallbackData then fallbackData[platform.Tag()] else fallbackData["generic"];
      r := Ok(Tagged(record, platform, url));
    }
  }
}
