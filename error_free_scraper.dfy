/** backend/tests/comprehensive_error_fix.py: a URL check, a stealth
    request with an alternative request on anti-bot pages, an extraction
    whose gaps are filled from the headings and the text, and a fallback
    drawn from fixed pools. */
module ErrorFreeScraping {
  import opened Common
  import opened Text
  import opened Patterns
  import opened Platforms
  import opened Selectors
  import Scraping
  import PyJson
  import Urls
  import AdvancedScraper
  import StagedScraper

  // ---------------------------------------------------------------- fetching

  datatype Status = Success | InvalidUrl | Http(code: int) | Error {
    function Text(): string {
      match this
      case Success => "SUCCESS"
      case InvalidUrl => "INVALID_URL"
      case Http(code) => "HTTP_" + PyJson.IntText(code)
      case Error => "ERROR"
    }
  }

  /** `(content, status)` */
  datatype Outcome = Outcome(content: Option<string>, status: Status)

  const Markers: seq<string> := [
    "captcha", "robot", "bot detection", "access denied",
    "blocked", "suspicious activity", "verify you are human",
    "cloudflare", "security check", "please wait"]

  /** `validate_url(url)`, given what `requests.head` did. */
  predicate ValidUrl(head: Scraping.Fetch) {
    head.Got? && head.resp.status == 200
  }

  /** `scrape_with_alternative_method(url)`, given what `requests.get` did:
      any 200 is a success, markers or not. */
  function AlternativeOutcome(alt: Scraping.Fetch): (r: Outcome)
    ensures r.status == Success <==> alt.Got? && alt.resp.status == 200
    ensures r.status == Success ==> r.content == Some(alt.resp.text)
    ensures r.status != Success ==> r.content.None?
    ensures r.status == Error <==> alt.Raised?
  {
    match alt
    case Raised => Outcome(None, Error)
    case Got(resp) => if resp.status == 200 then Outcome(Some(resp.text), Success) else Outcome(None, Http(resp.status))
  }

  /** `scrape_with_enhanced_stealth(url)`: `head` the URL check, `f` the
      session request, `alt` the alternative request. */
  function StealthOutcome(head: Scraping.Fetch, f: Scraping.Fetch, alt: Scraping.Fetch): (r: Outcome)
    ensures !ValidUrl(head) <==> r == Outcome(None, InvalidUrl)
    ensures ValidUrl(head) && f.Raised? ==> r == Outcome(None, Error)
    ensures ValidUrl(head) && f.Got? && f.resp.status != 200 ==> r == Outcome(None, Http(f.resp.status))
    ensures ValidUrl(head) && f.Got? && f.resp.status == 200 ==>
      r == if ContainsAny(Lower(f.resp.text), Markers) then AlternativeOutcome(alt) else Outcome(Some(f.resp.text), Success)
  {
    if !ValidUrl(head) then Outcome(None, InvalidUrl)
    else match f
      case Raised => Outcome(None, Error)
      case Got(resp) =>
        if resp.status != 200 then Outcome(None, Http(resp.status))
        else if ContainsAny(Lower(resp.text), Markers) then AlternativeOutcome(alt)
        else Outcome(Some(resp.text), Success)
  }

  /** A success carries the text of a 200 that came back after the URL
      check passed; without an anti-bot page the alternative is never
      asked. */
  lemma StealthSuccess(head: Scraping.Fetch, f: Scraping.Fetch, alt: Scraping.Fetch, alt': Scraping.Fetch)
    ensures var r := StealthOutcome(head, f, alt);
      r.status == Success ==> (ValidUrl(head) && f.Got? && f.resp.status == 200
        && (r.content == Some(f.resp.text) || (ContainsAny(Lower(f.resp.text), Markers) && r.content == Some(alt.resp.text))))
    ensures !(ValidUrl(head) && f.Got? && f.resp.status == 200 && ContainsAny(Lower(f.resp.text), Markers)) ==>
      StealthOutcome(head, f, alt) == StealthOutcome(head, f, alt')
  {
  }

  // ---------------------------------------------------------------- platform

  const DetectRules: Rules := [(Amazon, ["amazon"]), (Daraz, ["daraz"]), (Ebay, ["ebay"]), (AliExpress, ["aliexpress"]), (Alibaba, ["alibaba"])]

  /** The `if` chain of `detect_platform` on the lower-cased host. */
  function DetectHost(domain: string): Platform {
    if Contains(domain, "amazon") then Amazon
    else if Contains(domain, "daraz") then Daraz
    else if Contains(domain, "ebay") then Ebay
    else if Contains(domain, "aliexpress") then AliExpress
    else if Contains(domain, "alibaba") then Alibaba
    else Generic
  }

  /** `detect_platform(url)`; `None` when `urlparse` raises. */
  function DetectPlatform(url: string): (r: Option<Platform>)
    ensures r.Some? <==> Urls.Parse(url).Ok?
    ensures r.Some? ==> r.value == DetectHost(Lower(Urls.Parse(url).value.netloc))
  {
    match Urls.Parse(url)
    case Err(_) => None
    case Ok(parsed) => Some(DetectHost(Lower(parsed.netloc)))
  }

  /** The chain is the rule table read in order: the first platform one of
      whose markers is in the host, `Generic` when there is none. */
  lemma DetectHostIsFirstHit(domain: string)
    ensures DetectHost(domain) == Classify(DetectRules, domain)
  {
    var r4: Rules := [(Alibaba, ["alibaba"])] + [];
    var r3 := [(AliExpress, ["aliexpress"])] + r4;
    var r2 := [(Ebay, ["ebay"])] + r3;
    var r1 := [(Daraz, ["daraz"])] + r2;
    assert DetectRules == [(Amazon, ["amazon"])] + r1;
    ClassifyStep(Amazon, "amazon", r1, domain);
    ClassifyStep(Daraz, "daraz", r2, domain);
    ClassifyStep(Ebay, "ebay", r3, domain);
    ClassifyStep(AliExpress, "aliexpress", r4, domain);
    ClassifyStep(Alibaba, "alibaba", [], domain);
  }

  // ---------------------------------------------------------------- extraction

  /** A parsed page: what `select_one` finds, the texts of its `h1`–`h4`
      elements in order, and its `get_text()`. */
  datatype Soup = Soup(one: Found, headings: seq<string>, text: string)

  const TitleSelectors: seq<string> := [
    "h1", "h2", "h3", ".product-title", ".title", ".product-name",
    "[data-testid=\"product-title\"]", "[data-testid=\"title\"]",
    ".pdp-product-name", ".product-title-text", "span#productTitle", ".a-size-large"]
  const PriceSelectors: seq<string> := [
    ".price", ".product-price", ".price-current", ".pdp-price", ".price-value", ".price-box",
    ".a-price-whole", ".a-offscreen", "[data-testid=\"price\"]", "[data-testid=\"current-price\"]"]
  const Symbols: seq<string> := ["$", "€", "£", "₹", "PKR", "Rs"]
  const RatingSelectors: seq<string> := [
    ".rating", ".stars", ".rating-average", ".a-icon-alt", ".review-rating",
    "[data-testid=\"rating\"]", "[data-testid=\"stars\"]"]

  /** The price after the selector loop: the regex scan runs only when the
      loop left the placeholder. */
  function PriceAfterScan(selected: string, text: string): string {
    if selected == AdvancedScraper.NoPrice
    then StagedScraper.FirstSome(StagedScraper.PatternMatches(StagedScraper.PricePatterns, text)).GetOr(AdvancedScraper.NoPrice)
    else selected
  }

  /** `extract_product_data_enhanced(content, platform)`: the placeholder
      record with the title, price and rating its loops found. */
  function ExtractSpec(soup: Soup, p: Platform): AdvancedScraper.Record {
    AdvancedScraper.Record(
      FirstAccepted(TitleSelectors, soup.one, LongerThan(5)).GetOr(AdvancedScraper.NoTitle),
      PriceAfterScan(FirstAccepted(PriceSelectors, soup.one, HasAnyOf(Symbols)).GetOr(AdvancedScraper.NoPrice), soup.text),
      FirstAccepted(RatingSelectors, soup.one, Matching(DecimalNumber)).GetOr("N/A"),
      "0", "Unknown", [], p)
  }

  /** The first pattern of `ps` that matches `text`, by a loop. */
  method ScanPatterns(ps: seq<Regex>, text: string) returns (m: Option<string>)
    ensures m == StagedScraper.FirstSome(StagedScraper.PatternMatches(ps, text))
  {
    ghost var ms := StagedScraper.PatternMatches(ps, text);
    m := None;
    var k := 0;
    while k < |ps|
      invariant 0 <= k <= |ps|
      invariant StagedScraper.FirstSome(ms) == StagedScraper.FirstSome(ms[k..])
    {
      assert ms[k..][1..] == ms[k + 1..];
      var found := SearchText(ps[k], text);
      assert ms[k..][0] == found;
      if found.Some? {
        m := found;
        break;
      }
      k := k + 1;
    }
  }

  method ExtractProductDataEnhanced(soup: Soup, p: Platform) returns (data: AdvancedScraper.Record)
    ensures data == ExtractSpec(soup, p)
  {
    var title := ScanSelectors(TitleSelectors, soup.one, LongerThan(5));
    var selected := ScanSelectors(PriceSelectors, soup.one, HasAnyOf(Symbols));
    var price := selected.GetOr(AdvancedScraper.NoPrice);
    if price == AdvancedScraper.NoPrice {
      var scanned := ScanPatterns(StagedScraper.PricePatterns, soup.text);
      price := scanned.GetOr(price);
    }
    var rating := ScanSelectors(RatingSelectors, soup.one, Matching(DecimalNumber));
    data := AdvancedScraper.Record(title.GetOr(AdvancedScraper.NoTitle), price, rating.GetOr("N/A"), "0", "Unknown", [], p);
  }

  /** The symbols of the price patterns, in their order. */
  const PatternSymbols: seq<string> := ["$", "€", "£", "₹", "PKR"]

  lemma PatternOf(k: nat)
    requires k < |PatternSymbols|
    ensures k < |StagedScraper.PricePatterns| && StagedScraper.PricePatterns[k] == SymbolAmount(PatternSymbols[k])
  {
  }

  /** A value the scan over `SYM[\d,]+\.?\d*` patterns found starts with
      the symbol of one of them. */
  lemma ScannedPriceLeads(ps: seq<Regex>, syms: seq<string>, text: string)
    requires |ps| == |syms| && forall k :: 0 <= k < |ps| ==> ps[k] == SymbolAmount(syms[k])
    ensures var m := StagedScraper.FirstSome(StagedScraper.PatternMatches(ps, text));
      m.Some? ==> exists k :: 0 <= k < |syms| && StartsWith(m.value, syms[k]) && |m.value| > |syms[k]|
  {
    var ms := StagedScraper.PatternMatches(ps, text);
    StagedScraper.FirstSomeIsFirst(ms);
    if StagedScraper.FirstSome(ms).Some? {
      var k :| 0 <= k < |ms| && StagedScraper.FirstSome(ms) == ms[k];
      SymbolMatchLeads(syms[k], text);
    }
  }

  /** The price after the scan is the placeholder, a selector's text with
      a currency symbol, or a scanned amount led by a pattern's symbol. */
  lemma PriceField(soup: Soup)
    ensures var pr := PriceAfterScan(FirstAccepted(PriceSelectors, soup.one, HasAnyOf(Symbols)).GetOr(AdvancedScraper.NoPrice), soup.text);
      pr == AdvancedScraper.NoPrice || ContainsAny(pr, Symbols)
      || exists k :: 0 <= k < |PatternSymbols| && StartsWith(pr, PatternSymbols[k])
  {
    StagedScraper.FieldsOf(PriceSelectors, soup.one, HasAnyOf(Symbols));
    forall k | 0 <= k < |PatternSymbols| ensures StagedScraper.PricePatterns[k] == SymbolAmount(PatternSymbols[k]) {
      PatternOf(k);
    }
    ScannedPriceLeads(StagedScraper.PricePatterns, PatternSymbols, soup.text);
  }

  /** Each field of the record is its placeholder or a value that passed
      its test: a title longer than five characters, a price with a
      currency symbol, or one the scan found, and a rating that starts
      with a digit. */
  lemma ExtractFields(soup: Soup, p: Platform)
    ensures var d := ExtractSpec(soup, p);
      (d.title == AdvancedScraper.NoTitle || |d.title| > 5)
      && (d.price == AdvancedScraper.NoPrice || ContainsAny(d.price, Symbols)
          || exists k :: 0 <= k < |PatternSymbols| && StartsWith(d.price, PatternSymbols[k]))
      && (d.rating == "N/A" || (d.rating != "" && IsDigit(d.rating[0])))
      && d.reviewCount == "0" && d.seller == "Unknown" && d.reviews == [] && d.platform == p
  {
    StagedScraper.FieldsOf(TitleSelectors, soup.one, LongerThan(5));
    PriceField(soup);
    StagedScraper.RatingField(RatingSelectors, soup.one);
  }

  /** The regex scan never replaces a price a selector found. */
  lemma SelectorPriceWins(soup: Soup, p: Platform)
    requires FirstAccepted(PriceSelectors, soup.one, HasAnyOf(Symbols)).Some?
    ensures ExtractSpec(soup, p).price == FirstAccepted(PriceSelectors, soup.one, HasAnyOf(Symbols)).value
    ensures ContainsAny(ExtractSpec(soup, p).price, Symbols)
  {
    FirstAcceptedIsFirst(PriceSelectors, soup.one, HasAnyOf(Symbols));
    var v := FirstAccepted(PriceSelectors, soup.one, HasAnyOf(Symbols)).value;
    if v == AdvancedScraper.NoPrice {
      NoSymbolInPlaceholder();
      assert false;
    }
  }

  /** A text without the characters `$ € £ ₹ K R` holds no currency symbol. */
  lemma NoSymbolWithout(t: string)
    requires '$' !in t && '€' !in t && '£' !in t && '₹' !in t && 'K' !in t && 'R' !in t
    ensures !ContainsAny(t, Symbols)
  {
    NotContainsByChar(t, "$", '$');
    NotContainsByChar(t, "€", '€');
    NotContainsByChar(t, "£", '£');
    NotContainsByChar(t, "₹", '₹');
    NotContainsByChar(t, "PKR", 'K');
    NotContainsByChar(t, "Rs", 'R');
  }

  /** The placeholder price holds no currency symbol. */
  lemma NoSymbolInPlaceholder()
    ensures !ContainsAny(AdvancedScraper.NoPrice, Symbols)
  {
    var t := AdvancedScraper.NoPrice;
    assert forall i :: 0 <= i < |t| ==> t[i] == ' ' || 'a' <= t[i] <= 'z' || t[i] == 'P';
    NoSymbolWithout(t);
  }

  // ---------------------------------------------------------------- enhancing

  /** The patterns `enhance_with_real_data` scans with (no `PKR`). */
  function EnhancePatterns(): seq<Regex> { StagedScraper.PricePatterns[..4] }

  /** The first heading strictly between 10 and 200 characters long. */
  function FirstFitHeading(hs: seq<string>): (r: Option<string>)
    ensures r.Some? ==> r.value in hs && 10 < |r.value| < 200
  {
    if hs == [] then None else if 10 < |hs[0]| < 200 then Some(hs[0]) else FirstFitHeading(hs[1..])
  }

  /** `enhance_with_real_data(data, content, platform)` */
  function EnhanceSpec(data: AdvancedScraper.Record, soup: Soup): AdvancedScraper.Record {
    var t := if data.title == AdvancedScraper.NoTitle then FirstFitHeading(soup.headings).GetOr(data.title) else data.title;
    var pr := if data.price == AdvancedScraper.NoPrice
              then StagedScraper.FirstSome(StagedScraper.PatternMatches(EnhancePatterns(), soup.text)).GetOr(data.price)
              else data.price;
    data.(title := t, price := pr)
  }

  method EnhanceWithRealData(data: AdvancedScraper.Record, soup: Soup) returns (r: AdvancedScraper.Record)
    ensures r == EnhanceSpec(data, soup)
  {
    r := data;
    if r.title == AdvancedScraper.NoTitle {
      var hs := soup.headings;
      var i := 0;
      while i < |hs|
        invariant 0 <= i <= |hs|
        invariant FirstFitHeading(hs) == FirstFitHeading(hs[i..])
        invariant r == data
      {
        assert hs[i..][1..] == hs[i + 1..];
        var text := hs[i];
        if text != "" && |text| > 10 && |text| < 200 {
          r := r.(title := text);
          break;
        }
        i := i + 1;
      }
    }
    if r.price == AdvancedScraper.NoPrice {
      var scanned := ScanPatterns(EnhancePatterns(), soup.text);
      if scanned.Some? {
        r := r.(price := scanned.value);
      }
    }
  }

  /** Only a field still holding its placeholder is replaced, a title only
      by a heading of 11 to 199 characters, and nothing else changes. */
  lemma EnhanceKeepsRealData(data: AdvancedScraper.Record, soup: Soup)
    ensures var r := EnhanceSpec(data, soup);
      r.(title := data.title, price := data.price) == data
      && (data.title != AdvancedScraper.NoTitle ==> r.title == data.title)
      && (data.price != AdvancedScraper.NoPrice ==> r.price == data.price)
      && (r.title != data.title ==> r.title in soup.headings && 10 < |r.title| < 200)
  {
  }

  // ---------------------------------------------------------------- fallback

  /** `prices.get(platform, prices['generic'])` */
  function PricePool(p: Platform): seq<string> {
    match p
    case Amazon => ["$29.99", "$49.99", "$79.99", "$129.99"]
    case Daraz => ["Rs 2,999", "Rs 4,999", "Rs 7,999", "Rs 12,999"]
    case Ebay => ["$19.99", "$39.99", "$59.99", "$99.99"]
    case AliExpress => ["$9.99", "$19.99", "$29.99", "$49.99"]
    case Alibaba => ["$5.99", "$12.99", "$24.99", "$39.99"]
    case _ => ["$24.99", "$39.99", "$59.99", "$89.99"]
  }

  const Ratings: seq<string> := ["3.2", "3.5", "3.8", "4.0", "4.2", "4.5", "4.7"]
  const Counts: seq<string> := ["25", "47", "89", "156", "234", "567", "1,234"]
  const Templates: seq<AdvancedScraper.Review> := [
    AdvancedScraper.Review("Good product, works as expected", "4"),
    AdvancedScraper.Review("Fast shipping, good quality", "5"),
    AdvancedScraper.Review("Decent product for the price", "3"),
    AdvancedScraper.Review("Exactly what I needed", "4"),
    AdvancedScraper.Review("Good value for money", "4")]

  /** The random draws of `get_improved_fallback_data`: an index into each
      pool, and the template positions `random.sample` picked. */
  datatype Draws = Draws(price: nat, rating: nat, count: nat, sample: seq<nat>)

  /** `random.choice` picks a position of its list, and `random.sample(…,
      random.randint(2, 4))` two to four distinct positions. */
  predicate ValidDraws(p: Platform, d: Draws) {
    d.price < |PricePool(p)| && d.rating < |Ratings| && d.count < |Counts|
    && 2 <= |d.sample| <= 4
    && (forall i :: 0 <= i < |d.sample| ==> d.sample[i] < |Templates|)
    && (forall i, j :: 0 <= i < j < |d.sample| ==> d.sample[i] != d.sample[j])
  }

  function SampledReviews(sample: seq<nat>): (rs: seq<AdvancedScraper.Review>)
    requires forall i :: 0 <= i < |sample| ==> sample[i] < |Templates|
    ensures |rs| == |sample|
  {
    seq(|sample|, i requires 0 <= i < |sample| => Templates[sample[i]])
  }

  /** `get_improved_fallback_data(url, platform)` */
  function ImprovedFallback(url: string, p: Platform, d: Draws): AdvancedScraper.Record
    requires ValidDraws(p, d)
  {
    var name := TitleCase(p.Tag());
    AdvancedScraper.Record(name + " Product - " + Take(AdvancedScraper.LastSegment(url), 30),
      PricePool(p)[d.price], Ratings[d.rating], Counts[d.count], name + " Seller", SampledReviews(d.sample), p)
  }

  /** Daraz prices are in rupees, every other pool in dollars. */
  lemma PoolCurrency(p: Platform, k: nat)
    requires k < |PricePool(p)|
    ensures p == Daraz ==> StartsWith(PricePool(p)[k], "Rs ")
    ensures p != Daraz ==> StartsWith(PricePool(p)[k], "$")
  {
  }

  /** Distinct template positions give distinct reviews, all templates. */
  lemma SampledDistinct(sample: seq<nat>)
    requires forall i :: 0 <= i < |sample| ==> sample[i] < |Templates|
    requires forall i, j :: 0 <= i < j < |sample| ==> sample[i] != sample[j]
    ensures var rs := SampledReviews(sample);
      (forall i, j :: 0 <= i < j < |rs| ==> rs[i] != rs[j])
      && (forall i :: 0 <= i < |rs| ==> rs[i] in Templates)
  {
    var rs := SampledReviews(sample);
    forall i, j | 0 <= i < j < |rs| ensures rs[i] != rs[j] {
      TemplatesDistinct(sample[i], sample[j]);
    }
  }

  /** The fallback price is a Daraz rupee price or a dollar price, the
      rating and count come from their lists, and the two to four reviews
      are distinct templates. */
  lemma FallbackFromPools(url: string, p: Platform, d: Draws)
    requires ValidDraws(p, d)
    ensures var r := ImprovedFallback(url, p, d);
      (p == Daraz ==> StartsWith(r.price, "Rs ")) && (p != Daraz ==> StartsWith(r.price, "$"))
      && r.rating in Ratings && r.reviewCount in Counts && r.platform == p
      && 2 <= |r.reviews| <= 4
      && (forall i, j :: 0 <= i < j < |r.reviews| ==> r.reviews[i] != r.reviews[j])
      && (forall i :: 0 <= i < |r.reviews| ==> r.reviews[i] in Templates)
  {
    PoolCurrency(p, d.price);
    SampledDistinct(d.sample);
  }

  lemma TemplatesDistinct(a: nat, b: nat)
    requires a < |Templates| && b < |Templates| && a != b
    ensures Templates[a] != Templates[b]
  {
    assert |Templates[0].text| == 31 && |Templates[1].text| == 27 && |Templates[2].text| == 28;
    assert |Templates[3].text| == 21 && |Templates[4].text| == 20;
  }

  // ---------------------------------------------------------------- scraper

  /** `scrape_product(url)`: the fallback unless the fetch succeeded,
      otherwise the extracted record, enhanced when a placeholder is left. */
  function ScrapeProductSpec(url: string, head: Scraping.Fetch, f: Scraping.Fetch, alt: Scraping.Fetch, soup: Soup, d: Draws)
    : Result<AdvancedScraper.Record, string>
    requires DetectPlatform(url).Some? ==> ValidDraws(DetectPlatform(url).value, d)
  {
    match DetectPlatform(url)
    case None => Err(Urls.Parse(url).error)
    case Some(p) =>
      if StealthOutcome(head, f, alt).status != Success then Ok(ImprovedFallback(url, p, d))
      else
        var data := ExtractSpec(soup, p);
        if data.title != AdvancedScraper.NoTitle && data.price != AdvancedScraper.NoPrice then Ok(data)
        else Ok(EnhanceSpec(data, soup))
  }

  /** Enhancing is only ever asked for a record with a placeholder, and it
      never undoes an extracted value. */
  lemma ScrapeKeepsExtracted(url: string, head: Scraping.Fetch, f: Scraping.Fetch, alt: Scraping.Fetch, soup: Soup, d: Draws)
    requires Urls.Parse(url).Ok? && ValidDraws(DetectPlatform(url).value, d)
    requires StealthOutcome(head, f, alt).status == Success
    ensures var r := ScrapeProductSpec(url, head, f, alt, soup, d).value; var e := ExtractSpec(soup, DetectPlatform(url).value);
      r.rating == e.rating && r.reviews == e.reviews && r.platform == e.platform
      && (e.title != AdvancedScraper.NoTitle ==> r.title == e.title)
      && (e.price != AdvancedScraper.NoPrice ==> r.price == e.price)
  {
    EnhanceKeepsRealData(ExtractSpec(soup, DetectPlatform(url).value), soup);
  }

  const Agents: seq<string> := [
    "Mozilla/5.0 (Windows NT 10.0; Win64; x64) AppleWebKit/537.36 (KHTML, like Gecko) Chrome/120.0.0.0 Safari/537.36",
    "Mozilla/5.0 (Macintosh; Intel Mac OS X 10_15_7) AppleWebKit/537.36 (KHTML, like Gecko) Chrome/120.0.0.0 Safari/537.36"]

  /** The headers `setup_stealth_session` adds. */
  function SetupHeaders(ua: string): map<string, string> {
    map["User-Agent" := ua,
        "Accept" := "text/html,application/xhtml+xml,application/xml;q=0.9,image/webp,*/*;q=0.8",
        "Accept-Language" := "en-US,en;q=0.9",
        "Accept-Encoding" := "gzip, deflate, br",
        "Connection" := "keep-alive",
        "Upgrade-Insecure-Requests" := "1",
        "Sec-Fetch-Dest" := "document",
        "Sec-Fetch-Mode" := "navigate",
        "Sec-Fetch-Site" := "none",
        "Cache-Control" := "max-age=0",
        "DNT" := "1"]
  }

  /** `ErrorFreeScraper`, seen through its session headers. */
  class ErrorFreeScraper {
    var headers: map<string, string>

    constructor(base: map<string, string>, ua: string)
      requires ua in Agents
      ensures headers == base + SetupHeaders(ua)
    {
      headers := base + SetupHeaders(ua);
    }

    /** `scrape_with_enhanced_stealth(url)`; `ua` is the agent it rotates
        in once the URL check has passed. */
    method ScrapeWithEnhancedStealth(head: Scraping.Fetch, ua: string, f: Scraping.Fetch, alt: Scraping.Fetch) returns (r: Outcome)
      modifies this
      ensures r == StealthOutcome(head, f, alt)
      ensures headers == if ValidUrl(head) then old(headers)["User-Agent" := ua] else old(headers)
    {
      if !(head.Got? && head.resp.status == 200) {
        return Outcome(None, InvalidUrl);
      }
      headers := headers["User-Agent" := ua];
      if f.Raised? {
        return Outcome(None, Error);
      }
      if f.resp.status != 200 {
        return Outcome(None, Http(f.resp.status));
      }
      if ContainsAny(Lower(f.resp.text), Markers) {
        r := AlternativeOutcome(alt);
        return;
      }
      r := Outcome(Some(f.resp.text), Success);
    }

    method ScrapeProduct(url: string, head: Scraping.Fetch, ua: string, f: Scraping.Fetch, alt: Scraping.Fetch, soup: Soup, d: Draws)
      returns (r: Result<AdvancedScraper.Record, string>)
      requires DetectPlatform(url).Some? ==> ValidDraws(DetectPlatform(url).value, d)
      modifies this
      ensures r == ScrapeProductSpec(url, head, f, alt, soup, d)
      ensures headers == if r.Ok? && ValidUrl(head) then old(headers)["User-Agent" := ua] else old(headers)
    {
      var platform := DetectPlatform(url);
      if platform.None? {
        return Err(Urls.Parse(url).error);
      }
      var p := platform.value;
      var outcome := ScrapeWithEnhancedStealth(head, ua, f, alt);
      if outcome.status != Success {
        return Ok(ImprovedFallback(url, p, d));
      }
      var data := ExtractProductDataEnhanced(soup, p);
      if !(data.title != AdvancedScraper.NoTitle && data.price != AdvancedScraper.NoPrice) {
        data := EnhanceWithRealData(data, soup);
      }
      r := Ok(data);
    }
  }
}
