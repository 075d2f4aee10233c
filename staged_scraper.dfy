/** backend/tests/enhanced_scraper.py: a request, then Selenium, then the
    fallback record, and the per-platform extraction of the parsed page. */
module StagedScraper {
  import opened Common
  import opened Text
  import opened Patterns
  import opened Platforms
  import opened Selectors
  import Scraping
  import Urls
  import AdvancedScraper

  // ---------------------------------------------------------------- fetching

  /** The status strings of the two fetches. */
  datatype Status = Blocked | RateLimited | HttpError | AntiBot | Error | Success {
    function Text(): string {
      match this
      case Blocked => "BLOCKED"
      case RateLimited => "RATE_LIMITED"
      case HttpError => "HTTP_ERROR"
      case AntiBot => "ANTI_BOT"
      case Error => "ERROR"
      case Success => "SUCCESS"
    }
  }

  const Markers: seq<string> := ["captcha", "robot", "bot detection", "access denied"]

  /** `scrape_with_requests(url)` once `session.get` has done `f`: the
      status is tested before the page, 403 and 429 before other codes. */
  function RequestsOutcome(f: Scraping.Fetch): (r: (Option<Scraping.Response>, Status))
    ensures r.1 == Error <==> f.Raised?
    ensures r.1 == Blocked <==> f.Got? && f.resp.status == 403
    ensures r.1 == RateLimited <==> f.Got? && f.resp.status == 429
    ensures r.1 == HttpError <==> f.Got? && f.resp.status != 200 && f.resp.status != 403 && f.resp.status != 429
    ensures r.1 == AntiBot <==> f.Got? && f.resp.status == 200 && ContainsAny(Lower(f.resp.text), Markers)
    ensures r.1 == Success <==> f.Got? && f.resp.status == 200 && !ContainsAny(Lower(f.resp.text), Markers)
    ensures r.0 == if r.1 == Success then Some(f.resp) else None
  {
    match f
    case Raised => (None, Error)
    case Got(resp) =>
      if resp.status == 403 then (None, Blocked)
      else if resp.status == 429 then (None, RateLimited)
      else if resp.status != 200 then (None, HttpError)
      else if ContainsAny(Lower(resp.text), Markers) then (None, AntiBot)
      else (Some(resp), Success)
  }

  /** `scrape_with_selenium(url)` on a browser showing `page` (`None` when
      none could be started): a page that does not load or never shows a
      body raises, which is an error. */
  function SeleniumOutcome(page: Option<Scraping.Page>): (r: (Option<string>, Status))
    ensures r.1 == Error <==> page.None? || !page.value.loads || !page.value.waitFound
    ensures r.1 != Error ==> (r.1 == AntiBot <==> ContainsAny(Lower(page.value.source), Markers))
    ensures r.1 in {Error, AntiBot, Success}
    ensures r.0 == if r.1 == Success then Some(page.value.source) else None
  {
    match page
    case None => (None, Error)
    case Some(pg) =>
      if !pg.loads || !pg.waitFound then (None, Error)
      else if ContainsAny(Lower(pg.source), Markers) then (None, AntiBot)
      else (Some(pg.source), Success)
  }

  // ---------------------------------------------------------------- the page

  /** A parsed page: `one` holds what `select_one` finds, `all` the element
      lists `select` gives (each element seen through its own `select_one`),
      `headings` the texts of its `h1`/`h2`/`h3` elements in order and
      `text` what `get_text()` gives. */
  datatype Soup = Soup(one: Found, all: map<string, seq<Found>>, headings: seq<string>, text: string)

  function Elements(all: map<string, seq<Found>>, sel: string): seq<Found> {
    if sel in all then all[sel] else []
  }

  // ---------------------------------------------------------------- reviews

  /** The elements of the first review selector that selects any. */
  function FirstListed(all: map<string, seq<Found>>, sels: seq<string>): (r: Option<seq<Found>>)
    ensures r.Some? ==> r.value != []
    decreases |sels|
  {
    if sels == [] then None
    else if Elements(all, sels[0]) != [] then Some(Elements(all, sels[0]))
    else FirstListed(all, sels[1..])
  }

  lemma {:induction false} FirstListedIsFirst(all: map<string, seq<Found>>, sels: seq<string>)
    ensures FirstListed(all, sels).None? <==> forall k :: 0 <= k < |sels| ==> Elements(all, sels[k]) == []
    ensures FirstListed(all, sels).Some? ==>
      exists k :: 0 <= k < |sels| && FirstListed(all, sels) == Some(Elements(all, sels[k]))
        && forall j :: 0 <= j < k ==> Elements(all, sels[j]) == []
    decreases |sels|
  {
    if sels != [] && Elements(all, sels[0]) == [] {
      var rest := sels[1..];
      FirstListedIsFirst(all, rest);
      assert forall k :: 1 <= k < |sels| ==> sels[k] == rest[k - 1];
      if FirstListed(all, rest).Some? {
        var k :| 0 <= k < |rest| && FirstListed(all, rest) == Some(Elements(all, rest[k]))
          && forall j :: 0 <= j < k ==> Elements(all, rest[j]) == [];
        assert FirstListed(all, sels) == Some(Elements(all, sels[k + 1]));
      }
    } else if sels != [] {
      assert FirstListed(all, sels) == Some(Elements(all, sels[0]));
    }
  }

  /** One review element: the text of its first text selector with an
      element, and the first number of its first rating selector whose text
      holds one, `"5"` without; no review when the text is empty. */
  function ReviewOf(e: Found, textSels: seq<string>, ratingSels: seq<string>): seq<AdvancedScraper.Review> {
    var text := FirstAccepted(textSels, e, Present).GetOr("");
    if text == "" then []
    else [AdvancedScraper.Review(text, FirstAccepted(ratingSels, e, Matching(Integer)).GetOr("5"))]
  }

  /** The reviews of `es`, in order. */
  function ReviewsOf(es: seq<Found>, textSels: seq<string>, ratingSels: seq<string>): seq<AdvancedScraper.Review> {
    if es == [] then [] else ReviewsOf(es[..|es| - 1], textSels, ratingSels) + ReviewOf(es[|es| - 1], textSels, ratingSels)
  }

  /** `extract_amazon_reviews` / `extract_daraz_reviews` */
  function ReviewsSpec(all: map<string, seq<Found>>, sels: seq<string>, textSels: seq<string>, ratingSels: seq<string>): seq<AdvancedScraper.Review> {
    match FirstListed(all, sels)
    case None => []
    case Some(es) => ReviewsOf(es[..Min(5, |es|)], textSels, ratingSels)
  }

  /** A review text is never empty; the rating is `"5"` or the digits the
      element shows, and always `"5"` with no rating selectors. */
  predicate GoodReview(r: AdvancedScraper.Review, ratingSels: seq<string>) {
    r.text != "" && r.rating != "" && AllDigits(r.rating) && (ratingSels == [] ==> r.rating == "5")
  }

  lemma ReviewOfGood(e: Found, textSels: seq<string>, ratingSels: seq<string>)
    ensures |ReviewOf(e, textSels, ratingSels)| <= 1
    ensures forall k :: 0 <= k < |ReviewOf(e, textSels, ratingSels)| ==> GoodReview(ReviewOf(e, textSels, ratingSels)[k], ratingSels)
  {
    var found := FirstAccepted(ratingSels, e, Matching(Integer));
    if found.Some? {
      FirstAcceptedIsFirst(ratingSels, e, Matching(Integer));
      var k :| 0 <= k < |ratingSels| && Hit(ratingSels, e, Matching(Integer), k) && found == Picked(Matching(Integer), e[ratingSels[k]]);
      IntegerMatchDigits(e[ratingSels[k]]);
    }
    assert AllDigits("5");
  }

  lemma {:induction false} ReviewsOfGood(es: seq<Found>, textSels: seq<string>, ratingSels: seq<string>)
    ensures |ReviewsOf(es, textSels, ratingSels)| <= |es|
    ensures forall k :: 0 <= k < |ReviewsOf(es, textSels, ratingSels)| ==> GoodReview(ReviewsOf(es, textSels, ratingSels)[k], ratingSels)
    decreases |es|
  {
    if es != [] {
      var front := ReviewsOf(es[..|es| - 1], textSels, ratingSels);
      var last := ReviewOf(es[|es| - 1], textSels, ratingSels);
      ReviewsOfGood(es[..|es| - 1], textSels, ratingSels);
      ReviewOfGood(es[|es| - 1], textSels, ratingSels);
      assert ReviewsOf(es, textSels, ratingSels) == front + last;
      assert forall k :: |front| <= k < |front| + |last| ==> (front + last)[k] == last[k - |front|];
    }
  }

  /** At most five reviews, all of them good, from the first selector that
      selects any element; none when no selector does. */
  lemma ReviewsBounded(all: map<string, seq<Found>>, sels: seq<string>, textSels: seq<string>, ratingSels: seq<string>)
    ensures var rs := ReviewsSpec(all, sels, textSels, ratingSels);
      |rs| <= 5 && (forall k :: 0 <= k < |rs| ==> GoodReview(rs[k], ratingSels))
      && ((forall k :: 0 <= k < |sels| ==> Elements(all, sels[k]) == []) ==> rs == [])
  {
    FirstListedIsFirst(all, sels);
    match FirstListed(all, sels)
    case None =>
    case Some(es) => ReviewsOfGood(es[..Min(5, |es|)], textSels, ratingSels);
  }

  lemma ReviewsSnoc(es: seq<Found>, j: nat, textSels: seq<string>, ratingSels: seq<string>)
    requires j < |es|
    ensures ReviewsOf(es[..j + 1], textSels, ratingSels) == ReviewsOf(es[..j], textSels, ratingSels) + ReviewOf(es[j], textSels, ratingSels)
  {
    assert es[..j + 1][..j] == es[..j];
  }

  /** `for element in review_elements[:5]: …` on the elements `es`. */
  method CollectReviews(es: seq<Found>, textSels: seq<string>, ratingSels: seq<string>) returns (reviews: seq<AdvancedScraper.Review>)
    ensures reviews == ReviewsOf(es, textSels, ratingSels)
  {
    reviews := [];
    var j := 0;
    while j < |es|
      invariant 0 <= j <= |es|
      invariant reviews == ReviewsOf(es[..j], textSels, ratingSels)
    {
      var element := es[j];
      var text := ScanSelectors(textSels, element, Present);
      var reviewText := text.GetOr("");
      var rating := ScanSelectors(ratingSels, element, Matching(Integer));
      ReviewsSnoc(es, j, textSels, ratingSels);
      if reviewText != "" {
        reviews := reviews + [AdvancedScraper.Review(reviewText, rating.GetOr("5"))];
      }
      j := j + 1;
    }
    assert es[..j] == es;
  }

  /** The review selector loop: the first selector with elements, then at
      most five of them. */
  method ExtractReviews(all: map<string, seq<Found>>, sels: seq<string>, textSels: seq<string>, ratingSels: seq<string>)
    returns (reviews: seq<AdvancedScraper.Review>)
    ensures reviews == ReviewsSpec(all, sels, textSels, ratingSels)
  {
    reviews := [];
    var i := 0;
    while i < |sels|
      invariant 0 <= i <= |sels|
      invariant FirstListed(all, sels) == FirstListed(all, sels[i..])
    {
      assert sels[i..][1..] == sels[i + 1..];
      var es := Elements(all, sels[i]);
      if es != [] {
        reviews := CollectReviews(es[..Min(5, |es|)], textSels, ratingSels);
        break;
      }
      i := i + 1;
    }
  }

  // ---------------------------------------------------------------- records

  const AmazonTitles: seq<string> := ["span#productTitle", ".a-size-large.product-title-word-break", "h1.a-size-large", "h1", ".product-title"]
  const AmazonPrices: seq<string> := [".a-price-whole", ".a-offscreen", "#priceblock_dealprice", "#priceblock_ourprice",
                                       ".a-price-range", ".a-price .a-offscreen", ".a-price-symbol", ".a-price", "[data-a-price]"]
  const AmazonSymbols: seq<string> := ["$", "€", "£", "₹"]
  const AmazonRatings: seq<string> := [".a-icon-alt", "#acrPopover", ".a-size-medium.a-color-base", ".a-icon-star", ".a-star-mini",
                                        "[data-hook=\"rating-out-of-text\"]"]
  const AmazonCounts: seq<string> := ["#acrCustomerReviewText", ".a-size-base", ".a-link-normal", "[data-hook=\"review-star-rating\"]"]
  const AmazonSellers: seq<string> := ["#sellerProfileTriggerId", ".a-size-base.a-color-secondary", ".a-link-normal", "[data-hook=\"seller-name\"]"]
  const AmazonReviewSels: seq<string> := ["[data-hook=\"review\"]", ".review", ".a-section.review", ".cr-original-review"]
  const AmazonReviewTexts: seq<string> := ["[data-hook=\"review-body\"]", ".review-text", ".a-size-base.review-text"]
  const AmazonReviewRatings: seq<string> := ["[data-hook=\"review-star-rating\"]", ".a-icon-alt", ".review-rating"]

  const DarazTitles: seq<string> := ["h1.pdp-product-name", ".pdp-product-name", "h1", ".product-title", ".pdp-product-title", ".product-name"]
  const DarazPrices: seq<string> := [".pdp-price", ".price-current", ".price", ".product-price", ".pdp-price-current", ".price-box", ".price-value"]
  const DarazSymbols: seq<string> := ["₹", "$", "PKR", "Rs"]
  const DarazReviewSels: seq<string> := [".review-item", ".review", ".pdp-review", ".customer-review"]
  const DarazReviewTexts: seq<string> := [".review-content", ".review-text", ".review-body"]

  /** `extract_amazon_data(soup)` */
  function AmazonSpec(soup: Soup): AdvancedScraper.Record {
    AdvancedScraper.Record(
      FirstAccepted(AmazonTitles, soup.one, LongerThan(5)).GetOr(AdvancedScraper.NoTitle),
      FirstAccepted(AmazonPrices, soup.one, HasAnyOf(AmazonSymbols)).GetOr(AdvancedScraper.NoPrice),
      FirstAccepted(AmazonRatings, soup.one, Matching(DecimalNumber)).GetOr("N/A"),
      FirstAccepted(AmazonCounts, soup.one, Matching(Integer)).GetOr("0"),
      FirstAccepted(AmazonSellers, soup.one, LongerThan(3)).GetOr("Unknown"),
      ReviewsSpec(soup.all, AmazonReviewSels, AmazonReviewTexts, AmazonReviewRatings),
      Amazon)
  }

  method ExtractAmazonData(soup: Soup) returns (data: AdvancedScraper.Record)
    ensures data == AmazonSpec(soup)
  {
    var title := ScanSelectors(AmazonTitles, soup.one, LongerThan(5));
    var price := ScanSelectors(AmazonPrices, soup.one, HasAnyOf(AmazonSymbols));
    var rating := ScanSelectors(AmazonRatings, soup.one, Matching(DecimalNumber));
    var count := ScanSelectors(AmazonCounts, soup.one, Matching(Integer));
    var seller := ScanSelectors(AmazonSellers, soup.one, LongerThan(3));
    var reviews := ExtractReviews(soup.all, AmazonReviewSels, AmazonReviewTexts, AmazonReviewRatings);
    data := AdvancedScraper.Record(title.GetOr(AdvancedScraper.NoTitle), price.GetOr(AdvancedScraper.NoPrice),
                                   rating.GetOr("N/A"), count.GetOr("0"), seller.GetOr("Unknown"), reviews, Amazon);
  }

  /** `extract_daraz_data(soup)` */
  function DarazSpec(soup: Soup): AdvancedScraper.Record {
    AdvancedScraper.Placeholder(Daraz).(
      title := FirstAccepted(DarazTitles, soup.one, LongerThan(5)).GetOr(AdvancedScraper.NoTitle),
      price := FirstAccepted(DarazPrices, soup.one, HasAnyOf(DarazSymbols)).GetOr(AdvancedScraper.NoPrice),
      reviews := ReviewsSpec(soup.all, DarazReviewSels, DarazReviewTexts, []))
  }

  method ExtractDarazData(soup: Soup) returns (data: AdvancedScraper.Record)
    ensures data == DarazSpec(soup)
  {
    data := AdvancedScraper.Placeholder(Daraz);
    var title := ScanSelectors(DarazTitles, soup.one, LongerThan(5));
    if title.Some? {
      data := data.(title := title.value);
    }
    var price := ScanSelectors(DarazPrices, soup.one, HasAnyOf(DarazSymbols));
    if price.Some? {
      data := data.(price := price.value);
    }
    var reviews := ExtractReviews(soup.all, DarazReviewSels, DarazReviewTexts, []);
    data := data.(reviews := reviews);
  }

  /** Each field of an Amazon record is its placeholder or a value that
      passed its test. */
  lemma AmazonFields(soup: Soup)
    ensures var d := AmazonSpec(soup);
      (d.title == AdvancedScraper.NoTitle || |d.title| > 5)
      && (d.price == AdvancedScraper.NoPrice || ContainsAny(d.price, AmazonSymbols))
      && (d.rating == "N/A" || (d.rating != "" && IsDigit(d.rating[0])))
      && (d.reviewCount == "0" || (d.reviewCount != "" && AllDigits(d.reviewCount)))
      && (d.seller == "Unknown" || |d.seller| > 3)
      && |d.reviews| <= 5 && d.platform == Amazon
  {
    FieldsOf(AmazonTitles, soup.one, LongerThan(5));
    FieldsOf(AmazonPrices, soup.one, HasAnyOf(AmazonSymbols));
    FieldsOf(AmazonSellers, soup.one, LongerThan(3));
    RatingField(AmazonRatings, soup.one);
    CountField(AmazonCounts, soup.one);
    ReviewsBounded(soup.all, AmazonReviewSels, AmazonReviewTexts, AmazonReviewRatings);
  }

  /** A rating kept by `(\d+\.?\d*)` starts with a digit. */
  lemma RatingField(sels: seq<string>, found: Found)
    ensures var v := FirstAccepted(sels, found, Matching(DecimalNumber)); v.Some? ==> v.value != "" && IsDigit(v.value[0])
  {
    var v := FirstAccepted(sels, found, Matching(DecimalNumber));
    if v.Some? {
      FirstAcceptedIsFirst(sels, found, Matching(DecimalNumber));
      var k :| 0 <= k < |sels| && Hit(sels, found, Matching(DecimalNumber), k) && v == Picked(Matching(DecimalNumber), found[sels[k]]);
      DecimalMatchLeads(found[sels[k]]);
    }
  }

  /** A count kept by `(\d+)` is a run of digits. */
  lemma CountField(sels: seq<string>, found: Found)
    ensures var v := FirstAccepted(sels, found, Matching(Integer)); v.Some? ==> v.value != "" && AllDigits(v.value)
  {
    var v := FirstAccepted(sels, found, Matching(Integer));
    if v.Some? {
      FirstAcceptedIsFirst(sels, found, Matching(Integer));
      var k :| 0 <= k < |sels| && Hit(sels, found, Matching(Integer), k) && v == Picked(Matching(Integer), found[sels[k]]);
      IntegerMatchDigits(found[sels[k]]);
    }
  }

  /** A value kept by a length or symbol test passes that test. */
  lemma FieldsOf(sels: seq<string>, found: Found, a: Accept)
    requires a.LongerThan? || a.HasAnyOf?
    ensures var v := FirstAccepted(sels, found, a);
      v.Some? ==> (a.LongerThan? ==> |v.value| > a.n) && (a.HasAnyOf? ==> ContainsAny(v.value, a.symbols))
  {
    FirstAcceptedIsFirst(sels, found, a);
  }

  /** A Daraz record fills only the title, the price and the reviews, and
      every review keeps the default rating. */
  lemma DarazFields(soup: Soup)
    ensures var d := DarazSpec(soup);
      (d.title == AdvancedScraper.NoTitle || |d.title| > 5)
      && (d.price == AdvancedScraper.NoPrice || ContainsAny(d.price, DarazSymbols))
      && d.rating == "N/A" && d.reviewCount == "0" && d.seller == "Unknown" && d.platform == Daraz
      && |d.reviews| <= 5 && forall k :: 0 <= k < |d.reviews| ==> d.reviews[k].rating == "5"
  {
    FieldsOf(DarazTitles, soup.one, LongerThan(5));
    FieldsOf(DarazPrices, soup.one, HasAnyOf(DarazSymbols));
    ReviewsBounded(soup.all, DarazReviewSels, DarazReviewTexts, []);
  }

  // ---------------------------------------------------------------- generic

  /** The price patterns, in the order they are tried. */
  const PricePatterns: seq<Regex> := [SymbolAmount("$"), SymbolAmount("€"), SymbolAmount("£"), SymbolAmount("₹"), SymbolAmount("PKR")]

  /** The first heading longer than ten characters. */
  function FirstHeading(hs: seq<string>): (r: Option<string>)
    ensures r.Some? ==> r.value in hs && |r.value| > 10
  {
    if hs == [] then None else if |hs[0]| > 10 then Some(hs[0]) else FirstHeading(hs[1..])
  }

  /** `re.findall(p, text)[0]` for each pattern `p`, or `None`. */
  function PatternMatches(ps: seq<Regex>, text: string): (ms: seq<Option<string>>)
    ensures |ms| == |ps|
  {
    seq(|ps|, k requires 0 <= k < |ps| => SearchText(ps[k], text))
  }

  /** The first value present. */
  function FirstSome(ms: seq<Option<string>>): Option<string> {
    if ms == [] then None else if ms[0].Some? then ms[0] else FirstSome(ms[1..])
  }

  lemma {:induction false} FirstSomeIsFirst(ms: seq<Option<string>>)
    ensures FirstSome(ms).None? <==> forall k :: 0 <= k < |ms| ==> ms[k].None?
    ensures FirstSome(ms).Some? ==> exists k :: 0 <= k < |ms| && FirstSome(ms) == ms[k] && forall j :: 0 <= j < k ==> ms[j].None?
    decreases |ms|
  {
    if ms != [] && ms[0].None? {
      var rest := ms[1..];
      FirstSomeIsFirst(rest);
      assert forall k :: 1 <= k < |ms| ==> ms[k] == rest[k - 1];
      if FirstSome(rest).Some? {
        var k :| 0 <= k < |rest| && FirstSome(rest) == rest[k] && forall j :: 0 <= j < k ==> rest[j].None?;
        assert ms[k + 1] == rest[k];
      }
    } else if ms != [] {
      assert FirstSome(ms) == ms[0];
    }
  }

  lemma {:induction false} FirstSomeAt(ms: seq<Option<string>>, k: nat)
    requires k < |ms| && ms[k].Some? && forall j :: 0 <= j < k ==> ms[j].None?
    ensures FirstSome(ms) == ms[k]
    decreases k
  {
    if k > 0 {
      assert ms[1..][k - 1] == ms[k];
      FirstSomeAt(ms[1..], k - 1);
    }
  }

  /** `extract_generic_data(soup, platform)` */
  function GenericSpec(soup: Soup, p: Platform): AdvancedScraper.Record {
    AdvancedScraper.Placeholder(p).(
      title := FirstHeading(soup.headings).GetOr(AdvancedScraper.NoTitle),
      price := FirstSome(PatternMatches(PricePatterns, soup.text)).GetOr(AdvancedScraper.NoPrice))
  }

  method ExtractGenericData(soup: Soup, p: Platform) returns (data: AdvancedScraper.Record)
    ensures data == GenericSpec(soup, p)
  {
    data := AdvancedScraper.Placeholder(p);
    var hs := soup.headings;
    var i := 0;
    while i < |hs|
      invariant 0 <= i <= |hs|
      invariant FirstHeading(hs) == FirstHeading(hs[i..])
      invariant data == AdvancedScraper.Placeholder(p)
    {
      assert hs[i..][1..] == hs[i + 1..];
      var title := hs[i];
      if title != "" && |title| > 10 {
        data := data.(title := title);
        break;
      }
      i := i + 1;
    }
    var title := data.title;
    ghost var ms := PatternMatches(PricePatterns, soup.text);
    var k := 0;
    while k < |PricePatterns|
      invariant 0 <= k <= |PricePatterns|
      invariant FirstSome(ms) == FirstSome(ms[k..])
      invariant data == AdvancedScraper.Placeholder(p).(title := title)
    {
      assert ms[k..][1..] == ms[k + 1..];
      var m := SearchText(PricePatterns[k], soup.text);
      assert ms[k..][0] == m;
      if m.Some? {
        data := data.(price := m.value);
        break;
      }
      k := k + 1;
    }
  }

  /** The generic price is the first match of the first pattern, in the
      order `$`, `€`, `£`, `₹`, `PKR`, that matches at all, even when a
      later pattern matches earlier in the text. */
  lemma GenericPriceByPatternOrder(soup: Soup, p: Platform)
    ensures var d := GenericSpec(soup, p);
      var ms := PatternMatches(PricePatterns, soup.text);
      ((forall k :: 0 <= k < |ms| ==> ms[k].None?) ==> d.price == AdvancedScraper.NoPrice)
      && (forall k :: 0 <= k < |ms| && ms[k].Some? && (forall j :: 0 <= j < k ==> ms[j].None?) ==> d.price == ms[k].value)
      && (d.title == AdvancedScraper.NoTitle || |d.title| > 10)
      && d.platform == p && d.reviews == []
  {
    var ms := PatternMatches(PricePatterns, soup.text);
    FirstSomeIsFirst(ms);
    forall k | 0 <= k < |ms| && ms[k].Some? && (forall j :: 0 <= j < k ==> ms[j].None?)
      ensures FirstSome(ms) == ms[k]
    {
      FirstSomeAt(ms, k);
    }
  }

  // ---------------------------------------------------------------- chain

  /** The record for the parsed page of the `platform`. */
  function Dispatch(soup: Soup, p: Platform): AdvancedScraper.Record {
    if p == Amazon then AmazonSpec(soup) else if p == Daraz then DarazSpec(soup) else GenericSpec(soup, p)
  }

  /** `scrape_product(url)`. `f` is the request, `page` the browser, and
      `fetched`/`rendered` the parses of what each returned. */
  function ScrapeProductSpec(url: string, f: Scraping.Fetch, page: Option<Scraping.Page>, fetched: Soup, rendered: Soup)
    : Result<AdvancedScraper.Record, string>
  {
    match AdvancedScraper.DetectPlatform(url)
    case None => Err(Urls.Parse(url).error)
    case Some(p) =>
      if RequestsOutcome(f).1 == Success then Ok(Dispatch(fetched, p))
      else if SeleniumOutcome(page).1 == Success then Ok(Dispatch(rendered, p))
      else Ok(AdvancedScraper.FallbackData(url, p))
  }

  /** The browser is consulted only when the request did not succeed, and
      the fallback is used only when both failed. */
  lemma ChainOrder(url: string, f: Scraping.Fetch, page: Option<Scraping.Page>, page': Option<Scraping.Page>, fetched: Soup, rendered: Soup)
    requires Urls.Parse(url).Ok?
    ensures var p := AdvancedScraper.DetectPlatform(url).value;
      (RequestsOutcome(f).1 == Success ==>
        ScrapeProductSpec(url, f, page, fetched, rendered) == ScrapeProductSpec(url, f, page', fetched, rendered) == Ok(Dispatch(fetched, p)))
      && (RequestsOutcome(f).1 != Success && SeleniumOutcome(page).1 == Success ==> ScrapeProductSpec(url, f, page, fetched, rendered) == Ok(Dispatch(rendered, p)))
      && (RequestsOutcome(f).1 != Success && SeleniumOutcome(page).1 != Success ==>
        ScrapeProductSpec(url, f, page, fetched, rendered) == Ok(AdvancedScraper.FallbackData(url, p)))
  {
  }

  /** `EnhancedScraper` of the staged chain, seen through its headers. */
  class EnhancedScraper {
    var headers: map<string, string>

    /** `__init__` on a session whose own headers are `base`, with the
        agent `ua` picked. */
    constructor(base: map<string, string>, ua: string)
      requires ua in Agents
      ensures headers == base + SetupHeaders(ua)
    {
      headers := base + SetupHeaders(ua);
    }

    /** `scrape_with_selenium(url)`; a started browser is always quit. */
    method ScrapeWithSelenium(driver: Scraping.Driver?) returns (r: (Option<string>, Status))
      modifies driver
      ensures driver != null ==> driver.quitted
      ensures r == SeleniumOutcome(if driver == null then None else Some(driver.page))
    {
      if driver == null {
        return (None, Error);
      }
      var pg := driver.page;
      if !pg.loads || !pg.waitFound {
        r := (None, Error);
      } else if ContainsAny(Lower(pg.source), Markers) {
        r := (None, AntiBot);
      } else {
        r := (Some(pg.source), Success);
      }
      driver.Quit();
    }

    method ScrapeProduct(url: string, f: Scraping.Fetch, driver: Scraping.Driver?, fetched: Soup, rendered: Soup)
      returns (r: Result<AdvancedScraper.Record, string>)
      modifies driver
      ensures r == ScrapeProductSpec(url, f, if driver == null then None else Some(driver.page), fetched, rendered)
      ensures driver != null ==> driver.quitted == (old(driver.quitted) || (r.Ok? && RequestsOutcome(f).1 != Success))
    {
      var platform := AdvancedScraper.DetectPlatform(url);
      if platform.None? {
        return Err(Urls.Parse(url).error);
      }
      var p := platform.value;
      var (response, status) := RequestsOutcome(f);
      var soup;
      if status == Success {
        soup := fetched;
      } else {
        var rendering := ScrapeWithSelenium(driver);
        if rendering.1 != Success {
          return Ok(AdvancedScraper.FallbackData(url, p));
        }
        soup := rendered;
      }
      var data := ExtractFor(soup, p);
      r := Ok(data);
    }
  }

  /** The extractor of the platform. */
  method ExtractFor(soup: Soup, p: Platform) returns (data: AdvancedScraper.Record)
    ensures data == Dispatch(soup, p)
  {
    if p == Amazon {
      data := ExtractAmazonData(soup);
    } else if p == Daraz {
      data := ExtractDarazData(soup);
    } else {
      data := ExtractGenericData(soup, p);
    }
  }

  const Agents: seq<string> := [
    "Mozilla/5.0 (Windows NT 10.0; Win64; x64) AppleWebKit/537.36 (KHTML, like Gecko) Chrome/91.0.4472.124 Safari/537.36",
    "Mozilla/5.0 (Macintosh; Intel Mac OS X 10_15_7) AppleWebKit/537.36 (KHTML, like Gecko) Chrome/91.0.4472.124 Safari/537.36",
    "Mozilla/5.0 (X11; Linux x86_64) AppleWebKit/537.36 (KHTML, like Gecko) Chrome/91.0.4472.124 Safari/537.36"]

  /** The headers `setup_session` adds. */
  function SetupHeaders(ua: string): map<string, string> {
    map["User-Agent" := ua,
        "Accept" := "text/html,application/xhtml+xml,application/xml;q=0.9,image/webp,*/*;q=0.8",
        "Accept-Language" := "en-US,en;q=0.5",
        "Accept-Encoding" := "gzip, deflate, br",
        "Connection" := "keep-alive",
        "Upgrade-Insecure-Requests" := "1",
        "Sec-Fetch-Dest" := "document",
        "Sec-Fetch-Mode" := "navigate",
        "Sec-Fetch-Site" := "none",
        "Cache-Control" := "max-age=0",
        "DNT" := "1"]
  }
}
