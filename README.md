# web-Scraper product scraper, trust scorer and sentiment analyzer in Dafny

This project models the core of the web-Scraper repository, a Flask service. It receives a
product URL from an e-commerce site (Amazon, eBay, Daraz, AliExpress, Walmart or a generic
shop), scrapes the product page, scores how far the listing can be trusted, and labels the
sentiment of its reviews.

The model covers these parts:

- **`backend/scraper.py`** is the production scraper. The model includes:
  - platform detection;
  - price normalisation (`extract_price`);
  - the URL/data consistency check (`validate_extracted_data`);
  - the JSON-LD and selector extraction (`extract_data`);
  - the `ProductScraper` control flow: URL checks, the Selenium attempt and its merge/re-read passes, the anti-bot request, and the fallback and exception paths. The exception path is modelled as corrected (see Findings); the code as written is modelled beside it.
- **`backend/trust_scorer.py`** is the five-factor trust score, its weighting and its recommendation.
- **`backend/sentiment_analyzer.py`** holds the text pre-processing, the per-review label (TextBlob polarity with an ML model preferred) and the review summary.
- **`app.py`** supplies `validate_url`, the syntactic URL check in front of the API.
- **The prototype scrapers** each have an imperative model, proved against their specifications:
  - `advanced_anti_bot_scraper.py`;
  - `backend/enhanced_scraper.py`;
  - `backend/tests/enhanced_scraper.py`;
  - `backend/tests/comprehensive_error_fix.py`;
  - `backend/tests/debug_scraper.py`.

## Modelling choices

- **What becomes a class.** Python objects that update their fields in place are classes:
  - `ProductScraper` and its session headers;
  - `TrustScorer` with `score_components`/`last_score`;
  - the Selenium `Driver`;
  - the prototype scraper objects.

  Loops are methods with invariants, proved against a specification function, and the properties are lemmas about that function.
- **The outside world is a set of parameters.** The HTTP response, the page a browser shows, the parsed HTML and the parsed JSON-LD are inputs. So are the random choices (user agent, delays), the TextBlob polarity and the trained ML model's prediction. HTML is seen through what BeautifulSoup returns:
  - a map from selector to element text;
  - the list of `<script type="application/ld+json">` payloads;
  - the text nodes;
  - the review divs.
- **Python exceptions become `Result` values.** The error path carries the message the code builds.
- **Regular expressions become hand-written matchers.** `re.search` is leftmost-first; each pattern has its own matcher (`Patterns`). `urllib.parse.urlparse` (Python 3.12) is modelled as far as the code relies on it (`Urls`, `IpHosts`): scheme, netloc and path splitting; the `ValueError` on an unbalanced `[` or `]` in the netloc; and the check of a bracketed host, which must be an IPvFuture literal or an IPv6 address.
- **Numbers are exact.** Prices are decimal strings read as exact reals. Python's `round` is modelled as round-half-even on the exact value.

## Model

| member | source | states |
|---|---|---|
| ScraperCore.DetectPlatformIsFirstHit | backend/scraper.py:373-387 | the platform is the first entry of the ordered marker table whose marker occurs in the lower-cased host, `generic` when none does |
| ScraperCore.DetectPlatform | backend/scraper.py:373-387 | the detector only ever answers one of the six platforms it knows |
| ScraperCore.ExtractPriceDollar | backend/scraper.py:389-415 | every normalised price starts with `$`, whatever the input |
| ScraperCore.ExtractPriceOfDigitless | backend/scraper.py:389-415 | text with no digit and no comma has no price in it and gives `$0.00` |
| ScraperCore.ExtractPriceOfLoneComma | backend/scraper.py:405-412 | a lone comma counts as a number for the second pattern, and leaves a bare `$` once the comma is dropped |
| ScraperCore.ExtractPriceFixesMoney | backend/scraper.py:389-415 | a price the normaliser writes is already normalised: `$D.CC` maps to itself for every number of cents |
| ScraperCore.MoneyTextFacts | backend/scraper.py:394-403 | on `$D.CC` the dollar pattern matches the whole text, the clean-up drops nothing, and the decimal read gives back the amount |
| ScraperCore.DollarBranchFixed | backend/scraper.py:394-403 | when the dollar match is the whole clean text and its number is written back as that text, the normaliser returns it unchanged |
| ScraperCore.DollarMatchWhole | backend/scraper.py:394-396 | the dollar pattern matches the whole of a `$D.CC` text |
| ScraperCore.DecimalMatchAfterDollar | backend/scraper.py:398-400 | the plain-number pattern skips the `$` of a `$D.CC` text and matches the rest |
| ScraperCore.AsinOf | backend/scraper.py:438-444 | an Amazon product id, when found, has ten characters |
| ScraperCore.EbayItemOf | backend/scraper.py:447-453 | an eBay item id, when found, is a non-empty run of digits |
| ScraperCore.TitleOverlapRule | backend/scraper.py:455-472 | the title-similarity fallback accepts exactly when the title is real and either a token set is empty or four times the overlap reaches the smaller set's size |
| ScraperCore.QuarterRatio | backend/scraper.py:466-472 | a ratio of at least 0.25 is the same as four times the numerator reaching the denominator |
| ScraperCore.ValidateGeneric | backend/scraper.py:425-434 | a generic-platform URL is accepted exactly when the title is neither empty nor `Unknown Product` |
| ScraperCore.ValidateProductId | backend/scraper.py:436-472 | an ASIN or item id found in the title or seller forces acceptance; without one the decision is the title-similarity rule |
| ScraperCore.ValidateRejectsUnparsable | backend/scraper.py:473-474 | a URL `urlparse` rejects is never accepted |
| Platforms.Classify | backend/scraper.py:373-387 | the first-hit classification answers a platform whose rule fires with no earlier rule firing, or `generic` when no rule fires |
| Platforms.ClassifyStep | backend/scraper.py:377-386 | one single-marker rule in front of the rest is tried first |
| Extraction.TypeCheck | backend/scraper.py:507-513 | a candidate counts as a Product only when its type, or an entry of its type list, lower-cases to `product`; a falsy type never does |
| Extraction.WithRating | backend/scraper.py:537-550 | the rating block keeps the record bound or unbound, and sets the rating and count only from values that are truthy and convert |
| Extraction.ReviewTexts | backend/scraper.py:552-563 | the review texts are truthy and at most as many as the items, and the loop raises exactly when an item is not a dict |
| Extraction.FirstFive | backend/scraper.py:552-556 | `raw_reviews[:5]` is a prefix of at most five items |
| Extraction.CollectReviews | backend/scraper.py:552-563 | the review loop computes the review-text specification |
| Extraction.ReadCandidate | backend/scraper.py:507-569 | one candidate, read step by step, gives the candidate specification |
| Extraction.ScanJsonLd | backend/scraper.py:495-569 | the nested script and candidate loops compute the JSON-LD scan specification |
| Extraction.ScanScriptsShaped | backend/scraper.py:495-569 | the scan's product has no platform, url or seller yet and holds at most five truthy reviews |
| Extraction.ApplySelectors | backend/scraper.py:584-622 | a platform without a config is left unchanged, and the selectors never touch seller, reviews, platform or url |
| Extraction.FirstText | backend/scraper.py:642-650 | the seller search finds nothing exactly when no seller selector has text |
| Extraction.FirstTextIsFirst | backend/scraper.py:642-650 | the seller found is the text of a selector with text, and every selector before it has none |
| Extraction.FindSeller | backend/scraper.py:642-650 | the seller loop computes the first-text specification |
| Extraction.DivReviews | backend/scraper.py:652-665 | the review divs give at most one non-empty text each |
| Extraction.DivReviewsAppend | backend/scraper.py:652-665 | the reviews of consecutive stretches of the page add up |
| Extraction.CollectDivReviews | backend/scraper.py:652-665 | the div loop computes the div-review specification |
| Extraction.Scanned | backend/scraper.py:495-582 | the page reads start from the scan's product, or from the defaults when no candidate supplied one, with no platform or url |
| Extraction.Prepared | backend/scraper.py:584-640 | the page reads never change seller, reviews, platform or url |
| Extraction.Conclude | backend/scraper.py:634-671 | the only failure is the `RuntimeError` naming the platform, and a titled product ends with the page's seller and review divs |
| Extraction.ExtractDataSpec | backend/scraper.py:476-671 | where the page has review divs, they replace the JSON-LD reviews |
| Extraction.ConcludeData | backend/scraper.py:634-671 | the title check, seller loop and div loop compute the conclusion specification |
| Extraction.ExtractPastGuards | backend/scraper.py:476-671 | past the two guards, extraction is the scan, the page reads and the conclusion |
| Extraction.PastGuardsFound | backend/scraper.py:476-671 | past the guards, extraction concludes on what the scan found |
| Extraction.ExtractData | backend/scraper.py:476-671 | `extract_data` step by step computes its specification |
| ExtractionFacts.NamedProductWins | backend/scraper.py:507-524 | a named Product candidate always supplies the product, titled with its stripped name, whatever else it holds |
| ExtractionFacts.NamelessProductGivesNothing | backend/scraper.py:515-535 | a Product candidate without a name never supplies a product |
| ExtractionFacts.OfferPriceText | backend/scraper.py:526-535 | the offer price is written `$D.CC` when `float()` reads it and kept as it is otherwise |
| ExtractionFacts.WithRatingReads | backend/scraper.py:537-550 | a rating block whose value and count both read sets both, and nothing else |
| ExtractionFacts.ScanSkipsContinuing | backend/scraper.py:495-505 | candidates that let the scan go on are skipped: the result comes from the first that stops it |
| ExtractionFacts.ExtractGuards | backend/scraper.py:478-484 | the two `ValueError`s come from the URL and content guards, with their messages |
| ExtractionFacts.ExtractLaterErrors | backend/scraper.py:669-671 | past the guards every failure is the `RuntimeError` naming the platform |
| ExtractionFacts.JsonLdPassesThrough | backend/scraper.py:495-665 | on a platform without selectors, a JSON-LD product with a real title and price comes back as it is, with the page's seller and review divs |
| ExtractionFacts.ConcludeUnread | backend/scraper.py:584-665 | without selectors and with a price, the page reads change nothing |
| ExtractionFacts.ConcludeTitled | backend/scraper.py:634-665 | a titled product concludes with the page's seller and review divs |
| ExtractionFacts.PreparedUnchanged | backend/scraper.py:584-632 | without selectors, a product whose price is read passes the page reads untouched |
| ExtractionFacts.PreparedUnmatched | backend/scraper.py:584-632 | on a page none of whose selectors match, a product whose price is read passes the page reads untouched |
| ExtractionFacts.ApplySelectorsUnmatched | backend/scraper.py:584-622 | selectors that match nothing change nothing |
| ExtractionFacts.PreparedDefaults | backend/scraper.py:574-632 | without selectors and without a `$` amount in the page text, the defaults pass untouched |
| ExtractionFacts.BarePageDefaults | backend/scraper.py:476-671 | a page with nothing usable yields the defaults, with the seller found on it |
| ExtractionFacts.DefaultsUnread | backend/scraper.py:574-665 | the defaults pass the page reads and conclude with the page's seller |
| ExtractionFacts.ConcludeDefaults | backend/scraper.py:642-665 | the defaults conclude with the page's seller when no review div reads |
| ExtractionSample.SamplePage | backend/tests/test_scraper_platforms.py:21-56 | the JSON-LD page of the platform test yields the title `Test Product 123`, price `$19.95`, rating 4.2, count 42 and both review bodies |
| ExtractionSample.SampleCandidate | backend/tests/test_scraper_platforms.py:21-56 | the test's Product candidate passes the type test and stops the scan with that record |
| ExtractionSample.SampleReviewTexts | backend/tests/test_scraper_platforms.py:40-44 | both review bodies of the test are kept, in order |
| ExtractionSample.SampleOfferPrice | backend/tests/test_scraper_platforms.py:30-34 | the test's offer price `19.95` is written `$19.95` |
| ExtractionSample.SampleRatingRead | backend/tests/test_scraper_platforms.py:35-39 | the test's rating block gives the rating 4.2 and the count 42 |
| ExtractionSample.AmazonHosts | backend/tests/test_scraper_platforms.py:8-11 | the Amazon hosts of the test are detected as Amazon |
| ExtractionSample.EbayHost | backend/tests/test_scraper_platforms.py:12-13 | the eBay host of the test is detected as eBay |
| Scraping.AntiBotVerdict | backend/scraper.py:203-233 | the request answers a response exactly when it is a 200 whose lower-cased text holds none of the bot markers, and then that response |
| Scraping.SelectorPass | backend/scraper.py:277-320 | the first selector pass never touches seller, reviews, platform or url |
| Scraping.RereadPass | backend/scraper.py:332-361 | the second selector pass keeps the title, seller, reviews, platform and url |
| Scraping.TitledOrNone | backend/scraper.py:363-367 | the browser's record is returned exactly when its title is real |
| Scraping.SeleniumGate | backend/scraper.py:250-265 | the selector passes run exactly when the page loads, has no bot marker, the platform has a config and the awaited element appears |
| Scraping.SeleniumSpec | backend/scraper.py:235-371 | a browser record has a real title and comes only from a loaded page that showed the awaited element; no config or a bot marker gives nothing |
| Scraping.Tagged | backend/scraper.py:162-190 | the returned record carries its platform and the URL |
| Scraping.FallbackPath | backend/scraper.py:181-190 | the fallback succeeds exactly when fallback is on and the table has the generic record, and the copy is tagged |
| Scraping.RequestPath | backend/scraper.py:170-179 | a record from the request path carries its platform and the URL |
| Scraping.AfterChecks | backend/scraper.py:157-190 | a record after the URL checks carries its platform and the URL |
| Scraping.UrlChecks | backend/scraper.py:139-151 | the URL checks pass only on a URL `urlparse` accepts, and give the platform of its netloc |
| Scraping.TryBlock | backend/scraper.py:137-190 | every record of the `try` block has a platform and the URL |
| Scraping.SelectorStage | backend/scraper.py:268-320 | the first selector pass, step by step, computes its specification on the default record |
| Scraping.MergeStage | backend/scraper.py:322-330 | the `extract_data` merge computes its specification |
| Scraping.RereadStage | backend/scraper.py:332-361 | the second selector pass computes its specification |
| Scraping.SeleniumVisit | backend/scraper.py:250-367 | a visit to an opened page computes the browser specification |
| Scraping.SeleniumPasses | backend/scraper.py:268-361 | the three passes in turn compute the browser record |
| Scraping.Driver.Quit | backend/scraper.py:369-371 | the browser is quit |
| Scraping.Driver.constructor | backend/scraper.py:238-247 | a fresh browser shows its page and is not quit |
| Scraping.ProductScraper.constructor | backend/scraper.py:23-52 | the session carries the setup headers over its own, with the fallback table installed and fallback on |
| Scraping.ProductScraper.ScrapeWithAntiBot | backend/scraper.py:203-233 | the session headers gain the request headers, nothing else changes, and the answer is the anti-bot verdict |
| Scraping.ProductScraper.ScrapeWithSelenium | backend/scraper.py:235-371 | a created browser is always quit, and the answer is the browser specification |
| Scraping.ProductScraper.ScrapeProduct | backend/scraper.py:135-201 | the corrected `scrape_product` (see Findings) computes its specification, keeps the fallback settings, adds the request headers exactly when the URL checks pass and the browser gives no record that validates, and leaves a given browser quit exactly when the URL checks passed (or it already was) |
| Scraping.ProductScraper.TryScrape | backend/scraper.py:137-190 | the `try` block computes its specification, keeps the fallback settings, adds the request headers exactly when the URL checks pass and the browser gives no record that validates, and leaves a given browser quit exactly when the URL checks passed (or it already was) |
| Scraping.ProductScraper.RequestStage | backend/scraper.py:170-190 | the request stage computes the request-path specification |
| Scraping.ProductScraper.Fallback | backend/scraper.py:181-190 | the fallback computes the fallback-path specification |
| ScrapingFacts.InitialTableHasGeneric | backend/scraper.py:90-101 | the installed fallback table has the generic record titled `Unknown Product` |
| ScrapingFacts.FallbackNeverRaises | backend/scraper.py:135-201 | with fallback on and a generic record, the corrected `scrape_product` (see Findings) never raises and returns a record with a platform and the URL |
| ScrapingFacts.ValidateIgnoresTags | backend/scraper.py:417-474 | tagging a record with its platform and URL does not change its validation verdict |
| ScrapingFacts.ReturnedRecordsQualify | backend/scraper.py:135-201 | every record `scrape_product` returns either passed the validator for the URL or is a tagged copy of a fallback record |
| ScrapingFacts.TryBlockQualifies | backend/scraper.py:137-190 | every record of the `try` block either passed the validator or is a fallback copy |
| ScrapingFacts.RequestPathQualifies | backend/scraper.py:170-190 | every record of the request path either passed the validator or is a fallback copy |
| ScrapingFacts.FallbackIsCopy | backend/scraper.py:181-190 | the fallback returns a tagged copy of a table record |
| ScrapingFacts.RequestAcceptance | backend/scraper.py:170-179 | with fallback off, a request record comes only from a clean 200, with a real price, and validates |
| ScrapingFacts.NoFallbackReraises | backend/scraper.py:192-201 | with fallback off the handler re-raises, so an invalid URL raises its own `ValueError` |
| ScrapingFacts.NoFallbackExhaustion | backend/scraper.py:181-201 | with fallback off, when neither the browser nor the request gives a record, the `RuntimeError` naming the platform escapes |
| ScrapingFacts.MergeAllFalsy | backend/scraper.py:322-330 | a record with no truthy field merges to nothing |
| ScrapingFacts.MergeIdempotent | backend/scraper.py:322-330 | merging the same record twice is merging it once |
| ScrapingFacts.MergeTruthyWins | backend/scraper.py:322-330 | every truthy field of the merged record wins the merge |
| ScrapingFacts.OpenBracketRejected | backend/scraper.py:139-151 | `urlparse` rejects a host that opens a bracket and never closes it, with `Invalid IPv6 URL` |
| ScrapingFacts.BracketUrlRejected | backend/scraper.py:139 | `urlparse("http://[::1")` raises `Invalid IPv6 URL` |
| ScrapingFacts.WordHostRejected | backend/scraper.py:139 | a lower-case word in brackets in place of the host (not starting with `v`) makes `urlparse` raise `'word' does not appear to be an IPv4 or IPv6 address` |
| ScrapingFacts.BadHostUrlRejected | backend/scraper.py:139 | `urlparse("http://[abc]/")` raises, although its brackets are balanced |
| ScrapingFacts.EmptyUrlParses | backend/scraper.py:197 | `urlparse("")` succeeds |
| ScrapingFacts.AsWrittenRaisesOnUnparsable | backend/scraper.py:192-201 | as written, with fallback on and a generic record, every URL `urlparse` rejects makes the handler raise that same `ValueError` |
| ScrapingFacts.CorrectedOnUnparsable | backend/scraper.py:192-201 | with the corrected handler, every URL `urlparse` rejects gives the generic record tagged `generic` |
| ScrapingFacts.AsWrittenRaisesOnBadHost | backend/scraper.py:192-201 | as written, `http://[abc]/` raises out of the handler although fallback is on |
| ScrapingFacts.AsWrittenRaisesOnBracketUrl | backend/scraper.py:192-201 | as written, `http://[::1` raises `ValueError` out of the handler although fallback is on |
| ScrapingFacts.CorrectedBracketUrl | backend/scraper.py:192-201 | with the corrected handler the same call returns the generic record tagged `generic` |
| ScrapingFacts.CorrectionOnlyRemovesTheRaise | backend/scraper.py:192-201 | whenever the written handler does not raise it returns what the corrected one returns, and with fallback off they agree |
| TrustScoring.Clamp01 | backend/trust_scorer.py:150 | `max(0.0, min(1.0, x))` lies in [0, 1], is the identity there and saturates outside |
| TrustScoring.RoundHalfEven | backend/trust_scorer.py:251-255 | the rounding lands on one of the two integers around its argument and keeps an integer as it is |
| TrustScoring.HostScore | backend/trust_scorer.py:75-104 | a domain score lies between 0.15 and 0.95 |
| TrustScoring.DomainScore | backend/trust_scorer.py:71-104 | a domain score, when the URL parses, lies in [0, 1] |
| TrustScoring.TrustedIff | backend/trust_scorer.py:78-83 | a domain scores 0.95 exactly when, without `www.`, it is on the trusted list |
| TrustScoring.SuspiciousIff | backend/trust_scorer.py:82-91 | a domain scores 0.15, the lowest score, exactly when it is on the suspicious list and on neither list checked before it |
| TrustScoring.WwwIgnored | backend/trust_scorer.py:77-79 | a leading `www.` does not change the domain score |
| TrustScoring.ReviewBodies | backend/trust_scorer.py:116-121 | when no review raises there is one text per review |
| TrustScoring.Hits | backend/trust_scorer.py:138-144 | a review text scores at most two suspicious hits |
| TrustScoring.DetailedCount | backend/trust_scorer.py:122-123 | at most every review is detailed |
| TrustScoring.HitCount | backend/trust_scorer.py:131-144 | the hits of all reviews are at most twice their number |
| TrustScoring.ReviewQualityScore | backend/trust_scorer.py:106-150 | a review quality score, when the reviews do not raise, lies in [0, 1] |
| TrustScoring.CalculateReviewQualityScore | backend/trust_scorer.py:106-150 | the two review loops compute the review quality specification, for a list, a string or a dict given as the reviews |
| TrustScoring.ScoreItems | backend/trust_scorer.py:111-150 | the two loops over a non-empty sequence of reviews compute its score |
| TrustScoring.DictOrder | backend/trust_scorer.py:116 | iterating a dict visits each of its keys exactly once |
| TrustScoring.ReviewQualityRaisesIff | backend/trust_scorer.py:106-136 | the score raises exactly for a truthy number or boolean (no `len()`) and for a list one of whose texts raises; strings and dicts never raise |
| TrustScoring.DictScoresAsKeyList | backend/trust_scorer.py:112-136 | a dict given as the reviews scores as the list of its keys, whatever order they are visited in |
| TrustScoring.KeyCounts | backend/trust_scorer.py:116-144 | over distinct keys, the loop counts are the sizes of the sets of long, few-worded and keyword-holding keys |
| TrustScoring.StringReviewsScoreZero | backend/trust_scorer.py:112-150 | a string given as the reviews scores 0, each of its characters being a suspiciously short review |
| TrustScoring.CountDetailed | backend/trust_scorer.py:115-123 | the first loop raises exactly when a review text raises, and otherwise counts the detailed reviews |
| TrustScoring.CountSuspicious | backend/trust_scorer.py:131-144 | the second loop counts the suspicious hits of the texts |
| TrustScoring.BodiesFail | backend/trust_scorer.py:116-121 | one review that raises makes the whole list raise |
| TrustScoring.RatioFacts | backend/trust_scorer.py:126-128 | the detail ratio lies in [0, 1] and is 0 only for none and 1 only for all |
| TrustScoring.QualityAtMostThreeTenths | backend/trust_scorer.py:125-150 | review quality never exceeds 0.3 |
| TrustScoring.QualityBound | backend/trust_scorer.py:125-150 | the quality is at most 0.3, and is 0.3 exactly when every review is detailed and none has a hit |
| TrustScoring.NoReviewsScoreZero | backend/trust_scorer.py:108-109 | no reviews, or an empty list, score quality 0 |
| TrustScoring.RatingConsistency | backend/trust_scorer.py:152-179 | the rating consistency lies in [0, 1] |
| TrustScoring.MoreReviewsNeverLower | backend/trust_scorer.py:170-176 | with a readable rating, more reviews never lower the consistency |
| TrustScoring.AgreementScoresOne | backend/trust_scorer.py:161-176 | a rating that says what the sentiment says scores 1 |
| TrustScoring.UnreadableRatingNeutral | backend/trust_scorer.py:154-155 | a missing or `N/A` rating, a falsy count, or values `float()`/`int()` reject give the neutral 0.5 |
| TrustScoring.SellerScore | backend/trust_scorer.py:181-203 | a seller score lies between 0.3 and 0.8 |
| TrustScoring.BrandedSellerIff | backend/trust_scorer.py:192-203 | a named seller scores 0.8 exactly when it looks branded and not generic, the generic test coming first |
| TrustScoring.UnknownSellerIsGeneric | backend/trust_scorer.py:183-196 | `Unknown Seller` is not the `Unknown` placeholder: it is a generic name and scores 0.3 |
| TrustScoring.PriceScore | backend/trust_scorer.py:205-230 | a price score lies between 0.2 and 0.8 |
| TrustScoring.DigitlessPriceNeutral | backend/trust_scorer.py:210-214 | a price text with no digit scores the neutral 0.5 |
| TrustScoring.TrustComponents | backend/trust_scorer.py:236-247 | the five component scores, when none raises, each lie in [0, 1] |
| TrustScoring.ComponentScores | backend/trust_scorer.py:236-247 | the component computation, with its loops, computes the component specification |
| TrustScoring.WeightsTotalOne | backend/trust_scorer.py:259-273 | the weights total one: equal components and no sentiment give that component back |
| TrustScoring.WeightedMonotone | backend/trust_scorer.py:267-280 | raising any component or the sentiment never lowers the score |
| TrustScoring.PercentInRange | backend/trust_scorer.py:280-289 | the stored percentage lies in [0, 100] |
| TrustScoring.OverallScoreInRange | backend/trust_scorer.py:289-307 | the overall score returned lies in [0, 100], on the error path too |
| TrustScoring.Round2Keeps | backend/trust_scorer.py:250-256 | rounding to two places keeps a score in [0, 1] and leaves whole hundredths unchanged |
| TrustScoring.TrustScorer.constructor | backend/trust_scorer.py:10-12 | a new scorer has no component scores and a last score of 50 |
| TrustScoring.TrustScorer.CalculateTrustScore | backend/trust_scorer.py:232-307 | the result is the trust specification; a successful call stores what it returns and the getters give it back, an exception stores nothing |
| TrustScoring.TrustScorer.Finish | backend/trust_scorer.py:249-307 | the rest of the `try` block stores the returned scores, and the handler leaves the stored ones |
| TrustScoring.GenerateRecommendation | backend/trust_scorer.py:317-341 | `Buy` exactly from 80, `Be Careful` exactly in [60, 80), `Avoid` exactly below 60, a missing score read as 50 |
| TrustScoring.RecommendationMonotone | backend/trust_scorer.py:317-341 | a higher score never gives a less favourable recommendation, and a missing score gives `Avoid` |
| TrustScoring.ErrorResultAvoid | backend/trust_scorer.py:296-307 | the exception result's 50 gets the missing score's recommendation |
| Sentiment.PreprocessClean | backend/sentiment_analyzer.py:183-197 | the clean-up returns lower-case letters separated by single spaces, with no space at either end |
| Sentiment.PreprocessFixesClean | backend/sentiment_analyzer.py:183-197 | a clean text is left as it is |
| Sentiment.PreprocessIdempotent | backend/sentiment_analyzer.py:183-197 | cleaning twice is cleaning once |
| Sentiment.PreprocessKeepsLetters | backend/sentiment_analyzer.py:188-195 | the letters that come out are the letters that went in, lower-cased and in order |
| Sentiment.PolarityLabel | backend/sentiment_analyzer.py:199-212 | positive exactly above 0.1, negative exactly below -0.1, neutral in between or when the polarity cannot be computed |
| Sentiment.PolarityMonotone | backend/sentiment_analyzer.py:205-210 | a higher polarity never gives a lower label |
| Sentiment.MlLabel | backend/sentiment_analyzer.py:214-232 | the model's prediction on the cleaned text when it gives one, the TextBlob label otherwise |
| Sentiment.ReviewLabel | backend/sentiment_analyzer.py:234-244 | an empty or blank review is neutral; any other gets the ML label |
| Sentiment.Shorten | backend/sentiment_analyzer.py:271 | a text up to 100 characters is shown whole; a longer one as its first 100 characters and `...` |
| Sentiment.Count | backend/sentiment_analyzer.py:276-278 | a label count is at most the number of labels |
| Sentiment.CountsPartition | backend/sentiment_analyzer.py:276-279 | the three counts add up to the number of labels |
| Sentiment.ScoreRange | backend/sentiment_analyzer.py:281-285 | the sentiment score lies in [-1, 1], and is 1 exactly when all are positive and -1 exactly when all are negative |
| Sentiment.TextOfRaisesIff | backend/sentiment_analyzer.py:261-271 | a review's text raises exactly when it is a dict's `text` that is neither a string nor an empty list or dict; what gets through is a string or one of those two containers |
| Sentiment.TextsOf | backend/sentiment_analyzer.py:261-265 | one text per review when none raises |
| Sentiment.Labels | backend/sentiment_analyzer.py:261-268 | one label per review text |
| Sentiment.Details | backend/sentiment_analyzer.py:270-273 | one detail entry per review text |
| Sentiment.FirstDetails | backend/sentiment_analyzer.py:293 | `detailed_sentiments[:5]` has five entries or all of them |
| Sentiment.AnalyzeReviews | backend/sentiment_analyzer.py:246-294 | `analyze_reviews` computes its specification |
| Sentiment.LabelReviews | backend/sentiment_analyzer.py:258-273 | the loop gives each review's text, its label and its detail entry, stopping at the first text that raises |
| Sentiment.NoReviewsEmptySummary | backend/sentiment_analyzer.py:248-256 | no reviews give zero counts, score 0 and no details |
| Sentiment.SummaryCounts | backend/sentiment_analyzer.py:275-294 | the total is the number of reviews, the counts split it, and the score is their balance in [-1, 1] |
| Sentiment.SummaryCountsLabels | backend/sentiment_analyzer.py:275-279 | each count is the number of reviews with that label |
| Sentiment.DetailsInOrder | backend/sentiment_analyzer.py:270-293 | the details are the first five reviews in input order, each with its shown text and its label |
| Sentiment.EmptyContainerTextNeutral | backend/sentiment_analyzer.py:234-273 | a dict review whose `text` is an empty list or dict is neutral and shown as it is |
| Sentiment.RaisesIff | backend/sentiment_analyzer.py:261-273 | the analysis raises exactly when some review is a dict whose `text` is neither a string nor an empty list or dict |
| UrlValidation.ValidateUrl | app.py:33-79 | a missing, empty or non-string URL is refused as required |
| UrlValidation.AcceptedShape | app.py:33-75 | an accepted URL parses, with an `http`/`https` scheme, a dotted host of letters, digits and hyphens, and an empty or `/`-led path of allowed characters |
| UrlValidation.ParsedVerdict | app.py:40-75 | once `urlparse` has succeeded, only the parsed parts decide |
| UrlValidation.ComposedVerdict | app.py:40-75 | a URL built from a web scheme, dot-joined labels and a `/`-led path is judged on those labels and that path alone |
| UrlValidation.AcceptsComposed | app.py:33-75 | every URL built from a web scheme, at least two good labels and a path of allowed characters passes |
| UrlValidation.GoodLabelsPass | app.py:53-75 | at least two labels each fitting the label rule, and an allowed path, pass the domain and path checks |
| UrlValidation.OtherSchemeRejected | app.py:45-46 | a scheme other than `http` or `https` is refused with its message |
| UrlValidation.NoHostRejected | app.py:49-50 | `scheme://` with nothing after it is refused as missing a domain |
| UrlValidation.SingleLabelRejected | app.py:53-55 | a host without a dot is refused as having too few parts |
| UrlValidation.EmptyLabelRejected | app.py:57-59 | an empty part (a leading, trailing or doubled dot) is refused |
| UrlValidation.BadLabelRejected | app.py:61-69 | with no empty part, a part with a hyphen at an end or all digits is refused |
| UrlValidation.BracketRejected | app.py:77-79 | a netloc with an unmatched `[` makes `urlparse` raise, reported as a format error |
| UrlValidation.SchemelessRejected | app.py:43-44 | a URL with no `:` is refused as missing a scheme |
| UrlValidation.NoSchemeSampleRejected | app.py:43-44 | `not_a_url` is refused as missing a scheme |
| UrlValidation.HostFacts | app.py:53 | a host joined from label characters holds no URL delimiter and splits back into its labels |
| AdvancedScraper.Judge | advanced_anti_bot_scraper.py:86-118 | success exactly on a 200 whose lower-cased text holds no marker, with that text; anti-bot exactly on a 200 with a marker; `HTTP_<code>` on other codes; an error when the request raised |
| AdvancedScraper.StealthIsStricter | advanced_anti_bot_scraper.py:103-108 | every short marker is a stealth marker, so a page the stealth fetch accepts is accepted by the other strategies as well |
| AdvancedScraper.FirstSuccess | advanced_anti_bot_scraper.py:54-84 | the strategy chain answers a success or the all-failed pair |
| AdvancedScraper.FirstSuccessIsFirst | advanced_anti_bot_scraper.py:54-84 | the chain succeeds exactly when some strategy does, and then with the first success as it came |
| AdvancedScraper.StrategiesInOrder | advanced_anti_bot_scraper.py:54-84 | the four strategies are tried in order; with no success the result is the all-failed pair |
| AdvancedScraper.SuccessIsCleanPage | advanced_anti_bot_scraper.py:54-193 | a success always carries the text of a 200 with no marker |
| AdvancedScraper.RotationForgetsOldSession | advanced_anti_bot_scraper.py:155-159 | once the session is rotated nothing set on the old one survives, and the new one navigates |
| AdvancedScraper.ExtractProductData | advanced_anti_bot_scraper.py:195-277 | the two selector loops compute the extraction specification |
| AdvancedScraper.ExtractFillsTitleAndPrice | advanced_anti_bot_scraper.py:195-277 | only title and price are filled; each is the text of the first selector whose text passes its test, and stays at its placeholder when none does; a filled title is longer than five characters and a filled price holds one of the platform's currency symbols; other platforms keep the placeholder |
| AdvancedScraper.DetectPlatform | advanced_anti_bot_scraper.py:279-292 | a platform exactly for a URL `urlparse` accepts, namely the detector's answer on its lower-cased netloc |
| AdvancedScraper.DetectHostIsFirstHit | advanced_anti_bot_scraper.py:283-292 | the detector is the ordered first-hit classification over its marker table |
| AdvancedScraper.FallbackTitleShape | advanced_anti_bot_scraper.py:325-341 | the fallback title names the platform and ends with at most 30 characters of the URL's last segment; price `$29.99`, three reviews |
| AdvancedScraper.ScrapeProductOutcomes | advanced_anti_bot_scraper.py:294-323 | for a URL `urlparse` accepts, `scrape_product` never raises, and gives the fallback record exactly when no strategy succeeds, the extracted one otherwise |
| AdvancedScraper.AdvancedAntiBotScraper.constructor | advanced_anti_bot_scraper.py:20-50 | the new session carries the stealth headers with the agent picked |
| AdvancedScraper.AdvancedAntiBotScraper.ScrapeWithStealthRequests | advanced_anti_bot_scraper.py:86-118 | only the agent header changes, and the answer is the judgement with the stealth markers |
| AdvancedScraper.AdvancedAntiBotScraper.ScrapeWithDelayedRequests | advanced_anti_bot_scraper.py:120-153 | only the agent header changes, and the answer is the judgement with the short markers |
| AdvancedScraper.AdvancedAntiBotScraper.RotateSession | advanced_anti_bot_scraper.py:155-159 | the session is replaced by a new one with the stealth headers |
| AdvancedScraper.AdvancedAntiBotScraper.ScrapeWithProxyBehavior | advanced_anti_bot_scraper.py:161-193 | the proxy headers are laid over the session's, and the answer is the judgement with the short markers |
| AdvancedScraper.AdvancedAntiBotScraper.ScrapeWithMultipleStrategies | advanced_anti_bot_scraper.py:54-84 | the chain answers its first success, and the headers are those of the strategies reached |
| AdvancedScraper.AdvancedAntiBotScraper.ScrapeProduct | advanced_anti_bot_scraper.py:294-323 | `scrape_product` computes its specification; an unparsable URL raises before the session is touched |
| AdvancedScraper.Fetched | advanced_anti_bot_scraper.py:96-118 | a fetch is judged by its response |
| StagedScraper.RequestsOutcome | backend/tests/enhanced_scraper.py:74-108 | the status is tested before the page: 403 is blocked, 429 rate-limited, other non-200 codes an HTTP error, a 200 with a marker anti-bot, a clean 200 a success with its response, a raised request an error |
| StagedScraper.SeleniumOutcome | backend/tests/enhanced_scraper.py:110-147 | a missing browser, a page that does not load or never shows a body is an error; otherwise anti-bot exactly when a marker shows, and success with the page source |
| StagedScraper.FirstListed | backend/tests/enhanced_scraper.py:268-275 | the review selector loop keeps a non-empty element list |
| StagedScraper.FirstListedIsFirst | backend/tests/enhanced_scraper.py:268-275 | the elements kept are those of the first selector that selects any, and there are none exactly when no selector does |
| StagedScraper.ReviewsOfGood | backend/tests/enhanced_scraper.py:277-322 | at most one review per element, each with a non-empty text and a rating of `5` or the digits shown |
| StagedScraper.ReviewsBounded | backend/tests/enhanced_scraper.py:263-322 | at most five good reviews, from the first selector that selects any element; none when no selector does |
| StagedScraper.CollectReviews | backend/tests/enhanced_scraper.py:277-322 | the element loop computes the reviews of its elements |
| StagedScraper.ExtractReviews | backend/tests/enhanced_scraper.py:263-322 | the review extraction computes its specification |
| StagedScraper.ExtractAmazonData | backend/tests/enhanced_scraper.py:149-261 | the Amazon extraction computes its specification |
| StagedScraper.ExtractDarazData | backend/tests/enhanced_scraper.py:324-380 | the Daraz extraction computes its specification |
| StagedScraper.AmazonFields | backend/tests/enhanced_scraper.py:149-261 | each field of an Amazon record is its placeholder or a value that passed its test: a title longer than five, a price with a currency symbol, a rating starting with a digit, a count of digits, a seller longer than three, at most five reviews |
| StagedScraper.RatingField | backend/tests/enhanced_scraper.py:203-222 | a rating kept by the decimal pattern starts with a digit |
| StagedScraper.CountField | backend/tests/enhanced_scraper.py:223-240 | a count kept by the integer pattern is a run of digits |
| StagedScraper.DarazFields | backend/tests/enhanced_scraper.py:324-424 | a Daraz record fills only title, price and reviews, and every review keeps the default rating |
| StagedScraper.FirstHeading | backend/tests/enhanced_scraper.py:483-490 | the generic title is a heading of the page longer than ten characters |
| StagedScraper.FirstSomeIsFirst | backend/tests/enhanced_scraper.py:492-507 | the generic price is the first pattern's match that exists, and none exactly when no pattern matches |
| StagedScraper.ExtractGenericData | backend/tests/enhanced_scraper.py:469-509 | the generic extraction computes its specification |
| StagedScraper.GenericPriceByPatternOrder | backend/tests/enhanced_scraper.py:469-509 | the generic price is the first match of the first currency pattern, in the order `$`, `€`, `£`, `₹`, `PKR`, that matches at all |
| StagedScraper.ChainOrder | backend/tests/enhanced_scraper.py:426-467 | the browser is consulted only when the request did not succeed, and the fallback only when both failed |
| StagedScraper.EnhancedScraper.constructor | backend/tests/enhanced_scraper.py:25-53 | the session carries the setup headers with the agent picked |
| StagedScraper.EnhancedScraper.ScrapeWithSelenium | backend/tests/enhanced_scraper.py:110-147 | a started browser is always quit, and the answer is the browser outcome |
| StagedScraper.EnhancedScraper.ScrapeProduct | backend/tests/enhanced_scraper.py:426-467 | `scrape_product` computes its specification, and the browser is quit exactly when it was used |
| StagedScraper.ExtractFor | backend/tests/enhanced_scraper.py:461-467 | the platform's extractor is chosen |
| EnhancedScraping.FirstClean | backend/enhanced_scraper.py:84-122 | the first clean attempt, when there is one, is a 200 with no marker |
| EnhancedScraping.FirstCleanIsFirst | backend/enhanced_scraper.py:84-122 | there is no clean attempt exactly when every attempt fails, and the one found is preceded only by failures |
| EnhancedScraping.DelayGrows | backend/enhanced_scraper.py:84-122 | the delay never shrinks and grows at most twofold per attempt |
| EnhancedScraping.DelayFactors | backend/enhanced_scraper.py:105-120 | a non-200 grows the delay by half; a raised attempt doubles it, unless it was the last |
| EnhancedScraping.AntiBotFirstClean | backend/enhanced_scraper.py:84-122 | a response comes back exactly when some attempt is clean; it is the first clean one's, after that many requests |
| EnhancedScraping.HeadersStep | backend/enhanced_scraper.py:96-100 | each attempt overwrites the agent and referer the previous one set |
| EnhancedScraping.AttemptStep | backend/enhanced_scraper.py:91-120 | one attempt's effect on the first clean index and on the delay |
| EnhancedScraping.SeleniumSource | backend/enhanced_scraper.py:124-145 | the browser returns the page source exactly when a browser started, the page loads and it holds no marker |
| EnhancedScraping.SeleniumLaxer | backend/enhanced_scraper.py:105-137 | a page the request attempts accept, the browser accepts as well |
| EnhancedScraping.EnhancedScraper.constructor | backend/enhanced_scraper.py:20-34 | the session carries the setup headers over its own |
| EnhancedScraping.EnhancedScraper.ScrapeWithAntiBot | backend/enhanced_scraper.py:84-122 | the answer is the first clean attempt's response, the delay the loop ends with is the delay specification, and the headers are those of the attempts made |
| EnhancedScraping.EnhancedScraper.ScrapeWithSelenium | backend/enhanced_scraper.py:124-145 | a started browser is always quit, and the answer is the browser specification |
| ErrorFreeScraping.AlternativeOutcome | backend/tests/comprehensive_error_fix.py:106-134 | the alternative method succeeds exactly on a 200, markers or not, with its text; an error exactly when the request raised |
| ErrorFreeScraping.StealthOutcome | backend/tests/comprehensive_error_fix.py:62-104 | a failed URL check gives `INVALID_URL` and only then; a raised request an error; a non-200 its code; a clean 200 its text; an anti-bot 200 the alternative method |
| ErrorFreeScraping.StealthSuccess | backend/tests/comprehensive_error_fix.py:62-134 | a success carries the text of a 200 that came after the URL check passed; without an anti-bot page the alternative is never asked |
| ErrorFreeScraping.DetectPlatform | backend/tests/comprehensive_error_fix.py:222-237 | a platform exactly for a URL `urlparse` accepts, namely the detector's answer on its lower-cased netloc |
| ErrorFreeScraping.DetectHostIsFirstHit | backend/tests/comprehensive_error_fix.py:226-237 | the detector is the ordered first-hit classification over its marker table |
| ErrorFreeScraping.ScanPatterns | backend/tests/comprehensive_error_fix.py:196-201 | the pattern loop finds the first pattern's match that exists |
| ErrorFreeScraping.ExtractProductDataEnhanced | backend/tests/comprehensive_error_fix.py:136-220 | the extraction loops compute the extraction specification |
| ErrorFreeScraping.ScannedPriceLeads | backend/tests/comprehensive_error_fix.py:185-201 | a scanned price starts with the symbol of its pattern |
| ErrorFreeScraping.PriceField | backend/tests/comprehensive_error_fix.py:168-201 | the price is the placeholder, a selector's text with a currency symbol, or a scanned amount led by a pattern's symbol |
| ErrorFreeScraping.ExtractFields | backend/tests/comprehensive_error_fix.py:136-220 | each field is its placeholder or a value that passed its test: a title longer than five, a price with a symbol or scanned, a rating starting with a digit |
| ErrorFreeScraping.SelectorPriceWins | backend/tests/comprehensive_error_fix.py:176-188 | the regex scan never replaces a price a selector found |
| ErrorFreeScraping.NoSymbolInPlaceholder | backend/tests/comprehensive_error_fix.py:186 | the placeholder price holds no currency symbol, so it is never taken for a found price |
| ErrorFreeScraping.FirstFitHeading | backend/tests/comprehensive_error_fix.py:277-285 | an enhanced title is a heading of the page strictly between 10 and 200 characters long |
| ErrorFreeScraping.EnhanceWithRealData | backend/tests/comprehensive_error_fix.py:272-305 | the enhancement computes its specification |
| ErrorFreeScraping.EnhanceKeepsRealData | backend/tests/comprehensive_error_fix.py:272-305 | only a field still holding its placeholder is replaced, a title only by a heading of 11 to 199 characters, and nothing else changes |
| ErrorFreeScraping.PoolCurrency | backend/tests/comprehensive_error_fix.py:324-335 | Daraz prices are in rupees, every other pool in dollars |
| ErrorFreeScraping.SampledReviews | backend/tests/comprehensive_error_fix.py:347-357 | one review per sampled template position |
| ErrorFreeScraping.SampledDistinct | backend/tests/comprehensive_error_fix.py:347-357 | distinct template positions give distinct reviews, all of them templates |
| ErrorFreeScraping.FallbackFromPools | backend/tests/comprehensive_error_fix.py:307-357 | the fallback price is a Daraz rupee price or a dollar price, rating and count come from their lists, and the two to four reviews are distinct templates |
| ErrorFreeScraping.ScrapeKeepsExtracted | backend/tests/comprehensive_error_fix.py:239-270 | enhancing never undoes an extracted title or price |
| ErrorFreeScraping.ErrorFreeScraper.constructor | backend/tests/comprehensive_error_fix.py:20-46 | the session carries the stealth headers with the agent picked |
| ErrorFreeScraping.ErrorFreeScraper.ScrapeWithEnhancedStealth | backend/tests/comprehensive_error_fix.py:62-104 | the answer is the stealth outcome, and the agent is rotated only once the URL check passed |
| ErrorFreeScraping.ErrorFreeScraper.ScrapeProduct | backend/tests/comprehensive_error_fix.py:239-270 | `scrape_product` computes its specification, and the agent changes only on a URL that passed its check |
| DebugScraping.DebugRequest | backend/tests/debug_scraper.py:47-93 | success exactly on a clean 200 with its response; 403 blocked, 429 rate-limited, other codes an HTTP error, a 200 with a marker anti-bot, and each failed request its own status |
| DebugScraping.Detected | backend/tests/debug_scraper.py:265-274 | at most one detected platform per rule |
| DebugScraping.DetectedIsHits | backend/tests/debug_scraper.py:260-277 | the list holds exactly the platforms whose rules fire, and its head is the first-hit answer |
| DebugScraping.TestPlatformDetection | backend/tests/debug_scraper.py:260-277 | a platform exactly for a URL `urlparse` accepts |
| DebugScraping.DetectionIsFirstHit | backend/tests/debug_scraper.py:260-277 | the detector answers the first rule that fires on the lower-cased host |
| DebugScraping.ClassifyNoHit | backend/tests/debug_scraper.py:274-277 | when no rule fires the answer is `generic` |
| DebugScraping.ComprehensiveDebugSpec | backend/tests/debug_scraper.py:279-302 | the run raises exactly for a URL `urlparse` rejects, and otherwise succeeds exactly when the request did |
| DebugScraping.DebugScraper.constructor | backend/tests/debug_scraper.py:27-45 | the session carries the debug headers with the agent drawn |
| DebugScraping.DebugScraper.ComprehensiveDebug | backend/tests/debug_scraper.py:279-302 | `comprehensive_debug` computes its specification |
| Selectors.Picked | backend/tests/enhanced_scraper.py:149-261 | a length test keeps a text exactly when it is longer, a symbol test exactly when it is non-empty with a symbol, a pattern its first match |
| Selectors.FirstAcceptedIsFirst | backend/tests/enhanced_scraper.py:149-261 | the selector loop keeps the first selector whose text passes, and nothing exactly when none does |
| Selectors.ScanSelectors | backend/tests/enhanced_scraper.py:149-261 | the selector loop computes the first accepted value |
| Patterns.MatchAt | backend/scraper.py:394 | a match at a position ends inside the text, after it |
| Patterns.SearchFromFinds | backend/scraper.py:394 | the search finds the leftmost position where the pattern matches |
| Urls.Parse | backend/scraper.py:139 | `urlparse` fails exactly when the netloc has an unbalanced bracket (`Invalid IPv6 URL`) or a bracketed host that fails `_check_bracketed_host` (with that check's message); on success the netloc is the text after `//` up to the first `/`, `?` or `#` |
| Urls.NetlocError | backend/scraper.py:139 | an unbalanced bracket gives `Invalid IPv6 URL`; no bracket gives no error; otherwise the error is that of the host between the brackets |
| Urls.BracketedHostChecked | backend/scraper.py:139 | `scheme://[h]/path` parses exactly when `h` passes the bracketed-host check, and fails with that check's message otherwise |
| IpHosts.CheckBracketedHost | backend/scraper.py:139 | a bracketed host passes exactly when it starts with `v` and is an IPvFuture literal, or does not and is an IPv6 address |
| IpHosts.NotBoth | backend/scraper.py:139 | no text is both an IPv4 and an IPv6 address |
| IpHosts.LoopbackIsIpv6 | backend/scraper.py:139 | `::1` is an IPv6 address and passes the bracketed-host check |
| IpHosts.WordIsNoAddress | backend/scraper.py:139 | a lower-case word not starting with `v` fails the check with "does not appear to be an IPv4 or IPv6 address" |
| IpHosts.DottedQuadRefused | backend/scraper.py:139 | four octets joined by dots fail the check with "An IPv4 address cannot be in brackets" |
| Urls.NetlocHasNoDelimiter | backend/scraper.py:139 | a parsed netloc holds no `/`, `?` or `#` and no unmatched bracket |
| Urls.ParseComposed | backend/scraper.py:139 | `scheme://host/path` parses back into that scheme, host and path |
| Numbers.Fixed2RoundTrip | backend/scraper.py:400-401 | writing a number of cents with two decimals and reading it back gives the number |
| Text.JoinSplit | app.py:53 | splitting on a character and joining back gives the text |
| Text.SplitJoin | app.py:53 | pieces without the separator, joined and split, come back |

## Left out

- Selenium, `requests`, BeautifulSoup and `fake_useragent` are foreign libraries. What they return (a status and a body, a raised exception, the text each CSS selector finds, the text nodes of a page, the agent picked) is a parameter of each operation. The CSS selector language itself is not modelled.
- `json.loads` is not modelled. The JSON-LD scripts arrive already parsed, as `PyJson.Json` values.
- `urlparse` is modelled only for what these checks read: the scheme, the netloc, the path, params, query and fragment split, the unbalanced-bracket check and `_check_bracketed_host`. Port validation and IDNA encoding are not modelled.
- Urls.Parse: does not model `_checknetloc`, which raises for a non-ASCII netloc whose NFKC normalisation brings in `/`, `?`, `#`, `@` or `:`; Unicode normalisation is out of reach here. `Urls.ParseComposed` therefore speaks for the source only when the host is ASCII.
- IpHosts.NotAnAddress: writes the `repr` of the host as the host in single quotes; Python's escaping of quotes and non-printable characters in `repr` is not modelled.
- UrlValidation.ValidateUrl: reads `\w` in the path pattern as ASCII `[A-Za-z0-9_]`. Python's `\w` on `str` is Unicode-aware, so a path with non-ASCII word characters such as `/café`, which the source accepts, is rejected by the model.
- Sentiment.AnalyzeReviews: takes the reviews as a list, which is what `app.py` and the scrapers pass. A string or dict passed as the reviews, which `for review in reviews` would walk by characters or keys, is not modelled there; `TrustScoring.ReviewQualityScore` does model both.
- `str.lower`, `str.isdigit` and `str.isalnum` are modelled on ASCII letters and digits only. Unicode case mapping and non-ASCII digits are not modelled.
- Python `float()` is modelled on plain decimal strings (an optional sign, digits, an optional fraction), read as exact reals. Exponents, `inf`/`nan`, underscores and binary rounding are not modelled; a string outside this form counts as one `float()` rejects.
- `f"{x:.2f}"` is modelled on values with at most two decimals, where it is exact. The binary rounding of longer fractions is not modelled.
- `round(x, 1)` and `round(x, 2)` in the trust scorer are modelled as decimal round-half-even on exact reals. Python's binary ties are not modelled.
- `time.sleep`, random jitter, `random.choice` and `random.sample` are not modelled as randomness. Each drawn value is a parameter, constrained to the positions of its list. Delay durations are dropped, except the growing `delay` of `backend/enhanced_scraper.py`.
- EnhancedScraping.EnhancedScraper.ScrapeWithAntiBot: returns the final `delay` as a second result. The source keeps it in a local, so this is visible only through the model.
- `get_selenium_driver` and the browser options it sets are not modelled. A browser is either given (`Scraping.Driver`) or absent.
- Logging is not modelled anywhere.
- The sentiment model's training, its pickle files under `models/`, the vectorizer and the TextBlob polarity computation are not modelled. The classifier and the polarity are function parameters.
- The Flask routes and JSON responses of `app.py` are not modelled; only `validate_url` is. Threaded serving and concurrency are not modelled.
- The `debug_amazon_scraping`, `debug_daraz_scraping` and `debug_generic_scraping` routines only log what they find. They are modelled only by the value they return: the parsed page, or `None` when the request failed.
- The demonstration functions are not modelled: `test_advanced_scraper`, `test_enhanced_scraper`, `test_error_free_scraper`, `main` and `test_scraper`. They print and call live sites.
- The two `extract_price` examples of `backend/tests/test_scraper_platforms.py:15-19` (`'Only $1,234.56 …'` gives `'$1234.56'`, `'Price: 99.99 USD'` gives `'$99.99'`) are not proved. Evaluating the matchers on these literal strings costs the verifier more than its budget. What is proved in general is the `$` prefix (`ScraperCore.ExtractPriceDollar`), the digitless case (`ScraperCore.ExtractPriceOfDigitless`) and the fixed point on `$D.CC` prices (`ScraperCore.ExtractPriceFixesMoney`). Commas dropped inside a larger match are not proved.
- TrustScoring.QualityAtMostThreeTenths: states only the upper bound. When the bound is reached is stated by `TrustScoring.QualityBound`.
- In the code, `extract_price` of a digitless text holding a comma (`","`, `"$,"`) returns `"$"` and not `"$0.00"`. The model follows the code (`ScraperCore.ExtractPriceOfLoneComma`).

## Findings

| source | as written | input that shows it | evidently intended | confidence | as-written member | corrected member |
|---|---|---|---|---|---|---|
| backend/scraper.py:192-201 | the `except` handler calls `urlparse(url)` again to tag the fallback record, so any URL that made `urlparse` raise raises the same `ValueError` from inside the handler | `scrape_product("http://[::1")` (unbalanced bracket) or `scrape_product("http://[abc]/")` (bracketed host that is no address), with fallback on and a `generic` record present | return the generic fallback record, tagged `generic` | not executed | ScrapingFacts.AsWrittenRaisesOnUnparsable | ScrapingFacts.CorrectedOnUnparsable |
