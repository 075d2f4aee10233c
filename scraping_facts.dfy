/** What `scrape_product` promises: with fallback on it always returns a
    record tagged with the URL, every record it returns either validated
    or is a fallback copy, and with fallback off its exceptions escape.
    Also the one input on which the handler as written raises anyway. */
module ScrapingFacts {
  import opened Common
  import opened Text
  import opened Urls
  import opened IpHosts
  import opened PyJson
  import opened Platforms
  import opened ScraperCore
  import opened Extraction
  import opened Scraping
  import opened ExtractionFacts

  /** The fallback table `__init__` installs has the generic record. */
  lemma InitialTableHasGeneric()
    ensures "generic" in FallbackData && FallbackData["generic"].title == "Unknown Product"
  {
  }

  /** With fallback on and a generic record, `scrape_product` never raises:
      it returns a record carrying the URL and a platform. */
  lemma FallbackNeverRaises(fb: map<string, Product>, url: string, page: Option<Page>, f: Fetch, doc: Doc, strOf: StrOf)
    requires "generic" in fb
    ensures ScrapeProductSpec(true, fb, url, page, f, doc, strOf).Ok?
    ensures ScrapeProductSpec(true, fb, url, page, f, doc, strOf).value.url == Some(url)
    ensures ScrapeProductSpec(true, fb, url, page, f, doc, strOf).value.platform.Some?
  {
  }

  /** The validator reads only the title and the seller, so tagging a
      record does not change its verdict. */
  lemma ValidateIgnoresTags(url: string, d: Product, p: Platform)
    ensures ValidateExtractedData(url, Tagged(d, p, url)) == ValidateExtractedData(url, d)
  {
    assert Haystack(Tagged(d, p, url)) == Haystack(d);
  }

  /** A copy of some fallback record, tagged with a platform and the URL. */
  predicate IsFallbackCopy(fb: map<string, Product>, url: string, d: Product) {
    d.platform.Some? && exists k :: k in fb && d == Tagged(fb[k], d.platform.value, url)
  }

  /** Every record `scrape_product` returns either passed the validator
      for the URL or is a copy of a fallback record. */
  lemma ReturnedRecordsQualify(allow: bool, fb: map<string, Product>, url: string, page: Option<Page>, f: Fetch, doc: Doc, strOf: StrOf)
    requires ScrapeProductSpec(allow, fb, url, page, f, doc, strOf).Ok?
    ensures var d := ScrapeProductSpec(allow, fb, url, page, f, doc, strOf).value;
      ValidateExtractedData(url, d) || IsFallbackCopy(fb, url, d)
  {
    var t := TryBlock(allow, fb, url, page, f, doc, strOf);
    if t.Ok? {
      TryBlockQualifies(allow, fb, url, page, f, doc, strOf);
    } else {
      var d := ScrapeProductSpec(allow, fb, url, page, f, doc, strOf).value;
      assert d == Tagged(fb["generic"], ExceptPlatform(url), url);
      assert IsFallbackCopy(fb, url, d);
    }
  }

  lemma TryBlockQualifies(allow: bool, fb: map<string, Product>, url: string, page: Option<Page>, f: Fetch, doc: Doc, strOf: StrOf)
    requires TryBlock(allow, fb, url, page, f, doc, strOf).Ok?
    ensures var d := TryBlock(allow, fb, url, page, f, doc, strOf).value;
      ValidateExtractedData(url, d) || IsFallbackCopy(fb, url, d)
  {
    var p := UrlChecks(url).value;
    var sel := SeleniumSpec(page, p, url, strOf);
    if sel.Some? && ValidateExtractedData(url, sel.value) {
      ValidateIgnoresTags(url, sel.value, p);
    } else {
      RequestPathQualifies(allow, fb, url, p, AntiBotVerdict(f), doc, strOf);
    }
  }

  lemma RequestPathQualifies(allow: bool, fb: map<string, Product>, url: string, p: Platform,
                             resp: Option<Response>, doc: Doc, strOf: StrOf)
    requires RequestPath(allow, fb, url, p, resp, doc, strOf).Ok?
    ensures var d := RequestPath(allow, fb, url, p, resp, doc, strOf).value;
      ValidateExtractedData(url, d) || IsFallbackCopy(fb, url, d)
  {
    var d := RequestPath(allow, fb, url, p, resp, doc, strOf).value;
    if resp.Some? && resp.value.status == 200 {
      var e := ExtractDataSpec(resp.value.text, doc, p, Some(url), strOf);
      if e.Ok? && e.value.price != Some("$0.00") && ValidateExtractedData(url, e.value) {
        ValidateIgnoresTags(url, e.value, p);
        return;
      }
    }
    FallbackIsCopy(allow, fb, url, p);
  }

  lemma FallbackIsCopy(allow: bool, fb: map<string, Product>, url: string, p: Platform)
    requires FallbackPath(allow, fb, url, p).Ok?
    ensures IsFallbackCopy(fb, url, FallbackPath(allow, fb, url, p).value)
  {
    var k := if p.Tag() in fb then p.Tag() else "generic";
    assert FallbackPath(allow, fb, url, p).value == Tagged(fb[k], p, url);
  }

  /** A request record is kept only from a 200 the anti-bot check passed,
      with a real price, when it validates; with fallback off nothing else
      comes out of the request path. */
  lemma RequestAcceptance(fb: map<string, Product>, url: string, p: Platform, f: Fetch, doc: Doc, strOf: StrOf)
    requires RequestPath(false, fb, url, p, AntiBotVerdict(f), doc, strOf).Ok?
    ensures f.Got? && f.resp.status == 200 && !ContainsAny(Lower(f.resp.text), AntiBotMarkers)
    ensures var d := RequestPath(false, fb, url, p, AntiBotVerdict(f), doc, strOf).value;
      ExtractDataSpec(f.resp.text, doc, p, Some(url), strOf) == Ok(d.(platform := None, url := None)) &&
      d.price != Some("$0.00") && ValidateExtractedData(url, d)
  {
    var e := ExtractDataSpec(f.resp.text, doc, p, Some(url), strOf);
    ValidateIgnoresTags(url, e.value, p);
  }

  /** With fallback off the `except` block re-raises: `scrape_product` is
      the `try` block, so an invalid URL raises its `ValueError`. */
  lemma NoFallbackReraises(fb: map<string, Product>, url: string, page: Option<Page>, f: Fetch, doc: Doc, strOf: StrOf)
    ensures ScrapeProductSpec(false, fb, url, page, f, doc, strOf) == TryBlock(false, fb, url, page, f, doc, strOf)
    ensures UrlChecks(url).Err? ==> ScrapeProductSpec(false, fb, url, page, f, doc, strOf) == Err(UrlChecks(url).error)
  {
  }

  /** With fallback off, when neither Selenium nor the request gives an
      acceptable record, the `RuntimeError` naming the platform escapes. */
  lemma NoFallbackExhaustion(fb: map<string, Product>, url: string, page: Option<Page>, f: Fetch, doc: Doc, strOf: StrOf)
    requires UrlChecks(url).Ok?
    requires SeleniumSpec(page, UrlChecks(url).value, url, strOf).None?
    requires AntiBotVerdict(f).None?
    ensures ScrapeProductSpec(false, fb, url, page, f, doc, strOf) ==
      Err(PyRuntimeError("Scraping failed for platform: " + UrlChecks(url).value.Tag()))
  {
  }

  /** Fields `fb` leaves falsy are not merged: a record with none merges
      to nothing. */
  lemma MergeAllFalsy(d: Product, fb: Product)
    requires AllFalsy(fb)
    ensures MergeTruthy(d, fb) == d
  {
  }

  /** Merging the same record twice is merging it once. */
  lemma MergeIdempotent(d: Product, fb: Product)
    ensures MergeTruthy(MergeTruthy(d, fb), fb) == MergeTruthy(d, fb)
  {
  }

  /** A truthy field of `fb` always wins the merge. */
  lemma MergeTruthyWins(d: Product, fb: Product)
    ensures fb.title != "" ==> MergeTruthy(d, fb).title == fb.title
    ensures fb.price.Some? && fb.price.value != "" ==> MergeTruthy(d, fb).price == fb.price
    ensures fb.seller.Some? && fb.seller.value != "" ==> MergeTruthy(d, fb).seller == fb.seller
    ensures fb.reviews != [] ==> MergeTruthy(d, fb).reviews == fb.reviews
  {
  }

  // The bracket finding: `urlparse("http://[::1")` raises, and so does the
  // handler's second `urlparse` as written.

  const BracketUrl := "http://[::1"

  /** `urlparse` rejects `scheme://host` when the host opens a bracket
      it never closes. */
  lemma OpenBracketRejected(scheme: string, host: string)
    requires |scheme| > 0 && forall k :: 0 <= k < |scheme| ==> IsLower(scheme[k])
    requires NoneOf(host, {'/', '?', '#', '\t', '\r', '\n'})
    requires '[' in host && ']' !in host
    ensures Parse(scheme + "://" + host) == Err(InvalidIpv6)
  {
    assert NoneOf(host, {'\t', '\r', '\n'}) && NoneOf(host, {'/', '?', '#'});
    SchemeStage(scheme, host, "");
    NetlocSplitOff(host, "");
    var rest := "//" + host + "";
    assert rest[..2] == "//";
    assert Unbalanced(host);
    assert scheme + "://" + host + "" == scheme + "://" + host;
  }

  lemma BracketUrlRejected()
    ensures Parse(BracketUrl) == Err(InvalidIpv6)
  {
    var h := "[::1";
    assert h[0] == '[';
    assert forall k :: 0 <= k < |h| ==> h[k] in {'[', ':', '1'};
    assert ']' !in h;
    assert "http"[0] == 'h' && "http"[1] == 't' && "http"[2] == 't' && "http"[3] == 'p';
    OpenBracketRejected("http", h);
    assert "http" + "://" + h == BracketUrl;
  }

  /** As written, `scrape_product("http://[::1")` raises `ValueError`
      although fallback is on and the generic record is there. */
  lemma AsWrittenRaisesOnBracketUrl(fb: map<string, Product>, page: Option<Page>, f: Fetch, doc: Doc, strOf: StrOf)
    requires "generic" in fb
    ensures ScrapeProductAsWritten(true, fb, BracketUrl, page, f, doc, strOf) == Err(PyValueError(InvalidIpv6))
  {
    BracketUrlRejected();
  }

  /** With the corrected handler the same call returns the generic record,
      tagged `generic`. */
  lemma CorrectedBracketUrl(fb: map<string, Product>, page: Option<Page>, f: Fetch, doc: Doc, strOf: StrOf)
    requires "generic" in fb
    ensures ScrapeProductSpec(true, fb, BracketUrl, page, f, doc, strOf) == Ok(Tagged(fb["generic"], Generic, BracketUrl))
  {
    BracketUrlRejected();
  }

  /** As written, every URL `urlparse` rejects makes `scrape_product`
      raise that `ValueError` out of the handler, although fallback is on
      and the generic record is there. */
  lemma AsWrittenRaisesOnUnparsable(fb: map<string, Product>, url: string, page: Option<Page>, f: Fetch, doc: Doc, strOf: StrOf)
    requires "generic" in fb && Parse(url).Err?
    ensures ScrapeProductAsWritten(true, fb, url, page, f, doc, strOf) == Err(PyValueError(Parse(url).error))
  {
    EmptyUrlParses();
  }

  /** With the corrected handler every such URL gives the generic record,
      tagged `generic`. */
  lemma CorrectedOnUnparsable(fb: map<string, Product>, url: string, page: Option<Page>, f: Fetch, doc: Doc, strOf: StrOf)
    requires "generic" in fb && Parse(url).Err?
    ensures ScrapeProductSpec(true, fb, url, page, f, doc, strOf) == Ok(Tagged(fb["generic"], Generic, url))
  {
    EmptyUrlParses();
  }

  /** The empty URL has no netloc, so `urlparse` accepts it. */
  lemma EmptyUrlParses()
    ensures Parse("").Ok?
  {
    assert LStripC0("") == "";
    RemoveCharNoOp("", '\t');
    RemoveCharNoOp("", '\r');
    RemoveCharNoOp("", '\n');
    assert RawNetloc("") == "";
  }

  /** `http://[abc]/` */
  const BadHostUrl := "http" + "://" + ("[" + "abc" + "]") + "/"

  /** A bracketed host that is no address makes `urlparse` raise. */
  lemma BadHostUrlRejected()
    ensures Parse(BadHostUrl) == Err(NotAnAddress("abc"))
  {
    var h := "abc";
    var scheme := "http";
    assert h[0] == 'a' && h[1] == 'b' && h[2] == 'c';
    assert scheme[0] == 'h' && scheme[1] == 't' && scheme[2] == 't' && scheme[3] == 'p';
    assert "/"[0] == '/';
    WordHostRejected(scheme, h, "/");
  }

  /** `scheme://[word]path` raises for a lower-case word not starting
      with `v`. */
  lemma WordHostRejected(scheme: string, h: string, path: string)
    requires |scheme| > 0 && forall k :: 0 <= k < |scheme| ==> IsLower(scheme[k])
    requires h != "" && h[0] != 'v' && forall k :: 0 <= k < |h| ==> IsLower(h[k])
    requires path == "" || path[0] == '/'
    requires NoneOf(path, {'\t', '\r', '\n'})
    ensures Parse(scheme + "://" + ("[" + h + "]") + path) == Err(NotAnAddress(h))
  {
    assert NoneOf(h, {'/', '?', '#', '[', ']', '\t', '\r', '\n'});
    WordIsNoAddress(h);
    BracketedHostChecked(scheme, h, path);
  }

  /** So, as written, `scrape_product("http://[abc]/")` raises too. */
  lemma AsWrittenRaisesOnBadHost(fb: map<string, Product>, page: Option<Page>, f: Fetch, doc: Doc, strOf: StrOf)
    requires "generic" in fb
    ensures ScrapeProductAsWritten(true, fb, BadHostUrl, page, f, doc, strOf) == Err(PyValueError(NotAnAddress("abc")))
  {
    BadHostUrlRejected();
    AsWrittenRaisesOnUnparsable(fb, BadHostUrl, page, f, doc, strOf);
  }

  /** The two definitions differ only there: whenever the written handler
      does not raise, it returns what the corrected one returns. */
  lemma CorrectionOnlyRemovesTheRaise(allow: bool, fb: map<string, Product>, url: string, page: Option<Page>, f: Fetch, doc: Doc, strOf: StrOf)
    ensures ScrapeProductAsWritten(allow, fb, url, page, f, doc, strOf).Ok? ==>
      ScrapeProductAsWritten(allow, fb, url, page, f, doc, strOf) == ScrapeProductSpec(allow, fb, url, page, f, doc, strOf)
    ensures !allow ==> ScrapeProductAsWritten(allow, fb, url, page, f, doc, strOf) == ScrapeProductSpec(allow, fb, url, page, f, doc, strOf)
  {
  }
}
