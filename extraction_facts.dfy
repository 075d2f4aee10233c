/** What `extract_data` promises: where its errors come from, the shape of
    what it returns, and what happens to JSON-LD products and bare pages. */
module ExtractionFacts {
  import opened Common
  import opened Text
  import opened Numbers
  import opened Patterns
  import opened PyJson
  import opened Platforms
  import opened ScraperCore
  import opened Extraction

  /** A named Product candidate always supplies the product, titled with its
      stripped name, whatever the rest of it holds. */
  lemma NamedProductWins(d: map<string, Json>, strOf: StrOf)
    requires TypeCheck(Or(Get(d, "@type"), Get(d, "type"))) == IsProduct
    requires Or(Get(d, "name"), Get(d, "headline")).JStr? && Or(Get(d, "name"), Get(d, "headline")).s != ""
    ensures CandidateStep(JObj(d), strOf).Stop? && CandidateStep(JObj(d), strOf).found.Some?
    ensures CandidateStep(JObj(d), strOf).found.value.title == Strip(Or(Get(d, "name"), Get(d, "headline")).s)
  {
  }

  /** A Product candidate without a name never supplies a product: the scan
      goes on, or ends empty-handed when a field needs the unbound `data`. */
  lemma NamelessProductGivesNothing(d: map<string, Json>, strOf: StrOf)
    requires !Truthy(Or(Get(d, "name"), Get(d, "headline")))
    ensures ProductStep(d, strOf) == Continue || ProductStep(d, strOf) == Stop(None)
  {
  }

  /** The offer price is written `$D.CC` when `float()` reads it, and kept
      as it is otherwise. */
  lemma OfferPriceText(s: string, strOf: StrOf)
    ensures ParseFloat(s).Some? ==> PriceText(JStr(s), strOf) == Money(ParseFloat(s).value)
    ensures ParseFloat(s).None? ==> PriceText(JStr(s), strOf) == s
  {
  }

  /** A rating block whose value and count both read sets both, and
      nothing else. */
  lemma WithRatingReads(p: Product, agg: map<string, Json>, v: real, n: int)
    requires Truthy(Get(agg, "ratingValue")) && ToFloat(Get(agg, "ratingValue")) == Some(v)
    requires Truthy(Get(agg, "reviewCount")) && ToInt(Get(agg, "reviewCount")) == Some(n)
    ensures WithRating(Some(p), JObj(agg)) == Some(p.(rating := Some(v), reviewCount := Some(n)))
  {
  }

  /** Scripts that fail to parse, and candidates that let the scan go on,
      are skipped: the scan's result comes from the first that stops it. */
  lemma {:induction false} ScanSkipsContinuing(pre: seq<Json>, cs: seq<Json>, strOf: StrOf)
    requires forall k :: 0 <= k < |pre| ==> CandidateStep(pre[k], strOf) == Continue
    ensures ScanCandidates(pre + cs, strOf) == ScanCandidates(cs, strOf)
    decreases |pre|
  {
    if pre != [] {
      assert (pre + cs)[0] == pre[0];
      assert CandidateStep(pre[0], strOf) == Continue;
      assert (pre + cs)[1..] == pre[1..] + cs;
      assert forall k :: 0 <= k < |pre[1..]| ==> pre[1..][k] == pre[k + 1];
      ScanSkipsContinuing(pre[1..], cs, strOf);
    } else {
      assert pre + cs == cs;
    }
  }

  /** The `ValueError`s come from the two guards, and only from them. */
  lemma ExtractGuards(content: string, doc: Doc, platform: Platform, url: Option<string>, strOf: StrOf)
    ensures var r := ExtractDataSpec(content, doc, platform, url, strOf);
      (BadUrl(url) ==> r == Err(ValueError("Invalid URL format: " + url.value))) &&
      (!BadUrl(url) && ThinContent(content) ==> r == Err(ValueError("Insufficient content for scraping")))
  {
  }

  /** Past the guards, every failure is the `RuntimeError` naming the platform. */
  lemma ExtractLaterErrors(content: string, doc: Doc, platform: Platform, url: Option<string>, strOf: StrOf)
    requires !BadUrl(url) && !ThinContent(content)
    ensures ExtractDataSpec(content, doc, platform, url, strOf).Err? ==>
      ExtractDataSpec(content, doc, platform, url, strOf).error == ExtractionFailed(platform)
  {
    ExtractPastGuards(content, doc, platform, url, strOf);
  }

  /** On a platform without selectors, a JSON-LD product with a real title
      and price comes back as it is, with the seller and review divs of the
      page. */
  lemma JsonLdPassesThrough(content: string, doc: Doc, platform: Platform, url: Option<string>, strOf: StrOf, p: Product)
    requires !BadUrl(url) && !ThinContent(content) && PlatformConfig(platform).None?
    requires ScanScripts(doc.scripts, strOf) == Some(p) && p.title != "" && p.price != Some("$0.00")
    ensures ExtractDataSpec(content, doc, platform, url, strOf) ==
      Ok(p.(seller := FirstText(doc.select, SellerSelectors), reviews := if DivReviews(doc.divs) != [] then DivReviews(doc.divs) else p.reviews))
  {
    assert Scanned(doc, strOf) == p;
    PastGuardsFound(content, doc, platform, url, strOf, p);
    ConcludeUnread(p, doc, platform);
  }

  /** Without selectors and with a price, the page reads change nothing. */
  lemma ConcludeUnread(p: Product, doc: Doc, platform: Platform)
    requires PlatformConfig(platform).None? && p.title != "" && p.price != Some("$0.00")
    ensures Conclude(Prepared(p, doc, platform), doc, platform) ==
      Ok(p.(seller := FirstText(doc.select, SellerSelectors), reviews := if DivReviews(doc.divs) != [] then DivReviews(doc.divs) else p.reviews))
  {
    PreparedUnchanged(p, doc, platform);
    ConcludeTitled(p, doc, platform);
  }

  /** A titled product concludes with the page's seller and review divs. */
  lemma ConcludeTitled(d: Product, doc: Doc, platform: Platform)
    requires d.title != ""
    ensures Conclude(d, doc, platform) == Ok(d.(seller := FirstText(doc.select, SellerSelectors),
      reviews := if DivReviews(doc.divs) != [] then DivReviews(doc.divs) else d.reviews))
  {
  }

  /** Without selectors, a product whose price is already read passes the
      page reads untouched. */
  lemma PreparedUnchanged(p: Product, doc: Doc, platform: Platform)
    requires PlatformConfig(platform).None? && p.price != Some("$0.00")
    ensures Prepared(p, doc, platform) == p
  {
  }

  /** On a page none of whose selectors match, a product whose price is
      already read passes the page reads untouched. */
  lemma PreparedUnmatched(p: Product, doc: Doc, platform: Platform)
    requires doc.select == map[] && p.price != Some("$0.00")
    ensures Prepared(p, doc, platform) == p
  {
    ApplySelectorsUnmatched(p, PlatformConfig(platform));
  }

  /** Selectors that match nothing change nothing. */
  lemma ApplySelectorsUnmatched(p: Product, cfg: Option<Config>)
    ensures ApplySelectors(p, map[], cfg) == p
  {
  }

  /** Without selectors and without a `$` amount in the page text, the
      defaults pass the page reads untouched. */
  lemma PreparedDefaults(doc: Doc, platform: Platform)
    requires PlatformConfig(platform).None? && FirstMatching(DollarAmount, doc.textNodes).None?
    ensures Prepared(Defaults, doc, platform) == Defaults
  {
  }

  /** A page with nothing usable yields the defaults, with the seller found
      on it (none: `None`). */
  lemma BarePageDefaults(content: string, doc: Doc, platform: Platform, url: Option<string>, strOf: StrOf)
    requires !BadUrl(url) && !ThinContent(content) && PlatformConfig(platform).None?
    requires ScanScripts(doc.scripts, strOf).None? && FirstMatching(DollarAmount, doc.textNodes).None? && DivReviews(doc.divs) == []
    ensures ExtractDataSpec(content, doc, platform, url, strOf) == Ok(Defaults.(seller := FirstText(doc.select, SellerSelectors)))
  {
    assert Scanned(doc, strOf) == Defaults;
    PastGuardsFound(content, doc, platform, url, strOf, Defaults);
    DefaultsUnread(doc, platform);
  }

  lemma DefaultsUnread(doc: Doc, platform: Platform)
    requires PlatformConfig(platform).None? && FirstMatching(DollarAmount, doc.textNodes).None? && DivReviews(doc.divs) == []
    ensures Conclude(Prepared(Defaults, doc, platform), doc, platform) == Ok(Defaults.(seller := FirstText(doc.select, SellerSelectors)))
  {
    PreparedDefaults(doc, platform);
    ConcludeDefaults(doc, platform);
  }

  /** The defaults conclude with the page's seller when no review div reads. */
  lemma ConcludeDefaults(doc: Doc, platform: Platform)
    requires DivReviews(doc.divs) == []
    ensures Conclude(Defaults, doc, platform) == Ok(Defaults.(seller := FirstText(doc.select, SellerSelectors)))
  {
  }
}
