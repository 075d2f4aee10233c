/** `ProductScraper.extract_data` of `backend/scraper.py`: the input guards,
    the JSON-LD product scan, the platform selectors, the generic price and
    title fallbacks, the seller lookup and the review `div`s. The parsed page
    is an abstract `Doc`: what BeautifulSoup's calls return for it. */
module Extraction {
  import opened Common
  import opened Text
  import opened Numbers
  import opened Patterns
  import opened PyJson
  import opened Platforms
  import opened ScraperCore

  /** An element `select_one` found: `get_text()` and `get_text(strip=True)`. */
  datatype Elem = Elem(text: string, strippedText: string)

  /** A `div`: its `data-hook` attribute and `get_text(strip=True)`. */
  datatype Div = Div(hook: Option<string>, strippedText: string)

  /** The parsed page.
      `scripts`: each `application/ld+json` script, `None` where `json.loads` fails;
      `select`: the first element each selector finds (absent: none);
      `textNodes`: the page's text nodes in document order;
      `title`: `None` without a `<title>`, `Some(None)` when its `.string` is `None`;
      `divs`: every `div`, in document order. */
  datatype Doc = Doc(
    scripts: seq<Option<Json>>,
    select: map<string, Elem>,
    textNodes: seq<string>,
    title: Option<Option<string>>,
    divs: seq<Div>)

  datatype ExtractError = ValueError(msg: string) | RuntimeError(msg: string)

  /** Python's `str()` of a list or a dict, which this model leaves abstract. */
  type StrOf = Json -> string

  /** `str(j)` */
  function PyStr(j: Json, strOf: StrOf): string {
    match ScalarText(j)
    case Some(s) => s
    case None => strOf(j)
  }

  // ---------------------------------------------------------------- JSON-LD

  /** How the `@type` test treats a candidate's type value `t`. */
  datatype TypeVerdict = IsProduct | NotProduct | TypeRaises

  /** `types = [x.lower() for x in t]` or `[t.lower()]`, then
      `'product' in types or 'product' == (t or '').lower()`; an
      `AttributeError` anywhere ends the whole JSON-LD scan. */
  function TypeCheck(t: Json): (v: TypeVerdict)
    ensures v == IsProduct ==>
      (t.JStr? && Lower(t.s) == "product") ||
      (t.JArr? && exists k :: 0 <= k < |t.items| && t.items[k].JStr? && Lower(t.items[k].s) == "product")
    ensures !Truthy(t) ==> v == NotProduct
  {
    match t
    case JStr(s) => if Lower(s) == "product" then IsProduct else NotProduct
    case JArr(xs) =>
      if exists k :: 0 <= k < |xs| && !xs[k].JStr? then TypeRaises
      else if exists k :: 0 <= k < |xs| && Lower(xs[k].s) == "product" then IsProduct
      else if xs == [] then NotProduct
      else TypeRaises
    case _ => if Truthy(t) then TypeRaises else NotProduct
  }

  /** What one candidate makes of the scan: go on to the next candidate, or
      stop it, with the product dict if `data` was bound by then. */
  datatype Step = Continue | Stop(found: Option<Product>)

  /** The dict a named Product candidate starts. */
  function JsonLdRecord(name: string): Product {
    Product(Strip(name), None, None, None, None, [], None, None)
  }

  /** `"${float(str(p)):.2f}"`, or `str(p)` when `float()` rejects it. */
  function PriceText(p: Json, strOf: StrOf): string {
    match FloatOfStr(p)
    case Some(v) => Money(v)
    case None => PyStr(p, strOf)
  }

  /** The `aggregateRating` block: each of `float(r)` and `int(rc)` is stored
      when the value is truthy and converts; a failure (also the
      `NameError` of an unbound `data`) is swallowed. */
  function WithRating(data: Option<Product>, agg: Json): (r: Option<Product>)
    ensures r.Some? <==> data.Some?
    ensures r.Some? ==>
      r.value.title == data.value.title && r.value.price == data.value.price &&
      r.value.seller == data.value.seller && r.value.reviews == data.value.reviews &&
      r.value.platform == data.value.platform && r.value.url == data.value.url
  {
    if !agg.JObj? || data.None? then data
    else
      var r := Get(agg.fields, "ratingValue");
      var rc := Or(Get(agg.fields, "reviewCount"), Get(agg.fields, "ratingCount"));
      var d1 := if Truthy(r) && ToFloat(r).Some? then data.value.(rating := ToFloat(r)) else data.value;
      var d2 := if Truthy(rc) && ToInt(rc).Some? then d1.(reviewCount := ToInt(rc)) else d1;
      Some(d2)
  }

  /** `rv.get('reviewBody') or rv.get('description') or rv.get('name')` */
  function ReviewText(f: map<string, Json>): Json {
    Or(Or(Get(f, "reviewBody"), Get(f, "description")), Get(f, "name"))
  }

  /** The truthy review texts of `items`, or `None` when an item is not a
      dict (its `.get` raises). */
  function ReviewTexts(items: seq<Json>): (r: Option<seq<Json>>)
    ensures r.Some? ==> |r.value| <= |items| && forall k :: 0 <= k < |r.value| ==> Truthy(r.value[k])
    ensures r.None? <==> exists k :: 0 <= k < |items| && !items[k].JObj?
  {
    if items == [] then Some([])
    else if !items[0].JObj? then None
    else
      var rest := ReviewTexts(items[1..]);
      assert forall k :: 1 <= k < |items| ==> items[k] == items[1..][k - 1];
      if rest.None? then None
      else
        var t := ReviewText(items[0].fields);
        Some((if Truthy(t) then [t] else []) + rest.value)
  }

  /** The review list of a candidate: a dict is wrapped in a list, and
      anything but a non-empty list yields nothing. */
  function ReviewItems(raw: Json): seq<Json> {
    if raw.JObj? then [raw] else if raw.JArr? then raw.items else []
  }

  /** The first five items, `raw_reviews[:5]`. */
  function FirstFive(items: seq<Json>): (r: seq<Json>)
    ensures |r| <= 5 && |r| <= |items| && r == items[..|r|]
  {
    if |items| <= 5 then items else items[..5]
  }

  /** The end of a candidate: a bound `data` stops the scan with it. */
  function Finish(data: Option<Product>): Step {
    if data.Some? then Stop(data) else Continue
  }

  /** The body of the `if 'product' in types …` branch for the dict `d`:
      the name. */
  function ProductStep(d: map<string, Json>, strOf: StrOf): Step {
    var name := Or(Get(d, "name"), Get(d, "headline"));
    if Truthy(name) && !name.JStr? then Stop(None)
    else OfferStep(d, if Truthy(name) then Some(JsonLdRecord(name.s)) else None, strOf)
  }

  /** The offer price and the rating block. */
  function OfferStep(d: map<string, Json>, data: Option<Product>, strOf: StrOf): Step {
    var pv := OfferPrice(d);
    if Truthy(pv) && data.None? then Stop(None)
    else
      var data1 := if Truthy(pv) then Some(data.value.(price := Some(PriceText(pv, strOf)))) else data;
      ReviewStep(d, WithRating(data1, RatingBlock(d)))
  }

  /** `offers.get('price') or offers.get('priceCurrency')` when `offers` is a dict. */
  function OfferPrice(d: map<string, Json>): Json {
    var offers := Or(Get(d, "offers"), JObj(map[]));
    if offers.JObj? then Or(Get(offers.fields, "price"), Get(offers.fields, "priceCurrency")) else JNull
  }

  /** `d.get('aggregateRating') or {}` */
  function RatingBlock(d: map<string, Json>): Json {
    Or(Get(d, "aggregateRating"), JObj(map[]))
  }

  /** The review block. */
  function ReviewStep(d: map<string, Json>, data: Option<Product>): Step {
    var items := ReviewItems(Or(Or(Get(d, "review"), Get(d, "reviews")), JArr([])));
    if items == [] then Finish(data)
    else
      match ReviewTexts(FirstFive(items))
      case None => Stop(data)
      case Some(revs) =>
        if revs == [] then Finish(data)
        else if data.None? then Stop(None)
        else Finish(Some(data.value.(reviews := revs)))
  }

  /** One candidate of a script's payload. */
  function CandidateStep(cand: Json, strOf: StrOf): Step {
    if !cand.JObj? then Continue
    else
      match TypeCheck(Or(Get(cand.fields, "@type"), Get(cand.fields, "type")))
      case TypeRaises => Stop(None)
      case NotProduct => Continue
      case IsProduct => ProductStep(cand.fields, strOf)
  }

  /** A payload that is a list is its own candidate list. */
  function Candidates(payload: Json): seq<Json> {
    if payload.JArr? then payload.items else [payload]
  }

  /** The first candidate that stops the scan, if any does. */
  function ScanCandidates(cs: seq<Json>, strOf: StrOf): Step {
    if cs == [] then Continue
    else
      match CandidateStep(cs[0], strOf)
      case Continue => ScanCandidates(cs[1..], strOf)
      case Stop(d) => Stop(d)
  }

  /** The JSON-LD scan over the page's scripts: the product dict it leaves
      bound, if any. */
  function ScanScripts(scripts: seq<Option<Json>>, strOf: StrOf): Option<Product> {
    if scripts == [] then None
    else
      match scripts[0]
      case None => ScanScripts(scripts[1..], strOf)
      case Some(payload) =>
        match ScanCandidates(Candidates(payload), strOf)
        case Stop(d) => d
        case Continue => ScanScripts(scripts[1..], strOf)
  }

  /** `revs` gathered so far, then the texts of the rest, as one result. */
  function Prepend(revs: seq<Json>, rest: Option<seq<Json>>): Option<seq<Json>> {
    if rest.None? then None else Some(revs + rest.value)
  }

  /** The `for rv in raw_reviews[:5]` loop. */
  method CollectReviews(items: seq<Json>) returns (r: Option<seq<Json>>)
    ensures r == ReviewTexts(items)
  {
    var revs: seq<Json> := [];
    var i := 0;
    assert items[0..] == items;
    assert ReviewTexts(items).Some? ==> [] + ReviewTexts(items).value == ReviewTexts(items).value;
    while i < |items|
      invariant 0 <= i <= |items|
      invariant ReviewTexts(items) == Prepend(revs, ReviewTexts(items[i..]))
    {
      var rv := items[i];
      assert items[i..][0] == rv && items[i..][1..] == items[i + 1..];
      if !rv.JObj? {
        assert ReviewTexts(items[i..]) == None;
        assert ReviewTexts(items) == None;
        r := None;
        return;
      }
      var text := ReviewText(rv.fields);
      var rest := ReviewTexts(items[i + 1..]);
      if Truthy(text) {
        assert ReviewTexts(items[i..]) == Prepend([text], rest);
        if rest.Some? {
          assert revs + ([text] + rest.value) == revs + [text] + rest.value;
        }
        revs := revs + [text];
      } else {
        assert ReviewTexts(items[i..]) == Prepend([], rest);
        if rest.Some? {
          assert [] + rest.value == rest.value;
        }
      }
      i := i + 1;
    }
    assert items[i..] == [];
    assert ReviewTexts(items[i..]) == Some([]);
    assert revs + [] == revs;
    r := Some(revs);
  }

  /** One candidate, with its review loop. */
  method ReadCandidate(cand: Json, strOf: StrOf) returns (step: Step)
    ensures step == CandidateStep(cand, strOf)
  {
    if !cand.JObj? {
      return Continue;
    }
    var d := cand.fields;
    var verdict := TypeCheck(Or(Get(d, "@type"), Get(d, "type")));
    if verdict == TypeRaises {
      return Stop(None);
    } else if verdict == NotProduct {
      return Continue;
    }
    var name := Or(Get(d, "name"), Get(d, "headline"));
    if Truthy(name) && !name.JStr? {
      return Stop(None);
    }
    var data: Option<Product> := None;
    if Truthy(name) {
      data := Some(JsonLdRecord(name.s));
    }
    var offers := Or(Get(d, "offers"), JObj(map[]));
    if offers.JObj? {
      var pv := Or(Get(offers.fields, "price"), Get(offers.fields, "priceCurrency"));
      if Truthy(pv) {
        if data.None? {
          return Stop(None);
        }
        data := Some(data.value.(price := Some(PriceText(pv, strOf))));
      }
    }
    data := WithRating(data, Or(Get(d, "aggregateRating"), JObj(map[])));
    var items := ReviewItems(Or(Or(Get(d, "review"), Get(d, "reviews")), JArr([])));
    if items != [] {
      var texts := CollectReviews(FirstFive(items));
      if texts.None? {
        return Stop(data);
      }
      if texts.value != [] {
        if data.None? {
          return Stop(None);
        }
        data := Some(data.value.(reviews := texts.value));
      }
    }
    step := Finish(data);
  }

  /** The two nested loops over scripts and their candidates. */
  method ScanJsonLd(scripts: seq<Option<Json>>, strOf: StrOf) returns (found: Option<Product>)
    ensures found == ScanScripts(scripts, strOf)
  {
    var i := 0;
    while i < |scripts|
      invariant 0 <= i <= |scripts|
      invariant ScanScripts(scripts, strOf) == ScanScripts(scripts[i..], strOf)
    {
      assert scripts[i..][1..] == scripts[i + 1..];
      if scripts[i].Some? {
        var cs := Candidates(scripts[i].value);
        var j := 0;
        while j < |cs|
          invariant 0 <= j <= |cs|
          invariant ScanCandidates(cs, strOf) == ScanCandidates(cs[j..], strOf)
        {
          assert cs[j..][1..] == cs[j + 1..];
          var step := ReadCandidate(cs[j], strOf);
          if step.Stop? {
            return step.found;
          }
          j := j + 1;
        }
        assert cs[j..] == [];
      }
      i := i + 1;
    }
    assert scripts[i..] == [];
    found := None;
  }

  // ------------------------------------------------------- rest of the page

  /** The record used when the scan leaves `data` unbound. */
  const Defaults := Product("Unknown Product", Some("$0.00"), Some(0.0), Some(0), Some("Unknown Seller"), [], None, None)

  /** The selector block for a platform with a config; each read is skipped
      when its selector finds nothing. */
  function ApplySelectors(data: Product, select: map<string, Elem>, cfg: Option<Config>): (r: Product)
    ensures cfg.None? ==> r == data
    ensures r.seller == data.seller && r.reviews == data.reviews && r.platform == data.platform && r.url == data.url
  {
    match cfg
    case None => data
    case Some(c) =>
      var d1 := if c.title in select then data.(title := select[c.title].strippedText) else data;
      var d2 := if c.price in select then d1.(price := Some(ExtractPrice(select[c.price].text))) else d1;
      var d3 := if c.rating in select then WithFirstRating(d2, select[c.rating].text) else d2;
      if c.reviewCount in select then WithFirstCount(d3, RemoveChar(select[c.reviewCount].text, ',')) else d3
  }

  /** `re.search(r'\d+\.?\d*', text)` read by `float()`. */
  function WithFirstRating(data: Product, text: string): Product {
    match SearchText(DecimalNumber, text)
    case None => data
    case Some(m) => (match ParseFloat(m) case Some(v) => data.(rating := Some(v)) case None => data)
  }

  /** `re.search(r'\d+', text)` read by `int()`. */
  function WithFirstCount(data: Product, text: string): Product {
    match SearchText(Integer, text)
    case None => data
    case Some(m) => (match ParseInt(m) case Some(v) => data.(reviewCount := Some(v)) case None => data)
  }

  /** A price still at `$0.00` becomes the raw `$…` match of the first text
      node that has one, without normalising it. */
  function GenericPrice(data: Product, textNodes: seq<string>): Product {
    if data.price != Some("$0.00") then data
    else
      match FirstMatching(DollarAmount, textNodes)
      case None => data
      case Some(t) => data.(price := SearchText(DollarAmount, t))
  }

  /** The `<title>` fallback for an empty title; a title tag whose `.string`
      is `None` raises. */
  function PageTitle(data: Product, title: Option<Option<string>>): Option<Product> {
    if data.title != "" then Some(data)
    else
      match title
      case None => Some(data)
      case Some(None) => None
      case Some(Some(s)) => Some(data.(title := Strip(s)))
  }

  const SellerSelectors: seq<string> := ["#sellerProfileTriggerId", ".seller-name", ".brand", ".sold-by", ".merchant-name"]

  /** The selector finds an element with some stripped text. */
  predicate HasText(select: map<string, Elem>, sel: string) {
    sel in select && select[sel].strippedText != ""
  }

  /** The stripped text of the first selector of `sels` with some. */
  function FirstText(select: map<string, Elem>, sels: seq<string>): (r: Option<string>)
    ensures r.None? <==> forall k :: 0 <= k < |sels| ==> !HasText(select, sels[k])
  {
    if sels == [] then None
    else if HasText(select, sels[0]) then Some(select[sels[0]].strippedText)
    else
      assert forall k :: 1 <= k < |sels| ==> sels[k] == sels[1..][k - 1];
      FirstText(select, sels[1..])
  }

  /** What `FirstText` finds is the text of a selector with text, and every
      selector before that one has none. */
  lemma {:induction false} FirstTextIsFirst(select: map<string, Elem>, sels: seq<string>)
    requires FirstText(select, sels).Some?
    ensures exists k ::
      0 <= k < |sels| && HasText(select, sels[k]) &&
      select[sels[k]].strippedText == FirstText(select, sels).value &&
      (forall j :: 0 <= j < k ==> !HasText(select, sels[j]))
  {
    if !HasText(select, sels[0]) {
      var rest := sels[1..];
      FirstTextIsFirst(select, rest);
      var k :| 0 <= k < |rest| && HasText(select, rest[k]) &&
        select[rest[k]].strippedText == FirstText(select, rest).value &&
        (forall j :: 0 <= j < k ==> !HasText(select, rest[j]));
      assert sels[k + 1] == rest[k];
      assert forall j :: 1 <= j < k + 1 ==> sels[j] == rest[j - 1];
    } else {
      assert HasText(select, sels[0]);
    }
  }

  /** The seller loop: the first seller selector with text wins. */
  method FindSeller(select: map<string, Elem>) returns (seller: Option<string>)
    ensures seller == FirstText(select, SellerSelectors)
  {
    var i := 0;
    while i < |SellerSelectors|
      invariant 0 <= i <= |SellerSelectors|
      invariant FirstText(select, SellerSelectors) == FirstText(select, SellerSelectors[i..])
    {
      var sel := SellerSelectors[i];
      assert SellerSelectors[i..][1..] == SellerSelectors[i + 1..];
      if sel in select && select[sel].strippedText != "" {
        return Some(select[sel].strippedText);
      }
      i := i + 1;
    }
    return None;
  }

  /** The stripped texts of the non-empty `data-hook="review-body"` divs. */
  function DivReviews(divs: seq<Div>): (r: seq<Json>)
    ensures |r| <= |divs|
    ensures forall k :: 0 <= k < |r| ==> r[k].JStr? && r[k].s != ""
  {
    if divs == [] then []
    else DivReviews(divs[..|divs| - 1]) + DivReview(divs[|divs| - 1])
  }

  function DivReview(div: Div): seq<Json> {
    if div.hook == Some("review-body") && div.strippedText != "" then [JStr(div.strippedText)] else []
  }

  /** Reviews of consecutive stretches of the page add up. */
  lemma {:induction false} DivReviewsAppend(a: seq<Div>, b: seq<Div>)
    ensures DivReviews(a + b) == DivReviews(a) + DivReviews(b)
    decreases |b|
  {
    if b == [] {
      assert a + b == a;
    } else {
      var b' := b[..|b| - 1];
      assert (a + b)[..|a + b| - 1] == a + b';
      DivReviewsAppend(a, b');
    }
  }

  /** The `for div in soup.find_all('div')` loop. */
  method CollectDivReviews(divs: seq<Div>) returns (reviews: seq<Json>)
    ensures reviews == DivReviews(divs)
  {
    reviews := [];
    var i := 0;
    while i < |divs|
      invariant 0 <= i <= |divs|
      invariant reviews == DivReviews(divs[..i])
    {
      var div := divs[i];
      assert divs[..i + 1] == divs[..i] + [div];
      DivReviewsAppend(divs[..i], [div]);
      assert DivReviews([div]) == DivReview(div) by { assert [div][..0] == []; }
      if div.hook == Some("review-body") {
        var text := div.strippedText;
        if text != "" {
          reviews := reviews + [JStr(text)];
        }
      }
      i := i + 1;
    }
    assert divs[..i] == divs;
  }

  /** A URL that is given, non-empty and not `http://`/`https://`. */
  predicate BadUrl(url: Option<string>) {
    url.Some? && url.value != "" && !StartsWith(url.value, "http://") && !StartsWith(url.value, "https://")
  }

  /** Empty content, or under 100 characters once stripped. */
  predicate ThinContent(content: string) {
    content == "" || |Strip(content)| < 100
  }

  function ExtractionFailed(platform: Platform): ExtractError {
    RuntimeError("Data extraction failed for platform: " + platform.Tag())
  }

  /** What every candidate's product holds: no platform, url or seller yet,
      at most five reviews, each of them truthy. */
  predicate JsonLdShaped(p: Product) {
    p.platform.None? && p.url.None? && p.seller.None? && |p.reviews| <= 5 &&
    forall k :: 0 <= k < |p.reviews| ==> Truthy(p.reviews[k])
  }

  lemma ProductStepShaped(d: map<string, Json>, strOf: StrOf)
    ensures ProductStep(d, strOf).Stop? && ProductStep(d, strOf).found.Some? ==> JsonLdShaped(ProductStep(d, strOf).found.value)
  {
    var name := Or(Get(d, "name"), Get(d, "headline"));
    if !(Truthy(name) && !name.JStr?) {
      OfferStepShaped(d, if Truthy(name) then Some(JsonLdRecord(name.s)) else None, strOf);
    }
  }

  lemma OfferStepShaped(d: map<string, Json>, data: Option<Product>, strOf: StrOf)
    requires data.Some? ==> JsonLdShaped(data.value)
    ensures OfferStep(d, data, strOf).Stop? && OfferStep(d, data, strOf).found.Some? ==> JsonLdShaped(OfferStep(d, data, strOf).found.value)
  {
    var pv := OfferPrice(d);
    if !(Truthy(pv) && data.None?) {
      var data1 := if Truthy(pv) then Some(data.value.(price := Some(PriceText(pv, strOf)))) else data;
      ReviewStepShaped(d, WithRating(data1, RatingBlock(d)));
    }
  }

  lemma ReviewStepShaped(d: map<string, Json>, data: Option<Product>)
    requires data.Some? ==> JsonLdShaped(data.value)
    ensures ReviewStep(d, data).Stop? && ReviewStep(d, data).found.Some? ==> JsonLdShaped(ReviewStep(d, data).found.value)
  {
    var items := ReviewItems(Or(Or(Get(d, "review"), Get(d, "reviews")), JArr([])));
    if items != [] {
      var rt := ReviewTexts(FirstFive(items));
      if rt.Some? {
        assert |rt.value| <= 5;
      }
    }
  }

  lemma {:induction false} ScanCandidatesShaped(cs: seq<Json>, strOf: StrOf)
    ensures ScanCandidates(cs, strOf).Stop? && ScanCandidates(cs, strOf).found.Some? ==> JsonLdShaped(ScanCandidates(cs, strOf).found.value)
    decreases |cs|
  {
    if cs != [] {
      if cs[0].JObj? {
        ProductStepShaped(cs[0].fields, strOf);
      }
      ScanCandidatesShaped(cs[1..], strOf);
    }
  }

  /** The scan's product has the shape a candidate gives it. */
  lemma {:induction false} ScanScriptsShaped(scripts: seq<Option<Json>>, strOf: StrOf)
    ensures ScanScripts(scripts, strOf).Some? ==> JsonLdShaped(ScanScripts(scripts, strOf).value)
    decreases |scripts|
  {
    if scripts != [] {
      if scripts[0].Some? {
        ScanCandidatesShaped(Candidates(scripts[0].value), strOf);
      }
      ScanScriptsShaped(scripts[1..], strOf);
    }
  }

  /** What the JSON-LD scan leaves for the page reads: its product, or the
      defaults when no candidate supplied one. */
  function Scanned(doc: Doc, strOf: StrOf): (p: Product)
    ensures p.platform.None? && p.url.None?
    ensures ScanScripts(doc.scripts, strOf).Some? ==> p == ScanScripts(doc.scripts, strOf).value
    ensures ScanScripts(doc.scripts, strOf).None? ==> p == Defaults
  {
    ScanScriptsShaped(doc.scripts, strOf);
    ScanScripts(doc.scripts, strOf).GetOr(Defaults)
  }

  /** The page reads after the scan: the platform selectors, then the
      generic price fallback. */
  function Prepared(base: Product, doc: Doc, platform: Platform): (d: Product)
    ensures d.seller == base.seller && d.reviews == base.reviews && d.platform == base.platform && d.url == base.url
  {
    GenericPrice(ApplySelectors(base, doc.select, PlatformConfig(platform)), doc.textNodes)
  }

  /** The title check, then the seller and the review divs. */
  function Conclude(d: Product, doc: Doc, platform: Platform): (r: Result<Product, ExtractError>)
    ensures r.Err? ==> r.error == ExtractionFailed(platform)
    ensures r.Ok? ==>
      r.value.title != "" && r.value.seller == FirstText(doc.select, SellerSelectors) &&
      r.value.platform == d.platform && r.value.url == d.url &&
      r.value.reviews == (if DivReviews(doc.divs) != [] then DivReviews(doc.divs) else d.reviews)
    ensures d.title != "" ==> r == Ok(d.(seller := FirstText(doc.select, SellerSelectors),
      reviews := if DivReviews(doc.divs) != [] then DivReviews(doc.divs) else d.reviews))
  {
    match PageTitle(d, doc.title)
    case None => Err(ExtractionFailed(platform))
    case Some(d') =>
      if d'.title == "" then Err(ExtractionFailed(platform))
      else
        var reviews := DivReviews(doc.divs);
        Ok(d'.(seller := FirstText(doc.select, SellerSelectors), reviews := if reviews != [] then reviews else d'.reviews))
  }

  /** `extract_data(content, platform, url)` on the page `doc` parsed from `content`. */
  function ExtractDataSpec(content: string, doc: Doc, platform: Platform, url: Option<string>, strOf: StrOf): (r: Result<Product, ExtractError>)
    ensures r.Ok? ==>
      r.value.title != "" && r.value.seller == FirstText(doc.select, SellerSelectors) &&
      r.value.platform.None? && r.value.url.None? &&
      (DivReviews(doc.divs) != [] ==> r.value.reviews == DivReviews(doc.divs))
  {
    if BadUrl(url) then Err(ValueError("Invalid URL format: " + url.value))
    else if ThinContent(content) then Err(ValueError("Insufficient content for scraping"))
    else Conclude(Prepared(Scanned(doc, strOf), doc, platform), doc, platform)
  }

  /** The title check, the seller loop and the review-div loop. */
  method ConcludeData(d: Product, doc: Doc, platform: Platform) returns (r: Result<Product, ExtractError>)
    ensures r == Conclude(d, doc, platform)
  {
    var titled := PageTitle(d, doc.title);
    if titled.None? || titled.value.title == "" {
      return Err(ExtractionFailed(platform));
    }
    var data := titled.value;
    var seller := FindSeller(doc.select);
    data := data.(seller := seller);
    var reviews := CollectDivReviews(doc.divs);
    if reviews != [] {
      data := data.(reviews := reviews);
    }
    r := Ok(data);
  }

  /** Past the two guards, `extract_data` is the scan, the page reads and
      the conclusion. */
  lemma ExtractPastGuards(content: string, doc: Doc, platform: Platform, url: Option<string>, strOf: StrOf)
    requires !BadUrl(url) && !ThinContent(content)
    ensures ExtractDataSpec(content, doc, platform, url, strOf) ==
      Conclude(Prepared(Scanned(doc, strOf), doc, platform), doc, platform)
  {
  }

  /** Past the guards, `extract_data` concludes on what the scan found. */
  lemma PastGuardsFound(content: string, doc: Doc, platform: Platform, url: Option<string>, strOf: StrOf, found: Product)
    requires !BadUrl(url) && !ThinContent(content) && Scanned(doc, strOf) == found
    ensures ExtractDataSpec(content, doc, platform, url, strOf) == Conclude(Prepared(found, doc, platform), doc, platform)
  {
    ExtractPastGuards(content, doc, platform, url, strOf);
  }

  /** `extract_data`, step by step. */
  method ExtractData(content: string, doc: Doc, platform: Platform, url: Option<string>, strOf: StrOf)
    returns (r: Result<Product, ExtractError>)
    ensures r == ExtractDataSpec(content, doc, platform, url, strOf)
  {
    if url.Some? && url.value != "" && !StartsWith(url.value, "http://") && !StartsWith(url.value, "https://") {
      return Err(ValueError("Invalid URL format: " + url.value));
    }
    if content == "" || |Strip(content)| < 100 {
      return Err(ValueError("Insufficient content for scraping"));
    }
    var found := ScanJsonLd(doc.scripts, strOf);
    var data := if found.Some? then found.value else Defaults;
    PastGuardsFound(content, doc, platform, url, strOf, data);
    var prepared := Prepared(data, doc, platform);
    r := ConcludeData(prepared, doc, platform);
  }
}
