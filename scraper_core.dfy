/** The pure parts of `backend/scraper.py`: the product record, platform
    detection, price normalisation, the extracted-data validator and the
    fallback table. */
module ScraperCore {
  import opened Common
  import opened Text
  import opened Numbers
  import opened Patterns
  import opened Urls
  import opened PyJson
  import opened Platforms

  /** The product dict: `price`, `rating`, `review_count` and `seller` may
      hold `None`; `reviews` holds the `text` of each `{'text': …}` entry;
      `platform` and `url` are `None` while those keys are absent. */
  datatype Product = Product(
    title: string,
    price: Option<string>,
    rating: Option<real>,
    reviewCount: Option<int>,
    seller: Option<string>,
    reviews: seq<Json>,
    platform: Option<Platform>,
    url: Option<string>)

  /** `detect_platform(netloc)` */
  function DetectPlatform(netloc: string): (p: Platform)
    ensures p in {Amazon, Ebay, Daraz, AliExpress, Walmart, Generic}
  {
    var n := Lower(netloc);
    if Contains(n, "amazon.") then Amazon
    else if Contains(n, "ebay.") then Ebay
    else if Contains(n, "daraz.") then Daraz
    else if Contains(n, "aliexpress") || Contains(n, "taobao") || Contains(n, "tmall") then AliExpress
    else if Contains(n, "walmart") then Walmart
    else Generic
  }

  const DetectRules: Rules := [
    (Amazon, ["amazon."]), (Ebay, ["ebay."]), (Daraz, ["daraz."]),
    (AliExpress, ["aliexpress", "taobao", "tmall"]), (Walmart, ["walmart"])]

  /** The detector is the ordered first-hit classification over its marker
      table, applied to the lower-cased host. */
  lemma DetectPlatformIsFirstHit(netloc: string)
    ensures DetectPlatform(netloc) == Classify(DetectRules, Lower(netloc))
  {
    var n := Lower(netloc);
    var r := DetectRules;
    assert ContainsAny(n, r[0].1) <==> Contains(n, "amazon.") by { assert r[0].1[0] == "amazon."; }
    assert ContainsAny(n, r[1].1) <==> Contains(n, "ebay.") by { assert r[1].1[0] == "ebay."; }
    assert ContainsAny(n, r[2].1) <==> Contains(n, "daraz.") by { assert r[2].1[0] == "daraz."; }
    assert ContainsAny(n, r[3].1) <==> Contains(n, "aliexpress") || Contains(n, "taobao") || Contains(n, "tmall") by {
      var ms := r[3].1;
      assert |ms| == 3 && ms[0] == "aliexpress" && ms[1] == "taobao" && ms[2] == "tmall";
    }
    assert ContainsAny(n, r[4].1) <==> Contains(n, "walmart") by { assert r[4].1[0] == "walmart"; }
  }

  /** `extract_price(text)` */
  function ExtractPrice(text: string): string {
    if text == "" then "$0.00"
    else match SearchText(DollarAmount, text)
      case Some(raw) => FromDollarMatch(raw)
      case None =>
        match SearchText(GroupedNumber, text)
        case Some(raw2) => FromNumberMatch(raw2)
        case None => "$0.00"
  }

  /** The `$…` branch: spaces and commas dropped, then the number reformatted. */
  function FromDollarMatch(raw: string): string {
    var cleaned := RemoveChar(RemoveChar(raw, ' '), ',');
    match SearchText(DecimalNumber, cleaned)
    case Some(num) => (match ParseUnsigned(num) case Some(v) => Money(v) case None => cleaned)
    case None => cleaned
  }

  /** The bare-number branch: commas dropped, then reformatted if `float()` reads it. */
  function FromNumberMatch(raw2: string): string {
    var cleaned2 := RemoveChar(raw2, ',');
    match ParseFloat(cleaned2)
    case Some(v) => Money(v)
    case None => "$" + cleaned2
  }

  lemma {:induction false} RemoveCharKeepsHead(s: string, c: char)
    requires s != [] && s[0] != c
    ensures RemoveChar(s, c) != [] && RemoveChar(s, c)[0] == s[0]
  {
  }

  /** Whatever the input, the normalised price starts with `$`. */
  lemma ExtractPriceDollar(text: string)
    ensures |ExtractPrice(text)| > 0 && ExtractPrice(text)[0] == '$'
  {
    if text != "" {
      match SearchText(DollarAmount, text)
      case Some(raw) =>
        var (a, b) := Search(DollarAmount, text).value;
        assert raw == text[a..b] && text[a..a + 1] == "$";
        assert text[a] == text[a..a + 1][0] == '$';
        assert raw[0] == text[a];
        RemoveCharKeepsHead(raw, ' ');
        RemoveCharKeepsHead(RemoveChar(raw, ' '), ',');
      case None =>
    }
  }

  /** Text with no digit and no comma has no price in it. */
  lemma ExtractPriceOfDigitless(text: string)
    requires forall k :: 0 <= k < |text| ==> !IsDigitOrComma(text[k])
    ensures ExtractPrice(text) == "$0.00"
  {
    forall k | 0 <= k <= |text| ensures MatchAt(DollarAmount, text, k).None? {
      if k + 1 <= |text| && text[k..k + 1] == "$" {
        assert RunLen(text, k + 1, IsDigitOrComma) == 0;
        if k + 2 < |text| {
          assert !IsDigitOrComma(text[k + 2]);
        }
      }
    }
    forall k | 0 <= k <= |text| ensures MatchAt(GroupedNumber, text, k).None? {
      assert text[k..k + 0] == "";
    }
  }

  /** A comma with no digit still counts as a number, and leaves a bare `$`. */
  lemma ExtractPriceOfLoneComma()
    ensures ExtractPrice(",") == "$"
  {
    LoneCommaNoDollar();
    LoneCommaNumber();
    LoneCommaReformatted();
  }

  lemma LoneCommaNoDollar()
    ensures SearchText(DollarAmount, ",").None?
  {
    var s := ",";
    assert MatchAt(DollarAmount, s, 0).None? by { assert s[0..1][0] == ',' && "$"[0] == '$'; }
    assert MatchAt(DollarAmount, s, 1).None?;
    assert SearchFrom(DollarAmount, s, 1).None?;
  }

  lemma LoneCommaNumber()
    ensures SearchText(GroupedNumber, ",") == Some(",")
  {
    var s := ",";
    assert s[0..0] == "";
    RunLenExact(s, 0, 1, IsDigitOrComma);
    assert MatchAt(GroupedNumber, s, 0) == Some(1);
    assert s[0..1] == s;
  }

  lemma LoneCommaReformatted()
    ensures FromNumberMatch(",") == "$"
  {
    assert RemoveChar(",", ',') == "";
    assert Split("", '.') == [""];
  }

  /** `"$" + CentsText(c)`, the text `Money` writes for `c` cents. */
  lemma MoneyText(c: nat)
    ensures Money(c as real / 100.0) == "$" + CentsText(c)
  {
    CentsOfCents(c);
  }

  /** The shape of `"$D.CC"`: a dollar sign, one or more digits, a point
      and two digits. */
  predicate DollarShape(s: string) {
    |s| >= 5 && s[0] == '$' && s[|s| - 3] == '.' && IsDigit(s[|s| - 2]) && IsDigit(s[|s| - 1]) &&
    forall k :: 1 <= k < |s| - 3 ==> IsDigit(s[k])
  }

  /** `"$" + CentsText(c)` has that shape, and nothing the clean-up drops. */
  lemma DollarTextShape(c: nat, s: string)
    requires s == "$" + CentsText(c)
    ensures DollarShape(s) && s[1..] == CentsText(c)
  {
    var w := NatToString(c / 100);
    assert forall k :: 1 <= k < 1 + |w| ==> s[k] == w[k - 1];
  }

  /** Such a text has no space and no comma for the clean-up to drop. */
  lemma DollarShapeClean(s: string)
    requires DollarShape(s)
    ensures RemoveChar(s, ' ') == s && RemoveChar(s, ',') == s
  {
    assert forall k :: 0 <= k < |s| ==> s[k] != ' ' && s[k] != ',';
    RemoveCharNoOp(s, ' ');
    RemoveCharNoOp(s, ',');
  }

  /** The dollar pattern matches the whole of such a text. */
  lemma DollarMatchWhole(s: string)
    requires DollarShape(s)
    ensures SearchText(DollarAmount, s) == Some(s)
  {
    assert s[0..1] == "$";
    RunLenExact(s, 1, |s| - 4, IsDigitOrComma);
    RunLenExact(s, |s| - 2, 2, IsDigit);
    assert MatchAt(DollarAmount, s, 0) == Some(|s|);
    assert s[0..|s|] == s;
  }

  /** The plain-number pattern skips the dollar sign and matches the rest. */
  lemma DecimalMatchAfterDollar(s: string)
    requires DollarShape(s)
    ensures SearchText(DecimalNumber, s) == Some(s[1..])
  {
    assert s[0..0] == "" && s[1..1] == "";
    assert MatchAt(DecimalNumber, s, 0).None?;
    RunLenExact(s, 1, |s| - 4, IsDigit);
    RunLenExact(s, |s| - 2, 2, IsDigit);
    assert MatchAt(DecimalNumber, s, 1) == Some(|s|);
    SearchFromFinds(DecimalNumber, s, 0, 1);
    assert s[1..|s|] == s[1..];
  }

  /** A price the normaliser writes is normalised already: for every
      non-negative number of cents `c`, `"$D.CC"` maps to itself. */
  lemma ExtractPriceFixesMoney(c: nat)
    ensures ExtractPrice(Money(c as real / 100.0)) == Money(c as real / 100.0)
  {
    var s, num := MoneyTextFacts(c);
    MoneyReadsBack(c, s, num);
    DollarBranchFixed(s, num);
  }

  /** What the two patterns and the clean-up see in `Money(c / 100)`. */
  lemma MoneyTextFacts(c: nat) returns (s: string, num: string)
    ensures s == Money(c as real / 100.0)
    ensures SearchText(DollarAmount, s) == Some(s)
    ensures RemoveChar(s, ' ') == s && RemoveChar(s, ',') == s
    ensures SearchText(DecimalNumber, s) == Some(num) && ParseUnsigned(num) == Some(c as real / 100.0)
  {
    s := "$" + CentsText(c);
    num := CentsText(c);
    MoneyText(c);
    DollarTextShape(c, s);
    DollarShapeClean(s);
    DollarMatchWhole(s);
    DecimalMatchAfterDollar(s);
    CentsTextValue(c);
  }

  lemma MoneyReadsBack(c: nat, s: string, num: string)
    requires s == Money(c as real / 100.0) && ParseUnsigned(num) == Some(c as real / 100.0)
    ensures ParseUnsigned(num).Some? && Money(ParseUnsigned(num).value) == s
  {
  }

  /** When the dollar match is the whole clean text and its number is
      written back as that text, the normaliser returns the text unchanged. */
  lemma DollarBranchFixed(s: string, num: string)
    requires SearchText(DollarAmount, s) == Some(s)
    requires RemoveChar(s, ' ') == s && RemoveChar(s, ',') == s
    requires SearchText(DecimalNumber, s) == Some(num) && ParseUnsigned(num).Some?
    requires Money(ParseUnsigned(num).value) == s
    ensures ExtractPrice(s) == s
  {
  }

  /** `(title + ' ' + str(seller)).lower()`; a `None` seller prints as `None`. */
  function Haystack(data: Product): string {
    Lower(data.title + " " + (match data.seller case Some(s) => s case None => "None"))
  }

  /** The product id of the leftmost `/dp/…` or `/gp/product/…` match. */
  function AsinOf(url: string): (id: Option<string>)
    ensures id.Some? ==> |id.value| == 10
  {
    match Search(AsinPath, url)
    case Some((a, e)) => Some(url[e - 10..e])
    case None => None
  }

  /** The digits after the leftmost `/itm/`. */
  function EbayItemOf(url: string): (id: Option<string>)
    ensures id.Some? ==> id.value != "" && AllDigits(id.value)
  {
    match Search(EbayItem, url)
    case Some((a, e)) =>
      assert forall k :: a + 5 <= k < e ==> IsDigit(url[k]);
      Some(url[a + 5..e])
    case None => None
  }

  /** The distinct `[a-z0-9]{3,}` tokens of `s`. */
  function TokenSet(s: string): set<string> { set t | t in Tokens(s) }

  /** The title-similarity fallback on the lower-cased path and title. */
  predicate TitleMatchesPath(path: string, title: string) {
    if title == "" || title == "unknown product" then false
    else
      var u := TokenSet(path);
      var t := TokenSet(title);
      if u == {} || t == {} then true
      else (|u * t| as real) / (Max(1, Min(|u|, |t|)) as real) >= 0.25
  }

  /** `validate_extracted_data(url, data)` */
  predicate ValidateExtractedData(url: string, data: Product) {
    match Parse(url)
    case Err(_) => false
    case Ok(p) =>
      var platform := DetectPlatform(Lower(p.netloc));
      if platform == Generic then data.title != "" && data.title != "Unknown Product"
      else if platform == Amazon && AsinOf(url).Some? && Contains(Haystack(data), Lower(AsinOf(url).value)) then true
      else if platform == Ebay && EbayItemOf(url).Some? && Contains(Haystack(data), EbayItemOf(url).value) then true
      else TitleMatchesPath(Lower(p.path), Lower(data.title))
  }

  /** The overlap ratio in exact arithmetic: with both token sets
      non-empty, `|U ∩ T| / min(|U|, |T|) ≥ 0.25` exactly when
      `4·|U ∩ T| ≥ min(|U|, |T|)`. */
  lemma TitleOverlapRule(path: string, title: string)
    ensures TitleMatchesPath(path, title) <==>
      title != "" && title != "unknown product" &&
      (TokenSet(path) == {} || TokenSet(title) == {} ||
       4 * |TokenSet(path) * TokenSet(title)| >= Min(|TokenSet(path)|, |TokenSet(title)|))
  {
    var u := TokenSet(path);
    var t := TokenSet(title);
    if u != {} && t != {} {
      var m := Min(|u|, |t|);
      assert m >= 1;
      QuarterRatio(|u * t| as real, m as real);
    }
  }

  lemma QuarterRatio(o: real, m: real)
    requires m > 0.0
    ensures o / m >= 0.25 <==> 4.0 * o >= m
  {
    var q := o / m;
    assert q * m == o;
    if q >= 0.25 {
      assert q * m >= 0.25 * m;
    }
    if q < 0.25 {
      assert q * m < 0.25 * m;
    }
  }

  /** A generic-platform URL is accepted exactly when the title is real. */
  lemma ValidateGeneric(url: string, data: Product)
    requires Parse(url).Ok? && DetectPlatform(Lower(Parse(url).value.netloc)) == Generic
    ensures ValidateExtractedData(url, data) <==> data.title != "" && data.title != "Unknown Product"
  {
  }

  /** A product id found in the title or seller forces acceptance; without
      one the decision is the title-similarity rule. */
  lemma ValidateProductId(url: string, data: Product)
    requires Parse(url).Ok?
    ensures var platform := DetectPlatform(Lower(Parse(url).value.netloc));
      (platform == Amazon && AsinOf(url).Some? && Contains(Haystack(data), Lower(AsinOf(url).value)) ==> ValidateExtractedData(url, data))
      && (platform == Ebay && EbayItemOf(url).Some? && Contains(Haystack(data), EbayItemOf(url).value) ==> ValidateExtractedData(url, data))
      && (platform == Amazon && AsinOf(url).None? ==> (ValidateExtractedData(url, data) <==> TitleMatchesPath(Lower(Parse(url).value.path), Lower(data.title))))
      && (platform == Ebay && EbayItemOf(url).None? ==> (ValidateExtractedData(url, data) <==> TitleMatchesPath(Lower(Parse(url).value.path), Lower(data.title))))
  {
  }

  /** A URL `urlparse` rejects is never accepted. */
  lemma ValidateRejectsUnparsable(url: string, data: Product)
    requires Parse(url).Err?
    ensures !ValidateExtractedData(url, data)
  {
  }

  /** `self.fallback_data` */
  const FallbackData: map<string, Product> := map[
    "amazon" := Product("Amazon Product", Some("$99.99"), Some(4.5), Some(100), Some("Amazon"), [], None, None),
    "ebay" := Product("eBay Product", Some("$89.99"), Some(4.0), Some(50), Some("eBay"), [], None, None),
    "daraz" := Product("Daraz Product", Some("$79.99"), Some(3.5), Some(25), Some("Daraz"), [], None, None),
    "generic" := Product("Unknown Product", Some("$0.00"), Some(0.0), Some(0), Some("Unknown Seller"), [], None, None)]

  /** The CSS selectors `platform_configs` gives a platform: title, price,
      rating, review count, and the element waited for. */
  datatype Config = Config(title: string, price: string, rating: string, reviewCount: string, waitFor: string)

  /** `self.platform_configs.get(platform)` */
  function PlatformConfig(p: Platform): Option<Config> {
    match p
    case Amazon => Some(Config("#productTitle, span#productTitle",
                               "#priceblock_ourprice, #priceblock_dealprice, .a-price .a-offscreen, .a-price-whole",
                               "#acrPopover, .a-icon-alt, .averageStarRating",
                               "#acrCustomerReviewText, #reviewsMedley .a-size-base, .totalReviewCount",
                               "#productTitle"))
    case Ebay => Some(Config("h1.x-item-title__mainTitle, h1.it-ttl, h1[itemprop=\"name\"]",
                             ".x-price-primary .s-item__price, #prcIsum, .notranslate",
                             ".x-star-rating, .reviews-star-rating",
                             ".x-item-review-count, .count, [itemprop=\"reviewCount\"]",
                             ".x-item-title__mainTitle"))
    case Daraz => Some(Config(".pdp-mod-product-badge-title, .pdp-product-title, h1",
                              ".pdp-price, .pdp-price .pdp-price",
                              ".score-average, .rating",
                              ".count, .pdp-reviews",
                              ".pdp-mod-product-badge-title"))
    case _ => None
  }
}
