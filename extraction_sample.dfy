/** The JSON-LD page of the platform tests, read through the model: a
    named Product with an offer, a rating block and two reviews, on an
    Amazon page none of whose selectors match. */
module ExtractionSample {
  import opened Common
  import opened Text
  import opened Numbers
  import opened PyJson
  import opened Platforms
  import opened ScraperCore
  import opened Extraction
  import opened ExtractionFacts

  const SampleOffer := JObj(map["@type" := JStr("Offer"), "price" := JStr("19.95"), "priceCurrency" := JStr("USD")])

  const SampleRating :=
    JObj(map["@type" := JStr("AggregateRating"), "ratingValue" := JStr("4.2"), "reviewCount" := JStr("42")])

  const SampleReviews := JArr([JObj(map["@type" := JStr("Review"), "reviewBody" := JStr("Excellent product")]),
                               JObj(map["@type" := JStr("Review"), "reviewBody" := JStr("Not bad")])])

  /** The script's payload. */
  const SampleProduct := JObj(map[
    "@context" := JStr("http://schema.org/"),
    "@type" := JStr("Product"),
    "name" := JStr("Test Product 123"),
    "offers" := SampleOffer,
    "aggregateRating" := SampleRating,
    "review" := SampleReviews])

  /** The record after the name, the offer and the rating block. */
  const SampleRated :=
    JsonLdRecord("Test Product 123").(price := Some("$19.95"), rating := Some(4.2), reviewCount := Some(42))

  /** What `extract_data` returns for the page. */
  const SampleRecord := Product("Test Product 123", Some("$19.95"), Some(4.2), Some(42), None,
    [JStr("Excellent product"), JStr("Not bad")], None, None)

  lemma FloatOfPriceText()
    ensures ParseFloat("19.95") == Some(19.95)
  {
    PriceTextParts();
    PriceTextValue();
    ParseDecimalText("19", "95");
  }

  lemma PriceTextParts()
    ensures "19.95" == "19" + "." + "95"
  {
  }

  lemma PriceTextValue()
    ensures DecimalValue("19", "95") == 19.95
  {
    assert DigitsValue("19") == 19;
    assert FracValue("95") == 0.95;
  }

  lemma FloatOfRatingText()
    ensures ParseFloat("4.2") == Some(4.2)
  {
    RatingTextParts();
    RatingTextValue();
    ParseDecimalText("4", "2");
  }

  lemma RatingTextParts()
    ensures "4.2" == "4" + "." + "2"
  {
  }

  lemma RatingTextValue()
    ensures DecimalValue("4", "2") == 4.2
  {
    assert DigitsValue("4") == 4;
    assert FracValue("2") == 0.2;
  }

  lemma IntOfCountText()
    ensures ParseInt("42") == Some(42)
  {
    StripUnpadded("42");
    assert "42"[..1] == "4";
    assert DigitsValue("4") == 4;
  }

  lemma MoneyOfPrice()
    ensures Money(19.95) == "$19.95"
  {
    assert Cents(19.95) == 1995;
    assert CentsText(1995) == "19.95";
  }

  /** The offer's price is `"19.95"`. */
  lemma SampleOfferValue(d: map<string, Json>)
    requires Get(d, "offers") == SampleOffer
    ensures OfferPrice(d) == JStr("19.95")
  {
    assert "price" in SampleOffer.fields;
    assert Get(SampleOffer.fields, "price") == JStr("19.95");
  }

  /** `"19.95"` is written `$19.95`. */
  lemma SamplePriceText(strOf: StrOf)
    ensures PriceText(JStr("19.95"), strOf) == "$19.95"
  {
    OfferPriceText("19.95", strOf);
    FloatOfPriceText();
    MoneyOfPrice();
  }

  /** The offer's `"19.95"` is written `$19.95`. */
  lemma SampleOfferPrice(d: map<string, Json>, strOf: StrOf)
    requires Get(d, "offers") == SampleOffer
    ensures OfferPrice(d) == JStr("19.95")
    ensures PriceText(OfferPrice(d), strOf) == "$19.95"
  {
    SampleOfferValue(d);
    SamplePriceText(strOf);
  }

  /** `"4.2"` and `"42"` become the rating 4.2 and the count 42. */
  lemma SampleRatingRead(d: map<string, Json>)
    requires Get(d, "aggregateRating") == SampleRating
    ensures WithRating(Some(JsonLdRecord("Test Product 123").(price := Some("$19.95"))), RatingBlock(d)) == Some(SampleRated)
  {
    assert "ratingValue" in SampleRating.fields;
    assert RatingBlock(d) == SampleRating;
    SampleRatingFields();
    WithRatingReads(JsonLdRecord("Test Product 123").(price := Some("$19.95")), SampleRating.fields, 4.2, 42);
  }

  lemma SampleRatingFields()
    ensures Get(SampleRating.fields, "ratingValue") == JStr("4.2")
    ensures Get(SampleRating.fields, "reviewCount") == JStr("42")
    ensures ToFloat(JStr("4.2")) == Some(4.2) && ToInt(JStr("42")) == Some(42)
  {
    FloatOfRatingText();
    IntOfCountText();
  }

  /** Both review bodies are kept, in order. */
  lemma SampleReviewTexts()
    ensures ReviewTexts(FirstFive(SampleReviews.items)) == Some([JStr("Excellent product"), JStr("Not bad")])
  {
    var items := SampleReviews.items;
    assert FirstFive(items) == items;
    var x := items[0];
    var y := items[1];
    assert ReviewText(x.fields) == JStr("Excellent product");
    assert ReviewText(y.fields) == JStr("Not bad");
    assert y.JObj? && Truthy(ReviewText(y.fields));
    assert [y][1..] == [];
    assert ReviewTexts([y][1..]) == Some([]);
    assert ReviewTexts([y]) == Some([ReviewText(y.fields)] + []);
    assert [ReviewText(y.fields)] + [] == [JStr("Not bad")];
    assert items[1..] == [y];
    assert [ReviewText(x.fields)] + [JStr("Not bad")] == [JStr("Excellent product"), JStr("Not bad")];
  }

  lemma SampleFields()
    ensures Get(SampleProduct.fields, "name") == JStr("Test Product 123")
    ensures Get(SampleProduct.fields, "offers") == SampleOffer
    ensures Get(SampleProduct.fields, "aggregateRating") == SampleRating
    ensures Get(SampleProduct.fields, "review") == SampleReviews
    ensures Or(Get(SampleProduct.fields, "@type"), Get(SampleProduct.fields, "type")) == JStr("Product")
  {
  }

  lemma SampleNameStep(d: map<string, Json>, strOf: StrOf)
    requires Get(d, "name") == JStr("Test Product 123")
    ensures ProductStep(d, strOf) == OfferStep(d, Some(JsonLdRecord("Test Product 123")), strOf)
  {
  }

  lemma SampleOfferStep(d: map<string, Json>, strOf: StrOf)
    requires Get(d, "offers") == SampleOffer && Get(d, "aggregateRating") == SampleRating
    ensures OfferStep(d, Some(JsonLdRecord("Test Product 123")), strOf) == ReviewStep(d, Some(SampleRated))
  {
    SampleOfferPrice(d, strOf);
    SampleRatingRead(d);
  }

  lemma SampleReviewStep(d: map<string, Json>)
    requires Get(d, "review") == SampleReviews
    ensures ReviewStep(d, Some(SampleRated)) == Stop(Some(SampleRecord))
  {
    SampleReviewTexts();
    assert Strip("Test Product 123") == "Test Product 123";
  }

  /** The candidate passes the `@type` test and stops the scan with the record. */
  lemma SampleCandidate(strOf: StrOf)
    ensures CandidateStep(SampleProduct, strOf) == Stop(Some(SampleRecord))
  {
    SampleFields();
    assert Lower("Product") == "product";
    var d := SampleProduct.fields;
    SampleNameStep(d, strOf);
    SampleOfferStep(d, strOf);
    SampleReviewStep(d);
  }

  lemma SampleScan(doc: Doc, strOf: StrOf)
    requires doc.scripts == [Some(SampleProduct)]
    ensures ScanScripts(doc.scripts, strOf) == Some(SampleRecord)
  {
    SampleCandidate(strOf);
    assert Candidates(SampleProduct) == [SampleProduct];
    assert ScanCandidates([SampleProduct], strOf) == Stop(Some(SampleRecord));
  }

  lemma SampleConclude(doc: Doc)
    requires doc.select == map[] && doc.divs == []
    ensures Conclude(SampleRecord, doc, Amazon) == Ok(SampleRecord)
  {
    ConcludeTitled(SampleRecord, doc, Amazon);
    assert FirstText(doc.select, SellerSelectors).None?;
  }

  lemma SamplePrepared(doc: Doc)
    requires doc.select == map[]
    ensures Prepared(SampleRecord, doc, Amazon) == SampleRecord
  {
    assert SampleRecord.price.value[1] == '1';
    PreparedUnmatched(SampleRecord, doc, Amazon);
  }

  /** A page whose one script is the sample yields the sample record, with
      the title, the `$` price, the rating 4.2, the count 42 and both
      reviews the tests look for. */
  lemma SamplePage(content: string, doc: Doc, strOf: StrOf)
    requires !ThinContent(content)
    requires doc.scripts == [Some(SampleProduct)] && doc.select == map[] && doc.divs == []
    ensures ExtractDataSpec(content, doc, Amazon, None, strOf) == Ok(SampleRecord)
  {
    SampleScan(doc, strOf);
    PastGuardsFound(content, doc, Amazon, None, strOf, SampleRecord);
    SamplePrepared(doc);
    SampleConclude(doc);
  }

  /** Text without capitals is its own lower-case form. */
  lemma LowerNoUpper(s: string)
    requires forall i :: 0 <= i < |s| ==> !IsUpper(s[i])
    ensures Lower(s) == s
  {
  }

  /** The detector on the hosts of the tests. */
  lemma AmazonHosts()
    ensures DetectPlatform("www.amazon.com") == Amazon
    ensures DetectPlatform("amazon.co.uk") == Amazon
  {
    LowerNoUpper("www.amazon.com");
    LowerNoUpper("amazon.co.uk");
    ContainsAt("www.amazon.com", "amazon.", 4);
    ContainsAt("amazon.co.uk", "amazon.", 0);
  }

  lemma EbayHost()
    ensures DetectPlatform("www.ebay.com") == Ebay
  {
    LowerNoUpper("www.ebay.com");
    ContainsAt("www.ebay.com", "ebay.", 4);
    NotContainsByChar("www.ebay.com", "amazon.", 'n');
  }
}
