/** `TrustScorer` of `backend/trust_scorer.py`: five component scores in
    [0, 1] (domain, review quality, rating consistency, seller, price), a
    weighted sum adjusted by the sentiment score, the last result kept in
    two fields, and the recommendation read off the percentage.
    Scores are exact reals, rounded as decimals. */
module TrustScoring {
  import opened Common
  import opened Text
  import opened Urls
  import opened Numbers
  import opened Patterns
  import opened PyJson
  import opened Extraction

  const SuspiciousKeywords: seq<string> := [
    "fake", "scam", "fraud", "counterfeit", "knockoff", "replica",
    "cheap quality", "waste of money", "terrible", "awful",
    "don't buy", "avoid", "regret", "disappointed", "ripoff"]

  const TrustedDomains: seq<string> := [
    "amazon.com", "amazon.in", "amazon.co.uk", "amazon.de",
    "ebay.com", "ebay.co.uk", "ebay.de",
    "walmart.com", "target.com", "bestbuy.com",
    "homedepot.com", "costco.com", "macys.com", "nordstrom.com",
    "daraz.pk", "daraz.com.bd", "flipkart.com", "myntra.com",
    "ajio.com", "nykaa.com", "bigbasket.com",
    "aliexpress.com", "taobao.com", "tmall.com", "jd.com",
    "zalando.com", "otto.de", "cdiscount.com", "fnac.com",
    "asos.com", "hm.com", "zara.com", "uniqlo.com",
    "newegg.com", "bhphotovideo.com", "adorama.com",
    "etsy.com", "mercadolibre.com"]

  const SuspiciousDomains: seq<string> := [
    "temu.com", "wish.com", "pinduoduo.com",
    "cheap-deals.com", "super-discount.com", "mega-sale.com"]

  const MediumTrustDomains: seq<string> := [
    "shein.com", "zaful.com", "romwe.com",
    "shopify.com", "woocommerce.com", "magento.com",
    "dell.com", "hp.com", "lenovo.com", "samsung.com"]

  const ShopPatterns: seq<string> := ["shop", "store", "mall", "buy"]
  const MarketPatterns: seq<string> := ["marketplace", "market", "trade"]
  const DealPatterns: seq<string> := ["deal", "discount", "sale", "cheap"]
  const OfficialPatterns: seq<string> := ["official", "brand", "company"]

  const GenericSellerPatterns: seq<string> := [
    "store", "shop", "seller", "dealer", "wholesale", "cheap", "discount", "outlet"]
  const BrandSellerPatterns: seq<string> := ["official", "brand", "authorized"]

  /** `max(0.0, min(1.0, x))` */
  function Clamp01(x: real): (y: real)
    ensures 0.0 <= y <= 1.0
    ensures 0.0 <= x <= 1.0 ==> y == x
    ensures x <= 0.0 ==> y == 0.0
    ensures x >= 1.0 ==> y == 1.0
  {
    if 1.0 < x then 1.0 else if x < 0.0 then 0.0 else x
  }

  function Abs(x: real): real { if x < 0.0 then -x else x }

  /** The integer nearest `y`, ties to the even one, as `round` does. */
  function RoundHalfEven(y: real): (n: int)
    ensures y.Floor <= n <= y.Floor + 1
    ensures y == y.Floor as real ==> n == y.Floor
  {
    var f := y.Floor;
    var d := y - f as real;
    if d < 0.5 then f else if d > 0.5 then f + 1 else if f % 2 == 0 then f else f + 1
  }

  /** `round(x, 1)` */
  function Round1(x: real): real { RoundHalfEven(x * 10.0) as real / 10.0 }

  /** `round(x, 2)` */
  function Round2(x: real): real { RoundHalfEven(x * 100.0) as real / 100.0 }

  // ------------------------------------------------------------- domain

  /** The netloc with one leading `www.` removed. */
  function StripWww(d: string): string {
    if StartsWith(d, "www.") then d[4..] else d
  }

  /** `calculate_domain_trust_score` once the netloc is known. */
  function HostScore(netloc: string): (s: real)
    ensures 0.15 <= s <= 0.95
  {
    var d := StripWww(Lower(netloc));
    if d in TrustedDomains then 0.95
    else if d in MediumTrustDomains then 0.75
    else if d in SuspiciousDomains then 0.15
    else if ContainsAny(d, ShopPatterns) then 0.7
    else if ContainsAny(d, MarketPatterns) then 0.6
    else if ContainsAny(d, DealPatterns) then 0.4
    else if ContainsAny(d, OfficialPatterns) then 0.8
    else 0.5
  }

  /** `calculate_domain_trust_score(url)`; `None` where `urlparse` raises,
      or the URL is not a string and the `startswith` test then raises. */
  function DomainScore(url: Json): (r: Option<real>)
    ensures r.Some? ==> 0.0 <= r.value <= 1.0
  {
    match url
    case JStr(u) =>
      (match Parse(u)
       case Err(_) => None
       case Ok(pu) => Some(HostScore(pu.netloc)))
    case _ => None
  }

  /** A domain scores 0.95 exactly when it is on the trusted list. */
  lemma TrustedIff(netloc: string)
    ensures HostScore(netloc) == 0.95 <==> StripWww(Lower(netloc)) in TrustedDomains
  {
  }

  /** A domain scores 0.15, the lowest domain score, exactly when it is on
      the suspicious list and on neither list checked before it. */
  lemma SuspiciousIff(netloc: string)
    ensures HostScore(netloc) >= 0.15
    ensures var d := StripWww(Lower(netloc));
      HostScore(netloc) == 0.15 <==> d in SuspiciousDomains && d !in TrustedDomains && d !in MediumTrustDomains
  {
  }

  lemma LowerAppend(a: string, b: string)
    ensures Lower(a + b) == Lower(a) + Lower(b)
  {
  }

  /** A leading `www.` does not change the score. */
  lemma WwwIgnored(host: string)
    requires !StartsWith(Lower(host), "www.")
    ensures HostScore("www." + host) == HostScore(host)
  {
    LowerAppend("www.", host);
    var l := Lower("www." + host);
    assert Lower("www.") == "www.";
    assert l[..4] == "www." && l[4..] == Lower(host);
  }

  // ------------------------------------------------------ review quality

  /** The text of one review: a dict's `text` (default `''`), `str()` of
      anything else; `None` where `len()` or `.lower()` on a dict's
      non-string `text` raises. */
  function ReviewBody(review: Json, strOf: StrOf): Option<string> {
    match review
    case JObj(m) => if "text" !in m then Some("") else if m["text"].JStr? then Some(m["text"].s) else None
    case _ => Some(PyStr(review, strOf))
  }

  /** The texts of all reviews, `None` when one of them raises. */
  function ReviewBodies(reviews: seq<Json>, strOf: StrOf): (r: Option<seq<string>>)
    ensures r.Some? ==> |r.value| == |reviews|
  {
    if reviews == [] then Some([])
    else
      match ReviewBodies(reviews[..|reviews| - 1], strOf)
      case None => None
      case Some(ts) =>
        match ReviewBody(reviews[|reviews| - 1], strOf)
        case None => None
        case Some(t) => Some(ts + [t])
  }

  /** `len(set(text.split()))` */
  function DistinctWords(t: string): nat {
    |set w | w in Words(t)|
  }

  /** The suspicious-pattern hits of one text: one for fewer than five
      distinct words, one for a suspicious keyword. */
  function Hits(t: string): (n: nat)
    ensures n <= 2
  {
    var l := Lower(t);
    (if DistinctWords(l) < 5 then 1 else 0) + (if ContainsAny(l, SuspiciousKeywords) then 1 else 0)
  }

  /** How many texts are longer than 50 characters. */
  function DetailedCount(ts: seq<string>): (n: nat)
    ensures n <= |ts|
  {
    if ts == [] then 0 else DetailedCount(ts[..|ts| - 1]) + (if |ts[|ts| - 1]| > 50 then 1 else 0)
  }

  /** The hits of all texts. */
  function HitCount(ts: seq<string>): (n: nat)
    ensures n <= 2 * |ts|
  {
    if ts == [] then 0 else HitCount(ts[..|ts| - 1]) + Hits(ts[|ts| - 1])
  }

  /** `a / n` */
  function Ratio(a: nat, n: nat): real
    requires n > 0
  {
    a as real / n as real
  }

  /** `0.0 + detail_ratio * 0.3 - suspicious_ratio * 0.4` */
  function QualityFrom(detailed: nat, hits: nat, total: nat): real
    requires total > 0
  {
    0.0 + Ratio(detailed, total) * 0.3 - Ratio(hits, total) * 0.4
  }

  /** The score of a non-empty list of review texts, before clamping. */
  function RawQuality(ts: seq<string>): real
    requires ts != []
  {
    QualityFrom(DetailedCount(ts), HitCount(ts), |ts|)
  }

  /** The one-character strings a `for` loop over a string visits. */
  function CharTexts(s: string): (ts: seq<string>)
    ensures |ts| == |s|
    ensures forall k :: 0 <= k < |s| ==> ts[k] == [s[k]]
  {
    seq(|s|, k requires 0 <= k < |s| => [s[k]])
  }

  /** The keys of a dict, in the order `ks`, as the items a `for` loop
      over the dict visits. */
  function KeyItems(ks: seq<string>): (items: seq<Json>)
    ensures |items| == |ks|
    ensures forall k :: 0 <= k < |ks| ==> items[k] == JStr(ks[k])
  {
    seq(|ks|, k requires 0 <= k < |ks| => JStr(ks[k]))
  }

  /** The keys longer than 50 characters. */
  function LongKeys(keys: set<string>): set<string> {
    set k | k in keys && |k| > 50
  }

  /** The keys with fewer than five distinct words once lowered. */
  function FewWordKeys(keys: set<string>): set<string> {
    set k | k in keys && DistinctWords(Lower(k)) < 5
  }

  /** The keys holding a suspicious keyword once lowered. */
  function KeywordKeys(keys: set<string>): set<string> {
    set k | k in keys && ContainsAny(Lower(k), SuspiciousKeywords)
  }

  /** The score of a non-empty sequence of reviews, `None` when the text
      of one of them raises. */
  function ListQuality(items: seq<Json>, strOf: StrOf): (r: Option<real>)
    requires items != []
    ensures r.Some? ==> 0.0 <= r.value <= 1.0
  {
    match ReviewBodies(items, strOf)
    case None => None
    case Some(ts) => Some(Clamp01(RawQuality(ts)))
  }

  /** `calculate_review_quality_score(reviews)`: `0.0` for a falsy value.
      `for review in reviews` walks a list's items, a string's characters
      and a dict's keys, and `len(reviews)` counts them, so the score of a
      string is that of the list of its characters, and that of a dict is
      computed from how many of its keys are long, few-worded or hold a
      keyword (the counts do not depend on the order the keys are
      visited in). `None` where it raises: for a list one of whose texts
      raises, and for a truthy number or boolean, which has no `len()`. */
  function ReviewQualityScore(reviews: Json, strOf: StrOf): (r: Option<real>)
    ensures r.Some? ==> 0.0 <= r.value <= 1.0
  {
    if !Truthy(reviews) then Some(0.0)
    else
      match reviews
      case JArr(items) => ListQuality(items, strOf)
      case JStr(s) => ListQuality(KeyItems(CharTexts(s)), strOf)
      case JObj(m) => Some(Clamp01(QualityFrom(|LongKeys(m.Keys)|, |FewWordKeys(m.Keys)| + |KeywordKeys(m.Keys)|, |m.Keys|)))
      case _ => None
  }

  /** The keys of `m` in the order iterating the dict visits them; which
      order that is (insertion order) is not part of the model. */
  method DictOrder(m: map<string, Json>) returns (ks: seq<string>)
    ensures Distinct(ks)
    ensures forall k :: k in ks <==> k in m
  {
    ks := [];
    var rest := m.Keys;
    while rest != {}
      invariant rest <= m.Keys
      invariant Distinct(ks)
      invariant forall k :: k in ks <==> k in m && k !in rest
      decreases |rest|
    {
      var k :| k in rest;
      ks := ks + [k];
      rest := rest - {k};
    }
  }

  /** `calculate_review_quality_score(reviews)`: the detail ratio, then
      the suspicious ratio, over the texts of the items `for` visits. */
  method CalculateReviewQualityScore(reviews: Json, strOf: StrOf) returns (q: Option<real>)
    ensures q == ReviewQualityScore(reviews, strOf)
  {
    if !Truthy(reviews) {
      return Some(0.0);
    }
    match reviews {
      case JArr(items) =>
        q := ScoreItems(items, strOf);
      case JStr(s) =>
        q := ScoreItems(KeyItems(CharTexts(s)), strOf);
      case JObj(m) =>
        var ks := DictOrder(m);
        q := ScoreItems(KeyItems(ks), strOf);
        DictScoresAsKeyList(m, ks, strOf);
      case _ =>
        q := None;
    }
  }

  /** The two loops over a non-empty sequence of reviews. */
  method ScoreItems(items: seq<Json>, strOf: StrOf) returns (q: Option<real>)
    requires items != []
    ensures q == ListQuality(items, strOf)
  {
    var total := |items|;
    var detailed := CountDetailed(items, strOf);
    if detailed.None? {
      return None;
    }
    var quality := 0.0;
    quality := quality + Ratio(detailed.value, total) * 0.3;
    var suspicious := CountSuspicious(items, strOf);
    quality := quality - Ratio(suspicious, total) * 0.4;
    q := Some(Clamp01(quality));
  }

  /** The first loop: the reviews whose text is longer than 50 characters. */
  method CountDetailed(items: seq<Json>, strOf: StrOf) returns (detailed: Option<nat>)
    ensures detailed.None? <==> ReviewBodies(items, strOf).None?
    ensures detailed.Some? ==> detailed.value == DetailedCount(ReviewBodies(items, strOf).value)
  {
    var count := 0;
    var i := 0;
    while i < |items|
      invariant 0 <= i <= |items|
      invariant ReviewBodies(items[..i], strOf).Some?
      invariant count == DetailedCount(ReviewBodies(items[..i], strOf).value)
    {
      assert items[..i + 1][..i] == items[..i];
      var text := ReviewBody(items[i], strOf);
      if text.None? {
        BodiesFail(items, strOf, i + 1);
        return None;
      }
      if |text.value| > 50 {
        count := count + 1;
      }
      i := i + 1;
    }
    assert items[..i] == items;
    detailed := Some(count);
  }

  /** The second loop: the suspicious hits of the lowered texts. */
  method CountSuspicious(items: seq<Json>, strOf: StrOf) returns (suspicious: nat)
    requires ReviewBodies(items, strOf).Some?
    ensures suspicious == HitCount(ReviewBodies(items, strOf).value)
  {
    ghost var texts := ReviewBodies(items, strOf).value;
    suspicious := 0;
    var i := 0;
    while i < |items|
      invariant 0 <= i <= |items|
      invariant suspicious == HitCount(texts[..i])
    {
      BodyAt(items, strOf, i);
      var text := ReviewBody(items[i], strOf).value;
      var lowered := Lower(text);
      if DistinctWords(lowered) < 5 {
        suspicious := suspicious + 1;
      }
      if ContainsAny(lowered, SuspiciousKeywords) {
        suspicious := suspicious + 1;
      }
      assert texts[..i + 1][..i] == texts[..i];
      i := i + 1;
    }
    assert texts[..i] == texts;
  }

  /** The text of the `i`-th review is the `i`-th of the texts. */
  lemma {:induction false} BodyAt(items: seq<Json>, strOf: StrOf, i: nat)
    requires ReviewBodies(items, strOf).Some? && i < |items|
    ensures ReviewBody(items[i], strOf) == Some(ReviewBodies(items, strOf).value[i])
    decreases |items|
  {
    var n := |items|;
    if i < n - 1 {
      var front := items[..n - 1];
      assert front[i] == items[i];
      BodyAt(front, strOf, i);
    }
  }

  /** A review that raises makes the whole list raise. */
  lemma {:induction false} BodiesFail(items: seq<Json>, strOf: StrOf, j: nat)
    requires j <= |items| && ReviewBodies(items[..j], strOf).None?
    ensures ReviewBodies(items, strOf).None?
    decreases |items| - j
  {
    if j == |items| {
      assert items[..j] == items;
    } else {
      assert items[..j + 1][..j] == items[..j];
      BodiesFail(items, strOf, j + 1);
    }
  }

  /** When the whole list has texts, so has each prefix. */
  lemma BodiesPrefix(items: seq<Json>, strOf: StrOf, j: nat)
    requires j <= |items| && ReviewBodies(items, strOf).Some?
    ensures ReviewBodies(items[..j], strOf).Some?
  {
    if ReviewBodies(items[..j], strOf).None? {
      BodiesFail(items, strOf, j);
    }
  }

  /** No text occurs twice in `ks`. */
  predicate Distinct(ks: seq<string>) {
    forall i, j :: 0 <= i < j < |ks| ==> ks[i] != ks[j]
  }

  /** The texts of a dict's keys are the keys themselves. */
  lemma {:induction false} KeyBodies(ks: seq<string>, strOf: StrOf)
    ensures ReviewBodies(KeyItems(ks), strOf) == Some(ks)
    decreases |ks|
  {
    if ks != [] {
      var n := |ks|;
      KeyBodies(ks[..n - 1], strOf);
      assert KeyItems(ks)[..n - 1] == KeyItems(ks[..n - 1]);
      assert ks[..n - 1] + [ks[n - 1]] == ks;
    }
  }

  /** Over distinct keys, the counts of the loops are the sizes of the
      sets of long, few-worded and keyword-holding keys. */
  lemma {:induction false} KeyCounts(ks: seq<string>)
    requires Distinct(ks)
    ensures DetailedCount(ks) == |LongKeys(set k | k in ks)|
    ensures HitCount(ks) == |FewWordKeys(set k | k in ks)| + |KeywordKeys(set k | k in ks)|
    decreases |ks|
  {
    if ks != [] {
      var n := |ks|;
      var front, x := ks[..n - 1], ks[n - 1];
      KeyCounts(front);
      SetOfSnoc(ks);
      KeySetsSnoc((set k | k in front), x);
    }
  }

  /** The keys of `ks` are those before its last one, and that one,
      which is none of them. */
  lemma SetOfSnoc(ks: seq<string>)
    requires ks != [] && Distinct(ks)
    ensures var front := ks[..|ks| - 1];
      (set k | k in ks) == (set k | k in front) + {ks[|ks| - 1]} && ks[|ks| - 1] !in front
  {
    var front := ks[..|ks| - 1];
    assert ks == front + [ks[|ks| - 1]];
  }

  /** Adding a key `x` to the keys adds it to each set it belongs to. */
  lemma KeySetsSnoc(f: set<string>, x: string)
    requires x !in f
    ensures |LongKeys(f + {x})| == |LongKeys(f)| + (if |x| > 50 then 1 else 0)
    ensures |FewWordKeys(f + {x})| == |FewWordKeys(f)| + (if DistinctWords(Lower(x)) < 5 then 1 else 0)
    ensures |KeywordKeys(f + {x})| == |KeywordKeys(f)| + (if ContainsAny(Lower(x), SuspiciousKeywords) then 1 else 0)
  {
    LongSnoc(f, x);
    FewWordSnoc(f, x);
    KeywordSnoc(f, x);
  }

  lemma LongSnoc(f: set<string>, x: string)
    ensures LongKeys(f + {x}) == LongKeys(f) + (if |x| > 50 then {x} else {})
  {
  }

  lemma FewWordSnoc(f: set<string>, x: string)
    ensures FewWordKeys(f + {x}) == FewWordKeys(f) + (if DistinctWords(Lower(x)) < 5 then {x} else {})
  {
  }

  lemma KeywordSnoc(f: set<string>, x: string)
    ensures KeywordKeys(f + {x}) == KeywordKeys(f) + (if ContainsAny(Lower(x), SuspiciousKeywords) then {x} else {})
  {
  }

  /** A dict of reviews scores as the list of its keys, whatever order
      the keys are visited in. */
  lemma DictScoresAsKeyList(m: map<string, Json>, ks: seq<string>, strOf: StrOf)
    requires Truthy(JObj(m)) && Distinct(ks) && forall k :: k in ks <==> k in m
    ensures ReviewQualityScore(JObj(m), strOf) == ReviewQualityScore(JArr(KeyItems(ks)), strOf)
  {
    KeyCountsOf(m, ks);
    KeysOfNonEmpty(m);
    ScoresAgree(m, ks, strOf);
  }

  /** Equal counts over the keys and over the list give equal scores. */
  lemma ScoresAgree(m: map<string, Json>, ks: seq<string>, strOf: StrOf)
    requires m != map[] && ks != [] && RawQualityOk(ks, m.Keys)
    ensures ReviewQualityScore(JObj(m), strOf) == ReviewQualityScore(JArr(KeyItems(ks)), strOf)
  {
    var q := Clamp01(RawQuality(ks));
    KeyListScore(ks, strOf);
    assert ReviewQualityScore(JArr(KeyItems(ks)), strOf) == Some(q);
    SameQuality(ks, m.Keys);
    DictScore(m, strOf);
    assert ReviewQualityScore(JObj(m), strOf) == Some(q);
  }

  /** The counts of the loops over the keys, in any order. */
  lemma KeyCountsOf(m: map<string, Json>, ks: seq<string>)
    requires Distinct(ks) && forall k :: k in ks <==> k in m
    ensures RawQualityOk(ks, m.Keys)
  {
    KeyCounts(ks);
    KeySetIsKeys(m, ks);
    DistinctCard(ks);
  }

  /** The counts over `ks` are those over `keys`. */
  predicate RawQualityOk(ks: seq<string>, keys: set<string>) {
    |ks| == |keys| && DetailedCount(ks) == |LongKeys(keys)| && HitCount(ks) == |FewWordKeys(keys)| + |KeywordKeys(keys)|
  }

  /** A non-empty dict has a key. */
  lemma KeysOfNonEmpty(m: map<string, Json>)
    requires m != map[]
    ensures |m.Keys| > 0
  {
  }

  /** Equal counts give equal scores. */
  lemma SameQuality(ks: seq<string>, keys: set<string>)
    requires ks != [] && RawQualityOk(ks, keys)
    ensures RawQuality(ks) == QualityFrom(|LongKeys(keys)|, |FewWordKeys(keys)| + |KeywordKeys(keys)|, |keys|)
  {
  }

  /** The score of a dict, from the sizes of its key sets. */
  lemma DictScore(m: map<string, Json>, strOf: StrOf)
    requires m != map[]
    ensures ReviewQualityScore(JObj(m), strOf) == Some(Clamp01(QualityFrom(|LongKeys(m.Keys)|, |FewWordKeys(m.Keys)| + |KeywordKeys(m.Keys)|, |m.Keys|)))
  {
  }

  lemma KeySetIsKeys(m: map<string, Json>, ks: seq<string>)
    requires forall k :: k in ks <==> k in m
    ensures (set k | k in ks) == m.Keys
  {
  }

  /** The score of the keys as a list, from the counts of the loops. */
  lemma KeyListScore(ks: seq<string>, strOf: StrOf)
    requires ks != []
    ensures ReviewQualityScore(JArr(KeyItems(ks)), strOf) == Some(Clamp01(RawQuality(ks)))
  {
    var items := KeyItems(ks);
    KeyBodies(ks, strOf);
    assert Truthy(JArr(items));
  }

  /** Distinct texts are as many as their set. */
  lemma {:induction false} DistinctCard(ks: seq<string>)
    requires Distinct(ks)
    ensures |set k | k in ks| == |ks|
    decreases |ks|
  {
    if ks != [] {
      var n := |ks|;
      DistinctCard(ks[..n - 1]);
      SetOfSnoc(ks);
    }
  }

  /** A string given as the reviews scores 0: each of its characters is
      a review of fewer than five words, so the suspicious ratio alone
      outweighs the largest detail ratio. */
  lemma StringReviewsScoreZero(s: string, strOf: StrOf)
    ensures ReviewQualityScore(JStr(s), strOf) == Some(0.0)
  {
    if s != "" {
      var ts := CharTexts(s);
      KeyBodies(ts, strOf);
      CharHits(ts);
      HitsOutweigh(DetailedCount(ts), HitCount(ts), |ts|);
    }
  }

  /** When the hits are at least as many as the reviews, the score is 0. */
  lemma HitsOutweigh(d: nat, h: nat, n: nat)
    requires 0 < n && d <= n <= h
    ensures Clamp01(QualityFrom(d, h, n)) == 0.0
  {
    RatioFacts(d, n);
    assert Ratio(h, n) * n as real == h as real;
    assert Ratio(h, n) >= 1.0;
  }

  /** Every one-character text is a hit. */
  lemma {:induction false} CharHits(ts: seq<string>)
    requires forall k :: 0 <= k < |ts| ==> |ts[k]| == 1
    ensures HitCount(ts) >= |ts|
    decreases |ts|
  {
    if ts != [] {
      var n := |ts|;
      CharHits(ts[..n - 1]);
      OneCharFewWords(ts[n - 1]);
    }
  }

  /** A one-character text has fewer than five distinct words. */
  lemma OneCharFewWords(t: string)
    requires |t| == 1
    ensures DistinctWords(Lower(t)) < 5
  {
    var l := Lower(t);
    assert |l| == 1 && l[1..] == [];
    if IsSpace(l[0]) {
      assert Words(l) == [] + WordsFrom([], "");
      assert (set w | w in Words(l)) == {};
    } else {
      assert "" + [l[0]] == [l[0]];
      assert Words(l) == WordsFrom([], [l[0]]);
      assert (set w | w in Words(l)) == {[l[0]]};
    }
  }

  /** A count out of `n` gives a ratio in [0, 1], which is 0 only for
      none and 1 only for all. */
  lemma RatioFacts(a: nat, n: nat)
    requires 0 < n && a <= n
    ensures 0.0 <= Ratio(a, n) <= 1.0
    ensures Ratio(a, n) == 0.0 <==> a == 0
    ensures Ratio(a, n) == 1.0 <==> a == n
  {
    var r := Ratio(a, n);
    assert r * n as real == a as real;
    if r == 1.0 {
      assert a as real == n as real;
    }
    assert r > 1.0 ==> r * n as real > 1.0 * n as real;
  }

  lemma HitRatioFacts(h: nat, n: nat)
    requires 0 < n
    ensures Ratio(h, n) >= 0.0
    ensures Ratio(h, n) == 0.0 <==> h == 0
  {
    assert Ratio(h, n) * n as real == h as real;
  }

  /** Review quality never exceeds 0.3. */
  lemma QualityAtMostThreeTenths(ts: seq<string>)
    requires ts != []
    ensures Clamp01(RawQuality(ts)) <= 0.3
  {
    QualityBound(DetailedCount(ts), HitCount(ts), |ts|);
  }

  /** The quality of `d` detailed reviews among `n` with `h` suspicious
      hits is at most 0.3, and is 0.3 exactly when every review is
      detailed and none has a hit. */
  lemma QualityBound(d: nat, h: nat, n: nat)
    requires 0 < n && d <= n
    ensures Clamp01(QualityFrom(d, h, n)) <= 0.3
    ensures Clamp01(QualityFrom(d, h, n)) == 0.3 <==> d == n && h == 0
  {
    RatioFacts(d, n);
    HitRatioFacts(h, n);
    PeakOfTerms(Ratio(d, n), Ratio(h, n));
  }

  lemma PeakOfTerms(x: real, y: real)
    requires 0.0 <= x <= 1.0 && 0.0 <= y
    ensures Clamp01(0.0 + x * 0.3 - y * 0.4) <= 0.3
    ensures Clamp01(0.0 + x * 0.3 - y * 0.4) == 0.3 <==> x == 1.0 && y == 0.0
  {
  }

  /** No review, or only an empty list: quality 0. */
  lemma NoReviewsScoreZero(strOf: StrOf)
    ensures ReviewQualityScore(JArr([]), strOf) == Some(0.0)
    ensures ReviewQualityScore(JNull, strOf) == Some(0.0)
  {
  }

  /** The score raises exactly for a truthy number or boolean, which has
      no `len()`, and for a list one of whose texts raises; a string or a
      dict is walked without raising. */
  lemma ReviewQualityRaisesIff(reviews: Json, strOf: StrOf)
    ensures ReviewQualityScore(reviews, strOf).None? <==>
      Truthy(reviews) && (reviews.JBool? || reviews.JInt? || reviews.JFloat? ||
                          (reviews.JArr? && ReviewBodies(reviews.items, strOf).None?))
  {
    if reviews.JStr? {
      KeyBodies(CharTexts(reviews.s), strOf);
    }
  }

  // -------------------------------------------------- rating consistency

  /** `calculate_rating_consistency_score(rating, review_count, s)` */
  function RatingConsistency(rating: Json, count: Json, s: real): (c: real)
    ensures 0.0 <= c <= 1.0
  {
    if !Truthy(rating) || rating == JStr("N/A") || !Truthy(count) then 0.5
    else
      match (ToFloat(rating), ToInt(count))
      case (Some(r), Some(n)) =>
        var consistency := 1.0 - Abs(r / 5.0 - (s + 1.0) / 2.0);
        Clamp01(if n > 100 then consistency + 0.1 else if n > 50 then consistency + 0.05 else consistency)
      case _ => 0.5
  }

  /** With a readable rating and count, more reviews never lower the score. */
  lemma MoreReviewsNeverLower(rating: Json, n1: int, n2: int, s: real)
    requires Truthy(rating) && rating != JStr("N/A") && ToFloat(rating).Some?
    requires 0 < n1 <= n2
    ensures RatingConsistency(rating, JInt(n1), s) <= RatingConsistency(rating, JInt(n2), s)
  {
  }

  /** A rating that says what the sentiment says scores 1. */
  lemma AgreementScoresOne(rating: Json, count: Json, s: real)
    requires Truthy(rating) && rating != JStr("N/A") && Truthy(count)
    requires ToInt(count).Some? && ToFloat(rating) == Some(5.0 * (s + 1.0) / 2.0)
    ensures RatingConsistency(rating, count, s) == 1.0
  {
  }

  /** A rating of `None` or `"N/A"`, a falsy count, or text `float()` or
      `int()` rejects: the neutral 0.5. */
  lemma UnreadableRatingNeutral(rating: Json, count: Json, s: real)
    requires !Truthy(rating) || rating == JStr("N/A") || !Truthy(count) || ToFloat(rating).None? || ToInt(count).None?
    ensures RatingConsistency(rating, count, s) == 0.5
  {
  }

  // -------------------------------------------------------------- seller

  /** `calculate_seller_reputation_score(seller)`; `None` where `.lower()`
      on a non-string raises. */
  function SellerScore(seller: Json): (r: Option<real>)
    ensures r.Some? ==> 0.3 <= r.value <= 0.8
  {
    if !Truthy(seller) || seller == JStr("Unknown") then Some(0.5)
    else if !seller.JStr? then None
    else
      var l := Lower(seller.s);
      if ContainsAny(l, GenericSellerPatterns) then Some(0.3)
      else if ContainsAny(l, BrandSellerPatterns) then Some(0.8)
      else Some(0.6)
  }

  /** A named seller scores 0.8 exactly when it looks branded and not
      generic: the generic test comes first. */
  lemma BrandedSellerIff(s: string)
    requires s != "" && s != "Unknown"
    ensures SellerScore(JStr(s)) == Some(0.8) <==>
      !ContainsAny(Lower(s), GenericSellerPatterns) && ContainsAny(Lower(s), BrandSellerPatterns)
  {
  }

  /** `'Unknown Seller'` is not the `"Unknown"` placeholder: it is a
      generic name and scores 0.3. */
  lemma UnknownSellerIsGeneric()
    ensures SellerScore(JStr("Unknown Seller")) == Some(0.3)
  {
    var l := Lower("Unknown Seller");
    assert l[8..14] == "seller";
    ContainsAt(l, "seller", 8);
    assert GenericSellerPatterns[2] == "seller";
  }

  // --------------------------------------------------------------- price

  /** `calculate_price_reasonableness_score(price, title)`; `None` where
      `.replace` on a non-string raises (an `AttributeError`, which the
      inner handler does not catch). */
  function PriceScore(price: Json): (r: Option<real>)
    ensures r.Some? ==> 0.2 <= r.value <= 0.8
  {
    if !Truthy(price) || price == JStr("Price not available") then Some(0.5)
    else if !price.JStr? then None
    else
      match SearchText(GroupedNumber, RemoveChar(price.s, ','))
      case None => Some(0.5)
      case Some(m) =>
        match ParseFloat(m)
        case None => Some(0.5)
        case Some(v) => Some(if v < 1.0 then 0.2 else if v > 10000.0 then 0.7 else 0.8)
  }

  lemma {:induction false} RemoveCharKeeps(s: string, c: char)
    ensures forall k :: 0 <= k < |RemoveChar(s, c)| ==> RemoveChar(s, c)[k] in s && RemoveChar(s, c)[k] != c
    decreases |s|
  {
    if s != [] {
      RemoveCharKeeps(s[1..], c);
    }
  }

  /** A price text with no digit scores the neutral 0.5. */
  lemma DigitlessPriceNeutral(s: string)
    requires forall k :: 0 <= k < |s| ==> !IsDigit(s[k])
    ensures PriceScore(JStr(s)) == Some(0.5)
  {
    var t := RemoveChar(s, ',');
    RemoveCharKeeps(s, ',');
    forall a | 0 <= a < |t| ensures MatchAt(GroupedNumber, t, a).None? {
      assert t[a] in s;
      assert !IsDigitOrComma(t[a]);
    }
    assert MatchAt(GroupedNumber, t, |t|).None?;
  }

  // ------------------------------------------------------------- overall

  datatype Components = Components(domain: real, reviewQuality: real, ratingConsistency: real, seller: real, price: real)

  predicate InUnit(c: Components) {
    0.0 <= c.domain <= 1.0 && 0.0 <= c.reviewQuality <= 1.0 && 0.0 <= c.ratingConsistency <= 1.0 &&
    0.0 <= c.seller <= 1.0 && 0.0 <= c.price <= 1.0
  }

  /** The five component scores of a product dict, or `None` where one raises. */
  function TrustComponents(data: map<string, Json>, sentiment: real, strOf: StrOf): (r: Option<Components>)
    ensures r.Some? ==> InUnit(r.value)
  {
    var url := if "url" in data then data["url"] else JStr("");
    var reviews := if "reviews" in data then data["reviews"] else JArr([]);
    var d := DomainScore(url);
    var q := ReviewQualityScore(reviews, strOf);
    var sel := SellerScore(Get(data, "seller"));
    var p := PriceScore(Get(data, "price"));
    if d.None? || q.None? || sel.None? || p.None? then None
    else Some(Components(d.value, q.value, RatingConsistency(Get(data, "rating"), Get(data, "review_count"), sentiment), sel.value, p.value))
  }

  /** The component scores, with the review-quality loops. */
  method ComponentScores(data: map<string, Json>, sentiment: real, strOf: StrOf) returns (c: Option<Components>)
    ensures c == TrustComponents(data, sentiment, strOf)
  {
    var url := if "url" in data then data["url"] else JStr("");
    var domainScore := DomainScore(url);
    var reviews := if "reviews" in data then data["reviews"] else JArr([]);
    var reviewQualityScore := CalculateReviewQualityScore(reviews, strOf);
    var ratingConsistencyScore := RatingConsistency(Get(data, "rating"), Get(data, "review_count"), sentiment);
    var sellerScore := SellerScore(Get(data, "seller"));
    var priceScore := PriceScore(Get(data, "price"));
    if domainScore.None? || reviewQualityScore.None? || sellerScore.None? || priceScore.None? {
      return None;
    }
    c := Some(Components(domainScore.value, reviewQualityScore.value, ratingConsistencyScore, sellerScore.value, priceScore.value));
  }

  /** The weighted sum plus a tenth of the sentiment score, clamped to [0, 1]. */
  function Weighted(c: Components, sentiment: real): real {
    Clamp01(c.domain * 0.25 + c.reviewQuality * 0.25 + c.ratingConsistency * 0.20 +
            c.seller * 0.15 + c.price * 0.15 + sentiment * 0.1)
  }

  /** The weights total 1: equal components and no sentiment give that
      component back. */
  lemma WeightsTotalOne(x: real)
    requires 0.0 <= x <= 1.0
    ensures Weighted(Components(x, x, x, x, x), 0.0) == x
  {
  }

  /** Raising any component or the sentiment never lowers the score. */
  lemma WeightedMonotone(c1: Components, c2: Components, s1: real, s2: real)
    requires c1.domain <= c2.domain && c1.reviewQuality <= c2.reviewQuality
    requires c1.ratingConsistency <= c2.ratingConsistency && c1.seller <= c2.seller && c1.price <= c2.price
    requires s1 <= s2
    ensures Weighted(c1, s1) <= Weighted(c2, s2)
  {
  }

  /** The percentage `calculate_trust_score` stores lies in [0, 100]. */
  lemma PercentInRange(c: Components, sentiment: real)
    ensures 0.0 <= Round1(Weighted(c, sentiment) * 100.0) <= 100.0
  {
    var y := Weighted(c, sentiment) * 100.0 * 10.0;
    assert 0.0 <= y <= 1000.0;
    assert 0 <= y.Floor <= 1000;
    if y.Floor == 1000 {
      assert y == 1000.0;
    }
  }

  /** The overall score returned lies in [0, 100], whether a component
      raises (50) or not (the stored percentage). */
  lemma OverallScoreInRange(scores: Option<Components>, sentiment: real)
    ensures 0.0 <= TrustScoreResult(scores, sentiment).overallScore <= 100.0
  {
    if scores.Some? {
      PercentInRange(scores.value, sentiment);
    }
  }

  /** Rounding to two places keeps a score in [0, 1] there, and leaves a
      whole number of hundredths, such as every domain, seller and price
      score, as it is. */
  lemma Round2Keeps(x: real, k: int)
    requires 0.0 <= x <= 1.0
    ensures 0.0 <= Round2(x) <= 1.0
    ensures x == k as real / 100.0 ==> Round2(x) == x
  {
    var y := x * 100.0;
    assert 0.0 <= y <= 100.0;
    assert 0 <= y.Floor <= 100;
    if y.Floor == 100 {
      assert y == 100.0;
    }
    if x == k as real / 100.0 {
      assert y == k as real;
      assert y.Floor == k;
    }
  }

  /** What `calculate_trust_score` returns. */
  datatype TrustResult = TrustResult(overallScore: real, componentScores: map<string, real>)

  /** The stored component scores, each rounded to two places. */
  function ComponentMap(c: Components): map<string, real> {
    map["domain" := Round2(c.domain), "review_quality" := Round2(c.reviewQuality),
        "rating_consistency" := Round2(c.ratingConsistency), "seller" := Round2(c.seller),
        "price" := Round2(c.price)]
  }

  /** The result of the exception handler. */
  const ErrorResult := TrustResult(50.0, map["domain" := 0.5, "review_quality" := 0.5,
    "rating_consistency" := 0.5, "seller" := 0.5, "price" := 0.5])

  class TrustScorer {
    var lastComponentScores: map<string, real>
    var lastOverallScore: real

    constructor()
      ensures lastComponentScores == map[] && lastOverallScore == 50.0
    {
      lastComponentScores := map[];
      lastOverallScore := 50.0;
    }

    /** `get_score_components()` */
    function GetScoreComponents(): map<string, real>
      reads this
    {
      lastComponentScores
    }

    /** `get_last_score()` */
    function GetLastScore(): real
      reads this
    {
      lastOverallScore
    }

    /** `calculate_trust_score(product_data, sentiment_data)`, where
        `sentiment` is the sentiment score the second dict carries (0 when
        it has none). A successful call stores what it returns, and the
        getters give it back; the exception handler stores nothing. */
    method CalculateTrustScore(data: map<string, Json>, sentiment: real, strOf: StrOf) returns (r: TrustResult)
      modifies this
      ensures r == TrustScoreResult(TrustComponents(data, sentiment, strOf), sentiment)
      ensures TrustComponents(data, sentiment, strOf).None? ==>
        GetScoreComponents() == old(GetScoreComponents()) && GetLastScore() == old(GetLastScore())
      ensures TrustComponents(data, sentiment, strOf).Some? ==>
        GetLastScore() == r.overallScore && GetScoreComponents() == r.componentScores
    {
      var scores := ComponentScores(data, sentiment, strOf);
      r := Finish(scores, sentiment);
    }

    /** The rest of the `try` block once the components are known, or the
        exception handler's result, storing nothing. */
    method Finish(scores: Option<Components>, sentiment: real) returns (r: TrustResult)
      modifies this
      ensures r == TrustScoreResult(scores, sentiment)
      ensures scores.None? ==> GetScoreComponents() == old(GetScoreComponents()) && GetLastScore() == old(GetLastScore())
      ensures scores.Some? ==> GetLastScore() == r.overallScore && GetScoreComponents() == r.componentScores
    {
      if scores.None? {
        return ErrorResult;
      }
      var c := scores.value;
      lastComponentScores := ComponentMap(c);
      var overall := c.domain * 0.25 + c.reviewQuality * 0.25 + c.ratingConsistency * 0.20 +
                     c.seller * 0.15 + c.price * 0.15;
      overall := overall + sentiment * 0.1;
      overall := Clamp01(overall);
      assert overall == Weighted(c, sentiment);
      lastOverallScore := Round1(overall * 100.0);
      r := TrustResult(lastOverallScore, lastComponentScores);
    }
  }

  /** What `calculate_trust_score` returns for the component scores it
      computed, or for an exception among them. */
  function TrustScoreResult(scores: Option<Components>, sentiment: real): TrustResult {
    match scores
    case None => ErrorResult
    case Some(c) => TrustResult(Round1(Weighted(c, sentiment) * 100.0), ComponentMap(c))
  }

  // ------------------------------------------------------ recommendation

  /** The three recommendations, with the fields of the dict each returns. */
  datatype Recommendation = Buy | BeCareful | Avoid {
    function Action(): string {
      match this
      case Buy => "Buy"
      case BeCareful => "Be Careful"
      case Avoid => "Avoid"
    }
    function Confidence(): string {
      match this
      case BeCareful => "Medium"
      case _ => "High"
    }
    function Message(): string {
      match this
      case Buy => "This product appears to be trustworthy with high ratings and genuine reviews."
      case BeCareful => "This product has mixed signals. Consider reading more reviews before purchasing."
      case Avoid => "This product shows signs of being potentially fraudulent or low quality."
    }
    function Color(): string {
      match this
      case Buy => "success"
      case BeCareful => "warning"
      case Avoid => "danger"
    }
    /** How favourable the recommendation is. */
    function Rank(): nat {
      match this
      case Buy => 2
      case BeCareful => 1
      case Avoid => 0
    }
  }

  /** `generate_recommendation(trust_score)`, given its `overall_score`
      (`None` when the dict has none, read as 50). */
  function GenerateRecommendation(overall: Option<real>): (rec: Recommendation)
    ensures rec == Buy <==> overall.GetOr(50.0) >= 80.0
    ensures rec == BeCareful <==> 60.0 <= overall.GetOr(50.0) < 80.0
    ensures rec == Avoid <==> overall.GetOr(50.0) < 60.0
  {
    var score := overall.GetOr(50.0);
    if score >= 80.0 then Buy
    else if score >= 60.0 then BeCareful
    else Avoid
  }

  /** A higher score never gives a less favourable recommendation, and a
      missing score gives `Avoid`. */
  lemma RecommendationMonotone(a: real, b: real)
    requires a <= b
    ensures GenerateRecommendation(Some(a)).Rank() <= GenerateRecommendation(Some(b)).Rank()
    ensures GenerateRecommendation(None) == Avoid
  {
  }

  /** The exception result's 50 is the missing score's recommendation. */
  lemma ErrorResultAvoid()
    ensures GenerateRecommendation(Some(ErrorResult.overallScore)) == GenerateRecommendation(None)
  {
  }
}
