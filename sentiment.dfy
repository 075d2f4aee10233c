/** backend/sentiment_analyzer.py: text clean-up, the polarity thresholds,
    the per-review label and the aggregate over a list of reviews. The
    trained classifier and TextBlob's polarity are parameters. */
module Sentiment {
  import opened Common
  import opened Text
  import opened PyJson
  import opened Extraction

  // ---------------------------------------------------------------- clean-up

  /** `re.sub(r'[^a-zA-Z\s]', '', text)` */
  function KeepLettersAndSpace(s: string): string
    decreases |s|
  {
    if s == [] then []
    else if IsAlpha(s[0]) || IsSpace(s[0]) then [s[0]] + KeepLettersAndSpace(s[1..])
    else KeepLettersAndSpace(s[1..])
  }

  /** `re.sub(r'\s+', ' ', text)`; `inRun` says the previous character was
      whitespace already replaced by the single space. */
  function Collapse(s: string, inRun: bool): string
    decreases |s|
  {
    if s == [] then []
    else if IsSpace(s[0]) then (if inRun then [] else " ") + Collapse(s[1..], true)
    else [s[0]] + Collapse(s[1..], false)
  }

  /** `_preprocess_text` */
  function Preprocess(text: string): string {
    if text == "" then "" else Strip(Collapse(KeepLettersAndSpace(Lower(text)), false))
  }

  /** Lowercase ASCII letters separated by single spaces, no space at
      either end. */
  predicate Clean(s: string) {
    (forall i :: 0 <= i < |s| ==> IsLower(s[i]) || s[i] == ' ')
    && (s != [] ==> s[0] != ' ' && s[|s| - 1] != ' ')
    && NoDoubleSpace(s)
  }

  predicate NoDoubleSpace(s: string) {
    forall i :: 0 <= i < |s| - 1 ==> s[i] != ' ' || s[i + 1] != ' '
  }

  predicate LowerOrSpace(s: string) { forall i :: 0 <= i < |s| ==> IsLower(s[i]) || IsSpace(s[i]) }

  predicate LowerOrBlank(s: string) { forall i :: 0 <= i < |s| ==> IsLower(s[i]) || s[i] == ' ' }

  /** The letters of a string, in order. */
  function Letters(s: string): string
    decreases |s|
  {
    if s == [] then [] else (if IsAlpha(s[0]) then [s[0]] else []) + Letters(s[1..])
  }

  lemma LowerCons(s: string)
    requires s != []
    ensures Lower(s) == [LowerChar(s[0])] + Lower(s[1..])
  {
  }

  lemma {:induction false} KeepAfterLower(s: string)
    ensures LowerOrSpace(KeepLettersAndSpace(Lower(s)))
    decreases |s|
  {
    if s != [] {
      LowerCons(s);
      var l := Lower(s);
      assert l[1..] == Lower(s[1..]);
      KeepAfterLower(s[1..]);
    }
  }

  lemma {:induction false} CollapseShape(s: string, inRun: bool)
    requires LowerOrSpace(s)
    ensures LowerOrBlank(Collapse(s, inRun)) && NoDoubleSpace(Collapse(s, inRun))
    ensures inRun && Collapse(s, inRun) != [] ==> Collapse(s, inRun)[0] != ' '
    decreases |s|
  {
    if s != [] {
      assert LowerOrSpace(s[1..]) by {
        forall i | 0 <= i < |s[1..]| ensures IsLower(s[1..][i]) || IsSpace(s[1..][i]) { assert s[1..][i] == s[i + 1]; }
      }
      CollapseShape(s[1..], IsSpace(s[0]));
    }
  }

  /** Stripping a string keeps a slice of it. */
  lemma StripSlice(t: string) returns (k: nat)
    ensures k + |Strip(t)| <= |t| && Strip(t) == t[k..k + |Strip(t)|]
    ensures AllSpace(t[..k]) && AllSpace(t[k + |Strip(t)|..])
  {
    var l := LStrip(t);
    LStripShape(t);
    RStripShape(l);
    k := |t| - |l|;
    var m := |Strip(t)|;
    assert t[k..k + m] == l[..m];
    LStripPrefix(t);
    RStripSuffix(l);
    assert t[k + m..] == l[m..];
  }

  lemma {:induction false} LStripPrefix(s: string)
    ensures |LStrip(s)| <= |s| && AllSpace(s[..|s| - |LStrip(s)|])
    decreases |s|
  {
    if |s| > 0 && IsSpace(s[0]) {
      LStripPrefix(s[1..]);
      var k := |s| - |LStrip(s)|;
      forall i | 0 <= i < k ensures IsSpace(s[..k][i]) {
        if i > 0 { assert s[..k][i] == s[1..][..k - 1][i - 1]; }
      }
    }
  }

  lemma {:induction false} RStripSuffix(s: string)
    ensures |RStrip(s)| <= |s| && AllSpace(s[|RStrip(s)|..])
    decreases |s|
  {
    if |s| > 0 && IsSpace(s[|s| - 1]) {
      var t := s[..|s| - 1];
      RStripSuffix(t);
      var m := |RStrip(s)|;
      forall i | 0 <= i < |s| - m ensures IsSpace(s[m..][i]) {
        if m + i < |s| - 1 { assert s[m..][i] == t[m..][i]; }
      }
    }
  }

  lemma StripClean(t: string)
    requires LowerOrBlank(t) && NoDoubleSpace(t)
    ensures Clean(Strip(t))
  {
    var k := StripSlice(t);
    var r := Strip(t);
    StripShape(t);
    assert forall i :: 0 <= i < |r| ==> r[i] == t[k + i];
  }

  /** What the clean-up returns is clean. */
  lemma PreprocessClean(text: string)
    ensures Clean(Preprocess(text))
  {
    if text != "" {
      var kept := KeepLettersAndSpace(Lower(text));
      KeepAfterLower(text);
      CollapseShape(kept, false);
      StripClean(Collapse(kept, false));
    }
  }

  lemma {:induction false} KeepClean(s: string)
    requires LowerOrBlank(s)
    ensures KeepLettersAndSpace(s) == s
    decreases |s|
  {
    if s != [] {
      assert LowerOrBlank(s[1..]) by {
        forall i | 0 <= i < |s[1..]| ensures IsLower(s[1..][i]) || s[1..][i] == ' ' { assert s[1..][i] == s[i + 1]; }
      }
      KeepClean(s[1..]);
    }
  }

  lemma {:induction false} CollapseClean(s: string, inRun: bool)
    requires LowerOrBlank(s) && NoDoubleSpace(s)
    requires inRun && s != [] ==> s[0] != ' '
    ensures Collapse(s, inRun) == s
    decreases |s|
  {
    if s != [] {
      var t := s[1..];
      assert LowerOrBlank(t) && NoDoubleSpace(t) by {
        forall i | 0 <= i < |t| ensures IsLower(t[i]) || t[i] == ' ' { assert t[i] == s[i + 1]; }
        forall i | 0 <= i < |t| - 1 ensures t[i] != ' ' || t[i + 1] != ' ' { assert t[i] == s[i + 1] && t[i + 1] == s[i + 2]; }
      }
      if t != [] && s[0] == ' ' {
        assert s[0] != ' ' || s[1] != ' ';
      }
      CollapseClean(t, s[0] == ' ');
    }
  }

  /** A clean string is left as it is. */
  lemma PreprocessFixesClean(s: string)
    requires Clean(s)
    ensures Preprocess(s) == s
  {
    if s != "" {
      assert Lower(s) == s;
      KeepClean(s);
      CollapseClean(s, false);
      StripUnpadded(s);
    }
  }

  /** Cleaning twice is cleaning once. */
  lemma PreprocessIdempotent(text: string)
    ensures Preprocess(Preprocess(text)) == Preprocess(text)
  {
    PreprocessClean(text);
    PreprocessFixesClean(Preprocess(text));
  }

  lemma {:induction false} LettersAppend(a: string, b: string)
    ensures Letters(a + b) == Letters(a) + Letters(b)
    decreases |a|
  {
    if a == [] {
      assert a + b == b;
    } else {
      assert (a + b)[0] == a[0];
      assert (a + b)[1..] == a[1..] + b;
      LettersAppend(a[1..], b);
      var c := if IsAlpha(a[0]) then [a[0]] else [];
      assert Letters(a + b) == c + Letters(a[1..] + b);
      assert c + (Letters(a[1..]) + Letters(b)) == (c + Letters(a[1..])) + Letters(b);
    }
  }

  lemma {:induction false} LettersOfSpace(s: string)
    requires AllSpace(s)
    ensures Letters(s) == []
    decreases |s|
  {
    if s != [] {
      assert AllSpace(s[1..]) by {
        forall i | 0 <= i < |s[1..]| ensures IsSpace(s[1..][i]) { assert s[1..][i] == s[i + 1]; }
      }
      LettersOfSpace(s[1..]);
    }
  }

  lemma {:induction false} LettersOfLower(s: string)
    ensures Letters(Lower(s)) == Lower(Letters(s))
    decreases |s|
  {
    if s != [] {
      LowerCons(s);
      var l := Lower(s);
      assert l[1..] == Lower(s[1..]);
      LettersOfLower(s[1..]);
      var c := if IsAlpha(s[0]) then [s[0]] else [];
      assert Lower(c + Letters(s[1..])) == Lower(c) + Lower(Letters(s[1..]));
    }
  }

  lemma {:induction false} LettersOfKeep(s: string)
    ensures Letters(KeepLettersAndSpace(s)) == Letters(s)
    decreases |s|
  {
    if s != [] {
      LettersOfKeep(s[1..]);
      if IsAlpha(s[0]) || IsSpace(s[0]) {
        LettersAppend([s[0]], KeepLettersAndSpace(s[1..]));
      }
    }
  }

  lemma {:induction false} LettersOfCollapse(s: string, inRun: bool)
    ensures Letters(Collapse(s, inRun)) == Letters(s)
    decreases |s|
  {
    if s != [] {
      LettersOfCollapse(s[1..], IsSpace(s[0]));
      var head := if IsSpace(s[0]) then (if inRun then [] else " ") else [s[0]];
      LettersAppend(head, Collapse(s[1..], IsSpace(s[0])));
    }
  }

  lemma LettersOfStrip(t: string)
    ensures Letters(Strip(t)) == Letters(t)
  {
    var k := StripSlice(t);
    var m := |Strip(t)|;
    assert t == t[..k] + (t[k..k + m] + t[k + m..]);
    LettersAppend(t[..k], t[k..k + m] + t[k + m..]);
    LettersAppend(t[k..k + m], t[k + m..]);
    LettersOfSpace(t[..k]);
    LettersOfSpace(t[k + m..]);
  }

  /** The clean-up drops everything but letters and spacing: the letters
      that come out are those that went in, lower-cased and in order. */
  lemma PreprocessKeepsLetters(text: string)
    ensures Letters(Preprocess(text)) == Lower(Letters(text))
  {
    if text != "" {
      var kept := KeepLettersAndSpace(Lower(text));
      LettersOfStrip(Collapse(kept, false));
      LettersOfCollapse(kept, false);
      LettersOfKeep(Lower(text));
      LettersOfLower(text);
    }
  }

  // ---------------------------------------------------------------- labels

  datatype Label = Positive | Neutral | Negative {
    /** The label's string in the result dictionaries. */
    function Text(): string {
      match this
      case Positive => "positive"
      case Neutral => "neutral"
      case Negative => "negative"
    }

    function Rank(): int {
      match this
      case Positive => 1
      case Neutral => 0
      case Negative => -1
    }
  }

  /** `_get_textblob_sentiment`: `None` is a polarity that could not be
      computed, which the source catches and reports as neutral. */
  function PolarityLabel(polarity: Option<real>): (l: Label)
    ensures l == Positive <==> polarity.Some? && polarity.value > 0.1
    ensures l == Negative <==> polarity.Some? && polarity.value < -0.1
    ensures l == Neutral <==> polarity.None? || -0.1 <= polarity.value <= 0.1
  {
    match polarity
    case None => Neutral
    case Some(p) => if p > 0.1 then Positive else if p < -0.1 then Negative else Neutral
  }

  /** A higher polarity never gives a lower label. */
  lemma PolarityMonotone(p: real, q: real)
    requires p <= q
    ensures PolarityLabel(Some(p)).Rank() <= PolarityLabel(Some(q)).Rank()
  {
  }

  /** The trained model applied to the cleaned text; `None` stands for "no
      model loaded" and for a prediction that raised. */
  type Classifier = string -> Option<Label>

  /** TextBlob's polarity of a text; `None` when it raised. */
  type Polarity = string -> Option<real>

  /** `_get_ml_sentiment` */
  function MlLabel(text: string, model: Classifier, polarity: Polarity): (l: Label)
    ensures model(Preprocess(text)).Some? ==> l == model(Preprocess(text)).value
    ensures model(Preprocess(text)).None? ==> l == PolarityLabel(polarity(text))
  {
    match model(Preprocess(text))
    case Some(l) => l
    case None => PolarityLabel(polarity(text))
  }

  /** `analyze_single_review` */
  function ReviewLabel(text: string, model: Classifier, polarity: Polarity): (l: Label)
    ensures AllSpace(text) ==> l == Neutral
    ensures !AllSpace(text) ==> l == MlLabel(text, model, polarity)
  {
    StripShape(text);
    if text == "" || Strip(text) == "" then Neutral else MlLabel(text, model, polarity)
  }

  // ---------------------------------------------------------------- review texts

  /** The text `analyze_reviews` takes from one review: a dict's `text`
      (default `''`), `str()` of anything else. A falsy text is neutral
      without further ado, a truthy one must be a string for `.strip()`,
      and `len()` then needs a string, list or dict; `None` where one of
      these raises. */
  function TextOf(review: Json, strOf: StrOf): Option<Json> {
    match review
    case JObj(m) =>
      var t := if "text" in m then m["text"] else JStr("");
      if !Truthy(t) then (if t.JStr? || t.JArr? || t.JObj? then Some(t) else None)
      else if t.JStr? then Some(t)
      else None
    case _ => Some(JStr(PyStr(review, strOf)))
  }

  /** A dict review whose `text` is neither a string nor an empty list or
      dict. */
  predicate RaisingText(review: Json) {
    review.JObj? && "text" in review.fields &&
    var t := review.fields["text"];
    !t.JStr? && t != JArr([]) && t != JObj(map[])
  }

  /** A review's text raises exactly when it is a dict's non-string
      `text` other than an empty list or dict; the texts that get through
      are strings and those two empty containers. */
  lemma TextOfRaisesIff(review: Json, strOf: StrOf)
    ensures TextOf(review, strOf).None? <==> RaisingText(review)
    ensures TextOf(review, strOf).Some? ==>
      var t := TextOf(review, strOf).value; t.JStr? || t == JArr([]) || t == JObj(map[])
  {
  }

  /** The texts of all reviews, `None` when one of them raises. */
  function TextsOf(reviews: seq<Json>, strOf: StrOf): (r: Option<seq<Json>>)
    ensures r.Some? ==> |r.value| == |reviews|
  {
    if reviews == [] then Some([])
    else
      match TextsOf(reviews[..|reviews| - 1], strOf)
      case None => None
      case Some(ts) =>
        match TextOf(reviews[|reviews| - 1], strOf)
        case None => None
        case Some(t) => Some(ts + [t])
  }

  // ---------------------------------------------------------------- aggregate

  /** One entry of `detailed_sentiments`. */
  datatype Detail = Detail(text: Json, sentiment: Label)

  /** The result dictionary of `analyze_reviews`. */
  datatype Summary = Summary(
    positive: nat, neutral: nat, negative: nat, totalReviews: nat,
    sentimentScore: real, detailed: seq<Detail>)

  const EmptySummary := Summary(0, 0, 0, 0, 0.0, [])

  /** The text shown in a detail entry. */
  function Shorten(text: string): (r: string)
    ensures |text| <= 100 ==> r == text
    ensures |text| > 100 ==> |r| == 103 && r[..100] == text[..100] && r[100..] == "..."
  {
    if |text| > 100 then text[..100] + "..." else text
  }

  /** `review_text[:100] + '...' if len(review_text) > 100 else
      review_text`: an empty list or dict has length 0 and is shown as it
      is. */
  function Shown(t: Json): Json {
    if t.JStr? then JStr(Shorten(t.s)) else t
  }

  /** `analyze_single_review(review_text)`: a text that is not a string
      has got this far only when falsy, and is neutral. */
  function TextLabel(t: Json, model: Classifier, polarity: Polarity): Label {
    if t.JStr? then ReviewLabel(t.s, model, polarity) else Neutral
  }

  /** `labels.count(l)` */
  function Count(labels: seq<Label>, l: Label): (n: nat)
    ensures n <= |labels|
  {
    if labels == [] then 0
    else Count(labels[..|labels| - 1], l) + (if labels[|labels| - 1] == l then 1 else 0)
  }

  lemma {:induction false} CountsPartition(labels: seq<Label>)
    ensures Count(labels, Positive) + Count(labels, Neutral) + Count(labels, Negative) == |labels|
    decreases |labels|
  {
    if labels != [] {
      CountsPartition(labels[..|labels| - 1]);
    }
  }

  /** `(positive_count - negative_count) / total_count` */
  function Score(pos: nat, neg: nat, total: nat): real
    requires total > 0
  {
    (pos as int - neg as int) as real / total as real
  }

  lemma ScoreRange(pos: nat, neg: nat, total: nat)
    requires total > 0 && pos + neg <= total
    ensures -1.0 <= Score(pos, neg, total) <= 1.0
    ensures Score(pos, neg, total) == 1.0 <==> pos == total
    ensures Score(pos, neg, total) == -1.0 <==> neg == total
  {
    var x := Score(pos, neg, total);
    var t := total as real;
    assert x * t == (pos as int - neg as int) as real;
    assert x > 1.0 ==> x * t > 1.0 * t;
    assert x < -1.0 ==> x * t < -1.0 * t;
    assert x == 1.0 ==> (pos as int - neg as int) as real == t;
    assert x == -1.0 ==> (pos as int - neg as int) as real == -t;
    assert pos == total ==> x * t == t;
    assert neg == total ==> x * t == -t;
  }

  /** The labels of the texts. */
  function Labels(texts: seq<Json>, model: Classifier, polarity: Polarity): (ls: seq<Label>)
    ensures |ls| == |texts|
  {
    seq(|texts|, i requires 0 <= i < |texts| => TextLabel(texts[i], model, polarity))
  }

  /** Every review's detail entry. */
  function Details(texts: seq<Json>, labels: seq<Label>): (ds: seq<Detail>)
    requires |labels| == |texts|
    ensures |ds| == |texts|
  {
    seq(|texts|, i requires 0 <= i < |texts| => Detail(Shown(texts[i]), labels[i]))
  }

  /** `detailed_sentiments[:5]` */
  function FirstDetails(texts: seq<Json>, labels: seq<Label>): (ds: seq<Detail>)
    requires |labels| == |texts|
    ensures |ds| == Min(5, |texts|)
  {
    Details(texts, labels)[..Min(5, |texts|)]
  }

  function Summarize(texts: seq<Json>, labels: seq<Label>): Summary
    requires |labels| == |texts| > 0
  {
    var pos := Count(labels, Positive);
    var neg := Count(labels, Negative);
    Summary(pos, Count(labels, Neutral), neg, |labels|, Score(pos, neg, |labels|), FirstDetails(texts, labels))
  }

  /** `analyze_reviews`; `None` is a review whose text raises. */
  function AnalyzeReviewsSpec(reviews: seq<Json>, strOf: StrOf, model: Classifier, polarity: Polarity): Option<Summary> {
    if reviews == [] then Some(EmptySummary)
    else
      match TextsOf(reviews, strOf)
      case None => None
      case Some(texts) => Some(Summarize(texts, Labels(texts, model, polarity)))
  }

  /** `analyze_reviews`: the counts and the score over what the loop
      collected. */
  method AnalyzeReviews(reviews: seq<Json>, strOf: StrOf, model: Classifier, polarity: Polarity)
    returns (r: Option<Summary>)
    ensures r == AnalyzeReviewsSpec(reviews, strOf, model, polarity)
  {
    if reviews == [] {
      return Some(EmptySummary);
    }
    var texts, sentiments, detailed := LabelReviews(reviews, strOf, model, polarity);
    if texts.None? {
      return None;
    }
    var pos := Count(sentiments, Positive);
    var neu := Count(sentiments, Neutral);
    var neg := Count(sentiments, Negative);
    var total := |sentiments|;
    var score := Score(pos, neg, total);
    SpecUnfold(reviews, strOf, model, polarity, texts.value);
    r := Some(Summary(pos, neu, neg, total, score, detailed[..Min(5, total)]));
  }

  /** The loop of `analyze_reviews`: each review's text, its label and its
      detail entry, stopping at the first text that raises. */
  method LabelReviews(reviews: seq<Json>, strOf: StrOf, model: Classifier, polarity: Polarity)
    returns (texts: Option<seq<Json>>, sentiments: seq<Label>, detailed: seq<Detail>)
    ensures texts == TextsOf(reviews, strOf)
    ensures texts.Some? ==> sentiments == Labels(texts.value, model, polarity)
    ensures texts.Some? ==> detailed == Details(texts.value, sentiments)
  {
    var seen: seq<Json> := [];
    sentiments, detailed := [], [];
    var i := 0;
    while i < |reviews|
      invariant 0 <= i <= |reviews|
      invariant TextsOf(reviews[..i], strOf) == Some(seen)
      invariant sentiments == Labels(seen, model, polarity)
      invariant detailed == Details(seen, sentiments)
    {
      var text := TextOf(reviews[i], strOf);
      if text.None? {
        TextsStop(reviews, strOf, i);
        return None, sentiments, detailed;
      }
      TextsStep(reviews, strOf, i, seen, text.value);
      var sentiment := TextLabel(text.value, model, polarity);
      LabelsSnoc(seen, text.value, model, polarity);
      DetailsSnoc(seen, sentiments, text.value, sentiment);
      seen := seen + [text.value];
      sentiments := sentiments + [sentiment];
      detailed := detailed + [Detail(Shown(text.value), sentiment)];
      i := i + 1;
    }
    assert reviews[..i] == reviews;
    texts := Some(seen);
  }

  lemma SpecUnfold(reviews: seq<Json>, strOf: StrOf, model: Classifier, polarity: Polarity, texts: seq<Json>)
    requires reviews != [] && TextsOf(reviews, strOf) == Some(texts)
    ensures AnalyzeReviewsSpec(reviews, strOf, model, polarity) == Some(Summarize(texts, Labels(texts, model, polarity)))
  {
  }

  lemma LabelsSnoc(texts: seq<Json>, t: Json, model: Classifier, polarity: Polarity)
    ensures Labels(texts + [t], model, polarity) == Labels(texts, model, polarity) + [TextLabel(t, model, polarity)]
  {
    var l := Labels(texts + [t], model, polarity);
    var r := Labels(texts, model, polarity) + [TextLabel(t, model, polarity)];
    forall k | 0 <= k < |l| ensures l[k] == r[k] {
      if k < |texts| { assert (texts + [t])[k] == texts[k]; }
    }
  }

  lemma DetailsSnoc(texts: seq<Json>, labels: seq<Label>, t: Json, l: Label)
    requires |labels| == |texts|
    ensures Details(texts + [t], labels + [l]) == Details(texts, labels) + [Detail(Shown(t), l)]
  {
    var d := Details(texts + [t], labels + [l]);
    var e := Details(texts, labels) + [Detail(Shown(t), l)];
    forall k | 0 <= k < |d| ensures d[k] == e[k] {
      if k < |texts| { assert (texts + [t])[k] == texts[k] && (labels + [l])[k] == labels[k]; }
    }
  }

  lemma TextsStep(items: seq<Json>, strOf: StrOf, i: nat, texts: seq<Json>, t: Json)
    requires i < |items| && TextsOf(items[..i], strOf) == Some(texts)
    requires TextOf(items[i], strOf) == Some(t)
    ensures TextsOf(items[..i + 1], strOf) == Some(texts + [t])
  {
    assert items[..i + 1][..i] == items[..i];
  }

  lemma TextsStop(items: seq<Json>, strOf: StrOf, i: nat)
    requires i < |items| && TextsOf(items[..i], strOf).Some?
    requires TextOf(items[i], strOf).None?
    ensures TextsOf(items, strOf).None?
  {
    assert items[..i + 1][..i] == items[..i];
    TextsFail(items, strOf, i + 1);
  }

  /** A review that raises makes the whole list raise. */
  lemma {:induction false} TextsFail(items: seq<Json>, strOf: StrOf, j: nat)
    requires j <= |items| && TextsOf(items[..j], strOf).None?
    ensures TextsOf(items, strOf).None?
    decreases |items| - j
  {
    if j == |items| {
      assert items[..j] == items;
    } else {
      assert items[..j + 1][..j] == items[..j];
      TextsFail(items, strOf, j + 1);
    }
  }

  /** The text of the `i`-th review is the `i`-th of the texts. */
  lemma {:induction false} TextAt(items: seq<Json>, strOf: StrOf, i: nat)
    requires TextsOf(items, strOf).Some? && i < |items|
    ensures TextOf(items[i], strOf) == Some(TextsOf(items, strOf).value[i])
    decreases |items|
  {
    var n := |items|;
    if i < n - 1 {
      var front := items[..n - 1];
      assert front[i] == items[i];
      TextAt(front, strOf, i);
    }
  }

  // ---------------------------------------------------------------- facts

  /** No reviews: every count and the score are zero, no details. */
  lemma NoReviewsEmptySummary(strOf: StrOf, model: Classifier, polarity: Polarity)
    ensures AnalyzeReviewsSpec([], strOf, model, polarity) == Some(Summary(0, 0, 0, 0, 0.0, []))
  {
  }

  /** The counts split the reviews, and the score is their balance in [-1, 1]. */
  lemma SummaryCounts(reviews: seq<Json>, strOf: StrOf, model: Classifier, polarity: Polarity)
    requires AnalyzeReviewsSpec(reviews, strOf, model, polarity).Some?
    ensures var s := AnalyzeReviewsSpec(reviews, strOf, model, polarity).value;
      && s.totalReviews == |reviews|
      && s.positive + s.neutral + s.negative == s.totalReviews
      && -1.0 <= s.sentimentScore <= 1.0
      && (s.totalReviews > 0 ==> s.sentimentScore == Score(s.positive, s.negative, s.totalReviews))
  {
    if reviews != [] {
      var texts := TextsOf(reviews, strOf).value;
      var ls := Labels(texts, model, polarity);
      CountsPartition(ls);
      ScoreRange(Count(ls, Positive), Count(ls, Negative), |ls|);
    }
  }

  /** Each count is the number of reviews with that label. */
  lemma SummaryCountsLabels(reviews: seq<Json>, strOf: StrOf, model: Classifier, polarity: Polarity)
    requires reviews != [] && TextsOf(reviews, strOf).Some?
    ensures var ls := Labels(TextsOf(reviews, strOf).value, model, polarity);
      var s := AnalyzeReviewsSpec(reviews, strOf, model, polarity).value;
      s.positive == Count(ls, Positive) && s.neutral == Count(ls, Neutral) && s.negative == Count(ls, Negative)
  {
  }

  /** The details are the first five reviews, in input order, each with its
      shown text and its label. */
  lemma DetailsInOrder(reviews: seq<Json>, strOf: StrOf, model: Classifier, polarity: Polarity, i: nat)
    requires AnalyzeReviewsSpec(reviews, strOf, model, polarity).Some?
    ensures var ds := AnalyzeReviewsSpec(reviews, strOf, model, polarity).value.detailed;
      |ds| == Min(5, |reviews|)
      && (i < |ds| ==> (TextOf(reviews[i], strOf).Some?
          && ds[i] == Detail(Shown(TextOf(reviews[i], strOf).value),
                             TextLabel(TextOf(reviews[i], strOf).value, model, polarity))))
  {
    if reviews != [] && i < Min(5, |reviews|) {
      TextAt(reviews, strOf, i);
    }
  }

  /** A dict review whose `text` is an empty list or dict does not raise:
      it is neutral and shown as it is. */
  lemma EmptyContainerTextNeutral(reviews: seq<Json>, strOf: StrOf, model: Classifier, polarity: Polarity, i: nat)
    requires AnalyzeReviewsSpec(reviews, strOf, model, polarity).Some?
    requires i < Min(5, |reviews|) && reviews[i].JObj? && "text" in reviews[i].fields
    requires reviews[i].fields["text"] in {JArr([]), JObj(map[])}
    ensures var ds := AnalyzeReviewsSpec(reviews, strOf, model, polarity).value.detailed;
      ds[i] == Detail(reviews[i].fields["text"], Neutral)
  {
    DetailsInOrder(reviews, strOf, model, polarity, i);
  }

  /** The analysis raises exactly when some review is a dict whose `text`
      is neither a string nor an empty list or dict. */
  lemma RaisesIff(reviews: seq<Json>, strOf: StrOf, model: Classifier, polarity: Polarity)
    ensures AnalyzeReviewsSpec(reviews, strOf, model, polarity).None?
        <==> exists i :: 0 <= i < |reviews| && RaisingText(reviews[i])
  {
    if AnalyzeReviewsSpec(reviews, strOf, model, polarity).None? {
      var i := TextsNoneWitness(reviews, strOf);
      TextOfRaisesIff(reviews[i], strOf);
    } else if reviews != [] {
      forall i | 0 <= i < |reviews| ensures !RaisingText(reviews[i]) {
        TextAt(reviews, strOf, i);
        TextOfRaisesIff(reviews[i], strOf);
      }
    }
  }

  lemma {:induction false} TextsNoneWitness(reviews: seq<Json>, strOf: StrOf) returns (i: nat)
    requires TextsOf(reviews, strOf).None?
    ensures i < |reviews| && TextOf(reviews[i], strOf).None?
    decreases |reviews|
  {
    var front := reviews[..|reviews| - 1];
    if TextsOf(front, strOf).None? {
      i := TextsNoneWitness(front, strOf);
      assert front[i] == reviews[i];
    } else {
      i := |reviews| - 1;
    }
  }
}
