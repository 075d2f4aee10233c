/** The selector loops the prototype scrapers share: try CSS selectors in
    order and keep the first element text that passes a test. */
module Selectors {
  import opened Common
  import opened Text
  import opened Patterns

  /** What `soup.select_one(selector).get_text(strip=True)` gives for each
      selector with a match, the empty text included (a found tag is always
      true under `if element:`). A selector without a match is absent. */
  type Found = map<string, string>

  /** What a selector loop keeps of a candidate text. */
  datatype Accept =
    /** the text, when `text and len(text) > n` */
    | LongerThan(n: nat)
    /** the text, when `text and any(s in text for s in symbols)` */
    | HasAnyOf(symbols: seq<string>)
    /** the text, whatever it is (the loop stops at the first element) */
    | Present
    /** the first match of `r` in the text, when there is one */
    | Matching(r: Regex)

  /** The value a candidate text gives, if it passes. */
  function Picked(a: Accept, t: string): (v: Option<string>)
    ensures a.LongerThan? ==> (v.Some? <==> |t| > a.n) && (v.Some? ==> v.value == t)
    ensures a.HasAnyOf? ==> (v.Some? <==> t != "" && ContainsAny(t, a.symbols)) && (v.Some? ==> v.value == t)
    ensures a.Present? ==> v == Some(t)
    ensures a.Matching? ==> v == SearchText(a.r, t)
  {
    match a
    case LongerThan(n) => if t != "" && |t| > n then Some(t) else None
    case HasAnyOf(symbols) => if t != "" && ContainsAny(t, symbols) then Some(t) else None
    case Present => Some(t)
    case Matching(r) => SearchText(r, t)
  }

  /** Selector `k` has a match whose text passes. */
  predicate Hit(sels: seq<string>, found: Found, a: Accept, k: nat)
    requires k < |sels|
  {
    sels[k] in found && Picked(a, found[sels[k]]).Some?
  }

  /** `v` is the text of the first selector that hits, or `default` when
      none does. */
  predicate FirstHitOr(sels: seq<string>, found: Found, a: Accept, v: string, default: string) {
    ((forall k :: 0 <= k < |sels| ==> !Hit(sels, found, a, k)) && v == default)
    || exists k :: 0 <= k < |sels| && Hit(sels, found, a, k) && v == found[sels[k]]
         && forall j :: 0 <= j < k ==> !Hit(sels, found, a, j)
  }

  /** The value of the first selector that hits. */
  function FirstAccepted(sels: seq<string>, found: Found, a: Accept): Option<string>
    decreases |sels|
  {
    if sels == [] then None
    else if sels[0] in found && Picked(a, found[sels[0]]).Some? then Picked(a, found[sels[0]])
    else FirstAccepted(sels[1..], found, a)
  }

  /** `FirstAccepted` finds the first hit, and finds nothing only when no
      selector hits. */
  lemma {:induction false} FirstAcceptedIsFirst(sels: seq<string>, found: Found, a: Accept)
    ensures FirstAccepted(sels, found, a).None? <==> forall k :: 0 <= k < |sels| ==> !Hit(sels, found, a, k)
    ensures FirstAccepted(sels, found, a).Some? ==>
      exists k :: 0 <= k < |sels| && Hit(sels, found, a, k) && FirstAccepted(sels, found, a) == Picked(a, found[sels[k]])
        && forall j :: 0 <= j < k ==> !Hit(sels, found, a, j)
    decreases |sels|
  {
    if sels != [] && !(sels[0] in found && Picked(a, found[sels[0]]).Some?) {
      var rest := sels[1..];
      FirstAcceptedIsFirst(rest, found, a);
      assert forall k :: 1 <= k < |sels| ==> (Hit(sels, found, a, k) <==> Hit(rest, found, a, k - 1));
      if FirstAccepted(rest, found, a).Some? {
        var k :| 0 <= k < |rest| && Hit(rest, found, a, k) && FirstAccepted(rest, found, a) == Picked(a, found[rest[k]])
          && forall j :: 0 <= j < k ==> !Hit(rest, found, a, j);
        assert Hit(sels, found, a, k + 1) && forall j :: 0 <= j < k + 1 ==> !Hit(sels, found, a, j);
      }
    } else if sels != [] {
      assert Hit(sels, found, a, 0);
    }
  }

  /** `for selector in selectors: … if passes: …; break` */
  method ScanSelectors(sels: seq<string>, found: Found, a: Accept) returns (r: Option<string>)
    ensures r == FirstAccepted(sels, found, a)
  {
    r := None;
    var i := 0;
    while i < |sels|
      invariant 0 <= i <= |sels|
      invariant FirstAccepted(sels, found, a) == FirstAccepted(sels[i..], found, a)
    {
      assert sels[i..][1..] == sels[i + 1..];
      if sels[i] in found {
        var v := Picked(a, found[sels[i]]);
        if v.Some? {
          r := v;
          break;
        }
      }
      i := i + 1;
    }
  }
}
