/** The shop platforms the scrapers tell apart, and the ordered
    substring classification every platform detector performs. */
module Platforms {
  import opened Text

  datatype Platform = Amazon | Ebay | Daraz | AliExpress | Walmart | Target | Alibaba | Generic {
    /** The tag string the Python code uses for the platform. */
    function Tag(): string {
      match this
      case Amazon => "amazon"
      case Ebay => "ebay"
      case Daraz => "daraz"
      case AliExpress => "aliexpress"
      case Walmart => "walmart"
      case Target => "target"
      case Alibaba => "alibaba"
      case Generic => "generic"
    }
  }

  /** A detector's rule table: each platform with the markers any of which
      selects it, in the order they are tried. */
  type Rules = seq<(Platform, seq<string>)>

  /** The platform of the first rule one of whose markers occurs in
      `host`, or `Generic` when none does. */
  function Classify(rules: Rules, host: string): (p: Platform)
    ensures FirstRuleHit(rules, host, p) || (p == Generic && forall k :: 0 <= k < |rules| ==> !ContainsAny(host, rules[k].1))
    decreases |rules|
  {
    if rules == [] then Generic
    else if ContainsAny(host, rules[0].1) then rules[0].0
    else
      var p := Classify(rules[1..], host);
      assert forall k :: 1 <= k < |rules| ==> rules[k] == rules[1..][k - 1];
      assert NoEarlierHit(rules, host, 1);
      assert forall k :: 0 <= k < |rules[1..]| && NoEarlierHit(rules[1..], host, k) ==> NoEarlierHit(rules, host, k + 1);
      p
  }

  /** Some rule for `p` fires on `host`, and no earlier rule does. */
  predicate FirstRuleHit(rules: Rules, host: string, p: Platform) {
    exists k :: 0 <= k < |rules| && rules[k].0 == p && ContainsAny(host, rules[k].1) && NoEarlierHit(rules, host, k)
  }

  predicate NoEarlierHit(rules: Rules, host: string, k: nat)
    requires k <= |rules|
  {
    forall j :: 0 <= j < k ==> !ContainsAny(host, rules[j].1)
  }

  /** A rule with a single marker in front of `rest`. */
  lemma ClassifyStep(p: Platform, m: string, rest: Rules, host: string)
    ensures Classify([(p, [m])] + rest, host) == if Contains(host, m) then p else Classify(rest, host)
  {
    var rules := [(p, [m])] + rest;
    assert rules[0].1 == [m] && rules[1..] == rest;
    assert ContainsAny(host, [m]) <==> Contains(host, m) by { assert [m][0] == m; }
  }

  lemma {:induction false} LowerIdempotent(s: string)
    ensures Lower(Lower(s)) == Lower(s)
  {
    assert forall i :: 0 <= i < |s| ==> LowerChar(LowerChar(s[i])) == LowerChar(s[i]);
  }
}
