/** The regular expressions of the scrapers, each written out as a matcher.
    Every pattern used with `re.search`/`re.findall` here is either an
    amount `SYM \s? LEAD+ \.? \d*` (with the optional parts switched on or
    off) or the Amazon product-id alternation; `\d` is ASCII. */
module Patterns {
  import opened Common
  import opened Text

  predicate IsDigitOrComma(c: char) { IsDigit(c) || c == ',' }
  predicate IsTokenChar(c: char) { IsLower(c) || IsDigit(c) }
  predicate IsAsinChar(c: char) { IsUpper(c) || IsDigit(c) }

  /** Length of the longest run of `p`-characters starting at `i`. */
  function RunLen(s: string, i: nat, p: char -> bool): (n: nat)
    requires i <= |s|
    ensures i + n <= |s|
    ensures forall k :: i <= k < i + n ==> p(s[k])
    ensures i + n < |s| ==> !p(s[i + n])
    decreases |s| - i
  {
    if i < |s| && p(s[i]) then 1 + RunLen(s, i + 1, p) else 0
  }

  /** A run whose every character is a `p`-character and which stops at the
      end or at a non-`p` character has exactly the length `RunLen` finds. */
  lemma {:induction false} RunLenExact(s: string, i: nat, n: nat, p: char -> bool)
    requires i + n <= |s|
    requires forall k :: i <= k < i + n ==> p(s[k])
    requires i + n == |s| || !p(s[i + n])
    ensures RunLen(s, i, p) == n
    decreases n
  {
    if n > 0 {
      RunLenExact(s, i + 1, n - 1, p);
    }
  }

  datatype Regex =
    /** `sym`, then (when `space`) an optional whitespace character, then
        `[\d,]+` (when `commas`) or `\d+`, then (when `frac`) `\.?\d*`. */
    | Amount(sym: string, space: bool, commas: bool, frac: bool)
    /** `/dp/([A-Z0-9]{10})|/gp/product/([A-Z0-9]{10})` */
    | AsinPath

  function Lead(commas: bool): char -> bool {
    if commas then IsDigitOrComma else IsDigit
  }

  /** `\$\s?[\d,]+\.?\d*` */
  const DollarAmount := Amount("$", true, true, true)
  /** `[\d,]+\.?\d*` */
  const GroupedNumber := Amount("", false, true, true)
  /** `\d+\.?\d*` (also written `[\d]+\.?\d*` and `(\d+\.?\d*)`) */
  const DecimalNumber := Amount("", false, false, true)
  /** `\d+` */
  const Integer := Amount("", false, false, false)
  /** `/itm/(\d+)` */
  const EbayItem := Amount("/itm/", false, false, false)
  /** `SYM[\d,]+\.?\d*` for a currency symbol `SYM` */
  function SymbolAmount(sym: string): Regex { Amount(sym, false, true, true) }

  /** Where a match of `r` that starts at `i` ends, if one does (the
      greedy alternative the backtracking engine tries first). */
  function MatchAt(r: Regex, s: string, i: nat): (e: Option<nat>)
    requires i <= |s|
    ensures e.Some? ==> i < e.value <= |s|
    ensures e.Some? && r.AsinPath? ==> e.value >= i + 14
    ensures e.Some? && r.Amount? ==> e.value > i + |r.sym|
  {
    match r
    case Amount(sym, space, commas, frac) =>
      if !(i + |sym| <= |s| && s[i..i + |sym|] == sym) then None
      else
        var j := i + |sym|;
        var j' := if space && j + 1 < |s| && IsSpace(s[j]) && Lead(commas)(s[j + 1]) then j + 1 else j;
        var n := RunLen(s, j', Lead(commas));
        if n == 0 then None
        else
          var k := j' + n;
          if frac && k < |s| && s[k] == '.' then Some(k + 1 + RunLen(s, k + 1, IsDigit)) else Some(k)
    case AsinPath =>
      if i + 14 <= |s| && s[i..i + 4] == "/dp/" && RunLen(s, i + 4, IsAsinChar) >= 10 then Some(i + 14)
      else if i + 22 <= |s| && s[i..i + 12] == "/gp/product/" && RunLen(s, i + 12, IsAsinChar) >= 10 then Some(i + 22)
      else None
  }

  /** `re.search(r, s[i:])`: the leftmost match, as (start, end). */
  function SearchFrom(r: Regex, s: string, i: nat): (m: Option<(nat, nat)>)
    requires i <= |s|
    ensures m.Some? ==> i <= m.value.0 < m.value.1 <= |s| && MatchAt(r, s, m.value.0) == Some(m.value.1)
    ensures m.Some? ==> forall k :: i <= k < m.value.0 ==> MatchAt(r, s, k).None?
    ensures m.None? ==> forall k :: i <= k <= |s| ==> MatchAt(r, s, k).None?
    decreases |s| - i
  {
    match MatchAt(r, s, i)
    case Some(e) => Some((i, e))
    case None =>
      if i == |s| then None
      else
        var m := SearchFrom(r, s, i + 1);
        NoMatchExtends(r, s, i, if m.Some? then m.value.0 else |s| + 1);
        m
  }

  /** No match at `i` and none from `i + 1` to `j`: none from `i` to `j`. */
  lemma NoMatchExtends(r: Regex, s: string, i: nat, j: nat)
    requires i < |s| && MatchAt(r, s, i).None?
    ensures (forall k :: i + 1 <= k < j && k <= |s| ==> MatchAt(r, s, k).None?) ==>
            (forall k :: i <= k < j && k <= |s| ==> MatchAt(r, s, k).None?)
  {
  }

  /** The leftmost match is the first position, from `i` on, where `r` matches. */
  lemma {:induction false} SearchFromFinds(r: Regex, s: string, i: nat, j: nat)
    requires i <= j <= |s| && MatchAt(r, s, j).Some?
    requires forall k :: i <= k < j ==> MatchAt(r, s, k).None?
    ensures SearchFrom(r, s, i) == Some((j, MatchAt(r, s, j).value))
    decreases j - i
  {
    if i < j {
      assert MatchAt(r, s, i).None?;
      SearchFromFinds(r, s, i + 1, j);
    }
  }

  function Search(r: Regex, s: string): Option<(nat, nat)> { SearchFrom(r, s, 0) }

  /** `m.group()` of `re.search(r, s)`, if there is a match. */
  function SearchText(r: Regex, s: string): Option<string> {
    match Search(r, s)
    case Some((a, b)) => Some(s[a..b])
    case None => None
  }

  /** The first text of `texts` that `r` matches somewhere. */
  function FirstMatching(r: Regex, texts: seq<string>): (t: Option<string>)
    ensures t.Some? ==> t.value in texts && Search(r, t.value).Some?
  {
    if texts == [] then None
    else if Search(r, texts[0]).Some? then Some(texts[0])
    else FirstMatching(r, texts[1..])
  }

  /** `re.findall(r'[a-z0-9]{3,}', s)`: the maximal runs of `[a-z0-9]` of
      length at least 3, left to right. */
  function Tokens(s: string): seq<string> { TokensFrom(s, 0) }

  function TokensFrom(s: string, i: nat): (ts: seq<string>)
    requires i <= |s|
    ensures forall t :: t in ts ==> |t| >= 3 && forall k :: 0 <= k < |t| ==> IsTokenChar(t[k])
    decreases |s| - i
  {
    if i == |s| then []
    else
      var n := RunLen(s, i, IsTokenChar);
      if n == 0 then TokensFrom(s, i + 1)
      else (if n >= 3 then [s[i..i + n]] else []) + TokensFrom(s, i + n)
  }

  /** No token can be drawn from a string with fewer than three characters. */
  lemma {:induction false} NoTokensInShort(s: string, i: nat)
    requires i <= |s| && |s| < 3
    ensures TokensFrom(s, i) == []
    decreases |s| - i
  {
    if i < |s| {
      var n := RunLen(s, i, IsTokenChar);
      if n == 0 {
        NoTokensInShort(s, i + 1);
      } else {
        NoTokensInShort(s, i + n);
        assert n < 3;
        assert TokensFrom(s, i) == [] + TokensFrom(s, i + n);
      }
    }
  }

  /** A string made only of token characters, three or more of them, is
      its own single token. */
  lemma WholeToken(s: string)
    requires |s| >= 3 && forall k :: 0 <= k < |s| ==> IsTokenChar(s[k])
    ensures Tokens(s) == [s]
  {
    RunLenExact(s, 0, |s|, IsTokenChar);
    assert TokensFrom(s, |s|) == [];
    assert Tokens(s) == [s[0..|s|]] + TokensFrom(s, |s|);
    assert s[0..|s|] == s;
  }

  /** A match of `\d+` is a non-empty run of digits. */
  lemma IntegerMatchDigits(s: string)
    ensures SearchText(Integer, s).Some? ==> SearchText(Integer, s).value != "" && AllDigits(SearchText(Integer, s).value)
  {
    var m := Search(Integer, s);
    if m.Some? {
      var (a, b) := m.value;
      var n := RunLen(s, a, Lead(false));
      assert b == a + n;
      assert forall k :: 0 <= k < b - a ==> s[a..b][k] == s[a + k];
    }
  }

  /** A match of `\d+\.?\d*` starts with a digit. */
  lemma DecimalMatchLeads(s: string)
    ensures SearchText(DecimalNumber, s).Some? ==> SearchText(DecimalNumber, s).value != "" && IsDigit(SearchText(DecimalNumber, s).value[0])
  {
    var m := Search(DecimalNumber, s);
    if m.Some? {
      var (a, b) := m.value;
      var n := RunLen(s, a, Lead(false));
      assert n > 0 && Lead(false)(s[a]);
      assert s[a..b][0] == s[a];
    }
  }

  /** A match of `SYM[\d,]+\.?\d*` starts with `SYM` and goes on past it. */
  lemma SymbolMatchLeads(sym: string, s: string)
    ensures var m := SearchText(SymbolAmount(sym), s);
      m.Some? ==> |m.value| > |sym| && StartsWith(m.value, sym)
  {
    var m := Search(SymbolAmount(sym), s);
    if m.Some? {
      var (a, b) := m.value;
      assert s[a..a + |sym|] == sym;
      assert s[a..b][..|sym|] == s[a..a + |sym|];
    }
  }
}
