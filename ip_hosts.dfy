/** The test Python 3.12's `urlsplit` applies to the host between `[` and
    `]` of a netloc (`_check_bracketed_host`), with the parts of
    `ipaddress.IPv4Address` and `ipaddress.IPv6Address` it relies on: a
    bracketed host must be an IPvFuture literal (`v`, hex digits, `.`,
    anything) or an IPv6 address; an IPv4 address or anything else raises
    `ValueError`. */
module IpHosts {
  import opened Common
  import opened Text
  import opened Patterns

  const IpvFutureInvalid := "IPvFuture address is invalid"
  const Ipv4InBrackets := "An IPv4 address cannot be in brackets"

  /** The message of `ip_address(h)` for a text that is neither address;
      `repr` is written as single quotes around the text. */
  function NotAnAddress(h: string): string {
    "'" + h + "' does not appear to be an IPv4 or IPv6 address"
  }

  predicate IsHexDigit(c: char) { IsDigit(c) || ('a' <= c <= 'f') || ('A' <= c <= 'F') }

  /** `_parse_octet` accepts `o`: one to three ASCII digits, no leading
      zero, at most 255. */
  predicate IsOctet(o: string) {
    o != "" && AllDigits(o) && |o| <= 3 && !(o != "0" && o[0] == '0') && DigitsValue(o) <= 255
  }

  /** `IPv4Address(s)` succeeds: four octets separated by dots. */
  predicate IsIpv4(s: string) {
    '/' !in s && var os := Split(s, '.'); |os| == 4 && forall k :: 0 <= k < 4 ==> IsOctet(os[k])
  }

  /** `_parse_hextet` accepts `h`: one to four hex digits. */
  predicate IsHextet(h: string) {
    1 <= |h| <= 4 && forall k :: 0 <= k < |h| ==> IsHexDigit(h[k])
  }

  /** The parts once a dotted last part has been turned into the two
      hextets of its IPv4 address; `None` when it is not one. Those two
      hextets are always valid, and their values do not matter to whether
      the address parses, so they are written `0`. */
  function Hextets(parts: seq<string>): (r: Option<seq<string>>)
    requires parts != []
    ensures r.Some? && '.' in parts[|parts| - 1] ==> |r.value| == |parts| + 1
    ensures r.Some? && '.' !in parts[|parts| - 1] ==> r.value == parts
  {
    var last := parts[|parts| - 1];
    if '.' in last then (if IsIpv4(last) then Some(parts[..|parts| - 1] + ["0", "0"]) else None)
    else Some(parts)
  }

  /** The first empty part at an index in `[from, |parts| - 1)`, or -1:
      where a `::` skips zero hextets. */
  function GapFrom(parts: seq<string>, from: nat): (g: int)
    ensures g == -1 || (from <= g < |parts| - 1 && parts[g] == "")
    ensures g >= 0 ==> forall k :: from <= k < g ==> parts[k] != ""
    ensures g < 0 ==> forall k :: from <= k < |parts| - 1 ==> parts[k] != ""
    decreases |parts| - from
  {
    if from + 1 >= |parts| then -1
    else if parts[from] == "" then from
    else GapFrom(parts, from + 1)
  }

  /** The checks of `_ip_int_from_string` around a single `::` at `s`:
      an empty first (last) part is only allowed right before (after) it,
      it must stand for at least one hextet, and the parts before and
      after it must be hextets. */
  predicate SkipOk(parts: seq<string>, s: nat)
    requires 1 <= s < |parts| - 1
  {
    var n := |parts|;
    var hi := if parts[0] == "" then s - 1 else s;
    var lo := if parts[n - 1] == "" then n - s - 2 else n - s - 1;
    (parts[0] == "" ==> s == 1) && (parts[n - 1] == "" ==> s == n - 2)
    && hi + lo <= 7
    && (forall k :: 0 <= k < hi ==> IsHextet(parts[k]))
    && (forall k :: n - lo <= k < n ==> IsHextet(parts[k]))
  }

  /** The checks of `_ip_int_from_string` on the parts, once any IPv4
      suffix is converted: at most nine parts; without `::` exactly eight
      hextets; at most one `::`. */
  predicate HexAddress(parts: seq<string>) {
    |parts| <= 9 &&
    var g := GapFrom(parts, 1);
    if g < 0 then |parts| == 8 && forall k :: 0 <= k < 8 ==> IsHextet(parts[k])
    else GapFrom(parts, g as nat + 1) < 0 && SkipOk(parts, g as nat)
  }

  /** The part before a scope `%`, when the scope is well formed: no `%`
      at all, or one `%` followed by a non-empty scope. */
  function ScopedAddress(s: string): Option<string> {
    var ps := Split(s, '%');
    if |ps| == 1 then Some(s) else if |ps| == 2 && ps[1] != "" then Some(ps[0]) else None
  }

  /** `IPv6Address(s)` succeeds. */
  predicate IsIpv6(s: string) {
    '/' !in s &&
    match ScopedAddress(s)
    case None => false
    case Some(a) =>
      a != "" &&
      var parts := Split(a, ':');
      |parts| >= 3 &&
      match Hextets(parts)
      case None => false
      case Some(ps) => HexAddress(ps)
  }

  /** `re.match(r"\Av[a-fA-F0-9]+\..+\Z", h)` */
  predicate IsIpvFuture(h: string) {
    |h| > 0 && h[0] == 'v' &&
    var n := RunLen(h, 1, IsHexDigit);
    n >= 1 && 2 + n < |h| && h[1 + n] == '.' && '\n' !in h[2 + n..]
  }

  /** `_check_bracketed_host(h)`: `None` when it passes, otherwise the
      message of the `ValueError` it raises. */
  function CheckBracketedHost(h: string): (r: Option<string>)
    ensures r.None? <==> (|h| > 0 && h[0] == 'v' && IsIpvFuture(h)) || (!(|h| > 0 && h[0] == 'v') && IsIpv6(h))
  {
    NotBoth(h);
    if |h| > 0 && h[0] == 'v' then (if IsIpvFuture(h) then None else Some(IpvFutureInvalid))
    else if IsIpv4(h) then Some(Ipv4InBrackets)
    else if IsIpv6(h) then None
    else Some(NotAnAddress(h))
  }

  /** No text is both kinds of address: an IPv6 address has colons. */
  lemma NotBoth(h: string)
    ensures !(IsIpv4(h) && IsIpv6(h))
  {
    if IsIpv6(h) {
      var a := ScopedAddress(h).value;
      assert |Split(a, ':')| >= 3;
      SplitAtLeastTwo(a, ':');
      if IsIpv4(h) {
        ColonInOctets(h);
        ScopedHasColonWitness(h, a);
      }
    }
  }

  /** An IPv4 address holds no colon. */
  lemma ColonInOctets(h: string)
    requires IsIpv4(h)
    ensures ':' !in h
  {
    var os := Split(h, '.');
    JoinSplit(h, '.');
    forall k | 0 <= k < 4 ensures ':' !in os[k] {
      assert AllDigits(os[k]);
    }
    JoinLacks(os, '.', ':');
  }

  /** The address part before the scope is part of the text. */
  lemma ScopedHasColonWitness(h: string, a: string)
    requires ScopedAddress(h) == Some(a) && ':' in a
    ensures ':' in h
  {
    var ps := Split(h, '%');
    JoinSplit(h, '%');
    if |ps| == 2 {
      assert Join(ps, '%') == ps[0] + "%" + Join(ps[1..], '%');
      assert h[..|a|] == a;
      var j :| 0 <= j < |a| && a[j] == ':';
      assert h[j] == ':';
    }
  }

  /** Joining pieces that lack a character gives a text that lacks it,
      when the separator is another character. */
  lemma {:induction false} JoinLacks(parts: seq<string>, sep: char, c: char)
    requires c != sep && forall k :: 0 <= k < |parts| ==> c !in parts[k]
    ensures c !in Join(parts, sep)
    decreases |parts|
  {
    if |parts| > 1 {
      JoinLacks(parts[1..], sep, c);
    }
  }

  /** The loopback `::1` is an IPv6 address. */
  lemma LoopbackIsIpv6()
    ensures IsIpv6("::1") && CheckBracketedHost("::1").None?
  {
    var s := "::1";
    SplitWithoutSep(s, '%');
    SplitAfterPiece("", ":1", ':');
    SplitAfterPiece("", "1", ':');
    SplitWithoutSep("1", ':');
    assert "" + [':'] + ":1" == s;
    assert "" + [':'] + "1" == ":1";
    var parts := Split(s, ':');
    assert parts == ["", "", "1"];
    assert GapFrom(parts, 1) == 1;
    assert GapFrom(parts, 2) == -1;
  }

  /** A bare word is neither address. */
  lemma WordIsNoAddress(h: string)
    requires h != "" && h[0] != 'v' && forall k :: 0 <= k < |h| ==> IsLower(h[k])
    ensures CheckBracketedHost(h) == Some(NotAnAddress(h))
  {
    assert '.' !in h && ':' !in h && '%' !in h;
    SplitWithoutSep(h, '.');
    SplitWithoutSep(h, '%');
    SplitWithoutSep(h, ':');
  }

  /** A dotted quad in brackets is refused as an IPv4 address. */
  lemma DottedQuadRefused(a: string, b: string, c: string, d: string)
    requires IsOctet(a) && IsOctet(b) && IsOctet(c) && IsOctet(d)
    ensures CheckBracketedHost(a + "." + (b + "." + (c + "." + d))) == Some(Ipv4InBrackets)
  {
    var h := a + "." + (b + "." + (c + "." + d));
    QuadSplit(a, b, c, d);
    assert h[0] == a[0];
    NoSlash(a, b, c, d);
  }

  lemma OctetLacks(o: string, c: char)
    requires IsOctet(o) && !IsDigit(c)
    ensures c !in o
  {
    assert AllDigits(o);
  }

  lemma QuadSplit(a: string, b: string, c: string, d: string)
    requires IsOctet(a) && IsOctet(b) && IsOctet(c) && IsOctet(d)
    ensures Split(a + "." + (b + "." + (c + "." + d)), '.') == [a, b, c, d]
  {
    OctetLacks(a, '.'); OctetLacks(b, '.'); OctetLacks(c, '.'); OctetLacks(d, '.');
    var cd := c + "." + d;
    var bcd := b + "." + cd;
    SplitAroundSep(c, d, '.');
    assert c + ['.'] + d == cd;
    SplitAfterPiece(b, cd, '.');
    assert b + ['.'] + cd == bcd;
    SplitAfterPiece(a, bcd, '.');
    assert a + ['.'] + bcd == a + "." + bcd;
  }

  lemma NoSlash(a: string, b: string, c: string, d: string)
    requires IsOctet(a) && IsOctet(b) && IsOctet(c) && IsOctet(d)
    ensures '/' !in a + "." + (b + "." + (c + "." + d))
  {
    OctetLacks(a, '/'); OctetLacks(b, '/'); OctetLacks(c, '/'); OctetLacks(d, '/');
  }
}
