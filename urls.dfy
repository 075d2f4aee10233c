/** `urllib.parse.urlparse` as the scrapers use it (Python 3.12 behaviour):
    leading C0/space characters are dropped and tab/CR/LF removed, the
    scheme is the text before the first `:` when it is a letter followed by
    letters, digits, `+`, `-` or `.`, the netloc follows a `//` up to the
    first `/`, `?` or `#`, then the fragment, the query and (for the
    schemes that use them) the `;` parameters are split off. A netloc with
    only one of `[` and `]` raises `ValueError("Invalid IPv6 URL")`, and
    one with both raises unless the host between them passes
    `_check_bracketed_host`. */
module Urls {
  import opened Common
  import opened Text
  import opened IpHosts

  datatype ParsedUrl = ParsedUrl(scheme: string, netloc: string, path: string, params: string, query: string, fragment: string)

  const InvalidIpv6 := "Invalid IPv6 URL"

  predicate IsSchemeChar(c: char) { IsAlnum(c) || c == '+' || c == '-' || c == '.' }

  /** The first index at or after `from` holding a character of `cs`, or -1. */
  function FindAnyFrom(s: string, cs: set<char>, from: nat): (r: int)
    requires from <= |s|
    ensures r == -1 || from <= r < |s|
    ensures r >= 0 ==> s[r] in cs && forall k :: from <= k < r ==> s[k] !in cs
    ensures r < 0 ==> forall k :: from <= k < |s| ==> s[k] !in cs
    decreases |s| - from
  {
    if from == |s| then -1 else if s[from] in cs then from else FindAnyFrom(s, cs, from + 1)
  }

  /** `s.find(c)` */
  function Find(s: string, c: char): int { FindAnyFrom(s, {c}, 0) }

  /** `s.rfind(c)` */
  function RFind(s: string, c: char): (r: int)
    ensures r == -1 || 0 <= r < |s|
    ensures r >= 0 ==> s[r] == c && forall k :: r < k < |s| ==> s[k] != c
    ensures r < 0 ==> c !in s
    decreases |s|
  {
    if s == [] then -1 else if s[|s| - 1] == c then |s| - 1 else RFind(s[..|s| - 1], c)
  }

  /** The characters `urlsplit` strips from the front. */
  predicate IsC0OrSpace(c: char) { c <= ' ' }

  function LStripC0(s: string): string
    decreases |s|
  {
    if |s| > 0 && IsC0OrSpace(s[0]) then LStripC0(s[1..]) else s
  }

  /** Removes every tab, carriage return and line feed. */
  function RemoveUnsafe(s: string): string {
    RemoveChar(RemoveChar(RemoveChar(s, '\t'), '\r'), '\n')
  }

  /** The schemes whose paths may carry `;` parameters. */
  const UsesParams: seq<string> := ["", "ftp", "hdl", "prospero", "http", "imap", "https", "shttp", "rtsp", "rtspu", "sip", "sips", "mms", "sftp", "tel"]

  /** Splits the text before `:` off as a scheme when it qualifies. */
  function SplitScheme(url: string): (string, string) {
    var i := Find(url, ':');
    if i > 0 && IsAlpha(url[0]) && forall k :: 0 <= k < i ==> IsSchemeChar(url[k]) then (Lower(url[..i]), url[i + 1..])
    else ("", url)
  }

  /** `_splitnetloc(url, 2)` when `url` starts with `//`. */
  function SplitNetloc(url: string): (string, string)
    requires |url| >= 2
  {
    var d := FindAnyFrom(url, {'/', '?', '#'}, 2);
    var e := if d < 0 then |url| else d;
    (url[2..e], url[e..])
  }

  /** `url.split(c, 1)` when `c` occurs, else `(url, "")`. */
  function SplitOnce(url: string, c: char): (string, string) {
    var i := Find(url, c);
    if i < 0 then (url, "") else (url[..i], url[i + 1..])
  }

  /** `_splitparams`: the parameters start at the first `;` after the last `/`. */
  function SplitParams(url: string): (string, string) {
    var slash := RFind(url, '/');
    var i := if slash >= 0 then FindAnyFrom(url, {';'}, slash) else Find(url, ';');
    if i < 0 then (url, "") else (url[..i], url[i + 1..])
  }

  predicate Unbalanced(netloc: string) {
    ('[' in netloc && ']' !in netloc) || (']' in netloc && '[' !in netloc)
  }

  /** `netloc.partition('[')[2].partition(']')[0]` */
  function BracketedHost(netloc: string): string
    requires '[' in netloc
  {
    var i := Find(netloc, '[');
    var after := netloc[i + 1..];
    var j := Find(after, ']');
    if j < 0 then after else after[..j]
  }

  /** Why `urlsplit` raises on a netloc, if it does. */
  function NetlocError(netloc: string): (e: Option<string>)
    ensures Unbalanced(netloc) ==> e == Some(InvalidIpv6)
    ensures !Unbalanced(netloc) && '[' !in netloc ==> e.None?
    ensures !Unbalanced(netloc) && '[' in netloc ==> e == CheckBracketedHost(BracketedHost(netloc))
  {
    if Unbalanced(netloc) then Some(InvalidIpv6)
    else if '[' in netloc then CheckBracketedHost(BracketedHost(netloc))
    else None
  }

  /** The netloc `urlsplit` cuts out of what follows the scheme. */
  function CutNetloc(rest: string): (string, string) {
    if |rest| >= 2 && rest[..2] == "//" then SplitNetloc(rest) else ("", rest)
  }

  /** The netloc of `raw`, before it is checked. */
  function RawNetloc(raw: string): string {
    CutNetloc(SplitScheme(RemoveUnsafe(LStripC0(raw))).1).0
  }

  /** `urlparse(url)`: it raises exactly when the netloc does not pass
      the bracket checks, and otherwise keeps that netloc. */
  function Parse(raw: string): (r: Result<ParsedUrl, string>)
    ensures r.Err? <==> NetlocError(RawNetloc(raw)).Some?
    ensures r.Err? ==> r.error == NetlocError(RawNetloc(raw)).value
    ensures r.Ok? ==> r.value.netloc == RawNetloc(raw)
  {
    var (scheme, rest) := SplitScheme(RemoveUnsafe(LStripC0(raw)));
    ParseAfterScheme(scheme, rest)
  }

  function ParseAfterScheme(scheme: string, rest: string): (r: Result<ParsedUrl, string>)
    ensures r.Err? <==> NetlocError(CutNetloc(rest).0).Some?
    ensures r.Err? ==> r.error == NetlocError(CutNetloc(rest).0).value
    ensures r.Ok? ==> r.value.netloc == CutNetloc(rest).0
  {
    var (netloc, tail) := CutNetloc(rest);
    match NetlocError(netloc)
    case Some(e) => Err(e)
    case None => Ok(SplitTail(scheme, netloc, tail))
  }

  /** Splits what follows the netloc into path, parameters, query and fragment. */
  function SplitTail(scheme: string, netloc: string, tail: string): ParsedUrl {
    var (beforeFragment, fragment) := SplitOnce(tail, '#');
    var (beforeQuery, query) := SplitOnce(beforeFragment, '?');
    var (path, params) := if scheme in UsesParams && ';' in beforeQuery then SplitParams(beforeQuery) else (beforeQuery, "");
    ParsedUrl(scheme, netloc, path, params, query, fragment)
  }

  /** The netloc never holds a path, query or fragment delimiter, and it
      is balanced in its brackets. */
  lemma NetlocHasNoDelimiter(raw: string)
    requires Parse(raw).Ok?
    ensures var n := Parse(raw).value.netloc; '/' !in n && '?' !in n && '#' !in n && !Unbalanced(n)
  {
    var (scheme, rest) := SplitScheme(RemoveUnsafe(LStripC0(raw)));
    if |rest| >= 2 && rest[..2] == "//" {
      var d := FindAnyFrom(rest, {'/', '?', '#'}, 2);
      var e := if d < 0 then |rest| else d;
      var n := rest[2..e];
      assert n == Parse(raw).value.netloc;
      forall k | 0 <= k < |n| ensures n[k] !in {'/', '?', '#'} {
        assert n[k] == rest[k + 2];
      }
    }
  }

  predicate NoneOf(s: string, cs: set<char>) { forall k :: 0 <= k < |s| ==> s[k] !in cs }

  lemma NoneOfConcat(a: string, b: string, cs: set<char>)
    requires NoneOf(a, cs) && NoneOf(b, cs)
    ensures NoneOf(a + b, cs)
  {
    forall k | 0 <= k < |a + b| ensures (a + b)[k] !in cs {
      if k >= |a| { assert (a + b)[k] == b[k - |a|]; }
    }
  }

  /** A URL that starts with a visible character and holds no tab, CR or LF
      is left as it is by the clean-up step. */
  lemma CleanUnchanged(url: string)
    requires |url| > 0 && !IsC0OrSpace(url[0])
    requires NoneOf(url, {'\t', '\r', '\n'})
    ensures RemoveUnsafe(LStripC0(url)) == url
  {
    assert NoneOf(url, {'\t'}) && NoneOf(url, {'\r'}) && NoneOf(url, {'\n'});
    RemoveCharNoOp(url, '\t');
    RemoveCharNoOp(url, '\r');
    RemoveCharNoOp(url, '\n');
  }

  lemma SchemeSplitOff(scheme: string, rest: string)
    requires |scheme| > 0 && forall k :: 0 <= k < |scheme| ==> IsLower(scheme[k])
    ensures SplitScheme(scheme + ":" + rest) == (scheme, rest)
  {
    var url := scheme + ":" + rest;
    var i := |scheme|;
    assert url[i] == ':';
    assert forall k :: 0 <= k < i ==> url[k] == scheme[k];
    assert Find(url, ':') == i;
    assert url[..i] == scheme;
    assert url[i + 1..] == rest;
    assert Lower(scheme) == scheme;
  }

  lemma NetlocSplitOff(host: string, path: string)
    requires NoneOf(host, {'/', '?', '#'})
    requires path == "" || path[0] == '/'
    ensures SplitNetloc("//" + host + path) == (host, path)
  {
    var rest := "//" + host + path;
    var e := 2 + |host|;
    assert forall k :: 2 <= k < e ==> rest[k] == host[k - 2];
    if path == "" {
      assert FindAnyFrom(rest, {'/', '?', '#'}, 2) == -1;
    } else {
      assert rest[e] == '/';
      assert FindAnyFrom(rest, {'/', '?', '#'}, 2) == e;
    }
    assert rest[2..e] == host;
    assert rest[e..] == path;
  }

  /** Parsing `scheme://host path` recovers the three parts it was built
      from, when the host holds no delimiter and the path (empty or
      starting with `/`) holds no query, fragment or parameter marker. */
  lemma ParseComposed(scheme: string, host: string, path: string)
    requires |scheme| > 0 && forall k :: 0 <= k < |scheme| ==> IsLower(scheme[k])
    requires NoneOf(host, {'/', '?', '#', '[', ']', '\t', '\r', '\n'})
    requires path == "" || path[0] == '/'
    requires NoneOf(path, {'?', '#', ';', '\t', '\r', '\n'})
    ensures Parse(scheme + "://" + host + path) == Ok(ParsedUrl(scheme, host, path, "", "", ""))
  {
    var rest := "//" + host + path;
    SchemeStage(scheme, host, path);
    NetlocSplitOff(host, path);
    assert rest[..2] == "//";
    assert !Unbalanced(host);
    assert ParseAfterScheme(scheme, rest) == Ok(SplitTail(scheme, host, path));
    assert Find(path, '#') == -1;
    assert Find(path, '?') == -1;
    assert ';' !in path;
  }

  /** The clean-up leaves `scheme://host path` alone and the scheme is split off. */
  lemma SchemeStage(scheme: string, host: string, path: string)
    requires |scheme| > 0 && forall k :: 0 <= k < |scheme| ==> IsLower(scheme[k])
    requires NoneOf(host, {'\t', '\r', '\n'}) && NoneOf(path, {'\t', '\r', '\n'})
    ensures Parse(scheme + "://" + host + path) == ParseAfterScheme(scheme, "//" + host + path)
  {
    var rest := "//" + host + path;
    var url := scheme + "://" + host + path;
    assert url == scheme + ":" + rest;
    NoneOfConcat(scheme, "://", {'\t', '\r', '\n'});
    NoneOfConcat(scheme + "://", host, {'\t', '\r', '\n'});
    NoneOfConcat(scheme + "://" + host, path, {'\t', '\r', '\n'});
    CleanUnchanged(url);
    SchemeSplitOff(scheme, rest);
  }

  /** A netloc `[h]` followed by a path: the URL parses exactly when `h`
      passes the bracketed-host check, and raises with its message
      otherwise. */
  lemma BracketedHostChecked(scheme: string, h: string, path: string)
    requires |scheme| > 0 && forall k :: 0 <= k < |scheme| ==> IsLower(scheme[k])
    requires NoneOf(h, {'/', '?', '#', '[', ']', '\t', '\r', '\n'})
    requires path == "" || path[0] == '/'
    requires NoneOf(path, {'\t', '\r', '\n'})
    ensures var r := Parse(scheme + "://" + ("[" + h + "]") + path);
      (r.Err? <==> CheckBracketedHost(h).Some?)
      && (r.Err? ==> r.error == CheckBracketedHost(h).value)
      && (r.Ok? ==> r.value.netloc == "[" + h + "]")
  {
    var host := "[" + h + "]";
    BracketedNetloc(h);
    SchemeStage(scheme, host, path);
    NetlocSplitOff(host, path);
    var rest := "//" + host + path;
    assert rest[..2] == "//";
    assert CutNetloc(rest).0 == host;
  }

  /** `[h]` is a balanced netloc whose bracketed host is `h`. */
  lemma BracketedNetloc(h: string)
    requires NoneOf(h, {'/', '?', '#', '[', ']', '\t', '\r', '\n'})
    ensures var host := "[" + h + "]";
      NoneOf(host, {'/', '?', '#'}) && NoneOf(host, {'\t', '\r', '\n'})
      && !Unbalanced(host) && '[' in host && BracketedHost(host) == h
  {
    var host := "[" + h + "]";
    forall k | 0 <= k < |host| ensures host[k] !in {'/', '?', '#', '\t', '\r', '\n'} {
      if 0 < k < |host| - 1 { assert host[k] == h[k - 1]; }
    }
    assert host[0] == '[' && host[|host| - 1] == ']';
    assert Find(host, '[') == 0;
    var after := host[1..];
    assert after == h + "]";
    assert forall k :: 0 <= k < |h| ==> after[k] == h[k];
    assert after[|h|] == ']';
    assert Find(after, ']') == |h|;
    assert after[..|h|] == h;
  }
}
