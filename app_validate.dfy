/** app.py `validate_url`: the checks the web front end runs on a product
    URL before handing it to the scraper, each with its own message. */
module UrlValidation {
  import opened Common
  import opened Text
  import opened Urls
  import opened PyJson
  import ScrapingFacts

  /** `(True, None)` or `(False, message)` */
  datatype Validation = Accepted | Rejected(message: string) {
    predicate Valid() { Accepted? }
  }

  const Required := "URL is required and must be a string"
  const MissingScheme := "Missing URL scheme (http/https)"
  const WrongScheme := "URL must use HTTP or HTTPS"
  const MissingDomain := "Missing domain name"
  const TooFewParts := "Invalid domain format: must have at least a domain and TLD"
  const EmptyPart := "Invalid domain format: contains empty parts"
  const BadPart := "Invalid domain format: invalid characters or format"
  const BadPath := "Invalid URL path format"
  const BadFormat := "Invalid URL format"

  predicate LabelChar(c: char) { IsAlnum(c) || c == '-' }

  /** `re.match(r'^[a-zA-Z0-9]([a-zA-Z0-9-]*[a-zA-Z0-9])?$', part)`: ASCII
      letters, digits and hyphens, with a letter or digit at both ends. */
  predicate LabelPattern(part: string) {
    |part| > 0 && IsAlnum(part[0]) && IsAlnum(part[|part| - 1])
    && forall i :: 0 <= i < |part| ==> LabelChar(part[i])
  }

  /** A domain label passes when it fits the pattern and is not all digits. */
  predicate LabelOk(part: string) { LabelPattern(part) && !AllDigits(part) }

  /** The characters of `[\w\-\.~!$&\'()*+,;=:@/%]`, with `\w` read as ASCII. */
  predicate PathChar(c: char) {
    IsAlnum(c) || c == '_' || c in {'-', '.', '~', '!', '$', '&', '\'', '(', ')', '*', '+', ',', ';', '=', ':', '@', '/', '%'}
  }

  /** `path in ['', '/'] or re.match(r'^/[...]*$', path)` */
  predicate PathOk(path: string) {
    path == "" || (path[0] == '/' && forall i :: 0 <= i < |path| ==> PathChar(path[i]))
  }

  /** The checks on the domain's dot-separated parts and on the path, in
      the source's order. */
  function CheckLabels(parts: seq<string>, path: string): Validation {
    if |parts| < 2 then Rejected(TooFewParts)
    else if "" in parts then Rejected(EmptyPart)
    else if exists k :: 0 <= k < |parts| && !LabelOk(parts[k]) then Rejected(BadPart)
    else if !PathOk(path) then Rejected(BadPath)
    else Accepted
  }

  function CheckParsed(p: ParsedUrl): Validation {
    if p.scheme == "" then Rejected(MissingScheme)
    else if p.scheme != "http" && p.scheme != "https" then Rejected(WrongScheme)
    else if p.netloc == "" then Rejected(MissingDomain)
    else CheckLabels(Split(p.netloc, '.'), p.path)
  }

  /** `validate_url`; a `urlparse` that raises is the caught exception. */
  function ValidateUrl(url: Json): (r: Validation)
    ensures !url.JStr? || url.s == "" ==> r == Rejected(Required)
  {
    if !url.JStr? || url.s == "" then Rejected(Required)
    else
      match Parse(url.s)
      case Err(_) => Rejected(BadFormat)
      case Ok(p) => CheckParsed(p)
  }

  // ---------------------------------------------------------------- hosts

  /** A dotted name: labels of letters, digits and hyphens, every dot
      between two letters or digits, a letter or digit at both ends. */
  predicate Dotted(h: string) {
    |h| > 0 && IsAlnum(h[0]) && IsAlnum(h[|h| - 1])
    && (forall i :: 0 <= i < |h| ==> LabelChar(h[i]) || h[i] == '.')
    && (forall i :: 0 <= i < |h| && h[i] == '.' ==> 0 < i < |h| - 1 && IsAlnum(h[i - 1]) && IsAlnum(h[i + 1]))
  }

  predicate WellFormedHost(h: string) { Dotted(h) && '.' in h }

  lemma {:induction false} JoinDotted(parts: seq<string>)
    requires |parts| >= 1 && forall k :: 0 <= k < |parts| ==> LabelPattern(parts[k])
    ensures Dotted(Join(parts, '.'))
    decreases |parts|
  {
    if |parts| > 1 {
      JoinDotted(parts[1..]);
      JoinTwo(parts[0], Join(parts[1..], '.'));
    }
  }

  lemma JoinTwo(p: string, rest: string)
    requires LabelPattern(p) && Dotted(rest)
    ensures Dotted(p + "." + rest)
  {
    var h := p + "." + rest;
    var n := |p|;
    assert forall i :: 0 <= i < n ==> h[i] == p[i];
    assert forall i :: n < i < |h| ==> h[i] == rest[i - n - 1];
    forall i | 0 <= i < |h| ensures LabelChar(h[i]) || h[i] == '.' {
      if i < n { assert h[i] == p[i]; } else if i > n { assert h[i] == rest[i - n - 1]; }
    }
    forall i | 0 <= i < |h| && h[i] == '.' ensures 0 < i < |h| - 1 && IsAlnum(h[i - 1]) && IsAlnum(h[i + 1]) {
      if i == n {
        assert h[i - 1] == p[n - 1] && h[i + 1] == rest[0];
      } else if i > n + 1 {
        var j := i - n - 1;
        assert h[i - 1] == rest[j - 1] && h[i + 1] == rest[j + 1];
      }
    }
    assert h[0] == p[0] && h[|h| - 1] == rest[|rest| - 1];
  }

  /** A URL the validator accepts has an `http` or `https` scheme, a dotted
      host of letters, digits and hyphens, and a path that is empty or
      starts with `/`. */
  lemma AcceptedShape(url: Json)
    requires ValidateUrl(url).Valid()
    ensures url.JStr? && Parse(url.s).Ok?
    ensures var p := Parse(url.s).value;
      (p.scheme == "http" || p.scheme == "https") && WellFormedHost(p.netloc) && PathOk(p.path)
      && (p.path == "" || p.path[0] == '/')
  {
    var p := Parse(url.s).value;
    var parts := Split(p.netloc, '.');
    JoinSplit(p.netloc, '.');
    JoinDotted(parts);
    SplitAtLeastTwo(p.netloc, '.');
  }

  /** Every character of a join is a separator or comes from a piece. */
  lemma {:induction false} JoinChars(parts: seq<string>)
    requires forall k :: 0 <= k < |parts| ==> forall i :: 0 <= i < |parts[k]| ==> LabelChar(parts[k][i])
    ensures forall i :: 0 <= i < |Join(parts, '.')| ==> LabelChar(Join(parts, '.')[i]) || Join(parts, '.')[i] == '.'
    decreases |parts|
  {
    if |parts| > 1 {
      JoinChars(parts[1..]);
      var p := parts[0];
      var rest := Join(parts[1..], '.');
      var h := p + "." + rest;
      forall i | 0 <= i < |h| ensures LabelChar(h[i]) || h[i] == '.' {
        if i < |p| { assert h[i] == p[i]; } else if i > |p| { assert h[i] == rest[i - |p| - 1]; }
      }
    }
  }

  /** A URL built from an accepted scheme, a host of dot-joined pieces of
      letters, digits and hyphens, and an empty or `/`-led path is judged
      on those pieces and that path alone. */
  lemma ComposedVerdict(scheme: string, labels: seq<string>, path: string)
    requires scheme == "http" || scheme == "https"
    requires |labels| >= 1 && Join(labels, '.') != ""
    requires forall k :: 0 <= k < |labels| ==> forall i :: 0 <= i < |labels[k]| ==> LabelChar(labels[k][i])
    requires path == "" || path[0] == '/'
    requires NoneOf(path, {'?', '#', ';', '\t', '\r', '\n'})
    ensures ValidateUrl(JStr(scheme + "://" + Join(labels, '.') + path)) == CheckLabels(labels, path)
  {
    var host := Join(labels, '.');
    var url := scheme + "://" + host + path;
    var parsed := ParsedUrl(scheme, host, path, "", "", "");
    HostFacts(labels);
    WebSchemeLower(scheme);
    ParseComposed(scheme, host, path);
    ParsedVerdict(url, parsed);
    assert CheckParsed(parsed) == CheckLabels(Split(host, '.'), path);
  }

  lemma WebSchemeLower(scheme: string)
    requires scheme == "http" || scheme == "https"
    ensures |scheme| > 0 && forall k :: 0 <= k < |scheme| ==> IsLower(scheme[k])
  {
  }

  /** A host joined from pieces of letters, digits and hyphens holds no URL
      delimiter and splits back into those pieces. */
  lemma HostFacts(labels: seq<string>)
    requires |labels| >= 1
    requires forall k :: 0 <= k < |labels| ==> forall i :: 0 <= i < |labels[k]| ==> LabelChar(labels[k][i])
    ensures NoneOf(Join(labels, '.'), {'/', '?', '#', '[', ']', '\t', '\r', '\n'})
    ensures Split(Join(labels, '.'), '.') == labels
  {
    HostHasNoDelimiter(labels);
    forall k | 0 <= k < |labels| ensures '.' !in labels[k] {
      assert forall i :: 0 <= i < |labels[k]| ==> labels[k][i] != '.';
    }
    SplitJoin(labels, '.');
  }

  lemma HostHasNoDelimiter(labels: seq<string>)
    requires forall k :: 0 <= k < |labels| ==> forall i :: 0 <= i < |labels[k]| ==> LabelChar(labels[k][i])
    ensures NoneOf(Join(labels, '.'), {'/', '?', '#', '[', ']', '\t', '\r', '\n'})
  {
    var host := Join(labels, '.');
    JoinChars(labels);
    forall k | 0 <= k < |host| ensures host[k] !in {'/', '?', '#', '[', ']', '\t', '\r', '\n'} {
      assert LabelChar(host[k]) || host[k] == '.';
    }
  }

  /** Once `urlparse` has succeeded, only the parsed parts matter. */
  lemma ParsedVerdict(s: string, p: ParsedUrl)
    requires s != "" && Parse(s) == Ok(p)
    ensures ValidateUrl(JStr(s)) == CheckParsed(p)
  {
  }

  /** Every URL built from an accepted scheme, at least two good labels and
      a path of allowed characters starting with `/` (or no path) passes. */
  lemma AcceptsComposed(scheme: string, labels: seq<string>, path: string)
    requires scheme == "http" || scheme == "https"
    requires |labels| >= 2 && forall k :: 0 <= k < |labels| ==> LabelOk(labels[k])
    requires PathOk(path) && ';' !in path
    ensures ValidateUrl(JStr(scheme + "://" + Join(labels, '.') + path)) == Accepted
  {
    GoodLabelsPass(labels, path);
    PathHasNoDelimiter(path);
    LabelsOfLabelChars(labels);
    JoinNonEmpty(labels);
    ComposedVerdict(scheme, labels, path);
  }

  lemma LabelsOfLabelChars(labels: seq<string>)
    requires forall k :: 0 <= k < |labels| ==> LabelOk(labels[k])
    ensures forall k :: 0 <= k < |labels| ==> forall i :: 0 <= i < |labels[k]| ==> LabelChar(labels[k][i])
  {
  }

  lemma PathHasNoDelimiter(path: string)
    requires PathOk(path) && ';' !in path
    ensures NoneOf(path, {'?', '#', ';', '\t', '\r', '\n'})
  {
    forall k | 0 <= k < |path| ensures path[k] !in {'?', '#', ';', '\t', '\r', '\n'} {
      assert PathChar(path[k]);
    }
  }

  lemma GoodLabelsPass(labels: seq<string>, path: string)
    requires |labels| >= 2 && forall k :: 0 <= k < |labels| ==> LabelOk(labels[k])
    requires PathOk(path)
    ensures CheckLabels(labels, path) == Accepted
  {
    assert "" !in labels;
  }

  lemma JoinNonEmpty(labels: seq<string>)
    requires |labels| >= 1 && labels[0] != ""
    ensures Join(labels, '.') != ""
  {
    if |labels| > 1 {
      assert |Join(labels, '.')| >= |labels[0]|;
    }
  }

  /** A scheme other than `http` or `https` is refused on its own. */
  lemma OtherSchemeRejected(scheme: string, host: string)
    requires |scheme| > 0 && forall k :: 0 <= k < |scheme| ==> IsLower(scheme[k])
    requires scheme != "http" && scheme != "https"
    requires NoneOf(host, {'/', '?', '#', '[', ']', '\t', '\r', '\n'})
    ensures ValidateUrl(JStr(scheme + "://" + host)) == Rejected(WrongScheme)
  {
    ParseComposed(scheme, host, "");
    assert scheme + "://" + host + "" == scheme + "://" + host;
  }

  /** `scheme://` with nothing after it has no domain. */
  lemma NoHostRejected(scheme: string)
    requires scheme == "http" || scheme == "https"
    ensures ValidateUrl(JStr(scheme + "://")) == Rejected(MissingDomain)
  {
    assert forall k :: 0 <= k < |scheme| ==> IsLower(scheme[k]);
    ParseComposed(scheme, "", "");
    assert scheme + "://" + "" + "" == scheme + "://";
  }

  /** A host without a dot is refused. */
  lemma SingleLabelRejected(scheme: string, name: string, path: string)
    requires scheme == "http" || scheme == "https"
    requires name != "" && forall i :: 0 <= i < |name| ==> LabelChar(name[i])
    requires path == "" || path[0] == '/'
    requires NoneOf(path, {'?', '#', ';', '\t', '\r', '\n'})
    ensures ValidateUrl(JStr(scheme + "://" + name + path)) == Rejected(TooFewParts)
  {
    ComposedVerdict(scheme, [name], path);
  }

  /** An empty part (a leading, trailing or doubled dot) is refused. */
  lemma EmptyLabelRejected(scheme: string, labels: seq<string>, k: nat)
    requires scheme == "http" || scheme == "https"
    requires |labels| >= 2 && k < |labels| && labels[k] == ""
    requires forall j :: 0 <= j < |labels| ==> forall i :: 0 <= i < |labels[j]| ==> LabelChar(labels[j][i])
    ensures ValidateUrl(JStr(scheme + "://" + Join(labels, '.'))) == Rejected(EmptyPart)
  {
    JoinLong(labels);
    ComposedVerdict(scheme, labels, "");
    assert scheme + "://" + Join(labels, '.') + "" == scheme + "://" + Join(labels, '.');
  }

  lemma JoinLong(labels: seq<string>)
    requires |labels| >= 2
    ensures Join(labels, '.') != ""
  {
    assert |Join(labels, '.')| >= 1;
  }

  /** With no empty part, one part that breaks the label rule (a hyphen at
      an end, or all digits) is refused. */
  lemma BadLabelRejected(scheme: string, labels: seq<string>, k: nat)
    requires scheme == "http" || scheme == "https"
    requires |labels| >= 2 && k < |labels| && !LabelOk(labels[k])
    requires "" !in labels
    requires forall j :: 0 <= j < |labels| ==> forall i :: 0 <= i < |labels[j]| ==> LabelChar(labels[j][i])
    ensures ValidateUrl(JStr(scheme + "://" + Join(labels, '.'))) == Rejected(BadPart)
  {
    JoinLong(labels);
    ComposedVerdict(scheme, labels, "");
    assert scheme + "://" + Join(labels, '.') + "" == scheme + "://" + Join(labels, '.');
  }

  /** A netloc with an unmatched `[` makes `urlparse` raise, which the
      validator reports as a format error. */
  lemma BracketRejected()
    ensures ValidateUrl(JStr(ScrapingFacts.BracketUrl)) == Rejected(BadFormat)
  {
    ScrapingFacts.BracketUrlRejected();
  }

  /** A URL without any `:` has no scheme. */
  lemma SchemelessRejected(s: string)
    requires s != "" && !IsC0OrSpace(s[0])
    requires NoneOf(s, {':', '/', '[', ']', '\t', '\r', '\n'})
    ensures ValidateUrl(JStr(s)) == Rejected(MissingScheme)
  {
    CleanUnchanged(s);
    assert Find(s, ':') == -1;
    assert !(|s| >= 2 && s[..2] == "//") by { assert s[0] != '/'; }
  }

  // ---------------------------------------------------------------- samples

  const NoSchemeSample := "not_a_url"

  lemma NoSchemeSampleRejected()
    ensures ValidateUrl(JStr(NoSchemeSample)) == Rejected(MissingScheme)
  {
    SchemelessRejected(NoSchemeSample);
  }
}
