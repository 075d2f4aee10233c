/** backend/tests/debug_scraper.py: the request whose failure is named,
    the platform detector over its dictionary of markers, and the run that
    reports whether a page was received. */
module DebugScraping {
  import opened Common
  import opened Text
  import opened Platforms
  import Scraping
  import Urls

  // ---------------------------------------------------------------- request

  /** What `session.get` did: one of the two exceptions `debug_request`
      names, some other exception, or a response. */
  datatype Reply = TimedOut | ConnectionFailed | OtherFailure | Received(resp: Scraping.Response)

  datatype Status = Success | Blocked | RateLimited | HttpError | AntiBot | Timeout | ConnectionError | UnexpectedError {
    function Text(): string {
      match this
      case Success => "SUCCESS"
      case Blocked => "BLOCKED"
      case RateLimited => "RATE_LIMITED"
      case HttpError => "HTTP_ERROR"
      case AntiBot => "ANTI_BOT"
      case Timeout => "TIMEOUT"
      case ConnectionError => "CONNECTION_ERROR"
      case UnexpectedError => "UNEXPECTED_ERROR"
    }
  }

  const Markers: seq<string> := [
    "captcha", "robot", "bot detection", "access denied",
    "blocked", "suspicious activity", "verify you are human"]

  /** `debug_request(url)`: the response, only on success, and its status. */
  function DebugRequest(reply: Reply): (r: (Option<Scraping.Response>, Status))
    ensures r.1 == Success <==> reply.Received? && reply.resp.status == 200 && !ContainsAny(Lower(reply.resp.text), Markers)
    ensures r.0.Some? <==> r.1 == Success
    ensures r.0.Some? ==> r.0.value == reply.resp
    ensures r.1 == Blocked <==> reply.Received? && reply.resp.status == 403
    ensures r.1 == RateLimited <==> reply.Received? && reply.resp.status == 429
    ensures r.1 == HttpError <==> reply.Received? && reply.resp.status !in {200, 403, 429}
    ensures r.1 == AntiBot <==> reply.Received? && reply.resp.status == 200 && ContainsAny(Lower(reply.resp.text), Markers)
    ensures r.1 == Timeout <==> reply.TimedOut?
    ensures r.1 == ConnectionError <==> reply.ConnectionFailed?
    ensures r.1 == UnexpectedError <==> reply.OtherFailure?
  {
    match reply
    case TimedOut => (None, Timeout)
    case ConnectionFailed => (None, ConnectionError)
    case OtherFailure => (None, UnexpectedError)
    case Received(resp) =>
      if resp.status == 403 then (None, Blocked)
      else if resp.status == 429 then (None, RateLimited)
      else if resp.status != 200 then (None, HttpError)
      else if ContainsAny(Lower(resp.text), Markers) then (None, AntiBot)
      else (Some(resp), Success)
  }

  // ---------------------------------------------------------------- platform

  /** The dictionary of `test_platform_detection`, in its insertion order. */
  const DebugRules: Rules := [
    (Amazon, ["amazon"]), (Daraz, ["daraz"]), (Ebay, ["ebay"]),
    (AliExpress, ["aliexpress"]), (Walmart, ["walmart"]), (Target, ["target"])]

  /** `[platform for platform, detected in platforms.items() if detected]` */
  function Detected(rules: Rules, host: string): (ps: seq<Platform>)
    ensures |ps| <= |rules|
    decreases |rules|
  {
    if rules == [] then []
    else (if ContainsAny(host, rules[0].1) then [rules[0].0] else []) + Detected(rules[1..], host)
  }

  /** The list holds exactly the platforms of the rules that fire, and its
      head is the one the first firing rule names. */
  lemma {:induction false} DetectedIsHits(rules: Rules, host: string)
    ensures Detected(rules, host) == [] <==> forall k :: 0 <= k < |rules| ==> !ContainsAny(host, rules[k].1)
    ensures Detected(rules, host) != [] ==> Detected(rules, host)[0] == Classify(rules, host)
    ensures forall p :: p in Detected(rules, host) <==> exists k :: 0 <= k < |rules| && rules[k].0 == p && ContainsAny(host, rules[k].1)
    decreases |rules|
  {
    if rules != [] {
      var rest := rules[1..];
      DetectedIsHits(rest, host);
      assert forall k :: 1 <= k < |rules| ==> rules[k] == rest[k - 1];
      forall p | exists k :: 0 <= k < |rules| && rules[k].0 == p && ContainsAny(host, rules[k].1)
        ensures p in Detected(rules, host)
      {
        var k :| 0 <= k < |rules| && rules[k].0 == p && ContainsAny(host, rules[k].1);
        if k > 0 {
          assert rest[k - 1].0 == p && ContainsAny(host, rest[k - 1].1);
        }
      }
      forall p | p in Detected(rules, host)
        ensures exists k :: 0 <= k < |rules| && rules[k].0 == p && ContainsAny(host, rules[k].1)
      {
        if !(ContainsAny(host, rules[0].1) && p == rules[0].0) {
          assert p in Detected(rest, host);
          var k :| 0 <= k < |rest| && rest[k].0 == p && ContainsAny(host, rest[k].1);
          assert rules[k + 1] == rest[k];
        }
      }
    }
  }

  /** `test_platform_detection(url)`; `None` when `urlparse` raises. */
  function TestPlatformDetection(url: string): (r: Option<Platform>)
    ensures r.Some? <==> Urls.Parse(url).Ok?
  {
    match Urls.Parse(url)
    case Err(_) => None
    case Ok(parsed) =>
      var detected := Detected(DebugRules, Lower(parsed.netloc));
      Some(if detected != [] then detected[0] else Generic)
  }

  /** The detector answers the first rule that fires on the lower-cased
      host, `Generic` when none does. */
  lemma DetectionIsFirstHit(url: string)
    requires Urls.Parse(url).Ok?
    ensures TestPlatformDetection(url) == Some(Classify(DebugRules, Lower(Urls.Parse(url).value.netloc)))
  {
    var host := Lower(Urls.Parse(url).value.netloc);
    DetectedIsHits(DebugRules, host);
    if Detected(DebugRules, host) == [] {
      ClassifyNoHit(DebugRules, host);
    }
  }

  /** No rule fires: `Classify` answers `Generic`. */
  lemma {:induction false} ClassifyNoHit(rules: Rules, host: string)
    requires forall k :: 0 <= k < |rules| ==> !ContainsAny(host, rules[k].1)
    ensures Classify(rules, host) == Generic
    decreases |rules|
  {
    if rules != [] {
      assert !ContainsAny(host, rules[0].1);
      assert forall k :: 0 <= k < |rules[1..]| ==> rules[1..][k] == rules[k + 1];
      ClassifyNoHit(rules[1..], host);
    }
  }

  // ---------------------------------------------------------------- debug run

  /** `comprehensive_debug(url)`: whichever of the Amazon, Daraz and
      generic routines the platform picks, it returns `None` when the
      request gave no response and a parsed page otherwise, so the run
      succeeds exactly when the request did. */
  function ComprehensiveDebugSpec(url: string, reply: Reply): (r: Result<bool, string>)
    ensures r.Err? <==> Urls.Parse(url).Err?
    ensures r.Ok? ==> (r.value <==> DebugRequest(reply).1 == Success)
  {
    match TestPlatformDetection(url)
    case None => Err(Urls.Parse(url).error)
    case Some(_) => Ok(DebugRequest(reply).0.Some?)
  }

  /** The headers `__init__` adds, with the agent `ua` drawn. */
  function SessionHeaders(ua: string): map<string, string> {
    map["User-Agent" := ua,
        "Accept" := "text/html,application/xhtml+xml,application/xml;q=0.9,image/webp,*/*;q=0.8",
        "Accept-Language" := "en-US,en;q=0.5",
        "Accept-Encoding" := "gzip, deflate, br",
        "Connection" := "keep-alive",
        "Upgrade-Insecure-Requests" := "1",
        "Sec-Fetch-Dest" := "document",
        "Sec-Fetch-Mode" := "navigate",
        "Sec-Fetch-Site" := "none",
        "Cache-Control" := "max-age=0"]
  }

  /** `DebugScraper`, seen through its session headers. */
  class DebugScraper {
    var headers: map<string, string>

    constructor(base: map<string, string>, ua: string)
      ensures headers == base + SessionHeaders(ua)
    {
      headers := base + SessionHeaders(ua);
    }

    /** `comprehensive_debug(url)` with `reply` what the request met. */
    method ComprehensiveDebug(url: string, reply: Reply) returns (r: Result<bool, string>)
      ensures r == ComprehensiveDebugSpec(url, reply)
    {
      var platform := TestPlatformDetection(url);
      if platform.None? {
        return Err(Urls.Parse(url).error);
      }
      var response := DebugRequest(reply);
      r := Ok(response.0.Some?);
    }
  }
}
