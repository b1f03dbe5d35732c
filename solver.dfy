/**
 * solve.go's decision logic around the browser run: loading the proxy list,
 * turning a proxy into a proxy URL, spotting a challenge page, finding the
 * cf_clearance cookie, and the acceptance test of the final request. The
 * browser run, the cookie store and the final response are inputs.
 */
module Solver {
  import opened Wrappers
  import opened Text
  import opened LineFilter

  /** loadProxies keeps a trimmed line iff it is non-empty and is not a comment. */
  predicate SolveKeep(l: string) {
    l != "" && !HasPrefix(l, "#")
  }

  /**
   * loadProxies: a read error ends the program (an Err here); otherwise the
   * file is split at "\n", every piece trimmed, and the accepted ones kept in
   * order.
   */
  method LoadProxies(data: Result<string, string>) returns (r: Result<seq<string>, string>)
    ensures data.Err? ==> r == Err(data.error)
    ensures data.Ok? ==> r == Ok(Kept(Split(data.value, '\n'), SolveKeep))
  {
    if data.Err? {
      return Err(data.error);
    }
    var lines := Split(data.value, '\n');
    var proxies: seq<string> := [];
    for i := 0 to |lines|
      invariant proxies == Kept(lines[..i], SolveKeep)
    {
      var line := TrimSpace(lines[i]);
      if line != "" && !HasPrefix(line, "#") {
        proxies := proxies + [line];
      }
      assert lines[..i + 1][..i] == lines[..i];
    }
    assert lines[..|lines|] == lines;
    r := Ok(proxies);
  }

  /** solveWithProxy's proxy URL: unchanged if it names a scheme, else "http://" in front. */
  function ProxyUrl(proxy: string): (u: string)
    ensures Contains(u, "://")
    ensures HasSuffix(u, proxy)
    ensures u == proxy <==> Contains(proxy, "://")
  {
    if Contains(proxy, "://") then proxy
    else
      var u := "http://" + proxy;
      assert u[4..7] == "://";
      assert OccursAt(u, "://", 4);
      ContainsIff(u, "://");
      u
  }

  /** The markers whose presence in the lower-cased page means a challenge. */
  const CaptchaMarkers: seq<string> := [
    "checking your browser", "challenges.cloudflare.com", "challenge-form", "turnstile",
    "hcaptcha", "uam", "ddos protection", "managed_challenge"]

  /** Some marker of `markers` occurs in `s`. */
  predicate AnyMarker(s: string, markers: seq<string>) {
    exists i :: 0 <= i < |markers| && Contains(s, markers[i])
  }

  /** detectCaptcha: the lower-cased body contains one of the eight markers. */
  function DetectCaptcha(body: string): (b: bool)
    ensures b <==> AnyMarker(ToLower(body), CaptchaMarkers)
  {
    var lowerBody := ToLower(body);
    var b := Contains(lowerBody, "checking your browser") ||
      Contains(lowerBody, "challenges.cloudflare.com") ||
      Contains(lowerBody, "challenge-form") ||
      Contains(lowerBody, "turnstile") ||
      Contains(lowerBody, "hcaptcha") ||
      Contains(lowerBody, "uam") ||
      Contains(lowerBody, "ddos protection") ||
      Contains(lowerBody, "managed_challenge");
    MarkersFound(lowerBody);
    b
  }

  /** Each of the eight tests finds its marker in CaptchaMarkers. */
  lemma MarkersFound(s: string)
    ensures Contains(s, "checking your browser") || Contains(s, "challenges.cloudflare.com") ||
            Contains(s, "challenge-form") || Contains(s, "turnstile") || Contains(s, "hcaptcha") ||
            Contains(s, "uam") || Contains(s, "ddos protection") || Contains(s, "managed_challenge")
            ==> AnyMarker(s, CaptchaMarkers)
  {
    if Contains(s, "checking your browser") { assert Contains(s, CaptchaMarkers[0]); }
    if Contains(s, "challenges.cloudflare.com") { assert Contains(s, CaptchaMarkers[1]); }
    if Contains(s, "challenge-form") { assert Contains(s, CaptchaMarkers[2]); }
    if Contains(s, "turnstile") { assert Contains(s, CaptchaMarkers[3]); }
    if Contains(s, "hcaptcha") { assert Contains(s, CaptchaMarkers[4]); }
    if Contains(s, "uam") { assert Contains(s, CaptchaMarkers[5]); }
    if Contains(s, "ddos protection") { assert Contains(s, CaptchaMarkers[6]); }
    if Contains(s, "managed_challenge") { assert Contains(s, CaptchaMarkers[7]); }
  }

  /** Detection ignores ASCII case: an upper-cased page is detected exactly when the page is. */
  lemma DetectCaptchaIgnoresCase(body: string)
    ensures DetectCaptcha(ToUpper(body)) == DetectCaptcha(body)
    ensures DetectCaptcha(ToLower(body)) == DetectCaptcha(body)
  {
    LowerForgetsCase(body);
  }

  const ClearanceName: string := "cf_clearance"

  /** A browser cookie, by name and value. */
  datatype Cookie = Cookie(name: string, value: string)

  /** The value of the first cookie named cf_clearance, or "" when there is none. */
  function ClearanceOf(cookies: seq<Cookie>): string {
    if cookies == [] then ""
    else if cookies[0].name == ClearanceName then cookies[0].value
    else ClearanceOf(cookies[1..])
  }

  /** Cookie `i` is the first one named cf_clearance. */
  predicate FirstClearance(cookies: seq<Cookie>, i: int) {
    && 0 <= i < |cookies|
    && cookies[i].name == ClearanceName
    && forall j :: 0 <= j < i ==> cookies[j].name != ClearanceName
  }

  /** ClearanceOf finds the first cf_clearance cookie, and "" when no cookie has that name. */
  lemma {:induction false} ClearanceOfSpec(cookies: seq<Cookie>)
    ensures (forall j :: 0 <= j < |cookies| ==> cookies[j].name != ClearanceName) ==> ClearanceOf(cookies) == ""
    ensures forall i :: FirstClearance(cookies, i) ==> ClearanceOf(cookies) == cookies[i].value
  {
    if cookies != [] && cookies[0].name != ClearanceName {
      var rest := cookies[1..];
      ClearanceOfSpec(rest);
      forall i | FirstClearance(cookies, i)
        ensures ClearanceOf(cookies) == cookies[i].value
      {
        assert FirstClearance(rest, i - 1);
      }
    }
  }

  /** The cookie loop of verifyWithCookie: the first cf_clearance value, and stop. */
  method FindClearance(cookies: seq<Cookie>) returns (cfClearance: string)
    ensures cfClearance == ClearanceOf(cookies)
  {
    cfClearance := "";
    var i := 0;
    while i < |cookies|
      invariant 0 <= i <= |cookies|
      invariant ClearanceOf(cookies) == ClearanceOf(cookies[i..])
    {
      var c := cookies[i];
      if c.name == ClearanceName {
        cfClearance := c.value;
        break;
      }
      assert cookies[i..][1..] == cookies[i + 1..];
      i := i + 1;
    }
  }

  /** The markers whose presence in the lower-cased final page means rejection. */
  const RejectMarkers: seq<string> := [
    "attention required", "checking your browser", "challenge", "ddos", "managed_challenge"]

  /** Each of the five rejection tests finds its marker in RejectMarkers. */
  lemma RejectsFound(s: string)
    ensures Contains(s, "attention required") || Contains(s, "checking your browser") ||
            Contains(s, "challenge") || Contains(s, "ddos") || Contains(s, "managed_challenge")
            ==> AnyMarker(s, RejectMarkers)
  {
    if Contains(s, "attention required") { assert Contains(s, RejectMarkers[0]); }
    if Contains(s, "checking your browser") { assert Contains(s, RejectMarkers[1]); }
    if Contains(s, "challenge") { assert Contains(s, RejectMarkers[2]); }
    if Contains(s, "ddos") { assert Contains(s, RejectMarkers[3]); }
    if Contains(s, "managed_challenge") { assert Contains(s, RejectMarkers[4]); }
  }

  /**
   * verifyWithCookie's acceptance: status 200, a Server header that contains
   * "cloudflare", and none of the five markers in the lower-cased body.
   */
  function Accepted(status: int, server: string, body: string): (ok: bool)
    ensures ok <==> status == 200 && Contains(server, "cloudflare") && !AnyMarker(ToLower(body), RejectMarkers)
  {
    var lowerHtml := ToLower(body);
    var ok := status == 200 &&
      Contains(server, "cloudflare") &&
      !Contains(lowerHtml, "attention required") &&
      !Contains(lowerHtml, "checking your browser") &&
      !Contains(lowerHtml, "challenge") &&
      !Contains(lowerHtml, "ddos") &&
      !Contains(lowerHtml, "managed_challenge");
    assert AnyMarker(lowerHtml, RejectMarkers) ==> !ok by {
      if AnyMarker(lowerHtml, RejectMarkers) {
        var i :| 0 <= i < |RejectMarkers| && Contains(lowerHtml, RejectMarkers[i]);
      }
    }
    RejectsFound(lowerHtml);
    ok
  }

  /**
   * An accepted page shows none of the challenge markers that contain a
   * rejection marker, so if it is detected as a challenge at all, it is
   * through "turnstile", "hcaptcha" or "uam".
   */
  lemma AcceptedPageHasNoChallengeForm(status: int, server: string, body: string)
    requires Accepted(status, server, body)
    ensures DetectCaptcha(body) <==>
      var lower := ToLower(body);
      Contains(lower, "turnstile") || Contains(lower, "hcaptcha") || Contains(lower, "uam")
  {
    var lower := ToLower(body);
    assert !Contains(lower, RejectMarkers[2]);
    assert !Contains(lower, RejectMarkers[3]);
    assert !Contains(lower, RejectMarkers[4]);
    assert !Contains(lower, RejectMarkers[1]);
    assert Contains("challenges.cloudflare.com", "challenge");
    assert Contains("challenge-form", "challenge");
    assert Contains("ddos protection", "ddos");
    if Contains(lower, "challenges.cloudflare.com") {
      ContainsTransitive(lower, "challenges.cloudflare.com", "challenge");
    }
    if Contains(lower, "challenge-form") {
      ContainsTransitive(lower, "challenge-form", "challenge");
    }
    if Contains(lower, "ddos protection") {
      ContainsTransitive(lower, "ddos protection", "ddos");
    }
    if DetectCaptcha(body) {
      var i :| 0 <= i < |CaptchaMarkers| && Contains(lower, CaptchaMarkers[i]);
      assert i == 3 || i == 4 || i == 5;
    }
  }

  /** The final request's response: status, Server header and body. */
  datatype Response = Response(status: int, server: string, body: string)

  /**
   * The final verification succeeds: the cookies could be read, there is a
   * non-empty cf_clearance, the proxy URL parses, the request got a
   * response, and the response is accepted.
   */
  predicate VerifyPasses(cookies: Option<seq<Cookie>>, proxyUrl: string, parses: string -> bool,
                         response: Option<Response>) {
    && cookies.Some?
    && ClearanceOf(cookies.value) != ""
    && parses(proxyUrl)
    && response.Some?
    && Accepted(response.value.status, response.value.server, response.value.body)
  }

  /**
   * verifyWithCookie: every failure yields (false, ""); on success the
   * clearance value is returned.
   */
  method VerifyWithCookie(cookies: Option<seq<Cookie>>, proxyUrl: string, parses: string -> bool,
                          response: Option<Response>) returns (ok: bool, clearance: string)
    ensures ok <==> VerifyPasses(cookies, proxyUrl, parses, response)
    ensures ok ==> clearance == ClearanceOf(cookies.value) && clearance != ""
    ensures !ok ==> clearance == ""
  {
    if cookies.None? {
      return false, "";
    }
    var cfClearance := FindClearance(cookies.value);
    if cfClearance == "" {
      return false, "";
    }
    if !parses(proxyUrl) {
      return false, "";
    }
    if response.None? {
      return false, "";
    }
    var resp := response.value;
    if Accepted(resp.status, resp.server, resp.body) {
      return true, cfClearance;
    }
    return false, "";
  }

  /**
   * solveWithProxy after the browser run: a run that failed or did not pass
   * the clearance check gives (false, "") without verification; otherwise
   * the result is the verification's, through the proxy's proxy URL.
   */
  method SolveWithProxy(proxy: string, runOk: bool, passed: bool, cookies: Option<seq<Cookie>>,
                        parses: string -> bool, response: Option<Response>) returns (ok: bool, clearance: string)
    ensures !runOk || !passed ==> !ok && clearance == ""
    ensures ok <==> runOk && passed && VerifyPasses(cookies, ProxyUrl(proxy), parses, response)
    ensures ok ==> clearance == ClearanceOf(cookies.value) && clearance != ""
    ensures !ok ==> clearance == ""
  {
    var proxyUrl := ProxyUrl(proxy);
    if !runOk || !passed {
      return false, "";
    }
    ok, clearance := VerifyWithCookie(cookies, proxyUrl, parses, response);
  }
}
