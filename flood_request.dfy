/**
 * Ai_flood.go's request construction inside proxyWorker: the target URL
 * with an optional query parameter and fragment, and the header set built
 * from the current profile through the fixed header order plus the
 * profile's "Name: Value" upgrade lines.
 */
module FloodRequest {
  import opened Text
  import opened FloodProfile

  /** The query-parameter names one is drawn from. */
  const Params: seq<string> := ["q", "id", "search", "page", "token", "ts", "rnd", "v", "sid", "ref", "utm_source"]

  /**
   * The alphabet of randomString,
   * "abcdefghijklmnopqrstuvwxyzABCDEFGHIJKLMNOPQRSTUVWXYZ0123456789-._",
   * given by position.
   */
  function LetterAt(k: nat): (c: char)
    requires k < LetterCount
    ensures c !in "#?&="
  {
    if k < 26 then ('a' as int + k) as char
    else if k < 52 then ('A' as int + k - 26) as char
    else if k < 62 then ('0' as int + k - 52) as char
    else "-._"[k - 62]
  }

  const LetterCount: nat := 65

  /** The fragment is randomString(rng, 16). */
  const FragmentLength: nat := 16

  /** The query value is rng.Int63n(1 << 60). */
  const QueryValueBound: nat := 0x1000_0000_0000_0000

  /**
   * randomString: fill a fresh buffer with one letter per draw
   * rng.Intn(len(letters)).
   */
  method RandomString(draws: seq<int>) returns (s: string)
    requires forall i :: 0 <= i < |draws| ==> 0 <= draws[i] < LetterCount
    ensures |s| == |draws|
    ensures forall i :: 0 <= i < |s| ==> s[i] == LetterAt(draws[i])
    ensures '#' !in s && '?' !in s && '&' !in s && '=' !in s
  {
    var b := new char[|draws|];
    for i := 0 to |draws|
      invariant forall j :: 0 <= j < i ==> b[j] == LetterAt(draws[j])
    {
      b[i] := LetterAt(draws[i]);
    }
    s := b[..];
  }

  /**
   * The draws one URL costs: whether rng.Float64() < 0.85 (add a query),
   * the parameter index, the value, whether rng.Float64() < 0.3 (add a
   * fragment) and the fragment's letter draws.
   */
  datatype UrlDraws = UrlDraws(addQuery: bool, param: int, value: int, addFragment: bool, fragment: seq<int>)

  predicate ValidUrlDraws(d: UrlDraws) {
    && 0 <= d.param < |Params|
    && 0 <= d.value < QueryValueBound
    && |d.fragment| == FragmentLength
    && forall i :: 0 <= i < |d.fragment| ==> 0 <= d.fragment[i] < LetterCount
  }

  /** "&" when the URL already has a query, "?" otherwise. */
  function QuerySeparator(url: string): (sep: char)
    ensures sep == (if '?' in url then '&' else '?')
  {
    ContainsChar(url, '?');
    if Contains(url, "?") then '&' else '?'
  }

  /** The fragment of a URL: "#" and one letter per fragment draw, or nothing. */
  function Fragment(d: UrlDraws): (frag: string)
    requires ValidUrlDraws(d)
    ensures !d.addFragment ==> frag == ""
    ensures d.addFragment ==> |frag| == 1 + FragmentLength && frag[0] == '#' && '#' !in frag[1..]
    ensures d.addFragment ==> forall i :: 0 <= i < FragmentLength ==> frag[i + 1] == LetterAt(d.fragment[i])
  {
    if d.addFragment then
      var letters := seq(FragmentLength, i requires 0 <= i < FragmentLength => LetterAt(d.fragment[i]));
      assert '#' !in letters;
      "#" + letters
    else ""
  }

  /**
   * The URL of one iteration: the target alone, or the target, the separator,
   * "name=value" and possibly "#fragment".
   */
  method BuildUrl(target: string, d: UrlDraws) returns (url: string)
    requires ValidUrlDraws(d)
    ensures !d.addQuery ==> url == target
    ensures d.addQuery ==>
      url == target + [QuerySeparator(target)] + Params[d.param] + "=" + Decimal(d.value) + Fragment(d)
  {
    url := target;
    if d.addQuery {
      var sep := QuerySeparator(url);
      url := url + [sep] + Params[d.param] + "=" + Decimal(d.value);
      var frag := "";
      if d.addFragment {
        var letters := RandomString(d.fragment);
        frag := "#" + letters;
      }
      assert frag == Fragment(d);
      url := url + frag;
    }
  }

  /** A split at the first `c` is the unique split whose left part has no `c`. */
  lemma SplitOnceAt(a: string, c: char, b: string)
    requires c !in a
    ensures SplitOnce(a + [c] + b, c) == [a, b]
  {
    var s := a + [c] + b;
    assert s[|a|] == c;
    var parts := SplitOnce(s, c);
    assert |parts| == 2;
    assert parts[0] == s[..|a|] == a;
    assert parts[1] == s[|a| + 1..] == b;
  }

  /**
   * The query can be read back: after the separator, splitting at the first
   * '=' gives the parameter name, and the text before any '#' is the
   * value's decimal form, which parses back to the value.
   */
  lemma QueryReadsBack(param: int, value: nat, frag: string)
    requires 0 <= param < |Params|
    requires frag == "" || frag[0] == '#'
    ensures var parts := SplitOnce(Params[param] + "=" + Decimal(value) + frag, '=');
      && parts == [Params[param], Decimal(value) + frag]
      && SplitOnce(parts[1], '#')[0] == Decimal(value)
      && ParseDecimal(SplitOnce(parts[1], '#')[0]) == value
  {
    var name := Params[param];
    assert '=' !in name;
    var digits := Decimal(value);
    assert name + "=" + digits + frag == name + ['='] + (digits + frag);
    SplitOnceAt(name, '=', digits + frag);
    assert '#' !in digits;
    if frag == "" {
      assert digits + frag == digits;
    } else {
      assert digits + frag == digits + ['#'] + frag[1..];
      SplitOnceAt(digits, '#', frag[1..]);
    }
    DecimalRoundTrip(value);
  }

  /** The header names set from the header map, in this order; X-Forwarded-For is not among them. */
  const HeaderOrder: seq<string> := [
    "Host", "User-Agent", "Accept", "Accept-Encoding", "Accept-Language",
    "Connection", "Cache-Control", "Upgrade-Insecure-Requests", "Sec-Fetch-Dest",
    "Sec-Fetch-Mode", "Sec-Fetch-Site", "Sec-Fetch-User", "Referer",
    "Sec-CH-UA", "Sec-CH-UA-Mobile", "Sec-CH-UA-Platform", "TE"]

  const ForwardedHeader: string := "X-Forwarded-For"

  /** The referer is drawn from these three. */
  function Referers(target: string): seq<string> {
    [target, "https://www.google.com/", ""]
  }

  /**
   * headerMap: a value for every name of HeaderOrder, then the profile's
   * custom headers over them, then X-Forwarded-For if the profile has a chain.
   */
  function HeaderMap(prof: Profile, host: string, referer: string): (m: map<string, string>)
    ensures forall k :: k in HeaderOrder ==> k in m
    ensures ForwardedHeader in m <==> prof.xForwardedFor != "" || ForwardedHeader in prof.customHeaders
    ensures prof.xForwardedFor != "" ==> m[ForwardedHeader] == prof.xForwardedFor
  {
    var fixed := map[
      "Host" := host,
      "User-Agent" := prof.userAgent,
      "Accept" := prof.accept,
      "Accept-Encoding" := prof.encoding,
      "Accept-Language" := prof.language,
      "Connection" := prof.connection,
      "Cache-Control" := prof.cacheControl,
      "Upgrade-Insecure-Requests" := "1",
      "Sec-Fetch-Dest" := "document",
      "Sec-Fetch-Mode" := "navigate",
      "Sec-Fetch-Site" := "none",
      "Sec-Fetch-User" := "?1",
      "Referer" := referer,
      "Sec-CH-UA" := prof.secChUa,
      "Sec-CH-UA-Mobile" := prof.secChUaMobile,
      "Sec-CH-UA-Platform" := prof.secChUaPlatform,
      "TE" := "trailers"];
    var withCustom := fixed + prof.customHeaders;
    if prof.xForwardedFor != "" then withCustom[ForwardedHeader := prof.xForwardedFor] else withCustom
  }

  /**
   * The first header loop: set each name of HeaderOrder that the header map
   * has, to the map's value. Nothing outside HeaderOrder is set.
   */
  /** The entries of a header map whose names are in HeaderOrder. */
  function Ordered(m: map<string, string>): map<string, string> {
    map k | k in HeaderOrder && k in m :: m[k]
  }

  method OrderHeaders(headerMap: map<string, string>) returns (hdr: map<string, string>)
    ensures forall k :: k in hdr <==> k in HeaderOrder && k in headerMap
    ensures forall k :: k in hdr ==> hdr[k] == headerMap[k]
  {
    hdr := map[];
    for i := 0 to |HeaderOrder|
      invariant forall k :: k in hdr <==> k in HeaderOrder[..i] && k in headerMap
      invariant forall k :: k in hdr ==> hdr[k] == headerMap[k]
    {
      var key := HeaderOrder[i];
      if key in headerMap {
        hdr := hdr[key := headerMap[key]];
      }
      assert HeaderOrder[..i + 1] == HeaderOrder[..i] + [key];
    }
    assert HeaderOrder[..|HeaderOrder|] == HeaderOrder;
  }

  /** An upgrade line's name and value: split at the first ':' and trim both halves. */
  function UpgradeField(line: string): (string, string)
    requires ':' in line
  {
    var parts := SplitOnce(line, ':');
    (TrimSpace(parts[0]), TrimSpace(parts[1]))
  }

  /** An upgrade line is cut at its first ':' and both halves are trimmed. */
  lemma UpgradeFieldSplits(line: string)
    requires ':' in line
    ensures exists a, b :: line == a + ":" + b && ':' !in a && UpgradeField(line) == (TrimSpace(a), TrimSpace(b))
  {
    var a, b := SplitOnce(line, ':')[0], SplitOnce(line, ':')[1];
    assert line == a + ":" + b && ':' !in a && UpgradeField(line) == (TrimSpace(a), TrimSpace(b));
  }

  /** The header set after applying the upgrade lines in order; lines without ':' are skipped. */
  function Upgraded(hdr: map<string, string>, lines: seq<string>): map<string, string> {
    if lines == [] then hdr
    else
      var before := Upgraded(hdr, lines[..|lines| - 1]);
      var line := lines[|lines| - 1];
      if ':' in line then before[UpgradeField(line).0 := UpgradeField(line).1] else before
  }

  /** The names the upgrade lines set. */
  function UpgradeNames(lines: seq<string>): set<string> {
    if lines == [] then {}
    else
      var line := lines[|lines| - 1];
      UpgradeNames(lines[..|lines| - 1]) + if ':' in line then {UpgradeField(line).0} else {}
  }

  /** Line `i` sets `name`. */
  predicate SetsName(lines: seq<string>, i: int, name: string) {
    0 <= i < |lines| && ':' in lines[i] && UpgradeField(lines[i]).0 == name
  }

  /** A name is an upgrade name exactly when some upgrade line sets it. */
  lemma {:induction false} UpgradeNamesSpec(lines: seq<string>, name: string)
    ensures name in UpgradeNames(lines) ==> exists i :: SetsName(lines, i, name)
    ensures forall i :: SetsName(lines, i, name) ==> name in UpgradeNames(lines)
  {
    if lines != [] {
      var n := |lines| - 1;
      var init := lines[..n];
      UpgradeNamesSpec(init, name);
      if name in UpgradeNames(lines) {
        if name in UpgradeNames(init) {
          var i :| SetsName(init, i, name);
          assert init[i] == lines[i];
          assert SetsName(lines, i, name);
        } else {
          assert SetsName(lines, n, name);
        }
      }
      forall i | SetsName(lines, i, name)
        ensures name in UpgradeNames(lines)
      {
        if i < n {
          assert init[i] == lines[i];
          assert SetsName(init, i, name);
        }
      }
    }
  }

  /** The upgrade lines add exactly their names; a name none of them sets keeps its value. */
  lemma {:induction false} UpgradedKeeps(hdr: map<string, string>, lines: seq<string>, name: string)
    ensures name in Upgraded(hdr, lines) <==> name in hdr || name in UpgradeNames(lines)
    ensures name !in UpgradeNames(lines) && name in hdr ==> Upgraded(hdr, lines)[name] == hdr[name]
  {
    if lines != [] {
      UpgradedKeeps(hdr, lines[..|lines| - 1], name);
    }
  }

  /** The value of a name is the one of the last upgrade line that sets it. */
  lemma {:induction false} UpgradedLastWins(hdr: map<string, string>, lines: seq<string>, i: int, name: string)
    requires SetsName(lines, i, name)
    requires forall j :: i < j < |lines| ==> !SetsName(lines, j, name)
    ensures name in Upgraded(hdr, lines) && Upgraded(hdr, lines)[name] == UpgradeField(lines[i]).1
  {
    var n := |lines| - 1;
    if i < n {
      var init := lines[..n];
      assert !SetsName(lines, n, name);
      assert SetsName(init, i, name);
      forall j | i < j < |init|
        ensures !SetsName(init, j, name)
      {
        assert !SetsName(lines, j, name);
      }
      UpgradedLastWins(hdr, init, i, name);
    }
  }

  /** The second header loop: set the trimmed name and value of every upgrade line that contains ':'. */
  method ApplyUpgrades(hdr: map<string, string>, lines: seq<string>) returns (out: map<string, string>)
    ensures out == Upgraded(hdr, lines)
  {
    out := hdr;
    for i := 0 to |lines|
      invariant out == Upgraded(hdr, lines[..i])
    {
      var up := lines[i];
      assert lines[..i + 1][..i] == lines[..i];
      ContainsChar(up, ':');
      if Contains(up, ":") {
        var parts := SplitOnce(up, ':');
        out := out[TrimSpace(parts[0]) := TrimSpace(parts[1])];
      }
    }
    assert lines[..|lines|] == lines;
  }

  /**
   * The request's headers: exactly the 17 names of HeaderOrder and the names
   * of the upgrade lines. X-Forwarded-For is sent only if an upgrade line
   * names it, whatever the profile's chain. A name no upgrade line sets has
   * its header-map value.
   */
  method BuildHeaders(prof: Profile, host: string, referer: string) returns (hdr: map<string, string>)
    ensures forall k :: k in hdr <==> k in HeaderOrder || k in UpgradeNames(prof.upgradeHeaders)
    ensures ForwardedHeader in hdr <==> ForwardedHeader in UpgradeNames(prof.upgradeHeaders)
    ensures forall k :: k in HeaderOrder && k !in UpgradeNames(prof.upgradeHeaders) ==>
              hdr[k] == HeaderMap(prof, host, referer)[k]
    ensures hdr == Upgraded(Ordered(HeaderMap(prof, host, referer)), prof.upgradeHeaders)
  {
    var headerMap := HeaderMap(prof, host, referer);
    var ordered := OrderHeaders(headerMap);
    assert ordered == Ordered(headerMap);
    hdr := ApplyUpgrades(ordered, prof.upgradeHeaders);
    forall k
      ensures k in hdr <==> k in HeaderOrder || k in UpgradeNames(prof.upgradeHeaders)
      ensures k in HeaderOrder && k !in UpgradeNames(prof.upgradeHeaders) ==> hdr[k] == headerMap[k]
    {
      UpgradedKeeps(ordered, prof.upgradeHeaders, k);
    }
    assert ForwardedHeader !in HeaderOrder;
  }

  /** The request one iteration sends: its URL and its headers. */
  datatype Request = Request(url: string, headers: map<string, string>)

  /**
   * The request of one iteration: the URL from the target and the URL draws,
   * the headers from the current profile, the host and the drawn referer.
   */
  method BuildRequest(target: string, d: UrlDraws, prof: Profile, host: string, referer: string) returns (r: Request)
    requires ValidUrlDraws(d)
    ensures forall k :: k in r.headers <==> k in HeaderOrder || k in UpgradeNames(prof.upgradeHeaders)
    ensures r.headers == Upgraded(Ordered(HeaderMap(prof, host, referer)), prof.upgradeHeaders)
    ensures !d.addQuery ==> r.url == target
    ensures d.addQuery ==>
      r.url == target + [QuerySeparator(target)] + Params[d.param] + "=" + Decimal(d.value) + Fragment(d)
  {
    var url := BuildUrl(target, d);
    var headers := BuildHeaders(prof, host, referer);
    r := Request(url, headers);
  }
}
