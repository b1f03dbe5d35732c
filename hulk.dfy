/**
 * quantum_hulk.go's sequential logic: the thread-count argument, the mode
 * switch and list loading, and one worker iteration (proxy and cookie
 * selection, the transport's proxy, the request headers and the global
 * counters). What the network returns and every random pick are inputs.
 */
module Hulk {
  import opened Wrappers
  import opened Text
  import opened LineFilter

  const MaxInt64: int := 0x7FFF_FFFF_FFFF_FFFF
  const MinInt64: int := -0x8000_0000_0000_0000

  /** Fewer threads than this are replaced by DefaultThreads. */
  const MinThreads: int := 1000
  const DefaultThreads: int := 80000

  /** The text after an optional leading '+' or '-'. */
  function Unsigned(s: string): string {
    if |s| > 0 && (s[0] == '+' || s[0] == '-') then s[1..] else s
  }

  /** strconv.Atoi's syntax: an optional sign and at least one decimal digit. */
  predicate IsInteger(s: string) {
    Unsigned(s) != [] && AllDigits(Unsigned(s))
  }

  predicate Negative(s: string) {
    |s| > 0 && s[0] == '-'
  }

  /** The value of an integer's text, its sign applied. */
  function Signed(s: string): int
    requires IsInteger(s)
  {
    var magnitude: int := ParseDecimal(Unsigned(s));
    if Negative(s) then -magnitude else magnitude
  }

  const MaxUint64: int := 0xFFFF_FFFF_FFFF_FFFF

  /** The int64 nearest to v. */
  function Clamp64(v: int): (n: int)
    ensures MinInt64 <= n <= MaxInt64
    ensures MinInt64 <= v <= MaxInt64 ==> n == v
  {
    if v > MaxInt64 then MaxInt64 else if v < MinInt64 then MinInt64 else v
  }

  /** The leading run of decimal digits of s. */
  function DigitRun(s: string): (r: string)
    ensures AllDigits(r) && |r| <= |s| && r == s[..|r|]
    ensures |r| < |s| ==> !IsDigit(s[|r|])
  {
    if s == [] || !IsDigit(s[0]) then []
    else
      var r := [s[0]] + DigitRun(s[1..]);
      assert r[1..] == DigitRun(s[1..]);
      r
  }

  /** Every all-digit prefix lies within the leading digit run. */
  lemma DigitRunCovers(s: string, i: nat)
    requires i <= |s| && AllDigits(s[..i])
    ensures i <= |DigitRun(s)|
  {
  }

  /** A prefix of a digit string never reads as more than the whole string. */
  lemma {:induction false} PrefixValueBelow(s: string, j: nat)
    requires AllDigits(s) && j <= |s|
    ensures AllDigits(s[..j]) && ParseDecimal(s[..j]) <= ParseDecimal(s)
  {
    if j < |s| {
      var init := s[..|s| - 1];
      assert init[..j] == s[..j];
      PrefixValueBelow(init, j);
    } else {
      assert s[..j] == s;
    }
  }

  /** The outcome of strconv.ParseUint in base 10 over 64 bits. */
  datatype Parsed = Value(n: nat) | SyntaxError | RangeError

  /**
   * ParseUint's loop from position i, the digits before it already read: a
   * character that is not a digit is a syntax error and a digit that takes
   * the value past the uint64 maximum a range error, whichever comes first.
   */
  function ScanDigits(u: string, i: nat): Parsed
    requires i <= |u| && AllDigits(u[..i]) && ParseDecimal(u[..i]) <= MaxUint64
    decreases |u| - i
  {
    if i == |u| then Value(ParseDecimal(u[..i]))
    else if !IsDigit(u[i]) then SyntaxError
    else
      var next := u[..i + 1];
      assert next[..i] == u[..i] && next[i] == u[i];
      if ParseDecimal(u[..i]) * 10 + DigitValue(u[i]) > MaxUint64 then RangeError
      else ScanDigits(u, i + 1)
  }

  /**
   * The scan decided by the leading digit run: a range error iff that run
   * reads past the uint64 maximum, even when other text follows; otherwise
   * a syntax error iff there is other text, and the value if there is not.
   */
  lemma {:induction false} ScanDigitsDecided(u: string, i: nat)
    requires i <= |u| && AllDigits(u[..i]) && ParseDecimal(u[..i]) <= MaxUint64
    ensures ScanDigits(u, i) ==
      if ParseDecimal(DigitRun(u)) > MaxUint64 then RangeError
      else if !AllDigits(u) then SyntaxError
      else Value(ParseDecimal(u))
    decreases |u| - i
  {
    var r := DigitRun(u);
    DigitRunCovers(u, i);
    if i == |u| {
      assert u[..i] == u == r;
    } else if !IsDigit(u[i]) {
      assert r == u[..i];
    } else {
      var next := u[..i + 1];
      assert next[..i] == u[..i] && next[i] == u[i];
      DigitRunCovers(u, i + 1);
      assert r[..i + 1] == next;
      PrefixValueBelow(r, i + 1);
      if ParseDecimal(next) <= MaxUint64 {
        ScanDigitsDecided(u, i + 1);
      }
    }
  }

  /** strconv.ParseUint(u, 10, 64): the empty text is a syntax error. */
  function ParseUint(u: string): Parsed {
    if u == [] then SyntaxError else ScanDigits(u, 0)
  }

  /**
   * A digit run that passes the uint64 maximum: ParseUint reports the range
   * error before it reaches whatever follows the run.
   */
  predicate Overflows(s: string) {
    ParseDecimal(DigitRun(Unsigned(s))) > MaxUint64
  }

  /**
   * strconv.Atoi (through ParseInt) with its error dropped: 0 after a syntax
   * error, the nearest int64 bound after a range error, and a magnitude
   * beyond int64 clamped by its sign.
   */
  function Atoi(s: string): (n: int)
    ensures MinInt64 <= n <= MaxInt64
    ensures IsInteger(s) ==> n == Clamp64(Signed(s))
    ensures Overflows(s) ==> n == (if Negative(s) then MinInt64 else MaxInt64)
    ensures !IsInteger(s) && !Overflows(s) ==> n == 0
  {
    var u := Unsigned(s);
    assert u[..0] == [];
    ScanDigitsDecided(u, 0);
    assert AllDigits(u) ==> DigitRun(u) == u;
    match ParseUint(u)
    case SyntaxError => 0
    case RangeError => if Negative(s) then MinInt64 else MaxInt64
    case Value(un) =>
      if !Negative(s) && un > MaxInt64 then MaxInt64
      else if Negative(s) && un > -MinInt64 then MinInt64
      else if Negative(s) then -(un as int) else un
  }

  /** Atoi reads back every int64 printed in decimal, with or without a sign. */
  lemma AtoiDecimal(n: nat)
    ensures n <= MaxInt64 ==> Atoi(Decimal(n)) == n && Atoi("+" + Decimal(n)) == n
    ensures n <= -MinInt64 ==> Atoi("-" + Decimal(n)) == -(n as int)
  {
    var d := Decimal(n);
    DecimalRoundTrip(n);
    assert d[0] != '+' && d[0] != '-' by {
      assert IsDigit(d[0]);
    }
    assert Unsigned(d) == d && IsInteger(d) && Signed(d) == n;
    assert Unsigned("+" + d) == d && IsInteger("+" + d) && Signed("+" + d) == n;
    assert Unsigned("-" + d) == d && IsInteger("-" + d) && Signed("-" + d) == -(n as int);
  }

  /**
   * A number past the uint64 maximum followed by text that does not start
   * with a digit: Atoi gives the int64 bound of its sign, not 0.
   */
  lemma AtoiOverflowFirst(m: nat, rest: string)
    requires m > MaxUint64 && (rest == [] || !IsDigit(rest[0]))
    ensures Atoi(Decimal(m) + rest) == MaxInt64
    ensures Atoi("-" + Decimal(m) + rest) == MinInt64
  {
    DecimalRoundTrip(m);
    OverflowingText(Decimal(m), rest);
  }

  /** Digits reading past the uint64 maximum, then a stop: the text overflows, signed or not. */
  lemma OverflowingText(d: string, rest: string)
    requires d != [] && AllDigits(d) && ParseDecimal(d) > MaxUint64
    requires rest == [] || !IsDigit(rest[0])
    ensures Overflows(d + rest) && !Negative(d + rest)
    ensures Overflows("-" + d + rest) && Negative("-" + d + rest)
  {
    var s := d + rest;
    DigitRunBeforeStop(d, rest);
    SignOfDigits(s);
    assert "-" + d + rest == "-" + s;
  }

  /** Text that starts with a digit has no sign; a '-' in front of it makes it negative. */
  lemma SignOfDigits(s: string)
    requires s != [] && IsDigit(s[0])
    ensures Unsigned(s) == s && !Negative(s)
    ensures Unsigned("-" + s) == s && Negative("-" + s)
  {
    assert ("-" + s)[1..] == s;
  }

  /** The leading digit run ends where a non-digit (or the end) follows digits. */
  lemma DigitRunBeforeStop(d: string, rest: string)
    requires AllDigits(d) && (rest == [] || !IsDigit(rest[0]))
    ensures DigitRun(d + rest) == d
  {
    var s := d + rest;
    assert s[..|d|] == d;
    DigitRunCovers(s, |d|);
  }

  /**
   * main's clamp of the thread-count argument: never below MinThreads; a
   * parsed count of at least MinThreads is kept, anything else (an
   * unparsable argument included) becomes DefaultThreads.
   */
  function ThreadCount(arg: string): (t: int)
    ensures t >= MinThreads
    ensures Atoi(arg) >= MinThreads ==> t == Atoi(arg)
    ensures Atoi(arg) < MinThreads ==> t == DefaultThreads
    ensures !IsInteger(arg) && !Overflows(arg) ==> t == DefaultThreads
    ensures Overflows(arg) ==> t == (if Negative(arg) then DefaultThreads else MaxInt64)
  {
    var threadsNum := Atoi(arg);
    if threadsNum < MinThreads then DefaultThreads else threadsNum
  }

  /** loadFile keeps a trimmed line iff it is non-empty. */
  predicate HulkKeep(l: string) {
    l != ""
  }

  /** The lines of a list file: none for an empty path or a file that did not open. */
  function FileLines(path: string, contents: Option<seq<string>>): seq<string> {
    if path == "" || contents.None? then [] else Kept(contents.value, HulkKeep)
  }

  /**
   * loadFile: an empty path gives the empty list; a file that does not open
   * gives no lines; otherwise every non-empty trimmed line, in order.
   */
  method LoadFile(path: string, contents: Option<seq<string>>) returns (l: seq<string>)
    ensures path == "" ==> l == []
    ensures l == FileLines(path, contents)
    ensures forall x :: x in l ==> x != "" && TrimSpace(x) == x
  {
    if path == "" {
      return [];
    }
    l := [];
    if contents.Some? {
      var lines := contents.value;
      for i := 0 to |lines|
        invariant l == Kept(lines[..i], HulkKeep)
      {
        var x := TrimSpace(lines[i]);
        if x != "" {
          l := l + [x];
        }
        assert lines[..i + 1][..i] == lines[..i];
      }
      assert lines[..|lines|] == lines;
      KeptAreTrimmed(lines, HulkKeep);
    }
  }

  datatype Mode = ProxyMode | CookieMode | RawMode

  /** The mode and the two lists the workers draw from. */
  datatype Lists = Lists(mode: Mode, proxies: seq<string>, cookies: seq<string>)

  /**
   * main's mode switch: "proxy" loads the proxy list, "cookie" the cookie
   * list, "raw" neither; any other mode is an error.
   */
  method Configure(mode: string, path: string, contents: Option<seq<string>>) returns (r: Result<Lists, string>)
    ensures r.Err? <==> mode != "proxy" && mode != "cookie" && mode != "raw"
    ensures mode == "proxy" ==> r == Ok(Lists(ProxyMode, FileLines(path, contents), []))
    ensures mode == "cookie" ==> r == Ok(Lists(CookieMode, [], FileLines(path, contents)))
    ensures mode == "raw" ==> r == Ok(Lists(RawMode, [], []))
  {
    if mode == "proxy" {
      var proxies := LoadFile(path, contents);
      r := Ok(Lists(ProxyMode, proxies, []));
    } else if mode == "cookie" {
      var cookies := LoadFile(path, contents);
      r := Ok(Lists(CookieMode, [], cookies));
    } else if mode == "raw" {
      r := Ok(Lists(RawMode, [], []));
    } else {
      r := Err("Invalid mode!");
    }
  }

  const HttpScheme: string := "http://"

  /**
   * A cookie-list line split at its first space: the proxy URL is "http://"
   * and the text before the space, the cookie is the rest, or "" when the
   * line has no space.
   */
  function SplitCookieLine(line: string): (r: (string, string))
    ensures HasPrefix(r.0, HttpScheme) && ' ' !in r.0[|HttpScheme|..]
    ensures ' ' in line ==> line == r.0[|HttpScheme|..] + " " + r.1
    ensures ' ' !in line ==> r.0[|HttpScheme|..] == line && r.1 == ""
  {
    var p := SplitOnce(line, ' ');
    var proxyUrl := HttpScheme + p[0];
    assert proxyUrl[|HttpScheme|..] == p[0];
    (proxyUrl, if |p| > 1 then p[1] else "")
  }

  /** The list a worker draws from is non-empty, so the pick must index it. */
  predicate ValidPick(l: Lists, pick: int) {
    && (l.mode == CookieMode && l.cookies != [] ==> 0 <= pick < |l.cookies|)
    && (l.mode == ProxyMode && l.proxies != [] ==> 0 <= pick < |l.proxies|)
  }

  /**
   * The worker's choice of proxy URL and cookie: in cookie mode the split of
   * the picked line, in proxy mode "http://" and the picked proxy without a
   * cookie, and nothing with an empty list or in raw mode.
   */
  function Selection(l: Lists, pick: int): (sel: (string, string))
    requires ValidPick(l, pick)
    ensures sel.0 != "" <==> (l.mode == CookieMode && l.cookies != []) || (l.mode == ProxyMode && l.proxies != [])
    ensures l.mode == ProxyMode && l.proxies != [] ==> sel == (HttpScheme + l.proxies[pick], "")
    ensures l.mode == CookieMode && l.cookies != [] ==> sel == SplitCookieLine(l.cookies[pick])
    ensures sel.1 != "" ==> l.mode == CookieMode
  {
    if l.mode == CookieMode then
      if |l.cookies| > 0 then SplitCookieLine(l.cookies[pick]) else ("", "")
    else if l.mode == ProxyMode then
      if |l.proxies| > 0 then (HttpScheme + l.proxies[pick], "") else ("", "")
    else ("", "")
  }

  const HulkUserAgent: string := "Mozilla/5.0 (Linux; Android 13)"

  /** One worker request: the target and its headers. */
  datatype HulkRequest = HulkRequest(url: string, headers: map<string, string>)

  /** The global sent, success and error counters. */
  class Counters {
    var sent: int
    var success: int
    var errors: int

    /** Every completed iteration counted one send and exactly one of success or error. */
    ghost predicate Valid()
      reads this
    {
      sent == success + errors && 0 <= success && 0 <= errors
    }

    constructor()
      ensures Valid() && sent == 0 && success == 0 && errors == 0
    {
      sent, success, errors := 0, 0, 0;
    }
  }

  /** A worker and its transport, whose proxy stays set across iterations until replaced. */
  class Worker {
    const target: string
    var proxy: Option<string>

    constructor(target: string)
      ensures this.target == target && proxy == None
    {
      this.target := target;
      proxy := None;
    }

    /**
     * One iteration: select a proxy URL and cookie, point the transport at
     * the proxy URL if it is non-empty and parses (otherwise keep the
     * previous proxy), build the request, send it and count it.
     */
    method Step(c: Counters, l: Lists, pick: int, parses: string -> bool, failed: bool) returns (req: HulkRequest)
      requires c.Valid() && ValidPick(l, pick)
      modifies this, c
      ensures c.Valid() && c.sent == old(c.sent) + 1
      ensures failed ==> c.errors == old(c.errors) + 1 && c.success == old(c.success)
      ensures !failed ==> c.success == old(c.success) + 1 && c.errors == old(c.errors)
      ensures var sel := Selection(l, pick);
        && (sel.0 != "" && parses(sel.0) ==> proxy == Some(sel.0))
        && (sel.0 == "" || !parses(sel.0) ==> proxy == old(proxy))
        && ("Cookie" in req.headers <==> sel.1 != "")
        && (sel.1 != "" ==> req.headers["Cookie"] == sel.1)
      ensures req.url == target
      ensures req.headers.Keys == {"User-Agent", "Accept"} + (if Selection(l, pick).1 != "" then {"Cookie"} else {})
      ensures req.headers["User-Agent"] == HulkUserAgent && req.headers["Accept"] == "*/*"
    {
      var sel := Selection(l, pick);
      var proxyUrl, cookie := sel.0, sel.1;
      if proxyUrl != "" {
        if parses(proxyUrl) {
          proxy := Some(proxyUrl);
        }
      }
      var headers := map["User-Agent" := HulkUserAgent, "Accept" := "*/*"];
      if cookie != "" {
        headers := headers["Cookie" := cookie];
      }
      req := HulkRequest(target, headers);
      c.sent := c.sent + 1;
      if failed {
        c.errors := c.errors + 1;
      } else {
        c.success := c.success + 1;
      }
    }
  }
}
