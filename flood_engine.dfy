/**
 * Ai_flood.go's engine (KRTechSigmaUltra) and proxies: setup from a proxy
 * list, the loop-top pause check, profile rotation, the request burst with
 * its counters and status map, and the proxy-list loader. Each proxy and the
 * engine are objects whose fields the worker updates in place; what the
 * network returned, the clock and every random draw are inputs.
 */
module FloodEngine {
  import opened Wrappers
  import opened Text
  import opened LineFilter
  import opened FloodOutcomes
  import opened FloodPause
  import opened FloodProfile
  import opened FloodRequest

  /** A profile rotation is due when PolymorphCnt is a multiple of RotationFloor + rng.Intn(RotationWindow). */
  const RotationFloor: int := 30
  const RotationWindow: int := 90
  /** PreferServerCipherSuites is set iff its draw is below this. */
  const PreferServerThreshold: real := 0.5
  /** A burst sends 3 + rng.Intn(3) requests. */
  const MinBurst: int := 3
  const MaxBurst: int := 5

  /**
   * The target normalisation of NewKRTechSigmaUltra: a target that does not
   * start with "http" gets "https://" in front.
   */
  function NormalizeTarget(target: string): (t: string)
    ensures HasPrefix(t, "http")
    ensures HasSuffix(t, target)
    ensures t == target <==> HasPrefix(target, "http")
  {
    if HasPrefix(target, "http") then target else "https://" + target
  }

  /** truncateAddr: addresses longer than 18 characters keep their first 18 and get "..". */
  function TruncateAddr(s: string): (r: string)
    ensures |r| <= 20
    ensures |s| <= 18 ==> r == s
    ensures |s| > 18 ==> |r| == 20 && r[..18] == s[..18] && r[18..] == ".."
  {
    if |s| > 18 then s[..18] + ".." else s
  }

  /** loadProxies keeps a trimmed line iff it is non-empty, is not a comment and contains ':'. */
  predicate FloodKeep(l: string) {
    l != "" && !HasPrefix(l, "#") && Contains(l, ":")
  }

  /**
   * loadProxies: an open error is returned as is; otherwise every line is
   * trimmed and the accepted ones are collected in order.
   */
  method LoadProxies(file: Result<seq<string>, string>) returns (r: Result<seq<string>, string>)
    ensures file.Err? ==> r == Err(file.error)
    ensures file.Ok? ==> r == Ok(Kept(file.value, FloodKeep))
  {
    if file.Err? {
      return Err(file.error);
    }
    var lines := file.value;
    var list: seq<string> := [];
    for i := 0 to |lines|
      invariant list == Kept(lines[..i], FloodKeep)
    {
      var l := TrimSpace(lines[i]);
      if l != "" && !HasPrefix(l, "#") && Contains(l, ":") {
        list := list + [l];
      }
      assert lines[..i + 1][..i] == lines[..i];
    }
    assert lines[..|lines|] == lines;
    r := Ok(list);
  }

  /** Every loaded proxy line is trimmed, non-empty, no comment, and has a ':'. */
  lemma LoadedProxiesWellFormed(lines: seq<string>)
    ensures forall x :: x in Kept(lines, FloodKeep) ==>
      x == TrimSpace(x) && x != "" && !HasPrefix(x, "#") && ':' in x
  {
    KeptAreTrimmed(lines, FloodKeep);
    forall x | x in Kept(lines, FloodKeep)
      ensures ':' in x
    {
      ContainsChar(x, ':');
    }
  }

  /** One proxy: its TLS settings, fixed at setup, and the state its worker updates. */
  class Proxy {
    const addr: string
    const cipherSuites: seq<Uint16>
    const curvePreferences: seq<Uint16>
    const nextProtos: seq<string>
    const preferServerCiphers: bool
    var profile: Profile
    var success: int
    var fail: int
    var rps: int
    var polymorphCnt: int
    var ja3Drift: int
    var paused: bool
    var pauseUntil: int
    /** Every burst outcome this proxy has produced, in order. */
    ghost var sent: seq<Outcome>

    /**
     * The counters count the outcomes sent, and a rotation is never due
     * before the RotationFloor-th iteration.
     */
    ghost predicate Valid()
      reads this
    {
      && success == Count(sent, IsSuccess)
      && fail == Count(sent, IsFailure)
      && rps == Count(sent, IsResponse)
      && 0 <= ja3Drift && 0 <= polymorphCnt
      && (ja3Drift == 0 || ja3Drift + RotationFloor - 1 <= polymorphCnt)
    }

    function Pause(): PauseState
      reads this
    {
      PauseState(paused, pauseUntil)
    }

    /**
     * The proxy's half of one burst request: its counters, then its pause
     * state. A response adds to RPS, a 200 to success, a transport error, a
     * 403 or any other status of 400 or more to fail; a 200 clears the pause
     * and a 403 pauses an active proxy for 10 to 34 seconds.
     */
    method Record(a: Attempt)
      requires Valid() && ValidAttempt(a)
      modifies this`success, this`fail, this`rps, this`sent, this`paused, this`pauseUntil
      ensures Valid() && sent == old(sent) + [a.outcome]
      ensures Pause() == AfterAttempt(old(Pause()), a)
    {
      CountResult(a.outcome);
      PauseAfter(a);
    }

    /** The counters of one burst request: RPS, success and fail keep counting the outcomes sent. */
    method CountResult(o: Outcome)
      requires Valid()
      modifies this`success, this`fail, this`rps, this`sent
      ensures Valid() && sent == old(sent) + [o]
    {
      CountersSnoc(sent, o);
      match o {
        case TransportError =>
          fail := fail + 1;
        case Status(code) =>
          rps := rps + 1;
          if code == 200 {
            success := success + 1;
          } else if code == 403 {
            fail := fail + 1;
          } else if code >= 400 {
            fail := fail + 1;
          }
      }
      sent := sent + [o];
    }

    /** The pause effect of one burst request, as AfterAttempt describes it. */
    method PauseAfter(a: Attempt)
      requires ValidAttempt(a)
      modifies this`paused, this`pauseUntil
      ensures Pause() == AfterAttempt(old(Pause()), a)
    {
      match a.outcome {
        case TransportError =>
        case Status(code) =>
          if code == 200 {
            if paused {
              paused := false;
            }
          } else if code == 403 {
            if !paused {
              paused := true;
              pauseUntil := a.at + (MinBackoff + a.backoff) * Second;
            }
          }
      }
    }

    constructor(addr: string, profile: Profile, cipherSuites: seq<Uint16>, curvePreferences: seq<Uint16>,
                preferServerCiphers: bool)
      ensures Valid() && sent == []
      ensures this.addr == addr && this.profile == profile
      ensures this.cipherSuites == cipherSuites && this.curvePreferences == curvePreferences
      ensures this.nextProtos == profile.nextProtos && this.preferServerCiphers == preferServerCiphers
      ensures !paused && polymorphCnt == 0 && ja3Drift == 0
    {
      this.addr := addr;
      this.profile := profile;
      this.cipherSuites := cipherSuites;
      this.curvePreferences := curvePreferences;
      this.nextProtos := profile.nextProtos;
      this.preferServerCiphers := preferServerCiphers;
      success, fail, rps := 0, 0, 0;
      polymorphCnt, ja3Drift := 0, 0;
      paused, pauseUntil := false, 0;
      sent := [];
    }
  }

  /** A positive multiple of m is at least m. */
  lemma PositiveMultiple(n: int, m: int)
    requires 0 < n && 0 < m && n % m == 0
    ensures m <= n
  {
    if n < m {
      assert n % m == n;
    }
  }

  /** The draws that set up one proxy: its profile, the two shuffles, the PreferServerCipherSuites draw. */
  datatype ProxySetup = ProxySetup(profile: ProfileDraws, cipherSwaps: seq<int>, curveSwaps: seq<int>, prefer: real)

  predicate ValidSetup(s: ProxySetup, catalog: seq<Profile>) {
    && ValidProfileDraws(s.profile, |catalog|)
    && ValidSwaps(|catalog[s.profile.pick].cipherSuites|, s.cipherSwaps)
    && ValidSwaps(|catalog[s.profile.pick].curvePreferences|, s.curveSwaps)
  }

  /** The outcomes of a burst, in order. */
  function Outcomes(attempts: seq<Attempt>): (r: seq<Outcome>)
    ensures |r| == |attempts| && forall i :: 0 <= i < |r| ==> r[i] == attempts[i].outcome
  {
    seq(|attempts|, i requires 0 <= i < |attempts| => attempts[i].outcome)
  }

  /** The outcomes of the first b + 1 attempts, appended to `before`. */
  lemma OutcomesSnoc(before: seq<Outcome>, attempts: seq<Attempt>, b: nat)
    requires b < |attempts|
    ensures before + Outcomes(attempts[..b + 1]) == before + Outcomes(attempts[..b]) + [attempts[b].outcome]
  {
    assert Outcomes(attempts[..b + 1]) == Outcomes(attempts[..b]) + [attempts[b].outcome];
  }

  /**
   * What one worker iteration consumes: the clock at the loop top, the
   * health probe's outcome, the rotation window draw, the profile draws, the
   * URL draws, the referer draw and the burst's attempts.
   */
  datatype Iteration = Iteration(
    now: int, probe: Outcome, window: int, profile: ProfileDraws,
    url: UrlDraws, referer: int, attempts: seq<Attempt>)

  predicate ValidIteration(d: Iteration, catalogSize: nat) {
    && 0 <= d.window < RotationWindow
    && ValidProfileDraws(d.profile, catalogSize)
    && ValidUrlDraws(d.url)
    && 0 <= d.referer < 3
    && MinBurst <= |d.attempts| <= MaxBurst
    && ValidAttempts(d.attempts)
  }

  datatype SetupError = TargetUnparsable | NoValidProxies

  /** The engine: the normalised target, the proxies, and the engine-wide counters. */
  class Engine {
    const target: string
    const catalog: seq<Profile>
    const proxies: seq<Proxy>
    var success: int
    var fail: int
    var statusMap: map<int, nat>
    /** Every burst outcome of every proxy, in the order they were counted. */
    ghost var log: seq<Outcome>

    /** The counters and the status map count the outcomes logged; there is at least one proxy. */
    ghost predicate Valid()
      reads this
    {
      && success == Count(log, IsSuccess)
      && fail == Count(log, IsFailure)
      && statusMap == Tally(log)
      && proxies != []
    }

    constructor(target: string, catalog: seq<Profile>, proxies: seq<Proxy>)
      requires proxies != []
      ensures Valid() && log == []
      ensures this.target == target && this.catalog == catalog && this.proxies == proxies
    {
      this.target := target;
      this.catalog := catalog;
      this.proxies := proxies;
      success, fail := 0, 0;
      statusMap := map[];
      log := [];
    }

    /** statusCounter: the entry for `code`, created at zero if it is missing. */
    method StatusCounter(code: int)
      modifies this`statusMap
      ensures statusMap == WithEntry(old(statusMap), code)
    {
      if code !in statusMap {
        statusMap := statusMap[code := 0];
      }
    }

    /** `statusCounter(code).Add(1)`: one more outcome counted under `code`. */
    method AddStatus(code: int)
      modifies this`statusMap
      ensures statusMap == Bump(old(statusMap), code)
    {
      StatusCounter(code);
      statusMap := statusMap[code := statusMap[code] + 1];
    }

    /**
     * The engine's half of one burst request: the outcome is counted in the
     * status map (a transport error under code 0), a 200 in success, and a
     * transport error, a 403 or any other status of 400 or more in fail.
     */
    method CountOutcome(o: Outcome)
      requires Valid()
      modifies this`success, this`fail, this`statusMap, this`log
      ensures Valid() && log == old(log) + [o]
    {
      CountersSnoc(log, o);
      TallySnoc(log, o);
      match o {
        case TransportError =>
          fail := fail + 1;
          AddStatus(TransportErrorCode);
        case Status(code) =>
          AddStatus(code);
          if code == 200 {
            success := success + 1;
          } else if code == 403 {
            fail := fail + 1;
          } else if code >= 400 {
            fail := fail + 1;
          }
      }
      log := log + [o];
    }

    /** One request of a burst: the engine's counting, then the proxy's. */
    method RecordAttempt(p: Proxy, a: Attempt)
      requires Valid() && p.Valid() && ValidAttempt(a)
      modifies this`success, this`fail, this`statusMap, this`log, p`success, p`fail, p`rps, p`sent, p`paused, p`pauseUntil
      ensures Valid() && p.Valid()
      ensures log == old(log) + [a.outcome] && p.sent == old(p.sent) + [a.outcome]
      ensures p.Pause() == AfterAttempt(old(p.Pause()), a)
    {
      CountOutcome(a.outcome);
      p.Record(a);
    }

    /**
     * The burst: every request is sent and counted, even after one of them
     * has paused the proxy. The engine's success and fail counters grow by the
     * burst's successes and failures.
     */
    method Burst(p: Proxy, attempts: seq<Attempt>)
      requires Valid() && p.Valid() && ValidAttempts(attempts)
      requires MinBurst <= |attempts| <= MaxBurst
      modifies this`success, this`fail, this`statusMap, this`log, p`success, p`fail, p`rps, p`sent, p`paused, p`pauseUntil
      ensures Valid() && p.Valid()
      ensures log == old(log) + Outcomes(attempts) && p.sent == old(p.sent) + Outcomes(attempts)
      ensures success == old(success) + Count(Outcomes(attempts), IsSuccess)
      ensures fail == old(fail) + Count(Outcomes(attempts), IsFailure)
      ensures p.Pause() == AfterBurst(old(p.Pause()), attempts)
    {
      ghost var log0, sent0, pause0 := log, p.sent, p.Pause();
      for b := 0 to |attempts|
        invariant Valid() && p.Valid()
        invariant log == log0 + Outcomes(attempts[..b])
        invariant p.sent == sent0 + Outcomes(attempts[..b])
        invariant p.Pause() == AfterBurst(pause0, attempts[..b])
      {
        OutcomesSnoc(log0, attempts, b);
        OutcomesSnoc(sent0, attempts, b);
        AfterBurstSnoc(pause0, attempts, b);
        RecordAttempt(p, attempts[b]);
      }
      assert attempts[..|attempts|] == attempts;
      CountAppend(old(log), Outcomes(attempts), IsSuccess);
      CountAppend(old(log), Outcomes(attempts), IsFailure);
    }

    /**
     * The loop-top check: a paused proxy past its deadline is probed and
     * resumes iff the probe passes; the worker goes on iff the proxy is then
     * active. The probe is not counted anywhere.
     */
    method LoopTop(p: Proxy, now: int, probe: Outcome) returns (proceed: bool)
      requires p.Valid()
      modifies p`paused
      ensures p.Valid()
      ensures p.Pause() == AtLoopTop(old(p.Pause()), now, probe)
      ensures proceed <==> !p.paused
    {
      if p.paused && p.pauseUntil < now {
        if ProbePasses(probe) {
          p.paused := false;
        }
      }
      proceed := !p.paused;
    }

    /**
     * Profile rotation: PolymorphCnt goes up by one; when it is a multiple of
     * RotationFloor + the window draw, the proxy gets a fresh profile from
     * the catalog and JA3Drift goes up by one. The TLS settings stay those
     * of setup.
     */
    method Rotate(p: Proxy, window: int, d: ProfileDraws) returns (rotated: bool)
      requires p.Valid() && 0 <= window < RotationWindow && ValidProfileDraws(d, |catalog|)
      modifies p`polymorphCnt, p`profile, p`ja3Drift
      ensures p.Valid()
      ensures p.polymorphCnt == old(p.polymorphCnt) + 1
      ensures rotated <==> p.polymorphCnt % (RotationFloor + window) == 0
      ensures rotated ==> p.ja3Drift == old(p.ja3Drift) + 1 && Generated(p.profile, catalog, d)
      ensures !rotated ==> p.ja3Drift == old(p.ja3Drift) && p.profile == old(p.profile)
    {
      var cnt := p.polymorphCnt + 1;
      rotated := cnt % (RotationFloor + window) == 0;
      p.polymorphCnt := cnt;
      if rotated {
        PositiveMultiple(cnt, RotationFloor + window);
        var prof := GenerateProfile(catalog, d);
        p.profile, p.ja3Drift := prof, p.ja3Drift + 1;
      }
    }

    /**
     * One iteration of proxyWorker: the loop-top check; if the proxy is
     * active, rotation, the URL, the headers from the current profile and the
     * burst. A paused proxy sends nothing and changes nothing else.
     */
    method Iterate(p: Proxy, host: string, d: Iteration) returns (req: Option<Request>)
      requires Valid() && p.Valid() && p in proxies && ValidIteration(d, |catalog|)
      modifies this`success, this`fail, this`statusMap, this`log
      modifies p`success, p`fail, p`rps, p`sent, p`paused, p`pauseUntil, p`polymorphCnt, p`profile, p`ja3Drift
      ensures Valid() && p.Valid()
      ensures req.None? <==> AtLoopTop(old(p.Pause()), d.now, d.probe).paused
      ensures req.None? ==> log == old(log) && p.sent == old(p.sent) && p.profile == old(p.profile)
                            && p.polymorphCnt == old(p.polymorphCnt) && p.ja3Drift == old(p.ja3Drift)
                            && p.Pause() == old(p.Pause())
      ensures req.Some? ==> && p.polymorphCnt == old(p.polymorphCnt) + 1
                            && log == old(log) + Outcomes(d.attempts)
                            && p.sent == old(p.sent) + Outcomes(d.attempts)
                            && p.Pause() == AfterBurst(AtLoopTop(old(p.Pause()), d.now, d.probe), d.attempts)
      ensures req.Some? && p.polymorphCnt % (RotationFloor + d.window) == 0 ==>
                p.ja3Drift == old(p.ja3Drift) + 1 && Generated(p.profile, catalog, d.profile)
      ensures req.Some? && p.polymorphCnt % (RotationFloor + d.window) != 0 ==>
                p.ja3Drift == old(p.ja3Drift) && p.profile == old(p.profile)
      ensures req.Some? ==> forall k :: k in req.value.headers <==> k in HeaderOrder || k in UpgradeNames(p.profile.upgradeHeaders)
      ensures req.Some? ==>
                req.value.headers == Upgraded(Ordered(HeaderMap(p.profile, host, Referers(target)[d.referer])), p.profile.upgradeHeaders)
      ensures req.Some? && !d.url.addQuery ==> req.value.url == target
      ensures req.Some? && d.url.addQuery ==>
                req.value.url == target + [QuerySeparator(target)] + Params[d.url.param] + "=" + Decimal(d.url.value) + Fragment(d.url)
    {
      var proceed := LoopTop(p, d.now, d.probe);
      if !proceed {
        return None;
      }
      var r := ActiveIteration(p, host, d);
      req := Some(r);
    }

    /**
     * The rest of an iteration of an active proxy: rotation, the URL, the
     * headers from the (possibly rotated) profile and the burst.
     */
    method ActiveIteration(p: Proxy, host: string, d: Iteration) returns (r: Request)
      requires Valid() && p.Valid() && ValidIteration(d, |catalog|)
      modifies this`success, this`fail, this`statusMap, this`log
      modifies p`success, p`fail, p`rps, p`sent, p`paused, p`pauseUntil, p`polymorphCnt, p`profile, p`ja3Drift
      ensures Valid() && p.Valid()
      ensures p.polymorphCnt == old(p.polymorphCnt) + 1
      ensures log == old(log) + Outcomes(d.attempts) && p.sent == old(p.sent) + Outcomes(d.attempts)
      ensures p.Pause() == AfterBurst(old(p.Pause()), d.attempts)
      ensures p.polymorphCnt % (RotationFloor + d.window) == 0 ==>
                p.ja3Drift == old(p.ja3Drift) + 1 && Generated(p.profile, catalog, d.profile)
      ensures p.polymorphCnt % (RotationFloor + d.window) != 0 ==>
                p.ja3Drift == old(p.ja3Drift) && p.profile == old(p.profile)
      ensures forall k :: k in r.headers <==> k in HeaderOrder || k in UpgradeNames(p.profile.upgradeHeaders)
      ensures r.headers == Upgraded(Ordered(HeaderMap(p.profile, host, Referers(target)[d.referer])), p.profile.upgradeHeaders)
      ensures !d.url.addQuery ==> r.url == target
      ensures d.url.addQuery ==>
                r.url == target + [QuerySeparator(target)] + Params[d.url.param] + "=" + Decimal(d.url.value) + Fragment(d.url)
    {
      var _ := Rotate(p, d.window, d.profile);
      var prof := p.profile;
      r := BuildRequest(target, d.url, prof, host, Referers(target)[d.referer]);
      Burst(p, d.attempts);
      assert p.profile == prof;
    }
  }

  /**
   * NewKRTechSigmaUltra: normalise the target; if it parses, set up one
   * proxy per address, each with a fresh profile, shuffled copies of that
   * profile's cipher suites and curves, and its ALPN list; with no address
   * there is no engine.
   */
  method NewEngine(target: string, targetParses: bool, catalog: seq<Profile>, addrs: seq<string>,
                   setup: seq<ProxySetup>) returns (r: Result<Engine, SetupError>)
    requires |setup| == |addrs| && forall i :: 0 <= i < |setup| ==> ValidSetup(setup[i], catalog)
    ensures !targetParses ==> r == Err(TargetUnparsable)
    ensures targetParses ==> (r.Err? <==> addrs == []) && (r.Err? ==> r.error == NoValidProxies)
    ensures r.Ok? ==> && fresh(r.value) && r.value.Valid() && r.value.log == []
                      && r.value.target == NormalizeTarget(target) && r.value.catalog == catalog
                      && |r.value.proxies| == |addrs|
    ensures r.Ok? ==> forall i :: 0 <= i < |addrs| ==> fresh(r.value.proxies[i])
    ensures r.Ok? ==> forall i, j :: 0 <= i < j < |addrs| ==> r.value.proxies[i] != r.value.proxies[j]
    ensures r.Ok? ==> forall i :: 0 <= i < |addrs| ==> ProxySetUp(r.value.proxies[i], addrs[i], setup[i], catalog)
  {
    if !targetParses {
      return Err(TargetUnparsable);
    }
    var proxies := SetUpProxies(catalog, addrs, setup);
    if |proxies| == 0 {
      return Err(NoValidProxies);
    }
    var e := new Engine(NormalizeTarget(target), catalog, proxies);
    r := Ok(e);
  }

  /** No element occurs twice. */
  predicate Distinct<T(==)>(s: seq<T>) {
    forall i, j :: 0 <= i < j < |s| ==> s[i] != s[j]
  }

  lemma DistinctSnoc<T>(s: seq<T>, x: T)
    requires Distinct(s) && x !in s
    ensures Distinct(s + [x])
  {
  }

  /** The setup loop: one freshly set-up proxy per address, in order. */
  method SetUpProxies(catalog: seq<Profile>, addrs: seq<string>, setup: seq<ProxySetup>) returns (proxies: seq<Proxy>)
    requires |setup| == |addrs| && forall i :: 0 <= i < |setup| ==> ValidSetup(setup[i], catalog)
    ensures |proxies| == |addrs|
    ensures forall i :: 0 <= i < |addrs| ==> fresh(proxies[i])
    ensures forall i :: 0 <= i < |addrs| ==> ProxySetUp(proxies[i], addrs[i], setup[i], catalog)
    ensures Distinct(proxies)
  {
    proxies := [];
    for i := 0 to |addrs|
      invariant |proxies| == i
      invariant forall j :: 0 <= j < i ==> fresh(proxies[j])
      invariant forall j :: 0 <= j < i ==> ProxySetUp(proxies[j], addrs[j], setup[j], catalog)
      invariant Distinct(proxies)
    {
      var p := SetUpProxy(addrs[i], setup[i], catalog);
      DistinctSnoc(proxies, p);
      proxies := proxies + [p];
    }
  }

  /**
   * One proxy of the setup loop: a generated profile, shuffled copies of its
   * cipher suites and curves, its ALPN list and the server-preference draw.
   */
  method SetUpProxy(addr: string, d: ProxySetup, catalog: seq<Profile>) returns (p: Proxy)
    requires ValidSetup(d, catalog)
    ensures fresh(p) && ProxySetUp(p, addr, d, catalog)
  {
    var profile := GenerateProfile(catalog, d.profile);
    var ciphers := ShuffleCopy(profile.cipherSuites, d.cipherSwaps);
    var curves := ShuffleCopy(profile.curvePreferences, d.curveSwaps);
    p := new Proxy(addr, profile, ciphers[..], curves[..], d.prefer < PreferServerThreshold);
  }

  /**
   * A freshly set-up proxy: its address, the profile generated from its
   * draws, TLS lists that are permutations of the profile's, the ALPN list,
   * server cipher preference iff its draw is below one half, and a clean
   * state.
   */
  ghost predicate ProxySetUp(p: Proxy, addr: string, s: ProxySetup, catalog: seq<Profile>)
    reads p
  {
    && p.Valid() && p.sent == [] && !p.paused && p.polymorphCnt == 0 && p.ja3Drift == 0
    && p.addr == addr && Generated(p.profile, catalog, s.profile)
    && p.preferServerCiphers == (s.prefer < PreferServerThreshold)
    && multiset(p.cipherSuites) == multiset(p.profile.cipherSuites)
    && multiset(p.curvePreferences) == multiset(p.profile.curvePreferences)
    && p.nextProtos == p.profile.nextProtos
  }
}
