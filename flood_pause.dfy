/**
 * Ai_flood.go's per-proxy pause state machine. A proxy is paused or active;
 * `until` is the PauseUntil deadline, which keeps its last value while the
 * proxy is active. Time is an integer clock in milliseconds.
 */
module FloodPause {
  import opened FloodOutcomes

  /** Milliseconds per second of the integer clock. */
  const Second: int := 1000
  /** The shortest pause, in seconds. */
  const MinBackoff: int := 10
  /** The pause adds rng.Intn(BackoffDraws) seconds to MinBackoff. */
  const BackoffDraws: int := 25

  datatype PauseState = PauseState(paused: bool, until: int)

  /**
   * One request of a burst: the time it completed, what it produced, and the
   * draw rng.Intn(25) that sizes the pause if it pauses the proxy.
   */
  datatype Attempt = Attempt(at: int, outcome: Outcome, backoff: int)

  predicate ValidAttempt(a: Attempt) {
    0 <= a.backoff < BackoffDraws
  }

  predicate ValidAttempts(attempts: seq<Attempt>) {
    forall i :: 0 <= i < |attempts| ==> ValidAttempt(attempts[i])
  }

  /** checkProxyHealth: the probe passes iff it completed without error and with status 200. */
  function ProbePasses(probe: Outcome): (ok: bool)
    ensures ok <==> !IsFailure(probe) && IsSuccess(probe)
  {
    probe.Status? && probe.code == 200
  }

  /**
   * The loop-top check: a paused proxy whose deadline lies strictly before
   * `now` is probed, and leaves the paused state iff the probe passes.
   */
  function AtLoopTop(s: PauseState, now: int, probe: Outcome): (t: PauseState)
    ensures t.until == s.until
    ensures !t.paused <==> !s.paused || (s.until < now && ProbePasses(probe))
  {
    if s.paused && s.until < now && ProbePasses(probe) then s.(paused := false) else s
  }

  /**
   * The pause effect of one burst request: a 200 clears the pause whatever the
   * deadline; a 403 pauses an active proxy until 10 to 34 seconds after it
   * and leaves an already paused proxy, deadline included, as it was; any
   * other outcome changes nothing.
   */
  function AfterAttempt(s: PauseState, a: Attempt): (t: PauseState)
    requires ValidAttempt(a)
    ensures IsSuccess(a.outcome) ==> t == s.(paused := false)
    ensures a.outcome == Status(403) && !s.paused ==>
              t.paused && a.at + MinBackoff * Second <= t.until <= a.at + (MinBackoff + BackoffDraws - 1) * Second
    ensures a.outcome == Status(403) && s.paused ==> t == s
    ensures !IsSuccess(a.outcome) && a.outcome != Status(403) ==> t == s
  {
    if IsSuccess(a.outcome) then s.(paused := false)
    else if a.outcome == Status(403) then
      if s.paused then s else PauseState(true, a.at + (MinBackoff + a.backoff) * Second)
    else s
  }

  /** The pause state after every request of a burst, in order. */
  function AfterBurst(s: PauseState, attempts: seq<Attempt>): PauseState
    requires ValidAttempts(attempts)
  {
    if attempts == [] then s
    else AfterAttempt(AfterBurst(s, attempts[..|attempts| - 1]), attempts[|attempts| - 1])
  }

  /** The pause state after one more request of a burst. */
  lemma AfterBurstSnoc(s: PauseState, attempts: seq<Attempt>, b: nat)
    requires ValidAttempts(attempts) && b < |attempts|
    ensures ValidAttempts(attempts[..b]) && ValidAttempts(attempts[..b + 1])
    ensures AfterBurst(s, attempts[..b + 1]) == AfterAttempt(AfterBurst(s, attempts[..b]), attempts[b])
  {
    assert attempts[..b + 1][..b] == attempts[..b];
  }

  /** Attempt `i` was a 403 and `until` lies in the pause window it opens. */
  predicate PausedBy(attempts: seq<Attempt>, i: int, until: int) {
    && 0 <= i < |attempts|
    && attempts[i].outcome == Status(403)
    && attempts[i].at + MinBackoff * Second <= until <= attempts[i].at + (MinBackoff + BackoffDraws - 1) * Second
  }

  /**
   * Over a whole burst, the deadline only moves because some 403 set it,
   * within that 403's window; a proxy ends paused only if it started paused
   * or some request was a 403; a paused proxy ends active only if some
   * request returned 200.
   */
  lemma {:induction false} BurstTransitions(s: PauseState, attempts: seq<Attempt>)
    requires ValidAttempts(attempts)
    ensures var t := AfterBurst(s, attempts);
      && (t.until != s.until ==> exists i :: PausedBy(attempts, i, t.until))
      && (t.paused ==> s.paused || exists i :: 0 <= i < |attempts| && attempts[i].outcome == Status(403))
      && (s.paused && !t.paused ==> exists i :: 0 <= i < |attempts| && IsSuccess(attempts[i].outcome))
  {
    if attempts != [] {
      var n := |attempts| - 1;
      var init := attempts[..n];
      var m := AfterBurst(s, init);
      var t := AfterBurst(s, attempts);
      BurstTransitions(s, init);
      if t.until != s.until {
        if m.until != s.until && t.until == m.until {
          var i :| PausedBy(init, i, m.until);
          assert PausedBy(attempts, i, t.until);
        } else {
          assert PausedBy(attempts, n, t.until);
        }
      }
      if t.paused && !s.paused && !m.paused {
        assert attempts[n].outcome == Status(403);
      }
      if t.paused && !s.paused && m.paused {
        var i :| 0 <= i < |init| && init[i].outcome == Status(403);
        assert attempts[i] == init[i];
      }
      if s.paused && !t.paused && !m.paused {
        var i :| 0 <= i < |init| && IsSuccess(init[i].outcome);
        assert attempts[i] == init[i];
      }
    }
  }
}
