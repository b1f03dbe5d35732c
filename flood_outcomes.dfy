/**
 * Ai_flood.go's classification of burst outcomes and the counters it keeps:
 * the engine-wide success, fail and per-status-code map, and the per-proxy
 * success, fail and RPS counters.
 */
module FloodOutcomes {

  /** What one request produced: no response at all (the client returned an error), or a status code. */
  datatype Outcome = TransportError | Status(code: int)

  /** The reserved status-map key of a transport error. */
  const TransportErrorCode: int := 0

  /** The status-map key an outcome is counted under. */
  function Key(o: Outcome): int {
    if o.TransportError? then TransportErrorCode else o.code
  }

  /** Counted as a success: status 200. */
  predicate IsSuccess(o: Outcome) {
    o.Status? && o.code == 200
  }

  /** Counted as a failure: a transport error or a status of 400 or more. */
  predicate IsFailure(o: Outcome) {
    o.TransportError? || o.code >= 400
  }

  /** Counted only in the status map: any other status below 400. */
  predicate IsNeutral(o: Outcome) {
    o.Status? && o.code < 400 && o.code != 200
  }

  /** Counted in the per-proxy RPS counter: a response arrived. */
  predicate IsResponse(o: Outcome) {
    o.Status?
  }

  /** The number of entries of `log` that satisfy `p`. */
  function Count(log: seq<Outcome>, p: Outcome -> bool): (n: nat)
    ensures n <= |log|
  {
    if log == [] then 0
    else Count(log[..|log| - 1], p) + (if p(log[|log| - 1]) then 1 else 0)
  }

  lemma CountSnoc(log: seq<Outcome>, o: Outcome, p: Outcome -> bool)
    ensures Count(log + [o], p) == Count(log, p) + (if p(o) then 1 else 0)
  {
    assert (log + [o])[..|log|] == log;
  }

  /** One more outcome, counted in the success, failure and response counters. */
  lemma CountersSnoc(log: seq<Outcome>, o: Outcome)
    ensures Count(log + [o], IsSuccess) == Count(log, IsSuccess) + (if o == Status(200) then 1 else 0)
    ensures Count(log + [o], IsFailure) == Count(log, IsFailure) + (if o.TransportError? || o.code >= 400 then 1 else 0)
    ensures Count(log + [o], IsResponse) == Count(log, IsResponse) + (if o.Status? then 1 else 0)
  {
    CountSnoc(log, o, IsSuccess);
    CountSnoc(log, o, IsFailure);
    CountSnoc(log, o, IsResponse);
  }

  /** Counting distributes over concatenation of logs. */
  lemma {:induction false} CountAppend(a: seq<Outcome>, b: seq<Outcome>, p: Outcome -> bool)
    ensures Count(a + b, p) == Count(a, p) + Count(b, p)
  {
    if b != [] {
      var n := |b| - 1;
      CountAppend(a, b[..n], p);
      assert a + b == (a + b[..n]) + [b[n]];
      assert b == b[..n] + [b[n]];
      CountSnoc(a + b[..n], b[n], p);
      CountSnoc(b[..n], b[n], p);
    } else {
      assert a + b == a;
    }
  }

  /** Every outcome is exactly one of success, failure, neutral, so the three counts add up to the log length. */
  lemma {:induction false} CountPartition(log: seq<Outcome>)
    ensures Count(log, IsSuccess) + Count(log, IsFailure) + Count(log, IsNeutral) == |log|
  {
    if log != [] {
      CountPartition(log[..|log| - 1]);
    }
  }

  /** The responses are the successes, the neutral ones, and the failures that carried a status. */
  lemma {:induction false} CountResponses(log: seq<Outcome>)
    ensures Count(log, IsResponse) + Count(log, (o: Outcome) => o.TransportError?)
         == Count(log, IsSuccess) + Count(log, IsFailure) + Count(log, IsNeutral)
  {
    if log != [] {
      CountResponses(log[..|log| - 1]);
    }
  }

  /**
   * statusCounter's lookup-or-create: a zero entry is added for a code not
   * yet in the map; every existing entry is left as it was.
   */
  function WithEntry(m: map<int, nat>, code: int): (r: map<int, nat>)
    ensures r.Keys == m.Keys + {code}
    ensures forall c :: c in m ==> r[c] == m[c]
    ensures code !in m ==> r[code] == 0
  {
    if code in m then m else m[code := 0]
  }

  /** `statusCounter(code).Add(1)`: create the entry if needed, then add one to it. */
  function Bump(m: map<int, nat>, code: int): map<int, nat> {
    var e := WithEntry(m, code);
    e[code := e[code] + 1]
  }

  /** The status map after counting every outcome of `log`, from an empty map. */
  function Tally(log: seq<Outcome>): map<int, nat> {
    if log == [] then map[] else Bump(Tally(log[..|log| - 1]), Key(log[|log| - 1]))
  }

  lemma TallySnoc(log: seq<Outcome>, o: Outcome)
    ensures Tally(log + [o]) == Bump(Tally(log), Key(o))
  {
    assert (log + [o])[..|log|] == log;
  }

  /** The number of outcomes of `log` counted under `code`. */
  function CountKey(log: seq<Outcome>, code: int): (n: nat)
    ensures n <= |log|
  {
    if log == [] then 0
    else CountKey(log[..|log| - 1], code) + (if Key(log[|log| - 1]) == code then 1 else 0)
  }

  /**
   * The status map holds an entry exactly for the codes that occurred, and
   * each entry is the number of outcomes counted under that code.
   */
  lemma {:induction false} TallyCounts(log: seq<Outcome>, code: int)
    ensures code in Tally(log) <==> CountKey(log, code) > 0
    ensures code in Tally(log) ==> Tally(log)[code] == CountKey(log, code)
  {
    if log != [] {
      TallyCounts(log[..|log| - 1], code);
    }
  }

  /** The sum of the values of a map. */
  ghost function MapSum(m: map<int, nat>): nat
    decreases m.Keys
  {
    if m.Keys == {} then 0
    else
      NonEmptyHasKey(m.Keys);
      var k :| k in m.Keys;
      m[k] + MapSum(m - {k})
  }

  lemma NonEmptyHasKey(keys: set<int>)
    requires keys != {}
    ensures exists k :: k in keys
  {
    if forall k :: k !in keys {
      assert false;
    }
  }

  /** The sum can be taken by removing any key first. */
  lemma {:induction false} MapSumRemove(m: map<int, nat>, k: int)
    requires k in m
    ensures MapSum(m) == m[k] + MapSum(m - {k})
    decreases m.Keys
  {
    assert exists j :: j in m.Keys && MapSum(m) == m[j] + MapSum(m - {j});
    var j :| j in m.Keys && MapSum(m) == m[j] + MapSum(m - {j});
    if j != k {
      MapSumRemove(m - {j}, k);
      assert (m - {j}) - {k} == (m - {k}) - {j};
      MapSumRemove(m - {k}, j);
    }
  }

  /** Counting one outcome raises the sum of the status map by exactly one. */
  lemma MapSumBump(m: map<int, nat>, code: int)
    ensures MapSum(Bump(m, code)) == MapSum(m) + 1
  {
    var b := Bump(m, code);
    MapSumRemove(b, code);
    if code in m {
      MapSumRemove(m, code);
      assert b - {code} == m - {code};
    } else {
      assert b - {code} == m;
    }
  }

  /** The status map's sum is the number of outcomes counted. */
  lemma {:induction false} TallyTotal(log: seq<Outcome>)
    ensures MapSum(Tally(log)) == |log|
  {
    if log != [] {
      TallyTotal(log[..|log| - 1]);
      MapSumBump(Tally(log[..|log| - 1]), Key(log[|log| - 1]));
    }
  }

  /**
   * The sum over the status map equals success + fail + the responses below
   * 400 other than 200, which no other counter records.
   */
  lemma StatusMapBalance(log: seq<Outcome>)
    ensures MapSum(Tally(log)) == Count(log, IsSuccess) + Count(log, IsFailure) + Count(log, IsNeutral)
  {
    TallyTotal(log);
    CountPartition(log);
  }
}
