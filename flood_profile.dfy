/**
 * Ai_flood.go's identity profiles: the profile record, derivation of a fresh
 * profile from a base catalog entry (generatePolymorphicProfile), and the
 * shuffled copies of the cipher-suite and curve lists (shuffleUint16,
 * shuffleCurveID). The random draws and the chaos value `mut` are inputs.
 */
module FloodProfile {
  import opened Text

  /** Go's uint16, the type of TLS cipher-suite and curve identifiers. */
  newtype Uint16 = x: int | 0 <= x < 0x1_0000

  /** The Profile struct. Go slices and maps become values, so no two profiles can share one. */
  datatype Profile = Profile(
    userAgent: string,
    secChUa: string,
    secChUaFull: string,
    secChUaMobile: string,
    secChUaPlatform: string,
    accept: string,
    encoding: string,
    language: string,
    connection: string,
    cacheControl: string,
    upgradeHeaders: seq<string>,
    xForwardedFor: string,
    te: string,
    priority: string,
    secGpc: string,
    customHeaders: map<string, string>,
    cipherSuites: seq<Uint16>,
    curvePreferences: seq<Uint16>,
    nextProtos: seq<string>,
    signature: string)

  /** A dotted-quad token of the forwarded chain: four rng.Intn(256) draws. */
  datatype Quad = Quad(a: int, b: int, c: int, d: int)

  predicate ValidQuad(q: Quad) {
    0 <= q.a < 256 && 0 <= q.b < 256 && 0 <= q.c < 256 && 0 <= q.d < 256
  }

  /** The user agent gets an Edg suffix iff `mut` is below this. */
  const EdgeThreshold: real := 0.3
  /** The profile gets a forwarded chain iff `mut` is below this. */
  const ForwardedThreshold: real := 0.25
  /** The forwarded-chain loop runs while i < 2 + rng.Intn(ChainDraws), drawn at each test. */
  const ChainDraws: int := 4

  /**
   * The draws generatePolymorphicProfile consumes: `mut` (the advanced chaos
   * value), the catalog index, the three Edg version draws (Intn(20),
   * Intn(1000), Intn(100)), the loop-bound draw of each test of the chain loop,
   * and the dotted quads the chain loop appends.
   */
  datatype ProfileDraws = ProfileDraws(
    mut: real,
    pick: int,
    edgeMajor: int,
    edgeBuild: int,
    edgePatch: int,
    bounds: seq<int>,
    quads: seq<Quad>)

  /** The chain loop tests its bound at most six times, each time with a draw in 0..3. */
  predicate ValidBounds(bounds: seq<int>) {
    |bounds| >= 6 && forall j :: 0 <= j < |bounds| ==> 0 <= bounds[j] < ChainDraws
  }

  predicate ValidProfileDraws(d: ProfileDraws, catalogSize: nat) {
    && 0 <= d.pick < catalogSize
    && 0 <= d.edgeMajor < 20 && 0 <= d.edgeBuild < 1000 && 0 <= d.edgePatch < 100
    && ValidBounds(d.bounds)
    && |d.quads| >= 5 && (forall j :: 0 <= j < |d.quads| ==> ValidQuad(d.quads[j]))
  }

  /** The " Edg/A.0.B.C" suffix, with A = 130 + the first draw. */
  function EdgeSuffix(major: int, build: nat, patch: nat): string
    requires 0 <= major
  {
    " Edg/" + Decimal(130 + major) + ".0." + Decimal(build) + "." + Decimal(patch)
  }

  function QuadText(q: Quad): string
    requires ValidQuad(q)
  {
    Decimal(q.a) + "." + Decimal(q.b) + "." + Decimal(q.c) + "." + Decimal(q.d)
  }

  function QuadTexts(qs: seq<Quad>): (r: seq<string>)
    requires forall j :: 0 <= j < |qs| ==> ValidQuad(qs[j])
    ensures |r| == |qs|
  {
    seq(|qs|, j requires 0 <= j < |qs| => QuadText(qs[j]))
  }

  /** The number of chain-loop rounds when the loop is tested from round `i` on. */
  function ChainFrom(bounds: seq<int>, i: nat): (n: nat)
    requires ValidBounds(bounds) && i <= 5
    ensures i <= n <= 5
    ensures forall j :: i <= j < n ==> j < 2 + bounds[j]
    ensures n >= 2 + bounds[n]
    decreases 5 - i
  {
    if i < 2 + bounds[i] then ChainFrom(bounds, i + 1) else i
  }

  /**
   * The number of tokens in the forwarded chain: the first round whose test
   * fails. The first two tests cannot fail and the sixth cannot pass, so it
   * lies in 2..5.
   */
  function ChainLength(bounds: seq<int>): (n: nat)
    requires ValidBounds(bounds)
    ensures 2 <= n <= 5
    ensures forall j :: 0 <= j < n ==> j < 2 + bounds[j]
    ensures n >= 2 + bounds[n]
  {
    ChainFrom(bounds, 0)
  }

  /** The first failing test is unique: a round that fails after rounds that all passed is ChainFrom's answer. */
  lemma {:induction false} ChainFromFirstFailure(bounds: seq<int>, i: nat, n: nat)
    requires ValidBounds(bounds) && i <= n <= 5
    requires forall j :: i <= j < n ==> j < 2 + bounds[j]
    requires n >= 2 + bounds[n]
    ensures ChainFrom(bounds, i) == n
    decreases n - i
  {
    if i < n {
      ChainFromFirstFailure(bounds, i + 1, n);
    }
  }

  /**
   * The forwarded-chain loop of generatePolymorphicProfile: append each token
   * followed by ", " while the freshly drawn bound allows, then trim the
   * trailing separator. The result is the 2 to 5 tokens joined by ", ".
   */
  method ForwardedChain(bounds: seq<int>, quads: seq<Quad>) returns (xff: string)
    requires ValidBounds(bounds)
    requires |quads| >= 5 && forall j :: 0 <= j < |quads| ==> ValidQuad(quads[j])
    ensures xff == JoinBy(QuadTexts(quads[..ChainLength(bounds)]), ", ")
    ensures xff != "" && !HasSuffix(xff, ", ")
  {
    var chain := "";
    var i := 0;
    while i < 2 + bounds[i]
      invariant 0 <= i <= 5
      invariant forall j :: 0 <= j < i ==> j < 2 + bounds[j]
      invariant chain == ChainPrefix(quads, i)
      decreases 5 - i
    {
      chain := chain + QuadText(quads[i]) + ", ";
      i := i + 1;
    }
    xff := TrimSuffix(chain, ", ");
    ChainFinished(bounds, quads, i, chain, xff);
  }

  /** The text the chain loop has built after `i` rounds: each token followed by ", ". */
  function ChainPrefix(quads: seq<Quad>, i: nat): string
    requires i <= |quads| && forall j :: 0 <= j < |quads| ==> ValidQuad(quads[j])
  {
    if i == 0 then "" else ChainPrefix(quads, i - 1) + QuadText(quads[i - 1]) + ", "
  }

  lemma {:induction false} ChainPrefixTerminated(quads: seq<Quad>, i: nat)
    requires i <= |quads| && forall j :: 0 <= j < |quads| ==> ValidQuad(quads[j])
    ensures ChainPrefix(quads, i) == Terminated(QuadTexts(quads[..i]), ", ")
  {
    if i > 0 {
      ChainPrefixTerminated(quads, i - 1);
      TerminatedQuadsSnoc(quads, i - 1);
    }
  }

  /** Once the loop's test fails, trimming the separator-terminated chain gives the joined chain. */
  lemma ChainFinished(bounds: seq<int>, quads: seq<Quad>, i: nat, chain: string, x: string)
    requires ValidBounds(bounds) && i <= 5
    requires |quads| >= 5 && forall j :: 0 <= j < |quads| ==> ValidQuad(quads[j])
    requires forall j :: 0 <= j < i ==> j < 2 + bounds[j]
    requires i >= 2 + bounds[i]
    requires chain == ChainPrefix(quads, i) && x == TrimSuffix(chain, ", ")
    ensures x == JoinBy(QuadTexts(quads[..ChainLength(bounds)]), ", ")
    ensures x != "" && !HasSuffix(x, ", ")
  {
    ChainPrefixTerminated(quads, i);
    ChainFromFirstFailure(bounds, 0, i);
    TrimSuffixTerminated(QuadTexts(quads[..i]), ", ");
    ChainEndsInDigit(quads[..i]);
  }

  lemma TerminatedQuadsSnoc(quads: seq<Quad>, i: nat)
    requires i < |quads| && forall j :: 0 <= j < |quads| ==> ValidQuad(quads[j])
    ensures Terminated(QuadTexts(quads[..i + 1]), ", ") == Terminated(QuadTexts(quads[..i]), ", ") + QuadText(quads[i]) + ", "
  {
    assert QuadTexts(quads[..i + 1])[..i] == QuadTexts(quads[..i]);
  }

  /** A dotted quad ends with a digit. */
  lemma QuadTextEndsInDigit(q: Quad)
    requires ValidQuad(q)
    ensures var t := QuadText(q); t != [] && IsDigit(t[|t| - 1])
  {
    var t := QuadText(q);
    var last := Decimal(q.d);
    assert t[|t| - 1] == last[|last| - 1];
  }

  /** A joined list of dotted quads ends with a digit, so it is neither empty nor ends in a separator. */
  lemma ChainEndsInDigit(quads: seq<Quad>)
    requires quads != [] && forall j :: 0 <= j < |quads| ==> ValidQuad(quads[j])
    ensures var x := JoinBy(QuadTexts(quads), ", "); x != [] && IsDigit(x[|x| - 1]) && !HasSuffix(x, ", ")
  {
    var texts := QuadTexts(quads);
    var last := texts[|texts| - 1];
    JoinByEndsWithLast(texts, ", ");
    QuadTextEndsInDigit(quads[|quads| - 1]);
    var x := JoinBy(texts, ", ");
    assert x[|x| - 1] == last[|last| - 1];
  }

  /** Every field the generator copies from the base entry, copied unchanged. */
  predicate CopiesBase(prof: Profile, base: Profile) {
    && prof.secChUa == base.secChUa
    && prof.secChUaFull == base.secChUaFull
    && prof.secChUaMobile == base.secChUaMobile
    && prof.secChUaPlatform == base.secChUaPlatform
    && prof.accept == base.accept
    && prof.encoding == base.encoding
    && prof.language == base.language
    && prof.connection == base.connection
    && prof.cacheControl == base.cacheControl
    && prof.upgradeHeaders == base.upgradeHeaders
    && prof.cipherSuites == base.cipherSuites
    && prof.curvePreferences == base.curvePreferences
    && prof.nextProtos == base.nextProtos
  }

  /**
   * What generatePolymorphicProfile makes of the draws `d`: a copy of the
   * picked base entry with the fields it does not copy left empty, an Edg
   * suffix on the user agent iff mut < 0.3 and a forwarded chain of 2 to 5
   * dotted quads iff mut < 0.25.
   */
  predicate Generated(prof: Profile, catalog: seq<Profile>, d: ProfileDraws) {
    && ValidProfileDraws(d, |catalog|)
    && CopiesBase(prof, catalog[d.pick])
    && prof.customHeaders == map[] && prof.te == "" && prof.priority == ""
    && prof.secGpc == "" && prof.signature == ""
    && (d.mut < EdgeThreshold ==>
          prof.userAgent == catalog[d.pick].userAgent + EdgeSuffix(d.edgeMajor, d.edgeBuild, d.edgePatch))
    && (d.mut >= EdgeThreshold ==> prof.userAgent == catalog[d.pick].userAgent)
    && (prof.xForwardedFor != "" <==> d.mut < ForwardedThreshold)
    && (d.mut < ForwardedThreshold ==>
          prof.xForwardedFor == JoinBy(QuadTexts(d.quads[..ChainLength(d.bounds)]), ", "))
  }

  /** generatePolymorphicProfile. */
  method GenerateProfile(catalog: seq<Profile>, d: ProfileDraws) returns (prof: Profile)
    requires ValidProfileDraws(d, |catalog|)
    ensures Generated(prof, catalog, d)
  {
    var base := catalog[d.pick];
    prof := Profile(
      base.userAgent, base.secChUa, base.secChUaFull, base.secChUaMobile, base.secChUaPlatform,
      base.accept, base.encoding, base.language, base.connection, base.cacheControl,
      base.upgradeHeaders, "", "", "", "", map[],
      base.cipherSuites, base.curvePreferences, base.nextProtos, "");
    if d.mut < EdgeThreshold {
      prof := prof.(userAgent := prof.userAgent + EdgeSuffix(d.edgeMajor, d.edgeBuild, d.edgePatch));
    }
    if d.mut < ForwardedThreshold {
      var xff := ForwardedChain(d.bounds, d.quads);
      prof := prof.(xForwardedFor := xff);
    }
  }

  /** Exchanges two positions of a sequence. */
  function Swap<T>(s: seq<T>, i: nat, j: nat): (r: seq<T>)
    requires i < |s| && j < |s|
    ensures |r| == |s|
  {
    s[i := s[j]][j := s[i]]
  }

  /**
   * The draws of rand.Shuffle on n elements: for i from n-1 down to 1 one
   * draw in 0..i, so draw t pairs position n-1-t with a position at most n-1-t.
   */
  predicate ValidSwaps(n: nat, swaps: seq<int>) {
    && |swaps| == (if n == 0 then 0 else n - 1)
    && forall t :: 0 <= t < |swaps| ==> 0 <= swaps[t] <= n - 1 - t
  }

  /** The sequence after the first `k` swaps of rand.Shuffle. */
  function Shuffled<T>(s: seq<T>, swaps: seq<int>, k: nat): (r: seq<T>)
    requires ValidSwaps(|s|, swaps) && k <= |swaps|
    ensures |r| == |s|
  {
    if k == 0 then s else Swap(Shuffled(s, swaps, k - 1), |s| - k, swaps[k - 1])
  }

  lemma SwapPermutes<T>(p: seq<T>, i: nat, j: nat)
    requires i < |p| && j < |p|
    ensures multiset(Swap(p, i, j)) == multiset(p)
  {
    var q := p[i := p[j]];
    assert multiset(q) == multiset(p) - multiset{p[i]} + multiset{p[j]};
    assert multiset(q[j := p[i]]) == multiset(q) - multiset{q[j]} + multiset{p[i]};
  }

  /** A shuffle only reorders: the result holds the same elements, as often as the input. */
  lemma {:induction false} ShuffledPermutes<T>(s: seq<T>, swaps: seq<int>, k: nat)
    requires ValidSwaps(|s|, swaps) && k <= |swaps|
    ensures multiset(Shuffled(s, swaps, k)) == multiset(s)
  {
    if k > 0 {
      var p := Shuffled(s, swaps, k - 1);
      var i, j := |s| - k, swaps[k - 1];
      assert Shuffled(s, swaps, k) == Swap(p, i, j);
      ShuffledPermutes(s, swaps, k - 1);
      SwapPermutes(p, i, j);
    }
  }

  /**
   * shuffleUint16 / shuffleCurveID: copy the input into a fresh array and
   * shuffle the copy in place; the input is a value and cannot change. The
   * result is a permutation of the input.
   */
  method ShuffleCopy<T>(s: seq<T>, swaps: seq<int>) returns (c: array<T>)
    requires ValidSwaps(|s|, swaps)
    ensures fresh(c)
    ensures c[..] == Shuffled(s, swaps, |swaps|)
    ensures multiset(c[..]) == multiset(s)
  {
    c := new T[|s|](i requires 0 <= i < |s| => s[i]);
    var k := 0;
    while k < |swaps|
      invariant 0 <= k <= |swaps|
      invariant c[..] == Shuffled(s, swaps, k)
    {
      var i, j := |s| - 1 - k, swaps[k];
      c[i], c[j] := c[j], c[i];
      k := k + 1;
    }
    ShuffledPermutes(s, swaps, |swaps|);
  }
}
