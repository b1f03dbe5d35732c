/**
 * The shape shared by the three proxy-list loaders: trim every line, keep the
 * trimmed lines a predicate accepts, preserve their order.
 */
module LineFilter {
  import opened Text

  /** The trimmed lines of `lines` that `keep` accepts, in input order. */
  function Kept(lines: seq<string>, keep: string -> bool): (r: seq<string>)
    ensures |r| <= |lines|
  {
    if lines == [] then []
    else
      var l := TrimSpace(lines[|lines| - 1]);
      var rest := Kept(lines[..|lines| - 1], keep);
      if keep(l) then rest + [l] else rest
  }

  /** Input line `i` trims to `x` and `x` is accepted. */
  predicate KeptFrom(lines: seq<string>, keep: string -> bool, x: string, i: int) {
    0 <= i < |lines| && x == TrimSpace(lines[i]) && keep(x)
  }

  /** A string is kept iff it is the trimmed form of some input line and is accepted. */
  lemma {:induction false} KeptMembers(lines: seq<string>, keep: string -> bool, x: string)
    ensures x in Kept(lines, keep) <==> exists i :: KeptFrom(lines, keep, x, i)
  {
    if lines != [] {
      var n := |lines| - 1;
      var init := lines[..n];
      var l := TrimSpace(lines[n]);
      KeptMembers(init, keep, x);
      assert Kept(lines, keep) == Kept(init, keep) + (if keep(l) then [l] else []);
      if x in Kept(lines, keep) {
        if x in Kept(init, keep) {
          var i :| KeptFrom(init, keep, x, i);
          assert lines[i] == init[i];
          assert KeptFrom(lines, keep, x, i);
        } else {
          assert KeptFrom(lines, keep, x, n);
        }
      }
      if exists i :: KeptFrom(lines, keep, x, i) {
        var i :| KeptFrom(lines, keep, x, i);
        if i < n {
          assert init[i] == lines[i];
          assert KeptFrom(init, keep, x, i);
        } else {
          assert i == n && keep(l);
          assert Kept(lines, keep) == Kept(init, keep) + [l];
        }
      }
    }
  }

  /** Filtering distributes over concatenation, so the kept lines keep their relative order. */
  lemma {:induction false} KeptAppend(a: seq<string>, b: seq<string>, keep: string -> bool)
    ensures Kept(a + b, keep) == Kept(a, keep) + Kept(b, keep)
    decreases |b|
  {
    if b == [] {
      assert a + b == a;
    } else {
      var init := b[..|b| - 1];
      assert (a + b)[..|a + b| - 1] == a + init;
      assert (a + b)[|a + b| - 1] == b[|b| - 1];
      KeptAppend(a, init, keep);
    }
  }

  /** Every kept line is trimmed and accepted. */
  lemma {:induction false} KeptAreTrimmed(lines: seq<string>, keep: string -> bool)
    ensures forall x :: x in Kept(lines, keep) ==> TrimSpace(x) == x && keep(x)
  {
    forall x | x in Kept(lines, keep)
      ensures TrimSpace(x) == x && keep(x)
    {
      KeptMembers(lines, keep, x);
      var i :| KeptFrom(lines, keep, x, i);
      TrimSpaceIdempotent(lines[i]);
    }
  }

  /**
   * Filtering twice is filtering once with both tests: a stricter loader's
   * list is the looser loader's list filtered by the extra test.
   */
  lemma {:induction false} KeptTwice(lines: seq<string>, p: string -> bool, q: string -> bool, both: string -> bool)
    requires forall x :: both(x) == (p(x) && q(x))
    ensures Kept(Kept(lines, p), q) == Kept(lines, both)
  {
    if lines != [] {
      var init := lines[..|lines| - 1];
      var l := TrimSpace(lines[|lines| - 1]);
      KeptTwice(init, p, q, both);
      TrimSpaceIdempotent(lines[|lines| - 1]);
      if p(l) {
        KeptAppend(Kept(init, p), [l], q);
        assert Kept([l], q) == Kept([], q) + (if q(TrimSpace(l)) then [TrimSpace(l)] else []);
      }
    }
  }
}
