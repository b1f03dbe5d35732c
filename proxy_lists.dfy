/**
 * How the three proxy-list loaders relate. All three trim every line and
 * keep the accepted ones in order; their filters are nested: loadFile
 * (quantum_hulk.go) keeps every non-empty line, loadProxies in solve.go also
 * drops comments, and loadProxies in Ai_flood.go also requires a ':'.
 */
module ProxyLists {
  import opened Text
  import opened LineFilter
  import FloodEngine
  import Solver
  import Hulk

  predicate NotComment(l: string) {
    !HasPrefix(l, "#")
  }

  predicate HasColon(l: string) {
    Contains(l, ":")
  }

  /** solve.go's list is quantum_hulk.go's list with the comment lines removed. */
  lemma SolveListRefinesHulkList(lines: seq<string>)
    ensures Kept(lines, Solver.SolveKeep) == Kept(Kept(lines, Hulk.HulkKeep), NotComment)
  {
    KeptTwice(lines, Hulk.HulkKeep, NotComment, Solver.SolveKeep);
  }

  /** Ai_flood.go's list is solve.go's list with the lines lacking a ':' removed. */
  lemma FloodListRefinesSolveList(lines: seq<string>)
    ensures Kept(lines, FloodEngine.FloodKeep) == Kept(Kept(lines, Solver.SolveKeep), HasColon)
  {
    KeptTwice(lines, Solver.SolveKeep, HasColon, FloodEngine.FloodKeep);
  }

  /** Hence each list is contained in the one before it, entry for entry. */
  lemma ListsNest(lines: seq<string>)
    ensures forall x :: x in Kept(lines, FloodEngine.FloodKeep) ==> x in Kept(lines, Solver.SolveKeep)
    ensures forall x :: x in Kept(lines, Solver.SolveKeep) ==> x in Kept(lines, Hulk.HulkKeep)
  {
    forall x | x in Kept(lines, FloodEngine.FloodKeep)
      ensures x in Kept(lines, Solver.SolveKeep)
    {
      KeptMembers(lines, FloodEngine.FloodKeep, x);
      KeptMembers(lines, Solver.SolveKeep, x);
      var i :| KeptFrom(lines, FloodEngine.FloodKeep, x, i);
      assert KeptFrom(lines, Solver.SolveKeep, x, i);
    }
    forall x | x in Kept(lines, Solver.SolveKeep)
      ensures x in Kept(lines, Hulk.HulkKeep)
    {
      KeptMembers(lines, Solver.SolveKeep, x);
      KeptMembers(lines, Hulk.HulkKeep, x);
      var i :| KeptFrom(lines, Solver.SolveKeep, x, i);
      assert KeptFrom(lines, Hulk.HulkKeep, x, i);
    }
  }
}
