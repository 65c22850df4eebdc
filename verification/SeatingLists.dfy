/** `occupy` and `release` on lists of runs: the reference the Redis scripts are compared with. */
module SeatingLists {
  import opened Basics
  import opened RunSets
  import Sorting

  ghost predicate NoRepeats(runs: seq<Run>) {
    forall r :: multiset(runs)[r] <= 1
  }

  /** A list of maximal runs, each once. */
  ghost predicate RunList(runs: seq<Run>) {
    Canonical(RunSet(runs)) && NoRepeats(runs)
  }

  predicate RunBefore(a: Run, b: Run) {
    a.block < b.block || (a.block == b.block && a.start <= b.start)
  }

  lemma AppendNew(runs: seq<Run>, r: Run)
    requires NoRepeats(runs) && r !in runs
    ensures NoRepeats(runs + [r]) && RunSet(runs + [r]) == RunSet(runs) + {r}
  {
  }

  lemma PrefixStep(runs: seq<Run>, i: nat)
    requires NoRepeats(runs) && i < |runs|
    ensures RunSet(runs[..i + 1]) == RunSet(runs[..i]) + {runs[i]}
    ensures runs[i] !in runs[..i]
  {
    assert runs == runs[..i] + [runs[i]] + runs[i + 1..];
    assert runs[..i + 1] == runs[..i] + [runs[i]];
    assert multiset(runs)[runs[i]] == multiset(runs[..i])[runs[i]] + 1 + multiset(runs[i + 1..])[runs[i]];
  }

  /** Python's `sorted(out, key=(block, start))`. */
  method SortedCopy(out: seq<Run>) returns (copy: seq<Run>)
    requires NoRepeats(out)
    ensures RunSet(copy) == RunSet(out) && NoRepeats(copy) && Sorting.SortedBy(copy, RunBefore)
  {
    Sorting.SortKeepsElements(out, RunBefore);
    Sorting.SortPermutes(out, RunBefore);
    Sorting.SortSorts(out, RunBefore);
    copy := Sorting.Sort(out, RunBefore);
  }

  /** The pieces of a host are no runs of the zone. */
  lemma PiecesAreNew(rs: set<Run>, host: Run, start: int, length: int)
    requires Canonical(rs) && host in rs && length >= 1 && Hosts(host, start, length)
    ensures Pieces(host, start, length) !! rs
  {
    forall r | r in Pieces(host, start, length) ensures r !in rs {
      assert r in rs ==> r == host || Apart(r, host);
    }
  }

  ghost predicate Contains(r: Run, block: int, start: int, end: int) {
    r.block == block && r.start <= start && end <= r.End()
  }

  /** State of the scan after the runs in `seen`: everything copied, except that a host is cut. */
  ghost predicate Carved(seen: set<Run>, out: seq<Run>, host: Option<Run>, block: int, start: int, end: int) {
    && NoRepeats(out)
    && match host
       case None => RunSet(out) == seen && forall r :: r in seen ==> !Contains(r, block, start, end)
       case Some(h) => h in seen && Contains(h, block, start, end) && RunSet(out) == OccupySet(seen, h, start, end - start)
  }

  lemma CarvedKeeps(all: set<Run>, seen: set<Run>, run: Run, out: seq<Run>, host: Option<Run>, block: int, start: int, end: int)
    requires Canonical(all) && seen + {run} <= all && run !in seen && start < end
    requires Carved(seen, out, host, block, start, end) && !Contains(run, block, start, end)
    ensures Carved(seen + {run}, out + [run], host, block, start, end)
  {
    if host.Some? {
      PiecesAreNew(all, host.value, start, end - start);
      assert OccupySet(seen + {run}, host.value, start, end - start)
          == OccupySet(seen, host.value, start, end - start) + {run};
    }
    assert run !in RunSet(out);
    AppendNew(out, run);
  }

  /** The remainders of a cut run, left one first. */
  function PieceList(run: Run, start: int, end: int): seq<Run> {
    (if start > run.start then [Run(run.block, run.start, start - run.start)] else [])
    + (if end < run.End() then [Run(run.block, end, run.End() - end)] else [])
  }

  lemma AppendPieces(out: seq<Run>, run: Run, start: int, end: int)
    requires NoRepeats(out) && start < end && Pieces(run, start, end - start) !! RunSet(out)
    ensures NoRepeats(out + PieceList(run, start, end))
    ensures RunSet(out + PieceList(run, start, end)) == RunSet(out) + Pieces(run, start, end - start)
  {
    var left, right := Run(run.block, run.start, start - run.start), Run(run.block, end, run.End() - end);
    var mid := if start > run.start then out + [left] else out;
    if start > run.start {
      assert left in Pieces(run, start, end - start) && left !in RunSet(out);
      AppendNew(out, left);
    }
    if end < run.End() {
      assert right in Pieces(run, start, end - start) && right !in RunSet(out);
      AppendNew(mid, right);
      assert out + PieceList(run, start, end) == mid + [right];
    } else {
      assert out + PieceList(run, start, end) == mid;
    }
  }

  lemma CarvedCuts(all: set<Run>, seen: set<Run>, run: Run, out: seq<Run>, host: Option<Run>, block: int, start: int, end: int)
    requires Canonical(all) && seen + {run} <= all && run !in seen && start < end
    requires Carved(seen, out, host, block, start, end) && Contains(run, block, start, end)
    ensures Carved(seen + {run}, out + PieceList(run, start, end), Some(run), block, start, end)
  {
    if host.Some? {
      HostIsUnique(all, host.value, run, block, start, end);
    }
    PiecesAreNew(all, run, start, end - start);
    AppendPieces(out, run, start, end);
    assert OccupySet(seen + {run}, run, start, end - start) == seen + Pieces(run, start, end - start);
  }

  lemma HostIsUnique(rs: set<Run>, h: Run, g: Run, block: int, start: int, end: int)
    requires Canonical(rs) && h in rs && g in rs && start < end
    requires Contains(h, block, start, end) && Contains(g, block, start, end)
    ensures h == g
  {
    assert h == g || Apart(h, g);
  }

  /** What `occupy` returns: `None` exactly when no single run contains the placement, otherwise the
      sorted maximal runs without the placed seats. */
  ghost predicate OccupyGives(runs: seq<Run>, block: int, start: int, length: int, result: Option<seq<Run>>) {
    && (result.Some? <==> exists host :: host in RunSet(runs) && Contains(host, block, start, start + length))
    && (result.Some? ==> RunList(result.value) && Sorting.SortedBy(result.value, RunBefore))
    && forall host :: result.Some? && host in RunSet(runs) && Contains(host, block, start, start + length)
         ==> RunSet(result.value) == OccupySet(RunSet(runs), host, start, length)
  }

  /** `None` stands for the `ValueError` raised when no single run contains the placement. */
  method Occupy(runs: seq<Run>, block: int, start: int, length: int) returns (result: Option<seq<Run>>)
    requires RunList(runs) && length >= 1
    ensures OccupyGives(runs, block, start, length, result)
  {
    var end := start + length;
    var out: seq<Run> := [];
    var host: Option<Run> := None;
    ghost var seen: set<Run> := {};
    for i := 0 to |runs|
      invariant seen == RunSet(runs[..i])
      invariant Carved(seen, out, host, block, start, end)
    {
      var run := runs[i];
      PrefixIsCanonical(runs, i);
      assert seen + {run} <= RunSet(runs);
      if run.block == block && run.start <= start && end <= run.End() {
        CarvedCuts(RunSet(runs), seen, run, out, host, block, start, end);
        host := Some(run);
        out := out + PieceList(run, start, end);
      } else {
        CarvedKeeps(RunSet(runs), seen, run, out, host, block, start, end);
        out := out + [run];
      }
      seen := seen + {run};
    }
    assert runs[..|runs|] == runs;
    if host.None? {
      return None;
    }
    out := SortedCopy(out);
    OccupySetMeaning(seen, host.value, start, length);
    forall h | h in seen && Contains(h, block, start, end) ensures h == host.value {
      HostIsUnique(seen, h, host.value, block, start, end);
    }
    result := Some(out);
  }

  predicate InBlock(start: int, length: int, capacity: Option<int>) {
    start >= 0 && (capacity.Some? ==> start + length <= capacity.value)
  }

  // While the runs are scanned, `lo` and `hi` are the edges of the interval merged with the runs seen so far.

  lemma EdgesGrow(seen: set<Run>, run: Run, b: int, lo: int, hi: int)
    requires Canonical(seen + {run}) && run !in seen
    ensures LeftEdge(seen + {run}, b, lo) == if run.block == b && run.End() == lo then run.start else LeftEdge(seen, b, lo)
    ensures RightEdge(seen + {run}, b, hi) == if run.block == b && run.start == hi then run.End() else RightEdge(seen, b, hi)
  {
    var more := seen + {run};
    if r :| r in more && r.block == b && r.End() == lo {
      LeftEdgeIs(more, r);
      if r != run {
        assert r in seen && Apart(r, run);
        LeftEdgeIs(seen, r);
      }
    }
    if r :| r in more && r.block == b && r.start == hi {
      RightEdgeIs(more, r);
      if r != run {
        assert r in seen && Apart(r, run);
        RightEdgeIs(seen, r);
      }
    }
  }

  /** Comparing a run with the grown interval tells the same as comparing it with the original one. */
  lemma GrownTests(seen: set<Run>, run: Run, b: int, lo: int, hi: int)
    requires Canonical(seen + {run}) && run !in seen && run.block == b && lo < hi
    ensures var l, h := LeftEdge(seen, b, lo), RightEdge(seen, b, hi);
            && l <= lo && hi <= h
            && (run.End() < l || run.start > h <==> run.End() < lo || run.start > hi)
            && (run.start < h && l < run.End() <==> run.start < hi && lo < run.End())
            && (run.End() == lo ==> l == lo) && (run.start == hi ==> h == hi)
  {
    assert run.length >= 1;
    if r :| r in seen && r.block == b && r.End() == lo {
      LeftEdgeIs(seen, r);
      assert Apart(r, run);
    }
    if r :| r in seen && r.block == b && r.start == hi {
      RightEdgeIs(seen, r);
      assert Apart(r, run);
    }
  }

  /** State of the scan after the runs in `seen`: `out` keeps those that do not touch the interval. */
  ghost predicate Scanned(seen: set<Run>, out: seq<Run>, b: int, start: int, end: int, lo: int, hi: int) {
    && NoRepeats(out)
    && (forall r :: r in out <==> r in seen && !Touches(r, b, start, end))
    && Taken(seen, b, start, end)
    && lo == LeftEdge(seen, b, start)
    && hi == RightEdge(seen, b, end)
  }

  lemma ScanKeeps(seen: set<Run>, run: Run, out: seq<Run>, b: int, start: int, end: int, lo: int, hi: int)
    requires Canonical(seen + {run}) && run !in seen && start < end && Scanned(seen, out, b, start, end, lo, hi)
    requires run.block != b || run.End() < lo || run.start > hi
    ensures Scanned(seen + {run}, out + [run], b, start, end, lo, hi)
  {
    EdgesGrow(seen, run, b, start, end);
    AppendNew(out, run);
    if run.block == b {
      GrownTests(seen, run, b, start, end);
    }
  }

  lemma ScanAbsorbs(seen: set<Run>, run: Run, out: seq<Run>, b: int, start: int, end: int, lo: int, hi: int)
    requires Canonical(seen + {run}) && run !in seen && start < end && Scanned(seen, out, b, start, end, lo, hi)
    requires run.block == b && !(run.End() < lo || run.start > hi)
    ensures run.start < hi && lo < run.End() <==> run.start < end && start < run.End()
    ensures !(run.start < hi && lo < run.End())
            ==> Scanned(seen + {run}, out, b, start, end, MinInt(lo, run.start), MaxInt(hi, run.End()))
  {
    EdgesGrow(seen, run, b, start, end);
    GrownTests(seen, run, b, start, end);
  }

  lemma PrefixIsCanonical(runs: seq<Run>, i: nat)
    requires RunList(runs) && i < |runs|
    ensures RunSet(runs[..i + 1]) == RunSet(runs[..i]) + {runs[i]} && runs[i] !in RunSet(runs[..i])
    ensures Canonical(RunSet(runs[..i]) + {runs[i]}) && runs[i] in RunSet(runs)
  {
    PrefixStep(runs, i);
    assert RunSet(runs[..i]) + {runs[i]} <= RunSet(runs);
  }

  lemma ScanEnds(rs: set<Run>, out: seq<Run>, b: int, start: int, end: int, lo: int, hi: int)
    requires Canonical(rs) && start < end && Scanned(rs, out, b, start, end, lo, hi)
    ensures RunSet(out + [Run(b, lo, hi - lo)]) == ReleaseSet(rs, b, start, end)
    ensures NoRepeats(out + [Run(b, lo, hi - lo)])
    ensures Canonical(ReleaseSet(rs, b, start, end))
  {
    NewRunIsNew(rs, b, start, end);
    AppendNew(out, Run(b, lo, hi - lo));
  }

  /** What `release` returns: `None` exactly for an interval that is empty, out of the block or not
      entirely taken, otherwise the sorted maximal runs with those seats added. */
  ghost predicate ReleaseGives(runs: seq<Run>, block: int, start: int, length: int, capacity: Option<int>, result: Option<seq<Run>>) {
    && (result.Some? <==> length >= 1 && InBlock(start, length, capacity)
                          && Taken(RunSet(runs), block, start, start + length))
    && (result.Some? ==> RunList(result.value) && Sorting.SortedBy(result.value, RunBefore))
    && (result.Some? ==> RunSet(result.value) == ReleaseSet(RunSet(runs), block, start, start + length))
  }

  /** `None` stands for the `ValueError` raised for an empty, out-of-block or overlapping interval. */
  method Release(runs: seq<Run>, block: int, start: int, length: int, capacity: Option<int>) returns (result: Option<seq<Run>>)
    requires RunList(runs)
    ensures ReleaseGives(runs, block, start, length, capacity, result)
  {
    if length < 1 || start < 0 || (capacity.Some? && start + length > capacity.value) {
      return None;
    }
    var end := start + length;
    var lo, hi := start, end;
    var out: seq<Run> := [];
    ghost var seen: set<Run> := {};
    assert Scanned(seen, out, block, start, end, lo, hi);
    hide *;
    for i := 0 to |runs|
      invariant seen == RunSet(runs[..i])
      invariant Scanned(seen, out, block, start, end, lo, hi)
    {
      var run := runs[i];
      ghost var before := seen;
      PrefixIsCanonical(runs, i);
      seen := seen + {run};
      if run.block != block {
        ScanKeeps(before, run, out, block, start, end, lo, hi);
        out := out + [run];
        continue;
      }
      if run.End() < lo || run.start > hi {
        ScanKeeps(before, run, out, block, start, end, lo, hi);
        out := out + [run];
        continue;
      }
      ScanAbsorbs(before, run, out, block, start, end, lo, hi);
      if run.start < hi && lo < run.End() {
        RefusedGives(runs, run, block, start, length, capacity);
        return None;
      }
      lo, hi := MinInt(lo, run.start), MaxInt(hi, run.End());
    }
    assert runs[..|runs|] == runs;
    ScanEnds(RunSet(runs), out, block, start, end, lo, hi);
    out := out + [Run(block, lo, hi - lo)];
    out := SortedCopy(out);
    result := Some(out);
    ReleasedGives(runs, block, start, length, capacity, out);
  }

  lemma RefusedGives(runs: seq<Run>, run: Run, block: int, start: int, length: int, capacity: Option<int>)
    requires run in RunSet(runs) && run.block == block && run.start < start + length && start < run.End()
    ensures ReleaseGives(runs, block, start, length, capacity, None)
  {
  }

  lemma ReleasedGives(runs: seq<Run>, block: int, start: int, length: int, capacity: Option<int>, out: seq<Run>)
    requires length >= 1 && InBlock(start, length, capacity) && Taken(RunSet(runs), block, start, start + length)
    requires RunList(out) && Sorting.SortedBy(out, RunBefore) && RunSet(out) == ReleaseSet(RunSet(runs), block, start, start + length)
    ensures ReleaseGives(runs, block, start, length, capacity, Some(out))
  {
  }

  lemma NewRunIsNew(rs: set<Run>, b: int, lo: int, hi: int)
    requires Canonical(rs) && lo < hi && Taken(rs, b, lo, hi)
    ensures Run(b, LeftEdge(rs, b, lo), RightEdge(rs, b, hi) - LeftEdge(rs, b, lo)) !in rs
    ensures Canonical(ReleaseSet(rs, b, lo, hi))
  {
    ReleaseSetMeaning(rs, b, lo, hi);
    MergedRunCells(rs, b, lo, hi, lo);
  }
}
