/** Free seats of a zone as a set of maximal runs.

    A run is an interval of adjacent free seats inside one block.  The functions here are the
    meaning that both the list version (`Seating`) and the Redis version (`SeatRuns`) are held to.
 */
module RunSets {

  /** Free seats `[start, start + length)` of one block. */
  datatype Run = Run(block: int, start: int, length: int) {
    function End(): int {
      start + length
    }

    predicate Covers(b: int, p: int) {
      block == b && start <= p < End()
    }
  }

  function RunSet(runs: seq<Run>): set<Run> {
    set r | r in runs
  }

  ghost predicate Distinct(runs: seq<Run>) {
    forall i, j :: 0 <= i < j < |runs| ==> runs[i] != runs[j]
  }

  lemma AppendDistinct(runs: seq<Run>, r: Run)
    requires Distinct(runs) && r !in RunSet(runs)
    ensures Distinct(runs + [r]) && RunSet(runs + [r]) == RunSet(runs) + {r}
  {
    assert forall i :: 0 <= i < |runs| ==> runs[i] in RunSet(runs);
  }

  /** Seat `p` of block `b` is free. */
  ghost predicate Free(rs: set<Run>, b: int, p: int) {
    exists r :: r in rs && r.Covers(b, p)
  }

  ghost predicate SameCells(rs: set<Run>, qs: set<Run>) {
    forall b, p :: Free(rs, b, p) <==> Free(qs, b, p)
  }

  /** At least one occupied seat lies between the two runs. */
  predicate Apart(r: Run, q: Run) {
    r.block != q.block || r.End() < q.start || q.End() < r.start
  }

  /** Positive, disjoint, non-adjacent: every run is maximal. */
  predicate Canonical(rs: set<Run>) {
    && (forall r :: r in rs ==> r.length >= 1)
    && (forall r, q {:trigger Apart(r, q)} :: r in rs && q in rs && r != q ==> Apart(r, q))
  }

  /** No seat of `[lo, hi)` in block `b` is free. */
  predicate Taken(rs: set<Run>, b: int, lo: int, hi: int) {
    forall r :: r in rs && r.block == b ==> !(r.start < hi && lo < r.End())
  }

  // ------------------------------------------------------------------ canonical form

  lemma RunIsBounded(rs: set<Run>, r: Run)
    requires Canonical(rs) && r in rs
    ensures !Free(rs, r.block, r.start - 1) && !Free(rs, r.block, r.End())
  {
    forall t | t in rs ensures !t.Covers(r.block, r.start - 1) && !t.Covers(r.block, r.End()) {
      assert t == r || Apart(t, r);
    }
  }

  lemma RunIsShared(rs: set<Run>, qs: set<Run>, r: Run)
    requires Canonical(rs) && Canonical(qs) && SameCells(rs, qs)
    requires r in rs
    ensures r in qs
  {
    assert r.Covers(r.block, r.start);
    assert Free(qs, r.block, r.start);
    var q :| q in qs && q.Covers(r.block, r.start);
    RunIsBounded(rs, r);
    RunIsBounded(qs, q);
    assert q.start < r.start ==> q.Covers(r.block, r.start - 1);
    assert q.End() < r.End() ==> r.Covers(r.block, q.End());
    assert r.End() < q.End() ==> q.Covers(r.block, r.End());
  }

  /** The maximal runs of a zone are determined by which seats are free. */
  lemma CanonicalForm(rs: set<Run>, qs: set<Run>)
    requires Canonical(rs) && Canonical(qs) && SameCells(rs, qs)
    ensures rs == qs
  {
    forall r | r in rs ensures r in qs {
      RunIsShared(rs, qs, r);
    }
    forall r | r in qs ensures r in rs {
      RunIsShared(qs, rs, r);
    }
  }

  // ------------------------------------------------------------------ taking seats

  /** What is left of `host` around `[start, start + length)`: zero, one or two runs. */
  function Pieces(host: Run, start: int, length: int): set<Run> {
    (if start > host.start then {Run(host.block, host.start, start - host.start)} else {})
    + (if start + length < host.End() then {Run(host.block, start + length, host.End() - (start + length))} else {})
  }

  predicate Hosts(host: Run, start: int, length: int) {
    host.start <= start && start + length <= host.End()
  }

  function OccupySet(rs: set<Run>, host: Run, start: int, length: int): set<Run> {
    (rs - {host}) + Pieces(host, start, length)
  }

  /** Cutting `[start, start + length)` out of a run removes exactly those seats and keeps the rest maximal. */
  lemma OccupySetMeaning(rs: set<Run>, host: Run, start: int, length: int)
    requires Canonical(rs) && host in rs && length >= 1 && Hosts(host, start, length)
    ensures Canonical(OccupySet(rs, host, start, length))
    ensures forall b, p :: Free(OccupySet(rs, host, start, length), b, p)
                           <==> Free(rs, b, p) && !(b == host.block && start <= p < start + length)
  {
    var after := OccupySet(rs, host, start, length);
    var left := Run(host.block, host.start, start - host.start);
    var right := Run(host.block, start + length, host.End() - (start + length));
    forall b, p ensures Free(after, b, p) <==> Free(rs, b, p) && !(b == host.block && start <= p < start + length) {
      if Free(after, b, p) {
        var r :| r in after && r.Covers(b, p);
        if r !in rs - {host} {
          assert host.Covers(b, p);
        } else {
          assert Apart(r, host);
        }
      }
      if Free(rs, b, p) && !(b == host.block && start <= p < start + length) {
        var r :| r in rs && r.Covers(b, p);
        if r == host {
          if p < start {
            assert left in after && left.Covers(b, p);
          } else {
            assert right in after && right.Covers(b, p);
          }
        } else {
          assert r in after;
        }
      }
    }
    forall r, q | r in after && q in after && r != q ensures Apart(r, q) {
      assert r in rs - {host} ==> Apart(r, host);
      assert q in rs - {host} ==> Apart(q, host);
    }
  }

  // ------------------------------------------------------------------ returning seats

  /** Where the run ending exactly at `lo` starts, or `lo` itself when there is none. */
  ghost function LeftEdge(rs: set<Run>, b: int, lo: int): int {
    if exists r :: r in rs && r.block == b && r.End() == lo then
      var r :| r in rs && r.block == b && r.End() == lo; r.start
    else lo
  }

  /** Where the run starting exactly at `hi` ends, or `hi` itself when there is none. */
  ghost function RightEdge(rs: set<Run>, b: int, hi: int): int {
    if exists r :: r in rs && r.block == b && r.start == hi then
      var r :| r in rs && r.block == b && r.start == hi; r.End()
    else hi
  }

  predicate Touches(r: Run, b: int, lo: int, hi: int) {
    r.block == b && (r.End() == lo || r.start == hi)
  }

  ghost function ReleaseSet(rs: set<Run>, b: int, lo: int, hi: int): set<Run> {
    (set r | r in rs && !Touches(r, b, lo, hi))
    + {Run(b, LeftEdge(rs, b, lo), RightEdge(rs, b, hi) - LeftEdge(rs, b, lo))}
  }

  lemma LeftEdgeIs(rs: set<Run>, r: Run)
    requires Canonical(rs) && r in rs
    ensures LeftEdge(rs, r.block, r.End()) == r.start
  {
    var q :| q in rs && q.block == r.block && q.End() == r.End() && q.start == LeftEdge(rs, r.block, r.End());
    assert q == r || Apart(q, r);
  }

  lemma RightEdgeIs(rs: set<Run>, r: Run)
    requires Canonical(rs) && r in rs
    ensures RightEdge(rs, r.block, r.start) == r.End()
  {
    var q :| q in rs && q.block == r.block && q.start == r.start && q.End() == RightEdge(rs, r.block, r.start);
    assert q == r || Apart(q, r);
  }

  /** The run that a release of `[lo, hi)` produces spans the interval and the runs touching it. */
  lemma MergedRunCells(rs: set<Run>, b: int, lo: int, hi: int, p: int)
    requires Canonical(rs) && lo < hi && Taken(rs, b, lo, hi)
    ensures LeftEdge(rs, b, lo) <= lo && hi <= RightEdge(rs, b, hi)
    ensures LeftEdge(rs, b, lo) <= p < lo ==> exists r :: r in rs && r.Covers(b, p) && r.End() == lo
    ensures hi <= p < RightEdge(rs, b, hi) ==> exists r :: r in rs && r.Covers(b, p) && r.start == hi
  {
    if r :| r in rs && r.block == b && r.End() == lo {
      LeftEdgeIs(rs, r);
      assert r.start <= p < lo ==> r.Covers(b, p);
    }
    if r :| r in rs && r.block == b && r.start == hi {
      RightEdgeIs(rs, r);
      assert hi <= p < r.End() ==> r.Covers(b, p);
    }
  }

  /** Returning taken seats frees exactly those seats and keeps every run maximal. */
  lemma ReleaseSetMeaning(rs: set<Run>, b: int, lo: int, hi: int)
    requires Canonical(rs) && lo < hi && Taken(rs, b, lo, hi)
    ensures Canonical(ReleaseSet(rs, b, lo, hi))
    ensures forall c, p :: Free(ReleaseSet(rs, b, lo, hi), c, p) <==> Free(rs, c, p) || (c == b && lo <= p < hi)
  {
    var after := ReleaseSet(rs, b, lo, hi);
    var merged := Run(b, LeftEdge(rs, b, lo), RightEdge(rs, b, hi) - LeftEdge(rs, b, lo));
    assert merged in after;
    forall c, p ensures Free(after, c, p) <==> Free(rs, c, p) || (c == b && lo <= p < hi) {
      MergedRunCells(rs, b, lo, hi, p);
      if Free(after, c, p) {
        var r :| r in after && r.Covers(c, p);
      }
      if c == b && lo <= p < hi {
        assert merged.Covers(c, p);
      }
      if Free(rs, c, p) {
        var r :| r in rs && r.Covers(c, p);
        if Touches(r, b, lo, hi) {
          if r.End() == lo { LeftEdgeIs(rs, r); } else { RightEdgeIs(rs, r); }
          assert merged.Covers(c, p);
        } else {
          assert r in after;
        }
      }
    }
    MergedIsApart(rs, b, lo, hi);
  }

  lemma MergedIsApart(rs: set<Run>, b: int, lo: int, hi: int)
    requires Canonical(rs) && lo < hi && Taken(rs, b, lo, hi)
    ensures Canonical(ReleaseSet(rs, b, lo, hi))
  {
    var merged := Run(b, LeftEdge(rs, b, lo), RightEdge(rs, b, hi) - LeftEdge(rs, b, lo));
    MergedRunCells(rs, b, lo, hi, lo);
    forall r | r in rs && !Touches(r, b, lo, hi) ensures Apart(r, merged) {
      if r.block == b {
        if l :| l in rs && l.block == b && l.End() == lo {
          LeftEdgeIs(rs, l);
          assert Apart(l, r);
        }
        if t :| t in rs && t.block == b && t.start == hi {
          RightEdgeIs(rs, t);
          assert Apart(t, r);
        }
      }
    }
  }

  /** Returning exactly what was just taken restores the zone's runs. */
  lemma ReleaseUndoesOccupy(rs: set<Run>, host: Run, start: int, length: int)
    requires Canonical(rs) && host in rs && length >= 1 && Hosts(host, start, length)
    ensures Taken(OccupySet(rs, host, start, length), host.block, start, start + length)
    ensures ReleaseSet(OccupySet(rs, host, start, length), host.block, start, start + length) == rs
  {
    var mid := OccupySet(rs, host, start, length);
    OccupySetMeaning(rs, host, start, length);
    forall r | r in mid && r.block == host.block ensures !(r.start < start + length && start < r.End()) {
      if r in rs - {host} {
        assert Apart(r, host);
      }
    }
    ReleaseSetMeaning(mid, host.block, start, start + length);
    var back := ReleaseSet(mid, host.block, start, start + length);
    forall b, p ensures Free(back, b, p) <==> Free(rs, b, p) {
      if b == host.block && start <= p < start + length {
        assert host.Covers(b, p);
      }
    }
    CanonicalForm(back, rs);
  }

  /** Taking an interval of a canonical zone back out of the run it was merged into undoes the release. */
  lemma OccupyUndoesRelease(rs: set<Run>, b: int, lo: int, hi: int)
    requires Canonical(rs) && lo < hi && Taken(rs, b, lo, hi)
    ensures exists host :: host in ReleaseSet(rs, b, lo, hi) && host.block == b && Hosts(host, lo, hi - lo)
                           && OccupySet(ReleaseSet(rs, b, lo, hi), host, lo, hi - lo) == rs
  {
    var after := ReleaseSet(rs, b, lo, hi);
    ReleaseSetMeaning(rs, b, lo, hi);
    MergedRunCells(rs, b, lo, hi, lo);
    var host := Run(b, LeftEdge(rs, b, lo), RightEdge(rs, b, hi) - LeftEdge(rs, b, lo));
    assert host in after;
    OccupySetMeaning(after, host, lo, hi - lo);
    var back := OccupySet(after, host, lo, hi - lo);
    forall c, p ensures Free(back, c, p) <==> Free(rs, c, p) {
      assert forall r :: r in rs && r.Covers(c, p) ==> !(c == b && lo <= p < hi);
    }
    CanonicalForm(back, rs);
  }

  // ------------------------------------------------------------------ counting seats

  /** Total number of free seats. */
  ghost function Seats(rs: set<Run>): int {
    if rs == {} then 0 else var r :| r in rs; r.length + Seats(rs - {r})
  }

  lemma {:induction false} SeatsRemove(rs: set<Run>, r: Run)
    requires r in rs
    ensures Seats(rs) == r.length + Seats(rs - {r})
    decreases rs
  {
    var q :| q in rs && Seats(rs) == q.length + Seats(rs - {q});
    if q != r {
      SeatsRemove(rs - {q}, r);
      SeatsRemove(rs - {r}, q);
      assert rs - {q} - {r} == rs - {r} - {q};
    }
  }

  lemma SeatsAdd(rs: set<Run>, r: Run)
    requires r !in rs
    ensures Seats(rs + {r}) == Seats(rs) + r.length
  {
    SeatsRemove(rs + {r}, r);
    assert rs + {r} - {r} == rs;
  }

  lemma SeatsOccupy(rs: set<Run>, host: Run, start: int, length: int)
    requires Canonical(rs) && host in rs && length >= 1 && Hosts(host, start, length)
    ensures Seats(OccupySet(rs, host, start, length)) == Seats(rs) - length
  {
    var rest := rs - {host};
    SeatsRemove(rs, host);
    var left := Run(host.block, host.start, start - host.start);
    var right := Run(host.block, start + length, host.End() - (start + length));
    assert left in rest ==> Apart(left, host);
    assert right in rest ==> Apart(right, host);
    var withLeft := if start > host.start then rest + {left} else rest;
    if start > host.start {
      SeatsAdd(rest, left);
    }
    if start + length < host.End() {
      SeatsAdd(withLeft, right);
      assert OccupySet(rs, host, start, length) == withLeft + {right};
    } else {
      assert OccupySet(rs, host, start, length) == withLeft;
    }
  }

  lemma SeatsRelease(rs: set<Run>, b: int, lo: int, hi: int)
    requires Canonical(rs) && lo < hi && Taken(rs, b, lo, hi)
    ensures Seats(ReleaseSet(rs, b, lo, hi)) == Seats(rs) + (hi - lo)
  {
    ReleaseSetMeaning(rs, b, lo, hi);
    OccupyUndoesRelease(rs, b, lo, hi);
    var after := ReleaseSet(rs, b, lo, hi);
    var host :| host in after && host.block == b && Hosts(host, lo, hi - lo)
                && OccupySet(after, host, lo, hi - lo) == rs;
    SeatsOccupy(after, host, lo, hi - lo);
  }
}
