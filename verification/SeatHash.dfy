/** The two Redis hashes of a zone, `(block, start) -> length` and `(block, end) -> start`, and the
    set of runs they stand for. */
module SeatHash {
  import opened RunSets

  datatype Cell = Cell(block: int, pos: int)

  /** Names the field, or the run, a fact about the hashes is wanted for; always true. */
  ghost predicate At(k: Cell) {
    true
  }

  ghost predicate About(r: Run) {
    true
  }

  /** The fields of `runs` are exactly the runs of `rs`. */
  ghost predicate HashOf(runs: map<Cell, int>, rs: set<Run>) {
    && (forall k {:trigger At(k)} :: At(k) && k in runs ==> Run(k.block, k.pos, runs[k]) in rs)
    && (forall r {:trigger About(r)} :: About(r) && r in rs ==> Cell(r.block, r.start) in runs && runs[Cell(r.block, r.start)] == r.length)
  }

  /** The fields of `ends` are exactly the ends of the runs of `rs`, each giving the start. */
  ghost predicate IndexOf(ends: map<Cell, int>, rs: set<Run>) {
    && (forall e {:trigger At(e)} :: At(e) && e in ends ==> Run(e.block, ends[e], e.pos - ends[e]) in rs)
    && (forall r {:trigger About(r)} :: About(r) && r in rs ==> Cell(r.block, r.End()) in ends && ends[Cell(r.block, r.End())] == r.start)
  }

  /** Dropping a run's two fields drops the run. */
  lemma HashRemove(runs: map<Cell, int>, ends: map<Cell, int>, rs: set<Run>, r: Run)
    requires Canonical(rs) && HashOf(runs, rs) && IndexOf(ends, rs) && r in rs
    ensures HashOf(runs - {Cell(r.block, r.start)}, rs - {r})
    ensures IndexOf(ends - {Cell(r.block, r.End())}, rs - {r})
  {
    assert About(r);
    forall q {:trigger About(q)} | About(q) && q in rs - {r}
      ensures Cell(q.block, q.start) in runs - {Cell(r.block, r.start)} && runs[Cell(q.block, q.start)] == q.length
      ensures Cell(q.block, q.End()) in ends - {Cell(r.block, r.End())} && ends[Cell(q.block, q.End())] == q.start
    {
      assert About(q) && Apart(q, r);
    }
    forall k {:trigger At(k)} | At(k) && k in runs - {Cell(r.block, r.start)} ensures Run(k.block, k.pos, runs[k]) in rs - {r} {
      assert At(k);
    }
    forall e {:trigger At(e)} | At(e) && e in ends - {Cell(r.block, r.End())} ensures Run(e.block, ends[e], e.pos - ends[e]) in rs - {r} {
      assert At(e);
      assert Run(e.block, ends[e], e.pos - ends[e]).End() == e.pos;
    }
  }

  /** Writing the two fields of a new run adds the run. */
  lemma HashPut(runs: map<Cell, int>, ends: map<Cell, int>, rs: set<Run>, r: Run)
    requires HashOf(runs, rs) && IndexOf(ends, rs)
    requires forall q :: q in rs && q.block == r.block ==> q.start != r.start && q.End() != r.End()
    ensures HashOf(runs[Cell(r.block, r.start) := r.length], rs + {r})
    ensures IndexOf(ends[Cell(r.block, r.End()) := r.start], rs + {r})
  {
    var runs', ends' := runs[Cell(r.block, r.start) := r.length], ends[Cell(r.block, r.End()) := r.start];
    forall q {:trigger About(q)} | About(q) && q in rs + {r}
      ensures Cell(q.block, q.start) in runs' && runs'[Cell(q.block, q.start)] == q.length
      ensures Cell(q.block, q.End()) in ends' && ends'[Cell(q.block, q.End())] == q.start
    {
      assert About(q);
    }
    forall k {:trigger At(k)} | At(k) && k in runs' ensures Run(k.block, k.pos, runs'[k]) in rs + {r} {
      assert At(k);
    }
    forall e {:trigger At(e)} | At(e) && e in ends' ensures Run(e.block, ends'[e], e.pos - ends'[e]) in rs + {r} {
      assert At(e);
    }
  }

  /** Looking a run up by its start, and a run's start up by its end. */
  lemma Lookup(runs: map<Cell, int>, ends: map<Cell, int>, rs: set<Run>, b: int, p: int)
    requires HashOf(runs, rs) && IndexOf(ends, rs)
    ensures Cell(b, p) in runs ==> Run(b, p, runs[Cell(b, p)]) in rs
    ensures Cell(b, p) in ends ==> Run(b, ends[Cell(b, p)], p - ends[Cell(b, p)]) in rs
    ensures Cell(b, p) !in runs ==> forall r :: r in rs && r.block == b ==> r.start != p
    ensures Cell(b, p) !in ends ==> forall r :: r in rs && r.block == b ==> r.End() != p
  {
    assert At(Cell(b, p));
    forall r | r in rs && r.block == b
      ensures r.start == p ==> Cell(b, p) in runs
      ensures r.End() == p ==> Cell(b, p) in ends
    {
      assert About(r);
    }
  }
}
