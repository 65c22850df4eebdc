/** What a whole sequence of placements and releases does to a zone: where single free seats come
    from, and what the cuts cost in total. */
module SeatingPotential {
  import opened Basics
  import opened RunSets
  import opened Seating

  /** One change to a zone: an order is placed inside a run, or an interval comes back. */
  datatype Move = Place(host: Run, offset: int, quantity: int) | GiveBack(block: int, lo: int, hi: int)

  ghost predicate Allowed(rs: set<Run>, m: Move, policy: Policy) {
    match m
    case Place(host, offset, quantity) => host in rs && LegalOffset(host, quantity, policy, offset)
    case GiveBack(b, lo, hi) => lo < hi && Taken(rs, b, lo, hi)
  }

  ghost function After(rs: set<Run>, m: Move): set<Run> {
    match m
    case Place(host, offset, quantity) => OccupySet(rs, host, host.start + offset, quantity)
    case GiveBack(b, lo, hi) => ReleaseSet(rs, b, lo, hi)
  }

  /** The zone after a whole sequence of moves. */
  ghost function AfterAll(rs: set<Run>, moves: seq<Move>): set<Run>
    decreases moves
  {
    if moves == [] then rs else AfterAll(After(rs, moves[0]), moves[1..])
  }

  ghost predicate AllAllowed(rs: set<Run>, moves: seq<Move>, policy: Policy)
    decreases moves
  {
    moves == [] || (Allowed(rs, moves[0], policy) && AllAllowed(After(rs, moves[0]), moves[1..], policy))
  }

  lemma MoveKeepsCanonical(rs: set<Run>, m: Move, policy: Policy)
    requires policy.Valid() && Canonical(rs) && Allowed(rs, m, policy)
    ensures Canonical(After(rs, m))
  {
    match m
    case Place(host, offset, quantity) => OccupySetMeaning(rs, host, host.start + offset, quantity);
    case GiveBack(b, lo, hi) => ReleaseSetMeaning(rs, b, lo, hi);
  }

  // ------------------------------------------------------------------ orphans

  /** Free runs of exactly one seat. */
  function Orphans(rs: set<Run>): set<Run> {
    set r | r in rs && r.length == 1
  }

  function ReturnsSingle(m: Move): nat {
    if m.GiveBack? && m.hi - m.lo == 1 then 1 else 0
  }

  function SinglesReturned(moves: seq<Move>): nat {
    if moves == [] then 0 else ReturnsSingle(moves[0]) + SinglesReturned(moves[1..])
  }

  /** A policy with `min_run >= 2` never leaves a single free seat behind. */
  lemma PlacementMakesNoOrphan(rs: set<Run>, host: Run, offset: int, quantity: int, policy: Policy)
    requires policy.Valid() && policy.minRun >= 2 && host in rs && LegalOffset(host, quantity, policy, offset)
    ensures |Orphans(OccupySet(rs, host, host.start + offset, quantity))| <= |Orphans(rs)|
  {
    SubsetSize(Orphans(OccupySet(rs, host, host.start + offset, quantity)), Orphans(rs));
  }

  lemma ReleaseMakesAtMostOneOrphan(rs: set<Run>, b: int, lo: int, hi: int)
    requires Canonical(rs) && lo < hi && Taken(rs, b, lo, hi)
    ensures |Orphans(ReleaseSet(rs, b, lo, hi))| <= |Orphans(rs)| + (if hi - lo == 1 then 1 else 0)
  {
    MergedRunCells(rs, b, lo, hi, lo);
    var merged := Run(b, LeftEdge(rs, b, lo), RightEdge(rs, b, hi) - LeftEdge(rs, b, lo));
    var after := Orphans(ReleaseSet(rs, b, lo, hi));
    if hi - lo == 1 {
      SubsetSize(after, Orphans(rs) + {merged});
      assert |Orphans(rs) + {merged}| <= |Orphans(rs)| + 1;
    } else {
      SubsetSize(after, Orphans(rs));
    }
  }

  lemma MoveMakesFewOrphans(rs: set<Run>, m: Move, policy: Policy)
    requires policy.Valid() && policy.minRun >= 2 && Canonical(rs) && Allowed(rs, m, policy)
    ensures |Orphans(After(rs, m))| <= |Orphans(rs)| + ReturnsSingle(m)
  {
    match m
    case Place(host, offset, quantity) => PlacementMakesNoOrphan(rs, host, offset, quantity, policy);
    case GiveBack(b, lo, hi) => ReleaseMakesAtMostOneOrphan(rs, b, lo, hi);
  }

  /** Whatever is sold and returned, single free seats only come from returned single seats. */
  lemma {:induction false} OrphansComeFromSingles(rs: set<Run>, moves: seq<Move>, policy: Policy)
    requires policy.Valid() && policy.minRun >= 2 && Canonical(rs) && AllAllowed(rs, moves, policy)
    ensures Canonical(AfterAll(rs, moves))
    ensures |Orphans(AfterAll(rs, moves))| <= |Orphans(rs)| + SinglesReturned(moves)
    decreases moves
  {
    if moves != [] {
      MoveKeepsCanonical(rs, moves[0], policy);
      MoveMakesFewOrphans(rs, moves[0], policy);
      OrphansComeFromSingles(After(rs, moves[0]), moves[1..], policy);
    }
  }

  // ------------------------------------------------------------------ potential

  /** Summed potential of all free runs. */
  ghost function Potential(rs: set<Run>, policy: Policy): real {
    if rs == {} then 0.0 else var r :| r in rs; policy.Phi(r.length) + Potential(rs - {r}, policy)
  }

  lemma {:induction false} PotentialRemove(rs: set<Run>, r: Run, policy: Policy)
    requires r in rs
    ensures Potential(rs, policy) == policy.Phi(r.length) + Potential(rs - {r}, policy)
    decreases rs
  {
    var q :| q in rs && Potential(rs, policy) == policy.Phi(q.length) + Potential(rs - {q}, policy);
    if q != r {
      PotentialRemove(rs - {q}, r, policy);
      PotentialRemove(rs - {r}, q, policy);
      assert rs - {q} - {r} == rs - {r} - {q};
    }
  }

  lemma PotentialAdd(rs: set<Run>, r: Run, policy: Policy)
    requires r !in rs
    ensures Potential(rs + {r}, policy) == Potential(rs, policy) + policy.Phi(r.length)
  {
    PotentialRemove(rs + {r}, r, policy);
    assert rs + {r} - {r} == rs;
  }

  /** Cut cost plus seats sold along a sequence of placements. */
  function Spent(moves: seq<Move>, policy: Policy): real {
    if moves == [] then 0.0
    else
      var rest := Spent(moves[1..], policy);
      match moves[0]
      case Place(host, offset, quantity) =>
        CutCost(policy, host.length, offset, host.length - quantity - offset, quantity) + quantity as real + rest
      case GiveBack(_, _, _) => rest
  }

  lemma PlacementSpends(rs: set<Run>, host: Run, offset: int, quantity: int, policy: Policy)
    requires Canonical(rs) && host in rs && quantity >= 1 && 0 <= offset && offset + quantity <= host.length
    ensures Potential(rs, policy) - Potential(OccupySet(rs, host, host.start + offset, quantity), policy)
         == CutCost(policy, host.length, offset, host.length - quantity - offset, quantity) + quantity as real
  {
    var start, rest := host.start + offset, rs - {host};
    var left := Run(host.block, host.start, offset);
    var right := Run(host.block, start + quantity, host.length - quantity - offset);
    PotentialRemove(rs, host, policy);
    assert left in rest ==> Apart(left, host);
    assert right in rest ==> Apart(right, host);
    var withLeft := if offset > 0 then rest + {left} else rest;
    if offset > 0 {
      PotentialAdd(rest, left, policy);
    }
    if right.length > 0 {
      PotentialAdd(withLeft, right, policy);
      assert OccupySet(rs, host, start, quantity) == withLeft + {right};
    } else {
      assert OccupySet(rs, host, start, quantity) == withLeft;
    }
  }

  /** Along any placement sequence the costs telescope to the drop in potential. */
  lemma {:induction false} CostsTelescope(rs: set<Run>, moves: seq<Move>, policy: Policy)
    requires policy.Valid() && Canonical(rs) && AllAllowed(rs, moves, policy)
    requires forall i :: 0 <= i < |moves| ==> moves[i].Place?
    ensures Spent(moves, policy) == Potential(rs, policy) - Potential(AfterAll(rs, moves), policy)
    decreases moves
  {
    if moves != [] {
      var m := moves[0];
      MoveKeepsCanonical(rs, m, policy);
      PlacementSpends(rs, m.host, m.offset, m.quantity, policy);
      CostsTelescope(After(rs, m), moves[1..], policy);
    }
  }
}
