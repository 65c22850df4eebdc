/** The three candidates per run are enough: no legal cut scores better than the one chosen. */
module SeatingOptimality {
  import opened Basics
  import opened RunSets
  import opened Seating
  import Sorting

  // ------------------------------------------------------------------ quality over positions

  lemma {:induction false} WindowAtRightEnd(geo: BlockGeometry, start: int, length: nat)
    ensures geo.WindowQuality(start, length + 1) == geo.WindowQuality(start, length) + geo.SeatQuality(start + length)
    decreases length
  {
    if length > 0 {
      WindowAtRightEnd(geo, start + 1, length - 1);
    }
  }

  lemma ScaleMonotone(d: real, x: real, y: real)
    requires d >= 0.0 && x <= y
    ensures d * x <= d * y
  {
  }

  /** The nearer seat is the better one. */
  lemma NearerIsBetter(geo: BlockGeometry, p: int, r: int)
    requires geo.Valid() && AbsReal(p as real - geo.Center()) <= AbsReal(r as real - geo.Center())
    ensures geo.SeatQuality(p) >= geo.SeatQuality(r)
  {
    ScaleMonotone(geo.decay, AbsReal(p as real - geo.Center()), AbsReal(r as real - geo.Center()));
  }

  lemma MirrorDistance(geo: BlockGeometry, start: int, length: nat)
    ensures 2 * start + length <= geo.capacity - 1
            ==> AbsReal((start + length) as real - geo.Center()) <= AbsReal(start as real - geo.Center())
    ensures 2 * start + length >= geo.capacity - 1
            ==> AbsReal((start + length) as real - geo.Center()) >= AbsReal(start as real - geo.Center())
  {
    assert geo.Center() * 2.0 == (geo.capacity - 1) as real;
  }

  /** Moving a window by one seat trades its first seat for the next one to the right. */
  lemma WindowShift(geo: BlockGeometry, start: int, length: nat)
    requires length >= 1
    ensures geo.WindowQuality(start + 1, length)
         == geo.WindowQuality(start, length) - geo.SeatQuality(start) + geo.SeatQuality(start + length)
  {
    WindowAtRightEnd(geo, start + 1, length - 1);
    assert start + 1 + (length - 1) == start + length;
  }

  lemma WindowStep(geo: BlockGeometry, start: int, length: nat)
    requires geo.Valid() && length >= 1
    ensures 2 * start + length <= geo.capacity - 1 ==> geo.WindowQuality(start, length) <= geo.WindowQuality(start + 1, length)
    ensures 2 * start + length >= geo.capacity - 1 ==> geo.WindowQuality(start, length) >= geo.WindowQuality(start + 1, length)
  {
    WindowShift(geo, start, length);
    MirrorDistance(geo, start, length);
    if 2 * start + length <= geo.capacity - 1 {
      NearerIsBetter(geo, start + length, start);
    }
    if 2 * start + length >= geo.capacity - 1 {
      NearerIsBetter(geo, start, start + length);
    }
  }

  lemma IdealStartIsCentred(geo: BlockGeometry, length: int)
    ensures -1 <= 2 * geo.IdealStart(length) - (geo.capacity - length) <= 1
  {
    var x := geo.Center() - (length - 1) as real / 2.0;
    assert x == (geo.capacity - length) as real / 2.0;
  }

  lemma {:induction false} RisesToIdeal(geo: BlockGeometry, length: nat, s: int, t: int)
    requires geo.Valid() && length >= 1 && s <= t <= geo.IdealStart(length)
    ensures geo.WindowQuality(s, length) <= geo.WindowQuality(t, length)
    decreases t - s
  {
    if s < t {
      IdealStartIsCentred(geo, length);
      WindowStep(geo, s, length);
      RisesToIdeal(geo, length, s + 1, t);
    }
  }

  lemma {:induction false} FallsFromIdeal(geo: BlockGeometry, length: nat, s: int, t: int)
    requires geo.Valid() && length >= 1 && geo.IdealStart(length) <= s <= t
    ensures geo.WindowQuality(s, length) >= geo.WindowQuality(t, length)
    decreases t - s
  {
    if s < t {
      IdealStartIsCentred(geo, length);
      WindowStep(geo, t - 1, length);
      FallsFromIdeal(geo, length, s, t - 1);
    }
  }

  // ------------------------------------------------------------------ clamp instead of enumeration

  /** Cuts with at least two seats on either side all cost nothing. */
  lemma MiddleCutsAreFree(policy: Policy, left: int, right: int, taken: int)
    requires left >= 2 && right >= 2 && taken >= 1
    ensures CutCost(policy, left + taken + right, left, right, taken) == 0.0
  {
  }

  lemma ClampBeatsTheWindow(run: Run, quantity: int, geo: BlockGeometry, policy: Policy, offset: int)
    requires geo.Valid() && quantity >= 1
    requires policy.MidLo() <= offset <= run.length - quantity - policy.MidLo()
    ensures PlacementAt(run, offset, quantity, geo, policy).score
            <= PlacementAt(run, ClampedOffset(run, quantity, geo, policy), quantity, geo, policy).score
  {
    var best := ClampedOffset(run, quantity, geo, policy);
    MiddleCutsAreFree(policy, offset, run.length - quantity - offset, quantity);
    MiddleCutsAreFree(policy, best, run.length - quantity - best, quantity);
    var ideal := geo.IdealStart(quantity);
    if ideal <= run.start + best {
      if run.start + best <= run.start + offset {
        FallsFromIdeal(geo, quantity, run.start + best, run.start + offset);
      } else {
        assert best == policy.MidLo() || run.start + best == ideal;
        RisesToIdeal(geo, quantity, run.start + offset, run.start + best);
      }
    } else {
      RisesToIdeal(geo, quantity, run.start + offset, run.start + best);
    }
  }

  lemma CandidatesBeatLegalOffsets(run: Run, quantity: int, geo: BlockGeometry, policy: Policy, offset: int)
    requires geo.Valid() && LegalOffset(run, quantity, policy, offset)
    ensures exists c :: c in Candidates(run, quantity, geo, policy)
                        && PlacementAt(run, offset, quantity, geo, policy).score <= c.score
  {
    var tail := run.length - quantity;
    var here := PlacementAt(run, offset, quantity, geo, policy);
    if (offset == 0 || offset == tail) && (tail == 0 || tail >= policy.minRun) {
      assert here in Candidates(run, quantity, geo, policy);
    } else {
      ClampBeatsTheWindow(run, quantity, geo, policy, offset);
      assert PlacementAt(run, ClampedOffset(run, quantity, geo, policy), quantity, geo, policy)
          in Candidates(run, quantity, geo, policy);
    }
  }

  /** `Allocate` returns a legal placement whose score is the maximum over every legal offset of
      every run, and returns nothing exactly when no legal offset exists. */
  lemma AllocateIsOptimal(runs: seq<Run>, quantity: int, geometry: map<int, BlockGeometry>, policy: Policy, best: Option<Placement>)
    requires GeometryFor(runs, geometry)
    requires best == FirstOf(LegalAnchors(runs, quantity, geometry, policy))
    ensures best.None? <==> forall i, offset :: 0 <= i < |runs| ==> !LegalOffset(runs[i], quantity, policy, offset)
    ensures best.Some? ==> exists i, offset ::
              0 <= i < |runs| && LegalOffset(runs[i], quantity, policy, offset)
              && best.value == PlacementAt(runs[i], offset, quantity, geometry[runs[i].block], policy)
    ensures best.Some? ==> forall i, offset ::
              0 <= i < |runs| && LegalOffset(runs[i], quantity, policy, offset)
              ==> PlacementAt(runs[i], offset, quantity, geometry[runs[i].block], policy).score <= best.value.score
  {
    var cands := AllCandidates(runs, quantity, geometry, policy);
    Sorting.SortKeepsElements(cands, RanksBefore);
    if cands != [] {
      RankingIsTotal();
      Sorting.HeadRanksFirst(cands, RanksBefore);
      CandidateComesFromARun(runs, quantity, geometry, policy, best.value);
      var i :| 0 <= i < |runs| && best.value in Candidates(runs[i], quantity, geometry[runs[i].block], policy);
      CandidateIsLegal(runs[i], quantity, geometry[runs[i].block], policy, best.value);
    }
    forall i, offset | 0 <= i < |runs| && LegalOffset(runs[i], quantity, policy, offset)
      ensures best.Some?
      ensures PlacementAt(runs[i], offset, quantity, geometry[runs[i].block], policy).score <= best.value.score
    {
      var geo := geometry[runs[i].block];
      CandidatesBeatLegalOffsets(runs[i], quantity, geo, policy, offset);
      var c :| c in Candidates(runs[i], quantity, geo, policy)
               && PlacementAt(runs[i], offset, quantity, geo, policy).score <= c.score;
      CandidateComesFromARun(runs, quantity, geometry, policy, c);
      assert c in cands;
    }
  }

  // ------------------------------------------------------------------ order of the run list

  /** The whole suggestion list, and so the allocation, does not depend on the order in which the
      runs are read from the hash. */
  lemma AnchorsIgnoreOrder(runs: seq<Run>, shuffled: seq<Run>, quantity: int, geometry: map<int, BlockGeometry>, policy: Policy)
    requires GeometryFor(runs, geometry) && GeometryFor(shuffled, geometry)
    requires multiset(runs) == multiset(shuffled)
    ensures LegalAnchors(runs, quantity, geometry, policy) == LegalAnchors(shuffled, quantity, geometry, policy)
  {
    var a, b := AllCandidates(runs, quantity, geometry, policy), AllCandidates(shuffled, quantity, geometry, policy);
    Sorting.FlatMapIgnoresOrder(runs, shuffled, CandidatesIn(quantity, geometry, policy));
    RankingIsTotal();
    Sorting.SortPermutes(a, RanksBefore);
    Sorting.SortPermutes(b, RanksBefore);
    Sorting.SortSorts(a, RanksBefore);
    Sorting.SortSorts(b, RanksBefore);
    Sorting.SortKeepsElements(a, RanksBefore);
    CandidatesHaveLength(runs, quantity, geometry, policy);
    Sorting.SortedIsUnique(Sorting.Sort(a, RanksBefore), Sorting.Sort(b, RanksBefore), RanksBefore);
  }

  // ------------------------------------------------------------------ which order sizes fit

  /** An order size is offered exactly when it is within the limit and `Allocate` would place it. */
  lemma FeasibleMeansAllocatable(runs: seq<Run>, geometry: map<int, BlockGeometry>, maxOrder: nat, n: int, policy: Policy)
    requires GeometryFor(runs, geometry)
    ensures n in FeasibleQuantities(runs, geometry, maxOrder, policy)
            <==> 1 <= n <= maxOrder && FirstOf(LegalAnchors(runs, n, geometry, policy)).Some?
  {
    var cands := AllCandidates(runs, n, geometry, policy);
    var f := CandidatesIn(n, geometry, policy);
    Sorting.SortKeepsElements(cands, RanksBefore);
    if FitsSomewhere(runs, geometry, n, policy) {
      var i :| 0 <= i < |runs| && f(runs[i]) != [];
      Sorting.InFlatMap(runs, f, f(runs[i])[0]);
    }
    if cands != [] {
      Sorting.InFlatMap(runs, f, cands[0]);
    }
  }

  /** In the normal phase a run of length L serves exactly {L} and [1, L - 2]; near the end of the
      sale it serves exactly [1, L]. */
  lemma SizesARunServes(run: Run, n: int, geo: BlockGeometry)
    ensures Candidates(run, n, geo, NORMAL_POLICY) != [] <==> n >= 1 && (n == run.length || n <= run.length - 2)
    ensures Candidates(run, n, geo, ENDGAME_POLICY) != [] <==> 1 <= n <= run.length
  {
    CandidateExists(run, n, geo, NORMAL_POLICY);
    CandidateExists(run, n, geo, ENDGAME_POLICY);
  }

  /** Switching a zone to the end-of-sale policy never withdraws an order size. */
  lemma RatchetOnlyAdds(runs: seq<Run>, geometry: map<int, BlockGeometry>, maxOrder: nat, n: int)
    requires GeometryFor(runs, geometry)
    requires n in FeasibleQuantities(runs, geometry, maxOrder, NORMAL_POLICY)
    ensures n in FeasibleQuantities(runs, geometry, maxOrder, ENDGAME_POLICY)
  {
    var i :| 0 <= i < |runs| && CandidatesIn(n, geometry, NORMAL_POLICY)(runs[i]) != [];
    SizesARunServes(runs[i], n, geometry[runs[i].block]);
    assert CandidatesIn(n, geometry, ENDGAME_POLICY)(runs[i]) != [];
  }

  // ------------------------------------------------------------------ calibration

  lemma HalfOf(n: nat)
    ensures (n as real / 2.0).Floor == n / 2
    ensures n as real / 2.0 - (n / 2) as real == if n % 2 == 0 then 0.0 else 0.5
  {
    assert n == 2 * (n / 2) + n % 2;
    assert n as real / 2.0 == (n / 2) as real + (n % 2) as real / 2.0;
  }

  lemma CentreOfBlock(capacity: int, pos: int)
    requires capacity >= 1 && 0 <= pos < capacity
    ensures var center := (capacity - 1) as real / 2.0;
            var nearest := center - center.Floor as real;
            && nearest <= AbsReal(pos as real - center) <= center
            && 0.0 <= center - nearest
            && (center == nearest <==> capacity <= 2)
            && (pos == (capacity - 1) / 2 ==> AbsReal(pos as real - center) == nearest)
            && (pos == 0 || pos == capacity - 1 ==> AbsReal(pos as real - center) == center)
  {
    HalfOf(capacity - 1);
    var center := (capacity - 1) as real / 2.0;
    var k := (capacity - 1) / 2;
    assert pos <= k || pos >= k + 1;
    assert 2.0 * center == (capacity - 1) as real;
  }

  lemma CalibratedQuality(geo: BlockGeometry, base: real, pos: int, nearest: real, beyond: real)
    requires geo.base == base + geo.decay * nearest
    requires beyond == AbsReal(pos as real - geo.Center()) - nearest
    ensures geo.SeatQuality(pos) == base - geo.decay * beyond
  {
    var dist := AbsReal(pos as real - geo.Center());
    assert geo.decay * beyond == geo.decay * dist - geo.decay * nearest;
  }

  lemma DecayTimesSpan(blockId: int, capacity: int, base: real, edge: real)
    requires capacity >= 1 && edge <= base
    ensures var center := (capacity - 1) as real / 2.0;
            var span := center - (center - center.Floor as real);
            var geo := Calibrated(blockId, capacity, base, edge);
            && (span == 0.0 ==> geo.decay == 0.0)
            && (span > 0.0 ==> geo.decay >= 0.0 && geo.decay * span == base - edge)
  {
    var center := (capacity - 1) as real / 2.0;
    var span := center - (center - center.Floor as real);
    if span > 0.0 {
      QuotientSign(base - edge, span);
    }
  }

  lemma QuotientSign(x: real, y: real)
    requires x >= 0.0 && y > 0.0
    ensures x / y >= 0.0 && (x / y) * y == x
  {
  }

  lemma BetweenEdgeAndBase(base: real, edge: real, decay: real, beyond: real, span: real)
    requires decay >= 0.0 && 0.0 <= beyond <= span && decay * span == base - edge
    ensures edge <= base - decay * beyond <= base
  {
    ScaleMonotone(decay, 0.0, beyond);
    ScaleMonotone(decay, beyond, span);
  }

  /** With the qualities the seat map allows, calibration gives a valid (single-peaked) geometry in
      which every seat of the block scores between `edge` and `base`, both of them reached. */
  lemma CalibrationStaysInRange(blockId: int, capacity: int, base: real, edge: real, pos: int)
    requires capacity >= 1 && 0.0 <= edge <= base <= 1.0 && 0 <= pos < capacity
    ensures Calibrated(blockId, capacity, base, edge).Valid()
    ensures edge <= Calibrated(blockId, capacity, base, edge).SeatQuality(pos) <= base
    ensures pos == (capacity - 1) / 2 ==> Calibrated(blockId, capacity, base, edge).SeatQuality(pos) == base
    ensures capacity > 2 && (pos == 0 || pos == capacity - 1)
            ==> Calibrated(blockId, capacity, base, edge).SeatQuality(pos) == edge
  {
    var center := (capacity - 1) as real / 2.0;
    var nearest := center - center.Floor as real;
    var geo := Calibrated(blockId, capacity, base, edge);
    var span, beyond := center - nearest, AbsReal(pos as real - center) - nearest;
    CentreOfBlock(capacity, pos);
    CalibratedQuality(geo, base, pos, nearest, beyond);
    DecayTimesSpan(blockId, capacity, base, edge);
    if span > 0.0 {
      BetweenEdgeAndBase(base, edge, geo.decay, beyond, span);
    }
  }
}
