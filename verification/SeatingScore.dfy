/** What a score means: the seats' own quality against what the rest of the zone can still sell. */
module SeatingScore {
  import opened Basics
  import opened RunSets
  import opened Seating
  import opened SeatingOptimality
  import opened SeatingPotential
  import Sorting

  // ------------------------------------------------------------------ quality

  /** The distance of a seat from the centre of its block, in half seats. */
  function HalfSeatsOff(geo: BlockGeometry, pos: int): int {
    if 2 * pos >= geo.capacity - 1 then 2 * pos - (geo.capacity - 1) else geo.capacity - 1 - 2 * pos
  }

  /** Every half seat away from the centre costs half a decay. */
  lemma QualityFallsEvenly(geo: BlockGeometry, pos: int)
    ensures geo.SeatQuality(pos) == geo.base - geo.decay * (HalfSeatsOff(geo, pos) as real / 2.0)
  {
    assert AbsReal(pos as real - geo.Center()) == HalfSeatsOff(geo, pos) as real / 2.0;
  }

  /** The seats of a window, one by one. */
  function Qualities(geo: BlockGeometry, start: int, length: nat): seq<real> {
    seq(length, k requires 0 <= k < length => geo.base - geo.decay * (HalfSeatsOff(geo, start + k) as real / 2.0))
  }

  function Total(xs: seq<real>): real {
    if xs == [] then 0.0 else Total(xs[..|xs| - 1]) + xs[|xs| - 1]
  }

  /** The quality of a window is that of its seats taken together. */
  lemma {:induction false} WindowIsItsSeats(geo: BlockGeometry, start: int, length: nat)
    ensures geo.WindowQuality(start, length) == Total(Qualities(geo, start, length))
    decreases length
  {
    if length > 0 {
      var xs := Qualities(geo, start, length);
      WindowIsItsSeats(geo, start, length - 1);
      assert xs[..|xs| - 1] == Qualities(geo, start, length - 1);
      WindowAtRightEnd(geo, start, length - 1);
      QualityFallsEvenly(geo, start + length - 1);
    }
  }

  lemma HalvesRoundToEven(n: int)
    ensures RoundHalfEven(n as real / 2.0) == if n % 2 == 0 || (n / 2) % 2 == 0 then n / 2 else n / 2 + 1
  {
    var half, odd := n / 2, n % 2;
    assert n == 2 * half + odd;
    var x := n as real / 2.0;
    assert x == half as real + odd as real / 2.0;
    assert x.Floor == half;
  }

  lemma IdealStartRounds(geo: BlockGeometry, length: int)
    ensures geo.IdealStart(length) == RoundHalfEven((geo.capacity - length) as real / 2.0)
  {
    assert geo.Center() - (length - 1) as real / 2.0 == (geo.capacity - length) as real / 2.0;
    hide RoundHalfEven;
  }

  /** The ideal start is the symmetric one, or of the two nearest the even one. */
  lemma IdealStartIsSymmetric(geo: BlockGeometry, length: int)
    ensures var ideal := geo.IdealStart(length);
      if (geo.capacity - length) % 2 == 0 then 2 * ideal == geo.capacity - length
      else ideal % 2 == 0 && (2 * ideal == geo.capacity - length - 1 || 2 * ideal == geo.capacity - length + 1)
  {
    IdealStartRounds(geo, length);
    hide RoundHalfEven;
    HalvesRoundToEven(geo.capacity - length);
  }

  /** The middle cut that is tried is the one of its window nearest the ideal start. */
  lemma ClampIsNearest(run: Run, quantity: int, geo: BlockGeometry, policy: Policy, offset: int)
    requires policy.MidLo() <= offset <= run.length - quantity - policy.MidLo()
    ensures var best := ClampedOffset(run, quantity, geo, policy); var ideal := geo.IdealStart(quantity) - run.start;
      && policy.MidLo() <= best <= run.length - quantity - policy.MidLo()
      && (if best >= ideal then best - ideal else ideal - best) <= (if offset >= ideal then offset - ideal else ideal - offset)
  {
  }

  // ------------------------------------------------------------------ legality and cost, in numbers

  /** A cut is legal when it is flush with an end of the run and leaves nothing or enough, or leaves
      enough on both sides where middle cuts are on. */
  lemma LegalCutsLeaveEnough(run: Run, quantity: int, policy: Policy, left: int, right: int)
    requires left + quantity + right == run.length
    ensures LegalOffset(run, quantity, policy, left) <==>
      && quantity >= 1 && left + right >= 0
      && (|| (left == 0 && (right == 0 || right >= policy.minRun))
          || (right == 0 && left >= policy.minRun)
          || (policy.allowMidCut && left >= 2 && right >= 2 && left >= policy.midCutGuard && right >= policy.midCutGuard))
  {
  }

  /** The normal policy forbids exactly the end cuts that leave a single seat, the one for the end of the sale none of them. */
  lemma LegalInPractice(run: Run, quantity: int, left: int, right: int)
    requires left + quantity + right == run.length
    ensures LegalOffset(run, quantity, NORMAL_POLICY, left)
       <==> quantity >= 1 && left >= 0 && right >= 0 && (left == 0 || right == 0) && left != 1 && right != 1
    ensures LegalOffset(run, quantity, ENDGAME_POLICY, left)
       <==> quantity >= 1 && left >= 0 && right >= 0 && (left == 0 || right == 0)
  {
  }

  /** What a cut costs: each single seat it leaves costs its expected loss, and a single seat that is sold earns it. */
  lemma CostCountsSingles(policy: Policy, left: nat, right: nat, taken: nat)
    requires taken >= 1
    ensures CutCost(policy, left + taken + right, left, right, taken)
         == (1.0 - policy.orphanValue) * (Bit(left == 1) + Bit(right == 1) - Bit(left + taken + right == 1)) as real
  {
  }

  // ------------------------------------------------------------------ the score

  /** A placement's score is the quality of its seats less the weighted potential the zone loses beyond the seats sold. */
  lemma ScoreIsQualityLessLoss(rs: set<Run>, host: Run, offset: int, quantity: int, geo: BlockGeometry, policy: Policy)
    requires Canonical(rs) && host in rs && quantity >= 1 && 0 <= offset && offset + quantity <= host.length
    ensures var p := PlacementAt(host, offset, quantity, geo, policy);
      && (p.block, p.start, p.length) == (host.block, host.start + offset, quantity)
      && p.score == Total(Qualities(geo, host.start + offset, quantity))
           - policy.fragmentationWeight
             * (Potential(rs, policy) - Potential(OccupySet(rs, host, host.start + offset, quantity), policy) - quantity as real)
  {
    hide OccupySet, Canonical, Potential, Total, Qualities, CutCost;
    WindowIsItsSeats(geo, host.start + offset, quantity);
    PlacementSpends(rs, host, offset, quantity, policy);
    hide Hosts;
    assert CutCost(policy, host.length, offset, host.length - quantity - offset, quantity)
        == Potential(rs, policy) - Potential(OccupySet(rs, host, host.start + offset, quantity), policy) - quantity as real;
  }

  /** What a placement keeps: the quality of its seats, and the potential of the zone without them. */
  ghost function Worth(rs: set<Run>, host: Run, offset: int, quantity: nat, geo: BlockGeometry, policy: Policy): real {
    Kept(Total(Qualities(geo, host.start + offset, quantity)), policy.fragmentationWeight,
         Potential(OccupySet(rs, host, host.start + offset, quantity), policy))
  }

  function Kept(quality: real, weight: real, left: real): real {
    quality + weight * left
  }

  function Lost(weight: real, before: real, sold: real): real {
    weight * (before - sold)
  }

  function Scored(quality: real, weight: real, before: real, left: real, sold: real): real {
    quality - weight * (before - left - sold)
  }

  lemma ScoredIsKeptLessLost(quality: real, weight: real, before: real, left: real, sold: real)
    ensures Scored(quality, weight, before, left, sold) == Kept(quality, weight, left) - Lost(weight, before, sold)
  {
    assert weight * (before - left - sold) == weight * (before - sold) - weight * left;
  }

  lemma ScoreIsScored(rs: set<Run>, host: Run, offset: int, quantity: int, geo: BlockGeometry, policy: Policy)
    requires Canonical(rs) && host in rs && quantity >= 1 && 0 <= offset && offset + quantity <= host.length
    ensures PlacementAt(host, offset, quantity, geo, policy).score
         == Scored(Total(Qualities(geo, host.start + offset, quantity)), policy.fragmentationWeight, Potential(rs, policy),
                   Potential(OccupySet(rs, host, host.start + offset, quantity), policy), quantity as real)
  {
    hide OccupySet, Canonical, Potential, Total, Qualities, PlacementAt;
    ScoreIsQualityLessLoss(rs, host, offset, quantity, geo, policy);
  }

  /** In one zone, for one order size, scores and worths differ by a constant. */
  lemma ScoreIsWorth(rs: set<Run>, host: Run, offset: int, quantity: int, geo: BlockGeometry, policy: Policy)
    requires Canonical(rs) && host in rs && quantity >= 1 && 0 <= offset && offset + quantity <= host.length
    ensures PlacementAt(host, offset, quantity, geo, policy).score
         == Worth(rs, host, offset, quantity, geo, policy) - Lost(policy.fragmentationWeight, Potential(rs, policy), quantity as real)
  {
    hide OccupySet, Canonical, Potential, Total, Qualities, PlacementAt, Kept, Lost, Scored;
    ScoreIsScored(rs, host, offset, quantity, geo, policy);
    ScoredIsKeptLessLost(
      Total(Qualities(geo, host.start + offset, quantity)), policy.fragmentationWeight, Potential(rs, policy),
      Potential(OccupySet(rs, host, host.start + offset, quantity), policy), quantity as real);
  }

  lemma LegalIsInside(host: Run, quantity: int, policy: Policy, offset: int)
    requires LegalOffset(host, quantity, policy, offset)
    ensures quantity >= 1 && 0 <= offset && offset + quantity <= host.length
  {
  }

  lemma BetterScoreKeepsMore(rs: set<Run>, r: Run, k: int, h: Run, j: int, quantity: int, geometry: map<int, BlockGeometry>, policy: Policy)
    requires Canonical(rs) && r in rs && h in rs && r.block in geometry && h.block in geometry
    requires LegalOffset(r, quantity, policy, k) && LegalOffset(h, quantity, policy, j) && quantity >= 1
    ensures PlacementAt(r, k, quantity, geometry[r.block], policy).score <= PlacementAt(h, j, quantity, geometry[h.block], policy).score
       <==> Worth(rs, r, k, quantity, geometry[r.block], policy) <= Worth(rs, h, j, quantity, geometry[h.block], policy)
  {
    LegalIsInside(r, quantity, policy, k);
    LegalIsInside(h, quantity, policy, j);
    hide *;
    ScoreIsWorth(rs, r, k, quantity, geometry[r.block], policy);
    ScoreIsWorth(rs, h, j, quantity, geometry[h.block], policy);
  }

  lemma BestIsOneOfTheCuts(runs: seq<Run>, quantity: int, geometry: map<int, BlockGeometry>, policy: Policy, best: Option<Placement>)
    returns (host: Run, offset: int)
    requires GeometryFor(runs, geometry) && best == FirstOf(LegalAnchors(runs, quantity, geometry, policy)) && best.Some?
    ensures host in runs && LegalOffset(host, quantity, policy, offset) && quantity >= 1
    ensures best.value == PlacementAt(host, offset, quantity, geometry[host.block], policy)
    ensures forall r, k :: r in runs && LegalOffset(r, quantity, policy, k) ==>
              PlacementAt(r, k, quantity, geometry[r.block], policy).score <= best.value.score
  {
    AllocateIsOptimal(runs, quantity, geometry, policy, best);
    hide LegalAnchors, PlacementAt;
    var i: int;
    i, offset :| 0 <= i < |runs| && LegalOffset(runs[i], quantity, policy, offset)
      && best.value == PlacementAt(runs[i], offset, quantity, geometry[runs[i].block], policy);
    host := runs[i];
    forall r, k | r in runs && LegalOffset(r, quantity, policy, k)
      ensures PlacementAt(r, k, quantity, geometry[r.block], policy).score <= best.value.score
    {
      var j :| 0 <= j < |runs| && runs[j] == r;
    }
  }

  /** `allocate` picks, of all permitted cuts in the zone, one that keeps the most: best seats sold plus most left to sell. */
  lemma AllocateKeepsTheMost(runs: seq<Run>, quantity: int, geometry: map<int, BlockGeometry>, policy: Policy, best: Option<Placement>)
    returns (host: Run, offset: int)
    requires GeometryFor(runs, geometry) && Canonical(RunSet(runs))
    requires best == FirstOf(LegalAnchors(runs, quantity, geometry, policy)) && best.Some?
    ensures quantity >= 1 && host in runs && LegalOffset(host, quantity, policy, offset)
    ensures (best.value.block, best.value.start, best.value.length) == (host.block, host.start + offset, quantity)
    ensures forall r, k :: r in runs && LegalOffset(r, quantity, policy, k) ==>
              Worth(RunSet(runs), r, k, quantity, geometry[r.block], policy)
              <= Worth(RunSet(runs), host, offset, quantity, geometry[host.block], policy)
  {
    assert forall r :: r in runs ==> r in RunSet(runs) && r.block in geometry;
    host, offset := BestIsOneOfTheCuts(runs, quantity, geometry, policy, best);
    PlacementIsThere(host, offset, quantity, geometry[host.block], policy);
    hide *;
    forall r, k | r in runs && LegalOffset(r, quantity, policy, k)
      ensures Worth(RunSet(runs), r, k, quantity, geometry[r.block], policy)
           <= Worth(RunSet(runs), host, offset, quantity, geometry[host.block], policy)
    {
      BetterScoreKeepsMore(RunSet(runs), r, k, host, offset, quantity, geometry, policy);
    }
  }

  lemma PlacementIsThere(host: Run, offset: int, quantity: int, geo: BlockGeometry, policy: Policy)
    ensures var p := PlacementAt(host, offset, quantity, geo, policy); (p.block, p.start, p.length) == (host.block, host.start + offset, quantity)
  {
  }

  // ------------------------------------------------------------------ single seats first

  /** A single free seat beats a cut that leaves no single seat exactly while the quality given up is below the threshold. */
  lemma OrphanBeatsCleanCut(policy: Policy, orphan: Run, ogeo: BlockGeometry, run: Run, geo: BlockGeometry, offset: int)
    requires orphan.length == 1 && run.length >= 2 && 0 <= offset < run.length
    requires offset != 1 && run.length - 1 - offset != 1
    ensures PlacementAt(run, offset, 1, geo, policy).score < PlacementAt(orphan, 0, 1, ogeo, policy).score
       <==> geo.SeatQuality(run.start + offset) - ogeo.SeatQuality(orphan.start) < policy.fragmentationWeight * (1.0 - policy.orphanValue)
  {
    CostCountsSingles(policy, 0, 0, 1);
    CostCountsSingles(policy, offset, run.length - 1 - offset, 1);
    WindowAtRightEnd(geo, run.start + offset, 0);
    WindowAtRightEnd(ogeo, orphan.start, 0);
    var loss := 1.0 - policy.orphanValue;
    assert CutCost(policy, 1, 0, 0, 1) == -loss;
    assert PlacementAt(orphan, 0, 1, ogeo, policy).score == ogeo.SeatQuality(orphan.start) - policy.fragmentationWeight * (-loss);
    assert policy.fragmentationWeight * (-loss) == -(policy.fragmentationWeight * loss);
  }

  /** A buyer of one ticket is given a single free seat as soon as one lies within the threshold of every clean cut. */
  lemma SinglesFillOrphans(runs: seq<Run>, geometry: map<int, BlockGeometry>, policy: Policy, orphan: Run, best: Option<Placement>)
    requires GeometryFor(runs, geometry) && policy.Valid() && policy.minRun >= 2 && orphan in runs && orphan.length == 1
    requires best == FirstOf(LegalAnchors(runs, 1, geometry, policy))
    requires forall r, k :: r in runs && r.length >= 2 && LegalOffset(r, 1, policy, k) ==>
      geometry[r.block].SeatQuality(r.start + k) - geometry[orphan.block].SeatQuality(orphan.start)
        < policy.fragmentationWeight * (1.0 - policy.orphanValue)
    ensures best.Some? && exists r :: r in runs && r.length == 1 && r.block == best.value.block && r.start == best.value.start
  {
    AllocateIsOptimal(runs, 1, geometry, policy, best);
    var o :| 0 <= o < |runs| && runs[o] == orphan;
    assert LegalOffset(runs[o], 1, policy, 0);
    var i, k :| 0 <= i < |runs| && LegalOffset(runs[i], 1, policy, k)
      && best.value == PlacementAt(runs[i], k, 1, geometry[runs[i].block], policy);
    if runs[i].length >= 2 {
      var r := runs[i];
      LegalCutsLeaveEnough(r, 1, policy, k, r.length - 1 - k);
      OrphanBeatsCleanCut(policy, orphan, geometry[orphan.block], r, geometry[r.block], k);
      assert false;
    }
    assert runs[i].length == 1;
  }

  /** With the numbers in use, up to 1.05 of a seat's quality is given up for it. */
  lemma ThresholdInPractice(orphan: Run, ogeo: BlockGeometry, run: Run, geo: BlockGeometry, offset: int)
    requires orphan.length == 1 && run.length >= 2 && LegalOffset(run, 1, NORMAL_POLICY, offset)
    ensures PlacementAt(run, offset, 1, geo, NORMAL_POLICY).score < PlacementAt(orphan, 0, 1, ogeo, NORMAL_POLICY).score
       <==> geo.SeatQuality(run.start + offset) - ogeo.SeatQuality(orphan.start) < 1.05
  {
    LegalInPractice(run, 1, offset, run.length - 1 - offset);
    OrphanBeatsCleanCut(NORMAL_POLICY, orphan, ogeo, run, geo, offset);
  }
}
