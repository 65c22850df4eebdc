/** The placement algorithm: which seats of a zone an order gets.

    Scores are exact reals here; the program computes them in binary floating point.
 */
module Seating {
  import opened Basics
  import opened RunSets
  import Sorting

  // ------------------------------------------------------------------ policy and geometry

  datatype Policy = Policy(
    minRun: int,
    allowMidCut: bool,
    midCutGuard: int,
    orphanValue: real,
    fragmentationWeight: real
  ) {
    predicate Valid() {
      minRun >= 1 && midCutGuard >= 1 && 0.0 <= orphanValue <= 1.0 && fragmentationWeight >= 0.0
    }

    /** Least remainder on either side of a cut in the middle of a run. */
    function MidLo(): int {
      MaxInt(2, midCutGuard)
    }

    /** How many seats a free run of this length is expected to sell in the end. */
    function Phi(length: int): real {
      if length == 0 then 0.0 else if length == 1 then orphanValue else length as real
    }
  }

  const NORMAL_POLICY := Policy(2, false, 4, 0.3, 1.5)
  const ENDGAME_POLICY := Policy(1, false, 4, 0.3, 1.5)

  datatype BlockGeometry = BlockGeometry(blockId: int, capacity: int, base: real, decay: real) {
    predicate Valid() {
      capacity >= 1 && decay >= 0.0
    }

    function Center(): real {
      (capacity - 1) as real / 2.0
    }

    function SeatQuality(pos: int): real {
      base - decay * AbsReal(pos as real - Center())
    }

    function WindowQuality(start: int, length: int): real
      decreases length
    {
      if length <= 0 then 0.0 else SeatQuality(start) + WindowQuality(start + 1, length - 1)
    }

    /** First seat of a window of this length placed symmetrically over the centre. */
    function IdealStart(length: int): int {
      RoundHalfEven(Center() - (length - 1) as real / 2.0)
    }
  }

  /** Geometry whose middle seat scores `base` and whose outermost seat scores `edge`. */
  function Calibrated(blockId: int, capacity: int, base: real, edge: real): BlockGeometry
    requires capacity >= 1
  {
    var center := (capacity - 1) as real / 2.0;
    var nearest := center - center.Floor as real;
    var span := center - nearest;
    var decay := if span == 0.0 then 0.0 else (base - edge) / span;
    BlockGeometry(blockId, capacity, base + decay * nearest, decay)
  }

  // ------------------------------------------------------------------ placements and candidates

  datatype Placement = Placement(block: int, start: int, length: int, score: real)

  /** Potential lost by a cut beyond the seats it sells. */
  function CutCost(policy: Policy, runLength: int, left: int, right: int, taken: int): real {
    policy.Phi(runLength) - policy.Phi(left) - policy.Phi(right) - taken as real
  }

  function PlacementAt(run: Run, offset: int, quantity: int, geo: BlockGeometry, policy: Policy): Placement {
    Placement(
      run.block, run.start + offset, quantity,
      geo.WindowQuality(run.start + offset, quantity)
      - policy.fragmentationWeight * CutCost(policy, run.length, offset, run.length - quantity - offset, quantity))
  }

  /** The offset tried inside the middle window `[lo, hi]`: the ideal one, pushed into the window. */
  function ClampedOffset(run: Run, quantity: int, geo: BlockGeometry, policy: Policy): int {
    MinInt(MaxInt(geo.IdealStart(quantity) - run.start, policy.MidLo()), run.length - quantity - policy.MidLo())
  }

  function Candidates(run: Run, quantity: int, geo: BlockGeometry, policy: Policy): seq<Placement> {
    var tail := run.length - quantity;
    if quantity < 1 || tail < 0 then []
    else
      (if tail == 0 || tail >= policy.minRun then
         [PlacementAt(run, 0, quantity, geo, policy)]
         + (if tail > 0 then [PlacementAt(run, tail, quantity, geo, policy)] else [])
       else [])
      + (if policy.allowMidCut && policy.MidLo() <= tail - policy.MidLo() then
           [PlacementAt(run, ClampedOffset(run, quantity, geo, policy), quantity, geo, policy)]
         else [])
  }

  predicate GeometryFor(runs: seq<Run>, geometry: map<int, BlockGeometry>) {
    forall r :: r in runs ==> r.block in geometry && geometry[r.block].Valid()
  }

  function CandidatesIn(quantity: int, geometry: map<int, BlockGeometry>, policy: Policy): Run -> seq<Placement> {
    (r: Run) => if r.block in geometry then Candidates(r, quantity, geometry[r.block], policy) else []
  }

  function AllCandidates(runs: seq<Run>, quantity: int, geometry: map<int, BlockGeometry>, policy: Policy): seq<Placement>
    requires GeometryFor(runs, geometry)
  {
    Sorting.FlatMap(runs, CandidatesIn(quantity, geometry, policy))
  }

  /** Higher score first, then lower block, then lower seat. */
  predicate RanksBefore(a: Placement, b: Placement) {
    || a.score > b.score
    || (a.score == b.score && (a.block < b.block || (a.block == b.block && a.start <= b.start)))
  }

  function LegalAnchors(runs: seq<Run>, quantity: int, geometry: map<int, BlockGeometry>, policy: Policy): seq<Placement>
    requires GeometryFor(runs, geometry)
  {
    Sorting.Sort(AllCandidates(runs, quantity, geometry, policy), RanksBefore)
  }

  function FirstOf<T>(s: seq<T>): Option<T> {
    if s == [] then None else Some(s[0])
  }

  predicate FitsSomewhere(runs: seq<Run>, geometry: map<int, BlockGeometry>, n: int, policy: Policy) {
    exists i :: 0 <= i < |runs| && CandidatesIn(n, geometry, policy)(runs[i]) != []
  }

  /** The order sizes up to `maxOrder` that can be placed now, in increasing order. */
  function FeasibleQuantities(runs: seq<Run>, geometry: map<int, BlockGeometry>, maxOrder: nat, policy: Policy): seq<int> {
    Sorting.Select(maxOrder, n => FitsSomewhere(runs, geometry, n, policy))
  }

  // ------------------------------------------------------------------ the search loop

  /** `best` ranks no later than any of `cands`, and is missing only when there are none. */
  ghost predicate BestOf(best: Option<Placement>, cands: seq<Placement>) {
    match best
    case None => cands == []
    case Some(b) => b in cands && forall c :: c in cands ==> RanksBefore(b, c)
  }

  lemma RankingIsTotal()
    ensures Sorting.Ranking(RanksBefore)
  {
  }

  lemma CandidatesOfPrefix(runs: seq<Run>, i: nat, quantity: int, geometry: map<int, BlockGeometry>, policy: Policy)
    requires GeometryFor(runs, geometry) && i < |runs|
    ensures AllCandidates(runs[..i + 1], quantity, geometry, policy)
         == AllCandidates(runs[..i], quantity, geometry, policy)
            + Candidates(runs[i], quantity, geometry[runs[i].block], policy)
  {
    var f := CandidatesIn(quantity, geometry, policy);
    assert runs[..i + 1] == runs[..i] + [runs[i]];
    Sorting.FlatMapConcat(runs[..i], [runs[i]], f);
    Sorting.FlatMapOne(runs[i], f);
  }

  lemma CandidateComesFromARun(runs: seq<Run>, quantity: int, geometry: map<int, BlockGeometry>, policy: Policy, c: Placement)
    requires GeometryFor(runs, geometry)
    ensures c in AllCandidates(runs, quantity, geometry, policy)
            <==> exists i :: 0 <= i < |runs| && c in Candidates(runs[i], quantity, geometry[runs[i].block], policy)
  {
    var f := CandidatesIn(quantity, geometry, policy);
    Sorting.InFlatMap(runs, f, c);
    forall i | 0 <= i < |runs| ensures f(runs[i]) == Candidates(runs[i], quantity, geometry[runs[i].block], policy) {
      assert runs[i] in runs;
    }
  }

  lemma CandidatesHaveLength(runs: seq<Run>, quantity: int, geometry: map<int, BlockGeometry>, policy: Policy)
    requires GeometryFor(runs, geometry)
    ensures forall c :: c in AllCandidates(runs, quantity, geometry, policy) ==> c.length == quantity
  {
    forall c | c in AllCandidates(runs, quantity, geometry, policy) ensures c.length == quantity {
      CandidateComesFromARun(runs, quantity, geometry, policy, c);
    }
  }

  /** Among candidates of one order size the best one is unique, so it heads the sorted list. */
  lemma BestHeadsTheList(best: Option<Placement>, runs: seq<Run>, quantity: int, geometry: map<int, BlockGeometry>, policy: Policy)
    requires GeometryFor(runs, geometry)
    requires BestOf(best, AllCandidates(runs, quantity, geometry, policy))
    ensures best == FirstOf(LegalAnchors(runs, quantity, geometry, policy))
  {
    var cands := AllCandidates(runs, quantity, geometry, policy);
    Sorting.SortKeepsElements(cands, RanksBefore);
    if cands != [] {
      RankingIsTotal();
      Sorting.HeadRanksFirst(cands, RanksBefore);
      CandidatesHaveLength(runs, quantity, geometry, policy);
      var head := LegalAnchors(runs, quantity, geometry, policy)[0];
      assert RanksBefore(head, best.value) && RanksBefore(best.value, head);
    }
  }

  lemma BestOfStep(best: Option<Placement>, seen: seq<Placement>, cand: Placement)
    requires BestOf(best, seen)
    ensures BestOf(if best.None? || !RanksBefore(best.value, cand) then Some(cand) else best, seen + [cand])
  {
    RankingIsTotal();
  }

  /** The winner among a run's candidates and the best so far. */
  method BestInRun(best: Option<Placement>, cands: seq<Placement>, ghost seen: seq<Placement>) returns (better: Option<Placement>)
    requires BestOf(best, seen)
    ensures BestOf(better, seen + cands)
  {
    better := best;
    assert seen + cands[..0] == seen;
    for j := 0 to |cands|
      invariant BestOf(better, seen + cands[..j])
    {
      var cand := cands[j];
      BestOfStep(better, seen + cands[..j], cand);
      assert seen + cands[..j + 1] == (seen + cands[..j]) + [cand];
      if better.None? || !RanksBefore(better.value, cand) {
        better := Some(cand);
      }
    }
    assert cands[..|cands|] == cands;
  }

  method Allocate(runs: seq<Run>, quantity: int, geometry: map<int, BlockGeometry>, policy: Policy)
    returns (best: Option<Placement>)
    requires GeometryFor(runs, geometry)
    ensures best == FirstOf(LegalAnchors(runs, quantity, geometry, policy))
  {
    best := None;
    ghost var seen := AllCandidates([], quantity, geometry, policy);
    for i := 0 to |runs|
      invariant seen == AllCandidates(runs[..i], quantity, geometry, policy) && BestOf(best, seen)
    {
      var cands := Candidates(runs[i], quantity, geometry[runs[i].block], policy);
      best := BestInRun(best, cands, seen);
      CandidatesOfPrefix(runs, i, quantity, geometry, policy);
      seen := seen + cands;
    }
    assert runs[..|runs|] == runs;
    BestHeadsTheList(best, runs, quantity, geometry, policy);
  }

  // ------------------------------------------------------------------ what a cut may leave

  /** A cut at `offset` the policy permits: at either end, or anywhere in the middle window. */
  predicate LegalOffset(run: Run, quantity: int, policy: Policy, offset: int) {
    var tail := run.length - quantity;
    && quantity >= 1 && tail >= 0
    && (|| ((offset == 0 || offset == tail) && (tail == 0 || tail >= policy.minRun))
        || (policy.allowMidCut && policy.MidLo() <= offset <= tail - policy.MidLo()))
  }

  lemma CandidateIsLegal(run: Run, quantity: int, geo: BlockGeometry, policy: Policy, c: Placement)
    requires c in Candidates(run, quantity, geo, policy)
    ensures LegalOffset(run, quantity, policy, c.start - run.start)
    ensures c == PlacementAt(run, c.start - run.start, quantity, geo, policy)
    ensures c.length == quantity && c.block == run.block && Hosts(run, c.start, c.length)
  {
  }

  lemma CandidateExists(run: Run, quantity: int, geo: BlockGeometry, policy: Policy)
    ensures Candidates(run, quantity, geo, policy) != []
            <==> exists offset :: LegalOffset(run, quantity, policy, offset)
    ensures Candidates(run, quantity, geo, policy) != []
            <==> 1 <= quantity <= run.length
                 && var tail := run.length - quantity;
                    tail == 0 || tail >= policy.minRun || (policy.allowMidCut && tail >= 2 * policy.MidLo())
  {
    var tail := run.length - quantity;
    if Candidates(run, quantity, geo, policy) != [] {
      CandidateIsLegal(run, quantity, geo, policy, Candidates(run, quantity, geo, policy)[0]);
    }
  }
}
