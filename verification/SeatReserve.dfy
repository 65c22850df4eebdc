/** Read a snapshot, choose seats, compare-and-swap: the bounded loop behind every seated order,
    run against whatever other clients do between the read and the swap. */
module SeatReserve {
  import opened Basics
  import opened Quota
  import opened RunSets
  import opened Seating
  import opened SeatZone
  import opened SeatHash
  import opened SeatRuns
  import opened SeatingLists
  import opened SeatingOptimality
  import opened SeatingRanks
  import opened SeatScripts
  import opened SeatOthers
  import SeatRebuild
  import Sorting

  const MAX_CAS_ATTEMPTS := 5
  const TOP_K := 16

  datatype Request = Request(
    user: int, quantity: int, totalCents: int, key: nat, policy: Policy, limit: int, maxPurchasable: nat, topK: nat
  )

  datatype Outcome =
    | Reserved(block: int, start: int, length: int, streamId: nat, zoneRemaining: int)
    | AlreadyClaimed
    | InsufficientInventory(available: int)
    | NoSeatsAvailable(feasible: seq<int>)
    | PurchaseLimitExceeded(held: int, limit: int)
    | PlacementOutOfRun
    | SeatContention

  /** Qualities as the seat map constrains them. */
  predicate GeometryAllowed(geom: map<int, BlockGeom>) {
    forall b :: b in geom ==> geom[b].capacity >= 1 && 0.0 <= geom[b].edge <= geom[b].base <= 1.0
  }

  function CalibratedBlocks(geom: map<int, BlockGeom>): map<int, BlockGeometry>
    requires GeometryAllowed(geom)
  {
    map b | b in geom :: Calibrated(b, geom[b].capacity, geom[b].base, geom[b].edge)
  }

  /** What others do around one attempt: before its read, and between the read and what follows it. */
  datatype Round = Round(pause: seq<Other>, between: seq<Other>)

  /** All script commands of others in the given rounds, in the order they ran. */
  function CommandsOf(rounds: seq<Round>): seq<Command> {
    if rounds == [] then []
    else
      var last := rounds[|rounds| - 1];
      CommandsOf(rounds[..|rounds| - 1]) + (Scripts(last.pause) + Scripts(last.between))
  }

  /** The zone after the first `n` rounds of other people's scripts. */
  ghost function ZoneAfter(start: Zone, rounds: seq<Round>, n: nat): Zone
    requires n <= |rounds|
  {
    AfterCommands(start, CommandsOf(rounds[..n]))
  }

  /** The zone as attempt number `n` (from zero) reads it. */
  ghost function ZoneRead(start: Zone, rounds: seq<Round>, n: nat): Zone
    requires n < |rounds|
  {
    AfterCommands(ZoneAfter(start, rounds, n), Scripts(rounds[n].pause))
  }

  lemma OneMoreRound(start: Zone, rounds: seq<Round>, n: nat)
    requires n < |rounds|
    ensures ZoneAfter(start, rounds, n + 1) == AfterCommands(ZoneRead(start, rounds, n), Scripts(rounds[n].between))
  {
    assert rounds[..n + 1][..n] == rounds[..n];
    CommandsConcat(start, CommandsOf(rounds[..n]), Scripts(rounds[n].pause) + Scripts(rounds[n].between));
    CommandsConcat(ZoneAfter(start, rounds, n), Scripts(rounds[n].pause), Scripts(rounds[n].between));
  }

  predicate AllPolite(geom: map<int, BlockGeom>, rounds: seq<Round>) {
    forall i :: 0 <= i < |rounds| ==> Polite(geom, rounds[i].pause) && Polite(geom, rounds[i].between)
  }

  // ------------------------------------------------------------------ reading

  /** HGETALL of the runs: every run once, in no particular order. */
  method ReadRuns(store: ZoneStore) returns (runs: seq<Run>)
    requires store.Indexed()
    ensures RunSet(runs) == store.free && NoRepeats(runs)
  {
    runs := [];
    var unseen := store.runs.Keys;
    ghost var done: set<Run> := {};
    while unseen != {}
      invariant unseen <= store.runs.Keys
      invariant RunSet(runs) == done && NoRepeats(runs) && done <= store.free
      invariant forall r {:trigger About(r)} :: About(r) && r in store.free ==> (r in done <==> Cell(r.block, r.start) !in unseen)
      decreases unseen
    {
      var k :| k in unseen;
      var r := Run(k.block, k.pos, store.runs[k]);
      assert At(k) && r in store.free && About(r);
      assert r !in RunSet(runs);
      AppendNew(runs, r);
      runs := runs + [r];
      done := done + {r};
      forall q {:trigger About(q)} | About(q) && q in store.free && Cell(q.block, q.start) == k ensures q == r {
        assert About(q);
      }
      unseen := unseen - {k};
    }
    forall r | r in store.free ensures r in done {
      assert About(r);
    }
  }

  lemma SnapshotHasGeometry(z: Zone, runs: seq<Run>)
    requires WithinBlocks(z) && GeometryAllowed(z.geom) && RunSet(runs) == z.free
    ensures GeometryFor(runs, CalibratedBlocks(z.geom))
  {
    forall r | r in runs ensures r.block in z.geom && CalibratedBlocks(z.geom)[r.block].Valid() {
      assert r in RunSet(runs);
      CalibratedIsValid(r.block, z.geom[r.block]);
    }
  }

  /** What the seat map says about a block is what its seats are worth: `base` in the middle, `edge` at the ends. */
  lemma CalibratedAsConfigured(geom: map<int, BlockGeom>, b: int, pos: int)
    requires GeometryAllowed(geom) && b in geom && 0 <= pos < geom[b].capacity
    ensures var geo := CalibratedBlocks(geom)[b];
      && geo.blockId == b && geo.capacity == geom[b].capacity
      && geom[b].edge <= geo.SeatQuality(pos) <= geom[b].base
      && (pos == (geom[b].capacity - 1) / 2 ==> geo.SeatQuality(pos) == geom[b].base)
      && (geom[b].capacity > 2 && (pos == 0 || pos == geom[b].capacity - 1) ==> geo.SeatQuality(pos) == geom[b].edge)
  {
    CalibrationStaysInRange(b, geom[b].capacity, geom[b].base, geom[b].edge, pos);
  }

  lemma CalibratedIsValid(b: int, g: BlockGeom)
    requires g.capacity >= 1 && 0.0 <= g.edge <= g.base <= 1.0
    ensures Calibrated(b, g.capacity, g.base, g.edge).Valid()
  {
    var center := (g.capacity - 1) as real / 2.0;
    var span := center - (center - center.Floor as real);
    if span != 0.0 {
      assert span > 0.0;
      assert (g.base - g.edge) / span >= 0.0;
    }
  }

  // ------------------------------------------------------------------ choosing

  /** `next(run for run in runs if ...)`: the run a placement was cut from is always found. */
  method FindHost(runs: seq<Run>, pick: Placement) returns (host: Run)
    requires exists r :: r in runs && r.block == pick.block && Hosts(r, pick.start, pick.length)
    ensures host in runs && host.block == pick.block && Hosts(host, pick.start, pick.length)
  {
    for i := 0 to |runs|
      invariant forall j :: 0 <= j < i ==> !(runs[j].block == pick.block && Hosts(runs[j], pick.start, pick.length))
    {
      if runs[i].block == pick.block && Hosts(runs[i], pick.start, pick.length) {
        return runs[i];
      }
    }
    assert false;
  }

  /** The seats of `p` are a cut of `r` that the policy permits. */
  predicate LegalCut(r: Run, p: Placement, policy: Policy) {
    r.block == p.block && Hosts(r, p.start, p.length) && LegalOffset(r, p.length, policy, p.start - r.start)
  }

  lemma AnchorHasAHost(runs: seq<Run>, quantity: int, geometry: map<int, BlockGeometry>, policy: Policy, pick: Placement)
    requires GeometryFor(runs, geometry) && pick in LegalAnchors(runs, quantity, geometry, policy)
    ensures pick.length == quantity && quantity >= 1
    ensures exists r :: r in runs && LegalCut(r, pick, policy)
  {
    Sorting.SortKeepsElements(AllCandidates(runs, quantity, geometry, policy), RanksBefore);
    CandidateComesFromARun(runs, quantity, geometry, policy, pick);
    var i :| 0 <= i < |runs| && pick in Candidates(runs[i], quantity, geometry[runs[i].block], policy);
    CandidateIsLegal(runs[i], quantity, geometry[runs[i].block], policy, pick);
    assert runs[i] in runs && LegalCut(runs[i], pick, policy);
  }

  /** Only one run of a zone can host a placement, so the one that is found is the one it was cut from. */
  lemma HostIsUnique(free: set<Run>, host: Run, r: Run, pick: Placement)
    requires Canonical(free) && host in free && r in free && pick.length >= 1
    requires host.block == pick.block && Hosts(host, pick.start, pick.length)
    requires r.block == pick.block && Hosts(r, pick.start, pick.length)
    ensures host == r
  {
    assert host != r ==> Apart(host, r);
  }

  /** Some free run can serve this order size under the policy. */
  ghost predicate Fits(free: set<Run>, quantity: int, policy: Policy) {
    exists r, offset :: r in free && LegalOffset(r, quantity, policy, offset)
  }

  lemma AnchorsIffFits(runs: seq<Run>, quantity: int, geometry: map<int, BlockGeometry>, policy: Policy)
    requires GeometryFor(runs, geometry)
    ensures LegalAnchors(runs, quantity, geometry, policy) != [] <==> Fits(RunSet(runs), quantity, policy)
  {
    var cands := AllCandidates(runs, quantity, geometry, policy);
    Sorting.SortKeepsElements(cands, RanksBefore);
    if cands != [] {
      CandidateComesFromARun(runs, quantity, geometry, policy, cands[0]);
      var i :| 0 <= i < |runs| && cands[0] in Candidates(runs[i], quantity, geometry[runs[i].block], policy);
      CandidateIsLegal(runs[i], quantity, geometry[runs[i].block], policy, cands[0]);
      assert runs[i] in RunSet(runs);
    }
    if r, offset :| r in RunSet(runs) && LegalOffset(r, quantity, policy, offset) {
      var i :| 0 <= i < |runs| && runs[i] == r;
      CandidateExists(r, quantity, geometry[r.block], policy);
      CandidateComesFromARun(runs, quantity, geometry, policy, Candidates(r, quantity, geometry[r.block], policy)[0]);
    }
  }

  // ------------------------------------------------------------------ the loop

  /** What an attempt ends with: a final outcome, or another attempt. */
  datatype Attempt = Done(outcome: Outcome) | Again

  function Args(req: Request, host: Run, pick: Placement): ClaimArgs {
    ClaimArgs(pick.block, host.start, host.length, pick.start, pick.length, req.user, req.totalCents, req.key, req.limit)
  }

  /** A successful reservation is a cut, permitted by the policy, of a run that was free at the moment
      of the swap. */
  ghost predicate CutOf(before: Zone, policy: Policy, o: Outcome)
    requires o.Reserved?
  {
    exists host :: host in before.free && LegalCut(host, Placement(o.block, o.start, o.length, 0.0), policy)
  }

  /** It took these seats, put this order on the stream and charged this buyer, and changed nothing else. */
  ghost predicate Took(before: Zone, after: Zone, req: Request, policy: Policy, o: Outcome)
    requires o.Reserved?
  {
    var a := ClaimArgs(o.block, 0, 0, o.start, o.length, req.user, req.totalCents, req.key, req.limit);
    && o.length == req.quantity && CutOf(before, policy, o)
    && req.key !in before.claims && Held(before.purchased, req.user) + req.quantity <= req.limit
    && (forall p :: o.start <= p < o.start + o.length ==> Free(before.free, o.block, p))
    && ClaimEffect(before, after, a, Claimed(o.streamId, o.zoneRemaining))
    && exists c: ClaimArgs :: c.(runStart := 0, runLength := 0) == a && CutBy(before, c, policy) && after == AfterClaim(before, c)
  }

  /** The claim the swap was made of. */
  ghost predicate CutBy(before: Zone, c: ClaimArgs, policy: Policy) {
    ClaimOutcome(before, c).Claimed? && LegalOffset(c.Host(), c.length, policy, c.start - c.runStart)
  }

  /** Which of the best suggestions a random number stands for. */
  function PlaceDrawn(draw: nat, topK: nat, all: nat): nat {
    var n := MinInt(topK, all);
    if n >= 1 then draw % n else 0
  }

  /** The reserved seats are a suggestion of the zone as it was read, and exactly so many suggestions are
      better as the draw among the best `topK` says. */
  ghost predicate Drawn(read: Zone, req: Request, policy: Policy, draw: nat, o: Outcome)
    requires o.Reserved?
  {
    GeometryAllowed(read.geom)
    && var all := Suggestions(read.free, req.quantity, CalibratedBlocks(read.geom), policy);
       exists p ::
         && p in all && (p.block, p.start, p.length) == (o.block, o.start, o.length)
         && |Better(read.free, req.quantity, CalibratedBlocks(read.geom), policy, p)| == PlaceDrawn(draw, req.topK, |all|)
  }

  /** Why an outcome was given, from the zone that was read and the zone that the script met.  Anything
      but a reservation leaves runs, counters, quota, stream and claims as the others left them. */
  ghost predicate Explained(read: Zone, before: Zone, after: Zone, req: Request, policy: Policy, draw: nat, o: Outcome) {
    var held := Held(before.purchased, req.user);
    && !o.PlacementOutOfRun? && !o.SeatContention?
    && (o.InsufficientInventory? || o.NoSeatsAvailable? <==> !Fits(read.free, req.quantity, policy))
    && (o.InsufficientInventory? ==> o.available == Seats(read.free) && o.available < req.quantity)
    && (o.NoSeatsAvailable? ==> Seats(read.free) >= req.quantity && FeasibleList(read.free, req.maxPurchasable, policy, o.feasible))
    && (o.AlreadyClaimed? ==> req.key in before.claims)
    && (o.PurchaseLimitExceeded? ==>
          req.key !in before.claims && o.held == held && o.limit == req.limit && held + req.quantity > req.limit)
    && (if o.Reserved? then Took(before, after, req, policy, o) && Drawn(read, req, policy, draw, o) else after == before)
  }

  /** The order sizes that fit, within the limit, in increasing order. */
  ghost predicate FeasibleList(free: set<Run>, max: nat, policy: Policy, feasible: seq<int>) {
    && (forall n :: n in feasible <==> 1 <= n <= max && Fits(free, n, policy))
    && (forall i, j :: 0 <= i < j < |feasible| ==> feasible[i] < feasible[j])
  }

  /** Whatever is drawn, fewer than `topK` suggestions are better than the reserved seats; where no middle cuts are made,
      as in both policies in use, that is fewer than `topK` of all permitted cuts (`BetterCutsAreSuggested`). */
  lemma FewAreBetter(read: Zone, req: Request, policy: Policy, draw: nat, o: Outcome) returns (p: Placement)
    requires o.Reserved? && req.topK >= 1 && Drawn(read, req, policy, draw, o)
    ensures (p.block, p.start, p.length) == (o.block, o.start, o.length)
    ensures p in Suggestions(read.free, req.quantity, CalibratedBlocks(read.geom), policy)
    ensures |Better(read.free, req.quantity, CalibratedBlocks(read.geom), policy, p)| < req.topK
  {
    var geometry := CalibratedBlocks(read.geom);
    var all := Suggestions(read.free, req.quantity, geometry, policy);
    hide Suggestions, Better, CalibratedBlocks, GeometryAllowed;
    p :| p in all && (p.block, p.start, p.length) == (o.block, o.start, o.length)
      && |Better(read.free, req.quantity, geometry, policy, p)| == PlaceDrawn(draw, req.topK, |all|);
  }

  /** With `topK` one the reserved seats are those `allocate` would choose on the zone as read. */
  lemma TopOneIsAllocate(read: Zone, req: Request, policy: Policy, draw: nat, o: Outcome, runs: seq<Run>)
    requires o.Reserved? && req.topK == 1 && Drawn(read, req, policy, draw, o)
    requires RunSet(runs) == read.free && Canonical(read.free) && Different(runs)
    requires GeometryFor(runs, CalibratedBlocks(read.geom))
    ensures var best := FirstOf(LegalAnchors(runs, req.quantity, CalibratedBlocks(read.geom), policy));
      best.Some? && (best.value.block, best.value.start, best.value.length) == (o.block, o.start, o.length)
  {
    var geometry := CalibratedBlocks(read.geom);
    var all := Suggestions(read.free, req.quantity, geometry, policy);
    hide Suggestions, Better, LegalAnchors, CalibratedBlocks, GeometryFor;
    var p :| p in all && (p.block, p.start, p.length) == (o.block, o.start, o.length)
      && |Better(read.free, req.quantity, geometry, policy, p)| == PlaceDrawn(draw, req.topK, |all|);
    AllocateTakesTheBest(runs, req.quantity, geometry, policy, p);
    assert |all| >= 1 ==> PlaceDrawn(draw, 1, |all|) == 0;
  }

  lemma SwapNeverOutOfBounds(z: Zone, req: Request, host: Run, pick: Placement)
    requires host.block == pick.block && Hosts(host, pick.start, pick.length)
    ensures !ClaimOutcome(z, Args(req, host, pick)).Bounds?
  {
  }

  lemma SwapTakesFreeSeats(z: Zone, a: ClaimArgs)
    requires ClaimOutcome(z, a).Claimed?
    ensures forall p :: a.start <= p < a.start + a.length ==> Free(z.free, a.block, p)
  {
    forall p | a.start <= p < a.start + a.length ensures Free(z.free, a.block, p) {
      assert a.Host().Covers(a.block, p);
    }
  }

  lemma SwapTook(z: Zone, req: Request, policy: Policy, a: ClaimArgs, streamId: nat, zoneRemaining: int)
    requires (a.user, a.totalCents, a.key, a.limit) == (req.user, req.totalCents, req.key, req.limit) && a.length == req.quantity >= 1
    requires Canonical(z.free) && ClaimOutcome(z, a) == Claimed(streamId, zoneRemaining)
    requires LegalOffset(a.Host(), a.length, policy, a.start - a.runStart)
    ensures Took(z, AfterClaim(z, a), req, policy, Reserved(a.block, a.start, a.length, streamId, zoneRemaining))
  {
    SwapTakesFreeSeats(z, a);
    ClaimDoesWhatItSays(z, a);
    var o := Reserved(a.block, a.start, a.length, streamId, zoneRemaining);
    assert CutOf(z, policy, o) by {
      assert LegalCut(a.Host(), Placement(o.block, o.start, o.length, 0.0), policy);
    }
    assert CutBy(z, a, policy);
    hide AfterClaim, LegalOffset, CutBy, CutOf, Canonical, Seats, CellsTaken, Enqueued, FieldMoved;
  }

  lemma RefusedSwapChangesNothing(z: Zone, a: ClaimArgs)
    ensures ClaimOutcome(z, a).Claimed? || AfterClaim(z, a) == z
  {
  }

  function RefusalsOf(store: ZoneStore): Refusals
    reads store
  {
    Refusals(store.misses, store.relaxed)
  }

  /** What an outcome does to the count of refusals: a success clears it, a refusal for want of adjacent seats
      counts while the zone is under its normal policy, nothing else touches it. */
  predicate Counted(m: Refusals, now: Refusals, relaxed: bool, o: Outcome) {
    if o.Reserved? then now == Refusals(0, m.relaxed)
    else if o.NoSeatsAvailable? && !relaxed then m.misses + 1 < STRICT_MISS_THRESHOLD && now == Refusals(m.misses + 1, m.relaxed)
    else now == m
  }

  /** From the chosen placement to the verdict of the script. */
  method Swap(store: ZoneStore, req: Request, policy: Policy, runs: seq<Run>, pick: Placement, between: seq<Other>, ghost draw: nat)
    returns (r: Attempt)
    requires store.Valid() && Sound(store.Abs()) && Polite(store.geom, between)
    requires pick.length == req.quantity >= 1 && RunSet(runs) == store.free && Fits(store.free, req.quantity, policy)
    requires exists r :: r in runs && LegalCut(r, pick, policy)
    requires forall id, left ::
      Drawn(store.Abs(), req, policy, draw, Reserved(pick.block, pick.start, pick.length, id, left))
    modifies store
    ensures old(store.relaxed) ==> store.relaxed
    ensures store.Valid() && Sound(store.Abs()) && store.geom == old(store.geom)
    ensures r.Again? ==> Scripts(between) != [] && store.Abs() == AfterCommands(old(store.Abs()), Scripts(between))
    ensures r.Again? ==> RefusalsOf(store) == RefusalsAfter(old(RefusalsOf(store)), between)
    ensures r.Done? ==> Counted(RefusalsAfter(old(RefusalsOf(store)), between), RefusalsOf(store), true, r.outcome)
    ensures r.Done? ==>
      && !r.outcome.SeatContention? && !r.outcome.NoSeatsAvailable?
      && Explained(old(store.Abs()), AfterCommands(old(store.Abs()), Scripts(between)), store.Abs(), req, policy, draw, r.outcome)
  {
    hide AfterClaim, Took, Drawn, Sound, OccupySet, ReleaseSet, Seats, Canonical, LegalOffset, Fits, FeasibleList, ClaimEffect;
    var host := FindHost(runs, pick);
    assert host in RunSet(runs);
    ghost var cut :| cut in runs && LegalCut(cut, pick, policy);
    assert cut in RunSet(runs);
    HostIsUnique(store.free, host, cut, pick);
    RunOthers(store, between);
    ghost var z := store.Abs();
    var a := Args(req, host, pick);
    SwapNeverOutOfBounds(z, req, host, pick);
    RefusedSwapChangesNothing(z, a);
    var reply := store.ClaimSeats(a);
    CommandKeepsSound(z, Command.Claim(a));
    match reply {
      case Dup => r := Done(AlreadyClaimed);
      case OverLimit(held, limit) => r := Done(PurchaseLimitExceeded(held, limit));
      case Bounds => r := Done(PlacementOutOfRun);
      case Retry => r := Again;
      case Claimed(streamId, zoneRemaining) =>
        SoundIsCanonical(z);
        SwapTook(z, req, policy, a, streamId, zoneRemaining);
        store.misses := 0;
        r := Done(Reserved(pick.block, pick.start, pick.length, streamId, zoneRemaining));
    }
  }

  lemma SoundIsCanonical(z: Zone)
    requires Sound(z)
    ensures Canonical(z.free)
  {
  }

  /** The read and the draw: nothing exactly when no placement is legal. */
  method Choose(store: ZoneStore, req: Request, policy: Policy, draw: nat) returns (runs: seq<Run>, pick: Option<Placement>)
    requires store.Valid() && Sound(store.Abs()) && GeometryAllowed(store.geom) && req.topK >= 1
    ensures RunSet(runs) == store.free && NoRepeats(runs) && GeometryFor(runs, CalibratedBlocks(store.geom))
    ensures pick.Some? <==> Fits(store.free, req.quantity, policy)
    ensures pick.Some? ==> pick.value.length == req.quantity >= 1 && exists r :: r in runs && LegalCut(r, pick.value, policy)
    ensures pick.Some? ==> forall id, left ::
      Drawn(store.Abs(), req, policy, draw, Reserved(pick.value.block, pick.value.start, pick.value.length, id, left))
  {
    runs := ReadRuns(store);
    SnapshotHasGeometry(store.Abs(), runs);
    DistinctRuns(runs);
    var geometry := CalibratedBlocks(store.geom);
    var anchors := LegalAnchors(runs, req.quantity, geometry, policy);
    AnchorsIffFits(runs, req.quantity, geometry, policy);
    if anchors == [] {
      return runs, None;
    }
    var k := draw % MinInt(req.topK, |anchors|);
    pick := Some(anchors[k]);
    AnchorHasAHost(runs, req.quantity, geometry, policy, pick.value);
    hide LegalAnchors, Fits, Suggestions, Better, CalibratedBlocks, GeometryFor, NoRepeats, GeometryAllowed, LegalCut;
    PlaceInTheList(runs, req.quantity, geometry, policy, k);
    assert forall id, left :: Drawn(store.Abs(), req, policy, draw, Reserved(pick.value.block, pick.value.start, pick.value.length, id, left)) by {
      forall id, left ensures Drawn(store.Abs(), req, policy, draw, Reserved(pick.value.block, pick.value.start, pick.value.length, id, left)) {
        IsDrawn(store.Abs(), req, policy, draw, Reserved(pick.value.block, pick.value.start, pick.value.length, id, left), pick.value);
      }
    }
  }

  lemma IsDrawn(read: Zone, req: Request, policy: Policy, draw: nat, o: Outcome, p: Placement)
    requires GeometryAllowed(read.geom) && o.Reserved? && (p.block, p.start, p.length) == (o.block, o.start, o.length)
    requires var all := Suggestions(read.free, req.quantity, CalibratedBlocks(read.geom), policy);
      p in all && |Better(read.free, req.quantity, CalibratedBlocks(read.geom), policy, p)| == PlaceDrawn(draw, req.topK, |all|)
    ensures Drawn(read, req, policy, draw, o)
  {
    hide Suggestions, Better, CalibratedBlocks, PlaceDrawn;
  }

  /** No anchor: the zone is short of seats, or has them but not side by side.  Others run between the
      read and the count of refusals. */
  method Refuse(
    store: ZoneStore, req: Request, policy: Policy, runs: seq<Run>, relaxed: bool, between: seq<Other>, ghost draw: nat
  ) returns (r: Attempt)
    requires store.Valid() && Sound(store.Abs()) && GeometryAllowed(store.geom) && Polite(store.geom, between)
    requires RunSet(runs) == store.free && NoRepeats(runs) && req.quantity >= 1
    requires GeometryFor(runs, CalibratedBlocks(store.geom)) && !Fits(store.free, req.quantity, policy)
    modifies store
    ensures store.Valid() && Sound(store.Abs()) && store.geom == old(store.geom)
    ensures store.Abs() == AfterCommands(old(store.Abs()), Scripts(between))
    ensures r.Done? ==> !r.outcome.SeatContention?
    ensures r.Done? ==> Explained(old(store.Abs()), store.Abs(), store.Abs(), req, policy, draw, r.outcome)
    ensures r.Done? ==> Counted(RefusalsAfter(old(RefusalsOf(store)), between), RefusalsOf(store), relaxed, r.outcome)
    ensures r.Again? ==> !relaxed && Seats(old(store.free)) >= req.quantity && store.relaxed
    ensures r.Again? ==>
      var m := RefusalsAfter(old(RefusalsOf(store)), between);
      m.misses + 1 >= STRICT_MISS_THRESHOLD && RefusalsOf(store) == m.Missed()
    ensures old(store.relaxed) ==> store.relaxed
  {
    hide LegalOffset, Fits, Canonical, Seats, LegalAnchors, FeasibleQuantities;
    DistinctRuns(runs);
    var geometry := CalibratedBlocks(store.geom);
    var remaining := SeatRebuild.TotalLength(runs);
    ghost var read := store.Abs();
    assert remaining == Seats(read.free);
    RunOthers(store, between);
    if remaining < req.quantity {
      return Done(InsufficientInventory(remaining));
    }
    if !relaxed {
      var switch := store.RecordStrictMiss();
      if switch {
        return Again;
      }
    }
    var feasible := FeasibleQuantities(runs, geometry, req.maxPurchasable, policy);
    FeasibleIsListed(runs, geometry, req.maxPurchasable, policy);
    hide FeasibleList, RefusalsAfter;
    return Done(NoSeatsAvailable(feasible));
  }

  lemma FeasibleIsListed(runs: seq<Run>, geometry: map<int, BlockGeometry>, max: nat, policy: Policy)
    requires GeometryFor(runs, geometry)
    ensures FeasibleList(RunSet(runs), max, policy, FeasibleQuantities(runs, geometry, max, policy))
  {
    var feasible := FeasibleQuantities(runs, geometry, max, policy);
    assert forall i, j :: 0 <= i < j < |feasible| ==> feasible[i] < feasible[j];
    hide FeasibleQuantities, LegalAnchors, Fits;
    forall n ensures n in feasible <==> 1 <= n <= max && Fits(RunSet(runs), n, policy) {
      FeasibleMeansAllocatable(runs, geometry, max, n, policy);
      AnchorsIffFits(runs, n, geometry, policy);
    }
  }

  lemma DistinctRuns(runs: seq<Run>)
    requires NoRepeats(runs)
    ensures Distinct(runs)
  {
    forall i, j | 0 <= i < j < |runs| ensures runs[i] != runs[j] {
      PrefixStep(runs, j);
      assert runs[..j][i] == runs[i];
    }
  }

  /** The store is well-formed and is what `start` became through others' scripts alone. */
  ghost predicate Untouched(store: ZoneStore, start: Zone, rounds: seq<Round>, n: nat)
    requires n <= |rounds|
    reads store
  {
    store.Valid() && Sound(store.Abs()) && store.geom == start.geom && store.Abs() == ZoneAfter(start, rounds, n)
  }

  /** The count of refusals after the first `n` rounds, the `switched` one of which met a full count. */
  function RefusalsAt(m: Refusals, rounds: seq<Round>, n: nat, switched: Option<nat>): Refusals
    requires n <= |rounds|
    decreases n, 0
  {
    if n == 0 then m
    else
      var met := RefusalsMet(m, rounds, n - 1, switched);
      if switched == Some(n - 1) then met.Missed() else met
  }

  /** The count that attempt number `n` meets. */
  function RefusalsMet(m: Refusals, rounds: seq<Round>, n: nat, switched: Option<nat>): Refusals
    requires n < |rounds|
    decreases n, 1
  {
    RefusalsAfter(RefusalsAfter(RefusalsAt(m, rounds, n, switched), rounds[n].pause), rounds[n].between)
  }

  /** A switch that comes later does not change the count before it. */
  lemma {:induction false} SwitchIsLater(m: Refusals, rounds: seq<Round>, n: nat, k: nat)
    requires n <= k && n <= |rounds|
    ensures RefusalsAt(m, rounds, n, Some(k)) == RefusalsAt(m, rounds, n, None)
    decreases n
  {
    if n > 0 {
      SwitchIsLater(m, rounds, n - 1, k);
    }
  }

  /** Why attempt number `k` switched the zone to the end-of-sale policy: enough seats, none of them placeable,
      and enough refusals in a row. */
  ghost predicate SwitchedAt(start: Zone, m: Refusals, rounds: seq<Round>, req: Request, k: nat)
    requires k < |rounds|
  {
    && RefusalsMet(m, rounds, k, None).misses + 1 >= STRICT_MISS_THRESHOLD
    && Seats(ZoneRead(start, rounds, k).free) >= req.quantity && !Fits(ZoneRead(start, rounds, k).free, req.quantity, req.policy)
  }

  /** One turn of the loop, number `n` from zero. */
  method OneAttempt(
    store: ZoneStore, req: Request, policy: Policy, relaxed: bool, rounds: seq<Round>, n: nat, draw: nat, ghost start: Zone
  ) returns (r: Attempt, switched: bool)
    requires n < |rounds| && Untouched(store, start, rounds, n) && AllPolite(start.geom, rounds)
    requires GeometryAllowed(start.geom) && req.quantity >= 1 && req.topK >= 1
    modifies store
    ensures store.Valid() && Sound(store.Abs())
    ensures r.Again? ==> Untouched(store, start, rounds, n + 1)
    ensures r.Again? && !switched ==> Scripts(rounds[n].between) != []
    ensures r.Again? && switched ==>
      !relaxed && store.relaxed && Seats(ZoneRead(start, rounds, n).free) >= req.quantity && !Fits(ZoneRead(start, rounds, n).free, req.quantity, policy)
    ensures r.Done? ==>
      && !r.outcome.SeatContention?
      && Explained(ZoneRead(start, rounds, n), ZoneAfter(start, rounds, n + 1), store.Abs(), req, policy, draw, r.outcome)
    ensures var m := RefusalsAfter(RefusalsAfter(old(RefusalsOf(store)), rounds[n].pause), rounds[n].between);
      && (r.Done? ==> Counted(m, RefusalsOf(store), relaxed, r.outcome))
      && (r.Again? && !switched ==> RefusalsOf(store) == m)
      && (r.Again? && switched ==> m.misses + 1 >= STRICT_MISS_THRESHOLD && RefusalsOf(store) == m.Missed())
    ensures old(store.relaxed) ==> store.relaxed
  {
    hide Explained, Fits, Sound, LegalCut, Drawn, Seats, RefusalsAfter;
    OneMoreRound(start, rounds, n);
    RunOthers(store, rounds[n].pause);
    assert store.Abs() == ZoneRead(start, rounds, n);
    var runs, pick := Choose(store, req, policy, draw);
    if pick.None? {
      r := Refuse(store, req, policy, runs, relaxed, rounds[n].between, draw);
      switched := r.Again?;
    } else {
      r := Swap(store, req, policy, runs, pick.value, rounds[n].between, draw);
      switched := false;
    }
  }

  /** In all the first `n` rounds but one, somebody ran a script between the read and the swap. */
  predicate Disturbed(rounds: seq<Round>, n: nat, except: Option<nat>)
    requires n <= |rounds|
  {
    forall i: nat {:trigger rounds[i]} :: i < n && except != Some(i) ==> Scripts(rounds[i].between) != []
  }

  lemma OneMoreDisturbed(rounds: seq<Round>, n: nat, except: Option<nat>)
    requires n < |rounds| && Disturbed(rounds, n, except) && (except.Some? ==> except.value < n) && Scripts(rounds[n].between) != []
    ensures Disturbed(rounds, n + 1, except)
  {
  }

  lemma OneMoreSwitched(rounds: seq<Round>, n: nat)
    requires n < |rounds| && Disturbed(rounds, n, None)
    ensures Disturbed(rounds, n + 1, Some(n))
  {
  }

  lemma NobodyRanYet(start: Zone, rounds: seq<Round>)
    ensures ZoneAfter(start, rounds, 0) == start && Disturbed(rounds, 0, None)
  {
  }

  lemma RefusalsStep(m: Refusals, rounds: seq<Round>, n: nat, switched: Option<nat>)
    requires n < |rounds|
    ensures RefusalsMet(m, rounds, n, switched)
         == RefusalsAfter(RefusalsAfter(RefusalsAt(m, rounds, n, switched), rounds[n].pause), rounds[n].between)
    ensures RefusalsAt(m, rounds, n + 1, switched)
         == if switched == Some(n) then RefusalsMet(m, rounds, n, switched).Missed() else RefusalsMet(m, rounds, n, switched)
    ensures switched == None ==> RefusalsMet(m, rounds, n, Some(n)) == RefusalsMet(m, rounds, n, None)
  {
    SwitchIsLater(m, rounds, n, n);
  }

  /**
   * `reserve_seats_and_enqueue`.  `rounds[i]` is what others do around attempt `i + 1`, `picks[i]` its
   * random draw; `effective` is the policy the outcome was decided under, `switched` the attempt, if any,
   * that switched the zone to the end-of-sale policy.
   */
  method ReserveSeatsAndEnqueue(store: ZoneStore, req: Request, rounds: seq<Round>, picks: seq<nat>)
    returns (outcome: Outcome, attempts: nat, effective: Policy, switched: Option<nat>)
    requires store.Valid() && Sound(store.Abs()) && GeometryAllowed(store.geom)
    requires req.quantity >= 1 && req.topK >= 1
    requires |rounds| == |picks| == MAX_CAS_ATTEMPTS && AllPolite(store.geom, rounds)
    modifies store
    ensures store.Valid() && Sound(store.Abs())
    ensures 1 <= attempts <= MAX_CAS_ATTEMPTS
    ensures switched.Some? ==> !old(store.relaxed) && store.relaxed && switched.value < attempts
                               && SwitchedAt(old(store.Abs()), old(RefusalsOf(store)), rounds, req, switched.value)
    ensures effective == if old(store.relaxed) || switched.Some? then ENDGAME_POLICY else req.policy
    ensures !outcome.SeatContention? ==>
      Explained(ZoneRead(old(store.Abs()), rounds, attempts - 1), ZoneAfter(old(store.Abs()), rounds, attempts),
                store.Abs(), req, effective, picks[attempts - 1], outcome)
    ensures !outcome.SeatContention? ==>
      Counted(RefusalsMet(old(RefusalsOf(store)), rounds, attempts - 1, switched), RefusalsOf(store),
              old(store.relaxed) || switched.Some?, outcome)
    ensures outcome.SeatContention? ==> attempts == MAX_CAS_ATTEMPTS && store.Abs() == ZoneAfter(old(store.Abs()), rounds, attempts)
    ensures outcome.SeatContention? ==> RefusalsOf(store) == RefusalsAt(old(RefusalsOf(store)), rounds, attempts, switched)
    ensures outcome.SeatContention? ==> Disturbed(rounds, attempts, switched)
    ensures old(store.relaxed) ==> store.relaxed
  {
    hide Explained, Sound, ZoneRead, ZoneAfter, Disturbed, GeometryAllowed, AllPolite, RefusalsAt, RefusalsMet, RefusalsAfter, Counted, Fits, Seats;
    ghost var start, m := store.Abs(), RefusalsOf(store);
    NobodyRanYet(start, rounds);
    NoRefusalsYet(m, rounds);
    var relaxed := store.relaxed;
    switched := None;
    effective := if relaxed then ENDGAME_POLICY else req.policy;
    attempts := 0;
    while attempts < MAX_CAS_ATTEMPTS
      invariant attempts <= MAX_CAS_ATTEMPTS
      invariant relaxed == (old(store.relaxed) || switched.Some?)
      invariant effective == if relaxed then ENDGAME_POLICY else req.policy
      invariant relaxed ==> store.relaxed
      invariant switched.Some? ==>
        !old(store.relaxed) && switched.value < attempts && SwitchedAt(start, m, rounds, req, switched.value)
      invariant Untouched(store, start, rounds, attempts)
      invariant RefusalsOf(store) == RefusalsAt(m, rounds, attempts, switched)
      invariant Disturbed(rounds, attempts, switched)
    {
      RefusalsStep(m, rounds, attempts, switched);
      var attempt, switching := OneAttempt(store, req, effective, relaxed, rounds, attempts, picks[attempts], start);
      attempts := attempts + 1;
      if attempt.Done? {
        return attempt.outcome, attempts, effective, switched;
      }
      if switching {
        OneMoreSwitched(rounds, attempts - 1);
        RefusalsStep(m, rounds, attempts - 1, Some(attempts - 1));
        switched := Some(attempts - 1);
        relaxed := true;
        effective := ENDGAME_POLICY;
      } else {
        OneMoreDisturbed(rounds, attempts - 1, switched);
      }
    }
    outcome := SeatContention;
  }

  lemma NoRefusalsYet(m: Refusals, rounds: seq<Round>)
    ensures RefusalsAt(m, rounds, 0, None) == m
  {
  }
}
