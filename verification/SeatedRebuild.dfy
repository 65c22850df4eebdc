/** Rebuilding a zone, and checking it for drift, while orders come and go. */
module SeatedRebuild {
  import opened Basics
  import opened Quota
  import opened Orders
  import opened RunSets
  import opened SeatZone
  import opened SeatComplement
  import opened SeatOwners
  import opened Delivery
  import opened SeatedPipeline
  import opened SeatedSteps
  import opened SeatedSafety

  // ------------------------------------------------------------------ rebuilding while releases are under way

  /** Every release already under way will still be a repeat or succeed. */
  ghost predicate PendingReturnsWork(w: World, z: Zone) {
    forall t :: t in w.tasks && (w.tasks[t].Dropping? || w.tasks[t].Returning?) ==> ReturnWorks(w, z, w.tasks[t].order)
  }

  ghost predicate ReturnWorks(w: World, z: Zone, o: nat) {
    o in w.orders && (OrderMarker(o) in z.released || ReleaseSucceeds(z, ReturnArgs(o, w.orders[o])))
  }

  /**
   * Undisturbed, the code lets a rebuild through as soon as the stream is empty. The releases under way keep
   * working if and only if none of them is for an order whose hold row is already gone.
   */
  lemma RebuildIsSafeIff(w: World, free: set<Run>)
    requires Inv(w) && w.zone.stream == map[] && IsComplement(free, w.zone.geom, w.holds.Values)
    ensures PendingReturnsWork(w, w.zone.(free := free)) <==> NoReturnPending(w.tasks, w.limbo)
  {
    var z := w.zone.(free := free);
    forall t | t in w.tasks && (w.tasks[t].Dropping? || w.tasks[t].Returning?)
      ensures ReturnWorks(w, z, w.tasks[t].order) <==> w.tasks[t].order !in w.limbo
    {
      assert TaskOk(w.tasks[t], w.zone, w.orders, w.holds, w.limbo, w.deliveries, w.outbox);
      RebuiltSeats(w, free, w.tasks[t].order);
    }
    hide Inv, IsComplement, ReturnWorks;
  }

  lemma RebuiltSeats(w: World, free: set<Run>, o: nat)
    requires Balance(w.zone, OwnedIn(w)) && HoldsOk(w.orders, w.holds, w.limbo) && w.zone.stream == map[]
    requires MarkersOk(w.zone.released, w.zone.claims, w.orders, w.holds, w.limbo)
    requires IsComplement(free, w.zone.geom, w.holds.Values)
    requires o in w.orders && (o in w.holds || o in w.limbo || OrderMarker(o) in w.zone.released)
    ensures ReturnWorks(w, w.zone.(free := free), o) <==> o !in w.limbo
  {
    var z := w.zone.(free := free);
    hide Persisted;
    if o in w.holds {
      RebuildBalances(w, w.holds, free);
      OwnedMeaning(map[], w.zone.released, w.orders, w.holds.Keys, OfOrder(o));
      ReleaseRemovesOwner(z, Owned(map[], w.zone.released, w.orders, w.holds.Keys), ReturnArgs(o, w.orders[o]), OfOrder(o));
    }
    if o in w.limbo {
      LimboTurnsFree(w, w.holds, free, o);
    }
  }

  /** A rebuild offers the seats of orders whose hold row it did not see for sale, every one of them. */
  lemma LimboTurnsFree(w: World, read: map<nat, Hold>, free: set<Run>, o: nat)
    requires Balance(w.zone, OwnedIn(w)) && Snapshot(w, read)
    requires IsComplement(free, w.zone.geom, read.Values) && o in w.limbo && o in w.orders && o !in read
    ensures var h := w.orders[o].place;
      && h.length >= 1
      && (forall p :: h.start <= p < h.End() ==> Free(free, h.block, p))
      && !Taken(free, h.block, h.start, h.End())
  {
    var owned := OwnedIn(w);
    var h := w.orders[o].place;
    OwnedMeaning(w.zone.stream, w.zone.released, w.orders, w.holds.Keys + w.limbo, OfOrder(o));
    assert owned[OfOrder(o)] == h && h in owned.Values;
    forall p | h.start <= p < h.End() ensures Free(free, h.block, p) {
      forall q | q in read ensures !read[q].Covers(h.block, p) {
        OwnedMeaning(w.zone.stream, w.zone.released, w.orders, w.holds.Keys + w.limbo, OfOrder(q));
        assert NoShare(owned[OfOrder(q)], owned[OfOrder(o)]);
      }
      assert !HeldBy(read.Values, h.block, p);
    }
    assert Free(free, h.block, h.start);
    var r :| r in free && r.Covers(h.block, h.start);
    assert r.block == h.block && r.start < h.End() && h.start < r.End();
  }

  /**
   * On an empty stream the drift check compares the runs with the complement of the hold rows.
   * It passes if and only if no order's seats are in limbo: exactly the leaks are reported, nothing else.
   */
  lemma DriftCheckFindsExactlyTheLeaks(w: World, expected: set<Run>)
    requires Inv(w) && w.zone.stream == map[] && IsComplement(expected, w.zone.geom, w.holds.Values)
    ensures w.zone.free == expected <==> w.limbo == {}
  {
    if w.limbo == {} {
      OwnedAtRest(w);
      ComplementIsUnique(w.zone.free, expected, w.zone.geom, w.holds.Values);
    } else {
      var o :| o in w.limbo;
      var h := w.orders[o].place;
      LimboTurnsFree(w, w.holds, expected, o);
      LimboIsTaken(w, o);
    }
  }

  /** With nothing in flight and nothing in limbo the hold rows are all there is. */
  lemma OwnedAtRest(w: World)
    requires Balance(w.zone, OwnedIn(w)) && HoldsOk(w.orders, w.holds, w.limbo) && w.zone.stream == map[] && w.limbo == {}
    ensures IsComplement(w.zone.free, w.zone.geom, w.holds.Values)
  {
    var owned := OwnedIn(w);
    forall x | x in owned ensures owned[x] in w.holds.Values {
      OwnedMeaning(w.zone.stream, w.zone.released, w.orders, w.holds.Keys + w.limbo, x);
      assert w.holds[x.order] == owned[x];
    }
    forall h | h in w.holds.Values ensures h in owned.Values {
      var o :| o in w.holds && w.holds[o] == h;
      OwnedMeaning(w.zone.stream, w.zone.released, w.orders, w.holds.Keys + w.limbo, OfOrder(o));
      assert owned[OfOrder(o)] == h;
    }
    hide Owned, IsComplement;
    assert owned.Values == w.holds.Values;
  }

  /** Seats in limbo are not free. */
  lemma LimboIsTaken(w: World, o: nat)
    requires Balance(w.zone, OwnedIn(w)) && HoldsOk(w.orders, w.holds, w.limbo) && o in w.limbo
    ensures var h := w.orders[o].place; !Free(w.zone.free, h.block, h.start)
  {
    var owned := OwnedIn(w);
    var h := w.orders[o].place;
    OwnedMeaning(w.zone.stream, w.zone.released, w.orders, w.holds.Keys + w.limbo, OfOrder(o));
    assert owned[OfOrder(o)] == h && h in owned.Values;
    assert h.length >= 1 && h.Covers(h.block, h.start);
    assert HeldBy(owned.Values, h.block, h.start);
  }

  /** Seats are taken in the rebuilt runs exactly where the read saw a hold row. */
  lemma TakenWhereHeld(free: set<Run>, geom: map<int, BlockGeom>, read: map<nat, Hold>, h: Hold)
    requires IsComplement(free, geom, read.Values) && h.length >= 1
    requires h.block in geom && 0 <= h.start && h.End() <= geom[h.block].capacity
    ensures Taken(free, h.block, h.start, h.End()) <==> forall p :: h.start <= p < h.End() ==> HeldBy(read.Values, h.block, p)
  {
    forall p | h.start <= p < h.End() && Taken(free, h.block, h.start, h.End()) ensures HeldBy(read.Values, h.block, p) {
      assert Exists(geom, h.block, p);
      assert !Free(free, h.block, p);
    }
    if forall p :: h.start <= p < h.End() ==> HeldBy(read.Values, h.block, p) {
      forall r | r in free && r.block == h.block ensures !(r.start < h.End() && h.start < r.End()) {
        var p := if r.start >= h.start then r.start else h.start;
        assert r.start < h.End() && h.start < r.End() ==> r.Covers(h.block, p);
        assert r.Covers(h.block, p) ==> Free(free, h.block, p);
      }
    }
  }

  /** Whatever happened since the read: a pending return works after the write iff its seats were all held at the read. */
  lemma ReturnWorksIff(w: World, read: map<nat, Hold>, free: set<Run>, o: nat)
    requires IsComplement(free, w.zone.geom, read.Values) && o in w.orders
    requires var h := w.orders[o].place; h.length >= 1 && h.block in w.zone.geom && 0 <= h.start && h.End() <= w.zone.geom[h.block].capacity
    ensures var h := w.orders[o].place;
      ReturnWorks(w, w.zone.(free := free), o) <==>
        OrderMarker(o) in w.zone.released || forall p :: h.start <= p < h.End() ==> HeldBy(read.Values, h.block, p)
  {
    var h := w.orders[o].place;
    TakenWhereHeld(free, w.zone.geom, read, h);
    hide Taken, IsComplement, HeldBy;
  }

  // ------------------------------------------------------------------ a read, any run of the pipeline, a write

  /** An accepted claim of this seat. */
  ghost predicate Claims(w: World, s: Step, b: int, p: int) {
    s.Reserve? && ClaimOutcome(w.zone, s.claim).Claimed? && ClaimedHold(s.claim).Covers(b, p)
  }

  /** A refund or return, not a repeat, that gives this seat back. */
  ghost predicate GivesUp(w: World, s: Step, b: int, p: int)
    requires Enabled(w, s)
  {
    match s
    case RefundEntry(t) =>
      var a := RefundArgs(w.tasks[t].intent);
      !w.tasks[t].persisted && ReleaseSucceeds(w.zone, a) && ReleasedHold(a).Covers(b, p)
    case ReturnSeats(t) =>
      var a := ReturnArgs(w.tasks[t].order, w.orders[w.tasks[t].order]);
      ReleaseSucceeds(w.zone, a) && ReleasedHold(a).Covers(b, p)
    case _ => false
  }

  lemma ClaimTakesSeat(z: Zone, a: ClaimArgs, b: int, p: int)
    requires Canonical(z.free) && a.length >= 1 && ClaimOutcome(z, a).Claimed?
    ensures Bit(Free(AfterClaim(z, a).free, b, p)) + Bit(ClaimedHold(a).Covers(b, p)) == Bit(Free(z.free, b, p))
  {
    OccupySetMeaning(z.free, a.Host(), a.start, a.length);
    assert ClaimedHold(a).Covers(b, p) ==> a.Host().Covers(b, p);
  }

  lemma ReleaseFreesSeat(z: Zone, a: ReleaseArgs, b: int, p: int)
    requires Canonical(z.free) && a.length >= 1 && ReleaseSucceeds(z, a)
    ensures Bit(Free(AfterRelease(z, a).free, b, p)) == Bit(Free(z.free, b, p)) + Bit(ReleasedHold(a).Covers(b, p))
  {
    ReleaseSetMeaning(z.free, a.block, a.start, a.End());
    if Free(z.free, b, p) {
      var r :| r in z.free && r.Covers(b, p);
      assert r.block == a.block ==> !(r.start < a.End() && a.start < r.End());
    }
  }

  /** Steps other than the three scripts do not touch the runs. */
  lemma OthersLeaveRuns(w: World, s: Step, b: int, p: int)
    requires Enabled(w, s) && !s.Reserve? && !s.RefundEntry? && !s.ReturnSeats? && !s.WriteRuns?
    ensures Next(w, s).zone.free == w.zone.free && Next(w, s).zone.geom == w.zone.geom
    ensures !Claims(w, s, b, p) && !GivesUp(w, s, b, p)
  {
  }

  lemma ReserveMovesSeat(w: World, a: ClaimArgs, b: int, p: int)
    requires Canonical(w.zone.free) && Enabled(w, Reserve(a))
    ensures var v := Next(w, Reserve(a));
      && Bit(Free(v.zone.free, b, p)) + Bit(Claims(w, Reserve(a), b, p)) == Bit(Free(w.zone.free, b, p))
      && !GivesUp(w, Reserve(a), b, p) && v.zone.geom == w.zone.geom
  {
    hide Free, OccupySet;
    if ClaimOutcome(w.zone, a).Claimed? {
      ClaimTakesSeat(w.zone, a, b, p);
    }
  }

  lemma ReleaseMovesSeat(w: World, s: Step, b: int, p: int)
    requires Inv(w) && Enabled(w, s) && (s.RefundEntry? || s.ReturnSeats?)
    ensures Bit(Free(Next(w, s).zone.free, b, p)) == Bit(Free(w.zone.free, b, p)) + Bit(GivesUp(w, s, b, p))
    ensures !Claims(w, s, b, p) && Next(w, s).zone.geom == w.zone.geom
  {
    var a := if s.RefundEntry? then RefundArgs(w.tasks[s.t].intent) else ReturnArgs(w.tasks[s.t].order, w.orders[w.tasks[s.t].order]);
    if ReleaseSucceeds(w.zone, a) && (s.RefundEntry? ==> !w.tasks[s.t].persisted) {
      if s.RefundEntry? {
        RefundHasSeats(w, s.t);
      } else {
        ReturnHasSeats(w, s.t);
      }
      BothCanonical(w);
      hide Inv, Free, ReleaseSet, ReleaseSucceeds;
      ReleaseFreesSeat(w.zone, a, b, p);
    }
  }

  /** A seat becomes taken by a claim of it and free by a release of it, and in no other way. */
  lemma SeatMoves(w: World, s: Step, b: int, p: int)
    requires Inv(w) && Enabled(w, s) && !s.WriteRuns?
    ensures Bit(Free(Next(w, s).zone.free, b, p)) + Bit(Claims(w, s, b, p)) == Bit(Free(w.zone.free, b, p)) + Bit(GivesUp(w, s, b, p))
    ensures Next(w, s).zone.geom == w.zone.geom
  {
    BothCanonical(w);
    hide *;
    match s
    case Reserve(a) => ReserveMovesSeat(w, a, b, p);
    case RefundEntry(_) => ReleaseMovesSeat(w, s, b, p);
    case ReturnSeats(_) => ReleaseMovesSeat(w, s, b, p);
    case _ => OthersLeaveRuns(w, s, b, p);
  }

  lemma RefundHasSeats(w: World, t: nat)
    requires Inv(w) && Enabled(w, RefundEntry(t)) && !w.tasks[t].persisted && RefundArgs(w.tasks[t].intent).marker !in w.zone.released
    ensures w.tasks[t].intent.quantity >= 1
  {
    hide Balance, MarkersOk, HoldsOk, Persisted;
    assert TaskOk(w.tasks[t], w.zone, w.orders, w.holds, w.limbo, w.deliveries, w.outbox);
  }

  lemma ReturnHasSeats(w: World, t: nat)
    requires Inv(w) && Enabled(w, ReturnSeats(t)) && OrderMarker(w.tasks[t].order) !in w.zone.released
    ensures w.orders[w.tasks[t].order].place.length >= 1
  {
    hide KeysOk, Persisted;
    var o := w.tasks[t].order;
    assert TaskOk(w.tasks[t], w.zone, w.orders, w.holds, w.limbo, w.deliveries, w.outbox);
    OwnedMeaning(w.zone.stream, w.zone.released, w.orders, w.holds.Keys + w.limbo, OfOrder(o));
    assert OwnedIn(w)[OfOrder(o)] in OwnedIn(w).Values;
  }

  ghost function ClaimedIn(w: World, steps: seq<Step>, b: int, p: int): nat
    requires Possible(w, steps)
    decreases steps
  {
    if steps == [] then 0 else Bit(Claims(w, steps[0], b, p)) + ClaimedIn(Next(w, steps[0]), steps[1..], b, p)
  }

  ghost function GivenUpIn(w: World, steps: seq<Step>, b: int, p: int): nat
    requires Possible(w, steps)
    decreases steps
  {
    if steps == [] then 0 else Bit(GivesUp(w, steps[0], b, p)) + GivenUpIn(Next(w, steps[0]), steps[1..], b, p)
  }

  lemma {:induction false} SeatOverRun(w: World, steps: seq<Step>, b: int, p: int)
    requires Inv(w) && Possible(w, steps) && NoRebuild(steps)
    ensures var v := AfterSteps(w, steps);
      && Bit(Free(v.zone.free, b, p)) + ClaimedIn(w, steps, b, p) == Bit(Free(w.zone.free, b, p)) + GivenUpIn(w, steps, b, p)
      && v.zone.geom == w.zone.geom
    decreases steps
  {
    hide Inv, Enabled, Next, Claims, GivesUp, Free;
    if steps != [] {
      StepKeeps(w, steps[0]);
      SeatMoves(w, steps[0], b, p);
      SeatOverRun(Next(w, steps[0]), steps[1..], b, p);
    }
  }

  /**
   * What a rebuild gets wrong about one seat, hold rows read at `w` and runs written after `steps`: one if the
   * seat is somebody's and offered again, minus one if it is nobody's and not offered any more.
   */
  ghost function SeatError(w: World, steps: seq<Step>, b: int, p: int): int
    requires Possible(w, steps)
  {
    Bit(InStream(w, b, p)) + Bit(InLimbo(w, b, p)) + ClaimedIn(w, steps, b, p) - GivenUpIn(w, steps, b, p)
  }

  /**
   * Seat by seat, the written runs are right if and only if seats that no hold row showed at the read, and
   * claims until the write, are made up for by seats given back until the write.
   */
  lemma RebuiltSeatIsRightIff(w: World, steps: seq<Step>, free: set<Run>, b: int, p: int)
    requires Inv(w) && Possible(w, steps) && NoRebuild(steps)
    requires IsComplement(free, w.zone.geom, w.holds.Values) && Exists(w.zone.geom, b, p)
    ensures var v := AfterSteps(w, steps);
      && Bit(Free(free, b, p)) == Bit(Free(v.zone.free, b, p)) + SeatError(w, steps, b, p)
      && ((Free(free, b, p) <==> Free(v.zone.free, b, p)) <==> SeatError(w, steps, b, p) == 0)
  {
    SeatOverRun(w, steps, b, p);
    OneFate(w, b, p);
    HeldIsInHold(w, b, p);
    assert Free(free, b, p) <==> !HeldBy(w.holds.Values, b, p);
    hide Inv, Possible, AfterSteps, ClaimedIn, GivenUpIn, InStream, InHold, InLimbo, Free, HeldBy, IsComplement;
  }

  lemma HeldIsInHold(w: World, b: int, p: int)
    ensures HeldBy(w.holds.Values, b, p) <==> InHold(w, b, p)
  {
    if HeldBy(w.holds.Values, b, p) {
      var h :| h in w.holds.Values && h.Covers(b, p);
      var o :| o in w.holds && w.holds[o] == h;
    }
    if InHold(w, b, p) {
      var o :| o in w.holds && w.holds[o].Covers(b, p);
      assert w.holds[o] in w.holds.Values;
    }
  }

  /** The whole zone is right exactly when every seat is. */
  lemma RebuildIsRightIff(w: World, steps: seq<Step>, free: set<Run>)
    requires Inv(w) && Possible(w, steps) && NoRebuild(steps) && IsComplement(free, w.zone.geom, w.holds.Values)
    ensures free == AfterSteps(w, steps).zone.free <==>
      forall b, p :: Exists(w.zone.geom, b, p) ==> SeatError(w, steps, b, p) == 0
  {
    AlwaysSound(w, steps);
    var v := AfterSteps(w, steps);
    forall b, p ensures Exists(w.zone.geom, b, p) ==> (SeatError(w, steps, b, p) == 0 <==> (Free(free, b, p) <==> Free(v.zone.free, b, p)))
                ensures !Exists(w.zone.geom, b, p) ==> !Free(free, b, p) && !Free(v.zone.free, b, p) {
      SeatOverRun(w, steps, b, p);
      if Exists(w.zone.geom, b, p) {
        RebuiltSeatIsRightIff(w, steps, free, b, p);
      } else {
        NoSuchSeat(v, b, p);
      }
    }
    BothCanonical(v);
    hide Inv, Possible, AfterSteps, SeatError, Free, Exists;
    if forall b, p :: Exists(w.zone.geom, b, p) ==> SeatError(w, steps, b, p) == 0 {
      forall b, p ensures Free(free, b, p) <==> Free(v.zone.free, b, p) {
      }
      CanonicalForm(free, v.zone.free);
    }
  }

  lemma BothCanonical(w: World)
    requires Inv(w)
    ensures Canonical(w.zone.free)
  {
  }

  lemma NoSuchSeat(w: World, b: int, p: int)
    requires Inv(w) && !Exists(w.zone.geom, b, p)
    ensures !Free(w.zone.free, b, p)
  {
    hide KeysOk, MarkersOk, HoldsOk, TasksOk;
  }

  // ------------------------------------------------------------------ quiet stretches

  /** Some claim is accepted, or some release is not a repeat. */
  ghost predicate ClaimsAny(w: World, s: Step) {
    s.Reserve? && ClaimOutcome(w.zone, s.claim).Claimed?
  }

  ghost predicate GivesUpAny(w: World, s: Step)
    requires Enabled(w, s)
  {
    match s
    case RefundEntry(t) => !w.tasks[t].persisted && ReleaseSucceeds(w.zone, RefundArgs(w.tasks[t].intent))
    case ReturnSeats(t) => ReleaseSucceeds(w.zone, ReturnArgs(w.tasks[t].order, w.orders[w.tasks[t].order]))
    case _ => false
  }

  ghost predicate NothingClaimed(w: World, steps: seq<Step>)
    requires Possible(w, steps)
    decreases steps
  {
    steps == [] || (!ClaimsAny(w, steps[0]) && NothingClaimed(Next(w, steps[0]), steps[1..]))
  }

  ghost predicate NothingGivenUp(w: World, steps: seq<Step>)
    requires Possible(w, steps)
    decreases steps
  {
    steps == [] || (!GivesUpAny(w, steps[0]) && NothingGivenUp(Next(w, steps[0]), steps[1..]))
  }

  lemma {:induction false} QuietSeat(w: World, steps: seq<Step>, b: int, p: int)
    requires Possible(w, steps)
    ensures NothingClaimed(w, steps) ==> ClaimedIn(w, steps, b, p) == 0
    ensures NothingGivenUp(w, steps) ==> GivenUpIn(w, steps, b, p) == 0
    decreases steps
  {
    if steps != [] {
      assert Claims(w, steps[0], b, p) ==> ClaimsAny(w, steps[0]);
      assert GivesUp(w, steps[0], b, p) ==> GivesUpAny(w, steps[0]);
      hide Enabled, Next, Claims, GivesUp, ClaimsAny, GivesUpAny;
      QuietSeat(Next(w, steps[0]), steps[1..], b, p);
    }
  }

  /** An accepted claim is one of some existing seat. */
  lemma {:induction false} SomeSeatClaimed(w: World, steps: seq<Step>) returns (b: int, p: int)
    requires Inv(w) && Possible(w, steps) && NoRebuild(steps) && !NothingClaimed(w, steps)
    ensures Exists(w.zone.geom, b, p) && ClaimedIn(w, steps, b, p) >= 1
    decreases steps
  {
    if ClaimsAny(w, steps[0]) {
      var a := steps[0].claim;
      b, p := a.block, a.start;
      ClaimedSeatExists(w, a);
      assert Claims(w, steps[0], b, p);
    } else {
      StepKeeps(w, steps[0]);
      SeatMoves(w, steps[0], 0, 0);
      hide Inv, Enabled, Next, ClaimsAny, Claims;
      b, p := SomeSeatClaimed(Next(w, steps[0]), steps[1..]);
    }
  }

  lemma ClaimedSeatExists(w: World, a: ClaimArgs)
    requires Inv(w) && Enabled(w, Reserve(a)) && ClaimOutcome(w.zone, a).Claimed?
    ensures Exists(w.zone.geom, a.block, a.start)
  {
    hide KeysOk, MarkersOk, HoldsOk, TasksOk;
    RunsExist(w.zone, OwnedIn(w).Values, a.Host());
  }

  /** Seats in flight or in limbo are some existing seat's. */
  lemma UnseenSeat(w: World) returns (b: int, p: int)
    requires Inv(w) && !NothingUnseen(w)
    ensures Exists(w.zone.geom, b, p) && (InStream(w, b, p) || InLimbo(w, b, p))
  {
    var owned := OwnedIn(w);
    if w.limbo != {} {
      var o :| o in w.limbo;
      OwnedMeaning(w.zone.stream, w.zone.released, w.orders, w.holds.Keys + w.limbo, OfOrder(o));
      assert owned[OfOrder(o)] in owned.Values;
      b, p := w.orders[o].place.block, w.orders[o].place.start;
      assert w.orders[o].place.Covers(b, p);
    } else {
      var e :| e in w.zone.stream && InFlight(w.zone.released, w.orders, w.zone.stream[e]);
      OwnedMeaning(w.zone.stream, w.zone.released, w.orders, w.holds.Keys + w.limbo, OfEntry(e));
      assert owned[OfEntry(e)] in owned.Values;
      b, p := w.zone.stream[e].block, w.zone.stream[e].start;
      assert PlaceOf(w.zone.stream[e]).Covers(b, p);
    }
  }

  /** Every claimed seat shows in a hold row. */
  ghost predicate NothingUnseen(w: World) {
    w.limbo == {} && forall e :: e in w.zone.stream ==> !InFlight(w.zone.released, w.orders, w.zone.stream[e])
  }

  /**
   * As long as nothing is given back between the read and the write, the written runs are right if and only if
   * nothing was in flight or in limbo at the read and nothing is claimed until the write.
   */
  lemma RebuildWithoutReturnsIff(w: World, steps: seq<Step>, free: set<Run>)
    requires Inv(w) && Possible(w, steps) && NoRebuild(steps) && NothingGivenUp(w, steps)
    requires IsComplement(free, w.zone.geom, w.holds.Values)
    ensures free == AfterSteps(w, steps).zone.free <==> NothingUnseen(w) && NothingClaimed(w, steps)
  {
    RebuildIsRightIff(w, steps, free);
    forall b, p ensures GivenUpIn(w, steps, b, p) == 0 && (NothingClaimed(w, steps) ==> ClaimedIn(w, steps, b, p) == 0) {
      QuietSeat(w, steps, b, p);
    }
    if !NothingUnseen(w) {
      var b, p := UnseenSeat(w);
      assert SeatError(w, steps, b, p) > 0;
    } else if !NothingClaimed(w, steps) {
      var b, p := SomeSeatClaimed(w, steps);
      assert SeatError(w, steps, b, p) > 0;
    } else {
      hide Inv, Possible, AfterSteps, IsComplement;
      assert forall b, p :: !InStream(w, b, p) && !InLimbo(w, b, p);
    }
  }

  /** The backlog check is good for the moment of the read as long as nobody claims in between. */
  lemma {:induction false} NothingInFlight(w: World, steps: seq<Step>)
    requires Possible(w, steps) && w.zone.stream == map[] && NothingClaimed(w, steps)
    ensures AfterSteps(w, steps).zone.stream == map[]
    decreases steps
  {
    if steps != [] {
      StreamStaysEmpty(w, steps[0]);
      hide Enabled, Next, ClaimsAny;
      NothingInFlight(Next(w, steps[0]), steps[1..]);
    }
  }

  lemma StreamStaysEmpty(w: World, s: Step)
    requires Enabled(w, s) && w.zone.stream == map[] && !ClaimsAny(w, s)
    ensures Next(w, s).zone.stream == map[]
  {
  }

  /**
   * In the order of the code: backlog check at `w`, hold rows read after `first`, runs written after `last`.
   * With no claim before the read and nothing given back after it, the runs are right if and only if nothing is
   * in limbo at the read and nothing is claimed until the write.
   */
  lemma RebuildInCodeOrder(w: World, first: seq<Step>, last: seq<Step>, free: set<Run>)
    requires Inv(w) && w.zone.stream == map[] && Possible(w, first) && NoRebuild(first) && NothingClaimed(w, first)
    requires var read := AfterSteps(w, first); Possible(read, last) && NoRebuild(last) && NothingGivenUp(read, last)
    requires IsComplement(free, AfterSteps(w, first).zone.geom, AfterSteps(w, first).holds.Values)
    ensures var read := AfterSteps(w, first);
      free == AfterSteps(read, last).zone.free <==> read.limbo == {} && NothingClaimed(read, last)
  {
    AlwaysSound(w, first);
    NothingInFlight(w, first);
    hide Inv, IsComplement, Possible, AfterSteps, NothingClaimed, NothingGivenUp;
    RebuildWithoutReturnsIff(AfterSteps(w, first), last, free);
  }
}
