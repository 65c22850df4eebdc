/** What happens to the seats of a finished order: held, in limbo, or back on sale exactly once. */
module SeatedPromises {
  import opened Basics
  import opened Quota
  import opened Orders
  import opened RunSets
  import opened SeatZone
  import opened SeatComplement
  import opened SeatOwners
  import opened Delivery
  import opened SeatedPipeline
  import opened SeatedSteps
  import opened SeatedSafety
  import opened SeatedRebuild

  // ------------------------------------------------------------------ back exactly once

  /** The order still has its seats: a hold row, or seats in limbo. */
  predicate HasSeats(w: World, o: nat) {
    o in w.holds || o in w.limbo
  }

  /** This step ends it: a release script, or a rebuild over seats in limbo. */
  ghost predicate GivesBack(w: World, s: Step, o: nat) {
    Enabled(w, s) && HasSeats(w, o) && !HasSeats(Next(w, s), o)
  }

  /** Whatever step it is, all seats of the order are on sale right after it. */
  lemma GivingBackFreesSeats(w: World, s: Step, o: nat)
    requires Inv(w) && GivesBack(w, s, o)
    ensures o in w.orders && w.orders[o].status.OwesRelease()
    ensures var h := w.orders[o].place; forall p :: h.start <= p < h.End() ==> Free(Next(w, s).zone.free, h.block, p)
  {
    hide Balance, KeysOk, MarkersOk, Persisted, InFlight, IsComplement, OccupySet, ReleaseSet;
    assert s.ReturnSeats? || s.WriteRuns?;
    assert TaskOk(w.tasks[s.t], w.zone, w.orders, w.holds, w.limbo, w.deliveries, w.outbox);
    if s.ReturnSeats? {
      ReturnFrees(w, o);
    } else {
      ReadIsSnapshot(w, s.t, s.free);
      LimboTurnsFree(w, w.tasks[s.t].read, s.free, o);
    }
  }

  lemma ReturnFrees(w: World, o: nat)
    requires Inv(w) && o in w.limbo
    ensures o in w.orders
    ensures var h := w.orders[o].place;
      forall p :: h.start <= p < h.End() ==> Free(AfterRelease(w.zone, ReturnArgs(o, w.orders[o])).free, h.block, p)
  {
    hide KeysOk, TasksOk, Owned;
    ReturnGoesThrough(w, o);
    var h := w.orders[o].place;
    if h.start < h.End() {
      ReleaseSetMeaning(w.zone.free, h.block, h.start, h.End());
    }
  }

  /** Only an order being stored gets seats, and it gets them then. */
  lemma SeatsComeWithTheOrder(w: World, s: Step, o: nat)
    requires Inv(w) && Enabled(w, s)
    ensures Bit(GivesBack(w, s, o)) + Bit(HasSeats(Next(w, s), o)) + Bit(o in w.orders) == Bit(HasSeats(w, o)) + Bit(o in Next(w, s).orders)
  {
    hide Balance, KeysOk, MarkersOk, TasksOk, Persisted, AfterClaim, AfterRelease, IsComplement;
  }

  /** How often a run puts the seats of an order back on sale. */
  ghost function GivenBack(w: World, steps: seq<Step>, o: nat): nat
    requires Possible(w, steps)
    decreases steps
  {
    if steps == [] then 0
    else Bit(GivesBack(w, steps[0], o)) + GivenBack(Next(w, steps[0]), steps[1..], o)
  }

  lemma {:induction false} SeatsComeAndGoOnce(w: World, steps: seq<Step>, o: nat)
    requires Inv(w) && Possible(w, steps)
    ensures var v := AfterSteps(w, steps);
      GivenBack(w, steps, o) + Bit(HasSeats(v, o)) + Bit(o in w.orders) == Bit(HasSeats(w, o)) + Bit(o in v.orders)
    decreases steps
  {
    hide Inv, Enabled, Next, GivesBack, HasSeats;
    if steps != [] {
      StepKeeps(w, steps[0]);
      SeatsComeWithTheOrder(w, steps[0], o);
      SeatsComeAndGoOnce(Next(w, steps[0]), steps[1..], o);
    }
  }

  /** Over any run every stored order's seats are held, in limbo, or were put back on sale exactly once. */
  lemma HeldLimboOrBackOnce(w: World, steps: seq<Step>, o: nat)
    requires Initial(w) && Possible(w, steps)
    ensures var v := AfterSteps(w, steps);
      GivenBack(w, steps, o) + Bit(o in v.holds) + Bit(o in v.limbo) == Bit(o in v.orders)
  {
    InitialIsSound(w);
    SeatsComeAndGoOnce(w, steps, o);
    AlwaysSound(w, steps);
    assert HoldsOk(AfterSteps(w, steps).orders, AfterSteps(w, steps).holds, AfterSteps(w, steps).limbo);
    hide Possible, AfterSteps, Balance, KeysOk, MarkersOk, TasksOk, GivenBack;
  }

  // ------------------------------------------------------------------ what a processed row proves

  /**
   * A processed outbox row means that the seats are back if and only if the order is not in limbo,
   * over every run, rebuilds included; and then they came back exactly once.
   */
  lemma ProcessedMeansBackIff(w: World, steps: seq<Step>, r: nat)
    requires Initial(w) && Possible(w, steps)
    ensures var v := AfterSteps(w, steps);
      r in v.outbox && v.outbox[r].processed ==>
        && v.outbox[r].order in v.orders && v.outbox[r].order !in v.holds
        && (GivenBack(w, steps, v.outbox[r].order) == 1 <==> v.outbox[r].order !in v.limbo)
  {
    var v := AfterSteps(w, steps);
    if r in v.outbox {
      HeldLimboOrBackOnce(w, steps, v.outbox[r].order);
      ProcessedMeansDropped(w, steps, r);
    }
  }

  /** Every stored order without a hold row is in limbo or carries its marker; only a rebuild can end that. */
  ghost predicate Accounted(w: World) {
    forall o :: o in w.orders && o !in w.holds ==> o in w.limbo || OrderMarker(o) in w.zone.released
  }

  lemma AccountedStays(w: World, s: Step)
    requires Inv(w) && Enabled(w, s) && Accounted(w) && !s.WriteRuns?
    ensures Accounted(Next(w, s))
  {
    hide Balance, KeysOk, Persisted, OccupySet, ReleaseSet;
    if s.ReturnSeats? {
      assert TaskOk(w.tasks[s.t], w.zone, w.orders, w.holds, w.limbo, w.deliveries, w.outbox);
      if OrderMarker(w.tasks[s.t].order) !in w.zone.released {
        ReturnGoesThrough(w, w.tasks[s.t].order);
      }
    }
  }

  lemma {:induction false} AccountedAlways(w: World, steps: seq<Step>)
    requires Inv(w) && Accounted(w) && Possible(w, steps) && NoRebuild(steps)
    ensures Accounted(AfterSteps(w, steps))
    decreases steps
  {
    hide Inv, Enabled, Next, Accounted;
    if steps != [] {
      StepKeeps(w, steps[0]);
      AccountedStays(w, steps[0]);
      AccountedAlways(Next(w, steps[0]), steps[1..]);
    }
  }

  /** Without rebuilds a processed row is a kept promise, marker and all, if and only if the order is not in limbo. */
  lemma ProcessedMeansReturnedIff(w: World, steps: seq<Step>, r: nat)
    requires Initial(w) && Possible(w, steps) && NoRebuild(steps)
    ensures var v := AfterSteps(w, steps);
      r in v.outbox && v.outbox[r].processed ==>
        (OrderMarker(v.outbox[r].order) in v.zone.released <==> v.outbox[r].order !in v.limbo)
  {
    InitialIsSound(w);
    AlwaysSound(w, steps);
    AccountedAlways(w, steps);
    ProcessedMeansDropped(w, steps, r);
    hide Possible, AfterSteps, Balance, KeysOk, TasksOk, Persisted;
  }

  /** Some run without a rebuild still gets the order's marker set. */
  ghost predicate StillReturnable(w: World, o: nat) {
    exists steps: seq<Step> :: Possible(w, steps) && NoRebuild(steps) && OrderMarker(o) in AfterSteps(w, steps).zone.released
  }

  /** Some worker has read the order's hold row and is about to return the seats. */
  ghost predicate ReturnPending(w: World, o: nat) {
    exists t :: t in w.tasks && w.tasks[t].WillReturn(o)
  }

  /**
   * A relay that finds no hold row marks the outbox row all the same. The promise is or will be kept
   * if and only if the marker is set or another worker has read the hold row and is about to return the seats.
   */
  lemma NoHoldMeansReturnableIff(w: World, o: nat)
    requires Inv(w) && Accounted(w) && o in w.orders && o !in w.holds
    ensures StillReturnable(w, o) <==> OrderMarker(o) in w.zone.released || ReturnPending(w, o)
  {
    if OrderMarker(o) in w.zone.released {
      NoSteps(w);
      assert NoRebuild([]);
    } else if t :| t in w.tasks && w.tasks[t].WillReturn(o) {
      var steps := PendingReturnRuns(w, o, t);
    } else {
      assert Leaked(w, o);
      forall steps: seq<Step> | Possible(w, steps) && NoRebuild(steps)
        ensures OrderMarker(o) !in AfterSteps(w, steps).zone.released
      {
        LeakedIsNotReturned(w, steps, o);
      }
    }
  }

  /** The same, at the relay's own step. */
  lemma RelayKeepsPromiseIff(w: World, t: nat)
    requires Inv(w) && Accounted(w) && Enabled(w, ReadHold(t)) && w.tasks[t].order !in w.holds
    ensures var o := w.tasks[t].order;
      StillReturnable(Next(w, ReadHold(t)), o) <==> OrderMarker(o) in w.zone.released || ReturnPending(w, o)
  {
    ReadFindsNothing(w, t);
    hide Inv, StillReturnable, ReturnPending, Next, Enabled, Accounted;
    StepKeeps(w, ReadHold(t));
    AccountedStays(w, ReadHold(t));
    NoHoldMeansReturnableIff(Next(w, ReadHold(t)), w.tasks[t].order);
  }

  lemma ReadFindsNothing(w: World, t: nat)
    requires Inv(w) && Enabled(w, ReadHold(t)) && w.tasks[t].order !in w.holds
    ensures var o, v := w.tasks[t].order, Next(w, ReadHold(t));
      && o in v.orders && v.holds == w.holds && v.zone == w.zone
      && (ReturnPending(v, o) <==> ReturnPending(w, o))
  {
    var o, v := w.tasks[t].order, Next(w, ReadHold(t));
    hide Balance, KeysOk, MarkersOk, Persisted;
    assert TaskOk(w.tasks[t], w.zone, w.orders, w.holds, w.limbo, w.deliveries, w.outbox);
    hide Inv;
    if u :| u in w.tasks && w.tasks[u].WillReturn(o) {
      assert u in v.tasks && v.tasks[u].WillReturn(o);
    }
  }

  lemma LeakedIsNotReturned(w: World, steps: seq<Step>, o: nat)
    requires Inv(w) && Leaked(w, o) && Possible(w, steps) && NoRebuild(steps)
    ensures OrderMarker(o) !in AfterSteps(w, steps).zone.released
  {
    LeakLastsUntilRebuild(w, steps, o);
    AlwaysSound(w, steps);
    hide Possible, AfterSteps, Balance, KeysOk, TasksOk, HoldsOk, Persisted;
  }

  /** A worker that has read the hold row gets the marker set within two steps. */
  lemma PendingReturnRuns(w: World, o: nat, t: nat) returns (steps: seq<Step>)
    requires Inv(w) && t in w.tasks && w.tasks[t].WillReturn(o)
    ensures Possible(w, steps) && NoRebuild(steps) && OrderMarker(o) in AfterSteps(w, steps).zone.released
  {
    assert TaskOk(w.tasks[t], w.zone, w.orders, w.holds, w.limbo, w.deliveries, w.outbox);
    NoSteps(w);
    steps := [];
    hide Possible, AfterSteps, TasksOk, Inv;
    if w.tasks[t].Dropping? {
      ThenOne(w, steps, DropHold(t));
      steps := steps + [DropHold(t)];
      AlwaysSound(w, steps);
    }
    var mid := AfterSteps(w, steps);
    assert mid.tasks[t].Returning? && mid.tasks[t].order == o && o in mid.orders;
    ReturnSets(mid, o, t);
    ThenOne(w, steps, ReturnSeats(t));
    steps := steps + [ReturnSeats(t)];
  }

  lemma ReturnSets(w: World, o: nat, t: nat)
    requires Inv(w) && t in w.tasks && w.tasks[t].Returning? && w.tasks[t].order == o
    ensures Enabled(w, ReturnSeats(t)) && OrderMarker(o) in Next(w, ReturnSeats(t)).zone.released
  {
    hide Balance, KeysOk, Persisted, ReleaseSet;
    assert TaskOk(w.tasks[t], w.zone, w.orders, w.holds, w.limbo, w.deliveries, w.outbox);
    if OrderMarker(o) !in w.zone.released {
      ReturnGoesThrough(w, o);
    }
  }

  /** A processed outbox row says that the hold row is gone, and no more than that. */
  lemma ProcessedMeansDropped(w: World, steps: seq<Step>, r: nat)
    requires Initial(w) && Possible(w, steps)
    ensures var v := AfterSteps(w, steps);
      r in v.outbox && v.outbox[r].processed ==> v.outbox[r].order in v.orders && v.outbox[r].order !in v.holds
  {
    InitialIsSound(w);
    AlwaysSound(w, steps);
    hide Initial, Possible, AfterSteps, Balance, TaskOk, KeysOk, MarkersOk, HoldsOk;
  }

  /**
   * The run behind the gap: the fast path deletes the hold and dies, the relay finds no hold and marks the row.
   * The row is processed, the seats are not back, and nobody is left who will return them.
   */
  lemma ProcessedRowMayLeak(w: World, o: nat, t: nat, u: nat, r: nat, now: int) returns (steps: seq<Step>)
    requires Inv(w) && t in w.tasks && w.tasks[t] == Releasing(o, None) && o in w.holds
    requires r in w.outbox && w.outbox[r] == Row(o, 0, 0, false) && now >= 0 && u !in w.tasks
    requires forall x :: x in w.tasks ==> !w.tasks[x].WillReturn(o)
    ensures Possible(w, steps)
    ensures var v := AfterSteps(w, steps);
      && r in v.outbox && v.outbox[r].order == o && v.outbox[r].processed
      && Leaked(v, o) && OrderMarker(o) !in v.zone.released
  {
    assert OrderMarker(o) !in w.zone.released;
    hide Inv;
    steps := FastPathDies(w, o, t);
    hide Possible, AfterSteps;
    steps := RelayFindsNothing(w, steps, o, u, r, now);
  }

  lemma FastPathDies(w: World, o: nat, t: nat) returns (steps: seq<Step>)
    requires t in w.tasks && w.tasks[t] == Releasing(o, None) && o in w.holds
    ensures Possible(w, steps)
    ensures AfterSteps(w, steps) == w.(holds := w.holds - {o}, limbo := w.limbo + {o}, tasks := w.tasks - {t})
  {
    NoSteps(w);
    hide Possible, AfterSteps;
    ThenOne(w, [], ReadHold(t));
    steps := [] + [ReadHold(t)];
    ThenOne(w, steps, DropHold(t));
    steps := steps + [DropHold(t)];
    ThenOne(w, steps, Stop(t));
    steps := steps + [Stop(t)];
    assert AfterSteps(w, steps).tasks == w.tasks - {t};
  }

  lemma RelayFindsNothing(w: World, past: seq<Step>, o: nat, u: nat, r: nat, now: int) returns (steps: seq<Step>)
    requires Possible(w, past)
    requires var mid := AfterSteps(w, past);
      && r in mid.outbox && mid.outbox[r] == Row(o, 0, 0, false) && now >= 0 && u !in mid.tasks && o !in mid.holds
    ensures Possible(w, steps)
    ensures var mid, v := AfterSteps(w, past), AfterSteps(w, steps);
      && v == mid.(outbox := v.outbox)
      && r in v.outbox && v.outbox[r].order == o && v.outbox[r].processed
  {
    hide Possible, AfterSteps;
    ThenOne(w, past, ClaimRow(u, r, now));
    steps := past + [ClaimRow(u, r, now)];
    ThenOne(w, steps, ReadHold(u));
    steps := steps + [ReadHold(u)];
    ThenOne(w, steps, MarkRow(u));
    steps := steps + [MarkRow(u)];
    assert AfterSteps(w, steps).tasks == AfterSteps(w, past).tasks;
  }

  // ------------------------------------------------------------------ the failing runs, from a freshly rebuilt zone

  /** One order is claimed, stored and acknowledged. */
  lemma OneOrderSeated(w: World, a: ClaimArgs, t: nat, o: nat) returns (steps: seq<Step>)
    requires Initial(w) && a.length >= 1 && ClaimOutcome(w.zone, a).Claimed?
    ensures Possible(w, steps)
    ensures var v := AfterSteps(w, steps);
      && v.zone.stream == map[] && v.zone.released == {} && v.limbo == {} && v.outbox == map[] && v.tasks == map[]
      && v.holds == map[o := ClaimedHold(a)] && v.orders == map[o := SeatedOrder(a.user, a.totalCents, a.key, ClaimedHold(a), PENDING)]
  {
    var e := w.zone.nextId;
    NoSteps(w);
    hide Possible, AfterSteps, OccupySet, Seats;
    ThenOne(w, [], Reserve(a));
    assert [] + [Reserve(a)] == [Reserve(a)];
    steps := [Reserve(a)];
    ThenOne(w, steps, Deliver(t, e));
    steps := steps + [Deliver(t, e)];
    steps := StoredAndAcked(w, steps, a, t, o, e);
  }

  lemma StoredAndAcked(w: World, past: seq<Step>, a: ClaimArgs, t: nat, o: nat, e: nat) returns (steps: seq<Step>)
    requires Possible(w, past)
    requires var u := AfterSteps(w, past); var i := Intent(a.user, a.length, a.totalCents, a.key, a.block, a.start);
      && u.zone.stream == map[e := i] && u.zone.released == {} && u.limbo == {} && u.outbox == map[]
      && u.tasks == map[t := Persisting(e, i)] && u.holds == map[] && u.orders == map[]
    ensures Possible(w, steps)
    ensures var v := AfterSteps(w, steps);
      && v.zone.stream == map[] && v.zone.released == {} && v.limbo == {} && v.outbox == map[] && v.tasks == map[]
      && v.holds == map[o := ClaimedHold(a)] && v.orders == map[o := SeatedOrder(a.user, a.totalCents, a.key, ClaimedHold(a), PENDING)]
  {
    hide Possible, AfterSteps;
    ThenOne(w, past, Insert(t, o));
    steps := past + [Insert(t, o)];
    ThenOne(w, steps, Ack(t));
    steps := steps + [Ack(t)];
  }

  /** It expires, and the fast path is about to return its seats. */
  lemma OneOrderExpired(w: World, a: ClaimArgs, t: nat, o: nat, row: nat) returns (steps: seq<Step>)
    requires Initial(w) && a.length >= 1 && ClaimOutcome(w.zone, a).Claimed?
    ensures Possible(w, steps)
    ensures var v := AfterSteps(w, steps);
      && v.zone.stream == map[] && v.zone.released == {} && v.limbo == {}
      && v.outbox == map[row := Row(o, 0, 0, false)] && v.tasks == map[t := Releasing(o, None)]
      && v.holds == map[o := ClaimedHold(a)] && o in v.orders
  {
    steps := OneOrderSeated(w, a, t, o);
    hide Possible, AfterSteps, Initial;
    ThenOne(w, steps, Decide(o, EXPIRED, row, t));
    steps := steps + [Decide(o, EXPIRED, row, t)];
  }

  /** From a fresh zone: the relay marks the row of an order whose seats never come back. */
  lemma LeakFromTheStart(w: World, a: ClaimArgs, t: nat, u: nat, o: nat, row: nat, now: int) returns (steps: seq<Step>)
    requires Initial(w) && a.length >= 1 && ClaimOutcome(w.zone, a).Claimed? && t != u && now >= 0
    ensures Possible(w, steps)
    ensures var v := AfterSteps(w, steps);
      && row in v.outbox && v.outbox[row].order == o && v.outbox[row].processed
      && Leaked(v, o) && OrderMarker(o) !in v.zone.released && !StillReturnable(v, o)
  {
    var start := OneOrderExpired(w, a, t, o, row);
    InitialIsSound(w);
    hide Possible, AfterSteps, Initial, Inv, StillReturnable, Enabled, Next;
    AlwaysSound(w, start);
    var more := ProcessedRowMayLeak(AfterSteps(w, start), o, t, u, row, now);
    ThenMore(w, start, more);
    steps := start + more;
    AlwaysSound(w, steps);
    NotReturnable(AfterSteps(w, steps), o);
  }

  lemma NotReturnable(w: World, o: nat)
    requires Inv(w) && Leaked(w, o)
    ensures !StillReturnable(w, o)
  {
    forall steps: seq<Step> | Possible(w, steps) && NoRebuild(steps)
      ensures OrderMarker(o) !in AfterSteps(w, steps).zone.released
    {
      LeakedIsNotReturned(w, steps, o);
    }
  }

  /** From a fresh zone: the stream is empty, and a rebuild would make a release under way fail. */
  lemma UnsafeRebuildFromTheStart(w: World, a: ClaimArgs, t: nat, o: nat, row: nat) returns (steps: seq<Step>)
    requires Initial(w) && a.length >= 1 && ClaimOutcome(w.zone, a).Claimed?
    ensures Possible(w, steps)
    ensures var v := AfterSteps(w, steps);
      && v.zone.stream == map[] && v.limbo == {o} && t in v.tasks && v.tasks[t].Returning? && v.tasks[t].order == o
      && forall free :: IsComplement(free, v.zone.geom, v.holds.Values) ==> !PendingReturnsWork(v, v.zone.(free := free))
  {
    steps := OneOrderDropped(w, a, t, o, row);
    InitialIsSound(w);
    hide Possible, AfterSteps, Initial, Inv, IsComplement, PendingReturnsWork;
    AlwaysSound(w, steps);
    var v := AfterSteps(w, steps);
    assert v.tasks[t].order in v.limbo;
    forall free | IsComplement(free, v.zone.geom, v.holds.Values) ensures !PendingReturnsWork(v, v.zone.(free := free)) {
      RebuildIsSafeIff(v, free);
    }
  }

  /** Its hold row is gone, and the release script is still to run. */
  lemma OneOrderDropped(w: World, a: ClaimArgs, t: nat, o: nat, row: nat) returns (steps: seq<Step>)
    requires Initial(w) && a.length >= 1 && ClaimOutcome(w.zone, a).Claimed?
    ensures Possible(w, steps)
    ensures var v := AfterSteps(w, steps); v.zone.stream == map[] && v.limbo == {o} && v.tasks == map[t := Returning(o, None)]
  {
    steps := OneOrderExpired(w, a, t, o, row);
    hide Possible, AfterSteps, Initial;
    ThenOne(w, steps, ReadHold(t));
    steps := steps + [ReadHold(t)];
    ThenOne(w, steps, DropHold(t));
    steps := steps + [DropHold(t)];
  }

  /** From a fresh zone: a claim between the read and the write, and its seats would be offered a second time. */
  lemma LostClaimFromTheStart(w: World, a: ClaimArgs, t: nat) returns (steps: seq<Step>)
    requires Initial(w) && a.length >= 1 && ClaimOutcome(w.zone, a).Claimed?
    ensures Possible(w, steps)
    ensures var v := AfterSteps(w, steps);
      && v.tasks == map[t := WritingRuns(map[])]
      && forall free :: IsComplement(free, v.zone.geom, {}) ==> free != v.zone.free && Free(free, a.block, a.start)
  {
    NoSteps(w);
    hide Possible, AfterSteps, OccupySet, Seats;
    ThenOne(w, [], CheckBacklog(t, false));
    assert [] + [CheckBacklog(t, false)] == [CheckBacklog(t, false)];
    steps := [CheckBacklog(t, false)];
    ThenOne(w, steps, ReadHolds(t));
    steps := steps + [ReadHolds(t)];
    ThenOne(w, steps, Reserve(a));
    steps := steps + [Reserve(a)];
    ClaimedSeatIsOffered(w, a);
  }

  lemma ClaimedSeatIsOffered(w: World, a: ClaimArgs)
    requires Initial(w) && a.length >= 1 && ClaimOutcome(w.zone, a).Claimed?
    ensures forall free :: IsComplement(free, w.zone.geom, {}) ==> free != AfterClaim(w.zone, a).free && Free(free, a.block, a.start)
  {
    OccupySetMeaning(w.zone.free, a.Host(), a.start, a.length);
    assert a.Host().Covers(a.block, a.start);
    assert Free(w.zone.free, a.block, a.start) && !Free(AfterClaim(w.zone, a).free, a.block, a.start);
    assert !HeldBy({}, a.block, a.start);
  }
}
