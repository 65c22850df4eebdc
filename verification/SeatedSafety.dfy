/** Safety of the seated pipeline over whole runs. */
module SeatedSafety {
  import opened Basics
  import opened Quota
  import opened Orders
  import opened RunSets
  import opened SeatZone
  import opened SeatComplement
  import opened SeatOwners
  import opened Delivery
  import opened SeatedPipeline
  import opened SeatedSteps

  lemma StepKeeps(w: World, s: Step)
    requires Inv(w) && Enabled(w, s)
    ensures Inv(Next(w, s))
  {
    hide Inv, Enabled, Next;
    match s
    case Reserve(a) => ReserveKeeps(w, a);
    case Deliver(t, e) => DeliverKeeps(w, t, e);
    case Insert(t, o) => InsertKeeps(w, t, o);
    case FindDuplicate(t) => FindDuplicateKeeps(w, t);
    case Ack(t) => AckKeeps(w, t);
    case GiveUp(t, e) => GiveUpKeeps(w, t, e);
    case RefundEntry(t) => RefundKeeps(w, t);
    case Decide(o, status, row, t) => DecideKeeps(w, o, status, row, t);
    case DropHold(t) => DropHoldKeeps(w, t);
    case ReturnSeats(t) => ReturnKeeps(w, t);
    case CheckBacklog(_, _) => ReadStepKeeps(w, s);
    case ReadHolds(_) => ReadStepKeeps(w, s);
    case WriteRuns(t, free) => WriteKeeps(w, t, free);
    case _ => QuietStepKeeps(w, s);
  }

  lemma {:induction false} AlwaysSound(w: World, steps: seq<Step>)
    requires Inv(w) && Possible(w, steps)
    ensures Inv(AfterSteps(w, steps))
    decreases steps
  {
    hide Inv, Enabled, Next;
    if steps != [] {
      StepKeeps(w, steps[0]);
      AlwaysSound(Next(w, steps[0]), steps[1..]);
    }
  }

  // ------------------------------------------------------------------ each seat has one fate

  /** Claimed by an entry that is neither stored nor refunded. */
  ghost predicate InStream(w: World, b: int, p: int) {
    exists e :: e in w.zone.stream && InFlight(w.zone.released, w.orders, w.zone.stream[e]) && PlaceOf(w.zone.stream[e]).Covers(b, p)
  }

  ghost predicate InHold(w: World, b: int, p: int) {
    exists o :: o in w.holds && w.holds[o].Covers(b, p)
  }

  /** Its hold row is deleted, and the release script has not run yet (or never will). */
  ghost predicate InLimbo(w: World, b: int, p: int) {
    exists o :: o in w.limbo && o in w.orders && w.orders[o].place.Covers(b, p)
  }

  lemma OneFate(w: World, b: int, p: int)
    requires Inv(w) && Exists(w.zone.geom, b, p)
    ensures Bit(Free(w.zone.free, b, p)) + Bit(InStream(w, b, p)) + Bit(InHold(w, b, p)) + Bit(InLimbo(w, b, p)) == 1
  {
    var owned := OwnedIn(w);
    EachSeatOnce(w.zone, owned, b, p);
    hide Balance, KeysOk, MarkersOk, TasksOk, Free, Exists;
    forall x ensures x in owned <==> Owns(w.zone.stream, w.zone.released, w.orders, w.holds.Keys + w.limbo, x) {
      OwnedMeaning(w.zone.stream, w.zone.released, w.orders, w.holds.Keys + w.limbo, x);
    }
    hide Owned, InFlight;
    if InStream(w, b, p) {
      var e :| e in w.zone.stream && InFlight(w.zone.released, w.orders, w.zone.stream[e]) && PlaceOf(w.zone.stream[e]).Covers(b, p);
      assert OfEntry(e) in owned && owned[OfEntry(e)].Covers(b, p);
    }
    if InHold(w, b, p) {
      var o :| o in w.holds && w.holds[o].Covers(b, p);
      assert OfOrder(o) in owned && owned[OfOrder(o)].Covers(b, p);
    }
    if InLimbo(w, b, p) {
      var o :| o in w.limbo && o in w.orders && w.orders[o].place.Covers(b, p);
      assert OfOrder(o) in owned && owned[OfOrder(o)].Covers(b, p);
    }
    if x :| x in owned && owned[x].Covers(b, p) {
      match x
      case OfEntry(e) => assert InStream(w, b, p);
      case OfOrder(o) => assert o in w.holds ==> InHold(w, b, p);
    }
  }

  /** In every state of every run each existing seat is free, in the stream, held, or in limbo: exactly one of them. */
  lemma SeatsArePartitioned(w: World, steps: seq<Step>, b: int, p: int)
    requires Initial(w) && Possible(w, steps)
    ensures var v := AfterSteps(w, steps);
      Exists(v.zone.geom, b, p) ==>
        Bit(Free(v.zone.free, b, p)) + Bit(InStream(v, b, p)) + Bit(InHold(v, b, p)) + Bit(InLimbo(v, b, p)) == 1
  {
    InitialIsSound(w);
    AlwaysSound(w, steps);
    hide Inv, Initial, Possible, AfterSteps;
    if Exists(AfterSteps(w, steps).zone.geom, b, p) {
      OneFate(AfterSteps(w, steps), b, p);
    }
  }

  /** No two hold rows ever share a seat, and the EXCLUDE constraint never rejects an order that is being stored. */
  lemma ExcludeNeverRejects(w: World, steps: seq<Step>)
    requires Initial(w) && Possible(w, steps)
    ensures var v := AfterSteps(w, steps);
      && (forall o, p :: o in v.holds && p in v.holds && o != p ==> NoShare(v.holds[o], v.holds[p]))
      && (forall t :: t in v.tasks && v.tasks[t].Persisting? && !Persisted(v.orders, v.tasks[t].intent.key) ==>
            ExcludeAllows(v.holds, PlaceOf(v.tasks[t].intent)))
  {
    InitialIsSound(w);
    AlwaysSound(w, steps);
    var v := AfterSteps(w, steps);
    hide Initial, Possible, AfterSteps, KeysOk, MarkersOk, Persisted, ExcludeAllows;
    forall t | t in v.tasks && v.tasks[t].Persisting? && !Persisted(v.orders, v.tasks[t].intent.key)
      ensures ExcludeAllows(v.holds, PlaceOf(v.tasks[t].intent))
    {
      PersistingFacts(v, t);
      InFlightTouchesNoHold(v, v.tasks[t].entry);
    }
    hide TasksOk;
    HoldsAreApart(v);
  }

  lemma HoldsAreApart(w: World)
    requires Balance(w.zone, OwnedIn(w)) && HoldsOk(w.orders, w.holds, w.limbo)
    ensures forall o, p :: o in w.holds && p in w.holds && o != p ==> NoShare(w.holds[o], w.holds[p])
  {
    hide Balanced, InFlight;
    var owned := OwnedIn(w);
    forall o | o in w.holds ensures OfOrder(o) in owned && owned[OfOrder(o)] == w.holds[o] {
      OwnedMeaning(w.zone.stream, w.zone.released, w.orders, w.holds.Keys + w.limbo, OfOrder(o));
    }
    hide Owned;
  }

  /** Every release the system runs is either a repeat or succeeds: the script never answers OVERLAP or OOB. */
  lemma ReleasesNeverFail(w: World, steps: seq<Step>, t: nat)
    requires Initial(w) && Possible(w, steps) && t in AfterSteps(w, steps).tasks
    ensures var v := AfterSteps(w, steps); var k := v.tasks[t];
      && (k.Judged? && !k.persisted ==>
            DeadLetterMarker(k.intent.key) in v.zone.released || ReleaseSucceeds(v.zone, RefundArgs(k.intent)))
      && (k.Returning? ==>
            && k.order in v.orders
            && (OrderMarker(k.order) in v.zone.released || ReleaseSucceeds(v.zone, ReturnArgs(k.order, v.orders[k.order]))))
  {
    InitialIsSound(w);
    AlwaysSound(w, steps);
    var v := AfterSteps(w, steps);
    hide Initial, Possible, AfterSteps, KeysOk, MarkersOk, HoldsOk, Persisted, Balance, ReleaseSucceeds, Owned;
    var k := v.tasks[t];
    assert TaskOk(k, v.zone, v.orders, v.holds, v.limbo, v.deliveries, v.outbox);
    if k.Judged? && !k.persisted && DeadLetterMarker(k.intent.key) !in v.zone.released {
      RefundGoesThrough(v, k.entry);
    }
    if k.Returning? && OrderMarker(k.order) !in v.zone.released {
      ReturnGoesThrough(v, k.order);
    }
  }

  // ------------------------------------------------------------------ at most once

  ghost predicate ReturnsSeatsOf(w: World, s: Step, o: nat) {
    && s.ReturnSeats? && Enabled(w, s) && w.tasks[s.t].order == o
    && Next(w, s).zone.free != w.zone.free
  }

  ghost function Returns(w: World, steps: seq<Step>, o: nat): nat
    requires Possible(w, steps)
    decreases steps
  {
    if steps == [] then 0
    else Bit(ReturnsSeatsOf(w, steps[0], o)) + Returns(Next(w, steps[0]), steps[1..], o)
  }

  /** The free runs change only together with the marker, and only for a finished order. */
  lemma ReturnSetsMarker(w: World, s: Step, o: nat)
    requires Inv(w) && Enabled(w, s)
    ensures Bit(OrderMarker(o) in w.zone.released) + Bit(ReturnsSeatsOf(w, s, o)) <= Bit(OrderMarker(o) in Next(w, s).zone.released)
    ensures ReturnsSeatsOf(w, s, o) ==> o in w.orders && w.orders[o].status.OwesRelease()
  {
    hide Balance, KeysOk, MarkersOk, HoldsOk, OccupySet, ReleaseSet, Persisted, IsComplement;
    if s.ReturnSeats? {
      assert TaskOk(w.tasks[s.t], w.zone, w.orders, w.holds, w.limbo, w.deliveries, w.outbox);
    }
  }

  /** Over a whole run an order's seats return to the free runs at most once, and never before its status is final. */
  lemma {:induction false} ReturnedAtMostOnce(w: World, steps: seq<Step>, o: nat)
    requires Inv(w) && Possible(w, steps)
    ensures Bit(OrderMarker(o) in w.zone.released) + Returns(w, steps, o) <= 1
    decreases steps
  {
    hide Inv, Enabled, Next, ReturnsSeatsOf;
    if steps != [] {
      StepKeeps(w, steps[0]);
      ReturnSetsMarker(w, steps[0], o);
      ReturnedAtMostOnce(Next(w, steps[0]), steps[1..], o);
    }
  }

  // ------------------------------------------------------------------ what a crash in limbo costs

  predicate NoRebuild(steps: seq<Step>) {
    forall i :: 0 <= i < |steps| ==> !steps[i].WriteRuns?
  }

  ghost predicate Leaked(w: World, o: nat) {
    o in w.limbo && forall t :: t in w.tasks ==> !w.tasks[t].WillReturn(o)
  }

  lemma LeakStays(w: World, s: Step, o: nat)
    requires Inv(w) && Enabled(w, s) && Leaked(w, o) && !s.WriteRuns?
    ensures Leaked(Next(w, s), o)
  {
    hide Balance, KeysOk, MarkersOk, TasksOk, InFlight, ExcludeAllows, AfterClaim, AfterRelease;
    assert o !in w.holds;
  }

  /** Seats whose worker died between the commit and the script stay out of sale until a rebuild, whatever the relay does. */
  lemma {:induction false} LeakLastsUntilRebuild(w: World, steps: seq<Step>, o: nat)
    requires Inv(w) && Possible(w, steps) && Leaked(w, o) && NoRebuild(steps)
    ensures Leaked(AfterSteps(w, steps), o)
    decreases steps
  {
    hide Inv, Enabled, Next, Leaked;
    if steps != [] {
      StepKeeps(w, steps[0]);
      LeakStays(w, steps[0], o);
      LeakLastsUntilRebuild(Next(w, steps[0]), steps[1..], o);
    }
  }

  // ------------------------------------------------------------------ the outbox

  /** A finished order gets one fresh outbox row with its status; a claim leases the row for 60 s, 120 s, ... up to an hour
      and counts; the mark sets the flag. No other step touches the outbox. */
  lemma OutboxSteps(w: World, s: Step)
    requires Enabled(w, s)
    ensures var v := Next(w, s);
      && (s.Decide? && s.status.OwesRelease() ==>
            v.outbox == w.outbox[s.row := Row(s.order, 0, 0, false)] && s.row !in w.outbox
            && v.orders == w.orders[s.order := w.orders[s.order].(status := s.status)])
      && (s.ClaimRow? ==>
            v.outbox.Keys == w.outbox.Keys && (forall r :: r in w.outbox && r != s.row ==> v.outbox[r] == w.outbox[r])
            && v.outbox[s.row] == Row(w.outbox[s.row].order, w.outbox[s.row].attempts + 1, s.now + Lease(w.outbox[s.row].attempts), false))
      && (s.MarkRow? ==> v.outbox == w.outbox[w.tasks[s.t].done := w.outbox[w.tasks[s.t].done].(processed := true)])
      && (!(s.Decide? && s.status.OwesRelease()) && !s.ClaimRow? && !s.MarkRow? ==> v.outbox == w.outbox)
  {
    hide AfterClaim, AfterRelease, RunsMayBe, IsComplement, ExcludeAllows, Persisted, NobodyPersists, Lease;
  }
}
