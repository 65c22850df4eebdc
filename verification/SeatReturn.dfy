/** `release_order_seat` for a seated order, as written: a run of the seated pipeline against the real hashes. */
module SeatReturn {
  import opened Basics
  import opened Quota
  import opened Orders
  import opened SeatZone
  import opened SeatComplement
  import opened SeatOwners
  import opened SeatRuns
  import opened SeatedPipeline
  import Delivery
  import SeatedSteps
  import SeatedSafety

  class BoxOffice {
    const store: ZoneStore
    var orders: map<nat, SeatedOrder>
    var holds: map<nat, Hold>
    ghost var limbo: set<nat>
    ghost var deliveries: map<nat, nat>
    ghost var outbox: map<nat, Delivery.Row>
    ghost var tasks: map<nat, Task>

    constructor (store: ZoneStore)
      ensures this.store == store && orders == map[] && holds == map[] && limbo == {}
      ensures deliveries == map[] && outbox == map[] && tasks == map[]
    {
      this.store := store;
      orders, holds, limbo, deliveries, outbox, tasks := map[], map[], {}, map[], map[], map[];
    }

    ghost function Abs(): World
      reads this, store
    {
      World(store.Abs(), orders, holds, limbo, deliveries, outbox, tasks)
    }

    /**
     * First the database lets go, then the script runs; a missing hold row means there is nothing to do.
     * Undisturbed, the script never refuses.
     */
    method ReleaseOrderSeat(o: nat, ghost t: nat) returns (returned: bool)
      requires store.Valid() && Inv(Abs()) && t in tasks && tasks[t] == Releasing(o, None)
      modifies this`holds, this`limbo, this`tasks, store
      ensures store.Valid() && Inv(Abs())
      ensures returned <==> o in old(holds)
      ensures !returned ==> Enabled(old(Abs()), ReadHold(t)) && Abs() == Next(old(Abs()), ReadHold(t))
      ensures returned ==> Possible(old(Abs()), ReturnSteps(t)) && Abs() == AfterSteps(old(Abs()), ReturnSteps(t))
      ensures returned ==> o !in holds && OrderMarker(o) in store.released
    {
      hide Inv, Enabled, Next, Possible, AfterSteps, AfterRelease, ReleaseReplies;
      ghost var start := Abs();
      if o !in holds {
        NothingToReturn(start, o, t);
        tasks := tasks - {t};
        return false;
      }
      ReturnRun(start, o, t);
      var hold := holds[o];
      holds := holds - {o};
      var reply := store.ReleaseSeats(ReleaseArgs(orders[o].user, hold.block, hold.start, hold.length, OrderMarker(o)));
      tasks := tasks - {t};
      assert Abs() == AfterReturn(start, o, t);
      return true;
    }
  }

  lemma NothingToReturn(w: World, o: nat, t: nat)
    requires Inv(w) && t in w.tasks && w.tasks[t] == Releasing(o, None) && o !in w.holds
    ensures Enabled(w, ReadHold(t)) && Next(w, ReadHold(t)) == w.(tasks := w.tasks - {t}) && Inv(Next(w, ReadHold(t)))
  {
    hide Inv;
    SeatedSafety.StepKeeps(w, ReadHold(t));
  }

  ghost function ReturnSteps(t: nat): seq<Step> {
    [ReadHold(t), DropHold(t), ReturnSeats(t)]
  }

  ghost function AfterReturn(w: World, o: nat, t: nat): World
    requires o in w.holds && o in w.orders
  {
    w.(zone := AfterRelease(w.zone, ReturnArgs(o, w.orders[o])), holds := w.holds - {o}, tasks := w.tasks - {t})
  }

  /** The first two steps: the hold row is read and deleted. */
  lemma HoldDropped(w: World, o: nat, t: nat)
    requires Inv(w) && t in w.tasks && w.tasks[t] == Releasing(o, None) && o in w.holds
    ensures Possible(w, [ReadHold(t)] + [DropHold(t)])
    ensures var mid := AfterSteps(w, [ReadHold(t)] + [DropHold(t)]);
      mid == w.(holds := w.holds - {o}, limbo := w.limbo + {o}, tasks := w.tasks[t := Returning(o, None)]) && Inv(mid)
  {
    hide Inv;
    NoSteps(w);
    hide Possible, AfterSteps;
    ThenOne(w, [], ReadHold(t));
    assert [] + [ReadHold(t)] == [ReadHold(t)];
    ThenOne(w, [ReadHold(t)], DropHold(t));
    SeatedSafety.AlwaysSound(w, [ReadHold(t)] + [DropHold(t)]);
  }

  /** The three steps in a row: the hold row goes, its seats come back, the marker is set. */
  lemma ReturnRun(w: World, o: nat, t: nat)
    requires Inv(w) && t in w.tasks && w.tasks[t] == Releasing(o, None) && o in w.holds
    ensures o in w.orders && w.holds[o] == w.orders[o].place && w.holds[o].length >= 1
    ensures Possible(w, ReturnSteps(t)) && AfterSteps(w, ReturnSteps(t)) == AfterReturn(w, o, t)
    ensures Inv(AfterReturn(w, o, t)) && OrderMarker(o) in AfterRelease(w.zone, ReturnArgs(o, w.orders[o])).released
  {
    hide Inv, Possible, AfterSteps, ReleaseSucceeds, AfterRelease, Enabled, Next;
    PlaceIsReal(w, o);
    HoldDropped(w, o, t);
    var mid := AfterSteps(w, [ReadHold(t)] + [DropHold(t)]);
    GoesThrough(mid, o);
    LastStep(w, mid, o, t);
    ThenOne(w, [ReadHold(t)] + [DropHold(t)], ReturnSeats(t));
    SeatedSafety.StepKeeps(mid, ReturnSeats(t));
    assert [ReadHold(t)] + [DropHold(t)] + [ReturnSeats(t)] == ReturnSteps(t);
  }

  lemma LastStep(w: World, mid: World, o: nat, t: nat)
    requires o in w.holds && o in w.orders && o !in w.limbo
    requires mid == w.(holds := w.holds - {o}, limbo := w.limbo + {o}, tasks := w.tasks[t := Returning(o, None)])
    requires ReleaseSucceeds(w.zone, ReturnArgs(o, w.orders[o]))
    ensures Enabled(mid, ReturnSeats(t)) && Next(mid, ReturnSeats(t)) == AfterReturn(w, o, t)
    ensures OrderMarker(o) in AfterRelease(w.zone, ReturnArgs(o, w.orders[o])).released
  {
    hide ReleaseSucceeds;
    assert w.limbo + {o} - {o} == w.limbo;
    assert w.tasks[t := Returning(o, None)] - {t} == w.tasks - {t};
  }

  lemma GoesThrough(w: World, o: nat)
    requires Inv(w) && o in w.limbo
    ensures o in w.orders && ReleaseSucceeds(w.zone, ReturnArgs(o, w.orders[o]))
  {
    SeatedSteps.ReturnGoesThrough(w, o);
  }

  /** A hold row is what its order was stored with, and not empty; its order is not in limbo. */
  lemma PlaceIsReal(w: World, o: nat)
    requires Inv(w) && o in w.holds
    ensures o in w.orders && w.holds[o] == w.orders[o].place && w.holds[o].length >= 1 && o !in w.limbo
  {
    hide KeysOk, MarkersOk, TasksOk;
    SeatedSteps.OwnedMeaning(w.zone.stream, w.zone.released, w.orders, w.holds.Keys + w.limbo, OfOrder(o));
    assert OwnedIn(w)[OfOrder(o)] in OwnedIn(w).Values;
  }
}
