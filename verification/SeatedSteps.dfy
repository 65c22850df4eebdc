/** Every step of the seated pipeline keeps the invariant. */
module SeatedSteps {
  import opened Basics
  import opened Quota
  import opened Orders
  import opened RunSets
  import opened SeatZone
  import opened SeatComplement
  import opened SeatOwners
  import opened Delivery
  import opened SeatedPipeline

  // ------------------------------------------------------------------ who owns what after a step

  lemma PersistedAfterInsert(orders: map<nat, SeatedOrder>, id: nat, o: SeatedOrder, key: nat)
    requires id !in orders
    ensures Persisted(orders[id := o], key) <==> Persisted(orders, key) || key == o.key
  {
    if Persisted(orders, key) {
      var p :| p in orders && orders[p].key == key;
      assert orders[id := o][p].key == key;
    }
    assert orders[id := o][id] == o;
  }

  lemma PersistedIgnoresStatus(orders: map<nat, SeatedOrder>, id: nat, status: Status, key: nat)
    requires id in orders
    ensures Persisted(orders[id := orders[id].(status := status)], key) <==> Persisted(orders, key)
  {
    var more := orders[id := orders[id].(status := status)];
    if Persisted(orders, key) {
      var p :| p in orders && orders[p].key == key;
      assert p in more && more[p].key == key;
    }
    if Persisted(more, key) {
      var p :| p in more && more[p].key == key;
      assert p in orders && orders[p].key == key;
    }
  }

  lemma OwnedIs(stream: map<nat, Intent>, released: set<Marker>, orders: map<nat, SeatedOrder>, seated: set<nat>, owned: map<Owner, Hold>)
    requires forall x :: Owns(stream, released, orders, seated, x) <==> x in owned
    requires forall x :: x in owned ==> Owns(stream, released, orders, seated, x) && owned[x] == Place(stream, orders, x)
    ensures Owned(stream, released, orders, seated) == owned
  {
    forall x ensures x in Owned(stream, released, orders, seated) <==> x in owned {
      assert Owns(stream, released, orders, seated, x) ==> x in Candidates(stream, orders);
    }
  }

  lemma OwnedMeaning(stream: map<nat, Intent>, released: set<Marker>, orders: map<nat, SeatedOrder>, seated: set<nat>, x: Owner)
    ensures x in Owned(stream, released, orders, seated) <==> Owns(stream, released, orders, seated, x)
    ensures x in Owned(stream, released, orders, seated) ==> Owned(stream, released, orders, seated)[x] == Place(stream, orders, x)
  {
  }

  lemma OwnedAfterReserve(z: Zone, orders: map<nat, SeatedOrder>, seated: set<nat>, a: ClaimArgs)
    requires ClaimOutcome(z, a).Claimed? && z.nextId !in z.stream
    requires DeadLetterMarker(a.key) !in z.released && !Persisted(orders, a.key)
    ensures OfEntry(z.nextId) !in Owned(z.stream, z.released, orders, seated)
    ensures var v := AfterClaim(z, a);
      Owned(v.stream, v.released, orders, seated) == Owned(z.stream, z.released, orders, seated)[OfEntry(z.nextId) := ClaimedHold(a)]
  {
    var before := Owned(z.stream, z.released, orders, seated);
    var v := AfterClaim(z, a);
    forall x ensures x in before <==> Owns(z.stream, z.released, orders, seated, x) {
      OwnedMeaning(z.stream, z.released, orders, seated, x);
    }
    hide Owned;
    OwnedIs(v.stream, v.released, orders, seated, before[OfEntry(z.nextId) := ClaimedHold(a)]);
  }

  lemma OwnedAfterInsert(z: Zone, orders: map<nat, SeatedOrder>, seated: set<nat>, e: nat, id: nat)
    requires KeysOk(z, orders) && e in z.stream && id !in orders && id !in seated && InFlight(z.released, orders, z.stream[e])
    ensures var before := Owned(z.stream, z.released, orders, seated);
      && OfEntry(e) in before && OfOrder(id) !in before && before[OfEntry(e)] == PlaceOf(z.stream[e])
      && Owned(z.stream, z.released, orders[id := Seated(z.stream[e])], seated + {id})
           == (before - {OfEntry(e)})[OfOrder(id) := before[OfEntry(e)]]
  {
    var before := Owned(z.stream, z.released, orders, seated);
    var o := Seated(z.stream[e]);
    forall k ensures Persisted(orders[id := o], k) <==> Persisted(orders, k) || k == o.key {
      PersistedAfterInsert(orders, id, o, k);
    }
    hide Persisted;
    forall x ensures x in before <==> Owns(z.stream, z.released, orders, seated, x) {
      OwnedMeaning(z.stream, z.released, orders, seated, x);
    }
    hide Owned;
    OwnedIs(z.stream, z.released, orders[id := o], seated + {id}, (before - {OfEntry(e)})[OfOrder(id) := PlaceOf(z.stream[e])]);
  }

  lemma OwnedAfterAck(z: Zone, orders: map<nat, SeatedOrder>, seated: set<nat>, e: nat)
    requires e in z.stream ==> !InFlight(z.released, orders, z.stream[e])
    ensures Owned(z.stream - {e}, z.released, orders, seated) == Owned(z.stream, z.released, orders, seated)
  {
    var before := Owned(z.stream, z.released, orders, seated);
    hide InFlight;
    forall x ensures x in before <==> Owns(z.stream, z.released, orders, seated, x) {
      OwnedMeaning(z.stream, z.released, orders, seated, x);
    }
    hide Owned;
    OwnedIs(z.stream - {e}, z.released, orders, seated, before);
  }

  lemma OwnedAfterRefund(z: Zone, orders: map<nat, SeatedOrder>, seated: set<nat>, e: nat)
    requires KeysOk(z, orders) && e in z.stream && InFlight(z.released, orders, z.stream[e])
    ensures var before := Owned(z.stream, z.released, orders, seated);
      && OfEntry(e) in before && before[OfEntry(e)] == PlaceOf(z.stream[e])
      && Owned(z.stream, z.released + {DeadLetterMarker(z.stream[e].key)}, orders, seated) == before - {OfEntry(e)}
  {
    var before := Owned(z.stream, z.released, orders, seated);
    hide Persisted;
    forall x ensures x in before <==> Owns(z.stream, z.released, orders, seated, x) {
      OwnedMeaning(z.stream, z.released, orders, seated, x);
    }
    hide Owned;
    OwnedIs(z.stream, z.released + {DeadLetterMarker(z.stream[e].key)}, orders, seated, before - {OfEntry(e)});
  }

  lemma OwnedAfterDecide(z: Zone, orders: map<nat, SeatedOrder>, seated: set<nat>, id: nat, status: Status)
    requires id in orders
    ensures Owned(z.stream, z.released, orders[id := orders[id].(status := status)], seated) == Owned(z.stream, z.released, orders, seated)
  {
    var before := Owned(z.stream, z.released, orders, seated);
    var moved := orders[id := orders[id].(status := status)];
    forall k ensures Persisted(moved, k) <==> Persisted(orders, k) {
      PersistedIgnoresStatus(orders, id, status, k);
    }
    hide Persisted;
    forall x ensures x in before <==> Owns(z.stream, z.released, orders, seated, x) {
      OwnedMeaning(z.stream, z.released, orders, seated, x);
    }
    hide Owned;
    OwnedIs(z.stream, z.released, moved, seated, before);
  }

  lemma OwnedAfterReturn(z: Zone, orders: map<nat, SeatedOrder>, seated: set<nat>, id: nat)
    requires id in orders && id in seated
    ensures var before := Owned(z.stream, z.released, orders, seated);
      && OfOrder(id) in before && before[OfOrder(id)] == orders[id].place
      && Owned(z.stream, z.released + {OrderMarker(id)}, orders, seated - {id}) == before - {OfOrder(id)}
  {
    var before := Owned(z.stream, z.released, orders, seated);
    hide Persisted;
    forall x ensures x in before <==> Owns(z.stream, z.released, orders, seated, x) {
      OwnedMeaning(z.stream, z.released, orders, seated, x);
    }
    hide Owned;
    OwnedIs(z.stream, z.released + {OrderMarker(id)}, orders, seated - {id}, before - {OfOrder(id)});
  }

  // ------------------------------------------------------------------ one lemma per kind of step

  lemma InitialIsSound(w: World)
    requires Initial(w)
    ensures Inv(w)
  {
    assert OwnedIn(w) == map[];
    assert OwnedIn(w).Values == {};
  }

  lemma BalanceAfterReserve(w: World, a: ClaimArgs)
    requires Balance(w.zone, OwnedIn(w)) && KeysOk(w.zone, w.orders) && Enabled(w, Reserve(a))
    requires MarkersOk(w.zone.released, w.zone.claims, w.orders, w.holds, w.limbo)
    ensures Balance(AfterClaim(w.zone, a), OwnedIn(Next(w, Reserve(a))))
  {
    if ClaimOutcome(w.zone, a).Claimed? {
      assert Persisted(w.orders, a.key) ==> a.key in w.zone.claims;
      assert OfEntry(w.zone.nextId) !in OwnedIn(w) by {
        OwnedAfterReserve(w.zone, w.orders, w.holds.Keys + w.limbo, a);
      }
      OwnedAfterReserve(w.zone, w.orders, w.holds.Keys + w.limbo, a);
      hide Owned, Balance;
      ClaimAddsOwner(w.zone, OwnedIn(w), a, OfEntry(w.zone.nextId));
    }
  }

  lemma TasksAfterReserve(w: World, a: ClaimArgs)
    requires TasksOk(w) && KeysOk(w.zone, w.orders) && Enabled(w, Reserve(a))
    requires MarkersOk(w.zone.released, w.zone.claims, w.orders, w.holds, w.limbo)
    ensures TasksOk(Next(w, Reserve(a)))
  {
    hide InFlight, Persisted, OccupySet, SeenHolds;
    var v := Next(w, Reserve(a));
    forall t | t in v.tasks ensures TaskOk(v.tasks[t], v.zone, v.orders, v.holds, v.limbo, v.deliveries, v.outbox) {
      assert TaskOk(w.tasks[t], w.zone, w.orders, w.holds, w.limbo, w.deliveries, w.outbox);
    }
  }

  lemma KeysAfterReserve(z: Zone, orders: map<nat, SeatedOrder>, a: ClaimArgs)
    requires KeysOk(z, orders) && a.length >= 1
    ensures KeysOk(AfterClaim(z, a), orders) && AfterClaim(z, a).claims >= z.claims && AfterClaim(z, a).released == z.released
  {
    hide OccupySet;
  }

  lemma ReserveKeeps(w: World, a: ClaimArgs)
    requires Inv(w) && Enabled(w, Reserve(a))
    ensures Inv(Next(w, Reserve(a)))
  {
    hide Balance, KeysOk, HoldsOk, TasksOk, AfterClaim, Persisted, Owned;
    BalanceAfterReserve(w, a);
    KeysAfterReserve(w.zone, w.orders, a);
    TasksAfterReserve(w, a);
  }

  lemma DeliverKeeps(w: World, t: nat, e: nat)
    requires Inv(w) && Enabled(w, Deliver(t, e))
    ensures Inv(Next(w, Deliver(t, e)))
  {
    hide Balance, HoldsOk, MarkersOk, Persisted, InFlight, SeenHolds;
    var v := Next(w, Deliver(t, e));
    forall x | x in v.tasks ensures TaskOk(v.tasks[x], v.zone, v.orders, v.holds, v.limbo, v.deliveries, v.outbox) {
      if x != t {
        assert TaskOk(w.tasks[x], w.zone, w.orders, w.holds, w.limbo, w.deliveries, w.outbox);
      }
    }
    assert e < v.zone.nextId;
    assert TasksOk(v);
  }

  /** The facts an insert starts from. */
  lemma PersistingFacts(w: World, t: nat)
    requires TasksOk(w) && t in w.tasks && w.tasks[t].Persisting? && !Persisted(w.orders, w.tasks[t].intent.key)
    ensures var e := w.tasks[t].entry;
      && e in w.zone.stream && w.zone.stream[e] == w.tasks[t].intent && InFlight(w.zone.released, w.orders, w.zone.stream[e])
      && e in w.deliveries && w.deliveries[e] <= MAX_DELIVERIES
  {
    assert TaskOk(w.tasks[t], w.zone, w.orders, w.holds, w.limbo, w.deliveries, w.outbox);
  }

  /** The EXCLUDE constraint has nothing to reject: seats in flight touch no hold. */
  lemma InFlightTouchesNoHold(w: World, e: nat)
    requires Balance(w.zone, OwnedIn(w)) && HoldsOk(w.orders, w.holds, w.limbo)
    requires e in w.zone.stream && InFlight(w.zone.released, w.orders, w.zone.stream[e])
    ensures ExcludeAllows(w.holds, PlaceOf(w.zone.stream[e]))
  {
    hide Balanced, Persisted;
    var seated := w.holds.Keys + w.limbo;
    OwnedMeaning(w.zone.stream, w.zone.released, w.orders, seated, OfEntry(e));
    forall o | o in w.holds ensures NoShare(w.holds[o], PlaceOf(w.zone.stream[e])) {
      OwnedMeaning(w.zone.stream, w.zone.released, w.orders, seated, OfOrder(o));
      var owned := OwnedIn(w);
      assert NoShare(owned[OfOrder(o)], owned[OfEntry(e)]);
    }
  }

  lemma BalanceAfterInsert(w: World, e: nat, id: nat)
    requires Balance(w.zone, OwnedIn(w)) && KeysOk(w.zone, w.orders) && HoldsOk(w.orders, w.holds, w.limbo)
    requires e in w.zone.stream && InFlight(w.zone.released, w.orders, w.zone.stream[e]) && id !in w.orders
    ensures Balance(w.zone, Owned(w.zone.stream, w.zone.released, w.orders[id := Seated(w.zone.stream[e])], w.holds.Keys + w.limbo + {id}))
  {
    OwnedAfterInsert(w.zone, w.orders, w.holds.Keys + w.limbo, e, id);
    hide Owned, Balance;
    OwnerRenamed(w.zone, OwnedIn(w), OfEntry(e), OfOrder(id));
  }

  lemma TablesAfterInsert(z: Zone, orders: map<nat, SeatedOrder>, holds: map<nat, Hold>, limbo: set<nat>, id: nat, i: Intent)
    requires KeysOk(z, orders) && MarkersOk(z.released, z.claims, orders, holds, limbo) && HoldsOk(orders, holds, limbo)
    requires id !in orders && DeadLetterMarker(i.key) !in z.released && i.key in z.claims
    ensures var more := orders[id := Seated(i)]; var held := holds[id := PlaceOf(i)];
      KeysOk(z, more) && MarkersOk(z.released, z.claims, more, held, limbo) && HoldsOk(more, held, limbo)
  {
    forall k ensures Persisted(orders[id := Seated(i)], k) <==> Persisted(orders, k) || k == i.key {
      PersistedAfterInsert(orders, id, Seated(i), k);
    }
    hide Persisted;
  }

  /** What a worker relies on survives another worker storing the order of entry `e`. */
  lemma TaskAfterInsert(task: Task, w: World, e: nat, id: nat, more: map<nat, SeatedOrder>, holds: map<nat, Hold>)
    requires TaskOk(task, w.zone, w.orders, w.holds, w.limbo, w.deliveries, w.outbox) && KeysOk(w.zone, w.orders)
    requires e in w.zone.stream && e in w.deliveries && w.deliveries[e] <= MAX_DELIVERIES && id !in w.orders
    requires more == w.orders[id := Seated(w.zone.stream[e])] && holds == w.holds[id := PlaceOf(w.zone.stream[e])]
    requires forall r :: r in w.outbox ==> w.outbox[r].order in w.orders
    ensures TaskOk(task, w.zone, more, holds, w.limbo, w.deliveries, w.outbox)
  {
    forall k ensures Persisted(more, k) <==> Persisted(w.orders, k) || k == w.zone.stream[e].key {
      PersistedAfterInsert(w.orders, id, Seated(w.zone.stream[e]), k);
    }
    hide Persisted;
  }

  lemma TasksAfterInsert(w: World, t: nat, id: nat)
    requires TasksOk(w) && KeysOk(w.zone, w.orders) && Enabled(w, Insert(t, id))
    ensures TasksOk(Next(w, Insert(t, id)))
  {
    var v := Next(w, Insert(t, id));
    var e := w.tasks[t].entry;
    PersistingFacts(w, t);
    assert v.tasks[t] == Acking(e) && e in v.deliveries && !InFlight(v.zone.released, v.orders, v.zone.stream[e]) by {
      PersistedAfterInsert(w.orders, id, Seated(w.tasks[t].intent), w.tasks[t].intent.key);
    }
    hide InFlight, Persisted, KeysOk, ExcludeAllows;
    forall x | x in v.tasks ensures TaskOk(v.tasks[x], v.zone, v.orders, v.holds, v.limbo, v.deliveries, v.outbox) {
      if x != t {
        TaskAfterInsert(w.tasks[x], w, e, id, v.orders, v.holds);
      }
    }
  }

  lemma InsertKeeps(w: World, t: nat, id: nat)
    requires Inv(w) && Enabled(w, Insert(t, id))
    ensures Inv(Next(w, Insert(t, id)))
  {
    hide Balance, MarkersOk, HoldsOk, TaskOk, Persisted, Owned, ExcludeAllows;
    var e, i := w.tasks[t].entry, w.tasks[t].intent;
    PersistingFacts(w, t);
    BalanceAfterInsert(w, e, id);
    TablesAfterInsert(w.zone, w.orders, w.holds, w.limbo, id, i);
    TasksAfterInsert(w, t, id);
    hide TasksOk, KeysOk;
    assert w.holds[id := PlaceOf(i)].Keys + w.limbo == w.holds.Keys + w.limbo + {id};
  }

  lemma FindDuplicateKeeps(w: World, t: nat)
    requires Inv(w) && Enabled(w, FindDuplicate(t))
    ensures Inv(Next(w, FindDuplicate(t)))
  {
    hide Balance, KeysOk, HoldsOk, MarkersOk, Persisted, SeenHolds;
    var v := Next(w, FindDuplicate(t));
    assert TaskOk(w.tasks[t], w.zone, w.orders, w.holds, w.limbo, w.deliveries, w.outbox);
    forall x | x in v.tasks ensures TaskOk(v.tasks[x], v.zone, v.orders, v.holds, v.limbo, v.deliveries, v.outbox) {
      assert x in w.tasks && TaskOk(w.tasks[x], w.zone, w.orders, w.holds, w.limbo, w.deliveries, w.outbox);
    }
  }

  lemma TasksAfterAck(w: World, t: nat)
    requires TasksOk(w) && Enabled(w, Ack(t))
    ensures TasksOk(Next(w, Ack(t)))
  {
    hide Persisted, SeenHolds;
    var v := Next(w, Ack(t));
    forall x | x in v.tasks ensures TaskOk(v.tasks[x], v.zone, v.orders, v.holds, v.limbo, v.deliveries, v.outbox) {
      assert x in w.tasks && TaskOk(w.tasks[x], w.zone, w.orders, w.holds, w.limbo, w.deliveries, w.outbox);
    }
  }

  lemma AckKeeps(w: World, t: nat)
    requires Inv(w) && Enabled(w, Ack(t))
    ensures Inv(Next(w, Ack(t)))
  {
    hide Balance, HoldsOk, MarkersOk, InFlight, Owned;
    var v := Next(w, Ack(t));
    assert TaskOk(w.tasks[t], w.zone, w.orders, w.holds, w.limbo, w.deliveries, w.outbox);
    TasksAfterAck(w, t);
    hide TasksOk;
    OwnedAfterAck(w.zone, w.orders, w.holds.Keys + w.limbo, w.tasks[t].entry);
    BalanceFrame(w.zone, v.zone, OwnedIn(w));
  }

  lemma GiveUpKeeps(w: World, t: nat, e: nat)
    requires Inv(w) && Enabled(w, GiveUp(t, e))
    ensures Inv(Next(w, GiveUp(t, e)))
  {
    hide Balance, HoldsOk, MarkersOk, Persisted, SeenHolds;
    var v := Next(w, GiveUp(t, e));
    forall x | x in v.tasks ensures TaskOk(v.tasks[x], v.zone, v.orders, v.holds, v.limbo, v.deliveries, v.outbox) {
      if x != t {
        assert x in w.tasks && TaskOk(w.tasks[x], w.zone, w.orders, w.holds, w.limbo, w.deliveries, w.outbox);
      }
    }
    assert e < v.zone.nextId;
    assert TasksOk(v);
  }

  /** A refund of an entry in flight goes through: its seats are claimed, so the script finds no overlap. */
  lemma RefundGoesThrough(w: World, e: nat)
    requires Balance(w.zone, OwnedIn(w)) && KeysOk(w.zone, w.orders)
    requires e in w.zone.stream && InFlight(w.zone.released, w.orders, w.zone.stream[e])
    ensures ReleaseSucceeds(w.zone, RefundArgs(w.zone.stream[e]))
    ensures var v := AfterRelease(w.zone, RefundArgs(w.zone.stream[e]));
      Balance(v, Owned(v.stream, v.released, w.orders, w.holds.Keys + w.limbo))
  {
    OwnedAfterRefund(w.zone, w.orders, w.holds.Keys + w.limbo, e);
    ReleaseRemovesOwner(w.zone, OwnedIn(w), RefundArgs(w.zone.stream[e]), OfEntry(e));
    hide Owned, Balance;
  }

  lemma TasksAfterRefund(w: World, t: nat)
    requires TasksOk(w) && KeysOk(w.zone, w.orders) && Enabled(w, RefundEntry(t))
    requires var k := w.tasks[t]; !k.persisted ==>
      DeadLetterMarker(k.intent.key) in w.zone.released || ReleaseSucceeds(w.zone, RefundArgs(k.intent))
    ensures TasksOk(Next(w, RefundEntry(t)))
  {
    hide Persisted, ReleaseSet, InsideBlock, Taken, SeenHolds;
    var v := Next(w, RefundEntry(t));
    assert TaskOk(w.tasks[t], w.zone, w.orders, w.holds, w.limbo, w.deliveries, w.outbox);
    forall x | x in v.tasks ensures TaskOk(v.tasks[x], v.zone, v.orders, v.holds, v.limbo, v.deliveries, v.outbox) {
      assert x in w.tasks && TaskOk(w.tasks[x], w.zone, w.orders, w.holds, w.limbo, w.deliveries, w.outbox);
    }
  }

  lemma TablesAfterRefund(w: World, e: nat)
    requires KeysOk(w.zone, w.orders) && MarkersOk(w.zone.released, w.zone.claims, w.orders, w.holds, w.limbo)
    requires e in w.zone.stream && !Persisted(w.orders, w.zone.stream[e].key)
    ensures var v := AfterRelease(w.zone, RefundArgs(w.zone.stream[e]));
      KeysOk(v, w.orders) && MarkersOk(v.released, v.claims, w.orders, w.holds, w.limbo)
  {
    hide Persisted, ReleaseSucceeds, ReleaseSet;
  }

  lemma RefundKeeps(w: World, t: nat)
    requires Inv(w) && Enabled(w, RefundEntry(t))
    ensures Inv(Next(w, RefundEntry(t)))
  {
    hide Balance, KeysOk, HoldsOk, MarkersOk, Persisted, ReleaseSet, Owned, InsideBlock, Taken;
    var i := w.tasks[t].intent;
    assert TaskOk(w.tasks[t], w.zone, w.orders, w.holds, w.limbo, w.deliveries, w.outbox);
    if !w.tasks[t].persisted && DeadLetterMarker(i.key) !in w.zone.released {
      RefundGoesThrough(w, w.tasks[t].entry);
      TablesAfterRefund(w, w.tasks[t].entry);
    }
    TasksAfterRefund(w, t);
    hide TasksOk;
  }

  /** What a worker relies on survives a decision about any order. */
  lemma TaskAfterDecide(task: Task, w: World, moved: map<nat, SeatedOrder>, id: nat, status: Status, outbox: map<nat, Row>)
    requires TaskOk(task, w.zone, w.orders, w.holds, w.limbo, w.deliveries, w.outbox)
    requires id in w.orders && w.orders[id].status.Holding() && moved == w.orders[id := w.orders[id].(status := status)]
    requires forall r :: r in w.outbox ==> r in outbox && outbox[r] == w.outbox[r]
    ensures TaskOk(task, w.zone, moved, w.holds, w.limbo, w.deliveries, outbox)
  {
    forall k ensures Persisted(moved, k) <==> Persisted(w.orders, k) {
      PersistedIgnoresStatus(w.orders, id, status, k);
    }
    hide Persisted;
  }

  lemma TasksAfterDecide(w: World, id: nat, status: Status, row: nat, t: nat)
    requires TasksOk(w) && Enabled(w, Decide(id, status, row, t))
    ensures TasksOk(Next(w, Decide(id, status, row, t)))
  {
    var v := Next(w, Decide(id, status, row, t));
    forall x | x in w.tasks ensures TaskOk(w.tasks[x], v.zone, v.orders, v.holds, v.limbo, v.deliveries, v.outbox) {
      TaskAfterDecide(w.tasks[x], w, v.orders, id, status, v.outbox);
    }
    assert status.OwesRelease() ==> TaskOk(v.tasks[t], v.zone, v.orders, v.holds, v.limbo, v.deliveries, v.outbox);
    hide TaskOk;
  }

  lemma TablesAfterDecide(w: World, id: nat, status: Status)
    requires KeysOk(w.zone, w.orders) && MarkersOk(w.zone.released, w.zone.claims, w.orders, w.holds, w.limbo)
    requires HoldsOk(w.orders, w.holds, w.limbo) && id in w.orders && status in ValidTransitions(w.orders[id].status)
    ensures var moved := w.orders[id := w.orders[id].(status := status)];
      && KeysOk(w.zone, moved) && MarkersOk(w.zone.released, w.zone.claims, moved, w.holds, w.limbo)
      && HoldsOk(moved, w.holds, w.limbo)
  {
    var moved := w.orders[id := w.orders[id].(status := status)];
    forall k ensures Persisted(moved, k) <==> Persisted(w.orders, k) {
      PersistedIgnoresStatus(w.orders, id, status, k);
    }
    hide Persisted;
  }

  lemma DecideKeeps(w: World, id: nat, status: Status, row: nat, t: nat)
    requires Inv(w) && Enabled(w, Decide(id, status, row, t))
    ensures Inv(Next(w, Decide(id, status, row, t)))
  {
    hide Balance, KeysOk, HoldsOk, MarkersOk, TasksOk, Owned;
    OwnedAfterDecide(w.zone, w.orders, w.holds.Keys + w.limbo, id, status);
    TablesAfterDecide(w, id, status);
    TasksAfterDecide(w, id, status, row, t);
  }

  /** Reading the hold, leasing or marking a row, and stopping touch no seat: only the worker's own place is new. */
  lemma QuietStepKeeps(w: World, s: Step)
    requires Inv(w) && (s.ReadHold? || s.ClaimRow? || s.MarkRow? || s.Stop?) && Enabled(w, s)
    ensures Inv(Next(w, s))
  {
    hide Balance, KeysOk, HoldsOk, MarkersOk, InFlight, Owned, TaskOk;
    var v := Next(w, s);
    forall r | r in w.outbox ensures r in v.outbox && v.outbox[r].order == w.outbox[r].order {
    }
    if s.t in v.tasks {
      QuietTask(w, s);
    }
    forall x | x in v.tasks ensures TaskOk(v.tasks[x], v.zone, v.orders, v.holds, v.limbo, v.deliveries, v.outbox) {
      if x != s.t {
        TaskAfterTouch(w.tasks[x], w, v.outbox);
      }
    }
    assert s.MarkRow? ==> w.outbox[w.tasks[s.t].done].order !in w.holds by {
      MarkingFact(w, s);
    }
  }

  lemma MarkingFact(w: World, s: Step)
    requires TasksOk(w) && Enabled(w, s)
    ensures s.MarkRow? ==> w.outbox[w.tasks[s.t].done].order !in w.holds
  {
    assert s.MarkRow? ==> TaskOk(w.tasks[s.t], w.zone, w.orders, w.holds, w.limbo, w.deliveries, w.outbox);
  }

  lemma TaskAfterTouch(task: Task, w: World, outbox: map<nat, Row>)
    requires TaskOk(task, w.zone, w.orders, w.holds, w.limbo, w.deliveries, w.outbox)
    requires forall r :: r in w.outbox ==> r in outbox && outbox[r].order == w.outbox[r].order
    ensures TaskOk(task, w.zone, w.orders, w.holds, w.limbo, w.deliveries, outbox)
  {
    hide InFlight, Persisted, SeenHolds;
  }

  lemma QuietTask(w: World, s: Step)
    requires TasksOk(w) && (s.ReadHold? || s.ClaimRow? || s.MarkRow? || s.Stop?) && Enabled(w, s) && s.t in Next(w, s).tasks
    ensures var v := Next(w, s); TaskOk(v.tasks[s.t], v.zone, v.orders, v.holds, v.limbo, v.deliveries, v.outbox)
  {
    hide InFlight, Persisted, SeenHolds;
    assert s.ReadHold? ==> TaskOk(w.tasks[s.t], w.zone, w.orders, w.holds, w.limbo, w.deliveries, w.outbox);
  }

  lemma TasksAfterDrop(w: World, t: nat)
    requires TasksOk(w) && Enabled(w, DropHold(t))
    ensures TasksOk(Next(w, DropHold(t)))
  {
    hide InFlight, Persisted, SeenHolds;
    var v := Next(w, DropHold(t));
    assert TaskOk(w.tasks[t], w.zone, w.orders, w.holds, w.limbo, w.deliveries, w.outbox);
    forall x | x in v.tasks ensures TaskOk(v.tasks[x], v.zone, v.orders, v.holds, v.limbo, v.deliveries, v.outbox) {
      assert x in w.tasks && TaskOk(w.tasks[x], w.zone, w.orders, w.holds, w.limbo, w.deliveries, w.outbox);
    }
  }

  /** Deleting the hold row moves its seats from the database into limbo. */
  lemma DropHoldKeeps(w: World, t: nat)
    requires Inv(w) && Enabled(w, DropHold(t))
    ensures Inv(Next(w, DropHold(t)))
  {
    hide Balance, KeysOk, InFlight, Persisted, Owned;
    var v := Next(w, DropHold(t));
    assert TaskOk(w.tasks[t], w.zone, w.orders, w.holds, w.limbo, w.deliveries, w.outbox);
    TasksAfterDrop(w, t);
    hide TasksOk;
    assert v.holds.Keys + v.limbo == w.holds.Keys + w.limbo;
  }

  /** A pending return of an order in limbo goes through. */
  lemma ReturnGoesThrough(w: World, id: nat)
    requires Balance(w.zone, OwnedIn(w)) && HoldsOk(w.orders, w.holds, w.limbo) && id in w.limbo
    requires MarkersOk(w.zone.released, w.zone.claims, w.orders, w.holds, w.limbo)
    ensures ReleaseSucceeds(w.zone, ReturnArgs(id, w.orders[id]))
    ensures var v := AfterRelease(w.zone, ReturnArgs(id, w.orders[id]));
      Balance(v, Owned(v.stream, v.released, w.orders, w.holds.Keys + (w.limbo - {id})))
  {
    hide Persisted;
    assert OrderMarker(id) !in w.zone.released;
    assert w.holds.Keys + (w.limbo - {id}) == w.holds.Keys + w.limbo - {id};
    OwnedAfterReturn(w.zone, w.orders, w.holds.Keys + w.limbo, id);
    ReleaseRemovesOwner(w.zone, OwnedIn(w), ReturnArgs(id, w.orders[id]), OfOrder(id));
    hide Owned, Balance;
  }

  lemma TablesAfterReturn(w: World, id: nat)
    requires KeysOk(w.zone, w.orders) && MarkersOk(w.zone.released, w.zone.claims, w.orders, w.holds, w.limbo)
    requires HoldsOk(w.orders, w.holds, w.limbo) && id in w.limbo
    ensures var v := AfterRelease(w.zone, ReturnArgs(id, w.orders[id]));
      && KeysOk(v, w.orders) && MarkersOk(v.released, v.claims, w.orders, w.holds, w.limbo - {id})
      && HoldsOk(w.orders, w.holds, w.limbo - {id})
  {
    hide Persisted, ReleaseSucceeds, ReleaseSet;
  }

  lemma TasksAfterReturn(w: World, t: nat)
    requires TasksOk(w) && Enabled(w, ReturnSeats(t))
    requires var id := w.tasks[t].order;
      OrderMarker(id) in w.zone.released || ReleaseSucceeds(w.zone, ReturnArgs(id, w.orders[id]))
    ensures TasksOk(Next(w, ReturnSeats(t)))
  {
    hide Persisted, ReleaseSet, InsideBlock, Taken, SeenHolds;
    var v := Next(w, ReturnSeats(t));
    assert TaskOk(w.tasks[t], w.zone, w.orders, w.holds, w.limbo, w.deliveries, w.outbox);
    forall x | x in v.tasks ensures TaskOk(v.tasks[x], v.zone, v.orders, v.holds, v.limbo, v.deliveries, v.outbox) {
      if x in w.tasks {
        assert TaskOk(w.tasks[x], w.zone, w.orders, w.holds, w.limbo, w.deliveries, w.outbox);
      }
    }
  }

  lemma ReturnKeeps(w: World, t: nat)
    requires Inv(w) && Enabled(w, ReturnSeats(t))
    ensures Inv(Next(w, ReturnSeats(t)))
  {
    hide Balance, KeysOk, HoldsOk, Persisted, ReleaseSet, Owned, InsideBlock, Taken;
    var id := w.tasks[t].order;
    assert TaskOk(w.tasks[t], w.zone, w.orders, w.holds, w.limbo, w.deliveries, w.outbox);
    if OrderMarker(id) !in w.zone.released {
      ReturnGoesThrough(w, id);
      TablesAfterReturn(w, id);
    } else {
      assert w.limbo - {id} == w.limbo;
    }
    TasksAfterReturn(w, t);
    hide TasksOk, MarkersOk;
  }

  /** The backlog check and the read only keep in mind what they saw. */
  lemma ReadStepKeeps(w: World, s: Step)
    requires Inv(w) && (s.CheckBacklog? || s.ReadHolds?) && Enabled(w, s)
    ensures Inv(Next(w, s))
  {
    hide Balance, KeysOk, MarkersOk, Owned, Persisted;
    var v := Next(w, s);
    assert TaskOk(v.tasks[s.t], v.zone, v.orders, v.holds, v.limbo, v.deliveries, v.outbox);
    hide TaskOk, HoldsOk;
  }

  lemma TasksAfterWrite(w: World, t: nat, free: set<Run>)
    requires TasksOk(w) && Enabled(w, WriteRuns(t, free))
    ensures TasksOk(Next(w, WriteRuns(t, free)))
  {
    hide Persisted, IsComplement, SeenHolds;
    var v := Next(w, WriteRuns(t, free));
    forall x | x in v.tasks ensures TaskOk(v.tasks[x], v.zone, v.orders, v.holds, v.limbo, v.deliveries, v.outbox) {
      assert x in w.tasks && TaskOk(w.tasks[x], w.zone, w.orders, w.holds, w.limbo, w.deliveries, w.outbox);
    }
  }

  lemma TablesAfterWrite(w: World, kept: set<nat>)
    requires MarkersOk(w.zone.released, w.zone.claims, w.orders, w.holds, w.limbo) && HoldsOk(w.orders, w.holds, w.limbo)
    requires kept <= w.limbo
    ensures MarkersOk(w.zone.released, w.zone.claims, w.orders, w.holds, kept) && HoldsOk(w.orders, w.holds, kept)
  {
    hide Persisted;
  }

  lemma ReadIsSnapshot(w: World, t: nat, free: set<Run>)
    requires TasksOk(w) && Enabled(w, WriteRuns(t, free))
    ensures Snapshot(w, w.tasks[t].read) && w.holds.Keys + w.limbo * w.tasks[t].read.Keys == w.tasks[t].read.Keys
  {
    assert TaskOk(w.tasks[t], w.zone, w.orders, w.holds, w.limbo, w.deliveries, w.outbox);
  }

  /** A rebuild turns leaked seats into free ones and leaves every other owner alone. */
  lemma WriteKeeps(w: World, t: nat, free: set<Run>)
    requires Inv(w) && Enabled(w, WriteRuns(t, free))
    ensures Inv(Next(w, WriteRuns(t, free)))
  {
    var read := w.tasks[t].read;
    hide Balance, Owned, InFlight, IsComplement, KeysOk, MarkersOk, HoldsOk, TasksOk, Snapshot, NoReturnPending;
    ReadIsSnapshot(w, t, free);
    RebuildBalances(w, read, free);
    TasksAfterWrite(w, t, free);
    TablesAfterWrite(w, w.limbo * read.Keys);
    KeysAfterWrite(w.zone, w.orders, free);
  }

  lemma KeysAfterWrite(z: Zone, orders: map<nat, SeatedOrder>, free: set<Run>)
    requires KeysOk(z, orders)
    ensures KeysOk(z.(free := free), orders)
  {
  }

  /** The hold rows read are what their orders were stored with. */
  ghost predicate Snapshot(w: World, read: map<nat, Hold>) {
    read.Keys <= w.holds.Keys + w.limbo && SeenHolds(read, w.orders)
  }

  lemma RebuildBalances(w: World, read: map<nat, Hold>, free: set<Run>)
    requires Balance(w.zone, OwnedIn(w)) && Snapshot(w, read)
    requires forall e :: e in w.zone.stream ==> !InFlight(w.zone.released, w.orders, w.zone.stream[e])
    requires IsComplement(free, w.zone.geom, read.Values)
    ensures Balance(w.zone.(free := free), Owned(w.zone.stream, w.zone.released, w.orders, read.Keys))
  {
    var before, after := OwnedIn(w), Owned(w.zone.stream, w.zone.released, w.orders, read.Keys);
    forall x | x in after ensures x in before && after[x] == before[x] && after[x] in read.Values {
      OwnedMeaning(w.zone.stream, w.zone.released, w.orders, read.Keys, x);
      OwnedMeaning(w.zone.stream, w.zone.released, w.orders, w.holds.Keys + w.limbo, x);
      assert read[x.order] == after[x];
    }
    forall h | h in read.Values ensures h in after.Values {
      var o :| o in read && read[o] == h;
      OwnedMeaning(w.zone.stream, w.zone.released, w.orders, read.Keys, OfOrder(o));
      assert after[OfOrder(o)] == h;
    }
    hide Owned, InFlight;
    assert after.Values == read.Values;
    assert after.Values <= before.Values;
    forall x, y | x in after && y in after && x != y ensures NoShare(after[x], after[y]) {
      assert NoShare(before[x], before[y]);
    }
  }
}
