/** Every step of the unseated pipeline keeps the invariant. */
module UnseatedSteps {
  import opened Basics
  import opened Quota
  import opened Orders
  import opened Inventory
  import opened Sums
  import opened UnseatedLedger
  import opened Delivery
  import opened UnseatedPipeline

  // ------------------------------------------------------------------ the counters, step by step

  lemma TakenNotNegative(s: Stock, orders: map<nat, Order>, released: set<Marker>, w: Whose)
    requires KeysOk(s, orders)
    ensures Taken(s.stream, released, orders, w) >= 0
  {
    SumNotNegative(EntryCounts(s.stream, released, orders, w));
    SumNotNegative(OrderCounts(released, orders, w));
  }

  lemma QuotaAfterReserve(s: Stock, limit: int, orders: map<nat, Order>, i: Intent, u: int)
    requires QuotaOk(s, limit, orders, u) && ReserveOutcome(s, i, limit).Accepted? && i.quantity >= 1
    requires s.nextId !in s.stream && InFlight(s.released, orders, i)
    requires Held(s.purchased, u) >= 0
    ensures QuotaOk(AfterReserve(s, i, limit), limit, orders, u)
  {
    TakenByReserve(s.stream, s.released, orders, s.nextId, i, Buyer(u));
  }

  lemma LedgerAfterReserve(s: Stock, total: int, limit: int, orders: map<nat, Order>, i: Intent)
    requires LedgerOk(s, total, limit, orders) && KeysOk(s, orders) && MarkersOk(s, orders) && i.quantity >= 1
    ensures LedgerOk(AfterReserve(s, i, limit), total, limit, orders)
  {
    if ReserveOutcome(s, i, limit).Accepted? {
      TakenByReserve(s.stream, s.released, orders, s.nextId, i, Everyone);
      forall u ensures QuotaOk(AfterReserve(s, i, limit), limit, orders, u) {
        TakenNotNegative(s, orders, s.released, Buyer(u));
        assert QuotaOk(s, limit, orders, u);
        QuotaAfterReserve(s, limit, orders, i, u);
      }
    }
  }

  /** The sum of claims drops by one buyer's seats. */
  ghost predicate Drops(s: Stock, orders: map<nat, Order>, marker: Marker, user: int, quantity: int, w: Whose) {
    Taken(s.stream, s.released + {marker}, orders, w) == Taken(s.stream, s.released, orders, w) - w.Count(user, quantity)
  }

  lemma QuotaAfterRelease(s: Stock, limit: int, orders: map<nat, Order>, user: int, quantity: int, marker: Marker, u: int)
    requires QuotaOk(s, limit, orders, u) && marker !in s.released && quantity >= 1
    requires Drops(s, orders, marker, user, quantity, Buyer(u))
    requires Taken(s.stream, s.released + {marker}, orders, Buyer(u)) >= 0
    ensures QuotaOk(AfterRelease(s, user, quantity, marker), limit, orders, u)
  {
  }

  /** A release that really happens moves the counters as the sum of claims moves. */
  lemma LedgerAfterRelease(s: Stock, total: int, limit: int, orders: map<nat, Order>, user: int, quantity: int, marker: Marker)
    requires LedgerOk(s, total, limit, orders) && KeysOk(s, orders) && marker !in s.released && quantity >= 1
    requires forall w :: Drops(s, orders, marker, user, quantity, w)
    ensures LedgerOk(AfterRelease(s, user, quantity, marker), total, limit, orders)
  {
    hide Taken;
    assert Drops(s, orders, marker, user, quantity, Everyone);
    forall u ensures QuotaOk(AfterRelease(s, user, quantity, marker), limit, orders, u) {
      TakenNotNegative(s, orders, s.released + {marker}, Buyer(u));
      assert QuotaOk(s, limit, orders, u) && Drops(s, orders, marker, user, quantity, Buyer(u));
      QuotaAfterRelease(s, limit, orders, user, quantity, marker, u);
    }
  }

  /** The same seats are taken, by everyone and by each buyer. */
  ghost predicate SameTaken(s: Stock, orders: map<nat, Order>, s': Stock, orders': map<nat, Order>, w: Whose) {
    Taken(s'.stream, s'.released, orders', w) == Taken(s.stream, s.released, orders, w)
  }

  lemma LedgerStays(s: Stock, total: int, limit: int, orders: map<nat, Order>, s': Stock, orders': map<nat, Order>)
    requires LedgerOk(s, total, limit, orders) && s'.available == s.available && s'.purchased == s.purchased
    requires forall w :: SameTaken(s, orders, s', orders', w)
    ensures LedgerOk(s', total, limit, orders')
  {
    hide Taken;
    assert SameTaken(s, orders, s', orders', Everyone);
    forall u ensures QuotaOk(s', limit, orders', u) {
      assert QuotaOk(s, limit, orders, u) && SameTaken(s, orders, s', orders', Buyer(u));
    }
  }

  // ------------------------------------------------------------------ one lemma per kind of step

  predicate InitialStock(s: Stock, total: int) {
    s.available == Some(total) && s.purchased == map[] && s.claims == map[] && s.stream == map[] && s.released == {}
  }

  /** A freshly published event. */
  predicate Initial(w: World) {
    && InitialStock(w.stock, w.total) && w.total >= 0 && w.limit >= 0
    && w.orders == map[] && w.deliveries == map[] && w.outbox == map[] && w.tasks == map[]
  }

  lemma InitialIsSound(w: World)
    requires Initial(w)
    ensures Inv(w)
  {
    forall b ensures Taken(w.stock.stream, w.stock.released, w.orders, b) == 0 {
      assert EntryCounts(w.stock.stream, w.stock.released, w.orders, b) == map[];
      assert OrderCounts(w.stock.released, w.orders, b) == map[];
    }
    hide Taken;
    forall u ensures QuotaOk(w.stock, w.limit, w.orders, u) {
      assert Taken(w.stock.stream, w.stock.released, w.orders, Buyer(u)) == 0;
    }
  }

  lemma TasksAfterReserve(w: World, i: Intent)
    requires TasksOk(w) && KeysOk(w.stock, w.orders) && MarkersOk(w.stock, w.orders) && i.quantity >= 1
    ensures TasksOk(Next(w, Reserve(i)))
  {
    hide KeysAreUnique, InFlight, Persisted;
    var v := Next(w, Reserve(i));
    forall t | t in v.tasks ensures TaskOk(v.tasks[t], v.stock, v.orders, v.deliveries, v.outbox) {
      assert TaskOk(w.tasks[t], w.stock, w.orders, w.deliveries, w.outbox);
    }
  }

  lemma KeysAfterReserve(s: Stock, orders: map<nat, Order>, i: Intent, limit: int)
    requires KeysOk(s, orders) && i.quantity >= 1
    ensures KeysOk(AfterReserve(s, i, limit), orders)
  {
  }

  lemma MarkersAfterReserve(s: Stock, orders: map<nat, Order>, i: Intent, limit: int)
    requires MarkersOk(s, orders)
    ensures MarkersOk(AfterReserve(s, i, limit), orders)
  {
    hide Persisted;
  }

  lemma ReserveKeeps(w: World, i: Intent)
    requires Inv(w) && Enabled(w, Reserve(i))
    ensures Inv(Next(w, Reserve(i)))
  {
    hide LedgerOk, KeysOk, MarkersOk, TasksOk, OutboxOk;
    LedgerAfterReserve(w.stock, w.total, w.limit, w.orders, i);
    KeysAfterReserve(w.stock, w.orders, i, w.limit);
    MarkersAfterReserve(w.stock, w.orders, i, w.limit);
    TasksAfterReserve(w, i);
  }

  lemma DeliverKeeps(w: World, t: nat, e: nat)
    requires Inv(w) && Enabled(w, Deliver(t, e))
    ensures Inv(Next(w, Deliver(t, e)))
  {
    hide LedgerOk, OutboxOk, MarkersOk, InFlight, Persisted;
    var v := Next(w, Deliver(t, e));
    assert TasksOk(v) by {
      forall x | x in v.tasks ensures TaskOk(v.tasks[x], v.stock, v.orders, v.deliveries, v.outbox) {
        if x != t {
          assert TaskOk(w.tasks[x], w.stock, w.orders, w.deliveries, w.outbox);
        }
      }
    }
  }

  /** The facts an insert starts from: the entry is still there, in flight, and nobody is giving up on it. */
  lemma PersistingFacts(w: World, t: nat, id: nat)
    requires Inv(w) && Enabled(w, Insert(t, id))
    ensures var e := w.tasks[t].entry;
      && e in w.stock.stream && w.stock.stream[e] == w.tasks[t].intent && InFlight(w.stock.released, w.orders, w.stock.stream[e])
      && e in w.deliveries && w.deliveries[e] <= MAX_DELIVERIES
  {
    assert TaskOk(w.tasks[t], w.stock, w.orders, w.deliveries, w.outbox);
  }

  lemma LedgerAfterInsert(w: World, e: nat, id: nat)
    requires LedgerOk(w.stock, w.total, w.limit, w.orders) && KeysOk(w.stock, w.orders) && id !in w.orders
    requires e in w.stock.stream && InFlight(w.stock.released, w.orders, w.stock.stream[e])
    ensures LedgerOk(w.stock, w.total, w.limit, w.orders[id := RowOf(w.stock.stream[e])])
  {
    var more := w.orders[id := RowOf(w.stock.stream[e])];
    forall b ensures SameTaken(w.stock, w.orders, w.stock, more, b) {
      TakenByInsert(w.stock.stream, w.stock.released, w.orders, e, id, b);
    }
    hide SameTaken;
    LedgerStays(w.stock, w.total, w.limit, w.orders, w.stock, more);
  }

  lemma MarkersAfterInsert(s: Stock, orders: map<nat, Order>, id: nat, o: Order)
    requires MarkersOk(s, orders) && id !in orders && DeadLetterMarker(o.key) !in s.released
    ensures MarkersOk(s, orders[id := o])
  {
    forall k ensures Persisted(orders[id := o], k) <==> Persisted(orders, k) || k == o.key {
      PersistedAfterInsert(orders, id, o, k);
    }
    hide Persisted;
  }

  lemma TasksAfterInsert(w: World, t: nat, id: nat)
    requires TasksOk(w) && KeysOk(w.stock, w.orders) && Enabled(w, Insert(t, id))
    requires var e := w.tasks[t].entry;
      e in w.stock.stream && w.stock.stream[e] == w.tasks[t].intent && e in w.deliveries && w.deliveries[e] <= MAX_DELIVERIES
    ensures TasksOk(Next(w, Insert(t, id)))
  {
    var v := Next(w, Insert(t, id));
    forall k ensures Persisted(v.orders, k) <==> Persisted(w.orders, k) || k == w.tasks[t].intent.key {
      PersistedAfterInsert(w.orders, id, RowOf(w.tasks[t].intent), k);
    }
    hide Persisted;
    forall x | x in v.tasks ensures TaskOk(v.tasks[x], v.stock, v.orders, v.deliveries, v.outbox) {
      assert x in w.tasks && TaskOk(w.tasks[x], w.stock, w.orders, w.deliveries, w.outbox);
    }
  }

  lemma OutboxAfterInsert(released: set<Marker>, orders: map<nat, Order>, outbox: map<nat, Row>, id: nat, o: Order)
    requires OutboxOk(released, orders, outbox) && id !in orders && o.status == PENDING
    ensures OutboxOk(released, orders[id := o], outbox)
  {
    hide HasRow;
  }

  lemma InsertKeeps(w: World, t: nat, id: nat)
    requires Inv(w) && Enabled(w, Insert(t, id))
    ensures Inv(Next(w, Insert(t, id)))
  {
    var e := w.tasks[t].entry;
    PersistingFacts(w, t, id);
    LedgerAfterInsert(w, e, id);
    KeysAfterInsert(w.stock, w.orders, e, id);
    MarkersAfterInsert(w.stock, w.orders, id, RowOf(w.tasks[t].intent));
    TasksAfterInsert(w, t, id);
    OutboxAfterInsert(w.stock.released, w.orders, w.outbox, id, RowOf(w.tasks[t].intent));
    hide LedgerOk, KeysOk, MarkersOk, TasksOk, OutboxOk, Persisted;
  }

  lemma KeysAfterInsert(s: Stock, orders: map<nat, Order>, e: nat, id: nat)
    requires KeysOk(s, orders) && e in s.stream && id !in orders && !Persisted(orders, s.stream[e].key)
    ensures KeysOk(s, orders[id := RowOf(s.stream[e])])
  {
  }

  lemma FindDuplicateKeeps(w: World, t: nat)
    requires Inv(w) && Enabled(w, FindDuplicate(t))
    ensures Inv(Next(w, FindDuplicate(t)))
  {
    hide LedgerOk, OutboxOk, MarkersOk, Persisted;
    var v := Next(w, FindDuplicate(t));
    assert TaskOk(w.tasks[t], w.stock, w.orders, w.deliveries, w.outbox);
    assert w.tasks[t].entry in w.stock.stream ==> w.stock.stream[w.tasks[t].entry] == w.tasks[t].intent;
    forall x | x in v.tasks ensures TaskOk(v.tasks[x], v.stock, v.orders, v.deliveries, v.outbox) {
      assert x in w.tasks && TaskOk(w.tasks[x], w.stock, w.orders, w.deliveries, w.outbox);
    }
  }

  lemma LedgerAfterAck(w: World, e: nat)
    requires LedgerOk(w.stock, w.total, w.limit, w.orders)
    requires e in w.stock.stream ==> !InFlight(w.stock.released, w.orders, w.stock.stream[e])
    ensures LedgerOk(w.stock.(stream := w.stock.stream - {e}), w.total, w.limit, w.orders)
  {
    var less := w.stock.(stream := w.stock.stream - {e});
    forall b ensures SameTaken(w.stock, w.orders, less, w.orders, b) {
      TakenByAck(w.stock.stream, w.stock.released, w.orders, e, b);
    }
    hide SameTaken;
    LedgerStays(w.stock, w.total, w.limit, w.orders, less, w.orders);
  }

  lemma TasksAfterAck(w: World, t: nat)
    requires TasksOk(w) && Enabled(w, Ack(t))
    ensures TasksOk(Next(w, Ack(t)))
  {
    hide Persisted;
    var v := Next(w, Ack(t));
    var e := w.tasks[t].entry;
    assert TaskOk(w.tasks[t], w.stock, w.orders, w.deliveries, w.outbox);
    forall x | x in v.tasks ensures TaskOk(v.tasks[x], v.stock, v.orders, v.deliveries, v.outbox) {
      assert x in w.tasks && TaskOk(w.tasks[x], w.stock, w.orders, w.deliveries, w.outbox);
    }
  }

  lemma AckKeeps(w: World, t: nat)
    requires Inv(w) && Enabled(w, Ack(t))
    ensures Inv(Next(w, Ack(t)))
  {
    hide LedgerOk, OutboxOk, KeysOk, MarkersOk, InFlight;
    assert TaskOk(w.tasks[t], w.stock, w.orders, w.deliveries, w.outbox);
    hide TasksOk;
    LedgerAfterAck(w, w.tasks[t].entry);
    TasksAfterAck(w, t);
    TablesAfterAck(w.stock, w.orders, w.tasks[t].entry);
  }

  lemma TablesAfterAck(s: Stock, orders: map<nat, Order>, e: nat)
    requires KeysOk(s, orders) && MarkersOk(s, orders)
    ensures KeysOk(s.(stream := s.stream - {e}), orders) && MarkersOk(s.(stream := s.stream - {e}), orders)
  {
    hide Persisted;
  }

  lemma GiveUpKeeps(w: World, t: nat, e: nat)
    requires Inv(w) && Enabled(w, GiveUp(t, e))
    ensures Inv(Next(w, GiveUp(t, e)))
  {
    hide LedgerOk, OutboxOk, KeysOk, Persisted;
    var v := Next(w, GiveUp(t, e));
    assert TasksOk(v) by {
      forall x | x in v.tasks ensures TaskOk(v.tasks[x], v.stock, v.orders, v.deliveries, v.outbox) {
        if x != t {
          assert x in w.tasks && TaskOk(w.tasks[x], w.stock, w.orders, w.deliveries, w.outbox);
        }
      }
    }
  }

  lemma TasksAfterRefund(w: World, t: nat)
    requires TasksOk(w) && KeysOk(w.stock, w.orders) && Enabled(w, RefundEntry(t))
    ensures TasksOk(Next(w, RefundEntry(t)))
  {
    hide Persisted;
    var v := Next(w, RefundEntry(t));
    assert TaskOk(w.tasks[t], w.stock, w.orders, w.deliveries, w.outbox);
    forall x | x in v.tasks ensures TaskOk(v.tasks[x], v.stock, v.orders, v.deliveries, v.outbox) {
      assert x in w.tasks && TaskOk(w.tasks[x], w.stock, w.orders, w.deliveries, w.outbox);
    }
  }

  lemma LedgerAfterRefund(w: World, e: nat)
    requires LedgerOk(w.stock, w.total, w.limit, w.orders) && KeysOk(w.stock, w.orders)
    requires e in w.stock.stream && InFlight(w.stock.released, w.orders, w.stock.stream[e])
    ensures var i := w.stock.stream[e];
      LedgerOk(AfterRelease(w.stock, i.user, i.quantity, DeadLetterMarker(i.key)), w.total, w.limit, w.orders)
  {
    var i := w.stock.stream[e];
    forall b ensures Drops(w.stock, w.orders, DeadLetterMarker(i.key), i.user, i.quantity, b) {
      TakenByRefund(w.stock.stream, w.stock.released, w.orders, e, b);
    }
    hide Drops;
    LedgerAfterRelease(w.stock, w.total, w.limit, w.orders, i.user, i.quantity, DeadLetterMarker(i.key));
  }

  lemma TablesAfterRefund(s: Stock, orders: map<nat, Order>, outbox: map<nat, Row>, i: Intent, e: nat)
    requires KeysOk(s, orders) && MarkersOk(s, orders) && OutboxOk(s.released, orders, outbox)
    requires e in s.stream && s.stream[e] == i && !Persisted(orders, i.key)
    ensures var after := AfterRelease(s, i.user, i.quantity, DeadLetterMarker(i.key));
      KeysOk(after, orders) && MarkersOk(after, orders) && OutboxOk(after.released, orders, outbox)
  {
    hide HasRow, Persisted;
  }

  lemma RefundKeeps(w: World, t: nat)
    requires Inv(w) && Enabled(w, RefundEntry(t))
    ensures Inv(Next(w, RefundEntry(t)))
  {
    hide LedgerOk, KeysOk, MarkersOk, OutboxOk, Persisted;
    var i := w.tasks[t].intent;
    assert TaskOk(w.tasks[t], w.stock, w.orders, w.deliveries, w.outbox);
    hide TasksOk;
    TasksAfterRefund(w, t);
    if !w.tasks[t].persisted && DeadLetterMarker(i.key) !in w.stock.released {
      LedgerAfterRefund(w, w.tasks[t].entry);
      TablesAfterRefund(w.stock, w.orders, w.outbox, i, w.tasks[t].entry);
    }
  }

  lemma LedgerAfterMark(w: World, claims: map<nat, ClaimState>)
    requires LedgerOk(w.stock, w.total, w.limit, w.orders)
    ensures LedgerOk(w.stock.(claims := claims), w.total, w.limit, w.orders)
  {
    hide Taken;
    var after := w.stock.(claims := claims);
    forall b ensures SameTaken(w.stock, w.orders, after, w.orders, b) {
    }
    LedgerStays(w.stock, w.total, w.limit, w.orders, after, w.orders);
  }

  lemma FailClaimKeeps(w: World, t: nat)
    requires Inv(w) && Enabled(w, FailClaim(t))
    ensures Inv(Next(w, FailClaim(t)))
  {
    hide LedgerOk, OutboxOk, Persisted;
    var v := Next(w, FailClaim(t));
    LedgerAfterMark(w, v.stock.claims);
    assert TasksOk(v) by {
      hide KeysOk, MarkersOk;
      assert TaskOk(w.tasks[t], w.stock, w.orders, w.deliveries, w.outbox);
      forall x | x in v.tasks ensures TaskOk(v.tasks[x], v.stock, v.orders, v.deliveries, v.outbox) {
        assert x in w.tasks && TaskOk(w.tasks[x], w.stock, w.orders, w.deliveries, w.outbox);
      }
    }
    hide TasksOk, InFlight;
  }

  lemma LedgerAfterDecide(w: World, id: nat, status: Status)
    requires LedgerOk(w.stock, w.total, w.limit, w.orders) && MarkersOk(w.stock, w.orders)
    requires id in w.orders && w.orders[id].status.Holding()
    ensures LedgerOk(w.stock, w.total, w.limit, w.orders[id := w.orders[id].(status := status)])
  {
    var moved := w.orders[id := w.orders[id].(status := status)];
    forall b ensures SameTaken(w.stock, w.orders, w.stock, moved, b) {
      TakenByDecision(w.stock.stream, w.stock.released, w.orders, id, status, b);
    }
    hide SameTaken;
    LedgerStays(w.stock, w.total, w.limit, w.orders, w.stock, moved);
  }

  lemma TablesAfterDecide(s: Stock, orders: map<nat, Order>, id: nat, status: Status)
    requires KeysOk(s, orders) && MarkersOk(s, orders) && id in orders && status in ValidTransitions(orders[id].status)
    ensures var moved := orders[id := orders[id].(status := status)]; KeysOk(s, moved) && MarkersOk(s, moved)
  {
    var moved := orders[id := orders[id].(status := status)];
    forall k ensures Persisted(moved, k) <==> Persisted(orders, k) {
      PersistedIgnoresStatus(orders, id, status, k);
    }
    hide Persisted;
  }

  lemma OutboxAfterDecide(released: set<Marker>, orders: map<nat, Order>, outbox: map<nat, Row>, id: nat, status: Status, row: nat)
    requires OutboxOk(released, orders, outbox) && id in orders && status in ValidTransitions(orders[id].status)
    requires status.OwesRelease() ==> row !in outbox
    ensures OutboxOk(released, orders[id := orders[id].(status := status)], if status.OwesRelease() then outbox[row := Row(id, 0, 0, false)] else outbox)
  {
    if status.OwesRelease() {
      RowsAfterPut(outbox, row, Row(id, 0, 0, false));
    }
    hide HasRow;
  }

  /** What a worker relies on survives a decision about any order. */
  lemma TaskAfterDecide(task: Task, w: World, moved: map<nat, Order>, id: nat, status: Status, outbox: map<nat, Row>)
    requires TaskOk(task, w.stock, w.orders, w.deliveries, w.outbox)
    requires id in w.orders && w.orders[id].status.Holding() && moved == w.orders[id := w.orders[id].(status := status)]
    requires forall r :: r in w.outbox ==> r in outbox && outbox[r] == w.outbox[r]
    ensures TaskOk(task, w.stock, moved, w.deliveries, outbox)
  {
    forall k ensures Persisted(moved, k) <==> Persisted(w.orders, k) {
      PersistedIgnoresStatus(w.orders, id, status, k);
    }
    hide Persisted;
  }

  lemma TasksAfterDecide(w: World, id: nat, status: Status, row: nat, t: nat)
    requires TasksOk(w) && Enabled(w, Decide(id, status, row, t))
    ensures TasksOk(Next(w, Decide(id, status, row, t)))
  {
    var v := Next(w, Decide(id, status, row, t));
    forall x | x in w.tasks ensures TaskOk(w.tasks[x], v.stock, v.orders, v.deliveries, v.outbox) {
      TaskAfterDecide(w.tasks[x], w, v.orders, id, status, v.outbox);
    }
    assert status.OwesRelease() ==> TaskOk(v.tasks[t], v.stock, v.orders, v.deliveries, v.outbox);
    hide TaskOk;
  }

  lemma DecideKeeps(w: World, id: nat, status: Status, row: nat, t: nat)
    requires Inv(w) && Enabled(w, Decide(id, status, row, t))
    ensures Inv(Next(w, Decide(id, status, row, t)))
  {
    LedgerAfterDecide(w, id, status);
    TablesAfterDecide(w.stock, w.orders, id, status);
    OutboxAfterDecide(w.stock.released, w.orders, w.outbox, id, status, row);
    TasksAfterDecide(w, id, status, row, t);
    hide LedgerOk, KeysOk, MarkersOk, TasksOk, OutboxOk;
  }

  lemma LedgerAfterReturn(w: World, id: nat)
    requires LedgerOk(w.stock, w.total, w.limit, w.orders) && KeysOk(w.stock, w.orders)
    requires id in w.orders && w.orders[id].status.OwesRelease() && OrderMarker(id) !in w.stock.released
    ensures LedgerOk(AfterRelease(w.stock, w.orders[id].user, w.orders[id].quantity, OrderMarker(id)), w.total, w.limit, w.orders)
  {
    var o := w.orders[id];
    forall b ensures Drops(w.stock, w.orders, OrderMarker(id), o.user, o.quantity, b) {
      TakenByRelease(w.stock.stream, w.stock.released, w.orders, id, b);
    }
    hide Drops;
    LedgerAfterRelease(w.stock, w.total, w.limit, w.orders, o.user, o.quantity, OrderMarker(id));
  }

  lemma TablesAfterReturn(s: Stock, orders: map<nat, Order>, outbox: map<nat, Row>, id: nat)
    requires KeysOk(s, orders) && MarkersOk(s, orders) && OutboxOk(s.released, orders, outbox)
    requires id in orders && orders[id].status.OwesRelease()
    ensures var after := AfterRelease(s, orders[id].user, orders[id].quantity, OrderMarker(id));
      KeysOk(after, orders) && MarkersOk(after, orders) && OutboxOk(after.released, orders, outbox)
  {
    hide HasRow, Persisted;
  }

  lemma TasksAfterReturn(w: World, t: nat)
    requires TasksOk(w) && Enabled(w, ReleaseSeats(t))
    ensures TasksOk(Next(w, ReleaseSeats(t)))
  {
    hide Persisted;
    var v := Next(w, ReleaseSeats(t));
    assert TaskOk(w.tasks[t], w.stock, w.orders, w.deliveries, w.outbox);
    forall x | x in v.tasks ensures TaskOk(v.tasks[x], v.stock, v.orders, v.deliveries, v.outbox) {
      assert x in w.tasks && TaskOk(w.tasks[x], w.stock, w.orders, w.deliveries, w.outbox);
    }
  }

  lemma ReturnKeeps(w: World, t: nat)
    requires Inv(w) && Enabled(w, ReleaseSeats(t))
    ensures Inv(Next(w, ReleaseSeats(t)))
  {
    hide LedgerOk, KeysOk, MarkersOk, OutboxOk, Persisted;
    assert TaskOk(w.tasks[t], w.stock, w.orders, w.deliveries, w.outbox);
    hide TasksOk;
    TasksAfterReturn(w, t);
    TablesAfterReturn(w.stock, w.orders, w.outbox, w.tasks[t].order);
    if OrderMarker(w.tasks[t].order) !in w.stock.released {
      LedgerAfterReturn(w, w.tasks[t].order);
    }
  }

  /** Changing the bookkeeping fields of a row neither adds nor moves rows. */
  lemma OutboxAfterTouch(released: set<Marker>, orders: map<nat, Order>, outbox: map<nat, Row>, r: nat, row: Row)
    requires OutboxOk(released, orders, outbox) && r in outbox && row.order == outbox[r].order
    requires row.attempts <= OUTBOX_MAX_ATTEMPTS && (row.processed ==> OrderMarker(row.order) in released)
    ensures OutboxOk(released, orders, outbox[r := row])
  {
    var touched := outbox[r := row];
    forall o | HasRow(outbox, o) ensures HasRow(touched, o) {
      var q :| q in outbox && outbox[q].order == o;
      assert q in touched && touched[q].order == o;
    }
    hide HasRow;
  }

  lemma RowStepKeeps(w: World, s: Step)
    requires Inv(w) && (s.ClaimRow? || s.MarkRow?) && Enabled(w, s)
    ensures Inv(Next(w, s))
  {
    hide LedgerOk, KeysOk, MarkersOk, Persisted, HasRow;
    var v := Next(w, s);
    var r := if s.ClaimRow? then s.row else w.tasks[s.t].done;
    assert s.MarkRow? ==> TaskOk(w.tasks[s.t], w.stock, w.orders, w.deliveries, w.outbox);
    OutboxAfterTouch(w.stock.released, w.orders, w.outbox, r, v.outbox[r]);
    assert w.orders[w.outbox[r].order].status.OwesRelease();
    hide OutboxOk;
    forall x | x in v.tasks ensures TaskOk(v.tasks[x], v.stock, v.orders, v.deliveries, v.outbox) {
      if x in w.tasks {
        assert TaskOk(w.tasks[x], w.stock, w.orders, w.deliveries, w.outbox);
      }
    }
  }

  lemma StopKeeps(w: World, t: nat)
    requires Inv(w) && Enabled(w, Stop(t))
    ensures Inv(Next(w, Stop(t)))
  {
    hide LedgerOk, KeysOk, MarkersOk, OutboxOk, TaskOk;
  }

  lemma HoldersHoldSomething(orders: map<nat, Order>, u: int)
    requires forall o :: o in orders ==> orders[o].quantity >= 1
    ensures HeldSeats(orders, Buyer(u)) >= 0
    ensures u in Holders(orders) <==> HeldSeats(orders, Buyer(u)) >= 1
  {
    var c := HeldCounts(orders, Buyer(u));
    SumNotNegative(c);
    if u in Holders(orders) {
      var o :| o in orders && orders[o].status.Holding() && orders[o].user == u;
      SumAtLeast(c, o);
    } else {
      forall o | o in c ensures c[o] == 0 {
        assert orders[o].status.Holding() ==> orders[o].user in Holders(orders);
      }
      SumOfZeros(c);
    }
  }

  lemma ExpectedQuotasArePositive(s: Stock, orders: map<nat, Order>)
    requires KeysOk(s, orders)
    ensures forall u :: u in ExpectedQuotas(orders) ==> ExpectedQuotas(orders)[u] >= 1
  {
    forall u | u in ExpectedQuotas(orders) ensures ExpectedQuotas(orders)[u] >= 1 {
      HoldersHoldSomething(orders, u);
    }
  }

  /** What a reconcile reads is only kept in mind. */
  lemma ReadStepKeeps(w: World, s: Step)
    requires Inv(w) && (s.CheckBacklog? || s.ReadSold? || s.ReadHolders?) && Enabled(w, s)
    ensures Inv(Next(w, s))
  {
    hide LedgerOk, KeysOk, MarkersOk, OutboxOk, ExpectedQuotas, HeldSeats;
    ExpectedQuotasArePositive(w.stock, w.orders);
    var v := Next(w, s);
    assert TaskOk(v.tasks[s.t], v.stock, v.orders, v.deliveries, v.outbox);
    hide TaskOk;
  }

  lemma WriteStockKeeps(w: World, t: nat)
    requires Inv(w) && Enabled(w, WriteStock(t))
    ensures Inv(Next(w, WriteStock(t)))
  {
    hide QuotaOk, KeysOk, MarkersOk, OutboxOk, Taken;
    var v := Next(w, WriteStock(t));
    assert v.stock == w.stock;
    assert TaskOk(v.tasks[t], v.stock, v.orders, v.deliveries, v.outbox);
    hide TaskOk, LedgerOk;
  }

  lemma LedgerAfterQuotas(w: World, quotas: map<int, int>)
    requires LedgerOk(w.stock, w.total, w.limit, w.orders) && QuotasMayBe(w, quotas)
    requires forall u :: u in quotas ==> quotas[u] >= 1
    ensures LedgerOk(w.stock.(purchased := quotas), w.total, w.limit, w.orders)
  {
    hide Taken;
    forall u ensures QuotaOk(w.stock.(purchased := quotas), w.limit, w.orders, u) {
      assert QuotaOk(w.stock, w.limit, w.orders, u);
    }
  }

  lemma WriteQuotasKeeps(w: World, t: nat)
    requires Inv(w) && Enabled(w, WriteQuotas(t))
    ensures Inv(Next(w, WriteQuotas(t)))
  {
    hide LedgerOk, KeysOk, MarkersOk, OutboxOk, Persisted;
    assert TaskOk(w.tasks[t], w.stock, w.orders, w.deliveries, w.outbox);
    LedgerAfterQuotas(w, w.tasks[t].quotas);
    var v := Next(w, WriteQuotas(t));
    forall x | x in v.tasks ensures TaskOk(v.tasks[x], v.stock, v.orders, v.deliveries, v.outbox) {
      assert x in w.tasks && TaskOk(w.tasks[x], w.stock, w.orders, w.deliveries, w.outbox);
    }
    assert KeysOk(v.stock, v.orders) && MarkersOk(v.stock, v.orders) by {
      QuotasAreNoKeys(w.stock, w.orders, w.tasks[t].quotas);
    }
  }

  lemma QuotasAreNoKeys(s: Stock, orders: map<nat, Order>, quotas: map<int, int>)
    requires KeysOk(s, orders) && MarkersOk(s, orders)
    ensures KeysOk(s.(purchased := quotas), orders) && MarkersOk(s.(purchased := quotas), orders)
  {
    hide Persisted;
  }
}
