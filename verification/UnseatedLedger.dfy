/** Who is entitled to how many seats of an event without a seat map. */
module UnseatedLedger {
  import opened Basics
  import opened Quota
  import opened Orders
  import opened Inventory
  import opened Sums

  datatype Order = Order(user: int, quantity: int, totalCents: int, key: nat, status: Status)

  /** Whose seats are counted. */
  datatype Whose = Everyone | Buyer(user: int) {
    function Count(u: int, quantity: int): int {
      if Everyone? || user == u then quantity else 0
    }
  }

  /** An order row with this idempotency key has been committed. */
  ghost predicate Persisted(orders: map<nat, Order>, key: nat) {
    exists o :: o in orders && orders[o].key == key
  }

  /** Stock taken for an entry that is neither in the database nor refunded. */
  ghost predicate InFlight(released: set<Marker>, orders: map<nat, Order>, i: Intent) {
    DeadLetterMarker(i.key) !in released && !Persisted(orders, i.key)
  }

  /** Stock still taken for an order: it holds its seats, or has not given them back. */
  predicate Keeps(released: set<Marker>, id: nat, o: Order) {
    o.status.Holding() || OrderMarker(id) !in released
  }

  ghost function EntryCounts(stream: map<nat, Intent>, released: set<Marker>, orders: map<nat, Order>, w: Whose): map<nat, int> {
    map e | e in stream :: if InFlight(released, orders, stream[e]) then w.Count(stream[e].user, stream[e].quantity) else 0
  }

  ghost function OrderCounts(released: set<Marker>, orders: map<nat, Order>, w: Whose): map<nat, int> {
    map o | o in orders :: if Keeps(released, o, orders[o]) then w.Count(orders[o].user, orders[o].quantity) else 0
  }

  /** Seats taken out of the stock. */
  ghost function Taken(stream: map<nat, Intent>, released: set<Marker>, orders: map<nat, Order>, w: Whose): int {
    Sum(EntryCounts(stream, released, orders, w)) + Sum(OrderCounts(released, orders, w))
  }

  /** Seats of orders that hold them, straight from the database. */
  ghost function HeldCounts(orders: map<nat, Order>, w: Whose): map<nat, int> {
    map o | o in orders :: if orders[o].status.Holding() then w.Count(orders[o].user, orders[o].quantity) else 0
  }

  ghost function HeldSeats(orders: map<nat, Order>, w: Whose): int {
    Sum(HeldCounts(orders, w))
  }

  /** Seats of expired or cancelled orders that were not given back yet. */
  ghost function OwedCounts(released: set<Marker>, orders: map<nat, Order>, w: Whose): map<nat, int> {
    map o | o in orders ::
      if !orders[o].status.Holding() && OrderMarker(o) !in released then w.Count(orders[o].user, orders[o].quantity) else 0
  }

  ghost function OwedSeats(released: set<Marker>, orders: map<nat, Order>, w: Whose): int {
    Sum(OwedCounts(released, orders, w))
  }

  ghost predicate EntriesAreUnique(stream: map<nat, Intent>) {
    forall e, f {:trigger stream[e], stream[f]} :: e in stream && f in stream && stream[e].key == stream[f].key ==> e == f
  }

  /** Keys identify orders and entries. */
  ghost predicate KeysAreUnique(stream: map<nat, Intent>, orders: map<nat, Order>) {
    && EntriesAreUnique(stream)
    && (forall o, p {:trigger orders[o], orders[p]} :: o in orders && p in orders && orders[o].key == orders[p].key ==> o == p)
  }

  // ------------------------------------------------------------------ how the sum moves

  lemma TakenByReserve(stream: map<nat, Intent>, released: set<Marker>, orders: map<nat, Order>, e: nat, i: Intent, w: Whose)
    requires e !in stream && InFlight(released, orders, i)
    ensures Taken(stream[e := i], released, orders, w) == Taken(stream, released, orders, w) + w.Count(i.user, i.quantity)
  {
    var c := EntryCounts(stream, released, orders, w);
    SumPut(c, e, w.Count(i.user, i.quantity));
    assert EntryCounts(stream[e := i], released, orders, w) == c[e := w.Count(i.user, i.quantity)];
  }

  lemma PersistedAfterInsert(orders: map<nat, Order>, id: nat, o: Order, key: nat)
    requires id !in orders
    ensures Persisted(orders[id := o], key) <==> Persisted(orders, key) || key == o.key
  {
    if Persisted(orders, key) {
      var p :| p in orders && orders[p].key == key;
      assert orders[id := o][p].key == key;
    }
    assert orders[id := o][id] == o;
  }

  /** When exactly one entry in flight stops being so, the sum drops by its seats. */
  lemma EntryLeavesFlight(
      stream: map<nat, Intent>, released: set<Marker>, orders: map<nat, Order>, e: nat,
      moreReleased: set<Marker>, moreOrders: map<nat, Order>, w: Whose)
    requires e in stream && InFlight(released, orders, stream[e])
    requires forall f :: f in stream ==>
      (InFlight(moreReleased, moreOrders, stream[f]) <==> InFlight(released, orders, stream[f]) && f != e)
    ensures Sum(EntryCounts(stream, moreReleased, moreOrders, w))
         == Sum(EntryCounts(stream, released, orders, w)) - w.Count(stream[e].user, stream[e].quantity)
  {
    var c := EntryCounts(stream, released, orders, w);
    SumPut(c, e, 0);
    assert EntryCounts(stream, moreReleased, moreOrders, w) == c[e := 0];
  }

  lemma NewOrderCounts(released: set<Marker>, orders: map<nat, Order>, id: nat, o: Order, w: Whose)
    requires id !in orders && o.status.Holding()
    ensures Sum(OrderCounts(released, orders[id := o], w)) == Sum(OrderCounts(released, orders, w)) + w.Count(o.user, o.quantity)
  {
    var c := OrderCounts(released, orders, w);
    SumPut(c, id, w.Count(o.user, o.quantity));
    assert OrderCounts(released, orders[id := o], w) == c[id := w.Count(o.user, o.quantity)];
  }

  /** The order row made out of an entry. */
  function RowOf(i: Intent): Order {
    Order(i.user, i.quantity, i.totalCents, i.key, PENDING)
  }

  /** Committing an order moves its seats from the entry to the order. */
  lemma TakenByInsert(stream: map<nat, Intent>, released: set<Marker>, orders: map<nat, Order>, e: nat, id: nat, w: Whose)
    requires EntriesAreUnique(stream) && e in stream && id !in orders && InFlight(released, orders, stream[e])
    ensures Taken(stream, released, orders[id := RowOf(stream[e])], w) == Taken(stream, released, orders, w)
  {
    var o := RowOf(stream[e]);
    forall f | f in stream ensures InFlight(released, orders[id := o], stream[f]) <==> InFlight(released, orders, stream[f]) && f != e {
      PersistedAfterInsert(orders, id, o, stream[f].key);
    }
    EntryLeavesFlight(stream, released, orders, e, released, orders[id := o], w);
    NewOrderCounts(released, orders, id, o, w);
  }

  /** Removing an entry whose order is committed, or that was refunded, takes nothing away. */
  lemma TakenByAck(stream: map<nat, Intent>, released: set<Marker>, orders: map<nat, Order>, e: nat, w: Whose)
    requires e in stream ==> !InFlight(released, orders, stream[e])
    ensures Taken(stream - {e}, released, orders, w) == Taken(stream, released, orders, w)
  {
    if e in stream {
      var c := EntryCounts(stream, released, orders, w);
      SumWithout(c, e);
      assert EntryCounts(stream - {e}, released, orders, w) == c - {e};
    } else {
      assert stream - {e} == stream;
    }
  }

  /** Refunding an entry that never reached the database gives its seats back once. */
  lemma TakenByRefund(stream: map<nat, Intent>, released: set<Marker>, orders: map<nat, Order>, e: nat, w: Whose)
    requires EntriesAreUnique(stream) && e in stream && InFlight(released, orders, stream[e])
    ensures Taken(stream, released + {DeadLetterMarker(stream[e].key)}, orders, w)
         == Taken(stream, released, orders, w) - w.Count(stream[e].user, stream[e].quantity)
  {
    var more := released + {DeadLetterMarker(stream[e].key)};
    EntryLeavesFlight(stream, released, orders, e, more, orders, w);
    assert OrderCounts(more, orders, w) == OrderCounts(released, orders, w);
  }

  /** A status change by itself moves no seat, as long as no release of the order has happened. */
  lemma TakenByDecision(stream: map<nat, Intent>, released: set<Marker>, orders: map<nat, Order>, id: nat, status: Status, w: Whose)
    requires id in orders && orders[id].status.Holding() && OrderMarker(id) !in released
    ensures Taken(stream, released, orders[id := orders[id].(status := status)], w) == Taken(stream, released, orders, w)
  {
    var more := orders[id := orders[id].(status := status)];
    forall k ensures Persisted(more, k) <==> Persisted(orders, k) {
      PersistedIgnoresStatus(orders, id, status, k);
    }
    assert EntryCounts(stream, released, more, w) == EntryCounts(stream, released, orders, w);
    assert OrderCounts(released, more, w) == OrderCounts(released, orders, w);
  }

  lemma PersistedIgnoresStatus(orders: map<nat, Order>, id: nat, status: Status, key: nat)
    requires id in orders
    ensures Persisted(orders[id := orders[id].(status := status)], key) <==> Persisted(orders, key)
  {
    var more := orders[id := orders[id].(status := status)];
    if Persisted(orders, key) {
      var p :| p in orders && orders[p].key == key;
      assert p in more && more[p].key == key;
    }
    if Persisted(more, key) {
      var p :| p in more && more[p].key == key;
      assert p in orders && orders[p].key == key;
    }
  }

  /** Releasing a finished order gives its seats back once. */
  lemma TakenByRelease(stream: map<nat, Intent>, released: set<Marker>, orders: map<nat, Order>, id: nat, w: Whose)
    requires id in orders && !orders[id].status.Holding() && OrderMarker(id) !in released
    ensures Taken(stream, released + {OrderMarker(id)}, orders, w)
         == Taken(stream, released, orders, w) - w.Count(orders[id].user, orders[id].quantity)
  {
    var more := released + {OrderMarker(id)};
    var c := OrderCounts(released, orders, w);
    SumPut(c, id, 0);
    assert OrderCounts(more, orders, w) == c[id := 0];
    assert EntryCounts(stream, more, orders, w) == EntryCounts(stream, released, orders, w);
  }

  /** With nothing in the stream, taken seats are the held ones plus the owed ones. */
  lemma TakenWhenDrained(released: set<Marker>, orders: map<nat, Order>, w: Whose)
    ensures Taken(map[], released, orders, w) == HeldSeats(orders, w) + OwedSeats(released, orders, w)
  {
    assert EntryCounts(map[], released, orders, w) == map[];
    SumSplits(OrderCounts(released, orders, w), HeldCounts(orders, w), OwedCounts(released, orders, w));
  }

  predicate NothingOwed(released: set<Marker>, orders: map<nat, Order>) {
    forall o :: o in orders && !orders[o].status.Holding() ==> OrderMarker(o) in released
  }

  /** No seat is owed exactly when every finished order has been released. */
  lemma OwedIsZero(released: set<Marker>, orders: map<nat, Order>)
    requires forall o :: o in orders ==> orders[o].quantity >= 1
    ensures OwedSeats(released, orders, Everyone) == 0 <==> NothingOwed(released, orders)
    ensures OwedSeats(released, orders, Everyone) >= 0
    ensures NothingOwed(released, orders) ==> forall w :: OwedSeats(released, orders, w) == 0
  {
    var c := OwedCounts(released, orders, Everyone);
    SumNotNegative(c);
    if NothingOwed(released, orders) {
      forall w ensures OwedSeats(released, orders, w) == 0 {
        SumOfZeros(OwedCounts(released, orders, w));
      }
    } else {
      var o :| o in orders && !orders[o].status.Holding() && OrderMarker(o) !in released;
      SumAtLeast(c, o);
    }
  }
}
