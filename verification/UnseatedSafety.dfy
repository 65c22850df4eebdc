/** Safety of the unseated pipeline over whole runs. */
module UnseatedSafety {
  import opened Basics
  import opened Quota
  import opened Orders
  import opened Inventory
  import opened Sums
  import opened UnseatedLedger
  import opened Delivery
  import opened UnseatedPipeline
  import opened UnseatedSteps

  // ------------------------------------------------------------------ the database at rest

  /** With an empty stream and no release owed, the seats taken are exactly the held ones. */
  lemma TakenAtRest(released: set<Marker>, orders: map<nat, Order>, b: Whose)
    requires NothingOwed(released, orders) && forall o :: o in orders ==> orders[o].quantity >= 1
    ensures Taken(map[], released, orders, b) == HeldSeats(orders, b)
  {
    OwedIsZero(released, orders);
    assert OwedSeats(released, orders, b) == 0;
    TakenWhenDrained(released, orders, b);
  }

  /** Both drift checks pass whenever the stream is empty and nothing is owed. */
  lemma DriftChecksPass(w: World)
    requires Inv(w) && w.stock.stream == map[] && NothingOwed(w.stock.released, w.orders)
    ensures w.stock.available == Some(ExpectedAvailable(w.total, w.orders))
    ensures w.stock.purchased == ExpectedQuotas(w.orders)
  {
    hide TasksOk, MarkersOk, OutboxOk, Taken, KeysAreUnique, NothingOwed;
    TakenAtRest(w.stock.released, w.orders, Everyone);
    forall u ensures u in w.stock.purchased <==> u in Holders(w.orders)
             ensures u in w.stock.purchased ==> w.stock.purchased[u] == HeldSeats(w.orders, Buyer(u)) {
      assert QuotaOk(w.stock, w.limit, w.orders, u);
      TakenAtRest(w.stock.released, w.orders, Buyer(u));
      HoldersHoldSomething(w.orders, u);
    }
    hide HeldSeats, Holders;
    var expected := ExpectedQuotas(w.orders);
    assert forall u :: u in expected <==> u in w.stock.purchased;
    assert forall u :: u in expected ==> expected[u] == w.stock.purchased[u];
    assert w.stock.purchased == ExpectedQuotas(w.orders);
  }

  /** Reconciling at rest changes nothing. */
  lemma ReconcileAtRestIsIdle(w: World)
    requires Inv(w) && w.stock.stream == map[] && NothingOwed(w.stock.released, w.orders)
    ensures Reconciled(w) == w.stock
  {
    DriftChecksPass(w);
  }

  // ------------------------------------------------------------------ runs

  predicate SameEvent(w: World, v: World) {
    v.total == w.total && v.limit == w.limit
  }

  lemma SameEventAfter(w: World, s: Step)
    requires Enabled(w, s)
    ensures SameEvent(w, Next(w, s))
  {
    hide AfterRelease, AfterReserve;
  }

  lemma StepKeeps(w: World, s: Step)
    requires Inv(w) && Enabled(w, s)
    ensures Inv(Next(w, s)) && SameEvent(w, Next(w, s))
  {
    SameEventAfter(w, s);
    hide Inv, Enabled, Next;
    match s
    case Reserve(i) => ReserveKeeps(w, i);
    case Deliver(t, e) => DeliverKeeps(w, t, e);
    case Insert(t, o) => InsertKeeps(w, t, o);
    case FindDuplicate(t) => FindDuplicateKeeps(w, t);
    case Ack(t) => AckKeeps(w, t);
    case GiveUp(t, e) => GiveUpKeeps(w, t, e);
    case RefundEntry(t) => RefundKeeps(w, t);
    case FailClaim(t) => FailClaimKeeps(w, t);
    case Decide(o, status, row, t) => DecideKeeps(w, o, status, row, t);
    case ReleaseSeats(t) => ReturnKeeps(w, t);
    case ClaimRow(_, _, _) => RowStepKeeps(w, s);
    case MarkRow(_) => RowStepKeeps(w, s);
    case Stop(t) => StopKeeps(w, t);
    case WriteStock(t) => WriteStockKeeps(w, t);
    case WriteQuotas(t) => WriteQuotasKeeps(w, t);
    case _ => ReadStepKeeps(w, s);
  }

  /** The invariant holds in every state of every run. */
  lemma {:induction false} AlwaysSound(w: World, steps: seq<Step>)
    requires Inv(w) && Possible(w, steps)
    ensures Inv(AfterSteps(w, steps))
    ensures SameEvent(w, AfterSteps(w, steps))
    decreases steps
  {
    hide Inv, Enabled, Next;
    if steps != [] {
      StepKeeps(w, steps[0]);
      AlwaysSound(Next(w, steps[0]), steps[1..]);
    }
  }

  /** No run sells more seats than there are, or more to one buyer than the limit. */
  lemma NeverOversold(w: World, steps: seq<Step>)
    requires Initial(w) && Possible(w, steps)
    ensures var v := AfterSteps(w, steps);
      && v.stock.available.Some?
      && 0 <= v.stock.available.value == w.total - Taken(v.stock.stream, v.stock.released, v.orders, Everyone)
      && HeldSeats(v.orders, Everyone) <= w.total
      && forall u :: HeldSeats(v.orders, Buyer(u)) <= Held(v.stock.purchased, u) <= w.limit
  {
    InitialIsSound(w);
    AlwaysSound(w, steps);
    var v := AfterSteps(w, steps);
    hide AfterSteps, Possible, TasksOk, MarkersOk, OutboxOk;
    HeldIsTaken(v.stock, v.orders, Everyone);
    forall u ensures HeldSeats(v.orders, Buyer(u)) <= Held(v.stock.purchased, u) <= w.limit {
      HeldIsTaken(v.stock, v.orders, Buyer(u));
      assert QuotaOk(v.stock, v.limit, v.orders, u);
    }
  }

  lemma HeldIsTaken(s: Stock, orders: map<nat, Order>, b: Whose)
    requires KeysOk(s, orders)
    ensures HeldSeats(orders, b) <= Taken(s.stream, s.released, orders, b)
  {
    SumSplits(OrderCounts(s.released, orders, b), HeldCounts(orders, b), OwedCounts(s.released, orders, b));
    SumNotNegative(EntryCounts(s.stream, s.released, orders, b));
    SumNotNegative(OwedCounts(s.released, orders, b));
  }

  // ------------------------------------------------------------------ seats come back at most once

  /** This step puts the seats of order `o` back into the stock. */
  ghost predicate ReturnsSeatsOf(w: World, s: Step, o: nat) {
    && s.ReleaseSeats? && Enabled(w, s) && w.tasks[s.t].order == o
    && Next(w, s).stock.available != w.stock.available
  }

  ghost function Returns(w: World, steps: seq<Step>, o: nat): nat
    requires Possible(w, steps)
    decreases steps
  {
    if steps == [] then 0
    else Bit(ReturnsSeatsOf(w, steps[0], o)) + Returns(Next(w, steps[0]), steps[1..], o)
  }

  /** The seats of an order move exactly when its marker is set, and only once its status is final. */
  lemma ReturnSetsMarker(w: World, s: Step, o: nat)
    requires Inv(w) && Enabled(w, s)
    ensures Bit(OrderMarker(o) in w.stock.released) + Bit(ReturnsSeatsOf(w, s, o)) == Bit(OrderMarker(o) in Next(w, s).stock.released)
    ensures ReturnsSeatsOf(w, s, o) ==> o in w.orders && w.orders[o].status.OwesRelease()
  {
    hide Taken, QuotaOk, MarkersOk, OutboxOk;
    if s.ReleaseSeats? {
      assert TaskOk(w.tasks[s.t], w.stock, w.orders, w.deliveries, w.outbox);
    }
  }

  /** Over a whole run the seats of an order come back at most once, whoever releases them and however often. */
  lemma {:induction false} ReturnedAtMostOnce(w: World, steps: seq<Step>, o: nat)
    requires Inv(w) && Possible(w, steps)
    ensures Bit(OrderMarker(o) in w.stock.released) + Returns(w, steps, o)
         == Bit(OrderMarker(o) in AfterSteps(w, steps).stock.released) <= 1
    decreases steps
  {
    hide Inv, Enabled, Next, ReturnsSeatsOf;
    if steps != [] {
      StepKeeps(w, steps[0]);
      ReturnSetsMarker(w, steps[0], o);
      ReturnedAtMostOnce(Next(w, steps[0]), steps[1..], o);
    }
  }

  // ------------------------------------------------------------------ the relay

  function Attempts(outbox: map<nat, Row>, r: nat): nat {
    if r in outbox then outbox[r].attempts else 0
  }

  /** How often a run claims one outbox row. */
  ghost function Claims(w: World, steps: seq<Step>, r: nat): nat
    requires Possible(w, steps)
    decreases steps
  {
    if steps == [] then 0
    else Bit(steps[0].ClaimRow? && steps[0].row == r) + Claims(Next(w, steps[0]), steps[1..], r)
  }

  lemma ClaimCounts(w: World, s: Step, r: nat)
    requires Inv(w) && Enabled(w, s)
    ensures Attempts(w.outbox, r) + Bit(s.ClaimRow? && s.row == r) == Attempts(Next(w, s).outbox, r)
  {
    hide LedgerOk, MarkersOk, OutboxOk, AfterReserve, AfterRelease, TaskOk;
  }

  /** No outbox row is handed out more often than the attempt limit. */
  lemma {:induction false} ClaimsAreBounded(w: World, steps: seq<Step>, r: nat)
    requires Inv(w) && Possible(w, steps)
    ensures Attempts(w.outbox, r) + Claims(w, steps, r) == Attempts(AfterSteps(w, steps).outbox, r) <= OUTBOX_MAX_ATTEMPTS
    decreases steps
  {
    if steps == [] {
      hide LedgerOk, MarkersOk, TasksOk, KeysOk, HasRow;
      assert AfterSteps(w, steps) == w;
    } else {
      hide Inv, Enabled, Next, Attempts;
      StepKeeps(w, steps[0]);
      ClaimCounts(w, steps[0], r);
      ClaimsAreBounded(Next(w, steps[0]), steps[1..], r);
    }
  }

  /** Leases never run backwards: no later claim of a row comes before the row is due. */
  lemma {:induction false} NobodyClaimsEarly(w: World, steps: seq<Step>, r: nat, i: nat)
    requires Possible(w, steps) && r in w.outbox && i < |steps| && steps[i].ClaimRow? && steps[i].row == r
    ensures steps[i].now >= w.outbox[r].due
    decreases steps
  {
    if i > 0 {
      DueOnlyGrows(w, steps[0], r);
      hide Enabled, Next;
      NobodyClaimsEarly(Next(w, steps[0]), steps[1..], r, i - 1);
    }
  }

  lemma {:induction false} LeaseInRange(attempts: nat)
    ensures OUTBOX_BACKOFF_BASE_S <= Lease(attempts) <= OUTBOX_BACKOFF_CAP_S
    ensures Power2(attempts) >= 1
  {
    if attempts > 0 {
      LeaseInRange(attempts - 1);
    }
  }

  lemma DueOnlyGrows(w: World, s: Step, r: nat)
    requires Enabled(w, s) && r in w.outbox
    ensures r in Next(w, s).outbox && Next(w, s).outbox[r].due >= w.outbox[r].due
  {
    hide AfterReserve, AfterRelease;
    if s.ClaimRow? && s.row == r {
      LeaseInRange(w.outbox[r].attempts);
    }
  }

  /** Two claims of one row are a whole lease apart, and a lease lasts a minute to an hour. */
  lemma ClaimsAreALeaseApart(w: World, steps: seq<Step>, r: nat, i: nat)
    requires Possible(w, steps) && 0 < i < |steps|
    requires steps[0].ClaimRow? && steps[0].row == r && steps[i].ClaimRow? && steps[i].row == r
    ensures r in w.outbox && steps[i].now >= steps[0].now + Lease(w.outbox[r].attempts) >= steps[0].now + OUTBOX_BACKOFF_BASE_S
  {
    LeaseInRange(w.outbox[r].attempts);
    NobodyClaimsEarly(Next(w, steps[0]), steps[1..], r, i - 1);
  }

  /** How often a run hands out one entry to be stored. */
  ghost function Deliveries(w: World, steps: seq<Step>, e: nat): nat
    requires Possible(w, steps)
    decreases steps
  {
    if steps == [] then 0
    else Bit(steps[0].Deliver? && steps[0].entry == e) + Deliveries(Next(w, steps[0]), steps[1..], e)
  }

  lemma DeliveryCounts(w: World, s: Step, e: nat)
    requires Enabled(w, s)
    ensures s.Deliver? && s.entry == e ==> AttemptsOn(w.deliveries, e) < MAX_DELIVERIES
    ensures AttemptsOn(Next(w, s).deliveries, e) >= AttemptsOn(w.deliveries, e) + Bit(s.Deliver? && s.entry == e)
  {
    hide AfterReserve, AfterRelease;
  }

  /** No entry is handed out more often than the delivery limit. */
  lemma {:induction false} DeliveriesAreBounded(w: World, steps: seq<Step>, e: nat)
    requires Possible(w, steps)
    ensures Deliveries(w, steps, e) <= MaxInt(0, MAX_DELIVERIES - AttemptsOn(w.deliveries, e))
    decreases steps
  {
    hide Enabled, Next, AttemptsOn;
    if steps != [] {
      DeliveryCounts(w, steps[0], e);
      DeliveriesAreBounded(Next(w, steps[0]), steps[1..], e);
    }
  }

  /**
   * A processed outbox row is a kept promise, and seats still owed have an unprocessed row left to replay:
   * nothing is forgotten silently.
   */
  lemma OutboxTellsTheTruth(w: World, steps: seq<Step>)
    requires Initial(w) && Possible(w, steps)
    ensures var v := AfterSteps(w, steps);
      && (forall r :: r in v.outbox && v.outbox[r].processed ==> OrderMarker(v.outbox[r].order) in v.stock.released)
      && (forall o :: o in v.orders && v.orders[o].status.OwesRelease() && OrderMarker(o) !in v.stock.released ==>
            exists r :: r in v.outbox && v.outbox[r].order == o && !v.outbox[r].processed)
      && (forall o :: OrderMarker(o) in v.stock.released ==> o in v.orders && v.orders[o].status.OwesRelease())
  {
    InitialIsSound(w);
    AlwaysSound(w, steps);
    var v := AfterSteps(w, steps);
    hide AfterSteps, Possible, Initial, LedgerOk, TasksOk, KeysOk;
    forall o | o in v.orders && v.orders[o].status.OwesRelease() && OrderMarker(o) !in v.stock.released
      ensures exists r :: r in v.outbox && v.outbox[r].order == o && !v.outbox[r].processed
    {
      assert HasRow(v.outbox, o);
      var r :| r in v.outbox && v.outbox[r].order == o;
      assert !v.outbox[r].processed;
    }
  }
}
