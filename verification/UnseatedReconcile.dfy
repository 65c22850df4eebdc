/** Reconciling stock and quotas while orders come and go: what the code writes against what would be right. */
module UnseatedReconcile {
  import opened Basics
  import opened Quota
  import opened Orders
  import opened Inventory
  import opened Sums
  import opened Delivery
  import opened UnseatedLedger
  import opened UnseatedPipeline
  import opened UnseatedSteps
  import opened UnseatedSafety

  // ------------------------------------------------------------------ how the seats taken move over a run

  ghost function TakenNow(w: World, b: Whose): int {
    Taken(w.stock.stream, w.stock.released, w.orders, b)
  }

  /** Seats of entries that are neither stored nor refunded; the database does not see them. */
  ghost function FlightNow(w: World, b: Whose): int {
    Sum(EntryCounts(w.stock.stream, w.stock.released, w.orders, b))
  }

  /** Seats of finished orders that were not given back yet; the database does not see them either. */
  ghost function OwedNow(w: World, b: Whose): int {
    OwedSeats(w.stock.released, w.orders, b)
  }

  /** What the database shows falls short of what is taken by exactly these two. */
  lemma DatabaseFallsShort(w: World, b: Whose)
    ensures TakenNow(w, b) == HeldSeats(w.orders, b) + FlightNow(w, b) + OwedNow(w, b)
  {
    SumSplits(OrderCounts(w.stock.released, w.orders, b), HeldCounts(w.orders, b), OwedCounts(w.stock.released, w.orders, b));
  }

  /** Seats a step takes: an accepted reservation. */
  ghost function Takes(w: World, s: Step, b: Whose): int {
    if s.Reserve? && ReserveOutcome(w.stock, s.intent, w.limit).Accepted? then b.Count(s.intent.user, s.intent.quantity) else 0
  }

  /** Seats a step gives back: a refund or a release that is not a repeat. */
  ghost function Gives(w: World, s: Step, b: Whose): int
    requires Enabled(w, s)
  {
    match s
    case RefundEntry(t) =>
      var i := w.tasks[t].intent;
      if w.tasks[t].persisted || DeadLetterMarker(i.key) in w.stock.released then 0 else b.Count(i.user, i.quantity)
    case ReleaseSeats(t) =>
      var o := w.tasks[t].order;
      if OrderMarker(o) in w.stock.released then 0 else b.Count(w.orders[o].user, w.orders[o].quantity)
    case _ => 0
  }

  lemma TakenMovesByEntry(w: World, s: Step, b: Whose)
    requires Inv(w) && Enabled(w, s) && (s.Reserve? || s.Ack? || s.RefundEntry?)
    ensures TakenNow(Next(w, s), b) == TakenNow(w, b) + Takes(w, s, b) - Gives(w, s, b)
  {
    hide LedgerOk, OutboxOk, Taken;
    match s
    case Reserve(i) =>
      if ReserveOutcome(w.stock, i, w.limit).Accepted? {
        assert !Persisted(w.orders, i.key);
        TakenByReserve(w.stock.stream, w.stock.released, w.orders, w.stock.nextId, i, b);
      }
    case Ack(t) =>
      assert TaskOk(w.tasks[t], w.stock, w.orders, w.deliveries, w.outbox);
      TakenByAck(w.stock.stream, w.stock.released, w.orders, w.tasks[t].entry, b);
    case RefundEntry(t) =>
      assert TaskOk(w.tasks[t], w.stock, w.orders, w.deliveries, w.outbox);
      if !w.tasks[t].persisted && DeadLetterMarker(w.tasks[t].intent.key) !in w.stock.released {
        TakenByRefund(w.stock.stream, w.stock.released, w.orders, w.tasks[t].entry, b);
      }
  }

  lemma TakenMovesByOrder(w: World, s: Step, b: Whose)
    requires Inv(w) && Enabled(w, s) && (s.Insert? || s.Decide? || s.ReleaseSeats?)
    ensures TakenNow(Next(w, s), b) == TakenNow(w, b) + Takes(w, s, b) - Gives(w, s, b)
  {
    hide LedgerOk, OutboxOk, Taken, Persisted;
    match s
    case Insert(t, o) =>
      PersistingFacts(w, t, o);
      TakenByInsert(w.stock.stream, w.stock.released, w.orders, w.tasks[t].entry, o, b);
    case Decide(o, status, _, _) =>
      TakenByDecision(w.stock.stream, w.stock.released, w.orders, o, status, b);
    case ReleaseSeats(t) =>
      assert TaskOk(w.tasks[t], w.stock, w.orders, w.deliveries, w.outbox);
      if OrderMarker(w.tasks[t].order) !in w.stock.released {
        TakenByRelease(w.stock.stream, w.stock.released, w.orders, w.tasks[t].order, b);
      }
  }

  /** The seats taken move with reservations and give-backs and with nothing else. */
  lemma TakenMoves(w: World, s: Step, b: Whose)
    requires Inv(w) && Enabled(w, s)
    ensures TakenNow(Next(w, s), b) == TakenNow(w, b) + Takes(w, s, b) - Gives(w, s, b)
    ensures Takes(w, s, b) >= 0 && Gives(w, s, b) >= 0
  {
    StepsCountSeats(w, s, b);
    if s.Reserve? || s.Ack? || s.RefundEntry? {
      TakenMovesByEntry(w, s, b);
    } else if s.Insert? || s.Decide? || s.ReleaseSeats? {
      TakenMovesByOrder(w, s, b);
    } else {
      hide Inv, Taken;
    }
  }

  lemma StepsCountSeats(w: World, s: Step, b: Whose)
    requires Inv(w) && Enabled(w, s)
    ensures Takes(w, s, b) >= 0 && Gives(w, s, b) >= 0
  {
    hide LedgerOk, MarkersOk, OutboxOk, Persisted, KeysAreUnique;
    assert s.RefundEntry? ==> TaskOk(w.tasks[s.t], w.stock, w.orders, w.deliveries, w.outbox);
  }

  ghost function TakenIn(w: World, steps: seq<Step>, b: Whose): int
    requires Possible(w, steps)
    decreases steps
  {
    if steps == [] then 0 else Takes(w, steps[0], b) + TakenIn(Next(w, steps[0]), steps[1..], b)
  }

  ghost function GivenIn(w: World, steps: seq<Step>, b: Whose): int
    requires Possible(w, steps)
    decreases steps
  {
    if steps == [] then 0 else Gives(w, steps[0], b) + GivenIn(Next(w, steps[0]), steps[1..], b)
  }

  lemma {:induction false} TakenOverRun(w: World, steps: seq<Step>, b: Whose)
    requires Inv(w) && Possible(w, steps)
    ensures TakenNow(AfterSteps(w, steps), b) == TakenNow(w, b) + TakenIn(w, steps, b) - GivenIn(w, steps, b)
    ensures TakenIn(w, steps, b) >= 0 && GivenIn(w, steps, b) >= 0
    decreases steps
  {
    hide Inv, Enabled, Next, TakenNow, Takes, Gives;
    if steps != [] {
      StepKeeps(w, steps[0]);
      TakenMoves(w, steps[0], b);
      TakenOverRun(Next(w, steps[0]), steps[1..], b);
    }
  }

  // ------------------------------------------------------------------ a read, any run of the pipeline, a write

  /**
   * What the write gets wrong: seats the database did not show at the read, plus those reserved until the
   * write, minus those given back until the write.
   */
  ghost function Error(w: World, steps: seq<Step>, b: Whose): int
    requires Possible(w, steps)
  {
    FlightNow(w, b) + OwedNow(w, b) + TakenIn(w, steps, b) - GivenIn(w, steps, b)
  }

  /**
   * The stock counter, read at `w` and written after `steps`: it offers exactly `Error` seats too many (or too
   * few), so the write conserves seats if and only if that is zero.
   */
  lemma StockWriteIsRightIff(w: World, steps: seq<Step>)
    requires Inv(w) && Possible(w, steps)
    ensures var v, written := AfterSteps(w, steps), ExpectedAvailable(w.total, w.orders);
      && v.stock.available.Some?
      && written == v.stock.available.value + Error(w, steps, Everyone)
      && (StockMayBe(v, written) <==> Error(w, steps, Everyone) == 0)
      && (LedgerOk(v.stock.(available := Some(written)), v.total, v.limit, v.orders) <==> Error(w, steps, Everyone) == 0)
  {
    DatabaseFallsShort(w, Everyone);
    TakenOverRun(w, steps, Everyone);
    AlwaysSound(w, steps);
    var v := AfterSteps(w, steps);
    hide Possible, AfterSteps, TasksOk, KeysOk, MarkersOk, OutboxOk, Taken, HeldSeats, FlightNow, OwedNow, TakenIn, GivenIn;
    StockWriteInLedger(v.stock, v.total, v.limit, v.orders, ExpectedAvailable(w.total, w.orders));
  }

  lemma StockWriteInLedger(s: Stock, total: int, limit: int, orders: map<nat, Order>, written: int)
    requires LedgerOk(s, total, limit, orders)
    ensures LedgerOk(s.(available := Some(written)), total, limit, orders) <==> written == s.available.value
  {
    hide Taken;
    if written == s.available.value {
      assert s.(available := Some(written)) == s;
    }
  }

  lemma HeldInExpectedQuotas(s: Stock, orders: map<nat, Order>, u: int)
    requires KeysOk(s, orders)
    ensures Held(ExpectedQuotas(orders), u) == HeldSeats(orders, Buyer(u))
  {
    HoldersHoldSomething(orders, u);
  }

  lemma BuyerError(w: World, steps: seq<Step>, u: int)
    requires Inv(w) && Possible(w, steps)
    ensures var v := AfterSteps(w, steps);
      && Held(ExpectedQuotas(w.orders), u) == TakenNow(v, Buyer(u)) - Error(w, steps, Buyer(u))
      && Held(v.stock.purchased, u) == TakenNow(v, Buyer(u))
  {
    AlwaysSound(w, steps);
    DatabaseFallsShort(w, Buyer(u));
    TakenOverRun(w, steps, Buyer(u));
    HeldInExpectedQuotas(w.stock, w.orders, u);
    assert QuotaOk(AfterSteps(w, steps).stock, AfterSteps(w, steps).limit, AfterSteps(w, steps).orders, u);
    hide Possible, AfterSteps, TasksOk, KeysOk, MarkersOk, OutboxOk, Taken, HeldSeats, FlightNow, OwedNow, TakenIn, GivenIn;
  }

  /** The quota hash, read at `w` and written after `steps`: right for a buyer exactly when that buyer's error is zero. */
  lemma QuotaWriteIsRightIff(w: World, steps: seq<Step>)
    requires Inv(w) && Possible(w, steps)
    ensures var v, written := AfterSteps(w, steps), ExpectedQuotas(w.orders);
      && (forall u :: Held(written, u) == Held(v.stock.purchased, u) - Error(w, steps, Buyer(u)))
      && (QuotasMayBe(v, written) <==> forall u :: Error(w, steps, Buyer(u)) == 0)
  {
    hide Inv, Possible, AfterSteps, Error, ExpectedQuotas, Taken, Held;
    var v, written := AfterSteps(w, steps), ExpectedQuotas(w.orders);
    forall u ensures Held(written, u) == Held(v.stock.purchased, u) - Error(w, steps, Buyer(u))
             ensures Held(written, u) == Taken(v.stock.stream, v.stock.released, v.orders, Buyer(u)) <==> Error(w, steps, Buyer(u)) == 0 {
      BuyerError(w, steps, u);
    }
    if QuotasMayBe(v, written) {
      forall u ensures Error(w, steps, Buyer(u)) == 0 {
        assert Held(written, u) == Taken(v.stock.stream, v.stock.released, v.orders, Buyer(u));
      }
    }
  }

  /** As long as nothing is given back in between, a reconcile is right only with nothing in flight, owed or reserved. */
  lemma WithoutReturnsRightIff(w: World, steps: seq<Step>)
    requires Inv(w) && Possible(w, steps) && GivenIn(w, steps, Everyone) == 0
    ensures Error(w, steps, Everyone) == 0
       <==> FlightNow(w, Everyone) == 0 && NothingOwed(w.stock.released, w.orders) && TakenIn(w, steps, Everyone) == 0
  {
    TakenOverRun(w, steps, Everyone);
    OwedIsZero(w.stock.released, w.orders);
    SumNotNegative(EntryCounts(w.stock.stream, w.stock.released, w.orders, Everyone));
    hide Possible, LedgerOk, TasksOk, MarkersOk, OutboxOk, TakenIn, GivenIn, NothingOwed, OwedSeats;
  }

  /** The backlog check is good for the moment of the read exactly as long as nobody reserves in between. */
  lemma {:induction false} NothingInFlight(w: World, steps: seq<Step>)
    requires Inv(w) && Possible(w, steps) && w.stock.stream == map[] && TakenIn(w, steps, Everyone) == 0
    ensures AfterSteps(w, steps).stock.stream == map[] && FlightNow(AfterSteps(w, steps), Everyone) == 0
    decreases steps
  {
    if steps == [] {
      assert EntryCounts(w.stock.stream, w.stock.released, w.orders, Everyone) == map[];
    } else {
      TakenOverRun(Next(w, steps[0]), steps[1..], Everyone) by { StepKeeps(w, steps[0]); }
      StreamStaysEmpty(w, steps[0]);
      hide Inv, Enabled, Next, Takes, FlightNow;
      StepKeeps(w, steps[0]);
      NothingInFlight(Next(w, steps[0]), steps[1..]);
    }
  }

  lemma StreamStaysEmpty(w: World, s: Step)
    requires Enabled(w, s) && w.stock.stream == map[]
    ensures Takes(w, s, Everyone) >= 0
    ensures Takes(w, s, Everyone) == 0 ==> Next(w, s).stock.stream == map[]
  {
  }

  /**
   * In the order of the code: the backlog check at `w`, the database read after `first`, the write after `then`.
   * With no reservation before the read and no give-back after it, the write conserves seats if and only if
   * nothing is owed at the read and nothing is reserved until the write.
   */
  lemma ReconcileInCodeOrder(w: World, first: seq<Step>, last: seq<Step>)
    requires Inv(w) && w.stock.stream == map[] && Possible(w, first) && TakenIn(w, first, Everyone) == 0
    requires var read := AfterSteps(w, first); Possible(read, last) && GivenIn(read, last, Everyone) == 0
    ensures var read := AfterSteps(w, first); var v := AfterSteps(read, last);
      var after := v.stock.(available := Some(ExpectedAvailable(read.total, read.orders)));
      LedgerOk(after, v.total, v.limit, v.orders) <==> NothingOwed(read.stock.released, read.orders) && TakenIn(read, last, Everyone) == 0
  {
    hide Inv, Error, FlightNow, TakenIn, GivenIn, LedgerOk, NothingOwed;
    AlwaysSound(w, first);
    NothingInFlight(w, first);
    StockWriteIsRightIff(AfterSteps(w, first), last);
    WithoutReturnsRightIff(AfterSteps(w, first), last);
  }

  /** With nothing in flight or owed at the read, it is right if and only if as many seats came back as were reserved. */
  lemma FromRestRightIff(w: World, steps: seq<Step>)
    requires Inv(w) && Possible(w, steps) && w.stock.stream == map[] && NothingOwed(w.stock.released, w.orders)
    ensures Error(w, steps, Everyone) == TakenIn(w, steps, Everyone) - GivenIn(w, steps, Everyone)
  {
    assert EntryCounts(w.stock.stream, w.stock.released, w.orders, Everyone) == map[];
    OwedIsZero(w.stock.released, w.orders);
    hide TakenIn, GivenIn, LedgerOk, TasksOk, MarkersOk, OutboxOk, NothingOwed, OwedSeats;
  }

  /** From a fresh event: one reservation between the read and the write, and its seats are on sale a second time. */
  lemma LostReservationFromTheStart(w: World, i: Intent, t: nat) returns (steps: seq<Step>)
    requires Initial(w) && 1 <= i.quantity <= w.total && i.quantity <= w.limit
    ensures Possible(w, steps)
    ensures var v := AfterSteps(w, steps);
      && v.tasks == map[t := WritingStock(0)] && v.stock.available == Some(w.total - i.quantity)
      && !StockMayBe(v, w.total - v.tasks[t].sold)
  {
    steps := ReservedInBetween(w, i, t);
    hide Initial, Possible, AfterSteps, Inv, StockMayBe;
    InitialIsSound(w);
    AlwaysSound(w, steps);
    OnlyTheCounterIsRight(AfterSteps(w, steps), w.total);
  }

  lemma OnlyTheCounterIsRight(w: World, written: int)
    requires Inv(w)
    ensures StockMayBe(w, written) <==> w.stock.available == Some(written)
  {
    hide TasksOk, KeysOk, MarkersOk, OutboxOk, Taken, QuotaOk;
  }

  lemma ReservedInBetween(w: World, i: Intent, t: nat) returns (steps: seq<Step>)
    requires Initial(w) && 1 <= i.quantity <= w.total && i.quantity <= w.limit
    ensures Possible(w, steps)
    ensures var v := AfterSteps(w, steps); v.tasks == map[t := WritingStock(0)] && v.stock.available == Some(w.total - i.quantity)
  {
    NoSteps(w);
    assert HeldCounts(w.orders, Everyone) == map[];
    assert HeldSeats(w.orders, Everyone) == 0;
    hide Possible, AfterSteps, HeldSeats, Taken;
    ThenOne(w, [], CheckBacklog(t, false));
    assert [] + [CheckBacklog(t, false)] == [CheckBacklog(t, false)];
    steps := [CheckBacklog(t, false)];
    ThenOne(w, steps, ReadSold(t));
    steps := steps + [ReadSold(t)];
    ThenOne(w, steps, Reserve(i));
    steps := steps + [Reserve(i)];
  }

  // ------------------------------------------------------------------ undisturbed

  /** Undisturbed, on an empty stream, a reconcile conserves seats if and only if no release is outstanding. */
  lemma ReconcileConservesIff(w: World)
    requires Inv(w) && w.stock.stream == map[]
    ensures LedgerOk(Reconciled(w), w.total, w.limit, w.orders) <==> NothingOwed(w.stock.released, w.orders)
  {
    if NothingOwed(w.stock.released, w.orders) {
      ReconcileAtRestIsIdle(w);
    }
    if LedgerOk(Reconciled(w), w.total, w.limit, w.orders) {
      ReconciledCounter(w);
      hide LedgerOk, TasksOk, MarkersOk, OutboxOk, Taken, NothingOwed, HeldSeats, OwedSeats;
      TakenWhenDrained(w.stock.released, w.orders, Everyone);
      OwedIsZero(w.stock.released, w.orders);
    }
  }

  lemma ReconciledCounter(w: World)
    requires LedgerOk(Reconciled(w), w.total, w.limit, w.orders)
    ensures Taken(w.stock.stream, w.stock.released, w.orders, Everyone) == HeldSeats(w.orders, Everyone)
  {
    hide Taken, HeldSeats, QuotaOk;
  }

  /** The owed release that comes after such a reconcile offers seats that do not exist. */
  lemma OwedReleaseAfterReconcileOversells(w: World, t: nat)
    requires Inv(w) && w.stock.stream == map[] && Enabled(w, ReleaseSeats(t)) && OrderMarker(w.tasks[t].order) !in w.stock.released
    ensures var v := Next(w.(stock := Reconciled(w)), ReleaseSeats(t));
      v.stock.available.value + HeldSeats(v.orders, Everyone) == w.total + w.orders[w.tasks[t].order].quantity > w.total
  {
    hide LedgerOk, TasksOk, MarkersOk, OutboxOk, HeldSeats, ExpectedQuotas;
  }

  /** A run that takes one order to the database. */
  lemma OneOrderStored(w: World, i: Intent, t: nat, o: nat) returns (steps: seq<Step>)
    requires Initial(w) && 1 <= i.quantity <= w.total && i.quantity <= w.limit
    ensures Possible(w, steps)
    ensures var v := AfterSteps(w, steps);
      && v.stock.stream == map[w.stock.nextId := i] && v.stock.released == {}
      && v.orders == map[o := RowOf(i)] && v.outbox == map[] && v.tasks == map[t := Acking(w.stock.nextId)]
  {
    var e := w.stock.nextId;
    NoSteps(w);
    hide Possible, AfterSteps;
    ThenOne(w, [], Reserve(i));
    assert [] + [Reserve(i)] == [Reserve(i)];
    ThenOne(w, [Reserve(i)], Deliver(t, e));
    ThenOne(w, [Reserve(i)] + [Deliver(t, e)], Insert(t, o));
    steps := [Reserve(i)] + [Deliver(t, e)] + [Insert(t, o)];
  }

  /** Such a state is reached by one order that expires, and the stream check lets a reconcile through. */
  lemma OwedStateIsReachable(w: World, i: Intent, t: nat, u: nat, o: nat, row: nat) returns (steps: seq<Step>)
    requires Initial(w) && 1 <= i.quantity <= w.total && i.quantity <= w.limit && t != u
    ensures Possible(w, steps)
    ensures var v := AfterSteps(w, steps);
      v.stock.stream == map[] && Enabled(v, ReleaseSeats(u)) && OrderMarker(v.tasks[u].order) !in v.stock.released
  {
    steps := OneOrderStored(w, i, t, o);
    hide Possible, AfterSteps, Initial;
    ThenOne(w, steps, Ack(t));
    ThenOne(w, steps + [Ack(t)], Decide(o, EXPIRED, row, u));
    steps := steps + [Ack(t)] + [Decide(o, EXPIRED, row, u)];
    assert AfterSteps(w, steps).tasks[u] == Releasing(o, None);
  }
}
