/**
 * The worker's own code. Run on its own, each job is a run of the pipeline's steps, so everything proved about
 * runs holds of it; what it achieves when nothing fails is stated on top.
 */
module OrderWorker {
  import opened Basics
  import opened Quota
  import opened Orders
  import opened Inventory
  import opened UnseatedLedger
  import opened Sums
  import opened Delivery
  import opened UnseatedPipeline
  import opened UnseatedSteps

  /** How the database answers one attempt to store an order, or Redis one attempt to release seats. */
  datatype Weather = Fine | Rejecting | Unreachable

  datatype PersistOutcome = Stored | Duplicate | Failed

  class Worker {
    const redis: InventoryStore
    const total: int
    const limit: int
    var orders: map<nat, Order>
    var nextOrder: nat
    var deliveries: map<nat, nat>
    var outbox: map<nat, Row>
    ghost var tasks: map<nat, Task>

    ghost predicate Valid()
      reads this`orders, this`nextOrder
    {
      forall o :: o in orders ==> o < nextOrder
    }

    ghost function Abs(): World
      reads this, redis
    {
      World(redis.Abs(), total, limit, orders, deliveries, outbox, tasks)
    }

    constructor (redis: InventoryStore, total: int, limit: int)
      ensures Valid() && this.redis == redis && this.total == total && this.limit == limit
      ensures orders == map[] && deliveries == map[] && outbox == map[] && tasks == map[]
    {
      this.redis, this.total, this.limit := redis, total, limit;
      orders, nextOrder, deliveries, outbox, tasks := map[], 0, map[], map[], map[];
    }

    /** An order with this idempotency key is in the database. */
    method KeyExists(key: nat) returns (found: bool)
      ensures found <==> Persisted(orders, key)
    {
      found := exists o :: o in orders && orders[o].key == key;
    }

    /** `_persist_intent`, for the worker that keeps its place in task `t`. */
    method PersistIntent(i: Intent, weather: Weather, ghost t: nat, ghost start: World, ghost past: seq<Step>)
      returns (outcome: PersistOutcome, ghost steps: seq<Step>)
      requires Valid() && t in tasks && tasks[t].Persisting? && tasks[t].intent == i
      requires Ran(start, past, Abs())
      modifies this`orders, this`nextOrder, this`tasks
      ensures Valid() && Ran(start, steps, Abs())
      ensures outcome == Failed ==> orders == old(orders) && tasks == old(tasks)
      ensures outcome != Failed ==> Persisted(orders, i.key) && tasks == old(tasks)[t := Acking(old(tasks)[t].entry)]
      ensures weather.Fine? || Persisted(old(orders), i.key) ==> outcome != Failed || weather.Unreachable?
      ensures forall k :: Persisted(old(orders), k) ==> Persisted(orders, k)
    {
      steps := past;
      if weather.Unreachable? {
        return Failed, steps;
      }
      var found := KeyExists(i.key);
      if found {
        RanOneMore(start, past, Abs(), FindDuplicate(t));
        tasks := tasks[t := Acking(tasks[t].entry)];
        return Duplicate, past + [FindDuplicate(t)];
      }
      if weather.Rejecting? {
        return Failed, steps;
      }
      ghost var before := Abs();
      assert Enabled(before, Insert(t, nextOrder));
      RanOneMore(start, past, before, Insert(t, nextOrder));
      steps := past + [Insert(t, nextOrder)];
      forall k ensures Persisted(orders[nextOrder := RowOf(i)], k) <==> Persisted(orders, k) || k == i.key {
        PersistedAfterInsert(orders, nextOrder, RowOf(i), k);
      }
      orders := orders[nextOrder := RowOf(i)];
      nextOrder := nextOrder + 1;
      tasks := tasks[t := Acking(tasks[t].entry)];
      assert Abs() == Next(before, Insert(t, nextOrder - 1));
      return Stored, steps;
    }
  
    /** `_dead_letter_intent`: refund the seats only if no order was stored, and fail the claim. */
    method DeadLetterIntent(entry: nat, i: Intent, ghost t: nat, ghost start: World, ghost past: seq<Step>)
      returns (ghost steps: seq<Step>)
      requires t in tasks && tasks[t] == Judged(entry, i, Persisted(orders, i.key))
      requires Ran(start, past, Abs())
      modifies redis, this`tasks
      ensures Ran(start, steps, Abs()) && tasks == old(tasks)[t := Acking(entry)]
      ensures redis.stream == old(redis.stream)
      ensures !InFlight(redis.released, orders, i)
      ensures redis.released == old(redis.released) + if Persisted(orders, i.key) then {} else {DeadLetterMarker(i.key)}
      ensures redis.claims == old(redis.claims)[i.key := ClaimFailed]
      ensures redis.available == if Persisted(orders, i.key) || DeadLetterMarker(i.key) in old(redis.released) then old(redis.available)
                                 else Some(Count(old(redis.available)) + i.quantity)
    {
      hide Ran;
      var alreadyPersisted := KeyExists(i.key);
      RanOneMore(start, past, Abs(), RefundEntry(t));
      if !alreadyPersisted {
        var returned := redis.Release(i.user, i.quantity, DeadLetterMarker(i.key));
      }
      tasks := tasks[t := Failing(entry, i)];
      steps := past + [RefundEntry(t)];
      RanOneMore(start, steps, Abs(), FailClaim(t));
      redis.MarkClaimFailed(i.key);
      tasks := tasks[t := Acking(entry)];
      steps := steps + [FailClaim(t)];
    }

    /** `_ack_and_remove`. */
    method AckAndRemove(entry: nat, ghost t: nat, ghost start: World, ghost past: seq<Step>) returns (ghost steps: seq<Step>)
      requires t in tasks && tasks[t] == Acking(entry) && Ran(start, past, Abs())
      modifies redis`stream, this`tasks
      ensures Ran(start, steps, Abs()) && tasks == old(tasks) - {t} && redis.stream == old(redis.stream) - {entry}
    {
      RanOneMore(start, past, Abs(), Ack(t));
      redis.AckAndRemove(entry);
      tasks := tasks - {t};
      steps := past + [Ack(t)];
    }
  
    /** An entry that is done with: out of the stream, its order stored or its seats refunded. */
    ghost predicate Settled(entry: nat, i: Intent)
      reads this`orders, redis`stream, redis`released
    {
      entry !in redis.stream && !InFlight(redis.released, orders, i)
    }

    /** One delivery: store the order, then acknowledge; anything else leaves the entry for a later reclaim. */
    method Process(entry: nat, weather: Weather, ghost t: nat, ghost start: World, ghost past: seq<Step>)
      returns (ghost steps: seq<Step>)
      requires Valid() && t !in tasks && entry in redis.stream && AttemptsOn(deliveries, entry) < MAX_DELIVERIES
      requires Ran(start, past, Abs())
      modifies this`orders, this`nextOrder, this`deliveries, this`tasks, redis`stream
      ensures Valid() && Ran(start, steps, Abs()) && tasks == old(tasks)
      ensures redis.stream == old(redis.stream) || redis.stream == old(redis.stream) - {entry}
      ensures deliveries == old(deliveries)[entry := AttemptsOn(old(deliveries), entry) + 1]
      ensures weather.Fine? ==> Settled(entry, old(redis.stream)[entry])
      ensures forall k :: Persisted(old(orders), k) ==> Persisted(orders, k)
    {
      hide Ran;
      var i := redis.stream[entry];
      RanOneMore(start, past, Abs(), Deliver(t, entry));
      deliveries := deliveries[entry := AttemptsOn(deliveries, entry) + 1];
      tasks := tasks[t := Persisting(entry, i)];
      var outcome;
      outcome, steps := PersistIntent(i, weather, t, start, past + [Deliver(t, entry)]);
      if outcome != Failed {
        steps := AckAndRemove(entry, t, start, steps);
      } else {
        RanOneMore(start, steps, Abs(), Stop(t));
        tasks := tasks - {t};
        steps := steps + [Stop(t)];
      }
    }

    /** Too many deliveries: dead-letter the entry and remove it. */
    method Abandon(entry: nat, ghost t: nat, ghost start: World, ghost past: seq<Step>) returns (ghost steps: seq<Step>)
      requires t !in tasks && entry in redis.stream && AttemptsOn(deliveries, entry) >= MAX_DELIVERIES
      requires NobodyPersists(tasks, entry) && Ran(start, past, Abs())
      modifies this`deliveries, this`tasks, redis
      ensures Ran(start, steps, Abs()) && tasks == old(tasks)
      ensures redis.stream == old(redis.stream) - {entry}
      ensures deliveries == old(deliveries)[entry := AttemptsOn(old(deliveries), entry) + 1]
      ensures Settled(entry, old(redis.stream)[entry])
      ensures redis.released >= old(redis.released)
    {
      hide Ran;
      var i := redis.stream[entry];
      RanOneMore(start, past, Abs(), GiveUp(t, entry));
      deliveries := deliveries[entry := AttemptsOn(deliveries, entry) + 1];
      tasks := tasks[t := Judged(entry, i, Persisted(orders, i.key))];
      steps := DeadLetterIntent(entry, i, t, start, past + [GiveUp(t, entry)]);
      steps := AckAndRemove(entry, t, start, steps);
    }

    /**
     * `reclaim_stale_order_intents` over the listed entries. Whatever fails, the job is a run of the pipeline;
     * every listed entry that was out of deliveries, or met a working database, ends up settled.
     */
    method ReclaimStale(pending: seq<nat>, weather: seq<Weather>, ghost t: nat) returns (ghost steps: seq<Step>)
      requires Valid() && t !in tasks && |weather| == |pending|
      requires forall j, k :: 0 <= j < k < |pending| ==> pending[j] != pending[k]
      requires forall j :: 0 <= j < |pending| && AttemptsOn(deliveries, pending[j]) >= MAX_DELIVERIES ==> NobodyPersists(tasks, pending[j])
      modifies this`orders, this`nextOrder, this`deliveries, this`tasks, redis
      ensures Valid() && Ran(old(Abs()), steps, Abs()) && tasks == old(tasks)
      ensures forall j :: 0 <= j < |pending| && pending[j] in old(redis.stream)
                && (weather[j].Fine? || AttemptsOn(old(deliveries), pending[j]) >= MAX_DELIVERIES)
                ==> Settled(pending[j], old(redis.stream)[pending[j]])
      ensures forall e :: e in old(redis.stream) && e !in pending ==> e in redis.stream && redis.stream[e] == old(redis.stream)[e]
    {
      ghost var start := Abs();
      steps := [];
      RanNothing(start);
      hide Ran;
      for n := 0 to |pending|
        invariant Valid() && Ran(start, steps, Abs()) && tasks == old(tasks)
        invariant forall j :: n <= j < |pending| ==> AttemptsOn(deliveries, pending[j]) == AttemptsOn(old(deliveries), pending[j])
        invariant forall j :: n <= j < |pending| && pending[j] in old(redis.stream) ==> pending[j] in redis.stream
        invariant forall e :: e in redis.stream ==> e in old(redis.stream) && redis.stream[e] == old(redis.stream)[e]
        invariant forall e :: e in old(redis.stream) && e !in pending ==> e in redis.stream
        invariant forall j :: 0 <= j < n && pending[j] in old(redis.stream)
                    && (weather[j].Fine? || AttemptsOn(old(deliveries), pending[j]) >= MAX_DELIVERIES)
                    ==> Settled(pending[j], old(redis.stream)[pending[j]])
      {
        var entry := pending[n];
        if entry in redis.stream {
          if AttemptsOn(deliveries, entry) >= MAX_DELIVERIES {
            steps := Abandon(entry, t, start, steps);
          } else {
            steps := Process(entry, weather[n], t, start, steps);
          }
        }
      }
    }
  
    predicate Claimable(r: nat, now: int)
      reads this`outbox
    {
      r in outbox && !outbox[r].processed && outbox[r].due <= now && outbox[r].attempts < OUTBOX_MAX_ATTEMPTS
    }

    /** Tasks `first`, `first + 1`, ... hold the batch from row `n` on; no other task is at or above `first`. */
    ghost predicate HoldsBatch(batch: seq<nat>, first: nat, from: nat, to: nat)
      reads this`outbox, this`tasks
      requires from <= to <= |batch|
    {
      && (forall x :: x >= first ==> (x in tasks <==> first + from <= x < first + to))
      && (forall j :: from <= j < to ==> batch[j] in outbox && HoldsRow(batch[j], first + j))
    }

    ghost predicate HoldsRow(r: nat, t: nat)
      reads this`outbox, this`tasks
    {
      r in outbox && t in tasks && tasks[t] == Releasing(outbox[r].order, Some(r))
    }

    /** The claim statement: lease a batch of due rows before touching any of them. */
    method ClaimBatch(batch: seq<nat>, now: int, ghost first: nat, ghost start: World, ghost past: seq<Step>)
      returns (ghost steps: seq<Step>)
      requires forall j :: 0 <= j < |batch| ==> Claimable(batch[j], now)
      requires forall j, k :: 0 <= j < k < |batch| ==> batch[j] != batch[k]
      requires HoldsBatch(batch, first, 0, 0) && Ran(start, past, Abs())
      modifies this`outbox, this`tasks
      ensures Ran(start, steps, Abs())
      ensures HoldsBatch(batch, first, 0, |batch|)
      ensures forall x :: x in old(tasks) ==> x in tasks && tasks[x] == old(tasks)[x]
      ensures outbox.Keys == old(outbox).Keys && forall r :: r in outbox ==> outbox[r].order == old(outbox)[r].order
    {
      hide Ran;
      steps := past;
      for n := 0 to |batch|
        invariant Ran(start, steps, Abs())
        invariant forall j :: n <= j < |batch| ==> Claimable(batch[j], now)
        invariant HoldsBatch(batch, first, 0, n)
        invariant forall x :: x in old(tasks) ==> x in tasks && tasks[x] == old(tasks)[x]
        invariant outbox.Keys == old(outbox).Keys && forall r :: r in outbox ==> outbox[r].order == old(outbox)[r].order
      {
        var r := batch[n];
        assert Claimable(r, now);
        RanOneMore(start, steps, Abs(), ClaimRow(first + n, r, now));
        steps := steps + [ClaimRow(first + n, r, now)];
        LeaseRow(r, now, first + n);
      }
    }

    method LeaseRow(r: nat, now: int, ghost t: nat)
      requires r in outbox && t !in tasks
      modifies this`outbox, this`tasks
      ensures outbox == old(outbox)[r := old(outbox)[r].(attempts := old(outbox)[r].attempts + 1, due := now + Lease(old(outbox)[r].attempts))]
      ensures tasks == old(tasks)[t := Releasing(old(outbox)[r].order, Some(r))]
    {
      outbox := outbox[r := outbox[r].(attempts := outbox[r].attempts + 1, due := now + Lease(outbox[r].attempts))];
      tasks := tasks[t := Releasing(outbox[r].order, Some(r))];
    }

    /** One row of `process_outbox`: return the seats, then mark the row; a failure leaves it to the lease. */
    method HandleRow(r: nat, weather: Weather, ghost t: nat, ghost start: World, ghost past: seq<Step>) returns (ghost steps: seq<Step>)
      requires HoldsRow(r, t) && outbox[r].order in orders && Ran(start, past, Abs())
      modifies this`outbox, this`tasks, redis`available, redis`purchased, redis`released
      ensures Ran(start, steps, Abs()) && tasks == old(tasks) - {t}
      ensures redis.released >= old(redis.released)
      ensures outbox == if weather.Fine? then old(outbox)[r := old(outbox)[r].(processed := true)] else old(outbox)
      ensures weather.Fine? ==> OrderMarker(outbox[r].order) in redis.released
    {
      hide Ran;
      if weather.Fine? {
        var id := outbox[r].order;
        RanOneMore(start, past, Abs(), ReleaseSeats(t));
        var returned := redis.Release(orders[id].user, orders[id].quantity, OrderMarker(id));
        tasks := tasks[t := Marking(r)];
        steps := past + [ReleaseSeats(t)];
        RanOneMore(start, steps, Abs(), MarkRow(t));
        outbox := outbox[r := outbox[r].(processed := true)];
        tasks := tasks - {t};
        steps := steps + [MarkRow(t)];
      } else {
        RanOneMore(start, past, Abs(), Stop(t));
        tasks := tasks - {t};
        steps := past + [Stop(t)];
      }
    }

    /** The rows claimed, handled one by one. */
    method HandleBatch(batch: seq<nat>, weather: seq<Weather>, ghost first: nat, ghost start: World, ghost past: seq<Step>)
      returns (ghost steps: seq<Step>)
      requires |weather| == |batch| && HoldsBatch(batch, first, 0, |batch|) && Ran(start, past, Abs())
      requires forall j :: 0 <= j < |batch| ==> outbox[batch[j]].order in orders
      modifies this`outbox, this`tasks, redis`available, redis`purchased, redis`released
      ensures Ran(start, steps, Abs()) && HoldsBatch(batch, first, 0, 0)
      ensures forall j :: 0 <= j < |batch| && weather[j].Fine? ==> Done(batch[j])
      ensures outbox.Keys == old(outbox).Keys && forall r :: r in outbox ==> outbox[r].order == old(outbox)[r].order
    {
      hide Ran;
      steps := past;
      for n := 0 to |batch|
        invariant Ran(start, steps, Abs())
        invariant HoldsBatch(batch, first, n, |batch|)
        invariant forall j :: 0 <= j < n && weather[j].Fine? ==> Done(batch[j])
        invariant outbox.Keys == old(outbox).Keys && forall r :: r in outbox ==> outbox[r].order == old(outbox)[r].order
      {
        assert HoldsRow(batch[n], first + n);
        steps := HandleRow(batch[n], weather[n], first + n, start, steps);
      }
    }

    /** `process_outbox`: whatever fails is a run of the pipeline, and every row whose handler worked is a kept promise. */
    method ProcessOutbox(batch: seq<nat>, weather: seq<Weather>, now: int, ghost first: nat) returns (ghost steps: seq<Step>)
      requires |weather| == |batch| && HoldsBatch(batch, first, 0, 0)
      requires forall j :: 0 <= j < |batch| ==> Claimable(batch[j], now) && outbox[batch[j]].order in orders
      requires forall j, k :: 0 <= j < k < |batch| ==> batch[j] != batch[k]
      modifies this`outbox, this`tasks, redis`available, redis`purchased, redis`released
      ensures Ran(old(Abs()), steps, Abs()) && HoldsBatch(batch, first, 0, 0)
      ensures forall j :: 0 <= j < |batch| && weather[j].Fine? ==> Done(batch[j])
    {
      ghost var start := Abs();
      RanNothing(start);
      hide Ran;
      steps := ClaimBatch(batch, now, first, start, []);
      steps := HandleBatch(batch, weather, first, start, steps);
    }

    /** A processed row whose order has its marker. */
    predicate Done(r: nat)
      reads this`outbox, redis`released
    {
      r in outbox && outbox[r].processed && OrderMarker(outbox[r].order) in redis.released
    }
  
    /** The backlog guard; it looks at the stream and at nothing else. */
    method CheckBacklog(force: bool, ghost t: nat, ghost start: World, ghost past: seq<Step>) returns (ready: bool, ghost steps: seq<Step>)
      requires t !in tasks && Ran(start, past, Abs())
      modifies this`tasks
      ensures ready <==> force || redis.stream == map[]
      ensures Ran(start, steps, Abs()) && tasks == if ready then old(tasks)[t := CountingSold] else old(tasks)
    {
      ready, steps := force || redis.stream == map[], past;
      if ready {
        RanOneMore(start, past, Abs(), Step.CheckBacklog(t, force));
        steps := past + [Step.CheckBacklog(t, force)];
        tasks := tasks[t := CountingSold];
      }
    }

    /** The first SELECT: seats of all holding orders. */
    method SoldSeats() returns (sold: int)
      ensures sold == HeldSeats(orders, Everyone)
    {
      var left := orders.Keys;
      ghost var done: map<nat, Order> := map[];
      sold := 0;
      assert HeldCounts(done, Everyone) == map[];
      while left != {}
        invariant left <= orders.Keys && done == orders - left
        invariant sold == HeldSeats(done, Everyone)
        decreases |left|
      {
        var o :| o in left;
        HeldSeatsGrow(done, o, orders[o], Everyone);
        if orders[o].status.Holding() {
          sold := sold + orders[o].quantity;
        }
        done := done[o := orders[o]];
        left := left - {o};
      }
      assert done == orders;
    }

    /** The second SELECT: seats per buyer, with a row only for buyers that hold something. */
    method SeatsPerBuyer() returns (quotas: map<int, int>)
      requires AllPositive(orders)
      ensures quotas == ExpectedQuotas(orders)
    {
      hide QuotaIs;
      var left := orders.Keys;
      ghost var done: map<nat, Order> := map[];
      quotas := map[];
      forall u ensures QuotaIs(quotas, done, u) {
        NoQuotas(u);
      }
      while left != {}
        invariant left <= orders.Keys && done == orders - left
        invariant forall u :: QuotaIs(quotas, done, u)
        decreases |left|
      {
        var o :| o in left;
        ghost var before, seen := quotas, done;
        quotas := WithRow(quotas, orders[o]);
        done := done[o := orders[o]];
        forall u ensures QuotaIs(quotas, done, u) {
          QuotaGrows(before, seen, o, orders[o], u);
        }
        left := left - {o};
      }
      assert done == orders;
      QuotasAre(quotas, orders);
    }

    /** The SET of the counter, whatever has happened since `sold` was read. */
    method WriteStock(sold: int)
      modifies redis`available
      ensures Abs() == old(Abs()).(stock := old(Abs()).stock.(available := Some(total - sold)))
    {
      redis.SetAvailable(total - sold);
    }

    /** DEL and HSET of the quota hash, whatever has happened since `quotas` was read. */
    method WriteQuotas(quotas: map<int, int>)
      modifies redis`purchased
      ensures Abs() == old(Abs()).(stock := old(Abs()).stock.(purchased := quotas))
    {
      redis.ReplaceQuotas(quotas);
    }

    /** `reconcile_inventory`, undisturbed: refuses on a backlog, otherwise writes what the database says. */
    method ReconcileInventory(force: bool, ghost t: nat) returns (remaining: Option<int>)
      requires t !in tasks && AllPositive(orders)
      modifies redis`available, redis`purchased, this`tasks
      ensures remaining.None? <==> !force && redis.stream != map[]
      ensures remaining.None? ==> Abs() == old(Abs())
      ensures remaining.Some? ==> Abs() == old(Abs()).(stock := Reconciled(old(Abs()))) && remaining == redis.available
    {
      RanNothing(Abs());
      var ready, _ := CheckBacklog(force, t, Abs(), []);
      if !ready {
        return None;
      }
      var sold := SoldSeats();
      WriteStock(sold);
      var quotas := SeatsPerBuyer();
      WriteQuotas(quotas);
      tasks := tasks - {t};
      return Some(total - sold);
    }
  }

  lemma HeldSeatsGrow(orders: map<nat, Order>, o: nat, row: Order, b: Whose)
    requires o !in orders
    ensures HeldSeats(orders[o := row], b) == HeldSeats(orders, b) + if row.status.Holding() then b.Count(row.user, row.quantity) else 0
  {
    var added := if row.status.Holding() then b.Count(row.user, row.quantity) else 0;
    SumPut(HeldCounts(orders, b), o, added);
    assert HeldCounts(orders[o := row], b) == HeldCounts(orders, b)[o := added];
  }

  /** The hash has exactly this buyer's held seats. */
  ghost predicate QuotaIs(quotas: map<int, int>, orders: map<nat, Order>, u: int) {
    if HeldSeats(orders, Buyer(u)) >= 1 then u in quotas && quotas[u] == HeldSeats(orders, Buyer(u)) else u !in quotas
  }

  predicate AllPositive(orders: map<nat, Order>) {
    forall o :: o in orders ==> orders[o].quantity >= 1
  }

  /** One more row of the second SELECT. */
  function WithRow(quotas: map<int, int>, row: Order): map<int, int> {
    if row.status.Holding() then quotas[row.user := Held(quotas, row.user) + row.quantity] else quotas
  }

  lemma QuotaGrows(quotas: map<int, int>, orders: map<nat, Order>, o: nat, row: Order, u: int)
    requires o !in orders && row.quantity >= 1 && AllPositive(orders) && QuotaIs(quotas, orders, u)
    ensures QuotaIs(WithRow(quotas, row), orders[o := row], u)
  {
    HeldSeatsGrow(orders, o, row, Buyer(u));
    HoldersHoldSomething(orders, u);
    hide HeldSeats;
  }

  lemma QuotasAre(quotas: map<int, int>, orders: map<nat, Order>)
    requires AllPositive(orders) && forall u :: QuotaIs(quotas, orders, u)
    ensures quotas == ExpectedQuotas(orders)
  {
    forall u ensures u in quotas <==> u in Holders(orders)
             ensures u in quotas ==> quotas[u] == HeldSeats(orders, Buyer(u)) {
      assert QuotaIs(quotas, orders, u);
      HoldersHoldSomething(orders, u);
    }
    hide HeldSeats, Holders;
    var expected := ExpectedQuotas(orders);
    assert forall u :: u in expected <==> u in quotas;
    assert forall u :: u in expected ==> expected[u] == quotas[u];
  }

  lemma NoQuotas(u: int)
    ensures QuotaIs(map[], map[], u)
  {
    assert HeldCounts(map[], Buyer(u)) == map[];
  }
}
