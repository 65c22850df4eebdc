/** What a buyer who asks for the state of a request is told: a claim is marked FAILED for settled requests only, and for
    every refunded one. */
module UnseatedClaims {
  import opened Basics
  import opened Quota
  import opened Orders
  import opened Inventory
  import opened UnseatedLedger
  import opened Delivery
  import opened UnseatedPipeline
  import opened UnseatedSteps
  import opened UnseatedSafety

  predicate Failed(s: Stock, key: nat) {
    key in s.claims && s.claims[key] == ClaimFailed
  }

  predicate Refunded(s: Stock, key: nat) {
    DeadLetterMarker(key) in s.released
  }

  ghost predicate InStream(s: Stock, key: nat) {
    exists e :: e in s.stream && s.stream[e].key == key
  }

  /** Only settled requests are marked. */
  ghost predicate MarkedAreSettled(s: Stock, orders: map<nat, Order>) {
    forall k :: Failed(s, k) ==> Persisted(orders, k) || Refunded(s, k)
  }

  /** Every refunded request is marked before its entry goes. */
  ghost predicate RefundedAreMarked(s: Stock) {
    forall k :: Refunded(s, k) ==> InStream(s, k) || Failed(s, k)
  }

  /** Whoever is about to remove the entry of a refunded request has marked it. */
  predicate AckersHaveMarked(s: Stock, tasks: map<nat, Task>) {
    forall t :: t in tasks && tasks[t].Acking? ==> MarkedIfRefunded(s, tasks[t].entry)
  }

  predicate MarkedIfRefunded(s: Stock, e: nat) {
    e in s.stream && Refunded(s, s.stream[e].key) ==> Failed(s, s.stream[e].key)
  }

  ghost predicate Told(w: World) {
    MarkedAreSettled(w.stock, w.orders) && RefundedAreMarked(w.stock) && AckersHaveMarked(w.stock, w.tasks)
  }

  lemma ToldAtFirst(w: World)
    requires Initial(w)
    ensures Told(w)
  {
  }

  // ------------------------------------------------------------------ step by step

  lemma ReserveWrites(w: World, i: Intent)
    requires KeysOk(w.stock, w.orders) && Enabled(w, Reserve(i)) && ReserveOutcome(w.stock, i, w.limit).Accepted?
    ensures var v := Next(w, Reserve(i));
      && v.orders == w.orders && v.tasks == w.tasks && v.stock.released == w.stock.released
      && w.stock.nextId !in w.stock.stream && v.stock.stream == w.stock.stream[w.stock.nextId := i]
      && i.key !in w.stock.claims && v.stock.claims == w.stock.claims[i.key := ClaimPending]
  {
    hide KeysAreUnique;
  }

  lemma ReserveTells(w: World, i: Intent)
    requires Inv(w) && Enabled(w, Reserve(i)) && Told(w)
    ensures Told(Next(w, Reserve(i)))
  {
    var v := Next(w, Reserve(i));
    if ReserveOutcome(w.stock, i, w.limit).Accepted? {
      ReserveWrites(w, i);
      assert MarkersOk(w.stock, w.orders);
      hide LedgerOk, KeysOk, TasksOk, OutboxOk, Enabled, Next, ReserveOutcome, Persisted;
      assert !Refunded(w.stock, i.key);
      forall k | Refunded(v.stock, k) ensures InStream(v.stock, k) || Failed(v.stock, k) {
        if InStream(w.stock, k) {
          var e :| e in w.stock.stream && w.stock.stream[e].key == k;
          assert v.stock.stream[e].key == k;
        }
      }
      forall k | Failed(v.stock, k) ensures Persisted(v.orders, k) || Refunded(v.stock, k) {
        assert Failed(w.stock, k);
      }
      forall t | t in v.tasks && v.tasks[t].Acking? ensures MarkedIfRefunded(v.stock, v.tasks[t].entry) {
        assert MarkedIfRefunded(w.stock, w.tasks[t].entry);
      }
    } else {
      assert v == w;
    }
  }

  /** What a settling step finds about the entry it will acknowledge. */
  lemma StoredIsNotRefunded(w: World, key: nat)
    requires MarkersOk(w.stock, w.orders) && Persisted(w.orders, key)
    ensures !Refunded(w.stock, key)
  {
  }

  lemma StoreWrites(w: World, s: Step)
    requires Enabled(w, s) && (s.Insert? || s.FindDuplicate?)
    ensures var v, i := Next(w, s), w.tasks[s.t].intent;
      && v.stock == w.stock && v.tasks == w.tasks[s.t := Acking(w.tasks[s.t].entry)]
      && Persisted(v.orders, i.key) && forall k :: Persisted(w.orders, k) ==> Persisted(v.orders, k)
  {
    var v, i := Next(w, s), w.tasks[s.t].intent;
    if s.Insert? {
      forall k ensures Persisted(v.orders, k) <==> Persisted(w.orders, k) || k == i.key {
        PersistedAfterInsert(w.orders, s.order, RowOf(i), k);
      }
    }
    hide Persisted;
  }

  lemma PersistingIs(w: World, t: nat)
    requires TasksOk(w) && t in w.tasks && w.tasks[t].Persisting?
    ensures w.tasks[t].entry in w.stock.stream ==> w.stock.stream[w.tasks[t].entry] == w.tasks[t].intent
  {
    hide Persisted;
    assert TaskOk(w.tasks[t], w.stock, w.orders, w.deliveries, w.outbox);
  }

  lemma StoreTells(w: World, s: Step)
    requires TasksOk(w) && Enabled(w, s) && (s.Insert? || s.FindDuplicate?) && Told(w) && Inv(Next(w, s))
    ensures Told(Next(w, s))
  {
    var v, i := Next(w, s), w.tasks[s.t].intent;
    StoreWrites(w, s);
    PersistingIs(w, s.t);
    StoredIsNotRefunded(v, i.key);
    hide Inv, TasksOk, Enabled, Next, Persisted;
    forall t | t in v.tasks && v.tasks[t].Acking? ensures MarkedIfRefunded(v.stock, v.tasks[t].entry) {
      if t != s.t {
        assert MarkedIfRefunded(w.stock, w.tasks[t].entry);
      }
    }
  }

  lemma AckTells(w: World, t: nat)
    requires Enabled(w, Ack(t)) && Told(w)
    ensures Told(Next(w, Ack(t)))
  {
    var v, e := Next(w, Ack(t)), w.tasks[t].entry;
    assert MarkedIfRefunded(w.stock, e);
    hide Persisted;
    forall k | Refunded(v.stock, k) ensures InStream(v.stock, k) || Failed(v.stock, k) {
      if InStream(w.stock, k) {
        var f :| f in w.stock.stream && w.stock.stream[f].key == k;
        assert f != e ==> f in v.stock.stream && v.stock.stream[f].key == k;
      }
    }
    forall x | x in v.tasks && v.tasks[x].Acking? ensures MarkedIfRefunded(v.stock, v.tasks[x].entry) {
      assert MarkedIfRefunded(w.stock, w.tasks[x].entry);
    }
    forall k | Failed(v.stock, k) ensures Persisted(v.orders, k) || Refunded(v.stock, k) {
      assert Failed(w.stock, k);
    }
  }

  /** A refund that is not a repeat is for an entry that is still there and that nobody is about to remove. */
  lemma RefundFinds(w: World, t: nat)
    requires TasksOk(w) && Enabled(w, RefundEntry(t)) && !w.tasks[t].persisted && !Refunded(w.stock, w.tasks[t].intent.key)
    ensures var e, i := w.tasks[t].entry, w.tasks[t].intent;
      && e in w.stock.stream && w.stock.stream[e] == i
      && forall x :: x in w.tasks && w.tasks[x].Acking? && w.tasks[x].entry in w.stock.stream ==> w.stock.stream[w.tasks[x].entry].key != i.key
  {
    var i := w.tasks[t].intent;
    assert TaskOk(w.tasks[t], w.stock, w.orders, w.deliveries, w.outbox);
    assert InFlight(w.stock.released, w.orders, i);
    hide Persisted;
    forall x | x in w.tasks && w.tasks[x].Acking? && w.tasks[x].entry in w.stock.stream
      ensures w.stock.stream[w.tasks[x].entry].key != i.key
    {
      assert TaskOk(w.tasks[x], w.stock, w.orders, w.deliveries, w.outbox);
    }
  }

  lemma RefundWrites(w: World, t: nat)
    requires Enabled(w, RefundEntry(t))
    ensures var v, i := Next(w, RefundEntry(t)), w.tasks[t].intent;
      && v.stock.stream == w.stock.stream && v.stock.claims == w.stock.claims && v.orders == w.orders
      && v.tasks == w.tasks[t := Failing(w.tasks[t].entry, i)]
      && v.stock.released == (if w.tasks[t].persisted then w.stock.released else w.stock.released + {DeadLetterMarker(i.key)})
  {
    hide Refund;
  }

  lemma RefundTells(w: World, t: nat)
    requires TasksOk(w) && Enabled(w, RefundEntry(t)) && Told(w)
    ensures Told(Next(w, RefundEntry(t)))
  {
    var v, e, i := Next(w, RefundEntry(t)), w.tasks[t].entry, w.tasks[t].intent;
    RefundWrites(w, t);
    if !w.tasks[t].persisted && !Refunded(w.stock, i.key) {
      RefundFinds(w, t);
      assert e in v.stock.stream && v.stock.stream[e].key == i.key;
    }
    hide TasksOk, Enabled, Next, Persisted;
    forall k | Refunded(v.stock, k) ensures InStream(v.stock, k) || Failed(v.stock, k) {
      if Refunded(w.stock, k) && InStream(w.stock, k) {
        var f :| f in w.stock.stream && w.stock.stream[f].key == k;
        assert v.stock.stream[f].key == k;
      }
    }
    forall x | x in v.tasks && v.tasks[x].Acking? ensures MarkedIfRefunded(v.stock, v.tasks[x].entry) {
      assert MarkedIfRefunded(w.stock, w.tasks[x].entry);
    }
    forall k | Failed(v.stock, k) ensures Persisted(v.orders, k) || Refunded(v.stock, k) {
      assert Failed(w.stock, k);
    }
  }

  lemma FailTells(w: World, t: nat)
    requires TasksOk(w) && Enabled(w, FailClaim(t)) && Told(w)
    ensures Told(Next(w, FailClaim(t)))
  {
    var v, e, i := Next(w, FailClaim(t)), w.tasks[t].entry, w.tasks[t].intent;
    assert TaskOk(w.tasks[t], w.stock, w.orders, w.deliveries, w.outbox);
    assert Persisted(w.orders, i.key) || Refunded(w.stock, i.key);
    assert e in w.stock.stream ==> w.stock.stream[e] == i;
    hide TasksOk, TaskOk, Persisted;
    forall k | Refunded(v.stock, k) ensures InStream(v.stock, k) || Failed(v.stock, k) {
      if InStream(w.stock, k) {
        var f :| f in w.stock.stream && w.stock.stream[f].key == k;
        assert v.stock.stream[f].key == k;
      }
    }
    forall x | x in v.tasks && v.tasks[x].Acking? ensures MarkedIfRefunded(v.stock, v.tasks[x].entry) {
      if x != t {
        assert MarkedIfRefunded(w.stock, w.tasks[x].entry);
      }
    }
    forall k | Failed(v.stock, k) ensures Persisted(v.orders, k) || Refunded(v.stock, k) {
      assert k != i.key ==> Failed(w.stock, k);
    }
  }

  /** Everybody else leaves claims, stream and refunds alone, and turns to acknowledging nothing. */
  lemma OthersWrite(w: World, s: Step)
    requires Enabled(w, s) && !s.Reserve? && !s.Insert? && !s.FindDuplicate? && !s.Ack? && !s.RefundEntry? && !s.FailClaim?
    ensures var v := Next(w, s);
      && v.stock.stream == w.stock.stream && v.stock.claims == w.stock.claims
      && (forall k :: Refunded(v.stock, k) <==> Refunded(w.stock, k))
      && (forall k :: Persisted(w.orders, k) ==> Persisted(v.orders, k))
  {
    var v := Next(w, s);
    forall k | Persisted(w.orders, k) ensures Persisted(v.orders, k) {
      if s.Decide? {
        PersistedIgnoresStatus(w.orders, s.order, s.status, k);
      }
    }
    hide Persisted, Refund, Taken, HeldSeats, ExpectedQuotas, Lease;
  }

  lemma OthersAck(w: World, s: Step, t: nat)
    requires Enabled(w, s) && !s.Reserve? && !s.Insert? && !s.FindDuplicate? && !s.Ack? && !s.RefundEntry? && !s.FailClaim?
    requires t in Next(w, s).tasks && Next(w, s).tasks[t].Acking?
    ensures t in w.tasks && w.tasks[t] == Next(w, s).tasks[t]
  {
    hide Persisted, AfterRelease, Taken, HeldSeats, ExpectedQuotas, Lease, StockMayBe, QuotasMayBe;
  }

  lemma OtherTells(w: World, s: Step)
    requires Enabled(w, s) && !s.Reserve? && !s.Insert? && !s.FindDuplicate? && !s.Ack? && !s.RefundEntry? && !s.FailClaim? && Told(w)
    ensures Told(Next(w, s))
  {
    var v := Next(w, s);
    OthersWrite(w, s);
    forall t | t in v.tasks && v.tasks[t].Acking? ensures MarkedIfRefunded(w.stock, v.tasks[t].entry) {
      OthersAck(w, s, t);
    }
    hide Enabled, Next, Persisted, Refunded;
    forall k | Refunded(v.stock, k) ensures InStream(v.stock, k) || Failed(v.stock, k) {
      assert Refunded(w.stock, k);
      if InStream(w.stock, k) {
        var e :| e in w.stock.stream && w.stock.stream[e].key == k;
        assert v.stock.stream[e].key == k;
      }
    }
    forall k | Failed(v.stock, k) ensures Persisted(v.orders, k) || Refunded(v.stock, k) {
      assert Failed(w.stock, k);
    }
  }

  lemma StepTells(w: World, s: Step)
    requires Inv(w) && Enabled(w, s) && Told(w)
    ensures Told(Next(w, s))
  {
    StepKeeps(w, s);
    assert TasksOk(w);
    hide *;
    match s
    case Reserve(i) => ReserveTells(w, i);
    case Insert(_, _) => StoreTells(w, s);
    case FindDuplicate(_) => StoreTells(w, s);
    case Ack(t) => AckTells(w, t);
    case RefundEntry(t) => RefundTells(w, t);
    case FailClaim(t) => FailTells(w, t);
    case _ => OtherTells(w, s);
  }

  lemma {:induction false} AlwaysTold(w: World, steps: seq<Step>)
    requires Inv(w) && Told(w) && Possible(w, steps)
    ensures Told(AfterSteps(w, steps))
    decreases steps
  {
    hide Inv, Enabled, Next, Told;
    if steps != [] {
      StepKeeps(w, steps[0]);
      StepTells(w, steps[0]);
      AlwaysTold(Next(w, steps[0]), steps[1..]);
    }
  }

  /** In every state of every run: a request marked FAILED is settled, stored or refunded; and a refunded request whose
      entry is gone is marked FAILED. */
  lemma FailedMeansSettled(w: World, steps: seq<Step>, key: nat)
    requires Initial(w) && Possible(w, steps)
    ensures var v := AfterSteps(w, steps);
      && (key in v.stock.claims && v.stock.claims[key] == ClaimFailed ==>
            DeadLetterMarker(key) in v.stock.released || exists o :: o in v.orders && v.orders[o].key == key)
      && (DeadLetterMarker(key) in v.stock.released && (forall e :: e in v.stock.stream ==> v.stock.stream[e].key != key) ==>
            key in v.stock.claims && v.stock.claims[key] == ClaimFailed)
  {
    InitialIsSound(w);
    ToldAtFirst(w);
    AlwaysTold(w, steps);
    hide Initial, Possible, AfterSteps;
    var v := AfterSteps(w, steps);
    assert Failed(v.stock, key) ==> Persisted(v.orders, key) || Refunded(v.stock, key);
    assert Refunded(v.stock, key) ==> InStream(v.stock, key) || Failed(v.stock, key);
  }
}
