/** What a run has promised: every accepted request, from the script to the order row or the refund. */
module UnseatedHistory {
  import opened Basics
  import opened Quota
  import opened Orders
  import opened Inventory
  import opened UnseatedLedger
  import opened Delivery
  import opened UnseatedPipeline
  import opened UnseatedSteps
  import opened UnseatedSafety

  /** The requests a run has accepted. */
  ghost function Accepted(w: World, steps: seq<Step>): set<Intent>
    requires Possible(w, steps)
    decreases steps
  {
    if steps == [] then {} else AcceptedBy(w, steps[0]) + Accepted(Next(w, steps[0]), steps[1..])
  }

  ghost function AcceptedBy(w: World, s: Step): set<Intent> {
    if s.Reserve? && ReserveOutcome(w.stock, s.intent, w.limit).Accepted? then {s.intent} else {}
  }

  /** The order row a request turns into, whatever its status has become. */
  predicate RowFor(o: Order, i: Intent) {
    o.user == i.user && o.quantity == i.quantity && o.totalCents == i.totalCents && o.key == i.key
  }

  /** Requests have different keys, and exactly their keys are claimed. */
  ghost predicate ClaimsKnown(claims: map<nat, ClaimState>, past: set<Intent>) {
    && (forall i, j :: i in past && j in past && i.key == j.key ==> i == j)
    && (forall k :: k in claims <==> HasKey(past, k))
  }

  ghost predicate HasKey(past: set<Intent>, key: nat) {
    exists i :: i in past && i.key == key
  }

  ghost predicate StreamKnown(stream: map<nat, Intent>, past: set<Intent>) {
    forall e :: e in stream ==> stream[e] in past
  }

  ghost predicate TasksKnown(tasks: map<nat, Task>, past: set<Intent>) {
    forall t :: t in tasks ==> TaskKnown(tasks[t], past)
  }

  predicate TaskKnown(task: Task, past: set<Intent>) {
    match task
    case Persisting(_, i) => i in past
    case Judged(_, i, _) => i in past
    case Failing(_, i) => i in past
    case _ => true
  }

  ghost predicate OrdersKnown(orders: map<nat, Order>, past: set<Intent>) {
    forall o :: o in orders ==> exists i :: i in past && RowFor(orders[o], i)
  }

  /** Waiting in the stream, stored as an order, or refunded. */
  ghost predicate Kept(s: Stock, orders: map<nat, Order>, i: Intent) {
    Waiting(s.stream, i) || Persisted(orders, i.key) || DeadLetterMarker(i.key) in s.released
  }

  ghost predicate Waiting(stream: map<nat, Intent>, i: Intent) {
    exists e :: e in stream && stream[e] == i
  }

  /** Claims, stream, workers and orders know of the accepted requests and of nothing else; none of them is lost. */
  ghost predicate Known(w: World, past: set<Intent>) {
    && ClaimsKnown(w.stock.claims, past)
    && StreamKnown(w.stock.stream, past)
    && TasksKnown(w.tasks, past)
    && OrdersKnown(w.orders, past)
    && (forall i :: i in past ==> Kept(w.stock, w.orders, i))
  }

  lemma NothingKnownAtFirst(w: World)
    requires Initial(w)
    ensures Known(w, {})
  {
  }

  // ------------------------------------------------------------------ step by step

  /** What is known stays known when a request with a new key comes to the past. */
  lemma MoreIsKnown(w: World, past: set<Intent>, i: Intent)
    requires Known(w, past) && i.key !in w.stock.claims
    ensures OrdersKnown(w.orders, past + {i}) && TasksKnown(w.tasks, past + {i}) && StreamKnown(w.stock.stream, past + {i})
    ensures forall claims: map<nat, ClaimState> :: claims.Keys == w.stock.claims.Keys + {i.key} ==> ClaimsKnown(claims, past + {i})
  {
    assert !HasKey(past, i.key);
    forall o | o in w.orders ensures exists j :: j in past + {i} && RowFor(w.orders[o], j) {
      var j :| j in past && RowFor(w.orders[o], j);
      assert j in past + {i};
    }
    forall t | t in w.tasks ensures TaskKnown(w.tasks[t], past + {i}) {
      assert TaskKnown(w.tasks[t], past);
    }
    forall k ensures HasKey(past + {i}, k) <==> HasKey(past, k) || k == i.key {
      assert i in past + {i};
      if HasKey(past, k) {
        var j :| j in past && j.key == k;
        assert j in past + {i};
      }
    }
  }

  lemma WaitingStays(stream: map<nat, Intent>, e: nat, i: Intent, j: Intent)
    requires e !in stream
    ensures Waiting(stream[e := i], i) && (Waiting(stream, j) ==> Waiting(stream[e := i], j))
  {
    assert stream[e := i][e] == i;
    if Waiting(stream, j) {
      var f :| f in stream && stream[f] == j;
      assert stream[e := i][f] == j;
    }
  }

  lemma KeptAfterReserve(s: Stock, z: Stock, orders: map<nat, Order>, i: Intent, j: Intent)
    requires s.nextId !in s.stream && z.stream == s.stream[s.nextId := i] && z.released == s.released
    requires j == i || Kept(s, orders, j)
    ensures Kept(z, orders, j)
  {
    hide Waiting, Persisted;
    WaitingStays(s.stream, s.nextId, i, j);
  }

  lemma ReserveWrites(w: World, i: Intent)
    requires Inv(w) && Enabled(w, Reserve(i)) && ReserveOutcome(w.stock, i, w.limit).Accepted?
    ensures var v := Next(w, Reserve(i));
      && v.orders == w.orders && v.tasks == w.tasks && v.stock.released == w.stock.released
      && w.stock.nextId !in w.stock.stream && v.stock.stream == w.stock.stream[w.stock.nextId := i]
      && v.stock.claims.Keys == w.stock.claims.Keys + {i.key} && i.key !in w.stock.claims
  {
    hide LedgerOk, MarkersOk, TasksOk, OutboxOk, KeysAreUnique;
  }

  lemma ReserveIsKnown(w: World, i: Intent, past: set<Intent>)
    requires Inv(w) && Enabled(w, Reserve(i)) && Known(w, past)
    ensures Known(Next(w, Reserve(i)), past + AcceptedBy(w, Reserve(i)))
  {
    var v := Next(w, Reserve(i));
    if ReserveOutcome(w.stock, i, w.limit).Accepted? {
      ReserveWrites(w, i);
      assert AcceptedBy(w, Reserve(i)) == {i};
      hide Inv, Enabled, Next, ReserveOutcome, AcceptedBy, Kept, HasKey, OrdersKnown, TasksKnown;
      MoreIsKnown(w, past, i);
      forall j | j in past + {i} ensures Kept(v.stock, v.orders, j) {
        KeptAfterReserve(w.stock, v.stock, w.orders, i, j);
      }
      assert ClaimsKnown(v.stock.claims, past + {i});
      hide StreamKnown, ClaimsKnown;
      StreamAfterReserve(w.stock.stream, w.stock.nextId, i, past);
    } else {
      ReserveRefused(w, i, past);
    }
  }

  lemma StreamAfterReserve(stream: map<nat, Intent>, e: nat, i: Intent, past: set<Intent>)
    requires StreamKnown(stream, past + {i})
    ensures StreamKnown(stream[e := i], past + {i})
  {
  }

  lemma ReserveRefused(w: World, i: Intent, past: set<Intent>)
    requires Enabled(w, Reserve(i)) && !ReserveOutcome(w.stock, i, w.limit).Accepted?
    ensures Next(w, Reserve(i)) == w && past + AcceptedBy(w, Reserve(i)) == past
  {
  }

  lemma InsertIsKnown(w: World, t: nat, o: nat, past: set<Intent>)
    requires Enabled(w, Insert(t, o)) && Known(w, past)
    ensures Known(Next(w, Insert(t, o)), past)
  {
    var v, i := Next(w, Insert(t, o)), w.tasks[t].intent;
    assert TaskKnown(w.tasks[t], past);
    forall k ensures Persisted(v.orders, k) <==> Persisted(w.orders, k) || k == i.key {
      PersistedAfterInsert(w.orders, o, RowOf(i), k);
    }
    hide Persisted, ClaimsKnown;
    assert RowFor(v.orders[o], i);
    forall p | p in v.orders ensures exists j :: j in past && RowFor(v.orders[p], j) {
      assert p != o ==> v.orders[p] == w.orders[p];
    }
    forall j | j in past ensures Kept(v.stock, v.orders, j) {
      assert Kept(w.stock, w.orders, j);
    }
    forall x | x in v.tasks ensures TaskKnown(v.tasks[x], past) {
      assert x != t ==> TaskKnown(w.tasks[x], past);
    }
  }

  lemma AckWrites(w: World, t: nat)
    requires TasksOk(w) && Enabled(w, Ack(t))
    ensures var v, e := Next(w, Ack(t)), w.tasks[t].entry;
      && v.orders == w.orders && v.stock == w.stock.(stream := w.stock.stream - {e}) && v.tasks == w.tasks - {t}
      && (e in w.stock.stream ==> !InFlight(w.stock.released, w.orders, w.stock.stream[e]))
  {
    hide InFlight;
    assert TaskOk(w.tasks[t], w.stock, w.orders, w.deliveries, w.outbox);
  }

  lemma KeptAfterAck(s: Stock, orders: map<nat, Order>, e: nat, j: Intent)
    requires e in s.stream ==> !InFlight(s.released, orders, s.stream[e])
    requires Kept(s, orders, j)
    ensures Kept(s.(stream := s.stream - {e}), orders, j)
  {
    hide Persisted;
    if Waiting(s.stream, j) {
      var f :| f in s.stream && s.stream[f] == j;
      assert f != e ==> f in s.stream - {e} && (s.stream - {e})[f] == j;
    }
  }

  lemma AckIsKnown(w: World, t: nat, past: set<Intent>)
    requires Inv(w) && Enabled(w, Ack(t)) && Known(w, past)
    ensures Known(Next(w, Ack(t)), past)
  {
    var v, e := Next(w, Ack(t)), w.tasks[t].entry;
    hide LedgerOk, KeysOk, MarkersOk, OutboxOk, TasksOk, Enabled, Next, Kept, ClaimsKnown, OrdersKnown, InFlight;
    AckWrites(w, t);
    forall j | j in past ensures Kept(v.stock, v.orders, j) {
      KeptAfterAck(w.stock, w.orders, e, j);
    }
  }

  lemma DecideIsKnown(w: World, o: nat, status: Status, row: nat, t: nat, past: set<Intent>)
    requires Enabled(w, Decide(o, status, row, t)) && Known(w, past)
    ensures Known(Next(w, Decide(o, status, row, t)), past)
  {
    var v := Next(w, Decide(o, status, row, t));
    forall k ensures Persisted(v.orders, k) <==> Persisted(w.orders, k) {
      PersistedIgnoresStatus(w.orders, o, status, k);
    }
    hide Persisted, ClaimsKnown;
    forall p | p in v.orders ensures exists j :: j in past && RowFor(v.orders[p], j) {
      var j :| j in past && RowFor(w.orders[p], j);
      assert RowFor(v.orders[p], j);
    }
    forall j | j in past ensures Kept(v.stock, v.orders, j) {
      assert Kept(w.stock, w.orders, j);
    }
    forall x | x in v.tasks ensures TaskKnown(v.tasks[x], past) {
      assert x in w.tasks && x != t ==> TaskKnown(w.tasks[x], past);
    }
  }

  /** Every other step: claims keep their keys, stream and orders stay, markers only come. */
  lemma OthersMoveNothing(w: World, s: Step)
    requires Enabled(w, s) && !s.Reserve? && !s.Insert? && !s.Ack? && !s.Decide?
    ensures var v := Next(w, s);
      && v.stock.stream == w.stock.stream && v.orders == w.orders && v.stock.released >= w.stock.released
      && v.stock.claims.Keys == w.stock.claims.Keys + (if s.FailClaim? then {w.tasks[s.t].intent.key} else {})
  {
    hide Refund, Taken, HeldSeats;
  }

  lemma OthersTasks(w: World, s: Step, past: set<Intent>)
    requires Enabled(w, s) && !s.Reserve? && !s.Insert? && !s.Ack? && !s.Decide?
    requires StreamKnown(w.stock.stream, past) && TasksKnown(w.tasks, past)
    ensures TasksKnown(Next(w, s).tasks, past)
  {
    hide AfterRelease, Taken, HeldSeats, ExpectedQuotas, Persisted, StockMayBe, QuotasMayBe, Lease;
    var v := Next(w, s);
    forall x | x in v.tasks ensures TaskKnown(v.tasks[x], past) {
      assert x in w.tasks ==> TaskKnown(w.tasks[x], past);
    }
  }

  lemma OtherIsKnown(w: World, s: Step, past: set<Intent>)
    requires Enabled(w, s) && !s.Reserve? && !s.Insert? && !s.Ack? && !s.Decide? && Known(w, past)
    ensures Known(Next(w, s), past)
  {
    OthersMoveNothing(w, s);
    OthersTasks(w, s, past);
    assert s.FailClaim? ==> s.t in w.tasks && w.tasks[s.t].Failing?;
    hide Enabled, Next, Persisted, Waiting;
    var v := Next(w, s);
    if s.FailClaim? {
      assert TaskKnown(w.tasks[s.t], past);
    }
    forall j | j in past ensures Kept(v.stock, v.orders, j) {
      assert Kept(w.stock, w.orders, j);
    }
  }

  lemma StepIsKnown(w: World, s: Step, past: set<Intent>)
    requires Inv(w) && Enabled(w, s) && Known(w, past)
    ensures Known(Next(w, s), past + AcceptedBy(w, s))
  {
    hide Inv, Enabled, Next, Known;
    assert !s.Reserve? ==> past + AcceptedBy(w, s) == past;
    match s
    case Reserve(i) => ReserveIsKnown(w, i, past);
    case Insert(t, o) => InsertIsKnown(w, t, o, past);
    case Ack(t) => AckIsKnown(w, t, past);
    case Decide(o, status, row, t) => DecideIsKnown(w, o, status, row, t, past);
    case _ => OtherIsKnown(w, s, past);
  }

  lemma {:induction false} RunIsKnown(w: World, steps: seq<Step>, past: set<Intent>)
    requires Inv(w) && Possible(w, steps) && Known(w, past)
    ensures Known(AfterSteps(w, steps), past + Accepted(w, steps))
    decreases steps
  {
    hide Inv, Enabled, Next, Known, AcceptedBy;
    if steps == [] {
      assert past + Accepted(w, steps) == past;
    } else {
      var more := past + AcceptedBy(w, steps[0]);
      StepKeeps(w, steps[0]);
      StepIsKnown(w, steps[0], past);
      RunIsKnown(Next(w, steps[0]), steps[1..], more);
      assert past + Accepted(w, steps) == more + Accepted(Next(w, steps[0]), steps[1..]);
    }
  }

  // ------------------------------------------------------------------ over whole runs

  /** Every stored order is some accepted request, with its buyer, size, price and key; every entry of the stream is one. */
  lemma OrdersComeFromRequests(w: World, steps: seq<Step>)
    requires Initial(w) && Possible(w, steps)
    ensures var v := AfterSteps(w, steps);
      && (forall o :: o in v.orders ==> exists i :: i in Accepted(w, steps) && RowFor(v.orders[o], i))
      && (forall e :: e in v.stock.stream ==> v.stock.stream[e] in Accepted(w, steps))
  {
    InitialIsSound(w);
    NothingKnownAtFirst(w);
    RunIsKnown(w, steps, {});
    assert {} + Accepted(w, steps) == Accepted(w, steps);
  }

  /** An accepted request is never lost: it waits in the stream, is stored as an order with the very data that was
      accepted, or was refunded, and never the last two. */
  lemma AcceptedIsNeverLost(w: World, steps: seq<Step>, i: Intent)
    requires Initial(w) && Possible(w, steps) && i in Accepted(w, steps)
    ensures var v := AfterSteps(w, steps);
      var stored := exists o :: o in v.orders && RowFor(v.orders[o], i);
      var refunded := DeadLetterMarker(i.key) in v.stock.released;
      && (Waiting(v.stock.stream, i) || stored || refunded)
      && !(stored && refunded)
  {
    InitialIsSound(w);
    NothingKnownAtFirst(w);
    RunIsKnown(w, steps, {});
    AlwaysSound(w, steps);
    var v, all := AfterSteps(w, steps), Accepted(w, steps);
    assert {} + all == all;
    assert MarkersOk(v.stock, v.orders);
    hide Inv, Possible, AfterSteps, Accepted, Waiting;
    assert Kept(v.stock, v.orders, i);
    if Persisted(v.orders, i.key) {
      var o :| o in v.orders && v.orders[o].key == i.key;
      var j :| j in all && RowFor(v.orders[o], j);
      assert j == i;
    }
    if o :| o in v.orders && RowFor(v.orders[o], i) {
      assert Persisted(v.orders, i.key);
    }
  }

  /** The same key is never accepted twice. */
  lemma OneRequestPerKey(w: World, steps: seq<Step>, i: Intent, j: Intent)
    requires Initial(w) && Possible(w, steps) && i in Accepted(w, steps) && j in Accepted(w, steps) && i.key == j.key
    ensures i == j
  {
    InitialIsSound(w);
    NothingKnownAtFirst(w);
    RunIsKnown(w, steps, {});
    assert {} + Accepted(w, steps) == Accepted(w, steps);
  }

  /** What a new request is answered in any reachable state, from the past requests and the live claims alone. */
  lemma AnswersAreJust(w: World, steps: seq<Step>, i: Intent)
    requires Initial(w) && Possible(w, steps)
    ensures var v := AfterSteps(w, steps);
      var reply := ReserveOutcome(v.stock, i, w.limit);
      var known := exists j :: j in Accepted(w, steps) && j.key == i.key;
      var left := w.total - Taken(v.stock.stream, v.stock.released, v.orders, Everyone);
      var over := Taken(v.stock.stream, v.stock.released, v.orders, Buyer(i.user)) + i.quantity > w.limit;
      && (reply.Dup? <==> known)
      && (reply.SoldOut? <==> !known && left < i.quantity)
      && (reply.OverLimit? <==> !known && left >= i.quantity && over)
      && (reply.Accepted? <==> !known && left >= i.quantity && !over)
  {
    InitialIsSound(w);
    NothingKnownAtFirst(w);
    RunIsKnown(w, steps, {});
    AlwaysSound(w, steps);
    var v := AfterSteps(w, steps);
    assert {} + Accepted(w, steps) == Accepted(w, steps);
    ReserveDoesWhatItSays(v.stock, i, w.limit);
    assert ClaimsKnown(v.stock.claims, Accepted(w, steps)) && LedgerOk(v.stock, v.total, v.limit, v.orders);
    assert v.total == w.total && v.limit == w.limit;
    hide Inv, Known, Possible, AfterSteps, Accepted, Taken, ReserveOutcome, AfterReserve, ReserveEffect, Held;
    assert QuotaOk(v.stock, v.limit, v.orders, i.user);
    assert i.key in v.stock.claims <==> HasKey(Accepted(w, steps), i.key);
  }
}
