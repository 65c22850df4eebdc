/** What a run has promised to buyers of seats: every accepted request, from the claim script to the order row or the refund. */
module SeatedHistory {
  import opened Basics
  import opened Quota
  import opened Orders
  import opened RunSets
  import opened SeatZone
  import opened SeatScripts
  import opened SeatComplement
  import opened SeatOwners
  import opened Delivery
  import opened SeatedPipeline
  import opened SeatedSteps
  import opened SeatedSafety
  import L = SeatedLedger
  import U = UnseatedLedger

  /** The requests a run has accepted. */
  ghost function Accepted(w: World, steps: seq<Step>): set<Intent>
    requires Possible(w, steps)
    decreases steps
  {
    if steps == [] then {} else AcceptedBy(w, steps[0]) + Accepted(Next(w, steps[0]), steps[1..])
  }

  ghost function AcceptedBy(w: World, s: Step): set<Intent> {
    if s.Reserve? && ClaimOutcome(w.zone, s.claim).Claimed? then {RequestOf(s.claim)} else {}
  }

  function RequestOf(a: ClaimArgs): Intent {
    Intent(a.user, a.length, a.totalCents, a.key, a.block, a.start)
  }

  /** The order row a request turns into, whatever its status has become. */
  predicate RowFor(o: SeatedOrder, i: Intent) {
    && o.user == i.user && o.totalCents == i.totalCents && o.key == i.key
    && o.place.block == i.block && o.place.start == i.start && o.place.length == i.quantity
  }

  /** Requests have different keys, and exactly their keys are claimed. */
  ghost predicate ClaimsKnown(claims: set<nat>, past: set<Intent>) {
    && (forall i, j :: i in past && j in past && i.key == j.key ==> i == j)
    && (forall k :: k in claims <==> HasKey(past, k))
  }

  ghost predicate HasKey(past: set<Intent>, key: nat) {
    exists i :: i in past && i.key == key
  }

  ghost predicate StreamKnown(stream: map<nat, Intent>, past: set<Intent>) {
    forall e :: e in stream ==> stream[e] in past
  }

  ghost predicate TasksKnown(tasks: map<nat, Task>, past: set<Intent>) {
    forall t :: t in tasks ==> TaskKnown(tasks[t], past)
  }

  predicate TaskKnown(task: Task, past: set<Intent>) {
    match task
    case Persisting(_, i) => i in past
    case Judged(_, i, _) => i in past
    case _ => true
  }

  ghost predicate OrdersKnown(orders: map<nat, SeatedOrder>, past: set<Intent>) {
    forall o :: o in orders ==> exists i :: i in past && RowFor(orders[o], i)
  }

  /** Waiting in the stream, stored as an order, or refunded. */
  ghost predicate Kept(s: Zone, orders: map<nat, SeatedOrder>, i: Intent) {
    Waiting(s.stream, i) || Persisted(orders, i.key) || DeadLetterMarker(i.key) in s.released
  }

  ghost predicate Waiting(stream: map<nat, Intent>, i: Intent) {
    exists e :: e in stream && stream[e] == i
  }

  /** Claims, stream, workers and orders know of the accepted requests and of nothing else; none of them is lost. */
  ghost predicate Known(w: World, past: set<Intent>) {
    && ClaimsKnown(w.zone.claims, past)
    && StreamKnown(w.zone.stream, past)
    && TasksKnown(w.tasks, past)
    && OrdersKnown(w.orders, past)
    && (forall i :: i in past ==> Kept(w.zone, w.orders, i))
  }

  lemma NothingKnownAtFirst(w: World)
    requires Initial(w)
    ensures Known(w, {})
  {
  }

  // ------------------------------------------------------------------ step by step

  /** What is known stays known when a request with a new key comes to the past. */
  lemma MoreIsKnown(w: World, past: set<Intent>, i: Intent)
    requires Known(w, past) && i.key !in w.zone.claims
    ensures OrdersKnown(w.orders, past + {i}) && TasksKnown(w.tasks, past + {i}) && StreamKnown(w.zone.stream, past + {i})
    ensures forall claims :: claims == w.zone.claims + {i.key} ==> ClaimsKnown(claims, past + {i})
  {
    assert !HasKey(past, i.key);
    forall o | o in w.orders ensures exists j :: j in past + {i} && RowFor(w.orders[o], j) {
      var j :| j in past && RowFor(w.orders[o], j);
      assert j in past + {i};
    }
    forall t | t in w.tasks ensures TaskKnown(w.tasks[t], past + {i}) {
      assert TaskKnown(w.tasks[t], past);
    }
    forall k ensures HasKey(past + {i}, k) <==> HasKey(past, k) || k == i.key {
      assert i in past + {i};
      if HasKey(past, k) {
        var j :| j in past && j.key == k;
        assert j in past + {i};
      }
    }
  }

  lemma WaitingStays(stream: map<nat, Intent>, e: nat, i: Intent, j: Intent)
    requires e !in stream
    ensures Waiting(stream[e := i], i) && (Waiting(stream, j) ==> Waiting(stream[e := i], j))
  {
    assert stream[e := i][e] == i;
    if Waiting(stream, j) {
      var f :| f in stream && stream[f] == j;
      assert stream[e := i][f] == j;
    }
  }

  lemma KeptAfterReserve(s: Zone, z: Zone, orders: map<nat, SeatedOrder>, i: Intent, j: Intent)
    requires s.nextId !in s.stream && z.stream == s.stream[s.nextId := i] && z.released == s.released
    requires j == i || Kept(s, orders, j)
    ensures Kept(z, orders, j)
  {
    hide Waiting, Persisted;
    WaitingStays(s.stream, s.nextId, i, j);
  }

  lemma ReserveWrites(w: World, a: ClaimArgs)
    requires KeysOk(w.zone, w.orders) && Enabled(w, Reserve(a)) && ClaimOutcome(w.zone, a).Claimed?
    ensures var v := Next(w, Reserve(a));
      && v.orders == w.orders && v.tasks == w.tasks && v.zone.released == w.zone.released
      && w.zone.nextId !in w.zone.stream && v.zone.stream == w.zone.stream[w.zone.nextId := RequestOf(a)]
      && v.zone.claims == w.zone.claims + {a.key} && a.key !in w.zone.claims
  {
    hide OccupySet;
  }

  lemma ReserveIsKnown(w: World, a: ClaimArgs, past: set<Intent>)
    requires Inv(w) && Enabled(w, Reserve(a)) && Known(w, past)
    ensures Known(Next(w, Reserve(a)), past + AcceptedBy(w, Reserve(a)))
  {
    var v := Next(w, Reserve(a));
    if ClaimOutcome(w.zone, a).Claimed? {
      var i := RequestOf(a);
      ReserveWrites(w, a);
      assert AcceptedBy(w, Reserve(a)) == {i};
      hide Inv, Enabled, Next, ClaimOutcome, AcceptedBy, Kept, HasKey, OrdersKnown, TasksKnown;
      MoreIsKnown(w, past, i);
      forall j | j in past + {i} ensures Kept(v.zone, v.orders, j) {
        KeptAfterReserve(w.zone, v.zone, w.orders, i, j);
      }
      assert ClaimsKnown(v.zone.claims, past + {i});
      hide StreamKnown, ClaimsKnown;
      StreamAfterReserve(w.zone.stream, w.zone.nextId, i, past);
    } else {
      ReserveRefused(w, a, past);
    }
  }

  lemma StreamAfterReserve(stream: map<nat, Intent>, e: nat, i: Intent, past: set<Intent>)
    requires StreamKnown(stream, past + {i})
    ensures StreamKnown(stream[e := i], past + {i})
  {
  }

  lemma ReserveRefused(w: World, a: ClaimArgs, past: set<Intent>)
    requires Enabled(w, Reserve(a)) && !ClaimOutcome(w.zone, a).Claimed?
    ensures Next(w, Reserve(a)) == w && past + AcceptedBy(w, Reserve(a)) == past
  {
  }

  lemma InsertIsKnown(w: World, t: nat, o: nat, past: set<Intent>)
    requires Enabled(w, Insert(t, o)) && Known(w, past)
    ensures Known(Next(w, Insert(t, o)), past)
  {
    var v, i := Next(w, Insert(t, o)), w.tasks[t].intent;
    assert TaskKnown(w.tasks[t], past);
    forall k ensures Persisted(v.orders, k) <==> Persisted(w.orders, k) || k == i.key {
      PersistedAfterInsert(w.orders, o, Seated(i), k);
    }
    hide Persisted, ClaimsKnown;
    assert RowFor(v.orders[o], i);
    forall p | p in v.orders ensures exists j :: j in past && RowFor(v.orders[p], j) {
      assert p != o ==> v.orders[p] == w.orders[p];
    }
    forall j | j in past ensures Kept(v.zone, v.orders, j) {
      assert Kept(w.zone, w.orders, j);
    }
    forall x | x in v.tasks ensures TaskKnown(v.tasks[x], past) {
      assert x != t ==> TaskKnown(w.tasks[x], past);
    }
  }

  lemma AckWrites(w: World, t: nat)
    requires TasksOk(w) && Enabled(w, Ack(t))
    ensures var v, e := Next(w, Ack(t)), w.tasks[t].entry;
      && v.orders == w.orders && v.zone == w.zone.(stream := w.zone.stream - {e}) && v.tasks == w.tasks - {t}
      && (e in w.zone.stream ==> !InFlight(w.zone.released, w.orders, w.zone.stream[e]))
  {
    hide InFlight;
    assert TaskOk(w.tasks[t], w.zone, w.orders, w.holds, w.limbo, w.deliveries, w.outbox);
  }

  lemma KeptAfterAck(s: Zone, orders: map<nat, SeatedOrder>, e: nat, j: Intent)
    requires e in s.stream ==> !InFlight(s.released, orders, s.stream[e])
    requires Kept(s, orders, j)
    ensures Kept(s.(stream := s.stream - {e}), orders, j)
  {
    hide Persisted;
    if Waiting(s.stream, j) {
      var f :| f in s.stream && s.stream[f] == j;
      assert f != e ==> f in s.stream - {e} && (s.stream - {e})[f] == j;
    }
  }

  lemma AckIsKnown(w: World, t: nat, past: set<Intent>)
    requires Inv(w) && Enabled(w, Ack(t)) && Known(w, past)
    ensures Known(Next(w, Ack(t)), past)
  {
    var v, e := Next(w, Ack(t)), w.tasks[t].entry;
    hide Balance, KeysOk, MarkersOk, HoldsOk, TasksOk, Enabled, Next, Kept, ClaimsKnown, OrdersKnown, InFlight;
    AckWrites(w, t);
    forall j | j in past ensures Kept(v.zone, v.orders, j) {
      KeptAfterAck(w.zone, w.orders, e, j);
    }
  }

  lemma DecideIsKnown(w: World, o: nat, status: Status, row: nat, t: nat, past: set<Intent>)
    requires Enabled(w, Decide(o, status, row, t)) && Known(w, past)
    ensures Known(Next(w, Decide(o, status, row, t)), past)
  {
    var v := Next(w, Decide(o, status, row, t));
    forall k ensures Persisted(v.orders, k) <==> Persisted(w.orders, k) {
      PersistedIgnoresStatus(w.orders, o, status, k);
    }
    hide Persisted, ClaimsKnown;
    forall p | p in v.orders ensures exists j :: j in past && RowFor(v.orders[p], j) {
      var j :| j in past && RowFor(w.orders[p], j);
      assert RowFor(v.orders[p], j);
    }
    forall j | j in past ensures Kept(v.zone, v.orders, j) {
      assert Kept(w.zone, w.orders, j);
    }
    forall x | x in v.tasks ensures TaskKnown(v.tasks[x], past) {
      assert x in w.tasks && x != t ==> TaskKnown(w.tasks[x], past);
    }
  }

  /** Every other step: claims, stream and orders stay, markers only come. */
  lemma OthersMoveNothing(w: World, s: Step)
    requires Enabled(w, s) && !s.Reserve? && !s.Insert? && !s.Ack? && !s.Decide?
    ensures var v := Next(w, s);
      && v.zone.stream == w.zone.stream && v.orders == w.orders && v.zone.released >= w.zone.released
      && v.zone.claims == w.zone.claims
  {
    hide Refund, ReleaseSet, ReleaseSucceeds, RunsMayBe, IsComplement, Persisted, Finished;
  }

  lemma OthersTasks(w: World, s: Step, past: set<Intent>)
    requires Enabled(w, s) && !s.Reserve? && !s.Insert? && !s.Ack? && !s.Decide?
    requires StreamKnown(w.zone.stream, past) && TasksKnown(w.tasks, past)
    ensures TasksKnown(Next(w, s).tasks, past)
  {
    hide AfterRelease, RunsMayBe, IsComplement, Persisted, Lease;
    var v := Next(w, s);
    forall x | x in v.tasks ensures TaskKnown(v.tasks[x], past) {
      assert x in w.tasks ==> TaskKnown(w.tasks[x], past);
    }
  }

  lemma OtherIsKnown(w: World, s: Step, past: set<Intent>)
    requires Enabled(w, s) && !s.Reserve? && !s.Insert? && !s.Ack? && !s.Decide? && Known(w, past)
    ensures Known(Next(w, s), past)
  {
    OthersMoveNothing(w, s);
    OthersTasks(w, s, past);
    hide Enabled, Next, Persisted, Waiting, ClaimsKnown;
    var v := Next(w, s);
    forall j | j in past ensures Kept(v.zone, v.orders, j) {
      assert Kept(w.zone, w.orders, j);
    }
  }

  lemma StepIsKnown(w: World, s: Step, past: set<Intent>)
    requires Inv(w) && Enabled(w, s) && Known(w, past)
    ensures Known(Next(w, s), past + AcceptedBy(w, s))
  {
    hide Inv, Enabled, Next, Known;
    assert !s.Reserve? ==> past + AcceptedBy(w, s) == past;
    match s
    case Reserve(a) => ReserveIsKnown(w, a, past);
    case Insert(t, o) => InsertIsKnown(w, t, o, past);
    case Ack(t) => AckIsKnown(w, t, past);
    case Decide(o, status, row, t) => DecideIsKnown(w, o, status, row, t, past);
    case _ => OtherIsKnown(w, s, past);
  }

  lemma {:induction false} RunIsKnown(w: World, steps: seq<Step>, past: set<Intent>)
    requires Inv(w) && Possible(w, steps) && Known(w, past)
    ensures Known(AfterSteps(w, steps), past + Accepted(w, steps))
    decreases steps
  {
    hide Inv, Enabled, Next, Known, AcceptedBy;
    if steps == [] {
      assert past + Accepted(w, steps) == past;
    } else {
      var more := past + AcceptedBy(w, steps[0]);
      StepKeeps(w, steps[0]);
      StepIsKnown(w, steps[0], past);
      RunIsKnown(Next(w, steps[0]), steps[1..], more);
      assert past + Accepted(w, steps) == more + Accepted(Next(w, steps[0]), steps[1..]);
    }
  }

  // ------------------------------------------------------------------ over whole runs

  /** Every stored order is some accepted request, with its buyer, seats, price and key; every entry of the stream is one. */
  lemma OrdersComeFromRequests(w: World, steps: seq<Step>)
    requires Initial(w) && Possible(w, steps)
    ensures var v := AfterSteps(w, steps);
      && (forall o :: o in v.orders ==> exists i :: i in Accepted(w, steps) && RowFor(v.orders[o], i))
      && (forall e :: e in v.zone.stream ==> v.zone.stream[e] in Accepted(w, steps))
  {
    InitialIsSound(w);
    NothingKnownAtFirst(w);
    RunIsKnown(w, steps, {});
    assert {} + Accepted(w, steps) == Accepted(w, steps);
  }

  /** An accepted request is never lost: it waits in the stream, is stored as an order with the very data that was
      accepted, or was refunded, and never the last two. */
  lemma AcceptedIsNeverLost(w: World, steps: seq<Step>, i: Intent)
    requires Initial(w) && Possible(w, steps) && i in Accepted(w, steps)
    ensures var v := AfterSteps(w, steps);
      var stored := exists o :: o in v.orders && RowFor(v.orders[o], i);
      var refunded := DeadLetterMarker(i.key) in v.zone.released;
      && (Waiting(v.zone.stream, i) || stored || refunded)
      && !(stored && refunded)
  {
    InitialIsSound(w);
    NothingKnownAtFirst(w);
    RunIsKnown(w, steps, {});
    AlwaysSound(w, steps);
    var v, all := AfterSteps(w, steps), Accepted(w, steps);
    assert {} + all == all;
    assert MarkersOk(v.zone.released, v.zone.claims, v.orders, v.holds, v.limbo);
    hide Inv, Possible, AfterSteps, Accepted, Waiting;
    assert Kept(v.zone, v.orders, i);
    if Persisted(v.orders, i.key) {
      var o :| o in v.orders && v.orders[o].key == i.key;
      var j :| j in all && RowFor(v.orders[o], j);
      assert j == i;
    }
    if o :| o in v.orders && RowFor(v.orders[o], i) {
      assert Persisted(v.orders, i.key);
    }
  }

  /** The same key is never accepted twice. */
  lemma OneRequestPerKey(w: World, steps: seq<Step>, i: Intent, j: Intent)
    requires Initial(w) && Possible(w, steps) && i in Accepted(w, steps) && j in Accepted(w, steps) && i.key == j.key
    ensures i == j
  {
    InitialIsSound(w);
    NothingKnownAtFirst(w);
    RunIsKnown(w, steps, {});
    assert {} + Accepted(w, steps) == Accepted(w, steps);
  }

  /** What a claim is answered in any reachable state, from the past requests, the live claims and the free runs alone. */
  lemma AnswersAreJust(w: World, steps: seq<Step>, a: ClaimArgs)
    requires L.OnSale(w) && Possible(w, steps) && a.length >= 1
    ensures var v := AfterSteps(w, steps);
      var reply := ClaimOutcome(v.zone, a);
      var known := exists j :: j in Accepted(w, steps) && j.key == a.key;
      var over := L.Claimed(v, U.Buyer(a.user)) + a.length > a.limit;
      var there := Run(a.block, a.runStart, a.runLength) in v.zone.free;
      && (reply.Dup? <==> known)
      && (reply.OverLimit? <==> !known && over)
      && (reply.Retry? <==> !known && !over && !there)
      && (reply.Claimed? <==> !known && !over && there && a.runStart <= a.start && a.start + a.length <= a.runStart + a.runLength)
  {
    InitialIsSound(w);
    NothingKnownAtFirst(w);
    RunIsKnown(w, steps, {});
    AlwaysSound(w, steps);
    var v := AfterSteps(w, steps);
    assert {} + Accepted(w, steps) == Accepted(w, steps);
    hide L.OnSale, MarkersOk, HoldsOk, TasksOk, KeysOk, L.Claimed, Initial;
    L.QuotaIsLiveClaims(w, steps, a.user);
    ClaimDoesWhatItSays(v.zone, a);
    assert ClaimsKnown(v.zone.claims, Accepted(w, steps));
    hide Inv, Known, Possible, AfterSteps, Accepted, ClaimOutcome, AfterClaim, ClaimEffect, Held;
    assert a.key in v.zone.claims <==> HasKey(Accepted(w, steps), a.key);
  }
}
