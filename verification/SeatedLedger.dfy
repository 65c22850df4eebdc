/** The counters of a seated event against its orders: every buyer's quota, and the event's total. */
module SeatedLedger {
  import opened Basics
  import opened Quota
  import opened Orders
  import opened RunSets
  import opened Sums
  import opened SeatZone
  import opened SeatComplement
  import opened SeatOwners
  import opened SeatedPipeline
  import opened SeatedSteps
  import opened SeatedSafety
  import R = SeatedRebuild
  import I = Inventory
  import U = UnseatedLedger

  // ------------------------------------------------------------------ live claims

  /** Entries and orders without their seats: claims are counted as those of an event without a seat map. */
  function Plain(stream: map<nat, Intent>): map<nat, I.Intent> {
    map e | e in stream :: PlainIntent(stream[e])
  }

  function PlainIntent(i: Intent): I.Intent {
    I.Intent(i.user, i.quantity, i.totalCents, i.key)
  }

  function PlainOrders(orders: map<nat, SeatedOrder>): map<nat, U.Order> {
    map o | o in orders :: PlainOrder(orders[o])
  }

  function PlainOrder(o: SeatedOrder): U.Order {
    U.Order(o.user, o.place.length, o.totalCents, o.key, o.status)
  }

  /** Seats of entries in flight and of orders whose release has not run. */
  ghost function Claimed(w: World, whose: U.Whose): int {
    U.Taken(Plain(w.zone.stream), w.zone.released, PlainOrders(w.orders), whose)
  }

  lemma PersistedPlain(orders: map<nat, SeatedOrder>, key: nat)
    ensures U.Persisted(PlainOrders(orders), key) <==> Persisted(orders, key)
  {
    if Persisted(orders, key) {
      var o :| o in orders && orders[o].key == key;
      assert PlainOrders(orders)[o].key == key;
    }
    if U.Persisted(PlainOrders(orders), key) {
      var o :| o in PlainOrders(orders) && PlainOrders(orders)[o].key == key;
      assert orders[o].key == key;
    }
  }

  lemma InFlightPlain(released: set<Marker>, orders: map<nat, SeatedOrder>, i: Intent)
    ensures U.InFlight(released, PlainOrders(orders), PlainIntent(i)) <==> InFlight(released, orders, i)
  {
    PersistedPlain(orders, i.key);
    hide PlainOrders;
  }

  lemma PlainKeys(w: World)
    requires KeysOk(w.zone, w.orders)
    ensures U.EntriesAreUnique(Plain(w.zone.stream))
  {
    var p := Plain(w.zone.stream);
    forall e, f | e in p && f in p && p[e].key == p[f].key ensures e == f {
      assert w.zone.stream[e].key == w.zone.stream[f].key;
    }
  }

  /** Every order has seats. */
  ghost predicate SizesOk(orders: map<nat, SeatedOrder>) {
    forall o :: o in orders ==> orders[o].place.length >= 1
  }

  // ------------------------------------------------------------------ how the claims move, step by step

  lemma ClaimedByReserve(w: World, a: ClaimArgs, whose: U.Whose)
    requires Inv(w) && Enabled(w, Reserve(a)) && ClaimOutcome(w.zone, a).Claimed?
    ensures Claimed(Next(w, Reserve(a)), whose) == Claimed(w, whose) + whose.Count(a.user, a.length)
  {
    var v := Next(w, Reserve(a));
    var i := Intent(a.user, a.length, a.totalCents, a.key, a.block, a.start);
    assert v.zone.stream == w.zone.stream[w.zone.nextId := i] && v.zone.released == w.zone.released && v.orders == w.orders;
    assert Plain(v.zone.stream) == Plain(w.zone.stream)[w.zone.nextId := PlainIntent(i)];
    assert !Persisted(w.orders, a.key) && DeadLetterMarker(a.key) !in w.zone.released;
    InFlightPlain(w.zone.released, w.orders, i);
    hide Inv, Next, InFlight, AfterClaim, U.InFlight;
    U.TakenByReserve(Plain(w.zone.stream), w.zone.released, PlainOrders(w.orders), w.zone.nextId, PlainIntent(i), whose);
  }

  lemma EntryHasSeats(z: Zone, orders: map<nat, SeatedOrder>, e: nat)
    requires KeysOk(z, orders) && e in z.stream
    ensures z.stream[e].quantity >= 1
  {
  }

  lemma ClaimedByInsert(w: World, t: nat, id: nat, whose: U.Whose)
    requires Inv(w) && Enabled(w, Insert(t, id))
    ensures Claimed(Next(w, Insert(t, id)), whose) == Claimed(w, whose)
    ensures w.tasks[t].intent.quantity >= 1
  {
    hide Balance, KeysOk, MarkersOk, HoldsOk, TasksOk, InFlight, U.InFlight, U.Taken, ExcludeAllows;
    PersistingFacts(w, t);
    PlainKeys(w);
    var v, e := Next(w, Insert(t, id)), w.tasks[t].entry;
    EntryHasSeats(w.zone, w.orders, e);
    InFlightPlain(w.zone.released, w.orders, w.zone.stream[e]);
    var stream, orders := Plain(w.zone.stream), PlainOrders(w.orders);
    assert PlainOrders(v.orders) == orders[id := U.RowOf(stream[e])];
    assert v.zone == w.zone && id !in orders;
    hide Inv, Next, Enabled;
    U.TakenByInsert(stream, w.zone.released, orders, e, id, whose);
  }

  lemma AckedIsSettled(w: World, t: nat)
    requires TasksOk(w) && t in w.tasks && w.tasks[t].Acking?
    ensures var e := w.tasks[t].entry; e in w.zone.stream ==> !InFlight(w.zone.released, w.orders, w.zone.stream[e])
  {
    hide InFlight;
    assert TaskOk(w.tasks[t], w.zone, w.orders, w.holds, w.limbo, w.deliveries, w.outbox);
  }

  lemma ClaimedByAck(w: World, t: nat, whose: U.Whose)
    requires Inv(w) && Enabled(w, Ack(t))
    ensures Claimed(Next(w, Ack(t)), whose) == Claimed(w, whose)
  {
    hide Balance, KeysOk, MarkersOk, HoldsOk, TasksOk, InFlight, U.InFlight, U.Taken;
    var v, e := Next(w, Ack(t)), w.tasks[t].entry;
    AckedIsSettled(w, t);
    if e in w.zone.stream {
      InFlightPlain(w.zone.released, w.orders, w.zone.stream[e]);
    }
    var stream := Plain(w.zone.stream);
    assert Plain(v.zone.stream) == stream - {e};
    assert v.zone.released == w.zone.released && v.orders == w.orders;
    hide Inv, Next, Enabled;
    U.TakenByAck(stream, w.zone.released, PlainOrders(w.orders), e, whose);
  }

  lemma OrdersAfter(w: World, s: Step)
    requires Enabled(w, s)
    ensures !s.Insert? && !s.Decide? ==> Next(w, s).orders == w.orders
    ensures s.Insert? ==> Next(w, s).orders == w.orders[s.order := Seated(w.tasks[s.t].intent)]
    ensures s.Decide? ==> Next(w, s).orders == w.orders[s.order := w.orders[s.order].(status := s.status)]
  {
    hide ExcludeAllows, Persisted, RunsMayBe, IsComplement, AfterClaim, AfterRelease, NobodyPersists, Finished;
  }

  lemma DecidedOrderHolds(w: World, o: nat, status: Status, row: nat, t: nat)
    requires Enabled(w, Decide(o, status, row, t)) && MarkersOk(w.zone.released, w.zone.claims, w.orders, w.holds, w.limbo)
    ensures w.orders[o].status.Holding() && OrderMarker(o) !in w.zone.released
  {
  }

  lemma ClaimedByDecision(w: World, o: nat, status: Status, row: nat, t: nat, whose: U.Whose)
    requires Inv(w) && Enabled(w, Decide(o, status, row, t))
    ensures Claimed(Next(w, Decide(o, status, row, t)), whose) == Claimed(w, whose)
  {
    hide Balance, KeysOk, MarkersOk, HoldsOk, TasksOk, U.Taken;
    var v := Next(w, Decide(o, status, row, t));
    DecidedOrderHolds(w, o, status, row, t);
    OrdersAfter(w, Decide(o, status, row, t));
    var orders := PlainOrders(w.orders);
    assert PlainOrders(v.orders) == orders[o := orders[o].(status := status)];
    assert v.zone == w.zone;
    hide Inv, Enabled, Next;
    U.TakenByDecision(Plain(w.zone.stream), w.zone.released, orders, o, status, whose);
  }

  /** The release script a step runs to the end, if it does. */
  ghost function Gives(w: World, s: Step): Option<ReleaseArgs>
    requires Enabled(w, s)
  {
    match s
    case RefundEntry(t) =>
      var a := RefundArgs(w.tasks[t].intent);
      if !w.tasks[t].persisted && ReleaseSucceeds(w.zone, a) then Some(a) else None
    case ReturnSeats(t) =>
      var a := ReturnArgs(w.tasks[t].order, w.orders[w.tasks[t].order]);
      if ReleaseSucceeds(w.zone, a) then Some(a) else None
    case _ => None
  }

  lemma ClaimedByRefund(w: World, t: nat, whose: U.Whose)
    requires Inv(w) && Enabled(w, RefundEntry(t)) && Gives(w, RefundEntry(t)).Some?
    ensures var a := Gives(w, RefundEntry(t)).value;
      && Claimed(Next(w, RefundEntry(t)), whose) == Claimed(w, whose) - whose.Count(a.user, a.length)
      && Next(w, RefundEntry(t)).zone == AfterRelease(w.zone, a) && a.length >= 1
  {
    var v, i, e := Next(w, RefundEntry(t)), w.tasks[t].intent, w.tasks[t].entry;
    assert TaskOk(w.tasks[t], w.zone, w.orders, w.holds, w.limbo, w.deliveries, w.outbox);
    assert e in w.zone.stream && w.zone.stream[e] == i && InFlight(w.zone.released, w.orders, i);
    InFlightPlain(w.zone.released, w.orders, i);
    PlainKeys(w);
    assert v.zone == AfterRelease(w.zone, RefundArgs(i));
    hide ReleaseSet;
    assert v.zone.released == w.zone.released + {DeadLetterMarker(i.key)} && v.zone.stream == w.zone.stream && v.orders == w.orders;
    hide Inv, TaskOk, Next, Enabled, InFlight, U.InFlight, AfterRelease;
    U.TakenByRefund(Plain(w.zone.stream), w.zone.released, PlainOrders(w.orders), e, whose);
  }

  lemma ClaimedByReturn(w: World, t: nat, whose: U.Whose)
    requires Inv(w) && Enabled(w, ReturnSeats(t)) && Gives(w, ReturnSeats(t)).Some?
    ensures var a := Gives(w, ReturnSeats(t)).value;
      && Claimed(Next(w, ReturnSeats(t)), whose) == Claimed(w, whose) - whose.Count(a.user, a.length)
      && Next(w, ReturnSeats(t)).zone == AfterRelease(w.zone, a)
  {
    var v, o := Next(w, ReturnSeats(t)), w.tasks[t].order;
    assert TaskOk(w.tasks[t], w.zone, w.orders, w.holds, w.limbo, w.deliveries, w.outbox);
    assert v.zone == AfterRelease(w.zone, ReturnArgs(o, w.orders[o]));
    hide ReleaseSet;
    assert v.zone.released == w.zone.released + {OrderMarker(o)} && v.zone.stream == w.zone.stream && v.orders == w.orders;
    assert !w.orders[o].status.Holding() && OrderMarker(o) !in w.zone.released;
    hide Inv, TaskOk, Next, Enabled, AfterRelease;
    U.TakenByRelease(Plain(w.zone.stream), w.zone.released, PlainOrders(w.orders), o, whose);
  }

  /** A return that does not go through is a repeat: nothing moves. */
  lemma ClaimedByRepeat(w: World, s: Step, whose: U.Whose)
    requires Enabled(w, s) && (s.RefundEntry? || s.ReturnSeats?) && Gives(w, s).None?
    ensures Claimed(Next(w, s), whose) == Claimed(w, whose) && Next(w, s).zone == w.zone
  {
  }

  lemma ClaimedByRest(w: World, s: Step, whose: U.Whose)
    requires Enabled(w, s) && !s.Reserve? && !s.Insert? && !s.Ack? && !s.Decide? && !s.RefundEntry? && !s.ReturnSeats?
    ensures Claimed(Next(w, s), whose) == Claimed(w, whose)
    ensures var v := Next(w, s); v.zone.purchased == w.zone.purchased && v.zone.eventAvailable == w.zone.eventAvailable
  {
    hide U.Taken;
  }

  // ------------------------------------------------------------------ quotas and the event counter

  /** The scripts' counters agree with the claims there are. */
  ghost predicate CountersAgree(w: World, total: int) {
    && (forall u :: Held(w.zone.purchased, u) == Claimed(w, U.Buyer(u)))
    && w.zone.eventAvailable == total - Claimed(w, U.Everyone)
    && SizesOk(w.orders)
  }

  lemma ClaimedNotNegative(w: World, whose: U.Whose)
    requires KeysOk(w.zone, w.orders) && SizesOk(w.orders)
    ensures Claimed(w, whose) >= 0
  {
    var stream, orders := Plain(w.zone.stream), PlainOrders(w.orders);
    SumNotNegative(U.EntryCounts(stream, w.zone.released, orders, whose));
    SumNotNegative(U.OrderCounts(w.zone.released, orders, whose));
  }

  lemma SizesStay(w: World, s: Step)
    requires Inv(w) && Enabled(w, s) && SizesOk(w.orders)
    ensures SizesOk(Next(w, s).orders)
  {
    OrdersAfter(w, s);
    assert s.Insert? ==> s.t in w.tasks && w.tasks[s.t].Persisting?;
    assert s.Decide? ==> s.order in w.orders;
    if s.Insert? {
      ClaimedByInsert(w, s.t, s.order, U.Everyone);
    }
    hide Inv, Next, Enabled, Claimed;
  }

  /** One buyer's field after a claim. */
  lemma QuotaAfterClaim(z: Zone, a: ClaimArgs, u: int)
    requires ClaimOutcome(z, a).Claimed?
    ensures Held(AfterClaim(z, a).purchased, u) == Held(z.purchased, u) + if u == a.user then a.length else 0
    ensures AfterClaim(z, a).eventAvailable == z.eventAvailable - a.length
  {
    hide OccupySet;
  }

  lemma ReserveIsTheClaim(w: World, a: ClaimArgs)
    requires Enabled(w, Reserve(a))
    ensures Next(w, Reserve(a)) == w.(zone := AfterClaim(w.zone, a))
    ensures !ClaimOutcome(w.zone, a).Claimed? ==> Next(w, Reserve(a)) == w
  {
    hide OccupySet;
  }

  lemma ReserveCountsFor(w: World, a: ClaimArgs, total: int, u: int)
    requires Inv(w) && Enabled(w, Reserve(a)) && ClaimOutcome(w.zone, a).Claimed? && CountersAgree(w, total)
    ensures var v := Next(w, Reserve(a));
      && Held(v.zone.purchased, u) == Claimed(v, U.Buyer(u))
      && v.zone.eventAvailable == total - Claimed(v, U.Everyone)
  {
    hide Inv, Next, Enabled, Claimed, AfterClaim, ClaimOutcome, Held;
    ReserveIsTheClaim(w, a);
    QuotaAfterClaim(w.zone, a, u);
    ClaimedByReserve(w, a, U.Buyer(u));
    ClaimedByReserve(w, a, U.Everyone);
  }

  lemma ReserveCounts(w: World, a: ClaimArgs, total: int)
    requires Inv(w) && Enabled(w, Reserve(a)) && CountersAgree(w, total)
    ensures CountersAgree(Next(w, Reserve(a)), total)
  {
    hide Inv, Next, Enabled, Claimed, AfterClaim, ClaimOutcome, Held;
    SizesStay(w, Reserve(a));
    ReserveIsTheClaim(w, a);
    if ClaimOutcome(w.zone, a).Claimed? {
      forall u
        ensures Held(Next(w, Reserve(a)).zone.purchased, u) == Claimed(Next(w, Reserve(a)), U.Buyer(u))
        ensures Next(w, Reserve(a)).zone.eventAvailable == total - Claimed(Next(w, Reserve(a)), U.Everyone)
      {
        ReserveCountsFor(w, a, total, u);
      }
      ReserveCountsFor(w, a, total, 0);
    }
  }

  /** One buyer's field after a release that leaves something or nothing. */
  lemma QuotaAfterRelease(z: Zone, a: ReleaseArgs, u: int, left: int)
    requires ReleaseSucceeds(z, a) && left >= 0 && left == Held(z.purchased, u) - if u == a.user then a.length else 0
    ensures Held(AfterRelease(z, a).purchased, u) == left
    ensures AfterRelease(z, a).eventAvailable == z.eventAvailable + a.length
  {
    hide ReleaseSet, ReleaseSucceeds;
  }

  /** What a refund or return does to the claims and to the zone. */
  lemma ReleaseMovesClaims(w: World, s: Step, whose: U.Whose)
    requires Inv(w) && Enabled(w, s) && (s.RefundEntry? || s.ReturnSeats?)
    ensures match Gives(w, s)
            case None => Claimed(Next(w, s), whose) == Claimed(w, whose) && Next(w, s).zone == w.zone
            case Some(a) =>
              && Claimed(Next(w, s), whose) == Claimed(w, whose) - whose.Count(a.user, a.length)
              && Next(w, s).zone == AfterRelease(w.zone, a)
  {
    hide *;
    if Gives(w, s).None? {
      ClaimedByRepeat(w, s, whose);
    } else if s.RefundEntry? {
      ClaimedByRefund(w, s.t, whose);
    } else {
      ClaimedByReturn(w, s.t, whose);
    }
  }

  lemma GivesSucceeds(w: World, s: Step)
    requires Enabled(w, s) && Gives(w, s).Some?
    ensures ReleaseSucceeds(w.zone, Gives(w, s).value)
  {
    hide ReleaseSucceeds;
  }

  lemma ReleaseCountsFor(w: World, s: Step, total: int, u: int)
    requires Inv(w) && Enabled(w, s) && (s.RefundEntry? || s.ReturnSeats?) && CountersAgree(w, total)
    requires Claimed(Next(w, s), U.Buyer(u)) >= 0
    ensures Held(Next(w, s).zone.purchased, u) == Claimed(Next(w, s), U.Buyer(u))
  {
    hide Inv, Next, Enabled, Claimed, Gives, ReleaseSucceeds, AfterRelease, Held;
    ReleaseMovesClaims(w, s, U.Buyer(u));
    if Gives(w, s).Some? {
      GivesSucceeds(w, s);
      QuotaAfterRelease(w.zone, Gives(w, s).value, u, Claimed(Next(w, s), U.Buyer(u)));
    }
  }

  lemma ReleaseCountsTotal(w: World, s: Step, total: int)
    requires Inv(w) && Enabled(w, s) && (s.RefundEntry? || s.ReturnSeats?) && CountersAgree(w, total)
    ensures Next(w, s).zone.eventAvailable == total - Claimed(Next(w, s), U.Everyone)
  {
    hide Inv, Next, Enabled, Claimed, Gives, Held, ReleaseSet;
    ReleaseMovesClaims(w, s, U.Everyone);
    if Gives(w, s).Some? {
      GivesSucceeds(w, s);
    }
  }

  lemma ReleaseCounts(w: World, s: Step, total: int)
    requires Inv(w) && Enabled(w, s) && (s.RefundEntry? || s.ReturnSeats?) && CountersAgree(w, total) && Inv(Next(w, s))
    ensures CountersAgree(Next(w, s), total)
  {
    hide Next, Enabled, Claimed, Gives, Held, Balance, MarkersOk, HoldsOk, TasksOk, KeysOk;
    SizesStay(w, s);
    ReleaseCountsTotal(w, s, total);
    forall u ensures Held(Next(w, s).zone.purchased, u) == Claimed(Next(w, s), U.Buyer(u)) {
      ClaimedNotNegative(Next(w, s), U.Buyer(u));
      ReleaseCountsFor(w, s, total, u);
    }
  }

  lemma OtherMovesNoClaims(w: World, s: Step, whose: U.Whose)
    requires Inv(w) && Enabled(w, s) && !s.Reserve? && !s.RefundEntry? && !s.ReturnSeats?
    ensures Claimed(Next(w, s), whose) == Claimed(w, whose)
  {
    hide *;
    match s
    case Insert(t, o) => ClaimedByInsert(w, t, o, whose);
    case Ack(t) => ClaimedByAck(w, t, whose);
    case Decide(o, status, row, t) => ClaimedByDecision(w, o, status, row, t, whose);
    case _ => ClaimedByRest(w, s, whose);
  }

  lemma OtherLeavesCounters(w: World, s: Step)
    requires Enabled(w, s) && !s.Reserve? && !s.RefundEntry? && !s.ReturnSeats?
    ensures Next(w, s).zone.purchased == w.zone.purchased && Next(w, s).zone.eventAvailable == w.zone.eventAvailable
  {
    hide ExcludeAllows, Persisted, RunsMayBe, IsComplement, NobodyPersists, Finished;
  }

  lemma OtherCountsFor(w: World, s: Step, total: int, u: int)
    requires Inv(w) && Enabled(w, s) && !s.Reserve? && !s.RefundEntry? && !s.ReturnSeats? && CountersAgree(w, total)
    ensures Held(Next(w, s).zone.purchased, u) == Claimed(Next(w, s), U.Buyer(u))
    ensures Next(w, s).zone.eventAvailable == total - Claimed(Next(w, s), U.Everyone)
  {
    hide Inv, Next, Enabled, Claimed, Held;
    OtherLeavesCounters(w, s);
    OtherMovesNoClaims(w, s, U.Everyone);
    OtherMovesNoClaims(w, s, U.Buyer(u));
  }

  lemma OtherStepCounts(w: World, s: Step, total: int)
    requires Inv(w) && Enabled(w, s) && !s.Reserve? && !s.RefundEntry? && !s.ReturnSeats? && CountersAgree(w, total)
    ensures CountersAgree(Next(w, s), total)
  {
    hide Inv, Next, Enabled, Claimed, Held;
    SizesStay(w, s);
    OtherCountsFor(w, s, total, 0);
    forall u ensures Held(Next(w, s).zone.purchased, u) == Claimed(Next(w, s), U.Buyer(u)) {
      OtherCountsFor(w, s, total, u);
    }
  }

  lemma StepCounts(w: World, s: Step, total: int)
    requires Inv(w) && Enabled(w, s) && CountersAgree(w, total)
    ensures CountersAgree(Next(w, s), total)
  {
    hide *;
    StepKeeps(w, s);
    match s
    case Reserve(a) => ReserveCounts(w, a, total);
    case RefundEntry(_) => ReleaseCounts(w, s, total);
    case ReturnSeats(_) => ReleaseCounts(w, s, total);
    case _ => OtherStepCounts(w, s, total);
  }

  lemma {:induction false} CountersAlwaysAgree(w: World, steps: seq<Step>, total: int)
    requires Inv(w) && Possible(w, steps) && CountersAgree(w, total)
    ensures CountersAgree(AfterSteps(w, steps), total)
    decreases steps
  {
    hide Inv, Enabled, Next, CountersAgree;
    if steps != [] {
      StepCounts(w, steps[0], total);
      StepKeeps(w, steps[0]);
      CountersAlwaysAgree(Next(w, steps[0]), steps[1..], total);
    }
  }

  /** Nobody has bought anything yet. */
  ghost predicate OnSale(w: World) {
    Initial(w) && w.zone.purchased == map[]
  }

  lemma CountersStartRight(w: World)
    requires OnSale(w)
    ensures CountersAgree(w, w.zone.eventAvailable)
  {
    forall whose ensures Claimed(w, whose) == 0 {
      assert U.EntryCounts(map[], {}, map[], whose) == map[] && U.OrderCounts({}, map[], whose) == map[];
      assert Plain(w.zone.stream) == map[] && PlainOrders(w.orders) == map[];
    }
  }

  /** In every state of every run, rebuilds included, a buyer's quota is what that buyer's live claims add up to, and
      the event counter is the capacity less everybody's. */
  lemma QuotaIsLiveClaims(w: World, steps: seq<Step>, u: int)
    requires OnSale(w) && Possible(w, steps)
    ensures var v := AfterSteps(w, steps);
      && Held(v.zone.purchased, u) == Claimed(v, U.Buyer(u)) >= 0
      && v.zone.eventAvailable == w.zone.eventAvailable - Claimed(v, U.Everyone)
  {
    CountersStartRight(w);
    InitialIsSound(w);
    CountersAlwaysAgree(w, steps, w.zone.eventAvailable);
    AlwaysSound(w, steps);
    hide Possible, AfterSteps, Claimed;
    ClaimedNotNegative(AfterSteps(w, steps), U.Buyer(u));
  }

  /** Every claim is made under this limit. */
  predicate LimitIs(steps: seq<Step>, limit: int) {
    forall i :: 0 <= i < |steps| && steps[i].Reserve? ==> steps[i].claim.limit <= limit
  }

  lemma ReleaseGivesBackSeats(w: World, s: Step)
    requires Inv(w) && Enabled(w, s) && (s.RefundEntry? || s.ReturnSeats?) && Gives(w, s).Some? && SizesOk(w.orders)
    ensures Gives(w, s).value.length >= 1
  {
    if s.RefundEntry? {
      hide Inv, Next, Enabled, ReleaseSucceeds, Claimed;
      ClaimedByRefund(w, s.t, U.Everyone);
    } else {
      hide Inv, ReleaseSucceeds;
    }
  }

  lemma ClaimsStayUnder(w: World, s: Step, total: int, u: int, limit: int)
    requires Inv(w) && Enabled(w, s) && CountersAgree(w, total) && (s.Reserve? ==> s.claim.limit <= limit)
    requires Held(w.zone.purchased, u) <= limit
    ensures Claimed(Next(w, s), U.Buyer(u)) <= limit
  {
    hide Inv, Next, Enabled, Claimed, Gives, AfterClaim;
    match s
    case Reserve(a) =>
      ReserveIsTheClaim(w, a);
      if ClaimOutcome(w.zone, a).Claimed? {
        ReserveCountsFor(w, a, total, u);
        QuotaAfterClaim(w.zone, a, u);
      }
    case RefundEntry(_) =>
      ReleaseMovesClaims(w, s, U.Buyer(u));
      if Gives(w, s).Some? {
        ReleaseGivesBackSeats(w, s);
      }
    case ReturnSeats(_) =>
      ReleaseMovesClaims(w, s, U.Buyer(u));
      if Gives(w, s).Some? {
        ReleaseGivesBackSeats(w, s);
      }
    case _ => OtherMovesNoClaims(w, s, U.Buyer(u));
  }

  lemma {:induction false} StaysUnderTheLimit(w: World, steps: seq<Step>, total: int, u: int, limit: int)
    requires Inv(w) && CountersAgree(w, total) && Possible(w, steps) && LimitIs(steps, limit)
    requires Held(w.zone.purchased, u) <= limit
    ensures Held(AfterSteps(w, steps).zone.purchased, u) <= limit
    decreases steps
  {
    hide Inv, Enabled, Next, Held;
    if steps != [] {
      var v := Next(w, steps[0]);
      StepCounts(w, steps[0], total);
      StepKeeps(w, steps[0]);
      ClaimsStayUnder(w, steps[0], total, u, limit);
      assert LimitIs(steps[1..], limit);
      StaysUnderTheLimit(v, steps[1..], total, u, limit);
    }
  }

  lemma UnreleasedOrderIsClaimed(w: World, o: nat)
    requires KeysOk(w.zone, w.orders) && SizesOk(w.orders) && o in w.orders && OrderMarker(o) !in w.zone.released
    ensures Claimed(w, U.Buyer(w.orders[o].user)) >= w.orders[o].place.length
  {
    var whose := U.Buyer(w.orders[o].user);
    SumNotNegative(U.EntryCounts(Plain(w.zone.stream), w.zone.released, PlainOrders(w.orders), whose));
    var counts: map<nat, int> := U.OrderCounts(w.zone.released, PlainOrders(w.orders), whose);
    assert counts[o] == w.orders[o].place.length;
    SumAtLeast(counts, o);
  }

  /** And no run takes a buyer over the limit. */
  lemma NobodyOverTheLimit(w: World, steps: seq<Step>, u: int, limit: nat)
    requires OnSale(w) && Possible(w, steps) && LimitIs(steps, limit)
    ensures Held(AfterSteps(w, steps).zone.purchased, u) <= limit
  {
    CountersStartRight(w);
    InitialIsSound(w);
    assert Held(w.zone.purchased, u) == 0;
    hide OnSale, Initial, Inv, Possible, AfterSteps, CountersAgree;
    StaysUnderTheLimit(w, steps, w.zone.eventAvailable, u, limit);
  }

  /** An order whose release never ran keeps its buyer's quota, also when a rebuild has put its seats up for sale again. */
  lemma UnreleasedOrderKeepsQuota(w: World, steps: seq<Step>, o: nat)
    requires OnSale(w) && Possible(w, steps) && o in AfterSteps(w, steps).orders
    requires OrderMarker(o) !in AfterSteps(w, steps).zone.released
    ensures var v := AfterSteps(w, steps); Held(v.zone.purchased, v.orders[o].user) >= v.orders[o].place.length >= 1
  {
    CountersStartRight(w);
    InitialIsSound(w);
    hide OnSale, Initial, Possible, AfterSteps, Balance, KeysOk, MarkersOk, HoldsOk, TasksOk, Claimed, Held;
    CountersAlwaysAgree(w, steps, w.zone.eventAvailable);
    AlwaysSound(w, steps);
    var v := AfterSteps(w, steps);
    UnreleasedOrderIsClaimed(v, o);
    assert Held(v.zone.purchased, v.orders[o].user) == Claimed(v, U.Buyer(v.orders[o].user));
  }

  // ------------------------------------------------------------------ the event counter against the runs

  function Lengths(orders: map<nat, SeatedOrder>, some: set<nat>): map<nat, int> {
    map o | o in some && o in orders :: orders[o].place.length
  }

  ghost function SeatsOf(orders: map<nat, SeatedOrder>, some: set<nat>): int {
    Sum(Lengths(orders, some))
  }

  function AsOwners(some: set<nat>): set<Owner> {
    set o | o in some :: OfOrder(o)
  }

  lemma OneOrderLess(orders: map<nat, SeatedOrder>, some: set<nat>, o: nat)
    requires o in some && o in orders
    ensures SeatsOf(orders, some) == orders[o].place.length + SeatsOf(orders, some - {o})
  {
    SumWithout(Lengths(orders, some), o);
    assert Lengths(orders, some) - {o} == Lengths(orders, some - {o});
  }

  lemma OneOwnerLess(owned: map<Owner, Hold>, out: set<nat>, o: nat)
    requires o in out
    ensures owned - AsOwners(out) == (owned - {OfOrder(o)}) - AsOwners(out - {o})
  {
    assert AsOwners(out) == AsOwners(out - {o}) + {OfOrder(o)};
  }

  lemma OneComesFree(z: Zone, owned: map<Owner, Hold>, id: nat, o: SeatedOrder)
    requires Balance(z, owned) && OrderMarker(id) !in z.released && OfOrder(id) in owned && owned[OfOrder(id)] == o.place
    ensures var v := AfterRelease(z, ReturnArgs(id, o));
      && Balance(v, owned - {OfOrder(id)}) && Seats(v.free) == Seats(z.free) + o.place.length
      && v.geom == z.geom && v.released == z.released + {OrderMarker(id)}
  {
    var a := ReturnArgs(id, o);
    assert owned[OfOrder(id)] in owned.Values;
    ReleaseRemovesOwner(z, owned, a, OfOrder(id));
    SeatsRelease(z.free, a.block, a.start, a.End());
    hide ReleaseSet, Seats, Taken;
  }

  /** Orders that own their seats and have not been released. */
  ghost predicate CanBeReleased(z: Zone, owned: map<Owner, Hold>, orders: map<nat, SeatedOrder>, some: set<nat>) {
    forall o :: o in some ==> o in orders && OrderMarker(o) !in z.released && OfOrder(o) in owned && owned[OfOrder(o)] == orders[o].place
  }

  lemma NothingLeftOut(z: Zone, owned: map<Owner, Hold>, orders: map<nat, SeatedOrder>, free: set<Run>)
    requires Balance(z, owned) && IsComplement(free, z.geom, (owned - AsOwners({})).Values)
    ensures free == z.free && SeatsOf(orders, {}) == 0
  {
    assert owned - AsOwners({}) == owned;
    ComplementIsUnique(free, z.free, z.geom, owned.Values);
    assert Lengths(orders, {}) == map[];
  }

  lemma RestCanBeReleased(z: Zone, v: Zone, owned: map<Owner, Hold>, orders: map<nat, SeatedOrder>, out: set<nat>, o: nat)
    requires CanBeReleased(z, owned, orders, out) && v.released == z.released + {OrderMarker(o)}
    ensures CanBeReleased(v, owned - {OfOrder(o)}, orders, out - {o})
  {
  }

  /** Leaving some orders out of the complement frees exactly their seats: it is as if each had been released. */
  lemma {:induction false} LeftOutSeatsComeFree(z: Zone, owned: map<Owner, Hold>, orders: map<nat, SeatedOrder>, out: set<nat>, free: set<Run>)
    requires Balance(z, owned) && IsComplement(free, z.geom, (owned - AsOwners(out)).Values)
    requires CanBeReleased(z, owned, orders, out)
    ensures Seats(free) == Seats(z.free) + SeatsOf(orders, out)
    decreases out
  {
    hide Balance, IsComplement, Seats, AfterRelease, AsOwners, SeatsOf;
    if out == {} {
      NothingLeftOut(z, owned, orders, free);
    } else {
      var o :| o in out;
      assert OfOrder(o) in owned && owned[OfOrder(o)] == orders[o].place && OrderMarker(o) !in z.released;
      var v := AfterRelease(z, ReturnArgs(o, orders[o]));
      OneComesFree(z, owned, o, orders[o]);
      OneOrderLess(orders, out, o);
      OneOwnerLess(owned, out, o);
      RestCanBeReleased(z, v, owned, orders, out, o);
      hide CanBeReleased;
      LeftOutSeatsComeFree(v, owned - {OfOrder(o)}, orders, out - {o}, free);
    }
  }

  /** The orders whose seats a write puts up for sale: in limbo, and their hold row not seen. */
  ghost function Unseen(w: World, s: Step): set<nat>
    requires Enabled(w, s)
  {
    if s.WriteRuns? then w.limbo - w.tasks[s.t].read.Keys else {}
  }

  lemma OwnersAreKept(w: World, read: map<nat, Hold>)
    requires w.holds.Keys <= read.Keys <= w.holds.Keys + w.limbo && w.holds.Keys !! w.limbo
    requires forall e :: e in w.zone.stream ==> !InFlight(w.zone.released, w.orders, w.zone.stream[e])
    ensures Owned(w.zone.stream, w.zone.released, w.orders, read.Keys) == OwnedIn(w) - AsOwners(w.limbo - read.Keys)
  {
    var out, owned := w.limbo - read.Keys, OwnedIn(w);
    hide InFlight;
    forall x ensures x in owned <==> Owns(w.zone.stream, w.zone.released, w.orders, w.holds.Keys + w.limbo, x) {
      OwnedMeaning(w.zone.stream, w.zone.released, w.orders, w.holds.Keys + w.limbo, x);
    }
    hide Owned;
    OwnedIs(w.zone.stream, w.zone.released, w.orders, read.Keys, owned - AsOwners(out));
  }

  lemma LimboCanBeReleased(w: World, out: set<nat>)
    requires MarkersOk(w.zone.released, w.zone.claims, w.orders, w.holds, w.limbo) && HoldsOk(w.orders, w.holds, w.limbo) && out <= w.limbo
    ensures CanBeReleased(w.zone, OwnedIn(w), w.orders, out)
  {
    forall o | o in out ensures OfOrder(o) in OwnedIn(w) && OwnedIn(w)[OfOrder(o)] == w.orders[o].place {
      OwnedMeaning(w.zone.stream, w.zone.released, w.orders, w.holds.Keys + w.limbo, OfOrder(o));
    }
  }

  lemma BalanceIsComplement(z: Zone, owned: map<Owner, Hold>)
    requires Balance(z, owned)
    ensures IsComplement(z.free, z.geom, owned.Values)
  {
  }

  /** A write moves the runs by the unseen seats, and not the event counter. */
  lemma WriteMovesApart(w: World, t: nat, free: set<Run>)
    requires Inv(w) && Enabled(w, WriteRuns(t, free))
    ensures Seats(free) == Seats(w.zone.free) + SeatsOf(w.orders, Unseen(w, WriteRuns(t, free)))
  {
    var read, out := w.tasks[t].read, Unseen(w, WriteRuns(t, free));
    assert w.holds.Keys !! w.limbo;
    hide Balance, KeysOk, MarkersOk, HoldsOk, TasksOk, InFlight, IsComplement, Owned, OwnedIn, Seats, SeatsOf, CanBeReleased;
    ReadIsSnapshot(w, t, free);
    RebuildBalances(w, read, free);
    OwnersAreKept(w, read);
    BalanceIsComplement(w.zone.(free := free), Owned(w.zone.stream, w.zone.released, w.orders, read.Keys));
    LimboCanBeReleased(w, out);
    LeftOutSeatsComeFree(w.zone, OwnedIn(w), w.orders, out, free);
  }

  // ------------------------------------------------------------------ over whole runs

  /** Seats the rebuilds of a run put up for sale while their orders still counted as taken. */
  ghost function FreedUnseen(w: World, steps: seq<Step>): int
    requires Possible(w, steps)
    decreases steps
  {
    if steps == [] then 0 else SeatsOf(w.orders, Unseen(w, steps[0])) + FreedUnseen(Next(w, steps[0]), steps[1..])
  }

  /** No rebuild of the run left out an order whose hold row was gone but whose seats were not back. */
  ghost predicate RebuildsSeeAll(w: World, steps: seq<Step>)
    requires Possible(w, steps)
    decreases steps
  {
    steps == [] || (Unseen(w, steps[0]) == {} && RebuildsSeeAll(Next(w, steps[0]), steps[1..]))
  }

  lemma SeatsOfSome(orders: map<nat, SeatedOrder>, some: set<nat>)
    requires SizesOk(orders) && some <= orders.Keys
    ensures SeatsOf(orders, some) >= 0 && (SeatsOf(orders, some) == 0 <==> some == {})
  {
    SumNotNegative(Lengths(orders, some));
    if some == {} {
      assert Lengths(orders, some) == map[];
    } else {
      var o :| o in some;
      SumAtLeast(Lengths(orders, some), o);
    }
  }

  lemma InvIsSound(w: World)
    requires Inv(w)
    ensures Sound(w.zone)
  {
    hide KeysOk, MarkersOk, HoldsOk, TasksOk;
    forall r | r in w.zone.free ensures r.block in w.zone.geom && 0 <= r.start && r.End() <= w.zone.geom[r.block].capacity {
      RunsExist(w.zone, OwnedIn(w).Values, r);
    }
  }

  lemma ReleaseIsNotEmpty(w: World, s: Step)
    requires Inv(w) && Enabled(w, s) && (s.RefundEntry? || s.ReturnSeats?) && Gives(w, s).Some?
    ensures Gives(w, s).value.length >= 1
  {
    hide Inv, ReleaseSucceeds, InsideBlock, Taken;
    GivesSucceeds(w, s);
    assert Gives(w, s).value.marker !in w.zone.released by {
      SucceedsOnce(w.zone, Gives(w, s).value);
    }
    if s.RefundEntry? {
      R.RefundHasSeats(w, s.t);
    } else {
      R.ReturnHasSeats(w, s.t);
    }
  }

  lemma SucceedsOnce(z: Zone, a: ReleaseArgs)
    requires ReleaseSucceeds(z, a)
    ensures a.marker !in z.released
  {
  }

  lemma ReleaseMovesTogether(w: World, s: Step)
    requires Inv(w) && Enabled(w, s) && (s.RefundEntry? || s.ReturnSeats?)
    ensures var v := Next(w, s); v.zone.eventAvailable - Seats(v.zone.free) == w.zone.eventAvailable - Seats(w.zone.free)
  {
    InvIsSound(w);
    hide Inv, Next, Enabled, Gives, Claimed, Seats, ReleaseSet;
    ReleaseMovesClaims(w, s, U.Everyone);
    if Gives(w, s).Some? {
      var a := Gives(w, s).value;
      GivesSucceeds(w, s);
      ReleaseIsNotEmpty(w, s);
      SeatsRelease(w.zone.free, a.block, a.start, a.End());
    }
  }

  lemma ReserveMovesTogether(w: World, a: ClaimArgs)
    requires Inv(w) && Enabled(w, Reserve(a))
    ensures var v := Next(w, Reserve(a)); v.zone.eventAvailable - Seats(v.zone.free) == w.zone.eventAvailable - Seats(w.zone.free)
  {
    InvIsSound(w);
    ReserveIsTheClaim(w, a);
    CommandKeepsEventTotal(w.zone, Command.Claim(a));
    hide Inv, Next, Seats, OccupySet;
  }

  /** Scripts move the event counter and the zone's free seats together; only a rebuild moves one without the other. */
  lemma StepMovesApart(w: World, s: Step)
    requires Inv(w) && Enabled(w, s)
    ensures var v := Next(w, s);
      Seats(v.zone.free) - v.zone.eventAvailable == Seats(w.zone.free) - w.zone.eventAvailable + SeatsOf(w.orders, Unseen(w, s))
  {
    hide *;
    match s
    case Reserve(a) => ReserveMovesTogether(w, a); NothingUnseen(w, s);
    case RefundEntry(_) => ReleaseMovesTogether(w, s); NothingUnseen(w, s);
    case ReturnSeats(_) => ReleaseMovesTogether(w, s); NothingUnseen(w, s);
    case WriteRuns(t, free) => WriteMovesApart(w, t, free); WriteSetsRuns(w, t, free);
    case _ => OtherLeavesCounters(w, s); R.OthersLeaveRuns(w, s, 0, 0); NothingUnseen(w, s);
  }

  lemma NothingUnseen(w: World, s: Step)
    requires Enabled(w, s) && !s.WriteRuns?
    ensures SeatsOf(w.orders, Unseen(w, s)) == 0
  {
    assert Lengths(w.orders, {}) == map[];
  }

  lemma WriteSetsRuns(w: World, t: nat, free: set<Run>)
    requires Enabled(w, WriteRuns(t, free))
    ensures Next(w, WriteRuns(t, free)).zone == w.zone.(free := free)
  {
    hide RunsMayBe, IsComplement;
  }

  lemma UnseenAreOrders(w: World, s: Step)
    requires Inv(w) && Enabled(w, s)
    ensures Unseen(w, s) <= w.orders.Keys
  {
    hide Balance, KeysOk, MarkersOk, TasksOk, IsComplement, RunsMayBe;
  }

  /** The event counter and the zone drift apart by exactly the seats that rebuilds freed unseen. */
  lemma {:induction false} DriftIsFreedSeats(w: World, steps: seq<Step>)
    requires Inv(w) && SizesOk(w.orders) && Possible(w, steps)
    ensures var v := AfterSteps(w, steps);
      Seats(v.zone.free) - v.zone.eventAvailable == Seats(w.zone.free) - w.zone.eventAvailable + FreedUnseen(w, steps)
    ensures FreedUnseen(w, steps) >= 0 && (FreedUnseen(w, steps) == 0 <==> RebuildsSeeAll(w, steps))
    decreases steps
  {
    hide Inv, Next, Enabled, SizesOk, Seats, SeatsOf, Unseen;
    if steps != [] {
      StepMovesApart(w, steps[0]);
      UnseenAreOrders(w, steps[0]);
      SeatsOfSome(w.orders, Unseen(w, steps[0]));
      StepKeeps(w, steps[0]);
      SizesStay(w, steps[0]);
      DriftIsFreedSeats(Next(w, steps[0]), steps[1..]);
    }
  }

  /** Starting in agreement, event counter and zone agree after any run, rebuilds included, if and only if no rebuild
      met an order whose hold row was gone but whose seats were not back. */
  lemma EventAgreesIff(w: World, steps: seq<Step>)
    requires Initial(w) && Possible(w, steps) && w.zone.eventAvailable == Seats(w.zone.free)
    ensures var v := AfterSteps(w, steps); v.zone.eventAvailable == Seats(v.zone.free) <==> RebuildsSeeAll(w, steps)
  {
    InitialIsSound(w);
    assert SizesOk(w.orders);
    hide Inv, Initial, Possible, AfterSteps, Seats;
    DriftIsFreedSeats(w, steps);
  }
}
