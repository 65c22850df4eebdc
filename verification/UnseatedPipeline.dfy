/**
 * The life of an order of an event without a seat map, from the reserve script to the outbox relay.
 * Every Redis script, SQL transaction and MULTI/EXEC block is one step; workers hold their place in `tasks`,
 * so any number of them interleave and any of them may stop between two steps.
 */
module UnseatedPipeline {
  import opened Basics
  import opened Quota
  import opened Orders
  import opened Inventory
  import opened UnseatedLedger
  import opened Delivery

  /** What one worker has in hand between two atomic steps. */
  datatype Task =
    | Persisting(entry: nat, intent: Intent)
    | Acking(entry: nat)
    | Judged(entry: nat, intent: Intent, persisted: bool)
    | Failing(entry: nat, intent: Intent)
    | Releasing(order: nat, row: Option<nat>)
    | Marking(done: nat)
    | CountingSold
    | WritingStock(sold: int)
    | CountingHolders
    | WritingQuotas(quotas: map<int, int>)

  datatype World = World(
    stock: Stock,
    total: int,
    limit: int,
    orders: map<nat, Order>,
    deliveries: map<nat, nat>,
    outbox: map<nat, Row>,
    tasks: map<nat, Task>
  )

  datatype Step =
    | Reserve(intent: Intent)
    | Deliver(t: nat, entry: nat)
    | Insert(t: nat, order: nat)
    | FindDuplicate(t: nat)
    | Ack(t: nat)
    | GiveUp(t: nat, entry: nat)
    | RefundEntry(t: nat)
    | FailClaim(t: nat)
    | Decide(order: nat, status: Status, row: nat, t: nat)
    | ReleaseSeats(t: nat)
    | ClaimRow(t: nat, row: nat, now: int)
    | MarkRow(t: nat)
    | Stop(t: nat)
    | CheckBacklog(t: nat, force: bool)
    | ReadSold(t: nat)
    | WriteStock(t: nat)
    | ReadHolders(t: nat)
    | WriteQuotas(t: nat)

  ghost predicate Enabled(w: World, s: Step) {
    match s
    case Reserve(i) => i.quantity >= 1
    case Deliver(t, e) => t !in w.tasks && e in w.stock.stream && AttemptsOn(w.deliveries, e) < MAX_DELIVERIES
    case Insert(t, o) =>
      t in w.tasks && w.tasks[t].Persisting? && !Persisted(w.orders, w.tasks[t].intent.key) && o !in w.orders
    case FindDuplicate(t) => t in w.tasks && w.tasks[t].Persisting? && Persisted(w.orders, w.tasks[t].intent.key)
    case Ack(t) => t in w.tasks && w.tasks[t].Acking?
    // The idle threshold keeps a worker from giving up while an earlier delivery is still being persisted.
    case GiveUp(t, e) =>
      && t !in w.tasks && e in w.stock.stream && AttemptsOn(w.deliveries, e) >= MAX_DELIVERIES
      && NobodyPersists(w.tasks, e)
    case RefundEntry(t) => t in w.tasks && w.tasks[t].Judged?
    case FailClaim(t) => t in w.tasks && w.tasks[t].Failing?
    case Decide(o, status, row, t) =>
      && o in w.orders && status in ValidTransitions(w.orders[o].status)
      && (status.OwesRelease() ==> row !in w.outbox && t !in w.tasks)
    case ReleaseSeats(t) => t in w.tasks && w.tasks[t].Releasing? && w.tasks[t].order in w.orders
    case ClaimRow(t, r, now) =>
      && t !in w.tasks && r in w.outbox
      && !w.outbox[r].processed && w.outbox[r].due <= now && w.outbox[r].attempts < OUTBOX_MAX_ATTEMPTS
    case MarkRow(t) => t in w.tasks && w.tasks[t].Marking? && w.tasks[t].done in w.outbox
    case Stop(t) => t in w.tasks
    case CheckBacklog(t, force) => t !in w.tasks && (force || w.stock.stream == map[])
    case ReadSold(t) => t in w.tasks && w.tasks[t].CountingSold?
    // The code writes unconditionally; `StockWriteIsRightIff` and `QuotaWriteIsRightIff` say when it may.
    case WriteStock(t) => t in w.tasks && w.tasks[t].WritingStock? && StockMayBe(w, w.total - w.tasks[t].sold)
    case ReadHolders(t) => t in w.tasks && w.tasks[t].CountingHolders?
    case WriteQuotas(t) => t in w.tasks && w.tasks[t].WritingQuotas? && QuotasMayBe(w, w.tasks[t].quotas)
  }

  /** Writing this counter conserves seats. */
  ghost predicate StockMayBe(w: World, available: int) {
    available == w.total - Taken(w.stock.stream, w.stock.released, w.orders, Everyone)
  }

  /** Writing this hash leaves every buyer with the quota of that buyer's live claims. */
  ghost predicate QuotasMayBe(w: World, quotas: map<int, int>) {
    forall u :: Held(quotas, u) == Taken(w.stock.stream, w.stock.released, w.orders, Buyer(u))
  }

  ghost predicate NobodyPersists(tasks: map<nat, Task>, e: nat) {
    forall t :: t in tasks && tasks[t].Persisting? ==> tasks[t].entry != e
  }

  ghost function Next(w: World, s: Step): World
    requires Enabled(w, s)
  {
    match s
    case Reserve(i) => w.(stock := AfterReserve(w.stock, i, w.limit))
    case Deliver(t, e) =>
      w.(deliveries := w.deliveries[e := AttemptsOn(w.deliveries, e) + 1],
         tasks := w.tasks[t := Persisting(e, w.stock.stream[e])])
    case Insert(t, o) =>
      w.(orders := w.orders[o := RowOf(w.tasks[t].intent)], tasks := w.tasks[t := Acking(w.tasks[t].entry)])
    case FindDuplicate(t) => w.(tasks := w.tasks[t := Acking(w.tasks[t].entry)])
    case Ack(t) => w.(stock := w.stock.(stream := w.stock.stream - {w.tasks[t].entry}), tasks := w.tasks - {t})
    case GiveUp(t, e) =>
      w.(deliveries := w.deliveries[e := AttemptsOn(w.deliveries, e) + 1],
         tasks := w.tasks[t := Judged(e, w.stock.stream[e], Persisted(w.orders, w.stock.stream[e].key))])
    case RefundEntry(t) =>
      var i := w.tasks[t].intent;
      w.(stock := if w.tasks[t].persisted then w.stock else AfterRelease(w.stock, i.user, i.quantity, DeadLetterMarker(i.key)),
         tasks := w.tasks[t := Failing(w.tasks[t].entry, i)])
    case FailClaim(t) =>
      w.(stock := w.stock.(claims := w.stock.claims[w.tasks[t].intent.key := ClaimFailed]),
         tasks := w.tasks[t := Acking(w.tasks[t].entry)])
    case Decide(o, status, row, t) =>
      var moved := w.(orders := w.orders[o := w.orders[o].(status := status)]);
      if status.OwesRelease() then
        moved.(outbox := w.outbox[row := Row(o, 0, 0, false)], tasks := w.tasks[t := Releasing(o, None)])
      else moved
    case ReleaseSeats(t) =>
      var o := w.tasks[t].order;
      w.(stock := AfterRelease(w.stock, w.orders[o].user, w.orders[o].quantity, OrderMarker(o)),
         tasks := if w.tasks[t].row.Some? then w.tasks[t := Marking(w.tasks[t].row.value)] else w.tasks - {t})
    case ClaimRow(t, r, now) =>
      w.(outbox := w.outbox[r := w.outbox[r].(attempts := w.outbox[r].attempts + 1, due := now + Lease(w.outbox[r].attempts))],
         tasks := w.tasks[t := Releasing(w.outbox[r].order, Some(r))])
    case MarkRow(t) =>
      w.(outbox := w.outbox[w.tasks[t].done := w.outbox[w.tasks[t].done].(processed := true)], tasks := w.tasks - {t})
    case Stop(t) => w.(tasks := w.tasks - {t})
    case CheckBacklog(t, _) => w.(tasks := w.tasks[t := CountingSold])
    case ReadSold(t) => w.(tasks := w.tasks[t := WritingStock(HeldSeats(w.orders, Everyone))])
    case WriteStock(t) =>
      w.(stock := w.stock.(available := Some(w.total - w.tasks[t].sold)), tasks := w.tasks[t := CountingHolders])
    case ReadHolders(t) => w.(tasks := w.tasks[t := WritingQuotas(ExpectedQuotas(w.orders))])
    case WriteQuotas(t) => w.(stock := w.stock.(purchased := w.tasks[t].quotas), tasks := w.tasks - {t})
  }

  /** `compute_expected_available`: what the database says is left. */
  ghost function ExpectedAvailable(total: int, orders: map<nat, Order>): int {
    total - HeldSeats(orders, Everyone)
  }

  /** `compute_expected_quotas`: what the database says each buyer holds; buyers without a holding order have no field. */
  ghost function ExpectedQuotas(orders: map<nat, Order>): map<int, int> {
    map u | u in Holders(orders) :: HeldSeats(orders, Buyer(u))
  }

  ghost function Holders(orders: map<nat, Order>): set<int> {
    set o | o in orders && orders[o].status.Holding() :: orders[o].user
  }

  /** What `reconcile_inventory` writes when nothing happens between its reads and its writes. */
  ghost function Reconciled(w: World): Stock {
    w.stock.(available := Some(ExpectedAvailable(w.total, w.orders)), purchased := ExpectedQuotas(w.orders))
  }

  ghost predicate Possible(w: World, steps: seq<Step>)
    decreases steps
  {
    steps == [] || (Enabled(w, steps[0]) && Possible(Next(w, steps[0]), steps[1..]))
  }

  ghost function AfterSteps(w: World, steps: seq<Step>): World
    requires Possible(w, steps)
    decreases steps
  {
    if steps == [] then w else AfterSteps(Next(w, steps[0]), steps[1..])
  }

  lemma NoSteps(w: World)
    ensures Possible(w, []) && AfterSteps(w, []) == w
  {
  }

  /** A run grows by one step at its end. */
  lemma {:induction false} ThenOne(w: World, steps: seq<Step>, s: Step)
    requires Possible(w, steps) && Enabled(AfterSteps(w, steps), s)
    ensures Possible(w, steps + [s]) && AfterSteps(w, steps + [s]) == Next(AfterSteps(w, steps), s)
    decreases steps
  {
    hide Enabled, Next;
    var more := steps + [s];
    if steps == [] {
      assert more == [s];
      assert more[1..] == [];
    } else {
      ThenOne(Next(w, steps[0]), steps[1..], s);
      assert more[0] == steps[0];
      assert more[1..] == steps[1..] + [s];
    }
  }

  /** `steps` lead from `w` to `v`. */
  ghost predicate Ran(w: World, steps: seq<Step>, v: World) {
    Possible(w, steps) && AfterSteps(w, steps) == v
  }

  lemma RanNothing(w: World)
    ensures Ran(w, [], w)
  {
  }

  lemma RanOneMore(w: World, steps: seq<Step>, u: World, s: Step)
    requires Ran(w, steps, u) && Enabled(u, s)
    ensures Ran(w, steps + [s], Next(u, s))
  {
    ThenOne(w, steps, s);
  }

  // ------------------------------------------------------------------ what every step keeps

  /** The counters agree with the claims on them. */
  ghost predicate LedgerOk(s: Stock, total: int, limit: int, orders: map<nat, Order>) {
    && s.available == Some(total - Taken(s.stream, s.released, orders, Everyone))
    && s.available.value >= 0
    && (forall u :: QuotaOk(s, limit, orders, u))
  }

  /** A buyer's quota is the sum of that buyer's claims; a field exists only while it is positive. */
  ghost predicate QuotaOk(s: Stock, limit: int, orders: map<nat, Order>, u: int) {
    && Held(s.purchased, u) == Taken(s.stream, s.released, orders, Buyer(u)) <= limit
    && (u in s.purchased ==> s.purchased[u] >= 1)
  }

  ghost predicate KeysOk(s: Stock, orders: map<nat, Order>) {
    && KeysAreUnique(s.stream, orders)
    && (forall e :: e in s.stream ==> e < s.nextId && s.stream[e].key in s.claims && s.stream[e].quantity >= 1)
    && (forall o :: o in orders ==> orders[o].key in s.claims && orders[o].quantity >= 1)
  }

  ghost predicate MarkersOk(s: Stock, orders: map<nat, Order>) {
    && (forall o :: OrderMarker(o) in s.released ==> o in orders && orders[o].status.OwesRelease())
    && (forall k :: DeadLetterMarker(k) in s.released ==> k in s.claims && !Persisted(orders, k))
  }

  /** What a worker may rely on between its steps. */
  ghost predicate TaskOk(task: Task, s: Stock, orders: map<nat, Order>, deliveries: map<nat, nat>, outbox: map<nat, Row>) {
    match task
    case Persisting(e, i) =>
      && e in deliveries && deliveries[e] <= MAX_DELIVERIES
      && (e in s.stream ==> s.stream[e] == i)
      && DeadLetterMarker(i.key) !in s.released
      && (Persisted(orders, i.key) || e in s.stream)
    case Acking(e) => e in deliveries && (e in s.stream ==> !InFlight(s.released, orders, s.stream[e]))
    case Judged(e, i, persisted) =>
      && e in deliveries && deliveries[e] > MAX_DELIVERIES
      && (e in s.stream ==> s.stream[e] == i)
      && (if persisted then Persisted(orders, i.key)
          else DeadLetterMarker(i.key) in s.released || (e in s.stream && InFlight(s.released, orders, i)))
    case Failing(e, i) =>
      && e in deliveries
      && (e in s.stream ==> s.stream[e] == i)
      && !InFlight(s.released, orders, i)
    case Releasing(o, row) =>
      && o in orders && orders[o].status.OwesRelease()
      && (row.Some? ==> row.value in outbox && outbox[row.value].order == o)
    case Marking(r) => r in outbox && OrderMarker(outbox[r].order) in s.released
    case WritingQuotas(quotas) => forall u :: u in quotas ==> quotas[u] >= 1
    case _ => true
  }

  ghost predicate TasksOk(w: World) {
    && (forall t :: t in w.tasks ==> TaskOk(w.tasks[t], w.stock, w.orders, w.deliveries, w.outbox))
    && (forall e :: e in w.deliveries ==> e < w.stock.nextId)
    && (forall e :: e in w.stock.stream && AttemptsOn(w.deliveries, e) <= MAX_DELIVERIES ==>
          DeadLetterMarker(w.stock.stream[e].key) !in w.stock.released)
  }

  /** Outbox rows and finished orders match one to one, and a processed row is a kept promise. */
  ghost predicate OutboxOk(released: set<Marker>, orders: map<nat, Order>, outbox: map<nat, Row>) {
    && (forall r :: r in outbox ==>
          && outbox[r].order in orders && orders[outbox[r].order].status.OwesRelease()
          && outbox[r].attempts <= OUTBOX_MAX_ATTEMPTS
          && (outbox[r].processed ==> OrderMarker(outbox[r].order) in released))
    && (forall q, r {:trigger outbox[q], outbox[r]} :: q in outbox && r in outbox && outbox[q].order == outbox[r].order ==> q == r)
    && (forall o :: o in orders && orders[o].status.OwesRelease() ==> HasRow(outbox, o))
  }

  ghost predicate Inv(w: World) {
    && LedgerOk(w.stock, w.total, w.limit, w.orders)
    && KeysOk(w.stock, w.orders)
    && MarkersOk(w.stock, w.orders)
    && TasksOk(w)
    && OutboxOk(w.stock.released, w.orders, w.outbox)
  }
}
