/**
 * The life of a seated order: claim script, database, hold row, release. As in the unseated pipeline every
 * script and transaction is one step and workers may stop anywhere; what is new is that returning seats takes
 * three steps (read the hold, delete it and commit, run the script), with the seats in limbo between the last two.
 */
module SeatedPipeline {
  import opened Basics
  import opened Quota
  import opened Orders
  import opened RunSets
  import opened SeatZone
  import opened SeatComplement
  import opened SeatOwners
  import opened Delivery

  datatype Task =
    | Persisting(entry: nat, intent: Intent)
    | Acking(entry: nat)
    | Judged(entry: nat, intent: Intent, persisted: bool)
    | Releasing(order: nat, row: Option<nat>)
    | Dropping(order: nat, row: Option<nat>)
    | Returning(order: nat, row: Option<nat>)
    | Marking(done: nat)
    | ReadingHolds
    | WritingRuns(read: map<nat, Hold>)
  {
    /** Has read the hold row of an order and will run the release script for it. */
    predicate WillReturn(o: nat) {
      (Dropping? || Returning?) && order == o
    }
  }

  datatype World = World(
    zone: Zone,
    orders: map<nat, SeatedOrder>,
    holds: map<nat, Hold>,
    limbo: set<nat>,
    deliveries: map<nat, nat>,
    outbox: map<nat, Row>,
    tasks: map<nat, Task>
  )

  datatype Step =
    | Reserve(claim: ClaimArgs)
    | Deliver(t: nat, entry: nat)
    | Insert(t: nat, order: nat)
    | FindDuplicate(t: nat)
    | Ack(t: nat)
    | GiveUp(t: nat, entry: nat)
    | RefundEntry(t: nat)
    | Decide(order: nat, status: Status, row: nat, t: nat)
    | ReadHold(t: nat)
    | DropHold(t: nat)
    | ReturnSeats(t: nat)
    | ClaimRow(t: nat, row: nat, now: int)
    | MarkRow(t: nat)
    | Stop(t: nat)
    | CheckBacklog(t: nat, force: bool)
    | ReadHolds(t: nat)
    | WriteRuns(t: nat, free: set<Run>)

  /** The EXCLUDE constraint lets a hold in. */
  ghost predicate ExcludeAllows(holds: map<nat, Hold>, h: Hold) {
    forall o :: o in holds ==> NoShare(holds[o], h)
  }

  ghost predicate NobodyPersists(tasks: map<nat, Task>, e: nat) {
    forall t :: t in tasks && tasks[t].Persisting? ==> tasks[t].entry != e
  }

  /** No release that has read its hold is still to run for one of these orders. */
  ghost predicate NoReturnPending(tasks: map<nat, Task>, orders: set<nat>) {
    forall t :: t in tasks && (tasks[t].Dropping? || tasks[t].Returning?) ==> tasks[t].order !in orders
  }

  /**
   * Writing the complement of the hold rows read earlier leaves everybody's seats alone: nothing is in flight,
   * the orders read are those that still have their seats, and no pending return meets seats the write has freed.
   */
  ghost predicate RunsMayBe(w: World, read: map<nat, Hold>) {
    && (forall e :: e in w.zone.stream ==> !InFlight(w.zone.released, w.orders, w.zone.stream[e]))
    && w.holds.Keys <= read.Keys <= w.holds.Keys + w.limbo
    && NoReturnPending(w.tasks, w.limbo - read.Keys)
  }

  function RefundArgs(i: Intent): ReleaseArgs {
    ReleaseArgs(i.user, i.block, i.start, i.quantity, DeadLetterMarker(i.key))
  }

  function ReturnArgs(id: nat, o: SeatedOrder): ReleaseArgs {
    ReleaseArgs(o.user, o.place.block, o.place.start, o.place.length, OrderMarker(id))
  }

  ghost predicate Enabled(w: World, s: Step) {
    match s
    case Reserve(a) => a.length >= 1
    case Deliver(t, e) => t !in w.tasks && e in w.zone.stream && AttemptsOn(w.deliveries, e) < MAX_DELIVERIES
    case Insert(t, o) =>
      && t in w.tasks && w.tasks[t].Persisting? && !Persisted(w.orders, w.tasks[t].intent.key) && o !in w.orders
      && ExcludeAllows(w.holds, PlaceOf(w.tasks[t].intent))
    case FindDuplicate(t) => t in w.tasks && w.tasks[t].Persisting? && Persisted(w.orders, w.tasks[t].intent.key)
    case Ack(t) => t in w.tasks && w.tasks[t].Acking?
    case GiveUp(t, e) =>
      && t !in w.tasks && e in w.zone.stream && AttemptsOn(w.deliveries, e) >= MAX_DELIVERIES
      && NobodyPersists(w.tasks, e)
    case RefundEntry(t) => t in w.tasks && w.tasks[t].Judged?
    case Decide(o, status, row, t) =>
      && o in w.orders && status in ValidTransitions(w.orders[o].status)
      && (status.OwesRelease() ==> row !in w.outbox && t !in w.tasks)
    case ReadHold(t) => t in w.tasks && w.tasks[t].Releasing?
    case DropHold(t) => t in w.tasks && w.tasks[t].Dropping?
    case ReturnSeats(t) => t in w.tasks && w.tasks[t].Returning? && w.tasks[t].order in w.orders
    case ClaimRow(t, r, now) =>
      && t !in w.tasks && r in w.outbox
      && !w.outbox[r].processed && w.outbox[r].due <= now && w.outbox[r].attempts < OUTBOX_MAX_ATTEMPTS
    case MarkRow(t) => t in w.tasks && w.tasks[t].Marking? && w.tasks[t].done in w.outbox
    case Stop(t) => t in w.tasks
    case CheckBacklog(t, force) => t !in w.tasks && (force || w.zone.stream == map[])
    case ReadHolds(t) => t in w.tasks && w.tasks[t].ReadingHolds?
    // The code writes unconditionally; `RebuiltSeatIsRightIff` says, seat by seat, when it may.
    case WriteRuns(t, free) =>
      && t in w.tasks && w.tasks[t].WritingRuns? && RunsMayBe(w, w.tasks[t].read)
      && IsComplement(free, w.zone.geom, w.tasks[t].read.Values)
  }

  /** What a release turns to when it is over. */
  function Finished(tasks: map<nat, Task>, t: nat, row: Option<nat>): map<nat, Task> {
    if row.Some? then tasks[t := Marking(row.value)] else tasks - {t}
  }

  ghost function Next(w: World, s: Step): World
    requires Enabled(w, s)
  {
    match s
    case Reserve(a) => w.(zone := AfterClaim(w.zone, a))
    case Deliver(t, e) =>
      w.(deliveries := w.deliveries[e := AttemptsOn(w.deliveries, e) + 1],
         tasks := w.tasks[t := Persisting(e, w.zone.stream[e])])
    case Insert(t, o) =>
      var i := w.tasks[t].intent;
      w.(orders := w.orders[o := Seated(i)],
         holds := w.holds[o := PlaceOf(i)],
         tasks := w.tasks[t := Acking(w.tasks[t].entry)])
    case FindDuplicate(t) => w.(tasks := w.tasks[t := Acking(w.tasks[t].entry)])
    case Ack(t) => w.(zone := w.zone.(stream := w.zone.stream - {w.tasks[t].entry}), tasks := w.tasks - {t})
    case GiveUp(t, e) =>
      w.(deliveries := w.deliveries[e := AttemptsOn(w.deliveries, e) + 1],
         tasks := w.tasks[t := Judged(e, w.zone.stream[e], Persisted(w.orders, w.zone.stream[e].key))])
    case RefundEntry(t) =>
      w.(zone := if w.tasks[t].persisted then w.zone else AfterRelease(w.zone, RefundArgs(w.tasks[t].intent)),
         tasks := w.tasks[t := Acking(w.tasks[t].entry)])
    case Decide(o, status, row, t) =>
      var moved := w.(orders := w.orders[o := w.orders[o].(status := status)]);
      if status.OwesRelease() then
        moved.(outbox := w.outbox[row := Row(o, 0, 0, false)], tasks := w.tasks[t := Releasing(o, None)])
      else moved
    case ReadHold(t) =>
      var o, row := w.tasks[t].order, w.tasks[t].row;
      if o in w.holds then w.(tasks := w.tasks[t := Dropping(o, row)]) else w.(tasks := Finished(w.tasks, t, row))
    case DropHold(t) =>
      var o := w.tasks[t].order;
      w.(holds := w.holds - {o}, limbo := if o in w.holds then w.limbo + {o} else w.limbo,
         tasks := w.tasks[t := Returning(o, w.tasks[t].row)])
    case ReturnSeats(t) =>
      var o := w.tasks[t].order;
      w.(zone := AfterRelease(w.zone, ReturnArgs(o, w.orders[o])),
         limbo := w.limbo - {o},
         tasks := Finished(w.tasks, t, w.tasks[t].row))
    case ClaimRow(t, r, now) =>
      w.(outbox := w.outbox[r := w.outbox[r].(attempts := w.outbox[r].attempts + 1, due := now + Lease(w.outbox[r].attempts))],
         tasks := w.tasks[t := Releasing(w.outbox[r].order, Some(r))])
    case MarkRow(t) =>
      w.(outbox := w.outbox[w.tasks[t].done := w.outbox[w.tasks[t].done].(processed := true)], tasks := w.tasks - {t})
    case Stop(t) => w.(tasks := w.tasks - {t})
    case CheckBacklog(t, _) => w.(tasks := w.tasks[t := ReadingHolds])
    case ReadHolds(t) => w.(tasks := w.tasks[t := WritingRuns(w.holds)])
    case WriteRuns(t, free) =>
      w.(zone := w.zone.(free := free), limbo := w.limbo * w.tasks[t].read.Keys, tasks := w.tasks - {t})
  }

  ghost predicate Possible(w: World, steps: seq<Step>)
    decreases steps
  {
    steps == [] || (Enabled(w, steps[0]) && Possible(Next(w, steps[0]), steps[1..]))
  }

  ghost function AfterSteps(w: World, steps: seq<Step>): World
    requires Possible(w, steps)
    decreases steps
  {
    if steps == [] then w else AfterSteps(Next(w, steps[0]), steps[1..])
  }

  lemma NoSteps(w: World)
    ensures Possible(w, []) && AfterSteps(w, []) == w
  {
  }

  /** A run grows by one step at its end. */
  lemma {:induction false} ThenOne(w: World, steps: seq<Step>, s: Step)
    requires Possible(w, steps) && Enabled(AfterSteps(w, steps), s)
    ensures Possible(w, steps + [s]) && AfterSteps(w, steps + [s]) == Next(AfterSteps(w, steps), s)
    decreases steps
  {
    hide Enabled, Next;
    var more := steps + [s];
    if steps == [] {
      assert more == [s];
      assert more[1..] == [];
    } else {
      ThenOne(Next(w, steps[0]), steps[1..], s);
      assert more[0] == steps[0];
      assert more[1..] == steps[1..] + [s];
    }
  }

  /** One run after another is a run. */
  lemma {:induction false} ThenMore(w: World, steps: seq<Step>, more: seq<Step>)
    requires Possible(w, steps) && Possible(AfterSteps(w, steps), more)
    ensures Possible(w, steps + more) && AfterSteps(w, steps + more) == AfterSteps(AfterSteps(w, steps), more)
    decreases steps
  {
    hide Enabled, Next;
    var all := steps + more;
    if steps == [] {
      assert all == more;
    } else {
      ThenMore(Next(w, steps[0]), steps[1..], more);
      assert all[0] == steps[0];
      assert all[1..] == steps[1..] + more;
    }
  }

  // ------------------------------------------------------------------ what every step keeps

  ghost function OwnedIn(w: World): map<Owner, Hold> {
    Owned(w.zone.stream, w.zone.released, w.orders, w.holds.Keys + w.limbo)
  }

  ghost predicate KeysOk(z: Zone, orders: map<nat, SeatedOrder>) {
    && (forall e, f {:trigger z.stream[e], z.stream[f]} :: e in z.stream && f in z.stream && z.stream[e].key == z.stream[f].key ==> e == f)
    && (forall e :: e in z.stream ==> e < z.nextId && z.stream[e].key in z.claims && z.stream[e].quantity >= 1)
    && (forall o :: o in orders ==> orders[o].key in z.claims)
  }

  ghost predicate MarkersOk(released: set<Marker>, claims: set<nat>, orders: map<nat, SeatedOrder>, holds: map<nat, Hold>, limbo: set<nat>) {
    && (forall o :: OrderMarker(o) in released ==> o in orders && orders[o].status.OwesRelease() && o !in holds && o !in limbo)
    && (forall k :: DeadLetterMarker(k) in released ==> k in claims && !Persisted(orders, k))
  }

  /** Hold rows are what the orders were stored with; only finished orders lose theirs. */
  ghost predicate HoldsOk(orders: map<nat, SeatedOrder>, holds: map<nat, Hold>, limbo: set<nat>) {
    && (forall o :: o in holds ==> o in orders && holds[o] == orders[o].place)
    && (forall o :: o in limbo ==> o in orders && orders[o].status.OwesRelease() && o !in holds)
    && (forall o :: o in orders && orders[o].status.Holding() ==> o in holds)
  }

  /** A release of a finished order, on behalf of an outbox row of that order if any. */
  predicate Finishes(o: nat, row: Option<nat>, orders: map<nat, SeatedOrder>, outbox: map<nat, Row>) {
    && o in orders && orders[o].status.OwesRelease()
    && (row.Some? ==> row.value in outbox && outbox[row.value].order == o)
  }

  ghost predicate TaskOk(
      task: Task, z: Zone, orders: map<nat, SeatedOrder>, holds: map<nat, Hold>, limbo: set<nat>, deliveries: map<nat, nat>, outbox: map<nat, Row>) {
    match task
    case Persisting(e, i) =>
      && e in deliveries && deliveries[e] <= MAX_DELIVERIES
      && (e in z.stream ==> z.stream[e] == i)
      && DeadLetterMarker(i.key) !in z.released
      && (Persisted(orders, i.key) || e in z.stream)
    case Acking(e) => e in deliveries && (e in z.stream ==> !InFlight(z.released, orders, z.stream[e]))
    case Judged(e, i, persisted) =>
      && e in deliveries && deliveries[e] > MAX_DELIVERIES
      && (e in z.stream ==> z.stream[e] == i)
      && (if persisted then Persisted(orders, i.key)
          else DeadLetterMarker(i.key) in z.released || (e in z.stream && InFlight(z.released, orders, i)))
    case Releasing(o, row) => Finishes(o, row, orders, outbox)
    case Dropping(o, row) => Finishes(o, row, orders, outbox) && (o in holds || o in limbo || OrderMarker(o) in z.released)
    case Returning(o, row) => Finishes(o, row, orders, outbox) && o !in holds && (o in limbo || OrderMarker(o) in z.released)
    case Marking(r) => r in outbox && outbox[r].order !in holds
    case ReadingHolds => true
    case WritingRuns(read) => SeenHolds(read, orders)
  }

  /** Hold rows read earlier are what their orders were stored with. */
  ghost predicate SeenHolds(read: map<nat, Hold>, orders: map<nat, SeatedOrder>) {
    forall o :: o in read ==> o in orders && read[o] == orders[o].place
  }

  ghost predicate TasksOk(w: World) {
    && (forall t :: t in w.tasks ==> TaskOk(w.tasks[t], w.zone, w.orders, w.holds, w.limbo, w.deliveries, w.outbox))
    && (forall e :: e in w.deliveries ==> e < w.zone.nextId)
    && (forall e :: e in w.zone.stream && AttemptsOn(w.deliveries, e) <= MAX_DELIVERIES ==>
          DeadLetterMarker(w.zone.stream[e].key) !in w.zone.released)
    && (forall r :: r in w.outbox ==> w.outbox[r].order in w.orders && w.orders[w.outbox[r].order].status.OwesRelease())
    && (forall r :: r in w.outbox && w.outbox[r].processed ==> w.outbox[r].order !in w.holds)
  }

  ghost predicate Inv(w: World) {
    && Balance(w.zone, OwnedIn(w))
    && KeysOk(w.zone, w.orders)
    && MarkersOk(w.zone.released, w.zone.claims, w.orders, w.holds, w.limbo)
    && HoldsOk(w.orders, w.holds, w.limbo)
    && TasksOk(w)
  }

  /** A zone just rebuilt before sales open: nobody holds anything. */
  ghost predicate Initial(w: World) {
    && IsComplement(w.zone.free, w.zone.geom, {})
    && w.zone.claims == {} && w.zone.stream == map[] && w.zone.released == {}
    && w.orders == map[] && w.holds == map[] && w.limbo == {}
    && w.deliveries == map[] && w.outbox == map[] && w.tasks == map[]
  }
}
