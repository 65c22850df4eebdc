/**
 * Everyone who may move one order out of PENDING while its PaymentIntent lives a life of its own at Stripe:
 * the timeout cron, the Stripe-first sweep, two kinds of webhook, and the buyer.
 */
module Payments {
  import opened Basics
  import opened Orders
  import opened OrderRows

  datatype IntentState = NoIntent | Live | Canceled | Succeeded(received: Option<int>)

  /** One succeeded and one canceled event per intent, each delivered any number of times. */
  datatype Event = ChargeSucceeded | IntentCanceled

  datatype Decision = Confirmed | Refund | Nothing

  /** Who ended an order that was not confirmed. */
  datatype Ender = TimeoutCron | Sweep | CanceledWebhook | TheBuyer

  /** A transaction or request under way, with what it has read. */
  datatype Writer =
    | TimingOut
    | Asking
    | Sweeping
    | Charging(seen: Status)
    | Aborting(seen: Status)
    | Cancelling
    | Voiding
    | Creating
    | Linking
    | Refunding

  datatype World = World(
    row: OrderRow,
    total: int,
    linked: bool,
    intent: IntentState,
    claimed: set<Event>,
    decision: Option<Decision>,
    endedBy: Option<Ender>,
    owed: nat,
    refunded: bool,
    writers: map<nat, Writer>
  )

  datatype Step =
    | SelectTimedOut(t: nat)
    | TimeOut(t: nat, now: int)
    | SelectAbandoned(t: nat)
    | AskStripe(t: nat, refuses: bool)
    | SweepOrder(t: nat, now: int)
    | ReadEvent(t: nat, event: Event)
    | CommitEvent(t: nat, now: int, later: int)
    | ReadForCancel(t: nat)
    | CancelOrder(t: nat, now: int)
    | VoidIntent(t: nat, refuses: bool)
    | CheckPayable(t: nat)
    | CreateIntent(t: nat)
    | LinkIntent(t: nat)
    | CallRefund(t: nat)
    | BuyerPays(received: Option<int>)
    | CanceledAtStripe
    | Stop(t: nat)

  /** `intent.get("amount_received") or intent.get("amount")`: a missing or zero amount falls back to the asked one. */
  function Captured(received: Option<int>, amount: int): int {
    if received.Some? && received.value != 0 then received.value else amount
  }

  predicate Occurred(intent: IntentState, e: Event) {
    match e
    case ChargeSucceeded => intent.Succeeded?
    case IntentCanceled => intent.Canceled?
  }

  function EventOf(w: Writer): Option<Event> {
    match w
    case Charging(_) => Some(ChargeSucceeded)
    case Aborting(_) => Some(IntentCanceled)
    case _ => None
  }

  /** The unique index makes a second delivery wait for the transaction that is inserting the same event. */
  predicate NobodyHandles(writers: map<nat, Writer>, e: Event) {
    forall t :: t in writers ==> EventOf(writers[t]) != Some(e)
  }

  predicate Enabled(w: World, s: Step) {
    match s
    case SelectTimedOut(t) => t !in w.writers && w.row.status.PENDING? && !w.linked
    case TimeOut(t, _) => t in w.writers && w.writers[t].TimingOut?
    case SelectAbandoned(t) => t !in w.writers && w.row.status.PENDING? && w.linked
    case AskStripe(t, _) => t in w.writers && w.writers[t].Asking?
    case SweepOrder(t, _) => t in w.writers && w.writers[t].Sweeping?
    case ReadEvent(t, e) => t !in w.writers && Occurred(w.intent, e) && e !in w.claimed && NobodyHandles(w.writers, e)
    case CommitEvent(t, _, _) => t in w.writers && EventOf(w.writers[t]).Some?
    case ReadForCancel(t) => t !in w.writers && w.row.status.PENDING?
    case CancelOrder(t, _) => t in w.writers && w.writers[t].Cancelling?
    case VoidIntent(t, _) => t in w.writers && w.writers[t].Voiding?
    case CheckPayable(t) => t !in w.writers && w.row.status.PENDING?
    case CreateIntent(t) => t in w.writers && w.writers[t].Creating?
    case LinkIntent(t) => t in w.writers && w.writers[t].Linking?
    case CallRefund(t) => t in w.writers && w.writers[t].Refunding?
    case BuyerPays(_) => w.intent.Live?
    case CanceledAtStripe => w.intent.Live?
    case Stop(t) => t in w.writers
  }

  /** Cancelling at Stripe works on a live intent, unless it is just being processed. */
  function AfterCancelCall(intent: IntentState, refuses: bool): IntentState {
    if intent.Live? && !refuses then Canceled else intent
  }

  /** A compare-and-swap from PENDING to a status that owes the seats back. */
  function AfterEnding(w: World, to: Status, now: int, who: Ender): World {
    var a := Attempt(PENDING, to, now);
    if ReplyTo(w.row, a).Applied? then w.(row := AfterAttempt(w.row, a), endedBy := Some(who), owed := w.owed + 1) else w
  }

  /** What the succeeded webhook decides, from the status it read and the row as it is when it writes. */
  function ChargeDecision(row: OrderRow, total: int, received: Option<int>, seen: Status): Decision {
    if Captured(received, total) != total then Refund
    else if seen.PAID? || seen.CONFIRMED? then Nothing
    else if !seen.PENDING? then Refund
    else if ReplyTo(row, Attempt(PENDING, PAID, 0)).Applied? then Confirmed
    else Refund
  }

  function AfterCharge(w: World, t: nat, now: int, later: int): World
    requires t in w.writers && w.writers[t].Charging? && w.intent.Succeeded?
  {
    var d := ChargeDecision(w.row, w.total, w.intent.received, w.writers[t].seen);
    w.(claimed := w.claimed + {ChargeSucceeded},
       decision := Some(d),
       row := if d.Confirmed? then AfterAttempt(AfterAttempt(w.row, Attempt(PENDING, PAID, now)), Attempt(PAID, CONFIRMED, later)) else w.row,
       writers := if d.Refund? then w.writers[t := Refunding] else w.writers - {t})
  }

  function AfterAbort(w: World, t: nat, now: int): World
    requires t in w.writers && w.writers[t].Aborting?
  {
    var v := if w.writers[t].seen.PENDING? then AfterEnding(w, EXPIRED, now, CanceledWebhook) else w;
    v.(claimed := w.claimed + {IntentCanceled}, writers := w.writers - {t})
  }

  function Next(w: World, s: Step): World
    requires Enabled(w, s) && EventsHappened(w)
  {
    match s
    case SelectTimedOut(t) => w.(writers := w.writers[t := TimingOut])
    case TimeOut(t, now) => AfterEnding(w, EXPIRED, now, TimeoutCron).(writers := w.writers - {t})
    case SelectAbandoned(t) => w.(writers := w.writers[t := Asking])
    case AskStripe(t, refuses) =>
      var intent := AfterCancelCall(w.intent, refuses);
      w.(intent := intent, writers := if intent.Canceled? then w.writers[t := Sweeping] else w.writers - {t})
    case SweepOrder(t, now) => AfterEnding(w, EXPIRED, now, Sweep).(writers := w.writers - {t})
    case ReadEvent(t, e) =>
      w.(writers := w.writers[t := if e.ChargeSucceeded? then Charging(w.row.status) else Aborting(w.row.status)])
    case CommitEvent(t, now, later) =>
      if w.writers[t].Charging? then AfterCharge(w, t, now, later) else AfterAbort(w, t, now)
    case ReadForCancel(t) => w.(writers := w.writers[t := Cancelling])
    case CancelOrder(t, now) =>
      var v := AfterEnding(w, CANCELLED, now, TheBuyer);
      v.(writers := if v.row != w.row && w.linked then w.writers[t := Voiding] else w.writers - {t})
    case VoidIntent(t, refuses) => w.(intent := AfterCancelCall(w.intent, refuses), writers := w.writers - {t})
    case CheckPayable(t) => w.(writers := w.writers[t := Creating])
    case CreateIntent(t) =>
      w.(intent := if w.intent.NoIntent? then Live else w.intent, writers := w.writers[t := Linking])
    case LinkIntent(t) => w.(linked := true, writers := w.writers - {t})
    case CallRefund(t) => w.(refunded := true, writers := w.writers - {t})
    case BuyerPays(received) => w.(intent := Succeeded(received))
    case CanceledAtStripe => w.(intent := Canceled)
    case Stop(t) => w.(writers := w.writers - {t})
  }

  /** Events are only handled after they happened. */
  predicate EventsHappened(w: World) {
    forall t :: t in w.writers && EventOf(w.writers[t]).Some? ==> Occurred(w.intent, EventOf(w.writers[t]).value)
  }

  /** A fresh order nobody is paying for yet. */
  predicate Initial(w: World) {
    && w.row == FRESH && !w.linked && w.intent.NoIntent? && w.claimed == {} && w.decision.None?
    && w.endedBy.None? && w.owed == 0 && !w.refunded && w.writers == map[]
  }

  // ------------------------------------------------------------------ what every step keeps

  predicate WriterOk(w: World, writer: Writer) {
    match writer
    case Sweeping => w.intent.Canceled?
    case Charging(seen) =>
      && w.intent.Succeeded? && ChargeSucceeded !in w.claimed
      && !seen.PAID? && !seen.CONFIRMED? && (seen.PENDING? || seen == w.row.status)
    case Aborting(_) => w.intent.Canceled? && IntentCanceled !in w.claimed
    case Refunding => w.decision == Some(Refund)
    case _ => true
  }

  /** Money and order agree: the charge confirmed the order, or it is to be refunded, and never both. */
  predicate MoneyOk(w: World) {
    && (w.decision.Some? <==> ChargeSucceeded in w.claimed)
    && (w.decision.Some? ==> w.intent.Succeeded? && w.decision != Some(Nothing))
    && (w.decision == Some(Confirmed) <==> w.row.status.CONFIRMED?)
    && (w.decision == Some(Confirmed) ==> Captured(w.intent.received, w.total) == w.total)
    && (w.decision == Some(Refund) ==> Captured(w.intent.received, w.total) != w.total || w.row.status.OwesRelease())
    && (w.refunded ==> w.decision == Some(Refund))
  }

  predicate EndOk(w: World) {
    && !w.row.status.PAID?
    && (w.endedBy.Some? <==> w.row.status.OwesRelease())
    && (w.endedBy == Some(Sweep) || w.endedBy == Some(CanceledWebhook) ==> w.intent.Canceled?)
    && (w.endedBy == Some(TheBuyer) <==> w.row.status.CANCELLED?)
    && w.owed == if w.row.status.OwesRelease() then 1 else 0
  }

  predicate WritersOk(w: World) {
    && (forall t :: t in w.writers ==> WriterOk(w, w.writers[t]))
    && (forall t, u :: t in w.writers && u in w.writers && t != u && EventOf(w.writers[t]).Some? ==>
          EventOf(w.writers[t]) != EventOf(w.writers[u]))
  }

  predicate Inv(w: World) {
    MoneyOk(w) && EndOk(w) && WritersOk(w)
  }

  lemma EventsHaveHappened(w: World)
    requires Inv(w)
    ensures EventsHappened(w)
  {
    forall t | t in w.writers && EventOf(w.writers[t]).Some? ensures Occurred(w.intent, EventOf(w.writers[t]).value) {
      assert WriterOk(w, w.writers[t]);
    }
  }

  /** The order can only be ended while it is pending. */
  lemma EndingKeeps(w: World, to: Status, now: int, who: Ender)
    requires MoneyOk(w) && EndOk(w) && to.OwesRelease() && (who.TheBuyer? <==> to.CANCELLED?)
    requires who.Sweep? || who.CanceledWebhook? ==> w.intent.Canceled?
    ensures MoneyOk(AfterEnding(w, to, now, who)) && EndOk(AfterEnding(w, to, now, who))
  {
  }

  lemma EndingClaimsNothing(w: World, to: Status, now: int, who: Ender)
    ensures AfterEnding(w, to, now, who).claimed == w.claimed
  {
  }

  lemma ChargeKeeps(w: World, t: nat, now: int, later: int)
    requires Inv(w) && t in w.writers && w.writers[t].Charging? && w.intent.Succeeded?
    ensures var v := AfterCharge(w, t, now, later); MoneyOk(v) && EndOk(v)
  {
    assert WriterOk(w, w.writers[t]);
  }

  /** Intents, final orders and refund decisions stay; events are claimed only by their one handler. */
  predicate Forward(w: World, v: World, handled: Option<Event>) {
    && (w.intent.Canceled? ==> v.intent.Canceled?)
    && (w.intent.Succeeded? ==> v.intent == w.intent)
    && (Final(w.row.status) ==> v.row.status == w.row.status)
    && (w.decision == Some(Refund) ==> v.decision == Some(Refund))
    && (forall e :: e in v.claimed && e !in w.claimed ==> handled == Some(e))
    && v.total == w.total
  }

  function Handled(w: World, s: Step): Option<Event>
    requires Enabled(w, s)
  {
    if s.CommitEvent? then EventOf(w.writers[s.t]) else None
  }

  lemma StepMovesForward(w: World, s: Step)
    requires Inv(w) && Enabled(w, s) && EventsHappened(w)
    ensures Forward(w, Next(w, s), Handled(w, s))
  {
    assert s.CommitEvent? ==> WriterOk(w, w.writers[s.t]);
  }

  lemma WriterStays(w: World, v: World, writer: Writer, handled: Option<Event>)
    requires WriterOk(w, writer) && Forward(w, v, handled) && (EventOf(writer).Some? ==> EventOf(writer) != handled)
    ensures WriterOk(v, writer)
  {
  }

  /** The writer a step leaves behind in its own place, if any. */
  lemma OwnWriterOk(w: World, s: Step)
    requires Inv(w) && Enabled(w, s) && EventsHappened(w) && !s.BuyerPays? && !s.CanceledAtStripe? && s.t in Next(w, s).writers
    ensures WriterOk(Next(w, s), Next(w, s).writers[s.t])
  {
    hide WritersOk, NobodyHandles;
  }

  /** A step changes at most its own writer, and starts handling an event only if nobody else is at it. */
  lemma OthersUntouched(w: World, s: Step, x: nat)
    requires Enabled(w, s) && EventsHappened(w) && x in Next(w, s).writers && (s.BuyerPays? || s.CanceledAtStripe? || x != s.t)
    ensures x in w.writers && Next(w, s).writers[x] == w.writers[x]
  {
    hide AfterEnding, ChargeDecision;
  }

  lemma NewHandlerIsAlone(w: World, s: Step)
    requires Enabled(w, s) && EventsHappened(w) && !s.BuyerPays? && !s.CanceledAtStripe? && s.t in Next(w, s).writers
    ensures EventOf(Next(w, s).writers[s.t]).Some? ==> NobodyHandles(w.writers, EventOf(Next(w, s).writers[s.t]).value)
  {
    hide AfterEnding, ChargeDecision;
  }

  lemma WritersStay(w: World, s: Step)
    requires Inv(w) && Enabled(w, s) && EventsHappened(w)
    ensures WritersOk(Next(w, s))
  {
    hide MoneyOk, EndOk, NobodyHandles, EventsHappened;
    var v := Next(w, s);
    var own := if s.BuyerPays? || s.CanceledAtStripe? then None else Some(s.t);
    StepMovesForward(w, s);
    if own.Some? && s.t in v.writers {
      OwnWriterOk(w, s);
      NewHandlerIsAlone(w, s);
    }
    forall x | x in v.writers && own != Some(x) ensures x in w.writers && v.writers[x] == w.writers[x] {
      OthersUntouched(w, s, x);
    }
    assert s.CommitEvent? ==> own == Some(s.t) && s.t in w.writers;
    hide Next, Enabled;
    AllWritersOk(w, v, own, Handled(w, s));
  }

  lemma AllWritersOk(w: World, v: World, own: Option<nat>, handled: Option<Event>)
    requires WritersOk(w) && Forward(w, v, handled)
    requires forall x :: x in v.writers && own != Some(x) ==> x in w.writers && v.writers[x] == w.writers[x]
    requires handled.Some? ==> own.Some? && own.value in w.writers && EventOf(w.writers[own.value]) == handled
    requires own.Some? && own.value in v.writers ==>
      && WriterOk(v, v.writers[own.value])
      && (EventOf(v.writers[own.value]).Some? ==> NobodyHandles(w.writers, EventOf(v.writers[own.value]).value))
    ensures WritersOk(v)
  {
    hide WriterOk, Forward;
    forall x | x in v.writers ensures WriterOk(v, v.writers[x]) {
      if own != Some(x) {
        WriterStays(w, v, w.writers[x], handled);
      }
    }
  }

  lemma RowAndMoneyStay(w: World, s: Step)
    requires Inv(w) && Enabled(w, s) && EventsHappened(w)
    ensures MoneyOk(Next(w, s)) && EndOk(Next(w, s))
  {
    hide AfterCharge, AfterEnding;
    match s
    case TimeOut(t, now) => EndingKeeps(w, EXPIRED, now, TimeoutCron);
    case SweepOrder(t, now) =>
      assert WriterOk(w, w.writers[t]);
      EndingKeeps(w, EXPIRED, now, Sweep);
    case CancelOrder(t, now) => EndingKeeps(w, CANCELLED, now, TheBuyer);
    case CommitEvent(t, now, later) =>
      assert WriterOk(w, w.writers[t]);
      if w.writers[t].Charging? {
        ChargeKeeps(w, t, now, later);
      } else {
        EndingKeeps(w, EXPIRED, now, CanceledWebhook);
        var v := if w.writers[t].seen.PENDING? then AfterEnding(w, EXPIRED, now, CanceledWebhook) else w;
        assert MoneyOk(v) && EndOk(v);
        assert Next(w, s) == v.(claimed := w.claimed + {IntentCanceled}, writers := w.writers - {t});
        EndingClaimsNothing(w, EXPIRED, now, CanceledWebhook);
      }
    case CallRefund(t) => assert WriterOk(w, w.writers[t]);
    case _ =>
  }

  lemma StepKeeps(w: World, s: Step)
    requires Inv(w) && Enabled(w, s)
    ensures EventsHappened(w) && Inv(Next(w, s)) && Next(w, s).total == w.total
  {
    hide Next, Enabled, MoneyOk, EndOk, WritersOk;
    EventsHaveHappened(w);
    RowAndMoneyStay(w, s);
    WritersStay(w, s);
    StepMovesForward(w, s);
  }

  // ------------------------------------------------------------------ runs

  predicate Possible(w: World, steps: seq<Step>)
    decreases steps
  {
    steps == [] || (Enabled(w, steps[0]) && EventsHappened(w) && Possible(Next(w, steps[0]), steps[1..]))
  }

  function AfterSteps(w: World, steps: seq<Step>): World
    requires Possible(w, steps)
    decreases steps
  {
    if steps == [] then w else AfterSteps(Next(w, steps[0]), steps[1..])
  }

  lemma {:induction false} AlwaysSound(w: World, steps: seq<Step>)
    requires Inv(w) && Possible(w, steps)
    ensures Inv(AfterSteps(w, steps)) && AfterSteps(w, steps).total == w.total
    decreases steps
  {
    hide Inv, Next, Enabled;
    if steps != [] {
      StepKeeps(w, steps[0]);
      AlwaysSound(Next(w, steps[0]), steps[1..]);
    }
  }

  /** The sweep and the canceled webhook end an order only when no money can come in any more. */
  lemma SweepEndsOnlyCanceledIntents(w: World, steps: seq<Step>)
    requires Initial(w) && Possible(w, steps)
    ensures var v := AfterSteps(w, steps);
      v.row.status.EXPIRED? ==> v.intent.Canceled? || v.endedBy == Some(TimeoutCron)
  {
    AlwaysSound(w, steps);
    var v := AfterSteps(w, steps);
    EndersAre(v.endedBy);
  }

  lemma EndersAre(e: Option<Ender>)
    ensures e.None? || e == Some(TimeoutCron) || e == Some(Sweep) || e == Some(CanceledWebhook) || e == Some(TheBuyer)
  {
    assert e.Some? ==> e.value.TimeoutCron? || e.value.Sweep? || e.value.CanceledWebhook? || e.value.TheBuyer?;
  }

  lemma DecisionsAre(d: Option<Decision>)
    ensures d.None? || d == Some(Confirmed) || d == Some(Refund) || d == Some(Nothing)
  {
    assert d.Some? ==> d.value.Confirmed? || d.value.Refund? || d.value.Nothing?;
  }

  /** A confirmed order was charged, and charged exactly its total. */
  lemma ConfirmedMeansCharged(w: World, steps: seq<Step>)
    requires Initial(w) && Possible(w, steps)
    ensures var v := AfterSteps(w, steps);
      v.row.status.CONFIRMED? ==>
        && v.intent.Succeeded? && Captured(v.intent.received, w.total) == w.total && !v.refunded
        && AmountRight(v.intent.received, w.total)
  {
    AlwaysSound(w, steps);
  }

  /**
   * Every handled charge leads to exactly one of the two decisions: the order is confirmed and nothing is ever
   * refunded, or the charge is refunded and the order is never confirmed. A charge of the right amount is refunded
   * only if the timeout cron or the buyer had ended the order.
   */
  lemma EveryChargeIsSettled(w: World, steps: seq<Step>)
    requires Initial(w) && Possible(w, steps) && ChargeSucceeded in AfterSteps(w, steps).claimed
    ensures var v := AfterSteps(w, steps);
      && v.intent.Succeeded?
      && (v.decision == Some(Confirmed)) == v.row.status.CONFIRMED?
      && (v.decision == Some(Refund)) == !v.row.status.CONFIRMED?
      && (v.decision == Some(Refund) && Captured(v.intent.received, w.total) == w.total ==>
            v.endedBy == Some(TimeoutCron) || v.endedBy == Some(TheBuyer))
  {
    AlwaysSound(w, steps);
    EndersAre(AfterSteps(w, steps).endedBy);
    DecisionsAre(AfterSteps(w, steps).decision);
  }

  /** Seats are owed back once, and only for an order nobody confirmed. */
  lemma OneReleaseOwed(w: World, steps: seq<Step>)
    requires Initial(w) && Possible(w, steps)
    ensures var v := AfterSteps(w, steps); v.owed == if v.row.status.OwesRelease() then 1 else 0
  {
    AlwaysSound(w, steps);
  }

  // ------------------------------------------------------------------ what each writer does to the order

  /** The charge was for the asked amount, or Stripe left it out or sent zero. */
  predicate AmountRight(received: Option<int>, total: int) {
    received.None? || received.value == 0 || received.value == total
  }

  /** The order just ended in this way, owing its seats back once; the money side is as before. */
  predicate JustEnded(w: World, v: World, to: Status, now: int, who: Ender) {
    && v.row.status == to && v.endedBy == Some(who) && w.owed == 0 && v.owed == 1
    && v.row.expiredAt == (if to == EXPIRED then Some(now) else None)
    && v.row.cancelledAt == (if to == CANCELLED then Some(now) else None)
    && v.row.paidAt == w.row.paidAt && v.row.confirmedAt == w.row.confirmedAt
    && v.decision == w.decision && v.refunded == w.refunded
  }

  predicate NothingEnded(w: World, v: World) {
    v.row == w.row && v.endedBy == w.endedBy && v.owed == w.owed && v.decision == w.decision && v.refunded == w.refunded
  }

  /** What each call to Stripe does, and to nothing else: a cancel works on a live intent unless it is refused, a sweep
      goes on only with a canceled intent, a second intent is not created, a link or a refund is noted. */
  lemma StripeCallsDoWhatTheySay(w: World, s: Step)
    requires Enabled(w, s) && EventsHappened(w)
    requires s.AskStripe? || s.VoidIntent? || s.CreateIntent? || s.LinkIntent? || s.CallRefund?
    ensures var v := Next(w, s); NothingEnded(w, v.(refunded := w.refunded)) && v.claimed == w.claimed && v.total == w.total
    ensures s.AskStripe? || s.VoidIntent? ==>
      Next(w, s).intent == if w.intent.Live? && !s.refuses then Canceled else w.intent
    ensures s.AskStripe? ==> (s.t in Next(w, s).writers && Next(w, s).writers[s.t] == Sweeping <==> Next(w, s).intent.Canceled?)
    ensures s.CreateIntent? ==> Next(w, s).intent == if w.intent.NoIntent? then Live else w.intent
    ensures s.LinkIntent? || s.CallRefund? ==> Next(w, s).intent == w.intent
    ensures Next(w, s).linked == (w.linked || s.LinkIntent?) && Next(w, s).refunded == (w.refunded || s.CallRefund?)
  {
  }

  /** Timestamps are those of the status. */
  predicate RowFresh(r: OrderRow) {
    r.status == PENDING ==> r == FRESH
  }

  /** Whoever comes to end the order ends it if and only if it is still pending: the buyer, the cron, and the sweep. */
  lemma EndersEndPendingOrders(w: World, s: Step)
    requires Inv(w) && Enabled(w, s) && RowFresh(w.row) && (s.CancelOrder? || s.TimeOut? || s.SweepOrder?)
    ensures EventsHappened(w)
    ensures var v := Next(w, s);
      var who := if s.CancelOrder? then TheBuyer else if s.TimeOut? then TimeoutCron else Sweep;
      && v.intent == w.intent && v.linked == w.linked && v.claimed == w.claimed
      && (if w.row.status == PENDING then JustEnded(w, v, if s.CancelOrder? then CANCELLED else EXPIRED, s.now, who)
          else NothingEnded(w, v))
      && (s.CancelOrder? ==> (s.t in v.writers && v.writers[s.t] == Voiding <==> w.row.status == PENDING && w.linked))
  {
    EventsHaveHappened(w);
    hide MoneyOk, WritersOk, EventsHappened;
  }

  /** A charge confirms the order if and only if its amount is right and the order is still pending; otherwise it is
      refunded, and the order is left as it is. */
  lemma ChargeConfirmsPendingOrders(w: World, t: nat, now: int, later: int)
    requires Inv(w) && RowFresh(w.row) && t in w.writers && w.writers[t].Charging?
    ensures EventsHappened(w) && Enabled(w, CommitEvent(t, now, later)) && w.intent.Succeeded?
    ensures var v := Next(w, CommitEvent(t, now, later));
      && v.claimed == w.claimed + {ChargeSucceeded} && v.owed == w.owed && v.endedBy == w.endedBy && v.intent == w.intent
      && (if AmountRight(w.intent.received, w.total) && w.row.status == PENDING then
            && v.decision == Some(Confirmed) && v.row == OrderRow(CONFIRMED, Some(now), Some(later), None, None)
            && t !in v.writers
          else
            && v.decision == Some(Refund) && v.row == w.row
            && t in v.writers && v.writers[t] == Refunding)
  {
    EventsHaveHappened(w);
    assert WriterOk(w, w.writers[t]);
    hide EventsHappened, WritersOk;
  }

  /** A canceled intent expires the order if and only if it is still pending. */
  lemma CancelEventEndsPendingOrders(w: World, t: nat, now: int, later: int)
    requires Inv(w) && RowFresh(w.row) && t in w.writers && w.writers[t].Aborting?
    requires w.row.status == PENDING ==> w.writers[t].seen == PENDING
    ensures EventsHappened(w) && Enabled(w, CommitEvent(t, now, later))
    ensures var v := Next(w, CommitEvent(t, now, later));
      && v.claimed == w.claimed + {IntentCanceled} && t !in v.writers && v.intent == w.intent
      && (if w.row.status == PENDING then JustEnded(w, v, EXPIRED, now, CanceledWebhook) else NothingEnded(w, v))
  {
    EventsHaveHappened(w);
    hide EventsHappened, WritersOk, MoneyOk;
  }

  /** A pending row has no timestamps, and whoever handles a canceled intent of a pending order has read it pending. */
  predicate Unstamped(w: World) {
    && RowFresh(w.row)
    && (forall t :: t in w.writers && w.writers[t].Aborting? && w.row.status == PENDING ==> w.writers[t].seen == PENDING)
  }

  lemma StepLeavesUnstamped(w: World, s: Step)
    requires Inv(w) && Enabled(w, s) && EventsHappened(w) && Unstamped(w)
    ensures Unstamped(Next(w, s))
  {
    hide MoneyOk, WritersOk, NobodyHandles;
    var v := Next(w, s);
    assert v.row.status == PENDING ==> v.row == w.row;
  }

  lemma {:induction false} AlwaysUnstamped(w: World, steps: seq<Step>)
    requires Inv(w) && Possible(w, steps) && Unstamped(w)
    ensures Unstamped(AfterSteps(w, steps))
    decreases steps
  {
    hide Inv, Next, Enabled, Unstamped;
    if steps != [] {
      StepKeeps(w, steps[0]);
      StepLeavesUnstamped(w, steps[0]);
      AlwaysUnstamped(Next(w, steps[0]), steps[1..]);
    }
  }

  /** So in every reachable state with a pending order the buyer can cancel it: it ends CANCELLED, by the buyer, owing its seats once. */
  lemma BuyerCancelsPendingOrders(w: World, steps: seq<Step>, t: nat, now: int)
    requires Initial(w) && Possible(w, steps)
    requires var v := AfterSteps(w, steps); v.row.status == PENDING && t in v.writers && v.writers[t] == Cancelling
    ensures var v := AfterSteps(w, steps);
      && Enabled(v, CancelOrder(t, now)) && EventsHappened(v)
      && JustEnded(v, Next(v, CancelOrder(t, now)), CANCELLED, now, TheBuyer)
  {
    AlwaysSound(w, steps);
    AlwaysUnstamped(w, steps);
    hide Inv, Possible, AfterSteps, Initial, JustEnded;
    EndersEndPendingOrders(AfterSteps(w, steps), CancelOrder(t, now));
  }

  /** And in every reachable state whoever handles the charge decides by the amount and the row as it is then. */
  lemma ChargesAreJust(w: World, steps: seq<Step>, t: nat, now: int, later: int)
    requires Initial(w) && Possible(w, steps)
    requires var v := AfterSteps(w, steps); t in v.writers && v.writers[t].Charging?
    ensures var v := AfterSteps(w, steps);
      && Enabled(v, CommitEvent(t, now, later)) && EventsHappened(v) && v.intent.Succeeded?
      && (Next(v, CommitEvent(t, now, later)).row.status == CONFIRMED
          <==> AmountRight(v.intent.received, w.total) && v.row.status == PENDING)
      && (Next(v, CommitEvent(t, now, later)).decision == Some(Refund)
          <==> !(AmountRight(v.intent.received, w.total) && v.row.status == PENDING))
  {
    AlwaysSound(w, steps);
    AlwaysUnstamped(w, steps);
    var v := AfterSteps(w, steps);
    assert v.row.status != CONFIRMED by {
      assert WriterOk(v, v.writers[t]);
    }
    hide Inv, Possible, AfterSteps, Initial, Next;
    ChargeConfirmsPendingOrders(v, t, now, later);
  }

  /** Once a decision is committed no run changes it. */
  lemma {:induction false} DecisionIsFinal(w: World, steps: seq<Step>)
    requires Inv(w) && Possible(w, steps) && w.decision.Some?
    ensures AfterSteps(w, steps).decision == w.decision
    decreases steps
  {
    if steps != [] {
      DecisionStays(w, steps[0]);
      hide Inv, Next, Enabled;
      StepKeeps(w, steps[0]);
      DecisionIsFinal(Next(w, steps[0]), steps[1..]);
    }
  }

  lemma DecisionStays(w: World, s: Step)
    requires Inv(w) && Enabled(w, s) && EventsHappened(w) && w.decision.Some?
    ensures Next(w, s).decision == w.decision
  {
    assert s.CommitEvent? ==> WriterOk(w, w.writers[s.t]);
  }
}
