/** The webhook receiver and the Stripe-first sweep as they are written, each one a run of the payment protocol. */
module Checkout {
  import opened Basics
  import opened Orders
  import opened OrderRows
  import opened Payments

  class Desk {
    const order: OrderStore
    const total: int
    var linked: bool
    var intent: IntentState
    var events: set<Event>
    ghost var decision: Option<Decision>
    ghost var endedBy: Option<Ender>
    ghost var refunded: bool
    ghost var writers: map<nat, Writer>

    constructor (order: OrderStore, total: int)
      ensures this.order == order && this.total == total && !linked && intent == NoIntent && events == {}
      ensures decision == None && endedBy == None && !refunded && writers == map[]
    {
      this.order, this.total := order, total;
      linked, intent, events := false, NoIntent, {};
      decision, endedBy, refunded, writers := None, None, false, map[];
    }

    ghost function Abs(): World
      reads this, order
    {
      World(order.row, total, linked, intent, events, decision, endedBy, |order.outbox|, refunded, writers)
    }

    /** `claim_event`: insert unless present; true for the first delivery only. */
    method ClaimEvent(e: Event) returns (first: bool)
      modifies this`events
      ensures first <==> e !in old(events)
      ensures events == old(events) + {e}
    {
      first := e !in events;
      events := events + {e};
    }

    /** `_handle_payment_succeeded`: true asks for a refund once the transaction is committed. */
    method HandlePaymentSucceeded(seen: Status, now: int, later: int) returns (refund: bool, ghost decided: Decision)
      requires intent.Succeeded?
      modifies order
      ensures decided == ChargeDecision(old(order.row), total, intent.received, seen) && (refund <==> decided == Refund)
      ensures refund <==> !AmountRight(intent.received, total)
                          || (seen != PAID && seen != CONFIRMED && !(seen == PENDING && old(order.row).status == PENDING))
      ensures order.row.status == CONFIRMED && old(order.row).status != CONFIRMED
              <==> AmountRight(intent.received, total) && seen == PENDING && old(order.row).status == PENDING
      ensures order.outbox == old(order.outbox)
      ensures order.row == if decided == Confirmed
                           then AfterAttempt(AfterAttempt(old(order.row), Attempt(PENDING, PAID, now)), Attempt(PAID, CONFIRMED, later))
                           else old(order.row)
    {
      var captured := if intent.received.Some? && intent.received.value != 0 then intent.received.value else total;
      if captured != total {
        return true, Refund;
      }
      if seen == PAID || seen == CONFIRMED {
        return false, Nothing;
      }
      if seen != PENDING {
        return true, Refund;
      }
      var paid := order.Attempted(Attempt(seen, PAID, now));
      if paid != Applied {
        return true, Refund;
      }
      var confirmed := order.Attempted(Attempt(PAID, CONFIRMED, later));
      return false, Confirmed;
    }

    /** `_handle_payment_aborted`: true asks for the seats to be returned once the transaction is committed. */
    method HandlePaymentAborted(seen: Status, now: int) returns (release: bool)
      modifies order
      ensures release <==> seen == PENDING && old(order.row).status == PENDING
      ensures order.row == if release then AfterAttempt(old(order.row), Attempt(PENDING, EXPIRED, now)) else old(order.row)
      ensures order.outbox == old(order.outbox) + if release then [order.id] else []
    {
      if seen != PENDING {
        return false;
      }
      var expired := order.Attempted(Attempt(seen, EXPIRED, now));
      return expired == Applied;
    }

    /** `stripe_webhook`: claim, decide, commit; money and seats move only afterwards, as the two results say. */
    method StripeWebhook(e: Event, now: int, later: int, ghost t: nat) returns (refund: bool, release: bool)
      requires EventsHappened(Abs()) && t !in writers && Occurred(intent, e) && NobodyHandles(writers, e)
      modifies this`events, this`decision, this`endedBy, this`writers, order
      ensures e in old(events) ==> Abs() == old(Abs()) && !refund && !release
      ensures e !in old(events) ==>
                && Possible(old(Abs()), [ReadEvent(t, e), CommitEvent(t, now, later)])
                && Abs() == AfterSteps(old(Abs()), [ReadEvent(t, e), CommitEvent(t, now, later)])
      ensures refund <==> t in writers && writers[t].Refunding?
      ensures release <==> old(order.row).status == PENDING && order.row.status == EXPIRED
    {
      refund, release := false, false;
      ghost var start := Abs();
      var first := ClaimEvent(e);
      if !first {
        assert events == old(events);
        return;
      }
      TwoSteps(start, ReadEvent(t, e), CommitEvent(t, now, later));
      hide Possible, AfterSteps, EventsHappened, NobodyHandles, AfterCharge, AfterAbort;
      ghost var read := Next(start, ReadEvent(t, e));
      if e.ChargeSucceeded? {
        refund := CommitCharge(read, now, later, t);
      } else {
        release := CommitAbort(read, now, t);
      }
    }

    /** The rest of the transaction of a charge; `read` is the world with this handler in it. */
    method CommitCharge(ghost read: World, now: int, later: int, ghost t: nat) returns (refund: bool)
      requires intent.Succeeded? && events >= {ChargeSucceeded} && t !in writers
      requires read == Abs().(claimed := read.claimed, writers := writers[t := Charging(order.row.status)])
      requires events == read.claimed + {ChargeSucceeded}
      modifies this`decision, this`writers, order
      ensures Abs() == AfterCharge(read, t, now, later)
      ensures refund <==> t in writers && writers[t].Refunding?
    {
      ghost var decided;
      refund, decided := HandlePaymentSucceeded(order.row.status, now, later);
      decision := Some(decided);
      if refund {
        writers := writers[t := Refunding];
      }
    }

    method CommitAbort(ghost read: World, now: int, ghost t: nat) returns (release: bool)
      requires intent.Canceled? && t !in writers
      requires read == Abs().(claimed := read.claimed, writers := writers[t := Aborting(order.row.status)])
      requires events == read.claimed + {IntentCanceled}
      modifies this`endedBy, order
      ensures Abs() == AfterAbort(read, t, now)
      ensures release <==> old(order.row).status == PENDING && order.row.status == EXPIRED
    {
      release := HandlePaymentAborted(order.row.status, now);
      if release {
        endedBy := Some(CanceledWebhook);
      }
    }

    /** `_settle_one`: ask Stripe first, and touch the order only on `canceled`. */
    method SettleOne(refuses: bool, now: int, ghost t: nat) returns (expired: bool)
      requires EventsHappened(Abs()) && t in writers && writers[t].Asking?
      modifies this`intent, this`endedBy, this`writers, order
      ensures expired ==> intent.Canceled?
      ensures expired <==> old(order.row).status == PENDING && order.row.status == EXPIRED
      ensures if old(AfterCancelCall(intent, refuses)).Canceled?
              then Possible(old(Abs()), [AskStripe(t, refuses), SweepOrder(t, now)])
                && Abs() == AfterSteps(old(Abs()), [AskStripe(t, refuses), SweepOrder(t, now)])
              else Abs() == Next(old(Abs()), AskStripe(t, refuses))
    {
      ghost var start := Abs();
      if intent.Live? && !refuses {
        intent := Canceled;
      }
      writers := writers - {t};
      if !intent.Canceled? {
        return false;
      }
      TwoSteps(start, AskStripe(t, refuses), SweepOrder(t, now));
      hide Possible, AfterSteps, EventsHappened;
      if order.row.status != PENDING {
        assert Abs() == Next(Next(start, AskStripe(t, refuses)), SweepOrder(t, now));
        return false;
      }
      var reply := order.Attempted(Attempt(PENDING, EXPIRED, now));
      endedBy := Some(Sweep);
      assert Abs() == Next(Next(start, AskStripe(t, refuses)), SweepOrder(t, now));
      return true;
    }
  }

  lemma TwoSteps(w: World, a: Step, b: Step)
    requires Enabled(w, a) && EventsHappened(w) && Enabled(Next(w, a), b) && EventsHappened(Next(w, a))
    ensures Possible(w, [a, b]) && AfterSteps(w, [a, b]) == Next(Next(w, a), b)
  {
    hide Enabled, EventsHappened, Next;
    assert [a, b][1..] == [b] && [b][1..] == [];
    assert AfterSteps(Next(w, a), [b]) == Next(Next(w, a), b);
  }
}
