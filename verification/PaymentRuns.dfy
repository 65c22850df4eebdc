/** Runs of the payment protocol from a fresh order to each of its ends. */
module PaymentRuns {
  import opened Basics
  import opened Orders
  import opened OrderRows
  import opened Payments

  /** The worlds a run passes through. */
  predicate Passes(worlds: seq<World>, steps: seq<Step>) {
    && |worlds| == |steps| + 1
    && forall i :: 0 <= i < |steps| ==>
         Enabled(worlds[i], steps[i]) && EventsHappened(worlds[i]) && Next(worlds[i], steps[i]) == worlds[i + 1]
  }

  lemma {:induction false} PassesIsARun(worlds: seq<World>, steps: seq<Step>)
    requires Passes(worlds, steps)
    ensures Possible(worlds[0], steps) && AfterSteps(worlds[0], steps) == worlds[|steps|]
    decreases steps
  {
    hide Enabled, EventsHappened, Next;
    if steps != [] {
      forall i | 0 <= i < |steps[1..]|
        ensures Enabled(worlds[1..][i], steps[1..][i]) && EventsHappened(worlds[1..][i])
        ensures Next(worlds[1..][i], steps[1..][i]) == worlds[1..][i + 1]
      {
        assert steps[1..][i] == steps[i + 1] && worlds[1..][i] == worlds[i + 1];
      }
      PassesIsARun(worlds[1..], steps[1..]);
      assert Next(worlds[0], steps[0]) == worlds[1];
    }
  }

  const FRESH_ORDER := World(FRESH, 100, false, NoIntent, {}, None, None, 0, false, map[])

  /** The payment page has been opened: a live intent, linked to the order. */
  const PAYING := FRESH_ORDER.(intent := Live, linked := true)

  function Opened(): seq<Step> {
    [CheckPayable(0), CreateIntent(0), LinkIntent(0)]
  }

  function WorldsOpened(): seq<World> {
    [FRESH_ORDER, FRESH_ORDER.(writers := map[0 := Creating]), FRESH_ORDER.(intent := Live, writers := map[0 := Linking]), PAYING]
  }

  lemma OpenedStep(i: nat)
    requires i < 3
    ensures var w, s := WorldsOpened()[i], Opened()[i]; Enabled(w, s) && EventsHappened(w) && Next(w, s) == WorldsOpened()[i + 1]
  {
    var w, s := WorldsOpened()[i], Opened()[i];
    assert Next(w, s).writers == WorldsOpened()[i + 1].writers;
  }

  lemma OpenedPasses()
    ensures Passes(WorldsOpened(), Opened())
  {
    hide Enabled, Next, EventsHappened;
    forall i | 0 <= i < 3
      ensures Enabled(WorldsOpened()[i], Opened()[i]) && EventsHappened(WorldsOpened()[i])
      ensures Next(WorldsOpened()[i], Opened()[i]) == WorldsOpened()[i + 1]
    {
      OpenedStep(i);
    }
  }

  lemma ConfirmStep(paid: World, received: Option<int>)
    requires AmountRight(received, 100) && paid == PAYING.(intent := Succeeded(received))
    ensures var read, s := paid.(writers := map[1 := Charging(PENDING)]), CommitEvent(1, 5, 6);
      && Enabled(read, s) && EventsHappened(read)
      && Next(read, s) == paid.(row := OrderRow(CONFIRMED, Some(5), Some(6), None, None), decision := Some(Confirmed), claimed := {ChargeSucceeded})
  {
    assert map[1 := Charging(PENDING)] - {1} == map[];
  }

  /** The buyer pays the asked amount, and the order is confirmed: nothing is owed and nothing is refunded. */
  lemma PaidOrderIsConfirmed(received: Option<int>)
    requires AmountRight(received, 100)
    ensures var steps := [BuyerPays(received), ReadEvent(1, ChargeSucceeded), CommitEvent(1, 5, 6)];
      && Possible(PAYING, steps)
      && var v := AfterSteps(PAYING, steps);
         && v.row == OrderRow(CONFIRMED, Some(5), Some(6), None, None) && v.decision == Some(Confirmed)
         && v.owed == 0 && !v.refunded && v.writers == map[]
  {
    var steps := [BuyerPays(received), ReadEvent(1, ChargeSucceeded), CommitEvent(1, 5, 6)];
    var paid := PAYING.(intent := Succeeded(received));
    var read := paid.(writers := map[1 := Charging(PENDING)]);
    var end := paid.(row := OrderRow(CONFIRMED, Some(5), Some(6), None, None), decision := Some(Confirmed), claimed := {ChargeSucceeded});
    var worlds := [PAYING, paid, read, end];
    assert map[1 := Charging(PENDING)] - {1} == map[];
    ConfirmStep(paid, received);
    assert Next(PAYING, steps[0]) == paid && Next(paid, steps[1]) == read;
    assert EventsHappened(PAYING) && EventsHappened(paid) && EventsHappened(read);
    hide Next, EventsHappened;
    PassesIsARun(worlds, steps);
  }

  /** The buyer cancels instead: the order ends, its seats are owed back once, and the intent is voided at Stripe. */
  lemma CancelledOrderIsVoided()
    ensures var steps := [ReadForCancel(1), CancelOrder(1, 5), VoidIntent(1, false)];
      && Possible(PAYING, steps)
      && var v := AfterSteps(PAYING, steps);
         && v.row == OrderRow(CANCELLED, None, None, None, Some(5)) && v.endedBy == Some(TheBuyer)
         && v.intent == Canceled && v.owed == 1 && v.writers == map[]
  {
    var steps := [ReadForCancel(1), CancelOrder(1, 5), VoidIntent(1, false)];
    var read := PAYING.(writers := map[1 := Cancelling]);
    var ended := PAYING.(row := OrderRow(CANCELLED, None, None, None, Some(5)), endedBy := Some(TheBuyer), owed := 1,
                         writers := map[1 := Voiding]);
    var end := ended.(intent := Canceled, writers := map[]);
    assert map[1 := Cancelling][1 := Voiding] == map[1 := Voiding];
    assert map[1 := Voiding] - {1} == map[];
    PassesIsARun([PAYING, read, ended, end], steps);
  }

  /** Nobody pays: the sweep cancels at Stripe first and then expires the order; a canceled event that follows changes nothing more. */
  lemma AbandonedOrderIsSwept()
    ensures var steps := [SelectAbandoned(1), AskStripe(1, false), SweepOrder(1, 5), ReadEvent(2, IntentCanceled), CommitEvent(2, 6, 7)];
      && Possible(PAYING, steps)
      && var v := AfterSteps(PAYING, steps);
         && v.row == OrderRow(EXPIRED, None, None, Some(5), None) && v.endedBy == Some(Sweep)
         && v.intent == Canceled && v.owed == 1 && v.claimed == {IntentCanceled} && v.writers == map[]
  {
    var steps := [SelectAbandoned(1), AskStripe(1, false), SweepOrder(1, 5), ReadEvent(2, IntentCanceled), CommitEvent(2, 6, 7)];
    var asked := PAYING.(writers := map[1 := Asking]);
    var canceled := PAYING.(intent := Canceled, writers := map[1 := Sweeping]);
    var swept := PAYING.(intent := Canceled, row := OrderRow(EXPIRED, None, None, Some(5), None), endedBy := Some(Sweep), owed := 1);
    var read := swept.(writers := map[2 := Aborting(EXPIRED)]);
    var end := swept.(claimed := {IntentCanceled});
    assert map[1 := Asking][1 := Sweeping] == map[1 := Sweeping];
    assert map[1 := Sweeping] - {1} == map[];
    assert map[2 := Aborting(EXPIRED)] - {2} == map[];
    PassesIsARun([PAYING, asked, canceled, swept, read, end], steps);
  }

  /** Opening the payment page is a run from a fresh order, so all of these are. */
  lemma PageOpens()
    ensures Initial(FRESH_ORDER) && Possible(FRESH_ORDER, Opened()) && AfterSteps(FRESH_ORDER, Opened()) == PAYING
  {
    OpenedPasses();
    PassesIsARun(WorldsOpened(), Opened());
  }
}
