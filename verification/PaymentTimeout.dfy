/** When the timeout cron, which only selects orders without a linked payment, ends one that has a payment after all. */
module PaymentTimeout {
  import opened Basics
  import opened Orders
  import opened OrderRows
  import opened Payments
  import opened PaymentRuns

  /** Some step after number `i` links the payment. */
  predicate LinkedSince(steps: seq<Step>, i: int) {
    exists j :: 0 <= j < |steps| && i < j && steps[j].LinkIntent?
  }

  lemma LinkStays(w: World, s: Step)
    requires Enabled(w, s) && EventsHappened(w)
    ensures Next(w, s).linked <==> w.linked || s.LinkIntent?
  {
  }

  lemma {:induction false} LinkedIffLinkStep(w: World, steps: seq<Step>)
    requires Possible(w, steps)
    ensures AfterSteps(w, steps).linked <==> w.linked || LinkedSince(steps, -1)
    decreases steps
  {
    if steps != [] {
      LinkStays(w, steps[0]);
      hide Next, Enabled, EventsHappened;
      LinkedIffLinkStep(Next(w, steps[0]), steps[1..]);
      SinceTheTail(steps, 0);
    }
  }

  /** Later than step `i` of the run is later than step `i - 1` of its tail. */
  lemma SinceTheTail(steps: seq<Step>, i: nat)
    requires steps != []
    ensures LinkedSince(steps, i) <==> LinkedSince(steps[1..], i - 1)
    ensures LinkedSince(steps, -1) <==> steps[0].LinkIntent? || LinkedSince(steps[1..], -1)
  {
    if j :| 0 <= j < |steps[1..]| && i - 1 < j && steps[1..][j].LinkIntent? {
      assert steps[j + 1].LinkIntent?;
    }
    if j :| 0 <= j < |steps[1..]| && -1 < j && steps[1..][j].LinkIntent? {
      assert steps[j + 1].LinkIntent?;
    }
    if j :| 0 <= j < |steps| && i < j && steps[j].LinkIntent? {
      assert steps[1..][j - 1].LinkIntent?;
    }
    if j :| 0 <= j < |steps| && 0 < j && steps[j].LinkIntent? {
      assert steps[1..][j - 1].LinkIntent?;
    }
  }

  predicate IsTimingOut(w: World, t: nat) {
    t in w.writers && w.writers[t].TimingOut?
  }

  lemma OnlySelectingStartsTheCron(w: World, s: Step, t: nat)
    requires Enabled(w, s) && EventsHappened(w) && !IsTimingOut(w, t) && IsTimingOut(Next(w, s), t)
    ensures s == SelectTimedOut(t) && !w.linked
  {
    hide AfterEnding, ChargeDecision;
  }

  /** The cron has selected the order, and it has a link now exactly if one was committed since. */
  lemma {:induction false} CronSelected(w: World, steps: seq<Step>, t: nat)
    requires Possible(w, steps) && !IsTimingOut(w, t) && IsTimingOut(AfterSteps(w, steps), t)
    ensures exists i :: 0 <= i < |steps| && steps[i] == SelectTimedOut(t) && (AfterSteps(w, steps).linked <==> LinkedSince(steps, i))
    decreases steps
  {
    assert steps != [];
    var v := Next(w, steps[0]);
    if IsTimingOut(v, t) {
      OnlySelectingStartsTheCron(w, steps[0], t);
      LinkStays(w, steps[0]);
      hide Next, Enabled, EventsHappened, LinkedSince;
      LinkedIffLinkStep(v, steps[1..]);
      SinceTheTail(steps, 0);
    } else {
      hide Next, Enabled, EventsHappened, LinkedSince;
      CronSelected(v, steps[1..], t);
      var i :| 0 <= i < |steps[1..]| && steps[1..][i] == SelectTimedOut(t) && (AfterSteps(v, steps[1..]).linked <==> LinkedSince(steps[1..], i));
      SinceTheTail(steps, i + 1);
      assert steps[i + 1] == SelectTimedOut(t);
    }
  }

  /** The cron's compare-and-swap ends an order that has a payment linked if and only if the order is still pending
      and the link was committed after the cron's SELECT. */
  lemma CronEndsLinkedIff(w: World, steps: seq<Step>, t: nat, now: int)
    requires Initial(w) && Possible(w, steps) && IsTimingOut(AfterSteps(w, steps), t)
    ensures Enabled(AfterSteps(w, steps), TimeOut(t, now)) && EventsHappened(AfterSteps(w, steps))
    ensures var v := AfterSteps(w, steps);
            var u := Next(v, TimeOut(t, now));
            exists i :: 0 <= i < |steps| && steps[i] == SelectTimedOut(t)
              && (u.endedBy != v.endedBy && u.linked <==> v.row.status.PENDING? && LinkedSince(steps, i))
  {
    var v := AfterSteps(w, steps);
    AlwaysSound(w, steps);
    EventsHaveHappened(v);
    CronSelected(w, steps, t);
    hide LinkedSince, WritersOk, MoneyOk, Possible, AfterSteps;
    var i :| 0 <= i < |steps| && steps[i] == SelectTimedOut(t) && (v.linked <==> LinkedSince(steps, i));
    var u := Next(v, TimeOut(t, now));
    assert u.linked == v.linked;
    assert u.endedBy != v.endedBy <==> v.row.status.PENDING?;
  }

  /** The buyer reaches the payment page and pays while the cron is between its SELECT and its write. */
  function PaidTooLate(): seq<Step> {
    [CheckPayable(0), CreateIntent(0), SelectTimedOut(1), LinkIntent(0), BuyerPays(Some(100)), TimeOut(1, 5),
     ReadEvent(2, ChargeSucceeded), CommitEvent(2, 6, 7), CallRefund(2)]
  }

  /** The world after the first `n` of them. */
  function Reached(n: nat): World {
    var pending := FRESH_ORDER.(intent := Live);
    var linked := pending.(linked := true, writers := map[1 := TimingOut]);
    var ended := linked.(intent := Succeeded(Some(100)), writers := map[], row := FRESH.(status := EXPIRED, expiredAt := Some(5)),
                         endedBy := Some(TimeoutCron), owed := 1);
    match n
    case 0 => FRESH_ORDER
    case 1 => FRESH_ORDER.(writers := map[0 := Creating])
    case 2 => pending.(writers := map[0 := Linking])
    case 3 => pending.(writers := map[0 := Linking, 1 := TimingOut])
    case 4 => linked
    case 5 => linked.(intent := Succeeded(Some(100)))
    case 6 => ended
    case 7 => ended.(writers := map[2 := Charging(EXPIRED)])
    case 8 => ended.(writers := map[2 := Refunding], claimed := {ChargeSucceeded}, decision := Some(Refund))
    case _ => ended.(claimed := {ChargeSucceeded}, decision := Some(Refund), refunded := true)
  }

  lemma OneStepOn(n: nat)
    requires n < 9
    ensures Enabled(Reached(n), PaidTooLate()[n]) && EventsHappened(Reached(n)) && Next(Reached(n), PaidTooLate()[n]) == Reached(n + 1)
  {
    var w, v := Reached(n), Next(Reached(n), PaidTooLate()[n]);
    assert v.writers == Reached(n + 1).writers;
  }

  lemma {:induction false} RunFrom(n: nat)
    requires n <= 9
    ensures Possible(Reached(n), PaidTooLate()[n..]) && AfterSteps(Reached(n), PaidTooLate()[n..]) == Reached(9)
    decreases 9 - n
  {
    if n < 9 {
      OneStepOn(n);
      hide Reached, Next, Enabled, EventsHappened;
      RunFrom(n + 1);
      assert PaidTooLate()[n..][1..] == PaidTooLate()[n + 1..];
    }
  }

  /** It happens: a linked order is charged, ended by the cron, and the charge is refunded. */
  lemma ChargedOrderEndedByCron()
    ensures Initial(FRESH_ORDER) && Possible(FRESH_ORDER, PaidTooLate())
    ensures var v := AfterSteps(FRESH_ORDER, PaidTooLate());
            v.linked && v.intent == Succeeded(Some(100)) && v.row.status.EXPIRED? && v.endedBy == Some(TimeoutCron) && v.refunded
  {
    RunFrom(0);
    hide Possible, AfterSteps;
    assert PaidTooLate()[0..] == PaidTooLate();
  }
}
