/** One order row under compare-and-swap: status, timestamps, and the outbox entries written with them. */
module OrderRows {
  import opened Basics
  import opened Orders

  datatype OrderRow = OrderRow(
    status: Status,
    paidAt: Option<int>,
    confirmedAt: Option<int>,
    expiredAt: Option<int>,
    cancelledAt: Option<int>
  )

  const FRESH := OrderRow(PENDING, None, None, None, None)

  /** The CHECK constraints of the orders table on status and timestamps. */
  predicate ChecksHold(r: OrderRow) {
    && (r.status.PAID? ==> r.paidAt.Some?)
    && (r.status.CONFIRMED? ==> r.confirmedAt.Some?)
    && (r.status.EXPIRED? ==> r.expiredAt.Some?)
    && (r.status.CANCELLED? ==> r.cancelledAt.Some?)
    && (r.expiredAt.None? || r.cancelledAt.None?)
    && (r.confirmedAt.Some? ==> r.paidAt.Some?)
    && (r.confirmedAt.Some? && r.paidAt.Some? ==> r.paidAt.value <= r.confirmedAt.value)
  }

  /** A writer's attempt: the status it read earlier, the status it wants, and its clock. */
  datatype Attempt = Attempt(seen: Status, to: Status, now: int)

  datatype Reply = Applied | Lost | Illegal

  function ReplyTo(r: OrderRow, a: Attempt): Reply {
    if a.to !in ValidTransitions(a.seen) then Illegal
    else if r.status == a.seen then Applied
    else Lost
  }

  function Stamped(r: OrderRow, to: Status, now: int): OrderRow {
    match to
    case PENDING => r
    case PAID => r.(status := PAID, paidAt := Some(now))
    case CONFIRMED => r.(status := CONFIRMED, confirmedAt := Some(now))
    case EXPIRED => r.(status := EXPIRED, expiredAt := Some(now))
    case CANCELLED => r.(status := CANCELLED, cancelledAt := Some(now))
  }

  function AfterAttempt(r: OrderRow, a: Attempt): OrderRow {
    if ReplyTo(r, a).Applied? then Stamped(r, a.to, a.now) else r
  }

  // ------------------------------------------------------------------ what an attempt does, field by field

  /** When a writer is told what: by the legal moves, and by whether the row still is what the writer saw. */
  predicate AttemptAnswers(before: OrderRow, a: Attempt, reply: Reply) {
    && (reply.Illegal? <==> !LegalMove(a.seen, a.to))
    && (reply.Applied? <==> LegalMove(a.seen, a.to) && before.status == a.seen)
    && (reply.Lost? <==> LegalMove(a.seen, a.to) && before.status != a.seen)
  }

  /** An applied attempt sets the status and stamps that status's own field; nothing else ever changes. */
  predicate AttemptEffect(before: OrderRow, after: OrderRow, a: Attempt, reply: Reply) {
    if !reply.Applied? then after == before
    else
      && after.status == a.to
      && after.paidAt == (if a.to == PAID then Some(a.now) else before.paidAt)
      && after.confirmedAt == (if a.to == CONFIRMED then Some(a.now) else before.confirmedAt)
      && after.expiredAt == (if a.to == EXPIRED then Some(a.now) else before.expiredAt)
      && after.cancelledAt == (if a.to == CANCELLED then Some(a.now) else before.cancelledAt)
  }

  lemma AttemptDoesWhatItSays(r: OrderRow, a: Attempt)
    ensures AttemptAnswers(r, a, ReplyTo(r, a)) && AttemptEffect(r, AfterAttempt(r, a), a, ReplyTo(r, a))
  {
    TableIsTheMoves(a.seen, a.to);
  }

  /** The order as its transactions see it, with the seat-release entries they have put in the outbox. */
  class OrderStore {
    const id: nat
    var row: OrderRow
    var outbox: seq<nat>

    constructor (id: nat)
      ensures this.id == id && row == FRESH && outbox == []
    {
      this.id, row, outbox := id, FRESH, [];
    }

    /** `transition_order_status`: the WHERE clause compares with the status read earlier. */
    method TransitionOrderStatus(a: Attempt) returns (reply: Reply)
      modifies this`row
      ensures reply == ReplyTo(old(row), a) && row == AfterAttempt(old(row), a)
      ensures AttemptAnswers(old(row), a, reply) && AttemptEffect(old(row), row, a, reply)
    {
      AttemptDoesWhatItSays(row, a);
      if a.to !in ValidTransitions(a.seen) {
        return Illegal;
      }
      if row.status != a.seen {
        return Lost;
      }
      match a.to {
        case PAID => row := row.(status := PAID, paidAt := Some(a.now));
        case CONFIRMED => row := row.(status := CONFIRMED, confirmedAt := Some(a.now));
        case EXPIRED => row := row.(status := EXPIRED, expiredAt := Some(a.now));
        case CANCELLED => row := row.(status := CANCELLED, cancelledAt := Some(a.now));
      }
      return Applied;
    }

    /** `_transition_owing_release`: the outbox entry goes in only with the transition itself. */
    method TransitionOwingRelease(a: Attempt) returns (reply: Reply)
      requires a.to.OwesRelease()
      modifies this
      ensures reply == ReplyTo(old(row), a) && row == AfterAttempt(old(row), a)
      ensures outbox == old(outbox) + if reply.Applied? then [id] else []
    {
      reply := TransitionOrderStatus(a);
      if reply.Applied? {
        outbox := outbox + [id];
      }
    }

    /** Any writer's transaction: the two services that owe seats back go through `_transition_owing_release`. */
    method Attempted(a: Attempt) returns (reply: Reply)
      modifies this
      ensures reply == ReplyTo(old(row), a) && row == AfterAttempt(old(row), a)
      ensures outbox == old(outbox) + if reply.Applied? && a.to.OwesRelease() then [id] else []
    {
      if a.to.OwesRelease() {
        reply := TransitionOwingRelease(a);
      } else {
        reply := TransitionOrderStatus(a);
      }
    }

    /**
     * Any interleaving of writers, each with whatever status it happened to read, on a clock that does not go
     * back. The row meets every CHECK after every transaction, exactly one of them moves the order out of PENDING
     * if any does, and exactly one release is owed if and only if the order expired or was cancelled.
     */
    method AllAttempted(attempts: seq<Attempt>) returns (replies: seq<Reply>)
      requires row == FRESH && outbox == [] && ClockMonotone(attempts)
      modifies this
      ensures |replies| == |attempts| && replies == Replies(FRESH, attempts) && row == AfterAttempts(FRESH, attempts)
      ensures ChecksHold(row)
      ensures Departures(FRESH, attempts) == if row.status.PENDING? then 0 else 1
      ensures outbox == if row.status.OwesRelease() then [id] else []
    {
      replies := [];
      for n := 0 to |attempts|
        invariant |replies| == n && replies == Replies(FRESH, attempts[..n]) && row == AfterAttempts(FRESH, attempts[..n])
        invariant outbox == if row.status.OwesRelease() then [id] else []
      {
        var reply := Attempted(attempts[n]);
        AttemptsGrow(FRESH, attempts[..n], attempts[n]);
        replies := replies + [reply];
        assert attempts[..n + 1] == attempts[..n] + [attempts[n]];
      }
      assert attempts[..|attempts|] == attempts;
      RowsStaySane(FRESH, attempts);
      LeavesPendingOnce(FRESH, attempts);
    }
  }

  // ------------------------------------------------------------------ sequences of attempts

  function AfterAttempts(r: OrderRow, attempts: seq<Attempt>): OrderRow
    decreases attempts
  {
    if attempts == [] then r else AfterAttempts(AfterAttempt(r, attempts[0]), attempts[1..])
  }

  function Replies(r: OrderRow, attempts: seq<Attempt>): (replies: seq<Reply>)
    ensures |replies| == |attempts|
    decreases attempts
  {
    if attempts == [] then [] else [ReplyTo(r, attempts[0])] + Replies(AfterAttempt(r, attempts[0]), attempts[1..])
  }

  /** How many attempts moved the order out of PENDING. */
  function Departures(r: OrderRow, attempts: seq<Attempt>): nat
    decreases attempts
  {
    if attempts == [] then 0
    else
      (if r.status.PENDING? && !AfterAttempt(r, attempts[0]).status.PENDING? then 1 else 0)
      + Departures(AfterAttempt(r, attempts[0]), attempts[1..])
  }

  predicate ClockMonotone(attempts: seq<Attempt>) {
    forall i, j :: 0 <= i < j < |attempts| ==> attempts[i].now <= attempts[j].now
  }

  lemma {:induction false} AttemptsGrow(r: OrderRow, attempts: seq<Attempt>, a: Attempt)
    ensures AfterAttempts(r, attempts + [a]) == AfterAttempt(AfterAttempts(r, attempts), a)
    ensures Replies(r, attempts + [a]) == Replies(r, attempts) + [ReplyTo(AfterAttempts(r, attempts), a)]
    decreases attempts
  {
    if attempts == [] {
      assert [a][1..] == [];
    } else {
      assert (attempts + [a])[1..] == attempts[1..] + [a];
      AttemptsGrow(AfterAttempt(r, attempts[0]), attempts[1..], a);
    }
  }

  /** Every timestamp is from the past and stands for a status the order has been in. */
  predicate Sane(r: OrderRow, now: int) {
    && ChecksHold(r)
    && (r.paidAt.Some? <==> r.status.PAID? || r.status.CONFIRMED?)
    && (r.confirmedAt.Some? <==> r.status.CONFIRMED?)
    && (r.expiredAt.Some? <==> r.status.EXPIRED?)
    && (r.cancelledAt.Some? <==> r.status.CANCELLED?)
    && (r.paidAt.Some? ==> r.paidAt.value <= now)
  }

  /** On a monotone clock every CHECK holds in every committed state. */
  lemma {:induction false} SaneAlways(r: OrderRow, attempts: seq<Attempt>, now: int)
    requires Sane(r, now) && ClockMonotone(attempts) && (attempts != [] ==> now <= attempts[0].now)
    ensures ChecksHold(AfterAttempts(r, attempts))
    decreases attempts
  {
    if attempts != [] {
      var a := attempts[0];
      assert Sane(AfterAttempt(r, a), a.now);
      SaneAlways(AfterAttempt(r, a), attempts[1..], a.now);
    }
  }

  lemma RowsStaySane(r: OrderRow, attempts: seq<Attempt>)
    requires r == FRESH && ClockMonotone(attempts)
    ensures ChecksHold(AfterAttempts(r, attempts))
  {
    SaneAlways(r, attempts, if attempts == [] then 0 else attempts[0].now);
  }

  predicate Final(s: Status) {
    s.CONFIRMED? || s.EXPIRED? || s.CANCELLED?
  }

  /** A final row never changes again, whatever anybody has read before. */
  lemma {:induction false} FinalIsFinal(r: OrderRow, attempts: seq<Attempt>)
    requires Final(r.status)
    ensures AfterAttempts(r, attempts) == r
    ensures forall i :: 0 <= i < |attempts| ==> !Replies(r, attempts)[i].Applied?
    decreases attempts
  {
    if attempts != [] {
      FinalIsFinal(r, attempts[1..]);
    }
  }

  /** Of all writers that saw PENDING exactly one gets the order, unless none tries a legal move. */
  lemma {:induction false} LeavesPendingOnce(r: OrderRow, attempts: seq<Attempt>)
    ensures Departures(r, attempts) == if r.status.PENDING? && !AfterAttempts(r, attempts).status.PENDING? then 1 else 0
    ensures !r.status.PENDING? ==> !AfterAttempts(r, attempts).status.PENDING?
    decreases attempts
  {
    if attempts != [] {
      LeavesPendingOnce(AfterAttempt(r, attempts[0]), attempts[1..]);
    }
  }

  lemma {:induction false} StatusMoves(r: OrderRow, attempts: seq<Attempt>)
    ensures var s := AfterAttempts(r, attempts).status;
      && (r.status == PAID ==> s == PAID || s == CONFIRMED)
      && (Final(r.status) ==> s == r.status)
      && (s == PENDING ==> r.status == PENDING)
      && (s == CONFIRMED ==> r.status == PENDING || r.status == PAID || r.status == CONFIRMED)
    decreases attempts
  {
    if attempts != [] {
      AttemptDoesWhatItSays(r, attempts[0]);
      StatusMoves(AfterAttempt(r, attempts[0]), attempts[1..]);
    }
  }

  /** A paid order is only ever confirmed, and an order confirmed from PENDING was paid before. */
  lemma PaidIsOnlyConfirmed(r: OrderRow, attempts: seq<Attempt>)
    requires StampsFit(r)
    ensures r.status == PAID ==> AfterAttempts(r, attempts).status == PAID || AfterAttempts(r, attempts).status == CONFIRMED
    ensures r.status == PENDING && AfterAttempts(r, attempts).status == CONFIRMED ==>
      exists i, j :: MovedTo(r, attempts, i, PAID) && MovedTo(r, attempts, j, CONFIRMED)
  {
    StatusMoves(r, attempts);
    StampIsTheMover(r, attempts, PAID);
    StampIsTheMover(r, attempts, CONFIRMED);
  }

  /** Whoever saw PENDING on a pending order gets it paid, expired or cancelled by one attempt; and each of the five
      statuses is reached by some attempts. */
  lemma EveryStatusIsReached(to: Status, now: int) returns (attempts: seq<Attempt>)
    ensures AfterAttempts(FRESH, attempts).status == to
    ensures to == PAID || to == EXPIRED || to == CANCELLED ==> attempts == [Attempt(PENDING, to, now)]
  {
    match to
    case PENDING => attempts := [];
    case CONFIRMED =>
      attempts := [Attempt(PENDING, PAID, now), Attempt(PAID, CONFIRMED, now)];
      var paid := AfterAttempt(FRESH, attempts[0]);
      AttemptDoesWhatItSays(FRESH, attempts[0]);
      AttemptDoesWhatItSays(paid, attempts[1]);
      assert attempts[1..] == [attempts[1]] && attempts[1..][1..] == [];
      assert AfterAttempts(paid, attempts[1..]) == AfterAttempt(paid, attempts[1]);
    case _ =>
      attempts := [Attempt(PENDING, to, now)];
      AttemptDoesWhatItSays(FRESH, attempts[0]);
      assert attempts[1..] == [];
      assert AfterAttempts(FRESH, attempts) == AfterAttempt(FRESH, attempts[0]);
  }

  /** Somebody gets the order exactly when somebody tries a legal move out of PENDING. */
  lemma {:induction false} PendingUntilSomeoneTries(r: OrderRow, attempts: seq<Attempt>)
    requires r.status.PENDING?
    ensures AfterAttempts(r, attempts).status.PENDING? <==>
      forall i :: 0 <= i < |attempts| ==> !(attempts[i].seen.PENDING? && attempts[i].to in ValidTransitions(PENDING))
    decreases attempts
  {
    if attempts != [] {
      var a := attempts[0];
      if a.seen.PENDING? && a.to in ValidTransitions(PENDING) {
        LeavesPendingOnce(AfterAttempt(r, a), attempts[1..]);
      } else {
        PendingUntilSomeoneTries(r, attempts[1..]);
      }
    }
  }

  // ------------------------------------------------------------------ whatever the clock does

  function StampOf(r: OrderRow, s: Status): Option<int> {
    match s
    case PENDING => None
    case PAID => r.paidAt
    case CONFIRMED => r.confirmedAt
    case EXPIRED => r.expiredAt
    case CANCELLED => r.cancelledAt
  }

  /** Every timestamp stands for a status the order is in or, for PAID, has been in. */
  predicate StampsFit(r: OrderRow) {
    && (r.paidAt.Some? <==> r.status.PAID? || r.status.CONFIRMED?)
    && (r.confirmedAt.Some? <==> r.status.CONFIRMED?)
    && (r.expiredAt.Some? <==> r.status.EXPIRED?)
    && (r.cancelledAt.Some? <==> r.status.CANCELLED?)
  }

  /** Attempt number `i` moved the row to `s`. */
  predicate MovedTo(r: OrderRow, attempts: seq<Attempt>, i: int, s: Status) {
    0 <= i < |attempts| && Replies(r, attempts)[i].Applied? && attempts[i].to == s
  }

  lemma MovedLater(r: OrderRow, attempts: seq<Attempt>, i: int, s: Status)
    requires attempts != [] && i >= 0
    ensures MovedTo(r, attempts, i + 1, s) <==> MovedTo(AfterAttempt(r, attempts[0]), attempts[1..], i, s)
  {
  }

  /** A timestamp is the clock of the one attempt that moved the row there, and is never written again. */
  lemma {:induction false} StampIsTheMover(r: OrderRow, attempts: seq<Attempt>, s: Status)
    requires StampsFit(r) && !s.PENDING?
    ensures StampsFit(AfterAttempts(r, attempts))
    ensures StampOf(r, s).Some? ==> StampOf(AfterAttempts(r, attempts), s) == StampOf(r, s)
    ensures forall i :: MovedTo(r, attempts, i, s) ==>
              StampOf(r, s).None? && StampOf(AfterAttempts(r, attempts), s) == Some(attempts[i].now)
    ensures StampOf(r, s).None? && StampOf(AfterAttempts(r, attempts), s).Some? ==> exists i :: MovedTo(r, attempts, i, s)
    decreases attempts
  {
    if attempts != [] {
      var v := AfterAttempt(r, attempts[0]);
      FirstMove(r, attempts, s);
      hide StampsFit, StampOf, AfterAttempt;
      StampIsTheMover(v, attempts[1..], s);
      forall i | MovedTo(r, attempts, i, s)
        ensures StampOf(r, s).None? && StampOf(AfterAttempts(r, attempts), s) == Some(attempts[i].now)
      {
        if i > 0 {
          MovedLater(r, attempts, i - 1, s);
        }
      }
      if StampOf(v, s).None? && StampOf(AfterAttempts(v, attempts[1..]), s).Some? {
        var i :| MovedTo(v, attempts[1..], i, s);
        MovedLater(r, attempts, i, s);
      }
    }
  }

  lemma FirstMove(r: OrderRow, attempts: seq<Attempt>, s: Status)
    requires StampsFit(r) && !s.PENDING? && attempts != []
    ensures var v := AfterAttempt(r, attempts[0]);
            && StampsFit(v)
            && (StampOf(r, s).Some? ==> StampOf(v, s) == StampOf(r, s))
            && (MovedTo(r, attempts, 0, s) ==> StampOf(r, s).None? && StampOf(v, s) == Some(attempts[0].now))
            && (StampOf(r, s).None? && StampOf(v, s).Some? ==> MovedTo(r, attempts, 0, s))
  {
  }

  /** On any clock and over any interleaving: the CHECKs reject the row exactly when the transition to CONFIRMED
      was stamped with an earlier time than the transition to PAID. */
  lemma ClockDecidesTheChecks(attempts: seq<Attempt>)
    ensures ChecksHold(AfterAttempts(FRESH, attempts)) <==>
      forall i, j :: MovedTo(FRESH, attempts, i, PAID) && MovedTo(FRESH, attempts, j, CONFIRMED) ==> attempts[i].now <= attempts[j].now
  {
    StampIsTheMover(FRESH, attempts, PAID);
    StampIsTheMover(FRESH, attempts, CONFIRMED);
    hide AfterAttempts, MovedTo;
  }

  /** Paying and confirming passes the check on their order exactly when the clock has not gone back in between. */
  lemma ClockDecidesPaidBeforeConfirmed(paid: int, confirmed: int)
    ensures ChecksHold(AfterAttempts(FRESH, [Attempt(PENDING, PAID, paid), Attempt(PAID, CONFIRMED, confirmed)]))
       <==> paid <= confirmed
  {
    var first, second := Attempt(PENDING, PAID, paid), Attempt(PAID, CONFIRMED, confirmed);
    assert [first, second][1..] == [second];
    assert [second][1..] == [];
    var paidRow := AfterAttempt(FRESH, first);
    assert paidRow == OrderRow(PAID, Some(paid), None, None, None);
    assert AfterAttempts(paidRow, [second]) == AfterAttempt(paidRow, second);
  }
}
