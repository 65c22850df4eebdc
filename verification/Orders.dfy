/** Order status and the legal moves between them. */
module Orders {

  datatype Status = PENDING | PAID | CONFIRMED | EXPIRED | CANCELLED {

    /** Still entitled to its seats. */
    predicate Holding() {
      PENDING? || PAID? || CONFIRMED?
    }

    /** Final, and owing its seats back. */
    predicate OwesRelease() {
      EXPIRED? || CANCELLED?
    }
  }

  /** The moves there are: an unpaid order is paid, expires or is cancelled; a paid one is confirmed. */
  predicate LegalMove(from: Status, to: Status) {
    || (from == PENDING && to == PAID)
    || (from == PENDING && to == EXPIRED)
    || (from == PENDING && to == CANCELLED)
    || (from == PAID && to == CONFIRMED)
  }

  function ValidTransitions(from: Status): set<Status> {
    match from
    case PENDING => {PAID, EXPIRED, CANCELLED}
    case PAID => {CONFIRMED}
    case CONFIRMED => {}
    case EXPIRED => {}
    case CANCELLED => {}
  }

  lemma TableIsTheMoves(from: Status, to: Status)
    ensures to in ValidTransitions(from) <==> LegalMove(from, to)
  {
  }

  /** Confirmed, or on its way there by legal moves. */
  predicate MayConfirm(s: Status) {
    s == CONFIRMED || LegalMove(s, CONFIRMED) || exists m :: LegalMove(s, m) && LegalMove(m, CONFIRMED)
  }

  /** An order holds its seats exactly while it may end confirmed, and owes them back exactly when it cannot any more. */
  lemma HoldsWhileItMayConfirm(s: Status)
    ensures s.Holding() <==> MayConfirm(s)
    ensures s.OwesRelease() <==> !MayConfirm(s)
  {
    assert LegalMove(PENDING, PAID) && LegalMove(PAID, CONFIRMED);
  }
}
