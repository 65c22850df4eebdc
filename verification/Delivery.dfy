/** Retries: how often a stream entry is delivered and an outbox row is claimed. */
module Delivery {
  import opened Basics

  const MAX_DELIVERIES := 5
  const OUTBOX_MAX_ATTEMPTS := 8
  const OUTBOX_BACKOFF_BASE_S := 60
  const OUTBOX_BACKOFF_CAP_S := 3600

  /** Outbox row asking for the seats of one order to be returned. */
  datatype Row = Row(order: nat, attempts: nat, due: int, processed: bool)

  function Power2(n: nat): int {
    if n == 0 then 1 else 2 * Power2(n - 1)
  }

  /** How long a claimed outbox row stays out of reach. */
  function Lease(attempts: nat): int {
    MinInt(OUTBOX_BACKOFF_BASE_S * Power2(attempts), OUTBOX_BACKOFF_CAP_S)
  }

  /** The first lease is a minute, every further one twice the one before, up to an hour. */
  lemma LeaseDoubles(attempts: nat)
    ensures Lease(0) == 60 && Lease(attempts + 1) == MinInt(2 * Lease(attempts), 3600)
  {
  }

  lemma LeasesInUse()
    ensures [Lease(0), Lease(1), Lease(2), Lease(3), Lease(4), Lease(5), Lease(6), Lease(7)]
         == [60, 120, 240, 480, 960, 1920, 3600, 3600]
  {
    LeaseDoubles(0);
    LeaseDoubles(1);
    LeaseDoubles(2);
    LeaseDoubles(3);
    LeaseDoubles(4);
    LeaseDoubles(5);
    LeaseDoubles(6);
  }

  function AttemptsOn(deliveries: map<nat, nat>, e: nat): nat {
    if e in deliveries then deliveries[e] else 0
  }

  ghost predicate HasRow(outbox: map<nat, Row>, o: nat) {
    exists r :: r in outbox && outbox[r].order == o
  }

  lemma RowsAfterPut(outbox: map<nat, Row>, row: nat, added: Row)
    requires row !in outbox
    ensures HasRow(outbox[row := added], added.order)
    ensures forall o :: HasRow(outbox, o) ==> HasRow(outbox[row := added], o)
  {
    var more := outbox[row := added];
    assert more[row].order == added.order;
    forall o | HasRow(outbox, o) ensures HasRow(more, o) {
      var r :| r in outbox && outbox[r].order == o;
      assert r in more && more[r].order == o;
    }
  }
}
