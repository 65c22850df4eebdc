/** Who owns which seats of a zone: entries on their way to the database, and stored orders. */
module SeatOwners {
  import opened Quota
  import opened Orders
  import opened RunSets
  import opened SeatZone
  import opened SeatComplement

  /** An order row, with the seats it was stored with (the database keeps them in the hold row only). */
  datatype SeatedOrder = SeatedOrder(user: int, totalCents: int, key: nat, place: Hold, status: Status)

  datatype Owner = OfEntry(entry: nat) | OfOrder(order: nat)

  function PlaceOf(i: Intent): Hold {
    Hold(i.block, i.start, i.quantity)
  }

  /** The order row made out of an entry. */
  function Seated(i: Intent): SeatedOrder {
    SeatedOrder(i.user, i.totalCents, i.key, PlaceOf(i), PENDING)
  }

  ghost predicate Persisted(orders: map<nat, SeatedOrder>, key: nat) {
    exists o :: o in orders && orders[o].key == key
  }

  /** Seats claimed by an entry that is neither in the database nor refunded. */
  ghost predicate InFlight(released: set<Marker>, orders: map<nat, SeatedOrder>, i: Intent) {
    DeadLetterMarker(i.key) !in released && !Persisted(orders, i.key)
  }

  /** Owners and their seats; `seated` are the orders with a hold row, or whose hold is gone but whose seats are not back. */
  ghost function Owned(stream: map<nat, Intent>, released: set<Marker>, orders: map<nat, SeatedOrder>, seated: set<nat>): map<Owner, Hold> {
    map x | x in Candidates(stream, orders) && Owns(stream, released, orders, seated, x) :: Place(stream, orders, x)
  }

  ghost function Candidates(stream: map<nat, Intent>, orders: map<nat, SeatedOrder>): set<Owner> {
    (set e | e in stream :: OfEntry(e)) + (set o | o in orders :: OfOrder(o))
  }

  ghost predicate Owns(stream: map<nat, Intent>, released: set<Marker>, orders: map<nat, SeatedOrder>, seated: set<nat>, x: Owner) {
    match x
    case OfEntry(e) => e in stream && InFlight(released, orders, stream[e])
    case OfOrder(o) => o in orders && o in seated
  }

  function Place(stream: map<nat, Intent>, orders: map<nat, SeatedOrder>, x: Owner): Hold
    requires if x.OfEntry? then x.entry in stream else x.order in orders
  {
    if x.OfEntry? then PlaceOf(stream[x.entry]) else orders[x.order].place
  }

  // ------------------------------------------------------------------ free runs against owners

  /** Every existing seat is either free or owned, and by one owner only. */
  ghost predicate Balance(z: Zone, owned: map<Owner, Hold>) {
    Balanced(z, owned.Values) && Apart2(owned)
  }

  ghost predicate Apart2(owned: map<Owner, Hold>) {
    forall x, y {:trigger owned[x], owned[y]} :: x in owned && y in owned && x != y ==> NoShare(owned[x], owned[y])
  }

  lemma ValuesAfterPut(owned: map<Owner, Hold>, x: Owner, h: Hold)
    requires x !in owned
    ensures owned[x := h].Values == owned.Values + {h}
  {
    assert owned[x := h][x] == h;
    forall g | g in owned.Values ensures g in owned[x := h].Values {
      var y :| y in owned && owned[y] == g;
      assert owned[x := h][y] == g;
    }
  }

  lemma ValuesAfterRemove(owned: map<Owner, Hold>, x: Owner)
    requires x in owned && Apart2(owned) && owned[x].length >= 1
    ensures (owned - {x}).Values == owned.Values - {owned[x]}
  {
    forall g | g in owned.Values - {owned[x]} ensures g in (owned - {x}).Values {
      var y :| y in owned && owned[y] == g;
      assert y in owned - {x} && (owned - {x})[y] == g;
    }
    forall y | y in owned && y != x ensures owned[y] != owned[x] {
      assert NoShare(owned[x], owned[y]);
    }
  }

  /** A successful claim adds an owner. */
  lemma ClaimAddsOwner(z: Zone, owned: map<Owner, Hold>, a: ClaimArgs, x: Owner)
    requires Balance(z, owned) && a.length >= 1 && ClaimOutcome(z, a).Claimed? && x !in owned
    ensures Balance(AfterClaim(z, a), owned[x := ClaimedHold(a)])
  {
    var more := owned[x := ClaimedHold(a)];
    ClaimKeepsBalance(z, owned.Values, a);
    ValuesAfterPut(owned, x, ClaimedHold(a));
    hide ClaimOutcome, AfterClaim, IsComplement;
    forall y, w | y in more && w in more && y != w ensures NoShare(more[y], more[w]) {
      if y == x {
        assert owned[w] in owned.Values && NoShare(ClaimedHold(a), owned[w]);
      } else if w == x {
        assert owned[y] in owned.Values && NoShare(owned[y], ClaimedHold(a));
      } else {
        assert NoShare(owned[y], owned[w]);
      }
    }
  }

  /** Giving back what an owner has succeeds, and removes the owner. */
  lemma ReleaseRemovesOwner(z: Zone, owned: map<Owner, Hold>, a: ReleaseArgs, x: Owner)
    requires Balance(z, owned) && x in owned && owned[x] == ReleasedHold(a) && a.marker !in z.released
    ensures ReleaseSucceeds(z, a)
    ensures Balance(AfterRelease(z, a), owned - {x})
  {
    assert owned[x] in owned.Values;
    ReleaseKeepsBalance(z, owned.Values, a);
    ValuesAfterRemove(owned, x);
    hide AfterRelease, Balanced;
    forall y, w | y in owned - {x} && w in owned - {x} && y != w ensures NoShare((owned - {x})[y], (owned - {x})[w]) {
      assert NoShare(owned[y], owned[w]);
    }
  }

  /** Seats that change owner stay owned. */
  lemma OwnerRenamed(z: Zone, owned: map<Owner, Hold>, x: Owner, y: Owner)
    requires Balance(z, owned) && x in owned && y !in owned
    ensures Balance(z, (owned - {x})[y := owned[x]])
  {
    var h := owned[x];
    assert h in owned.Values && h.length >= 1;
    ValuesAfterRemove(owned, x);
    ValuesAfterPut(owned - {x}, y, h);
    var more := (owned - {x})[y := h];
    assert more.Values == owned.Values;
    hide Balanced;
    forall v, w | v in more && w in more && v != w ensures NoShare(more[v], more[w]) {
      var v', w' := if v == y then x else v, if w == y then x else w;
      assert NoShare(owned[v'], owned[w']);
    }
  }

  /** Only the free runs and the geometry matter. */
  lemma BalanceFrame(z: Zone, v: Zone, owned: map<Owner, Hold>)
    requires Balance(z, owned) && v.free == z.free && v.geom == z.geom
    ensures Balance(v, owned)
  {
  }

  /** Free and owned never meet, and nothing is lost between them. */
  lemma EachSeatOnce(z: Zone, owned: map<Owner, Hold>, b: int, p: int)
    requires Balance(z, owned) && Exists(z.geom, b, p)
    ensures Free(z.free, b, p) <==> forall x :: x in owned ==> !owned[x].Covers(b, p)
    ensures forall x, y :: x in owned && y in owned && owned[x].Covers(b, p) && owned[y].Covers(b, p) ==> x == y
  {
    if HeldBy(owned.Values, b, p) {
      var h :| h in owned.Values && h.Covers(b, p);
      var x :| x in owned && owned[x] == h;
    }
    forall x | x in owned && owned[x].Covers(b, p) ensures HeldBy(owned.Values, b, p) {
      assert owned[x] in owned.Values;
    }
    forall x, y | x in owned && y in owned && x != y ensures !(owned[x].Covers(b, p) && owned[y].Covers(b, p)) {
      assert NoShare(owned[x], owned[y]);
    }
  }
}
