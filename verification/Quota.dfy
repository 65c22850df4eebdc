/** What every stock script shares: the per-buyer quota hash and the markers of past releases. */
module Quota {

  /** Marks one release event; the two families of markers never collide. */
  datatype Marker = OrderMarker(orderId: nat) | DeadLetterMarker(key: nat)

  /** Seats a buyer holds; a missing field counts as none. */
  function Held(purchased: map<int, int>, user: int): int {
    if user in purchased then purchased[user] else 0
  }

  /** One buyer's field moved to a new value, or dropped when nothing positive is left; nobody else's. */
  ghost predicate FieldMoved(before: map<int, int>, after: map<int, int>, user: int, value: int, dropped: bool) {
    && (forall u :: u != user ==> (u in after <==> u in before) && (u in before ==> after[u] == before[u]))
    && (if dropped then user !in after else user in after && after[user] == value)
  }

  /** Taking quota back, with the field dropped as soon as nothing positive is left. */
  function Refund(purchased: map<int, int>, user: int, quantity: int): map<int, int> {
    var left := Held(purchased, user) - quantity;
    if left <= 0 then purchased - {user} else purchased[user := left]
  }
}
