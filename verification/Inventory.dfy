/** Stock of an event without a seat map: one counter, one quota hash, one stream. */
module Inventory {
  import opened Basics
  import opened Quota

  datatype ClaimState = ClaimPending | ClaimFailed

  /** Stream entry of an order that may not be in the database yet. */
  datatype Intent = Intent(user: int, quantity: int, totalCents: int, key: nat)

  datatype Stock = Stock(
    available: Option<int>,
    purchased: map<int, int>,
    claims: map<nat, ClaimState>,
    stream: map<nat, Intent>,
    nextId: nat,
    released: set<Marker>
  )

  datatype ReserveReply =
    | Dup
    | SoldOut(remaining: int)
    | OverLimit(held: int, limit: int)
    | Accepted(streamId: nat, remaining: int)

  /** What the reserve script answers. */
  function ReserveOutcome(s: Stock, i: Intent, limit: int): ReserveReply {
    if i.key in s.claims then Dup
    else if s.available.None? then SoldOut(0)
    else if s.available.value < i.quantity then SoldOut(s.available.value)
    else if Held(s.purchased, i.user) + i.quantity > limit then OverLimit(Held(s.purchased, i.user), limit)
    else Accepted(s.nextId, s.available.value - i.quantity)
  }

  function AfterReserve(s: Stock, i: Intent, limit: int): Stock {
    if !ReserveOutcome(s, i, limit).Accepted? then s
    else
      s.(available := Some(s.available.value - i.quantity),
         purchased := s.purchased[i.user := Held(s.purchased, i.user) + i.quantity],
         stream := s.stream[s.nextId := i],
         nextId := s.nextId + 1,
         claims := s.claims[i.key := ClaimPending])
  }

  /** INCRBY creates a missing counter at zero first. */
  function Count(available: Option<int>): int {
    if available.Some? then available.value else 0
  }

  function AfterRelease(s: Stock, user: int, quantity: int, marker: Marker): Stock {
    if marker in s.released then s
    else
      s.(available := Some(Count(s.available) + quantity),
         purchased := Refund(s.purchased, user, quantity),
         released := s.released + {marker})
  }

  // ------------------------------------------------------------------ the scripts, key by key

  /** Which answer the reserve script gives when, in its order of checks. */
  ghost predicate ReserveAnswers(before: Stock, i: Intent, limit: int, reply: ReserveReply) {
    var dup := i.key in before.claims;
    var short := before.available.None? || before.available.value < i.quantity;
    var over := Held(before.purchased, i.user) + i.quantity > limit;
    && (reply.Dup? <==> dup)
    && (reply.SoldOut? <==> !dup && short)
    && (reply.OverLimit? <==> !dup && !short && over)
    && (reply.Accepted? <==> !dup && !short && !over)
    && (reply.SoldOut? ==> reply.remaining == if before.available.Some? then before.available.value else 0)
    && (reply.OverLimit? ==> reply.held == Held(before.purchased, i.user) && reply.limit == limit)
  }

  /** Every key after an accepted reservation; any other answer leaves all of them alone. */
  ghost predicate ReserveEffect(before: Stock, after: Stock, i: Intent, reply: ReserveReply) {
    if !reply.Accepted? then after == before
    else
      && before.available.Some? && after.available == Some(before.available.value - i.quantity)
      && reply.remaining == before.available.value - i.quantity && reply.streamId == before.nextId
      && FieldMoved(before.purchased, after.purchased, i.user, Held(before.purchased, i.user) + i.quantity, false)
      && after.stream.Keys == before.stream.Keys + {reply.streamId} && after.stream[reply.streamId] == i
      && (forall e :: e in before.stream && e != reply.streamId ==> after.stream[e] == before.stream[e])
      && after.nextId == before.nextId + 1
      && after.claims.Keys == before.claims.Keys + {i.key} && after.claims[i.key] == ClaimPending
      && (forall k :: k in before.claims && k != i.key ==> after.claims[k] == before.claims[k])
      && after.released == before.released
  }

  /** Every key after a release: nothing for a repeat, otherwise stock, quota and marker. */
  ghost predicate ReleaseEffect(before: Stock, after: Stock, user: int, quantity: int, marker: Marker, returned: bool) {
    && (returned <==> marker !in before.released)
    && (if !returned then after == before
        else
          var left := Held(before.purchased, user) - quantity;
          && after.available == Some((if before.available.Some? then before.available.value else 0) + quantity)
          && FieldMoved(before.purchased, after.purchased, user, left, left <= 0)
          && after.released == before.released + {marker}
          && after.claims == before.claims && after.stream == before.stream && after.nextId == before.nextId)
  }

  lemma ReserveDoesWhatItSays(s: Stock, i: Intent, limit: int)
    ensures ReserveAnswers(s, i, limit, ReserveOutcome(s, i, limit))
    ensures ReserveEffect(s, AfterReserve(s, i, limit), i, ReserveOutcome(s, i, limit))
  {
  }

  lemma ReleaseDoesWhatItSays(s: Stock, user: int, quantity: int, marker: Marker)
    ensures ReleaseEffect(s, AfterRelease(s, user, quantity, marker), user, quantity, marker, marker !in s.released)
  {
  }

  class InventoryStore {
    var available: Option<int>
    var purchased: map<int, int>
    var claims: map<nat, ClaimState>
    var stream: map<nat, Intent>
    var nextId: nat
    var released: set<Marker>

    ghost function Abs(): Stock
      reads this
    {
      Stock(available, purchased, claims, stream, nextId, released)
    }

    /** `_RESERVE_AND_ENQUEUE_LUA`. */
    method ReserveAndEnqueue(i: Intent, limit: int) returns (reply: ReserveReply)
      modifies this
      ensures Abs() == AfterReserve(old(Abs()), i, limit) && reply == ReserveOutcome(old(Abs()), i, limit)
      ensures ReserveAnswers(old(Abs()), i, limit, reply) && ReserveEffect(old(Abs()), Abs(), i, reply)
      ensures !reply.Accepted? ==> Abs() == old(Abs())
    {
      ReserveDoesWhatItSays(Abs(), i, limit);
      hide ReserveAnswers, ReserveEffect;
      if i.key in claims {
        return Dup;
      }
      if available.None? || available.value < i.quantity {
        return SoldOut(Count(available));
      }
      var held := Held(purchased, i.user);
      if held + i.quantity > limit {
        return OverLimit(held, limit);
      }
      var remaining := available.value - i.quantity;
      available := Some(remaining);
      purchased := purchased[i.user := held + i.quantity];
      reply := Accepted(nextId, remaining);
      stream := stream[nextId := i];
      nextId := nextId + 1;
      claims := claims[i.key := ClaimPending];
    }

    /** `_RELEASE_LUA`; the result tells whether this call returned the seats. */
    method Release(user: int, quantity: int, marker: Marker) returns (returned: bool)
      modifies this`available, this`purchased, this`released
      ensures Abs() == AfterRelease(old(Abs()), user, quantity, marker)
      ensures ReleaseEffect(old(Abs()), Abs(), user, quantity, marker, returned)
      ensures returned <==> marker !in old(released)
    {
      ReleaseDoesWhatItSays(Abs(), user, quantity, marker);
      hide ReleaseEffect;
      if marker in released {
        return false;
      }
      released := released + {marker};
      var left := Held(purchased, user) - quantity;
      if left <= 0 {
        purchased := purchased - {user};
      } else {
        purchased := purchased[user := left];
      }
      available := Some(Count(available) + quantity);
      return true;
    }

    /** XACK and XDEL in one MULTI/EXEC. */
    method AckAndRemove(entry: nat)
      modifies this`stream
      ensures Abs() == old(Abs()).(stream := old(stream) - {entry})
    {
      stream := stream - {entry};
    }

    method MarkClaimFailed(key: nat)
      modifies this`claims
      ensures Abs() == old(Abs()).(claims := old(claims)[key := ClaimFailed])
    {
      claims := claims[key := ClaimFailed];
    }

    method SetAvailable(remaining: int)
      modifies this`available
      ensures Abs() == old(Abs()).(available := Some(remaining))
    {
      available := Some(remaining);
    }

    /** DEL and HSET in one MULTI/EXEC. */
    method ReplaceQuotas(quotas: map<int, int>)
      modifies this`purchased
      ensures Abs() == old(Abs()).(purchased := quotas)
    {
      purchased := map[];
      purchased := purchased + quotas;
    }
  }

  /** A second release under the same marker changes nothing. */
  lemma ReleaseTwiceIsOnce(s: Stock, user: int, quantity: int, marker: Marker, user2: int, quantity2: int)
    ensures AfterRelease(AfterRelease(s, user, quantity, marker), user2, quantity2, marker)
         == AfterRelease(s, user, quantity, marker)
  {
  }
}
