/** The single-use admission token around an order submission. */
module AdmissionToken {
  import opened Basics
  import opened Quota
  import opened Inventory

  /** A request that has consumed its token. */
  datatype Request =
    | Submitting(jti: nat, intent: Intent)
    | Refunding(jti: nat)

  datatype World = World(stock: Stock, limit: int, used: set<nat>, requests: map<nat, Request>, accepted: set<nat>, lost: set<nat>)

  datatype Step =
    | Verify(t: nat, jti: nat, intent: Intent)
    | RejectEarly(t: nat)
    | Submit(t: nat)
    | SubmitSeated(t: nat, accepted: bool)
    | GiveBack(t: nat)
    | Crash(t: nat)
    | Elsewhere(stock: Stock)

  predicate Enabled(w: World, s: Step) {
    match s
    case Verify(t, jti, _) => t !in w.requests && jti !in w.used
    case RejectEarly(t) => t in w.requests && w.requests[t].Submitting?
    case Submit(t) => t in w.requests && w.requests[t].Submitting?
    case SubmitSeated(t, _) => t in w.requests && w.requests[t].Submitting?
    case GiveBack(t) => t in w.requests && w.requests[t].Refunding?
    case Crash(t) => t in w.requests
    case Elsewhere(_) => true
  }

  /** A domain error: the script answered with anything but an acceptance or a repeat. */
  predicate Refused(reply: ReserveReply) {
    reply.SoldOut? || reply.OverLimit?
  }

  function Next(w: World, s: Step): World
    requires Enabled(w, s)
  {
    match s
    case Verify(t, jti, i) => w.(used := w.used + {jti}, requests := w.requests[t := Submitting(jti, i)])
    case RejectEarly(t) => w.(requests := w.requests[t := Refunding(w.requests[t].jti)])
    case Submit(t) =>
      var i, jti := w.requests[t].intent, w.requests[t].jti;
      var v := w.(stock := AfterReserve(w.stock, i, w.limit));
      if Refused(ReserveOutcome(w.stock, i, w.limit)) then v.(requests := w.requests[t := Refunding(jti)])
      else v.(requests := w.requests - {t}, accepted := w.accepted + {jti})
    // The placement loop takes the order on or raises; what it does to the zone is not part of this world.
    case SubmitSeated(t, accepted) =>
      var jti := w.requests[t].jti;
      if accepted then w.(requests := w.requests - {t}, accepted := w.accepted + {jti})
      else w.(requests := w.requests[t := Refunding(jti)])
    case GiveBack(t) => w.(used := w.used - {w.requests[t].jti}, requests := w.requests - {t})
    case Crash(t) => w.(requests := w.requests - {t}, lost := w.lost + {w.requests[t].jti})
    // Releases, other requests' tokens and everything else that changes the stock.
    case Elsewhere(stock) => w.(stock := stock)
  }

  predicate Possible(w: World, steps: seq<Step>)
    decreases steps
  {
    steps == [] || (Enabled(w, steps[0]) && Possible(Next(w, steps[0]), steps[1..]))
  }

  function AfterSteps(w: World, steps: seq<Step>): World
    requires Possible(w, steps)
    decreases steps
  {
    if steps == [] then w else AfterSteps(Next(w, steps[0]), steps[1..])
  }

  predicate InHand(w: World, jti: nat) {
    exists t :: t in w.requests && w.requests[t].jti == jti
  }

  /** A token is used exactly while a request holds it, once its order was accepted, or when its request was lost. */
  ghost predicate Inv(w: World) {
    && (forall jti :: jti in w.used <==> InHand(w, jti) || jti in w.accepted || jti in w.lost)
    && (forall t :: t in w.requests ==> w.requests[t].jti !in w.accepted && w.requests[t].jti !in w.lost)
    && (forall t, u {:trigger w.requests[t], w.requests[u]} ::
          t in w.requests && u in w.requests && w.requests[t].jti == w.requests[u].jti ==> t == u)
    && w.accepted !! w.lost
  }

  predicate Initial(w: World) {
    w.used == {} && w.requests == map[] && w.accepted == {} && w.lost == {}
  }

  lemma HandsAfterPut(w: World, v: World, t: nat, r: Request, jti: nat)
    requires v.requests == w.requests[t := r]
    ensures InHand(v, jti) <==> r.jti == jti || exists u :: u in w.requests && u != t && w.requests[u].jti == jti
  {
    assert v.requests[t] == r;
    if u :| u in w.requests && u != t && w.requests[u].jti == jti {
      assert v.requests[u].jti == jti;
    }
  }

  lemma HandsAfterRemove(w: World, v: World, t: nat, jti: nat)
    requires v.requests == w.requests - {t}
    ensures InHand(v, jti) <==> exists u :: u in w.requests && u != t && w.requests[u].jti == jti
  {
    if u :| u in w.requests && u != t && w.requests[u].jti == jti {
      assert v.requests[u].jti == jti;
    }
  }

  lemma StepKeeps(w: World, s: Step)
    requires Inv(w) && Enabled(w, s)
    ensures Inv(Next(w, s))
  {
    hide AfterReserve, ReserveOutcome;
    var v := Next(w, s);
    forall jti ensures jti in v.used <==> InHand(v, jti) || jti in v.accepted || jti in v.lost {
      if !s.Elsewhere? {
        if s.t in v.requests {
          HandsAfterPut(w, v, s.t, v.requests[s.t], jti);
        } else {
          HandsAfterRemove(w, v, s.t, jti);
        }
      }
      assert InHand(w, jti) <==> exists u :: u in w.requests && w.requests[u].jti == jti;
    }
    assert s.Verify? ==> !InHand(w, s.jti);
  }

  lemma {:induction false} AlwaysSound(w: World, steps: seq<Step>)
    requires Inv(w) && Possible(w, steps)
    ensures Inv(AfterSteps(w, steps))
    decreases steps
  {
    hide Inv, Enabled, Next;
    if steps != [] {
      StepKeeps(w, steps[0]);
      AlwaysSound(Next(w, steps[0]), steps[1..]);
    }
  }

  /** The step takes on the order of the request that holds this token. */
  predicate TakesOn(w: World, s: Step, jti: nat)
    requires Enabled(w, s)
  {
    match s
    case Submit(t) => w.requests[t].jti == jti && !Refused(ReserveOutcome(w.stock, w.requests[t].intent, w.limit))
    case SubmitSeated(t, accepted) => w.requests[t].jti == jti && accepted
    case _ => false
  }

  /** The order intents a run takes on for one token. */
  function Accepts(w: World, steps: seq<Step>, jti: nat): nat
    requires Possible(w, steps)
    decreases steps
  {
    if steps == [] then 0 else (if TakesOn(w, steps[0], jti) then 1 else 0) + Accepts(Next(w, steps[0]), steps[1..], jti)
  }

  /** One token, at most one accepted request, whatever is sent concurrently, refunded and sent again. */
  lemma {:induction false} OneAcceptancePerToken(w: World, steps: seq<Step>, jti: nat)
    requires Inv(w) && Possible(w, steps)
    ensures Accepts(w, steps, jti) <= if jti in w.accepted then 0 else 1
    decreases steps
  {
    if steps != [] {
      assert AcceptedAfter(w, steps[0], jti);
      hide Inv, Enabled, TakesOn, Next;
      StepKeeps(w, steps[0]);
      OneAcceptancePerToken(Next(w, steps[0]), steps[1..], jti);
    }
  }

  predicate AcceptedAfter(w: World, s: Step, jti: nat)
    requires Enabled(w, s)
  {
    && (jti in Next(w, s).accepted <==> jti in w.accepted || TakesOn(w, s, jti))
    && (TakesOn(w, s, jti) ==> jti !in w.accepted)
  }

  /** When no request is under way, a token is used if and only if an order was accepted for it or its request was lost. */
  lemma UsedMeansAccepted(w: World, steps: seq<Step>)
    requires Initial(w) && Possible(w, steps) && AfterSteps(w, steps).requests == map[]
    ensures var v := AfterSteps(w, steps); v.used == v.accepted + v.lost
  {
    assert forall jti :: !InHand(w, jti);
    AlwaysSound(w, steps);
    assert forall jti :: !InHand(AfterSteps(w, steps), jti);
  }

  /** After a domain error the token is unused again, and the request has left no trace in the stock. */
  lemma RefusalLeavesNothing(w: World, t: nat)
    requires Inv(w) && t in w.requests && w.requests[t].Submitting? && Refused(ReserveOutcome(w.stock, w.requests[t].intent, w.limit))
    ensures Enabled(w, Submit(t)) && Enabled(Next(w, Submit(t)), GiveBack(t))
    ensures var v := Next(Next(w, Submit(t)), GiveBack(t));
      v == w.(used := w.used - {w.requests[t].jti}, requests := w.requests - {t}) && v.stock == w.stock
  {
  }

  /** The same when the event's checks fail before the reservation, or the placement loop raises. */
  lemma RejectionLeavesNothing(w: World, s: Step)
    requires Inv(w) && Enabled(w, s) && (s.RejectEarly? || (s.SubmitSeated? && !s.accepted))
    ensures Enabled(Next(w, s), GiveBack(s.t))
    ensures Next(Next(w, s), GiveBack(s.t)) == w.(used := w.used - {w.requests[s.t].jti}, requests := w.requests - {s.t})
  {
    assert (w.requests[s.t := Refunding(w.requests[s.t].jti)]) - {s.t} == w.requests - {s.t};
  }

  // ------------------------------------------------------------------ the endpoint

  datatype Reply = NotAdmitted | DomainError | Taken

  class Tokens {
    var used: set<nat>

    constructor ()
      ensures used == {}
    {
      used := {};
    }

    /** The `SETNX` of `verify_admission`. */
    method VerifyAdmission(jti: nat) returns (admitted: bool)
      modifies this
      ensures admitted <==> jti !in old(used)
      ensures used == old(used) + {jti}
    {
      admitted := jti !in used;
      used := used + {jti};
    }

    method RefundAdmission(jti: nat)
      modifies this
      ensures used == old(used) - {jti}
    {
      used := used - {jti};
    }
  }

  class Door {
    const store: InventoryStore
    const tokens: Tokens
    const limit: int

    constructor (store: InventoryStore, tokens: Tokens, limit: int)
      ensures this.store == store && this.tokens == tokens && this.limit == limit
    {
      this.store, this.tokens, this.limit := store, tokens, limit;
    }

    /** `submit_order` after its checks on the event; `onSale` is what those checks found. */
    method SubmitOrder(i: Intent, onSale: bool) returns (accepted: bool)
      modifies store
      ensures accepted <==> onSale && !Refused(ReserveOutcome(old(store.Abs()), i, limit))
      ensures store.Abs() == if onSale then AfterReserve(old(store.Abs()), i, limit) else old(store.Abs())
      ensures !accepted ==> store.Abs() == old(store.Abs())
    {
      if !onSale {
        return false;
      }
      var reply := store.ReserveAndEnqueue(i, limit);
      return !(reply.SoldOut? || reply.OverLimit?);
    }

    /** `create_endpoint` after the rate limit: the token is consumed if and only if the order was taken on. */
    method Create(jti: nat, i: Intent, onSale: bool) returns (reply: Reply)
      modifies tokens, store
      ensures reply == NotAdmitted <==> jti in old(tokens.used)
      ensures tokens.used == old(tokens.used) + if reply == Taken then {jti} else {}
      ensures reply != Taken ==> store.Abs() == old(store.Abs())
      ensures reply == Taken <==> jti !in old(tokens.used) && onSale && !Refused(ReserveOutcome(old(store.Abs()), i, limit))
      ensures reply == Taken ==> store.Abs() == AfterReserve(old(store.Abs()), i, limit) && i.key in store.claims
      ensures jti !in old(tokens.used) && onSale ==>
        (reply == Taken <==>
          || i.key in old(store.claims)
          || (&& old(store.available).Some? && old(store.available).value >= i.quantity
              && Held(old(store.purchased), i.user) + i.quantity <= limit))
    {
      var admitted := tokens.VerifyAdmission(jti);
      if !admitted {
        return NotAdmitted;
      }
      var accepted := SubmitOrder(i, onSale);
      if !accepted {
        tokens.RefundAdmission(jti);
        return DomainError;
      }
      return Taken;
    }
  }
}
