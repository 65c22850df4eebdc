/** The single-use admission token around an order for seats: the same endpoint with the placement loop behind it. */
module SeatedAdmission {
  import opened Basics
  import opened Seating
  import opened SeatZone
  import opened SeatRuns
  import opened SeatReserve
  import opened AdmissionToken

  /** No order, with the error of the loop if it was reached, or the loop's success. */
  datatype SeatedReply = Rejected | Failed(why: Option<Outcome>) | TakenOn(what: Outcome)

  /** `None` from the loop means that the key was claimed before, which counts as taken on. */
  predicate Successful(o: Outcome) {
    o.Reserved? || o.AlreadyClaimed?
  }

  lemma FailureLeavesNothing(
    start: Zone, rounds: seq<Round>, attempts: nat, after: Zone, req: SeatReserve.Request, effective: Policy, draw: nat, o: Outcome
  )
    requires 1 <= attempts <= |rounds| && !Successful(o)
    requires if o.SeatContention? then after == ZoneAfter(start, rounds, attempts)
             else Explained(ZoneRead(start, rounds, attempts - 1), ZoneAfter(start, rounds, attempts), after, req, effective, draw, o)
    ensures after == ZoneAfter(start, rounds, attempts)
  {
    hide ZoneAfter, ZoneRead;
  }

  lemma SuccessClaimsTheKey(
    start: Zone, rounds: seq<Round>, attempts: nat, after: Zone, req: SeatReserve.Request, effective: Policy, draw: nat, o: Outcome
  )
    requires 1 <= attempts <= |rounds| && Successful(o)
    requires Explained(ZoneRead(start, rounds, attempts - 1), ZoneAfter(start, rounds, attempts), after, req, effective, draw, o)
    ensures req.key in after.claims
  {
    hide ZoneAfter, ZoneRead, LegalOffset, Drawn;
  }

  class SeatedDoor {
    const store: ZoneStore
    const tokens: Tokens

    constructor (store: ZoneStore, tokens: Tokens)
      ensures this.store == store && this.tokens == tokens
    {
      this.store, this.tokens := store, tokens;
    }

    /**
     * `create_endpoint` for an event with seats.  The token is consumed if and only if the order was taken on; after
     * any domain error it is unused, and the zone is what the scripts of other clients alone made of it.
     */
    method Create(jti: nat, req: SeatReserve.Request, onSale: bool, rounds: seq<Round>, picks: seq<nat>)
      returns (reply: SeatedReply, attempts: nat, effective: Policy, switched: Option<nat>)
      requires store.Valid() && Sound(store.Abs()) && GeometryAllowed(store.geom)
      requires req.quantity >= 1 && req.topK >= 1
      requires |rounds| == |picks| == MAX_CAS_ATTEMPTS && AllPolite(store.geom, rounds)
      modifies tokens, store
      ensures store.Valid() && Sound(store.Abs()) && attempts <= MAX_CAS_ATTEMPTS
      ensures reply.Rejected? <==> jti in old(tokens.used)
      ensures tokens.used == old(tokens.used) + if reply.TakenOn? then {jti} else {}
      ensures reply.Failed? && reply.why.None? <==> jti !in old(tokens.used) && !onSale
      ensures !reply.TakenOn? ==> store.Abs() == ZoneAfter(old(store.Abs()), rounds, attempts)
      ensures reply.Rejected? || (reply.Failed? && reply.why.None?) <==> attempts == 0
      ensures reply.Failed? && reply.why.Some? ==> !Successful(reply.why.value)
      ensures attempts > 0 ==> effective == if old(store.relaxed) || switched.Some? then ENDGAME_POLICY else req.policy
      ensures reply.TakenOn? ==> Successful(reply.what) && req.key in store.claims
      ensures reply.TakenOn? ==>
        Explained(ZoneRead(old(store.Abs()), rounds, attempts - 1), ZoneAfter(old(store.Abs()), rounds, attempts), store.Abs(),
                  req, effective, picks[attempts - 1], reply.what)
    {
      ghost var before := store.Abs();
      assert CommandsOf(rounds[..0]) == [];
      effective := req.policy;
      var admitted := tokens.VerifyAdmission(jti);
      if !admitted {
        return Rejected, 0, effective, None;
      }
      if !onSale {
        tokens.RefundAdmission(jti);
        return Failed(None), 0, effective, None;
      }
      var outcome: Outcome;
      outcome, attempts, effective, switched := ReserveSeatsAndEnqueue(store, req, rounds, picks);
      if !Successful(outcome) {
        FailureLeavesNothing(before, rounds, attempts, store.Abs(), req, effective, picks[attempts - 1], outcome);
        tokens.RefundAdmission(jti);
        return Failed(Some(outcome)), attempts, effective, switched;
      }
      SuccessClaimsTheKey(before, rounds, attempts, store.Abs(), req, effective, picks[attempts - 1], outcome);
      return TakenOn(outcome), attempts, effective, switched;
    }
  }
}
