/** What the two scripts promise, key by key: which answer is given when, and every field afterwards. */
module SeatScripts {
  import opened Quota
  import opened RunSets
  import opened SeatZone

  /** A new stream entry, and no other change to the stream. */
  ghost predicate Enqueued(before: map<nat, Intent>, after: map<nat, Intent>, id: nat, user: int, quantity: int, cents: int, key: nat, block: int, start: int) {
    && after.Keys == before.Keys + {id}
    && (forall e :: e in before && e != id ==> after[e] == before[e])
    && after[id].user == user && after[id].quantity == quantity && after[id].totalCents == cents && after[id].key == key
    && after[id].block == block && after[id].start == start
  }

  /** Exactly these seats stopped being free. */
  ghost predicate CellsTaken(before: set<Run>, after: set<Run>, block: int, start: int, end: int) {
    forall b, p {:trigger Free(after, b, p)} {:trigger Free(before, b, p)} ::
      Free(after, b, p) <==> Free(before, b, p) && !(b == block && start <= p < end)
  }

  // ------------------------------------------------------------------ claim

  ghost predicate ClaimAnswers(before: Zone, a: ClaimArgs, reply: ClaimReply) {
    var dup := a.key in before.claims;
    var over := Held(before.purchased, a.user) + a.length > a.limit;
    var there := Run(a.block, a.runStart, a.runLength) in before.free;
    var inside := a.runStart <= a.start && a.start + a.length <= a.runStart + a.runLength;
    && (reply.Dup? <==> dup)
    && (reply.OverLimit? <==> !dup && over)
    && (reply.Retry? <==> !dup && !over && !there)
    && (reply.Bounds? <==> !dup && !over && there && !inside)
    && (reply.Claimed? <==> !dup && !over && there && inside)
    && (reply.OverLimit? ==> reply.held == Held(before.purchased, a.user) && reply.limit == a.limit)
  }

  ghost predicate ClaimEffect(before: Zone, after: Zone, a: ClaimArgs, reply: ClaimReply) {
    if !reply.Claimed? then after == before
    else
      && reply.streamId == before.nextId && reply.zoneRemaining == Seats(before.free) - a.length
      && Enqueued(before.stream, after.stream, reply.streamId, a.user, a.length, a.totalCents, a.key, a.block, a.start)
      && after.nextId == before.nextId + 1
      && FieldMoved(before.purchased, after.purchased, a.user, Held(before.purchased, a.user) + a.length, false)
      && after.eventAvailable == before.eventAvailable - a.length && Seats(after.free) == Seats(before.free) - a.length
      && after.claims == before.claims + {a.key}
      && CellsTaken(before.free, after.free, a.block, a.start, a.start + a.length)
      && after.geom == before.geom && after.released == before.released
  }

  lemma ClaimDoesWhatItSays(z: Zone, a: ClaimArgs)
    requires Canonical(z.free) && a.length >= 1
    ensures ClaimAnswers(z, a, ClaimOutcome(z, a)) && ClaimEffect(z, AfterClaim(z, a), a, ClaimOutcome(z, a))
  {
    if ClaimOutcome(z, a).Claimed? {
      OccupySetMeaning(z.free, a.Host(), a.start, a.length);
      SeatsOccupy(z.free, a.Host(), a.start, a.length);
      hide OccupySet, Seats, Canonical;
    }
  }

  // ------------------------------------------------------------------ release

  ghost predicate ReleaseAnswers(before: Zone, a: ReleaseArgs, reply: ReleaseReply) {
    var dup := a.marker in before.released;
    var outside := a.block in before.geom && (a.start < 0 || a.start + a.length > before.geom[a.block].capacity);
    var clash := exists p :: a.start <= p < a.start + a.length && Free(before.free, a.block, p);
    && (reply.AlreadyReleased? <==> dup)
    && (reply.OutOfBounds? <==> !dup && outside)
    && (reply.Overlap? <==> !dup && !outside && clash)
    && (reply.Released? <==> !dup && !outside && !clash)
    && (reply.OutOfBounds? ==> reply.capacity == before.geom[a.block].capacity)
  }

  ghost predicate ReleaseEffect(before: Zone, after: Zone, a: ReleaseArgs, reply: ReleaseReply) {
    if !reply.Released? then after == before
    else
      var left := Held(before.purchased, a.user) - a.length;
      && FieldMoved(before.purchased, after.purchased, a.user, left, left <= 0)
      && after.released == before.released + {a.marker}
      && after.eventAvailable == before.eventAvailable + a.length && Seats(after.free) == Seats(before.free) + a.length
      && reply.zoneRemaining == Seats(before.free) + a.length
      && CellsTaken(after.free, before.free, a.block, a.start, a.start + a.length)
      && (forall p :: a.start <= p < a.start + a.length ==> Free(after.free, a.block, p))
      && after.stream == before.stream && after.nextId == before.nextId && after.claims == before.claims && after.geom == before.geom
  }

  lemma TakenMeansNoneFree(rs: set<Run>, b: int, lo: int, hi: int)
    requires Canonical(rs) && lo < hi
    ensures Taken(rs, b, lo, hi) <==> !exists p :: lo <= p < hi && Free(rs, b, p)
  {
    if !Taken(rs, b, lo, hi) {
      var r :| r in rs && r.block == b && r.start < hi && lo < r.End();
      var p := if r.start >= lo then r.start else lo;
      assert r.length >= 1 && r.Covers(b, p);
      assert Free(rs, b, p);
    }
    if p :| lo <= p < hi && Free(rs, b, p) {
      var r :| r in rs && r.Covers(b, p);
      assert r.start < hi && lo < r.End();
    }
  }

  lemma ReleaseDoesWhatItSays(z: Zone, a: ReleaseArgs, reply: ReleaseReply)
    requires Canonical(z.free) && a.length >= 1 && ReleaseReplies(z, a, reply)
    ensures ReleaseAnswers(z, a, reply) && ReleaseEffect(z, AfterRelease(z, a), a, reply)
  {
    TakenMeansNoneFree(z.free, a.block, a.start, a.End());
    if ReleaseSucceeds(z, a) {
      ReleaseSetMeaning(z.free, a.block, a.start, a.End());
      SeatsRelease(z.free, a.block, a.start, a.End());
      hide ReleaseSet, Seats, Canonical, Taken;
      FreedCells(z.free, AfterRelease(z, a).free, a);
    } else {
      hide ReleaseSet, Seats, Canonical, Taken;
    }
  }

  lemma ReleaseSaysWhatItDoes(z: Zone, a: ReleaseArgs)
    requires Canonical(z.free) && a.length >= 1
    ensures forall reply {:trigger ReleaseReplies(z, a, reply)} :: ReleaseReplies(z, a, reply) ==>
              ReleaseAnswers(z, a, reply) && ReleaseEffect(z, AfterRelease(z, a), a, reply)
  {
    forall reply | ReleaseReplies(z, a, reply)
      ensures ReleaseAnswers(z, a, reply) && ReleaseEffect(z, AfterRelease(z, a), a, reply)
    {
      ReleaseDoesWhatItSays(z, a, reply);
    }
  }

  lemma FreedCells(before: set<Run>, after: set<Run>, a: ReleaseArgs)
    requires forall c, p :: Free(after, c, p) <==> Free(before, c, p) || (c == a.block && a.start <= p < a.End())
    requires !exists p :: a.start <= p < a.End() && Free(before, a.block, p)
    ensures CellsTaken(after, before, a.block, a.start, a.start + a.length)
  {
  }

  // ------------------------------------------------------------------ counting

  /** The free seats themselves. */
  ghost function SeatsOfRun(r: Run): set<(int, int)> {
    set p | r.start <= p < r.End() :: (r.block, p)
  }

  ghost function FreeSeats(rs: set<Run>): set<(int, int)> {
    set r, p | r in rs && r.start <= p < r.End() :: (r.block, p)
  }

  lemma {:induction false} RunHasItsLength(r: Run)
    requires r.length >= 0
    ensures |SeatsOfRun(r)| == r.length
    decreases r.length
  {
    if r.length == 0 {
      assert SeatsOfRun(r) == {};
    } else {
      var shorter := Run(r.block, r.start, r.length - 1);
      RunHasItsLength(shorter);
      assert SeatsOfRun(r) == SeatsOfRun(shorter) + {(r.block, r.End() - 1)};
    }
  }

  lemma OneRunLess(rs: set<Run>, r: Run)
    requires Canonical(rs) && r in rs
    ensures FreeSeats(rs) == FreeSeats(rs - {r}) + SeatsOfRun(r) && FreeSeats(rs - {r}) !! SeatsOfRun(r)
  {
    forall c | c in FreeSeats(rs - {r}) ensures c !in SeatsOfRun(r) {
      var q :| q in rs - {r} && q.block == c.0 && q.start <= c.1 < q.End();
      assert Apart(q, r);
    }
  }

  lemma FreeSeatsAreFree(rs: set<Run>, b: int, p: int)
    ensures (b, p) in FreeSeats(rs) <==> Free(rs, b, p)
  {
    if Free(rs, b, p) {
      var r :| r in rs && r.Covers(b, p);
      assert r in rs && r.start <= p < r.End();
    }
  }

  lemma Smaller(rs: set<Run>, r: Run)
    requires Canonical(rs)
    ensures Canonical(rs - {r})
  {
  }

  /** The counter counts seats: it is the number of positions that are free. */
  lemma {:induction false} SeatsCountSeats(rs: set<Run>)
    requires Canonical(rs)
    ensures Seats(rs) == |FreeSeats(rs)|
    decreases rs
  {
    if rs == {} {
      assert FreeSeats(rs) == {};
    } else {
      var r :| r in rs;
      assert r.length >= 1;
      SeatsRemove(rs, r);
      Smaller(rs, r);
      OneRunLess(rs, r);
      RunHasItsLength(r);
      hide FreeSeats, SeatsOfRun, Canonical, Seats;
      SeatsCountSeats(rs - {r});
    }
  }
}
