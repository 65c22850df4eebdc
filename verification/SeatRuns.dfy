/** The Redis side of seat placement: scripts that cut and merge runs in place. */
module SeatRuns {
  import opened Basics
  import opened Quota
  import opened RunSets
  import opened SeatZone
  import opened SeatHash
  import opened SeatScripts

  const STRICT_MISS_THRESHOLD := 3

  /** Keys of one zone of one event.  Each method is one atomic script or transaction. */
  class ZoneStore {
    var runs: map<Cell, int>
    var ends: map<Cell, int>
    var geom: map<int, BlockGeom>
    var zoneAvailable: int
    var eventAvailable: int
    var purchased: map<int, int>
    var claims: set<nat>
    var stream: map<nat, Intent>
    var nextId: nat
    var released: set<Marker>
    var misses: nat
    var relaxed: bool

    /** The runs the hashes stand for. */
    ghost var free: set<Run>

    ghost function Abs(): Zone
      reads this
    {
      Zone(free, geom, eventAvailable, purchased, claims, stream, nextId, released)
    }

    ghost predicate Indexed()
      reads this`runs, this`ends, this`free
    {
      Canonical(free) && HashOf(runs, free) && IndexOf(ends, free)
    }

    /** `runs` holds maximal runs, `ends` is its exact inverse and the counter is their total length. */
    ghost predicate Valid()
      reads this`runs, this`ends, this`free, this`zoneAvailable
    {
      Indexed() && zoneAvailable == Seats(free)
    }

    // ---------------------------------------------------------------- the two hashes

    /** HDEL of both fields of a run. */
    method DeleteRun(block: int, start: int, end: int)
      requires Indexed() && Run(block, start, end - start) in free
      modifies this`runs, this`ends, this`free
      ensures Indexed() && free == old(free) - {Run(block, start, end - start)}
    {
      HashRemove(runs, ends, free, Run(block, start, end - start));
      runs := runs - {Cell(block, start)};
      ends := ends - {Cell(block, end)};
      free := free - {Run(block, start, end - start)};
    }

    /** HSET of both fields of a new run. */
    method WriteRun(block: int, start: int, end: int)
      requires Indexed() && start < end
      requires forall r :: r in free ==> Apart(r, Run(block, start, end - start))
      modifies this`runs, this`ends, this`free
      ensures Indexed() && free == old(free) + {Run(block, start, end - start)}
    {
      HashPut(runs, ends, free, Run(block, start, end - start));
      runs := runs[Cell(block, start) := end - start];
      ends := ends[Cell(block, end) := start];
      free := free + {Run(block, start, end - start)};
    }

    // ---------------------------------------------------------------- claim

    /** Step 3 of the claim script: the run goes, its zero to two remainders come back. */
    method CutRun(block: int, runStart: int, runLength: int, start: int, length: int)
      requires Indexed() && Run(block, runStart, runLength) in free
      requires length >= 1 && Hosts(Run(block, runStart, runLength), start, length)
      modifies this`runs, this`ends, this`free
      ensures Indexed() && free == OccupySet(old(free), Run(block, runStart, runLength), start, length)
    {
      ghost var host := Run(block, runStart, runLength);
      assert forall r :: r in free - {host} ==> Apart(r, host);
      var runEnd, end := runStart + runLength, start + length;
      DeleteRun(block, runStart, runEnd);
      if start > runStart {
        WriteRun(block, runStart, start);
      }
      if end < runEnd {
        WriteRun(block, end, runEnd);
      }
    }

    /** Steps 3 to 5 of the claim script, after its checks have passed. */
    method TakeSeats(a: ClaimArgs) returns (reply: ClaimReply)
      requires Valid() && a.length >= 1 && ClaimOutcome(Abs(), a).Claimed?
      modifies this
      ensures Valid()
      ensures Abs() == AfterClaim(old(Abs()), a) && reply == ClaimOutcome(old(Abs()), a)
      ensures misses == old(misses) && relaxed == old(relaxed)
    {
      hide Canonical;
      SeatsOccupy(free, a.Host(), a.start, a.length);
      CutRun(a.block, a.runStart, a.runLength, a.start, a.length);
      zoneAvailable := zoneAvailable - a.length;
      eventAvailable := eventAvailable - a.length;
      purchased := purchased[a.user := Held(purchased, a.user) + a.length];
      reply := Claimed(nextId, zoneAvailable);
      stream := stream[nextId := Intent(a.user, a.length, a.totalCents, a.key, a.block, a.start)];
      nextId := nextId + 1;
      claims := claims + {a.key};
    }

    /** `_CLAIM_SEATS_LUA`. */
    method ClaimSeats(a: ClaimArgs) returns (reply: ClaimReply)
      requires Valid() && a.length >= 1
      modifies this
      ensures Valid()
      ensures Abs() == AfterClaim(old(Abs()), a) && reply == ClaimOutcome(old(Abs()), a)
      ensures ClaimAnswers(old(Abs()), a, reply) && ClaimEffect(old(Abs()), Abs(), a, reply)
      ensures misses == old(misses) && relaxed == old(relaxed)
    {
      ClaimDoesWhatItSays(Abs(), a);
      hide ClaimAnswers, ClaimEffect;
      if a.key in claims {
        return Dup;
      }
      var held := Held(purchased, a.user);
      if held + a.length > a.limit {
        return OverLimit(held, a.limit);
      }
      Lookup(runs, ends, free, a.block, a.runStart);
      assert About(a.Host());
      if Cell(a.block, a.runStart) !in runs || runs[Cell(a.block, a.runStart)] != a.runLength {
        return Retry;
      }
      if a.start < a.runStart || a.start + a.length > a.runStart + a.runLength {
        return Bounds;
      }
      reply := TakeSeats(a);
    }

    // ---------------------------------------------------------------- release

    /** The left neighbour ends where the interval starts; the inverse index finds it. */
    method AbsorbLeft(block: int, start: int) returns (lo: int)
      requires Indexed()
      modifies this`runs, this`ends, this`free
      ensures Indexed() && lo == LeftEdge(old(free), block, start)
      ensures free == set r | r in old(free) && !(r.block == block && r.End() == start)
    {
      lo := start;
      Lookup(runs, ends, free, block, start);
      if Cell(block, start) in ends {
        lo := ends[Cell(block, start)];
        ghost var l := Run(block, lo, start - lo);
        LeftEdgeIs(free, l);
        assert forall r :: r in free && r.block == block && r.End() == start ==> r == l || Apart(r, l);
        DeleteRun(block, lo, start);
      }
    }

    /** The right neighbour starts where the interval ends. */
    method AbsorbRight(block: int, end: int) returns (hi: int)
      requires Indexed()
      modifies this`runs, this`ends, this`free
      ensures Indexed() && hi == RightEdge(old(free), block, end)
      ensures free == set r | r in old(free) && !(r.block == block && r.start == end)
    {
      hi := end;
      Lookup(runs, ends, free, block, end);
      if Cell(block, end) in runs {
        ghost var t := Run(block, end, runs[Cell(block, end)]);
        hi := end + runs[Cell(block, end)];
        RightEdgeIs(free, t);
        assert forall r :: r in free && r.block == block && r.start == end ==> r == t || Apart(r, t);
        DeleteRun(block, end, hi);
      }
    }

    /** The merge at the end of the release script: each neighbour is found by one lookup. */
    method MergeInterval(block: int, start: int, end: int) returns (lo: int, hi: int)
      requires Indexed() && start < end && Taken(free, block, start, end)
      modifies this`runs, this`ends, this`free
      ensures Indexed() && free == ReleaseSet(old(free), block, start, end)
      ensures lo == LeftEdge(old(free), block, start) && hi == RightEdge(old(free), block, end)
    {
      ghost var before := free;
      lo := AbsorbLeft(block, start);
      RightEdgeUnchanged(before, free, block, start, end);
      hi := AbsorbRight(block, end);
      assert free == set r | r in before && !Touches(r, block, start, end);
      MergeSlotIsFree(before, free, block, start, end, lo, hi);
      WriteRun(block, lo, hi);
    }

    /** Step 3 of the release script, after its checks have passed. */
    method ReturnSeats(a: ReleaseArgs) returns (reply: ReleaseReply)
      requires Valid() && a.length >= 1 && ReleaseSucceeds(Abs(), a)
      modifies this
      ensures Valid()
      ensures Abs() == AfterRelease(old(Abs()), a) && ReleaseReplies(old(Abs()), a, reply)
      ensures misses == old(misses) && relaxed == old(relaxed)
    {
      SeatsRelease(free, a.block, a.start, a.End());
      released := released + {a.marker};
      purchased := Refund(purchased, a.user, a.length);
      var lo, hi := MergeInterval(a.block, a.start, a.End());
      zoneAvailable := zoneAvailable + a.length;
      eventAvailable := eventAvailable + a.length;
      reply := Released(lo, hi - lo, zoneAvailable);
    }

    /** `_RELEASE_SEATS_LUA`. */
    method ReleaseSeats(a: ReleaseArgs) returns (reply: ReleaseReply)
      requires Valid() && a.length >= 1
      modifies this
      ensures Valid()
      ensures Abs() == AfterRelease(old(Abs()), a) && ReleaseReplies(old(Abs()), a, reply)
      ensures ReleaseAnswers(old(Abs()), a, reply) && ReleaseEffect(old(Abs()), Abs(), a, reply)
      ensures misses == old(misses) && relaxed == old(relaxed)
    {
      ReleaseSaysWhatItDoes(Abs(), a);
      hide ReleaseAnswers, ReleaseEffect;
      if a.marker in released {
        return AlreadyReleased;
      }
      var lo, hi := a.start, a.End();
      if a.block in geom {
        var capacity := geom[a.block].capacity;
        if lo < 0 || hi > capacity {
          return OutOfBounds(capacity);
        }
      }
      var clash := FindOverlap(a.block, lo, hi);
      if clash.Some? {
        return Overlap(clash.value.start, clash.value.length);
      }
      reply := ReturnSeats(a);
    }

    /** Step 2b: every field of the hash is looked at, in whatever order HGETALL lists them. */
    method FindOverlap(block: int, lo: int, hi: int) returns (clash: Option<Run>)
      requires Indexed()
      ensures clash.None? ==> Taken(free, block, lo, hi)
      ensures clash.Some? ==> clash.value in free && clash.value.block == block
                              && clash.value.start < hi && lo < clash.value.End()
    {
      var unseen := runs.Keys;
      while unseen != {}
        invariant unseen <= runs.Keys
        invariant forall k :: k in runs.Keys - unseen && k.block == block ==> !(k.pos < hi && lo < k.pos + runs[k])
        decreases unseen
      {
        var k :| k in unseen;
        if k.block == block && k.pos < hi && lo < k.pos + runs[k] {
          assert At(k);
          return Some(Run(k.block, k.pos, runs[k]));
        }
        unseen := unseen - {k};
      }
      forall r | r in free && r.block == block ensures !(r.start < hi && lo < r.End()) {
        assert About(r);
      }
      return None;
    }

    // ---------------------------------------------------------------- strict misses

    /** `_record_strict_miss`: the third refusal in a row switches the zone for good. */
    method RecordStrictMiss() returns (switch: bool)
      modifies this`misses, this`relaxed
      ensures switch <==> old(misses) + 1 >= STRICT_MISS_THRESHOLD
      ensures relaxed == (old(relaxed) || switch)
      ensures misses == if switch then 0 else old(misses) + 1
    {
      misses := misses + 1;
      if misses < STRICT_MISS_THRESHOLD {
        return false;
      }
      relaxed := true;
      misses := 0;
      return true;
    }
  }

  lemma RightEdgeUnchanged(rs: set<Run>, rest: set<Run>, b: int, start: int, end: int)
    requires Canonical(rs) && start < end && Taken(rs, b, start, end)
    requires rest == set r | r in rs && !(r.block == b && r.End() == start)
    ensures RightEdge(rest, b, end) == RightEdge(rs, b, end)
  {
    if r :| r in rs && r.block == b && r.start == end {
      RightEdgeIs(rs, r);
      RightEdgeIs(rest, r);
    }
  }

  lemma MergeSlotIsFree(before: set<Run>, rest: set<Run>, b: int, start: int, end: int, lo: int, hi: int)
    requires Canonical(before) && start < end && Taken(before, b, start, end)
    requires rest == set r | r in before && !Touches(r, b, start, end)
    requires lo == LeftEdge(before, b, start) && hi == RightEdge(before, b, end)
    ensures lo < hi && forall r :: r in rest ==> Apart(r, Run(b, lo, hi - lo))
  {
    MergedIsApart(before, b, start, end);
    MergedRunCells(before, b, start, end, start);
    var merged := Run(b, lo, hi - lo);
    forall r | r in rest ensures Apart(r, merged) {
      assert r in ReleaseSet(before, b, start, end) && merged in ReleaseSet(before, b, start, end);
      assert r != merged by {
        assert merged in before && merged.block == b ==> !(merged.start < end && start < merged.End());
      }
    }
  }
}
