/** The scripts against the list functions that serve as their reference. */
module SeatRefinement {
  import opened Basics
  import opened Quota
  import opened RunSets
  import opened SeatZone
  import opened SeatingLists

  /** Once the duplicate and quota checks have passed, the claim script takes the seats exactly when
      the run it names is still there and `occupy` would place the order inside it, and then leaves
      the runs that `occupy` computes. */
  lemma ClaimRefinesOccupy(z: Zone, a: ClaimArgs, runs: seq<Run>, result: Option<seq<Run>>)
    requires RunSet(runs) == z.free && RunList(runs) && a.length >= 1
    requires OccupyGives(runs, a.block, a.start, a.length, result)
    requires a.key !in z.claims && Held(z.purchased, a.user) + a.length <= a.limit
    ensures ClaimOutcome(z, a).Claimed?
            <==> result.Some? && a.Host() in z.free && Contains(a.Host(), a.block, a.start, a.start + a.length)
    ensures ClaimOutcome(z, a).Claimed? ==> RunSet(result.value) == AfterClaim(z, a).free
  {
    var host := a.Host();
    if host in z.free && Contains(host, a.block, a.start, a.start + a.length) {
      assert host in RunSet(runs);
    }
  }

  function CapacityOf(z: Zone, block: int): Option<int> {
    if block in z.geom then Some(z.geom[block].capacity) else None
  }

  /** The release script gives the seats back exactly when `release` does not raise, and leaves the
      runs that `release` computes, provided the block is one of the zone (or at least the interval
      does not start before the block): the script does not check a block it has no capacity for. */
  lemma ReleaseRefinesRelease(z: Zone, a: ReleaseArgs, runs: seq<Run>, result: Option<seq<Run>>)
    requires RunSet(runs) == z.free && RunList(runs) && a.length >= 1
    requires ReleaseGives(runs, a.block, a.start, a.length, CapacityOf(z, a.block), result)
    requires a.marker !in z.released
    ensures (ReleaseSucceeds(z, a) <==> result.Some?)
            <==> a.block in z.geom || a.start >= 0 || !Taken(z.free, a.block, a.start, a.End())
    ensures ReleaseSucceeds(z, a) && result.Some? ==> RunSet(result.value) == AfterRelease(z, a).free
  {
    assert a.End() == a.start + a.length;
  }

  /** An interval before the start of an unknown block: the script accepts what `release` refuses. */
  lemma UnknownBlockIsNotChecked(z: Zone, runs: seq<Run>, result: Option<seq<Run>>)
    requires z.free == {} && z.geom == map[] && z.released == {} && runs == []
    requires ReleaseGives(runs, 7, -3, 2, CapacityOf(z, 7), result)
    ensures ReleaseSucceeds(z, ReleaseArgs(1, 7, -3, 2, OrderMarker(0))) && result.None?
  {
  }

  /** Giving back what was just claimed restores runs and stock; the buyer's quota field comes back
      as it was unless it was a leftover with nothing positive in it, which is then cleaned up. */
  lemma ReleaseUndoesClaim(z: Zone, a: ClaimArgs, marker: Marker)
    requires Canonical(z.free) && a.length >= 1 && ClaimOutcome(z, a).Claimed? && marker !in z.released
    requires InsideBlock(z.geom, a.block, a.start, a.start + a.length)
    ensures var back := AfterRelease(AfterClaim(z, a), ReleaseArgs(a.user, a.block, a.start, a.length, marker));
            && back.free == z.free
            && back.eventAvailable == z.eventAvailable
            && (back.purchased == z.purchased <==> (a.user in z.purchased ==> z.purchased[a.user] > 0))
  {
    ReleaseUndoesOccupy(z.free, a.Host(), a.start, a.length);
    var r := ReleaseArgs(a.user, a.block, a.start, a.length, marker);
    assert r.End() == a.start + a.length;
    var back := AfterRelease(AfterClaim(z, a), r);
    if a.user in z.purchased && z.purchased[a.user] > 0 {
      assert back.purchased == z.purchased;
    } else if a.user !in z.purchased {
      assert back.purchased == z.purchased;
    } else {
      assert a.user !in back.purchased;
    }
  }
}
