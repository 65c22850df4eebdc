/** Free seats against held seats: what a rebuild computes and what the scripts maintain. */
module SeatComplement {
  import opened RunSets
  import opened SeatZone

  /** Seats `[start, start + length)` of a block that belong to somebody. */
  datatype Hold = Hold(block: int, start: int, length: int) {
    function End(): int {
      start + length
    }

    predicate Covers(b: int, p: int) {
      block == b && start <= p < End()
    }
  }

  function HoldSet(held: seq<Hold>): set<Hold> {
    set h | h in held
  }

  ghost predicate HeldBy(live: set<Hold>, b: int, p: int) {
    exists h :: h in live && h.Covers(b, p)
  }

  predicate Exists(geom: map<int, BlockGeom>, b: int, p: int) {
    b in geom && 0 <= p < geom[b].capacity
  }

  /** `rs` is the canonical list of the seats that exist and are not held. */
  ghost predicate IsComplement(rs: set<Run>, geom: map<int, BlockGeom>, live: set<Hold>) {
    && Canonical(rs)
    && forall b, p :: Free(rs, b, p) <==> Exists(geom, b, p) && !HeldBy(live, b, p)
  }

  lemma ComplementIsUnique(rs: set<Run>, qs: set<Run>, geom: map<int, BlockGeom>, live: set<Hold>)
    requires IsComplement(rs, geom, live) && IsComplement(qs, geom, live)
    ensures rs == qs
  {
    CanonicalForm(rs, qs);
  }

  // ------------------------------------------------------------------ live intervals along a run

  /** Held intervals are non-empty, exist and are pairwise disjoint. */
  ghost predicate Disjoint(geom: map<int, BlockGeom>, live: set<Hold>) {
    && (forall h :: h in live ==> h.length >= 1 && h.block in geom && 0 <= h.start && h.End() <= geom[h.block].capacity)
    && (forall h, g {:trigger NoShare(h, g)} :: h in live && g in live && h != g ==> NoShare(h, g))
  }

  predicate NoShare(h: Hold, g: Hold) {
    h.block != g.block || h.End() <= g.start || g.End() <= h.start
  }

  function ClaimedHold(a: ClaimArgs): Hold {
    Hold(a.block, a.start, a.length)
  }

  function ReleasedHold(a: ReleaseArgs): Hold {
    Hold(a.block, a.start, a.length)
  }

  /** Who holds what after a command. */
  ghost function LiveAfter(z: Zone, live: set<Hold>, c: Command): set<Hold> {
    match c
    case Claim(a) => if ClaimOutcome(z, a).Claimed? then live + {ClaimedHold(a)} else live
    case Release(a) => if ReleaseSucceeds(z, a) then live - {ReleasedHold(a)} else live
  }

  /** Callers ask for at least one seat, and give back only what is held (or was given back before). */
  ghost predicate Honest(z: Zone, live: set<Hold>, c: Command) {
    match c
    case Claim(a) => a.length >= 1
    case Release(a) => a.marker in z.released || ReleasedHold(a) in live
  }

  ghost predicate AllHonest(z: Zone, live: set<Hold>, cs: seq<Command>)
    decreases cs
  {
    cs == [] || (Honest(z, live, cs[0]) && AllHonest(AfterCommand(z, cs[0]), LiveAfter(z, live, cs[0]), cs[1..]))
  }

  ghost function LiveAfterAll(z: Zone, live: set<Hold>, cs: seq<Command>): set<Hold>
    decreases cs
  {
    if cs == [] then live else LiveAfterAll(AfterCommand(z, cs[0]), LiveAfter(z, live, cs[0]), cs[1..])
  }

  ghost predicate Balanced(z: Zone, live: set<Hold>) {
    IsComplement(z.free, z.geom, live) && Disjoint(z.geom, live)
  }

  lemma RunsExist(z: Zone, live: set<Hold>, r: Run)
    requires Balanced(z, live) && r in z.free
    ensures r.block in z.geom && 0 <= r.start && r.End() <= z.geom[r.block].capacity
  {
    assert r.Covers(r.block, r.start) && r.Covers(r.block, r.End() - 1);
    assert Free(z.free, r.block, r.start) && Free(z.free, r.block, r.End() - 1);
  }

  /** Seats inside a free run are nobody's. */
  lemma FreeRunIsNobodys(z: Zone, live: set<Hold>, r: Run, h: Hold)
    requires Balanced(z, live) && r in z.free && h in live && h.block == r.block
    ensures h.End() <= r.start || r.End() <= h.start
  {
    var p := if h.start >= r.start then h.start else r.start;
    assert h.start < r.End() && r.start < h.End() ==> r.Covers(r.block, p) && h.Covers(r.block, p);
    assert r.Covers(r.block, p) ==> Free(z.free, r.block, p);
    assert h.Covers(r.block, p) ==> HeldBy(live, r.block, p);
  }

  lemma ClaimKeepsBalance(z: Zone, live: set<Hold>, a: ClaimArgs)
    requires Balanced(z, live) && a.length >= 1 && ClaimOutcome(z, a).Claimed?
    ensures ClaimedHold(a) !in live
    ensures Balanced(AfterClaim(z, a), live + {ClaimedHold(a)})
  {
    var h := ClaimedHold(a);
    var after := AfterClaim(z, a);
    OccupySetMeaning(z.free, a.Host(), a.start, a.length);
    RunsExist(z, live, a.Host());
    forall g | g in live ensures NoShare(h, g) {
      if g.block == a.block {
        FreeRunIsNobodys(z, live, a.Host(), g);
      }
    }
    forall b, p ensures Free(after.free, b, p) <==> Exists(z.geom, b, p) && !HeldBy(live + {h}, b, p) {
      assert HeldBy(live + {h}, b, p) <==> HeldBy(live, b, p) || h.Covers(b, p) by {
        if HeldBy(live, b, p) {
          var g :| g in live && g.Covers(b, p);
          assert g in live + {h};
        }
        assert h in live + {h};
      }
    }
    forall g, k | g in live + {h} && k in live + {h} && g != k ensures NoShare(g, k) {
      assert g in live && k in live ==> NoShare(g, k);
    }
  }

  /** Held seats are taken, so giving them back neither overlaps a free run nor leaves the block. */
  lemma HeldCanBeReleased(z: Zone, live: set<Hold>, a: ReleaseArgs)
    requires Balanced(z, live) && ReleasedHold(a) in live
    ensures InsideBlock(z.geom, a.block, a.start, a.End()) && Taken(z.free, a.block, a.start, a.End())
  {
    var h := ReleasedHold(a);
    assert h.length >= 1;
    forall r | r in z.free && r.block == a.block ensures !(r.start < a.End() && a.start < r.End()) {
      FreeRunIsNobodys(z, live, r, h);
    }
  }

  lemma ReleaseKeepsBalance(z: Zone, live: set<Hold>, a: ReleaseArgs)
    requires Balanced(z, live) && ReleasedHold(a) in live && a.marker !in z.released
    ensures ReleaseSucceeds(z, a)
    ensures Balanced(AfterRelease(z, a), live - {ReleasedHold(a)})
  {
    var h := ReleasedHold(a);
    HeldCanBeReleased(z, live, a);
    assert h.length >= 1;
    var rest, after := live - {h}, AfterRelease(z, a);
    ReleaseSetMeaning(z.free, a.block, a.start, a.End());
    forall b, p ensures Free(after.free, b, p) <==> Exists(z.geom, b, p) && !HeldBy(rest, b, p) {
      if HeldBy(live, b, p) {
        var g :| g in live && g.Covers(b, p);
        assert g == h || g in rest;
      }
      if HeldBy(rest, b, p) {
        var g :| g in rest && g.Covers(b, p);
        assert g in live && NoShare(g, h);
        assert HeldBy(live, b, p);
      }
    }
  }

  lemma CommandKeepsBalance(z: Zone, live: set<Hold>, c: Command)
    requires Balanced(z, live) && Honest(z, live, c)
    ensures Balanced(AfterCommand(z, c), LiveAfter(z, live, c))
  {
    match c
    case Claim(a) =>
      if ClaimOutcome(z, a).Claimed? {
        ClaimKeepsBalance(z, live, a);
      }
    case Release(a) =>
      if a.marker !in z.released {
        ReleaseKeepsBalance(z, live, a);
      }
  }

  /** From a rebuilt zone, any sequence of claim and release scripts leaves exactly the runs a
      rebuild from the intervals then held would compute. */
  lemma {:induction false} RunsAreAlwaysTheComplement(z: Zone, live: set<Hold>, cs: seq<Command>, rebuilt: set<Run>)
    requires Balanced(z, live) && AllHonest(z, live, cs)
    ensures Balanced(AfterCommands(z, cs), LiveAfterAll(z, live, cs))
    ensures IsComplement(rebuilt, z.geom, LiveAfterAll(z, live, cs)) ==> rebuilt == AfterCommands(z, cs).free
    decreases cs
  {
    if cs == [] {
      if IsComplement(rebuilt, z.geom, live) {
        ComplementIsUnique(rebuilt, z.free, z.geom, live);
      }
    } else {
      CommandKeepsBalance(z, live, cs[0]);
      assert AfterCommand(z, cs[0]).geom == z.geom;
      RunsAreAlwaysTheComplement(AfterCommand(z, cs[0]), LiveAfter(z, live, cs[0]), cs[1..], rebuilt);
    }
  }
}
