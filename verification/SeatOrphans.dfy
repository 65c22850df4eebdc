/** Single free seats of a live zone: where the scripts that the placement loop runs let them come from. */
module SeatOrphans {
  import opened Basics
  import opened RunSets
  import opened Seating
  import opened SeatZone
  import opened SeatScripts
  import opened SeatReserve
  import opened SeatingPotential

  /** A claim that succeeds is a cut the policy permits. */
  ghost predicate CutUnder(z: Zone, c: Command, policy: Policy) {
    c.Claim? && ClaimOutcome(z, c.claim).Claimed? ==>
      LegalOffset(c.claim.Host(), c.claim.length, policy, c.claim.start - c.claim.runStart)
  }

  /** The scripts of placement loops, each under the zone's policy or the one for the end of the sale, and releases. */
  ghost predicate AllCut(z: Zone, cs: seq<Command>, policy: Policy)
    decreases cs
  {
    cs == [] || ((CutUnder(z, cs[0], policy) || CutUnder(z, cs[0], ENDGAME_POLICY)) && AllCut(AfterCommand(z, cs[0]), cs[1..], policy))
  }

  /** One for a single seat that comes back and for a cut only the end-of-sale policy permits. */
  ghost function Excuse(z: Zone, c: Command, policy: Policy): nat {
    match c
    case Claim(_) => if CutUnder(z, c, policy) then 0 else 1
    case Release(a) => if ReleaseSucceeds(z, a) && a.length == 1 then 1 else 0
  }

  ghost function Excuses(z: Zone, cs: seq<Command>, policy: Policy): nat
    decreases cs
  {
    if cs == [] then 0 else Excuse(z, cs[0], policy) + Excuses(AfterCommand(z, cs[0]), cs[1..], policy)
  }

  /** A cut at either end of a run leaves at most one new single seat. */
  lemma EndCutMakesAtMostOneOrphan(rs: set<Run>, host: Run, offset: int, quantity: int)
    requires host in rs && LegalOffset(host, quantity, ENDGAME_POLICY, offset)
    ensures |Orphans(OccupySet(rs, host, host.start + offset, quantity))| <= |Orphans(rs)| + 1
  {
    var rest := if offset == 0 then Run(host.block, host.start + quantity, host.length - quantity) else Run(host.block, host.start, offset);
    SubsetSize(Orphans(OccupySet(rs, host, host.start + offset, quantity)), Orphans(rs) + {rest});
    assert |Orphans(rs) + {rest}| <= |Orphans(rs)| + 1;
  }

  lemma CommandMakesFewOrphans(z: Zone, c: Command, policy: Policy)
    requires policy.Valid() && policy.minRun >= 2 && Sound(z) && c.WellFormed(z.geom)
    requires CutUnder(z, c, policy) || CutUnder(z, c, ENDGAME_POLICY)
    ensures |Orphans(AfterCommand(z, c).free)| <= |Orphans(z.free)| + Excuse(z, c, policy)
  {
    hide OccupySet, ReleaseSet, Orphans, LegalOffset, Canonical;
    match c
    case Claim(a) =>
      if ClaimOutcome(z, a).Claimed? {
        var offset := a.start - a.runStart;
        assert a.Host().start + offset == a.start;
        if CutUnder(z, c, policy) {
          PlacementMakesNoOrphan(z.free, a.Host(), offset, a.length, policy);
        } else {
          EndCutMakesAtMostOneOrphan(z.free, a.Host(), offset, a.length);
        }
      }
    case Release(a) =>
      if ReleaseSucceeds(z, a) {
        ReleaseMakesAtMostOneOrphan(z.free, a.block, a.start, a.End());
      }
  }

  /** Over any scripts of placement loops and releases, new single free seats are bounded by the single
      seats that came back and the cuts made under the end-of-sale policy. */
  lemma {:induction false} OrphansAreExcused(z: Zone, cs: seq<Command>, policy: Policy)
    requires policy.Valid() && policy.minRun >= 2 && Sound(z) && AllWellFormed(z.geom, cs) && AllCut(z, cs, policy)
    ensures |Orphans(AfterCommands(z, cs).free)| <= |Orphans(z.free)| + Excuses(z, cs, policy)
    decreases cs
  {
    if cs != [] {
      CommandMakesFewOrphans(z, cs[0], policy);
      CommandKeepsSound(z, cs[0]);
      hide Sound, Orphans, CutUnder, Excuse, AfterCommand;
      OrphansAreExcused(AfterCommand(z, cs[0]), cs[1..], policy);
    }
  }

  lemma TheClaimIsCut(z: Zone, a: ClaimArgs, policy: Policy)
    requires CutBy(z, a, policy)
    ensures AfterCommand(z, Command.Claim(a)) == AfterClaim(z, a) && CutUnder(z, Command.Claim(a), policy)
  {
  }

  /** What the placement loop does to a zone is one such script or nothing at all. */
  lemma ReservationIsACut(read: Zone, before: Zone, after: Zone, req: Request, policy: Policy, draw: nat, o: Outcome)
    requires req.quantity >= 1 && Explained(read, before, after, req, policy, draw, o)
    ensures after == before
            || exists a: ClaimArgs :: after == AfterCommand(before, Command.Claim(a)) && a.length >= 1 && CutUnder(before, Command.Claim(a), policy)
  {
    hide Drawn, ClaimEffect, CutOf, CutBy, Fits, FeasibleList, AfterClaim, Free;
    if o.Reserved? {
      var a: ClaimArgs :| a.length == req.quantity && CutBy(before, a, policy) && after == AfterClaim(before, a);
      TheClaimIsCut(before, a, policy);
    }
  }

  /** However the loop ends, it leaves no new single seat unless it ran under the end-of-sale policy, and then at most one. */
  lemma ReservationMakesFewOrphans(read: Zone, before: Zone, after: Zone, req: Request, policy: Policy, draw: nat, o: Outcome)
    requires req.quantity >= 1 && Explained(read, before, after, req, policy, draw, o) && Sound(before)
    requires policy == ENDGAME_POLICY || (policy.Valid() && policy.minRun >= 2)
    ensures |Orphans(after.free)| <= |Orphans(before.free)| + if policy == ENDGAME_POLICY then 1 else 0
  {
    ReservationIsACut(read, before, after, req, policy, draw, o);
    hide *;
    if after != before {
      var a: ClaimArgs :| after == AfterCommand(before, Command.Claim(a)) && a.length >= 1 && CutUnder(before, Command.Claim(a), policy);
      OneCutMakesFewOrphans(before, a, policy);
    }
  }

  lemma OneCutMakesFewOrphans(z: Zone, a: ClaimArgs, policy: Policy)
    requires Sound(z) && a.length >= 1 && CutUnder(z, Command.Claim(a), policy)
    requires policy == ENDGAME_POLICY || (policy.Valid() && policy.minRun >= 2)
    ensures |Orphans(AfterCommand(z, Command.Claim(a)).free)| <= |Orphans(z.free)| + if policy == ENDGAME_POLICY then 1 else 0
  {
    hide Sound, Orphans, CutUnder, AfterCommand, Excuse;
    var strict := if policy == ENDGAME_POLICY then NORMAL_POLICY else policy;
    CommandMakesFewOrphans(z, Command.Claim(a), strict);
    ExcuseOfCut(z, Command.Claim(a), strict);
  }

  lemma ExcuseOfCut(z: Zone, c: Command, policy: Policy)
    requires c.Claim?
    ensures Excuse(z, c, policy) <= 1 && (CutUnder(z, c, policy) ==> Excuse(z, c, policy) == 0)
  {
  }
}
