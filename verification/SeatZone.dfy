/** One zone of a seated event as the two Redis scripts see it, with the free seats as a plain set
    of maximal runs.  `SeatRuns.ZoneStore` keeps the same thing in hashes.
 */
module SeatZone {
  import opened Quota
  import opened RunSets

  datatype BlockGeom = BlockGeom(capacity: int, base: real, edge: real)

  /** Stream entry of a seated order that is not in the database yet. */
  datatype Intent = Intent(user: int, quantity: int, totalCents: int, key: nat, block: int, start: int)

  datatype Zone = Zone(
    free: set<Run>,
    geom: map<int, BlockGeom>,
    eventAvailable: int,
    purchased: map<int, int>,
    claims: set<nat>,
    stream: map<nat, Intent>,
    nextId: nat,
    released: set<Marker>
  )

  // ------------------------------------------------------------------ claim

  datatype ClaimArgs = ClaimArgs(
    block: int, runStart: int, runLength: int, start: int, length: int,
    user: int, totalCents: int, key: nat, limit: int
  ) {
    function Host(): Run {
      Run(block, runStart, runLength)
    }
  }

  datatype ClaimReply =
    | Dup
    | OverLimit(held: int, limit: int)
    | Retry
    | Bounds
    | Claimed(streamId: nat, zoneRemaining: int)

  ghost function ClaimOutcome(z: Zone, a: ClaimArgs): ClaimReply {
    if a.key in z.claims then Dup
    else if Held(z.purchased, a.user) + a.length > a.limit then OverLimit(Held(z.purchased, a.user), a.limit)
    else if a.Host() !in z.free then Retry
    else if !Hosts(a.Host(), a.start, a.length) then Bounds
    else Claimed(z.nextId, Seats(z.free) - a.length)
  }

  ghost function AfterClaim(z: Zone, a: ClaimArgs): Zone {
    if !ClaimOutcome(z, a).Claimed? then z
    else
      z.(free := OccupySet(z.free, a.Host(), a.start, a.length),
         eventAvailable := z.eventAvailable - a.length,
         purchased := z.purchased[a.user := Held(z.purchased, a.user) + a.length],
         claims := z.claims + {a.key},
         stream := z.stream[z.nextId := Intent(a.user, a.length, a.totalCents, a.key, a.block, a.start)],
         nextId := z.nextId + 1)
  }

  // ------------------------------------------------------------------ release

  datatype ReleaseArgs = ReleaseArgs(user: int, block: int, start: int, length: int, marker: Marker) {
    function End(): int {
      start + length
    }
  }

  datatype ReleaseReply =
    | AlreadyReleased
    | OutOfBounds(capacity: int)
    | Overlap(runStart: int, runLength: int)
    | Released(mergedStart: int, mergedLength: int, zoneRemaining: int)

  predicate InsideBlock(geom: map<int, BlockGeom>, block: int, start: int, end: int) {
    block in geom ==> start >= 0 && end <= geom[block].capacity
  }

  ghost predicate ReleaseSucceeds(z: Zone, a: ReleaseArgs) {
    && a.marker !in z.released
    && InsideBlock(z.geom, a.block, a.start, a.End())
    && Taken(z.free, a.block, a.start, a.End())
  }

  /** Which reply the script gives; an overlap names one of the runs that overlap. */
  ghost predicate ReleaseReplies(z: Zone, a: ReleaseArgs, reply: ReleaseReply) {
    if a.marker in z.released then reply == AlreadyReleased
    else if !InsideBlock(z.geom, a.block, a.start, a.End()) then
      a.block in z.geom && reply == OutOfBounds(z.geom[a.block].capacity)
    else if !Taken(z.free, a.block, a.start, a.End()) then
      && reply.Overlap?
      && Run(a.block, reply.runStart, reply.runLength) in z.free
      && reply.runStart < a.End() && a.start < reply.runStart + reply.runLength
    else
      reply == Released(
        LeftEdge(z.free, a.block, a.start),
        RightEdge(z.free, a.block, a.End()) - LeftEdge(z.free, a.block, a.start),
        Seats(z.free) + a.length)
  }

  ghost function AfterRelease(z: Zone, a: ReleaseArgs): Zone {
    if !ReleaseSucceeds(z, a) then z
    else
      z.(free := ReleaseSet(z.free, a.block, a.start, a.End()),
         eventAvailable := z.eventAvailable + a.length,
         purchased := Refund(z.purchased, a.user, a.length),
         released := z.released + {a.marker})
  }

  // ------------------------------------------------------------------ command sequences

  datatype Command = Claim(claim: ClaimArgs) | Release(release: ReleaseArgs) {
    /** Order sizes are at least one, and only seats of the zone's own blocks are given back. */
    predicate WellFormed(geom: map<int, BlockGeom>) {
      match this
      case Claim(a) => a.length >= 1
      case Release(a) => a.length >= 1 && a.block in geom
    }
  }

  ghost function AfterCommand(z: Zone, c: Command): Zone {
    match c
    case Claim(a) => AfterClaim(z, a)
    case Release(a) => AfterRelease(z, a)
  }

  ghost function AfterCommands(z: Zone, cs: seq<Command>): Zone
    decreases cs
  {
    if cs == [] then z else AfterCommands(AfterCommand(z, cs[0]), cs[1..])
  }

  /** Every free run is a run of a known block and lies inside it. */
  ghost predicate WithinBlocks(z: Zone) {
    forall r :: r in z.free ==> r.block in z.geom && 0 <= r.start && r.End() <= z.geom[r.block].capacity
  }

  ghost predicate Sound(z: Zone) {
    Canonical(z.free) && WithinBlocks(z)
  }

  predicate AllWellFormed(geom: map<int, BlockGeom>, cs: seq<Command>) {
    forall i :: 0 <= i < |cs| ==> cs[i].WellFormed(geom)
  }

  lemma CommandKeepsSound(z: Zone, c: Command)
    requires Sound(z) && c.WellFormed(z.geom)
    ensures Sound(AfterCommand(z, c)) && AfterCommand(z, c).geom == z.geom
  {
    match c
    case Claim(a) =>
      if ClaimOutcome(z, a).Claimed? {
        OccupySetMeaning(z.free, a.Host(), a.start, a.length);
      }
    case Release(a) =>
      if ReleaseSucceeds(z, a) {
        ReleaseSetMeaning(z.free, a.block, a.start, a.End());
        MergedRunCells(z.free, a.block, a.start, a.End(), a.start);
        ReleasedRunInside(z, a);
      }
  }

  lemma ReleasedRunInside(z: Zone, a: ReleaseArgs)
    requires Sound(z) && a.length >= 1 && a.block in z.geom && ReleaseSucceeds(z, a)
    ensures 0 <= LeftEdge(z.free, a.block, a.start) && RightEdge(z.free, a.block, a.End()) <= z.geom[a.block].capacity
  {
    if r :| r in z.free && r.block == a.block && r.End() == a.start {
      LeftEdgeIs(z.free, r);
    }
    if r :| r in z.free && r.block == a.block && r.start == a.End() {
      RightEdgeIs(z.free, r);
    }
  }

  lemma {:induction false} CommandsKeepSound(z: Zone, cs: seq<Command>)
    requires Sound(z) && AllWellFormed(z.geom, cs)
    ensures Sound(AfterCommands(z, cs)) && AfterCommands(z, cs).geom == z.geom
    decreases cs
  {
    if cs != [] {
      CommandKeepsSound(z, cs[0]);
      CommandsKeepSound(AfterCommand(z, cs[0]), cs[1..]);
    }
  }

  lemma {:induction false} CommandsConcat(z: Zone, cs: seq<Command>, ds: seq<Command>)
    ensures AfterCommands(z, cs + ds) == AfterCommands(AfterCommands(z, cs), ds)
    decreases cs
  {
    if cs == [] {
      assert cs + ds == ds;
    } else {
      assert (cs + ds)[1..] == cs[1..] + ds;
      CommandsConcat(AfterCommand(z, cs[0]), cs[1..], ds);
    }
  }

  /** Event counter and free seats of the zone move together under every script. */
  lemma CommandKeepsEventTotal(z: Zone, c: Command)
    requires Sound(z) && c.WellFormed(z.geom)
    ensures AfterCommand(z, c).eventAvailable - Seats(AfterCommand(z, c).free) == z.eventAvailable - Seats(z.free)
  {
    match c
    case Claim(a) =>
      if ClaimOutcome(z, a).Claimed? {
        SeatsOccupy(z.free, a.Host(), a.start, a.length);
      }
    case Release(a) =>
      if ReleaseSucceeds(z, a) {
        SeatsRelease(z.free, a.block, a.start, a.End());
      }
  }

  /** Over any run of scripts the event's counter keeps its distance from the zone's free seats. */
  lemma {:induction false} EventTotalNeverDrifts(z: Zone, cs: seq<Command>)
    requires Sound(z) && AllWellFormed(z.geom, cs)
    ensures AfterCommands(z, cs).eventAvailable - Seats(AfterCommands(z, cs).free) == z.eventAvailable - Seats(z.free)
    decreases cs
  {
    if cs != [] {
      CommandKeepsSound(z, cs[0]);
      CommandKeepsEventTotal(z, cs[0]);
      EventTotalNeverDrifts(AfterCommand(z, cs[0]), cs[1..]);
    }
  }
}
