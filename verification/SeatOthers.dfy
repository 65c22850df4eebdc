/** What other clients do to a zone while somebody waits for a reply. */
module SeatOthers {
  import opened SeatZone
  import opened SeatRuns

  /** One thing another client does: run a script, or touch the count of refusals. */
  datatype Other = Script(command: Command) | StrictMiss | MissReset

  /** The count of refusals in a row, and whether the zone has switched policy. */
  datatype Refusals = Refusals(misses: nat, relaxed: bool) {
    function Missed(): Refusals {
      if misses + 1 >= STRICT_MISS_THRESHOLD then Refusals(0, true) else Refusals(misses + 1, relaxed)
    }
  }

  function RefusalsAfter(r: Refusals, others: seq<Other>): Refusals {
    if others == [] then r
    else
      var before := RefusalsAfter(r, others[..|others| - 1]);
      match others[|others| - 1]
      case Script(_) => before
      case StrictMiss => before.Missed()
      case MissReset => Refusals(0, before.relaxed)
  }

  lemma {:induction false} OthersKeepRelaxed(r: Refusals, others: seq<Other>)
    ensures r.relaxed ==> RefusalsAfter(r, others).relaxed
  {
    if others != [] {
      OthersKeepRelaxed(r, others[..|others| - 1]);
    }
  }

  function Scripts(others: seq<Other>): seq<Command> {
    if others == [] then []
    else (if others[0].Script? then [others[0].command] else []) + Scripts(others[1..])
  }

  lemma {:induction false} ScriptsStep(others: seq<Other>, i: nat)
    requires i < |others|
    ensures Scripts(others[..i + 1]) == Scripts(others[..i]) + (if others[i].Script? then [others[i].command] else [])
  {
    if i > 0 {
      ScriptsStep(others[1..], i - 1);
      assert others[..i + 1][1..] == others[1..][..i];
      assert others[..i][1..] == others[1..][..i - 1];
    } else {
      assert others[..1][1..] == [];
    }
  }

  predicate Polite(geom: map<int, BlockGeom>, others: seq<Other>) {
    forall i :: 0 <= i < |others| && others[i].Script? ==> others[i].command.WellFormed(geom)
  }

  lemma OneMoreCommand(z: Zone, cs: seq<Command>, c: Command)
    ensures AfterCommands(z, cs + [c]) == AfterCommand(AfterCommands(z, cs), c)
  {
    CommandsConcat(z, cs, [c]);
    assert [c][1..] == [];
  }

  /** The store while we wait: other clients' scripts run one after another. */
  method RunOthers(store: ZoneStore, others: seq<Other>)
    requires store.Valid() && Sound(store.Abs()) && Polite(store.geom, others)
    modifies store
    ensures store.Valid() && store.Abs() == AfterCommands(old(store.Abs()), Scripts(others))
    ensures Sound(store.Abs()) && store.geom == old(store.geom)
    ensures Refusals(store.misses, store.relaxed) == RefusalsAfter(Refusals(old(store.misses), old(store.relaxed)), others)
    ensures old(store.relaxed) ==> store.relaxed
  {
    ghost var before := store.Abs();
    ghost var start := Refusals(store.misses, store.relaxed);
    for i := 0 to |others|
      invariant store.Valid() && store.Abs() == AfterCommands(before, Scripts(others[..i]))
      invariant Sound(store.Abs()) && store.geom == before.geom
      invariant Refusals(store.misses, store.relaxed) == RefusalsAfter(start, others[..i])
    {
      ScriptsStep(others, i);
      assert others[..i + 1][..i] == others[..i];
      assert Scripts(others[..i]) + [] == Scripts(others[..i]);
      match others[i] {
        case Script(c) =>
          OneMoreCommand(before, Scripts(others[..i]), c);
          CommandKeepsSound(store.Abs(), c);
          match c {
            case Claim(a) => var _ := store.ClaimSeats(a);
            case Release(a) => var _ := store.ReleaseSeats(a);
          }
        case StrictMiss =>
          var _ := store.RecordStrictMiss();
        case MissReset =>
          store.misses := 0;
      }
    }
    assert others[..|others|] == others;
    OthersKeepRelaxed(start, others);
  }

  /** Two refusals in a row change nothing but the count; the third switches the zone and starts the count over. */
  lemma ThirdRefusalSwitches()
    ensures Refusals(0, false).Missed() == Refusals(1, false) && Refusals(1, false).Missed() == Refusals(2, false)
    ensures Refusals(2, false).Missed() == Refusals(0, true)
  {
  }
}
