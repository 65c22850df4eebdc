/** Loading one event's configuration on a cache miss, coordinated across processes by a fenced lock. */
module EventCache {
  import opened Basics

  /** Where one loader is; loaders are identified by the token they would put into the lock. */
  datatype Loader = Trying | Polling | Checking | Loading | LoadingAlone | Releasing

  datatype World = World(
    lock: Option<nat>,
    cached: bool,
    loaders: map<nat, Loader>,
    loads: nat,
    failures: nat,
    expiries: nat,
    fallbacks: nat,
    evictions: nat
  )

  datatype Step =
    | Miss(p: nat)
    | TryLock(p: nat)
    | Poll(p: nat)
    | FallBack(p: nat)
    | CheckAgain(p: nat)
    | Fill(p: nat)
    | LoadFails(p: nat)
    | Unlock(p: nat)
    | Die(p: nat)
    | LockExpires
    | CacheExpires

  predicate Is(w: World, p: nat, l: Loader) {
    p in w.loaders && w.loaders[p] == l
  }

  predicate Enabled(w: World, s: Step) {
    match s
    case Miss(p) => p !in w.loaders && !w.cached && w.lock != Some(p)
    case TryLock(p) => Is(w, p, Trying)
    case Poll(p) => Is(w, p, Polling)
    case FallBack(p) => Is(w, p, Polling) && !w.cached
    case CheckAgain(p) => Is(w, p, Checking)
    case Fill(p) => Is(w, p, Loading) || Is(w, p, LoadingAlone)
    case LoadFails(p) => Is(w, p, Loading) || Is(w, p, LoadingAlone)
    case Unlock(p) => Is(w, p, Releasing)
    case Die(p) => p in w.loaders
    case LockExpires => w.lock.Some?
    case CacheExpires => w.cached
  }

  /** The unlock script: delete the lock only while it carries the caller's token. */
  function Unlocked(lock: Option<nat>, p: nat): Option<nat> {
    if lock == Some(p) then None else lock
  }

  function Next(w: World, s: Step): World
    requires Enabled(w, s)
  {
    match s
    case Miss(p) => w.(loaders := w.loaders[p := Trying])
    case TryLock(p) =>
      if w.lock.None? then w.(lock := Some(p), loaders := w.loaders[p := Checking]) else w.(loaders := w.loaders[p := Polling])
    case Poll(p) => if w.cached then w.(loaders := w.loaders - {p}) else w.(loaders := w.loaders[p := Trying])
    case FallBack(p) => w.(loaders := w.loaders[p := LoadingAlone], loads := w.loads + 1, fallbacks := w.fallbacks + 1)
    case CheckAgain(p) =>
      if w.cached then w.(loaders := w.loaders[p := Releasing])
      else w.(loaders := w.loaders[p := Loading], loads := w.loads + 1)
    case Fill(p) =>
      w.(cached := true, loaders := if w.loaders[p].Loading? then w.loaders[p := Releasing] else w.loaders - {p})
    case LoadFails(p) =>
      w.(failures := w.failures + 1, loaders := if w.loaders[p].Loading? then w.loaders[p := Releasing] else w.loaders - {p})
    case Unlock(p) => w.(lock := Unlocked(w.lock, p), loaders := w.loaders - {p})
    case Die(p) => w.(failures := if w.loaders[p].Loading? then w.failures + 1 else w.failures, loaders := w.loaders - {p})
    case LockExpires => w.(lock := None, expiries := w.expiries + 1)
    case CacheExpires => w.(cached := false, evictions := w.evictions + 1)
  }

  /** A cold cache before anybody asks. */
  predicate Initial(w: World) {
    && w.lock.None? && !w.cached && w.loaders == map[]
    && w.loads == 0 && w.failures == 0 && w.expiries == 0 && w.fallbacks == 0 && w.evictions == 0
  }

  // ------------------------------------------------------------------ how many loads there can be

  /** About to check the cache, with the lock expired in the meantime. */
  predicate Exposed(w: World, p: nat) {
    p in w.loaders && w.loaders[p] == Checking && w.lock != Some(p)
  }

  function Stripped(w: World): set<nat> {
    set p | p in w.loaders && Exposed(w, p)
  }

  /** The cache is warm, or whoever holds the lock is warming it. */
  predicate Warming(w: World) {
    w.cached || (w.lock.Some? && Is(w, w.lock.value, Loading))
  }

  /** Every load beyond the first is paid for; loaders stripped of the lock have theirs set aside. */
  predicate Paid(w: World, stripped: nat) {
    w.loads + stripped <= w.failures + w.expiries + w.fallbacks + w.evictions + Bit(Warming(w))
  }

  /** Only loaders that got the lock, or lost it by expiry, are past asking for it. */
  predicate Outside(w: World) {
    forall p :: p in w.loaders && (w.loaders[p].Trying? || w.loaders[p].Polling? || w.loaders[p].LoadingAlone?) ==> w.lock != Some(p)
  }

  predicate Inv(w: World) {
    Paid(w, |Stripped(w)|) && Outside(w)
  }

  lemma StrippedSize(w: World, v: World, p: nat)
    requires Stripped(v) <= Stripped(w) + {p}
    ensures |Stripped(v)| <= |Stripped(w)| + 1
    ensures p !in Stripped(v) ==> |Stripped(v)| <= |Stripped(w)|
    ensures p !in Stripped(v) && p in Stripped(w) ==> |Stripped(v)| <= |Stripped(w)| - 1
  {
    SubsetSize(Stripped(v), Stripped(w) + {p});
    if p !in Stripped(v) {
      SubsetSize(Stripped(v), Stripped(w) - {p});
    }
  }

  /** Whose step it is: the caller, or the holder whose lock expires. */
  function Actor(w: World, s: Step): nat
    requires Enabled(w, s)
  {
    if s.LockExpires? then w.lock.value else if s.CacheExpires? then 0 else s.p
  }

  /** A step strips nobody but its own actor. */
  lemma StripsOnlyTheActor(w: World, s: Step)
    requires Enabled(w, s)
    ensures Stripped(Next(w, s)) <= Stripped(w) + {Actor(w, s)}
    ensures s.CacheExpires? ==> Stripped(Next(w, s)) == Stripped(w)
  {
  }

  lemma IsStripped(w: World, p: nat)
    ensures p in Stripped(w) <==> Exposed(w, p)
  {
  }

  lemma StillPaid(w: World, s: Step, before: nat, after: nat)
    requires Enabled(w, s) && Paid(w, before) && Outside(w)
    requires after <= before + Bit(Exposed(Next(w, s), Actor(w, s)))
    requires Exposed(w, Actor(w, s)) && !Exposed(Next(w, s), Actor(w, s)) ==> after <= before - 1
    requires s.CacheExpires? ==> after == before
    ensures Paid(Next(w, s), after)
  {
  }

  lemma StillOutside(w: World, s: Step)
    requires Enabled(w, s) && Outside(w)
    ensures Outside(Next(w, s))
  {
  }

  lemma StepKeeps(w: World, s: Step)
    requires Inv(w) && Enabled(w, s)
    ensures Inv(Next(w, s))
  {
    var v := Next(w, s);
    StripsOnlyTheActor(w, s);
    StrippedSize(w, v, Actor(w, s));
    IsStripped(w, Actor(w, s));
    IsStripped(v, Actor(w, s));
    hide Stripped, Next, Enabled, Paid, Outside;
    StillPaid(w, s, |Stripped(w)|, |Stripped(v)|);
    StillOutside(w, s);
  }

  predicate Possible(w: World, steps: seq<Step>)
    decreases steps
  {
    steps == [] || (Enabled(w, steps[0]) && Possible(Next(w, steps[0]), steps[1..]))
  }

  function AfterSteps(w: World, steps: seq<Step>): World
    requires Possible(w, steps)
    decreases steps
  {
    if steps == [] then w else AfterSteps(Next(w, steps[0]), steps[1..])
  }

  lemma {:induction false} AlwaysSound(w: World, steps: seq<Step>)
    requires Inv(w) && Possible(w, steps)
    ensures Inv(AfterSteps(w, steps))
    decreases steps
  {
    hide Inv, Enabled, Next;
    if steps != [] {
      StepKeeps(w, steps[0]);
      AlwaysSound(Next(w, steps[0]), steps[1..]);
    }
  }

  /**
   * However many processes ask, the database is read at most once for the cold period, plus once for every
   * failed load, expired lock, exhausted wait and expired cache entry.
   */
  lemma LoadsAreBounded(w: World, steps: seq<Step>)
    requires Initial(w) && Possible(w, steps)
    ensures var v := AfterSteps(w, steps); v.loads <= 1 + v.failures + v.expiries + v.fallbacks + v.evictions
  {
    assert Stripped(w) == {};
    AlwaysSound(w, steps);
  }

  /** A held lock goes away only with its own holder's unlock, or by expiring. */
  lemma OnlyTheHolderUnlocks(w: World, s: Step, holder: nat)
    requires Enabled(w, s) && w.lock == Some(holder)
    ensures Next(w, s).lock == Some(holder) || s == Unlock(holder) || s == LockExpires
  {
  }

  /** The holder's own unlock frees the lock, and a stranger's leaves it alone. */
  lemma UnlockFreesOwnLock(w: World, p: nat)
    requires Enabled(w, Unlock(p))
    ensures w.lock == Some(p) ==> Next(w, Unlock(p)).lock.None?
    ensures w.lock != Some(p) ==> Next(w, Unlock(p)).lock == w.lock
    ensures p !in Next(w, Unlock(p)).loaders
  {
  }

  /** A free lock goes to whoever asks, and a held one to nobody else. */
  lemma LockGoesToOne(w: World, p: nat)
    requires Enabled(w, TryLock(p))
    ensures w.lock.None? ==> Next(w, TryLock(p)).lock == Some(p) && Is(Next(w, TryLock(p)), p, Checking)
    ensures w.lock.Some? ==> Next(w, TryLock(p)).lock == w.lock && Is(Next(w, TryLock(p)), p, Polling)
  {
  }

  /** Two processes miss together, `p` is first at the lock. */
  function TwoMisses(p: nat, q: nat): seq<Step> {
    [Miss(p), Miss(q), TryLock(p), TryLock(q), CheckAgain(p), Fill(p), Poll(q), Unlock(p)]
  }

  /** The world after the first `n` of those steps. */
  function Reached(w: World, p: nat, q: nat, n: nat): World {
    match n
    case 0 => w
    case 1 => w.(loaders := map[p := Trying])
    case 2 => w.(loaders := map[p := Trying, q := Trying])
    case 3 => w.(lock := Some(p), loaders := map[p := Checking, q := Trying])
    case 4 => w.(lock := Some(p), loaders := map[p := Checking, q := Polling])
    case 5 => w.(lock := Some(p), loaders := map[p := Loading, q := Polling], loads := 1)
    case 6 => w.(lock := Some(p), loaders := map[p := Releasing, q := Polling], loads := 1, cached := true)
    case 7 => w.(lock := Some(p), loaders := map[p := Releasing], loads := 1, cached := true)
    case _ => w.(loads := 1, cached := true)
  }

  lemma OneStepOn(w: World, p: nat, q: nat, n: nat)
    requires Initial(w) && p != q && n < 8
    ensures var v, s := Reached(w, p, q, n), TwoMisses(p, q)[n]; Enabled(v, s) && Next(v, s) == Reached(w, p, q, n + 1)
  {
    var v, s := Reached(w, p, q, n), TwoMisses(p, q)[n];
    assert Next(v, s).loaders == Reached(w, p, q, n + 1).loaders;
  }

  lemma {:induction false} RunFrom(w: World, p: nat, q: nat, n: nat)
    requires Initial(w) && p != q && n <= 8
    ensures var rest := TwoMisses(p, q)[n..];
      Possible(Reached(w, p, q, n), rest) && AfterSteps(Reached(w, p, q, n), rest) == Reached(w, p, q, 8)
    decreases 8 - n
  {
    if n < 8 {
      OneStepOn(w, p, q, n);
      hide Reached, Next, Enabled;
      RunFrom(w, p, q, n + 1);
      assert TwoMisses(p, q)[n..][1..] == TwoMisses(p, q)[n + 1..];
    }
  }

  /** One of them loads, the other waits for it: the database is read once, the cache is warm and the lock is free again. */
  lemma TwoMissesOneLoad(w: World, p: nat, q: nat)
    requires Initial(w) && p != q
    ensures Possible(w, TwoMisses(p, q)) && AfterSteps(w, TwoMisses(p, q)) == w.(loads := 1, cached := true)
  {
    RunFrom(w, p, q, 0);
    hide Possible, AfterSteps;
    assert TwoMisses(p, q)[0..] == TwoMisses(p, q);
  }

  /** Without expiry nobody else is ever let in: whoever checks, loads or unlocks is the one lock holder. */
  lemma {:induction false} CriticalSectionIsExclusive(w: World, steps: seq<Step>, p: nat, q: nat)
    requires Possible(w, steps) && LockExpires !in steps && Guarded(w)
    requires var v := AfterSteps(w, steps); p in v.loaders && q in v.loaders && InSection(v.loaders[p]) && InSection(v.loaders[q])
    ensures p == q && AfterSteps(w, steps).lock == Some(p)
    decreases steps
  {
    if steps == [] {
      assert AfterSteps(w, steps) == w;
    } else {
      assert Guarded(Next(w, steps[0])) by {
        GuardedStays(w, steps[0]);
      }
      hide Enabled, Next, Guarded, InSection;
      CriticalSectionIsExclusive(Next(w, steps[0]), steps[1..], p, q);
    }
  }

  predicate InSection(l: Loader) {
    l.Checking? || l.Loading? || l.Releasing?
  }

  predicate Guarded(w: World) {
    forall p :: p in w.loaders && InSection(w.loaders[p]) ==> w.lock == Some(p)
  }

  lemma GuardedStays(w: World, s: Step)
    requires Guarded(w) && Enabled(w, s) && s != LockExpires
    ensures Guarded(Next(w, s))
  {
  }
}
