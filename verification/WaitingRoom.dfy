/** The lottery queue in front of a sale: who is admitted when. */
module WaitingRoom {
  import opened Basics
  import Decimal

  // ------------------------------------------------------------------ the draw

  /** Sorted-set order: by score, ties by member name. */
  predicate Ahead(draw: map<nat, int>, u: nat, v: nat)
    requires u in draw && v in draw
  {
    draw[u] < draw[v] || (draw[u] == draw[v] && Decimal.Precedes(Decimal.Str(u), Decimal.Str(v)))
  }

  function AheadOf(draw: map<nat, int>, u: nat): set<nat>
    requires u in draw
  {
    set v | v in draw && Ahead(draw, v, u)
  }

  /** `ZRANK`: how many registered users are ahead. */
  function Rank(draw: map<nat, int>, u: nat): nat
    requires u in draw
  {
    |AheadOf(draw, u)|
  }

  /** Everybody in the list registered once or more, in this order, each with the score the hash gives. */
  function AfterRegistrations(draw: map<nat, int>, users: seq<nat>, score: nat -> int): map<nat, int> {
    if users == [] then draw
    else
      var before := AfterRegistrations(draw, users[..|users| - 1], score);
      var u := users[|users| - 1];
      if u in before then before else before[u := score(u)]
  }

  class Draw {
    var scores: map<nat, int>

    constructor ()
      ensures scores == map[]
    {
      scores := map[];
    }

    /** `register`: `ZADD NX` with the salted hash as score. */
    method Register(u: nat, score: nat -> int)
      modifies this
      ensures scores == old(scores) + if u in old(scores) then map[] else map[u := score(u)]
    {
      if u !in scores {
        scores := scores[u := score(u)];
      }
    }

    /** A whole registration phase: only who registered matters, not when or how often. */
    method RegisterAll(users: seq<nat>, score: nat -> int)
      requires scores == map[]
      modifies this
      ensures scores == map u | u in users :: score(u)
    {
      for n := 0 to |users|
        invariant scores == AfterRegistrations(map[], users[..n], score)
      {
        assert users[..n + 1][..n] == users[..n];
        Register(users[n], score);
      }
      assert users[..|users|] == users;
      DrawDependsOnlyOnWhoRegistered(users, score);
    }
  }

  /** Neither arrival order nor registering again changes anybody's score. */
  lemma {:induction false} DrawDependsOnlyOnWhoRegistered(users: seq<nat>, score: nat -> int)
    ensures AfterRegistrations(map[], users, score) == map u | u in users :: score(u)
  {
    if users != [] {
      var less, last := users[..|users| - 1], users[|users| - 1];
      DrawDependsOnlyOnWhoRegistered(less, score);
      assert users == less + [last];
    }
  }

  /** Two registration phases with the same people give everybody the same rank. */
  lemma RanksDependOnlyOnWhoRegistered(users: seq<nat>, others: seq<nat>, score: nat -> int, u: nat)
    requires u in users && forall v :: v in users <==> v in others
    ensures var draw, again := AfterRegistrations(map[], users, score), AfterRegistrations(map[], others, score);
      u in draw && u in again && Rank(draw, u) == Rank(again, u)
  {
    DrawDependsOnlyOnWhoRegistered(users, score);
    DrawDependsOnlyOnWhoRegistered(others, score);
    assert AfterRegistrations(map[], users, score) == AfterRegistrations(map[], others, score);
  }

  // ------------------------------------------------------------------ ranks are places in a line

  lemma AheadIsTotal(draw: map<nat, int>, u: nat, v: nat)
    requires u in draw && v in draw
    ensures Ahead(draw, u, v) || Ahead(draw, v, u) || u == v
    ensures !(Ahead(draw, u, v) && Ahead(draw, v, u)) && !Ahead(draw, u, u)
  {
    Decimal.PrecedesIsTotal(Decimal.Str(u), Decimal.Str(v));
    Decimal.PrecedesIsTotal(Decimal.Str(u), Decimal.Str(u));
    if Decimal.Str(u) == Decimal.Str(v) {
      Decimal.StrIsInjective(u, v);
    }
  }

  lemma AheadIsTransitive(draw: map<nat, int>, u: nat, v: nat, w: nat)
    requires u in draw && v in draw && w in draw && Ahead(draw, u, v) && Ahead(draw, v, w)
    ensures Ahead(draw, u, w)
  {
    if draw[u] == draw[v] == draw[w] {
      Decimal.PrecedesIsTransitive(Decimal.Str(u), Decimal.Str(v), Decimal.Str(w));
    }
  }

  /** Being ahead is having the smaller rank, and every rank is a place below the total. */
  lemma RankFollowsOrder(draw: map<nat, int>, u: nat, v: nat)
    requires u in draw && v in draw
    ensures Ahead(draw, u, v) <==> Rank(draw, u) < Rank(draw, v)
    ensures Rank(draw, u) == Rank(draw, v) ==> u == v
    ensures Rank(draw, u) < |draw|
  {
    AheadIsTotal(draw, u, v);
    if Ahead(draw, u, v) {
      AheadMeansSmaller(draw, u, v);
    } else if Ahead(draw, v, u) {
      AheadMeansSmaller(draw, v, u);
    }
    AheadIsTotal(draw, u, u);
    SmallerSet(AheadOf(draw, u), draw.Keys, u);
  }

  /** A smaller score has the smaller rank; equal scores rank by member name, a shorter name that begins the other or
      the smaller first different character coming first. */
  lemma RankFollowsScore(draw: map<nat, int>, u: nat, v: nat)
    requires u in draw && v in draw
    ensures draw[u] < draw[v] ==> Rank(draw, u) < Rank(draw, v)
    ensures draw[u] == draw[v] && Decimal.ComesFirst(Decimal.Str(u), Decimal.Str(v)) ==> Rank(draw, u) < Rank(draw, v)
  {
    RankFollowsOrder(draw, u, v);
    Decimal.PrecedesMeaning(Decimal.Str(u), Decimal.Str(v));
    hide Rank, Decimal.Str, Decimal.Precedes, Decimal.ComesFirst;
  }

  lemma AheadMeansSmaller(draw: map<nat, int>, u: nat, v: nat)
    requires u in draw && v in draw && Ahead(draw, u, v)
    ensures Rank(draw, u) < Rank(draw, v)
  {
    AheadIsTotal(draw, u, u);
    forall x | x in AheadOf(draw, u) ensures x in AheadOf(draw, v) {
      AheadIsTransitive(draw, x, u, v);
    }
    SmallerSet(AheadOf(draw, u), AheadOf(draw, v), u);
  }

  // ------------------------------------------------------------------ admission as a function of the clock

  /** Places granted in so many seconds. */
  function Places(elapsed: real, rate: int): real {
    elapsed * rate as real
  }

  /** `_admitted_count`: the rate times the seconds since the window closed, at most everybody. */
  function AdmittedCount(start: Option<real>, now: real, rate: int, total: nat): int {
    if start.None? then 0
    else
      var elapsed := now - start.value;
      if elapsed <= 0.0 then 0 else MinInt(Truncate(Places(elapsed, rate)), total)
  }

  /** `admit_deadline`. */
  function Deadline(start: real, rank: nat, rate: int): real
    requires rate >= 1
  {
    start + (rank + 1) as real / rate as real
  }

  datatype QueueState = QueueState(admitted: bool, peopleAhead: Option<int>, soldOut: bool, paused: bool)

  /** `status`. */
  method Status(draw: map<nat, int>, u: nat, available: int, paused: bool, start: Option<real>, now: real, rate: int) returns (q: QueueState)
    requires rate >= 1
    ensures q.admitted <==> u in draw && available > 0 && !paused && start.Some? && now >= Deadline(start.value, Rank(draw, u), rate)
    ensures q.soldOut <==> available <= 0
    ensures q.paused == paused
    ensures q.peopleAhead.Some? <==> u in draw && available > 0 && !q.admitted
    ensures q.peopleAhead.Some? ==> q.peopleAhead.value == MaxInt(0, Rank(draw, u) - AdmittedCount(start, now, rate, |draw|))
  {
    var soldOut := available <= 0;
    if u !in draw {
      return QueueState(false, None, soldOut, paused);
    }
    var rank := Rank(draw, u);
    if soldOut {
      return QueueState(false, None, true, paused);
    }
    var admittedCount := AdmittedCount(start, now, rate, |draw|);
    if start.Some? {
      DeadlineIsExact(draw, u, start.value, now, rate);
    }
    if paused {
      return QueueState(false, Some(MaxInt(0, rank - admittedCount)), false, true);
    }
    if rank < admittedCount {
      return QueueState(true, None, false, false);
    }
    return QueueState(false, Some(rank - admittedCount), false, false);
  }

  lemma QuotientReached(x: real, n: real, d: real)
    requires d > 0.0
    ensures x * d >= n <==> x >= n / d
  {
    if x >= n / d {
      assert x * d >= n / d * d;
    } else {
      assert x * d < n / d * d;
    }
  }

  lemma ProductSign(x: real, d: real)
    requires d > 0.0
    ensures x > 0.0 <==> x * d > 0.0
  {
  }

  /** The count in terms of the number of places granted so far. */
  function Granted(places: real, total: nat): int {
    if places <= 0.0 then 0 else MinInt(places.Floor, total)
  }

  lemma PlacesSign(elapsed: real, rate: int)
    requires rate >= 1
    ensures elapsed > 0.0 <==> Places(elapsed, rate) > 0.0
  {
    ProductSign(elapsed, rate as real);
  }

  lemma CountIsGranted(start: real, now: real, rate: int, total: nat)
    requires rate >= 1
    ensures AdmittedCount(Some(start), now, rate, total) == Granted(Places(now - start, rate), total)
  {
    PlacesSign(now - start, rate);
    hide Places;
  }

  lemma GrantedAbove(places: real, rank: nat, total: nat)
    requires rank < total
    ensures rank < Granted(places, total) <==> places >= (rank + 1) as real
  {
  }

  /** A registered user's rank drops below the admitted count exactly when the clock reaches the deadline. */
  lemma DeadlineIsExact(draw: map<nat, int>, u: nat, start: real, now: real, rate: int)
    requires u in draw && rate >= 1
    ensures Rank(draw, u) < AdmittedCount(Some(start), now, rate, |draw|) <==> now >= Deadline(start, Rank(draw, u), rate)
  {
    var rank := Rank(draw, u);
    RankFollowsOrder(draw, u, u);
    hide Rank, AheadOf, AdmittedCount, Granted, Deadline, Places;
    CountIsGranted(start, now, rate, |draw|);
    GrantedAbove(Places(now - start, rate), rank, |draw|);
    DeadlineReached(start, now, rank, rate);
  }

  lemma DeadlineReached(start: real, now: real, rank: nat, rate: int)
    requires rate >= 1
    ensures now >= Deadline(start, rank, rate) <==> Places(now - start, rate) >= (rank + 1) as real
  {
    var x, n, d := now - start, (rank + 1) as real, rate as real;
    QuotientReached(x, n, d);
    assert now >= start + n / d <==> x >= n / d;
  }

  /** In so many words: the user is let in once the places granted since the start cover everybody ahead and the user. */
  lemma AdmittedAfterTheirTurn(draw: map<nat, int>, u: nat, start: real, now: real, rate: int)
    requires u in draw && rate >= 1
    ensures Rank(draw, u) < AdmittedCount(Some(start), now, rate, |draw|) <==>
      now >= start + (|set v | v in draw && Ahead(draw, v, u)| + 1) as real / rate as real
    ensures AdmittedCount(None, now, rate, |draw|) == 0
  {
    DeadlineIsExact(draw, u, start, now, rate);
    hide AdmittedCount, Ahead;
  }

  /** Those admitted by `now`. */
  function Admitted(draw: map<nat, int>, start: Option<real>, now: real, rate: int): set<nat> {
    set u | u in draw && Rank(draw, u) < AdmittedCount(start, now, rate, |draw|)
  }

  function Ceiling(x: real): int {
    -((-x).Floor)
  }

  lemma GrantsGrowSlowly(x: real, y: real, z: real, total: nat)
    requires y == x + z && z >= 0.0
    ensures Granted(x, total) <= Granted(y, total) <= Granted(x, total) + Ceiling(z)
  {
    var rest := (-z).Floor;
    assert z <= (-rest) as real;
    assert y < (x.Floor + 1 - rest) as real;
  }

  lemma ProductOfSum(a: real, b: real, d: real)
    requires d > 0.0 && b >= 0.0
    ensures (a + b) * d == a * d + d * b && d * b >= 0.0
  {
  }

  lemma PlacesOfSum(a: real, b: real, rate: int)
    requires rate >= 1 && b >= 0.0
    ensures Places(a + b, rate) == Places(a, rate) + rate as real * b && rate as real * b >= 0.0
  {
    ProductOfSum(a, b, rate as real);
  }

  lemma CountGrowsSlowly(start: real, from: real, to: real, rate: int, total: nat)
    requires from <= to && rate >= 1
    ensures AdmittedCount(Some(start), from, rate, total) <= AdmittedCount(Some(start), to, rate, total)
    ensures AdmittedCount(Some(start), to, rate, total) <= AdmittedCount(Some(start), from, rate, total) + Ceiling(rate as real * (to - from))
  {
    hide AdmittedCount, Granted, Ceiling, Places;
    CountIsGranted(start, from, rate, total);
    CountIsGranted(start, to, rate, total);
    assert to - start == (from - start) + (to - from);
    PlacesOfSum(from - start, to - from, rate);
    GrantsGrowSlowly(Places(from - start, rate), Places(to - start, rate), rate as real * (to - from), total);
  }

  /** People with different places in a stretch of places are at most as many as the stretch is long. */
  lemma {:induction false} PlacesBoundPeople(draw: map<nat, int>, people: set<nat>, lo: int, hi: int)
    requires lo <= hi && forall u :: u in people ==> u in draw && lo <= Rank(draw, u) < hi
    ensures |people| <= hi - lo
    decreases hi - lo
  {
    hide Rank;
    if people != {} {
      var last := if exists u :: u in people && Rank(draw, u) == hi - 1 then set u | u in people && Rank(draw, u) == hi - 1 else {};
      var rest := people - last;
      PlacesBoundPeople(draw, rest, lo, hi - 1);
      AtMostOne(draw, last, hi - 1);
      assert people == rest + last;
    }
  }

  lemma AtMostOne(draw: map<nat, int>, people: set<nat>, place: int)
    requires forall u :: u in people ==> u in draw && Rank(draw, u) == place
    ensures |people| <= 1
  {
    hide Rank;
    if people != {} {
      var u :| u in people;
      forall v | v in people ensures v == u {
        RankFollowsOrder(draw, u, v);
      }
      assert people == {u};
    }
  }

  /** In any stretch of `d` seconds at most `ceil(rate * d)` people become admitted. */
  lemma AdmissionIsThrottled(draw: map<nat, int>, start: real, from: real, to: real, rate: int)
    requires from <= to && rate >= 1
    ensures Admitted(draw, Some(start), from, rate) <= Admitted(draw, Some(start), to, rate)
    ensures |Admitted(draw, Some(start), to, rate) - Admitted(draw, Some(start), from, rate)| <= Ceiling(rate as real * (to - from))
  {
    CountGrowsSlowly(start, from, to, rate, |draw|);
    hide AdmittedCount, Rank;
    var lo, hi := AdmittedCount(Some(start), from, rate, |draw|), AdmittedCount(Some(start), to, rate, |draw|);
    PlacesBoundPeople(draw, Admitted(draw, Some(start), to, rate) - Admitted(draw, Some(start), from, rate), lo, hi);
  }

  lemma CountIsInRange(start: real, now: real, rate: int, total: nat)
    requires rate >= 1
    ensures 0 <= AdmittedCount(Some(start), now, rate, total) <= total
  {
    CountIsGranted(start, now, rate, total);
    hide Places, AdmittedCount;
  }

  lemma RanksAreInRange(draw: map<nat, int>)
    ensures forall u :: u in draw ==> 0 <= Rank(draw, u) < |draw|
  {
    hide Rank;
    forall u | u in draw ensures 0 <= Rank(draw, u) < |draw| {
      RankFollowsOrder(draw, u, u);
    }
  }

  /** Ranks leave no gap: below any place there are exactly that many people. */
  lemma PlacesAreFilled(draw: map<nat, int>, c: nat)
    requires c <= |draw|
    ensures |set u | u in draw && Rank(draw, u) < c| == c
  {
    RanksAreInRange(draw);
    hide Rank;
    var before := set u | u in draw && Rank(draw, u) < c;
    var after := set u | u in draw && Rank(draw, u) >= c;
    PlacesBoundPeople(draw, before, 0, c);
    PlacesBoundPeople(draw, after, c, |draw|);
    assert draw.Keys == before + after && before !! after;
    assert |draw.Keys| == |before| + |after|;
  }

  /** The admitted count is the number of people admitted: the rate times the seconds passed, rounded down, or everybody. */
  lemma CountCountsPeople(draw: map<nat, int>, start: real, now: real, rate: int)
    requires rate >= 1
    ensures |Admitted(draw, Some(start), now, rate)| == AdmittedCount(Some(start), now, rate, |draw|)
    ensures now <= start ==> Admitted(draw, Some(start), now, rate) == {}
    ensures now > start ==>
      |Admitted(draw, Some(start), now, rate)| == MinInt(((now - start) * rate as real).Floor, |draw|)
  {
    CountIsInRange(start, now, rate, |draw|);
    CountIsGranted(start, now, rate, |draw|);
    PlacesSign(now - start, rate);
    assert Places(now - start, rate) == (now - start) * rate as real;
    hide Rank, AdmittedCount, Places;
    PlacesAreFilled(draw, AdmittedCount(Some(start), now, rate, |draw|));
    assert Admitted(draw, Some(start), now, rate) == set u | u in draw && Rank(draw, u) < AdmittedCount(Some(start), now, rate, |draw|);
    if now <= start {
      NobodyYet(draw, start, now, rate);
    }
  }

  lemma NobodyYet(draw: map<nat, int>, start: real, now: real, rate: int)
    requires rate >= 1 && now <= start
    ensures Admitted(draw, Some(start), now, rate) == {}
  {
    hide Rank;
  }
}
