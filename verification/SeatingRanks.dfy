/** The list of suggestions without the list: which placements are suggested, and how many rank before one. */
module SeatingRanks {
  import opened Basics
  import opened RunSets
  import opened Seating
  import opened SeatingOptimality
  import Sorting

  // ------------------------------------------------------------------ lists without repeats

  ghost predicate Different<T>(s: seq<T>) {
    forall i, j :: 0 <= i < j < |s| ==> s[i] != s[j]
  }

  ghost function SetOf<T>(s: seq<T>): set<T> {
    set x | x in s
  }

  lemma {:induction false} SetIsNoLarger<T>(s: seq<T>)
    ensures |SetOf(s)| <= |s|
    ensures |SetOf(s)| == |s| <==> Different(s)
  {
    if s != [] {
      var rest := s[1..];
      SetIsNoLarger(rest);
      if s[0] in rest {
        var j :| 0 <= j < |rest| && rest[j] == s[0];
        assert s[0] == s[j + 1];
        assert SetOf(s) == SetOf(rest);
      } else {
        assert SetOf(s) == SetOf(rest) + {s[0]};
        if Different(rest) {
          forall i, j | 0 <= i < j < |s| ensures s[i] != s[j] {
            assert s[j] == rest[j - 1];
            assert i > 0 ==> s[i] == rest[i - 1];
          }
        }
        if Different(s) {
          forall i, j | 0 <= i < j < |rest| ensures rest[i] != rest[j] {
            assert rest[i] == s[i + 1] && rest[j] == s[j + 1];
          }
        }
      }
    }
  }

  lemma SameElementsStayDifferent<T>(s: seq<T>, t: seq<T>)
    requires Different(s) && |s| == |t| && forall x :: x in s <==> x in t
    ensures Different(t)
  {
    SetIsNoLarger(s);
    SetIsNoLarger(t);
    assert SetOf(s) == SetOf(t);
  }

  lemma ConcatDifferent<T>(a: seq<T>, b: seq<T>)
    requires Different(a) && Different(b) && forall x :: x in a ==> x !in b
    ensures Different(a + b)
  {
    forall i, j | 0 <= i < j < |a + b| ensures (a + b)[i] != (a + b)[j] {
      if i < |a| <= j {
        assert a[i] in a && b[j - |a|] in b;
      }
    }
  }

  // ------------------------------------------------------------------ what is suggested

  /** Offsets tried in a run: both ends, and one in the middle. */
  function Tried(r: Run, quantity: int, geo: BlockGeometry, policy: Policy): set<int> {
    {0, r.length - quantity, ClampedOffset(r, quantity, geo, policy)}
  }

  /** Everything suggested in a zone: the permitted ones of the offsets tried in every run. */
  ghost function Suggestions(free: set<Run>, quantity: int, geometry: map<int, BlockGeometry>, policy: Policy): set<Placement> {
    set r, k | r in free && r.block in geometry && k in Tried(r, quantity, geometry[r.block], policy) && LegalOffset(r, quantity, policy, k)
      :: PlacementAt(r, k, quantity, geometry[r.block], policy)
  }

  /** Higher score, or the same score and an earlier seat. */
  predicate Beats(a: Placement, b: Placement) {
    a.score > b.score || (a.score == b.score && (a.block < b.block || (a.block == b.block && a.start < b.start)))
  }

  ghost function Better(free: set<Run>, quantity: int, geometry: map<int, BlockGeometry>, policy: Policy, p: Placement): set<Placement> {
    set c | c in Suggestions(free, quantity, geometry, policy) && Beats(c, p)
  }

  lemma CandidatesAreTried(r: Run, quantity: int, geo: BlockGeometry, policy: Policy, c: Placement)
    ensures c in Candidates(r, quantity, geo, policy) <==>
      exists k :: k in Tried(r, quantity, geo, policy) && LegalOffset(r, quantity, policy, k) && c == PlacementAt(r, k, quantity, geo, policy)
  {
    if c in Candidates(r, quantity, geo, policy) {
      var k := c.start - r.start;
      CandidateIsLegal(r, quantity, geo, policy, c);
      assert k in Tried(r, quantity, geo, policy);
    }
  }

  lemma AnchorsAreSuggestions(runs: seq<Run>, quantity: int, geometry: map<int, BlockGeometry>, policy: Policy)
    requires GeometryFor(runs, geometry)
    ensures SetOf(LegalAnchors(runs, quantity, geometry, policy)) == Suggestions(RunSet(runs), quantity, geometry, policy)
  {
    var cands := AllCandidates(runs, quantity, geometry, policy);
    Sorting.SortKeepsElements(cands, RanksBefore);
    hide Candidates, LegalOffset, Tried, PlacementAt, AllCandidates;
    forall c ensures c in cands <==> c in Suggestions(RunSet(runs), quantity, geometry, policy) {
      CandidateComesFromARun(runs, quantity, geometry, policy, c);
      if c in cands {
        var i :| 0 <= i < |runs| && c in Candidates(runs[i], quantity, geometry[runs[i].block], policy);
        CandidatesAreTried(runs[i], quantity, geometry[runs[i].block], policy, c);
        assert runs[i] in RunSet(runs);
      }
      if c in Suggestions(RunSet(runs), quantity, geometry, policy) {
        var r, k :| r in RunSet(runs) && r.block in geometry && k in Tried(r, quantity, geometry[r.block], policy)
          && LegalOffset(r, quantity, policy, k) && c == PlacementAt(r, k, quantity, geometry[r.block], policy);
        CandidatesAreTried(r, quantity, geometry[r.block], policy, c);
        var i :| 0 <= i < |runs| && runs[i] == r;
      }
    }
  }

  // ------------------------------------------------------------------ no suggestion twice

  lemma CandidatesDiffer(r: Run, quantity: int, geo: BlockGeometry, policy: Policy)
    ensures Different(Candidates(r, quantity, geo, policy))
  {
  }

  lemma CandidatesOfOthersDiffer(free: set<Run>, r: Run, q: Run, quantity: int, rgeo: BlockGeometry, qgeo: BlockGeometry, policy: Policy, c: Placement)
    requires Canonical(free) && r in free && q in free && r != q
    requires c in Candidates(r, quantity, rgeo, policy)
    ensures c !in Candidates(q, quantity, qgeo, policy)
  {
    CandidateIsLegal(r, quantity, rgeo, policy, c);
    assert c.length >= 1;
    assert Apart(r, q);
    if c in Candidates(q, quantity, qgeo, policy) {
      CandidateIsLegal(q, quantity, qgeo, policy, c);
      assert false;
    }
  }

  lemma {:induction false} AllCandidatesDiffer(runs: seq<Run>, quantity: int, geometry: map<int, BlockGeometry>, policy: Policy)
    requires GeometryFor(runs, geometry) && Canonical(RunSet(runs)) && Different(runs)
    ensures Different(AllCandidates(runs, quantity, geometry, policy))
  {
    if runs != [] {
      var rest := runs[1..];
      var f := CandidatesIn(quantity, geometry, policy);
      assert forall r :: r in RunSet(rest) ==> r in RunSet(runs);
      forall i, j | 0 <= i < j < |rest| ensures rest[i] != rest[j] {
        assert rest[i] == runs[i + 1] && rest[j] == runs[j + 1];
      }
      AllCandidatesDiffer(rest, quantity, geometry, policy);
      var mine := Candidates(runs[0], quantity, geometry[runs[0].block], policy);
      CandidatesDiffer(runs[0], quantity, geometry[runs[0].block], policy);
      hide Candidates, Canonical;
      forall c | c in mine ensures c !in AllCandidates(rest, quantity, geometry, policy) {
        CandidateComesFromARun(rest, quantity, geometry, policy, c);
        forall i | 0 <= i < |rest| ensures c !in Candidates(rest[i], quantity, geometry[rest[i].block], policy) {
          assert runs[i + 1] == rest[i] && runs[0] in RunSet(runs) && runs[i + 1] in RunSet(runs);
          CandidatesOfOthersDiffer(RunSet(runs), runs[0], rest[i], quantity, geometry[runs[0].block], geometry[rest[i].block], policy, c);
        }
      }
      assert f(runs[0]) == mine;
      ConcatDifferent(mine, AllCandidates(rest, quantity, geometry, policy));
    }
  }

  lemma AnchorsDiffer(runs: seq<Run>, quantity: int, geometry: map<int, BlockGeometry>, policy: Policy)
    requires GeometryFor(runs, geometry) && Canonical(RunSet(runs)) && Different(runs)
    ensures Different(LegalAnchors(runs, quantity, geometry, policy))
  {
    var cands := AllCandidates(runs, quantity, geometry, policy);
    AllCandidatesDiffer(runs, quantity, geometry, policy);
    Sorting.SortKeepsElements(cands, RanksBefore);
    SameElementsStayDifferent(cands, LegalAnchors(runs, quantity, geometry, policy));
  }

  // ------------------------------------------------------------------ the place in the list

  /** The list is in order: better score first, then the lower block, then the lower seat. */
  lemma AnchorsAreRanked(runs: seq<Run>, quantity: int, geometry: map<int, BlockGeometry>, policy: Policy, i: nat, j: nat)
    requires GeometryFor(runs, geometry) && Canonical(RunSet(runs)) && Different(runs)
    requires i < j < |LegalAnchors(runs, quantity, geometry, policy)|
    ensures var anchors := LegalAnchors(runs, quantity, geometry, policy); Beats(anchors[i], anchors[j]) && !Beats(anchors[j], anchors[i])
  {
    var anchors := LegalAnchors(runs, quantity, geometry, policy);
    var cands := AllCandidates(runs, quantity, geometry, policy);
    AnchorsDiffer(runs, quantity, geometry, policy);
    RankingIsTotal();
    Sorting.SortSorts(cands, RanksBefore);
    Sorting.SortKeepsElements(cands, RanksBefore);
    CandidatesHaveLength(runs, quantity, geometry, policy);
    assert anchors[i] in anchors && anchors[j] in anchors;
    assert anchors[i].length == anchors[j].length && anchors[i] != anchors[j];
  }

  /** Exactly `k` suggestions are better than number `k` of the list. */
  lemma PlaceInTheList(runs: seq<Run>, quantity: int, geometry: map<int, BlockGeometry>, policy: Policy, k: nat)
    requires GeometryFor(runs, geometry) && Canonical(RunSet(runs)) && Different(runs)
    requires k < |LegalAnchors(runs, quantity, geometry, policy)|
    ensures var anchors := LegalAnchors(runs, quantity, geometry, policy);
      && anchors[k] in Suggestions(RunSet(runs), quantity, geometry, policy)
      && |Suggestions(RunSet(runs), quantity, geometry, policy)| == |anchors|
      && |Better(RunSet(runs), quantity, geometry, policy, anchors[k])| == k
  {
    var anchors := LegalAnchors(runs, quantity, geometry, policy);
    AnchorsAreSuggestions(runs, quantity, geometry, policy);
    AnchorsDiffer(runs, quantity, geometry, policy);
    SetIsNoLarger(anchors);
    assert anchors[k] in SetOf(anchors);
    SetIsNoLarger(anchors[..k]);
    forall j | 0 <= j < |anchors| ensures Beats(anchors[j], anchors[k]) <==> j < k {
      if j < k {
        AnchorsAreRanked(runs, quantity, geometry, policy, j, k);
      } else if k < j {
        AnchorsAreRanked(runs, quantity, geometry, policy, k, j);
      }
    }
    hide LegalAnchors, Suggestions, Beats;
    forall c ensures c in Better(RunSet(runs), quantity, geometry, policy, anchors[k]) <==> c in SetOf(anchors[..k]) {
      if c in SetOf(anchors) {
        var j :| 0 <= j < |anchors| && anchors[j] == c;
        assert j < k ==> anchors[..k][j] == c;
      }
    }
    assert Better(RunSet(runs), quantity, geometry, policy, anchors[k]) == SetOf(anchors[..k]);
  }

  /** `allocate` takes the one suggestion that nothing is better than, and misses only when nothing is suggested. */
  lemma AllocateTakesTheBest(runs: seq<Run>, quantity: int, geometry: map<int, BlockGeometry>, policy: Policy, p: Placement)
    requires GeometryFor(runs, geometry) && Canonical(RunSet(runs)) && Different(runs)
    ensures FirstOf(LegalAnchors(runs, quantity, geometry, policy)) == Some(p) <==>
      p in Suggestions(RunSet(runs), quantity, geometry, policy) && Better(RunSet(runs), quantity, geometry, policy, p) == {}
  {
    var anchors := LegalAnchors(runs, quantity, geometry, policy);
    AnchorsAreSuggestions(runs, quantity, geometry, policy);
    hide LegalAnchors, Suggestions, Beats;
    if anchors != [] {
      PlaceInTheList(runs, quantity, geometry, policy, 0);
    }
    if p in SetOf(anchors) {
      var k :| 0 <= k < |anchors| && anchors[k] == p;
      PlaceInTheList(runs, quantity, geometry, policy, k);
    }
  }

  /** Without middle cuts, as in both policies in use, every permitted cut is suggested. */
  lemma EndCutsAreAllSuggested(free: set<Run>, quantity: int, geometry: map<int, BlockGeometry>, policy: Policy, r: Run, k: int)
    requires !policy.allowMidCut && r in free && r.block in geometry && LegalOffset(r, quantity, policy, k)
    ensures PlacementAt(r, k, quantity, geometry[r.block], policy) in Suggestions(free, quantity, geometry, policy)
  {
    assert k in Tried(r, quantity, geometry[r.block], policy);
  }

  /** So every permitted cut that is better than a placement is one of the better suggestions. */
  lemma BetterCutsAreSuggested(free: set<Run>, quantity: int, geometry: map<int, BlockGeometry>, policy: Policy, p: Placement, r: Run, k: int)
    requires !policy.allowMidCut && r in free && r.block in geometry && LegalOffset(r, quantity, policy, k)
    requires Beats(PlacementAt(r, k, quantity, geometry[r.block], policy), p)
    ensures PlacementAt(r, k, quantity, geometry[r.block], policy) in Better(free, quantity, geometry, policy, p)
  {
    EndCutsAreAllSuggested(free, quantity, geometry, policy, r, k);
    hide Suggestions, PlacementAt, LegalOffset, Beats;
  }
}
