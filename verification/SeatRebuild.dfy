/** Recomputing a zone from the holds in the database. */
module SeatRebuild {
  import opened Basics
  import opened RunSets
  import opened SeatZone
  import opened SeatHash
  import opened SeatComplement
  import opened SeatRuns
  import opened SeatOthers
  import Sorting

  datatype SeatBlock = SeatBlock(id: int, geom: BlockGeom)

  /** An occupied stretch of one block. */
  datatype Span = Span(lo: int, hi: int)

  predicate SpanBefore(a: Span, b: Span) {
    a.lo < b.lo || (a.lo == b.lo && a.hi <= b.hi)
  }

  ghost predicate InSpans(spans: seq<Span>, p: int) {
    exists i :: 0 <= i < |spans| && spans[i].lo <= p < spans[i].hi
  }

  predicate SpansFit(spans: seq<Span>, capacity: int) {
    forall i :: 0 <= i < |spans| ==> 0 <= spans[i].lo < spans[i].hi <= capacity
  }

  lemma InSpansStep(spans: seq<Span>, i: nat, p: int)
    requires i < |spans|
    ensures InSpans(spans[..i + 1], p) <==> InSpans(spans[..i], p) || spans[i].lo <= p < spans[i].hi
  {
    assert spans[..i + 1] == spans[..i] + [spans[i]];
    if InSpans(spans[..i], p) {
      var j :| 0 <= j < |spans[..i]| && spans[..i][j].lo <= p < spans[..i][j].hi;
      assert spans[..i + 1][j] == spans[..i][j];
    }
    assert spans[..i + 1][i] == spans[i];
  }

  /** State of the cursor: everything before it is settled. */
  ghost predicate Swept(free: set<Run>, block: int, spans: seq<Span>, cursor: int) {
    && Canonical(free)
    && (forall r :: r in free ==> r.block == block && 0 <= r.start && r.End() < cursor)
    && (forall p :: Free(free, block, p) <==> 0 <= p < cursor && !InSpans(spans, p))
    && (forall p :: InSpans(spans, p) ==> p < cursor)
  }

  lemma FreeWithOneMore(free: set<Run>, run: Run, b: int, p: int)
    ensures Free(free + {run}, b, p) <==> Free(free, b, p) || run.Covers(b, p)
  {
    if Free(free, b, p) {
      var r :| r in free && r.Covers(b, p);
      assert r in free + {run};
    }
    assert run in free + {run};
  }

  /** The runs after the loop body has seen span `s` with the cursor where it is. */
  ghost function SweptRuns(free: set<Run>, block: int, s: Span, cursor: int): set<Run> {
    if s.lo > cursor then free + {Run(block, cursor, s.lo - cursor)} else free
  }

  lemma SweepCell(free: set<Run>, block: int, spans: seq<Span>, i: nat, cursor: int, p: int)
    requires i < |spans| && Swept(free, block, spans[..i], cursor) && 0 <= cursor && 0 <= spans[i].lo < spans[i].hi
    requires forall j :: 0 <= j < i ==> spans[j].lo <= spans[i].lo
    ensures Free(SweptRuns(free, block, spans[i], cursor), block, p)
            <==> 0 <= p < MaxInt(cursor, spans[i].hi) && !InSpans(spans[..i + 1], p)
    ensures InSpans(spans[..i + 1], p) ==> p < MaxInt(cursor, spans[i].hi)
  {
    InSpansStep(spans, i, p);
    assert InSpans(spans[..i], p) ==> p < cursor;
    assert Free(free, block, p) <==> 0 <= p < cursor && !InSpans(spans[..i], p);
    if spans[i].lo > cursor {
      FreeWithOneMore(free, Run(block, cursor, spans[i].lo - cursor), block, p);
    }
    if Free(free, block, p) {
      EarlierGapsEndEarlier(free, block, spans, i, cursor, p);
    }
  }

  lemma SweepStep(free: set<Run>, block: int, spans: seq<Span>, i: nat, cursor: int)
    requires i < |spans| && Swept(free, block, spans[..i], cursor) && 0 <= cursor && 0 <= spans[i].lo < spans[i].hi
    requires forall j :: 0 <= j < i ==> spans[j].lo <= spans[i].lo
    ensures Swept(SweptRuns(free, block, spans[i], cursor), block, spans[..i + 1], MaxInt(cursor, spans[i].hi))
  {
    var after := SweptRuns(free, block, spans[i], cursor);
    assert forall r, q :: r in after && q in after && r != q ==> Apart(r, q) by {
      assert forall r, q :: r in free && q in free && r != q ==> Apart(r, q);
    }
    var upto := spans[..i + 1];
    forall p ensures Free(after, block, p) <==> 0 <= p < MaxInt(cursor, spans[i].hi) && !InSpans(upto, p) {
      SweepCell(free, block, spans, i, cursor, p);
    }
    forall p | InSpans(upto, p) ensures p < MaxInt(cursor, spans[i].hi) {
      SweepCell(free, block, spans, i, cursor, p);
    }
  }

  lemma EarlierGapsEndEarlier(free: set<Run>, block: int, spans: seq<Span>, i: nat, cursor: int, p: int)
    requires i < |spans| && Swept(free, block, spans[..i], cursor)
    requires forall j :: 0 <= j < i ==> spans[j].lo <= spans[i].lo
    requires Free(free, block, p)
    ensures p < spans[i].lo
  {
    var r :| r in free && r.Covers(block, p);
    RunIsBounded(free, r);
    assert InSpans(spans[..i], r.End());
    var j :| 0 <= j < |spans[..i]| && spans[..i][j].lo <= r.End() < spans[..i][j].hi;
    assert spans[j].lo <= spans[i].lo;
    if spans[j].lo < r.End() {
      var q := MaxInt(spans[j].lo, p);
      assert r.Covers(block, q);
      assert Free(free, block, q);
      assert InSpans(spans[..i], q);
    }
  }

  /** Exactly the seats of the block outside the spans, as maximal runs. */
  ghost predicate Complements(free: set<Run>, block: int, capacity: int, spans: seq<Span>) {
    && Canonical(free)
    && forall b, p :: Free(free, b, p) <==> b == block && 0 <= p < capacity && !InSpans(spans, p)
  }

  lemma SweepDone(free: set<Run>, block: int, spans: seq<Span>, capacity: int)
    requires Swept(free, block, spans, capacity)
    ensures Complements(free, block, capacity, spans)
  {
  }

  lemma SweepEnd(free: set<Run>, block: int, spans: seq<Span>, cursor: int, capacity: int)
    requires Swept(free, block, spans, cursor) && 0 <= cursor < capacity
    ensures Complements(free + {Run(block, cursor, capacity - cursor)}, block, capacity, spans)
  {
    var last := Run(block, cursor, capacity - cursor);
    var after := free + {last};
    assert forall r, q :: r in after && q in after && r != q ==> Apart(r, q) by {
      assert forall r, q :: r in free && q in free && r != q ==> Apart(r, q);
    }
    forall b, p ensures Free(after, b, p) <==> b == block && 0 <= p < capacity && !InSpans(spans, p) {
      FreeWithOneMore(free, last, b, p);
      assert Free(free, b, p) ==> b == block;
    }
  }

  /** The cursor loop of a rebuild, for one block. */
  method FreeRunsOfBlock(block: int, capacity: int, spans: seq<Span>) returns (runs: seq<Run>)
    requires capacity >= 1 && SpansFit(spans, capacity) && Sorting.SortedBy(spans, SpanBefore)
    ensures Distinct(runs) && Complements(RunSet(runs), block, capacity, spans)
  {
    runs := [];
    var cursor := 0;
    ghost var free: set<Run> := {};
    for i := 0 to |spans|
      invariant free == RunSet(runs) && Distinct(runs)
      invariant 0 <= cursor <= capacity && Swept(free, block, spans[..i], cursor)
    {
      var lo, hi := spans[i].lo, spans[i].hi;
      SweepStep(free, block, spans, i, cursor);
      free := SweptRuns(free, block, spans[i], cursor);
      if lo > cursor {
        AppendDistinct(runs, Run(block, cursor, lo - cursor));
        runs := runs + [Run(block, cursor, lo - cursor)];
      }
      cursor := MaxInt(cursor, hi);
    }
    assert spans[..|spans|] == spans;
    if cursor < capacity {
      SweepEnd(free, block, spans, cursor, capacity);
      AppendDistinct(runs, Run(block, cursor, capacity - cursor));
      runs := runs + [Run(block, cursor, capacity - cursor)];
    } else {
      SweepDone(free, block, spans, capacity);
    }
  }

  // ------------------------------------------------------------------ one zone

  predicate BlocksAreDistinct(blocks: seq<SeatBlock>) {
    && (forall i :: 0 <= i < |blocks| ==> blocks[i].geom.capacity >= 1)
    && (forall i, j :: 0 <= i < j < |blocks| ==> blocks[i].id != blocks[j].id)
  }

  function Geometry(blocks: seq<SeatBlock>): map<int, BlockGeom> {
    if blocks == [] then map[]
    else Geometry(blocks[..|blocks| - 1])[blocks[|blocks| - 1].id := blocks[|blocks| - 1].geom]
  }

  /** What the database guarantees of the holds of these blocks. */
  predicate HoldsFit(blocks: seq<SeatBlock>, held: seq<Hold>) {
    forall h, i :: h in held && 0 <= i < |blocks| && blocks[i].id == h.block
                   ==> h.length >= 1 && h.start >= 0 && h.End() <= blocks[i].geom.capacity
  }

  /** The stretches of one block that are held, in increasing order. */
  function SpansOf(held: seq<Hold>, block: int): seq<Span> {
    if held == [] then []
    else
      (if held[0].block == block then [Span(held[0].start, held[0].End())] else []) + SpansOf(held[1..], block)
  }

  lemma {:induction false} SpanIsAHold(held: seq<Hold>, block: int, s: Span)
    ensures s in SpansOf(held, block) <==> exists h :: h in held && h.block == block && s == Span(h.start, h.End())
  {
    if held != [] {
      SpanIsAHold(held[1..], block, s);
      assert held == [held[0]] + held[1..];
    }
  }

  method SortedSpans(held: seq<Hold>, block: int, capacity: int) returns (spans: seq<Span>)
    requires forall h :: h in held && h.block == block ==> h.length >= 1 && h.start >= 0 && h.End() <= capacity
    ensures SpansFit(spans, capacity) && Sorting.SortedBy(spans, SpanBefore)
    ensures forall p :: InSpans(spans, p) <==> HeldBy(HoldSet(held), block, p)
  {
    var loose := SpansOf(held, block);
    spans := Sorting.Sort(loose, SpanBefore);
    Sorting.SortSorts(loose, SpanBefore);
    Sorting.SortKeepsElements(loose, SpanBefore);
    forall i | 0 <= i < |spans| ensures 0 <= spans[i].lo < spans[i].hi <= capacity {
      assert spans[i] in spans;
      SpanIsAHold(held, block, spans[i]);
    }
    forall p ensures InSpans(spans, p) <==> HeldBy(HoldSet(held), block, p) {
      if InSpans(spans, p) {
        var i :| 0 <= i < |spans| && spans[i].lo <= p < spans[i].hi;
        assert spans[i] in spans;
        SpanIsAHold(held, block, spans[i]);
        var h :| h in held && h.block == block && spans[i] == Span(h.start, h.End());
        assert h.Covers(block, p);
      }
      if HeldBy(HoldSet(held), block, p) {
        var h :| h in held && h.Covers(block, p);
        SpanIsAHold(held, block, Span(h.start, h.End()));
        var i :| 0 <= i < |spans| && spans[i] == Span(h.start, h.End());
      }
    }
  }

  /** Free runs of the blocks treated so far. */
  ghost predicate Rebuilt(free: set<Run>, geom: map<int, BlockGeom>, held: set<Hold>) {
    IsComplement(free, geom, held) && forall r :: r in free ==> r.block in geom
  }

  lemma AddBlock(free: set<Run>, more: set<Run>, geom: map<int, BlockGeom>, held: set<Hold>, block: int, g: BlockGeom)
    requires Rebuilt(free, geom, held) && block !in geom && Canonical(more)
    requires forall b, p :: Free(more, b, p) <==> b == block && 0 <= p < g.capacity && !HeldBy(held, block, p)
    ensures Rebuilt(free + more, geom[block := g], held) && free !! more
  {
    forall r | r in more ensures r.block == block {
      assert r.Covers(r.block, r.start);
      assert Free(more, r.block, r.start);
    }
    var both := free + more;
    forall b, p ensures Free(both, b, p) <==> Free(free, b, p) || Free(more, b, p) {
      if Free(free, b, p) {
        var r :| r in free && r.Covers(b, p);
        assert r in both;
      }
      if Free(more, b, p) {
        var r :| r in more && r.Covers(b, p);
        assert r in both;
      }
    }
    forall r, q | r in both && q in both && r != q ensures Apart(r, q) {
      if r in free && q in free {
        assert Apart(r, q);
      } else if r in more && q in more {
        assert Apart(r, q);
      }
    }
  }

  lemma {:induction false} GeometryIs(blocks: seq<SeatBlock>, b: int)
    ensures b in Geometry(blocks) <==> exists i :: 0 <= i < |blocks| && blocks[i].id == b
    ensures BlocksAreDistinct(blocks) ==> forall i :: 0 <= i < |blocks| && blocks[i].id == b ==> Geometry(blocks)[b] == blocks[i].geom
  {
    if blocks != [] {
      var n := |blocks| - 1;
      GeometryIs(blocks[..n], b);
      if b in Geometry(blocks[..n]) {
        var i :| 0 <= i < |blocks[..n]| && blocks[..n][i].id == b;
        assert blocks[i].id == b;
      }
      if i :| 0 <= i < |blocks| && blocks[i].id == b {
        assert i < n ==> blocks[..n][i].id == b;
      }
      if BlocksAreDistinct(blocks) {
        forall i | 0 <= i < |blocks| && blocks[i].id == b ensures Geometry(blocks)[b] == blocks[i].geom {
          assert i < n ==> blocks[..n][i] == blocks[i];
        }
      }
    }
  }

  /** The list of free runs a rebuild writes. */
  method FreeRunsOfZone(blocks: seq<SeatBlock>, held: seq<Hold>) returns (runs: seq<Run>)
    requires BlocksAreDistinct(blocks) && HoldsFit(blocks, held)
    ensures IsComplement(RunSet(runs), Geometry(blocks), HoldSet(held))
    ensures Distinct(runs)
  {
    runs := [];
    ghost var free: set<Run> := {};
    ghost var heldSet := HoldSet(held);
    for i := 0 to |blocks|
      invariant free == RunSet(runs) && Rebuilt(free, Geometry(blocks[..i]), heldSet)
      invariant Distinct(runs)
    {
      var block := blocks[i];
      var spans := SortedSpans(held, block.id, block.geom.capacity);
      var found := FreeRunsOfBlock(block.id, block.geom.capacity, spans);
      GeometryIs(blocks[..i], block.id);
      assert blocks[..i + 1][..|blocks[..i + 1]| - 1] == blocks[..i];
      AddBlock(free, RunSet(found), Geometry(blocks[..i]), heldSet, block.id, block.geom);
      free := free + RunSet(found);
      assert forall j :: 0 <= j < |runs| ==> runs[j] in RunSet(runs);
      assert forall j :: 0 <= j < |found| ==> found[j] in RunSet(found);
      runs := runs + found;
    }
    assert blocks[..|blocks|] == blocks;
  }

  /** HSET of all runs into empty hashes. */
  method WriteHashes(list: seq<Run>) returns (runs: map<Cell, int>, ends: map<Cell, int>)
    requires Canonical(RunSet(list)) && Distinct(list)
    ensures HashOf(runs, RunSet(list)) && IndexOf(ends, RunSet(list))
  {
    runs, ends := map[], map[];
    ghost var done: set<Run> := {};
    for i := 0 to |list|
      invariant done == RunSet(list[..i]) && HashOf(runs, done) && IndexOf(ends, done)
    {
      var r := list[i];
      assert list[i] in RunSet(list) && done <= RunSet(list);
      assert list[..i + 1] == list[..i] + [r];
      forall q | q in done && q.block == r.block ensures q.start != r.start && q.End() != r.End() {
        assert q != r && Apart(q, r);
      }
      HashPut(runs, ends, done, r);
      runs := runs[Cell(r.block, r.start) := r.length];
      ends := ends[Cell(r.block, r.End()) := r.start];
      done := done + {r};
    }
    assert list[..|list|] == list;
  }

  method TotalLength(list: seq<Run>) returns (total: int)
    requires Distinct(list)
    ensures total == Seats(RunSet(list))
  {
    total := 0;
    ghost var done: set<Run> := {};
    for i := 0 to |list|
      invariant done == RunSet(list[..i]) && total == Seats(done)
    {
      assert list[..i + 1] == list[..i] + [list[i]];
      SeatsAdd(done, list[i]);
      total := total + list[i].length;
      done := done + {list[i]};
    }
    assert list[..|list|] == list;
  }

  /** The MULTI/EXEC at the end of a rebuild: whatever the keys hold by now is replaced. */
  method WriteZone(store: ZoneStore, blocks: seq<SeatBlock>, runs: seq<Run>) returns (remaining: int)
    requires Canonical(RunSet(runs)) && Distinct(runs)
    modifies store
    ensures store.Valid() && store.free == RunSet(runs) && remaining == store.zoneAvailable
    ensures store.Abs() == old(store.Abs()).(free := RunSet(runs), geom := Geometry(blocks))
    ensures store.misses == old(store.misses) && store.relaxed == old(store.relaxed)
  {
    remaining := TotalLength(runs);
    store.runs, store.ends := WriteHashes(runs);
    store.free := RunSet(runs);
    store.geom := Geometry(blocks);
    store.zoneAvailable := remaining;
  }

  /**
   * `rebuild_zone_runs`. `None` is the refusal while stream entries are waiting. Other clients run `early` between
   * the backlog check and the read of `held`, and `late` between that read and the write; the check sees neither,
   * and the write replaces the runs that `late` has left. A store that is damaged can only be rebuilt undisturbed.
   */
  method RebuildZoneRuns(
      store: ZoneStore, blocks: seq<SeatBlock>, held: seq<Hold>, force: bool, early: seq<Other>, late: seq<Other>)
    returns (remaining: Option<int>)
    requires BlocksAreDistinct(blocks) && HoldsFit(blocks, held)
    requires early + late != [] ==>
      store.Valid() && Sound(store.Abs()) && Polite(store.geom, early) && Polite(store.geom, late)
    modifies store
    ensures remaining.None? <==> !force && old(store.stream) != map[]
    ensures remaining.None? ==> unchanged(store)
    ensures blocks == [] && remaining.Some? ==> remaining.value == 0
    ensures remaining.Some? && blocks != [] ==>
              && store.Valid()
              && IsComplement(store.free, Geometry(blocks), HoldSet(held))
              && store.Abs() == AfterCommands(old(store.Abs()), Scripts(early) + Scripts(late)).(free := store.free, geom := Geometry(blocks))
              && remaining.value == store.zoneAvailable
  {
    if !force && store.stream != map[] {
      return None;
    }
    ghost var start := store.Abs();
    if early != [] {
      RunOthers(store, early);
    }
    if blocks == [] {
      return Some(0);
    }
    var runs := FreeRunsOfZone(blocks, held);
    if late != [] {
      RunOthers(store, late);
    }
    CommandsConcat(start, Scripts(early), Scripts(late));
    var total := WriteZone(store, blocks, runs);
    return Some(total);
  }
}
