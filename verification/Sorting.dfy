/** Sorting by a ranking, standing for Python's `sorted`. */
module Sorting {

  predicate SortedBy<T>(s: seq<T>, leq: (T, T) -> bool) {
    forall i, j :: 0 <= i < j < |s| ==> leq(s[i], s[j])
  }

  ghost predicate Ranking<T(!new)>(leq: (T, T) -> bool) {
    && (forall a, b :: leq(a, b) || leq(b, a))
    && (forall a, b, c :: leq(a, b) && leq(b, c) ==> leq(a, c))
  }

  function Insert<T>(x: T, s: seq<T>, leq: (T, T) -> bool): seq<T> {
    if s == [] then [x]
    else if leq(x, s[0]) then [x] + s
    else [s[0]] + Insert(x, s[1..], leq)
  }

  function Sort<T>(s: seq<T>, leq: (T, T) -> bool): seq<T> {
    if s == [] then [] else Insert(s[0], Sort(s[1..], leq), leq)
  }

  lemma {:induction false} InsertPermutes<T>(x: T, s: seq<T>, leq: (T, T) -> bool)
    ensures multiset(Insert(x, s, leq)) == multiset(s) + multiset{x}
  {
    if s != [] {
      assert s == [s[0]] + s[1..];
      InsertPermutes(x, s[1..], leq);
    }
  }

  lemma {:induction false} SortPermutes<T>(s: seq<T>, leq: (T, T) -> bool)
    ensures multiset(Sort(s, leq)) == multiset(s)
  {
    if s != [] {
      assert s == [s[0]] + s[1..];
      SortPermutes(s[1..], leq);
      InsertPermutes(s[0], Sort(s[1..], leq), leq);
    }
  }

  lemma SortKeepsElements<T>(s: seq<T>, leq: (T, T) -> bool)
    ensures |Sort(s, leq)| == |s|
    ensures forall x :: x in Sort(s, leq) <==> x in s
  {
    SortPermutes(s, leq);
    assert |multiset(Sort(s, leq))| == |multiset(s)|;
    forall x ensures x in Sort(s, leq) <==> x in s {
      assert x in multiset(Sort(s, leq)) <==> x in multiset(s);
    }
  }

  lemma {:induction false} InsertSorts<T(!new)>(x: T, s: seq<T>, leq: (T, T) -> bool)
    requires Ranking(leq) && SortedBy(s, leq)
    ensures SortedBy(Insert(x, s, leq), leq)
  {
    if s != [] && !leq(x, s[0]) {
      InsertSorts(x, s[1..], leq);
      InsertPermutes(x, s[1..], leq);
      var rest := Insert(x, s[1..], leq);
      forall y | y in rest ensures leq(s[0], y) {
        assert y in multiset(rest);
      }
    }
  }

  lemma {:induction false} SortSorts<T(!new)>(s: seq<T>, leq: (T, T) -> bool)
    requires Ranking(leq)
    ensures SortedBy(Sort(s, leq), leq)
  {
    if s != [] {
      SortSorts(s[1..], leq);
      InsertSorts(s[0], Sort(s[1..], leq), leq);
    }
  }

  /** A ranking without ties leaves one way to sort. */
  lemma {:induction false} SortedIsUnique<T(!new)>(s: seq<T>, t: seq<T>, leq: (T, T) -> bool)
    requires SortedBy(s, leq) && SortedBy(t, leq) && multiset(s) == multiset(t)
    requires forall a, b :: a in s && b in s && leq(a, b) && leq(b, a) ==> a == b
    ensures s == t
  {
    assert |multiset(s)| == |multiset(t)|;
    if s != [] {
      assert s[0] in multiset(t);
      assert t[0] in multiset(s);
      assert s[0] == t[0];
      assert s == [s[0]] + s[1..];
      assert t == [t[0]] + t[1..];
      assert multiset(s[1..]) == multiset(s) - multiset{s[0]};
      SortedIsUnique(s[1..], t[1..], leq);
    }
  }

  /** The head of a sorted list ranks no later than every element. */
  lemma HeadRanksFirst<T(!new)>(s: seq<T>, leq: (T, T) -> bool)
    requires Ranking(leq) && s != []
    ensures Sort(s, leq) != [] && Sort(s, leq)[0] in s
    ensures forall x :: x in s ==> leq(Sort(s, leq)[0], x)
  {
    SortKeepsElements(s, leq);
    SortSorts(s, leq);
    var sorted := Sort(s, leq);
    assert sorted[0] in sorted;
    forall x | x in s ensures leq(sorted[0], x) {
      assert x in sorted;
    }
  }

  // ------------------------------------------------------------------ gathering lists

  function FlatMap<S, T>(s: seq<S>, f: S -> seq<T>): seq<T> {
    if s == [] then [] else f(s[0]) + FlatMap(s[1..], f)
  }

  lemma {:induction false} FlatMapConcat<S, T>(a: seq<S>, b: seq<S>, f: S -> seq<T>)
    ensures FlatMap(a + b, f) == FlatMap(a, f) + FlatMap(b, f)
  {
    if a == [] {
      assert a + b == b;
    } else {
      FlatMapConcat(a[1..], b, f);
      assert (a + b)[1..] == a[1..] + b;
    }
  }

  lemma FlatMapOne<S, T>(x: S, f: S -> seq<T>)
    ensures FlatMap([x], f) == f(x)
  {
    assert [x][1..] == [];
  }

  lemma {:induction false} InFlatMap<S, T>(s: seq<S>, f: S -> seq<T>, y: T)
    ensures y in FlatMap(s, f) <==> exists i :: 0 <= i < |s| && y in f(s[i])
  {
    if s != [] {
      InFlatMap(s[1..], f, y);
      if i :| 0 <= i < |s[1..]| && y in f(s[1..][i]) {
        assert s[i + 1] == s[1..][i];
      }
      if i :| 0 < i < |s| && y in f(s[i]) {
        assert s[1..][i - 1] == s[i];
      }
    }
  }

  /** Pulling one element to the front only reorders what is gathered. */
  lemma FlatMapPull<S, T>(before: seq<S>, x: S, after: seq<S>, f: S -> seq<T>)
    ensures multiset(FlatMap(before + ([x] + after), f)) == multiset(f(x)) + multiset(FlatMap(before + after, f))
  {
    FlatMapConcat(before, [x] + after, f);
    FlatMapConcat([x], after, f);
    FlatMapOne(x, f);
    FlatMapConcat(before, after, f);
  }

  lemma MatchHead<S>(s: seq<S>, t: seq<S>) returns (i: nat)
    requires multiset(s) == multiset(t) && s != []
    ensures i < |t| && t[i] == s[0] && multiset(s[1..]) == multiset(t[..i] + t[i + 1..])
    ensures t == t[..i] + ([t[i]] + t[i + 1..])
  {
    var x := s[0];
    assert s == [x] + s[1..];
    assert multiset(s[1..]) == multiset(s) - multiset{x};
    assert x in multiset(t);
    i :| 0 <= i < |t| && t[i] == x;
    assert t == t[..i] + ([t[i]] + t[i + 1..]);
    assert multiset(t[..i] + t[i + 1..]) == multiset(t) - multiset{x};
  }

  lemma {:induction false} FlatMapIgnoresOrder<S, T>(s: seq<S>, t: seq<S>, f: S -> seq<T>)
    requires multiset(s) == multiset(t)
    ensures multiset(FlatMap(s, f)) == multiset(FlatMap(t, f))
    decreases |s|
  {
    assert |multiset(s)| == |multiset(t)|;
    if s != [] {
      var i := MatchHead(s, t);
      FlatMapPull([], s[0], s[1..], f);
      assert [] + ([s[0]] + s[1..]) == s && [] + s[1..] == s[1..];
      FlatMapPull(t[..i], t[i], t[i + 1..], f);
      FlatMapIgnoresOrder(s[1..], t[..i] + t[i + 1..], f);
    }
  }

  // ------------------------------------------------------------------ choosing numbers

  /** The numbers of `1..max` that satisfy `p`, in increasing order. */
  function Select(max: nat, p: int -> bool): (ns: seq<int>)
    ensures forall n :: n in ns <==> 1 <= n <= max && p(n)
    ensures forall i, j :: 0 <= i < j < |ns| ==> ns[i] < ns[j]
  {
    if max == 0 then []
    else
      var smaller := Select(max - 1, p);
      assert forall i :: 0 <= i < |smaller| ==> smaller[i] in smaller;
      if p(max) then smaller + [max] else smaller
  }
}
