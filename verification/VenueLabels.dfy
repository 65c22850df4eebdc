/** House numbers of the seats of a row that aisles cut into blocks. */
module VenueLabels {
  import opened Decimal

  predicate IsSuperstitious(n: nat) {
    '4' in Str(n) || n == 13
  }

  /** The digit with `k` digits to its right; zero beyond the first one. */
  function DigitAt(n: nat, k: nat): nat {
    if k == 0 then n % 10 else DigitAt(n / 10, k - 1)
  }

  ghost predicate HasFour(n: nat) {
    exists k: nat :: DigitAt(n, k) == 4
  }

  lemma FourHereOrBefore(n: nat)
    ensures HasFour(n) <==> n % 10 == 4 || (n >= 10 && HasFour(n / 10))
  {
    if n % 10 == 4 {
      assert DigitAt(n, 0) == 4;
    }
    if n >= 10 && HasFour(n / 10) {
      var k: nat :| DigitAt(n / 10, k) == 4;
      assert DigitAt(n, k + 1) == 4;
    }
    if HasFour(n) {
      var k: nat :| DigitAt(n, k) == 4;
      if k > 0 {
        assert DigitAt(n / 10, k - 1) == 4;
        if n < 10 {
          LeadingZeros(n, k);
        }
      }
    }
  }

  lemma {:induction false} FourIsADigit(n: nat)
    ensures '4' in Str(n) <==> HasFour(n)
  {
    DigitsDiffer();
    FourHereOrBefore(n);
    var last := [DIGITS[n % 10]];
    assert '4' in last <==> n % 10 == 4;
    hide HasFour;
    if n < 10 {
      assert Str(n) == last;
    } else {
      FourIsADigit(n / 10);
      assert Str(n) == Str(n / 10) + last;
    }
  }

  lemma DigitsDiffer()
    ensures forall d :: 0 <= d < 10 ==> (DIGITS[d] == '4' <==> d == 4)
  {
    assert DIGITS == ['0', '1', '2', '3', '4', '5', '6', '7', '8', '9'];
  }

  lemma {:induction false} LeadingZeros(n: nat, k: nat)
    requires n < 10
    ensures DigitAt(n, k) == if k == 0 then n else 0
    decreases k
  {
    if k > 0 {
      LeadingZeros(0, k - 1);
    }
  }

  /** Thirteen and the numbers with a four among their digits are rejected, and no others. */
  lemma UnluckyNumbers(n: nat)
    ensures IsSuperstitious(n) <==> n == 13 || HasFour(n)
  {
    FourIsADigit(n);
  }

  /** 1, 11, 111, ... */
  function Ones(k: nat): (n: nat)
    ensures n >= k
  {
    if k == 0 then 0 else 10 * Ones(k - 1) + 1
  }

  lemma {:induction false} OnesAreFine(k: nat)
    requires k >= 1
    ensures !IsSuperstitious(Ones(k)) && forall c :: c in Str(Ones(k)) ==> c == '1'
  {
    if k == 1 {
      assert Ones(1) == 1;
    } else {
      OnesAreFine(k - 1);
      assert Ones(k) / 10 == Ones(k - 1) && Ones(k) % 10 == 1;
      assert Str(Ones(k)) == Str(Ones(k - 1)) + ['1'];
    }
  }

  // ------------------------------------------------------------------ numbers a rule lets through

  ghost predicate SomeFrom(skip: nat -> bool, n: nat) {
    exists m :: m >= n && !skip(m)
  }

  /** A rule that never stops letting numbers through. */
  ghost predicate Unbounded(skip: nat -> bool) {
    forall n :: SomeFrom(skip, n)
  }

  /** The default rule is one, because rows of ones are acceptable. */
  lemma SuperstitionIsUnbounded()
    ensures Unbounded(IsSuperstitious)
  {
    forall n: nat ensures SomeFrom(IsSuperstitious, n) {
      OnesAreFine(n + 1);
      assert Ones(n + 1) >= n && !IsSuperstitious(Ones(n + 1));
    }
  }

  /** The first acceptable number from `n` on. */
  ghost function NextFine(skip: nat -> bool, n: nat): (m: nat)
    requires Unbounded(skip)
    ensures m >= n && !skip(m) && forall k :: n <= k < m ==> skip(k)
  {
    assert SomeFrom(skip, n);
    var bound :| bound >= n && !skip(bound);
    NextFineBelow(skip, n, bound)
  }

  ghost function NextFineBelow(skip: nat -> bool, n: nat, bound: nat): (m: nat)
    requires n <= bound && !skip(bound)
    ensures m >= n && !skip(m) && forall k :: n <= k < m ==> skip(k)
    decreases bound - n
  {
    if skip(n) then NextFineBelow(skip, n + 1, bound) else n
  }

  /** The `k`-th acceptable number from one on. */
  ghost function Fine(skip: nat -> bool, k: nat): (n: nat)
    requires Unbounded(skip)
    ensures n >= 1
  {
    if k == 0 then NextFine(skip, 1) else NextFine(skip, Fine(skip, k - 1) + 1)
  }

  lemma NextFineOfFine(skip: nat -> bool, n: nat)
    requires Unbounded(skip) && !skip(n)
    ensures NextFine(skip, n) == n
  {
    hide NextFine, Unbounded;
    assert NextFine(skip, n) >= n;
  }

  lemma NextFineSkips(skip: nat -> bool, n: nat)
    requires Unbounded(skip) && skip(n)
    ensures NextFine(skip, n) == NextFine(skip, n + 1) > n
  {
    hide NextFine, Unbounded;
    var a, b := NextFine(skip, n), NextFine(skip, n + 1);
    assert !skip(a) && !skip(b);
    assert a >= n && b >= n + 1;
  }

  lemma FineIsFine(skip: nat -> bool, k: nat)
    requires Unbounded(skip)
    ensures !skip(Fine(skip, k)) && NextFine(skip, Fine(skip, k)) == Fine(skip, k)
    ensures if k == 0 then Fine(skip, k) == NextFine(skip, 1)
            else Fine(skip, k) == NextFine(skip, Fine(skip, k - 1) + 1) > Fine(skip, k - 1)
  {
    hide NextFine, Unbounded;
    NextFineOfFine(skip, Fine(skip, k));
  }

  /** The acceptable numbers come in order. */
  lemma {:induction false} FineNumbersAscend(skip: nat -> bool, j: nat, k: nat)
    requires Unbounded(skip) && j < k
    ensures Fine(skip, j) < Fine(skip, k)
  {
    hide NextFine, Fine, Unbounded;
    FineIsFine(skip, k);
    if j < k - 1 {
      FineNumbersAscend(skip, j, k - 1);
    }
  }

  /** And none is left out. */
  lemma {:induction false} NoFineNumberIsSkipped(skip: nat -> bool, n: nat) returns (k: nat)
    requires Unbounded(skip) && n >= 1 && !skip(n)
    ensures Fine(skip, k) == n
  {
    hide NextFine, Unbounded;
    k := 0;
    while Fine(skip, k) < n
      invariant Fine(skip, k) <= n
      decreases n - Fine(skip, k)
    {
      FineIsFine(skip, k + 1);
      assert NextFine(skip, Fine(skip, k) + 1) <= n;
      k := k + 1;
    }
  }

  // ------------------------------------------------------------------ rows

  /** Seats before block `i`. */
  function Offset(blocks: seq<nat>, i: nat): nat
    requires i <= |blocks|
  {
    if i == 0 then 0 else Offset(blocks, i - 1) + blocks[i - 1]
  }

  /** The label lists have the requested sizes. */
  predicate Sized(blocks: seq<nat>, out: seq<seq<string>>) {
    |out| == |blocks| && forall i :: 0 <= i < |blocks| ==> |out[i]| == blocks[i]
  }

  /** `skipping_labels(skip)`: the acceptable numbers in order, in blocks of exactly the requested sizes. */
  method SkippingLabels(skip: nat -> bool, blocks: seq<nat>) returns (out: seq<seq<string>>)
    requires Unbounded(skip)
    ensures Sized(blocks, out)
    ensures forall i, j :: 0 <= i < |out| && 0 <= j < |out[i]| ==> out[i][j] == Str(Fine(skip, Offset(blocks, i) + j))
  {
    hide Unbounded, NextFine, Fine, Str;
    FineIsFine(skip, 0);
    out := [];
    var number := 1;
    ghost var used := 0;
    for i := 0 to |blocks|
      invariant |out| == i && used == Offset(blocks, i) && number >= 1
      invariant NextFine(skip, number) == Fine(skip, used)
      invariant forall k :: 0 <= k < i ==> |out[k]| == blocks[k]
      invariant forall k, j :: 0 <= k < i && 0 <= j < |out[k]| ==> out[k][j] == Str(Fine(skip, Offset(blocks, k) + j))
    {
      var labels: seq<string> := [];
      while |labels| < blocks[i]
        invariant |labels| <= blocks[i] && used == Offset(blocks, i) + |labels| && number >= 1
        invariant NextFine(skip, number) == Fine(skip, used)
        invariant forall j :: 0 <= j < |labels| ==> labels[j] == Str(Fine(skip, Offset(blocks, i) + j))
      {
        while skip(number)
          invariant 1 <= number <= Fine(skip, used) && NextFine(skip, number) == Fine(skip, used)
          decreases Fine(skip, used) - number
        {
          NextFineSkips(skip, number);
          number := number + 1;
        }
        NextFineOfFine(skip, number);
        FineIsFine(skip, used + 1);
        labels := labels + [Str(number)];
        number := number + 1;
        used := used + 1;
      }
      out := out + [labels];
    }
  }

  /** The numbers of a skipping row strictly increase along the whole row, and none is one the rule rejects. */
  lemma SkippingLabelsAscend(skip: nat -> bool, blocks: seq<nat>, i: nat, j: nat, k: nat, l: nat)
    requires Unbounded(skip)
    requires i < |blocks| && j < blocks[i] && k < |blocks| && l < blocks[k]
    requires i < k || (i == k && j < l)
    ensures var a, b := Str(Fine(skip, Offset(blocks, i) + j)), Str(Fine(skip, Offset(blocks, k) + l));
      Value(a) < Value(b) && !skip(Value(a)) && !skip(Value(b))
  {
    hide Str, Unbounded, Fine, Value;
    OffsetsAscend(blocks, i, k);
    FineNumbersAscend(skip, Offset(blocks, i) + j, Offset(blocks, k) + l);
    FineIsFine(skip, Offset(blocks, i) + j);
    FineIsFine(skip, Offset(blocks, k) + l);
    ValueOfStr(Fine(skip, Offset(blocks, i) + j));
    ValueOfStr(Fine(skip, Offset(blocks, k) + l));
  }

  /** Under the default rule no label has a four in it, and none is 13. */
  lemma DefaultLabelsAreLucky(k: nat)
    ensures Unbounded(IsSuperstitious)
    ensures '4' !in Str(Fine(IsSuperstitious, k)) && Str(Fine(IsSuperstitious, k)) != "13"
  {
    SuperstitionIsUnbounded();
    FineIsFine(IsSuperstitious, k);
    ThirteenPrinted();
    hide Str, Fine, Unbounded;
    if Str(Fine(IsSuperstitious, k)) == Str(13) {
      StrIsInjective(Fine(IsSuperstitious, k), 13);
    }
  }

  lemma ThirteenPrinted()
    ensures Str(13) == "13"
  {
    assert Str(13) == Str(1) + ['3'];
  }

  lemma {:induction false} OffsetsAscend(blocks: seq<nat>, i: nat, k: nat)
    requires i <= k <= |blocks|
    ensures Offset(blocks, i) <= Offset(blocks, k) && (i < k ==> Offset(blocks, i) + blocks[i] <= Offset(blocks, k))
  {
    if i < k {
      OffsetsAscend(blocks, i, k - 1);
    }
  }

  /** Odd numbers to the left of the middle, even ones to the right, both growing outwards. */
  function OddEven(total: nat, pos: nat): (n: nat)
    requires pos < total
    ensures n >= 1
  {
    var mid := total / 2;
    if pos < mid then 2 * (mid - pos) - 1 else 2 * (pos - mid) + 2
  }

  /** Odd numbers left of the middle and even ones right of it, one and two at the middle, growing by two outwards. */
  lemma OddLeftEvenRight(total: nat, pos: nat)
    requires pos < total
    ensures OddEven(total, pos) % 2 == 1 <==> pos < total / 2
    ensures pos + 1 == total / 2 ==> OddEven(total, pos) == 1
    ensures pos == total / 2 ==> OddEven(total, pos) == 2
    ensures pos + 1 < total / 2 ==> OddEven(total, pos) == OddEven(total, pos + 1) + 2
    ensures total / 2 <= pos && pos + 1 < total ==> OddEven(total, pos + 1) == OddEven(total, pos) + 2
  {
    var mid := total / 2;
    assert pos < mid ==> OddEven(total, pos) == 2 * (mid - pos - 1) + 1;
    assert pos >= mid ==> OddEven(total, pos) == 2 * (pos - mid + 1);
  }

  lemma OddEvenIsInjective(total: nat, p: nat, q: nat)
    requires p < total && q < total && Str(OddEven(total, p)) == Str(OddEven(total, q))
    ensures p == q
  {
    StrIsInjective(OddEven(total, p), OddEven(total, q));
  }

  /** The numbers of a whole row from left to right. */
  function OddEvenRow(total: nat): seq<string> {
    seq(total, pos requires 0 <= pos < total => Str(OddEven(total, pos)))
  }

  /** `odd_even_labels`: the row's numbers, cut into the blocks without loss or repetition. */
  method OddEvenLabels(blocks: seq<nat>) returns (out: seq<seq<string>>)
    ensures Sized(blocks, out)
    ensures Flat(out) == OddEvenRow(Offset(blocks, |blocks|))
  {
    var total := 0;
    for i := 0 to |blocks|
      invariant total == Offset(blocks, i)
    {
      total := total + blocks[i];
    }
    var numbers := OddEvenRow(total);
    hide OddEvenRow;
    out := [];
    var start := 0;
    for i := 0 to |blocks|
      invariant |out| == i && start == Offset(blocks, i) <= total
      invariant forall k :: 0 <= k < i ==> |out[k]| == blocks[k]
      invariant Flat(out) == numbers[..start]
    {
      OffsetsAscend(blocks, i + 1, |blocks|);
      var end := start + blocks[i];
      FlatOneMore(out, numbers[start..end]);
      assert numbers[..start] + numbers[start..end] == numbers[..end];
      out := out + [numbers[start..end]];
      start := end;
    }
    assert numbers[..start] == numbers;
  }

  function Flat(out: seq<seq<string>>): seq<string> {
    if out == [] then [] else Flat(out[..|out| - 1]) + out[|out| - 1]
  }

  lemma FlatOneMore(out: seq<seq<string>>, block: seq<string>)
    ensures Flat(out + [block]) == Flat(out) + block
  {
    assert (out + [block])[..|out|] == out;
  }
}
