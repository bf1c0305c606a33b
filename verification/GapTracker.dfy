/** The sequence tracker of the packet server: the next expected number and the list of numbers
    that were skipped over, kept in an array that stops growing when it is full. */
module GapTracking {

  /** What the tracker would hold without the limit on the array.  `accepted` are the numbers
      that moved the expected number, `skips` the passes of the inner loop. */
  datatype Track = Track(expected: int, gaps: seq<int>, accepted: seq<int>, skips: nat)

  const START := Track(1, [], [], 0)

  function Range(lo: int, hi: int): seq<int>
    decreases hi - lo
  {
    if lo >= hi then [] else Range(lo, hi - 1) + [hi - 1]
  }

  function Observe(t: Track, n: int): Track {
    if n < t.expected then t
    else Track(n + 1, t.gaps + Range(t.expected, n), t.accepted + [n], t.skips + (n - t.expected))
  }

  function Feed(numbers: seq<int>): Track {
    if numbers == [] then START
    else Observe(Feed(numbers[..|numbers| - 1]), numbers[|numbers| - 1])
  }

  lemma FeedSnoc(numbers: seq<int>, n: int)
    ensures Feed(numbers + [n]) == Observe(Feed(numbers), n)
  {
  }

  lemma {:induction false} RangeContents(lo: int, hi: int)
    ensures |Range(lo, hi)| == if lo < hi then hi - lo else 0
    ensures forall k :: 0 <= k < |Range(lo, hi)| ==> Range(lo, hi)[k] == lo + k
    decreases hi - lo
  {
    if lo < hi {
      RangeContents(lo, hi - 1);
    }
  }

  ghost predicate Increasing(s: seq<int>) {
    forall i, j :: 0 <= i < j < |s| ==> s[i] < s[j]
  }

  ghost predicate Within(s: seq<int>, lo: int, hi: int) {
    forall i :: 0 <= i < |s| ==> lo <= s[i] < hi
  }

  // ---------------------------------------------------------------- any sequence of numbers

  /** The expected number is one more than the largest of 0 and everything seen. */
  lemma {:induction false} ExpectedIsMaxPlusOne(numbers: seq<int>)
    ensures Feed(numbers).expected >= 1
    ensures forall n :: n in numbers ==> n < Feed(numbers).expected
    ensures Feed(numbers).expected == 1 || Feed(numbers).expected - 1 in numbers
  {
    if numbers != [] {
      ExpectedIsMaxPlusOne(numbers[..|numbers| - 1]);
      assert numbers == numbers[..|numbers| - 1] + [numbers[|numbers| - 1]];
    }
  }

  /** Gaps and accepted numbers are increasing lists that split 1..expected-1 between them,
      and the inner loop ran once for every gap. */
  ghost predicate Partitioned(t: Track) {
    && t.expected >= 1
    && Increasing(t.gaps) && Within(t.gaps, 1, t.expected)
    && Increasing(t.accepted) && Within(t.accepted, 1, t.expected)
    && (forall k :: 1 <= k < t.expected ==> (k in t.gaps <==> k !in t.accepted))
    && |t.gaps| + |t.accepted| == t.expected - 1
    && t.skips == |t.gaps|
  }

  lemma ObserveKeepsPartition(t: Track, n: int)
    requires Partitioned(t)
    ensures Partitioned(Observe(t, n))
  {
    if n >= t.expected {
      var skipped := Range(t.expected, n);
      RangeContents(t.expected, n);
      var u := Observe(t, n);
      forall k | 1 <= k < n + 1 ensures k in u.gaps <==> k !in u.accepted {
        assert k in u.gaps <==> k in t.gaps || k in skipped;
        assert k in u.accepted <==> k in t.accepted || k == n;
        if t.expected <= k < n {
          assert skipped[k - t.expected] == k;
        }
      }
    }
  }

  lemma {:induction false} GapsAndAcceptedPartition(numbers: seq<int>)
    ensures Partitioned(Feed(numbers))
    ensures Feed(numbers).skips <= Feed(numbers).expected - 1
  {
    if numbers != [] {
      GapsAndAcceptedPartition(numbers[..|numbers| - 1]);
      ObserveKeepsPartition(Feed(numbers[..|numbers| - 1]), numbers[|numbers| - 1]);
    }
  }

  /** A positive number is a gap exactly when a larger one arrives before it does. */
  ghost predicate Overtaken(numbers: seq<int>, k: int) {
    exists i :: 0 <= i < |numbers| && numbers[i] > k && k !in numbers[..i]
  }

  lemma OvertakenSnoc(numbers: seq<int>, n: int, k: int)
    ensures Overtaken(numbers + [n], k) <==> Overtaken(numbers, k) || (n > k && k !in numbers)
  {
    var more := numbers + [n];
    forall i | 0 <= i < |numbers| ensures more[i] == numbers[i] && more[..i] == numbers[..i] {}
    assert more[..|numbers|] == numbers;
    if Overtaken(numbers, k) {
      var i :| 0 <= i < |numbers| && numbers[i] > k && k !in numbers[..i];
      assert more[i] > k && k !in more[..i];
    }
    if n > k && k !in numbers {
      assert more[|numbers|] > k && k !in more[..|numbers|];
    }
  }

  lemma {:induction false} GapsAreTheOvertaken(numbers: seq<int>, k: int)
    ensures k in Feed(numbers).gaps <==> k >= 1 && Overtaken(numbers, k)
  {
    if numbers != [] {
      var init := numbers[..|numbers| - 1];
      var n := numbers[|numbers| - 1];
      var t := Feed(init);
      assert numbers == init + [n];
      GapsAreTheOvertaken(init, k);
      OvertakenSnoc(init, n, k);
      ExpectedIsMaxPlusOne(init);
      GapsAndAcceptedPartition(init);
      RangeContents(t.expected, n);
      if t.expected <= k < n {
        assert Range(t.expected, n)[k - t.expected] == k;
      }
      if k < t.expected && k !in init {
        AcceptedWereSeen(init);
      }
    }
  }

  lemma {:induction false} AcceptedWereSeen(numbers: seq<int>)
    ensures forall k :: k in Feed(numbers).accepted ==> k in numbers
  {
    if numbers != [] {
      AcceptedWereSeen(numbers[..|numbers| - 1]);
    }
  }

  // ---------------------------------------------------------------- permutations

  ghost predicate IsPermutation(numbers: seq<int>, n: nat) {
    && |numbers| == n
    && (forall i :: 0 <= i < n ==> 1 <= numbers[i] <= n)
    && (forall i, j :: 0 <= i < j < n ==> numbers[i] != numbers[j])
  }

  /** k arrives, after some larger number. */
  ghost predicate LateArrival(numbers: seq<int>, k: int) {
    exists i, j :: 0 <= i < j < |numbers| && numbers[j] == k && numbers[i] > k
  }

  /** Positions that hold more than everything before them. */
  ghost function LeftToRightMaxima(numbers: seq<int>): set<nat> {
    set j: nat | j < |numbers| && forall i :: 0 <= i < j ==> numbers[i] < numbers[j]
  }

  lemma {:induction false} SubsetOfRangeCardinality(s: set<int>, n: nat)
    requires forall x :: x in s ==> 1 <= x <= n
    ensures |s| <= n
    ensures |s| == n ==> forall x :: 1 <= x <= n ==> x in s
  {
    if n == 0 {
      assert forall x: int :: x !in s;
      assert s == {};
    } else {
      SubsetOfRangeCardinality(s - {n}, n - 1);
      if n !in s {
        assert s - {n} == s;
      }
    }
  }

  lemma {:induction false} DistinctElements(numbers: seq<int>)
    requires forall i, j :: 0 <= i < j < |numbers| ==> numbers[i] != numbers[j]
    ensures |set x | x in numbers| == |numbers|
  {
    var all := set x | x in numbers;
    if numbers == [] {
      assert all == {};
    } else {
      var n := |numbers| - 1;
      var init := numbers[..n];
      DistinctElements(init);
      assert numbers == init + [numbers[n]];
      assert numbers[n] !in init;
      assert all == (set x | x in init) + {numbers[n]};
    }
  }

  lemma PermutationCovers(numbers: seq<int>, n: nat)
    requires IsPermutation(numbers, n)
    ensures forall k :: 1 <= k <= n ==> k in numbers
    ensures Feed(numbers).expected == n + 1
  {
    var all := set x | x in numbers;
    DistinctElements(numbers);
    SubsetOfRangeCardinality(all, n);
    ExpectedIsMaxPlusOne(numbers);
    forall k | 1 <= k <= n ensures k in numbers {
      assert k in all;
    }
    if n > 0 {
      assert n in numbers;
    }
  }

  lemma MaximaSnoc(numbers: seq<int>, n: nat)
    requires |numbers| == n + 1
    ensures LeftToRightMaxima(numbers) ==
            LeftToRightMaxima(numbers[..n]) + if n in LeftToRightMaxima(numbers) then {n} else {}
    ensures n !in LeftToRightMaxima(numbers[..n])
  {
    var init := numbers[..n];
    forall j: nat | j < n ensures j in LeftToRightMaxima(numbers) <==> j in LeftToRightMaxima(init) {
      assert forall i :: 0 <= i <= j ==> numbers[i] == init[i];
    }
  }

  lemma {:induction false} AcceptedCountsMaxima(numbers: seq<int>)
    requires forall i :: 0 <= i < |numbers| ==> numbers[i] >= 1
    ensures |LeftToRightMaxima(numbers)| == |Feed(numbers).accepted|
  {
    if numbers == [] {
      assert LeftToRightMaxima(numbers) == {};
    } else {
      var n := |numbers| - 1;
      AcceptedCountsMaxima(numbers[..n]);
      MaximumOfPrefix(numbers, n);
      MaximaSnoc(numbers, n);
    }
  }

  lemma MaximumOfPrefix(numbers: seq<int>, n: nat)
    requires n < |numbers| && numbers[n] >= 1
    ensures n in LeftToRightMaxima(numbers) <==> numbers[n] >= Feed(numbers[..n]).expected
  {
    var init := numbers[..n];
    ExpectedIsMaxPlusOne(init);
    if numbers[n] < Feed(init).expected && Feed(init).expected > 1 {
      var i :| 0 <= i < n && init[i] == Feed(init).expected - 1;
      assert numbers[i] >= numbers[n];
    }
    if numbers[n] >= Feed(init).expected {
      forall i | 0 <= i < n ensures numbers[i] < numbers[n] {
        assert numbers[i] in init;
      }
    }
  }

  /** On a permutation of 1..n the gap list is, in increasing order, the numbers that arrive
      after a larger one; it is n less the left-to-right maxima long. */
  lemma PermutationGaps(numbers: seq<int>, n: nat)
    requires IsPermutation(numbers, n)
    ensures Increasing(Feed(numbers).gaps)
    ensures forall k :: k in Feed(numbers).gaps <==> LateArrival(numbers, k)
    ensures |Feed(numbers).gaps| == n - |LeftToRightMaxima(numbers)|
  {
    GapsAndAcceptedPartition(numbers);
    PermutationCovers(numbers, n);
    AcceptedCountsMaxima(numbers);
    forall k ensures k in Feed(numbers).gaps <==> LateArrival(numbers, k) {
      GapsAreTheOvertaken(numbers, k);
      if LateArrival(numbers, k) {
        var i, j :| 0 <= i < j < |numbers| && numbers[j] == k && numbers[i] > k;
        assert k !in numbers[..i];
        assert Overtaken(numbers, k);
      }
      if k >= 1 && Overtaken(numbers, k) {
        var i :| 0 <= i < |numbers| && numbers[i] > k && k !in numbers[..i];
        assert k in numbers;
        var j :| 0 <= j < |numbers| && numbers[j] == k;
        forall m | 0 <= m < i ensures numbers[m] != k {
          assert numbers[..i][m] == numbers[m];
        }
      }
    }
  }

  /** No gap is recorded exactly when the permutation arrives in order. */
  lemma NoGapsIffSorted(numbers: seq<int>, n: nat)
    requires IsPermutation(numbers, n)
    ensures Feed(numbers).gaps == [] <==> Increasing(numbers)
  {
    PermutationGaps(numbers, n);
    if Feed(numbers).gaps == [] {
      forall i, j | 0 <= i < j < n ensures numbers[i] < numbers[j] {
        if numbers[i] > numbers[j] {
          assert LateArrival(numbers, numbers[j]);
        }
      }
    } else {
      assert LateArrival(numbers, Feed(numbers).gaps[0]);
    }
  }

  /** The array of the server. */
  class Tracker {
    var expectedSeq: int
    const outOfOrder: array<int>
    var outOfOrderCount: nat
    ghost var numbers: seq<int>
    /** Passes of the inner loop so far. */
    ghost var passes: nat

    ghost predicate Valid()
      reads this, outOfOrder
    {
      && outOfOrderCount <= outOfOrder.Length
      && expectedSeq == Feed(numbers).expected
      && passes == Feed(numbers).skips
      && Stored(Feed(numbers).gaps)
    }

    /** The array holds as much of the gap list as fits. */
    ghost predicate Stored(gaps: seq<int>)
      reads `outOfOrderCount, outOfOrder
    {
      && outOfOrderCount == (if |gaps| <= outOfOrder.Length then |gaps| else outOfOrder.Length)
      && outOfOrder[..outOfOrderCount] == gaps[..outOfOrderCount]
    }

    constructor (limit: nat)
      ensures Valid() && numbers == [] && outOfOrder.Length == limit && fresh(outOfOrder)
    {
      expectedSeq := 1;
      outOfOrder := new int[limit];
      outOfOrderCount := 0;
      numbers, passes := [], 0;
    }

    method Observe(packetSeq: int)
      requires Valid()
      modifies this, outOfOrder
      ensures Valid() && numbers == old(numbers) + [packetSeq]
    {
      FeedSnoc(numbers, packetSeq);
      if packetSeq == expectedSeq {
        expectedSeq := expectedSeq + 1;
        assert Range(packetSeq, packetSeq) == [];
        assert Feed(numbers).gaps + [] == Feed(numbers).gaps;
      } else if packetSeq > expectedSeq {
        RecordGaps(packetSeq);
        expectedSeq := packetSeq + 1;
      }
      numbers := numbers + [packetSeq];
    }

    method RecordGaps(packetSeq: int)
      requires Stored(Feed(numbers).gaps) && expectedSeq < packetSeq
      modifies `outOfOrderCount, `passes, outOfOrder
      ensures Stored(Feed(numbers).gaps + Range(expectedSeq, packetSeq))
      ensures passes == old(passes) + (packetSeq - expectedSeq)
    {
      ghost var gaps := Feed(numbers).gaps;
      var i := expectedSeq;
      assert gaps + Range(i, i) == gaps;
      while i < packetSeq
        invariant expectedSeq <= i <= packetSeq
        invariant Stored(gaps + Range(expectedSeq, i))
        invariant passes == old(passes) + (i - expectedSeq)
      {
        assert gaps + Range(expectedSeq, i + 1) == gaps + Range(expectedSeq, i) + [i];
        Append(gaps + Range(expectedSeq, i), i);
        i, passes := i + 1, passes + 1;
      }
    }

    method Append(ghost gaps: seq<int>, i: int)
      requires Stored(gaps)
      modifies `outOfOrderCount, outOfOrder
      ensures Stored(gaps + [i])
    {
      if outOfOrderCount < outOfOrder.Length {
        outOfOrder[outOfOrderCount] := i;
        outOfOrderCount := outOfOrderCount + 1;
        assert outOfOrder[..outOfOrderCount] == gaps + [i];
      }
    }
  }
}
