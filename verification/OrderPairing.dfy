/** The order-pairing automaton of the two-socket server.

    Reads from two sockets are folded, one at a time, into "first before second" and
    "second before first" pairs by a three-state memory.  The fold is greedy; the main
    result says that it is also optimal: no way of cutting the trace into disjoint
    stretches that each hold a read of both sockets yields more stretches than the
    automaton counts pairs. */
module OrderPairing {

  datatype Role = First | Second

  /** The memory: nothing seen since the last pair, or a read of one role is waiting for the other. */
  datatype Pick = Nothing | Saw(role: Role)

  datatype Tally = Tally(pick: Pick, firstBeforeSecond: nat, secondBeforeFirst: nat, both: nat)

  function Other(r: Role): Role {
    if r == First then Second else First
  }

  function Observe(t: Tally, r: Role): Tally {
    match t.pick
    case Nothing => t.(pick := Saw(r))
    case Saw(p) =>
      if p == r then t
      else if r == First then
        t.(pick := Nothing, secondBeforeFirst := t.secondBeforeFirst + 1, both := t.both + 1)
      else
        t.(pick := Nothing, firstBeforeSecond := t.firstBeforeSecond + 1, both := t.both + 1)
  }

  function Count(trace: seq<Role>): Tally {
    if trace == [] then Tally(Nothing, 0, 0, 0)
    else Observe(Count(trace[..|trace| - 1]), trace[|trace| - 1])
  }

  function Reads(trace: seq<Role>, r: Role): nat {
    if trace == [] then 0
    else Reads(trace[..|trace| - 1], r) + if trace[|trace| - 1] == r then 1 else 0
  }

  lemma CountSnoc(trace: seq<Role>, r: Role)
    ensures Count(trace + [r]) == Observe(Count(trace), r)
    ensures forall q :: Reads(trace + [r], q) == Reads(trace, q) + if r == q then 1 else 0
  {
  }

  lemma CountOne(r: Role)
    ensures Count([r]) == Tally(Saw(r), 0, 0, 0)
  {
    CountSnoc([], r);
    assert [] + [r] == [r];
  }

  // ---------------------------------------------------------------- optimality

  /** The stretch trace[lo..hi]. */
  datatype Segment = Segment(lo: nat, hi: nat)

  ghost predicate Spans(trace: seq<Role>, g: Segment) {
    && g.lo <= g.hi <= |trace|
    && First in trace[g.lo..g.hi]
    && Second in trace[g.lo..g.hi]
  }

  ghost predicate Apart(a: Segment, b: Segment) {
    a.hi <= b.lo || b.hi <= a.lo
  }

  /** Pairwise disjoint stretches, in any order, that each hold a read of both sockets. */
  ghost predicate Packing(trace: seq<Role>, gs: seq<Segment>) {
    && (forall i :: 0 <= i < |gs| ==> Spans(trace, gs[i]))
    && (forall i, j :: 0 <= i < j < |gs| ==> Apart(gs[i], gs[j]))
  }

  /** Read k completes a pair. */
  ghost predicate Completes(trace: seq<Role>, k: nat)
    requires k < |trace|
  {
    Count(trace[..k + 1]).both > Count(trace[..k]).both
  }

  ghost function Completions(trace: seq<Role>): set<nat> {
    set k: nat | k < |trace| && Completes(trace, k)
  }

  lemma CountPrefixStep(trace: seq<Role>, k: nat)
    requires k < |trace|
    ensures Count(trace[..k + 1]) == Observe(Count(trace[..k]), trace[k])
  {
    assert trace[..k + 1] == trace[..k] + [trace[k]];
    CountSnoc(trace[..k], trace[k]);
  }

  lemma CompletesInPrefix(trace: seq<Role>, n: nat, k: nat)
    requires k < n <= |trace|
    ensures Completes(trace[..n], k) <==> Completes(trace, k)
  {
    assert trace[..n][..k + 1] == trace[..k + 1] && trace[..n][..k] == trace[..k];
  }

  lemma CompletionsSnoc(trace: seq<Role>, n: nat)
    requires |trace| == n + 1
    ensures Completions(trace) == Completions(trace[..n]) + if Completes(trace, n) then {n} else {}
    ensures n !in Completions(trace[..n])
  {
    forall k: nat | k < n
      ensures k in Completions(trace[..n]) <==> k in Completions(trace)
    {
      CompletesInPrefix(trace, n, k);
    }
  }

  lemma LastReadCounts(trace: seq<Role>, n: nat)
    requires |trace| == n + 1
    ensures Count(trace).both == Count(trace[..n]).both + if Completes(trace, n) then 1 else 0
  {
    CountPrefixStep(trace, n);
    assert trace[..n + 1] == trace;
  }

  lemma {:induction false} CompletionsCounted(trace: seq<Role>)
    ensures |Completions(trace)| == Count(trace).both
  {
    if trace == [] {
      assert Completions(trace) == {};
    } else {
      var n := |trace| - 1;
      CompletionsCounted(trace[..n]);
      CompletionsSnoc(trace, n);
      LastReadCounts(trace, n);
    }
  }

  /** Without a completion the automaton sees a single role over the whole stretch. */
  lemma {:induction false} StalledSeesOneRole(trace: seq<Role>, lo: nat, hi: nat) returns (p: Role)
    requires lo < hi <= |trace|
    requires forall k: nat :: lo <= k < hi ==> !Completes(trace, k)
    ensures forall k: nat :: lo <= k < hi ==> trace[k] == p
    ensures Count(trace[..hi]).pick == Saw(p)
    decreases hi - lo
  {
    CountPrefixStep(trace, hi - 1);
    assert !Completes(trace, hi - 1);
    if lo == hi - 1 {
      p := trace[lo];
    } else {
      p := StalledSeesOneRole(trace, lo, hi - 1);
    }
  }

  lemma SpanHoldsCompletion(trace: seq<Role>, g: Segment) returns (k: nat)
    requires Spans(trace, g)
    ensures g.lo <= k < g.hi && k in Completions(trace)
  {
    if forall c: nat :: g.lo <= c < g.hi ==> !Completes(trace, c) {
      var p := StalledSeesOneRole(trace, g.lo, g.hi);
      assert false;
    }
    k :| g.lo <= k < g.hi && Completes(trace, k);
  }

  ghost predicate Marked(g: Segment, marks: set<nat>) {
    exists k :: k in marks && g.lo <= k < g.hi
  }

  /** Disjoint stretches that each hold a mark are no more than the marks. */
  lemma {:induction false} DisjointStretchesInject(gs: seq<Segment>, marks: set<nat>)
    requires forall i :: 0 <= i < |gs| ==> Marked(gs[i], marks)
    requires forall i, j :: 0 <= i < j < |gs| ==> Apart(gs[i], gs[j])
    ensures |gs| <= |marks|
  {
    if gs != [] {
      var n := |gs| - 1;
      assert Marked(gs[n], marks);
      var k :| k in marks && gs[n].lo <= k < gs[n].hi;
      var rest := gs[..n];
      forall i | 0 <= i < |rest|
        ensures Marked(rest[i], marks - {k})
      {
        assert Marked(gs[i], marks);
        var c :| c in marks && gs[i].lo <= c < gs[i].hi;
        assert Apart(gs[i], gs[n]);
        assert c in marks - {k};
      }
      DisjointStretchesInject(rest, marks - {k});
    }
  }

  lemma PackingBound(trace: seq<Role>, gs: seq<Segment>)
    requires Packing(trace, gs)
    ensures |gs| <= Count(trace).both
  {
    forall i | 0 <= i < |gs|
      ensures Marked(gs[i], Completions(trace))
    {
      var k := SpanHoldsCompletion(trace, gs[i]);
    }
    DisjointStretchesInject(gs, Completions(trace));
    CompletionsCounted(trace);
  }

  /** The stretches the automaton itself closes; `mark` is where the read it remembers stands. */
  lemma {:induction false} GreedyPacking(trace: seq<Role>) returns (gs: seq<Segment>, mark: nat)
    ensures Packing(trace, gs) && |gs| == Count(trace).both
    ensures mark <= |trace| && forall i :: 0 <= i < |gs| ==> gs[i].hi <= mark
    ensures Count(trace).pick.Saw? ==> mark < |trace| && trace[mark] == Count(trace).pick.role
  {
    if trace == [] {
      gs, mark := [], 0;
    } else {
      var n := |trace| - 1;
      var init := trace[..n];
      var r := trace[n];
      gs, mark := GreedyPacking(init);
      forall i | 0 <= i < |gs| ensures Spans(trace, gs[i]) {
        assert trace[gs[i].lo..gs[i].hi] == init[gs[i].lo..gs[i].hi];
      }
      match Count(init).pick
      case Nothing => mark := n;
      case Saw(p) =>
        if p != r {
          var g := Segment(mark, n + 1);
          assert trace[g.lo..g.hi][0] == p && trace[g.lo..g.hi][n - mark] == r;
          gs, mark := gs + [g], n + 1;
        }
    }
  }

  /** n is the largest number of such stretches. */
  ghost predicate Optimal(trace: seq<Role>, n: int) {
    && (exists gs :: Packing(trace, gs) && |gs| == n)
    && (forall gs :: Packing(trace, gs) ==> |gs| <= n)
  }

  lemma PairingIsOptimal(trace: seq<Role>)
    ensures Optimal(trace, Count(trace).both)
  {
    var gs, mark := GreedyPacking(trace);
    forall other | Packing(trace, other) ensures |other| <= Count(trace).both {
      PackingBound(trace, other);
    }
  }

  lemma SpanHoldsBoth(trace: seq<Role>, g: Segment)
    requires Spans(trace, g)
    ensures First in trace && Second in trace
  {
  }

  /** A pair is counted as soon as there is a read of each socket. */
  lemma NoPairIff(trace: seq<Role>)
    ensures Count(trace).both == 0 <==> !(First in trace && Second in trace)
  {
    if First in trace && Second in trace {
      assert trace[0..|trace|] == trace;
      assert Spans(trace, Segment(0, |trace|));
      PackingBound(trace, [Segment(0, |trace|)]);
    }
    if Count(trace).both > 0 {
      var gs, _ := GreedyPacking(trace);
      SpanHoldsBoth(trace, gs[0]);
    }
  }

  // ---------------------------------------------------------------- orders

  /** Reads of one socket and then a single one of the other. */
  ghost predicate IsPair(trace: seq<Role>, g: Segment) {
    && g.lo + 2 <= g.hi <= |trace|
    && (forall k :: g.lo <= k < g.hi - 1 ==> trace[k] == trace[g.lo])
    && trace[g.hi - 1] != trace[g.lo]
  }

  function End(gs: seq<Segment>): nat {
    if gs == [] then 0 else gs[|gs| - 1].hi
  }

  /** The trace cut, from its start, into pairs side by side; there is at most one such list of each
      length. */
  ghost predicate Tiled(trace: seq<Role>, gs: seq<Segment>) {
    forall i :: 0 <= i < |gs| ==> IsPair(trace, gs[i]) && gs[i].lo == End(gs[..i])
  }

  /** How many of the pairs a read of the given socket begins. */
  function Begun(trace: seq<Role>, gs: seq<Segment>, r: Role): nat {
    if gs == [] then 0
    else
      var lo := gs[|gs| - 1].lo;
      Begun(trace, gs[..|gs| - 1], r) + if lo < |trace| && trace[lo] == r then 1 else 0
  }

  lemma TiledSnoc(trace: seq<Role>, gs: seq<Segment>, g: Segment)
    requires Tiled(trace, gs) && IsPair(trace, g) && g.lo == End(gs)
    ensures Tiled(trace, gs + [g])
    ensures forall r :: Begun(trace, gs + [g], r) == Begun(trace, gs, r) + if trace[g.lo] == r then 1 else 0
  {
    forall i | 0 <= i < |gs| ensures (gs + [g])[..i] == gs[..i] {}
    assert (gs + [g])[..|gs|] == gs;
  }

  lemma {:induction false} TiledLonger(trace: seq<Role>, r: Role, gs: seq<Segment>)
    requires Tiled(trace, gs)
    ensures Tiled(trace + [r], gs) && End(gs) <= |trace|
    ensures forall q :: Begun(trace + [r], gs, q) == Begun(trace, gs, q)
  {
    if gs != [] {
      var n := |gs| - 1;
      forall i | 0 <= i < n ensures gs[..n][..i] == gs[..i] {}
      TiledLonger(trace, r, gs[..n]);
      assert IsPair(trace, gs[n]);
      forall i | 0 <= i < |gs| ensures IsPair(trace + [r], gs[i]) && gs[i].lo == End(gs[..i]) {
        assert IsPair(trace, gs[i]);
      }
    }
  }

  /** What is left over is of one socket, and that is what the memory holds. */
  ghost predicate LeftOver(trace: seq<Role>, at: nat, pick: Pick) {
    if at == |trace| then pick == Nothing
    else at < |trace| && pick == Saw(trace[at]) && forall k :: at <= k < |trace| ==> trace[k] == trace[at]
  }

  /** The counts are those of the pairs, by the socket whose read begins them. */
  ghost predicate Ordered(trace: seq<Role>, gs: seq<Segment>, t: Tally) {
    && Tiled(trace, gs) && LeftOver(trace, End(gs), t.pick)
    && t.both == |gs|
    && t.firstBeforeSecond == Begun(trace, gs, First) && t.secondBeforeFirst == Begun(trace, gs, Second)
  }

  lemma LeftOverNext(init: seq<Role>, r: Role, at: nat, t: Tally)
    requires at <= |init| && LeftOver(init, at, t.pick)
    ensures LeftOver(init + [r], if t.pick == Saw(Other(r)) then |init| + 1 else at, Observe(t, r).pick)
    ensures t.pick == Saw(Other(r)) ==> IsPair(init + [r], Segment(at, |init| + 1)) && init[at] == Other(r)
  {
  }

  lemma OrderedNext(init: seq<Role>, r: Role, gs: seq<Segment>, t: Tally) returns (more: seq<Segment>)
    requires Ordered(init, gs, t)
    ensures Ordered(init + [r], more, Observe(t, r))
  {
    more := gs;
    TiledLonger(init, r, gs);
    LeftOverNext(init, r, End(gs), t);
    if t.pick == Saw(Other(r)) {
      var g := Segment(End(gs), |init| + 1);
      TiledSnoc(init + [r], gs, g);
      more := gs + [g];
    }
  }

  lemma OrderedLast(trace: seq<Role>, gs: seq<Segment>) returns (more: seq<Segment>)
    requires trace != [] && Ordered(trace[..|trace| - 1], gs, Count(trace[..|trace| - 1]))
    ensures Ordered(trace, more, Count(trace))
  {
    var init, r := trace[..|trace| - 1], trace[|trace| - 1];
    more := OrderedNext(init, r, gs, Count(init));
    assert init + [r] == trace;
  }

  lemma OrderedNone(trace: seq<Role>)
    requires |trace| == 0
    ensures Ordered(trace, [], Count(trace))
  {
  }

  /** "First before second" counts the pairs that a read of the first socket begins, and the other count
      those that one of the second begins, when the trace is cut into pairs from its start. */
  lemma {:induction false} OrdersAreOfPairs(trace: seq<Role>) returns (gs: seq<Segment>)
    ensures Ordered(trace, gs, Count(trace))
  {
    if trace == [] {
      gs := [];
      OrderedNone(trace);
    } else {
      var init := OrdersAreOfPairs(trace[..|trace| - 1]);
      gs := OrderedLast(trace, init);
    }
  }

  // ---------------------------------------------------------------- symmetries

  function Reverse(trace: seq<Role>): seq<Role> {
    seq(|trace|, i requires 0 <= i < |trace| => trace[|trace| - 1 - i])
  }

  function Exchange(trace: seq<Role>): seq<Role> {
    seq(|trace|, i requires 0 <= i < |trace| => Other(trace[i]))
  }

  lemma MirrorPacking(trace: seq<Role>, gs: seq<Segment>) returns (mirrored: seq<Segment>)
    requires Packing(trace, gs)
    ensures Packing(Reverse(trace), mirrored) && |mirrored| == |gs|
  {
    var n := |trace|;
    mirrored := seq(|gs|, i requires 0 <= i < |gs| && gs[i].lo <= gs[i].hi <= n => Segment(n - gs[i].hi, n - gs[i].lo));
    forall i | 0 <= i < |gs| ensures Spans(Reverse(trace), mirrored[i]) {
      var g, m := gs[i], mirrored[i];
      var part := Reverse(trace)[m.lo..m.hi];
      forall r | r in trace[g.lo..g.hi] ensures r in part {
        var k :| 0 <= k < g.hi - g.lo && trace[g.lo..g.hi][k] == r;
        assert part[g.hi - g.lo - 1 - k] == r;
      }
    }
  }

  /** Playing the trace backwards gives the same number of pairs. */
  lemma BothUnchangedByReversal(trace: seq<Role>)
    ensures Count(Reverse(trace)).both == Count(trace).both
  {
    var gs, _ := GreedyPacking(trace);
    var there := MirrorPacking(trace, gs);
    PackingBound(Reverse(trace), there);
    var hs, _ := GreedyPacking(Reverse(trace));
    var back := MirrorPacking(Reverse(trace), hs);
    assert Reverse(Reverse(trace)) == trace;
    PackingBound(trace, back);
  }

  /** Naming the sockets the other way round exchanges the two before-counts and nothing else. */
  lemma {:induction false} ExchangeSwapsOrders(trace: seq<Role>)
    ensures Count(Exchange(trace)).firstBeforeSecond == Count(trace).secondBeforeFirst
    ensures Count(Exchange(trace)).secondBeforeFirst == Count(trace).firstBeforeSecond
    ensures Count(Exchange(trace)).both == Count(trace).both
    ensures Count(Exchange(trace)).pick ==
            if Count(trace).pick.Saw? then Saw(Other(Count(trace).pick.role)) else Nothing
  {
    if trace != [] {
      var n := |trace| - 1;
      ExchangeSwapsOrders(trace[..n]);
      assert Exchange(trace)[..n] == Exchange(trace[..n]);
    }
  }

  // ---------------------------------------------------------------- counts

  /** The number of places where a read is followed by a read of the other socket. */
  function RoleChanges(trace: seq<Role>): nat {
    if |trace| < 2 then 0
    else RoleChanges(trace[..|trace| - 1]) + if trace[|trace| - 1] != trace[|trace| - 2] then 1 else 0
  }

  lemma {:induction false} RoleChangesBoundPairs(trace: seq<Role>)
    ensures Count(trace).both <= RoleChanges(trace) <= 2 * Count(trace).both
    ensures (RoleChanges(trace) + 1) / 2 <= Count(trace).both
    ensures Count(trace).pick.Saw? ==> trace != [] && trace[|trace| - 1] == Count(trace).pick.role
    ensures Count(trace).pick.Nothing? && trace != [] ==> RoleChanges(trace) < 2 * Count(trace).both
  {
    if trace != [] {
      RoleChangesBoundPairs(trace[..|trace| - 1]);
    }
  }

  /** Every pair is counted under exactly one order and spends one read of each socket. */
  lemma {:induction false} PairsSpendReads(trace: seq<Role>)
    ensures Count(trace).both == Count(trace).firstBeforeSecond + Count(trace).secondBeforeFirst
    ensures Reads(trace, First) >= Count(trace).both + if Count(trace).pick == Saw(First) then 1 else 0
    ensures Reads(trace, Second) >= Count(trace).both + if Count(trace).pick == Saw(Second) then 1 else 0
  {
    if trace != [] {
      PairsSpendReads(trace[..|trace| - 1]);
    }
  }
}
