/** Statistics at three levels: the counters of the current non-persistent connection, windows of a
    fixed number of closed connections, and everything since the start. */
module Statistics {

  /** The counters of one level.  `perReads` and `nonPerReads` count all reads of a slot, `both`
      the pairs, `persistent` and `nonPersistent` the pairs by the slot read first. */
  datatype Tally = Tally(
    both: int, persistent: int, nonPersistent: int, perReads: int, nonPerReads: int,
    perBytes: int, nonPerBytes: int, perPackets: int, nonPerPackets: int)

  const ZERO_TALLY := Tally(0, 0, 0, 0, 0, 0, 0, 0, 0)

  function AddTally(a: Tally, b: Tally): Tally {
    Tally(a.both + b.both, a.persistent + b.persistent, a.nonPersistent + b.nonPersistent,
      a.perReads + b.perReads, a.nonPerReads + b.nonPerReads,
      a.perBytes + b.perBytes, a.nonPerBytes + b.nonPerBytes,
      a.perPackets + b.perPackets, a.nonPerPackets + b.nonPerPackets)
  }

  /** A closed non-persistent connection: the counters while it held the slot, and the recorded duration:
      its own if it was read, otherwise that of the connection before. */
  datatype Closed = Closed(tally: Tally, duration: real)

  /** The fields of a window that are added up ... */
  datatype Sums = Sums(
    nonPersistent: int, persistent: int, both: int, onlyPersistent: int, onlyNonPersistent: int,
    perBytes: int, nonPerBytes: int, duration: real, perPackets: int, nonPerPackets: int)

  /** ... and those that each connection overwrites. */
  datatype Rates = Rates(persistent: real, nonPersistent: real, mbpsPer: real, mbpsNonPer: real)

  datatype ConnectionStats = ConnectionStats(sums: Sums, rates: Rates)

  const ZERO_SUMS := Sums(0, 0, 0, 0, 0, 0, 0, 0.0, 0, 0)
  const ZERO_RATES := Rates(0.0, 0.0, 0.0, 0.0)
  const ZERO_STATS := ConnectionStats(ZERO_SUMS, ZERO_RATES)

  function AddSums(a: Sums, b: Sums): Sums {
    Sums(a.nonPersistent + b.nonPersistent, a.persistent + b.persistent, a.both + b.both,
      a.onlyPersistent + b.onlyPersistent, a.onlyNonPersistent + b.onlyNonPersistent,
      a.perBytes + b.perBytes, a.nonPerBytes + b.nonPerBytes, a.duration + b.duration,
      a.perPackets + b.perPackets, a.nonPerPackets + b.nonPerPackets)
  }

  /** What one connection adds to a window. */
  function Contribution(c: Closed): Sums {
    var t := c.tally;
    Sums(t.nonPersistent, t.persistent, t.both, t.perReads - t.both, t.nonPerReads - t.both,
      t.perBytes, t.nonPerBytes, c.duration, t.perPackets, t.nonPerPackets)
  }

  function RatesOf(c: Closed): Rates {
    var t := c.tally;
    Rates(
      if t.both > 0 then t.persistent as real / t.both as real else 0.0,
      if t.both > 0 then t.nonPersistent as real / t.both as real else 0.0,
      if c.duration > 0.0 then Mbps(t.perBytes, c.duration) else 0.0,
      if c.duration > 0.0 then Mbps(t.nonPerBytes, c.duration) else 0.0)
  }

  function Mbps(bytes: int, duration: real): real
    requires duration > 0.0
  {
    bytes as real * 8.0 / (duration * 1000000.0)
  }

  function Total(cs: seq<Closed>): Sums {
    if cs == [] then ZERO_SUMS else AddSums(Total(cs[..|cs| - 1]), Contribution(cs[|cs| - 1]))
  }

  function TotalTally(cs: seq<Closed>): Tally {
    if cs == [] then ZERO_TALLY else AddTally(TotalTally(cs[..|cs| - 1]), cs[|cs| - 1].tally)
  }

  /** A window over some closed connections: the sums of all, the rates of the last. */
  function Summary(cs: seq<Closed>): ConnectionStats {
    ConnectionStats(Total(cs), if cs == [] then ZERO_RATES else RatesOf(cs[|cs| - 1]))
  }

  lemma SummarySnoc(cs: seq<Closed>, c: Closed)
    ensures Summary(cs + [c]) == ConnectionStats(AddSums(Summary(cs).sums, Contribution(c)), RatesOf(c))
    ensures TotalTally(cs + [c]) == AddTally(TotalTally(cs), c.tally)
  {
  }

  lemma TotalSnoc(cs: seq<Closed>, c: Closed)
    ensures Total(cs + [c]) == AddSums(Total(cs), Contribution(c))
  {
  }

  lemma AddSumsAssociates(a: Sums, b: Sums, c: Sums)
    ensures AddSums(AddSums(a, b), c) == AddSums(a, AddSums(b, c))
  {
  }

  lemma {:induction false} TotalConcat(a: seq<Closed>, b: seq<Closed>)
    ensures Total(a + b) == AddSums(Total(a), Total(b))
  {
    if b == [] {
      assert a + b == a;
    } else {
      var init, last := b[..|b| - 1], b[|b| - 1];
      calc {
        Total(a + b);
      == { assert a + b == (a + init) + [last]; TotalSnoc(a + init, last); }
        AddSums(Total(a + init), Contribution(last));
      == { TotalConcat(a, init); }
        AddSums(AddSums(Total(a), Total(init)), Contribution(last));
      == { AddSumsAssociates(Total(a), Total(init), Contribution(last)); }
        AddSums(Total(a), AddSums(Total(init), Contribution(last)));
      == { assert b == init + [last]; TotalSnoc(init, last); }
        AddSums(Total(a), Total(b));
      }
    }
  }

  function DurationSum(cs: seq<Closed>): real {
    if cs == [] then 0.0 else DurationSum(cs[..|cs| - 1]) + cs[|cs| - 1].duration
  }

  /** The fields of a window that are added up, in terms of the tallies and durations it covers. */
  ghost predicate AreSums(s: Sums, cs: seq<Closed>) {
    var t := TotalTally(cs);
    && s.both == t.both && s.persistent == t.persistent && s.nonPersistent == t.nonPersistent
    && s.onlyPersistent == t.perReads - t.both && s.onlyNonPersistent == t.nonPerReads - t.both
    && s.perBytes == t.perBytes && s.nonPerBytes == t.nonPerBytes
    && s.perPackets == t.perPackets && s.nonPerPackets == t.nonPerPackets
    && s.duration == DurationSum(cs)
  }

  lemma {:induction false} TotalsAgree(cs: seq<Closed>)
    ensures AreSums(Total(cs), cs)
  {
    if cs != [] {
      TotalsAgree(cs[..|cs| - 1]);
    }
  }

  /** The share of the pairs, and zero without pairs. */
  ghost predicate IsShare(ratio: real, part: int, whole: int) {
    if whole > 0 then ratio * whole as real == part as real else ratio == 0.0
  }

  /** Megabits per second, and zero without a duration. */
  ghost predicate IsThroughput(mbps: real, bytes: int, duration: real) {
    if duration > 0.0 then mbps * duration * 1000000.0 == bytes as real * 8.0 else mbps == 0.0
  }

  lemma MbpsIsThroughput(bytes: int, duration: real)
    requires duration > 0.0
    ensures IsThroughput(Mbps(bytes, duration), bytes, duration)
  {
    var bits, millions := bytes as real * 8.0, duration * 1000000.0;
    assert bits / millions * millions == bits;
    assert Mbps(bytes, duration) * duration * 1000000.0 == Mbps(bytes, duration) * millions;
  }

  lemma ShareOf(part: int, whole: int)
    requires whole > 0
    ensures IsShare(part as real / whole as real, part, whole)
  {
  }

  /** The rates of a connection: each kind's share of the pairs, and the throughput of its bytes. */
  ghost predicate AreRates(r: Rates, c: Closed) {
    && IsShare(r.persistent, c.tally.persistent, c.tally.both)
    && IsShare(r.nonPersistent, c.tally.nonPersistent, c.tally.both)
    && IsThroughput(r.mbpsPer, c.tally.perBytes, c.duration)
    && IsThroughput(r.mbpsNonPer, c.tally.nonPerBytes, c.duration)
  }

  lemma RatesAreRates(c: Closed)
    ensures AreRates(RatesOf(c), c)
  {
    if c.tally.both > 0 {
      ShareOf(c.tally.persistent, c.tally.both);
      ShareOf(c.tally.nonPersistent, c.tally.both);
    }
    if c.duration > 0.0 {
      MbpsIsThroughput(c.tally.perBytes, c.duration);
      MbpsIsThroughput(c.tally.nonPerBytes, c.duration);
    }
  }

  // ---------------------------------------------------------------- windows

  function Min(a: int, b: int): int {
    if a <= b then a else b
  }

  /** The connections that window i covers: from i * interval up to, at most, the last one. */
  function Window(history: seq<Closed>, interval: nat, i: nat): seq<Closed> {
    history[Min(i * interval, |history|)..Min((i + 1) * interval, |history|)]
  }

  lemma WindowSnoc(history: seq<Closed>, c: Closed, interval: nat, i: nat)
    requires (i + 1) * interval <= |history|
    ensures Window(history + [c], interval, i) == Window(history, interval, i)
  {
  }

  ghost predicate Windowed(history: seq<Closed>, interval: nat, windows: seq<ConnectionStats>) {
    forall i :: 0 <= i < |windows| ==> windows[i] == Summary(Window(history, interval, i))
  }

  function AddWindows(windows: seq<ConnectionStats>): Sums {
    if windows == [] then ZERO_SUMS
    else AddSums(AddWindows(windows[..|windows| - 1]), windows[|windows| - 1].sums)
  }

  lemma WindowExtends(history: seq<Closed>, interval: nat, n: nat)
    ensures history[..Min((n + 1) * interval, |history|)] ==
            history[..Min(n * interval, |history|)] + Window(history, interval, n)
  {
  }

  lemma NextWindowAdds(history: seq<Closed>, interval: nat, n: nat)
    ensures Total(history[..Min((n + 1) * interval, |history|)]) ==
            AddSums(Total(history[..Min(n * interval, |history|)]), Summary(Window(history, interval, n)).sums)
  {
    WindowExtends(history, interval, n);
    TotalConcat(history[..Min(n * interval, |history|)], Window(history, interval, n));
  }

  /** Windows side by side add up to what they cover. */
  lemma {:induction false} WindowsAddUp(history: seq<Closed>, interval: nat, windows: seq<ConnectionStats>)
    requires Windowed(history, interval, windows)
    ensures AddWindows(windows) == Total(history[..Min(|windows| * interval, |history|)])
  {
    if windows == [] {
      assert history[..0] == [];
    } else {
      var n := |windows| - 1;
      WindowsAddUp(history, interval, windows[..n]);
      NextWindowAdds(history, interval, n);
      assert windows[n] == Summary(Window(history, interval, n));
    }
  }

  /** The stored windows and the one being filled together hold every closed connection. */
  lemma WindowsAndRest(
    history: seq<Closed>, interval: nat, slots: nat, windows: seq<ConnectionStats>, temp: ConnectionStats)
    requires Filling(history, interval, slots, windows, temp)
    ensures AddSums(AddWindows(windows), temp.sums) == Total(history)
  {
    WindowsAndOthers(history, interval, windows, Starts(interval, |windows|));
  }

  lemma WindowsAndOthers(history: seq<Closed>, interval: nat, windows: seq<ConnectionStats>, at: nat)
    requires Windowed(history, interval, windows) && at == |windows| * interval <= |history|
    ensures AddSums(AddWindows(windows), Total(history[at..])) == Total(history)
  {
    WindowsAddUp(history, interval, windows);
    AddsUp(AddWindows(windows), history, at);
  }

  lemma AddsUp(covered: Sums, history: seq<Closed>, at: nat)
    requires at <= |history| && covered == Total(history[..at])
    ensures AddSums(covered, Total(history[at..])) == Total(history)
  {
    Halves(history, at);
    TotalSplit(history[..at], history[at..], history);
  }

  lemma TotalSplit(a: seq<Closed>, b: seq<Closed>, history: seq<Closed>)
    requires a + b == history
    ensures AddSums(Total(a), Total(b)) == Total(history)
  {
    TotalConcat(a, b);
  }

  lemma Halves(history: seq<Closed>, at: nat)
    requires at <= |history|
    ensures history[..at] + history[at..] == history
  {
  }

  /** How many windows are stored: one for every full interval, as long as there is room. */
  ghost predicate Stored(connections: nat, interval: nat, slots: nat, windows: nat) {
    && windows <= slots
    && windows * interval <= connections
    && (windows < slots ==> connections < (windows + 1) * interval)
  }

  lemma StoredIsMin(connections: nat, interval: nat, slots: nat, windows: nat)
    requires interval > 0 && Stored(connections, interval, slots, windows)
    ensures windows == Min(connections / interval, slots)
    ensures windows < slots ==> connections % interval == connections - windows * interval
  {
    var q, r := connections / interval, connections % interval;
    assert connections == q * interval + r;
    if windows < slots {
      DivUnique(connections, interval, windows);
    } else {
      assert q < windows ==> (q + 1) * interval <= windows * interval;
      assert (q + 1) * interval == q * interval + interval;
    }
  }

  lemma DivUnique(x: nat, n: nat, q: nat)
    requires n > 0 && q * n <= x < (q + 1) * n
    ensures x / n == q && x % n == x - q * n
  {
    var d := x / n - q;
    assert x == (x / n) * n + x % n;
    assert (q + 1) * n == q * n + n;
    assert d * n == x - q * n - x % n;
    assert d >= 1 ==> d * n >= n;
    assert d <= -1 ==> d * n + n <= 0;
  }

  /** One more connection fills a window exactly when the count becomes a multiple of the interval. */
  lemma StoredNext(connections: nat, interval: nat, slots: nat, windows: nat)
    requires interval > 0 && Stored(connections, interval, slots, windows)
    ensures var full := (connections + 1) % interval == 0 && windows < slots;
            && Stored(connections + 1, interval, slots, if full then windows + 1 else windows)
            && (full ==> connections + 1 == (windows + 1) * interval)
  {
    assert (windows + 1) * interval == windows * interval + interval;
    assert (windows + 2) * interval == windows * interval + 2 * interval;
    if windows < slots {
      if connections + 1 == (windows + 1) * interval {
        DivUnique(connections + 1, interval, windows + 1);
      } else {
        DivUnique(connections + 1, interval, windows);
      }
    }
  }

  /** The stored windows and the one being filled, for a history of closed connections. */
  ghost predicate Filling(
    history: seq<Closed>, interval: nat, slots: nat, windows: seq<ConnectionStats>, temp: ConnectionStats)
  {
    && Stored(|history|, interval, slots, |windows|)
    && Windowed(history, interval, windows)
    && temp == Summary(history[|windows| * interval..])
  }

  lemma OlderWindowsStay(history: seq<Closed>, c: Closed, interval: nat, windows: seq<ConnectionStats>)
    requires Windowed(history, interval, windows) && |windows| * interval <= |history|
    ensures Windowed(history + [c], interval, windows)
  {
    forall i | 0 <= i < |windows| ensures windows[i] == Summary(Window(history + [c], interval, i)) {
      Monotone(i + 1, |windows|, interval);
      WindowSnoc(history, c, interval, i);
    }
  }

  lemma Monotone(a: nat, b: nat, m: nat)
    requires a <= b
    ensures a * m <= b * m
  {
  }

  lemma FillingGrows(
    history: seq<Closed>, c: Closed, interval: nat, slots: nat, windows: seq<ConnectionStats>, temp: ConnectionStats)
    requires interval > 0 && Filling(history, interval, slots, windows, temp)
    ensures var more := ConnectionStats(AddSums(temp.sums, Contribution(c)), RatesOf(c));
            if (|history| + 1) % interval == 0 && |windows| < slots
            then Filling(history + [c], interval, slots, windows + [more], ZERO_STATS)
            else Filling(history + [c], interval, slots, windows, more)
  {
    var at := |windows| * interval;
    var more := ConnectionStats(AddSums(temp.sums, Contribution(c)), RatesOf(c));
    StoredNext(|history|, interval, slots, |windows|);
    SummarySnoc(history[at..], c);
    assert (history + [c])[at..] == history[at..] + [c];
    OlderWindowsStay(history, c, interval, windows);
    if (|history| + 1) % interval == 0 && |windows| < slots {
      assert Window(history + [c], interval, |windows|) == (history + [c])[at..];
      assert (history + [c])[(|windows| + 1) * interval..] == [];
    }
  }

  /** Windows none of which is empty. */
  ghost predicate Covering(history: seq<Closed>, interval: nat, windows: seq<ConnectionStats>) {
    && Windowed(history, interval, windows)
    && forall i :: 0 <= i < |windows| ==> Starts(interval, i) < |history|
  }

  function Starts(interval: nat, i: nat): nat {
    i * interval
  }

  lemma LastWindowCovers(
    history: seq<Closed>, interval: nat, slots: nat, windows: seq<ConnectionStats>, temp: ConnectionStats)
    requires interval > 0 && Filling(history, interval, slots, windows, temp)
    ensures Covering(history, interval, windows)
    ensures |history| % interval != 0 && |windows| < slots ==> Covering(history, interval, windows + [temp])
  {
    StoredIsMin(|history|, interval, slots, |windows|);
    forall i | 0 <= i < |windows| ensures Starts(interval, i) < |history| {
      Monotone(i + 1, |windows|, interval);
      assert (i + 1) * interval == i * interval + interval;
    }
    if |history| % interval != 0 && |windows| < slots {
      assert Window(history, interval, |windows|) == history[|windows| * interval..];
    }
  }

  /** The range printed for window i. */
  ghost predicate IsRange(connections: nat, interval: nat, i: nat, range: (nat, nat)) {
    range == (Starts(interval, i), Min(Starts(interval, i + 1), connections))
  }

  /** The ranges lie side by side from the first connection on, none is empty, and each window is
      the summary of the connections in its range. */
  ghost predicate Described(
    history: seq<Closed>, interval: nat, windows: seq<ConnectionStats>, ranges: seq<(nat, nat)>)
  {
    && |windows| == |ranges|
    && forall i :: 0 <= i < |windows| ==>
         && IsRange(|history|, interval, i, ranges[i])
         && ranges[i].0 < ranges[i].1 <= |history|
         && windows[i] == Summary(history[ranges[i].0..ranges[i].1])
         && ranges[i].0 == (if i == 0 then 0 else ranges[i - 1].1)
  }

  lemma RangesDescribe(history: seq<Closed>, interval: nat, windows: seq<ConnectionStats>, ranges: seq<(nat, nat)>)
    requires interval > 0 && Covering(history, interval, windows) && |ranges| == |windows|
    requires forall i :: 0 <= i < |windows| ==> IsRange(|history|, interval, i, ranges[i])
    ensures Described(history, interval, windows, ranges)
  {
    forall i | 0 <= i < |windows|
      ensures ranges[i].0 < ranges[i].1 <= |history|
      ensures windows[i] == Summary(history[ranges[i].0..ranges[i].1])
      ensures ranges[i].0 == (if i == 0 then 0 else ranges[i - 1].1)
    {
      assert (i + 1) * interval == i * interval + interval;
      assert Starts(interval, i) < |history|;
      assert windows[i] == Summary(Window(history, interval, i));
      assert i > 0 ==> IsRange(|history|, interval, i - 1, ranges[i - 1]);
    }
  }

  /** The fields of a window: sums over the tallies and durations of its connections, and the rates of
      the last one alone. */
  ghost predicate IsWindow(w: ConnectionStats, cs: seq<Closed>) {
    cs != [] && AreSums(w.sums, cs) && AreRates(w.rates, cs[|cs| - 1])
  }

  /** Every window that is described holds these fields for the connections of its range. */
  lemma WindowsHold(
    history: seq<Closed>, interval: nat, windows: seq<ConnectionStats>, ranges: seq<(nat, nat)>, i: nat)
    requires Described(history, interval, windows, ranges) && i < |windows|
    ensures ranges[i].0 < ranges[i].1 <= |history|
    ensures IsWindow(windows[i], history[ranges[i].0..ranges[i].1])
  {
    var cs := history[ranges[i].0..ranges[i].1];
    TotalsAgree(cs);
    RatesAreRates(cs[|cs| - 1]);
  }

  /** The windows stored before the final save, and whether it adds the last one. */
  function FullWindows(connections: nat, interval: nat, slots: nat): nat
    requires interval > 0
  {
    Min(connections / interval, slots)
  }

  ghost predicate Saved(history: seq<Closed>, interval: nat, slots: nat)
    requires interval > 0
  {
    var n := FullWindows(|history|, interval, slots);
    && |history| % interval != 0 && n < slots
    && Total(history[Min(Starts(interval, n), |history|)..]).both > 0
  }

  lemma FullIsStored(connections: nat, interval: nat, slots: nat)
    requires interval > 0
    ensures Stored(connections, interval, slots, FullWindows(connections, interval, slots))
  {
    var q := connections / interval;
    assert connections == q * interval + connections % interval;
    assert (q + 1) * interval == q * interval + interval;
    if slots <= q {
      Monotone(slots, q, interval);
    }
  }

  /** With the final save the windows reach the last connection exactly when they did before, or there
      is room for one more and it holds a pair. */
  lemma WrittenIff(connections: nat, interval: nat, slots: nat, windows: nat, restPairs: int)
    requires interval > 0 && Stored(connections, interval, slots, windows)
    ensures var saved := connections % interval != 0 && windows < slots && restPairs > 0;
            connections <= (if saved then windows + 1 else windows) * interval <==>
            connections == windows * interval || (windows < slots && restPairs > 0)
  {
    StoredIsMin(connections, interval, slots, windows);
  }

  /** The windows array of the server, the window being filled and the number of connections. */
  class StatsWindows {
    const interval: nat
    const statsArray: array<ConnectionStats>
    var statsCount: nat
    var connectionCount: nat
    var tempStats: ConnectionStats
    var conn2Duration: real
    ghost var history: seq<Closed>
    ghost var closedTotal: Tally

    ghost predicate Valid()
      reads this, statsArray
    {
      && interval > 0
      && closedTotal == TotalTally(history)
      && connectionCount == |history|
      && statsCount <= statsArray.Length
      && Filling(history, interval, statsArray.Length, statsArray[..statsCount], tempStats)
      && conn2Duration == Total(history).duration
    }

    constructor (interval: nat, slots: nat)
      requires interval > 0
      ensures Valid() && history == [] && closedTotal == ZERO_TALLY && fresh(statsArray)
      ensures this.interval == interval && statsArray.Length == slots
    {
      this.interval := interval;
      statsArray := new ConnectionStats[slots](_ => ZERO_STATS);
      statsCount, connectionCount, tempStats, conn2Duration := 0, 0, ZERO_STATS, 0.0;
      history, closedTotal := [], ZERO_TALLY;
    }

    method Record(tally: Tally, duration: real)
      requires Valid()
      modifies this, statsArray
      ensures Valid() && history == old(history) + [Closed(tally, duration)]
      ensures closedTotal == AddTally(old(closedTotal), tally)
    {
      ghost var c := Closed(tally, duration);
      ghost var windows := statsArray[..statsCount];
      FillingGrows(history, c, interval, statsArray.Length, windows, tempStats);
      TotalSnoc(history, c);
      SummarySnoc(history, c);
      closedTotal := AddTally(closedTotal, tally);
      conn2Duration := conn2Duration + duration;
      connectionCount := connectionCount + 1;
      Accumulate(tally, duration);
      history := history + [c];
      if connectionCount % interval == 0 && statsCount < statsArray.Length {
        StoreWindow();
        tempStats := ZERO_STATS;
      }
    }

    /** Add the summed fields, overwrite the others. */
    method Accumulate(tally: Tally, duration: real)
      modifies `tempStats
      ensures tempStats == ConnectionStats(
        AddSums(old(tempStats).sums, Contribution(Closed(tally, duration))), RatesOf(Closed(tally, duration)))
    {
      var s := tempStats.sums;
      var sums := Sums(
        s.nonPersistent + tally.nonPersistent, s.persistent + tally.persistent, s.both + tally.both,
        s.onlyPersistent + (tally.perReads - tally.both), s.onlyNonPersistent + (tally.nonPerReads - tally.both),
        s.perBytes + tally.perBytes, s.nonPerBytes + tally.nonPerBytes, s.duration + duration,
        s.perPackets + tally.perPackets, s.nonPerPackets + tally.nonPerPackets);
      var total := tally.both as real;
      var perRatio := if total > 0.0 then tally.persistent as real / total else 0.0;
      var nonPerRatio := if total > 0.0 then tally.nonPersistent as real / total else 0.0;
      var perMbps := if duration > 0.0 then Mbps(tally.perBytes, duration) else 0.0;
      var nonPerMbps := if duration > 0.0 then Mbps(tally.nonPerBytes, duration) else 0.0;
      tempStats := ConnectionStats(sums, Rates(perRatio, nonPerRatio, perMbps, nonPerMbps));
    }

    method StoreWindow()
      requires statsCount < statsArray.Length
      modifies `statsCount, statsArray
      ensures statsCount == old(statsCount) + 1
      ensures statsArray[..statsCount] == old(statsArray[..statsCount]) + [tempStats]
    {
      statsArray[statsCount] := tempStats;
      statsCount := statsCount + 1;
    }

    /** The last, partial window is saved when there is room and it holds a pair. */
    method SaveRemaining()
      requires Valid()
      modifies `statsCount, statsArray
      ensures statsCount <= statsArray.Length
      ensures Covering(history, interval, statsArray[..statsCount])
      ensures statsCount == FullWindows(|history|, interval, statsArray.Length)
                            + if Saved(history, interval, statsArray.Length) then 1 else 0
    {
      StoredIsMin(|history|, interval, statsArray.Length, statsCount);
      LastWindowCovers(history, interval, statsArray.Length, statsArray[..statsCount], tempStats);
      if connectionCount % interval != 0 && statsCount < statsArray.Length && tempStats.sums.both > 0 {
        StoreWindow();
      }
    }

    /** The ranges of connections printed beside the windows. */
    method Ranges() returns (ranges: seq<(nat, nat)>)
      requires interval > 0 && connectionCount == |history| && statsCount <= statsArray.Length
      requires Covering(history, interval, statsArray[..statsCount])
      ensures Described(history, interval, statsArray[..statsCount], ranges)
    {
      ranges := [];
      for i := 0 to statsCount
        invariant |ranges| == i
        invariant forall k :: 0 <= k < i ==> IsRange(|history|, interval, k, ranges[k])
      {
        var startConn := i * interval;
        var endConn := (i + 1) * interval;
        if endConn > connectionCount {
          endConn := connectionCount;
        }
        ranges := ranges + [(startConn, endConn)];
      }
      RangesDescribe(history, interval, statsArray[..statsCount], ranges);
    }
  }
}
