/** What the connection server writes at the end, and what that says about the run behind it. */
module Reports {
  import opened Statistics
  import opened ConnectionModel
  import opened ConnectionRuns
  import opened ReadRuns
  import opened Ledgers
  import opened StalePicks
  import opened StaleTotals

  /** The figures written at the end. */
  datatype Report = Report(
    windows: seq<ConnectionStats>, ranges: seq<(nat, nat)>,
    connections: nat, conn2Duration: real, rejected: int, all: Tally)

  /** Each overall counter is the sum over closed connections plus the current counter; bytes and
      packets of demoted connections are counted on both sides. */
  predicate Conserves(all: Tally, closed: Tally, current: Tally, b: Books) {
    && all.both == closed.both + current.both
    && all.persistent == closed.persistent + current.persistent
    && all.nonPersistent == closed.nonPersistent + current.nonPersistent
    && all.perReads == closed.perReads + current.perReads
    && all.nonPerReads == closed.nonPerReads + current.nonPerReads
    && all.perBytes == closed.perBytes + current.perBytes + b.demotedToSlot.bytes + b.demotedToQueue.bytes
    && all.perPackets == closed.perPackets + current.perPackets + b.demotedToSlot.packets + b.demotedToQueue.packets
    && all.nonPerBytes == closed.nonPerBytes + current.nonPerBytes + b.demotedToQueue.bytes
    && all.nonPerPackets == closed.nonPerPackets + current.nonPerPackets + b.demotedToQueue.packets
  }

  /** The written windows lie side by side from the first closed connection on, none is empty, and
      each is the summary of the connections it names; the overall counters are the sum over all
      closed connections plus the current one, with demoted bytes counted on both sides. */
  ghost predicate IsReport(r: Report, s: State, interval: nat, slots: nat)
    requires interval > 0
  {
    var h := s.history;
    && |r.windows| == FullWindows(|h|, interval, slots) + (if Saved(h, interval, slots) then 1 else 0)
    && Described(h, interval, r.windows, r.ranges)
    && r.connections == |h| && r.conn2Duration == Total(h).duration && r.rejected == s.rejected
    && Conserves(r.all, TotalTally(h), s.tally, s.books)
  }

  /** Every pair in the report has spent two reads and is counted once, by the slot read first. */
  ghost predicate PairsFit(r: Report, pick: int) {
    && 2 * r.all.both + (if pick != NO_FD then 1 else 0) <= r.all.perReads + r.all.nonPerReads
    && r.all.persistent + r.all.nonPersistent == r.all.both
  }

  /** Every read delivered that did not cost a connection its place is in the report once, and so are
      its bytes and packets, except that demoted ones are in it twice. */
  ghost predicate ReadsFit(r: Report, events: seq<Event>, states: seq<State>)
    requires |states| == |events| + 1
  {
    var n, b := |events|, states[|events|].books;
    && r.all.perReads + r.all.nonPerReads == CountedReads(events, states, n)
    && r.all.perBytes + r.all.nonPerBytes ==
       CountedBytes(events, states, n) + b.demotedToSlot.bytes + b.demotedToQueue.bytes
    && r.all.perPackets + r.all.nonPerPackets ==
       CountedPackets(events, states, n) + b.demotedToSlot.packets + b.demotedToQueue.packets
  }

  /** The overall counters are what the events were worth, and the rejected connections those that found
      no place. */
  ghost predicate EventsFit(r: Report, cap: nat, events: seq<Event>, states: seq<State>)
    requires |states| == |events| + 1
  {
    && r.all == Worths(cap, events, states, |events|)
    && r.rejected == Connections(cap, events, states, |events|).rejected
  }

  lemma ConservesAll(all: Tally, s: State)
    requires Conserves(all, TotalTally(s.history), s.tally, s.books)
    ensures all == All(s)
  {
  }

  /** All of this, as far as the environment allows. */
  ghost predicate Fits(r: Report, cap: nat, events: seq<Event>, states: seq<State>)
    requires |states| == |events| + 1
  {
    && PairsFit(r, states[|events|].pick)
    && (PossibleRun(cap, events, states) ==> ReadsFit(r, events, states) && EventsFit(r, cap, events, states))
    && (PossibleRun(cap, events, states) && NothingRecycled(events, states) ==> Covered(r.all))
  }

  lemma ReportFits(r: Report, cap: nat, events: seq<Event>, states: seq<State>, interval: nat, slots: nat)
    requires interval > 0 && IsRun(cap, events, states) && IsReport(r, states[|events|], interval, slots)
    ensures Fits(r, cap, events, states)
  {
    PairingPotentialHolds(cap, events, states, |events|);
    if PossibleRun(cap, events, states) {
      ReadsAccounted(cap, events, states, |events|);
      BooksAreEvents(cap, events, states, |events|);
      ConnectionsAreEvents(cap, events, states, |events|);
      ConservesAll(r.all, states[|events|]);
      if NothingRecycled(events, states) {
        OverallCoveredWithoutRecycling(cap, events, states, |events|);
      }
    }
  }

  // ---------------------------------------------------------------- what the windows leave out

  /** The last connection that a written range names. */
  function Reached(r: Report): nat {
    if r.ranges == [] then 0 else r.ranges[|r.ranges| - 1].1
  }

  lemma ReachedByWindows(r: Report, h: seq<Closed>, interval: nat)
    requires interval > 0 && Described(h, interval, r.windows, r.ranges)
    ensures Reached(r) == Min(Starts(interval, |r.ranges|), |h|)
  {
    if r.ranges != [] {
      assert IsRange(|h|, interval, |r.ranges| - 1, r.ranges[|r.ranges| - 1]);
    }
  }

  /** The written windows name every closed connection exactly when the full windows already do, or
      there is a free slot and the connections after them hold a pair. */
  lemma EverythingWrittenIff(r: Report, s: State, interval: nat, slots: nat)
    requires interval > 0 && IsReport(r, s, interval, slots)
    ensures var h, n := s.history, FullWindows(|s.history|, interval, slots);
            Reached(r) == |h| <==>
            |h| == Starts(interval, n) || (n < slots && Total(h[Min(Starts(interval, n), |h|)..]).both > 0)
  {
    var h, n := s.history, FullWindows(|s.history|, interval, slots);
    ReachedByWindows(r, h, interval);
    WindowsReachIff(|h|, interval, slots, Total(h[Min(Starts(interval, n), |h|)..]).both);
  }

  lemma WindowsReachIff(connections: nat, interval: nat, slots: nat, restPairs: int)
    requires interval > 0
    ensures var n := FullWindows(connections, interval, slots);
            var saved := connections % interval != 0 && n < slots && restPairs > 0;
            Min(Starts(interval, if saved then n + 1 else n), connections) == connections <==>
            connections == Starts(interval, n) || (n < slots && restPairs > 0)
  {
    FullIsStored(connections, interval, slots);
    WrittenIff(connections, interval, slots, FullWindows(connections, interval, slots), restPairs);
  }

  lemma UnpairedOpening() returns (s1: State, s2: State, s3: State)
    ensures Linked(10, START, Arrival(1, 0.0), s1)
    ensures Linked(10, s1, Arrival(2, 0.0), s2)
    ensures Linked(10, s2, Hangup(2, true), s3)
    ensures |s3.history| == 1 && s3.history[0].tally.both == 0
  {
    s1 := Handle(10, START, Arrival(1, 0.0));
    s2 := Handle(10, s1, Arrival(2, 0.0));
    s3 := Handle(10, s2, Hangup(2, true));
  }

  lemma UnpairedRun() returns (events: seq<Event>, states: seq<State>)
    ensures PossibleRun(10, events, states)
    ensures |states[|events|].history| == 1 && states[|events|].history[0].tally.both == 0
  {
    var s1, s2, s3 := UnpairedOpening();
    events, states := [], [START];
    events, states := Extend(events, states, Arrival(1, 0.0), s1);
    events, states := Extend(events, states, Arrival(2, 0.0), s2);
    events, states := Extend(events, states, Hangup(2, true), s3);
  }

  lemma PairsOfOne(h: seq<Closed>)
    requires |h| == 1
    ensures Total(h).both == h[0].tally.both
  {
    assert h == [] + [h[0]];
    TotalSnoc([], h[0]);
  }

  /** A connection that is closed without a pair is in no written window. */
  lemma UnpairedIsNotWritten() returns (events: seq<Event>, states: seq<State>)
    ensures PossibleRun(10, events, states) && |states[|events|].history| == 1
    ensures forall r :: IsReport(r, states[|events|], 50, 200) ==> Reached(r) == 0 && r.connections == 1
  {
    events, states := UnpairedRun();
    var s := states[|events|];
    PairsOfOne(s.history);
    forall r | IsReport(r, s, 50, 200) ensures Reached(r) == 0 && r.connections == 1 {
      NothingWritten(r, s);
    }
  }

  lemma NothingWritten(r: Report, s: State)
    requires |s.history| == 1 && Total(s.history).both == 0 && IsReport(r, s, 50, 200)
    ensures Reached(r) == 0 && r.connections == 1
  {
    assert s.history[0..] == s.history;
    assert FullWindows(1, 50, 200) == 0;
  }
}
