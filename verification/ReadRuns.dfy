/** Properties of all runs of the connection server that concern the reads: what becomes of every
    read, and how reads are paired while the slots keep their connections. */
module ReadRuns {
  import opened Statistics
  import opened ConnectionModel
  import opened ConnectionRuns
  import opened Ledgers
  import Pairing = OrderPairing

  // ---------------------------------------------------------------- every read is accounted for

  /** A read that costs the persistent connection its slot is counted only if it gets the other. */
  predicate Counts(s: State, e: Event) {
    e.Data? && (e.fd == s.persistentFd && !e.isP ==> s.nonPersistentFd == NO_FD)
  }

  /** Reads and bytes that count among the first k events. */
  ghost function CountedReads(events: seq<Event>, states: seq<State>, k: nat): int
    requires k <= |events| && |states| == |events| + 1
  {
    if k == 0 then 0
    else CountedReads(events, states, k - 1) + if Counts(states[k - 1], events[k - 1]) then 1 else 0
  }

  ghost function CountedBytes(events: seq<Event>, states: seq<State>, k: nat): int
    requires k <= |events| && |states| == |events| + 1
  {
    if k == 0 then 0
    else CountedBytes(events, states, k - 1) + if Counts(states[k - 1], events[k - 1]) then events[k - 1].bytes else 0
  }

  /** Whole packets, rounded down read by read. */
  ghost function CountedPackets(events: seq<Event>, states: seq<State>, k: nat): int
    requires k <= |events| && |states| == |events| + 1
  {
    if k == 0 then 0
    else
      CountedPackets(events, states, k - 1) +
      if Counts(states[k - 1], events[k - 1]) then events[k - 1].bytes / PACKET_SIZE else 0
  }

  function ReadsOf(s: State): int {
    Overall(s).perReads + Overall(s).nonPerReads
  }

  /** Bytes and packets on the books; those of a connection demoted to the queue have been struck off. */
  function BytesOf(s: State): int {
    Overall(s).perBytes + Overall(s).nonPerBytes + s.books.demotedToQueue.bytes
  }

  function PacketsOf(s: State): int {
    Overall(s).perPackets + Overall(s).nonPerPackets + s.books.demotedToQueue.packets
  }

  ghost predicate SameBooks(s: State, t: State) {
    ReadsOf(t) == ReadsOf(s) && BytesOf(t) == BytesOf(s) && PacketsOf(t) == PacketsOf(s)
  }

  lemma ReadAdds(cap: nat, s: State, fd: nat, bytes: nat, isP: bool, now: real)
    requires EmptySlotClean(s) && (s.persistentFd == NO_FD || s.persistentFd != s.nonPersistentFd)
    requires fd == s.persistentFd || fd == s.nonPersistentFd
    ensures var t, counts := Read(cap, s, fd, bytes, isP, now), Counts(s, Data(fd, bytes, isP, now));
            && ReadsOf(t) == ReadsOf(s) + (if counts then 1 else 0)
            && BytesOf(t) == BytesOf(s) + (if counts then bytes else 0)
            && PacketsOf(t) == PacketsOf(s) + (if counts then bytes / PACKET_SIZE else 0)
  {
    var t := s;
    if fd == s.persistentFd && !isP {
      DemoteKeepsReads(cap, s);
      t := Demote(cap, s);
    }
    CountAdds(t, bytes, now);
  }

  /** What is carried to the other side, or struck off, stays on the books. */
  lemma DemoteKeepsReads(cap: nat, s: State)
    requires EmptySlotClean(s)
    ensures SameBooks(s, Demote(cap, s))
  {
  }

  ghost predicate OneMore(s: State, bytes: nat, t: State) {
    && ReadsOf(t) == ReadsOf(s) + 1 && BytesOf(t) == BytesOf(s) + bytes
    && PacketsOf(t) == PacketsOf(s) + bytes / PACKET_SIZE
  }

  lemma CountAdds(s: State, bytes: nat, now: real)
    ensures OneMore(s, bytes, CountPersistent(s, bytes, now)) && OneMore(s, bytes, CountNonPersistent(s, bytes, now))
  {
  }

  lemma ClosingKeepsReads(s: State, addOk: bool)
    ensures SameBooks(s, Promote(Release(s), addOk))
  {
  }

  lemma AcceptKeepsReads(cap: nat, s: State, fd: int, now: real)
    ensures SameBooks(s, Accept(cap, s, fd, now))
  {
    SameCounters(s, Accept(cap, s, fd, now));
  }

  lemma SameCounters(s: State, t: State)
    requires t.tally == s.tally && t.history == s.history && t.books.demotedToQueue == s.books.demotedToQueue
    ensures SameBooks(s, t)
  {
  }

  lemma HangUpKeepsReads(s: State, fd: nat, addOk: bool)
    ensures SameBooks(s, HangUp(s, fd, addOk))
  {
    var t := Drop(s, fd);
    SameCounters(s, t);
    if fd == s.nonPersistentFd != s.persistentFd {
      t := Promote(Release(t), addOk);
      ClosingKeepsReads(Drop(s, fd), addOk);
    }
    SameCounters(t, HangUp(s, fd, addOk));
  }

  lemma EvictKeepsReads(s: State, now: real, addOk: bool)
    ensures SameBooks(s, Evict(s, now, addOk))
  {
    ClosingKeepsReads(Drop(s, s.nonPersistentFd), addOk);
  }

  /** What an event does to the reads, bytes and packets on the books. */
  ghost predicate Adds(s: State, e: Event, t: State) {
    && ReadsOf(t) == ReadsOf(s) + (if Counts(s, e) then 1 else 0)
    && BytesOf(t) == BytesOf(s) + (if Counts(s, e) then e.bytes else 0)
    && PacketsOf(t) == PacketsOf(s) + (if Counts(s, e) then e.bytes / PACKET_SIZE else 0)
  }

  lemma StepAdds(cap: nat, s: State, e: Event, t: State)
    requires EmptySlotClean(s) && (s.persistentFd == NO_FD || s.persistentFd != s.nonPersistentFd)
    requires e.Data? ==> e.fd == s.persistentFd || e.fd == s.nonPersistentFd
    requires Follows(cap, s, e, t)
    ensures Adds(s, e, t)
  {
    match e
    case Data(fd, bytes, isP, now) => ReadAdds(cap, s, fd, bytes, isP, now);
    case Arrival(client, now) => AcceptKeepsReads(cap, s, client, now);
    case Hangup(fd, addOk) => HangUpKeepsReads(s, fd, addOk);
    case Tick(now, addOk) => EvictKeepsReads(s, now, addOk);
    case Stop =>
  }

  lemma NextAdds(cap: nat, events: seq<Event>, states: seq<State>, k: nat)
    requires PossibleRun(cap, events, states) && k < |events| && EmptySlotClean(states[k])
    ensures EmptySlotClean(states[k + 1]) && Adds(states[k], events[k], states[k + 1])
  {
    ConnectionsInOrder(cap, events, states, k);
    assert FollowsAt(cap, events, states, k) && PossibleAt(events, states, k);
    if events[k].Data? {
      DeliveredToSlot(cap, states[k], events[k].fd);
    }
    StepEntered(cap, states[k], events[k], states[k + 1]);
    StepAdds(cap, states[k], events[k], states[k + 1]);
  }

  lemma NothingAtStart(s: State)
    requires s.history == [] && s.tally == ZERO_TALLY && s.books.demotedToQueue == Moved(0, 0)
    ensures EmptySlotClean(s) && ReadsOf(s) == BytesOf(s) == PacketsOf(s) == 0
  {
  }

  lemma FirstOnBooks(events: seq<Event>, states: seq<State>)
    requires |states| == |events| + 1
    requires EmptySlotClean(states[0]) && ReadsOf(states[0]) == BytesOf(states[0]) == PacketsOf(states[0]) == 0
    ensures OnBooks(events, states, 0)
  {
  }

  ghost predicate OnBooks(events: seq<Event>, states: seq<State>, k: nat)
    requires k <= |events| && |states| == |events| + 1
  {
    && EmptySlotClean(states[k])
    && ReadsOf(states[k]) == CountedReads(events, states, k)
    && BytesOf(states[k]) == CountedBytes(events, states, k)
    && PacketsOf(states[k]) == CountedPackets(events, states, k)
  }

  lemma NextOnBooks(events: seq<Event>, states: seq<State>, k: nat)
    requires 0 < k <= |events| && |states| == |events| + 1
    requires OnBooks(events, states, k - 1) && EmptySlotClean(states[k])
    requires Adds(states[k - 1], events[k - 1], states[k])
    ensures OnBooks(events, states, k)
  {
  }

  /** In every possible run each read delivered is on the books once, with all its bytes and its whole
      packets, except those that cost a connection its place. */
  lemma {:induction false} ReadsAccounted(cap: nat, events: seq<Event>, states: seq<State>, k: nat)
    requires PossibleRun(cap, events, states) && k <= |events|
    ensures OnBooks(events, states, k)
  {
    if k == 0 {
      NothingAtStart(states[0]);
      FirstOnBooks(events, states);
    } else {
      ReadsAccounted(cap, events, states, k - 1);
      NextAdds(cap, events, states, k - 1);
      NextOnBooks(events, states, k);
    }
  }

  // ---------------------------------------------------------------- pairing within a stretch

  predicate IsSlotRead(s: State, e: Event) {
    e.Data? && (e.fd == s.persistentFd || e.fd == s.nonPersistentFd)
  }

  function RoleOf(s: State, e: Event): Pairing.Role {
    if e.Data? && e.fd == s.persistentFd then Pairing.First else Pairing.Second
  }

  /** The reads of the two slots among events[from..until], by slot; other events are skipped. */
  function Trace(s: State, events: seq<Event>, from: nat, until: nat): seq<Pairing.Role>
    requires from <= until <= |events|
    decreases until
  {
    if from == until then []
    else Trace(s, events, from, until - 1) + ReadOf(s, events[until - 1])
  }

  function ReadOf(s: State, e: Event): seq<Pairing.Role> {
    if IsSlotRead(s, e) then [RoleOf(s, e)] else []
  }

  /** Reads, bytes and whole packets, rounded down read by read. */
  datatype Share = Share(times: int, bytes: int, packets: int)

  function AddShare(a: Share, b: Share): Share {
    Share(a.times + b.times, a.bytes + b.bytes, a.packets + b.packets)
  }

  function Part(s: State, e: Event, r: Pairing.Role): Share {
    if IsSlotRead(s, e) && RoleOf(s, e) == r then Share(1, e.bytes, e.bytes / PACKET_SIZE) else Share(0, 0, 0)
  }

  /** What one slot is sent. */
  function Sent(s: State, events: seq<Event>, from: nat, until: nat, r: Pairing.Role): Share
    requires from <= until <= |events|
    decreases until
  {
    if from == until then Share(0, 0, 0)
    else AddShare(Sent(s, events, from, until - 1, r), Part(s, events[until - 1], r))
  }

  /** What is remembered belongs to neither slot. */
  predicate Stale(s: State) {
    s.pick != NO_FD && s.pick != s.persistentFd && s.pick != s.nonPersistentFd
  }

  /** The remembered read of a slot stands before what follows. */
  function Remembered(s: State): seq<Pairing.Role> {
    if s.pick == NO_FD || Stale(s) then []
    else if s.pick == s.persistentFd then [Pairing.First]
    else [Pairing.Second]
  }

  /** The two-socket automaton, started with what is remembered; a stale read stops it. */
  function Automaton(s: State, events: seq<Event>, from: nat, until: nat): Pairing.Tally
    requires from <= until <= |events|
    decreases until
  {
    if from == until then
      Pairing.Tally(if Remembered(s) == [] then Pairing.Nothing else Pairing.Saw(Remembered(s)[0]), 0, 0, 0)
    else
      AutomatonStep(s, Automaton(s, events, from, until - 1), events[until - 1])
  }

  function AutomatonStep(s: State, c: Pairing.Tally, e: Event): Pairing.Tally {
    if IsSlotRead(s, e) && !Stale(s) then Pairing.Observe(c, RoleOf(s, e)) else c
  }

  function PickOf(s: State, pick: Pairing.Pick): int {
    match pick
    case Nothing => NO_FD
    case Saw(First) => s.persistentFd
    case Saw(Second) => s.nonPersistentFd
  }

  ghost predicate SameSlots(s: State, t: State) {
    t.persistentFd == s.persistentFd && t.nonPersistentFd == s.nonPersistentFd
  }

  /** From s to t the pair counts and the memory move as the automaton has. */
  ghost predicate PairedBy(s: State, c: Pairing.Tally, t: State) {
    && t.pick == (if Stale(s) then s.pick else PickOf(s, c.pick))
    && t.tally.both == s.tally.both + c.both
    && t.tally.persistent == s.tally.persistent + c.firstBeforeSecond
    && t.tally.nonPersistent == s.tally.nonPersistent + c.secondBeforeFirst
  }

  /** From s to t each slot has been credited with what it was sent. */
  ghost predicate FilledBy(s: State, first: Share, second: Share, t: State) {
    && Share(t.tally.perReads, t.tally.perBytes, t.tally.perPackets) ==
       AddShare(Share(s.tally.perReads, s.tally.perBytes, s.tally.perPackets), first)
    && Share(t.tally.nonPerReads, t.tally.nonPerBytes, t.tally.nonPerPackets) ==
       AddShare(Share(s.tally.nonPerReads, s.tally.nonPerBytes, s.tally.nonPerPackets), second)
  }

  /** A read of the slot with the given role. */
  function CountRead(t: State, r: Pairing.Role, bytes: nat, now: real): State {
    if r == Pairing.First then CountPersistent(t, bytes, now) else CountNonPersistent(t, bytes, now)
  }

  /** An event that leaves both slots as they are is a read counted there, or touches no counter. */
  lemma SlotsKept(cap: nat, t: State, e: Event, u: State)
    requires Distinct(t) && Follows(cap, t, e, u) && SameSlots(t, u)
    ensures IsSlotRead(t, e) ==> u == CountRead(t, RoleOf(t, e), e.bytes, e.now)
    ensures !IsSlotRead(t, e) ==> u.pick == t.pick && u.tally == t.tally
  {
    if t.queue != [] {
      assert t.queue[0].fd !in {t.nonPersistentFd, NO_FD};
    }
  }

  lemma PairedRead(s: State, c: Pairing.Tally, t: State, r: Pairing.Role, bytes: nat, now: real)
    requires Paired(s) && s.persistentFd != s.nonPersistentFd && SameSlots(s, t) && PairedBy(s, c, t)
    ensures PairedBy(s, if Stale(s) then c else Pairing.Observe(c, r), CountRead(t, r, bytes, now))
  {
  }

  lemma CountedStep(
    cap: nat, s: State, c: Pairing.Tally, first: Share, second: Share, t: State, e: Event, u: State)
    requires Paired(s) && Distinct(t) && SameSlots(s, t) && SameSlots(s, u)
    requires PairedBy(s, c, t) && FilledBy(s, first, second, t) && Follows(cap, t, e, u)
    ensures PairedBy(s, AutomatonStep(s, c, e), u)
    ensures FilledBy(s, AddShare(first, Part(s, e, Pairing.First)), AddShare(second, Part(s, e, Pairing.Second)), u)
  {
    SlotsKept(cap, t, e, u);
    if IsSlotRead(s, e) {
      PairedRead(s, c, t, RoleOf(s, e), e.bytes, e.now);
    }
  }

  /** From states[from] to states[until], over the events in between. */
  ghost predicate CountedAlong(events: seq<Event>, states: seq<State>, from: nat, until: nat)
    requires from <= until <= |events| && |states| == |events| + 1
  {
    var s, t := states[from], states[until];
    && PairedBy(s, Automaton(s, events, from, until), t)
    && FilledBy(s, Sent(s, events, from, until, Pairing.First), Sent(s, events, from, until, Pairing.Second), t)
  }

  /** Both slots hold the same connections throughout. */
  ghost predicate SlotsHeld(states: seq<State>, from: nat, until: nat)
    requires from <= until < |states|
  {
    && Paired(states[from])
    && forall k :: from <= k <= until ==> SameSlots(states[from], states[k])
  }

  lemma NextCounted(cap: nat, events: seq<Event>, states: seq<State>, from: nat, until: nat)
    requires PossibleRun(cap, events, states) && from < until <= |events| && SlotsHeld(states, from, until)
    requires CountedAlong(events, states, from, until - 1)
    ensures CountedAlong(events, states, from, until)
  {
    var s, k := states[from], until - 1;
    ConnectionsInOrder(cap, events, states, k);
    assert FollowsAt(cap, events, states, k) && SameSlots(s, states[k]) && SameSlots(s, states[until]);
    CountedStep(cap, s, Automaton(s, events, from, k), Sent(s, events, from, k, Pairing.First),
                Sent(s, events, from, k, Pairing.Second), states[k], events[k], states[until]);
  }

  /** While both slots keep their connections, over any number of rounds and whatever is remembered:
      pairs are counted as the automaton counts them, and reads, bytes and packets are added to the slot
      they came from. */
  lemma {:induction false} StretchPairs(cap: nat, events: seq<Event>, states: seq<State>, from: nat, until: nat)
    requires PossibleRun(cap, events, states) && from <= until <= |events| && SlotsHeld(states, from, until)
    ensures CountedAlong(events, states, from, until)
    decreases until
  {
    if until > from {
      StretchPairs(cap, events, states, from, until - 1);
      NextCounted(cap, events, states, from, until);
    }
  }

  /** Both slots stay as they are, and one of them is empty. */
  ghost predicate OneSlotHeld(states: seq<State>, from: nat, until: nat)
    requires from <= until < |states|
  {
    && !Paired(states[from])
    && forall k :: from <= k <= until ==> SameSlots(states[from], states[k])
  }

  /** From s to t nothing is paired and nothing new is remembered. */
  ghost predicate NothingPaired(s: State, t: State) {
    && t.pick == s.pick && t.tally.both == s.tally.both
    && t.tally.persistent == s.tally.persistent && t.tally.nonPersistent == s.tally.nonPersistent
  }

  lemma LoneStep(cap: nat, s: State, first: Share, second: Share, t: State, e: Event, u: State)
    requires !Paired(t) && Distinct(t) && SameSlots(s, t) && SameSlots(t, u) && Follows(cap, t, e, u)
    requires NothingPaired(s, t) && FilledBy(s, first, second, t)
    ensures NothingPaired(s, u)
    ensures FilledBy(s, AddShare(first, Part(s, e, Pairing.First)), AddShare(second, Part(s, e, Pairing.Second)), u)
  {
    SlotsKept(cap, t, e, u);
  }

  ghost predicate LoneAlong(events: seq<Event>, states: seq<State>, from: nat, until: nat)
    requires from <= until <= |events| && |states| == |events| + 1
  {
    var s, t := states[from], states[until];
    && NothingPaired(s, t)
    && FilledBy(s, Sent(s, events, from, until, Pairing.First), Sent(s, events, from, until, Pairing.Second), t)
  }

  lemma NextLone(cap: nat, events: seq<Event>, states: seq<State>, from: nat, until: nat)
    requires PossibleRun(cap, events, states) && from < until <= |events| && OneSlotHeld(states, from, until)
    requires LoneAlong(events, states, from, until - 1)
    ensures LoneAlong(events, states, from, until)
  {
    var s, k := states[from], until - 1;
    ConnectionsInOrder(cap, events, states, k);
    assert FollowsAt(cap, events, states, k) && SameSlots(s, states[k]) && SameSlots(s, states[until]);
    LoneStep(cap, s, Sent(s, events, from, k, Pairing.First), Sent(s, events, from, k, Pairing.Second),
             states[k], events[k], states[until]);
  }

  /** While one slot is empty and the other keeps its connection, or both are empty: reads, bytes and
      packets are added to the slot they came from, and nothing is paired or remembered. */
  lemma {:induction false} LoneStretch(cap: nat, events: seq<Event>, states: seq<State>, from: nat, until: nat)
    requires PossibleRun(cap, events, states) && from <= until <= |events| && OneSlotHeld(states, from, until)
    ensures LoneAlong(events, states, from, until)
    decreases until
  {
    if until > from {
      LoneStretch(cap, events, states, from, until - 1);
      NextLone(cap, events, states, from, until);
    }
  }

  /** The automaton counts the remembered read and the trace, or stands still. */
  lemma {:induction false} AutomatonCounts(s: State, events: seq<Event>, from: nat, until: nat)
    requires from <= until <= |events|
    ensures Automaton(s, events, from, until) ==
            if Stale(s) then Pairing.Tally(Pairing.Nothing, 0, 0, 0)
            else Pairing.Count(Remembered(s) + Trace(s, events, from, until))
    decreases until
  {
    if until > from {
      var trace, e := Trace(s, events, from, until - 1), events[until - 1];
      AutomatonCounts(s, events, from, until - 1);
      AppendRead(Remembered(s), trace, ReadOf(s, e));
    } else {
      assert Remembered(s) + [] == Remembered(s);
      if Remembered(s) != [] {
        Pairing.CountOne(Remembered(s)[0]);
      }
    }
  }

  lemma AppendRead(before: seq<Pairing.Role>, trace: seq<Pairing.Role>, more: seq<Pairing.Role>)
    requires |more| <= 1
    ensures Pairing.Count(before + (trace + more)) ==
            if more == [] then Pairing.Count(before + trace)
            else Pairing.Observe(Pairing.Count(before + trace), more[0])
  {
    if more == [] {
      assert trace + more == trace;
    } else {
      assert before + (trace + more) == before + trace + [more[0]];
      Pairing.CountSnoc(before + trace, more[0]);
    }
  }

  /** The pairs counted are as many as disjoint stretches with a read of both connections can be cut,
      exactly when what was remembered is not stale or one of the connections sent nothing. */
  lemma StretchPairsOptimalIff(cap: nat, events: seq<Event>, states: seq<State>, from: nat, until: nat)
    requires PossibleRun(cap, events, states) && from <= until <= |events| && SlotsHeld(states, from, until)
    ensures var s := states[from];
            var trace := Remembered(s) + Trace(s, events, from, until);
            Pairing.Optimal(trace, states[until].tally.both - s.tally.both) <==>
            !Stale(s) || !(Pairing.First in trace && Pairing.Second in trace)
  {
    var trace := Remembered(states[from]) + Trace(states[from], events, from, until);
    StretchPairs(cap, events, states, from, until);
    AutomatonCounts(states[from], events, from, until);
    Pairing.PairingIsOptimal(trace);
    Pairing.NoPairIff(trace);
  }
}
