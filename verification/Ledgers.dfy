/** What is in the books of the connection server after any run, told from the events and the guards they
    met: how every read was booked, what every event was worth to the overall counters, where every
    connection went, and what made the server stop. */
module Ledgers {
  import opened Statistics
  import opened ConnectionModel
  import opened ConnectionRuns

  function One(b: bool): int {
    if b then 1 else 0
  }

  // ---------------------------------------------------------------- how a read is booked

  /** The kind of connection that a read is booked for. */
  datatype Side = PersistentSide | NonPersistentSide | NoSide

  /** A read of the persistent connection is booked for that kind if it carries the mark; without the mark
      it is the first one of the empty slot, or lost. */
  function Booked(s: State, e: Event): Side {
    if !e.Data? then NoSide
    else if e.fd == s.persistentFd then
      if e.isP then PersistentSide else if s.nonPersistentFd == NO_FD then NonPersistentSide else NoSide
    else if e.fd == s.nonPersistentFd then NonPersistentSide
    else NoSide
  }

  /** A read without the mark moves the persistent connection on, to the slot or the queue. */
  predicate Moves(cap: nat, s: State, e: Event) {
    && e.Data? && e.fd == s.persistentFd && !e.isP
    && (s.nonPersistentFd == NO_FD || |s.queue| < cap)
  }

  /** With both slots taken, a read of one completes the pair that a read of the other has begun. */
  predicate Completes(s: State, e: Event) {
    && s.persistentFd != NO_FD && s.nonPersistentFd != NO_FD
    && match Booked(s, e)
       case PersistentSide => s.pick == s.nonPersistentFd
       case NonPersistentSide => s.pick == s.persistentFd
       case NoSide => false
  }

  /** What an event is worth to the overall counters; `t` are the counters of the current connection. */
  function Worth(cap: nat, t: Tally, s: State, e: Event): Tally {
    var per, nonPer, pair := Booked(s, e).PersistentSide?, Booked(s, e).NonPersistentSide?, Completes(s, e);
    var bytes := if e.Data? then e.bytes else 0;
    var carried := One(Moves(cap, s, e));
    Tally(
      One(pair), One(pair && nonPer), One(pair && per), One(per), One(nonPer),
      One(per) * bytes, One(nonPer) * bytes + carried * t.perBytes,
      One(per) * (bytes / PACKET_SIZE), One(nonPer) * (bytes / PACKET_SIZE) + carried * t.perPackets)
  }

  /** The event closes the connection in the slot: it hangs up, or the check finds it idle for too long. */
  predicate Releases(t: Tally, s: State, e: Event) {
    match e
    case Hangup(fd, _) => fd == s.nonPersistentFd && fd != s.persistentFd
    case Tick(now, _) => s.nonPersistentFd != NO_FD && now - s.nonPerSince >= INACTIVE_TIMEOUT && t.nonPerBytes == 0
    case _ => false
  }

  /** The counters of the current connection: everything since the slot was emptied, less what was carried
      away from the persistent side, and from the other too when it was carried to the queue. */
  function NextTally(cap: nat, t: Tally, s: State, e: Event): Tally {
    if Releases(t, s, e) then ZERO_TALLY
    else
      var u := AddTally(t, Worth(cap, t, s, e));
      var carried := One(Moves(cap, s, e));
      var queued := if s.nonPersistentFd == NO_FD then 0 else carried;
      u.(perBytes := u.perBytes - carried * t.perBytes, nonPerBytes := u.nonPerBytes - queued * t.perBytes,
         perPackets := u.perPackets - carried * t.perPackets, nonPerPackets := u.nonPerPackets - queued * t.perPackets)
  }

  ghost function CurrentTally(cap: nat, events: seq<Event>, states: seq<State>, k: nat): Tally
    requires k <= |events| && |states| == |events| + 1
  {
    if k == 0 then ZERO_TALLY
    else NextTally(cap, CurrentTally(cap, events, states, k - 1), states[k - 1], events[k - 1])
  }

  /** The worth of all events so far. */
  ghost function Worths(cap: nat, events: seq<Event>, states: seq<State>, k: nat): Tally
    requires k <= |events| && |states| == |events| + 1
  {
    if k == 0 then ZERO_TALLY
    else
      AddTally(Worths(cap, events, states, k - 1),
        Worth(cap, CurrentTally(cap, events, states, k - 1), states[k - 1], events[k - 1]))
  }

  /** The tallies recorded so far: one for each release. */
  ghost function Tallies(cap: nat, events: seq<Event>, states: seq<State>, k: nat): seq<Tally>
    requires k <= |events| && |states| == |events| + 1
  {
    if k == 0 then []
    else
      var t := CurrentTally(cap, events, states, k - 1);
      Tallies(cap, events, states, k - 1) + if Releases(t, states[k - 1], events[k - 1]) then [t] else []
  }

  /** An empty slot has nothing on the books. */
  ghost predicate EmptySlotClean(s: State) {
    s.nonPersistentFd == NO_FD ==> s.tally.nonPerBytes == 0 && s.tally.nonPerPackets == 0
  }

  /** Counters of the current connection, and what has been carried, on both sides. */
  function Carried(b: Books): Tally {
    Tally(0, 0, 0, 0, 0,
      b.demotedToSlot.bytes + b.demotedToQueue.bytes, b.demotedToQueue.bytes,
      b.demotedToSlot.packets + b.demotedToQueue.packets, b.demotedToQueue.packets)
  }

  /** What the overall counters hold: the closed connections, the current one and what was carried. */
  function All(s: State): Tally {
    AddTally(Overall(s), Carried(s.books))
  }

  /** What one event does to the tally, the overall counters and the record. */
  ghost predicate Entered(cap: nat, s: State, e: Event, t: State) {
    && t.tally == NextTally(cap, s.tally, s, e)
    && All(t) == AddTally(All(s), Worth(cap, s.tally, s, e))
    && t.history == s.history + (if Releases(s.tally, s, e) then [Recorded(s)] else [])
    && EmptySlotClean(t)
  }

  lemma NothingEntered(cap: nat, s: State, e: Event, t: State)
    requires EmptySlotClean(s) && t.tally == s.tally && t.history == s.history
    requires t.books.demotedToSlot == s.books.demotedToSlot && t.books.demotedToQueue == s.books.demotedToQueue
    requires !Releases(s.tally, s, e) && Booked(s, e).NoSide? && !Moves(cap, s, e)
    requires t.nonPersistentFd == NO_FD ==> s.nonPersistentFd == NO_FD
    ensures Entered(cap, s, e, t)
  {
    assert s.history + [] == s.history;
  }

  lemma ClosingEntered(cap: nat, s: State, e: Event, gone: int, addOk: bool)
    requires Releases(s.tally, s, e) && Booked(s, e).NoSide? && !Moves(cap, s, e)
    ensures Entered(cap, s, e, Promote(Release(Drop(s, gone)), addOk))
  {
    ClosingRecords(s, gone, addOk);
  }

  /** What enters the tally enters the overall counters. */
  lemma TallyEntered(cap: nat, s: State, e: Event, t: State)
    requires t.history == s.history && t.books == s.books && !Releases(s.tally, s, e) && !Moves(cap, s, e)
    requires t.tally == AddTally(s.tally, Worth(cap, s.tally, s, e)) && EmptySlotClean(t)
    ensures Entered(cap, s, e, t)
  {
    assert s.history + [] == s.history;
  }

  lemma PersistentReadEntered(cap: nat, s: State, e: Event, t: State)
    requires EmptySlotClean(s) && Distinct(s) && e.Data? && e.fd == s.persistentFd && e.isP
    requires t == CountPersistent(s, e.bytes, e.now)
    ensures Entered(cap, s, e, t)
  {
    TallyEntered(cap, s, e, t);
  }

  lemma NonPersistentReadEntered(cap: nat, s: State, e: Event, t: State)
    requires EmptySlotClean(s) && Distinct(s) && e.Data? && e.fd == s.nonPersistentFd
    requires t == CountNonPersistent(s, e.bytes, e.now)
    ensures Entered(cap, s, e, t)
  {
    TallyEntered(cap, s, e, t);
  }

  lemma MovedReadEntered(cap: nat, s: State, e: Event, t: State)
    requires EmptySlotClean(s) && Distinct(s) && e.Data? && e.fd == s.persistentFd && !e.isP
    requires s.nonPersistentFd == NO_FD && t == CountNonPersistent(DemoteToSlot(s), e.bytes, e.now)
    ensures Entered(cap, s, e, t)
  {
    assert s.history + [] == s.history;
  }

  lemma LostReadEntered(cap: nat, s: State, e: Event, t: State)
    requires EmptySlotClean(s) && Distinct(s) && e.Data? && e.fd == s.persistentFd && !e.isP
    requires s.nonPersistentFd != NO_FD && t == Demote(cap, s)
    ensures Entered(cap, s, e, t)
  {
    assert s.history + [] == s.history;
  }

  lemma ReadEntered(cap: nat, s: State, e: Event, t: State)
    requires EmptySlotClean(s) && Distinct(s) && e.Data? && Follows(cap, s, e, t)
    ensures Entered(cap, s, e, t)
  {
    if e.fd == s.persistentFd && e.isP {
      PersistentReadEntered(cap, s, e, t);
    } else if e.fd == s.persistentFd && s.nonPersistentFd == NO_FD {
      MovedReadEntered(cap, s, e, t);
    } else if e.fd == s.persistentFd {
      LostReadEntered(cap, s, e, t);
    } else if e.fd == s.nonPersistentFd {
      NonPersistentReadEntered(cap, s, e, t);
    } else {
      NothingEntered(cap, s, e, t);
    }
  }

  lemma StepEntered(cap: nat, s: State, e: Event, t: State)
    requires EmptySlotClean(s) && Distinct(s) && Follows(cap, s, e, t)
    ensures Entered(cap, s, e, t)
  {
    match e
    case Arrival(_, _) => NothingEntered(cap, s, e, t);
    case Data(_, _, _, _) => ReadEntered(cap, s, e, t);
    case Hangup(fd, addOk) => HangUpEntered(cap, s, fd, addOk);
    case Tick(now, addOk) =>
      if Releases(s.tally, s, e) {
        ClosingEntered(cap, s, e, s.nonPersistentFd, addOk);
      } else {
        NothingEntered(cap, s, e, t);
      }
    case Stop => NothingEntered(cap, s, e, t);
  }

  lemma HangUpEntered(cap: nat, s: State, fd: nat, addOk: bool)
    requires EmptySlotClean(s) && Distinct(s)
    ensures Entered(cap, s, Hangup(fd, addOk), HangUp(s, fd, addOk))
  {
    var e, t := Hangup(fd, addOk), HangUp(s, fd, addOk);
    if Releases(s.tally, s, e) {
      var u := Promote(Release(Drop(s, fd)), addOk);
      ClosingEntered(cap, s, e, fd, addOk);
      assert t == u || t == u.(running := false);
    } else {
      NothingEntered(cap, s, e, t);
    }
  }

  ghost predicate InBooks(cap: nat, events: seq<Event>, states: seq<State>, k: nat)
    requires k <= |events| && |states| == |events| + 1
  {
    && EmptySlotClean(states[k])
    && states[k].tally == CurrentTally(cap, events, states, k)
    && All(states[k]) == Worths(cap, events, states, k)
    && TalliesOf(states[k].history) == Tallies(cap, events, states, k)
  }

  function TalliesOf(history: seq<Closed>): seq<Tally> {
    seq(|history|, i requires 0 <= i < |history| => history[i].tally)
  }

  lemma NothingKept(s: State)
    requires s.tally == ZERO_TALLY && s.history == []
    requires s.books.demotedToSlot == s.books.demotedToQueue == Moved(0, 0)
    ensures All(s) == s.tally && EmptySlotClean(s) && |TalliesOf(s.history)| == 0
  {
    assert TotalTally(s.history) == ZERO_TALLY;
  }

  lemma NoneWorth(cap: nat, events: seq<Event>, states: seq<State>, k: nat)
    requires |states| == |events| + 1 && k == 0
    ensures CurrentTally(cap, events, states, k) == Worths(cap, events, states, k) == ZERO_TALLY
    ensures |Tallies(cap, events, states, k)| == 0
  {
  }

  lemma StartInBooks(cap: nat, events: seq<Event>, states: seq<State>, k: nat)
    requires IsRun(cap, events, states) && k == 0
    ensures InBooks(cap, events, states, k)
  {
    NothingKept(states[k]);
    NoneWorth(cap, events, states, k);
  }

  lemma NextInBooks(cap: nat, events: seq<Event>, states: seq<State>, k: nat)
    requires PossibleRun(cap, events, states) && 0 < k <= |events| && InBooks(cap, events, states, k - 1)
    ensures InBooks(cap, events, states, k)
  {
    ConnectionsInOrder(cap, events, states, k - 1);
    assert FollowsAt(cap, events, states, k - 1);
    StepEntered(cap, states[k - 1], events[k - 1], states[k]);
  }

  /** In every possible run: the counters of the current connection are those of the events since the last
      release, each release has recorded them, and the overall counters are what the events are worth. */
  lemma {:induction false} BooksAreEvents(cap: nat, events: seq<Event>, states: seq<State>, k: nat)
    requires PossibleRun(cap, events, states) && k <= |events|
    ensures InBooks(cap, events, states, k)
  {
    if k == 0 {
      StartInBooks(cap, events, states, k);
    } else {
      BooksAreEvents(cap, events, states, k - 1);
      NextInBooks(cap, events, states, k);
    }
  }

  // ---------------------------------------------------------------- the remembered read

  /** In every possible run, what is remembered after each event. */
  lemma NextPick(cap: nat, events: seq<Event>, states: seq<State>, k: nat)
    requires PossibleRun(cap, events, states) && k < |events|
    ensures var s, e := states[k], events[k];
            states[k + 1].pick ==
            if Completes(s, e) then NO_FD
            else if !Booked(s, e).NoSide? && s.pick == NO_FD && s.persistentFd != NO_FD && s.nonPersistentFd != NO_FD
                 then e.fd
            else s.pick
  {
    ConnectionsInOrder(cap, events, states, k);
    assert FollowsAt(cap, events, states, k);
    PickStep(cap, states[k], events[k], states[k + 1]);
  }

  lemma PickStep(cap: nat, s: State, e: Event, t: State)
    requires Distinct(s) && Follows(cap, s, e, t)
    ensures t.pick ==
            if Completes(s, e) then NO_FD
            else if !Booked(s, e).NoSide? && s.pick == NO_FD && s.persistentFd != NO_FD && s.nonPersistentFd != NO_FD
                 then e.fd
            else s.pick
  {
    if e.Data? && e.fd == s.persistentFd && !e.isP {
      assert Demote(cap, s).persistentFd == NO_FD && Demote(cap, s).pick == s.pick;
    }
  }

  // ---------------------------------------------------------------- connections

  /** The event brings a connection. */
  predicate Admits(e: Event) {
    e.Arrival? && e.client >= 0
  }

  /** The event leaves a connection without a place: both slots are taken and the queue is full. */
  predicate Rejects(cap: nat, s: State, e: Event) {
    && s.persistentFd != NO_FD && s.nonPersistentFd != NO_FD && |s.queue| >= cap
    && (Admits(e) || (e.Data? && e.fd == s.persistentFd && !e.isP))
  }

  /** The slot is emptied, but the connection at the head of the queue cannot be registered. */
  predicate Refuses(s: State, e: Event) {
    && Releases(s.tally, s, e) && s.queue != []
    && (s.queue[0].fd in s.registered || !AddOk(e))
  }

  /** Connections closed by an event: one that hangs up or is idle, and one that cannot follow it. */
  function Closes(s: State, e: Event): int {
    One(e.Hangup? || (e.Tick? && Releases(s.tally, s, e))) + One(Refuses(s, e))
  }

  /** Connections so far. */
  datatype Counts = Counts(admitted: int, rejected: int, closed: int)

  ghost function Connections(cap: nat, events: seq<Event>, states: seq<State>, k: nat): Counts
    requires k <= |events| && |states| == |events| + 1
  {
    if k == 0 then Counts(0, 0, 0)
    else
      var c, s, e := Connections(cap, events, states, k - 1), states[k - 1], events[k - 1];
      Counts(c.admitted + One(Admits(e)), c.rejected + One(Rejects(cap, s, e)), c.closed + Closes(s, e))
  }

  predicate IsCounted(s: State, c: Counts) {
    && s.books.accepted == c.admitted && s.rejected == c.rejected && s.books.closed == c.closed
    && s.active == c.admitted - c.rejected - c.closed
  }

  lemma ClosingCounts(s: State, e: Event)
    requires Distinct(s) && Releases(s.tally, s, e)
    ensures var t := Promote(Release(Drop(s, s.nonPersistentFd)), AddOk(e));
            && t.books.closed == s.books.closed + 1 + One(Refuses(s, e))
            && t.books.accepted == s.books.accepted && t.rejected == s.rejected
  {
    assert s.queue != [] ==> s.queue[0].fd != s.nonPersistentFd;
  }

  lemma ConnectionsStep(cap: nat, s: State, e: Event, t: State)
    requires Distinct(s) && Follows(cap, s, e, t)
    ensures t.books.accepted == s.books.accepted + One(Admits(e))
    ensures t.rejected == s.rejected + One(Rejects(cap, s, e))
    ensures t.books.closed == s.books.closed + Closes(s, e)
  {
    if Releases(s.tally, s, e) {
      ClosingCounts(s, e);
    }
  }

  lemma NextConnections(cap: nat, events: seq<Event>, states: seq<State>, k: nat)
    requires PossibleRun(cap, events, states) && 0 < k <= |events| && Bounded(cap, states[k])
    requires IsCounted(states[k - 1], Connections(cap, events, states, k - 1))
    ensures IsCounted(states[k], Connections(cap, events, states, k))
  {
    ConnectionsInOrder(cap, events, states, k - 1);
    assert FollowsAt(cap, events, states, k - 1);
    ConnectionsStep(cap, states[k - 1], events[k - 1], states[k]);
  }

  /** In every possible run: the connections reported as rejected are those that found no place, accepted
      are those that came, closed those that hung up, were idle or could not be registered; and the active
      ones are the rest. */
  lemma {:induction false} ConnectionsAreEvents(cap: nat, events: seq<Event>, states: seq<State>, k: nat)
    requires PossibleRun(cap, events, states) && k <= |events|
    ensures IsCounted(states[k], Connections(cap, events, states, k))
  {
    ConnectionsInOrder(cap, events, states, k);
    if k > 0 {
      ConnectionsAreEvents(cap, events, states, k - 1);
      NextConnections(cap, events, states, k);
    }
  }

  // ---------------------------------------------------------------- stopping

  /** A signal stops the server, and so does a hang-up that leaves nobody active and nobody waiting, unless
      it is one after which the head of the queue could not be registered. */
  predicate Stops(s: State, e: Event, t: State) {
    e.Stop? || (e.Hangup? && t.active == 0 && t.queue == [] && !Refuses(s, e))
  }

  lemma StopsStep(cap: nat, s: State, e: Event, t: State)
    requires Distinct(s) && Follows(cap, s, e, t)
    ensures t.running <==> s.running && !Stops(s, e, t)
  {
    if s.queue != [] {
      assert s.queue[0].fd != s.nonPersistentFd;
    }
  }

  ghost predicate StopsAt(events: seq<Event>, states: seq<State>, k: nat)
    requires k < |events| && |states| == |events| + 1
  {
    Stops(states[k], events[k], states[k + 1])
  }

  lemma {:induction false} RunningIff(cap: nat, events: seq<Event>, states: seq<State>, k: nat)
    requires PossibleRun(cap, events, states) && k <= |events|
    ensures states[k].running <==> forall i :: 0 <= i < k ==> !StopsAt(events, states, i)
  {
    if k > 0 {
      RunningIff(cap, events, states, k - 1);
      ConnectionsInOrder(cap, events, states, k - 1);
      assert FollowsAt(cap, events, states, k - 1);
      StopsStep(cap, states[k - 1], events[k - 1], states[k]);
      assert StopsAt(events, states, k - 1) == Stops(states[k - 1], events[k - 1], states[k]);
    }
  }
}
