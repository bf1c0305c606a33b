/** Properties of all runs of the connection server. */
module ConnectionRuns {
  import opened Statistics
  import opened ConnectionModel

  // ---------------------------------------------------------------- the environment

  predicate Queued(s: State, fd: int) {
    exists i :: 0 <= i < |s.queue| && s.queue[i].fd == fd
  }

  predicate Held(s: State, fd: int) {
    fd != NO_FD && (fd == s.persistentFd || fd == s.nonPersistentFd || Queued(s, fd))
  }

  /** What can be handled.  Accept returns a descriptor that is not open.  Data comes from registered
      descriptors.  A receive also fails on a descriptor that was ready when the batch was taken and has been
      closed since, which is handled like a hang-up.  Nothing is handled for a queued descriptor. */
  predicate Possible(s: State, e: Event) {
    match e
    case Arrival(client, _) => client < 0 || !Held(s, client)
    case Data(fd, bytes, _, _) => fd in s.registered && !Queued(s, fd) && bytes > 0
    case Hangup(fd, _) => !Queued(s, fd)
    case Tick(_, _) => true
    case Stop => true
  }

  /** The event is for a descriptor that is closed by now. */
  predicate IsStale(s: State, e: Event) {
    e.Hangup? && !Held(s, e.fd)
  }

  /** One possible step. */
  ghost predicate Linked(cap: nat, s: State, e: Event, t: State) {
    Possible(s, e) && Follows(cap, s, e, t)
  }

  ghost predicate PossibleRun(cap: nat, events: seq<Event>, states: seq<State>) {
    && IsRun(cap, events, states)
    && forall k :: 0 <= k < |events| ==> PossibleAt(events, states, k)
  }

  ghost predicate PossibleAt(events: seq<Event>, states: seq<State>, k: nat)
    requires k < |events| && |states| == |events| + 1
  {
    Possible(states[k], events[k])
  }

  // ---------------------------------------------------------------- pairing

  /** Reads of both slots since the start, by slot, and pairs, over closed and current connections. */
  function Overall(s: State): Tally {
    AddTally(TotalTally(s.history), s.tally)
  }

  /** Every pair spends two reads, and a remembered read is not spent yet. */
  ghost predicate Potential(pick: int, t: Tally) {
    && 2 * t.both + (if pick != NO_FD then 1 else 0) <= t.perReads + t.nonPerReads
    && t.persistent + t.nonPersistent == t.both
  }

  ghost predicate PairingPotential(s: State) {
    Potential(s.pick, Overall(s))
  }

  lemma CountKeepsPairing(s: State, bytes: nat, now: real)
    requires PairingPotential(s)
    ensures PairingPotential(CountPersistent(s, bytes, now))
    ensures PairingPotential(CountNonPersistent(s, bytes, now))
  {
  }

  lemma DemoteKeepsPairing(cap: nat, s: State)
    requires PairingPotential(s)
    ensures PairingPotential(Demote(cap, s))
  {
  }

  lemma ReadKeepsPairing(cap: nat, s: State, fd: nat, bytes: nat, isP: bool, now: real)
    requires PairingPotential(s)
    ensures PairingPotential(Read(cap, s, fd, bytes, isP, now))
  {
    DemoteKeepsPairing(cap, s);
    CountKeepsPairing(s, bytes, now);
    CountKeepsPairing(Demote(cap, s), bytes, now);
  }

  lemma ClosingKeepsPairing(s: State, addOk: bool)
    requires PairingPotential(s)
    ensures PairingPotential(Release(s)) && PairingPotential(Promote(Release(s), addOk))
  {
  }

  lemma HangUpKeepsPairing(s: State, fd: nat, addOk: bool)
    requires PairingPotential(s)
    ensures PairingPotential(HangUp(s, fd, addOk))
  {
    assert PairingPotential(Drop(s, fd));
    ClosingKeepsPairing(Drop(s, fd), addOk);
  }

  lemma EvictKeepsPairing(s: State, now: real, addOk: bool)
    requires PairingPotential(s)
    ensures PairingPotential(Evict(s, now, addOk))
  {
    assert PairingPotential(Drop(s, s.nonPersistentFd));
    ClosingKeepsPairing(Drop(s, s.nonPersistentFd), addOk);
  }

  lemma StepKeepsPairing(cap: nat, s: State, e: Event, t: State)
    requires PairingPotential(s) && Follows(cap, s, e, t)
    ensures PairingPotential(t)
  {
    match e
    case Arrival(_, _) =>
    case Data(fd, bytes, isP, now) => ReadKeepsPairing(cap, s, fd, bytes, isP, now);
    case Hangup(fd, addOk) => HangUpKeepsPairing(s, fd, addOk);
    case Tick(now, addOk) => EvictKeepsPairing(s, now, addOk);
    case Stop =>
  }

  lemma NothingPaired(s: State)
    requires s.history == [] && s.tally == ZERO_TALLY && s.pick == NO_FD
    ensures PairingPotential(s)
  {
    assert TotalTally(s.history) == ZERO_TALLY;
  }

  lemma NextKeepsPairing(cap: nat, events: seq<Event>, states: seq<State>, k: nat)
    requires IsRun(cap, events, states) && k < |events| && PairingPotential(states[k])
    ensures PairingPotential(states[k + 1])
  {
    assert FollowsAt(cap, events, states, k);
    StepKeepsPairing(cap, states[k], events[k], states[k + 1]);
  }

  lemma {:induction false} PairingPotentialHolds(cap: nat, events: seq<Event>, states: seq<State>, k: nat)
    requires IsRun(cap, events, states) && k < |states|
    ensures PairingPotential(states[k])
  {
    if k == 0 {
      NothingPaired(states[0]);
    } else {
      PairingPotentialHolds(cap, events, states, k - 1);
      NextKeepsPairing(cap, events, states, k - 1);
    }
  }

  lemma Extend(events: seq<Event>, states: seq<State>, e: Event, t: State) returns (es: seq<Event>, ss: seq<State>)
    requires PossibleRun(10, events, states)
    requires Linked(10, states[|events|], e, t)
    ensures PossibleRun(10, es, ss) && ss[|es|] == t
  {
    RunSnoc(10, events, states, e, t);
    es, ss := events + [e], states + [t];
    forall k | 0 <= k < |es| ensures PossibleAt(es, ss, k) {
      assert k < |events| ==> PossibleAt(events, states, k);
    }
  }

  // ---------------------------------------------------------------- closed connections

  /** A release records the connection that is closed, and nothing else changes the record. */
  ghost predicate Records(s: State, t: State) {
    if t.books.releases == s.books.releases then t.history == s.history
    else t.books.releases == s.books.releases + 1 && t.history == s.history + [Recorded(s)]
  }

  lemma ClosingRecords(s: State, gone: int, addOk: bool)
    ensures var t := Promote(Release(Drop(s, gone)), addOk);
            Records(s, t) && t.books.releases == s.books.releases + 1 && t.tally == ZERO_TALLY
  {
  }

  lemma ReadRecords(cap: nat, s: State, fd: nat, bytes: nat, isP: bool, now: real)
    ensures var t := Read(cap, s, fd, bytes, isP, now); t.history == s.history && t.books.releases == s.books.releases
  {
  }

  lemma AcceptRecords(cap: nat, s: State, client: int, now: real)
    ensures var t := Accept(cap, s, client, now); t.history == s.history && t.books.releases == s.books.releases
  {
  }

  lemma HangUpRecords(s: State, fd: nat, addOk: bool)
    ensures Records(s, HangUp(s, fd, addOk))
    ensures fd == s.nonPersistentFd != s.persistentFd ==> |HangUp(s, fd, addOk).history| == |s.history| + 1
  {
    ClosingRecords(s, fd, addOk);
  }

  lemma HistoryStep(cap: nat, s: State, e: Event, t: State)
    requires Follows(cap, s, e, t)
    ensures Records(s, t)
  {
    match e
    case Arrival(client, now) => AcceptRecords(cap, s, client, now);
    case Data(fd, bytes, isP, now) => ReadRecords(cap, s, fd, bytes, isP, now);
    case Hangup(fd, addOk) => HangUpRecords(s, fd, addOk);
    case Tick(now, addOk) => if Inactive(s, now) { ClosingRecords(s, s.nonPersistentFd, addOk); }
    case Stop =>
  }

  // ---------------------------------------------------------------- connection accounting

  function Occupied(fd: int): nat {
    if fd == NO_FD then 0 else 1
  }

  function Holding(s: State): nat {
    Occupied(s.persistentFd) + Occupied(s.nonPersistentFd) + |s.queue|
  }

  /** How far the active count has fallen behind the connections held. */
  function Missing(s: State): int {
    Holding(s) - s.active
  }

  /** The active count is the connections held. */
  predicate Accounted(s: State) {
    s.active == Holding(s)
  }

  /** The queue is within its bound, and accepted is active plus rejected plus closed. */
  predicate Bounded(cap: nat, s: State) {
    |s.queue| <= cap && s.books.accepted == s.active + s.rejected + s.books.closed
  }

  ghost predicate Distinct(s: State) {
    && s.persistentFd >= NO_FD && s.nonPersistentFd >= NO_FD
    && (s.persistentFd == NO_FD || s.persistentFd != s.nonPersistentFd)
    && (forall i :: 0 <= i < |s.queue| ==>
          s.queue[i].fd >= 0 && s.queue[i].fd != s.persistentFd && s.queue[i].fd != s.nonPersistentFd)
    && (forall i, j :: 0 <= i < j < |s.queue| ==> s.queue[i].fd != s.queue[j].fd)
  }

  /** Only held descriptors are registered, and those in the slots are. */
  ghost predicate Registered(s: State) {
    && (forall fd :: fd in s.registered ==> Held(s, fd))
    && (s.persistentFd != NO_FD ==> s.persistentFd in s.registered)
    && (s.nonPersistentFd != NO_FD ==> s.nonPersistentFd in s.registered)
  }

  /** While every promotion has succeeded, connections wait only for an occupied slot. */
  ghost predicate NoIdleSlot(s: State) {
    s.books.allPromoted && s.queue != [] ==> s.nonPersistentFd != NO_FD
  }

  ghost predicate Inv(cap: nat, s: State) {
    Bounded(cap, s) && Distinct(s) && Registered(s) && NoIdleSlot(s)
  }

  lemma QueuedIn(s: State, i: nat)
    requires i < |s.queue|
    ensures Queued(s, s.queue[i].fd)
  {
  }

  /** Emptying the slot and filling it from the queue keeps everything in order. */
  lemma ClosingKeepsInv(cap: nat, s: State, addOk: bool)
    requires Inv(cap, s) && s.nonPersistentFd != NO_FD
    ensures Inv(cap, Promote(Release(Drop(s, s.nonPersistentFd)), addOk))
  {
    var u := Release(Drop(s, s.nonPersistentFd));
    var t := Promote(u, addOk);
    assert u.queue == s.queue;
    forall fd | fd in t.registered ensures Held(t, fd) {
      if fd in s.registered {
        assert Held(s, fd);
        if Queued(s, fd) {
          var i :| 0 <= i < |s.queue| && s.queue[i].fd == fd;
          assert i > 0 ==> t.queue[i - 1].fd == fd;
        }
      }
    }
  }

  lemma AcceptKeepsInv(cap: nat, s: State, client: int, now: real)
    requires Inv(cap, s) && Possible(s, Arrival(client, now))
    ensures Inv(cap, Accept(cap, s, client, now))
  {
    var t := Accept(cap, s, client, now);
    forall i | 0 <= i < |s.queue| ensures s.queue[i].fd != client || client < 0 {
      QueuedIn(s, i);
    }
    HeldGrows(s, t);
    if client in t.registered {
      assert client in s.registered || Held(t, client);
    }
  }

  /** Whatever was held and is still in a slot or further up the queue is still held. */
  lemma HeldGrows(s: State, t: State)
    requires s.queue <= t.queue
    requires s.persistentFd in {NO_FD, t.persistentFd} && s.nonPersistentFd in {NO_FD, t.nonPersistentFd}
    ensures forall fd :: Held(s, fd) ==> Held(t, fd)
  {
    forall fd | Held(s, fd) ensures Held(t, fd) {
      if Queued(s, fd) {
        var i :| 0 <= i < |s.queue| && s.queue[i].fd == fd;
        assert t.queue[i].fd == fd;
      }
    }
  }

  lemma DemoteKeepsInv(cap: nat, s: State)
    requires Inv(cap, s) && s.persistentFd != NO_FD
    ensures Inv(cap, Demote(cap, s))
  {
    var t := Demote(cap, s);
    forall fd | fd in t.registered ensures Held(t, fd) {
      assert Held(s, fd);
      if Queued(s, fd) {
        var i :| 0 <= i < |s.queue| && s.queue[i].fd == fd;
        assert t.queue[i].fd == fd;
      }
      if fd == s.persistentFd && |t.queue| > |s.queue| {
        QueuedIn(t, |s.queue|);
      }
    }
  }

  /** A state with the same slots, queue and books satisfies the same invariant. */
  lemma SameConnections(cap: nat, s: State, t: State)
    requires Inv(cap, s)
    requires t.persistentFd == s.persistentFd && t.nonPersistentFd == s.nonPersistentFd && t.queue == s.queue
    requires t.active == s.active && t.rejected == s.rejected && t.registered == s.registered && t.books == s.books
    ensures Inv(cap, t)
  {
  }

  lemma ReadKeepsInv(cap: nat, s: State, fd: nat, bytes: nat, isP: bool, now: real)
    requires Inv(cap, s)
    ensures Inv(cap, Read(cap, s, fd, bytes, isP, now))
  {
    var t := s;
    if fd == s.persistentFd && !isP {
      DemoteKeepsInv(cap, s);
      t := Demote(cap, s);
    }
    SameConnections(cap, t, CountPersistent(t, bytes, now));
    SameConnections(cap, t, CountNonPersistent(t, bytes, now));
  }

  lemma PersistentDropKeepsInv(cap: nat, s: State)
    requires Inv(cap, s) && s.persistentFd != NO_FD
    ensures Inv(cap, Drop(s, s.persistentFd).(persistentFd := NO_FD, times := s.times.(conn1Started := false)))
  {
    var t := Drop(s, s.persistentFd).(persistentFd := NO_FD, times := s.times.(conn1Started := false));
    forall fd | fd in t.registered ensures Held(t, fd) {
      assert Held(s, fd);
      if Queued(s, fd) {
        var i :| 0 <= i < |s.queue| && s.queue[i].fd == fd;
        QueuedIn(t, i);
      }
    }
  }

  lemma PersistentHangUpKeepsInv(cap: nat, s: State, fd: nat, addOk: bool)
    requires Inv(cap, s) && fd == s.persistentFd
    ensures Inv(cap, HangUp(s, fd, addOk))
  {
    PersistentDropKeepsInv(cap, s);
    var t := Drop(s, fd).(persistentFd := NO_FD, times := s.times.(conn1Started := false));
    SameConnections(cap, t, StopIfIdle(t));
  }

  lemma NonPersistentHangUpKeepsInv(cap: nat, s: State, fd: nat, addOk: bool)
    requires Inv(cap, s) && fd == s.nonPersistentFd
    ensures Inv(cap, HangUp(s, fd, addOk))
  {
    ClosingKeepsInv(cap, s, addOk);
    var t := Promote(Release(Drop(s, fd)), addOk);
    SameConnections(cap, t, StopIfIdle(t));
  }

  /** What can be delivered for a descriptor concerns a connection in a slot. */
  lemma DeliveredToSlot(cap: nat, s: State, fd: nat)
    requires Inv(cap, s) && fd in s.registered && !Queued(s, fd)
    ensures fd == s.persistentFd || fd == s.nonPersistentFd
  {
    assert Held(s, fd);
  }

  lemma HangUpKeepsInv(cap: nat, s: State, fd: nat, addOk: bool)
    requires Inv(cap, s) && Possible(s, Hangup(fd, addOk))
    ensures Inv(cap, HangUp(s, fd, addOk))
  {
    if fd == s.persistentFd {
      PersistentHangUpKeepsInv(cap, s, fd, addOk);
    } else if fd == s.nonPersistentFd {
      NonPersistentHangUpKeepsInv(cap, s, fd, addOk);
    } else {
      StaleHangUpChangesCounts(cap, s, fd, addOk);
      BooksOnly(cap, s, HangUp(s, fd, addOk));
    }
  }

  /** A hang-up for a closed descriptor is counted although nobody goes. */
  lemma StaleHangUpChangesCounts(cap: nat, s: State, fd: nat, addOk: bool)
    requires Inv(cap, s) && !Held(s, fd)
    ensures var t := HangUp(s, fd, addOk);
            t == s.(active := s.active - 1, books := s.books.(closed := s.books.closed + 1), running := t.running)
  {
  }

  lemma BooksOnly(cap: nat, s: State, t: State)
    requires Inv(cap, s)
    requires t == s.(active := s.active - 1, books := s.books.(closed := s.books.closed + 1), running := t.running)
    ensures Inv(cap, t)
  {
  }

  lemma StepKeepsInv(cap: nat, s: State, e: Event, t: State)
    requires Inv(cap, s) && Possible(s, e) && Follows(cap, s, e, t)
    ensures Inv(cap, t)
  {
    match e
    case Arrival(client, now) => AcceptKeepsInv(cap, s, client, now);
    case Data(fd, bytes, isP, now) => ReadKeepsInv(cap, s, fd, bytes, isP, now);
    case Hangup(fd, addOk) => HangUpKeepsInv(cap, s, fd, addOk);
    case Tick(now, addOk) =>
      if Inactive(s, now) {
        ClosingKeepsInv(cap, s, addOk);
      }
    case Stop => SameConnections(cap, s, t);
  }

  lemma NextKeepsInv(cap: nat, events: seq<Event>, states: seq<State>, k: nat)
    requires PossibleRun(cap, events, states) && k < |events| && Inv(cap, states[k])
    ensures Inv(cap, states[k + 1])
  {
    assert FollowsAt(cap, events, states, k) && PossibleAt(events, states, k);
    StepKeepsInv(cap, states[k], events[k], states[k + 1]);
  }

  /** In every state of every possible run: the queue is within its bound, accepted is active plus
      rejected plus closed, descriptors are distinct, and only held ones are registered. */
  lemma {:induction false} ConnectionsInOrder(cap: nat, events: seq<Event>, states: seq<State>, k: nat)
    requires PossibleRun(cap, events, states) && k < |states|
    ensures Inv(cap, states[k])
  {
    if k > 0 {
      ConnectionsInOrder(cap, events, states, k - 1);
      NextKeepsInv(cap, events, states, k - 1);
    }
  }

  lemma HangUpMisses(cap: nat, s: State, fd: nat, addOk: bool)
    requires Inv(cap, s)
    ensures Missing(HangUp(s, fd, addOk)) ==
            Missing(s) + if fd == s.persistentFd || fd == s.nonPersistentFd then 0 else 1
  {
  }

  lemma AcceptMisses(cap: nat, s: State, client: int, now: real)
    requires client < 0 || !Held(s, client)
    ensures Missing(Accept(cap, s, client, now)) == Missing(s)
  {
  }

  lemma ReadMisses(cap: nat, s: State, fd: nat, bytes: nat, isP: bool, now: real)
    ensures Missing(Read(cap, s, fd, bytes, isP, now)) == Missing(s)
  {
  }

  /** Every event keeps the count right, except one for a closed descriptor, which takes one too many. */
  lemma StepMisses(cap: nat, s: State, e: Event, t: State)
    requires Inv(cap, s) && Possible(s, e) && Follows(cap, s, e, t)
    ensures Missing(t) == Missing(s) + if IsStale(s, e) then 1 else 0
  {
    match e
    case Arrival(client, now) => AcceptMisses(cap, s, client, now);
    case Data(fd, bytes, isP, now) => ReadMisses(cap, s, fd, bytes, isP, now);
    case Hangup(fd, addOk) => HangUpMisses(cap, s, fd, addOk);
    case Tick(_, _) =>
    case Stop =>
  }

  /** Events so far for descriptors closed by then. */
  ghost function StaleEvents(events: seq<Event>, states: seq<State>, k: nat): nat
    requires k <= |events| && |states| == |events| + 1
  {
    if k == 0 then 0 else StaleEvents(events, states, k - 1) + if IsStale(states[k - 1], events[k - 1]) then 1 else 0
  }

  lemma NextMisses(cap: nat, events: seq<Event>, states: seq<State>, k: nat)
    requires PossibleRun(cap, events, states) && k < |events|
    ensures Missing(states[k + 1]) == Missing(states[k]) + if IsStale(states[k], events[k]) then 1 else 0
  {
    ConnectionsInOrder(cap, events, states, k);
    assert FollowsAt(cap, events, states, k) && PossibleAt(events, states, k);
    StepMisses(cap, states[k], events[k], states[k + 1]);
  }

  lemma NoneStaleYet(events: seq<Event>, states: seq<State>)
    requires |states| == |events| + 1
    requires var s := states[0]; s.persistentFd == NO_FD && s.nonPersistentFd == NO_FD && s.queue == [] && s.active == 0
    ensures Missing(states[0]) == StaleEvents(events, states, 0)
  {
  }

  lemma {:induction false} MissingAreStale(cap: nat, events: seq<Event>, states: seq<State>, k: nat)
    requires PossibleRun(cap, events, states) && k <= |events|
    ensures Missing(states[k]) == StaleEvents(events, states, k)
  {
    if k == 0 {
      NoneStaleYet(events, states);
    } else {
      MissingAreStale(cap, events, states, k - 1);
      NextMisses(cap, events, states, k - 1);
    }
  }

  /** The active count is right exactly when no event has been handled for a closed descriptor. */
  lemma AccountedIff(cap: nat, events: seq<Event>, states: seq<State>, k: nat)
    requires PossibleRun(cap, events, states) && k <= |events|
    ensures Accounted(states[k]) <==> StaleEvents(events, states, k) == 0
  {
    MissingAreStale(cap, events, states, k);
  }
}
