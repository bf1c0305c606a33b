/** Properties of all runs of the connection server that concern the waiting queue. */
module QueueRuns {
  import opened ConnectionModel
  import opened ConnectionRuns

  function Fds(queue: seq<Waiting>): seq<int> {
    seq(|queue|, i requires 0 <= i < |queue| => queue[i].fd)
  }

  // ---------------------------------------------------------------- first in, first out

  /** One event puts at most one connection at the back, or takes the head out on a release. */
  ghost predicate QueueMove(s: State, t: State) {
    var a, b := s.books, t.books;
    if b.releases == a.releases then
      && b.dequeued == a.dequeued && s.queue <= t.queue
      && b.enqueued == a.enqueued + Fds(t.queue)[|s.queue|..]
    else
      && b.releases == a.releases + 1 && b.enqueued == a.enqueued
      && (if s.queue == [] then t.queue == [] && b.dequeued == a.dequeued
          else t.queue == s.queue[1..] && b.dequeued == a.dequeued + [s.queue[0].fd])
  }

  lemma ClosingMovesQueue(s: State, fd: int, addOk: bool)
    ensures QueueMove(s, Promote(Release(Drop(s, fd)), addOk))
  {
  }

  lemma HangUpMovesQueue(s: State, fd: nat, addOk: bool)
    ensures QueueMove(s, HangUp(s, fd, addOk))
  {
    ClosingMovesQueue(s, fd, addOk);
    assert Fds(s.queue)[|s.queue|..] == [];
  }

  lemma ReadMovesQueue(cap: nat, s: State, fd: nat, bytes: nat, isP: bool, now: real)
    ensures QueueMove(s, Read(cap, s, fd, bytes, isP, now))
  {
  }

  lemma AcceptMovesQueue(cap: nat, s: State, client: int, now: real)
    ensures QueueMove(s, Accept(cap, s, client, now))
  {
  }

  lemma EvictMovesQueue(s: State, now: real, addOk: bool)
    ensures QueueMove(s, Evict(s, now, addOk))
  {
  }

  lemma StepMovesQueue(cap: nat, s: State, e: Event, t: State)
    requires Follows(cap, s, e, t)
    ensures QueueMove(s, t)
  {
    match e
    case Arrival(client, now) => AcceptMovesQueue(cap, s, client, now);
    case Data(fd, bytes, isP, now) => ReadMovesQueue(cap, s, fd, bytes, isP, now);
    case Hangup(fd, addOk) => HangUpMovesQueue(s, fd, addOk);
    case Tick(now, addOk) => EvictMovesQueue(s, now, addOk);
    case Stop => assert Fds(s.queue)[|s.queue|..] == [];
  }

  /** Over every run, what has left the queue followed by what is in it is what entered it. */
  lemma {:induction false} QueueIsFifo(cap: nat, events: seq<Event>, states: seq<State>, k: nat)
    requires IsRun(cap, events, states) && k < |states|
    ensures states[k].books.dequeued + Fds(states[k].queue) == states[k].books.enqueued
  {
    if k > 0 {
      QueueIsFifo(cap, events, states, k - 1);
      assert FollowsAt(cap, events, states, k - 1);
      StepMovesQueue(cap, states[k - 1], events[k - 1], states[k]);
      FifoNext(states[k - 1], states[k]);
    }
  }

  lemma AppendKeepsOrder(gone: seq<int>, queue: seq<Waiting>, longer: seq<Waiting>)
    requires queue <= longer
    ensures gone + Fds(longer) == gone + Fds(queue) + Fds(longer)[|queue|..]
  {
    assert Fds(longer) == Fds(queue) + Fds(longer)[|queue|..];
  }

  lemma TakeKeepsOrder(gone: seq<int>, queue: seq<Waiting>)
    requires queue != []
    ensures gone + [queue[0].fd] + Fds(queue[1..]) == gone + Fds(queue)
  {
    assert Fds(queue) == [queue[0].fd] + Fds(queue[1..]);
  }

  lemma FifoNext(s: State, t: State)
    requires QueueMove(s, t) && s.books.dequeued + Fds(s.queue) == s.books.enqueued
    ensures t.books.dequeued + Fds(t.queue) == t.books.enqueued
  {
    if t.books.releases == s.books.releases {
      AppendKeepsOrder(s.books.dequeued, s.queue, t.queue);
    } else if s.queue != [] {
      TakeKeepsOrder(s.books.dequeued, s.queue);
    }
  }

  /** After n further releases the connection at position j has moved up by n places, or has left
      the queue, as the one that was due at release j + 1. */
  ghost predicate MovedUp(s: State, j: nat, t: State)
    requires j < |s.queue|
  {
    var n, a, b := t.books.releases - s.books.releases, s.books.dequeued, t.books.dequeued;
    && n >= 0
    && if n <= j then j - n < |t.queue| && t.queue[j - n] == s.queue[j] && |b| == |a| + n
       else |a| + j < |b| && b[|a| + j] == s.queue[j].fd
  }

  lemma MovedUpNext(s: State, j: nat, t: State, u: State)
    requires j < |s.queue| && MovedUp(s, j, t) && QueueMove(t, u)
    ensures MovedUp(s, j, u)
  {
    var n := t.books.releases - s.books.releases;
    if u.books.releases == t.books.releases {
      assert t.queue <= u.queue;
    } else if t.queue != [] {
      assert u.queue == t.queue[1..];
    }
  }

  lemma {:induction false} PositionCountsReleases(
    cap: nat, events: seq<Event>, states: seq<State>, from: nat, until: nat, j: nat)
    requires IsRun(cap, events, states) && from <= until < |states| && j < |states[from].queue|
    ensures MovedUp(states[from], j, states[until])
    decreases until
  {
    if until > from {
      PositionCountsReleases(cap, events, states, from, until - 1, j);
      assert FollowsAt(cap, events, states, until - 1);
      StepMovesQueue(cap, states[until - 1], events[until - 1], states[until]);
      MovedUpNext(states[from], j, states[until - 1], states[until]);
    }
  }

  // ---------------------------------------------------------------- stopping

  ghost predicate NobodyHeld(s: State) {
    s.queue == [] && s.persistentFd == NO_FD && s.nonPersistentFd == NO_FD
  }

  /** When no client is active, nobody is held, in the queue or in a slot, exactly when no event has been
      handled for a closed descriptor; up to then the count is not negative, and the second half of the
      stop test never decides. */
  lemma IdleMeansNobodyHeldIff(cap: nat, events: seq<Event>, states: seq<State>, k: nat)
    requires PossibleRun(cap, events, states) && k <= |events|
    ensures states[k].active == 0 ==> (NobodyHeld(states[k]) <==> StaleEvents(events, states, k) == 0)
    ensures StaleEvents(events, states, k) == 0 ==> states[k].active >= 0
  {
    MissingAreStale(cap, events, states, k);
  }

  /** While every promotion succeeds, nobody waits for an empty slot. */
  lemma NobodyWaitsForEmptySlot(cap: nat, events: seq<Event>, states: seq<State>, k: nat)
    requires PossibleRun(cap, events, states) && k < |states| && states[k].books.allPromoted
    ensures states[k].queue != [] ==> states[k].nonPersistentFd != NO_FD
  {
    ConnectionsInOrder(cap, events, states, k);
  }

  // ---------------------------------------------------------------- who gets the slot

  /** The connection keeps its place in the interest list, or outside it. */
  ghost predicate SameStanding(s: State, t: State, fd: int) {
    fd in s.registered <==> fd in t.registered
  }

  lemma ClosingKeepsStanding(cap: nat, s: State, gone: int, addOk: bool, i: nat)
    requires Inv(cap, s) && 0 < i < |s.queue| && gone in {s.persistentFd, s.nonPersistentFd}
    ensures SameStanding(s, Drop(s, gone), s.queue[i].fd)
    ensures SameStanding(s, Promote(Release(Drop(s, gone)), addOk), s.queue[i].fd)
  {
  }

  lemma HangUpKeepsStanding(cap: nat, s: State, fd: nat, addOk: bool, i: nat, j: nat)
    requires Inv(cap, s) && Possible(s, Hangup(fd, addOk))
    requires i < |s.queue| && j < |HangUp(s, fd, addOk).queue| && s.queue[i] == HangUp(s, fd, addOk).queue[j]
    ensures SameStanding(s, HangUp(s, fd, addOk), s.queue[i].fd)
  {
    if fd != s.persistentFd && fd != s.nonPersistentFd {
      StaleHangUpChangesCounts(cap, s, fd, addOk);
    } else if i > 0 {
      ClosingKeepsStanding(cap, s, fd, addOk, i);
    }
  }

  lemma EvictKeepsStanding(cap: nat, s: State, now: real, addOk: bool, i: nat, j: nat)
    requires Inv(cap, s)
    requires i < |s.queue| && j < |Evict(s, now, addOk).queue| && s.queue[i] == Evict(s, now, addOk).queue[j]
    ensures SameStanding(s, Evict(s, now, addOk), s.queue[i].fd)
  {
    if i > 0 {
      ClosingKeepsStanding(cap, s, s.nonPersistentFd, addOk, i);
    }
  }

  lemma ReadKeepsStanding(cap: nat, s: State, fd: nat, bytes: nat, isP: bool, now: real, i: nat)
    requires Inv(cap, s) && i < |s.queue|
    ensures SameStanding(s, Read(cap, s, fd, bytes, isP, now), s.queue[i].fd)
  {
  }

  lemma AcceptKeepsStanding(cap: nat, s: State, client: int, now: real, i: nat)
    requires Possible(s, Arrival(client, now)) && i < |s.queue| && s.queue[i].fd >= 0
    ensures SameStanding(s, Accept(cap, s, client, now), s.queue[i].fd)
  {
    QueuedIn(s, i);
  }

  /** As long as a connection waits it keeps its standing. */
  lemma WaitingKeepsStanding(cap: nat, s: State, e: Event, t: State, i: nat, j: nat)
    requires Inv(cap, s) && Possible(s, e) && Follows(cap, s, e, t)
    requires i < |s.queue| && j < |t.queue| && s.queue[i] == t.queue[j]
    ensures SameStanding(s, t, s.queue[i].fd)
  {
    match e
    case Arrival(client, now) => AcceptKeepsStanding(cap, s, client, now, i);
    case Data(fd, bytes, isP, now) => ReadKeepsStanding(cap, s, fd, bytes, isP, now, i);
    case Hangup(fd, addOk) => HangUpKeepsStanding(cap, s, fd, addOk, i, j);
    case Tick(now, addOk) => EvictKeepsStanding(cap, s, now, addOk, i, j);
    case Stop =>
  }

  lemma NextKeepsStanding(cap: nat, events: seq<Event>, states: seq<State>, k: nat, i: nat, j: nat)
    requires PossibleRun(cap, events, states) && k < |events|
    requires i < |states[k].queue| && j < |states[k + 1].queue| && states[k].queue[i] == states[k + 1].queue[j]
    ensures SameStanding(states[k], states[k + 1], states[k].queue[i].fd)
  {
    ConnectionsInOrder(cap, events, states, k);
    assert FollowsAt(cap, events, states, k) && PossibleAt(events, states, k);
    WaitingKeepsStanding(cap, states[k], events[k], states[k + 1], i, j);
  }

  /** Up to its release the connection at index j keeps its standing. */
  lemma {:induction false} StandingKept(
    cap: nat, events: seq<Event>, states: seq<State>, from: nat, until: nat, j: nat)
    requires PossibleRun(cap, events, states) && from <= until < |states| && j < |states[from].queue|
    requires states[until].books.releases <= states[from].books.releases + j
    ensures SameStanding(states[from], states[until], states[from].queue[j].fd)
    decreases until
  {
    if until > from {
      var k := until - 1;
      PositionCountsReleases(cap, events, states, from, k, j);
      PositionCountsReleases(cap, events, states, from, until, j);
      ReleasesGrow(cap, events, states, k);
      StandingKept(cap, events, states, from, k, j);
      NextKeepsStanding(cap, events, states, k,
        j - (states[k].books.releases - states[from].books.releases),
        j - (states[until].books.releases - states[from].books.releases));
    }
  }

  lemma ReleasesGrow(cap: nat, events: seq<Event>, states: seq<State>, k: nat)
    requires IsRun(cap, events, states) && k < |events|
    ensures states[k].books.releases <= states[k + 1].books.releases
  {
    assert FollowsAt(cap, events, states, k);
    StepMovesQueue(cap, states[k], events[k], states[k + 1]);
  }

  /** A connection enters the queue registered exactly when it was demoted. */
  lemma EntryStanding(cap: nat, s: State, e: Event, t: State)
    requires Inv(cap, s) && Possible(s, e) && Follows(cap, s, e, t) && |t.queue| > |s.queue|
    ensures t.queue[|s.queue|].fd in t.registered <==> e.Data?
    ensures e.Arrival? ==> t.queue[|s.queue|].since == e.now
  {
  }

  /** A release gives the slot to the head exactly when it is not registered and can be; otherwise the
      head is closed. */
  lemma ReleaseServesHead(cap: nat, s: State, e: Event, t: State)
    requires Inv(cap, s) && Possible(s, e) && Follows(cap, s, e, t)
    requires t.books.releases > s.books.releases && s.queue != []
    ensures t.nonPersistentFd == s.queue[0].fd <==> s.queue[0].fd !in s.registered && AddOk(e)
    ensures t.nonPersistentFd == s.queue[0].fd ==> t.nonPerSince == s.queue[0].since
    ensures t.nonPersistentFd != s.queue[0].fd ==> !Held(t, s.queue[0].fd)
  {
    ClosingServesHead(cap, s, AddOk(e));
    if e.Hangup? {
      DeliveredToSlot(cap, s, e.fd);
    }
  }

  lemma ClosingServesHead(cap: nat, s: State, addOk: bool)
    requires Inv(cap, s) && s.queue != []
    ensures var t, head := Promote(Release(Drop(s, s.nonPersistentFd)), addOk), s.queue[0].fd;
            && (t.nonPersistentFd == head <==> head !in s.registered && addOk)
            && (t.nonPersistentFd == head ==> t.nonPerSince == s.queue[0].since)
            && (t.nonPersistentFd != head ==> !Held(t, head))
  {
  }

  lemma EnteredAt(cap: nat, events: seq<Event>, states: seq<State>, k: nat)
    requires PossibleRun(cap, events, states) && k < |events| && |states[k + 1].queue| > |states[k].queue|
    ensures states[k + 1].queue[|states[k].queue|].fd in states[k + 1].registered <==> events[k].Data?
    ensures events[k].Arrival? <==> !events[k].Data?
    ensures events[k].Arrival? ==> states[k + 1].queue[|states[k].queue|].since == events[k].now
  {
    ConnectionsInOrder(cap, events, states, k);
    assert FollowsAt(cap, events, states, k) && PossibleAt(events, states, k);
    EntryStanding(cap, states[k], events[k], states[k + 1]);
  }

  lemma LeftAt(cap: nat, events: seq<Event>, states: seq<State>, m: nat)
    requires PossibleRun(cap, events, states) && m < |events|
    requires states[m + 1].books.releases > states[m].books.releases && states[m].queue != []
    ensures var s, t := states[m], states[m + 1];
            && (t.nonPersistentFd == s.queue[0].fd <==> s.queue[0].fd !in s.registered && AddOk(events[m]))
            && (t.nonPersistentFd == s.queue[0].fd ==> t.nonPerSince == s.queue[0].since)
            && (t.nonPersistentFd != s.queue[0].fd ==> !Held(t, s.queue[0].fd))
  {
    ConnectionsInOrder(cap, events, states, m);
    assert FollowsAt(cap, events, states, m) && PossibleAt(events, states, m);
    ReleaseServesHead(cap, states[m], events[m], states[m + 1]);
  }

  /** The connection that event k puts at index j is at the head at the (j+1)-th release after that,
      event m.  It gets the slot exactly when it was accepted into the queue, not demoted to it, and
      registering succeeds, and its time then runs from the accept; otherwise it is closed. */
  lemma ServedIff(cap: nat, events: seq<Event>, states: seq<State>, k: nat, m: nat)
    requires PossibleRun(cap, events, states) && k < m < |events|
    requires |states[k + 1].queue| > |states[k].queue|
    requires states[m].books.releases == states[k + 1].books.releases + |states[k].queue|
    requires states[m + 1].books.releases > states[m].books.releases
    ensures var w, t := states[k + 1].queue[|states[k].queue|], states[m + 1];
            && states[m].queue != [] && states[m].queue[0] == w
            && (t.nonPersistentFd == w.fd <==> events[k].Arrival? && AddOk(events[m]))
            && (t.nonPersistentFd == w.fd ==> t.nonPerSince == events[k].now)
            && (t.nonPersistentFd != w.fd ==> !Held(t, w.fd))
  {
    var j := |states[k].queue|;
    PositionCountsReleases(cap, events, states, k + 1, m, j);
    StandingKept(cap, events, states, k + 1, m, j);
    EnteredAt(cap, events, states, k);
    LeftAt(cap, events, states, m);
  }

  // ---------------------------------------------------------------- events for a queued connection

  /** A hang-up on any descriptor keeps the count right exactly when its connection is in a slot: not
      when it waits in the queue, and not when it has been closed. */
  lemma HangUpAccountedIff(cap: nat, s: State, fd: nat, addOk: bool)
    requires Inv(cap, s) && Accounted(s)
    ensures Accounted(HangUp(s, fd, addOk)) <==> fd == s.persistentFd || fd == s.nonPersistentFd
  {
    HangUpMisses(cap, s, fd, addOk);
  }

  lemma DemotedOpening() returns (s1: State, s2: State)
    ensures Linked(10, START, Arrival(1, 0.0), s1)
    ensures Linked(10, s1, Arrival(2, 0.0), s2)
    ensures s2.persistentFd == 1 && s2.nonPersistentFd == 2 && s2.queue == [] && s2.registered == {1, 2}
    ensures s2.active == 2
  {
    s1 := Handle(10, START, Arrival(1, 0.0));
    s2 := Handle(10, s1, Arrival(2, 0.0));
  }

  lemma DemotedNext(s2: State) returns (s3: State)
    requires s2.persistentFd == 1 && s2.nonPersistentFd == 2 && s2.queue == [] && s2.registered == {1, 2}
    requires s2.active == 2
    ensures Linked(10, s2, Data(1, 1, false, 1.0), s3)
    ensures 1 in s3.registered && Queued(s3, 1) && Accounted(s3)
  {
    s3 := Handle(10, s2, Data(1, 1, false, 1.0));
    assert s3.queue == [Waiting(1, s2.times.conn1Start)];
    QueuedIn(s3, 0);
  }

  lemma DemotedRun() returns (events: seq<Event>, states: seq<State>)
    ensures PossibleRun(10, events, states)
    ensures 1 in states[|events|].registered && Queued(states[|events|], 1) && Accounted(states[|events|])
  {
    var s1, s2 := DemotedOpening();
    events, states := [], [START];
    events, states := Extend(events, states, Arrival(1, 0.0), s1);
    events, states := Extend(events, states, Arrival(2, 0.0), s2);
    var s3 := DemotedNext(s2);
    events, states := Extend(events, states, Data(1, 1, false, 1.0), s3);
  }

  /** Such a descriptor exists: connection 1 is demoted to the queue and stays registered. */
  lemma DemotedHangUpMiscounts() returns (events: seq<Event>, states: seq<State>)
    ensures PossibleRun(10, events, states)
    ensures var s := states[|events|]; 1 in s.registered && Accounted(s) && !Accounted(HangUp(s, 1, true))
  {
    events, states := DemotedRun();
    ConnectionsInOrder(10, events, states, |events|);
    HangUpAccountedIff(10, states[|events|], 1, true);
  }
}
