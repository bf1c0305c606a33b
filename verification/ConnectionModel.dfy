/** What the connection server does with its slots, its queue and its counters, as a function of the
    events it handles: one persistent slot, one non-persistent slot, a bounded queue behind it. */
module ConnectionModel {
  import opened Statistics

  const NO_FD := -1
  const INACTIVE_TIMEOUT := 10.0
  const PACKET_SIZE := 1024

  datatype Waiting = Waiting(fd: int, since: real)

  datatype Times = Times(conn1Started: bool, conn1Start: real, conn2Started: bool, conn2Start: real, conn2End: real)

  datatype Moved = Moved(bytes: int, packets: int)

  /** Bookkeeping that the server does not keep, but whose totals its counters can be held against. */
  datatype Books = Books(
    accepted: int, closed: int,
    demotedToSlot: Moved, demotedToQueue: Moved,
    enqueued: seq<int>, dequeued: seq<int>, releases: int, allPromoted: bool)

  datatype State = State(
    persistentFd: int, nonPersistentFd: int, nonPerSince: real, queue: seq<Waiting>,
    times: Times, pick: int, tally: Tally, history: seq<Closed>,
    active: int, rejected: int, registered: set<int>, running: bool, books: Books)

  const START := State(
    NO_FD, NO_FD, 0.0, [], Times(false, 0.0, false, 0.0, 0.0), NO_FD, ZERO_TALLY, [],
    0, 0, {}, true, Books(0, 0, Moved(0, 0), Moved(0, 0), [], [], 0, true))

  /** `now` is the time of the event.  `addOk` says whether an attempt to register a descriptor that
      is not registered yet succeeds; registering one twice never does.  `Tick` is the check at the top of
      the loop, `Stop` a signal or a wait without any event for too long. */
  datatype Event =
    | Arrival(client: int, now: real)
    | Data(fd: nat, bytes: nat, isP: bool, now: real)
    | Hangup(fd: nat, addOk: bool)
    | Tick(now: real, addOk: bool)
    | Stop

  /** Whether a registration made while handling the event would succeed. */
  function AddOk(e: Event): bool {
    match e
    case Hangup(_, addOk) => addOk
    case Tick(_, addOk) => addOk
    case _ => false
  }

  // ---------------------------------------------------------------- closing and promoting

  /** What is recorded when the connection in the slot is closed.  The two times are those of the last
      connection that was read. */
  function Recorded(s: State): Closed {
    Closed(s.tally, s.times.conn2End - s.times.conn2Start)
  }

  /** Close the books of the connection in the non-persistent slot and empty the slot. */
  function Release(s: State): State {
    s.(nonPersistentFd := NO_FD,
       history := s.history + [Recorded(s)],
       tally := ZERO_TALLY,
       times := s.times.(conn2Started := false),
       books := s.books.(releases := s.books.releases + 1))
  }

  /** Whether the head of the queue can be registered. */
  predicate CanPromote(s: State, addOk: bool) {
    s.queue == [] || (addOk && s.queue[0].fd !in s.registered)
  }

  /** Move the head of the queue to the slot; if it cannot be registered, close it instead. */
  function Promote(s: State, addOk: bool): State {
    if s.queue == [] then s
    else
      var head := s.queue[0];
      var t := s.(queue := s.queue[1..], nonPerSince := head.since,
                  books := s.books.(dequeued := s.books.dequeued + [head.fd]));
      if CanPromote(s, addOk) then t.(nonPersistentFd := head.fd, registered := s.registered + {head.fd})
      else
        t.(active := s.active - 1, registered := s.registered - {head.fd},
           books := t.books.(closed := s.books.closed + 1, allPromoted := false))
  }

  /** A connection goes away. */
  function Drop(s: State, fd: int): State {
    s.(active := s.active - 1, registered := s.registered - {fd}, books := s.books.(closed := s.books.closed + 1))
  }

  // ---------------------------------------------------------------- the events

  predicate Inactive(s: State, now: real) {
    s.nonPersistentFd != NO_FD && now - s.nonPerSince >= INACTIVE_TIMEOUT && s.tally.nonPerBytes == 0
  }

  function Evict(s: State, now: real, addOk: bool): State {
    if Inactive(s, now) then Promote(Release(Drop(s, s.nonPersistentFd)), addOk) else s
  }

  function Accept(cap: nat, s: State, fd: int, now: real): State {
    if fd < 0 then s else Place(cap, Admit(s), fd, now)
  }

  function Admit(s: State): State {
    s.(active := s.active + 1, books := s.books.(accepted := s.books.accepted + 1))
  }

  /** The first slot, the second, the queue, or rejected. */
  function Place(cap: nat, s: State, fd: int, now: real): State {
    if s.persistentFd == NO_FD then s.(persistentFd := fd, registered := s.registered + {fd})
    else if s.nonPersistentFd == NO_FD then
      s.(nonPersistentFd := fd, nonPerSince := now, registered := s.registered + {fd})
    else if |s.queue| < cap then Enqueue(s, fd, now)
    else s.(active := s.active - 1, rejected := s.rejected + 1)
  }

  function Enqueue(s: State, fd: int, since: real): State {
    s.(queue := s.queue + [Waiting(fd, since)], books := s.books.(enqueued := s.books.enqueued + [fd]))
  }

  /** The non-persistent slot or the queue can take another connection. */
  predicate HasRoom(cap: nat, s: State) {
    s.nonPersistentFd == NO_FD || |s.queue| < cap
  }

  /** The persistent connection turns out not to be one: it moves to the slot or the queue with the
      bytes read so far, or goes away. */
  function Demote(cap: nat, s: State): State {
    if s.nonPersistentFd == NO_FD then DemoteToSlot(s)
    else if |s.queue| < cap then DemoteToQueue(s)
    else TurnOut(s)
  }

  function DemoteToSlot(s: State): State {
    s.(persistentFd := NO_FD, times := s.times.(conn1Started := false),
       nonPersistentFd := s.persistentFd, nonPerSince := s.times.conn1Start,
       tally := s.tally.(nonPerBytes := s.tally.perBytes, nonPerPackets := s.tally.perPackets,
                         perBytes := 0, perPackets := 0),
       books := s.books.(demotedToSlot := AddMoved(s.books.demotedToSlot, Moved(s.tally.perBytes, s.tally.perPackets))))
  }

  function DemoteToQueue(s: State): State {
    s.(persistentFd := NO_FD, times := s.times.(conn1Started := false),
       queue := s.queue + [Waiting(s.persistentFd, s.times.conn1Start)],
       tally := s.tally.(perBytes := 0, perPackets := 0),
       books := s.books.(
         enqueued := s.books.enqueued + [s.persistentFd],
         demotedToQueue := AddMoved(s.books.demotedToQueue, Moved(s.tally.perBytes, s.tally.perPackets))))
  }

  function TurnOut(s: State): State {
    s.(persistentFd := NO_FD, times := s.times.(conn1Started := false),
       active := s.active - 1, rejected := s.rejected + 1, registered := s.registered - {s.persistentFd})
  }

  function AddMoved(a: Moved, b: Moved): Moved {
    Moved(a.bytes + b.bytes, a.packets + b.packets)
  }

  /** Both slots are taken, so reads of the two are paired. */
  predicate Paired(s: State) {
    s.persistentFd != NO_FD && s.nonPersistentFd != NO_FD
  }

  function CountPersistent(s: State, bytes: nat, now: real): State {
    PairPersistent(CreditPersistent(s, bytes, now))
  }

  function CreditPersistent(s: State, bytes: nat, now: real): State {
    var t := s.tally;
    s.(times := if s.times.conn1Started then s.times else s.times.(conn1Started := true, conn1Start := now),
       tally := t.(perBytes := t.perBytes + bytes, perPackets := t.perPackets + bytes / PACKET_SIZE,
                   perReads := t.perReads + 1))
  }

  /** A read of the persistent slot completes the pair that one of the other slot has begun, or begins
      one. */
  function PairPersistent(s: State): State {
    var t := s.tally;
    if !Paired(s) then s
    else if s.pick == NO_FD then s.(pick := s.persistentFd)
    else if s.pick == s.nonPersistentFd then
      s.(pick := NO_FD, tally := t.(nonPersistent := t.nonPersistent + 1, both := t.both + 1))
    else s
  }

  function CountNonPersistent(s: State, bytes: nat, now: real): State {
    PairNonPersistent(CreditNonPersistent(s, bytes, now))
  }

  function CreditNonPersistent(s: State, bytes: nat, now: real): State {
    var t := s.tally;
    var started := if s.times.conn2Started then s.times else s.times.(conn2Started := true, conn2Start := now);
    s.(times := started.(conn2End := now),
       tally := t.(nonPerBytes := t.nonPerBytes + bytes, nonPerPackets := t.nonPerPackets + bytes / PACKET_SIZE,
                   nonPerReads := t.nonPerReads + 1))
  }

  function PairNonPersistent(s: State): State {
    var t := s.tally;
    if !Paired(s) then s
    else if s.pick == NO_FD then s.(pick := s.nonPersistentFd)
    else if s.pick == s.persistentFd then
      s.(pick := NO_FD, tally := t.(persistent := t.persistent + 1, both := t.both + 1))
    else s
  }

  function Read(cap: nat, s: State, fd: nat, bytes: nat, isP: bool, now: real): State {
    var misplaced := fd == s.persistentFd && !isP;
    var t := if misplaced then Demote(cap, s) else s;
    if misplaced && !HasRoom(cap, s) then t
    else if fd == t.persistentFd then CountPersistent(t, bytes, now)
    else if fd == t.nonPersistentFd then CountNonPersistent(t, bytes, now)
    else t
  }

  function HangUp(s: State, fd: nat, addOk: bool): State {
    var t := Drop(s, fd);
    if fd == s.persistentFd then
      StopIfIdle(t.(persistentFd := NO_FD, times := s.times.(conn1Started := false)))
    else if fd == s.nonPersistentFd then
      var u := Release(t);
      if CanPromote(u, addOk) then StopIfIdle(Promote(u, addOk)) else Promote(u, addOk)
    else StopIfIdle(t)
  }

  function StopIfIdle(s: State): State {
    if s.active == 0 && s.queue == [] then s.(running := false) else s
  }

  function Handle(cap: nat, s: State, e: Event): State {
    match e
    case Arrival(client, now) => Accept(cap, s, client, now)
    case Data(fd, bytes, isP, now) => Read(cap, s, fd, bytes, isP, now)
    case Hangup(fd, addOk) => HangUp(s, fd, addOk)
    case Tick(now, addOk) => Evict(s, now, addOk)
    case Stop => s.(running := false)
  }

  // ---------------------------------------------------------------- rounds and runs

  /** One turn of the loop: the check, then the events waited for; or the end of the loop. */
  datatype Round = Round(now: real, addOk: bool, batch: seq<Event>) | Quiet

  /** The check evicted a connection and could not fill the slot again: the events are skipped. */
  predicate Skips(s: State, now: real, addOk: bool) {
    Inactive(s, now) && !CanPromote(Release(Drop(s, s.nonPersistentFd)), addOk)
  }

  function RoundEvents(s: State, r: Round): seq<Event> {
    match r
    case Quiet => [Stop]
    case Round(now, addOk, batch) => [Tick(now, addOk)] + if Skips(s, now, addOk) then [] else batch
  }

  lemma TickThen(events: seq<Event>, tick: Event, batch: seq<Event>)
    ensures events + [tick] + batch == events + ([tick] + batch) && [tick] + [] == [tick]
  {
  }

  /** A run: the states before, between and after the events. */
  ghost predicate IsRun(cap: nat, events: seq<Event>, states: seq<State>) {
    && |states| == |events| + 1
    && states[0] == START
    && forall k :: 0 <= k < |events| ==> FollowsAt(cap, events, states, k)
  }

  ghost predicate FollowsAt(cap: nat, events: seq<Event>, states: seq<State>, k: nat)
    requires k < |events| && |states| == |events| + 1
  {
    Follows(cap, states[k], events[k], states[k + 1])
  }

  ghost predicate Follows(cap: nat, s: State, e: Event, t: State) {
    t == Handle(cap, s, e)
  }

  lemma RunSnoc(cap: nat, events: seq<Event>, states: seq<State>, e: Event, t: State)
    requires IsRun(cap, events, states) && Follows(cap, states[|events|], e, t)
    ensures IsRun(cap, events + [e], states + [t])
  {
    forall k | 0 <= k < |events| + 1
      ensures FollowsAt(cap, events + [e], states + [t], k)
    {
      assert k < |events| ==> FollowsAt(cap, events, states, k);
    }
  }

  /** The events handled over some rounds: those of each round, until the server is told to stop. */
  ghost predicate Plays(rounds: seq<Round>, events: seq<Event>, states: seq<State>)
    requires |states| == |events| + 1
    decreases |rounds|, 1
  {
    if rounds == [] then events == []
    else exists m: nat :: m <= |events| && PlaysLast(rounds, events, states, m)
  }

  ghost predicate PlaysLast(rounds: seq<Round>, events: seq<Event>, states: seq<State>, m: nat)
    requires rounds != [] && m <= |events| && |states| == |events| + 1
    decreases |rounds|, 0
  {
    && Plays(rounds[..|rounds| - 1], events[..m], states[..m + 1])
    && events[m..] == if states[m].running then RoundEvents(states[m], rounds[|rounds| - 1]) else []
  }

  lemma PlaysNext(
    rounds: seq<Round>, i: nat, events: seq<Event>, states: seq<State>, more: seq<Event>, after: seq<State>)
    requires i < |rounds| && |states| == |events| + 1 && |after| == |events| + |more| + 1
    requires Plays(rounds[..i], events, states) && after[..|states|] == states
    requires more == if states[|events|].running then RoundEvents(states[|events|], rounds[i]) else []
    ensures Plays(rounds[..i + 1], events + more, after)
  {
    var next, all := rounds[..i + 1], events + more;
    assert next[..|next| - 1] == rounds[..i];
    assert all[..|events|] == events && all[|events|..] == more;
    assert after[|events|] == states[|events|];
    assert PlaysLast(next, all, after, |events|);
  }

  /** Once it is told to stop, further rounds change nothing. */
  lemma {:induction false} StoppedPlays(rounds: seq<Round>, n: nat, events: seq<Event>, states: seq<State>)
    requires n <= |rounds| && |states| == |events| + 1
    requires Plays(rounds[..n], events, states) && (n < |rounds| ==> !states[|events|].running)
    ensures Plays(rounds, events, states)
    decreases |rounds| - n
  {
    if n == |rounds| {
      assert rounds[..n] == rounds;
    } else {
      PlaysNext(rounds, n, events, states, [], states);
      assert events + [] == events;
      StoppedPlays(rounds, n + 1, events, states);
    }
  }
}
