/** The event loop of the connection server as it updates its variables: slots, queue array, counters
    at three levels, windows.  It is proved against the model and keeps the conservation laws between
    the levels; the windows are kept by StatsWindows. */
module EventLoop {
  import opened Statistics
  import opened ConnectionModel
  import opened Reports
  import opened Rounds

  /** The bounded queue: an array shifted down on every removal. */
  class WaitingQueue {
    const slots: array<Waiting>
    var count: nat

    ghost predicate Valid()
      reads this
    {
      count <= slots.Length
    }

    ghost function Contents(): seq<Waiting>
      requires Valid()
      reads this, slots
    {
      slots[..count]
    }

    constructor (cap: nat)
      ensures Valid() && Contents() == [] && fresh(slots) && slots.Length == cap
    {
      slots := new Waiting[cap](_ => Waiting(NO_FD, 0.0));
      count := 0;
    }

    method Enqueue(w: Waiting)
      requires Valid() && count < slots.Length
      modifies this, slots
      ensures Valid() && Contents() == old(Contents()) + [w]
    {
      slots[count] := w;
      count := count + 1;
    }

    method Dequeue() returns (head: Waiting)
      requires Valid() && count > 0
      modifies this, slots
      ensures Valid() && [head] + Contents() == old(Contents())
    {
      head := slots[0];
      var j: nat := 0;
      while j < count - 1
        invariant Valid() && count == old(count) && j <= count - 1
        invariant forall i :: 0 <= i < j ==> slots[i] == old(slots[i + 1])
        invariant forall i :: j <= i < count ==> slots[i] == old(slots[i])
      {
        slots[j] := slots[j + 1];
        j := j + 1;
      }
      count := count - 1;
      assert [head] + slots[..count] == old(slots[..count]);
    }
  }

  class Server {
    const queue: WaitingQueue
    const stats: StatsWindows
    var persistentFd: int
    var nonPersistentFd: int
    var nonPerConnectTime: real
    var times: Times
    var pick: int
    var activeClients: int
    var rejected: int
    var running: bool
    var current: Tally
    var all: Tally
    /** The interest list of the epoll instance. */
    var registered: set<int>
    ghost var books: Books

    /** The windows have their own invariant, kept by the one method that touches them. */
    ghost predicate Valid()
      reads this, queue, stats
    {
      && queue.Valid()
      && Conserved()
      && (nonPersistentFd == NO_FD ==> current.nonPerBytes == 0 && current.nonPerPackets == 0)
    }

    /** Each overall counter is the sum over closed connections plus the current counter; bytes and
        packets of demoted connections are counted on both sides. */
    ghost predicate Conserved()
      reads this, stats
    {
      var closed, slot, queued := stats.closedTotal, books.demotedToSlot, books.demotedToQueue;
      && all.both == closed.both + current.both
      && all.persistent == closed.persistent + current.persistent
      && all.nonPersistent == closed.nonPersistent + current.nonPersistent
      && all.perReads == closed.perReads + current.perReads
      && all.nonPerReads == closed.nonPerReads + current.nonPerReads
      && all.perBytes == closed.perBytes + current.perBytes + slot.bytes + queued.bytes
      && all.perPackets == closed.perPackets + current.perPackets + slot.packets + queued.packets
      && all.nonPerBytes == closed.nonPerBytes + current.nonPerBytes + queued.bytes
      && all.nonPerPackets == closed.nonPerPackets + current.nonPerPackets + queued.packets
    }

    /** Hence each overall counter is the sum over the stored windows, the window being filled and the
        current connection. */
    lemma ThreeLevels()
      requires Valid() && stats.Valid()
      ensures var w, t := AddWindows(stats.statsArray[..stats.statsCount]), stats.tempStats.sums;
              && all.both == w.both + t.both + current.both
              && all.persistent == w.persistent + t.persistent + current.persistent
              && all.nonPersistent == w.nonPersistent + t.nonPersistent + current.nonPersistent
              && all.perReads - all.both == w.onlyPersistent + t.onlyPersistent + (current.perReads - current.both)
              && all.nonPerReads - all.both ==
                 w.onlyNonPersistent + t.onlyNonPersistent + (current.nonPerReads - current.both)
              && all.perBytes == w.perBytes + t.perBytes + current.perBytes
                 + books.demotedToSlot.bytes + books.demotedToQueue.bytes
              && all.nonPerBytes == w.nonPerBytes + t.nonPerBytes + current.nonPerBytes + books.demotedToQueue.bytes
              && all.perPackets == w.perPackets + t.perPackets + current.perPackets
                 + books.demotedToSlot.packets + books.demotedToQueue.packets
              && all.nonPerPackets == w.nonPerPackets + t.nonPerPackets + current.nonPerPackets
                 + books.demotedToQueue.packets
    {
      WindowsAndRest(
        stats.history, stats.interval, stats.statsArray.Length, stats.statsArray[..stats.statsCount], stats.tempStats);
      TotalsAgree(stats.history);
    }

    ghost function View(): State
      requires queue.Valid()
      reads this, queue, queue.slots, stats
    {
      State(persistentFd, nonPersistentFd, nonPerConnectTime, queue.Contents(),
        times, pick, current, stats.history,
        activeClients, rejected, registered, running, books)
    }

    constructor (queue: WaitingQueue, stats: StatsWindows)
      requires queue.Valid() && queue.Contents() == [] && stats.history == [] && stats.closedTotal == ZERO_TALLY
      ensures this.queue == queue && this.stats == stats
      ensures Valid() && View() == START
    {
      this.queue, this.stats := queue, stats;
      persistentFd, nonPersistentFd, nonPerConnectTime, pick := NO_FD, NO_FD, 0.0, NO_FD;
      times := Times(false, 0.0, false, 0.0, 0.0);
      activeClients, rejected, running, registered := 0, 0, true, {};
      current, all := ZERO_TALLY, ZERO_TALLY;
      books := Books(0, 0, Moved(0, 0), Moved(0, 0), [], [], 0, true);
    }

    /** A descriptor goes out of the interest list and is closed. */
    method CloseClient(fd: int)
      requires queue.Valid()
      modifies `activeClients, `registered, `books
      ensures View() == Drop(old(View()), fd)
      ensures books == old(books).(closed := old(books).closed + 1)
    {
      activeClients := activeClients - 1;
      registered := registered - {fd};
      books := books.(closed := books.closed + 1);
    }

    /** The block that both ways of losing the non-persistent connection share. */
    method CloseAndPromote(addOk: bool) returns (ok: bool)
      requires Valid()
      requires stats.Valid()
      modifies this, queue, queue.slots, stats, stats.statsArray
      ensures stats.Valid()
      ensures Valid() && View() == Promote(Release(old(View())), addOk)
      ensures ok == CanPromote(Release(old(View())), addOk)
    {
      CloseBooks();
      ok := PromoteHead(addOk);
    }

    method CloseBooks()
      requires Valid()
      requires stats.Valid()
      modifies `nonPersistentFd, `current, `times, `books, stats, stats.statsArray
      ensures stats.Valid()
      ensures Valid() && View() == Release(old(View()))
    {
      var oneconn2Duration := times.conn2End - times.conn2Start;
      stats.Record(current, oneconn2Duration);
      EmptySlot(stats.history);
    }

    /** The counters of the slot start again from zero once they are in the windows. */
    method EmptySlot(ghost history: seq<Closed>)
      requires queue.Valid() && stats.history == history
      modifies `nonPersistentFd, `current, `times, `books
      ensures queue.Valid() && View() == Release(old(View())).(history := history)
      ensures current == ZERO_TALLY && nonPersistentFd == NO_FD
      ensures books.demotedToSlot == old(books.demotedToSlot) && books.demotedToQueue == old(books.demotedToQueue)
    {
      nonPersistentFd := NO_FD;
      current := ZERO_TALLY;
      times := times.(conn2Started := false);
      books := books.(releases := books.releases + 1);
    }

    method PromoteHead(addOk: bool) returns (ok: bool)
      requires Valid() && nonPersistentFd == NO_FD
      modifies `nonPersistentFd, `nonPerConnectTime, `current, `registered, `activeClients, `books, queue, queue.slots
      ensures Valid() && View() == Promote(old(View()), addOk)
      ensures ok == CanPromote(old(View()), addOk)
    {
      ok := true;
      if queue.count > 0 {
        ghost var before := queue.Contents();
        var head := queue.Dequeue();
        assert before[0] == head && before[1..] == queue.Contents();
        ok := InstallHead(head, addOk);
      }
    }

    /** The connection taken from the queue goes into the slot, or is closed when it cannot be
        registered. */
    method InstallHead(head: Waiting, addOk: bool) returns (ok: bool)
      requires Valid() && nonPersistentFd == NO_FD
      modifies `nonPersistentFd, `nonPerConnectTime, `current, `registered, `activeClients, `books
      ensures Valid() && View() == Promote(old(View()).(queue := [head] + queue.Contents()), addOk)
      ensures ok == (addOk && head.fd !in old(registered))
    {
      assert ([head] + queue.Contents())[1..] == queue.Contents();
      TakeFromQueue(head);
      ok := addOk && head.fd !in registered;
      if ok {
        registered := registered + {head.fd};
      } else {
        RefuseHead(head.fd);
      }
    }

    method TakeFromQueue(head: Waiting)
      requires Valid() && nonPersistentFd == NO_FD
      modifies `nonPersistentFd, `nonPerConnectTime, `current, `books
      ensures Valid() && current == old(current)
      ensures View() == old(View()).(nonPersistentFd := head.fd, nonPerSince := head.since,
                books := old(books).(dequeued := old(books).dequeued + [head.fd]))
    {
      nonPersistentFd := head.fd;
      nonPerConnectTime := head.since;
      books := books.(dequeued := books.dequeued + [head.fd]);
      current := current.(nonPerBytes := 0, nonPerPackets := 0);
    }

    method RefuseHead(fd: int)
      requires Valid() && current.nonPerBytes == 0 && current.nonPerPackets == 0
      modifies `nonPersistentFd, `activeClients, `registered, `books
      ensures Valid()
      ensures View() == old(View()).(nonPersistentFd := NO_FD, active := old(activeClients) - 1,
                registered := old(registered) - {fd},
                books := old(books).(closed := old(books).closed + 1, allPromoted := false))
    {
      CloseClient(fd);
      nonPersistentFd := NO_FD;
      books := books.(allPromoted := false);
    }

    /** The check at the top of the loop; not ok means that the rest of the round is skipped. */
    method EvictInactive(now: real, addOk: bool) returns (ok: bool)
      requires Valid()
      requires stats.Valid()
      modifies this, queue, queue.slots, stats, stats.statsArray
      ensures stats.Valid()
      ensures Valid() && View() == Evict(old(View()), now, addOk)
      ensures ok == !Skips(old(View()), now, addOk)
    {
      ok := true;
      if nonPersistentFd != NO_FD {
        var inactive := now - nonPerConnectTime;
        if inactive >= INACTIVE_TIMEOUT && current.nonPerBytes == 0 {
          CloseClient(nonPersistentFd);
          ok := CloseAndPromote(addOk);
        }
      }
    }

    method AcceptClient(clientFd: int, now: real)
      requires Valid()
      modifies `activeClients, `books, `persistentFd, `registered, `nonPersistentFd, `nonPerConnectTime, `rejected
      modifies queue, queue.slots
      ensures Valid() && View() == Accept(queue.slots.Length, old(View()), clientFd, now)
    {
      if clientFd >= 0 {
        AdmitClient();
        PlaceClient(clientFd, now);
      }
    }

    method AdmitClient()
      requires Valid()
      modifies `activeClients, `books
      ensures Valid() && View() == Admit(old(View()))
    {
      activeClients := activeClients + 1;
      books := books.(accepted := books.accepted + 1);
    }

    method PlaceClient(clientFd: int, now: real)
      requires Valid()
      modifies `activeClients, `books, `persistentFd, `registered, `nonPersistentFd, `nonPerConnectTime, `rejected
      modifies queue, queue.slots
      ensures Valid() && View() == Place(queue.slots.Length, old(View()), clientFd, now)
    {
      if persistentFd == NO_FD {
        persistentFd := clientFd;
        registered := registered + {clientFd};
      } else if nonPersistentFd == NO_FD {
        TakeSlot(clientFd, now);
      } else if queue.count < queue.slots.Length {
        QueueClient(clientFd, now);
      } else {
        activeClients := activeClients - 1;
        rejected := rejected + 1;
      }
    }

    method TakeSlot(fd: int, now: real)
      requires Valid() && nonPersistentFd == NO_FD
      modifies `nonPersistentFd, `nonPerConnectTime, `registered
      ensures Valid()
      ensures View() == old(View()).(nonPersistentFd := fd, nonPerSince := now, registered := old(registered) + {fd})
    {
      nonPersistentFd := fd;
      nonPerConnectTime := now;
      registered := registered + {fd};
    }

    method QueueClient(fd: int, since: real)
      requires Valid() && queue.count < queue.slots.Length
      modifies `books, queue, queue.slots
      ensures Valid() && View() == Enqueue(old(View()), fd, since)
    {
      books := books.(enqueued := books.enqueued + [fd]);
      queue.Enqueue(Waiting(fd, since));
    }

    /** A connection in the persistent slot that does not send the persistent mark moves on with the
        bytes read so far. */
    method DemotePersistent() returns (ok: bool)
      requires Valid() && persistentFd != NO_FD
      modifies this, queue, queue.slots
      ensures Valid() && View() == Demote(queue.slots.Length, old(View()))
      ensures ok == HasRoom(queue.slots.Length, old(View()))
    {
      ok := true;
      if nonPersistentFd == NO_FD {
        MoveToSlot();
      } else if queue.count < queue.slots.Length {
        MoveToQueue();
      } else {
        activeClients := activeClients - 1;
        registered := registered - {persistentFd};
        rejected := rejected + 1;
        VacatePersistent();
        ok := false;
      }
    }

    method MoveToSlot()
      requires Valid() && nonPersistentFd == NO_FD && persistentFd != NO_FD
      modifies `nonPersistentFd, `nonPerConnectTime, `persistentFd, `times, `books, `all, `current
      ensures Valid() && View() == DemoteToSlot(old(View()))
    {
      nonPersistentFd := persistentFd;
      nonPerConnectTime := times.conn1Start;
      VacatePersistent();
      CarryToSlot();
    }

    method CarryToSlot()
      requires Valid() && current.nonPerBytes == 0 && current.nonPerPackets == 0 && nonPersistentFd != NO_FD
      modifies `books, `all, `current
      ensures Valid()
      ensures var c, b := old(current), old(books);
              View() == old(View()).(
                tally := c.(nonPerBytes := c.perBytes, nonPerPackets := c.perPackets, perBytes := 0, perPackets := 0),
                books := b.(demotedToSlot := AddMoved(b.demotedToSlot, Moved(c.perBytes, c.perPackets))))
    {
      var bytes, packets := current.perBytes, current.perPackets;
      books := books.(demotedToSlot := AddMoved(books.demotedToSlot, Moved(bytes, packets)));
      all := all.(nonPerBytes := all.nonPerBytes + bytes, nonPerPackets := all.nonPerPackets + packets);
      current := current.(nonPerBytes := bytes, nonPerPackets := packets, perBytes := 0, perPackets := 0);
    }

    method MoveToQueue()
      requires Valid() && nonPersistentFd != NO_FD && queue.count < queue.slots.Length
      modifies `persistentFd, `times, `books, `all, `current, queue, queue.slots
      ensures Valid() && View() == DemoteToQueue(old(View()))
    {
      var fd := persistentFd;
      VacatePersistent();
      StrikeOff();
      QueueClient(fd, times.conn1Start);
    }

    method StrikeOff()
      requires Valid()
      modifies `books, `all, `current
      ensures Valid()
      ensures var c, b := old(current), old(books);
              View() == old(View()).(
                tally := c.(perBytes := 0, perPackets := 0),
                books := b.(demotedToQueue := AddMoved(b.demotedToQueue, Moved(c.perBytes, c.perPackets))))
    {
      var bytes, packets := current.perBytes, current.perPackets;
      books := books.(demotedToQueue := AddMoved(books.demotedToQueue, Moved(bytes, packets)));
      all := all.(nonPerBytes := all.nonPerBytes + bytes, nonPerPackets := all.nonPerPackets + packets);
      current := current.(perBytes := 0, perPackets := 0);
    }

    method VacatePersistent()
      requires Valid()
      modifies `persistentFd, `times
      ensures Valid()
      ensures View() == old(View()).(persistentFd := NO_FD, times := old(times).(conn1Started := false))
    {
      persistentFd := NO_FD;
      times := times.(conn1Started := false);
    }

    method CountPersistentRead(bytesRead: nat, now: real)
      requires Valid()
      modifies `times, `current, `all, `pick
      ensures Valid() && View() == CountPersistent(old(View()), bytesRead, now)
    {
      CreditPersistentRead(bytesRead, now);
      PairPersistentRead();
    }

    method CreditPersistentRead(bytesRead: nat, now: real)
      requires Valid()
      modifies `times, `current, `all
      ensures Valid() && View() == CreditPersistent(old(View()), bytesRead, now)
    {
      if !times.conn1Started {
        times := times.(conn1Started := true, conn1Start := now);
      }
      var packets := bytesRead / PACKET_SIZE;
      current := current.(perBytes := current.perBytes + bytesRead, perPackets := current.perPackets + packets,
        perReads := current.perReads + 1);
      all := all.(perBytes := all.perBytes + bytesRead, perPackets := all.perPackets + packets,
        perReads := all.perReads + 1);
    }

    method PairPersistentRead()
      requires Valid()
      modifies `current, `all, `pick
      ensures Valid() && View() == PairPersistent(old(View()))
    {
      if persistentFd != NO_FD && nonPersistentFd != NO_FD {
        if pick == NO_FD {
          pick := persistentFd;
        } else if pick == nonPersistentFd {
          current := current.(nonPersistent := current.nonPersistent + 1, both := current.both + 1);
          all := all.(nonPersistent := all.nonPersistent + 1, both := all.both + 1);
          pick := NO_FD;
        }
      }
    }

    method CountNonPersistentRead(bytesRead: nat, now: real)
      requires Valid() && nonPersistentFd != NO_FD
      modifies `times, `current, `all, `pick
      ensures Valid() && View() == CountNonPersistent(old(View()), bytesRead, now)
    {
      CreditNonPersistentRead(bytesRead, now);
      PairNonPersistentRead();
    }

    method CreditNonPersistentRead(bytesRead: nat, now: real)
      requires Valid() && nonPersistentFd != NO_FD
      modifies `times, `current, `all
      ensures Valid() && View() == CreditNonPersistent(old(View()), bytesRead, now)
    {
      if !times.conn2Started {
        times := times.(conn2Started := true, conn2Start := now);
      }
      times := times.(conn2End := now);
      var packets := bytesRead / PACKET_SIZE;
      current := current.(nonPerBytes := current.nonPerBytes + bytesRead,
        nonPerPackets := current.nonPerPackets + packets, nonPerReads := current.nonPerReads + 1);
      all := all.(nonPerBytes := all.nonPerBytes + bytesRead, nonPerPackets := all.nonPerPackets + packets,
        nonPerReads := all.nonPerReads + 1);
    }

    method PairNonPersistentRead()
      requires Valid()
      modifies `current, `all, `pick
      ensures Valid() && View() == PairNonPersistent(old(View()))
    {
      if persistentFd != NO_FD && nonPersistentFd != NO_FD {
        if pick == NO_FD {
          pick := nonPersistentFd;
        } else if pick == persistentFd {
          current := current.(persistent := current.persistent + 1, both := current.both + 1);
          all := all.(persistent := all.persistent + 1, both := all.both + 1);
          pick := NO_FD;
        }
      }
    }

    method ReadClient(fd: nat, bytesRead: nat, isP: bool, now: real)
      requires Valid()
      modifies this, queue, queue.slots
      ensures Valid() && View() == Read(queue.slots.Length, old(View()), fd, bytesRead, isP, now)
    {
      var ok := true;
      if fd == persistentFd && !isP {
        ok := DemotePersistent();
      }
      if ok {
        if fd == persistentFd {
          CountPersistentRead(bytesRead, now);
        } else if fd == nonPersistentFd {
          CountNonPersistentRead(bytesRead, now);
        }
      }
    }

    method LoseClient(fd: nat, addOk: bool)
      requires Valid()
      requires stats.Valid()
      modifies this, queue, queue.slots, stats, stats.statsArray
      ensures stats.Valid()
      ensures Valid() && View() == HangUp(old(View()), fd, addOk)
    {
      CloseClient(fd);
      if fd == persistentFd {
        VacatePersistent();
        StopWhenIdle();
      } else if fd == nonPersistentFd {
        var ok := CloseAndPromote(addOk);
        if ok {
          StopWhenIdle();
        }
      } else {
        StopWhenIdle();
      }
    }

    method StopWhenIdle()
      requires Valid()
      modifies `running
      ensures Valid() && View() == StopIfIdle(old(View()))
    {
      if activeClients == 0 && queue.count == 0 {
        running := false;
      }
    }

    method HandleEvent(e: Event)
      requires Valid()
      requires stats.Valid()
      modifies this, queue, queue.slots, stats, stats.statsArray
      ensures stats.Valid()
      ensures Valid() && View() == Handle(queue.slots.Length, old(View()), e)
    {
      match e
      case Arrival(client, now) => AcceptClient(client, now);
      case Data(fd, bytes, isP, now) => ReadClient(fd, bytes, isP, now);
      case Hangup(fd, addOk) => LoseClient(fd, addOk);
      case Tick(now, addOk) => var _ := EvictInactive(now, addOk);
      case Stop => running := false;
    }

    /** The state is the last one of a run of these events. */
    ghost predicate Ran(events: seq<Event>, states: seq<State>)
      reads this, queue, queue.slots, stats
    {
      && queue.Valid()
      && IsRun(queue.slots.Length, events, states)
      && states[|events|] == View()
    }

    method NextEvent(e: Event, ghost events: seq<Event>, ghost states: seq<State>) returns (ghost after: seq<State>)
      requires Valid() && Ran(events, states)
      requires stats.Valid()
      modifies this, queue, queue.slots, stats, stats.statsArray
      ensures stats.Valid()
      ensures Valid() && Ran(events + [e], after) && after[..|states|] == states
    {
      HandleEvent(e);
      RunSnoc(queue.slots.Length, events, states, e, View());
      after := states + [View()];
    }

    method HandleBatch(batch: seq<Event>, ghost events: seq<Event>, ghost states: seq<State>)
      returns (ghost after: seq<State>)
      requires Valid() && Ran(events, states)
      requires stats.Valid()
      modifies this, queue, queue.slots, stats, stats.statsArray
      ensures stats.Valid()
      ensures Valid() && Ran(events + batch, after) && after[..|states|] == states
    {
      after := states;
      ghost var done := events;
      var i := 0;
      while i < |batch|
        invariant i <= |batch| && Valid() && stats.Valid()
        invariant done == events + batch[..i] && Ran(done, after) && states <= after
      {
        ghost var next := NextEvent(batch[i], done, after);
        done, after := done + [batch[i]], next;
        i := i + 1;
      }
      assert done == events + batch;
    }

    /** One turn of the loop. */
    method HandleRound(r: Round, ghost events: seq<Event>, ghost states: seq<State>) returns (ghost after: seq<State>)
      requires Valid() && Ran(events, states)
      requires stats.Valid()
      modifies this, queue, queue.slots, stats, stats.statsArray
      ensures stats.Valid()
      ensures Valid() && Ran(events + RoundEvents(old(View()), r), after) && after[..|states|] == states
    {
      match r {
        case Quiet =>
          after := NextEvent(Stop, events, states);
        case Round(now, addOk, batch) =>
          after := HandleActiveRound(now, addOk, batch, events, states);
      }
    }

    method HandleActiveRound(
      now: real, addOk: bool, batch: seq<Event>, ghost events: seq<Event>, ghost states: seq<State>)
      returns (ghost after: seq<State>)
      requires Valid() && Ran(events, states)
      requires stats.Valid()
      modifies this, queue, queue.slots, stats, stats.statsArray
      ensures stats.Valid()
      ensures Valid() && Ran(events + RoundEvents(old(View()), Round(now, addOk, batch)), after)
      ensures after[..|states|] == states
    {
      var ok;
      ok, after := CheckInactive(now, addOk, events, states);
      TickThen(events, Tick(now, addOk), batch);
      if ok {
        after := HandleBatch(batch, events + [Tick(now, addOk)], after);
      }
    }

    method CheckInactive(now: real, addOk: bool, ghost events: seq<Event>, ghost states: seq<State>)
      returns (ok: bool, ghost after: seq<State>)
      requires Valid() && Ran(events, states)
      requires stats.Valid()
      modifies this, queue, queue.slots, stats, stats.statsArray
      ensures stats.Valid()
      ensures Valid() && Ran(events + [Tick(now, addOk)], after) && after[..|states|] == states
      ensures ok == !Skips(old(View()), now, addOk)
    {
      ok := EvictInactive(now, addOk);
      RunSnoc(queue.slots.Length, events, states, Tick(now, addOk), View());
      after := states + [View()];
    }

    /** One more turn, while not told to stop. */
    method PlayRound(rounds: seq<Round>, i: nat, ghost events: seq<Event>, ghost states: seq<State>)
      returns (ghost more: seq<Event>, ghost after: seq<State>)
      requires i < |rounds|
      requires Valid() && running && Ran(events, states) && Plays(rounds[..i], events, states)
      requires stats.Valid()
      modifies this, queue, queue.slots, stats, stats.statsArray
      ensures stats.Valid()
      ensures Valid() && Ran(more, after) && Plays(rounds[..i + 1], more, after)
    {
      ghost var handled := RoundEvents(View(), rounds[i]);
      after := HandleRound(rounds[i], events, states);
      PlaysNext(rounds, i, events, states, handled, after);
      more := events + handled;
    }

    /** The loop, until it is told to stop or nothing more happens. */
    method HandleRounds(rounds: seq<Round>) returns (ghost events: seq<Event>, ghost states: seq<State>)
      requires Valid() && View() == START
      requires stats.Valid()
      modifies this, queue, queue.slots, stats, stats.statsArray
      ensures stats.Valid()
      ensures Valid() && Ran(events, states) && Plays(rounds, events, states)
      ensures exists cuts :: InRounds(rounds, events, states, cuts)
    {
      events, states := [], [START];
      var i := 0;
      while i < |rounds| && running
        invariant i <= |rounds| && Valid() && stats.Valid()
        invariant Ran(events, states) && Plays(rounds[..i], events, states)
      {
        events, states := PlayRound(rounds, i, events, states);
        i := i + 1;
      }
      StoppedPlays(rounds, i, events, states);
      ghost var cuts := PlaysInRounds(queue.slots.Length, rounds, events, states);
    }

    method CloseQueued()
      requires queue.Valid()
      modifies `activeClients, queue`count
      ensures activeClients == old(activeClients) - |old(queue.Contents())| && queue.count == 0
    {
      var i := 0;
      while i < queue.count
        invariant i <= queue.count == old(queue.count) && activeClients == old(activeClients) - i
      {
        activeClients := activeClients - 1;
        i := i + 1;
      }
      queue.count := 0;
    }

    /** After the loop: save the last window, close what is still queued, collect the figures. */
    method Finish() returns (r: Report)
      requires Valid()
      requires stats.Valid()
      modifies this, queue, stats, stats.statsArray
      ensures IsReport(r, old(View()), stats.interval, stats.statsArray.Length)
      ensures activeClients == old(activeClients) - |old(queue.Contents())| && queue.count == 0
    {
      stats.SaveRemaining();
      var ranges := stats.Ranges();
      CloseQueued();
      r := Report(stats.statsArray[..stats.statsCount], ranges, stats.connectionCount, stats.conn2Duration,
        rejected, all);
    }
  }

  /** The report is that of a run over the rounds, one after the other, whose pairs and reads fit. */
  ghost predicate IsOutcome(cap: nat, interval: nat, slots: nat, rounds: seq<Round>, r: Report)
    requires interval > 0
  {
    exists events: seq<Event>, states: seq<State> ::
      && IsRun(cap, events, states) && Plays(rounds, events, states)
      && (exists cuts :: InRounds(rounds, events, states, cuts))
      && IsReport(r, states[|events|], interval, slots) && Fits(r, cap, events, states)
  }

  /** The server from start to report, over any rounds of events. */
  method Serve(cap: nat, interval: nat, slots: nat, rounds: seq<Round>) returns (r: Report)
    requires interval > 0
    ensures IsOutcome(cap, interval, slots, rounds, r)
  {
    var queue := new WaitingQueue(cap);
    var stats := new StatsWindows(interval, slots);
    var server := new Server(queue, stats);
    ghost var events, states := server.HandleRounds(rounds);
    r := server.Finish();
    ReportFits(r, cap, events, states, interval, slots);
  }
}
