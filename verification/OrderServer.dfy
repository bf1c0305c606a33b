/** The event loop of the two-socket server around the pairing automaton: which reads are
    counted, what is added up for them, and what is reported at the end. */
module OrderServing {
  import opened OrderPairing

  const NO_SOCKET := -1
  const PACKET_SIZE := 60

  /** What the loop sees: a return value of accept, or a return value of recv on a client's fd. */
  datatype Event = Arrived(fd: int) | Received(fd: int, bytes: int)

  /** A read that takes part in the pairing. */
  datatype Read = Read(role: Role, bytes: nat)

  datatype Sockets = Sockets(first: int, second: int, arrivals: nat, active: int, running: bool)

  /** Names go to the first two descriptors accepted; every return of accept is an arrival,
      and anything but data read under exactly two arrivals closes the client. */
  function Handle(s: Sockets, e: Event): Sockets {
    match e
    case Arrived(fd) =>
      if fd < 0 then s.(arrivals := s.arrivals + 1)
      else if s.first == NO_SOCKET then s.(first := fd, arrivals := s.arrivals + 1, active := s.active + 1)
      else if s.second == NO_SOCKET then s.(second := fd, arrivals := s.arrivals + 1, active := s.active + 1)
      else s.(arrivals := s.arrivals + 1, active := s.active + 1)
    case Received(_, bytes) =>
      if bytes > 0 && s.arrivals == 2 then s
      else
        var active := if bytes == 0 then s.active - 1 else s.active;
        s.(active := active, running := s.running && active != 0)
  }

  /** The read, if any, that the event adds to the pairing. */
  function Pairable(s: Sockets, e: Event): seq<Read> {
    if e.Arrived? || e.bytes <= 0 || s.arrivals != 2 then []
    else if e.fd == s.first then [Read(First, e.bytes)]
    else if e.fd == s.second then [Read(Second, e.bytes)]
    else []
  }

  /** Whether the event is data on the socket that holds the name, paired or not. */
  predicate IsData(s: Sockets, e: Event, r: Role) {
    e.Received? && e.bytes > 0 && e.fd == if r == First then s.first else s.second
  }

  function After(events: seq<Event>): Sockets {
    if events == [] then Sockets(NO_SOCKET, NO_SOCKET, 0, 0, true)
    else Handle(After(events[..|events| - 1]), events[|events| - 1])
  }

  function Counted(events: seq<Event>): seq<Read> {
    if events == [] then []
    else
      var init := events[..|events| - 1];
      Counted(init) + Pairable(After(init), events[|events| - 1])
  }

  function DataReads(events: seq<Event>, r: Role): nat {
    if events == [] then 0
    else
      var init := events[..|events| - 1];
      DataReads(init, r) + if IsData(After(init), events[|events| - 1], r) then 1 else 0
  }

  function Roles(counted: seq<Read>): seq<Role> {
    seq(|counted|, i requires 0 <= i < |counted| => counted[i].role)
  }

  function Bytes(counted: seq<Read>, r: Role): nat {
    if counted == [] then 0
    else
      var last := counted[|counted| - 1];
      Bytes(counted[..|counted| - 1], r) + if last.role == r then last.bytes else 0
  }

  /** Whole packets, rounded down read by read. */
  function Packets(counted: seq<Read>, r: Role): nat {
    if counted == [] then 0
    else
      var last := counted[|counted| - 1];
      Packets(counted[..|counted| - 1], r) + if last.role == r then last.bytes / PACKET_SIZE else 0
  }

  lemma RolesSnoc(counted: seq<Read>, x: Read)
    ensures Roles(counted + [x]) == Roles(counted) + [x.role]
    ensures Count(Roles(counted + [x])) == Observe(Count(Roles(counted)), x.role)
    ensures forall r :: Bytes(counted + [x], r) == Bytes(counted, r) + if x.role == r then x.bytes else 0
    ensures forall r ::
              Packets(counted + [x], r) == Packets(counted, r) + if x.role == r then x.bytes / PACKET_SIZE else 0
  {
  }

  lemma EventsSnoc(events: seq<Event>, e: Event)
    ensures After(events + [e]) == Handle(After(events), e)
    ensures Counted(events + [e]) == Counted(events) + Pairable(After(events), e)
    ensures forall r ::
              DataReads(events + [e], r) == DataReads(events, r) + if IsData(After(events), e, r) then 1 else 0
  {
  }

  lemma TakeNothing(before: seq<Event>, batch: seq<Event>)
    ensures before + batch[..0] == before && batch[..|batch|] == batch
  {
  }

  lemma TakeNext(before: seq<Event>, batch: seq<Event>, i: nat)
    requires i < |batch|
    ensures before + batch[..i] + [batch[i]] == before + batch[..i + 1]
  {
  }

  // ---------------------------------------------------------------- names and figures

  /** The descriptors that accept has returned, in order. */
  function Accepted(events: seq<Event>): seq<int> {
    if events == [] then []
    else
      var e := events[|events| - 1];
      Accepted(events[..|events| - 1]) + if e.Arrived? && e.fd >= 0 then [e.fd] else []
  }

  /** Returns of accept, failed ones included. */
  function Arrivals(events: seq<Event>): nat {
    if events == [] then 0
    else Arrivals(events[..|events| - 1]) + if events[|events| - 1].Arrived? then 1 else 0
  }

  /** Connections that the peer has closed. */
  function Ends(events: seq<Event>): nat {
    if events == [] then 0
    else
      var e := events[|events| - 1];
      Ends(events[..|events| - 1]) + if e.Received? && e.bytes == 0 then 1 else 0
  }

  /** The descriptor with the name: the first, or the second, that accept has returned. */
  function Holder(events: seq<Event>, r: Role): int {
    var i := if r == First then 0 else 1;
    if i < |Accepted(events)| then Accepted(events)[i] else NO_SOCKET
  }

  lemma {:induction false} NamesInOrder(events: seq<Event>)
    ensures After(events).first == Holder(events, First) && After(events).second == Holder(events, Second)
    ensures After(events).arrivals == Arrivals(events)
    ensures After(events).active == |Accepted(events)| - Ends(events)
    ensures forall i :: 0 <= i < |Accepted(events)| ==> Accepted(events)[i] >= 0
  {
    if events != [] {
      NamesInOrder(events[..|events| - 1]);
    }
  }

  /** The event ends a connection, or fails to read, and leaves nobody. */
  ghost predicate StopsAt(events: seq<Event>, k: nat)
    requires k < |events|
  {
    && events[k].Received? && (events[k].bytes <= 0 || Arrivals(events[..k]) != 2)
    && |Accepted(events[..k + 1])| == Ends(events[..k + 1])
  }

  lemma {:induction false} RunningIff(events: seq<Event>)
    ensures After(events).running <==> forall k :: 0 <= k < |events| ==> !StopsAt(events, k)
  {
    if events != [] {
      var n := |events| - 1;
      var init := events[..n];
      RunningIff(init);
      forall k | 0 <= k < n ensures StopsAt(init, k) <==> StopsAt(events, k) {
        assert init[..k] == events[..k] && init[..k + 1] == events[..k + 1];
      }
      NamesInOrder(init);
      NamesInOrder(events);
      assert events[..n + 1] == events && events[..n] == init;
      assert After(events).running == (After(init).running && !StopsAt(events, n));
    }
  }

  /** The event is data on the socket with the name, and is paired when there have been two arrivals. */
  predicate IsDataOn(events: seq<Event>, e: Event, r: Role) {
    e.Received? && e.bytes > 0 && e.fd == Holder(events, r)
  }

  /** What one more event adds to the reads that are paired and to the totals. */
  lemma NextFigures(events: seq<Event>, e: Event)
    ensures Counted(events + [e]) == Counted(events) +
              if Arrivals(events) != 2 then []
              else if IsDataOn(events, e, First) then [Read(First, e.bytes)]
              else if IsDataOn(events, e, Second) then [Read(Second, e.bytes)]
              else []
    ensures forall r ::
              DataReads(events + [e], r) == DataReads(events, r) + if IsDataOn(events, e, r) then 1 else 0
  {
    EventsSnoc(events, e);
    NamesInOrder(events);
  }

  /** Bytes are added up role by role: nothing is lost between two stretches of reads. */
  lemma {:induction false} BytesConcat(a: seq<Read>, b: seq<Read>, r: Role)
    ensures Bytes(a + b, r) == Bytes(a, r) + Bytes(b, r)
    ensures |b| == 1 ==> Bytes(b, r) == if b[0].role == r then b[0].bytes else 0
  {
    if b == [] {
      assert a + b == a;
    } else {
      var n := |b| - 1;
      BytesConcat(a, b[..n], r);
      assert a + b == (a + b[..n]) + [b[n]];
    }
  }

  /** Pairing uses only reads that the per-socket totals also count. */
  lemma {:induction false} CountedReadsAreDataReads(events: seq<Event>)
    ensures Reads(Roles(Counted(events)), First) <= DataReads(events, First)
    ensures Reads(Roles(Counted(events)), Second) <= DataReads(events, Second)
  {
    if events != [] {
      var init := events[..|events| - 1];
      CountedReadsAreDataReads(init);
      if Counted(events) != Counted(init) {
        var x := Counted(events)[|Counted(init)|];
        RolesSnoc(Counted(init), x);
        CountSnoc(Roles(Counted(init)), x.role);
      }
    }
  }

  /** Rounding down read by read loses less than one packet a read. */
  lemma {:induction false} PacketsRoundDown(counted: seq<Read>, r: Role)
    ensures PACKET_SIZE * Packets(counted, r) <= Bytes(counted, r)
    ensures Bytes(counted, r) <= PACKET_SIZE * Packets(counted, r) + (PACKET_SIZE - 1) * Reads(Roles(counted), r)
  {
    if counted != [] {
      var n := |counted| - 1;
      PacketsRoundDown(counted[..n], r);
      assert counted == counted[..n] + [counted[n]];
      RolesSnoc(counted[..n], counted[n]);
      CountSnoc(Roles(counted[..n]), counted[n].role);
    }
  }

  datatype Report = Report(
    firstBeforeSecond: int, secondBeforeFirst: int, both: int,
    firstAlone: int, secondAlone: int,
    bytes1: nat, bytes2: nat, packets1: nat, packets2: nat)

  class OrderServer {
    var firstSocket: int
    var secondSocket: int
    var count: nat
    var activeClients: int
    var running: bool
    var pick: int
    var both: nat
    var socket1BeforeSocket2: nat
    var socket2BeforeSocket1: nat
    var socket1Total: nat
    var socket2Total: nat
    var conn1Bytes: nat
    var conn2Bytes: nat
    var conn1Packets: nat
    var conn2Packets: nat
    ghost var events: seq<Event>

    static function PickCode(p: Pick): int {
      match p
      case Nothing => -1
      case Saw(First) => 1
      case Saw(Second) => 2
    }

    ghost predicate Valid()
      reads this
    {
      Shows(After(events), Counted(events), DataReads(events, First), DataReads(events, Second))
    }

    ghost predicate Shows(s: Sockets, counted: seq<Read>, data1: nat, data2: nat)
      reads this
    {
      && s == Sockets(firstSocket, secondSocket, count, activeClients, running)
      && socket1Total == data1 && socket2Total == data2
      && Paired(counted)
    }

    /** The pairing counters are those of the given reads. */
    ghost predicate Paired(counted: seq<Read>)
      reads `pick, `both, `socket1BeforeSocket2, `socket2BeforeSocket1
      reads `conn1Bytes, `conn2Bytes, `conn1Packets, `conn2Packets
    {
      var tally := Count(Roles(counted));
      && pick == PickCode(tally.pick)
      && both == tally.both
      && socket1BeforeSocket2 == tally.firstBeforeSecond
      && socket2BeforeSocket1 == tally.secondBeforeFirst
      && conn1Bytes == Bytes(counted, First) && conn2Bytes == Bytes(counted, Second)
      && conn1Packets == Packets(counted, First) && conn2Packets == Packets(counted, Second)
    }

    constructor ()
      ensures Valid() && events == []
    {
      firstSocket, secondSocket := NO_SOCKET, NO_SOCKET;
      count, activeClients, running := 0, 0, true;
      pick, both, socket1BeforeSocket2, socket2BeforeSocket1 := -1, 0, 0, 0;
      socket1Total, socket2Total := 0, 0;
      conn1Bytes, conn2Bytes, conn1Packets, conn2Packets := 0, 0, 0, 0;
      events := [];
    }

    method Accept(clientFd: int)
      requires Valid()
      modifies this
      ensures Valid() && events == old(events) + [Arrived(clientFd)]
    {
      EventsSnoc(events, Arrived(clientFd));
      assert Counted(events) + [] == Counted(events);
      Name(clientFd, Counted(events), socket1Total, socket2Total);
      events := events + [Arrived(clientFd)];
    }

    method Name(clientFd: int, ghost counted: seq<Read>, ghost data1: nat, ghost data2: nat)
      requires Paired(counted) && socket1Total == data1 && socket2Total == data2
      modifies `count, `activeClients, `firstSocket, `secondSocket
      ensures Shows(
        Handle(old(Sockets(firstSocket, secondSocket, count, activeClients, running)), Arrived(clientFd)),
        counted, data1, data2)
    {
      count := count + 1;
      if clientFd < 0 {
        return;
      }
      activeClients := activeClients + 1;
      if firstSocket == NO_SOCKET {
        firstSocket := clientFd;
      } else if secondSocket == NO_SOCKET {
        secondSocket := clientFd;
      }
    }

    method CountFirst(ghost counted: seq<Read>, received: nat)
      requires Paired(counted)
      modifies this`pick, this`both, this`socket2BeforeSocket1, this`conn1Bytes, this`conn1Packets
      ensures Paired(counted + [Read(First, received)])
    {
      RolesSnoc(counted, Read(First, received));
      conn1Bytes := conn1Bytes + received;
      conn1Packets := conn1Packets + received / PACKET_SIZE;
      if pick == -1 {
        pick := 1;
      } else if pick == 2 {
        socket2BeforeSocket1 := socket2BeforeSocket1 + 1;
        pick := -1;
        both := both + 1;
      }
    }

    method CountSecond(ghost counted: seq<Read>, received: nat)
      requires Paired(counted)
      modifies this`pick, this`both, this`socket1BeforeSocket2, this`conn2Bytes, this`conn2Packets
      ensures Paired(counted + [Read(Second, received)])
    {
      RolesSnoc(counted, Read(Second, received));
      conn2Bytes := conn2Bytes + received;
      conn2Packets := conn2Packets + received / PACKET_SIZE;
      if pick == -1 {
        pick := 2;
      } else if pick == 1 {
        socket1BeforeSocket2 := socket1BeforeSocket2 + 1;
        pick := -1;
        both := both + 1;
      }
    }

    method ClientData(fd: int, received: int) returns (closed: bool)
      requires Valid()
      modifies this
      ensures Valid() && events == old(events) + [Received(fd, received)]
      ensures closed <==> received <= 0 || old(count) != 2
    {
      EventsSnoc(events, Received(fd, received));
      closed := HandleData(fd, received, Counted(events));
      events := events + [Received(fd, received)];
    }

    method HandleData(fd: int, received: int, ghost counted: seq<Read>) returns (closed: bool)
      requires Paired(counted)
      modifies `socket1Total, `socket2Total, `activeClients, `running
      modifies `pick, `both, `socket1BeforeSocket2, `socket2BeforeSocket1
      modifies `conn1Bytes, `conn2Bytes, `conn1Packets, `conn2Packets
      ensures var s := old(Sockets(firstSocket, secondSocket, count, activeClients, running));
              var e := Received(fd, received);
              Shows(Handle(s, e), counted + Pairable(s, e),
                old(socket1Total) + (if IsData(s, e, First) then 1 else 0),
                old(socket2Total) + (if IsData(s, e, Second) then 1 else 0))
      ensures closed <==> received <= 0 || count != 2
    {
      CountTotals(fd, received);
      closed := !(received > 0 && count == 2);
      if closed {
        LoseClient(received);
      } else {
        PairData(fd, received, counted);
      }
      assert counted + [] == counted;
    }

    method PairData(fd: int, received: nat, ghost counted: seq<Read>)
      requires Paired(counted)
      modifies `pick, `both, `socket1BeforeSocket2, `socket2BeforeSocket1
      modifies `conn1Bytes, `conn2Bytes, `conn1Packets, `conn2Packets
      ensures Paired(counted + if fd == firstSocket then [Read(First, received)]
                               else if fd == secondSocket then [Read(Second, received)] else [])
    {
      if fd == firstSocket {
        CountFirst(counted, received);
      } else if fd == secondSocket {
        CountSecond(counted, received);
      } else {
        assert counted + [] == counted;
      }
    }

    /** Per-socket totals count every read of data, whatever the number of arrivals. */
    method CountTotals(fd: int, received: int)
      modifies `socket1Total, `socket2Total
      ensures socket1Total == old(socket1Total) + if fd == firstSocket && received > 0 then 1 else 0
      ensures socket2Total == old(socket2Total) + if fd == secondSocket && received > 0 then 1 else 0
    {
      if fd == firstSocket && received > 0 {
        socket1Total := socket1Total + 1;
      }
      if fd == secondSocket && received > 0 {
        socket2Total := socket2Total + 1;
      }
    }

    /** A return of recv that is not counted data ends the connection. */
    method LoseClient(received: int)
      modifies `activeClients, `running
      ensures activeClients == old(activeClients) - if received == 0 then 1 else 0
      ensures running == (old(running) && activeClients != 0)
    {
      if received == 0 {
        activeClients := activeClients - 1;
      }
      if activeClients == 0 {
        running := false;
      }
    }

    method HandleEvent(e: Event)
      requires Valid()
      modifies this
      ensures Valid() && events == old(events) + [e]
    {
      match e
      case Arrived(fd) => Accept(fd);
      case Received(fd, bytes) => var _ := ClientData(fd, bytes);
    }

    method HandleBatch(batch: seq<Event>)
      requires Valid()
      modifies this
      ensures Valid() && events == old(events) + batch
    {
      ghost var before := events;
      TakeNothing(before, batch);
      var i := 0;
      while i < |batch|
        invariant i <= |batch| && Valid()
        invariant events == before + batch[..i]
      {
        HandleEvent(batch[i]);
        TakeNext(before, batch, i);
        i := i + 1;
      }
    }

    method PrintOrderRatio() returns (r: Report)
      requires Valid()
      ensures IsReport(r, events)
    {
      r := Report(socket1BeforeSocket2, socket2BeforeSocket1, both,
        socket1Total - (socket1BeforeSocket2 + socket2BeforeSocket1),
        socket2Total - (socket1BeforeSocket2 + socket2BeforeSocket1),
        conn1Bytes, conn2Bytes, conn1Packets, conn2Packets);
      ghost var trace := Roles(Counted(events));
      PairsSpendReads(trace);
      CountedReadsAreDataReads(events);
      PairingIsOptimal(trace);
    }
  }

  /** What the printed figures mean for the events handled. */
  ghost predicate IsReport(r: Report, events: seq<Event>) {
    var counted := Counted(events);
    var trace := Roles(counted);
    && Optimal(trace, r.both)
    && r.both == r.firstBeforeSecond + r.secondBeforeFirst
    && r.firstBeforeSecond == Count(trace).firstBeforeSecond
    && r.firstAlone == DataReads(events, First) - r.both && r.firstAlone >= 0
    && r.secondAlone == DataReads(events, Second) - r.both && r.secondAlone >= 0
    && r.bytes1 == Bytes(counted, First) && r.bytes2 == Bytes(counted, Second)
    && r.packets1 == Packets(counted, First) && r.packets2 == Packets(counted, Second)
  }

  function Flatten(batches: seq<seq<Event>>): seq<Event> {
    if batches == [] then [] else Flatten(batches[..|batches| - 1]) + batches[|batches| - 1]
  }

  lemma FlattenNext(batches: seq<seq<Event>>, n: nat)
    requires n < |batches|
    ensures Flatten(batches[..n + 1]) == Flatten(batches[..n]) + batches[n]
  {
    assert batches[..n + 1][..n] == batches[..n];
  }

  ghost predicate RunningBefore(batches: seq<seq<Event>>, k: nat)
    requires k <= |batches|
  {
    After(Flatten(batches[..k])).running
  }

  /** The server from start to report: batches of events are handled whole, and the stop flag
      is looked at between batches. */
  method Serve(batches: seq<seq<Event>>) returns (r: Report, handled: nat)
    ensures handled <= |batches| && IsReport(r, Flatten(batches[..handled]))
    ensures handled < |batches| ==> !After(Flatten(batches[..handled])).running
    ensures forall k: nat :: k < handled ==> RunningBefore(batches, k)
  {
    var server := new OrderServer();
    handled := 0;
    while handled < |batches| && server.running
      invariant handled <= |batches|
      invariant server.Valid() && server.events == Flatten(batches[..handled])
      invariant forall k: nat :: k < handled ==> RunningBefore(batches, k)
    {
      server.HandleBatch(batches[handled]);
      FlattenNext(batches, handled);
      handled := handled + 1;
    }
    r := server.PrintOrderRatio();
  }
}
