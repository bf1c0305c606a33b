/** What a read remembered from an earlier connection can do to the differences of reads and pairs over all
    connections. */
module StaleTotals {
  import opened Statistics
  import opened ConnectionModel
  import opened ConnectionRuns
  import opened LoopRuns
  import opened StalePicks

  ghost predicate WillBePromoted(s: State, fd: int) {
    Queued(s, fd) && fd !in s.registered
  }

  /** Over all connections, the kind of slot in which the remembered connection is, or will be, has one
      read more than there are pairs. */
  ghost predicate Spared(s: State) {
    var o := Overall(s);
    && Covered(o)
    && (s.pick != NO_FD && s.pick == s.persistentFd ==> o.both + 1 <= o.perReads)
    && (s.pick != NO_FD && (s.pick == s.nonPersistentFd || WillBePromoted(s, s.pick)) ==> o.both + 1 <= o.nonPerReads)
  }

  lemma CountKeepsSpared(s: State, bytes: nat, now: real)
    requires Distinct(s) && Spared(s)
    ensures s.persistentFd != NO_FD ==> Spared(CountPersistent(s, bytes, now))
    ensures s.nonPersistentFd != NO_FD ==> Spared(CountNonPersistent(s, bytes, now))
  {
    var t, u := CountPersistent(s, bytes, now), CountNonPersistent(s, bytes, now);
    assert t.queue == s.queue && u.queue == s.queue;
    assert WillBePromoted(t, t.pick) ==> t.pick == s.pick && WillBePromoted(s, s.pick);
    assert WillBePromoted(u, u.pick) ==> u.pick == s.pick && WillBePromoted(s, s.pick);
  }

  /** A connection that leaves the persistent slot stays registered, if it stays at all. */
  lemma DemoteKeepsSpared(cap: nat, s: State)
    requires Inv(cap, s) && s.persistentFd != NO_FD && Spared(s)
    requires s.nonPersistentFd != NO_FD
    ensures Spared(Demote(cap, s))
  {
    var t := Demote(cap, s);
    assert s.queue <= t.queue;
    if WillBePromoted(t, s.pick) {
      var i :| 0 <= i < |t.queue| && t.queue[i].fd == s.pick;
      assert i < |s.queue|;
      assert WillBePromoted(s, s.pick);
    }
  }

  /** The read that moves a connection to the other slot is counted there. */
  lemma MovedReadKeepsSpared(cap: nat, s: State, bytes: nat, now: real)
    requires Inv(cap, s) && s.persistentFd != NO_FD && s.nonPersistentFd == NO_FD && Spared(s)
    ensures Spared(CountNonPersistent(Demote(cap, s), bytes, now))
  {
    var t := CountNonPersistent(Demote(cap, s), bytes, now);
    assert t.queue == s.queue && t.registered == s.registered && t.pick == s.pick;
    assert WillBePromoted(t, s.pick) ==> WillBePromoted(s, s.pick);
  }

  lemma ReadKeepsSpared(cap: nat, s: State, fd: nat, bytes: nat, isP: bool, now: real)
    requires Inv(cap, s) && Spared(s)
    ensures Spared(Read(cap, s, fd, bytes, isP, now))
  {
    if fd == s.persistentFd && !isP {
      if s.nonPersistentFd == NO_FD {
        MovedReadKeepsSpared(cap, s, bytes, now);
      } else {
        DemoteKeepsSpared(cap, s);
      }
    } else {
      CountKeepsSpared(s, bytes, now);
    }
  }

  lemma OverallKept(s: State, addOk: bool)
    ensures Overall(Promote(Release(s), addOk)) == Overall(s)
  {
  }

  /** What is promoted now or later was to be promoted before. */
  lemma PromotedFromQueue(cap: nat, s: State, addOk: bool, fd: int)
    requires Inv(cap, s) && s.nonPersistentFd != NO_FD && fd != NO_FD
    ensures var t := Promote(Release(Drop(s, s.nonPersistentFd)), addOk);
            t.nonPersistentFd == fd || WillBePromoted(t, fd) ==> WillBePromoted(s, fd)
  {
    var t := Promote(Release(Drop(s, s.nonPersistentFd)), addOk);
    if t.nonPersistentFd == fd {
      QueuedIn(s, 0);
    } else if WillBePromoted(t, fd) {
      var i :| 0 <= i < |t.queue| && t.queue[i].fd == fd;
      QueuedIn(s, i + 1);
    }
  }

  lemma ClosingKeepsSpared(cap: nat, s: State, addOk: bool)
    requires Inv(cap, s) && s.nonPersistentFd != NO_FD && Spared(s)
    ensures Spared(Promote(Release(Drop(s, s.nonPersistentFd)), addOk))
  {
    OverallKept(Drop(s, s.nonPersistentFd), addOk);
    if s.pick != NO_FD {
      PromotedFromQueue(cap, s, addOk, s.pick);
    }
  }

  lemma HangUpKeepsSpared(cap: nat, s: State, fd: nat, addOk: bool)
    requires Inv(cap, s) && Spared(s) && (fd == s.persistentFd || fd == s.nonPersistentFd)
    ensures Spared(HangUp(s, fd, addOk))
  {
    if fd == s.persistentFd {
      var t := HangUp(s, fd, addOk);
      assert t.queue == s.queue && Overall(t) == Overall(s);
      if WillBePromoted(t, s.pick) {
        var i :| 0 <= i < |s.queue| && s.queue[i].fd == s.pick;
        assert WillBePromoted(s, s.pick);
      }
    } else {
      ClosingKeepsSpared(cap, s, addOk);
    }
  }

  /** An accepted descriptor does harm when it is the remembered one and the kind of slot it gets, now
      or from the queue, has no read to spare. */
  predicate Harmless(cap: nat, s: State, client: int) {
    var o := Overall(s);
    || client < 0 || client != s.pick
    || (s.persistentFd == NO_FD && o.both + 1 <= o.perReads)
    || (s.persistentFd != NO_FD && (s.nonPersistentFd == NO_FD || |s.queue| < cap) && o.both + 1 <= o.nonPerReads)
    || (Paired(s) && |s.queue| >= cap)
  }

  lemma AcceptSparedIff(cap: nat, s: State, client: int, now: real)
    requires Inv(cap, s) && Spared(s) && Possible(s, Arrival(client, now))
    ensures Spared(Accept(cap, s, client, now)) <==> Harmless(cap, s, client)
  {
    var t := Accept(cap, s, client, now);
    assert Overall(t) == Overall(s) && s.queue <= t.queue;
    if client < 0 {
      assert t == s;
    } else {
      assert client !in s.registered && !Queued(s, client);
      if |t.queue| > |s.queue| {
        QueuedIn(t, |s.queue|);
      }
      if client != s.pick && WillBePromoted(t, s.pick) {
        var i :| 0 <= i < |t.queue| && t.queue[i].fd == s.pick;
        assert WillBePromoted(s, s.pick);
      }
    }
  }

  lemma HangUpSparesToo(cap: nat, s: State, fd: nat, addOk: bool)
    requires Inv(cap, s) && Spared(s) && !Queued(s, fd)
    ensures Spared(HangUp(s, fd, addOk))
  {
    if fd == s.persistentFd || fd == s.nonPersistentFd {
      HangUpKeepsSpared(cap, s, fd, addOk);
    } else {
      StaleHangUpChangesCounts(cap, s, fd, addOk);
      var t := HangUp(s, fd, addOk);
      assert WillBePromoted(t, s.pick) ==> WillBePromoted(s, s.pick);
    }
  }

  /** No accept returns the remembered descriptor: then a spare read stays spare. */
  lemma FreshStep(cap: nat, s: State, e: Event, t: State)
    requires Inv(cap, s) && Spared(s) && Linked(cap, s, e, t) && !Recycles(s, e)
    ensures Inv(cap, t) && Spared(t)
  {
    StepKeepsInv(cap, s, e, t);
    match e
    case Arrival(client, now) => AcceptSparedIff(cap, s, client, now);
    case Data(fd, bytes, isP, now) => ReadKeepsSpared(cap, s, fd, bytes, isP, now);
    case Hangup(fd, addOk) => HangUpSparesToo(cap, s, fd, addOk);
    case Tick(now, addOk) => if Inactive(s, now) { ClosingKeepsSpared(cap, s, addOk); }
    case Stop => assert WillBePromoted(t, s.pick) ==> WillBePromoted(s, s.pick);
  }

  // ---------------------------------------------------------------- every possible run

  /** No accept so far has returned the descriptor remembered at the time. */
  ghost predicate NothingRecycled(events: seq<Event>, states: seq<State>)
    requires |states| == |events| + 1
  {
    forall k :: 0 <= k < |events| ==> !Recycles(states[k], events[k])
  }

  lemma StartSpared(s: State)
    requires s.history == [] && s.tally == ZERO_TALLY && s.pick == NO_FD
    ensures Spared(s)
  {
    assert TotalTally(s.history) == ZERO_TALLY;
  }

  lemma NextSpared(cap: nat, events: seq<Event>, states: seq<State>, k: nat)
    requires PossibleRun(cap, events, states) && NothingRecycled(events, states) && k < |events| && Spared(states[k])
    ensures Spared(states[k + 1])
  {
    ConnectionsInOrder(cap, events, states, k);
    assert FollowsAt(cap, events, states, k) && PossibleAt(events, states, k);
    FreshStep(cap, states[k], events[k], states[k + 1]);
  }

  /** In every possible run without such an accept no overall difference is negative. */
  lemma {:induction false} OverallCoveredWithoutRecycling(cap: nat, events: seq<Event>, states: seq<State>, k: nat)
    requires PossibleRun(cap, events, states) && NothingRecycled(events, states) && k < |states|
    ensures Spared(states[k])
  {
    if k == 0 {
      StartSpared(states[0]);
    } else {
      OverallCoveredWithoutRecycling(cap, events, states, k - 1);
      NextSpared(cap, events, states, k - 1);
    }
  }

  // ---------------------------------------------------------------- what can follow

  ghost predicate OverallStaysCovered(cap: nat, c: Config) {
    forall d :: Leads(cap, true, c, d) ==> Covered(Overall(d.s))
  }

  /** The remembered connection is in the slot, and the next check closes it before it can make a pair. */
  ghost predicate OnDeathRow(c: Config) {
    Covered(Overall(c.s)) && c.s.pick == c.s.nonPersistentFd && Due(c) && !MayReadPersistent(c)
  }

  ghost predicate Backed(c: Config) {
    Spared(c.s) || OnDeathRow(c)
  }

  lemma PickClosed(cap: nat, s: State, addOk: bool)
    requires Inv(cap, s) && Covered(Overall(s)) && s.pick == s.nonPersistentFd != NO_FD
    ensures Spared(Promote(Release(Drop(s, s.nonPersistentFd)), addOk))
  {
    var t := Promote(Release(Drop(s, s.nonPersistentFd)), addOk);
    OverallKept(Drop(s, s.nonPersistentFd), addOk);
    forall i | 0 <= i < |t.queue| ensures t.queue[i].fd != s.pick {
      assert t.queue[i] == s.queue[i + 1];
    }
    assert s.queue != [] ==> s.queue[0].fd != s.pick;
  }

  lemma PickRead(cap: nat, s: State, bytes: nat, isP: bool, now: real)
    requires Inv(cap, s) && Covered(Overall(s)) && s.pick == s.nonPersistentFd != NO_FD
    ensures Spared(Read(cap, s, s.pick, bytes, isP, now))
  {
    assert Read(cap, s, s.pick, bytes, isP, now) == CountNonPersistent(s, bytes, now);
  }

  lemma DeathRowArrival(cap: nat, c: Config, client: int, now: real, d: Config)
    requires InOrder(cap, c) && Turn(cap, c, Arrival(client, now), d) && OnDeathRow(c)
    ensures OnDeathRow(d)
  {
    assert Overall(d.s) == Overall(c.s);
  }

  lemma DeathRowHangup(cap: nat, c: Config, fd: nat, addOk: bool, d: Config)
    requires InOrder(cap, c) && Turn(cap, c, Hangup(fd, addOk), d) && OnDeathRow(c)
    ensures Backed(d)
  {
    if fd == c.s.nonPersistentFd {
      PickClosed(cap, c.s, addOk);
    } else {
      StaleHangUpChangesCounts(cap, c.s, fd, addOk);
    }
  }

  lemma DeathRowTurn(cap: nat, c: Config, e: Event, d: Config)
    requires InOrder(cap, c) && Turn(cap, c, e, d) && OnDeathRow(c)
    ensures Backed(d)
  {
    match e
    case Arrival(client, now) => DeathRowArrival(cap, c, client, now, d);
    case Data(fd, bytes, isP, now) =>
      DeliveredToSlot(cap, c.s, fd);
      PickRead(cap, c.s, bytes, isP, now);
    case Hangup(fd, addOk) => DeathRowHangup(cap, c, fd, addOk, d);
    case Tick(now, addOk) => PickClosed(cap, c.s, addOk);
    case Stop => assert Overall(d.s) == Overall(c.s);
  }

  lemma {:induction false} BackedAlong(cap: nat, events: seq<Event>, configs: seq<Config>, k: nat)
    requires Path(cap, true, events, configs) && InOrder(cap, configs[0]) && Backed(configs[0]) && k <= |events|
    ensures InOrder(cap, configs[k]) && Backed(configs[k])
  {
    if k > 0 {
      BackedAlong(cap, events, configs, k - 1);
      assert TurnAt(cap, true, events, configs, k - 1);
      TurnKeepsOrder(cap, configs[k - 1], events[k - 1], configs[k]);
      if Spared(configs[k - 1].s) {
        FreshStep(cap, configs[k - 1].s, events[k - 1], configs[k].s);
      } else {
        DeathRowTurn(cap, configs[k - 1], events[k - 1], configs[k]);
      }
    }
  }

  // ---------------------------------------------------------------- when nothing is to spare

  /** Reads and pairs, and what is remembered, stay as they are. */
  ghost predicate SameReads(s: State, t: State) {
    t.pick == s.pick && Overall(t) == Overall(s)
  }

  /** The slot is emptied, and the head of the queue moves up if it can. */
  ghost predicate MovedUp(s: State, t: State) {
    && SameReads(s, t) && t.persistentFd == s.persistentFd
    && (if s.queue == [] then t.queue == [] && t.nonPersistentFd == NO_FD
        else
          && t.queue == s.queue[1..]
          && t.nonPersistentFd == if s.queue[0].fd in s.registered then NO_FD else s.queue[0].fd)
    && (forall fd :: fd in t.registered ==> fd in s.registered || fd == t.nonPersistentFd)
  }

  lemma ClosingMovesUp(cap: nat, s: State)
    requires Inv(cap, s) && s.nonPersistentFd != NO_FD
    ensures MovedUp(s, Promote(Release(Drop(s, s.nonPersistentFd)), true))
  {
    OverallKept(Drop(s, s.nonPersistentFd), true);
    assert s.queue != [] ==> s.queue[0].fd != s.nonPersistentFd;
  }

  /** The check closes the connection in the slot; that of the persistent slot, or one that is accepted
      there under the descriptor just closed, can still be read in the same round. */
  lemma EvictRound(cap: nat, c: Config) returns (d: Config)
    requires InOrder(cap, c) && c.s.running && Due(c)
    ensures Leads(cap, true, c, d) && InOrder(cap, d) && d.s.running && d.clock == c.clock && MovedUp(c.s, d.s)
    ensures d.s.nonPersistentFd != NO_FD ==> MayReadPersistent(d)
  {
    var skips := Skips(c.s, c.clock, true);
    d := Config(Evict(c.s, c.clock, true), c.clock, if skips then {} else Watched(c.s), !skips, c.s.nonPersistentFd);
    OneTurn(cap, true, c, Tick(c.clock, true), d);
    LeadsInOrder(cap, true, c, d);
    ClosingMovesUp(cap, c.s);
    EvictionCloses(cap, c, c.clock, true, d);
    SlotsWatched(cap, c.s);
  }

  /** The connection in the slot hangs up. */
  lemma LeaveRound(cap: nat, c: Config) returns (d: Config)
    requires Calm(cap, c) && Paired(c.s)
    ensures Leads(cap, true, c, d) && InOrder(cap, d) && d.clock == c.clock && MovedUp(c.s, d.s)
    ensures MayReadPersistent(d)
    ensures d.s.queue != [] ==> d.s.running
  {
    SlotsWatched(cap, c.s);
    ClosingMovesUp(cap, c.s);
    d := HangUpRound(cap, true, c, c.s.nonPersistentFd, c.clock);
    LeadsInOrder(cap, true, c, d);
  }

  /** Until nobody in the slot is due any more. */
  lemma {:induction false} Settle(cap: nat, c: Config) returns (d: Config)
    requires InOrder(cap, c) && c.s.running
    ensures Leads(cap, true, c, d) && Calm(cap, d) && SameReads(c.s, d.s) && d.s.persistentFd == c.s.persistentFd
    decreases |c.s.queue|, c.s.nonPersistentFd != NO_FD
  {
    d := c;
    NoTurn(cap, true, c);
    if Due(c) {
      var u := EvictRound(cap, c);
      d := Settle(cap, u);
      LeadsOn(cap, true, c, u, d);
    }
  }

  /** The remembered connection waits at index j and is not registered: it is brought to the slot, with a
      read in the persistent slot still to come. */
  lemma {:induction false} BringToSlot(cap: nat, c: Config, j: nat) returns (d: Config)
    requires InOrder(cap, c) && c.s.running && j < |c.s.queue| && c.s.queue[j].fd == c.s.pick
    requires c.s.pick !in c.s.registered
    ensures Leads(cap, true, c, d) && InOrder(cap, d) && SameReads(c.s, d.s)
    ensures d.s.pick == d.s.nonPersistentFd != NO_FD && MayReadPersistent(d)
    decreases j
  {
    var u := MoveUp(cap, c);
    d := u;
    if j > 0 {
      assert u.s.queue[j - 1] == c.s.queue[j];
      d := BringToSlot(cap, u, j - 1);
      LeadsOn(cap, true, c, u, d);
    }
  }

  lemma MoveUp(cap: nat, c: Config) returns (d: Config)
    requires InOrder(cap, c) && c.s.running && c.s.queue != [] && c.s.pick !in c.s.registered
    ensures Leads(cap, true, c, d) && InOrder(cap, d) && SameReads(c.s, d.s) && d.s.queue == c.s.queue[1..]
    ensures d.s.queue != [] ==> d.s.running
    ensures c.s.pick == c.s.queue[0].fd ==> d.s.nonPersistentFd == d.s.pick && MayReadPersistent(d)
    ensures c.s.pick != c.s.queue[0].fd ==> d.s.pick !in d.s.registered
  {
    if Due(c) {
      d := EvictRound(cap, c);
    } else {
      var u := Fill(cap, c);
      assert Overall(u.s) == Overall(c.s);
      d := LeaveRound(cap, u);
      LeadsOn(cap, true, c, u, d);
    }
  }

  /** With time for a round, the other slot completes the pair that the remembered read has begun. */
  lemma CompleteUncovered(cap: nat, c: Config) returns (d: Config)
    requires Calm(cap, c) && c.s.pick in {c.s.persistentFd, c.s.nonPersistentFd} && c.s.pick != NO_FD
    requires var o := Overall(c.s);
             o.both >= if c.s.pick == c.s.persistentFd then o.perReads else o.nonPerReads
    ensures Leads(cap, true, c, d) && !Covered(Overall(d.s))
  {
    var u := Fill(cap, c);
    assert Overall(u.s) == Overall(c.s);
    d := CompletePair(cap, u);
    LeadsOn(cap, true, c, u, d);
  }

  lemma ReadUncovered(cap: nat, c: Config) returns (d: Config)
    requires InOrder(cap, c) && c.s.pick == c.s.nonPersistentFd != NO_FD && MayReadPersistent(c)
    requires Overall(c.s).both >= Overall(c.s).nonPerReads
    ensures Leads(cap, true, c, d) && !Covered(Overall(d.s))
  {
    d := ReadNow(cap, c);
  }

  lemma OverallBroken(cap: nat, c: Config) returns (d: Config)
    requires InOrder(cap, c) && c.s.running && !Backed(c)
    ensures Leads(cap, true, c, d) && !Covered(Overall(d.s))
  {
    var u := c;
    NoTurn(cap, true, c);
    d := c;
    if Covered(Overall(c.s)) {
      if c.s.pick == c.s.persistentFd {
        u := Settle(cap, c);
        d := CompleteUncovered(cap, u);
      } else if c.s.pick == c.s.nonPersistentFd && !Due(c) {
        d := CompleteUncovered(cap, c);
      } else {
        if c.s.pick != c.s.nonPersistentFd {
          var j :| 0 <= j < |c.s.queue| && c.s.queue[j].fd == c.s.pick;
          u := BringToSlot(cap, c, j);
        }
        d := ReadUncovered(cap, u);
      }
      LeadsOn(cap, true, c, u, d);
    }
  }

  /** While the server runs, and as long as accept does not return the remembered descriptor: the overall
      differences are safe exactly when the kind of slot in which the remembered connection is, or will be,
      has a read to spare, or the next check closes that connection before it can make a pair. */
  lemma OverallCoveredIff(cap: nat, c: Config)
    requires InOrder(cap, c) && c.s.running
    ensures OverallStaysCovered(cap, c) <==> Backed(c)
  {
    if Backed(c) {
      forall d | Leads(cap, true, c, d) ensures Covered(Overall(d.s)) {
        var events, configs :| Path(cap, true, events, configs) && configs[0] == c && configs[|events|] == d;
        BackedAlong(cap, events, configs, |events|);
      }
    } else {
      var d := OverallBroken(cap, c);
    }
  }

  /** The next accept keeps it so, whatever follows without another such accept, exactly when it does
      no harm. */
  lemma NextAcceptCoveredIff(cap: nat, c: Config, client: int, now: real, d: Config)
    requires InOrder(cap, c) && c.s.running && Backed(c) && Turn(cap, c, Arrival(client, now), d)
    ensures OverallStaysCovered(cap, d) <==> Harmless(cap, c.s, client)
  {
    TurnKeepsOrder(cap, c, Arrival(client, now), d);
    OverallCoveredIff(cap, d);
    if Spared(c.s) {
      AcceptSparedIff(cap, c.s, client, now);
      AcceptedNotDue(cap, c, client, now, d);
    } else {
      DeathRowArrival(cap, c, client, now, d);
    }
  }

  /** If an accept leaves nothing to spare, the remembered connection has its whole time before it. */
  lemma AcceptedNotDue(cap: nat, c: Config, client: int, now: real, d: Config)
    requires InOrder(cap, c) && Spared(c.s) && Turn(cap, c, Arrival(client, now), d)
    ensures OnDeathRow(d) ==> Spared(d.s)
  {
    assert Overall(d.s) == Overall(c.s);
  }

  // ---------------------------------------------------------------- a run that goes below zero

  ghost predicate ReadsAre(s: State, both: int, per: int, nonPer: int) {
    Overall(s).both == both && Overall(s).perReads == per && Overall(s).nonPerReads == nonPer
  }

  ghost predicate SlotsAre(s: State, persistentFd: int, nonPersistentFd: int, queue: seq<int>, registered: set<int>) {
    && s.persistentFd == persistentFd && s.nonPersistentFd == nonPersistentFd && s.registered == registered
    && |s.queue| == |queue| && forall i :: 0 <= i < |queue| ==> s.queue[i].fd == queue[i]
  }

  lemma RecycleOpening(s0: State) returns (s1: State, s2: State, s3: State)
    requires s0 == START
    ensures Linked(10, s0, Arrival(5, 0.0), s1)
    ensures Linked(10, s1, Arrival(6, 0.0), s2)
    ensures Linked(10, s2, Data(5, 1, true, 1.0), s3)
    ensures s3.pick == 5 && SlotsAre(s3, 5, 6, [], {5, 6}) && s3.history == []
    ensures s3.tally.both == 0 && s3.tally.perReads == 1 && s3.tally.nonPerReads == 0
  {
    s1 := Handle(10, s0, Arrival(5, 0.0));
    s2 := Handle(10, s1, Arrival(6, 0.0));
    s3 := Handle(10, s2, Data(5, 1, true, 1.0));
  }

  /** Connection 5 is taken for a non-persistent one and waits, still registered. */
  lemma RecycleDemotion(s3: State) returns (s4: State, s5: State)
    requires s3.pick == 5 && SlotsAre(s3, 5, 6, [], {5, 6}) && ReadsAre(s3, 0, 1, 0)
    ensures Linked(10, s3, Data(5, 1, false, 2.0), s4)
    ensures Linked(10, s4, Arrival(7, 2.0), s5)
    ensures s5.pick == 5 && SlotsAre(s5, 7, 6, [5], {5, 6, 7}) && ReadsAre(s5, 0, 1, 0)
  {
    s4 := Handle(10, s3, Data(5, 1, false, 2.0));
    assert s4.queue == [Waiting(5, s3.times.conn1Start)];
    s5 := Handle(10, s4, Arrival(7, 2.0));
  }

  /** Its promotion fails, it is closed, and accept returns its descriptor again. */
  lemma RecycleRefusal(s5: State) returns (s6: State)
    requires s5.pick == 5 && SlotsAre(s5, 7, 6, [5], {5, 6, 7}) && ReadsAre(s5, 0, 1, 0)
    ensures Linked(10, s5, Hangup(6, true), s6)
    ensures s6.pick == 5 && SlotsAre(s6, 7, NO_FD, [], {7}) && ReadsAre(s6, 0, 1, 0)
  {
    assert s5.queue == [s5.queue[0]];
    LastInQueueRefused(s5, 6);
    s6 := HangUp(s5, 6, true);
  }

  /** The non-persistent connection goes, and the only one that waits is registered and cannot follow. */
  lemma LastInQueueRefused(s: State, fd: nat)
    requires fd == s.nonPersistentFd && s.persistentFd !in {NO_FD, fd}
    requires |s.queue| == 1 && s.queue[0].fd in s.registered - {fd}
    ensures var t := HangUp(s, fd, true);
            && t.pick == s.pick && t.persistentFd == s.persistentFd && t.nonPersistentFd == NO_FD && t.queue == []
            && t.registered == s.registered - {fd, s.queue[0].fd} && Overall(t) == Overall(s)
  {
    OverallKept(Drop(s, fd), true);
  }

  lemma RecycleReturn(s6: State) returns (s7: State)
    requires s6.pick == 5 && SlotsAre(s6, 7, NO_FD, [], {7}) && ReadsAre(s6, 0, 1, 0)
    ensures Linked(10, s6, Arrival(5, 3.0), s7)
    ensures s7.pick == 5 && SlotsAre(s7, 7, 5, [], {5, 7}) && ReadsAre(s7, 0, 1, 0)
  {
    s7 := Handle(10, s6, Arrival(5, 3.0));
  }

  lemma RecycleEnd(s7: State) returns (s8: State)
    requires s7.pick == 5 && SlotsAre(s7, 7, 5, [], {5, 7}) && ReadsAre(s7, 0, 1, 0)
    ensures Linked(10, s7, Data(7, 1, true, 4.0), s8)
    ensures ReadsAre(s8, 1, 2, 0)
  {
    s8 := Handle(10, s7, Data(7, 1, true, 4.0));
  }

  lemma RecycleRun() returns (events: seq<Event>, states: seq<State>)
    ensures PossibleRun(10, events, states)
    ensures var s := states[|events|]; s.pick == 5 && SlotsAre(s, 5, 6, [], {5, 6}) && ReadsAre(s, 0, 1, 0)
  {
    var s1, s2, s3 := RecycleOpening(START);
    events, states := [], [START];
    events, states := Extend(events, states, Arrival(5, 0.0), s1);
    events, states := Extend(events, states, Arrival(6, 0.0), s2);
    events, states := Extend(events, states, Data(5, 1, true, 1.0), s3);
    assert TotalTally(s3.history) == ZERO_TALLY;
  }

  /** Two reads of persistent connections make a pair: one read of the non-persistent kind is owed. */
  lemma OverallUnderflow() returns (events: seq<Event>, states: seq<State>)
    ensures PossibleRun(10, events, states) && ReadsAre(states[|events|], 1, 2, 0)
  {
    events, states := RecycleRun();
    var s4, s5 := RecycleDemotion(states[|events|]);
    var s6 := RecycleRefusal(s5);
    var s7 := RecycleReturn(s6);
    var s8 := RecycleEnd(s7);
    events, states := Extend(events, states, Data(5, 1, false, 2.0), s4);
    events, states := Extend(events, states, Arrival(7, 2.0), s5);
    events, states := Extend(events, states, Hangup(6, true), s6);
    events, states := Extend(events, states, Arrival(5, 3.0), s7);
    events, states := Extend(events, states, Data(7, 1, true, 4.0), s8);
  }
}
