/** What a read remembered from an earlier connection can do to the differences of reads and pairs that
    the connection server records when a connection is closed. */
module StalePicks {
  import opened Statistics
  import opened ConnectionModel
  import opened ConnectionRuns
  import opened LoopRuns

  /** Neither difference of reads and pairs is negative. */
  predicate Covered(t: Tally) {
    t.both <= t.perReads && t.both <= t.nonPerReads
  }

  /** Whatever can follow, the next connection that is closed is recorded so. */
  ghost predicate NextClosedCovered(cap: nat, c: Config) {
    forall d :: Leads(cap, false, c, d) && |d.s.history| > |c.s.history| ==> Covered(d.s.history[|c.s.history|].tally)
  }

  /** The next check will close the connection in the slot, unless it is read before. */
  predicate Due(c: Config) {
    Inactive(c.s, c.clock)
  }

  /** A connection in the persistent slot can be read before the next check: the one that is there, or one
      that accept puts there under the descriptor that this round's check has closed. */
  predicate MayReadPersistent(c: Config) {
    || c.s.persistentFd in c.ready
    || (c.s.persistentFd == NO_FD && c.accepting && c.evicted in c.ready && !Held(c.s, c.evicted))
  }

  /** Something is remembered that can still complete a pair before the slot has been read.  A server that
      has been told to stop only finishes its batch, in which the remembered descriptor would have to come
      back and close again. */
  predicate Exposed(c: Config) {
    var s := c.s;
    && s.pick != NO_FD && !Queued(s, s.pick)
    && if s.running then !Due(c) || (s.pick == s.nonPersistentFd && MayReadPersistent(c))
       else
         && s.nonPersistentFd == NO_FD && c.accepting && s.persistentFd in c.ready
         && s.pick in c.ready && !Held(s, s.pick)
  }

  // ---------------------------------------------------------------- when the next entry is safe

  /** While a read is remembered the non-persistent slot is taken, and the slot that the read was
      counted for has one read more than there are pairs. */
  ghost predicate ReadBacked(s: State) {
    && Covered(s.tally)
    && (s.pick != NO_FD ==>
          && s.nonPersistentFd != NO_FD
          && if s.pick == s.nonPersistentFd then s.tally.both + 1 <= s.tally.nonPerReads
             else s.tally.both + 1 <= s.tally.perReads)
  }

  /** The remembered connection waits, so that no pair can be completed and none begun. */
  ghost predicate Frozen(s: State) {
    s.pick != NO_FD && Queued(s, s.pick) && s.tally.both == 0 && s.tally.perReads >= 0 && s.tally.nonPerReads >= 0
  }

  lemma ReadKeepsBacked(cap: nat, s: State, fd: nat, bytes: nat, isP: bool, now: real)
    requires Distinct(s) && ReadBacked(s)
    ensures ReadBacked(Read(cap, s, fd, bytes, isP, now))
  {
  }

  lemma ReadKeepsFrozen(cap: nat, s: State, fd: nat, bytes: nat, isP: bool, now: real)
    requires Distinct(s) && Frozen(s)
    ensures Frozen(Read(cap, s, fd, bytes, isP, now))
  {
    var i :| 0 <= i < |s.queue| && s.queue[i].fd == s.pick;
    var t := Read(cap, s, fd, bytes, isP, now);
    assert s.queue <= t.queue && t.queue[i].fd == s.pick;
  }

  lemma AcceptKeepsBoth(cap: nat, s: State, client: int, now: real)
    ensures ReadBacked(s) ==> ReadBacked(Accept(cap, s, client, now))
    ensures Frozen(s) ==> Frozen(Accept(cap, s, client, now))
  {
    if Frozen(s) {
      var i :| 0 <= i < |s.queue| && s.queue[i].fd == s.pick;
      assert Accept(cap, s, client, now).queue[i].fd == s.pick;
    }
  }

  lemma HangUpKeepsBoth(s: State, fd: nat, addOk: bool)
    requires HangUp(s, fd, addOk).books.releases == s.books.releases
    ensures ReadBacked(s) ==> ReadBacked(HangUp(s, fd, addOk))
    ensures Frozen(s) ==> Frozen(HangUp(s, fd, addOk))
  {
    assert fd != s.persistentFd ==> fd != s.nonPersistentFd;
    var t := HangUp(s, fd, addOk);
    assert t.queue == s.queue;
    if Frozen(s) {
      var i :| 0 <= i < |s.queue| && s.queue[i].fd == s.pick;
      assert t.queue[i].fd == s.pick;
    }
  }

  lemma EvictChangesNothing(s: State, now: real, addOk: bool)
    requires Evict(s, now, addOk).books.releases == s.books.releases
    ensures Evict(s, now, addOk) == s
  {
  }

  lemma AcceptedKeepsFrozen(s: State, t: State)
    requires Frozen(s) && s.queue <= t.queue && t.pick == s.pick && t.tally == s.tally
    ensures Frozen(t)
  {
    var i :| 0 <= i < |s.queue| && s.queue[i].fd == s.pick;
    assert t.queue[i].fd == s.pick;
  }

  lemma EventKeepsStateSafe(cap: nat, s: State, e: Event, t: State)
    requires Inv(cap, s) && Linked(cap, s, e, t) && t.books.releases == s.books.releases
    ensures ReadBacked(s) ==> ReadBacked(t)
    ensures Frozen(s) ==> Frozen(t)
  {
    match e
    case Arrival(client, now) => AcceptKeepsBoth(cap, s, client, now);
    case Data(fd, bytes, isP, now) =>
      if ReadBacked(s) { ReadKeepsBacked(cap, s, fd, bytes, isP, now); }
      if Frozen(s) { ReadKeepsFrozen(cap, s, fd, bytes, isP, now); }
    case Hangup(fd, addOk) => HangUpKeepsBoth(s, fd, addOk);
    case Tick(now, addOk) => EvictChangesNothing(s, now, addOk);
    case Stop => if Frozen(s) { AcceptedKeepsFrozen(s, t); }
  }

  ghost predicate NothingPaired(s: State) {
    s.pick != NO_FD && s.tally.both == 0 && s.tally.perReads >= 0 && s.tally.nonPerReads >= 0
  }

  /** Told to stop, and the slot cannot be closed any more. */
  ghost predicate Settled(c: Config) {
    !c.s.running && c.s.nonPersistentFd != NO_FD && c.s.nonPersistentFd !in c.ready
  }

  /** Told to stop; the slot can still be closed, but only before a pair is completed. */
  ghost predicate LastCall(c: Config) {
    && !c.s.running && NothingPaired(c.s) && !c.accepting
    && c.s.nonPersistentFd != NO_FD && c.s.nonPersistentFd in c.ready
    && (c.s.pick == c.s.nonPersistentFd ==> c.s.persistentFd !in c.ready)
  }

  /** Told to stop with an empty slot. */
  ghost predicate Vacant(c: Config) {
    && !c.s.running && NothingPaired(c.s) && c.s.nonPersistentFd == NO_FD && c.s.tally.nonPerReads == 0
    && !(c.accepting && c.s.persistentFd in c.ready && c.s.pick in c.ready && !Held(c.s, c.s.pick))
  }

  /** Nothing can come between the slot and the check that closes it. */
  ghost predicate Doomed(c: Config) {
    && NothingPaired(c.s) && Due(c) && c.s.nonPersistentFd !in c.ready
    && (c.s.pick == c.s.nonPersistentFd ==> !MayReadPersistent(c))
  }

  ghost predicate Safe(c: Config) {
    ReadBacked(c.s) || Frozen(c.s) || Settled(c) || LastCall(c) || Vacant(c) || Doomed(c)
  }

  lemma SettledStays(cap: nat, c: Config, e: Event, d: Config)
    requires InOrder(cap, c) && Turn(cap, c, e, d) && Settled(c)
    ensures Settled(d) && d.s.history == c.s.history
  {
  }

  lemma LastCallTurn(cap: nat, c: Config, e: Event, d: Config)
    requires InOrder(cap, c) && Turn(cap, c, e, d) && LastCall(c)
    ensures d.s.history == c.s.history ==> LastCall(d) || Settled(d)
    ensures d.s.history != c.s.history ==> Covered(c.s.tally)
  {
  }

  lemma VacantTurn(cap: nat, c: Config, e: Event, d: Config)
    requires InOrder(cap, c) && Turn(cap, c, e, d) && Vacant(c)
    ensures d.s.history == c.s.history && (Vacant(d) || LastCall(d) || Settled(d))
  {
  }

  lemma DoomedArrival(cap: nat, c: Config, client: int, now: real, d: Config)
    requires InOrder(cap, c) && Turn(cap, c, Arrival(client, now), d) && Doomed(c)
    ensures Doomed(d)
  {
  }

  lemma DoomedRead(cap: nat, c: Config, fd: nat, bytes: nat, isP: bool, now: real, d: Config)
    requires InOrder(cap, c) && Turn(cap, c, Data(fd, bytes, isP, now), d) && Doomed(c)
    ensures Doomed(d)
  {
    DeliveredToSlot(cap, c.s, fd);
  }

  lemma DoomedTurn(cap: nat, c: Config, e: Event, d: Config)
    requires InOrder(cap, c) && Turn(cap, c, e, d) && Doomed(c)
    ensures d.s.history == c.s.history ==> Doomed(d)
    ensures d.s.history != c.s.history ==> Covered(c.s.tally)
  {
    match e
    case Arrival(client, now) => DoomedArrival(cap, c, client, now, d);
    case Data(fd, bytes, isP, now) => DoomedRead(cap, c, fd, bytes, isP, now, d);
    case _ =>
  }

  lemma SafeTurn(cap: nat, c: Config, e: Event, d: Config)
    requires InOrder(cap, c) && Turn(cap, c, e, d) && Safe(c)
    ensures d.s.history == c.s.history ==> Safe(d)
    ensures d.s.history != c.s.history ==> Covered(c.s.tally)
  {
    HistoryStep(cap, c.s, e, d.s);
    if ReadBacked(c.s) || Frozen(c.s) {
      if d.s.books.releases == c.s.books.releases {
        EventKeepsStateSafe(cap, c.s, e, d.s);
      }
    } else if Settled(c) {
      SettledStays(cap, c, e, d);
    } else if LastCall(c) {
      LastCallTurn(cap, c, e, d);
    } else if Vacant(c) {
      VacantTurn(cap, c, e, d);
    } else {
      DoomedTurn(cap, c, e, d);
    }
  }

  /** Either the same connections are on record and the next is safe, or the next one is on record and
      covered. */
  ghost predicate SafeSince(history: seq<Closed>, c: Config) {
    if c.s.history == history then Safe(c)
    else |c.s.history| > |history| && Covered(c.s.history[|history|].tally)
  }

  lemma SafeSinceTurn(cap: nat, history: seq<Closed>, c: Config, e: Event, d: Config)
    requires InOrder(cap, c) && Turn(cap, c, e, d) && SafeSince(history, c)
    ensures SafeSince(history, d)
  {
    HistoryStep(cap, c.s, e, d.s);
    if c.s.history == history {
      SafeTurn(cap, c, e, d);
    } else if |d.s.history| > |c.s.history| {
      assert d.s.history[|history|] == d.s.history[..|c.s.history|][|history|];
    }
  }

  lemma {:induction false} SafeAlong(cap: nat, events: seq<Event>, configs: seq<Config>, k: nat)
    requires Path(cap, false, events, configs) && InOrder(cap, configs[0]) && Safe(configs[0]) && k <= |events|
    ensures InOrder(cap, configs[k]) && SafeSince(configs[0].s.history, configs[k])
  {
    PathInOrder(cap, events, configs, k);
    if k > 0 {
      SafeAlong(cap, events, configs, k - 1);
      assert TurnAt(cap, false, events, configs, k - 1);
      SafeSinceTurn(cap, configs[0].s.history, configs[k - 1], events[k - 1], configs[k]);
    }
  }

  lemma SafeIsCovered(cap: nat, c: Config)
    requires InOrder(cap, c) && Safe(c)
    ensures NextClosedCovered(cap, c)
  {
    forall d | Leads(cap, false, c, d) && |d.s.history| > |c.s.history|
      ensures Covered(d.s.history[|c.s.history|].tally)
    {
      var events, configs :| Path(cap, false, events, configs) && configs[0] == c && configs[|events|] == d;
      SafeAlong(cap, events, configs, |events|);
    }
  }

  lemma UnexposedIsSafe(cap: nat, c: Config)
    requires InOrder(cap, c) && c.s.tally == ZERO_TALLY && c.s.nonPersistentFd !in c.ready && !Exposed(c)
    ensures Safe(c)
  {
  }

  // ---------------------------------------------------------------- filling the slots

  function Highest(queue: seq<Waiting>, least: int): (h: int)
    ensures h >= least && forall i :: 0 <= i < |queue| ==> queue[i].fd <= h
  {
    if queue == [] then least
    else
      var h := Highest(queue[..|queue| - 1], least);
      if queue[|queue| - 1].fd > h then queue[|queue| - 1].fd else h
  }

  function Larger(a: int, b: int): int {
    if a > b then a else b
  }

  /** A descriptor that is not open and not the remembered one. */
  function Unused(s: State): int {
    Highest(s.queue, Larger(s.pick, Larger(s.persistentFd, Larger(s.nonPersistentFd, 0)))) + 1
  }

  lemma UnusedIsFresh(s: State)
    ensures Unused(s) > 0 && !Held(s, Unused(s)) && Unused(s) != s.pick
  {
  }

  /** Nothing has happened to what is remembered, to reads, pairs, closed connections and the queue. */
  ghost predicate Untouched(s: State, t: State) {
    && t.pick == s.pick && t.tally == s.tally && t.history == s.history && t.queue == s.queue
    && (s.pick !in s.registered ==> s.pick !in t.registered)
  }

  /** Running, with time for a round before anybody is closed. */
  ghost predicate Calm(cap: nat, c: Config) {
    InOrder(cap, c) && c.s.running && !Due(c)
  }

  /** An accept fills the persistent slot, or else the other one. */
  lemma FillOne(cap: nat, c: Config) returns (d: Config)
    requires Calm(cap, c) && !Paired(c.s)
    ensures Leads(cap, true, c, d) && Calm(cap, d) && d.clock == c.clock && Untouched(c.s, d.s)
    ensures if c.s.persistentFd == NO_FD
            then d.s.persistentFd !in {NO_FD, c.s.pick} && d.s.nonPersistentFd == c.s.nonPersistentFd
            else d.s.nonPersistentFd !in {NO_FD, c.s.pick} && d.s.persistentFd == c.s.persistentFd
  {
    UnusedIsFresh(c.s);
    d := AcceptRound(cap, true, c, Unused(c.s), c.clock);
    LeadsInOrder(cap, true, c, d);
  }

  ghost predicate FilledFrom(s: State, t: State) {
    && Paired(t) && Untouched(s, t)
    && (if s.persistentFd == NO_FD then t.persistentFd != s.pick else t.persistentFd == s.persistentFd)
    && (if s.nonPersistentFd == NO_FD then t.nonPersistentFd != s.pick else t.nonPersistentFd == s.nonPersistentFd)
  }

  lemma Fill(cap: nat, c: Config) returns (d: Config)
    requires Calm(cap, c)
    ensures Leads(cap, true, c, d) && Calm(cap, d) && FilledFrom(c.s, d.s)
  {
    d := c;
    NoTurn(cap, true, c);
    if !Paired(c.s) {
      var u := FillOne(cap, c);
      d := u;
      if !Paired(u.s) {
        d := FillOne(cap, u);
        LeadsOn(cap, true, c, u, d);
      }
    }
  }

  lemma SlotsWatched(cap: nat, s: State)
    requires Inv(cap, s)
    ensures s.persistentFd != NO_FD ==> s.persistentFd in Watched(s)
    ensures s.nonPersistentFd != NO_FD ==> s.nonPersistentFd in Watched(s)
  {
  }

  /** With both slots taken, the slot other than the remembered one reads and completes a pair. */
  lemma CompletePair(cap: nat, c: Config) returns (d: Config)
    requires Calm(cap, c) && Paired(c.s) && c.s.pick in {c.s.persistentFd, c.s.nonPersistentFd}
    ensures Leads(cap, true, c, d) && InOrder(cap, d) && d.s.running && d.clock == c.clock
    ensures d.s.history == c.s.history && d.s.tally.both == c.s.tally.both + 1
    ensures d.s.nonPersistentFd == c.s.nonPersistentFd && d.s.nonPerSince == c.s.nonPerSince
    ensures c.s.pick == c.s.persistentFd ==>
              d.s.tally.perReads == c.s.tally.perReads && d.s.tally.nonPerBytes == c.s.tally.nonPerBytes + 1
    ensures c.s.pick == c.s.nonPersistentFd ==>
              d.s.tally.nonPerReads == c.s.tally.nonPerReads && d.s.tally.nonPerBytes == c.s.tally.nonPerBytes
  {
    SlotsWatched(cap, c.s);
    if c.s.pick == c.s.persistentFd {
      d := ReadRound(cap, true, c, c.s.nonPersistentFd, false, c.clock);
    } else {
      d := ReadRound(cap, true, c, c.s.persistentFd, true, c.clock);
    }
    LeadsInOrder(cap, true, c, d);
  }

  // ---------------------------------------------------------------- when the next entry is not safe

  lemma Unsparing(cap: nat, c: Config, d: Config)
    requires Leads(cap, true, c, d)
    ensures Leads(cap, false, c, d)
  {
    var events, configs :| Path(cap, true, events, configs) && configs[0] == c && configs[|events|] == d;
    Fresher(cap, events, configs);
  }

  /** The connection in the persistent slot gives it up without the server looking whether to stop. */
  lemma FreePersistent(cap: nat, c: Config) returns (d: Config)
    requires Calm(cap, c) && Paired(c.s) && c.s.pick >= 0 && !Held(c.s, c.s.pick) && c.s.tally == ZERO_TALLY
    ensures Leads(cap, false, c, d) && Calm(cap, d) && !Held(d.s, c.s.pick) && d.clock == c.clock
    ensures d.s.persistentFd == NO_FD && d.s.nonPersistentFd == c.s.nonPersistentFd
    ensures d.s.pick == c.s.pick && d.s.tally == c.s.tally && d.s.history == c.s.history
  {
    SlotsWatched(cap, c.s);
    d := ReadRound(cap, false, c, c.s.persistentFd, false, c.clock);
    LeadsInOrder(cap, false, c, d);
    if Queued(d.s, c.s.pick) {
      ReadHolds(cap, c.s, c.s.persistentFd, 1, false, c.clock, c.s.pick);
    }
  }

  /** The remembered connection is gone: its descriptor comes back in the persistent slot. */
  lemma Recycle(cap: nat, c: Config) returns (d: Config)
    requires Calm(cap, c) && Paired(c.s) && c.s.pick >= 0 && !Held(c.s, c.s.pick) && c.s.tally == ZERO_TALLY
    ensures Leads(cap, false, c, d) && Calm(cap, d) && Paired(d.s) && d.s.persistentFd == c.s.pick == d.s.pick
    ensures d.s.tally == c.s.tally && d.s.history == c.s.history
  {
    var u := FreePersistent(cap, c);
    d := AcceptRound(cap, false, u, u.s.pick, u.clock);
    LeadsOn(cap, false, c, u, d);
    LeadsInOrder(cap, false, c, d);
  }

  /** The connection in the slot is closed, by the check or because it hangs up. */
  lemma CloseSlot(cap: nat, c: Config) returns (d: Config)
    requires InOrder(cap, c) && c.s.running && c.s.nonPersistentFd != NO_FD
    ensures Leads(cap, false, c, d)
    ensures |d.s.history| == |c.s.history| + 1 && d.s.history[|c.s.history|].tally == c.s.tally
  {
    if Due(c) {
      var skips := Skips(c.s, c.clock, true);
      d := Config(Evict(c.s, c.clock, true), c.clock, if skips then {} else Watched(c.s), !skips, c.s.nonPersistentFd);
      ClosingRecords(c.s, c.s.nonPersistentFd, true);
      OneTurn(cap, false, c, Tick(c.clock, true), d);
    } else {
      SlotsWatched(cap, c.s);
      HangUpRecords(c.s, c.s.nonPersistentFd, true);
      d := HangUpRound(cap, false, c, c.s.nonPersistentFd, c.clock);
    }
  }

  /** Before the next check, a read in the persistent slot completes the pair that is remembered for the
      other. */
  lemma ReadNow(cap: nat, c: Config) returns (d: Config)
    requires InOrder(cap, c) && c.s.pick == c.s.nonPersistentFd != NO_FD && MayReadPersistent(c)
    ensures Leads(cap, true, c, d) && d.s.history == c.s.history && d.s.tally.both == c.s.tally.both + 1
    ensures d.s.tally.nonPerReads == c.s.tally.nonPerReads
    ensures d.s.running == c.s.running && d.s.nonPersistentFd == c.s.nonPersistentFd
  {
    var u := c;
    NoTurn(cap, true, c);
    if c.s.persistentFd !in c.ready {
      u := c.(s := Accept(cap, c.s, c.evicted, c.clock), accepting := false);
      OneTurn(cap, true, c, Arrival(c.evicted, c.clock), u);
      LeadsInOrder(cap, true, c, u);
    }
    assert u.s.persistentFd in u.ready;
    d := ReadPending(cap, u);
    LeadsOn(cap, true, c, u, d);
  }

  lemma ReadPending(cap: nat, c: Config) returns (d: Config)
    requires InOrder(cap, c) && c.s.pick == c.s.nonPersistentFd != NO_FD && c.s.persistentFd in c.ready
    ensures Leads(cap, true, c, d) && d.s.history == c.s.history && d.s.tally.both == c.s.tally.both + 1
    ensures d.s.tally.nonPerReads == c.s.tally.nonPerReads
    ensures d.s.running == c.s.running && d.s.nonPersistentFd == c.s.nonPersistentFd
    ensures d.ready == c.ready - {c.s.persistentFd}
  {
    var fd := c.s.persistentFd;
    assert fd in c.s.registered && !Queued(c.s, fd);
    d := c.(s := Read(cap, c.s, fd, 1, true, c.clock), ready := c.ready - {fd});
    OneTurn(cap, true, c, Data(fd, 1, true, c.clock), d);
  }

  lemma CalmExposed(cap: nat, c: Config) returns (d: Config)
    requires Calm(cap, c) && c.s.tally == ZERO_TALLY && c.s.pick != NO_FD && !Queued(c.s, c.s.pick)
    ensures Leads(cap, false, c, d) && InOrder(cap, d) && d.s.running && d.s.nonPersistentFd != NO_FD
    ensures d.s.history == c.s.history && !Covered(d.s.tally)
  {
    var u := Fill(cap, c);
    Unsparing(cap, c, u);
    if c.s.pick !in {u.s.persistentFd, u.s.nonPersistentFd} {
      assert !Queued(u.s, u.s.pick);
      var v := Recycle(cap, u);
      LeadsOn(cap, false, c, u, v);
      u := v;
    }
    d := CompletePair(cap, u);
    Unsparing(cap, u, d);
    LeadsOn(cap, false, c, u, d);
  }

  /** The batch of a server told to stop: the remembered descriptor comes back in the empty slot, a pair is
      completed, and the connection closed. */
  lemma StoppedExposed(cap: nat, c: Config) returns (d: Config)
    requires InOrder(cap, c) && !c.s.running && c.s.tally == ZERO_TALLY && Exposed(c)
    ensures Leads(cap, false, c, d) && |d.s.history| == |c.s.history| + 1
    ensures !Covered(d.s.history[|c.s.history|].tally)
  {
    var u := c.(s := Accept(cap, c.s, c.s.pick, c.clock), accepting := false);
    OneTurn(cap, false, c, Arrival(c.s.pick, c.clock), u);
    LeadsInOrder(cap, false, c, u);
    var v := ReadPending(cap, u);
    Unsparing(cap, u, v);
    LeadsOn(cap, false, c, u, v);
    LeadsInOrder(cap, false, c, v);
    d := CloseNow(cap, v);
    LeadsOn(cap, false, c, v, d);
  }

  lemma CloseNow(cap: nat, c: Config) returns (d: Config)
    requires InOrder(cap, c) && c.s.nonPersistentFd in c.ready
    ensures Leads(cap, false, c, d)
    ensures |d.s.history| == |c.s.history| + 1 && d.s.history[|c.s.history|].tally == c.s.tally
  {
    var fd := c.s.nonPersistentFd;
    d := c.(s := HangUp(c.s, fd, true), ready := c.ready - {fd});
    HangUpRecords(c.s, fd, true);
    OneTurn(cap, false, c, Hangup(fd, true), d);
  }

  lemma ExposedIsBroken(cap: nat, c: Config) returns (d: Config)
    requires InOrder(cap, c) && c.s.tally == ZERO_TALLY && c.s.nonPersistentFd !in c.ready && Exposed(c)
    ensures Leads(cap, false, c, d) && |d.s.history| > |c.s.history| && !Covered(d.s.history[|c.s.history|].tally)
  {
    if !c.s.running {
      d := StoppedExposed(cap, c);
    } else {
      var u;
      if Due(c) {
        u := ReadNow(cap, c);
        Unsparing(cap, c, u);
        LeadsInOrder(cap, false, c, u);
      } else {
        u := CalmExposed(cap, c);
      }
      d := CloseSlot(cap, u);
      LeadsOn(cap, false, c, u, d);
    }
  }

  /** Before its first read, the next connection to be closed is recorded without a negative difference,
      whatever can happen until then, exactly when it is not exposed. */
  lemma WindowCoveredIff(cap: nat, c: Config)
    requires InOrder(cap, c) && c.s.tally == ZERO_TALLY && c.s.nonPersistentFd !in c.ready
    ensures NextClosedCovered(cap, c) <==> !Exposed(c)
  {
    if Exposed(c) {
      var d := ExposedIsBroken(cap, c);
    } else {
      UnexposedIsSafe(cap, c);
      SafeIsCovered(cap, c);
    }
  }

  /** So after every release, in every run of the loop. */
  lemma NextWindowCoveredIff(cap: nat, events: seq<Event>, configs: seq<Config>, k: nat)
    requires Path(cap, false, events, configs) && IsStart(configs[0]) && k < |events|
    requires configs[k + 1].s.books.releases > configs[k].s.books.releases
    ensures NextClosedCovered(cap, configs[k + 1]) <==> !Exposed(configs[k + 1])
  {
    StartInOrder(cap, configs[0]);
    PathInOrder(cap, events, configs, k);
    PathInOrder(cap, events, configs, k + 1);
    assert TurnAt(cap, false, events, configs, k);
    ReleaseLeavesUnread(cap, configs[k], events[k], configs[k + 1]);
    WindowCoveredIff(cap, configs[k + 1]);
  }

  // ---------------------------------------------------------------- a run with a negative difference

  lemma StaleOpening() returns (s1: State, s2: State, s3: State)
    ensures Linked(10, START, Arrival(1, 0.0), s1)
    ensures Linked(10, s1, Arrival(2, 0.0), s2)
    ensures Linked(10, s2, Data(1, 1, true, 1.0), s3)
    ensures Remembered(s3)
  {
    s1 := Handle(10, START, Arrival(1, 0.0));
    s2 := Handle(10, s1, Arrival(2, 0.0));
    s3 := Handle(10, s2, Data(1, 1, true, 1.0));
  }

  /** A read of the persistent connection waits for one of connection 2. */
  ghost predicate Remembered(s: State) {
    && s.pick == 1 && s.persistentFd == 1 && s.nonPersistentFd == 2 && s.queue == [] && s.history == []
    && s.registered == {1, 2}
  }

  lemma StaleMiddle(s3: State) returns (s4: State, s5: State)
    requires Remembered(s3)
    ensures Linked(10, s3, Hangup(2, true), s4)
    ensures Linked(10, s4, Arrival(3, 2.0), s5)
    ensures LeftOver(s5)
  {
    s4 := Handle(10, s3, Hangup(2, true));
    s5 := Handle(10, s4, Arrival(3, 2.0));
  }

  /** Connection 2 is gone, connection 3 has taken the slot, and the read is still remembered. */
  ghost predicate LeftOver(s: State) {
    && s.pick == 1 && s.persistentFd == 1 && s.nonPersistentFd == 3 && s.queue == [] && |s.history| == 1
    && s.tally == ZERO_TALLY && 3 in s.registered
  }

  lemma StaleEnd(s5: State) returns (s6: State, s7: State)
    requires LeftOver(s5)
    ensures Linked(10, s5, Data(3, 1, false, 3.0), s6)
    ensures Linked(10, s6, Hangup(3, true), s7)
    ensures |s7.history| == 2 && Contribution(s7.history[1]).onlyPersistent == -1
  {
    s6 := Handle(10, s5, Data(3, 1, false, 3.0));
    assert s6.tally.both == 1 && s6.tally.perReads == 0 && s6.nonPersistentFd == 3 && s6.history == s5.history;
    s7 := Handle(10, s6, Hangup(3, true));
  }

  lemma StaleRun() returns (events: seq<Event>, states: seq<State>)
    ensures PossibleRun(10, events, states) && Remembered(states[|events|])
  {
    var s1, s2, s3 := StaleOpening();
    events, states := [], [START];
    events, states := Extend(events, states, Arrival(1, 0.0), s1);
    events, states := Extend(events, states, Arrival(2, 0.0), s2);
    events, states := Extend(events, states, Data(1, 1, true, 1.0), s3);
  }

  /** A memory left over from a closed connection can complete a pair in a window that has seen no
      read of the other slot: the window's difference of reads and pairs is then negative. */
  lemma StalePickUnderflow() returns (events: seq<Event>, states: seq<State>)
    ensures PossibleRun(10, events, states)
    ensures var history := states[|events|].history;
            |history| == 2 && Contribution(history[1]).onlyPersistent == -1
  {
    events, states := StaleRun();
    var s4, s5 := StaleMiddle(states[|events|]);
    var s6, s7 := StaleEnd(s5);
    events, states := Extend(events, states, Hangup(2, true), s4);
    events, states := Extend(events, states, Arrival(3, 2.0), s5);
    events, states := Extend(events, states, Data(3, 1, false, 3.0), s6);
    events, states := Extend(events, states, Hangup(3, true), s7);
  }
}
