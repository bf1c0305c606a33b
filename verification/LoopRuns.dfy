/** The loop of the connection server with what the kernel and the clock allow: which events a batch can
    hold, that the check comes between taking a batch and handling it, and that time does not run back. */
module LoopRuns {
  import opened Statistics
  import opened ConnectionModel
  import opened ConnectionRuns

  /** A state within the loop: the time reached, the descriptors and the accept of the current batch that
      are still to be handled, and the descriptor that the check of this round has closed. */
  datatype Config = Config(s: State, clock: real, ready: set<int>, accepting: bool, evicted: int)

  ghost predicate IsStart(c: Config) {
    c.s == START && c.ready == {} && !c.accepting && c.evicted == NO_FD
  }

  /** What can be ready when a batch is taken; nothing is delivered for a queued descriptor. */
  function Watched(s: State): set<int> {
    set fd | fd in s.registered && !Queued(s, fd)
  }

  /** Accept returns the descriptor whose read is remembered. */
  predicate Recycles(s: State, e: Event) {
    e.Arrival? && e.client >= 0 && e.client == s.pick
  }

  /** One step of the loop.  A tick is the start of a round, while not told to stop: the batch is taken,
      then the check is made.  The events of the batch come once for each descriptor, in any order, or not at
      all. */
  ghost predicate Turn(cap: nat, c: Config, e: Event, d: Config) {
    && Linked(cap, c.s, e, d.s)
    && match e
       case Tick(now, addOk) =>
         && c.s.running && c.clock <= now
         && d == Config(d.s, now, if Skips(c.s, now, addOk) then {} else Watched(c.s), !Skips(c.s, now, addOk),
                        if Inactive(c.s, now) then c.s.nonPersistentFd else NO_FD)
       case Arrival(_, now) => c.accepting && c.clock <= now && d == c.(s := d.s, clock := now, accepting := false)
       case Data(fd, _, _, now) =>
         fd in c.ready && c.clock <= now && d == c.(s := d.s, clock := now, ready := c.ready - {fd})
       case Hangup(fd, _) => fd in c.ready && d == c.(s := d.s, ready := c.ready - {fd})
       case Stop => d == c.(s := d.s)
  }

  // ---------------------------------------------------------------- paths

  /** A stretch of the loop: the configurations before, between and after its events; a sparing one never
      recycles the remembered descriptor. */
  ghost predicate Path(cap: nat, sparing: bool, events: seq<Event>, configs: seq<Config>) {
    && |configs| == |events| + 1
    && forall k :: 0 <= k < |events| ==> TurnAt(cap, sparing, events, configs, k)
  }

  ghost predicate TurnAt(cap: nat, sparing: bool, events: seq<Event>, configs: seq<Config>, k: nat)
    requires k < |events| && |configs| == |events| + 1
  {
    Turn(cap, configs[k], events[k], configs[k + 1]) && (sparing ==> !Recycles(configs[k].s, events[k]))
  }

  ghost predicate Leads(cap: nat, sparing: bool, c: Config, d: Config) {
    exists events, configs :: Path(cap, sparing, events, configs) && configs[0] == c && configs[|events|] == d
  }

  lemma LeadsOn(cap: nat, sparing: bool, c: Config, d: Config, f: Config)
    requires Leads(cap, sparing, c, d) && Leads(cap, sparing, d, f)
    ensures Leads(cap, sparing, c, f)
  {
    var es, cs :| Path(cap, sparing, es, cs) && cs[0] == c && cs[|es|] == d;
    var fs, ds :| Path(cap, sparing, fs, ds) && ds[0] == d && ds[|fs|] == f;
    PathsJoin(cap, sparing, es, cs, fs, ds);
  }

  lemma PathsJoin(cap: nat, sparing: bool, es: seq<Event>, cs: seq<Config>, fs: seq<Event>, ds: seq<Config>)
    requires Path(cap, sparing, es, cs) && Path(cap, sparing, fs, ds) && cs[|es|] == ds[0]
    ensures Path(cap, sparing, es + fs, cs + ds[1..])
  {
    var events, configs := es + fs, cs + ds[1..];
    forall k | 0 <= k < |events| ensures TurnAt(cap, sparing, events, configs, k) {
      if k < |es| {
        assert TurnAt(cap, sparing, es, cs, k);
      } else {
        assert TurnAt(cap, sparing, fs, ds, k - |es|);
      }
    }
  }

  lemma OneTurn(cap: nat, sparing: bool, c: Config, e: Event, d: Config)
    requires Turn(cap, c, e, d) && (sparing ==> !Recycles(c.s, e))
    ensures Leads(cap, sparing, c, d)
  {
    assert TurnAt(cap, sparing, [e], [c, d], 0);
    assert Path(cap, sparing, [e], [c, d]);
  }

  lemma NoTurn(cap: nat, sparing: bool, c: Config)
    ensures Leads(cap, sparing, c, c)
  {
    assert Path(cap, sparing, [], [c]);
  }

  lemma Fresher(cap: nat, events: seq<Event>, configs: seq<Config>)
    requires Path(cap, true, events, configs)
    ensures Path(cap, false, events, configs)
  {
    forall k | 0 <= k < |events| ensures TurnAt(cap, false, events, configs, k) {
      assert TurnAt(cap, true, events, configs, k);
    }
  }

  function States(configs: seq<Config>): seq<State> {
    seq(|configs|, i requires 0 <= i < |configs| => configs[i].s)
  }

  /** What holds of every possible run holds of every path from the start. */
  lemma PathIsPossible(cap: nat, events: seq<Event>, configs: seq<Config>)
    requires Path(cap, false, events, configs) && IsStart(configs[0])
    ensures PossibleRun(cap, events, States(configs))
  {
    forall k | 0 <= k < |events|
      ensures FollowsAt(cap, events, States(configs), k) && PossibleAt(events, States(configs), k)
    {
      assert TurnAt(cap, false, events, configs, k);
    }
  }

  // ---------------------------------------------------------------- what a batch holds

  /** What is left of a batch concerns the two slots and the connection that the check has closed; and when
      that one is still to come, there is nothing for its successor. */
  ghost predicate ReadyInOrder(c: Config) {
    && (forall fd :: fd in c.ready ==> fd >= 0 && fd in {c.s.persistentFd, c.s.nonPersistentFd, c.evicted})
    && (c.evicted in c.ready && c.evicted != c.s.nonPersistentFd ==> c.s.nonPersistentFd !in c.ready)
  }

  ghost predicate InOrder(cap: nat, c: Config) {
    Inv(cap, c.s) && ReadyInOrder(c) && c.s.pick >= NO_FD
  }

  lemma TickKeepsReady(cap: nat, c: Config, now: real, addOk: bool, d: Config)
    requires InOrder(cap, c) && Turn(cap, c, Tick(now, addOk), d)
    ensures ReadyInOrder(d)
  {
    forall fd | fd in d.ready ensures fd in {d.s.persistentFd, d.s.nonPersistentFd, d.evicted} && fd >= 0 {
      DeliveredToSlot(cap, c.s, fd);
    }
    if c.s.queue != [] {
      QueuedIn(c.s, 0);
    }
  }

  lemma EventKeepsReady(cap: nat, c: Config, e: Event, d: Config)
    requires InOrder(cap, c) && Turn(cap, c, e, d) && !e.Tick?
    ensures ReadyInOrder(d)
  {
    if c.s.queue != [] {
      assert c.s.queue[0].fd !in {c.s.persistentFd, c.s.nonPersistentFd, NO_FD};
    }
  }

  lemma PickStaysKnown(cap: nat, s: State, e: Event, t: State)
    requires Distinct(s) && s.pick >= NO_FD && Follows(cap, s, e, t)
    ensures t.pick >= NO_FD
  {
  }

  lemma TurnKeepsOrder(cap: nat, c: Config, e: Event, d: Config)
    requires InOrder(cap, c) && Turn(cap, c, e, d)
    ensures InOrder(cap, d)
  {
    StepKeepsInv(cap, c.s, e, d.s);
    PickStaysKnown(cap, c.s, e, d.s);
    if e.Tick? {
      TickKeepsReady(cap, c, e.now, e.addOk, d);
    } else {
      EventKeepsReady(cap, c, e, d);
    }
  }

  lemma StartInOrder(cap: nat, c: Config)
    requires IsStart(c)
    ensures InOrder(cap, c)
  {
    StartInv(cap, c.s);
  }

  lemma StartInv(cap: nat, s: State)
    requires s.persistentFd == NO_FD && s.nonPersistentFd == NO_FD && s.queue == [] && s.registered == {}
    requires s.active == s.rejected == s.books.accepted == s.books.closed == 0
    ensures Inv(cap, s)
  {
  }

  lemma {:induction false} PathInOrder(cap: nat, events: seq<Event>, configs: seq<Config>, k: nat)
    requires Path(cap, false, events, configs) && InOrder(cap, configs[0]) && k <= |events|
    ensures InOrder(cap, configs[k])
  {
    if k > 0 {
      PathInOrder(cap, events, configs, k - 1);
      assert TurnAt(cap, false, events, configs, k - 1);
      TurnKeepsOrder(cap, configs[k - 1], events[k - 1], configs[k]);
    }
  }

  lemma LeadsInOrder(cap: nat, sparing: bool, c: Config, d: Config)
    requires InOrder(cap, c) && Leads(cap, sparing, c, d)
    ensures InOrder(cap, d)
  {
    var events, configs :| Path(cap, sparing, events, configs) && configs[0] == c && configs[|events|] == d;
    if sparing {
      Fresher(cap, events, configs);
    }
    PathInOrder(cap, events, configs, |events|);
  }

  // ---------------------------------------------------------------- the count within a round

  predicate EventFor(e: Event, fd: int) {
    (e.Data? || e.Hangup?) && e.fd == fd
  }

  /** An event for a closed descriptor is one for the connection that the check of the round has closed. */
  lemma StaleIsEvicted(cap: nat, c: Config, e: Event, d: Config)
    requires InOrder(cap, c) && Turn(cap, c, e, d)
    ensures IsStale(c.s, e) <==> EventFor(e, c.evicted) && !Held(c.s, e.fd)
  {
  }

  /** Events i + 1 .. j - 1 are the batch, or the first part of it, that follows the check at i. */
  ghost predicate IsRound(cap: nat, events: seq<Event>, configs: seq<Config>, i: nat, j: nat) {
    && Path(cap, false, events, configs) && InOrder(cap, configs[0])
    && i < j <= |events| && events[i].Tick?
    && forall k :: i < k < j ==> !events[k].Tick?
  }

  lemma NextInRound(cap: nat, events: seq<Event>, configs: seq<Config>, k: nat)
    requires Path(cap, false, events, configs) && InOrder(cap, configs[0]) && k < |events|
    ensures Missing(configs[k + 1].s) == Missing(configs[k].s) + if IsStale(configs[k].s, events[k]) then 1 else 0
    ensures IsStale(configs[k].s, events[k]) <==>
            EventFor(events[k], configs[k].evicted) && !Held(configs[k].s, events[k].fd)
    ensures !events[k].Tick? ==> configs[k + 1].evicted == configs[k].evicted
  {
    PathInOrder(cap, events, configs, k);
    assert TurnAt(cap, false, events, configs, k);
    StepMisses(cap, configs[k].s, events[k], configs[k + 1].s);
    StaleIsEvicted(cap, configs[k], events[k], configs[k + 1]);
  }

  /** Every event of the batch for the closed connection finds its descriptor open again. */
  ghost predicate NothingStale(events: seq<Event>, configs: seq<Config>, i: nat, j: nat)
    requires i < j <= |events| && |configs| == |events| + 1
  {
    forall k :: i < k < j && EventFor(events[k], configs[i + 1].evicted) ==> Held(configs[k].s, events[k].fd)
  }

  lemma {:induction false} RoundMisses(cap: nat, events: seq<Event>, configs: seq<Config>, i: nat, j: nat)
    requires IsRound(cap, events, configs, i, j)
    ensures configs[j].evicted == configs[i + 1].evicted
    ensures Missing(configs[j].s) >= Missing(configs[i].s)
    ensures Missing(configs[j].s) == Missing(configs[i].s) <==> NothingStale(events, configs, i, j)
    decreases j
  {
    NextInRound(cap, events, configs, j - 1);
    if j > i + 1 {
      RoundMisses(cap, events, configs, i, j - 1);
    }
  }

  /** A round keeps the active count right exactly when its batch holds no event for the connection that
      its check has closed, or only one that finds the descriptor in use again. */
  lemma RoundAccountedIff(cap: nat, events: seq<Event>, configs: seq<Config>, i: nat, j: nat)
    requires IsRound(cap, events, configs, i, j) && Accounted(configs[i].s)
    ensures Accounted(configs[j].s) <==> NothingStale(events, configs, i, j)
  {
    RoundMisses(cap, events, configs, i, j);
  }

  lemma AcceptHolds(cap: nat, s: State, client: int, now: real, fd: int)
    requires Held(Accept(cap, s, client, now), fd)
    ensures Held(s, fd) || client == fd
  {
    var t := Accept(cap, s, client, now);
    if Queued(t, fd) {
      var i :| 0 <= i < |t.queue| && t.queue[i].fd == fd;
      assert i < |s.queue| ==> s.queue[i].fd == fd;
    }
  }

  lemma ReadHolds(cap: nat, s: State, from: nat, bytes: nat, isP: bool, now: real, fd: int)
    requires Held(Read(cap, s, from, bytes, isP, now), fd)
    ensures Held(s, fd)
  {
    var t := Read(cap, s, from, bytes, isP, now);
    if Queued(t, fd) {
      var i :| 0 <= i < |t.queue| && t.queue[i].fd == fd;
      assert i < |s.queue| ==> s.queue[i].fd == fd;
    }
  }

  lemma ClosingHolds(s: State, gone: int, addOk: bool, fd: int)
    requires Held(Promote(Release(Drop(s, gone)), addOk), fd)
    ensures Held(s, fd)
  {
    var t := Promote(Release(Drop(s, gone)), addOk);
    if Queued(t, fd) {
      var i :| 0 <= i < |t.queue| && t.queue[i].fd == fd;
      assert s.queue[|s.queue| - |t.queue| + i].fd == fd;
    } else if s.queue != [] {
      QueuedIn(s, 0);
    }
  }

  lemma HangUpHolds(s: State, gone: nat, addOk: bool, fd: int)
    requires Held(HangUp(s, gone, addOk), fd)
    ensures Held(s, fd)
  {
    var t := HangUp(s, gone, addOk);
    if gone != s.persistentFd && gone == s.nonPersistentFd {
      var u := Promote(Release(Drop(s, gone)), addOk);
      if Queued(t, fd) {
        var i :| 0 <= i < |t.queue| && t.queue[i].fd == fd;
        assert u.queue[i].fd == fd;
      }
      ClosingHolds(s, gone, addOk, fd);
    } else if Queued(t, fd) {
      var i :| 0 <= i < |t.queue| && t.queue[i].fd == fd;
      assert s.queue[i].fd == fd;
    }
  }

  /** Only accept opens a descriptor. */
  lemma HeldByAccept(cap: nat, s: State, e: Event, t: State, fd: int)
    requires Linked(cap, s, e, t) && Held(t, fd)
    ensures Held(s, fd) || (e.Arrival? && e.client == fd)
  {
    match e
    case Arrival(client, now) => AcceptHolds(cap, s, client, now, fd);
    case Data(from, bytes, isP, now) => ReadHolds(cap, s, from, bytes, isP, now, fd);
    case Hangup(gone, addOk) => HangUpHolds(s, gone, addOk, fd);
    case Tick(now, addOk) => if Inactive(s, now) { ClosingHolds(s, s.nonPersistentFd, addOk, fd); }
    case Stop => assert Held(t, fd) ==> Held(s, fd);
  }

  lemma EvictionCloses(cap: nat, c: Config, now: real, addOk: bool, d: Config)
    requires InOrder(cap, c) && Turn(cap, c, Tick(now, addOk), d)
    ensures !Held(d.s, d.evicted)
  {
    if d.evicted != NO_FD {
      var t := Promote(Release(Drop(c.s, c.s.nonPersistentFd)), addOk);
      assert t == d.s;
      forall i | 0 <= i < |t.queue| ensures t.queue[i].fd != d.evicted {
        assert t.queue[i] == c.s.queue[i + 1 - (if c.s.queue == [] then 1 else 0)];
      }
    }
  }

  /** Until an accept returns it, the descriptor that the check has closed stays closed. */
  lemma {:induction false} EvictedStaysClosed(cap: nat, events: seq<Event>, configs: seq<Config>, i: nat, k: nat)
    requires IsRound(cap, events, configs, i, k)
    requires forall l :: i < l < k && events[l].Arrival? ==> events[l].client != configs[i + 1].evicted
    ensures !Held(configs[k].s, configs[i + 1].evicted)
    decreases k
  {
    PathInOrder(cap, events, configs, k - 1);
    assert TurnAt(cap, false, events, configs, k - 1);
    if k == i + 1 {
      EvictionCloses(cap, configs[i], events[i].now, events[i].addOk, configs[k]);
    } else {
      EvictedStaysClosed(cap, events, configs, i, k - 1);
      if Held(configs[k].s, configs[i + 1].evicted) {
        HeldByAccept(cap, configs[k - 1].s, events[k - 1], configs[k].s, configs[i + 1].evicted);
      }
    }
  }

  /** So with no such accept, the round keeps the count right exactly when its batch holds no event for
      the closed connection. */
  lemma RoundAccountedUnlessEvicted(cap: nat, events: seq<Event>, configs: seq<Config>, i: nat, j: nat)
    requires IsRound(cap, events, configs, i, j) && Accounted(configs[i].s)
    requires forall l :: i < l < j && events[l].Arrival? ==> events[l].client != configs[i + 1].evicted
    ensures Accounted(configs[j].s) <==> forall k :: i < k < j ==> !EventFor(events[k], configs[i + 1].evicted)
  {
    RoundAccountedIff(cap, events, configs, i, j);
    forall k | i < k < j ensures !Held(configs[k].s, configs[i + 1].evicted) {
      EvictedStaysClosed(cap, events, configs, i, k);
    }
  }

  // ---------------------------------------------------------------- the first read of a promoted connection

  lemma ReleaseByTick(cap: nat, c: Config, now: real, addOk: bool, d: Config)
    requires InOrder(cap, c) && Turn(cap, c, Tick(now, addOk), d) && d.s.books.releases > c.s.books.releases
    ensures d.s.nonPersistentFd !in d.ready && d.s.tally == ZERO_TALLY
  {
    if c.s.queue != [] {
      QueuedIn(c.s, 0);
    }
  }

  lemma ReleaseByHangUp(cap: nat, c: Config, fd: nat, addOk: bool, d: Config)
    requires InOrder(cap, c) && Turn(cap, c, Hangup(fd, addOk), d) && d.s.books.releases > c.s.books.releases
    ensures d.s.nonPersistentFd !in d.ready && d.s.tally == ZERO_TALLY
  {
    assert fd == c.s.nonPersistentFd;
    if c.s.queue != [] {
      assert c.s.queue[0].fd !in {c.s.persistentFd, c.s.nonPersistentFd, NO_FD};
    }
  }

  /** After a release nothing is pending for the slot, and its counters are zero. */
  lemma ReleaseLeavesUnread(cap: nat, c: Config, e: Event, d: Config)
    requires InOrder(cap, c) && Turn(cap, c, e, d) && d.s.books.releases > c.s.books.releases
    ensures d.s.nonPersistentFd !in d.ready && d.s.tally == ZERO_TALLY
  {
    if e.Tick? {
      ReleaseByTick(cap, c, e.now, e.addOk, d);
    } else {
      ReleaseByHangUp(cap, c, e.fd, e.addOk, d);
    }
  }

  /** The connection in the slot has not been read, and cannot be in this round. */
  ghost predicate Unread(c: Config, fd: int, since: real) {
    && fd != NO_FD && c.s.nonPersistentFd == fd && fd !in c.ready && c.s.nonPerSince == since
    && c.s.tally.nonPerBytes == 0 && c.s.tally.nonPerReads == 0
  }

  lemma StaysUnread(cap: nat, c: Config, e: Event, d: Config, fd: int, since: real)
    requires InOrder(cap, c) && Turn(cap, c, e, d) && !e.Tick? && Unread(c, fd, since)
    ensures Unread(d, fd, since)
  {
  }

  lemma CheckDecides(cap: nat, c: Config, now: real, addOk: bool, d: Config, fd: int, since: real)
    requires InOrder(cap, c) && Turn(cap, c, Tick(now, addOk), d) && Unread(c, fd, since)
    ensures if now - since < INACTIVE_TIMEOUT then d.s.nonPersistentFd == fd && fd in d.ready
            else d.s.nonPersistentFd != fd && |d.s.history| == |c.s.history| + 1
  {
    if now - since < INACTIVE_TIMEOUT {
      assert fd in c.s.registered && !Queued(c.s, fd);
    } else if c.s.queue != [] {
      assert c.s.queue[0].fd != fd;
    }
  }

  lemma {:induction false} UnreadUntilCheck(
    cap: nat, events: seq<Event>, configs: seq<Config>, m: nat, k: nat, fd: int, since: real)
    requires Path(cap, false, events, configs) && InOrder(cap, configs[0]) && m <= k <= |events|
    requires Unread(configs[m], fd, since) && forall l :: m <= l < k ==> !events[l].Tick?
    ensures Unread(configs[k], fd, since)
    decreases k
  {
    if k > m {
      UnreadUntilCheck(cap, events, configs, m, k - 1, fd, since);
      PathInOrder(cap, events, configs, k - 1);
      assert TurnAt(cap, false, events, configs, k - 1);
      StaysUnread(cap, configs[k - 1], events[k - 1], configs[k], fd, since);
    }
  }

  /** A connection promoted by event m has not been read when the next check comes, at q.  From then on it
      can be read exactly when that check comes less than the timeout after its accept; otherwise the check
      closes it, unread. */
  lemma FirstReadIff(cap: nat, events: seq<Event>, configs: seq<Config>, m: nat, q: nat)
    requires Path(cap, false, events, configs) && InOrder(cap, configs[0]) && m < q < |events|
    requires configs[m + 1].s.books.releases > configs[m].s.books.releases
    requires configs[m + 1].s.nonPersistentFd != NO_FD
    requires events[q].Tick? && forall k :: m < k < q ==> !events[k].Tick?
    ensures var fd, since, d := configs[m + 1].s.nonPersistentFd, configs[m + 1].s.nonPerSince, configs[q + 1];
            && Unread(configs[q], fd, since)
            && (d.s.nonPersistentFd == fd && fd in d.ready <==> events[q].now - since < INACTIVE_TIMEOUT)
            && (events[q].now - since >= INACTIVE_TIMEOUT ==>
                  d.s.nonPersistentFd != fd && |d.s.history| == |configs[q].s.history| + 1)
  {
    var fd, since := configs[m + 1].s.nonPersistentFd, configs[m + 1].s.nonPerSince;
    PathInOrder(cap, events, configs, m);
    PathInOrder(cap, events, configs, q);
    assert TurnAt(cap, false, events, configs, m) && TurnAt(cap, false, events, configs, q);
    ReleaseLeavesUnread(cap, configs[m], events[m], configs[m + 1]);
    UnreadUntilCheck(cap, events, configs, m + 1, q, fd, since);
    CheckDecides(cap, configs[q], events[q].now, events[q].addOk, configs[q + 1], fd, since);
  }

  // ---------------------------------------------------------------- rounds without an eviction

  /** The start of a round in which the check finds nothing to close. */
  lemma QuietTick(cap: nat, sparing: bool, c: Config, now: real) returns (d: Config)
    requires c.s.running && c.clock <= now && !Inactive(c.s, now)
    ensures Leads(cap, sparing, c, d) && d == Config(c.s, now, Watched(c.s), true, NO_FD)
  {
    d := Config(c.s, now, Watched(c.s), true, NO_FD);
    OneTurn(cap, sparing, c, Tick(now, true), d);
  }

  lemma AcceptRound(cap: nat, sparing: bool, c: Config, fd: nat, now: real) returns (d: Config)
    requires c.s.running && c.clock <= now && !Inactive(c.s, now) && !Held(c.s, fd)
    requires sparing ==> fd != c.s.pick
    ensures Leads(cap, sparing, c, d) && d == Config(Accept(cap, c.s, fd, now), now, Watched(c.s), false, NO_FD)
  {
    var u := QuietTick(cap, sparing, c, now);
    d := u.(s := Accept(cap, c.s, fd, now), accepting := false);
    OneTurn(cap, sparing, u, Arrival(fd, now), d);
    LeadsOn(cap, sparing, c, u, d);
  }

  lemma ReadRound(cap: nat, sparing: bool, c: Config, fd: nat, isP: bool, now: real) returns (d: Config)
    requires c.s.running && c.clock <= now && !Inactive(c.s, now) && fd in Watched(c.s)
    ensures Leads(cap, sparing, c, d)
    ensures d == Config(Read(cap, c.s, fd, 1, isP, now), now, Watched(c.s) - {fd}, true, NO_FD)
  {
    var u := QuietTick(cap, sparing, c, now);
    d := u.(s := Read(cap, c.s, fd, 1, isP, now), ready := u.ready - {fd});
    OneTurn(cap, sparing, u, Data(fd, 1, isP, now), d);
    LeadsOn(cap, sparing, c, u, d);
  }

  lemma HangUpRound(cap: nat, sparing: bool, c: Config, fd: nat, now: real) returns (d: Config)
    requires c.s.running && c.clock <= now && !Inactive(c.s, now) && fd in Watched(c.s)
    ensures Leads(cap, sparing, c, d) && d == Config(HangUp(c.s, fd, true), now, Watched(c.s) - {fd}, true, NO_FD)
  {
    var u := QuietTick(cap, sparing, c, now);
    d := u.(s := HangUp(c.s, fd, true), ready := u.ready - {fd});
    OneTurn(cap, sparing, u, Hangup(fd, true), d);
    LeadsOn(cap, sparing, c, u, d);
  }

  // ---------------------------------------------------------------- a server that stops too soon

  ghost predicate Slots(s: State, persistentFd: int, nonPersistentFd: int, queue: seq<int>) {
    && s.persistentFd == persistentFd && s.nonPersistentFd == nonPersistentFd
    && |s.queue| == |queue| && forall i :: 0 <= i < |queue| ==> s.queue[i].fd == queue[i]
  }

  lemma ThreeClients(c: Config) returns (d: Config)
    requires IsStart(c) && c.clock == 0.0
    ensures Leads(10, false, c, d) && d.s.running && d.clock == 0.0 && Slots(d.s, 5, 6, [7])
    ensures d.s.nonPerSince == d.s.queue[0].since == 0.0 && d.s.registered == {5, 6} && d.s.active == 3
    ensures d.s.tally == ZERO_TALLY
  {
    var u := AcceptRound(10, false, c, 5, 0.0);
    var v := AcceptRound(10, false, u, 6, 0.0);
    LeadsOn(10, false, c, u, v);
    d := AcceptRound(10, false, v, 7, 0.0);
    LeadsOn(10, false, c, v, d);
  }

  /** Connection 6 sends something and hangs up; connection 7 is promoted after 20 seconds. */
  lemma LatePromotion(c: Config) returns (d: Config)
    requires c.s.running && c.clock == 0.0 && Slots(c.s, 5, 6, [7])
    requires c.s.nonPerSince == c.s.queue[0].since == 0.0 && c.s.registered == {5, 6} && c.s.active == 3
    requires c.s.tally == ZERO_TALLY
    ensures Leads(10, false, c, d) && d.s.running && d.clock == 20.0 && Slots(d.s, 5, 7, [])
    ensures d.s.nonPerSince == 0.0 && d.s.tally == ZERO_TALLY && d.s.registered == {5, 7} && d.s.active == 2
  {
    var u := ReadRound(10, false, c, 6, false, 1.0);
    assert u.s.tally.nonPerBytes == 1 && u.s.queue == c.s.queue && 6 in Watched(u.s);
    d := HangUpRound(10, false, u, 6, 20.0);
    LeadsOn(10, false, c, u, d);
  }

  /** The check evicts connection 7 in the round whose batch reports it. */
  lemma EvictedWhileReady(c: Config) returns (d: Config)
    requires c.s.running && c.clock == 20.0 && Slots(c.s, 5, 7, [])
    requires c.s.nonPerSince == 0.0 && c.s.tally == ZERO_TALLY && c.s.registered == {5, 7} && c.s.active == 2
    ensures Leads(10, false, c, d) && d.s.running && Slots(d.s, 5, NO_FD, [])
    ensures d.s.active == 1 && d.s.registered == {5}
    ensures 7 in d.ready && d.evicted == 7
  {
    assert 7 in Watched(c.s) && c.s.queue == [];
    d := Config(Evict(c.s, 20.0, true), 20.0, Watched(c.s), true, 7);
    OneTurn(10, false, c, Tick(20.0, true), d);
  }

  /** The event of connection 7 then makes the server stop, with a client still in the persistent slot. */
  lemma StopsWithClient(c: Config) returns (d: Config)
    requires IsStart(c) && c.clock == 0.0
    ensures Leads(10, false, c, d) && !d.s.running && d.s.active == 0 && d.s.persistentFd == 5
  {
    var u := ThreeClients(c);
    var v := LatePromotion(u);
    LeadsOn(10, false, c, u, v);
    var w := EvictedWhileReady(v);
    LeadsOn(10, false, c, v, w);
    d := w.(s := HangUp(w.s, 7, true), ready := w.ready - {7});
    OneTurn(10, false, w, Hangup(7, true), d);
    LeadsOn(10, false, c, w, d);
  }
}
