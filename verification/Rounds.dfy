/** How the rounds of the connection server become events.  The check of a round comes before its batch; the
    batch is lost exactly when the check has emptied the slot and the next connection cannot be registered. */
module Rounds {
  import opened Statistics
  import opened ConnectionModel
  import opened ConnectionRuns
  import opened LoopRuns

  predicate Idle(s: State, now: real) {
    s.nonPersistentFd != NO_FD && now - s.nonPerSince >= INACTIVE_TIMEOUT && s.tally.nonPerBytes == 0
  }

  /** The check records an idle connection with the counters from before the round, and does nothing
      else. */
  ghost predicate Checked(s: State, now: real, t: State) {
    if Idle(s, now) then
      && t.history == s.history + [Closed(s.tally, s.times.conn2End - s.times.conn2Start)]
      && t.tally == ZERO_TALLY && t.pick == s.pick && t.persistentFd == s.persistentFd && t.running == s.running
    else t == s
  }

  /** The batch is handled: the check has closed nothing, or nobody waits, or the head of the queue can be
      registered. */
  predicate BatchFollows(s: State, now: real, addOk: bool) {
    !Idle(s, now) || s.queue == [] || (addOk && s.queue[0].fd !in s.registered - {s.nonPersistentFd})
  }

  /** Events m .. n - 1 are what becomes of the round. */
  ghost predicate Handled(r: Round, events: seq<Event>, states: seq<State>, m: nat, n: nat)
    requires m <= n <= |events| && |states| == |events| + 1
  {
    if !states[m].running then n == m
    else
      match r
      case Quiet => events[m..n] == [Stop]
      case Round(now, addOk, batch) =>
        && m < n && events[m] == Tick(now, addOk) && Checked(states[m], now, states[m + 1])
        && events[m + 1..n] == if BatchFollows(states[m], now, addOk) then batch else []
  }

  ghost predicate HandledAt(rounds: seq<Round>, events: seq<Event>, states: seq<State>, cuts: seq<nat>, i: nat)
    requires i < |rounds| && |cuts| == |rounds| + 1 && |states| == |events| + 1
  {
    cuts[i] <= cuts[i + 1] <= |events| && Handled(rounds[i], events, states, cuts[i], cuts[i + 1])
  }

  /** The events are those of the rounds, one round after the other; round i begins at cuts[i]. */
  ghost predicate InRounds(rounds: seq<Round>, events: seq<Event>, states: seq<State>, cuts: seq<nat>) {
    && |cuts| == |rounds| + 1 && |states| == |events| + 1
    && cuts[0] == 0 && cuts[|rounds|] == |events| && (forall i :: 0 <= i < |cuts| ==> cuts[i] <= |events|)
    && forall i :: 0 <= i < |rounds| ==> HandledAt(rounds, events, states, cuts, i)
  }

  lemma LastHandled(cap: nat, r: Round, events: seq<Event>, states: seq<State>, m: nat)
    requires IsRun(cap, events, states) && m <= |events|
    requires events[m..] == if states[m].running then RoundEvents(states[m], r) else []
    ensures Handled(r, events, states, m, |events|)
  {
    assert events[m..|events|] == events[m..];
    if states[m].running && r.Round? {
      assert FollowsAt(cap, events, states, m);
      assert events[m] == events[m..][0] && events[m + 1..] == events[m..][1..];
      CheckIsFirst(states[m], r.now, r.addOk);
    }
  }

  lemma CheckIsFirst(s: State, now: real, addOk: bool)
    ensures Checked(s, now, Evict(s, now, addOk))
    ensures Skips(s, now, addOk) <==> !BatchFollows(s, now, addOk)
  {
    if Idle(s, now) {
      ClosingRecords(s, s.nonPersistentFd, addOk);
    }
  }

  lemma RunPrefix(cap: nat, events: seq<Event>, states: seq<State>, m: nat)
    requires IsRun(cap, events, states) && m <= |events|
    ensures IsRun(cap, events[..m], states[..m + 1])
  {
    var init, before := events[..m], states[..m + 1];
    forall k | 0 <= k < m ensures FollowsAt(cap, init, before, k) {
      assert FollowsAt(cap, events, states, k);
    }
  }

  /** What a round becomes does not depend on what comes later. */
  lemma HandledInPrefix(
    rounds: seq<Round>, n: nat, events: seq<Event>, states: seq<State>, m: nat, cuts: seq<nat>, i: nat)
    requires n < |rounds| && m <= |events| && |states| == |events| + 1 && |cuts| == n + 1 && i < n
    requires HandledAt(rounds[..n], events[..m], states[..m + 1], cuts, i)
    ensures HandledAt(rounds, events, states, cuts + seq(|rounds| - n, _ => |events|), i)
  {
    var a, b := cuts[i], cuts[i + 1];
    assert events[..m][a..b] == events[a..b];
    if a < b {
      assert events[..m][a + 1..b] == events[a + 1..b];
    }
  }

  /** The rounds that a run plays, cut out of it. */
  lemma {:induction false} PlaysInRounds(cap: nat, rounds: seq<Round>, events: seq<Event>, states: seq<State>)
    returns (cuts: seq<nat>)
    requires IsRun(cap, events, states) && Plays(rounds, events, states)
    ensures InRounds(rounds, events, states, cuts)
    decreases |rounds|
  {
    if rounds == [] {
      cuts := [0];
    } else {
      var n := |rounds| - 1;
      var m: nat :| m <= |events| && PlaysLast(rounds, events, states, m);
      RunPrefix(cap, events, states, m);
      var before := PlaysInRounds(cap, rounds[..n], events[..m], states[..m + 1]);
      cuts := before + seq(1, _ => |events|);
      LastHandled(cap, rounds[n], events, states, m);
      forall i | 0 <= i < |rounds| ensures HandledAt(rounds, events, states, cuts, i) {
        if i < n {
          assert HandledAt(rounds[..n], events[..m], states[..m + 1], before, i);
          HandledInPrefix(rounds, n, events, states, m, before, i);
        }
      }
    }
  }

  // ---------------------------------------------------------------- rounds as the kernel delivers them

  /** The time of an event, or else the time reached before it. */
  function TimeOf(e: Event, before: real): real {
    match e
    case Arrival(_, now) => now
    case Data(_, _, _, now) => now
    case Tick(now, _) => now
    case _ => before
  }

  ghost function Reached(events: seq<Event>, k: nat): real
    requires k <= |events|
  {
    if k == 0 then 0.0 else TimeOf(events[k - 1], Reached(events, k - 1))
  }

  ghost predicate InTime(events: seq<Event>) {
    forall k :: 0 <= k < |events| ==> Reached(events, k) <= Reached(events, k + 1)
  }

  predicate ForClient(e: Event) {
    e.Data? || e.Hangup?
  }

  /** A batch: at most one event for each descriptor that was watched, and at most one accept. */
  ghost predicate IsBatch(watched: set<int>, batch: seq<Event>) {
    && (forall i :: 0 <= i < |batch| ==> batch[i].Arrival? || (ForClient(batch[i]) && batch[i].fd in watched))
    && (forall i, j :: 0 <= i < j < |batch| ==> !(batch[i].Arrival? && batch[j].Arrival?))
    && (forall i, j :: 0 <= i < j < |batch| && ForClient(batch[i]) && ForClient(batch[j]) ==>
          batch[i].fd != batch[j].fd)
  }

  /** Every round brings a batch of what was watched when it began. */
  ghost predicate Delivered(rounds: seq<Round>, states: seq<State>, cuts: seq<nat>)
    requires |cuts| == |rounds| + 1 && forall i :: 0 <= i < |cuts| ==> cuts[i] < |states|
  {
    forall i :: 0 <= i < |rounds| && rounds[i].Round? && states[cuts[i]].running ==>
      IsBatch(Watched(states[cuts[i]]), rounds[i].batch)
  }

  /** The configuration that an event leads to. */
  function Next(c: Config, e: Event, t: State): Config {
    match e
    case Tick(now, addOk) =>
      var follows := BatchFollows(c.s, now, addOk);
      Config(t, now, if follows then Watched(c.s) else {}, follows,
             if Idle(c.s, now) then c.s.nonPersistentFd else NO_FD)
    case Arrival(_, now) => c.(s := t, clock := now, accepting := false)
    case Data(fd, _, _, now) => c.(s := t, clock := now, ready := c.ready - {fd})
    case Hangup(fd, _) => c.(s := t, ready := c.ready - {fd})
    case Stop => c.(s := t)
  }

  ghost function ConfigAt(events: seq<Event>, states: seq<State>, k: nat): Config
    requires k <= |events| && |states| == |events| + 1
  {
    if k == 0 then Config(states[0], 0.0, {}, false, NO_FD)
    else Next(ConfigAt(events, states, k - 1), events[k - 1], states[k])
  }

  lemma {:induction false} ConfigHolds(events: seq<Event>, states: seq<State>, k: nat)
    requires k <= |events| && |states| == |events| + 1
    ensures ConfigAt(events, states, k).s == states[k] && ConfigAt(events, states, k).clock == Reached(events, k)
  {
    if k > 0 {
      ConfigHolds(events, states, k - 1);
    }
  }

  /** Of the batch, what comes from position p on is still to be handled. */
  ghost predicate Pending(c: Config, batch: seq<Event>, p: nat) {
    forall j :: p <= j < |batch| ==>
      if batch[j].Arrival? then c.accepting else ForClient(batch[j]) && batch[j].fd in c.ready
  }

  lemma PendingNext(c: Config, watched: set<int>, batch: seq<Event>, p: nat, t: State)
    requires IsBatch(watched, batch) && p < |batch| && Pending(c, batch, p)
    ensures Pending(Next(c, batch[p], t), batch, p + 1)
  {
  }

  lemma PendingTurns(cap: nat, c: Config, batch: seq<Event>, p: nat, t: State)
    requires p < |batch| && Pending(c, batch, p) && Linked(cap, c.s, batch[p], t)
    requires c.clock <= TimeOf(batch[p], c.clock)
    ensures Turn(cap, c, batch[p], Next(c, batch[p], t))
  {
  }

  lemma TickTurns(cap: nat, c: Config, now: real, addOk: bool, t: State)
    requires c.s.running && c.clock <= now && Linked(cap, c.s, Tick(now, addOk), t)
    ensures Turn(cap, c, Tick(now, addOk), Next(c, Tick(now, addOk), t))
  {
    CheckIsFirst(c.s, now, addOk);
  }

  ghost predicate TurnsAt(cap: nat, events: seq<Event>, states: seq<State>, k: nat)
    requires k < |events| && |states| == |events| + 1
  {
    Turn(cap, ConfigAt(events, states, k), events[k], ConfigAt(events, states, k + 1))
  }

  /** Events m + 1 .. n - 1 are the batch of the round that begins at m. */
  ghost predicate IsBatchOf(events: seq<Event>, states: seq<State>, m: nat, n: nat, batch: seq<Event>)
    requires |states| == |events| + 1
  {
    && m < n <= |events| && n - m - 1 == |batch| && events[m].Tick?
    && (forall k :: m < k < n ==> events[k] == batch[k - m - 1])
    && BatchFollows(states[m], events[m].now, events[m].addOk) && IsBatch(Watched(states[m]), batch)
  }

  lemma {:induction false} BatchPending(
    events: seq<Event>, states: seq<State>, m: nat, n: nat, batch: seq<Event>, k: nat)
    requires |states| == |events| + 1 && IsBatchOf(events, states, m, n, batch) && m < k <= n
    ensures Pending(ConfigAt(events, states, k), batch, k - m - 1)
    decreases k
  {
    if k == m + 1 {
      ConfigHolds(events, states, m);
    } else {
      BatchPending(events, states, m, n, batch, k - 1);
      PendingNext(ConfigAt(events, states, k - 1), Watched(states[m]), batch, k - m - 2, states[k]);
    }
  }

  lemma BatchTurns(
    cap: nat, events: seq<Event>, states: seq<State>, m: nat, n: nat, batch: seq<Event>, k: nat)
    requires PossibleRun(cap, events, states) && InTime(events)
    requires IsBatchOf(events, states, m, n, batch) && m < k < n
    ensures TurnsAt(cap, events, states, k)
  {
    ConfigHolds(events, states, k);
    BatchPending(events, states, m, n, batch, k);
    assert FollowsAt(cap, events, states, k) && PossibleAt(events, states, k);
    assert Reached(events, k) <= Reached(events, k + 1);
    PendingTurns(cap, ConfigAt(events, states, k), batch, k - m - 1, states[k + 1]);
  }

  lemma CheckTurns(cap: nat, events: seq<Event>, states: seq<State>, m: nat)
    requires PossibleRun(cap, events, states) && InTime(events) && m < |events| && states[m].running
    requires events[m].Tick? || events[m].Stop?
    ensures TurnsAt(cap, events, states, m)
  {
    ConfigHolds(events, states, m);
    assert FollowsAt(cap, events, states, m) && PossibleAt(events, states, m);
    if events[m].Tick? {
      assert Reached(events, m) <= Reached(events, m + 1);
      TickTurns(cap, ConfigAt(events, states, m), events[m].now, events[m].addOk, states[m + 1]);
    }
  }

  lemma RoundTakesTurns(
    cap: nat, rounds: seq<Round>, events: seq<Event>, states: seq<State>, cuts: seq<nat>, i: nat, k: nat)
    requires PossibleRun(cap, events, states) && InTime(events) && InRounds(rounds, events, states, cuts)
    requires Delivered(rounds, states, cuts)
    requires i < |rounds| && cuts[i] <= k < cuts[i + 1]
    ensures TurnsAt(cap, events, states, k)
  {
    var m, n := cuts[i], cuts[i + 1];
    assert HandledAt(rounds, events, states, cuts, i);
    if rounds[i].Quiet? {
      assert |events[m..n]| == 1 && events[m] == events[m..n][0];
      CheckTurns(cap, events, states, m);
    } else if k == m {
      CheckTurns(cap, events, states, m);
    } else {
      var batch := events[m + 1..n];
      assert batch == rounds[i].batch;
      BatchTurns(cap, events, states, m, n, batch, k);
    }
  }

  lemma {:induction false} AllTurns(
    cap: nat, rounds: seq<Round>, events: seq<Event>, states: seq<State>, cuts: seq<nat>, i: nat)
    requires PossibleRun(cap, events, states) && InTime(events) && InRounds(rounds, events, states, cuts)
    requires Delivered(rounds, states, cuts) && i <= |rounds|
    ensures forall k :: 0 <= k < cuts[i] ==> TurnsAt(cap, events, states, k)
  {
    if i > 0 {
      AllTurns(cap, rounds, events, states, cuts, i - 1);
      forall k | cuts[i - 1] <= k < cuts[i] ensures TurnsAt(cap, events, states, k) {
        RoundTakesTurns(cap, rounds, events, states, cuts, i - 1, k);
      }
    }
  }

  /** The rounds that are handled form a path of the loop, if they are delivered as the kernel does and time
      does not run back. */
  lemma RoundsArePath(cap: nat, rounds: seq<Round>, events: seq<Event>, states: seq<State>, cuts: seq<nat>)
    returns (configs: seq<Config>)
    requires PossibleRun(cap, events, states) && InTime(events) && InRounds(rounds, events, states, cuts)
    requires Delivered(rounds, states, cuts)
    ensures Path(cap, false, events, configs) && IsStart(configs[0]) && States(configs) == states
  {
    var n := |events|;
    configs := seq(n + 1, k requires 0 <= k < n + 1 => ConfigAt(events, states, k));
    AllTurns(cap, rounds, events, states, cuts, |rounds|);
    forall k | 0 <= k < n ensures TurnAt(cap, false, events, configs, k) {
      assert TurnsAt(cap, events, states, k);
    }
    forall k | 0 <= k <= n ensures configs[k].s == states[k] {
      ConfigHolds(events, states, k);
    }
  }
}
