/** What the invariant of the turn protocol means for whole runs: order, wakeups, progress,
    termination and the balance between connections. */
module TurnProgress {
  import opened TurnTaking

  // ---------------------------------------------------------------- safety

  /** In every run, under either limit and with any spurious wakeups, packets go out round-robin
      with consecutive identifiers. */
  lemma SendsAreRoundRobin(c: Config, steps: seq<Step>)
    requires c.n > 0 && IsRun(c, steps)
    ensures RoundRobin(c.n, Final(c, steps).log)
    ensures Final(c, steps).packetId == |Final(c, steps).log| + 1
  {
    RunKeepsInv(c, steps);
  }

  /** When the mutex is free the thread whose turn it is is not waiting for a broadcast. */
  lemma NoLostWakeup(c: Config, steps: seq<Step>)
    requires c.n > 0 && IsRun(c, steps)
    ensures var s := Final(c, steps);
            1 <= s.currentConn <= c.n == |s.phase| && (s.owner == 0 ==> s.phase[s.currentConn - 1] != Waiting)
  {
    RunKeepsInv(c, steps);
  }

  /** At most one thread is between taking and releasing the mutex. */
  lemma MutualExclusion(c: Config, steps: seq<Step>, i: nat, j: nat)
    requires c.n > 0 && IsRun(c, steps) && i < c.n && j < c.n
    ensures var s := Final(c, steps);
            |s.phase| == c.n && (Critical(s.phase[i]) && Critical(s.phase[j]) ==> i == j)
  {
    RunKeepsInv(c, steps);
  }

  /** A run goes on with a step, seen from the state it has reached. */
  lemma RunTakes(c: Config, steps: seq<Step>, s: State, step: Step)
    requires IsRun(c, steps) && Final(c, steps) == s && Enabled(c, s, step)
    ensures IsRun(c, steps + [step]) && Final(c, steps + [step]) == Apply(c, s, step)
  {
    assert (steps + [step])[..|steps|] == steps;
  }

  // ---------------------------------------------------------------- one thread among the others

  /** The thread cannot go on by itself: it waits to be woken, or for the mutex. */
  predicate Blocked(s: State, t: nat)
    requires 1 <= t <= |s.phase|
  {
    s.phase[t - 1] == Waiting || (s.phase[t - 1] in {AtLock, Woken} && s.owner != 0)
  }

  /** What the other threads do cannot move a thread, except to wake it, nor touch the turn and the
      packet number while it holds the mutex. */
  ghost predicate LeftAlone(s: State, u: State, t: nat)
    requires 1 <= t <= |s.phase| == |u.phase| && |s.sent| == |u.sent| == |s.phase|
  {
    && u.sent[t - 1] == s.sent[t - 1]
    && (u.phase[t - 1] == s.phase[t - 1] || (s.phase[t - 1] == Waiting && u.phase[t - 1] == Woken))
    && (Critical(s.phase[t - 1]) ==>
          u.owner == s.owner && u.currentConn == s.currentConn && u.packetId == s.packetId)
  }

  lemma OthersLeaveAlone(c: Config, s: State, step: Step, t: nat)
    requires Inv(c, s) && Enabled(c, s, step) && 1 <= t <= c.n && (step.t != t || step.Spurious?)
    ensures LeftAlone(s, Apply(c, s, step), t)
  {
  }

  // ---------------------------------------------------------------- progress

  /** Some thread can take a step without being woken for no reason. */
  ghost predicate CanMove(c: Config, s: State) {
    exists step :: Enabled(c, s, step) && !step.Spurious?
  }

  ghost predicate AllDone(s: State) {
    forall i :: 0 <= i < |s.phase| ==> s.phase[i] == Done
  }

  ghost predicate AsleepOrDone(s: State) {
    s.owner == 0 && forall i :: 0 <= i < |s.phase| ==> s.phase[i] == Waiting || s.phase[i] == Done
  }

  /** A thread that is neither asleep nor done can move, if not blocked by the holder of the mutex;
      and the holder can always move. */
  lemma StuckIffAsleepOrDone(c: Config, s: State)
    requires Inv(c, s)
    ensures !CanMove(c, s) <==> AsleepOrDone(s)
  {
    if AsleepOrDone(s) {
      forall step | Enabled(c, s, step) ensures step.Spurious? {}
    } else if s.owner != 0 {
      HolderMoves(c, s);
    } else {
      var i :| 0 <= i < c.n && s.phase[i] != Waiting && s.phase[i] != Done;
      AwakeMoves(c, s, i);
    }
  }

  lemma AwakeMoves(c: Config, s: State, i: nat)
    requires Inv(c, s) && s.owner == 0 && i < c.n && s.phase[i] != Waiting && s.phase[i] != Done
    ensures CanMove(c, s)
  {
    var t := i + 1;
    var step :=
      if s.phase[i] == AtLock then Lock(t)
      else if s.phase[i] == Woken then Relock(t)
      else if c.limit.Packets? && s.sent[i] >= c.limit.p then Leave(t)
      else Enter(t);
    assert Enabled(c, s, step);
  }

  lemma OwnerIsCritical(c: Config, s: State)
    requires Inv(c, s)
    ensures s.owner != 0 ==> Critical(s.phase[s.owner - 1])
  {
  }

  lemma HolderMoves(c: Config, s: State)
    requires Inv(c, s) && s.owner != 0
    ensures CanMove(c, s)
  {
    OwnerIsCritical(c, s);
    var t := s.owner;
    var step :=
      if s.phase[t - 1] == Sent then Broadcast(t)
      else if s.phase[t - 1] == Signalled then Unlock(t)
      else if s.currentConn == t then Send(t)
      else Wait(t);
    assert Enabled(c, s, step);
  }

  /** If the thread whose turn it is has made all its p sends, all n * p sends have been made. */
  lemma TurnHolderDone(c: Config, s: State)
    requires Inv(c, s) && c.limit.Packets?
    requires s.sent[s.currentConn - 1] == c.limit.p
    ensures |s.log| == c.n * c.limit.p
    ensures forall i :: 0 <= i < c.n ==> s.sent[i] == c.limit.p
  {
    var k, r := |s.log|, s.currentConn - 1;
    assert s.sent[r] == Turns(c.n, r, k) == k / c.n;
    assert k == (k / c.n) * c.n + r;
    assert s.sent[0] == Turns(c.n, 0, k);
    forall i | 0 <= i < c.n ensures s.sent[i] == c.limit.p {
      assert s.sent[i] == Turns(c.n, i, k);
    }
  }

  /** With a fixed number of packets the protocol stops only when everything is sent and every
      thread has left; in particular there is no deadlock before that. */
  lemma StuckIffComplete(c: Config, s: State)
    requires Inv(c, s) && c.limit.Packets?
    ensures !CanMove(c, s) <==> AllDone(s)
    ensures AllDone(s) ==> |s.log| == c.n * c.limit.p
  {
    StuckIffAsleepOrDone(c, s);
    if AllDone(s) || AsleepOrDone(s) {
      assert s.phase[s.currentConn - 1] == Done;
      TurnHolderDone(c, s);
      assert forall i :: 0 <= i < c.n ==> !InLoop(s.phase[i]);
      OwnerIsCritical(c, s);
    }
  }

  lemma NoDeadlock(c: Config, steps: seq<Step>)
    requires c.n > 0 && c.limit.Packets? && IsRun(c, steps)
    ensures |Final(c, steps).log| < c.n * c.limit.p ==> CanMove(c, Final(c, steps))
    ensures !CanMove(c, Final(c, steps)) ==> AllDone(Final(c, steps))
  {
    RunKeepsInv(c, steps);
    StuckIffComplete(c, Final(c, steps));
  }

  // ---------------------------------------------------------------- termination

  function Weight(p: Phase): nat {
    match p
    case AtLoop => 3
    case AtLock => 2
    case Woken => 2
    case Holding => 1
    case Sent => 4
    case Signalled => 4
    case Waiting => 0
    case Done => 0
  }

  function TotalWeight(phase: seq<Phase>): nat {
    if phase == [] then 0 else TotalWeight(phase[..|phase| - 1]) + Weight(phase[|phase| - 1])
  }

  lemma {:induction false} TotalWeightBound(phase: seq<Phase>)
    ensures TotalWeight(phase) <= 4 * |phase|
  {
    if phase != [] {
      TotalWeightBound(phase[..|phase| - 1]);
    }
  }

  lemma {:induction false} TotalWeightUpdate(phase: seq<Phase>, i: nat, p: Phase)
    requires i < |phase|
    ensures TotalWeight(phase[i := p]) == TotalWeight(phase) - Weight(phase[i]) + Weight(p)
  {
    var n := |phase| - 1;
    if i == n {
      assert phase[i := p][..n] == phase[..n];
    } else {
      TotalWeightUpdate(phase[..n], i, p);
      assert phase[i := p][..n] == phase[..n][i := p];
    }
  }

  lemma {:induction false} InitialWeight(phase: seq<Phase>)
    requires forall i :: 0 <= i < |phase| ==> phase[i] == AtLoop
    ensures TotalWeight(phase) == 3 * |phase|
  {
    if phase != [] {
      InitialWeight(phase[..|phase| - 1]);
    }
  }

  /** Sends still to come, then the broadcast still to come, then the weights of the phases. */
  function Remaining(c: Config, s: State): int
    requires c.limit.Packets?
  {
    c.n * c.limit.p - |s.log|
  }

  predicate BroadcastDue(s: State) {
    0 < s.owner <= |s.phase| && s.phase[s.owner - 1] == Sent
  }

  function Measure(c: Config, s: State): int
    requires c.limit.Packets?
  {
    Remaining(c, s) * (2 * (4 * c.n + 1)) + (if BroadcastDue(s) then 4 * c.n + 1 else 0) + TotalWeight(s.phase)
  }

  lemma MeasureNonNegative(c: Config, s: State)
    requires Inv(c, s) && c.limit.Packets?
    ensures Remaining(c, s) >= 0 && Measure(c, s) >= 0
  {
    assert s.sent[0] == Turns(c.n, 0, |s.log|) && s.sent[0] <= c.limit.p;
    FirstTurnsBound(c.n, |s.log|, c.limit.p);
    Scaled(Remaining(c, s), 2 * (4 * c.n + 1));
  }

  lemma FirstTurnsBound(n: nat, k: nat, p: nat)
    requires n > 0 && Turns(n, 0, k) <= p
    ensures k <= n * p
  {
    var q, r := k / n, k % n;
    assert k == n * q + r;
    if r > 0 {
      assert n * (q + 1) == n * q + n;
      assert n * (q + 1) <= n * p;
    } else {
      assert n * q <= n * p;
    }
  }

  lemma Scaled(r: nat, w: nat)
    ensures r * w >= 0 && (r + 1) * w == r * w + w
  {
  }

  lemma SendDecreases(c: Config, s: State, t: nat)
    requires Inv(c, s) && c.limit.Packets? && Enabled(c, s, Send(t))
    ensures Measure(c, Apply(c, s, Send(t))) < Measure(c, s)
  {
    var u := Apply(c, s, Send(t));
    SendBrings(c, s, t);
    OneSendLess(c.n, Remaining(c, u), TotalWeight(s.phase), TotalWeight(u.phase));
  }

  lemma SendBrings(c: Config, s: State, t: nat)
    requires Inv(c, s) && c.limit.Packets? && Enabled(c, s, Send(t))
    ensures var u := Apply(c, s, Send(t));
            && Remaining(c, s) == Remaining(c, u) + 1 && Remaining(c, u) >= 0 && !BroadcastDue(s)
            && TotalWeight(u.phase) <= TotalWeight(s.phase) + 3
  {
    var u := Apply(c, s, Send(t));
    assert s.phase[t - 1] == Holding && s.owner == t;
    SendWeighs(s.phase, t - 1);
    SendWasLeft(c, s, t);
  }

  lemma SendWasLeft(c: Config, s: State, t: nat)
    requires Inv(c, s) && c.limit.Packets? && Enabled(c, s, Send(t))
    ensures Remaining(c, Apply(c, s, Send(t))) >= 0
  {
    StepKeepsInv(c, s, Send(t));
    MeasureNonNegative(c, Apply(c, s, Send(t)));
  }

  lemma OneSendLess(n: nat, r: nat, before: nat, after: nat)
    requires n > 0 && after <= before + 3
    ensures r * (2 * (4 * n + 1)) + (4 * n + 1) + after < (r + 1) * (2 * (4 * n + 1)) + before
  {
    Scaled(r, 2 * (4 * n + 1));
  }

  lemma SendWeighs(phase: seq<Phase>, i: nat)
    requires i < |phase| && phase[i] == Holding
    ensures TotalWeight(phase[i := Sent]) <= TotalWeight(phase) + 3
  {
    TotalWeightUpdate(phase, i, Sent);
  }

  /** Every step but a spurious wakeup brings the measure down, and a spurious one adds 2. */
  lemma StepDecreases(c: Config, s: State, step: Step)
    requires Inv(c, s) && c.limit.Packets? && Enabled(c, s, step)
    ensures !step.Spurious? ==> Measure(c, Apply(c, s, step)) < Measure(c, s)
    ensures step.Spurious? ==> Measure(c, Apply(c, s, step)) <= Measure(c, s) + 2
  {
    match step
    case Send(t) => SendDecreases(c, s, t);
    case Broadcast(t) =>
      assert s.owner == t;
      TotalWeightBound(Apply(c, s, step).phase);
    case _ => PhaseStepDecreases(c, s, step);
  }

  lemma PhaseStepDecreases(c: Config, s: State, step: Step)
    requires Inv(c, s) && c.limit.Packets? && Enabled(c, s, step) && !step.Send? && !step.Broadcast?
    ensures !step.Spurious? ==> Measure(c, Apply(c, s, step)) < Measure(c, s)
    ensures step.Spurious? ==> Measure(c, Apply(c, s, step)) <= Measure(c, s) + 2
  {
    var u := Apply(c, s, step);
    var i := step.t - 1;
    DueStays(c, s, step);
    PhaseFalls(c, s, step);
    TotalWeightUpdate(s.phase, i, u.phase[i]);
    SameSends(c, s, u);
  }

  lemma PhaseFalls(c: Config, s: State, step: Step)
    requires Enabled(c, s, step) && !step.Send? && !step.Broadcast?
    ensures var u, i := Apply(c, s, step), step.t - 1;
            && u.phase == s.phase[i := u.phase[i]] && u.log == s.log
            && if step.Spurious? then Weight(u.phase[i]) == Weight(s.phase[i]) + 2
               else Weight(u.phase[i]) < Weight(s.phase[i])
  {
  }

  lemma DueStays(c: Config, s: State, step: Step)
    requires Inv(c, s) && Enabled(c, s, step) && !step.Send? && !step.Broadcast?
    ensures BroadcastDue(s) == BroadcastDue(Apply(c, s, step))
  {
  }

  lemma SameSends(c: Config, s: State, u: State)
    requires c.limit.Packets? && u.log == s.log && BroadcastDue(s) == BroadcastDue(u)
    ensures Measure(c, u) - Measure(c, s) == TotalWeight(u.phase) - TotalWeight(s.phase)
  {
  }

  function SpuriousSteps(steps: seq<Step>): nat {
    if steps == [] then 0
    else SpuriousSteps(steps[..|steps| - 1]) + if steps[|steps| - 1].Spurious? then 1 else 0
  }

  function Bound(n: nat, p: nat): nat {
    n * p * (2 * (4 * n + 1)) + 3 * n
  }

  lemma {:induction false} RunDecreases(c: Config, steps: seq<Step>)
    requires c.n > 0 && c.limit.Packets? && IsRun(c, steps)
    ensures |steps| + Measure(c, Final(c, steps)) <= Bound(c.n, c.limit.p) + 3 * SpuriousSteps(steps)
  {
    if steps == [] {
      InitialWeight(Init(c).phase);
    } else {
      var init := steps[..|steps| - 1];
      RunDecreases(c, init);
      RunKeepsInv(c, init);
      StepDecreases(c, Final(c, init), steps[|steps| - 1]);
    }
  }

  /** The length of a run is bounded, up to the spurious wakeups in it; and a run that cannot be
      continued has sent n * p packets and let every thread go. */
  lemma RunsTerminate(c: Config, steps: seq<Step>)
    requires c.n > 0 && c.limit.Packets? && IsRun(c, steps)
    ensures |steps| <= Bound(c.n, c.limit.p) + 3 * SpuriousSteps(steps)
    ensures !CanMove(c, Final(c, steps)) ==>
              AllDone(Final(c, steps)) && |Final(c, steps).log| == c.n * c.limit.p
  {
    RunDecreases(c, steps);
    RunKeepsInv(c, steps);
    MeasureNonNegative(c, Final(c, steps));
    StuckIffComplete(c, Final(c, steps));
  }

  /** Every run can be continued, without spurious wakeups, to the end. */
  lemma {:induction false} RunsCanFinish(c: Config, steps: seq<Step>) returns (full: seq<Step>)
    requires c.n > 0 && c.limit.Packets? && IsRun(c, steps)
    ensures steps <= full && IsRun(c, full) && SpuriousSteps(full) == SpuriousSteps(steps)
    ensures AllDone(Final(c, full))
    decreases Measure(c, Final(c, steps))
  {
    var s := Final(c, steps);
    RunKeepsInv(c, steps);
    MeasureNonNegative(c, s);
    StuckIffComplete(c, s);
    full := steps;
    if CanMove(c, s) {
      var step :| Enabled(c, s, step) && !step.Spurious?;
      assert (steps + [step])[..|steps|] == steps;
      StepDecreases(c, s, step);
      full := RunsCanFinish(c, steps + [step]);
    }
  }

  // ---------------------------------------------------------------- threads that stop when time is up

  /** The per-connection counts differ by one exactly for the connections before the turn, whatever
      the order in which threads leave. */
  lemma CountsStayBalanced(c: Config, steps: seq<Step>, i: nat, j: nat)
    requires c.n > 0 && IsRun(c, steps) && i < c.n && j < c.n
    ensures var s := Final(c, steps);
            && |s.sent| == c.n
            && s.sent[i] + (if j + 1 < s.currentConn then 1 else 0) ==
               s.sent[j] + (if i + 1 < s.currentConn then 1 else 0)
  {
    RunKeepsInv(c, steps);
    var s := Final(c, steps);
    assert s.sent[i] == Turns(c.n, i, |s.log|) && s.sent[j] == Turns(c.n, j, |s.log|);
  }

  /** Two connections: the difference of the counts is the turn, less one. */
  lemma {:induction false} StrictAlternation(limit: Limit, steps: seq<Step>)
    requires IsRun(Config(2, limit), steps)
    ensures var s := Final(Config(2, limit), steps);
            |s.sent| == 2 && s.sent[0] == s.sent[1] + (s.currentConn - 1) && s.sent[1] <= s.sent[0] <= s.sent[1] + 1
  {
    CountsStayBalanced(Config(2, limit), steps, 0, 1);
    RunKeepsInv(Config(2, limit), steps);
  }

  /** When threads may leave at any time, the protocol can also stop with threads asleep: exactly
      when the mutex is free, the thread whose turn it is has left, and the others have left or wait. */
  lemma StuckWhenTurnHolderLeft(c: Config, s: State)
    requires Inv(c, s)
    ensures !CanMove(c, s) <==>
            AsleepOrDone(s) && s.phase[s.currentConn - 1] == Done
  {
    StuckIffAsleepOrDone(c, s);
  }

  /** Some continuation of the run sends another packet. */
  ghost predicate SendAhead(c: Config, steps: seq<Step>) {
    exists run :: SendsMore(c, steps, run)
  }

  ghost predicate SendsMore(c: Config, steps: seq<Step>, run: seq<Step>) {
    steps <= run && IsRun(c, run) && |Final(c, run).log| > |Final(c, steps).log|
  }

  lemma DoneBlocksTurn(c: Config, s: State, step: Step)
    requires Inv(c, s) && Enabled(c, s, step) && s.phase[s.currentConn - 1] == Done
    ensures var u := Apply(c, s, step);
            u.log == s.log && u.currentConn == s.currentConn && u.phase[u.currentConn - 1] == Done
  {
  }

  /** The thread whose turn it is has left, and the packets sent are these. */
  ghost predicate OverAt(c: Config, s: State, conn: int, log: seq<Packet>) {
    Inv(c, s) && s.log == log && s.currentConn == conn && s.phase[conn - 1] == Done
  }

  lemma {:induction false} DoneForGood(c: Config, steps: seq<Step>, run: seq<Step>, conn: int, log: seq<Packet>)
    requires c.n > 0 && IsRun(c, run) && steps <= run && OverAt(c, Final(c, steps), conn, log)
    ensures OverAt(c, Final(c, run), conn, log)
    decreases |run|
  {
    if |run| == |steps| {
      assert run == steps;
    } else {
      var init, last := run[..|run| - 1], run[|run| - 1];
      DoneForGood(c, steps, init, conn, log);
      StepKeepsInv(c, Final(c, init), last);
      DoneBlocksTurn(c, Final(c, init), last);
    }
  }

  /** How far the thread whose turn it is is from sending. */
  function Distance(s: State): nat {
    if 0 < s.owner <= |s.phase| then
      match s.phase[s.owner - 1]
      case Sent => 12
      case Signalled => 11
      case Holding => if s.owner == s.currentConn then 1 else 8
      case _ => 0
    else if 1 <= s.currentConn <= |s.phase| then
      match s.phase[s.currentConn - 1]
      case AtLoop => 5
      case AtLock => 4
      case Woken => 4
      case _ => 0
    else 0
  }

  /** The holder of the mutex, or else the thread whose turn it is, can move, and brings a send nearer. */
  lemma Nearer(c: Config, s: State) returns (step: Step)
    requires Inv(c, s) && c.limit.Clock? && s.phase[s.currentConn - 1] != Done
    ensures Enabled(c, s, step)
    ensures var u := Apply(c, s, step);
            |u.log| > |s.log| ||
            (u.log == s.log && u.currentConn == s.currentConn && |u.phase| == c.n
             && u.phase[u.currentConn - 1] != Done && Distance(u) < Distance(s))
  {
    OwnerIsCritical(c, s);
    var t, o := s.currentConn, s.owner;
    if o != 0 {
      step :=
        if s.phase[o - 1] == Sent then Broadcast(o)
        else if s.phase[o - 1] == Signalled then Unlock(o)
        else if o == t then Step.Send(o)
        else Wait(o);
    } else {
      step :=
        if s.phase[t - 1] == AtLoop then Enter(t)
        else if s.phase[t - 1] == AtLock then Lock(t)
        else Relock(t);
    }
  }

  /** The turn's thread has not left and nothing more has been sent. */
  ghost predicate Pending(c: Config, steps: seq<Step>, log: seq<Packet>) {
    && IsRun(c, steps)
    && var s := Final(c, steps);
       Inv(c, s) && s.log == log && s.phase[s.currentConn - 1] != Done
  }

  lemma RunNearer(c: Config, steps: seq<Step>, log: seq<Packet>) returns (run: seq<Step>)
    requires c.limit.Clock? && Pending(c, steps, log)
    ensures steps <= run && IsRun(c, run)
    ensures |Final(c, run).log| > |log| || (Pending(c, run, log) && Distance(Final(c, run)) < Distance(Final(c, steps)))
  {
    var s := Final(c, steps);
    var step := Nearer(c, s);
    run := steps + [step];
    assert run[..|steps|] == steps;
    StepKeepsInv(c, s, step);
  }

  lemma {:induction false} SendInReach(c: Config, steps: seq<Step>, log: seq<Packet>) returns (run: seq<Step>)
    requires c.limit.Clock? && Pending(c, steps, log)
    ensures steps <= run && IsRun(c, run) && |Final(c, run).log| > |log|
    decreases Distance(Final(c, steps))
  {
    run := RunNearer(c, steps, log);
    if |Final(c, run).log| <= |log| {
      run := SendInReach(c, run, log);
    }
  }

  lemma SendFollows(c: Config, steps: seq<Step>)
    requires c.limit.Clock? && Pending(c, steps, Final(c, steps).log)
    ensures SendAhead(c, steps)
  {
    var run := SendInReach(c, steps, Final(c, steps).log);
    assert SendsMore(c, steps, run);
  }

  lemma NoSendAhead(c: Config, steps: seq<Step>)
    requires c.n > 0 && OverAt(c, Final(c, steps), Final(c, steps).currentConn, Final(c, steps).log)
    ensures !SendAhead(c, steps)
  {
    forall run | steps <= run && IsRun(c, run) ensures !SendsMore(c, steps, run) {
      DoneForGood(c, steps, run, Final(c, steps).currentConn, Final(c, steps).log);
    }
  }

  /** With threads that may leave at any time, another packet can be sent exactly while the thread whose
      turn it is has not left. */
  lemma SendAheadIff(c: Config, steps: seq<Step>)
    requires c.n > 0 && IsRun(c, steps) && c.limit.Clock?
    ensures var s := Final(c, steps);
            1 <= s.currentConn <= c.n == |s.phase| && (SendAhead(c, steps) <==> s.phase[s.currentConn - 1] != Done)
  {
    RunKeepsInv(c, steps);
    var s := Final(c, steps);
    if s.phase[s.currentConn - 1] == Done {
      NoSendAhead(c, steps);
    } else {
      SendFollows(c, steps);
    }
  }

  lemma EarlyStop(c: Config) returns (s: State)
    requires c == Config(2, Clock)
    ensures var steps := [] + [Leave(1)] + [Enter(2)] + [Lock(2)] + [Wait(2)];
            IsRun(c, steps) && Final(c, steps) == s
    ensures s.phase == [Done, Waiting]
  {
    s := Init(c);
    var steps := [];
    RunTakes(c, steps, s, Leave(1));
    steps, s := steps + [Leave(1)], Apply(c, s, Leave(1));
    RunTakes(c, steps, s, Enter(2));
    steps, s := steps + [Enter(2)], Apply(c, s, Enter(2));
    RunTakes(c, steps, s, Lock(2));
    steps, s := steps + [Lock(2)], Apply(c, s, Lock(2));
    RunTakes(c, steps, s, Wait(2));
    s := Apply(c, s, Wait(2));
  }

  /** Thread 1 leaves on its own turn; thread 2 then waits for ever. */
  lemma EarlyStopStrandsOther()
    ensures var c, steps := Config(2, Clock), [Leave(1), Enter(2), Lock(2), Wait(2)];
            IsRun(c, steps) && !CanMove(c, Final(c, steps)) && Final(c, steps).phase == [Done, Waiting]
  {
    var c, steps := Config(2, Clock), [Leave(1), Enter(2), Lock(2), Wait(2)];
    var s := EarlyStop(c);
    assert steps == [] + [Leave(1)] + [Enter(2)] + [Lock(2)] + [Wait(2)];
    RunKeepsInv(c, steps);
    StuckIffAsleepOrDone(c, s);
  }
}
