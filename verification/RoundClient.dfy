/** The client that keeps two counters, the connection and the packet round, and waits for both to
    match: it takes exactly the steps of the client with the single packet counter. */
module RoundTurns {
  import opened TurnTaking
  import opened TurnProgress
  import Messages

  datatype RoundPacket = RoundPacket(conn: int, round: int)

  datatype RoundState = RoundState(
    currentConn: int, currentPacket: int, owner: nat,
    phase: seq<Phase>, sent: seq<nat>, log: seq<RoundPacket>)

  function RoundInit(c: Config): RoundState {
    RoundState(1, 1, 0, seq(c.n, _ => AtLoop), seq(c.n, _ => 0), [])
  }

  /** A thread's loop counter, from 1, is one more than the packets it has sent. */
  predicate IsTurn(r: RoundState, t: nat)
    requires 1 <= t <= |r.sent|
  {
    r.currentConn == t && r.currentPacket == r.sent[t - 1] + 1
  }

  predicate RoundEnabled(c: Config, r: RoundState, step: Step) {
    && 1 <= step.t <= c.n && |r.phase| == c.n && |r.sent| == c.n
    && var ph := r.phase[step.t - 1];
       match step
       case Enter(t) => ph == AtLoop && (c.limit.Packets? ==> r.sent[t - 1] + 1 <= c.limit.p)
       case Leave(t) => ph == AtLoop && (c.limit.Packets? ==> r.sent[t - 1] + 1 > c.limit.p)
       case Lock(_) => ph == AtLock && r.owner == 0
       case Wait(t) => ph == Holding && !IsTurn(r, t)
       case Send(t) => ph == Holding && IsTurn(r, t)
       case Broadcast(_) => ph == Sent
       case Unlock(_) => ph == Signalled
       case Relock(_) => ph == Woken && r.owner == 0
       case Spurious(_) => ph == Waiting
  }

  function RoundApply(c: Config, r: RoundState, step: Step): RoundState
    requires RoundEnabled(c, r, step)
  {
    var i := step.t - 1;
    match step
    case Enter(_) => r.(phase := r.phase[i := AtLock])
    case Leave(_) => r.(phase := r.phase[i := Done])
    case Lock(t) => r.(phase := r.phase[i := Holding], owner := t)
    case Wait(_) => r.(phase := r.phase[i := Waiting], owner := 0)
    case Send(t) =>
      RoundState(
        if r.currentConn == c.n then 1 else r.currentConn + 1,
        if r.currentConn == c.n then r.currentPacket + 1 else r.currentPacket,
        r.owner, r.phase[i := Sent], r.sent[i := r.sent[i] + 1],
        r.log + [RoundPacket(t, r.sent[i] + 1)])
    case Broadcast(_) => r.(phase := WakeAll(r.phase)[i := Signalled])
    case Unlock(_) => r.(phase := r.phase[i := AtLoop], owner := 0)
    case Relock(t) => r.(phase := r.phase[i := Holding], owner := t)
    case Spurious(_) => r.(phase := r.phase[i := Woken])
  }

  ghost predicate IsRoundRun(c: Config, steps: seq<Step>) {
    steps == [] || (IsRoundRun(c, steps[..|steps| - 1])
                    && RoundEnabled(c, RoundFinal(c, steps[..|steps| - 1]), steps[|steps| - 1]))
  }

  ghost function RoundFinal(c: Config, steps: seq<Step>): RoundState {
    if steps == [] then RoundInit(c)
    else
      var r := RoundFinal(c, steps[..|steps| - 1]);
      if RoundEnabled(c, r, steps[|steps| - 1]) then RoundApply(c, r, steps[|steps| - 1]) else r
  }

  /** The identifier that a connection's packet of a round has under the single counter. */
  function Id(n: nat, conn: int, round: int): int {
    (round - 1) * n + conn
  }

  function Ids(n: nat, log: seq<RoundPacket>): seq<Packet> {
    seq(|log|, k requires 0 <= k < |log| => Packet(log[k].conn, Id(n, log[k].conn, log[k].round)))
  }

  function Single(n: nat, r: RoundState): State {
    State(r.currentConn, Id(n, r.currentConn, r.currentPacket), r.owner, r.phase, r.sent, Ids(n, r.log))
  }

  /** Whenever it is a connection's turn, its loop counter is the current round. */
  lemma RoundTestRedundant(c: Config, r: RoundState, t: nat)
    requires Inv(c, Single(c.n, r)) && r.currentPacket >= 1 && 1 <= t <= c.n
    ensures r.currentConn == t ==> r.currentPacket == r.sent[t - 1] + 1
  {
    if r.currentConn == t {
      var k := |r.log|;
      assert k == (r.currentPacket - 1) * c.n + (t - 1);
      DivModUnique(k, c.n, r.currentPacket - 1, t - 1);
      assert Single(c.n, r).sent[t - 1] == Turns(c.n, t - 1, k);
    }
  }

  /** One step: the same steps are possible and they lead to corresponding states. */
  lemma Bisimilar(c: Config, r: RoundState, step: Step)
    requires Inv(c, Single(c.n, r)) && r.currentPacket >= 1
    ensures RoundEnabled(c, r, step) <==> Enabled(c, Single(c.n, r), step)
    ensures RoundEnabled(c, r, step) ==>
              && Single(c.n, RoundApply(c, r, step)) == Apply(c, Single(c.n, r), step)
              && RoundApply(c, r, step).currentPacket >= 1
  {
    if 1 <= step.t <= c.n {
      RoundTestRedundant(c, r, step.t);
    }
    if RoundEnabled(c, r, step) && step.Send? {
      SendsCorrespond(c, r, step.t);
    }
  }

  lemma SendsCorrespond(c: Config, r: RoundState, t: nat)
    requires Inv(c, Single(c.n, r)) && RoundEnabled(c, r, Step.Send(t))
    ensures Single(c.n, RoundApply(c, r, Step.Send(t))) == Apply(c, Single(c.n, r), Step.Send(t))
  {
    var u := RoundApply(c, r, Step.Send(t));
    var s := Apply(c, Single(c.n, r), Step.Send(t));
    var k := |r.log|;
    assert Ids(c.n, u.log) == Ids(c.n, r.log) + [Packet(t, Id(c.n, t, r.sent[t - 1] + 1))];
    if r.currentConn == c.n {
      assert Id(c.n, 1, r.currentPacket + 1) == Id(c.n, c.n, r.currentPacket) + 1;
      DivModUnique(c.n, c.n, 1, 0);
    } else {
      DivModUnique(t, c.n, 0, t);
    }
  }

  /** The two clients have the same runs, through corresponding states. */
  lemma {:induction false} SameRuns(c: Config, steps: seq<Step>)
    requires c.n > 0
    ensures IsRoundRun(c, steps) <==> IsRun(c, steps)
    ensures IsRun(c, steps) ==>
              Single(c.n, RoundFinal(c, steps)) == Final(c, steps) && RoundFinal(c, steps).currentPacket >= 1
  {
    if steps == [] {
      assert Ids(c.n, []) == [];
    } else {
      var init := steps[..|steps| - 1];
      SameRuns(c, init);
      if IsRun(c, init) {
        RunKeepsInv(c, init);
        Bisimilar(c, RoundFinal(c, init), steps[|steps| - 1]);
      }
    }
  }

  /** So the k-th packet, from 0, is of connection k mod n + 1 and round k div n + 1. */
  lemma RoundsInOrder(c: Config, steps: seq<Step>, k: nat)
    requires c.n > 0 && IsRoundRun(c, steps) && k < |RoundFinal(c, steps).log|
    ensures RoundFinal(c, steps).log[k] == RoundPacket(k % c.n + 1, k / c.n + 1)
  {
    SameRuns(c, steps);
    RunKeepsInv(c, steps);
    var p := RoundFinal(c, steps).log[k];
    assert Single(c.n, RoundFinal(c, steps)).log[k] == Packet(p.conn, Id(c.n, p.conn, p.round));
    RoundOfId(c.n, p.conn, p.round, k);
  }

  lemma RoundOfId(n: nat, conn: int, round: int, k: nat)
    requires n > 0 && conn == k % n + 1 && Id(n, conn, round) == k + 1
    ensures round == k / n + 1
  {
    var d := round - 1 - k / n;
    assert k == (k / n) * n + k % n;
    assert d * n == 0;
  }

  // ---------------------------------------------------------------- one thread

  function Text(t: nat, round: nat): string {
    "CONN:" + Messages.Decimal(t) + "|PKT:" + Messages.Decimal(round) + "\n"
  }

  lemma Chain(a: string, b: string, c: string, d: string, e: string)
    ensures a + b + c + d + e == a + (b + (c + (d + e)))
  {
  }

  /** Both numbers can be read back from the text, each up to what follows it. */
  lemma TextDetermines(t: nat, round: nat)
    ensures Messages.ScanLabelled(Text(t, round), "CONN:") ==
            Messages.Some((t as int, "|PKT:" + (Messages.Decimal(round) + "\n")))
    ensures Messages.ScanLabelled("|PKT:" + (Messages.Decimal(round) + "\n"), "|PKT:") ==
            Messages.Some((round as int, "\n"))
  {
    var packet := "|PKT:" + (Messages.Decimal(round) + "\n");
    Messages.ScanLabelledDecimal("CONN:", t, packet);
    Messages.ScanLabelledDecimal("|PKT:", round, "\n");
    Chain("CONN:", Messages.Decimal(t), "|PKT:", Messages.Decimal(round), "\n");
  }

  /** The k-th packet, from 0, is of round k + 1. */
  ghost predicate ByRound(packets: seq<string>, t: nat) {
    forall k :: 0 <= k < |packets| ==> packets[k] == Text(t, k + 1)
  }

  lemma ByRoundSnoc(packets: seq<string>, packet: string, t: nat)
    requires ByRound(packets, t) && packet == Text(t, |packets| + 1)
    ensures ByRound(packets + [packet], t)
  {
  }

  /** The shared counters, what the thread library keeps, and each thread's loop counter, less one. */
  class RoundClients {
    const c: Config
    var currentConn: int
    var currentPacket: int
    var owner: nat
    var phase: seq<Phase>
    var sent: seq<nat>
    var log: seq<RoundPacket>
    ghost var steps: seq<Step>

    function View(): RoundState
      reads this
    {
      RoundState(currentConn, currentPacket, owner, phase, sent, log)
    }

    ghost predicate Valid()
      reads this
    {
      && c.n > 0 && |sent| == |phase| == c.n
      && IsRoundRun(c, steps) && View() == RoundFinal(c, steps)
    }

    constructor (c: Config)
      requires c.n > 0
      ensures Valid() && this.c == c && steps == [] && View() == RoundInit(c)
    {
      this.c := c;
      currentConn, currentPacket, owner, log, steps := 1, 1, 0, [], [];
      phase := seq(c.n, _ => AtLoop);
      sent := seq(c.n, _ => 0);
    }

    ghost method Took(step: Step)
      requires IsRoundRun(c, steps) && c.n > 0 && |sent| == |phase| == c.n
      requires RoundEnabled(c, RoundFinal(c, steps), step) && View() == RoundApply(c, RoundFinal(c, steps), step)
      modifies `steps
      ensures Valid() && steps == old(steps) + [step]
    {
      assert (steps + [step])[..|steps|] == steps;
      steps := steps + [step];
    }

    lemma LeavesAlone(t: nat, step: Step)
      requires Valid() && 1 <= t <= c.n && (step.t != t || step.Spurious?) && RoundEnabled(c, View(), step)
      ensures LeftAlone(Single(c.n, View()), Single(c.n, RoundApply(c, View(), step)), t)
    {
      SameRuns(c, steps);
      RunKeepsInv(c, steps);
      Bisimilar(c, View(), step);
      OthersLeaveAlone(c, Single(c.n, View()), step, t);
    }

    method Others(t: nat, proposed: seq<Step>)
      requires Valid() && 1 <= t <= c.n
      modifies this
      ensures Valid() && LeftAlone(Single(c.n, old(View())), Single(c.n, View()), t)
    {
      for i := 0 to |proposed|
        invariant Valid() && LeftAlone(Single(c.n, old(View())), Single(c.n, View()), t)
      {
        var step := proposed[i];
        if (step.t != t || step.Spurious?) && RoundEnabled(c, View(), step) {
          LeavesAlone(t, step);
          OtherStep(step);
        }
      }
    }

    method GiveWay(t: nat, schedule: seq<seq<Step>>) returns (rest: seq<seq<Step>>)
      requires Valid() && 1 <= t <= c.n
      modifies this
      ensures Valid() && sent[t - 1] == old(sent[t - 1])
      ensures phase[t - 1] == old(phase)[t - 1] || (old(phase)[t - 1] == Waiting && phase[t - 1] == Woken)
      ensures Critical(phase[t - 1]) ==> currentConn == old(currentConn)
      ensures if schedule == [] then rest == [] && phase == old(phase) else rest == schedule[1..]
    {
      rest := schedule;
      if schedule != [] {
        Others(t, schedule[0]);
        rest := schedule[1..];
      }
    }

    method OtherStep(step: Step)
      requires Valid() && RoundEnabled(c, View(), step)
      modifies this
      ensures Valid() && View() == RoundApply(c, old(View()), step)
    {
      var u := RoundApply(c, View(), step);
      currentConn, currentPacket, owner, phase, sent, log :=
        u.currentConn, u.currentPacket, u.owner, u.phase, u.sent, u.log;
      Took(step);
    }

    method TakeMutex(t: nat, step: Step)
      requires Valid() && 1 <= t <= c.n && owner == 0
      requires if phase[t - 1] == AtLock then step == Lock(t) else phase[t - 1] == Woken && step == Relock(t)
      modifies `owner, `phase, `steps
      ensures Valid() && phase[t - 1] == Holding
    {
      owner := t;
      phase := phase[t - 1 := Holding];
      Took(step);
    }

    method Acquire(t: nat, schedule: seq<seq<Step>>) returns (got: bool, rest: seq<seq<Step>>)
      requires Valid() && 1 <= t <= c.n && phase[t - 1] in {AtLock, Waiting, Woken}
      modifies this
      ensures Valid() && sent[t - 1] == old(sent[t - 1])
      ensures |rest| <= |schedule| && (got && old(phase)[t - 1] == Waiting ==> |rest| < |schedule|)
      ensures if got then phase[t - 1] == Holding else Blocked(Single(c.n, View()), t) && rest == []
    {
      rest := GiveWay(t, schedule);
      while (phase[t - 1] == Waiting || owner != 0) && rest != []
        invariant Valid() && |rest| <= |schedule| && sent[t - 1] == old(sent[t - 1])
        invariant phase[t - 1] == old(phase)[t - 1] || (phase[t - 1] == Woken && |rest| < |schedule|)
        decreases |rest|
      {
        rest := GiveWay(t, rest);
      }
      got := phase[t - 1] != Waiting && owner == 0;
      if got {
        TakeMutex(t, if phase[t - 1] == AtLock then Lock(t) else Relock(t));
      }
    }

    /** In round i: sleeps until both counters match. */
    method AwaitTurn(t: nat, i: nat, schedule: seq<seq<Step>>) returns (got: bool, rest: seq<seq<Step>>)
      requires Valid() && 1 <= t <= c.n && phase[t - 1] == Holding && i == sent[t - 1] + 1
      modifies this
      ensures Valid() && sent[t - 1] == old(sent[t - 1])
      ensures if got then phase[t - 1] == Holding && IsTurn(View(), t) else Blocked(Single(c.n, View()), t)
    {
      got, rest := true, schedule;
      while got && (currentConn != t || currentPacket != i)
        invariant Valid() && sent[t - 1] == old(sent[t - 1])
        invariant if got then phase[t - 1] == Holding else Blocked(Single(c.n, View()), t)
        decreases |rest|, got
      {
        rest := Sleep(t, rest);
        got, rest := Acquire(t, rest);
      }
    }

    method Sleep(t: nat, schedule: seq<seq<Step>>) returns (rest: seq<seq<Step>>)
      requires Valid() && 1 <= t <= c.n && phase[t - 1] == Holding && !IsTurn(View(), t)
      modifies this
      ensures Valid() && sent[t - 1] == old(sent[t - 1]) && phase[t - 1] == Waiting && |rest| <= |schedule|
    {
      TurnIff(t);
      rest := GiveWay(t, schedule);
      owner := 0;
      phase := phase[t - 1 := Waiting];
      Took(Wait(t));
    }

    lemma TurnIff(t: nat)
      requires Valid() && 1 <= t <= c.n
      ensures IsTurn(View(), t) <==> currentConn == t
    {
      SameRuns(c, steps);
      RunKeepsInv(c, steps);
      RoundTestRedundant(c, View(), t);
    }

    method SendPacket(t: nat, i: nat, schedule: seq<seq<Step>>) returns (packet: string, rest: seq<seq<Step>>)
      requires Valid() && 1 <= t <= c.n && phase[t - 1] == Holding && IsTurn(View(), t) && i == sent[t - 1] + 1
      modifies this
      ensures Valid() && sent[t - 1] == i && phase[t - 1] == AtLoop && packet == Text(t, i)
    {
      rest := GiveWay(t, schedule);
      TurnIff(t);
      packet := "CONN:" + Messages.Decimal(t) + "|PKT:" + Messages.Decimal(i) + "\n";
      PassTurn(t, i);
      rest := WakeAndRelease(t, rest);
    }

    method WakeAndRelease(t: nat, schedule: seq<seq<Step>>) returns (rest: seq<seq<Step>>)
      requires Valid() && 1 <= t <= c.n && phase[t - 1] == Sent
      modifies this
      ensures Valid() && sent[t - 1] == old(sent[t - 1]) && phase[t - 1] == AtLoop
    {
      rest := GiveWay(t, schedule);
      phase := WakeAll(phase)[t - 1 := Signalled];
      Took(Broadcast(t));
      rest := GiveWay(t, rest);
      Release(t);
    }

    method PassTurn(t: nat, i: nat)
      requires Valid() && 1 <= t <= c.n && phase[t - 1] == Holding && IsTurn(View(), t) && i == sent[t - 1] + 1
      modifies `log, `sent, `phase, `currentConn, `currentPacket, `steps
      ensures Valid() && sent[t - 1] == i && phase[t - 1] == Sent
    {
      ghost var r := View();
      log := log + [RoundPacket(t, i)];
      sent := sent[t - 1 := i];
      phase := phase[t - 1 := Sent];
      if currentConn == c.n {
        currentConn := 1;
        currentPacket := currentPacket + 1;
      } else {
        currentConn := currentConn + 1;
      }
      assert RoundEnabled(c, r, Step.Send(t)) && View() == RoundApply(c, r, Step.Send(t));
      Took(Step.Send(t));
    }

    method Release(t: nat)
      requires Valid() && 1 <= t <= c.n && phase[t - 1] == Signalled
      modifies `owner, `phase, `steps
      ensures Valid() && phase[t - 1] == AtLoop
    {
      owner := 0;
      phase := phase[t - 1 := AtLoop];
      Took(Unlock(t));
    }

    method EnterRound(t: nat)
      requires Valid() && 1 <= t <= c.n && phase[t - 1] == AtLoop
      requires c.limit.Packets? ==> sent[t - 1] < c.limit.p
      modifies `phase, `steps
      ensures Valid() && phase[t - 1] == AtLock
    {
      phase := phase[t - 1 := AtLock];
      Took(Enter(t));
    }

    method LeaveLoop(t: nat)
      requires Valid() && 1 <= t <= c.n && phase[t - 1] == AtLoop
      requires c.limit.Packets? ==> sent[t - 1] >= c.limit.p
      modifies `phase, `steps
      ensures Valid() && phase[t - 1] == Done
    {
      phase := phase[t - 1 := Done];
      Took(Leave(t));
    }

    method SendOne(t: nat, i: nat, schedule: seq<seq<Step>>) returns (got: bool, rest: seq<seq<Step>>, packet: string)
      requires Valid() && 1 <= t <= c.n && phase[t - 1] == AtLoop && i == sent[t - 1] + 1
      requires c.limit.Packets? ==> i <= c.limit.p
      modifies this
      ensures Valid()
      ensures if got then phase[t - 1] == AtLoop && sent[t - 1] == i && packet == Text(t, i)
              else Blocked(Single(c.n, View()), t)
    {
      packet := [];
      rest := GiveWay(t, schedule);
      EnterRound(t);
      got, rest := Acquire(t, rest);
      if got {
        got, rest := AwaitTurn(t, i, rest);
        if got {
          packet, rest := SendPacket(t, i, rest);
        }
      }
    }

    method SendPackets(t: nat, rounds: nat, schedule: seq<seq<Step>>) returns (packets: seq<string>, done: bool)
      requires Valid() && 1 <= t <= c.n && phase[t - 1] == AtLoop && sent[t - 1] == 0
      requires c.limit.Packets? ==> rounds == c.limit.p
      modifies this
      ensures Valid() && |packets| <= rounds && ByRound(packets, t)
      ensures if done then |packets| == rounds && phase[t - 1] == Done else Blocked(Single(c.n, View()), t)
    {
      packets, done := [], false;
      var i, rest := 1, schedule;
      while i <= rounds
        invariant Valid() && phase[t - 1] == AtLoop && i == sent[t - 1] + 1 == |packets| + 1 <= rounds + 1
        invariant ByRound(packets, t)
      {
        var got, packet;
        got, rest, packet := SendOne(t, i, rest);
        if !got { return; }
        ByRoundSnoc(packets, packet, t);
        packets := packets + [packet];
        i := i + 1;
      }
      rest := GiveWay(t, rest);
      LeaveLoop(t);
      done := true;
    }
  }

  /** Thread t from start to finish, whatever the others do: its packets are numbered by round, the steps
      of all threads are a run of the single-counter client too, and it stops short only where it is
      blocked. */
  method Thread(c: Config, t: nat, rounds: nat, schedule: seq<seq<Step>>)
    returns (packets: seq<string>, done: bool, ghost steps: seq<Step>)
    requires 1 <= t <= c.n && (c.limit.Packets? ==> rounds == c.limit.p)
    ensures |packets| <= rounds && ByRound(packets, t)
    ensures IsRoundRun(c, steps) && IsRun(c, steps) && |RoundFinal(c, steps).phase| == c.n
    ensures if done then |packets| == rounds && RoundFinal(c, steps).phase[t - 1] == Done
            else Blocked(Final(c, steps), t)
    ensures c.limit.Packets? && !CanMove(c, Final(c, steps)) ==> done
  {
    var clients := new RoundClients(c);
    packets, done := clients.SendPackets(t, rounds, schedule);
    steps := clients.steps;
    SameRuns(c, steps);
    if c.limit.Packets? {
      RunsTerminate(c, steps);
    }
  }
}
