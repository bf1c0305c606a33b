/** One client thread as it runs: its sending loop, the wait for its turn and the critical section, with
    the other threads taking any steps they can before each of its own. */
module SenderThreads {
  import opened TurnTaking
  import opened TurnProgress
  import Messages

  /** When it is its turn, a thread that has sent k packets sends number k * n + t next. */
  lemma TurnNumber(c: Config, s: State, t: nat)
    requires Inv(c, s) && s.currentConn == t
    ensures 1 <= t <= c.n && s.packetId == s.sent[t - 1] * c.n + t
  {
    var k := |s.log|;
    assert s.sent[t - 1] == Turns(c.n, t - 1, k) == k / c.n;
    assert k == (k / c.n) * c.n + k % c.n;
  }

  /** The k-th message of thread t, from 0, has number k * n + t. */
  ghost predicate IsMessage(msg: string, k: nat, n: nat, t: nat) {
    msg == Messages.Message(t, k * n + t)
  }

  ghost predicate Numbered(msgs: seq<string>, n: nat, t: nat) {
    forall k :: 0 <= k < |msgs| ==> IsMessage(msgs[k], k, n, t)
  }

  lemma NumberedSnoc(msgs: seq<string>, msg: string, n: nat, t: nat)
    requires Numbered(msgs, n, t) && IsMessage(msg, |msgs|, n, t)
    ensures Numbered(msgs + [msg], n, t)
  {
  }

  /** currentConn, globalPacketId and the per-connection counts are the clients' own variables; the
      mutex owner and the phases are the state that the thread library keeps for them. */
  class Clients {
    const c: Config
    var currentConn: int
    var globalPacketId: int
    const successfulResponses: array<nat>
    var owner: nat
    var phase: seq<Phase>
    var log: seq<Packet>
    /** The steps taken so far, by all threads. */
    ghost var steps: seq<Step>

    function View(): State
      reads this, successfulResponses
    {
      State(currentConn, globalPacketId, owner, phase, successfulResponses[..], log)
    }

    ghost predicate Valid()
      reads this, successfulResponses
    {
      && c.n > 0 && successfulResponses.Length == |phase| == c.n
      && IsRun(c, steps) && View() == Final(c, steps)
    }

    constructor (c: Config)
      requires c.n > 0
      ensures Valid() && this.c == c && steps == [] && fresh(successfulResponses)
    {
      this.c := c;
      currentConn, globalPacketId, owner, log, steps := 1, 1, 0, [], [];
      phase := seq(c.n, _ => AtLoop);
      successfulResponses := new nat[c.n](_ => 0);
    }

    /** What the code has just done is this step of the machine. */
    ghost method Took(step: Step)
      requires IsRun(c, steps) && c.n > 0 && successfulResponses.Length == |phase| == c.n
      requires Enabled(c, Final(c, steps), step) && View() == Apply(c, Final(c, steps), step)
      modifies `steps
      ensures Valid() && steps == old(steps) + [step]
    {
      RunTakes(c, steps, Final(c, steps), step);
      steps := steps + [step];
    }

    /** Of the steps proposed, the other threads take those that they can; a thread that waits may be
        woken for no reason. */
    method Others(t: nat, proposed: seq<Step>)
      requires Valid() && 1 <= t <= c.n
      modifies this, successfulResponses
      ensures Valid() && old(steps) <= steps && LeftAlone(old(View()), View(), t)
    {
      for i := 0 to |proposed|
        invariant Valid() && old(steps) <= steps && LeftAlone(old(View()), View(), t)
      {
        var step := proposed[i];
        if (step.t != t || step.Spurious?) && Enabled(c, View(), step) {
          RunKeepsInv(c, steps);
          OthersLeaveAlone(c, View(), step, t);
          OtherStep(step);
        }
      }
    }

    /** The others run before the thread's next step: the next part of the schedule, if any is left. */
    method GiveWay(t: nat, schedule: seq<seq<Step>>) returns (rest: seq<seq<Step>>)
      requires Valid() && 1 <= t <= c.n
      modifies this, successfulResponses
      ensures Valid() && old(steps) <= steps
      ensures successfulResponses[t - 1] == old(successfulResponses[t - 1])
      ensures phase[t - 1] == old(phase)[t - 1] || (old(phase)[t - 1] == Waiting && phase[t - 1] == Woken)
      ensures Critical(old(phase)[t - 1]) ==> currentConn == old(currentConn)
      ensures if schedule == [] then rest == [] && phase == old(phase) else rest == schedule[1..]
    {
      rest := schedule;
      if schedule != [] {
        Others(t, schedule[0]);
        rest := schedule[1..];
      }
    }

    method OtherStep(step: Step)
      requires Valid() && Enabled(c, View(), step)
      modifies this, successfulResponses
      ensures Valid() && steps == old(steps) + [step] && View() == Apply(c, old(View()), step)
    {
      var u := Apply(c, View(), step);
      currentConn, globalPacketId, owner, phase, log := u.currentConn, u.packetId, u.owner, u.phase, u.log;
      successfulResponses[step.t - 1] := u.sent[step.t - 1];
      assert successfulResponses[..] == u.sent;
      Took(step);
    }

    method TakeMutex(t: nat, step: Step)
      requires Valid() && 1 <= t <= c.n && owner == 0
      requires if phase[t - 1] == AtLock then step == Lock(t) else phase[t - 1] == Woken && step == Relock(t)
      modifies `owner, `phase, `steps
      ensures Valid() && steps == old(steps) + [step] && phase[t - 1] == Holding
    {
      owner := t;
      phase := phase[t - 1 := Holding];
      Took(step);
    }

    method ReleaseAndSleep(t: nat)
      requires Valid() && 1 <= t <= c.n && phase[t - 1] == Holding && currentConn != t
      modifies `owner, `phase, `steps
      ensures Valid() && steps == old(steps) + [Wait(t)] && phase[t - 1] == Waiting
    {
      owner := 0;
      phase := phase[t - 1 := Waiting];
      Took(Wait(t));
    }

    /** Takes the mutex when it finds it free, on the way out of a wait once woken as well; gives up only
        when the schedule ends. */
    method Acquire(t: nat, schedule: seq<seq<Step>>) returns (got: bool, rest: seq<seq<Step>>)
      requires Valid() && 1 <= t <= c.n && phase[t - 1] in {AtLock, Waiting, Woken}
      modifies this, successfulResponses
      ensures Valid() && old(steps) <= steps && successfulResponses[t - 1] == old(successfulResponses[t - 1])
      ensures |rest| <= |schedule| && (got && old(phase)[t - 1] == Waiting ==> |rest| < |schedule|)
      ensures if got then phase[t - 1] == Holding else Blocked(View(), t) && rest == []
    {
      rest := GiveWay(t, schedule);
      while (phase[t - 1] == Waiting || owner != 0) && rest != []
        invariant Valid() && old(steps) <= steps && |rest| <= |schedule|
        invariant phase[t - 1] == old(phase)[t - 1] || (phase[t - 1] == Woken && |rest| < |schedule|)
        invariant successfulResponses[t - 1] == old(successfulResponses[t - 1])
        decreases |rest|
      {
        rest := GiveWay(t, rest);
      }
      got := phase[t - 1] != Waiting && owner == 0;
      if got {
        TakeMutex(t, if phase[t - 1] == AtLock then Lock(t) else Relock(t));
      }
    }

    /** While it is not its turn, releases the mutex and sleeps. */
    method AwaitTurn(t: nat, schedule: seq<seq<Step>>) returns (got: bool, rest: seq<seq<Step>>)
      requires Valid() && 1 <= t <= c.n && phase[t - 1] == Holding
      modifies this, successfulResponses
      ensures Valid() && old(steps) <= steps && successfulResponses[t - 1] == old(successfulResponses[t - 1])
      ensures if got then phase[t - 1] == Holding && currentConn == t else Blocked(View(), t) && rest == []
    {
      got, rest := true, schedule;
      while got && currentConn != t
        invariant Valid() && old(steps) <= steps
        invariant if got then phase[t - 1] == Holding else Blocked(View(), t) && rest == []
        invariant successfulResponses[t - 1] == old(successfulResponses[t - 1])
        decreases |rest|, got
      {
        rest := GiveWay(t, rest);
        ReleaseAndSleep(t);
        got, rest := Acquire(t, rest);
      }
    }

    /** The critical section: print and send the next packet, pass the turn on, wake everybody, unlock. */
    method SendPacket(t: nat, schedule: seq<seq<Step>>) returns (msg: string, rest: seq<seq<Step>>)
      requires Valid() && 1 <= t <= c.n && phase[t - 1] == Holding && currentConn == t
      modifies this, successfulResponses
      ensures Valid() && old(steps) <= steps && phase[t - 1] == AtLoop
      ensures successfulResponses[t - 1] == old(successfulResponses[t - 1]) + 1
      ensures IsMessage(msg, old(successfulResponses[t - 1]), c.n, t)
    {
      rest := GiveWay(t, schedule);
      RunKeepsInv(c, steps);
      TurnNumber(c, View(), t);
      msg := Messages.Message(t, globalPacketId);
      PassTurn(t);
      rest := WakeAndRelease(t, rest);
    }

    method WakeAndRelease(t: nat, schedule: seq<seq<Step>>) returns (rest: seq<seq<Step>>)
      requires Valid() && 1 <= t <= c.n && phase[t - 1] == Sent
      modifies this, successfulResponses
      ensures Valid() && old(steps) <= steps && phase[t - 1] == AtLoop
      ensures successfulResponses[t - 1] == old(successfulResponses[t - 1])
    {
      rest := GiveWay(t, schedule);
      CondBroadcast(t);
      rest := GiveWay(t, rest);
      ReleaseMutex(t);
    }

    method ReleaseMutex(t: nat)
      requires Valid() && 1 <= t <= c.n && phase[t - 1] == Signalled
      modifies `owner, `phase, `steps
      ensures Valid() && steps == old(steps) + [Unlock(t)] && phase[t - 1] == AtLoop
    {
      owner := 0;
      phase := phase[t - 1 := AtLoop];
      Took(Unlock(t));
    }

    method PassTurn(t: nat)
      requires Valid() && 1 <= t <= c.n && phase[t - 1] == Holding && currentConn == t
      modifies `log, `globalPacketId, `currentConn, `phase, `steps, successfulResponses
      ensures Valid() && steps == old(steps) + [Step.Send(t)] && phase[t - 1] == Sent
      ensures successfulResponses[t - 1] == old(successfulResponses[t - 1]) + 1
    {
      log := log + [Packet(t, globalPacketId)];
      globalPacketId := globalPacketId + 1;
      CountResponse(t);
      currentConn := currentConn % c.n + 1;
      phase := phase[t - 1 := Sent];
      Took(Step.Send(t));
    }

    method CountResponse(t: nat)
      requires 1 <= t <= successfulResponses.Length
      modifies successfulResponses
      ensures successfulResponses[..] ==
              old(successfulResponses[..])[t - 1 := old(successfulResponses[t - 1]) + 1]
    {
      successfulResponses[t - 1] := successfulResponses[t - 1] + 1;
    }

    method CondBroadcast(t: nat)
      requires Valid() && 1 <= t <= c.n && phase[t - 1] == Sent
      modifies `phase, `steps
      ensures Valid() && steps == old(steps) + [Broadcast(t)] && phase[t - 1] == Signalled
    {
      WakeWaiting();
      phase := phase[t - 1 := Signalled];
      Took(Broadcast(t));
    }

    /** Nobody waits any more, and nobody else is moved. */
    method WakeWaiting()
      modifies `phase
      ensures phase == WakeAll(old(phase))
    {
      var i := 0;
      while i < |phase|
        invariant i <= |phase| == |old(phase)|
        invariant forall k :: 0 <= k < i ==> phase[k] == WakeAll(old(phase))[k]
        invariant forall k :: i <= k < |phase| ==> phase[k] == old(phase)[k]
      {
        if phase[i] == Waiting {
          phase := phase[i := Woken];
        }
        i := i + 1;
      }
    }

    /** The start of a round: lock and wait for the turn. */
    method TakeTurn(t: nat, schedule: seq<seq<Step>>) returns (got: bool, rest: seq<seq<Step>>)
      requires Valid() && 1 <= t <= c.n && phase[t - 1] == AtLoop
      requires c.limit.Packets? ==> successfulResponses[t - 1] < c.limit.p
      modifies this, successfulResponses
      ensures Valid() && old(steps) <= steps && successfulResponses[t - 1] == old(successfulResponses[t - 1])
      ensures if got then phase[t - 1] == Holding && currentConn == t else Blocked(View(), t) && rest == []
    {
      rest := GiveWay(t, schedule);
      EnterRound(t);
      got, rest := Acquire(t, rest);
      if got {
        got, rest := AwaitTurn(t, rest);
      }
    }

    /** One round: lock, wait for the turn, send. */
    method SendOne(t: nat, schedule: seq<seq<Step>>) returns (got: bool, rest: seq<seq<Step>>, msg: string)
      requires Valid() && 1 <= t <= c.n && phase[t - 1] == AtLoop
      requires c.limit.Packets? ==> successfulResponses[t - 1] < c.limit.p
      modifies this, successfulResponses
      ensures Valid() && old(steps) <= steps
      ensures got ==>
                && phase[t - 1] == AtLoop && successfulResponses[t - 1] == old(successfulResponses[t - 1]) + 1
                && IsMessage(msg, old(successfulResponses[t - 1]), c.n, t)
      ensures !got ==> Blocked(View(), t) && rest == []
    {
      msg := [];
      got, rest := TakeTurn(t, schedule);
      if got {
        msg, rest := SendPacket(t, rest);
      }
    }

    method EnterRound(t: nat)
      requires Valid() && 1 <= t <= c.n && phase[t - 1] == AtLoop
      requires c.limit.Packets? ==> successfulResponses[t - 1] < c.limit.p
      modifies `phase, `steps
      ensures Valid() && old(steps) <= steps && phase[t - 1] == AtLock
    {
      phase := phase[t - 1 := AtLock];
      Took(Enter(t));
    }

    method LeaveLoop(t: nat)
      requires Valid() && 1 <= t <= c.n && phase[t - 1] == AtLoop
      requires c.limit.Packets? ==> successfulResponses[t - 1] >= c.limit.p
      modifies `phase, `steps
      ensures Valid() && steps == old(steps) + [Leave(t)] && phase[t - 1] == Done
    {
      phase := phase[t - 1 := Done];
      Took(Leave(t));
    }

    /** The body of a thread: so many rounds, or as many as its time allows, then out. */
    method SendPackets(t: nat, rounds: nat, schedule: seq<seq<Step>>) returns (msgs: seq<string>, done: bool)
      requires Valid() && 1 <= t <= c.n && phase[t - 1] == AtLoop && successfulResponses[t - 1] == 0
      requires c.limit.Packets? ==> rounds == c.limit.p
      modifies this, successfulResponses
      ensures Valid() && old(steps) <= steps
      ensures Numbered(msgs, c.n, t)
      ensures |msgs| <= rounds
      ensures if done then |msgs| == rounds && phase[t - 1] == Done else Blocked(View(), t)
    {
      msgs, done := [], false;
      var got, rest := true, schedule;
      while |msgs| < rounds
        invariant Valid() && old(steps) <= steps && phase[t - 1] == AtLoop
        invariant |msgs| == successfulResponses[t - 1] <= rounds
        invariant Numbered(msgs, c.n, t)
        decreases rounds - |msgs|
      {
        var msg;
        got, rest, msg := SendOne(t, rest);
        if !got { return; }
        NumberedSnoc(msgs, msg, c.n, t);
        msgs := msgs + [msg];
      }
      rest := GiveWay(t, rest);
      LeaveLoop(t);
      done := true;
    }
  }

  /** Thread t from start to finish, whatever the others do and however the scheduler holds it up: its
      k-th message, from 0, has number k * n + t, the steps of all threads are a run, and it stops short
      only where it is blocked; so with a fixed number of packets it is done when nothing can move. */
  method Thread(c: Config, t: nat, rounds: nat, schedule: seq<seq<Step>>)
    returns (msgs: seq<string>, done: bool, ghost steps: seq<Step>)
    requires 1 <= t <= c.n && (c.limit.Packets? ==> rounds == c.limit.p)
    ensures Numbered(msgs, c.n, t)
    ensures IsRun(c, steps) && |Final(c, steps).phase| == c.n
    ensures |msgs| <= rounds
    ensures if done then |msgs| == rounds && Final(c, steps).phase[t - 1] == Done else Blocked(Final(c, steps), t)
    ensures c.limit.Packets? && !CanMove(c, Final(c, steps)) ==> done
  {
    var clients := new Clients(c);
    msgs, done := clients.SendPackets(t, rounds, schedule);
    steps := clients.steps;
    if c.limit.Packets? {
      RunsTerminate(c, steps);
    }
  }
}
