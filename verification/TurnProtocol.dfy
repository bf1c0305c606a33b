/** The turn-taking protocol of the clients: n threads share a mutex, a condition variable and
    the number of the connection whose turn it is.

    One machine serves the clients that send a fixed number of packets each and the client whose
    threads stop when their time is up.  A step is what one thread does between two points where
    another may run; wakeups without a broadcast are steps of their own. */
module TurnTaking {

  datatype Phase =
    | AtLoop     // at the test of its sending loop
    | AtLock     // about to take the mutex
    | Holding    // holds the mutex, about to test whose turn it is
    | Sent       // holds the mutex, has sent and passed the turn on
    | Signalled  // holds the mutex, has broadcast
    | Waiting    // on the condition variable
    | Woken      // off the condition variable, has to retake the mutex
    | Done

  /** When a thread leaves its loop: after a number of sends, or whenever its time is up. */
  datatype Limit = Packets(p: nat) | Clock

  datatype Config = Config(n: nat, limit: Limit)

  datatype Packet = Packet(conn: int, id: int)

  /** Threads are 1..n; thread t owns entry t - 1 of `phase` and `sent`; owner 0 is a free mutex. */
  datatype State = State(
    currentConn: int, packetId: int, owner: nat,
    phase: seq<Phase>, sent: seq<nat>, log: seq<Packet>)

  datatype Step =
    | Enter(t: nat) | Leave(t: nat)
    | Lock(t: nat) | Wait(t: nat) | Send(t: nat) | Broadcast(t: nat) | Unlock(t: nat)
    | Relock(t: nat) | Spurious(t: nat)

  function Init(c: Config): State {
    State(1, 1, 0, seq(c.n, _ => AtLoop), seq(c.n, _ => 0), [])
  }

  predicate Enabled(c: Config, s: State, step: Step) {
    && 1 <= step.t <= c.n && |s.phase| == c.n && |s.sent| == c.n
    && var ph := s.phase[step.t - 1];
       match step
       case Enter(t) => ph == AtLoop && (c.limit.Packets? ==> s.sent[t - 1] < c.limit.p)
       case Leave(t) => ph == AtLoop && (c.limit.Packets? ==> s.sent[t - 1] >= c.limit.p)
       case Lock(_) => ph == AtLock && s.owner == 0
       case Wait(t) => ph == Holding && s.currentConn != t
       case Send(t) => ph == Holding && s.currentConn == t
       case Broadcast(_) => ph == Sent
       case Unlock(_) => ph == Signalled
       case Relock(_) => ph == Woken && s.owner == 0
       case Spurious(_) => ph == Waiting
  }

  function WakeAll(phase: seq<Phase>): seq<Phase> {
    seq(|phase|, i requires 0 <= i < |phase| => if phase[i] == Waiting then Woken else phase[i])
  }

  function Apply(c: Config, s: State, step: Step): State
    requires Enabled(c, s, step)
  {
    var i := step.t - 1;
    match step
    case Enter(_) => s.(phase := s.phase[i := AtLock])
    case Leave(_) => s.(phase := s.phase[i := Done])
    case Lock(t) => s.(phase := s.phase[i := Holding], owner := t)
    case Wait(_) => s.(phase := s.phase[i := Waiting], owner := 0)
    case Send(t) =>
      s.(phase := s.phase[i := Sent], sent := s.sent[i := s.sent[i] + 1],
        log := s.log + [Packet(t, s.packetId)], packetId := s.packetId + 1,
        currentConn := s.currentConn % c.n + 1)
    case Broadcast(_) => s.(phase := WakeAll(s.phase)[i := Signalled])
    case Unlock(_) => s.(phase := s.phase[i := AtLoop], owner := 0)
    case Relock(t) => s.(phase := s.phase[i := Holding], owner := t)
    case Spurious(_) => s.(phase := s.phase[i := Woken])
  }

  /** A run from the start: every step is enabled when it is taken. */
  ghost predicate IsRun(c: Config, steps: seq<Step>) {
    steps == [] || (IsRun(c, steps[..|steps| - 1]) && Enabled(c, Final(c, steps[..|steps| - 1]), steps[|steps| - 1]))
  }

  ghost function Final(c: Config, steps: seq<Step>): State {
    if steps == [] then Init(c)
    else
      var s := Final(c, steps[..|steps| - 1]);
      if Enabled(c, s, steps[|steps| - 1]) then Apply(c, s, steps[|steps| - 1]) else s
  }

  // ---------------------------------------------------------------- the invariant

  /** How many of the first k sends belong to thread i + 1 when the turns go round. */
  function Turns(n: nat, i: int, k: nat): int
    requires n > 0
  {
    k / n + if i < k % n then 1 else 0
  }

  lemma DivModUnique(x: nat, n: nat, q: nat, r: nat)
    requires n > 0 && x == q * n + r && r < n
    ensures x / n == q && x % n == r
  {
    var d := x / n - q;
    assert x == (x / n) * n + x % n;
    assert d * n == r - x % n;
    assert d >= 1 ==> d * n >= n;
    assert d <= -1 ==> d * n + n <= 0;
  }

  lemma DivModNext(k: nat, n: nat)
    requires n > 0
    ensures (k + 1) / n == if k % n == n - 1 then k / n + 1 else k / n
    ensures (k + 1) % n == if k % n == n - 1 then 0 else k % n + 1
  {
    var q, r := k / n, k % n;
    assert k == q * n + r;
    if r == n - 1 {
      assert k + 1 == (q + 1) * n;
      DivModUnique(k + 1, n, q + 1, 0);
    } else {
      DivModUnique(k + 1, n, q, r + 1);
    }
  }

  /** Passing the turn on counts modulo n. */
  lemma NextTurn(k: nat, n: nat)
    requires n > 0
    ensures (k % n + 1) % n == (k + 1) % n
  {
    DivModNext(k, n);
    if k % n == n - 1 {
      DivModUnique(n, n, 1, 0);
    } else {
      DivModUnique(k % n + 1, n, 0, k % n + 1);
    }
  }

  predicate Critical(p: Phase) {
    p == Holding || p == Sent || p == Signalled
  }

  predicate InLoop(p: Phase) {
    p == AtLock || p == Holding || p == Waiting || p == Woken
  }

  ghost predicate Exclusive(c: Config, s: State)
    requires |s.phase| == c.n
  {
    && s.owner <= c.n
    && forall i :: 0 <= i < c.n ==> (Critical(s.phase[i]) <==> s.owner == i + 1)
  }

  /** The k-th send, from 0, is connection k mod n + 1 with identifier k + 1. */
  ghost predicate RoundRobin(n: nat, log: seq<Packet>)
    requires n > 0
  {
    forall k :: 0 <= k < |log| ==> log[k] == Packet(k % n + 1, k + 1)
  }

  ghost predicate Counted(c: Config, s: State)
    requires c.n > 0 && |s.sent| == c.n
  {
    && RoundRobin(c.n, s.log)
    && s.currentConn == |s.log| % c.n + 1
    && s.packetId == |s.log| + 1
    && forall i :: 0 <= i < c.n ==> s.sent[i] == Turns(c.n, i, |s.log|)
  }

  ghost predicate Limited(c: Config, s: State)
    requires |s.phase| == |s.sent| == c.n
  {
    c.limit.Packets? ==>
      forall i :: 0 <= i < c.n ==>
        && s.sent[i] <= c.limit.p
        && (InLoop(s.phase[i]) ==> s.sent[i] < c.limit.p)
        && (s.phase[i] == Done ==> s.sent[i] == c.limit.p)
  }

  /** Unless the mutex is held by a thread that has yet to broadcast, the thread whose turn it is
      is not waiting. */
  ghost predicate NoneLost(c: Config, s: State)
    requires |s.phase| == c.n && s.owner <= c.n && 1 <= s.currentConn <= c.n
  {
    (s.owner != 0 && s.phase[s.owner - 1] == Sent) || s.phase[s.currentConn - 1] != Waiting
  }

  ghost predicate Inv(c: Config, s: State) {
    && c.n > 0 && |s.phase| == |s.sent| == c.n
    && Exclusive(c, s) && Counted(c, s) && Limited(c, s) && NoneLost(c, s)
  }

  lemma InitInv(c: Config)
    requires c.n > 0
    ensures Inv(c, Init(c))
  {
  }

  lemma SendKeepsCounts(c: Config, s: State, t: nat)
    requires Inv(c, s) && Enabled(c, s, Send(t))
    ensures Counted(c, Apply(c, s, Send(t)))
  {
    var k := |s.log|;
    NextTurn(k, c.n);
    DivModNext(k, c.n);
  }

  lemma StepKeepsExclusive(c: Config, s: State, step: Step)
    requires Inv(c, s) && Enabled(c, s, step)
    ensures Exclusive(c, Apply(c, s, step))
  {
  }

  lemma StepKeepsLimited(c: Config, s: State, step: Step)
    requires Inv(c, s) && Enabled(c, s, step)
    ensures Limited(c, Apply(c, s, step))
  {
  }

  lemma StepKeepsCounted(c: Config, s: State, step: Step)
    requires Inv(c, s) && Enabled(c, s, step)
    ensures Counted(c, Apply(c, s, step))
  {
    if step.Send? {
      SendKeepsCounts(c, s, step.t);
    }
  }

  lemma StepKeepsInv(c: Config, s: State, step: Step)
    requires Inv(c, s) && Enabled(c, s, step)
    ensures Inv(c, Apply(c, s, step))
  {
    StepKeepsExclusive(c, s, step);
    StepKeepsLimited(c, s, step);
    StepKeepsCounted(c, s, step);
  }

  lemma {:induction false} RunKeepsInv(c: Config, steps: seq<Step>)
    requires c.n > 0 && IsRun(c, steps)
    ensures Inv(c, Final(c, steps))
  {
    if steps == [] {
      InitInv(c);
    } else {
      RunKeepsInv(c, steps[..|steps| - 1]);
      StepKeepsInv(c, Final(c, steps[..|steps| - 1]), steps[|steps| - 1]);
    }
  }
}
