/** The two load generators: messages are sent whole although a send may take only part of what it
    is offered. */
module PartialSending {

  /** A return of send: some of the bytes offered, none, try again, or a failure. */
  datatype Outcome = Took(n: nat) | TookNone | TryAgain | Failed

  /** What the kernel allows, when `offered` bytes of a message of `size` bytes are left to send:
      a send takes at least one byte and no more than it is offered. */
  ghost predicate Allowed(size: nat, offered: nat, outcomes: seq<Outcome>)
    decreases |outcomes|
  {
    outcomes == [] ||
    match outcomes[0]
    case Took(n) => 1 <= n <= offered && Allowed(size, if n == offered then size else offered - n, outcomes[1..])
    case _ => Allowed(size, offered, outcomes[1..])
  }

  /** The bytes taken before the first failure. */
  function Taken(outcomes: seq<Outcome>): nat {
    if outcomes == [] || outcomes[0].Failed? then 0
    else Taken(outcomes[1..]) + if outcomes[0].Took? then outcomes[0].n else 0
  }

  /** The bytes that the first k outcomes take. */
  function TakenBy(outcomes: seq<Outcome>, k: nat): nat
    requires k <= |outcomes|
  {
    if k == 0 then 0 else TakenBy(outcomes, k - 1) + if outcomes[k - 1].Took? then outcomes[k - 1].n else 0
  }

  lemma {:induction false} TakenByRest(outcomes: seq<Outcome>, k: nat)
    requires 0 < k <= |outcomes|
    ensures TakenBy(outcomes, k) ==
            TakenBy(outcomes[1..], k - 1) + if outcomes[0].Took? then outcomes[0].n else 0
  {
    if k > 1 {
      TakenByRest(outcomes, k - 1);
    } else {
      assert TakenBy(outcomes, 0) == 0;
    }
  }

  /** Attempts that take nothing, or are to be made again, do not end a connection; a failure does. */
  lemma {:induction false} TakenUpToFailure(outcomes: seq<Outcome>, k: nat)
    requires k <= |outcomes| && forall i :: 0 <= i < k ==> !outcomes[i].Failed?
    requires k < |outcomes| ==> outcomes[k].Failed?
    ensures Taken(outcomes) == TakenBy(outcomes, k)
  {
    if k > 0 {
      TakenUpToFailure(outcomes[1..], k - 1);
      TakenByRest(outcomes, k);
    }
  }

  function Copies(msg: string, k: nat): string {
    if k == 0 then [] else Copies(msg, k - 1) + msg
  }

  lemma {:induction false} CopiesLength(msg: string, k: nat)
    ensures |Copies(msg, k)| == k * |msg|
  {
    if k > 0 {
      CopiesLength(msg, k - 1);
    }
  }

  /** What is on the wire: whole messages and then the part of the next one that has gone out. */
  ghost predicate OnWire(msg: string, wire: string, msgs: nat, left: nat) {
    1 <= left <= |msg| && wire == Copies(msg, msgs) + msg[..|msg| - left]
  }

  lemma OnWireStep(msg: string, wire: string, msgs: nat, left: nat, n: nat)
    requires OnWire(msg, wire, msgs, left) && 1 <= n <= left
    ensures var more := wire + msg[|msg| - left..|msg| - left + n];
            if n == left then OnWire(msg, more, msgs + 1, |msg|) else OnWire(msg, more, msgs, left - n)
  {
    var at := |msg| - left;
    assert msg[..at] + msg[at..at + n] == msg[..at + n];
    if n == left {
      assert msg[..at + n] == msg && msg[..0] == [];
    }
    assert wire + msg[at..at + n] == Copies(msg, msgs) + (msg[..at] + msg[at..at + n]);
  }

  lemma WireLength(msg: string, wire: string, msgs: nat, left: nat)
    requires OnWire(msg, wire, msgs, left)
    ensures |wire| == msgs * |msg| + (|msg| - left)
  {
    CopiesLength(msg, msgs);
  }

  lemma QuotientIs(x: nat, n: nat, q: nat, r: nat)
    requires x == q * n + r && r < n
    ensures q == x / n && r == x % n
  {
    var d := x / n - q;
    assert x == (x / n) * n + x % n;
    assert d * n == r - x % n;
    assert d >= 1 ==> d * n >= n;
    assert d <= -1 ==> d * n + n <= 0;
  }

  /** Bytes determine messages: division by the message size, with the part sent as remainder. */
  lemma WireBytes(msg: string, wire: string, msgs: nat, left: nat)
    requires OnWire(msg, wire, msgs, left)
    ensures msgs == |wire| / |msg| && |msg| - left == |wire| % |msg|
  {
    WireLength(msg, wire, msgs, left);
    QuotientIs(|wire|, |msg|, msgs, |msg| - left);
  }

  /** The persistent client: one connection, sending until it is told to stop (the outcomes end) or
      a send fails. */
  method SendPersistent(msg: string, outcomes: seq<Outcome>)
    returns (wire: string, totalMsgs: nat, totalPackets: nat, totalBytes: nat, left: nat)
    requires |msg| > 0 && Allowed(|msg|, |msg|, outcomes)
    ensures OnWire(msg, wire, totalMsgs, left)
    ensures totalBytes == |wire| == Taken(outcomes)
    ensures totalBytes == totalMsgs * |msg| + (|msg| - left)
    ensures totalPackets == totalMsgs
  {
    var bytesToSend: nat, bufPtr: nat := |msg|, 0;
    wire, totalMsgs, totalPackets, totalBytes := [], 0, 0, 0;
    assert Copies(msg, 0) + msg[..0] == [];
    var i := 0;
    while i < |outcomes|
      invariant i <= |outcomes| && Allowed(|msg|, bytesToSend, outcomes[i..])
      invariant OnWire(msg, wire, totalMsgs, bytesToSend) && bufPtr == |msg| - bytesToSend
      invariant totalBytes == |wire| && totalPackets == totalMsgs
      invariant |wire| + Taken(outcomes[i..]) == Taken(outcomes)
    {
      match outcomes[i] {
        case Took(sent) =>
          OnWireStep(msg, wire, totalMsgs, bytesToSend, sent);
          wire := wire + msg[bufPtr..bufPtr + sent];
          totalBytes := totalBytes + sent;
          bytesToSend := bytesToSend - sent;
          bufPtr := bufPtr + sent;
          if bytesToSend == 0 {
            totalMsgs := totalMsgs + 1;
            totalPackets := totalPackets + 1;
            bytesToSend, bufPtr := |msg|, 0;
          }
        case TryAgain =>
        case TookNone =>
        case Failed => break;
      }
      i := i + 1;
    }
    left := bytesToSend;
    WireLength(msg, wire, totalMsgs, left);
  }

  /** What a connection with a quota of messages carries: the bytes the kernel would take, up to the
      quota. */
  function Carried(size: nat, msgsPerConn: int, outcomes: seq<Outcome>): nat {
    if msgsPerConn <= 0 then 0
    else if Taken(outcomes) < msgsPerConn * size then Taken(outcomes)
    else msgsPerConn * size
  }

  lemma Monotone(a: nat, b: nat, m: nat)
    requires a <= b
    ensures a * m <= b * m
  {
  }

  lemma QuotaReached(msg: string, wire: string, msgsSent: nat, left: nat, msgsPerConn: int, outcomes: seq<Outcome>)
    requires OnWire(msg, wire, msgsSent, left) && |wire| <= Taken(outcomes)
    requires msgsSent <= if msgsPerConn > 0 then msgsPerConn else 0
    requires if msgsSent < msgsPerConn then |wire| == Taken(outcomes) else left == |msg|
    ensures |wire| == Carried(|msg|, msgsPerConn, outcomes)
  {
    WireLength(msg, wire, msgsSent, left);
    if msgsSent < msgsPerConn {
      Monotone(msgsSent + 1, msgsPerConn, |msg|);
    }
  }

  /** One connection of the other client: send msgsPerConn messages, unless interrupted (the
      outcomes end) or a send fails. */
  method SendMessages(msg: string, msgsPerConn: int, outcomes: seq<Outcome>)
    returns (wire: string, msgsSent: nat, left: nat)
    requires |msg| > 0 && Allowed(|msg|, |msg|, outcomes)
    ensures OnWire(msg, wire, msgsSent, left)
    ensures |wire| == Carried(|msg|, msgsPerConn, outcomes)
    ensures if msgsSent < msgsPerConn then |wire| == Taken(outcomes) else left == |msg| && |wire| <= Taken(outcomes)
    ensures msgsSent <= if msgsPerConn > 0 then msgsPerConn else 0
    ensures msgsSent == msgsPerConn ==> left == |msg| && wire == Copies(msg, msgsSent)
  {
    var bytesToSend: nat, bufPtr: nat := |msg|, 0;
    wire, msgsSent := [], 0;
    assert Copies(msg, 0) + msg[..0] == [];
    var i := 0;
    while msgsSent < msgsPerConn && i < |outcomes|
      invariant i <= |outcomes| && Allowed(|msg|, bytesToSend, outcomes[i..])
      invariant OnWire(msg, wire, msgsSent, bytesToSend) && bufPtr == |msg| - bytesToSend
      invariant msgsSent <= if msgsPerConn > 0 then msgsPerConn else 0
      invariant msgsSent >= msgsPerConn ==> bytesToSend == |msg|
      invariant |wire| + Taken(outcomes[i..]) == Taken(outcomes)
    {
      match outcomes[i] {
        case Took(sent) =>
          OnWireStep(msg, wire, msgsSent, bytesToSend, sent);
          wire := wire + msg[bufPtr..bufPtr + sent];
          bytesToSend := bytesToSend - sent;
          bufPtr := bufPtr + sent;
          if bytesToSend == 0 {
            msgsSent := msgsSent + 1;
            bytesToSend, bufPtr := |msg|, 0;
          }
        case TryAgain =>
        case TookNone =>
        case Failed => break;
      }
      i := i + 1;
    }
    left := bytesToSend;
    assert left == |msg| ==> wire == Copies(msg, msgsSent);
    QuotaReached(msg, wire, msgsSent, left, msgsPerConn, outcomes);
  }

  /** A connection attempt: refused, or accepted and then served these outcomes. */
  datatype Attempt = Refused | Connected(outcomes: seq<Outcome>)

  /** What became of one connection that was made. */
  datatype Delivery = Delivery(wire: string, msgs: nat, left: nat)

  function Connects(attempts: seq<Attempt>): nat {
    if attempts == [] then 0
    else Connects(attempts[..|attempts| - 1]) + if attempts[|attempts| - 1].Connected? then 1 else 0
  }

  /** What each connection that was made carries. */
  function AllCarried(size: nat, msgsPerConn: int, attempts: seq<Attempt>): seq<nat> {
    if attempts == [] then []
    else
      var last := attempts[|attempts| - 1];
      AllCarried(size, msgsPerConn, attempts[..|attempts| - 1]) +
      if last.Connected? then [Carried(size, msgsPerConn, last.outcomes)] else []
  }

  function WireLengths(ds: seq<Delivery>): seq<nat> {
    if ds == [] then [] else WireLengths(ds[..|ds| - 1]) + [|ds[|ds| - 1].wire|]
  }

  function Messages(ds: seq<Delivery>): nat {
    if ds == [] then 0 else Messages(ds[..|ds| - 1]) + ds[|ds| - 1].msgs
  }

  function CompleteCount(ds: seq<Delivery>, msgsPerConn: int): nat {
    if ds == [] then 0
    else CompleteCount(ds[..|ds| - 1], msgsPerConn) + if ds[|ds| - 1].msgs == msgsPerConn then 1 else 0
  }

  /** Whole messages and a part of the next; the quota in whole messages when complete. */
  ghost predicate Proper(msg: string, msgsPerConn: int, d: Delivery) {
    && OnWire(msg, d.wire, d.msgs, d.left)
    && (d.msgs == msgsPerConn ==> d.wire == Copies(msg, d.msgs))
  }

  ghost function ConnectedAt(attempts: seq<Attempt>): set<nat> {
    set i: nat | i < |attempts| && attempts[i].Connected?
  }

  lemma {:induction false} ConnectsCounted(attempts: seq<Attempt>)
    ensures Connects(attempts) == |ConnectedAt(attempts)|
  {
    if attempts == [] {
      assert ConnectedAt(attempts) == {};
    } else {
      var n := |attempts| - 1;
      ConnectsCounted(attempts[..n]);
      assert ConnectedAt(attempts) == ConnectedAt(attempts[..n]) + if attempts[n].Connected? then {n} else {};
    }
  }

  ghost function CompleteAt(ds: seq<Delivery>, msgsPerConn: int): set<nat> {
    set i: nat | i < |ds| && ds[i].msgs == msgsPerConn
  }

  lemma {:induction false} CompleteCounted(ds: seq<Delivery>, msgsPerConn: int)
    ensures CompleteCount(ds, msgsPerConn) == |CompleteAt(ds, msgsPerConn)|
  {
    if ds == [] {
      assert CompleteAt(ds, msgsPerConn) == {};
    } else {
      var n := |ds| - 1;
      CompleteCounted(ds[..n], msgsPerConn);
      assert CompleteAt(ds, msgsPerConn) ==
             CompleteAt(ds[..n], msgsPerConn) + if ds[n].msgs == msgsPerConn then {n} else {};
    }
  }

  /** Bytes on all wires, and those of the messages that were left unfinished. */
  function AllBytes(ds: seq<Delivery>): nat {
    if ds == [] then 0 else AllBytes(ds[..|ds| - 1]) + |ds[|ds| - 1].wire|
  }

  function Unfinished(size: nat, ds: seq<Delivery>): int {
    if ds == [] then 0 else Unfinished(size, ds[..|ds| - 1]) + (size - ds[|ds| - 1].left)
  }

  /** All bytes taken are those of the messages counted and of the parts of unfinished ones. */
  lemma {:induction false} BytesAreMessages(msg: string, ds: seq<Delivery>)
    requires forall i :: 0 <= i < |ds| ==> OnWire(msg, ds[i].wire, ds[i].msgs, ds[i].left)
    ensures AllBytes(ds) == Messages(ds) * |msg| + Unfinished(|msg|, ds)
    ensures 0 <= Unfinished(|msg|, ds) <= |ds| * |msg|
  {
    if ds != [] {
      var n := |ds| - 1;
      BytesAreMessages(msg, ds[..n]);
      WireLength(msg, ds[n].wire, ds[n].msgs, ds[n].left);
      Distributes(Messages(ds[..n]), ds[n].msgs, |msg|);
      Distributes(n, 1, |msg|);
    }
  }

  lemma Distributes(a: nat, b: nat, m: nat)
    ensures (a + b) * m == a * m + b * m
  {
  }

  lemma NextAttempt(size: nat, msgsPerConn: int, attempts: seq<Attempt>, i: nat)
    requires i < |attempts|
    ensures Connects(attempts[..i + 1]) == Connects(attempts[..i]) + if attempts[i].Connected? then 1 else 0
    ensures AllCarried(size, msgsPerConn, attempts[..i + 1]) == AllCarried(size, msgsPerConn, attempts[..i]) +
              if attempts[i].Connected? then [Carried(size, msgsPerConn, attempts[i].outcomes)] else []
  {
    assert attempts[..i + 1][..i] == attempts[..i];
  }

  lemma AllAttempts(attempts: seq<Attempt>)
    ensures attempts[..|attempts|] == attempts
  {
  }

  lemma DeliverySnoc(ds: seq<Delivery>, d: Delivery, msgsPerConn: int)
    ensures WireLengths(ds + [d]) == WireLengths(ds) + [|d.wire|]
    ensures Messages(ds + [d]) == Messages(ds) + d.msgs
    ensures CompleteCount(ds + [d], msgsPerConn) ==
            CompleteCount(ds, msgsPerConn) + if d.msgs == msgsPerConn then 1 else 0
  {
    assert (ds + [d])[..|ds|] == ds;
  }

  /** Every complete connection has carried its quota, whatever the sign of the quota. */
  lemma {:induction false} QuotaBound(ds: seq<Delivery>, msgsPerConn: int)
    ensures Messages(ds) >= msgsPerConn * CompleteCount(ds, msgsPerConn)
  {
    if ds != [] {
      var k := CompleteCount(ds[..|ds| - 1], msgsPerConn);
      QuotaBound(ds[..|ds| - 1], msgsPerConn);
      assert msgsPerConn * (k + 1) == msgsPerConn * k + msgsPerConn;
    }
  }

  /** The non-persistent client: a connection after another until time is up (the attempts end). */
  method SendNonPersistent(msg: string, msgsPerConn: int, attempts: seq<Attempt>)
    returns (deliveries: seq<Delivery>, totalMsgs: nat, complete: nat, nonComplete: nat)
    requires |msg| > 0
    requires forall i :: 0 <= i < |attempts| && attempts[i].Connected? ==> Allowed(|msg|, |msg|, attempts[i].outcomes)
    ensures |deliveries| == Connects(attempts) == complete + nonComplete
    ensures WireLengths(deliveries) == AllCarried(|msg|, msgsPerConn, attempts)
    ensures forall d :: d in deliveries ==> Proper(msg, msgsPerConn, d)
    ensures totalMsgs == Messages(deliveries) && complete == CompleteCount(deliveries, msgsPerConn)
    ensures totalMsgs >= msgsPerConn * complete
  {
    deliveries, totalMsgs, complete, nonComplete := [], 0, 0, 0;
    for i := 0 to |attempts|
      invariant |deliveries| == Connects(attempts[..i]) == complete + nonComplete
      invariant WireLengths(deliveries) == AllCarried(|msg|, msgsPerConn, attempts[..i])
      invariant forall d :: d in deliveries ==> Proper(msg, msgsPerConn, d)
      invariant totalMsgs == Messages(deliveries) && complete == CompleteCount(deliveries, msgsPerConn)
    {
      NextAttempt(|msg|, msgsPerConn, attempts, i);
      if attempts[i].Connected? {
        var wire, msgsSent, left := SendMessages(msg, msgsPerConn, attempts[i].outcomes);
        DeliverySnoc(deliveries, Delivery(wire, msgsSent, left), msgsPerConn);
        deliveries := deliveries + [Delivery(wire, msgsSent, left)];
        totalMsgs := totalMsgs + msgsSent;
        if msgsSent == msgsPerConn {
          complete := complete + 1;
        } else {
          nonComplete := nonComplete + 1;
        }
      }
    }
    AllAttempts(attempts);
    QuotaBound(deliveries, msgsPerConn);
  }
}
