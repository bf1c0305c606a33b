/** Sender and receiver together: the packets of a whole run of the clients, delivered in order on
    each connection but otherwise in any order and cut into any line-aligned reads, as the gap
    tracker of the packet server sees them. */
module EndToEnd {
  import opened TurnTaking
  import opened TurnProgress
  import opened GapTracking
  import opened Framing
  import opened PacketServing
  import Messages

  function Ids(ps: seq<Packet>): seq<int> {
    seq(|ps|, i requires 0 <= i < |ps| => ps[i].id)
  }

  /** The packets of one connection, in order. */
  function Of(ps: seq<Packet>, conn: int): seq<Packet> {
    if ps == [] then []
    else
      var last := ps[|ps| - 1];
      Of(ps[..|ps| - 1], conn) + if last.conn == conn then [last] else []
  }

  /** Each connection delivers a prefix of what was sent on it. */
  ghost predicate Fifo(delivered: seq<Packet>, log: seq<Packet>) {
    forall conn :: Of(delivered, conn) <= Of(log, conn)
  }

  /** Each connection delivers all of it. */
  ghost predicate Complete(delivered: seq<Packet>, log: seq<Packet>) {
    forall conn :: Of(delivered, conn) == Of(log, conn)
  }

  // ---------------------------------------------------------------- first in, first out

  lemma {:induction false} OfElements(ps: seq<Packet>, conn: int, p: Packet)
    ensures p in Of(ps, conn) <==> p in ps && p.conn == conn
  {
    if ps != [] {
      var n := |ps| - 1;
      OfElements(ps[..n], conn, p);
      assert ps == ps[..n] + [ps[n]];
    }
  }

  lemma {:induction false} OfPrefix(ps: seq<Packet>, j: nat, conn: int)
    requires j <= |ps|
    ensures Of(ps[..j], conn) <= Of(ps, conn)
  {
    if j < |ps| {
      var n := |ps| - 1;
      OfPrefix(ps[..n], j, conn);
      assert ps[..n][..j] == ps[..j];
    } else {
      assert ps[..j] == ps;
    }
  }

  /** The place of a packet among those of its connection. */
  lemma OfPlace(ps: seq<Packet>, j: nat)
    requires j < |ps|
    ensures var conn, m := ps[j].conn, |Of(ps[..j], ps[j].conn)|;
            m < |Of(ps, conn)| && Of(ps, conn)[m] == ps[j] && Of(ps[..j], conn) == Of(ps, conn)[..m]
  {
    var conn := ps[j].conn;
    assert ps[..j + 1][..j] == ps[..j];
    OfPrefix(ps, j, conn);
    OfPrefix(ps, j + 1, conn);
    assert Of(ps[..j + 1], conn) == Of(ps[..j], conn) + [ps[j]];
  }

  ghost predicate IdsIncrease(ps: seq<Packet>) {
    forall i, j :: 0 <= i < j < |ps| ==> ps[i].id < ps[j].id
  }

  lemma {:induction false} OfIdsIncrease(ps: seq<Packet>, conn: int)
    requires IdsIncrease(ps)
    ensures IdsIncrease(Of(ps, conn))
  {
    if ps != [] {
      var n := |ps| - 1;
      var init := Of(ps[..n], conn);
      OfIdsIncrease(ps[..n], conn);
      forall i | 0 <= i < |init| ensures init[i].id < ps[n].id {
        OfElements(ps[..n], conn, init[i]);
        var k :| 0 <= k < n && ps[k] == init[i];
      }
    }
  }

  /** When a packet arrives, the packets sent before it on its connection have arrived. */
  lemma EarlierArrived(delivered: seq<Packet>, log: seq<Packet>, j: nat, p: Packet)
    requires Fifo(delivered, log) && IdsIncrease(log) && j < |delivered|
    requires p in log && p.conn == delivered[j].conn && p.id < delivered[j].id
    ensures p in delivered[..j]
  {
    var conn := p.conn;
    var sent, before := Of(log, conn), Of(delivered[..j], conn);
    OfPlace(delivered, j);
    OfIdsIncrease(log, conn);
    OfElements(log, conn, p);
    assert Of(delivered, conn) <= sent;
    var m :| 0 <= m < |sent| && sent[m] == p;
    assert sent[|before|] == delivered[j];
    assert m < |before|;
    assert before[m] == p;
    OfElements(delivered[..j], conn, p);
  }

  // ---------------------------------------------------------------- gaps

  lemma RoundRobinIncreases(n: nat, log: seq<Packet>)
    requires n > 0 && RoundRobin(n, log)
    ensures IdsIncrease(log)
  {
  }

  /** The numbers that the tracker records when packet j arrives. */
  ghost function Recorded(delivered: seq<Packet>, j: nat): seq<int>
    requires j < |delivered|
  {
    var before, after := Feed(Ids(delivered[..j])), Feed(Ids(delivered[..j + 1]));
    if |before.gaps| <= |after.gaps| then after.gaps[|before.gaps|..] else []
  }

  lemma RecordedRange(delivered: seq<Packet>, j: nat, g: int)
    requires j < |delivered| && g in Recorded(delivered, j)
    ensures 1 <= g < delivered[j].id
    ensures forall p :: p in delivered[..j] ==> p.id < g
  {
    var ids, x := Ids(delivered[..j]), delivered[j].id;
    assert Ids(delivered[..j + 1]) == ids + [x];
    FeedSnoc(ids, x);
    RangeContents(Feed(ids).expected, x);
    ExpectedIsMaxPlusOne(ids);
    forall p | p in delivered[..j] ensures p.id in ids {
      var i :| 0 <= i < j && delivered[i] == p;
      assert ids[i] == p.id;
    }
  }

  lemma DeliveredWasSent(delivered: seq<Packet>, log: seq<Packet>, j: nat)
    requires Fifo(delivered, log) && j < |delivered|
    ensures delivered[j] in log
  {
    var x := delivered[j];
    OfElements(delivered, x.conn, x);
    assert Of(delivered, x.conn) <= Of(log, x.conn);
    OfElements(log, x.conn, x);
  }

  /** A connection never has its own packets recorded as missing: whatever gap an arrival causes,
      the packet it stands for was sent, and on another connection. */
  lemma GapsAreOfOtherConnections(n: nat, log: seq<Packet>, delivered: seq<Packet>, j: nat, g: int)
    requires n > 0 && RoundRobin(n, log) && Fifo(delivered, log)
    requires j < |delivered| && g in Recorded(delivered, j)
    ensures 1 <= g <= |log| && log[g - 1].id == g
    ensures log[g - 1].conn != delivered[j].conn
  {
    RecordedRange(delivered, j, g);
    DeliveredWasSent(delivered, log, j);
    RoundRobinIncreases(n, log);
    if log[g - 1].conn == delivered[j].conn {
      EarlierArrived(delivered, log, j, log[g - 1]);
    }
  }

  /** Delivering everything, in any order that keeps each connection's, permutes 1..|log|. */
  lemma CompleteIsPermutation(n: nat, log: seq<Packet>, delivered: seq<Packet>)
    requires n > 0 && RoundRobin(n, log) && Complete(delivered, log)
    ensures IsPermutation(Ids(delivered), |log|)
  {
    var ids := Ids(delivered);
    RoundRobinIncreases(n, log);
    forall p ensures p in delivered <==> p in log {
      OfElements(delivered, p.conn, p);
      OfElements(log, p.conn, p);
      assert Of(delivered, p.conn) == Of(log, p.conn);
    }
    forall i | 0 <= i < |ids| ensures 1 <= ids[i] <= |log| {
      assert delivered[i] in log;
    }
    assert Fifo(delivered, log);
    forall i, j | 0 <= i < j < |ids| ensures ids[i] != ids[j] {
      DeliveredOnce(n, log, delivered, i, j);
    }
    DistinctElements(ids);
    SubsetOfRangeCardinality(set x | x in ids, |log|);
    forall k | 1 <= k <= |log| ensures k in ids {
      assert log[k - 1] in delivered;
      var i :| 0 <= i < |delivered| && delivered[i] == log[k - 1];
      assert ids[i] == k;
    }
    CoverCardinality(set x | x in ids, |log|);
  }

  lemma {:induction false} CoverCardinality(s: set<int>, n: nat)
    requires forall k :: 1 <= k <= n ==> k in s
    ensures |s| >= n
  {
    if n > 0 {
      CoverCardinality(s - {n}, n - 1);
    }
  }

  lemma SameConnectionInOrder(log: seq<Packet>, delivered: seq<Packet>, i: nat, j: nat)
    requires IdsIncrease(log) && Fifo(delivered, log)
    requires i < j < |delivered| && delivered[i].conn == delivered[j].conn
    ensures delivered[i].id < delivered[j].id
  {
    var conn := delivered[i].conn;
    assert Of(delivered, conn) <= Of(log, conn);
    OfIdsIncrease(log, conn);
    OfPlace(delivered, i);
    OfPlace(delivered, j);
    assert delivered[..j][..i] == delivered[..i];
    OfPlace(delivered[..j], i);
    var a, b := |Of(delivered[..i], conn)|, |Of(delivered[..j], conn)|;
    assert a < b && Of(log, conn)[a] == delivered[i] && Of(log, conn)[b] == delivered[j];
  }

  lemma DeliveredOnce(n: nat, log: seq<Packet>, delivered: seq<Packet>, i: nat, j: nat)
    requires n > 0 && RoundRobin(n, log) && Fifo(delivered, log) && i < j < |delivered|
    ensures delivered[i].id != delivered[j].id
  {
    RoundRobinIncreases(n, log);
    DeliveredWasSent(delivered, log, i);
    DeliveredWasSent(delivered, log, j);
    if delivered[i].conn == delivered[j].conn {
      SameConnectionInOrder(log, delivered, i, j);
    }
  }

  // ---------------------------------------------------------------- the text on the wire

  function Text(ps: seq<Packet>): string {
    if ps == [] then []
    else Text(ps[..|ps| - 1]) + Messages.Message(ps[|ps| - 1].conn, ps[|ps| - 1].id)
  }

  function Texts(batches: seq<seq<Packet>>): seq<string> {
    seq(|batches|, i requires 0 <= i < |batches| => Text(batches[i]))
  }

  function Concat(batches: seq<seq<Packet>>): seq<Packet> {
    if batches == [] then [] else Concat(batches[..|batches| - 1]) + batches[|batches| - 1]
  }

  lemma {:induction false} CStringPlain(s: string)
    requires Messages.Plain(s)
    ensures CString(s) == s
  {
    if s != [] {
      CStringPlain(s[1..]);
    }
  }

  lemma MessageRoundTrip(p: Packet)
    ensures var f := Frame(Messages.Message(p.conn, p.id));
            f.tail == [] && ScanAll(f.lines) == [p.id]
  {
    var body := Messages.Body(p.conn, p.id);
    Messages.BodyIsPlain(p.conn, p.id);
    FrameFirstLine(body, []);
    assert body + [NEWLINE] + [] == Messages.Message(p.conn, p.id);
    assert Frame(Messages.Message(p.conn, p.id)).lines == [body];
    CStringPlain(body);
    Messages.ScanRecoversId(p.conn, p.id, []);
    assert body + [] == body;
    ScanAllSnoc([], body);
    assert [] + [body] == [body];
  }

  lemma IdsConcat(a: seq<Packet>, b: seq<Packet>)
    ensures Ids(a + b) == Ids(a) + Ids(b)
  {
  }

  lemma AppendMessage(text: string, p: Packet)
    requires Frame(text).tail == []
    ensures var whole := Frame(text + Messages.Message(p.conn, p.id));
            whole.tail == [] && ScanAll(whole.lines) == ScanAll(Frame(text).lines) + [p.id]
  {
    var msg := Messages.Message(p.conn, p.id);
    MessageRoundTrip(p);
    FrameConcat(text, msg);
    assert [] + msg == msg;
    ScanAllConcat(Frame(text).lines, Frame(msg).lines);
  }

  lemma IdsSnoc(ps: seq<Packet>)
    requires ps != []
    ensures Ids(ps) == Ids(ps[..|ps| - 1]) + [ps[|ps| - 1].id]
  {
  }

  /** Printed packets are whole lines, and scanning the lines gives the identifiers back. */
  lemma {:induction false} TextRoundTrip(ps: seq<Packet>)
    ensures Frame(Text(ps)).tail == []
    ensures ScanAll(Frame(Text(ps)).lines) == Ids(ps)
  {
    if ps != [] {
      var init, p := ps[..|ps| - 1], ps[|ps| - 1];
      TextRoundTrip(init);
      AppendMessage(Text(init), p);
      IdsSnoc(ps);
    }
  }

  /** However the delivery is cut into reads of whole packets, the server's scan sees the same
      identifiers in the same order. */
  lemma {:induction false} ReadsRoundTrip(batches: seq<seq<Packet>>)
    ensures ScanAll(SeenLines(Texts(batches))) == Ids(Concat(batches))
  {
    if batches != [] {
      var init, last := batches[..|batches| - 1], batches[|batches| - 1];
      ReadsRoundTrip(init);
      AppendRead(batches);
      IdsConcat(Concat(init), last);
    }
  }

  lemma AppendRead(batches: seq<seq<Packet>>)
    requires batches != []
    ensures var init, last := batches[..|batches| - 1], batches[|batches| - 1];
            ScanAll(SeenLines(Texts(batches))) == ScanAll(SeenLines(Texts(init))) + Ids(last)
  {
    var init, last := batches[..|batches| - 1], batches[|batches| - 1];
    TextsSnoc(batches);
    TextRoundTrip(last);
    ScanAllConcat(SeenLines(Texts(init)), Frame(Text(last)).lines);
  }

  lemma TextsSnoc(batches: seq<seq<Packet>>)
    requires batches != []
    ensures var init, last := batches[..|batches| - 1], batches[|batches| - 1];
            SeenLines(Texts(batches)) == SeenLines(Texts(init)) + Frame(Text(last)).lines
  {
    assert Texts(batches)[..|batches| - 1] == Texts(batches[..|batches| - 1]);
  }

  // ---------------------------------------------------------------- the whole experiment

  /** After a run of the clients that nothing can continue, and the delivery of all it sent, the
      server expects n * p + 1; its gap list holds, in increasing order, exactly the identifiers
      that arrived after a larger one; and it is empty exactly when everything came in send order. */
  lemma Experiment(c: Config, steps: seq<Step>, batches: seq<seq<Packet>>)
    requires c.n > 0 && c.limit.Packets? && IsRun(c, steps) && !CanMove(c, Final(c, steps))
    requires Complete(Concat(batches), Final(c, steps).log)
    ensures var t, ids := Feed(ScanAll(SeenLines(Texts(batches)))), Ids(Concat(batches));
            && t.expected == c.n * c.limit.p + 1
            && Increasing(t.gaps) && (forall k :: k in t.gaps <==> LateArrival(ids, k))
            && |t.gaps| == c.n * c.limit.p - |LeftToRightMaxima(ids)|
            && (t.gaps == [] <==> Increasing(ids))
  {
    var log := Final(c, steps).log;
    var ids := Ids(Concat(batches));
    SendsAreRoundRobin(c, steps);
    RunsTerminate(c, steps);
    ReadsRoundTrip(batches);
    CompleteIsPermutation(c.n, log, Concat(batches));
    PermutationCovers(ids, |log|);
    PermutationGaps(ids, |log|);
    NoGapsIffSorted(ids, |log|);
  }

  lemma {:induction false} GapIsRecorded(delivered: seq<Packet>, g: int) returns (j: nat)
    requires g in Feed(Ids(delivered)).gaps
    ensures j < |delivered| && g in Recorded(delivered, j)
  {
    if delivered == [] {
      assert false;
    } else {
      var init := delivered[..|delivered| - 1];
      LastArrivalRecords(delivered, g);
      if g in Feed(Ids(init)).gaps {
        j := GapIsRecorded(init, g);
        assert init[..j] == delivered[..j] && init[..j + 1] == delivered[..j + 1];
      } else {
        j := |delivered| - 1;
      }
    }
  }

  lemma LastArrivalRecords(delivered: seq<Packet>, g: int)
    requires delivered != [] && g in Feed(Ids(delivered)).gaps
    ensures g in Feed(Ids(delivered[..|delivered| - 1])).gaps || g in Recorded(delivered, |delivered| - 1)
  {
    var n := |delivered| - 1;
    IdsSnoc(delivered);
    FeedSnoc(Ids(delivered[..n]), delivered[n].id);
    assert delivered[..n + 1] == delivered;
  }

  /** The packet with this number was sent, and was found missing when one of another connection came. */
  ghost predicate MissedByOther(delivered: seq<Packet>, log: seq<Packet>, g: int) {
    1 <= g <= |log| &&
    exists j: nat :: j < |delivered| && g in Recorded(delivered, j) && log[g - 1].conn != delivered[j].conn
  }

  /** What the server's array holds: in increasing order the numbers that arrived late, as far as there is
      room, each of them found missing by another connection. */
  ghost predicate HoldsLate(stored: seq<int>, limit: nat, delivered: seq<Packet>, log: seq<Packet>) {
    && Increasing(stored)
    && (forall k :: k in stored ==> LateArrival(Ids(delivered), k) && MissedByOther(delivered, log, k))
    && |stored| == (if |log| - |LeftToRightMaxima(Ids(delivered))| <= limit
                    then |log| - |LeftToRightMaxima(Ids(delivered))| else limit)
    && (|stored| < limit ==> forall k :: LateArrival(Ids(delivered), k) ==> k in stored)
  }

  lemma StoredIsLate(
    n: nat, log: seq<Packet>, delivered: seq<Packet>, limit: nat, stored: seq<int>)
    requires n > 0 && RoundRobin(n, log) && Complete(delivered, log)
    requires var gaps := Feed(Ids(delivered)).gaps;
             stored <= gaps && |stored| == if |gaps| <= limit then |gaps| else limit
    ensures HoldsLate(stored, limit, delivered, log)
  {
    CompleteIsPermutation(n, log, delivered);
    PermutationGaps(Ids(delivered), |log|);
    forall k | k in stored ensures MissedByOther(delivered, log, k) {
      var j := GapIsRecorded(delivered, k);
      GapsAreOfOtherConnections(n, log, delivered, j, k);
    }
  }

  /** The packet server at the other end of a complete run of the clients, over any receives of whole
      packets that keep the order of each connection. */
  method Receive(c: Config, ghost steps: seq<Step>, batches: seq<seq<Packet>>, limit: nat, size: nat)
    returns (expected: int, stored: seq<int>)
    requires c.n > 0 && c.limit.Packets? && IsRun(c, steps) && !CanMove(c, Final(c, steps))
    requires Complete(Concat(batches), Final(c, steps).log)
    requires forall i :: 0 <= i < |batches| ==> |Text(batches[i])| <= size
    ensures expected == c.n * c.limit.p + 1
    ensures HoldsLate(stored, limit, Concat(batches), Final(c, steps).log)
  {
    expected, stored := Session(limit, size, Texts(batches));
    ReadsRoundTrip(batches);
    Experiment(c, steps, batches);
    SendsAreRoundRobin(c, steps);
    StoredIsLate(c.n, Final(c, steps).log, Concat(batches), limit, stored);
  }
}
