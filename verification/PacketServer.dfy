/** The packet server: every receive is scanned on its own, and the packet numbers of its lines
    go to the gap tracker. */
module PacketServing {
  import opened Framing
  import opened ScanLoop
  import opened GapTracking
  import Messages

  /** The packet numbers of the lines that the scan accepts. */
  function ScanAll(lines: seq<string>): seq<int> {
    if lines == [] then []
    else
      var id := Messages.Scan(CString(lines[|lines| - 1]));
      ScanAll(lines[..|lines| - 1]) + if id.Some? then [id.value] else []
  }

  lemma ScanAllSnoc(lines: seq<string>, line: string)
    ensures ScanAll(lines + [line]) ==
            ScanAll(lines) + var id := Messages.Scan(CString(line)); if id.Some? then [id.value] else []
  {
  }

  lemma {:induction false} ScanAllConcat(a: seq<string>, b: seq<string>)
    ensures ScanAll(a + b) == ScanAll(a) + ScanAll(b)
  {
    if b == [] {
      assert a + b == a;
    } else {
      var n := |b| - 1;
      ScanAllConcat(a, b[..n]);
      assert a + b == (a + b[..n]) + [b[n]];
      assert b == b[..n] + [b[n]];
      ScanAllSnoc(a + b[..n], b[n]);
      ScanAllSnoc(b[..n], b[n]);
    }
  }

  class PacketServer {
    const tracker: Tracker
    const buffer: array<char>

    ghost predicate Valid()
      reads this, tracker, tracker.outOfOrder
    {
      tracker.Valid()
    }

    constructor (limit: nat, size: nat)
      ensures Valid() && tracker.numbers == []
      ensures fresh(tracker) && fresh(tracker.outOfOrder) && fresh(buffer)
      ensures buffer.Length == size && tracker.outOfOrder.Length == limit
    {
      tracker := new Tracker(limit);
      buffer := new char[size](_ => NUL);
    }

    /** Every receive starts at the front of the buffer: the tail of the one before is forgotten. */
    method HandleConnection(incoming: string)
      requires Valid() && |incoming| <= buffer.Length
      modifies tracker, tracker.outOfOrder, buffer
      ensures Valid() && tracker.numbers == old(tracker.numbers) + ScanAll(Frame(incoming).lines)
    {
      if incoming == [] {
        return;
      }
      Receive(buffer, 0, incoming);
      assert buffer[..|incoming|] == incoming;
      ScanLines(incoming, |incoming|);
    }

    method ScanLines(ghost content: string, end: nat)
      requires Valid() && end <= buffer.Length && buffer[..end] == content
      modifies tracker, tracker.outOfOrder, buffer
      ensures Valid() && tracker.numbers == old(tracker.numbers) + ScanAll(Frame(content).lines)
    {
      ghost var before := tracker.numbers;
      var start := 0;
      ghost var done: seq<string> := [];
      ProgressInit(content);
      assert before + ScanAll(done) == before;
      while start < end
        invariant start <= end && forall k :: start <= k < end ==> buffer[k] == content[k]
        invariant Progress(content, start, done)
        invariant Valid() && tracker.numbers == before + ScanAll(done)
      {
        var newline := FindNewline(buffer, content, start, end);
        if newline == end { break; }
        TakeLine(content, start, newline, done, before);
        done := done + [content[start..newline]];
        start := newline + 1;
      }
      ProgressDone(content, start, done);
      assert Frame(content).lines == done;
    }

    method TakeLine(
      ghost content: string, start: nat, newline: nat, ghost done: seq<string>, ghost before: seq<int>)
      requires Valid() && tracker.numbers == before + ScanAll(done)
      requires Progress(content, start, done) && start <= newline < |content| <= buffer.Length
      requires NEWLINE !in content[start..newline] && content[newline] == NEWLINE
      requires forall k :: start <= k < |content| ==> buffer[k] == content[k]
      modifies tracker, tracker.outOfOrder, buffer
      ensures Valid() && tracker.numbers == before + ScanAll(done + [content[start..newline]])
      ensures Progress(content, newline + 1, done + [content[start..newline]])
      ensures forall k :: newline < k < |content| ==> buffer[k] == content[k]
    {
      ProgressLine(content, start, done, newline);
      ScanAllSnoc(done, content[start..newline]);
      assert buffer[start..newline] == content[start..newline];
      ScanLine(start, newline, content[start..newline]);
    }

    method ScanLine(start: nat, newline: nat, ghost line: string)
      requires Valid() && start <= newline < buffer.Length
      requires buffer[start..newline] == line
      modifies tracker, tracker.outOfOrder, buffer
      ensures Valid() && tracker.numbers ==
              old(tracker.numbers) + var id := Messages.Scan(CString(line)); if id.Some? then [id.value] else []
      ensures forall k :: newline < k < buffer.Length ==> buffer[k] == old(buffer[k])
    {
      buffer[newline] := NUL;
      assert buffer[start..] == line + [NUL] + buffer[newline + 1..];
      CStringStops(line, buffer[newline + 1..]);
      match Messages.Scan(CString(buffer[start..]))
      case Some(packetSeq) => tracker.Observe(packetSeq);
      case None =>
    }
  }

  /** The server over a whole delivery of receives, from any connections: what it ends up
      expecting and what its array holds. */
  method Session(limit: nat, size: nat, chunks: seq<string>) returns (expected: int, stored: seq<int>)
    requires forall i :: 0 <= i < |chunks| ==> |chunks[i]| <= size
    ensures var t := Feed(ScanAll(SeenLines(chunks)));
            && expected == t.expected
            && stored <= t.gaps && |stored| == if |t.gaps| <= limit then |t.gaps| else limit
  {
    var server := new PacketServer(limit, size);
    var i := 0;
    while i < |chunks|
      invariant i <= |chunks|
      invariant server.Valid() && fresh(server.tracker) && fresh(server.tracker.outOfOrder) && fresh(server.buffer)
      invariant server.buffer.Length == size && server.tracker.outOfOrder.Length == limit
      invariant server.tracker.numbers == ScanAll(SeenLines(chunks[..i]))
    {
      server.HandleConnection(chunks[i]);
      assert chunks[..i + 1][..i] == chunks[..i];
      ScanAllConcat(SeenLines(chunks[..i]), Frame(chunks[i]).lines);
      i := i + 1;
    }
    assert chunks[..i] == chunks;
    expected := server.tracker.expectedSeq;
    stored := server.tracker.outOfOrder[..server.tracker.outOfOrderCount];
  }
}
