/** The line-logging server: newline reassembly with a carry-over buffer per connection. */
module LineServing {
  import opened Framing
  import opened ScanLoop

  datatype Entry = Entry(fd: int, packet: nat, data: string)

  /** The log entries for the lines after the first `before` ones of a connection. */
  function Entries(fd: int, before: nat, lines: seq<string>): seq<Entry> {
    seq(|lines|, i requires 0 <= i < |lines| => Entry(fd, before + i + 1, CString(lines[i])))
  }

  /** One entry for every line, numbered from 1, with the line up to its first NUL. */
  ghost predicate IsLog(entries: seq<Entry>, fd: int, lines: seq<string>) {
    && |entries| == |lines|
    && forall i :: 0 <= i < |entries| ==>
         entries[i].fd == fd && entries[i].packet == i + 1 && UpToNul(entries[i].data, lines[i])
  }

  lemma EntriesSnoc(fd: int, before: nat, lines: seq<string>, line: string)
    ensures Entries(fd, before, lines + [line]) ==
            Entries(fd, before, lines) + [Entry(fd, before + |lines| + 1, CString(line))]
  {
  }

  lemma EntriesAreLog(fd: int, lines: seq<string>)
    ensures IsLog(Entries(fd, 0, lines), fd, lines)
  {
    forall i | 0 <= i < |lines| ensures UpToNul(CString(lines[i]), lines[i]) {
      CStringUpToNul(lines[i]);
    }
  }

  class LogFile {
    var entries: seq<Entry>

    constructor ()
      ensures entries == []
    {
      entries := [];
    }
  }

  /** A receive completes the lines of the carried-over tail followed by what came in. */
  lemma NewLines(before: string, incoming: string)
    ensures var f, g, whole := Frame(before), Frame(Frame(before).tail + incoming), Frame(before + incoming);
            && whole.tail == g.tail && |whole.lines| == |f.lines| + |g.lines|
            && whole.lines[|f.lines|..] == g.lines
            && whole.lines[..|f.lines|] == f.lines
  {
    FrameConcat(before, incoming);
  }

  class Connection {
    const fd: int
    const buffer: array<char>
    var bufUsed: nat
    var packetCount: nat
    var open: bool
    ghost var stream: string

    /** The buffer holds the unfinished line of everything received. */
    ghost predicate Valid()
      reads this, buffer
    {
      && bufUsed <= buffer.Length
      && buffer[..bufUsed] == Frame(stream).tail
      && packetCount == |Frame(stream).lines|
    }

    constructor (fd: int, size: nat)
      ensures Valid() && stream == [] && open && this.fd == fd
      ensures fresh(buffer) && buffer.Length == size
    {
      this.fd := fd;
      buffer := new char[size](_ => NUL);
      bufUsed, packetCount, open, stream := 0, 0, true, [];
    }

    /** `incoming` is what the receive into the free part of the buffer returned; nothing comes
        back when the peer has closed, on an error, and when there is no free part. */
    method HandleConnection(incoming: string, output: LogFile)
      requires Valid() && open && |incoming| <= buffer.Length - bufUsed
      modifies this, buffer, output
      ensures Valid() && stream == old(stream) + incoming
      ensures open <==> incoming != []
      ensures |Frame(old(stream)).tail| == buffer.Length ==> !open
      ensures old(packetCount) <= packetCount
      ensures output.entries ==
              old(output.entries) + Entries(fd, old(packetCount), Frame(stream).lines[old(packetCount)..])
    {
      NewLines(stream, incoming);
      if incoming == [] {
        open := false;
        assert stream + incoming == stream;
        assert Entries(fd, packetCount, []) == [];
        return;
      }
      Receive(buffer, bufUsed, incoming);
      ghost var content := buffer[..bufUsed + |incoming|];
      bufUsed := bufUsed + |incoming|;
      var start := LogLines(content, output);
      MoveToFront(buffer, start, bufUsed);
      bufUsed := bufUsed - start;
      stream := stream + incoming;
    }

    /** The scan loop: log every complete line of the content, stop at the unfinished rest. */
    method LogLines(ghost content: string, output: LogFile) returns (start: nat)
      requires bufUsed <= buffer.Length && buffer[..bufUsed] == content
      modifies `packetCount, buffer, output
      ensures start <= bufUsed && buffer[start..bufUsed] == Frame(content).tail
      ensures packetCount == old(packetCount) + |Frame(content).lines|
      ensures output.entries == old(output.entries) + Entries(fd, old(packetCount), Frame(content).lines)
    {
      start := 0;
      ghost var done: seq<string> := [];
      ProgressInit(content);
      assert Entries(fd, packetCount, done) == [];
      while start < bufUsed
        invariant start <= bufUsed && forall k :: start <= k < bufUsed ==> buffer[k] == content[k]
        invariant Progress(content, start, done)
        invariant packetCount == old(packetCount) + |done|
        invariant output.entries == old(output.entries) + Entries(fd, old(packetCount), done)
      {
        var newline := FindNewline(buffer, content, start, bufUsed);
        if newline == bufUsed { break; }
        TakeLine(content, start, newline, done, output, old(packetCount), old(output.entries));
        done := done + [content[start..newline]];
        start := newline + 1;
      }
      ProgressDone(content, start, done);
      assert buffer[start..bufUsed] == content[start..];
    }

    method TakeLine(
      ghost content: string, start: nat, newline: nat, ghost done: seq<string>, output: LogFile,
      ghost before: nat, ghost entries: seq<Entry>)
      requires Progress(content, start, done) && start <= newline < |content| <= buffer.Length
      requires NEWLINE !in content[start..newline] && content[newline] == NEWLINE
      requires forall k :: start <= k < |content| ==> buffer[k] == content[k]
      requires packetCount == before + |done| && output.entries == entries + Entries(fd, before, done)
      modifies `packetCount, buffer, output
      ensures Progress(content, newline + 1, done + [content[start..newline]])
      ensures packetCount == before + |done| + 1
      ensures output.entries == entries + Entries(fd, before, done + [content[start..newline]])
      ensures forall k :: newline < k < |content| ==> buffer[k] == content[k]
    {
      ProgressLine(content, start, done, newline);
      assert buffer[start..newline] == content[start..newline];
      buffer[newline] := NUL;
      packetCount := packetCount + 1;
      WriteLine(start, newline, content[start..newline], output);
      EntriesSnoc(fd, before, done, content[start..newline]);
    }

    method WriteLine(start: nat, newline: nat, ghost line: string, output: LogFile)
      requires start <= newline < buffer.Length
      requires buffer[start..newline] == line && buffer[newline] == NUL
      modifies output
      ensures output.entries == old(output.entries) + [Entry(fd, packetCount, CString(line))]
    {
      assert buffer[start..] == line + [NUL] + buffer[newline + 1..];
      CStringStops(line, buffer[newline + 1..]);
      output.entries := output.entries + [Entry(fd, packetCount, CString(buffer[start..]))];
    }
  }

  /** A whole connection: however the stream is cut into receives that the buffer can take, the
      log holds its lines, numbered from 1, and the buffer its unfinished tail. */
  method Session(fd: int, size: nat, chunks: seq<string>)
    returns (entries: seq<Entry>, left: string, packets: nat, open: bool)
    requires Receivable(size, chunks)
    ensures IsLog(entries, fd, Frame(Flatten(chunks)).lines)
    ensures left == Frame(Flatten(chunks)).tail
    ensures packets == Newlines(Flatten(chunks))
    ensures open
  {
    var conn := new Connection(fd, size);
    var output := new LogFile();
    var i := 0;
    while i < |chunks|
      invariant i <= |chunks|
      invariant conn.Valid() && conn.open && conn.stream == Flatten(chunks[..i])
      invariant conn.fd == fd && conn.buffer.Length == size && fresh(conn) && fresh(conn.buffer) && fresh(output)
      invariant output.entries == Entries(fd, 0, Frame(conn.stream).lines)
    {
      ghost var before := Frame(conn.stream).lines;
      FrameConcat(conn.stream, chunks[i]);
      conn.HandleConnection(chunks[i], output);
      assert chunks[..i + 1][..i] == chunks[..i];
      EntriesConcat(fd, before, Frame(conn.stream).lines[|before|..]);
      assert Frame(conn.stream).lines == before + Frame(conn.stream).lines[|before|..];
      i := i + 1;
    }
    assert chunks[..i] == chunks;
    LinesAreNewlines(Flatten(chunks));
    EntriesAreLog(fd, Frame(Flatten(chunks)).lines);
    entries, left, packets, open := output.entries, conn.buffer[..conn.bufUsed], conn.packetCount, conn.open;
  }

  lemma EntriesConcat(fd: int, first: seq<string>, second: seq<string>)
    ensures Entries(fd, 0, first + second) == Entries(fd, 0, first) + Entries(fd, |first|, second)
  {
  }
}
