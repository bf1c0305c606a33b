/** Helpers shared by the two servers that scan a receive buffer for newlines. */
module ScanLoop {
  import opened Framing

  /** The first position of c in a[from..to], or `to` when there is none. */
  method MemChr(a: array<char>, c: char, from: nat, to: nat) returns (i: nat)
    requires from <= to <= a.Length
    ensures from <= i <= to && c !in a[from..i]
    ensures i < to ==> a[i] == c
  {
    i := from;
    while i < to && a[i] != c
      invariant from <= i <= to && c !in a[from..i]
    {
      i := i + 1;
    }
  }

  /** The next newline of the content that a[from..to] still holds, or `to`. */
  method FindNewline(a: array<char>, ghost content: string, from: nat, to: nat) returns (i: nat)
    requires from <= to == |content| <= a.Length
    requires forall k :: from <= k < to ==> a[k] == content[k]
    ensures from <= i <= to && NEWLINE !in content[from..i]
    ensures if i < to then content[i] == NEWLINE else NEWLINE !in content[from..]
  {
    i := MemChr(a, NEWLINE, from, to);
    assert a[from..i] == content[from..i];
    assert content[from..to] == content[from..];
  }

  /** A receive puts the incoming bytes into a[at..] and leaves the bytes before them alone. */
  method Receive(a: array<char>, at: nat, incoming: string)
    requires at + |incoming| <= a.Length
    modifies a
    ensures a[..at + |incoming|] == old(a[..at]) + incoming
  {
    var k := 0;
    while k < |incoming|
      invariant k <= |incoming|
      invariant a[..at + k] == old(a[..at]) + incoming[..k]
    {
      a[at + k] := incoming[k];
      k := k + 1;
    }
  }

  /** Move the bytes at from..to to the front. */
  method MoveToFront(a: array<char>, from: nat, to: nat)
    requires from <= to <= a.Length
    modifies a
    ensures a[..to - from] == old(a[from..to])
  {
    var k := 0;
    while k < to - from
      invariant k <= to - from
      invariant a[..k] == old(a[from..from + k])
      invariant forall i :: from + k <= i < to ==> a[i] == old(a[i])
    {
      a[k] := a[from + k];
      k := k + 1;
    }
  }

  /** The part of a line before its first NUL, or all of it. */
  ghost predicate UpToNul(data: string, line: string) {
    && data <= line && NUL !in data
    && (data != line ==> line[|data|] == NUL)
  }

  lemma {:induction false} CStringUpToNul(line: string)
    ensures UpToNul(CString(line), line)
  {
    if line != [] && line[0] != NUL {
      CStringUpToNul(line[1..]);
    }
  }

  lemma {:induction false} CStringStops(line: string, rest: string)
    ensures CString(line + [NUL] + rest) == CString(line)
  {
    if line != [] && line[0] != NUL {
      assert (line + [NUL] + rest)[1..] == line[1..] + [NUL] + rest;
      CStringStops(line[1..], rest);
    }
  }

  /** What a scan has still to do: the lines done and the lines of the rest make up the lines of
      the content. */
  ghost predicate Progress(content: string, start: nat, done: seq<string>) {
    && start <= |content|
    && Frame(content) == Framed(done + Frame(content[start..]).lines, Frame(content[start..]).tail)
  }

  lemma ProgressInit(content: string)
    ensures Progress(content, 0, [])
  {
  }

  lemma ProgressLine(content: string, start: nat, done: seq<string>, newline: nat)
    requires Progress(content, start, done) && start <= newline < |content|
    requires NEWLINE !in content[start..newline] && content[newline] == NEWLINE
    ensures Progress(content, newline + 1, done + [content[start..newline]])
  {
    var line, rest := content[start..newline], content[newline + 1..];
    assert content[start..] == line + [NEWLINE] + rest;
    FrameFirstLine(line, rest);
    assert done + ([line] + Frame(rest).lines) == done + [line] + Frame(rest).lines;
  }

  lemma ProgressDone(content: string, start: nat, done: seq<string>)
    requires Progress(content, start, done)
    requires NEWLINE !in content[start..]
    ensures Frame(content) == Framed(done, content[start..])
  {
    FrameUnfinished(content[start..]);
  }
}
