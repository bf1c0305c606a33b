/** Newline framing of a byte stream: the complete lines of a stream and its unfinished tail,
    and what becomes of them when the stream arrives in pieces. */
module Framing {

  const NEWLINE := '\n'
  const NUL := '\0'

  datatype Framed = Framed(lines: seq<string>, tail: string)

  /** Cut the stream after every newline, dropping the newlines. */
  function Frame(stream: string): Framed {
    if stream == [] then Framed([], [])
    else
      var f := Frame(stream[..|stream| - 1]);
      var c := stream[|stream| - 1];
      if c == NEWLINE then Framed(f.lines + [f.tail], []) else Framed(f.lines, f.tail + [c])
  }

  /** Put the lines and the tail back together. */
  function Join(lines: seq<string>, tail: string): string {
    if lines == [] then tail else lines[0] + [NEWLINE] + Join(lines[1..], tail)
  }

  /** What a C string operation sees of a line: everything up to the first NUL. */
  function CString(line: string): string {
    if line == [] || line[0] == NUL then [] else [line[0]] + CString(line[1..])
  }

  function Flatten(chunks: seq<string>): string {
    if chunks == [] then [] else Flatten(chunks[..|chunks| - 1]) + chunks[|chunks| - 1]
  }

  function Newlines(stream: string): nat {
    if stream == [] then 0
    else Newlines(stream[..|stream| - 1]) + if stream[|stream| - 1] == NEWLINE then 1 else 0
  }

  // ---------------------------------------------------------------- framing and concatenation

  lemma FrameSnoc(s: string, c: char)
    ensures Frame(s + [c]) ==
            if c == NEWLINE then Framed(Frame(s).lines + [Frame(s).tail], [])
            else Framed(Frame(s).lines, Frame(s).tail + [c])
  {
  }

  /** Framing can be resumed: only the unfinished tail of the first part matters to the second. */
  lemma {:induction false} FrameConcat(a: string, b: string)
    ensures var rest := Frame(Frame(a).tail + b);
            Frame(a + b) == Framed(Frame(a).lines + rest.lines, rest.tail)
  {
    if b == [] {
      assert a + b == a && Frame(a).tail + b == Frame(a).tail;
      TailIsUnfinished(a);
      FrameUnfinished(Frame(a).tail);
    } else {
      var n := |b| - 1;
      FrameConcat(a, b[..n]);
      assert a + b == (a + b[..n]) + [b[n]];
      assert Frame(a).tail + b == (Frame(a).tail + b[..n]) + [b[n]];
      FrameSnoc(a + b[..n], b[n]);
      FrameSnoc(Frame(a).tail + b[..n], b[n]);
    }
  }

  lemma {:induction false} TailIsUnfinished(s: string)
    ensures NEWLINE !in Frame(s).tail
    ensures forall l :: l in Frame(s).lines ==> NEWLINE !in l
  {
    if s != [] {
      TailIsUnfinished(s[..|s| - 1]);
    }
  }

  lemma {:induction false} FrameUnfinished(s: string)
    requires NEWLINE !in s
    ensures Frame(s) == Framed([], s)
  {
    if s != [] {
      FrameUnfinished(s[..|s| - 1]);
      assert s == s[..|s| - 1] + [s[|s| - 1]];
    }
  }

  lemma FrameFirstLine(line: string, rest: string)
    requires NEWLINE !in line
    ensures Frame(line + [NEWLINE] + rest) == Framed([line] + Frame(rest).lines, Frame(rest).tail)
  {
    FrameUnfinished(line);
    FrameSnoc(line, NEWLINE);
    FrameConcat(line + [NEWLINE], rest);
    assert [] + rest == rest;
    assert Frame(line).lines + [line] == [line];
  }

  // ---------------------------------------------------------------- Frame is the newline split

  lemma {:induction false} JoinFrames(lines: seq<string>, tail: string)
    requires NEWLINE !in tail && forall l :: l in lines ==> NEWLINE !in l
    ensures Frame(Join(lines, tail)) == Framed(lines, tail)
  {
    if lines == [] {
      FrameUnfinished(tail);
    } else {
      JoinFrames(lines[1..], tail);
      FrameFirstLine(lines[0], Join(lines[1..], tail));
      assert lines == [lines[0]] + lines[1..];
    }
  }

  lemma {:induction false} JoinSnoc(lines: seq<string>, last: string, tail: string)
    ensures Join(lines + [last], tail) == Join(lines, last + [NEWLINE] + tail)
  {
    if lines == [] {
      assert (lines + [last])[1..] == [];
    } else {
      JoinSnoc(lines[1..], last, tail);
      assert (lines + [last])[1..] == lines[1..] + [last];
    }
  }

  lemma {:induction false} JoinAppend(lines: seq<string>, tail: string, more: string)
    ensures Join(lines, tail + more) == Join(lines, tail) + more
  {
    if lines != [] {
      JoinAppend(lines[1..], tail, more);
    }
  }

  lemma {:induction false} FrameJoins(s: string)
    ensures Join(Frame(s).lines, Frame(s).tail) == s
  {
    if s != [] {
      var init, c := s[..|s| - 1], s[|s| - 1];
      var f := Frame(init);
      FrameJoins(init);
      JoinAppend(f.lines, f.tail, [c]);
      assert s == init + [c];
      if c == NEWLINE {
        JoinSnoc(f.lines, f.tail, []);
        assert f.tail + [NEWLINE] + [] == f.tail + [NEWLINE];
      }
    }
  }

  /** The framing of a stream is its one and only split into newline-free lines and tail. */
  lemma FrameIsTheSplit(s: string, lines: seq<string>, tail: string)
    ensures Frame(s) == Framed(lines, tail) <==>
            Join(lines, tail) == s && NEWLINE !in tail && forall l :: l in lines ==> NEWLINE !in l
  {
    FrameJoins(s);
    TailIsUnfinished(s);
    if Join(lines, tail) == s && NEWLINE !in tail && forall l :: l in lines ==> NEWLINE !in l {
      JoinFrames(lines, tail);
    }
  }

  lemma {:induction false} LinesAreNewlines(s: string)
    ensures |Frame(s).lines| == Newlines(s)
  {
    if s != [] {
      LinesAreNewlines(s[..|s| - 1]);
    }
  }

  // ---------------------------------------------------------------- pieces that fit a buffer

  /** Each piece is a possible return of a receive into the free part of a buffer of `size`
      bytes that already holds the unfinished tail: not empty, and no larger than the room. */
  ghost predicate Receivable(size: nat, chunks: seq<string>) {
    forall i :: 0 <= i < |chunks| ==>
      chunks[i] != [] && |Frame(Flatten(chunks[..i])).tail| + |chunks[i]| <= size
  }

  /** Before each byte of the stream there is room for one more. */
  ghost predicate LinesFit(size: nat, stream: string) {
    forall k :: 0 <= k < |stream| ==> |Frame(stream[..k]).tail| < size
  }

  lemma FlattenSnoc(chunks: seq<string>, c: string)
    ensures Flatten(chunks + [c]) == Flatten(chunks) + c
  {
  }

  lemma {:induction false} TailGrowsSlowly(a: string, b: string)
    ensures |Frame(a + b).tail| <= |Frame(a).tail| + |b|
  {
    if b != [] {
      var n := |b| - 1;
      TailGrowsSlowly(a, b[..n]);
      assert a + b == (a + b[..n]) + [b[n]];
      FrameSnoc(a + b[..n], b[n]);
    } else {
      assert a + b == a;
    }
  }

  lemma {:induction false} ReceivableFits(size: nat, chunks: seq<string>)
    requires Receivable(size, chunks)
    ensures LinesFit(size, Flatten(chunks))
  {
    if chunks != [] {
      var n := |chunks| - 1;
      var init := chunks[..n];
      forall i | 0 <= i < n ensures init[i] != [] && |Frame(Flatten(init[..i])).tail| + |init[i]| <= size {
        assert init[..i] == chunks[..i];
      }
      ReceivableFits(size, init);
      LinesFitSnoc(size, Flatten(init), chunks[n]);
    }
  }

  lemma LinesFitSnoc(size: nat, before: string, c: string)
    requires LinesFit(size, before) && |Frame(before).tail| + |c| <= size
    ensures LinesFit(size, before + c)
  {
    forall k | 0 <= k < |before + c| ensures |Frame((before + c)[..k]).tail| < size {
      if k < |before| {
        assert (before + c)[..k] == before[..k];
      } else {
        var part := c[..k - |before|];
        assert (before + c)[..k] == before + part;
        TailGrowsSlowly(before, part);
      }
    }
  }

  lemma ReceivableSnoc(size: nat, chunks: seq<string>, c: string)
    requires Receivable(size, chunks)
    requires c != [] && |Frame(Flatten(chunks)).tail| + |c| <= size
    ensures Receivable(size, chunks + [c])
  {
    var more := chunks + [c];
    forall i | 0 <= i < |more|
      ensures more[i] != [] && |Frame(Flatten(more[..i])).tail| + |more[i]| <= size
    {
      if i < |chunks| {
        assert more[..i] == chunks[..i] && more[i] == chunks[i];
      } else {
        assert more[..i] == chunks;
      }
    }
  }

  lemma OneMore(size: nat, chunks: seq<string>, c: string) returns (more: seq<string>)
    requires Receivable(size, chunks) && |c| == 1 && |Frame(Flatten(chunks)).tail| < size
    ensures Receivable(size, more) && Flatten(more) == Flatten(chunks) + c
  {
    ReceivableSnoc(size, chunks, c);
    FlattenSnoc(chunks, c);
    more := chunks + [c];
  }

  lemma LinesFitShorter(size: nat, stream: string, n: nat)
    requires LinesFit(size, stream) && n <= |stream|
    ensures LinesFit(size, stream[..n])
  {
    forall k | 0 <= k < n ensures |Frame(stream[..n][..k]).tail| < size {
      assert stream[..n][..k] == stream[..k];
    }
  }

  lemma {:induction false} ByteByByte(size: nat, stream: string) returns (chunks: seq<string>)
    requires LinesFit(size, stream)
    ensures Receivable(size, chunks) && Flatten(chunks) == stream
  {
    if stream == [] {
      chunks := [];
    } else {
      var init, last := stream[..|stream| - 1], [stream[|stream| - 1]];
      LinesFitShorter(size, stream, |stream| - 1);
      var before := ByteByByte(size, init);
      chunks := OneMore(size, before, last);
      assert init + last == stream;
    }
  }

  /** A stream can be received in full, in some pieces, exactly when its lines fit; and then no
      choice of pieces gets stuck, because there is room as long as there is something left. */
  lemma ReceivableIffLinesFit(size: nat, stream: string)
    ensures (exists chunks :: Receivable(size, chunks) && Flatten(chunks) == stream) <==> LinesFit(size, stream)
    ensures LinesFit(size, stream) ==>
            forall chunks :: Receivable(size, chunks) && Flatten(chunks) < stream ==>
              |Frame(Flatten(chunks)).tail| < size
  {
    forall chunks | Receivable(size, chunks) && Flatten(chunks) == stream ensures LinesFit(size, stream) {
      ReceivableFits(size, chunks);
    }
    if LinesFit(size, stream) {
      var chunks := ByteByByte(size, stream);
      forall part | Receivable(size, part) && Flatten(part) < stream
        ensures |Frame(Flatten(part)).tail| < size
      {
        assert stream[..|Flatten(part)|] == Flatten(part);
      }
    }
  }

  // ---------------------------------------------------------------- scanning each piece alone

  /** The lines found by a scan that forgets the tail of every piece. */
  function SeenLines(chunks: seq<string>): seq<string> {
    if chunks == [] then []
    else SeenLines(chunks[..|chunks| - 1]) + Frame(chunks[|chunks| - 1]).lines
  }

  /** Only pieces that end a line are followed by another newline. */
  ghost predicate Aligned(chunks: seq<string>) {
    forall i, j :: 0 <= i < j < |chunks| && NEWLINE in chunks[j] ==> Frame(chunks[i]).tail == []
  }

  function TailBytes(chunks: seq<string>): nat {
    if chunks == [] then 0
    else TailBytes(chunks[..|chunks| - 1]) + |Frame(chunks[|chunks| - 1]).tail|
  }

  lemma {:induction false} NoTailBytes(chunks: seq<string>)
    ensures TailBytes(chunks) == 0 <==> forall i :: 0 <= i < |chunks| ==> Frame(chunks[i]).tail == []
  {
    if chunks != [] {
      var n := |chunks| - 1;
      NoTailBytes(chunks[..n]);
      assert chunks == chunks[..n] + [chunks[n]];
    }
  }

  lemma AlignedSnoc(chunks: seq<string>, c: string)
    ensures Aligned(chunks + [c]) <==> Aligned(chunks) && (NEWLINE in c ==> TailBytes(chunks) == 0)
  {
    NoTailBytes(chunks);
    var more := chunks + [c];
    forall i | 0 <= i < |chunks| ensures more[i] == chunks[i] {}
    if Aligned(more) {
      assert Aligned(chunks);
      if NEWLINE in c {
        forall i | 0 <= i < |chunks| ensures Frame(chunks[i]).tail == [] {
          assert NEWLINE in more[|chunks|] && Frame(more[i]).tail == [];
        }
      }
    }
  }

  lemma {:induction false} CutFirstLine(c: string) returns (first: string, rest: string)
    requires NEWLINE in c
    ensures c == first + [NEWLINE] + rest && NEWLINE !in first
  {
    if c[0] == NEWLINE {
      first, rest := [], c[1..];
    } else {
      first, rest := CutFirstLine(c[1..]);
      first := [c[0]] + first;
    }
  }

  lemma FrameWithNewline(before: string, c: string)
    requires NEWLINE in c && NEWLINE !in before
    ensures Frame(c).lines != []
    ensures Frame(before + c) == Framed([before + Frame(c).lines[0]] + Frame(c).lines[1..], Frame(c).tail)
  {
    var first, rest := CutFirstLine(c);
    FrameFirstLine(first, rest);
    assert before + c == (before + first) + [NEWLINE] + rest;
    FrameFirstLine(before + first, rest);
    var lines := Frame(rest).lines;
    assert ([first] + lines)[0] == first && ([first] + lines)[1..] == lines;
  }

  /** Scanning pieces one by one sees the lines of the whole stream exactly when no newline
      follows a piece that ended in mid-line. */
  lemma {:induction false} SeenLinesIffAligned(chunks: seq<string>)
    ensures SeenLines(chunks) == Frame(Flatten(chunks)).lines <==> Aligned(chunks)
    ensures |SeenLines(chunks)| == |Frame(Flatten(chunks)).lines|
    ensures Aligned(chunks) ==> |Frame(Flatten(chunks)).tail| == TailBytes(chunks)
  {
    if chunks != [] {
      var n := |chunks| - 1;
      var init, c := chunks[..n], chunks[n];
      assert chunks == init + [c];
      SeenLinesIffAligned(init);
      AlignedSnoc(init, c);
      var whole := Frame(Flatten(init));
      FrameConcat(Flatten(init), c);
      TailIsUnfinished(Flatten(init));
      if NEWLINE in c {
        FrameWithNewline(whole.tail, c);
        SeenGrows(SeenLines(init), whole.lines, whole.tail, Frame(c).lines);
      } else {
        FrameUnfinished(whole.tail + c);
        FrameUnfinished(c);
        assert whole.lines + [] == whole.lines && SeenLines(init) + [] == SeenLines(init);
      }
    }
  }

  lemma SeenGrows(seen: seq<string>, whole: seq<string>, tail: string, more: seq<string>)
    requires |seen| == |whole| && more != []
    ensures seen + more == whole + ([tail + more[0]] + more[1..]) <==> seen == whole && tail == []
  {
    var left, right := seen + more, whole + ([tail + more[0]] + more[1..]);
    if left == right {
      assert left[..|seen|] == seen && right[..|whole|] == whole;
      assert left[|seen|] == more[0] && right[|whole|] == tail + more[0];
      assert |more[0]| == |tail| + |more[0]|;
    }
    if seen == whole && tail == [] {
      assert tail + more[0] == more[0] && more == [more[0]] + more[1..];
    }
  }
}
