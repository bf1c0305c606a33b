/** The text of a packet: how the client prints it and how the server scans it back. */
module Messages {

  datatype Option<T> = None | Some(value: T)

  // ---------------------------------------------------------------- printing

  function DigitChar(d: nat): char
    requires d < 10
  {
    '0' + d as char
  }

  function Digits(n: nat): string {
    if n < 10 then [DigitChar(n)] else Digits(n / 10) + [DigitChar(n % 10)]
  }

  function Magnitude(n: int): nat {
    if n < 0 then -n else n
  }

  function Decimal(n: int): string {
    if n < 0 then "-" + Digits(Magnitude(n)) else Digits(Magnitude(n))
  }

  function Body(conn: int, id: int): string {
    "TCP:" + Decimal(conn) + " | PACKET:" + Decimal(id)
  }

  function Message(conn: int, id: int): string {
    Body(conn, id) + "\n"
  }

  // ---------------------------------------------------------------- scanning

  predicate IsSpace(c: char) {
    c == ' ' || '\t' <= c <= '\r'
  }

  predicate IsDigit(c: char) {
    '0' <= c <= '9'
  }

  function SkipSpace(s: string): string {
    if s != [] && IsSpace(s[0]) then SkipSpace(s[1..]) else s
  }

  /** The length of the longest run of digits at the front. */
  function DigitRun(s: string): nat
    ensures DigitRun(s) <= |s|
  {
    if s != [] && IsDigit(s[0]) then 1 + DigitRun(s[1..]) else 0
  }

  function Value(ds: string): int {
    if ds == [] then 0 else 10 * Value(ds[..|ds| - 1]) + (ds[|ds| - 1] as int - '0' as int)
  }

  /** An integer conversion: blanks, an optional sign, then as many digits as there are. */
  function ScanInt(s: string): Option<(int, string)> {
    var t := SkipSpace(s);
    var signed := t != [] && (t[0] == '-' || t[0] == '+');
    ScanDigits(if signed then t[1..] else t, signed && t[0] == '-')
  }

  function ScanDigits(s: string, negative: bool): Option<(int, string)> {
    var n := DigitRun(s);
    if n == 0 then None
    else
      var v := Value(s[..n]);
      Some((if negative then -v else v, s[n..]))
  }

  function ScanLiteral(s: string, literal: string): Option<string> {
    if literal <= s then Some(s[|literal|..]) else None
  }

  function ScanLabelled(s: string, literal: string): Option<(int, string)> {
    match ScanLiteral(s, literal)
    case None => None
    case Some(t) => ScanInt(t)
  }

  function ScanBar(s: string): Option<string> {
    match ScanLiteral(SkipSpace(s), "|")
    case None => None
    case Some(t) => Some(SkipSpace(t))
  }

  /** The conversion "TCP:%*d | PACKET:%d": the second integer, when the scan gets that far. */
  function Scan(line: string): Option<int> {
    match ScanLabelled(line, "TCP:")
    case None => None
    case Some((_, afterConn)) => ScanPacket(afterConn)
  }

  function ScanPacket(s: string): Option<int> {
    match ScanBar(s)
    case None => None
    case Some(afterBar) =>
      match ScanLabelled(afterBar, "PACKET:")
      case None => None
      case Some((id, _)) => Some(id)
  }

  // ---------------------------------------------------------------- round trip

  ghost predicate AllDigits(s: string) {
    forall i :: 0 <= i < |s| ==> IsDigit(s[i])
  }

  lemma {:induction false} DigitsAreDigits(n: nat)
    ensures Digits(n) != [] && AllDigits(Digits(n)) && Value(Digits(n)) == n
  {
    if n >= 10 {
      DigitsAreDigits(n / 10);
      assert Digits(n)[..|Digits(n)| - 1] == Digits(n / 10);
    } else {
      assert Digits(n)[..0] == [];
    }
  }

  lemma {:induction false} DigitRunStops(ds: string, rest: string)
    requires AllDigits(ds) && (rest == [] || !IsDigit(rest[0]))
    ensures DigitRun(ds + rest) == |ds|
  {
    if ds == [] {
      assert ds + rest == rest;
    } else {
      assert (ds + rest)[1..] == ds[1..] + rest;
      DigitRunStops(ds[1..], rest);
    }
  }

  lemma ScanDigitsStops(n: int, rest: string)
    requires rest == [] || !IsDigit(rest[0])
    ensures ScanDigits(Digits(Magnitude(n)) + rest, n < 0) == Some((n, rest))
  {
    var ds := Digits(Magnitude(n));
    DigitsAreDigits(Magnitude(n));
    DigitRunStops(ds, rest);
    assert (ds + rest)[..|ds|] == ds && (ds + rest)[|ds|..] == rest;
  }

  lemma ScanUnsigned(s: string)
    requires s != [] && IsDigit(s[0])
    ensures ScanInt(s) == ScanDigits(s, false)
  {
  }

  lemma ScanMinus(s: string)
    ensures ScanInt("-" + s) == ScanDigits(s, true)
  {
  }

  /** Scanning a printed integer gives it back and stops at the first character after it. */
  lemma ScanDecimal(n: int, rest: string)
    requires rest == [] || !IsDigit(rest[0])
    ensures ScanInt(Decimal(n) + rest) == Some((n, rest))
  {
    var ds := Digits(Magnitude(n));
    ScanDigitsStops(n, rest);
    if n < 0 {
      ScanMinus(ds + rest);
      assert "-" + ds + rest == "-" + (ds + rest);
    } else {
      DigitsAreDigits(n);
      ScanUnsigned(ds + rest);
    }
  }

  lemma ScanLabelledDecimal(literal: string, n: int, rest: string)
    requires rest == [] || !IsDigit(rest[0])
    ensures ScanLabelled(literal + (Decimal(n) + rest), literal) == Some((n, rest))
  {
    var s := literal + (Decimal(n) + rest);
    assert s[|literal|..] == Decimal(n) + rest;
    ScanDecimal(n, rest);
  }

  lemma ScanBarSkipsBlanks(rest: string)
    requires rest == [] || !IsSpace(rest[0])
    ensures ScanBar(" | " + rest) == Some(rest)
  {
    var s := " | " + rest;
    var bar := "| " + rest;
    assert s[1..] == bar && bar[1..] == " " + rest && (" " + rest)[1..] == rest;
    assert bar[0] == '|' && SkipSpace(bar) == bar;
    assert SkipSpace(s) == bar;
    assert SkipSpace(rest) == rest;
  }

  lemma ScanPacketRecoversId(id: int, rest: string)
    requires rest == [] || !IsDigit(rest[0])
    ensures ScanPacket(" | " + ("PACKET:" + (Decimal(id) + rest))) == Some(id)
  {
    ScanLabelledDecimal("PACKET:", id, rest);
    ScanBarSkipsBlanks("PACKET:" + (Decimal(id) + rest));
  }

  lemma BodyInParts(conn: int, id: int, rest: string)
    ensures Body(conn, id) + rest ==
            "TCP:" + (Decimal(conn) + (" | " + ("PACKET:" + (Decimal(id) + rest))))
  {
    Regroup("TCP:", Decimal(conn), " | ", "PACKET:", Decimal(id), rest);
    assert " | PACKET:" == " | " + "PACKET:";
  }

  /** Whatever follows the identifier, short of a digit, the scan recovers it. */
  lemma ScanRecoversId(conn: int, id: int, rest: string)
    requires rest == [] || !IsDigit(rest[0])
    ensures Scan(Body(conn, id) + rest) == Some(id)
  {
    ScanPacketRecoversId(id, rest);
    ScanLabelledDecimal("TCP:", conn, " | " + ("PACKET:" + (Decimal(id) + rest)));
    BodyInParts(conn, id, rest);
  }

  /** The scan of the first number gives back the connection, and stops before the second. */
  lemma ScanRecoversConn(conn: int, id: int, rest: string)
    ensures ScanLabelled(Body(conn, id) + rest, "TCP:") ==
            Some((conn, " | " + ("PACKET:" + (Decimal(id) + rest))))
  {
    ScanLabelledDecimal("TCP:", conn, " | " + ("PACKET:" + (Decimal(id) + rest)));
    BodyInParts(conn, id, rest);
  }

  /** So the text determines both numbers. */
  lemma BodyDetermines(conn: int, id: int, conn': int, id': int)
    requires Body(conn, id) == Body(conn', id')
    ensures conn == conn' && id == id'
  {
    ScanRecoversConn(conn, id, "");
    ScanRecoversConn(conn', id', "");
    ScanRecoversId(conn, id, "");
    ScanRecoversId(conn', id', "");
    assert Body(conn, id) + "" == Body(conn, id);
  }

  lemma Regroup(a: string, b: string, c: string, d: string, e: string, f: string)
    ensures a + b + (c + d) + e + f == a + (b + (c + (d + (e + f))))
  {
  }

  // ---------------------------------------------------------------- what the scan accepts

  ghost predicate Blank(s: string) {
    forall i :: 0 <= i < |s| ==> IsSpace(s[i])
  }

  /** A decimal integer with or without a sign. */
  ghost predicate Denotes(s: string, n: int) {
    exists ds :: IsSigned(s, ds, n)
  }

  ghost predicate IsSigned(s: string, ds: string, n: int) {
    && ds != [] && AllDigits(ds)
    && ((s == ds && n == Value(ds)) || (s == "+" + ds && n == Value(ds)) || (s == "-" + ds && n == -Value(ds)))
  }

  predicate StartsWithout(s: string, p: char -> bool) {
    s == [] || !p(s[0])
  }

  /** Blanks, an integer, and then something that does not go on with a digit. */
  ghost predicate IsInt(s: string, blank: string, number: string, n: int, rest: string) {
    s == blank + (number + rest) && Blank(blank) && Denotes(number, n) && StartsWithout(rest, IsDigit)
  }

  /** The parts of a line that the scan accepts. */
  datatype Parts = Parts(
    blank1: string, conn: string, blank2: string, blank3: string, blank4: string, number: string, rest: string)

  /** TCP: and an integer, a bar with or without blanks around it, PACKET: and the integer wanted. */
  ghost predicate IsLine(line: string, p: Parts, id: int) {
    && line == "TCP:" + (p.blank1 + (p.conn + (p.blank2 + ("|" +
               (p.blank3 + ("PACKET:" + (p.blank4 + (p.number + p.rest))))))))
    && Blank(p.blank1) && Blank(p.blank2) && Blank(p.blank3) && Blank(p.blank4)
    && (exists n :: Denotes(p.conn, n)) && Denotes(p.number, id) && StartsWithout(p.rest, IsDigit)
  }

  lemma {:induction false} SkipSpaceSplits(s: string) returns (blank: string)
    ensures s == blank + SkipSpace(s) && Blank(blank) && StartsWithout(SkipSpace(s), IsSpace)
  {
    if s != [] && IsSpace(s[0]) {
      var more := SkipSpaceSplits(s[1..]);
      blank := [s[0]] + more;
      assert s == [s[0]] + s[1..];
    } else {
      blank := [];
    }
  }

  lemma {:induction false} SkipSpaceSkips(blank: string, rest: string)
    requires Blank(blank) && StartsWithout(rest, IsSpace)
    ensures SkipSpace(blank + rest) == rest
  {
    if blank == [] {
      assert blank + rest == rest;
    } else {
      assert (blank + rest)[1..] == blank[1..] + rest;
      SkipSpaceSkips(blank[1..], rest);
    }
  }

  lemma {:induction false} DigitRunIsDigits(s: string)
    ensures AllDigits(s[..DigitRun(s)]) && StartsWithout(s[DigitRun(s)..], IsDigit)
  {
    if s != [] && IsDigit(s[0]) {
      DigitRunIsDigits(s[1..]);
      assert s[..DigitRun(s)] == [s[0]] + s[1..][..DigitRun(s[1..])];
    }
  }

  lemma ScanDigitsSplits(s: string, negative: bool, n: int, rest: string) returns (ds: string)
    requires ScanDigits(s, negative) == Some((n, rest))
    ensures s == ds + rest && ds != [] && AllDigits(ds) && StartsWithout(rest, IsDigit)
    ensures n == if negative then -Value(ds) else Value(ds)
  {
    ds := s[..DigitRun(s)];
    DigitRunIsDigits(s);
    assert s == ds + s[DigitRun(s)..];
  }

  lemma SignSplits(sign: string, s: string, n: int, rest: string) returns (number: string)
    requires sign in ["", "+", "-"] && ScanDigits(s, sign == "-") == Some((n, rest))
    ensures sign + s == number + rest && Denotes(number, n) && StartsWithout(rest, IsDigit)
  {
    var ds := ScanDigitsSplits(s, sign == "-", n, rest);
    number := sign + ds;
    Grouped(sign, ds, rest);
    SignDenotes(sign, ds);
  }

  lemma Grouped(a: string, b: string, c: string)
    ensures a + b + c == a + (b + c)
  {
  }

  lemma SignDenotes(sign: string, ds: string)
    requires sign in ["", "+", "-"] && ds != [] && AllDigits(ds)
    ensures Denotes(sign + ds, if sign == "-" then -Value(ds) else Value(ds))
  {
    if sign == "" {
      assert sign + ds == ds;
    }
    assert IsSigned(sign + ds, ds, if sign == "-" then -Value(ds) else Value(ds));
  }

  lemma ScanIntSplits(s: string, n: int, rest: string) returns (blank: string, number: string)
    requires ScanInt(s) == Some((n, rest))
    ensures IsInt(s, blank, number, n, rest)
  {
    blank := SkipSpaceSplits(s);
    var t := SkipSpace(s);
    if t != [] && (t[0] == '-' || t[0] == '+') {
      assert t == [t[0]] + t[1..];
      number := SignSplits([t[0]], t[1..], n, rest);
    } else {
      assert "" + t == t;
      number := SignSplits("", t, n, rest);
    }
  }

  lemma ScanDigitsJoins(ds: string, negative: bool, rest: string)
    requires ds != [] && AllDigits(ds) && StartsWithout(rest, IsDigit)
    ensures ScanDigits(ds + rest, negative) == Some((if negative then -Value(ds) else Value(ds), rest))
  {
    DigitRunStops(ds, rest);
    assert (ds + rest)[..|ds|] == ds && (ds + rest)[|ds|..] == rest;
  }

  lemma ScanIntJoins(s: string, blank: string, number: string, n: int, rest: string)
    requires IsInt(s, blank, number, n, rest)
    ensures ScanInt(s) == Some((n, rest))
  {
    var ds :| IsSigned(number, ds, n);
    var t := number + rest;
    SkipSpaceSkips(blank, t);
    ScanDigitsJoins(ds, number == "-" + ds, rest);
    if number != ds {
      assert t[1..] == ds + rest;
    }
  }

  lemma ScanBarSplits(s: string, t: string) returns (before: string, after: string)
    requires ScanBar(s) == Some(t)
    ensures s == before + ("|" + (after + t)) && Blank(before) && Blank(after)
  {
    before := SkipSpaceSplits(s);
    var u := SkipSpace(s);
    assert u == "|" + u[1..];
    after := SkipSpaceSplits(u[1..]);
  }

  lemma ScanBarJoins(before: string, after: string, t: string)
    requires Blank(before) && Blank(after) && StartsWithout(t, IsSpace)
    ensures ScanBar(before + ("|" + (after + t))) == Some(t)
  {
    var bar := "|" + (after + t);
    SkipSpaceSkips(before, bar);
    assert bar[1..] == after + t;
    SkipSpaceSkips(after, t);
  }

  lemma ScanLabelledSplits(s: string, literal: string, n: int, rest: string) returns (blank: string, number: string)
    requires ScanLabelled(s, literal) == Some((n, rest))
    ensures s == literal + (blank + (number + rest)) && Blank(blank) && Denotes(number, n)
    ensures StartsWithout(rest, IsDigit)
  {
    blank, number := ScanIntSplits(s[|literal|..], n, rest);
    assert s == literal + s[|literal|..];
  }

  lemma ScanLabelledJoins(literal: string, blank: string, number: string, n: int, rest: string)
    requires Blank(blank) && Denotes(number, n) && StartsWithout(rest, IsDigit)
    ensures ScanLabelled(literal + (blank + (number + rest)), literal) == Some((n, rest))
  {
    var s := blank + (number + rest);
    assert (literal + s)[|literal|..] == s;
    ScanIntJoins(s, blank, number, n, rest);
  }

  lemma ScanSplits(line: string, id: int) returns (p: Parts)
    requires Scan(line) == Some(id)
    ensures IsLine(line, p, id)
  {
    var conn, afterConn := ScanLabelled(line, "TCP:").value.0, ScanLabelled(line, "TCP:").value.1;
    var blank1, number1 := ScanLabelledSplits(line, "TCP:", conn, afterConn);
    var afterBar := ScanBar(afterConn).value;
    var blank2, blank3 := ScanBarSplits(afterConn, afterBar);
    var rest := ScanLabelled(afterBar, "PACKET:").value.1;
    var blank4, number2 := ScanLabelledSplits(afterBar, "PACKET:", id, rest);
    p := Parts(blank1, number1, blank2, blank3, blank4, number2, rest);
  }

  lemma ScanJoins(line: string, p: Parts, id: int)
    requires IsLine(line, p, id)
    ensures Scan(line) == Some(id)
  {
    var n :| Denotes(p.conn, n);
    var packet := "PACKET:" + (p.blank4 + (p.number + p.rest));
    var bar := p.blank2 + ("|" + (p.blank3 + packet));
    assert bar[0] == if p.blank2 == [] then '|' else p.blank2[0];
    ScanLabelledJoins("TCP:", p.blank1, p.conn, n, bar);
    assert packet[0] == 'P';
    ScanBarJoins(p.blank2, p.blank3, packet);
    ScanLabelledJoins("PACKET:", p.blank4, p.number, id, p.rest);
  }

  /** Which lines the scan accepts, and the number it takes from them. */
  lemma ScanIff(line: string, id: int)
    ensures Scan(line) == Some(id) <==> exists p :: IsLine(line, p, id)
  {
    if Scan(line) == Some(id) {
      var p := ScanSplits(line, id);
    }
    forall p | IsLine(line, p, id) ensures Scan(line) == Some(id) {
      ScanJoins(line, p, id);
    }
  }

  ghost predicate Plain(s: string) {
    forall i :: 0 <= i < |s| ==> s[i] != '\n' && s[i] != '\0'
  }

  lemma DecimalIsPlain(n: int)
    ensures Plain(Decimal(n))
  {
    DigitsAreDigits(Magnitude(n));
  }

  /** A printed body holds no newline and no NUL. */
  lemma BodyIsPlain(conn: int, id: int)
    ensures Plain(Body(conn, id))
  {
    DecimalIsPlain(conn);
    DecimalIsPlain(id);
  }

  // ---------------------------------------------------------------- the 50-byte buffer

  const MSG_SIZE := 50

  function Pow10(k: nat): nat {
    if k == 0 then 1 else 10 * Pow10(k - 1)
  }

  lemma {:induction false} DigitsLength(n: nat, k: nat)
    requires k >= 1 && n < Pow10(k)
    ensures |Digits(n)| <= k
  {
    if n >= 10 {
      DigitsLength(n / 10, k - 1);
    }
  }

  /** With 32-bit numbers the message and its terminating NUL fit the buffer. */
  lemma MessageFits(conn: int, id: int)
    requires -0x8000_0000 <= conn < 0x8000_0000 && -0x8000_0000 <= id < 0x8000_0000
    ensures |Message(conn, id)| + 1 <= MSG_SIZE
  {
    assert Pow10(10) == 100000 * Pow10(5) && Pow10(5) == 100000;
    DigitsLength(Magnitude(conn), 10);
    DigitsLength(Magnitude(id), 10);
  }
}
