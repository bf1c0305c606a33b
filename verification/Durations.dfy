/** Whose time the connection server records when it closes a connection: the variables for the first and
    the last read of the non-persistent slot outlive the connection in it. */
module Durations {
  import opened Statistics
  import opened ConnectionModel
  import opened ConnectionRuns

  /** When the connection in the slot was read first and last, if it was. */
  datatype Span = Unread | Between(first: real, last: real)

  ghost function NextSpan(span: Span, s: State, e: Event, t: State): Span {
    if t.books.releases > s.books.releases then Unread
    else if e.Data? && t.tally.nonPerReads > s.tally.nonPerReads then
      Between(if span.Unread? then e.now else span.first, e.now)
    else span
  }

  /** The reads counted for the slot since it was last emptied, among the first k events. */
  ghost function ReadSpan(events: seq<Event>, states: seq<State>, k: nat): Span
    requires k <= |events| && |states| == |events| + 1
  {
    if k == 0 then Unread
    else NextSpan(ReadSpan(events, states, k - 1), states[k - 1], events[k - 1], states[k])
  }

  function LastDuration(history: seq<Closed>): real {
    if history == [] then 0.0 else history[|history| - 1].duration
  }

  /** The variables hold the times of this connection, or those that were recorded last. */
  ghost predicate Timed(s: State, span: Span) {
    match span
    case Unread =>
      !s.times.conn2Started && s.tally.nonPerReads == 0 &&
      s.times.conn2End - s.times.conn2Start == LastDuration(s.history)
    case Between(first, last) =>
      s.times.conn2Started && s.tally.nonPerReads > 0 && s.times.conn2Start == first && s.times.conn2End == last
  }

  lemma ReadKeepsTimed(cap: nat, s: State, fd: nat, bytes: nat, isP: bool, now: real, span: Span)
    requires Timed(s, span)
    ensures var t := Read(cap, s, fd, bytes, isP, now); Timed(t, NextSpan(span, s, Data(fd, bytes, isP, now), t))
  {
    var t := if fd == s.persistentFd && !isP then Demote(cap, s) else s;
    assert Timed(t, span) && t.tally.nonPerReads == s.tally.nonPerReads;
    CountKeepsTimed(t, bytes, now, span);
  }

  lemma CountKeepsTimed(s: State, bytes: nat, now: real, span: Span)
    requires Timed(s, span)
    ensures var t := CountPersistent(s, bytes, now);
            Timed(t, span) && t.tally.nonPerReads == s.tally.nonPerReads && t.books == s.books
    ensures var t := CountNonPersistent(s, bytes, now);
            && Timed(t, Between(if span.Unread? then now else span.first, now))
            && t.tally.nonPerReads > s.tally.nonPerReads && t.books == s.books
  {
  }

  lemma ClosingKeepsTimed(s: State, gone: int, addOk: bool)
    ensures Timed(Promote(Release(Drop(s, gone)), addOk), Unread)
  {
  }

  lemma HangUpKeepsTimed(s: State, fd: nat, addOk: bool, span: Span)
    requires Timed(s, span)
    ensures var t := HangUp(s, fd, addOk); Timed(t, NextSpan(span, s, Hangup(fd, addOk), t))
  {
    ClosingRecords(s, fd, addOk);
    ClosingKeepsTimed(s, fd, addOk);
  }

  lemma StepKeepsTimed(cap: nat, s: State, e: Event, t: State, span: Span)
    requires Follows(cap, s, e, t) && Timed(s, span)
    ensures Timed(t, NextSpan(span, s, e, t))
  {
    match e
    case Arrival(_, _) =>
    case Data(fd, bytes, isP, now) => ReadKeepsTimed(cap, s, fd, bytes, isP, now, span);
    case Hangup(fd, addOk) => HangUpKeepsTimed(s, fd, addOk, span);
    case Tick(now, addOk) =>
      if Inactive(s, now) {
        ClosingRecords(s, s.nonPersistentFd, addOk);
        ClosingKeepsTimed(s, s.nonPersistentFd, addOk);
      }
    case Stop =>
  }

  lemma NothingTimed(events: seq<Event>, states: seq<State>)
    requires |states| == |events| + 1
    requires states[0].history == [] && states[0].tally == ZERO_TALLY
    requires states[0].times == Times(false, 0.0, false, 0.0, 0.0)
    ensures Timed(states[0], ReadSpan(events, states, 0))
  {
  }

  lemma NextTimed(cap: nat, events: seq<Event>, states: seq<State>, k: nat)
    requires IsRun(cap, events, states) && k < |events| && Timed(states[k], ReadSpan(events, states, k))
    ensures Timed(states[k + 1], ReadSpan(events, states, k + 1))
  {
    assert FollowsAt(cap, events, states, k);
    StepKeepsTimed(cap, states[k], events[k], states[k + 1], ReadSpan(events, states, k));
  }

  lemma {:induction false} TimesKept(cap: nat, events: seq<Event>, states: seq<State>, k: nat)
    requires IsRun(cap, events, states) && k <= |events|
    ensures Timed(states[k], ReadSpan(events, states, k))
  {
    if k == 0 {
      NothingTimed(events, states);
    } else {
      TimesKept(cap, events, states, k - 1);
      NextTimed(cap, events, states, k - 1);
    }
  }

  /** In every run, for the connection that event m closes: what is recorded is the time from its first to
      its last read exactly when it was read; otherwise it is the time recorded for the connection before. */
  lemma DurationIsOwnIff(cap: nat, events: seq<Event>, states: seq<State>, m: nat)
    requires IsRun(cap, events, states) && m < |events|
    requires states[m + 1].books.releases > states[m].books.releases
    ensures var before, h, span := states[m].history, states[m + 1].history, ReadSpan(events, states, m);
            && |h| == |before| + 1 && h[..|before|] == before
            && (span.Between? <==> h[|before|].tally.nonPerReads > 0)
            && h[|before|].duration == if span.Between? then span.last - span.first else LastDuration(before)
  {
    TimesKept(cap, events, states, m);
    assert FollowsAt(cap, events, states, m);
    HistoryStep(cap, states[m], events[m], states[m + 1]);
  }

  /** An entry without a read repeats the duration of the one before it. */
  ghost predicate UnreadRepeats(history: seq<Closed>) {
    forall i :: 0 <= i < |history| && history[i].tally.nonPerReads == 0 ==>
      history[i].duration == LastDuration(history[..i])
  }

  lemma RepeatsSnoc(history: seq<Closed>, c: Closed)
    requires UnreadRepeats(history) && (c.tally.nonPerReads == 0 ==> c.duration == LastDuration(history))
    ensures UnreadRepeats(history + [c])
  {
    forall i | 0 <= i <= |history| ensures (history + [c])[..i] == history[..i] {
    }
    assert history[..|history|] == history;
  }

  lemma NextRepeats(s: State, t: State, span: Span)
    requires Records(s, t) && Timed(s, span) && UnreadRepeats(s.history)
    ensures UnreadRepeats(t.history)
  {
    RepeatsSnoc(s.history, Recorded(s));
  }

  lemma {:induction false} UnreadEntriesRepeat(cap: nat, events: seq<Event>, states: seq<State>, k: nat)
    requires IsRun(cap, events, states) && k <= |events|
    ensures UnreadRepeats(states[k].history)
  {
    if k > 0 {
      UnreadEntriesRepeat(cap, events, states, k - 1);
      TimesKept(cap, events, states, k - 1);
      assert FollowsAt(cap, events, states, k - 1);
      HistoryStep(cap, states[k - 1], events[k - 1], states[k]);
      NextRepeats(states[k - 1], states[k], ReadSpan(events, states, k - 1));
    }
  }

  // ---------------------------------------------------------------- since when a connection waits

  /** Whether the persistent slot has been read since its connection came, and the time of its first read,
      or else that of an earlier connection. */
  datatype First = First(started: bool, at: real)

  ghost function NextFirst(f: First, s: State, e: Event): First {
    if (e.Hangup? && e.fd == s.persistentFd) || (e.Data? && e.fd == s.persistentFd && !e.isP) then f.(started := false)
    else if e.Data? && e.fd == s.persistentFd && !f.started then First(true, e.now)
    else f
  }

  ghost function FirstRead(events: seq<Event>, states: seq<State>, k: nat): First
    requires k <= |events| && |states| == |events| + 1
  {
    if k == 0 then First(false, 0.0)
    else NextFirst(FirstRead(events, states, k - 1), states[k - 1], events[k - 1])
  }

  /** The time from which a connection's patience is counted: its accept, or, when it has been moved on
      from the persistent slot, the first read there. */
  ghost function NextJoined(f: First, s: State, e: Event, fd: int, joined: real): real {
    if e.Arrival? && e.client == fd then e.now
    else if e.Data? && e.fd == fd && fd == s.persistentFd && !e.isP then f.at
    else joined
  }

  ghost function Joined(events: seq<Event>, states: seq<State>, k: nat, fd: int): real
    requires k <= |events| && |states| == |events| + 1
  {
    if k == 0 then 0.0
    else
      NextJoined(FirstRead(events, states, k - 1), states[k - 1], events[k - 1], fd, Joined(events, states, k - 1, fd))
  }

  /** The times kept for the slot and the queue are those of the connections there. */
  ghost predicate Since(s: State, f: First, joined: int -> real) {
    && s.times.conn1Started == f.started && s.times.conn1Start == f.at
    && (s.nonPersistentFd != NO_FD ==> s.nonPerSince == joined(s.nonPersistentFd))
    && forall i :: 0 <= i < |s.queue| ==> s.queue[i].since == joined(s.queue[i].fd)
  }

  ghost predicate Moves(f: First, s: State, e: Event, joined: int -> real, next: int -> real) {
    forall fd :: next(fd) == NextJoined(f, s, e, fd, joined(fd))
  }

  lemma ArrivalKeepsSince(
    cap: nat, s: State, client: int, now: real, f: First, joined: int -> real, next: int -> real)
    requires Inv(cap, s) && Possible(s, Arrival(client, now)) && Since(s, f, joined)
    requires Moves(f, s, Arrival(client, now), joined, next)
    ensures Since(Accept(cap, s, client, now), f, next)
  {
    forall i | 0 <= i < |s.queue| ensures s.queue[i].since == next(s.queue[i].fd) {
      QueuedIn(s, i);
    }
  }

  lemma ReadKeepsSince(cap: nat, s: State, e: Event, t: State, f: First, joined: int -> real, next: int -> real)
    requires Inv(cap, s) && e.Data? && Linked(cap, s, e, t) && Since(s, f, joined) && Moves(f, s, e, joined, next)
    ensures Since(t, NextFirst(f, s, e), next)
  {
  }

  lemma ClosingKeepsSince(cap: nat, s: State, addOk: bool, f: First, joined: int -> real)
    requires Inv(cap, s) && Since(s, f, joined)
    ensures Since(Promote(Release(Drop(s, s.nonPersistentFd)), addOk), f, joined)
  {
  }

  lemma HangUpKeepsSince(cap: nat, s: State, fd: nat, addOk: bool, f: First, joined: int -> real)
    requires Inv(cap, s) && Since(s, f, joined)
    ensures Since(HangUp(s, fd, addOk), NextFirst(f, s, Hangup(fd, addOk)), joined)
  {
    if fd == s.nonPersistentFd {
      ClosingKeepsSince(cap, s, addOk, f, joined);
    }
  }

  lemma SameSince(s: State, f: First, joined: int -> real, next: int -> real)
    requires Since(s, f, joined) && forall fd :: next(fd) == joined(fd)
    ensures Since(s, f, next)
  {
  }

  lemma StepKeepsSince(cap: nat, s: State, e: Event, t: State, f: First, joined: int -> real, next: int -> real)
    requires Inv(cap, s) && Linked(cap, s, e, t) && Since(s, f, joined) && Moves(f, s, e, joined, next)
    ensures Since(t, NextFirst(f, s, e), next)
  {
    match e
    case Arrival(client, now) => ArrivalKeepsSince(cap, s, client, now, f, joined, next);
    case Data(_, _, _, _) => ReadKeepsSince(cap, s, e, t, f, joined, next);
    case Hangup(fd, addOk) =>
      HangUpKeepsSince(cap, s, fd, addOk, f, joined);
      SameSince(t, NextFirst(f, s, e), joined, next);
    case Tick(now, addOk) =>
      ClosingKeepsSince(cap, s, addOk, f, joined);
      SameSince(t, f, joined, next);
    case Stop => SameSince(t, f, joined, next);
  }

  ghost predicate SinceAt(events: seq<Event>, states: seq<State>, k: nat)
    requires k <= |events| && |states| == |events| + 1
  {
    Since(states[k], FirstRead(events, states, k), fd => Joined(events, states, k, fd))
  }

  lemma NextSince(cap: nat, events: seq<Event>, states: seq<State>, k: nat)
    requires PossibleRun(cap, events, states) && 0 < k <= |events| && SinceAt(events, states, k - 1)
    ensures SinceAt(events, states, k)
  {
    ConnectionsInOrder(cap, events, states, k - 1);
    assert FollowsAt(cap, events, states, k - 1) && PossibleAt(events, states, k - 1);
    var f := FirstRead(events, states, k - 1);
    StepKeepsSince(cap, states[k - 1], events[k - 1], states[k], f,
      fd => Joined(events, states, k - 1, fd), fd => Joined(events, states, k, fd));
  }

  lemma StartSince(events: seq<Event>, states: seq<State>, k: nat)
    requires |states| == |events| + 1 && k == 0
    requires states[k].times == Times(false, 0.0, false, 0.0, 0.0)
    requires states[k].nonPersistentFd == NO_FD && states[k].queue == []
    ensures SinceAt(events, states, k)
  {
  }

  /** In every possible run the time that decides whether a connection is idle for too long is that of its
      accept, or of the first read in the persistent slot it has been moved on from. */
  lemma {:induction false} SinceKept(cap: nat, events: seq<Event>, states: seq<State>, k: nat)
    requires PossibleRun(cap, events, states) && k <= |events|
    ensures SinceAt(events, states, k)
  {
    if k == 0 {
      StartSince(events, states, k);
    } else {
      SinceKept(cap, events, states, k - 1);
      NextSince(cap, events, states, k);
    }
  }

  // ---------------------------------------------------------------- a time recorded twice

  lemma FourSeconds() returns (s1: State, s2: State, s3: State, s4: State)
    ensures Linked(10, START, Arrival(5, 0.0), s1) && Linked(10, s1, Arrival(6, 0.0), s2)
    ensures Linked(10, s2, Data(6, 1, false, 1.0), s3) && Linked(10, s3, Data(6, 1, false, 5.0), s4)
    ensures s4.persistentFd == 5 && s4.nonPersistentFd == 6 && s4.queue == [] && s4.registered == {5, 6}
    ensures s4.times.conn2End - s4.times.conn2Start == 4.0 && s4.history == []
  {
    s1 := Handle(10, START, Arrival(5, 0.0));
    s2 := Handle(10, s1, Arrival(6, 0.0));
    s3 := Handle(10, s2, Data(6, 1, false, 1.0));
    s4 := Handle(10, s3, Data(6, 1, false, 5.0));
  }

  /** Connection 6 goes and connection 7 comes. */
  lemma ChangeOver(s4: State) returns (s5: State, s6: State)
    requires s4.persistentFd == 5 && s4.nonPersistentFd == 6 && s4.queue == [] && s4.registered == {5, 6}
    requires s4.times.conn2End - s4.times.conn2Start == 4.0 && s4.history == []
    ensures Linked(10, s4, Hangup(6, true), s5) && Linked(10, s5, Arrival(7, 6.0), s6)
    ensures s6.nonPersistentFd == 7 && s6.persistentFd == 5 && s6.queue == [] && s6.tally.nonPerReads == 0
    ensures s6.times.conn2End - s6.times.conn2Start == 4.0 && |s6.history| == 1 && s6.history[0].duration == 4.0
  {
    s5 := Handle(10, s4, Hangup(6, true));
    s6 := Handle(10, s5, Arrival(7, 6.0));
  }

  /** It goes without a read. */
  lemma GoneUnread(s6: State) returns (s7: State)
    requires s6.nonPersistentFd == 7 && s6.persistentFd == 5 && s6.queue == [] && s6.tally.nonPerReads == 0
    requires s6.times.conn2End - s6.times.conn2Start == 4.0 && |s6.history| == 1 && s6.history[0].duration == 4.0
    ensures Linked(10, s6, Hangup(7, true), s7)
    ensures |s7.history| == 2 && s7.history[0].duration == s7.history[1].duration == 4.0
    ensures s7.history[1].tally.nonPerReads == 0
  {
    s7 := Handle(10, s6, Hangup(7, true));
  }

  lemma FourSecondRun() returns (events: seq<Event>, states: seq<State>)
    ensures PossibleRun(10, events, states)
    ensures var s := states[|events|];
            && s.persistentFd == 5 && s.nonPersistentFd == 6 && s.queue == [] && s.registered == {5, 6}
            && s.times.conn2End - s.times.conn2Start == 4.0 && s.history == []
  {
    var s1, s2, s3, s4 := FourSeconds();
    events, states := [], [START];
    events, states := Extend(events, states, Arrival(5, 0.0), s1);
    events, states := Extend(events, states, Arrival(6, 0.0), s2);
    events, states := Extend(events, states, Data(6, 1, false, 1.0), s3);
    events, states := Extend(events, states, Data(6, 1, false, 5.0), s4);
  }

  /** The second connection is never read, and is recorded with the 4 seconds of the first. */
  lemma UnreadTakesFourSeconds() returns (events: seq<Event>, states: seq<State>)
    ensures PossibleRun(10, events, states)
    ensures var h := states[|events|].history;
            |h| == 2 && h[1].tally.nonPerReads == 0 && h[0].duration == h[1].duration == 4.0
  {
    events, states := FourSecondRun();
    var s5, s6 := ChangeOver(states[|events|]);
    var s7 := GoneUnread(s6);
    events, states := Extend(events, states, Hangup(6, true), s5);
    events, states := Extend(events, states, Arrival(7, 6.0), s6);
    events, states := Extend(events, states, Hangup(7, true), s7);
  }
}
