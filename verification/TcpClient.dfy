/** The client's TCP worker run against a scripted kernel
    (desktop/client/src/tcpservice.cpp). The script says what every load of
    `m_stop` and every system call returns; a run is observed until it ends or
    the script does, so every finite observation of the worker is covered. */
module TcpClient {
  import opened Bits
  import opened Wrappers

  /** What one `read` call does: hand out up to `n` bytes, or fail. */
  datatype Answer = Chunk(n: nat) | Interrupted | EndOfStream | Broken

  datatype ReadResult = Data(bytes: seq<Byte>) | Eintr | Eof | Fail | Blocked

  /** The bytes a peer sends on one connection, how many were handed out, and
      whether a `read` on it reported the end of the stream or an error. */
  datatype Session = Session(stream: seq<Byte>, pos: nat, failed: bool)

  datatype Connect = Refused | Accepted(stream: seq<Byte>)

  datatype FdEvent = Opened(fd: int) | Closed(fd: int)

  datatype Outcome = Stopped | NoSocket | StillRunning

  /** The complete blocks of `n` bytes at the front of `s`. */
  function Blocks(s: seq<Byte>, n: nat): (b: seq<seq<Byte>>)
    requires n > 0
  {
    if |s| < n then [] else [s[..n]] + Blocks(s[n..], n)
  }

  /** Opens and closes alternate, and every close is of the last opened descriptor. */
  predicate Paired(ev: seq<FdEvent>) {
    ev == [] ||
    (|ev| >= 2 && ev[|ev| - 2].Opened? && ev[|ev| - 1] == Closed(ev[|ev| - 2].fd) && Paired(ev[..|ev| - 2]))
  }

  ghost predicate Matching(published: seq<seq<seq<Byte>>>, sessions: seq<Session>, n: nat)
    requires n > 0
  {
    && |published| == |sessions|
    && forall i :: 0 <= i < |published| ==>
         sessions[i].pos <= |sessions[i].stream| && published[i] == Blocks(sessions[i].stream[..sessions[i].pos], n)
  }

  /** A connection is given up when a `read` on it failed or the stop flag was
      seen, and never used after a failure. */
  ghost predicate GivenUp(sessions: seq<Session>, stopSeen: bool, inUse: bool) {
    && (inUse ==> sessions != [] && !sessions[|sessions| - 1].failed)
    && forall i :: 0 <= i < |sessions| && !(inUse && i == |sessions| - 1) ==> sessions[i].failed || stopSeen
  }

  /** The streams of the peers that accepted, in order. */
  function Streams(used: seq<Connect>): seq<seq<Byte>> {
    if used == [] then []
    else
      var c := used[|used| - 1];
      Streams(used[..|used| - 1]) + match c { case Accepted(s) => [s] case Refused => [] }
  }

  function StreamsOf(sessions: seq<Session>): (s: seq<seq<Byte>>)
    ensures |s| == |sessions| && forall i :: 0 <= i < |s| ==> s[i] == sessions[i].stream
  {
    seq(|sessions|, i requires 0 <= i < |sessions| => sessions[i].stream)
  }

  function Opens(ev: seq<FdEvent>): nat {
    if ev == [] then 0 else Opens(ev[..|ev| - 1]) + if ev[|ev| - 1].Opened? then 1 else 0
  }

  /** Each descriptor opened was used for one `connect`, but for `cut` of them, and
      the connections are those of the peers that accepted. */
  ghost predicate Dialled(used: seq<Connect>, sessions: seq<Session>, ev: seq<FdEvent>, cut: nat) {
    StreamsOf(sessions) == Streams(used) && Opens(ev) == |used| + cut
  }

  /** The frame published last, looking at the newest connection first. */
  function Latest(published: seq<seq<seq<Byte>>>, initial: seq<Byte>): seq<Byte> {
    if published == [] then initial
    else
      var last := published[|published| - 1];
      if last != [] then last[|last| - 1] else Latest(published[..|published| - 1], initial)
  }

  class Kernel {
    var stops: seq<bool>
    var sockets: seq<int>
    var connects: seq<Connect>
    var answers: seq<Answer>
    ghost var sessions: seq<Session>
    ghost var events: seq<FdEvent>
    ghost var used: seq<Connect>
    ghost var stopSeen: bool
    var stream: seq<Byte>

    // The protocol of the calls.
    ghost var go: bool         // the last load of `m_stop` was false, and nothing was called since
    ghost var trues: nat       // loads in a row that were true
    ghost var starved: bool    // a call found no answer: the observation ends here
    ghost var refused: bool    // `socket` failed

    ghost predicate Ready()
      reads this
    {
      !starved && !refused
    }

    ghost predicate Current()
      reads this
    {
      && sessions != []
      && var c := sessions[|sessions| - 1];
      && c.pos <= |c.stream| && stream == c.stream[c.pos..]
    }

    /** The worker does not go on after a true load at the head of its loop, so two
        in a row are the most it makes. */
    method LoadStop() returns (r: Option<bool>)
      requires Ready() && trues < 2
      modifies this`stops, this`stopSeen, this`go, this`trues, this`starved
      ensures r.Some? ==> old(stops) != [] && r.value == old(stops)[0] && stops == old(stops)[1..]
      ensures r.None? ==> stops == old(stops) == []
      ensures stopSeen == (old(stopSeen) || r == Some(true)) && go == (r == Some(false)) && starved == r.None?
      ensures trues == if r == Some(true) then old(trues) + 1 else 0
    {
      trues, go := if stops != [] && stops[0] then trues + 1 else 0, false;
      if stops == [] { starved := true; return None; }
      r, stops := Some(stops[0]), stops[1..];
      stopSeen, go := stopSeen || r.value, !r.value;
    }

    method Socket() returns (r: Option<int>)
      requires Ready() && go
      modifies this`sockets, this`events, this`go, this`starved, this`refused
      ensures r.Some? && r.value >= 0 ==> events == old(events) + [Opened(r.value)]
      ensures r.None? || r.value < 0 ==> events == old(events)
      ensures starved == r.None? && refused == (r.Some? && r.value < 0)
    {
      go := false;
      if sockets == [] { starved := true; return None; }
      r, sockets := Some(sockets[0]), sockets[1..];
      if r.value >= 0 { events := events + [Opened(r.value)]; } else { refused := true; }
    }

    method Close(fd: int)
      modifies this`events
      ensures events == old(events) + [Closed(fd)]
    {
      events := events + [Closed(fd)];
    }

    method Connect() returns (r: Option<bool>)
      requires Ready()
      modifies this`connects, this`sessions, this`stream, this`used, this`starved
      ensures r == Some(true) ==> Current() && sessions == old(sessions) + [Session(stream, 0, false)]
      ensures r != Some(true) ==> sessions == old(sessions)
      ensures starved == r.None?
      ensures r.None? ==> used == old(used)
      ensures r.Some? ==>
                && old(connects) != [] && connects == old(connects)[1..] && used == old(used) + [old(connects)[0]]
                && old(connects)[0] == if r.value then Accepted(stream) else Refused
    {
      if connects == [] { starved := true; return None; }
      var c := connects[0];
      connects, used := connects[1..], used + [c];
      match c {
        case Refused => r := Some(false);
        case Accepted(bytes) =>
          stream, sessions := bytes, sessions + [Session(bytes, 0, false)];
          r := Some(true);
      }
    }

    ghost method MarkFailed()
      requires sessions != []
      modifies this`sessions
      ensures sessions == old(sessions[|sessions| - 1 := sessions[|sessions| - 1].(failed := true)])
    {
      sessions := sessions[|sessions| - 1 := sessions[|sessions| - 1].(failed := true)];
    }

    method Take(k: nat) returns (bytes: seq<Byte>)
      requires Current() && 1 <= k <= |stream|
      modifies this`sessions, this`stream
      ensures |bytes| == k && Current()
      ensures var c := old(sessions[|sessions| - 1]);
              && sessions == old(sessions)[|old(sessions)| - 1 := c.(pos := c.pos + k)]
              && c.pos + k <= |c.stream| && bytes == c.stream[c.pos..c.pos + k]
    {
      ghost var c := sessions[|sessions| - 1];
      HandOut(c.stream, c.pos, k);
      bytes, stream := stream[..k], stream[k..];
      sessions := sessions[|sessions| - 1 := c.(pos := c.pos + k)];
    }

    /** Never more than `room` bytes, never none; waits when nothing has arrived. */
    method Read(room: nat) returns (r: ReadResult)
      requires room > 0 && Current() && Ready() && go
      modifies this`answers, this`sessions, this`stream, this`go, this`starved
      ensures Current() && |sessions| == |old(sessions)|
      ensures sessions[..|sessions| - 1] == old(sessions)[..|sessions| - 1]
      ensures var was, now := old(sessions)[|sessions| - 1], sessions[|sessions| - 1];
              && now.stream == was.stream
              && (r.Data? ==> 1 <= |r.bytes| <= room && now.pos == was.pos + |r.bytes|
                              && r.bytes == now.stream[was.pos..now.pos])
              && (!r.Data? ==> now.pos == was.pos)
              && now.failed == (was.failed || r.Eof? || r.Fail?)
      ensures starved == r.Blocked?
    {
      go := false;
      if answers == [] { starved := true; return Blocked; }
      var a := answers[0];
      answers := answers[1..];
      match a {
        case Interrupted => r := Eintr;
        case EndOfStream => r := Eof; MarkFailed();
        case Broken => r := Fail; MarkFailed();
        case Chunk(n) =>
          if stream == [] { starved := true; return Blocked; }
          var most := if room < |stream| then room else |stream|;
          var k := if n == 0 then 1 else if n < most then n else most;
          var bytes := Take(k);
          r := Data(bytes);
      }
    }
  }

  class TCPService {
    const m_buffer: array<Byte>
    var m_status: bool
    var m_sockfd: int

    /** The frames copied into `m_buffer`, connection by connection. */
    ghost var published: seq<seq<seq<Byte>>>

    constructor (n: nat)
      ensures m_buffer.Length == n && fresh(m_buffer) && !m_status && m_sockfd == -1 && published == []
    {
      m_buffer := new Byte[n](_ => 0);
      m_status, m_sockfd, published := false, -1, [];
    }

    /** The state at every head of the worker's outer loop. */
    ghost predicate AtHead(k: Kernel, initial: seq<Byte>)
      reads this, m_buffer, k
    {
      && m_buffer.Length > 0
      && Framed(k)
      && m_buffer[..] == Latest(published, initial)
      && (m_status <==> m_sockfd >= 0)
      && (m_status ==> k.Current() && Whole(k))
      && Owned(k) && GivenUp(k.sessions, k.stopSeen, m_status)
      && Dialled(k.used, k.sessions, k.events, 0) && k.Ready() && k.trues < 2
    }

    /** On each connection exactly the complete blocks handed out were published. */
    ghost predicate Framed(k: Kernel)
      reads this, k
      requires m_buffer.Length > 0
    {
      Matching(published, k.sessions, m_buffer.Length)
    }

    /** Nothing of the current connection is waiting in the temporary buffer. */
    ghost predicate Whole(k: Kernel)
      reads this, k
    {
      |published| == |k.sessions| > 0 &&
      k.sessions[|k.sessions| - 1].pos == m_buffer.Length * |published[|published| - 1]|
    }

    /** The only descriptor that may be open is the one in `m_sockfd`. */
    ghost predicate Owned(k: Kernel)
      reads this, k
    {
      if m_sockfd < 0 then Paired(k.events)
      else k.events != [] && k.events[|k.events| - 1] == Opened(m_sockfd) && Paired(k.events[..|k.events| - 1])
    }

    method Store(tmpbuf: array<Byte>, nread: nat, bytes: seq<Byte>)
      requires nread + |bytes| <= tmpbuf.Length
      modifies tmpbuf
      ensures tmpbuf[..nread + |bytes|] == old(tmpbuf[..nread]) + bytes
    {
      forall i | 0 <= i < |bytes| { tmpbuf[nread + i] := bytes[i]; }
    }

    /** The inner loop: fill `tmpbuf` from the current connection. */
    method Fill(k: Kernel, tmpbuf: array<Byte>, ghost from: nat) returns (nread: nat, ok: bool, observed: bool)
      requires k.Current() && k.sessions[|k.sessions| - 1].pos == from
      requires tmpbuf.Length == m_buffer.Length && tmpbuf != m_buffer
      requires !k.sessions[|k.sessions| - 1].failed && k.Ready() && k.trues == 0
      modifies k`stops, k`stopSeen, k`go, k`trues, k`starved, k`answers, k`sessions, k`stream, tmpbuf
      ensures k.Current() && |k.sessions| == |old(k.sessions)|
      ensures k.sessions[..|k.sessions| - 1] == old(k.sessions)[..|k.sessions| - 1]
      ensures var c := k.sessions[|k.sessions| - 1];
              && c.stream == old(k.sessions)[|k.sessions| - 1].stream
              && c.pos == from + nread
              && nread <= tmpbuf.Length && tmpbuf[..nread] == c.stream[from..c.pos]
      ensures |k.stops| <= |old(k.stops)|
      ensures !observed || !ok ==> nread < tmpbuf.Length
      ensures ok && nread < tmpbuf.Length && observed ==> |k.stops| < |old(k.stops)| && k.stopSeen
      ensures k.trues == if ok && nread < tmpbuf.Length && observed then 1 else 0
      ensures k.sessions[|k.sessions| - 1].failed == !ok
      ensures old(k.stopSeen) ==> k.stopSeen
      ensures observed == !k.starved && (!observed ==> ok)
    {
      nread, ok, observed := 0, true, true;
      while nread < tmpbuf.Length
        invariant nread <= tmpbuf.Length
        invariant k.Current() && |k.sessions| == |old(k.sessions)|
        invariant k.sessions[..|k.sessions| - 1] == old(k.sessions)[..|k.sessions| - 1]
        invariant var c := k.sessions[|k.sessions| - 1];
                  && c.stream == old(k.sessions)[|k.sessions| - 1].stream
                  && c.pos == from + nread
                  && tmpbuf[..nread] == c.stream[from..c.pos]
        invariant |k.stops| <= |old(k.stops)| && ok && observed && k.Ready() && k.trues == 0
        invariant !k.sessions[|k.sessions| - 1].failed && (old(k.stopSeen) ==> k.stopSeen)
        decreases |k.stops|
      {
        var stop := k.LoadStop();
        if stop.None? { observed := false; return; }
        if stop.value { return; }
        var r := k.Read(tmpbuf.Length - nread);
        match r {
          case Blocked => observed := false; return;
          case Eintr => continue;
          case Eof => ok := false; return;
          case Fail => ok := false; return;
          case Data(bytes) =>
            Store(tmpbuf, nread, bytes);
            Contiguous(k.sessions[|k.sessions| - 1].stream, from, nread, |bytes|);
            nread := nread + |bytes|;
        }
      }
    }

    /** The head of an iteration without a connection: socket, connect, and the
        clean-up when the peer refuses. */
    method Open(k: Kernel, ghost initial: seq<Byte>) returns (end: Option<Outcome>)
      requires AtHead(k, initial) && !m_status && k.go && k.trues == 0
      modifies this`m_sockfd, this`m_status, this`published,
               k`go, k`starved, k`refused, k`used, k`sockets, k`connects, k`sessions, k`stream, k`events
      ensures end == None ==> AtHead(k, initial)
      ensures end == None ==> |k.used| == |old(k.used)| + 1 && k.used[..|k.used| - 1] == old(k.used)
      ensures end == None ==> (m_status <==> k.used[|k.used| - 1].Accepted?)
      ensures end == None ==> (m_status ==> k.used[|k.used| - 1].stream == k.stream)
      ensures Framed(k) && m_buffer[..] == Latest(published, initial) && Owned(k)
      ensures end == Some(NoSocket) ==> !m_status && m_sockfd < 0
      ensures end != Some(Stopped) && |old(k.sessions)| <= |k.sessions|
      ensures end.Some? ==> !m_status && GivenUp(k.sessions, k.stopSeen, false)
      ensures k.starved == (end == Some(StillRunning)) && k.refused == (end == Some(NoSocket))
      ensures end.Some? ==> Dialled(k.used, k.sessions, k.events, if m_sockfd >= 0 then 1 else 0)
    {
      hide Matching, Latest, Blocks, Paired, Dialled;
      DialSteps(k.used, k.sessions, k.events);
      var fd := k.Socket();
      if fd.None? { return Some(StillRunning); }
      m_sockfd := fd.value;
      if m_sockfd < 0 { return Some(NoSocket); }
      var connected := k.Connect();
      if connected.None? { return Some(StillRunning); }
      if connected.value {
        NewConnection(published, old(k.sessions), k.stream, m_buffer.Length, initial);
        published := published + [[]];
        m_status := true;
      } else {
        PairedClose(k.events, m_sockfd);
        k.Close(m_sockfd);
        m_sockfd := -1;
      }
      return None;
    }

    method Run(k: Kernel) returns (end: Outcome)
      requires AtHead(k, m_buffer[..])
      modifies this, m_buffer, k
      ensures Framed(k)
      ensures m_buffer[..] == Latest(published, old(m_buffer[..]))
      ensures Owned(k)
      ensures end != StillRunning ==> (m_status <==> m_sockfd >= 0)
      ensures end == Stopped ==> k.stopSeen && k.trues > 0
      ensures end == NoSocket ==> m_sockfd < 0
      ensures k.starved == (end == StillRunning) && k.refused == (end == NoSocket)
      ensures Dialled(k.used, k.sessions, k.events, 0) ||
              (end == StillRunning && Dialled(k.used, k.sessions, k.events, 1))
      ensures GivenUp(k.sessions, k.stopSeen, m_status)
      ensures |old(k.sessions)| <= |k.sessions|
    {
      hide Dialled, Paired, Matching, Latest;
      ghost var initial := m_buffer[..];
      var tmpbuf := new Byte[m_buffer.Length];
      while true
        invariant AtHead(k, initial) && fresh(tmpbuf) && tmpbuf.Length == m_buffer.Length
        invariant |old(k.sessions)| <= |k.sessions|
        decreases |k.stops|
      {
        var stop := k.LoadStop();
        if stop.None? { return StillRunning; }
        if stop.value { return Stopped; }
        if !m_status {
          var stuck := Open(k, initial);
          if stuck.Some? { return stuck.value; }
          if !m_status { continue; }
        }
        var observed := Serve(k, tmpbuf, initial);
        if !observed { return StillRunning; }
      }
    }

    /** One frame: fill the temporary buffer, then publish it or drop the connection. */
    method Serve(k: Kernel, tmpbuf: array<Byte>, ghost initial: seq<Byte>) returns (observed: bool)
      requires AtHead(k, initial) && m_status && k.trues == 0
      requires tmpbuf.Length == m_buffer.Length && tmpbuf != m_buffer
      modifies this, m_buffer, tmpbuf,
               k`stops, k`stopSeen, k`go, k`trues, k`starved, k`answers, k`sessions, k`stream, k`events
      ensures observed ==> AtHead(k, initial)
      ensures |published| == |old(published)|
      ensures observed ==> m_status == (published != old(published))
      ensures observed && !m_status ==> k.sessions[|k.sessions| - 1].failed || k.trues > 0
      ensures observed == !k.starved && !k.refused && Dialled(k.used, k.sessions, k.events, 0)
      ensures GivenUp(k.sessions, k.stopSeen, m_status)
      ensures Framed(k) && m_buffer[..] == Latest(published, initial) && Owned(k)
      ensures |old(k.sessions)| == |k.sessions| && |k.stops| <= |old(k.stops)|
    {
      ghost var c := |k.sessions| - 1;
      ghost var from := k.sessions[c].pos;
      var nread, ok;
      nread, ok, observed := Fill(k, tmpbuf, from);
      Progress(published, old(k.sessions), k.sessions, nread, tmpbuf.Length);
      StillUsed(old(k.sessions), old(k.stopSeen), k.sessions, k.stopSeen);
      SameStreams(old(k.sessions), k.sessions);
      hide Matching, Latest, GivenUp, Paired;
      assert Dialled(k.used, k.sessions, k.events, 0);
      hide Dialled;
      if !observed { return; }
      if ok && nread == tmpbuf.Length {
        assert tmpbuf[..] == tmpbuf[..nread] == k.sessions[c].stream[from..k.sessions[c].pos];
        Show(tmpbuf, initial);
      } else {
        HangUp(k);
      }
    }

    method HangUp(k: Kernel)
      requires Owned(k) && m_sockfd >= 0 && Dialled(k.used, k.sessions, k.events, 0)
      modifies this`m_status, this`m_sockfd, k`events
      ensures !m_status && m_sockfd == -1 && Owned(k) && Dialled(k.used, k.sessions, k.events, 0)
    {
      DialSteps(k.used, k.sessions, k.events);
      hide Dialled;
      m_status := false;
      PairedClose(k.events, m_sockfd);
      k.Close(m_sockfd);
      m_sockfd := -1;
    }

    /** The critical section that publishes a frame. */
    method Show(tmpbuf: array<Byte>, ghost initial: seq<Byte>)
      requires tmpbuf.Length == m_buffer.Length && published != []
      modifies m_buffer, this`published
      ensures m_buffer[..] == old(tmpbuf[..]) == Latest(published, initial)
      ensures var c := |old(published)| - 1; published == old(published)[c := old(published)[c] + [m_buffer[..]]]
      ensures published != old(published)
    {
      ghost var c, was := |published| - 1, published;
      forall i | 0 <= i < tmpbuf.Length { m_buffer[i] := tmpbuf[i]; }
      LatestAppend(published, c, m_buffer[..], initial);
      published := published[c := published[c] + [m_buffer[..]]];
      assert published[c] != was[c];
    }

    /** The destructor once the worker has been joined. */
    method CloseAfterJoin(k: Kernel)
      requires Owned(k)
      modifies k`events
      ensures Paired(k.events)
    {
      if m_sockfd >= 0 {
        PairedClose(k.events, m_sockfd);
        k.Close(m_sockfd);
      }
    }
  }

  /** What the calls do to the record of dialling. */
  lemma DialSteps(used: seq<Connect>, sessions: seq<Session>, ev: seq<FdEvent>)
    requires Dialled(used, sessions, ev, 0)
    ensures forall fd: int :: Dialled(used, sessions, ev + [Opened(fd)], 1)
    ensures forall fd: int, gd: int :: Dialled(used + [Refused], sessions, ev + [Opened(fd)] + [Closed(gd)], 0)
    ensures forall fd: int, s: seq<Byte> ::
              Dialled(used + [Accepted(s)], sessions + [Session(s, 0, false)], ev + [Opened(fd)], 0)
    ensures forall fd: int :: Dialled(used, sessions, ev + [Closed(fd)], 0)
  {
    forall e: FdEvent ensures Opens(ev + [e]) == Opens(ev) + if e.Opened? then 1 else 0 { OpensSnoc(ev, e); }
    forall fd: int, gd: int ensures Opens(ev + [Opened(fd)] + [Closed(gd)]) == Opens(ev) + 1 {
      OpensSnoc(ev, Opened(fd));
      OpensSnoc(ev + [Opened(fd)], Closed(gd));
    }
    assert (used + [Refused])[..|used|] == used;
    assert Streams(used + [Refused]) == Streams(used) + [];
    forall s: seq<Byte> ensures StreamsOf(sessions + [Session(s, 0, false)]) == Streams(used + [Accepted(s)]) {
      assert (used + [Accepted(s)])[..|used|] == used;
    }
  }

  lemma OpensSnoc(ev: seq<FdEvent>, e: FdEvent)
    ensures Opens(ev + [e]) == Opens(ev) + if e.Opened? then 1 else 0
  {
    assert (ev + [e])[..|ev|] == ev;
  }

  lemma SameStreams(was: seq<Session>, now: seq<Session>)
    requires |now| == |was| > 0 && now[..|now| - 1] == was[..|was| - 1]
    requires now[|now| - 1].stream == was[|was| - 1].stream
    ensures StreamsOf(now) == StreamsOf(was)
  {
    assert forall i :: 0 <= i < |now| - 1 ==> now[i] == now[..|now| - 1][i] == was[..|was| - 1][i] == was[i];
  }

  lemma PairedClose(ev: seq<FdEvent>, fd: int)
    requires ev != [] && ev[|ev| - 1] == Opened(fd) && Paired(ev[..|ev| - 1])
    ensures Paired(ev + [Closed(fd)])
  {
    assert (ev + [Closed(fd)])[..|ev| - 1] == ev[..|ev| - 1];
  }

  lemma HandOut(s: seq<Byte>, p: nat, k: nat)
    requires p + k <= |s|
    ensures s[p..][..k] == s[p..p + k] && s[p..][k..] == s[p + k..]
  {
  }

  lemma Shifted(s: seq<Byte>, n: nat, p: nat)
    requires n + p + n <= |s|
    ensures s[n..][p..p + n] == s[n + p..n + p + n]
  {
  }

  lemma Contiguous(stream: seq<Byte>, from: nat, nread: nat, more: nat)
    requires from + nread + more <= |stream|
    ensures stream[from..from + nread] + stream[from + nread..from + nread + more] == stream[from..from + nread + more]
  {
  }

  /** What `Fill` leaves of `GivenUp`, whether the connection is kept or dropped. */
  lemma StillUsed(was: seq<Session>, seen: bool, now: seq<Session>, seenNow: bool)
    requires GivenUp(was, seen, true) && |now| == |was| && now[..|now| - 1] == was[..|now| - 1]
    requires seen ==> seenNow
    ensures !now[|now| - 1].failed ==> GivenUp(now, seenNow, true)
    ensures now[|now| - 1].failed || seenNow ==> GivenUp(now, seenNow, false)
  {
    assert forall i :: 0 <= i < |now| - 1 ==> now[i] == now[..|now| - 1][i] == was[..|now| - 1][i] == was[i];
  }

  lemma LatestAppend(published: seq<seq<seq<Byte>>>, c: nat, frame: seq<Byte>, initial: seq<Byte>)
    requires c == |published| - 1
    ensures Latest(published[c := published[c] + [frame]], initial) == frame
  {
  }

  /** A connection on which nothing was read yet. */
  lemma NewConnection(published: seq<seq<seq<Byte>>>, sessions: seq<Session>, stream: seq<Byte>, n: nat,
                      initial: seq<Byte>)
    requires n > 0 && Matching(published, sessions, n)
    ensures Matching(published + [[]], sessions + [Session(stream, 0, false)], n)
    ensures Latest(published + [[]], initial) == Latest(published, initial)
  {
    assert (published + [[]])[..|published|] == published;
    assert Blocks(stream[..0], n) == [];
  }

  // ---- Blocks --------------------------------------------------------------

  /** After `nread` more bytes there is one more block if they fill one. */
  lemma {:induction false} BlocksExtend(s: seq<Byte>, t: seq<Byte>, n: nat)
    requires n > 0 && |t| <= n && |s| == n * |Blocks(s, n)|
    ensures Blocks(s + t, n) == Blocks(s, n) + if |t| == n then [t] else []
  {
    if |s| < n {
      assert s == [] by { if Blocks(s, n) == [] { assert n * 0 == 0; } }
      assert s + t == t;
      if |t| == n { assert t[n..] == [] && t[..n] == t; }
    } else {
      var b := Blocks(s[n..], n);
      assert Blocks(s, n) == [s[..n]] + b;
      assert n * (1 + |b|) == n + n * |b|;
      BlocksExtend(s[n..], t, n);
      assert (s + t)[n..] == s[n..] + t && (s + t)[..n] == s[..n];
    }
  }

  /** The same for a list of connections whose last one received the bytes. */
  lemma Progress(published: seq<seq<seq<Byte>>>, was: seq<Session>, now: seq<Session>, nread: nat, n: nat)
    requires n > 0 && Matching(published, was, n) && |now| == |was| > 0
    requires now[..|now| - 1] == was[..|was| - 1]
    requires var a, b := was[|was| - 1], now[|now| - 1];
             b.stream == a.stream && b.pos == a.pos + nread <= |b.stream| && nread <= n
             && a.pos == n * |published[|now| - 1]|
    ensures var c := |now| - 1;
            var b := now[c];
            && (nread < n ==> Matching(published, now, n))
            && (nread == n ==>
                  && Matching(published[c := published[c] + [b.stream[b.pos - n..b.pos]]], now, n)
                  && b.pos == n * (|published[c]| + 1))
  {
    var c := |now| - 1;
    Received(now[c].stream, was[c].pos, nread, n, published[c]);
    assert forall i :: 0 <= i < c ==> now[i] == now[..c][i] == was[..c][i] == was[i];
  }

  lemma Received(stream: seq<Byte>, from: nat, nread: nat, n: nat, frames: seq<seq<Byte>>)
    requires n > 0 && nread <= n && from + nread <= |stream|
    requires frames == Blocks(stream[..from], n) && from == n * |frames|
    ensures Blocks(stream[..from + nread], n) ==
            frames + if nread == n then [stream[from..from + nread]] else []
    ensures nread == n ==> from + nread == n * (|frames| + 1)
  {
    assert stream[..from + nread] == stream[..from] + stream[from..from + nread];
    BlocksExtend(stream[..from], stream[from..from + nread], n);
  }

  /** The blocks are the slices of `n` bytes, and nothing past the last of them. */
  lemma {:induction false} BlockAt(s: seq<Byte>, n: nat, b: nat)
    requires n > 0 && n * b + n <= |s|
    ensures b < |Blocks(s, n)| && 0 <= n * b && Blocks(s, n)[b] == s[n * b..n * b + n]
    decreases b
  {
    if b > 0 {
      var p := n * (b - 1);
      assert n * b == p + n;
      BlockAt(s[n..], n, b - 1);
      Shifted(s, n, p);
    }
  }

  lemma {:induction false} BlockCount(s: seq<Byte>, n: nat, m: nat)
    requires n > 0 && |s| == n * m
    ensures |Blocks(s, n)| == m
    decreases m
  {
    if m > 0 {
      assert n * m == n * (m - 1) + n;
      BlockCount(s[n..], n, m - 1);
    }
  }

  /** However far the worker got, it published a prefix of the peer's frames. */
  lemma {:induction false} BlocksPrefix(s: seq<Byte>, k: nat, n: nat)
    requires n > 0 && k <= |s|
    ensures Blocks(s[..k], n) <= Blocks(s, n)
    decreases |s|
  {
    if k >= n {
      assert s[..k][n..] == s[n..][..k - n] && s[..k][..n] == s[..n];
      BlocksPrefix(s[n..], k - n, n);
    }
  }
}
