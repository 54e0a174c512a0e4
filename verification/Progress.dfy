/** What the parties of the TCP path are sure to do: the server's close reaches the
    client, a lost connection is dialled again, a full frame is published, a poll
    reads every signal (server tcpservice.cpp:91-138, client tcpservice.cpp:41-105,
    client window.cpp:26-59). */
module Progress {
  import opened Bits
  import opened Setting
  import opened ClientCom
  import opened Transport
  import opened Wrappers
  import Shutdown
  import Freshness

  // ---- The server ----------------------------------------------------------

  /** The connection the server is at is the one accepted and not closed. */
  ghost predicate Serves(s: State) {
    && (forall i :: 0 <= i < |s.net| && s.net[i].accepted && !s.net[i].serverClosed ==>
          !s.srv.pc.Accepting? && s.srv.pc.conn == i)
    && (!s.srv.pc.Accepting? ==>
          s.srv.pc.conn < |s.net| && s.net[s.srv.pc.conn].accepted && !s.net[s.srv.pc.conn].serverClosed)
    && forall i :: 0 <= i < |s.net| && s.net[i].serverClosed ==> s.net[i].accepted
  }

  /** The server's flags of the connections stand; a new one has none. */
  ghost predicate ServerFlagsKept(a: seq<Conn>, b: seq<Conn>) {
    && |a| <= |b|
    && (forall i :: 0 <= i < |a| ==> b[i].accepted == a[i].accepted && b[i].serverClosed == a[i].serverClosed)
    && forall i :: |a| <= i < |b| ==> !b[i].accepted && !b[i].serverClosed
  }

  lemma WorkerFlags(c: Config, s: State, e: Env)
    requires WorkerEnabled(c, s, e)
    ensures ServerFlagsKept(s.net, WorkerNext(c, s, e).net) && WorkerNext(c, s, e).srv == s.srv
  {
  }

  lemma ServerServes(s: State, a: Action)
    requires Serves(s) && ServerEnabled(s, a)
    ensures Serves(ServerNext(s, a))
  {
  }

  lemma ServesStep(c: Config, s: State, a: Action)
    requires Serves(s) && Enabled(c, s, a)
    ensures Serves(Next(c, s, a))
  {
    match a
    case Insert(_, _) =>
    case Gui =>
    case Worker(e) => WorkerFlags(c, s, e); hide WorkerNext, WorkerEnabled;
    case Dtor => assert ServerFlagsKept(s.net, DtorNext(s).net) && DtorNext(s).srv == s.srv; hide DtorNext;
    case _ => ServerServes(s, a);
  }

  lemma {:induction false} ServesAlways(c: Config, acts: seq<Action>)
    requires After(c, acts).Some?
    ensures Serves(After(c, acts).value)
  {
    hide Next, Enabled, Serves;
    if acts == [] {
      ServesInitially(c);
    } else {
      ServesAlways(c, acts[..|acts| - 1]);
      ServesStep(c, After(c, acts[..|acts| - 1]).value, acts[|acts| - 1]);
    }
  }

  lemma ServesInitially(c: Config)
    ensures Serves(Init(c))
  {
  }

  /** In every run a worker that waits in `read` waits for a server that has yet to
      accept its connection, or is at it: the server's close always reaches it. */
  lemma BlockedWhy(c: Config, acts: seq<Action>, s: State)
    requires After(c, acts) == Some(s) && BlockedInRead(s)
    ensures HasConn(s) && Here(s).pipe == [] && !Here(s).serverClosed
    ensures Here(s).accepted ==> !s.srv.pc.Accepting? && s.srv.pc.conn == HereAt(s)
  {
    ServesAlways(c, acts);
    Shutdown.Always(c, acts);
  }

  /** The server waits for nothing but a new connection. */
  lemma ServerMoves(c: Config, acts: seq<Action>, s: State)
    requires After(c, acts) == Some(s)
    ensures (exists a :: ServerEnabled(s, a)) <==>
            !(s.srv.pc.Accepting? && forall i :: 0 <= i < |s.net| ==> s.net[i].accepted)
  {
    ServesAlways(c, acts);
    match s.srv.pc
    case Accepting =>
      if i :| 0 <= i < |s.net| && !s.net[i].accepted { assert ServerEnabled(s, Accept(i)); }
    case Sleeping(_) => assert ServerEnabled(s, Snapshot);
    case Snapped(_) => assert ServerEnabled(s, SendFail);
    case Closing(_) => assert ServerEnabled(s, ServerClose);
  }

  /** A turn of the send loop appends the buffer of that moment to the connection. */
  lemma SendsCurrent(s: State)
    requires s.srv.pc.Sleeping? && s.srv.pc.conn < |s.net|
    ensures var i := s.srv.pc.conn;
            var t := ServerNext(s, Snapshot);
            && ServerEnabled(t, Send)
            && var u := ServerNext(t, Send);
               && u.srv.pc == s.srv.pc && u.srv.m_buf == s.srv.m_buf
               && u.net == s.net[i := u.net[i]]
               && u.net[i].wire == s.net[i].wire + s.srv.m_buf && u.net[i].pipe == s.net[i].pipe + s.srv.m_buf
               && u.net[i].sent == s.net[i].sent + [Sending(|s.srv.log|, |s.srv.m_buf|)]
  {
    assert s.srv.m_buf[..|s.srv.m_buf|] == s.srv.m_buf;
  }

  /** The server is done with the connection. */
  predicate Finished(s: State, i: nat) {
    i < |s.net| && (s.net[i].serverClosed || s.srv.pc == Closing(i))
  }

  ghost predicate SameSent(a: seq<Conn>, b: seq<Conn>, i: nat) {
    i < |a| && i < |b| && b[i].sent == a[i].sent && b[i].wire == a[i].wire
  }

  lemma FinishedWorker(c: Config, s: State, e: Env, i: nat)
    requires WorkerEnabled(c, s, e) && i < |s.net|
    ensures SameSent(s.net, WorkerNext(c, s, e).net, i)
  {
  }

  lemma FinishedServer(s: State, a: Action, i: nat)
    requires Serves(s) && Finished(s, i) && ServerEnabled(s, a)
    ensures Finished(ServerNext(s, a), i) && SameSent(s.net, ServerNext(s, a).net, i)
  {
  }

  lemma FinishedStep(c: Config, s: State, a: Action, i: nat)
    requires Serves(s) && Finished(s, i) && Enabled(c, s, a)
    ensures Finished(Next(c, s, a), i) && SameSent(s.net, Next(c, s, a).net, i)
  {
    match a
    case Insert(_, _) =>
    case Gui =>
    case Worker(e) =>
      FinishedWorker(c, s, e, i);
      WorkerFlags(c, s, e);
      hide WorkerNext, WorkerEnabled;
    case Dtor =>
    case _ => FinishedServer(s, a, i);
  }

  /** After a failed send, or the end of service, nothing is ever sent on that
      connection again, whatever follows. */
  lemma {:induction false} FinishedIsSilent(c: Config, before: seq<Action>, acts: seq<Action>, i: nat)
    requires After(c, before).Some? && After(c, before + acts).Some?
    requires Finished(After(c, before).value, i)
    ensures Finished(After(c, before + acts).value, i)
    ensures SameSent(After(c, before).value.net, After(c, before + acts).value.net, i)
    decreases |acts|
  {
    if acts == [] {
      assert before + acts == before;
    } else {
      hide Next, Enabled, Finished, Serves;
      var rest := acts[..|acts| - 1];
      assert (before + acts)[..|before + acts| - 1] == before + rest;
      FinishedIsSilent(c, before, rest, i);
      ServesAlways(c, before + rest);
      FinishedStep(c, After(c, before + rest).value, acts[|acts| - 1], i);
    }
  }

  lemma GivingUp(c: Config, acts: seq<Action>, s: State, a: Action)
    requires After(c, acts) == Some(s) && ServerEnabled(s, a) && (a.SendFail? || a.Quit?)
    ensures Finished(ServerNext(s, a), s.srv.pc.conn)
  {
    ServesAlways(c, acts);
  }

  // ---- The client's worker -------------------------------------------------

  /** A worker in `read` has nothing to return to exactly when it waits; at every
      other point it goes on by itself until it ends. */
  lemma WorkerMoves(c: Config, acts: seq<Action>, s: State)
    requires After(c, acts) == Some(s)
    ensures Shutdown.Moves(c, s) <==> !BlockedInRead(s)
  {
    Shutdown.Always(c, acts);
    if s.wrk.pc == Reading {
      Shutdown.RoomToRead(c, acts);
      ReadingMoves(c, s);
    } else {
      OthersMove(c, s);
    }
  }

  lemma ReadingMoves(c: Config, s: State)
    requires Shutdown.Ok(s) && s.wrk.pc == Reading && s.wrk.nread < c.n
    ensures Shutdown.Moves(c, s) <==> !BlockedInRead(s)
  {
    assert HasConn(s);
    var e := if Here(s).pipe == [] then ReadEof else ReadData(1);
    if !BlockedInRead(s) { assert WorkerEnabled(c, s, e); }
  }

  lemma OthersMove(c: Config, s: State)
    requires Shutdown.Ok(s) && s.wrk.pc != Reading
    ensures Shutdown.Moves(c, s)
  {
    var e := if s.wrk.pc == NeedSocket then GotSocket(0) else if s.wrk.pc == NeedConnect then Connected(false) else Tau;
    assert s.wrk.pc != Ended ==> WorkerEnabled(c, s, e);
  }

  /** The worker ends for three reasons only, and for each of them. */
  lemma EndsExactly(c: Config, s: State, e: Env)
    requires WorkerEnabled(c, s, e)
    ensures WorkerNext(c, s, e).wrk.pc == Ended <==>
              || (s.wrk.pc == Start && e == BadAddress)
              || (s.wrk.pc == Head && s.flags.m_stop)
              || (s.wrk.pc == NeedSocket && e.fd < 0)
  {
  }

  /** The worker's next steps when nobody else moves. */
  function Works(c: Config, s: State, es: seq<Env>): Option<State>
    decreases |es|
  {
    if es == [] then Some(s)
    else if WorkerEnabled(c, s, es[0]) then Works(c, WorkerNext(c, s, es[0]), es[1..])
    else None
  }

  lemma {:induction false} WorksOn(c: Config, s: State, xs: seq<Env>, t: State, ys: seq<Env>)
    requires Works(c, s, xs) == Some(t)
    ensures Works(c, s, xs + ys) == Works(c, t, ys)
    decreases |xs|
  {
    if xs == [] {
      assert xs + ys == ys;
    } else {
      WorksOn(c, WorkerNext(c, s, xs[0]), xs[1..], t, ys);
      assert (xs + ys)[1..] == xs[1..] + ys;
    }
  }

  lemma WorksOnce(c: Config, s: State, e: Env)
    requires WorkerEnabled(c, s, e)
    ensures Works(c, s, [e]) == Some(WorkerNext(c, s, e))
  {
    assert [e][1..] == [];
  }

  /** `s` after the worker closed and forgot its descriptor, at program point `p`. */
  function Forgotten(s: State, p: WorkerPc): State
    requires s.fds.closes != []
  {
    s.(wrk := s.wrk.(pc := p), flags := Flags(s.flags.m_stop, false, -1),
       fds := Descriptors(map[], s.fds.closes[|s.fds.closes| - 1 := 1], s.fds.stray))
  }

  function Shut(s: State): State
    requires HasConn(s)
  {
    s.(net := s.net[HereAt(s) := Here(s).(clientShut := true)])
  }

  lemma LostReads(c: Config, s: State, e: Env)
    requires s.wrk.pc == Reading && WorkerEnabled(c, s, e) && (e == ReadEof || e == ReadFail)
    ensures Works(c, s, [e] + [Tau] + [Tau]) ==
            Some(s.(wrk := s.wrk.(ok := false, pc := ShutDown), flags := s.flags.(m_status := false)))
  {
    var a := s.(wrk := s.wrk.(ok := false, pc := Decide));
    var b := s.(wrk := s.wrk.(ok := false, pc := MarkDown));
    WorksOnce(c, s, e);
    WorksOnce(c, a, Tau);
    WorksOnce(c, b, Tau);
    WorksOn(c, s, [e], a, [Tau]);
    WorksOn(c, s, [e] + [Tau], b, [Tau]);
  }

  lemma LostCloses(c: Config, s: State)
    requires s.wrk.pc == ShutDown && !s.flags.m_status && HasConn(s)
    requires Shutdown.ClosesOk(true, s.flags, s.fds)
    ensures Works(c, s, [Tau] + [Tau] + [Tau]) == Some(Forgotten(Shut(s), Head))
  {
    var a := Shut(s).(wrk := s.wrk.(pc := CloseFd));
    var b := Shut(s).(wrk := s.wrk.(pc := ForgetFd), fds := ClosedFd(s.fds, s.flags.m_sockfd));
    assert b.fds == Forgotten(Shut(s), Head).fds;
    WorksOnce(c, s, Tau);
    WorksOnce(c, a, Tau);
    WorksOnce(c, b, Tau);
    WorksOn(c, s, [Tau], a, [Tau]);
    WorksOn(c, s, [Tau] + [Tau], b, [Tau]);
  }

  lemma DialsAgain(c: Config, s: State)
    requires s.wrk.pc == Head && !s.flags.m_stop && !s.flags.m_status
    ensures Works(c, s, [Tau] + [Tau]) == Some(s.(wrk := s.wrk.(pc := NeedSocket)))
  {
    var a := s.(wrk := s.wrk.(pc := Check));
    WorksOnce(c, s, Tau);
    WorksOnce(c, a, Tau);
    WorksOn(c, s, [Tau], a, [Tau]);
  }

  lemma OwnsHere(s: State)
    requires Shutdown.Ok(s) && s.wrk.pc == Reading
    ensures HasConn(s) && s.fds.closes != [] && Shutdown.ClosesOk(true, s.flags, s.fds)
  {
  }

  /** A connection that ended or failed is shut, closed and forgotten, and the
      worker dials again. */
  lemma LostIsRedialled(c: Config, acts: seq<Action>, s: State, e: Env)
    requires After(c, acts) == Some(s) && s.wrk.pc == Reading && !s.flags.m_stop
    requires WorkerEnabled(c, s, e) && (e == ReadEof || e == ReadFail)
    ensures HasConn(s) && s.fds.closes != []
    ensures var t := Forgotten(Shut(s), NeedSocket);
            Works(c, s, [e, Tau, Tau, Tau, Tau, Tau, Tau, Tau]) == Some(t.(wrk := t.wrk.(ok := false)))
  {
    Shutdown.Always(c, acts);
    OwnsHere(s);
    LostPath(c, s, e);
    assert [e, Tau, Tau, Tau, Tau, Tau, Tau, Tau] ==
           [e] + [Tau] + [Tau] + ([Tau] + [Tau] + [Tau]) + ([Tau] + [Tau]);
  }

  lemma SameForgotten(s: State, a: State)
    requires HasConn(s) && s.fds.closes != []
    requires a == s.(wrk := s.wrk.(ok := false, pc := ShutDown), flags := s.flags.(m_status := false))
    ensures var b, t := Forgotten(Shut(a), Head), Forgotten(Shut(s), NeedSocket);
            b.(wrk := b.wrk.(pc := NeedSocket)) == t.(wrk := t.wrk.(ok := false))
  {
  }

  lemma LostPath(c: Config, s: State, e: Env)
    requires HasConn(s) && s.fds.closes != [] && Shutdown.ClosesOk(true, s.flags, s.fds)
    requires s.wrk.pc == Reading && !s.flags.m_stop && WorkerEnabled(c, s, e) && (e == ReadEof || e == ReadFail)
    ensures var t := Forgotten(Shut(s), NeedSocket);
            Works(c, s, [e] + [Tau] + [Tau] + ([Tau] + [Tau] + [Tau]) + ([Tau] + [Tau])) ==
              Some(t.(wrk := t.wrk.(ok := false)))
  {
    var a := s.(wrk := s.wrk.(ok := false, pc := ShutDown), flags := s.flags.(m_status := false));
    var b := Forgotten(Shut(a), Head);
    LostReads(c, s, e);
    LostCloses(c, a);
    DialsAgain(c, b);
    SameForgotten(s, a);
    hide WorkerNext, WorkerEnabled, Works, Shutdown.ClosesOk, Forgotten, Shut;
    WorksOn(c, s, [e] + [Tau] + [Tau], a, [Tau] + [Tau] + [Tau]);
    WorksOn(c, s, [e] + [Tau] + [Tau] + ([Tau] + [Tau] + [Tau]), b, [Tau] + [Tau]);
  }

  /** A refused connection is closed and forgotten, and dialled again after the nap. */
  lemma RefusedIsRedialled(c: Config, acts: seq<Action>, s: State)
    requires After(c, acts) == Some(s) && s.wrk.pc == NeedConnect && !s.flags.m_stop
    ensures s.fds.closes != []
    ensures Works(c, s, [Connected(false), Tau, Tau, Tau, Tau, Tau]) == Some(Forgotten(s, NeedSocket))
  {
    Shutdown.Always(c, acts);
    OwnsDialled(s);
    var b := Forgotten(s, Head);
    RefusedCloses(c, s);
    DialsAgain(c, b);
    hide WorkerNext, WorkerEnabled, Works, After, Shutdown.Ok;
    WorksOn(c, s, [Connected(false)] + [Tau] + [Tau] + [Tau], b, [Tau] + [Tau]);
    assert [Connected(false), Tau, Tau, Tau, Tau, Tau] == [Connected(false)] + [Tau] + [Tau] + [Tau] + ([Tau] + [Tau]);
  }

  lemma OwnsDialled(s: State)
    requires Shutdown.Ok(s) && s.wrk.pc == NeedConnect
    ensures s.fds.closes != [] && Shutdown.ClosesOk(true, s.flags, s.fds) && !s.flags.m_status
  {
  }

  lemma RefusedCloses(c: Config, s: State)
    requires s.wrk.pc == NeedConnect && !s.flags.m_status && Shutdown.ClosesOk(true, s.flags, s.fds)
    ensures s.fds.closes != []
    ensures Works(c, s, [Connected(false)] + [Tau] + [Tau] + [Tau]) == Some(Forgotten(s, Head))
  {
    var a := s.(wrk := s.wrk.(pc := DropRefused));
    var b := s.(wrk := s.wrk.(pc := ForgetRefused), fds := ClosedFd(s.fds, s.flags.m_sockfd));
    var d := Forgotten(s, Napping);
    assert b.fds == d.fds;
    WorksOnce(c, s, Connected(false));
    WorksOnce(c, a, Tau);
    WorksOnce(c, b, Tau);
    WorksOnce(c, d, Tau);
    WorksOn(c, s, [Connected(false)], a, [Tau]);
    WorksOn(c, s, [Connected(false)] + [Tau], b, [Tau]);
    WorksOn(c, s, [Connected(false)] + [Tau] + [Tau], d, [Tau]);
  }

  /** An interrupted `read` is made again, with nothing lost. */
  lemma InterruptedIsRetried(c: Config, acts: seq<Action>, s: State)
    requires After(c, acts) == Some(s) && s.wrk.pc == Reading && !s.flags.m_stop
    ensures Works(c, s, [ReadIntr, Tau]) == Some(s)
  {
    Shutdown.Always(c, acts);
    Shutdown.RoomToRead(c, acts);
    OwnsHere(s);
    WorksOnce(c, s, ReadIntr);
    WorksOnce(c, s.(wrk := s.wrk.(pc := ReadHead)), Tau);
    WorksOn(c, s, [ReadIntr], s.(wrk := s.wrk.(pc := ReadHead)), [Tau]);
    assert [ReadIntr, Tau] == [ReadIntr] + [Tau];
  }

  /** A peer that accepts is read from, on the descriptor the kernel gave. */
  lemma AcceptedIsRead(c: Config, acts: seq<Action>, s: State, fd: int)
    requires After(c, acts) == Some(s) && s.wrk.pc == NeedSocket && !s.flags.m_stop && fd >= 0 && c.n > 0
    ensures Works(c, s, [GotSocket(fd), Connected(true), Tau, Tau]) == Some(s.(
              wrk := s.wrk.(pc := Reading, nread := 0, ok := true), flags := Flags(false, true, fd),
              net := s.net + [Conn([], false, false, false, [], [], 0, 0)],
              fds := Descriptors(map[fd := Desc(|s.fds.closes|, Some(|s.net|))], s.fds.closes + [0], s.fds.stray)))
  {
    Shutdown.Always(c, acts);
    NothingOpen(s);
    DialsAndReads(c, s, fd);
    assert [GotSocket(fd), Connected(true), Tau, Tau] == [GotSocket(fd)] + [Connected(true)] + [Tau] + [Tau];
  }

  lemma NothingOpen(s: State)
    requires Shutdown.Ok(s) && s.wrk.pc == NeedSocket
    ensures s.fds.open == map[] && !s.flags.m_status
  {
  }

  lemma DialsAndReads(c: Config, s: State, fd: int)
    requires s.wrk.pc == NeedSocket && s.fds.open == map[] && !s.flags.m_status && !s.flags.m_stop
    requires fd >= 0 && c.n > 0
    ensures Works(c, s, [GotSocket(fd)] + [Connected(true)] + [Tau] + [Tau]) == Some(s.(
              wrk := s.wrk.(pc := Reading, nread := 0, ok := true), flags := Flags(false, true, fd),
              net := s.net + [Conn([], false, false, false, [], [], 0, 0)],
              fds := Descriptors(map[fd := Desc(|s.fds.closes|, Some(|s.net|))], s.fds.closes + [0], s.fds.stray)))
  {
    var a := s.(wrk := s.wrk.(pc := NeedConnect), flags := s.flags.(m_sockfd := fd), fds := Opened(s.fds, fd));
    var b := a.(wrk := s.wrk.(pc := MarkUp), net := s.net + [Conn([], false, false, false, [], [], 0, 0)],
                fds := Descriptors(map[fd := Desc(|s.fds.closes|, Some(|s.net|))], s.fds.closes + [0], s.fds.stray));
    var d := b.(wrk := s.wrk.(pc := ReadHead, nread := 0, ok := true), flags := Flags(false, true, fd));
    WorksOnce(c, s, GotSocket(fd));
    ConnectsTo(c, a, b, fd);
    WorksOnce(c, b, Tau);
    WorksOnce(c, d, Tau);
    WorksOn(c, s, [GotSocket(fd)], a, [Connected(true)]);
    WorksOn(c, s, [GotSocket(fd)] + [Connected(true)], b, [Tau]);
    WorksOn(c, s, [GotSocket(fd)] + [Connected(true)] + [Tau], d, [Tau]);
  }

  lemma ConnectsTo(c: Config, a: State, b: State, fd: int)
    requires a.wrk.pc == NeedConnect && a.flags.m_sockfd == fd && a.fds.closes != []
    requires a.fds.open == map[fd := Desc(|a.fds.closes| - 1, None)]
    requires b == a.(wrk := a.wrk.(pc := MarkUp), net := a.net + [Conn([], false, false, false, [], [], 0, 0)],
                     fds := a.fds.(open := map[fd := Desc(|a.fds.closes| - 1, Some(|a.net|))]))
    ensures Works(c, a, [Connected(true)]) == Some(b)
  {
    WorksOnce(c, a, Connected(true));
    assert ConnectNext(a, true).fds.open == b.fds.open;
  }

  // ---- Publishing ----------------------------------------------------------

  /** What the data needs beside `Freshness.Ok`. */
  ghost predicate Sized(c: Config, s: State) {
    |s.gui.m_buffer| == c.n && (s.wrk.pc == ReadHead || s.wrk.pc == Reading ==> s.wrk.ok)
  }

  lemma WorkerSized(c: Config, s: State, e: Env)
    requires Sized(c, s) && |s.wrk.tmpbuf| == c.n && WorkerEnabled(c, s, e)
    ensures Sized(c, WorkerNext(c, s, e))
  {
  }

  lemma SizedStep(c: Config, s: State, a: Action)
    requires Sized(c, s) && |s.wrk.tmpbuf| == c.n && Enabled(c, s, a)
    ensures Sized(c, Next(c, s, a))
  {
    if a.Worker? {
      WorkerSized(c, s, a.env);
      hide WorkerNext, WorkerEnabled;
    } else if !a.Gui? {
      Shutdown.WorkerStays(c, s, a);
      assert Next(c, s, a).gui == s.gui;
    }
  }

  lemma {:induction false} SizedAlways(c: Config, acts: seq<Action>)
    requires ValidConfig(c) && After(c, acts).Some?
    ensures Sized(c, After(c, acts).value) && |After(c, acts).value.wrk.tmpbuf| == c.n
  {
    Freshness.Always(c, acts);
    if acts != [] {
      hide Next, Enabled, Sized;
      SizedAlways(c, acts[..|acts| - 1]);
      SizedStep(c, After(c, acts[..|acts| - 1]).value, acts[|acts| - 1]);
    }
  }

  /** When the rest of a frame has arrived, it completes the temporary buffer and
      is published as it is; the worker returns to its head still connected. */
  lemma FullIsPublished(c: Config, acts: seq<Action>, s: State)
    requires ValidConfig(c) && After(c, acts) == Some(s) && s.wrk.pc == Reading
    requires HasConn(s) && c.n - s.wrk.nread <= |Here(s).pipe|
    ensures s.wrk.nread < c.n == |s.wrk.tmpbuf|
    ensures var t := Works(c, s, [ReadData(c.n - s.wrk.nread), Tau, Tau, Tau]);
            && t.Some? && t.value.wrk.pc == Head && t.value.flags == s.flags
            && t.value.gui.m_buffer == s.wrk.tmpbuf[..s.wrk.nread] + Here(s).pipe[..c.n - s.wrk.nread]
            && !t.value.gui.blank
  {
    SizedAlways(c, acts);
    Shutdown.RoomToRead(c, acts);
    FillsUp(c, s);
    assert [ReadData(c.n - s.wrk.nread), Tau, Tau, Tau] == [ReadData(c.n - s.wrk.nread)] + [Tau] + [Tau] + [Tau];
  }

  lemma FillsUp(c: Config, s: State)
    requires s.wrk.pc == Reading && HasConn(s) && s.wrk.ok && s.wrk.nread < c.n == |s.wrk.tmpbuf|
    requires c.n - s.wrk.nread <= |Here(s).pipe|
    ensures var t := Works(c, s, [ReadData(c.n - s.wrk.nread)] + [Tau] + [Tau] + [Tau]);
            && t.Some? && t.value.wrk.pc == Head && t.value.flags == s.flags
            && t.value.gui.m_buffer == s.wrk.tmpbuf[..s.wrk.nread] + Here(s).pipe[..c.n - s.wrk.nread]
            && !t.value.gui.blank
  {
    var k := c.n - s.wrk.nread;
    var a := WorkerNext(c, s, ReadData(k));
    var b := a.(wrk := a.wrk.(pc := Decide));
    var d := a.(wrk := a.wrk.(pc := Publishing));
    assert a.wrk.tmpbuf == s.wrk.tmpbuf[..s.wrk.nread] + Here(s).pipe[..k];
    WorksOnce(c, s, ReadData(k));
    WorksOnce(c, a, Tau);
    WorksOnce(c, b, Tau);
    WorksOnce(c, d, Tau);
    WorksOn(c, s, [ReadData(k)], a, [Tau]);
    WorksOn(c, s, [ReadData(k)] + [Tau], b, [Tau]);
    WorksOn(c, s, [ReadData(k)] + [Tau] + [Tau], d, [Tau]);
  }

  // ---- The client's window -------------------------------------------------

  function Ticks(c: Config, s: State, k: nat): State {
    if k == 0 then s else var t := Ticks(c, s, k - 1); t.(gui := GuiNext(c, t))
  }

  /** A poll that finds no connection leaves a blank buffer. */
  lemma LostIsCleared(c: Config, s: State)
    requires s.gui.pc == Waiting && !s.flags.m_status
    ensures Ticks(c, s, 2) == s.(gui := s.gui.(m_buffer := seq(c.n, i => 0), blank := true))
  {
    assert Ticks(c, s, 1) == s.(gui := s.gui.(pc := Clearing));
  }

  /** A poll that finds one reads every signal once, in the order of the layout,
      from the buffer as it is. */
  lemma PollReadsAll(c: Config, acts: seq<Action>, s: State)
    requires ValidConfig(c) && After(c, acts) == Some(s) && s.gui.pc == Waiting && s.flags.m_status
    ensures |s.gui.m_buffer| == c.n
    ensures var t := Ticks(c, s, |c.signals| + 2);
            && t == s.(gui := s.gui.(obs := t.gui.obs, froms := t.gui.froms))
            && |t.gui.obs| == |s.gui.obs| + |c.signals| && t.gui.obs[..|s.gui.obs|] == s.gui.obs
            && forall j :: 0 <= j < |c.signals| ==>
                 Readable(c, s, j) && t.gui.obs[|s.gui.obs| + j] == Seen(c, s, j)
  {
    SizedAlways(c, acts);
    forall j | 0 <= j < |c.signals| ensures Readable(c, s, j) {}
    hide After, Sized, ValidConfig, GuiNext;
    PollTo(c, s, |c.signals|);
    PollEnd(c, s, Ticks(c, s, |c.signals| + 1));
  }

  lemma PollEnd(c: Config, s: State, t: State)
    requires Polled(c, s, t, |c.signals|) && s.gui.pc == Waiting
    ensures var u := t.(gui := GuiNext(c, t));
            u == s.(gui := s.gui.(obs := t.gui.obs, froms := t.gui.froms))
  {
    assert GuiNext(c, t) == t.gui.(pc := Waiting);
  }

  lemma PollStart(c: Config, s: State)
    requires s.gui.pc == Waiting && s.flags.m_status
    ensures Polled(c, s, s.(gui := GuiNext(c, s)), 0)
  {
  }

  predicate Readable(c: Config, s: State, j: nat) {
    j < |c.signals| && c.signals[j].info.start / 8 <= |s.gui.m_buffer|
  }

  function Seen(c: Config, s: State, j: nat): Obs
    requires Readable(c, s, j)
  {
    var x := c.signals[j];
    Obs(j, ReadValue(x.ctype, s.gui.m_buffer, x.info.start, x.info.length), |s.srv.log|, s.gui.blank)
  }

  /** `t` is `s` in the middle of a poll, before the getter of signal `k`. */
  ghost predicate Polled(c: Config, s: State, t: State, k: nat) {
    && t == s.(gui := s.gui.(pc := Getting(k), obs := t.gui.obs, froms := t.gui.froms))
    && |t.gui.obs| == |s.gui.obs| + k && t.gui.obs[..|s.gui.obs|] == s.gui.obs
    && forall j :: 0 <= j < k ==> Readable(c, s, j) && t.gui.obs[|s.gui.obs| + j] == Seen(c, s, j)
  }

  lemma PollStep(c: Config, s: State, t: State, k: nat)
    requires Polled(c, s, t, k) && Readable(c, s, k)
    ensures Polled(c, s, t.(gui := GuiNext(c, t)), k + 1)
  {
    hide ReadValue;
    var u := t.(gui := GuiNext(c, t));
    assert u.gui.obs == t.gui.obs + [Seen(c, s, k)];
    assert u.gui.obs[..|s.gui.obs|] == t.gui.obs[..|s.gui.obs|];
  }

  lemma {:induction false} PollTo(c: Config, s: State, k: nat)
    requires s.gui.pc == Waiting && s.flags.m_status && k <= |c.signals|
    requires forall j :: 0 <= j < |c.signals| ==> Readable(c, s, j)
    ensures Polled(c, s, Ticks(c, s, k + 1), k)
  {
    if k > 0 {
      hide Polled, GuiNext, Readable;
      PollTo(c, s, k - 1);
      PollStep(c, s, Ticks(c, s, k), k - 1);
    } else {
      hide Polled, GuiNext, Readable;
      assert Ticks(c, s, 0) == s;
      PollStart(c, s);
    }
  }

  // ---- The destructor ------------------------------------------------------

  function Destroys(s: State, k: nat): State
    decreases k
  {
    if k == 0 || s.dtor == Gone then s else Destroys(DtorNext(s), k - 1)
  }

  function StepsLeft(d: DtorPc): nat {
    match d
    case Gone => 0
    case FinalClose(_) => 1
    case CheckFd => 2
    case Joining => 3
    case Shutting(_) => 4
    case LoadFd => 5
    case LoadStatus => 6
    case Alive => 7
  }

  /** With the worker at its end the destructor comes to its own, and leaves no
      descriptor open. */
  lemma {:induction false} DestructorEnds(c: Config, acts: seq<Action>, s: State, k: nat)
    requires After(c, acts) == Some(s) && s.wrk.pc == Ended && StepsLeft(s.dtor) <= k
    ensures Destroys(s, k).dtor == Gone && Destroys(s, k).fds.open == map[]
    decreases k
  {
    if s.dtor == Gone {
      Shutdown.ClosedOnce(c, acts, s);
    } else {
      assert (acts + [Dtor])[..|acts + [Dtor]| - 1] == acts;
      assert After(c, acts + [Dtor]) == Some(DtorNext(s));
      DestructorEnds(c, acts + [Dtor], DtorNext(s), k - 1);
    }
  }
}
