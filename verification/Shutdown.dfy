/** The stop handshake and the descriptor discipline of the client's TCP worker,
    in every interleaving (client tcpservice.cpp:16-28, 41-105). */
module Shutdown {
  import opened Transport
  import opened Wrappers

  // ---- The invariant -------------------------------------------------------

  /** Program points at which the worker has a connected socket marked as such. */
  predicate Marked(p: WorkerPc) {
    p == ReadHead || p == Reading || p == Decide || p == Publishing || p == MarkDown
  }

  /** Program points that follow an iteration with or without a connection. */
  predicate Between(p: WorkerPc) {
    p == Head || p == Check || p == Ended
  }

  predicate Linked(p: WorkerPc, f: Flags) {
    Marked(p) || p == MarkUp || p == ShutDown || p == CloseFd || (Between(p) && f.m_status)
  }

  /** `m_sockfd` names a descriptor that is still to be closed. */
  predicate Owns(p: WorkerPc, f: Flags, d: DtorPc) {
    (Linked(p, f) && d != Gone) || p == NeedConnect || p == DropRefused
  }

  ghost predicate StatusOk(p: WorkerPc, f: Flags) {
    && (Marked(p) ==> f.m_status)
    && (!Marked(p) && !Between(p) ==> !f.m_status)
    && (Between(p) ==> (f.m_status <==> f.m_sockfd >= 0))
    && (p == Start || p == Napping ==> f.m_sockfd < 0)
  }

  /** Every descriptor was closed once, except the one `m_sockfd` may still own. */
  ghost predicate ClosesOk(own: bool, f: Flags, d: Descriptors) {
    && d.stray == 0
    && (own ==>
          && f.m_sockfd >= 0 && d.open.Keys == {f.m_sockfd}
          && d.closes != [] && d.open[f.m_sockfd].id == |d.closes| - 1 && d.closes[|d.closes| - 1] == 0
          && forall i :: 0 <= i < |d.closes| - 1 ==> d.closes[i] == 1)
    && (!own ==> d.open == map[] && forall i :: 0 <= i < |d.closes| ==> d.closes[i] == 1)
  }

  ghost predicate LinkOk(s: State) {
    Linked(s.wrk.pc, s.flags) && s.dtor != Gone ==> HasConn(s) && HereAt(s) == |s.net| - 1
  }

  ghost predicate StopOk(s: State) {
    && (s.dtor != Alive ==> s.flags.m_stop)
    && ((s.dtor == CheckFd || s.dtor.FinalClose? || s.dtor == Gone) ==> s.wrk.pc == Ended)
    && (s.dtor.FinalClose? ==> s.dtor.fd == s.flags.m_sockfd && s.flags.m_status)
    && (s.dtor == Gone && s.flags.m_sockfd < 0 ==> !s.flags.m_status)
    && (s.wrk.pc == Reading ==>
          && (s.dtor.Shutting? ==> s.dtor.fd == s.flags.m_sockfd)
          && (s.dtor == Joining ==> HasConn(s) && Here(s).clientShut))
  }

  ghost predicate Ok(s: State) {
    && StatusOk(s.wrk.pc, s.flags)
    && ClosesOk(Owns(s.wrk.pc, s.flags, s.dtor), s.flags, s.fds)
    && LinkOk(s) && StopOk(s)
  }

  // ---- Preservation --------------------------------------------------------

  lemma CloseOwned(f: Flags, d: Descriptors)
    requires ClosesOk(true, f, d)
    ensures ClosesOk(false, f, ClosedFd(d, f.m_sockfd))
  {
  }

  lemma OpenOne(f: Flags, d: Descriptors, fd: int)
    requires ClosesOk(false, f, d) && fd >= 0
    ensures ClosesOk(true, f.(m_sockfd := fd), Opened(d, fd))
  {
  }

  lemma StatusMarked(c: Config, s: State, e: Env)
    requires WorkerEnabled(c, s, e) && Marked(s.wrk.pc) && s.flags.m_status && s.flags.m_sockfd >= 0
    ensures StatusOk(WorkerNext(c, s, e).wrk.pc, WorkerNext(c, s, e).flags)
  {
  }

  lemma StatusOpening(c: Config, s: State, e: Env)
    requires StatusOk(s.wrk.pc, s.flags) && WorkerEnabled(c, s, e)
    requires s.wrk.pc == NeedSocket || s.wrk.pc == NeedConnect || s.wrk.pc == MarkUp
    ensures StatusOk(WorkerNext(c, s, e).wrk.pc, WorkerNext(c, s, e).flags)
  {
  }

  lemma StatusBetween(c: Config, s: State, e: Env)
    requires StatusOk(s.wrk.pc, s.flags) && WorkerEnabled(c, s, e) && !Marked(s.wrk.pc)
    requires s.wrk.pc != NeedSocket && s.wrk.pc != NeedConnect && s.wrk.pc != MarkUp
    ensures StatusOk(WorkerNext(c, s, e).wrk.pc, WorkerNext(c, s, e).flags)
  {
  }

  lemma MarkedOwns(s: State)
    requires Ok(s) && Marked(s.wrk.pc)
    ensures s.flags.m_status && s.flags.m_sockfd >= 0
  {
  }

  lemma WorkerKeepsStatus(c: Config, s: State, e: Env)
    requires Ok(s) && WorkerEnabled(c, s, e)
    ensures StatusOk(WorkerNext(c, s, e).wrk.pc, WorkerNext(c, s, e).flags)
  {
    hide WorkerNext, WorkerEnabled, StatusOk, ClosesOk, LinkOk, StopOk;
    if Marked(s.wrk.pc) {
      MarkedOwns(s);
      StatusMarked(c, s, e);
    } else if s.wrk.pc == NeedSocket || s.wrk.pc == NeedConnect || s.wrk.pc == MarkUp {
      StatusOpening(c, s, e);
    } else {
      StatusBetween(c, s, e);
    }
  }

  /** Steps without a descriptor call keep the ownership and the descriptors. */
  lemma WorkerKeepsOwner(c: Config, s: State, e: Env)
    requires Ok(s) && WorkerEnabled(c, s, e)
    requires s.wrk.pc != NeedSocket && s.wrk.pc != DropRefused && s.wrk.pc != CloseFd
    ensures var t := WorkerNext(c, s, e);
            && Owns(t.wrk.pc, t.flags, t.dtor) == Owns(s.wrk.pc, s.flags, s.dtor)
            && (Owns(s.wrk.pc, s.flags, s.dtor) ==> t.flags.m_sockfd == s.flags.m_sockfd)
            && t.fds.closes == s.fds.closes && t.fds.stray == s.fds.stray && t.fds.open.Keys == s.fds.open.Keys
            && forall fd :: fd in s.fds.open ==> t.fds.open[fd].id == s.fds.open[fd].id
  {
  }

  /** What the three steps with a descriptor call do to the descriptors. */
  lemma WorkerMovesOwner(c: Config, s: State, e: Env)
    requires StatusOk(s.wrk.pc, s.flags) && WorkerEnabled(c, s, e)
    requires s.wrk.pc == NeedSocket || s.wrk.pc == DropRefused || s.wrk.pc == CloseFd
    ensures var t := WorkerNext(c, s, e);
            if s.wrk.pc == NeedSocket then
              if e.fd < 0 then t.fds == s.fds && !Owns(t.wrk.pc, t.flags, t.dtor)
              else
                && Owns(t.wrk.pc, t.flags, t.dtor) && t.flags == s.flags.(m_sockfd := e.fd)
                && t.fds == Opened(s.fds, e.fd)
            else t.fds == ClosedFd(s.fds, s.flags.m_sockfd) && t.flags == s.flags && !Owns(t.wrk.pc, t.flags, t.dtor)
  {
  }

  lemma WorkerKeepsCloses(c: Config, s: State, e: Env)
    requires Ok(s) && WorkerEnabled(c, s, e)
    ensures var t := WorkerNext(c, s, e); ClosesOk(Owns(t.wrk.pc, t.flags, t.dtor), t.flags, t.fds)
  {
    if s.wrk.pc == NeedSocket || s.wrk.pc == DropRefused || s.wrk.pc == CloseFd {
      MoveKeepsCloses(c, s, e);
    } else {
      WorkerKeepsOwner(c, s, e);
      hide WorkerNext, WorkerEnabled, Owns, StatusOk, LinkOk, StopOk;
    }
  }

  lemma OwnsBefore(s: State)
    requires s.wrk.pc == NeedSocket || s.wrk.pc == DropRefused || (s.wrk.pc == CloseFd && s.dtor != Gone)
    ensures Owns(s.wrk.pc, s.flags, s.dtor) == (s.wrk.pc != NeedSocket)
  {
  }

  lemma MoveKeepsCloses(c: Config, s: State, e: Env)
    requires StatusOk(s.wrk.pc, s.flags) && WorkerEnabled(c, s, e)
    requires ClosesOk(Owns(s.wrk.pc, s.flags, s.dtor), s.flags, s.fds) && (s.wrk.pc == CloseFd ==> s.dtor != Gone)
    requires s.wrk.pc == NeedSocket || s.wrk.pc == DropRefused || s.wrk.pc == CloseFd
    ensures var t := WorkerNext(c, s, e); ClosesOk(Owns(t.wrk.pc, t.flags, t.dtor), t.flags, t.fds)
  {
    hide WorkerNext, StatusOk, Owns, ClosesOk, ClosedFd;
    WorkerMovesOwner(c, s, e);
    OwnsBefore(s);
    if s.wrk.pc != NeedSocket {
      CloseOwned(s.flags, s.fds);
    } else if e.fd >= 0 {
      OpenOne(s.flags, s.fds, e.fd);
    } else {
      Unowned(s.flags, WorkerNext(c, s, e).flags, s.fds);
    }
  }

  lemma Unowned(f: Flags, g: Flags, d: Descriptors)
    requires ClosesOk(false, f, d)
    ensures ClosesOk(false, g, d)
  {
  }

  lemma LinkKept(c: Config, s: State, e: Env)
    requires StatusOk(s.wrk.pc, s.flags) && LinkOk(s) && WorkerEnabled(c, s, e)
    requires ClosesOk(Owns(s.wrk.pc, s.flags, s.dtor), s.flags, s.fds)
    ensures LinkOk(WorkerNext(c, s, e))
  {
  }

  lemma StopKept(c: Config, s: State, e: Env)
    requires StatusOk(s.wrk.pc, s.flags) && LinkOk(s) && StopOk(s) && WorkerEnabled(c, s, e)
    ensures StopOk(WorkerNext(c, s, e))
  {
  }

  lemma WorkerKeepsLink(c: Config, s: State, e: Env)
    requires Ok(s) && WorkerEnabled(c, s, e)
    ensures LinkOk(WorkerNext(c, s, e)) && StopOk(WorkerNext(c, s, e))
  {
    hide WorkerNext, WorkerEnabled, LinkOk, StopOk, StatusOk, ClosesOk;
    LinkKept(c, s, e);
    StopKept(c, s, e);
  }

  lemma DtorKeeps(s: State)
    requires Ok(s) && s.dtor != Gone && (s.dtor == Joining ==> s.wrk.pc == Ended)
    ensures Ok(DtorNext(s))
  {
    if s.dtor.FinalClose? { CloseOwned(s.flags, s.fds); }
  }

  lemma ServerKeeps(s: State, a: Action)
    requires Ok(s) && ServerEnabled(s, a)
    ensures Ok(ServerNext(s, a))
  {
  }

  lemma StepKeeps(c: Config, s: State, a: Action)
    requires Ok(s) && Enabled(c, s, a)
    ensures Ok(Next(c, s, a))
  {
    match a
    case Insert(_, _) =>
    case Gui =>
    case Worker(e) =>
      WorkerKeepsStatus(c, s, e);
      WorkerKeepsCloses(c, s, e);
      WorkerKeepsLink(c, s, e);
    case Dtor => DtorKeeps(s);
    case _ => ServerKeeps(s, a);
  }

  lemma {:induction false} Always(c: Config, acts: seq<Action>)
    requires After(c, acts).Some?
    ensures Ok(After(c, acts).value)
  {
    if acts != [] {
      Always(c, acts[..|acts| - 1]);
      StepKeeps(c, After(c, acts[..|acts| - 1]).value, acts[|acts| - 1]);
    }
  }

  // ---- Main results --------------------------------------------------------

  lemma {:induction false} RoomToRead(c: Config, acts: seq<Action>)
    requires After(c, acts).Some? && After(c, acts).value.wrk.pc == Reading
    ensures After(c, acts).value.wrk.nread < c.n
  {
    var before, a := acts[..|acts| - 1], acts[|acts| - 1];
    var s := After(c, before).value;
    hide WorkerNext, ServerNext;
    if a.Worker? {
      ReadingFrom(c, s, a.env);
    } else {
      WorkerStays(c, s, a);
      RoomToRead(c, before);
    }
  }

  lemma ReadingFrom(c: Config, s: State, e: Env)
    requires WorkerEnabled(c, s, e) && WorkerNext(c, s, e).wrk.pc == Reading
    ensures WorkerNext(c, s, e).wrk.nread < c.n
  {
  }

  lemma WorkerStays(c: Config, s: State, a: Action)
    requires Enabled(c, s, a) && !a.Worker?
    ensures Next(c, s, a).wrk == s.wrk
  {
  }

  /** The worker has a next step that is neither an interruption nor an error out
      of nothing: the call it is in returns by itself. */
  ghost predicate Moves(c: Config, s: State) {
    s.wrk.pc == Ended || exists e :: WorkerEnabled(c, s, e) && e != ReadIntr && e != ReadFail
  }

  /** A destructor waiting in `join` never faces a worker stuck in `read`, and
      a worker that has not ended moves on. */
  lemma NoHang(c: Config, acts: seq<Action>)
    requires After(c, acts).Some? && After(c, acts).value.dtor == Joining
    ensures !BlockedInRead(After(c, acts).value) && Moves(c, After(c, acts).value)
  {
    Always(c, acts);
    var s := After(c, acts).value;
    if s.wrk.pc == Reading { RoomToRead(c, acts); }
    JoinMoves(c, s);
  }

  lemma JoinMoves(c: Config, s: State)
    requires Ok(s) && s.dtor == Joining && (s.wrk.pc == Reading ==> s.wrk.nread < c.n)
    ensures Moves(c, s)
  {
    var e := if s.wrk.pc == NeedSocket then GotSocket(0) else if s.wrk.pc == NeedConnect then Connected(false)
             else if s.wrk.pc == Reading then if Here(s).pipe == [] then ReadEof else ReadData(1)
             else Tau;
    assert s.wrk.pc != Ended ==> WorkerEnabled(c, s, e);
  }

  /** Worker steps left once `m_stop` is set, whatever the kernel answers. */
  function Rank(p: WorkerPc): nat {
    match p
    case Ended => 0
    case Head => 1
    case Start | Publishing | Napping | ForgetFd => 2
    case ForgetRefused | CloseFd => 3
    case DropRefused | ShutDown => 4
    case MarkDown => 5
    case Decide => 6
    case ReadHead => 7
    case Reading | MarkUp => 8
    case NeedConnect => 9
    case NeedSocket => 10
    case Check => 11
  }

  lemma RankDecreases(c: Config, s: State, e: Env)
    requires s.flags.m_stop && WorkerEnabled(c, s, e)
    ensures WorkerNext(c, s, e).flags.m_stop
    ensures Rank(WorkerNext(c, s, e).wrk.pc) < Rank(s.wrk.pc)
  {
  }

  lemma RankStays(c: Config, s: State, a: Action)
    requires s.flags.m_stop && Enabled(c, s, a) && !a.Worker?
    ensures Next(c, s, a).flags.m_stop && Next(c, s, a).wrk.pc == s.wrk.pc
  {
  }

  function WorkerSteps(acts: seq<Action>): nat {
    if acts == [] then 0 else WorkerSteps(acts[..|acts| - 1]) + if acts[|acts| - 1].Worker? then 1 else 0
  }

  /** From the store of `m_stop` on, a run holds at most eleven worker steps; with
      `NoHang` (no worker step waits for ever after the join began) the join returns. */
  lemma {:induction false} StopBoundsWorker(c: Config, before: seq<Action>, acts: seq<Action>)
    requires After(c, before).Some? && After(c, before).value.flags.m_stop
    requires After(c, before + acts).Some?
    ensures After(c, before + acts).value.flags.m_stop
    ensures WorkerSteps(acts) + Rank(After(c, before + acts).value.wrk.pc) <= Rank(After(c, before).value.wrk.pc) <= 11
    decreases |acts|
  {
    if acts == [] {
      assert before + acts == before;
    } else {
      var k := |acts| - 1;
      assert (before + acts)[..|before + acts| - 1] == before + acts[..k];
      StopBoundsWorker(c, before, acts[..k]);
      var s := After(c, before + acts[..k]).value;
      if acts[k].Worker? { RankDecreases(c, s, acts[k].env); } else { RankStays(c, s, acts[k]); }
    }
  }

  /** Both together: however the run goes on after the join began, it holds at most
      eleven worker steps, and the worker is never stuck in between. */
  lemma JoinReturns(c: Config, before: seq<Action>, acts: seq<Action>)
    requires After(c, before).Some? && After(c, before).value.dtor == Joining
    requires After(c, before + acts).Some?
    ensures WorkerSteps(acts) <= 11
    ensures var s := After(c, before + acts).value;
            s.dtor == Joining ==> !BlockedInRead(s) && Moves(c, s)
  {
    Always(c, before);
    StopBoundsWorker(c, before, acts);
    if After(c, before + acts).value.dtor == Joining { NoHang(c, before + acts); }
  }

  /** At the head of the worker's loop the status flag and the descriptor agree. */
  lemma StatusAtHead(c: Config, acts: seq<Action>)
    requires After(c, acts).Some? && After(c, acts).value.wrk.pc == Head
    ensures After(c, acts).value.flags.m_status <==> After(c, acts).value.flags.m_sockfd >= 0
  {
    Always(c, acts);
  }

  lemma ClosesBounded(own: bool, f: Flags, d: Descriptors)
    requires ClosesOk(own, f, d)
    ensures forall i :: 0 <= i < |d.closes| ==> d.closes[i] <= 1
  {
  }

  /** No descriptor is closed twice, none that is not open, and after the
      destructor every one the kernel handed out has been closed. */
  lemma ClosedOnce(c: Config, acts: seq<Action>, s: State)
    requires After(c, acts) == Some(s)
    ensures s.fds.stray == 0
    ensures forall i :: 0 <= i < |s.fds.closes| ==> s.fds.closes[i] <= 1
    ensures s.dtor == Gone ==> s.fds.open == map[] && forall i :: 0 <= i < |s.fds.closes| ==> s.fds.closes[i] == 1
  {
    Always(c, acts);
    ClosesBounded(Owns(s.wrk.pc, s.flags, s.dtor), s.flags, s.fds);
  }
}
