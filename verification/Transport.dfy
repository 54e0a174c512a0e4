/** The TCP path as a system of five concurrent parties: the server's GUI and
    sender threads, the kernel, and the client's worker, GUI and destructor
    (server tcpservice.cpp `run`, client tcpservice.cpp, the poll timer of the
    client window). One action is one shared access, one system call, or one
    critical section of a mutex. */
module Transport {
  import opened Bits
  import opened Setting
  import opened Layout
  import opened ClientCom
  import opened Wrappers

  /** A field of the layout and the type of the getter that reads it. */
  datatype Signal = Signal(info: Info, ctype: CType)

  datatype Config = Config(n: nat, signals: seq<Signal>)

  function Infos(c: Config): set<Info> {
    set i | 0 <= i < |c.signals| :: c.signals[i].info
  }

  ghost predicate ValidConfig(c: Config) {
    && 1 <= c.n <= 4
    && Separate(Infos(c))
    && forall i :: 0 <= i < |c.signals| ==>
         Encodable(c.n, c.signals[i].info) && c.signals[i].info.length <= Width(c.signals[i].ctype)
  }

  // ---- State ---------------------------------------------------------------

  datatype ServerPc = Accepting | Sleeping(conn: nat) | Snapped(conn: nat) | Closing(conn: nat)

  /** One `send` that moved `len` bytes of a snapshot reflecting `at` inserts. */
  datatype Sending = Sending(at: nat, len: nat)

  /** One TCP connection. `wire`, `sent`, `got` and `pubs` are history: all bytes
      sent, the sends that moved them, the bytes received and the frames
      published by the client. */
  datatype Conn = Conn(
    pipe: seq<Byte>, accepted: bool, serverClosed: bool, clientShut: bool,
    wire: seq<Byte>, sent: seq<Sending>, got: nat, pubs: nat)

  datatype WorkerPc =
    | Start | Head | Check | NeedSocket | NeedConnect | DropRefused | ForgetRefused | Napping | MarkUp
    | ReadHead | Reading | Decide | Publishing | MarkDown | ShutDown | CloseFd | ForgetFd | Ended

  datatype DtorPc = Alive | LoadStatus | LoadFd | Shutting(fd: int) | Joining | CheckFd | FinalClose(fd: int) | Gone

  datatype GuiPc = Waiting | Getting(i: nat) | Clearing

  /** A descriptor of the client: which `socket` call made it, what it is connected to. */
  datatype Desc = Desc(id: nat, conn: Option<nat>)

  /** What a getter returned, how many inserts had been made by then, and whether
      nothing had been published since the start or the last clear. */
  datatype Obs = Obs(sig: nat, val: int, at: nat, cleared: bool)

  /** `log`, `frames` and `tempAt` are history: the inserts, the buffer after each
      of them (oldest first), the inserts the snapshot being sent reflects. */
  datatype Server = Server(
    m_buf: seq<Byte>, pc: ServerPc, temp_buf: seq<Byte>,
    log: seq<Write>, frames: seq<seq<Byte>>, tempAt: nat)

  /** What the client's threads share beside the buffer. */
  datatype Flags = Flags(m_stop: bool, m_status: bool, m_sockfd: int)

  datatype WorkerState = WorkerState(pc: WorkerPc, tmpbuf: seq<Byte>, nread: nat, ok: bool)

  /** The client's open descriptors. History: how often the descriptor of each
      `socket` call was closed, and closes of descriptors that were not open. */
  datatype Descriptors = Descriptors(open: map<int, Desc>, closes: seq<nat>, stray: nat)

  /** `blank`, `source`, `obs` and `froms` are history: nothing was published since
      the start or the last clear, the inserts the newest published frame reflects,
      the getter results, and `source` at each of them. */
  datatype View = View(
    m_buffer: seq<Byte>, pc: GuiPc, blank: bool, source: nat, obs: seq<Obs>, froms: seq<nat>)

  datatype State = State(
    srv: Server, net: seq<Conn>, flags: Flags, wrk: WorkerState, fds: Descriptors, dtor: DtorPc, gui: View)

  function Zeros(n: nat): (s: seq<Byte>)
    ensures |s| == n
  {
    seq(n, i => 0)
  }

  function Init(c: Config): State {
    State(Server(Zeros(c.n), Accepting, [], [], [Zeros(c.n)], 0), [],
          Flags(false, false, -1), WorkerState(Start, Zeros(c.n), 0, true),
          Descriptors(map[], [], 0), Alive, View(Zeros(c.n), Waiting, true, 0, [], []))
  }

  // ---- Actions -------------------------------------------------------------

  /** What the environment decides in a worker step. */
  datatype Env = Tau | BadAddress | GotSocket(fd: int) | Connected(ok: bool)
               | ReadData(k: nat) | ReadIntr | ReadEof | ReadFail

  datatype Action =
    | Insert(sig: nat, val: int)
    | Accept(conn: nat) | Snapshot | Send | SendShort(k: nat) | SendFail | Quit | ServerClose
    | Worker(env: Env)
    | Dtor
    | Gui

  /** The connection behind `m_sockfd`. */
  predicate HasConn(s: State) {
    s.flags.m_sockfd in s.fds.open && s.fds.open[s.flags.m_sockfd].conn.Some?
    && s.fds.open[s.flags.m_sockfd].conn.value < |s.net|
  }

  function HereAt(s: State): (i: nat)
    requires HasConn(s)
    ensures i < |s.net|
  {
    s.fds.open[s.flags.m_sockfd].conn.value
  }

  function Here(s: State): Conn
    requires HasConn(s)
  {
    s.net[HereAt(s)]
  }

  predicate ReadEnabled(c: Config, s: State, e: Env) {
    HasConn(s) &&
    match e
    case ReadData(k) => 1 <= k <= |Here(s).pipe| && s.wrk.nread + k <= c.n
    case ReadEof => Here(s).pipe == [] && (Here(s).serverClosed || Here(s).clientShut)
    case ReadIntr | ReadFail => true
    case _ => false
  }

  /** No byte has arrived and none will: `read` would wait for ever. */
  predicate BlockedInRead(s: State) {
    s.wrk.pc == Reading &&
    !(HasConn(s) && (Here(s).pipe != [] || Here(s).serverClosed || Here(s).clientShut))
  }

  predicate WorkerEnabled(c: Config, s: State, e: Env) {
    match s.wrk.pc
    case Start => e == Tau || e == BadAddress
    case NeedSocket => e.GotSocket? && e.fd !in s.fds.open
    case NeedConnect => e.Connected?
    case Reading => ReadEnabled(c, s, e)
    case Ended => false
    case _ => e == Tau
  }

  predicate ServerEnabled(s: State, a: Action) {
    match a
    case Accept(i) => s.srv.pc == Accepting && i < |s.net| && !s.net[i].accepted
    case Snapshot => s.srv.pc.Sleeping?
    case Send => s.srv.pc.Snapped? && s.srv.pc.conn < |s.net|
    case SendShort(k) => s.srv.pc.Snapped? && s.srv.pc.conn < |s.net| && 0 < k < |s.srv.temp_buf|
    case SendFail => s.srv.pc.Snapped?
    case Quit => s.srv.pc.Sleeping?
    case ServerClose => s.srv.pc.Closing? && s.srv.pc.conn < |s.net|
    case _ => false
  }

  predicate Enabled(c: Config, s: State, a: Action) {
    match a
    case Insert(i, _) => i < |c.signals|
    case Worker(e) => WorkerEnabled(c, s, e)
    case Dtor => s.dtor != Gone && (s.dtor == Joining ==> s.wrk.pc == Ended)
    case Gui => true
    case _ => ServerEnabled(s, a)
  }

  function ClosedFd(d: Descriptors, fd: int): Descriptors {
    if fd in d.open && d.open[fd].id < |d.closes| then
      var id := d.open[fd].id;
      d.(open := d.open - {fd}, closes := d.closes[id := d.closes[id] + 1])
    else d.(stray := d.stray + 1)
  }

  function ShutFd(d: Descriptors, net: seq<Conn>, fd: int): (r: seq<Conn>)
    ensures |r| == |net|
  {
    if fd in d.open && d.open[fd].conn.Some? && d.open[fd].conn.value < |net| then
      var i := d.open[fd].conn.value;
      net[i := net[i].(clientShut := true)]
    else net
  }

  function Goto(s: State, p: WorkerPc): State {
    s.(wrk := s.wrk.(pc := p))
  }

  /** `tmpbuf` with `bytes` stored from index `at`. */
  function Stored(tmpbuf: seq<Byte>, at: nat, bytes: seq<Byte>): seq<Byte> {
    if at + |bytes| <= |tmpbuf| then tmpbuf[..at] + bytes + tmpbuf[at + |bytes|..] else tmpbuf
  }

  /** The return of `read`. */
  function ReadNext(c: Config, s: State, e: Env): State
    requires ReadEnabled(c, s, e)
  {
    match e
    case ReadData(k) =>
      var d := Here(s);
      s.(net := s.net[HereAt(s) := d.(pipe := d.pipe[k..], got := d.got + k)],
         wrk := WorkerState(ReadHead, Stored(s.wrk.tmpbuf, s.wrk.nread, d.pipe[..k]), s.wrk.nread + k, s.wrk.ok))
    case ReadIntr => Goto(s, ReadHead)
    case _ => s.(wrk := s.wrk.(ok := false, pc := Decide))
  }

  /** The critical section that copies `tmpbuf` to `m_buffer`. */
  function Publish(s: State): State {
    if !HasConn(s) then Goto(s.(gui := s.gui.(m_buffer := s.wrk.tmpbuf, blank := false)), Head)
    else
      var d := Here(s);
      Goto(s.(net := s.net[HereAt(s) := d.(pubs := d.pubs + 1)],
              gui := s.gui.(m_buffer := s.wrk.tmpbuf, blank := false,
                            source := if d.pubs < |d.sent| then d.sent[d.pubs].at else s.gui.source)), Head)
  }

  function Opened(d: Descriptors, fd: int): Descriptors {
    d.(open := d.open[fd := Desc(|d.closes|, None)], closes := d.closes + [0])
  }

  function SocketNext(s: State, fd: int): State {
    var t := s.(flags := s.flags.(m_sockfd := fd));
    if fd < 0 then Goto(t, Ended)
    else Goto(t.(fds := Opened(s.fds, fd)), NeedConnect)
  }

  function ConnectNext(s: State, ok: bool): State {
    var fd := s.flags.m_sockfd;
    if !ok || fd !in s.fds.open then Goto(s, DropRefused)
    else Goto(s.(net := s.net + [Conn([], false, false, false, [], [], 0, 0)],
                 fds := s.fds.(open := s.fds.open[fd := s.fds.open[fd].(conn := Some(|s.net|))])), MarkUp)
  }

  function WorkerNext(c: Config, s: State, e: Env): State
    requires WorkerEnabled(c, s, e)
  {
    match s.wrk.pc
    case Start => Goto(s, if e == BadAddress then Ended else Head)
    case Head => Goto(s, if s.flags.m_stop then Ended else Check)
    case Check =>
      if s.flags.m_status then s.(wrk := s.wrk.(nread := 0, ok := true, pc := ReadHead)) else Goto(s, NeedSocket)
    case NeedSocket => SocketNext(s, e.fd)
    case NeedConnect => ConnectNext(s, e.ok)
    case DropRefused => Goto(s.(fds := ClosedFd(s.fds, s.flags.m_sockfd)), ForgetRefused)
    case ForgetRefused => Goto(s.(flags := s.flags.(m_sockfd := -1)), Napping)
    case Napping => Goto(s, Head)
    case MarkUp => s.(flags := s.flags.(m_status := true), wrk := s.wrk.(nread := 0, ok := true, pc := ReadHead))
    case ReadHead => Goto(s, if s.wrk.nread < c.n && !s.flags.m_stop then Reading else Decide)
    case Reading => ReadNext(c, s, e)
    case Decide => Goto(s, if s.wrk.ok && s.wrk.nread == c.n then Publishing else MarkDown)
    case Publishing => Publish(s)
    case MarkDown => Goto(s.(flags := s.flags.(m_status := false)), ShutDown)
    case ShutDown => Goto(s.(net := ShutFd(s.fds, s.net, s.flags.m_sockfd)), CloseFd)
    case CloseFd => Goto(s.(fds := ClosedFd(s.fds, s.flags.m_sockfd)), ForgetFd)
    case ForgetFd => Goto(s.(flags := s.flags.(m_sockfd := -1)), Head)
  }

  function DtorNext(s: State): State
    requires s.dtor != Gone
  {
    match s.dtor
    case Alive => s.(flags := s.flags.(m_stop := true), dtor := LoadStatus)
    case LoadStatus => s.(dtor := if s.flags.m_status then LoadFd else Joining)
    case LoadFd => s.(dtor := Shutting(s.flags.m_sockfd))
    case Shutting(fd) => s.(net := ShutFd(s.fds, s.net, fd), dtor := Joining)
    case Joining => s.(dtor := CheckFd)
    case CheckFd => s.(dtor := if s.flags.m_sockfd >= 0 then FinalClose(s.flags.m_sockfd) else Gone)
    case FinalClose(fd) => s.(fds := ClosedFd(s.fds, fd), dtor := Gone)
  }

  function GuiNext(c: Config, s: State): View {
    match s.gui.pc
    case Waiting => s.gui.(pc := if s.flags.m_status then Getting(0) else Clearing)
    case Clearing => s.gui.(m_buffer := Zeros(c.n), blank := true, pc := Waiting)
    case Getting(i) =>
      if i < |c.signals| && c.signals[i].info.start / 8 <= |s.gui.m_buffer| then
        var x := c.signals[i];
        var v := ReadValue(x.ctype, s.gui.m_buffer, x.info.start, x.info.length);
        s.gui.(obs := s.gui.obs + [Obs(i, v, |s.srv.log|, s.gui.blank)], froms := s.gui.froms + [s.gui.source],
               pc := Getting(i + 1))
      else s.gui.(pc := Waiting)
  }

  function InsertNext(c: Config, v: Server, i: nat, val: int): Server
    requires i < |c.signals|
  {
    var f := c.signals[i].info;
    var b := ToBytes(Put(LE(v.m_buf), f.start, f.length, Pattern(f, val)), c.n);
    v.(m_buf := b, log := v.log + [Write(f, val)], frames := v.frames + [b])
  }

  /** `send` moved the first `k` bytes of the snapshot and was taken for a success. */
  function Sent(s: State, i: nat, k: nat): State
    requires i < |s.net| && k <= |s.srv.temp_buf|
  {
    var d, bytes := s.net[i], s.srv.temp_buf[..k];
    s.(net := s.net[i := d.(pipe := d.pipe + bytes, wire := d.wire + bytes,
                            sent := d.sent + [Sending(s.srv.tempAt, k)])],
       srv := s.srv.(pc := Sleeping(i)))
  }

  function ServerNext(s: State, a: Action): State
    requires ServerEnabled(s, a)
  {
    var p := s.srv.pc;
    match a
    case Accept(i) => s.(net := s.net[i := s.net[i].(accepted := true)], srv := s.srv.(pc := Sleeping(i)))
    case Snapshot => s.(srv := s.srv.(temp_buf := s.srv.m_buf, tempAt := |s.srv.log|, pc := Snapped(p.conn)))
    case Send => Sent(s, p.conn, |s.srv.temp_buf|)
    case SendShort(k) => Sent(s, p.conn, k)
    case SendFail => s.(srv := s.srv.(pc := Closing(p.conn)))
    case Quit => s.(srv := s.srv.(pc := Closing(p.conn)))
    case ServerClose =>
      s.(net := s.net[p.conn := s.net[p.conn].(serverClosed := true)], srv := s.srv.(pc := Accepting))
  }

  function Next(c: Config, s: State, a: Action): State
    requires Enabled(c, s, a)
  {
    match a
    case Insert(i, v) => s.(srv := InsertNext(c, s.srv, i, v))
    case Worker(e) => WorkerNext(c, s, e)
    case Dtor => DtorNext(s)
    case Gui => s.(gui := GuiNext(c, s))
    case _ => ServerNext(s, a)
  }

  /** The state after a sequence of actions, if each was possible in its turn. */
  function After(c: Config, acts: seq<Action>): Option<State> {
    if acts == [] then Some(Init(c))
    else
      var before := After(c, acts[..|acts| - 1]);
      var a := acts[|acts| - 1];
      if before.Some? && Enabled(c, before.value, a) then Some(Next(c, before.value, a)) else None
  }
}
