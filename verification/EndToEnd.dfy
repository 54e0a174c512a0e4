/** The real table through the whole chain: what the server's window shows is
    what the client's canvas shows (desktop/client/src/window.cpp poll timer),
    and what goes wrong when a send is cut short. */
module EndToEnd {
  import opened Bits
  import opened Setting
  import opened Layout
  import opened Transport
  import opened Wire
  import opened Wrappers
  import opened ServerWindow
  import ServerCom
  import ClientCom
  import Freshness
  import Sound

  const REAL := Config(SBUFLEN, [
    Signal(SPEED, ClientCom.U8), Signal(TEMPERATURE, ClientCom.I8), Signal(BATTERY_LEVEL, ClientCom.U8),
    Signal(LEFT_LIGHT, ClientCom.Bool), Signal(RIGHT_LIGHT, ClientCom.Bool)])

  lemma RealConfig()
    ensures ValidConfig(REAL) && Infos(REAL) == LAYOUT
    ensures forall i :: 0 <= i < |REAL.signals| ==>
              REAL.signals[i].info in LAYOUT && REAL.signals[i].ctype.I8? == SignedSignal(REAL.signals[i].info)
  {
    TableTiles();
    assert REAL.signals[0].info == SPEED && REAL.signals[1].info == TEMPERATURE
           && REAL.signals[2].info == BATTERY_LEVEL && REAL.signals[3].info == LEFT_LIGHT
           && REAL.signals[4].info == RIGHT_LIGHT;
    forall f | f in LAYOUT ensures f in Infos(REAL) {
      var i := if f == SPEED then 0 else if f == TEMPERATURE then 1 else if f == BATTERY_LEVEL then 2
               else if f == LEFT_LIGHT then 3 else 4;
      assert REAL.signals[i].info == f;
    }
  }

  // ---- Ranges over whole runs ----------------------------------------------

  /** The GUI inserts declared values only, as `ServerWindow.Window` does. */
  ghost predicate DeclaredInserts(acts: seq<Action>) {
    forall i :: 0 <= i < |acts| && acts[i].Insert? && acts[i].sig < |REAL.signals| ==>
      REAL.signals[acts[i].sig].info.min <= acts[i].val <= REAL.signals[acts[i].sig].info.max
  }

  lemma {:induction false} LogDeclared(acts: seq<Action>)
    requires DeclaredInserts(acts) && After(REAL, acts).Some?
    ensures Declared(After(REAL, acts).value.srv.log)
  {
    RealConfig();
    if acts != [] {
      LogDeclared(acts[..|acts| - 1]);
      LogStep(After(REAL, acts[..|acts| - 1]).value, acts[|acts| - 1]);
    }
  }

  lemma LogStep(s: State, a: Action)
    requires Enabled(REAL, s, a)
    ensures Next(REAL, s, a).srv.log ==
            if a.Insert? then s.srv.log + [Write(REAL.signals[a.sig].info, a.val)] else s.srv.log
  {
  }

  /** In every run with declared inserts that publishes nothing mixed, every value
      a getter returns lies in the declared range of its signal. */
  lemma ShownInRange(acts: seq<Action>, s: State, i: nat)
    requires DeclaredInserts(acts) && After(REAL, acts) == Some(s) && Freshness.Unmixed(SBUFLEN, s.net)
    requires i < |s.gui.obs|
    ensures s.gui.obs[i].sig < |REAL.signals|
    ensures var f := REAL.signals[s.gui.obs[i].sig].info; f.min <= s.gui.obs[i].val <= f.max
  {
    RealConfig();
    TableTiles();
    LogDeclared(acts);
    Freshness.FreshValues(REAL, acts, s);
    var ks: seq<nat> :| |ks| == |s.gui.obs| && Freshness.Sorted(ks)
                        && forall j :: 0 <= j < |ks| ==> Freshness.Explained(REAL, s.srv.log, s.gui.obs[j], ks[j]);
    assert Freshness.Explained(REAL, s.srv.log, s.gui.obs[i], ks[i]);
    ExplainedInRange(s.srv.log, s.gui.obs[i], ks[i]);
  }

  lemma ExplainedInRange(log: seq<Write>, o: Obs, k: nat)
    requires Declared(log) && Freshness.Explained(REAL, log, o, k)
    ensures REAL.signals[o.sig].info.min <= o.val <= REAL.signals[o.sig].info.max
  {
    RealConfig();
    TableTiles();
    var f := REAL.signals[o.sig].info;
    assert f in LAYOUT;
    RangeSafety(log, k, f);
    LatestDecodes(log[..k], f);
  }

  // ---- One poll of the client window ---------------------------------------

  predicate On(v: int) { v != 0 }

  /** What the buffer holds at each of the five critical sections of a poll: the
      worker may publish between any two. */
  ghost predicate Frames(found: seq<seq<Byte>>) {
    |found| == 5 && forall i :: 0 <= i < 5 ==> |found[i]| == SBUFLEN
  }

  ghost predicate Ready(com: ClientCom.COMService) {
    && com.m_buffer.Length == SBUFLEN && ServerCom.RealTable(com.settings)
    && forall k :: k in com.settings ==> Fits(SBUFLEN, com.settings[k])
  }

  /** The timer's lambda, with the connection status it loaded. */
  method Poll(com: ClientCom.COMService, canvas: Sound.Canvas, status: bool, exits: bool, found: seq<seq<Byte>>)
    requires canvas.Valid() && Ready(com) && Frames(found)
    modifies canvas, com.m_buffer
    ensures canvas.Valid() && canvas.m_connected == status
    ensures status ==>
            && com.m_buffer[..] == found[4]
            && canvas.m_speed == Decode(false, LE(found[0]), SPEED)
            && canvas.m_temperature == Decode(true, LE(found[1]), TEMPERATURE)
            && canvas.m_batteryLevel == Decode(false, LE(found[2]), BATTERY_LEVEL)
            && canvas.m_leftLight == On(Decode(false, LE(found[3]), LEFT_LIGHT))
            && canvas.m_rightLight == On(Decode(false, LE(found[4]), RIGHT_LIGHT))
    ensures canvas.View() == Sound.After(canvas.files, old(canvas.View()),
              if status then Sound.Lights(canvas.m_leftLight, canvas.m_rightLight, exits)
              else Sound.Status(false, exits))
    ensures !status ==> LE(com.m_buffer[..]) == 0 && !canvas.m_leftLight && !canvas.m_rightLight
    ensures !status ==> canvas.m_speed == canvas.m_temperature == canvas.m_batteryLevel == 0
  {
    if status {
      canvas.SetCommunicationStatus(true, exits);
      var speed, temp, battery, left, right := Getters(com, found);
      canvas.SetSpeed(speed);
      canvas.SetTemperature(temp);
      canvas.SetBatteryLevel(battery);
      canvas.SetLightSignals(On(left), On(right), exits);
    } else {
      canvas.SetCommunicationStatus(false, exits);
      com.ClearBuffer();
    }
  }

  /** The five getters, with the worker publishing before each of them. */
  method Getters(com: ClientCom.COMService, found: seq<seq<Byte>>)
    returns (speed: int, temp: int, battery: int, left: int, right: int)
    requires Ready(com) && Frames(found)
    modifies com.m_buffer
    ensures com.m_buffer[..] == found[4]
    ensures speed == Decode(false, LE(found[0]), SPEED) && temp == Decode(true, LE(found[1]), TEMPERATURE)
    ensures battery == Decode(false, LE(found[2]), BATTERY_LEVEL)
    ensures left == Decode(false, LE(found[3]), LEFT_LIGHT) && right == Decode(false, LE(found[4]), RIGHT_LIGHT)
  {
    ServerCom.RealEntries(com.settings);
    assert SIGNALS[0].key == "speed" && SIGNALS[1].key == "temperature" && SIGNALS[2].key == "battery_level"
           && SIGNALS[3].key == "left_light" && SIGNALS[4].key == "right_light";
    hide Decode, LE, ServerCom.RealTable;
    com.Publish(found[0]);
    var a := com.Get(ClientCom.U8, "speed");
    com.Publish(found[1]);
    var b := com.Get(ClientCom.I8, "temperature");
    com.Publish(found[2]);
    var c := com.Get(ClientCom.U8, "battery_level");
    com.Publish(found[3]);
    var d := com.Get(ClientCom.Bool, "left_light");
    com.Publish(found[4]);
    var e := com.Get(ClientCom.Bool, "right_light");
    speed, temp, battery, left, right := a.value, b.value, c.value, d.value, e.value;
  }

  /** At a settled state of the server window its buffer decodes to the widgets,
      and the client would select the Warning sound exactly if the warning box is
      checked. */
  lemma SettledDisplay(window: Window)
    requires window.Valid()
    ensures var w := LE(window.com.m_buf[..]);
            && Decode(false, w, SPEED) == window.sld_speed
            && Decode(true, w, TEMPERATURE) == window.sld_temp
            && Decode(false, w, BATTERY_LEVEL) == window.sld_bat
            && On(Decode(false, w, LEFT_LIGHT)) == (window.left || window.warning)
            && On(Decode(false, w, RIGHT_LIGHT)) == (window.right || window.warning)
            && (Sound.Selected(On(Decode(false, w, LEFT_LIGHT)), On(Decode(false, w, RIGHT_LIGHT))) == Sound.WarningSound
                <==> window.warning)
  {
    var log := window.com.log;
    assert Over(log, LAYOUT);
    LatestDecodes(log, SPEED);
    LatestDecodes(log, TEMPERATURE);
    LatestDecodes(log, BATTERY_LEVEL);
    LatestDecodes(log, LEFT_LIGHT);
    LatestDecodes(log, RIGHT_LIGHT);
    assert !SignedSignal(SPEED) && SignedSignal(TEMPERATURE) && !SignedSignal(BATTERY_LEVEL)
           && !SignedSignal(LEFT_LIGHT) && !SignedSignal(RIGHT_LIGHT);
  }

  /** When the frame published last reflects all inserts of the server's window,
      the client's buffer is that window's buffer. */
  lemma UpToDate(window: Window, acts: seq<Action>, s: State)
    requires window.Wired() && After(REAL, acts) == Some(s) && Freshness.Unmixed(SBUFLEN, s.net)
    requires s.srv.log == window.com.log && !s.gui.blank && s.gui.source == |s.srv.log|
    ensures s.gui.m_buffer == window.com.m_buf[..]
  {
    RealConfig();
    Freshness.PublishedFrame(REAL, acts, s);
    assert s.srv.log[..|s.srv.log|] == s.srv.log;
    WordRoundTrip(window.com.m_buf[..]);
  }

  /** The player plays `sound`, or is an earlier one that was killed, and was so
      before or does not exit in time. */
  ghost predicate Plays(now: Sound.Player, was: Sound.Player, exits: bool, sound: string) {
    || now == Sound.Running(sound, false)
    || (was.Running? && now == Sound.Running(was.path, true) && (was.killed || !exits))
  }

  /** After any run of the transport that has brought the window's last insert to
      the client, one poll makes the canvas show the server's widgets and lights
      and play what its boxes say. */
  method Mirror(window: Window, com: ClientCom.COMService, canvas: Sound.Canvas, exits: bool, frame: seq<Byte>,
                ghost acts: seq<Action>, ghost s: State)
    requires window.Valid() && canvas.Valid() && Ready(com) && com.m_buffer != window.com.m_buf
    requires After(REAL, acts) == Some(s) && Freshness.Unmixed(SBUFLEN, s.net)
    requires s.srv.log == window.com.log && !s.gui.blank && s.gui.source == |s.srv.log|
    requires frame == s.gui.m_buffer
    modifies canvas, com.m_buffer
    ensures canvas.Valid() && canvas.m_connected
    ensures canvas.m_speed == window.sld_speed && canvas.m_temperature == window.sld_temp
    ensures canvas.m_batteryLevel == window.sld_bat
    ensures canvas.m_leftLight == (window.left || window.warning)
    ensures canvas.m_rightLight == (window.right || window.warning)
    ensures canvas.m_activeSignalSound ==
            if window.warning then Sound.WarningSound
            else if window.left then Sound.LeftSound
            else if window.right then Sound.RightSound else Sound.NoSound
    ensures !window.left && !window.right && !window.warning ==>
              canvas.m_signalSoundProcess.Running? ==> canvas.m_signalSoundProcess.killed
    ensures Sound.Audible(canvas.files) && (window.left || window.right || window.warning) ==>
              Plays(canvas.m_signalSoundProcess, old(canvas.m_signalSoundProcess), exits,
                    if window.warning then canvas.files.warning
                    else if window.left then canvas.files.left else canvas.files.right)
  {
    SettledDisplay(window);
    ghost var l, r := window.left || window.warning, window.right || window.warning;
    if Sound.Audible(canvas.files) && (l || r) { Sound.LightsFrom(canvas.files, canvas.View(), l, r, exits); }
    UpToDate(window, acts, s);
    assert |frame| == SBUFLEN;
    hide After, Freshness.Unmixed;
    Poll(com, canvas, true, exits, [frame, frame, frame, frame, frame]);
  }

  // ---- A short send --------------------------------------------------------

  /** The frame after a first insert of speed `v`. */
  lemma SpeedFrame(v: Byte)
    ensures LE(Zeros(3)) == 0
    ensures ToBytes(Put(0, SPEED.start, SPEED.length, Pattern(SPEED, v)), 3) == [v, 0, 0]
  {
    hide Put, Wrap, Scale, Shr, LE, ToBytes;
    AllZero(Zeros(3));
    LowestByte(v);
    LowPut(v, SPEED.length);
    LowBytes(v, 2);
  }

  lemma LowPut(v: nat, len: nat)
    ensures Put(0, 0, len, v) == v
  {
    ShrZero(len);
    ScaleUnit(len);
  }

  lemma LowBytes(v: Byte, n: nat)
    ensures ToBytes(v, n + 1) == [v] + Zeros(n)
  {
    assert v / 256 == 0;
    NoBytes(n);
  }

  lemma {:induction false} NoBytes(n: nat)
    ensures ToBytes(0, n) == Zeros(n)
  {
    if n > 0 { NoBytes(n - 1); }
  }

  /** Its speed byte read as the temperature byte. */
  lemma ShiftedTemperature(s: seq<Byte>, v: Byte)
    requires s == [v, v, 0] && 192 <= v
    ensures ClientCom.ReadValue(ClientCom.I8, s, TEMPERATURE.start, TEMPERATURE.length) == v - 256
  {
    hide Wrap, Shr, LE, ClientCom.ReadValue, Pow2;
    ThreeBytes(v, v, 0);
    ClientCom.ReadDecodes(ClientCom.I8, s, TEMPERATURE);
    LowestByte(LE(s));
    Pow2Values();
    WrapWrap(LE(s) / 256, 7, 8);
    LowestByte(LE(s) / 256);
    WrapShift(7, v - 128);
    WrapSmall(7, v - 128);
  }

  lemma ThreeBytes(a: Byte, b: Byte, c: Byte)
    ensures LE([a, b, c]) == a + 256 * (b + 256 * c)
  {
    assert [a, b, c][1..] == [b, c] && [b, c][1..] == [c] && [c][1..] == [];
    assert LE([c]) == c && LE([b, c]) == b + 256 * LE([c]);
  }

  ghost const FRAME: seq<Byte> := [200, 0, 0]
  ghost const MIXED: seq<Byte> := [200, 200, 0]
  ghost const SENT := [Sending(1, 1), Sending(1, 3)]

  // The states of a run, in order; each is the one before with what the step changed.
  ghost const BOOTED := Init(REAL)
  ghost const AT_HEAD := BOOTED.(wrk := BOOTED.wrk.(pc := Head))
  ghost const AT_CHECK := BOOTED.(wrk := BOOTED.wrk.(pc := Check))
  ghost const AT_SOCKET := BOOTED.(wrk := BOOTED.wrk.(pc := NeedSocket))
  ghost const AT_CONNECT := AT_SOCKET.(
    flags := Flags(false, false, 3), fds := Descriptors(map[3 := Desc(0, None)], [0], 0),
    wrk := BOOTED.wrk.(pc := NeedConnect))
  ghost const LINKED := AT_CONNECT.(
    net := [Conn([], false, false, false, [], [], 0, 0)], fds := Descriptors(map[3 := Desc(0, Some(0))], [0], 0),
    wrk := BOOTED.wrk.(pc := MarkUp))
  ghost const INSERTED := LINKED.(
    srv := Server(FRAME, Accepting, [], [Write(SPEED, 200)], [Zeros(3), FRAME], 0))
  ghost const ACCEPTED := INSERTED.(
    srv := INSERTED.srv.(pc := Sleeping(0)), net := [Conn([], true, false, false, [], [], 0, 0)])
  ghost const SNAPPED := ACCEPTED.(srv := INSERTED.srv.(pc := Snapped(0), temp_buf := FRAME, tempAt := 1))
  ghost const CUT := SNAPPED.(
    srv := SNAPPED.srv.(pc := Sleeping(0)),
    net := [Conn([200], true, false, false, [200], [Sending(1, 1)], 0, 0)])
  ghost const SNAPPED_AGAIN := CUT.(srv := SNAPPED.srv)
  ghost const SPLICED := CUT.(
    net := [Conn([200, 200, 0, 0], true, false, false, [200, 200, 0, 0], SENT, 0, 0)])
  ghost const MARKED := SPLICED.(
    flags := Flags(false, true, 3), wrk := WorkerState(ReadHead, Zeros(3), 0, true))
  ghost const READING := MARKED.(wrk := MARKED.wrk.(pc := Reading))
  ghost const RECEIVED := MARKED.(
    net := [Conn([0], true, false, false, [200, 200, 0, 0], SENT, 3, 0)],
    wrk := WorkerState(ReadHead, MIXED, 3, true))
  ghost const DECIDING := RECEIVED.(wrk := RECEIVED.wrk.(pc := Decide))
  ghost const PUBLISHING := RECEIVED.(wrk := RECEIVED.wrk.(pc := Publishing))
  ghost const PUBLISHED := RECEIVED.(
    net := [Conn([0], true, false, false, [200, 200, 0, 0], SENT, 3, 1)],
    wrk := RECEIVED.wrk.(pc := Head), gui := View(MIXED, Waiting, false, 1, [], []))
  ghost const POLLING := PUBLISHED.(gui := PUBLISHED.gui.(pc := Getting(0)))
  ghost const FIRST := Obs(0, ClientCom.ReadValue(ClientCom.U8, MIXED, SPEED.start, SPEED.length), 1, false)
  ghost const POLLED := POLLING.(gui := View(MIXED, Getting(1), false, 1, [FIRST], [1]))
  ghost const MISREAD := POLLING.(gui := View(MIXED, Getting(2), false, 1, [FIRST, Obs(1, -56, 1, false)], [1, 1]))

  ghost predicate Leads(s: State, a: Action, t: State) {
    Enabled(REAL, s, a) && Next(REAL, s, a) == t
  }

  lemma Opening()
    ensures Leads(BOOTED, Worker(Tau), AT_HEAD)
    ensures Leads(AT_HEAD, Worker(Tau), AT_CHECK)
    ensures Leads(AT_CHECK, Worker(Tau), AT_SOCKET)
  {
  }

  lemma Connecting()
    ensures Leads(AT_SOCKET, Worker(GotSocket(3)), AT_CONNECT)
    ensures Leads(AT_CONNECT, Worker(Connected(true)), LINKED)
  {
    assert map[][3 := Desc(0, None)] == map[3 := Desc(0, None)];
    assert AT_CONNECT.fds.open[3 := Desc(0, Some(0))] == LINKED.fds.open;
  }

  lemma Inserting()
    ensures Leads(LINKED, Insert(0, 200), INSERTED)
    ensures Leads(INSERTED, Accept(0), ACCEPTED)
  {
    hide Put, ToBytes, LE, Pattern;
    SpeedFrame(200);
    assert LINKED.srv.frames + [FRAME] == INSERTED.srv.frames;
  }

  lemma Cutting()
    ensures Leads(ACCEPTED, Snapshot, SNAPPED)
    ensures Leads(SNAPPED, SendShort(1), CUT)
  {
    assert FRAME[..1] == [200];
    var d := Sent(SNAPPED, 0, 1).net[0];
    assert d.pipe == [200] && d.wire == [200] && d.sent == [Sending(1, 1)];
    assert Sent(SNAPPED, 0, 1).net == CUT.net;
  }

  lemma Splicing()
    ensures Leads(CUT, Snapshot, SNAPPED_AGAIN)
    ensures Leads(SNAPPED_AGAIN, Send, SPLICED)
  {
    assert FRAME[..3] == FRAME;
    var d := Sent(SNAPPED_AGAIN, 0, 3).net[0];
    assert d.pipe == [200, 200, 0, 0] && d.wire == [200, 200, 0, 0] && d.sent == SENT;
    assert Sent(SNAPPED_AGAIN, 0, 3).net == SPLICED.net;
  }

  lemma Receiving()
    ensures Leads(SPLICED, Worker(Tau), MARKED)
    ensures Leads(MARKED, Worker(Tau), READING)
    ensures Leads(READING, Worker(ReadData(3)), RECEIVED)
  {
    assert READING.net[0].pipe[..3] == MIXED && READING.net[0].pipe[3..] == [0];
    assert Stored(Zeros(3), 0, MIXED) == MIXED;
  }

  lemma PublishingMixed()
    ensures Leads(RECEIVED, Worker(Tau), DECIDING)
    ensures Leads(DECIDING, Worker(Tau), PUBLISHING)
    ensures Leads(PUBLISHING, Worker(Tau), PUBLISHED)
  {
  }

  lemma Polling()
    ensures Leads(PUBLISHED, Gui, POLLING)
    ensures Leads(POLLING, Gui, POLLED)
    ensures Leads(POLLED, Gui, MISREAD)
  {
    hide ClientCom.ReadValue;
    ShiftedTemperature(MIXED, 200);
  }

  lemma Do(acts: seq<Action>, s: State, a: Action, t: State) returns (longer: seq<Action>)
    requires After(REAL, acts) == Some(s) && Leads(s, a, t)
    ensures longer == acts + [a] && After(REAL, longer) == Some(t)
  {
    longer := acts + [a];
    assert longer[..|longer| - 1] == acts;
  }

  lemma RunToCut() returns (acts: seq<Action>)
    ensures After(REAL, acts) == Some(CUT)
  {
    Opening();
    Connecting();
    Inserting();
    Cutting();
    acts := [];
    assert After(REAL, acts) == Some(BOOTED);
    hide After, Leads;
    acts := Do(acts, BOOTED, Worker(Tau), AT_HEAD);
    acts := Do(acts, AT_HEAD, Worker(Tau), AT_CHECK);
    acts := Do(acts, AT_CHECK, Worker(Tau), AT_SOCKET);
    acts := Do(acts, AT_SOCKET, Worker(GotSocket(3)), AT_CONNECT);
    acts := Do(acts, AT_CONNECT, Worker(Connected(true)), LINKED);
    acts := Do(acts, LINKED, Insert(0, 200), INSERTED);
    acts := Do(acts, INSERTED, Accept(0), ACCEPTED);
    acts := Do(acts, ACCEPTED, Snapshot, SNAPPED);
    acts := Do(acts, SNAPPED, SendShort(1), CUT);
  }

  lemma RunToMisread() returns (acts: seq<Action>)
    ensures After(REAL, acts) == Some(MISREAD)
  {
    Splicing();
    Receiving();
    PublishingMixed();
    Polling();
    hide After, Leads;
    acts := RunToCut();
    acts := Do(acts, CUT, Snapshot, SNAPPED_AGAIN);
    acts := Do(acts, SNAPPED_AGAIN, Send, SPLICED);
    acts := Do(acts, SPLICED, Worker(Tau), MARKED);
    acts := Do(acts, MARKED, Worker(Tau), READING);
    acts := Do(acts, READING, Worker(ReadData(3)), RECEIVED);
    acts := Do(acts, RECEIVED, Worker(Tau), DECIDING);
    acts := Do(acts, DECIDING, Worker(Tau), PUBLISHING);
    acts := Do(acts, PUBLISHING, Worker(Tau), PUBLISHED);
    acts := Do(acts, PUBLISHED, Gui, POLLING);
    acts := Do(acts, POLLING, Gui, POLLED);
    acts := Do(acts, POLLED, Gui, MISREAD);
  }

  /** `send` reporting one byte of three counts as success. As long as nothing
      follows, nothing is mixed; when the next frame follows, it is read across
      the seam and a getter returns a temperature nobody ever set. */
  lemma ShortSendMixes() returns (before: seq<Action>, acts: seq<Action>, s: State)
    ensures After(REAL, before) == Some(CUT) && FewFollow(SBUFLEN, CUT.net[0].sent)
    ensures After(REAL, acts) == Some(s) && !Freshness.Unmixed(SBUFLEN, s.net) && !FewFollow(SBUFLEN, s.net[0].sent)
    ensures s.srv.log == [Write(SPEED, 200)]
    ensures |s.gui.obs| == 2 && s.gui.obs[1].sig == 1 && s.gui.obs[1].val == -56
    ensures forall k: nat :: !Freshness.Explained(REAL, s.srv.log, s.gui.obs[1], k)
  {
    before := RunToCut();
    acts := RunToMisread();
    s := MISREAD;
    hide ValueOf, LastBits, After;
    NeverSet(s.srv.log);
    ClosingSuffices(SBUFLEN, CUT.net[0].sent);
    NoneWhole();
    assert s.net[0].pubs == 1;
  }

  lemma NoneWhole()
    ensures Whole(SBUFLEN, SENT) == 0 && !FewFollow(SBUFLEN, SENT)
  {
    assert SENT[..1] == [Sending(1, 1)] && SENT[..1][..0] == [] && SENT[1..] == [Sending(1, 3)];
    assert Whole(SBUFLEN, SENT[..1]) == 0;
  }

  lemma NeverSet(log: seq<Write>)
    requires log == [Write(SPEED, 200)]
    ensures forall k: nat :: k <= |log| ==> ValueOf(true, TEMPERATURE.length, LastBits(0, log[..k], TEMPERATURE)) == 0
  {
    LatestInitially(TEMPERATURE);
    forall k: nat | k <= |log|
      ensures ValueOf(true, TEMPERATURE.length, LastBits(0, log[..k], TEMPERATURE)) == 0
    {
      if k == 1 { assert log[..1] == log && log[..0] == []; }
    }
  }
}
