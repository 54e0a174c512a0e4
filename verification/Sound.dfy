/** The client's turn-signal sound (desktop/client/src/canvas.cpp): one player
    process, lights that change at any poll, a kill that may not take effect in
    time, and a `finished` handler that runs inside or long after it. */
module Sound {

  datatype SignalSound = NoSound | LeftSound | RightSound | WarningSound

  /** The external player: `killed` once SIGKILL was sent and the exit not yet seen. */
  datatype Player = NotRunning | Running(path: string, killed: bool)

  datatype Files = Files(command: string, left: string, right: string, warning: string)

  function Selected(left: bool, right: bool): SignalSound {
    if left && right then WarningSound else if left then LeftSound else if right then RightSound else NoSound
  }

  function PathFor(f: Files, s: SignalSound): string {
    match s
    case NoSound => ""
    case LeftSound => f.left
    case RightSound => f.right
    case WarningSound => f.warning
  }

  // ---- Specification -------------------------------------------------------

  datatype Audio = Audio(left: bool, right: bool, active: SignalSound, player: Player)

  datatype Event =
    | Lights(left: bool, right: bool, exits: bool)   // `exits`: a kill takes effect within the wait
    | Status(connected: bool, exits: bool)
    | Exit                                           // the process ends on its own or by an earlier kill
    | StartFailure                                   // the process could not be started; no `finished`

  function Stopped(p: Player, exits: bool): Player {
    if p.NotRunning? || exits then NotRunning else p.(killed := true)
  }

  function Started(f: Files, p: Player, s: SignalSound): Player {
    if p.NotRunning? && f.command != "" && PathFor(f, s) != "" then Running(PathFor(f, s), false) else p
  }

  predicate Possible(a: Audio, e: Event) {
    e.Exit? || e.StartFailure? ==> a.player.Running?
  }

  /** The whole effect of one event on the sound state. */
  function After(f: Files, a: Audio, e: Event): Audio {
    match e
    case Lights(l, r, exits) =>
      var s := Selected(l, r);
      var p := if s == a.active && s != NoSound then a.player else Stopped(a.player, exits);
      Audio(l, r, s, Started(f, p, s))
    case Status(true, _) => a
    case Status(false, exits) => Audio(false, false, NoSound, Stopped(a.player, exits))
    case Exit => a.(player := Started(f, NotRunning, Selected(a.left, a.right)))
    case StartFailure => a.(player := NotRunning)
  }

  /** The remembered sound is the selected one, and a player that is not already
      dying plays exactly that. */
  ghost predicate Settled(f: Files, a: Audio) {
    && a.active == Selected(a.left, a.right)
    && (a.player.Running? && !a.player.killed ==>
          a.active != NoSound && a.player.path == PathFor(f, a.active) && a.player.path != "")
  }

  const Silent := Audio(false, false, NoSound, NotRunning)

  ghost predicate PossibleRun(f: Files, es: seq<Event>) {
    es == [] || (PossibleRun(f, es[..|es| - 1]) && Possible(Outcome(f, es[..|es| - 1]), es[|es| - 1]))
  }

  function Outcome(f: Files, es: seq<Event>): Audio {
    if es == [] then Silent else After(f, Outcome(f, es[..|es| - 1]), es[|es| - 1])
  }

  /** In every run: whatever plays, unless already dying, is the sound selected by
      the current lights. A stale sound is never restarted. */
  lemma {:induction false} AlwaysSettled(f: Files, es: seq<Event>)
    requires PossibleRun(f, es)
    ensures Settled(f, Outcome(f, es))
  {
    if es != [] { AlwaysSettled(f, es[..|es| - 1]); }
  }

  ghost predicate Audible(f: Files) {
    f.command != "" && f.left != "" && f.right != "" && f.warning != ""
  }

  /** A poll with a light on, from any settled state. */
  lemma LightsFrom(f: Files, a: Audio, l: bool, r: bool, exits: bool)
    requires Settled(f, a) && Audible(f) && (l || r)
    ensures var b := After(f, a, Lights(l, r, exits));
            var sound := if l && r then f.warning else if l then f.left else f.right;
            && b.left == l && b.right == r
            && b.player ==
                 if a.player == NotRunning then Running(sound, false)
                 else if a.left == l && a.right == r then a.player
                 else if exits then Running(sound, false)
                 else Running(a.player.path, true)
    ensures a.left == l && a.right == r && a.player.Running? && !a.player.killed ==>
              a.player.path == if l && r then f.warning else if l then f.left else f.right
  {
  }

  /** A poll with a light on: whatever came before, the sound of these lights plays,
      except that a player killed for it may take its time. */
  lemma LightsPlay(f: Files, es: seq<Event>, l: bool, r: bool, exits: bool)
    requires PossibleRun(f, es) && Audible(f) && (l || r)
    ensures var a, b := Outcome(f, es), Outcome(f, es + [Lights(l, r, exits)]);
            var sound := if l && r then f.warning else if l then f.left else f.right;
            && b.left == l && b.right == r
            && b.player ==
                 if a.player == NotRunning then Running(sound, false)
                 else if a.left == l && a.right == r then a.player
                 else if exits then Running(sound, false)
                 else Running(a.player.path, true)
  {
    assert (es + [Lights(l, r, exits)])[..|es|] == es;
    AlwaysSettled(f, es);
    LightsFrom(f, Outcome(f, es), l, r, exits);
  }

  /** A poll without lights, or a lost connection, kills what plays. A poll never
      changes anything else, and a connection that stands changes nothing. */
  lemma SilencePlays(f: Files, es: seq<Event>, exits: bool)
    ensures var a, b, c, d := Outcome(f, es), Outcome(f, es + [Lights(false, false, exits)]),
                              Outcome(f, es + [Status(false, exits)]), Outcome(f, es + [Status(true, exits)]);
            && b == c && d == a && !b.left && !b.right && b.active == NoSound
            && b.player == if a.player == NotRunning || exits then NotRunning else Running(a.player.path, true)
  {
    assert (es + [Lights(false, false, exits)])[..|es|] == es;
    assert (es + [Status(false, exits)])[..|es|] == es && (es + [Status(true, exits)])[..|es|] == es;
  }

  /** When a process goes away, whoever killed it and however late, the sound of
      the current lights starts, and nothing if there is none. */
  lemma ExitStartsCurrent(f: Files, es: seq<Event>)
    requires PossibleRun(f, es + [Exit]) && Audible(f)
    ensures var a, b := Outcome(f, es), Outcome(f, es + [Exit]);
            && b.left == a.left && b.right == a.right && b.active == a.active
            && b.player ==
                 if a.left && a.right then Running(f.warning, false)
                 else if a.left then Running(f.left, false)
                 else if a.right then Running(f.right, false)
                 else NotRunning
  {
    assert (es + [Exit])[..|es|] == es;
    AlwaysSettled(f, es);
  }

  /** A failed start leaves no player and is not repeated before the next poll. */
  lemma FailureWaits(f: Files, es: seq<Event>, exits: bool)
    requires PossibleRun(f, es + [StartFailure]) && Audible(f)
    requires Outcome(f, es).left || Outcome(f, es).right
    ensures var a, b := Outcome(f, es), Outcome(f, es + [StartFailure]);
            && b == Audio(a.left, a.right, a.active, NotRunning)
            && Outcome(f, es + [StartFailure] + [Lights(a.left, a.right, exits)]).player ==
                 Running(if a.left && a.right then f.warning else if a.left then f.left else f.right, false)
  {
    var a := Outcome(f, es);
    assert (es + [StartFailure])[..|es|] == es;
    LightsPlay(f, es + [StartFailure], a.left, a.right, exits);
  }

  /** Without a command nothing is ever started. */
  lemma {:induction false} NoCommandNoPlayer(f: Files, es: seq<Event>)
    requires f.command == ""
    ensures Outcome(f, es).player == NotRunning
  {
    if es != [] { NoCommandNoPlayer(f, es[..|es| - 1]); }
  }

  /** Polling unchanged lights never interrupts the sound being played. */
  lemma PollingIsIdle(f: Files, es: seq<Event>, exits: bool)
    requires PossibleRun(f, es)
    requires var a := Outcome(f, es); a.player.Running? && (!a.player.killed || a.active != NoSound)
    ensures var a := Outcome(f, es); After(f, a, Lights(a.left, a.right, exits)) == a
  {
    AlwaysSettled(f, es);
  }

  function Later(f: Files, a: Audio, es: seq<Event>): Audio {
    if es == [] then a else After(f, Later(f, a, es[..|es| - 1]), es[|es| - 1])
  }

  /** Everything but a poll with a light on. */
  predicate Quiet(e: Event) {
    e.Lights? ==> !e.left && !e.right
  }

  /** Losing the connection silences the player for good: until a poll brings a
      light, whatever exits, fails or changes its status, no player is started, and
      the one that was running is gone or dying. */
  lemma {:induction false} DisconnectSilences(f: Files, a: Audio, exits: bool, es: seq<Event>)
    requires forall i :: 0 <= i < |es| ==> Quiet(es[i])
    ensures var b := Later(f, After(f, a, Status(false, exits)), es);
            && b.active == NoSound && !b.left && !b.right
            && (b.player.Running? ==>
                  a.player.Running? && b.player == Running(a.player.path, true))
  {
    if es != [] { DisconnectSilences(f, a, exits, es[..|es| - 1]); }
  }

  // ---- The canvas ----------------------------------------------------------

  class Canvas {
    const files: Files
    var m_connected: bool
    var m_speed: int
    var m_temperature: int
    var m_batteryLevel: int
    var m_leftLight: bool
    var m_rightLight: bool
    var m_stoppingSignalSound: bool
    var m_activeSignalSound: SignalSound
    var m_signalSoundProcess: Player

    ghost function View(): Audio
      reads this
    {
      Audio(m_leftLight, m_rightLight, m_activeSignalSound, m_signalSoundProcess)
    }

    /** Between calls. */
    ghost predicate Valid()
      reads this
    {
      !m_stoppingSignalSound && Settled(files, View())
    }

    constructor (files: Files)
      ensures Valid() && View() == Silent && this.files == files && m_connected
    {
      this.files := files;
      m_connected := true;
      m_speed, m_temperature, m_batteryLevel := 0, 0, 0;
      m_leftLight, m_rightLight, m_stoppingSignalSound := false, false, false;
      m_activeSignalSound, m_signalSoundProcess := NoSound, NotRunning;
    }

    method SetSpeed(speed: int)
      modifies this`m_speed
      ensures m_speed == speed
    {
      m_speed := speed;
    }

    method SetTemperature(temperature: int)
      modifies this`m_temperature
      ensures m_temperature == temperature
    {
      m_temperature := temperature;
    }

    method SetBatteryLevel(batteryLevel: int)
      modifies this`m_batteryLevel
      ensures m_batteryLevel == batteryLevel
    {
      m_batteryLevel := batteryLevel;
    }

    method StartSignalSound()
      modifies this`m_signalSoundProcess
      ensures m_signalSoundProcess == Started(files, old(m_signalSoundProcess), m_activeSignalSound)
    {
      if files.command == "" { return; }
      if m_signalSoundProcess.NotRunning? {
        var soundPath := PathFor(files, m_activeSignalSound);
        if soundPath != "" {
          m_signalSoundProcess := Running(soundPath, false);
        }
      }
    }

    /** The process is gone; Qt runs the `finished` handler. */
    method OnFinished()
      requires m_signalSoundProcess.Running?
      modifies this`m_signalSoundProcess
      ensures m_signalSoundProcess ==
              if m_stoppingSignalSound || !(m_leftLight || m_rightLight) then NotRunning
              else Started(files, NotRunning, m_activeSignalSound)
    {
      m_signalSoundProcess := NotRunning;
      if !m_stoppingSignalSound && (m_leftLight || m_rightLight) {
        StartSignalSound();
      }
    }

    /** Kill and wait. The handler may run inside the wait, while the lights and the
        active sound of the caller are half updated; the flag keeps it from starting. */
    method StopSignalSound(exits: bool)
      requires !m_stoppingSignalSound
      modifies this`m_stoppingSignalSound, this`m_signalSoundProcess
      ensures !m_stoppingSignalSound
      ensures m_signalSoundProcess == Stopped(old(m_signalSoundProcess), exits)
    {
      m_stoppingSignalSound := true;
      if m_signalSoundProcess != NotRunning {
        m_signalSoundProcess := m_signalSoundProcess.(killed := true);
        if exits { OnFinished(); }
      }
      m_stoppingSignalSound := false;
    }

    method SetLightSignals(leftLight: bool, rightLight: bool, exits: bool)
      requires Valid()
      modifies this
      ensures Valid() && View() == After(files, old(View()), Lights(leftLight, rightLight, exits))
      ensures m_connected == old(m_connected) && m_speed == old(m_speed)
      ensures m_temperature == old(m_temperature) && m_batteryLevel == old(m_batteryLevel)
    {
      m_leftLight := leftLight;
      m_rightLight := rightLight;
      var newSound := Selected(m_leftLight, m_rightLight);
      if newSound == NoSound {
        m_activeSignalSound := NoSound;
        StopSignalSound(exits);
      } else if newSound != m_activeSignalSound {
        StopSignalSound(exits);
        m_activeSignalSound := newSound;
        StartSignalSound();
      } else {
        StartSignalSound();
      }
    }

    method SetCommunicationStatus(connected: bool, exits: bool)
      requires Valid()
      modifies this
      ensures Valid() && View() == After(files, old(View()), Status(connected, exits))
      ensures m_connected == connected
      ensures if connected then
                m_speed == old(m_speed) && m_temperature == old(m_temperature) && m_batteryLevel == old(m_batteryLevel)
              else m_speed == 0 && m_temperature == 0 && m_batteryLevel == 0
    {
      m_connected := connected;
      if !m_connected {
        m_speed := 0;
        m_temperature := 0;
        m_batteryLevel := 0;
        m_leftLight := false;
        m_rightLight := false;
        m_activeSignalSound := NoSound;
        StopSignalSound(exits);
      }
    }

    /** What the event loop delivers between calls. */
    method Deliver(e: Event)
      requires Valid() && (e.Exit? || e.StartFailure?) && Possible(View(), e)
      modifies this`m_signalSoundProcess
      ensures Valid() && View() == After(files, old(View()), e)
    {
      if e.Exit? { OnFinished(); } else { m_signalSoundProcess := NotRunning; }
    }
  }
}
