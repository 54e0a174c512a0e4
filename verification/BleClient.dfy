/** The BLE client's connection machine (esp32/client/src/main.c): scanning,
    connecting, and the join of encryption and characteristic discovery. Host
    calls succeed or fail as the host decides; their callbacks are events. */
module BleClient {
  import opened Bits

  type Address = seq<Byte>

  const SERVER_ADDR: Address := [0x13, 0x37, 0x03, 0x04, 0x05, 0xC0]

  const NO_PEER: Address := [0, 0, 0, 0, 0, 0]

  datatype AdvType = AdvInd | DirInd | OtherAdv

  /** One advertising report: whether its fields parse, and whether they list the service. */
  datatype Adv = Adv(parses: bool, addr: Address, evtype: AdvType, uuids: seq<Uuid>)

  datatype Uuid = ServiceUuid | OtherUuid

  /** Host events. `discOk`, `writeOk` and the like say whether the host accepts the
      call that the program makes in response; `failed` tells an error from the
      regular end of a discovery procedure. */
  datatype Event =
    | Sync(scanOk: bool)
    | Disc(adv: Adv, cancelOk: bool, connectOk: bool)
    | ConnectFailed(scanOk: bool)
    | Connected(handle: nat, findOk: bool, securityOk: bool, id: Address, discOk: bool)
    | Disconnected(scanOk: bool)
    | EncChanged(ok: bool, discOk: bool)
    | SvcFound(end: nat, discOk: bool)
    | SvcEnd(failed: bool)
    | ChrFound(val: nat, discOk: bool)
    | ChrEnd(failed: bool)
    | DscFound(configuration: bool, handle: nat, writeOk: bool)
    | DscEnd(failed: bool)
    | Subscribed(ok: bool)

  /** One accepted or refused call that starts the descriptor discovery. */
  datatype Attempt = Attempt(handle: nat, val: nat, end: nat)

  /** One write that switches notifications on. */
  datatype Subscription = Subscription(handle: nat, descriptor: nat)

  datatype Conn = Nobody | Peer(handle: nat)

  function HandleOf(c: Conn): nat {
    match c case Peer(h) => h case Nobody => 0
  }

  /** Which of the host's procedures for the connection are under way. */
  datatype Pending = Pending(svc: bool, chr: bool, dsc: bool, sub: bool)

  const NOTHING := Pending(false, false, false, false)

  /** The calls made: descriptor discoveries, subscriptions, requests to terminate. */
  datatype Calls = Calls(attempts: seq<Attempt>, writes: seq<Subscription>, ends: seq<nat>)

  /** The program's globals, the host's view of the radio, and the calls made. */
  datatype State = State(
    enc_done: bool, chr_found: bool, peer: Address, svc_end: nat, chr_val: nat,
    synced: bool, scanning: bool, connecting: bool, conn: Conn, pending: Pending,
    calls: Calls)

  const BOOT := State(false, false, NO_PEER, 0, 0, false, false, false, Nobody, NOTHING, Calls([], [], []))

  // ---- Specification -------------------------------------------------------

  predicate ShouldConnect(adv: Adv, peer: Address) {
    adv.parses && adv.addr == SERVER_ADDR && adv.addr != peer && !adv.evtype.OtherAdv? && ServiceUuid in adv.uuids
  }

  /** The host delivers an event only in the matching state of the radio, and a
      discovery result only while that discovery is in progress. */
  predicate Possible(s: State, e: Event) {
    match e
    case Sync(_) => !s.scanning && !s.connecting && s.conn.Nobody?
    case Disc(_, _, _) => s.scanning
    case ConnectFailed(_) => s.connecting
    case Connected(_, _, _, _, _) => s.connecting
    case Disconnected(_) => s.conn.Peer?
    case EncChanged(_, _) => s.conn.Peer?
    case SvcFound(_, _) => s.conn.Peer? && s.pending.svc
    case SvcEnd(_) => s.conn.Peer? && s.pending.svc
    case ChrFound(_, _) => s.conn.Peer? && s.pending.chr
    case ChrEnd(_) => s.conn.Peer? && s.pending.chr
    case DscFound(_, _, _) => s.conn.Peer? && s.pending.dsc
    case DscEnd(_) => s.conn.Peer? && s.pending.dsc
    case Subscribed(_) => s.conn.Peer? && s.pending.sub
  }

  /** Ask the host to end the connection. */
  function GiveUp(s: State): State {
    s.(calls := s.calls.(ends := s.calls.ends + [HandleOf(s.conn)]))
  }

  /** Start the descriptor discovery if both halves have arrived. */
  function Joined(s: State, discOk: bool): State {
    if s.enc_done && s.chr_found && s.conn.Peer? then
      var a := Attempt(s.conn.handle, s.chr_val, s.svc_end);
      var t := s.(calls := s.calls.(attempts := s.calls.attempts + [a]));
      if discOk then t.(pending := s.pending.(dsc := true)) else GiveUp(t)
    else s
  }

  function Connects(s: State, h: nat, findOk: bool, securityOk: bool, id: Address, discOk: bool): State {
    var t := s.(connecting := false, conn := Peer(h), pending := NOTHING);
    if !findOk || !securityOk then GiveUp(t)
    else if !discOk then GiveUp(t.(peer := id))
    else t.(peer := id, pending := NOTHING.(svc := true))
  }

  /** Events of the radio and the link, as opposed to those of the discovery procedures. */
  predicate Gap(e: Event) {
    e.Sync? || e.Disc? || e.ConnectFailed? || e.Connected? || e.Disconnected? || e.EncChanged?
  }

  function GapAfter(s: State, e: Event): State
    requires Gap(e)
  {
    match e
    case Sync(ok) => s.(synced := true, scanning := ok)
    case Disc(adv, cancelOk, connectOk) =>
      if ShouldConnect(adv, s.peer) && cancelOk then s.(scanning := false, connecting := connectOk) else s
    case ConnectFailed(ok) => s.(connecting := false, scanning := ok)
    case Connected(h, findOk, securityOk, id, discOk) => Connects(s, h, findOk, securityOk, id, discOk)
    case Disconnected(ok) =>
      s.(conn := Nobody, peer := NO_PEER, chr_found := false, enc_done := false, pending := NOTHING, scanning := ok)
    case EncChanged(ok, discOk) => if ok then Joined(s.(enc_done := true), discOk) else s
  }

  function GattAfter(s: State, e: Event): State
    requires !Gap(e)
  {
    match e
    case SvcFound(end, ok) =>
      var t := s.(svc_end := end);
      if ok then t.(pending := s.pending.(chr := true)) else GiveUp(t)
    case SvcEnd(failed) => Ended(s.(pending := s.pending.(svc := false)), failed)
    case ChrFound(val, discOk) => Joined(s.(chr_val := val, chr_found := true), discOk)
    case ChrEnd(failed) => Ended(s.(pending := s.pending.(chr := false)), failed)
    case DscFound(configuration, d, writeOk) =>
      if !configuration then s
      else if !writeOk then GiveUp(s)
      else s.(pending := s.pending.(dsc := false, sub := true),
              calls := s.calls.(writes := s.calls.writes + [Subscription(HandleOf(s.conn), d)]))
    case DscEnd(failed) => Ended(s.(pending := s.pending.(dsc := false)), failed)
    case Subscribed(ok) => Ended(s.(pending := s.pending.(sub := false)), !ok)
  }

  function After(s: State, e: Event): State {
    if Gap(e) then GapAfter(s, e) else GattAfter(s, e)
  }

  function Ended(s: State, failed: bool): State {
    if failed then GiveUp(s) else s
  }

  function Run(es: seq<Event>): State {
    if es == [] then BOOT else After(Run(es[..|es| - 1]), es[|es| - 1])
  }

  ghost predicate PossibleRun(es: seq<Event>) {
    es == [] || (PossibleRun(es[..|es| - 1]) && Possible(Run(es[..|es| - 1]), es[|es| - 1]))
  }

  // ---- Phases --------------------------------------------------------------

  predicate Idle(s: State) {
    !s.scanning && !s.connecting && s.conn.Nobody?
  }

  ghost predicate OnePhase(s: State) {
    && !(s.scanning && s.connecting) && !(s.scanning && s.conn.Peer?) && !(s.connecting && s.conn.Peer?)
    && (s.conn.Nobody? ==> !s.enc_done && !s.chr_found && s.pending == NOTHING && s.peer == NO_PEER)
    && (!s.synced ==> Idle(s))
  }

  /** The last call that tried to start scanning or connecting failed. */
  predicate StartFailed(s: State, e: Event) {
    match e
    case Sync(ok) => !ok
    case ConnectFailed(ok) => !ok
    case Disconnected(ok) => !ok
    case Disc(adv, cancelOk, connectOk) => ShouldConnect(adv, s.peer) && cancelOk && !connectOk
    case _ => false
  }

  lemma PhaseStep(s: State, e: Event)
    requires OnePhase(s) && Possible(s, e)
    ensures OnePhase(After(s, e))
  {
  }

  /** Scanning, connecting and connected exclude each other; without a connection
      the peer and both flags have their initial values. */
  lemma {:induction false} PhaseExclusion(es: seq<Event>)
    requires PossibleRun(es)
    ensures OnePhase(Run(es))
  {
    if es != [] {
      hide After, Possible, OnePhase;
      PhaseExclusion(es[..|es| - 1]);
      PhaseStep(Run(es[..|es| - 1]), es[|es| - 1]);
    }
  }

  /** An event leaves the client idle exactly when the scan or connection it tried
      to start failed; then nothing but a new synchronisation can follow. */
  lemma IdleExactly(es: seq<Event>, e: Event)
    requires PossibleRun(es + [e])
    ensures Idle(Run(es + [e])) <==> StartFailed(Run(es), e)
    ensures Idle(Run(es + [e])) ==> forall next :: Possible(Run(es + [e]), next) ==> next.Sync?
  {
    assert (es + [e])[..|es|] == es;
    PhaseExclusion(es);
  }

  /** A connectable report of the server that lists the service. */
  predicate OffersService(adv: Adv) {
    adv.parses && adv.addr == SERVER_ADDR && (adv.evtype == AdvInd || adv.evtype == DirInd) && ServiceUuid in adv.uuids
  }

  /** Scanning: begun by the event, or before it and no offer was taken up.
      Connecting: an offer was taken up and the host agreed, or before it and the
      attempt has not ended. Connected: to the peer the last connection brought,
      until the disconnect. */
  ghost predicate RadioMoves(s: State, e: Event, t: State) {
    && (t.scanning <==>
          || ((e.Sync? || e.ConnectFailed? || e.Disconnected?) && e.scanOk)
          || (s.scanning && !(e.Disc? && OffersService(e.adv) && e.cancelOk)))
    && (t.connecting <==>
          || (e.Disc? && OffersService(e.adv) && e.cancelOk && e.connectOk)
          || (s.connecting && !e.Connected? && !e.ConnectFailed?))
    && t.conn == (if e.Connected? then Peer(e.handle) else if e.Disconnected? then Nobody else s.conn)
    && t.peer == (if e.Connected? && e.findOk && e.securityOk then e.id
                  else if e.Disconnected? then NO_PEER else s.peer)
  }

  lemma RadioStep(s: State, e: Event)
    requires OnePhase(s) && Possible(s, e)
    ensures RadioMoves(s, e, After(s, e))
  {
    hide Joined;
    assert SERVER_ADDR[0] != NO_PEER[0];
    JoinedRadio();
  }

  lemma JoinedRadio()
    ensures forall t: State, ok: bool ::
              && Joined(t, ok).scanning == t.scanning && Joined(t, ok).connecting == t.connecting
              && Joined(t, ok).conn == t.conn && Joined(t, ok).peer == t.peer
  {
  }

  lemma RadioExactly(es: seq<Event>, e: Event)
    requires PossibleRun(es + [e])
    ensures RadioMoves(Run(es), e, Run(es + [e]))
  {
    assert (es + [e])[..|es|] == es;
    PhaseExclusion(es);
    RadioStep(Run(es), e);
  }

  predicate Cuts(e: Event) { e.Connected? || e.Disconnected? }

  /** The subscription was written. */
  predicate Agreed(e: Event) { e.DscFound? && e.configuration && e.writeOk }

  ghost predicate SvcMoves(s: State, e: Event, t: State) {
    t.pending.svc <==>
      || (e.Connected? && e.findOk && e.securityOk && e.discOk)
      || (s.pending.svc && !Cuts(e) && !e.SvcEnd?)
  }

  ghost predicate ChrMoves(s: State, e: Event, t: State) {
    t.pending.chr <==> (e.SvcFound? && e.discOk) || (s.pending.chr && !Cuts(e) && !e.ChrEnd?)
  }

  ghost predicate DscMoves(s: State, e: Event, t: State) {
    t.pending.dsc <==>
      || (IsEnc(e) && s.chr_found && e.discOk) || (e.ChrFound? && s.enc_done && e.discOk)
      || (s.pending.dsc && !Cuts(e) && !e.DscEnd? && !Agreed(e))
  }

  ghost predicate SubMoves(s: State, e: Event, t: State) {
    t.pending.sub <==> Agreed(e) || (s.pending.sub && !Cuts(e) && !e.Subscribed?)
  }

  /** The host's procedures: each is begun by the one event whose answer starts it,
      and goes on until its own end or the end of the connection. */
  lemma PendingExactly(es: seq<Event>, e: Event)
    requires PossibleRun(es + [e])
    ensures SvcMoves(Run(es), e, Run(es + [e])) && ChrMoves(Run(es), e, Run(es + [e]))
    ensures DscMoves(Run(es), e, Run(es + [e])) && SubMoves(Run(es), e, Run(es + [e]))
  {
    hide SvcMoves, ChrMoves, DscMoves, SubMoves;
    assert (es + [e])[..|es|] == es;
    PhaseExclusion(es);
    if Gap(e) { GapPending(Run(es), e); } else { GattPending(Run(es), e); }
  }

  lemma JoinedPending()
    ensures forall t: State, ok: bool ::
              && Joined(t, ok).pending == t.pending.(dsc := Joined(t, ok).pending.dsc)
              && Joined(t, ok).pending.dsc == (t.pending.dsc || (t.enc_done && t.chr_found && t.conn.Peer? && ok))
  {
  }

  lemma GapPending(s: State, e: Event)
    requires Possible(s, e) && Gap(e)
    ensures var t := GapAfter(s, e); SvcMoves(s, e, t) && ChrMoves(s, e, t) && DscMoves(s, e, t) && SubMoves(s, e, t)
  {
    hide ShouldConnect, Joined;
    JoinedPending();
  }

  /** What a discovery event does to the procedures, case by case. */
  lemma GattPending(s: State, e: Event)
    requires Possible(s, e) && !Gap(e)
    ensures var t := GattAfter(s, e); SvcMoves(s, e, t) && ChrMoves(s, e, t) && DscMoves(s, e, t) && SubMoves(s, e, t)
  {
    if e.SvcFound? || e.SvcEnd? || e.ChrFound? || e.ChrEnd? {
      FindPending(s, e);
      hide GattAfter, SvcMoves, ChrMoves, DscMoves, SubMoves;
    } else if e.DscFound? {
      SubscribePending(s, e);
      hide GattAfter, SvcMoves, ChrMoves, DscMoves, SubMoves;
    } else {
      EndPending(s, e);
      hide GattAfter, SvcMoves, ChrMoves, DscMoves, SubMoves;
    }
  }

  lemma FindPending(s: State, e: Event)
    requires Possible(s, e) && (e.SvcFound? || e.SvcEnd? || e.ChrFound? || e.ChrEnd?)
    ensures var t := GattAfter(s, e); SvcMoves(s, e, t) && ChrMoves(s, e, t) && DscMoves(s, e, t) && SubMoves(s, e, t)
  {
  }

  lemma SubscribePending(s: State, e: Event)
    requires Possible(s, e) && e.DscFound?
    ensures var t := GattAfter(s, e); SvcMoves(s, e, t) && ChrMoves(s, e, t) && DscMoves(s, e, t) && SubMoves(s, e, t)
  {
    hide Joined;
  }

  lemma EndPending(s: State, e: Event)
    requires Possible(s, e) && (e.DscEnd? || e.Subscribed?)
    ensures var t := GattAfter(s, e); SvcMoves(s, e, t) && ChrMoves(s, e, t) && DscMoves(s, e, t) && SubMoves(s, e, t)
  {
    hide Joined;
  }

  lemma Extend(es: seq<Event>, e: Event)
    requires PossibleRun(es) && Possible(Run(es), e)
    ensures PossibleRun(es + [e]) && Run(es + [e]) == After(Run(es), e)
  {
    assert (es + [e])[..|es|] == es;
  }

  /** However a connection ends, established or not, the client can scan again
      with nothing left of it. */
  lemma Rescans(es: seq<Event>)
    requires PossibleRun(es) && (Run(es).connecting || Run(es).conn.Peer?)
    ensures var end := if Run(es).connecting then ConnectFailed(true) else Disconnected(true);
            var t := Run(es + [end]);
            && PossibleRun(es + [end]) && t.scanning && !t.connecting && t.conn.Nobody?
            && !t.enc_done && !t.chr_found && t.peer == NO_PEER && t.pending == NOTHING
            && t.calls == Run(es).calls
  {
    PhaseExclusion(es);
    Extend(es, if Run(es).connecting then ConnectFailed(true) else Disconnected(true));
  }

  /** With a host that agrees to everything, a peer that offers the service is
      connected to, joined once with its own handles, and subscribed to, whether
      encryption or discovery completes first. */
  lemma Subscribes(uuids: seq<Uuid>, h: nat, id: Address, end: nat, val: nat, d: nat, encFirst: bool)
    returns (es: seq<Event>)
    requires ServiceUuid in uuids
    ensures PossibleRun(es)
    ensures Run(es).conn == Peer(h) && Run(es).peer == id && Run(es).pending.sub
    ensures Run(es).calls == Calls([Attempt(h, val, end)], [Subscription(h, d)], [])
  {
    var adv := Adv(true, SERVER_ADDR, AdvInd, uuids);
    assert SERVER_ADDR[0] != NO_PEER[0];
    es := [];
    Extend(es, Sync(true));
    es := es + [Sync(true)];
    Extend(es, Disc(adv, true, true));
    es := es + [Disc(adv, true, true)];
    Extend(es, Connected(h, true, true, id, true));
    es := es + [Connected(h, true, true, id, true)];
    ghost var s := Run(es);
    assert s.conn == Peer(h) && s.peer == id && s.pending == NOTHING.(svc := true) && s.calls == BOOT.calls;
    es := JoinsUp(es, h, end, val, encFirst);
    Extend(es, DscFound(true, d, true));
    es := es + [DscFound(true, d, true)];
  }

  lemma JoinsUp(before: seq<Event>, h: nat, end: nat, val: nat, encFirst: bool) returns (es: seq<Event>)
    requires PossibleRun(before)
    requires var s := Run(before);
             s.conn == Peer(h) && !s.enc_done && !s.chr_found && s.pending == NOTHING.(svc := true)
             && s.calls == Calls([], [], [])
    ensures PossibleRun(es) && Run(es).conn == Peer(h) && Run(es).peer == Run(before).peer && Run(es).pending.dsc
    ensures Run(es).calls == Calls([Attempt(h, val, end)], [], [])
  {
    es := before;
    if encFirst {
      Extend(es, EncChanged(true, true));
      es := es + [EncChanged(true, true)];
    }
    Extend(es, SvcFound(end, true));
    es := es + [SvcFound(end, true)];
    Extend(es, ChrFound(val, true));
    es := es + [ChrFound(val, true)];
    if !encFirst {
      Extend(es, EncChanged(true, true));
      es := es + [EncChanged(true, true)];
    }
  }

  // ---- The join ------------------------------------------------------------

  /** The events of the current connection after one more, none without one. */
  function Window(s: State, w: seq<Event>, e: Event): seq<Event> {
    if e.Connected? || e.Disconnected? || s.conn.Nobody? then [] else w + [e]
  }

  function Since(es: seq<Event>): seq<Event> {
    if es == [] then []
    else Window(Run(es[..|es| - 1]), Since(es[..|es| - 1]), es[|es| - 1])
  }

  predicate IsEnc(e: Event) { e.EncChanged? && e.ok }

  function EncCount(w: seq<Event>): nat {
    if w == [] then 0 else EncCount(w[..|w| - 1]) + if IsEnc(w[|w| - 1]) then 1 else 0
  }

  function ChrCount(w: seq<Event>): nat {
    if w == [] then 0 else ChrCount(w[..|w| - 1]) + if w[|w| - 1].ChrFound? then 1 else 0
  }

  function LastVal(w: seq<Event>): nat {
    if w == [] then 0 else if w[|w| - 1].ChrFound? then w[|w| - 1].val else LastVal(w[..|w| - 1])
  }

  function SvcCount(w: seq<Event>): nat {
    if w == [] then 0 else SvcCount(w[..|w| - 1]) + if w[|w| - 1].SvcFound? then 1 else 0
  }

  function LastEnd(w: seq<Event>): nat {
    if w == [] then 0 else if w[|w| - 1].SvcFound? then w[|w| - 1].end else LastEnd(w[..|w| - 1])
  }

  /** The flags and handles say what happened on this very connection. */
  ghost predicate Tracks(s: State, w: seq<Event>) {
    && (s.enc_done <==> EncCount(w) > 0)
    && (s.chr_found <==> ChrCount(w) > 0)
    && (s.chr_found ==> s.chr_val == LastVal(w))
    && (SvcCount(w) > 0 ==> s.svc_end == LastEnd(w))
    && (s.chr_found || s.pending.chr ==> SvcCount(w) > 0)
    && (s.pending.dsc || s.pending.sub ==> EncCount(w) > 0 && ChrCount(w) > 0)
    && (s.conn.Nobody? ==> w == [])
  }

  lemma WindowStep(es: seq<Event>, e: Event)
    ensures Run(es + [e]) == After(Run(es), e)
    ensures Since(es + [e]) == Window(Run(es), Since(es), e)
    ensures PossibleRun(es + [e]) ==> PossibleRun(es) && Possible(Run(es), e)
  {
    assert (es + [e])[..|es|] == es;
  }

  lemma CountStep(w: seq<Event>, e: Event)
    ensures EncCount(w + [e]) == EncCount(w) + if IsEnc(e) then 1 else 0
    ensures ChrCount(w + [e]) == ChrCount(w) + if e.ChrFound? then 1 else 0
    ensures SvcCount(w + [e]) == SvcCount(w) + if e.SvcFound? then 1 else 0
    ensures LastVal(w + [e]) == if e.ChrFound? then e.val else LastVal(w)
    ensures LastEnd(w + [e]) == if e.SvcFound? then e.end else LastEnd(w)
  {
    assert (w + [e])[..|w|] == w;
  }

  lemma TracksStep(s: State, w: seq<Event>, e: Event)
    requires Tracks(s, w) && OnePhase(s) && Possible(s, e)
    ensures Tracks(After(s, e), Window(s, w, e))
  {
    CountStep(w, e);
    hide EncCount, ChrCount, SvcCount, LastVal, LastEnd;
    assert EncCount([]) == ChrCount([]) == SvcCount([]) == 0 by { NoCounts(); }
  }

  lemma NoCounts()
    ensures EncCount([]) == ChrCount([]) == SvcCount([]) == 0
  {
  }

  lemma {:induction false} Tracking(es: seq<Event>)
    requires PossibleRun(es)
    ensures Tracks(Run(es), Since(es))
  {
    if es != [] {
      hide Tracks, OnePhase, After, Possible;
      var before, e := es[..|es| - 1], es[|es| - 1];
      Tracking(before);
      PhaseExclusion(before);
      TracksStep(Run(before), Since(before), e);
    } else {
      NoCounts();
    }
  }

  /** The join, from one tracked state. */
  lemma JoinStep(s: State, w: seq<Event>, e: Event)
    requires Tracks(s, w) && Possible(s, e)
    ensures var t, v := After(s, e), Window(s, w, e);
            t.calls.attempts == s.calls.attempts +
              if (IsEnc(e) || e.ChrFound?) && EncCount(v) > 0 && ChrCount(v) > 0
              then [Attempt(HandleOf(s.conn), LastVal(v), LastEnd(v))] else []
    ensures (IsEnc(e) || e.ChrFound?) ==> s.conn.Peer?
  {
    CountStep(w, e);
    hide EncCount, ChrCount, SvcCount, LastVal, LastEnd, ShouldConnect;
    assert s.calls.attempts + [] == s.calls.attempts;
  }

  /** Descriptor discovery is started by an event exactly when the event is an
      encryption success or a found characteristic and, with it, both have
      happened since the connection began; it uses the connection's handle, the
      characteristic found last and the service found last on that connection. */
  lemma JoinExact(es: seq<Event>, e: Event)
    requires PossibleRun(es + [e])
    ensures var w := Since(es + [e]);
            var t := Run(es + [e]);
            t.calls.attempts == Run(es).calls.attempts +
              if (IsEnc(e) || e.ChrFound?) && EncCount(w) > 0 && ChrCount(w) > 0
              then [Attempt(HandleOf(Run(es).conn), LastVal(w), LastEnd(w))] else []
    ensures (IsEnc(e) || e.ChrFound?) ==> Run(es).conn.Peer?
    ensures ChrCount(Since(es + [e])) > 0 ==> SvcCount(Since(es + [e])) > 0
  {
    WindowStep(es, e);
    Tracking(es + [e]);
    Tracking(es);
    JoinStep(Run(es), Since(es), e);
    hide After, Possible, Run, Since;
  }

  /** The host refused a call made for the connection, or reported an error. */
  predicate Failed(w: seq<Event>, e: Event) {
    match e
    case Connected(_, findOk, securityOk, _, discOk) => !findOk || !securityOk || !discOk
    case EncChanged(ok, discOk) => ok && !discOk && ChrCount(w) > 0
    case ChrFound(_, discOk) => !discOk && EncCount(w) > 0
    case SvcFound(_, discOk) => !discOk
    case DscFound(configuration, _, writeOk) => configuration && !writeOk
    case SvcEnd(failed) => failed
    case ChrEnd(failed) => failed
    case DscEnd(failed) => failed
    case Subscribed(ok) => !ok
    case _ => false
  }

  lemma GiveUpStep(s: State, w: seq<Event>, e: Event)
    requires Tracks(s, w) && Possible(s, e)
    ensures After(s, e).calls.ends == s.calls.ends + if Failed(w, e) then [HandleOf(After(s, e).conn)] else []
    ensures Failed(w, e) ==> After(s, e).conn.Peer?
  {
    hide EncCount, ChrCount, SvcCount, LastVal, LastEnd, ShouldConnect;
    assert s.calls.ends + [] == s.calls.ends;
  }

  lemma SubscribeStep(s: State, w: seq<Event>, e: Event)
    requires Tracks(s, w) && Possible(s, e)
    ensures After(s, e).calls.writes == s.calls.writes +
              if e.DscFound? && e.configuration && e.writeOk
              then [Subscription(HandleOf(s.conn), e.handle)] else []
    ensures e.DscFound? ==> s.conn.Peer? && EncCount(w) > 0 && ChrCount(w) > 0
  {
    hide EncCount, ChrCount, SvcCount, LastVal, LastEnd;
    assert s.calls.writes + [] == s.calls.writes;
  }

  /** The program asks to end the connection, once and for that connection, exactly
      when the host refused a call made for it or reported an error on it; the
      discovery counts as such a call only when the event completes the pair. */
  lemma GivesUpExactly(es: seq<Event>, e: Event)
    requires PossibleRun(es + [e])
    ensures Failed(Since(es), e) ==> Run(es + [e]).conn.Peer?
    ensures Run(es + [e]).calls.ends ==
            Run(es).calls.ends + if Failed(Since(es), e) then [HandleOf(Run(es + [e]).conn)] else []
  {
    WindowStep(es, e);
    Tracking(es);
    GiveUpStep(Run(es), Since(es), e);
  }

  /** Notifications are switched on only on a connection on which encryption has
      succeeded and the characteristic was found. */
  lemma SubscribesAfterJoin(es: seq<Event>, e: Event)
    requires PossibleRun(es + [e])
    ensures e.DscFound? ==> Run(es).conn.Peer? && EncCount(Since(es)) > 0 && ChrCount(Since(es)) > 0
    ensures Run(es + [e]).calls.writes == Run(es).calls.writes +
              if e.DscFound? && e.configuration && e.writeOk
              then [Subscription(HandleOf(Run(es).conn), e.handle)] else []
  {
    WindowStep(es, e);
    Tracking(es);
    SubscribeStep(Run(es), Since(es), e);
  }

  /** Attempts made since the current connection began. */
  function Attempts(es: seq<Event>): nat {
    if es == [] then 0
    else
      var before, e := es[..|es| - 1], es[|es| - 1];
      if e.Connected? || e.Disconnected? then 0
      else if |Run(es).calls.attempts| > |Run(before).calls.attempts| then Attempts(before) + 1
      else Attempts(before)
  }

  /** If both happen at most once on a connection, in either order, the discovery
      is started exactly once when both have happened, and not before. */
  lemma {:induction false} JoinOnce(es: seq<Event>)
    requires PossibleRun(es) && EncCount(Since(es)) <= 1 && ChrCount(Since(es)) <= 1
    ensures Attempts(es) == if EncCount(Since(es)) == 1 && ChrCount(Since(es)) == 1 then 1 else 0
  {
    if es != [] {
      var before, e := es[..|es| - 1], es[|es| - 1];
      assert es == before + [e];
      WindowStep(before, e);
      CountStep(Since(before), e);
      JoinExact(before, e);
      Tracking(before);
      if !e.Connected? && !e.Disconnected? { JoinOnce(before); }
    }
  }

  // ---- The program ---------------------------------------------------------

  class Client {
    var s_enc_done: bool
    var s_chr_found: bool
    var s_peer_addr: Address
    var s_svc_end_handle: nat
    var s_chr_val_handle: nat

    // The host's side.
    var scanning: bool
    var connecting: bool
    var conn: Conn
    ghost var synced: bool
    ghost var pending: Pending
    ghost var attempts: seq<Attempt>
    ghost var writes: seq<Subscription>
    ghost var ends: seq<nat>

    ghost function View(): State
      reads this
    {
      State(s_enc_done, s_chr_found, s_peer_addr, s_svc_end_handle, s_chr_val_handle,
            synced, scanning, connecting, conn, pending, Calls(attempts, writes, ends))
    }

    constructor ()
      ensures View() == BOOT
    {
      s_enc_done, s_chr_found, s_peer_addr, s_svc_end_handle, s_chr_val_handle := false, false, NO_PEER, 0, 0;
      scanning, connecting, conn := false, false, Nobody;
      synced, pending, attempts, writes, ends := false, NOTHING, [], [], [];
    }

    method Scan(discOk: bool)
      requires !scanning
      modifies this`scanning
      ensures scanning == discOk
    {
      if discOk { scanning := true; }
    }

    method Terminate(conn_handle: nat)
      modifies this`ends
      ensures ends == old(ends) + [conn_handle]
    {
      ends := ends + [conn_handle];
    }

    method OnSync(scanOk: bool)
      requires Possible(View(), Sync(scanOk))
      modifies this
      ensures View() == After(old(View()), Sync(scanOk))
    {
      synced := true;
      Scan(scanOk);
    }

    /** Start the descriptor discovery once both halves have arrived. */
    method TryStartDscDiscovery(conn_handle: nat, discOk: bool)
      requires conn == Peer(conn_handle)
      modifies this`attempts, this`pending, this`ends
      ensures View() == Joined(old(View()), discOk)
    {
      if s_enc_done && s_chr_found {
        attempts := attempts + [Attempt(conn_handle, s_chr_val_handle, s_svc_end_handle)];
        if discOk {
          pending := pending.(dsc := true);
        } else {
          Terminate(conn_handle);
        }
      }
    }

    method ShouldConnectTo(disc: Adv) returns (status: bool)
      ensures status == ShouldConnect(disc, s_peer_addr)
    {
      status := false;
      if disc.parses {
        if disc.addr == SERVER_ADDR && disc.addr != s_peer_addr {
          if disc.evtype == AdvInd || disc.evtype == DirInd {
            for i := 0 to |disc.uuids|
              invariant ServiceUuid !in disc.uuids[..i]
            {
              if disc.uuids[i] == ServiceUuid { return true; }
            }
            assert disc.uuids[..|disc.uuids|] == disc.uuids;
          }
        }
      }
    }

    method ConnectIfInteresting(disc: Adv, cancelOk: bool, connectOk: bool)
      requires Possible(View(), Disc(disc, cancelOk, connectOk)) && OnePhase(View())
      modifies this`scanning, this`connecting
      ensures View() == After(old(View()), Disc(disc, cancelOk, connectOk))
    {
      var interesting := ShouldConnectTo(disc);
      if interesting {
        if cancelOk {
          scanning := false;
          if connectOk { connecting := true; }
        }
      }
    }

    method OnServiceDiscovery(conn_handle: nat, e: Event)
      requires Possible(View(), e) && conn == Peer(conn_handle) && (e.SvcFound? || e.SvcEnd?)
      modifies this`s_svc_end_handle, this`pending, this`ends
      ensures View() == After(old(View()), e)
    {
      match e
      case SvcFound(end, discOk) =>
        s_svc_end_handle := end;
        if discOk { pending := pending.(chr := true); } else { Terminate(conn_handle); }
      case SvcEnd(failed) =>
        pending := pending.(svc := false);
        if failed { Terminate(conn_handle); }
    }

    method OnCharacteristicDiscovery(conn_handle: nat, e: Event)
      requires Possible(View(), e) && conn == Peer(conn_handle) && (e.ChrFound? || e.ChrEnd?)
      modifies this`s_chr_val_handle, this`s_chr_found, this`attempts, this`pending, this`ends
      ensures View() == After(old(View()), e)
    {
      match e
      case ChrFound(val, discOk) =>
        s_chr_val_handle := val;
        s_chr_found := true;
        TryStartDscDiscovery(conn_handle, discOk);
      case ChrEnd(failed) =>
        pending := pending.(chr := false);
        if failed { Terminate(conn_handle); }
    }

    /** A non-zero result stops the discovery. */
    method OnDescriptorDiscovery(conn_handle: nat, e: Event) returns (status: int)
      requires Possible(View(), e) && conn == Peer(conn_handle) && (e.DscFound? || e.DscEnd?)
      modifies this`pending, this`writes, this`ends
      ensures View() == After(old(View()), e)
      ensures status == if e.DscFound? && e.configuration && e.writeOk then 1 else 0
    {
      status := 0;
      match e
      case DscFound(configuration, descriptor, writeOk) =>
        if configuration {
          if writeOk {
            writes := writes + [Subscription(conn_handle, descriptor)];
            pending := pending.(dsc := false, sub := true);
            status := 1;
          } else {
            Terminate(conn_handle);
          }
        }
      case DscEnd(failed) =>
        pending := pending.(dsc := false);
        if failed { Terminate(conn_handle); }
    }

    method OnSubscription(conn_handle: nat, ok: bool)
      requires Possible(View(), Subscribed(ok)) && conn == Peer(conn_handle)
      modifies this`pending, this`ends
      ensures View() == After(old(View()), Subscribed(ok))
    {
      pending := pending.(sub := false);
      if !ok { Terminate(conn_handle); }
    }

    /** The steps after a connection, each given up on failure. */
    method OnConnect(conn_handle: nat, findOk: bool, securityOk: bool, id: Address, discOk: bool)
      requires connecting
      modifies this
      ensures View() == Connects(old(View()), conn_handle, findOk, securityOk, id, discOk)
    {
      connecting, conn, pending := false, Peer(conn_handle), NOTHING;
      if !findOk { Terminate(conn_handle); return; }
      if !securityOk { Terminate(conn_handle); return; }
      s_peer_addr := id;
      if !discOk { Terminate(conn_handle); return; }
      pending := NOTHING.(svc := true);
    }

    method OnDisconnect(scanOk: bool)
      requires conn.Peer? && !scanning
      modifies this
      ensures View() == After(old(View()), Disconnected(scanOk))
    {
      conn, pending := Nobody, NOTHING;
      s_peer_addr := NO_PEER;
      s_chr_found := false;
      s_enc_done := false;
      Scan(scanOk);
    }

    method GapEvent(e: Event)
      requires Possible(View(), e) && OnePhase(View())
      requires e.Disc? || e.ConnectFailed? || e.Connected? || e.Disconnected? || e.EncChanged?
      modifies this
      ensures View() == After(old(View()), e) && OnePhase(View())
    {
      PhaseStep(View(), e);
      match e
      case Disc(adv, cancelOk, connectOk) =>
        ConnectIfInteresting(adv, cancelOk, connectOk);
      case ConnectFailed(scanOk) =>
        connecting := false;
        Scan(scanOk);
      case Connected(handle, findOk, securityOk, id, discOk) =>
        OnConnect(handle, findOk, securityOk, id, discOk);
      case Disconnected(scanOk) =>
        OnDisconnect(scanOk);
      case EncChanged(ok, discOk) =>
        if ok {
          s_enc_done := true;
          TryStartDscDiscovery(conn.handle, discOk);
        }
    }
  }
}
