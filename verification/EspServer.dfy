/** The ESP32 server's serial-to-BLE loop and the host events that steer it
    (esp32/server/src/main.c:140-185, 345-383). One pass of either loop ends
    with a flush; the script says what arrives before it and what the host does. */
module EspServer {
  import opened Bits
  import Relay

  const NO_CONN_HANDLE: nat := 0xFFFF

  datatype HostEvent = ConnectEvent(ok: bool) | DisconnectEvent | SubscribeEvent(handle: nat) | OtherEvent

  /** Bytes that reach the UART since the last flush and before the pass is over,
      whether a notification would be accepted, and the events before the next test. */
  datatype Pass = Pass(arrived: seq<Byte>, sent: bool, events: seq<HostEvent>)

  // ---- Specification -------------------------------------------------------

  function HandleAfter(h: nat, events: seq<HostEvent>): nat {
    if events == [] then h
    else
      match events[|events| - 1]
      case DisconnectEvent => NO_CONN_HANDLE
      case SubscribeEvent(handle) => handle
      case _ => HandleAfter(h, events[..|events| - 1])
  }

  /** What one pass hands to the BLE host. */
  function Sent(n: nat, h: nat, p: Pass): seq<seq<Byte>> {
    if h != NO_CONN_HANDLE && |p.arrived| >= n && p.sent then [p.arrived[..n]] else []
  }

  function Handles(h: nat, passes: seq<Pass>): nat {
    if passes == [] then h
    else HandleAfter(Handles(h, passes[..|passes| - 1]), passes[|passes| - 1].events)
  }

  function Notified(n: nat, h: nat, passes: seq<Pass>): seq<seq<Byte>> {
    if passes == [] then []
    else
      var k := |passes| - 1;
      Notified(n, h, passes[..k]) + Sent(n, Handles(h, passes[..k]), passes[k])
  }

  // ---- Properties ----------------------------------------------------------

  predicate Links(e: HostEvent) { e.DisconnectEvent? || e.SubscribeEvent? }

  /** The last subscription or disconnection among the events. */
  ghost predicate LastLink(events: seq<HostEvent>, j: int) {
    0 <= j < |events| && Links(events[j]) && forall k :: j < k < |events| ==> !Links(events[k])
  }

  /** The handle is that of the last subscription, none if a disconnection came
      after it, ... */
  lemma {:induction false} HandleIsLast(h: nat, events: seq<HostEvent>, j: nat)
    requires LastLink(events, j)
    ensures HandleAfter(h, events) == match events[j] case SubscribeEvent(x) => x case _ => 0xFFFF
  {
    var k := |events| - 1;
    if j < k {
      assert LastLink(events[..k], j);
      HandleIsLast(h, events[..k], j);
    }
  }

  /** ... and unchanged if neither happened. */
  lemma {:induction false} HandleIsKept(h: nat, events: seq<HostEvent>)
    requires forall k :: 0 <= k < |events| ==> !Links(events[k])
    ensures HandleAfter(h, events) == h
  {
    if events != [] { HandleIsKept(h, events[..|events| - 1]); }
  }

  function Events(passes: seq<Pass>): seq<HostEvent> {
    if passes == [] then [] else Events(passes[..|passes| - 1]) + passes[|passes| - 1].events
  }

  /** The handle of a pass is what all events before it leave. */
  lemma {:induction false} HandlesOfAll(h: nat, passes: seq<Pass>)
    ensures Handles(h, passes) == HandleAfter(h, Events(passes))
  {
    if passes != [] {
      var k := |passes| - 1;
      HandlesOfAll(h, passes[..k]);
      HandleOn(h, Events(passes[..k]), passes[k].events);
    }
  }

  lemma {:induction false} HandleOn(h: nat, a: seq<HostEvent>, b: seq<HostEvent>)
    ensures HandleAfter(HandleAfter(h, a), b) == HandleAfter(h, a + b)
    decreases |b|
  {
    if b == [] {
      assert a + b == a;
    } else {
      assert (a + b)[..|a + b| - 1] == a + b[..|b| - 1];
      HandleOn(h, a, b[..|b| - 1]);
    }
  }

  /** Each notification is the first `n` bytes of one pass, later ones of later
      passes, and no byte outlives a flush; the passes are exactly those made while
      subscribed in which a whole frame had arrived and the host took it. */
  lemma {:induction false} FromDistinctPasses(n: nat, h: nat, passes: seq<Pass>) returns (from: seq<nat>)
    ensures |from| == |Notified(n, h, passes)| && Relay.Increasing(from) && Relay.Within(from, |passes|)
    ensures forall i :: 0 <= i < |from| ==>
              Notified(n, h, passes)[i] <= passes[from[i]].arrived && |Notified(n, h, passes)[i]| == n
    ensures forall k :: 0 <= k < |passes| ==> (k in from <==> Taken(n, h, passes, k))
  {
    from := [];
    if passes != [] {
      var k := |passes| - 1;
      var rest := FromDistinctPasses(n, h, passes[..k]);
      from := rest + if Taken(n, h, passes, k) then [k] else [];
      assert passes[..k + 1] == passes;
      PassStep(n, h, passes, k);
      TakenBefore(n, h, passes);
      hide Notified, Handles, Taken;
      assert Taken(n, h, passes, k) <==> Sent(n, Handles(h, passes[..k]), passes[k]) != [];
      forall i | 0 <= i < k ensures i in from <==> Taken(n, h, passes, i) {
        assert i in from <==> i in rest;
      }
    }
  }

  /** Pass `k` is made while subscribed, with a whole frame that the host takes. */
  predicate Taken(n: nat, h: nat, passes: seq<Pass>, k: nat)
    requires k < |passes|
  {
    Handles(h, passes[..k]) != 0xFFFF && |passes[k].arrived| >= n && passes[k].sent
  }

  lemma TakenBefore(n: nat, h: nat, passes: seq<Pass>)
    requires passes != []
    ensures var k := |passes| - 1;
            && (Taken(n, h, passes, k) <==> Sent(n, Handles(h, passes[..k]), passes[k]) != [])
            && forall i :: 0 <= i < k ==> (Taken(n, h, passes, i) <==> Taken(n, h, passes[..k], i))
  {
    var k := |passes| - 1;
    forall i | 0 <= i < k ensures Taken(n, h, passes, i) <==> Taken(n, h, passes[..k], i) {
      assert passes[..k][..i] == passes[..i];
    }
  }

  lemma Nothing(n: nat, h: nat)
    ensures Notified(n, h, []) == [] && Handles(h, []) == h
  {
  }

  lemma PassStep(n: nat, h: nat, passes: seq<Pass>, i: nat)
    requires i < |passes|
    ensures Handles(h, passes[..i + 1]) == HandleAfter(Handles(h, passes[..i]), passes[i].events)
    ensures Notified(n, h, passes[..i + 1]) ==
            Notified(n, h, passes[..i]) + Sent(n, Handles(h, passes[..i]), passes[i])
  {
    assert passes[..i + 1][..i] == passes[..i];
  }

  /** A pass while subscribed is the two relay steps of the loop body: the same
      bytes are notified, and the receive buffer is empty afterwards. */
  lemma PassRefines(n: nat, s: Relay.State, h: nat, p: Pass)
    requires n > 0 && s.pc == Relay.AtRead && s.subscribed && h != NO_CONN_HANDLE
    requires Relay.Bytes(s.a.rx) == p.arrived
    ensures Relay.Possible(n, s, Relay.EspRead(p.sent))
    ensures var t := Relay.After(n, s, Relay.EspRead(p.sent));
            && Relay.Possible(n, t, Relay.EspFlush)
            && var u := Relay.After(n, t, Relay.EspFlush);
               && u.a.rx == [] && u.pc == Relay.AtRead
               && u.a.out == s.a.out + |p.arrived|
               && |u.air| == |s.air| + |Sent(n, h, p)| && u.air[..|s.air|] == s.air
               && forall k :: |s.air| <= k < |u.air| ==>
                    Relay.Bytes(u.air[k].bytes) == Sent(n, h, p)[k - |s.air|] && u.air[k].start == s.a.out
  {
    if |s.a.rx| >= n { assert Relay.Bytes(s.a.rx[..n]) == p.arrived[..n]; }
  }

  // ---- The program ---------------------------------------------------------

  class Board {
    var active_conn_handle: nat
    var uart: seq<Byte>
    ghost var notified: seq<seq<Byte>>

    constructor ()
      ensures active_conn_handle == NO_CONN_HANDLE && uart == [] && notified == []
    {
      active_conn_handle, uart, notified := NO_CONN_HANDLE, [], [];
    }

    method GapEvent(e: HostEvent)
      modifies this`active_conn_handle
      ensures active_conn_handle == HandleAfter(old(active_conn_handle), [e])
    {
      match e
      case DisconnectEvent => active_conn_handle := NO_CONN_HANDLE;
      case SubscribeEvent(handle) => active_conn_handle := handle;
      case _ =>
    }

    method Deliver(events: seq<HostEvent>)
      modifies this`active_conn_handle
      ensures active_conn_handle == HandleAfter(old(active_conn_handle), events)
    {
      for i := 0 to |events|
        invariant active_conn_handle == HandleAfter(old(active_conn_handle), events[..i])
      {
        GapEvent(events[i]);
        assert events[..i + 1][..i] == events[..i];
      }
      assert events[..|events|] == events;
    }

    /** Take up to `n` bytes out of the driver's buffer. */
    method ReadBytes(n: nat) returns (buffer: seq<Byte>)
      modifies this`uart
      ensures if |old(uart)| >= n then buffer == old(uart)[..n] else buffer == old(uart)
    {
      var len := if |uart| >= n then n else |uart|;
      buffer, uart := uart[..len], uart[len..];
    }

    method FlushInput()
      modifies this`uart
      ensures uart == []
    {
      uart := [];
    }

    /** The body of the inner loop. */
    method Forward(n: nat, sent: bool)
      modifies this`uart, this`notified
      ensures uart == []
      ensures notified == old(notified) +
              if |old(uart)| >= n && sent then [old(uart)[..n]] else []
    {
      var buffer := ReadBytes(n);
      if |buffer| == n {
        if sent { notified := notified + [buffer]; }
      }
      FlushInput();
    }

    method AppMain(n: nat, passes: seq<Pass>)
      requires n > 0 && uart == [] && notified == []
      modifies this
      ensures notified == Notified(n, old(active_conn_handle), passes)
      ensures active_conn_handle == Handles(old(active_conn_handle), passes) && uart == []
    {
      hide Notified, Handles, HandleAfter;
      ghost var h := active_conn_handle;
      Nothing(n, h);
      var i := 0;
      while i < |passes|
        invariant i <= |passes| && uart == []
        invariant notified == Notified(n, h, passes[..i]) && active_conn_handle == Handles(h, passes[..i])
      {
        while i < |passes| && active_conn_handle != NO_CONN_HANDLE
          invariant i <= |passes| && uart == []
          invariant notified == Notified(n, h, passes[..i]) && active_conn_handle == Handles(h, passes[..i])
        {
          PassStep(n, h, passes, i);
          uart := passes[i].arrived;
          Forward(n, passes[i].sent);
          Deliver(passes[i].events);
          i := i + 1;
        }
        if i < |passes| {
          PassStep(n, h, passes, i);
          uart := passes[i].arrived;
          FlushInput();
          Deliver(passes[i].events);
          i := i + 1;
        }
      }
      assert passes[..|passes|] == passes;
    }
  }
}
