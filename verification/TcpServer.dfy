/** The server's accept and send loops against a scripted kernel
    (desktop/server/src/tcpservice.cpp:83-154). The GUI writes `m_buf` at any
    time between two locks, so the script also says what each lock finds. */
module TcpServer {
  import opened Bits

  /** One turn of the send loop: the buffer found under the lock, what `send`
      returned. The kernel never reports more bytes than it was given. */
  datatype Attempt = Attempt(found: seq<Byte>, sent: int)

  type Turn = t: Attempt | t.sent <= |t.found| witness Attempt([], 0)

  /** One `accept`: a failure, or a connection with the turns `m_is_running` allows. */
  datatype Visit = Refused(running: bool) | Served(turns: seq<Turn>)

  /** No `send` failed. */
  predicate Unfailed(turns: seq<Turn>) {
    turns == [] || (turns[0].sent > 0 && Unfailed(turns[1..]))
  }

  /** What the peer can receive: the bytes that each `send` moved, up to the first
      failure. Any positive count is taken for success. */
  function Delivered(turns: seq<Turn>): seq<seq<Byte>> {
    if turns == [] || turns[0].sent <= 0 then []
    else [turns[0].found[..turns[0].sent]] + Delivered(turns[1..])
  }

  /** The connections served before an `accept` failed after the shutdown. */
  function Accepted(visits: seq<Visit>): seq<seq<Turn>> {
    if visits == [] then []
    else match visits[0]
      case Refused(running) => if running then Accepted(visits[1..]) else []
      case Served(turns) => [turns] + Accepted(visits[1..])
  }

  class TCPService {
    var m_status: bool

    /** The bytes moved, send by send and connection by connection; connections closed. */
    ghost var wires: seq<seq<seq<Byte>>>
    ghost var closed: nat

    constructor ()
      ensures !m_status && wires == [] && closed == 0
    {
      m_status, wires, closed := false, [], 0;
    }

    method SendLoop(turns: seq<Turn>) returns (ghost wire: seq<seq<Byte>>)
      requires m_status
      modifies this`m_status
      ensures wire == Delivered(turns)
      ensures m_status <==> Unfailed(turns)
    {
      wire := [];
      var i := 0;
      while i < |turns|
        invariant 0 <= i <= |turns| && m_status
        invariant Delivered(turns) == wire + Delivered(turns[i..])
        invariant Unfailed(turns) <==> Unfailed(turns[i..])
      {
        assert turns[i..][0] == turns[i] && turns[i..][1..] == turns[i + 1..];
        var temp_buf := turns[i].found;
        if turns[i].sent <= 0 {
          m_status := false;
          return;
        }
        wire := wire + [temp_buf[..turns[i].sent]];
        i := i + 1;
      }
    }

    method Run(visits: seq<Visit>)
      requires wires == [] && closed == 0 && !m_status
      modifies this
      ensures |wires| == |Accepted(visits)| == closed
      ensures m_status <==> Accepted(visits) != [] && Unfailed(Accepted(visits)[|Accepted(visits)| - 1])
      ensures forall c :: 0 <= c < |wires| ==> wires[c] == Delivered(Accepted(visits)[c])
    {
      ghost var all := Accepted(visits);
      for i := 0 to |visits|
        invariant |wires| == closed && |all| == |wires| + |Accepted(visits[i..])|
        invariant all[|wires|..] == Accepted(visits[i..])
        invariant m_status <==> wires != [] && Unfailed(all[|wires| - 1])
        invariant forall c :: 0 <= c < |wires| ==> wires[c] == Delivered(all[c])
      {
        assert visits[i..][0] == visits[i] && visits[i..][1..] == visits[i + 1..];
        match visits[i] {
          case Refused(running) =>
            if !running { break; }
          case Served(turns) =>
            assert all[|wires|..][0] == turns && all[|wires|..][1..] == all[|wires| + 1..];
            m_status := true;
            ghost var wire := SendLoop(turns);
            wires := wires + [wire];
            closed := closed + 1;
        }
      }
    }
  }

  /** The visits that are served: the accepted ones before the first `accept` that
      failed after the shutdown. A failure while running serves nothing and ends
      nothing. */
  lemma {:induction false} ServesUntilStop(visits: seq<Visit>) returns (at: seq<nat>)
    ensures |at| == |Accepted(visits)|
    ensures forall c, d :: 0 <= c < d < |at| ==> at[c] < at[d]
    ensures forall c :: 0 <= c < |at| ==> at[c] < |visits| && visits[at[c]] == Served(Accepted(visits)[c])
    ensures forall i :: 0 <= i < |visits| && visits[i].Served? ==>
              (i in at <==> forall j :: 0 <= j < i ==> visits[j] != Refused(false))
  {
    at := [];
    if visits != [] && visits[0] != Refused(false) {
      var rest := ServesUntilStop(visits[1..]);
      var shifted := seq(|rest|, c requires 0 <= c < |rest| => rest[c] + 1);
      at := (if visits[0].Served? then [0] else []) + shifted;
      forall i | 0 <= i < |visits| && visits[i].Served?
        ensures i in at <==> forall j :: 0 <= j < i ==> visits[j] != Refused(false)
      {
        if i > 0 { ServedLater(visits, rest, shifted, i); }
      }
    }
  }

  lemma ServedLater(visits: seq<Visit>, rest: seq<nat>, shifted: seq<nat>, i: nat)
    requires 0 < i < |visits| && visits[i].Served? && visits[0] != Refused(false)
    requires |shifted| == |rest| && forall c :: 0 <= c < |rest| ==> shifted[c] == rest[c] + 1
    requires i - 1 in rest <==> forall j :: 0 <= j < i - 1 ==> visits[1..][j] != Refused(false)
    ensures i in shifted <==> forall j :: 0 <= j < i ==> visits[j] != Refused(false)
  {
    if i - 1 in rest {
      var c :| 0 <= c < |rest| && rest[c] == i - 1;
      assert shifted[c] == i;
      forall j | 0 <= j < i ensures visits[j] != Refused(false) {
        if j > 0 { assert visits[1..][j - 1] == visits[j]; }
      }
    }
    if forall j :: 0 <= j < i ==> visits[j] != Refused(false) {
      assert forall j :: 0 <= j < i - 1 ==> visits[1..][j] == visits[j + 1];
    }
  }

  /** A connection delivers the beginnings of its snapshots in order from the first,
      and gives up at the first failed send only; it delivers the snapshots
      themselves exactly when every count is the whole length. */
  lemma {:induction false} DeliversPrefix(turns: seq<Turn>)
    ensures var d := Delivered(turns);
            && |d| <= |turns|
            && (forall i :: 0 <= i < |d| ==> turns[i].sent > 0 && d[i] == turns[i].found[..turns[i].sent])
            && (|d| < |turns| ==> turns[|d|].sent <= 0)
            && (Unfailed(turns) <==> |d| == |turns|)
    ensures (forall i :: 0 <= i < |Delivered(turns)| ==> Delivered(turns)[i] == turns[i].found) <==>
            (forall i :: 0 <= i < |Delivered(turns)| ==> turns[i].sent == |turns[i].found|)
  {
    Delivers(turns);
    var d := Delivered(turns);
    forall i | 0 <= i < |d| ensures d[i] == turns[i].found <==> turns[i].sent == |turns[i].found| {
      assert |d[i]| == turns[i].sent;
    }
  }

  lemma {:induction false} Delivers(turns: seq<Turn>)
    ensures var d := Delivered(turns);
            && |d| <= |turns|
            && (forall i :: 0 <= i < |d| ==> turns[i].sent > 0 && d[i] == turns[i].found[..turns[i].sent])
            && (|d| < |turns| ==> turns[|d|].sent <= 0)
            && (Unfailed(turns) <==> |d| == |turns|)
  {
    if turns != [] && turns[0].sent > 0 { Delivers(turns[1..]); }
  }
}
