/** The client's serial worker run against a scripted port
    (desktop/client/src/uartservice.cpp). */
module UartClient {
  import opened Bits

  // ---- Specification -------------------------------------------------------

  /** What the port will answer to each open, wait and read, whether it is open,
      what `m_buffer` holds, and the reads made so far. */
  datatype View = View(
    opens: seq<bool>, waits: seq<bool>, chunks: seq<seq<Byte>>, up: bool, shown: seq<Byte>, taken: seq<seq<Byte>>)

  function Rest<T>(s: seq<T>): seq<T> { if s == [] then [] else s[1..] }

  predicate Yes(answers: seq<bool>) { answers != [] && answers[0] }

  /** At most `n` bytes; none is a failure. */
  function Answer(chunks: seq<seq<Byte>>, n: nat): (b: seq<Byte>)
    ensures |b| <= n
  {
    if chunks == [] then [] else if |chunks[0]| <= n then chunks[0] else chunks[0][..n]
  }

  /** One turn of the loop: open if closed, wait, read, keep the port or close it. */
  function Turn(n: nat, v: View): View {
    var o := if v.up then v else v.(opens := Rest(v.opens), up := Yes(v.opens));
    if !o.up then o
    else
      var w := o.(waits := Rest(o.waits));
      if !Yes(o.waits) then w.(up := false)
      else
        var b := Answer(w.chunks, n);
        w.(chunks := Rest(w.chunks), taken := w.taken + [b], up := |b| == n, shown := if |b| == n then b else w.shown)
  }

  function Turns(n: nat, v: View, k: nat): View {
    if k == 0 then v else Turn(n, Turns(n, v, k - 1))
  }

  /** The loads of `m_stop` that come before the first true one. */
  function Loops(stops: seq<bool>): (k: nat)
    ensures k <= |stops| && (forall j :: 0 <= j < k ==> !stops[j]) && (k < |stops| ==> stops[k])
  {
    if stops == [] || stops[0] then 0 else 1 + Loops(stops[1..])
  }

  // ---- Properties ----------------------------------------------------------

  /** The reads that delivered a whole frame, in order. */
  function Whole(done: seq<seq<Byte>>, n: nat): seq<seq<Byte>> {
    if done == [] then []
    else Whole(done[..|done| - 1], n) + if |done[|done| - 1]| == n then [done[|done| - 1]] else []
  }

  /** However opens, waits and reads turn out, the buffer holds the last read that
      was a whole frame, and the port stays open only after such a read. */
  lemma {:induction false} ShowsLastWhole(n: nat, v: View, k: nat)
    requires v.taken == [] && !v.up
    ensures var t := Turns(n, v, k);
            var w := Whole(t.taken, n);
            && t.shown == (if w == [] then v.shown else w[|w| - 1])
            && (t.up ==> t.taken != [] && |t.taken[|t.taken| - 1]| == n)
  {
    if k > 0 {
      ShowsLastWhole(n, v, k - 1);
      var s, t := Turns(n, v, k - 1), Turns(n, v, k);
      assert t.taken == s.taken || t.taken[..|t.taken| - 1] == s.taken;
    }
  }

  /** What one turn uses up and leaves: it opens exactly a closed port, waits
      exactly at an open one, and reads exactly after a successful wait; the port
      is up afterwards exactly if it read a whole frame, and shows that frame. */
  lemma TurnExactly(n: nat, v: View)
    ensures var t := Turn(n, v);
            var isOpen := v.up || (v.opens != [] && v.opens[0]);
            var ready := isOpen && v.waits != [] && v.waits[0];
            var bytes := if v.chunks == [] then [] else if |v.chunks[0]| <= n then v.chunks[0] else v.chunks[0][..n];
            && t.opens == (if v.up || v.opens == [] then v.opens else v.opens[1..])
            && t.waits == (if !isOpen || v.waits == [] then v.waits else v.waits[1..])
            && t.chunks == (if !ready || v.chunks == [] then v.chunks else v.chunks[1..])
            && t.taken == (if ready then v.taken + [bytes] else v.taken)
            && (t.up <==> ready && |bytes| == n)
            && t.shown == (if ready && |bytes| == n then bytes else v.shown)
  {
  }

  lemma LoopsPrefix(stops: seq<bool>, i: nat)
    requires i <= |stops| && forall j :: 0 <= j < i ==> !stops[j]
    ensures Loops(stops) == i + Loops(stops[i..])
    decreases i
  {
    if i > 0 {
      LoopsPrefix(stops, i - 1);
      assert stops[i - 1..][1..] == stops[i..];
    }
  }

  // ---- The program ---------------------------------------------------------

  class SerialPort {
    var opens: seq<bool>
    var waits: seq<bool>
    var chunks: seq<seq<Byte>>
    var isOpen: bool
    ghost var received: seq<seq<Byte>>

    method Open() returns (ok: bool)
      requires !isOpen
      modifies this`opens, this`isOpen
      ensures isOpen == ok == Yes(old(opens)) && opens == Rest(old(opens))
    {
      if opens == [] { return false; }
      ok, opens := opens[0], opens[1..];
      isOpen := ok;
    }

    method Close()
      modifies this`isOpen
      ensures !isOpen
    {
      isOpen := false;
    }

    method WaitForReadyRead() returns (ready: bool)
      requires isOpen
      modifies this`waits
      ensures ready == Yes(old(waits)) && waits == Rest(old(waits))
    {
      if waits == [] { return false; }
      ready, waits := waits[0], waits[1..];
    }

    method Read(n: nat) returns (bytes: seq<Byte>)
      requires isOpen
      modifies this`chunks, this`received
      ensures bytes == Answer(old(chunks), n) && chunks == Rest(old(chunks))
      ensures received == old(received) + [bytes]
    {
      bytes := [];
      if chunks != [] {
        bytes := if |chunks[0]| <= n then chunks[0] else chunks[0][..n];
        chunks := chunks[1..];
      }
      received := received + [bytes];
    }
  }

  class UARTService {
    const m_buffer: array<Byte>
    var m_status: bool

    constructor (n: nat)
      ensures m_buffer.Length == n && fresh(m_buffer) && !m_status
    {
      m_buffer := new Byte[n](_ => 0);
      m_status := false;
    }

    ghost function Seen(serial: SerialPort): View
      reads serial, m_buffer
    {
      View(serial.opens, serial.waits, serial.chunks, serial.isOpen, m_buffer[..], serial.received)
    }

    /** `stops` is what the successive loads of `m_stop` return, true from its end on. */
    method Run(serial: SerialPort, stops: seq<bool>)
      requires !serial.isOpen && !m_status && serial.received == []
      modifies this, m_buffer, serial
      ensures var end := Turns(m_buffer.Length, old(Seen(serial)), Loops(stops));
              Seen(serial) == end.(up := false) && m_status == end.up
    {
      ghost var n, v := m_buffer.Length, Seen(serial);
      var i := 0;
      while i < |stops| && !stops[i]
        invariant i <= |stops| && forall j :: 0 <= j < i ==> !stops[j]
        invariant m_status == serial.isOpen && Seen(serial) == Turns(n, v, i)
      {
        ghost var before := Seen(serial);
        OneTurn(serial);
        assert Seen(serial) == Turn(n, before) == Turns(n, v, i + 1);
        i := i + 1;
      }
      LoopsPrefix(stops, i);
      serial.Close();
    }

    /** The loop's body; at its head the flag says whether the port is open. */
    method OneTurn(serial: SerialPort)
      requires m_status == serial.isOpen
      modifies this, m_buffer, serial
      ensures Seen(serial) == Turn(m_buffer.Length, old(Seen(serial)))
      ensures m_status == serial.isOpen
    {
      if !m_status {
        var ok := serial.Open();
        if !ok { return; }
      }
      var ready := serial.WaitForReadyRead();
      if ready {
        var tmpbuf := serial.Read(m_buffer.Length);
        if |tmpbuf| == m_buffer.Length {
          forall j | 0 <= j < m_buffer.Length { m_buffer[j] := tmpbuf[j]; }
          assert m_buffer[..] == tmpbuf;
          m_status := true;
        } else {
          m_status := false;
          serial.Close();
        }
      } else {
        m_status := false;
        serial.Close();
      }
    }
  }
}
