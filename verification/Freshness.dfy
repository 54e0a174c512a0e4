/** What reaches the client's screen: framing and freshness of every getter
    result, and what a short send does to them. */
module Freshness {
  import opened Arithmetic
  import opened Bits
  import opened Setting
  import opened Layout
  import opened ClientCom
  import opened Transport
  import opened Wrappers
  import opened Wire
  import Shutdown
  import TcpClient

  // ---- The invariant -------------------------------------------------------

  ghost predicate Sorted(s: seq<nat>) {
    forall i, j :: 0 <= i <= j < |s| ==> s[i] <= s[j]
  }

  ghost predicate Below(s: seq<nat>, m: nat) {
    forall i :: 0 <= i < |s| ==> s[i] <= m
  }

  /** The server's buffer packs its log; the frames are its past contents. */
  ghost predicate PackedOk(c: Config, v: Server) {
    && Over(v.log, Infos(c))
    && |v.frames| == |v.log| + 1
    && (forall k :: 0 <= k <= |v.log| ==>
          |v.frames[k]| == c.n && LE(v.frames[k]) == Apply(0, v.log[..k]))
    && v.frames[0] == Zeros(c.n)
    && v.m_buf == v.frames[|v.log|]
  }

  ghost predicate ServerOk(c: Config, v: Server, net: seq<Conn>) {
    && PackedOk(c, v)
    && (v.pc.Snapped? ==> v.tempAt <= |v.log| && v.temp_buf == v.frames[v.tempAt])
    && (!v.pc.Accepting? ==> v.pc.conn < |net| && net[v.pc.conn].accepted)
  }

  /** A byte of the wire is the byte of a past buffer that its tag names. */
  ghost predicate ByteOk(frames: seq<seq<Byte>>, sent: seq<Sending>, t: Tag, b: Byte) {
    && t.send < |sent| && sent[t.send].at < |frames|
    && t.off < |frames[sent[t.send].at]| && b == frames[sent[t.send].at][t.off]
  }

  ghost predicate Labelled(frames: seq<seq<Byte>>, sent: seq<Sending>, wire: seq<Byte>) {
    && |wire| == |Tags(sent)|
    && forall p :: 0 <= p < |wire| ==> ByteOk(frames, sent, Tags(sent)[p], wire[p])
  }

  ghost predicate InOrder(sent: seq<Sending>) {
    forall i, j :: 0 <= i <= j < |sent| ==> sent[i].at <= sent[j].at
  }

  ghost predicate UpTo(sent: seq<Sending>, m: nat) {
    forall i :: 0 <= i < |sent| ==> sent[i].at <= m
  }

  /** The bytes of a connection are pieces of past buffers, oldest first. */
  ghost predicate ConnOk(n: nat, v: Server, i: nat, d: Conn) {
    && Proper(n, d.sent) && InOrder(d.sent) && UpTo(d.sent, |v.log|)
    && Labelled(v.frames, d.sent, d.wire)
    && n * d.pubs <= d.got <= |d.wire| && d.pipe == d.wire[d.got..]
    && (!d.accepted ==> d.sent == [])
    && (v.pc == Snapped(i) ==> UpTo(d.sent, v.tempAt))
  }

  ghost predicate NetOk(n: nat, v: Server, net: seq<Conn>) {
    forall i :: 0 <= i < |net| ==> ConnOk(n, v, i, net[i])
  }

  /** What the worker holds of the current connection `d`. */
  ghost predicate WorkerOk(n: nat, w: WorkerState, d: Conn) {
    WorkerAt(n, w, d, n * d.pubs)
  }

  /** `done` of the bytes received belong to published frames. */
  ghost predicate WorkerAt(n: nat, w: WorkerState, d: Conn, done: int) {
    && |w.tmpbuf| == n && d.got <= |d.wire|
    && (w.pc == MarkUp ==> d.got == 0 == done)
    && (w.pc == Head || w.pc == Check ==> d.got == done)
    && (w.pc == ReadHead || w.pc == Reading || w.pc == Decide || w.pc == Publishing ==>
          && w.nread <= n && d.got == done + w.nread
          && w.nread <= d.got && w.tmpbuf[..w.nread] == d.wire[d.got - w.nread..d.got])
    && (w.pc == Publishing ==> w.nread == n)
  }

  /** Everything the current connection still delivers is at least as new as
      what was published. */
  ghost predicate AheadOk(v: Server, g: View, i: nat, d: Conn) {
    && (forall j :: d.pubs <= j < |d.sent| ==> g.source <= d.sent[j].at)
    && (v.pc == Snapped(i) ==> g.source <= v.tempAt)
  }

  /** The newest connection is the one the worker reads from, if it is linked to one. */
  ghost predicate ClientOk(n: nat, v: Server, g: View, w: WorkerState, linked: bool, net: seq<Conn>) {
    && |w.tmpbuf| == n
    && (net != [] ==> AheadOk(v, g, |net| - 1, net[|net| - 1]))
    && (net != [] && linked ==> WorkerOk(n, w, net[|net| - 1]))
  }

  predicate LinkedNow(s: State) {
    Shutdown.Linked(s.wrk.pc, s.flags) && s.dtor != Gone
  }

  ghost predicate ViewOk(v: Server, g: View) {
    && g.source <= |v.log|
    && |g.froms| == |g.obs| && Sorted(g.froms) && Below(g.froms, g.source)
  }

  /** The data part of the invariant, in every run; the control part is `Shutdown.Ok`. */
  ghost predicate Ok(c: Config, s: State) {
    && ServerOk(c, s.srv, s.net) && NetOk(c.n, s.srv, s.net) && ViewOk(s.srv, s.gui)
    && ClientOk(c.n, s.srv, s.gui, s.wrk, LinkedNow(s), s.net)
  }

  /** No connection published a block from behind its first short send. */
  ghost predicate Unmixed(n: nat, net: seq<Conn>) {
    forall i :: 0 <= i < |net| ==> net[i].pubs <= Whole(n, net[i].sent)
  }

  /** A getter result is zero if nothing was published since the start or the last
      clear, and otherwise the value last written to the signal among the first
      `k` inserts. */
  ghost predicate Explained(c: Config, log: seq<Write>, o: Obs, k: nat) {
    && o.sig < |c.signals| && k <= o.at <= |log|
    && var x := c.signals[o.sig];
       o.val == if o.cleared then 0 else ValueOf(x.ctype.I8?, x.info.length, LastBits(0, log[..k], x.info))
  }

  /** The client's buffer is blank or the frame it should be. */
  ghost predicate Shows(n: nat, v: Server, g: View) {
    if g.blank then g.m_buffer == Zeros(n) else g.source < |v.frames| && g.m_buffer == v.frames[g.source]
  }

  ghost predicate Read(c: Config, log: seq<Write>, g: View) {
    |g.froms| == |g.obs| && forall i :: 0 <= i < |g.obs| ==> Explained(c, log, g.obs[i], g.froms[i])
  }

  /** What holds in addition while nothing is mixed. */
  ghost predicate Shown(c: Config, s: State) {
    Shows(c.n, s.srv, s.gui) && Read(c, s.srv.log, s.gui)
  }

  // ---- Server steps --------------------------------------------------------

  lemma LogPrefix(log: seq<Write>, x: Write, k: nat)
    requires k <= |log|
    ensures (log + [x])[..k] == log[..k]
  {
  }

  lemma InsertPacks(c: Config, v: Server, i: nat, val: int)
    requires ValidConfig(c) && PackedOk(c, v) && i < |c.signals|
    ensures PackedOk(c, InsertNext(c, v, i, val))
  {
    var f := c.signals[i].info;
    var x := Write(f, val);
    assert v.log[..|v.log|] == v.log && (v.log + [x])[..|v.log|] == v.log;
    var w := Put(LE(v.m_buf), f.start, f.length, Pattern(f, val));
    assert f in Infos(c);
    LEBound(v.m_buf);
    PutBound(LE(v.m_buf), f.start, f.length, Pattern(f, val), 8 * c.n);
    BytesRoundTrip(w, c.n);
    assert Apply(0, v.log + [x]) == w;
    var t := InsertNext(c, v, i, val);
    forall k | 0 <= k <= |t.log| ensures |t.frames[k]| == c.n && LE(t.frames[k]) == Apply(0, t.log[..k]) {
      if k <= |v.log| { LogPrefix(v.log, x, k); } else { assert t.log[..k] == t.log; }
    }
  }

  lemma ConnGrows(n: nat, v: Server, w: Server, i: nat, d: Conn)
    requires ConnOk(n, v, i, d) && v.frames <= w.frames && |v.log| <= |w.log|
    requires w.pc == Snapped(i) ==> UpTo(d.sent, w.tempAt)
    ensures ConnOk(n, w, i, d)
  {
    forall p | 0 <= p < |d.wire| ensures ByteOk(w.frames, d.sent, Tags(d.sent)[p], d.wire[p]) {
      assert ByteOk(v.frames, d.sent, Tags(d.sent)[p], d.wire[p]);
    }
  }

  lemma InsertKeeps(c: Config, s: State, i: nat, val: int)
    requires ValidConfig(c) && Ok(c, s) && i < |c.signals|
    ensures Ok(c, s.(srv := InsertNext(c, s.srv, i, val)))
  {
    var t := InsertNext(c, s.srv, i, val);
    InsertPacks(c, s.srv, i, val);
    NetGrows(c.n, s.srv, t, s.net);
  }

  lemma NetGrows(n: nat, v: Server, w: Server, net: seq<Conn>)
    requires NetOk(n, v, net) && v.frames <= w.frames && |v.log| <= |w.log|
    requires forall i {:trigger net[i]} :: 0 <= i < |net| && w.pc == Snapped(i) ==> UpTo(net[i].sent, w.tempAt)
    ensures NetOk(n, w, net)
  {
    forall i | 0 <= i < |net| ensures ConnOk(n, w, i, net[i]) {
      ConnGrows(n, v, w, i, net[i]);
    }
  }

  /** Replacing one connection. */
  lemma NetSet(n: nat, v: Server, net: seq<Conn>, i: nat, d: Conn)
    requires NetOk(n, v, net) && i < |net| && ConnOk(n, v, i, d)
    ensures NetOk(n, v, net[i := d])
  {
    hide ConnOk;
    var r := net[i := d];
    forall j | 0 <= j < |r| ensures ConnOk(n, v, j, r[j]) {
      assert ConnOk(n, v, j, net[j]);
    }
  }

  lemma SendConn(n: nat, v: Server, i: nat, d: Conn, k: nat)
    requires ConnOk(n, v, i, d) && v.pc == Snapped(i) && d.accepted
    requires v.tempAt <= |v.log| < |v.frames| && v.temp_buf == v.frames[v.tempAt] && 1 <= k <= |v.temp_buf| == n
    ensures var bytes := v.temp_buf[..k];
            ConnOk(n, v.(pc := Sleeping(i)), i,
                   d.(pipe := d.pipe + bytes, wire := d.wire + bytes, sent := d.sent + [Sending(v.tempAt, k)]))
  {
    var bytes := v.temp_buf[..k];
    LabelledGrows(v.frames, d.sent, d.wire, Sending(v.tempAt, k));
    hide Labelled;
    assert (d.wire + bytes)[d.got..] == d.wire[d.got..] + bytes;
  }

  lemma LabelledGrows(frames: seq<seq<Byte>>, sent: seq<Sending>, wire: seq<Byte>, x: Sending)
    requires Labelled(frames, sent, wire) && x.at < |frames| && x.len <= |frames[x.at]|
    ensures Labelled(frames, sent + [x], wire + frames[x.at][..x.len])
  {
    var longer, all := wire + frames[x.at][..x.len], sent + [x];
    WholeGrows(0, sent, x);
    hide Tags;
    forall p | 0 <= p < |longer| ensures ByteOk(frames, all, Tags(all)[p], longer[p]) {
      if p < |wire| { assert ByteOk(frames, sent, Tags(sent)[p], wire[p]); }
    }
  }

  lemma SendKeeps(c: Config, s: State, k: nat)
    requires ValidConfig(c) && Ok(c, s) && s.srv.pc.Snapped? && s.srv.pc.conn < |s.net|
    requires 1 <= k <= |s.srv.temp_buf|
    ensures Ok(c, Sent(s, s.srv.pc.conn, k))
  {
    var v := s.srv;
    var i, d := v.pc.conn, s.net[v.pc.conn];
    assert |v.temp_buf| == c.n && ConnOk(c.n, v, i, d);
    SendConn(c.n, v, i, d, k);
    NetGrows(c.n, v, v.(pc := Sleeping(i)), s.net);
    NetSet(c.n, v.(pc := Sleeping(i)), s.net, i, Sent(s, i, k).net[i]);
    SendClient(c.n, s, i, k);
  }

  lemma SendClient(n: nat, s: State, i: nat, k: nat)
    requires ClientOk(n, s.srv, s.gui, s.wrk, LinkedNow(s), s.net) && s.srv.pc == Snapped(i) && i < |s.net|
    requires s.net[i].got <= |s.net[i].wire| && k <= |s.srv.temp_buf|
    ensures var t := Sent(s, i, k); ClientOk(n, t.srv, s.gui, s.wrk, LinkedNow(s), t.net)
  {
    var d, e := s.net[i], Sent(s, i, k).net[i];
    assert forall j :: 0 <= j <= d.got ==> e.wire[j..d.got] == d.wire[j..d.got];
  }

  /** Only the flags of connections changed. */
  ghost predicate FlagsChanged(a: seq<Conn>, b: seq<Conn>) {
    |a| == |b| &&
    forall i :: 0 <= i < |a| ==>
      && b[i] == a[i].(accepted := b[i].accepted, serverClosed := b[i].serverClosed, clientShut := b[i].clientShut)
      && (a[i].accepted ==> b[i].accepted)
  }

  lemma NetFlags(n: nat, v: Server, a: seq<Conn>, b: seq<Conn>)
    requires NetOk(n, v, a) && FlagsChanged(a, b)
    ensures NetOk(n, v, b)
  {
    forall i | 0 <= i < |b| ensures ConnOk(n, v, i, b[i]) {
      assert ConnOk(n, v, i, a[i]);
    }
  }

  lemma ClientFlags(n: nat, v: Server, g: View, w: WorkerState, linked: bool, a: seq<Conn>, b: seq<Conn>)
    requires ClientOk(n, v, g, w, linked, a) && FlagsChanged(a, b)
    ensures ClientOk(n, v, g, w, linked, b)
  {
  }

  lemma ServerKeeps(c: Config, s: State, a: Action)
    requires ValidConfig(c) && Ok(c, s) && ServerEnabled(s, a) && !a.SendShort? && !a.Send?
    ensures Ok(c, ServerNext(s, a))
  {
    var t := ServerNext(s, a);
    SnapshotBelow(c, s, a);
    NetGrows(c.n, s.srv, t.srv, s.net);
    NetFlags(c.n, t.srv, s.net, t.net);
    ServerStays(c, s, a);
  }

  lemma SnapshotBelow(c: Config, s: State, a: Action)
    requires ServerOk(c, s.srv, s.net) && NetOk(c.n, s.srv, s.net) && ServerEnabled(s, a) && !a.SendShort? && !a.Send?
    ensures var t := ServerNext(s, a).srv;
            forall i {:trigger s.net[i]} :: 0 <= i < |s.net| && t.pc == Snapped(i) ==> UpTo(s.net[i].sent, t.tempAt)
  {
    if a.Snapshot? { assert ConnOk(c.n, s.srv, s.srv.pc.conn, s.net[s.srv.pc.conn]); }
  }

  lemma ServerShape(c: Config, s: State, a: Action)
    requires ServerEnabled(s, a) && !a.SendShort? && !a.Send?
    ensures var t := ServerNext(s, a);
            && t.gui == s.gui && t.wrk == s.wrk && t.flags == s.flags && t.dtor == s.dtor
            && t.srv.log == s.srv.log && FlagsChanged(s.net, t.net)
            && (t.srv.pc.Snapped? ==> t.srv.pc == s.srv.pc || t.srv.tempAt == |s.srv.log|)
            && (t.srv.pc == s.srv.pc ==> t.srv.tempAt == s.srv.tempAt)
  {
  }

  lemma ServerOwn(c: Config, s: State, a: Action)
    requires ServerOk(c, s.srv, s.net) && ServerEnabled(s, a) && !a.SendShort? && !a.Send?
    ensures ServerOk(c, ServerNext(s, a).srv, ServerNext(s, a).net)
  {
  }

  lemma ServerStays(c: Config, s: State, a: Action)
    requires ServerOk(c, s.srv, s.net) && ViewOk(s.srv, s.gui) && ServerEnabled(s, a) && !a.SendShort? && !a.Send?
    requires ClientOk(c.n, s.srv, s.gui, s.wrk, LinkedNow(s), s.net)
    ensures var t := ServerNext(s, a);
            && ServerOk(c, t.srv, t.net) && ViewOk(t.srv, t.gui)
            && ClientOk(c.n, t.srv, t.gui, t.wrk, LinkedNow(t), t.net)
  {
    var t := ServerNext(s, a);
    ServerShape(c, s, a);
    ServerOwn(c, s, a);
    hide ServerNext, ServerEnabled, ServerOk, WorkerOk;
    ClientFlags(c.n, s.srv, s.gui, s.wrk, LinkedNow(s), s.net, t.net);
    hide FlagsChanged;
    assert LinkedNow(t) == LinkedNow(s);
  }

  // ---- Client steps --------------------------------------------------------

  lemma ReceiveConn(n: nat, v: Server, i: nat, d: Conn, k: nat)
    requires ConnOk(n, v, i, d) && k <= |d.pipe|
    ensures ConnOk(n, v, i, d.(pipe := d.pipe[k..], got := d.got + k))
  {
  }

  lemma ReceiveWorker(n: nat, w: WorkerState, d: Conn, k: nat)
    requires WorkerOk(n, w, d) && w.pc == Reading && d.pipe == d.wire[d.got..]
    requires 1 <= k <= |d.pipe| && w.nread + k <= n
    ensures WorkerOk(n, WorkerState(ReadHead, Stored(w.tmpbuf, w.nread, d.pipe[..k]), w.nread + k, w.ok),
                     d.(pipe := d.pipe[k..], got := d.got + k))
  {
    var b := Stored(w.tmpbuf, w.nread, d.pipe[..k]);
    assert b[..w.nread + k] == w.tmpbuf[..w.nread] + d.pipe[..k];
    assert d.wire[d.got - w.nread..d.got + k] == d.wire[d.got - w.nread..d.got] + d.pipe[..k];
  }

  lemma Newest(s: State)
    requires Shutdown.Ok(s) && Shutdown.Marked(s.wrk.pc)
    ensures HasConn(s) && HereAt(s) == |s.net| - 1 && s.dtor != Gone && LinkedNow(s)
  {
  }

  lemma ServerSet(c: Config, v: Server, net: seq<Conn>, i: nat, d: Conn)
    requires ServerOk(c, v, net) && i < |net| && d.accepted == net[i].accepted
    ensures ServerOk(c, v, net[i := d])
  {
    hide PackedOk;
  }

  lemma ClientSet(n: nat, v: Server, g: View, w: WorkerState, x: WorkerState, net: seq<Conn>, d: Conn)
    requires net != [] && ClientOk(n, v, g, w, true, net) && WorkerOk(n, x, d)
    requires d.sent == net[|net| - 1].sent && d.pubs == net[|net| - 1].pubs
    ensures ClientOk(n, v, g, x, true, net[|net| - 1 := d])
  {
  }

  lemma DataShape(c: Config, s: State, k: nat)
    requires s.wrk.pc == Reading && ReadEnabled(c, s, ReadData(k)) && LinkedNow(s)
    ensures var d, t := Here(s), ReadNext(c, s, ReadData(k));
            && t.srv == s.srv && t.gui == s.gui && LinkedNow(t)
            && t.net == s.net[HereAt(s) := d.(pipe := d.pipe[k..], got := d.got + k)]
            && t.wrk == WorkerState(ReadHead, Stored(s.wrk.tmpbuf, s.wrk.nread, d.pipe[..k]), s.wrk.nread + k, s.wrk.ok)
  {
  }

  lemma DataKeeps(c: Config, s: State, k: nat)
    requires Ok(c, s) && s.wrk.pc == Reading && ReadEnabled(c, s, ReadData(k))
    requires HereAt(s) == |s.net| - 1 && LinkedNow(s)
    ensures Ok(c, ReadNext(c, s, ReadData(k)))
  {
    hide ServerOk, NetOk, ConnOk, WorkerOk, AheadOk, PackedOk, ViewOk, ClientOk, ReadNext, LinkedNow;
    var i, d, t := HereAt(s), Here(s), ReadNext(c, s, ReadData(k));
    DataShape(c, s, k);
    Parts(c, s);
    Piped(c.n, s.srv, i, d);
    ReceiveConn(c.n, s.srv, i, d, k);
    ReceiveWorker(c.n, s.wrk, d, k);
    NetSet(c.n, s.srv, s.net, i, t.net[i]);
    ServerSet(c, s.srv, s.net, i, t.net[i]);
    ClientSet(c.n, s.srv, s.gui, s.wrk, t.wrk, s.net, t.net[i]);
  }

  lemma Piped(n: nat, v: Server, i: nat, d: Conn)
    requires ConnOk(n, v, i, d)
    ensures d.got <= |d.wire| && d.pipe == d.wire[d.got..]
  {
  }

  lemma Parts(c: Config, s: State)
    requires Ok(c, s) && s.net != [] && LinkedNow(s)
    ensures var i := |s.net| - 1;
            ConnOk(c.n, s.srv, i, s.net[i]) && WorkerOk(c.n, s.wrk, s.net[i]) && AheadOk(s.srv, s.gui, i, s.net[i])
    ensures |s.srv.frames| == |s.srv.log| + 1
  {
  }

  lemma {:induction false} TotalAtMost(n: nat, sent: seq<Sending>)
    requires Proper(n, sent)
    ensures Total(sent) <= n * |sent|
  {
    if sent != [] {
      TotalAtMost(n, sent[..|sent| - 1]);
      assert n * |sent| == n * (|sent| - 1) + n;
    }
  }

  /** A full temporary buffer is the next block of the connection, and begins in a
      send no older than what was published before. */
  lemma FullBlock(n: nat, v: Server, g: View, w: WorkerState, i: nat, d: Conn)
    requires n > 0 && ConnOk(n, v, i, d) && AheadOk(v, g, i, d) && WorkerOk(n, w, d) && w.pc == Publishing
    ensures d.pubs < |d.sent| && g.source <= d.sent[d.pubs].at <= |v.log|
    ensures AheadOk(v, g.(m_buffer := w.tmpbuf, blank := false, source := d.sent[d.pubs].at), i,
                    d.(pubs := d.pubs + 1))
    ensures d.got == n * (d.pubs + 1) && n * d.pubs + n <= |d.wire|
    ensures w.tmpbuf == d.wire[n * d.pubs..n * d.pubs + n]
  {
    FullWindow(n, w, d);
    InSends(n, v, i, d);
    hide WorkerOk, Labelled, Proper;
    assert forall j :: d.pubs <= j < |d.sent| ==> d.sent[d.pubs].at <= d.sent[j].at;
  }

  lemma FullWindow(n: nat, w: WorkerState, d: Conn)
    requires WorkerOk(n, w, d) && w.pc == Publishing
    ensures d.got == n * (d.pubs + 1) == n * d.pubs + n <= |d.wire|
    ensures 0 <= n * d.pubs && w.tmpbuf == d.wire[n * d.pubs..n * d.pubs + n]
  {
    OneMore(n, d.pubs);
    assert w.tmpbuf == w.tmpbuf[..n];
  }

  lemma InSends(n: nat, v: Server, i: nat, d: Conn)
    requires n > 0 && ConnOk(n, v, i, d) && n * (d.pubs + 1) <= d.got
    ensures d.pubs < |d.sent|
  {
    TagCount(d.sent);
    TotalAtMost(n, d.sent);
    if |d.sent| <= d.pubs {
      AtMost(n, |d.sent|, d.pubs);
      OneMore(n, d.pubs);
      assert false;
    }
  }

  /** A block before the first short send is the past buffer of its send. */
  lemma WholeBlock(n: nat, v: Server, d: Conn, b: nat)
    requires n > 0 && Labelled(v.frames, d.sent, d.wire) && b < Whole(n, d.sent)
    requires UpTo(d.sent, |v.log|) && |v.log| < |v.frames| && forall k :: 0 <= k <= |v.log| ==> |v.frames[k]| == n
    ensures 0 <= n * b && n * b + n <= |d.wire| && d.sent[b].at < |v.frames|
    ensures d.wire[n * b..n * b + n] == v.frames[d.sent[b].at]
  {
    RowBefore(n, d.sent, b);
    var block := d.wire[n * b..n * b + n];
    forall o | 0 <= o < n ensures block[o] == v.frames[d.sent[b].at][o] {
      assert Tags(d.sent)[n * b..n * b + n][o] == Tag(b, o);
      assert ByteOk(v.frames, d.sent, Tags(d.sent)[n * b + o], d.wire[n * b + o]);
    }
  }

  lemma PublishConn(n: nat, v: Server, i: nat, d: Conn)
    requires ConnOk(n, v, i, d) && n * (d.pubs + 1) <= d.got
    ensures ConnOk(n, v, i, d.(pubs := d.pubs + 1))
  {
  }

  lemma PublishView(v: Server, g: View, b: seq<Byte>, k: nat)
    requires ViewOk(v, g) && g.source <= k <= |v.log|
    ensures ViewOk(v, g.(m_buffer := b, blank := false, source := k))
  {
  }

  lemma PublishShape(s: State)
    requires HasConn(s) && s.flags.m_status && LinkedNow(s) && Here(s).pubs < |Here(s).sent|
    ensures var d, t := Here(s), Publish(s);
            && t.srv == s.srv && LinkedNow(t) && t.wrk == s.wrk.(pc := Head)
            && t.net == s.net[HereAt(s) := d.(pubs := d.pubs + 1)]
            && t.gui == s.gui.(m_buffer := s.wrk.tmpbuf, blank := false, source := d.sent[d.pubs].at)
  {
  }

  lemma PublishWorker(n: nat, w: WorkerState, d: Conn)
    requires WorkerOk(n, w, d) && w.pc == Publishing && d.got == n * (d.pubs + 1)
    ensures WorkerOk(n, w.(pc := Head), d.(pubs := d.pubs + 1))
  {
  }

  lemma PublishKeeps(c: Config, s: State)
    requires ValidConfig(c) && Ok(c, s) && s.wrk.pc == Publishing && s.flags.m_status
    requires HasConn(s) && HereAt(s) == |s.net| - 1 && LinkedNow(s)
    ensures Ok(c, Publish(s))
  {
    hide LinkedNow, Publish, ServerOk, NetOk, ConnOk, WorkerOk, AheadOk, PackedOk, ViewOk;
    var i, d, t := HereAt(s), Here(s), Publish(s);
    Parts(c, s);
    FullBlock(c.n, s.srv, s.gui, s.wrk, i, d);
    PublishShape(s);
    PublishWorker(c.n, s.wrk, d);
    PublishView(s.srv, s.gui, s.wrk.tmpbuf, d.sent[d.pubs].at);
    PublishConn(c.n, s.srv, i, d);
    NetSet(c.n, s.srv, s.net, i, t.net[i]);
    ServerSet(c, s.srv, s.net, i, t.net[i]);
    hide HasConn, HereAt, Here;
    PublishClient(c.n, s.srv, s.gui, t.gui, t.wrk, s.net, t.net[i]);
  }

  lemma PublishClient(n: nat, v: Server, g: View, h: View, w: WorkerState, net: seq<Conn>, d: Conn)
    requires net != [] && AheadOk(v, h, |net| - 1, d) && WorkerOk(n, w, d)
    ensures ClientOk(n, v, h, w, true, net[|net| - 1 := d])
  {
  }

  lemma FreshConn(c: Config, s: State, d: Conn)
    requires NetOk(c.n, s.srv, s.net) && ServerOk(c, s.srv, s.net)
    requires d == Conn([], false, false, false, [], [], 0, 0)
    ensures NetOk(c.n, s.srv, s.net + [d]) && ServerOk(c, s.srv, s.net + [d])
    ensures AheadOk(s.srv, s.gui, |s.net|, d)
  {
    forall i | 0 <= i < |s.net + [d]| ensures ConnOk(c.n, s.srv, i, (s.net + [d])[i]) {
      if i < |s.net| { assert ConnOk(c.n, s.srv, i, s.net[i]); }
    }
  }

  lemma ConnectShape(s: State, ok: bool)
    requires s.wrk.pc == NeedConnect
    ensures var t := ConnectNext(s, ok);
            && t.srv == s.srv && t.gui == s.gui && t.wrk == s.wrk.(pc := t.wrk.pc)
            && ((t.net == s.net && !LinkedNow(t)) ||
                (t.net == s.net + [Conn([], false, false, false, [], [], 0, 0)] && t.wrk.pc == MarkUp))
  {
  }

  lemma ConnectClient(n: nat, v: Server, g: View, w: WorkerState, linked: bool, net: seq<Conn>, d: Conn, l: bool)
    requires ClientOk(n, v, g, w, linked, net) && AheadOk(v, g, |net|, d)
    requires d == Conn([], false, false, false, [], [], 0, 0)
    ensures ClientOk(n, v, g, w.(pc := MarkUp), l, net + [d])
    ensures forall p: WorkerPc {:trigger w.(pc := p)} :: ClientOk(n, v, g, w.(pc := p), false, net)
  {
  }

  lemma ConnectKeeps(c: Config, s: State, ok: bool)
    requires Ok(c, s) && s.wrk.pc == NeedConnect
    ensures Ok(c, ConnectNext(s, ok))
  {
    hide ServerOk, NetOk, ViewOk, AheadOk, ClientOk, LinkedNow, ConnectNext;
    var t := ConnectNext(s, ok);
    var d := Conn([], false, false, false, [], [], 0, 0);
    ConnectShape(s, ok);
    FreshConn(c, s, d);
    ConnectClient(c.n, s.srv, s.gui, s.wrk, LinkedNow(s), s.net, d, LinkedNow(t));
    assert t.wrk == s.wrk.(pc := t.wrk.pc);
  }

  lemma ShutKeeps(c: Config, v: Server, d: Descriptors, net: seq<Conn>, fd: int)
    requires NetOk(c.n, v, net) && ServerOk(c, v, net)
    ensures var r := ShutFd(d, net, fd); FlagsChanged(net, r) && NetOk(c.n, v, r) && ServerOk(c, v, r)
  {
    NetFlags(c.n, v, net, ShutFd(d, net, fd));
  }

  lemma WorkerKeeps(c: Config, s: State, e: Env)
    requires ValidConfig(c) && Ok(c, s) && Shutdown.Ok(s) && WorkerEnabled(c, s, e)
    ensures Ok(c, WorkerNext(c, s, e))
  {
    if s.wrk.pc == Reading && e.ReadData? {
      Newest(s);
      DataKeeps(c, s, e.k);
    } else if s.wrk.pc == Publishing {
      Newest(s);
      PublishKeeps(c, s);
    } else if s.wrk.pc == NeedConnect {
      ConnectKeeps(c, s, e.ok);
    } else {
      LocalLinked(c, s, e);
      LocalKeeps(c, s, e);
    }
  }

  /** Steps that leave the published data and the bytes in flight alone. */
  predicate Local(p: WorkerPc, e: Env) {
    p != Publishing && p != NeedConnect && !(p == Reading && e.ReadData?)
  }

  lemma LocalLinked(c: Config, s: State, e: Env)
    requires Shutdown.Ok(s) && WorkerEnabled(c, s, e) && Local(s.wrk.pc, e)
    ensures LinkedNow(WorkerNext(c, s, e)) ==> LinkedNow(s)
  {
  }

  lemma LocalKeeps(c: Config, s: State, e: Env)
    requires Ok(c, s) && WorkerEnabled(c, s, e) && Local(s.wrk.pc, e)
    requires LinkedNow(WorkerNext(c, s, e)) ==> LinkedNow(s)
    ensures Ok(c, WorkerNext(c, s, e))
  {
    hide ServerOk, NetOk, WorkerOk, AheadOk, ViewOk;
    var t := WorkerNext(c, s, e);
    LocalState(c, s, e);
    if s.net != [] && LinkedNow(s) {
      LocalWorker(c, s, e, s.net[|s.net| - 1]);
    }
    assert ClientOk(c.n, s.srv, s.gui, t.wrk, LinkedNow(t), s.net);
    hide ClientOk;
    if s.wrk.pc == ShutDown {
      ShutKeeps(c, s.srv, s.fds, s.net, s.flags.m_sockfd);
      ClientFlags(c.n, s.srv, s.gui, t.wrk, LinkedNow(t), s.net, t.net);
    }
  }

  lemma LocalState(c: Config, s: State, e: Env)
    requires WorkerEnabled(c, s, e) && Local(s.wrk.pc, e)
    ensures var t := WorkerNext(c, s, e);
            && t.srv == s.srv && t.gui == s.gui && t.wrk.tmpbuf == s.wrk.tmpbuf
            && t.net == if s.wrk.pc == ShutDown then ShutFd(s.fds, s.net, s.flags.m_sockfd) else s.net
  {
  }

  lemma LocalWorker(c: Config, s: State, e: Env, d: Conn)
    requires WorkerOk(c.n, s.wrk, d) && WorkerEnabled(c, s, e) && Local(s.wrk.pc, e)
    requires Shutdown.Linked(s.wrk.pc, s.flags)
    ensures WorkerOk(c.n, WorkerNext(c, s, e).wrk, d)
  {
    hide WorkerAt, WorkerNext;
    LocalAt(c, s, e, d, c.n * d.pubs);
  }

  lemma LocalAt(c: Config, s: State, e: Env, d: Conn, done: int)
    requires WorkerAt(c.n, s.wrk, d, done) && WorkerEnabled(c, s, e) && Local(s.wrk.pc, e)
    requires Shutdown.Linked(s.wrk.pc, s.flags)
    ensures WorkerAt(c.n, WorkerNext(c, s, e).wrk, d, done)
  {
    LocalShape(c, s, e);
    hide WorkerNext, WorkerEnabled, Shutdown.Linked;
    assert d.wire[d.got..d.got] == [];
  }

  predicate InFrame(p: WorkerPc) {
    p == ReadHead || p == Reading || p == Decide || p == Publishing
  }

  lemma LocalShape(c: Config, s: State, e: Env)
    requires WorkerEnabled(c, s, e) && Local(s.wrk.pc, e) && Shutdown.Linked(s.wrk.pc, s.flags)
    ensures var p, w := s.wrk.pc, WorkerNext(c, s, e).wrk;
            && w.tmpbuf == s.wrk.tmpbuf && w.pc != MarkUp && w.pc != Head && (w.pc == Check ==> p == Head)
            && (InFrame(w.pc) ==>
                  if p == MarkUp || p == Check then w.nread == 0 else InFrame(p) && w.nread == s.wrk.nread)
            && (w.pc == Publishing ==> w.nread == c.n)
  {
  }

  lemma DtorKeeps(c: Config, s: State)
    requires Ok(c, s) && Enabled(c, s, Dtor)
    ensures Ok(c, DtorNext(s))
  {
    var t := DtorNext(s);
    assert t.srv == s.srv && t.gui == s.gui && t.wrk == s.wrk;
    if s.dtor.Shutting? {
      ShutKeeps(c, s.srv, s.fds, s.net, s.dtor.fd);
      ClientFlags(c.n, s.srv, s.gui, s.wrk, LinkedNow(s), s.net, t.net);
    } else {
      assert t.net == s.net;
    }
    assert LinkedNow(t) ==> LinkedNow(s);
    hide ServerOk, NetOk, WorkerOk, AheadOk, ViewOk;
  }

  lemma GuiKeeps(c: Config, s: State)
    requires Ok(c, s)
    ensures Ok(c, s.(gui := GuiNext(c, s)))
  {
    hide ServerOk, NetOk, WorkerOk;
  }

  lemma StepKeeps(c: Config, s: State, a: Action)
    requires ValidConfig(c) && Ok(c, s) && Shutdown.Ok(s) && Enabled(c, s, a)
    ensures Ok(c, Next(c, s, a))
  {
    hide Ok;
    match a
    case Insert(i, v) => InsertKeeps(c, s, i, v);
    case Worker(e) => WorkerKeeps(c, s, e);
    case Dtor => DtorKeeps(c, s);
    case Gui => GuiKeeps(c, s);
    case Send => WholeTemp(c, s); SendKeeps(c, s, |s.srv.temp_buf|);
    case SendShort(k) => SendKeeps(c, s, k);
    case _ => ServerKeeps(c, s, a);
  }

  lemma WholeTemp(c: Config, s: State)
    requires ValidConfig(c) && Ok(c, s) && s.srv.pc.Snapped?
    ensures 1 <= |s.srv.temp_buf| == c.n
  {
  }

  lemma Initially(c: Config)
    requires ValidConfig(c)
    ensures Ok(c, Init(c)) && Shown(c, Init(c))
  {
    AllZero(Zeros(c.n));
  }

  lemma {:induction false} Always(c: Config, acts: seq<Action>)
    requires ValidConfig(c) && After(c, acts).Some?
    ensures Ok(c, After(c, acts).value)
  {
    if acts == [] {
      Initially(c);
    } else {
      Always(c, acts[..|acts| - 1]);
      Shutdown.Always(c, acts[..|acts| - 1]);
      StepKeeps(c, After(c, acts[..|acts| - 1]).value, acts[|acts| - 1]);
    }
  }

  // ---- Unmixed runs --------------------------------------------------------

  /** A connection only ever gains sends and published blocks. */
  ghost predicate Grows(d: Conn, e: Conn) {
    d.pubs <= e.pubs && (e.sent == d.sent || (e.sent != [] && e.sent[..|e.sent| - 1] == d.sent))
  }

  ghost predicate NetGrew(a: seq<Conn>, b: seq<Conn>) {
    |a| <= |b| && forall i :: 0 <= i < |a| ==> Grows(a[i], b[i])
  }

  lemma WorkerGrows(c: Config, s: State, e: Env)
    requires WorkerEnabled(c, s, e)
    ensures NetGrew(s.net, WorkerNext(c, s, e).net)
  {
  }

  lemma StepGrows(c: Config, s: State, a: Action)
    requires Enabled(c, s, a)
    ensures NetGrew(s.net, Next(c, s, a).net)
  {
    if a.Worker? { WorkerGrows(c, s, a.env); }
  }

  lemma Published(n: nat, v: Server, i: nat, d: Conn)
    requires n > 0 && ConnOk(n, v, i, d) && FewFollow(n, d.sent)
    ensures d.pubs <= Whole(n, d.sent)
  {
    TagCount(d.sent);
    Reach(n, d.sent, d.pubs);
  }

  /** What was published so far was not mixed if nothing published later is. */
  lemma ConnBack(n: nat, v: Server, i: nat, d: Conn, e: Conn)
    requires n > 0 && ConnOk(n, v, i, d) && Grows(d, e) && e.pubs <= Whole(n, e.sent)
    ensures d.pubs <= Whole(n, d.sent)
  {
    var m := Whole(n, d.sent);
    if e.sent != d.sent {
      var x := e.sent[|e.sent| - 1];
      assert e.sent == d.sent + [x];
      WholeGrows(n, d.sent, x);
    }
    if m == |d.sent| { Published(n, v, i, d); }
  }

  lemma UnmixedBack(c: Config, s: State, net: seq<Conn>)
    requires ValidConfig(c) && Ok(c, s) && NetGrew(s.net, net) && Unmixed(c.n, net)
    ensures Unmixed(c.n, s.net)
  {
    forall i | 0 <= i < |s.net| ensures s.net[i].pubs <= Whole(c.n, s.net[i].sent) {
      assert Grows(s.net[i], net[i]) && ConnOk(c.n, s.srv, i, s.net[i]);
      ConnBack(c.n, s.srv, i, s.net[i], net[i]);
    }
  }

  lemma ReadGrows(c: Config, log: seq<Write>, x: Write, g: View)
    requires Read(c, log, g)
    ensures Read(c, log + [x], g)
  {
    forall j | 0 <= j < |g.obs| ensures Explained(c, log + [x], g.obs[j], g.froms[j]) {
      assert Explained(c, log, g.obs[j], g.froms[j]);
      LogPrefix(log, x, g.froms[j]);
    }
  }

  lemma InsertShows(c: Config, s: State, i: nat, val: int)
    requires Shown(c, s) && PackedOk(c, s.srv) && i < |c.signals| && s.gui.source <= |s.srv.log|
    ensures Shown(c, s.(srv := InsertNext(c, s.srv, i, val)))
  {
    ReadGrows(c, s.srv.log, Write(c.signals[i].info, val), s.gui);
  }

  lemma ZeroReads(t: CType, n: nat, f: Info)
    requires Fits(n, f) && f.length <= Width(t)
    ensures ReadValue(t, Zeros(n), f.start, f.length) == 0
  {
    AllZero(Zeros(n));
    ReadDecodes(t, Zeros(n), f);
    ShrZero(f.start);
    WrapSmall(f.length, 0);
  }

  /** What one getter returns. */
  lemma GetExplained(c: Config, v: Server, g: View, i: nat)
    requires ValidConfig(c) && PackedOk(c, v) && g.source <= |v.log| && Shows(c.n, v, g) && i < |c.signals|
    ensures c.signals[i].info.start / 8 <= |g.m_buffer|
    ensures var x := c.signals[i];
            Explained(c, v.log, Obs(i, ReadValue(x.ctype, g.m_buffer, x.info.start, x.info.length), |v.log|, g.blank),
                      g.source)
  {
    var x := c.signals[i];
    assert x.info in Infos(c);
    if g.blank {
      ZeroReads(x.ctype, c.n, x.info);
    } else {
      ReadDecodes(x.ctype, g.m_buffer, x.info);
      LastWriteWins(0, v.log[..g.source], x.info, Infos(c));
    }
  }

  lemma GuiShows(c: Config, s: State)
    requires ValidConfig(c) && PackedOk(c, s.srv) && s.gui.source <= |s.srv.log| && Shown(c, s)
    ensures Shown(c, s.(gui := GuiNext(c, s)))
  {
    var i := if s.gui.pc.Getting? then s.gui.pc.i else 0;
    if i < |c.signals| { GetExplained(c, s.srv, s.gui, i); }
    hide PackedOk, Explained;
  }

  lemma PublishShows(c: Config, s: State)
    requires ValidConfig(c) && Ok(c, s) && Shown(c, s) && s.wrk.pc == Publishing && s.flags.m_status
    requires HasConn(s) && HereAt(s) == |s.net| - 1 && LinkedNow(s)
    requires Here(s).pubs < Whole(c.n, Here(s).sent)
    ensures Shown(c, Publish(s))
  {
    hide LinkedNow, WorkerOk, AheadOk, ConnOk, NetOk, ServerOk, ClientOk, Explained;
    var i, d := HereAt(s), Here(s);
    Parts(c, s);
    FullBlock(c.n, s.srv, s.gui, s.wrk, i, d);
    WholeConn(c, s, i, d.pubs);
  }

  lemma WholeConn(c: Config, s: State, i: nat, b: nat)
    requires ValidConfig(c) && Ok(c, s) && i < |s.net| && b < Whole(c.n, s.net[i].sent)
    ensures 0 <= c.n * b && c.n * b + c.n <= |s.net[i].wire| && s.net[i].sent[b].at < |s.srv.frames|
    ensures s.net[i].wire[c.n * b..c.n * b + c.n] == s.srv.frames[s.net[i].sent[b].at]
  {
    hide ClientOk, LinkedNow, PackedOk, ConnOk, Labelled, UpTo, Whole;
    assert ConnOk(c.n, s.srv, i, s.net[i]);
    Labels(c.n, s.srv, i, s.net[i]);
    Sizes(c, s.srv);
    WholeBlock(c.n, s.srv, s.net[i], b);
  }

  lemma Labels(n: nat, v: Server, i: nat, d: Conn)
    requires ConnOk(n, v, i, d)
    ensures Labelled(v.frames, d.sent, d.wire) && UpTo(d.sent, |v.log|)
  {
  }

  lemma Sizes(c: Config, v: Server)
    requires PackedOk(c, v)
    ensures |v.log| < |v.frames| && forall k :: 0 <= k <= |v.log| ==> |v.frames[k]| == c.n
  {
  }

  lemma PublishUnmixed(n: nat, s: State)
    requires HasConn(s) && Unmixed(n, Publish(s).net)
    ensures Here(s).pubs < Whole(n, Here(s).sent)
  {
    assert Publish(s).net[HereAt(s)].pubs <= Whole(n, Publish(s).net[HereAt(s)].sent);
  }

  lemma WorkerShows(c: Config, s: State, e: Env)
    requires ValidConfig(c) && Ok(c, s) && Shutdown.Ok(s) && Shown(c, s) && WorkerEnabled(c, s, e)
    requires Unmixed(c.n, WorkerNext(c, s, e).net)
    ensures Shown(c, WorkerNext(c, s, e))
  {
    if s.wrk.pc == Publishing {
      Newest(s);
      PublishUnmixed(c.n, s);
      PublishShows(c, s);
    } else {
      SameView(c, s, e);
    }
  }

  lemma SameView(c: Config, s: State, e: Env)
    requires WorkerEnabled(c, s, e) && s.wrk.pc != Publishing
    ensures WorkerNext(c, s, e).srv == s.srv && WorkerNext(c, s, e).gui == s.gui
  {
  }

  lemma ServerShows(c: Config, s: State, a: Action)
    requires Shown(c, s) && ServerEnabled(s, a)
    ensures Shown(c, ServerNext(s, a))
  {
    hide Explained;
  }

  lemma StepShows(c: Config, s: State, a: Action)
    requires ValidConfig(c) && Ok(c, s) && Shutdown.Ok(s) && Shown(c, s) && Enabled(c, s, a)
    requires Unmixed(c.n, Next(c, s, a).net)
    ensures Shown(c, Next(c, s, a))
  {
    match a
    case Insert(i, v) => InsertShows(c, s, i, v);
    case Worker(e) => WorkerShows(c, s, e);
    case Dtor =>
    case Gui => GuiShows(c, s);
    case _ => ServerShows(c, s, a);
  }

  lemma {:induction false} UnmixedAlways(c: Config, acts: seq<Action>)
    requires ValidConfig(c) && After(c, acts).Some? && Unmixed(c.n, After(c, acts).value.net)
    ensures Shown(c, After(c, acts).value)
  {
    hide Shown, Ok, Unmixed;
    if acts == [] {
      Initially(c);
    } else {
      var before, a := acts[..|acts| - 1], acts[|acts| - 1];
      var s := After(c, before).value;
      Always(c, before);
      Shutdown.Always(c, before);
      StepGrows(c, s, a);
      UnmixedBack(c, s, Next(c, s, a).net);
      UnmixedAlways(c, before);
      StepShows(c, s, a);
    }
  }

  // ---- Main results --------------------------------------------------------

  /** End to end: in every run that publishes nothing mixed there are prefixes of
      the inserts, never going backwards from one getter call to the next, such
      that each result is explained by its prefix, and each prefix had been
      inserted when the getter ran. */
  lemma FreshValues(c: Config, acts: seq<Action>, s: State)
    requires ValidConfig(c) && After(c, acts) == Some(s) && Unmixed(c.n, s.net)
    ensures exists ks: seq<nat> ::
              && |ks| == |s.gui.obs| && Sorted(ks)
              && forall i :: 0 <= i < |ks| ==> Explained(c, s.srv.log, s.gui.obs[i], ks[i])
  {
    Always(c, acts);
    UnmixedAlways(c, acts);
    assert |s.gui.froms| == |s.gui.obs| && Sorted(s.gui.froms);
  }

  /** Nothing is mixed when on no connection enough bytes follow a short send to
      complete the block it began, in particular when the server stops sending. */
  lemma FewFollowSuffices(c: Config, acts: seq<Action>, s: State)
    requires ValidConfig(c) && After(c, acts) == Some(s)
    requires forall i :: 0 <= i < |s.net| ==> FewFollow(c.n, s.net[i].sent)
    ensures Unmixed(c.n, s.net)
  {
    Always(c, acts);
    forall i | 0 <= i < |s.net| ensures s.net[i].pubs <= Whole(c.n, s.net[i].sent) {
      assert ConnOk(c.n, s.srv, i, s.net[i]);
      Published(c.n, s.srv, i, s.net[i]);
    }
  }

  /** In every run each byte of a connection is the byte of a past buffer that its
      tag names, newer and newer; and every complete block of the connection is
      one of those buffers, sent by one call, if and only if few bytes follow its
      first short send. */
  lemma Framing(c: Config, acts: seq<Action>, s: State, i: nat)
    requires ValidConfig(c) && After(c, acts) == Some(s) && i < |s.net|
    ensures var d := s.net[i];
            && Proper(c.n, d.sent) && InOrder(d.sent) && UpTo(d.sent, |s.srv.log|)
            && Labelled(Past(c, s.srv.log), d.sent, d.wire) && d.got <= |d.wire|
            && ((forall b: nat :: c.n * b + c.n <= |d.wire| ==> OneSend(c.n, Tags(d.sent), b)) <==>
                FewFollow(c.n, d.sent))
  {
    Always(c, acts);
    var d := s.net[i];
    assert ConnOk(c.n, s.srv, i, d);
    FramingExact(c.n, d.sent);
    PastFrames(c, s.srv);
  }

  /** The blocks published here are those of `TcpClient.TCPService.Run`: the next one
      is the last complete block of what was received on the connection. */
  lemma SameBlocks(c: Config, acts: seq<Action>, s: State)
    requires ValidConfig(c) && After(c, acts) == Some(s) && s.wrk.pc == Publishing
    ensures HasConn(s) && Here(s).got <= |Here(s).wire|
    ensures var d := Here(s);
            var b := TcpClient.Blocks(d.wire[..d.got], c.n);
            |b| == d.pubs + 1 && b[d.pubs] == s.wrk.tmpbuf
  {
    Always(c, acts);
    Shutdown.Always(c, acts);
    Newest(s);
    Parts(c, s);
    hide Ok, After;
    var d := Here(s);
    FullWindow(c.n, s.wrk, d);
    hide WorkerOk, ConnOk, AheadOk;
    TcpClient.BlockCount(d.wire[..d.got], c.n, d.pubs + 1);
    TcpClient.BlockAt(d.wire[..d.got], c.n, d.pubs);
  }

  /** The server's buffer after each prefix of the inserts. */
  function Past(c: Config, log: seq<Write>): seq<seq<Byte>> {
    seq(|log| + 1, k requires 0 <= k <= |log| => ToBytes(Apply(0, log[..k]), c.n))
  }

  lemma PastFrames(c: Config, v: Server)
    requires PackedOk(c, v)
    ensures v.frames == Past(c, v.log)
  {
    forall k | 0 <= k <= |v.log| ensures v.frames[k] == Past(c, v.log)[k] {
      WordRoundTrip(v.frames[k]);
    }
  }

  /** The blocks a connection published are past buffers, each sent by one call, if
      and only if none of them reaches behind the first short send. */
  lemma PublishedExact(c: Config, acts: seq<Action>, s: State, i: nat)
    requires ValidConfig(c) && After(c, acts) == Some(s) && i < |s.net|
    ensures (forall b: nat :: b < s.net[i].pubs ==> OneSend(c.n, Tags(s.net[i].sent), b)) <==>
            s.net[i].pubs <= Whole(c.n, s.net[i].sent)
  {
    Always(c, acts);
    assert ConnOk(c.n, s.srv, i, s.net[i]);
    BlocksExact(c.n, s.net[i].sent, s.net[i].pubs);
  }

  /** The client's buffer is blank or a past buffer of the server. */
  lemma PublishedFrame(c: Config, acts: seq<Action>, s: State)
    requires ValidConfig(c) && After(c, acts) == Some(s) && Unmixed(c.n, s.net)
    ensures s.gui.source <= |s.srv.log|
    ensures s.gui.m_buffer ==
            if s.gui.blank then Zeros(c.n) else ToBytes(Apply(0, s.srv.log[..s.gui.source]), c.n)
  {
    Always(c, acts);
    UnmixedAlways(c, acts);
    PastFrames(c, s.srv);
  }
}
