/** The UART/BLE path byte by byte: desktop server, serial line, ESP32 server
    loop, BLE notifications, ESP32 client, serial line, desktop client
    (esp32/server/src/main.c:140-185, esp32/client/src/main.c:355-369,
    desktop/client/src/uartservice.cpp:30-70). */
module Relay {
  import opened Bits
  import opened Arithmetic
  import opened Wrappers

  // ---- A serial line -------------------------------------------------------

  /** A line carrying frames: the bytes still to be sent and those received and
      not yet taken. `frames` and `out` are history: everything written, and how
      many bytes have left the receive buffer. */
  datatype Line<T> = Line(frames: seq<seq<T>>, tx: seq<T>, rx: seq<T>, out: nat)

  function Write<T>(l: Line<T>, f: seq<T>): Line<T> {
    l.(frames := l.frames + [f], tx := l.tx + f)
  }

  function Arrive<T>(l: Line<T>, k: nat): Line<T>
    requires k <= |l.tx|
  {
    l.(rx := l.rx + l.tx[..k], tx := l.tx[k..])
  }

  function Drop<T>(l: Line<T>, k: nat): Line<T>
    requires k <= |l.rx|
  {
    l.(rx := l.rx[k..], out := l.out + k)
  }

  // ---- The system ----------------------------------------------------------

  /** A byte and where it was offered. No step looks at the place. */
  datatype Mark = Mark(frame: nat, off: nat, byte: Byte)

  /** `n` bytes read in one go, and how many had left that buffer before. */
  datatype Piece = Piece(bytes: seq<Mark>, start: nat)

  datatype EspPc = AtRead | AtFlush

  /** `offered` and `passed` are history: the frames the desktop server wrote and
      the notifications the ESP32 client wrote to its serial line. */
  datatype State = State(
    offered: seq<seq<Byte>>, a: Line<Mark>, subscribed: bool, pc: EspPc, air: seq<Piece>,
    passed: seq<Piece>, b: Line<Mark>, open: bool, published: seq<Piece>)

  datatype Action =
    | Offer(frame: seq<Byte>)      // the desktop server writes its buffer
    | ArriveA(k: nat)              // `k` bytes reach the ESP32 server's UART buffer
    | Subscribe(on: bool)
    | EspRead(sent: bool)          // read up to a frame; notify if it is whole
    | EspFlush
    | Lose(i: nat)                 // a notification is lost with its connection
    | Notify                       // the ESP32 client writes it to its UART
    | ArriveB(k: nat)              // `k` bytes reach the desktop client's buffer
    | Open                         // open the port and clear it
    | Read                         // bytes are ready: read up to a frame
    | Timeout                      // nothing came: close the port

  const BOOT := State([], Line([], [], [], 0), false, AtRead, [], [], Line([], [], [], 0), false, [])

  function Min(a: nat, b: nat): nat { if a < b then a else b }

  function Marked(k: nat, f: seq<Byte>): (m: seq<Mark>)
    ensures |m| == |f|
  {
    seq(|f|, i requires 0 <= i < |f| => Mark(k, i, f[i]))
  }

  function Bytes(m: seq<Mark>): (b: seq<Byte>)
    ensures |b| == |m| && forall i :: 0 <= i < |b| ==> b[i] == m[i].byte
  {
    seq(|m|, i requires 0 <= i < |m| => m[i].byte)
  }

  predicate Possible(n: nat, s: State, a: Action) {
    match a
    case Offer(f) => |f| == n
    case ArriveA(k) => 1 <= k <= |s.a.tx|
    case EspRead(_) => s.subscribed && s.pc == AtRead
    case EspFlush => s.pc == AtFlush || !s.subscribed
    case Lose(i) => i < |s.air|
    case Notify => s.air != []
    case ArriveB(k) => 1 <= k <= |s.b.tx|
    case Open => !s.open
    case Read => s.open && s.b.rx != []
    case Timeout => s.open
    case Subscribe(_) => true
  }

  function EspReads(n: nat, s: State, sent: bool): State {
    var len := Min(n, |s.a.rx|);
    s.(a := Drop(s.a, len), pc := AtFlush,
       air := if len == n && sent then s.air + [Piece(s.a.rx[..n], s.a.out)] else s.air)
  }

  function Forwards(n: nat, s: State): State
    requires s.air != []
  {
    var t := s.(air := s.air[1..]);
    if |s.air[0].bytes| == n then t.(passed := s.passed + [s.air[0]], b := Write(s.b, s.air[0].bytes)) else t
  }

  function Reads(n: nat, s: State): State {
    var len := Min(n, |s.b.rx|);
    var t := s.(b := Drop(s.b, len));
    if len == n then t.(published := s.published + [Piece(s.b.rx[..n], s.b.out)]) else t.(open := false)
  }

  function After(n: nat, s: State, a: Action): State
    requires Possible(n, s, a)
  {
    match a
    case Offer(f) => s.(offered := s.offered + [f], a := Write(s.a, Marked(|s.offered|, f)))
    case ArriveA(k) => s.(a := Arrive(s.a, k))
    case Subscribe(on) => s.(subscribed := on)
    case EspRead(sent) => EspReads(n, s, sent)
    case EspFlush => s.(a := Drop(s.a, |s.a.rx|), pc := AtRead)
    case Lose(i) => s.(air := s.air[..i] + s.air[i + 1..])
    case Notify => Forwards(n, s)
    case ArriveB(k) => s.(b := Arrive(s.b, k))
    case Open => s.(open := true, b := Drop(s.b, |s.b.rx|))
    case Read => Reads(n, s)
    case Timeout => s.(open := false)
  }

  function Run(n: nat, acts: seq<Action>): Option<State> {
    if acts == [] then Some(BOOT)
    else
      var before := Run(n, acts[..|acts| - 1]);
      var a := acts[|acts| - 1];
      if before.Some? && Possible(n, before.value, a) then Some(After(n, before.value, a)) else None
  }

  // ---- The bytes of a line -------------------------------------------------

  ghost function Flat<T>(frames: seq<seq<T>>): seq<T> {
    if frames == [] then [] else Flat(frames[..|frames| - 1]) + frames[|frames| - 1]
  }

  ghost predicate Sized<T>(n: nat, frames: seq<seq<T>>) {
    forall i :: 0 <= i < |frames| ==> |frames[i]| == n
  }

  ghost predicate LineOk<T>(n: nat, l: Line<T>) {
    && Sized(n, l.frames)
    && l.out <= |Flat(l.frames)| && Flat(l.frames)[l.out..] == l.rx + l.tx
  }

  lemma FlatSnoc<T>(frames: seq<seq<T>>, f: seq<T>)
    ensures Flat(frames + [f]) == Flat(frames) + f
  {
    assert (frames + [f])[..|frames|] == frames;
  }

  lemma {:induction false} FlatAt<T>(n: nat, frames: seq<seq<T>>, k: nat, r: nat)
    requires Sized(n, frames) && k < |frames| && r < n
    ensures |Flat(frames)| == n * |frames|
    ensures 0 <= n * k && n * k + r < |Flat(frames)| && Flat(frames)[n * k + r] == frames[k][r]
  {
    var last := |frames| - 1;
    FlatLength(n, frames[..last]);
    FlatLength(n, frames);
    if k < last {
      FlatAt(n, frames[..last], k, r);
    }
  }

  lemma {:induction false} FlatLength<T>(n: nat, frames: seq<seq<T>>)
    requires Sized(n, frames)
    ensures |Flat(frames)| == n * |frames|
  {
    if frames != [] {
      FlatLength(n, frames[..|frames| - 1]);
      assert n * |frames| == n * (|frames| - 1) + n;
    }
  }

  /** The frame and the offset in it of position `p`. */
  lemma Locate<T>(n: nat, frames: seq<seq<T>>, p: nat)
    requires n > 0 && Sized(n, frames) && p < |Flat(frames)|
    ensures p / n < |frames| && p % n < n && Flat(frames)[p] == frames[p / n][p % n]
  {
    FlatLength(n, frames);
    Coordinates(n, p);
    if p / n >= |frames| {
      AtMost(n, |frames|, p / n);
      assert false;
    }
    FlatAt(n, frames, p / n, p % n);
  }

  /** `n` bytes from the start of a frame are that frame. */
  lemma AlignedFrame<T>(n: nat, frames: seq<seq<T>>, p: nat)
    requires n > 0 && Sized(n, frames) && p + n <= |Flat(frames)| && p % n == 0
    ensures p / n < |frames| && Flat(frames)[p..p + n] == frames[p / n]
  {
    Locate(n, frames, p);
    Coordinates(n, p);
    forall x | 0 <= x < n ensures Flat(frames)[p + x] == frames[p / n][x] {
      FlatAt(n, frames, p / n, x);
    }
  }

  // ---- Pieces of a line ----------------------------------------------------

  /** Pieces are stretches of the line, one behind the other, already taken. */
  ghost predicate Cuts(n: nat, flat: seq<Mark>, pieces: seq<Piece>, out: nat) {
    && out <= |flat|
    && (forall i :: 0 <= i < |pieces| ==>
          pieces[i].start + n <= out && pieces[i].bytes == flat[pieces[i].start..pieces[i].start + n])
    && forall i, j :: 0 <= i < j < |pieces| ==> pieces[i].start + n <= pieces[j].start
  }

  lemma CutsGrow(n: nat, flat: seq<Mark>, more: seq<Mark>, pieces: seq<Piece>, out: nat)
    requires Cuts(n, flat, pieces, out)
    ensures Cuts(n, flat + more, pieces, out)
  {
  }

  lemma CutsTake(n: nat, l: Line<Mark>, pieces: seq<Piece>)
    requires LineOk(n, l) && Cuts(n, Flat(l.frames), pieces, l.out) && n <= |l.rx|
    ensures Cuts(n, Flat(l.frames), pieces + [Piece(l.rx[..n], l.out)], l.out + n)
  {
    var flat := Flat(l.frames);
    assert l.rx[..n] == flat[l.out..][..n] == flat[l.out..l.out + n];
  }

  lemma CutsLater(n: nat, l: Line<Mark>, pieces: seq<Piece>, k: nat)
    requires LineOk(n, l) && Cuts(n, Flat(l.frames), pieces, l.out) && k <= |l.rx|
    ensures Cuts(n, Flat(l.frames), pieces, l.out + k)
  {
    assert |l.rx| <= |Flat(l.frames)| - l.out;
  }

  lemma CutsRemove(n: nat, flat: seq<Mark>, pieces: seq<Piece>, i: nat, out: nat)
    requires Cuts(n, flat, pieces, out) && i < |pieces|
    ensures Cuts(n, flat, pieces[..i] + pieces[i + 1..], out)
  {
    var rest := pieces[..i] + pieces[i + 1..];
    forall j | 0 <= j < |rest| ensures rest[j] == pieces[if j < i then j else j + 1] {}
  }

  lemma WriteKeeps<T>(n: nat, l: Line<T>, f: seq<T>)
    requires LineOk(n, l) && |f| == n
    ensures LineOk(n, Write(l, f)) && Flat(Write(l, f).frames) == Flat(l.frames) + f
  {
    FlatSnoc(l.frames, f);
    assert (Flat(l.frames) + f)[l.out..] == Flat(l.frames)[l.out..] + f;
    assert l.rx + l.tx + f == l.rx + (l.tx + f);
  }

  lemma ArriveKeeps<T>(n: nat, l: Line<T>, k: nat)
    requires LineOk(n, l) && k <= |l.tx|
    ensures LineOk(n, Arrive(l, k))
  {
    assert (l.rx + l.tx[..k]) + l.tx[k..] == l.rx + l.tx;
  }

  lemma DropKeeps<T>(n: nat, l: Line<T>, k: nat)
    requires LineOk(n, l) && k <= |l.rx|
    ensures LineOk(n, Drop(l, k))
  {
    assert Flat(l.frames)[l.out + k..] == Flat(l.frames)[l.out..][k..] == l.rx[k..] + l.tx;
  }

  // ---- The invariant -------------------------------------------------------

  ghost predicate MarksOf(n: nat, offered: seq<seq<Byte>>, frames: seq<seq<Mark>>) {
    |frames| == |offered| && forall k :: 0 <= k < |frames| ==> |offered[k]| == n && frames[k] == Marked(k, offered[k])
  }

  ghost predicate BytesOf(n: nat, pieces: seq<Piece>, frames: seq<seq<Mark>>) {
    |frames| == |pieces| && forall k :: 0 <= k < |frames| ==> |frames[k]| == n && frames[k] == pieces[k].bytes
  }

  ghost predicate Ok(n: nat, s: State) {
    && LineOk(n, s.a) && LineOk(n, s.b)
    && MarksOf(n, s.offered, s.a.frames) && BytesOf(n, s.passed, s.b.frames)
    && Cuts(n, Flat(s.a.frames), s.passed + s.air, s.a.out)
    && Cuts(n, Flat(s.b.frames), s.published, s.b.out)
  }

  lemma OfferKeeps(n: nat, s: State, f: seq<Byte>)
    requires Ok(n, s) && |f| == n
    ensures Ok(n, After(n, s, Offer(f)))
  {
    hide LineOk, Cuts, Flat, MarksOf, BytesOf;
    var m := Marked(|s.offered|, f);
    WriteKeeps(n, s.a, m);
    MarksGrow(n, s.offered, s.a.frames, f);
    CutsGrow(n, Flat(s.a.frames), m, s.passed + s.air, s.a.out);
  }

  lemma MarksGrow(n: nat, offered: seq<seq<Byte>>, frames: seq<seq<Mark>>, f: seq<Byte>)
    requires MarksOf(n, offered, frames) && |f| == n
    ensures |frames| == |offered| && MarksOf(n, offered + [f], frames + [Marked(|offered|, f)])
  {
  }

  lemma BytesGrow(n: nat, pieces: seq<Piece>, frames: seq<seq<Mark>>, p: Piece)
    requires BytesOf(n, pieces, frames) && |p.bytes| == n
    ensures BytesOf(n, pieces + [p], frames + [p.bytes])
  {
  }

  lemma EspReadKeeps(n: nat, s: State, sent: bool)
    requires Ok(n, s)
    ensures Ok(n, EspReads(n, s, sent))
  {
    hide LineOk, Cuts, Flat, MarksOf, BytesOf;
    var len, all := Min(n, |s.a.rx|), s.passed + s.air;
    var p := Piece(s.a.rx[..len], s.a.out);
    DropKeeps(n, s.a, len);
    CutsLater(n, s.a, all, len);
    if len == n && sent {
      CutsTake(n, s.a, all);
      assert s.passed + (s.air + [p]) == all + [p];
    }
  }

  lemma EspFlushKeeps(n: nat, s: State)
    requires Ok(n, s) && Possible(n, s, EspFlush)
    ensures Ok(n, After(n, s, EspFlush))
  {
    hide LineOk, Cuts, Flat, MarksOf, BytesOf;
    DropKeeps(n, s.a, |s.a.rx|);
    CutsLater(n, s.a, s.passed + s.air, |s.a.rx|);
  }

  lemma LoseKeeps(n: nat, s: State, i: nat)
    requires Ok(n, s) && i < |s.air|
    ensures Ok(n, After(n, s, Lose(i)))
  {
    hide LineOk, Flat, MarksOf, BytesOf, Cuts;
    var all, j := s.passed + s.air, |s.passed| + i;
    CutsRemove(n, Flat(s.a.frames), all, j, s.a.out);
    assert all[..j] + all[j + 1..] == s.passed + (s.air[..i] + s.air[i + 1..]);
  }

  lemma InAir(n: nat, s: State)
    requires Ok(n, s) && s.air != []
    ensures |s.air[0].bytes| == n
  {
    assert (s.passed + s.air)[|s.passed|] == s.air[0];
  }

  lemma NotifyKeeps(n: nat, s: State)
    requires Ok(n, s) && s.air != []
    ensures Ok(n, Forwards(n, s))
  {
    hide LineOk, Cuts, Flat, MarksOf, BytesOf;
    InAir(n, s);
    var m := s.air[0].bytes;
    WriteKeeps(n, s.b, m);
    BytesGrow(n, s.passed, s.b.frames, s.air[0]);
    CutsGrow(n, Flat(s.b.frames), m, s.published, s.b.out);
    assert s.passed + [s.air[0]] + s.air[1..] == s.passed + s.air;
  }

  lemma ReadKeeps(n: nat, s: State)
    requires Ok(n, s)
    ensures Ok(n, Reads(n, s))
  {
    hide LineOk, Cuts, Flat, MarksOf, BytesOf;
    var len := Min(n, |s.b.rx|);
    DropKeeps(n, s.b, len);
    CutsLater(n, s.b, s.published, len);
    if len == n { CutsTake(n, s.b, s.published); }
  }

  lemma OpenKeeps(n: nat, s: State)
    requires Ok(n, s) && Possible(n, s, Open)
    ensures Ok(n, After(n, s, Open))
  {
    hide LineOk, Cuts, Flat, MarksOf, BytesOf;
    DropKeeps(n, s.b, |s.b.rx|);
    CutsLater(n, s.b, s.published, |s.b.rx|);
  }

  lemma StepKeeps(n: nat, s: State, a: Action)
    requires Ok(n, s) && Possible(n, s, a)
    ensures Ok(n, After(n, s, a))
  {
    hide LineOk, Cuts, Flat, MarksOf, BytesOf;
    match a
    case Offer(f) => OfferKeeps(n, s, f);
    case ArriveA(k) => ArriveKeeps(n, s.a, k);
    case ArriveB(k) => ArriveKeeps(n, s.b, k);
    case EspRead(sent) => EspReadKeeps(n, s, sent);
    case EspFlush => EspFlushKeeps(n, s);
    case Lose(i) => LoseKeeps(n, s, i);
    case Notify => NotifyKeeps(n, s);
    case Open => OpenKeeps(n, s);
    case Read => ReadKeeps(n, s);
    case _ =>
  }

  lemma {:induction false} Always(n: nat, acts: seq<Action>)
    requires Run(n, acts).Some?
    ensures Ok(n, Run(n, acts).value)
  {
    hide Ok, After;
    if acts == [] {
      Initially(n);
    } else {
      Always(n, acts[..|acts| - 1]);
      StepKeeps(n, Run(n, acts[..|acts| - 1]).value, acts[|acts| - 1]);
    }
  }

  lemma Initially(n: nat)
    ensures Ok(n, BOOT)
  {
  }

  // ---- When a piece is a whole frame ---------------------------------------

  /** A notification or stored block that is exactly one of the offered frames. */
  ghost predicate IsFrame(s: State, bytes: seq<Mark>) {
    exists k :: FrameAt(s, bytes, k)
  }

  ghost predicate FrameAt(s: State, bytes: seq<Mark>, k: int) {
    0 <= k < |s.offered| && bytes == Marked(k, s.offered[k])
  }

  /** A stored block that is exactly one of the notifications written to the line. */
  ghost predicate IsNotification(s: State, bytes: seq<Mark>) {
    exists k :: 0 <= k < |s.passed| && bytes == s.passed[k].bytes
  }

  /** The stream position of an offered byte. */
  function Place(n: nat, m: Mark): int {
    n * m.frame + m.off
  }

  lemma Places(n: nat, s: State, p: nat)
    requires n > 0 && Ok(n, s) && p < |Flat(s.a.frames)|
    ensures Place(n, Flat(s.a.frames)[p]) == p && Flat(s.a.frames)[p].off == p % n
  {
    Locate(n, s.a.frames, p);
    Coordinates(n, p);
    assert Flat(s.a.frames)[p] == Marked(p / n, s.offered[p / n])[p % n];
  }

  lemma FramePlaces(n: nat, s: State, bytes: seq<Mark>, k: int)
    requires Ok(n, s) && FrameAt(s, bytes, k)
    ensures |bytes| == n && forall x :: 0 <= x < n ==> Place(n, bytes[x]) == n * k + x && bytes[x].off == x
  {
  }

  /** A stretch of the first line is an offered frame exactly if it starts at one. */
  lemma StretchExact(n: nat, s: State, p: nat)
    requires n > 0 && Ok(n, s) && p + n <= |Flat(s.a.frames)|
    ensures IsFrame(s, Flat(s.a.frames)[p..p + n]) <==> p % n == 0
    ensures p % n == 0 ==> FrameAt(s, Flat(s.a.frames)[p..p + n], p / n)
  {
    var bytes := Flat(s.a.frames)[p..p + n];
    if p % n == 0 { AlignedMark(n, s, p); }
    hide Ok, Flat, LineOk, Cuts, MarksOf, BytesOf;
    if IsFrame(s, bytes) {
      var k :| FrameAt(s, bytes, k);
      FramePlaces(n, s, bytes, k);
      Places(n, s, p);
      assert bytes[0] == Flat(s.a.frames)[p];
    }
  }

  lemma AlignedMark(n: nat, s: State, p: nat)
    requires n > 0 && Ok(n, s) && p + n <= |Flat(s.a.frames)| && p % n == 0
    ensures FrameAt(s, Flat(s.a.frames)[p..p + n], p / n)
  {
    AlignedFrame(n, s.a.frames, p);
  }

  /** Any notification, forwarded or in the air. */
  ghost predicate Notified(s: State, p: Piece) {
    p in s.passed + s.air
  }

  lemma NotifiedPart(n: nat, s: State, p: Piece)
    requires Ok(n, s) && Notified(s, p)
    ensures p.start + n <= |Flat(s.a.frames)| && p.bytes == Flat(s.a.frames)[p.start..p.start + n]
  {
    var i :| 0 <= i < |s.passed + s.air| && (s.passed + s.air)[i] == p;
  }

  lemma PublishedPart(n: nat, s: State, i: nat)
    requires Ok(n, s) && i < |s.published|
    ensures var p := s.published[i];
            p.start + n <= |Flat(s.b.frames)| && p.bytes == Flat(s.b.frames)[p.start..p.start + n]
    ensures forall j :: i < j < |s.published| ==> s.published[i].start + n <= s.published[j].start
  {
  }

  /** First stage, in every run: a notification is one whole offered frame if and
      only if the bytes that had left the ESP32 server's buffer when it was read
      were a number of whole frames. */
  lemma NotificationExact(n: nat, acts: seq<Action>, s: State, p: Piece)
    requires n > 0 && Run(n, acts) == Some(s) && Notified(s, p)
    ensures IsFrame(s, p.bytes) <==> p.start % n == 0
  {
    hide Ok, Flat, LineOk, Cuts, MarksOf, BytesOf, Run;
    Always(n, acts);
    NotifiedPart(n, s, p);
    StretchExact(n, s, p.start);
  }

  /** The byte of the second line at a position, found on the first. */
  lemma Origin(n: nat, s: State, p: nat)
    requires n > 0 && Ok(n, s) && p < |Flat(s.b.frames)|
    ensures p / n < |s.passed| && p % n < n
    ensures var q := s.passed[p / n].start + p % n;
            q < |Flat(s.a.frames)| && Flat(s.b.frames)[p] == Flat(s.a.frames)[q]
  {
    LocatePassed(n, s, p);
    hide Ok, Flat, LineOk, Cuts, MarksOf, BytesOf;
    PassedPart(n, s, p / n);
  }

  lemma LocatePassed(n: nat, s: State, p: nat)
    requires n > 0 && Ok(n, s) && p < |Flat(s.b.frames)|
    ensures p / n < |s.passed| && p % n < n && |s.passed[p / n].bytes| == n
    ensures Flat(s.b.frames)[p] == s.passed[p / n].bytes[p % n]
  {
    Locate(n, s.b.frames, p);
  }

  lemma PassedPart(n: nat, s: State, k: nat)
    requires Ok(n, s) && k < |s.passed|
    ensures var p := s.passed[k];
            && p.start + n <= |Flat(s.a.frames)| && p.bytes == Flat(s.a.frames)[p.start..p.start + n]
            && k < |s.b.frames| && s.b.frames[k] == p.bytes
  {
    assert (s.passed + s.air)[k] == s.passed[k];
  }

  lemma Apart(n: nat, s: State, i: nat, j: nat)
    requires Ok(n, s) && i < j < |s.passed|
    ensures s.passed[i].start + n <= s.passed[j].start
  {
    assert (s.passed + s.air)[i] == s.passed[i] && (s.passed + s.air)[j] == s.passed[j];
  }

  /** Second stage, in every run: a stored block is one whole notification if and
      only if the bytes that had left the desktop client's buffer when it was read
      were a number of whole notifications. */
  lemma BlockExact(n: nat, acts: seq<Action>, s: State, i: nat)
    requires n > 0 && Run(n, acts) == Some(s) && i < |s.published|
    ensures IsNotification(s, s.published[i].bytes) <==> s.published[i].start % n == 0
  {
    hide Ok, Flat, LineOk, Cuts, MarksOf, BytesOf, Run;
    Always(n, acts);
    PublishedPart(n, s, i);
    var p := s.published[i].start;
    if p % n == 0 { AlignedPassed(n, s, p); }
    if IsNotification(s, s.published[i].bytes) {
      var k :| 0 <= k < |s.passed| && s.published[i].bytes == s.passed[k].bytes;
      SameStart(n, s, p, k);
    }
  }

  lemma AlignedPassed(n: nat, s: State, p: nat)
    requires n > 0 && Ok(n, s) && p + n <= |Flat(s.b.frames)| && p % n == 0
    ensures p / n < |s.passed| && Flat(s.b.frames)[p..p + n] == s.passed[p / n].bytes
  {
    AlignedFrame(n, s.b.frames, p);
  }

  lemma SameStart(n: nat, s: State, p: nat, k: nat)
    requires n > 0 && Ok(n, s) && p + n <= |Flat(s.b.frames)| && k < |s.passed|
    requires Flat(s.b.frames)[p..p + n] == s.passed[k].bytes
    ensures p % n == 0
  {
    hide Ok, Flat, LineOk, Cuts, MarksOf, BytesOf;
    Origin(n, s, p);
    PassedPart(n, s, k);
    var j, q := p / n, s.passed[p / n].start + p % n;
    Places(n, s, q);
    Places(n, s, s.passed[k].start);
    assert Flat(s.b.frames)[p] == Flat(s.b.frames)[p..p + n][0] == Flat(s.a.frames)[s.passed[k].start];
    if j < k { Apart(n, s, j, k); }
    if k < j { Apart(n, s, k, j); }
  }

  /** Where a stored block begins on the first line. */
  function Begins(n: nat, s: State, p: nat): nat
    requires n > 0 && p / n < |s.passed|
  {
    s.passed[p / n].start + p % n
  }

  /** The block starts at a frame, and if it spans two notifications these were
      read without a gap. */
  ghost predicate Clean(n: nat, s: State, p: nat)
    requires n > 0
  {
    && p / n < |s.passed| && Begins(n, s, p) % n == 0
    && (p % n > 0 ==> p / n + 1 < |s.passed| && s.passed[p / n + 1].start == s.passed[p / n].start + n)
  }

  /** The byte `x` of a stored block that starts at `p`, found on the first line. */
  lemma OriginOf(n: nat, s: State, p: nat, x: nat)
    requires n > 0 && Ok(n, s) && p + n <= |Flat(s.b.frames)| && x < n
    ensures p / n < |s.passed| && (p % n > 0 ==> p / n + 1 < |s.passed|)
    ensures var r := p % n;
            var q := if r + x < n then Begins(n, s, p) + x else s.passed[p / n + 1].start + (r + x - n);
            q < |Flat(s.a.frames)| && Flat(s.b.frames)[p + x] == Flat(s.a.frames)[q]
  {
    hide Ok, Flat, LineOk, Cuts, MarksOf, BytesOf;
    Origin(n, s, p);
    Origin(n, s, p + x);
    Origin(n, s, p + n - 1);
    Step(n, p, x);
    Step(n, p, n - 1);
  }

  /** Moving on by less than a frame. */
  lemma Step(n: nat, p: nat, x: nat)
    requires n > 0 && x < n
    ensures var k, r := p / n, p % n;
            if r + x < n then (p + x) / n == k && (p + x) % n == r + x
            else (p + x) / n == k + 1 && (p + x) % n == r + x - n
  {
    var k, r := p / n, p % n;
    Coordinates(n, p);
    if r + x < n {
      SameCoordinates(n, k, r + x);
    } else {
      SameCoordinates(n, k + 1, r + x - n);
      assert n * (k + 1) == n * k + n;
    }
  }

  /** A stored block is a stretch of the first line exactly if there was no gap. */
  lemma CleanStretch(n: nat, s: State, p: nat)
    requires n > 0 && Ok(n, s) && p + n <= |Flat(s.b.frames)| && Clean(n, s, p)
    ensures var q := Begins(n, s, p);
            q + n <= |Flat(s.a.frames)| && Flat(s.b.frames)[p..p + n] == Flat(s.a.frames)[q..q + n]
  {
    hide Ok, Flat, LineOk, Cuts, MarksOf, BytesOf;
    var q := Begins(n, s, p);
    var a, b := Flat(s.a.frames), Flat(s.b.frames)[p..p + n];
    OriginOf(n, s, p, n - 1);
    forall x | 0 <= x < n ensures b[x] == a[q..q + n][x] {
      OriginOf(n, s, p, x);
    }
  }

  /** Both stages, in every run: a stored block is one whole offered frame if and
      only if it is clean. */
  lemma StoredExact(n: nat, acts: seq<Action>, s: State, i: nat)
    requires n > 0 && Run(n, acts) == Some(s) && i < |s.published|
    ensures IsFrame(s, s.published[i].bytes) <==> Clean(n, s, s.published[i].start)
  {
    hide Ok, Flat, LineOk, Cuts, MarksOf, BytesOf, Run;
    Always(n, acts);
    PublishedPart(n, s, i);
    StoredAt(n, s, s.published[i].start);
  }

  lemma StoredAt(n: nat, s: State, p: nat)
    requires n > 0 && Ok(n, s) && p + n <= |Flat(s.b.frames)|
    ensures IsFrame(s, Flat(s.b.frames)[p..p + n]) <==> Clean(n, s, p)
  {
    hide Ok, Flat, LineOk, Cuts, MarksOf, BytesOf;
    var bytes := Flat(s.b.frames)[p..p + n];
    if Clean(n, s, p) {
      CleanStretch(n, s, p);
      StretchExact(n, s, Begins(n, s, p));
    }
    if IsFrame(s, bytes) {
      var k :| FrameAt(s, bytes, k);
      WholeIsClean(n, s, p, k);
    }
  }

  lemma WholeIsClean(n: nat, s: State, p: nat, k: int)
    requires n > 0 && Ok(n, s) && p + n <= |Flat(s.b.frames)|
    requires FrameAt(s, Flat(s.b.frames)[p..p + n], k)
    ensures Clean(n, s, p)
  {
    hide Ok, Flat, LineOk, Cuts, MarksOf, BytesOf;
    var bytes, r := Flat(s.b.frames)[p..p + n], p % n;
    FramePlaces(n, s, bytes, k);
    OriginOf(n, s, p, 0);
    Places(n, s, Begins(n, s, p));
    assert bytes[0] == Flat(s.b.frames)[p] && Begins(n, s, p) == n * k + 0;
    SameCoordinates(n, k, 0);
    if r > 0 {
      OriginOf(n, s, p, n - r);
      Places(n, s, s.passed[p / n + 1].start);
      assert bytes[n - r] == Flat(s.b.frames)[p + (n - r)];
    }
  }

  // ---- The lossy channel ---------------------------------------------------

  ghost predicate Increasing(s: seq<nat>) {
    forall i, j :: 0 <= i < j < |s| ==> s[i] < s[j]
  }

  ghost predicate Within(s: seq<nat>, m: nat) {
    forall i :: 0 <= i < |s| ==> s[i] < m
  }

  /** The stored blocks are the named offered frames. */
  ghost predicate Stores(s: State, ids: seq<nat>) {
    && |ids| == |s.published| && Increasing(ids) && Within(ids, |s.offered|)
    && forall i :: 0 <= i < |ids| ==> s.published[i].bytes == Marked(ids[i], s.offered[ids[i]])
  }

  /** What the desktop client stores is a selection of the offered frames, in the
      order offered and none twice. */
  ghost predicate Lossy(s: State) {
    exists ids: seq<nat> :: Stores(s, ids)
  }

  ghost predicate AllClean(n: nat, s: State)
    requires n > 0
  {
    forall i :: 0 <= i < |s.published| ==> Clean(n, s, s.published[i].start)
  }

  /** In every run the path is a lossy channel if and only if every block it
      stored is clean: order and uniqueness then follow. */
  lemma LossyExact(n: nat, acts: seq<Action>, s: State)
    requires n > 0 && Run(n, acts) == Some(s)
    ensures Lossy(s) <==> AllClean(n, s)
  {
    hide Ok, Flat, LineOk, Cuts, MarksOf, BytesOf, Run;
    Always(n, acts);
    if AllClean(n, s) {
      CleanIds(n, s);
    }
    if Lossy(s) {
      var ids :| Stores(s, ids);
      forall i | 0 <= i < |s.published| ensures Clean(n, s, s.published[i].start) {
        assert FrameAt(s, s.published[i].bytes, ids[i]);
        PublishedPart(n, s, i);
        StoredAt(n, s, s.published[i].start);
      }
    }
  }

  lemma CleanIds(n: nat, s: State)
    requires n > 0 && Ok(n, s) && AllClean(n, s)
    ensures Lossy(s)
  {
    hide Ok, Flat, LineOk, Cuts, MarksOf, BytesOf;
    var ids := seq(|s.published|, i requires 0 <= i < |s.published| =>
      assert Clean(n, s, s.published[i].start); Begins(n, s, s.published[i].start) / n);
    forall i | 0 <= i < |ids| ensures FrameAt(s, s.published[i].bytes, ids[i]) {
      assert Clean(n, s, s.published[i].start);
      PublishedPart(n, s, i);
      CleanStretch(n, s, s.published[i].start);
      StretchExact(n, s, Begins(n, s, s.published[i].start));
    }
    forall i, j | 0 <= i < j < |ids| ensures ids[i] < ids[j] {
      assert Clean(n, s, s.published[i].start) && Clean(n, s, s.published[j].start);
      PublishedPart(n, s, i);
      Behind(n, s, s.published[i].start, s.published[j].start);
      Earlier(n, Begins(n, s, s.published[i].start), Begins(n, s, s.published[j].start));
    }
    assert Stores(s, ids);
  }

  lemma Earlier(n: nat, p: nat, q: nat)
    requires n > 0 && p + n <= q
    ensures p / n < q / n
  {
    Coordinates(n, p);
    SameCoordinates(n, p / n + 1, p % n);
    Coordinates(n, q);
    if q / n <= p / n { AtMost(n, q / n, p / n); }
  }

  /** Blocks behind each other on the second line begin so on the first. */
  lemma Behind(n: nat, s: State, p: nat, q: nat)
    requires n > 0 && Ok(n, s) && p + n <= q && p / n < |s.passed| && q / n < |s.passed|
    ensures Begins(n, s, p) + n <= Begins(n, s, q)
  {
    hide Ok, Flat, LineOk, Cuts, MarksOf, BytesOf;
    var i, j := p / n, q / n;
    Earlier(n, p, q);
    Apart(n, s, i, j);
    if j > i + 1 {
      Apart(n, s, i, i + 1);
      Apart(n, s, i + 1, j);
      Coordinates(n, p);
    } else {
      Coordinates(n, p);
      Coordinates(n, q);
      assert n * (i + 1) == n * i + n;
    }
  }

  // ---- Conditions on the run -----------------------------------------------

  /** What an action takes out of a receive buffer without passing it on is a
      number of whole frames. */
  predicate DropsWhole(n: nat, s: State, a: Action)
    requires n > 0
  {
    match a
    case EspRead(_) => |s.a.rx| == 0 || |s.a.rx| >= n
    case EspFlush => |s.a.rx| % n == 0
    case Open => |s.b.rx| % n == 0
    case Read => |s.b.rx| >= n
    case _ => true
  }

  ghost predicate AlwaysDropsWhole(n: nat, acts: seq<Action>)
    requires n > 0
  {
    acts == [] ||
    var before := acts[..|acts| - 1];
    AlwaysDropsWhole(n, before) && (Run(n, before).Some? ==> DropsWhole(n, Run(n, before).value, acts[|acts| - 1]))
  }

  ghost predicate Aligned(n: nat, s: State)
    requires n > 0
  {
    && s.a.out % n == 0 && s.b.out % n == 0
    && (forall i :: 0 <= i < |s.passed| ==> s.passed[i].start % n == 0)
    && (forall i :: 0 <= i < |s.air| ==> s.air[i].start % n == 0)
    && forall i :: 0 <= i < |s.published| ==> s.published[i].start % n == 0
  }

  lemma AlignedStep(n: nat, s: State, a: Action)
    requires n > 0 && Aligned(n, s) && Possible(n, s, a) && DropsWhole(n, s, a)
    ensures Aligned(n, After(n, s, a))
  {
    Once(n);
    match a
    case EspRead(_) => AlignedSum(n, s.a.out, Min(n, |s.a.rx|));
    case EspFlush => AlignedSum(n, s.a.out, |s.a.rx|);
    case Open => AlignedSum(n, s.b.out, |s.b.rx|);
    case Read => AlignedSum(n, s.b.out, n);
    case _ =>
  }

  lemma {:induction false} AlignedAlways(n: nat, acts: seq<Action>)
    requires n > 0 && AlwaysDropsWhole(n, acts) && Run(n, acts).Some?
    ensures Aligned(n, Run(n, acts).value)
  {
    hide After, Aligned, DropsWhole;
    if acts == [] {
      AlignedAtBoot(n);
    } else {
      var before := acts[..|acts| - 1];
      AlignedAlways(n, before);
      AlignedStep(n, Run(n, before).value, acts[|acts| - 1]);
    }
  }

  lemma AlignedAtBoot(n: nat)
    requires n > 0
    ensures Aligned(n, BOOT)
  {
    Once(n);
  }

  /** If flushes, clears and short reads drop whole frames only, the path is a
      lossy channel for whole frames, however the bytes arrive. */
  lemma LossyChannel(n: nat, acts: seq<Action>, s: State)
    requires n > 0 && Run(n, acts) == Some(s) && AlwaysDropsWhole(n, acts)
    ensures exists ids: seq<nat> ::
              && |ids| == |s.published| && Increasing(ids) && Within(ids, |s.offered|)
              && forall i :: 0 <= i < |ids| ==> Bytes(s.published[i].bytes) == s.offered[ids[i]]
  {
    hide Run, AlwaysDropsWhole, Ok;
    Always(n, acts);
    AlignedAlways(n, acts);
    AlignedIsClean(n, s);
    CleanIds(n, s);
    var ids :| Stores(s, ids);
    forall i | 0 <= i < |ids| ensures Bytes(s.published[i].bytes) == s.offered[ids[i]] {
      assert s.published[i].bytes == Marked(ids[i], s.offered[ids[i]]);
    }
  }

  lemma AlignedIsClean(n: nat, s: State)
    requires n > 0 && Ok(n, s) && Aligned(n, s)
    ensures AllClean(n, s)
  {
    hide Ok, Flat, LineOk, Cuts, MarksOf, BytesOf;
    forall i | 0 <= i < |s.published| ensures Clean(n, s, s.published[i].start) {
      PublishedPart(n, s, i);
      Origin(n, s, s.published[i].start);
    }
  }

  /** Every frame enters each buffer in one piece. */
  predicate Atomic(n: nat, acts: seq<Action>) {
    forall i :: 0 <= i < |acts| ==>
      (acts[i].ArriveA? ==> acts[i].k == n) && (acts[i].ArriveB? ==> acts[i].k == n)
  }

  ghost predicate WholeBuffers(n: nat, s: State)
    requires n > 0
  {
    |s.a.rx| % n == 0 && |s.b.rx| % n == 0
  }

  lemma AtomicStep(n: nat, s: State, a: Action)
    requires n > 0 && WholeBuffers(n, s) && Possible(n, s, a)
    requires (a.ArriveA? ==> a.k == n) && (a.ArriveB? ==> a.k == n)
    ensures DropsWhole(n, s, a) && WholeBuffers(n, After(n, s, a))
  {
    Once(n);
    match a
    case ArriveA(_) => AlignedSum(n, |s.a.rx|, n);
    case ArriveB(_) => AlignedSum(n, |s.b.rx|, n);
    case EspRead(_) => if |s.a.rx| >= n { AlignedRest(n, |s.a.rx|); }
    case Read => if |s.b.rx| >= n { AlignedRest(n, |s.b.rx|); }
    case _ =>
  }

  /** That frames enter the buffers whole is enough, and more than is needed. */
  lemma {:induction false} AtomicDropsWhole(n: nat, acts: seq<Action>)
    requires n > 0 && Atomic(n, acts) && Run(n, acts).Some?
    ensures AlwaysDropsWhole(n, acts) && WholeBuffers(n, Run(n, acts).value)
  {
    Once(n);
    if acts != [] {
      var before := acts[..|acts| - 1];
      AtomicDropsWhole(n, before);
      AtomicStep(n, Run(n, before).value, acts[|acts| - 1]);
    }
  }

  // ---- Delivery ------------------------------------------------------------

  /** Both buffers and the air are empty, and both ends are listening. */
  ghost predicate Quiet(s: State) {
    && s.a.tx == s.a.rx == [] && s.b.tx == s.b.rx == [] && s.air == []
    && s.subscribed && s.pc == AtRead && s.open
  }

  lemma RunOn(n: nat, acts: seq<Action>, s: State, a: Action, t: State)
    requires Run(n, acts) == Some(s) && Possible(n, s, a) && After(n, s, a) == t
    ensures Run(n, acts + [a]) == Some(t)
  {
    assert (acts + [a])[..|acts|] == acts;
  }

  /** A frame offered to a quiet path that loses nothing is stored as offered, next
      to what was stored before, and leaves the path quiet. */
  lemma Delivers(n: nat, acts: seq<Action>, s: State, f: seq<Byte>) returns (longer: seq<Action>, t: State)
    requires n > 0 && Run(n, acts) == Some(s) && Quiet(s) && |f| == n
    ensures longer == acts + [Offer(f), ArriveA(n), EspRead(true), EspFlush, Notify, ArriveB(n), Read]
    ensures Run(n, longer) == Some(t) && Quiet(t)
    ensures |t.published| == |s.published| + 1 && t.published[..|s.published|] == s.published
    ensures Bytes(t.published[|s.published|].bytes) == f
  {
    var m := Marked(|s.offered|, f);
    var p := Piece(m, s.a.out);
    var q := s.(offered := s.offered + [f], a := Line(s.a.frames + [m], [], [], s.a.out + n));
    OnFirst(n, acts, s, f, q.(air := [p]));
    var far := acts + [Offer(f)] + [ArriveA(n)] + [EspRead(true)] + [EspFlush];
    t := q.(passed := s.passed + [p], b := Line(s.b.frames + [m], [], [], s.b.out + n),
            published := s.published + [Piece(m, s.b.out)]);
    OnSecond(n, far, q.(air := [p]), p, t);
    longer := acts + [Offer(f), ArriveA(n), EspRead(true), EspFlush, Notify, ArriveB(n), Read];
    assert longer == far + [Notify] + [ArriveB(n)] + [Read];
  }

  lemma OnFirst(n: nat, acts: seq<Action>, s: State, f: seq<Byte>, t: State)
    requires n > 0 && Run(n, acts) == Some(s) && Quiet(s) && |f| == n
    requires var m := Marked(|s.offered|, f);
             t == s.(offered := s.offered + [f], a := Line(s.a.frames + [m], [], [], s.a.out + n),
                     air := [Piece(m, s.a.out)])
    ensures Run(n, acts + [Offer(f)] + [ArriveA(n)] + [EspRead(true)] + [EspFlush]) == Some(t)
  {
    var m := Marked(|s.offered|, f);
    var u := s.(offered := s.offered + [f], a := Line(s.a.frames + [m], m, [], s.a.out));
    var v := u.(a := Line(u.a.frames, [], m, s.a.out));
    var w := t.(pc := AtFlush);
    assert [] + m == m && m[..n] == m && m[n..] == [];
    RunOn(n, acts, s, Offer(f), u);
    RunOn(n, acts + [Offer(f)], u, ArriveA(n), v);
    RunOn(n, acts + [Offer(f)] + [ArriveA(n)], v, EspRead(true), w);
    RunOn(n, acts + [Offer(f)] + [ArriveA(n)] + [EspRead(true)], w, EspFlush, t);
  }

  lemma OnSecond(n: nat, acts: seq<Action>, s: State, p: Piece, t: State)
    requires n > 0 && Run(n, acts) == Some(s) && Quiet(s.(air := [])) && s.air == [p] && |p.bytes| == n
    requires t == s.(air := [], passed := s.passed + [p],
                     b := Line(s.b.frames + [p.bytes], [], [], s.b.out + n),
                     published := s.published + [Piece(p.bytes, s.b.out)])
    ensures Run(n, acts + [Notify] + [ArriveB(n)] + [Read]) == Some(t)
  {
    var m := p.bytes;
    var u := s.(air := [], passed := s.passed + [p], b := Line(s.b.frames + [m], m, [], s.b.out));
    var v := u.(b := Line(u.b.frames, [], m, s.b.out));
    assert [] + m == m && m[..n] == m && m[n..] == [] && s.air[1..] == [];
    RunOn(n, acts, s, Notify, u);
    RunOn(n, acts + [Notify], u, ArriveB(n), v);
    RunOn(n, acts + [Notify] + [ArriveB(n)], v, Read, t);
  }

  /** The rest of the state: what is listening, and what a step takes or loses. */
  lemma FlagsExactly(n: nat, s: State, a: Action)
    requires Possible(n, s, a)
    ensures var t := After(n, s, a);
            && (t.open <==> a.Open? || (s.open && !a.Timeout? && !(a.Read? && |s.b.rx| < n)))
            && (t.subscribed <==> if a.Subscribe? then a.on else s.subscribed)
            && (t.pc == AtFlush <==> a.EspRead? || (s.pc == AtFlush && !a.EspFlush?))
            && (a.EspFlush? ==> t.a.rx == []) && (a.Open? ==> t.b.rx == [])
            && (a.EspRead? ==> t.a.rx == if |s.a.rx| < n then [] else s.a.rx[n..])
            && (a.Read? ==> t.b.rx == if |s.b.rx| < n then [] else s.b.rx[n..])
            && (a.Lose? ==> |t.air| == |s.air| - 1)
  {
  }

  // ---- A run that mixes ----------------------------------------------------

  lemma Do(acts: seq<Action>, s: State, a: Action) returns (longer: seq<Action>, t: State)
    requires Run(3, acts) == Some(s) && Possible(3, s, a)
    ensures longer == acts + [a] && t == After(3, s, a) && Run(3, longer) == Some(t)
  {
    longer, t := acts + [a], After(3, s, a);
    assert longer[..|acts|] == acts;
  }

  function Split(x: Byte, y: Byte): seq<Mark> {
    [Mark(0, 1, x), Mark(0, 2, x), Mark(1, 0, y)]
  }

  /** The rest of a frame whose first byte was flushed, and a byte of the next. */
  lemma Seam(x: Byte, y: Byte) returns (acts: seq<Action>, s: State)
    ensures Run(3, acts) == Some(s)
    ensures s.a.rx == Split(x, y) && s.a.out == 1 && s.subscribed && s.open && s.pc == AtRead
    ensures s.offered == [[x, x, x], [y, y, y]]
    ensures s.passed == s.air == s.published == [] && s.b == BOOT.b
  {
    acts, s := [], BOOT;
    acts, s := Do(acts, s, Open);
    acts, s := Do(acts, s, Offer([x, x, x]));
    assert s.a.tx == [Mark(0, 0, x), Mark(0, 1, x), Mark(0, 2, x)];
    acts, s := Do(acts, s, ArriveA(1));
    acts, s := Do(acts, s, EspFlush);
    acts, s := Do(acts, s, Subscribe(true));
    acts, s := Do(acts, s, ArriveA(2));
    acts, s := Do(acts, s, Offer([y, y, y]));
    assert s.a.tx == [Mark(1, 0, y), Mark(1, 1, y), Mark(1, 2, y)];
    acts, s := Do(acts, s, ArriveA(1));
  }

  /** One byte flushed from the middle of a frame shifts every following read, and
      bytes of two frames are stored as one. */
  lemma SplitFrameMixes(x: Byte, y: Byte) returns (acts: seq<Action>, s: State)
    requires x != y
    ensures Run(3, acts) == Some(s) && !AllClean(3, s)
    ensures s.offered == [[x, x, x], [y, y, y]]
    ensures |s.published| == 1 && Bytes(s.published[0].bytes) == [x, x, y]
  {
    acts, s := Seam(x, y);
    hide Run;
    assert s.a.rx[..3] == s.a.rx;
    acts, s := Do(acts, s, EspRead(true));
    assert s.air == [Piece(Split(x, y), 1)];
    acts, s := Do(acts, s, Notify);
    acts, s := Do(acts, s, ArriveB(3));
    assert s.b.rx == Split(x, y) == s.b.rx[..3] && s.passed == [Piece(Split(x, y), 1)];
    acts, s := Do(acts, s, Read);
    assert s.published == [Piece(Split(x, y), 0)];
    assert !Clean(3, s, s.published[0].start);
  }
}
