/** What a buffer means: signals as bit fields of one little-endian word, and
    the effect of a history of inserts on them. */
module Layout {
  import opened Bits
  import opened Setting

  /** One completed `insert_helper` call. */
  datatype Write = Write(info: Info, val: int)

  /** Fields the server's 32-bit arithmetic handles without undefined shifts. */
  predicate Encodable(n: nat, info: Info) {
    n <= 4 && 1 <= info.length <= 30 && Fits(n, info)
  }

  predicate Disjoint(f: Info, g: Info) {
    f.start + f.length <= g.start || g.start + g.length <= f.start
  }

  ghost predicate Separate(layout: set<Info>) {
    forall f, g :: f in layout && g in layout && f != g ==> Disjoint(f, g)
  }

  predicate Covers(f: Info, i: nat) {
    f.start <= i < f.start + f.length
  }

  ghost predicate Covered(layout: set<Info>, i: nat) {
    exists f :: f in layout && Covers(f, i)
  }

  /** The fields use every bit of an `n`-byte buffer exactly once. */
  ghost predicate Tiles(n: nat, layout: set<Info>) {
    && Separate(layout)
    && (forall f :: f in layout ==> Encodable(n, f))
    && (forall i: nat :: i < 8 * n ==> Covered(layout, i))
  }

  /** The number in the two's complement code of `len` bits with pattern `b`. */
  function Centre(len: nat, b: nat): (v: int)
    requires b < Pow2(len)
    ensures 0 < len ==> 0 <= v + Pow2(len - 1) < Pow2(len)
  {
    if len > 0 && Pow2(len - 1) <= b then b - Pow2(len) else b
  }

  function ValueOf(signed: bool, len: nat, b: nat): int
    requires b < Pow2(len)
  {
    if signed then Centre(len, b) else b
  }

  /** The value of a signal in the word `w`. */
  function Decode(signed: bool, w: nat, f: Info): int {
    ValueOf(signed, f.length, Field(w, f.start, f.length))
  }

  function Pattern(f: Info, val: int): (b: nat)
    ensures b < Pow2(f.length)
  {
    Wrap(f.length, val)
  }

  function Apply(w: nat, log: seq<Write>): nat {
    if log == [] then w
    else
      var x := log[|log| - 1];
      Put(Apply(w, log[..|log| - 1]), x.info.start, x.info.length, Pattern(x.info, x.val))
  }

  ghost predicate Over(log: seq<Write>, layout: set<Info>) {
    forall i :: 0 <= i < |log| ==> log[i].info in layout
  }

  /** The bits last written to `f`, or its bits in the initial word `w`. */
  function LastBits(w: nat, log: seq<Write>, f: Info): (b: nat)
    ensures b < Pow2(f.length)
  {
    if log == [] then Field(w, f.start, f.length)
    else if log[|log| - 1].info == f then Pattern(f, log[|log| - 1].val)
    else LastBits(w, log[..|log| - 1], f)
  }

  // ---- One insert ----------------------------------------------------------

  /** An insert is seen by its own field and by no disjoint one. */
  lemma PutField(w: nat, f: Info, v: nat, g: Info)
    requires v < Pow2(f.length)
    ensures Field(Put(w, f.start, f.length, v), f.start, f.length) == v
    ensures Disjoint(f, g) ==>
              Field(Put(w, f.start, f.length, v), g.start, g.length) == Field(w, g.start, g.length)
  {
    var x := Put(w, f.start, f.length, v);
    forall i: nat ensures Bit(Field(x, f.start, f.length), i) == Bit(v, i) {
      BitField(x, f.start, f.length, i);
      BitPut(w, f.start, f.length, v, f.start + i);
      BitBelow(v, f.length, i);
    }
    Extensional(Field(x, f.start, f.length), v);
    if Disjoint(f, g) {
      forall i: nat ensures Bit(Field(x, g.start, g.length), i) == Bit(Field(w, g.start, g.length), i) {
        BitField(x, g.start, g.length, i);
        BitField(w, g.start, g.length, i);
        BitPut(w, f.start, f.length, v, g.start + i);
      }
      Extensional(Field(x, g.start, g.length), Field(w, g.start, g.length));
    }
  }

  /** Inserts into disjoint fields commute; a second insert into the same field
      hides the first. */
  lemma PutPut(w: nat, f: Info, u: nat, g: Info, v: nat)
    requires u < Pow2(f.length) && v < Pow2(g.length)
    ensures Disjoint(f, g) ==>
              Put(Put(w, f.start, f.length, u), g.start, g.length, v) ==
              Put(Put(w, g.start, g.length, v), f.start, f.length, u)
    ensures f == g ==> Put(Put(w, f.start, f.length, u), g.start, g.length, v) == Put(w, f.start, f.length, v)
  {
    var fw, gw := Put(w, f.start, f.length, u), Put(w, g.start, g.length, v);
    var fg, gf := Put(fw, g.start, g.length, v), Put(gw, f.start, f.length, u);
    if Disjoint(f, g) || f == g {
      forall i: nat
        ensures Disjoint(f, g) ==> Bit(fg, i) == Bit(gf, i)
        ensures f == g ==> Bit(fg, i) == Bit(gw, i)
      {
        BitPut(w, f.start, f.length, u, i);
        BitPut(w, g.start, g.length, v, i);
        BitPut(fw, g.start, g.length, v, i);
        BitPut(gw, f.start, f.length, u, i);
      }
      if Disjoint(f, g) { Extensional(fg, gf); }
      if f == g { Extensional(fg, gw); }
    }
  }

  // ---- Histories -----------------------------------------------------------

  lemma {:induction false} ApplyBound(w: nat, log: seq<Write>, n: nat)
    requires w < Pow2(8 * n)
    requires forall i :: 0 <= i < |log| ==> Fits(n, log[i].info)
    ensures Apply(w, log) < Pow2(8 * n)
  {
    if log != [] {
      var x := log[|log| - 1];
      ApplyBound(w, log[..|log| - 1], n);
      PutBound(Apply(w, log[..|log| - 1]), x.info.start, x.info.length, Pattern(x.info, x.val), 8 * n);
    }
  }

  /** After any history each field holds what was written to it last. */
  lemma {:induction false} LastWriteWins(w: nat, log: seq<Write>, f: Info, layout: set<Info>)
    requires Separate(layout) && Over(log, layout) && f in layout
    ensures Field(Apply(w, log), f.start, f.length) == LastBits(w, log, f)
  {
    if log != [] {
      var x, rest := log[|log| - 1], log[..|log| - 1];
      LastWriteWins(w, rest, f, layout);
      PutField(Apply(w, rest), x.info, Pattern(x.info, x.val), f);
    }
  }

  // ---- Tilings -------------------------------------------------------------

  /** With a tiling layout the fields determine the word. */
  lemma FieldsDetermine(n: nat, layout: set<Info>, w: nat, x: nat)
    requires Tiles(n, layout) && w < Pow2(8 * n) && x < Pow2(8 * n)
    requires forall f :: f in layout ==> Field(w, f.start, f.length) == Field(x, f.start, f.length)
    ensures w == x
  {
    forall i: nat ensures Bit(w, i) == Bit(x, i) {
      BitBelow(w, 8 * n, i);
      BitBelow(x, 8 * n, i);
      if i < 8 * n {
        assert Covered(layout, i);
        var f :| f in layout && Covers(f, i);
        BitField(w, f.start, f.length, i - f.start);
        BitField(x, f.start, f.length, i - f.start);
      }
    }
    Extensional(w, x);
  }

  /** Writing back the decoded values, whatever the signedness of the readings. */
  function Rewrites(w: nat, fields: seq<Info>, signed: Info -> bool): (log: seq<Write>)
    ensures |log| == |fields|
    ensures forall i :: 0 <= i < |log| ==> log[i].info == fields[i]
    ensures forall i :: 0 <= i < |log| ==> log[i].val == Decode(signed(fields[i]), w, fields[i])
  {
    seq(|fields|, i requires 0 <= i < |fields| => Write(fields[i], Decode(signed(fields[i]), w, fields[i])))
  }

  /** A reading, signed or not, reduces to the pattern it was read from. */
  lemma PatternOfValue(signed: bool, f: Info, b: nat)
    requires b < Pow2(f.length)
    ensures Pattern(f, ValueOf(signed, f.length, b)) == b
  {
    WrapSmall(f.length, b);
    WrapShift(f.length, b - Pow2(f.length));
  }

  lemma {:induction false} LastRewrite(w: nat, v: nat, fields: seq<Info>, signed: Info -> bool, f: Info)
    requires f in fields
    ensures LastBits(v, Rewrites(w, fields, signed), f) == Field(w, f.start, f.length)
    decreases |fields|
  {
    var log := Rewrites(w, fields, signed);
    var k := |fields| - 1;
    if fields[k] == f {
      PatternOfValue(signed(f), f, Field(w, f.start, f.length));
    } else {
      assert log[..k] == Rewrites(w, fields[..k], signed);
      LastRewrite(w, v, fields[..k], signed, f);
    }
  }

  /** Decoding all signals of a word and inserting the values, in any order,
      into any word restores the first one. */
  lemma Repacking(n: nat, layout: set<Info>, fields: seq<Info>, signed: Info -> bool, w: nat, v: nat)
    requires Tiles(n, layout) && w < Pow2(8 * n) && v < Pow2(8 * n)
    requires forall f :: f in fields <==> f in layout
    ensures Apply(v, Rewrites(w, fields, signed)) == w
  {
    var log := Rewrites(w, fields, signed);
    forall i | 0 <= i < |log| ensures log[i].info in layout { assert fields[i] in fields; }
    ApplyBound(v, log, n);
    forall f | f in layout ensures Field(Apply(v, log), f.start, f.length) == Field(w, f.start, f.length) {
      LastWriteWins(v, log, f, layout);
      LastRewrite(w, v, fields, signed, f);
    }
    FieldsDetermine(n, layout, Apply(v, log), w);
  }

  /** Two histories that last wrote the same bits everywhere packed the same word. */
  lemma SamePacking(n: nat, layout: set<Info>, w: nat, a: seq<Write>, x: nat, b: seq<Write>)
    requires Tiles(n, layout) && Over(a, layout) && Over(b, layout)
    requires w < Pow2(8 * n) && x < Pow2(8 * n)
    ensures Apply(w, a) == Apply(x, b) <==> forall f :: f in layout ==> LastBits(w, a, f) == LastBits(x, b, f)
  {
    forall f | f in layout
      ensures LastBits(w, a, f) == Field(Apply(w, a), f.start, f.length)
      ensures LastBits(x, b, f) == Field(Apply(x, b), f.start, f.length)
    {
      LastWriteWins(w, a, f, layout);
      LastWriteWins(x, b, f, layout);
    }
    ApplyBound(w, a, n);
    ApplyBound(x, b, n);
    if forall f :: f in layout ==> LastBits(w, a, f) == LastBits(x, b, f) {
      FieldsDetermine(n, layout, Apply(w, a), Apply(x, b));
    }
  }

  // ---- Values --------------------------------------------------------------

  predicate Representable(signed: bool, len: nat, val: int) {
    len > 0 && 0 <= (if signed then val + Pow2(len - 1) else val) < Pow2(len)
  }

  /** Insert followed by a reading returns the value reduced to the field's
      range: a representable number congruent to it modulo 2^length. */
  lemma RoundTrip(signed: bool, f: Info, w: nat, val: int)
    requires f.length > 0
    ensures var r := Decode(signed, Put(w, f.start, f.length, Pattern(f, val)), f);
            && Representable(signed, f.length, r)
            && Wrap(f.length, r) == Wrap(f.length, val)
            && (r == val <==> Representable(signed, f.length, val))
  {
    var b := Pattern(f, val);
    PutField(w, f, b, f);
    PatternOfValue(signed, f, b);
    if Representable(signed, f.length, val) {
      WrapShift(f.length, val);
      if val >= 0 { WrapSmall(f.length, val); } else { WrapSmall(f.length, val + Pow2(f.length)); }
    }
  }

  // ---- The real table ------------------------------------------------------

  const FIELDS := [SPEED, TEMPERATURE, BATTERY_LEVEL, LEFT_LIGHT, RIGHT_LIGHT]

  const LAYOUT := {SPEED, TEMPERATURE, BATTERY_LEVEL, LEFT_LIGHT, RIGHT_LIGHT}

  /** Only the temperature getter has a signed type. */
  function SignedSignal(f: Info): bool {
    f == TEMPERATURE
  }

  lemma TableTiles()
    ensures Tiles(SBUFLEN, LAYOUT)
    ensures |FIELDS| == |SIGNALS| && forall i :: 0 <= i < |SIGNALS| ==> SIGNALS[i].info == FIELDS[i]
    ensures forall f :: f in FIELDS <==> f in LAYOUT
    ensures forall f, v: int :: f in LAYOUT && f.min <= v <= f.max ==> Representable(SignedSignal(f), f.length, v)
    ensures forall f :: f in LAYOUT ==> f.min <= 0 <= f.max
  {
    Pow2Values();
    forall i: nat | i < 8 * SBUFLEN ensures Covered(LAYOUT, i) {
      var f := if i < 8 then SPEED else if i < 15 then TEMPERATURE else if i < 22 then BATTERY_LEVEL
               else if i < 23 then LEFT_LIGHT else RIGHT_LIGHT;
      assert f in LAYOUT && Covers(f, i);
    }
  }

  /** `build_map` accepts the real table. */
  lemma TableAccepted()
    ensures forall i :: 0 <= i < |SIGNALS| ==> Guard(SBUFLEN, SIGNALS[i].info)
  {
    forall i | 0 <= i < |SIGNALS| ensures Guard(SBUFLEN, SIGNALS[i].info) {
      GuardExact(SBUFLEN, SIGNALS[i].info);
    }
  }

  /** The five values and the three bytes determine each other. */
  lemma TableRepacking(s: seq<Byte>, start: seq<Byte>)
    requires |s| == |start| == SBUFLEN
    ensures ToBytes(Apply(LE(start), Rewrites(LE(s), FIELDS, SignedSignal)), SBUFLEN) == s
  {
    TableTiles();
    LEBound(s);
    LEBound(start);
    Repacking(SBUFLEN, LAYOUT, FIELDS, SignedSignal, LE(s), LE(start));
    WordRoundTrip(s);
  }
}
