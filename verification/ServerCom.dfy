/** The server's signal packer (desktop/server/src/comservice.cpp). */
module ServerCom {
  import opened Bits
  import opened Setting
  import opened Layout
  import opened Wrappers

  type UInt8 = x: int | 0 <= x < 256
  type Int8 = x: int | -128 <= x < 128

  const CHAR_BIT: nat := 8

  /** `build_map` applied to the real table. */
  ghost predicate RealTable(settings: map<string, Info>) {
    LastEntryWins(SIGNALS, settings)
  }

  lemma RealEntries(settings: map<string, Info>)
    requires RealTable(settings)
    ensures forall i :: 0 <= i < |SIGNALS| ==>
              SIGNALS[i].key in settings && settings[SIGNALS[i].key] == SIGNALS[i].info
  {
    forall i | 0 <= i < |SIGNALS|
      ensures SIGNALS[i].key in settings && settings[SIGNALS[i].key] == SIGNALS[i].info
    {
      var j :| StoredLast(SIGNALS, j, SIGNALS[i].key) && settings[SIGNALS[i].key] == SIGNALS[j].info;
      KeysDiffer(i, j);
    }
  }

  lemma RealTableFits(settings: map<string, Info>)
    requires RealTable(settings)
    ensures forall key :: key in settings ==> Encodable(SBUFLEN, settings[key])
  {
    TableTiles();
    forall key | key in settings ensures Encodable(SBUFLEN, settings[key]) {
      var i :| StoredLast(SIGNALS, i, key) && settings[key] == SIGNALS[i].info;
    }
  }

  lemma KeysDiffer(i: int, j: int)
    requires 0 <= i < |SIGNALS| && 0 <= j < |SIGNALS| && SIGNALS[i].key == SIGNALS[j].key
    ensures i == j
  {
    assert "speed"[0] == 's' && "temperature"[0] == 't' && "battery_level"[0] == 'b'
           && "left_light"[0] == 'l' && "right_light"[0] == 'r';
  }

  class COMService {
    const settings: map<string, Info>
    const m_buf: array<Byte>

    /** Every insert completed so far, oldest first. */
    ghost var log: seq<Write>

    ghost predicate Valid()
      reads this, m_buf
    {
      && m_buf.Length <= 4
      && (forall key :: key in settings ==> Encodable(m_buf.Length, settings[key]))
      && (forall i :: 0 <= i < |log| ==> Encodable(m_buf.Length, log[i].info))
      && LE(m_buf[..]) == Apply(0, log)
    }

    constructor (settings: map<string, Info>, n: nat)
      requires n <= 4 && forall key :: key in settings ==> Encodable(n, settings[key])
      ensures Valid() && log == [] && this.settings == settings && m_buf.Length == n && fresh(m_buf)
    {
      this.settings := settings;
      m_buf := new Byte[n](_ => 0);
      log := [];
      new;
      AllZero(m_buf[..]);
    }

    /** Fill up the temporary word from the top byte down. */
    method FillWord() returns (temp_buf: nat)
      requires Valid()
      ensures temp_buf == LE(m_buf[..]) < Pow2(8 * m_buf.Length)
    {
      var n := m_buf.Length;
      temp_buf := 0;
      var buf_size := n * CHAR_BIT;
      var i := n - 1;
      assert m_buf[n..] == [];
      FillStart(8 * n);
      hide LE, Scale, Or, Shl, Pow2, Valid, Apply;
      while i >= 0
        invariant -1 <= i < n
        invariant temp_buf == Scale(LE(m_buf[i + 1..]), 8 * (i + 1))
      {
        FillStep(m_buf[..], i);
        assert m_buf[..][i..] == m_buf[i..] && m_buf[..][i + 1..] == m_buf[i + 1..];
        temp_buf := Or(temp_buf, Shl(32, m_buf[i], buf_size - (n - i) * CHAR_BIT));
        i := i - 1;
      }
      assert m_buf[0..] == m_buf[..];
      Filled(m_buf[..], temp_buf);
    }

    /** Write the word back byte by byte. */
    method StoreWord(temp_buf: nat)
      requires temp_buf < Pow2(8 * m_buf.Length)
      modifies m_buf
      ensures LE(m_buf[..]) == temp_buf
    {
      var n := m_buf.Length;
      for j := 0 to n
        invariant m_buf[..j] == ToBytes(temp_buf, n)[..j]
      {
        LowByte(temp_buf, n, j);
        m_buf[j] := And(Shr(temp_buf, j * CHAR_BIT), 0xFF);
      }
      assert m_buf[..] == ToBytes(temp_buf, n);
      BytesRoundTrip(temp_buf, n);
    }

    /** Build the word, clear the field, overlay the value, write the word back:
        the buffer is the old one with the field replaced. */
    method InsertHelper(val: int, key: string) returns (r: Result<(), Error>)
      requires Valid()
      modifies this, m_buf
      ensures Valid()
      ensures r.Ok? <==> key in settings
      ensures r.Err? ==> r.error == OutOfRange(key) && m_buf[..] == old(m_buf[..]) && log == old(log)
      ensures r.Ok? ==> log == old(log) + [Write(settings[key], val)]
    {
      hide LE, Shl, Not, And, Or, Pow2, Wrap, Put, Pattern;
      var found := Lookup(settings, key);
      if found.Err? { return Err(found.error); }
      var info := found.value;

      var temp_buf := FillWord();
      InsertBits(temp_buf, val, info, m_buf.Length);

      var mask := MaskOf(info.length);
      temp_buf := And(temp_buf, Not(32, Shl(32, mask, info.start)));
      temp_buf := Or(temp_buf, Shl(32, And(Wrap(32, val), mask), info.start));

      StoreWord(temp_buf);
      log := log + [Write(info, val)];
      assert log[..|log| - 1] == old(log);
      return Ok(());
    }

    method SetSpeed(speed_kph: UInt8)
      requires Valid() && RealTable(settings)
      modifies this, m_buf
      ensures Valid() && log == old(log) + [Write(SPEED, speed_kph)]
    {
      RealEntries(settings);
      assert SIGNALS[0].key == "speed";
      var _ := InsertHelper(speed_kph, "speed");
    }

    method SetTemp(temp_c: Int8)
      requires Valid() && RealTable(settings)
      modifies this, m_buf
      ensures Valid() && log == old(log) + [Write(TEMPERATURE, temp_c)]
    {
      RealEntries(settings);
      assert SIGNALS[1].key == "temperature";
      var _ := InsertHelper(temp_c, "temperature");
    }

    method SetBattery(bat_prc: UInt8)
      requires Valid() && RealTable(settings)
      modifies this, m_buf
      ensures Valid() && log == old(log) + [Write(BATTERY_LEVEL, bat_prc)]
    {
      RealEntries(settings);
      assert SIGNALS[2].key == "battery_level";
      var _ := InsertHelper(bat_prc, "battery_level");
    }

    /** Two inserts, each under its own lock: a reader can see the state between. */
    method SetLightSignals(left: bool, right: bool)
      requires Valid() && RealTable(settings)
      modifies this, m_buf
      ensures Valid()
      ensures log == old(log) + [Write(LEFT_LIGHT, FromBool(left)), Write(RIGHT_LIGHT, FromBool(right))]
    {
      RealEntries(settings);
      assert SIGNALS[3].key == "left_light" && SIGNALS[4].key == "right_light";
      var _ := InsertHelper(FromBool(left), "left_light");
      var _ := InsertHelper(FromBool(right), "right_light");
    }
  }

  function FromBool(b: bool): (v: int)
    ensures 0 <= v <= 1
  {
    if b then 1 else 0
  }

  /** `(1 << length) - 1`; the shift is one of a signed 32-bit `int`. */
  function MaskOf(length: nat): nat
    requires length <= 30
  {
    Pow2(length) - 1
  }

  lemma FillStart(k: nat)
    ensures Scale(LE([]), k) == 0
  {
    ScaleUnit(k);
  }

  /** Adding byte `i` below the bytes already collected. */
  lemma FillStep(s: seq<Byte>, i: nat)
    requires i < |s| <= 4
    ensures Or(Scale(LE(s[i + 1..]), 8 * (i + 1)), Shl(32, s[i], 8 * i)) == Scale(LE(s[i..]), 8 * i)
  {
    hide Scale, Shl, Or, Pow2;
    var hi := LE(s[i + 1..]);
    Pow2Values();
    ShlExact(32, s[i], 8 * i, 8);
    OrAdds(hi, Scale(s[i], 8 * i), 8 * (i + 1));
    assert s[i..] == [s[i]] + s[i + 1..];
    ScaleSum(hi, s[i], 8 * i);
  }

  lemma {:induction false} ScaleSum(hi: nat, b: nat, k: nat)
    ensures Scale(hi, 8 + k) + Scale(b, k) == Scale(b + 256 * hi, k)
    decreases k
  {
    if k == 0 { ByteStep(hi, 0); } else { ScaleSum(hi, b, k - 1); }
  }

  lemma Filled(s: seq<Byte>, w: nat)
    requires w == Scale(LE(s), 0)
    ensures w == LE(s) < Pow2(8 * |s|)
  {
    LEBound(s);
  }

  /** Clear and overlay in 32-bit arithmetic is replacement of the field. */
  lemma InsertBits(w: nat, val: int, f: Info, n: nat)
    requires Encodable(n, f) && w < Pow2(8 * n)
    ensures Shl(32, MaskOf(f.length), f.start) < Pow2(32)
    ensures Or(And(w, Not(32, Shl(32, MaskOf(f.length), f.start))),
               Shl(32, And(Wrap(32, val), MaskOf(f.length)), f.start))
            == Put(w, f.start, f.length, Pattern(f, val))
    ensures Put(w, f.start, f.length, Pattern(f, val)) < Pow2(8 * n)
  {
    hide Shl, Not, And, Or, Bit, Pow2, Wrap, Put;
    var v := Pattern(f, val);
    AndOnes(Wrap(32, val), f.length);
    WrapWrap(val, f.length, 32);
    var lhs := Overlaid(w, v, f);
    var rhs := Put(w, f.start, f.length, v);
    forall i: nat ensures Bit(lhs, i) == Bit(rhs, i) {
      BitOverlaid(w, v, f, n, i);
      BitPut(w, f.start, f.length, v, i);
    }
    Extensional(lhs, rhs);
    PutBound(w, f.start, f.length, v, 8 * n);
  }

  function Overlaid(w: nat, v: nat, f: Info): nat
    requires f.length <= 30
  {
    Or(And(w, Not(32, Shl(32, MaskOf(f.length), f.start))), Shl(32, v, f.start))
  }

  lemma BitOverlaid(w: nat, v: nat, f: Info, n: nat, i: nat)
    requires Encodable(n, f) && w < Pow2(8 * n) && v < Pow2(f.length)
    ensures Bit(Overlaid(w, v, f), i) ==
            if f.start <= i < f.start + f.length then Bit(v, i - f.start) else Bit(w, i)
  {
    hide Shl, Not, And, Or, Bit, Pow2;
    var mask := MaskOf(f.length);
    var hole := Shl(32, mask, f.start);
    BitOr(And(w, Not(32, hole)), Shl(32, v, f.start), i);
    BitAnd(w, Not(32, hole), i);
    BitNot(32, hole, i);
    BitShl(32, mask, f.start, i);
    BitShl(32, v, f.start, i);
    BitBelow(w, 8 * n, i);
    if f.start <= i {
      BitOnes(f.length, i - f.start);
      BitBelow(v, f.length, i - f.start);
    }
  }

  lemma LowByte(w: nat, n: nat, j: nat)
    requires j < n
    ensures And(Shr(w, j * CHAR_BIT), 0xFF) == ToBytes(w, n)[j]
  {
    Pow2Values();
    AndOnes(Shr(w, 8 * j), 8);
    ByteAt(w, n, j);
  }
}
