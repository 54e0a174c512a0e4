/** The client's signal unpacker (desktop/client/src/comservice.cpp). */
module ClientCom {
  import opened Bits
  import opened Setting
  import opened Layout
  import opened Wrappers

  /** The result types `read` is instantiated with. */
  datatype CType = U8 | I8 | Bool

  function Width(t: CType): nat {
    match t case U8 => 8 case I8 => 8 case Bool => 1
  }

  /** `static_cast<T>` of a 64-bit word; a bool is 0 or 1. */
  function Cast(t: CType, bits: nat): int {
    match t
    case U8 => Wrap(8, bits)
    case I8 => Centre(8, Wrap(8, bits))
    case Bool => if bits != 0 then 1 else 0
  }

  /** `(bit_len >= 64) ? ~0ULL : ((1ULL << bit_len) - 1)` */
  function MaskOf(len: nat): (m: nat) {
    if len >= 64 then Not(64, 0)
    else
      OneShifted(len, 64);
      Shl(64, 1, len) - 1
  }

  /** The client's sign extension, `(bits ^ sbit) - sbit`, in a type of `w` bits. */
  function Extended(w: nat, len: nat, bits: nat): nat
    requires 0 < len
  {
    var sbit := Shl(w, 1, len - 1);
    Wrap(w, Xor(bits, sbit) - sbit)
  }

  /** Up to eight bytes of the buffer, from byte `off`. */
  function Window(s: seq<Byte>, off: nat): seq<Byte>
    requires off <= |s|
  {
    s[off..if off + 8 <= |s| then off + 8 else |s|]
  }

  /** The bits `read` masks out of its window, before any sign treatment. */
  function RawBits(s: seq<Byte>, bit_off: nat, bit_len: nat): nat
    requires bit_off / 8 <= |s|
  {
    Field(LE(Window(s, bit_off / 8)), bit_off % 8, bit_len)
  }

  function ReadValue(t: CType, s: seq<Byte>, bit_off: nat, bit_len: nat): int
    requires bit_off / 8 <= |s|
  {
    var bits := RawBits(s, bit_off, bit_len);
    Cast(t, if t.I8? && 0 < bit_len < 64 then Extended(64, bit_len, bits) else bits)
  }

  class COMService {
    const settings: map<string, Info>
    const m_buffer: array<Byte>

    constructor (settings: map<string, Info>, n: nat)
      ensures this.settings == settings && m_buffer.Length == n && fresh(m_buffer)
      ensures forall i :: 0 <= i < n ==> m_buffer[i] == 0
    {
      this.settings := settings;
      m_buffer := new Byte[n](_ => 0);
    }

    method Extract64(byte_off: nat) returns (v: nat)
      requires byte_off <= m_buffer.Length
      ensures v == LE(Window(m_buffer[..], byte_off))
      ensures v < Pow2(64)
    {
      v := 0;
      ghost var w := Window(m_buffer[..], byte_off);
      LEBound(w);
      Pow2Mono(8 * |w|, 64);
      if byte_off + 8 <= m_buffer.Length {
        v := LE(m_buffer[byte_off..byte_off + 8]);  // memcpy on a little-endian host
        assert w == m_buffer[byte_off..byte_off + 8];
      } else {
        var n := m_buffer.Length - byte_off;
        assert w == m_buffer[byte_off..byte_off + n];
        for i := 0 to n
          invariant v == LE(m_buffer[byte_off..byte_off + i])
        {
          CollectStep(m_buffer[..], byte_off, i);
          v := Or(v, Shl(64, m_buffer[byte_off + i], 8 * i));
        }
      }
    }

    method Read(t: CType, bit_off: nat, bit_len: nat) returns (r: int)
      requires bit_off / 8 <= m_buffer.Length
      ensures r == ReadValue(t, m_buffer[..], bit_off, bit_len)
    {
      var byte_off := bit_off / 8;
      var mask := MaskOf(bit_len);
      var window := Extract64(byte_off);
      var bits := And(Shr(window, bit_off % 8), mask);
      MaskedBits(window, bit_off % 8, bit_len);
      if t.I8? {
        if bit_len > 0 && bit_len < 64 {
          bits := Extended(64, bit_len, bits);
        }
      }
      return Cast(t, bits);
    }

    /** A getter: look the signal up, read its field. */
    method Get(t: CType, key: string) returns (r: Result<int, Error>)
      requires forall k :: k in settings ==> Fits(m_buffer.Length, settings[k])
      ensures r.Ok? <==> key in settings
      ensures key in settings && settings[key].length <= Width(t) ==>
                r == Ok(Decode(t.I8?, LE(m_buffer[..]), settings[key]))
    {
      var found := Lookup(settings, key);
      if found.Err? { return Err(found.error); }
      var v := Read(t, found.value.start, found.value.length);
      if found.value.length <= Width(t) {
        ReadDecodes(t, m_buffer[..], found.value);
      }
      return Ok(v);
    }

    /** The worker's critical section. */
    method Publish(tmpbuf: seq<Byte>)
      requires |tmpbuf| == m_buffer.Length
      modifies m_buffer
      ensures m_buffer[..] == tmpbuf
    {
      forall i | 0 <= i < m_buffer.Length { m_buffer[i] := tmpbuf[i]; }
    }

    method ClearBuffer()
      modifies m_buffer
      ensures LE(m_buffer[..]) == 0 && forall i :: 0 <= i < m_buffer.Length ==> m_buffer[i] == 0
    {
      for i := 0 to m_buffer.Length
        invariant forall j :: 0 <= j < i ==> m_buffer[j] == 0
      {
        m_buffer[i] := 0;
      }
      AllZero(m_buffer[..]);
    }
  }

  lemma CollectStep(s: seq<Byte>, off: nat, i: nat)
    requires off + i < |s| && i < 8
    ensures Or(LE(s[off..off + i]), Shl(64, s[off + i], 8 * i)) == LE(s[off..off + i + 1])
  {
    hide Or, Shl, Scale, Pow2;
    var low, b := s[off..off + i], s[off + i];
    assert s[off..off + i + 1] == low + [b];
    LEAppend(low, [b]);
    assert LE([b]) == b by { assert [b][1..] == []; }
    LEBound(low);
    Pow2Values();
    ShlExact(64, b, 8 * i, 8);
    OrAdds(b, LE(low), 8 * i);
  }

  lemma OneShifted(k: nat, w: nat)
    requires k < w
    ensures Shl(w, 1, k) == Pow2(k)
  {
    Pow2Values();
    ScaleUnit(k);
    ShlExact(w, 1, k, 1);
  }

  lemma MaskedBits(window: nat, r: nat, len: nat)
    requires window < Pow2(64)
    ensures And(Shr(window, r), MaskOf(len)) == Field(window, r, len)
  {
    if len < 64 {
      OneShifted(len, 64);
      hide Shl, Shr, And, Wrap, Pow2;
      AndOnes(Shr(window, r), len);
    } else {
      AllMasked(window, r, len, 64);
    }
  }

  lemma AllMasked(window: nat, r: nat, len: nat, w: nat)
    requires window < Pow2(w) && w <= len
    ensures And(Shr(window, r), Not(w, 0)) == Field(window, r, len)
  {
    AndOnes(Shr(window, r), w);
    ShrBelow(window, r, w);
    Pow2Mono(w, len);
    WrapSmall(w, Shr(window, r));
    WrapSmall(len, Shr(window, r));
  }

  lemma {:induction false} ShrBelow(x: nat, k: nat, w: nat)
    requires x < Pow2(w)
    ensures Shr(x, k) < Pow2(w)
    decreases k
  {
    if k > 0 { ShrBelow(x / 2, k - 1, w); }
  }

  // ---- Sign extension ------------------------------------------------------

  lemma {:induction false} FlipTop(b: nat, k: nat)
    requires b < 2 * Pow2(k)
    ensures Xor(b, Pow2(k)) == if Pow2(k) <= b then b - Pow2(k) else b + Pow2(k)
    decreases k
  {
    if b > 0 && k > 0 {
      FlipTop(b / 2, k - 1);
      var p := Pow2(k - 1);
      assert Pow2(k) == 2 * p;
      hide Pow2;
      assert Xor(b, 2 * p) == 2 * Xor(b / 2, p) + b % 2;
    } else if b > 0 {
      assert b == 1 && Xor(1, 1) == 0;
    }
  }

  /** The xor/subtract trick yields the code of the signed value in a wider type,
      and the cast to a type of at least `len` bits recovers that value. */
  lemma SignExtension(w: nat, len: nat, b: nat)
    requires 0 < len < w && b < Pow2(len)
    ensures Extended(w, len, b) == Wrap(w, Centre(len, b))
    ensures len <= 8 <= w ==> Cast(I8, Extended(w, len, b)) == Centre(len, b)
  {
    ExtendedCode(w, len, b);
    if len <= 8 <= w { CastBack(w, len, b); }
  }

  lemma ExtendedCode(w: nat, len: nat, b: nat)
    requires 0 < len < w && b < Pow2(len)
    ensures Extended(w, len, b) == Wrap(w, Centre(len, b))
  {
    OneShifted(len - 1, w);
    Flipped(len, b);
  }

  lemma CastBack(w: nat, len: nat, b: nat)
    requires 0 < len <= 8 <= w && b < Pow2(len)
    ensures Cast(I8, Wrap(w, Centre(len, b))) == Centre(len, b)
  {
    WrapWrap(Centre(len, b), 8, w);
    CentreNarrow(len, b);
  }

  lemma Flipped(len: nat, b: nat)
    requires len > 0 && b < Pow2(len)
    ensures Xor(b, Pow2(len - 1)) - Pow2(len - 1) == Centre(len, b)
  {
    FlipTop(b, len - 1);
  }

  lemma CentreNarrow(len: nat, b: nat)
    requires 0 < len <= 8 && b < Pow2(len)
    ensures Centre(8, Wrap(8, Centre(len, b))) == Centre(len, b)
  {
    var v := Centre(len, b);
    Pow2Values();
    Pow2Mono(len, 8);
    Pow2Mono(len - 1, 7);
    WrapShift(8, v);
    if v >= 0 { WrapSmall(8, v); } else { WrapSmall(8, v + 256); }
  }

  // ---- Agreement with the server's word ------------------------------------

  lemma BitWindow(s: seq<Byte>, off: nat, i: nat)
    requires off <= |s|
    ensures Bit(LE(Window(s, off)), i) == (i < 64 && Bit(LE(s), 8 * off + i))
  {
    assert LE([]) == 0;
    hide LE, Bit, Scale, Pow2;
    var w := Window(s, off);
    var rest := s[off + |w|..];
    assert s == s[..off] + s[off..] && s[off..] == w + rest;
    LEAppend(s[..off], s[off..]);
    LEAppend(w, rest);
    LEBound(s[..off]);
    LEBound(w);
    BitSum(LE(s[off..]), LE(s[..off]), 8 * off, 8 * off + i);
    BitSum(LE(rest), LE(w), 8 * |w|, i);
    BitBelow(LE(w), 8 * |w|, i);
    if i < 64 && |w| < 8 { assert rest == []; if i >= 8 * |w| { BitZero(i - 8 * |w|); } }
  }

  /** The client's raw bits are the field of the server's word as long as the
      field does not run past the eighth byte of the window. */
  lemma WindowAgrees(s: seq<Byte>, start: nat, len: nat)
    requires start / 8 <= |s| && start % 8 + len <= 64
    ensures RawBits(s, start, len) == Field(LE(s), start, len)
  {
    hide LE, Field, Window;
    var off, r := start / 8, start % 8;
    assert start == 8 * off + r && RawBits(s, start, len) == Field(LE(Window(s, off)), r, len);
    WindowField(s, off, r, len);
  }

  lemma WindowField(s: seq<Byte>, off: nat, r: nat, len: nat)
    requires off <= |s| && r + len <= 64
    ensures Field(LE(Window(s, off)), r, len) == Field(LE(s), 8 * off + r, len)
  {
    hide LE, Field, Window, Bit;
    var w := LE(Window(s, off));
    var x := LE(s);
    forall i: nat ensures Bit(Field(w, r, len), i) == Bit(Field(x, 8 * off + r, len), i) {
      FieldBits(w, r, x, 8 * off + r, len, i) by {
        if i < len { BitWindow(s, off, r + i); }
      }
    }
    Extensional(Field(w, r, len), Field(x, 8 * off + r, len));
  }

  lemma FieldBits(w: nat, a: nat, x: nat, b: nat, len: nat, i: nat)
    requires i < len ==> Bit(w, a + i) == Bit(x, b + i)
    ensures Bit(Field(w, a, len), i) == Bit(Field(x, b, len), i)
  {
    BitField(w, a, len, i);
    BitField(x, b, len, i);
  }

  /** An entry that passes the assertion of `build_map` without its sum wrapping
      keeps every access in bounds: the first byte exists, and the window holds
      every byte of a field that does not run past its eighth byte. */
  lemma GuardSuffices(s: seq<Byte>, f: Info)
    requires |s| < 0x2000_0000 && Guard(|s|, f) && f.length >= 1
    requires f.start + f.length + 7 < 0x1_0000_0000 && f.start % 8 + f.length <= 64
    ensures f.start / 8 < |s|
    ensures f.start % 8 + f.length <= 8 * |Window(s, f.start / 8)| <= 64
    ensures RawBits(s, f.start, f.length) == Field(LE(s), f.start, f.length)
  {
    GuardExact(|s|, f);
    WindowAgrees(s, f.start, f.length);
  }

  ghost predicate AgreesOnAll(n: nat, start: nat, len: nat)
    requires start / 8 <= n
  {
    forall s: seq<Byte> :: |s| == n ==> RawBits(s, start, len) == Field(LE(s), start, len)
  }

  /** For fields inside the buffer that condition is also necessary. */
  lemma AgreementExact(n: nat, start: nat, len: nat)
    requires len > 0 && start + len <= 8 * n
    ensures AgreesOnAll(n, start, len) <==> start % 8 + len <= 64
  {
    if start % 8 + len <= 64 {
      forall s: seq<Byte> | |s| == n ensures RawBits(s, start, len) == Field(LE(s), start, len) {
        WindowAgrees(s, start, len);
      }
    } else {
      var s: seq<Byte> := seq(n, i => 255);
      var lost := 64 - start % 8;
      Saturated(s, start + lost);
      BitField(LE(s), start, len, lost);
      BitField(LE(Window(s, start / 8)), start % 8, len, lost);
      BitWindow(s, start / 8, 64);
      assert RawBits(s, start, len) != Field(LE(s), start, len);
    }
  }

  lemma {:induction false} Saturated(s: seq<Byte>, i: nat)
    requires forall j :: 0 <= j < |s| ==> s[j] == 255
    requires i < 8 * |s|
    ensures Bit(LE(s), i)
  {
    AllOnes(s);
    BitOnes(8 * |s|, i);
  }

  lemma {:induction false} AllOnes(s: seq<Byte>)
    requires forall j :: 0 <= j < |s| ==> s[j] == 255
    ensures LE(s) == Pow2(8 * |s|) - 1
  {
    if s != [] {
      AllOnes(s[1..]);
      ByteStep(0, 8 * |s[1..]|);
    }
  }

  /** What the client reads is the field of the word the server packed, for every
      signal no wider than the getter's type. */
  lemma ReadDecodes(t: CType, s: seq<Byte>, f: Info)
    requires Fits(|s|, f) && f.length <= Width(t)
    ensures ReadValue(t, s, f.start, f.length) == Decode(t.I8?, LE(s), f)
  {
    WindowAgrees(s, f.start, f.length);
    var b := Field(LE(s), f.start, f.length);
    Pow2Values();
    Pow2Mono(f.length, Width(t));
    if t.I8? && f.length > 0 {
      SignExtension(64, f.length, b);
    } else {
      WrapSmall(8, b);
    }
  }

  /** A field wider than the type, up to the end of the window: the type's low bits. */
  lemma WideReads(s: seq<Byte>, f: Info)
    requires Fits(|s|, f) && 8 <= f.length && f.start % 8 + f.length <= 64
    ensures ReadValue(U8, s, f.start, f.length) == Wrap(8, Field(LE(s), f.start, f.length))
    ensures ReadValue(I8, s, f.start, f.length) == Centre(8, Wrap(8, Field(LE(s), f.start, f.length)))
  {
    WindowAgrees(s, f.start, f.length);
    var b := Field(LE(s), f.start, f.length);
    if f.length < 64 {
      ExtendedCode(64, f.length, b);
      WrapWrap(Centre(f.length, b), 8, 64);
      LowBitsOf(f.length, b);
    }
  }

  lemma LowBitsOf(len: nat, b: nat)
    requires 8 <= len && b < Pow2(len)
    ensures Wrap(8, Centre(len, b)) == Wrap(8, b)
  {
    hide Wrap, Pow2;
    WrapShift(len, b - Pow2(len));
    WrapWrap(b - Pow2(len), 8, len);
    WrapSmall(len, b);
  }

  /** Server insert, client read: the value comes back, reduced to the field. */
  lemma EndToEndRoundTrip(t: CType, s: seq<Byte>, f: Info, val: int, after: seq<Byte>)
    requires Encodable(|s|, f) && f.length <= Width(t) && |after| == |s|
    requires LE(after) == Put(LE(s), f.start, f.length, Pattern(f, val))
    ensures var r := ReadValue(t, after, f.start, f.length);
            && Representable(t.I8?, f.length, r)
            && Wrap(f.length, r) == Wrap(f.length, val)
            && (r == val <==> Representable(t.I8?, f.length, val))
  {
    ReadDecodes(t, after, f);
    RoundTrip(t.I8?, f, LE(s), val);
  }
}
