/** Unsigned machine words as natural numbers, their bitwise operations, and
    the bit fields and little-endian byte strings the two codecs work on. */
module Bits {

  type Byte = x: int | 0 <= x < 256

  function Pow2(n: nat): (p: nat)
    ensures 1 <= p
  {
    if n == 0 then 1 else 2 * Pow2(n - 1)
  }

  /** Bit `i` of `x`, counting from the least significant. */
  predicate Bit(x: nat, i: nat) {
    if i == 0 then x % 2 == 1 else Bit(x / 2, i - 1)
  }

  function And(x: nat, y: nat): nat {
    if x == 0 || y == 0 then 0
    else 2 * And(x / 2, y / 2) + (if x % 2 == 1 && y % 2 == 1 then 1 else 0)
  }

  function Or(x: nat, y: nat): nat {
    if x == 0 then y else if y == 0 then x
    else 2 * Or(x / 2, y / 2) + (if x % 2 == 1 || y % 2 == 1 then 1 else 0)
  }

  function Xor(x: nat, y: nat): nat {
    if x == 0 then y else if y == 0 then x
    else 2 * Xor(x / 2, y / 2) + (if x % 2 != y % 2 then 1 else 0)
  }

  /** Conversion of any integer to an unsigned type of `w` bits: x modulo 2^w. */
  function Wrap(w: nat, x: int): (r: nat)
    ensures r < Pow2(w)
  {
    if w == 0 then 0 else 2 * Wrap(w - 1, x / 2) + x % 2
  }

  /** x times 2^k, without a bound. */
  function Scale(x: nat, k: nat): nat {
    if k == 0 then x else 2 * Scale(x, k - 1)
  }

  /** Right shift. */
  function Shr(x: nat, k: nat): nat {
    if k == 0 then x else Shr(x / 2, k - 1)
  }

  /** Left shift in a type of `w` bits; the bits pushed out are lost. */
  function Shl(w: nat, x: nat, k: nat): (r: nat)
    ensures r < Pow2(w)
  {
    Wrap(w, Scale(x, k))
  }

  /** Complement in a type of `w` bits. */
  function Not(w: nat, x: nat): (r: nat)
    requires x < Pow2(w)
    ensures r < Pow2(w)
  {
    Pow2(w) - 1 - x
  }

  /** The `len` bits of `w` from bit `start` upwards, as a number. */
  function Field(w: nat, start: nat, len: nat): (r: nat)
    ensures r < Pow2(len)
  {
    Wrap(len, Shr(w, start))
  }

  /** `w` with the `len` bits from `start` upwards replaced by `v`: the untouched
      high part, the new field, the untouched low part. */
  function Put(w: nat, start: nat, len: nat, v: nat): nat {
    Scale(Shr(w, start + len), start + len) + Scale(v, start) + Wrap(start, w)
  }

  /** The number whose bytes, least significant first, are `s`. */
  function LE(s: seq<Byte>): nat {
    if s == [] then 0 else s[0] + 256 * LE(s[1..])
  }

  /** The `n` low bytes of `w`, least significant first. */
  function ToBytes(w: nat, n: nat): (s: seq<Byte>)
    ensures |s| == n
  {
    if n == 0 then [] else [w % 256] + ToBytes(w / 256, n - 1)
  }

  // ---- Powers of two -------------------------------------------------------

  lemma {:induction false} Pow2Mono(a: nat, b: nat)
    requires a <= b
    ensures Pow2(a) <= Pow2(b)
    decreases b - a
  {
    if a < b { Pow2Mono(a + 1, b); }
  }

  lemma Pow2Values()
    ensures Pow2(0) == 1 && Pow2(1) == 2 && Pow2(2) == 4 && Pow2(3) == 8 && Pow2(4) == 16
    ensures Pow2(5) == 32 && Pow2(6) == 64 && Pow2(7) == 128 && Pow2(8) == 256
  {
    assert Pow2(2) == 2 * Pow2(1) && Pow2(4) == 2 * Pow2(3) && Pow2(6) == 2 * Pow2(5) && Pow2(8) == 2 * Pow2(7);
  }

  lemma TwoSteps(x: nat, k: nat)
    ensures Pow2(2 + k) == 4 * Pow2(k) && Scale(x, 2 + k) == 4 * Scale(x, k)
    ensures Wrap(2 + k, x) == 4 * Wrap(k, x / 4) + x % 4 && Shr(x, 2 + k) == Shr(x / 4, k)
  {
    assert Pow2(1 + k) == 2 * Pow2(k) && Scale(x, 1 + k) == 2 * Scale(x, k);
    assert Wrap(1 + k, x / 2) == 2 * Wrap(k, x / 4) + x / 2 % 2 && Shr(x / 2, 1 + k) == Shr(x / 4, k);
  }

  /** One byte more. */
  lemma ByteStep(x: nat, k: nat)
    ensures Pow2(8 + k) == 256 * Pow2(k)
    ensures Scale(x, 8 + k) == 256 * Scale(x, k)
  {
    TwoSteps(x, k);
    TwoSteps(x, 2 + k);
    TwoSteps(x, 4 + k);
    TwoSteps(x, 6 + k);
  }

  /** A number is its part above bit `k` and its part below. */
  lemma {:induction false} SplitAt(x: nat, k: nat)
    ensures x == Scale(Shr(x, k), k) + Wrap(k, x)
    decreases k
  {
    if k > 0 { SplitAt(x / 2, k - 1); }
  }

  lemma LowestByte(x: nat)
    ensures Wrap(8, x) == x % 256 && Shr(x, 8) == x / 256
  {
    SplitAt(x, 8);
    ByteStep(Shr(x, 8), 0);
    Pow2Values();
    hide Wrap, Shr, Scale, Pow2;
  }

  // ---- Reduction modulo 2^k ------------------------------------------------

  lemma {:induction false} WrapSmall(k: nat, x: nat)
    requires x < Pow2(k)
    ensures Wrap(k, x) == x
  {
    if k > 0 { WrapSmall(k - 1, x / 2); }
  }

  lemma {:induction false} WrapShift(k: nat, x: int)
    ensures Wrap(k, x + Pow2(k)) == Wrap(k, x)
  {
    if k > 0 {
      assert (x + Pow2(k)) / 2 == x / 2 + Pow2(k - 1);
      WrapShift(k - 1, x / 2);
    }
  }

  /** Reducing to `b` bits first does not matter when reducing to fewer. */
  lemma {:induction false} WrapWrap(x: int, a: nat, b: nat)
    requires a <= b
    ensures Wrap(a, Wrap(b, x)) == Wrap(a, x)
    decreases a
  {
    if a > 0 { WrapWrap(x / 2, a - 1, b - 1); }
  }

  /** `Wrap(k, x)` differs from `x` by a multiple of 2^k: it is the remainder. */
  lemma {:induction false} WrapQuotient(k: nat, x: int) returns (q: int)
    ensures x == q * Pow2(k) + Wrap(k, x)
  {
    if k == 0 { q := x; }
    else {
      q := WrapQuotient(k - 1, x / 2);
      Twice(q, Pow2(k - 1));
    }
  }

  lemma Twice(q: int, p: int)
    ensures q * (2 * p) == 2 * (q * p)
  {
  }

  // ---- Bits ----------------------------------------------------------------

  lemma {:induction false} BitZero(i: nat)
    ensures !Bit(0, i)
  {
    if i > 0 { BitZero(i - 1); }
  }

  /** Two numbers with the same bits are equal. */
  lemma {:induction false} Extensional(x: nat, y: nat)
    requires forall i: nat :: Bit(x, i) == Bit(y, i)
    ensures x == y
    decreases x + y
  {
    if x + y > 0 {
      assert Bit(x, 0) == Bit(y, 0);
      forall i: nat ensures Bit(x / 2, i) == Bit(y / 2, i) {
        assert Bit(x, i + 1) == Bit(y, i + 1);
      }
      Extensional(x / 2, y / 2);
    }
  }

  lemma {:induction false} BitAnd(x: nat, y: nat, i: nat)
    ensures Bit(And(x, y), i) == (Bit(x, i) && Bit(y, i))
  {
    if x == 0 || y == 0 { BitZero(i); }
    else if i > 0 { BitAnd(x / 2, y / 2, i - 1); }
  }

  lemma {:induction false} BitOr(x: nat, y: nat, i: nat)
    ensures Bit(Or(x, y), i) == (Bit(x, i) || Bit(y, i))
  {
    if x == 0 || y == 0 { BitZero(i); }
    else if i > 0 { BitOr(x / 2, y / 2, i - 1); }
  }

  lemma {:induction false} BitShr(x: nat, k: nat, i: nat)
    ensures Bit(Shr(x, k), i) == Bit(x, i + k)
    decreases k
  {
    if k > 0 { BitShr(x / 2, k - 1, i); }
  }

  lemma {:induction false} BitWrap(k: nat, x: nat, i: nat)
    ensures Bit(Wrap(k, x), i) == (i < k && Bit(x, i))
  {
    if k == 0 { BitZero(i); }
    else {
      assert Wrap(k, x) % 2 == x % 2 && Wrap(k, x) / 2 == Wrap(k - 1, x / 2);
      if i > 0 { BitWrap(k - 1, x / 2, i - 1); }
    }
  }

  lemma {:induction false} BitScale(x: nat, k: nat, i: nat)
    ensures Bit(Scale(x, k), i) == (k <= i && Bit(x, i - k))
    decreases k
  {
    if k > 0 && i > 0 { BitScale(x, k - 1, i - 1); }
  }

  /** A multiple of 2^k and a number below 2^k have no bit in common: `|` adds them. */
  lemma {:induction false} OrAdds(hi: nat, lo: nat, k: nat)
    requires lo < Pow2(k)
    ensures Or(Scale(hi, k), lo) == Scale(hi, k) + lo == Or(lo, Scale(hi, k))
    decreases k
  {
    if k > 0 { OrAdds(hi, lo / 2, k - 1); }
  }

  lemma BitSum(hi: nat, lo: nat, k: nat, i: nat)
    requires lo < Pow2(k)
    ensures Bit(Scale(hi, k) + lo, i) == if i < k then Bit(lo, i) else Bit(hi, i - k)
  {
    OrAdds(hi, lo, k);
    BitOr(Scale(hi, k), lo, i);
    BitScale(hi, k, i);
    BitBelow(lo, k, i);
  }

  lemma BitBelow(x: nat, k: nat, i: nat)
    requires x < Pow2(k)
    ensures Bit(x, i) ==> i < k
  {
    WrapSmall(k, x);
    BitWrap(k, x, i);
  }

  lemma {:induction false} BitOnes(k: nat, i: nat)
    ensures Bit(Pow2(k) - 1, i) == (i < k)
    decreases k
  {
    if k == 0 { BitZero(i); }
    else if i > 0 {
      assert (Pow2(k) - 1) / 2 == Pow2(k - 1) - 1;
      BitOnes(k - 1, i - 1);
    }
  }

  lemma {:induction false} BitNot(w: nat, x: nat, i: nat)
    requires x < Pow2(w)
    ensures Bit(Not(w, x), i) == (i < w && !Bit(x, i))
    decreases w
  {
    if w == 0 { BitZero(i); }
    else if i > 0 {
      assert Not(w, x) / 2 == Not(w - 1, x / 2);
      BitNot(w - 1, x / 2, i - 1);
    }
  }

  lemma BitShl(w: nat, x: nat, k: nat, i: nat)
    ensures Bit(Shl(w, x, k), i) == (k <= i < w && Bit(x, i - k))
  {
    BitScale(x, k, i);
    BitWrap(w, Scale(x, k), i);
  }

  lemma {:induction false} ScaleBelow(x: nat, lo: nat, c: nat, k: nat)
    requires x < Pow2(c) && lo < Pow2(k)
    ensures Scale(x, k) + lo < Pow2(c + k)
    decreases k
  {
    if k > 0 { ScaleBelow(x, lo / 2, c, k - 1); }
  }

  lemma {:induction false} ScaleUnit(k: nat)
    ensures Scale(1, k) == Pow2(k) && Scale(0, k) == 0
  {
    if k > 0 { ScaleUnit(k - 1); }
  }

  /** A shift that pushes nothing out is multiplication. */
  lemma ShlExact(w: nat, x: nat, k: nat, c: nat)
    requires x < Pow2(c) && c + k <= w
    ensures Shl(w, x, k) == Scale(x, k) < Pow2(c + k)
  {
    ScaleBelow(x, 0, c, k);
    Pow2Mono(c + k, w);
    WrapSmall(w, Scale(x, k));
  }

  /** Masking with 2^k - 1 is reduction modulo 2^k. */
  lemma AndOnes(x: nat, k: nat)
    ensures And(x, Pow2(k) - 1) == Wrap(k, x)
  {
    forall i: nat ensures Bit(And(x, Pow2(k) - 1), i) == Bit(Wrap(k, x), i) {
      BitAnd(x, Pow2(k) - 1, i);
      BitOnes(k, i);
      BitWrap(k, x, i);
    }
    Extensional(And(x, Pow2(k) - 1), Wrap(k, x));
  }

  // ---- Fields --------------------------------------------------------------

  lemma BitField(w: nat, start: nat, len: nat, i: nat)
    ensures Bit(Field(w, start, len), i) == (i < len && Bit(w, start + i))
  {
    BitWrap(len, Shr(w, start), i);
    BitShr(w, start, i);
  }

  lemma BitPut(w: nat, start: nat, len: nat, v: nat, i: nat)
    requires v < Pow2(len)
    ensures Bit(Put(w, start, len, v), i) ==
            if start <= i < start + len then Bit(v, i - start) else Bit(w, i)
  {
    var lo, hi := Wrap(start, w), Shr(w, start + len);
    ScaleBelow(v, lo, len, start);
    BitSum(hi, Scale(v, start) + lo, start + len, i);
    BitSum(v, lo, start, i);
    BitWrap(start, w, i);
    if start + len <= i { BitShr(w, start + len, i - start - len); }
  }

  lemma PutBound(w: nat, start: nat, len: nat, v: nat, k: nat)
    requires v < Pow2(len) && start + len <= k && w < Pow2(k)
    ensures Put(w, start, len, v) < Pow2(k)
  {
    var x := Put(w, start, len, v);
    forall i: nat ensures Bit(Wrap(k, x), i) == Bit(x, i) {
      BitWrap(k, x, i);
      BitPut(w, start, len, v, i);
      BitBelow(w, k, i);
    }
    Extensional(Wrap(k, x), x);
  }

  // ---- Byte strings --------------------------------------------------------

  lemma {:induction false} LEBound(s: seq<Byte>)
    ensures LE(s) < Pow2(8 * |s|)
  {
    if s != [] {
      LEBound(s[1..]);
      ByteStep(0, 8 * |s[1..]|);
    }
  }

  lemma {:induction false} LEAppend(s: seq<Byte>, t: seq<Byte>)
    ensures LE(s + t) == Scale(LE(t), 8 * |s|) + LE(s)
  {
    if s == [] { assert s + t == t; }
    else {
      assert (s + t)[1..] == s[1..] + t;
      LEAppend(s[1..], t);
      ByteStep(LE(t), 8 * |s[1..]|);
    }
  }

  lemma {:induction false} AllZero(s: seq<Byte>)
    requires forall i :: 0 <= i < |s| ==> s[i] == 0
    ensures LE(s) == 0
  {
    if s != [] { AllZero(s[1..]); }
  }

  /** Every number below 256^n is its `n` bytes read back, and conversely. */
  lemma {:induction false} BytesRoundTrip(w: nat, n: nat)
    requires w < Pow2(8 * n)
    ensures LE(ToBytes(w, n)) == w
  {
    if n > 0 {
      ByteStep(w, 8 * (n - 1));
      BytesRoundTrip(w / 256, n - 1);
      assert ToBytes(w, n)[1..] == ToBytes(w / 256, n - 1);
    }
  }

  lemma {:induction false} WordRoundTrip(s: seq<Byte>)
    ensures ToBytes(LE(s), |s|) == s
  {
    if s != [] { WordRoundTrip(s[1..]); }
  }

  lemma {:induction false} ShrZero(k: nat)
    ensures Shr(0, k) == 0
  {
    if k > 0 { ShrZero(k - 1); }
  }

  lemma {:induction false} ShrShr(x: nat, a: nat, b: nat)
    ensures Shr(Shr(x, a), b) == Shr(x, a + b)
    decreases a
  {
    if a > 0 { ShrShr(x / 2, a - 1, b); }
  }

  lemma {:induction false} ByteAt(w: nat, n: nat, i: nat)
    requires i < n
    ensures ToBytes(w, n)[i] == Wrap(8, Shr(w, 8 * i))
  {
    LowestByte(w);
    if i > 0 {
      ByteAt(w / 256, n - 1, i - 1);
      ShrShr(w, 8, 8 * (i - 1));
    }
  }
}
