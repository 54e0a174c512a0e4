/** The layout table both programs share (shared/setting.h). */
module Setting {
  import opened Bits
  import opened Wrappers

  datatype Error = AssertionFailed(entry: nat) | OutOfRange(key: string)

  type UInt32 = x: int | 0 <= x < 0x1_0000_0000
  type Int32 = x: int | -0x8000_0000 <= x < 0x8000_0000

  datatype Info = Info(length: UInt32, start: UInt32, min: Int32, max: Int32)

  datatype Entry = Entry(info: Info, key: string)

  const SBUFLEN: nat := 3

  const SPEED := Info(8, 0, 0, 240)
  const TEMPERATURE := Info(7, 8, -60, 60)
  const BATTERY_LEVEL := Info(7, 15, 0, 100)
  const LEFT_LIGHT := Info(1, 22, 0, 1)
  const RIGHT_LIGHT := Info(1, 23, 0, 1)

  const SIGNALS: seq<Entry> := [
    Entry(SPEED, "speed"),
    Entry(TEMPERATURE, "temperature"),
    Entry(BATTERY_LEVEL, "battery_level"),
    Entry(LEFT_LIGHT, "left_light"),
    Entry(RIGHT_LIGHT, "right_light")
  ]

  /** The entry lies inside a buffer of `n` bytes. */
  predicate Fits(n: nat, info: Info) {
    info.start + info.length <= 8 * n
  }

  /** The assertion of `build_map`, in its 32-bit unsigned arithmetic: round the
      end of the field up to a whole byte and compare with the buffer length. */
  predicate Guard(n: nat, info: Info) {
    Pow32();
    n >= Shr(And(Wrap(32, info.start + info.length + 7), Not(32, 7)), 3)
  }

  lemma Pow32()
    ensures Pow2(3) == 8 && Pow2(32) == 0x1_0000_0000
  {
    Pow2Values();
    ByteStep(0, 24);
    ByteStep(0, 16);
    ByteStep(0, 8);
  }

  lemma RoundedDown(x: nat)
    requires x < Pow2(32)
    ensures 7 < Pow2(32) && Shr(And(x, Not(32, 7)), 3) == x / 8
  {
    Pow32();
    var a := And(x, Not(32, 7));
    forall i: nat ensures Bit(Shr(a, 3), i) == Bit(Shr(x, 3), i) {
      BitShr(a, 3, i);
      BitShr(x, 3, i);
      BitAnd(x, Not(32, 7), i + 3);
      BitNot(32, 7, i + 3);
      BitBelow(7, 3, i + 3);
      BitBelow(x, 32, i + 3);
    }
    Extensional(Shr(a, 3), Shr(x, 3));
    TwoSteps(x, 1);
  }

  /** The assertion agrees with the entry fitting the buffer exactly unless the
      rounding sum wraps around 2^32 to a number the buffer has room for. */
  lemma GuardExact(n: nat, info: Info)
    requires n < 0x2000_0000
    ensures (Guard(n, info) <==> Fits(n, info)) <==>
            (info.start + info.length + 7 < 0x1_0000_0000 ||
             Wrap(32, info.start + info.length + 7) / 8 > n)
  {
    hide Wrap, Pow2, And, Not, Shr;
    Pow32();
    var sum := info.start + info.length + 7;
    RoundedDown(Wrap(32, sum));
    if sum < 0x1_0000_0000 { WrapSmall(32, sum); }
  }

  /** A one-bit entry far outside every buffer that the assertion lets through,
      whatever the buffer length. */
  lemma GuardWraps(n: nat, info: Info)
    requires n < 0x2000_0000 && info.start == 0xFFFF_FFF8 && info.length == 1
    ensures Guard(n, info) && !Fits(n, info)
  {
    hide Wrap, Pow2, And, Not, Shr;
    Pow32();
    var sum := info.start + info.length + 7;
    RoundedDown(Wrap(32, sum));
    WrapShift(32, sum - 0x1_0000_0000);
    WrapSmall(32, sum - 0x1_0000_0000);
  }

  /** `m` is the map that results from storing the entries one after the other. */
  ghost predicate LastEntryWins(table: seq<Entry>, m: map<string, Info>) {
    && (forall i :: 0 <= i < |table| ==> table[i].key in m)
    && (forall key :: key in m ==> exists i :: StoredLast(table, i, key) && m[key] == table[i].info)
  }

  ghost predicate StoredLast(table: seq<Entry>, i: int, key: string) {
    && 0 <= i < |table| && table[i].key == key
    && forall j :: i < j < |table| ==> table[j].key != key
  }

  method BuildMap(n: nat, table: seq<Entry>) returns (r: Result<map<string, Info>, Error>)
    ensures r.Ok? <==> forall i :: 0 <= i < |table| ==> Guard(n, table[i].info)
    ensures r.Ok? ==> LastEntryWins(table, r.value)
    ensures r.Err? ==> r.error.AssertionFailed? && r.error.entry < |table| && !Guard(n, table[r.error.entry].info)
                       && forall j :: 0 <= j < r.error.entry ==> Guard(n, table[j].info)
  {
    hide Guard;
    var m: map<string, Info> := map[];
    for i := 0 to |table|
      invariant forall j :: 0 <= j < i ==> Guard(n, table[j].info)
      invariant LastEntryWins(table[..i], m)
    {
      if !Guard(n, table[i].info) {
        return Err(AssertionFailed(i));
      }
      ghost var before := m;
      m := m[table[i].key := table[i].info];
      StoreOne(table[..i], table[i], before);
      assert table[..i] + [table[i]] == table[..i + 1];
    }
    assert table[..|table|] == table;
    return Ok(m);
  }

  lemma StoreOne(table: seq<Entry>, e: Entry, m: map<string, Info>)
    requires LastEntryWins(table, m)
    ensures LastEntryWins(table + [e], m[e.key := e.info])
  {
    var longer, m' := table + [e], m[e.key := e.info];
    forall key | key in m' ensures exists i :: StoredLast(longer, i, key) && m'[key] == longer[i].info {
      if key == e.key {
        assert StoredLast(longer, |table|, key);
      } else {
        var i :| StoredLast(table, i, key) && m[key] == table[i].info;
        assert StoredLast(longer, i, key);
      }
    }
  }

  /** `map::at`. */
  function Lookup(m: map<string, Info>, key: string): (r: Result<Info, Error>)
    ensures r.Ok? <==> key in m
    ensures match r case Ok(info) => m[key] == info case Err(e) => e == OutOfRange(key)
  {
    if key in m then Ok(m[key]) else Err(OutOfRange(key))
  }
}
