/** The server's GUI (desktop/server/src/window.cpp): sliders and check boxes
    that push their values into the buffer. */
module ServerWindow {
  import opened Bits
  import opened Setting
  import opened Layout
  import opened ServerCom

  // ---- What a history of inserts shows -------------------------------------

  /** The value of a signal after the inserts of `log`. */
  function Latest(log: seq<Write>, f: Info): int {
    ValueOf(SignedSignal(f), f.length, LastBits(0, log, f))
  }

  ghost predicate Declared(log: seq<Write>) {
    forall i :: 0 <= i < |log| ==> log[i].info in LAYOUT && log[i].info.min <= log[i].val <= log[i].info.max
  }

  /** A declared value is shown as written, and only its own signal changes. */
  lemma LatestStep(log: seq<Write>, x: Write, f: Info)
    requires x.info in LAYOUT && x.info.min <= x.val <= x.info.max && f in LAYOUT
    ensures Latest(log + [x], f) == if x.info == f then x.val else Latest(log, f)
  {
    assert (log + [x])[..|log|] == log;
    TableTiles();
    if x.info == f { RoundTripLast(f, x.val); }
  }

  lemma RoundTripLast(f: Info, val: int)
    requires f.length > 0 && Representable(SignedSignal(f), f.length, val)
    ensures ValueOf(SignedSignal(f), f.length, Pattern(f, val)) == val
  {
    RoundTrip(SignedSignal(f), f, 0, val);
    PutField(0, f, Pattern(f, val), f);
  }

  lemma LatestInitially(f: Info)
    ensures Latest([], f) == 0
  {
    ShrZero(f.start);
    WrapSmall(f.length, 0);
  }

  /** `Latest` is what decoding the packed word yields. */
  lemma LatestDecodes(log: seq<Write>, f: Info)
    requires Over(log, LAYOUT) && f in LAYOUT
    ensures Decode(SignedSignal(f), Apply(0, log), f) == Latest(log, f)
  {
    TableTiles();
    LastWriteWins(0, log, f, LAYOUT);
  }

  /** Every snapshot, also one taken in the middle of construction or between the
      two light inserts, decodes to values inside the declared ranges. */
  lemma {:induction false} RangeSafety(log: seq<Write>, k: nat, f: Info)
    requires Declared(log) && k <= |log| && f in LAYOUT
    ensures f.min <= Decode(SignedSignal(f), Apply(0, log[..k]), f) <= f.max
  {
    LatestDecodes(log[..k], f);
    if k == 0 {
      TableTiles();
      LatestInitially(f);
    } else {
      assert log[..k] == log[..k - 1] + [log[k - 1]];
      LatestStep(log[..k - 1], log[k - 1], f);
      RangeSafety(log, k - 1, f);
      LatestDecodes(log[..k - 1], f);
    }
  }

  /** Between the two inserts of `SetLightSignals` a snapshot holds the new left
      and the old right light. */
  lemma HalfUpdated(log: seq<Write>, left: bool, right: bool)
    ensures Latest(log + [Write(LEFT_LIGHT, FromBool(left))], LEFT_LIGHT) == FromBool(left)
    ensures Latest(log + [Write(LEFT_LIGHT, FromBool(left))], RIGHT_LIGHT) == Latest(log, RIGHT_LIGHT)
    ensures forall f :: f in LAYOUT ==>
              Latest(log + [Write(LEFT_LIGHT, FromBool(left)), Write(RIGHT_LIGHT, FromBool(right))], f) ==
              if f == LEFT_LIGHT then FromBool(left) else if f == RIGHT_LIGHT then FromBool(right) else Latest(log, f)
  {
    var l, r := Write(LEFT_LIGHT, FromBool(left)), Write(RIGHT_LIGHT, FromBool(right));
    LatestStep(log, l, LEFT_LIGHT);
    LatestStep(log, l, RIGHT_LIGHT);
    assert log + [l, r] == (log + [l]) + [r];
    forall f | f in LAYOUT
      ensures Latest(log + [l, r], f) ==
              if f == LEFT_LIGHT then FromBool(left) else if f == RIGHT_LIGHT then FromBool(right) else Latest(log, f)
    {
      LatestStep(log, l, f);
      LatestStep(log + [l], r, f);
    }
  }

  // ---- The window ----------------------------------------------------------

  function Clamp(value: int, min: int, max: int): (r: int)
    requires min <= max
    ensures min <= r <= max && (min <= value <= max ==> r == value)
  {
    if value < min then min else if value > max then max else value
  }

  datatype Box = LeftBox | RightBox | WarningBox

  class Window {
    const com: COMService
    var sld_speed: int
    var sld_temp: int
    var sld_bat: int
    var left: bool
    var right: bool
    var warning: bool
    var left_enabled: bool
    var right_enabled: bool

    ghost predicate Wired()
      reads this, com, com.m_buf
    {
      && com.Valid() && RealTable(com.settings) && com.m_buf.Length == SBUFLEN
      && Declared(com.log)
    }

    /** Settled: the buffer shows the widgets, and left and right exclude each other. */
    ghost predicate Valid()
      reads this, com, com.m_buf
    {
      && Wired()
      && SPEED.min <= sld_speed <= SPEED.max && TEMPERATURE.min <= sld_temp <= TEMPERATURE.max
      && BATTERY_LEVEL.min <= sld_bat <= BATTERY_LEVEL.max
      && Latest(com.log, SPEED) == sld_speed && Latest(com.log, TEMPERATURE) == sld_temp
      && Latest(com.log, BATTERY_LEVEL) == sld_bat
      && Latest(com.log, LEFT_LIGHT) == FromBool(left || warning)
      && Latest(com.log, RIGHT_LIGHT) == FromBool(right || warning)
      && right_enabled == !left && left_enabled == !right && !(left && right)
    }

    /** Construction inserts the minima and the lights, in this order. */
    constructor (com: COMService)
      requires com.Valid() && RealTable(com.settings) && com.m_buf.Length == SBUFLEN && com.log == []
      modifies com, com.m_buf
      ensures Valid() && this.com == com
      ensures com.log == [Write(BATTERY_LEVEL, BATTERY_LEVEL.min), Write(TEMPERATURE, TEMPERATURE.min),
                          Write(SPEED, SPEED.min), Write(LEFT_LIGHT, 0), Write(RIGHT_LIGHT, 0)]
    {
      this.com := com;
      sld_speed, sld_temp, sld_bat := SPEED.min, TEMPERATURE.min, BATTERY_LEVEL.min;
      left, right, warning := false, false, false;
      left_enabled, right_enabled := true, true;
      new;
      SetupSliders();
      UpdateLights();
    }

    method SetupSliders()
      requires com.Valid() && RealTable(com.settings) && com.m_buf.Length == SBUFLEN && com.log == []
      modifies com, com.m_buf
      ensures Wired()
      ensures com.log == [Write(BATTERY_LEVEL, BATTERY_LEVEL.min), Write(TEMPERATURE, TEMPERATURE.min),
                          Write(SPEED, SPEED.min)]
      ensures Latest(com.log, SPEED) == SPEED.min && Latest(com.log, TEMPERATURE) == TEMPERATURE.min
      ensures Latest(com.log, BATTERY_LEVEL) == BATTERY_LEVEL.min
    {
      hide Latest, Declared, RealTable, COMService.Valid;
      com.SetBattery(BATTERY_LEVEL.min);
      com.SetTemp(TEMPERATURE.min);
      com.SetSpeed(SPEED.min);
      Minima();
      assert com.log == [Write(BATTERY_LEVEL, BATTERY_LEVEL.min)] + [Write(TEMPERATURE, TEMPERATURE.min)]
                        + [Write(SPEED, SPEED.min)];
    }

    method UpdateLights()
      requires Wired()
      modifies com, com.m_buf
      ensures Wired()
      ensures com.log == old(com.log) + [Write(LEFT_LIGHT, FromBool(left || warning)),
                                         Write(RIGHT_LIGHT, FromBool(right || warning))]
      ensures Latest(com.log, LEFT_LIGHT) == FromBool(left || warning)
      ensures Latest(com.log, RIGHT_LIGHT) == FromBool(right || warning)
      ensures Latest(com.log, SPEED) == Latest(old(com.log), SPEED)
      ensures Latest(com.log, TEMPERATURE) == Latest(old(com.log), TEMPERATURE)
      ensures Latest(com.log, BATTERY_LEVEL) == Latest(old(com.log), BATTERY_LEVEL)
    {
      var is_left_active := left || warning;
      var is_right_active := right || warning;
      HalfUpdated(com.log, is_left_active, is_right_active);
      com.SetLightSignals(is_left_active, is_right_active);
    }

    method MoveSpeed(value: int)
      requires Valid()
      modifies this`sld_speed, com, com.m_buf
      ensures Valid() && sld_speed == Clamp(value, SPEED.min, SPEED.max)
      ensures com.log == old(com.log) + if sld_speed == old(sld_speed) then [] else [Write(SPEED, sld_speed)]
    {
      hide Latest, Declared, RealTable, COMService.Valid;
      var v := Clamp(value, SPEED.min, SPEED.max);
      if v != sld_speed {
        sld_speed := v;
        Moved(com.log, Write(SPEED, v));
        com.SetSpeed(v);
      }
    }

    method MoveTemp(value: int)
      requires Valid()
      modifies this`sld_temp, com, com.m_buf
      ensures Valid() && sld_temp == Clamp(value, TEMPERATURE.min, TEMPERATURE.max)
      ensures com.log == old(com.log) + if sld_temp == old(sld_temp) then [] else [Write(TEMPERATURE, sld_temp)]
    {
      hide Latest, Declared, RealTable, COMService.Valid;
      var v := Clamp(value, TEMPERATURE.min, TEMPERATURE.max);
      if v != sld_temp {
        sld_temp := v;
        Moved(com.log, Write(TEMPERATURE, v));
        com.SetTemp(v);
      }
    }

    method MoveBattery(value: int)
      requires Valid()
      modifies this`sld_bat, com, com.m_buf
      ensures Valid() && sld_bat == Clamp(value, BATTERY_LEVEL.min, BATTERY_LEVEL.max)
      ensures com.log == old(com.log) + if sld_bat == old(sld_bat) then [] else [Write(BATTERY_LEVEL, sld_bat)]
    {
      hide Latest, Declared, RealTable, COMService.Valid;
      var v := Clamp(value, BATTERY_LEVEL.min, BATTERY_LEVEL.max);
      if v != sld_bat {
        sld_bat := v;
        Moved(com.log, Write(BATTERY_LEVEL, v));
        com.SetBattery(v);
      }
    }

    /** A click: it has an effect on an enabled box only. */
    method Toggle(box: Box)
      requires Valid()
      modifies this`left, this`right, this`warning, this`left_enabled, this`right_enabled, com, com.m_buf
      ensures Valid()
      ensures left == if box.LeftBox? && !old(right) then !old(left) else old(left)
      ensures right == if box.RightBox? && !old(left) then !old(right) else old(right)
      ensures warning == if box.WarningBox? then !old(warning) else old(warning)
      ensures com.log == old(com.log) +
              if left == old(left) && right == old(right) && warning == old(warning) then []
              else [Write(LEFT_LIGHT, FromBool(left || warning)), Write(RIGHT_LIGHT, FromBool(right || warning))]
    {
      hide Latest, Declared, RealTable, COMService.Valid;
      match box
      case LeftBox =>
        if left_enabled {
          left := !left;
          right_enabled := !left;
          UpdateLights();
        }
      case RightBox =>
        if right_enabled {
          right := !right;
          left_enabled := !right;
          UpdateLights();
        }
      case WarningBox =>
        warning := !warning;
        UpdateLights();
    }
  }

  lemma Moved(log: seq<Write>, x: Write)
    requires Declared(log) && x.info in LAYOUT && x.info.min <= x.val <= x.info.max
    ensures Declared(log + [x])
    ensures forall f :: f in LAYOUT ==> Latest(log + [x], f) == if x.info == f then x.val else Latest(log, f)
  {
    forall f | f in LAYOUT ensures Latest(log + [x], f) == if x.info == f then x.val else Latest(log, f) {
      LatestStep(log, x, f);
    }
  }

  lemma Minima()
    ensures var a := [Write(BATTERY_LEVEL, BATTERY_LEVEL.min)];
            var b := a + [Write(TEMPERATURE, TEMPERATURE.min)];
            var c := b + [Write(SPEED, SPEED.min)];
            && Declared(c)
            && Latest(c, SPEED) == SPEED.min && Latest(c, TEMPERATURE) == TEMPERATURE.min
            && Latest(c, BATTERY_LEVEL) == BATTERY_LEVEL.min
  {
    var a := [Write(BATTERY_LEVEL, BATTERY_LEVEL.min)];
    var b := a + [Write(TEMPERATURE, TEMPERATURE.min)];
    assert [] + a == a;
    Moved([], a[0]);
    Moved(a, Write(TEMPERATURE, TEMPERATURE.min));
    Moved(b, Write(SPEED, SPEED.min));
  }
}
