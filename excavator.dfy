/** The excavator profile, src/jdm.c: three hydraulic valve servos passed
    through with trims, whose openings drive the pump; two tracks mixed
    tank-style through ESC commands; a three-way auxiliary output and a
    sum-of-demands output; and a fan switched with hysteresis on the
    temperature sensor reading. */
module Excavator {
  import opened Mixing
  import Serial

  /** Servo trims of the bucket, lift arm and ripper channels. */
  const CH1_TRIM := 0
  const CH2_TRIM := 95
  const CH5_TRIM := 115

  /** Deviation below which a valve is closed, and where the second,
      steeper segment of the valve curve starts. */
  const VALVE_MIN := 200
  const VALVE_MAX := 300
  const VALVE_MUL := 150
  /** The first deviation whose valve opening is not truncated to 0. */
  const VALVE_OPEN := 202

  const PUMP_MIN := 150
  const PUMP_MAX := 500
  const PUMP_LIM := 20
  const DRIVE_LIM := 10

  /** Millivolts per 4096 ADC steps of the temperature sensor and of the
      voltage divider. */
  const VOLT1 := 3316
  const VOLT2 := 3640
  /** Fan thresholds, in the sensor's reading units. */
  const FAN_OFF := 250
  const FAN_ON := 300

  const AUX_MAX := 500

  /** The valve curve of input1 over the stick deviation d: closed, then a
      gentle segment up to VALVE_MAX, then a steeper one. */
  function ValveOpening(d: nat): (r: nat)
    ensures r == 0 <==> d < VALVE_OPEN
    ensures VALVE_MIN <= d < VALVE_MAX ==>
              200 * r <= VALVE_MUL * (d - VALVE_MIN) < 200 * (r + 1) && r <= 74
    ensures d >= VALVE_MAX ==>
              100 * r <= VALVE_MUL * (d - (VALVE_MIN + VALVE_MAX) / 2) < 100 * (r + 1) && r >= 75
  {
    if d < VALVE_MIN then 0
    else if d < VALVE_MAX then VALVE_MUL * (d - VALVE_MIN) / 200
    else VALVE_MUL * (d - (VALVE_MIN + VALVE_MAX) / 2) / 100
  }

  /** The two segments meet without a jump: 74 just below VALVE_MAX, 75 at it. */
  lemma ValveContinuous()
    ensures ValveOpening(VALVE_MAX - 1) == 74 && ValveOpening(VALVE_MAX) == 75
  {
  }

  /** More deflection never closes a valve. */
  lemma ValveMonotone(d1: nat, d2: nat)
    requires d1 <= d2
    ensures ValveOpening(d1) <= ValveOpening(d2)
  {
  }

  /** In the first segment the opening grows by 3 every 4 units of
      deflection (a slope of 150/200). */
  lemma ValveFirstSlope(d: nat)
    requires VALVE_MIN <= d && d + 4 < VALVE_MAX
    ensures ValveOpening(d + 4) == ValveOpening(d) + 3
  {
  }

  /** In the second segment the opening grows by 3 every 2 units of
      deflection (a slope of 150/100), twice as steep as the first. */
  lemma ValveSecondSlope(d: nat)
    requires d >= VALVE_MAX
    ensures ValveOpening(d + 2) == ValveOpening(d) + 3
  {
  }

  /** input1: a valve stick; the trimmed servo command goes out through
      the pointer, the opening is returned. */
  method Input1(t: int, x: int) returns (opening: nat, servo: int)
    ensures servo == t + x
    ensures opening == ValveOpening(Deviation(t))
  {
    servo := t + x;
    var d := if t < 1500 then 1500 - t else t - 1500;
    if d < VALVE_MIN {
      return 0, servo;
    }
    if d < VALVE_MAX {
      return VALVE_MUL * (d - VALVE_MIN) / 200, servo;
    }
    opening := VALVE_MUL * (d - (VALVE_MIN + VALVE_MAX) / 2) / 100;
  }

  /** output1: the pump command, and through the pointer whether the pump
      is engaged at all. */
  method Output1(t: int) returns (duty: int, engaged: bool)
    ensures engaged <==> t != 0
    ensures duty == PumpCurve(t, PUMP_MIN, PUMP_MAX)
  {
    engaged := t != 0;
    if !engaged {
      return 1500, engaged;
    }
    var t' := t + PUMP_MIN;
    if t' > PUMP_MAX {
      return 1500 + PUMP_MAX, engaged;
    }
    duty := 1500 + t';
  }

  /** output3: a one-sided command for a non-negative total demand. */
  function Aux(t: int): (r: int)
    ensures CENTRE <= r <= CENTRE + AUX_MAX
    ensures r == CENTRE + Min(Max(t, 0), AUX_MAX)
  {
    if t < 0 then 1500
    else if t > AUX_MAX then 2000
    else 1500 + t
  }

  /** More total demand never lowers the auxiliary command. */
  lemma AuxMonotone(t1: int, t2: int)
    requires t1 <= t2
    ensures Aux(t1) <= Aux(t2)
  {
  }

  /** The reading sensor() case 0 computes from the ADC value. */
  function Temperature(v: int): int
  {
    v * VOLT1 / 4096 - 500
  }

  /** The fan line after a temperature reading t. */
  function FanNext(fan: bool, t: int): (on: bool)
    ensures t > FAN_ON ==> on
    ensures t < FAN_OFF ==> !on
    ensures FAN_OFF <= t <= FAN_ON ==> on == fan
  {
    if t > FAN_ON then true
    else if t < FAN_OFF then false
    else fan
  }

  /** The fan line after a series of readings. */
  function FanRun(fan: bool, ts: seq<int>): bool
    decreases |ts|
  {
    if ts == [] then fan else FanNext(FanRun(fan, ts[..|ts| - 1]), ts[|ts| - 1])
  }

  /** Readings inside the hysteresis band never switch the fan. */
  lemma {:induction false} FanHoldsInBand(fan: bool, ts: seq<int>)
    requires forall j | 0 <= j < |ts| :: FAN_OFF <= ts[j] <= FAN_ON
    ensures FanRun(fan, ts) == fan
    decreases |ts|
  {
    if ts != [] {
      FanHoldsInBand(fan, ts[..|ts| - 1]);
    }
  }

  /** The fan follows the last reading outside the band: on if it was
      above FAN_ON, off if it was below FAN_OFF. */
  lemma {:induction false} FanFollowsLastDecisive(fan: bool, ts: seq<int>, k: int)
    requires 0 <= k < |ts| && !(FAN_OFF <= ts[k] <= FAN_ON)
    requires forall j | k < j < |ts| :: FAN_OFF <= ts[j] <= FAN_ON
    ensures FanRun(fan, ts) == (ts[k] > FAN_ON)
    decreases |ts|
  {
    if k < |ts| - 1 {
      FanFollowsLastDecisive(fan, ts[..|ts| - 1], k);
    }
  }

  /** The persistent state of update() and sensor() and the outputs they
      drive. */
  class Controller {
    /** Valve servos, pump, tracks, auxiliary and demand outputs. */
    var u1: int
    var u2: int
    var u3: int
    var u4: int
    var u5: int
    var u6: int
    var u7: int
    var u8: int
    var i1: int
    var i2: int
    var i3: int
    var i4: int
    var i5: int
    var s1: int
    var s2: int
    var s3: int
    /** A13, low while the pump is engaged; A14, the light switch. */
    var a13: bool
    var a14: bool
    /** A5, the fan. */
    var fan: bool
    /** How often the window watchdog was refreshed. */
    ghost var refreshes: nat

    /** Every command is 0 before the first frame, and afterwards in the
        range its output curve and the limiter allow. */
    ghost predicate Valid()
      reads this`u4, this`u5, this`u6, this`u7, this`u8
    {
      PumpValid() && TracksValid() && AuxValid()
    }

    /** The pump command is idle or at least the limiter's first step. */
    ghost predicate PumpValid()
      reads this`u4
    {
      u4 == 0 || u4 == CENTRE || RAMP_FWD_START <= u4 <= CENTRE + PUMP_MAX
    }

    /** Track commands are limited drive commands. */
    ghost predicate TracksValid()
      reads this`u5, this`u6
    {
      (u5 == 0 || TrackCommand(u5)) && (u6 == 0 || TrackCommand(u6))
    }

    /** The switch output takes one of three positions, the demand output
        is one-sided. */
    ghost predicate AuxValid()
      reads this`u7, this`u8
    {
      (u7 == 0 || u7 == 1000 || u7 == CENTRE || u7 == 2000) && (u8 == 0 || CENTRE <= u8 <= CENTRE + AUX_MAX)
    }

    /** Power-on: zeroed statics, every line low except A13. */
    constructor ()
      ensures Valid()
      ensures u4 == 0 && u5 == 0 && u6 == 0 && a13 && !a14 && !fan && refreshes == 0
    {
      u1, u2, u3, u4, u5, u6, u7, u8 := 0, 0, 0, 0, 0, 0, 0, 0;
      i1, i2, i3, i4, i5 := 0, 0, 0, 0, 0;
      s1, s2, s3 := 0, 0, 0;
      a13, a14, fan := true, false, false;
      refreshes := 0;
    }

    /** update(): called by the serial engine with the channel store of an
        accepted servo frame. */
    method Update(chv: seq<int>)
      requires Valid() && |chv| == Serial.CHANNELS
      modifies this
      ensures Valid()
      ensures s1 == Switch(chv[5]) && s2 == Switch(chv[6]) && s3 == Switch(chv[7])
      ensures i1 == ValveOpening(Deviation(chv[0])) && u1 == chv[0] + CH1_TRIM
      ensures i2 == ValveOpening(Deviation(chv[1])) && u2 == chv[1] + CH2_TRIM
      ensures i5 == ValveOpening(Deviation(chv[4])) && u3 == chv[4] + CH5_TRIM
      ensures i3 == Offset(chv[2]) && i4 == Offset(chv[3])
      ensures u4 == Ramp(PumpCurve(i1 + i2 + i5, PUMP_MIN, PUMP_MAX), old(u4), PUMP_LIM)
      ensures a13 <==> u4 == CENTRE
      ensures a13 <==> i1 + i2 + i5 == 0
      ensures a14 <==> s1 != 0
      ensures u5 == Ramp(Drive(i3 + i4), old(u5), DRIVE_LIM)
      ensures u6 == Ramp(Drive(i3 - i4), old(u6), DRIVE_LIM)
      ensures u7 == 2000 <==> s2 != 0
      ensures u7 == 1000 <==> s2 == 0 && s3 != 0
      ensures u7 == CENTRE <==> s2 == 0 && s3 == 0
      ensures u8 == Aux(i1 + i2 + Abs(i3) + Abs(i4) + i5)
      ensures fan == old(fan)
      ensures refreshes == old(refreshes) + 1
    {
      Decode(chv);
      Mix();
    }

    /** The switch and stick decoding at the head of update(), with the
        trimmed valve servo commands. */
    method Decode(chv: seq<int>)
      requires |chv| == Serial.CHANNELS
      modifies this`s1, this`s2, this`s3, this`i1, this`i2, this`i3, this`i4, this`i5
      modifies this`u1, this`u2, this`u3
      ensures s1 == Switch(chv[5]) && s2 == Switch(chv[6]) && s3 == Switch(chv[7])
      ensures i1 == ValveOpening(Deviation(chv[0])) && u1 == chv[0] + CH1_TRIM
      ensures i2 == ValveOpening(Deviation(chv[1])) && u2 == chv[1] + CH2_TRIM
      ensures i5 == ValveOpening(Deviation(chv[4])) && u3 == chv[4] + CH5_TRIM
      ensures i3 == Offset(chv[2]) && i4 == Offset(chv[3])
    {
      s1 := Switch(chv[5]);
      s2 := Switch(chv[6]);
      s3 := Switch(chv[7]);

      i1, u1 := Input1(chv[0], CH1_TRIM);
      i2, u2 := Input1(chv[1], CH2_TRIM);
      i3 := Offset(chv[2]);
      i4 := Offset(chv[3]);
      i5, u3 := Input1(chv[4], CH5_TRIM);
    }

    /** The actuator part of update(): pump and its idle line, tracks,
        the switch and demand outputs, the light line and the watchdog. */
    method Mix()
      requires i1 >= 0 && i2 >= 0 && i5 >= 0
      modifies this`u4, this`a13, this`u5, this`u6, this`u7, this`u8, this`a14, this`refreshes
      ensures Valid()
      ensures u4 == Ramp(PumpCurve(i1 + i2 + i5, PUMP_MIN, PUMP_MAX), old(u4), PUMP_LIM)
      ensures a13 <==> u4 == CENTRE
      ensures a13 <==> i1 + i2 + i5 == 0
      ensures u5 == Ramp(Drive(i3 + i4), old(u5), DRIVE_LIM)
      ensures u6 == Ramp(Drive(i3 - i4), old(u6), DRIVE_LIM)
      ensures u7 == 2000 <==> s2 != 0
      ensures u7 == 1000 <==> s2 == 0 && s3 != 0
      ensures u7 == CENTRE <==> s2 == 0 && s3 == 0
      ensures u8 == Aux(i1 + i2 + Abs(i3) + Abs(i4) + i5)
      ensures a14 <==> s1 != 0
      ensures refreshes == old(refreshes) + 1
    {
      PumpCommand();
      Tracks();
      Auxiliary();
    }

    /** The pump command of update() and A13, which is low exactly while
        the pump is engaged. */
    method PumpCommand()
      requires i1 >= 0 && i2 >= 0 && i5 >= 0
      modifies this`u4, this`a13
      ensures PumpValid()
      ensures u4 == Ramp(PumpCurve(i1 + i2 + i5, PUMP_MIN, PUMP_MAX), old(u4), PUMP_LIM)
      ensures a13 <==> u4 == CENTRE
      ensures a13 <==> i1 + i2 + i5 == 0
    {
      var duty, engaged := Output1(i1 + i2 + i5);
      u4 := Ramp(duty, u4, PUMP_LIM);
      a13 := !engaged;
    }

    /** The tank mix and the limiter of the two track ESCs. */
    method Tracks()
      modifies this`u5, this`u6
      ensures TracksValid()
      ensures u5 == Ramp(Drive(i3 + i4), old(u5), DRIVE_LIM)
      ensures u6 == Ramp(Drive(i3 - i4), old(u6), DRIVE_LIM)
    {
      TrackRamp(i3 + i4, u5, DRIVE_LIM);
      TrackRamp(i3 - i4, u6, DRIVE_LIM);
      u5 := Ramp(Drive(i3 + i4), u5, DRIVE_LIM);
      u6 := Ramp(Drive(i3 - i4), u6, DRIVE_LIM);
    }

    /** The tail of update(): the three-way switch output, the demand
        output, the light line A14 and the watchdog refresh. */
    method Auxiliary()
      modifies this`u7, this`u8, this`a14, this`refreshes
      ensures AuxValid()
      ensures u7 == 2000 <==> s2 != 0
      ensures u7 == 1000 <==> s2 == 0 && s3 != 0
      ensures u7 == CENTRE <==> s2 == 0 && s3 == 0
      ensures u8 == Aux(i1 + i2 + Abs(i3) + Abs(i4) + i5)
      ensures a14 <==> s1 != 0
      ensures refreshes == old(refreshes) + 1
    {
      u7 := if s2 != 0 then 2000 else if s3 != 0 then 1000 else 1500;
      u8 := Aux(i1 + i2 + Abs(i3) + Abs(i4) + i5);
      a14 := s1 != 0;
      refreshes := refreshes + 1;
    }

    /** sensor(i, v): the reading reported for sensor i from the ADC value
        v; the temperature reading also switches the fan. */
    method Sensor(i: int, v: int) returns (r: int)
      modifies this`fan
      ensures i == 0 ==> r == Temperature(v) + 400 && fan == FanNext(old(fan), Temperature(v))
      ensures i == 1 ==> r == v * VOLT2 / 4096 && fan == old(fan)
      ensures i != 0 && i != 1 ==> r == 0 && fan == old(fan)
    {
      if i == 0 {
        var t := v * VOLT1 / 4096 - 500;
        if t > FAN_ON {
          fan := true;
        } else if t < FAN_OFF {
          fan := false;
        }
        return t + 400;
      }
      if i == 1 {
        return v * VOLT2 / 4096;
      }
      r := 0;
    }
  }
}
