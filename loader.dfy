/** The loader profile, src/lesu.c: two tracks mixed tank-style from the
    throttle (channel 3) and steering (channel 4) sticks and driven through
    H-bridges, a hydraulic pump whose speed follows the three valve sticks,
    and turn indicators chosen from the sticks with hysteresis. */
module Loader {
  import opened Mixing
  import Serial

  /** Deviation from centre below which a valve stick counts as closed. */
  const VALVE_MIN := 80
  /** Valve stick gain, in percent of half the stick travel. */
  const VALVE_MUL := 60
  /** The first deviation whose valve demand is not truncated to 0. */
  const VALVE_OPEN := 84
  /** Pump command offset for any open valve, and its cap (output1). */
  const PUMP_MIN := 100
  const PUMP_MAX := 260
  const PUMP_LIM := 20
  const DRIVE_LIM := 20

  /** input1: a valve stick as a non-negative pump demand. */
  function Valve(t: int): (r: nat)
    ensures r == 0 <==> Deviation(t) < VALVE_OPEN
    ensures Deviation(t) >= VALVE_MIN ==>
              200 * r <= VALVE_MUL * (Deviation(t) - VALVE_MIN) < 200 * (r + 1)
  {
    var d := Deviation(t);
    if d < VALVE_MIN then 0 else VALVE_MUL * (d - VALVE_MIN) / 200
  }

  /** Moving a valve stick either way from centre opens it equally. */
  lemma ValveSymmetric(k: int)
    ensures Valve(CENTRE + k) == Valve(CENTRE - k)
  {
  }

  /** More stick deflection never means less pump demand. */
  lemma ValveMonotone(t1: int, t2: int)
    requires Deviation(t1) <= Deviation(t2)
    ensures Valve(t1) <= Valve(t2)
  {
  }

  /** output3: an H-bridge channel for a track command; the magnitude goes
      to the PWM compare register, the direction to two lines. */
  method Direction(t: int) returns (duty: int, fwd: bool, rev: bool)
    ensures !(fwd && rev)
    ensures fwd <==> t > CENTRE + DRIVE_MIN
    ensures rev <==> t < CENTRE - DRIVE_MIN
    ensures duty == if fwd || rev then Deviation(t) else 0
  {
    if t < 1500 - DRIVE_MIN {
      fwd, rev := false, true;
      return 1500 - t, fwd, rev;
    }
    if t > 1500 + DRIVE_MIN {
      fwd, rev := true, false;
      return t - 1500, fwd, rev;
    }
    fwd, rev := false, false;
    duty := 0;
  }

  /** The blink mode update() selects: 0 off, 1 left, 2 right, 3 and 4
      forced by the light switch. */
  function BlinkMode(s2: int, i3: int, i4: int, bm: int): (b: int)
    ensures s2 != 0 ==> b == s2 + 2
    ensures s2 == 0 ==> b == 0 || b == 1 || b == 2 || b == bm
    ensures s2 == 0 && (i3 < -100 || -50 < i4 < 50) ==> b == 0
    ensures s2 == 0 && i3 > -50 && i4 < -250 ==> b == 1
    ensures s2 == 0 && i3 > -50 && i4 > 250 ==> b == 2
    ensures s2 >= 0 && b == 1 && bm != 1 ==> s2 == 0 && i3 > -50 && i4 < -250
    ensures b == 2 && bm != 2 ==> s2 == 0 && i3 > -50 && i4 > 250
    ensures s2 == 0 && -100 <= i3 <= -50 && (i4 <= -50 || 50 <= i4) ==> b == bm
    ensures s2 == 0 && i3 > -50 && -250 <= i4 <= 250 && (i4 <= -50 || 50 <= i4) ==> b == bm
  {
    if s2 != 0 then s2 + 2
    else if i3 < -100 || (-50 < i4 < 50) then 0
    else if i3 > -50 && i4 < -250 then 1
    else if i3 > -50 && i4 > 250 then 2
    else bm
  }

  /** The same sticks twice in a row select the same mode, so a steady
      input reprograms the indicator timer at most once. */
  lemma BlinkSettles(s2: int, i3: int, i4: int, bm: int)
    ensures BlinkMode(s2, i3, i4, BlinkMode(s2, i3, i4, bm)) == BlinkMode(s2, i3, i4, bm)
  {
  }

  /** The persistent state of update() and the outputs it drives. */
  class Controller {
    /** Track and pump commands, fed back into the limiter. */
    var u1: int
    var u2: int
    var u3: int
    var i1: int
    var i2: int
    var i3: int
    var i4: int
    var i5: int
    var s1: int
    var s2: int
    /** The blink mode the indicator timer is programmed for. */
    var bm: int
    /** TIM1_CCR2 and TIM1_CCR3: the H-bridge duties of the two tracks. */
    var duty1: int
    var duty2: int
    /** Bridge direction lines: A1/A5 for track 1, F0/F1 for track 2. */
    var fwd1: bool
    var rev1: bool
    var fwd2: bool
    var rev2: bool
    /** TIM3 outputs as programmed for bm: the two indicator channels
        toggle, and the strobe prescaler is selected. */
    var leftBlink: bool
    var rightBlink: bool
    var strobe: bool
    /** A13, low while the throttle is in reverse; A14, the light switch. */
    var a13: bool
    var a14: bool
    /** How often the indicator timer was reprogrammed. */
    ghost var reprograms: nat
    /** How often the window watchdog was refreshed. */
    ghost var refreshes: nat

    ghost predicate Valid()
      reads this`bm, this`leftBlink, this`rightBlink, this`strobe
      reads this`u1, this`u2, this`fwd1, this`rev1, this`fwd2, this`rev2, this`u3
    {
      BlinkValid() && TracksValid() && PumpValid()
    }

    /** The indicator timer is programmed for the current blink mode. */
    ghost predicate BlinkValid()
      reads this`bm, this`leftBlink, this`rightBlink, this`strobe
    {
      && 0 <= bm <= 4
      && leftBlink == (bm % 2 == 1) && rightBlink == ((bm / 2) % 2 == 1) && strobe == ((bm / 4) % 2 == 1)
    }

    /** Track commands are limited drive duties (0 before the first frame)
        and no H-bridge is driven both ways. */
    ghost predicate TracksValid()
      reads this`u1, this`u2, this`fwd1, this`rev1, this`fwd2, this`rev2
    {
      && (u1 == 0 || TrackCommand(u1)) && (u2 == 0 || TrackCommand(u2))
      && !(fwd1 && rev1) && !(fwd2 && rev2)
    }

    /** The pump command is idle or at least the limiter's first step. */
    ghost predicate PumpValid()
      reads this`u3
    {
      u3 == 0 || u3 == CENTRE || RAMP_FWD_START <= u3 <= CENTRE + PUMP_MAX
    }

    /** Power-on: zeroed statics, every line low except A13, the indicator
        timer with both channels forced low at the slow prescaler. */
    constructor ()
      ensures Valid()
      ensures u1 == 0 && u2 == 0 && u3 == 0 && bm == 0
      ensures !fwd1 && !rev1 && !fwd2 && !rev2 && a13 && !a14
      ensures reprograms == 0 && refreshes == 0
    {
      u1, u2, u3 := 0, 0, 0;
      i1, i2, i3, i4, i5 := 0, 0, 0, 0, 0;
      s1, s2, bm := 0, 0, 0;
      duty1, duty2 := 0, 0;
      fwd1, rev1, fwd2, rev2 := false, false, false, false;
      leftBlink, rightBlink, strobe := false, false, false;
      a13, a14 := true, false;
      reprograms, refreshes := 0, 0;
    }

    /** update(): called by the serial engine with the channel store of an
        accepted servo frame. */
    method Update(chv: seq<int>)
      requires Valid() && |chv| == Serial.CHANNELS
      modifies this
      ensures Valid()
      ensures s1 == Switch(chv[5]) && s2 == Switch(chv[6])
      ensures i1 == Valve(chv[0]) && i2 == Valve(chv[1]) && i5 == Valve(chv[4])
      ensures i3 == Offset(chv[2]) && i4 == Offset(chv[3])
      ensures u1 == Ramp(Drive(i3 + i4), old(u1), DRIVE_LIM)
      ensures u2 == Ramp(Drive(i3 - i4), old(u2), DRIVE_LIM)
      ensures u3 == Ramp(PumpCurve(i1 + i2 + i5, PUMP_MIN, PUMP_MAX), old(u3), PUMP_LIM)
      ensures u3 == CENTRE <==> i1 + i2 + i5 == 0
      ensures (fwd1 <==> u1 > CENTRE + DRIVE_MIN) && (rev1 <==> u1 < CENTRE - DRIVE_MIN)
      ensures (fwd2 <==> u2 > CENTRE + DRIVE_MIN) && (rev2 <==> u2 < CENTRE - DRIVE_MIN)
      ensures duty1 == (if fwd1 || rev1 then Deviation(u1) else 0)
      ensures duty2 == (if fwd2 || rev2 then Deviation(u2) else 0)
      ensures duty1 == 0 || DRIVE_MIN < duty1 <= DRIVE_MAX
      ensures duty2 == 0 || DRIVE_MIN < duty2 <= DRIVE_MAX
      ensures bm == BlinkMode(s2, i3, i4, old(bm))
      ensures reprograms == old(reprograms) + (if bm != old(bm) then 1 else 0)
      ensures a13 <==> i3 >= -50
      ensures a14 <==> s1 != 0
      ensures refreshes == old(refreshes) + 1
    {
      Decode(chv);
      Mix();
    }

    /** The switch and stick decoding at the head of update(), with the
        lines that follow from it directly (A13 high unless the throttle
        is in reverse, A14 the light switch) and the watchdog refresh. */
    method Decode(chv: seq<int>)
      requires |chv| == Serial.CHANNELS
      modifies this`s1, this`s2, this`i1, this`i2, this`i3, this`i4, this`i5, this`a13, this`a14, this`refreshes
      ensures s1 == Switch(chv[5]) && s2 == Switch(chv[6])
      ensures refreshes == old(refreshes) + 1
      ensures (a13 <==> i3 >= -50) && (a14 <==> s1 != 0)
      ensures i1 == Valve(chv[0]) && i2 == Valve(chv[1]) && i5 == Valve(chv[4])
      ensures i3 == Offset(chv[2]) && i4 == Offset(chv[3])
    {
      s1 := Switch(chv[5]);
      s2 := Switch(chv[6]);

      i1 := Valve(chv[0]);
      i2 := Valve(chv[1]);
      i3 := Offset(chv[2]);
      i4 := Offset(chv[3]);
      i5 := Valve(chv[4]);
      a13 := i3 >= -50;
      a14 := s1 != 0;
      refreshes := refreshes + 1;
    }

    /** The actuator part of update(): pump, tracks and indicators. */
    method Mix()
      requires i1 >= 0 && i2 >= 0 && i5 >= 0 && 0 <= s2 <= 2 && BlinkValid()
      modifies this`u1, this`u2, this`duty1, this`duty2, this`fwd1, this`rev1, this`fwd2, this`rev2, this`u3
      modifies this`bm, this`leftBlink, this`rightBlink, this`strobe, this`reprograms
      ensures BlinkValid() && TracksValid() && PumpValid()
      ensures u1 == Ramp(Drive(i3 + i4), old(u1), DRIVE_LIM)
      ensures u2 == Ramp(Drive(i3 - i4), old(u2), DRIVE_LIM)
      ensures u3 == Ramp(PumpCurve(i1 + i2 + i5, PUMP_MIN, PUMP_MAX), old(u3), PUMP_LIM)
      ensures u3 == CENTRE <==> i1 + i2 + i5 == 0
      ensures (fwd1 <==> u1 > CENTRE + DRIVE_MIN) && (rev1 <==> u1 < CENTRE - DRIVE_MIN)
      ensures (fwd2 <==> u2 > CENTRE + DRIVE_MIN) && (rev2 <==> u2 < CENTRE - DRIVE_MIN)
      ensures duty1 == (if fwd1 || rev1 then Deviation(u1) else 0)
      ensures duty2 == (if fwd2 || rev2 then Deviation(u2) else 0)
      ensures duty1 == 0 || DRIVE_MIN < duty1 <= DRIVE_MAX
      ensures duty2 == 0 || DRIVE_MIN < duty2 <= DRIVE_MAX
      ensures bm == BlinkMode(s2, i3, i4, old(bm))
      ensures reprograms == old(reprograms) + (if bm != old(bm) then 1 else 0)
    {
      PumpCommand();
      Tracks();
      Indicators();
    }

    /** The pump command of update(): idle exactly when no valve is open. */
    method PumpCommand()
      requires i1 >= 0 && i2 >= 0 && i5 >= 0
      modifies this`u3
      ensures u3 == Ramp(PumpCurve(i1 + i2 + i5, PUMP_MIN, PUMP_MAX), old(u3), PUMP_LIM)
      ensures u3 == CENTRE <==> i1 + i2 + i5 == 0
      ensures PumpValid()
    {
      u3 := Ramp(PumpCurve(i1 + i2 + i5, PUMP_MIN, PUMP_MAX), u3, PUMP_LIM);
    }

    /** The tank mix, the limiter and the H-bridge outputs of update(). */
    method Tracks()
      modifies this`u1, this`u2, this`duty1, this`duty2, this`fwd1, this`rev1, this`fwd2, this`rev2
      ensures u1 == Ramp(Drive(i3 + i4), old(u1), DRIVE_LIM) && TrackCommand(u1)
      ensures u2 == Ramp(Drive(i3 - i4), old(u2), DRIVE_LIM) && TrackCommand(u2)
      ensures !(fwd1 && rev1) && !(fwd2 && rev2)
      ensures (fwd1 <==> u1 > CENTRE + DRIVE_MIN) && (rev1 <==> u1 < CENTRE - DRIVE_MIN)
      ensures (fwd2 <==> u2 > CENTRE + DRIVE_MIN) && (rev2 <==> u2 < CENTRE - DRIVE_MIN)
      ensures duty1 == (if fwd1 || rev1 then Deviation(u1) else 0)
      ensures duty2 == (if fwd2 || rev2 then Deviation(u2) else 0)
      ensures duty1 == 0 || DRIVE_MIN < duty1 <= DRIVE_MAX
      ensures duty2 == 0 || DRIVE_MIN < duty2 <= DRIVE_MAX
      ensures TracksValid()
    {
      TrackRamp(i3 + i4, u1, DRIVE_LIM);
      TrackRamp(i3 - i4, u2, DRIVE_LIM);
      u1 := Ramp(Drive(i3 + i4), u1, DRIVE_LIM);
      u2 := Ramp(Drive(i3 - i4), u2, DRIVE_LIM);
      duty1, fwd1, rev1 := Direction(u1);
      duty2, fwd2, rev2 := Direction(u2);
    }

    /** The blink mode selection of update(): the indicator timer is
        reprogrammed only when the mode changes. */
    method Indicators()
      requires BlinkValid() && 0 <= s2 <= 2
      modifies this`bm, this`leftBlink, this`rightBlink, this`strobe, this`reprograms
      ensures bm == BlinkMode(s2, i3, i4, old(bm))
      ensures bm == old(bm) ==>
                leftBlink == old(leftBlink) && rightBlink == old(rightBlink) && strobe == old(strobe)
      ensures reprograms == old(reprograms) + (if bm != old(bm) then 1 else 0)
      ensures BlinkValid()
    {
      var b := bm;
      if s2 != 0 {
        b := s2 + 2;  // forced blinking
      } else if i3 < -100 || (-50 < i4 < 50) {
        b := 0;
      } else if i3 > -50 {
        if i4 < -250 {
          b := 1;  // left turn
        } else if i4 > 250 {
          b := 2;  // right turn
        }
      }
      if b != bm {
        leftBlink := b % 2 == 1;
        rightBlink := (b / 2) % 2 == 1;
        strobe := (b / 4) % 2 == 1;
        reprograms := reprograms + 1;
        bm := b;
      }
    }
  }
}
