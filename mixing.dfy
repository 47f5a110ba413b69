/** Shaping helpers that the loader (src/lesu.c) and the excavator (src/jdm.c)
    firmwares both define, with the same constants: the centred stick offset
    (input2), the tri-state switch decoder (input3), the drive duty curve
    (output2) and the acceleration limiter (ramp). They are defined once here
    and used by both profiles. All values are in PWM ticks, 1500 = centre. */
module Mixing {

  const CENTRE := 1500
  const SWITCH_LOW := 1450
  const SWITCH_HIGH := 1550
  const DRIVE_MIN := 50
  const DRIVE_MAX := 500
  /** The first reverse and first forward command the limiter lets through. */
  const RAMP_REV_START := 1450
  const RAMP_FWD_START := 1550

  function Abs(x: int): nat { if x < 0 then -x else x }
  function Min(x: int, y: int): int { if x < y then x else y }
  function Max(x: int, y: int): int { if x < y then y else x }

  /** Distance of a raw channel value from centre (first line of input1). */
  function Deviation(t: int): (d: nat)
    ensures t == CENTRE + d || t == CENTRE - d
  {
    if t < CENTRE then CENTRE - t else t - CENTRE
  }

  /** input2: a direct axis, signed offset from centre. */
  function Offset(t: int): (r: int)
    ensures r < 0 <==> t < CENTRE
    ensures Abs(r) == Deviation(t)
  {
    t - CENTRE
  }

  /** input3: a three-position switch decoded with a dead band around centre. */
  function Switch(t: int): (r: int)
    ensures 0 <= r <= 2
    ensures r == 0 <==> t < SWITCH_LOW
    ensures r == 2 <==> t > SWITCH_HIGH
  {
    if t < 1450 then 0
    else if t > 1550 then 2
    else 1
  }

  /** output2: bidirectional drive duty with a dead zone and a magnitude cap. */
  function Drive(t: int): (r: int)
    ensures CENTRE - DRIVE_MAX <= r <= CENTRE + DRIVE_MAX
    ensures Abs(t) < DRIVE_MIN ==> r == CENTRE
    ensures Abs(t) >= DRIVE_MIN ==> r == CENTRE + Max(-DRIVE_MAX, Min(t, DRIVE_MAX))
    ensures r == CENTRE || DRIVE_MIN <= Abs(r - CENTRE)
  {
    if -DRIVE_MIN < t < DRIVE_MIN then 1500
    else if t < -DRIVE_MAX then 1500 - DRIVE_MAX
    else if t > DRIVE_MAX then 1500 + DRIVE_MAX
    else 1500 + t
  }

  /** The drive curve is odd-symmetric about centre: opposite demands give
      opposite duties of equal magnitude (tank turn on the spot). */
  lemma DriveOdd(t: int)
    ensures Drive(-t) - CENTRE == CENTRE - Drive(t)
  {
  }

  /** output1 of both profiles: the pump ESC command for a total valve
      demand t, idle at centre, otherwise offset by lo and capped at hi
      (each profile passes its own PUMP_MIN and PUMP_MAX). */
  function PumpCurve(t: int, lo: int, hi: int): (r: int)
    requires 0 <= lo < hi
    ensures t == 0 ==> r == CENTRE
    ensures t != 0 ==> r == CENTRE + Min(t + lo, hi)
    ensures t > 0 ==> CENTRE + lo < r <= CENTRE + hi
  {
    if t == 0 then 1500
    else if t + lo > hi then 1500 + hi
    else 1500 + t + lo
  }

  /** More valve demand never slows the pump. */
  lemma PumpCurveMonotone(t1: int, t2: int, lo: int, hi: int)
    requires 0 <= lo < hi && 0 <= t1 <= t2
    ensures PumpCurve(t1, lo, hi) <= PumpCurve(t2, lo, hi)
  {
  }

  /** ramp(t, u, x): the next command toward target t from the previous
      command u, moving away from centre by at most x per call. */
  function Ramp(t: int, u: int, x: int): (r: int)
    ensures u == 0 || x == 0 ==> r == t
    ensures t < CENTRE ==> t <= r < CENTRE
    ensures t >= CENTRE ==> CENTRE <= r <= t
    ensures u != 0 && x != 0 && t < CENTRE ==> r == Max(t, Min(u - x, RAMP_REV_START))
    ensures u != 0 && x != 0 && t >= CENTRE ==> r == Min(t, Max(u + x, RAMP_FWD_START))
  {
    if u == 0 || x == 0 then t
    else if t < 1500 then
      var v := u - x;
      var v' := if v > 1450 then 1450 else v;
      if t < v' then v' else t
    else
      var v := u + x;
      var v' := if v < 1550 then 1550 else v;
      if t > v' then v' else t
  }

  /** Commanding the neutral target gives neutral at once, whatever the
      previous command was. */
  lemma RampNeutral(u: int, x: int)
    ensures Ramp(CENTRE, u, x) == CENTRE
  {
  }

  /** A command already at its target stays there. */
  lemma RampFixedPoint(t: int, x: int)
    requires x > 0
    ensures Ramp(t, t, x) == t
  {
  }

  /** k successive calls of ramp with a fixed target. */
  function RampIter(t: int, u: int, x: int, k: nat): int
    decreases k
  {
    if k == 0 then u else RampIter(t, Ramp(t, u, x), x, k - 1)
  }

  /** With a positive limit the command reaches its target after at most
      |t - u| / x + 1 calls, and the limiter never oscillates around it. */
  lemma {:induction false} RampSettles(t: int, u: int, x: int, k: nat)
    requires x > 0
    requires k * x >= Abs(t - u)
    ensures RampIter(t, u, x, k + 1) == t
    decreases k
  {
    var u1 := Ramp(t, u, x);
    if k == 0 {
      assert u == t;
      RampFixedPoint(t, x);
    } else {
      assert Abs(t - u1) <= (k - 1) * x;
      RampSettles(t, u1, x, k - 1);
    }
  }

  /** A limited track command: centre, or outside the dead band on either
      side and within the duty cap. */
  predicate TrackCommand(u: int)
  {
    u == CENTRE
    || CENTRE - DRIVE_MAX <= u <= RAMP_REV_START
    || RAMP_FWD_START <= u <= CENTRE + DRIVE_MAX
  }

  /** Limiting a drive duty keeps it a track command, whatever the
      previous command and the limit were. */
  lemma TrackRamp(t: int, u: int, x: int)
    ensures TrackCommand(Ramp(Drive(t), u, x))
  {
    var d := Drive(t);
    if d < CENTRE {
      assert d <= RAMP_REV_START;
    } else if d > CENTRE {
      assert d >= RAMP_FWD_START;
    }
  }

  /** The limiter never moves a command further from centre than x past the
      previous command once that command is on the target's side. */
  lemma RampAccelerationLimited(t: int, u: int, x: int)
    requires u != 0 && x > 0
    ensures t >= CENTRE && u >= RAMP_FWD_START ==> Ramp(t, u, x) <= u + x
    ensures t < CENTRE && u <= RAMP_REV_START ==> Ramp(t, u, x) >= u - x
  {
  }
}
