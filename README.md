# iBUS receiver firmware: serial engine and control mixing

This project models the core of a small STM32F0 firmware family that turns a
FlySky iBUS receiver into the controller of a model construction machine.
Two firmware images share one serial engine:

- **Serial engine** (`src/serial.c`). One UART carries inbound servo frames
  and outbound sensor telemetry.
  - In full duplex the engine hunts for the sync pair `0x20 0x40`. It then
    collects fourteen little-endian channel words into `chv`, each cut to 12
    bits, and checks a subtractive checksum.
  - On a match it calls `update()` and switches to half duplex, where it
    listens for 4-byte telemetry requests. It answers them through a reply
    buffer sent one byte per TX-empty interrupt.
  - A one-shot timer switches it back to full duplex.
- **Loader profile** (`src/lesu.c`). Two tracks are mixed tank-style and
  driven through H-bridges. A hydraulic pump follows the three valve sticks.
  Turn indicators are selected from the sticks with hysteresis.
- **Excavator profile** (`src/jdm.c`). Three valve servos pass through with
  trims, and their openings drive the pump. Two tracks go through ESCs. There
  is a three-way auxiliary output, a sum-of-demands output, and a fan switched
  with hysteresis on the temperature reading.

Modules:

- `Serial` (serial.dfy). The byte arithmetic and the reply frames of `send2`
  and `send4`. The receive parser as pure step functions (`ServoStep`,
  `SensorStep`, `Respond`). The class `Engine`, whose interrupt methods
  update the parser fields, the `chv` array and the `tx` buffer in place.
  The receive interrupt `OnRxByte` is proved to follow the step functions.
  The transmit and timeout interrupts have no step function, so their
  contracts give the new state directly. Every interrupt method keeps the
  register invariant `Valid()`.
- `SerialFrames` (serial_frames.dfy). Folds of the step functions over byte
  streams, with the properties of whole frames and requests.
- `Mixing` (mixing.dfy). `input2`, `input3`, `output2` and `ramp`, which both
  profiles define identically, and the shape of `output1`, which they share
  up to the two pump constants. Each is defined once here.
- `Loader` (loader.dfy) and `Excavator` (excavator.dfy). Each has its
  profile's own curves, and a `Controller` class holding the statics of
  `update()` and the output lines it drives.

Modelling conventions:

- `char` is an unsigned byte (the ARM GCC default).
- `x >> k` on an `int` is an arithmetic shift, i.e. floor division.
- `d & 0xf0` is `d - d % 16`.
- `update()` is recorded as a ghost log of `chv` snapshots.
- The external `senstype` and `sensval` are function parameters.
- Registers are modelled as their meaning: the CR1 bits the engine writes,
  the HDSEL bit, line states as booleans, PWM compare values as integers.
  Every CR1 write is appended to a ghost log.

Behaviour kept exactly as the code has it:

- `chv[k]` is written as each word arrives, before the checksum is
  compared. A rejected frame therefore leaves its channels in `chv`, but
  `update()` is not called (`SerialFrames.ServoFrame`).
- `ramp` jumps straight to 1450 or 1550 when the target is on the other side
  of centre from the previous command. It also returns the target unchanged
  when the previous command is 0 (the first frame). It never limits
  deceleration towards the target.
- Integer division truncates. The loader's valve demand is 0 until a
  deviation of 84, not just up to `VALVE_MIN` = 80. The excavator's opening
  is 0 until 202.
- The excavator's second valve segment (150/100) is twice as steep as the
  first (150/200). The two segments meet at 74/75.

## Model

| member | source | states |
|---|---|---|
| Serial.Word | src/serial.c:161 | `a \| b << 8` is below 0x10000 and gives back its low and high byte |
| Serial.Sum | src/serial.c:177 | the sum the subtractive checksums take off is at most 255 per byte |
| Serial.SumAppend | src/serial.c:177 | the checksum sum splits over concatenation |
| Serial.LeRoundTrip | src/serial.c:67 | splitting a value into k little-endian bytes (`char a = x, b = x >> 8, ...`) and reading them back gives the value modulo 256^k |
| Serial.Frame2 | src/serial.c:66-77 | the `send2` reply has length 6, its first byte is 6, then the command byte, the 16-bit payload little-endian, and a checksum word that makes the frame sum to 0xffff |
| Serial.Frame4 | src/serial.c:79-92 | the `send4` reply has length 8, its first byte is 8, then the command byte, the 32-bit payload, and a checksum word that makes the frame sum to 0xffff |
| Serial.Respond | src/serial.c:116-148 | a reply is given iff the sensor index `(d & 0xf) - 1` is non-negative, its type is non-zero, and the command nibble is probe, type, or value with a type size of 2 or 4. Probe echoes the 4 request bytes. Type sends the sensor type in a 6-byte frame. Value sends the reading in a 6- or 8-byte frame. Every reply to a well-formed request is itself well-formed |
| Serial.ServoStep | src/serial.c:106-177 | one servo-mode byte. The sync pair resets `n` to 0 and `u` to 0xff9f. At position 30 nothing but a/b changes. `update()` runs iff the 15th word equals the running checksum. Only the channel completed by this byte can change, to its word masked to 12 bits |
| Serial.SensorStep | src/serial.c:106-153 | one telemetry-mode byte. `n` is untouched. At m = 4 only a/b change. At the end of a chunk, c = 4 with a matching checksum resynchronises the parser (m = 0, u = 0xffff) and gives the dispatch's reply. Any other chunk end leaves m at 4 with no reply |
| Serial.Engine.constructor | src/serial.c:22-38 | power-on: n = 30, all other statics 0, receiver on in full duplex, timer stopped |
| Serial.Engine.WriteCr1 | src/serial.c:99 | a CR1 write sets the register and is logged |
| Serial.Engine.Send2 | src/serial.c:66-77 | `tx[0..6]` holds `Frame2`, `txp = 0`, `txq = 6`, the rest of `tx` is unchanged |
| Serial.Engine.Send4 | src/serial.c:79-92 | `tx` holds `Frame4`, `txp = 0`, `txq = 8` |
| Serial.Engine.OnRxByte | src/serial.c:94-178 | a received byte follows `ServoStep` in full duplex and `SensorStep` in half duplex: parser fields, `chv`, the `update()` log, `tx`/`txp`/`txq` and the CR1 writes. The register invariant is kept |
| Serial.Engine.RxServo | src/serial.c:154-177 | the servo branch follows `ServoStep`. An accepted frame writes CR1 off, sets HDSEL, writes CR1 to receive, and starts the timer |
| Serial.Engine.CountServoByte | src/serial.c:160-177 | the position counter. Every second byte stores channel `n/2 - 1` and subtracts both bytes from `u`. The 15th word either accepts the frame or leaves `n` at 30 |
| Serial.Engine.StoreChannel | src/serial.c:175-177 | `chv[k] = v & 0xfff`, and `u` loses both bytes of the word |
| Serial.Engine.AcceptFrame | src/serial.c:164-171 | `update()` logs the channels, m = 0, u = 0xffff, then half duplex with the timer running |
| Serial.Engine.RxSensor | src/serial.c:110-153 | the telemetry branch follows `SensorStep`. A reply fills `tx[..txq]` with exactly the reply bytes and turns the transmitter on |
| Serial.Engine.CountSensorByte | src/serial.c:111-177 | the chunk counter. The first word is kept as c, d and subtracted from `u`. The second is checked against `c == 4` and `u`. A failed check leaves m at 4 |
| Serial.Engine.Reply | src/serial.c:116-149 | the dispatch gives exactly `Respond`'s reply in `tx` and writes CR1 to transmit, or changes nothing |
| Serial.Engine.PrepareReply | src/serial.c:116-148 | the switch on the command nibble reports whether a reply is due, and fills `tx` with `Respond`'s reply |
| Serial.Engine.OnTxEmpty | src/serial.c:96-101 | `tx[txp]` goes on the wire and `txp` advances. After the last byte, CR1 switches to wait for transmission complete |
| Serial.Engine.OnTxComplete | src/serial.c:102-105 | the wire carries exactly the reply `tx[..txq]`, and the receiver is back on, still in half duplex |
| Serial.Engine.OnTimeout | src/serial.c:180-185 | back to full-duplex receive with the parser, `n` included, untouched. The CR1 writes are off, then receive |
| SerialFrames.ServoFeed | src/serial.c:154-177 | feeding one servo byte keeps the parser's ranges and logs `chv` on acceptance |
| SerialFrames.RunServo | src/serial.c:108-109 | after a non-empty stream, `b` is its last byte |
| SerialFrames.RunServoAppend | src/serial.c:94-178 | the parser is a fold: feeding `xs + ys` is feeding `xs`, then `ys` |
| SerialFrames.Channels | src/serial.c:161-175 | every channel of a frame is below 0x1000 |
| SerialFrames.InFrameOddStep | src/serial.c:160 | the first byte of a channel word only advances `n` |
| SerialFrames.InFrameEvenStep | src/serial.c:160-177 | the second byte of a channel word stores it masked and takes both bytes off `u` |
| SerialFrames.ServoPrefix | src/serial.c:155-177 | after the sync pair and j bytes without a sync pair: n = j, `u` is 0xff9f minus the completed words' bytes, and the completed channels are stored |
| SerialFrames.ServoFrame | src/serial.c:155-175 | after a whole frame, `chv` holds its fourteen masked channels whether or not the checksum matches. `update()` is called exactly once, on those channels, iff the frame's iBUS checksum holds. The telemetry parser is reset only then |
| SerialFrames.FrameChecksum | src/serial.c:157-163 | the parser's test (seed 0xff9f minus the channel bytes equals the 15th word) is the iBUS checksum of the frame with its sync pair |
| SerialFrames.IgnoredUntilSync | src/serial.c:160 | at position 30, bytes without a sync pair store nothing and never call `update()` |
| SerialFrames.SumUpdate | src/serial.c:177 | replacing one byte changes the sum by the difference |
| SerialFrames.SingleByteCorruptionRejected | src/serial.c:113-163 | the checksum detects every single-byte error |
| SerialFrames.ShortAfterSync | src/serial.c:155-164 | fewer than 30 bytes after a sync pair never call `update()`, whatever they contain |
| SerialFrames.RestartedFrameRejected | src/serial.c:155-164 | a frame whose bytes contain a second sync pair restarts framing there and never calls `update()` |
| SerialFrames.CorruptedFrameRejected | src/serial.c:155-164 | after an intact sync pair, a frame with any one of its 30 following bytes corrupted never calls `update()`: either the checksum rejects it, or the corruption forms a sync pair and too few bytes follow |
| SerialFrames.SensorFeed | src/serial.c:110-153 | feeding one request byte keeps the parser's ranges |
| SerialFrames.RunSensor | src/serial.c:110 | the telemetry parser never touches `n` |
| SerialFrames.TelemetryChunk | src/serial.c:111-119 | from a synchronised parser, a 4-byte chunk with c = 4 and a matching checksum resynchronises and yields exactly the dispatch's reply. Any other chunk leaves m at 4 with no reply |
| SerialFrames.StuckAfterBadChunk | src/serial.c:111 | once a chunk failed, every further byte is ignored: no reply, and c, d, u unchanged |
| Mixing.Deviation | src/lesu.c:38 | `t < 1500 ? 1500 - t : t - 1500` is the distance from centre |
| Mixing.Offset | src/lesu.c:42-44 | input2 is negative exactly below centre, and its magnitude is the deviation |
| Mixing.Switch | src/lesu.c:46-50 | input3 is 0 below 1450, 2 above 1550, and 1 otherwise |
| Mixing.Drive | src/lesu.c:58-63 | output2 is 1500 for \|t\| < 50, otherwise 1500 + t clamped to [1000, 2000], so never inside the dead band |
| Mixing.DriveOdd | src/jdm.c:66-71 | output2 is odd-symmetric about centre |
| Mixing.PumpCurve | src/lesu.c:52-56 | output1(0) = 1500. Otherwise 1500 + min(t + PUMP_MIN, PUMP_MAX), so non-zero demand lands in (1500 + PUMP_MIN, 1500 + PUMP_MAX]. The loader's constants are 100 and 260, the excavator's 150 and 500 (src/jdm.c:60-64) |
| Mixing.PumpCurveMonotone | src/lesu.c:52-56 | more valve demand never slows the pump |
| Mixing.Ramp | src/lesu.c:83-95 | ramp returns t when u or x is 0. The result is on t's side of centre and never passes t. Below centre it is `max(t, min(u - x, 1450))`, and symmetrically above |
| Mixing.RampNeutral | src/jdm.c:79-91 | a neutral target is reached at once |
| Mixing.RampFixedPoint | src/lesu.c:83-95 | `ramp(t, t, x) == t` for x > 0 |
| Mixing.RampSettles | src/lesu.c:83-95 | repeated calls with a fixed target reach it after at most ⌈\|t - u\| / x⌉ + 1 calls |
| Mixing.TrackRamp | src/lesu.c:111-112 | a limited track command is centre, or outside the dead band and within the duty cap |
| Mixing.RampAccelerationLimited | src/jdm.c:79-91 | once on the target's side, the command moves away from centre by at most x per call (moves back towards centre are not limited) |
| Loader.Valve | src/lesu.c:37-40 | input1 is 0 iff the deviation is below 84. Beyond 80 it is the floor of 60·(d − 80)/200 |
| Loader.ValveSymmetric | src/lesu.c:37-40 | input1 is symmetric about 1500 |
| Loader.ValveMonotone | src/lesu.c:37-40 | more deflection never gives less demand |
| Loader.Direction | src/lesu.c:66-80 | output3 never sets both f and r. Reverse iff t < 1450, forward iff t > 1550. The magnitude is the deviation when driving, else 0 |
| Loader.BlinkMode | src/lesu.c:127-134 | s2 ≠ 0 forces s2 + 2. Otherwise i3 < −100 or \|i4\| < 50 gives 0. With i3 > −50, i4 < −250 gives 1 and i4 > 250 gives 2. Otherwise the previous mode is kept |
| Loader.BlinkSettles | src/lesu.c:127-145 | the same sticks select the same mode again, so a steady input reprograms the timer at most once |
| Loader.Controller.constructor | src/lesu.c:97-127 | statics zero, A13 high, indicators off |
| Loader.Controller.Update | src/lesu.c:101-157 | the decoded switches and sticks. Tracks `ramp(output2(i3 ± i4), u, 20)` and pump `ramp(output1(i1 + i2 + i5), u, 20)`, the pump idle iff no valve is open. The H-bridge lines and duties follow output3. The blink mode is `BlinkMode`, with the timer reprogrammed only on a change. A13 is high iff i3 ≥ −50, A14 is high iff s1 ≠ 0. The watchdog is refreshed on every call |
| Loader.Controller.Decode | src/lesu.c:102-150 | the decoding of the five sticks and two switches, the two lines, and the watchdog refresh |
| Loader.Controller.Mix | src/lesu.c:111-145 | the pump, the tracks and the indicators as in `Update`, keeping the output invariants |
| Loader.Controller.PumpCommand | src/lesu.c:113 | the pump command is the limited pump duty, idle exactly when no valve is open |
| Loader.Controller.Tracks | src/lesu.c:111-120 | limited track commands, H-bridge lines never both driven, and duties in (50, 500] or 0 |
| Loader.Controller.Indicators | src/lesu.c:127-145 | the blink mode follows `BlinkMode`. The indicator timer is reprogrammed, to bits `b & 1`, `b & 2` and `b & 4`, exactly when the mode changes |
| Excavator.ValveOpening | src/jdm.c:44-47 | 0 iff d < 202. Floor of 150·(d − 200)/200, at most 74, below 300. Floor of 150·(d − 250)/100, at least 75, from 300 |
| Excavator.ValveContinuous | src/jdm.c:46-47 | the segments meet at 74 and 75 |
| Excavator.ValveMonotone | src/jdm.c:42-48 | the opening never decreases with deflection |
| Excavator.ValveFirstSlope | src/jdm.c:46 | +3 per 4 units of deflection in the first segment |
| Excavator.ValveSecondSlope | src/jdm.c:47 | +3 per 2 units in the second segment, twice as steep |
| Excavator.Input1 | src/jdm.c:42-48 | `*u = t + trim` always, and the returned opening is `ValveOpening` of the deviation |
| Excavator.Output1 | src/jdm.c:60-64 | `*s` is set iff t ≠ 0, and the duty is `PumpCurve` with the excavator's 150 and 500 |
| Excavator.Aux | src/jdm.c:73-77 | output3 is 1500 + min(max(t, 0), 500), always in [1500, 2000] |
| Excavator.AuxMonotone | src/jdm.c:73-77 | output3 is non-decreasing |
| Excavator.FanNext | src/jdm.c:142 | the fan turns on above 300, off below 250, and is unchanged in between |
| Excavator.FanHoldsInBand | src/jdm.c:142 | readings inside the band never switch the fan |
| Excavator.FanFollowsLastDecisive | src/jdm.c:142 | the fan state is decided by the last reading outside the band |
| Excavator.Controller.constructor | src/jdm.c:93-95 | statics zero, A13 high, fan off |
| Excavator.Controller.Update | src/jdm.c:97-134 | the decoded sticks, with the trimmed servo commands. Pump `ramp(output1(i1 + i2 + i5), u4, 20)`, tracks with limit 10. u7 = 2000 if s2 ≠ 0, else 1000 if s3 ≠ 0, else 1500. u8 = output3(i1 + i2 + \|i3\| + \|i4\| + i5). A13 low iff the pump is engaged, A14 iff s1 ≠ 0. The watchdog is refreshed, the fan untouched |
| Excavator.Controller.Decode | src/jdm.c:98-106 | the switches, the valve openings with their trimmed servo commands, and the two offsets |
| Excavator.Controller.Mix | src/jdm.c:108-127 | the pump, tracks, switch and demand outputs and the lines, as in `Update` |
| Excavator.Controller.PumpCommand | src/jdm.c:108-125 | the limited pump duty, with A13 low exactly while the pump is engaged |
| Excavator.Controller.Tracks | src/jdm.c:110-111 | limited tank-mix track commands |
| Excavator.Controller.Auxiliary | src/jdm.c:112-127 | the three-way u7, the demand output u8, A14 and the watchdog refresh |
| Excavator.Controller.Sensor | src/jdm.c:138-149 | case 0 returns t + 400 with t = ((v·3316) >> 12) − 500, and switches the fan by `FanNext`. Case 1 returns (v·3640) >> 12. Any other index returns 0 |

## Left out

- `src/passthru.c`, `main()` of both profiles and `initserial`: clock, pin,
  timer and interrupt configuration. The constructors only set the initial
  state these leave.
- The `DEBUG` code: `_write`, the `printf` loops, and the frame-rate
  divider at the end of `update()`.
- The timer interrupts that shape outputs: the loader's `tim3_isr` (strobe
  and buzzer patterns), and the excavator's software PWM interrupts
  (`tim1_brk_up_trg_com_isr`, `tim1_cc_isr`). The loader's indicator timer
  is kept only as three booleans: left toggling, right toggling, fast
  prescaler.
- The loader's `sensor()`. Its temperature formula depends on factory
  calibration constants that are not part of this model. `senstype`,
  `sensval` and `initsensor` are not part of this model either; the serial
  engine takes the first two as function parameters.
- Timing: the baud rate, the 3.6 ms timeout and the watchdog period.
  Interrupt priorities and nesting are left out too. Each interrupt is one
  atomic method call, and the timeout is the event `OnTimeout`.
- Raw register encodings (BSRR masks, CCMR modes, CR3) are kept only as the
  line states and values they produce.
- The order of register writes within `update()`. The models write A13, A14
  and the watchdog at a different point than the code does, which makes no
  difference because nothing reads them in between.
- SerialFrames.CorruptedFrameRejected: covers only corruption of the 30
  bytes after an intact sync pair. A corrupted sync byte can merge the frame
  with an earlier cut-off one, whose sync pair then starts a body that may
  pass the checksum. The code does not guard against this, and the model
  makes no promise about it.
- 32-bit `int` overflow. All arithmetic is unbounded. Channel values are
  below 0x1000 and ADC readings are 12-bit, so no product in the code comes
  near the 32-bit range.
- Excavator.Controller.Sensor: the fan is modelled as the A5 line. The
  `sensors` table, which only configures the external sensor module, is
  left out.
