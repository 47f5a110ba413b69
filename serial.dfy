/** The iBUS serial engine of src/serial.c: one UART shared between inbound
    servo frames (full duplex, listening on RX) and sensor telemetry
    (half duplex, request and reply on the TX pin).

    The byte-level behaviour is given twice: as pure step functions
    (ServoStep, SensorStep, Respond) that the stream lemmas of module
    SerialFrames reason about, and as the class Engine whose interrupt
    methods update the parser fields, the channel array and the transmit
    buffer in place and are proved to follow the step functions.

    `char` is the unsigned byte of ARM GCC; `x >> k` on an int is GCC's
    arithmetic shift, i.e. floor division, which is Dafny's `/` by a positive
    power of two. */
module Serial {

  type Byte = x: int | 0 <= x < 256

  datatype Option<T> = None | Some(value: T)

  const SYNC_LO: Byte := 0x20
  const SYNC_HI: Byte := 0x40
  /** Checksum seed of a servo frame: 0xffff minus the two sync bytes. */
  const SERVO_SEED := 0xff9f
  /** Checksum seed of a telemetry request. */
  const SENS_SEED := 0xffff
  const CHANNELS := 14
  /** Frame position counter after the checksum word; also "hunting for sync". */
  const FRAME_END := 30
  /** Telemetry chunk position after the checksum word; also "sync lost". */
  const CHUNK_END := 4
  const PROBE := 0x80
  const TYPE := 0x90
  const VALUE := 0xa0

  // ---------------------------------------------------------------------
  // Byte arithmetic

  /** `a | b << 8`: a little-endian 16-bit word. */
  function Word(lo: Byte, hi: Byte): (w: nat)
    ensures w < 0x10000
    ensures w % 256 == lo && w / 256 == hi
  {
    lo + 256 * hi
  }

  /** Sum of a byte string, as the subtractive checksums accumulate it. */
  function Sum(s: seq<Byte>): (r: nat)
    ensures r <= 255 * |s|
    decreases |s|
  {
    if s == [] then 0 else Sum(s[..|s| - 1]) + s[|s| - 1]
  }

  lemma {:induction false} SumAppend(s: seq<Byte>, t: seq<Byte>)
    ensures Sum(s + t) == Sum(s) + Sum(t)
    decreases |t|
  {
    if t == [] {
      assert s + t == s;
    } else {
      assert (s + t)[..|s + t| - 1] == s + t[..|t| - 1];
      SumAppend(s, t[..|t| - 1]);
    }
  }

  lemma SumPrefixStep(s: seq<Byte>, i: int)
    requires 0 < i <= |s|
    ensures Sum(s[..i]) == Sum(s[..i - 1]) + s[i - 1]
  {
    assert s[..i][..i - 1] == s[..i - 1];
  }

  lemma Sum4(s: seq<Byte>)
    requires |s| == 4
    ensures Sum(s) == s[0] as int + s[1] + s[2] + s[3]
  {
    SumPrefixStep(s, 4);
    SumPrefixStep(s, 3);
    SumPrefixStep(s, 2);
    SumPrefixStep(s, 1);
    assert s[..4] == s;
  }

  lemma Sum6(s: seq<Byte>)
    requires |s| == 6
    ensures Sum(s) == s[0] as int + s[1] + s[2] + s[3] + s[4] + s[5]
  {
    SumPrefixStep(s, 6);
    SumPrefixStep(s, 5);
    Sum4(s[..4]);
    assert s[..6] == s;
    assert s[..5][..4] == s[..4];
  }

  /** A checksum word below 0x10000 read back from its two bytes. */
  lemma WordOfLeBytes(u: int)
    requires 0 <= u < 0x10000
    ensures Word(LeBytes(u, 2)[0], LeBytes(u, 2)[1]) == u
  {
    var s := LeBytes(u, 2);
    assert s[0] == u % 256 && s[1] == (u / 256) % 256;
    assert u / 256 < 256;
  }

  /** The iBUS checksum discipline: the last two bytes, little-endian, plus
      the sum of all bytes before them, is 0xffff. */
  predicate ChecksumOk(f: seq<Byte>)
  {
    |f| >= 2 && Sum(f[..|f| - 2]) + Word(f[|f| - 2], f[|f| - 1]) == 0xffff
  }

  /** Reading a little-endian byte string back as a number. */
  function LittleEndian(s: seq<Byte>): nat
    decreases |s|
  {
    if s == [] then 0 else s[0] + 256 * LittleEndian(s[1..])
  }

  function Pow256(k: nat): (r: nat)
    ensures r > 0
  {
    if k == 0 then 1 else 256 * Pow256(k - 1)
  }

  /** The k low bytes of x, least significant first (`char a = x, b = x >> 8, ...`). */
  function LeBytes(x: int, k: nat): (s: seq<Byte>)
    ensures |s| == k
    decreases k
  {
    if k == 0 then [] else [x % 256] + LeBytes(x / 256, k - 1)
  }

  lemma MulAtLeast(d: int, k: int)
    requires d > 0 && k >= 1
    ensures d * k >= d
  {
  }

  lemma DivModUnique(x: int, d: int, q: int, r: int)
    requires d > 0 && 0 <= r < d && x == d * q + r
    ensures x / d == q && x % d == r
  {
    var q0, r0 := x / d, x % d;
    assert x == d * q0 + r0 && 0 <= r0 < d;
    assert d * (q0 - q) == r - r0 by {
      assert d * (q0 - q) == d * q0 - d * q;
    }
    if q0 > q {
      MulAtLeast(d, q0 - q);
    } else if q0 < q {
      MulAtLeast(d, q - q0);
    }
  }

  lemma ModSplit(x: int, m: nat)
    requires m > 0
    ensures x % (256 * m) == x % 256 + 256 * ((x / 256) % m)
  {
    var q, r := x / 256, x % 256;
    var q1, r1 := q / m, q % m;
    assert q == m * q1 + r1;
    assert x == (256 * m) * q1 + (256 * r1 + r) by {
      assert x == 256 * q + r;
      assert 256 * q == 256 * (m * q1) + 256 * r1;
    }
    assert 256 * r1 <= 256 * (m - 1);
    DivModUnique(x, 256 * m, q1, 256 * r1 + r);
  }

  /** Splitting into bytes and reading them back gives x modulo 256^k. */
  lemma {:induction false} LeRoundTrip(x: int, k: nat)
    ensures LittleEndian(LeBytes(x, k)) == x % Pow256(k)
    decreases k
  {
    if k > 0 {
      LeRoundTrip(x / 256, k - 1);
      ModSplit(x, Pow256(k - 1));
      assert LeBytes(x, k)[1..] == LeBytes(x / 256, k - 1);
    }
  }

  // ---------------------------------------------------------------------
  // Telemetry replies (send2, send4 and the probe echo)

  /** send2(p, x): length 6, command byte, 16-bit payload, checksum. */
  function Frame2(p: Byte, x: int): (f: seq<Byte>)
    ensures |f| == 6 && f[0] == 6 && f[1] == p
    ensures LittleEndian(f[2..4]) == x % 0x10000
    ensures ChecksumOk(f)
  {
    var payload := LeBytes(x, 2);
    var u := 0xfff9 - p - payload[0] - payload[1];
    var f := [6, p] + payload + LeBytes(u, 2);
    assert LittleEndian(f[2..4]) == x % 0x10000 by {
      assert f[2..4] == payload;
      LeRoundTrip(x, 2);
    }
    assert ChecksumOk(f) by {
      Sum4(f[..4]);
      WordOfLeBytes(u);
    }
    f
  }

  /** send4(p, x): length 8, command byte, 32-bit payload, checksum. */
  function Frame4(p: Byte, x: int): (f: seq<Byte>)
    ensures |f| == 8 && f[0] == 8 && f[1] == p
    ensures LittleEndian(f[2..6]) == x % 0x1_0000_0000
    ensures ChecksumOk(f)
  {
    var payload := LeBytes(x, 4);
    var u := 0xfff7 - p - payload[0] - payload[1] - payload[2] - payload[3];
    var f := [8, p] + payload + LeBytes(u, 2);
    assert LittleEndian(f[2..6]) == x % 0x1_0000_0000 by {
      assert f[2..6] == payload;
      LeRoundTrip(x, 4);
    }
    assert ChecksumOk(f) by {
      Sum6(f[..6]);
      WordOfLeBytes(u);
    }
    f
  }

  /** `d & 0xf0`: the command nibble of a request. */
  function Command(d: Byte): int
  {
    d - d % 16
  }

  /** `(d & 0xf) - 1`: the sensor index of a request. */
  function SensorIndex(d: Byte): int
  {
    d % 16 - 1
  }

  /** Whether a request with command byte d gets a reply at all. */
  predicate Answered(d: Byte, senstype: int -> int)
  {
    var i := SensorIndex(d);
    var t := senstype(i);
    i >= 0 && t != 0 &&
    (Command(d) == PROBE || Command(d) == TYPE ||
     (Command(d) == VALUE && (t / 256 == 2 || t / 256 == 4)))
  }

  /** The reply to a request [c, d, lo, hi] that passed the chunk check. */
  function Respond(c: Byte, d: Byte, lo: Byte, hi: Byte,
                   senstype: int -> int, sensval: int -> int): (r: Option<seq<Byte>>)
    ensures r.Some? <==> Answered(d, senstype)
    ensures r.Some? ==> 4 <= |r.value| <= 8 && r.value[1] == d
    ensures r.Some? && c == 4 && ChecksumOk([c, d, lo, hi]) ==>
              r.value[0] == |r.value| && ChecksumOk(r.value)
    ensures r.Some? && Command(d) == PROBE ==> r.value == [c, d, lo, hi]
    ensures r.Some? && Command(d) == TYPE ==>
              |r.value| == 6 && LittleEndian(r.value[2..4]) == senstype(SensorIndex(d)) % 0x10000
    ensures r.Some? && Command(d) == VALUE && senstype(SensorIndex(d)) / 256 == 2 ==>
              |r.value| == 6 && LittleEndian(r.value[2..4]) == sensval(SensorIndex(d)) % 0x10000
    ensures r.Some? && Command(d) == VALUE && senstype(SensorIndex(d)) / 256 == 4 ==>
              |r.value| == 8 && LittleEndian(r.value[2..6]) == sensval(SensorIndex(d)) % 0x1_0000_0000
  {
    var i := SensorIndex(d);
    if i < 0 then None
    else
      var t := senstype(i);
      if t == 0 then None
      else if Command(d) == PROBE then Some([c, d, lo, hi])
      else if Command(d) == TYPE then Some(Frame2(d, t))
      else if Command(d) == VALUE then
        if t / 256 == 2 then Some(Frame2(d, sensval(i)))
        else if t / 256 == 4 then Some(Frame4(d, sensval(i)))
        else None
      else None
  }

  // ---------------------------------------------------------------------
  // The receive parser as pure steps

  /** The static parser variables of usart1_isr: the last two bytes a, b,
      the request descriptor c, d, the running checksum u, the telemetry
      chunk position m and the servo frame position n. */
  datatype Parser = Parser(a: Byte, b: Byte, c: Byte, d: Byte, u: int, m: int, n: int)

  predicate ParserOk(p: Parser)
  {
    0 <= p.m <= CHUNK_END && 0 <= p.n <= FRAME_END
  }

  datatype ServoResult = ServoResult(p: Parser, chv: seq<int>, accepted: bool)

  /** One byte received in full-duplex (servo) mode. `accepted` is the call
      of update() on a frame whose checksum matched. */
  function ServoStep(p: Parser, chv: seq<int>, x: Byte): (r: ServoResult)
    requires ParserOk(p) && |chv| == CHANNELS
    ensures ParserOk(r.p) && |r.chv| == CHANNELS
    ensures r.p.a == p.b && r.p.b == x && r.p.c == p.c && r.p.d == p.d
    ensures p.b == SYNC_LO && x == SYNC_HI ==>
              r.p.n == 0 && r.p.u == SERVO_SEED && r.p.m == p.m && r.chv == chv && !r.accepted
    ensures p.n == FRAME_END && !(p.b == SYNC_LO && x == SYNC_HI) ==>
              r == ServoResult(p.(a := p.b, b := x), chv, false)
    ensures r.accepted <==>
              !(p.b == SYNC_LO && x == SYNC_HI) && p.n == FRAME_END - 1 && p.u == Word(p.b, x)
    ensures r.accepted ==> r.p.n == FRAME_END && r.p.m == 0 && r.p.u == SENS_SEED && r.chv == chv
    ensures forall k | 0 <= k < CHANNELS && r.chv[k] != chv[k] ::
              !(p.b == SYNC_LO && x == SYNC_HI) && p.n + 1 == 2 * k + 2 && r.chv[k] == Word(p.b, x) % 0x1000
  {
    var a, b := p.b, x;
    if a == SYNC_LO && b == SYNC_HI then
      ServoResult(p.(a := a, b := b, n := 0, u := SERVO_SEED), chv, false)
    else if p.n == FRAME_END then
      ServoResult(p.(a := a, b := b), chv, false)
    else
      var n := p.n + 1;
      if n % 2 == 1 then
        ServoResult(p.(a := a, b := b, n := n), chv, false)
      else
        var v := Word(a, b);
        if n == FRAME_END then
          if p.u != v then ServoResult(p.(a := a, b := b, n := n), chv, false)
          else ServoResult(p.(a := a, b := b, n := n, m := 0, u := SENS_SEED), chv, true)
        else
          ServoResult(p.(a := a, b := b, n := n, u := p.u - (a + b)), chv[n / 2 - 1 := v % 0x1000], false)
  }

  datatype SensorResult = SensorResult(p: Parser, reply: Option<seq<Byte>>)

  /** One byte received in half-duplex (telemetry) mode. */
  function SensorStep(p: Parser, x: Byte, senstype: int -> int, sensval: int -> int): (r: SensorResult)
    requires ParserOk(p)
    ensures ParserOk(r.p) && r.p.n == p.n
    ensures r.p.a == p.b && r.p.b == x
    ensures p.m == CHUNK_END ==> r == SensorResult(p.(a := p.b, b := x), None)
    ensures r.reply.Some? ==> p.m == CHUNK_END - 1 && p.c == 4 && p.u == Word(p.b, x)
    ensures p.m == CHUNK_END - 1 ==>
              if p.c == 4 && p.u == Word(p.b, x)
              then r.p.m == 0 && r.p.u == SENS_SEED && r.reply == Respond(p.c, p.d, p.b, x, senstype, sensval)
              else r.p.m == CHUNK_END && r.reply.None?
  {
    var a, b := p.b, x;
    if p.m == CHUNK_END then SensorResult(p.(a := a, b := b), None)
    else
      var m := p.m + 1;
      if m % 2 == 1 then SensorResult(p.(a := a, b := b, m := m), None)
      else if m == CHUNK_END then
        if p.c != 4 || p.u != Word(a, b) then SensorResult(p.(a := a, b := b, m := m), None)
        else SensorResult(p.(a := a, b := b, m := 0, u := SENS_SEED), Respond(p.c, p.d, a, b, senstype, sensval))
      else
        SensorResult(p.(a := a, b := b, m := m, c := a, d := b, u := p.u - (a + b)), None)
  }

  // ---------------------------------------------------------------------
  // The USART control register and the engine

  /** The bits of USART1_CR1 that the engine writes. */
  datatype Cr1 = Cr1(ue: bool, re: bool, te: bool, rxneie: bool, txeie: bool, tcie: bool)

  const CR1_OFF := Cr1(false, false, false, false, false, false)
  /** UE | RE | RXNEIE: receiving. */
  const CR1_RX := Cr1(true, true, false, true, false, false)
  /** UE | TE | TXEIE: sending the reply byte by byte. */
  const CR1_TX := Cr1(true, false, true, false, true, false)
  /** UE | TE | TCIE: waiting for the last byte to leave the wire. */
  const CR1_TC := Cr1(true, false, true, false, false, true)

  /** Receiver and transmitter are never both enabled on the shared line. */
  predicate HalfDuplexSafe(c: Cr1)
  {
    !(c.re && c.te)
  }

  datatype Mode = FullDuplexRx | HalfDuplexRx | Transmitting | AwaitingTC

  class Engine {
    var a: Byte
    var b: Byte
    var c: Byte
    var d: Byte
    var u: int
    var m: int
    var n: int
    /** The channel store, written by the servo parser. */
    const chv: array<int>
    /** The reply buffer and its cursor. */
    const tx: array<Byte>
    var txp: int
    var txq: int
    /** USART1_CR1 and the HDSEL bit of USART1_CR3. */
    var cr1: Cr1
    var hdsel: bool
    /** TIM16 counting towards the 3.6 ms one-shot timeout. */
    var timerOn: bool
    /** Snapshot of chv at every call of update(). */
    ghost var updates: seq<seq<int>>
    /** Every byte written to the transmit data register. */
    ghost var wire: seq<Byte>
    /** Length of `wire` when the current reply started. */
    ghost var txStart: int
    /** Every value written to USART1_CR1. */
    ghost var cr1Log: seq<Cr1>

    ghost predicate Valid()
      reads this`m, this`n, this`txp, this`txq, this`cr1, this`hdsel, this`timerOn
      reads this`cr1Log, this`txStart, this`wire, tx
    {
      && chv.Length == CHANNELS && tx.Length == 8
      && 0 <= m <= CHUNK_END && 0 <= n <= FRAME_END
      && RegistersValid()
      && BufferValid()
    }

    /** The CR1/CR3/timer configurations the engine can be in, and the
        half-duplex rule for every CR1 value ever written. */
    ghost predicate RegistersValid()
      reads this`txp, this`txq, this`cr1, this`hdsel, this`timerOn, this`cr1Log
    {
      && 0 <= txp <= txq <= 8
      && (cr1 == CR1_RX || cr1 == CR1_TX || cr1 == CR1_TC)
      && (cr1 != CR1_RX ==> hdsel)
      && hdsel == timerOn
      && (cr1 == CR1_TX ==> txp < txq)
      && (cr1 == CR1_TC ==> txp == txq)
      && |cr1Log| > 0 && cr1Log[|cr1Log| - 1] == cr1
      && (forall i | 0 <= i < |cr1Log| :: HalfDuplexSafe(cr1Log[i]))
    }

    /** While a reply is on its way, what has left the wire is the start of tx. */
    ghost predicate BufferValid()
      reads this`txp, this`cr1, this`txStart, this`wire, tx
    {
      0 <= txp <= tx.Length &&
      (cr1 != CR1_RX ==> 0 <= txStart <= |wire| && wire[txStart..] == tx[..txp])
    }

    function ParserState(): Parser
      reads this`a, this`b, this`c, this`d, this`u, this`m, this`n
    {
      Parser(a, b, c, d, u, m, n)
    }

    function CurrentMode(): Mode
      reads this`cr1, this`hdsel
    {
      if cr1.txeie then Transmitting
      else if cr1.tcie then AwaitingTC
      else if hdsel then HalfDuplexRx
      else FullDuplexRx
    }

    /** Power-on state: zeroed statics with n = 30 (hunting for sync), and
        the receiver enabled in full duplex as initserial leaves it. */
    constructor ()
      ensures Valid() && fresh(chv) && fresh(tx)
      ensures ParserState() == Parser(0, 0, 0, 0, 0, 0, FRAME_END)
      ensures chv[..] == seq(CHANNELS, _ => 0) && txp == 0 && txq == 0
      ensures CurrentMode() == FullDuplexRx && !timerOn
      ensures updates == [] && wire == [] && cr1Log == [CR1_RX]
    {
      a, b, c, d := 0, 0, 0, 0;
      u, m, n := 0, 0, FRAME_END;
      chv := new int[CHANNELS](_ => 0);
      tx := new Byte[8](_ => 0);
      txp, txq := 0, 0;
      cr1, hdsel, timerOn := CR1_RX, false, false;
      updates, wire, txStart, cr1Log := [], [], 0, [CR1_RX];
    }

    method WriteCr1(v: Cr1)
      requires HalfDuplexSafe(v)
      modifies this`cr1, this`cr1Log
      ensures cr1 == v && cr1Log == old(cr1Log) + [v]
    {
      cr1 := v;
      cr1Log := cr1Log + [v];
    }

    /** send2: fills the reply buffer with Frame2 and rewinds the cursor. */
    method Send2(p: Byte, x: int)
      requires tx.Length == 8
      modifies this`txp, this`txq, tx
      ensures tx[..6] == Frame2(p, x) && tx[6..] == old(tx[6..])
      ensures txp == 0 && txq == 6
    {
      var f := Frame2(p, x);
      tx[0] := 6;
      tx[1] := p;
      tx[2] := f[2];
      tx[3] := f[3];
      tx[4] := f[4];
      tx[5] := f[5];
      txp := 0;
      txq := 6;
    }

    /** send4: fills the reply buffer with Frame4 and rewinds the cursor. */
    method Send4(p: Byte, x: int)
      requires tx.Length == 8
      modifies this`txp, this`txq, tx
      ensures tx[..] == Frame4(p, x)
      ensures txp == 0 && txq == 8
    {
      var f := Frame4(p, x);
      tx[0] := 8;
      tx[1] := p;
      tx[2] := f[2];
      tx[3] := f[3];
      tx[4] := f[4];
      tx[5] := f[5];
      tx[6] := f[6];
      tx[7] := f[7];
      txp := 0;
      txq := 8;
    }

    /** usart1_isr with RXNE raised: one received byte x, parsed as servo
        data in full duplex and as a sensor request in half duplex. */
    method OnRxByte(x: Byte, senstype: int -> int, sensval: int -> int)
      requires Valid() && cr1.rxneie
      modifies this, chv, tx
      ensures Valid()
      ensures wire == old(wire) && timerOn == hdsel
      ensures !old(hdsel) ==>
        var r := ServoStep(old(ParserState()), old(chv[..]), x);
        && ParserState() == r.p && chv[..] == r.chv
        && updates == old(updates) + (if r.accepted then [r.chv] else [])
        && hdsel == r.accepted && cr1 == CR1_RX
        && cr1Log == old(cr1Log) + (if r.accepted then [CR1_OFF, CR1_RX] else [])
        && tx[..] == old(tx[..]) && txp == old(txp) && txq == old(txq)
      ensures old(hdsel) ==>
        var r := SensorStep(old(ParserState()), x, senstype, sensval);
        && ParserState() == r.p && chv[..] == old(chv[..]) && updates == old(updates) && hdsel
        && (r.reply.Some? ==>
              && txp == 0 && txq == |r.reply.value| && tx[..txq] == r.reply.value
              && cr1 == CR1_TX && cr1Log == old(cr1Log) + [CR1_TX])
        && (r.reply.None? ==>
              && tx[..] == old(tx[..]) && txp == old(txp) && txq == old(txq)
              && cr1 == CR1_RX && cr1Log == old(cr1Log))
    {
      if hdsel {
        RxSensor(x, senstype, sensval);
      } else {
        RxServo(x);
      }
    }

    /** The iBUS servo branch of usart1_isr. */
    method RxServo(x: Byte)
      requires Valid() && cr1 == CR1_RX && !hdsel
      modifies this, chv
      ensures Valid()
      ensures wire == old(wire) && timerOn == hdsel
      ensures
        var r := ServoStep(old(ParserState()), old(chv[..]), x);
        && ParserState() == r.p && chv[..] == r.chv
        && updates == old(updates) + (if r.accepted then [r.chv] else [])
        && hdsel == r.accepted && cr1 == CR1_RX
        && cr1Log == old(cr1Log) + (if r.accepted then [CR1_OFF, CR1_RX] else [])
        && txp == old(txp) && txq == old(txq)
    {
      a := b;
      b := x;
      if a == SYNC_LO && b == SYNC_HI {
        n := 0;
        u := SERVO_SEED;
      } else if n != FRAME_END {
        CountServoByte();
      }
    }

    /** The position counter of the servo parser after a byte that is not
        the second half of a sync pair: every second byte completes a word,
        which is a channel or, at the end, the checksum. */
    method CountServoByte()
      requires Valid() && cr1 == CR1_RX && !hdsel && n < FRAME_END
      modifies this`n, this`u, this`m, chv, this`updates, this`cr1, this`cr1Log, this`hdsel, this`timerOn
      ensures Valid() && timerOn == hdsel && n == old(n) + 1
      ensures
        var accepted := n == FRAME_END && old(u) == Word(a, b);
        && (n % 2 == 0 && n != FRAME_END ==>
              chv[..] == old(chv[..])[n / 2 - 1 := Word(a, b) % 0x1000] && u == old(u) - (a + b))
        && (n % 2 == 1 || n == FRAME_END ==> chv[..] == old(chv[..]))
        && (n % 2 == 1 || (n == FRAME_END && !accepted) ==> u == old(u))
        && (accepted ==> m == 0 && u == SENS_SEED)
        && (!accepted ==> m == old(m))
        && updates == old(updates) + (if accepted then [chv[..]] else [])
        && hdsel == accepted && cr1 == CR1_RX
        && cr1Log == old(cr1Log) + (if accepted then [CR1_OFF, CR1_RX] else [])
    {
      n := n + 1;
      if n % 2 == 0 {
        var v := Word(a, b);
        if n != FRAME_END {
          StoreChannel(n / 2 - 1, v);
        } else if u == v {
          AcceptFrame();
        }  // else sync lost: n stays at FRAME_END until the next sync
      }
    }

    /** One channel word of a servo frame: its low 12 bits go into the
        store and both its bytes are taken off the running checksum. */
    method StoreChannel(k: int, v: int)
      requires chv.Length == CHANNELS && 0 <= k < CHANNELS && v == Word(a, b)
      modifies chv, this`u
      ensures chv[..] == old(chv[..])[k := v % 0x1000] && u == old(u) - (a + b)
    {
      chv[k] := v % 0x1000;
      u := u - (a + b);
    }

    /** A servo frame whose checksum matched: update() runs on the channel
        store, then the line turns to half duplex and the timeout starts. */
    method AcceptFrame()
      requires RegistersValid() && cr1 == CR1_RX && !hdsel
      modifies this`updates, this`m, this`u, this`cr1, this`cr1Log, this`hdsel, this`timerOn
      ensures RegistersValid()
      ensures updates == old(updates) + [chv[..]]
      ensures m == 0 && u == SENS_SEED
      ensures cr1 == CR1_RX && hdsel && timerOn
      ensures cr1Log == old(cr1Log) + [CR1_OFF, CR1_RX]
    {
      updates := updates + [chv[..]];
      m := 0;
      u := SENS_SEED;
      WriteCr1(CR1_OFF);
      hdsel := true;
      WriteCr1(CR1_RX);
      timerOn := true;
    }

    /** The iBUS sensor branch of usart1_isr. */
    method RxSensor(x: Byte, senstype: int -> int, sensval: int -> int)
      requires Valid() && cr1 == CR1_RX && hdsel
      modifies this, tx
      ensures Valid()
      ensures wire == old(wire) && timerOn == hdsel
      ensures
        var r := SensorStep(old(ParserState()), x, senstype, sensval);
        && ParserState() == r.p && updates == old(updates) && hdsel
        && (r.reply.Some? ==>
              && txp == 0 && txq == |r.reply.value| && tx[..txq] == r.reply.value
              && cr1 == CR1_TX && cr1Log == old(cr1Log) + [CR1_TX])
        && (r.reply.None? ==>
              && tx[..] == old(tx[..]) && txp == old(txp) && txq == old(txq)
              && cr1 == CR1_RX && cr1Log == old(cr1Log))
    {
      a := b;
      b := x;
      if m != CHUNK_END {
        CountSensorByte(senstype, sensval);
      }
    }

    /** The position counter of the sensor parser: the first word of a
        request is kept as [c, d], the second is its checksum. */
    method CountSensorByte(senstype: int -> int, sensval: int -> int)
      requires Valid() && cr1 == CR1_RX && hdsel && m < CHUNK_END
      modifies this`m, this`u, this`c, this`d, this`txp, this`txq, this`cr1, this`cr1Log, this`txStart, tx
      ensures Valid() && hdsel
      ensures
        var ok := old(m) + 1 == CHUNK_END && old(c) == 4 && old(u) == Word(a, b);
        var r := if ok then Respond(old(c), old(d), a, b, senstype, sensval) else None;
        && (ok ==> m == 0 && u == SENS_SEED && c == old(c) && d == old(d))
        && (!ok && old(m) + 1 == 2 ==> m == 2 && c == a && d == b && u == old(u) - (a + b))
        && (!ok && old(m) + 1 != 2 ==> m == old(m) + 1 && c == old(c) && d == old(d) && u == old(u))
        && (r.Some? ==>
              && txp == 0 && txq == |r.value| && tx[..txq] == r.value
              && cr1 == CR1_TX && cr1Log == old(cr1Log) + [CR1_TX])
        && (r.None? ==>
              && tx[..] == old(tx[..]) && txp == old(txp) && txq == old(txq)
              && cr1 == CR1_RX && cr1Log == old(cr1Log))
    {
      m := m + 1;
      if m == CHUNK_END {
        if c == 4 && u == Word(a, b) {
          m := 0;
          u := SENS_SEED;
          Reply(senstype, sensval);
        }  // else sync lost: m stays at CHUNK_END until the timeout
      } else if m % 2 == 0 {
        c := a;
        d := b;
        u := u - (a + b);
      }
    }

    /** The reply dispatch of usart1_isr for the request [c, d, a, b]:
        fills tx and turns the transmitter on, or leaves everything as is. */
    method Reply(senstype: int -> int, sensval: int -> int)
      requires Valid() && cr1 == CR1_RX && hdsel
      modifies this`txp, this`txq, this`cr1, this`cr1Log, this`txStart, tx
      ensures Valid()
      ensures
        var r := Respond(c, d, a, b, senstype, sensval);
        && (r.Some? ==>
              && txp == 0 && txq == |r.value| && tx[..txq] == r.value
              && cr1 == CR1_TX && cr1Log == old(cr1Log) + [CR1_TX])
        && (r.None? ==>
              && tx[..] == old(tx[..]) && txp == old(txp) && txq == old(txq)
              && cr1 == CR1_RX && cr1Log == old(cr1Log))
    {
      var sent := PrepareReply(senstype, sensval);
      if sent {
        WriteCr1(CR1_TX);
        txStart := |wire|;
      }
    }

    /** The switch on the command nibble: fills tx when a reply is due. */
    method PrepareReply(senstype: int -> int, sensval: int -> int) returns (sent: bool)
      requires tx.Length == 8 && 0 <= txp <= txq <= 8
      modifies this`txp, this`txq, tx
      ensures 0 <= txp <= txq <= 8
      ensures
        var r := Respond(c, d, a, b, senstype, sensval);
        && sent == r.Some?
        && (r.Some? ==> txp == 0 && txq == |r.value| && tx[..txq] == r.value)
        && (r.None? ==> tx[..] == old(tx[..]) && txp == old(txp) && txq == old(txq))
    {
      sent := false;
      var i := SensorIndex(d);
      if i >= 0 {
        var t := senstype(i);
        if t != 0 {
          if Command(d) == PROBE {
            tx[0], tx[1], tx[2], tx[3] := c, d, a, b;
            txp, txq := 0, 4;
            sent := true;
          } else if Command(d) == TYPE {
            Send2(d, t);
            sent := true;
          } else if Command(d) == VALUE {
            var v := sensval(i);
            if t / 256 == 2 {
              Send2(d, v);
              sent := true;
            } else if t / 256 == 4 {
              Send4(d, v);
              sent := true;
            }
          }
        }
      }
    }

    /** usart1_isr with TXE raised: the next reply byte goes out; after the
        last one the engine waits for transmission complete. */
    method OnTxEmpty()
      requires Valid() && cr1.txeie
      modifies this
      ensures Valid()
      ensures wire == old(wire) + [tx[old(txp)]] && txp == old(txp) + 1
      ensures cr1 == (if txp == txq then CR1_TC else CR1_TX)
      ensures cr1Log == old(cr1Log) + (if txp == txq then [CR1_TC] else [])
      ensures ParserState() == old(ParserState()) && hdsel && txq == old(txq)
      ensures updates == old(updates) && txStart == old(txStart)
    {
      wire := wire + [tx[txp]];
      txp := txp + 1;
      if txp != txq { return; }
      WriteCr1(CR1_TC);
    }

    /** usart1_isr with TC raised: the whole reply has left the wire; the
        receiver is turned back on, still in half duplex. */
    method OnTxComplete()
      requires Valid() && cr1.tcie
      modifies this
      ensures Valid()
      ensures old(wire)[old(txStart)..] == tx[..txq]
      ensures cr1 == CR1_RX && hdsel && cr1Log == old(cr1Log) + [CR1_RX]
      ensures ParserState() == old(ParserState()) && wire == old(wire)
      ensures txp == old(txp) && txq == old(txq) && updates == old(updates)
    {
      WriteCr1(CR1_RX);
    }

    /** tim16_isr: the half-duplex window is over; back to full duplex
        servo listening. The parser variables, n included, are untouched. */
    method OnTimeout()
      requires Valid() && timerOn
      modifies this
      ensures Valid()
      ensures CurrentMode() == FullDuplexRx && !timerOn
      ensures cr1Log == old(cr1Log) + [CR1_OFF, CR1_RX]
      ensures ParserState() == old(ParserState()) && wire == old(wire)
      ensures txp == old(txp) && txq == old(txq) && updates == old(updates)
    {
      timerOn := false;  // one-shot: the counter stops at the update event
      WriteCr1(CR1_OFF);
      hdsel := false;
      WriteCr1(CR1_RX);
    }
  }
}
