/** What the byte-by-byte parsers of usart1_isr (src/serial.c) do to whole
    streams: a servo frame is 0x20 0x40, fourteen little-endian channel
    words and a checksum word; a telemetry request is a four-byte chunk
    [length 4, command, checksum low, checksum high]. */
module SerialFrames {
  import opened Serial

  /** The bytes of a servo frame after the two sync bytes. */
  const FRAME_BODY := 30

  /** The servo side of the engine after a stream of bytes: the parser, the
      channel store and the channel snapshots handed to update(). */
  datatype ServoRun = ServoRun(p: Parser, chv: seq<int>, updates: seq<seq<int>>)

  predicate ServoRunOk(r: ServoRun)
  {
    ParserOk(r.p) && |r.chv| == CHANNELS
  }

  function ServoFeed(r: ServoRun, x: Byte): (r': ServoRun)
    requires ServoRunOk(r)
    ensures ServoRunOk(r')
  {
    var s := ServoStep(r.p, r.chv, x);
    ServoRun(s.p, s.chv, r.updates + (if s.accepted then [s.chv] else []))
  }

  /** Feeding a byte string, one byte per receive interrupt. */
  function RunServo(r: ServoRun, xs: seq<Byte>): (r': ServoRun)
    requires ServoRunOk(r)
    ensures ServoRunOk(r')
    ensures xs != [] ==> r'.p.b == xs[|xs| - 1]
    decreases |xs|
  {
    if xs == [] then r else ServoFeed(RunServo(r, xs[..|xs| - 1]), xs[|xs| - 1])
  }

  lemma {:induction false} RunServoAppend(r: ServoRun, xs: seq<Byte>, ys: seq<Byte>)
    requires ServoRunOk(r)
    ensures RunServo(r, xs + ys) == RunServo(RunServo(r, xs), ys)
    decreases |ys|
  {
    if ys == [] {
      assert xs + ys == xs;
    } else {
      assert (xs + ys)[..|xs + ys| - 1] == xs + ys[..|ys| - 1];
      RunServoAppend(r, xs, ys[..|ys| - 1]);
    }
  }

  /** No two consecutive bytes of s form the sync pair 0x20 0x40. */
  predicate NoSyncPair(s: seq<Byte>)
  {
    forall i | 0 < i < |s| :: !(s[i - 1] == SYNC_LO && s[i] == SYNC_HI)
  }

  /** The fourteen channel words of a frame body, cut to 12 bits. */
  function Channels(xs: seq<Byte>): (ch: seq<int>)
    requires |xs| >= 2 * CHANNELS
    ensures |ch| == CHANNELS
    ensures forall k | 0 <= k < CHANNELS :: 0 <= ch[k] < 0x1000
  {
    seq(CHANNELS, k requires 0 <= k < CHANNELS => Word(xs[2 * k], xs[2 * k + 1]) % 0x1000)
  }

  /** The servo side r after the sync pair (state q) and the first j bytes
      of a frame body xs (j <= 28): the position is j, the running checksum
      has taken off every completed word, the completed channels are stored
      and the rest are untouched. */
  predicate InFrame(q: ServoRun, xs: seq<Byte>, j: nat, r: ServoRun)
    requires ServoRunOk(q) && ServoRunOk(r) && j <= 2 * CHANNELS <= |xs|
  {
    && r.p.n == j && r.p.m == q.p.m && r.updates == q.updates
    && r.p.u == SERVO_SEED - Sum(xs[..j - j % 2])
    && r.p.b == (if j == 0 then SYNC_HI else xs[j - 1])
    && (forall k | 0 <= k < CHANNELS ::
          r.chv[k] == if k < j / 2 then Word(xs[2 * k], xs[2 * k + 1]) % 0x1000 else q.chv[k])
  }

  /** The first byte of a channel word only advances the position. */
  lemma InFrameOddStep(q: ServoRun, xs: seq<Byte>, j: nat, r: ServoRun)
    requires ServoRunOk(q) && ServoRunOk(r) && 0 < j <= 2 * CHANNELS <= |xs| && j % 2 == 1
    requires InFrame(q, xs, j - 1, r) && !(r.p.b == SYNC_LO && xs[j - 1] == SYNC_HI)
    ensures InFrame(q, xs, j, ServoFeed(r, xs[j - 1]))
  {
    var x := xs[j - 1];
    assert ServoStep(r.p, r.chv, x) == ServoResult(r.p.(a := r.p.b, b := x, n := j), r.chv, false);
    assert j - j % 2 == (j - 1) - (j - 1) % 2;
  }

  /** The second byte of a channel word stores the channel and takes the
      word's bytes off the running checksum. */
  lemma InFrameEvenStep(q: ServoRun, xs: seq<Byte>, j: nat, r: ServoRun)
    requires ServoRunOk(q) && ServoRunOk(r) && 0 < j <= 2 * CHANNELS <= |xs| && j % 2 == 0
    requires InFrame(q, xs, j - 1, r) && !(r.p.b == SYNC_LO && xs[j - 1] == SYNC_HI)
    ensures InFrame(q, xs, j, ServoFeed(r, xs[j - 1]))
  {
    var x := xs[j - 1];
    assert ServoStep(r.p, r.chv, x) ==
      ServoResult(r.p.(a := r.p.b, b := x, n := j, u := r.p.u - (r.p.b + x)),
                  r.chv[j / 2 - 1 := Word(r.p.b, x) % 0x1000], false);
    SumPrefixStep(xs, j);
    SumPrefixStep(xs, j - 1);
  }

  /** InFrame holds along the whole channel part of a frame. */
  lemma {:induction false} ServoPrefix(q: ServoRun, xs: seq<Byte>, j: nat)
    requires ServoRunOk(q) && q.p.n == 0 && q.p.u == SERVO_SEED && q.p.b == SYNC_HI
    requires j <= 2 * CHANNELS <= |xs| && NoSyncPair([SYNC_HI] + xs)
    ensures InFrame(q, xs, j, RunServo(q, xs[..j]))
    decreases j
  {
    if j == 0 {
      assert xs[..0] == [];
    } else {
      var r0 := RunServo(q, xs[..j - 1]);
      ServoPrefix(q, xs, j - 1);
      assert xs[..j][..j - 1] == xs[..j - 1];
      assert RunServo(q, xs[..j]) == ServoFeed(r0, xs[j - 1]);
      assert !(r0.p.b == SYNC_LO && xs[j - 1] == SYNC_HI) by {
        if j > 1 {
          assert ([SYNC_HI] + xs)[j - 1] == xs[j - 2];
          assert ([SYNC_HI] + xs)[j] == xs[j - 1];
        }
      }
      if j % 2 == 1 {
        InFrameOddStep(q, xs, j, r0);
      } else {
        InFrameEvenStep(q, xs, j, r0);
      }
    }
  }

  /** A whole servo frame after the sync pair: the channel store holds the
      frame's channels whether or not the checksum matches (the code stores
      each word as it arrives), and update() runs exactly once, on those
      channels, when the checksum word matches the frame. */
  lemma ServoFrame(r: ServoRun, xs: seq<Byte>)
    requires ServoRunOk(r) && r.p.b == SYNC_LO
    requires |xs| == FRAME_BODY && NoSyncPair([SYNC_HI] + xs)
    ensures var r' := RunServo(r, [SYNC_HI] + xs);
      && r'.p.n == FRAME_END && r'.chv == Channels(xs)
      && r'.updates == r.updates + (if ChecksumOk([SYNC_LO, SYNC_HI] + xs) then [Channels(xs)] else [])
      && (ChecksumOk([SYNC_LO, SYNC_HI] + xs) ==> r'.p.m == 0 && r'.p.u == SENS_SEED)
      && (!ChecksumOk([SYNC_LO, SYNC_HI] + xs) ==> r'.p.m == r.p.m)
  {
    var q := ServoFeed(r, SYNC_HI);
    assert [SYNC_HI][..0] == [];
    assert RunServo(r, [SYNC_HI]) == q;
    RunServoAppend(r, [SYNC_HI], xs);
    ServoPrefix(q, xs, 2 * CHANNELS);
    assert xs[..30] == xs && xs[..29][..28] == xs[..28] && xs[..30][..29] == xs[..29];
    var r28 := RunServo(q, xs[..28]);
    var r29 := ServoFeed(r28, xs[28]);
    assert RunServo(q, xs) == ServoFeed(r29, xs[29]);
    assert r28.chv == Channels(xs);
    assert !(xs[27] == SYNC_LO && xs[28] == SYNC_HI) by {
      assert ([SYNC_HI] + xs)[28] == xs[27];
      assert ([SYNC_HI] + xs)[29] == xs[28];
    }
    assert !(xs[28] == SYNC_LO && xs[29] == SYNC_HI) by {
      assert ([SYNC_HI] + xs)[29] == xs[28];
      assert ([SYNC_HI] + xs)[30] == xs[29];
    }
    assert ServoStep(r28.p, r28.chv, xs[28]) ==
      ServoResult(r28.p.(a := xs[27], b := xs[28], n := 29), r28.chv, false);
    FrameChecksum(xs);
  }

  /** The checksum of a servo frame as the parser checks it: the seed minus
      the sum of the channel bytes must equal the last word. */
  lemma FrameChecksum(xs: seq<Byte>)
    requires |xs| == FRAME_BODY
    ensures ChecksumOk([SYNC_LO, SYNC_HI] + xs) <==> SERVO_SEED - Sum(xs[..28]) == Word(xs[28], xs[29])
  {
    var f := [SYNC_LO, SYNC_HI] + xs;
    assert f[..|f| - 2] == [SYNC_LO, SYNC_HI] + xs[..28];
    SumAppend([SYNC_LO, SYNC_HI], xs[..28]);
    assert Sum([SYNC_LO, SYNC_HI]) == SYNC_LO + SYNC_HI by {
      SumPrefixStep([SYNC_LO, SYNC_HI], 2);
      SumPrefixStep([SYNC_LO, SYNC_HI], 1);
      assert [SYNC_LO, SYNC_HI][..2] == [SYNC_LO, SYNC_HI];
    }
  }

  /** Outside a frame (position 30, hunting for sync) bytes only shift
      through a and b: nothing is stored and update() is not called. */
  lemma {:induction false} IgnoredUntilSync(r: ServoRun, xs: seq<Byte>)
    requires ServoRunOk(r) && r.p.n == FRAME_END && NoSyncPair([r.p.b] + xs)
    ensures var r' := RunServo(r, xs);
      && r'.chv == r.chv && r'.updates == r.updates
      && r'.p.n == FRAME_END && r'.p.u == r.p.u && r'.p.m == r.p.m
    decreases |xs|
  {
    if xs != [] {
      var ys := xs[..|xs| - 1];
      assert [r.p.b] + ys == ([r.p.b] + xs)[..|xs|];
      IgnoredUntilSync(r, ys);
      var r0 := RunServo(r, ys);
      assert r0.p.b == ([r.p.b] + xs)[|xs| - 1];
      assert xs[|xs| - 1] == ([r.p.b] + xs)[|xs|];
    }
  }

  /** Replacing one byte changes the sum by the difference. */
  lemma {:induction false} SumUpdate(s: seq<Byte>, i: int, v: Byte)
    requires 0 <= i < |s|
    ensures Sum(s[i := v]) == Sum(s) - s[i] + v
    decreases |s|
  {
    var t := s[i := v];
    if i == |s| - 1 {
      assert t[..|t| - 1] == s[..|s| - 1];
    } else {
      assert t[..|t| - 1] == s[..|s| - 1][i := v];
      SumUpdate(s[..|s| - 1], i, v);
    }
  }

  /** The iBUS checksum detects every single-byte error: a frame that
      checks, with any one byte changed, no longer checks. */
  lemma SingleByteCorruptionRejected(f: seq<Byte>, i: int, v: Byte)
    requires ChecksumOk(f) && 0 <= i < |f| && f[i] != v
    ensures !ChecksumOk(f[i := v])
  {
    var g := f[i := v];
    var k := |f| - 2;
    if i < k {
      assert g[..k] == f[..k][i := v];
      SumUpdate(f[..k], i, v);
    } else {
      assert g[..k] == f[..k];
    }
  }

  /** Fewer than thirty bytes after a sync pair never complete a frame,
      whatever they hold: a sync pair among them only restarts the count. */
  lemma {:induction false} ShortAfterSync(q: ServoRun, ys: seq<Byte>)
    requires ServoRunOk(q) && q.p.n == 0 && |ys| < FRAME_BODY
    ensures RunServo(q, ys).updates == q.updates && RunServo(q, ys).p.n <= |ys|
    decreases |ys|
  {
    if ys != [] {
      ShortAfterSync(q, ys[..|ys| - 1]);
    }
  }

  /** A servo frame with one corrupted byte never reaches update(). If the
      corruption forms a sync pair with a neighbour, framing restarts there
      and too few bytes follow to complete a frame; otherwise the frame is
      parsed to its end and the checksum rejects it. */
  lemma CorruptedFrameRejected(r: ServoRun, xs: seq<Byte>, i: int, v: Byte)
    requires ServoRunOk(r) && r.p.b == SYNC_LO
    requires |xs| == FRAME_BODY && ChecksumOk([SYNC_LO, SYNC_HI] + xs)
    requires 0 <= i < FRAME_BODY && xs[i] != v
    ensures RunServo(r, [SYNC_HI] + xs[i := v]).updates == r.updates
  {
    var ys := xs[i := v];
    var s := [SYNC_HI] + ys;
    if NoSyncPair(s) {
      var f := [SYNC_LO, SYNC_HI] + xs;
      assert f[i + 2 := v] == [SYNC_LO, SYNC_HI] + ys;
      SingleByteCorruptionRejected(f, i + 2, v);
      ServoFrame(r, ys);
    } else {
      var k :| 0 < k < |s| && s[k - 1] == SYNC_LO && s[k] == SYNC_HI;
      assert k >= 2 && ys[k - 2] == SYNC_LO && ys[k - 1] == SYNC_HI by {
        assert s[k - 1] == if k == 1 then SYNC_HI else ys[k - 2];
      }
      RestartedFrameRejected(r, ys, k);
    }
  }

  /** Thirty bytes after a sync pair with another sync pair inside, ending
      at ys[k - 1]: framing restarts there and update() is not reached. */
  lemma RestartedFrameRejected(r: ServoRun, ys: seq<Byte>, k: int)
    requires ServoRunOk(r) && r.p.b == SYNC_LO && |ys| == FRAME_BODY
    requires 2 <= k <= |ys| && ys[k - 2] == SYNC_LO && ys[k - 1] == SYNC_HI
    ensures RunServo(r, [SYNC_HI] + ys).updates == r.updates
  {
    var q := ServoFeed(r, SYNC_HI);
    assert [SYNC_HI][..0] == [];
    assert RunServo(r, [SYNC_HI]) == q;
    RunServoAppend(r, [SYNC_HI], ys);
    // up to the inner sync pair
    ShortAfterSync(q, ys[..k - 1]);
    var q1 := RunServo(q, ys[..k - 1]);
    assert ys[..k][..k - 1] == ys[..k - 1];
    var q2 := ServoFeed(q1, ys[k - 1]);
    assert RunServo(q, ys[..k]) == q2;
    // after it, at most 28 bytes remain
    ShortAfterSync(q2, ys[k..]);
    assert ys == ys[..k] + ys[k..];
    RunServoAppend(q, ys[..k], ys[k..]);
  }

  // ---------------------------------------------------------------------
  // Telemetry requests

  /** The sensor side of the engine after a stream of bytes: the parser and
      every reply loaded into the transmit buffer. */
  datatype SensorRun = SensorRun(p: Parser, replies: seq<seq<Byte>>)

  function SensorFeed(r: SensorRun, x: Byte, senstype: int -> int, sensval: int -> int): (r': SensorRun)
    requires ParserOk(r.p)
    ensures ParserOk(r'.p)
  {
    var s := SensorStep(r.p, x, senstype, sensval);
    SensorRun(s.p, r.replies + (if s.reply.Some? then [s.reply.value] else []))
  }

  function RunSensor(r: SensorRun, xs: seq<Byte>, senstype: int -> int, sensval: int -> int): (r': SensorRun)
    requires ParserOk(r.p)
    ensures ParserOk(r'.p) && r'.p.n == r.p.n
    decreases |xs|
  {
    if xs == [] then r
    else SensorFeed(RunSensor(r, xs[..|xs| - 1], senstype, sensval), xs[|xs| - 1], senstype, sensval)
  }

  /** Whether a four-byte chunk is a request the engine accepts. */
  predicate GoodChunk(ch: seq<Byte>)
  {
    |ch| == 4 && ch[0] == 4 && ChecksumOk(ch)
  }

  /** One request chunk from a synchronised parser (as left by a servo frame
      or by the previous request): a good chunk resynchronises the parser
      and yields exactly the reply the dispatch gives, a bad one leaves the
      parser stuck at the end of the chunk with no reply. */
  lemma TelemetryChunk(r: SensorRun, ch: seq<Byte>, senstype: int -> int, sensval: int -> int)
    requires ParserOk(r.p) && r.p.m == 0 && r.p.u == SENS_SEED && |ch| == 4
    ensures var r' := RunSensor(r, ch, senstype, sensval);
      var reply := Respond(ch[0], ch[1], ch[2], ch[3], senstype, sensval);
      && (GoodChunk(ch) ==>
            && r'.p.m == 0 && r'.p.u == SENS_SEED
            && r'.replies == r.replies + (if reply.Some? then [reply.value] else []))
      && (!GoodChunk(ch) ==> r'.p.m == CHUNK_END && r'.replies == r.replies)
  {
    var s1 := SensorFeed(r, ch[0], senstype, sensval);
    var s2 := SensorFeed(s1, ch[1], senstype, sensval);
    var s3 := SensorFeed(s2, ch[2], senstype, sensval);
    var s4 := SensorFeed(s3, ch[3], senstype, sensval);
    assert ch[..1][..0] == [] && ch[..2][..1] == ch[..1] && ch[..3][..2] == ch[..2] && ch[..4] == ch;
    assert RunSensor(r, ch[..1], senstype, sensval) == s1;
    assert RunSensor(r, ch[..2], senstype, sensval) == s2;
    assert RunSensor(r, ch[..3], senstype, sensval) == s3;
    assert RunSensor(r, ch, senstype, sensval) == s4;
    assert s1 == SensorRun(r.p.(a := r.p.b, b := ch[0], m := 1), r.replies);
    assert s2 == SensorRun(r.p.(a := ch[0], b := ch[1], m := 2, c := ch[0], d := ch[1],
                                u := SENS_SEED - (ch[0] as int + ch[1])), r.replies);
    assert s3 == SensorRun(s2.p.(a := ch[1], b := ch[2], m := 3), r.replies);
    assert ChecksumOk(ch) <==> SENS_SEED - (ch[0] as int + ch[1]) == Word(ch[2], ch[3]) by {
      SumPrefixStep(ch, 2);
      SumPrefixStep(ch, 1);
      assert ch[..0] == [];
    }
  }

  /** Once a chunk failed, every further byte is ignored until the timeout
      and the next servo frame. */
  lemma {:induction false} StuckAfterBadChunk(r: SensorRun, xs: seq<Byte>, senstype: int -> int, sensval: int -> int)
    requires ParserOk(r.p) && r.p.m == CHUNK_END
    ensures var r' := RunSensor(r, xs, senstype, sensval);
      && r'.p.m == CHUNK_END && r'.p.u == r.p.u && r'.p.c == r.p.c && r'.p.d == r.p.d
      && r'.replies == r.replies
    decreases |xs|
  {
    if xs != [] {
      StuckAfterBadChunk(r, xs[..|xs| - 1], senstype, sensval);
    }
  }
}
