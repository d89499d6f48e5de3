/**
 * The measurement loop `ecg_get_data` (src/MAX30003.c): poll the chip
 * until `DEF_ECG_DATA_LEN` non-zero samples are stored, giving up when the
 * clock fails or the timeout passes.
 */
module Acquisition {
  import opened Common
  import opened Registers
  import opened Transport
  import opened Protocol
  import opened Max30003

  /**
   * What one `clock_gettime(CLOCK_REALTIME, ...)` call yields: a failure
   * (it returned -1) or the current time's whole seconds.
   */
  datatype Reading = Failed | At(sec: int)

  /**
   * The `t`-th clock reading of a run, counting from 0; once the given
   * readings run out, the clock fails.
   */
  function ReadingAt(clock: seq<Reading>, t: nat): Reading
  {
    if t < |clock| then clock[t] else Failed
  }

  /** `(uint32_t)ts.tv_sec`: the seconds reduced modulo 2^32. */
  function Seconds(sec: int): uint32
  {
    (sec % 0x1_0000_0000) as uint32
  }

  /**
   * The timeout test `(current - first) > timeout_val`: the difference of
   * two `uint32_t` wraps modulo 2^32, and the `int32_t` timeout is
   * converted to `uint32_t` for the comparison.
   */
  predicate TimedOut(first: uint32, now: uint32, timeout: int32)
  {
    (now as int - first as int) % 0x1_0000_0000 > timeout as int % 0x1_0000_0000
  }

  /** The timeout a measurement uses: the handle's, or `ECG_MEAS_TIMEOUT_S` when it is zero. */
  function EffectiveTimeout(timeout: int32): (t: int32)
    ensures t != 0
    ensures timeout != 0 ==> t == timeout
  {
    if timeout == 0 then ECG_MEAS_TIMEOUT_S else timeout
  }

  /** What a measurement leaves behind: the bus, the samples stored in order, and the code returned. */
  datatype Outcome = Outcome(bus: Bus, samples: seq<int32>, ret: RetCode)

  /** The two transfers of one poll: the STATUS read, then the ECG_FIFO read. */
  function Poll(b: Bus): Bus
  {
    b.Transfer([Command(STATUS, RREG)]).Transfer([Command(ECG_FIFO, RREG)])
  }

  /** The sample one poll yields: the decoded FIFO word of its second transfer. */
  function PolledPoint(b: Bus): int32
  {
    PointOf(b.Transfer([Command(STATUS, RREG)]).Next())
  }

  /**
   * The measurement loop from clock reading `t` on, with the timer started
   * at `first` and `samples` already stored: stop with success once
   * `DEF_ECG_DATA_LEN` samples are stored, fail when the clock fails or the
   * time is up, and otherwise poll once, store the sample if it is
   * non-zero, and go round again.
   */
  function MeasureFrom(b: Bus, clock: seq<Reading>, timeout: int32, first: uint32,
                       t: nat, samples: seq<int32>): Outcome
    decreases |clock| - t
  {
    if |samples| >= DEF_ECG_DATA_LEN then Outcome(b, samples, Success)
    else match ReadingAt(clock, t)
      case Failed => Outcome(b, samples, Error)
      case At(sec) =>
        if TimedOut(first, Seconds(sec), timeout) then Outcome(b, samples, Error)
        else
          var p := PolledPoint(b);
          MeasureFrom(Poll(b), clock, timeout, first, t + 1, if p != 0 then samples + [p] else samples)
  }

  /**
   * A whole measurement: take the first clock reading as the start of the
   * timer (a failing clock ends it at once), then run the loop.
   */
  function Measure(b: Bus, clock: seq<Reading>, timeout: int32): Outcome
  {
    match ReadingAt(clock, 0)
    case Failed => Outcome(b, [], Error)
    case At(sec) => MeasureFrom(b, clock, timeout, Seconds(sec), 1, [])
  }

  /** One pass through the loop, for a measurement that is not over. */
  lemma MeasureStep(b: Bus, clock: seq<Reading>, timeout: int32, first: uint32, t: nat, samples: seq<int32>)
    requires |samples| < DEF_ECG_DATA_LEN && ReadingAt(clock, t).At?
    requires !TimedOut(first, Seconds(ReadingAt(clock, t).sec), timeout)
    ensures var p := PolledPoint(b);
            MeasureFrom(b, clock, timeout, first, t, samples)
            == MeasureFrom(Poll(b), clock, timeout, first, t + 1, if p != 0 then samples + [p] else samples)
  {
  }

  /** The bus after `k` polls. */
  function Polls(b: Bus, k: nat): Bus
    decreases k
  {
    if k == 0 then b else Polls(Poll(b), k - 1)
  }

  /** The command bytes `k` polls clock out: STATUS, ECG_FIFO, STATUS, ECG_FIFO, ... */
  function PollLog(k: nat): (log: seq<seq<bv8>>)
    ensures |log| == 2 * k
  {
    if k == 0 then [] else [[Command(STATUS, RREG)], [Command(ECG_FIFO, RREG)]] + PollLog(k - 1)
  }

  /** The samples `k` successive polls decode, zero or not, in order. */
  function PolledPoints(b: Bus, k: nat): (ps: seq<int32>)
    ensures |ps| == k
    decreases k
  {
    if k == 0 then [] else [PolledPoint(b)] + PolledPoints(Poll(b), k - 1)
  }

  /** The non-zero entries of `s`, in order: the samples the loop keeps. */
  function NonZero(s: seq<int32>): (r: seq<int32>)
    ensures |r| <= |s|
    ensures forall i | 0 <= i < |r| :: r[i] != 0
  {
    if s == [] then [] else (if s[0] != 0 then [s[0]] else []) + NonZero(s[1..])
  }

  /** `k` polls add the STATUS/ECG_FIFO command pairs to the bus log and use up one answer per transfer. */
  lemma {:induction false} PollsOnTheBus(b: Bus, k: nat)
    ensures Polls(b, k) == Bus(b.wire + PollLog(k), Drop(b.replies, 2 * k))
    decreases k
  {
    if k > 0 {
      PollsOnTheBus(Poll(b), k - 1);
      assert b.wire + PollLog(k) == Poll(b).wire + PollLog(k - 1);
    }
  }

  /** The samples kept by one poll, followed by those kept by the polls after it. */
  lemma NonZeroStep(b: Bus, k: nat)
    ensures var p := PolledPoint(b);
            NonZero(PolledPoints(b, k + 1)) == (if p != 0 then [p] else []) + NonZero(PolledPoints(Poll(b), k))
  {
    var ps := PolledPoints(b, k + 1);
    assert ps[0] == PolledPoint(b) && ps[1..] == PolledPoints(Poll(b), k);
  }

  lemma AppendAssoc(a: seq<int32>, b: seq<int32>, c: seq<int32>)
    ensures (a + b) + c == a + (b + c)
  {
  }

  /**
   * What the loop stores from reading `t` on: after some number `k` of
   * polls, no more than clock readings are left, the bus has seen exactly
   * those polls and the samples are the ones held before followed by the
   * non-zero samples the polls decoded, in order.
   */
  lemma {:induction false} MeasureFromPolls(b: Bus, clock: seq<Reading>, timeout: int32, first: uint32,
                                            t: nat, samples: seq<int32>)
    requires t <= |clock|
    ensures var o := MeasureFrom(b, clock, timeout, first, t, samples);
            exists k: nat | k <= |clock| - t ::
              o.bus == Polls(b, k) && o.samples == samples + NonZero(PolledPoints(b, k))
    decreases |clock| - t
  {
    var o := MeasureFrom(b, clock, timeout, first, t, samples);
    if |samples| >= DEF_ECG_DATA_LEN || ReadingAt(clock, t).Failed?
       || TimedOut(first, Seconds(ReadingAt(clock, t).sec), timeout) {
      assert o.bus == Polls(b, 0) && o.samples == samples + NonZero(PolledPoints(b, 0));
    } else {
      var p := PolledPoint(b);
      var kept := if p != 0 then [p] else [];
      var next := if p != 0 then samples + [p] else samples;
      assert next == samples + kept;
      MeasureFromPolls(Poll(b), clock, timeout, first, t + 1, next);
      assert o == MeasureFrom(Poll(b), clock, timeout, first, t + 1, next);
      var k: nat :| k <= |clock| - (t + 1) && o.bus == Polls(Poll(b), k)
                    && o.samples == next + NonZero(PolledPoints(Poll(b), k));
      assert o.bus == Polls(b, k + 1);
      NonZeroStep(b, k);
      AppendAssoc(samples, kept, NonZero(PolledPoints(Poll(b), k)));
    }
  }

  /**
   * What the loop guarantees from reading `t` on, given at most
   * `DEF_ECG_DATA_LEN` non-zero samples so far: it only appends samples,
   * every one of them non-zero, never more than `DEF_ECG_DATA_LEN` in all;
   * it returns `RET_CODE_SUCCESS` exactly when it has them all and
   * `RET_CODE_ERROR` otherwise; and what it appends are the non-zero
   * samples of the polls the bus has seen, in order, no more polls than
   * clock readings are left.
   */
  lemma {:induction false} MeasureFromMeans(b: Bus, clock: seq<Reading>, timeout: int32, first: uint32,
                                            t: nat, samples: seq<int32>)
    requires t <= |clock| && |samples| <= DEF_ECG_DATA_LEN
    requires forall i | 0 <= i < |samples| :: samples[i] != 0
    ensures var o := MeasureFrom(b, clock, timeout, first, t, samples);
            && |samples| <= |o.samples| <= DEF_ECG_DATA_LEN
            && o.samples[..|samples|] == samples
            && (forall i | 0 <= i < |o.samples| :: o.samples[i] != 0)
            && (o.ret == Success <==> |o.samples| == DEF_ECG_DATA_LEN)
            && (o.ret == Success || o.ret == Error)
            && exists k: nat | k <= |clock| - t ::
                 o.bus == Polls(b, k) && o.samples == samples + NonZero(PolledPoints(b, k))
    decreases |clock| - t
  {
    MeasureFromPolls(b, clock, timeout, first, t, samples);
    var o := MeasureFrom(b, clock, timeout, first, t, samples);
    if !(|samples| >= DEF_ECG_DATA_LEN || ReadingAt(clock, t).Failed?
         || TimedOut(first, Seconds(ReadingAt(clock, t).sec), timeout)) {
      var p := PolledPoint(b);
      var next := if p != 0 then samples + [p] else samples;
      MeasureFromMeans(Poll(b), clock, timeout, first, t + 1, next);
      assert o.samples[..|samples|] == o.samples[..|next|][..|samples|];
    }
  }

  /** The same guarantees for a whole measurement, which starts with no samples. */
  lemma MeasureMeans(b: Bus, clock: seq<Reading>, timeout: int32)
    ensures var o := Measure(b, clock, timeout);
            && |o.samples| <= DEF_ECG_DATA_LEN
            && (forall i | 0 <= i < |o.samples| :: o.samples[i] != 0)
            && (o.ret == Success <==> |o.samples| == DEF_ECG_DATA_LEN)
            && (o.ret == Success || o.ret == Error)
            && exists k: nat | k <= |clock| ::
                 o.bus == Polls(b, k) && o.samples == NonZero(PolledPoints(b, k))
  {
    var o := Measure(b, clock, timeout);
    match ReadingAt(clock, 0)
    case Failed =>
      assert o.bus == Polls(b, 0) && o.samples == NonZero(PolledPoints(b, 0));
    case At(sec) =>
      MeasureFromMeans(b, clock, timeout, Seconds(sec), 1, []);
      var k: nat :| k <= |clock| - 1 && o.bus == Polls(b, k) && o.samples == [] + NonZero(PolledPoints(b, k));
      assert [] + NonZero(PolledPoints(b, k)) == NonZero(PolledPoints(b, k));
  }

  /**
   * A loop that has not finished stops at once, keeping its samples and
   * leaving the bus untouched, when the clock fails or the time is up.
   */
  lemma MeasureFromStops(b: Bus, clock: seq<Reading>, timeout: int32, first: uint32, t: nat, samples: seq<int32>)
    requires |samples| < DEF_ECG_DATA_LEN
    requires ReadingAt(clock, t).At? ==> TimedOut(first, Seconds(ReadingAt(clock, t).sec), timeout)
    ensures MeasureFrom(b, clock, timeout, first, t, samples) == Outcome(b, samples, Error)
  {
  }

  /** A FIFO answer carrying a sample: the read succeeded and bytes 0 and 1 are not both zero. */
  predicate HoldsSample(r: Reply)
  {
    r.Ack? && (r.b0 != 0 || r.b1 != 0)
  }

  /** The answer the `i`-th poll's ECG_FIFO read gets (its STATUS read takes the one before). */
  function FifoReply(b: Bus, i: nat): Reply
  {
    NextReply(Drop(b.replies, 2 * i + 1))
  }

  /** A poll stores a sample exactly when its FIFO answer holds one. */
  lemma PolledPointKept(b: Bus)
    ensures PolledPoint(b) != 0 <==> HoldsSample(FifoReply(b, 0))
  {
    var r := FifoReply(b, 0);
    assert Drop(b.replies, 1) == Drop(After(b.replies), 0);
    if r.Ack? {
      DecodePointValue(r.b0, r.b1, r.b2);
    }
  }

  /**
   * The `n` clock readings from `t` on succeed and find the time not yet
   * up.
   */
  predicate InTime(clock: seq<Reading>, first: uint32, timeout: int32, t: nat, n: nat)
  {
    && t + n <= |clock|
    && forall j | t <= j < t + n :: clock[j].At? && !TimedOut(first, Seconds(clock[j].sec), timeout)
  }

  /**
   * The loop makes progress: when the `n` samples still missing are
   * delivered by the next `n` polls and the next `n` clock readings are in
   * time, it stores exactly those samples, after exactly those polls, and
   * succeeds.
   */
  lemma {:induction false} MeasureFromFills(b: Bus, clock: seq<Reading>, timeout: int32, first: uint32,
                                            t: nat, samples: seq<int32>)
    requires |samples| <= DEF_ECG_DATA_LEN
    requires InTime(clock, first, timeout, t, DEF_ECG_DATA_LEN - |samples|)
    requires forall i | 0 <= i < DEF_ECG_DATA_LEN - |samples| :: HoldsSample(FifoReply(b, i))
    ensures var n := DEF_ECG_DATA_LEN - |samples|;
            MeasureFrom(b, clock, timeout, first, t, samples)
            == Outcome(Polls(b, n), samples + PolledPoints(b, n), Success)
    decreases DEF_ECG_DATA_LEN - |samples|
  {
    var n := DEF_ECG_DATA_LEN - |samples|;
    if n == 0 {
      assert samples + PolledPoints(b, 0) == samples;
    } else {
      var p := PolledPoint(b);
      PolledPointKept(b);
      assert ReadingAt(clock, t) == clock[t];
      MeasureStep(b, clock, timeout, first, t, samples);
      forall i | 0 <= i < n - 1
        ensures HoldsSample(FifoReply(Poll(b), i))
      {
        var rs := b.replies;
        assert Poll(b).replies == After(After(rs));
        assert Drop(rs, 2 * (i + 1) + 1) == Drop(After(rs), 2 * i + 2) == Drop(After(After(rs)), 2 * i + 1);
        assert HoldsSample(FifoReply(b, i + 1));
      }
      MeasureFromFills(Poll(b), clock, timeout, first, t + 1, samples + [p]);
      assert PolledPoints(b, n) == [p] + PolledPoints(Poll(b), n - 1);
      AppendAssoc(samples, [p], PolledPoints(Poll(b), n - 1));
    }
  }

  /**
   * A whole measurement succeeds when the clock works, the first
   * `DEF_ECG_DATA_LEN` polls each deliver a sample and the time is not up
   * before the last of them: it stores exactly those samples.
   */
  lemma MeasureFills(b: Bus, clock: seq<Reading>, timeout: int32)
    requires |clock| > 0 && clock[0].At?
    requires InTime(clock, Seconds(clock[0].sec), timeout, 1, DEF_ECG_DATA_LEN)
    requires forall i | 0 <= i < DEF_ECG_DATA_LEN :: HoldsSample(FifoReply(b, i))
    ensures Measure(b, clock, timeout)
            == Outcome(Polls(b, DEF_ECG_DATA_LEN), PolledPoints(b, DEF_ECG_DATA_LEN), Success)
  {
    MeasureFromFills(b, clock, timeout, Seconds(clock[0].sec), 1, []);
    assert [] + PolledPoints(b, DEF_ECG_DATA_LEN) == PolledPoints(b, DEF_ECG_DATA_LEN);
  }

  /** `n` copies of the answer `r`, then silence. */
  function Repeat(r: Reply, n: nat): Replies
  {
    if n == 0 then Silent else Then(r, Repeat(r, n - 1))
  }

  /** Skipping `j` of `n` copies leaves `n - j` of them. */
  lemma {:induction false} DropRepeat(r: Reply, n: nat, j: nat)
    requires j <= n
    ensures Drop(Repeat(r, n), j) == Repeat(r, n - j)
    decreases j
  {
    if j > 0 {
      assert After(Repeat(r, n)) == Repeat(r, n - 1);
      DropRepeat(r, n - 1, j - 1);
    }
  }

  /** Polls against a bus that gives the same answer every time all decode that answer's sample. */
  lemma {:induction false} PolledPointsRepeat(w: seq<seq<bv8>>, r: Reply, k: nat)
    ensures var ps := PolledPoints(Bus(w, Repeat(r, 2 * k)), k);
            forall i | 0 <= i < k :: ps[i] == PointOf(r)
    decreases k
  {
    if k > 0 {
      var b := Bus(w, Repeat(r, 2 * k));
      assert b.replies == Then(r, Repeat(r, 2 * k - 1));
      assert Repeat(r, 2 * k - 1) == Then(r, Repeat(r, 2 * (k - 1)));
      assert PolledPoint(b) == PointOf(r);
      var next := Bus(Poll(b).wire, Repeat(r, 2 * (k - 1)));
      assert Poll(b) == next;
      PolledPointsRepeat(Poll(b).wire, r, k - 1);
      var ps, rest := PolledPoints(b, k), PolledPoints(next, k - 1);
      assert ps == [PolledPoint(b)] + rest;
      forall i | 0 <= i < k
        ensures ps[i] == PointOf(r)
      {
        if i > 0 {
          assert ps[i] == rest[i - 1];
          assert PolledPoints(Bus(Poll(b).wire, Repeat(r, 2 * (k - 1))), k - 1)[i - 1] == PointOf(r);
        } else {
          assert ps[0] == PolledPoint(b);
        }
      }
    }
  }

  /**
   * A chip that answers every transfer with the same sample, not zero, and
   * a clock that gives the same second at least `DEF_ECG_DATA_LEN + 1` times:
   * the measurement fills exactly `DEF_ECG_DATA_LEN` entries with that
   * sample, uses up every answer and succeeds, whatever the timeout.
   */
  lemma ConstantSampleFills(w: seq<seq<bv8>>, r: Reply, clock: seq<Reading>, sec: int, timeout: int32)
    requires HoldsSample(r)
    requires |clock| > DEF_ECG_DATA_LEN && forall j | 0 <= j < |clock| :: clock[j] == At(sec)
    ensures var o := Measure(Bus(w, Repeat(r, 2 * DEF_ECG_DATA_LEN)), clock, timeout);
            && o.ret == Success
            && |o.samples| == DEF_ECG_DATA_LEN
            && (forall i | 0 <= i < |o.samples| :: o.samples[i] == PointOf(r))
            && o.bus == Bus(w + PollLog(DEF_ECG_DATA_LEN), Silent)
  {
    var b := Bus(w, Repeat(r, 2 * DEF_ECG_DATA_LEN));
    forall i | 0 <= i < DEF_ECG_DATA_LEN
      ensures HoldsSample(FifoReply(b, i))
    {
      DropRepeat(r, 2 * DEF_ECG_DATA_LEN, 2 * i + 1);
    }
    MeasureFills(b, clock, timeout);
    PolledPointsRepeat(w, r, DEF_ECG_DATA_LEN);
    PollsOnTheBus(b, DEF_ECG_DATA_LEN);
    DropRepeat(r, 2 * DEF_ECG_DATA_LEN, 2 * DEF_ECG_DATA_LEN);
  }

  /**
   * The STATUS read of each poll is not looked at: whatever the bus
   * answers to it, the samples, the code and the log come out the same.
   */
  lemma StatusIsIgnored(wire: seq<seq<bv8>>, r1: Reply, r2: Reply, rest: Replies, clock: seq<Reading>,
                        timeout: int32, first: uint32, t: nat, samples: seq<int32>)
    ensures var o1 := MeasureFrom(Bus(wire, Then(r1, rest)), clock, timeout, first, t, samples);
            var o2 := MeasureFrom(Bus(wire, Then(r2, rest)), clock, timeout, first, t, samples);
            o1.samples == o2.samples && o1.ret == o2.ret && o1.bus.wire == o2.bus.wire
  {
  }

  /**
   * The timeout test over a span of less than 2^32 seconds: a timeout of
   * zero or more expires once more than that many seconds have passed,
   * while a negative one, converted to a huge unsigned value, only expires
   * after more than `2^32 + timeout` seconds, so never within 2^31 seconds
   * (about 68 years).
   */
  lemma TimeoutMeaning(start: int, now: int, timeout: int32)
    requires 0 <= now - start < 0x1_0000_0000
    ensures TimedOut(Seconds(start), Seconds(now), timeout) <==>
              if timeout >= 0 then now - start > timeout as int
              else now - start > 0x1_0000_0000 + timeout as int
    ensures timeout < 0 && now - start < 0x8000_0000 ==> !TimedOut(Seconds(start), Seconds(now), timeout)
  {
    var d := now - start;
    var s0, s1 := start % 0x1_0000_0000, now % 0x1_0000_0000;
    assert (s1 - s0) % 0x1_0000_0000 == d by {
      assert now == start + d;
      assert (s1 - s0) == d - 0x1_0000_0000 * ((start + d) / 0x1_0000_0000 - start / 0x1_0000_0000);
    }
  }

  /** The sample array a possibly null handle points to, as a set of zero or one arrays. */
  function SampleArray(ecg: EcgData?): set<array<int32>>
    reads Handle(ecg)
  {
    if ecg == null || ecg.dataArr == null then {} else {ecg.dataArr}
  }

  /**
   * `ecg_get_data` on a valid handle: reset the sample count, default a
   * zero timeout, start the timer, then poll (STATUS, whose flag is not
   * used, and a FIFO sample) until `DEF_ECG_DATA_LEN` non-zero samples are
   * stored; a failing clock or an expired timeout gives `RET_CODE_ERROR`.
   * `clock` holds what the successive `clock_gettime` calls return. The
   * loop fills the array up to `DEF_ECG_DATA_LEN` whatever `data_len` says,
   * so the array must hold that many samples.
   */
  method MeasureInto(ecg: EcgData, spi: Spi, clock: seq<Reading>) returns (ret: RetCode)
    requires ecg.dataArr != null && ecg.dataArr.Length >= DEF_ECG_DATA_LEN
    modifies ecg`dataId, ecg`timeoutVal, ecg.dataArr, spi`bus
    ensures ecg.timeoutVal == EffectiveTimeout(old(ecg.timeoutVal))
    ensures var o := Measure(old(spi.bus), clock, ecg.timeoutVal);
            && spi.bus == o.bus && ret == o.ret
            && ecg.dataId as int == |o.samples| <= DEF_ECG_DATA_LEN
            && ecg.dataArr[..ecg.dataId] == o.samples
    ensures forall i | ecg.dataId as int <= i < ecg.dataArr.Length :: ecg.dataArr[i] == old(ecg.dataArr[i])
  {
    ecg.dataId := 0;
    if ecg.timeoutVal == 0 {
      ecg.timeoutVal := ECG_MEAS_TIMEOUT_S;
    }
    var timeout := ecg.timeoutVal;
    var arr := ecg.dataArr;
    var t: nat := 0;
    var reading := ReadingAt(clock, t);
    t := t + 1;
    if reading.Failed? {
      return Error;
    }
    var first := Seconds(reading.sec);
    ghost var goal := Measure(old(spi.bus), clock, timeout);
    ret := Success;
    while ecg.dataId < DEF_ECG_DATA_LEN as uint32
      invariant 1 <= t <= |clock|
      invariant ecg.timeoutVal == timeout
      invariant ecg.dataId as int <= DEF_ECG_DATA_LEN && ret == Success
      invariant goal == MeasureFrom(spi.bus, clock, timeout, first, t, arr[..ecg.dataId])
      invariant forall i | ecg.dataId as int <= i < arr.Length :: arr[i] == old(arr[i])
      decreases |clock| - t
    {
      ghost var stored, before := arr[..ecg.dataId], spi.bus;
      reading := ReadingAt(clock, t);
      t := t + 1;
      if reading.Failed? {
        return Error;
      }
      if TimedOut(first, Seconds(reading.sec), timeout) {
        return Error;
      }
      MeasureStep(before, clock, timeout, first, t - 1, stored);
      var sampleReady := CheckFifoPresent(spi);
      var data := GetEcgPoint(spi);
      if data != 0 {
        arr[ecg.dataId] := data;
        ecg.dataId := ecg.dataId + 1;
        assert arr[..ecg.dataId] == stored + [data];
      }
    }
  }

  /** `ecg_get_data`: refuse a missing handle, otherwise measure into it. */
  method EcgGetData(ecg: EcgData?, spi: Spi, clock: seq<Reading>) returns (ret: RetCode)
    requires ecg != null ==> ecg.dataArr != null && ecg.dataArr.Length >= DEF_ECG_DATA_LEN
    modifies Handle(ecg)`dataId, Handle(ecg)`timeoutVal, SampleArray(ecg), spi`bus
    ensures ecg == null ==> ret == InvalidParams && spi.bus == old(spi.bus)
    ensures ecg != null ==>
              && ecg.timeoutVal == EffectiveTimeout(old(ecg.timeoutVal))
              && var o := Measure(old(spi.bus), clock, ecg.timeoutVal);
                 && spi.bus == o.bus && ret == o.ret
                 && ecg.dataId as int == |o.samples| <= DEF_ECG_DATA_LEN
                 && ecg.dataArr[..ecg.dataId] == o.samples
                 && forall i | ecg.dataId as int <= i < ecg.dataArr.Length :: ecg.dataArr[i] == old(ecg.dataArr[i])
  {
    if ecg == null {
      return InvalidParams;
    }
    ret := MeasureInto(ecg, spi, clock);
  }
}
