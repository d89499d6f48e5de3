/**
 * The measurement handle and its operations (inc/MAX30003.h, src/MAX30003.c):
 * `ecg_data_t` with its register images and option values, the setters,
 * handle initialisation, the fail-fast register upload `max30003_init` and
 * the polling loop `ecg_get_data`.
 */
module Max30003 {
  import opened Common
  import opened Registers
  import opened Transport
  import opened Protocol

  /** `ECG_MEAS_TIMEOUT_S`: the timeout, in seconds, used when none was set. */
  const ECG_MEAS_TIMEOUT_S: int32 := 20

  /** The six register images of `ecg_data_t` that `max30003_init` uploads. */
  datatype Regs = Regs(cnfgGen: bv32, cnfgCal: bv32, cnfgEmux: bv32,
                       cnfgEcg: bv32, cnfgRtor1: bv32, mngrInt: bv32)

  /** The register images `ecg_init_handle` loads: the power-on defaults. */
  const DEFAULT_REGS: Regs :=
    Regs(CNFG_GEN_DEFAULT, CNFG_CAL_DEFAULT, CNFG_EMUX_DEFAULT,
         CNFG_ECG_DEFAULT, CNFG_RTOR1_DEFAULT, MNGR_INT_DEFAULT)

  /**
   * The option values `ecg_data_t` remembers beside the register images
   * (the numbers given on the command line, as `uint32_t`).
   */
  datatype Selections = Selections(
    gain: uint32, sampleRate: uint32, hpfCutoff: uint32, lpfCutoff: uint32,
    efit: uint32, clearPrint: uint32, sampFreq: uint32,
    ulpEnable: uint32, ecgChanEnable: uint32, leadoffEnable: uint32,
    dcLeadoffMag: uint32, dcLeadoffVol: uint32, rbiasVal: uint32, rbiasInputCon: uint32,
    enableCalib: uint32, calFreq: uint32,
    inputSwitch: uint32, calpSel: uint32, calnSel: uint32)

  /** `ecg_data_t`: the measurement handle. */
  class EcgData {
    var dataId: uint32
    var dataArr: array?<int32>
    var dataLen: int32
    var timeoutVal: int32
    var regs: Regs
    var sel: Selections
  }

  /** The handle a possibly null `ecg_data_t *` points to, as a set of zero or one objects. */
  function Handle(ecg: EcgData?): set<EcgData>
  {
    if ecg == null then {} else {ecg}
  }

  /** `ecg_set_timeout`: store the timeout, or refuse a missing handle. */
  method EcgSetTimeout(ecg: EcgData?, timeoutVal: int32) returns (ret: RetCode)
    modifies Handle(ecg)`timeoutVal
    ensures ecg == null ==> ret == InvalidParams
    ensures ecg != null ==> ret == Success && ecg.timeoutVal == timeoutVal
  {
    if ecg == null {
      return InvalidParams;
    }
    ecg.timeoutVal := timeoutVal;
    ret := Success;
  }

  /**
   * `ecg_set_data_len`: store the length (the `uint32_t` argument lands in an
   * `int32_t` field) and allocate a fresh sample array of that many points.
   * `allocOk` says whether `malloc` succeeds.
   */
  method EcgSetDataLen(ecg: EcgData?, dataLen: uint32, allocOk: bool) returns (ret: RetCode)
    modifies Handle(ecg)`dataLen, Handle(ecg)`dataArr
    ensures ecg == null ==> ret == InvalidParams
    ensures ecg != null ==>
              && ecg.dataLen == ToInt32(dataLen)
              && (allocOk ==> ret == Success && ecg.dataArr != null && fresh(ecg.dataArr)
                              && ecg.dataArr.Length == dataLen as int)
              && (!allocOk ==> ret == AllocFail && ecg.dataArr == null)
  {
    if ecg == null {
      return InvalidParams;
    }
    ecg.dataLen := ToInt32(dataLen);
    if allocOk {
      ecg.dataArr := new int32[dataLen as int];
    } else {
      ecg.dataArr := null;
    }
    if ecg.dataArr == null {
      return AllocFail;
    }
    ret := Success;
  }

  /**
   * `ecg_init_handle`: clear the start of the handle, load the default
   * registers and allocate the default 1024-point array. `memset` is given
   * `sizeof(ecg_data)`, the size of a pointer: in the packed handle that
   * clears `data_ID` and, on a 64-bit target, the low half of `data_arr`,
   * which `ecg_set_data_len` overwrites straight afterwards; the model
   * clears the count and the array reference, with the same observable
   * result. The timeout and the remembered option values are left as they
   * were.
   */
  method EcgInitHandle(ecg: EcgData?, allocOk: bool) returns (ret: RetCode)
    modifies Handle(ecg)`dataId, Handle(ecg)`dataArr, Handle(ecg)`dataLen, Handle(ecg)`regs
    ensures ecg == null ==> ret == NullPtr
    ensures ecg != null ==>
              && ecg.regs == DEFAULT_REGS
              && ecg.dataId == 0 && ecg.dataLen as int == DEF_ECG_DATA_LEN
              && (allocOk ==> ret == Success && ecg.dataArr != null && fresh(ecg.dataArr)
                              && ecg.dataArr.Length == DEF_ECG_DATA_LEN)
              && (!allocOk ==> ret == AllocFail && ecg.dataArr == null)
  {
    ret := Success;
    if ecg == null {
      return NullPtr;
    }
    ecg.dataId, ecg.dataArr := 0, null;

    ecg.dataLen := DEF_ECG_DATA_LEN as int32;
    ecg.regs := DEFAULT_REGS;

    var code := EcgSetDataLen(ecg, DEF_ECG_DATA_LEN as uint32, allocOk);
    var flow := ContinueOnSuccess(ret, code);
    ret := flow.ret;
  }

  /** Number of writes `max30003_init` issues. */
  const INIT_STEPS: nat := 8

  /**
   * Frame `i` of the upload `max30003_init` sends: software reset, CNFG_GEN,
   * CNFG_CAL, CNFG_EMUX, CNFG_ECG, CNFG_RTOR1, MNGR_INT, then synch.
   */
  function InitFrame(r: Regs, i: nat): seq<bv8>
    requires i < INIT_STEPS
  {
    match i
    case 0 => WriteFrame(SW_RST, ZERO_SEQUENCE)
    case 1 => WriteFrame(CNFG_GEN, r.cnfgGen)
    case 2 => WriteFrame(CNFG_CAL, r.cnfgCal)
    case 3 => WriteFrame(CNFG_EMUX, r.cnfgEmux)
    case 4 => WriteFrame(CNFG_ECG, r.cnfgEcg)
    case 5 => WriteFrame(CNFG_RTOR1, r.cnfgRtor1)
    case 6 => WriteFrame(MNGR_INT, r.mngrInt)
    case _ => WriteFrame(SYNCH, ZERO_SEQUENCE)
  }

  /** The eight frames of the upload, in order. */
  function InitFrames(r: Regs): (fs: seq<seq<bv8>>)
    ensures |fs| == INIT_STEPS
    ensures forall i | 0 <= i < INIT_STEPS :: fs[i] == InitFrame(r, i)
  {
    [InitFrame(r, 0), InitFrame(r, 1), InitFrame(r, 2), InitFrame(r, 3),
     InitFrame(r, 4), InitFrame(r, 5), InitFrame(r, 6), InitFrame(r, 7)]
  }

  /**
   * The upload carries exactly the handle's register images: two handles
   * produce the same eight frames iff their six registers agree in their
   * low 24 bits, the part the chip holds.
   */
  lemma InitFramesCarryTheRegisters(r: Regs, s: Regs)
    ensures (forall i | 0 <= i < INIT_STEPS :: InitFrame(r, i) == InitFrame(s, i)) <==>
              && r.cnfgGen & 0xFF_FFFF == s.cnfgGen & 0xFF_FFFF
              && r.cnfgCal & 0xFF_FFFF == s.cnfgCal & 0xFF_FFFF
              && r.cnfgEmux & 0xFF_FFFF == s.cnfgEmux & 0xFF_FFFF
              && r.cnfgEcg & 0xFF_FFFF == s.cnfgEcg & 0xFF_FFFF
              && r.cnfgRtor1 & 0xFF_FFFF == s.cnfgRtor1 & 0xFF_FFFF
              && r.mngrInt & 0xFF_FFFF == s.mngrInt & 0xFF_FFFF
  {
    WriteFrameInjective(CNFG_GEN, r.cnfgGen, s.cnfgGen);
    WriteFrameInjective(CNFG_CAL, r.cnfgCal, s.cnfgCal);
    WriteFrameInjective(CNFG_EMUX, r.cnfgEmux, s.cnfgEmux);
    WriteFrameInjective(CNFG_ECG, r.cnfgEcg, s.cnfgEcg);
    WriteFrameInjective(CNFG_RTOR1, r.cnfgRtor1, s.cnfgRtor1);
    WriteFrameInjective(MNGR_INT, r.mngrInt, s.mngrInt);
    if forall i | 0 <= i < INIT_STEPS :: InitFrame(r, i) == InitFrame(s, i) {
      assert InitFrame(r, 1) == InitFrame(s, 1) && InitFrame(r, 2) == InitFrame(s, 2);
      assert InitFrame(r, 3) == InitFrame(s, 3) && InitFrame(r, 4) == InitFrame(s, 4);
      assert InitFrame(r, 5) == InitFrame(s, 5) && InitFrame(r, 6) == InitFrame(s, 6);
    }
  }

  /** How many transfers in a row, from the next one on, the bus acknowledges. */
  function AckRun(rs: Replies): nat
  {
    if rs.Then? && rs.head.Ack? then 1 + AckRun(rs.rest) else 0
  }

  /** The answers left after `n` transfers. */
  function Drop(rs: Replies, n: nat): Replies
  {
    if n == 0 then rs else Drop(After(rs), n - 1)
  }

  /** `AckRun` counts acknowledged transfers up to the first failing one. */
  lemma {:induction false} AckRunMeans(rs: Replies, i: nat)
    ensures i < AckRun(rs) ==> NextReply(Drop(rs, i)).Ack?
    ensures i == AckRun(rs) ==> NextReply(Drop(rs, i)).Nak?
  {
    if i > 0 && rs.Then? && rs.head.Ack? {
      AckRunMeans(rs.rest, i - 1);
    }
  }

  /** What a chain of writes leaves behind: the bus and the code returned. */
  datatype Upload = Upload(bus: Bus, ret: RetCode)

  /**
   * A chain of writes joined by `CONTINUE_ON_SUCCESS`, from frame `k` of
   * `frames` on: each step sends its frame, and a write the bus refuses
   * ends the chain with the write's code.
   */
  function WriteChain(b: Bus, frames: seq<seq<bv8>>, k: nat): Upload
    requires k <= |frames|
    decreases |frames| - k
  {
    if k == |frames| then Upload(b, Success)
    else if b.Next().Nak? then Upload(b.Transfer(frames[k]), SpiWriteErr)
    else WriteChain(b.Transfer(frames[k]), frames, k + 1)
  }

  /** The number of frames sent when `left` remain and the bus acknowledges `acked` transfers in a row. */
  function Sent(acked: nat, left: nat): (n: nat)
    ensures n <= left && (left > 0 ==> 1 <= n)
    ensures n == left <==> acked + 1 >= left
  {
    if acked >= left then left else acked + 1
  }

  /**
   * A chain sends frames `k`, `k + 1`, ... up to and including the first
   * write the bus refuses and nothing after it, uses up one answer per
   * frame sent, and succeeds exactly when the bus refuses none.
   */
  lemma {:induction false} WriteChainMeans(b: Bus, frames: seq<seq<bv8>>, k: nat)
    requires k <= |frames|
    ensures var u, n := WriteChain(b, frames, k), Sent(AckRun(b.replies), |frames| - k);
            u.bus == Bus(b.wire + frames[k..k + n], Drop(b.replies, n))
    ensures WriteChain(b, frames, k).ret ==
              if AckRun(b.replies) >= |frames| - k then Success else SpiWriteErr
    decreases |frames| - k
  {
    if k < |frames| && b.Next().Ack? {
      WriteChainMeans(b.Transfer(frames[k]), frames, k + 1);
      var n := Sent(AckRun(b.replies), |frames| - k);
      assert frames[k..k + n] == [frames[k]] + frames[k + 1..k + n];
    }
  }

  /**
   * `max30003_init`'s upload from step `k` on, written out per frame: the
   * chain of writes over `InitFrames`.
   */
  function UploadFrom(b: Bus, r: Regs, k: nat): Upload
    requires k <= INIT_STEPS
    decreases INIT_STEPS - k
  {
    if k == INIT_STEPS then Upload(b, Success)
    else if b.Next().Nak? then Upload(b.Transfer(InitFrame(r, k)), SpiWriteErr)
    else UploadFrom(b.Transfer(InitFrame(r, k)), r, k + 1)
  }

  /** `UploadFrom` is the chain of writes over `InitFrames`. */
  lemma {:induction false} UploadIsWriteChain(b: Bus, r: Regs, k: nat)
    requires k <= INIT_STEPS
    ensures UploadFrom(b, r, k) == WriteChain(b, InitFrames(r), k)
    decreases INIT_STEPS - k
  {
    if k < INIT_STEPS {
      UploadIsWriteChain(b.Transfer(InitFrame(r, k)), r, k + 1);
    }
  }

  /**
   * What `max30003_init` does on a bus that acknowledges `a` transfers in a
   * row: it sends the first `min(a + 1, 8)` frames of `InitFrames` (so no
   * write follows the first refused one) and succeeds exactly when all
   * eight writes were acknowledged.
   */
  lemma UploadMeans(b: Bus, r: Regs)
    ensures var u, n := UploadFrom(b, r, 0), Sent(AckRun(b.replies), INIT_STEPS);
            u.bus == Bus(b.wire + InitFrames(r)[..n], Drop(b.replies, n))
    ensures UploadFrom(b, r, 0).ret == if AckRun(b.replies) >= INIT_STEPS then Success else SpiWriteErr
  {
    UploadIsWriteChain(b, r, 0);
    WriteChainMeans(b, InitFrames(r), 0);
    var n := Sent(AckRun(b.replies), INIT_STEPS);
    assert InitFrames(r)[0..n] == InitFrames(r)[..n];
  }

  /**
   * `max30003_init`: upload the handle's registers between a software reset
   * and a synch; the first write that fails ends the upload (`goto exit`)
   * with its code. `UploadMeans` says what that leaves on the bus.
   */
  method Max30003Init(ecg: EcgData, spi: Spi) returns (ret: RetCode)
    modifies spi`bus
    ensures spi.bus == UploadFrom(old(spi.bus), ecg.regs, 0).bus
    ensures ret == UploadFrom(old(spi.bus), ecg.regs, 0).ret
  {
    var r := ecg.regs;
    ret := Success;
    var code: RetCode;
    label exit: {
      code := SwReset(spi);
      if code != Success {
        ret := code;
        break exit;
      }
      code := WriteReg(spi, CNFG_GEN, r.cnfgGen);
      if code != Success {
        ret := code;
        break exit;
      }
      code := WriteReg(spi, CNFG_CAL, r.cnfgCal);
      if code != Success {
        ret := code;
        break exit;
      }
      code := WriteReg(spi, CNFG_EMUX, r.cnfgEmux);
      if code != Success {
        ret := code;
        break exit;
      }
      code := WriteReg(spi, CNFG_ECG, r.cnfgEcg);
      if code != Success {
        ret := code;
        break exit;
      }
      code := WriteReg(spi, CNFG_RTOR1, r.cnfgRtor1);
      if code != Success {
        ret := code;
        break exit;
      }
      code := WriteReg(spi, MNGR_INT, r.mngrInt);
      if code != Success {
        ret := code;
        break exit;
      }
      code := Synch(spi);
      if code != Success {
        ret := code;
        break exit;
      }
    }
  }
}
