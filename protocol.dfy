/**
 * Register access over the bus (src/MAX30003.c): the write frame, the read
 * request, the FIFO sample decode, the status check and the fail-fast
 * initialisation sequence.
 */
module Protocol {
  import opened Common
  import opened Registers
  import opened Transport

  const BYTES_NUM_TO_READ: nat := 4
  const COMMAND_BYTE_NUM: nat := 0
  const FIFO_LAST_DATA_MASK: bv32 := 0xC0
  const FIFO_ADDITIONAL_BITS: bv32 := 6
  const EINT_TO_LAST_BYTE: bv32 := 16

  newtype int32 = x: int | -0x8000_0000 <= x < 0x8000_0000
  newtype uint32 = x: int | 0 <= x < 0x1_0000_0000

  /**
   * The command byte `(addr << 1) | flag`, stored into a `char`: the address
   * moves up one bit (its bit 7 falls off) and the flag takes bit 0.
   */
  function Command(addr: bv8, flag: bv8): (c: bv8)
    requires flag == WREG || flag == RREG
    ensures c >> 1 == addr & 0x7F
    ensures c & 1 == flag
  {
    (addr << 1) | flag
  }

  /** Bits 8k+7..8k of a word, as a `char` holding `data >> 8k`. */
  function ByteOf(data: bv32, shift: bv32): (b: bv8)
    requires shift <= 24
  {
    ((data >> shift) & 0xFF) as bv8
  }

  /** The 24-bit value carried by bytes 1..3 of a frame, most significant first. */
  function FramePayload(f: seq<bv8>): bv32
    requires |f| == BYTES_NUM_IN_REG
  {
    (f[1] as bv32 << 16) | (f[2] as bv32 << 8) | f[3] as bv32
  }

  /**
   * The 4-byte frame `max30003_write_reg` sends: the write command for
   * `addr`, then bits 23..16, 15..8 and 7..0 of `data`.
   */
  function WriteFrame(addr: bv8, data: bv32): (f: seq<bv8>)
    ensures |f| == BYTES_NUM_IN_REG
  {
    [Command(addr, WREG), ByteOf(data, 16), ByteOf(data, 8), ByteOf(data, 0)]
  }

  /** The write frame holds the write command for `addr` and, in bytes 1..3, the low 24 bits of `data`. */
  lemma WriteFrameLayout(addr: bv8, data: bv32)
    ensures var f := WriteFrame(addr, data);
            f[0] >> 1 == addr & 0x7F && f[0] & 1 == WREG && FramePayload(f) == data & 0xFF_FFFF
  {
  }

  /** Bits of `data` above bit 23 never reach the wire. */
  lemma HighBitsNeverSent(addr: bv8, data: bv32)
    ensures WriteFrame(addr, data) == WriteFrame(addr, data & 0xFF_FFFF)
  {
  }

  /** Two writes to the same register put the same frame on the wire exactly when their low 24 bits agree. */
  lemma WriteFrameInjective(addr: bv8, d1: bv32, d2: bv32)
    ensures WriteFrame(addr, d1) == WriteFrame(addr, d2) <==> d1 & 0xFF_FFFF == d2 & 0xFF_FFFF
  {
    if WriteFrame(addr, d1) == WriteFrame(addr, d2) {
      WriteFrameLayout(addr, d1);
      WriteFrameLayout(addr, d2);
      assert FramePayload(WriteFrame(addr, d1)) == FramePayload(WriteFrame(addr, d2));
    } else {
      HighBitsNeverSent(addr, d1);
      HighBitsNeverSent(addr, d2);
    }
  }

  /** `max30003_write_reg`: send the write frame; the transport's code is returned as is. */
  method WriteReg(spi: Spi, addr: bv8, data: bv32) returns (ret: RetCode)
    modifies spi`bus
    ensures spi.bus == old(spi.bus).Transfer(WriteFrame(addr, data))
    ensures ret == (if old(spi.bus).Next().Nak? then SpiWriteErr else Success)
  {
    var commandBuff := WriteFrame(addr, data);
    ret := spi.Write(commandBuff);
  }

  /**
   * `max30003_read_reg`: clock out the read command for `addr` (the first
   * byte of the zeroed transmit buffer) and read 4 bytes into `readBuff`;
   * the transport's code is returned as is.
   */
  method ReadReg(spi: Spi, addr: bv8, readBuff: array<bv8>) returns (ret: RetCode)
    requires readBuff.Length >= BYTES_NUM_TO_READ
    modifies spi`bus, readBuff
    ensures spi.bus == old(spi.bus).Transfer([Command(addr, RREG)])
    ensures old(spi.bus).Next().Nak? ==>
              ret == SpiReadErr && readBuff[..] == old(readBuff[..])
    ensures old(spi.bus).Next().Ack? ==>
              && ret == Success
              && readBuff[..BYTES_NUM_TO_READ] == old(spi.bus).Next().Bytes()
              && readBuff[BYTES_NUM_TO_READ..] == old(readBuff[BYTES_NUM_TO_READ..])
  {
    ret := spi.Read(Command(addr, RREG), readBuff, BYTES_NUM_TO_READ);
  }

  /** Reinterpret a `uint32_t` as a two's-complement `int32_t`. */
  function ToInt32(n: uint32): (v: int32)
    ensures v >= 0 <==> n < 0x8000_0000
    ensures v as int == n as int || v as int == n as int - 0x1_0000_0000
  {
    if n < 0x8000_0000 then n as int as int32 else (n as int - 0x1_0000_0000) as int32
  }

  /**
   * The word `max30003_get_ecg_point` composes from the first three FIFO
   * bytes: `(b0 << 24) | (b1 << 16) | ((b2 >> 6) & 0xC0)`.
   */
  function FifoWord(b0: bv8, b1: bv8, b2: bv8): bv32
  {
    var data0: bv32 := b0 as bv32 << 24;
    var data1: bv32 := b1 as bv32 << 16;
    var data2: bv32 := (b2 as bv32 >> FIFO_ADDITIONAL_BITS) & FIFO_LAST_DATA_MASK;
    data0 | data1 | data2
  }

  /**
   * `b2 >> 6` is at most 3, so masking it with 0xC0 leaves nothing: the
   * composed word is `b0 * 2^24 + b1 * 2^16`.
   */
  lemma FifoWordValue(b0: bv8, b1: bv8, b2: bv8)
    ensures (b2 as bv32 >> FIFO_ADDITIONAL_BITS) & FIFO_LAST_DATA_MASK == 0
    ensures FifoWord(b0, b1, b2) as int == b0 as int * 0x100_0000 + b1 as int * 0x1_0000
  {
    var w := (b0 as bv32 << 24) | (b1 as bv32 << 16);
    assert w == b0 as bv32 * 0x100_0000 + b1 as bv32 * 0x1_0000;
    assert FifoWord(b0, b1, b2) == w;
  }

  /**
   * Integer facts about the word `n = x0 * 2^24 + x1 * 2^16` read as an
   * `int32_t` `p`: `p` is `n` less 2^32 exactly when bit 7 of `x0` is set.
   */
  lemma SampleArithmetic(x0: int, x1: int, n: int, p: int)
    requires 0 <= x0 < 0x100 && 0 <= x1 < 0x100
    requires n == x0 * 0x100_0000 + x1 * 0x1_0000
    requires p == if n < 0x8000_0000 then n else n - 0x1_0000_0000
    ensures p == n - (if x0 >= 0x80 then 0x1_0000_0000 else 0)
    ensures p % 0x1_0000 == 0
    ensures p < 0 <==> x0 >= 0x80
    ensures p == 0 <==> x0 == 0 && x1 == 0
  {
    var k := if x0 >= 0x80 then 0x1_0000 else 0;
    assert n == (x0 * 0x100 + x1) * 0x1_0000;
    assert n < 0x8000_0000 <==> x0 < 0x80;
    assert p == (x0 * 0x100 + x1 - k) * 0x1_0000;
  }

  /**
   * The sample `max30003_get_ecg_point` decodes: the composed word read as
   * an `int32_t`.
   */
  function DecodePoint(b0: bv8, b1: bv8, b2: bv8): int32
  {
    ToInt32(FifoWord(b0, b1, b2) as int as uint32)
  }

  /**
   * The decoded sample is `b0 * 2^24 + b1 * 2^16` in two's complement, so
   * its low 16 bits are zero, it is negative exactly when bit 7 of `b0` is
   * set, and it is zero exactly when `b0` and `b1` are.
   */
  lemma DecodePointValue(b0: bv8, b1: bv8, b2: bv8)
    ensures var p := DecodePoint(b0, b1, b2);
            && p as int == b0 as int * 0x100_0000 + b1 as int * 0x1_0000
                           - (if b0 as int >= 0x80 then 0x1_0000_0000 else 0)
            && p as int % 0x1_0000 == 0
            && (p < 0 <==> b0 as int >= 0x80)
            && (p == 0 <==> b0 == 0 && b1 == 0)
  {
    FifoWordValue(b0, b1, b2);
    SampleArithmetic(b0 as int, b1 as int, FifoWord(b0, b1, b2) as int, DecodePoint(b0, b1, b2) as int);
  }

  /** Byte 2 of a FIFO word never affects the decoded sample. */
  lemma DecodeIgnoresByte2(b0: bv8, b1: bv8, x: bv8, y: bv8)
    ensures DecodePoint(b0, b1, x) == DecodePoint(b0, b1, y)
  {
    FifoWordValue(b0, b1, x);
    FifoWordValue(b0, b1, y);
  }

  /** The sample a FIFO read yields: zero when the read fails, otherwise the decoded first three bytes. */
  function PointOf(r: Reply): (p: int32)
  {
    match r
    case Nak => 0
    case Ack(b0, b1, b2, _) => DecodePoint(b0, b1, b2)
  }

  /**
   * `max30003_get_ecg_point`: read register ECG_FIFO and decode it. The
   * source hands a 3-byte buffer to a read that copies 4 bytes; the model
   * gives the read the 4 bytes it writes.
   */
  method GetEcgPoint(spi: Spi) returns (p: int32)
    modifies spi`bus
    ensures spi.bus == old(spi.bus).Transfer([Command(ECG_FIFO, RREG)])
    ensures p == PointOf(old(spi.bus).Next())
  {
    var fifoData := new bv8[BYTES_NUM_TO_READ](_ => 0);
    var r := ReadReg(spi, ECG_FIFO, fifoData);
    if r != Success {
      return 0;
    }
    p := DecodePoint(fifoData[0], fifoData[1], fifoData[2]);
  }

  /** What the status byte 0 says about the FIFO. */
  datatype FifoStatus = FifoStatus(interrupt: bool, overflow: bool)

  /** The EINT and EOVF flags, moved down to the high status byte. */
  function StatusOf(status0: bv8): (s: FifoStatus)
    ensures s.interrupt <==> status0 >= 0x80
    ensures s.overflow <==> (status0 as int / 0x40) % 2 == 1
  {
    FifoStatus(status0 & ((EINT >> EINT_TO_LAST_BYTE) as bv8) != 0,
               status0 & ((EOVF >> EINT_TO_LAST_BYTE) as bv8) != 0)
  }

  /** The value `__check_fifo_present` returns for status byte 0: only the interrupt flag counts. */
  function FifoFlag(status0: bv8): (flag: bv8)
    ensures flag == 1 <==> status0 & 0x80 != 0
    ensures flag == 0 <==> status0 & 0x80 == 0
  {
    if StatusOf(status0).interrupt then 1 else 0
  }

  /** The overflow flag is reported but does not change the result. */
  lemma OverflowDoesNotMatter(status0: bv8)
    ensures FifoFlag(status0 | 0x40) == FifoFlag(status0 & 0xBF)
  {
  }

  /** Status byte 0 as `__check_fifo_present` sees it: its buffer stays zero when the read fails. */
  function Status0Of(r: Reply): bv8
  {
    match r
    case Nak => 0
    case Ack(b0, _, _, _) => b0
  }

  /**
   * `__check_fifo_present`: read STATUS into a zeroed buffer, ignoring the
   * read's code, and report whether the FIFO interrupt flag is set. A set
   * overflow flag is only logged.
   */
  method CheckFifoPresent(spi: Spi) returns (flag: bv8)
    modifies spi`bus
    ensures spi.bus == old(spi.bus).Transfer([Command(STATUS, RREG)])
    ensures flag == FifoFlag(Status0Of(old(spi.bus).Next()))
  {
    var status := new bv8[BYTES_NUM_TO_READ](_ => 0);
    var _ := ReadReg(spi, STATUS, status);
    var flags := StatusOf(status[0]);
    // flags.overflow is only logged
    flag := if flags.interrupt then 1 else 0;
  }

  /** `max30003_sw_reset`: write zero to the software-reset register. */
  method SwReset(spi: Spi) returns (ret: RetCode)
    modifies spi`bus
    ensures spi.bus == old(spi.bus).Transfer(WriteFrame(SW_RST, ZERO_SEQUENCE))
    ensures ret == (if old(spi.bus).Next().Nak? then SpiWriteErr else Success)
  {
    ret := WriteReg(spi, SW_RST, ZERO_SEQUENCE);
  }

  /** `max30003_synch`: write zero to the synch register. */
  method Synch(spi: Spi) returns (ret: RetCode)
    modifies spi`bus
    ensures spi.bus == old(spi.bus).Transfer(WriteFrame(SYNCH, ZERO_SEQUENCE))
    ensures ret == (if old(spi.bus).Next().Nak? then SpiWriteErr else Success)
  {
    ret := WriteReg(spi, SYNCH, ZERO_SEQUENCE);
  }
}
