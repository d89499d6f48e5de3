/**
 * The spidev transport as the driver sees it (inc/spi.h, src/spi.c): an
 * `spi_t` handle with its settings and two transfers, `spi_write` and
 * `spi_read`. The device on the other end is not modelled: the handle
 * carries the list of answers the bus will give to the coming transfers,
 * and records the bytes clocked out by every transfer.
 */
module Transport {
  import opened Common

  const SPI_BUFF_SIZE: nat := 4
  const SPI_COMMAND_LEN: nat := 1
  const SPI_MAX_SPEED: bv32 := 1_000_000
  const SPI_DEVICE_NAME: string := "/dev/spidev0.0"
  /** `SPI_LSB_FIRST` from Linux's spidev header (bit 3 of the mode flags). */
  const SPI_LSB_FIRST: bv8 := 0x08

  /** How the bus answers one transfer: the ioctl fails, or it succeeds and 4 bytes come in. */
  datatype Reply = Nak | Ack(b0: bv8, b1: bv8, b2: bv8, b3: bv8)
  {
    function Bytes(): (s: seq<bv8>)
      requires Ack?
      ensures |s| == SPI_BUFF_SIZE && s[0] == b0 && s[1] == b1 && s[2] == b2 && s[3] == b3
    {
      [b0, b1, b2, b3]
    }
  }

  /**
   * How the bus will answer the coming transfers, in order; once the list
   * runs out, every transfer fails.
   */
  datatype Replies = Silent | Then(head: Reply, rest: Replies)

  /** The answer to the next transfer. */
  function NextReply(rs: Replies): Reply
  {
    match rs
    case Silent => Nak
    case Then(r, _) => r
  }

  /** The answers left after one transfer. */
  function After(rs: Replies): Replies
  {
    match rs
    case Silent => Silent
    case Then(_, rest) => rest
  }

  /**
   * The bus as the driver sees it: the bytes clocked out by each transfer
   * so far, in order, and how the bus will answer the coming transfers.
   */
  datatype Bus = Bus(wire: seq<seq<bv8>>, replies: Replies)
  {
    /** The answer the next transfer gets. */
    function Next(): Reply
    {
      NextReply(replies)
    }

    /** The bus after one more transfer that clocks out `frame`. */
    function Transfer(frame: seq<bv8>): Bus
    {
      Bus(wire + [frame], After(replies))
    }
  }

  /** The user-settable members of an `spi_t`: `dev_name`, `speed`, `mode`, `lsb` and `bits`. */
  datatype SpiParams = SpiParams(devName: string, speed: bv32, mode: bv8, lsb: bv8, bits: bv8)

  /** `spi_t`: the bus handle. */
  class Spi {
    /** The settings, held together as one value. */
    var params: SpiParams
    /** What has gone over the bus and how it will answer next. */
    var bus: Bus

    /** A zero-initialised handle (the driver keeps one as a global) on a bus that will answer with `replies`. */
    constructor (replies: Replies)
      ensures params == SpiParams("", 0, 0, 0, 0)
      ensures bus == Bus([], replies)
    {
      params := SpiParams("", 0, 0, 0, 0);
      bus := Bus([], replies);
    }

    /** `spi_write`: clock `frame` out as one transfer; a failed ioctl gives `RET_CODE_SPI_WRITE_ERR`. */
    method Write(frame: seq<bv8>) returns (ret: RetCode)
      requires |frame| <= SPI_BUFF_SIZE
      modifies this`bus
      ensures bus == old(bus).Transfer(frame)
      ensures ret == (if old(bus).Next().Nak? then SpiWriteErr else Success)
    {
      ret := if bus.Next().Nak? then SpiWriteErr else Success;
      bus := bus.Transfer(frame);
    }

    /**
     * `spi_read`: clock out the command byte, clock `len` bytes in, and copy
     * them to `rxBuf` when the ioctl succeeds; a failed ioctl gives
     * `RET_CODE_SPI_READ_ERR` and leaves `rxBuf` alone.
     */
    method Read(command: bv8, rxBuf: array<bv8>, len: nat) returns (ret: RetCode)
      requires len <= SPI_BUFF_SIZE && len <= rxBuf.Length
      modifies this`bus, rxBuf
      ensures bus == old(bus).Transfer([command])
      ensures old(bus).Next().Nak? ==> ret == SpiReadErr && rxBuf[..] == old(rxBuf[..])
      ensures old(bus).Next().Ack? ==>
                && ret == Success
                && rxBuf[..len] == old(bus).Next().Bytes()[..len]
                && rxBuf[len..] == old(rxBuf[len..])
    {
      var reply := bus.Next();
      if reply.Nak? {
        ret := SpiReadErr;
      } else {
        var bytes := reply.Bytes();
        forall i | 0 <= i < len {
          rxBuf[i] := bytes[i];
        }
        ret := Success;
      }
      bus := bus.Transfer([command]);
    }
  }
}
