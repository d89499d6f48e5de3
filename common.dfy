/**
 * Return codes and the bit-manipulation macros shared by the driver
 * (inc/common_types.h and inc/common_check.h).
 */
module Common {

  /** `ret_code_t`: every code the driver can return, with its numeric value. */
  datatype RetCode =
    | Success | Error | Busy | Timeout | InvalidParams | DivisionByZero
    | CrcMismatch | NullPtr | AllocFail
    | UartError | UartBusy | UartTimeout
    | I2cError | I2cBusy | I2cTimeout
    | SpiError | SpiBusy | SpiTimeout | SpiOpenFail | SpiWriteErr | SpiReadErr | SpiExchangeErr
  {
    /** The enumerator's value in the C enum. */
    function Value(): (n: nat)
      ensures n == 0 <==> this == Success
      ensures (|| this.SpiError? || this.SpiBusy? || this.SpiTimeout? || this.SpiOpenFail?
               || this.SpiWriteErr? || this.SpiReadErr? || this.SpiExchangeErr?) <==> 200 <= n
    {
      match this
      case Success => 0
      case Error => 1
      case Busy => 2
      case Timeout => 3
      case InvalidParams => 4
      case DivisionByZero => 5
      case CrcMismatch => 6
      case NullPtr => 7
      case AllocFail => 8
      case UartError => 50
      case UartBusy => 51
      case UartTimeout => 52
      case I2cError => 100
      case I2cBusy => 101
      case I2cTimeout => 102
      case SpiError => 200
      case SpiBusy => 201
      case SpiTimeout => 202
      case SpiOpenFail => 203
      case SpiWriteErr => 204
      case SpiReadErr => 205
      case SpiExchangeErr => 206
    }
  }

  datatype Option<T> = None | Some(value: T)

  /** `BITMASK_SET(reg, mask)`: the new value of `reg` after `reg |= mask`. */
  function BitmaskSet(reg: bv32, mask: bv32): (r: bv32)
    ensures r & mask == mask
    ensures r & !mask == reg & !mask
  {
    reg | mask
  }

  /** `BITMASK_CLEAR(reg, mask)`: the new value of `reg` after `reg &= ~mask`. */
  function BitmaskClear(reg: bv32, mask: bv32): (r: bv32)
    ensures r & mask == 0
    ensures r & !mask == reg & !mask
  {
    reg & !mask
  }

  /** `BITMASK_FLIP(reg, mask)`: the new value of `reg` after `reg ^= mask`. */
  function BitmaskFlip(reg: bv32, mask: bv32): (r: bv32)
    ensures r & !mask == reg & !mask
    ensures r & mask == !reg & mask
  {
    reg ^ mask
  }

  /** `BITMASK_CHECK_ALL(reg, mask)`: `!(~reg & mask)`. */
  predicate BitmaskCheckAll(reg: bv32, mask: bv32)
  {
    !reg & mask == 0
  }

  /** `BITMASK_CHECK_ANY(reg, mask)`: `reg & mask` (non-zero when any mask bit is set). */
  function BitmaskCheckAny(reg: bv32, mask: bv32): (r: bv32)
    ensures r == 0 <==> reg & mask == 0
    ensures r & !mask == 0
  {
    reg & mask
  }

  /** `1 << bit` for a bit position of a 32-bit word. */
  function Bit(bit: nat): (m: bv32)
    requires bit < 32
  {
    1 << bit
  }

  /** `SET_BIT(reg, bit)`. */
  function SetBit(reg: bv32, bit: nat): (r: bv32)
    requires bit < 32
    ensures r == BitmaskSet(reg, Bit(bit))
  {
    reg | (1 << bit)
  }

  /** `CLR_BIT(reg, bit)`. */
  function ClrBit(reg: bv32, bit: nat): (r: bv32)
    requires bit < 32
    ensures r == BitmaskClear(reg, Bit(bit))
  {
    reg & !(1 << bit)
  }

  /** `MULTIBIT_SET(addr, mask, value)`: `(addr & (0xff ^ mask)) | (value & mask)`. */
  function MultibitSet(addr: bv32, mask: bv32, value: bv32): (r: bv32)
    ensures mask <= 0xFF ==> r & mask == value & mask
    ensures mask <= 0xFF ==> r & (0xFF & !mask) == addr & (0xFF & !mask)
    ensures mask <= 0xFF ==> r & !0xFF == 0
  {
    (addr & (0xFF ^ mask)) | (value & mask)
  }

  /** Where execution goes after `CONTINUE_ON_SUCCESS(code)`. */
  datatype Flow = Continue(ret: RetCode) | Exit(ret: RetCode)

  /**
   * `CONTINUE_ON_SUCCESS(code)` inside a function whose result variable
   * currently holds `ret`: a failure is stored and leaves, a success
   * leaves `ret` as it was and goes on.
   */
  function ContinueOnSuccess(ret: RetCode, code: RetCode): (f: Flow)
    ensures f.Exit? <==> code != Success
    ensures f.Exit? ==> f.ret == code
    ensures f.Continue? ==> f.ret == ret
  {
    if code != Success then Exit(code) else Continue(ret)
  }

  /** `BITMASK_FLIP` twice with the same mask restores the register. */
  lemma FlipTwice(reg: bv32, mask: bv32)
    ensures BitmaskFlip(BitmaskFlip(reg, mask), mask) == reg
  {
  }

  /** Right after `BITMASK_SET` every mask bit checks; right after `BITMASK_CLEAR` none does. */
  lemma CheckAfterSetAndClear(reg: bv32, mask: bv32)
    ensures BitmaskCheckAll(BitmaskSet(reg, mask), mask)
    ensures BitmaskCheckAny(BitmaskClear(reg, mask), mask) == 0
  {
  }

  /** `BITMASK_CHECK_ALL` holds exactly when setting the mask would change nothing. */
  lemma CheckAllMeansSetIsIdle(reg: bv32, mask: bv32)
    ensures BitmaskCheckAll(reg, mask) <==> BitmaskSet(reg, mask) == reg
  {
  }
}
