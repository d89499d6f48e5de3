/**
 * The MAX30003 register map (inc/MAX30003.h): register addresses, the
 * read/write command flags, the power-on words the driver programs and the
 * field codes and `*_RESET` field masks of each configuration register.
 * Register words are 24-bit values held in a `uint32_t`, modelled as `bv32`.
 */
module Registers {

  /** Number of samples `ecg_get_data` collects (`DEF_ECG_DATA_LEN`). */
  const DEF_ECG_DATA_LEN: nat := 1024

  const BYTES_NUM_IN_REG: nat := 4
  const WREG: bv8 := 0x00
  const RREG: bv8 := 0x01
  const TWO_LSB_BITS_MASK: bv32 := 3
  const THREE_LSB_BITS_MASK: bv32 := 7

  // Register addresses
  const NO_OP: bv8 := 0x00
  const STATUS: bv8 := 0x01
  const EN_INT: bv8 := 0x02
  const EN_INT2: bv8 := 0x03
  const MNGR_INT: bv8 := 0x04
  const MNGR_DYN: bv8 := 0x05
  const SW_RST: bv8 := 0x08
  const SYNCH: bv8 := 0x09
  const FIFO_RST: bv8 := 0x0A
  const INFO: bv8 := 0x0F
  const CNFG_GEN: bv8 := 0x10
  const CNFG_CAL: bv8 := 0x12
  const CNFG_EMUX: bv8 := 0x14
  const CNFG_ECG: bv8 := 0x15
  const CNFG_RTOR1: bv8 := 0x1D
  const CNFG_RTOR2: bv8 := 0x1E
  const ECG_FIFO_BURST: bv8 := 0x20
  const ECG_FIFO: bv8 := 0x21
  const RTOR: bv8 := 0x25

  /** Every register address the header names. */
  const ADDRESSES: seq<bv8> :=
    [NO_OP, STATUS, EN_INT, EN_INT2, MNGR_INT, MNGR_DYN, SW_RST, SYNCH, FIFO_RST, INFO,
     CNFG_GEN, CNFG_CAL, CNFG_EMUX, CNFG_ECG, CNFG_RTOR1, CNFG_RTOR2, ECG_FIFO_BURST,
     ECG_FIFO, RTOR]

  // CNFG_ECG
  const ECG_GAIN_20_RESET: bv32 := TWO_LSB_BITS_MASK << 16
  const ECG_GAIN_40: bv32 := 0x0001_0000
  const ECG_GAIN_80: bv32 := 0x0002_0000
  const ECG_GAIN_160: bv32 := 0x0003_0000
  const ECG_GAIN_512_RESET: bv32 := TWO_LSB_BITS_MASK << 22
  const ECG_RATE_128: bv32 := 0x0080_0000
  const ECG_RATE_256: bv32 := 0x0040_0000
  const DHPF_BYPASS_RESET: bv32 := 1 << 14
  const DHPF_05_HZ: bv32 := 0x0000_4000
  const DLPF_BYPASS: bv32 := 0x0000_0000
  const DLPF_40_HZ: bv32 := 0x0000_1000
  const DLPF_100_HZ: bv32 := 0x0000_2000
  const DLPF_150_HZ: bv32 := 0x0000_3000
  const CNFG_ECG_DEFAULT: bv32 := ECG_GAIN_80 | ECG_RATE_128 | DHPF_05_HZ | DLPF_150_HZ

  // STATUS flags
  const EINT: bv32 := 0x80_0000
  const EOVF: bv32 := 0x40_0000
  const FSTINT: bv32 := 0x20_0000
  const DCLOFFINT: bv32 := 0x10_0000
  const LONINT: bv32 := 0x00_0800
  const RRINT: bv32 := 0x00_0400
  const SAMP: bv32 := 0x00_0200
  const PLLINT: bv32 := 0x00_0100
  const LDOFF_PH: bv32 := 0x00_0008
  const LDOFF_PL: bv32 := 0x00_0004
  const LDOFF_NH: bv32 := 0x00_0002
  const LDOFF_NL: bv32 := 0x00_0001

  // MNGR_INT
  const MNGR_INT_DEFAULT: bv32 := 0x00_0004
  const EFIT_16: bv32 := 0x78_0000
  const EFIT_2: bv32 := 0x08_0000
  const EFIT_1_RESET: bv32 := 0x1F << 19
  const CLEAR_PRINT_ON_STATUS_RESET: bv32 := TWO_LSB_BITS_MASK << 4
  const CLEAR_PRINT_ON_RTOR: bv32 := 0x00_0010
  const CLEAR_PRINT_ON_READ_CYCLE: bv32 := 0x00_0020
  const CLR_SAMP_ON_STATUS_RESET: bv32 := 1 << 2
  const CLR_SAMP_AUTO: bv32 := 0x00_0004
  const SAMP_EVERY_SAMPLE_RESET: bv32 := 3
  const SAMP_EVERY_SECOND: bv32 := 0x00_0001
  const SAMP_EVERY_FOURTH: bv32 := 0x00_0002
  const SAMP_EVERY_SIXTEENTH: bv32 := 0x00_0003

  // CNFG_GEN
  const CNFG_GEN_DEFAULT: bv32 := 0x08_1007
  const ULP_DIS_RESET: bv32 := TWO_LSB_BITS_MASK << 22
  const ULP_ENABLE: bv32 := 0x40_0000
  const ECG_CHAN_EN: bv32 := 0x08_0000
  const ECG_CHAN_DIS_RESET: bv32 := 1 << 19
  const LEADOFF_DIS_RESET: bv32 := TWO_LSB_BITS_MASK << 12
  const LEADOFF_EN: bv32 := 0x00_1000
  const DCLOFFP_PULL_UP: bv32 := 0x00_0800
  const DCLOFFP_PULL_DOWN_RESET: bv32 := 1 << 11
  const DCLOFF_CUR_DISABLE_RESET: bv32 := THREE_LSB_BITS_MASK << 8
  const DCLOFF_CUR_5_N_A: bv32 := 0x00_0100
  const DCLOFF_CUR_10_N_A: bv32 := 0x00_0200
  const DCLOFF_CUR_20_N_A: bv32 := 0x00_0300
  const DCLOFF_CUR_50_N_A: bv32 := 0x00_0500
  const DCLOFF_CUR_100_N_A: bv32 := 0x00_0700
  const DCLOFF_VTH_300_M_V_RESET: bv32 := TWO_LSB_BITS_MASK << 6
  const DCLOFF_VTH_400_M_V: bv32 := 0x00_0040
  const DCLOFF_VTH_450_M_V: bv32 := 0x00_0080
  const DCLOFF_VTH_500_M_V: bv32 := 0x00_00C0
  const RBIAS_DISABLED_RESET: bv32 := TWO_LSB_BITS_MASK << 4
  const RBIAS_ENABLED: bv32 := 0x00_0010
  const RBIAS_SEL_50_M_OHM_RESET: bv32 := TWO_LSB_BITS_MASK << 2
  const RBIAS_SEL_100_M_OHM: bv32 := 0x00_0004
  const RBIAS_SEL_200_M_OHM: bv32 := 0x00_0008
  const RBIASP_CON: bv32 := 0x00_0002
  const RBIASN_NC_RESET: bv32 := TWO_LSB_BITS_MASK
  const RBIASN_CON: bv32 := 0x00_0001

  // CNFG_CAL
  const CNFG_CAL_DEFAULT: bv32 := 0x72_0000
  const CALIB_SRCS_ENABLE: bv32 := 0x40_0000
  const CALIB_SRCS_DIS_RESET: bv32 := 1 << 22
  const VMODE_UNIPOL_RESET: bv32 := 1 << 21
  const VMODE_BIPOL: bv32 := 0x20_0000
  const VMAG_0_25_M_V_RESET: bv32 := 1 << 20
  const VMAG_0_50_M_V: bv32 := 0x10_0000
  const FCAL_256_HZ_RESET: bv32 := THREE_LSB_BITS_MASK << 12
  const FCAL_64_HZ: bv32 := 0x00_1000
  const FCAL_16_HZ: bv32 := 0x00_2000
  const FCAL_4_HZ: bv32 := 0x00_3000
  const FCAL_1_HZ: bv32 := 0x00_4000
  const FCAL_250_M_HZ: bv32 := 0x05_0000
  const FCAL_62_M_HZ: bv32 := 0x06_0000
  const FCAL_16_M_HZ: bv32 := 0x07_0000
  const THIGH_50_PROC: bv32 := 0x00_0800

  // CNFG_EMUX
  const CNFG_EMUX_DEFAULT: bv32 := 0x0B_0000
  const POL_NON_INV_RESET: bv32 := 1 << 23
  const POL_INV: bv32 := 0x80_0000
  const OPENP_CONNECTED_RESET: bv32 := 1 << 21
  const OPENN_CONNECTED_RESET: bv32 := 1 << 20
  const OPENP_ISOLATED: bv32 := 0x20_0000
  const OPENN_ISOLATED: bv32 := 0x10_0000
  const CALP_SEL_NC_RESET: bv32 := TWO_LSB_BITS_MASK << 18
  const CALP_SEL_V_MID: bv32 := 0x04_0000
  const CALP_SEL_V_CALP: bv32 := 0x08_0000
  const CALP_SEL_V_CALN: bv32 := 0x0C_0000
  const CALN_SEL_NC_RESET: bv32 := TWO_LSB_BITS_MASK << 16
  const CALN_SEL_V_MID: bv32 := 0x01_0000
  const CALN_SEL_V_CALP: bv32 := 0x02_0000
  const CALN_SEL_V_CALN: bv32 := 0x03_0000

  // CNFG_RTOR1
  const CNFG_RTOR1_DEFAULT: bv32 := 0x3F_C600

  /** `ZERO_SEQUENCE`: the payload of the software-reset and synch commands. */
  const ZERO_SEQUENCE: bv32 := 0x00_0000

  /** A register word: a value of the chip's 24-bit registers. */
  predicate IsWord24(w: bv32)
  {
    w & 0xFF00_0000 == 0
  }

  /** `c` lies entirely inside the field `mask`. */
  predicate InField(c: bv32, mask: bv32)
  {
    c & !mask == 0
  }

  /** The ECG-channel default is gain 80 V/V, 128 sps, 0.5 Hz high-pass, 150 Hz low-pass. */
  lemma EcgDefaultValue()
    ensures CNFG_ECG_DEFAULT == 0x82_7000
  {
  }

  /** Every power-on word the driver programs is a 24-bit register word. */
  lemma DefaultsAreWords()
    ensures IsWord24(CNFG_GEN_DEFAULT) && IsWord24(CNFG_CAL_DEFAULT) && IsWord24(CNFG_EMUX_DEFAULT)
    ensures IsWord24(CNFG_ECG_DEFAULT) && IsWord24(CNFG_RTOR1_DEFAULT) && IsWord24(MNGR_INT_DEFAULT)
  {
  }

  /** The defaults taken apart into the named field codes they select. */
  lemma DefaultsDecompose()
    ensures CNFG_GEN_DEFAULT == ECG_CHAN_EN | LEADOFF_EN | RBIAS_SEL_100_M_OHM | RBIASP_CON | RBIASN_CON
    ensures MNGR_INT_DEFAULT == CLR_SAMP_AUTO
    ensures CNFG_EMUX_DEFAULT == CALP_SEL_V_CALP | CALN_SEL_V_CALN
  {
  }

  /** The multi-valued field codes sit inside their `*_RESET` field masks. */
  lemma CodesInsideTheirFields()
    ensures InField(ECG_GAIN_40, ECG_GAIN_20_RESET) && InField(ECG_GAIN_80, ECG_GAIN_20_RESET)
    ensures InField(ECG_GAIN_160, ECG_GAIN_20_RESET)
    ensures InField(ECG_RATE_128, ECG_GAIN_512_RESET) && InField(ECG_RATE_256, ECG_GAIN_512_RESET)
    ensures InField(EFIT_16, EFIT_1_RESET) && InField(EFIT_2, EFIT_1_RESET)
    ensures InField(SAMP_EVERY_SECOND, SAMP_EVERY_SAMPLE_RESET)
    ensures InField(SAMP_EVERY_FOURTH, SAMP_EVERY_SAMPLE_RESET)
    ensures InField(SAMP_EVERY_SIXTEENTH, SAMP_EVERY_SAMPLE_RESET)
    ensures InField(DCLOFF_CUR_5_N_A, DCLOFF_CUR_DISABLE_RESET)
    ensures InField(DCLOFF_CUR_10_N_A, DCLOFF_CUR_DISABLE_RESET)
    ensures InField(DCLOFF_CUR_20_N_A, DCLOFF_CUR_DISABLE_RESET)
    ensures InField(DCLOFF_CUR_50_N_A, DCLOFF_CUR_DISABLE_RESET)
    ensures InField(DCLOFF_CUR_100_N_A, DCLOFF_CUR_DISABLE_RESET)
    ensures InField(DCLOFF_VTH_400_M_V, DCLOFF_VTH_300_M_V_RESET)
    ensures InField(DCLOFF_VTH_450_M_V, DCLOFF_VTH_300_M_V_RESET)
    ensures InField(DCLOFF_VTH_500_M_V, DCLOFF_VTH_300_M_V_RESET)
    ensures InField(RBIAS_SEL_100_M_OHM, RBIAS_SEL_50_M_OHM_RESET)
    ensures InField(RBIAS_SEL_200_M_OHM, RBIAS_SEL_50_M_OHM_RESET)
  {
  }

  /**
   * The four fastest calibration frequencies fit the FCAL field mask
   * `FCAL_256_HZ_RESET` (bits 12-14); the three slowest codes lie wholly
   * outside it, in bits 16-18.
   */
  lemma FcalCodesAndTheirMask()
    ensures FCAL_256_HZ_RESET == 0x7000
    ensures InField(FCAL_64_HZ, FCAL_256_HZ_RESET) && InField(FCAL_16_HZ, FCAL_256_HZ_RESET)
    ensures InField(FCAL_4_HZ, FCAL_256_HZ_RESET) && InField(FCAL_1_HZ, FCAL_256_HZ_RESET)
    ensures FCAL_250_M_HZ & FCAL_256_HZ_RESET == 0 && FCAL_250_M_HZ != 0
    ensures FCAL_62_M_HZ & FCAL_256_HZ_RESET == 0 && FCAL_62_M_HZ != 0
    ensures FCAL_16_M_HZ & FCAL_256_HZ_RESET == 0 && FCAL_16_M_HZ != 0
  {
  }

  /** The FIFO-interrupt and overflow flags, moved down to the status high byte, are two distinct single bits. */
  lemma StatusFlagsInHighByte()
    ensures EINT >> 16 == 0x80 && EOVF >> 16 == 0x40
    ensures EINT & EOVF == 0
  {
  }

  /** Every address fits in 7 bits, which leaves bit 0 of a command byte for the flag. */
  lemma AddressesFitSevenBits()
    ensures forall i :: 0 <= i < |ADDRESSES| ==> ADDRESSES[i] <= RTOR < 0x80
    ensures WREG | RREG == 1 && WREG != RREG
  {
  }
}
